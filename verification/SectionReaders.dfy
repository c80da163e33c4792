/** The two independent readers of a `## ` section, proved to agree. */
module SectionReaders {
  import opened Text
  import opened Fences
  import opened Documents

  // `sectionLines` with `parseEntryDetails` (src/backlog/backlog-md.ts) collects the section and walks it
  // with a fresh tracker; `actionableEntryRanges` (src/backlog/backlog-index-data.ts) walks the document
  // once and returns line numbers. Both are proved against the reference reading.

  datatype BacklogEntry = BacklogEntry(title: string, body: string)

  /** An entry's 1-based line range. */
  datatype Range = Range(title: string, start: nat, end: nat)

  function View(e: Entry): BacklogEntry {
    BacklogEntry(e.Title(), e.Text())
  }

  function Views(es: seq<Entry>): (vs: seq<BacklogEntry>)
    ensures |vs| == |es|
  {
    if es == [] then [] else [View(es[0])] + Views(es[1..])
  }

  lemma {:induction false} BlankToks(pad: seq<Tok>)
    requires forall k | k in pad :: Blank(k.line)
    ensures forall l | l in LinesOf(pad) :: Blank(l)
  {
    if pad != [] {
      assert pad[0] in pad;
      BlankToks(pad[1..]);
    }
  }

  /** Trailing blank lines never reach the trimmed body. */
  lemma TextOfBody(toks: seq<Tok>)
    ensures Trim(Join(LinesOf(CutBlank(toks)))) == Trim(Join(LinesOf(toks)))
  {
    var cut := CutBlank(toks);
    var pad := toks[|cut|..];
    assert toks == cut + pad;
    LinesOfConcat(cut, pad);
    BlankToks(pad);
    JoinPaddedRight(LinesOf(cut), LinesOf(pad));
  }

  // ---------------------------------------------------------------- sectionLines

  /** The tokens of every section titled `t`, without the section headings. */
  function SectionToks(t: string, inside: bool, toks: seq<Tok>): seq<Tok>
    decreases |toks|
  {
    if toks == [] then []
    else if toks[0].kind == SectionHead then SectionToks(t, toks[0].Title() == t, toks[1..])
    else (if inside then [toks[0]] else []) + SectionToks(t, inside, toks[1..])
  }

  /** What the walk over `lines` has collected in `out` once `done` lines are read. */
  ghost predicate Collected(t: string, done: seq<string>, out: seq<string>, inSection: bool) {
    && Toks(Closed, out) == SectionToks(t, false, Toks(Closed, done))
    && inSection == InsideAfter(t, false, Toks(Closed, done))
    && After(Closed, out) == (if inSection then After(Closed, done) else Closed)
  }

  lemma {:induction false} SectionToksSnoc(t: string, inside: bool, toks: seq<Tok>, k: Tok)
    ensures SectionToks(t, inside, toks + [k]) == SectionToks(t, inside, toks)
         + (if k.kind != SectionHead && InsideAfter(t, inside, toks) then [k] else [])
    ensures InsideAfter(t, inside, toks + [k])
         == if k.kind == SectionHead then k.Title() == t else InsideAfter(t, inside, toks)
    decreases |toks|
  {
    if toks == [] {
      assert toks + [k] == [k];
      assert [k][1..] == [];
    } else {
      assert (toks + [k])[1..] == toks[1..] + [k];
      SectionToksSnoc(t, if toks[0].kind == SectionHead then toks[0].Title() == t else inside, toks[1..], k);
    }
  }

  lemma CollectedStep(t: string, done: seq<string>, out: seq<string>, inSection: bool, line: string)
    requires Collected(t, done, out, inSection)
    ensures var k := Tok(KindOf(After(Closed, done), line), line);
      if k.kind == SectionHead then Collected(t, done + [line], out, k.Title() == t)
      else Collected(t, done + [line], if inSection then out + [line] else out, inSection)
  {
    var f := After(Closed, done);
    ToksConcat(Closed, done, [line]);
    ToksConcat(Closed, out, [line]);
    OneTok(f, line);
    OneTok(After(Closed, out), line);
    SectionToksSnoc(t, false, Toks(Closed, done), Tok(KindOf(f, line), line));
    if KindOf(f, line) == SectionHead {
      HeadIsOutside(f, line);
    }
  }

  method SectionLines(lines: seq<string>, t: string) returns (out: seq<string>)
    ensures Toks(Closed, out) == SectionToks(t, false, Toks(Closed, lines))
  {
    out := [];
    var inSection := false;
    var fenced := new FenceTracker();
    for i := 0 to |lines|
      invariant fenced.fence == After(Closed, lines[..i])
      invariant Collected(t, lines[..i], out, inSection)
    {
      assert lines[..i + 1] == lines[..i] + [lines[i]];
      CollectedStep(t, lines[..i], out, inSection, lines[i]);
      AfterConcat(Closed, lines[..i], [lines[i]]);
      OneTok(fenced.fence, lines[i]);
      var title := fenced.HeadingTitle(lines[i], "## ");
      if title.Titled? {
        inSection := title.title == t;
      } else if inSection {
        out := out + [lines[i]];
      }
    }
    assert lines[..|lines|] == lines;
  }

  // ---------------------------------------------------------------- parseEntryDetails

  function Flat(t: string, lines: seq<string>): seq<Entry> {
    Entries(t, true, SectionToks(t, false, Toks(Closed, lines)))
  }

  datatype Open = NoneOpen | OpenEntry(title: string)

  /** The entry `close()` would push. */
  function Closing(open: Open, bodyLines: seq<string>): seq<BacklogEntry> {
    if open.NoneOpen? then [] else [BacklogEntry(open.title, Trim(Join(bodyLines)))]
  }

  /** The entries pushed so far, the open one once the rest of its body is read, and the entries
      still to come are the section's entries. */
  ghost predicate Parsed(t: string, all: seq<Tok>, rest: seq<Tok>, entries: seq<BacklogEntry>, open: Open, bodyLines: seq<string>) {
    entries + Closing(open, bodyLines + LinesOf(Body(rest))) + Views(Entries(t, true, rest)) == Views(Entries(t, true, all))
  }

  lemma ParsedText(t: string, all: seq<Tok>, k: Tok, rest: seq<Tok>, entries: seq<BacklogEntry>, open: Open, bodyLines: seq<string>)
    requires Parsed(t, all, [k] + rest, entries, open, bodyLines) && !k.IsHead()
    ensures Parsed(t, all, rest, entries, open, bodyLines + [k.line])
  {
    assert ([k] + rest)[1..] == rest;
    assert bodyLines + LinesOf(Body([k] + rest)) == bodyLines + [k.line] + LinesOf(Body(rest));
  }

  lemma ParsedHead(t: string, all: seq<Tok>, k: Tok, rest: seq<Tok>, entries: seq<BacklogEntry>, open: Open, bodyLines: seq<string>)
    requires Parsed(t, all, [k] + rest, entries, open, bodyLines) && k.kind == EntryHead && |k.line| >= 4
    ensures Parsed(t, all, rest, entries + Closing(open, bodyLines), OpenEntry(k.Title()), [])
  {
    var more := Entries(t, true, rest);
    var e := HeadEntry(t, k, rest);
    assert LinesOf(Body([k] + rest)) == [];
    assert bodyLines + [] == bodyLines;
    assert ([e] + more)[1..] == more;
    assert Views([e] + more) == [View(e)] + Views(more);
    assert [] + LinesOf(Body(rest)) == LinesOf(Body(rest));
    Regroup(entries, Closing(open, bodyLines), [View(e)], Views(more));
  }

  lemma HeadEntry(t: string, k: Tok, rest: seq<Tok>) returns (e: Entry)
    requires k.kind == EntryHead && |k.line| >= 4
    ensures Entries(t, true, [k] + rest) == [e] + Entries(t, true, rest)
    ensures View(e) == BacklogEntry(k.Title(), Trim(Join(LinesOf(Body(rest)))))
  {
    assert ([k] + rest)[1..] == rest;
    e := Entry(k.line, CutBlank(Body(rest)));
    TextOfBody(Body(rest));
  }

  lemma Regroup<T>(a: seq<T>, b: seq<T>, c: seq<T>, d: seq<T>)
    ensures a + b + (c + d) == (a + b) + c + d
  {
  }

  ghost predicate Parsing(t: string, section: seq<string>, f: Fence, rest: seq<string>, entries: seq<BacklogEntry>, open: Open, bodyLines: seq<string>) {
    && (forall k | k in Toks(f, rest) :: k.kind != SectionHead)
    && Parsed(t, Toks(Closed, section), Toks(f, rest), entries, open, bodyLines)
  }

  lemma ParsingStep(t: string, section: seq<string>, f: Fence, line: string, rest: seq<string>, entries: seq<BacklogEntry>, open: Open, bodyLines: seq<string>)
    requires Parsing(t, section, f, [line] + rest, entries, open, bodyLines)
    ensures if !Inside(f, line) && "### " <= line
            then Next(f, line) == f && Parsing(t, section, f, rest, entries + Closing(open, bodyLines), OpenEntry(Trim(line[4..])), [])
            else Parsing(t, section, Next(f, line), rest, entries, open, bodyLines + [line])
    ensures !Inside(f, line) ==> Next(f, line) == f && Next(Next(f, line), line) == f
  {
    assert ([line] + rest)[1..] == rest;
    var k, later := Tok(KindOf(f, line), line), Toks(Next(f, line), rest);
    assert Toks(f, [line] + rest) == [k] + later;
    assert k in [k] + later;
    if k.kind == EntryHead {
      ParsedHead(t, Toks(Closed, section), k, later, entries, open, bodyLines);
    } else {
      ParsedText(t, Toks(Closed, section), k, later, entries, open, bodyLines);
    }
  }

  method ParseEntryDetails(lines: seq<string>, t: string) returns (entries: seq<BacklogEntry>)
    ensures entries == Views(Flat(t, lines))
  {
    hide *;
    var section := SectionLines(lines, t);
    entries := [];
    var open := NoneOpen;
    var bodyLines: seq<string> := [];
    var fenced := new FenceTracker();
    ParsingStarts(t, lines, section);
    var i := 0;
    while i < |section|
      invariant 0 <= i <= |section|
      invariant Parsing(t, section, fenced.fence, section[i..], entries, open, bodyLines)
    {
      var line := section[i];
      assert section[i..] == [line] + section[i + 1..];
      ParsingStep(t, section, fenced.fence, line, section[i + 1..], entries, open, bodyLines);
      var inside := fenced.Feed(line);
      if inside {
        bodyLines := bodyLines + [line];
      } else {
        var heading := fenced.HeadingTitle(line, "### ");
        if heading.Titled? {
          entries := entries + Closing(open, bodyLines);
          open, bodyLines := OpenEntry(heading.title), [];
        } else {
          bodyLines := bodyLines + [line];
        }
      }
      i := i + 1;
    }
    assert section[i..] == [];
    ParsingEnds(t, lines, section, fenced.fence, entries, open, bodyLines);
    entries := entries + Closing(open, bodyLines);
  }

  lemma ParsingStarts(t: string, lines: seq<string>, section: seq<string>)
    requires Toks(Closed, section) == SectionToks(t, false, Toks(Closed, lines))
    ensures section[0..] == section && Parsing(t, section, Closed, section, [], NoneOpen, [])
  {
    SectionToksHoldNoSectionHead(t, false, Toks(Closed, lines));
  }

  lemma ParsingEnds(t: string, lines: seq<string>, section: seq<string>, f: Fence, entries: seq<BacklogEntry>, open: Open, bodyLines: seq<string>)
    requires Toks(Closed, section) == SectionToks(t, false, Toks(Closed, lines))
    requires Parsing(t, section, f, [], entries, open, bodyLines)
    ensures entries + Closing(open, bodyLines) == Views(Flat(t, lines))
  {
    assert bodyLines + LinesOf(Body([])) == bodyLines;
  }

  lemma {:induction false} SectionToksHoldNoSectionHead(t: string, inside: bool, toks: seq<Tok>)
    ensures forall k | k in SectionToks(t, inside, toks) :: k.kind != SectionHead
    decreases |toks|
  {
    if toks != [] {
      SectionToksHoldNoSectionHead(t, if toks[0].kind == SectionHead then toks[0].Title() == t else inside, toks[1..]);
    }
  }

  // ---------------------------------------------------------------- actionableEntryRanges

  /** The 1-based number of the document's last line: a trailing newline splits off one more. */
  function LastLine(lines: seq<string>): nat {
    if |lines| >= 2 && lines[|lines| - 1] == "" then |lines| - 1 else |lines|
  }

  /** The ranges of the entries under `## t` among tokens starting at 0-based line `at`; an entry
      that runs to the end of the file ends at line `eof`. */
  function RangesFrom(t: string, inside: bool, toks: seq<Tok>, at: nat, eof: nat): (r: seq<Range>)
    ensures |r| == |Entries(t, inside, toks)|
    decreases |toks|
  {
    if toks == [] then []
    else if toks[0].kind == SectionHead then RangesFrom(t, toks[0].Title() == t, toks[1..], at + 1, eof)
    else if toks[0].kind == EntryHead && inside then
      [Range(toks[0].Title(), at + 1, EndOf(toks[1..], at + 1, eof))] + RangesFrom(t, inside, toks[1..], at + 1, eof)
    else RangesFrom(t, inside, toks[1..], at + 1, eof)
  }

  function Ranges(t: string, lines: seq<string>): (r: seq<Range>)
    ensures |r| == |Read(t, lines)|
  {
    RangesFrom(t, false, Toks(Closed, lines), 0, LastLine(lines))
  }

  datatype OpenRange = NoRange | OpenRange(title: string, start: nat)

  function ClosingRange(open: OpenRange, end: nat): seq<Range> {
    if open.NoRange? then [] else [Range(open.title, open.start, end)]
  }

  /** The end of an entry open at line `at`, once the rest of its body is read. */
  function EndOf(toks: seq<Tok>, at: nat, eof: nat): nat {
    var n := |Body(toks)|;
    if n == |toks| then eof else at + n
  }

  ghost predicate RangingToks(t: string, all: seq<Range>, eof: nat, at: nat, toks: seq<Tok>, entries: seq<Range>, inSection: bool, open: OpenRange) {
    entries + ClosingRange(open, EndOf(toks, at, eof)) + RangesFrom(t, inSection, toks, at, eof) == all
  }

  lemma RangingText(t: string, all: seq<Range>, eof: nat, at: nat, k: Tok, later: seq<Tok>, entries: seq<Range>, inSection: bool, open: OpenRange)
    requires RangingToks(t, all, eof, at, [k] + later, entries, inSection, open)
    requires !k.IsHead() || (k.kind == EntryHead && !inSection && open == NoRange)
    ensures RangingToks(t, all, eof, at + 1, later, entries, inSection, open)
  {
    assert ([k] + later)[1..] == later;
    if !k.IsHead() {
      assert Body([k] + later) == [k] + Body(later);
    }
  }

  lemma RangingSection(t: string, all: seq<Range>, eof: nat, at: nat, k: Tok, later: seq<Tok>, entries: seq<Range>, inSection: bool, open: OpenRange)
    requires RangingToks(t, all, eof, at, [k] + later, entries, inSection, open)
    requires k.kind == SectionHead
    ensures RangingToks(t, all, eof, at + 1, later, entries + ClosingRange(open, at), k.Title() == t, NoRange)
  {
    assert ([k] + later)[1..] == later;
    assert Body([k] + later) == [];
    assert entries + ClosingRange(open, at) + [] == entries + ClosingRange(open, at);
  }

  lemma RangingEntry(t: string, all: seq<Range>, eof: nat, at: nat, k: Tok, later: seq<Tok>, entries: seq<Range>, open: OpenRange)
    requires RangingToks(t, all, eof, at, [k] + later, entries, true, open)
    requires k.kind == EntryHead
    ensures RangingToks(t, all, eof, at + 1, later, entries + ClosingRange(open, at), true, OpenRange(k.Title(), at + 1))
  {
    hide Body, CutBlank, Trim;
    assert ([k] + later)[1..] == later;
    BodyCons(k, later);
    var r := Range(k.Title(), at + 1, EndOf(later, at + 1, eof));
    assert RangesFrom(t, true, [k] + later, at, eof) == [r] + RangesFrom(t, true, later, at + 1, eof);
    Regroup(entries, ClosingRange(open, at), [r], RangesFrom(t, true, later, at + 1, eof));
  }

  ghost predicate Ranging(t: string, lines: seq<string>, f: Fence, at: nat, rest: seq<string>, entries: seq<Range>, inSection: bool, open: OpenRange) {
    RangingToks(t, Ranges(t, lines), LastLine(lines), at, Toks(f, rest), entries, inSection, open)
  }

  lemma RangingStep(t: string, lines: seq<string>, f: Fence, at: nat, line: string, rest: seq<string>, entries: seq<Range>, inSection: bool, open: OpenRange)
    requires Ranging(t, lines, f, at, [line] + rest, entries, inSection, open)
    requires !inSection ==> open == NoRange
    ensures
      match KindOf(f, line)
      case SectionHead => Ranging(t, lines, Next(f, line), at + 1, rest, entries + ClosingRange(open, at), Trim(line[3..]) == t, NoRange)
      case EntryHead =>
        if inSection
        then Ranging(t, lines, Next(f, line), at + 1, rest, entries + ClosingRange(open, at), true, OpenRange(Trim(line[4..]), at + 1))
        else Ranging(t, lines, Next(f, line), at + 1, rest, entries, inSection, open)
      case _ => Ranging(t, lines, Next(f, line), at + 1, rest, entries, inSection, open)
  {
    assert ([line] + rest)[1..] == rest;
    var k, later := Tok(KindOf(f, line), line), Toks(Next(f, line), rest);
    var all, eof := Ranges(t, lines), LastLine(lines);
    match k.kind
    case SectionHead => RangingSection(t, all, eof, at, k, later, entries, inSection, open);
    case EntryHead =>
      if inSection {
        RangingEntry(t, all, eof, at, k, later, entries, open);
      } else {
        RangingText(t, all, eof, at, k, later, entries, inSection, open);
      }
    case Plain => RangingText(t, all, eof, at, k, later, entries, inSection, open);
    case Fenced => RangingText(t, all, eof, at, k, later, entries, inSection, open);
  }

  method ActionableEntryRanges(lines: seq<string>, t: string) returns (entries: seq<Range>)
    ensures entries == Ranges(t, lines)
  {
    hide Next, Inside, Toks, Trim, RangesFrom, FenceOpener, ClosesFence;
    entries := [];
    var inSection := false;
    var open := NoRange;
    var fenced := new FenceTracker();
    assert lines[0..] == lines;
    var i := 0;
    while i < |lines|
      invariant 0 <= i <= |lines|
      invariant !inSection ==> open == NoRange
      invariant Ranging(t, lines, fenced.fence, i, lines[i..], entries, inSection, open)
    {
      var line := lines[i];
      assert lines[i..] == [line] + lines[i + 1..];
      RangingStep(t, lines, fenced.fence, i, line, lines[i + 1..], entries, inSection, open);
      var inside := fenced.Feed(line);
      if inside {
      } else if "## " <= line {
        entries := entries + ClosingRange(open, i);
        open := NoRange;
        inSection := Trim(line[3..]) == t;
      } else if inSection && "### " <= line {
        entries := entries + ClosingRange(open, i);
        open := OpenRange(Trim(line[4..]), i + 1);
      }
      i := i + 1;
    }
    assert lines[i..] == [];
    entries := entries + ClosingRange(open, LastLine(lines));
  }

  // ---------------------------------------------------------------- the readers agree

  function Titles(es: seq<Entry>): (ts: seq<string>)
    ensures |ts| == |es|
  {
    if es == [] then [] else [es[0].Title()] + Titles(es[1..])
  }

  lemma TitlesCons(e: Entry, es: seq<Entry>)
    ensures Titles([e] + es) == [e.Title()] + Titles(es)
  {
    assert ([e] + es)[1..] == es;
  }

  /** Both readers list the same titles, however often the section occurs: every fence is closed
      where a section starts, so a tracker started afresh there reads what a document-wide one reads. */
  lemma {:induction false} FlatTitles(t: string, inside: bool, toks: seq<Tok>)
    ensures Titles(Entries(t, true, SectionToks(t, inside, toks))) == Titles(Entries(t, inside, toks))
    decreases |toks|
  {
    if toks != [] {
      hide Titles, Entries, CutBlank, Body;
      var inside' := if toks[0].kind == SectionHead then toks[0].Title() == t else inside;
      EntriesCons(t, inside, toks[0], toks[1..]);
      assert toks == [toks[0]] + toks[1..];
      FlatTitles(t, inside', toks[1..]);
      if toks[0].kind != SectionHead {
        if inside {
          FlatTitlesStep(t, toks[0], toks[1..]);
        } else {
          assert [] + SectionToks(t, inside, toks[1..]) == SectionToks(t, inside, toks[1..]);
        }
      }
    }
  }

  lemma FlatTitlesStep(t: string, k: Tok, rest: seq<Tok>)
    requires k.kind != SectionHead
    requires Titles(Entries(t, true, SectionToks(t, true, rest))) == Titles(Entries(t, true, rest))
    ensures Titles(Entries(t, true, SectionToks(t, true, [k] + rest))) == Titles(Entries(t, true, [k] + rest))
  {
    var section := SectionToks(t, true, rest);
    assert ([k] + rest)[1..] == rest;
    assert SectionToks(t, true, [k] + rest) == [k] + section;
    EntriesCons(t, true, k, section);
    EntriesCons(t, true, k, rest);
    if k.kind == EntryHead {
      TitlesCons(Entry(k.line, CutBlank(Body(section))), Entries(t, true, section));
      TitlesCons(Entry(k.line, CutBlank(Body(rest))), Entries(t, true, rest));
    } else {
      assert [] + Entries(t, true, section) == Entries(t, true, section);
      assert [] + Entries(t, true, rest) == Entries(t, true, rest);
    }
  }

  lemma {:induction false} NoSectionNoToks(t: string, toks: seq<Tok>)
    requires SectionCount(t, toks) == 0
    ensures SectionToks(t, false, toks) == [] && Entries(t, false, toks) == []
  {
    if toks != [] {
      NoSectionNoToks(t, toks[1..]);
    }
  }

  lemma {:induction false} BodyInSection(t: string, toks: seq<Tok>)
    requires SectionCount(t, toks) == 0
    ensures Body(SectionToks(t, true, toks)) == Body(toks)
  {
    if toks != [] {
      if toks[0].kind == SectionHead {
        NoSectionNoToks(t, toks[1..]);
      } else {
        assert SectionToks(t, true, toks)[1..] == SectionToks(t, true, toks[1..]);
        if !toks[0].IsHead() {
          BodyInSection(t, toks[1..]);
        }
      }
    }
  }

  lemma {:induction false} FlatOnce(t: string, inside: bool, toks: seq<Tok>)
    requires SectionCount(t, toks) <= if inside then 0 else 1
    ensures Entries(t, true, SectionToks(t, inside, toks)) == Entries(t, inside, toks)
    decreases |toks|
  {
    if toks != [] {
      hide Body, CutBlank, Entries;
      var rest := toks[1..];
      assert toks == [toks[0]] + rest;
      EntriesCons(t, inside, toks[0], rest);
      if toks[0].kind == SectionHead {
        FlatOnce(t, toks[0].Title() == t, rest);
      } else {
        FlatOnce(t, inside, rest);
        if inside {
          EntriesCons(t, true, toks[0], SectionToks(t, true, rest));
          BodyInSection(t, rest);
        } else {
          assert [] + SectionToks(t, inside, rest) == SectionToks(t, inside, rest);
        }
      }
    }
  }

  /** Reading on from inside a `## t` section or not, with one of its entries open or not, and above
      the section's own first entry or not: while an entry is open, no visible line stands in a
      repeated section above that section's first entry. */
  predicate NothingStrays(t: string, inside: bool, above: bool, open: bool, toks: seq<Tok>)
    decreases |toks|
  {
    if toks == [] then true
    else if toks[0].kind == SectionHead then NothingStrays(t, toks[0].Title() == t, true, open, toks[1..])
    else if inside && toks[0].kind == EntryHead then NothingStrays(t, true, false, true, toks[1..])
    else (inside && above && open ==> Blank(toks[0].line)) && NothingStrays(t, inside, above, open, toks[1..])
  }

  /** The same, up to the next entry only. */
  predicate BlankToEntry(t: string, inside: bool, above: bool, toks: seq<Tok>)
    decreases |toks|
  {
    if toks == [] then true
    else if toks[0].kind == SectionHead then BlankToEntry(t, toks[0].Title() == t, true, toks[1..])
    else if inside && toks[0].kind == EntryHead then true
    else (inside && above ==> Blank(toks[0].line)) && BlankToEntry(t, inside, above, toks[1..])
  }

  lemma {:induction false} StraysAfterEntry(t: string, inside: bool, above: bool, toks: seq<Tok>)
    ensures NothingStrays(t, inside, above, true, toks)
       <==> BlankToEntry(t, inside, above, toks) && NothingStrays(t, inside, above, false, toks)
    decreases |toks|
  {
    hide Blank;
    if toks != [] {
      var head := toks[0].kind == SectionHead;
      StraysAfterEntry(t, if head then toks[0].Title() == t else inside, head || above, toks[1..]);
    }
  }

  ghost predicate AllBlank(toks: seq<Tok>) {
    forall k | k in toks :: Blank(k.line)
  }

  /** What the collected section holds up to its next entry, from a repeated heading on. */
  lemma {:induction false} StrayLines(t: string, inside: bool, toks: seq<Tok>)
    ensures BlankToEntry(t, inside, true, toks) <==> AllBlank(Body(SectionToks(t, inside, toks)))
    decreases |toks|
  {
    hide Blank;
    if toks != [] {
      var rest := toks[1..];
      assert toks == [toks[0]] + rest;
      SectionToksCons(t, inside, toks[0], rest);
      if toks[0].kind == SectionHead {
        StrayLines(t, toks[0].Title() == t, rest);
      } else {
        StrayLines(t, inside, rest);
        var section := SectionToks(t, inside, rest);
        assert [] + section == section;
        BodyCons(toks[0], section);
        assert forall k :: k in [toks[0]] + Body(section) <==> k == toks[0] || k in Body(section);
      }
    }
  }

  /** `stray` is what an open entry's body gains in the collected section. */
  ghost predicate Strays(t: string, toks: seq<Tok>, stray: seq<Tok>) {
    Body(SectionToks(t, true, toks)) == Body(toks) + stray && (BlankToEntry(t, true, false, toks) <==> AllBlank(stray))
  }

  /** An open entry's body in the collected section is its own body and the stray lines after it. */
  lemma {:induction false} OwnAndStray(t: string, toks: seq<Tok>) returns (stray: seq<Tok>)
    ensures Strays(t, toks, stray)
    decreases |toks|
  {
    hide *;
    if toks == [] {
      stray := [];
      NoneStray(t);
    } else {
      var k, rest := toks[0], toks[1..];
      assert toks == [k] + rest;
      if k.kind == SectionHead {
        stray := StrayFromHead(t, k, rest);
      } else if k.kind == EntryHead {
        stray := [];
        NoneAtEntry(t, k, rest);
      } else {
        HeadKinds(k);
        stray := OwnAndStray(t, rest);
        StrayAfterLine(t, k, rest, stray);
      }
    }
  }

  lemma NoneStray(t: string)
    ensures Strays(t, [], [])
  {
    assert SectionToks(t, true, []) == [];
  }

  lemma StrayFromHead(t: string, k: Tok, rest: seq<Tok>) returns (stray: seq<Tok>)
    requires k.kind == SectionHead
    ensures Strays(t, [k] + rest, stray)
  {
    hide Blank, Body, SectionToks, AllBlank, BlankToEntry, Tok.Title;
    SectionToksCons(t, true, k, rest);
    BlankToEntryCons(t, true, false, k, rest);
    BodyCons(k, rest);
    StrayLines(t, k.Title() == t, rest);
    stray := Body(SectionToks(t, k.Title() == t, rest));
    assert [] + stray == stray;
  }

  lemma NoneAtEntry(t: string, k: Tok, rest: seq<Tok>)
    requires k.kind == EntryHead
    ensures Strays(t, [k] + rest, [])
  {
    hide Blank, Body, SectionToks, BlankToEntry, Tok.Title;
    SectionToksCons(t, true, k, rest);
    BlankToEntryCons(t, true, false, k, rest);
    BodyCons(k, rest);
    BodyCons(k, SectionToks(t, true, rest));
  }

  lemma StrayAfterLine(t: string, k: Tok, rest: seq<Tok>, stray: seq<Tok>)
    requires !k.IsHead() && Strays(t, rest, stray)
    ensures Strays(t, [k] + rest, stray)
  {
    hide *;
    StraysAre(t, rest, stray);
    StraysAre(t, [k] + rest, stray);
    LineInSection(t, k, rest);
    BlankPastLine(t, k, rest);
    LineBody(k, rest);
    LineBody(k, SectionToks(t, true, rest));
    Prepended(k, Body(rest), stray);
  }

  lemma LineBody(k: Tok, rest: seq<Tok>)
    requires !k.IsHead()
    ensures Body([k] + rest) == [k] + Body(rest)
  {
    BodyCons(k, rest);
  }

  lemma Prepended(k: Tok, a: seq<Tok>, b: seq<Tok>)
    ensures [k] + (a + b) == [k] + a + b
  {
  }

  lemma StraysAre(t: string, toks: seq<Tok>, stray: seq<Tok>)
    ensures Strays(t, toks, stray) <==>
              Body(SectionToks(t, true, toks)) == Body(toks) + stray && (BlankToEntry(t, true, false, toks) <==> AllBlank(stray))
  {
  }

  lemma LineInSection(t: string, k: Tok, rest: seq<Tok>)
    requires !k.IsHead()
    ensures SectionToks(t, true, [k] + rest) == [k] + SectionToks(t, true, rest)
  {
    hide Tok.Title;
    SectionToksCons(t, true, k, rest);
  }

  lemma BlankPastLine(t: string, k: Tok, rest: seq<Tok>)
    requires !k.IsHead()
    ensures BlankToEntry(t, true, false, [k] + rest) <==> BlankToEntry(t, true, false, rest)
  {
    hide Tok.Title;
    BlankToEntryCons(t, true, false, k, rest);
  }

  lemma BlankToEntryCons(t: string, inside: bool, above: bool, k: Tok, rest: seq<Tok>)
    ensures BlankToEntry(t, inside, above, [k] + rest)
       <==> if k.kind == SectionHead then BlankToEntry(t, k.Title() == t, true, rest)
            else if inside && k.kind == EntryHead then true
            else (inside && above ==> Blank(k.line)) && BlankToEntry(t, inside, above, rest)
    ensures BlankToEntry(t, inside, above, [])
  {
    hide Blank;
    assert ([k] + rest)[1..] == rest;
  }

  /** Visible lines more are visible characters more. */
  lemma StrayShows(body: seq<Tok>, stray: seq<Tok>)
    ensures AllBlank(stray) ==> CutBlank(body + stray) == CutBlank(body)
    ensures !AllBlank(stray) ==> Trim(Join(LinesOf(CutBlank(body + stray)))) != Trim(Join(LinesOf(CutBlank(body))))
  {
    hide Blank, Trim;
    if AllBlank(stray) {
      CutBlankPad(body, stray);
    } else {
      TextOfBody(body + stray);
      TextOfBody(body);
      LinesOfConcat(body, stray);
      InkJoined(LinesOf(body), LinesOf(stray));
      InkTrimmed(Join(LinesOf(body + stray)));
      InkTrimmed(Join(LinesOf(body)));
      InkOfLines(stray);
    }
  }

  lemma {:induction false} InkOfLines(toks: seq<Tok>)
    requires !AllBlank(toks)
    ensures Ink(Join(LinesOf(toks))) > 0
  {
    hide Blank;
    var rest := toks[1..];
    assert toks == [toks[0]] + rest;
    LinesOfConcat([toks[0]], rest);
    assert LinesOf([toks[0]]) == [toks[0].line];
    InkJoined([toks[0].line], LinesOf(rest));
    InkIsVisible(toks[0].line);
    if Blank(toks[0].line) {
      InkOfLines(rest);
    }
  }

  /** What each reader shows of a document, title and trimmed body, agrees exactly where nothing strays. */
  lemma {:induction false} FlatIff(t: string, inside: bool, above: bool, toks: seq<Tok>)
    ensures var flat, read := Entries(t, true, SectionToks(t, inside, toks)), Entries(t, inside, toks);
      && (flat == read <==> NothingStrays(t, inside, above, false, toks))
      && (Views(flat) == Views(read) <==> NothingStrays(t, inside, above, false, toks))
    decreases |toks|
  {
    hide Blank, Entries, SectionToks, CutBlank, Body, Views;
    if toks == [] {
      SectionToksCons(t, inside, Tok(Plain, ""), []);
      InsideNothing(t, inside);
      InsideNothing(t, true);
    } else {
      var k, rest := toks[0], toks[1..];
      assert toks == [k] + rest;
      EntriesCons(t, inside, k, rest);
      SectionToksCons(t, inside, k, rest);
      var head := k.kind == SectionHead;
      FlatIff(t, if head then k.Title() == t else inside, if k.kind == EntryHead && inside then false else head || above, rest);
      var section := SectionToks(t, inside, rest);
      assert [] + section == section && [] + Entries(t, inside, rest) == Entries(t, inside, rest);
      if !head && inside {
        EntriesCons(t, true, k, section);
        assert [] + Entries(t, true, section) == Entries(t, true, section);
        if k.kind == EntryHead {
          var stray := OwnAndStray(t, rest);
          StrayShows(Body(rest), stray);
          StraysAfterEntry(t, true, false, rest);
          HeadsDiffer(Entry(k.line, CutBlank(Body(section))), Entries(t, true, section),
                      Entry(k.line, CutBlank(Body(rest))), Entries(t, true, rest));
        }
      }
    }
  }

  lemma HeadsDiffer(e: Entry, es: seq<Entry>, f: Entry, fs: seq<Entry>)
    requires e.head == f.head
    ensures [e] + es == [f] + fs <==> e == f && es == fs
    ensures Views([e] + es) == Views([f] + fs) <==> e.Text() == f.Text() && Views(es) == Views(fs)
  {
    hide Trim;
    var a, b := [e] + es, [f] + fs;
    assert a[0] == e && b[0] == f && a[1..] == es && b[1..] == fs;
    var x, y := Views(a), Views(b);
    assert x == [View(e)] + Views(es) && y == [View(f)] + Views(fs);
    assert x[0] == View(e) && y[0] == View(f) && x[1..] == Views(es) && y[1..] == Views(fs);
  }

  /** The two independent readers agree: the same titles in the same order on every document; and the
      same titles and trimmed bodies if and only if no repeat of the section has a visible line above
      its own first entry while an earlier entry is open. A section that occurs once is such a case. */
  lemma ReadersAgree(t: string, lines: seq<string>)
    ensures Titles(Flat(t, lines)) == Titles(Read(t, lines))
    ensures Once(t, lines) ==> Flat(t, lines) == Read(t, lines)
    ensures Flat(t, lines) == Read(t, lines) <==> NothingStrays(t, false, true, false, Toks(Closed, lines))
    ensures Views(Flat(t, lines)) == Views(Read(t, lines)) <==> NothingStrays(t, false, true, false, Toks(Closed, lines))
  {
    hide *;
    FlatIs(t, lines);
    FlatTitles(t, false, Toks(Closed, lines));
    FlatIff(t, false, true, Toks(Closed, lines));
    if Once(t, lines) {
      FlatOnce(t, false, Toks(Closed, lines));
    }
  }

  lemma FlatIs(t: string, lines: seq<string>)
    ensures Flat(t, lines) == Entries(t, true, SectionToks(t, false, Toks(Closed, lines)))
    ensures Read(t, lines) == Entries(t, false, Toks(Closed, lines))
    ensures Once(t, lines) <==> SectionCount(t, Toks(Closed, lines)) <= 1
  {
  }

  /** The instance: `parseEntryDetails` reads the second section's prose into the first section's last
      entry. */
  lemma RepeatedSectionsDisagree()
    ensures var lines := ["## A", "### x", "## A", "prose"];
      !NothingStrays("A", false, true, false, Toks(Closed, lines)) && Flat("A", lines) != Read("A", lines)
  {
    var lines := ["## A", "### x", "## A", "prose"];
    var toks := [Tok(SectionHead, "## A"), Tok(EntryHead, "### x"), Tok(SectionHead, "## A"), Tok(Plain, "prose")];
    hide Toks, Entries, SectionToks, Trim, KindOf;
    assert Trim("A") == "A" && Trim("prose") == "prose" by {
      TrimVisible("A");
      TrimVisible("prose");
    }
    RepeatedLinesToks(lines, toks);
    assert toks[1..][1..][1..] == toks[3..] && toks[1..][1..] == toks[2..] && toks[1].kind == EntryHead;
    assert !NothingStrays("A", true, true, true, toks[3..]);
    assert !NothingStrays("A", true, false, true, toks[2..]);
    assert !NothingStrays("A", true, true, false, toks[1..]);
    ReadersAgree("A", lines);
  }

  lemma RepeatedLineKinds()
    ensures KindOf(Closed, "## A") == SectionHead && KindOf(Closed, "### x") == EntryHead && KindOf(Closed, "prose") == Plain
    ensures Next(Closed, "## A") == Closed && Next(Closed, "### x") == Closed && Next(Closed, "prose") == Closed
  {
    NotAMarker("prose");
    HashIsNotAMarker("## A");
    HashIsNotAMarker("### x");
    assert "### x"[2] == '#' && "prose"[0] == 'p';
  }

  lemma RepeatedLinesToks(lines: seq<string>, toks: seq<Tok>)
    requires lines == ["## A", "### x", "## A", "prose"]
    requires toks == [Tok(SectionHead, "## A"), Tok(EntryHead, "### x"), Tok(SectionHead, "## A"), Tok(Plain, "prose")]
    ensures Toks(Closed, lines) == toks
  {
    hide *;
    RepeatedLineKinds();
    ToksCons(Closed, lines, 3);
    ToksCons(Closed, lines, 2);
    ToksCons(Closed, lines, 1);
    ToksCons(Closed, lines, 0);
    assert lines[0..] == lines && |Toks(Closed, lines[4..])| == 0;
  }

  lemma ToksCons(f: Fence, lines: seq<string>, i: nat)
    requires i < |lines|
    ensures Toks(f, lines[i..]) == [Tok(KindOf(f, lines[i]), lines[i])] + Toks(Next(f, lines[i]), lines[i + 1..])
  {
    assert lines[i..][1..] == lines[i + 1..];
  }

  lemma SectionToksCons(t: string, inside: bool, k: Tok, rest: seq<Tok>)
    ensures SectionToks(t, inside, [k] + rest) ==
      if k.kind == SectionHead then SectionToks(t, k.Title() == t, rest)
      else (if inside then [k] else []) + SectionToks(t, inside, rest)
    ensures SectionToks(t, inside, []) == []
  {
    assert ([k] + rest)[1..] == rest;
  }

  // ---------------------------------------------------------------- what a range covers

  lemma {:induction false} RangeAt(t: string, inside: bool, toks: seq<Tok>, at: nat, eof: nat, k: nat) returns (p: nat)
    requires k < |RangesFrom(t, inside, toks, at, eof)|
    ensures p < |toks| && toks[p].kind == EntryHead && InsideAfter(t, inside, toks[..p])
    ensures |Entries(t, inside, toks[..p])| == k
    ensures RangesFrom(t, inside, toks, at, eof)[k] == Range(toks[p].Title(), at + p + 1, EndOf(toks[p + 1..], at + p + 1, eof))
    decreases |toks|
  {
    hide *;
    RangesUnfold(t, inside, toks, at, eof);
    var here := toks[0].kind == EntryHead && inside;
    if here && k == 0 {
      p := 0;
      assert toks[..0] == [];
      InsideNothing(t, inside);
    } else {
      var inside' := if toks[0].kind == SectionHead then toks[0].Title() == t else inside;
      var q := RangeAt(t, inside', toks[1..], at + 1, eof, if here then k - 1 else k);
      p := q + 1;
      SplitPast(toks, q);
      EntriesCons(t, inside, toks[0], toks[1..][..q]);
      InsideCons(t, inside, toks[0], toks[1..][..q]);
    }
  }

  lemma RangesUnfold(t: string, inside: bool, toks: seq<Tok>, at: nat, eof: nat)
    ensures toks == [] ==> RangesFrom(t, inside, toks, at, eof) == []
    ensures toks != [] ==>
              RangesFrom(t, inside, toks, at, eof) ==
                if toks[0].kind == SectionHead then RangesFrom(t, toks[0].Title() == t, toks[1..], at + 1, eof)
                else if toks[0].kind == EntryHead && inside then
                  [Range(toks[0].Title(), at + 1, EndOf(toks[1..], at + 1, eof))] + RangesFrom(t, inside, toks[1..], at + 1, eof)
                else RangesFrom(t, inside, toks[1..], at + 1, eof)
  {
    hide Tok.Title, EndOf, Entries;
  }

  lemma SplitPast(toks: seq<Tok>, q: nat)
    requires q + 1 < |toks|
    ensures toks[..q + 1] == [toks[0]] + toks[1..][..q] && toks[q + 1] == toks[1..][q] && toks[q + 2..] == toks[1..][q + 1..]
  {
  }

  /** The document around its `k`th entry under `## t`: `before`, the entry's heading and body, and
      what follows, which starts at a heading or is nothing. */
  ghost predicate Located(t: string, lines: seq<string>, k: nat, r: Range, stop: nat) {
    && k < |Read(t, lines)| && 1 <= r.start <= r.end <= stop <= |lines|
    && (r.end == stop || (stop == |lines| && r.end == stop - 1 && lines[r.end] == ""))
    && var before := Toks(Closed, lines[..r.start - 1]);
       var head := Tok(EntryHead, lines[r.start - 1]);
       var body := Toks(Closed, lines[r.start..stop]);
       var after := Toks(Closed, lines[stop..]);
       && After(Closed, lines[..r.start - 1]) == Closed
       && (stop < |lines| ==> After(Closed, lines[r.start..stop]) == Closed)
       && head.Title() == r.title && |head.line| >= 4 && head.line[..4] == "### "
       && Toks(Closed, lines) == before + [head] + body + after
       && NoHeads(body) && StartsAtHead(after)
       && InsideAfter(t, false, before)
       && Entries(t, false, before) == Read(t, lines)[..k]
       && Read(t, lines)[k] == Entry(head.line, CutBlank(body))
       && Entries(t, true, after) == Read(t, lines)[k + 1..]
  }

  lemma EntriesAround(t: string, before: seq<Tok>, head: Tok, body: seq<Tok>, after: seq<Tok>)
    requires head.kind == EntryHead && NoHeads(body) && StartsAtHead(after) && InsideAfter(t, false, before)
    ensures Entries(t, false, before + [head] + body + after)
         == Entries(t, false, before) + [Entry(head.line, CutBlank(body))] + Entries(t, true, after)
  {
    hide Entries, InsideAfter, CutBlank;
    assert before + [head] + body + after == before + ([head] + body + after);
    EntriesMeet(t, false, before, [head] + body + after);
    OneEntry(t, true, head, body);
    EntriesMeet(t, true, [head] + body, after);
  }

  /** A body ends where the next heading starts, and its fences are closed there. */
  lemma SplitAtBodyEnd(lines: seq<string>) returns (n: nat)
    ensures n == |Body(Toks(Closed, lines))| <= |lines|
    ensures Body(Toks(Closed, lines)) == Toks(Closed, lines[..n])
    ensures n < |lines| ==> After(Closed, lines[..n]) == Closed
    ensures Toks(Closed, lines) == Toks(Closed, lines[..n]) + Toks(Closed, lines[n..])
    ensures StartsAtHead(Toks(Closed, lines[n..]))
  {
    var toks := Toks(Closed, lines);
    n := |Body(toks)|;
    ToksSplit(Closed, lines, n);
    if n < |lines| {
      FreshAtHead(lines, n);
    } else {
      assert lines[n..] == [] && lines[..n] == lines;
    }
  }

  lemma SplitAtEntry(lines: seq<string>, p: nat) returns (stop: nat)
    requires p < |lines| && Toks(Closed, lines)[p].kind == EntryHead
    ensures stop == p + 1 + |Body(Toks(Closed, lines)[p + 1..])| <= |lines|
    ensures After(Closed, lines[..p]) == Closed && |lines[p]| >= 4 && lines[p][..4] == "### "
    ensures stop < |lines| ==> After(Closed, lines[p + 1..stop]) == Closed
    ensures var body, after := Toks(Closed, lines[p + 1..stop]), Toks(Closed, lines[stop..]);
      && NoHeads(body) && StartsAtHead(after)
      && Toks(Closed, lines) == Toks(Closed, lines[..p]) + [Tok(EntryHead, lines[p])] + body + after
  {
    hide Toks, After, KindOf, Next, Body, StartsAtHead, Blank, Inside;
    var toks := Toks(Closed, lines);
    ToksAt(Closed, lines, p);
    HeadIsOutside(After(Closed, lines[..p]), lines[p]);
    ToksSplit(Closed, lines, p + 1);
    var rest := lines[p + 1..];
    var n := SplitAtBodyEnd(rest);
    stop := p + 1 + n;
    assert rest[..n] == lines[p + 1..stop] && rest[n..] == lines[stop..];
    assert toks == toks[..p] + [toks[p]] + toks[p + 1..];
    Associate(toks[..p] + [toks[p]], Toks(Closed, rest[..n]), Toks(Closed, rest[n..]));
  }

  lemma Associate<T>(a: seq<T>, b: seq<T>, c: seq<T>)
    ensures a + (b + c) == a + b + c
  {
  }

  lemma ThreeParts<T>(all: seq<T>, a: seq<T>, x: T, b: seq<T>)
    requires all == a + [x] + b
    ensures all[..|a|] == a && all[|a|] == x && all[|a| + 1..] == b
  {
  }

  lemma RangeEnd(lines: seq<string>, p: nat, stop: nat)
    requires p < stop <= |lines| && lines[p] != ""
    ensures var end := if stop == |lines| then LastLine(lines) else stop;
      p + 1 <= end <= stop && (end == stop || (stop == |lines| && end == stop - 1 && lines[end] == ""))
  {
  }

  lemma Locate(t: string, lines: seq<string>, k: nat) returns (stop: nat)
    requires k < |Ranges(t, lines)|
    ensures Located(t, lines, k, Ranges(t, lines)[k], stop)
  {
    var p := RangeAt(t, false, Toks(Closed, lines), 0, LastLine(lines), k);
    stop := LocateAt(t, lines, k, p, Ranges(t, lines)[k]);
  }

  lemma LocateAt(t: string, lines: seq<string>, k: nat, p: nat, r: Range) returns (stop: nat)
    requires p < |lines| && k < |Read(t, lines)|
    requires var toks := Toks(Closed, lines);
      && toks[p].kind == EntryHead && InsideAfter(t, false, toks[..p]) && |Entries(t, false, toks[..p])| == k
      && r == Range(toks[p].Title(), p + 1, EndOf(toks[p + 1..], p + 1, LastLine(lines)))
    ensures Located(t, lines, k, r, stop)
  {
    stop := SplitAtEntry(lines, p);
    var before, head := Toks(Closed, lines[..p]), Tok(EntryHead, lines[p]);
    var body, after := Toks(Closed, lines[p + 1..stop]), Toks(Closed, lines[stop..]);
    RangeEnd(lines, p, stop);
    assert Toks(Closed, lines)[..p] == before && Toks(Closed, lines)[p] == head;
    EntriesAround(t, before, head, body, after);
    ThreeParts(Read(t, lines), Entries(t, false, before), Entry(head.line, CutBlank(body)), Entries(t, true, after));
  }

  /** What a reader following the line numbers sees is what `parseEntryDetails` returns: the title,
      and as body the trimmed text of the lines after the heading. */
  lemma RangeCoversEntry(t: string, lines: seq<string>, k: nat)
    requires k < |Ranges(t, lines)|
    ensures var r := Ranges(t, lines)[k];
      1 <= r.start <= r.end <= |lines| && View(Read(t, lines)[k]) == BacklogEntry(r.title, Trim(Join(lines[r.start..r.end])))
  {
    var r := Ranges(t, lines)[k];
    var stop := Locate(t, lines, k);
    BodyOfRange(lines, r.start, stop, r.end);
  }

  lemma BodyOfRange(lines: seq<string>, start: nat, stop: nat, end: nat)
    requires start <= end <= stop <= |lines|
    requires end == stop || (end == stop - 1 && lines[end] == "")
    ensures Trim(Join(LinesOf(CutBlank(Toks(Closed, lines[start..stop]))))) == Trim(Join(lines[start..end]))
  {
    hide *;
    var body := lines[start..stop];
    TextOfBody(Toks(Closed, body));
    LinesOfToks(Closed, body);
    if end < stop {
      assert body == lines[start..end] + [""];
      EmptyIsBlank();
      JoinPaddedRight(lines[start..end], [""]);
    }
  }
}
