/** What the live file and the archive read after a move: history is conserved, what moves was not
    archived and what is dropped was, and a second bulk run finds nothing to do. The main results of
    src/backlog/backlog-archive.ts. */
module ArchiveReads {
  import opened Text
  import opened Fences
  import opened Documents
  import opened SectionReaders
  import opened Sections
  import opened Contents
  import opened Blocks
  import opened BlockRanges
  import opened Archive

  // ---------------------------------------------------------------- one section of a document

  ghost predicate Closing(lines: seq<string>, t: string) {
    SpanOf(lines, t).Span? && After(Closed, lines) == Closed && Once(t, lines)
  }

  lemma MidOf(lines: seq<string>, t: string) returns (before: seq<string>, head: string, mid: seq<string>, after: seq<string>)
    requires SpanOf(lines, t).Span?
    ensures var sp := SpanOf(lines, t);
      && sp.heading < sp.end <= |lines|
      && before == lines[..sp.heading] && head == lines[sp.heading] && mid == lines[sp.heading + 1..sp.end] && after == lines[sp.end..]
      && Parts(t, before, head, mid, after) && Whole(before, head, mid, after) == lines
      && lines[..sp.heading + 1] == before + [head]
  {
    hide *;
    var sp := SpanOf(lines, t);
    SpanIs(lines, t);
    SectionParts(t, lines);
    before, head, mid, after := lines[..sp.heading], lines[sp.heading], lines[sp.heading + 1..sp.end], lines[sp.end..];
    WholeIs(before, head, mid, after);
  }

  /** The section's blocks are what it reads. */
  lemma SectionReads(lines: seq<string>, t: string)
    requires Closing(lines, t)
    ensures SpanOf(lines, t).Span? && SpanOf(lines, t).heading < SpanOf(lines, t).end <= |lines|
    ensures SectionEntries(lines, t) == Read(t, lines)
    ensures var content := ContentOf(lines, SpanOf(lines, t));
      && NoSections(Toks(Closed, content)) && After(Closed, content) == Closed
      && SoundBlocks(BlocksOf(content)) && EntriesOf(BlocksOf(content)) == Read(t, lines)
  {
    hide *;
    ClosingIs(lines, t);
    var sp := SpanOf(lines, t);
    var before, head, mid, after := MidOf(lines, t);
    ContentCloses(t, before, head, mid, after);
    OnceAfter(t, before, head, mid, after);
    EntriesInSpan(lines, t);
    var content, q := ContentOf(lines, sp), lines[Stop(lines, sp)..sp.end];
    assert mid == content + q;
    assert [] + content + q == content + q;
    PadsOnly(q);
    PaddedEntries(t, true, [], content, q);
    ContentBlocks(t, content);
    SectionEntriesIs(lines, t);
  }

  lemma PadsOnly(q: seq<string>)
    requires q == [] || q == [""]
    ensures forall l | l in q :: Blank(l)
  {
    EmptyIsBlank();
  }

  lemma ClosingIs(lines: seq<string>, t: string)
    ensures Closing(lines, t) <==> SpanOf(lines, t).Span? && After(Closed, lines) == Closed && Once(t, lines)
  {
  }

  function Padded(body: seq<string>): seq<string> {
    (if body == [] then [] else [""] + body) + [""]
  }

  lemma PaddedParts(body: seq<string>) returns (p: seq<string>)
    ensures Padded(body) == p + body + [""] && (p == [] || p == [""]) && (body != [] ==> p == [""])
  {
    p := if body == [] then [] else [""];
    assert p + body + [""] == Padded(body);
  }

  /** A section given a sound body reads as that body, and no other section changes. */
  lemma WithBodyReads(lines: seq<string>, t: string, body: seq<string>)
    requires Closing(lines, t) && NoSections(Toks(Closed, body)) && After(Closed, body) == Closed
    ensures SpanOf(lines, t).heading < SpanOf(lines, t).end <= |lines|
    ensures var out := WithSectionBody(lines, SpanOf(lines, t), body);
      && Read(t, out) == Entries(t, true, Toks(Closed, body))
      && After(Closed, out) == Closed && Once(t, out)
      && (forall u | u != t :: Read(u, out) == Read(u, lines))
      && SectionCount(t, Toks(Closed, out)) > 0
      && FirstProse(t, Toks(Closed, out)) == Body(Toks(Closed, Padded(body)))
  {
    hide *;
    ClosingIs(lines, t);
    var before, head, mid, after := MidOf(lines, t);
    ContentCloses(t, before, head, mid, after);
    OnceAfter(t, before, head, mid, after);
    var p := PaddedParts(body);
    PadsOnly(p);
    PadsOnly([""]);
    var mid' := Padded(body);
    PaddedEntries(t, true, p, body, [""]);
    ReplaceContent(t, before, head, mid, mid', after);
    var out := Whole(before, head, mid', after);
    WithBodyIs(lines, SpanOf(lines, t), body, before, head, after);
    CountOfWhole(t, t, before, head, mid, after);
    CountOfWhole(t, t, before, head, mid', after);
    OnceIs(t, lines);
    OnceIs(t, out);
    OnceAfter(t, before, head, mid', after);
    WholeToks(t, before, head, mid', after);
    WholeToks(t, before, head, mid, after);
    PartsAre(t, before, head, mid', after);
    ProseAtSection(t, Toks(Closed, before), Tok(SectionHead, head), Toks(Closed, mid'), Toks(Closed, after));
  }

  lemma OnceIs(t: string, lines: seq<string>)
    ensures Once(t, lines) <==> SectionCount(t, Toks(Closed, lines)) <= 1
  {
  }

  lemma WithBodyIs(lines: seq<string>, sp: Span, body: seq<string>, before: seq<string>, head: string, after: seq<string>)
    requires sp.Span? && sp.heading < sp.end <= |lines| && lines[..sp.heading + 1] == before + [head] && after == lines[sp.end..]
    ensures WithSectionBody(lines, sp, body) == Whole(before, head, Padded(body), after)
  {
    assert WithSectionBody(lines, sp, body) == before + [head] + Padded(body) + after;
  }

  /** A section that is there is found. */
  lemma SpanFound(lines: seq<string>, t: string)
    ensures SpanOf(lines, t).Span? <==> SectionCount(t, Toks(Closed, lines)) > 0
  {
    hide Toks, SectionCount, NextSection;
    FirstSectionIsFirst(t, Toks(Closed, lines));
  }

  // ---------------------------------------------------------------- the moved lines

  lemma {:induction false} NoPlaceholdersToks(f: Fence, lines: seq<string>)
    ensures Toks(f, NoPlaceholders(lines)) == Without(Toks(f, lines), true) && After(f, NoPlaceholders(lines)) == After(f, lines)
    decreases |lines|
  {
    hide *;
    if lines == [] {
      NoneToFilter(f);
    } else {
      var line, rest := lines[0], lines[1..];
      assert lines == [line] + rest;
      NoPlaceholdersToks(Next(f, line), rest);
      NoPlaceholdersCons(line, rest);
      ToksConcat(f, [line], rest);
      OneTok(f, line);
      WithoutConcat(Toks(f, [line]), Toks(Next(f, line), rest), true);
      OneLine(f, line, true);
      PlaceholderDrops(f, line);
      ToksConcat(f, [line], NoPlaceholders(rest));
      if IsPlaceholder(line) {
        assert [] + NoPlaceholders(rest) == NoPlaceholders(rest);
        assert [] + Without(Toks(Next(f, line), rest), true) == Without(Toks(Next(f, line), rest), true);
      }
    }
  }

  lemma NoneToFilter(f: Fence)
    ensures Toks(f, NoPlaceholders([])) == Without(Toks(f, []), true) && After(f, NoPlaceholders([])) == After(f, [])
  {
  }

  lemma NoPlaceholdersCons(line: string, rest: seq<string>)
    ensures NoPlaceholders([line] + rest) == (if IsPlaceholder(line) then [] else [line]) + NoPlaceholders(rest)
  {
    hide IsPlaceholder;
    assert ([line] + rest)[1..] == rest;
  }

  lemma PlaceholderDrops(f: Fence, line: string)
    ensures Dropped(Tok(KindOf(f, line), line), true) <==> IsPlaceholder(line)
  {
    if IsPlaceholder(line) {
      PlaceholderIsInert(f, line);
    }
  }

  /** Sound lines lose their placeholders and their blank edges. */
  lemma FilteredReads(t: string, x: seq<string>)
    requires NoSections(Toks(Closed, x)) && After(Closed, x) == Closed
    ensures var y := TrimBlank(NoPlaceholders(x));
      && NoSections(Toks(Closed, y)) && After(Closed, y) == Closed
      && Entries(t, true, Toks(Closed, y)) == Strips(Entries(t, true, Toks(Closed, x)), true)
  {
    hide *;
    NoPlaceholdersToks(Closed, x);
    EntriesWithout(t, true, Toks(Closed, x), true);
    NoSectionsFiltered(Toks(Closed, x));
    TrimBlankEntries(t, true, NoPlaceholders(x));
  }

  lemma NoSectionsFiltered(toks: seq<Tok>)
    requires NoSections(toks)
    ensures NoSections(Without(toks, true))
  {
    WithoutKeeps(toks, true);
  }

  /** Lines above the first entry and blocks after them. */
  lemma LeadAndBlocks(t: string, lead: seq<string>, bs: seq<seq<string>>)
    requires NoHeads(Toks(Closed, lead)) && After(Closed, lead) == Closed && SoundBlocks(bs)
    ensures var x := lead + Stack(bs);
      && NoSections(Toks(Closed, x)) && After(Closed, x) == Closed && Entries(t, true, Toks(Closed, x)) == EntriesOf(bs)
  {
    hide *;
    StackReads(t, bs);
    ToksConcat(Closed, lead, Stack(bs));
    PadReadsNothing(t, true, Toks(Closed, lead), Toks(Closed, Stack(bs)));
    NoHeadsNoSections(Toks(Closed, lead), Toks(Closed, Stack(bs)));
  }

  lemma NoHeadsNoSections(a: seq<Tok>, b: seq<Tok>)
    requires NoHeads(a) && NoSections(b)
    ensures NoSections(a + b) && NoSections(a)
  {
  }

  lemma NoLead()
    ensures NoHeads(Toks(Closed, [])) && After(Closed, []) == Closed
  {
  }

  lemma FirstPlaceholderReads(t: string, x: seq<string>)
    ensures var y := FirstPlaceholder(x);
      && NoSections(Toks(Closed, y)) && After(Closed, y) == Closed && Entries(t, true, Toks(Closed, y)) == []
      && (forall l | l in y :: IsPlaceholder(l))
  {
    hide *;
    FirstPlaceholderIs(x);
    var y := FirstPlaceholder(x);
    if y == [] {
      EmptyDoc();
      EmptyReads(t);
    } else {
      assert y == [y[0]];
      PlaceholderIsInert(Closed, y[0]);
      OneTok(Closed, y[0]);
      PlainLine(y[0]);
      ProseReadsNothing(t, true, Toks(Closed, y));
    }
  }

  lemma PlainLine(line: string)
    ensures NoHeads([Tok(Plain, line)]) && NoSections([Tok(Plain, line)])
  {
  }

  lemma {:induction false} FirstPlaceholderIs(x: seq<string>)
    ensures var y := FirstPlaceholder(x); y == [] || (|y| == 1 && IsPlaceholder(y[0]))
  {
    if x != [] {
      FirstPlaceholderIs(x[1..]);
    }
  }

  // ---------------------------------------------------------------- the two splits read

  ghost predicate SplitReads(t: string, kept: seq<string>, moved: seq<string>, keptEntries: seq<Entry>, movedEntries: seq<Entry>) {
    && NoSections(Toks(Closed, kept)) && After(Closed, kept) == Closed && Entries(t, true, Toks(Closed, kept)) == keptEntries
    && NoSections(Toks(Closed, moved)) && After(Closed, moved) == Closed && Entries(t, true, Toks(Closed, moved)) == movedEntries
  }

  /** The entries before position `n`. */
  function Newest<T>(s: seq<T>, n: int): seq<T> {
    if n <= 0 then [] else if n >= |s| then s else s[..n]
  }

  lemma {:induction false} NewestEntries(bs: seq<seq<string>>, n: nat)
    requires n <= |bs|
    ensures EntriesOf(bs[..n]) == EntriesOf(bs)[..n]
  {
    if n > 0 {
      assert bs[..n] == [bs[0]] + bs[1..][..n - 1];
      NewestEntries(bs[1..], n - 1);
      EntriesOfCons(bs[0], bs[1..][..n - 1]);
    }
  }

  lemma SoundPrefix(bs: seq<seq<string>>, n: nat)
    requires n <= |bs| && SoundBlocks(bs)
    ensures SoundBlocks(bs[..n])
  {
    hide SoundBlock;
  }

  lemma KeepSplitReads(t: string, content: seq<string>, marks: seq<Mark>, n: int)
    requires NoSections(Toks(Closed, content)) && After(Closed, content) == Closed && SoundBlocks(BlocksOf(content))
    requires |marks| == |BlocksOf(content)| && KeepSplit(content, marks, n).SplitInto?
    ensures var r := KeepSplit(content, marks, n);
      var es := EntriesOf(BlocksOf(content));
      SplitReads(t, r.kept, r.moved, Newest(es, n) + Pick(es, marks, {Stays}), Strips(Pick(es, marks, {Moves}), true))
  {
    hide *;
    var bs, es := BlocksOf(content), EntriesOf(BlocksOf(content));
    KeepSplitIs(content, marks, n);
    ContentBlocks(t, content);
    NoLead();
    PickSound(bs, marks, {Moves});
    PickSound(bs, marks, {Stays});
    PickEntries(bs, marks, {Moves});
    PickEntries(bs, marks, {Stays});
    TailIs(content, marks, n);
    LeadAndBlocks(t, if n <= 0 then Lead(content) else [], Pick(bs, marks, {Moves}));
    FilteredReads(t, Tail(content, marks, n));
    SpreadReads(t, Pick(bs, marks, {Stays}));
    var front, stays := Front(content, n), Spread(Pick(bs, marks, {Stays}));
    FrontReads(t, content, n);
    PadsOnly([""]);
    PadsOnly([]);
    JoinContents(t, front, [""], stays);
    JoinContents(t, front, [], stays);
    ApartIs(front, stays, []);
    var kept := Apart(front, stays);
    assert front + [] + stays == front + stays;
    FirstPlaceholderReads(t, Tail(content, marks, n));
    EmptyDoc();
    EmptyReads(t);
    OrPlaceholderIs(kept, Tail(content, marks, n), Tail(content, marks, n));
    SplitReadsIs(t, OrPlaceholder(kept, Tail(content, marks, n)), TrimBlank(NoPlaceholders(Tail(content, marks, n))),
                 Newest(es, n) + Pick(es, marks, {Stays}), Strips(Pick(es, marks, {Moves}), true));
  }

  lemma SplitReadsIs(t: string, kept: seq<string>, moved: seq<string>, keptEntries: seq<Entry>, movedEntries: seq<Entry>)
    requires NoSections(Toks(Closed, kept)) && After(Closed, kept) == Closed && Entries(t, true, Toks(Closed, kept)) == keptEntries
    requires NoSections(Toks(Closed, moved)) && After(Closed, moved) == Closed && Entries(t, true, Toks(Closed, moved)) == movedEntries
    ensures SplitReads(t, kept, moved, keptEntries, movedEntries)
  {
  }

  lemma FrontReads(t: string, content: seq<string>, n: int)
    requires NoSections(Toks(Closed, content)) && After(Closed, content) == Closed && SoundBlocks(BlocksOf(content))
    requires n <= |BlocksOf(content)|
    ensures var x := Front(content, n);
      && NoSections(Toks(Closed, x)) && After(Closed, x) == Closed
      && Entries(t, true, Toks(Closed, x)) == Newest(EntriesOf(BlocksOf(content)), n)
  {
    hide *;
    FrontIs(content, n);
    NewestIs(EntriesOf(BlocksOf(content)), n);
    EmptyDoc();
    EmptyReads(t);
    if n > 0 {
      ContentBlocks(t, content);
      SoundPrefix(BlocksOf(content), n);
      LeadAndBlocks(t, Lead(content), BlocksOf(content)[..n]);
      TrimBlankEntries(t, true, Lead(content) + Stack(BlocksOf(content)[..n]));
      NewestEntries(BlocksOf(content), n);
    }
  }

  lemma NewestIs<T>(s: seq<T>, n: int)
    ensures n <= 0 ==> Newest(s, n) == []
    ensures 0 < n <= |s| ==> Newest(s, n) == s[..n]
  {
  }

  lemma FreshSplitReads(t: string, content: seq<string>, marks: seq<Mark>, archived: bool)
    requires NoSections(Toks(Closed, content)) && After(Closed, content) == Closed && SoundBlocks(BlocksOf(content))
    requires |marks| == |BlocksOf(content)| && FreshSplit(content, marks, archived).SplitInto?
    ensures var r := FreshSplit(content, marks, archived);
      var es := EntriesOf(BlocksOf(content));
      SplitReads(t, r.kept, r.moved, Pick(es, marks, {Unselected, Stays}), Pick(es, marks, {Moves}))
  {
    hide *;
    var bs, es := BlocksOf(content), EntriesOf(BlocksOf(content));
    FreshSplitIs(content, marks, archived);
    ContentBlocks(t, content);
    PickSound(bs, marks, {Moves});
    PickSound(bs, marks, {Unselected, Stays});
    PickEntries(bs, marks, {Moves});
    PickEntries(bs, marks, {Unselected, Stays});
    var x := Lead(content) + Stack(Pick(bs, marks, {Unselected, Stays}));
    LeadAndBlocks(t, Lead(content), Pick(bs, marks, {Unselected, Stays}));
    TrimBlankEntries(t, true, x);
    SpreadReads(t, Pick(bs, marks, {Moves}));
    SplitReadsIs(t, TrimBlank(x), Spread(Pick(bs, marks, {Moves})), Pick(es, marks, {Unselected, Stays}), Pick(es, marks, {Moves}));
  }

  // ---------------------------------------------------------------- the archive's side

  /** Nothing but blank lines stands above the section's first entry. */
  ghost predicate NoProseAbove(t: string, lines: seq<string>) {
    IsPad(FirstProse(t, Toks(Closed, lines)))
  }

  lemma ProseOf(lines: seq<string>, t: string)
    requires Closing(lines, t)
    ensures var sp := SpanOf(lines, t);
      sp.Span? && sp.heading < sp.end <= |lines| && FirstProse(t, Toks(Closed, lines)) == Body(Toks(Closed, lines[sp.heading + 1..sp.end]))
  {
    hide *;
    ClosingIs(lines, t);
    var before, head, mid, after := MidOf(lines, t);
    ContentCloses(t, before, head, mid, after);
    WholeToks(t, before, head, mid, after);
    PartsAre(t, before, head, mid, after);
    ProseAtSection(t, Toks(Closed, before), Tok(SectionHead, head), Toks(Closed, mid), Toks(Closed, after));
  }

  lemma TrimmedStartsAtHead(x: seq<string>)
    requires IsPad(Body(Toks(Closed, x)))
    ensures StartsAtHead(Toks(Closed, TrimBlank(x)))
  {
    hide *;
    TrimBlankSplit(x);
    var y := DropLeading(x);
    DropLeadingBlanks(x);
    DropTrailingBlanks(y);
    var z := DropTrailing(y);
    var p, q := x[..|x| - |y|], y[|z|..];
    assert x == p + z + q;
    PadsAround(p, z, q);
    PadIsBlank(Body(Toks(Closed, x)));
    if z == [] {
      EmptyDoc();
      StartsNowhere();
    } else {
      assert z[0] == y[0];
      FirstTok(z);
      LengthOf(z);
      BodyAfterPad(Toks(Closed, p), Toks(Closed, z), Toks(After(Closed, z), q));
      StartsThere(Toks(Closed, z));
    }
  }

  lemma DropLeadingBlanks(x: seq<string>)
    ensures |DropLeading(x)| <= |x| && x[|x| - |DropLeading(x)|..] == DropLeading(x)
    ensures forall l | l in x[..|x| - |DropLeading(x)|] :: Blank(l)
    ensures DropLeading(x) == [] || !Blank(DropLeading(x)[0])
  {
    hide Blank;
  }

  lemma PadIsBlank(toks: seq<Tok>)
    requires IsPad(toks)
    ensures forall k | k in toks :: Blank(k.line)
  {
    hide Blank;
  }

  lemma StartsThere(toks: seq<Tok>)
    requires toks != [] && toks[0].IsHead()
    ensures StartsAtHead(toks)
  {
  }

  /** The moved entries head the archive's section; nothing else in the archive changes. */
  lemma OnTopReads(text: seq<string>, t: string, moved: seq<string>)
    requires Closing(text, t) && NoProseAbove(t, text)
    requires NoSections(Toks(Closed, moved)) && After(Closed, moved) == Closed
    ensures SpanOf(text, t).heading < SpanOf(text, t).end <= |text|
    ensures var out := OnTop(text, SpanOf(text, t), moved);
      && Read(t, out) == Entries(t, true, Toks(Closed, moved)) + Read(t, text)
      && Closing(out, t) && (forall u | u != t :: Read(u, out) == Read(u, text))
  {
    hide *;
    ClosingIs(text, t);
    var before, head, mid, after := MidOf(text, t);
    OnTopIs(text, SpanOf(text, t), moved);
    OnceAfter(t, before, head, mid, after);
    ContentCloses(t, before, head, mid, after);
    PartsAre(t, before, head, mid, after);
    EmptyDoc();
    EmptyReads(t);
    if moved == [] {
      assert [] + Read(t, text) == Read(t, text);
    } else {
      ProseOf(text, t);
      NoProseIs(t, text);
      TrimBlankEntries(t, true, mid);
      TrimmedStartsAtHead(mid);
      var existing := TrimBlank(mid);
      PadsOnly([""]);
      JoinContents(t, moved, [""], existing);
      ApartIs(moved, existing, []);
      if existing == [] {
        assert moved + existing == moved;
        assert Entries(t, true, Toks(Closed, moved)) + [] == Entries(t, true, Toks(Closed, moved));
      }
      var body := Apart(moved, existing);
      WithBodyReads(text, t, body);
      var out := WithSectionBody(text, SpanOf(text, t), body);
      SpanFound(out, t);
      ClosingIs(out, t);
    }
  }

  lemma NoProseIs(t: string, lines: seq<string>)
    ensures NoProseAbove(t, lines) <==> IsPad(FirstProse(t, Toks(Closed, lines)))
  {
  }

  // ---------------------------------------------------------------- archiving conserves history

  /** What moves, as the archive will read it: the bulk archive leaves placeholders behind. */
  function MovedEntries(es: seq<Entry>, marks: seq<Mark>, sel: Selection): seq<Entry>
    requires |es| == |marks|
  {
    if sel.Keep? then Strips(Pick(es, marks, {Moves}), true) else Pick(es, marks, {Moves})
  }

  /** What the live section keeps, in order: the bulk archive puts the staying entries after the kept ones. */
  function KeptEntries(es: seq<Entry>, marks: seq<Mark>, sel: Selection): seq<Entry>
    requires |es| == |marks|
  {
    match sel
    case Keep(n) => Newest(es, n) + Pick(es, marks, {Stays})
    case Fresh(_, _) => Pick(es, marks, {Unselected, Stays})
  }

  /** With every fence closed and no prose above the archive's first entry, the archive afterwards
      reads as the moved entries in live order and then its old entries, the live section as the
      unselected and staying ones, and every other section of both files as before. */
  lemma ArchivingConserves(live: seq<string>, archive: ArchiveFile, t: string, template: seq<string>, sel: Selection)
    requires Archived(live, archive, t, template, sel).ArchiveMove?
    requires After(Closed, live) == Closed && Once(t, live)
    requires var text := TextOrTemplate(archive, template); After(Closed, text) == Closed && Once(t, text) && NoProseAbove(t, text)
    ensures var text := TextOrTemplate(archive, template);
      var es, old_ := Read(t, live), Read(t, text);
      var marks := Marks(es, old_, sel, 0);
      var r := Archived(live, archive, t, template, sel);
      && Read(t, r.archive) == MovedEntries(es, marks, sel) + old_
      && Read(t, r.live) == KeptEntries(es, marks, sel)
      && (forall u | u != t :: Read(u, r.live) == Read(u, live) && Read(u, r.archive) == Read(u, text))
      && Closing(r.live, t) && Closing(r.archive, t)
      && r.titles == Titles(Pick(es, marks, {Moves})) && r.dropped == Titles(Pick(es, marks, {Drops}))
  {
    hide *;
    var text := TextOrTemplate(archive, template);
    ArchivedIs(live, archive, t, template, sel);
    ClosingIs(live, t);
    ClosingIs(text, t);
    SectionReads(live, t);
    SectionReads(text, t);
    var es, old_ := Read(t, live), Read(t, text);
    var marks := Marks(es, old_, sel, 0);
    var content := ContentOf(live, SpanOf(live, t));
    SectionEntriesIs(live, t);
    SplitOfIs(content, marks, sel, archive.Lines?);
    EntriesChosen(es, marks, sel);
    var split := SplitOf(content, marks, sel, archive.Lines?);
    if sel.Keep? {
      KeepSplitReads(t, content, marks, sel.n);
    } else {
      FreshSplitReads(t, content, marks, archive.Lines?);
    }
    SplitReadsAre(t, split.kept, split.moved, KeptEntries(es, marks, sel), MovedEntries(es, marks, sel));
    OnTopReads(text, t, split.moved);
    WithBodyReads(live, t, split.kept);
    var out := WithSectionBody(live, SpanOf(live, t), split.kept);
    SpanFound(out, t);
    ClosingIs(out, t);
  }

  lemma EntriesChosen(es: seq<Entry>, marks: seq<Mark>, sel: Selection)
    requires |es| == |marks|
    ensures MovedEntries(es, marks, sel) == if sel.Keep? then Strips(Pick(es, marks, {Moves}), true) else Pick(es, marks, {Moves})
    ensures KeptEntries(es, marks, sel) == if sel.Keep? then Newest(es, sel.n) + Pick(es, marks, {Stays}) else Pick(es, marks, {Unselected, Stays})
  {
    hide Pick, Strips, Newest;
  }

  lemma SplitReadsAre(t: string, kept: seq<string>, moved: seq<string>, keptEntries: seq<Entry>, movedEntries: seq<Entry>)
    requires SplitReads(t, kept, moved, keptEntries, movedEntries)
    ensures NoSections(Toks(Closed, kept)) && After(Closed, kept) == Closed && Entries(t, true, Toks(Closed, kept)) == keptEntries
    ensures NoSections(Toks(Closed, moved)) && After(Closed, moved) == Closed && Entries(t, true, Toks(Closed, moved)) == movedEntries
  {
    hide Toks, After, Entries, NoSections;
  }

  /** What the fates mean: no moved heading was archived; every dropped entry had a copy with its
      heading and text; a staying one's heading was archived with other text only. */
  lemma FatesMean(es: seq<Entry>, old_: seq<Entry>, sel: Selection, k: nat)
    requires k < |es|
    ensures var m := Marks(es, old_, sel, 0)[k];
      var key := Key(es[k].Title());
      && (m == Unselected <==> !Chosen(sel, k, es[k]))
      && (m == Moves ==> forall a | a in old_ :: Key(a.Title()) != key)
      && (m == Drops ==> exists a :: a in old_ && Key(a.Title()) == key && TextOf(a) == TextOf(es[k]))
      && (m == Stays ==> (exists a :: a in old_ && Key(a.Title()) == key) && forall a | a in old_ && Key(a.Title()) == key :: TextOf(a) != TextOf(es[k]))
  {
    hide Key, TextOf, Chosen, Entry.Title;
    MarksAt(es, old_, sel, 0, k);
    HeldIs(old_, Key(es[k].Title()));
    HeldHolds(old_, Key(es[k].Title()));
  }

  lemma {:induction false} HeldHolds(old_: seq<Entry>, key: string)
    ensures forall a | a in old_ && Key(a.Title()) == key :: TextOf(a) in Held(old_, key)
  {
    hide Key, TextOf, Entry.Title;
    if old_ != [] {
      HeldHolds(old_[1..], key);
      assert forall a | a in old_ :: a == old_[0] || a in old_[1..];
    }
  }

  /** No entry is lost: the marks split the section. */
  lemma {:induction false} MarksPartition(es: seq<Entry>, marks: seq<Mark>)
    requires |es| == |marks|
    ensures multiset(es) == multiset(Pick(es, marks, {Moves})) + multiset(Pick(es, marks, {Drops})) + multiset(Pick(es, marks, {Unselected, Stays}))
  {
    hide *;
    if es == [] {
      PickNothing<Entry>({Moves});
      PickNothing<Entry>({Drops});
      PickNothing<Entry>({Unselected, Stays});
    } else {
      var e, m, rest, marks' := es[0], marks[0], es[1..], marks[1..];
      assert es == [e] + rest && marks == [m] + marks';
      MarksPartition(rest, marks');
      PickCons(e, rest, m, marks', {Moves});
      PickCons(e, rest, m, marks', {Drops});
      PickCons(e, rest, m, marks', {Unselected, Stays});
      MarkIs(m, {});
    }
  }

  // ---------------------------------------------------------------- which entries go where

  /** Where the marks in `which` stand, from position `at` on. */
  function Places(marks: seq<Mark>, which: set<Mark>, at: nat): seq<nat> {
    if marks == [] then [] else (if marks[0] in which then [at] else []) + Places(marks[1..], which, at + 1)
  }

  ghost predicate Ascending(at: seq<nat>) {
    forall i, j | 0 <= i < j < |at| :: at[i] < at[j]
  }

  /** `read` is the entries of `es` at these places, in order; with `strip`, without their placeholders. */
  ghost predicate ListsAt(read: seq<Entry>, es: seq<Entry>, at: seq<nat>, strip: bool) {
    && |read| == |at| && Ascending(at)
    && forall i | 0 <= i < |at| :: at[i] < |es| && read[i] == if strip then Strip(es[at[i]], true) else es[at[i]]
  }

  ghost predicate TitlesAt(titles: seq<string>, es: seq<Entry>, at: seq<nat>) {
    |titles| == |at| && forall i | 0 <= i < |at| :: at[i] < |es| && titles[i] == es[at[i]].Title()
  }

  /** Whether the `k`th entry moves, is dropped or stays: the bulk archive takes the entries from position
      `n` on, the sweep those with a heading neither the base nor the parking list has. Of these one moves
      if the archive lacks its heading, and is dropped if the archive has it with the same text. */
  ghost predicate GoesWhere(es: seq<Entry>, old_: seq<Entry>, sel: Selection, k: nat, moves: bool, drops: bool, stays: bool)
    requires k < |es|
  {
    var key := Key(es[k].Title());
    var taken := if sel.Keep? then k >= sel.n else key !in sel.baseKeys && key !in sel.park;
    var there := exists a :: a in old_ && Key(a.Title()) == key;
    var same := exists a :: a in old_ && Key(a.Title()) == key && TextOf(a) == TextOf(es[k]);
    && (moves <==> taken && !there) && (drops <==> taken && same) && (stays <==> !taken || (there && !same))
  }

  lemma {:induction false} PlacesAre(marks: seq<Mark>, which: set<Mark>, at: nat)
    ensures Ascending(Places(marks, which, at)) && forall p | p in Places(marks, which, at) :: at <= p
    ensures forall k | 0 <= k < |marks| :: at + k in Places(marks, which, at) <==> marks[k] in which
    ensures forall p | p in Places(marks, which, at) :: p < at + |marks|
  {
    if marks != [] {
      PlacesAre(marks[1..], which, at + 1);
      var rest := Places(marks[1..], which, at + 1);
      FrontAscends(at, rest);
      assert [] + rest == rest;
      assert forall p :: p in Places(marks, which, at) <==> (p == at && marks[0] in which) || p in rest;
      forall k | 0 <= k < |marks| ensures at + k in Places(marks, which, at) <==> marks[k] in which {
        if k > 0 {
          assert marks[1..][k - 1] == marks[k] && at + 1 + (k - 1) == at + k;
        }
      }
    }
  }

  lemma FrontAscends(at: nat, rest: seq<nat>)
    requires Ascending(rest) && forall p | p in rest :: at < p
    ensures Ascending([at] + rest)
  {
    assert forall i | 0 <= i < |rest| :: rest[i] in rest;
  }

  lemma {:induction false} PickedAt<T>(all: seq<T>, s: seq<T>, marks: seq<Mark>, which: set<Mark>, at: nat)
    requires |s| == |marks| && at <= |all| && s == all[at..]
    ensures |Pick(s, marks, which)| == |Places(marks, which, at)|
    ensures forall i | 0 <= i < |Pick(s, marks, which)| ::
              Places(marks, which, at)[i] < |all| && Pick(s, marks, which)[i] == all[Places(marks, which, at)[i]]
    decreases |s|
  {
    if s != [] {
      assert all[at..][1..] == all[at + 1..];
      PickedAt(all, s[1..], marks[1..], which, at + 1);
    }
  }

  lemma {:induction false} StripsAt(es: seq<Entry>, i: nat)
    requires i < |es|
    ensures Strips(es, true)[i] == Strip(es[i], true)
  {
    hide Strip;
    if i > 0 {
      StripsAt(es[1..], i - 1);
    }
  }

  lemma {:induction false} TitleAt(es: seq<Entry>, i: nat)
    requires i < |es|
    ensures Titles(es)[i] == es[i].Title()
  {
    hide Entry.Title;
    if i > 0 {
      TitleAt(es[1..], i - 1);
    }
  }

  lemma ListedMoves(es: seq<Entry>, marks: seq<Mark>, sel: Selection)
    requires |es| == |marks|
    ensures ListsAt(MovedEntries(es, marks, sel), es, Places(marks, {Moves}, 0), sel.Keep?)
  {
    hide Pick, Places, Strip;
    PlacesAre(marks, {Moves}, 0);
    assert es[0..] == es;
    PickedAt(es, es, marks, {Moves}, 0);
    if sel.Keep? {
      forall i | 0 <= i < |Pick(es, marks, {Moves})| ensures Strips(Pick(es, marks, {Moves}), true)[i] == Strip(Pick(es, marks, {Moves})[i], true) {
        StripsAt(Pick(es, marks, {Moves}), i);
      }
    }
  }

  lemma ListedTitles(es: seq<Entry>, marks: seq<Mark>, which: set<Mark>)
    requires |es| == |marks|
    ensures TitlesAt(Titles(Pick(es, marks, which)), es, Places(marks, which, 0))
  {
    hide Pick, Places, Entry.Title;
    assert es[0..] == es;
    PickedAt(es, es, marks, which, 0);
    forall i | 0 <= i < |Pick(es, marks, which)| ensures Titles(Pick(es, marks, which))[i] == Pick(es, marks, which)[i].Title() {
      TitleAt(Pick(es, marks, which), i);
    }
  }

  /** Kept are the unselected and the staying ones, in their order, in the bulk archive too. */
  lemma ListedKept(es: seq<Entry>, old_: seq<Entry>, sel: Selection)
    ensures var marks := Marks(es, old_, sel, 0);
      ListsAt(KeptEntries(es, marks, sel), es, Places(marks, {Unselected, Stays}, 0), false)
  {
    hide Pick, Places, Marks;
    var marks := Marks(es, old_, sel, 0);
    PlacesAre(marks, {Unselected, Stays}, 0);
    assert es[0..] == es;
    PickedAt(es, es, marks, {Unselected, Stays}, 0);
    if sel.Keep? {
      KeepMarks(es, old_, sel);
      var n := if sel.n <= 0 then 0 else if sel.n >= |es| then |es| else sel.n;
      KeptFirst(es, marks, n);
    }
  }

  lemma {:induction false} KeptFirst(es: seq<Entry>, marks: seq<Mark>, n: nat)
    requires |es| == |marks| && n <= |es| && forall i | 0 <= i < |es| :: marks[i] == Unselected <==> i < n
    ensures es[..n] + Pick(es, marks, {Stays}) == Pick(es, marks, {Unselected, Stays})
  {
    hide *;
    if n == 0 {
      PickSame(es, marks, {Stays}, {Unselected, Stays});
      assert es[..0] == [];
      assert [] + Pick(es, marks, {Stays}) == Pick(es, marks, {Stays});
    } else {
      var rest, marks' := es[1..], marks[1..];
      KeptFirst(rest, marks', n - 1);
      PickStep(es, marks, {Stays});
      PickStep(es, marks, {Unselected, Stays});
      assert es[..n] == [es[0]] + rest[..n - 1];
      assert [es[0]] + rest[..n - 1] + Pick(rest, marks', {Stays}) == [es[0]] + (rest[..n - 1] + Pick(rest, marks', {Stays}));
    }
  }

  lemma PickStep<T>(s: seq<T>, marks: seq<Mark>, which: set<Mark>)
    requires |s| == |marks| && s != []
    ensures Pick(s, marks, which) == if marks[0] in which then [s[0]] + Pick(s[1..], marks[1..], which) else Pick(s[1..], marks[1..], which)
  {
    assert [] + Pick(s[1..], marks[1..], which) == Pick(s[1..], marks[1..], which);
  }

  lemma MarkGoes(es: seq<Entry>, old_: seq<Entry>, sel: Selection, k: nat)
    requires k < |es|
    ensures var m := Marks(es, old_, sel, 0)[k]; GoesWhere(es, old_, sel, k, m == Moves, m == Drops, m in {Unselected, Stays})
  {
    hide Key, TextOf, Entry.Title, Held;
    MarksAt(es, old_, sel, 0, k);
    HeldIs(old_, Key(es[k].Title()));
    HeldHolds(old_, Key(es[k].Title()));
  }

  /** Which entries leave the live section, which the archive gains, and in what order, for every
      selection. */
  lemma WhereEntriesGo(live: seq<string>, archive: ArchiveFile, t: string, template: seq<string>, sel: Selection)
    returns (moved: seq<nat>, dropped: seq<nat>, kept: seq<nat>)
    requires Archived(live, archive, t, template, sel).ArchiveMove?
    requires After(Closed, live) == Closed && Once(t, live)
    requires var text := TextOrTemplate(archive, template); After(Closed, text) == Closed && Once(t, text) && NoProseAbove(t, text)
    ensures var es, old_ := Read(t, live), Read(t, TextOrTemplate(archive, template));
      var r := Archived(live, archive, t, template, sel);
      && ListsAt(Read(t, r.live), es, kept, false)
      && |old_| <= |Read(t, r.archive)| && Read(t, r.archive)[|Read(t, r.archive)| - |old_|..] == old_
      && ListsAt(Read(t, r.archive)[..|Read(t, r.archive)| - |old_|], es, moved, sel.Keep?)
      && TitlesAt(r.titles, es, moved) && TitlesAt(r.dropped, es, dropped)
      && forall k | 0 <= k < |es| :: GoesWhere(es, old_, sel, k, k in moved, k in dropped, k in kept)
  {
    hide *;
    ArchivingConserves(live, archive, t, template, sel);
    var es, old_ := Read(t, live), Read(t, TextOrTemplate(archive, template));
    var marks := Marks(es, old_, sel, 0);
    moved, dropped, kept := Places(marks, {Moves}, 0), Places(marks, {Drops}, 0), Places(marks, {Unselected, Stays}, 0);
    ListedKept(es, old_, sel);
    ListedMoves(es, marks, sel);
    ListedTitles(es, marks, {Moves});
    ListedTitles(es, marks, {Drops});
    PlacesAre(marks, {Moves}, 0);
    PlacesAre(marks, {Drops}, 0);
    PlacesAre(marks, {Unselected, Stays}, 0);
    var top := MovedEntries(es, marks, sel);
    assert (top + old_)[..|top|] == top && (top + old_)[|top|..] == old_;
    forall k | 0 <= k < |es| ensures GoesWhere(es, old_, sel, k, k in moved, k in dropped, k in kept) {
      MarkGoes(es, old_, sel, k);
      assert 0 + k in moved <==> marks[k] in {Moves};
      assert 0 + k in dropped <==> marks[k] in {Drops};
      assert 0 + k in kept <==> marks[k] in {Unselected, Stays};
    }
  }

  // ---------------------------------------------------------------- a second bulk run

  lemma {:induction false} StaysAgain(stays: seq<Entry>, old2: seq<Entry>, i: nat)
    requires forall e | e in stays :: FateOf(e, old2) == Stays
    ensures forall k | 0 <= k < |stays| :: Marks(stays, old2, Keep(0), i)[k] == Stays
  {
    hide FateOf;
    forall k | 0 <= k < |stays| ensures Marks(stays, old2, Keep(0), i)[k] == Stays {
      MarksAt(stays, old2, Keep(0), i, k);
      assert stays[k] in stays;
    }
  }

  lemma {:induction false} PickedFates(es: seq<Entry>, old_: seq<Entry>, sel: Selection, i: nat, f: Mark)
    requires f != Unselected
    ensures forall e | e in Pick(es, Marks(es, old_, sel, i), {f}) :: FateOf(e, old_) == f
  {
    hide FateOf, Chosen;
    if es != [] {
      PickedFates(es[1..], old_, sel, i + 1, f);
    }
  }

  /** Stripping bodies keeps headings. */
  lemma {:induction false} StripsHeld(moved: seq<Entry>, key: string)
    requires forall m | m in moved :: Key(m.Title()) != key
    ensures Held(Strips(moved, true), key) == []
  {
    hide *;
    if moved == [] {
      NothingHeld(key);
    } else {
      assert moved == [moved[0]] + moved[1..] && moved[0] in moved;
      StripsCons(moved[0], moved[1..], true);
      StripsHeld(moved[1..], key);
      HeldCons(Strip(moved[0], true), Strips(moved[1..], true), key);
      StripTitle(moved[0]);
      assert [] + Held(Strips(moved[1..], true), key) == [];
    }
  }

  lemma NothingHeld(key: string)
    ensures Held(Strips([], true), key) == []
  {
  }

  lemma StripTitle(e: Entry)
    ensures Strip(e, true).Title() == e.Title()
  {
  }

  /** What stayed stays: the archive gained no heading it lacked an entry for. */
  lemma FateAgain(e: Entry, moved: seq<Entry>, old_: seq<Entry>)
    requires FateOf(e, old_) == Stays && forall m | m in moved :: FateOf(m, old_) == Moves
    ensures FateOf(e, Strips(moved, true) + old_) == Stays
  {
    hide Key, TextOf, Held, Entry.Title, Strips;
    var key := Key(e.Title());
    assert forall m | m in moved :: Key(m.Title()) != key;
    StripsHeld(moved, key);
    HeldConcat(Strips(moved, true), old_, key);
    assert [] + Held(old_, key) == Held(old_, key);
  }

  lemma {:induction false} NothingVisible(lines: seq<string>)
    requires forall l | l in lines :: Blank(l) || IsPlaceholder(l)
    ensures TrimBlank(NoPlaceholders(lines)) == []
  {
    hide Blank, IsPlaceholder;
    BlanksLeft(lines);
    BlankTrims(NoPlaceholders(lines));
  }

  lemma {:induction false} BlanksLeft(lines: seq<string>)
    requires forall l | l in lines :: Blank(l) || IsPlaceholder(l)
    ensures forall l | l in NoPlaceholders(lines) :: Blank(l)
  {
    hide Blank, IsPlaceholder;
    if lines != [] {
      assert lines[0] in lines && forall l | l in lines[1..] :: l in lines;
      BlanksLeft(lines[1..]);
    }
  }

  lemma BlankTrims(lines: seq<string>)
    requires forall l | l in lines :: Blank(l)
    ensures TrimBlank(lines) == []
  {
    hide *;
    TrimBlankSplit(lines);
    BlankDrops(lines);
    DropTrailingBlanks([]);
  }

  lemma {:induction false} BlankDrops(lines: seq<string>)
    requires forall l | l in lines :: Blank(l)
    ensures DropLeading(lines) == []
  {
    hide Blank;
    if lines != [] {
      assert lines[0] in lines && forall l | l in lines[1..] :: l in lines;
      BlankDrops(lines[1..]);
    }
  }

  /** The section a bulk run leaves has nothing visible above its entries. */
  lemma PaddedInvisible(kept: seq<string>)
    requires StartsAtHead(Toks(Closed, kept)) || forall l | l in kept :: IsPlaceholder(l)
    ensures Invisible(Body(Toks(Closed, Padded(kept))), true)
  {
    hide *;
    var p := PaddedParts(kept);
    PadsOnly(p);
    PadsOnly([""]);
    PadsAround(p, kept, [""]);
    var tp, tk, tq := Toks(Closed, p), Toks(Closed, kept), Toks(After(Closed, kept), [""]);
    assert tp + tk + tq == tp + (tk + tq);
    PadHasNoHeads(tp);
    BodyPrefix(tp, tk + tq);
    BodyIsPart(tk + tq);
    if StartsAtHead(tk) && tk != [] {
      HeadStops(tk, tq);
      InvisiblePad(tp);
      assert tp + [] == tp;
    } else {
      if tk == [] {
        LengthOf(kept);
        assert kept == [];
      }
      KeptInvisible(kept);
      InvisibleParts(tp, tk, tq, Body(tk + tq));
    }
  }

  lemma BodyIsPart(toks: seq<Tok>)
    ensures Body(toks) <= toks
  {
  }

  lemma PadHasNoHeads(pad: seq<Tok>)
    requires IsPad(pad)
    ensures NoHeads(pad)
  {
    hide Blank;
  }

  lemma HeadStops(a: seq<Tok>, b: seq<Tok>)
    requires StartsAtHead(a) && a != []
    ensures Body(a + b) == []
  {
  }

  lemma InvisiblePad(pad: seq<Tok>)
    requires IsPad(pad)
    ensures Invisible(pad, true)
  {
    hide Blank, IsPlaceholder;
  }

  lemma KeptInvisible(kept: seq<string>)
    requires forall l | l in kept :: IsPlaceholder(l)
    ensures Invisible(Toks(Closed, kept), true)
  {
    hide Blank, IsPlaceholder, Toks, After, KindOf, Next;
    forall k | k in Toks(Closed, kept) ensures Dropped(k, true) {
      var i :| 0 <= i < |Toks(Closed, kept)| && Toks(Closed, kept)[i] == k;
      ToksAt(Closed, kept, i);
      PlaceholderIsInert(After(Closed, kept[..i]), kept[i]);
    }
  }

  lemma InvisibleParts(p: seq<Tok>, k: seq<Tok>, q: seq<Tok>, body: seq<Tok>)
    requires IsPad(p) && Invisible(k, true) && IsPad(q) && body <= k + q
    ensures Invisible(p + body, true)
  {
    hide Blank, IsPlaceholder;
    assert forall x | x in body :: x in k + q;
  }

  /** The lines above the entries of a section, from its tokens. */
  lemma LeadInvisible(lines: seq<string>, t: string)
    requires Closing(lines, t) && Invisible(FirstProse(t, Toks(Closed, lines)), true)
    ensures var sp := SpanOf(lines, t);
      sp.Span? && sp.heading < sp.end <= |lines| && forall l | l in Lead(ContentOf(lines, sp)) :: Blank(l) || IsPlaceholder(l)
  {
    hide *;
    ClosingIs(lines, t);
    ProseOf(lines, t);
    EntriesInSpan(lines, t);
    var sp := SpanOf(lines, t);
    var content, q := ContentOf(lines, sp), lines[Stop(lines, sp)..sp.end];
    assert lines[sp.heading + 1..sp.end] == content + q;
    ToksConcat(Closed, content, q);
    ContentBlocks(t, content);
    BodyGrows(Toks(Closed, content), Toks(After(Closed, content), q));
    LinesOfToks(Closed, Lead(content));
    forall l | l in Lead(content) ensures Blank(l) || IsPlaceholder(l) {
      var i :| 0 <= i < |Lead(content)| && Lead(content)[i] == l;
      LengthOf(Lead(content));
      LinesOfAt(Toks(Closed, Lead(content)), i);
      InvisibleAt(FirstProse(t, Toks(Closed, lines)), i);
    }
  }

  lemma InvisibleAt(toks: seq<Tok>, i: nat)
    requires Invisible(toks, true) && i < |toks|
    ensures Blank(toks[i].line) || IsPlaceholder(toks[i].line)
  {
    hide Blank, IsPlaceholder;
    assert toks[i] in toks;
  }

  lemma {:induction false} BodyGrows(a: seq<Tok>, b: seq<Tok>)
    ensures Body(a) <= Body(a + b)
  {
    if a != [] && !a[0].IsHead() {
      assert (a + b)[1..] == a[1..] + b;
      BodyGrows(a[1..], b);
    }
  }

  /** The bulk archive is done after one run: at keep 0 a second run finds nothing to move or drop. */
  lemma BulkArchiveTwice(live: seq<string>, archive: ArchiveFile, t: string, template: seq<string>, later: seq<string>)
    requires Archived(live, archive, t, template, Keep(0)).ArchiveMove?
    requires After(Closed, live) == Closed && Once(t, live)
    requires var text := TextOrTemplate(archive, template); After(Closed, text) == Closed && Once(t, text) && NoProseAbove(t, text)
    ensures var r := Archived(live, archive, t, template, Keep(0));
      Archived(r.live, Lines(r.archive), t, later, Keep(0)) == NoMove
  {
    hide *;
    var text, r := TextOrTemplate(archive, template), Archived(live, archive, t, template, Keep(0));
    ArchivingConserves(live, archive, t, template, Keep(0));
    var es, old_ := Read(t, live), Read(t, text);
    var marks := Marks(es, old_, Keep(0), 0);
    EntriesChosen(es, marks, Keep(0));
    NewestIs(es, 0);
    var stays, moves := Pick(es, marks, {Stays}), Pick(es, marks, {Moves});
    assert [] + stays == stays;
    PickedFates(es, old_, Keep(0), 0, Stays);
    PickedFates(es, old_, Keep(0), 0, Moves);
    var old2 := Strips(moves, true) + old_;
    forall e | e in stays ensures FateOf(e, old2) == Stays {
      FateAgain(e, moves, old_);
    }
    StaysAgain(stays, old2, 0);
    BulkLeavesNoProse(live, archive, t, template);
    TextOfLines(r.archive, later);
    NothingLeft(r.live, r.archive, t, later, stays, old2);
  }

  lemma TextOfLines(lines: seq<string>, later: seq<string>)
    ensures TextOrTemplate(Lines(lines), later) == lines
  {
  }

  lemma BulkLeavesNoProse(live: seq<string>, archive: ArchiveFile, t: string, template: seq<string>)
    requires Archived(live, archive, t, template, Keep(0)).ArchiveMove? && After(Closed, live) == Closed && Once(t, live)
    ensures Invisible(FirstProse(t, Toks(Closed, Archived(live, archive, t, template, Keep(0)).live)), true)
  {
    hide *;
    var text := TextOrTemplate(archive, template);
    ArchivedIs(live, archive, t, template, Keep(0));
    ClosingIs(live, t);
    SectionReads(live, t);
    SectionEntriesIs(live, t);
    var marks := Marks(SectionEntries(live, t), SectionEntries(text, t), Keep(0), 0);
    var content := ContentOf(live, SpanOf(live, t));
    SplitOfIs(content, marks, Keep(0), archive.Lines?);
    KeepSplitReads(t, content, marks, 0);
    var split := KeepSplit(content, marks, 0);
    var es := EntriesOf(BlocksOf(content));
    SplitReadsAre(t, split.kept, split.moved, Newest(es, 0) + Pick(es, marks, {Stays}), Strips(Pick(es, marks, {Moves}), true));
    WithBodyReads(live, t, split.kept);
    BulkKept(t, content, marks);
    PaddedInvisible(split.kept);
  }

  lemma BulkKept(t: string, content: seq<string>, marks: seq<Mark>)
    requires |marks| == |BlocksOf(content)| && SoundBlocks(BlocksOf(content)) && KeepSplit(content, marks, 0).SplitInto?
    ensures var kept := KeepSplit(content, marks, 0).kept;
      StartsAtHead(Toks(Closed, kept)) || forall l | l in kept :: IsPlaceholder(l)
  {
    hide *;
    KeepSplitIs(content, marks, 0);
    FrontIs(content, 0);
    var stays, tail := Spread(Pick(BlocksOf(content), marks, {Stays})), Tail(content, marks, 0);
    PickSound(BlocksOf(content), marks, {Stays});
    SpreadReads(t, Pick(BlocksOf(content), marks, {Stays}));
    ApartIs([], stays, tail);
    assert [] + stays == stays;
    OrPlaceholderIs(stays, tail, tail);
    FirstPlaceholderReads(t, tail);
  }

  lemma NothingLeft(live: seq<string>, archive: seq<string>, t: string, later: seq<string>, stays: seq<Entry>, old2: seq<Entry>)
    requires Closing(live, t) && Closing(archive, t) && Read(t, live) == stays && Read(t, archive) == old2
    requires forall k | 0 <= k < |stays| :: Marks(stays, old2, Keep(0), 0)[k] == Stays
    requires Invisible(FirstProse(t, Toks(Closed, live)), true)
    ensures Archived(live, Lines(archive), t, later, Keep(0)) == NoMove
  {
    hide *;
    ClosingIs(live, t);
    ClosingIs(archive, t);
    SectionReads(live, t);
    SectionReads(archive, t);
    SectionEntriesIs(live, t);
    ArchivedIs(live, Lines(archive), t, later, Keep(0));
    TextOfLines(archive, later);
    var content, marks := ContentOf(live, SpanOf(live, t)), Marks(stays, old2, Keep(0), 0);
    SplitOfIs(content, marks, Keep(0), true);
    KeepSplitIs(content, marks, 0);
    TailIs(content, marks, 0);
    PickNone(BlocksOf(content), marks, {Moves});
    PickNone(stays, marks, {Drops});
    NothingCut(t);
    assert Lead(content) + [] == Lead(content);
    LeadInvisible(live, t);
    NothingVisible(Lead(content));
    TitlesEmpty([]);
  }

  // ---------------------------------------------------------------- a run does what it can

  lemma {:induction false} PickSome<T>(s: seq<T>, marks: seq<Mark>, which: set<Mark>, k: nat)
    requires |s| == |marks| && k < |s| && marks[k] in which
    ensures s[k] in Pick(s, marks, which)
  {
    if k > 0 {
      PickSome(s[1..], marks[1..], which, k - 1);
    }
  }

  lemma {:induction false} StackHolds(bs: seq<seq<string>>, b: seq<string>, l: string)
    requires b in bs && l in b
    ensures l in Stack(bs)
  {
    if bs[0] != b {
      assert b in bs[1..];
      StackHolds(bs[1..], b, l);
    }
  }

  lemma {:induction false} VisibleStays(lines: seq<string>, l: string)
    requires l in lines && !Blank(l) && !IsPlaceholder(l)
    ensures l in NoPlaceholders(lines)
  {
    hide Blank, IsPlaceholder;
    if lines[0] != l {
      assert l in lines[1..];
      VisibleStays(lines[1..], l);
    }
  }

  lemma VisibleTrims(lines: seq<string>, l: string)
    requires l in lines && !Blank(l)
    ensures TrimBlank(lines) != []
  {
    hide *;
    TrimBlankSplit(lines);
    DropLeadingBlanks(lines);
    var y := DropLeading(lines);
    DropTrailingBlanks(y);
    assert lines == lines[..|lines| - |y|] + y;
    assert y == DropTrailing(y) + y[|DropTrailing(y)|..];
  }

  lemma HeadVisible(line: string)
    requires IsEntryHead(line)
    ensures !Blank(line) && !IsPlaceholder(line)
  {
    TrimFirst(line, 0);
    assert line[0] == line[..4][0];
  }

  /** The run moves something whenever a selected entry can move or be dropped: the bulk archive
      always, the commit-time sweep once there is an archive. */
  lemma ArchivingProgresses(live: seq<string>, archive: ArchiveFile, t: string, template: seq<string>, sel: Selection, k: nat)
    requires SpanOf(live, t).Span? && SpanOf(TextOrTemplate(archive, template), t).Span? && Closing(live, t)
    requires sel.Keep? || archive.Lines?
    requires k < |SectionEntries(live, t)|
    requires Marks(SectionEntries(live, t), SectionEntries(TextOrTemplate(archive, template), t), sel, 0)[k] in {Moves, Drops}
    ensures Archived(live, archive, t, template, sel).ArchiveMove?
  {
    hide *;
    var text := TextOrTemplate(archive, template);
    ArchivedIs(live, archive, t, template, sel);
    SectionReads(live, t);
    SectionEntriesIs(live, t);
    var content, es := ContentOf(live, SpanOf(live, t)), SectionEntries(live, t);
    var old_ := SectionEntries(text, t);
    var marks := Marks(es, old_, sel, 0);
    var bs := BlocksOf(content);
    SplitOfIs(content, marks, sel, archive.Lines?);
    if marks[k] == Drops {
      PickSome(es, marks, {Drops}, k);
      TitlesEmpty(Pick(es, marks, {Drops}));
    } else {
      PickSome(bs, marks, {Moves}, k);
    }
    if sel.Keep? {
      KeepMarks(es, old_, sel);
      KeepSplitIs(content, marks, sel.n);
      TailIs(content, marks, sel.n);
      if marks[k] == Moves {
        SoundAt(bs, k);
        StackHolds(Pick(bs, marks, {Moves}), bs[k], bs[k][0]);
        HeadVisible(bs[k][0]);
        VisibleStays(Tail(content, marks, sel.n), bs[k][0]);
        VisibleTrims(NoPlaceholders(Tail(content, marks, sel.n)), bs[k][0]);
      }
    } else {
      FreshSplitIs(content, marks, archive.Lines?);
      if marks[k] == Moves {
        PickSound(bs, marks, {Moves});
        SpreadReads(t, Pick(bs, marks, {Moves}));
      }
    }
  }

  lemma SoundAt(bs: seq<seq<string>>, k: nat)
    requires k < |bs| && SoundBlocks(bs)
    ensures bs[k] != [] && IsEntryHead(bs[k][0])
  {
    assert bs[k] in bs;
  }

  /** In the same terms: an entry that moves or is dropped makes the run write, the commit-time sweep
      once there is an archive. */
  lemma LeavingIsWritten(live: seq<string>, archive: ArchiveFile, t: string, template: seq<string>, sel: Selection, k: nat, moves: bool, drops: bool, stays: bool)
    requires Closing(live, t) && Closing(TextOrTemplate(archive, template), t) && (sel.Keep? || archive.Lines?)
    requires k < |Read(t, live)| && (moves || drops)
    requires GoesWhere(Read(t, live), Read(t, TextOrTemplate(archive, template)), sel, k, moves, drops, stays)
    ensures Archived(live, archive, t, template, sel).ArchiveMove?
  {
    hide *;
    var text := TextOrTemplate(archive, template);
    ClosingIs(live, t);
    ClosingIs(text, t);
    SectionReads(live, t);
    SectionReads(text, t);
    MarkGoes(Read(t, live), Read(t, text), sel, k);
    GoesOneWay(Read(t, live), Read(t, text), sel, k, moves, drops, stays);
    ArchivingProgresses(live, archive, t, template, sel, k);
  }

  lemma GoesOneWay(es: seq<Entry>, old_: seq<Entry>, sel: Selection, k: nat, moves: bool, drops: bool, stays: bool)
    requires k < |es| && GoesWhere(es, old_, sel, k, moves, drops, stays)
    ensures var m := Marks(es, old_, sel, 0)[k]; (m == Moves <==> moves) && (m == Drops <==> drops)
  {
    hide Marks, Key, TextOf, Entry.Title;
    MarkGoes(es, old_, sel, k);
  }

  /** The sweep starts no archive while an entry would stay behind. */
  lemma FirstSweepWaits(live: seq<string>, t: string, template: seq<string>, sel: Selection, k: nat, moves: bool, drops: bool)
    requires Closing(live, t) && Closing(template, t) && sel.Fresh?
    requires k < |Read(t, live)| && GoesWhere(Read(t, live), Read(t, template), sel, k, moves, drops, true)
    ensures Archived(live, NoFile, t, template, sel) == NoMove
  {
    hide *;
    NoFileText(template);
    ClosingIs(live, t);
    ClosingIs(template, t);
    SectionReads(live, t);
    SectionReads(template, t);
    var es, old_ := Read(t, live), Read(t, template);
    var content, marks := ContentOf(live, SpanOf(live, t)), Marks(es, old_, sel, 0);
    var bs := BlocksOf(content);
    MarkGoes(es, old_, sel, k);
    StaysOneWay(es, old_, sel, k, moves, drops);
    ArchivedIs(live, NoFile, t, template, sel);
    SectionEntriesIs(live, t);
    SplitOfIs(content, marks, sel, false);
    FreshSplitIs(content, marks, false);
    SoundAt(bs, k);
    PickSome(bs, marks, {Unselected, Stays}, k);
    StackHolds(Pick(bs, marks, {Unselected, Stays}), bs[k], bs[k][0]);
    HeadVisible(bs[k][0]);
    VisibleInTrim(Lead(content) + Stack(Pick(bs, marks, {Unselected, Stays})), bs[k][0]);
    ContentHeld(TrimBlank(Lead(content) + Stack(Pick(bs, marks, {Unselected, Stays}))), bs[k][0]);
  }

  lemma NoFileText(template: seq<string>)
    ensures TextOrTemplate(NoFile, template) == template && !NoFile.Lines?
  {
  }

  lemma StaysOneWay(es: seq<Entry>, old_: seq<Entry>, sel: Selection, k: nat, moves: bool, drops: bool)
    requires k < |es| && GoesWhere(es, old_, sel, k, moves, drops, true)
    ensures Marks(es, old_, sel, 0)[k] in {Unselected, Stays}
  {
    hide Marks, Key, TextOf, Entry.Title;
    MarkGoes(es, old_, sel, k);
  }

  lemma VisibleInTrim(lines: seq<string>, l: string)
    requires l in lines && !Blank(l)
    ensures l in TrimBlank(lines)
  {
    hide *;
    TrimBlankSplit(lines);
    DropLeadingBlanks(lines);
    var y := DropLeading(lines);
    DropTrailingBlanks(y);
    assert lines == lines[..|lines| - |y|] + y;
    assert y == DropTrailing(y) + y[|DropTrailing(y)|..];
  }

  lemma ContentHeld(lines: seq<string>, l: string)
    requires l in lines && !Blank(l) && !IsPlaceholder(l)
    ensures HoldsContent(lines)
  {
    hide Blank, IsPlaceholder;
  }

  /** Two entries have the same text exactly when they have the same lines but for white space at the
      lines' ends. */
  lemma SameTextIff(a: Entry, b: Entry)
    requires (forall l | l in a.Lines() :: '\n' !in l) && forall l | l in b.Lines() :: '\n' !in l
    ensures TextOf(a) == TextOf(b)
       <==> |a.Lines()| == |b.Lines()| && forall i | 0 <= i < |a.Lines()| :: TrimEnd(a.Lines()[i]) == TrimEnd(b.Lines()[i])
  {
    hide TrimEnd, LinesOf;
    var x, y := TrimEnds(a.Lines()), TrimEnds(b.Lines());
    TrimEndsAre(a.Lines());
    TrimEndsAre(b.Lines());
    SplitJoin(x);
    SplitJoin(y);
    if |x| == |y| && forall i | 0 <= i < |x| :: TrimEnd(a.Lines()[i]) == TrimEnd(b.Lines()[i]) {
      assert x == y;
    }
  }

  lemma {:induction false} TrimEndsAre(lines: seq<string>)
    requires forall l | l in lines :: '\n' !in l
    ensures |TrimEnds(lines)| == |lines| && forall i | 0 <= i < |lines| :: TrimEnds(lines)[i] == TrimEnd(lines[i])
    ensures forall l | l in TrimEnds(lines) :: '\n' !in l
  {
    hide TrimEnd;
    if lines != [] {
      assert lines[0] in lines && forall l | l in lines[1..] :: l in lines;
      TrimEndsAre(lines[1..]);
      TrimEndIsPrefix(lines[0]);
    }
  }

  lemma {:induction false} TrimEndIsPrefix(s: string)
    ensures TrimEnd(s) <= s
  {
    if s != "" && IsSpace(s[|s| - 1]) {
      TrimEndIsPrefix(s[..|s| - 1]);
    }
  }

  // ---------------------------------------------------------------- a new archive

  /** The text a new archive file starts with, as lines: a title and how to read the file, then the
      section heading its entries sit under. */
  function ArchiveTemplate(lead: seq<string>, section: string): seq<string> {
    lead + ["## " + section, ""]
  }

  /** A new archive is sound, empty and holds its section once, whatever stands above the heading, so
      long as that is no heading and leaves no fence open. */
  lemma TemplateReads(lead: seq<string>, section: string)
    requires Trim(section) == section && NoHeads(Toks(Closed, lead)) && After(Closed, lead) == Closed
    ensures var lines := ArchiveTemplate(lead, section);
      Closing(lines, section) && NoProseAbove(section, lines) && Read(section, lines) == []
  {
    hide *;
    var lines := ArchiveTemplate(lead, section);
    var head := "## " + section;
    TemplateIs(lead, section);
    SectionHeading(section);
    WholeIs(lead, head, [""], []);
    OneBlank();
    EmptyDoc();
    NoHeadsNoSections(Toks(Closed, lead), []);
    NoSectionsCount(section, Toks(Closed, lead));
    PartsIs(section, lead, head);
    WholeToks(section, lead, head, [""], []);
    CountOfWhole(section, section, lead, head, [""], []);
    StartsNowhere();
    NoSectionsCount(section, []);
    OnceIs(section, lines);
    OnceAfter(section, lead, head, [""], []);
    ProseReadsNothing(section, true, Toks(Closed, [""]));
    ProseAtSection(section, Toks(Closed, lead), Tok(SectionHead, head), Toks(Closed, [""]), []);
    BodyNoHeads(Toks(Closed, [""]));
    SpanFound(lines, section);
    ClosingIs(lines, section);
    NoProseIs(section, lines);
  }

  lemma TemplateIs(lead: seq<string>, section: string)
    ensures ArchiveTemplate(lead, section) == lead + ["## " + section] + [""] + []
  {
  }

  lemma PartsIs(t: string, before: seq<string>, head: string)
    requires After(Closed, before) == Closed && SectionCount(t, Toks(Closed, before)) == 0
    requires KindOf(Closed, head) == SectionHead && Next(Closed, head) == Closed && IsSection(t, Tok(SectionHead, head))
    requires NoSections(Toks(Closed, [""]))
    ensures Parts(t, before, head, [""], [])
  {
  }

  lemma OneBlank()
    ensures After(Closed, [""]) == Closed && NoSections(Toks(Closed, [""])) && NoHeads(Toks(Closed, [""])) && IsPad(Toks(Closed, [""]))
  {
    EmptyIsBlank();
    BlankLines(Closed, [""]);
  }
}
