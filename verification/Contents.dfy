/** Rewriting what a section holds: dropping its `_None yet._` placeholder, trimming its edges, and
    putting an entry after or before its other entries. Each rewrite is stated by what is read
    afterwards: the same entries in the same order, but for the placeholder lines in a body, and the
    new entry at one end. The writers and the archive both rest on these. */
module Contents {
  import opened Text
  import opened Fences
  import opened Documents
  import opened Sections

  // ---------------------------------------------------------------- placeholders

  /** Whether a rewrite drops the line: a placeholder, fenced ones only when `all` is set. */
  predicate Dropped(k: Tok, all: bool) {
    IsPlaceholder(k.line) && (k.kind == Plain || (all && k.kind == Fenced))
  }

  /** Nothing but blank lines and placeholders, with `all` the fenced ones too. */
  ghost predicate Invisible(toks: seq<Tok>, all: bool) {
    forall k | k in toks :: Blank(k.line) || Dropped(k, all)
  }

  function Without(toks: seq<Tok>, all: bool): seq<Tok> {
    if toks == [] then [] else (if Dropped(toks[0], all) then [] else [toks[0]]) + Without(toks[1..], all)
  }

  lemma {:induction false} WithoutConcat(a: seq<Tok>, b: seq<Tok>, all: bool)
    ensures Without(a + b, all) == Without(a, all) + Without(b, all)
  {
    if a == [] {
      assert a + b == b;
    } else {
      assert (a + b)[1..] == a[1..] + b;
      WithoutConcat(a[1..], b, all);
    }
  }

  lemma {:induction false} WithoutKeeps(toks: seq<Tok>, all: bool)
    ensures forall k | k in Without(toks, all) :: k in toks
    ensures (forall k | k in toks :: !Dropped(k, all)) ==> Without(toks, all) == toks
  {
    if toks != [] {
      WithoutKeeps(toks[1..], all);
      assert toks[0] in toks;
      assert forall k | k in toks[1..] :: k in toks;
    }
  }

  /** `_None yet._` means "no entries"; an entry read from a rewritten section has lost such lines. */
  function Strip(e: Entry, all: bool): Entry {
    Entry(e.head, CutBlank(Without(e.body, all)))
  }

  function Strips(es: seq<Entry>, all: bool): (r: seq<Entry>)
    ensures |r| == |es|
  {
    if es == [] then [] else [Strip(es[0], all)] + Strips(es[1..], all)
  }

  ghost predicate Canonical(es: seq<Entry>) {
    forall e | e in es :: CutBlank(e.body) == e.body
  }

  lemma {:induction false} BodyWithout(toks: seq<Tok>, all: bool)
    ensures Body(Without(toks, all)) == Without(Body(toks), all)
  {
    hide *;
    if toks == [] {
      EmptyReads("");
      NothingWithout(all);
    } else {
      var k, rest := toks[0], toks[1..];
      assert toks == [k] + rest;
      BodyWithout(rest, all);
      BodyCons(k, rest);
      BodyCons(k, Without(rest, all));
      WithoutCons(k, rest, all);
      if k.IsHead() {
        HeadsStay(k, all);
        NothingWithout(all);
      } else {
        WithoutCons(k, Body(rest), all);
        assert [] + Without(rest, all) == Without(rest, all);
        assert [] + Without(Body(rest), all) == Without(Body(rest), all);
      }
    }
  }

  lemma HeadsStay(k: Tok, all: bool)
    requires k.IsHead()
    ensures !Dropped(k, all)
  {
  }

  lemma NothingWithout(all: bool)
    ensures Without([], all) == []
  {
  }

  lemma CutBlankWithout(body: seq<Tok>, all: bool)
    ensures CutBlank(Without(body, all)) == CutBlank(Without(CutBlank(body), all))
  {
    hide Without, CutBlank, Dropped, Blank;
    var cut := CutBlank(body);
    var pad := body[|cut|..];
    assert body == cut + pad;
    WithoutConcat(cut, pad, all);
    WithoutKeeps(pad, all);
    CutBlankPad(Without(cut, all), Without(pad, all));
  }

  lemma WithoutCons(k: Tok, rest: seq<Tok>, all: bool)
    ensures Without([k] + rest, all) == (if Dropped(k, all) then [] else [k]) + Without(rest, all)
  {
    assert ([k] + rest)[1..] == rest;
  }

  lemma StripsCons(e: Entry, es: seq<Entry>, all: bool)
    ensures Strips([e] + es, all) == [Strip(e, all)] + Strips(es, all)
  {
    assert ([e] + es)[1..] == es;
  }

  /** Reading a section after the placeholders went is reading it and dropping them from the bodies. */
  lemma {:induction false} EntriesWithout(t: string, inside: bool, toks: seq<Tok>, all: bool)
    ensures Entries(t, inside, Without(toks, all)) == Strips(Entries(t, inside, toks), all)
    decreases |toks|
  {
    if toks != [] {
      hide Entries, Without, Strips, Body, CutBlank;
      var k, rest := toks[0], toks[1..];
      assert toks == [k] + rest;
      var inside' := if k.kind == SectionHead then k.Title() == t else inside;
      EntriesWithout(t, inside', rest, all);
      EntriesCons(t, inside, k, rest);
      EntriesCons(t, inside, k, Without(rest, all));
      WithoutCons(k, rest, all);
      if k.kind == EntryHead && inside {
        BodyWithout(rest, all);
        CutBlankWithout(Body(rest), all);
        StripsCons(Entry(k.line, CutBlank(Body(rest))), Entries(t, inside, rest), all);
      } else {
        assert [] + Entries(t, inside', rest) == Entries(t, inside', rest);
        assert [] + Entries(t, inside', Without(rest, all)) == Entries(t, inside', Without(rest, all));
        assert [] + Without(rest, all) == Without(rest, all);
      }
    }
  }

  lemma OneLine(f: Fence, line: string, all: bool)
    ensures Without(Toks(f, [line]), all) == if Dropped(Tok(KindOf(f, line), line), all) then [] else Toks(f, [line])
    ensures IsPlaceholder(line) ==> Next(f, line) == f
  {
    OneTok(f, line);
    WithoutCons(Tok(KindOf(f, line), line), [], all);
    assert [Tok(KindOf(f, line), line)] + [] == [Tok(KindOf(f, line), line)];
    if IsPlaceholder(line) {
      PlaceholderIsInert(f, line);
    }
  }

  /** One more line through the filter: kept or dropped, the fence state stays in step. */
  lemma FilterStep(done: seq<string>, out: seq<string>, line: string, all: bool)
    requires Toks(Closed, out) == Without(Toks(Closed, done), all) && After(Closed, out) == After(Closed, done)
    ensures var f := After(Closed, done);
      var next := if Dropped(Tok(KindOf(f, line), line), all) then out else out + [line];
      Toks(Closed, next) == Without(Toks(Closed, done + [line]), all) && After(Closed, next) == After(Closed, done + [line])
  {
    hide Toks, After, Without, Dropped, KindOf, IsPlaceholder, Next;
    var f := After(Closed, done);
    ToksConcat(Closed, done, [line]);
    ToksConcat(Closed, out, [line]);
    WithoutConcat(Toks(Closed, done), Toks(f, [line]), all);
    OneLine(f, line, all);
    OneTok(f, line);
    if Dropped(Tok(KindOf(f, line), line), all) {
      DroppedIsPlaceholder(Tok(KindOf(f, line), line), all);
    }
  }

  lemma DroppedIsPlaceholder(k: Tok, all: bool)
    requires Dropped(k, all)
    ensures IsPlaceholder(k.line)
  {
  }

  lemma KeptOrDropped(f: Fence, line: string)
    ensures Dropped(Tok(KindOf(f, line), line), false) <==> !Inside(f, line) && Trim(line) == "_None yet._"
  {
    if Trim(line) == "_None yet._" {
      PlaceholderIsInert(f, line);
    }
  }

  /** The writers' fence-aware filter: every line but the placeholders outside fences. */
  method DropPlaceholders(lines: seq<string>) returns (out: seq<string>)
    ensures Toks(Closed, out) == Without(Toks(Closed, lines), false)
    ensures After(Closed, out) == After(Closed, lines)
  {
    hide Toks, After, Without, Dropped, KindOf, Inside, Next, Trim;
    out := [];
    var fenced := new FenceTracker();
    NothingFiltered();
    for i := 0 to |lines|
      invariant fenced.fence == After(Closed, lines[..i])
      invariant Toks(Closed, out) == Without(Toks(Closed, lines[..i]), false)
      invariant After(Closed, out) == After(Closed, lines[..i])
    {
      assert lines[..i + 1] == lines[..i] + [lines[i]];
      FilterStep(lines[..i], out, lines[i], false);
      KeptOrDropped(fenced.fence, lines[i]);
      AfterConcat(Closed, lines[..i], [lines[i]]);
      OneTok(fenced.fence, lines[i]);
      var inside := fenced.Feed(lines[i]);
      if inside || Trim(lines[i]) != "_None yet._" {
        out := out + [lines[i]];
      }
    }
    assert lines[..|lines|] == lines;
  }

  lemma NothingFiltered()
    ensures Toks(Closed, []) == Without(Toks(Closed, []), false) && After(Closed, []) == Closed
    ensures Toks(Closed, []) == Without(Toks(Closed, []), true)
  {
  }

  // ---------------------------------------------------------------- edges

  /** `lines` without its blank edges. */
  function TrimBlank(lines: seq<string>): seq<string> {
    DropTrailing(DropLeading(lines))
  }

  lemma PadsAround(p: seq<string>, x: seq<string>, q: seq<string>)
    requires (forall l | l in p :: Blank(l)) && (forall l | l in q :: Blank(l))
    ensures After(Closed, p + x + q) == After(Closed, x)
    ensures Toks(Closed, p + x + q) == Toks(Closed, p) + Toks(Closed, x) + Toks(After(Closed, x), q)
    ensures IsPad(Toks(Closed, p)) && IsPad(Toks(After(Closed, x), q))
  {
    hide Toks, After, Blank;
    ToksConcat(Closed, p + x, q);
    ToksConcat(Closed, p, x);
    BlankLines(Closed, p);
    BlankLines(After(Closed, x), q);
  }

  /** Blank edges change neither what a section reads nor its fences. */
  lemma PaddedEntries(t: string, inside: bool, p: seq<string>, x: seq<string>, q: seq<string>)
    requires (forall l | l in p :: Blank(l)) && (forall l | l in q :: Blank(l))
    ensures After(Closed, p + x + q) == After(Closed, x)
    ensures Entries(t, inside, Toks(Closed, p + x + q)) == Entries(t, inside, Toks(Closed, x))
    ensures NoSections(Toks(Closed, x)) <==> NoSections(Toks(Closed, p + x + q))
  {
    hide Toks, After, Blank, Entries, InsideAfter;
    PadsAround(p, x, q);
    var tp, tx, tq := Toks(Closed, p), Toks(Closed, x), Toks(After(Closed, x), q);
    EntriesPad(t, inside, tp + tx, tq);
    PadReadsNothing(t, inside, tp, tx);
    assert forall k | k in tp + tx + tq :: k in tp || k in tx || k in tq;
    assert forall k | k in tx :: k in tp + tx + tq;
  }

  lemma TrimBlankEntries(t: string, inside: bool, lines: seq<string>)
    ensures After(Closed, TrimBlank(lines)) == After(Closed, lines)
    ensures Entries(t, inside, Toks(Closed, TrimBlank(lines))) == Entries(t, inside, Toks(Closed, lines))
    ensures NoSections(Toks(Closed, TrimBlank(lines))) <==> NoSections(Toks(Closed, lines))
  {
    hide Toks, After, Blank, Entries, NoSections, DropLeading, DropTrailing;
    var x := DropLeading(lines);
    var y := DropTrailing(x);
    var p, q := lines[..|lines| - |x|], x[|y|..];
    assert x == y + q && lines == p + y + q;
    PaddedEntries(t, inside, p, y, q);
  }

  // ---------------------------------------------------------------- adding an entry

  /** Lines that can be an entry's body: no heading outside a fence, and no fence left open. */
  ghost predicate SoundBody(lines: seq<string>) {
    NoHeads(Toks(Closed, lines)) && After(Closed, lines) == Closed
  }

  predicate IsEntryHead(line: string) {
    |line| >= 4 && line[..4] == "### "
  }

  lemma EntryHeadKind(line: string)
    requires IsEntryHead(line)
    ensures KindOf(Closed, line) == EntryHead && Next(Closed, line) == Closed && !Blank(line)
  {
    HashIsNotAMarker(line);
    assert line[0] == line[..4][0] && line[2] == line[..4][2];
    TrimFirst(line, 0);
  }

  /** An entry put after a closed section's lines is read after that section's entries. */
  lemma EntryAfter(t: string, x: seq<string>, pad: seq<string>, head: string, body: seq<string>)
    requires After(Closed, x) == Closed && (forall l | l in pad :: Blank(l))
    requires IsEntryHead(head) && NoHeads(Toks(Closed, body))
    ensures var all := x + pad + [head] + body;
      && After(Closed, all) == After(Closed, body)
      && Entries(t, true, Toks(Closed, all)) == Entries(t, true, Toks(Closed, x)) + (if InsideAfter(t, true, Toks(Closed, x)) then [Entry(head, CutBlank(Toks(Closed, body)))] else [])
      && (NoSections(Toks(Closed, x)) ==> NoSections(Toks(Closed, all)) && InsideAfter(t, true, Toks(Closed, x)))
  {
    hide Toks, After, Blank, Entries, InsideAfter, KindOf, Next, CutBlank, IsEntryHead;
    EntryHeadKind(head);
    var k := Tok(EntryHead, head);
    var tx, tb := Toks(Closed, x), Toks(Closed, body);
    BlankLines(Closed, pad);
    ToksConcat(Closed, x, pad);
    ToksAroundHead(x + pad, head, body);
    assert tx + Toks(Closed, pad) + [k] + tb == tx + Toks(Closed, pad) + ([k] + tb);
    EntriesConcat(t, true, tx, Toks(Closed, pad), [k] + tb);
    OneEntry(t, InsideAfter(t, true, tx), k, tb);
    if NoSections(tx) {
      NoSectionsStayInside(t, true, tx);
    }
  }

  lemma {:induction false} NoSectionsStayInside(t: string, inside: bool, toks: seq<Tok>)
    requires NoSections(toks)
    ensures InsideAfter(t, inside, toks) == inside
  {
    if toks != [] {
      assert toks[0] in toks;
      NoSectionsStayInside(t, inside, toks[1..]);
    }
  }

  /** An entry put before a section's lines is read first; prose above the section's first entry
      ends up in its body. */
  lemma EntryBefore(t: string, pad: seq<string>, head: string, body: seq<string>, rest: seq<string>)
    requires (forall l | l in pad :: Blank(l)) && IsEntryHead(head) && SoundBody(body)
    ensures var all := pad + [head] + body + rest;
      && After(Closed, all) == After(Closed, rest)
      && Entries(t, true, Toks(Closed, all))
         == [Entry(head, CutBlank(Toks(Closed, body) + Body(Toks(Closed, rest))))] + Entries(t, true, Toks(Closed, rest))
      && (NoSections(Toks(Closed, rest)) ==> NoSections(Toks(Closed, all)))
  {
    hide Toks, After, Blank, Entries, InsideAfter, KindOf, Next, CutBlank, IsEntryHead, Body;
    EntryHeadKind(head);
    var k := Tok(EntryHead, head);
    BlankLines(Closed, pad);
    ToksAroundHead(pad, head, body + rest);
    assert pad + [head] + (body + rest) == pad + [head] + body + rest;
    ToksConcat(Closed, body, rest);
    var tp, tb, tr := Toks(Closed, pad), Toks(Closed, body), Toks(Closed, rest);
    assert tp + [k] + (tb + tr) == tp + ([k] + (tb + tr));
    PadReadsNothing(t, true, tp, [k] + (tb + tr));
    EntriesCons(t, true, k, tb + tr);
    PadReadsNothing(t, true, tb, tr);
    BodyPrefix(tb, tr);
  }

  lemma {:induction false} BodyPrefix(a: seq<Tok>, b: seq<Tok>)
    requires NoHeads(a)
    ensures Body(a + b) == a + Body(b)
  {
    if a == [] {
      assert a + b == b;
    } else {
      assert a[0] in a;
      assert (a + b)[1..] == a[1..] + b;
      BodyPrefix(a[1..], b);
    }
  }

  lemma EmptyReads(t: string)
    ensures forall u, b :: Entries(u, b, []) == []
    ensures Body([]) == [] && NoSections([])
  {
  }

  lemma {:induction false} DropTrailingToks(f: Fence, lines: seq<string>)
    ensures Toks(f, DropTrailing(lines)) == CutBlank(Toks(f, lines))
  {
    hide Toks, After, Blank;
    var kept := DropTrailing(lines);
    var q := lines[|kept|..];
    assert lines == kept + q;
    ToksConcat(f, kept, q);
    BlankLines(After(f, kept), q);
    CutBlankPad(Toks(f, kept), Toks(After(f, kept), q));
    KeptToks(f, kept);
  }

  lemma KeptToks(f: Fence, kept: seq<string>)
    requires kept == [] || !Blank(kept[|kept| - 1])
    ensures CutBlank(Toks(f, kept)) == Toks(f, kept)
  {
    hide Toks, After, Blank, KindOf;
    if kept != [] {
      ToksAt(f, kept, |kept| - 1);
    } else {
      EmptyDoc();
    }
  }

  lemma DropTrailingHead(head: string, body: seq<string>)
    requires !Blank(head)
    ensures DropTrailing([head] + body) == [head] + DropTrailing(body)
    decreases |body|
  {
    hide *;
    TrailingStep([head] + body);
    TrailingStep(body);
    if body == [] {
      assert [head] + body == [head] + DropTrailing(body);
    } else {
      assert ([head] + body)[..|body|] == [head] + body[..|body| - 1] && ([head] + body)[|body|] == body[|body| - 1];
      if Blank(body[|body| - 1]) {
        DropTrailingHead(head, body[..|body| - 1]);
      }
    }
  }

  lemma TrailingStep(x: seq<string>)
    ensures DropTrailing(x) == if x != [] && Blank(x[|x| - 1]) then DropTrailing(x[..|x| - 1]) else x
  {
    hide Blank;
  }

  /** A visible line in the body of padded tokens would be the first of them. */
  lemma BodyAfterPad(pad: seq<Tok>, x: seq<Tok>, q: seq<Tok>)
    requires IsPad(pad) && (forall k | k in Body(pad + x + q) :: Blank(k.line)) && (x != [] ==> !Blank(x[0].line))
    ensures x != [] ==> x[0].IsHead()
  {
    hide Body, Blank;
    if x != [] {
      assert pad + x + q == pad + (x + q);
      BodyPrefix(pad, x + q);
      VisibleStart(x + q);
      assert forall k | k in Body(x + q) :: k in Body(pad + x + q);
    }
  }

  lemma FirstTok(lines: seq<string>)
    requires lines != []
    ensures Toks(Closed, lines)[0].line == lines[0]
  {
  }

  lemma VisibleStart(toks: seq<Tok>)
    requires toks != []
    ensures Body(toks) == [] <==> toks[0].IsHead()
    ensures Body(toks) == [] || toks[0] in Body(toks)
  {
    assert Body(toks) == [] || Body(toks)[0] == toks[0];
  }

  lemma FirstOfBody(toks: seq<Tok>)
    requires toks != [] && !toks[0].IsHead()
    ensures Body(toks) != [] && Body(toks)[0] == toks[0]
  {
  }

  /** The lines between the first heading of `## t` and what heads next. */
  function FirstProse(t: string, toks: seq<Tok>): seq<Tok> {
    if toks == [] then [] else if IsSection(t, toks[0]) then Body(toks[1..]) else FirstProse(t, toks[1..])
  }

  lemma {:induction false} FirstProseSkips(t: string, b: seq<Tok>, c: seq<Tok>)
    requires forall k | k in b :: !IsSection(t, k)
    ensures FirstProse(t, b + c) == FirstProse(t, c)
  {
    if b == [] {
      assert b + c == c;
    } else {
      assert b[0] in b && (b + c)[1..] == b[1..] + c;
      FirstProseSkips(t, b[1..], c);
    }
  }

  lemma FirstProseHere(t: string, head: Tok, rest: seq<Tok>)
    requires IsSection(t, head)
    ensures FirstProse(t, [head] + rest) == Body(rest)
  {
    assert ([head] + rest)[1..] == rest;
  }

  lemma ProseAtSection(t: string, before: seq<Tok>, head: Tok, content: seq<Tok>, after: seq<Tok>)
    requires SectionCount(t, before) == 0 && IsSection(t, head) && StartsAtHead(after)
    ensures FirstProse(t, before + [head] + content + after) == Body(content)
  {
    hide FirstProse, SectionCount, Body, StartsAtHead;
    NoSectionCount(t, before);
    assert before + [head] + content + after == before + ([head] + (content + after));
    FirstProseSkips(t, before, [head] + (content + after));
    FirstProseHere(t, head, content + after);
    BodyAcross(content, after);
  }
}
