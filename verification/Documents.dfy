/** What a backlog document says: the fence-aware classification of its lines, and the entries each
    `## ` section holds. This is the reference reading that every reader and every edit is proved
    against; fences are dealt with here once, and readings of concatenations are put together from
    their parts. */
module Documents {
  import opened Text
  import opened Fences

  datatype Kind = SectionHead | EntryHead | Plain | Fenced

  /** A line with what a tracker over the whole document says it is. */
  datatype Tok = Tok(kind: Kind, line: string) {
    predicate IsHead() {
      kind == SectionHead || kind == EntryHead
    }

    function Title(): string {
      if kind == SectionHead && |line| >= 3 then Trim(line[3..])
      else if kind == EntryHead && |line| >= 4 then Trim(line[4..])
      else ""
    }
  }

  function KindOf(f: Fence, line: string): Kind {
    if Inside(f, line) then Fenced
    else if "## " <= line then SectionHead
    else if "### " <= line then EntryHead
    else Plain
  }

  function Toks(f: Fence, lines: seq<string>): (toks: seq<Tok>)
    ensures |toks| == |lines|
    decreases |lines|
  {
    if lines == [] then []
    else [Tok(KindOf(f, lines[0]), lines[0])] + Toks(Next(f, lines[0]), lines[1..])
  }

  lemma {:induction false} ToksConcat(f: Fence, a: seq<string>, b: seq<string>)
    ensures Toks(f, a + b) == Toks(f, a) + Toks(After(f, a), b)
    ensures After(f, a + b) == After(After(f, a), b)
    decreases |a|
  {
    if a == [] {
      assert a + b == b;
    } else {
      assert (a + b)[1..] == a[1..] + b;
      var n := Next(f, a[0]);
      ToksConcat(n, a[1..], b);
      calc {
        Toks(f, a + b);
        [Tok(KindOf(f, a[0]), a[0])] + Toks(n, a[1..] + b);
        [Tok(KindOf(f, a[0]), a[0])] + (Toks(n, a[1..]) + Toks(After(n, a[1..]), b));
        ([Tok(KindOf(f, a[0]), a[0])] + Toks(n, a[1..])) + Toks(After(n, a[1..]), b);
        Toks(f, a) + Toks(After(f, a), b);
      }
    }
  }

  /** The document split around position `i`. */
  lemma ToksAt(f: Fence, lines: seq<string>, i: nat)
    requires i < |lines|
    ensures Toks(f, lines)[i] == Tok(KindOf(After(f, lines[..i]), lines[i]), lines[i])
    ensures Toks(f, lines)[..i] == Toks(f, lines[..i])
    ensures Toks(f, lines)[i..] == Toks(After(f, lines[..i]), lines[i..])
    ensures After(f, lines[..i + 1]) == Next(After(f, lines[..i]), lines[i])
  {
    assert lines == lines[..i] + lines[i..];
    ToksConcat(f, lines[..i], lines[i..]);
    assert lines[..i + 1] == lines[..i] + [lines[i]];
    ToksConcat(f, lines[..i], [lines[i]]);
  }

  lemma ToksSplit(f: Fence, lines: seq<string>, i: nat)
    requires i <= |lines|
    ensures Toks(f, lines)[..i] == Toks(f, lines[..i])
    ensures Toks(f, lines)[i..] == Toks(After(f, lines[..i]), lines[i..])
    ensures After(f, lines) == After(After(f, lines[..i]), lines[i..])
  {
    assert lines == lines[..i] + lines[i..];
    ToksConcat(f, lines[..i], lines[i..]);
  }

  /** A heading line is only ever read outside every fence. */
  lemma HeadIsOutside(f: Fence, line: string)
    requires KindOf(f, line) == SectionHead || KindOf(f, line) == EntryHead
    ensures f == Closed && Next(f, line) == Closed
    ensures KindOf(f, line) == EntryHead ==> |line| >= 4 && line[..4] == "### "
    ensures KindOf(f, line) == SectionHead ==> |line| >= 3 && line[..3] == "## "
    ensures !Blank(line)
  {
    HashIsNotAMarker(line);
    TrimFirst(line, 0);
  }

  /** A document may be read afresh from any heading: every fence before it is closed. */
  lemma FreshAtHead(lines: seq<string>, n: nat)
    requires n < |lines| && Toks(Closed, lines)[n].IsHead()
    ensures After(Closed, lines[..n]) == Closed
    ensures Toks(Closed, lines) == Toks(Closed, lines[..n]) + Toks(Closed, lines[n..])
    ensures Toks(Closed, lines[n..])[0].kind == Toks(Closed, lines)[n].kind
  {
    hide *;
    ToksAt(Closed, lines, n);
    var k := Toks(Closed, lines)[n];
    HeadKinds(k);
    HeadIsOutside(After(Closed, lines[..n]), lines[n]);
    FreshAt(lines, n);
  }

  lemma HeadKinds(k: Tok)
    ensures k.IsHead() <==> k.kind == SectionHead || k.kind == EntryHead
  {
  }

  lemma FreshAt(lines: seq<string>, n: nat)
    requires n < |lines| && After(Closed, lines[..n]) == Closed
    ensures Toks(Closed, lines) == Toks(Closed, lines[..n]) + Toks(Closed, lines[n..])
    ensures Toks(Closed, lines[n..])[0].kind == Toks(Closed, lines)[n].kind
  {
    hide *;
    assert lines == lines[..n] + lines[n..];
    ToksConcat(Closed, lines[..n], lines[n..]);
  }

  /** A heading line and what follows it, classified on their own. */
  lemma ToksAroundHead(before: seq<string>, head: string, rest: seq<string>)
    requires After(Closed, before) == Closed && Next(Closed, head) == Closed
    ensures Toks(Closed, before + [head] + rest) == Toks(Closed, before) + [Tok(KindOf(Closed, head), head)] + Toks(Closed, rest)
    ensures After(Closed, before + [head] + rest) == After(Closed, rest)
  {
    hide *;
    ToksConcat(Closed, before + [head], rest);
    ToksConcat(Closed, before, [head]);
    OneTok(Closed, head);
  }

  lemma OneTok(f: Fence, line: string)
    ensures Toks(f, [line]) == [Tok(KindOf(f, line), line)] && After(f, [line]) == Next(f, line)
  {
    assert [line][1..] == [];
  }

  // ---------------------------------------------------------------- entries

  function Body(toks: seq<Tok>): (b: seq<Tok>)
    ensures b <= toks
    ensures forall k | k in b :: !k.IsHead()
    ensures |b| < |toks| ==> toks[|b|].IsHead()
  {
    if toks == [] || toks[0].IsHead() then [] else [toks[0]] + Body(toks[1..])
  }

  lemma BodyCons(k: Tok, rest: seq<Tok>)
    ensures Body([k] + rest) == if k.IsHead() then [] else [k] + Body(rest)
  {
    assert ([k] + rest)[1..] == rest;
  }

  /** A token sequence without its trailing blank lines. */
  function CutBlank(toks: seq<Tok>): (r: seq<Tok>)
    ensures r <= toks
    ensures forall k | k in toks[|r|..] :: Blank(k.line)
    ensures r == [] || !Blank(r[|r| - 1].line)
  {
    if toks != [] && Blank(toks[|toks| - 1].line) then
      var r := CutBlank(toks[..|toks| - 1]);
      assert toks[|r|..] == toks[..|toks| - 1][|r|..] + [toks[|toks| - 1]];
      r
    else toks
  }

  /** One entry: its `### ` line and its body, up to the last line that is not blank. */
  datatype Entry = Entry(head: string, body: seq<Tok>) {
    function Title(): string {
      if |head| >= 4 then Trim(head[4..]) else ""
    }

    /** The body as `parseEntryDetails` returns it. */
    function Text(): string {
      Trim(Join(LinesOf(body)))
    }

    /** The entry's lines from its heading to its last visible line. */
    function Lines(): seq<string> {
      [head] + LinesOf(body)
    }
  }

  function LinesOf(toks: seq<Tok>): (lines: seq<string>)
    ensures |lines| == |toks|
  {
    if toks == [] then [] else [toks[0].line] + LinesOf(toks[1..])
  }

  lemma {:induction false} LinesOfConcat(a: seq<Tok>, b: seq<Tok>)
    ensures LinesOf(a + b) == LinesOf(a) + LinesOf(b)
  {
    if a == [] {
      assert a + b == b;
    } else {
      assert (a + b)[1..] == a[1..] + b;
      LinesOfConcat(a[1..], b);
    }
  }

  lemma {:induction false} LinesOfAt(toks: seq<Tok>, i: nat)
    requires i < |toks|
    ensures LinesOf(toks)[i] == toks[i].line
  {
    if i > 0 {
      LinesOfAt(toks[1..], i - 1);
    }
  }

  /** The classification loses no line. */
  lemma {:induction false} LinesOfToks(f: Fence, lines: seq<string>)
    ensures LinesOf(Toks(f, lines)) == lines
    decreases |lines|
  {
    if lines != [] {
      assert Toks(f, lines)[1..] == Toks(Next(f, lines[0]), lines[1..]);
      LinesOfToks(Next(f, lines[0]), lines[1..]);
    }
  }

  /** The entries under the sections titled `t`, reading from inside such a section or not. */
  function Entries(t: string, inside: bool, toks: seq<Tok>): seq<Entry>
    decreases |toks|
  {
    if toks == [] then []
    else if toks[0].kind == SectionHead then Entries(t, toks[0].Title() == t, toks[1..])
    else if toks[0].kind == EntryHead && inside then
      [Entry(toks[0].line, CutBlank(Body(toks[1..])))] + Entries(t, inside, toks[1..])
    else Entries(t, inside, toks[1..])
  }

  lemma EntriesCons(t: string, inside: bool, k: Tok, rest: seq<Tok>)
    ensures Entries(t, inside, [k] + rest) ==
      if k.kind == SectionHead then Entries(t, k.Title() == t, rest)
      else (if k.kind == EntryHead && inside then [Entry(k.line, CutBlank(Body(rest)))] else []) + Entries(t, inside, rest)
  {
    assert ([k] + rest)[1..] == rest;
  }

  function InsideAfter(t: string, inside: bool, toks: seq<Tok>): bool
    decreases |toks|
  {
    if toks == [] then inside
    else InsideAfter(t, if toks[0].kind == SectionHead then toks[0].Title() == t else inside, toks[1..])
  }

  lemma InsideCons(t: string, inside: bool, k: Tok, rest: seq<Tok>)
    ensures InsideAfter(t, inside, [k] + rest)
         == InsideAfter(t, if k.kind == SectionHead then k.Title() == t else inside, rest)
  {
    assert ([k] + rest)[1..] == rest;
  }

  lemma InsideNothing(t: string, inside: bool)
    ensures InsideAfter(t, inside, []) == inside && Entries(t, inside, []) == []
  {
  }

  /** The document's entries under `## t`. */
  function Read(t: string, lines: seq<string>): seq<Entry> {
    Entries(t, false, Toks(Closed, lines))
  }

  ghost predicate IsPad(toks: seq<Tok>) {
    forall k | k in toks :: Blank(k.line) && !k.IsHead()
  }

  ghost predicate NoHeads(toks: seq<Tok>) {
    forall k | k in toks :: !k.IsHead()
  }

  lemma NoHeadsPrefix(a: seq<Tok>, b: seq<Tok>)
    requires NoHeads(a + b)
    ensures NoHeads(a)
  {
    assert forall k | k in a :: k in a + b;
  }

  ghost predicate StartsAtHead(toks: seq<Tok>) {
    toks == [] || toks[0].IsHead()
  }

  lemma {:induction false} BodyAcross(a: seq<Tok>, b: seq<Tok>)
    requires StartsAtHead(b)
    ensures Body(a + b) == Body(a)
  {
    if a == [] {
      assert a + b == b;
    } else {
      assert (a + b)[1..] == a[1..] + b;
      if !a[0].IsHead() {
        BodyAcross(a[1..], b);
      }
    }
  }

  lemma {:induction false} CutBlankPad(a: seq<Tok>, pad: seq<Tok>)
    requires forall k | k in pad :: Blank(k.line)
    ensures CutBlank(a + pad) == CutBlank(a)
  {
    if pad == [] {
      assert a + pad == a;
    } else {
      var n := |pad| - 1;
      assert pad[n] in pad;
      assert (a + pad)[..|a + pad| - 1] == a + pad[..n];
      CutBlankPad(a, pad[..n]);
    }
  }

  lemma {:induction false} BodyNoHeads(a: seq<Tok>)
    requires NoHeads(a)
    ensures Body(a) == a
  {
    if a != [] {
      BodyNoHeads(a[1..]);
    }
  }

  lemma {:induction false} BodyPad(a: seq<Tok>, pad: seq<Tok>)
    requires IsPad(pad)
    ensures CutBlank(Body(a + pad)) == CutBlank(Body(a))
  {
    if NoHeads(a) {
      BodyNoHeads(a);
      BodyNoHeads(a + pad);
      CutBlankPad(a, pad);
    } else {
      BodyStopsInside(a, pad);
    }
  }

  lemma {:induction false} BodyStopsInside(a: seq<Tok>, b: seq<Tok>)
    requires !NoHeads(a)
    ensures Body(a + b) == Body(a)
  {
    if !a[0].IsHead() {
      assert (a + b)[1..] == a[1..] + b;
      BodyStopsInside(a[1..], b);
    }
  }

  /** Reading a document part by part, where parts meet at a heading. */
  lemma {:induction false} EntriesMeet(t: string, inside: bool, a: seq<Tok>, b: seq<Tok>)
    requires StartsAtHead(b)
    ensures Entries(t, inside, a + b) == Entries(t, inside, a) + Entries(t, InsideAfter(t, inside, a), b)
    decreases |a|
  {
    hide Entries, InsideAfter, CutBlank, Body;
    if a == [] {
      InsideNothing(t, inside);
      assert a + b == b;
    } else {
      var k, rest := a[0], a[1..];
      assert a == [k] + rest && a + b == [k] + (rest + b);
      EntriesMeet(t, if k.kind == SectionHead then k.Title() == t else inside, rest, b);
      EntriesCons(t, inside, k, rest);
      EntriesCons(t, inside, k, rest + b);
      InsideCons(t, inside, k, rest);
      if k.kind == EntryHead && inside {
        BodyAcross(rest, b);
        assert [Entry(k.line, CutBlank(Body(rest)))] + (Entries(t, inside, rest) + Entries(t, InsideAfter(t, inside, rest), b))
            == [Entry(k.line, CutBlank(Body(rest)))] + Entries(t, inside, rest) + Entries(t, InsideAfter(t, inside, rest), b);
      }
    }
  }

  lemma {:induction false} InsideMeet(t: string, inside: bool, a: seq<Tok>, b: seq<Tok>)
    ensures InsideAfter(t, inside, a + b) == InsideAfter(t, InsideAfter(t, inside, a), b)
    decreases |a|
  {
    if a == [] {
      assert a + b == b;
    } else {
      assert (a + b)[1..] == a[1..] + b;
      InsideMeet(t, if a[0].kind == SectionHead then a[0].Title() == t else inside, a[1..], b);
    }
  }

  lemma {:induction false} EntriesPad(t: string, inside: bool, a: seq<Tok>, pad: seq<Tok>)
    requires IsPad(pad)
    ensures Entries(t, inside, a + pad) == Entries(t, inside, a)
    decreases |a|
  {
    if a == [] {
      assert a + pad == pad;
      ProseReadsNothing(t, inside, pad);
    } else {
      assert (a + pad)[1..] == a[1..] + pad;
      EntriesPad(t, if a[0].kind == SectionHead then a[0].Title() == t else inside, a[1..], pad);
      BodyPad(a[1..], pad);
    }
  }

  /** Parts meet at a heading, and blank lines before the meeting point do not matter. */
  lemma EntriesConcat(t: string, inside: bool, a: seq<Tok>, pad: seq<Tok>, b: seq<Tok>)
    requires IsPad(pad) && StartsAtHead(b)
    ensures Entries(t, inside, a + pad + b) == Entries(t, inside, a) + Entries(t, InsideAfter(t, inside, a), b)
    ensures InsideAfter(t, inside, a + pad + b) == InsideAfter(t, InsideAfter(t, inside, a), b)
  {
    EntriesMeet(t, inside, a + pad, b);
    EntriesPad(t, inside, a, pad);
    InsideMeet(t, inside, a + pad, b);
    InsideMeet(t, inside, a, pad);
    ProseReadsNothing(t, InsideAfter(t, inside, a), pad);
  }

  lemma {:induction false} PadReadsNothing(t: string, inside: bool, pad: seq<Tok>, b: seq<Tok>)
    requires NoHeads(pad)
    ensures Entries(t, inside, pad + b) == Entries(t, inside, b)
    ensures InsideAfter(t, inside, pad + b) == InsideAfter(t, inside, b)
  {
    if pad == [] {
      assert pad + b == b;
    } else {
      assert (pad + b)[1..] == pad[1..] + b;
      assert pad[0] in pad;
      PadReadsNothing(t, inside, pad[1..], b);
    }
  }

  /** Text before the first heading of a section belongs to no entry. */
  lemma ProseReadsNothing(t: string, inside: bool, prose: seq<Tok>)
    requires NoHeads(prose)
    ensures Entries(t, inside, prose) == [] && InsideAfter(t, inside, prose) == inside
  {
    PadReadsNothing(t, inside, prose, []);
    assert prose + [] == prose;
  }

  lemma OneEntry(t: string, inside: bool, head: Tok, body: seq<Tok>)
    requires head.kind == EntryHead && NoHeads(body)
    ensures Entries(t, inside, [head] + body) == if inside then [Entry(head.line, CutBlank(body))] else []
    ensures InsideAfter(t, inside, [head] + body) == inside
  {
    assert ([head] + body)[1..] == body;
    BodyNoHeads(body);
    ProseReadsNothing(t, inside, body);
  }

  lemma OneSectionHead(t: string, inside: bool, head: Tok, rest: seq<Tok>)
    requires head.kind == SectionHead
    ensures Entries(t, inside, [head] + rest) == Entries(t, head.Title() == t, rest)
    ensures InsideAfter(t, inside, [head] + rest) == InsideAfter(t, head.Title() == t, rest)
  {
    assert ([head] + rest)[1..] == rest;
  }

  /** Sections titled otherwise hold no entries of `t`. */
  lemma {:induction false} NoSuchSection(t: string, toks: seq<Tok>)
    requires forall k | k in toks :: !IsSection(t, k)
    ensures Entries(t, false, toks) == [] && InsideAfter(t, false, toks) == false
  {
    if toks != [] {
      assert toks[0] in toks;
      NoSuchSection(t, toks[1..]);
    }
  }

  // ---------------------------------------------------------------- blank lines and placeholders

  lemma {:induction false} BlankLines(f: Fence, lines: seq<string>)
    requires forall l | l in lines :: Blank(l)
    ensures After(f, lines) == f
    ensures IsPad(Toks(f, lines))
    decreases |lines|
  {
    if lines != [] {
      assert lines[0] in lines;
      NotAMarker(lines[0]);
      assert KindOf(f, lines[0]) in {Plain, Fenced} by {
        if "## " <= lines[0] || "### " <= lines[0] {
          TrimFirst(lines[0], 0);
        }
      }
      assert Toks(f, lines)[1..] == Toks(f, lines[1..]);
      BlankLines(f, lines[1..]);
    }
  }

  /** The `_None yet._` line a role leaves under an emptied section. */
  predicate IsPlaceholder(line: string) {
    Trim(line) == "_None yet._"
  }

  lemma PlaceholderIsInert(f: Fence, line: string)
    requires IsPlaceholder(line)
    ensures Next(f, line) == f && KindOf(f, line) == if f == Closed then Plain else Fenced
  {
    NotAMarker(line);
    if "## " <= line || "### " <= line {
      TrimFirst(line, 0);
    }
  }

  predicate IsSection(t: string, k: Tok) {
    k.kind == SectionHead && k.Title() == t
  }

  /** How many sections are titled `t`. */
  function SectionCount(t: string, toks: seq<Tok>): nat {
    if toks == [] then 0 else (if IsSection(t, toks[0]) then 1 else 0) + SectionCount(t, toks[1..])
  }

  /** The document has at most one section titled `t`. */
  predicate Once(t: string, lines: seq<string>) {
    SectionCount(t, Toks(Closed, lines)) <= 1
  }

  lemma {:induction false} SectionCountConcat(t: string, a: seq<Tok>, b: seq<Tok>)
    ensures SectionCount(t, a + b) == SectionCount(t, a) + SectionCount(t, b)
  {
    if a == [] {
      assert a + b == b;
    } else {
      assert (a + b)[1..] == a[1..] + b;
      SectionCountConcat(t, a[1..], b);
    }
  }

  lemma {:induction false} NoSectionCount(t: string, toks: seq<Tok>)
    ensures SectionCount(t, toks) == 0 <==> forall k | k in toks :: !IsSection(t, k)
  {
    if toks != [] {
      NoSectionCount(t, toks[1..]);
      assert forall k | k in toks :: k == toks[0] || k in toks[1..];
      assert toks[0] in toks;
    }
  }

  lemma EmptyDoc()
    ensures Toks(Closed, []) == [] && After(Closed, []) == Closed
    ensures forall f :: Toks(f, []) == [] && After(f, []) == f
  {
  }
}
