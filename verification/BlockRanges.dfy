/** Line numbers and blocks: the ranges `actionableEntryRanges` reports for one section are its blocks,
    so filtering lines by number is picking blocks (src/backlog/backlog-archive.ts). The source keeps
    sets of line numbers and drops the lines in them; the lemmas here turn such a set into a choice of
    whole blocks, so nothing later needs to count lines. */
module BlockRanges {
  import opened Text
  import opened Fences
  import opened Documents
  import opened SectionReaders
  import opened Sections
  import opened Contents
  import opened Blocks

  // ---------------------------------------------------------------- marks

  /** What becomes of an entry of the finished section. */
  datatype Mark = Unselected | Moves | Drops | Stays

  const ALL: set<Mark> := {Unselected, Moves, Drops, Stays}

  /** The elements whose mark is in `which`, in order. */
  function Pick<T>(s: seq<T>, marks: seq<Mark>, which: set<Mark>): seq<T>
    requires |s| == |marks|
  {
    if s == [] then [] else (if marks[0] in which then [s[0]] else []) + Pick(s[1..], marks[1..], which)
  }

  lemma PickCons<T>(x: T, s: seq<T>, m: Mark, marks: seq<Mark>, which: set<Mark>)
    requires |s| == |marks|
    ensures Pick([x] + s, [m] + marks, which) == (if m in which then [x] else []) + Pick(s, marks, which)
  {
    assert ([x] + s)[1..] == s && ([m] + marks)[1..] == marks;
  }

  lemma PickNothing<T>(which: set<Mark>)
    ensures Pick<T>([], [], which) == []
  {
  }

  lemma {:induction false} PickConcat<T>(a: seq<T>, b: seq<T>, ma: seq<Mark>, mb: seq<Mark>, which: set<Mark>)
    requires |a| == |ma| && |b| == |mb|
    ensures Pick(a + b, ma + mb, which) == Pick(a, ma, which) + Pick(b, mb, which)
  {
    hide *;
    if a == [] {
      PickNothing<T>(which);
      assert a + b == b && ma + mb == mb;
    } else {
      assert a == [a[0]] + a[1..] && ma == [ma[0]] + ma[1..];
      assert a + b == [a[0]] + (a[1..] + b) && ma + mb == [ma[0]] + (ma[1..] + mb);
      PickCons(a[0], a[1..], ma[0], ma[1..], which);
      PickCons(a[0], a[1..] + b, ma[0], ma[1..] + mb, which);
      PickConcat(a[1..], b, ma[1..], mb, which);
    }
  }

  lemma {:induction false} PickNone<T>(s: seq<T>, marks: seq<Mark>, which: set<Mark>)
    requires |s| == |marks| && forall i | 0 <= i < |marks| :: marks[i] !in which
    ensures Pick(s, marks, which) == []
  {
    if s != [] {
      PickNone(s[1..], marks[1..], which);
    }
  }

  /** Marks that do not occur make no difference. */
  lemma {:induction false} PickSame<T>(s: seq<T>, marks: seq<Mark>, a: set<Mark>, b: set<Mark>)
    requires |s| == |marks| && forall i | 0 <= i < |marks| :: marks[i] in a <==> marks[i] in b
    ensures Pick(s, marks, a) == Pick(s, marks, b)
  {
    if s != [] {
      PickSame(s[1..], marks[1..], a, b);
    }
  }

  lemma {:induction false} PickSound(bs: seq<seq<string>>, marks: seq<Mark>, which: set<Mark>)
    requires |bs| == |marks| && SoundBlocks(bs)
    ensures SoundBlocks(Pick(bs, marks, which))
  {
    if bs != [] {
      assert bs == [bs[0]] + bs[1..];
      SoundCons(bs[0], bs[1..]);
      PickSound(bs[1..], marks[1..], which);
    }
  }

  lemma {:induction false} PickEntries(bs: seq<seq<string>>, marks: seq<Mark>, which: set<Mark>)
    requires |bs| == |marks|
    ensures EntriesOf(Pick(bs, marks, which)) == Pick(EntriesOf(bs), marks, which)
  {
    if bs != [] {
      PickEntries(bs[1..], marks[1..], which);
      EntriesOfCons(bs[0], Pick(bs[1..], marks[1..], which));
      assert [] + Pick(bs[1..], marks[1..], which) == Pick(bs[1..], marks[1..], which);
    }
  }

  // ---------------------------------------------------------------- spans

  /** The ranges lie end to end over lines `at` to `to`, each covering one block. */
  ghost predicate Spans(lines: seq<string>, rs: seq<Range>, bs: seq<seq<string>>, at: nat, to: nat) {
    && |rs| == |bs| && at <= to <= |lines|
    && if rs == [] then at == to
       else
         && rs[0].start == at + 1 && at < rs[0].end <= to && bs[0] == lines[at..rs[0].end]
         && IsEntryHead(lines[at]) && rs[0].title == EntryOf(bs[0]).Title()
         && Spans(lines, rs[1..], bs[1..], rs[0].end, to)
  }

  lemma SpansCons(lines: seq<string>, r: Range, rs: seq<Range>, b: seq<string>, bs: seq<seq<string>>, at: nat, to: nat)
    ensures Spans(lines, [r] + rs, [b] + bs, at, to) <==>
            (at <= to <= |lines| && r.start == at + 1 && at < r.end <= to && b == lines[at..r.end] && IsEntryHead(lines[at])
             && r.title == EntryOf(b).Title() && Spans(lines, rs, bs, r.end, to))
  {
    assert ([r] + rs)[1..] == rs && ([b] + bs)[1..] == bs;
  }

  lemma {:induction false} RangesSkip(t: string, inside: bool, body: seq<Tok>, after: seq<Tok>, at: nat, eof: nat)
    requires forall k | k in body :: k.kind != SectionHead && (inside ==> k.kind != EntryHead)
    ensures RangesFrom(t, inside, body + after, at, eof) == RangesFrom(t, inside, after, at + |body|, eof)
  {
    if body == [] {
      assert body + after == after;
    } else {
      assert body[0] in body;
      assert (body + after)[1..] == body[1..] + after;
      RangesSkip(t, inside, body[1..], after, at + 1, eof);
    }
  }

  lemma RangesCons(t: string, k: Tok, rest: seq<Tok>, at: nat, eof: nat)
    requires k.kind == EntryHead
    ensures RangesFrom(t, true, [k] + rest, at, eof) == [Range(k.Title(), at + 1, EndOf(rest, at + 1, eof))] + RangesFrom(t, true, rest, at + 1, eof)
  {
    assert ([k] + rest)[1..] == rest;
  }

  lemma NoHeadsMeans(toks: seq<Tok>)
    requires NoHeads(toks)
    ensures forall k | k in toks :: k.kind != SectionHead && k.kind != EntryHead
  {
  }

  /** The ranges of a section's entries span its blocks. */
  lemma {:induction false} CutSpans(t: string, lines: seq<string>, at: nat, to: nat)
    requires at <= to <= |lines|
    requires StartsAtHead(Toks(Closed, lines[at..to])) && NoSections(Toks(Closed, lines[at..to]))
    ensures Spans(lines, RangesFrom(t, true, Toks(Closed, lines[at..to]), at, to), Cut(lines[at..to]), at, to)
    decreases |lines| - at
  {
    hide *;
    var x := lines[at..to];
    LengthOf(x);
    if x == [] {
      NothingCut(t);
      NothingSpans(t, lines, at);
    } else {
      HeadNotSection(Toks(Closed, x));
      var n := CutCons(x);
      var body, rest := x[1..n + 1], x[n + 1..];
      var stop := at + n + 1;
      assert |x| == to - at && stop <= to;
      assert rest == lines[stop..to] && x[..n + 1] == lines[at..stop] && x[0] == lines[at];
      NoSectionsTail([Tok(EntryHead, x[0])], Toks(Closed, body), Toks(Closed, rest));
      CutSpans(t, lines, stop, to);
      var toks := Toks(Closed, body) + Toks(Closed, rest);
      RangesCons(t, Tok(EntryHead, x[0]), toks, at, to);
      NoHeadsMeans(Toks(Closed, body));
      LengthOf(body);
      RangesSkip(t, true, Toks(Closed, body), Toks(Closed, rest), at + 1, to);
      LengthOf(x[1..]);
      EndIs(Toks(Closed, x[1..]), at + 1, to);
      EntryOfBlock(x[..n + 1]);
      SameTitle(x[0], CutBlank(Toks(Closed, x[..n + 1][1..])));
      SpansCons(lines, Range(Tok(EntryHead, x[0]).Title(), at + 1, stop), RangesFrom(t, true, Toks(Closed, rest), stop, to), x[..n + 1], Cut(rest), at, to);
    }
  }

  lemma EndIs(toks: seq<Tok>, at: nat, eof: nat)
    requires at + |toks| == eof
    ensures EndOf(toks, at, eof) == at + |Body(toks)|
  {
    hide Body;
  }

  lemma SameTitle(line: string, body: seq<Tok>)
    requires IsEntryHead(line)
    ensures Tok(EntryHead, line).Title() == Entry(line, body).Title()
  {
  }

  lemma NothingSpans(t: string, lines: seq<string>, at: nat)
    requires at <= |lines|
    ensures Spans(lines, RangesFrom(t, true, [], at, at), [], at, at)
  {
  }

  // ---------------------------------------------------------------- line sets

  /** The 0-based lines of `rs`, as `addEntryLines` collects them. */
  function LineSet(rs: seq<Range>): set<nat> {
    if rs == [] then {} else RangeSet(rs[0]) + LineSet(rs[1..])
  }

  function RangeSet(r: Range): set<nat> {
    set i: nat | i < r.end && Covers(r, i)
  }

  predicate Covers(r: Range, i: nat) {
    r.start <= i + 1
  }

  lemma LineSetCons(r: Range, rs: seq<Range>)
    ensures LineSet([r] + rs) == RangeSet(r) + LineSet(rs)
  {
    assert ([r] + rs)[1..] == rs;
  }

  method AddEntryLines(entries: seq<Range>, into: set<nat>) returns (r: set<nat>)
    requires forall e | e in entries :: e.start >= 1
    ensures r == into + LineSet(entries)
  {
    r := into;
    assert entries[0..] == entries;
    for n := 0 to |entries|
      invariant r + LineSet(entries[n..]) == into + LineSet(entries)
    {
      assert entries[n..] == [entries[n]] + entries[n + 1..];
      LineSetCons(entries[n], entries[n + 1..]);
      var e := entries[n];
      assert e in entries;
      ghost var before := r;
      var i := e.start - 1;
      while i < e.end
        invariant 0 <= e.start - 1 <= i
        invariant r == before + set j: nat | j < e.end && j < i && Covers(e, j)
      {
        r := r + {i};
        i := i + 1;
      }
      assert r == before + RangeSet(e);
    }
    assert LineSet(entries[|entries|..]) == {};
  }

  /** The lines of `from..to` whose numbers are not in `gone`. */
  function Kept(lines: seq<string>, from: nat, to: nat, gone: set<nat>): seq<string>
    requires from <= to <= |lines|
    decreases |lines| - from
  {
    if from == to then [] else (if from in gone then [] else [lines[from]]) + Kept(lines, from + 1, to, gone)
  }

  method KeepLines(lines: seq<string>, from: nat, to: nat, gone: set<nat>) returns (kept: seq<string>)
    requires from <= to <= |lines|
    ensures kept == Kept(lines, from, to, gone)
  {
    kept := [];
    var i := from;
    while i < to
      invariant from <= i <= to
      invariant kept + Kept(lines, i, to, gone) == Kept(lines, from, to, gone)
    {
      if i !in gone {
        kept := kept + [lines[i]];
      }
      i := i + 1;
    }
  }

  lemma {:induction false} KeptSplit(lines: seq<string>, from: nat, mid: nat, to: nat, gone: set<nat>)
    requires from <= mid <= to <= |lines|
    ensures Kept(lines, from, to, gone) == Kept(lines, from, mid, gone) + Kept(lines, mid, to, gone)
    decreases |lines| - from
  {
    if from < mid {
      KeptSplit(lines, from + 1, mid, to, gone);
    }
  }

  lemma {:induction false} KeptAll(lines: seq<string>, from: nat, to: nat, gone: set<nat>)
    requires from <= to <= |lines| && forall i | from <= i < to :: i !in gone
    ensures Kept(lines, from, to, gone) == lines[from..to]
    decreases |lines| - from
  {
    if from < to {
      KeptAll(lines, from + 1, to, gone);
      assert lines[from..to] == [lines[from]] + lines[from + 1..to];
    }
  }

  lemma {:induction false} KeptNone(lines: seq<string>, from: nat, to: nat, gone: set<nat>)
    requires from <= to <= |lines| && forall i | from <= i < to :: i in gone
    ensures Kept(lines, from, to, gone) == []
    decreases |lines| - from
  {
    if from < to {
      KeptNone(lines, from + 1, to, gone);
    }
  }

  lemma {:induction false} KeptAgree(lines: seq<string>, from: nat, to: nat, a: set<nat>, b: set<nat>)
    requires from <= to <= |lines| && forall i | from <= i < to :: i in a <==> i in b
    ensures Kept(lines, from, to, a) == Kept(lines, from, to, b)
    decreases |lines| - from
  {
    if from < to {
      KeptAgree(lines, from + 1, to, a, b);
    }
  }

  /** Lines of later ranges come later. */
  lemma {:induction false} LinesFollow(lines: seq<string>, rs: seq<Range>, bs: seq<seq<string>>, at: nat, to: nat, marks: seq<Mark>, which: set<Mark>)
    requires Spans(lines, rs, bs, at, to) && |marks| == |rs|
    ensures forall i | i in LineSet(Pick(rs, marks, which)) :: at <= i < to
    ensures forall r | r in Pick(rs, marks, which) :: r.start >= 1
  {
    if rs != [] {
      LinesFollow(lines, rs[1..], bs[1..], rs[0].end, to, marks[1..], which);
      LineSetCons(rs[0], Pick(rs[1..], marks[1..], which));
      assert [] + Pick(rs[1..], marks[1..], which) == Pick(rs[1..], marks[1..], which);
    }
  }

  lemma SpansBounds(lines: seq<string>, rs: seq<Range>, bs: seq<seq<string>>, at: nat, to: nat)
    requires Spans(lines, rs, bs, at, to)
    ensures at <= to <= |lines| && |rs| == |bs|
  {
  }

  /** Dropping the lines of the marked ranges leaves the other blocks. */
  lemma {:induction false} KeptSpans(lines: seq<string>, rs: seq<Range>, bs: seq<seq<string>>, at: nat, to: nat, marks: seq<Mark>, which: set<Mark>)
    requires Spans(lines, rs, bs, at, to) && |marks| == |rs|
    ensures at <= to <= |lines|
    ensures Kept(lines, at, to, LineSet(Pick(rs, marks, which))) == Stack(Pick(bs, marks, ALL - which))
    decreases |rs|
  {
    hide *;
    SpansBounds(lines, rs, bs, at, to);
    if rs == [] {
      NothingKept(lines, rs, bs, at, to, marks, which);
    } else {
      var r, b, m, rs', bs', marks' := rs[0], bs[0], marks[0], rs[1..], bs[1..], marks[1..];
      assert rs == [r] + rs' && bs == [b] + bs' && marks == [m] + marks';
      SpansCons(lines, r, rs', b, bs', at, to);
      SpansBounds(lines, rs', bs', r.end, to);
      KeptSpans(lines, rs', bs', r.end, to, marks', which);
      PickCons(r, rs', m, marks', which);
      PickCons(b, bs', m, marks', ALL - which);
      var later := LineSet(Pick(rs', marks', which));
      var gone := LineSet(Pick(rs, marks, which));
      LinesFollow(lines, rs', bs', r.end, to, marks', which);
      KeptSplit(lines, at, r.end, to, gone);
      assert [] + Pick(rs', marks', which) == Pick(rs', marks', which);
      assert [] + Pick(bs', marks', ALL - which) == Pick(bs', marks', ALL - which);
      LineSetCons(r, Pick(rs', marks', which));
      StackCons(b, Pick(bs', marks', ALL - which));
      RangeSetIs(r);
      MarkIs(m, which);
      KeptAgree(lines, r.end, to, gone, later);
      if m in which {
        KeptNone(lines, at, r.end, gone);
      } else {
        KeptAll(lines, at, r.end, gone);
      }
    }
  }

  lemma MarkIs(m: Mark, which: set<Mark>)
    ensures m in ALL - which <==> m !in which
    ensures m in {Drops} + {Moves} <==> m !in {Unselected, Stays}
  {
  }

  lemma RangeSetIs(r: Range)
    ensures forall i: nat :: i in RangeSet(r) <==> i < r.end && r.start <= i + 1
  {
  }

  lemma NothingKept(lines: seq<string>, rs: seq<Range>, bs: seq<seq<string>>, at: nat, to: nat, marks: seq<Mark>, which: set<Mark>)
    requires Spans(lines, rs, bs, at, to) && |marks| == |rs| == 0
    ensures Kept(lines, at, to, LineSet(Pick(rs, marks, which))) == Stack(Pick(bs, marks, ALL - which))
  {
  }

  /** Two selections' lines together. */
  lemma {:induction false} LineSetUnion(rs: seq<Range>, marks: seq<Mark>, a: set<Mark>, b: set<Mark>)
    requires |rs| == |marks|
    ensures LineSet(Pick(rs, marks, a)) + LineSet(Pick(rs, marks, b)) == LineSet(Pick(rs, marks, a + b))
  {
    if rs != [] {
      LineSetUnion(rs[1..], marks[1..], a, b);
      LineSetCons(rs[0], Pick(rs[1..], marks[1..], a));
      LineSetCons(rs[0], Pick(rs[1..], marks[1..], b));
      LineSetCons(rs[0], Pick(rs[1..], marks[1..], a + b));
      assert [] + Pick(rs[1..], marks[1..], a) == Pick(rs[1..], marks[1..], a);
      assert [] + Pick(rs[1..], marks[1..], b) == Pick(rs[1..], marks[1..], b);
      assert [] + Pick(rs[1..], marks[1..], a + b) == Pick(rs[1..], marks[1..], a + b);
    }
  }

  lemma SpansStart(lines: seq<string>, rs: seq<Range>, bs: seq<seq<string>>, at: nat, to: nat)
    requires Spans(lines, rs, bs, at, to)
    ensures rs != [] ==> rs[0].start == at + 1
  {
  }

  /** The ranges from the `k`th on span the blocks from the `k`th on. */
  lemma {:induction false} SpansFrom(lines: seq<string>, rs: seq<Range>, bs: seq<seq<string>>, at: nat, to: nat, k: nat) returns (mid: nat)
    requires Spans(lines, rs, bs, at, to) && k <= |rs|
    ensures at <= mid <= to && Spans(lines, rs[k..], bs[k..], mid, to)
    ensures (k < |rs| ==> rs[k].start == mid + 1) && (k == 0 ==> mid == at)
    ensures lines[at..mid] == Stack(bs[..k])
    decreases k
  {
    hide *;
    SpansBounds(lines, rs, bs, at, to);
    if k == 0 {
      mid := at;
      assert rs[0..] == rs && bs[0..] == bs && bs[..0] == [];
      NothingCut("");
      SpansStart(lines, rs, bs, at, to);
    } else {
      assert rs == [rs[0]] + rs[1..] && bs == [bs[0]] + bs[1..];
      SpansCons(lines, rs[0], rs[1..], bs[0], bs[1..], at, to);
      mid := SpansFrom(lines, rs[1..], bs[1..], rs[0].end, to, k - 1);
      assert rs[1..][k - 1..] == rs[k..] && bs[1..][k - 1..] == bs[k..];
      assert bs[..k] == [bs[0]] + bs[1..][..k - 1];
      StackCons(bs[0], bs[1..][..k - 1]);
      assert lines[at..mid] == lines[at..rs[0].end] + lines[rs[0].end..mid];
    }
  }

  // ---------------------------------------------------------------- sectionSpan and entriesIn

  /** A section's heading line and the line after its last. */
  datatype Span = NoSpan | Span(heading: nat, end: nat)

  function SpanOf(lines: seq<string>, t: string): (sp: Span)
    ensures sp.Span? ==> sp.heading < sp.end <= |lines|
  {
    var h := FirstSection(t, Toks(Closed, lines));
    if h < |lines| then Span(h, h + 1 + NextSection(Toks(Closed, lines[h + 1..]))) else NoSpan
  }

  /** One walk for both ends, with one tracker. */
  method SectionSpan(lines: seq<string>, t: string) returns (sp: Span)
    ensures sp == SpanOf(lines, t)
  {
    hide Toks, FirstSection, NextSection, KindOf, Inside, Next, Trim;
    var fenced := new FenceTracker();
    var heading := -1;
    assert lines[0..] == lines;
    var i := 0;
    while i < |lines|
      invariant 0 <= i <= |lines|
      invariant heading == -1 ==> FirstSection(t, Toks(Closed, lines)) == i + FirstSection(t, Toks(fenced.fence, lines[i..]))
      invariant heading != -1 ==> 0 <= heading < i && heading == FirstSection(t, Toks(Closed, lines))
      invariant heading != -1 ==> heading + 1 + NextSection(Toks(Closed, lines[heading + 1..])) == i + NextSection(Toks(fenced.fence, lines[i..]))
    {
      SectionStep(t, fenced.fence, lines, i);
      var found := fenced.HeadingTitle(lines[i], "## ");
      if found.Titled? {
        if heading >= 0 {
          return Span(heading, i);
        }
        if found.title == t {
          heading := i;
        }
      }
      i := i + 1;
    }
    assert lines[i..] == [];
    NoSection(t, fenced.fence);
    return if heading >= 0 then Span(heading, |lines|) else NoSpan;
  }

  /** Where the section's entries end: a trailing newline's last line belongs to none. */
  function Stop(lines: seq<string>, sp: Span): nat
    requires sp.Span? && sp.end <= |lines|
  {
    if sp.end == |lines| then LastLine(lines) else sp.end
  }

  /** The section's lines, without the one a trailing newline splits off. */
  function ContentOf(lines: seq<string>, sp: Span): seq<string>
    requires sp.Span? && sp.heading < sp.end <= |lines|
  {
    if Stop(lines, sp) <= sp.heading then [] else lines[sp.heading + 1..Stop(lines, sp)]
  }

  function FilterIn(rs: seq<Range>, sp: Span): seq<Range>
    requires sp.Span?
  {
    if rs == [] then []
    else (if rs[0].start > sp.heading + 1 && rs[0].start <= sp.end then [rs[0]] else []) + FilterIn(rs[1..], sp)
  }

  lemma {:induction false} FilterInConcat(a: seq<Range>, b: seq<Range>, sp: Span)
    requires sp.Span?
    requires forall r | r in a :: sp.heading + 1 < r.start <= sp.end
    requires forall r | r in b :: r.start > sp.end
    ensures FilterIn(a + b, sp) == a
  {
    if a == [] {
      assert a + b == b;
      FilterOut(b, sp);
    } else {
      assert (a + b)[1..] == a[1..] + b && a[0] in a;
      assert forall r | r in a[1..] :: r in a;
      FilterInConcat(a[1..], b, sp);
    }
  }

  lemma {:induction false} FilterOut(b: seq<Range>, sp: Span)
    requires sp.Span? && forall r | r in b :: r.start > sp.end
    ensures FilterIn(b, sp) == []
  {
    if b != [] {
      assert b[0] in b && forall r | r in b[1..] :: r in b;
      FilterOut(b[1..], sp);
    }
  }

  lemma {:induction false} RangesBounds(t: string, inside: bool, toks: seq<Tok>, at: nat, eof: nat)
    ensures forall r | r in RangesFrom(t, inside, toks, at, eof) :: at < r.start <= at + |toks|
    decreases |toks|
  {
    if toks != [] {
      RangesBounds(t, if toks[0].kind == SectionHead then toks[0].Title() == t else inside, toks[1..], at + 1, eof);
    }
  }

  lemma RangesTail(t: string, k: Tok, rest: seq<Tok>, at: nat, eof: nat)
    requires k.kind != SectionHead
    ensures RangesFrom(t, true, [k] + rest, at, eof)
         == (if k.kind == EntryHead then [Range(k.Title(), at + 1, EndOf(rest, at + 1, eof))] else []) + RangesFrom(t, true, rest, at + 1, eof)
  {
    assert ([k] + rest)[1..] == rest;
  }

  lemma RangesAtHead(t: string, after: seq<Tok>, at: nat, eof: nat)
    requires after != [] && after[0].kind == SectionHead
    ensures RangesFrom(t, true, after, at, eof) == RangesFrom(t, true, [], at, at) + RangesFrom(t, false, after, at, eof)
  {
  }

  lemma RangesOfPad(t: string, k: Tok, at: nat)
    requires !k.IsHead()
    ensures RangesFrom(t, true, [k] + [], at, at) == RangesFrom(t, true, [], at, at)
  {
    assert ([k] + [])[1..] == [];
  }

  lemma NoSectionsCons(k: Tok, rest: seq<Tok>)
    ensures NoSections([k] + rest) <==> k.kind != SectionHead && NoSections(rest)
  {
    assert k in [k] + rest && forall x | x in rest :: x in [k] + rest;
  }

  /** A section's ranges do not depend on what follows the next section heading. */
  lemma {:induction false} RangesMeet(t: string, mid: seq<Tok>, after: seq<Tok>, at: nat, eof: nat)
    requires NoSections(mid) && after != [] && after[0].kind == SectionHead
    ensures RangesFrom(t, true, mid + after, at, eof) == RangesFrom(t, true, mid, at, at + |mid|) + RangesFrom(t, false, after, at + |mid|, eof)
    decreases |mid|
  {
    hide *;
    if mid == [] {
      assert mid + after == after;
      RangesAtHead(t, after, at, eof);
    } else {
      var k, rest := mid[0], mid[1..];
      assert mid == [k] + rest && mid + after == [k] + (rest + after);
      NoSectionsCons(k, rest);
      RangesMeet(t, rest, after, at + 1, eof);
      RangesTail(t, k, rest, at, at + |mid|);
      RangesTail(t, k, rest + after, at, eof);
      EndMeets(rest, after, at + 1, eof);
    }
  }

  lemma EndMeets(rest: seq<Tok>, after: seq<Tok>, at: nat, eof: nat)
    requires after != [] && after[0].kind == SectionHead
    ensures EndOf(rest + after, at, eof) == EndOf(rest, at, at + |rest|)
  {
    hide Body;
    BodyAcross(rest, after);
    BodyShort(rest);
  }

  lemma BodyShort(rest: seq<Tok>)
    ensures |Body(rest)| <= |rest|
  {
  }

  /** The last line of a file that ends in a newline is no entry's. */
  lemma {:induction false} RangesPad(t: string, a: seq<Tok>, k: Tok, at: nat)
    requires NoSections(a) && !k.IsHead()
    ensures RangesFrom(t, true, a + [k], at, at + |a|) == RangesFrom(t, true, a, at, at + |a|)
    decreases |a|
  {
    hide *;
    if a == [] {
      assert a + [k] == [k] + a;
      RangesOfPad(t, k, at);
    } else {
      var x, rest := a[0], a[1..];
      assert a == [x] + rest && a + [k] == [x] + (rest + [k]);
      NoSectionsCons(x, rest);
      RangesPad(t, rest, k, at + 1);
      RangesTail(t, x, rest, at, at + |a|);
      RangesTail(t, x, rest + [k], at, at + |a|);
      EndPads(rest, k, at + 1);
    }
  }

  lemma EndPads(rest: seq<Tok>, k: Tok, at: nat)
    requires !k.IsHead()
    ensures EndOf(rest + [k], at, at + |rest|) == EndOf(rest, at, at + |rest|)
  {
    hide Body;
    if NoHeads(rest) {
      BodyNoHeads(rest);
      BodyNoHeads(rest + [k]);
    } else {
      BodyStopsInside(rest, [k]);
      SomeHead(rest);
    }
  }

  lemma SomeHead(rest: seq<Tok>)
    requires !NoHeads(rest)
    ensures |Body(rest)| < |rest|
  {
    assert |Body(rest)| == |rest| ==> Body(rest) == rest;
  }

  /** What the archive code works on: the first section's ranges span its blocks. */
  lemma EntriesInSpan(lines: seq<string>, t: string)
    requires SpanOf(lines, t).Span?
    ensures var sp := SpanOf(lines, t);
      var content := ContentOf(lines, sp);
      && sp.heading < Stop(lines, sp) <= sp.end <= |lines|
      && content == lines[sp.heading + 1..Stop(lines, sp)]
      && (lines[Stop(lines, sp)..sp.end] == [] || lines[Stop(lines, sp)..sp.end] == [""])
      && NoSections(Toks(Closed, content))
      && Spans(lines, FilterIn(Ranges(t, lines), sp), BlocksOf(content), sp.heading + 1 + |Lead(content)|, Stop(lines, sp))
  {
    hide *;
    var sp := SpanOf(lines, t);
    SpanIs(lines, t);
    SectionParts(t, lines);
    var h, end := sp.heading, sp.end;
    var before, head, mid, after := lines[..h], lines[h], lines[h + 1..end], lines[end..];
    WholeIs(before, head, mid, after);
    WholeToks(t, before, head, mid, after);
    PartsAre(t, before, head, mid, after);
    VisibleHead(head);
    StopIs(lines, sp);
    var stop := Stop(lines, sp);
    var content, q := lines[h + 1..stop], lines[stop..end];
    assert mid == content + q;
    ToksConcat(Closed, content, q);
    NoSectionsSuffix(Toks(Closed, content), Toks(After(Closed, content), q));
    var toks := Toks(Closed, before) + [Tok(SectionHead, head)] + Toks(Closed, mid) + Toks(Closed, after);
    LengthOf(before);
    LengthOf(mid);
    LengthOf(after);
    LengthOf(content);
    RangesAre(t, lines);
    FirstRanges(t, Toks(Closed, before), Tok(SectionHead, head), Toks(Closed, mid), Toks(Closed, after), sp, LastLine(lines));
    if stop < end {
      BlankTok(After(Closed, content));
      RangesPad(t, Toks(Closed, content), Tok(KindOf(After(Closed, content), ""), ""), h + 1);
    } else {
      assert mid == content;
    }
    LeadRanges(t, lines, h + 1, stop);
  }

  lemma SpanIs(lines: seq<string>, t: string)
    requires SpanOf(lines, t).Span?
    ensures var sp := SpanOf(lines, t);
      && sp.heading == FirstSection(t, Toks(Closed, lines)) < |lines|
      && sp.end == sp.heading + 1 + NextSection(Toks(Closed, lines[sp.heading + 1..])) <= |lines|
  {
    hide Toks, FirstSection, NextSection;
  }

  lemma PartsAre(t: string, before: seq<string>, head: string, content: seq<string>, after: seq<string>)
    requires Parts(t, before, head, content, after)
    ensures SectionCount(t, Toks(Closed, before)) == 0 && IsSection(t, Tok(SectionHead, head)) && NoSections(Toks(Closed, content))
    ensures KindOf(Closed, head) == SectionHead && Next(Closed, head) == Closed && After(Closed, before) == Closed
    ensures after != [] ==> After(Closed, content) == Closed && Toks(Closed, after) != [] && Toks(Closed, after)[0].kind == SectionHead
    ensures after == [] ==> Toks(Closed, after) == []
  {
    hide Toks, SectionCount, NoSections;
    LengthOf(after);
  }

  lemma VisibleHead(head: string)
    requires KindOf(Closed, head) == SectionHead
    ensures head != ""
  {
  }

  lemma StopIs(lines: seq<string>, sp: Span)
    requires sp.Span? && sp.heading < sp.end <= |lines| && lines[sp.heading] != ""
    ensures sp.heading < Stop(lines, sp) <= sp.end
    ensures ContentOf(lines, sp) == lines[sp.heading + 1..Stop(lines, sp)]
    ensures lines[Stop(lines, sp)..sp.end] == [] || (sp.end == |lines| && lines[Stop(lines, sp)..sp.end] == [""])
    ensures sp.end == |lines| ==> LastLine(lines) == Stop(lines, sp)
    ensures sp.end < |lines| ==> Stop(lines, sp) == sp.end
  {
  }

  lemma BlankTok(f: Fence)
    ensures Toks(f, [""]) == [Tok(KindOf(f, ""), "")] && !Tok(KindOf(f, ""), "").IsHead()
  {
    OneTok(f, "");
  }

  lemma RangesAre(t: string, lines: seq<string>)
    ensures Ranges(t, lines) == RangesFrom(t, false, Toks(Closed, lines), 0, LastLine(lines))
  {
  }

  lemma FirstRanges(t: string, before: seq<Tok>, head: Tok, mid: seq<Tok>, after: seq<Tok>, sp: Span, eof: nat)
    requires SectionCount(t, before) == 0 && IsSection(t, head) && NoSections(mid)
    requires after != [] ==> after[0].kind == SectionHead
    requires sp == Span(|before|, |before| + 1 + |mid|)
    ensures FilterIn(RangesFrom(t, false, before + [head] + mid + after, 0, eof), sp)
         == RangesFrom(t, true, mid, |before| + 1, if after == [] then eof else sp.end)
  {
    hide *;
    assert before + [head] + mid + after == before + ([head] + (mid + after));
    RangesToSection(t, before, [head] + (mid + after), 0, eof);
    RangesAtSection(t, head, mid + after, |before|, eof);
    if after == [] {
      assert mid + after == mid;
      OwnRanges(RangesFrom(t, true, mid, |before| + 1, eof), [], t, mid, after, |before| + 1, eof, eof, sp);
    } else {
      RangesMeet(t, mid, after, |before| + 1, eof);
      OwnRanges(RangesFrom(t, true, mid, |before| + 1, sp.end), RangesFrom(t, false, after, sp.end, eof), t, mid, after, |before| + 1, sp.end, eof, sp);
    }
  }

  lemma OwnRanges(own: seq<Range>, later: seq<Range>, t: string, mid: seq<Tok>, after: seq<Tok>, at: nat, stop: nat, eof: nat, sp: Span)
    requires sp.Span? && sp.heading + 1 == at && sp.end == at + |mid|
    requires own == RangesFrom(t, true, mid, at, stop) && (later == [] || later == RangesFrom(t, false, after, sp.end, eof))
    ensures FilterIn(own + later, sp) == own
    ensures own + [] == own
  {
    hide *;
    RangesBounds(t, true, mid, at, stop);
    RangesBounds(t, false, after, sp.end, eof);
    FilterInConcat(own, later, sp);
  }

  lemma {:induction false} RangesToSection(t: string, a: seq<Tok>, b: seq<Tok>, at: nat, eof: nat)
    requires SectionCount(t, a) == 0
    ensures RangesFrom(t, false, a + b, at, eof) == RangesFrom(t, false, b, at + |a|, eof)
  {
    if a == [] {
      assert a + b == b;
    } else {
      assert (a + b)[1..] == a[1..] + b;
      RangesToSection(t, a[1..], b, at + 1, eof);
    }
  }

  lemma RangesAtSection(t: string, head: Tok, rest: seq<Tok>, at: nat, eof: nat)
    requires IsSection(t, head)
    ensures RangesFrom(t, false, [head] + rest, at, eof) == RangesFrom(t, true, rest, at + 1, eof)
  {
    assert ([head] + rest)[1..] == rest;
  }

  lemma LeadRanges(t: string, lines: seq<string>, from: nat, stop: nat)
    requires from <= stop <= |lines| && NoSections(Toks(Closed, lines[from..stop]))
    ensures var content := lines[from..stop];
      Spans(lines, RangesFrom(t, true, Toks(Closed, content), from, stop), BlocksOf(content), from + |Lead(content)|, stop)
  {
    hide *;
    var content := lines[from..stop];
    ContentBlocks(t, content);
    var lead := Lead(content);
    LengthOf(lead);
    var rest := content[|lead|..];
    assert rest == lines[from + |lead|..stop];
    NoHeadsMeans(Toks(Closed, lead));
    RangesSkip(t, true, Toks(Closed, lead), Toks(Closed, rest), from, stop);
    CutSpans(t, lines, from + |lead|, stop);
  }
}
