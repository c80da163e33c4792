/** What an archive run does to the lines above a section's first entry: they stay where they are, with
    the kept entries or the swept section, and a bulk run that keeps no entry takes them along, all but
    the placeholders, of which one stays for an emptied section (src/backlog/backlog-archive.ts). */
module ArchiveProse {
  import opened Text
  import opened Fences
  import opened Documents
  import opened SectionReaders
  import opened Sections
  import opened Contents
  import opened Blocks
  import opened BlockRanges
  import opened Archive
  import opened ArchiveReads

  /** The lines between the heading of `## t` and its first entry. */
  function Above(t: string, lines: seq<string>): seq<string> {
    LinesOf(FirstProse(t, Toks(Closed, lines)))
  }

  /** The same without blank edges. */
  function Prose(t: string, lines: seq<string>): seq<string> {
    TrimBlank(Above(t, lines))
  }

  // ---------------------------------------------------------------- blank edges

  lemma {:induction false} LeadingDrops(a: seq<string>, b: seq<string>)
    requires b == [] || !Blank(b[0])
    ensures DropLeading(a + b) == DropLeading(a) + b
  {
    hide *;
    if a == [] {
      assert a + b == b;
      LeadingStep(a);
      LeadingStep(b);
      assert [] + b == b;
    } else {
      assert (a + b)[1..] == a[1..] + b && (a + b)[0] == a[0];
      LeadingStep(a);
      LeadingStep(a + b);
      if Blank(a[0]) {
        LeadingDrops(a[1..], b);
      }
    }
  }

  lemma LeadingStep(x: seq<string>)
    ensures DropLeading(x) == if x != [] && Blank(x[0]) then DropLeading(x[1..]) else x
  {
    hide Blank;
  }

  lemma {:induction false} BlanksDrop(p: seq<string>, x: seq<string>)
    requires forall l | l in p :: Blank(l)
    ensures DropLeading(p + x) == DropLeading(x)
  {
    hide Blank;
    if p == [] {
      assert p + x == x;
    } else {
      assert p[0] in p && (p + x)[1..] == p[1..] + x && forall l | l in p[1..] :: l in p;
      BlanksDrop(p[1..], x);
    }
  }

  lemma {:induction false} TrailingPad(x: seq<string>, q: seq<string>)
    requires forall l | l in q :: Blank(l)
    ensures DropTrailing(x + q) == DropTrailing(x)
    decreases |q|
  {
    hide *;
    if q == [] {
      assert x + q == x;
    } else {
      var n := |q| - 1;
      TrailingStep(x + q);
      assert q[n] in q && (x + q)[..|x| + n] == x + q[..n] && (x + q)[|x| + n] == q[n] && forall l | l in q[..n] :: l in q;
      TrailingPad(x, q[..n]);
    }
  }

  /** Blank lines around lines are trimmed off. */
  lemma PadTrims(p: seq<string>, x: seq<string>, q: seq<string>)
    requires (forall l | l in p :: Blank(l)) && (forall l | l in q :: Blank(l))
    ensures TrimBlank(p + x + q) == TrimBlank(x)
  {
    hide *;
    TrimBlankSplit(p + x + q);
    TrimBlankSplit(x);
    assert p + x + q == p + (x + q);
    BlanksDrop(p, x + q);
    var y := DropLeading(x);
    DropLeadingBlanks(x);
    if y == [] {
      assert x[|x| - |y|..] == [] && x[..|x|] == x;
      BlanksDrop(x, q);
      BlankDrops(q);
    } else {
      var b := x[..|x| - |y|];
      assert x + q == b + (y + q);
      BlanksDrop(b, y + q);
      assert (y + q)[0] == y[0];
      NothingDrops(y + q);
      TrailingPad(y, q);
    }
  }

  lemma NothingDrops(y: seq<string>)
    requires y != [] && !Blank(y[0])
    ensures DropLeading(y) == y
  {
  }

  /** What a trimmed text is cut from. */
  lemma TrimmedFrom(x: seq<string>) returns (p: seq<string>, q: seq<string>)
    ensures x == p + TrimBlank(x) + q && (forall l | l in p :: Blank(l)) && (forall l | l in q :: Blank(l))
  {
    hide *;
    TrimBlankSplit(x);
    DropLeadingBlanks(x);
    var y := DropLeading(x);
    DropTrailingBlanks(y);
    p, q := x[..|x| - |y|], y[|TrimBlank(x)|..];
  }

  // ---------------------------------------------------------------- lines above entries

  /** Lines without a heading that leave no fence open. */
  ghost predicate IsProse(x: seq<string>) {
    NoHeads(Toks(Closed, x)) && After(Closed, x) == Closed
  }

  /** Lines that start at a heading, or none. */
  ghost predicate Headed(x: seq<string>) {
    StartsAtHead(Toks(Closed, x))
  }

  lemma HeadedIs(x: seq<string>)
    ensures Headed(x) <==> x == [] || KindOf(Closed, x[0]) in {SectionHead, EntryHead}
    ensures Headed(x) && x != [] ==> !Blank(x[0])
  {
    hide Blank, Next;
    if x != [] && KindOf(Closed, x[0]) in {SectionHead, EntryHead} {
      HeadLineShows(x[0]);
    }
  }

  lemma HeadLineShows(line: string)
    requires KindOf(Closed, line) in {SectionHead, EntryHead}
    ensures !Blank(line)
  {
    TrimFirst(line, 0);
  }

  /** Blank lines around prose. */
  lemma PaddedProse(p: seq<string>, x: seq<string>, q: seq<string>)
    requires (forall l | l in p :: Blank(l)) && (forall l | l in q :: Blank(l))
    ensures IsProse(p + x + q) <==> IsProse(x)
  {
    hide Toks, After, Blank;
    PadsAround(p, x, q);
    var tp, tx, tq := Toks(Closed, p), Toks(Closed, x), Toks(After(Closed, x), q);
    assert forall k :: k in tp + tx + tq <==> k in tp || k in tx || k in tq;
  }

  /** A section's content that is prose and then entries shows that prose above them. */
  lemma ProseAbove(lead: seq<string>, rest: seq<string>)
    requires IsProse(lead) && Headed(rest)
    ensures TrimBlank(LinesOf(Body(Toks(Closed, Padded(lead + rest))))) == TrimBlank(lead)
  {
    hide *;
    var p := PaddedParts(lead + rest);
    PadsOnly(p);
    PadsOnly([""]);
    PadsOnly([]);
    ProseIs(lead);
    if rest == [] {
      assert lead + rest == lead && Padded(lead + rest) == p + lead + [""];
      var x := p + lead + [""];
      assert x + [] == x;
      PaddedProse(p, lead, [""]);
      HeadedIs([]);
      BodyOf(x, []);
      PadTrims(p, lead, [""]);
    } else {
      var x, tail := p + lead, rest + [""];
      assert x + [] == x && Padded(lead + rest) == x + tail;
      PaddedProse(p, lead, []);
      ProseIs(x);
      HeadedIs(rest);
      HeadedIs(tail);
      assert tail[0] == rest[0];
      BodyOf(x, tail);
      PadTrims(p, lead, []);
    }
  }

  lemma ProseIs(x: seq<string>)
    ensures IsProse(x) <==> NoHeads(Toks(Closed, x)) && After(Closed, x) == Closed
  {
  }

  lemma BodyOf(x: seq<string>, tail: seq<string>)
    requires IsProse(x) && Headed(tail)
    ensures LinesOf(Body(Toks(Closed, x + tail))) == x
  {
    hide Toks, After, Body, NoHeads, StartsAtHead, LinesOf;
    ToksConcat(Closed, x, tail);
    BodyPrefix(Toks(Closed, x), Toks(Closed, tail));
    NoBody(Toks(Closed, tail));
    assert Toks(Closed, x) + [] == Toks(Closed, x);
    LinesOfToks(Closed, x);
  }

  lemma NoBody(toks: seq<Tok>)
    requires StartsAtHead(toks)
    ensures Body(toks) == []
  {
  }

  /** Prose and entries, trimmed as one. */
  lemma TrimmedParts(lead: seq<string>, rest: seq<string>) returns (x: seq<string>, y: seq<string>)
    requires IsProse(lead) && Headed(rest)
    ensures TrimBlank(lead + rest) == x + y && IsProse(x) && Headed(y) && (y == [] <==> rest == [])
    ensures TrimBlank(x) == TrimBlank(lead)
  {
    hide *;
    if rest == [] {
      x, y := TrimBlank(lead), [];
      var p, q := TrimmedFrom(lead);
      PaddedProse(p, x, q);
      PadTrims(p, x, q);
      HeadedIs([]);
      assert lead + rest == lead && x + y == x;
    } else {
      HeadedIs(rest);
      TrimBlankSplit(lead + rest);
      LeadingDrops(lead, rest);
      x, y := DropLeading(lead), DropTrailing(rest);
      TrailingDrops(x, rest);
      HeadedIs(y);
      LeadingProse(lead);
    }
  }

  lemma LeadingProse(lead: seq<string>)
    requires IsProse(lead)
    ensures IsProse(DropLeading(lead)) && TrimBlank(DropLeading(lead)) == TrimBlank(lead)
  {
    hide *;
    var x := DropLeading(lead);
    DropLeadingBlanks(lead);
    var p := lead[..|lead| - |x|];
    assert p + x + [] == lead;
    PadsOnly([]);
    PaddedProse(p, x, []);
    PadTrims(p, x, []);
  }

  lemma {:induction false} TrailingDrops(a: seq<string>, b: seq<string>)
    requires b != [] && !Blank(b[0])
    ensures DropTrailing(a + b) == a + DropTrailing(b) && DropTrailing(b) != [] && DropTrailing(b)[0] == b[0]
    decreases |b|
  {
    hide *;
    TrailingStep(b);
    TrailingStep(a + b);
    var n := |b| - 1;
    assert (a + b)[..|a| + n] == a + b[..n] && (a + b)[|a| + n] == b[n];
    if Blank(b[n]) {
      assert n > 0;
      TrailingDrops(a, b[..n]);
    }
  }

  // ---------------------------------------------------------------- the two splits

  /** Prose and then entries, the prose being `above` up to its blank edges. */
  ghost predicate Parted(lines: seq<string>, above: seq<string>) {
    exists x, y :: lines == x + y && IsProse(x) && Headed(y) && TrimBlank(x) == TrimBlank(above)
  }

  lemma PartedBy(x: seq<string>, y: seq<string>, above: seq<string>)
    requires IsProse(x) && Headed(y) && TrimBlank(x) == TrimBlank(above)
    ensures Parted(x + y, above)
  {
    hide IsProse, Headed, TrimBlank;
  }

  lemma PartsOf(lines: seq<string>, above: seq<string>) returns (x: seq<string>, y: seq<string>)
    requires Parted(lines, above)
    ensures lines == x + y && IsProse(x) && Headed(y) && TrimBlank(x) == TrimBlank(above)
  {
    hide IsProse, Headed, TrimBlank;
    x, y :| lines == x + y && IsProse(x) && Headed(y) && TrimBlank(x) == TrimBlank(above);
  }

  lemma NoProse()
    ensures IsProse([]) && Headed([]) && TrimBlank([]) == []
  {
  }

  /** Lines that start at an entry have nothing above it. */
  lemma HeadedParted(lines: seq<string>)
    requires Headed(lines)
    ensures Parted(lines, [])
  {
    hide *;
    NoProse();
    PartedBy([], lines, []);
    assert [] + lines == lines;
  }

  lemma TrimmedParted(lead: seq<string>, rest: seq<string>)
    requires IsProse(lead) && Headed(rest)
    ensures Parted(TrimBlank(lead + rest), lead)
  {
    hide *;
    var x, y := TrimmedParts(lead, rest);
    PartedBy(x, y, lead);
  }

  lemma MoreHeaded(y: seq<string>, more: seq<string>)
    requires Headed(y) && y != []
    ensures Headed(y + more)
  {
    hide *;
    HeadedIs(y);
    HeadedIs(y + more);
    assert (y + more)[0] == y[0];
  }

  /** Entries put behind a parted text. */
  lemma ApartParted(lines: seq<string>, rest: seq<string>, above: seq<string>)
    requires Parted(lines, above) && Headed(rest)
    ensures Parted(Apart(lines, rest), above)
  {
    hide *;
    ApartIs(lines, rest, []);
    var x, y := PartsOf(lines, above);
    PadsOnly([""]);
    PadsOnly([]);
    NoProse();
    if lines == [] {
      assert x == [] && [] + rest == rest && lines + rest == rest;
      PartedBy([], rest, above);
    } else if rest == [] {
      assert lines + rest == lines;
    } else if y == [] {
      assert [] + x + [""] == x + [""] && x + y == x && lines + [""] + rest == x + [""] + rest;
      PaddedProse([], x, [""]);
      PadTrims([], x, [""]);
      PartedBy(x + [""], rest, above);
    } else {
      MoreHeaded(y, [""] + rest);
      PartedBy(x, y + ([""] + rest), above);
      assert lines + [""] + rest == x + (y + ([""] + rest));
    }
  }

  lemma BlocksHeaded(t: string, bs: seq<seq<string>>)
    requires SoundBlocks(bs)
    ensures Headed(Stack(bs)) && Headed(Spread(bs)) && (bs != [] ==> Stack(bs) != [] && Spread(bs) != [])
  {
    hide *;
    StackReads(t, bs);
    SpreadReads(t, bs);
    HeadedToks(Stack(bs));
    HeadedToks(Spread(bs));
    if bs != [] {
      assert bs == [bs[0]] + bs[1..];
      StackCons(bs[0], bs[1..]);
      SoundCons(bs[0], bs[1..]);
      SoundIs(bs[0]);
    }
  }

  lemma HeadedToks(x: seq<string>)
    ensures Headed(x) <==> StartsAtHead(Toks(Closed, x))
  {
  }

  lemma FreshProse(t: string, content: seq<string>, marks: seq<Mark>, archived: bool)
    requires NoSections(Toks(Closed, content)) && After(Closed, content) == Closed && SoundBlocks(BlocksOf(content))
    requires |marks| == |BlocksOf(content)| && FreshSplit(content, marks, archived).SplitInto?
    ensures Parted(FreshSplit(content, marks, archived).kept, Lead(content)) && Parted(FreshSplit(content, marks, archived).moved, [])
  {
    hide *;
    FreshSplitIs(content, marks, archived);
    ContentBlocks(t, content);
    ProseIs(Lead(content));
    var bs := BlocksOf(content);
    PickSound(bs, marks, {Unselected, Stays});
    PickSound(bs, marks, {Moves});
    BlocksHeaded(t, Pick(bs, marks, {Unselected, Stays}));
    BlocksHeaded(t, Pick(bs, marks, {Moves}));
    TrimmedParted(Lead(content), Stack(Pick(bs, marks, {Unselected, Stays})));
    HeadedParted(Spread(Pick(bs, marks, {Moves})));
  }

  lemma KeepSomeProse(t: string, content: seq<string>, marks: seq<Mark>, n: nat)
    requires NoSections(Toks(Closed, content)) && After(Closed, content) == Closed && SoundBlocks(BlocksOf(content))
    requires |marks| == |BlocksOf(content)| && n > 0 && KeepSplit(content, marks, n).SplitInto?
    ensures Parted(KeepSplit(content, marks, n).kept, Lead(content)) && Parted(KeepSplit(content, marks, n).moved, [])
  {
    hide *;
    KeepSplitIs(content, marks, n);
    ContentBlocks(t, content);
    ProseIs(Lead(content));
    var bs := BlocksOf(content);
    PickSound(bs, marks, {Stays});
    SoundPrefix(bs, n);
    BlocksHeaded(t, Pick(bs, marks, {Stays}));
    BlocksHeaded(t, bs[..n]);
    FrontIs(content, n);
    var x, y := TrimmedParts(Lead(content), Stack(bs[..n]));
    PartedBy(x, y, Lead(content));
    var front, stays, tail := Front(content, n), Spread(Pick(bs, marks, {Stays})), Tail(content, marks, n);
    assert y != [] && front != [];
    ApartParted(front, stays, Lead(content));
    ApartIs(front, stays, []);
    OrPlaceholderIs(Apart(front, stays), tail, tail);
    MovedProse(t, content, marks, n);
    NoProse();
  }

  /** What moves: with the prose only when no entry is kept. */
  lemma MovedProse(t: string, content: seq<string>, marks: seq<Mark>, n: int)
    requires NoSections(Toks(Closed, content)) && After(Closed, content) == Closed && SoundBlocks(BlocksOf(content))
    requires |marks| == |BlocksOf(content)|
    ensures Parted(TrimBlank(NoPlaceholders(Tail(content, marks, n))), if n <= 0 then NoPlaceholders(Lead(content)) else [])
  {
    hide *;
    ContentBlocks(t, content);
    var bs := BlocksOf(content);
    PickSound(bs, marks, {Moves});
    BlocksHeaded(t, Pick(bs, marks, {Moves}));
    TailIs(content, marks, n);
    var lead, stack := if n <= 0 then Lead(content) else [], Stack(Pick(bs, marks, {Moves}));
    NoProse();
    ProseIs(Lead(content));
    FilteredProse(lead);
    FilteredHeaded(stack);
    FilteredConcat(lead, stack);
    TrimmedParted(NoPlaceholders(lead), NoPlaceholders(stack));
    NothingFiltered();
  }

  lemma NothingFiltered()
    ensures NoPlaceholders([]) == []
  {
  }

  lemma FilteredProse(x: seq<string>)
    requires IsProse(x)
    ensures IsProse(NoPlaceholders(x))
  {
    hide *;
    ProseIs(x);
    NoPlaceholdersToks(Closed, x);
    WithoutHeads(Toks(Closed, x));
    ProseIs(NoPlaceholders(x));
  }

  lemma WithoutHeads(toks: seq<Tok>)
    requires NoHeads(toks)
    ensures NoHeads(Without(toks, true))
  {
    WithoutKeeps(toks, true);
  }

  lemma FilteredHeaded(x: seq<string>)
    requires Headed(x)
    ensures Headed(NoPlaceholders(x))
  {
    hide *;
    HeadedIs(x);
    if x == [] {
      NothingFiltered();
    } else {
      assert x == [x[0]] + x[1..];
      NoPlaceholdersCons(x[0], x[1..]);
      if IsPlaceholder(x[0]) {
        PlaceholderIsInert(Closed, x[0]);
      }
      HeadedIs(NoPlaceholders(x));
    }
  }

  lemma {:induction false} FilteredConcat(a: seq<string>, b: seq<string>)
    ensures NoPlaceholders(a + b) == NoPlaceholders(a) + NoPlaceholders(b)
  {
    hide IsPlaceholder;
    if a == [] {
      assert a + b == b;
    } else {
      assert (a + b)[1..] == a[1..] + b;
      FilteredConcat(a[1..], b);
    }
  }

  lemma KeepNoneProse(t: string, content: seq<string>, marks: seq<Mark>, n: int)
    requires NoSections(Toks(Closed, content)) && After(Closed, content) == Closed && SoundBlocks(BlocksOf(content))
    requires |marks| == |BlocksOf(content)| && n <= 0 && KeepSplit(content, marks, n).SplitInto?
    ensures Parted(KeepSplit(content, marks, n).moved, NoPlaceholders(Lead(content)))
    ensures var stays := Pick(BlocksOf(content), marks, {Stays});
      Parted(KeepSplit(content, marks, n).kept, if stays == [] then FirstPlaceholder(Tail(content, marks, n)) else [])
  {
    hide *;
    KeepSplitIs(content, marks, n);
    MovedProse(t, content, marks, n);
    var bs, tail := BlocksOf(content), Tail(content, marks, n);
    PickSound(bs, marks, {Stays});
    BlocksHeaded(t, Pick(bs, marks, {Stays}));
    FrontIs(content, n);
    var stays := Spread(Pick(bs, marks, {Stays}));
    ApartIs([], stays, []);
    assert [] + stays == stays;
    OrPlaceholderIs(stays, tail, tail);
    if Pick(bs, marks, {Stays}) == [] {
      SpreadCons([], []);
      PlaceholderProse(tail);
    } else {
      HeadedParted(stays);
    }
  }

  lemma PlaceholderProse(tail: seq<string>)
    ensures Parted(FirstPlaceholder(tail), FirstPlaceholder(tail))
  {
    hide *;
    FirstPlaceholderIs(tail);
    var y := FirstPlaceholder(tail);
    NoProse();
    if y != [] {
      assert y == [y[0]];
      PlaceholderIsInert(Closed, y[0]);
      OneTok(Closed, y[0]);
      PlainLine(y[0]);
      ProseIs(y);
    }
    PartedBy(y, [], y);
    assert y + [] == y;
  }

  // ---------------------------------------------------------------- the documents

  /** The lines above the entries, from the section's content. */
  lemma LeadAbove(lines: seq<string>, t: string) returns (q: seq<string>)
    requires ArchiveReads.Closing(lines, t)
    ensures SpanOf(lines, t).Span? && SpanOf(lines, t).heading < SpanOf(lines, t).end <= |lines|
    ensures var lead := Lead(ContentOf(lines, SpanOf(lines, t)));
      IsProse(lead) && Above(t, lines) == lead + q && (q == [] || q == [""]) && Prose(t, lines) == TrimBlank(lead)
  {
    hide *;
    ClosingIs(lines, t);
    AboveIs(t, lines);
    ProseOf(lines, t);
    SectionReads(lines, t);
    EntriesInSpan(lines, t);
    var sp := SpanOf(lines, t);
    var content, pad := ContentOf(lines, sp), lines[Stop(lines, sp)..sp.end];
    ContentBlocks(t, content);
    var lead, rest := Lead(content), content[|Lead(content)|..];
    LeadPrefix(content);
    ProseIs(lead);
    PadsOnly(pad);
    PadsOnly([]);
    HeadedToks(rest);
    if rest == [] {
      q := pad;
      HeadedIs([]);
      PaddedProse([], lead, pad);
      assert [] + lead + pad == lead + pad && lines[sp.heading + 1..sp.end] == lead + pad + [];
      BodyOf(lead + pad, []);
    } else {
      q := [];
      MoreHeaded(rest, pad);
      assert lines[sp.heading + 1..sp.end] == lead + (rest + pad) && lead + q == lead;
      BodyOf(lead, rest + pad);
    }
    PadsOnly(q);
    assert [] + lead + q == lead + q;
    PadTrims([], lead, q);
  }

  lemma AboveIs(t: string, lines: seq<string>)
    ensures Above(t, lines) == LinesOf(FirstProse(t, Toks(Closed, lines))) && Prose(t, lines) == TrimBlank(Above(t, lines))
  {
  }

  lemma LeadPrefix(content: seq<string>)
    ensures Lead(content) <= content && content == Lead(content) + content[|Lead(content)|..]
  {
  }

  /** A section given a parted text shows that text's prose. */
  lemma PutProse(lines: seq<string>, t: string, body: seq<string>, above: seq<string>)
    requires ArchiveReads.Closing(lines, t) && NoSections(Toks(Closed, body)) && After(Closed, body) == Closed && Parted(body, above)
    ensures SpanOf(lines, t).heading < SpanOf(lines, t).end <= |lines|
    ensures Prose(t, WithSectionBody(lines, SpanOf(lines, t), body)) == TrimBlank(above)
  {
    hide *;
    ClosingIs(lines, t);
    WithBodyReads(lines, t, body);
    var x, y := PartsOf(body, above);
    ProseAbove(x, y);
    AboveIs(t, WithSectionBody(lines, SpanOf(lines, t), body));
  }

  lemma PadShowsNothing(t: string, text: seq<string>)
    requires NoProseAbove(t, text)
    ensures Prose(t, text) == []
  {
    hide *;
    NoProseIs(t, text);
    AboveIs(t, text);
    var toks := FirstProse(t, Toks(Closed, text));
    PadIsBlank(toks);
    BlankToks(toks);
    BlankTrims(LinesOf(toks));
  }

  /** The archive's section shows what moved above its first entry. */
  lemma OnTopProse(text: seq<string>, t: string, moved: seq<string>, above: seq<string>)
    requires ArchiveReads.Closing(text, t) && NoProseAbove(t, text)
    requires NoSections(Toks(Closed, moved)) && After(Closed, moved) == Closed && Parted(moved, above)
    ensures SpanOf(text, t).heading < SpanOf(text, t).end <= |text|
    ensures Prose(t, OnTop(text, SpanOf(text, t), moved)) == TrimBlank(above)
  {
    hide *;
    ClosingIs(text, t);
    var before, head, mid, after := MidOf(text, t);
    OnTopIs(text, SpanOf(text, t), moved);
    ContentCloses(t, before, head, mid, after);
    PartsAre(t, before, head, mid, after);
    PadShowsNothing(t, text);
    if moved == [] {
      var x, y := PartsOf(moved, above);
      assert x == [];
      NoProse();
    } else {
      ProseOf(text, t);
      NoProseIs(t, text);
      TrimmedStartsAtHead(mid);
      var existing := TrimBlank(mid);
      HeadedToks(existing);
      OnceAfter(t, before, head, mid, after);
      TrimBlankEntries(t, true, mid);
      PadsOnly([""]);
      JoinContents(t, moved, [""], existing);
      ApartIs(moved, existing, []);
      ApartParted(moved, existing, above);
      if existing == [] {
        assert moved + existing == moved;
      }
      PutProse(text, t, Apart(moved, existing), above);
    }
  }

  lemma {:induction false} HasPlaceholder(x: seq<string>, y: seq<string>)
    requires exists l :: l in x && IsPlaceholder(l)
    ensures FirstPlaceholder(x + y) != []
  {
    hide IsPlaceholder;
    assert (x + y)[1..] == x[1..] + y && (x + y)[0] == x[0];
    if !IsPlaceholder(x[0]) {
      assert forall l | l in x :: l == x[0] || l in x[1..];
      HasPlaceholder(x[1..], y);
    }
  }

  lemma PlaceholderTrims(y: seq<string>)
    requires y == [] || (|y| == 1 && IsPlaceholder(y[0]))
    ensures TrimBlank(y) == y
  {
  }

  /** The lines above a section's first entry are kept too: the sweep and a bulk run that keeps entries
      leave them where they stand, and nothing comes to stand above the archive's; a bulk run that keeps
      none puts them, but for the placeholders, above the archive's first entry. Then placeholders alone
      are left in the live file, one of them for a section that had one and is emptied. */
  lemma ProseGoesWhere(live: seq<string>, archive: ArchiveFile, t: string, template: seq<string>, sel: Selection)
    requires Archived(live, archive, t, template, sel).ArchiveMove?
    requires After(Closed, live) == Closed && Once(t, live)
    requires var text := TextOrTemplate(archive, template); After(Closed, text) == Closed && Once(t, text) && NoProseAbove(t, text)
    ensures var r, above := Archived(live, archive, t, template, sel), Above(t, live);
      && (sel.Fresh? || sel.n > 0 ==> Prose(t, r.live) == Prose(t, live) && Prose(t, r.archive) == [])
      && (sel.Keep? && sel.n <= 0 ==> Prose(t, r.archive) == TrimBlank(NoPlaceholders(above)))
      && (sel.Keep? && sel.n <= 0 ==> |Prose(t, r.live)| <= 1 && forall l | l in Prose(t, r.live) :: IsPlaceholder(l))
      && (sel.Keep? && sel.n <= 0 && Read(t, r.live) == [] && (exists l :: l in above && IsPlaceholder(l)) ==> Prose(t, r.live) != [])
  {
    hide *;
    var text := TextOrTemplate(archive, template);
    ArchivedIs(live, archive, t, template, sel);
    ClosingIs(live, t);
    ClosingIs(text, t);
    SectionReads(live, t);
    SectionEntriesIs(live, t);
    var q := LeadAbove(live, t);
    var es, marks := SectionEntries(live, t), Marks(SectionEntries(live, t), SectionEntries(text, t), sel, 0);
    var content := ContentOf(live, SpanOf(live, t));
    SplitOfIs(content, marks, sel, archive.Lines?);
    var split := SplitOf(content, marks, sel, archive.Lines?);
    NoProse();
    if sel.Fresh? {
      FreshSplitReads(t, content, marks, archive.Lines?);
      SplitReadsAre(t, split.kept, split.moved, Pick(es, marks, {Unselected, Stays}), Pick(es, marks, {Moves}));
      FreshProse(t, content, marks, archive.Lines?);
      PutProse(live, t, split.kept, Lead(content));
      OnTopProse(text, t, split.moved, []);
    } else {
      KeepSplitReads(t, content, marks, sel.n);
      SplitReadsAre(t, split.kept, split.moved, Newest(es, sel.n) + Pick(es, marks, {Stays}), Strips(Pick(es, marks, {Moves}), true));
      if sel.n > 0 {
        KeepSomeProse(t, content, marks, sel.n);
        PutProse(live, t, split.kept, Lead(content));
        OnTopProse(text, t, split.moved, []);
      } else {
        KeepNone(live, t, content, marks, sel.n, q);
        OnTopProse(text, t, split.moved, NoPlaceholders(Lead(content)));
      }
    }
  }

  lemma KeepNone(live: seq<string>, t: string, content: seq<string>, marks: seq<Mark>, n: int, q: seq<string>)
    requires ArchiveReads.Closing(live, t) && content == ContentOf(live, SpanOf(live, t))
    requires NoSections(Toks(Closed, content)) && After(Closed, content) == Closed && SoundBlocks(BlocksOf(content))
    requires |marks| == |BlocksOf(content)| && n <= 0 && KeepSplit(content, marks, n).SplitInto?
    requires Above(t, live) == Lead(content) + q && (q == [] || q == [""])
    ensures SpanOf(live, t).heading < SpanOf(live, t).end <= |live|
    ensures Parted(KeepSplit(content, marks, n).moved, NoPlaceholders(Lead(content)))
    ensures TrimBlank(NoPlaceholders(Above(t, live))) == TrimBlank(NoPlaceholders(Lead(content)))
    ensures var out := WithSectionBody(live, SpanOf(live, t), KeepSplit(content, marks, n).kept);
      && |Prose(t, out)| <= 1 && (forall l | l in Prose(t, out) :: IsPlaceholder(l))
      && (Read(t, out) == [] && (exists l :: l in Above(t, live) && IsPlaceholder(l)) ==> Prose(t, out) != [])
  {
    hide *;
    KeepNoneProse(t, content, marks, n);
    KeepSplitReads(t, content, marks, n);
    var bs, es := BlocksOf(content), EntriesOf(BlocksOf(content));
    var split := KeepSplit(content, marks, n);
    SplitReadsAre(t, split.kept, split.moved, Newest(es, n) + Pick(es, marks, {Stays}), Strips(Pick(es, marks, {Moves}), true));
    WithBodyReads(live, t, split.kept);
    NewestIs(es, n);
    PickEntries(bs, marks, {Stays});
    var stays, tail := Pick(bs, marks, {Stays}), Tail(content, marks, n);
    PutProse(live, t, split.kept, if stays == [] then FirstPlaceholder(tail) else []);
    NoProse();
    FirstPlaceholderIs(tail);
    PlaceholderTrims(FirstPlaceholder(tail));
    TailIs(content, marks, n);
    EmptyNoPlaceholder();
    FilteredConcat(Lead(content), q);
    PadsOnly([]);
    PadsOnly(q);
    PadTrims([], NoPlaceholders(Lead(content)), q);
    assert [] + NoPlaceholders(Lead(content)) + q == NoPlaceholders(Lead(content)) + q;
    if exists l :: l in Above(t, live) && IsPlaceholder(l) {
      HasPlaceholder(Lead(content), Stack(Pick(bs, marks, {Moves})));
    }
  }

  lemma EmptyNoPlaceholder()
    ensures NoPlaceholders([]) == [] && NoPlaceholders([""]) == [""] && !IsPlaceholder("")
  {
    EmptyIsBlank();
    assert [""][1..] == [];
  }
}
