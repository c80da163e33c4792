/** A section as a list of blocks: the lines above its first entry, then one run of lines per entry,
    heading first. Moving whole entries between documents is picking blocks, whatever the line
    numbers are. Each block with its fences closed reads as one entry wherever it is put, and a stack
    of such blocks reads as their entries in order, with or without blank lines between them. */
module Blocks {
  import opened Text
  import opened Fences
  import opened Documents
  import opened SectionReaders
  import opened Sections
  import opened Contents

  function Stack(bs: seq<seq<string>>): seq<string> {
    if bs == [] then [] else bs[0] + Stack(bs[1..])
  }

  function EntryOf(b: seq<string>): Entry {
    if b == [] then Entry("", []) else Entry(b[0], CutBlank(Toks(Closed, b[1..])))
  }

  function EntriesOf(bs: seq<seq<string>>): (es: seq<Entry>)
    ensures |es| == |bs|
  {
    if bs == [] then [] else [EntryOf(bs[0])] + EntriesOf(bs[1..])
  }

  /** An entry's own lines: heading and body, and every fence it opens closed in it. */
  ghost predicate SoundBlock(b: seq<string>) {
    b != [] && IsEntryHead(b[0]) && SoundBody(b[1..])
  }

  ghost predicate SoundBlocks(bs: seq<seq<string>>) {
    forall b | b in bs :: SoundBlock(b)
  }

  /** The lines above the first heading. */
  function Lead(lines: seq<string>): (lead: seq<string>)
    ensures lead <= lines
  {
    lines[..|Body(Toks(Closed, lines))|]
  }

  /** Lines that start at a heading, cut before each heading. */
  function Cut(lines: seq<string>): seq<seq<string>>
    decreases |lines|
  {
    if lines == [] then []
    else
      var n := |Body(Toks(Closed, lines[1..]))|;
      [lines[..n + 1]] + Cut(lines[n + 1..])
  }

  /** A section's entry blocks. */
  function BlocksOf(content: seq<string>): seq<seq<string>> {
    Cut(content[|Lead(content)|..])
  }

  // ---------------------------------------------------------------- blocks are entries

  lemma CutCons(lines: seq<string>) returns (n: nat)
    requires lines != [] && Toks(Closed, lines)[0].kind == EntryHead
    ensures n < |lines| && Cut(lines) == [lines[..n + 1]] + Cut(lines[n + 1..])
    ensures lines == lines[..n + 1] + lines[n + 1..]
    ensures lines[..n + 1] == [lines[0]] + lines[1..n + 1] && lines[..n + 1][1..] == lines[1..n + 1]
    ensures lines[0] == lines[..n + 1][0] && IsEntryHead(lines[0])
    ensures StartsAtHead(Toks(Closed, lines[n + 1..])) && NoHeads(Toks(Closed, lines[1..n + 1]))
    ensures n + 1 < |lines| ==> After(Closed, lines[1..n + 1]) == Closed
    ensures Toks(Closed, lines) == [Tok(EntryHead, lines[0])] + (Toks(Closed, lines[1..n + 1]) + Toks(Closed, lines[n + 1..]))
    ensures Body(Toks(Closed, lines[1..])) == Toks(Closed, lines[1..n + 1])
    ensures Toks(Closed, lines[1..]) == Toks(Closed, lines[1..n + 1]) + Toks(Closed, lines[n + 1..])
  {
    hide *;
    var rest := lines[1..];
    n := SplitAtBodyEnd(rest);
    assert rest[..n] == lines[1..n + 1] && rest[n..] == lines[n + 1..];
    CutIs(lines, n);
    ToksHead(lines);
    assert lines == [lines[0]] + rest;
    BodyHoldsNoHeads(Toks(Closed, rest));
  }

  lemma BodyHoldsNoHeads(toks: seq<Tok>)
    ensures NoHeads(Body(toks))
  {
  }

  lemma CutIs(lines: seq<string>, n: nat)
    requires lines != [] && n == |Body(Toks(Closed, lines[1..]))|
    ensures n < |lines| && Cut(lines) == [lines[..n + 1]] + Cut(lines[n + 1..])
  {
    hide Toks, Body;
  }

  lemma ToksHead(lines: seq<string>)
    requires lines != [] && Toks(Closed, lines)[0].kind == EntryHead
    ensures Toks(Closed, lines) == [Tok(EntryHead, lines[0])] + Toks(Closed, lines[1..]) && IsEntryHead(lines[0])
  {
    HeadIsOutside(Closed, lines[0]);
  }

  lemma EntriesOfCons(b: seq<string>, bs: seq<seq<string>>)
    ensures EntriesOf([b] + bs) == [EntryOf(b)] + EntriesOf(bs)
  {
    assert ([b] + bs)[1..] == bs;
  }

  lemma StackCons(b: seq<string>, bs: seq<seq<string>>)
    ensures Stack([b] + bs) == b + Stack(bs)
  {
    assert ([b] + bs)[1..] == bs;
  }

  lemma EntryOfBlock(b: seq<string>)
    requires b != []
    ensures EntryOf(b) == Entry(b[0], CutBlank(Toks(Closed, b[1..])))
  {
  }

  lemma EntriesAtHead(t: string, head: string, body: seq<Tok>, rest: seq<Tok>)
    requires NoHeads(body) && StartsAtHead(rest)
    ensures Entries(t, true, [Tok(EntryHead, head)] + (body + rest)) == [Entry(head, CutBlank(body))] + Entries(t, true, rest)
  {
    hide Entries, InsideAfter, CutBlank;
    assert [Tok(EntryHead, head)] + (body + rest) == [Tok(EntryHead, head)] + body + rest;
    EntriesMeet(t, true, [Tok(EntryHead, head)] + body, rest);
    OneEntry(t, true, Tok(EntryHead, head), body);
  }

  lemma HeadNotSection(toks: seq<Tok>)
    requires toks != [] && StartsAtHead(toks) && NoSections(toks)
    ensures toks[0].kind == EntryHead
  {
    assert toks[0] in toks;
  }

  lemma NoSectionsTail(a: seq<Tok>, b: seq<Tok>, c: seq<Tok>)
    requires NoSections(a + (b + c))
    ensures NoSections(c) && NoSections(b)
  {
    assert forall k | k in c || k in b :: k in a + (b + c);
  }

  /** The blocks, put together, are the lines, and each is one of the entries read. */
  lemma {:induction false} CutReads(t: string, lines: seq<string>)
    requires StartsAtHead(Toks(Closed, lines)) && NoSections(Toks(Closed, lines))
    ensures Stack(Cut(lines)) == lines
    ensures EntriesOf(Cut(lines)) == Entries(t, true, Toks(Closed, lines))
    decreases |lines|
  {
    hide *;
    if lines == [] {
      NothingCut(t);
    } else {
      LengthOf(lines);
      HeadNotSection(Toks(Closed, lines));
      var n := CutCons(lines);
      NoSectionsTail([Tok(EntryHead, lines[0])], Toks(Closed, lines[1..n + 1]), Toks(Closed, lines[n + 1..]));
      CutReads(t, lines[n + 1..]);
      StackCons(lines[..n + 1], Cut(lines[n + 1..]));
      EntriesOfCons(lines[..n + 1], Cut(lines[n + 1..]));
      EntryOfBlock(lines[..n + 1]);
      EntriesAtHead(t, lines[0], Toks(Closed, lines[1..n + 1]), Toks(Closed, lines[n + 1..]));
    }
  }

  lemma LengthOf(lines: seq<string>)
    ensures |Toks(Closed, lines)| == |lines|
  {
  }

  lemma NothingCut(t: string)
    ensures Cut([]) == [] && Stack([]) == [] && EntriesOf([]) == [] && Toks(Closed, []) == [] && Entries(t, true, []) == []
    ensures After(Closed, []) == Closed && SoundBlocks([])
  {
  }

  /** In a section that closes its fences every block does. */
  lemma {:induction false} CutSound(lines: seq<string>)
    requires StartsAtHead(Toks(Closed, lines)) && NoSections(Toks(Closed, lines)) && After(Closed, lines) == Closed
    ensures SoundBlocks(Cut(lines))
    decreases |lines|
  {
    hide *;
    if lines == [] {
      NothingCut("");
    } else {
      LengthOf(lines);
      HeadNotSection(Toks(Closed, lines));
      var n := CutCons(lines);
      NoSectionsTail([Tok(EntryHead, lines[0])], Toks(Closed, lines[1..n + 1]), Toks(Closed, lines[n + 1..]));
      BlockAndRest(lines, n);
      CutSound(lines[n + 1..]);
      SoundCons(lines[..n + 1], Cut(lines[n + 1..]));
    }
  }

  lemma BlockAndRest(lines: seq<string>, n: nat)
    requires n < |lines| && lines[..n + 1][1..] == lines[1..n + 1] && IsEntryHead(lines[0]) && After(Closed, lines) == Closed
    requires NoHeads(Toks(Closed, lines[1..n + 1])) && (n + 1 < |lines| ==> After(Closed, lines[1..n + 1]) == Closed)
    ensures SoundBlock(lines[..n + 1]) && After(Closed, lines[n + 1..]) == Closed
  {
    hide Toks, After, IsEntryHead, NoHeads;
    EntryHeadKind(lines[0]);
    var b, rest := lines[1..n + 1], lines[n + 1..];
    assert lines == [lines[0]] + b + rest;
    AfterConcat(Closed, [lines[0]] + b, rest);
    AfterConcat(Closed, [lines[0]], b);
    OneTok(Closed, lines[0]);
    EmptyDoc();
    if rest == [] {
      assert After(Closed, rest) == Closed;
    }
  }

  lemma SoundCons(b: seq<string>, bs: seq<seq<string>>)
    ensures SoundBlocks([b] + bs) <==> SoundBlock(b) && SoundBlocks(bs)
  {
    assert b in [b] + bs;
    assert forall c | c in bs :: c in [b] + bs;
  }

  /** A section's content: what stands above its entries, then its blocks. */
  lemma ContentBlocks(t: string, content: seq<string>)
    requires NoSections(Toks(Closed, content))
    ensures content == Lead(content) + Stack(BlocksOf(content))
    ensures EntriesOf(BlocksOf(content)) == Entries(t, true, Toks(Closed, content))
    ensures Toks(Closed, Lead(content)) == Body(Toks(Closed, content)) && NoHeads(Toks(Closed, Lead(content)))
    ensures After(Closed, content) == Closed ==> SoundBlocks(BlocksOf(content)) && After(Closed, Lead(content)) == Closed
    ensures StartsAtHead(Toks(Closed, content[|Lead(content)|..])) && NoSections(Toks(Closed, content[|Lead(content)|..]))
    ensures Toks(Closed, content) == Toks(Closed, Lead(content)) + Toks(Closed, content[|Lead(content)|..])
    ensures BlocksOf(content) == Cut(content[|Lead(content)|..])
  {
    hide *;
    LeadIs(content);
    var n := SplitAtBodyEnd(content);
    var lead, rest := content[..n], content[n..];
    assert content == lead + rest;
    BodyHoldsNoHeads(Toks(Closed, content));
    NoSectionsSuffix(Toks(Closed, lead), Toks(Closed, rest));
    CutReads(t, rest);
    PadReadsNothing(t, true, Toks(Closed, lead), Toks(Closed, rest));
    if After(Closed, content) == Closed {
      AfterConcat(Closed, lead, rest);
      if rest == [] {
        assert lead == content;
        NothingCut(t);
      } else {
        CutSound(rest);
      }
    }
  }

  lemma LeadIs(content: seq<string>)
    ensures |Body(Toks(Closed, content))| <= |content| && Lead(content) == content[..|Body(Toks(Closed, content))|]
    ensures BlocksOf(content) == Cut(content[|Lead(content)|..])
  {
  }

  lemma NoSectionsSuffix(a: seq<Tok>, b: seq<Tok>)
    requires NoSections(a + b)
    ensures NoSections(a) && NoSections(b)
  {
    assert forall k | k in a || k in b :: k in a + b;
  }

  /** Sound blocks put one after the other are read as their entries. */
  lemma {:induction false} StackReads(t: string, bs: seq<seq<string>>)
    requires SoundBlocks(bs)
    ensures After(Closed, Stack(bs)) == Closed
    ensures NoSections(Toks(Closed, Stack(bs))) && StartsAtHead(Toks(Closed, Stack(bs)))
    ensures Entries(t, true, Toks(Closed, Stack(bs))) == EntriesOf(bs)
  {
    hide *;
    if bs == [] {
      NothingCut(t);
      EmptyReads(t);
      StartsNowhere();
    } else {
      var b, rest := bs[0], bs[1..];
      assert bs == [b] + rest;
      SoundCons(b, rest);
      StackReads(t, rest);
      StackCons(b, rest);
      EntriesOfCons(b, rest);
      BlockReads(t, b, Stack(rest));
    }
  }

  lemma StartsNowhere()
    ensures StartsAtHead([]) && NoSections([])
  {
  }

  lemma BlockReads(t: string, b: seq<string>, rest: seq<string>)
    requires SoundBlock(b) && StartsAtHead(Toks(Closed, rest)) && NoSections(Toks(Closed, rest))
    ensures Entries(t, true, Toks(Closed, b + rest)) == [EntryOf(b)] + Entries(t, true, Toks(Closed, rest))
    ensures After(Closed, b + rest) == After(Closed, rest)
    ensures NoSections(Toks(Closed, b + rest)) && StartsAtHead(Toks(Closed, b + rest))
  {
    hide Toks, After, Entries, CutBlank, IsEntryHead, KindOf, Body;
    var head, body := b[0], b[1..];
    EntryBefore(t, [], head, body, rest);
    assert b == [head] + body;
    assert [] + [head] + body + rest == b + rest;
    BodyStart(Toks(Closed, rest));
    assert Toks(Closed, body) + [] == Toks(Closed, body);
    EntryHeadKind(head);
    assert b + rest == [head] + (body + rest);
    ToksConcat(Closed, [head], body + rest);
    OneTok(Closed, head);
  }

  lemma BodyStart(toks: seq<Tok>)
    requires StartsAtHead(toks)
    ensures Body(toks) == []
  {
  }

  // ---------------------------------------------------------------- an entry's text

  function TrimEnds(lines: seq<string>): seq<string> {
    if lines == [] then [] else [TrimEnd(lines[0])] + TrimEnds(lines[1..])
  }

  /** The text an already archived entry is compared by: the lines from its heading to its last visible
      line, without trailing white space. */
  function TextOf(e: Entry): string {
    Join(TrimEnds(e.Lines()))
  }

  lemma BlockText(b: seq<string>)
    requires b != [] && IsEntryHead(b[0])
    ensures TrimBlank(b) == EntryOf(b).Lines()
  {
    hide Toks, Blank, IsEntryHead, DropLeading, DropTrailing, CutBlank;
    EntryHeadKind(b[0]);
    NoLeading(b);
    assert b == [b[0]] + b[1..];
    DropTrailingHead(b[0], b[1..]);
    DropTrailingToks(Closed, b[1..]);
    LinesOfToks(Closed, DropTrailing(b[1..]));
  }

  lemma NoLeading(b: seq<string>)
    requires b != [] && !Blank(b[0])
    ensures DropLeading(b) == b
  {
  }

  /** A block trimmed to its last visible line is the same entry. */
  lemma TrimmedBlock(b: seq<string>)
    requires SoundBlock(b)
    ensures SoundBlock(TrimBlank(b)) && EntryOf(TrimBlank(b)) == EntryOf(b)
    ensures forall q: seq<string> | (forall l | l in q :: Blank(l)) :: SoundBlock(TrimBlank(b) + q) && EntryOf(TrimBlank(b) + q) == EntryOf(b)
  {
    hide *;
    SoundIs(b);
    EntryHeadKind(b[0]);
    TrimBlankHead(b);
    var body := b[1..];
    var kept := DropTrailing(body);
    assert forall l | l in body[|kept|..] :: Blank(l) by { DropTrailingBlanks(body); }
    DropTrailingBlanks(body);
    assert kept + body[|kept|..] == body;
    forall q: seq<string> | (forall l | l in q :: Blank(l)) ensures SoundBlock(TrimBlank(b) + q) && EntryOf(TrimBlank(b) + q) == EntryOf(b) {
      PaddedSound(kept, body[|kept|..], q);
      assert ([b[0]] + kept + q)[1..] == kept + q;
      SoundIs([b[0]] + kept + q);
      EntryOfBlock([b[0]] + kept + q);
      EntryOfBlock(b);
    }
    assert TrimBlank(b) + [] == TrimBlank(b);
  }

  lemma SoundIs(b: seq<string>)
    ensures SoundBlock(b) <==> b != [] && IsEntryHead(b[0]) && SoundBody(b[1..])
  {
  }

  lemma TrimBlankHead(b: seq<string>)
    requires b != [] && !Blank(b[0])
    ensures TrimBlank(b) == [b[0]] + DropTrailing(b[1..])
  {
    hide Blank;
    NoLeading(b);
    assert b == [b[0]] + b[1..];
    DropTrailingHead(b[0], b[1..]);
  }

  lemma DropTrailingBlanks(lines: seq<string>)
    ensures DropTrailing(lines) <= lines && forall l | l in lines[|DropTrailing(lines)|..] :: Blank(l)
  {
    hide Blank;
  }

  /** Only the visible lines of a body matter. */
  lemma PaddedSound(kept: seq<string>, p: seq<string>, q: seq<string>)
    requires SoundBody(kept + p) && (forall l | l in p :: Blank(l)) && (forall l | l in q :: Blank(l))
    ensures SoundBody(kept + q) && CutBlank(Toks(Closed, kept + q)) == CutBlank(Toks(Closed, kept + p))
  {
    hide Toks, After, Blank, CutBlank;
    PadsAround([], kept, p);
    PadsAround([], kept, q);
    EmptyDoc();
    assert [] + kept + p == kept + p && [] + kept + q == kept + q;
    var tk, tp, tq := Toks(Closed, kept), Toks(After(Closed, kept), p), Toks(After(Closed, kept), q);
    assert [] + tk + tp == tk + tp && [] + tk + tq == tk + tq;
    assert forall k | k in tk + tq :: k in tk + tp || k in tq;
    CutBlankPad(tk, tp);
    CutBlankPad(tk, tq);
  }

  // ---------------------------------------------------------------- entryBlocks

  /** The trimmed blocks, one blank line between them. */
  function Spread(bs: seq<seq<string>>): seq<string> {
    if bs == [] then []
    else if |bs| == 1 then TrimBlank(bs[0])
    else TrimBlank(bs[0]) + [""] + Spread(bs[1..])
  }

  lemma {:induction false} SpreadReads(t: string, bs: seq<seq<string>>)
    requires SoundBlocks(bs)
    ensures After(Closed, Spread(bs)) == Closed
    ensures NoSections(Toks(Closed, Spread(bs))) && StartsAtHead(Toks(Closed, Spread(bs)))
    ensures Entries(t, true, Toks(Closed, Spread(bs))) == EntriesOf(bs)
    ensures bs != [] ==> Spread(bs) != [] && !Blank(Spread(bs)[0])
  {
    hide *;
    if bs == [] {
      SpreadCons([], []);
      NothingCut(t);
      StartsNowhere();
    } else {
      var b, rest := bs[0], bs[1..];
      assert bs == [b] + rest;
      SoundCons(b, rest);
      SpreadReads(t, rest);
      SpreadCons(b, rest);
      TrimmedBlock(b);
      BlankLine();
      EntriesOfCons(b, rest);
      var x := TrimBlank(b) + if rest == [] then [] else [""];
      assert rest == [] ==> x == TrimBlank(b);
      BlockReads(t, x, Spread(rest));
      assert Spread(bs) == x + Spread(rest);
      SoundIs(b);
      EntryHeadKind(b[0]);
      TrimBlankHead(b);
    }
  }

  lemma BlankLine()
    ensures forall l | l in [""] :: Blank(l)
  {
  }

  lemma SpreadCons(b: seq<string>, rest: seq<seq<string>>)
    ensures Spread([b] + rest) == TrimBlank(b) + (if rest == [] then [] else [""]) + Spread(rest)
    ensures Spread([]) == []
  {
    assert ([b] + rest)[1..] == rest;
  }

  // ---------------------------------------------------------------- putting contents together

  /** Lines that start at an entry, put after closed lines. */
  lemma JoinContents(t: string, a: seq<string>, pad: seq<string>, b: seq<string>)
    requires After(Closed, a) == Closed && NoSections(Toks(Closed, a)) && NoSections(Toks(Closed, b))
    requires (forall l | l in pad :: Blank(l)) && StartsAtHead(Toks(Closed, b))
    ensures var all := a + pad + b;
      && After(Closed, all) == After(Closed, b) && NoSections(Toks(Closed, all))
      && Entries(t, true, Toks(Closed, all)) == Entries(t, true, Toks(Closed, a)) + Entries(t, true, Toks(Closed, b))
  {
    hide Toks, After, Blank, Entries, InsideAfter;
    BlankLines(Closed, pad);
    ToksConcat(Closed, a + pad, b);
    ToksConcat(Closed, a, pad);
    EntriesConcat(t, true, Toks(Closed, a), Toks(Closed, pad), Toks(Closed, b));
    NoSectionsStayInside(t, true, Toks(Closed, a));
    PadNoSections(Toks(Closed, pad));
    ThreeNoSections(Toks(Closed, a), Toks(Closed, pad), Toks(Closed, b));
  }

  lemma PadNoSections(pad: seq<Tok>)
    requires IsPad(pad)
    ensures NoSections(pad)
  {
  }

  lemma ThreeNoSections(a: seq<Tok>, b: seq<Tok>, c: seq<Tok>)
    requires NoSections(a) && NoSections(b) && NoSections(c)
    ensures NoSections(a + b + c)
  {
  }
}
