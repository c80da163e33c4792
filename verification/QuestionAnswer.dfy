/** Answering an open question: its block leaves `## Open` and joins the end of `## Answered`, stamped
    with the answer (src/backlog/backlog-question-answer.ts), and every other entry and section reads
    as it did but for placeholders. */
module QuestionAnswer {
  import opened Text
  import opened Fences
  import opened Documents
  import opened SectionReaders
  import opened Sections
  import opened Contents
  import opened BacklogWrite

  // ---------------------------------------------------------------- scanQuestions

  /** One open entry's extent: 0-based heading line and end. */
  datatype Block = Block(start: nat, end: nat, title: string)

  datatype Scan = NoOpenSection | Scan(openIdx: nat, answeredIdx: int, openEnd: nat, fenceOpen: bool, blocks: seq<Block>)

  function AsRanges(blocks: seq<Block>): (r: seq<Range>)
    ensures |r| == |blocks|
  {
    if blocks == [] then [] else [Range(blocks[0].title, blocks[0].start + 1, blocks[0].end)] + AsRanges(blocks[1..])
  }

  lemma {:induction false} AsRangesSnoc(blocks: seq<Block>, b: Block)
    ensures AsRanges(blocks + [b]) == AsRanges(blocks) + [Range(b.title, b.start + 1, b.end)]
  {
    if blocks == [] {
      assert blocks + [b] == [b];
      assert AsRanges([b]) == [Range(b.title, b.start + 1, b.end)] + AsRanges([]);
    } else {
      assert (blocks + [b])[1..] == blocks[1..] + [b];
      AsRangesSnoc(blocks[1..], b);
    }
  }

  lemma {:induction false} AsRangesAt(blocks: seq<Block>, k: nat)
    requires k < |blocks|
    ensures AsRanges(blocks)[k] == Range(blocks[k].title, blocks[k].start + 1, blocks[k].end)
  {
    if k > 0 {
      AsRangesAt(blocks[1..], k - 1);
    }
  }

  /** The blocks found so far, the last one's end still to be settled. */
  ghost predicate Blocking(all: seq<Range>, eof: nat, at: nat, rest: seq<Tok>, blocks: seq<Block>) {
    if blocks == [] then RangingToks("Open", all, eof, at, rest, [], true, NoRange)
    else var last := blocks[|blocks| - 1];
      RangingToks("Open", all, eof, at, rest, AsRanges(blocks[..|blocks| - 1]), true, OpenRange(last.title, last.start + 1))
  }

  /** The last block's end, as `current.end = i` settles it. */
  function Settled(blocks: seq<Block>, i: nat): (r: seq<Block>)
    ensures |r| == |blocks|
  {
    if blocks == [] then [] else blocks[..|blocks| - 1] + [blocks[|blocks| - 1].(end := i)]
  }

  lemma SettledRanges(blocks: seq<Block>, i: nat)
    requires blocks != []
    ensures var last := blocks[|blocks| - 1];
      AsRanges(Settled(blocks, i)) == AsRanges(blocks[..|blocks| - 1]) + [Range(last.title, last.start + 1, i)]
  {
    AsRangesSnoc(blocks[..|blocks| - 1], blocks[|blocks| - 1].(end := i));
  }

  lemma BlockingText(all: seq<Range>, eof: nat, at: nat, k: Tok, rest: seq<Tok>, blocks: seq<Block>)
    requires Blocking(all, eof, at, [k] + rest, blocks) && !k.IsHead()
    ensures Blocking(all, eof, at + 1, rest, blocks)
  {
    hide RangingToks, AsRanges;
    var entries := if blocks == [] then [] else AsRanges(blocks[..|blocks| - 1]);
    var open := if blocks == [] then NoRange else OpenRange(blocks[|blocks| - 1].title, blocks[|blocks| - 1].start + 1);
    RangingText("Open", all, eof, at, k, rest, entries, true, open);
  }

  lemma BlockingHead(all: seq<Range>, eof: nat, at: nat, k: Tok, rest: seq<Tok>, blocks: seq<Block>)
    requires Blocking(all, eof, at, [k] + rest, blocks) && k.kind == EntryHead
    ensures Blocking(all, eof, at + 1, rest, Settled(blocks, at) + [Block(at, eof, k.Title())])
  {
    hide RangingToks, AsRanges, RangesFrom;
    var entries := if blocks == [] then [] else AsRanges(blocks[..|blocks| - 1]);
    var open := if blocks == [] then NoRange else OpenRange(blocks[|blocks| - 1].title, blocks[|blocks| - 1].start + 1);
    RangingEntry("Open", all, eof, at, k, rest, entries, open);
    var next := Settled(blocks, at) + [Block(at, eof, k.Title())];
    assert next[..|next| - 1] == Settled(blocks, at);
    if blocks == [] {
      NoRanges();
      assert entries + ClosingRange(open, at) == [];
    } else {
      SettledRanges(blocks, at);
    }
  }

  lemma NoRanges()
    ensures AsRanges([]) == []
  {
  }

  lemma {:induction false} BlockingEnds(all: seq<Range>, eof: nat, at: nat, blocks: seq<Block>)
    requires Blocking(all, eof, at, [], blocks)
    requires blocks != [] ==> blocks[|blocks| - 1].end == eof
    ensures AsRanges(blocks) == all
  {
    hide AsRanges;
    EmptyReads("Open");
    NoRanges();
    if blocks != [] {
      SettledRanges(blocks, eof);
      assert Settled(blocks, eof) == blocks;
      assert AsRanges(blocks[..|blocks| - 1]) + ClosingRange(OpenRange(blocks[|blocks| - 1].title, blocks[|blocks| - 1].start + 1), eof) + [] == AsRanges(blocks);
    }
  }

  /** What `scanQuestions` must find: the first sections' headings, where Open's content ends, whether
      a fence runs unclosed there, and the blocks of Open's entries. */
  ghost predicate Scanned(lines: seq<string>, r: Scan) {
    var toks := Toks(Closed, lines);
    var h, a := FirstSection("Open", toks), FirstSection("Answered", toks);
    if h == |lines| then r == NoOpenSection
    else
      var end := h + 1 + NextSection(Toks(Closed, lines[h + 1..]));
      && r.Scan? && r.openIdx == h && r.openEnd == end && end <= |lines|
      && r.answeredIdx == (if a == |lines| then -1 else a)
      && (r.fenceOpen <==> After(Closed, lines[h + 1..end]) != Closed)
      && AsRanges(r.blocks) == RangesFrom("Open", true, Toks(Closed, lines[h + 1..end]), h + 1, end)
  }

  /** One pass for both headings. */
  method FindHeadings(lines: seq<string>) returns (openIdx: int, answeredIdx: int)
    ensures openIdx == if FirstSection("Open", Toks(Closed, lines)) < |lines| then FirstSection("Open", Toks(Closed, lines)) else -1
    ensures answeredIdx == if FirstSection("Answered", Toks(Closed, lines)) < |lines| then FirstSection("Answered", Toks(Closed, lines)) else -1
  {
    hide Toks, KindOf, Inside, Next, FirstSection, Trim;
    var fenced := new FenceTracker();
    openIdx, answeredIdx := -1, -1;
    assert lines[0..] == lines;
    var i := 0;
    while i < |lines|
      invariant 0 <= i <= |lines|
      invariant FirstSection("Open", Toks(Closed, lines)) == if openIdx == -1 then i + FirstSection("Open", Toks(fenced.fence, lines[i..])) else openIdx
      invariant FirstSection("Answered", Toks(Closed, lines)) == if answeredIdx == -1 then i + FirstSection("Answered", Toks(fenced.fence, lines[i..])) else answeredIdx
      invariant -1 <= openIdx < i && -1 <= answeredIdx < i
    {
      FirstSectionStep("Open", fenced.fence, lines, i);
      FirstSectionStep("Answered", fenced.fence, lines, i);
      var title := fenced.HeadingTitle(lines[i], "## ");
      if title.Titled? {
        if title.title == "Open" && openIdx == -1 {
          openIdx := i;
        } else if title.title == "Answered" && answeredIdx == -1 {
          answeredIdx := i;
        }
      }
      i := i + 1;
    }
    assert lines[i..] == [];
    NothingToFind(fenced.fence);
  }

  lemma NothingToFind(f: Fence)
    ensures forall t :: FirstSection(t, Toks(f, [])) == 0
  {
  }

  lemma FirstSectionStep(t: string, f: Fence, lines: seq<string>, i: nat)
    requires i < |lines|
    ensures var here := !Inside(f, lines[i]) && "## " <= lines[i] && Trim(lines[i][|"## "|..]) == t;
      FirstSection(t, Toks(f, lines[i..])) == if here then 0 else 1 + FirstSection(t, Toks(Next(f, lines[i]), lines[i + 1..]))
  {
    ToksCons(f, lines, i);
    var k, rest := Tok(KindOf(f, lines[i]), lines[i]), Toks(Next(f, lines[i]), lines[i + 1..]);
    assert ([k] + rest)[1..] == rest;
  }

  method FindBlocks(lines: seq<string>, from: nat, openEnd: nat) returns (blocks: seq<Block>, open: bool)
    requires from <= openEnd <= |lines| && NoSections(Toks(Closed, lines[from..openEnd]))
    ensures AsRanges(blocks) == RangesFrom("Open", true, Toks(Closed, lines[from..openEnd]), from, openEnd)
    ensures open <==> After(Closed, lines[from..openEnd]) != Closed
  {
    hide *;
    var content := lines[from..openEnd];
    ghost var all := RangesFrom("Open", true, Toks(Closed, content), from, openEnd);
    var fenced := new FenceTracker();
    blocks := [];
    BlockingStarts(content, from, openEnd);
    ghost var rest := Toks(Closed, content);
    var i := from;
    assert content[..0] == [];
    SoundSoFar();
    NoSectionsAre(rest);
    while i < openEnd
      invariant from <= i <= openEnd
      invariant fenced.fence == After(Closed, content[..i - from])
      invariant rest == Toks(fenced.fence, content[i - from..]) && forall k | k in rest :: k.kind != SectionHead
      invariant Blocking(all, openEnd, i, rest, blocks)
      invariant blocks != [] ==> blocks[|blocks| - 1].end == openEnd
    {
      var line := lines[i];
      ghost var j, f := i - from, fenced.fence;
      assert content[j] == line && content[..j + 1] == content[..j] + [line];
      ToksCons(f, content, j);
      AfterConcat(Closed, content[..j], [line]);
      OneTok(f, line);
      ghost var k, later := Tok(KindOf(f, line), line), Toks(Next(f, line), content[j + 1..]);
      assert k in rest && rest == [k] + later;
      EntryTitle(f, line);
      var title := fenced.HeadingTitle(line, "### ");
      if title.Titled? {
        BlockingHead(all, openEnd, i, k, later, blocks);
        blocks := Settled(blocks, i) + [Block(i, openEnd, title.title)];
      } else {
        BlockingText(all, openEnd, i, k, later, blocks);
      }
      rest := later;
      i := i + 1;
    }
    assert content[i - from..] == [] && content[..i - from] == content;
    EmptyDoc();
    BlockingEnds(all, openEnd, i, blocks);
    open := fenced.fence != Closed;
  }

  lemma NoSectionsAre(toks: seq<Tok>)
    requires NoSections(toks)
    ensures forall k | k in toks :: k.kind != SectionHead
  {
  }

  lemma BlockingStarts(content: seq<string>, from: nat, eof: nat)
    ensures content[0..] == content
    ensures Blocking(RangesFrom("Open", true, Toks(Closed, content), from, eof), eof, from, Toks(Closed, content), [])
  {
  }

  /** `fencedHeadingTitle` at the entry level reads exactly the entry headings. */
  lemma EntryTitle(f: Fence, line: string)
    ensures var k := Tok(KindOf(f, line), line);
      && (k.kind == EntryHead || k.kind == SectionHead <==> k.IsHead())
      && (k.kind != SectionHead ==> ((!Inside(f, line) && "### " <= line) <==> k.kind == EntryHead))
      && (k.kind == EntryHead ==> |line| >= 4 && k.Title() == Trim(line[|"### "|..]))
  {
  }

  method ScanQuestions(lines: seq<string>) returns (r: Scan)
    ensures Scanned(lines, r)
  {
    hide Toks, KindOf, Inside, Next, FirstSection, NextSection, After, AsRanges, RangesFrom, SectionCount, NoSections;
    var openIdx, answeredIdx := FindHeadings(lines);
    if openIdx == -1 {
      return NoOpenSection;
    }
    SectionParts("Open", lines);
    var fencedBlocks := new FenceTracker();
    var openEnd := NextSectionHeading(lines, openIdx + 1, fencedBlocks);
    var blocks, fenceOpen := FindBlocks(lines, openIdx + 1, openEnd);
    r := Scan(openIdx, answeredIdx, openEnd, fenceOpen, blocks);
  }

  // ---------------------------------------------------------------- the blocks are the listed entries

  /** A section's content around its `k`th entry, at content lines `p` up to `stop`. */
  ghost predicate ContentEntry(t: string, content: seq<string>, k: nat, p: nat, stop: nat) {
    && p < stop <= |content| && k < |Entries(t, true, Toks(Closed, content))|
    && IsEntryHead(content[p]) && After(Closed, content[..p]) == Closed
    && (stop < |content| ==> After(Closed, content[p + 1..stop]) == Closed)
    && var es, body, after := Entries(t, true, Toks(Closed, content)), Toks(Closed, content[p + 1..stop]), Toks(Closed, content[stop..]);
       && NoHeads(body) && StartsAtHead(after)
       && Entries(t, true, Toks(Closed, content[..p])) == es[..k]
       && es[k] == Entry(content[p], CutBlank(body))
       && Entries(t, true, after) == es[k + 1..]
       && Toks(Closed, content) == Toks(Closed, content[..p]) + [Tok(EntryHead, content[p])] + body + after
  }

  lemma LocateInContent(t: string, content: seq<string>, at: nat, k: nat) returns (p: nat, stop: nat)
    requires NoSections(Toks(Closed, content))
    requires k < |RangesFrom(t, true, Toks(Closed, content), at, at + |content|)|
    ensures ContentEntry(t, content, k, p, stop)
    ensures RangesFrom(t, true, Toks(Closed, content), at, at + |content|)[k]
         == Range(Entries(t, true, Toks(Closed, content))[k].Title(), at + p + 1, at + stop)
  {
    hide Toks, After, Entries, InsideAfter, CutBlank, Body, KindOf, RangesFrom, NoSections;
    var toks := Toks(Closed, content);
    p := RangeAt(t, true, toks, at, at + |content|, k);
    stop := SplitAtEntry(content, p);
    ToksSplit(Closed, content, p);
    ToksAt(Closed, content, p);
    var before, head := Toks(Closed, content[..p]), Tok(EntryHead, content[p]);
    var body, after := Toks(Closed, content[p + 1..stop]), Toks(Closed, content[stop..]);
    EntriesAroundHere(t, before, head, body, after);
    ThreeParts(Entries(t, true, toks), Entries(t, true, before), Entry(head.line, CutBlank(body)), Entries(t, true, after));
  }

  lemma EntriesAroundHere(t: string, before: seq<Tok>, head: Tok, body: seq<Tok>, after: seq<Tok>)
    requires head.kind == EntryHead && NoHeads(body) && StartsAtHead(after) && InsideAfter(t, true, before)
    ensures Entries(t, true, before + [head] + body + after)
         == Entries(t, true, before) + [Entry(head.line, CutBlank(body))] + Entries(t, true, after)
  {
    hide Entries, InsideAfter, CutBlank;
    assert before + [head] + body + after == before + ([head] + body + after);
    EntriesMeet(t, true, before, [head] + body + after);
    OneEntry(t, true, head, body);
    EntriesMeet(t, true, [head] + body, after);
  }

  /** The blocks `answer` moves are the entries `--list` numbers: one per entry of `## Open`, in
      order, with the same titles. */
  lemma BlocksAreEntries(lines: seq<string>, r: Scan, k: nat)
    requires Scanned(lines, r) && r.Scan? && Once("Open", lines)
    ensures |r.blocks| == |Read("Open", lines)|
    ensures k < |r.blocks| ==> r.blocks[k].title == Read("Open", lines)[k].Title()
  {
    hide Toks, After, FirstSection, NextSection, RangesFrom, Entries, AsRanges, SectionCount, NoSections, ContentEntry, Whole, Read, Entry.Title;
    SectionParts("Open", lines);
    var before, head, content, after := lines[..r.openIdx], lines[r.openIdx], lines[r.openIdx + 1..r.openEnd], lines[r.openEnd..];
    assert Whole(before, head, content, after) == lines by { WholeIs(before, head, content, after); }
    OnceAfter("Open", before, head, content, after);
    if k < |r.blocks| {
      var p, stop := LocateInContent("Open", content, r.openIdx + 1, k);
      AsRangesAt(r.blocks, k);
    }
  }

  // ---------------------------------------------------------------- cutting the block

  /** `cutOpenBlock`: the block goes; an emptied section gets its placeholder back. */
  function CutOpenBlock(lines: seq<string>, openIdx: nat, openEnd: nat, block: Block): seq<string>
    requires openIdx < block.start <= block.end <= openEnd <= |lines|
  {
    if forall l | l in lines[openIdx + 1..block.start] + lines[block.end..openEnd] :: Blank(l)
    then lines[..openIdx + 1] + ["", "_None yet._", ""] + lines[openEnd..]
    else lines[..block.start] + lines[block.end..]
  }

  /** What is left of the section's content. */
  function CutContent(content: seq<string>, p: nat, stop: nat): seq<string>
    requires p <= stop <= |content|
  {
    if forall l | l in content[..p] + content[stop..] :: Blank(l) then ["", "_None yet._", ""] else content[..p] + content[stop..]
  }

  lemma CutContentReads(t: string, content: seq<string>, k: nat, p: nat, stop: nat)
    requires ContentEntry(t, content, k, p, stop) && NoSections(Toks(Closed, content)) && After(Closed, content) == Closed
    ensures Entries(t, true, Toks(Closed, CutContent(content, p, stop))) == Removed(Entries(t, true, Toks(Closed, content)), k)
    ensures NoSections(Toks(Closed, CutContent(content, p, stop))) && After(Closed, CutContent(content, p, stop)) == Closed
    ensures After(Closed, content[p + 1..stop]) == Closed
  {
    hide Toks, After, Entries, NoHeads, NoSections, CutBlank, Blank;
    var a, c := content[..p], content[stop..];
    EntryFences(t, content, k, p, stop);
    ToksConcat(Closed, a, c);
    var ta, tb, tc := Toks(Closed, a), [Tok(EntryHead, content[p])] + Toks(Closed, content[p + 1..stop]), Toks(Closed, c);
    assert Toks(Closed, content) == ta + tb + tc;
    SectionsOfParts(ta, tb, tc);
    EntriesMeet(t, true, ta, tc);
    NoSectionsStayInside(t, true, ta);
    if forall l | l in a + c :: Blank(l) {
      BlankLines(Closed, a + c);
      ProseReadsNothing(t, true, Toks(Closed, a + c));
      PlaceholderReads(t);
    }
  }

  lemma SectionsOfParts(a: seq<Tok>, b: seq<Tok>, c: seq<Tok>)
    requires NoSections(a + b + c)
    ensures NoSections(a) && NoSections(c) && NoSections(a + c)
  {
    assert forall k | k in a :: k in a + b + c;
    assert forall k | k in c :: k in a + b + c;
  }

  lemma EntryFences(t: string, content: seq<string>, k: nat, p: nat, stop: nat)
    requires ContentEntry(t, content, k, p, stop) && After(Closed, content) == Closed
    ensures After(Closed, content[p + 1..stop]) == Closed && After(Closed, content[stop..]) == Closed
  {
    hide Toks, Entries, CutBlank, IsEntryHead, After, Next, KindOf;
    var a, body, c := content[..p], content[p + 1..stop], content[stop..];
    assert content == a + [content[p]] + body + c;
    AfterConcat(Closed, a + [content[p]] + body, c);
    AfterConcat(Closed, a + [content[p]], body);
    AfterConcat(Closed, a, [content[p]]);
    EntryHeadKind(content[p]);
    OneTok(Closed, content[p]);
    EmptyDoc();
    if stop == |content| {
      assert c == [];
    }
  }

  /** The restored placeholder is no entry. */
  lemma PlaceholderReads(t: string)
    ensures Entries(t, true, Toks(Closed, ["", "_None yet._", ""])) == []
    ensures After(Closed, ["", "_None yet._", ""]) == Closed
    ensures NoSections(Toks(Closed, ["", "_None yet._", ""]))
  {
    hide Toks, After, Entries, KindOf, Next;
    EmptyIsBlank();
    assert IsPlaceholder("_None yet._") by { TrimVisible("_None yet._"); }
    PlaceholderIsInert(Closed, "_None yet._");
    OneTok(Closed, "_None yet._");
    PadsAround([""], ["_None yet._"], [""]);
    PaddedEntries(t, true, [""], ["_None yet._"], [""]);
    assert [""] + ["_None yet._"] + [""] == ["", "_None yet._", ""];
    ProseReadsNothing(t, true, Toks(Closed, ["_None yet._"]));
    PlainIsNoHead(Toks(Closed, ["_None yet._"])[0]);
  }

  lemma PlainIsNoHead(k: Tok)
    requires k.kind == Plain
    ensures NoHeads([k]) && NoSections([k])
  {
  }

  lemma CutReads(lines: seq<string>, r: Scan, k: nat)
    requires Scanned(lines, r) && r.Scan? && !r.fenceOpen && k < |r.blocks|
    ensures var b := r.blocks[k];
      && r.openIdx < b.start < b.end <= r.openEnd <= |lines|
      && CutDone(lines, k, CutOpenBlock(lines, r.openIdx, r.openEnd, b))
      && IsEntryHead(lines[b.start]) && SoundBody(lines[b.start + 1..b.end])
      && (Once("Open", lines) ==>
            (|Read("Open", lines)| > k && b.title == Read("Open", lines)[k].Title()
             && Read("Open", lines)[k] == Entry(lines[b.start], CutBlank(Toks(Closed, lines[b.start + 1..b.end])))))
  {
    hide *;
    var h, end := r.openIdx, r.openEnd;
    ScanFacts(lines, r);
    var p, stop := BlockAt(lines, r, k);
    var before, head, content, after := lines[..h], lines[h], lines[h + 1..end], lines[end..];
    WholeIs(before, head, content, after);
    CutReadsParts(before, head, content, after, k, p, stop);
    if Once("Open", lines) {
      OnceAfter("Open", before, head, content, after);
    }
    ContentEntryFacts("Open", content, k, p, stop);
    CutWhole(lines, h, end, r.blocks[k], p, stop);
    SoundBodyIs(content[p + 1..stop]);
  }

  /** An emptied `## Open` says so again: nothing else stands in it. */
  lemma EmptiedOpenSaysSo(lines: seq<string>, r: Scan, k: nat)
    requires Scanned(lines, r) && r.Scan? && !r.fenceOpen && k < |r.blocks|
    requires r.openIdx < r.blocks[k].start <= r.blocks[k].end <= r.openEnd <= |lines|
    requires forall l | l in lines[r.openIdx + 1..r.blocks[k].start] + lines[r.blocks[k].end..r.openEnd] :: Blank(l)
    ensures LinesOf(FirstProse("Open", Toks(Closed, CutOpenBlock(lines, r.openIdx, r.openEnd, r.blocks[k])))) == ["", "_None yet._", ""]
    ensures Read("Open", CutOpenBlock(lines, r.openIdx, r.openEnd, r.blocks[k])) == Entries("Open", false, Toks(Closed, lines[r.openEnd..]))
  {
    hide *;
    ScanFacts(lines, r);
    SectionParts("Open", lines);
    var before, head, content, after := lines[..r.openIdx], lines[r.openIdx], lines[r.openIdx + 1..r.openEnd], lines[r.openEnd..];
    var left := ["", "_None yet._", ""];
    PlaceholderSection(left);
    EmptiedIs(lines, r.openIdx, r.openEnd, r.blocks[k]);
    WholeIs(before, head, left, after);
    ReplaceContent("Open", before, head, content, left, after);
    WholeToks("Open", before, head, left, after);
    ProseReadsNothing("Open", true, Toks(Closed, left));
    assert [] + Entries("Open", false, Toks(Closed, after)) == Entries("Open", false, Toks(Closed, after));
    OpenParts(before, head, left, after);
    ProseAtSection("Open", Toks(Closed, before), Tok(SectionHead, head), Toks(Closed, left), Toks(Closed, after));
    BodyNoHeads(Toks(Closed, left));
    LinesOfToks(Closed, left);
  }

  /** With anything visible left in `## Open`, what stood above its first question stands there still. */
  lemma OpenKeepsProse(lines: seq<string>, r: Scan, k: nat)
    requires Scanned(lines, r) && r.Scan? && !r.fenceOpen && k < |r.blocks|
    requires r.openIdx < r.blocks[k].start <= r.blocks[k].end <= r.openEnd <= |lines|
    requires exists l :: l in lines[r.openIdx + 1..r.blocks[k].start] + lines[r.blocks[k].end..r.openEnd] && !Blank(l)
    ensures FirstProse("Open", Toks(Closed, CutOpenBlock(lines, r.openIdx, r.openEnd, r.blocks[k]))) == FirstProse("Open", Toks(Closed, lines))
  {
    hide *;
    ScanFacts(lines, r);
    var p, stop := BlockAt(lines, r, k);
    var h, end := r.openIdx, r.openEnd;
    var before, head, content, after := lines[..h], lines[h], lines[h + 1..end], lines[end..];
    WholeIs(before, head, content, after);
    ContentEntryFacts("Open", content, k, p, stop);
    CutWhole(lines, h, end, r.blocks[k], p, stop);
    SliceOfSlice(lines, h + 1, end, p, stop);
    ProseKept(before, head, content, after, k, p, stop);
  }

  lemma ProseKept(before: seq<string>, head: string, content: seq<string>, after: seq<string>, k: nat, p: nat, stop: nat)
    requires Parts("Open", before, head, content, after) && ContentEntry("Open", content, k, p, stop) && After(Closed, content) == Closed
    requires exists l :: l in content[..p] + content[stop..] && !Blank(l)
    ensures FirstProse("Open", Toks(Closed, Whole(before, head, CutContent(content, p, stop), after)))
         == FirstProse("Open", Toks(Closed, Whole(before, head, content, after)))
  {
    hide *;
    ContentEntryFacts("Open", content, k, p, stop);
    var cut := CutContent(content, p, stop);
    PartsHoldNoSections("Open", before, head, content, after);
    CutContentReads("Open", content, k, p, stop);
    ReplaceContent("Open", before, head, content, cut, after);
    WholeToks("Open", before, head, cut, after);
    WholeToks("Open", before, head, content, after);
    OpenParts(before, head, content, after);
    ProseAtSection("Open", Toks(Closed, before), Tok(SectionHead, head), Toks(Closed, content), Toks(Closed, after));
    ProseAtSection("Open", Toks(Closed, before), Tok(SectionHead, head), Toks(Closed, cut), Toks(Closed, after));
    CutBodyIs(content, k, p, stop);
  }

  lemma CutBodyIs(content: seq<string>, k: nat, p: nat, stop: nat)
    requires ContentEntry("Open", content, k, p, stop) && After(Closed, content) == Closed
    requires exists l :: l in content[..p] + content[stop..] && !Blank(l)
    ensures Body(Toks(Closed, CutContent(content, p, stop))) == Body(Toks(Closed, content))
  {
    hide Toks, After, Entries, NoHeads, CutBlank, Blank, Body;
    var a, c := content[..p], content[stop..];
    ToksConcat(Closed, a, c);
    BodyAcross(Toks(Closed, a), Toks(Closed, c));
    var rest := [Tok(EntryHead, content[p])] + Toks(Closed, content[p + 1..stop]) + Toks(Closed, c);
    assert Toks(Closed, content) == Toks(Closed, a) + rest;
    BodyAcross(Toks(Closed, a), rest);
  }

  lemma EmptiedIs(lines: seq<string>, openIdx: nat, openEnd: nat, b: Block)
    requires openIdx < b.start <= b.end <= openEnd <= |lines|
    requires forall l | l in lines[openIdx + 1..b.start] + lines[b.end..openEnd] :: Blank(l)
    ensures CutOpenBlock(lines, openIdx, openEnd, b) == lines[..openIdx] + [lines[openIdx]] + ["", "_None yet._", ""] + lines[openEnd..]
  {
    hide Blank;
  }

  lemma OpenParts(before: seq<string>, head: string, content: seq<string>, after: seq<string>)
    requires Parts("Open", before, head, content, after)
    ensures SectionCount("Open", Toks(Closed, before)) == 0 && IsSection("Open", Tok(SectionHead, head)) && StartsAtHead(Toks(Closed, after))
  {
    hide SectionCount, NoSections;
    StartsAfter(after);
  }

  lemma PlaceholderSection(left: seq<string>)
    requires left == ["", "_None yet._", ""]
    ensures After(Closed, left) == Closed && NoSections(Toks(Closed, left)) && NoHeads(Toks(Closed, left))
  {
    hide Toks, After, Blank, KindOf;
    EmptyIsBlank();
    TrimVisible("_None yet._");
    PlaceholderIsInert(Closed, "_None yet._");
    OneTok(Closed, "_None yet._");
    PaddedHolds([""], ["_None yet._"], [""]);
    assert [""] + ["_None yet._"] + [""] == left;
  }

  lemma StartsAfter(after: seq<string>)
    requires after != [] ==> Toks(Closed, after)[0].kind == SectionHead
    ensures StartsAtHead(Toks(Closed, after))
  {
    if after == [] {
      EmptyDoc();
    }
  }

  lemma SoundBodyIs(body: seq<string>)
    ensures SoundBody(body) <==> NoHeads(Toks(Closed, body)) && After(Closed, body) == Closed
  {
  }

  /** A block's lines, as part of the section's content. */
  lemma BlockAt(lines: seq<string>, r: Scan, k: nat) returns (p: nat, stop: nat)
    requires Scanned(lines, r) && r.Scan? && k < |r.blocks|
    ensures var b := r.blocks[k];
      && r.openIdx < b.start < b.end <= r.openEnd <= |lines|
      && b.start == r.openIdx + 1 + p && b.end == r.openIdx + 1 + stop
      && var before, head, content, after := lines[..r.openIdx], lines[r.openIdx], lines[r.openIdx + 1..r.openEnd], lines[r.openEnd..];
         && Parts("Open", before, head, content, after) && lines == before + [head] + content + after
         && ContentEntry("Open", content, k, p, stop)
         && b.title == Entries("Open", true, Toks(Closed, content))[k].Title()
         && lines[b.start] == content[p] && lines[b.start + 1..b.end] == content[p + 1..stop]
  {
    hide *;
    ScanFacts(lines, r);
    var h, end := r.openIdx, r.openEnd;
    SectionParts("Open", lines);
    var content := lines[h + 1..end];
    PartsHoldNoSections("Open", lines[..h], lines[h], content, lines[end..]);
    p, stop := LocateInContent("Open", content, h + 1, k);
    AsRangesAt(r.blocks, k);
    ContentEntryFacts("Open", content, k, p, stop);
    SliceOfSlice(lines, h + 1, end, p, stop);
  }

  lemma ScanFacts(lines: seq<string>, r: Scan)
    requires Scanned(lines, r) && r.Scan?
    ensures r.openIdx == FirstSection("Open", Toks(Closed, lines)) < |lines|
    ensures r.openEnd == r.openIdx + 1 + NextSection(Toks(Closed, lines[r.openIdx + 1..])) <= |lines|
    ensures AsRanges(r.blocks) == RangesFrom("Open", true, Toks(Closed, lines[r.openIdx + 1..r.openEnd]), r.openIdx + 1, r.openEnd)
    ensures r.fenceOpen <==> After(Closed, lines[r.openIdx + 1..r.openEnd]) != Closed
  {
    hide Toks, After, FirstSection, NextSection, RangesFrom, AsRanges;
  }

  lemma ScanAnswered(lines: seq<string>, r: Scan)
    requires Scanned(lines, r) && r.Scan?
    ensures r.answeredIdx == -1 <==> FirstSection("Answered", Toks(Closed, lines)) == |lines|
  {
    hide Toks, After, FirstSection, NextSection, RangesFrom, AsRanges;
  }

  lemma SliceAt<T>(s: seq<T>, lo: nat, hi: nat, i: nat, j: nat)
    requires lo <= hi <= |s| && i <= j <= hi - lo
    ensures s[lo..hi][i..j] == s[lo + i..lo + j]
  {
    var x, y := s[lo..hi][i..j], s[lo + i..lo + j];
    assert |x| == |y|;
    assert forall m | 0 <= m < |x| :: x[m] == y[m];
  }

  lemma SliceOfSlice<T>(s: seq<T>, lo: nat, hi: nat, p: nat, stop: nat)
    requires lo <= hi <= |s| && p < stop <= hi - lo
    ensures var c := s[lo..hi];
      && c[p] == s[lo + p] && c[p + 1..stop] == s[lo + p + 1..lo + stop]
      && c[..p] == s[lo..lo + p] && c[stop..] == s[lo + stop..hi]
  {
    SliceAt(s, lo, hi, 0, p);
    SliceAt(s, lo, hi, p + 1, stop);
    SliceAt(s, lo, hi, stop, hi - lo);
  }

  lemma PartsHoldNoSections(t: string, before: seq<string>, head: string, content: seq<string>, after: seq<string>)
    requires Parts(t, before, head, content, after)
    ensures NoSections(Toks(Closed, content))
  {
  }

  /** The cut leaves every other section, every section heading and the final fence state as they
      were, and removes exactly the `k`th open entry. */
  ghost predicate CutDone(lines: seq<string>, k: nat, rebuilt: seq<string>) {
    && (forall u | u != "Open" :: Read(u, rebuilt) == Read(u, lines))
    && (forall u :: SectionCount(u, Toks(Closed, rebuilt)) == SectionCount(u, Toks(Closed, lines)))
    && After(Closed, rebuilt) == After(Closed, lines)
    && (Once("Open", lines) ==> k < |Read("Open", lines)| && Read("Open", rebuilt) == Removed(Read("Open", lines), k))
  }

  lemma CutReadsParts(before: seq<string>, head: string, content: seq<string>, after: seq<string>, k: nat, p: nat, stop: nat)
    requires Parts("Open", before, head, content, after) && ContentEntry("Open", content, k, p, stop)
    requires After(Closed, content) == Closed
    ensures p <= stop <= |content|
    ensures CutDone(Whole(before, head, content, after), k, Whole(before, head, CutContent(content, p, stop), after))
    ensures After(Closed, content[p + 1..stop]) == Closed
  {
    hide Toks, After, Entries, SectionCount, NoSections, ContentEntry, Whole, Read, CutBlank, CutContent;
    CutContentReads("Open", content, k, p, stop);
    ContentEntryFacts("Open", content, k, p, stop);
    var cut := CutContent(content, p, stop);
    ReplaceContent("Open", before, head, content, cut, after);
    WholeToks("Open", before, head, cut, after);
    WholeToks("Open", before, head, content, after);
    forall u ensures SectionCount(u, Toks(Closed, Whole(before, head, cut, after))) == SectionCount(u, Toks(Closed, Whole(before, head, content, after))) {
      CountOfWhole("Open", u, before, head, cut, after);
      CountOfWhole("Open", u, before, head, content, after);
    }
    if Once("Open", Whole(before, head, content, after)) {
      OnceAfter("Open", before, head, content, after);
      var es := Entries("Open", true, Toks(Closed, content));
      assert Removed(es, k) + [] == Removed(es, k);
    }
  }

  lemma ContentEntryFacts(t: string, content: seq<string>, k: nat, p: nat, stop: nat)
    requires ContentEntry(t, content, k, p, stop)
    ensures IsEntryHead(content[p]) && NoHeads(Toks(Closed, content[p + 1..stop])) && p < stop <= |content|
    ensures k < |Entries(t, true, Toks(Closed, content))|
    ensures Entries(t, true, Toks(Closed, content))[k] == Entry(content[p], CutBlank(Toks(Closed, content[p + 1..stop])))
  {
  }

  lemma CutPieces<T>(s: seq<T>, h: nat, end: nat, i: nat, j: nat)
    requires h < i < j <= end <= |s|
    ensures s[..h + 1] == s[..h] + [s[h]]
    ensures s[..i] + s[j..] == s[..h] + [s[h]] + (s[h + 1..i] + s[j..end]) + s[end..]
  {
    assert s[..i] == s[..h] + [s[h]] + s[h + 1..i];
    assert s[j..] == s[j..end] + s[end..];
  }

  lemma CutWhole(lines: seq<string>, h: nat, end: nat, b: Block, p: nat, stop: nat)
    requires h < b.start < b.end <= end <= |lines| && b.start == h + 1 + p && b.end == h + 1 + stop
    ensures CutOpenBlock(lines, h, end, b) == Whole(lines[..h], lines[h], CutContent(lines[h + 1..end], p, stop), lines[end..])
  {
    var content := lines[h + 1..end];
    SliceOfSlice(lines, h + 1, end, p, stop);
    CutPieces(lines, h, end, b.start, b.end);
    CutEither(content[..p] + content[stop..], lines, h, end, b, content, p, stop);
  }

  lemma CutEither(left: seq<string>, lines: seq<string>, h: nat, end: nat, b: Block, content: seq<string>, p: nat, stop: nat)
    requires h < b.start < b.end <= end <= |lines| && p < stop <= |content|
    requires left == content[..p] + content[stop..] == lines[h + 1..b.start] + lines[b.end..end]
    requires lines[..h + 1] == lines[..h] + [lines[h]]
    requires lines[..b.start] + lines[b.end..] == lines[..h] + [lines[h]] + left + lines[end..]
    ensures CutOpenBlock(lines, h, end, b) == lines[..h] + [lines[h]] + CutContent(content, p, stop) + lines[end..]
  {
    hide Blank;
  }

  // ---------------------------------------------------------------- appending to ## Answered

  function StampLine(today: string): string {
    "**Answered " + today + " by the user:**"
  }

  /** The stamp and the decision: on one line, or the stamp and then the decision's lines. */
  function Stamped(today: string, decision: seq<string>): seq<string>
    requires decision != []
  {
    if |decision| > 1 then [StampLine(today), ""] + decision else [StampLine(today) + " " + decision[0]]
  }

  /** The answered question, line by line: its heading, its body, a blank line, then the stamp with a
      one-line decision behind it, or the stamp, a blank line and the decision's lines. */
  ghost predicate AnsweredLines(q: Entry, today: string, decision: seq<string>, e: Entry)
    requires decision != []
  {
    var stamp := "**Answered " + today + " by the user:**";
    && e.head == q.head && q.body <= e.body
    && LinesOf(e.body) == LinesOf(q.body) + [""] +
         (if |decision| == 1 then [stamp + " " + decision[0]]
          else if DropTrailing(decision) == [] then [stamp]
          else [stamp, ""] + DropTrailing(decision))
  }

  lemma {:induction false} CutBlankLines(toks: seq<Tok>)
    ensures LinesOf(CutBlank(toks)) == DropTrailing(LinesOf(toks))
  {
    hide Blank;
    var n := |toks| - 1;
    if toks != [] {
      assert toks == toks[..n] + [toks[n]];
      LinesOfConcat(toks[..n], [toks[n]]);
      LinesOfAt(toks, n);
      if Blank(toks[n].line) {
        assert LinesOf(toks)[..n] == LinesOf(toks[..n]);
        CutBlankLines(toks[..n]);
      }
    }
  }

  /** The moved entry ends with the answer, nothing of it lost. */
  lemma AnswerIsHeld(q: Entry, today: string, decision: seq<string>)
    requires decision != []
    ensures AnsweredLines(q, today, decision, AnsweredEntry(q, Stamped(today, decision)))
  {
    hide Toks, CutBlank, DropTrailing, Blank, Stamped, StampLine, LinesOf;
    var stamped := Stamped(today, decision);
    var toks := Toks(Closed, [""] + stamped);
    CutBlankLines(q.body + toks);
    LinesOfConcat(q.body, toks);
    LinesOfToks(Closed, [""] + stamped);
    StampedLines(LinesOf(q.body), today, decision);
    LinesOfAt(toks, 1);
    assert toks[1].line == stamped[0];
    VisibleKept(q.body, toks, 1);
    StampLineIs(today);
  }

  lemma StampLineIs(today: string)
    ensures StampLine(today) == "**Answered " + today + " by the user:**"
  {
  }

  lemma StampedLines(body: seq<string>, today: string, decision: seq<string>)
    requires decision != []
    ensures var stamped, stamp := Stamped(today, decision), StampLine(today);
      && stamped != [] && !Blank(stamped[0])
      && DropTrailing(body + ([""] + stamped)) == body + [""] +
           (if |decision| == 1 then [stamp + " " + decision[0]]
            else if DropTrailing(decision) == [] then [stamp]
            else [stamp, ""] + DropTrailing(decision))
  {
    hide DropTrailing, Blank, StampLine;
    var stamp := StampLine(today);
    StarStamp(today, " " + decision[0]);
    if |decision| == 1 {
      assert stamp + " " + decision[0] == stamp + (" " + decision[0]);
      OneLineStamped(body, stamp + " " + decision[0]);
    } else {
      LinesStamped(body, stamp, decision);
    }
  }

  lemma OneLineStamped(body: seq<string>, v: string)
    requires !Blank(v)
    ensures DropTrailing(body + ([""] + [v])) == body + [""] + [v]
  {
    hide DropTrailing, Blank;
    AllBlankDrop([]);
    VisibleThenRest(body, v, []);
    assert [v] + [] == [v];
  }

  lemma LinesStamped(body: seq<string>, v: string, decision: seq<string>)
    requires !Blank(v)
    ensures DropTrailing(body + ([""] + ([v, ""] + decision)))
         == body + [""] + if DropTrailing(decision) == [] then [v] else [v, ""] + DropTrailing(decision)
  {
    hide DropTrailing, Blank;
    AllBlankDrop(decision);
    VisibleThenRest(body, v, [""] + decision);
    assert [v] + ([""] + decision) == [v, ""] + decision && [v] + [] == [v];
    assert [v] + ([""] + DropTrailing(decision)) == [v, ""] + DropTrailing(decision);
  }

  lemma VisibleThenRest(body: seq<string>, v: string, rest: seq<string>)
    requires !Blank(v)
    ensures DropTrailing(body + ([""] + ([v] + rest))) == body + [""] + ([v] + DropTrailing(rest))
  {
    hide DropTrailing, Blank;
    var front := body + [""] + [v];
    assert body + ([""] + ([v] + rest)) == front + rest;
    DropTrailingAfter(front, rest);
    assert front + DropTrailing(rest) == body + [""] + ([v] + DropTrailing(rest));
  }

  lemma StarStamp(today: string, more: string)
    ensures !Blank(StampLine(today)) && !Blank(StampLine(today) + more)
  {
    StarLine(StampLine(today));
    StarLine(StampLine(today) + more);
  }

  /** Behind a blank line the trailing blank lines go as they would alone. */
  lemma AllBlankDrop(decision: seq<string>)
    ensures DropTrailing([]) == []
    ensures DropTrailing([""] + decision) == if DropTrailing(decision) == [] then [] else [""] + DropTrailing(decision)
    decreases |decision|
  {
    hide Blank;
    EmptyIsBlank();
    if decision == [] {
      assert [""] + decision == [""] && [""][..0] == [];
    } else {
      var n := |decision| - 1;
      assert ([""] + decision)[..n + 1] == [""] + decision[..n];
      if Blank(decision[n]) {
        AllBlankDrop(decision[..n]);
      }
    }
  }

  lemma VisibleKept(a: seq<Tok>, b: seq<Tok>, i: nat)
    requires i < |b| && !Blank(b[i].line)
    ensures a <= CutBlank(a + b)
  {
    hide Blank, CutBlank;
    CutBlankReaches(a + b, |a| + i);
  }

  lemma StarLine(line: string)
    requires line != "" && line[0] == '*'
    ensures SoundBody([line]) && !Blank(line)
  {
    TrimFirst(line, 0);
    NotAMarker(line);
    OneTok(Closed, line);
  }

  /** A one-line decision is always sound; a longer one is when its lines are. */
  lemma StampedSound(today: string, decision: seq<string>)
    requires decision != [] && (|decision| > 1 ==> SoundBody(decision))
    ensures SoundBody(Stamped(today, decision))
  {
    hide Toks, After, Blank, NoHeads;
    if |decision| > 1 {
      StarLine(StampLine(today));
      EmptyIsBlank();
      PadsAround([], [StampLine(today)], [""]);
      assert [] + [StampLine(today)] + [""] == [StampLine(today), ""];
      PadsAround([""], decision, []);
      assert [""] + decision + [] == [""] + decision;
      EmptyDoc();
      NoHeadsOf(Toks(Closed, [""]), Toks(Closed, decision), Toks(After(Closed, decision), []));
      SoundConcat([StampLine(today)], [""] + decision);
      assert [StampLine(today)] + ([""] + decision) == Stamped(today, decision);
    } else {
      StarLine(StampLine(today) + " " + decision[0]);
    }
  }

  lemma NoHeadsOf(a: seq<Tok>, b: seq<Tok>, c: seq<Tok>)
    requires NoHeads(a) && NoHeads(b) && NoHeads(c)
    ensures NoHeads(a + b + c)
  {
  }

  lemma SoundConcat(a: seq<string>, b: seq<string>)
    requires SoundBody(a) && NoHeads(Toks(Closed, b)) && After(Closed, b) == Closed
    ensures SoundBody(a + b)
  {
    hide Toks, After;
    ToksConcat(Closed, a, b);
  }

  /** The entry `## Answered` gains: the question's heading and body, then the stamped answer. */
  function AnsweredEntry(q: Entry, stamped: seq<string>): Entry {
    Entry(q.head, CutBlank(q.body + Toks(Closed, [""] + stamped)))
  }

  /** The answered block's lines under its heading. */
  function AnswerBody(body: seq<string>, stamped: seq<string>): seq<string> {
    DropTrailing(body) + [""] + stamped + [""]
  }

  lemma AnswerBodyReads(head: string, body: seq<string>, stamped: seq<string>)
    requires SoundBody(body) && SoundBody(stamped)
    ensures SoundBody(AnswerBody(body, stamped))
    ensures Entry(head, CutBlank(Toks(Closed, AnswerBody(body, stamped)))) == AnsweredEntry(Entry(head, CutBlank(Toks(Closed, body))), stamped)
  {
    hide Toks, After, Blank, NoHeads, CutBlank, DropTrailing;
    var kept := DropTrailing(body);
    DropTrailingToks(Closed, body);
    KeptSound(body);
    EmptyIsBlank();
    PadsAround([""], stamped, []);
    PadsAround([""], stamped, [""]);
    EmptyDoc();
    assert [""] + stamped + [] == [""] + stamped;
    var ts, tq := Toks(Closed, [""] + stamped), Toks(Closed, [""]);
    assert Toks(Closed, [""]) + Toks(Closed, stamped) + [] == Toks(Closed, [""]) + Toks(Closed, stamped);
    NoHeadsOf(Toks(Closed, [""]), Toks(Closed, stamped), tq);
    SoundConcat(kept, [""] + stamped + [""]);
    assert kept + ([""] + stamped + [""]) == AnswerBody(body, stamped);
    ToksConcat(Closed, kept, [""] + stamped + [""]);
    assert Toks(Closed, kept) + (ts + tq) == Toks(Closed, kept) + ts + tq;
    CutBlankPad(Toks(Closed, kept) + ts, tq);
  }

  lemma KeptSound(body: seq<string>)
    requires SoundBody(body)
    ensures SoundBody(DropTrailing(body))
  {
    hide Toks, After, Blank, NoHeads, DropTrailing;
    var kept := DropTrailing(body);
    var q := body[|kept|..];
    assert body == [] + kept + q && [] + kept == kept;
    PadsAround([], kept, q);
    EmptyDoc();
    assert [] + Toks(Closed, kept) == Toks(Closed, kept);
    NoHeadsPrefix(Toks(Closed, kept), Toks(After(Closed, kept), q));
  }

  /** `## Answered` rebuilt: its lines without placeholders and trailing blanks, then the block. */
  lemma AnsweredReads(content: seq<string>, filtered: seq<string>, head: string, body: seq<string>, stamped: seq<string>)
    requires Toks(Closed, filtered) == Without(Toks(Closed, content), false) && After(Closed, filtered) == After(Closed, content) == Closed
    requires NoSections(Toks(Closed, content)) && IsEntryHead(head) && SoundBody(body) && SoundBody(stamped)
    ensures var all := DropTrailing(filtered) + [""] + [head] + AnswerBody(body, stamped);
      && After(Closed, all) == Closed && NoSections(Toks(Closed, all))
      && Entries("Answered", true, Toks(Closed, all)) == Strips(Entries("Answered", true, Toks(Closed, content)), false)
           + [AnsweredEntry(Entry(head, CutBlank(Toks(Closed, body))), stamped)]
  {
    hide Toks, After, Entries, Without, Strips, CutBlank, IsEntryHead, InsideAfter, SoundBody, Blank, AnswerBody, DropTrailing, AnsweredEntry, NoHeads;
    EntriesWithout("Answered", true, Toks(Closed, content), false);
    WithoutKeeps(Toks(Closed, content), false);
    var kept := DropTrailing(filtered);
    var q := filtered[|kept|..];
    assert filtered == [] + kept + q && [] + kept == kept;
    PaddedEntries("Answered", true, [], kept, q);
    EmptyIsBlank();
    AnswerBodyReads(head, body, stamped);
    SoundBodyIs(AnswerBody(body, stamped));
    EntryAfter("Answered", kept, [""], head, AnswerBody(body, stamped));
  }

  ghost predicate AnswerDone(lines: seq<string>, k: nat, stamped: seq<string>, out: seq<string>) {
    && k < |Read("Open", lines)|
    && Read("Open", out) == Removed(Read("Open", lines), k)
    && Read("Answered", out) == Strips(Read("Answered", lines), false) + [AnsweredEntry(Read("Open", lines)[k], stamped)]
    && forall u | u != "Open" && u != "Answered" :: Read(u, out) == Read(u, lines)
  }

  /** The walk through `## Answered`: its heading, the lines without real placeholders, its end. */
  ghost predicate AnsweredWalk(rebuilt: seq<string>, h: nat, filtered: seq<string>, end: nat) {
    && h < end <= |rebuilt| && h == FirstSection("Answered", Toks(Closed, rebuilt))
    && end == h + 1 + NextSection(Toks(Closed, rebuilt[h + 1..]))
    && Toks(Closed, filtered) == Without(Toks(Closed, rebuilt[h + 1..end]), false)
    && After(Closed, filtered) == After(Closed, rebuilt[h + 1..end])
  }

  /** The loop of `appendAnsweredEntry`: find the heading, then drop the section's real placeholders. */
  method WalkAnswered(rebuilt: seq<string>, fenced: FenceTracker) returns (h: nat, filtered: seq<string>, end: nat)
    requires FirstSection("Answered", Toks(Closed, rebuilt)) < |rebuilt| && fenced.fence == Closed
    modifies fenced
    ensures AnsweredWalk(rebuilt, h, filtered, end)
    ensures end == |rebuilt| ==> fenced.fence == After(Closed, rebuilt[h + 1..end])
    ensures end < |rebuilt| ==> fenced.fence == Closed
  {
    hide *;
    assert rebuilt[0..] == rebuilt;
    ghost var hit := FirstSection("Answered", Toks(Closed, rebuilt));
    h := 0;
    while true
      invariant 0 <= h <= hit < |rebuilt|
      invariant hit == h + FirstSection("Answered", Toks(fenced.fence, rebuilt[h..]))
      decreases |rebuilt| - h
    {
      ghost var f := fenced.fence;
      FirstSectionStep("Answered", f, rebuilt, h);
      Refeed(f, rebuilt[h]);
      var inside := fenced.Feed(rebuilt[h]);
      if !inside {
        var title := fenced.HeadingTitle(rebuilt[h], "## ");
        if title == Titled("Answered") {
          break;
        }
      }
      h := h + 1;
    }
    assert fenced.fence == Closed;
    filtered := [];
    end := h + 1;
    NothingFiltered();
    ghost var content := rebuilt[h + 1..];
    assert content[0..] == content && content[..0] == [];
    while end < |rebuilt|
      invariant h < end <= |rebuilt|
      invariant fenced.fence == After(Closed, content[..end - h - 1])
      invariant h + 1 + NextSection(Toks(Closed, content)) == end + NextSection(Toks(fenced.fence, content[end - h - 1..]))
      invariant Toks(Closed, filtered) == Without(Toks(Closed, content[..end - h - 1]), false)
      invariant After(Closed, filtered) == After(Closed, content[..end - h - 1])
    {
      var line := rebuilt[end];
      ghost var f, j := fenced.fence, end - h - 1;
      assert content[j] == line && content[..j + 1] == content[..j] + [line];
      NextSectionStep(f, content, j);
      FilterStep(content[..j], filtered, line, false);
      KeptOrDropped(f, line);
      AfterConcat(Closed, content[..j], [line]);
      OneTok(f, line);
      Refeed(f, line);
      var inside := fenced.Feed(line);
      if inside {
        filtered := filtered + [line];
      } else {
        var title := fenced.HeadingTitle(line, "## ");
        if title.Titled? {
          assert content[..j] == rebuilt[h + 1..end];
          WalkEnds(rebuilt, h, filtered, end);
          return;
        }
        if Trim(line) != "_None yet._" {
          filtered := filtered + [line];
        }
      }
      end := end + 1;
    }
    assert content[end - h - 1..] == [] && content[..end - h - 1] == rebuilt[h + 1..end];
    NoNextSection(fenced.fence);
    WalkEnds(rebuilt, h, filtered, end);
  }

  lemma WalkEnds(rebuilt: seq<string>, h: nat, filtered: seq<string>, end: nat)
    requires h < end <= |rebuilt| && h == FirstSection("Answered", Toks(Closed, rebuilt))
    requires end == h + 1 + NextSection(Toks(Closed, rebuilt[h + 1..]))
    requires Toks(Closed, filtered) == Without(Toks(Closed, rebuilt[h + 1..end]), false)
    requires After(Closed, filtered) == After(Closed, rebuilt[h + 1..end])
    ensures AnsweredWalk(rebuilt, h, filtered, end)
  {
    hide Toks, After, FirstSection, NextSection, Without;
  }

  lemma NoNextSection(f: Fence)
    ensures NextSection(Toks(f, [])) == 0
  {
  }

  lemma NextSectionStep(f: Fence, lines: seq<string>, i: nat)
    requires i < |lines|
    ensures NextSection(Toks(f, lines[i..])) ==
      if !Inside(f, lines[i]) && "## " <= lines[i] then 0 else 1 + NextSection(Toks(Next(f, lines[i]), lines[i + 1..]))
  {
    ToksCons(f, lines, i);
    var k, rest := Tok(KindOf(f, lines[i]), lines[i]), Toks(Next(f, lines[i]), lines[i + 1..]);
    assert ([k] + rest)[1..] == rest;
  }

  /** Asking the tracker about an unfenced line again, however often, leaves it outside. */
  lemma Refeed(f: Fence, line: string)
    ensures !Inside(f, line) ==> f == Closed && Next(f, line) == Closed
  {
  }

  // ---------------------------------------------------------------- the whole answer

  lemma {:induction false} DropTrailingAfter(a: seq<string>, b: seq<string>)
    requires a != [] && !Blank(a[|a| - 1])
    ensures DropTrailing(a + b) == a + DropTrailing(b)
    decreases |b|
  {
    hide Blank;
    if b == [] {
      assert a + b == a;
      assert DropTrailing(b) == [] && a + [] == a;
    } else {
      assert (a + b)[..|a + b| - 1] == a + b[..|b| - 1];
      if Blank(b[|b| - 1]) {
        DropTrailingAfter(a, b[..|b| - 1]);
      }
    }
  }

  lemma {:induction false} NextSectionAcross(a: seq<Tok>, b: seq<Tok>)
    requires NoSections(a) && (b == [] || b[0].kind == SectionHead)
    ensures NextSection(a + b) == |a|
  {
    if a == [] {
      assert a + b == b;
    } else {
      assert a[0] in a && (a + b)[1..] == a[1..] + b;
      NextSectionAcross(a[1..], b);
    }
  }

  /** With `## Answered` closed, the insertion point is its end and the trims touch only blanks there. */
  lemma InsertionPoint(rebuilt: seq<string>, h: nat, filtered: seq<string>, end: nat)
    requires AnsweredWalk(rebuilt, h, filtered, end) && After(Closed, rebuilt) == Closed
    ensures Parts("Answered", rebuilt[..h], rebuilt[h], rebuilt[h + 1..end], rebuilt[end..])
    ensures Whole(rebuilt[..h], rebuilt[h], rebuilt[h + 1..end], rebuilt[end..]) == rebuilt
    ensures After(Closed, rebuilt[h + 1..end]) == Closed
    ensures NextSection(Toks(Closed, filtered + rebuilt[end..])) == |filtered|
    ensures !Blank(rebuilt[h]) && (rebuilt[end..] != [] ==> !Blank(rebuilt[end]))
  {
    hide Toks, After, FirstSection, NextSection, Without, SectionCount, NoSections, Whole, Blank, KindOf, Next;
    SectionParts("Answered", rebuilt);
    var before, head, content, after := rebuilt[..h], rebuilt[h], rebuilt[h + 1..end], rebuilt[end..];
    WholeIs(before, head, content, after);
    ContentCloses("Answered", before, head, content, after);
    WithoutKeeps(Toks(Closed, content), false);
    NoSectionsWithout(Toks(Closed, content));
    ToksConcat(Closed, filtered, after);
    NextSectionAcross(Toks(Closed, filtered), Toks(Closed, after));
    HeadIsOutside(Closed, head);
    if after != [] {
      FirstToks(after);
      HeadIsOutside(Closed, after[0]);
    }
  }

  lemma NoSectionsWithout(toks: seq<Tok>)
    requires NoSections(toks)
    ensures NoSections(Without(toks, false))
  {
    WithoutKeeps(toks, false);
  }

  lemma FirstToks(lines: seq<string>)
    requires lines != []
    ensures Toks(Closed, lines)[0] == Tok(KindOf(Closed, lines[0]), lines[0])
  {
  }

  /** `## Answered` of the cut document gains the block as its last entry. */
  lemma AnsweredGains(rebuilt: seq<string>, h: nat, filtered: seq<string>, end: nat, head: string, body: seq<string>, stamped: seq<string>)
    requires AnsweredWalk(rebuilt, h, filtered, end) && After(Closed, rebuilt) == Closed && Once("Answered", rebuilt)
    requires IsEntryHead(head) && SoundBody(body) && SoundBody(stamped)
    ensures var out := rebuilt[..h + 1] + DropTrailing(filtered) + [""] + ([head] + AnswerBody(body, stamped)) + rebuilt[end..];
      && Read("Answered", out) == Strips(Read("Answered", rebuilt), false) + [AnsweredEntry(Entry(head, CutBlank(Toks(Closed, body))), stamped)]
      && forall u | u != "Answered" :: Read(u, out) == Read(u, rebuilt)
  {
    hide *;
    InsertionPoint(rebuilt, h, filtered, end);
    WalkFacts(rebuilt, h, filtered, end);
    var before, sec, content, after := rebuilt[..h], rebuilt[h], rebuilt[h + 1..end], rebuilt[end..];
    PartsHoldNoSections("Answered", before, sec, content, after);
    AnsweredReads(content, filtered, head, body, stamped);
    var all := DropTrailing(filtered) + [""] + [head] + AnswerBody(body, stamped);
    ReplaceContent("Answered", before, sec, content, all, after);
    OnceAfter("Answered", before, sec, content, after);
    WholeIs(before, sec, all, after);
    assert rebuilt[..h + 1] == before + [sec];
    Rejoin(before, sec, DropTrailing(filtered), head, AnswerBody(body, stamped), after);
    assert Entries("Answered", true, Toks(Closed, all)) + [] == Entries("Answered", true, Toks(Closed, all));
  }

  lemma WalkFacts(rebuilt: seq<string>, h: nat, filtered: seq<string>, end: nat)
    requires AnsweredWalk(rebuilt, h, filtered, end)
    ensures h < end <= |rebuilt|
    ensures Toks(Closed, filtered) == Without(Toks(Closed, rebuilt[h + 1..end]), false)
    ensures After(Closed, filtered) == After(Closed, rebuilt[h + 1..end])
  {
    hide Toks, After, FirstSection, NextSection, Without;
  }

  lemma Rejoin(before: seq<string>, sec: string, kept: seq<string>, head: string, tail: seq<string>, after: seq<string>)
    ensures before + [sec] + (kept + [""] + [head] + tail) + after == before + [sec] + kept + [""] + ([head] + tail) + after
  {
  }

  /** A file without `## Answered` gains the section, holding the block. */
  lemma AnsweredGrows(rebuilt: seq<string>, head: string, body: seq<string>, stamped: seq<string>)
    requires rebuilt != [] && After(Closed, rebuilt) == Closed && SectionCount("Answered", Toks(Closed, rebuilt)) == 0
    requires IsEntryHead(head) && SoundBody(body) && SoundBody(stamped)
    ensures var base := if rebuilt[|rebuilt| - 1] == "" then rebuilt else rebuilt + [""];
      var out := base + ["## Answered", ""] + ([head] + AnswerBody(body, stamped));
      && Read("Answered", out) == Strips(Read("Answered", rebuilt), false) + [AnsweredEntry(Entry(head, CutBlank(Toks(Closed, body))), stamped)]
      && forall u | u != "Answered" :: Read(u, out) == Read(u, rebuilt)
  {
    hide Toks, After, Entries, SectionCount, NoSections, Read, IsEntryHead, SoundBody, AnswerBody, AnsweredEntry, CutBlank, KindOf, Next, Blank, Trim, Whole;
    var base := if rebuilt[|rebuilt| - 1] == "" then rebuilt else rebuilt + [""];
    EmptyIsBlank();
    PaddedEntriesAll(rebuilt, [""]);
    NoSectionNoEntries("Answered", Toks(Closed, rebuilt));
    AnswerBodyReads(head, body, stamped);
    assert Trim("Answered") == "Answered" by { TrimVisible("Answered"); }
    SectionHeading("Answered");
    EntryBefore("Answered", [""], head, AnswerBody(body, stamped), []);
    EmptyDoc();
    EmptyReads("Answered");
    var content := [""] + [head] + AnswerBody(body, stamped);
    assert content + [] == content;
    assert Toks(Closed, AnswerBody(body, stamped)) + [] == Toks(Closed, AnswerBody(body, stamped));
    assert "## " + "Answered" == "## Answered";
    assert Parts("Answered", base, "## Answered", content, []);
    WholeIs(base, "## Answered", content, []);
    assert base + ["## Answered"] + content + [] == base + ["## Answered", ""] + ([head] + AnswerBody(body, stamped));
    ReadIs("Answered", rebuilt);
    StripsOfNothing();
    forall u ensures Read(u, Whole(base, "## Answered", content, []))
      == if u == "Answered" then Entries("Answered", true, Toks(Closed, content)) else Read(u, rebuilt)
    {
      ReadParts("Answered", u, base, "## Answered", content, []);
      ReadIs(u, base);
      assert Entries(u, false, Toks(Closed, [])) == [];
    }
  }

  lemma CountOpen(lines: seq<string>, r: Scan)
    requires Scanned(lines, r)
    ensures Once("Open", lines) ==> |Read("Open", lines)| == if r.Scan? then |r.blocks| else 0
  {
    hide *;
    if r.Scan? && Once("Open", lines) {
      BlocksAreEntries(lines, r, |r.blocks|);
    }
    NoOpenNoEntries(lines, r);
  }

  lemma NoOpenNoEntries(lines: seq<string>, r: Scan)
    requires Scanned(lines, r)
    ensures r == NoOpenSection ==> Read("Open", lines) == []
  {
    hide Toks, After, FirstSection, NextSection, AsRanges, RangesFrom, Entries, SectionCount;
    FirstSectionIsFirst("Open", Toks(Closed, lines));
    if r == NoOpenSection {
      NoSectionNoEntries("Open", Toks(Closed, lines));
    }
  }

  lemma FencedIffNotClosed(lines: seq<string>, r: Scan)
    requires Scanned(lines, r) && r.Scan?
    ensures r.fenceOpen <==> !Closes("Open", lines)
  {
    hide Toks, After, FirstSection, NextSection, AsRanges, RangesFrom;
  }

  /** A fence left open in `## Open` runs to the end of the file. */
  lemma OpenFenceReachesEnd(lines: seq<string>, r: Scan)
    requires Scanned(lines, r) && r.Scan? && r.fenceOpen
    ensures After(Closed, lines) != Closed
  {
    hide *;
    ScanFacts(lines, r);
    SectionParts("Open", lines);
    var before, head, content, after := lines[..r.openIdx], lines[r.openIdx], lines[r.openIdx + 1..r.openEnd], lines[r.openEnd..];
    WholeIs(before, head, content, after);
    WholeToks("Open", before, head, content, after);
    PartsClose("Open", before, head, content, after);
  }

  lemma PartsClose(t: string, before: seq<string>, head: string, content: seq<string>, after: seq<string>)
    requires Parts(t, before, head, content, after)
    ensures after != [] ==> After(Closed, content) == Closed
  {
  }

  /** The moved lines and the answer, as one entry block. */
  lemma MovedBlock(moved: seq<string>, stamped: seq<string>)
    requires moved != [] && IsEntryHead(moved[0])
    ensures DropTrailing(moved) + [""] + stamped + [""] == [moved[0]] + AnswerBody(moved[1..], stamped)
  {
    hide DropTrailing, IsEntryHead, Blank;
    EntryHeadKind(moved[0]);
    assert moved == [moved[0]] + moved[1..];
    DropTrailingHead(moved[0], moved[1..]);
  }

  lemma SameAnswered(lines: seq<string>, rebuilt: seq<string>, k: nat)
    requires CutDone(lines, k, rebuilt)
    ensures FirstSection("Answered", Toks(Closed, rebuilt)) == |rebuilt| <==> FirstSection("Answered", Toks(Closed, lines)) == |lines|
    ensures Once("Answered", rebuilt) <==> Once("Answered", lines)
    ensures After(Closed, rebuilt) == After(Closed, lines)
  {
    hide Toks, After, FirstSection, Read, SectionCount;
    FirstSectionIsFirst("Answered", Toks(Closed, rebuilt));
    FirstSectionIsFirst("Answered", Toks(Closed, lines));
  }

  lemma AnswerComplete(lines: seq<string>, k: nat, q: Entry, stamped: seq<string>, rebuilt: seq<string>, out: seq<string>)
    requires CutDone(lines, k, rebuilt) && Once("Open", lines) && k < |Read("Open", lines)| && Read("Open", lines)[k] == q
    requires Gained(rebuilt, q, stamped, out)
    ensures AnswerDone(lines, k, stamped, out)
  {
    hide Toks, After, Read, SectionCount, Strips, AnsweredEntry;
  }

  /** `## Answered` gained one entry at its end, losing its real placeholders; no other section changed. */
  ghost predicate Gained(rebuilt: seq<string>, q: Entry, stamped: seq<string>, out: seq<string>) {
    && Read("Answered", out) == Strips(Read("Answered", rebuilt), false) + [AnsweredEntry(q, stamped)]
    && forall u | u != "Answered" :: Read(u, out) == Read(u, rebuilt)
  }

  /** The question is read last under `## Answered`, with its answer. */
  ghost predicate AnsweredLast(q: Entry, today: string, decision: seq<string>, out: seq<string>)
    requires decision != []
  {
    Read("Answered", out) != [] && AnsweredLines(q, today, decision, Read("Answered", out)[|Read("Answered", out)| - 1])
  }

  lemma GainedHolds(rebuilt: seq<string>, q: Entry, today: string, decision: seq<string>, out: seq<string>)
    requires decision != [] && Gained(rebuilt, q, Stamped(today, decision), out)
    ensures AnsweredLast(q, today, decision, out)
  {
    hide Read, Strips, AnsweredLines, AnsweredEntry, Stamped;
    AnswerIsHeld(q, today, decision);
  }

  /** The text written when the file had no `## Answered`. */
  function Grown(rebuilt: seq<string>, answerLines: seq<string>): seq<string>
    requires rebuilt != []
  {
    (if rebuilt[|rebuilt| - 1] == "" then rebuilt else rebuilt + [""]) + ["## Answered", ""] + answerLines
  }

  lemma GrownGains(rebuilt: seq<string>, moved: seq<string>, stamped: seq<string>, answerLines: seq<string>)
    requires rebuilt != [] && After(Closed, rebuilt) == Closed && FirstSection("Answered", Toks(Closed, rebuilt)) == |rebuilt|
    requires moved != [] && IsEntryHead(moved[0]) && SoundBody(moved[1..]) && SoundBody(stamped)
    requires answerLines == [moved[0]] + AnswerBody(moved[1..], stamped)
    ensures Gained(rebuilt, Entry(moved[0], CutBlank(Toks(Closed, moved[1..]))), stamped, Grown(rebuilt, answerLines))
  {
    hide Toks, After, FirstSection, Read, SectionCount, Strips, AnsweredEntry, AnswerBody, SoundBody, IsEntryHead, CutBlank;
    FirstSectionIsFirst("Answered", Toks(Closed, rebuilt));
    AnsweredGrows(rebuilt, moved[0], moved[1..], stamped);
  }

  lemma InsertedGains(rebuilt: seq<string>, h: nat, filtered: seq<string>, end: nat, moved: seq<string>, stamped: seq<string>,
                      answerLines: seq<string>, insertAt: nat)
    requires AnsweredWalk(rebuilt, h, filtered, end) && After(Closed, rebuilt) == Closed && Once("Answered", rebuilt)
    requires moved != [] && IsEntryHead(moved[0]) && SoundBody(moved[1..]) && SoundBody(stamped)
    requires answerLines == [moved[0]] + AnswerBody(moved[1..], stamped)
    requires insertAt == h + 1 + NextSection(Toks(Closed, filtered + rebuilt[end..]))
    ensures var stripped := rebuilt[..h + 1] + filtered + rebuilt[end..];
      && insertAt <= |stripped|
      && Gained(rebuilt, Entry(moved[0], CutBlank(Toks(Closed, moved[1..]))), stamped,
                DropTrailing(stripped[..insertAt]) + [""] + answerLines + DropLeading(stripped[insertAt..]))
  {
    hide *;
    WalkFacts(rebuilt, h, filtered, end);
    InsertionPoint(rebuilt, h, filtered, end);
    var stripped := rebuilt[..h + 1] + filtered + rebuilt[end..];
    assert stripped[..insertAt] == rebuilt[..h + 1] + filtered && stripped[insertAt..] == rebuilt[end..];
    DropTrailingAfter(rebuilt[..h + 1], filtered);
    NothingToDrop(rebuilt[end..]);
    AnsweredGains(rebuilt, h, filtered, end, moved[0], moved[1..], stamped);
    GainedIs(rebuilt, Entry(moved[0], CutBlank(Toks(Closed, moved[1..]))), stamped,
             rebuilt[..h + 1] + DropTrailing(filtered) + [""] + answerLines + rebuilt[end..]);
  }

  lemma GainedIs(rebuilt: seq<string>, q: Entry, stamped: seq<string>, out: seq<string>)
    requires Read("Answered", out) == Strips(Read("Answered", rebuilt), false) + [AnsweredEntry(q, stamped)]
    requires forall u | u != "Answered" :: Read(u, out) == Read(u, rebuilt)
    ensures Gained(rebuilt, q, stamped, out)
  {
  }

  lemma BodyAfterHead(lines: seq<string>, b: Block)
    requires b.start < b.end <= |lines|
    ensures lines[b.start..b.end][0] == lines[b.start] && lines[b.start..b.end][1..] == lines[b.start + 1..b.end]
  {
  }

  lemma NothingToDrop(lines: seq<string>)
    requires lines != [] ==> !Blank(lines[0])
    ensures DropLeading(lines) == lines
  {
  }

  lemma CutNotEmpty(lines: seq<string>, openIdx: nat, openEnd: nat, b: Block)
    requires openIdx < b.start < b.end <= openEnd <= |lines|
    ensures CutOpenBlock(lines, openIdx, openEnd, b) != []
  {
    hide Blank;
  }

  datatype AnswerOutcome = Missing(open: nat) | FencedOpen | OtherTitle(title: string) | Answered(lines: seq<string>, title: string)

  datatype Expected = AnyTitle | Exactly(title: string)

  /** `appendAnsweredEntry`: the moved block and the stamped decision at the end of `## Answered`,
      which the file gains when it has none. */
  method AppendAnswered(rebuilt: seq<string>, moved: seq<string>, decision: seq<string>, today: string, hasAnswered: bool) returns (out: seq<string>)
    requires rebuilt != [] && (hasAnswered <==> FirstSection("Answered", Toks(Closed, rebuilt)) < |rebuilt|)
    requires moved != [] && IsEntryHead(moved[0]) && SoundBody(moved[1..])
    requires decision != [] && (|decision| > 1 ==> SoundBody(decision))
    ensures After(Closed, rebuilt) == Closed && Once("Answered", rebuilt) ==>
              var q := Entry(moved[0], CutBlank(Toks(Closed, moved[1..])));
              Gained(rebuilt, q, Stamped(today, decision), out) && AnsweredLast(q, today, decision, out)
  {
    hide *;
    var stamped := Stamped(today, decision);
    StampedSound(today, decision);
    ghost var q := Entry(moved[0], CutBlank(Toks(Closed, moved[1..])));
    var kept := TrimTrailingBlankLines(moved);
    var answerLines := kept + [""] + stamped + [""];
    MovedBlock(moved, stamped);
    if !hasAnswered {
      out := Grown(rebuilt, answerLines);
      NoFirstSection("Answered", rebuilt);
      if After(Closed, rebuilt) == Closed {
        GrownGains(rebuilt, moved, stamped, answerLines);
        GainedHolds(rebuilt, q, today, decision, out);
      }
      return;
    }
    var fenced2 := new FenceTracker();
    var answeredAt, filtered, end := WalkAnswered(rebuilt, fenced2);
    WalkFacts(rebuilt, answeredAt, filtered, end);
    WalkCloses(rebuilt, answeredAt, filtered, end);
    var stripped := rebuilt[..answeredAt + 1] + filtered + rebuilt[end..];
    assert stripped[answeredAt + 1..] == filtered + rebuilt[end..];
    var insertAt := NextSectionHeading(stripped, answeredAt + 1, fenced2);
    var before := TrimTrailingBlankLines(stripped[..insertAt]);
    var after := TrimLeadingBlankLines(stripped[insertAt..]);
    out := before + [""] + answerLines + after;
    if After(Closed, rebuilt) == Closed && Once("Answered", rebuilt) {
      InsertedGains(rebuilt, answeredAt, filtered, end, moved, stamped, answerLines, insertAt);
      GainedHolds(rebuilt, q, today, decision, out);
    }
  }

  lemma NoFirstSection(t: string, lines: seq<string>)
    ensures FirstSection(t, Toks(Closed, lines)) <= |lines|
  {
  }

  lemma WalkCloses(rebuilt: seq<string>, h: nat, filtered: seq<string>, end: nat)
    requires AnsweredWalk(rebuilt, h, filtered, end)
    ensures After(Closed, rebuilt) == Closed ==> After(Closed, rebuilt[h + 1..end]) == Closed
  {
    hide *;
    WalkFacts(rebuilt, h, filtered, end);
    if After(Closed, rebuilt) == Closed {
      InsertionPoint(rebuilt, h, filtered, end);
    }
  }

  /** `answerQuestionLocked` on the file's lines: `decision` is the folded or normalized decision's
      lines, `today` the local date. */
  method AnswerQuestion(lines: seq<string>, n: int, decision: seq<string>, expected: Expected, today: string) returns (r: AnswerOutcome)
    requires decision != [] && (|decision| > 1 ==> SoundBody(decision))
    ensures Once("Open", lines) ==>
              (r.Missing? <==> !(1 <= n <= |Read("Open", lines)|)) && (r.Missing? ==> r.open == |Read("Open", lines)|)
    ensures Once("Open", lines) ==>
              var qs := Read("Open", lines);
              && (r == FencedOpen <==> 1 <= n <= |qs| && !Closes("Open", lines))
              && (r.OtherTitle? <==> 1 <= n <= |qs| && Closes("Open", lines) && expected.Exactly? && expected.title != qs[n - 1].Title())
              && (r.OtherTitle? || r.Answered? ==> 1 <= n <= |qs| && r.title == qs[n - 1].Title())
    ensures r.Answered? ==> expected == AnyTitle || expected == Exactly(r.title)
    ensures r.Answered? && Once("Open", lines) && Once("Answered", lines) && After(Closed, lines) == Closed ==>
              && AnswerDone(lines, n - 1, Stamped(today, decision), r.lines) && r.title == Read("Open", lines)[n - 1].Title()
              && AnsweredLast(Read("Open", lines)[n - 1], today, decision, r.lines)
    ensures r == FencedOpen ==> After(Closed, lines) != Closed
    ensures r.OtherTitle? ==> expected.Exactly? && expected.title != r.title
  {
    hide *;
    var scan := ScanQuestions(lines);
    CountOpen(lines, scan);
    if scan.NoOpenSection? || n < 1 || n > |scan.blocks| {
      return Missing(if scan.NoOpenSection? then 0 else |scan.blocks|);
    }
    FencedIffNotClosed(lines, scan);
    if Once("Open", lines) {
      BlocksAreEntries(lines, scan, n - 1);
    }
    if scan.fenceOpen {
      OpenFenceReachesEnd(lines, scan);
      return FencedOpen;
    }
    var block := scan.blocks[n - 1];
    if expected.Exactly? && block.title != expected.title {
      return OtherTitle(block.title);
    }
    CutReads(lines, scan, n - 1);
    BodyAfterHead(lines, block);
    var moved := lines[block.start..block.end];
    var rebuilt := CutOpenBlock(lines, scan.openIdx, scan.openEnd, block);
    CutNotEmpty(lines, scan.openIdx, scan.openEnd, block);
    ScanAnswered(lines, scan);
    SameAnswered(lines, rebuilt, n - 1);
    NoFirstSection("Answered", rebuilt);
    var out := AppendAnswered(rebuilt, moved, decision, today, scan.answeredIdx != -1);
    r := Answered(out, block.title);
    if After(Closed, lines) == Closed && Once("Open", lines) && Once("Answered", lines) {
      AnswerComplete(lines, n - 1, Read("Open", lines)[n - 1], Stamped(today, decision), rebuilt, out);
    }
  }
}
