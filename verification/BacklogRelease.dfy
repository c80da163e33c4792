/** `--top`: an entry's lines move to the head of its section (spliceEntryToTop in
    src/backlog/backlog-release.ts). */
module BacklogRelease {
  import opened Text
  import opened Fences
  import opened Documents
  import opened SectionReaders
  import opened Sections
  import opened Contents
  import opened BacklogWrite

  datatype MoveOutcome = MovedToTop(lines: seq<string>) | NoEntry | TitleMoved(title: string) | AlreadyFirst

  lemma {:induction false} RangesOrdered(t: string, inside: bool, toks: seq<Tok>, at: nat, eof: nat)
    ensures forall i | 0 <= i < |RangesFrom(t, inside, toks, at, eof)| ::
      RangesFrom(t, inside, toks, at, eof)[i].start > at
    ensures forall i | 0 < i < |RangesFrom(t, inside, toks, at, eof)| ::
      RangesFrom(t, inside, toks, at, eof)[i].start > RangesFrom(t, inside, toks, at, eof)[0].start
    decreases |toks|
  {
    if toks != [] {
      RangesOrdered(t, if toks[0].kind == SectionHead then toks[0].Title() == t else inside, toks[1..], at + 1, eof);
    }
  }

  /** The permutation that brings entry `k` to the front of its section, every other section untouched. */
  ghost predicate BroughtToTop(t: string, lines: seq<string>, k: nat, out: seq<string>) {
    && k < |Read(t, lines)| && Read(t, out) == [Read(t, lines)[k]] + Removed(Read(t, lines), k)
    && forall u | u != t :: Read(u, out) == Read(u, lines)
  }

  /** Reading around an insertion point that is a heading inside the section. */
  lemma InsertBefore(t: string, doc: seq<string>, at: nat, block: seq<string>)
    requires at < |doc| && After(Closed, doc[..at]) == Closed && Toks(Closed, doc)[at].IsHead()
    requires InsideAfter(t, false, Toks(Closed, doc[..at])) && Entries(t, false, Toks(Closed, doc[..at])) == []
    requires After(Closed, block) == Closed && StartsAtHead(Toks(Closed, block)) && NoSections(Toks(Closed, block))
    ensures Read(t, doc[..at] + block + doc[at..]) == Entries(t, true, Toks(Closed, block)) + Read(t, doc)
    ensures forall u | u != t :: Read(u, doc[..at] + block + doc[at..]) == Read(u, doc)
  {
    hide Toks, After, Entries, InsideAfter, Read, NoSections;
    var a, g := doc[..at], doc[at..];
    FreshAtHead(doc, at);
    ToksConcat(Closed, a + block, g);
    ToksConcat(Closed, a, block);
    var ta, tb, tg := Toks(Closed, a), Toks(Closed, block), Toks(Closed, g);
    assert Toks(Closed, doc) == ta + tg && StartsAtHead(tg);
    forall u ensures Read(u, a + block + g) == (if u == t then Entries(t, true, tb) + Read(t, doc) else Read(u, doc)) {
      if u != t { InsideOne(t, u, false, false, ta); }
      InsertReads(u, ta, tb, tg);
      ReadIs(u, a + block + g);
      ReadIs(u, doc);
      if u == t {
        assert [] + Entries(t, true, tb) == Entries(t, true, tb) && [] + Entries(t, true, tg) == Entries(t, true, tg);
      }
    }
  }

  lemma InsertReads(u: string, a: seq<Tok>, block: seq<Tok>, g: seq<Tok>)
    requires StartsAtHead(block) && NoSections(block) && StartsAtHead(g)
    ensures var inside := InsideAfter(u, false, a);
      && Entries(u, false, a + g) == Entries(u, false, a) + Entries(u, inside, g)
      && Entries(u, false, a + block + g) == Entries(u, false, a) + (if inside then Entries(u, true, block) else []) + Entries(u, inside, g)
  {
    hide Entries, InsideAfter, NoSections;
    var inside := InsideAfter(u, false, a);
    EntriesMeet(u, false, a, g);
    MeetAnywhere(u, a, block, g);
    EntriesMeet(u, false, a + block, g);
    NoSectionsStayInside(u, inside, block);
    if !inside {
      NoSectionsNoEntries(u, block);
    }
  }

  /** The cut lines, trailing blanks dropped and one put back, read as the entry they were. */
  lemma CutBlock(t: string, lines: seq<string>, k: nat, r: Range, stop: nat)
    requires Located(t, lines, k, r, stop) && After(Closed, lines[r.start..r.end]) == Closed
    ensures var block := DropTrailing(lines[r.start - 1..r.end]) + [""];
      && After(Closed, block) == Closed && StartsAtHead(Toks(Closed, block)) && NoSections(Toks(Closed, block))
      && Entries(t, true, Toks(Closed, block)) == [Read(t, lines)[k]]
  {
    hide Toks, After, Entries, Read, NoHeads, CutBlank, Blank, DropTrailing, InsideAfter;
    var own, body, tail := lines[r.start - 1..r.end], lines[r.start..r.end], lines[r.end..stop];
    var head := lines[r.start - 1];
    assert own == [head] + body && lines[r.start..stop] == body + tail;
    assert tail == [] || tail == [""];
    EmptyIsBlank();
    BlankLines(Closed, tail);
    ToksConcat(Closed, body, tail);
    CutBlankPad(Toks(Closed, body), Toks(Closed, tail));
    NoHeadsPrefix(Toks(Closed, body), Toks(Closed, tail));
    BlockReads(t, head, body);
  }

  lemma BlockReads(t: string, head: string, body: seq<string>)
    requires IsEntryHead(head) && SoundBody(body)
    ensures var block := DropTrailing([head] + body) + [""];
      && After(Closed, block) == Closed && StartsAtHead(Toks(Closed, block)) && NoSections(Toks(Closed, block))
      && Entries(t, true, Toks(Closed, block)) == [Entry(head, CutBlank(Toks(Closed, body)))]
  {
    hide Toks, After, Entries, NoHeads, CutBlank, Blank, DropTrailing, InsideAfter, IsEntryHead;
    var own := [head] + body;
    var kept := DropTrailing(own);
    var q := own[|kept|..];
    assert own == kept + q;
    EntryHeadKind(head);
    EmptyDoc();
    ToksAroundHead([], head, body);
    assert [] + [head] + body == own;
    var k := Tok(EntryHead, head);
    assert [] + [k] + Toks(Closed, body) == [k] + Toks(Closed, body);
    OneEntry(t, true, k, Toks(Closed, body));
    EntryHoldsNoSection(k, Toks(Closed, body));
    EmptyIsBlank();
    assert [] + kept + q == own && [] + kept + [""] == kept + [""];
    PaddedEntries(t, true, [], kept, q);
    PaddedEntries(t, true, [], kept, [""]);
    KeptStarts(own, kept);
    BlockStartsAtHead(head, (kept + [""])[1..]);
    assert [head] + (kept + [""])[1..] == kept + [""];
  }

  lemma KeptStarts(own: seq<string>, kept: seq<string>)
    requires kept == DropTrailing(own) && own != [] && !Blank(own[0])
    ensures kept != [] && kept[0] == own[0]
  {
    assert own == kept + own[|kept|..] && own[0] in own;
  }

  /** The lines once the entry is cut: at the end of the file the blank lines before it go too, and
      the file keeps its final newline if it had one. */
  function AfterCut(lines: seq<string>, r: Range): seq<string>
    requires 1 <= r.start <= r.end <= |lines|
  {
    var cut := CutRange(lines, r);
    if forall l | l in lines[r.end..] :: Blank(l) then
      DropTrailing(cut) + (if lines[|lines| - 1] == "" then [""] else [])
    else cut
  }

  lemma AfterCutReads(lines: seq<string>, r: Range, at: nat)
    requires 1 <= r.start <= r.end <= |lines| && at < r.start - 1 && !Blank(lines[at])
    ensures var doc := AfterCut(lines, r);
      && at < |doc| && doc[..at] == lines[..at] && doc[at] == lines[at]
      && forall u :: Read(u, doc) == Read(u, CutRange(lines, r))
  {
    hide Read, Blank, DropTrailing;
    var cut := CutRange(lines, r);
    assert cut[at] == lines[at] && cut[..at] == lines[..at];
    var kept := DropTrailing(cut);
    var q := cut[|kept|..];
    assert cut == kept + q;
    assert forall i | |kept| <= i < |cut| :: cut[i] == q[i - |kept|] && cut[i] in q;
    EmptyIsBlank();
    PaddedEntriesAll(kept, q);
    PaddedEntriesAll(kept, [""]);
    assert kept + [] == kept;
  }

  /** Moving the `k`th entry to the top is the permutation that brings it first, if and only if its own
      lines leave no fence open. */
  lemma TopReads(t: string, lines: seq<string>, k: nat)
    requires 0 < k < |Ranges(t, lines)|
    ensures var first, r := Ranges(t, lines)[0], Ranges(t, lines)[k];
      && 1 <= first.start < r.start <= r.end <= |lines|
      && var doc, at := AfterCut(lines, r), first.start - 1;
         && at < |doc|
         && var out := doc[..at] + (DropTrailing(lines[r.start - 1..r.end]) + [""]) + doc[at..];
            BroughtToTop(t, lines, k, out) <==> EntryCloses(t, lines, k)
  {
    hide Toks, After, Entries, Read, InsideAfter, NoHeads, NoSections, Located, AfterCut, DropTrailing, Ranges, StartsAtHead, Blank, Removed;
    var first, r := Ranges(t, lines)[0], Ranges(t, lines)[k];
    RangesAreOrdered(t, lines, k);
    var stop0 := Locate(t, lines, 0);
    var stop := Locate(t, lines, k);
    LocatedBounds(t, lines, 0, first, stop0);
    LocatedBounds(t, lines, k, r, stop);
    FirstEntry(t, lines, first, stop0);
    var at := first.start - 1;
    AfterCutReads(lines, r, at);
    var doc := AfterCut(lines, r);
    HeadAt(doc, at, lines);
    if EntryCloses(t, lines, k) {
      CancelReads(t, lines, k);
      CutBlock(t, lines, k, r, stop);
      InsertBefore(t, doc, at, DropTrailing(lines[r.start - 1..r.end]) + [""]);
    } else {
      OpenBlock(t, lines, k, r, stop, doc, at);
    }
  }

  /** An entry whose fence stays open takes the heading it is put above into its body. */
  lemma OpenBlock(t: string, lines: seq<string>, k: nat, r: Range, stop: nat, doc: seq<string>, at: nat)
    requires Located(t, lines, k, r, stop) && After(Closed, lines[r.start..r.end]) != Closed
    requires at < |doc| && After(Closed, doc[..at]) == Closed && !Blank(doc[at])
    requires InsideAfter(t, false, Toks(Closed, doc[..at])) && Entries(t, false, Toks(Closed, doc[..at])) == []
    ensures !BroughtToTop(t, lines, k, doc[..at] + (DropTrailing(lines[r.start - 1..r.end]) + [""]) + doc[at..])
  {
    hide Toks, After, Entries, Read, NoHeads, CutBlank, Blank, DropTrailing, InsideAfter, Removed;
    var head, body, tail := lines[r.start - 1], lines[r.start..r.end], lines[r.end..stop];
    assert lines[r.start - 1..r.end] == [head] + body && lines[r.start..stop] == body + tail;
    EmptyIsBlank();
    BlankLines(After(Closed, body), tail);
    ToksConcat(Closed, body, tail);
    CutBlankPad(Toks(Closed, body), Toks(After(Closed, body), tail));
    NoHeadsPrefix(Toks(Closed, body), Toks(After(Closed, body), tail));
    var shown, q := KeptParts(head, body);
    OpenReads(t, doc[..at], head, shown, q, doc[at..]);
  }

  lemma KeptParts(head: string, body: seq<string>) returns (shown: seq<string>, q: seq<string>)
    requires IsEntryHead(head)
    ensures DropTrailing([head] + body) == [head] + shown && body == shown + q && forall l | l in q :: Blank(l)
  {
    hide Blank, DropTrailing;
    EntryHeadKind(head);
    var own := [head] + body;
    var kept := DropTrailing(own);
    KeptStarts(own, kept);
    shown, q := kept[1..], own[|kept|..];
    assert own == kept + q && body == own[1..];
  }

  lemma RangesAreOrdered(t: string, lines: seq<string>, k: nat)
    requires 0 < k < |Ranges(t, lines)|
    ensures Ranges(t, lines)[0].start < Ranges(t, lines)[k].start
  {
    RangesOrdered(t, false, Toks(Closed, lines), 0, LastLine(lines));
  }

  lemma FirstEntry(t: string, lines: seq<string>, first: Range, stop: nat)
    requires Located(t, lines, 0, first, stop)
    ensures var a := lines[..first.start - 1];
      && After(Closed, a) == Closed && InsideAfter(t, false, Toks(Closed, a)) && Entries(t, false, Toks(Closed, a)) == []
      && IsEntryHead(lines[first.start - 1]) && !Blank(lines[first.start - 1])
  {
    hide Toks, After, Entries, InsideAfter, Blank, NoHeads, CutBlank;
    EntryHeadKind(lines[first.start - 1]);
  }

  lemma HeadAt(doc: seq<string>, at: nat, lines: seq<string>)
    requires at < |doc| && at < |lines| && doc[..at] == lines[..at] && doc[at] == lines[at]
    requires After(Closed, lines[..at]) == Closed && IsEntryHead(lines[at])
    ensures Toks(Closed, doc)[at].IsHead()
  {
    hide Toks, After;
    ToksAt(Closed, doc, at);
    EntryHeadKind(lines[at]);
  }

  /** `tryMoveEntryToTop`. */
  method MoveEntryToTop(lines: seq<string>, t: string, n: int, expected: string) returns (r: MoveOutcome)
    ensures r == NoEntry <==> !(1 <= n <= |Read(t, lines)|)
    ensures 1 <= n <= |Read(t, lines)| ==>
              var title := Read(t, lines)[n - 1].Title();
              if title != expected then r == TitleMoved(title)
              else if n == 1 then r == AlreadyFirst
              else r.MovedToTop? && (BroughtToTop(t, lines, n - 1, r.lines) <==> EntryCloses(t, lines, n - 1))
  {
    hide *;
    var entries := ActionableEntryRanges(lines, t);
    RangesCount(t, lines);
    if n < 1 || n > |entries| {
      return NoEntry;
    }
    var entry := entries[n - 1];
    ghost var stop := Locate(t, lines, n - 1);
    LocatedBounds(t, lines, n - 1, entry, stop);
    if entry.title != expected {
      return TitleMoved(entry.title);
    }
    if n == 1 {
      return AlreadyFirst;
    }
    var first := entries[0];
    ghost var stop0 := Locate(t, lines, 0);
    LocatedBounds(t, lines, 0, first, stop0);
    FirstEntry(t, lines, first, stop0);
    RangesAreOrdered(t, lines, n - 1);
    AfterCutReads(lines, entry, first.start - 1);
    var cut := TrimTrailingBlankLines(lines[entry.start - 1..entry.end]);
    var doc := AfterCut(lines, entry);
    r := MovedToTop(doc[..first.start - 1] + (cut + [""]) + doc[first.start - 1..]);
    TopReads(t, lines, n - 1);
  }
}
