/** Finding a `## ` section in a line array and replacing what it holds: the boundary walks of
    src/backlog/backlog-md.ts that the writers splice by. A section is cut into what is above it, its
    heading, its content and what is below, and a reading of the whole is put together from these. */
module Sections {
  import opened Text
  import opened Fences
  import opened Documents

  /** The index of the first section heading, or the length. */
  function NextSection(toks: seq<Tok>): (n: nat)
    ensures n <= |toks| && (n < |toks| ==> toks[n].kind == SectionHead)
  {
    if toks == [] || toks[0].kind == SectionHead then 0 else 1 + NextSection(toks[1..])
  }

  /** The index of the first section titled `t`, or the length. */
  function FirstSection(t: string, toks: seq<Tok>): (n: nat)
    ensures n <= |toks| && (n < |toks| ==> IsSection(t, toks[n]))
  {
    if toks == [] || IsSection(t, toks[0]) then 0 else 1 + FirstSection(t, toks[1..])
  }

  /** `nextSectionHeading`: the next section heading at or after `from`, through the caller's tracker. */
  method NextSectionHeading(lines: seq<string>, from: nat, fenced: FenceTracker) returns (r: nat)
    requires from <= |lines|
    modifies fenced
    ensures r == from + NextSection(Toks(old(fenced.fence), lines[from..]))
  {
    r := from;
    while r < |lines|
      invariant from <= r <= |lines|
      invariant from + NextSection(Toks(old(fenced.fence), lines[from..])) == r + NextSection(Toks(fenced.fence, lines[r..]))
    {
      assert lines[r..][1..] == lines[r + 1..];
      var title := fenced.HeadingTitle(lines[r], "## ");
      if title.Titled? {
        return;
      }
      r := r + 1;
    }
  }

  /** The writers' search for a section heading: -1 when the section is absent. */
  method FindSection(lines: seq<string>, t: string) returns (idx: int)
    ensures idx == if FirstSection(t, Toks(Closed, lines)) < |lines| then FirstSection(t, Toks(Closed, lines)) else -1
  {
    hide Toks, FirstSection, NextSection, KindOf, Inside, Next, Trim;
    var fenced := new FenceTracker();
    assert lines[0..] == lines;
    var i := 0;
    while i < |lines|
      invariant 0 <= i <= |lines|
      invariant FirstSection(t, Toks(Closed, lines)) == i + FirstSection(t, Toks(fenced.fence, lines[i..]))
    {
      SectionStep(t, fenced.fence, lines, i);
      var title := fenced.HeadingTitle(lines[i], "## ");
      if title == Titled(t) {
        return i;
      }
      i := i + 1;
    }
    assert lines[i..] == [];
    NoSection(t, fenced.fence);
    return -1;
  }

  /** A document around its first section titled `t`: the lines before it, its heading, its content
      and what follows, which starts at a section heading or is nothing. */
  ghost predicate Parts(t: string, before: seq<string>, head: string, content: seq<string>, after: seq<string>) {
    && After(Closed, before) == Closed
    && SectionCount(t, Toks(Closed, before)) == 0
    && Next(Closed, head) == Closed && KindOf(Closed, head) == SectionHead && IsSection(t, Tok(SectionHead, head))
    && NoSections(Toks(Closed, content))
    && (after != [] ==> After(Closed, content) == Closed && Toks(Closed, after)[0].kind == SectionHead)
  }

  ghost predicate NoSections(toks: seq<Tok>) {
    forall k | k in toks :: k.kind != SectionHead
  }

  lemma EntryHoldsNoSection(head: Tok, body: seq<Tok>)
    requires NoHeads(body) && head.kind == EntryHead
    ensures NoSections([head] + body) && StartsAtHead([head] + body)
  {
  }

  /** The heading a writer puts over a section is read as that section's. */
  lemma SectionHeading(t: string)
    requires Trim(t) == t
    ensures KindOf(Closed, "## " + t) == SectionHead && Next(Closed, "## " + t) == Closed
    ensures IsSection(t, Tok(SectionHead, "## " + t))
  {
    HashIsNotAMarker("## " + t);
    assert ("## " + t)[3..] == t;
  }

  lemma {:induction false} NextSectionIsNext(toks: seq<Tok>)
    ensures NoSections(toks[..NextSection(toks)])
  {
    if toks != [] && toks[0].kind != SectionHead {
      NextSectionIsNext(toks[1..]);
      var n := NextSection(toks[1..]);
      assert toks[..n + 1] == [toks[0]] + toks[1..][..n];
    }
  }

  lemma {:induction false} FirstSectionIsFirst(t: string, toks: seq<Tok>)
    ensures SectionCount(t, toks[..FirstSection(t, toks)]) == 0
    ensures FirstSection(t, toks) == |toks| <==> SectionCount(t, toks) == 0
  {
    if toks != [] && !IsSection(t, toks[0]) {
      FirstSectionIsFirst(t, toks[1..]);
      var n := FirstSection(t, toks[1..]);
      assert toks[..n + 1] == [toks[0]] + toks[1..][..n];
    }
  }

  /** The walks find the section and its end. */
  lemma SectionParts(t: string, lines: seq<string>)
    requires FirstSection(t, Toks(Closed, lines)) < |lines|
    ensures var h := FirstSection(t, Toks(Closed, lines));
      var end := h + 1 + NextSection(Toks(Closed, lines[h + 1..]));
      && end <= |lines|
      && Parts(t, lines[..h], lines[h], lines[h + 1..end], lines[end..])
      && lines == lines[..h] + [lines[h]] + lines[h + 1..end] + lines[end..]
  {
    hide Toks, After, Next, KindOf, SectionCount, FirstSection, NextSection, NoSections;
    var toks := Toks(Closed, lines);
    var h := FirstSection(t, toks);
    FirstSectionIsFirst(t, toks);
    ToksAt(Closed, lines, h);
    HeadIsOutside(After(Closed, lines[..h]), lines[h]);
    var rest := lines[h + 1..];
    ContentParts(rest);
    var n := NextSection(Toks(Closed, rest));
    assert rest[..n] == lines[h + 1..h + 1 + n] && rest[n..] == lines[h + 1 + n..];
  }

  lemma ContentParts(rest: seq<string>)
    ensures var n := NextSection(Toks(Closed, rest));
      && n <= |rest| && NoSections(Toks(Closed, rest[..n]))
      && (n < |rest| ==> After(Closed, rest[..n]) == Closed && Toks(Closed, rest[n..])[0].kind == SectionHead)
  {
    hide Toks, After, Next, KindOf;
    var toks := Toks(Closed, rest);
    var n := NextSection(toks);
    NextSectionIsNext(toks);
    ToksSplit(Closed, rest, n);
    if n < |rest| {
      FreshAtHead(rest, n);
    }
  }

  /** The document made of the parts. */
  function Whole(before: seq<string>, head: string, content: seq<string>, after: seq<string>): seq<string> {
    before + [head] + content + after
  }

  lemma WholeToks(t: string, before: seq<string>, head: string, content: seq<string>, after: seq<string>)
    requires Parts(t, before, head, content, after)
    ensures Toks(Closed, Whole(before, head, content, after))
         == Toks(Closed, before) + [Tok(SectionHead, head)] + Toks(Closed, content) + Toks(Closed, after)
    ensures After(Closed, Whole(before, head, content, after)) == if after == [] then After(Closed, content) else After(Closed, after)
  {
    hide Toks, Next, KindOf, After, SectionCount, NoSections;
    ToksAroundHead(before, head, content);
    ToksConcat(Closed, before + [head] + content, after);
    if after == [] {
      assert Whole(before, head, content, after) == before + [head] + content;
      assert Toks(Closed, after) == [];
    }
  }

  /** What each section reads, part by part. */
  lemma ReadParts(t: string, u: string, before: seq<string>, head: string, content: seq<string>, after: seq<string>)
    requires Parts(t, before, head, content, after)
    ensures Read(u, Whole(before, head, content, after))
         == (if u == t then Entries(t, true, Toks(Closed, content)) else Entries(u, false, Toks(Closed, before)))
          + Entries(u, false, Toks(Closed, after))
  {
    hide Toks, Next, KindOf, After, Entries, SectionCount, NoSections, Whole;
    WholeToks(t, before, head, content, after);
    ReadPartsToks(t, u, Toks(Closed, before), Tok(SectionHead, head), Toks(Closed, content), Toks(Closed, after));
  }

  lemma ReadPartsToks(t: string, u: string, before: seq<Tok>, head: Tok, content: seq<Tok>, after: seq<Tok>)
    requires IsSection(t, head) && SectionCount(t, before) == 0 && NoSections(content)
    requires after == [] || after[0].kind == SectionHead
    ensures Entries(u, false, before + [head] + content + after)
         == (if u == t then Entries(t, true, content) else Entries(u, false, before)) + Entries(u, false, after)
  {
    hide Entries, InsideAfter, SectionCount, NoSections, FirstSection, NextSection;
    var part := [head] + content;
    assert before + [head] + content + after == before + (part + after);
    EntriesMeet(u, false, before, part + after);
    EntriesMeet(u, InsideAfter(u, false, before), part, after);
    OneSectionHead(u, InsideAfter(u, false, before), head, content);
    SectionFlagIrrelevant(u, InsideAfter(u, InsideAfter(u, false, before), part), after);
    if u == t {
      NoSectionNoEntries(t, before);
    } else {
      NoSectionsNoEntries(u, content);
    }
  }

  lemma NoSectionNoEntries(t: string, toks: seq<Tok>)
    requires SectionCount(t, toks) == 0
    ensures Entries(t, false, toks) == []
  {
    NoSectionCount(t, toks);
    NoSuchSection(t, toks);
  }

  lemma SectionFlagIrrelevant(u: string, inside: bool, after: seq<Tok>)
    requires after == [] || after[0].kind == SectionHead
    ensures Entries(u, inside, after) == Entries(u, false, after)
  {
  }

  lemma NoSectionsNoEntries(u: string, content: seq<Tok>)
    requires NoSections(content)
    ensures Entries(u, false, content) == []
  {
    NoSuchSection(u, content);
  }

  /** Replacing a section's content by sound lines changes what that section reads and nothing else. */
  lemma ReplaceContent(t: string, before: seq<string>, head: string, old_: seq<string>, new_: seq<string>, after: seq<string>)
    requires Parts(t, before, head, old_, after)
    requires NoSections(Toks(Closed, new_)) && (after != [] ==> After(Closed, new_) == Closed)
    ensures Parts(t, before, head, new_, after)
    ensures Read(t, Whole(before, head, new_, after))
         == Entries(t, true, Toks(Closed, new_)) + Entries(t, false, Toks(Closed, after))
    ensures forall u | u != t :: Read(u, Whole(before, head, new_, after)) == Read(u, Whole(before, head, old_, after))
  {
    hide Toks, Next, KindOf, After, Entries, SectionCount, NoSections, Whole, Read;
    ReadParts(t, t, before, head, new_, after);
    forall u | u != t ensures Read(u, Whole(before, head, new_, after)) == Read(u, Whole(before, head, old_, after)) {
      ReadParts(t, u, before, head, new_, after);
      ReadParts(t, u, before, head, old_, after);
    }
  }

  /** With the section occurring once, nothing after it reads as that section. */
  lemma OnceAfter(t: string, before: seq<string>, head: string, content: seq<string>, after: seq<string>)
    requires Parts(t, before, head, content, after) && Once(t, Whole(before, head, content, after))
    ensures Entries(t, false, Toks(Closed, after)) == []
    ensures Read(t, Whole(before, head, content, after)) == Entries(t, true, Toks(Closed, content))
  {
    hide Toks, Next, KindOf, After, Entries, NoSections, SectionCount, Whole, Read;
    ReadParts(t, t, before, head, content, after);
    WholeToks(t, before, head, content, after);
    var pre := Toks(Closed, before) + [Tok(SectionHead, head)];
    SectionCountConcat(t, pre + Toks(Closed, content), Toks(Closed, after));
    SectionCountConcat(t, pre, Toks(Closed, content));
    SectionCountConcat(t, Toks(Closed, before), [Tok(SectionHead, head)]);
    OneSectionCounts(t, Tok(SectionHead, head));
    NoSectionNoEntries(t, Toks(Closed, after));
  }

  lemma OneSectionCounts(t: string, k: Tok)
    requires IsSection(t, k)
    ensures SectionCount(t, [k]) == 1
  {
  }

  /** A section of a document whose fences are all closed closes its own. */
  lemma ContentCloses(t: string, before: seq<string>, head: string, content: seq<string>, after: seq<string>)
    requires Parts(t, before, head, content, after) && After(Closed, Whole(before, head, content, after)) == Closed
    ensures After(Closed, content) == Closed
    ensures StartsAtHead(Toks(Closed, after))
  {
    hide Toks, After, SectionCount, NoSections, KindOf;
    WholeToks(t, before, head, content, after);
    assert after == [] ==> Toks(Closed, after) == [];
  }

  /** How many sections carry a title does not depend on what sections hold. */
  lemma CountOfWhole(t: string, u: string, before: seq<string>, head: string, content: seq<string>, after: seq<string>)
    requires Parts(t, before, head, content, after)
    ensures SectionCount(u, Toks(Closed, Whole(before, head, content, after)))
         == SectionCount(u, Toks(Closed, before)) + (if u == t then 1 else 0) + SectionCount(u, Toks(Closed, after))
  {
    hide Toks, After, KindOf, NoSections, SectionCount, Whole;
    WholeToks(t, before, head, content, after);
    var b, h, c, a := Toks(Closed, before), Tok(SectionHead, head), Toks(Closed, content), Toks(Closed, after);
    SectionCountConcat(u, b + [h] + c, a);
    SectionCountConcat(u, b + [h], c);
    SectionCountConcat(u, b, [h]);
    NoSectionsCount(u, c);
    OneHeadCounts(u, h);
  }

  lemma NoSectionsCount(u: string, toks: seq<Tok>)
    requires NoSections(toks)
    ensures SectionCount(u, toks) == 0
  {
    NoSectionCount(u, toks);
  }

  lemma OneHeadCounts(u: string, k: Tok)
    ensures SectionCount(u, [k]) == if IsSection(u, k) then 1 else 0
  {
  }

  lemma WholeIs(before: seq<string>, head: string, content: seq<string>, after: seq<string>)
    ensures Whole(before, head, content, after) == before + [head] + content + after
  {
  }

  lemma NoSection(t: string, f: Fence)
    ensures FirstSection(t, Toks(f, [])) == 0 && NextSection(Toks(f, [])) == 0
  {
  }

  lemma SectionStep(t: string, f: Fence, lines: seq<string>, i: nat)
    requires i < |lines|
    ensures var line, rest := lines[i], Toks(Next(f, lines[i]), lines[i + 1..]);
      var head := !Inside(f, line) && "## " <= line;
      && FirstSection(t, Toks(f, lines[i..])) == (if head && Trim(line[3..]) == t then 0 else 1 + FirstSection(t, rest))
      && NextSection(Toks(f, lines[i..])) == (if head then 0 else 1 + NextSection(rest))
      && (head ==> f == Closed && Next(f, line) == Closed)
  {
    assert lines[i..][1..] == lines[i + 1..];
    var k, rest := Tok(KindOf(f, lines[i]), lines[i]), Toks(Next(f, lines[i]), lines[i + 1..]);
    assert ([k] + rest)[1..] == rest;
    if k.kind == SectionHead {
      HeadIsOutside(f, lines[i]);
    }
  }
}
