/** The entry writers of src/backlog/backlog-write.ts on a file's lines: append, cancel, edit and
    retire. Each is proved to be one list operation on the entries its section reads. */
module BacklogWrite {
  import opened Text
  import opened Fences
  import opened Documents
  import opened SectionReaders
  import opened Sections
  import opened Contents

  // ---------------------------------------------------------------- what may be written

  datatype BodyProblem = Sound | HeadingOutsideFence | FenceLeftOpen

  /** `bodyStructureProblem`: why lines cannot be written as an entry body. */
  method BodyStructureProblem(body: seq<string>) returns (r: BodyProblem)
    ensures r == Sound <==> SoundBody(body)
    ensures r == HeadingOutsideFence <==> !NoHeads(Toks(Closed, body))
  {
    hide Toks, KindOf, Inside, Next, After, NoHeads;
    var tracker := new FenceTracker();
    SoundSoFar();
    for i := 0 to |body|
      invariant tracker.fence == After(Closed, body[..i])
      invariant NoHeads(Toks(Closed, body[..i]))
    {
      assert body[..i + 1] == body[..i] + [body[i]];
      HeadStep(body, i);
      var inside := tracker.Feed(body[i]);
      if !inside && ("## " <= body[i] || "### " <= body[i]) {
        return HeadingOutsideFence;
      }
    }
    assert body[..|body|] == body;
    r := if tracker.fence != Closed then FenceLeftOpen else Sound;
  }

  lemma SoundSoFar()
    ensures NoHeads(Toks(Closed, [])) && After(Closed, []) == Closed
  {
  }

  lemma HeadStep(body: seq<string>, i: nat)
    requires i < |body| && NoHeads(Toks(Closed, body[..i]))
    ensures var f := After(Closed, body[..i]);
      var head := !Inside(f, body[i]) && ("## " <= body[i] || "### " <= body[i]);
      && After(Closed, body[..i] + [body[i]]) == Next(f, body[i])
      && (head ==> !NoHeads(Toks(Closed, body)))
      && (!head ==> NoHeads(Toks(Closed, body[..i] + [body[i]])))
  {
    hide Toks, After, Next;
    var f := After(Closed, body[..i]);
    ToksConcat(Closed, body[..i], [body[i]]);
    OneTok(f, body[i]);
    ToksAt(Closed, body, i);
    assert Toks(Closed, body)[i] in Toks(Closed, body);
  }

  // ---------------------------------------------------------------- append

  /** A written entry as it is read back. */
  function NewEntry(heading: string, body: seq<string>): Entry {
    Entry(heading, CutBlank(Toks(Closed, [""] + body)))
  }

  /** A written entry is shown with the heading's text as its title and the body's text as its body. */
  lemma NewEntryView(title: string, body: seq<string>)
    ensures View(NewEntry("### " + title, body)) == BacklogEntry(Trim(title), Trim(Join(body)))
  {
    hide Toks, CutBlank, Trim, Join, LinesOf;
    var toks := Toks(Closed, [""] + body);
    TextOfBody(toks);
    LinesOfToks(Closed, [""] + body);
    JoinAfterBlank(body);
    assert ("### " + title)[4..] == title;
  }

  /** The lines a writer puts under a heading: nothing for an empty body. */
  function Spaced(body: seq<string>): seq<string> {
    if body == [""] then [] else [""] + body
  }

  /** Blank lines around lines change nothing of what they hold. */
  lemma PaddedHolds(p: seq<string>, x: seq<string>, q: seq<string>)
    requires (forall l | l in p :: Blank(l)) && (forall l | l in q :: Blank(l))
    ensures After(Closed, p + x + q) == After(Closed, x)
    ensures NoHeads(Toks(Closed, p + x + q)) <==> NoHeads(Toks(Closed, x))
    ensures NoSections(Toks(Closed, p + x + q)) <==> NoSections(Toks(Closed, x))
    ensures forall u :: SectionCount(u, Toks(Closed, p + x + q)) == SectionCount(u, Toks(Closed, x))
    ensures forall u :: Entries(u, true, Toks(Closed, p + x + q)) == Entries(u, true, Toks(Closed, x))
  {
    hide Toks, After, Blank, Entries, SectionCount, NoSections;
    PadsAround(p, x, q);
    var tp, tx, tq := Toks(Closed, p), Toks(Closed, x), Toks(After(Closed, x), q);
    PaddedEntries("", true, p, x, q);
    assert forall k :: k in tp + tx + tq <==> k in tp || k in tx || k in tq;
    forall u ensures SectionCount(u, tp + tx + tq) == SectionCount(u, tx) {
      SectionCountConcat(u, tp + tx, tq);
      SectionCountConcat(u, tp, tx);
      PadHoldsNoSection(u, tp);
      PadHoldsNoSection(u, tq);
    }
    forall u ensures Entries(u, true, Toks(Closed, p + x + q)) == Entries(u, true, tx) {
      PaddedEntries(u, true, p, x, q);
    }
  }

  /** What is written under a heading holds what the body holds, and is read as the body is. */
  lemma SpacedBody(body: seq<string>, tail: seq<string>)
    requires forall l | l in tail :: Blank(l)
    ensures var x := Spaced(body) + tail;
      && After(Closed, x) == After(Closed, body)
      && (NoHeads(Toks(Closed, x)) <==> NoHeads(Toks(Closed, body)))
      && (NoSections(Toks(Closed, x)) <==> NoSections(Toks(Closed, body)))
      && (forall u :: SectionCount(u, Toks(Closed, x)) == SectionCount(u, Toks(Closed, body)))
      && (forall u :: Entries(u, true, Toks(Closed, x)) == Entries(u, true, Toks(Closed, body)))
      && CutBlank(Toks(Closed, x)) == CutBlank(Toks(Closed, [""] + body))
  {
    hide Toks, After, CutBlank, Blank, Entries, SectionCount, NoSections, NoHeads;
    EmptyIsBlank();
    if body == [""] {
      PaddedHolds([], [], tail);
      PaddedHolds([""], [], []);
      assert Spaced(body) + tail == tail == [] + [] + tail && [""] + [] + [] == body;
      BlankLines(Closed, tail);
      BlankLines(Closed, [""] + body);
      CutBlankPad([], Toks(Closed, tail));
      CutBlankPad([], Toks(Closed, [""] + body));
      assert [] + Toks(Closed, tail) == Toks(Closed, tail) && [] + Toks(Closed, [""] + body) == Toks(Closed, [""] + body);
    } else {
      PaddedHolds([""], body, tail);
      var y := [""] + body;
      ToksConcat(Closed, y, tail);
      BlankLines(After(Closed, y), tail);
      CutBlankPad(Toks(Closed, y), Toks(After(Closed, y), tail));
    }
  }

  /** The section's closing fence state, which decides whether what is written there is read. */
  ghost predicate Closes(t: string, lines: seq<string>) {
    var h := FirstSection(t, Toks(Closed, lines));
    if h == |lines| then After(Closed, lines) == Closed
    else After(Closed, lines[h + 1..h + 1 + NextSection(Toks(Closed, lines[h + 1..]))]) == Closed
  }

  /** `md.replace(/\n+$/, "")` on the lines. */
  function StripNewlines(lines: seq<string>): (r: seq<string>)
    ensures r != []
  {
    if |lines| == 0 then [""]
    else if |lines| > 1 && lines[|lines| - 1] == "" then StripNewlines(lines[..|lines| - 1])
    else lines
  }

  lemma {:induction false} StripNewlinesPads(lines: seq<string>)
    requires lines != []
    ensures StripNewlines(lines) <= lines
    ensures forall l | l in lines[|StripNewlines(lines)|..] :: Blank(l)
  {
    EmptyIsBlank();
    if |lines| > 1 && lines[|lines| - 1] == "" {
      var cut := lines[..|lines| - 1];
      StripNewlinesPads(cut);
      assert lines[|StripNewlines(cut)|..] == cut[|StripNewlines(cut)|..] + [""];
    }
  }

  /** The section's lines as the append rebuilds them. */
  function Appended(kept: seq<string>, heading: string, body: seq<string>): seq<string> {
    (if kept != [] then [""] + kept else []) + ["", heading] + Spaced(body) + [""]
  }

  lemma AppendedReads(t: string, content: seq<string>, filtered: seq<string>, heading: string, body: seq<string>)
    requires Toks(Closed, filtered) == Without(Toks(Closed, content), false) && After(Closed, filtered) == After(Closed, content) == Closed
    requires NoSections(Toks(Closed, content)) && IsEntryHead(heading) && NoHeads(Toks(Closed, body))
    ensures var all := Appended(TrimBlank(filtered), heading, body);
      && After(Closed, all) == After(Closed, body) && NoSections(Toks(Closed, all))
      && Entries(t, true, Toks(Closed, all)) == Strips(Entries(t, true, Toks(Closed, content)), false) + [NewEntry(heading, body)]
  {
    hide Toks, After, Entries, Without, Strips, TrimBlank, CutBlank, Spaced, IsEntryHead, InsideAfter, Blank, NoHeads, SectionCount;
    EmptyIsBlank();
    var kept := TrimBlank(filtered);
    var x := KeptReads(t, content, filtered);
    SpacedBody(body, [""]);
    EntryAfter(t, x, [""], heading, Spaced(body) + [""]);
    AppendedIs(kept, x, heading, body);
  }

  lemma AppendedIs(kept: seq<string>, x: seq<string>, heading: string, body: seq<string>)
    requires x == if kept != [] then [""] + kept else []
    ensures Appended(kept, heading, body) == x + [""] + [heading] + (Spaced(body) + [""])
  {
    hide Spaced;
  }

  /** The section's own lines as the append keeps them. */
  lemma KeptReads(t: string, content: seq<string>, filtered: seq<string>) returns (x: seq<string>)
    requires Toks(Closed, filtered) == Without(Toks(Closed, content), false) && After(Closed, filtered) == After(Closed, content)
    requires NoSections(Toks(Closed, content))
    ensures x == if TrimBlank(filtered) != [] then [""] + TrimBlank(filtered) else []
    ensures After(Closed, x) == After(Closed, content) && NoSections(Toks(Closed, x))
    ensures Entries(t, true, Toks(Closed, x)) == Strips(Entries(t, true, Toks(Closed, content)), false)
  {
    hide Toks, After, Entries, Without, Strips, TrimBlank, Blank;
    EmptyIsBlank();
    var kept := TrimBlank(filtered);
    EntriesWithout(t, true, Toks(Closed, content), false);
    WithoutKeeps(Toks(Closed, content), false);
    TrimBlankEntries(t, true, filtered);
    x := if kept != [] then [""] + kept else [];
    if kept != [] {
      PaddedEntries(t, true, [""], kept, []);
      assert [""] + kept + [] == x;
    }
  }

  /** The section the writer grows at the end of a file that lacks it. */
  lemma GrownReads(t: string, lines: seq<string>, heading: string, body: seq<string>)
    requires lines != [] && After(Closed, lines) == Closed && IsEntryHead(heading) && NoHeads(Toks(Closed, body)) && Trim(t) == t
    requires SectionCount(t, Toks(Closed, lines)) == 0
    ensures var out := StripNewlines(lines) + ["", "## " + t, "", heading] + Spaced(body) + [""];
      && Read(t, out) == [NewEntry(heading, body)] && (forall u | u != t :: Read(u, out) == Read(u, lines))
      && forall u :: SectionCount(u, Toks(Closed, out)) == if u == t then 1 else SectionCount(u, Toks(Closed, lines))
  {
    hide Toks, After, Entries, CutBlank, Spaced, IsEntryHead, Blank, StripNewlines, SectionCount, Trim, Next, KindOf, NoHeads;
    var base := GrownBase(lines);
    EmptyIsBlank();
    var head := "## " + t;
    SectionHeading(t);
    var content := ["", heading] + Spaced(body) + [""];
    SpacedBody(body, [""]);
    EmptyDoc();
    EmptyReads(t);
    EntryAfter(t, [], [""], heading, Spaced(body) + [""]);
    assert [] + [""] + [heading] + (Spaced(body) + [""]) == content;
    assert Parts(t, base + [""], head, content, []);
    assert Whole(base + [""], head, content, []) == base + ["", head, "", heading] + Spaced(body) + [""];
    forall u
      ensures Read(u, base + ["", head, "", heading] + Spaced(body) + [""]) == if u == t then [NewEntry(heading, body)] else Read(u, lines)
      ensures SectionCount(u, Toks(Closed, base + ["", head, "", heading] + Spaced(body) + [""]))
           == if u == t then 1 else SectionCount(u, Toks(Closed, lines))
    {
      ReadParts(t, u, base + [""], head, content, []);
      CountOfWhole(t, u, base + [""], head, content, []);
      NoSectionsCount(u, []);
      ReadIs(u, base + [""]);
      ReadIs(u, lines);
    }
  }

  /** The file without its last newlines, and one blank line more, reads as the file. */
  lemma GrownBase(lines: seq<string>) returns (base: seq<string>)
    requires lines != []
    ensures base == StripNewlines(lines) && After(Closed, base) == After(Closed, base + [""]) == After(Closed, lines)
    ensures forall u :: Read(u, base + [""]) == Read(u, base) == Read(u, lines)
    ensures forall u :: SectionCount(u, Toks(Closed, base + [""])) == SectionCount(u, Toks(Closed, lines))
  {
    hide Toks, After, Entries, Blank, StripNewlines, SectionCount, Read;
    base := StripNewlines(lines);
    StripNewlinesPads(lines);
    assert lines == base + lines[|base|..];
    EmptyIsBlank();
    PaddedEntriesAll(base, lines[|base|..]);
    PaddedEntriesAll(base, [""]);
  }

  lemma ReadIs(t: string, lines: seq<string>)
    ensures Read(t, lines) == Entries(t, false, Toks(Closed, lines))
  {
  }

  /** Blank lines at the end of a document are read as nothing. */
  lemma PaddedEntriesAll(x: seq<string>, q: seq<string>)
    requires forall l | l in q :: Blank(l)
    ensures After(Closed, x + q) == After(Closed, x)
    ensures forall u :: Read(u, x + q) == Read(u, x)
    ensures forall u :: SectionCount(u, Toks(Closed, x + q)) == SectionCount(u, Toks(Closed, x))
  {
    hide Toks, After, Entries, Blank;
    assert [] + x + q == x + q;
    forall u ensures Read(u, x + q) == Read(u, x) {
      PaddedEntries(u, false, [], x, q);
    }
    PadsAround([], x, q);
    EmptyDoc();
    assert [] + Toks(Closed, x) == Toks(Closed, x);
    forall u ensures SectionCount(u, Toks(Closed, x + q)) == SectionCount(u, Toks(Closed, x)) {
      SectionCountConcat(u, Toks(Closed, x), Toks(After(Closed, x), q));
      NoSectionCount(u, Toks(After(Closed, x), q));
    }
  }

  /** What an append promises: the new entry last in its section, the other entries as they were but
      for placeholders outside fences, every other section untouched, and no section more than the one
      grown. */
  ghost predicate AppendDone(t: string, lines: seq<string>, heading: string, body: seq<string>, out: seq<string>) {
    && Read(t, out) == Strips(Read(t, lines), false) + [NewEntry(heading, body)]
    && (forall u | u != t :: Read(u, out) == Read(u, lines))
    && forall u :: SectionCount(u, Toks(Closed, out)) == if u == t then 1 else SectionCount(u, Toks(Closed, lines))
  }

  /** No section stands behind the one appended to. */
  ghost predicate NothingFollows(t: string, lines: seq<string>) {
    var h := FirstSection(t, Toks(Closed, lines));
    h == |lines| || h + 1 + NextSection(Toks(Closed, lines[h + 1..])) == |lines|
  }

  /** The bodies an append can write: no unfenced heading, and no fence left open over what follows. */
  ghost predicate Fits(body: seq<string>, nothingFollows: bool) {
    NoHeads(Toks(Closed, body)) && (After(Closed, body) == Closed || nothingFollows)
  }

  /** The file has `## t` once, and each unfenced section heading of the body as a section more. */
  ghost predicate SectionsGrow(t: string, lines: seq<string>, body: seq<string>, out: seq<string>) {
    forall u :: SectionCount(u, Toks(Closed, out))
      == (if u == t then 1 else SectionCount(u, Toks(Closed, lines))) + SectionCount(u, Toks(Closed, body))
  }

  lemma FitsIs(body: seq<string>, nothingFollows: bool)
    ensures Fits(body, nothingFollows) <==> NoHeads(Toks(Closed, body)) && (After(Closed, body) == Closed || nothingFollows)
  {
  }

  lemma AppendToSection(t: string, lines: seq<string>, idx: nat, end: nat, filtered: seq<string>, heading: string, body: seq<string>)
    requires idx == FirstSection(t, Toks(Closed, lines)) < |lines|
    requires end == idx + 1 + NextSection(Toks(Closed, lines[idx + 1..]))
    requires Toks(Closed, filtered) == Without(Toks(Closed, lines[idx + 1..end]), false) && After(Closed, filtered) == After(Closed, lines[idx + 1..end])
    requires IsEntryHead(heading) && Closes(t, lines) && Once(t, lines) && Fits(body, end == |lines|)
    ensures AppendDone(t, lines, heading, body, lines[..idx + 1] + Appended(TrimBlank(filtered), heading, body) + lines[end..])
  {
    hide Toks, After, Entries, Without, Strips, TrimBlank, Appended, FirstSection, NextSection, IsEntryHead, NewEntry, Read, NoHeads, SectionCount;
    SectionParts(t, lines);
    var before, head, content, after := lines[..idx], lines[idx], lines[idx + 1..end], lines[end..];
    assert After(Closed, content) == Closed;
    AppendedReads(t, content, filtered, heading, body);
    var all := Appended(TrimBlank(filtered), heading, body);
    assert Whole(before, head, content, after) == lines;
    assert Whole(before, head, all, after) == lines[..idx + 1] + all + after;
    ReplaceContent(t, before, head, content, all, after);
    OnceAfter(t, before, head, content, after);
    assert Entries(t, true, Toks(Closed, all)) + [] == Entries(t, true, Toks(Closed, all));
    forall u ensures SectionCount(u, Toks(Closed, Whole(before, head, all, after))) == if u == t then 1 else SectionCount(u, Toks(Closed, lines)) {
      CountOfWhole(t, u, before, head, content, after);
      CountOfWhole(t, u, before, head, all, after);
    }
  }

  /** A body with an unfenced heading is never read back as one entry: no entry's body holds a heading. */
  lemma HeadsNeverRead(t: string, heading: string, body: seq<string>, out: seq<string>)
    requires !NoHeads(Toks(Closed, body))
    ensures NewEntry(heading, body) !in Read(t, out)
  {
    hide Toks, Entries, CutBlank, NoHeads, Blank;
    var x := Toks(Closed, [""] + body);
    EmptyIsBlank();
    PaddedHolds([""], body, []);
    assert [""] + body + [] == [""] + body;
    HeadsVisible(Closed, [""] + body);
    HeadsKept(x);
    BodiesHoldNoHeads(t, false, Toks(Closed, out));
  }

  lemma HeadsKept(toks: seq<Tok>)
    requires forall k | k in toks && k.IsHead() :: !Blank(k.line)
    ensures NoHeads(CutBlank(toks)) ==> NoHeads(toks)
  {
    hide Blank, CutBlank;
    var cut := CutBlank(toks);
    if NoHeads(cut) {
      forall k | k in toks ensures !k.IsHead() {
        if k !in cut {
          assert toks == cut + toks[|cut|..];
          assert k in toks[|cut|..];
        }
      }
    }
  }

  lemma {:induction false} BodiesHoldNoHeads(t: string, inside: bool, toks: seq<Tok>)
    ensures forall e | e in Entries(t, inside, toks) :: NoHeads(e.body)
    decreases |toks|
  {
    hide CutBlank, Entries, Body;
    if toks == [] {
      InsideNothing(t, inside);
    } else {
      var k, rest := toks[0], toks[1..];
      assert toks == [k] + rest;
      BodiesHoldNoHeads(t, if k.kind == SectionHead then k.Title() == t else inside, rest);
      EntriesCons(t, inside, k, rest);
      var b := Body(rest);
      assert b == CutBlank(b) + b[|CutBlank(b)|..];
      NoHeadsPrefix(CutBlank(b), b[|CutBlank(b)|..]);
    }
  }

  /** An entry whose body leaves a fence open takes the visible line it is put above into its body. */
  lemma OpenReads(t: string, a: seq<string>, heading: string, shown: seq<string>, q: seq<string>, g: seq<string>)
    requires After(Closed, a) == Closed && InsideAfter(t, false, Toks(Closed, a)) && IsEntryHead(heading)
    requires NoHeads(Toks(Closed, shown + q)) && (forall l | l in q :: Blank(l)) && After(Closed, shown + q) != Closed
    requires g != [] && !Blank(g[0])
    ensures var out, n := a + ([heading] + shown + [""]) + g, |Entries(t, false, Toks(Closed, a))|;
      && n < |Read(t, out)| && |Read(t, out)[n].body| > |CutBlank(Toks(Closed, shown + q))|
      && |Read(t, out)[n].body| > |shown| && Read(t, out)[n].body[|shown|].kind == Fenced
  {
    hide Toks, After, Entries, Read, NoHeads, CutBlank, Blank, InsideAfter, IsEntryHead, Body, KindOf;
    EntryHeadKind(heading);
    var rest := shown + [""] + g;
    assert a + ([heading] + shown + [""]) + g == a + [heading] + rest;
    var k, toks := Tok(EntryHead, heading), Toks(Closed, rest);
    ToksAroundHead(a, heading, rest);
    assert Toks(Closed, a) + [k] + toks == Toks(Closed, a) + ([k] + toks);
    EntriesMeet(t, false, Toks(Closed, a), [k] + toks);
    EntriesCons(t, true, k, toks);
    ReadIs(t, a + [heading] + rest);
    OpenBody(shown, q, g);
  }

  lemma OpenBody(shown: seq<string>, q: seq<string>, g: seq<string>)
    requires NoHeads(Toks(Closed, shown + q)) && (forall l | l in q :: Blank(l)) && After(Closed, shown + q) != Closed
    requires g != [] && !Blank(g[0])
    ensures var read := CutBlank(Body(Toks(Closed, shown + [""] + g)));
      |read| > |shown| >= |CutBlank(Toks(Closed, shown + q))| && read[|shown|].kind == Fenced
  {
    hide Toks, After, CutBlank, Blank, Body, KindOf;
    EmptyIsBlank();
    EmptyDoc();
    PadsAround([], shown, q);
    PadsAround([], shown, [""]);
    assert [] + shown + q == shown + q && [] + shown + [""] == shown + [""] && [] + Toks(Closed, shown) == Toks(Closed, shown);
    var f := After(Closed, shown);
    CutBlankPad(Toks(Closed, shown), Toks(f, q));
    NoHeadsPrefix(Toks(Closed, shown), Toks(f, q));
    ToksConcat(Closed, shown + [""], g);
    var x, y := Toks(Closed, shown + [""]), Toks(f, g);
    BodyPrefix(x, y);
    ToksCons(f, g, 0);
    FencedInside(f, g[0]);
    assert g[0..] == g && y[0] == Tok(Fenced, g[0]);
    FirstOfBody(y);
    CutBlankReaches(x + Body(y), |shown| + 1);
    ToksConcat(Closed, shown, [""]);
    OneTok(f, "");
    FencedInside(f, "");
    assert x[|shown|] == Tok(Fenced, "");
  }

  /** A written body that leaves a fence open, put above a visible line, is not read back. */
  lemma OpenNotRead(t: string, a: seq<string>, heading: string, body: seq<string>, g: seq<string>)
    requires After(Closed, a) == Closed && InsideAfter(t, false, Toks(Closed, a)) && IsEntryHead(heading)
    requires NoHeads(Toks(Closed, body)) && After(Closed, body) != Closed && g != [] && !Blank(g[0])
    ensures var out, n := a + ([heading] + Spaced(body) + [""]) + g, |Entries(t, false, Toks(Closed, a))|;
      n < |Read(t, out)| && Read(t, out)[n] != NewEntry(heading, body)
  {
    hide Toks, After, Entries, Read, NoHeads, CutBlank, Blank, InsideAfter, IsEntryHead;
    EmptyIsBlank();
    BlankBodyCloses();
    PaddedHolds([""], body, []);
    assert [""] + body + [] == [""] + body && Spaced(body) + [] == Spaced(body);
    OpenReads(t, a, heading, Spaced(body), [], g);
  }

  lemma BlankBodyCloses()
    ensures After(Closed, [""]) == Closed
  {
    EmptyIsBlank();
    BlankLines(Closed, [""]);
  }

  lemma AppendOpenFails(t: string, lines: seq<string>, idx: nat, end: nat, filtered: seq<string>, heading: string, body: seq<string>)
    requires idx == FirstSection(t, Toks(Closed, lines)) < |lines|
    requires end == idx + 1 + NextSection(Toks(Closed, lines[idx + 1..])) < |lines|
    requires Toks(Closed, filtered) == Without(Toks(Closed, lines[idx + 1..end]), false) && After(Closed, filtered) == After(Closed, lines[idx + 1..end])
    requires IsEntryHead(heading) && Closes(t, lines) && Once(t, lines) && NoHeads(Toks(Closed, body)) && After(Closed, body) != Closed
    ensures !AppendDone(t, lines, heading, body, lines[..idx + 1] + Appended(TrimBlank(filtered), heading, body) + lines[end..])
  {
    hide *;
    SectionParts(t, lines);
    var before, head, content, after := lines[..idx], lines[idx], lines[idx + 1..end], lines[end..];
    PartsWith(t, before, head, content, after, []);
    var x := KeptReads(t, content, filtered);
    PartsWith(t, before, head, content, after, x + [""]);
    WholeIs(before, head, content, after);
    WholeIs(before, head, x + [""], []);
    assert before + [head] + (x + [""]) + [] == before + [head] + (x + [""]);
    EmptyIsBlank();
    PaddedHolds([], x, [""]);
    PaddedHolds([], content, []);
    EmptyDoc();
    assert [] + x + [""] == x + [""] && [] + content + [] == content;
    var a := before + [head] + (x + [""]);
    ToksAroundHead(before, head, x + [""]);
    assert Whole(before, head, content, after) == lines && Whole(before, head, x + [""], []) == a;
    OnceAfter(t, before, head, content, after);
    ReadParts(t, t, before, head, x + [""], []);
    ReadIs(t, a);
    InsideNothing(t, false);
    InsideParts(t, Toks(Closed, before), Tok(SectionHead, head), Toks(Closed, x + [""]));
    HeadVisible(after);
    OpenNotRead(t, a, heading, body, after);
    AppendedApart(lines, idx, end, TrimBlank(filtered), x, heading, body);
    NotAppended(t, lines, heading, body, lines[..idx + 1] + Appended(TrimBlank(filtered), heading, body) + lines[end..]);
  }

  lemma NotAppended(t: string, lines: seq<string>, heading: string, body: seq<string>, out: seq<string>)
    ensures var n := |Strips(Read(t, lines), false)|;
      n < |Read(t, out)| && Read(t, out)[n] != NewEntry(heading, body) ==> !AppendDone(t, lines, heading, body, out)
  {
    hide Read, Strips, NewEntry, SectionCount, Toks;
  }

  /** What the parts of a document are, and that they stay parts with other content at the end. */
  lemma PartsWith(t: string, before: seq<string>, head: string, content: seq<string>, after: seq<string>, x: seq<string>)
    requires Parts(t, before, head, content, after)
    ensures NoSections(Toks(Closed, content)) && After(Closed, before) == Closed && Next(Closed, head) == Closed
    ensures KindOf(Closed, head) == SectionHead && IsSection(t, Tok(SectionHead, head))
    ensures after != [] ==> After(Closed, content) == Closed && Toks(Closed, after)[0].kind == SectionHead
    ensures NoSections(Toks(Closed, x)) ==> Parts(t, before, head, x, [])
  {
    hide Toks, After, Next, KindOf, SectionCount, NoSections, IsSection;
  }

  lemma InsideParts(t: string, before: seq<Tok>, head: Tok, content: seq<Tok>)
    requires IsSection(t, head) && NoSections(content)
    ensures InsideAfter(t, false, before + [head] + content)
  {
    hide InsideAfter, NoSections;
    assert before + [head] + content == before + ([head] + content);
    InsideMeet(t, false, before, [head] + content);
    InsideCons(t, InsideAfter(t, false, before), head, content);
    NoSectionsStayInside(t, true, content);
  }

  lemma HeadVisible(after: seq<string>)
    requires after != [] && Toks(Closed, after)[0].kind == SectionHead
    ensures !Blank(after[0])
  {
    hide Toks, Blank, KindOf;
    ToksCons(Closed, after, 0);
    assert after[0..] == after;
    HeadIsOutside(Closed, after[0]);
  }

  lemma AppendedApart(lines: seq<string>, idx: nat, end: nat, kept: seq<string>, x: seq<string>, heading: string, body: seq<string>)
    requires idx < end <= |lines| && x == (if kept != [] then [""] + kept else [])
    ensures lines[..idx + 1] + Appended(kept, heading, body) + lines[end..]
         == lines[..idx] + [lines[idx]] + (x + [""]) + ([heading] + Spaced(body) + [""]) + lines[end..]
  {
    hide Spaced;
  }

  /** Whatever unfenced section headings a body with closed fences holds become sections of the file. */
  lemma AppendGrowsSections(t: string, lines: seq<string>, idx: nat, end: nat, filtered: seq<string>, heading: string, body: seq<string>)
    requires idx == FirstSection(t, Toks(Closed, lines)) < |lines|
    requires end == idx + 1 + NextSection(Toks(Closed, lines[idx + 1..]))
    requires Toks(Closed, filtered) == Without(Toks(Closed, lines[idx + 1..end]), false) && After(Closed, filtered) == After(Closed, lines[idx + 1..end])
    requires IsEntryHead(heading) && Closes(t, lines) && Once(t, lines) && After(Closed, body) == Closed
    ensures SectionsGrow(t, lines, body, lines[..idx + 1] + Appended(TrimBlank(filtered), heading, body) + lines[end..])
  {
    hide Toks, After, Entries, Without, Strips, TrimBlank, FirstSection, NextSection, IsEntryHead, NoHeads, SectionCount, Spaced, Blank, KindOf, Next;
    SectionParts(t, lines);
    var before, head, content, after := lines[..idx], lines[idx], lines[idx + 1..end], lines[end..];
    var x := KeptReads(t, content, filtered);
    EmptyIsBlank();
    PaddedHolds([], x, [""]);
    EmptyDoc();
    assert [] + x + [""] == x + [""];
    var a := before + [head] + (x + [""]);
    ToksAroundHead(before, head, x + [""]);
    AppendedApart(lines, idx, end, TrimBlank(filtered), x, heading, body);
    assert Whole(before, head, content, after) == lines && Whole(before, head, x + [""], []) == a;
    OneCounts(t, lines);
    forall u ensures SectionCount(u, Toks(Closed, a + ([heading] + Spaced(body) + [""]) + after))
      == SectionCount(u, Toks(Closed, lines)) + SectionCount(u, Toks(Closed, body))
    {
      CountOfWhole(t, u, before, head, content, after);
      CountOfWhole(t, u, before, head, x + [""], []);
      NoSectionsCount(u, []);
      CountAround(u, a, heading, body, [""], after);
    }
  }

  lemma CountAround(u: string, a: seq<string>, heading: string, body: seq<string>, tail: seq<string>, after: seq<string>)
    requires After(Closed, a) == Closed && IsEntryHead(heading) && After(Closed, body) == Closed && (forall l | l in tail :: Blank(l))
    ensures SectionCount(u, Toks(Closed, a + ([heading] + Spaced(body) + tail) + after))
         == SectionCount(u, Toks(Closed, a)) + SectionCount(u, Toks(Closed, body)) + SectionCount(u, Toks(Closed, after))
  {
    hide Toks, After, IsEntryHead, SectionCount, Spaced, Blank;
    EntryHeadKind(heading);
    var x := Spaced(body) + tail;
    SpacedBody(body, tail);
    var k, tx, ty := Tok(EntryHead, heading), Toks(Closed, x), Toks(Closed, after);
    assert a + ([heading] + Spaced(body) + tail) + after == a + [heading] + (x + after);
    ToksAroundHead(a, heading, x + after);
    ToksConcat(Closed, x, after);
    SectionCountConcat(u, Toks(Closed, a) + [k], tx + ty);
    SectionCountConcat(u, Toks(Closed, a), [k]);
    SectionCountConcat(u, tx, ty);
    OneHeadCounts(u, k);
  }

  /** `appendEntryLocked` on a file's lines; `body` is the body's lines, `[""]` for an empty one. */
  method AppendEntry(lines: seq<string>, t: string, heading: string, body: seq<string>) returns (out: seq<string>)
    requires lines != []
    ensures IsEntryHead(heading) && Once(t, lines) && Trim(t) == t ==>
              (AppendDone(t, lines, heading, body, out) <==> Closes(t, lines) && Fits(body, NothingFollows(t, lines)))
    ensures IsEntryHead(heading) && Once(t, lines) && Trim(t) == t && Closes(t, lines) && After(Closed, body) == Closed ==>
              SectionsGrow(t, lines, body, out)
    ensures !Closes(t, lines) ==> !AppendDone(t, lines, heading, body, out) && SwallowsHeading(heading, body, out)
  {
    hide *;
    var idx := FindSection(lines, t);
    NothingFollowsIs(t, lines);
    FitsIs(body, NothingFollows(t, lines));
    if idx == -1 {
      out := StripNewlines(lines) + ["", "## " + t, "", heading] + Spaced(body) + [""];
      AppendGrows(t, lines, heading, body);
      return;
    }
    var fenced := new FenceTracker();
    var end := NextSectionHeading(lines, idx + 1, fenced);
    var filtered := DropPlaceholders(lines[idx + 1..end]);
    var content := TrimLeadingBlankLines(filtered);
    content := TrimTrailingBlankLines(content);
    TrimBlankIs(filtered);
    out := lines[..idx + 1] + Appended(content, heading, body) + lines[end..];
    if !Closes(t, lines) {
      AppendSwallowed(t, lines, idx, end, filtered, heading, body);
    } else if IsEntryHead(heading) && Once(t, lines) {
      AppendDecided(t, lines, idx, end, filtered, heading, body);
    }
  }

  lemma NothingFollowsIs(t: string, lines: seq<string>)
    ensures var h := FirstSection(t, Toks(Closed, lines));
      NothingFollows(t, lines) <==> h == |lines| || (h < |lines| && h + 1 + NextSection(Toks(Closed, lines[h + 1..])) == |lines|)
  {
    hide Toks, NextSection;
  }

  lemma AppendDecided(t: string, lines: seq<string>, idx: nat, end: nat, filtered: seq<string>, heading: string, body: seq<string>)
    requires idx == FirstSection(t, Toks(Closed, lines)) < |lines|
    requires end == idx + 1 + NextSection(Toks(Closed, lines[idx + 1..]))
    requires Toks(Closed, filtered) == Without(Toks(Closed, lines[idx + 1..end]), false) && After(Closed, filtered) == After(Closed, lines[idx + 1..end])
    requires IsEntryHead(heading) && Closes(t, lines) && Once(t, lines)
    ensures var out := lines[..idx + 1] + Appended(TrimBlank(filtered), heading, body) + lines[end..];
      && (AppendDone(t, lines, heading, body, out) <==> Fits(body, end == |lines|))
      && (After(Closed, body) == Closed ==> SectionsGrow(t, lines, body, out))
  {
    hide *;
    FitsIs(body, end == |lines|);
    var out := lines[..idx + 1] + Appended(TrimBlank(filtered), heading, body) + lines[end..];
    NextSectionBound(lines, idx);
    if Fits(body, end == |lines|) {
      AppendToSection(t, lines, idx, end, filtered, heading, body);
    } else if !NoHeads(Toks(Closed, body)) {
      HeadsNeverRead(t, heading, body, out);
      AppendDoneReads(t, lines, heading, body, out);
    } else {
      AppendOpenFails(t, lines, idx, end, filtered, heading, body);
    }
    if After(Closed, body) == Closed {
      AppendGrowsSections(t, lines, idx, end, filtered, heading, body);
    }
  }

  lemma AppendDoneReads(t: string, lines: seq<string>, heading: string, body: seq<string>, out: seq<string>)
    ensures AppendDone(t, lines, heading, body, out) ==>
              && |Read(t, out)| == |Read(t, lines)| + 1 && Read(t, out)[|Read(t, lines)|] == NewEntry(heading, body)
              && NewEntry(heading, body) in Read(t, out)
  {
    hide Read, NewEntry, Strips;
  }

  lemma NextSectionBound(lines: seq<string>, idx: nat)
    requires idx < |lines|
    ensures idx + 1 + NextSection(Toks(Closed, lines[idx + 1..])) <= |lines|
  {
  }

  lemma OneCounts(t: string, lines: seq<string>)
    requires FirstSection(t, Toks(Closed, lines)) < |lines| && Once(t, lines)
    ensures SectionCount(t, Toks(Closed, lines)) == 1
  {
    hide Toks, FirstSection, SectionCount;
    FirstSectionIsFirst(t, Toks(Closed, lines));
  }

  lemma TrimBlankIs(lines: seq<string>)
    ensures TrimBlank(lines) == DropTrailing(DropLeading(lines))
  {
  }

  lemma AppendGrows(t: string, lines: seq<string>, heading: string, body: seq<string>)
    requires lines != [] && FirstSection(t, Toks(Closed, lines)) == |lines|
    ensures var out := StripNewlines(lines) + ["", "## " + t, "", heading] + Spaced(body) + [""];
      && (IsEntryHead(heading) && Closes(t, lines) && Trim(t) == t ==>
            && (AppendDone(t, lines, heading, body, out) <==> NoHeads(Toks(Closed, body)))
            && (After(Closed, body) == Closed ==> SectionsGrow(t, lines, body, out)))
      && (!Closes(t, lines) ==> !AppendDone(t, lines, heading, body, out) && SwallowsHeading(heading, body, out))
  {
    hide Toks, After, Entries, Spaced, IsEntryHead, StripNewlines, SectionCount, Trim, FirstSection, NewEntry, NoHeads, Read;
    FirstSectionIsFirst(t, Toks(Closed, lines));
    NoSectionNoEntries(t, Toks(Closed, lines));
    ReadIs(t, lines);
    StripsOfNothing();
    var out := StripNewlines(lines) + ["", "## " + t, "", heading] + Spaced(body) + [""];
    if !Closes(t, lines) {
      GrowsFenced(t, lines, heading, body);
    } else if IsEntryHead(heading) && Trim(t) == t {
      if NoHeads(Toks(Closed, body)) {
        GrownReads(t, lines, heading, body);
      } else {
        HeadsNeverRead(t, heading, body, out);
        AppendDoneReads(t, lines, heading, body, out);
      }
      if After(Closed, body) == Closed {
        GrownCounts(t, lines, heading, body);
      }
    }
  }

  lemma GrownCounts(t: string, lines: seq<string>, heading: string, body: seq<string>)
    requires lines != [] && After(Closed, lines) == Closed && IsEntryHead(heading) && After(Closed, body) == Closed && Trim(t) == t
    requires SectionCount(t, Toks(Closed, lines)) == 0
    ensures SectionsGrow(t, lines, body, StripNewlines(lines) + ["", "## " + t, "", heading] + Spaced(body) + [""])
  {
    hide Toks, After, Entries, Spaced, IsEntryHead, Blank, StripNewlines, SectionCount, Trim, Next, KindOf, Read;
    var base := GrownBase(lines);
    var head := "## " + t;
    SectionHeading(t);
    EmptyIsBlank();
    EmptyDoc();
    BlankLines(Closed, [""]);
    var a := base + [""] + [head] + [""];
    ToksAroundHead(base + [""], head, [""]);
    PaddedHolds([], [], [""]);
    assert [] + [] + [""] == [""];
    assert Parts(t, base + [""], head, [""], []);
    assert Whole(base + [""], head, [""], []) == a;
    assert a + ([heading] + Spaced(body) + [""]) + [] == base + ["", head, "", heading] + Spaced(body) + [""];
    forall u ensures SectionCount(u, Toks(Closed, base + ["", head, "", heading] + Spaced(body) + [""]))
      == (if u == t then 1 else SectionCount(u, Toks(Closed, lines))) + SectionCount(u, Toks(Closed, body))
    {
      CountOfWhole(t, u, base + [""], head, [""], []);
      NoSectionsCount(u, []);
      CountAround(u, a, heading, body, [""], []);
    }
  }

  lemma StripsOfNothing()
    ensures Strips([], false) == [] && forall e: Entry :: [] + [e] == [e]
  {
  }

  /** The new heading's own line, the last but the body's, is one the document-wide tracker reports as
      fenced: no reader lists it. */
  ghost predicate SwallowsHeading(heading: string, body: seq<string>, out: seq<string>) {
    var i := |out| - |Spaced(body)| - 2;
    0 <= i && out[i] == heading && Toks(Closed, out)[i].kind == Fenced
  }

  /** An unclosed fence in the section swallows what is appended to it. */
  lemma AppendSwallowed(t: string, lines: seq<string>, idx: nat, end: nat, filtered: seq<string>, heading: string, body: seq<string>)
    requires idx == FirstSection(t, Toks(Closed, lines)) < |lines|
    requires end == idx + 1 + NextSection(Toks(Closed, lines[idx + 1..]))
    requires Toks(Closed, filtered) == Without(Toks(Closed, lines[idx + 1..end]), false) && After(Closed, filtered) == After(Closed, lines[idx + 1..end])
    requires !Closes(t, lines)
    ensures var out := lines[..idx + 1] + Appended(TrimBlank(filtered), heading, body) + lines[end..];
      !AppendDone(t, lines, heading, body, out) && SwallowsHeading(heading, body, out)
  {
    hide Toks, After, TrimBlank, FirstSection, NextSection, Blank, KindOf, Next, Spaced, Entries, Read, Without, Strips, SectionCount;
    SectionParts(t, lines);
    var before, head, content := lines[..idx], lines[idx], lines[idx + 1..end];
    var kept := TrimBlank(filtered);
    TrimBlankEntries(t, true, filtered);
    EntriesWithout(t, true, Toks(Closed, content), false);
    WithoutKeeps(Toks(Closed, content), false);
    EmptyIsBlank();
    PaddedEntries(t, true, [""], kept, [""]);
    EmptyDoc();
    assert kept != [] && lines[end..] == [];
    var x := [""] + kept + [""];
    ToksAroundHead(before, head, x);
    assert Whole(before, head, content, []) == lines && Whole(before, head, x, []) == before + [head] + x;
    ReadParts(t, t, before, head, content, []);
    ReadParts(t, t, before, head, x, []);
    InsideNothing(t, false);
    FencedAppendFails(t, lines, before + [head] + x, heading, body);
    AppendedAround(lines, idx, end, kept, x, heading, body);
  }

  lemma AppendedAround(lines: seq<string>, idx: nat, end: nat, kept: seq<string>, x: seq<string>, heading: string, body: seq<string>)
    requires idx < end <= |lines| && kept != [] && x == [""] + kept + [""] && lines[end..] == []
    ensures lines[..idx + 1] + Appended(kept, heading, body) + lines[end..]
         == lines[..idx] + [lines[idx]] + x + ([heading] + Spaced(body) + [""])
  {
    hide Spaced;
  }

  /** An unclosed fence at the end of a file that lacks the section swallows the section it grows. */
  lemma GrowsFenced(t: string, lines: seq<string>, heading: string, body: seq<string>)
    requires lines != [] && After(Closed, lines) != Closed
    ensures var out := StripNewlines(lines) + ["", "## " + t, "", heading] + Spaced(body) + [""];
      !AppendDone(t, lines, heading, body, out) && SwallowsHeading(heading, body, out)
  {
    hide Toks, After, Entries, Spaced, StripNewlines, Blank, KindOf, Next, Read;
    var base, more := StripNewlines(lines), ["", "## " + t, ""];
    StripNewlinesPads(lines);
    assert lines == base + lines[|base|..];
    PaddedEntriesAll(base, lines[|base|..]);
    ReadIs(t, base);
    ReadIs(t, base + more);
    var f := After(Closed, base);
    ToksConcat(Closed, base, more);
    HeadingStaysFenced(f, "## " + t);
    EntriesOn(t, false, Toks(Closed, base), Toks(f, more));
    ProseReadsNothing(t, InsideAfter(t, false, Toks(Closed, base)), Toks(f, more));
    FencedAppendFails(t, lines, base + more, heading, body);
    assert base + more + ([heading] + Spaced(body) + [""]) == base + ["", "## " + t, "", heading] + Spaced(body) + [""];
  }

  lemma HeadingStaysFenced(f: Fence, line: string)
    requires f != Closed && "## " <= line
    ensures NoHeads(Toks(f, ["", line, ""])) && After(f, ["", line, ""]) == f
  {
    hide KindOf, Blank;
    EmptyIsBlank();
    NotAMarker("");
    HashIsNotAMarker(line);
    FencedInside(f, line);
    FencedInside(f, "");
    ToksConcat(f, [""] + [line], [""]);
    ToksConcat(f, [""], [line]);
    OneTok(f, "");
    OneTok(f, line);
    assert [""] + [line] + [""] == ["", line, ""];
  }

  lemma FencedInside(f: Fence, line: string)
    requires f != Closed
    ensures KindOf(f, line) == Fenced
  {
  }

  /** Written behind an open fence an entry is never read as what was written, whatever its body does
      to the fence: what is read there has its heading inside the body, so it is shorter. */
  lemma FencedAppendFails(t: string, lines: seq<string>, pre: seq<string>, heading: string, body: seq<string>)
    requires After(Closed, pre) != Closed && |Read(t, pre)| == |Read(t, lines)|
    ensures var out := pre + ([heading] + Spaced(body) + [""]);
      !AppendDone(t, lines, heading, body, out) && SwallowsHeading(heading, body, out)
  {
    hide Toks, After, Entries, Spaced, KindOf, Next, Strips, Read, NewEntry;
    var out := pre + ([heading] + Spaced(body) + [""]);
    var g, a := FencedToks(t, pre, heading, Spaced(body) + [""]);
    assert out == pre + [heading] + (Spaced(body) + [""]) && out[|pre|] == heading && a[|pre|].kind == Fenced;
    var b := Toks(g, Spaced(body) + [""]);
    EntriesOn(t, false, a, b);
    ReadIs(t, out);
    var all, more := Read(t, out), Entries(t, InsideAfter(t, false, a), b);
    FencedNotLast(t, InsideAfter(t, false, a), g, heading, body);
    assert more != [] ==> more[0] in more && all[|Read(t, lines)|] == more[0];
    AppendDoneReads(t, lines, heading, body, out);
  }

  lemma FencedToks(t: string, pre: seq<string>, heading: string, tail: seq<string>) returns (g: Fence, a: seq<Tok>)
    requires After(Closed, pre) != Closed
    ensures |a| == |pre| + 1 && a[|pre|].kind == Fenced && Toks(Closed, pre + [heading] + tail) == a + Toks(g, tail)
    ensures |Entries(t, false, a)| == |Read(t, pre)|
  {
    hide Toks, After, Entries, KindOf, Next, Read;
    g, a := Next(After(Closed, pre), heading), Toks(Closed, pre) + [Tok(Fenced, heading)];
    ToksConcat(Closed, pre + [heading], tail);
    ToksConcat(Closed, pre, [heading]);
    OneTok(After(Closed, pre), heading);
    FencedInside(After(Closed, pre), heading);
    ReadIs(t, pre);
    EntriesOn(t, false, Toks(Closed, pre), [Tok(Fenced, heading)]);
    ProseReadsNothing(t, InsideAfter(t, false, Toks(Closed, pre)), [Tok(Fenced, heading)]);
  }

  lemma FencedNotLast(t: string, inside: bool, g: Fence, heading: string, body: seq<string>)
    ensures forall e | e in Entries(t, inside, Toks(g, Spaced(body) + [""])) :: e != NewEntry(heading, body)
  {
    hide Toks, Entries, Spaced, CutBlank, Blank;
    HeadsVisible(g, Spaced(body) + [""]);
    EntriesShorter(t, inside, Toks(g, Spaced(body) + [""]));
    TailVisible(g, body);
  }

  /** Reading on never changes how many entries were read before. */
  lemma {:induction false} EntriesOn(t: string, inside: bool, a: seq<Tok>, b: seq<Tok>)
    ensures |Entries(t, inside, a)| <= |Entries(t, inside, a + b)|
    ensures Entries(t, inside, a + b)[|Entries(t, inside, a)|..] == Entries(t, InsideAfter(t, inside, a), b)
    decreases |a|
  {
    hide *;
    if a == [] {
      InsideNothing(t, inside);
      assert a + b == b;
    } else {
      var k, rest := a[0], a[1..];
      var inside' := if k.kind == SectionHead then k.Title() == t else inside;
      assert a == [k] + rest && a + b == [k] + (rest + b);
      EntriesOn(t, inside', rest, b);
      EntriesCons(t, inside, k, rest);
      EntriesCons(t, inside, k, rest + b);
      InsideCons(t, inside, k, rest);
      SuffixPast(Entries(t, inside', rest + b), |Entries(t, inside', rest)|);
    }
  }

  lemma SuffixPast(es: seq<Entry>, n: nat)
    requires n <= |es|
    ensures [] + es == es && forall e: Entry :: ([e] + es)[n + 1..] == es[n..]
  {
  }

  lemma HeadsVisible(f: Fence, lines: seq<string>)
    ensures forall k | k in Toks(f, lines) && k.IsHead() :: !Blank(k.line)
  {
    hide Blank, Toks, KindOf, After;
    forall k | k in Toks(f, lines) && k.IsHead() ensures !Blank(k.line) {
      var i :| 0 <= i < |lines| && Toks(f, lines)[i] == k;
      ToksAt(f, lines, i);
      HeadIsOutside(After(f, lines[..i]), lines[i]);
    }
  }

  /** A visible line is not cut. */
  lemma CutBlankReaches(toks: seq<Tok>, i: nat)
    requires i < |toks|
    ensures !Blank(toks[i].line) ==> i < |CutBlank(toks)|
  {
    hide Blank, CutBlank;
    var n := |CutBlank(toks)|;
    forall j | n <= j < |toks| ensures Blank(toks[j].line) {
      assert toks[n..][j - n] == toks[j];
    }
  }

  lemma CutBlankCons(k: Tok, rest: seq<Tok>)
    ensures |CutBlank(rest)| <= |CutBlank([k] + rest)|
    ensures !Blank(k.line) ==> |CutBlank([k] + rest)| > |CutBlank(rest)|
  {
    hide Blank, CutBlank;
    var cut := CutBlank(rest);
    CutBlankReaches([k] + rest, |cut|);
    assert cut != [] ==> ([k] + rest)[|cut|] == cut[|cut| - 1];
  }

  lemma CutBlankPrefix(a: seq<Tok>, b: seq<Tok>)
    ensures |CutBlank(a)| <= |CutBlank(a + b)|
  {
    hide Blank, CutBlank;
    var cut := CutBlank(a);
    if cut != [] {
      CutBlankReaches(a + b, |cut| - 1);
      assert (a + b)[|cut| - 1] == cut[|cut| - 1];
    }
  }

  /** An entry's body is shorter than what its heading stands in. */
  lemma {:induction false} EntriesShorter(t: string, inside: bool, toks: seq<Tok>)
    requires forall k | k in toks && k.IsHead() :: !Blank(k.line)
    ensures forall e | e in Entries(t, inside, toks) :: |e.body| < |CutBlank(toks)|
    decreases |toks|
  {
    hide *;
    if toks == [] {
      InsideNothing(t, inside);
    } else {
      var k, rest := toks[0], toks[1..];
      assert toks == [k] + rest && k in toks && forall x | x in rest :: x in toks;
      EntriesShorter(t, if k.kind == SectionHead then k.Title() == t else inside, rest);
      EntriesCons(t, inside, k, rest);
      HeadKinds(k);
      CutBlankCons(k, rest);
      BodyCutShorter(rest);
    }
  }

  lemma BodyCutShorter(rest: seq<Tok>)
    ensures |CutBlank(Body(rest))| <= |CutBlank(rest)|
  {
    hide CutBlank, Body;
    var b := Body(rest);
    assert rest == b + rest[|b|..];
    CutBlankPrefix(b, rest[|b|..]);
  }

  /** How much of the lines is left when trailing blanks go does not depend on the fences. */
  lemma SameLinesCut(a: seq<Tok>, b: seq<Tok>)
    requires LinesOf(a) == LinesOf(b)
    ensures |CutBlank(a)| <= |CutBlank(b)|
  {
    hide Blank, CutBlank, LinesOf;
    var m := |CutBlank(a)|;
    if m > 0 {
      LinesOfAt(a, m - 1);
      LinesOfAt(b, m - 1);
      CutBlankReaches(b, m - 1);
    }
  }

  lemma TailVisible(g: Fence, body: seq<string>)
    ensures |CutBlank(Toks(g, Spaced(body) + [""]))| <= |CutBlank(Toks(Closed, [""] + body))|
  {
    hide Toks, CutBlank, Blank, After;
    EmptyIsBlank();
    if body == [""] {
      BlankLines(g, [""]);
      assert Spaced(body) + [""] == [""];
      CutBlankPad([], Toks(g, [""]));
      assert [] + Toks(g, [""]) == Toks(g, [""]) && |CutBlank([])| == 0;
    } else {
      var x := [""] + body;
      assert Spaced(body) + [""] == x + [""];
      ToksConcat(g, x, [""]);
      BlankLines(After(g, x), [""]);
      CutBlankPad(Toks(g, x), Toks(After(g, x), [""]));
      LinesOfToks(g, x);
      LinesOfToks(Closed, x);
      SameLinesCut(Toks(g, x), Toks(Closed, x));
    }
  }

  lemma PadHoldsNoSection(t: string, pad: seq<Tok>)
    requires IsPad(pad)
    ensures SectionCount(t, pad) == 0
  {
    hide Blank;
    NoSectionCount(t, pad);
  }

  // ---------------------------------------------------------------- cancel

  function Removed<T>(s: seq<T>, i: nat): seq<T>
    requires i < |s|
  {
    s[..i] + s[i + 1..]
  }

  /** What the title-checked writers and the plan commands answer. */
  datatype Outcome = Done(lines: seq<string>) | Unchanged | Gone | Moved(title: string) | EmptyTitle

  /** The lines without the range, the rest unread. */
  function CutRange(lines: seq<string>, r: Range): seq<string>
    requires 1 <= r.start <= r.end <= |lines|
  {
    lines[..r.start - 1] + lines[r.end..]
  }

  /** A document is inside at most one section. */
  lemma {:induction false} InsideOne(t: string, u: string, inT: bool, inU: bool, toks: seq<Tok>)
    requires t != u && !(inT && inU)
    ensures !(InsideAfter(t, inT, toks) && InsideAfter(u, inU, toks))
    decreases |toks|
  {
    if toks != [] {
      var k := toks[0];
      InsideOne(t, u, if k.kind == SectionHead then k.Title() == t else inT, if k.kind == SectionHead then k.Title() == u else inU, toks[1..]);
    }
  }

  /** The tokens after a located entry's block is replaced by lines of its own. */
  lemma ReplacedBlock(t: string, lines: seq<string>, k: nat, r: Range, stop: nat, block: seq<string>)
    requires Located(t, lines, k, r, stop)
    requires stop < |lines| ==> After(Closed, block) == Closed
    ensures var before, pad, after := Toks(Closed, lines[..r.start - 1]), Toks(After(Closed, block), lines[r.end..stop]), Toks(Closed, lines[stop..]);
      && Toks(Closed, lines[..r.start - 1] + block + lines[r.end..]) == before + Toks(Closed, block) + pad + after
      && IsPad(pad) && StartsAtHead(after)
  {
    hide Toks, After, Blank, Entries, InsideAfter, Read, CutBlank, NoHeads;
    var a, tail := lines[..r.start - 1], lines[r.end..stop];
    assert lines[r.end..] == tail + lines[stop..];
    assert a + block + lines[r.end..] == (a + block + tail) + lines[stop..];
    ToksConcat(Closed, a + block + tail, lines[stop..]);
    ToksConcat(Closed, a + block, tail);
    ToksConcat(Closed, a, block);
    EmptyIsBlank();
    EmptyDoc();
    assert tail == [] || tail == [""];
    BlankLines(After(Closed, block), tail);
    if stop < |lines| {
      assert tail == [];
    } else {
      assert lines[stop..] == [];
    }
  }

  /** A located entry's block replaced by another block of the section: the reading changes there only. */
  lemma ReadReplaced(t: string, lines: seq<string>, k: nat, r: Range, stop: nat, block: seq<string>)
    requires Located(t, lines, k, r, stop)
    requires StartsAtHead(Toks(Closed, block)) && NoSections(Toks(Closed, block))
    requires stop < |lines| ==> After(Closed, block) == Closed
    ensures var out := lines[..r.start - 1] + block + lines[r.end..];
      && Read(t, out) == Read(t, lines)[..k] + Entries(t, true, Toks(Closed, block)) + Read(t, lines)[k + 1..]
      && forall u | u != t :: Read(u, out) == Read(u, lines)
  {
    var before, tb, after := Toks(Closed, lines[..r.start - 1]), Toks(Closed, block), Toks(Closed, lines[stop..]);
    var head, body := Tok(EntryHead, lines[r.start - 1]), Toks(Closed, lines[r.start..stop]);
    hide Toks, After, Blank, Entries, InsideAfter, CutBlank, NoHeads, NoSections, StartsAtHead, Located;
    ReplacedBlock(t, lines, k, r, stop, block);
    LocatedParts(t, lines, k, r, stop);
    var out, pad := lines[..r.start - 1] + block + lines[r.end..], Toks(After(Closed, block), lines[r.end..stop]);
    ReadThroughBlock(t, true, before, tb, pad, after);
    ReadThroughEntry(t, t, before, head, body, after);
    forall u | u != t ensures Read(u, out) == Read(u, lines) {
      InsideOne(t, u, false, false, before);
      ReadThroughBlock(u, false, before, tb, pad, after);
      ReadThroughEntry(t, u, before, head, body, after);
    }
  }

  /** The sections of the block are sections more. */
  lemma CountReplaced(u: string, t: string, lines: seq<string>, k: nat, r: Range, stop: nat, block: seq<string>)
    requires Located(t, lines, k, r, stop)
    requires stop < |lines| ==> After(Closed, block) == Closed
    ensures SectionCount(u, Toks(Closed, lines[..r.start - 1] + block + lines[r.end..]))
         == SectionCount(u, Toks(Closed, lines)) + SectionCount(u, Toks(Closed, block))
  {
    hide *;
    LocatedBounds(t, lines, k, r, stop);
    ReplacedBlock(t, lines, k, r, stop, block);
    LocatedParts(t, lines, k, r, stop);
    var before, after := Toks(Closed, lines[..r.start - 1]), Toks(Closed, lines[stop..]);
    var head, body := Tok(EntryHead, lines[r.start - 1]), Toks(Closed, lines[r.start..stop]);
    EntryHoldsNoSection(head, body);
    CountThrough(u, before, Toks(Closed, block), Toks(After(Closed, block), lines[r.end..stop]), after);
    NoPad();
    CountThrough(u, before, [head] + body, [], after);
    NoSectionsCount(u, [head] + body);
    assert before + ([head] + body) + [] + after == before + [head] + body + after;
  }

  lemma NoPad()
    ensures IsPad([])
  {
  }

  lemma CountThrough(u: string, before: seq<Tok>, block: seq<Tok>, pad: seq<Tok>, after: seq<Tok>)
    requires IsPad(pad)
    ensures SectionCount(u, before + block + pad + after) == SectionCount(u, before) + SectionCount(u, block) + SectionCount(u, after)
  {
    hide SectionCount;
    SectionCountConcat(u, before + block + pad, after);
    SectionCountConcat(u, before + block, pad);
    SectionCountConcat(u, before, block);
    PadHoldsNoSection(u, pad);
  }

  lemma LocatedParts(t: string, lines: seq<string>, k: nat, r: Range, stop: nat)
    requires Located(t, lines, k, r, stop)
    ensures var before, after := Toks(Closed, lines[..r.start - 1]), Toks(Closed, lines[stop..]);
      var head, body := Tok(EntryHead, lines[r.start - 1]), Toks(Closed, lines[r.start..stop]);
      && Toks(Closed, lines) == before + [head] + body + after
      && NoHeads(body) && StartsAtHead(after) && InsideAfter(t, false, before)
      && Entries(t, false, before) == Read(t, lines)[..k]
      && Entries(t, true, after) == Read(t, lines)[k + 1..]
  {
  }

  lemma ReadThroughBlock(u: string, inside: bool, before: seq<Tok>, block: seq<Tok>, pad: seq<Tok>, after: seq<Tok>)
    requires StartsAtHead(block) && NoSections(block) && IsPad(pad) && StartsAtHead(after)
    requires InsideAfter(u, false, before) == inside
    ensures Entries(u, false, before + block + pad + after)
         == Entries(u, false, before) + (if inside then Entries(u, true, block) else []) + Entries(u, inside, after)
  {
    hide Entries, InsideAfter, NoSections;
    EntriesConcat(u, false, before + block, pad, after);
    MeetAnywhere(u, before, block, pad + after);
    NoSectionsStayInside(u, inside, block);
    if !inside {
      NoSectionsNoEntries(u, block);
    }
  }

  lemma MeetAnywhere(u: string, before: seq<Tok>, block: seq<Tok>, rest: seq<Tok>)
    requires StartsAtHead(block)
    ensures Entries(u, false, before + block) == Entries(u, false, before) + Entries(u, InsideAfter(u, false, before), block)
    ensures InsideAfter(u, false, before + block) == InsideAfter(u, InsideAfter(u, false, before), block)
  {
    EntriesMeet(u, false, before, block);
    InsideMeet(u, false, before, block);
  }

  lemma ReadThroughEntry(t: string, u: string, before: seq<Tok>, head: Tok, body: seq<Tok>, after: seq<Tok>)
    requires head.kind == EntryHead && NoHeads(body) && StartsAtHead(after)
    requires u != t ==> !InsideAfter(u, false, before)
    ensures u != t ==> Entries(u, false, before + [head] + body + after) == Entries(u, false, before) + Entries(u, false, after)
  {
    hide Entries, InsideAfter, CutBlank;
    if u != t {
      assert before + [head] + body + after == before + ([head] + body) + after;
      assert before + ([head] + body) + after == before + ([head] + body) + [] + after;
      OneEntry(u, false, head, body);
      EntriesConcat(u, false, before + ([head] + body), [], after);
      EntriesMeet(u, false, before, [head] + body);
      InsideMeet(u, false, before, [head] + body);
    }
  }

  /** Cutting the `k`th entry's range deletes exactly that entry, whatever the fences around it: the
      range starts at a heading and ends before one or at the end of the file. */
  lemma CancelReads(t: string, lines: seq<string>, k: nat)
    requires k < |Ranges(t, lines)|
    ensures var r := Ranges(t, lines)[k];
      && 1 <= r.start <= r.end <= |lines|
      && Read(t, CutRange(lines, r)) == Removed(Read(t, lines), k)
      && forall u | u != t :: Read(u, CutRange(lines, r)) == Read(u, lines)
  {
    hide Toks, After, Entries, Read, Located;
    var r := Ranges(t, lines)[k];
    var stop := Locate(t, lines, k);
    LocatedBounds(t, lines, k, r, stop);
    EmptyReads(t);
    EmptyDoc();
    ReadReplaced(t, lines, k, r, stop, []);
    assert lines[..r.start - 1] + [] + lines[r.end..] == CutRange(lines, r);
    assert Read(t, lines)[..k] + [] + Read(t, lines)[k + 1..] == Removed(Read(t, lines), k);
  }

  lemma LocatedBounds(t: string, lines: seq<string>, k: nat, r: Range, stop: nat)
    requires Located(t, lines, k, r, stop)
    ensures 1 <= r.start <= r.end <= stop <= |lines| && k < |Read(t, lines)|
    ensures r.title == Read(t, lines)[k].Title()
  {
  }

  /** An entry's own lines leave no fence open; only the file's last entry can. */
  ghost predicate EntryCloses(t: string, lines: seq<string>, k: nat) {
    && k < |Ranges(t, lines)| && Ranges(t, lines)[k].start <= Ranges(t, lines)[k].end <= |lines|
    && After(Closed, lines[Ranges(t, lines)[k].start..Ranges(t, lines)[k].end]) == Closed
  }

  lemma EntryClosesIs(t: string, lines: seq<string>, k: nat)
    ensures EntryCloses(t, lines, k) <==>
      && k < |Ranges(t, lines)| && Ranges(t, lines)[k].start <= Ranges(t, lines)[k].end <= |lines|
      && After(Closed, lines[Ranges(t, lines)[k].start..Ranges(t, lines)[k].end]) == Closed
  {
  }

  /** `tryCancelEntry`: positions are 1-based, as the lists number them. */
  method CancelEntry(lines: seq<string>, t: string, n: int, expected: string) returns (r: Outcome)
    ensures r == Gone <==> !(1 <= n <= |Read(t, lines)|)
    ensures 1 <= n <= |Read(t, lines)| ==>
              if Read(t, lines)[n - 1].Title() != expected then r == Moved(Read(t, lines)[n - 1].Title())
              else r.Done? && Read(t, r.lines) == Removed(Read(t, lines), n - 1) && forall u | u != t :: Read(u, r.lines) == Read(u, lines)
  {
    hide Toks, After, Entries, Read, Located, Ranges;
    var entries := ActionableEntryRanges(lines, t);
    if n < 1 || n > |entries| {
      return Gone;
    }
    var entry := entries[n - 1];
    ghost var stop := Locate(t, lines, n - 1);
    LocatedBounds(t, lines, n - 1, entry, stop);
    if entry.title != expected {
      return Moved(entry.title);
    }
    CancelReads(t, lines, n - 1);
    r := Done(lines[..entry.start - 1] + lines[entry.end..]);
  }

  // ---------------------------------------------------------------- edit

  /** The rebuilt entry's lines; a blank line separates it from what follows. */
  function Rebuilt(heading: string, body: seq<string>, rest: seq<string>): seq<string> {
    [heading] + Spaced(body) + (if exists l | l in rest :: !Blank(l) then [""] else [])
  }

  /** `spliceInEditedEntry`'s text. */
  function Edited(lines: seq<string>, r: Range, heading: string, body: seq<string>): seq<string>
    requires 1 <= r.start <= r.end <= |lines|
  {
    lines[..r.start - 1] + Rebuilt(heading, body, lines[r.end..]) + lines[r.end..]
  }

  /** What an edit promises: the `k`th entry replaced, every other entry as it was, no section more or
      less. */
  ghost predicate EditDone(t: string, lines: seq<string>, k: nat, heading: string, body: seq<string>, out: seq<string>) {
    && k < |Read(t, lines)| && Read(t, out) == Read(t, lines)[..k] + [NewEntry(heading, body)] + Read(t, lines)[k + 1..]
    && (forall u | u != t :: Read(u, out) == Read(u, lines))
    && forall u :: SectionCount(u, Toks(Closed, out)) == SectionCount(u, Toks(Closed, lines))
  }

  /** Nothing visible stands below the `k`th entry's range. */
  ghost predicate NothingBelow(t: string, lines: seq<string>, k: nat) {
    k < |Ranges(t, lines)| && Ranges(t, lines)[k].end <= |lines| && forall l | l in lines[Ranges(t, lines)[k].end..] :: Blank(l)
  }

  /** The edit keeps its promise for exactly the bodies that hold no unfenced heading and leave no fence
      open over a visible line below the entry. */
  lemma EditReads(t: string, lines: seq<string>, k: nat, heading: string, body: seq<string>)
    requires k < |Ranges(t, lines)| && IsEntryHead(heading)
    ensures var r := Ranges(t, lines)[k];
      && 1 <= r.start <= r.end <= |lines|
      && (EditDone(t, lines, k, heading, body, Edited(lines, r, heading, body)) <==> Fits(body, NothingBelow(t, lines, k)))
  {
    hide *;
    var r := Ranges(t, lines)[k];
    var stop := Locate(t, lines, k);
    LocatedBounds(t, lines, k, r, stop);
    NothingBelowIs(t, lines, k);
    FitsIs(body, NothingBelow(t, lines, k));
    if Fits(body, NothingBelow(t, lines, k)) {
      EditFits(t, lines, k, r, stop, heading, body);
    } else if !NoHeads(Toks(Closed, body)) {
      HeadsNeverRead(t, heading, body, Edited(lines, r, heading, body));
      EditDoneReads(t, lines, k, heading, body, Edited(lines, r, heading, body));
    } else {
      EditOpenFails(t, lines, k, r, stop, heading, body);
    }
  }

  lemma NothingBelowIs(t: string, lines: seq<string>, k: nat)
    requires k < |Ranges(t, lines)| && Ranges(t, lines)[k].end <= |lines|
    ensures NothingBelow(t, lines, k) <==> forall l | l in lines[Ranges(t, lines)[k].end..] :: Blank(l)
  {
    hide Ranges, Blank;
  }

  lemma EditDoneReads(t: string, lines: seq<string>, k: nat, heading: string, body: seq<string>, out: seq<string>)
    ensures EditDone(t, lines, k, heading, body, out) ==>
              k < |Read(t, out)| && Read(t, out)[k] == NewEntry(heading, body) && NewEntry(heading, body) in Read(t, out)
  {
    hide Read, NewEntry, SectionCount, Toks;
  }

  /** A visible line below the entry starts with the heading that ends it. */
  lemma BelowEntry(t: string, lines: seq<string>, k: nat, r: Range, stop: nat)
    requires Located(t, lines, k, r, stop)
    ensures (forall l | l in lines[r.end..] :: Blank(l)) <==> stop == |lines|
    ensures stop < |lines| ==> r.end == stop && !Blank(lines[r.end])
  {
    hide Toks, After, Entries, Read, InsideAfter, NoHeads, CutBlank, Blank, KindOf;
    EmptyIsBlank();
    if stop < |lines| {
      ToksCons(Closed, lines[stop..], 0);
      assert lines[stop..][0..] == lines[stop..];
      HeadIsOutside(Closed, lines[stop]);
      assert lines[stop] in lines[r.end..];
    }
  }

  /** The rebuilt entry's tokens. */
  lemma RebuiltToks(t: string, heading: string, body: seq<string>, rest: seq<string>) returns (tail: seq<string>)
    requires IsEntryHead(heading)
    ensures tail == (if exists l | l in rest :: !Blank(l) then [""] else []) && forall l | l in tail :: Blank(l)
    ensures var block, x := Rebuilt(heading, body, rest), Toks(Closed, Spaced(body) + tail);
      && block == [heading] + (Spaced(body) + tail)
      && Toks(Closed, block) == [Tok(EntryHead, heading)] + x && After(Closed, block) == After(Closed, body)
      && StartsAtHead(Toks(Closed, block))
      && (NoHeads(Toks(Closed, body)) ==> NoSections(Toks(Closed, block)) && Entries(t, true, Toks(Closed, block)) == [NewEntry(heading, body)])
      && (forall u :: SectionCount(u, Toks(Closed, block)) == SectionCount(u, Toks(Closed, body)))
      && |Entries(t, true, Toks(Closed, block))| == 1 + |Entries(t, true, Toks(Closed, body))|
      && (NoSections(Toks(Closed, block)) <==> NoSections(Toks(Closed, body)))
  {
    hide Toks, After, Entries, CutBlank, Blank, IsEntryHead, Spaced, Body, NoHeads, SectionCount, NoSections;
    EmptyIsBlank();
    tail := if exists l | l in rest :: !Blank(l) then [""] else [];
    SpacedBody(body, tail);
    EntryHeadKind(heading);
    EmptyDoc();
    var k, x := Tok(EntryHead, heading), Toks(Closed, Spaced(body) + tail);
    ToksAroundHead([], heading, Spaced(body) + tail);
    assert [] + [heading] + (Spaced(body) + tail) == [heading] + (Spaced(body) + tail) && [] + [k] + x == [k] + x;
    EntriesCons(t, true, k, x);
    if NoHeads(Toks(Closed, body)) {
      OneEntry(t, true, k, x);
      EntryHoldsNoSection(k, x);
    }
    forall u ensures SectionCount(u, [k] + x) == SectionCount(u, Toks(Closed, body)) {
      SectionCountConcat(u, [k], x);
      OneHeadCounts(u, k);
    }
    HeadAddsNoSection(k, x);
  }

  lemma HeadAddsNoSection(k: Tok, x: seq<Tok>)
    requires k.kind == EntryHead
    ensures NoSections([k] + x) <==> NoSections(x)
  {
    assert forall y :: y in [k] + x <==> y == k || y in x;
  }

  lemma EditFits(t: string, lines: seq<string>, k: nat, r: Range, stop: nat, heading: string, body: seq<string>)
    requires Located(t, lines, k, r, stop) && IsEntryHead(heading) && Fits(body, forall l | l in lines[r.end..] :: Blank(l))
    ensures EditDone(t, lines, k, heading, body, Edited(lines, r, heading, body))
  {
    hide Toks, After, Entries, Read, Located, NewEntry, Blank, IsEntryHead, Spaced, Rebuilt, NoHeads, SectionCount, NoSections, StartsAtHead;
    LocatedBounds(t, lines, k, r, stop);
    BelowEntry(t, lines, k, r, stop);
    var tail := RebuiltToks(t, heading, body, lines[r.end..]);
    ReadReplaced(t, lines, k, r, stop, Rebuilt(heading, body, lines[r.end..]));
    forall u ensures SectionCount(u, Toks(Closed, Edited(lines, r, heading, body))) == SectionCount(u, Toks(Closed, lines)) {
      CountReplaced(u, t, lines, k, r, stop, Rebuilt(heading, body, lines[r.end..]));
      NoSectionsCount(u, Toks(Closed, Rebuilt(heading, body, lines[r.end..])));
    }
  }

  lemma EditOpenFails(t: string, lines: seq<string>, k: nat, r: Range, stop: nat, heading: string, body: seq<string>)
    requires Located(t, lines, k, r, stop) && IsEntryHead(heading)
    requires NoHeads(Toks(Closed, body)) && After(Closed, body) != Closed && !(forall l | l in lines[r.end..] :: Blank(l))
    ensures !EditDone(t, lines, k, heading, body, Edited(lines, r, heading, body))
  {
    hide Toks, After, Entries, Read, NewEntry, Blank, IsEntryHead, Spaced, NoHeads, SectionCount, NoSections, StartsAtHead, InsideAfter, CutBlank;
    BelowEntry(t, lines, k, r, stop);
    EditDoneReads(t, lines, k, heading, body, Edited(lines, r, heading, body));
    OpenNotRead(t, lines[..r.start - 1], heading, body, lines[r.end..]);
    assert exists l | l in lines[r.end..] :: !Blank(l);
    assert Rebuilt(heading, body, lines[r.end..]) == [heading] + Spaced(body) + [""];
  }

  /** What a body with closed fences adds that it should not: a section for each of its unfenced `## `
      lines, and, if it has none, an entry for each of its unfenced `### ` lines. */
  lemma EditGrows(t: string, lines: seq<string>, k: nat, heading: string, body: seq<string>)
    requires k < |Ranges(t, lines)| && IsEntryHead(heading) && After(Closed, body) == Closed
    ensures var r := Ranges(t, lines)[k];
      && 1 <= r.start <= r.end <= |lines|
      && var out := Edited(lines, r, heading, body);
         && (forall u :: SectionCount(u, Toks(Closed, out)) == SectionCount(u, Toks(Closed, lines)) + SectionCount(u, Toks(Closed, body)))
         && (NoSections(Toks(Closed, body)) ==> |Read(t, out)| == |Read(t, lines)| + |Entries(t, true, Toks(Closed, body))|)
  {
    hide Toks, After, Entries, Read, Located, NewEntry, Blank, IsEntryHead, Spaced, Rebuilt, NoHeads, SectionCount, NoSections, StartsAtHead, InsideAfter, CutBlank;
    var r := Ranges(t, lines)[k];
    var stop := Locate(t, lines, k);
    LocatedBounds(t, lines, k, r, stop);
    var tail := RebuiltToks(t, heading, body, lines[r.end..]);
    var block := Rebuilt(heading, body, lines[r.end..]);
    forall u ensures SectionCount(u, Toks(Closed, Edited(lines, r, heading, body)))
      == SectionCount(u, Toks(Closed, lines)) + SectionCount(u, Toks(Closed, body))
    {
      CountReplaced(u, t, lines, k, r, stop, block);
    }
    if NoSections(Toks(Closed, body)) {
      ReadReplaced(t, lines, k, r, stop, block);
    }
  }

  lemma BlockStartsAtHead(heading: string, rest: seq<string>)
    requires IsEntryHead(heading)
    ensures StartsAtHead(Toks(Closed, [heading] + rest))
  {
    EntryHeadKind(heading);
  }

  lemma RangesCount(t: string, lines: seq<string>)
    ensures |Ranges(t, lines)| == |Read(t, lines)|
  {
  }

  lemma HeadingIsHead(title: string, stamp: string)
    ensures IsEntryHead("### " + title + stamp)
  {
    assert ("### " + title + stamp)[..4] == "### ";
  }

  /** What an edit of the `k`th entry comes to: nothing is written when the text would not change; the
      promise is kept exactly for the bodies that fit; and a body with closed fences adds its section
      headings to the file and, if it has none, its entry headings to the section. */
  ghost predicate EditOutcome(t: string, lines: seq<string>, k: nat, heading: string, body: seq<string>, r: Outcome) {
    && (r.Done? || r == Unchanged) && (r.Done? ==> r.lines != lines)
    && var out := if r.Done? then r.lines else lines;
       && (EditDone(t, lines, k, heading, body, out) <==> Fits(body, NothingBelow(t, lines, k)))
       && (After(Closed, body) == Closed ==> GrownBy(t, lines, body, out))
  }

  ghost predicate GrownBy(t: string, lines: seq<string>, body: seq<string>, out: seq<string>) {
    && (forall u :: SectionCount(u, Toks(Closed, out)) == SectionCount(u, Toks(Closed, lines)) + SectionCount(u, Toks(Closed, body)))
    && (NoSections(Toks(Closed, body)) ==> |Read(t, out)| == |Read(t, lines)| + |Entries(t, true, Toks(Closed, body))|)
  }

  /** `spliceInEditedEntry`: the range replaced, and nothing written when the text would not change. */
  method SpliceInEditedEntry(lines: seq<string>, entry: Range, heading: string, body: seq<string>, ghost t: string, ghost k: nat) returns (r: Outcome)
    requires k < |Ranges(t, lines)| && entry == Ranges(t, lines)[k] && 1 <= entry.start <= entry.end <= |lines| && IsEntryHead(heading)
    ensures EditOutcome(t, lines, k, heading, body, r)
  {
    hide Toks, After, Read, Entries, SectionCount, NoSections, Rebuilt, Blank, Ranges, IsEntryHead, EditDone, Fits;
    EditReads(t, lines, k, heading, body);
    if After(Closed, body) == Closed {
      EditGrows(t, lines, k, heading, body);
    }
    var rest := lines[entry.end..];
    var out := lines[..entry.start - 1] + Rebuilt(heading, body, rest) + rest;
    r := Done(out);
    if out == lines {
      r := Unchanged;
    }
  }

  /** `tryEditEntry`: the caller has checked the title; `stamp` is the heading's own stamp suffix, kept. */
  method EditEntry(lines: seq<string>, t: string, n: int, expected: string, title: string, stamp: string, body: seq<string>) returns (r: Outcome)
    ensures r == Gone <==> !(1 <= n <= |Read(t, lines)|)
    ensures 1 <= n <= |Read(t, lines)| && Read(t, lines)[n - 1].Title() != expected ==> r == Moved(Read(t, lines)[n - 1].Title())
    ensures 1 <= n <= |Read(t, lines)| && Read(t, lines)[n - 1].Title() == expected ==>
              EditOutcome(t, lines, n - 1, "### " + title + stamp, body, r)
  {
    hide *;
    var entries := ActionableEntryRanges(lines, t);
    RangesCount(t, lines);
    if n < 1 || n > |entries| {
      return Gone;
    }
    var entry := entries[n - 1];
    ghost var stop := Locate(t, lines, n - 1);
    LocatedBounds(t, lines, n - 1, entry, stop);
    if entry.title != expected {
      return Moved(entry.title);
    }
    HeadingIsHead(title, stamp);
    r := SpliceInEditedEntry(lines, entry, "### " + title + stamp, body, t, n - 1);
    EditOutcomeIs(t, lines, n - 1, "### " + title + stamp, body, r);
  }

  lemma EditOutcomeIs(t: string, lines: seq<string>, k: nat, heading: string, body: seq<string>, r: Outcome)
    ensures EditOutcome(t, lines, k, heading, body, r) ==> r.Done? || r == Unchanged
  {
    hide EditDone, Fits, GrownBy;
  }

  // ---------------------------------------------------------------- folded bodies

  /** The one-line bodies that can be written: no heading, and no fence opened over what follows. */
  ghost predicate LineFits(line: string, nothingFollows: bool) {
    !("## " <= line) && !("### " <= line) && (FenceOpener(line) == Closed || nothingFollows)
  }

  /** What a body folded to one line is: whether it fits, and what it adds where it does not. */
  lemma FoldedBody(line: string, t: string, nothingFollows: bool)
    ensures Fits([line], nothingFollows) <==> LineFits(line, nothingFollows)
    ensures "## " <= line ==>
              After(Closed, [line]) == Closed && SectionCount(Trim(line[3..]), Toks(Closed, [line])) == 1
    ensures "### " <= line ==>
              After(Closed, [line]) == Closed && NoSections(Toks(Closed, [line])) && |Entries(t, true, Toks(Closed, [line]))| == 1
  {
    hide Trim;
    OneTok(Closed, line);
    if "## " <= line || "### " <= line {
      HashIsNotAMarker(line);
    }
    assert Toks(Closed, [line])[0] in Toks(Closed, [line]);
    if "### " <= line {
      assert line[2] == '#' && "## "[2] == ' ';
      OneEntry(t, true, Toks(Closed, [line])[0], []);
    }
    assert [Toks(Closed, [line])[0]] + [] == Toks(Closed, [line]);
  }

  /** `editPlan`: title and body fold to one line each, with no guard on the body. Folding keeps the
      promise exactly when the line is no heading and opens no fence over what follows; the line `## X`
      grows a section titled X, and a `### ` line an entry. */
  method EditPlan(lines: seq<string>, n: int, rawTitle: string, stamp: string, rawBody: string) returns (r: Outcome)
    ensures r == EmptyTitle <==> CollapseWhitespace(rawTitle) == ""
    ensures r == Gone <==> CollapseWhitespace(rawTitle) != "" && !(1 <= n <= |Read("Planned", lines)|)
    ensures CollapseWhitespace(rawTitle) != "" && 1 <= n <= |Read("Planned", lines)| ==>
              var title, line := CollapseWhitespace(rawTitle), CollapseWhitespace(rawBody);
              && (r.Done? || r == Unchanged)
              && var out := if r.Done? then r.lines else lines;
                 && (EditDone("Planned", lines, n - 1, "### " + title + stamp, [line], out) <==> LineFits(line, NothingBelow("Planned", lines, n - 1)))
                 && ("## " <= line ==> SectionCount(Trim(line[3..]), Toks(Closed, out)) == SectionCount(Trim(line[3..]), Toks(Closed, lines)) + 1)
                 && ("### " <= line ==> |Read("Planned", out)| == |Read("Planned", lines)| + 1)
  {
    hide Toks, After, Read, Entries, SectionCount, NoSections, Blank, Ranges, IsEntryHead, EditDone, Fits, LineFits, Trim, NothingBelow, CollapseWhitespace, FenceOpener, Located;
    var title, line := CollapseWhitespace(rawTitle), CollapseWhitespace(rawBody);
    if title == "" {
      return EmptyTitle;
    }
    var entries := ActionableEntryRanges(lines, "Planned");
    RangesCount("Planned", lines);
    if n < 1 || n > |entries| {
      return Gone;
    }
    ghost var stop := Locate("Planned", lines, n - 1);
    LocatedBounds("Planned", lines, n - 1, entries[n - 1], stop);
    HeadingIsHead(title, stamp);
    FoldedBody(line, "Planned", NothingBelow("Planned", lines, n - 1));
    r := SpliceInEditedEntry(lines, entries[n - 1], "### " + title + stamp, [line], "Planned", n - 1);
  }

  /** `filePlan`: the same of an appended plan. */
  method FilePlan(lines: seq<string>, rawTitle: string, stamp: string, rawBody: string) returns (r: Outcome)
    requires lines != []
    ensures r == EmptyTitle <==> CollapseWhitespace(rawTitle) == ""
    ensures CollapseWhitespace(rawTitle) != "" ==>
              && r.Done?
              && var title, line := CollapseWhitespace(rawTitle), CollapseWhitespace(rawBody);
                 Once("Planned", lines) ==>
                   && (AppendDone("Planned", lines, "### " + title + stamp, [line], r.lines) <==>
                         Closes("Planned", lines) && LineFits(line, NothingFollows("Planned", lines)))
                   && ("## " <= line && Closes("Planned", lines) ==>
                         SectionCount(Trim(line[3..]), Toks(Closed, r.lines))
                           == (if Trim(line[3..]) == "Planned" then 1 else SectionCount(Trim(line[3..]), Toks(Closed, lines))) + 1)
  {
    hide Toks, After, Read, SectionCount, Once, IsEntryHead, AppendDone, Fits, Closes, LineFits, Trim, NothingFollows, CollapseWhitespace, FenceOpener;
    var title, line := CollapseWhitespace(rawTitle), CollapseWhitespace(rawBody);
    if title == "" {
      return EmptyTitle;
    }
    HeadingIsHead(title, stamp);
    assert Trim("Planned") == "Planned" by { TrimVisible("Planned"); }
    FoldedBody(line, "Planned", NothingFollows("Planned", lines));
    var out := AppendEntry(lines, "Planned", "### " + title + stamp, [line]);
    r := Done(out);
  }
}
