/** `tumwater plan --retire`: a planned entry moves to the front of `## Done` as a closed record
    (`retirePlanLocked` in src/backlog/backlog-write.ts), while the other entries of both sections
    stay in their old order. */
module BacklogRetire {
  import opened Text
  import opened Fences
  import opened Documents
  import opened SectionReaders
  import opened Sections
  import opened Contents
  import opened BacklogWrite

  /** The retired heading: the stamp goes inside the heading's own stamp parenthetical when it has
      one. `bare` is the title without that parenthetical. */
  function RetiredHeading(title: string, bare: string, today: string): string {
    var stamp := if |bare| <= |title| then title[|bare|..] else "";
    if stamp != "" && stamp[|stamp| - 1] == ')'
    then "### " + (bare + stamp[..|stamp| - 1] + ", retired " + today + " by the user)")
    else "### " + (bare + " (retired " + today + " by the user)")
  }

  lemma RetiredHeadingIsHead(title: string, bare: string, today: string)
    ensures IsEntryHead(RetiredHeading(title, bare, today))
  {
    var stamp := if |bare| <= |title| then title[|bare|..] else "";
    var text := if stamp != "" && stamp[|stamp| - 1] == ')'
      then bare + stamp[..|stamp| - 1] + ", retired " + today + " by the user)"
      else bare + " (retired " + today + " by the user)";
    assert ("### " + text)[..4] == "### ";
  }

  /** The note's lines: one, unless the reason holds newlines. */
  function RetireNote(today: string, reason: string): seq<string> {
    var r := Trim(reason);
    Split("**Retired " + today + " by the user" + (if r == "" then "**" else ": " + r + "**"))
  }

  /** The retired heading keeps all of the entry's own: the stamp's closing parenthesis moves behind the
      retirement; a title without a stamp gets one of its own. */
  lemma RetiredHeadingIs(bare: string, stamp: string, today: string)
    ensures RetiredHeading(bare + (stamp + ")"), bare, today) == "### " + (bare + stamp + ", retired " + today + " by the user)")
    ensures RetiredHeading(bare, bare, today) == "### " + (bare + " (retired " + today + " by the user)")
  {
    var title := bare + (stamp + ")");
    assert title[|bare|..] == stamp + ")" && (stamp + ")")[..|stamp|] == stamp;
  }

  /** The note's text: the date, and the reason's trimmed text when there is one. */
  lemma RetireNoteIs(today: string, reason: string)
    ensures Trim(reason) == "" ==> Join(RetireNote(today, reason)) == "**Retired " + today + " by the user**"
    ensures Trim(reason) != "" ==> Join(RetireNote(today, reason)) == "**Retired " + today + " by the user: " + Trim(reason) + "**"
  {
    hide Split, Join, Trim;
    var r, before := Trim(reason), "**Retired " + today + " by the user";
    JoinSplit(before + (if r == "" then "**" else ": " + r + "**"));
    assert before + "**" == "**Retired " + today + " by the user**";
    assert before + (": " + r + "**") == "**Retired " + today + " by the user: " + r + "**";
  }

  /** The lines under the retired heading. */
  function RetiredBody(note: seq<string>, body: seq<string>): seq<string> {
    [""] + note + (if body != [] then [""] + body else [])
  }

  function FromVisible(toks: seq<Tok>): seq<Tok> {
    if toks != [] && Blank(toks[0].line) then FromVisible(toks[1..]) else toks
  }

  /** What stood above the section's first entry, as it comes to stand under the copy put in front: from
      its first visible line on, without the placeholders, one blank line below the copy. */
  function Under(prose: seq<Tok>): seq<Tok> {
    var shown := FromVisible(Without(prose, false));
    if shown == [] then [] else [Tok(Plain, "")] + shown
  }

  /** Blank lines and placeholders above the first entry leave nothing under the copy. */
  lemma {:induction false} NothingUnder(prose: seq<Tok>)
    requires Invisible(prose, false)
    ensures Under(prose) == []
  {
    hide Blank, Dropped;
    if prose != [] {
      assert prose[0] in prose && forall k | k in prose[1..] :: k in prose;
      NothingUnder(prose[1..]);
      var rest := Without(prose[1..], false);
      assert [] + rest == rest && ([prose[0]] + rest)[1..] == rest;
    }
  }

  lemma {:induction false} FirstProseCut(t: string, a: seq<Tok>, b: seq<Tok>, c: seq<Tok>)
    requires StartsAtHead(b) && NoSections(b) && StartsAtHead(c)
    ensures FirstProse(t, a + b + c) == FirstProse(t, a + c)
  {
    if a == [] {
      assert a + b + c == b + c && a + c == c;
      FirstProseSkips(t, b, c);
    } else {
      assert (a + b + c)[1..] == a[1..] + b + c && (a + c)[1..] == a[1..] + c;
      if IsSection(t, a[0]) {
        assert a[1..] + b + c == a[1..] + (b + c);
        BodyAcross(a[1..], b + c);
        BodyAcross(a[1..], c);
      } else {
        FirstProseCut(t, a[1..], b, c);
      }
    }
  }

  /** Blank lines at the end of another section add nothing above an entry of `## u`. */
  lemma {:induction false} FirstProsePad(t: string, inside: bool, u: string, a: seq<Tok>, pad: seq<Tok>)
    requires IsPad(pad) && u != t && InsideAfter(t, inside, a)
    ensures FirstProse(u, a + pad) == FirstProse(u, a)
    decreases |a|
  {
    hide Body, NoHeads, Blank;
    if a == [] {
      assert a + pad == pad + [];
      FirstProseSkips(u, pad, []);
    } else {
      var k, rest := a[0], a[1..];
      assert a == [k] + rest && (a + pad)[1..] == rest + pad;
      InsideCons(t, inside, k, rest);
      if IsSection(u, k) {
        if NoHeads(rest) {
          ProseReadsNothing(t, false, rest);
        }
        BodyStopsInside(rest, pad);
      } else {
        FirstProsePad(t, if k.kind == SectionHead then k.Title() == t else inside, u, rest, pad);
      }
    }
  }

  /** The content of `## Done` with the retired copy in front, and the blank line before what follows. */
  function Fronted(heading: string, note: seq<string>, body: seq<string>, kept: seq<string>, rest: seq<string>): seq<string> {
    ["", heading] + RetiredBody(note, body) + (if kept != [] then [""] + kept else []) + (if rest != [] then [""] else [])
  }

  /** The retired copy heads `## Done`, and what stood above the section's first entry follows it in the
      same entry. */
  ghost predicate RetireDone(lines: seq<string>, k: nat, heading: string, note: seq<string>, out: seq<string>) {
    && k < |Ranges("Planned", lines)| && Ranges("Planned", lines)[k].start <= Ranges("Planned", lines)[k].end <= |lines|
    && var r := Ranges("Planned", lines)[k];
       var body := TrimBlank(lines[r.start..r.end]);
       && Read("Planned", out) == Removed(Read("Planned", lines), k)
       && Read("Done", out) == [Entry(heading, CutBlank(Toks(Closed, RetiredBody(note, body)) + Under(FirstProse("Done", Toks(Closed, lines)))))]
            + Strips(Read("Done", lines), false)
       && forall u | u != "Planned" && u != "Done" :: Read(u, out) == Read(u, lines)
  }

  lemma NoteAndBodySound(note: seq<string>, body: seq<string>)
    requires SoundBody(note) && SoundBody(body)
    ensures SoundBody(RetiredBody(note, body))
  {
    hide Toks, After, Blank;
    EmptyIsBlank();
    PadsAround([""], note, []);
    assert [""] + note + [] == [""] + note;
    EmptyDoc();
    if body != [] {
      PadsAround([""], body, []);
      assert [""] + body + [] == [""] + body;
      ToksConcat(Closed, [""] + note, [""] + body);
    } else {
      assert RetiredBody(note, body) == [""] + note;
    }
  }

  /** The front of the rebuilt section. */
  lemma FrontedReads(t: string, content: seq<string>, filtered: seq<string>, heading: string, note: seq<string>, body: seq<string>, rest: seq<string>)
    requires Toks(Closed, filtered) == Without(Toks(Closed, content), false) && After(Closed, filtered) == After(Closed, content)
    requires NoSections(Toks(Closed, content)) && IsEntryHead(heading) && SoundBody(note) && SoundBody(body)
    ensures var all := Fronted(heading, note, body, TrimBlank(filtered), rest);
      && After(Closed, all) == After(Closed, content) && NoSections(Toks(Closed, all))
      && Entries(t, true, Toks(Closed, all))
           == [Entry(heading, CutBlank(Toks(Closed, RetiredBody(note, body)) + Under(Body(Toks(Closed, content)))))]
              + Strips(Entries(t, true, Toks(Closed, content)), false)
  {
    hide Toks, After, Entries, Without, Strips, TrimBlank, CutBlank, IsEntryHead, SoundBody, Blank, Body, RetiredBody, Fronted, Under;
    EmptyIsBlank();
    EmptyDoc();
    var kept := TrimBlank(filtered);
    EntriesWithout(t, true, Toks(Closed, content), false);
    WithoutKeeps(Toks(Closed, content), false);
    TrimBlankEntries(t, true, filtered);
    var lead, tail := if kept != [] then [""] else [], if rest != [] then [""] else [];
    PaddedEntries(t, true, lead, kept, tail);
    NoteAndBodySound(note, body);
    EntryBefore(t, [""], heading, RetiredBody(note, body), lead + kept + tail);
    FrontedIs(heading, note, body, kept, rest, lead, tail);
    ProseUnder(Toks(Closed, RetiredBody(note, body)), content, filtered, lead, tail);
  }

  lemma FrontedIs(heading: string, note: seq<string>, body: seq<string>, kept: seq<string>, rest: seq<string>, lead: seq<string>, tail: seq<string>)
    requires lead == (if kept != [] then [""] else []) && tail == if rest != [] then [""] else []
    ensures Fronted(heading, note, body, kept, rest) == [""] + [heading] + RetiredBody(note, body) + (lead + kept + tail)
  {
    hide RetiredBody;
  }

  /** What is read above the first entry of the rebuilt lines, below what is put in front of them. */
  lemma ProseUnder(top: seq<Tok>, content: seq<string>, filtered: seq<string>, lead: seq<string>, tail: seq<string>)
    requires Toks(Closed, filtered) == Without(Toks(Closed, content), false)
    requires lead == (if TrimBlank(filtered) != [] then [""] else []) && (forall l | l in tail :: Blank(l))
    ensures CutBlank(top + Body(Toks(Closed, lead + TrimBlank(filtered) + tail))) == CutBlank(top + Under(Body(Toks(Closed, content))))
  {
    hide *;
    var kept := Toks(Closed, TrimBlank(filtered));
    var p, q := TrimSplit(filtered);
    BodyWithout(Toks(Closed, content), false);
    PadIsPlain(p);
    BodyPrefix(p, kept + q);
    SkipPad(p, Body(kept + q));
    UnderIs(Body(Toks(Closed, content)));
    BlankTok();
    var pad := PaddedToks(lead, TrimBlank(filtered), tail);
    if kept == [] {
      assert kept + q == [] && [] + [] + pad == pad;
      NoneLeft(top, pad);
    } else {
      assert [Tok(Plain, "")] + kept + pad == [Tok(Plain, "")] + (kept + pad);
      BodyPrefix([Tok(Plain, "")], kept + pad);
      VisibleFirst(top, kept, q, pad);
    }
  }

  lemma UnderIs(prose: seq<Tok>)
    ensures var shown := FromVisible(Without(prose, false)); Under(prose) == if shown == [] then [] else [Tok(Plain, "")] + shown
  {
  }

  lemma PadIsPlain(pad: seq<Tok>)
    requires IsPad(pad)
    ensures NoHeads(pad)
  {
  }

  lemma TrimSplit(filtered: seq<string>) returns (p: seq<Tok>, q: seq<Tok>)
    ensures var kept := Toks(Closed, TrimBlank(filtered));
      && Toks(Closed, filtered) == p + (kept + q) && IsPad(p) && IsPad(q)
      && (if kept == [] then q == [] else !Blank(kept[0].line))
  {
    hide Toks, After, Blank, DropLeading, DropTrailing, IsPad;
    var x := DropLeading(filtered);
    var kept := DropTrailing(x);
    var before, after := filtered[..|filtered| - |x|], x[|kept|..];
    assert filtered == before + kept + after;
    PadsAround(before, kept, after);
    p, q := Toks(Closed, before), Toks(After(Closed, kept), after);
    assert p + Toks(Closed, kept) + q == p + (Toks(Closed, kept) + q);
    if kept == [] {
      assert x == [];
    } else {
      FirstTok(kept);
    }
  }

  lemma PaddedToks(lead: seq<string>, kept: seq<string>, tail: seq<string>) returns (pad: seq<Tok>)
    requires lead == (if kept != [] then [""] else []) && (forall l | l in tail :: Blank(l))
    ensures IsPad(pad)
    ensures Toks(Closed, lead + kept + tail) == (if kept != [] then [Tok(Plain, "")] else []) + Toks(Closed, kept) + pad
  {
    hide Toks, After, Blank, IsPad;
    EmptyIsBlank();
    PadsAround(lead, kept, tail);
    BlankTok();
    pad := Toks(After(Closed, kept), tail);
  }

  lemma BlankTok()
    ensures Toks(Closed, [""]) == [Tok(Plain, "")] && NoHeads([Tok(Plain, "")])
  {
    OneTok(Closed, "");
    EmptyIsBlank();
    NotAMarker("");
  }

  lemma {:induction false} SkipPad(pad: seq<Tok>, b: seq<Tok>)
    requires IsPad(pad)
    ensures FromVisible(pad + b) == FromVisible(b)
  {
    hide Blank;
    if pad == [] {
      assert pad + b == b;
    } else {
      assert pad[0] in pad && (pad + b)[1..] == pad[1..] + b;
      SkipPad(pad[1..], b);
    }
  }

  lemma NoneLeft(top: seq<Tok>, pad: seq<Tok>)
    requires IsPad(pad)
    ensures CutBlank(top + Body(pad)) == CutBlank(top + []) && FromVisible(Body([])) == []
  {
    hide Blank, CutBlank;
    BodyNoHeads(pad);
    CutBlankPad(top, pad);
    assert top + [] == top;
  }

  /** Blank lines after a body do not show, whatever stands before it. */
  lemma TailUnseen(z: seq<Tok>, a: seq<Tok>, pad: seq<Tok>)
    requires IsPad(pad)
    ensures CutBlank(z + Body(a + pad)) == CutBlank(z + Body(a))
  {
    hide Blank, CutBlank, Body;
    if NoHeads(a) {
      BodyNoHeads(a);
      BodyNoHeads(a + pad);
      assert z + (a + pad) == (z + a) + pad;
      CutBlankPad(z + a, pad);
    } else {
      BodyStopsInside(a, pad);
    }
  }

  lemma VisibleFirst(top: seq<Tok>, x: seq<Tok>, q: seq<Tok>, tail: seq<Tok>)
    requires x != [] && !Blank(x[0].line) && IsPad(q) && IsPad(tail)
    ensures var shown, blank := FromVisible(Body(x + q)), [Tok(Plain, "")];
      CutBlank(top + (blank + Body(x + tail))) == CutBlank(top + if shown == [] then [] else blank + shown)
  {
    hide Blank, CutBlank, IsPad, Body;
    var z := top + [Tok(Plain, "")];
    TailUnseen(z, x, q);
    TailUnseen(z, x, tail);
    assert z + Body(x + q) == top + ([Tok(Plain, "")] + Body(x + q)) && z + Body(x + tail) == top + ([Tok(Plain, "")] + Body(x + tail));
    VisibleStart(x + q);
    if x[0].IsHead() {
      OneBlankMore(top);
      assert z + [] == z && top + [] == top;
    } else {
      FirstOfBody(x + q);
    }
  }

  lemma OneBlankMore(top: seq<Tok>)
    ensures CutBlank(top + [Tok(Plain, "")]) == CutBlank(top)
  {
    EmptyIsBlank();
    CutBlankPad(top, [Tok(Plain, "")]);
  }

  /** Cutting an entry's range leaves every section and what stands above the others' entries. */
  lemma CutKeeps(t: string, lines: seq<string>, k: nat)
    requires k < |Ranges(t, lines)|
    ensures var r := Ranges(t, lines)[k];
      && 1 <= r.start <= r.end <= |lines|
      && NoHeads(Toks(Closed, lines[r.start..r.end]))
      && (forall u :: SectionCount(u, Toks(Closed, CutRange(lines, r))) == SectionCount(u, Toks(Closed, lines)))
      && forall u | u != t :: FirstProse(u, Toks(Closed, CutRange(lines, r))) == FirstProse(u, Toks(Closed, lines))
  {
    hide Toks, After, Entries, Read, Located, SectionCount, Blank, NoHeads, FirstProse, Invisible, NoSections, StartsAtHead;
    var r := Ranges(t, lines)[k];
    var stop := Locate(t, lines, k);
    LocatedBounds(t, lines, k, r, stop);
    EmptyDoc();
    ReplacedBlock(t, lines, k, r, stop, []);
    LocatedParts(t, lines, k, r, stop);
    var a := lines[..r.start - 1];
    assert a + [] + lines[r.end..] == CutRange(lines, r);
    var before, pad, after := Toks(Closed, a), Toks(Closed, lines[r.end..stop]), Toks(Closed, lines[stop..]);
    var head, body := Tok(EntryHead, lines[r.start - 1]), Toks(Closed, lines[r.start..stop]);
    assert before + [] + pad + after == before + pad + after;
    assert pad == [] || after == [];
    OwnNoHeads(t, lines, k, r, stop);
    PadHasNoSections(pad);
    forall u ensures SectionCount(u, before + pad + after) == SectionCount(u, before + [head] + body + after) {
      CountWithout(u, before, pad, after);
      assert before + [head] + body + after == before + ([head] + body) + after;
      EntryHoldsNoSection(head, body);
      CountWithout(u, before, [head] + body, after);
    }
    forall u | u != t ensures FirstProse(u, Toks(Closed, CutRange(lines, r))) == FirstProse(u, Toks(Closed, lines)) {
      EntryHoldsNoSection(head, body);
      assert Toks(Closed, lines) == before + [head] + body + after == before + ([head] + body) + after;
      ProseWithout(t, u, before, [head] + body, pad, after);
    }
  }

  lemma ProseWithout(t: string, u: string, before: seq<Tok>, block: seq<Tok>, pad: seq<Tok>, after: seq<Tok>)
    requires StartsAtHead(block) && NoSections(block) && IsPad(pad) && StartsAtHead(after)
    requires u != t && InsideAfter(t, false, before) && (pad == [] || after == [])
    ensures FirstProse(u, before + pad + after) == FirstProse(u, before + block + after)
  {
    hide FirstProse, InsideAfter;
    FirstProseCut(u, before, block, after);
    if pad == [] {
      assert before + pad + after == before + after;
    } else {
      assert before + after == before && before + pad + after == before + pad;
      FirstProsePad(t, false, u, before, pad);
    }
  }

  lemma PadHasNoSections(pad: seq<Tok>)
    requires IsPad(pad)
    ensures NoSections(pad)
  {
  }

  lemma CountWithout(u: string, a: seq<Tok>, b: seq<Tok>, c: seq<Tok>)
    requires NoSections(b)
    ensures SectionCount(u, a + b + c) == SectionCount(u, a) + SectionCount(u, c)
  {
    SectionCountConcat(u, a + b, c);
    SectionCountConcat(u, a, b);
    NoSectionCount(u, b);
  }

  lemma OwnNoHeads(t: string, lines: seq<string>, k: nat, r: Range, stop: nat)
    requires Located(t, lines, k, r, stop)
    ensures NoHeads(Toks(Closed, lines[r.start..r.end]))
  {
    hide Toks, After, Entries, Read, InsideAfter, NoHeads, CutBlank;
    assert lines[r.start..stop] == lines[r.start..r.end] + lines[r.end..stop];
    ToksConcat(Closed, lines[r.start..r.end], lines[r.end..stop]);
    NoHeadsPrefix(Toks(Closed, lines[r.start..r.end]), Toks(After(Closed, lines[r.start..r.end]), lines[r.end..stop]));
  }

  lemma TrimBlankSound(lines: seq<string>)
    requires NoHeads(Toks(Closed, lines)) && After(Closed, lines) == Closed
    ensures SoundBody(TrimBlank(lines))
  {
    hide Toks, After, Blank, DropLeading, DropTrailing, NoHeads;
    var x := DropLeading(lines);
    var y := DropTrailing(x);
    var p, q := lines[..|lines| - |x|], x[|y|..];
    assert lines == p + y + q;
    PadsAround(p, y, q);
    var tp, ty, tq := Toks(Closed, p), Toks(Closed, y), Toks(After(Closed, y), q);
    assert tp + ty + tq == tp + (ty + tq);
    NoHeadsMiddle(tp, ty, tq);
  }

  lemma NoHeadsMiddle(a: seq<Tok>, b: seq<Tok>, c: seq<Tok>)
    requires NoHeads(a + b + c)
    ensures NoHeads(b)
  {
    assert forall k | k in b :: k in a + b + c;
  }

  datatype RetireOutcome = Retired(lines: seq<string>, title: string) | NoSuchPlan | NoDoneSection

  /** `retirePlanLocked`: removal and copy in one write. `strip` is `stripEntryStamp`. */
  method RetirePlan(lines: seq<string>, n: int, strip: string -> string, today: string, reason: string) returns (r: RetireOutcome)
    ensures r == NoSuchPlan <==> !(1 <= n <= |Read("Planned", lines)|)
    ensures 1 <= n <= |Read("Planned", lines)| ==>
              (r == NoDoneSection <==> SectionCount("Done", Toks(Closed, lines)) == 0)
    ensures r.Retired? ==> 1 <= n <= |Read("Planned", lines)| && r.title == strip(Read("Planned", lines)[n - 1].Title())
    ensures r.Retired? && Once("Done", lines) && SoundBody(RetireNote(today, reason)) ==>
              var title := Read("Planned", lines)[n - 1].Title();
              EntryCloses("Planned", lines, n - 1) <==>
              RetireDone(lines, n - 1, RetiredHeading(title, strip(title), today), RetireNote(today, reason), r.lines)
  {
    hide *;
    var entries := ActionableEntryRanges(lines, "Planned");
    RangesCount("Planned", lines);
    if n < 1 || n > |entries| {
      return NoSuchPlan;
    }
    var entry := entries[n - 1];
    ghost var stop := Locate("Planned", lines, n - 1);
    LocatedBounds("Planned", lines, n - 1, entry, stop);
    var heading, note := RetiredHeading(entry.title, strip(entry.title), today), RetireNote(today, reason);
    RetiredHeadingIsHead(entry.title, strip(entry.title), today);
    var bodyLines := TrimLeadingBlankLines(lines[entry.start..entry.end]);
    bodyLines := TrimTrailingBlankLines(bodyLines);
    TrimBlankIs(lines[entry.start..entry.end]);
    var mid := lines[..entry.start - 1] + lines[entry.end..];
    CutRangeIs(lines, entry);
    var doneIdx := FindSection(mid, "Done");
    FirstSectionIsFirst("Done", Toks(Closed, mid));
    CutKeeps("Planned", lines, n - 1);
    if doneIdx == -1 {
      return NoDoneSection;
    }
    var fenced := new FenceTracker();
    var doneEnd := NextSectionHeading(mid, doneIdx + 1, fenced);
    var filtered := DropPlaceholders(mid[doneIdx + 1..doneEnd]);
    var content := TrimLeadingBlankLines(filtered);
    content := TrimTrailingBlankLines(content);
    TrimBlankIs(filtered);
    var rest := mid[doneEnd..];
    var out := mid[..doneIdx + 1] + Fronted(heading, note, bodyLines, content, rest) + rest;
    r := Retired(StripNewlines(out) + [""], strip(entry.title));
    if Once("Done", lines) && SoundBody(note) {
      EntryClosesIs("Planned", lines, n - 1);
      if EntryCloses("Planned", lines, n - 1) {
        RetireReads(lines, n - 1, entry, mid, doneIdx, doneEnd, filtered, heading, note, out);
      } else {
        OpenRetireFails(lines, n - 1, entry, stop, mid, doneIdx, doneEnd, filtered, heading, note, out);
      }
      NormalizedReads(lines, n - 1, heading, note, out);
    }
  }

  /** `## Done` rebuilt with the copy in front. */
  lemma DoneRebuilt(mid: seq<string>, idx: nat, end: nat, filtered: seq<string>, heading: string, note: seq<string>, body: seq<string>)
    requires Once("Done", mid) && idx == FirstSection("Done", Toks(Closed, mid)) < |mid| && end == idx + 1 + NextSection(Toks(Closed, mid[idx + 1..]))
    requires Toks(Closed, filtered) == Without(Toks(Closed, mid[idx + 1..end]), false) && After(Closed, filtered) == After(Closed, mid[idx + 1..end])
    requires IsEntryHead(heading) && SoundBody(note) && SoundBody(body)
    ensures var out := mid[..idx + 1] + Fronted(heading, note, body, TrimBlank(filtered), mid[end..]) + mid[end..];
      && Read("Done", out) == [Entry(heading, CutBlank(Toks(Closed, RetiredBody(note, body)) + Under(FirstProse("Done", Toks(Closed, mid)))))]
           + Strips(Read("Done", mid), false)
      && forall u | u != "Done" :: Read(u, out) == Read(u, mid)
  {
    hide Toks, After, Entries, Without, Strips, TrimBlank, Fronted, Under, FirstSection, NextSection, SectionCount, FirstProse, SoundBody, IsEntryHead, Read, RetiredBody, CutBlank, StartsAtHead, KindOf, Body, Once;
    SectionParts("Done", mid);
    var before, head, content, after := mid[..idx], mid[idx], mid[idx + 1..end], mid[end..];
    FrontedReads("Done", content, filtered, heading, note, body, after);
    var all := Fronted(heading, note, body, TrimBlank(filtered), after);
    assert Whole(before, head, content, after) == mid && Whole(before, head, all, after) == mid[..idx + 1] + all + after;
    ReplaceContent("Done", before, head, content, all, after);
    OnceAfter("Done", before, head, content, after);
    assert Entries("Done", true, Toks(Closed, all)) + [] == Entries("Done", true, Toks(Closed, all));
    ProseOfParts("Done", before, head, content, after);
  }

  /** The rebuilt file, before its last line is normalized. */
  lemma RetireReads(lines: seq<string>, k: nat, r: Range, mid: seq<string>, idx: nat, end: nat, filtered: seq<string>, heading: string, note: seq<string>, out: seq<string>)
    requires k < |Ranges("Planned", lines)| && r == Ranges("Planned", lines)[k] && 1 <= r.start <= r.end <= |lines|
    requires After(Closed, lines[r.start..r.end]) == Closed && Once("Done", lines) && mid == CutRange(lines, r)
    requires idx == FirstSection("Done", Toks(Closed, mid)) < |mid| && end == idx + 1 + NextSection(Toks(Closed, mid[idx + 1..]))
    requires Toks(Closed, filtered) == Without(Toks(Closed, mid[idx + 1..end]), false) && After(Closed, filtered) == After(Closed, mid[idx + 1..end])
    requires IsEntryHead(heading) && SoundBody(note)
    requires out == mid[..idx + 1] + Fronted(heading, note, TrimBlank(lines[r.start..r.end]), TrimBlank(filtered), mid[end..]) + mid[end..]
    ensures RetireDone(lines, k, heading, note, out)
  {
    hide Toks, After, Entries, Without, Strips, TrimBlank, Fronted, Under, FirstSection, NextSection, SectionCount, FirstProse, SoundBody, NoHeads, IsEntryHead, Read, RetiredBody, CutBlank, Removed, Ranges, CutRange;
    CutKeeps("Planned", lines, k);
    CancelReads("Planned", lines, k);
    TrimBlankSound(lines[r.start..r.end]);
    DoneRebuilt(mid, idx, end, filtered, heading, note, TrimBlank(lines[r.start..r.end]));
  }

  lemma ProseOfParts(t: string, before: seq<string>, head: string, content: seq<string>, after: seq<string>)
    requires Parts(t, before, head, content, after)
    ensures FirstProse(t, Toks(Closed, Whole(before, head, content, after))) == Body(Toks(Closed, content))
  {
    hide Toks, After, Whole, FirstProse, SectionCount, Body, NoSections;
    WholeToks(t, before, head, content, after);
    ProseAtSection(t, Toks(Closed, before), Tok(SectionHead, head), Toks(Closed, content), Toks(Closed, after));
  }

  /** A retired entry that leaves a fence open takes what it is put above into its body. */
  lemma OpenRetireFails(lines: seq<string>, k: nat, r: Range, stop: nat, mid: seq<string>, idx: nat, end: nat, filtered: seq<string>, heading: string, note: seq<string>, out: seq<string>)
    requires Located("Planned", lines, k, r, stop) && k < |Ranges("Planned", lines)| && r == Ranges("Planned", lines)[k]
    requires After(Closed, lines[r.start..r.end]) != Closed && mid == CutRange(lines, r)
    requires idx == FirstSection("Done", Toks(Closed, mid)) < |mid| && end == idx + 1 + NextSection(Toks(Closed, mid[idx + 1..]))
    requires IsEntryHead(heading) && SoundBody(note)
    requires out == mid[..idx + 1] + Fronted(heading, note, TrimBlank(lines[r.start..r.end]), TrimBlank(filtered), mid[end..]) + mid[end..]
    ensures !RetireDone(lines, k, heading, note, out)
  {
    hide *;
    LocatedBounds("Planned", lines, k, r, stop);
    OwnNoHeads("Planned", lines, k, r, stop);
    var body := OpenTrimmed(lines[r.start..r.end]);
    OpenRetired(note, body);
    PlannedFollows(lines, k, r, stop, mid, idx, end);
    var shown := RetiredBody(note, body);
    var g := FrontedAround(mid[..idx + 1], heading, note, body, filtered, mid[end..]);
    DoneOpens(mid, idx);
    OpenReads("Done", mid[..idx + 1] + [""], heading, shown, [], g);
    assert shown + [] == shown;
    PromisedBody(lines, k, heading, note, out);
  }

  lemma OpenTrimmed(own: seq<string>) returns (body: seq<string>)
    requires NoHeads(Toks(Closed, own)) && After(Closed, own) != Closed
    ensures body == TrimBlank(own) != [] && NoHeads(Toks(Closed, body)) && After(Closed, body) != Closed
  {
    hide Toks, After, Blank, DropLeading, DropTrailing, NoHeads;
    var x := DropLeading(own);
    body := DropTrailing(x);
    var p, q := own[..|own| - |x|], x[|body|..];
    assert own == p + body + q;
    PaddedHolds(p, body, q);
    EmptyDoc();
  }

  lemma OpenRetired(note: seq<string>, body: seq<string>)
    requires SoundBody(note) && body != [] && NoHeads(Toks(Closed, body)) && After(Closed, body) != Closed
    ensures NoHeads(Toks(Closed, RetiredBody(note, body) + [])) && After(Closed, RetiredBody(note, body) + []) != Closed
  {
    hide Toks, After, Blank;
    EmptyIsBlank();
    PaddedHolds([""], note, []);
    PaddedHolds([""], body, []);
    assert [""] + note + [] == [""] + note && [""] + body + [] == [""] + body;
    ToksConcat(Closed, [""] + note, [""] + body);
    assert RetiredBody(note, body) + [] == ([""] + note) + ([""] + body);
  }

  /** An entry with an open fence is the file's last, so the file without it ends inside its section. */
  lemma EndsInside(t: string, lines: seq<string>, k: nat, r: Range, stop: nat)
    requires Located(t, lines, k, r, stop) && After(Closed, lines[r.start..r.end]) != Closed
    ensures InsideAfter(t, false, Toks(Closed, CutRange(lines, r)))
  {
    hide Toks, After, Entries, Read, InsideAfter, NoHeads, CutBlank, Blank;
    var own, tail := lines[r.start..r.end], lines[r.end..];
    EmptyIsBlank();
    assert lines[r.start..stop] == own + lines[r.end..stop];
    ToksConcat(Closed, own, lines[r.end..stop]);
    BlankLines(After(Closed, own), lines[r.end..stop]);
    assert tail == lines[r.end..stop];
    ToksConcat(Closed, lines[..r.start - 1], tail);
    BlankLines(Closed, tail);
    ProseReadsNothing(t, true, Toks(Closed, tail));
    InsideMeet(t, false, Toks(Closed, lines[..r.start - 1]), Toks(Closed, tail));
  }

  /** So `## Planned` stands behind `## Done`. */
  lemma PlannedFollows(lines: seq<string>, k: nat, r: Range, stop: nat, mid: seq<string>, idx: nat, end: nat)
    requires Located("Planned", lines, k, r, stop) && After(Closed, lines[r.start..r.end]) != Closed && mid == CutRange(lines, r)
    requires idx == FirstSection("Done", Toks(Closed, mid)) < |mid| && end == idx + 1 + NextSection(Toks(Closed, mid[idx + 1..]))
    ensures end < |mid| && !Blank(mid[end])
  {
    hide *;
    EndsInside("Planned", lines, k, r, stop);
    SectionParts("Done", mid);
    VisibleAfter(mid[..idx], mid[idx], mid[idx + 1..end], mid[end..]);
  }

  lemma VisibleAfter(before: seq<string>, head: string, content: seq<string>, after: seq<string>)
    requires Parts("Done", before, head, content, after)
    requires InsideAfter("Planned", false, Toks(Closed, before + [head] + content + after))
    ensures after != [] && !Blank(after[0])
  {
    hide Toks, After, InsideAfter, Blank, KindOf, NoSections, SectionCount, Next;
    WholeToks("Done", before, head, content, after);
    WholeIs(before, head, content, after);
    EmptyDoc();
    var x := Toks(Closed, before) + [Tok(SectionHead, head)] + Toks(Closed, content);
    NotInside(Toks(Closed, before), Tok(SectionHead, head), Toks(Closed, content));
    assert x + [] == x;
    assert after != [];
    HeadVisible(after);
  }

  lemma NotInside(before: seq<Tok>, head: Tok, content: seq<Tok>)
    requires IsSection("Done", head) && NoSections(content)
    ensures !InsideAfter("Planned", false, before + [head] + content)
  {
    hide InsideAfter, NoSections;
    assert before + [head] + content == before + ([head] + content);
    InsideMeet("Planned", false, before, [head] + content);
    InsideCons("Planned", InsideAfter("Planned", false, before), head, content);
    NoSectionsStayInside("Planned", false, content);
  }

  lemma FrontedAround(top: seq<string>, heading: string, note: seq<string>, body: seq<string>, filtered: seq<string>, rest: seq<string>) returns (g: seq<string>)
    requires rest != [] && !Blank(rest[0])
    ensures g != [] && !Blank(g[0])
    ensures top + Fronted(heading, note, body, TrimBlank(filtered), rest) + rest
         == (top + [""]) + ([heading] + RetiredBody(note, body) + [""]) + g
  {
    hide Blank, RetiredBody, TrimBlank;
    var kept := TrimBlank(filtered);
    g := if kept != [] then kept + [""] + rest else rest;
    TrimStartsVisible(filtered);
  }

  lemma TrimStartsVisible(filtered: seq<string>)
    ensures TrimBlank(filtered) != [] ==> !Blank(TrimBlank(filtered)[0])
  {
    hide Blank, DropLeading, DropTrailing;
  }

  lemma DoneOpens(mid: seq<string>, idx: nat)
    requires idx == FirstSection("Done", Toks(Closed, mid)) < |mid|
    ensures var a := mid[..idx + 1] + [""];
      After(Closed, a) == Closed && InsideAfter("Done", false, Toks(Closed, a)) && Entries("Done", false, Toks(Closed, a)) == []
  {
    hide Toks, After, Entries, InsideAfter, FirstSection, NextSection, KindOf, NoSections, SectionCount, Blank, Next;
    SectionParts("Done", mid);
    var before, head := mid[..idx], mid[idx];
    EmptyIsBlank();
    BlankLines(Closed, [""]);
    PadHasNoSections(Toks(Closed, [""]));
    EmptyDoc();
    assert mid[..idx + 1] + [""] == before + [head] + [""];
    ToksAroundHead(before, head, [""]);
    InsideParts("Done", Toks(Closed, before), Tok(SectionHead, head), Toks(Closed, [""]));
    assert Whole(before, head, [""], []) == before + [head] + [""];
    ReadParts("Done", "Done", before, head, [""], []);
    ReadIs("Done", before + [head] + [""]);
    ProseReadsNothing("Done", true, Toks(Closed, [""]));
    InsideNothing("Done", false);
  }

  /** The promised body is no longer than the copy, or goes on with an unfenced blank line. */
  lemma PromisedBody(lines: seq<string>, k: nat, heading: string, note: seq<string>, out: seq<string>)
    requires k < |Ranges("Planned", lines)| && Ranges("Planned", lines)[k].start <= Ranges("Planned", lines)[k].end <= |lines|
    ensures var r := Ranges("Planned", lines)[k];
      var shown := RetiredBody(note, TrimBlank(lines[r.start..r.end]));
      RetireDone(lines, k, heading, note, out) ==>
        && Read("Done", out) != []
        && (|Read("Done", out)[0].body| > |shown| ==> Read("Done", out)[0].body[|shown|].kind == Plain)
  {
    hide Toks, Read, Strips, RetiredBody, TrimBlank, Ranges, Removed, CutBlank, FirstProse, FromVisible;
  }

  /** The file ends with exactly one newline; no reader sees the difference. */
  lemma NormalizedReads(lines: seq<string>, k: nat, heading: string, note: seq<string>, out: seq<string>)
    requires out != []
    ensures RetireDone(lines, k, heading, note, StripNewlines(out) + [""]) <==> RetireDone(lines, k, heading, note, out)
  {
    hide Toks, After, Entries, Strips, Read, CutBlank, Blank, StripNewlines, RetiredBody, TrimBlank, Under, FirstProse, Removed, Ranges;
    StripNewlinesPads(out);
    var base := StripNewlines(out);
    EmptyIsBlank();
    PaddedEntriesAll(base, out[|base|..]);
    PaddedEntriesAll(base, [""]);
    assert base + out[|base|..] == out;
  }

  lemma CutRangeIs(lines: seq<string>, r: Range)
    requires 1 <= r.start <= r.end <= |lines|
    ensures CutRange(lines, r) == lines[..r.start - 1] + lines[r.end..]
  {
  }
}
