/** Finished entries leave the live file for its archive (src/backlog/backlog-archive.ts). The line
    arithmetic of the source is proved to be one operation on blocks, `Archived`; what the two files
    read afterwards is proved about that. */
module Archive {
  import opened Text
  import opened Fences
  import opened Documents
  import opened SectionReaders
  import opened Sections
  import opened Contents
  import opened Blocks
  import opened BlockRanges

  // ---------------------------------------------------------------- what becomes of an entry

  /** Which part of the section moves: all but the newest `n` entries, or the entries whose keys the
      change's base did not hold and that are not parked. */
  datatype Selection = Keep(n: int) | Fresh(baseKeys: set<string>, park: set<string>)

  function Key(title: string): string {
    CollapseWhitespace(title)
  }

  /** Every text the archive holds under a heading key. */
  function Held(old_: seq<Entry>, key: string): seq<string> {
    if old_ == [] then [] else (if Key(old_[0].Title()) == key then [TextOf(old_[0])] else []) + Held(old_[1..], key)
  }

  /** A selected entry moves when the archive lacks its heading, is dropped when the archive holds the
      heading with the same text, and stays when it holds it with another. */
  function FateOf(e: Entry, old_: seq<Entry>): Mark {
    var held := Held(old_, Key(e.Title()));
    if held == [] then Moves else if TextOf(e) in held then Drops else Stays
  }

  function FatesOf(es: seq<Entry>, old_: seq<Entry>): (fates: seq<Mark>)
    ensures |fates| == |es|
  {
    if es == [] then [] else [FateOf(es[0], old_)] + FatesOf(es[1..], old_)
  }

  predicate Chosen(sel: Selection, i: nat, e: Entry) {
    match sel
    case Keep(n) => i >= n
    case Fresh(baseKeys, park) => Key(e.Title()) !in baseKeys && Key(e.Title()) !in park
  }

  /** The marks of a section's entries from position `i` on. */
  function Marks(es: seq<Entry>, old_: seq<Entry>, sel: Selection, i: nat): (marks: seq<Mark>)
    ensures |marks| == |es|
  {
    if es == [] then []
    else [if Chosen(sel, i, es[0]) then FateOf(es[0], old_) else Unselected] + Marks(es[1..], old_, sel, i + 1)
  }

  lemma {:induction false} MarksAt(es: seq<Entry>, old_: seq<Entry>, sel: Selection, i: nat, k: nat)
    requires k < |es|
    ensures Marks(es, old_, sel, i)[k] == if Chosen(sel, i + k, es[k]) then FateOf(es[k], old_) else Unselected
  {
    if k > 0 {
      MarksAt(es[1..], old_, sel, i + 1, k - 1);
    }
  }

  /** A heading the archive holds shows in what it holds for the key. */
  lemma {:induction false} HeldIs(old_: seq<Entry>, key: string)
    ensures Held(old_, key) == [] <==> forall a | a in old_ :: Key(a.Title()) != key
    ensures forall text | text in Held(old_, key) :: exists a :: a in old_ && Key(a.Title()) == key && TextOf(a) == text
  {
    if old_ != [] {
      HeldIs(old_[1..], key);
      assert old_[0] in old_ && forall a | a in old_[1..] :: a in old_;
      assert forall a | a in old_ :: a == old_[0] || a in old_[1..];
    }
  }

  lemma HeldCons(e: Entry, es: seq<Entry>, key: string)
    ensures Held([e] + es, key) == (if Key(e.Title()) == key then [TextOf(e)] else []) + Held(es, key)
    ensures Held([], key) == []
  {
    hide Key, TextOf;
    assert ([e] + es)[1..] == es;
  }

  lemma {:induction false} HeldConcat(a: seq<Entry>, b: seq<Entry>, key: string)
    ensures Held(a + b, key) == Held(a, key) + Held(b, key)
  {
    hide *;
    if a == [] {
      HeldCons(Entry("", []), [], key);
      assert a + b == b;
    } else {
      assert a == [a[0]] + a[1..] && a + b == [a[0]] + (a[1..] + b);
      HeldCons(a[0], a[1..], key);
      HeldCons(a[0], a[1..] + b, key);
      HeldConcat(a[1..], b, key);
    }
  }

  // ---------------------------------------------------------------- entries by line range

  function EntryAt(lines: seq<string>, r: Range): Entry {
    if 1 <= r.start <= r.end <= |lines| then EntryOf(lines[r.start - 1..r.end]) else Entry("", [])
  }

  function EntriesAt(lines: seq<string>, rs: seq<Range>): (es: seq<Entry>)
    ensures |es| == |rs|
  {
    if rs == [] then [] else [EntryAt(lines, rs[0])] + EntriesAt(lines, rs[1..])
  }

  /** A range that covers an entry's heading and the rest of it. */
  ghost predicate Good(lines: seq<string>, r: Range) {
    && 1 <= r.start <= r.end <= |lines| && IsEntryHead(lines[r.start - 1]) && r.title == EntryAt(lines, r).Title()
  }

  function EntryText(lines: seq<string>, r: Range): string
    requires 1 <= r.start <= r.end <= |lines|
  {
    Join(TrimEnds(TrimBlank(lines[r.start - 1..r.end])))
  }

  lemma EntryTextIs(lines: seq<string>, r: Range)
    requires Good(lines, r)
    ensures 1 <= r.start <= r.end <= |lines| && EntryText(lines, r) == TextOf(EntryAt(lines, r))
  {
    hide TrimBlank, EntryOf, IsEntryHead, TrimEnds;
    var b := lines[r.start - 1..r.end];
    assert b[0] == lines[r.start - 1];
    BlockText(b);
  }

  lemma EntriesAtCons(lines: seq<string>, r: Range, rs: seq<Range>)
    ensures EntriesAt(lines, [r] + rs) == [EntryAt(lines, r)] + EntriesAt(lines, rs)
  {
    assert ([r] + rs)[1..] == rs;
  }

  lemma {:induction false} SpansEntries(lines: seq<string>, rs: seq<Range>, bs: seq<seq<string>>, at: nat, to: nat)
    requires Spans(lines, rs, bs, at, to)
    ensures EntriesAt(lines, rs) == EntriesOf(bs)
    ensures forall r | r in rs :: Good(lines, r)
  {
    hide *;
    SpansBounds(lines, rs, bs, at, to);
    if rs != [] {
      assert rs == [rs[0]] + rs[1..];
      assert bs == [bs[0]] + bs[1..];
      SpansCons(lines, rs[0], rs[1..], bs[0], bs[1..], at, to);
      SpansEntries(lines, rs[1..], bs[1..], rs[0].end, to);
      EntriesAtCons(lines, rs[0], rs[1..]);
      EntriesOfCons(bs[0], bs[1..]);
      EntryAtIs(lines, rs[0]);
      assert forall r | r in rs :: r == rs[0] || r in rs[1..];
    } else {
      NoEntriesAt(lines);
    }
  }

  lemma EntryAtIs(lines: seq<string>, r: Range)
    requires 1 <= r.start <= r.end <= |lines|
    ensures EntryAt(lines, r) == EntryOf(lines[r.start - 1..r.end])
    ensures IsEntryHead(lines[r.start - 1]) && r.title == EntryAt(lines, r).Title() ==> Good(lines, r)
  {
    hide EntryOf, IsEntryHead;
  }

  lemma NoEntriesAt(lines: seq<string>)
    ensures EntriesAt(lines, []) == [] && EntriesOf([]) == []
  {
  }

  // ---------------------------------------------------------------- entryFates

  /** The map of archived texts under the wanted keys, built entry by entry. */
  ghost predicate Archiving(archived: map<string, seq<string>>, wanted: set<string>, seen: seq<Entry>) {
    && (forall key | key in wanted :: (if key in archived then archived[key] else []) == Held(seen, key))
    && forall key | key in archived :: archived[key] != []
  }

  lemma ArchivingStep(archived: map<string, seq<string>>, wanted: set<string>, seen: seq<Entry>, e: Entry)
    requires Archiving(archived, wanted, seen)
    ensures var key := Key(e.Title());
      var next := if key in wanted then archived[key := (if key in archived then archived[key] else []) + [TextOf(e)]] else archived;
      Archiving(next, wanted, seen + [e])
  {
    hide Key, TextOf, Held;
    forall key ensures Held(seen + [e], key) == Held(seen, key) + (if Key(e.Title()) == key then [TextOf(e)] else []) {
      HeldConcat(seen, [e], key);
      HeldCons(e, [], key);
      assert [e] + [] == [e];
    }
  }

  lemma {:induction false} EntriesAtSnoc(lines: seq<string>, rs: seq<Range>, r: Range)
    ensures EntriesAt(lines, rs + [r]) == EntriesAt(lines, rs) + [EntryAt(lines, r)]
  {
    hide EntryAt;
    if rs == [] {
      assert rs + [r] == [r] + [];
      EntriesAtCons(lines, r, []);
    } else {
      assert (rs + [r])[1..] == rs[1..] + [r];
      EntriesAtSnoc(lines, rs[1..], r);
    }
  }

  lemma {:induction false} FatesSnoc(es: seq<Entry>, e: Entry, old_: seq<Entry>)
    ensures FatesOf(es + [e], old_) == FatesOf(es, old_) + [FateOf(e, old_)]
  {
    hide FateOf;
    if es == [] {
      assert es + [e] == [e] && [e][1..] == [];
    } else {
      assert (es + [e])[1..] == es[1..] + [e];
      FatesSnoc(es[1..], e, old_);
    }
  }

  method EntryFates(lines: seq<string>, selected: seq<Range>, archiveLines: seq<string>, archiveEntries: seq<Range>) returns (fates: seq<Mark>)
    requires forall r | r in selected :: Good(lines, r)
    requires forall r | r in archiveEntries :: Good(archiveLines, r)
    ensures fates == FatesOf(EntriesAt(lines, selected), EntriesAt(archiveLines, archiveEntries))
  {
    hide *;
    NoFates(lines, archiveLines, archiveEntries);
    if selected == [] {
      return [];
    }
    var wanted := set r | r in selected :: Key(r.title);
    var archived: map<string, seq<string>> := map[];
    ArchivingStarts(wanted);
    ghost var old_ := EntriesAt(archiveLines, archiveEntries);
    for i := 0 to |archiveEntries|
      invariant Archiving(archived, wanted, EntriesAt(archiveLines, archiveEntries[..i]))
    {
      var e := archiveEntries[i];
      assert e in archiveEntries && archiveEntries[..i + 1] == archiveEntries[..i] + [e];
      GoodIs(archiveLines, e);
      EntryTextIs(archiveLines, e);
      EntriesAtSnoc(archiveLines, archiveEntries[..i], e);
      ArchivingStep(archived, wanted, EntriesAt(archiveLines, archiveEntries[..i]), EntryAt(archiveLines, e));
      var key := Key(e.title);
      if key in wanted {
        archived := archived[key := (if key in archived then archived[key] else []) + [EntryText(archiveLines, e)]];
      }
    }
    assert archiveEntries[..|archiveEntries|] == archiveEntries;
    fates := [];
    for i := 0 to |selected|
      invariant fates == FatesOf(EntriesAt(lines, selected[..i]), old_)
    {
      var e := selected[i];
      assert e in selected && selected[..i + 1] == selected[..i] + [e];
      GoodIs(lines, e);
      EntryTextIs(lines, e);
      EntriesAtSnoc(lines, selected[..i], e);
      FatesSnoc(EntriesAt(lines, selected[..i]), EntryAt(lines, e), old_);
      var key := Key(e.title);
      assert key in wanted;
      FateFromMap(archived, wanted, old_, EntryAt(lines, e));
      var fate := if key !in archived then Moves else if EntryText(lines, e) in archived[key] then Drops else Stays;
      fates := fates + [fate];
    }
    assert selected[..|selected|] == selected;
  }

  lemma NoFates(lines: seq<string>, archiveLines: seq<string>, archiveEntries: seq<Range>)
    ensures FatesOf(EntriesAt(lines, []), EntriesAt(archiveLines, archiveEntries)) == []
    ensures forall old_ :: FatesOf(EntriesAt(lines, []), old_) == []
    ensures EntriesAt(archiveLines, []) == []
  {
  }

  lemma ArchivingStarts(wanted: set<string>)
    ensures Archiving(map[], wanted, EntriesAt([], []))
    ensures forall lines :: EntriesAt(lines, []) == EntriesAt([], [])
  {
  }

  lemma GoodIs(lines: seq<string>, r: Range)
    requires Good(lines, r)
    ensures 1 <= r.start <= r.end <= |lines| && IsEntryHead(lines[r.start - 1]) && r.title == EntryAt(lines, r).Title()
  {
    hide EntryAt, IsEntryHead;
  }

  lemma FateFromMap(archived: map<string, seq<string>>, wanted: set<string>, old_: seq<Entry>, e: Entry)
    requires Archiving(archived, wanted, old_) && Key(e.Title()) in wanted
    ensures var key := Key(e.Title());
      FateOf(e, old_) == if key !in archived then Moves else if TextOf(e) in archived[key] then Drops else Stays
  {
    hide Key, TextOf, Held;
  }

  // ---------------------------------------------------------------- selecting

  /** `selectArchiveEntries`: the keep slice, or the base-keys filter. */
  function SelectRanges(rs: seq<Range>, sel: Selection): seq<Range> {
    match sel
    case Keep(n) => if n <= 0 then rs else if n >= |rs| then [] else rs[n..]
    case Fresh(baseKeys, park) => FilterFresh(rs, baseKeys, park)
  }

  function FilterFresh(rs: seq<Range>, baseKeys: set<string>, park: set<string>): seq<Range> {
    if rs == [] then []
    else (if Key(rs[0].title) !in baseKeys && Key(rs[0].title) !in park then [rs[0]] else []) + FilterFresh(rs[1..], baseKeys, park)
  }

  lemma SelectedAre(rs: seq<Range>, sel: Selection)
    ensures forall r | r in SelectRanges(rs, sel) :: r in rs
  {
    if sel.Fresh? {
      FilteredAre(rs, sel.baseKeys, sel.park);
    }
  }

  lemma {:induction false} FilteredAre(rs: seq<Range>, baseKeys: set<string>, park: set<string>)
    ensures forall r | r in FilterFresh(rs, baseKeys, park) :: r in rs
  {
    hide Key;
    if rs != [] {
      FilteredAre(rs[1..], baseKeys, park);
      assert rs[0] in rs && forall r | r in rs[1..] :: r in rs;
    }
  }

  lemma MarksCons(e: Entry, es: seq<Entry>, old_: seq<Entry>, sel: Selection, i: nat)
    ensures Marks([e] + es, old_, sel, i) == [if Chosen(sel, i, e) then FateOf(e, old_) else Unselected] + Marks(es, old_, sel, i + 1)
  {
    hide FateOf, Chosen;
    assert ([e] + es)[1..] == es;
  }

  lemma FatesCons(e: Entry, es: seq<Entry>, old_: seq<Entry>)
    ensures FatesOf([e] + es, old_) == [FateOf(e, old_)] + FatesOf(es, old_)
  {
    hide FateOf;
    assert ([e] + es)[1..] == es;
  }

  lemma FateIsNot(e: Entry, old_: seq<Entry>)
    ensures FateOf(e, old_) != Unselected
  {
  }

  /** The selection as seen from position `i` on. */
  function Shift(sel: Selection, i: nat): Selection {
    match sel
    case Keep(n) => Keep(n - i)
    case Fresh(_, _) => sel
  }

  /** The entries given a fate are the ones so marked in the whole section. */
  lemma {:induction false} SelectMarks(lines: seq<string>, rs: seq<Range>, old_: seq<Entry>, sel: Selection, i: nat, f: Mark)
    requires f != Unselected && (forall r | r in rs :: Good(lines, r))
    ensures var selected := SelectRanges(rs, Shift(sel, i));
      Pick(selected, FatesOf(EntriesAt(lines, selected), old_), {f}) == Pick(rs, Marks(EntriesAt(lines, rs), old_, sel, i), {f})
    decreases |rs|
  {
    hide *;
    if rs == [] {
      NothingSelected(lines, old_, sel, i, f);
    } else {
      var r, rest := rs[0], rs[1..];
      assert rs == [r] + rest;
      GoodIs(lines, r);
      SelectMarks(lines, rest, old_, sel, i + 1, f);
      var e, es := EntryAt(lines, r), EntriesAt(lines, rest);
      EntriesAtCons(lines, r, rest);
      MarksCons(e, es, old_, sel, i);
      SelectCons(r, rest, e, sel, i);
      var later := SelectRanges(rest, Shift(sel, i + 1));
      var marks := Marks(es, old_, sel, i + 1);
      var m := if Chosen(sel, i, e) then FateOf(e, old_) else Unselected;
      PickCons(r, rest, m, marks, {f});
      if Chosen(sel, i, e) {
        EntriesAtCons(lines, r, later);
        FatesCons(e, EntriesAt(lines, later), old_);
        PickCons(r, later, m, FatesOf(EntriesAt(lines, later), old_), {f});
      } else {
        assert [] + later == later;
        assert [] + Pick(rest, marks, {f}) == Pick(rest, marks, {f});
      }
    }
  }

  lemma SelectCons(r: Range, rest: seq<Range>, e: Entry, sel: Selection, i: nat)
    requires r.title == e.Title()
    ensures SelectRanges([r] + rest, Shift(sel, i)) == (if Chosen(sel, i, e) then [r] else []) + SelectRanges(rest, Shift(sel, i + 1))
  {
    hide Key, Entry.Title;
    assert ([r] + rest)[1..] == rest;
    if sel.Keep? {
      KeepCons(r, rest, sel.n - i);
    }
  }

  lemma KeepCons(r: Range, rest: seq<Range>, n: int)
    ensures SelectRanges([r] + rest, Keep(n)) == (if n <= 0 then [r] else []) + SelectRanges(rest, Keep(n - 1))
  {
    if 0 < n < |rest| + 1 {
      assert ([r] + rest)[n..] == rest[n - 1..];
    }
  }

  lemma NothingSelected(lines: seq<string>, old_: seq<Entry>, sel: Selection, i: nat, f: Mark)
    ensures var selected := SelectRanges([], Shift(sel, i));
      Pick(selected, FatesOf(EntriesAt(lines, selected), old_), {f}) == Pick([], Marks(EntriesAt(lines, []), old_, sel, i), {f})
  {
  }

  // ---------------------------------------------------------------- loops over lines

  method TrimBlankLines(lines: seq<string>) returns (r: seq<string>)
    ensures r == TrimBlank(lines)
  {
    r := TrimLeadingBlankLines(lines);
    r := TrimTrailingBlankLines(r);
  }

  function NoPlaceholders(lines: seq<string>): seq<string> {
    if lines == [] then [] else (if IsPlaceholder(lines[0]) then [] else [lines[0]]) + NoPlaceholders(lines[1..])
  }

  /** At most one placeholder line, to stand for an emptied section. */
  function FirstPlaceholder(lines: seq<string>): seq<string> {
    if lines == [] then [] else if IsPlaceholder(lines[0]) then [lines[0]] else FirstPlaceholder(lines[1..])
  }

  function BlockLines(lines: seq<string>, rs: seq<Range>): (bs: seq<seq<string>>)
    ensures |bs| == |rs|
  {
    if rs == [] then []
    else [if 1 <= rs[0].start <= rs[0].end <= |lines| then lines[rs[0].start - 1..rs[0].end] else []] + BlockLines(lines, rs[1..])
  }

  lemma {:induction false} SpreadSnoc(bs: seq<seq<string>>, b: seq<string>)
    ensures Spread(bs + [b]) == Spread(bs) + (if bs == [] then [] else [""]) + TrimBlank(b)
  {
    hide *;
    if bs == [] {
      assert bs + [b] == [b] + [];
      SpreadCons(b, []);
      assert TrimBlank(b) + [] + [] == [] + [] + TrimBlank(b);
    } else {
      var c, rest := bs[0], bs[1..];
      assert bs == [c] + rest && bs + [b] == [c] + (rest + [b]);
      SpreadSnoc(rest, b);
      SpreadCons(c, rest);
      SpreadCons(c, rest + [b]);
      if rest == [] {
        SpreadCons(b, []);
      }
    }
  }

  lemma {:induction false} BlockLinesSnoc(lines: seq<string>, rs: seq<Range>, r: Range)
    requires 1 <= r.start <= r.end <= |lines|
    ensures BlockLines(lines, rs + [r]) == BlockLines(lines, rs) + [lines[r.start - 1..r.end]]
  {
    if rs == [] {
      assert rs + [r] == [r] && [r][1..] == [];
    } else {
      assert (rs + [r])[1..] == rs[1..] + [r];
      BlockLinesSnoc(lines, rs[1..], r);
    }
  }

  lemma TrimmedIsVisible(lines: seq<string>, r: Range)
    requires Good(lines, r)
    ensures 1 <= r.start <= r.end <= |lines| && TrimBlank(lines[r.start - 1..r.end]) != []
  {
    hide *;
    GoodIs(lines, r);
    var b := lines[r.start - 1..r.end];
    assert b[0] == lines[r.start - 1];
    EntryHeadKind(b[0]);
    TrimBlankHead(b);
  }

  /** `entryBlocks`: a blank line goes in only once something has been written. */
  method EntryBlocks(lines: seq<string>, entries: seq<Range>) returns (out: seq<string>)
    requires forall r | r in entries :: Good(lines, r)
    ensures out == Spread(BlockLines(lines, entries))
  {
    hide *;
    out := [];
    NoBlocks(lines);
    for i := 0 to |entries|
      invariant out == Spread(BlockLines(lines, entries[..i]))
      invariant out == [] <==> i == 0
    {
      var e := entries[i];
      assert e in entries && entries[..i + 1] == entries[..i] + [e];
      TrimmedIsVisible(lines, e);
      BlockLinesSnoc(lines, entries[..i], e);
      SpreadSnoc(BlockLines(lines, entries[..i]), lines[e.start - 1..e.end]);
      if |out| > 0 {
        out := out + [""];
      }
      var block := TrimBlankLines(lines[e.start - 1..e.end]);
      out := out + block;
    }
    assert entries[..|entries|] == entries;
  }

  lemma NoBlocks(lines: seq<string>)
    ensures Spread(BlockLines(lines, [])) == []
  {
  }

  lemma BlockLinesCons(lines: seq<string>, r: Range, rs: seq<Range>)
    requires 1 <= r.start <= r.end <= |lines|
    ensures BlockLines(lines, [r] + rs) == [lines[r.start - 1..r.end]] + BlockLines(lines, rs)
    ensures BlockLines(lines, []) == []
  {
    assert ([r] + rs)[1..] == rs;
  }

  lemma {:induction false} PickedBlocks(lines: seq<string>, rs: seq<Range>, bs: seq<seq<string>>, at: nat, to: nat, marks: seq<Mark>, which: set<Mark>)
    requires Spans(lines, rs, bs, at, to) && |marks| == |rs|
    ensures |bs| == |marks| && BlockLines(lines, Pick(rs, marks, which)) == Pick(bs, marks, which)
    decreases |rs|
  {
    hide *;
    SpansBounds(lines, rs, bs, at, to);
    if rs == [] {
      assert bs == [] && marks == [];
      PickNothing<Range>(which);
      PickNothing<seq<string>>(which);
      NoBlockLines(lines);
    } else {
      var r, b, m := rs[0], bs[0], marks[0];
      assert rs == [r] + rs[1..] && bs == [b] + bs[1..] && marks == [m] + marks[1..];
      SpansCons(lines, r, rs[1..], b, bs[1..], at, to);
      PickedBlocks(lines, rs[1..], bs[1..], r.end, to, marks[1..], which);
      PickCons(r, rs[1..], m, marks[1..], which);
      PickCons(b, bs[1..], m, marks[1..], which);
      if m in which {
        BlockLinesCons(lines, r, Pick(rs[1..], marks[1..], which));
      } else {
        assert [] + Pick(rs[1..], marks[1..], which) == Pick(rs[1..], marks[1..], which);
        assert [] + Pick(bs[1..], marks[1..], which) == Pick(bs[1..], marks[1..], which);
      }
    }
  }

  lemma NoBlockLines(lines: seq<string>)
    ensures BlockLines(lines, []) == []
  {
  }

  // ---------------------------------------------------------------- the two splits

  datatype SplitResult = Refused | SplitInto(kept: seq<string>, moved: seq<string>)

  function OrPlaceholder(kept: seq<string>, tail: seq<string>): seq<string> {
    if kept == [] then FirstPlaceholder(tail) else kept
  }

  function Apart(head: seq<string>, rest: seq<string>): seq<string> {
    if head != [] && rest != [] then head + [""] + rest else head + rest
  }

  /** The lines past the kept entries that are not dropped and do not stay. */
  function Tail(content: seq<string>, marks: seq<Mark>, n: int): seq<string>
    requires |marks| == |BlocksOf(content)|
  {
    (if n <= 0 then Lead(content) else []) + Stack(Pick(BlocksOf(content), marks, {Moves}))
  }

  /** The kept entries' lines. */
  function Front(content: seq<string>, n: int): seq<string> {
    if n <= 0 || n > |BlocksOf(content)| then [] else TrimBlank(Lead(content) + Stack(BlocksOf(content)[..n]))
  }

  function KeepSplit(content: seq<string>, marks: seq<Mark>, n: int): SplitResult
    requires |marks| == |BlocksOf(content)|
  {
    if n > 0 && n >= |marks| then Refused
    else
      var kept := Apart(Front(content, n), Spread(Pick(BlocksOf(content), marks, {Stays})));
      SplitInto(OrPlaceholder(kept, Tail(content, marks, n)), TrimBlank(NoPlaceholders(Tail(content, marks, n))))
  }

  predicate HoldsContent(lines: seq<string>) {
    exists l | l in lines :: !Blank(l) && !IsPlaceholder(l)
  }

  function FreshSplit(content: seq<string>, marks: seq<Mark>, archived: bool): SplitResult
    requires |marks| == |BlocksOf(content)|
  {
    var kept := TrimBlank(Lead(content) + Stack(Pick(BlocksOf(content), marks, {Unselected, Stays})));
    if !archived && HoldsContent(kept) then Refused
    else SplitInto(kept, Spread(Pick(BlocksOf(content), marks, {Moves})))
  }

  /** A section as the line arithmetic sees it. */
  ghost predicate Laid(lines: seq<string>, sp: Span, entries: seq<Range>) {
    && sp.Span? && sp.heading < sp.end <= |lines| && sp.heading < Stop(lines, sp) <= sp.end
    && ContentOf(lines, sp) == lines[sp.heading + 1..Stop(lines, sp)]
    && (lines[Stop(lines, sp)..sp.end] == [] || lines[Stop(lines, sp)..sp.end] == [""])
    && Spans(lines, entries, BlocksOf(ContentOf(lines, sp)), sp.heading + 1 + |Lead(ContentOf(lines, sp))|, Stop(lines, sp))
  }

  lemma LaidOut(lines: seq<string>, t: string)
    requires SpanOf(lines, t).Span?
    ensures Laid(lines, SpanOf(lines, t), FilterIn(Ranges(t, lines), SpanOf(lines, t)))
    ensures var sp := SpanOf(lines, t); sp.heading < sp.end <= |lines| && NoSections(Toks(Closed, ContentOf(lines, sp)))
  {
    hide *;
    EntriesInSpan(lines, t);
    LaidIs(lines, SpanOf(lines, t), FilterIn(Ranges(t, lines), SpanOf(lines, t)));
  }

  lemma LaidIs(lines: seq<string>, sp: Span, entries: seq<Range>)
    requires sp.Span? && sp.heading < sp.end <= |lines|
    ensures Laid(lines, sp, entries) <==>
      (&& sp.heading < Stop(lines, sp) <= sp.end
       && ContentOf(lines, sp) == lines[sp.heading + 1..Stop(lines, sp)]
       && (lines[Stop(lines, sp)..sp.end] == [] || lines[Stop(lines, sp)..sp.end] == [""])
       && Spans(lines, entries, BlocksOf(ContentOf(lines, sp)), sp.heading + 1 + |Lead(ContentOf(lines, sp))|, Stop(lines, sp)))
  {
    hide Spans, BlocksOf, Lead, ContentOf, Stop;
  }

  lemma LaidFacts(lines: seq<string>, sp: Span, entries: seq<Range>)
    requires Laid(lines, sp, entries)
    ensures sp.Span? && sp.heading < sp.end <= |lines| && sp.heading < Stop(lines, sp) <= sp.end
    ensures |entries| == |BlocksOf(ContentOf(lines, sp))|
    ensures var first := sp.heading + 1 + |Lead(ContentOf(lines, sp))|;
      && first <= Stop(lines, sp) && lines[sp.heading + 1..first] == Lead(ContentOf(lines, sp))
      && Spans(lines, entries, BlocksOf(ContentOf(lines, sp)), first, Stop(lines, sp))
    ensures lines[Stop(lines, sp)..sp.end] == [] || lines[Stop(lines, sp)..sp.end] == [""]
    ensures forall r | r in entries :: Good(lines, r)
  {
    hide *;
    LaidParts(lines, sp, entries);
    var content := ContentOf(lines, sp);
    var first := sp.heading + 1 + |Lead(content)|;
    SpansBounds(lines, entries, BlocksOf(content), first, Stop(lines, sp));
    SpansEntries(lines, entries, BlocksOf(content), first, Stop(lines, sp));
    LeadIs(content);
    assert content[..|Lead(content)|] == lines[sp.heading + 1..first];
    LeadPrefix(content);
  }

  lemma LaidParts(lines: seq<string>, sp: Span, entries: seq<Range>)
    requires Laid(lines, sp, entries)
    ensures sp.Span? && sp.heading < sp.end <= |lines| && sp.heading < Stop(lines, sp) <= sp.end
    ensures ContentOf(lines, sp) == lines[sp.heading + 1..Stop(lines, sp)]
    ensures lines[Stop(lines, sp)..sp.end] == [] || lines[Stop(lines, sp)..sp.end] == [""]
    ensures Spans(lines, entries, BlocksOf(ContentOf(lines, sp)), sp.heading + 1 + |Lead(ContentOf(lines, sp))|, Stop(lines, sp))
  {
    hide Spans, BlocksOf, Lead, ContentOf, Stop;
  }

  lemma LeadPrefix(content: seq<string>)
    ensures Lead(content) <= content
  {
  }

  lemma {:induction false} PlaceholdersPad(x: seq<string>, q: seq<string>)
    requires q == [] || q == [""]
    ensures NoPlaceholders(x + q) == NoPlaceholders(x) + q
    ensures FirstPlaceholder(x + q) == FirstPlaceholder(x)
  {
    hide Trim;
    if x == [] {
      assert x + q == q;
      if q != [] {
        assert q[1..] == [];
        EmptyLine();
      }
    } else {
      assert (x + q)[1..] == x[1..] + q;
      PlaceholdersPad(x[1..], q);
    }
  }

  lemma EmptyLine()
    ensures Trim("") == "" && !IsPlaceholder("")
  {
  }

  lemma TrimPad(x: seq<string>, q: seq<string>)
    requires q == [] || q == [""]
    ensures TrimBlank(x + q) == TrimBlank(x)
  {
    hide *;
    TrimBlankSplit(x);
    TrimBlankSplit(x + q);
    if q == [""] {
      DropLeadingPad(x);
      if DropLeading(x) != [] {
        DropTrailingPad(DropLeading(x));
      }
    } else {
      assert x + q == x;
    }
  }

  lemma TrimBlankSplit(x: seq<string>)
    ensures TrimBlank(x) == DropTrailing(DropLeading(x))
  {
  }

  lemma DropTrailingPad(x: seq<string>)
    ensures DropTrailing(x + [""]) == DropTrailing(x)
  {
    hide Trim;
    EmptyLine();
    assert (x + [""])[..|x|] == x;
  }

  lemma {:induction false} DropLeadingPad(x: seq<string>)
    ensures DropLeading(x + [""]) == if DropLeading(x) == [] then [] else DropLeading(x) + [""]
  {
    hide Trim;
    if x == [] {
      EmptyLine();
      assert x + [""] == [""] && [""][1..] == [];
    } else if Blank(x[0]) {
      assert (x + [""])[1..] == x[1..] + [""];
      DropLeadingPad(x[1..]);
    }
  }

  /** What is left of a section's lines from `mid` on once the marked ranges are gone. */
  lemma KeptTail(lines: seq<string>, rs: seq<Range>, bs: seq<seq<string>>, from: nat, at: nat, to: nat, end: nat, marks: seq<Mark>, which: set<Mark>)
    requires from <= at && to <= end <= |lines| && Spans(lines, rs, bs, at, to) && |marks| == |rs|
    ensures |bs| == |marks| && at <= to
    ensures Kept(lines, from, end, LineSet(Pick(rs, marks, which)))
         == lines[from..at] + Stack(Pick(bs, marks, ALL - which)) + lines[to..end]
  {
    hide *;
    SpansBounds(lines, rs, bs, at, to);
    var gone := LineSet(Pick(rs, marks, which));
    LinesFollow(lines, rs, bs, at, to, marks, which);
    KeptSplit(lines, from, at, end, gone);
    KeptSplit(lines, at, to, end, gone);
    KeptAll(lines, from, at, gone);
    KeptAll(lines, to, end, gone);
    KeptSpans(lines, rs, bs, at, to, marks, which);
  }

  lemma {:induction false} PickTail<T>(s: seq<T>, marks: seq<Mark>, k: nat, which: set<Mark>)
    requires |s| == |marks| && k <= |s| && forall i | 0 <= i < k :: marks[i] !in which
    ensures Pick(s, marks, which) == Pick(s[k..], marks[k..], which)
  {
    hide *;
    assert s == s[..k] + s[k..] && marks == marks[..k] + marks[k..];
    PickConcat(s[..k], s[k..], marks[..k], marks[k..], which);
    PickNone(s[..k], marks[..k], which);
    assert [] + Pick(s[k..], marks[k..], which) == Pick(s[k..], marks[k..], which);
  }

  method SplitByKeep(lines: seq<string>, sp: Span, entries: seq<Range>, keep: int, staying: seq<Range>, droppedLine: set<nat>, ghost marks: seq<Mark>)
    returns (r: SplitResult)
    requires Laid(lines, sp, entries) && |marks| == |entries| == |BlocksOf(ContentOf(lines, sp))|
    requires forall i | 0 <= i < |marks| :: marks[i] == Unselected <==> i < keep
    requires staying == Pick(entries, marks, {Stays}) && droppedLine == LineSet(Pick(entries, marks, {Drops}))
    ensures r == KeepSplit(ContentOf(lines, sp), marks, keep)
  {
    hide *;
    LaidFacts(lines, sp, entries);
    ghost var content := ContentOf(lines, sp);
    ghost var bs, first, stop := BlocksOf(content), sp.heading + 1 + |Lead(content)|, Stop(lines, sp);
    SpansStart(lines, entries, bs, first, stop);
    ghost var k := if keep <= 0 then 0 else if keep < |entries| then keep else |entries|;
    ghost var mid := SpansFrom(lines, entries, bs, first, stop, k);
    KeepSplitIs(content, marks, keep);
    var from := if keep <= 0 then sp.heading + 1 else (if keep < |entries| then entries[keep].start else 0) - 1;
    if from < 0 {
      return Refused;
    }
    LinesFollow(lines, entries, bs, first, stop, marks, {Stays});
    PickedGood(lines, entries, bs, first, stop, marks, {Stays});
    var stayLine := AddEntryLines(staying, {});
    var tail := KeepLines(lines, from, sp.end, droppedLine + stayLine);
    var moved := TrimBlankLines(NoPlaceholders(tail));
    var stayingBlocks := EntryBlocks(lines, staying);
    var head := [];
    if keep > 0 {
      head := TrimBlankLines(lines[sp.heading + 1..from]);
    }
    var kept := if |head| > 0 && |stayingBlocks| > 0 then head + [""] + stayingBlocks else head + stayingBlocks;
    r := SplitInto(if kept == [] then FirstPlaceholder(tail) else kept, moved);

    assert droppedLine + stayLine == LineSet(Pick(entries, marks, {Drops})) + LineSet(Pick(entries, marks, {Stays}));
    LineSetUnion(entries, marks, {Drops}, {Stays});
    TailLines(lines, sp, entries, bs, marks, k, mid, stop, from, {Drops} + {Stays});
    var q := lines[stop..sp.end];
    assert tail == Tail(content, marks, keep) + q by {
      TailIs(content, marks, keep);
    }
    PlaceholdersPad(Tail(content, marks, keep), q);
    TrimPad(NoPlaceholders(Tail(content, marks, keep)), q);
    PickedBlocks(lines, entries, bs, first, stop, marks, {Stays});
    FrontIs(content, keep);
    if keep > 0 {
      assert lines[sp.heading + 1..from] == lines[sp.heading + 1..first] + lines[first..mid];
    }
    ApartIs(head, stayingBlocks, tail);
    OrPlaceholderIs(kept, tail, Tail(content, marks, keep));
  }

  lemma ApartIs(head: seq<string>, rest: seq<string>, tail: seq<string>)
    ensures Apart(head, rest) == if |head| > 0 && |rest| > 0 then head + [""] + rest else head + rest
  {
  }

  lemma OrPlaceholderIs(kept: seq<string>, tail: seq<string>, same: seq<string>)
    requires FirstPlaceholder(tail) == FirstPlaceholder(same)
    ensures OrPlaceholder(kept, same) == if kept == [] then FirstPlaceholder(tail) else kept
  {
    hide FirstPlaceholder;
  }

  lemma PickedGood(lines: seq<string>, rs: seq<Range>, bs: seq<seq<string>>, at: nat, to: nat, marks: seq<Mark>, which: set<Mark>)
    requires Spans(lines, rs, bs, at, to) && |marks| == |rs|
    ensures forall r | r in Pick(rs, marks, which) :: Good(lines, r)
  {
    hide *;
    SpansEntries(lines, rs, bs, at, to);
    PickedIn(rs, marks, which);
  }

  lemma {:induction false} PickedIn<T>(s: seq<T>, marks: seq<Mark>, which: set<Mark>)
    requires |s| == |marks|
    ensures forall x | x in Pick(s, marks, which) :: x in s
  {
    if s != [] {
      PickedIn(s[1..], marks[1..], which);
      assert s[0] in s && forall x | x in s[1..] :: x in s;
    }
  }

  lemma KeepSplitIs(content: seq<string>, marks: seq<Mark>, n: int)
    requires |marks| == |BlocksOf(content)|
    ensures KeepSplit(content, marks, n) ==
      if n > 0 && n >= |marks| then Refused
      else SplitInto(OrPlaceholder(Apart(Front(content, n), Spread(Pick(BlocksOf(content), marks, {Stays}))), Tail(content, marks, n)),
                     TrimBlank(NoPlaceholders(Tail(content, marks, n))))
  {
    hide OrPlaceholder, Apart, Front, Spread, Pick, BlocksOf, Tail, TrimBlank, NoPlaceholders;
  }

  lemma TailIs(content: seq<string>, marks: seq<Mark>, n: int)
    requires |marks| == |BlocksOf(content)|
    ensures Tail(content, marks, n) == (if n <= 0 then Lead(content) else []) + Stack(Pick(BlocksOf(content), marks, {Moves}))
  {
    hide Lead, Stack, Pick, BlocksOf;
  }

  lemma FrontIs(content: seq<string>, n: int)
    ensures Front(content, n) == if n <= 0 || n > |BlocksOf(content)| then [] else TrimBlank(Lead(content) + Stack(BlocksOf(content)[..n]))
  {
    hide Lead, Stack, TrimBlank, BlocksOf;
  }

  /** The tail's lines: from the heading or from the first entry past the kept ones. */
  lemma TailLines(lines: seq<string>, sp: Span, entries: seq<Range>, bs: seq<seq<string>>, marks: seq<Mark>, k: nat, mid: nat, stop: nat, from: int, gone: set<Mark>)
    requires |marks| == |entries| == |bs| && k <= |entries| && gone == {Drops, Stays}
    requires sp.Span? && 0 <= from <= mid <= stop <= sp.end <= |lines| && Spans(lines, entries[k..], bs[k..], mid, stop)
    requires forall i | 0 <= i < |marks| :: marks[i] == Unselected <==> i < k
    ensures Kept(lines, from, sp.end, LineSet(Pick(entries, marks, gone))) == lines[from..mid] + Stack(Pick(bs, marks, {Moves})) + lines[stop..sp.end]
  {
    hide *;
    PickTail(entries, marks, k, gone);
    PickTail(bs, marks, k, {Moves});
    KeptTail(lines, entries[k..], bs[k..], from, mid, stop, sp.end, marks[k..], gone);
    forall i | 0 <= i < |marks[k..]| ensures marks[k..][i] in ALL - gone <==> marks[k..][i] in {Moves} {
      assert marks[k..][i] == marks[k + i];
      MarkIs(marks[k + i], gone);
    }
    PickSame(bs[k..], marks[k..], ALL - gone, {Moves});
  }

  method SplitByBaseKeys(lines: seq<string>, sp: Span, archived: bool, moving: seq<Range>, droppedLine: set<nat>, ghost entries: seq<Range>, ghost marks: seq<Mark>)
    returns (r: SplitResult)
    requires Laid(lines, sp, entries) && |marks| == |entries| == |BlocksOf(ContentOf(lines, sp))|
    requires moving == Pick(entries, marks, {Moves}) && droppedLine == LineSet(Pick(entries, marks, {Drops}))
    ensures r == FreshSplit(ContentOf(lines, sp), marks, archived)
  {
    hide *;
    LaidFacts(lines, sp, entries);
    ghost var content := ContentOf(lines, sp);
    ghost var bs, first, stop := BlocksOf(content), sp.heading + 1 + |Lead(content)|, Stop(lines, sp);
    LinesFollow(lines, entries, bs, first, stop, marks, {Moves});
    PickedGood(lines, entries, bs, first, stop, marks, {Moves});
    var leaves := AddEntryLines(moving, droppedLine);
    var kept := KeepLines(lines, sp.heading + 1, sp.end, leaves);
    kept := TrimBlankLines(kept);
    LineSetUnion(entries, marks, {Drops}, {Moves});
    KeptTail(lines, entries, bs, sp.heading + 1, first, stop, sp.end, marks, {Drops} + {Moves});
    forall i | 0 <= i < |marks| ensures marks[i] in ALL - ({Drops} + {Moves}) <==> marks[i] in {Unselected, Stays} {
      MarkIs(marks[i], {Drops} + {Moves});
    }
    PickSame(bs, marks, ALL - ({Drops} + {Moves}), {Unselected, Stays});
    TrimPad(Lead(content) + Stack(Pick(bs, marks, {Unselected, Stays})), lines[stop..sp.end]);
    FreshSplitIs(content, marks, archived);
    if !archived && HoldsContent(kept) {
      return Refused;
    }
    var moved := EntryBlocks(lines, moving);
    PickedBlocks(lines, entries, bs, first, stop, marks, {Moves});
    r := SplitInto(kept, moved);
  }

  lemma FreshSplitIs(content: seq<string>, marks: seq<Mark>, archived: bool)
    requires |marks| == |BlocksOf(content)|
    ensures var kept := TrimBlank(Lead(content) + Stack(Pick(BlocksOf(content), marks, {Unselected, Stays})));
      FreshSplit(content, marks, archived) ==
        if !archived && HoldsContent(kept) then Refused else SplitInto(kept, Spread(Pick(BlocksOf(content), marks, {Moves})))
  {
    hide Lead, Stack, Pick, BlocksOf, TrimBlank, Spread, HoldsContent;
  }

  // ---------------------------------------------------------------- archiveFinishedText

  /** The section at `sp` holding `body`: a blank line on either side, or none for an empty body. A
      document this section ends closes with exactly one newline. */
  function WithSectionBody(lines: seq<string>, sp: Span, body: seq<string>): seq<string>
    requires sp.Span? && sp.heading < sp.end <= |lines|
  {
    lines[..sp.heading + 1] + (if body == [] then [] else [""] + body) + [""] + lines[sp.end..]
  }

  /** The archive file, if the repository has one. */
  datatype ArchiveFile = NoFile | Lines(lines: seq<string>)

  datatype ArchiveMove = NoMove | ArchiveMove(live: seq<string>, archive: seq<string>, titles: seq<string>, dropped: seq<string>)

  function TextOrTemplate(archive: ArchiveFile, template: seq<string>): seq<string> {
    if archive.NoFile? then template else archive.lines
  }

  /** The entries of the first section titled `t`. */
  function SectionEntries(lines: seq<string>, t: string): seq<Entry>
    requires SpanOf(lines, t).Span?
  {
    EntriesOf(BlocksOf(ContentOf(lines, SpanOf(lines, t))))
  }

  function SplitOf(content: seq<string>, marks: seq<Mark>, sel: Selection, archived: bool): SplitResult
    requires |marks| == |BlocksOf(content)|
  {
    match sel
    case Keep(n) => KeepSplit(content, marks, n)
    case Fresh(_, _) => FreshSplit(content, marks, archived)
  }

  /** The archive text with the moved lines on top of the section. */
  function OnTop(text: seq<string>, asp: Span, moved: seq<string>): seq<string>
    requires asp.Span? && asp.heading < asp.end <= |text|
  {
    if moved == [] then text else WithSectionBody(text, asp, Apart(moved, TrimBlank(text[asp.heading + 1..asp.end])))
  }

  /** The whole move, on blocks. */
  function Archived(live: seq<string>, archive: ArchiveFile, t: string, template: seq<string>, sel: Selection): ArchiveMove {
    var text := TextOrTemplate(archive, template);
    var sp, asp := SpanOf(live, t), SpanOf(text, t);
    if sp.NoSpan? || asp.NoSpan? then NoMove
    else
      var es := SectionEntries(live, t);
      var marks := Marks(es, SectionEntries(text, t), sel, 0);
      var split := SplitOf(ContentOf(live, sp), marks, sel, archive.Lines?);
      var dropped := Titles(Pick(es, marks, {Drops}));
      if split.Refused? || (split.moved == [] && dropped == []) then NoMove
      else ArchiveMove(WithSectionBody(live, sp, split.kept), OnTop(text, asp, split.moved), Titles(Pick(es, marks, {Moves})), dropped)
  }

  function RangeTitles(rs: seq<Range>): (ts: seq<string>)
    ensures |ts| == |rs|
  {
    if rs == [] then [] else [rs[0].title] + RangeTitles(rs[1..])
  }

  lemma {:induction false} RangeTitlesAre(lines: seq<string>, rs: seq<Range>, marks: seq<Mark>, which: set<Mark>)
    requires |marks| == |rs| && forall r | r in rs :: Good(lines, r)
    ensures RangeTitles(Pick(rs, marks, which)) == Titles(Pick(EntriesAt(lines, rs), marks, which))
  {
    hide *;
    if rs == [] {
      NoTitles(lines, marks, which);
    } else {
      var r, m := rs[0], marks[0];
      assert rs == [r] + rs[1..] && marks == [m] + marks[1..];
      GoodIs(lines, r);
      RangeTitlesAre(lines, rs[1..], marks[1..], which);
      EntriesAtCons(lines, r, rs[1..]);
      PickCons(r, rs[1..], m, marks[1..], which);
      PickCons(EntryAt(lines, r), EntriesAt(lines, rs[1..]), m, marks[1..], which);
      var later := Pick(rs[1..], marks[1..], which);
      TitlesCons(EntryAt(lines, r), Pick(EntriesAt(lines, rs[1..]), marks[1..], which));
      RangeTitlesCons(r, later);
      assert [] + later == later;
      assert [] + Pick(EntriesAt(lines, rs[1..]), marks[1..], which) == Pick(EntriesAt(lines, rs[1..]), marks[1..], which);
    }
  }

  lemma NoTitles(lines: seq<string>, marks: seq<Mark>, which: set<Mark>)
    requires |marks| == 0
    ensures RangeTitles(Pick([], marks, which)) == Titles(Pick(EntriesAt(lines, []), marks, which))
  {
  }

  lemma RangeTitlesCons(r: Range, rs: seq<Range>)
    ensures RangeTitles([r] + rs) == [r.title] + RangeTitles(rs)
  {
    assert ([r] + rs)[1..] == rs;
  }

  lemma KeepMarks(es: seq<Entry>, old_: seq<Entry>, sel: Selection)
    requires sel.Keep?
    ensures forall i | 0 <= i < |es| :: Marks(es, old_, sel, 0)[i] == Unselected <==> i < sel.n
  {
    forall i | 0 <= i < |es| ensures Marks(es, old_, sel, 0)[i] == Unselected <==> i < sel.n {
      MarksAt(es, old_, sel, 0, i);
      FateIsNot(es[i], old_);
    }
  }

  lemma {:induction false} NoneSelected(es: seq<Entry>, lines: seq<string>, rs: seq<Range>, old_: seq<Entry>, sel: Selection)
    requires es == EntriesAt(lines, rs) && SelectRanges(rs, sel) == [] && forall r | r in rs :: Good(lines, r)
    ensures forall f | f in {Moves, Drops} :: Pick(es, Marks(es, old_, sel, 0), {f}) == []
  {
    hide *;
    forall f | f in {Moves, Drops} ensures Pick(es, Marks(es, old_, sel, 0), {f}) == [] {
      SelectMarks(lines, rs, old_, sel, 0, f);
      ShiftNone(sel);
      NoneFated(lines, old_, f);
      RangeTitlesAre(lines, rs, Marks(es, old_, sel, 0), {f});
      TitlesEmpty(Pick(es, Marks(es, old_, sel, 0), {f}));
      EmptyTitles();
    }
  }

  lemma EmptyTitles()
    ensures RangeTitles([]) == []
  {
  }

  lemma TitlesEmpty(es: seq<Entry>)
    ensures Titles(es) == [] <==> es == []
  {
  }

  lemma NoneFated(lines: seq<string>, old_: seq<Entry>, f: Mark)
    ensures FatesOf(EntriesAt(lines, []), old_) == [] && Pick<Range>([], [], {f}) == []
  {
  }

  lemma ShiftNone(sel: Selection)
    ensures Shift(sel, 0) == sel
  {
  }

  /** With nothing selected nothing moves and nothing is dropped. */
  lemma NothingToDo(live: seq<string>, archive: ArchiveFile, t: string, template: seq<string>, sel: Selection)
    requires SpanOf(live, t).Span? && sel.Fresh?
    requires forall old_, f | f in {Moves, Drops} :: Pick(SectionEntries(live, t), Marks(SectionEntries(live, t), old_, sel, 0), {f}) == []
    ensures Archived(live, archive, t, template, sel) == NoMove
  {
    hide *;
    ArchivedIs(live, archive, t, template, sel);
    var text := TextOrTemplate(archive, template);
    if SpanOf(text, t).Span? {
      var content, es := ContentOf(live, SpanOf(live, t)), SectionEntries(live, t);
      SectionEntriesIs(live, t);
      var marks := Marks(es, SectionEntries(text, t), sel, 0);
      FreshSplitIs(content, marks, archive.Lines?);
      SplitOfIs(content, marks, sel, archive.Lines?);
      PickEntries(BlocksOf(content), marks, {Moves});
      NothingSpread(Pick(BlocksOf(content), marks, {Moves}));
      TitlesEmpty(Pick(es, marks, {Drops}));
    }
  }

  lemma NothingSpread(bs: seq<seq<string>>)
    ensures EntriesOf(bs) == [] ==> Spread(bs) == []
  {
  }

  lemma SectionEntriesIs(lines: seq<string>, t: string)
    requires SpanOf(lines, t).Span?
    ensures SpanOf(lines, t).heading < SpanOf(lines, t).end <= |lines|
    ensures SectionEntries(lines, t) == EntriesOf(BlocksOf(ContentOf(lines, SpanOf(lines, t))))
    ensures |SectionEntries(lines, t)| == |BlocksOf(ContentOf(lines, SpanOf(lines, t)))|
  {
    hide BlocksOf, ContentOf;
  }

  lemma SplitOfIs(content: seq<string>, marks: seq<Mark>, sel: Selection, archived: bool)
    requires |marks| == |BlocksOf(content)|
    ensures SplitOf(content, marks, sel, archived) == if sel.Keep? then KeepSplit(content, marks, sel.n) else FreshSplit(content, marks, archived)
  {
    hide KeepSplit, FreshSplit, BlocksOf;
  }

  lemma ArchivedIs(live: seq<string>, archive: ArchiveFile, t: string, template: seq<string>, sel: Selection)
    ensures var text := TextOrTemplate(archive, template);
      var sp, asp := SpanOf(live, t), SpanOf(text, t);
      if sp.NoSpan? || asp.NoSpan? then Archived(live, archive, t, template, sel) == NoMove
      else
        && sp.heading < sp.end <= |live| && asp.heading < asp.end <= |text|
        && |SectionEntries(live, t)| == |BlocksOf(ContentOf(live, sp))|
        && var es := SectionEntries(live, t);
           var marks := Marks(es, SectionEntries(text, t), sel, 0);
           var split := SplitOf(ContentOf(live, sp), marks, sel, archive.Lines?);
           var dropped := Titles(Pick(es, marks, {Drops}));
           Archived(live, archive, t, template, sel) ==
             if split.Refused? || (split.moved == [] && dropped == []) then NoMove
             else ArchiveMove(WithSectionBody(live, sp, split.kept), OnTop(text, asp, split.moved), Titles(Pick(es, marks, {Moves})), dropped)
  {
    hide BlocksOf, ContentOf, Marks, SplitOf, Titles, Pick, WithSectionBody, OnTop, TextOrTemplate;
  }

  method ArchiveFinishedText(live: seq<string>, archive: ArchiveFile, t: string, template: seq<string>, sel: Selection) returns (r: ArchiveMove)
    ensures r == Archived(live, archive, t, template, sel)
  {
    hide *;
    ArchivedIs(live, archive, t, template, sel);
    var text := TextOrTemplate(archive, template);
    var span := SectionSpan(live, t);
    if span.NoSpan? {
      return NoMove;
    }
    var ranges := ActionableEntryRanges(live, t);
    var entries := FilterIn(ranges, span);
    LaidOut(live, t);
    LaidFacts(live, span, entries);
    LaidEntries(live, t, entries);
    ghost var es := SectionEntries(live, t);
    var selected := SelectRanges(entries, sel);
    SelectedAre(entries, sel);
    if sel.Fresh? && selected == [] {
      forall old_, f | f in {Moves, Drops} ensures Pick(es, Marks(es, old_, sel, 0), {f}) == [] {
        NoneSelected(es, live, entries, old_, sel);
      }
      NothingToDo(live, archive, t, template, sel);
      return NoMove;
    }
    var archiveSpan := SectionSpan(text, t);
    if archiveSpan.NoSpan? {
      return NoMove;
    }
    var archiveRanges := ActionableEntryRanges(text, t);
    var archiveEntries := FilterIn(archiveRanges, archiveSpan);
    LaidOut(text, t);
    LaidFacts(text, archiveSpan, archiveEntries);
    LaidEntries(text, t, archiveEntries);
    var fates := EntryFates(live, selected, text, archiveEntries);
    ghost var old_ := SectionEntries(text, t);
    ghost var marks := Marks(es, old_, sel, 0);
    ShiftNone(sel);
    SelectMarks(live, entries, old_, sel, 0, Moves);
    SelectMarks(live, entries, old_, sel, 0, Drops);
    SelectMarks(live, entries, old_, sel, 0, Stays);
    var dropRanges := Pick(selected, fates, {Drops});
    var moveRanges := Pick(selected, fates, {Moves});
    PickedIn(selected, fates, {Drops});
    StartsFromOne(live, entries);
    var droppedLine := AddEntryLines(dropRanges, {});
    assert droppedLine == LineSet(dropRanges);
    SplitOfIs(ContentOf(live, span), marks, sel, archive.Lines?);
    var split;
    match sel {
      case Keep(n) =>
        KeepMarks(es, old_, sel);
        split := SplitByKeep(live, span, entries, n, Pick(selected, fates, {Stays}), droppedLine, marks);
      case Fresh(_, _) =>
        split := SplitByBaseKeys(live, span, archive.Lines?, moveRanges, droppedLine, entries, marks);
    }
    RangeTitlesAre(live, entries, marks, {Drops});
    RangeTitlesAre(live, entries, marks, {Moves});
    if split.Refused? {
      return NoMove;
    }
    var dropped := RangeTitles(dropRanges);
    if split.moved == [] && dropped == [] {
      return NoMove;
    }
    var existing := TrimBlankLines(text[archiveSpan.heading + 1..archiveSpan.end]);
    OnTopIs(text, archiveSpan, split.moved);
    ApartIs(split.moved, existing, []);
    r := ArchiveMove(WithSectionBody(live, span, split.kept),
                     if split.moved == [] then text
                     else WithSectionBody(text, archiveSpan, if |existing| > 0 then split.moved + [""] + existing else split.moved),
                     RangeTitles(moveRanges), dropped);
    assert split.moved + existing == split.moved || |existing| > 0;
  }

  lemma OnTopIs(text: seq<string>, asp: Span, moved: seq<string>)
    requires asp.Span? && asp.heading < asp.end <= |text|
    ensures OnTop(text, asp, moved) ==
      if moved == [] then text else WithSectionBody(text, asp, Apart(moved, TrimBlank(text[asp.heading + 1..asp.end])))
  {
    hide WithSectionBody, Apart, TrimBlank;
  }

  lemma StartsFromOne(lines: seq<string>, rs: seq<Range>)
    requires forall r | r in rs :: Good(lines, r)
    ensures forall r | r in rs :: r.start >= 1
  {
    hide EntryAt, IsEntryHead;
  }

  /** The ranges' entries are the section's. */
  lemma LaidEntries(lines: seq<string>, t: string, entries: seq<Range>)
    requires SpanOf(lines, t).Span? && Laid(lines, SpanOf(lines, t), entries)
    ensures EntriesAt(lines, entries) == SectionEntries(lines, t)
  {
    hide *;
    var sp := SpanOf(lines, t);
    LaidFacts(lines, sp, entries);
    var content := ContentOf(lines, sp);
    SpansEntries(lines, entries, BlocksOf(content), sp.heading + 1 + |Lead(content)|, Stop(lines, sp));
    SectionEntriesIs(lines, t);
  }
}
