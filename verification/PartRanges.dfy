/** The two spellings of a series' parts: printed label and parsed clause. */
module PartRanges {
  import opened Text
  import opened Wrappers
  import opened Parts

  // `partsLabel` prints them with runs joined into ranges (src/backlog/backlog-index-data.ts), and a
  // `requires` clause is split and parsed back into refs (src/backlog/backlog-parts.ts). For well-formed
  // parts the two undo each other.

  const EN_DASH: char := '\U{2013}'

  // ---------------------------------------------------------------- numbers

  predicate IsDigit(c: char) {
    '0' <= c <= '9'
  }

  predicate IsLetter(c: char) {
    'a' <= c <= 'z' || 'A' <= c <= 'Z'
  }

  predicate Numeric(s: string) {
    s != "" && forall i | 0 <= i < |s| :: IsDigit(s[i])
  }

  function Value(s: string): nat
    requires forall i | 0 <= i < |s| :: IsDigit(s[i])
  {
    if s == "" then 0
    else
      assert IsDigit(s[|s| - 1]);
      10 * Value(s[..|s| - 1]) + (s[|s| - 1] as int - '0' as int)
  }

  lemma {:induction false} NumberTextRoundTrip(n: nat)
    ensures Numeric(NumberText(n)) && Value(NumberText(n)) == n
  {
    if n < 10 {
      assert NumberText(n) == [(n + '0' as int) as char];
      assert NumberText(n)[..0] == "";
    } else {
      NumberTextRoundTrip(n / 10);
      var text := NumberText(n);
      assert text[..|text| - 1] == NumberText(n / 10);
    }
  }

  /** A part number as the index writes it: no leading zeros. */
  predicate Canonical(part: string) {
    Numeric(part) && NumberText(Value(part)) == part
  }

  /** A historical sub-plan's token, such as `2a`, in the lower case every reader gives it. */
  predicate Lettered(part: string) {
    |part| >= 2 && Numeric(part[..|part| - 1]) && 'a' <= part[|part| - 1] <= 'z'
  }

  // ---------------------------------------------------------------- the printer

  /** A run of consecutive parts, first and last. */
  datatype Run = Run(first: PartRef, last: PartRef)

  predicate Follows(prev: PartRef, ref: PartRef) {
    Numeric(ref.part) && Numeric(prev.part) && Value(ref.part) == Value(prev.part) + 1 && ref.of == prev.of
  }

  /** The maximal runs, left to right, the first one already open. */
  function RunsFrom(open: Run, refs: seq<PartRef>): seq<Run>
    decreases |refs|
  {
    if refs == [] then [open]
    else if Follows(open.last, refs[0]) then RunsFrom(Run(open.first, refs[0]), refs[1..])
    else [open] + RunsFrom(Run(refs[0], refs[0]), refs[1..])
  }

  function RunsOf(refs: seq<PartRef>): seq<Run> {
    if refs == [] then [] else RunsFrom(Run(refs[0], refs[0]), refs[1..])
  }

  function PartText(ref: PartRef): string {
    ref.part + "/" + NumberText(ref.of)
  }

  function Piece(r: Run): string {
    if r.first.part == r.last.part then PartText(r.first) else PartText(r.first) + [EN_DASH] + PartText(r.last)
  }

  function Pieces(runs: seq<Run>): (pieces: seq<string>)
    ensures |pieces| == |runs|
  {
    if runs == [] then [] else [Piece(runs[0])] + Pieces(runs[1..])
  }

  function Listed(pieces: seq<string>): string {
    if pieces == [] then "" else if |pieces| == 1 then pieces[0] else pieces[0] + ", " + Listed(pieces[1..])
  }

  function Label(refs: seq<PartRef>): string {
    Listed(Pieces(RunsOf(refs)))
  }

  lemma {:induction false} PiecesSnoc(runs: seq<Run>, r: Run)
    ensures Pieces(runs + [r]) == Pieces(runs) + [Piece(r)]
  {
    hide Piece;
    if runs == [] {
      assert runs + [r] == [r] && [r][1..] == [];
    } else {
      assert (runs + [r])[1..] == runs[1..] + [r];
      PiecesSnoc(runs[1..], r);
    }
  }

  /** `partsLabel`: `start` and `prev` hold the open run, and `flush` closes it. */
  method PartsLabel(refs: seq<PartRef>) returns (text: string)
    ensures text == Label(refs)
  {
    hide Piece, Follows, Listed;
    var pieces: seq<string> := [];
    var start: Option<PartRef>, prev: Option<PartRef> := None, None;
    ghost var done: seq<Run> := [];
    for i := 0 to |refs|
      invariant start.Some? <==> prev.Some?
      invariant start.None? <==> i == 0
      invariant pieces == Pieces(done)
      invariant i == 0 ==> done == []
      invariant i > 0 ==> done + RunsFrom(Run(start.value, prev.value), refs[i..]) == RunsOf(refs)
    {
      var ref := refs[i];
      assert refs[i..][1..] == refs[i + 1..];
      if prev.Some? && Follows(prev.value, ref) {
        prev := Some(ref);
      } else {
        if start.Some? {
          PiecesSnoc(done, Run(start.value, prev.value));
          pieces := pieces + [Piece(Run(start.value, prev.value))];
          done := done + [Run(start.value, prev.value)];
        }
        start, prev := Some(ref), Some(ref);
      }
    }
    assert refs[|refs|..] == [];
    if start.Some? {
      PiecesSnoc(done, Run(start.value, prev.value));
      pieces := pieces + [Piece(Run(start.value, prev.value))];
    }
    text := Listed(pieces);
  }

  // ---------------------------------------------------------------- the parser

  function LeadingDigits(s: string): (n: nat)
    ensures n <= |s| && (forall i | 0 <= i < n :: IsDigit(s[i])) && (n < |s| ==> !IsDigit(s[n]))
  {
    if s == "" || !IsDigit(s[0]) then 0 else 1 + LeadingDigits(s[1..])
  }

  function SpaceRun(s: string): (n: nat)
    ensures n <= |s| && (forall i | 0 <= i < n :: IsSpace(s[i])) && (n < |s| ==> !IsSpace(s[n]))
  {
    if s == "" || !IsSpace(s[0]) then 0 else 1 + SpaceRun(s[1..])
  }

  /** What the ref pattern captures: the start token, its total, and a range's last number. */
  datatype RefMatch = NoMatch | RefMatch(start: string, of: string, to: Option<string>)

  /** Digits, a slash and digits, and nothing after them. */
  function LastNumber(s: string): Option<string> {
    var d := LeadingDigits(s);
    if d == 0 || d == |s| || s[d] != '/' then None
    else
      var e := LeadingDigits(s[d + 1..]);
      if e == 0 || d + 1 + e != |s| then None else Some(s[..d])
  }

  /** The ref at the end of a chunk: `2a/5`, or a range with either dash, spaces around it allowed. */
  function MatchRef(s: string): RefMatch {
    var d := LeadingDigits(s);
    var p := if d < |s| && IsLetter(s[d]) then d + 1 else d;
    if d == 0 || p == |s| || s[p] != '/' then NoMatch else MatchTotal(s[..p], s[p + 1..])
  }

  function MatchTotal(start: string, s: string): RefMatch {
    var e := LeadingDigits(s);
    if e == 0 then NoMatch else MatchRange(start, s[..e], s[e..])
  }

  function MatchRange(start: string, of: string, rest: string): RefMatch {
    var q := SpaceRun(rest);
    if rest == "" then RefMatch(start, of, None)
    else if q == |rest| || (rest[q] != EN_DASH && rest[q] != '-') then NoMatch
    else
      var last := LastNumber(rest[q + 1..][SpaceRun(rest[q + 1..])..]);
      if last.None? then NoMatch else RefMatch(start, of, last)
  }

  /** A chunk's series name and ref: the shortest name that leaves a ref after white space, else none. */
  datatype Named = Named(name: string, ref: RefMatch)

  function MatchNamed(s: string, i: nat): Named
    requires i <= |s|
    decreases |s| - i
  {
    if i == |s| then Named("", MatchRef(s))
    else if i > 0 && IsSpace(s[i]) && MatchRef(s[i + SpaceRun(s[i..])..]) != NoMatch then
      Named(s[..i], MatchRef(s[i + SpaceRun(s[i..])..]))
    else MatchNamed(s, i + 1)
  }

  /** The length of a leading `parts`/`part` keyword, in any case, with at least one space after it. */
  function Keyword(s: string): (n: nat)
    ensures n <= |s|
  {
    var w := if |s| >= 5 && Lower(s[..5]) == "parts" then 5 else if |s| >= 4 && Lower(s[..4]) == "part" then 4 else 0;
    if w == 0 || SpaceRun(s[w..]) == 0 then 0 else w + SpaceRun(s[w..])
  }

  /** A trailing `parts`/`part` keyword with space before it belongs to no name. */
  function DropKeyword(name: string): string {
    var n := |name|;
    if n > 5 && Lower(name[n - 5..]) == "parts" && IsSpace(name[n - 6]) then TrimEnd(name[..n - 5])
    else if n > 4 && Lower(name[n - 4..]) == "part" && IsSpace(name[n - 5]) then TrimEnd(name[..n - 4])
    else name
  }

  /** `refsFromMatch`: one ref, or an inclusive numeric range. */
  function RefsFrom(series: string, of: nat, start: string, to: Option<string>): seq<PartRef> {
    if to.None? then [PartRef(series, Lower(start), of)]
    else if !Numeric(start) || !Numeric(to.value) then []
    else Expanded(series, of, Value(start), Value(to.value))
  }

  function Expanded(series: string, of: nat, from: nat, to: nat): seq<PartRef>
    decreases 1 + to - from
  {
    if to < from then [] else [PartRef(series, NumberText(from), of)] + Expanded(series, of, from + 1, to)
  }

  datatype Parsed = Parsed(refs: seq<PartRef>, named: Option<string>)

  /** The chunk's text behind its keyword. */
  function RefText(chunk: string): string {
    Trim(chunk)[Keyword(Trim(chunk))..]
  }

  /** `parseRef`. */
  function ParseRef(chunk: string, fallback: Option<string>): Parsed {
    if RefText(chunk) == "" then Parsed([], None) else Resolved(MatchNamed(RefText(chunk), 0), fallback)
  }

  /** The refs of a match, in the series it names or else the fallback's. */
  function Resolved(m: Named, fallback: Option<string>): Parsed {
    if m.ref.NoMatch? then Parsed([], None)
    else
      var name := DropKeyword(Trim(m.name));
      var named := if name != "" then Some(name) else None;
      var series := if named.Some? then named else if fallback == Some("") then None else fallback;
      if series.None? || !Numeric(m.ref.of) || Value(m.ref.of) < 1 then Parsed([], named)
      else Parsed(RefsFrom(series.value, Value(m.ref.of), m.ref.start, m.ref.to), named)
  }

  /** The separator at the start of `s`: a comma with any space around it, or `and` between spaces. */
  function Separator(s: string): (n: nat)
    ensures n <= |s|
  {
    var a := SpaceRun(s);
    if a < |s| && s[a] == ',' then a + 1 + SpaceRun(s[a + 1..])
    else if a > 0 && a + 3 < |s| && Lower(s[a..a + 3]) == "and" && IsSpace(s[a + 3]) then a + 3 + SpaceRun(s[a + 3..])
    else 0
  }

  /** `clause.split(...)`: `acc` is the chunk so far. */
  function Chunks(acc: string, s: string): seq<string>
    decreases |s|
  {
    if s == "" then [acc]
    else if Separator(s) > 0 then [acc] + Chunks("", s[Separator(s)..])
    else Chunks(acc + [s[0]], s[1..])
  }

  /** The refs of a clause's chunks; a named series carries over to the chunks after it. */
  function RefsOf(chunks: seq<string>, lastNamed: Option<string>, own: Option<string>): seq<PartRef> {
    if chunks == [] then []
    else
      var p := ParseRef(chunks[0], if lastNamed.Some? then lastNamed else own);
      p.refs + RefsOf(chunks[1..], if p.named.Some? then p.named else lastNamed, own)
  }

  /** `requiredParts` on a clause's text: one loop that keeps the last series named. */
  method RequiredParts(clause: string, own: Option<string>) returns (refs: seq<PartRef>)
    ensures refs == RefsOf(Chunks("", clause), None, own)
    ensures forall items: seq<Item> | items != [] && clause == ClauseText(items) && (forall x | x in items :: GoodItem(x)) ::
              refs == ItemRefs(items, NotEmpty(own))
  {
    hide Chunks, ParseRef, ClauseText, ItemRefs, GoodItem;
    forall items: seq<Item> | items != [] && clause == ClauseText(items) && (forall x | x in items :: GoodItem(x))
      ensures RefsOf(Chunks("", clause), None, own) == ItemRefs(items, NotEmpty(own))
    {
      ClauseRoundTrip(items, own);
    }
    var chunks := Chunks("", clause);
    refs := [];
    var lastNamed: Option<string> := None;
    assert chunks[0..] == chunks;
    for i := 0 to |chunks|
      invariant refs + RefsOf(chunks[i..], lastNamed, own) == RefsOf(chunks, None, own)
    {
      assert chunks[i..][1..] == chunks[i + 1..];
      var p := ParseRef(chunks[i], if lastNamed.Some? then lastNamed else own);
      if p.named.Some? {
        lastNamed := p.named;
      }
      refs := refs + p.refs;
    }
    assert chunks[|chunks|..] == [];
  }

  // ---------------------------------------------------------------- from headings to the reports

  /** A planned heading with its texts cut out: its own part, what stands between `requires` and `landed`,
      and the refs behind other dependency verbs. */
  datatype Heading = Heading(title: string, own: Option<PartRef>, clause: Option<string>, worded: seq<string>, note: Note)

  function OwnSeries(h: Heading): Option<string> {
    if h.own.None? then None else Some(h.own.value.series)
  }

  function WordedRefs(chunks: seq<string>, own: Option<string>): seq<PartRef> {
    if chunks == [] then [] else WordedRefs(chunks[..|chunks| - 1], own) + ParseRef(chunks[|chunks| - 1], own).refs
  }

  /** The heading as the graph and the hold rule read it. */
  function PlanOf(h: Heading): Plan {
    Plan(h.title, h.own, if h.clause.None? then None else Some(RefsOf(Chunks("", h.clause.value), None, OwnSeries(h))),
         WordedRefs(h.worded, OwnSeries(h)), h.note)
  }

  function PlansOf(hs: seq<Heading>): (planned: seq<Plan>)
    ensures |planned| == |hs| && forall i | 0 <= i < |hs| :: planned[i] == PlanOf(hs[i])
  {
    if hs == [] then [] else [PlanOf(hs[0])] + PlansOf(hs[1..])
  }

  method ParsePlan(h: Heading) returns (p: Plan)
    ensures p == PlanOf(h)
  {
    hide RefsOf, ParseRef, Chunks;
    var clause: Option<seq<PartRef>> := None;
    if h.clause.Some? {
      var refs := RequiredParts(h.clause.value, OwnSeries(h));
      clause := Some(refs);
    }
    var worded: seq<PartRef> := [];
    for i := 0 to |h.worded|
      invariant worded == WordedRefs(h.worded[..i], OwnSeries(h))
    {
      assert h.worded[..i + 1][..i] == h.worded[..i];
      worded := worded + ParseRef(h.worded[i], OwnSeries(h)).refs;
    }
    assert h.worded[..|h.worded|] == h.worded;
    p := Plan(h.title, h.own, clause, worded, h.note);
  }

  /** `planDependencyProblems` on headings: their clauses parsed, then the reports on the plans they make. */
  method HeadingProblems(hs: seq<Heading>, done: seq<DoneTitle>)
    returns (cycle: Option<seq<string>>, dangling: seq<Reported>, unparsed: seq<string>, misworded: seq<Reported>)
    ensures cycle.None? <==> Acyclic(Nodes(PlansOf(hs)))
    ensures cycle.None? && hs != [] && (forall h | h in hs :: h.note == NoNote) ==>
              exists i | 0 <= i < |hs| :: HoldAgainst(PlansOf(hs)[i], PlannedKeys(PlansOf(hs))) == Free
    ensures dangling == AllDangling(PlansOf(hs), KnownParts(PlansOf(hs), done)) && unparsed == Unparsed(PlansOf(hs))
    ensures misworded == AllMisworded(PlansOf(hs), PlannedKeys(PlansOf(hs)))
  {
    hide PlanOf, Acyclic, Nodes, HoldAgainst, PlannedKeys, AllDangling, KnownParts, Unparsed, AllMisworded;
    var planned: seq<Plan> := [];
    for i := 0 to |hs|
      invariant |planned| == i && forall j | 0 <= j < i :: planned[j] == PlanOf(hs[j])
    {
      var p := ParsePlan(hs[i]);
      planned := planned + [p];
    }
    assert planned == PlansOf(hs);
    forall p | p in planned && (forall h | h in hs :: h.note == NoNote) ensures p.note == NoNote {
      var i :| 0 <= i < |hs| && planned[i] == p;
      NoteOf(hs[i]);
    }
    cycle, dangling, unparsed, misworded := PlanDependencyProblems(planned, done);
  }

  lemma NoteOf(h: Heading)
    ensures PlanOf(h).note == h.note
  {
    hide RefsOf, Chunks, WordedRefs;
  }

  // ---------------------------------------------------------------- the round trip

  /** A part a heading can carry and the index prints as it is. */
  predicate WellFormed(ref: PartRef) {
    (Canonical(ref.part) || Lettered(ref.part)) && ref.of >= 1
  }

  /** The refs a run stands for. */
  function RunRefs(series: string, r: Run): seq<PartRef> {
    if r.first.part == r.last.part then [PartRef(series, r.first.part, r.first.of)]
    else if Numeric(r.first.part) && Numeric(r.last.part) then Expanded(series, r.first.of, Value(r.first.part), Value(r.last.part))
    else []
  }

  function AllRunRefs(series: string, runs: seq<Run>): seq<PartRef> {
    if runs == [] then [] else RunRefs(series, runs[0]) + AllRunRefs(series, runs[1..])
  }

  /** An open run: one part, or numeric ones with one total. */
  predicate GoodRun(r: Run) {
    && WellFormed(r.first) && WellFormed(r.last) && r.first.of == r.last.of
    && (r.first.part != r.last.part ==> Canonical(r.first.part) && Canonical(r.last.part))
    && (Canonical(r.first.part) && Canonical(r.last.part) ==> Value(r.first.part) <= Value(r.last.part))
  }

  lemma {:induction false} ExpandedSnoc(series: string, of: nat, from: nat, to: nat)
    requires from <= to + 1
    ensures Expanded(series, of, from, to + 1) == Expanded(series, of, from, to) + [PartRef(series, NumberText(to + 1), of)]
    decreases 1 + to - from
  {
    hide NumberText;
    if from <= to {
      ExpandedSnoc(series, of, from + 1, to);
    } else {
      assert Expanded(series, of, from + 1, to + 1) == [];
    }
  }

  lemma NumericNotLettered(part: string)
    requires Numeric(part)
    ensures !Lettered(part)
  {
    assert IsDigit(part[|part| - 1]);
  }

  /** A run grows by the next number. */
  lemma RunGrows(series: string, r: Run, ref: PartRef)
    requires GoodRun(r) && WellFormed(ref) && Follows(r.last, ref)
    ensures GoodRun(Run(r.first, ref)) && RunRefs(series, Run(r.first, ref)) == RunRefs(series, r) + [PartRef(series, ref.part, ref.of)]
  {
    hide NumberText, Expanded, Value;
    NumericNotLettered(r.last.part);
    NumericNotLettered(ref.part);
    var low, high := Value(r.first.part), Value(r.last.part);
    ExpandedSnoc(series, r.first.of, low, high);
    if r.first.part == r.last.part {
      ExpandedOne(series, r.first.of, low);
    }
  }

  lemma ExpandedOne(series: string, of: nat, n: nat)
    ensures Expanded(series, of, n, n) == [PartRef(series, NumberText(n), of)]
  {
    hide NumberText;
    assert Expanded(series, of, n + 1, n) == [];
  }

  function Renamed(series: string, refs: seq<PartRef>): (r: seq<PartRef>)
    ensures |r| == |refs|
  {
    if refs == [] then [] else [PartRef(series, refs[0].part, refs[0].of)] + Renamed(series, refs[1..])
  }

  /** Expanding the runs gives the parts back. */
  lemma {:induction false} RunsExpand(series: string, open: Run, refs: seq<PartRef>)
    requires GoodRun(open) && forall r | r in refs :: WellFormed(r)
    ensures AllRunRefs(series, RunsFrom(open, refs)) == RunRefs(series, open) + Renamed(series, refs)
    ensures forall r | r in RunsFrom(open, refs) :: GoodRun(r)
    decreases |refs|
  {
    hide *;
    RunsStep(series, open, refs);
    if refs == [] {
      OneRun(series, open);
    } else {
      var ref, rest := refs[0], refs[1..];
      assert ref in refs && forall r | r in rest :: r in refs;
      assert refs == [ref] + rest;
      RenamedCons(series, ref, rest);
      if Follows(open.last, ref) {
        RunGrows(series, open, ref);
        RunsExpand(series, Run(open.first, ref), rest);
      } else {
        SinglePart(series, ref);
        RunsExpand(series, Run(ref, ref), rest);
      }
    }
  }

  /** One step of the run search, and what the runs it makes stand for. */
  lemma RunsStep(series: string, open: Run, refs: seq<PartRef>)
    ensures refs == [] ==> RunsFrom(open, refs) == [open]
    ensures refs != [] && Follows(open.last, refs[0]) ==> RunsFrom(open, refs) == RunsFrom(Run(open.first, refs[0]), refs[1..])
    ensures refs != [] && !Follows(open.last, refs[0]) ==>
              var later := RunsFrom(Run(refs[0], refs[0]), refs[1..]);
              RunsFrom(open, refs) == [open] + later && AllRunRefs(series, [open] + later) == RunRefs(series, open) + AllRunRefs(series, later)
  {
    hide RunRefs, Follows;
    if refs != [] {
      var later := RunsFrom(Run(refs[0], refs[0]), refs[1..]);
      assert ([open] + later)[1..] == later;
    }
  }

  lemma OneRun(series: string, open: Run)
    ensures AllRunRefs(series, [open]) == RunRefs(series, open) && Renamed(series, []) == []
  {
    hide RunRefs;
    assert [open][1..] == [];
  }

  lemma SinglePart(series: string, ref: PartRef)
    requires WellFormed(ref)
    ensures GoodRun(Run(ref, ref)) && RunRefs(series, Run(ref, ref)) == [PartRef(series, ref.part, ref.of)]
  {
    hide Value, NumberText;
    if Canonical(ref.part) {
      NumericNotLettered(ref.part);
    }
  }

  // ---------------------------------------------------------------- one piece

  lemma {:induction false} DigitsThen(digits: string, rest: string)
    requires (forall i | 0 <= i < |digits| :: IsDigit(digits[i])) && (rest != "" ==> !IsDigit(rest[0]))
    ensures LeadingDigits(digits + rest) == |digits|
  {
    if digits == "" {
      assert digits + rest == rest;
    } else {
      assert (digits + rest)[1..] == digits[1..] + rest;
      DigitsThen(digits[1..], rest);
    }
  }

  /** A part token is digits and at most one letter. */
  lemma TokenParts(part: string) returns (digits: string, letter: string)
    requires Canonical(part) || Lettered(part)
    ensures part == digits + letter && Numeric(digits) && (letter == "" || (|letter| == 1 && IsLetter(letter[0])))
    ensures Lower(part) == part
  {
    hide Value, NumberText;
    if Lettered(part) {
      digits, letter := part[..|part| - 1], part[|part| - 1..];
    } else {
      digits, letter := part, "";
      assert digits + letter == digits;
    }
    LowerToken(part);
  }

  lemma {:induction false} LowerToken(s: string)
    requires forall i | 0 <= i < |s| :: !('A' <= s[i] <= 'Z')
    ensures Lower(s) == s
  {
    if s != "" {
      LowerToken(s[1..]);
      assert s == [s[0]] + s[1..];
    }
  }

  lemma LastNumberText(ref: PartRef)
    requires Numeric(ref.part)
    ensures LastNumber(PartText(ref)) == Some(ref.part)
  {
    hide Value, NumberText;
    NumberTextRoundTrip(ref.of);
    var of := NumberText(ref.of);
    var s := PartText(ref);
    assert s == ref.part + ("/" + of);
    DigitsThen(ref.part, "/" + of);
    assert s[|ref.part| + 1..] == of + "";
    DigitsThen(of, "");
    assert s[..|ref.part|] == ref.part;
  }

  /** The ref pattern on a part's text followed by `rest`. */
  lemma MatchStart(ref: PartRef, rest: string)
    requires Canonical(ref.part) || Lettered(ref.part)
    requires rest == "" || rest[0] == EN_DASH
    ensures MatchRef(PartText(ref) + rest) == MatchRange(ref.part, NumberText(ref.of), rest)
  {
    hide *;
    var digits, letter := TokenParts(ref.part);
    NumberTextRoundTrip(ref.of);
    var of := NumberText(ref.of);
    TextOfPart(ref);
    assert PartText(ref) + rest == digits + letter + "/" + (of + rest);
    MatchSlash(digits, letter, of + rest);
    MatchOf(ref.part, of, rest);
  }

  lemma MatchSlash(digits: string, letter: string, t: string)
    requires Numeric(digits) && (letter == "" || (|letter| == 1 && IsLetter(letter[0])))
    ensures MatchRef(digits + letter + "/" + t) == MatchTotal(digits + letter, t)
  {
    hide *;
    var s, p := digits + letter + "/" + t, |digits| + |letter|;
    assert s == digits + (letter + "/" + t);
    NumericDigits(digits);
    LetterNoDigit(letter, t);
    DigitsThen(digits, letter + "/" + t);
    assert s[|digits|] == (letter + "/" + t)[0];
    assert s[p] == '/' && s[..p] == digits + letter && s[p + 1..] == t;
    MatchRefIs(s, p);
  }

  lemma NumericDigits(digits: string)
    requires Numeric(digits)
    ensures digits != "" && forall i | 0 <= i < |digits| :: IsDigit(digits[i])
  {
  }

  lemma LetterNoDigit(letter: string, t: string)
    requires letter == "" || (|letter| == 1 && IsLetter(letter[0]))
    ensures !IsDigit((letter + "/" + t)[0]) && (letter == "" <==> !IsLetter((letter + "/" + t)[0]))
  {
  }

  /** The pattern's start: digits, at most one letter, a slash at `p`. */
  lemma MatchRefIs(s: string, p: nat)
    requires 0 < LeadingDigits(s) < |s| && p < |s| && s[p] == '/'
    requires p == LeadingDigits(s) + if IsLetter(s[LeadingDigits(s)]) then 1 else 0
    ensures MatchRef(s) == MatchTotal(s[..p], s[p + 1..])
  {
    hide MatchTotal;
  }

  lemma TextOfPart(ref: PartRef)
    ensures PartText(ref) == ref.part + "/" + NumberText(ref.of)
  {
  }

  lemma MatchOf(start: string, of: string, rest: string)
    requires Numeric(of) && (rest == "" || rest[0] == EN_DASH)
    ensures MatchTotal(start, of + rest) == MatchRange(start, of, rest)
  {
    hide MatchRange;
    DigitsThen(of, rest);
    assert (of + rest)[..|of|] == of && (of + rest)[|of|..] == rest;
  }

  /** A range's second half, right behind the dash. */
  lemma MatchDash(start: string, of: string, last: string)
    requires last != "" && SpaceRun(last) == 0
    ensures MatchRange(start, of, [EN_DASH] + last) == if LastNumber(last).None? then NoMatch else RefMatch(start, of, LastNumber(last))
  {
    hide LastNumber;
    var rest := [EN_DASH] + last;
    DigitIsNoSpace(EN_DASH);
    assert SpaceRun(rest) == 0;
    assert rest[1..] == last && last[0..] == last;
  }

  /** A piece parses to its run's refs. */
  lemma PieceMatches(r: Run)
    requires GoodRun(r)
    ensures MatchRef(Piece(r)) == RefMatch(r.first.part, NumberText(r.first.of), if r.first.part == r.last.part then None else Some(r.last.part))
  {
    hide Value, NumberText, MatchRef, LastNumber, PartText;
    var text := PartText(r.first);
    if r.first.part == r.last.part {
      MatchStart(r.first, "");
      assert text + "" == text;
    } else {
      var last := PartText(r.last);
      var rest := [EN_DASH] + last;
      MatchStart(r.first, rest);
      assert text + rest == Piece(r);
      FirstDigit(r.last);
      LastNumberText(r.last);
      MatchDash(r.first.part, NumberText(r.first.of), last);
    }
  }

  lemma FirstDigit(ref: PartRef)
    requires Canonical(ref.part) || Lettered(ref.part)
    ensures PartText(ref) != "" && IsDigit(PartText(ref)[0]) && SpaceRun(PartText(ref)) == 0
  {
    hide Value, NumberText;
    var digits, letter := TokenParts(ref.part);
    assert PartText(ref)[0] == digits[0];
    DigitIsNoSpace(digits[0]);
  }

  lemma DigitIsNoSpace(c: char)
    ensures IsDigit(c) || IsLetter(c) || c == '/' || c == EN_DASH ==> !IsSpace(c) && c != ','
  {
  }

  /** Text a chunk can hold without being cut: no white space and no comma. */
  predicate Solid(s: string) {
    forall i | 0 <= i < |s| :: !IsSpace(s[i]) && s[i] != ','
  }

  lemma PartTextSolid(ref: PartRef)
    requires Canonical(ref.part) || Lettered(ref.part)
    ensures Solid(PartText(ref))
  {
    hide Value, NumberText;
    var digits, letter := TokenParts(ref.part);
    NumberTextRoundTrip(ref.of);
    var of := NumberText(ref.of);
    var s := PartText(ref);
    assert s == digits + letter + "/" + of;
    forall i | 0 <= i < |s| ensures !IsSpace(s[i]) && s[i] != ',' {
      DigitIsNoSpace(s[i]);
      if i < |digits| {
        assert s[i] == digits[i];
      } else if i < |digits| + |letter| {
        assert s[i] == letter[i - |digits|];
      } else if i > |digits| + |letter| {
        assert s[i] == of[i - |digits| - |letter| - 1];
      }
    }
  }

  lemma PieceSolid(r: Run)
    requires GoodRun(r)
    ensures Solid(Piece(r)) && Piece(r) != "" && IsDigit(Piece(r)[0])
  {
    hide Value, NumberText, PartText;
    PartTextSolid(r.first);
    PartTextSolid(r.last);
    FirstDigit(r.first);
    DigitIsNoSpace(EN_DASH);
  }

  lemma {:induction false} SolidNamed(s: string, i: nat)
    requires Solid(s) && i <= |s|
    ensures MatchNamed(s, i) == Named("", MatchRef(s))
    decreases |s| - i
  {
    hide MatchRef;
    if i < |s| {
      SolidNamed(s, i + 1);
    }
  }

  /** The series keyword, in any case. */
  predicate IsKeyword(k: string) {
    Lower(k) == "part" || Lower(k) == "parts"
  }

  /** A piece, bare or behind words that end in one space. */
  function Behind(words: string, piece: string): string {
    if words == "" then piece else words + " " + piece
  }

  /** A chunk that is a piece, bare or behind the keyword, gives the run's refs and names no series. */
  lemma PieceParses(r: Run, series: string, keyword: string)
    requires GoodRun(r) && series != "" && (keyword == "" || IsKeyword(keyword))
    ensures ParseRef(Behind(keyword, Piece(r)), Some(series)) == Parsed(RunRefs(series, r), None)
  {
    hide *;
    var piece := Piece(r);
    PieceSolid(r);
    PieceMatches(r);
    SolidNamed(piece, 0);
    PieceText(piece, keyword);
    NumberTextRoundTrip(r.first.of);
    RunRefsAre(r, series);
    var to_ := if r.first.part == r.last.part then None else Some(r.last.part);
    ResolvedBare(RefMatch(r.first.part, NumberText(r.first.of), to_), series);
    ParseRefIs(Behind(keyword, piece), Some(series));
  }

  lemma ParseRefIs(chunk: string, fallback: Option<string>)
    requires RefText(chunk) != ""
    ensures ParseRef(chunk, fallback) == Resolved(MatchNamed(RefText(chunk), 0), fallback)
  {
    hide Resolved, MatchNamed, RefText;
  }

  /** A match without a name takes the fallback series. */
  lemma ResolvedBare(m: RefMatch, series: string)
    requires m.RefMatch? && series != "" && Numeric(m.of) && Value(m.of) >= 1
    ensures Resolved(Named("", m), Some(series)) == Parsed(RefsFrom(series, Value(m.of), m.start, m.to), None)
  {
    hide Value, RefsFrom;
  }

  lemma RunRefsAre(r: Run, series: string)
    requires GoodRun(r)
    ensures r.first.of >= 1
    ensures RefsFrom(series, r.first.of, r.first.part, if r.first.part == r.last.part then None else Some(r.last.part)) == RunRefs(series, r)
  {
    hide Value, NumberText, Expanded;
    var digits, letter := TokenParts(r.first.part);
  }

  /** What is left of the chunk once it is trimmed and its keyword dropped. */
  lemma PieceText(piece: string, keyword: string)
    requires Solid(piece) && piece != "" && IsDigit(piece[0]) && (keyword == "" || IsKeyword(keyword))
    ensures RefText(Behind(keyword, piece)) == piece
  {
    hide Keyword, Trim, Solid;
    var chunk := Behind(keyword, piece);
    LastSolid(piece);
    DigitIsNoSpace(piece[0]);
    if keyword == "" {
      TrimVisibleEnds(chunk);
      DigitNoKeyword(piece);
      assert piece[0..] == piece;
    } else {
      KeywordThere(keyword, piece);
      assert chunk[|keyword| + 1..] == piece && chunk[|chunk| - 1] == piece[|piece| - 1] && chunk[0] == keyword[0];
      TrimVisibleEnds(chunk);
    }
  }

  lemma TrimVisibleEnds(s: string)
    requires s != "" && !IsSpace(s[0]) && !IsSpace(s[|s| - 1])
    ensures Trim(s) == s
  {
  }

  lemma DigitNoKeyword(piece: string)
    requires piece != "" && IsDigit(piece[0])
    ensures Keyword(piece) == 0
  {
    if |piece| >= 5 {
      assert Lower(piece[..5])[0] == LowerChar(piece[0]);
    }
    if |piece| >= 4 {
      assert Lower(piece[..4])[0] == LowerChar(piece[0]);
    }
  }

  lemma KeywordThere(keyword: string, piece: string)
    requires IsKeyword(keyword) && piece != "" && IsDigit(piece[0])
    ensures keyword != "" && !IsSpace(keyword[0]) && Keyword(keyword + " " + piece) == |keyword| + 1
  {
    hide Lower;
    var s, n := keyword + " " + piece, |keyword|;
    LowerLength(keyword);
    LowerAt(keyword, 0);
    SpaceIsNoLetter(keyword[0]);
    assert s[..n] == keyword && s[n] == ' ';
    if n == 4 {
      LowerAt(s[..5], 4);
      assert s[..5][4] == ' ';
    }
    DigitIsNoSpace(piece[0]);
    assert s[n..][0] == ' ' && s[n..][1..] == piece;
    assert SpaceRun(piece) == 0;
    assert SpaceRun(s[n..]) == 1;
  }

  // ---------------------------------------------------------------- the whole clause

  lemma {:induction false} SolidChunk(acc: string, piece: string, rest: string)
    requires Solid(piece)
    ensures Chunks(acc, piece + rest) == Chunks(acc + piece, rest)
    decreases |piece|
  {
    if piece == "" {
      assert piece + rest == rest && acc + piece == acc;
    } else {
      var s := piece + rest;
      assert s[1..] == piece[1..] + rest && s[0] == piece[0];
      assert Separator(s) == 0;
      SolidChunk(acc + [piece[0]], piece[1..], rest);
      assert acc + [piece[0]] + piece[1..] == acc + piece;
    }
  }

  lemma CommaCuts(acc: string, rest: string)
    requires rest != "" && !IsSpace(rest[0])
    ensures Chunks(acc, ", " + rest) == [acc] + Chunks("", rest)
  {
    var s := ", " + rest;
    assert SpaceRun(s) == 0;
    assert s[1..] == " " + rest && (" " + rest)[1..] == rest;
    assert SpaceRun(rest) == 0;
    assert SpaceRun(" " + rest) == 1;
    assert s[2..] == rest;
  }

  ghost predicate SolidPieces(pieces: seq<string>) {
    forall p | p in pieces :: Solid(p) && p != "" && IsDigit(p[0])
  }

  lemma {:induction false} ListChunks(acc: string, pieces: seq<string>)
    requires pieces != [] && SolidPieces(pieces)
    ensures Chunks(acc, Listed(pieces)) == [acc + pieces[0]] + pieces[1..]
    decreases |pieces|
  {
    hide Separator, Solid;
    var p, rest := pieces[0], pieces[1..];
    assert p in pieces && forall q | q in rest :: q in pieces;
    if rest == [] {
      SolidChunk(acc, p, "");
      assert p + "" == p;
      assert Chunks(acc + p, "") == [acc + p];
    } else {
      var later := Listed(rest);
      ListStart(rest);
      assert ", " + later == [',', ' '] + later;
      SolidChunk(acc, p, ", " + later);
      assert Listed(pieces) == p + (", " + later);
      CommaCuts(acc + p, later);
      ListChunks("", rest);
      assert "" + rest[0] == rest[0] && [rest[0]] + rest[1..] == rest;
    }
  }

  lemma ListStart(pieces: seq<string>)
    requires pieces != [] && SolidPieces(pieces)
    ensures Listed(pieces) != "" && !IsSpace(Listed(pieces)[0])
  {
    assert pieces[0] in pieces;
    DigitIsNoSpace(pieces[0][0]);
    assert Listed(pieces)[0] == pieces[0][0];
  }

  /** The keyword's space is no separator: a digit follows it. */
  lemma KeywordChunk(text: string)
    requires text != "" && IsDigit(text[0])
    ensures Chunks("", "parts " + text) == Chunks("parts ", text)
  {
    hide *;
    var s := " " + text;
    SpaceDigit(text);
    ChunkStep("parts", s);
    assert s[0] == ' ' && s[1..] == text && "parts" + [' '] == "parts ";
    KeywordSolid();
    SolidChunk("", "parts", s);
    assert "parts " + text == "parts" + s && "" + "parts" == "parts";
  }

  lemma KeywordSolid()
    ensures Solid("parts")
  {
  }

  lemma ChunkStep(acc: string, s: string)
    requires s != "" && Separator(s) == 0
    ensures Chunks(acc, s) == Chunks(acc + [s[0]], s[1..])
  {
    hide Separator;
  }

  lemma SpaceDigit(text: string)
    requires text != "" && IsDigit(text[0])
    ensures Separator(" " + text) == 0
  {
    var s := " " + text;
    DigitIsNoSpace(text[0]);
    assert s[1..] == text;
    assert SpaceRun(text) == 0;
    assert SpaceRun(s) == 1;
    if |s| >= 4 {
      assert Lower(s[1..4])[0] == LowerChar(text[0]);
    }
  }

  lemma {:induction false} PiecesAre(runs: seq<Run>)
    requires forall r | r in runs :: GoodRun(r)
    ensures SolidPieces(Pieces(runs))
  {
    hide GoodRun, Piece, Solid;
    if runs != [] {
      assert runs[0] in runs && forall r | r in runs[1..] :: r in runs;
      PieceSolid(runs[0]);
      PiecesAre(runs[1..]);
    }
  }

  /** Later chunks are bare pieces. */
  lemma {:induction false} BareRefs(runs: seq<Run>, series: string)
    requires series != "" && forall r | r in runs :: GoodRun(r)
    ensures RefsOf(Pieces(runs), None, Some(series)) == AllRunRefs(series, runs)
  {
    hide GoodRun, Piece, ParseRef, RunRefs;
    if runs != [] {
      assert runs[0] in runs && forall r | r in runs[1..] :: r in runs;
      PieceParses(runs[0], series, "");
      BareRefs(runs[1..], series);
      assert Pieces(runs)[1..] == Pieces(runs[1..]);
    }
  }

  lemma KeywordRefs(runs: seq<Run>, series: string)
    requires runs != [] && series != "" && forall r | r in runs :: GoodRun(r)
    ensures RefsOf(["parts " + Pieces(runs)[0]] + Pieces(runs)[1..], None, Some(series)) == AllRunRefs(series, runs)
  {
    hide GoodRun, Piece, ParseRef, RunRefs;
    assert runs[0] in runs && forall r | r in runs[1..] :: r in runs;
    LowerToken("parts");
    assert "parts" + " " + Pieces(runs)[0] == "parts " + Pieces(runs)[0];
    PieceParses(runs[0], series, "parts");
    BareRefs(runs[1..], series);
    assert Pieces(runs)[1..] == Pieces(runs[1..]);
    var chunks := ["parts " + Pieces(runs)[0]] + Pieces(runs)[1..];
    assert chunks[1..] == Pieces(runs[1..]);
  }

  /** The printer and the parser undo each other: for parts without leading zeros and with totals, the
      printed label read as a bare `parts` clause of the series is the same parts in the same order. */
  lemma LabelRoundTrip(refs: seq<PartRef>, series: string)
    requires refs != [] && series != "" && forall r | r in refs :: WellFormed(r)
    ensures RefsOf(Chunks("", "parts " + Label(refs)), None, Some(series)) == Renamed(series, refs)
  {
    hide *;
    var first, rest := refs[0], refs[1..];
    assert refs == [first] + rest && first in refs && forall r | r in rest :: r in refs;
    SinglePart(series, first);
    RunsExpand(series, Run(first, first), rest);
    LabelIs(refs);
    var runs := RunsFrom(Run(first, first), rest);
    RunsNotEmpty(Run(first, first), rest);
    var pieces := Pieces(runs);
    PiecesAre(runs);
    ListDigit(pieces);
    KeywordChunk(Label(refs));
    ListChunks("parts ", pieces);
    KeywordRefs(runs, series);
    RenamedCons(series, first, rest);
  }

  lemma LabelIs(refs: seq<PartRef>)
    requires refs != []
    ensures Label(refs) == Listed(Pieces(RunsFrom(Run(refs[0], refs[0]), refs[1..])))
  {
    hide Listed, Pieces, RunsFrom;
  }

  lemma {:induction false} RunsNotEmpty(open: Run, refs: seq<PartRef>)
    ensures RunsFrom(open, refs) != []
    decreases |refs|
  {
    hide Follows;
    if refs != [] && Follows(open.last, refs[0]) {
      RunsNotEmpty(Run(open.first, refs[0]), refs[1..]);
    }
  }

  lemma ListDigit(pieces: seq<string>)
    requires pieces != [] && SolidPieces(pieces)
    ensures Listed(pieces) != "" && IsDigit(Listed(pieces)[0])
  {
    assert pieces[0] in pieces;
    assert Listed(pieces)[0] == pieces[0][0];
  }

  lemma RenamedCons(series: string, first: PartRef, rest: seq<PartRef>)
    ensures Renamed(series, [first] + rest) == [PartRef(series, first.part, first.of)] + Renamed(series, rest)
  {
    assert ([first] + rest)[1..] == rest;
  }

  // ---------------------------------------------------------------- clauses of several named series

  /** A clause's chunk: a run of parts, bare or behind its series' name, the keyword or both, and the
      separator before it. */
  datatype Item = Item(series: Option<string>, keyword: string, run: Run, anded: bool)

  /** Words one space apart, the later ones no number and no `and`, none with a comma. */
  predicate Phrase(s: string) {
    && s != "" && !IsSpace(s[0]) && !IsSpace(s[|s| - 1]) && ',' !in s
    && forall i | 0 < i < |s| - 1 && IsSpace(s[i]) :: !IsSpace(s[i + 1]) && !IsDigit(s[i + 1]) && !IsWord(s, i + 1, "and")
  }

  /** A name a chunk can carry: words of which the first and the last one are no `part` or `parts`. */
  predicate SeriesName(s: string) {
    && Phrase(s) && !IsWord(s, 0, "part") && !IsWord(s, 0, "parts")
    && !(|s| > 4 && IsSpace(s[|s| - 5]) && Lower(s[|s| - 4..]) == "part") && !(|s| > 5 && IsSpace(s[|s| - 6]) && Lower(s[|s| - 5..]) == "parts")
  }

  /** The word `w`, in any case, stands in `s` from `i` to the next space or the end. */
  predicate IsWord(s: string, i: nat, w: string) {
    i + |w| <= |s| && Lower(s[i..i + |w|]) == w && (i + |w| == |s| || IsSpace(s[i + |w|]))
  }

  predicate GoodItem(it: Item) {
    && GoodRun(it.run) && (it.series.Some? ==> SeriesName(it.series.value))
    && (it.keyword == "" || IsKeyword(it.keyword))
  }

  /** What stands before the run: `Base`, `parts`, `Base parts` or nothing. */
  function WordsOf(it: Item): string {
    if it.series.None? then it.keyword else NameAndKeyword(it.series.value, it.keyword)
  }

  function NameAndKeyword(series: string, keyword: string): string {
    if keyword == "" then series else series + " " + keyword
  }

  function ItemText(it: Item): string {
    Behind(WordsOf(it), Piece(it.run))
  }

  function MoreText(items: seq<Item>): string {
    if items == [] then "" else (if items[0].anded then " and " else ", ") + ItemText(items[0]) + MoreText(items[1..])
  }

  /** `A 1/3–2/3, 3/3 and B 1/2`. */
  function ClauseText(items: seq<Item>): string {
    if items == [] then "" else ItemText(items[0]) + MoreText(items[1..])
  }

  function ItemTexts(items: seq<Item>): seq<string> {
    if items == [] then [] else [ItemText(items[0])] + ItemTexts(items[1..])
  }

  /** What the clause asks for: each run of the series last named, before that of the heading's own. */
  function ItemRefs(items: seq<Item>, current: Option<string>): seq<PartRef> {
    if items == [] then []
    else
      var series := if items[0].series.Some? then items[0].series else current;
      (if series.None? then [] else RunRefs(series.value, items[0].run)) + ItemRefs(items[1..], series)
  }

  lemma NoMatchAt(s: string)
    requires s != "" && !IsDigit(s[0])
    ensures MatchRef(s) == NoMatch
  {
  }

  lemma OneSpace(s: string, i: nat)
    requires i + 1 < |s| && IsSpace(s[i]) && !IsSpace(s[i + 1])
    ensures SpaceRun(s[i..]) == 1
  {
    assert s[i..][1..] == s[i + 1..];
    assert SpaceRun(s[i + 1..]) == 0;
  }

  lemma NamedHere(s: string, i: nat)
    requires 0 < i < |s| - 1 && IsSpace(s[i]) && !IsSpace(s[i + 1]) && MatchRef(s[i + 1..]) != NoMatch
    ensures MatchNamed(s, i) == Named(s[..i], MatchRef(s[i + 1..]))
  {
    hide MatchRef, SpaceRun;
    OneSpace(s, i);
  }

  lemma NamedOn(s: string, i: nat)
    requires i < |s| && (i == 0 || !IsSpace(s[i]) || (i + 1 < |s| && !IsSpace(s[i + 1]) && MatchRef(s[i + 1..]) == NoMatch))
    ensures MatchNamed(s, i) == MatchNamed(s, i + 1)
  {
    hide MatchRef, SpaceRun;
    if i > 0 && IsSpace(s[i]) {
      OneSpace(s, i);
    }
  }

  lemma {:induction false} NamedMatch(words: string, piece: string, i: nat)
    requires Phrase(words) && Solid(piece) && piece != "" && IsDigit(piece[0]) && MatchRef(piece) != NoMatch && i <= |words|
    ensures MatchNamed(words + " " + piece, i) == Named(words, MatchRef(piece))
    decreases |words| - i
  {
    hide MatchRef, IsWord, Solid, MatchNamed, SpaceRun, Lower;
    var s := words + " " + piece;
    DigitIsNoSpace(piece[0]);
    if i == |words| {
      assert s[i + 1..] == piece && s[..i] == words && s[i + 1] == piece[0];
      NamedHere(s, i);
    } else {
      assert s[i] == words[i];
      if i > 0 && IsSpace(s[i]) {
        assert s[i + 1] == words[i + 1] && s[i + 1..][0] == s[i + 1];
        NoMatchAt(s[i + 1..]);
      }
      NamedOn(s, i);
      NamedMatch(words, piece, i + 1);
    }
  }

  lemma NamedText(series: string, more: string)
    requires SeriesName(series) && more != "" && IsSpace(more[0]) && !IsSpace(more[|more| - 1])
    ensures RefText(series + more) == series + more
  {
    hide SeriesName, Keyword, Trim;
    var s := series + more;
    NameEnds(series);
    assert s[|s| - 1] == more[|more| - 1] && s[0] == series[0];
    TrimVisibleEnds(s);
    NoKeyword(series, more);
    assert s[0..] == s;
  }

  /** The keyword behind a name belongs to no name; both together are words like any. */
  lemma NameKeyword(series: string, keyword: string)
    requires SeriesName(series) && (keyword == "" || IsKeyword(keyword))
    ensures Phrase(NameAndKeyword(series, keyword)) && DropKeyword(Trim(NameAndKeyword(series, keyword))) == series
  {
    hide *;
    if keyword == "" {
      NameKept(series);
      NamePhrase(series);
      NoKeywordName(series);
    } else {
      KeywordFacts(keyword);
      NameEnds(series);
      NamePhrase(series);
      PhraseGrows(series, keyword);
      var s := series + " " + keyword;
      assert s[0] == series[0] && s[|s| - 1] == keyword[|keyword| - 1];
      TrimVisibleEnds(s);
      KeywordDropped(series, keyword);
      KeywordName(series, keyword);
    }
  }

  lemma NoKeywordName(series: string)
    ensures NameAndKeyword(series, "") == series
  {
  }

  lemma KeywordName(series: string, keyword: string)
    requires keyword != ""
    ensures NameAndKeyword(series, keyword) == series + " " + keyword
  {
  }

  lemma NamePhrase(series: string)
    requires SeriesName(series)
    ensures Phrase(series)
  {
    hide IsWord, Phrase;
  }

  lemma KeywordFacts(keyword: string)
    requires IsKeyword(keyword)
    ensures |keyword| == 4 || |keyword| == 5
    ensures forall i | 0 <= i < |keyword| :: !IsSpace(keyword[i]) && !IsDigit(keyword[i]) && keyword[i] != ','
    ensures LowerChar(keyword[0]) == 'p'
  {
    hide Lower;
    LowerLength(keyword);
    forall i | 0 <= i < |keyword| ensures !IsSpace(keyword[i]) && !IsDigit(keyword[i]) && keyword[i] != ',' && (i == 0 ==> LowerChar(keyword[i]) == 'p') {
      LowerAt(keyword, i);
      SpaceIsNoLetter(keyword[i]);
    }
  }

  lemma PhraseGrows(series: string, keyword: string)
    requires Phrase(series) && IsKeyword(keyword)
    ensures Phrase(series + " " + keyword)
  {
    hide IsWord, IsKeyword;
    var s, n := series + " " + keyword, |series|;
    KeywordFacts(keyword);
    assert s[0] == series[0] && s[|s| - 1] == keyword[|keyword| - 1];
    forall i | 0 <= i < |s| ensures s[i] != ',' {
      assert i < n ==> s[i] == series[i] && series[i] in series;
      assert i > n ==> s[i] == keyword[i - n - 1];
    }
    assert forall j | n < j < |s| :: s[j] == keyword[j - n - 1] && !IsSpace(s[j]);
    forall i | 0 < i < |s| - 1 && IsSpace(s[i]) ensures !IsSpace(s[i + 1]) && !IsDigit(s[i + 1]) && !IsWord(s, i + 1, "and") {
      if i == n {
        assert s[i + 1] == keyword[0];
        FirstLetter(s, i + 1);
      } else {
        assert s[i] == series[i];
        assert s[i + 1] == if i + 1 < n then series[i + 1] else ' ';
        AndInside(series, " " + keyword, i + 1);
        assert series + (" " + keyword) == s;
      }
    }
  }

  lemma FirstLetter(s: string, i: nat)
    requires i < |s| && LowerChar(s[i]) == 'p'
    ensures !IsWord(s, i, "and")
  {
    if i + 3 <= |s| {
      LowerAt(s[i..i + 3], 0);
    }
  }

  /** A word of a phrase is the same word in a longer one. */
  lemma AndInside(series: string, more: string, i: nat)
    requires i < |series| && more != "" && more[0] == ' ' && !IsWord(series, i, "and")
    ensures !IsWord(series + more, i, "and")
  {
    var s := series + more;
    if i + 3 <= |series| {
      assert s[i..i + 3] == series[i..i + 3];
      assert i + 3 < |series| ==> s[i + 3] == series[i + 3];
    } else if i + 3 <= |s| {
      var j := |series| - i;
      assert s[i..i + 3][j] == s[|series|] == ' ';
      LowerAt(s[i..i + 3], j);
      SpaceIsNoLetter(' ');
      assert Lower(s[i..i + 3])[j] == ' ' && "and"[j] != ' ';
    }
  }

  lemma KeywordDropped(series: string, keyword: string)
    requires IsKeyword(keyword) && series != "" && !IsSpace(series[|series| - 1])
    ensures DropKeyword(series + " " + keyword) == series
  {
    hide Lower, TrimEnd;
    var s, n := series + " " + keyword, |series|;
    LowerLength(keyword);
    assert s[n + 1..] == keyword && s[n] == ' ';
    assert s[..|s| - |keyword|] == series + " ";
    SpaceTrimmed(series);
    if |keyword| == 4 {
      LowerAt(s[|s| - 5..], 0);
      assert s[|s| - 5..][0] == ' ';
      SpaceIsNoLetter(' ');
    }
  }

  lemma SpaceTrimmed(series: string)
    requires series != "" && !IsSpace(series[|series| - 1])
    ensures TrimEnd(series + " ") == series
  {
    assert (series + " ")[..|series|] == series;
  }

  lemma NameEnds(series: string)
    requires SeriesName(series)
    ensures series != "" && !IsSpace(series[0]) && !IsSpace(series[|series| - 1])
  {
    hide IsWord;
  }

  lemma NameKept(series: string)
    requires SeriesName(series)
    ensures DropKeyword(Trim(series)) == series
  {
    hide IsWord, Lower, Trim;
    TrimVisibleEnds(series);
  }

  lemma LastSolid(piece: string)
    requires Solid(piece) && piece != ""
    ensures !IsSpace(piece[|piece| - 1])
  {
  }

  lemma NoKeyword(series: string, more: string)
    requires SeriesName(series) && more != "" && IsSpace(more[0])
    ensures Keyword(series + more) == 0
  {
    var s := series + more;
    KeywordCase(series, more, "part");
    KeywordCase(series, more, "parts");
  }

  /** A keyword in front of a space would be the name's first word. */
  lemma KeywordCase(series: string, more: string, w: string)
    requires SeriesName(series) && more != "" && IsSpace(more[0]) && w in {"part", "parts"}
    ensures var s := series + more; |s| >= |w| && Lower(s[..|w|]) == w ==> SpaceRun(s[|w|..]) == 0
  {
    var s := series + more;
    if |s| >= |w| {
      if |series| < |w| {
        LowerAt(s[..|w|], |series|);
        assert s[..|w|][|series|] == more[0];
        SpaceIsNoLetter(more[0]);
        assert Lower(s[..|w|])[|series|] != w[|series|];
      } else {
        assert s[..|w|] == series[0..0 + |w|];
        assert |series| > |w| ==> s[|w|..][0] == series[|w|];
      }
    }
  }

  lemma {:induction false} LowerAt(s: string, i: nat)
    requires i < |s|
    ensures |Lower(s)| == |s| && Lower(s)[i] == LowerChar(s[i])
    decreases |s|
  {
    LowerLength(s);
    if i > 0 {
      LowerAt(s[1..], i - 1);
    }
  }

  lemma {:induction false} LowerLength(s: string)
    ensures |Lower(s)| == |s|
  {
    if s != "" {
      LowerLength(s[1..]);
    }
  }

  lemma SpaceIsNoLetter(c: char)
    ensures IsSpace(c) ==> LowerChar(c) == c && c !in "partsand,"
  {
  }

  /** A named piece gives that series' parts, whatever the series before it, with or without the keyword. */
  lemma NamedParses(r: Run, series: string, keyword: string, fallback: Option<string>)
    requires GoodRun(r) && SeriesName(series) && (keyword == "" || IsKeyword(keyword))
    ensures ParseRef(NameAndKeyword(series, keyword) + " " + Piece(r), fallback) == Parsed(RunRefs(series, r), Some(series))
  {
    hide *;
    var piece, words := Piece(r), NameAndKeyword(series, keyword);
    PieceSolid(r);
    PieceMatches(r);
    NameKeyword(series, keyword);
    NamedMatch(words, piece, 0);
    WordsText(series, keyword, piece);
    NumberTextRoundTrip(r.first.of);
    RunRefsAre(r, series);
    var to_ := if r.first.part == r.last.part then None else Some(r.last.part);
    NameNotEmpty(series);
    ResolvedNamed(series, words, RefMatch(r.first.part, NumberText(r.first.of), to_), fallback);
    ParseRefIs(words + " " + piece, fallback);
  }

  lemma WordsText(series: string, keyword: string, piece: string)
    requires SeriesName(series) && Solid(piece) && piece != ""
    ensures RefText(NameAndKeyword(series, keyword) + " " + piece) == NameAndKeyword(series, keyword) + " " + piece
  {
    hide SeriesName, RefText, Solid;
    LastSolid(piece);
    var more := (if keyword == "" then "" else " " + keyword) + " " + piece;
    assert more[|more| - 1] == piece[|piece| - 1];
    assert NameAndKeyword(series, keyword) + " " + piece == series + more;
    NamedText(series, more);
  }

  lemma NameNotEmpty(series: string)
    requires SeriesName(series)
    ensures series != ""
  {
  }

  lemma ResolvedNamed(series: string, words: string, m: RefMatch, fallback: Option<string>)
    requires m.RefMatch? && series != "" && DropKeyword(Trim(words)) == series && Numeric(m.of) && Value(m.of) >= 1
    ensures Resolved(Named(words, m), fallback) == Parsed(RefsFrom(series, Value(m.of), m.start, m.to), Some(series))
  {
    hide Value, RefsFrom, DropKeyword, Trim;
  }

  /** A bare piece names nothing; without a series before it, it asks for nothing. */
  lemma BareParses(r: Run, keyword: string, fallback: Option<string>)
    requires GoodRun(r) && (keyword == "" || IsKeyword(keyword))
    ensures ParseRef(Behind(keyword, Piece(r)), fallback) == Parsed(if NotEmpty(fallback).None? then [] else RunRefs(fallback.value, r), None)
  {
    hide *;
    NotEmptyIs(fallback);
    if fallback.Some? && fallback.value != "" {
      PieceParses(r, fallback.value, keyword);
    } else {
      PieceSolid(r);
      PieceMatches(r);
      SolidNamed(Piece(r), 0);
      PieceText(Piece(r), keyword);
      NoSeries(MatchRef(Piece(r)), fallback);
      ParseRefIs(Behind(keyword, Piece(r)), fallback);
    }
  }

  /** An empty series is none. */
  function NotEmpty(series: Option<string>): Option<string> {
    if series == Some("") then None else series
  }

  lemma NotEmptyIs(series: Option<string>)
    ensures NotEmpty(series) == if series.Some? && series.value != "" then series else None
  {
  }

  lemma NoSeries(m: RefMatch, fallback: Option<string>)
    requires fallback.None? || fallback.value == ""
    ensures Resolved(Named("", m), fallback) == Parsed([], None)
  {
  }

  // ---------------------------------------------------------------- cutting the clause

  /** What stands before a run is words, or nothing. */
  lemma WordsArePhrase(it: Item)
    requires GoodItem(it)
    ensures WordsOf(it) != "" ==> Phrase(WordsOf(it))
    ensures Solid(Piece(it.run)) && Piece(it.run) != "" && IsDigit(Piece(it.run)[0])
    ensures ItemText(it) == Behind(WordsOf(it), Piece(it.run))
  {
    hide GoodRun, Piece, IsWord, SeriesName, Phrase, NameAndKeyword, Behind;
    PieceSolid(it.run);
    if it.series.Some? {
      NameKeyword(it.series.value, it.keyword);
    } else if it.keyword != "" {
      KeywordPhrase(it.keyword);
    }
  }

  lemma KeywordPhrase(keyword: string)
    requires IsKeyword(keyword)
    ensures Phrase(keyword)
  {
    hide IsWord, IsKeyword;
    KeywordFacts(keyword);
  }

  /** No place inside a chunk's text is a separator. */
  lemma InsideChunk(it: Item, i: nat, rest: string)
    requires GoodItem(it) && i < |ItemText(it)|
    ensures Separator(ItemText(it)[i..] + rest) == 0
  {
    hide GoodItem, ItemText, WordsOf, Piece, Phrase, Solid;
    WordsArePhrase(it);
    var words, piece := WordsOf(it), Piece(it.run);
    var s, text := ItemText(it)[i..] + rest, ItemText(it);
    assert s[0] == text[i];
    if words != "" && i <= |words| && IsSpace(text[i]) {
      InsideName(words, piece, i, rest);
    } else {
      VisibleInside(words, piece, i);
      assert SpaceRun(s) == 0;
    }
  }

  lemma VisibleInside(words: string, piece: string, i: nat)
    requires (words != "" ==> Phrase(words)) && Solid(piece) && i < |Behind(words, piece)|
    requires !(words != "" && i <= |words| && IsSpace(Behind(words, piece)[i]))
    ensures !IsSpace(Behind(words, piece)[i]) && Behind(words, piece)[i] != ','
  {
    hide IsWord;
    var text := Behind(words, piece);
    if words != "" {
      if i < |words| {
        assert text[i] == words[i] && words[i] in words;
      } else if i > |words| {
        assert text[i] == piece[i - |words| - 1];
      }
    }
  }

  lemma InsideName(words: string, piece: string, i: nat, rest: string)
    requires Phrase(words) && Solid(piece) && piece != "" && IsDigit(piece[0]) && i <= |words|
    requires IsSpace((words + " " + piece)[i])
    ensures Separator((words + " " + piece)[i..] + rest) == 0
  {
    hide IsWord;
    var text := words + " " + piece;
    var s := text[i..] + rest;
    DigitIsNoSpace(piece[0]);
    assert s[0] == text[i] && s[1] == text[i + 1];
    if i < |words| {
      assert text[i] == words[i] && 0 < i < |words| - 1 && text[i + 1] == words[i + 1];
      assert words[i + 1] in words;
    } else {
      assert text[i + 1] == piece[0];
    }
    assert s[1..][0] == s[1];
    assert SpaceRun(s[1..]) == 0;
    assert SpaceRun(s) == 1;
    if 4 < |s| {
      NoAnd(words, piece, i, s);
    }
  }

  /** The word behind a space inside a chunk is no `and`. */
  lemma NoAnd(words: string, piece: string, i: nat, s: string)
    requires Phrase(words) && piece != "" && IsDigit(piece[0]) && i <= |words| && 4 < |s| && IsSpace((words + " " + piece)[i])
    requires (words + " " + piece)[i..] <= s
    ensures !(Lower(s[1..4]) == "and" && IsSpace(s[4]))
  {
    var text := words + " " + piece;
    assert forall k | 0 <= k < |text| - i :: s[k] == text[i..][k] == text[i + k];
    SpaceIsNoLetter(' ');
    if i == |words| {
      LowerAt(s[1..4], 0);
      assert s[1] == text[i + 1] == piece[0];
    } else if i + 4 <= |words| {
      assert s[1] == words[i + 1] && s[2] == words[i + 2] && s[3] == words[i + 3];
      assert s[1..4] == words[i + 1..i + 4];
      assert s[4] == text[i + 4];
      assert i + 4 < |words| ==> s[4] == words[i + 4];
      assert words[i] == text[i] && !IsWord(words, i + 1, "and");
    } else {
      var j := |words| - i - 1;
      assert s[1..4][j] == text[|words|] == ' ';
      LowerAt(s[1..4], j);
      assert Lower(s[1..4])[j] == ' ' && "and"[j] != ' ';
    }
  }

  lemma {:induction false} ChunkRuns(acc: string, it: Item, i: nat, rest: string)
    requires GoodItem(it) && i <= |ItemText(it)|
    ensures Chunks(acc, ItemText(it)[i..] + rest) == Chunks(acc + ItemText(it)[i..], rest)
    decreases |ItemText(it)| - i
  {
    hide *;
    var text := ItemText(it);
    OneFurther(acc, text, i, rest);
    if i < |text| {
      InsideChunk(it, i, rest);
      ChunkStep(acc, text[i..] + rest);
      ChunkRuns(acc + [text[i]], it, i + 1, rest);
    }
  }

  lemma OneFurther(acc: string, text: string, i: nat, rest: string)
    requires i <= |text|
    ensures i == |text| ==> text[i..] + rest == rest && acc + text[i..] == acc
    ensures i < |text| ==> text[i..] + rest != "" && (text[i..] + rest)[1..] == text[i + 1..] + rest && (text[i..] + rest)[0] == text[i]
    ensures i < |text| ==> acc + [text[i]] + text[i + 1..] == acc + text[i..]
  {
  }

  lemma AndCuts(acc: string, rest: string)
    requires rest != "" && !IsSpace(rest[0])
    ensures Chunks(acc, " and " + rest) == [acc] + Chunks("", rest)
  {
    hide Chunks;
    var s := " and " + rest;
    AndSeparates(rest);
    assert s[5..] == rest;
    CutStep(acc, s);
  }

  lemma CutStep(acc: string, s: string)
    requires s != "" && Separator(s) > 0
    ensures Chunks(acc, s) == [acc] + Chunks("", s[Separator(s)..])
  {
    hide Separator;
  }

  lemma AndSeparates(rest: string)
    requires rest != "" && !IsSpace(rest[0])
    ensures Separator(" and " + rest) == 5
  {
    var s := " and " + rest;
    assert s[1] == 'a' && SpaceRun(s[1..]) == 0;
    assert SpaceRun(s) == 1;
    assert s[1..4] == "and";
    LowerToken("and");
    assert s[4..] == " " + rest && (" " + rest)[1..] == rest;
    assert SpaceRun(rest) == 0;
    assert SpaceRun(s[4..]) == 1;
  }

  lemma ItemStarts(it: Item)
    requires GoodItem(it)
    ensures ItemText(it) != "" && !IsSpace(ItemText(it)[0])
  {
    hide GoodItem, ItemText, WordsOf, Piece, IsWord;
    WordsArePhrase(it);
    DigitIsNoSpace(Piece(it.run)[0]);
  }

  lemma {:induction false} ClauseChunks(it: Item, more: seq<Item>)
    requires GoodItem(it) && forall x | x in more :: GoodItem(x)
    ensures Chunks("", ItemText(it) + MoreText(more)) == [ItemText(it)] + ItemTexts(more)
    decreases |more|
  {
    hide GoodItem, ItemText, Chunks;
    var text := ItemText(it);
    ChunkRuns("", it, 0, MoreText(more));
    assert text[0..] == text && "" + text == text;
    if more == [] {
      LastChunk(text);
      assert text + "" == text;
    } else {
      var next, rest := more[0], more[1..];
      assert next in more && forall x | x in rest :: x in more;
      ItemStarts(next);
      var later := ItemText(next) + MoreText(rest);
      assert later[0] == ItemText(next)[0];
      if next.anded {
        assert MoreText(more) == " and " + later;
        AndCuts(text, later);
      } else {
        assert MoreText(more) == ", " + later;
        CommaCuts(text, later);
      }
      ClauseChunks(next, rest);
    }
  }

  lemma LastChunk(acc: string)
    ensures Chunks(acc, "") == [acc]
  {
  }

  lemma {:induction false} ItemsParse(items: seq<Item>, lastNamed: Option<string>, own: Option<string>)
    requires (forall x | x in items :: GoodItem(x)) && lastNamed != Some("")
    ensures RefsOf(ItemTexts(items), lastNamed, own) == ItemRefs(items, NotEmpty(if lastNamed.Some? then lastNamed else own))
    decreases |items|
  {
    hide GoodRun, Piece, ParseRef, RunRefs, SeriesName;
    if items != [] {
      var it, rest := items[0], items[1..];
      assert it in items && forall x | x in rest :: x in items;
      var current := if lastNamed.Some? then lastNamed else own;
      assert ItemTexts(items)[1..] == ItemTexts(rest);
      if it.series.Some? {
        NamedParses(it.run, it.series.value, it.keyword, current);
        NameNotEmpty(it.series.value);
        ItemsParse(rest, it.series, own);
      } else {
        BareParses(it.run, it.keyword, current);
        ItemsParse(rest, lastNamed, own);
      }
    }
  }

  /** A clause over several series is read as written: a named run asks for that series' parts, whatever
      the heading's own series, a bare one for those of the series last named, and `, ` and ` and `
      separate alike. */
  lemma ClauseRoundTrip(items: seq<Item>, own: Option<string>)
    requires items != [] && forall x | x in items :: GoodItem(x)
    ensures RefsOf(Chunks("", ClauseText(items)), None, own) == ItemRefs(items, NotEmpty(own))
  {
    hide *;
    var it, more := items[0], items[1..];
    assert it in items && forall x | x in more :: x in items;
    ClauseChunks(it, more);
    ClauseTextIs(items);
    ItemsParse(items, None, own);
  }

  /** The name by which reports and holds call a part asks, as a clause of any heading, for that part. */
  lemma NameReads(ref: PartRef, own: Option<string>)
    requires WellFormed(ref) && SeriesName(ref.series)
    ensures RefsOf(Chunks("", Name(ref)), None, own) == [ref]
  {
    hide *;
    var items := [Item(Some(ref.series), "", Run(ref, ref), false)];
    SinglePart(ref.series, ref);
    NameIsClause(ref);
    ClauseRoundTrip(items, own);
    OneItem(items[0], NotEmpty(own));
    assert PartRef(ref.series, ref.part, ref.of) == ref;
  }

  lemma NameIsClause(ref: PartRef)
    requires GoodRun(Run(ref, ref)) && SeriesName(ref.series)
    ensures var it := Item(Some(ref.series), "", Run(ref, ref), false); GoodItem(it) && ClauseText([it]) == Name(ref)
  {
    hide SeriesName, GoodRun, NumberText;
    var it := Item(Some(ref.series), "", Run(ref, ref), false);
    NameNotEmpty(ref.series);
    assert [it][1..] == [];
    assert Piece(it.run) == ref.part + "/" + NumberText(ref.of);
    assert ItemText(it) == ref.series + " " + (ref.part + "/" + NumberText(ref.of));
    assert ClauseText([it]) == ItemText(it) + "" == ItemText(it);
    assert ref.series + " " + (ref.part + "/" + NumberText(ref.of)) == ref.series + " " + ref.part + "/" + NumberText(ref.of);
  }

  lemma OneItem(it: Item, current: Option<string>)
    requires it.series.Some?
    ensures ItemRefs([it], current) == RunRefs(it.series.value, it.run)
  {
    hide RunRefs;
    assert [it][1..] == [];
  }

  lemma ClauseTextIs(items: seq<Item>)
    requires items != []
    ensures ClauseText(items) == ItemText(items[0]) + MoreText(items[1..]) && ItemTexts(items) == [ItemText(items[0])] + ItemTexts(items[1..])
  {
    hide ItemText;
  }
}
