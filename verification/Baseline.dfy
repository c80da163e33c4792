/** The team-shared verdict cache of main's suite (src/baseline/main-baseline.ts over `memoSetLru` of
    src/collections.ts). Each method is one step between two awaits; a run of the team is any
    interleaving of steps. */
module Baseline {
  import opened Wrappers

  type Sha = string
  type Worktree = string

  datatype Status = Green | Red

  datatype Verdict = Verdict(status: Status, checkedAt: Option<int>, failingTests: seq<string>, redFrom: seq<Worktree>, inheritedFrom: Option<Sha>) {
    predicate Observed() {
      inheritedFrom == None
    }
  }

  function GreenVerdict(checkedAt: Option<int>): Verdict {
    Verdict(Green, checkedAt, [], [], None)
  }

  function InheritedVerdict(from: Sha): Verdict {
    Verdict(Green, None, [], [], Some(from))
  }

  const BASELINE_CACHE_MAX := 256
  const INHERIT_WALK_MAX := 64

  // ---------------------------------------------------------------- memoSetLru

  /** A bounded memo: the keys oldest first, and their values. */
  datatype Memo<K(!new, ==), V> = Memo(order: seq<K>, at: map<K, V>) {
    ghost predicate Valid(max: nat) {
      && (forall k :: k in order <==> k in at)
      && (forall i, j | 0 <= i < j < |order| :: order[i] != order[j])
      && |order| <= max
    }
  }

  function Dropped<K(==)>(order: seq<K>, key: K): seq<K> {
    if order == [] then [] else (if order[0] == key then [] else [order[0]]) + Dropped(order[1..], key)
  }

  lemma {:induction false} DroppedIs<K>(order: seq<K>, key: K)
    requires forall i, j | 0 <= i < j < |order| :: order[i] != order[j]
    ensures forall k :: k in Dropped(order, key) <==> k in order && k != key
    ensures forall i, j | 0 <= i < j < |Dropped(order, key)| :: Dropped(order, key)[i] != Dropped(order, key)[j]
    ensures |Dropped(order, key)| == if key in order then |order| - 1 else |order|
  {
    if order != [] {
      var rest := order[1..];
      assert forall i | 0 <= i < |rest| :: rest[i] == order[i + 1];
      assert order[0] !in rest;
      DroppedIs(rest, key);
      assert forall k :: k in order <==> k == order[0] || k in rest;
      if order[0] != key {
        var r := [order[0]] + Dropped(rest, key);
        assert r == Dropped(order, key);
        assert forall k :: k in r <==> k == order[0] || k in Dropped(rest, key);
        assert forall j | 0 < j < |r| :: r[j] == Dropped(rest, key)[j - 1] && r[j] in Dropped(rest, key);
      } else {
        assert Dropped(order, key) == Dropped(rest, key);
      }
    }
  }

  /** `memoSetLru`: the key moves to the tail; an over-full memo loses its oldest key. */
  function Lru<K(!new, ==), V>(m: Memo<K, V>, key: K, value: V, max: nat): Memo<K, V> {
    var order := Dropped(m.order, key);
    var at := m.at - {key};
    if |order| >= max && order != [] then Memo(order[1..] + [key], (at - {order[0]})[key := value])
    else Memo(order + [key], at[key := value])
  }

  /** Where a key stands. */
  function Place<K(==)>(order: seq<K>, key: K): (i: nat)
    ensures i <= |order| && (key in order ==> i < |order| && order[i] == key)
  {
    if order == [] || order[0] == key then 0 else 1 + Place(order[1..], key)
  }

  lemma {:induction false} DroppedAt<K>(order: seq<K>, key: K)
    requires key in order && forall i, j | 0 <= i < j < |order| :: order[i] != order[j]
    ensures Dropped(order, key) == order[..Place(order, key)] + order[Place(order, key) + 1..]
  {
    if order[0] == key {
      assert order[0] !in order[1..];
      NothingDropped(order[1..], key);
    } else {
      DroppedAt(order[1..], key);
      var n := Place(order[1..], key);
      assert order[..n + 1] == [order[0]] + order[1..][..n] && order[n + 2..] == order[1..][n + 1..];
    }
  }

  /** After any call the memo holds at most `max` entries, the new one last, the others in their order, and
      of them at most the oldest is gone. */
  lemma LruKeeps<K(!new), V>(m: Memo<K, V>, key: K, value: V, max: nat)
    requires m.Valid(max) && max >= 1
    ensures Lru(m, key, value, max).Valid(max)
    ensures key in Lru(m, key, value, max).at && Lru(m, key, value, max).at[key] == value
    ensures forall k | k in Lru(m, key, value, max).at && k != key :: k in m.at && Lru(m, key, value, max).at[k] == m.at[k]
    ensures forall k | k in m.at && k !in Lru(m, key, value, max).at :: |m.order| == max && key !in m.at && k == m.order[0]
    ensures Lru(m, key, value, max).order
         == (if key in m.at then m.order[..Place(m.order, key)] + m.order[Place(m.order, key) + 1..]
             else if |m.order| == max then m.order[1..] else m.order) + [key]
  {
    hide Dropped;
    DroppedIs(m.order, key);
    var order := Dropped(m.order, key);
    if key in m.at {
      DroppedAt(m.order, key);
    } else {
      NothingDropped(m.order, key);
    }
    if |order| >= max {
      AllButFirst(order);
      OneMore(order[1..], key);
    } else {
      OneMore(order, key);
    }
  }

  lemma AllButFirst<K>(order: seq<K>)
    requires order != [] && forall i, j | 0 <= i < j < |order| :: order[i] != order[j]
    ensures forall i, j | 0 <= i < j < |order[1..]| :: order[1..][i] != order[1..][j]
    ensures forall k :: k in order[1..] <==> k in order && k != order[0]
  {
    assert forall k :: k in order <==> k == order[0] || k in order[1..];
  }

  lemma OneMore<K>(order: seq<K>, key: K)
    requires key !in order && forall i, j | 0 <= i < j < |order| :: order[i] != order[j]
    ensures forall i, j | 0 <= i < j < |order + [key]| :: (order + [key])[i] != (order + [key])[j]
    ensures forall k :: k in order + [key] <==> k in order || k == key
  {
  }

  lemma {:induction false} NothingDropped<K>(order: seq<K>, key: K)
    requires key !in order
    ensures Dropped(order, key) == order
  {
    if order != [] {
      assert order[0] in order;
      NothingDropped(order[1..], key);
    }
  }

  type Cache = Memo<Sha, Verdict>

  // ---------------------------------------------------------------- what a step does

  /** How much a verdict is worth: absent, inherited green, red, observed green. */
  function Rank(c: Cache, sha: Sha): nat {
    if sha !in c.at then 0
    else if c.at[sha].status == Red then 2
    else if c.at[sha].Observed() then 3
    else 1
  }

  /** What one run of the declared check came to. */
  datatype Outcome = NoCheck | SkippedRun | Passed | Failed(failing: seq<string>, sleptMs: nat)

  const SLEEP_SPAN_TOLERANCE_MS := 60_000

  predicate MakesVerdict(outcome: Outcome) {
    outcome.Passed? || (outcome.Failed? && outcome.sleptMs <= SLEEP_SPAN_TOLERANCE_MS)
  }

  /** `baselineFromOutcome`: a red adds this worktree to those that saw the SHA red. */
  function FromOutcome(c: Cache, sha: Sha, wt: Worktree, outcome: Outcome, now: int): Verdict
    requires MakesVerdict(outcome)
  {
    var prior := if sha in c.at && c.at[sha].status == Red then c.at[sha].redFrom else [];
    if outcome.Passed? then GreenVerdict(Some(now))
    else Verdict(Red, Some(now), outcome.failing, if wt in prior then prior else prior + [wt], None)
  }

  datatype Step =
    | RunSettles(sha: Sha, wt: Worktree, outcome: Outcome, now: int)
    | RerunSettles(sha: Sha, failing: seq<string>)
    | NoteGreen(sha: Sha)
    | NoteInherited(sha: Sha, from: Sha)
    | CarryOver(sha: Sha, from: Sha)

  function Remember(c: Cache, sha: Sha, v: Verdict): Cache {
    Lru(c, sha, v, BASELINE_CACHE_MAX)
  }

  /** The cache after a step. */
  function Stepped(c: Cache, s: Step): Cache {
    match s
    case RunSettles(sha, wt, outcome, now) =>
      if !MakesVerdict(outcome) || Rank(c, sha) == 3 then c else Remember(c, sha, FromOutcome(c, sha, wt, outcome, now))
    case RerunSettles(sha, failing) =>
      if Rank(c, sha) != 2 then c
      else if failing == [] then Remember(c, sha, GreenVerdict(c.at[sha].checkedAt))
      else Remember(c, sha, c.at[sha].(failingTests := failing))
    case NoteGreen(sha) => Remember(c, sha, GreenVerdict(None))
    case NoteInherited(sha, from) => if Rank(c, sha) >= 2 then c else Remember(c, sha, InheritedVerdict(from))
    case CarryOver(sha, from) => if sha in c.at then c else Remember(c, sha, InheritedVerdict(from))
  }

  /** The rank a step records for its SHA; a re-run counts only where it finds a red to settle. */
  function Recorded(c: Cache, s: Step, sha: Sha): nat {
    if s.sha != sha then 0
    else match s
      case RunSettles(_, _, outcome, _) => if !MakesVerdict(outcome) then 0 else if outcome.Passed? then 3 else 2
      case RerunSettles(_, failing) => if Rank(c, sha) != 2 then 0 else if failing == [] then 3 else 2
      case NoteGreen(_) => 3
      case NoteInherited(_, _) => 1
      case CarryOver(_, _) => 1
  }

  function Max(a: nat, b: nat): nat {
    if a < b then b else a
  }

  lemma RankAfter(c: Cache, sha: Sha, v: Verdict, other: Sha)
    requires c.Valid(BASELINE_CACHE_MAX)
    ensures var r := Remember(c, sha, v);
      && r.Valid(BASELINE_CACHE_MAX)
      && Rank(r, sha) == (if v.status == Red then 2 else if v.Observed() then 3 else 1)
      && (other != sha ==> Rank(r, other) == Rank(c, other) || (Rank(r, other) == 0 && |c.order| == BASELINE_CACHE_MAX && sha !in c.at && other == c.order[0]))
  {
    hide Lru, Memo.Valid;
    LruKeeps(c, sha, v, BASELINE_CACHE_MAX);
  }

  /** A SHA's verdict is the join of what is recorded: a step raises it to what it records, never lowers
      it, and touches no other SHA but the one it evicts, the oldest of a full cache. */
  lemma StepJoins(c: Cache, s: Step, sha: Sha)
    requires c.Valid(BASELINE_CACHE_MAX)
    ensures Stepped(c, s).Valid(BASELINE_CACHE_MAX)
    ensures Rank(Stepped(c, s), sha) == Max(Rank(c, sha), Recorded(c, s, sha))
         || (Rank(Stepped(c, s), sha) == 0 && sha != s.sha && |c.order| == BASELINE_CACHE_MAX && s.sha !in c.at && sha == c.order[0])
  {
    hide Remember, Memo.Valid;
    match s
    case RunSettles(x, wt, outcome, now) =>
      if MakesVerdict(outcome) && Rank(c, x) != 3 {
        RankAfter(c, x, FromOutcome(c, x, wt, outcome, now), sha);
      }
    case RerunSettles(x, failing) =>
      if Rank(c, x) == 2 {
        RankAfter(c, x, if failing == [] then GreenVerdict(c.at[x].checkedAt) else c.at[x].(failingTests := failing), sha);
      }
    case NoteGreen(x) => RankAfter(c, x, GreenVerdict(None), sha);
    case NoteInherited(x, from) => RankAfter(c, x, InheritedVerdict(from), sha);
    case CarryOver(x, from) => RankAfter(c, x, InheritedVerdict(from), sha);
  }

  /** Skips and failures the host slept through record nothing. */
  lemma NoVerdictNoRecord(c: Cache, sha: Sha, wt: Worktree, outcome: Outcome, now: int)
    requires outcome == SkippedRun || outcome == NoCheck || (outcome.Failed? && outcome.sleptMs > SLEEP_SPAN_TOLERANCE_MS)
    ensures Stepped(c, RunSettles(sha, wt, outcome, now)) == c
  {
  }

  ghost predicate ObservedGreen(c: Cache, sha: Sha) {
    sha in c.at && c.at[sha].status == Green && c.at[sha].inheritedFrom == None
  }

  /** What each step leaves for its SHA. A run's verdict gives way to an observed green only; its red keeps
      the worktrees that saw the SHA red before and adds its own. A re-run needs a red, and keeps its stamp.
      A carry-over needs an uncached SHA, a merge's inherited green one nothing was observed on. */
  lemma StepWrites(c: Cache, s: Step)
    requires c.Valid(BASELINE_CACHE_MAX)
    ensures var c' := Stepped(c, s);
      match s
      case RunSettles(sha, wt, outcome, now) =>
        if ObservedGreen(c, sha) || !(outcome.Passed? || (outcome.Failed? && outcome.sleptMs <= 60_000)) then c' == c
        else
          && sha in c'.at
          && (outcome.Passed? ==> c'.at[sha] == Verdict(Green, Some(now), [], [], None))
          && (outcome.Failed? ==>
                && c'.at[sha] == Verdict(Red, Some(now), outcome.failing, c'.at[sha].redFrom, None)
                && forall x :: x in c'.at[sha].redFrom <==> x == wt || (sha in c.at && c.at[sha].status == Red && x in c.at[sha].redFrom))
      case RerunSettles(sha, failing) =>
        if sha !in c.at || c.at[sha].status != Red then c' == c
        else sha in c'.at && c'.at[sha] == if failing == [] then Verdict(Green, c.at[sha].checkedAt, [], [], None) else c.at[sha].(failingTests := failing)
      case NoteGreen(sha) => sha in c'.at && c'.at[sha] == Verdict(Green, None, [], [], None)
      case NoteInherited(sha, from) =>
        if sha in c.at && (c.at[sha].status == Red || c.at[sha].inheritedFrom == None) then c' == c
        else sha in c'.at && c'.at[sha] == Verdict(Green, None, [], [], Some(from))
      case CarryOver(sha, from) =>
        if sha in c.at then c' == c else sha in c'.at && c'.at[sha] == Verdict(Green, None, [], [], Some(from))
  {
    hide Lru, Memo.Valid;
    forall v: Verdict ensures s.sha in Remember(c, s.sha, v).at && Remember(c, s.sha, v).at[s.sha] == v {
      LruKeeps(c, s.sha, v, BASELINE_CACHE_MAX);
    }
  }

  // ---------------------------------------------------------------- runs

  function After(c: Cache, steps: seq<Step>): Cache
    decreases |steps|
  {
    if steps == [] then c else After(Stepped(c, steps[0]), steps[1..])
  }

  /** The join of what the steps record for a SHA. */
  function Join(c: Cache, steps: seq<Step>, sha: Sha): nat
    decreases |steps|
  {
    if steps == [] then 0 else Max(Recorded(c, steps[0], sha), Join(Stepped(c, steps[0]), steps[1..], sha))
  }

  /** The SHA is never the one a step evicts. */
  ghost predicate Stays(c: Cache, steps: seq<Step>, sha: Sha)
    decreases |steps|
  {
    steps == [] || ((sha in c.at ==> sha in Stepped(c, steps[0]).at) && Stays(Stepped(c, steps[0]), steps[1..], sha))
  }

  lemma JoinKeepsPresence(c: Cache, s: Step, sha: Sha)
    requires c.Valid(BASELINE_CACHE_MAX) && (sha in c.at ==> sha in Stepped(c, s).at)
    ensures Rank(Stepped(c, s), sha) == Max(Rank(c, sha), Recorded(c, s, sha))
  {
    hide Stepped, Recorded, Memo.Valid;
    StepJoins(c, s, sha);
    if sha != s.sha {
      NothingForOthers(c, s, sha);
    }
  }

  lemma NothingForOthers(c: Cache, s: Step, sha: Sha)
    requires sha != s.sha
    ensures Recorded(c, s, sha) == 0
  {
  }

  /** Over any interleaving, while the SHA is not evicted, its verdict only climbs and ends as the join
      of everything recorded. */
  lemma {:induction false} VerdictIsJoin(c: Cache, steps: seq<Step>, sha: Sha)
    requires c.Valid(BASELINE_CACHE_MAX) && Stays(c, steps, sha)
    ensures Rank(After(c, steps), sha) == Max(Rank(c, sha), Join(c, steps, sha))
    ensures After(c, steps).Valid(BASELINE_CACHE_MAX)
    decreases |steps|
  {
    hide Rank, Recorded, Stepped, Memo.Valid;
    if steps != [] {
      StepJoins(c, steps[0], sha);
      JoinKeepsPresence(c, steps[0], sha);
      VerdictIsJoin(Stepped(c, steps[0]), steps[1..], sha);
    }
  }

  // ---------------------------------------------------------------- completion orders

  /** What a step records whatever the cache holds; a re-run records nothing of its own. */
  function RecordedAnyway(s: Step, sha: Sha): nat {
    if s.sha != sha then 0
    else match s
      case RunSettles(_, _, outcome, _) => if !MakesVerdict(outcome) then 0 else if outcome.Passed? then 3 else 2
      case NoteGreen(_) => 3
      case NoteInherited(_, _) => 1
      case CarryOver(_, _) => 1
      case RerunSettles(_, _) => 0
  }

  /** The greatest rank recorded anyway. */
  function Top(steps: seq<Step>, sha: Sha): nat
    decreases |steps|
  {
    if steps == [] then 0 else Max(RecordedAnyway(steps[0], sha), Top(steps[1..], sha))
  }

  /** A re-run with no failing test left: it promotes a red, and only a red. */
  predicate Promotion(s: Step, sha: Sha) {
    s == RerunSettles(sha, [])
  }

  /** A promoting re-run of the SHA comes after a red: the one it started with, or one recorded before. */
  ghost predicate Promotes(rank: nat, steps: seq<Step>, sha: Sha) {
    exists i | 0 <= i < |steps| :: Promotion(steps[i], sha) && (rank == 2 || RedIn(steps[..i], sha))
  }

  ghost predicate RedIn(steps: seq<Step>, sha: Sha) {
    exists s :: s in steps && RecordedAnyway(s, sha) == 2
  }

  lemma PromotesCons(rank: nat, s: Step, rest: seq<Step>, sha: Sha)
    ensures Promotes(rank, [s] + rest, sha)
       <==> (Promotion(s, sha) && rank == 2) || Promotes(if RecordedAnyway(s, sha) == 2 then 2 else rank, rest, sha)
  {
    hide RecordedAnyway, Promotion, RedIn;
    var all, next := [s] + rest, if RecordedAnyway(s, sha) == 2 then 2 else rank;
    forall i | 0 < i <= |rest| ensures RedIn(all[..i], sha) <==> RecordedAnyway(s, sha) == 2 || RedIn(rest[..i - 1], sha) {
      assert all[..i] == [s] + rest[..i - 1];
      RedCons(s, rest[..i - 1], sha);
    }
    RedCons(s, [], sha);
    if Promotes(rank, all, sha) {
      var i :| 0 <= i < |all| && Promotion(all[i], sha) && (rank == 2 || RedIn(all[..i], sha));
      if i == 0 {
        assert all[..0] == [];
      } else {
        assert rest[i - 1] == all[i] && (next == 2 || RedIn(rest[..i - 1], sha));
      }
    }
    if Promotes(next, rest, sha) {
      var i :| 0 <= i < |rest| && Promotion(rest[i], sha) && (next == 2 || RedIn(rest[..i], sha));
      assert all[i + 1] == rest[i] && rest[..i] == rest[..i + 1 - 1] && (rank == 2 || RedIn(all[..i + 1], sha));
    }
    if Promotion(s, sha) && rank == 2 {
      assert all[0] == s;
    }
  }

  lemma RedCons(s: Step, rest: seq<Step>, sha: Sha)
    ensures RedIn([s] + rest, sha) <==> RecordedAnyway(s, sha) == 2 || RedIn(rest, sha)
    ensures !RedIn([], sha)
  {
    hide RecordedAnyway;
    assert forall x :: x in [s] + rest <==> x == s || x in rest;
  }

  /** How a step moves the rank of a SHA that stays cached. */
  lemma RankSteps(c: Cache, s: Step, sha: Sha)
    requires c.Valid(BASELINE_CACHE_MAX) && (sha in c.at ==> sha in Stepped(c, s).at)
    ensures Rank(Stepped(c, s), sha)
         == if Promotion(s, sha) then (if Rank(c, sha) == 2 then 3 else Rank(c, sha)) else Max(Rank(c, sha), RecordedAnyway(s, sha))
  {
    hide Stepped, Rank, Memo.Valid;
    JoinKeepsPresence(c, s, sha);
  }

  lemma RankBound(c: Cache, sha: Sha)
    ensures Rank(c, sha) <= 3
  {
  }

  lemma RecordBound(s: Step, sha: Sha)
    ensures RecordedAnyway(s, sha) <= 3 && (Promotion(s, sha) ==> RecordedAnyway(s, sha) == 0)
  {
  }

  /** Where a run of steps leaves a SHA that is never evicted, re-runs included: the maximum of where it
      stood and what was recorded, or green once a promoting re-run met a red. */
  lemma {:induction false} FinalRank(c: Cache, steps: seq<Step>, sha: Sha)
    requires c.Valid(BASELINE_CACHE_MAX) && Stays(c, steps, sha)
    ensures Rank(After(c, steps), sha)
         == if Promotes(Rank(c, sha), steps, sha) then 3 else Max(Rank(c, sha), Top(steps, sha))
    decreases |steps|
  {
    hide Rank, Recorded, RecordedAnyway, Stepped, Memo.Valid, Promotion, Promotes;
    RankBound(c, sha);
    if steps == [] {
      NothingPromotes(Rank(c, sha), sha);
    } else {
      var s, rest := steps[0], steps[1..];
      assert steps == [s] + rest;
      StepJoins(c, s, sha);
      RankSteps(c, s, sha);
      RecordBound(s, sha);
      TopBound(rest, sha);
      FinalRank(Stepped(c, s), rest, sha);
      PromotesCons(Rank(c, sha), s, rest, sha);
      RankMatters(Rank(Stepped(c, s), sha), Rank(c, sha), rest, sha);
    }
  }

  lemma NothingPromotes(rank: nat, sha: Sha)
    ensures !Promotes(rank, [], sha)
  {
  }

  lemma {:induction false} TopBound(steps: seq<Step>, sha: Sha)
    ensures Top(steps, sha) <= 3
    decreases |steps|
  {
    hide RecordedAnyway;
    if steps != [] {
      RecordBound(steps[0], sha);
      TopBound(steps[1..], sha);
    }
  }

  /** Only a red to start with makes a difference. */
  lemma RankMatters(a: nat, b: nat, steps: seq<Step>, sha: Sha)
    ensures a != 2 && b != 2 ==> (Promotes(a, steps, sha) <==> Promotes(b, steps, sha))
  {
    hide Promotion, RedIn;
  }

  /** The greatest rank among the recorded ones, as a fact about the multiset of steps. */
  ghost predicate IsTop(steps: multiset<Step>, sha: Sha, top: nat) {
    && (forall s | s in steps :: RecordedAnyway(s, sha) <= top)
    && (top == 0 || exists s :: s in steps && RecordedAnyway(s, sha) == top)
  }

  lemma {:induction false} TopIsTop(steps: seq<Step>, sha: Sha)
    ensures IsTop(multiset(steps), sha, Top(steps, sha))
    decreases |steps|
  {
    hide RecordedAnyway;
    if steps != [] {
      var s, rest := steps[0], steps[1..];
      assert steps == [s] + rest;
      TopIsTop(rest, sha);
      assert multiset(steps) == multiset{s} + multiset(rest);
      var top := Top(steps, sha);
      if top != 0 && top != RecordedAnyway(s, sha) {
        var x :| x in multiset(rest) && RecordedAnyway(x, sha) == top;
        assert x in multiset(steps);
      }
    }
  }

  lemma TopIsOne(steps: multiset<Step>, sha: Sha, a: nat, b: nat)
    requires IsTop(steps, sha, a) && IsTop(steps, sha, b)
    ensures a == b
  {
    hide RecordedAnyway;
  }

  /** Two completion orders of the same steps leave a SHA that is never evicted with the same verdict if
      and only if it ends green anyway, or a promoting re-run comes after a red in both or in neither. */
  lemma OrderIrrelevantIff(c: Cache, steps: seq<Step>, other: seq<Step>, sha: Sha)
    requires c.Valid(BASELINE_CACHE_MAX) && multiset(steps) == multiset(other)
    requires Stays(c, steps, sha) && Stays(c, other, sha)
    ensures Rank(After(c, steps), sha) == Rank(After(c, other), sha)
       <==> Max(Rank(c, sha), Top(steps, sha)) == 3 || (Promotes(Rank(c, sha), steps, sha) <==> Promotes(Rank(c, sha), other, sha))
  {
    hide Rank, After, Top, IsTop, Promotes, Stays, Memo.Valid;
    FinalRank(c, steps, sha);
    FinalRank(c, other, sha);
    TopIsTop(steps, sha);
    TopIsTop(other, sha);
    TopIsOne(multiset(steps), sha, Top(steps, sha), Top(other, sha));
  }

  /** So completion order does not matter for check runs, merge seeds, carry-overs and re-runs that
      narrow: only a re-run that promotes the SHA can tell two orders apart. */
  lemma OrderIrrelevant(c: Cache, steps: seq<Step>, other: seq<Step>, sha: Sha)
    requires c.Valid(BASELINE_CACHE_MAX) && multiset(steps) == multiset(other)
    requires (forall s | s in steps :: !Promotion(s, sha)) && Stays(c, steps, sha) && Stays(c, other, sha)
    ensures Rank(After(c, steps), sha) == Rank(After(c, other), sha)
  {
    hide Rank, After, Top, Promotion, RedIn, Stays, Memo.Valid;
    forall s | s in other ensures !Promotion(s, sha) {
      assert s in multiset(other);
      assert s in steps;
    }
    OrderIrrelevantIff(c, steps, other, sha);
  }

  const NOTHING_CACHED: Cache := Memo([], map[])

  /** The instance: a re-run without failures before the red it would settle leaves the red, after it a
      green. */
  lemma PromotionMustFollow(sha: Sha, wt: Worktree, failing: seq<string>, now: int)
    ensures var promotion, red := RerunSettles(sha, []), RunSettles(sha, wt, Failed(failing, 0), now);
      && Rank(After(NOTHING_CACHED, [promotion, red]), sha) == 2
      && Rank(After(NOTHING_CACHED, [red, promotion]), sha) == 3
  {
    hide Stepped, Memo.Valid, Rank, Promotes, Top;
    var promotion, red := RerunSettles(sha, []), RunSettles(sha, wt, Failed(failing, 0), now);
    var early, late := [promotion] + [red], [red] + [promotion];
    NothingCached(sha);
    assert (forall s | s in early :: s.sha in {sha}) && forall s | s in late :: s.sha in {sha};
    SmallRunsEvictNothing(NOTHING_CACHED, early, {sha}, sha);
    SmallRunsEvictNothing(NOTHING_CACHED, late, {sha}, sha);
    FinalRank(NOTHING_CACHED, early, sha);
    FinalRank(NOTHING_CACHED, late, sha);
    OneEach(promotion, red, sha);
    PromotesCons(0, promotion, [red], sha);
    PromotesCons(0, red, [], sha);
    PromotesCons(0, red, [promotion], sha);
    PromotesCons(2, promotion, [], sha);
    NothingPromotes(0, sha);
    NothingPromotes(2, sha);
    assert [red] + [] == [red] && [promotion] + [] == [promotion];
  }

  lemma OneEach(promotion: Step, red: Step, sha: Sha)
    requires promotion.RerunSettles?
    ensures Top([promotion] + [red], sha) == RecordedAnyway(red, sha)
  {
    var both := [promotion] + [red];
    assert both[1..] == [red] && [red][1..] == [];
    assert Top([red], sha) == RecordedAnyway(red, sha);
  }

  lemma NothingCached(sha: Sha)
    ensures NOTHING_CACHED.Valid(BASELINE_CACHE_MAX) && Rank(NOTHING_CACHED, sha) == 0
  {
  }

  /** As long as the run concerns no more SHAs than the cache holds, nothing is evicted. */
  lemma {:induction false} SmallRunsEvictNothing(c: Cache, steps: seq<Step>, all: set<Sha>, sha: Sha)
    requires c.Valid(BASELINE_CACHE_MAX) && c.at.Keys <= all && |all| <= BASELINE_CACHE_MAX
    requires forall s | s in steps :: s.sha in all
    ensures Stays(c, steps, sha)
    decreases |steps|
  {
    hide Stepped, Rank, Recorded;
    if steps != [] {
      var s := steps[0];
      assert s in steps && forall x | x in steps[1..] :: x in steps;
      StepJoins(c, s, sha);
      StepFits(c, s, all);
      SmallRunsEvictNothing(Stepped(c, s), steps[1..], all, sha);
    }
  }

  lemma StepFits(c: Cache, s: Step, all: set<Sha>)
    requires c.Valid(BASELINE_CACHE_MAX) && c.at.Keys <= all && |all| <= BASELINE_CACHE_MAX && s.sha in all
    ensures Stepped(c, s).at.Keys <= all && c.at.Keys <= Stepped(c, s).at.Keys
  {
    hide Stepped, Rank, Recorded;
    forall k | k in Stepped(c, s).at ensures k in all {
      SteppedKey(c, s, k);
    }
    forall k | k in c.at ensures k in Stepped(c, s).at {
      SteppedKey(c, s, k);
      if s.sha !in c.at {
        RoomLeft(c, s.sha, all);
      }
    }
  }

  lemma SteppedKey(c: Cache, s: Step, k: Sha)
    requires c.Valid(BASELINE_CACHE_MAX)
    ensures k in Stepped(c, s).at ==> k in c.at || k == s.sha
    ensures k in c.at && k !in Stepped(c, s).at ==> |c.order| == BASELINE_CACHE_MAX && s.sha !in c.at
  {
    hide Lru, Memo.Valid;
    forall v: Verdict ensures
        && (k in Remember(c, s.sha, v).at ==> k in c.at || k == s.sha)
        && (k in c.at && k !in Remember(c, s.sha, v).at ==> |c.order| == BASELINE_CACHE_MAX && s.sha !in c.at)
    {
      LruKeeps(c, s.sha, v, BASELINE_CACHE_MAX);
    }
  }

  lemma RoomLeft(c: Cache, sha: Sha, all: set<Sha>)
    requires c.Valid(BASELINE_CACHE_MAX) && sha !in c.at
    requires c.at.Keys <= all && sha in all && |all| <= BASELINE_CACHE_MAX
    ensures |c.order| < BASELINE_CACHE_MAX
  {
    OrderSize(c.order);
    var keys := set k | k in c.order;
    assert keys == c.at.Keys;
    assert keys <= all - {sha};
    SubsetSize(keys, all - {sha});
  }

  lemma SubsetSize<T>(a: set<T>, b: set<T>)
    requires a <= b
    ensures |a| <= |b|
  {
    assert b == a + (b - a);
  }

  lemma {:induction false} OrderSize<T>(order: seq<T>)
    requires forall i, j | 0 <= i < j < |order| :: order[i] != order[j]
    ensures |set k | k in order| == |order|
  {
    if order != [] {
      OrderSize(order[1..]);
      assert (set k | k in order) == {order[0]} + (set k | k in order[1..]);
      assert order[0] !in order[1..];
    }
  }

  // ---------------------------------------------------------------- the module's functions

  /** Only greens are carried over. */
  ghost predicate RedsObserved(c: Cache) {
    forall sha | sha in c.at && c.at[sha].status == Red :: c.at[sha].Observed()
  }

  /** `shouldRerunRed`: a red is trusted once two different worktrees, or this one, have seen it. */
  predicate ShouldRerunRed(v: Verdict, wt: Worktree, reverifyRed: bool) {
    v.status == Red && (reverifyRed || (|v.redFrom| < 2 && wt !in v.redFrom))
  }

  /** The in-flight key of a run: one per SHA, or one per SHA and worktree. */
  datatype Key = Shared(sha: Sha) | Own(sha: Sha, wt: Worktree)

  datatype Options = Options(reverifyRed: bool, forceFresh: bool, observedOnly: bool, dedupByWorktree: bool)

  /** `cachedBaselineFor`. */
  function CachedBaselineFor(c: Cache, sha: Sha, wt: Worktree, o: Options): (r: (Option<Verdict>, Key))
    ensures r.0.Some? ==> sha in c.at && r.0.value == c.at[sha] && !o.forceFresh
    ensures r.0.Some? && o.observedOnly ==> r.0.value.Observed()
    ensures r.0.Some? && r.0.value.status == Red ==> !o.reverifyRed && (|r.0.value.redFrom| >= 2 || wt in r.0.value.redFrom)
    ensures r.1.Own? ==> Rank(c, sha) == 2 && r.1.wt == wt
    ensures Rank(c, sha) == 2 && c.at[sha].Observed() ==> r.1.Own?
  {
    var cached := if sha !in c.at || (o.observedOnly && c.at[sha].inheritedFrom != None) then None else Some(c.at[sha]);
    var usable := if cached.Some? && !o.forceFresh && !ShouldRerunRed(cached.value, wt, o.reverifyRed) then cached else None;
    (usable, if cached.Some? && cached.value.status == Red then Own(sha, wt) else Shared(sha))
  }

  /** What `checkMainBaseline` does first: answer from the cache, try a carry-over, or run under a key. */
  datatype Consult = Hit(verdict: Verdict) | TryCarryOver(key: Key) | Run(key: Key)

  function DedupKey(key: Key, sha: Sha, wt: Worktree, o: Options): Key {
    if o.dedupByWorktree then Own(sha, wt) else key
  }

  function Consulted(c: Cache, sha: Sha, wt: Worktree, o: Options): Consult {
    var (cached, key) := CachedBaselineFor(c, sha, wt, o);
    if cached.Some? then Hit(cached.value)
    else if !o.forceFresh && !o.observedOnly && key == Shared(sha) then TryCarryOver(DedupKey(key, sha, wt, o))
    else Run(DedupKey(key, sha, wt, o))
  }

  /** A forced run always runs; attribution never rests on a carry-over; only a SHA without a verdict
      may inherit one; and a re-run of a red joins no other worktree's run. */
  lemma ConsultKeepsPromises(c: Cache, sha: Sha, wt: Worktree, o: Options)
    requires RedsObserved(c)
    ensures var r := Consulted(c, sha, wt, o);
      && (o.forceFresh ==> r.Run?)
      && (o.observedOnly ==> r.Run? || (r.Hit? && r.verdict.Observed()))
      && (r.TryCarryOver? ==> sha !in c.at)
      && (!r.Hit? && Rank(c, sha) == 2 ==> r == Run(Own(sha, wt)))
      && (!r.Hit? && r.key.Own? ==> r.key.wt == wt)
      && (r.Hit? <==> && sha in c.at && !o.forceFresh && (o.observedOnly ==> c.at[sha].Observed())
                      && (c.at[sha].status == Red ==> !o.reverifyRed && (|c.at[sha].redFrom| >= 2 || wt in c.at[sha].redFrom)))
      && (r.Hit? ==> r.verdict == c.at[sha])
      && (r.TryCarryOver? <==> sha !in c.at && !o.forceFresh && !o.observedOnly)
      && (!r.Hit? ==> r.key == if o.dedupByWorktree || Rank(c, sha) == 2 then Own(sha, wt) else Shared(sha))
  {
  }

  lemma StepKeepsRedsObserved(c: Cache, s: Step)
    requires c.Valid(BASELINE_CACHE_MAX) && RedsObserved(c)
    ensures RedsObserved(Stepped(c, s))
  {
    hide Lru, Memo.Valid;
    forall v: Verdict ensures (v.status == Red && !v.Observed()) || RedsObserved(Remember(c, s.sha, v)) {
      LruKeeps(c, s.sha, v, BASELINE_CACHE_MAX);
    }
  }

  /** The first-parent history below a commit, as far as a walk looks. */
  function FirstParentWalk(history: seq<Sha>): seq<Sha> {
    if |history| <= INHERIT_WALK_MAX then history else history[..INHERIT_WALK_MAX]
  }

  /** The nearest ancestor the cache holds a verdict for, or none. */
  function Nearest(c: Cache, ancestors: seq<Sha>): (r: Option<Sha>)
    ensures r.Some? ==> r.value in c.at && r.value in ancestors
  {
    if ancestors == [] then None else if ancestors[0] in c.at then Some(ancestors[0]) else Nearest(c, ancestors[1..])
  }

  lemma {:induction false} NearestIs(c: Cache, ancestors: seq<Sha>)
    ensures Nearest(c, ancestors).None? <==> forall a | a in ancestors :: a !in c.at
    ensures Nearest(c, ancestors).Some? ==>
              exists i | 0 <= i < |ancestors| :: ancestors[i] == Nearest(c, ancestors).value && ancestors[i] in c.at
                && forall j | 0 <= j < i :: ancestors[j] !in c.at
  {
    if ancestors != [] {
      var rest := ancestors[1..];
      assert ancestors[0] in ancestors && forall a | a in rest :: a in ancestors;
      assert forall a | a in ancestors :: a == ancestors[0] || a in rest;
      if ancestors[0] in c.at {
        assert ancestors[0] == Nearest(c, ancestors).value;
      } else {
        NearestIs(c, rest);
        if Nearest(c, rest).Some? {
          var i :| 0 <= i < |rest| && rest[i] == Nearest(c, rest).value && rest[i] in c.at && forall j | 0 <= j < i :: rest[j] !in c.at;
          assert ancestors[i + 1] == rest[i];
          assert forall j | 0 <= j < i + 1 :: ancestors[j] !in c.at by {
            forall j | 0 <= j < i + 1 ensures ancestors[j] !in c.at {
              if j > 0 {
                assert ancestors[j] == rest[j - 1];
              }
            }
          }
        }
      }
    }
  }

  /** The nearest cached verdict within reach of a walk down the first-parent history stands at `i`, and is
      green: nothing nearer is cached, a red least of all. */
  ghost predicate NearestGreen(c: Cache, history: seq<Sha>, i: nat) {
    && i < |history| && i < 64 && history[i] in c.at && c.at[history[i]].status == Green
    && forall j | 0 <= j < i :: history[j] !in c.at
  }

  lemma WalkFinds(c: Cache, history: seq<Sha>, i: nat)
    ensures NearestGreen(c, history, i) ==> Nearest(c, FirstParentWalk(history)) == Some(history[i])
    ensures Nearest(c, FirstParentWalk(history)).Some? && c.at[Nearest(c, FirstParentWalk(history)).value].status == Green ==>
              exists k: nat :: NearestGreen(c, history, k) && history[k] == Nearest(c, FirstParentWalk(history)).value
  {
    hide Nearest;
    var walk := FirstParentWalk(history);
    NearestIs(c, walk);
    assert forall k | 0 <= k < |walk| :: walk[k] == history[k];
    var nearest := Nearest(c, walk);
    assert i < |walk| ==> walk[i] in walk;
    if nearest.Some? {
      var k :| 0 <= k < |walk| && walk[k] == nearest.value && walk[k] in c.at && forall j | 0 <= j < k :: walk[j] !in c.at;
      assert c.at[nearest.value].status == Green ==> NearestGreen(c, history, k);
      if NearestGreen(c, history, i) {
        assert walk[i] in c.at;
      }
    }
  }

  class BaselineCache {
    var order: seq<Sha>
    var at: map<Sha, Verdict>
    var inFlight: map<Key, nat>
    var runs: nat

    function Now(): Cache
      reads this
    {
      Memo(order, at)
    }

    /** Each run in flight has its own number, below the next one given out. */
    ghost predicate Valid()
      reads this
    {
      && Now().Valid(BASELINE_CACHE_MAX) && RedsObserved(Now())
      && (forall k | k in inFlight :: inFlight[k] < runs)
      && forall j, k | j in inFlight && k in inFlight && inFlight[j] == inFlight[k] :: j == k
    }

    constructor ()
      ensures Valid() && Now() == NOTHING_CACHED && inFlight == map[]
    {
      order, at, inFlight, runs := [], map[], map[], 0;
    }

    /** `rememberBaseline` through `memoSetLru`: delete, evict, set. */
    method RememberBaseline(sha: Sha, v: Verdict)
      requires Now().Valid(BASELINE_CACHE_MAX)
      modifies this`order, this`at
      ensures Now() == Remember(old(Now()), sha, v)
    {
      hide Dropped, Memo.Valid;
      RememberIs(Now(), sha, v);
      if sha in at {
        at := at - {sha};
        order := Dropped(order, sha);
      }
      if |order| >= BASELINE_CACHE_MAX {
        var oldest := order[0];
        at := at - {oldest};
        order := order[1..];
      }
      at := at[sha := v];
      order := order + [sha];
    }

    method NoteGreenBaseline(sha: Sha)
      requires Valid()
      modifies this`order, this`at
      ensures Valid() && Now() == Stepped(old(Now()), NoteGreen(sha))
    {
      hide Remember, Memo.Valid, RedsObserved;
      StepJoins(Now(), NoteGreen(sha), sha);
      StepKeepsRedsObserved(Now(), NoteGreen(sha));
      RememberBaseline(sha, GreenVerdict(None));
    }

    /** `settleRedByRerun`: none failing again promotes the SHA, else the red narrows. */
    method SettleRedByRerun(sha: Sha, failing: seq<string>) returns (settled: Option<Verdict>)
      requires Valid()
      modifies this`order, this`at
      ensures Valid() && Now() == Stepped(old(Now()), RerunSettles(sha, failing))
      ensures settled.None? <==> Rank(old(Now()), sha) != 2
      ensures settled.Some? ==> settled.value.checkedAt == old(at)[sha].checkedAt && settled.value.failingTests == failing
      ensures settled.Some? ==> (settled.value.status == Green <==> failing == [])
    {
      hide Remember, Memo.Valid, RedsObserved;
      StepJoins(Now(), RerunSettles(sha, failing), sha);
      StepKeepsRedsObserved(Now(), RerunSettles(sha, failing));
      if sha !in at || at[sha].status != Red {
        return None;
      }
      var red := at[sha];
      var v := if failing == [] then GreenVerdict(red.checkedAt) else red.(failingTests := failing);
      RememberBaseline(sha, v);
      return Some(v);
    }

    method NoteInheritedGreen(sha: Sha, from: Sha)
      requires Valid()
      modifies this`order, this`at
      ensures Valid() && Now() == Stepped(old(Now()), NoteInherited(sha, from))
    {
      hide Remember, Memo.Valid;
      StepJoins(Now(), NoteInherited(sha, from), sha);
      StepKeepsRedsObserved(Now(), NoteInherited(sha, from));
      if sha in at && at[sha].inheritedFrom == None {
        return;
      }
      RememberBaseline(sha, InheritedVerdict(from));
    }

    /** `runBaselineOnce`, once its run has settled: skips and slept-through failures write nothing, and
        a red never overwrites an observed green. */
    method SettleRun(sha: Sha, wt: Worktree, outcome: Outcome, now: int) returns (r: Option<Verdict>)
      requires Valid()
      modifies this`order, this`at
      ensures Valid() && Now() == Stepped(old(Now()), RunSettles(sha, wt, outcome, now))
      ensures r.Some? <==> MakesVerdict(outcome)
      ensures r.Some? ==> r.value == FromOutcome(old(Now()), sha, wt, outcome, now)
    {
      hide Remember, Memo.Valid, RedsObserved, FromOutcome;
      StepJoins(Now(), RunSettles(sha, wt, outcome, now), sha);
      StepKeepsRedsObserved(Now(), RunSettles(sha, wt, outcome, now));
      if outcome.NoCheck? || outcome.SkippedRun? || (outcome.Failed? && outcome.sleptMs > SLEEP_SPAN_TOLERANCE_MS) {
        return None;
      }
      var v := FromOutcome(Now(), sha, wt, outcome, now);
      if sha !in at || at[sha].status != Green || at[sha].inheritedFrom != None {
        RememberBaseline(sha, v);
      }
      return Some(v);
    }

    /** `inheritedGreen` up to its first await: the walk stops at the nearest cached verdict. `exempt`
        says whether the diff from an ancestor could be read and touches only exempt paths. */
    method InheritedGreen(history: seq<Sha>, exempt: Sha -> bool) returns (from: Option<Sha>)
      ensures var nearest := Nearest(Now(), FirstParentWalk(history));
        from == if nearest.Some? && at[nearest.value].status == Green && exempt(nearest.value) then nearest else None
      ensures from.Some? ==> exists i: nat :: NearestGreen(Now(), history, i) && history[i] == from.value && exempt(history[i])
      ensures forall i: nat | NearestGreen(Now(), history, i) && exempt(history[i]) :: from == Some(history[i])
    {
      forall i: nat ensures NearestGreen(Now(), history, i) ==> Nearest(Now(), FirstParentWalk(history)) == Some(history[i]) {
        WalkFinds(Now(), history, i);
      }
      WalkFinds(Now(), history, 0);
      var ancestors := FirstParentWalk(history);
      assert ancestors[0..] == ancestors;
      for i := 0 to |ancestors|
        invariant Nearest(Now(), ancestors) == Nearest(Now(), ancestors[i..])
      {
        assert ancestors[i..][0] == ancestors[i] && ancestors[i..][1..] == ancestors[i + 1..];
        if ancestors[i] in at {
          if at[ancestors[i]].status != Green || !exempt(ancestors[i]) {
            return None;
          }
          return Some(ancestors[i]);
        }
      }
      assert ancestors[|ancestors|..] == [];
      return None;
    }

    /** `inheritedBaselineFor` after its await: what settled meanwhile knows more than the carry-over. */
    method CompleteCarryOver(sha: Sha, from: Sha) returns (r: Verdict)
      requires Valid()
      modifies this`order, this`at
      ensures Valid() && Now() == Stepped(old(Now()), CarryOver(sha, from))
      ensures r == if sha in old(at) then old(at)[sha] else InheritedVerdict(from)
    {
      hide Remember, Memo.Valid, RedsObserved;
      StepJoins(Now(), CarryOver(sha, from), sha);
      StepKeepsRedsObserved(Now(), CarryOver(sha, from));
      if sha in at {
        return at[sha];
      }
      r := InheritedVerdict(from);
      RememberBaseline(sha, r);
    }

    /** `checkMainBaseline` up to its first await: the cache answers, a carry-over is tried, or a run is
        needed under a key. A red is re-run under this worktree's own key. */
    method Consult(sha: Sha, wt: Worktree, o: Options) returns (r: Consult)
      requires Valid()
      ensures r == Consulted(Now(), sha, wt, o)
      ensures !r.Hit? && Rank(Now(), sha) == 2 ==> r == Run(Own(sha, wt))
    {
      ConsultKeepsPromises(Now(), sha, wt, o);
      r := Consulted(Now(), sha, wt, o);
    }

    /** The in-flight dedup, reached at once or after an empty carry-over: the run under the key is joined,
        or a new one started. */
    method StartOrJoin(key: Key) returns (run: nat, started: bool)
      requires Valid()
      modifies this`inFlight, this`runs
      ensures Valid() && Now() == old(Now())
      ensures started <==> key !in old(inFlight)
      ensures inFlight == old(inFlight)[key := run]
      ensures if started then run == old(runs) && runs == run + 1 else run == old(inFlight)[key] && runs == old(runs)
    {
      hide Memo.Valid, RedsObserved;
      started := key !in inFlight;
      if started {
        inFlight := inFlight[key := runs];
        runs := runs + 1;
      }
      run := inFlight[key];
    }

    /** Each waiter's `finally`: the key is freed if it still stands for the run waited for, so a late
        waiter never frees a later run. */
    method Finish(key: Key, run: nat)
      requires Valid()
      modifies this`inFlight
      ensures Valid() && Now() == old(Now())
      ensures inFlight == if key in old(inFlight) && old(inFlight)[key] == run then old(inFlight) - {key} else old(inFlight)
    {
      hide Memo.Valid, RedsObserved;
      if key in inFlight && inFlight[key] == run {
        inFlight := inFlight - {key};
      }
    }
  }

  lemma RememberIs(c: Cache, sha: Sha, v: Verdict)
    requires c.Valid(BASELINE_CACHE_MAX)
    ensures var order, at := if sha in c.at then Dropped(c.order, sha) else c.order, if sha in c.at then c.at - {sha} else c.at;
      && (|order| >= BASELINE_CACHE_MAX ==> order != [])
      && Remember(c, sha, v) == (if |order| >= BASELINE_CACHE_MAX && order != [] then Memo(order[1..] + [sha], (at - {order[0]})[sha := v])
                                 else Memo(order + [sha], at[sha := v]))
  {
    if sha !in c.at {
      NothingDropped(c.order, sha);
      assert c.at - {sha} == c.at;
    }
  }

  // ---------------------------------------------------------------- where an inherited green comes from

  /** A repository's immutable trees and the fixed set of review-exempt paths. */
  datatype Repo = Repo(tree: Sha -> map<string, string>, exempt: string -> bool)

  function FileAt(repo: Repo, sha: Sha, path: string): Option<string> {
    if path in repo.tree(sha) then Some(repo.tree(sha)[path]) else None
  }

  /** Two trees differ only in exempt paths. */
  ghost predicate ExemptDiff(repo: Repo, a: Sha, b: Sha) {
    forall path | !repo.exempt(path) :: FileAt(repo, a, path) == FileAt(repo, b, path)
  }

  /** A chain of carry-overs from `sha` down to a SHA a check was observed green on. */
  ghost predicate Chain(repo: Repo, chain: seq<Sha>, sha: Sha, observed: set<Sha>) {
    && chain != [] && chain[0] == sha && chain[|chain| - 1] in observed
    && forall i | 0 <= i < |chain| - 1 :: ExemptDiff(repo, chain[i], chain[i + 1])
  }

  /** Carried over from `from`: the chain's second link. */
  ghost predicate Traced(repo: Repo, sha: Sha, from: Sha, observed: set<Sha>) {
    exists chain: seq<Sha> :: Chain(repo, chain, sha, observed) && |chain| >= 2 && chain[1] == from
  }

  /** Somewhere down the line a check was green on this tree, but for exempt paths. */
  lemma {:induction false} ChainEnds(repo: Repo, chain: seq<Sha>, sha: Sha, observed: set<Sha>)
    requires Chain(repo, chain, sha, observed)
    ensures ExemptDiff(repo, sha, chain[|chain| - 1]) && chain[|chain| - 1] in observed
    decreases |chain|
  {
    if |chain| > 1 {
      hide ExemptDiff;
      var rest := chain[1..];
      assert forall i | 0 <= i < |rest| :: rest[i] == chain[i + 1];
      forall i | 0 <= i < |rest| - 1 ensures ExemptDiff(repo, rest[i], rest[i + 1]) {
        assert ExemptDiff(repo, chain[i + 1], chain[i + 2]);
      }
      ChainEnds(repo, rest, chain[1], observed);
      assert ExemptDiff(repo, chain[0], chain[0 + 1]);
      ExemptTransitive(repo, sha, chain[1], chain[|chain| - 1]);
    }
  }

  lemma ExemptTransitive(repo: Repo, a: Sha, b: Sha, c: Sha)
    requires ExemptDiff(repo, a, b) && ExemptDiff(repo, b, c)
    ensures ExemptDiff(repo, a, c)
  {
    hide FileAt;
  }

  /** A carry-over whose walk has ended and whose cache write has not. */
  datatype Pending = Pending(sha: Sha, from: Sha)

  /** The team's state: the cache, the carry-overs between their two steps, and what checks were seen to
      say, of which the cache keeps only some. */
  datatype World = World(cache: Cache, pending: set<Pending>, observedGreen: set<Sha>, observedRed: set<(Sha, Worktree)>)

  datatype TeamStep = Settles(step: Step) | WalkEnds(sha: Sha, history: seq<Sha>, from: Sha)

  /** A check was seen to pass: a run's green, a merge's own check, a re-run with nothing failing again. */
  ghost predicate SeesGreen(c: Cache, s: Step) {
    match s
    case RunSettles(_, _, outcome, _) => outcome.Passed?
    case RerunSettles(sha, failing) => failing == [] && Rank(c, sha) == 2
    case NoteGreen(_) => true
    case _ => false
  }

  ghost predicate SeesRed(s: Step) {
    s.RunSettles? && s.outcome.Failed? && MakesVerdict(s.outcome)
  }

  /** One step of the team. A merge notes an inherited green only from a tree it is carried over from
      in turn, or one seen green; a walk ends at the nearest cached verdict when it is green and the
      diff from it is exempt; a carry-over settles after its walk. */
  ghost predicate TeamStepped(repo: Repo, w: World, t: TeamStep, w': World) {
    match t
    case WalkEnds(sha, history, from) =>
      && (exists i: nat :: NearestGreen(w.cache, history, i) && history[i] == from) && ExemptDiff(repo, sha, from)
      && w' == w.(pending := w.pending + {Pending(sha, from)})
    case Settles(s) =>
      && (s.NoteInherited? ==> ExemptDiff(repo, s.sha, s.from) && GreenSomewhere(repo, s.from, w.observedGreen))
      && (s.CarryOver? ==> Pending(s.sha, s.from) in w.pending)
      && w'.cache == Stepped(w.cache, s)
      && w'.pending == w.pending
      && w'.observedGreen == (if SeesGreen(w.cache, s) then w.observedGreen + {s.sha} else w.observedGreen)
      && w'.observedRed == if SeesRed(s) then w.observedRed + {(s.sha, s.wt)} else w.observedRed
  }

  ghost predicate GreenSomewhere(repo: Repo, sha: Sha, observed: set<Sha>) {
    exists chain: seq<Sha> :: Chain(repo, chain, sha, observed)
  }

  /** What every cached verdict is backed by. */
  ghost predicate Backed(repo: Repo, w: World, sha: Sha, v: Verdict) {
    if v.status == Red then v.Observed() && (forall wt | wt in v.redFrom :: (sha, wt) in w.observedRed) && Distinct(v.redFrom)
    else if v.Observed() then sha in w.observedGreen
    else Traced(repo, sha, v.inheritedFrom.value, w.observedGreen)
  }

  ghost predicate Distinct(s: seq<Worktree>) {
    forall i, j | 0 <= i < j < |s| :: s[i] != s[j]
  }

  ghost predicate Sound(repo: Repo, w: World) {
    && w.cache.Valid(BASELINE_CACHE_MAX)
    && (forall sha | sha in w.cache.at :: Backed(repo, w, sha, w.cache.at[sha]))
    && forall p | p in w.pending :: Traced(repo, p.sha, p.from, w.observedGreen)
  }

  lemma TracedMore(repo: Repo, sha: Sha, from: Sha, observed: set<Sha>, more: set<Sha>)
    requires Traced(repo, sha, from, observed) && observed <= more
    ensures Traced(repo, sha, from, more)
  {
    hide ExemptDiff;
    var chain: seq<Sha> :| Chain(repo, chain, sha, observed) && |chain| >= 2 && chain[1] == from;
    assert Chain(repo, chain, sha, more);
  }

  lemma OneLinkMore(repo: Repo, sha: Sha, from: Sha, observed: set<Sha>)
    requires ExemptDiff(repo, sha, from) && GreenSomewhere(repo, from, observed)
    ensures Traced(repo, sha, from, observed)
  {
    hide ExemptDiff;
    var chain: seq<Sha> :| Chain(repo, chain, from, observed);
    var longer := [sha] + chain;
    forall i | 0 <= i < |longer| - 1 ensures ExemptDiff(repo, longer[i], longer[i + 1]) {
      if i > 0 {
        assert ExemptDiff(repo, chain[i - 1], chain[i - 1 + 1]);
      }
    }
    assert Chain(repo, longer, sha, observed) && longer[1] == from;
  }

  /** A cached green is backed by a check seen green somewhere down a chain. */
  lemma CachedGreenSomewhere(repo: Repo, w: World, sha: Sha)
    requires Sound(repo, w) && sha in w.cache.at && w.cache.at[sha].status == Green
    ensures GreenSomewhere(repo, sha, w.observedGreen)
  {
    hide ExemptDiff, Memo.Valid;
    var v := w.cache.at[sha];
    if v.Observed() {
      assert Chain(repo, [sha], sha, w.observedGreen);
    } else {
      var chain: seq<Sha> :| Chain(repo, chain, sha, w.observedGreen) && |chain| >= 2 && chain[1] == v.inheritedFrom.value;
    }
  }

  lemma BackedMore(repo: Repo, w: World, w': World, sha: Sha, v: Verdict)
    requires Backed(repo, w, sha, v) && w.observedGreen <= w'.observedGreen && w.observedRed <= w'.observedRed
    ensures Backed(repo, w', sha, v)
  {
    hide Traced, Distinct;
    if v.status == Green && !v.Observed() {
      TracedMore(repo, sha, v.inheritedFrom.value, w.observedGreen, w'.observedGreen);
    }
  }

  /** What a step writes is backed. */
  lemma WrittenIsBacked(repo: Repo, w: World, s: Step, w': World)
    requires Sound(repo, w) && TeamStepped(repo, w, Settles(s), w')
    requires s.sha in w'.cache.at && !(s.sha in w.cache.at && w.cache.at[s.sha] == w'.cache.at[s.sha])
    ensures Backed(repo, w', s.sha, w'.cache.at[s.sha])
  {
    hide Traced, ExemptDiff, GreenSomewhere, Lru, Memo.Valid, Distinct;
    forall v: Verdict ensures s.sha in Remember(w.cache, s.sha, v).at && Remember(w.cache, s.sha, v).at[s.sha] == v {
      LruKeeps(w.cache, s.sha, v, BASELINE_CACHE_MAX);
    }
    match s
    case RunSettles(sha, wt, outcome, now) => RunIsBacked(repo, w, sha, wt, outcome, now, w');
    case RerunSettles(sha, failing) =>
      if failing != [] {
        BackedMore(repo, w, w', sha, w.cache.at[sha]);
      }
    case NoteGreen(_) =>
    case NoteInherited(sha, from) =>
      OneLinkMore(repo, sha, from, w.observedGreen);
    case CarryOver(sha, from) =>
  }

  lemma RunIsBacked(repo: Repo, w: World, sha: Sha, wt: Worktree, outcome: Outcome, now: int, w': World)
    requires Sound(repo, w) && TeamStepped(repo, w, Settles(RunSettles(sha, wt, outcome, now)), w')
    requires sha in w'.cache.at && !(sha in w.cache.at && w.cache.at[sha] == w'.cache.at[sha])
    requires MakesVerdict(outcome) ==> w'.cache.at[sha] == FromOutcome(w.cache, sha, wt, outcome, now)
    ensures Backed(repo, w', sha, w'.cache.at[sha])
  {
    hide Traced, ExemptDiff, GreenSomewhere, Lru, Memo.Valid;
    if outcome.Failed? && sha in w.cache.at && w.cache.at[sha].status == Red {
      assert Backed(repo, w, sha, w.cache.at[sha]);
    }
  }

  /** Every step keeps it. */
  lemma StepKeepsSound(repo: Repo, w: World, t: TeamStep, w': World)
    requires Sound(repo, w) && TeamStepped(repo, w, t, w')
    ensures Sound(repo, w')
  {
    hide Traced, ExemptDiff, GreenSomewhere, Backed, Lru, Memo.Valid;
    match t
    case WalkEnds(sha, history, from) =>
      CachedGreenSomewhere(repo, w, from);
      OneLinkMore(repo, sha, from, w.observedGreen);
      forall x | x in w'.cache.at ensures Backed(repo, w', x, w'.cache.at[x]) {
        BackedMore(repo, w, w', x, w.cache.at[x]);
      }
    case Settles(s) =>
      StepJoins(w.cache, s, s.sha);
      forall x | x in w'.cache.at ensures Backed(repo, w', x, w'.cache.at[x]) {
        OthersUntouched(w.cache, s, x);
        if x in w.cache.at && w'.cache.at[x] == w.cache.at[x] {
          BackedMore(repo, w, w', x, w.cache.at[x]);
        } else {
          assert x == s.sha;
          WrittenIsBacked(repo, w, s, w');
        }
      }
      forall p | p in w'.pending ensures Traced(repo, p.sha, p.from, w'.observedGreen) {
        TracedMore(repo, p.sha, p.from, w.observedGreen, w'.observedGreen);
      }
  }

  lemma OthersUntouched(c: Cache, s: Step, x: Sha)
    requires c.Valid(BASELINE_CACHE_MAX)
    ensures x != s.sha && x in Stepped(c, s).at ==> x in c.at && Stepped(c, s).at[x] == c.at[x]
  {
    hide Lru, Memo.Valid;
    forall v: Verdict ensures x != s.sha && x in Remember(c, s.sha, v).at ==> x in c.at && Remember(c, s.sha, v).at[x] == c.at[x] {
      LruKeeps(c, s.sha, v, BASELINE_CACHE_MAX);
    }
  }

  ghost predicate TeamRun(repo: Repo, worlds: seq<World>, steps: seq<TeamStep>) {
    && |worlds| == |steps| + 1
    && worlds[0] == World(Memo([], map[]), {}, {}, {})
    && forall i | 0 <= i < |steps| :: TeamStepped(repo, worlds[i], steps[i], worlds[i + 1])
  }

  lemma {:induction false} TeamRunSound(repo: Repo, worlds: seq<World>, steps: seq<TeamStep>, n: nat)
    requires TeamRun(repo, worlds, steps) && n < |worlds|
    ensures Sound(repo, worlds[n])
  {
    hide TeamStepped, Backed, Traced;
    if n > 0 {
      TeamRunSound(repo, worlds, steps, n - 1);
      assert TeamStepped(repo, worlds[n - 1], steps[n - 1], worlds[n - 1 + 1]);
      StepKeepsSound(repo, worlds[n - 1], steps[n - 1], worlds[n]);
    }
  }

  /** In any reachable cache every inherited green goes back, through a chain of carry-overs, to a SHA on
      which a check was seen green, and the two trees differ only in exempt paths. */
  lemma InheritedGreenIsTraced(repo: Repo, worlds: seq<World>, steps: seq<TeamStep>, n: nat, sha: Sha) returns (origin: Sha)
    requires TeamRun(repo, worlds, steps) && n < |worlds|
    requires sha in worlds[n].cache.at && worlds[n].cache.at[sha].status == Green
    ensures origin in worlds[n].observedGreen && ExemptDiff(repo, sha, origin)
  {
    hide TeamRun, Sound, ExemptDiff;
    TeamRunSound(repo, worlds, steps, n);
    CachedGreenSomewhere(repo, worlds[n], sha);
    var chain: seq<Sha> :| Chain(repo, chain, sha, worlds[n].observedGreen);
    ChainEnds(repo, chain, sha, worlds[n].observedGreen);
    origin := chain[|chain| - 1];
  }

  /** No carry-over passes a nearer verdict: when it settles, its walk has ended at the nearest cached
      verdict of the history it was given, within reach, and that was green. */
  lemma {:induction false} CarryOverStopsAtNearest(repo: Repo, worlds: seq<World>, steps: seq<TeamStep>, n: nat, p: Pending)
    returns (m: nat, history: seq<Sha>, i: nat)
    requires TeamRun(repo, worlds, steps) && n < |worlds| && p in worlds[n].pending
    ensures m < n && steps[m] == WalkEnds(p.sha, history, p.from)
    ensures i < |history| && i < 64 && history[i] == p.from && p.from in worlds[m].cache.at && worlds[m].cache.at[p.from].status == Green
    ensures forall j | 0 <= j < i :: history[j] !in worlds[m].cache.at
  {
    hide ExemptDiff, Memo.Valid, Stepped, SeesGreen, SeesRed, GreenSomewhere;
    assert n > 0;
    assert TeamStepped(repo, worlds[n - 1], steps[n - 1], worlds[n - 1 + 1]);
    if p in worlds[n - 1].pending {
      m, history, i := CarryOverStopsAtNearest(repo, worlds, steps, n - 1, p);
    } else {
      m, history := n - 1, steps[n - 1].history;
      var k: nat :| NearestGreen(worlds[m].cache, history, k) && history[k] == p.from;
      i := k;
    }
  }

  /** A red that a worktree trusts was seen there, or in two different worktrees. */
  lemma TrustedRedWasSeen(repo: Repo, worlds: seq<World>, steps: seq<TeamStep>, n: nat, sha: Sha, wt: Worktree)
    requires TeamRun(repo, worlds, steps) && n < |worlds|
    requires sha in worlds[n].cache.at && worlds[n].cache.at[sha].status == Red
    requires !ShouldRerunRed(worlds[n].cache.at[sha], wt, false)
    ensures (sha, wt) in worlds[n].observedRed || exists a, b :: a != b && (sha, a) in worlds[n].observedRed && (sha, b) in worlds[n].observedRed
  {
    hide TeamRun, Traced, Memo.Valid;
    TeamRunSound(repo, worlds, steps, n);
    var v := worlds[n].cache.at[sha];
    assert Backed(repo, worlds[n], sha, v);
    if wt !in v.redFrom {
      assert v.redFrom[0] in v.redFrom && v.redFrom[1] in v.redFrom && v.redFrom[0] != v.redFrom[1];
    }
  }
}
