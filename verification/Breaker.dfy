/** The budget fallback's circuit breaker (src/budget/fallback-breaker.ts): what every run of its
    transitions keeps, and the per-pair map as independent single breakers. Times are epoch
    milliseconds. */
module Breaker {
  import opened Wrappers

  datatype Policy = Policy(failureLimit: nat, cooldownMs: nat, maxCooldownMs: nat) {
    /** What the source's policies satisfy: at least one failure trips, and the cap is no cap below
        the first cool-down. */
    predicate Sane() {
      failureLimit >= 1 && 1 <= cooldownMs <= maxCooldownMs
    }
  }

  const FALLBACK_BREAKER_POLICY := Policy(3, 5 * 60_000, 30 * 60_000)

  /** What the results below ask of a policy holds of the one shipped. */
  lemma ShippedPolicyIsSane()
    ensures FALLBACK_BREAKER_POLICY.Sane()
  {
  }

  /** The judgment about one engaged pair: trusted while `probeAt` is none. */
  datatype Breaker = Breaker(pair: Option<string>, capUsd: real, failures: nat, probeAt: Option<int>, cooldownMs: nat, probing: bool)

  const IDLE := Breaker(None, 0.0, 0, None, 0, false)

  datatype RunResult =
    | Changed | Queued | RefusedRun | NoChange | MergeConflict | MergeBlocked | Rejected | ReviewError
    | ErrorRun | Aborted | QuietKilled | UserAborted | Withdrawn | Skipped

  datatype Evidence = Served | Failed | NoEvidence

  function Min(a: nat, b: nat): nat {
    if a < b then a else b
  }

  // ---------------------------------------------------------------- one breaker

  /** `rekeyFallbackBreaker`: the same judgment while the subject is the same, a fresh one otherwise. */
  function Rekey(b: Breaker, pair: Option<string>, capUsd: real): Breaker {
    if b.pair == pair && (pair == None || b.capUsd == capUsd) then b
    else IDLE.(pair := pair, capUsd := if pair == None then 0.0 else capUsd)
  }

  predicate Serving(b: Breaker) {
    b.probeAt == None
  }

  predicate ProbeDue(b: Breaker, now: int) {
    b.pair != None && b.probeAt != None && !b.probing && now >= b.probeAt.value
  }

  function StartProbe(b: Breaker): Breaker {
    b.(probing := true)
  }

  function AbandonProbe(b: Breaker): Breaker {
    b.(probing := false)
  }

  function EvidenceOf(result: RunResult): Evidence {
    match result
    case ErrorRun => Failed
    case Queued | Changed | NoChange | RefusedRun | Rejected => Served
    case _ => NoEvidence
  }

  /** `recordFallbackRun`. */
  function Record(b: Breaker, ranOn: Breaker, result: RunResult, probe: bool, now: int, policy: Policy): Breaker {
    if ranOn.pair == None || ranOn.pair != b.pair || ranOn.capUsd != b.capUsd then b
    else
      var isProbe := probe && b.probing;
      match EvidenceOf(result)
      case Served => IDLE.(pair := b.pair, capUsd := b.capUsd)
      case NoEvidence => if isProbe then b.(probing := false) else b
      case Failed =>
        var failures := b.failures + 1;
        if isProbe then
          var cooldownMs := Min(b.cooldownMs * 2, policy.maxCooldownMs);
          b.(failures := failures, probeAt := Some(now + cooldownMs), cooldownMs := cooldownMs, probing := false)
        else if b.probeAt != None || failures < policy.failureLimit then b.(failures := failures)
        else b.(failures := failures, probeAt := Some(now + policy.cooldownMs), cooldownMs := policy.cooldownMs, probing := false)
  }

  // ---------------------------------------------------------------- runs of one breaker

  datatype Event =
    | Rekeyed(pair: Option<string>, capUsd: real)
    | ProbeStarted(now: int)
    | ProbeAbandoned
    | RunRecorded(ranOn: Breaker, result: RunResult, probe: bool, now: int)
    | Untouched

  /** The orchestrator starts a probe only when one is due. */
  predicate Allowed(b: Breaker, e: Event) {
    e.ProbeStarted? ==> ProbeDue(b, e.now)
  }

  function Step(b: Breaker, e: Event, policy: Policy): Breaker {
    match e
    case Rekeyed(pair, capUsd) => Rekey(b, pair, capUsd)
    case ProbeStarted(_) => StartProbe(b)
    case ProbeAbandoned => AbandonProbe(b)
    case RunRecorded(ranOn, result, probe, now) => Record(b, ranOn, result, probe, now, policy)
    case Untouched => b
  }

  /** A failed probe: the one event that doubles the cool-down. */
  predicate FailsProbe(b: Breaker, e: Event) {
    && e.RunRecorded? && e.ranOn.pair != None && e.ranOn.pair == b.pair && e.ranOn.capUsd == b.capUsd
    && e.probe && b.probing && EvidenceOf(e.result) == Failed
  }

  /** How many probes failed since the trip, after the event. */
  function FailedProbes(b: Breaker, k: nat, e: Event, policy: Policy): nat {
    if Serving(Step(b, e, policy)) then 0 else if FailsProbe(b, e) then k + 1 else k
  }

  function Doubled(c: nat, k: nat): nat {
    if k == 0 then c else 2 * Doubled(c, k - 1)
  }

  /** What every run keeps; `k` counts the failed probes since the trip. */
  ghost predicate Kept(b: Breaker, k: nat, policy: Policy) {
    && (b.probeAt == None ==> b.failures < policy.failureLimit && b.cooldownMs == 0 && !b.probing && k == 0)
    && (b.probeAt != None ==> b.pair != None && b.failures >= policy.failureLimit)
    && (b.probeAt != None ==> b.cooldownMs == Min(Doubled(policy.cooldownMs, k), policy.maxCooldownMs))
    && (b.pair == None ==> b == IDLE)
  }

  /** A run: the events, each allowed where it happens. */
  ghost predicate Runs(b: Breaker, events: seq<Event>, policy: Policy)
    decreases |events|
  {
    events == [] || (Allowed(b, events[0]) && Runs(Step(b, events[0], policy), events[1..], policy))
  }

  function After(b: Breaker, events: seq<Event>, policy: Policy): Breaker
    decreases |events|
  {
    if events == [] then b else After(Step(b, events[0], policy), events[1..], policy)
  }

  function ProbesAfter(b: Breaker, k: nat, events: seq<Event>, policy: Policy): nat
    decreases |events|
  {
    if events == [] then k else ProbesAfter(Step(b, events[0], policy), FailedProbes(b, k, events[0], policy), events[1..], policy)
  }

  lemma {:induction false} DoubledGrows(c: nat, k: nat)
    ensures Doubled(c, k) >= c
  {
    if k > 0 {
      DoubledGrows(c, k - 1);
    }
  }

  lemma StepKeeps(b: Breaker, k: nat, e: Event, policy: Policy)
    requires policy.Sane() && Kept(b, k, policy) && Allowed(b, e)
    ensures Kept(Step(b, e, policy), FailedProbes(b, k, e, policy), policy)
  {
    if FailsProbe(b, e) {
      assert Doubled(policy.cooldownMs, k + 1) == 2 * Doubled(policy.cooldownMs, k);
    }
    assert Doubled(policy.cooldownMs, 0) == policy.cooldownMs;
  }

  /** Over any run from the idle breaker: a trusted breaker is below the failure limit with no
      cool-down, a probing one is demoted with a pair engaged, and after `k` failed probes since the
      trip the cool-down is the first one doubled `k` times, capped. */
  lemma {:induction false} RunKeeps(b: Breaker, k: nat, events: seq<Event>, policy: Policy)
    requires policy.Sane() && Kept(b, k, policy) && Runs(b, events, policy)
    ensures Kept(After(b, events, policy), ProbesAfter(b, k, events, policy), policy)
    decreases |events|
  {
    hide Kept, Step, Allowed, FailedProbes;
    if events != [] {
      StepKeeps(b, k, events[0], policy);
      RunKeeps(Step(b, events[0], policy), FailedProbes(b, k, events[0], policy), events[1..], policy);
    }
  }

  lemma IdleKept(policy: Policy)
    requires policy.Sane()
    ensures Kept(IDLE, 0, policy)
  {
  }

  /** A reachable breaker: what observers and the gate may rely on. */
  lemma ReachableFacts(events: seq<Event>, policy: Policy)
    requires policy.Sane() && Runs(IDLE, events, policy)
    ensures var b, k := After(IDLE, events, policy), ProbesAfter(IDLE, 0, events, policy);
      && (Serving(b) ==> b.failures < policy.failureLimit && b.cooldownMs == 0)
      && (b.probing ==> !Serving(b) && b.pair != None)
      && (!Serving(b) ==> b.failures >= policy.failureLimit && policy.cooldownMs <= b.cooldownMs <= policy.maxCooldownMs)
      && (!Serving(b) ==> b.cooldownMs == Min(Doubled(policy.cooldownMs, k), policy.maxCooldownMs))
      // nothing is stuck: once the cool-down is over a probe is due, unless one is in flight
      && (!Serving(b) && !b.probing ==> ProbeDue(b, b.probeAt.value))
  {
    IdleKept(policy);
    RunKeeps(IDLE, 0, events, policy);
    DoubledGrows(policy.cooldownMs, ProbesAfter(IDLE, 0, events, policy));
  }

  /** What one reported run tells, field by field. Only a run on the engaged pair at the engaged cap
      counts: an `error` is a failure, a result that takes a model reply is a success, and everything
      else says nothing, except that a probe then gives its slot back. No run changes the subject. */
  lemma RunTells(b: Breaker, ranOn: Breaker, result: RunResult, probe: bool, now: int, policy: Policy)
    requires b.probing ==> !Serving(b)
    ensures var r := Record(b, ranOn, result, probe, now, policy);
      var current := ranOn.pair != None && ranOn.pair == b.pair && ranOn.capUsd == b.capUsd;
      var failed := current && result == ErrorRun;
      var served := current && (result.Queued? || result.Changed? || result.NoChange? || result.RefusedRun? || result.Rejected?);
      var failedProbe := failed && probe && b.probing;
      var trips := failed && Serving(b) && b.failures + 1 >= policy.failureLimit;
      && r.pair == b.pair && r.capUsd == b.capUsd
      && r.failures == (if served then 0 else if failed then b.failures + 1 else b.failures)
      && (r.probing <==> b.probing && !served && !(current && probe))
      && r.cooldownMs == (if served then 0 else if trips then policy.cooldownMs
                          else if failedProbe then Min(2 * b.cooldownMs, policy.maxCooldownMs) else b.cooldownMs)
      && r.probeAt == (if served then None else if trips || failedProbe then Some(now + r.cooldownMs) else b.probeAt)
  {
  }

  /** The same subject keeps its judgment at every poll; a new pair, a new cap or no pair starts
      trusted, with nothing counted and no probe in flight. */
  lemma NewSubjectIsTrusted(b: Breaker, pair: Option<string>, capUsd: real)
    ensures var r := Rekey(b, pair, capUsd);
      && r.pair == pair
      && (pair == b.pair && (pair == None || capUsd == b.capUsd) ==> r == b)
      && (pair != b.pair || (pair != None && capUsd != b.capUsd) ==> Serving(r) && !r.probing && r.failures == 0 && r.cooldownMs == 0)
      && (pair != None ==> r.capUsd == capUsd)
  {
  }

  /** While an admitted probe runs no other is due; when it never ran, giving it back restores the
      breaker, so the probe is due again. */
  lemma AbandonedProbeIsDueAgain(b: Breaker, now: int, later: int)
    requires ProbeDue(b, now)
    ensures !ProbeDue(StartProbe(b), later) && AbandonProbe(StartProbe(b)) == b
    ensures later >= now ==> ProbeDue(AbandonProbe(StartProbe(b)), later)
  {
  }

  /** A run that served closes the breaker from any state, as long as its subject is still engaged. */
  lemma ServedCloses(b: Breaker, ranOn: Breaker, result: RunResult, probe: bool, now: int, policy: Policy)
    requires ranOn.pair != None && ranOn.pair == b.pair && ranOn.capUsd == b.capUsd && EvidenceOf(result) == Served
    ensures var r := Record(b, ranOn, result, probe, now, policy);
      Serving(r) && !r.probing && r.failures == 0 && r.cooldownMs == 0 && r.pair == b.pair && r.capUsd == b.capUsd
  {
  }

  /** A demoted breaker's cool-down is moved by failed probes alone: no straggler, whatever it started
      under, shortens or restarts it. */
  lemma StragglersLeaveCooldown(b: Breaker, e: Event, policy: Policy)
    requires !Serving(b) && !FailsProbe(b, e) && !Serving(Step(b, e, policy))
    ensures Step(b, e, policy).probeAt == b.probeAt && Step(b, e, policy).cooldownMs == b.cooldownMs
  {
  }

  /** After a failed probe the next one waits out the whole new cool-down. */
  lemma FailedProbeWaits(b: Breaker, e: Event, later: int, policy: Policy)
    requires FailsProbe(b, e) && later < e.now + Min(2 * b.cooldownMs, policy.maxCooldownMs)
    ensures !ProbeDue(Step(b, e, policy), later)
  {
  }

  /** `failureLimit` failures in a row, none of them a probe and none before it serving, trip a
      trusted breaker: the last one starts the first cool-down, none before it does. */
  lemma {:induction false} FailuresInARowTrip(b: Breaker, events: seq<Event>, policy: Policy)
    requires policy.Sane() && Serving(b) && !b.probing && b.pair != None && b.failures + |events| <= policy.failureLimit
    requires forall e | e in events :: e.RunRecorded? && e.ranOn.pair == b.pair && e.ranOn.capUsd == b.capUsd && EvidenceOf(e.result) == Failed
    ensures var r := After(b, events, policy);
      && (Serving(r) <==> b.failures + |events| < policy.failureLimit || events == [])
      && (!Serving(r) ==> r.probeAt == Some(events[|events| - 1].now + policy.cooldownMs))
      && r.failures == b.failures + |events|
    decreases |events|
  {
    if events != [] {
      var e := events[0];
      assert e in events && forall x | x in events[1..] :: x in events;
      var next := Step(b, e, policy);
      if b.failures + 1 < policy.failureLimit {
        FailuresInARowTrip(next, events[1..], policy);
      } else {
        assert events[1..] == [];
      }
    }
  }

  // ---------------------------------------------------------------- the map of pairs

  /** The breaker of each resolved pair, in the map's own order. */
  datatype Breakers = Breakers(order: seq<string>, at: map<string, Breaker>) {
    ghost predicate Valid() {
      && (forall p :: p in order <==> p in at)
      && (forall i, j | 0 <= i < j < |order| :: order[i] != order[j])
      && forall p | p in at :: at[p].pair == Some(p)
    }
  }

  /** A pair without an entry is a breaker nothing is engaged on. */
  function Single(m: Breakers, pair: string): Breaker {
    if pair in m.at then m.at[pair] else IDLE
  }

  /** The entry a poll gives a pair. */
  function EntryFor(m: Breakers, pair: string, capUsd: real): Breaker {
    Rekey(if pair in m.at then m.at[pair] else IDLE.(pair := Some(pair), capUsd := capUsd), Some(pair), capUsd)
  }

  /** `rekeyFallbackBreakers`: one loop over the resolved pairs; a repeated pair keeps its place. */
  method RekeyBreakers(m: Breakers, pairs: seq<string>, capUsd: real) returns (next: Breakers)
    requires m.Valid()
    ensures next.Valid()
    ensures forall p :: p in next.at <==> p in pairs
    ensures forall p :: Single(next, p) == Rekey(Single(m, p), if p in pairs then Some(p) else None, capUsd)
  {
    next := Breakers([], map[]);
    for i := 0 to |pairs|
      invariant next.Valid()
      invariant forall p :: p in next.at <==> p in pairs[..i]
      invariant forall p | p in next.at :: next.at[p] == EntryFor(m, p, capUsd)
    {
      var pair := pairs[i];
      assert pairs[..i + 1] == pairs[..i] + [pair];
      var order := if pair in next.at then next.order else next.order + [pair];
      next := Breakers(order, next.at[pair := EntryFor(m, pair, capUsd)]);
    }
    assert pairs[..|pairs|] == pairs;
  }

  /** The pair is due and no pair before it in map order is. */
  ghost predicate FirstDue(m: Breakers, now: int, pair: string) {
    exists i | 0 <= i < |m.order| ::
      m.order[i] == pair && ProbeDue(Single(m, pair), now) && forall j | 0 <= j < i :: !ProbeDue(Single(m, m.order[j]), now)
  }

  /** `fallbackProbeDuePair`: the first due entry in map order. */
  method ProbeDuePair(m: Breakers, now: int) returns (r: Option<string>)
    requires m.Valid()
    ensures r == None <==> forall p :: !ProbeDue(Single(m, p), now)
    ensures r != None ==> FirstDue(m, now, r.value)
  {
    for i := 0 to |m.order|
      invariant forall j | 0 <= j < i :: !ProbeDue(Single(m, m.order[j]), now)
    {
      var pair := m.order[i];
      assert pair in m.order;
      if ProbeDue(m.at[pair], now) {
        assert ProbeDue(Single(m, pair), now);
        return Some(pair);
      }
    }
    forall p ensures !ProbeDue(Single(m, p), now) {
      if p in m.at {
        var i :| 0 <= i < |m.order| && m.order[i] == p;
      }
    }
    r := None;
  }

  /** `withPair`: a pair the resolution dropped has no judgment to touch. */
  function WithPair(m: Breakers, pair: string, f: Breaker -> Breaker): Breakers {
    if pair in m.at then m.(at := m.at[pair := f(m.at[pair])]) else m
  }

  function StartProbeAt(m: Breakers, pair: string): Breakers {
    WithPair(m, pair, StartProbe)
  }

  function AbandonProbeAt(m: Breakers, pair: string): Breakers {
    WithPair(m, pair, AbandonProbe)
  }

  function RecordAt(m: Breakers, pair: string, ranOn: Breaker, result: RunResult, probe: bool, now: int, policy: Policy): Breakers {
    WithPair(m, pair, b => Record(b, ranOn, result, probe, now, policy))
  }

  /** What `RekeyBreakers` computes, for runs of the whole map. */
  ghost predicate IsRekeyed(m: Breakers, pairs: seq<string>, capUsd: real, next: Breakers) {
    && next.Valid() && (forall p :: p in next.at <==> p in pairs)
    && forall p :: Single(next, p) == Rekey(Single(m, p), if p in pairs then Some(p) else None, capUsd)
  }

  datatype MapEvent =
    | MapRekeyed(pairs: seq<string>, capUsd: real)
    | MapProbeStarted(pair: string, now: int)
    | MapProbeAbandoned(pair: string)
    | MapRunRecorded(pair: string, ranOn: Breaker, result: RunResult, probe: bool, now: int)

  ghost predicate MapStep(m: Breakers, e: MapEvent, next: Breakers, policy: Policy) {
    match e
    case MapRekeyed(pairs, capUsd) => IsRekeyed(m, pairs, capUsd, next)
    case MapProbeStarted(pair, now) => ProbeDue(Single(m, pair), now) && next == StartProbeAt(m, pair)
    case MapProbeAbandoned(pair) => next == AbandonProbeAt(m, pair)
    case MapRunRecorded(pair, ranOn, result, probe, now) => next == RecordAt(m, pair, ranOn, result, probe, now, policy)
  }

  /** What a map event is to one pair's own breaker. */
  function Seen(e: MapEvent, pair: string): Event {
    match e
    case MapRekeyed(pairs, capUsd) => Rekeyed(if pair in pairs then Some(pair) else None, capUsd)
    case MapProbeStarted(p, now) => if p == pair then ProbeStarted(now) else Untouched
    case MapProbeAbandoned(p) => if p == pair then ProbeAbandoned else Untouched
    case MapRunRecorded(p, ranOn, result, probe, now) => if p == pair then RunRecorded(ranOn, result, probe, now) else Untouched
  }

  function SeenAll(events: seq<MapEvent>, pair: string): seq<Event> {
    if events == [] then [] else [Seen(events[0], pair)] + SeenAll(events[1..], pair)
  }

  /** One map operation is, for every pair, that pair's own transition. */
  lemma MapStepRefines(m: Breakers, e: MapEvent, next: Breakers, pair: string, policy: Policy)
    requires m.Valid() && MapStep(m, e, next, policy)
    ensures Single(next, pair) == Step(Single(m, pair), Seen(e, pair), policy)
    ensures Allowed(Single(m, pair), Seen(e, pair))
  {
    hide Breakers.Valid;
    if e.MapRunRecorded? && pair !in m.at {
      IdleUnmoved(e.ranOn, e.result, e.probe, e.now, policy);
    }
  }

  lemma IdleUnmoved(ranOn: Breaker, result: RunResult, probe: bool, now: int, policy: Policy)
    ensures Record(IDLE, ranOn, result, probe, now, policy) == IDLE
  {
  }

  lemma MapStepValid(m: Breakers, e: MapEvent, next: Breakers, policy: Policy)
    requires m.Valid() && MapStep(m, e, next, policy)
    ensures next.Valid()
  {
    match e
    case MapRekeyed(_, _) =>
    case MapProbeStarted(pair, _) => WithPairValid(m, pair, StartProbe);
    case MapProbeAbandoned(pair) => WithPairValid(m, pair, AbandonProbe);
    case MapRunRecorded(pair, ranOn, result, probe, now) =>
      WithPairValid(m, pair, b => Record(b, ranOn, result, probe, now, policy));
  }

  lemma WithPairValid(m: Breakers, pair: string, f: Breaker -> Breaker)
    requires m.Valid() && forall b :: f(b).pair == b.pair
    ensures WithPair(m, pair, f).Valid()
  {
  }

  /** A run of the map: `states[0]` is the start, each next one a step. */
  ghost predicate MapRuns(states: seq<Breakers>, events: seq<MapEvent>, policy: Policy) {
    && |states| == |events| + 1 && states[0].Valid()
    && forall i | 0 <= i < |events| :: MapStep(states[i], events[i], states[i + 1], policy)
  }

  lemma MapRunsTail(states: seq<Breakers>, events: seq<MapEvent>, policy: Policy)
    requires MapRuns(states, events, policy) && events != []
    ensures MapRuns(states[1..], events[1..], policy) && MapStep(states[0], events[0], states[1], policy) && states[0].Valid()
  {
    hide MapStep;
    forall i | 0 <= i < |events[1..]| ensures MapStep(states[1..][i], events[1..][i], states[1..][i + 1], policy) {
      assert MapStep(states[i + 1], events[i + 1], states[i + 2], policy);
    }
    assert MapStep(states[0], events[0], states[0 + 1], policy);
    MapStepValid(states[0], events[0], states[1], policy);
  }

  /** Every run of the map is, pair by pair, a run of an independent single breaker. */
  lemma {:induction false} MapRunRefines(states: seq<Breakers>, events: seq<MapEvent>, pair: string, policy: Policy)
    requires MapRuns(states, events, policy)
    ensures Runs(Single(states[0], pair), SeenAll(events, pair), policy)
    ensures Single(states[|events|], pair) == After(Single(states[0], pair), SeenAll(events, pair), policy)
    decreases |events|
  {
    hide MapStep, Single, Seen, Step, Allowed;
    if events != [] {
      MapRunsTail(states, events, policy);
      MapStepRefines(states[0], events[0], states[1], pair, policy);
      MapRunRefines(states[1..], events[1..], pair, policy);
      var seen := SeenAll(events, pair);
      assert seen[1..] == SeenAll(events[1..], pair) && seen[0] == Seen(events[0], pair);
    }
  }

  /** So every entry of a reachable map satisfies what a reachable single breaker does. */
  lemma MapRunKeeps(states: seq<Breakers>, events: seq<MapEvent>, pair: string, policy: Policy)
    requires policy.Sane() && MapRuns(states, events, policy) && states[0] == Breakers([], map[])
    ensures Kept(Single(states[|events|], pair), ProbesAfter(IDLE, 0, SeenAll(events, pair), policy), policy)
  {
    hide Kept, MapRuns, Runs, After;
    MapRunRefines(states, events, pair, policy);
    IdleKept(policy);
    RunKeeps(IDLE, 0, SeenAll(events, pair), policy);
  }
}
