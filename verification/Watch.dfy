/** The main watch (src/baseline/main-watch.ts) and its bisection. */
module Watch {
  import opened Wrappers

  // Polls start a rules pass and a full-check pass, each behind its own in-flight guard; the rules pass
  // judges main's commits one by one, the full pass keeps the red spell, and a bisection names its
  // opener. Commits are positions on main's first-parent chain; git, the checks and the re-runs are inputs.

  // ---------------------------------------------------------------- the rules pass

  /** A rules pass under way: the newest head judged or claimed before it, and the head it was started for. */
  datatype RulesFlight = RulesFlight(previous: Option<nat>, head: nat)

  /** `lastRulesWatched`, the pass in flight, and the commits judged so far, in order. */
  datatype Rules = Rules(last: Option<nat>, flight: Option<RulesFlight>, judged: seq<nat>)

  /** A poll that is not held starts a pass unless one is in flight or the head is covered. */
  function RulesPolled(r: Rules, head: nat, held: bool): Rules {
    if held || r.flight.Some? || r.last == Some(head) then r
    else r.(last := Some(head), flight := Some(RulesFlight(r.last, head)))
  }

  function Range(from: nat, stop: nat): (s: seq<nat>)
    ensures |s| == if from < stop then stop - from else 0
    ensures forall i | 0 <= i < |s| :: s[i] == from + i
    decreases if from < stop then stop - from else 0
  {
    if from >= stop then [] else [from] + Range(from + 1, stop)
  }

  /** The commits a pass walks, oldest first; only before the first watched head the tip alone. */
  function Walk(previous: Option<nat>, tip: nat): seq<nat> {
    if previous.None? then [tip] else Range(previous.value + 1, tip + 1)
  }

  /** What of the walk is judged: everything up to and with the first finding. */
  function JudgedOf(walk: seq<nat>, finding: nat -> bool): (j: seq<nat>)
    ensures j <= walk && (walk != [] ==> j != [])
  {
    if walk == [] then [] else if finding(walk[0]) then [walk[0]] else [walk[0]] + JudgedOf(walk[1..], finding)
  }

  /** The walk goes on to the tip, or stops at its first finding. */
  lemma JudgedStops(previous: Option<nat>, tip: nat, finding: nat -> bool)
    ensures var j := JudgedOf(Walk(previous, tip), finding);
      && (forall i | 0 <= i < |j| - 1 :: !finding(j[i]))
      && (j != [] ==> finding(j[|j| - 1]) || j[|j| - 1] == tip)
  {
    var walk := Walk(previous, tip);
    StopsAtFinding(walk, finding);
    assert walk != [] ==> walk[|walk| - 1] == tip;
  }

  lemma {:induction false} StopsAtFinding(walk: seq<nat>, finding: nat -> bool)
    ensures var j := JudgedOf(walk, finding);
      && (forall i | 0 <= i < |j| - 1 :: !finding(j[i]))
      && (j != [] ==> finding(j[|j| - 1]) || j == walk)
  {
    if walk != [] && !finding(walk[0]) {
      StopsAtFinding(walk[1..], finding);
      var rest := JudgedOf(walk[1..], finding);
      assert walk == [walk[0]] + walk[1..] && JudgedOf(walk, finding) == [walk[0]] + rest;
      assert |walk| > 1 ==> rest != [];
    }
  }

  /** The pass ends on the mirror's tip: it marks the newest commit it judged, or the tip when there was
      none to judge. */
  function RulesEnded(r: Rules, tip: nat, finding: nat -> bool): Rules
    requires r.flight.Some?
  {
    var j := JudgedOf(Walk(r.flight.value.previous, tip), finding);
    Rules(Some(if j == [] then tip else j[|j| - 1]), None, r.judged + j)
  }

  /** Main's head and the rules pass; main only grows. */
  datatype RulesWorld = RulesWorld(head: nat, rules: Rules)

  datatype RulesStep = Grows(head: nat) | Polls(held: bool) | PassEnds(tip: nat, finding: nat -> bool)

  /** The mirror a pass judges is on main's tip at some moment since the poll. */
  ghost predicate RulesStepped(w: RulesWorld, s: RulesStep, w': RulesWorld) {
    match s
    case Grows(head) => head >= w.head && w' == w.(head := head)
    case Polls(held) => w' == w.(rules := RulesPolled(w.rules, w.head, held))
    case PassEnds(tip, finding) =>
      && w.rules.flight.Some? && w.rules.flight.value.head <= tip <= w.head
      && w' == w.(rules := RulesEnded(w.rules, tip, finding))
  }

  /** Consecutive commits, none twice. */
  ghost predicate Contiguous(judged: seq<nat>) {
    forall i | 0 <= i < |judged| :: judged[i] == judged[0] + i
  }

  /** The newest commit judged, or none yet. */
  function Newest(judged: seq<nat>): Option<nat> {
    if judged == [] then None else Some(judged[|judged| - 1])
  }

  ghost predicate RulesKept(w: RulesWorld) {
    var r := w.rules;
    && Contiguous(r.judged)
    && (r.judged != [] ==> Newest(r.judged).value <= w.head)
    && (r.flight.None? ==> r.last == Newest(r.judged))
    && (r.flight.Some? ==> r.flight.value.previous == Newest(r.judged) && r.last == Some(r.flight.value.head))
    && (r.flight.Some? && r.judged != [] ==> Newest(r.judged).value <= r.flight.value.head)
    && (r.flight.Some? ==> r.flight.value.head <= w.head)
  }

  lemma WalkContinues(judged: seq<nat>, tip: nat, finding: nat -> bool)
    requires Contiguous(judged) && (judged != [] ==> Newest(judged).value <= tip)
    ensures var j := JudgedOf(Walk(Newest(judged), tip), finding);
      && Contiguous(judged + j)
      && Newest(judged + j) == Some(if j == [] then tip else j[|j| - 1])
      && Newest(judged + j).value <= tip
  {
    var walk := Walk(Newest(judged), tip);
    var j := JudgedOf(walk, finding);
    var all := judged + j;
    forall i | 0 <= i < |all| ensures all[i] == all[0] + i {
      if i >= |judged| {
        assert all[i] == j[i - |judged|] == walk[i - |judged|];
      }
    }
    if judged != [] && j == [] {
      assert walk == [];
      assert judged + j == judged;
    }
  }

  lemma RulesStepKeeps(w: RulesWorld, s: RulesStep, w': RulesWorld)
    requires RulesKept(w) && RulesStepped(w, s, w')
    ensures RulesKept(w')
    ensures w.rules.judged <= w'.rules.judged
  {
    if s.PassEnds? {
      WalkContinues(w.rules.judged, s.tip, s.finding);
    }
  }

  ghost predicate RulesRun(worlds: seq<RulesWorld>, steps: seq<RulesStep>) {
    && |worlds| == |steps| + 1 && worlds[0].rules == Rules(None, None, [])
    && forall i | 0 <= i < |steps| :: RulesStepped(worlds[i], steps[i], worlds[i + 1])
  }

  /** In any run of polls, growth and pass completions the commits judged are one contiguous stretch of
      the chain, each exactly once and in order, though a pass was busy when a head arrived, the mirror
      had moved on, or a finding stopped a walk midway. When no pass is in flight and the head is
      covered, the stretch reaches the head. */
  lemma {:induction false} JudgedOnceInOrder(worlds: seq<RulesWorld>, steps: seq<RulesStep>, n: nat)
    requires RulesRun(worlds, steps) && n < |worlds|
    ensures RulesKept(worlds[n])
    ensures Contiguous(worlds[n].rules.judged)
    ensures worlds[n].rules.flight.None? && worlds[n].rules.last == Some(worlds[n].head) ==>
              worlds[n].rules.judged != [] && worlds[n].rules.judged[|worlds[n].rules.judged| - 1] == worlds[n].head
  {
    hide RulesStepped;
    if n > 0 {
      JudgedOnceInOrder(worlds, steps, n - 1);
      assert RulesStepped(worlds[n - 1], steps[n - 1], worlds[n - 1 + 1]);
      RulesStepKeeps(worlds[n - 1], steps[n - 1], worlds[n]);
    }
  }

  /** A head the rules have not covered is not lost: an idle watch's next poll starts a pass, and that
      pass judges at least the next commit. */
  lemma UncoveredHeadIsJudged(w: RulesWorld, tip: nat, finding: nat -> bool)
    requires RulesKept(w) && w.rules.flight.None? && w.rules.last != Some(w.head) && tip >= w.head
    ensures var polled := RulesPolled(w.rules, w.head, false);
      && polled.flight.Some?
      && |RulesEnded(polled, tip, finding).judged| > |w.rules.judged|
  {
  }

  // ---------------------------------------------------------------- the red spell

  /** An open red: the commit that opened it and the tests still failing. */
  datatype Spell = Spell(opener: nat, tests: seq<string>)

  datatype WatchEvent =
    | CheckPassed(sha: nat, cleared: bool)
    | CheckFailed(sha: nat, tests: seq<string>)
    | MainCulprit(commit: nat)

  /** The spell, main's known failures and the events logged. */
  datatype RedState = RedState(spell: Option<Spell>, known: seq<string>, log: seq<WatchEvent>)

  /** What the declared check came to on a tree, the opener `settleOpener` would name for it, and
      whether a red names only quarantined tests. */
  datatype Check = NoVerdict | GreenAt(sha: nat) | RedAt(sha: nat, tests: seq<string>, quarantinedOnly: bool, opener: nat)

  datatype Plan = SkipUntil(dueAt: int, anchor: nat) | Due

  /** One full pass: its due decision, the re-run of the open failures (none when it reaches no verdict),
      the check, and the confirming check of a cleared red (none without a build check). */
  datatype Pass = Pass(tip: nat, plan: Plan, rerun: Option<seq<string>>, check: Check, confirm: Option<Check>)

  function StillFailing(tests: seq<string>, failing: seq<string>): (r: seq<string>)
    ensures forall t | t in r :: t in tests && t in failing
    ensures forall t | t in tests && t in failing :: t in r
    ensures |r| <= |tests|
  {
    if tests == [] then [] else (if tests[0] in failing then [tests[0]] else []) + StillFailing(tests[1..], failing)
  }

  /** A settled verdict: not red closes the spell; red opens one, or re-settles the open one's tests. */
  function Settled(s: RedState, c: Check): RedState {
    match c
    case NoVerdict => s
    case GreenAt(sha) => RedState(None, [], s.log + [CheckPassed(sha, false)])
    case RedAt(sha, tests, quarantinedOnly, opener) =>
      if quarantinedOnly then RedState(None, [], s.log + [CheckPassed(sha, false)])
      else if s.spell.Some? then RedState(Some(s.spell.value.(tests := tests)), tests, s.log + [CheckFailed(sha, tests)])
      else RedState(Some(Spell(opener, tests)), tests, s.log + [CheckFailed(opener, tests), MainCulprit(opener)])
  }

  /** `narrowOpenRed` once its re-run has a verdict. */
  function Narrowed(s: RedState, p: Pass, failing: seq<string>): RedState
    requires s.spell.Some?
  {
    var still := StillFailing(s.spell.value.tests, failing);
    if still != [] then RedState(Some(s.spell.value.(tests := still)), still, s.log + [CheckFailed(s.spell.value.opener, still)])
    else
      var cleared := RedState(None, [], s.log + [CheckPassed(p.tip, true)]);
      if p.confirm.None? then cleared else Settled(cleared, p.confirm.value)
  }

  /** `fullPass`. */
  function FullPassed(s: RedState, p: Pass): RedState {
    if p.plan.SkipUntil? then s
    else if s.spell.Some? && p.rerun.Some? then Narrowed(s, p, p.rerun.value)
    else Settled(s, p.check)
  }

  /** The head that counts as watched after a full pass. */
  function WatchedAfter(s: RedState, p: Pass): nat {
    if p.plan.SkipUntil? then p.tip
    else if s.spell.Some? && p.rerun.Some? then
      if StillFailing(s.spell.value.tests, p.rerun.value) != [] || p.confirm.None? then p.tip else WatchedAt(p.confirm.value, p.tip)
    else WatchedAt(p.check, p.tip)
  }

  function WatchedAt(c: Check, tip: nat): nat {
    if c.NoVerdict? then tip else c.sha
  }

  /** What a check's verdict makes of the watch. Without one nothing changes; a green, or a red of
      quarantined tests only, leaves no spell and no known failure; any other red opens a spell with its
      tests and names one culprit, or gives an open one its tests and names none. */
  ghost predicate Judges(s: RedState, c: Check, s': RedState) {
    if c.NoVerdict? then s' == s
    else if c.GreenAt? || c.quarantinedOnly then
      s'.spell == None && s'.known == [] && s'.log == s.log + [CheckPassed(c.sha, false)]
    else if s.spell == None then
      s'.spell == Some(Spell(c.opener, c.tests)) && s'.known == c.tests && s'.log == s.log + [CheckFailed(c.opener, c.tests), MainCulprit(c.opener)]
    else
      s'.spell == Some(Spell(s.spell.value.opener, c.tests)) && s'.known == c.tests && s'.log == s.log + [CheckFailed(c.sha, c.tests)]
  }

  /** `still` is what of `tests` failed again, in order. */
  ghost predicate FailedAgain(tests: seq<string>, failing: seq<string>, still: seq<string>) {
    if tests == [] then still == []
    else if tests[0] in failing then still != [] && still[0] == tests[0] && FailedAgain(tests[1..], failing, still[1..])
    else FailedAgain(tests[1..], failing, still)
  }

  /** What a full pass does: nothing while it is not due; with open failures re-run, the spell narrows to
      those that failed again, or clears and goes to the confirming check; else the check judges. */
  ghost predicate PassJudges(s: RedState, p: Pass, s': RedState) {
    if p.plan.SkipUntil? then s' == s
    else if s.spell == None || p.rerun == None then Judges(s, p.check, s')
    else if exists t :: t in s.spell.value.tests && t in p.rerun.value then
      && s'.spell.Some? && s'.spell.value.opener == s.spell.value.opener
      && FailedAgain(s.spell.value.tests, p.rerun.value, s'.spell.value.tests) && s'.known == s'.spell.value.tests
      && s'.log == s.log + [CheckFailed(s.spell.value.opener, s'.known)]
    else
      var cleared := RedState(None, [], s.log + [CheckPassed(p.tip, true)]);
      if p.confirm == None then s' == cleared else Judges(cleared, p.confirm.value, s')
  }

  lemma {:induction false} StillIs(tests: seq<string>, failing: seq<string>)
    ensures FailedAgain(tests, failing, StillFailing(tests, failing))
    ensures StillFailing(tests, failing) == [] <==> !exists t :: t in tests && t in failing
  {
    if tests != [] {
      StillIs(tests[1..], failing);
      var rest := StillFailing(tests[1..], failing);
      assert ([tests[0]] + rest)[1..] == rest && [] + rest == rest;
      assert forall t :: t in tests <==> t == tests[0] || t in tests[1..];
    }
  }

  lemma FullPassJudges(s: RedState, p: Pass)
    ensures PassJudges(s, p, FullPassed(s, p))
  {
    hide FailedAgain, StillFailing;
    if s.spell.Some? && p.rerun.Some? {
      StillIs(s.spell.value.tests, p.rerun.value);
    }
  }

  /** The opener the log says is open: a pass closes, a culprit opens. */
  function OpenIn(log: seq<WatchEvent>): Option<nat> {
    if log == [] then None
    else match log[|log| - 1]
      case CheckPassed(_, _) => None
      case MainCulprit(commit) => Some(commit)
      case CheckFailed(_, _) => OpenIn(log[..|log| - 1])
  }

  /** Every culprit is named while no spell is open. */
  ghost predicate OncePerSpell(log: seq<WatchEvent>) {
    log == [] || (OncePerSpell(log[..|log| - 1]) && (log[|log| - 1].MainCulprit? ==> OpenIn(log[..|log| - 1]).None?))
  }

  /** The log, the spell and the known failures tell the same story. */
  ghost predicate RedKept(s: RedState) {
    && OncePerSpell(s.log)
    && OpenIn(s.log) == (if s.spell.Some? then Some(s.spell.value.opener) else None)
    && s.known == if s.spell.Some? then s.spell.value.tests else []
  }

  lemma LogSnoc(log: seq<WatchEvent>, e: WatchEvent)
    ensures OpenIn(log + [e]) == match e case CheckPassed(_, _) => None case MainCulprit(c) => Some(c) case CheckFailed(_, _) => OpenIn(log)
    ensures OncePerSpell(log + [e]) <==> OncePerSpell(log) && (e.MainCulprit? ==> OpenIn(log).None?)
  {
    assert (log + [e])[..|log|] == log;
  }

  lemma SettledKeeps(s: RedState, c: Check)
    requires RedKept(s)
    ensures RedKept(Settled(s, c))
  {
    hide OpenIn, OncePerSpell;
    match c
    case NoVerdict =>
    case GreenAt(sha) => LogSnoc(s.log, CheckPassed(sha, false));
    case RedAt(sha, tests, quarantinedOnly, opener) =>
      LogSnoc(s.log, CheckPassed(sha, false));
      LogSnoc(s.log, CheckFailed(sha, tests));
      LogSnoc(s.log, CheckFailed(opener, tests));
      LogSnoc(s.log + [CheckFailed(opener, tests)], MainCulprit(opener));
      assert s.log + [CheckFailed(opener, tests)] + [MainCulprit(opener)] == s.log + [CheckFailed(opener, tests), MainCulprit(opener)];
  }

  lemma PassKeeps(s: RedState, p: Pass)
    requires RedKept(s)
    ensures RedKept(FullPassed(s, p))
  {
    hide OpenIn, OncePerSpell, Settled;
    SettledKeeps(s, p.check);
    if s.spell.Some? && p.rerun.Some? {
      var still := StillFailing(s.spell.value.tests, p.rerun.value);
      LogSnoc(s.log, CheckFailed(s.spell.value.opener, still));
      LogSnoc(s.log, CheckPassed(p.tip, true));
      if still == [] && p.confirm.Some? {
        SettledKeeps(RedState(None, [], s.log + [CheckPassed(p.tip, true)]), p.confirm.value);
      }
    }
  }

  function AfterPasses(s: RedState, passes: seq<Pass>): RedState
    decreases |passes|
  {
    if passes == [] then s else AfterPasses(FullPassed(s, passes[0]), passes[1..])
  }

  const QUIET := RedState(None, [], [])

  lemma {:induction false} RunKeepsRed(s: RedState, passes: seq<Pass>)
    requires RedKept(s)
    ensures RedKept(AfterPasses(s, passes))
    decreases |passes|
  {
    hide RedKept, FullPassed;
    if passes != [] {
      PassKeeps(s, passes[0]);
      RunKeepsRed(FullPassed(s, passes[0]), passes[1..]);
    }
  }

  lemma {:induction false} PrefixOncePerSpell(log: seq<WatchEvent>, n: nat)
    requires OncePerSpell(log) && n <= |log|
    ensures OncePerSpell(log[..n])
    decreases |log|
  {
    if n == |log| {
      assert log[..n] == log;
    } else {
      PrefixOncePerSpell(log[..|log| - 1], n);
      assert log[..|log| - 1][..n] == log[..n];
    }
  }

  /** Over any run each spell emits one `main_culprit`: between any two of them main was seen green or
      cleared. */
  lemma OneCulpritPerSpell(passes: seq<Pass>, i: nat, j: nat)
    requires i < j < |AfterPasses(QUIET, passes).log|
    requires AfterPasses(QUIET, passes).log[i].MainCulprit? && AfterPasses(QUIET, passes).log[j].MainCulprit?
    ensures exists k :: i < k < j && AfterPasses(QUIET, passes).log[k].CheckPassed?
  {
    hide OpenIn, OncePerSpell, AfterPasses;
    var log := AfterPasses(QUIET, passes).log;
    QuietKept();
    RunKeepsRed(QUIET, passes);
    PrefixOncePerSpell(log, j + 1);
    assert log[..j + 1] == log[..j] + [log[j]];
    LogSnoc(log[..j], log[j]);
    assert log[..j][..i + 1] == log[..i] + [log[i]];
    LogSnoc(log[..i], log[i]);
    OpenUntilSeen(log[..j], i + 1);
    var k :| i < k < |log[..j]| && log[..j][k].CheckPassed?;
    assert log[k].CheckPassed?;
  }

  lemma QuietKept()
    ensures RedKept(QUIET)
  {
  }

  /** A due full check that settled red without a re-run: the one pass that may give an open spell
      tests it did not have. */
  predicate Resets(p: Pass) {
    p.plan.Due? && p.rerun.None? && p.check.RedAt? && !p.check.quarantinedOnly
  }

  /** No check passed between the two states. */
  ghost predicate NonePassed(s: RedState, s': RedState) {
    s.log <= s'.log && forall e | e in s'.log[|s.log|..] :: !e.CheckPassed?
  }

  /** The open spell of `s` is still the one of `s'`, and with `shrunk` it has no other tests. */
  ghost predicate SpellHeld(s: RedState, s': RedState, shrunk: bool) {
    && s.spell.Some? && s'.spell.Some? && s'.spell.value.opener == s.spell.value.opener
    && s.log <= s'.log && (forall e | e in s'.log[|s.log|..] :: !e.MainCulprit?)
    && (shrunk ==> forall t | t in s'.spell.value.tests :: t in s.spell.value.tests)
  }

  lemma PassHolds(s: RedState, p: Pass)
    requires s.spell.Some?
    ensures var s' := FullPassed(s, p);
      s.log <= s'.log && (NonePassed(s, s') ==> SpellHeld(s, s', !Resets(p)))
  {
    var s' := FullPassed(s, p);
    var new_ := s'.log[|s.log|..];
    if p.plan.SkipUntil? {
    } else if p.rerun.Some? {
      var still := StillFailing(s.spell.value.tests, p.rerun.value);
      if still == [] {
        assert new_[0] == CheckPassed(p.tip, true);
      }
    } else if p.check.GreenAt? || (p.check.RedAt? && p.check.quarantinedOnly) {
      assert new_[0] == CheckPassed(p.check.sha, false);
    }
  }

  lemma PassAppends(s: RedState, p: Pass)
    ensures s.log <= FullPassed(s, p).log
  {
  }

  lemma {:induction false} RunHolds(s: RedState, passes: seq<Pass>)
    requires s.spell.Some?
    ensures var s' := AfterPasses(s, passes);
      s.log <= s'.log && (NonePassed(s, s') ==> SpellHeld(s, s', forall p | p in passes :: !Resets(p)))
    decreases |passes|
  {
    hide FullPassed, Resets;
    if passes != [] {
      var mid, s' := FullPassed(s, passes[0]), AfterPasses(s, passes);
      PassHolds(s, passes[0]);
      RunAppends(mid, passes[1..]);
      assert s'.log[|s.log|..] == mid.log[|s.log|..] + s'.log[|mid.log|..];
      if NonePassed(s, s') {
        assert forall e | e in mid.log[|s.log|..] :: e in s'.log[|s.log|..];
        assert forall e | e in s'.log[|mid.log|..] :: e in s'.log[|s.log|..];
        RunHolds(mid, passes[1..]);
        assert passes[0] in passes && forall p | p in passes[1..] :: p in passes;
      }
    }
  }

  lemma {:induction false} RunAppends(s: RedState, passes: seq<Pass>)
    ensures s.log <= AfterPasses(s, passes).log
    decreases |passes|
  {
    hide FullPassed;
    if passes != [] {
      PassAppends(s, passes[0]);
      RunAppends(FullPassed(s, passes[0]), passes[1..]);
    }
  }

  lemma {:induction false} RunSplits(s: RedState, passes: seq<Pass>, m: nat)
    requires m <= |passes|
    ensures AfterPasses(s, passes) == AfterPasses(AfterPasses(s, passes[..m]), passes[m..])
    decreases |passes|
  {
    hide FullPassed;
    if m == 0 {
      assert passes[0..] == passes;
    } else {
      assert passes[1..][..m - 1] == passes[..m][1..] && passes[1..][m - 1..] == passes[m..];
      RunSplits(FullPassed(s, passes[0]), passes[1..], m - 1);
    }
  }

  /** Between any two points of any run with no passed check logged between them, an open spell keeps
      its opener, no culprit is named, and its tests only shrink unless a due full check reset them. */
  lemma SpellOnlyShrinks(passes: seq<Pass>, m: nat, n: nat)
    requires m <= n <= |passes| && AfterPasses(QUIET, passes[..m]).spell.Some?
    ensures var s, s' := AfterPasses(QUIET, passes[..m]), AfterPasses(QUIET, passes[..n]);
      s.log <= s'.log && (NonePassed(s, s') ==> SpellHeld(s, s', forall p | p in passes[m..n] :: !Resets(p)))
  {
    hide AfterPasses, NonePassed, SpellHeld, Resets;
    RunSplits(QUIET, passes[..n], m);
    assert passes[..n][..m] == passes[..m] && passes[..n][m..] == passes[m..n];
    RunHolds(AfterPasses(QUIET, passes[..m]), passes[m..n]);
  }

  /** A spell the log has open stays open until main is seen green or cleared. */
  lemma {:induction false} OpenUntilSeen(log: seq<WatchEvent>, n: nat)
    requires n <= |log| && OpenIn(log[..n]).Some?
    ensures OpenIn(log).Some? || exists k :: n <= k < |log| && log[k].CheckPassed?
    decreases |log|
  {
    var last := |log| - 1;
    if n == |log| {
      assert log[..n] == log;
    } else if log[last].CheckFailed? {
      assert log[..last][..n] == log[..n];
      OpenUntilSeen(log[..last], n);
      if OpenIn(log[..last]).None? {
        var k :| n <= k < last && log[..last][k].CheckPassed?;
        assert log[k].CheckPassed?;
      }
    } else if log[last].CheckPassed? {
      assert n <= last < |log|;
    }
  }

  /** A new opener needs a clear: whatever any run logs after a point where a spell is open, the next
      culprit named comes after a passed check. */
  lemma NewOpenerNeedsClear(passes: seq<Pass>, m: nat, j: nat)
    requires m <= |passes| && AfterPasses(QUIET, passes[..m]).spell.Some?
    requires |AfterPasses(QUIET, passes[..m]).log| <= j < |AfterPasses(QUIET, passes).log| && AfterPasses(QUIET, passes).log[j].MainCulprit?
    ensures exists k :: |AfterPasses(QUIET, passes[..m]).log| <= k < j && AfterPasses(QUIET, passes).log[k].CheckPassed?
  {
    hide OpenIn, OncePerSpell, AfterPasses;
    var s, log := AfterPasses(QUIET, passes[..m]), AfterPasses(QUIET, passes).log;
    var n := |s.log|;
    QuietKept();
    RunKeepsRed(QUIET, passes);
    RunKeepsRed(QUIET, passes[..m]);
    RunSplits(QUIET, passes, m);
    RunAppends(s, passes[m..]);
    PrefixOncePerSpell(log, j + 1);
    assert log[..j + 1] == log[..j] + [log[j]] && log[..j][..n] == s.log;
    LogSnoc(log[..j], log[j]);
    OpenUntilSeen(log[..j], n);
    var k :| n <= k < |log[..j]| && log[..j][k].CheckPassed?;
    assert log[k].CheckPassed?;
  }

  // ---------------------------------------------------------------- the watch

  /** The walk over the range: each commit is checked out and judged in turn; `judgedThrough` is the
      newest one judged, the tip when there is none. */
  method JudgeEach(commits: seq<nat>, tip: nat, finding: nat -> bool) returns (judgedThrough: nat, ghost run: seq<nat>)
    ensures run == JudgedOf(commits, finding)
    ensures judgedThrough == if run == [] then tip else run[|run| - 1]
  {
    hide JudgedOf;
    judgedThrough := tip;
    run := [];
    NothingJudged(finding);
    assert commits[0..] == commits && commits[|commits|..] == [];
    for i := 0 to |commits|
      invariant run + JudgedOf(commits[i..], finding) == JudgedOf(commits, finding)
      invariant judgedThrough == if run == [] then tip else run[|run| - 1]
    {
      JudgeStep(commits, i, finding);
      judgedThrough := commits[i];
      run := run + [commits[i]];
      if finding(commits[i]) {
        break;
      }
    }
  }

  class MainWatch {
    var lastWatched: Option<nat>
    var fullCheckDueAt: Option<int>
    var fullCheckBase: Option<nat>
    var lastRulesWatched: Option<nat>
    var rulesInFlight: Option<RulesFlight>
    var fullInFlight: bool
    var spell: Option<Spell>
    var known: seq<string>
    var log: seq<WatchEvent>
    ghost var judged: seq<nat>

    ghost function RulesNow(): Rules
      reads this
    {
      Rules(lastRulesWatched, rulesInFlight, judged)
    }

    function RedNow(): RedState
      reads this
    {
      RedState(spell, known, log)
    }

    constructor ()
      ensures RulesNow() == Rules(None, None, []) && RedNow() == QUIET && !fullInFlight
      ensures lastWatched == None && fullCheckDueAt == None && fullCheckBase == None
    {
      lastWatched, fullCheckDueAt, fullCheckBase, lastRulesWatched := None, None, None, None;
      rulesInFlight, fullInFlight := None, false;
      spell, known, log := None, [], [];
      judged := [];
    }

    /** A suspended full check is due once its time has come, or another check saw the head red. */
    function FullDue(now: int, headRed: bool): bool
      reads this
    {
      fullCheckDueAt.Some? && (now >= fullCheckDueAt.value || headRed)
    }

    /** `poll`: each pass starts behind its own guard, so neither waits for the other. */
    method Poll(head: nat, held: bool, now: int, headRed: bool, hasCheck: bool)
      modifies this`lastRulesWatched, this`rulesInFlight, this`fullInFlight
      ensures RulesNow() == RulesPolled(old(RulesNow()), head, held)
      ensures if !held && old(rulesInFlight) == None && old(lastRulesWatched) != Some(head)
              then rulesInFlight == Some(RulesFlight(old(lastRulesWatched), head)) && lastRulesWatched == Some(head)
              else rulesInFlight == old(rulesInFlight) && lastRulesWatched == old(lastRulesWatched)
      ensures fullInFlight == (old(fullInFlight) || (!held && hasCheck && (lastWatched != Some(head) || (fullCheckDueAt != None && (now >= fullCheckDueAt.value || headRed)))))
    {
      if held {
        return;
      }
      var rulesCovered := lastRulesWatched == Some(head);
      var fullDue := FullDue(now, headRed);
      if lastWatched == Some(head) && rulesCovered && !fullDue {
        return;
      }
      if rulesInFlight.None? && !rulesCovered {
        rulesInFlight := Some(RulesFlight(lastRulesWatched, head));
        lastRulesWatched := Some(head);
      }
      if hasCheck && !fullInFlight && (lastWatched != Some(head) || fullDue) {
        fullInFlight := true;
      }
    }

    /** The rules pass: the range is walked oldest first and a finding stops the walk. */
    method RulesPass(tip: nat, finding: nat -> bool, hasCheck: bool)
      requires rulesInFlight.Some?
      modifies this`lastWatched, this`fullCheckDueAt, this`fullCheckBase, this`lastRulesWatched, this`rulesInFlight, this`judged
      ensures RulesNow() == RulesEnded(old(RulesNow()), tip, finding)
      ensures old(judged) <= judged && forall i | |old(judged)| <= i < |judged| - 1 :: !finding(judged[i])
      ensures if judged == old(judged) then lastRulesWatched == Some(tip)
              else lastRulesWatched == Some(judged[|judged| - 1]) && (finding(judged[|judged| - 1]) || judged[|judged| - 1] == tip)
      ensures hasCheck ==> lastWatched == old(lastWatched) && fullCheckDueAt == old(fullCheckDueAt) && fullCheckBase == old(fullCheckBase)
      ensures !hasCheck ==> lastWatched == lastRulesWatched && fullCheckDueAt == None && fullCheckBase == None
    {
      hide Walk, JudgedOf;
      if !hasCheck {
        lastWatched, fullCheckDueAt, fullCheckBase := Some(rulesInFlight.value.head), None, None;
      }
      ghost var run;
      var judgedThrough;
      judgedThrough, run := JudgeEach(Walk(rulesInFlight.value.previous, tip), tip, finding);
      JudgedStops(rulesInFlight.value.previous, tip, finding);
      judged := judged + run;
      lastRulesWatched := Some(judgedThrough);
      if !hasCheck {
        lastWatched := Some(judgedThrough);
      }
      rulesInFlight := None;
    }

    /** `fullPass`: the full check's verdict and the confirming one come without an opener; a fresh red's
        is settled on the spot, and one named beside an open spell goes unused. The pass as judged is
        returned. */
    method FullPass(tip: nat, plan: Plan, rerun: Option<seq<string>>, seen: Seen, confirm: Option<Seen>, trail: Trail, confirmTrail: Trail)
      returns (p: Pass)
      requires fullInFlight
      modifies this`lastWatched, this`fullCheckDueAt, this`fullCheckBase, this`fullInFlight, this`spell, this`known, this`log
      ensures p.tip == tip && p.plan == plan && p.rerun == rerun && Names(seen, trail, p.check)
      ensures if confirm.None? then p.confirm.None? else p.confirm.Some? && Names(confirm.value, confirmTrail, p.confirm.value)
      ensures PassJudges(old(RedNow()), p, RedNow())
      ensures RedNow() == FullPassed(old(RedNow()), p) && !fullInFlight
      ensures lastWatched == Some(WatchedAfter(old(RedNow()), p))
      ensures p.plan.Due? && (old(spell) == None || rerun == None) ==> lastWatched == Some(if p.check.NoVerdict? then tip else p.check.sha)
      ensures p.plan.SkipUntil? ==> lastWatched == Some(tip)
      ensures p.plan.SkipUntil? ==> fullCheckDueAt == Some(p.plan.dueAt) && fullCheckBase == Some(p.plan.anchor)
      ensures p.plan.Due? ==> fullCheckDueAt == None && fullCheckBase == None
    {
      hide FullPassed, Opened, PassJudges, StillFailing;
      var check := WithOpener(seen, trail);
      var confirmed: Option<Check> := None;
      if confirm.Some? {
        var c := WithOpener(confirm.value, confirmTrail);
        confirmed := Some(c);
      }
      p := Pass(tip, plan, rerun, check, confirmed);
      FullPassJudges(RedNow(), p);
      ApplyPass(p);
    }

    /** The full pass, from its due decision to the settled verdict. */
    method ApplyPass(p: Pass)
      requires fullInFlight
      modifies this`lastWatched, this`fullCheckDueAt, this`fullCheckBase, this`fullInFlight, this`spell, this`known, this`log
      ensures RedNow() == FullPassed(old(RedNow()), p) && !fullInFlight
      ensures lastWatched == Some(WatchedAfter(old(RedNow()), p))
      ensures p.plan.SkipUntil? ==> fullCheckDueAt == Some(p.plan.dueAt) && fullCheckBase == Some(p.plan.anchor)
      ensures p.plan.Due? ==> fullCheckDueAt == None && fullCheckBase == None
    {
      hide StillFailing;
      fullInFlight := false;
      if p.plan.SkipUntil? {
        lastWatched, fullCheckDueAt, fullCheckBase := Some(p.tip), Some(p.plan.dueAt), Some(p.plan.anchor);
        return;
      }
      lastWatched, fullCheckDueAt, fullCheckBase := Some(p.tip), None, None;
      if spell.Some? && p.rerun.Some? {
        NarrowOpenRed(p);
        return;
      }
      Settle(p.check);
    }

    method NarrowOpenRed(p: Pass)
      requires spell.Some? && p.rerun.Some? && lastWatched == Some(p.tip)
      modifies this`lastWatched, this`spell, this`known, this`log
      ensures RedNow() == Narrowed(old(RedNow()), p, p.rerun.value)
      ensures p.plan.Due? ==> lastWatched == Some(WatchedAfter(old(RedNow()), p))
    {
      hide StillFailing;
      var open := spell.value;
      var still := StillFailing(open.tests, p.rerun.value);
      if |still| > 0 {
        spell := Some(open.(tests := still));
        known := still;
        log := log + [CheckFailed(open.opener, still)];
        return;
      }
      known := [];
      spell := None;
      log := log + [CheckPassed(p.tip, true)];
      if p.confirm.Some? {
        Settle(p.confirm.value);
      }
    }

    /** `recordMainCheck`, then the spell: a verdict that is not red closes it, a red goes to `reportCulprit`. */
    method Settle(c: Check)
      modifies this`lastWatched, this`spell, this`known, this`log
      ensures RedNow() == Settled(old(RedNow()), c)
      ensures lastWatched == if c.NoVerdict? then old(lastWatched) else Some(c.sha)
    {
      if c.NoVerdict? {
        return;
      }
      lastWatched := Some(c.sha);
      var red := c.RedAt? && !c.quarantinedOnly;
      known := if red then c.tests else [];
      if !red {
        log := log + [CheckPassed(c.sha, false)];
        spell := None;
        return;
      }
      log := log + [CheckFailed(if spell.Some? then c.sha else c.opener, c.tests)];
      ReportCulprit(c.tests, c.opener);
    }

    /** An open spell keeps its opener; a fresh red is named once. */
    method ReportCulprit(tests: seq<string>, culprit: nat)
      modifies this`spell, this`log
      ensures old(spell).Some? ==> spell == Some(old(spell).value.(tests := tests)) && log == old(log)
      ensures old(spell).None? ==> spell == Some(Spell(culprit, tests)) && log == old(log) + [MainCulprit(culprit)]
    {
      if spell.Some? {
        spell := Some(spell.value.(tests := tests));
        return;
      }
      spell := Some(Spell(culprit, tests));
      log := log + [MainCulprit(culprit)];
    }
  }

  lemma NothingJudged(finding: nat -> bool)
    ensures JudgedOf([], finding) == []
  {
  }

  lemma JudgeStep(commits: seq<nat>, i: nat, finding: nat -> bool)
    requires i < |commits|
    ensures JudgedOf(commits[i..], finding) == [commits[i]] + if finding(commits[i]) then [] else JudgedOf(commits[i + 1..], finding)
    ensures commits[0..] == commits
  {
    assert commits[i..][1..] == commits[i + 1..];
  }

  // ---------------------------------------------------------------- naming the opener

  /** A re-run of only the failing tests on one commit. */
  datatype Probe = Fails | Passes | NoAnswer

  function Power(k: nat): nat {
    if k == 0 then 1 else 2 * Power(k - 1)
  }

  /** The largest `k` with `2^k <= n`. */
  function Log2(n: nat): (k: nat)
    requires n >= 1
    ensures Power(k) <= n < Power(k + 1)
  {
    if n == 1 then 0 else Log2(n / 2) + 1
  }

  /** `bisectAt`: for a fixed answer per commit the one returned fails and is the first candidate or
      directly preceded by a passing one, whether or not failure is monotone; when it is, it is the
      oldest failing one. */
  method BisectAt(probe: seq<Probe>) returns (found: Option<nat>, ghost probed: seq<nat>)
    ensures found.Some? ==> found.value < |probe| && probe[found.value] == Fails
    ensures found.Some? ==> found.value == 0 || probe[found.value - 1] == Passes
    ensures found.None? ==> (exists i :: i in probed && i < |probe| && probe[i] == NoAnswer) || forall i | i in probed :: i < |probe| && probe[i] == Passes
    ensures (exists i :: i in probed && i < |probe| && probe[i] == NoAnswer) ==> found.None?
    ensures found.None? && (forall i | 0 <= i < |probe| :: probe[i] != NoAnswer) ==> probe == [] || probe[|probe| - 1] == Passes
    ensures |probe| >= 1 ==> |probed| <= Log2(|probe|) + 1
    ensures probe == [] ==> probed == []
  {
    var lo, hi := 0, |probe|;
    found := None;
    probed := [];
    ghost var k := if |probe| == 0 then 0 else Log2(|probe|) + 1;
    while lo < hi
      invariant 0 <= lo <= hi <= |probe|
      invariant found == if hi < |probe| then Some(hi) else None
      invariant found.Some? ==> probe[hi] == Fails
      invariant lo > 0 ==> probe[lo - 1] == Passes
      invariant forall i | i in probed :: i < |probe| && probe[i] != NoAnswer
      invariant found.None? ==> forall i | i in probed :: i < |probe| && probe[i] == Passes
      invariant |probed| <= k && hi - lo < Power(k - |probed|)
    {
      var mid := (lo + hi) / 2;
      ghost var before := probed;
      probed := probed + [mid];
      assert probed[|before|] == mid;
      assert Power(k - |before|) == 2 * Power(k - |before| - 1);
      match probe[mid]
      case NoAnswer =>
        found := None;
        return;
      case Fails =>
        found := Some(mid);
        hi := mid;
      case Passes =>
        lo := mid + 1;
    }
  }

  /** Failure that, once there, stays. */
  ghost predicate Monotone(probe: seq<Probe>) {
    forall i, j | 0 <= i < j < |probe| && probe[i] == Fails :: probe[j] == Fails
  }

  /** A failing candidate directly preceded by a passing one is, under monotone failure, the oldest. */
  lemma MonotoneFindsOldest(probe: seq<Probe>, found: nat)
    requires Monotone(probe) && found < |probe| && probe[found] == Fails && (found == 0 || probe[found - 1] == Passes)
    ensures forall i | 0 <= i < found :: probe[i] != Fails
  {
    assert forall i | 0 <= i < found - 1 && probe[i] == Fails :: probe[found - 1] == Fails;
  }

  /** `commitsAboveFullGreen`: the commits above the newest full green, oldest first; `full` says which
      commits of the walk, newest first, have one. */
  method CommitsAboveFullGreen(walk: seq<nat>, full: nat -> bool) returns (candidates: seq<nat>)
    ensures |candidates| <= |walk| && forall i | 0 <= i < |candidates| :: candidates[i] == walk[|candidates| - 1 - i] && !full(candidates[i])
    ensures candidates != [] ==> |candidates| < |walk| && full(walk[|candidates|])
    ensures candidates == [] ==> walk == [] || full(walk[0]) || forall c | c in walk :: !full(c)
  {
    var anchor := 0;
    while anchor < |walk| && !full(walk[anchor])
      invariant 0 <= anchor <= |walk|
      invariant forall i | 0 <= i < anchor :: !full(walk[i])
    {
      anchor := anchor + 1;
    }
    candidates := [];
    if anchor == |walk| {
      return;
    }
    for i := 0 to anchor
      invariant |candidates| == i
      invariant forall j | 0 <= j < i :: candidates[j] == walk[anchor - 1 - j]
    {
      candidates := candidates + [walk[anchor - 1 - i]];
    }
  }

  /** `redOpener`: from the tip down, the last of the unbroken run of red trees; a tree with no verdict,
      a green one, or one red with quarantined tests only ends the walk. */
  method RedOpener(tip: nat, commits: seq<nat>, red: nat -> bool) returns (opener: nat, ghost n: nat)
    ensures RedRun(tip, commits, red, opener, n)
  {
    opener := tip;
    n := 0;
    for i := 0 to |commits|
      invariant n == i && (forall j | 0 <= j < i :: red(commits[j]))
      invariant opener == if n == 0 then tip else commits[n - 1]
    {
      if !red(commits[i]) {
        return;
      }
      opener := commits[i];
      n := n + 1;
    }
  }

  /** The failure came in with the commit `i` places below the tip: there it fails, no full green stands
      at or above it, and the commit below is the newest full green or passes. */
  ghost predicate Breaks(walk: seq<nat>, i: nat, full: nat -> bool, probe: nat -> Probe) {
    && i + 1 < |walk| && probe(walk[i]) == Fails && (forall j | 0 <= j <= i :: !full(walk[j]))
    && (full(walk[i + 1]) || probe(walk[i + 1]) == Passes)
  }

  /** The oldest of the unbroken run of red commits at the head of the list, the tip when there is none. */
  ghost predicate OldestRed(tip: nat, commits: seq<nat>, red: nat -> bool, opener: nat) {
    exists n: nat :: RedRun(tip, commits, red, opener, n)
  }

  ghost predicate RedRun(tip: nat, commits: seq<nat>, red: nat -> bool, opener: nat, n: nat) {
    && n <= |commits| && (forall i | 0 <= i < n :: red(commits[i])) && (n < |commits| ==> !red(commits[n]))
    && opener == if n == 0 then tip else commits[n - 1]
  }

  /** Whether a bisection can conclude: the tests can be re-run, a full green stands below the tip, every
      re-run answers, and the tip still fails. */
  ghost predicate Conclusive(canRerun: bool, walk: seq<nat>, full: nat -> bool, probe: nat -> Probe) {
    && canRerun && walk != [] && !full(walk[0]) && (exists c :: c in walk && full(c))
    && (forall c | c in walk :: probe(c) != NoAnswer) && probe(walk[0]) == Fails
  }

  /** What a full check sees, before a red's opener is named. */
  datatype Seen = Unsettled | SeenGreen(sha: nat) | SeenRed(sha: nat, tests: seq<string>, quarantinedOnly: bool)

  /** What an opener is looked for with: main's walk and its full greens, the re-runs' answers, and the
      commits since the last watched head with their verdicts. */
  datatype Trail = Trail(canRerun: bool, walk: seq<nat>, full: nat -> bool, probe: nat -> Probe, commits: seq<nat>, red: nat -> bool)

  /** The opener is where the bisection puts the failure, or else the oldest of the red run. */
  ghost predicate Opened(tip: nat, trail: Trail, opener: nat) {
    || (trail.canRerun && exists i | 0 <= i < |trail.walk| :: trail.walk[i] == opener && Breaks(trail.walk, i, trail.full, trail.probe))
    || (OldestRed(tip, trail.commits, trail.red, opener) && !Conclusive(trail.canRerun, trail.walk, trail.full, trail.probe))
  }

  ghost predicate Names(seen: Seen, trail: Trail, c: Check) {
    match seen
    case Unsettled => c == NoVerdict
    case SeenGreen(sha) => c == GreenAt(sha)
    case SeenRed(sha, tests, quarantinedOnly) => c.RedAt? && c == RedAt(sha, tests, quarantinedOnly, c.opener) && Opened(sha, trail, c.opener)
  }

  method WithOpener(seen: Seen, trail: Trail) returns (c: Check)
    ensures Names(seen, trail, c)
  {
    match seen
    case Unsettled => c := NoVerdict;
    case SeenGreen(sha) => c := GreenAt(sha);
    case SeenRed(sha, tests, quarantinedOnly) =>
      hide Breaks, OldestRed, Conclusive;
      var opener, bisected := SettleOpener(sha, trail.canRerun, trail.walk, trail.full, trail.probe, trail.commits, trail.red);
      c := RedAt(sha, tests, quarantinedOnly, opener);
  }

  /** `settleOpener`: the bisection between the newest full green and the tip if it concludes, and
      otherwise the walk down the red commits since the last watched head. */
  method SettleOpener(tip: nat, canRerun: bool, walk: seq<nat>, full: nat -> bool, probe: nat -> Probe, commits: seq<nat>, red: nat -> bool)
    returns (opener: nat, bisected: bool)
    ensures bisected ==> canRerun && exists i | 0 <= i < |walk| :: walk[i] == opener && Breaks(walk, i, full, probe)
    ensures !bisected ==> OldestRed(tip, commits, red, opener)
    ensures Conclusive(canRerun, walk, full, probe) ==> bisected
  {
    bisected := false;
    ghost var n;
    if canRerun {
      var candidates := CommitsAboveFullGreen(walk, full);
      if |candidates| > 0 {
        var answers := seq(|candidates|, i requires 0 <= i < |candidates| => probe(candidates[i]));
        ghost var probed;
        var found;
        found, probed := BisectAt(answers);
        assert forall i | 0 <= i < |candidates| :: candidates[i] in walk;
        assert answers[|answers| - 1] == probe(walk[0]);
        if found.Some? {
          opener, bisected := candidates[found.value], true;
          ghost var i := |candidates| - 1 - found.value;
          assert forall j | 0 <= j <= i :: walk[j] == candidates[|candidates| - 1 - j];
          assert walk[i + 1] == if found.value == 0 then walk[|candidates|] else candidates[found.value - 1];
          assert walk[i] == opener && Breaks(walk, i, full, probe);
          return;
        }
      }
    }
    opener, n := RedOpener(tip, commits, red);
  }
}
