/** The plan dependency graph (src/backlog/backlog-parts.ts) and the hold rule. */
module Parts {
  import opened Wrappers

  // The cycle finder is exact, the waiting list is the transitive closure, and without a cycle the
  // allocator (`entryHoldAgainst` in src/backlog/backlog-eligibility.ts) never starves.

  // ---------------------------------------------------------------- plans

  datatype PartRef = PartRef(series: string, part: string, of: nat)

  /** What the body's note lines say: a refusal, a needs-review note, or a bugfix wait only. */
  datatype Note = NoNote | RefusedNote | ReviewNote | RecurrenceNote

  /** A planned entry as its heading and body parse: its own part, the refs of its `requires` clause, if
      it has one, and the refs its parenthetical names through another dependency verb. */
  datatype Plan = Plan(title: string, own: Option<PartRef>, clause: Option<seq<PartRef>>, worded: seq<PartRef>, note: Note) {
    function Requires(): seq<PartRef> {
      if clause.None? then [] else clause.value
    }
  }

  function LowerChar(c: char): char {
    if 'A' <= c <= 'Z' then (c as int + 32) as char else c
  }

  function Lower(s: string): string {
    if s == "" then "" else [LowerChar(s[0])] + Lower(s[1..])
  }

  /** Series compare without case, part tokens verbatim. */
  function PartKey(ref: PartRef): string {
    Lower(ref.series) + "\0" + ref.part
  }

  /** Two refs are one part exactly when their series are the same but for case and their tokens the same. */
  lemma SamePartIff(a: PartRef, b: PartRef)
    requires '\0' !in a.part && '\0' !in b.part
    ensures PartKey(a) == PartKey(b) <==> Lower(a.series) == Lower(b.series) && a.part == b.part
  {
    hide Lower;
    var x, y := Lower(a.series), Lower(b.series);
    var s, t := PartKey(a), PartKey(b);
    assert s[|x|..] == "\0" + a.part && t[|y|..] == "\0" + b.part;
    if s == t {
      assert forall i | |x| < i < |s| :: s[i] == a.part[i - |x| - 1];
      assert forall i | |y| < i < |t| :: t[i] == b.part[i - |y| - 1];
      assert s[|x|] == '\0' && t[|y|] == '\0';
      assert |x| == |y|;
      assert s[..|x|] == x && t[..|y|] == y;
      assert s[|x| + 1..] == a.part && t[|y| + 1..] == b.part;
    }
  }

  function NumberText(n: nat): string {
    if n < 10 then [(n + '0' as int) as char] else NumberText(n / 10) + [(n % 10 + '0' as int) as char]
  }

  function Name(ref: PartRef): string {
    ref.series + " " + ref.part + "/" + NumberText(ref.of)
  }

  function Keys(refs: seq<PartRef>): (keys: seq<string>)
    ensures |keys| == |refs|
    ensures forall i | 0 <= i < |refs| :: keys[i] == PartKey(refs[i])
  {
    if refs == [] then [] else [PartKey(refs[0])] + Keys(refs[1..])
  }

  /** `plannedPartKeys`. */
  function PlannedKeys(planned: seq<Plan>): set<string> {
    if planned == [] then {}
    else (if planned[0].own.Some? then {PartKey(planned[0].own.value)} else {}) + PlannedKeys(planned[1..])
  }

  lemma {:induction false} InPlannedKeys(planned: seq<Plan>, key: string)
    ensures key in PlannedKeys(planned) <==> exists p :: p in planned && p.own.Some? && PartKey(p.own.value) == key
  {
    if planned != [] {
      InPlannedKeys(planned[1..], key);
      assert forall p | p in planned :: p == planned[0] || p in planned[1..];
      assert planned[0] in planned && forall p | p in planned[1..] :: p in planned;
    }
  }

  // ---------------------------------------------------------------- the graph

  datatype Node = Node(name: string, deps: seq<string>)

  /** A walk along dependency edges. */
  ghost predicate Walk(nodes: map<string, Node>, p: seq<string>) {
    && (forall i | 0 <= i < |p| :: p[i] in nodes)
    && forall i | 0 < i < |p| :: p[i] in nodes[p[i - 1]].deps
  }

  /** A closed walk, its first part repeated last. */
  ghost predicate IsCycle(nodes: map<string, Node>, p: seq<string>) {
    |p| >= 2 && Walk(nodes, p) && p[0] == p[|p| - 1]
  }

  ghost predicate Acyclic(nodes: map<string, Node>) {
    forall p: seq<string> :: !IsCycle(nodes, p)
  }

  /** Every part comes after the parts it depends on. */
  ghost predicate Ordered(nodes: map<string, Node>, order: seq<string>) {
    && (forall i | 0 <= i < |order| :: order[i] in nodes)
    && (forall i, j | 0 <= i < j < |order| :: order[i] != order[j])
    && forall i, d | 0 <= i < |order| && d in nodes[order[i]].deps && d in nodes :: d in order[..i]
  }

  function IndexOf(order: seq<string>, key: string): (i: nat)
    requires key in order
    ensures i < |order| && order[i] == key && key !in order[..i]
  {
    if order[0] == key then 0 else
      var i := IndexOf(order[1..], key);
      assert order[..i + 1] == [order[0]] + order[1..][..i];
      i + 1
  }

  lemma {:induction false} IndexBelow(order: seq<string>, key: string, i: nat)
    requires i <= |order| && key in order[..i]
    ensures key in order && IndexOf(order, key) < i
  {
    if order[0] != key {
      assert order[..i] == [order[0]] + order[1..][..i - 1];
      IndexBelow(order[1..], key, i - 1);
    }
  }

  lemma OrderDescends(nodes: map<string, Node>, order: seq<string>, key: string, dep: string)
    requires Ordered(nodes, order) && key in order && key in nodes && dep in nodes && dep in nodes[key].deps
    ensures dep in order && IndexOf(order, dep) < IndexOf(order, key)
  {
    IndexBelow(order, dep, IndexOf(order, key));
  }

  /** Along a walk in ordered parts the position only falls. */
  lemma {:induction false} WalkDescends(nodes: map<string, Node>, order: seq<string>, p: seq<string>, k: nat)
    requires Ordered(nodes, order) && Walk(nodes, p) && k < |p| && p[0] in order
    ensures p[k] in order && IndexOf(order, p[k]) + k <= IndexOf(order, p[0])
  {
    if k > 0 {
      WalkDescends(nodes, order, p, k - 1);
      OrderDescends(nodes, order, p[k - 1], p[k]);
    }
  }

  /** An order of all parts leaves no room for a cycle. */
  lemma OrderedAcyclic(nodes: map<string, Node>, order: seq<string>)
    requires Ordered(nodes, order) && forall key | key in nodes :: key in order
    ensures Acyclic(nodes)
  {
    forall p: seq<string> ensures !IsCycle(nodes, p) {
      if IsCycle(nodes, p) {
        WalkDescends(nodes, order, p, |p| - 1);
      }
    }
  }

  // ---------------------------------------------------------------- firstDependencyCycle

  datatype State = Visiting | Done

  /** The open parts are exactly the stack, a walk without repeats; the finished ones stand after
      their dependencies. */
  ghost predicate ValidSearch(nodes: map<string, Node>, state: map<string, State>, stack: seq<string>, finished: seq<string>) {
    && (forall key | key in state :: key in nodes)
    && Walk(nodes, stack)
    && (forall i, j | 0 <= i < j < |stack| :: stack[i] != stack[j])
    && (forall key :: key in stack <==> key in state && state[key] == Visiting)
    && (forall key :: key in finished <==> key in state && state[key] == Done)
    && Ordered(nodes, finished)
  }

  /** The search went on: what was met keeps its state, what is new is done. */
  ghost predicate Advanced(before: map<string, State>, now: map<string, State>) {
    && (forall k | k in before :: k in now && now[k] == before[k])
    && forall k | k in now && k !in before :: now[k] == Done
  }

  /** The depth-first walk: the state of the parts met so far, and the parts being visited. */
  class CycleFinder {
    const nodes: map<string, Node>
    var state: map<string, State>
    var stack: seq<string>
    ghost var finished: seq<string>

    constructor (nodes: map<string, Node>)
      ensures this.nodes == nodes && Valid() && state == map[] && stack == []
    {
      this.nodes := nodes;
      state := map[];
      stack := [];
      finished := [];
    }

    ghost predicate Valid()
      reads this
    {
      ValidSearch(nodes, state, stack, finished)
    }

    method Push(key: string)
      requires Valid() && key in nodes && key !in state
      requires stack != [] ==> stack[|stack| - 1] in nodes && key in nodes[stack[|stack| - 1]].deps
      modifies this
      ensures Valid() && stack == old(stack) + [key] && state == old(state)[key := Visiting]
      ensures Left(nodes, state) < Left(nodes, old(state))
    {
      hide *;
      ValidIs();
      Opening(nodes, state, stack, finished, key);
      FewerLeft(nodes, state, key);
      state := state[key := Visiting];
      stack := stack + [key];
      ValidIs();
    }

    method Pop(key: string)
      requires Valid() && stack != [] && stack[|stack| - 1] == key
      requires key in nodes && DepsDone(nodes, state, nodes[key].deps, |nodes[key].deps|)
      modifies this
      ensures Valid() && stack == old(stack)[..|old(stack)| - 1] && state == old(state)[key := Done]
    {
      hide *;
      ValidIs();
      assert stack == stack[..|stack| - 1] + [key];
      Closing(nodes, state, stack[..|stack| - 1], finished, key);
      finished := finished + [key];
      stack := stack[..|stack| - 1];
      state := state[key := Done];
      ValidIs();
    }

    /** The stack from the open part met again, and that part. */
    function Loop(dep: string): seq<string>
      requires dep in stack
      reads this
    {
      stack[IndexOf(stack, dep)..] + [dep]
    }

    lemma LoopIsCycle(dep: string)
      requires Valid() && dep in stack
      requires stack[|stack| - 1] in nodes && dep in nodes[stack[|stack| - 1]].deps
      ensures IsCycle(nodes, Loop(dep))
    {
      hide *;
      ValidIs();
      OpenOrDone(nodes, state, stack, finished, dep);
      ClosedWalk(nodes, stack, IndexOf(stack, dep), dep);
      assert Loop(dep) == stack[IndexOf(stack, dep)..] + [dep] by {
        LoopIs(dep);
      }
    }

    lemma LoopIs(dep: string)
      requires dep in stack
      ensures Loop(dep) == stack[IndexOf(stack, dep)..] + [dep]
    {
    }

    lemma DepState(dep: string)
      requires Valid() && dep in state
      ensures if state[dep] == Visiting then dep in stack else state[dep] == Done
    {
      hide *;
      ValidIs();
      OpenOrDone(nodes, state, stack, finished, dep);
    }

    method Visit(key: string) returns (found: Option<seq<string>>, ghost path: seq<string>)
      requires Valid() && key in nodes && key !in state
      requires stack != [] ==> stack[|stack| - 1] in nodes && key in nodes[stack[|stack| - 1]].deps
      modifies this
      ensures found.Some? ==> IsCycle(nodes, path) && found == Some(NamesOn(nodes, path))
      ensures found.None? ==> Valid() && stack == old(stack) && Advanced(old(state)[key := Done], state)
      decreases Left(nodes, state)
    {
      hide *;
      path := [];
      Push(key);
      ghost var start, pushed := state, stack;
      AdvancedStarts(start);
      var deps := nodes[key].deps;
      NoDepsDone(nodes, state, deps);
      for i := 0 to |deps|
        invariant Valid() && stack == pushed
        invariant Advanced(start, state) && DepsDone(nodes, state, deps, i)
      {
        var dep := deps[i];
        AdvancedFewer(nodes, start, state);
        if dep in nodes {
          if dep in state {
            DepState(dep);
            if state[dep] == Visiting {
              LoopIsCycle(dep);
              path := Loop(dep);
              found := Some(NamesOn(nodes, Loop(dep)));
              return;
            }
          } else {
            ghost var before := state;
            found, path := Visit(dep);
            if found.Some? {
              return;
            }
            AdvancedInto(start, before, dep, state);
            DepsKept(nodes, before, state, deps, i);
          }
        }
        DepsNext(nodes, state, deps, i);
      }
      AdvancedEnds(old(state), state, key);
      Pop(key);
      found := None;
    }

    lemma ValidIs()
      ensures Valid() <==> ValidSearch(nodes, state, stack, finished)
    {
    }
  }

  ghost predicate DepsDone(nodes: map<string, Node>, state: map<string, State>, deps: seq<string>, n: nat) {
    forall i | 0 <= i < n && i < |deps| && deps[i] in nodes :: deps[i] in state && state[deps[i]] == Done
  }

  lemma NoDepsDone(nodes: map<string, Node>, state: map<string, State>, deps: seq<string>)
    ensures DepsDone(nodes, state, deps, 0)
  {
  }

  lemma DepsNext(nodes: map<string, Node>, state: map<string, State>, deps: seq<string>, n: nat)
    requires DepsDone(nodes, state, deps, n) && n < |deps|
    requires deps[n] in nodes ==> deps[n] in state && state[deps[n]] == Done
    ensures DepsDone(nodes, state, deps, n + 1)
  {
  }

  lemma DepsKept(nodes: map<string, Node>, before: map<string, State>, now: map<string, State>, deps: seq<string>, n: nat)
    requires DepsDone(nodes, before, deps, n) && Advanced(before, now)
    ensures DepsDone(nodes, now, deps, n)
  {
  }

  lemma AdvancedStarts(state: map<string, State>)
    ensures Advanced(state, state)
  {
  }

  lemma AdvancedFewer(nodes: map<string, Node>, before: map<string, State>, now: map<string, State>)
    requires Advanced(before, now)
    ensures Left(nodes, now) <= Left(nodes, before)
  {
    var all := nodes.Keys;
    var extra := (all - before.Keys) - (all - now.Keys);
    assert all - before.Keys == (all - now.Keys) + extra;
  }

  lemma AdvancedInto(start: map<string, State>, before: map<string, State>, dep: string, now: map<string, State>)
    requires Advanced(start, before) && dep !in before && Advanced(before[dep := Done], now)
    ensures Advanced(start, now) && Advanced(before, now) && dep in now && now[dep] == Done
  {
    assert dep in before[dep := Done];
    assert forall k | k in before :: k in before[dep := Done] && before[dep := Done][k] == before[k];
  }

  lemma AdvancedEnds(old_: map<string, State>, now: map<string, State>, key: string)
    requires key !in old_ && Advanced(old_[key := Visiting], now)
    ensures Advanced(old_[key := Done], now[key := Done])
  {
    assert forall k | k in old_ :: k in old_[key := Visiting] && old_[key := Visiting][k] == old_[k];
  }

  lemma Opening(nodes: map<string, Node>, state: map<string, State>, stack: seq<string>, finished: seq<string>, key: string)
    requires ValidSearch(nodes, state, stack, finished) && key in nodes && key !in state
    requires stack != [] ==> stack[|stack| - 1] in nodes && key in nodes[stack[|stack| - 1]].deps
    ensures ValidSearch(nodes, state[key := Visiting], stack + [key], finished)
  {
    hide Ordered, Walk;
    Pushed(nodes, stack, key);
    assert key !in stack;
  }

  lemma OpenOrDone(nodes: map<string, Node>, state: map<string, State>, stack: seq<string>, finished: seq<string>, key: string)
    requires ValidSearch(nodes, state, stack, finished)
    ensures Walk(nodes, stack)
    ensures key in state ==> if state[key] == Visiting then key in stack else state[key] == Done
  {
    hide Ordered, Walk;
  }

  /** The part on top of the stack is done once its dependencies are. */
  lemma Closing(nodes: map<string, Node>, state: map<string, State>, stack: seq<string>, finished: seq<string>, key: string)
    requires ValidSearch(nodes, state, stack + [key], finished)
    requires key in nodes && DepsDone(nodes, state, nodes[key].deps, |nodes[key].deps|)
    ensures ValidSearch(nodes, state[key := Done], stack, finished + [key])
  {
    hide Ordered;
    var all := stack + [key];
    assert all[|stack|] == key && key in all;
    assert forall i | 0 <= i < |stack| :: all[i] == stack[i];
    assert forall k | k in stack :: k in all;
    assert forall k | k in all :: k in stack || k == key;
    assert key !in stack;
    Finished(nodes, finished, key);
  }

  /** The parts' names along a walk. */
  function NamesOn(nodes: map<string, Node>, p: seq<string>): seq<string> {
    if p == [] then [] else [if p[0] in nodes then nodes[p[0]].name else ""] + NamesOn(nodes, p[1..])
  }

  /** How many parts the walk has not met. */
  ghost function Left(nodes: map<string, Node>, state: map<string, State>): nat {
    |nodes.Keys - state.Keys|
  }

  lemma FewerLeft(nodes: map<string, Node>, state: map<string, State>, key: string)
    requires key in nodes && key !in state
    ensures Left(nodes, state[key := Visiting]) < Left(nodes, state)
  {
    assert nodes.Keys - state.Keys == (nodes.Keys - state[key := Visiting].Keys) + {key};
  }

  lemma Pushed(nodes: map<string, Node>, stack: seq<string>, key: string)
    requires Walk(nodes, stack) && key in nodes
    requires stack != [] ==> stack[|stack| - 1] in nodes && key in nodes[stack[|stack| - 1]].deps
    ensures Walk(nodes, stack + [key])
  {
  }

  lemma ClosedWalk(nodes: map<string, Node>, stack: seq<string>, at: nat, dep: string)
    requires Walk(nodes, stack) && at < |stack| && stack[at] == dep
    requires stack[|stack| - 1] in nodes && dep in nodes[stack[|stack| - 1]].deps
    ensures IsCycle(nodes, stack[at..] + [dep])
  {
    var p := stack[at..] + [dep];
    forall i | 0 < i < |p| ensures p[i] in nodes[p[i - 1]].deps {
      if i < |p| - 1 {
        assert p[i] == stack[at + i] && p[i - 1] == stack[at + i - 1];
      }
    }
  }

  lemma Finished(nodes: map<string, Node>, finished: seq<string>, key: string)
    requires Ordered(nodes, finished) && key in nodes && key !in finished
    requires forall d | d in nodes[key].deps && d in nodes :: d in finished
    ensures Ordered(nodes, finished + [key])
  {
    var all := finished + [key];
    forall i, d | 0 <= i < |all| && d in nodes[all[i]].deps && d in nodes ensures d in all[..i] {
      if i < |finished| {
        assert all[..i] == finished[..i];
      } else {
        assert all[..i] == finished;
      }
    }
  }

  /** A cycle is reported exactly when there is one, and what is reported is one. `keys` is the map's
      insertion order. */
  method FirstDependencyCycle(keys: seq<string>, nodes: map<string, Node>) returns (cycle: Option<seq<string>>, ghost path: seq<string>)
    requires forall key :: key in nodes <==> key in keys
    ensures cycle.None? <==> Acyclic(nodes)
    ensures cycle.Some? ==> IsCycle(nodes, path) && cycle == Some(NamesOn(nodes, path))
  {
    hide *;
    var finder := new CycleFinder(nodes);
    path := [];
    for i := 0 to |keys|
      invariant finder.nodes == nodes && finder.Valid() && finder.stack == []
      invariant forall key | key in keys[..i] :: key in finder.state
    {
      assert keys[..i + 1] == keys[..i] + [keys[i]] && keys[i] in keys;
      if keys[i] !in finder.state {
        ghost var before := finder.state;
        cycle, path := finder.Visit(keys[i]);
        if cycle.Some? {
          CycleNotAcyclic(nodes, path);
          return;
        }
        AdvancedKeys(before[keys[i] := Done], finder.state);
      }
    }
    assert keys[..|keys|] == keys;
    finder.ValidIs();
    AllDone(nodes, finder.state, finder.finished);
    cycle := None;
  }

  lemma CycleNotAcyclic(nodes: map<string, Node>, path: seq<string>)
    requires IsCycle(nodes, path)
    ensures !Acyclic(nodes)
  {
    hide IsCycle;
  }

  lemma AdvancedKeys(before: map<string, State>, now: map<string, State>)
    requires Advanced(before, now)
    ensures forall key | key in before :: key in now
  {
  }

  lemma AllDone(nodes: map<string, Node>, state: map<string, State>, finished: seq<string>)
    requires ValidSearch(nodes, state, [], finished) && forall key | key in nodes :: key in state
    ensures Acyclic(nodes)
  {
    hide Ordered, Walk, Acyclic;
    forall key | key in nodes ensures key in finished {
      assert key !in [];
      assert state[key] == Done;
    }
    OrderedAcyclic(nodes, finished);
  }

  // ---------------------------------------------------------------- the scan

  /** The graph the scan builds: of entries with the same part key the last one's clause counts. */
  function Nodes(planned: seq<Plan>): (nodes: map<string, Node>)
    ensures nodes.Keys == PlannedKeys(planned)
  {
    if planned == [] then map[]
    else
      var p := planned[|planned| - 1];
      KeysSnoc(planned[..|planned| - 1], p);
      assert planned[..|planned| - 1] + [p] == planned;
      var nodes := Nodes(planned[..|planned| - 1]);
      if p.own.None? then nodes else nodes[PartKey(p.own.value) := Node(Name(p.own.value), Keys(p.Requires()))]
  }

  lemma {:induction false} KeysSnoc(planned: seq<Plan>, p: Plan)
    ensures PlannedKeys(planned + [p]) == PlannedKeys(planned) + if p.own.Some? then {PartKey(p.own.value)} else {}
  {
    if planned == [] {
      assert planned + [p] == [p] && [p][1..] == [];
    } else {
      assert (planned + [p])[1..] == planned[1..] + [p];
      KeysSnoc(planned[1..], p);
    }
  }

  /** A ref of a heading that the doctor names: one nothing carries, or one worded so that it holds nothing. */
  datatype Reported = Reported(title: string, ref: string)

  function DanglingOf(p: Plan, refs: seq<PartRef>, known: set<string>): seq<Reported> {
    if refs == [] then []
    else (if PartKey(refs[0]) in known then [] else [Reported(p.title, Name(refs[0]))]) + DanglingOf(p, refs[1..], known)
  }

  function AllDangling(planned: seq<Plan>, known: set<string>): seq<Reported> {
    if planned == [] then []
    else AllDangling(planned[..|planned| - 1], known) + DanglingOf(planned[|planned| - 1], planned[|planned| - 1].Requires(), known)
  }

  function Unparsed(planned: seq<Plan>): seq<string> {
    if planned == [] then []
    else
      var p := planned[|planned| - 1];
      Unparsed(planned[..|planned| - 1]) + if p.clause == Some([]) then [p.title] else []
  }

  /** `miswordedDependencyRefs`: the refs to planned parts that no clause holds, each once. */
  function Noted(acc: seq<Reported>, p: Plan, refs: seq<PartRef>, plannedKeys: set<string>): seq<Reported> {
    if refs == [] then acc
    else
      var before, ref := Noted(acc, p, refs[..|refs| - 1], plannedKeys), refs[|refs| - 1];
      if Misworded(p, ref, plannedKeys) && Reported(p.title, Name(ref)) !in before then before + [Reported(p.title, Name(ref))] else before
  }

  /** The ref names a planned part, and the clause does not. */
  predicate Misworded(p: Plan, ref: PartRef, plannedKeys: set<string>) {
    PartKey(ref) in plannedKeys && PartKey(ref) !in Keys(p.Requires())
  }

  function AllMisworded(planned: seq<Plan>, plannedKeys: set<string>): seq<Reported> {
    if planned == [] then []
    else
      var before, p := AllMisworded(planned[..|planned| - 1], plannedKeys), planned[|planned| - 1];
      if p.own.None? then before else Noted(before, p, p.worded, plannedKeys)
  }

  ghost predicate NoTwice(rs: seq<Reported>) {
    forall i, j | 0 <= i < j < |rs| :: rs[i] != rs[j]
  }

  lemma {:induction false} NotedIs(acc: seq<Reported>, p: Plan, refs: seq<PartRef>, plannedKeys: set<string>, r: Reported)
    ensures r in Noted(acc, p, refs, plannedKeys)
       <==> r in acc || exists ref :: ref in refs && Misworded(p, ref, plannedKeys) && r == Reported(p.title, Name(ref))
    ensures NoTwice(acc) ==> NoTwice(Noted(acc, p, refs, plannedKeys))
  {
    hide Misworded, Name;
    if refs != [] {
      var n := |refs| - 1;
      NotedIs(acc, p, refs[..n], plannedKeys, r);
      assert forall ref :: ref in refs <==> ref in refs[..n] || ref == refs[n];
    }
  }

  /** What is reported as misworded: exactly the refs to planned parts that a series part's heading names
      through another verb and that hold nothing back, each title and ref once. */
  lemma {:induction false} MiswordedIs(planned: seq<Plan>, plannedKeys: set<string>, r: Reported)
    ensures r in AllMisworded(planned, plannedKeys)
       <==> exists p, ref :: p in planned && p.own.Some? && ref in p.worded && Misworded(p, ref, plannedKeys) && r == Reported(p.title, Name(ref))
    ensures NoTwice(AllMisworded(planned, plannedKeys))
  {
    hide Misworded, Name, Noted, NoTwice;
    if planned == [] {
      NothingTwice();
    } else {
      var n := |planned| - 1;
      MiswordedIs(planned[..n], plannedKeys, r);
      NotedIs(AllMisworded(planned[..n], plannedKeys), planned[n], planned[n].worded, plannedKeys, r);
      assert forall p :: p in planned <==> p in planned[..n] || p == planned[n];
    }
  }

  lemma NothingTwice()
    ensures NoTwice([])
  {
  }

  lemma NotedStep(acc: seq<Reported>, p: Plan, j: nat, plannedKeys: set<string>)
    requires j < |p.worded|
    ensures var before, next := Noted(acc, p, p.worded[..j], plannedKeys), Reported(p.title, Name(p.worded[j]));
      Noted(acc, p, p.worded[..j + 1], plannedKeys)
        == if Misworded(p, p.worded[j], plannedKeys) && next !in before then before + [next] else before
    ensures Noted(acc, p, [], plannedKeys) == acc
  {
    hide Misworded, Name;
    assert p.worded[..j + 1][..j] == p.worded[..j];
  }

  lemma ScanStep(planned: seq<Plan>, i: nat, known: set<string>)
    requires i < |planned|
    ensures var p := planned[i];
      && Nodes(planned[..i + 1]) == (if p.own.None? then Nodes(planned[..i])
                                     else Nodes(planned[..i])[PartKey(p.own.value) := Node(Name(p.own.value), Keys(p.Requires()))])
      && AllDangling(planned[..i + 1], known) == AllDangling(planned[..i], known) + DanglingOf(p, p.Requires(), known)
      && Unparsed(planned[..i + 1]) == Unparsed(planned[..i]) + (if p.clause == Some([]) then [p.title] else [])
      && forall keys :: AllMisworded(planned[..i + 1], keys)
           == if p.own.None? then AllMisworded(planned[..i], keys) else Noted(AllMisworded(planned[..i], keys), p, p.worded, keys)
  {
    hide Keys, Name, PartKey, DanglingOf, Noted;
    assert planned[..i + 1][..i] == planned[..i];
  }

  lemma DanglingStep(p: Plan, refs: seq<PartRef>, j: nat, known: set<string>)
    requires j < |refs|
    ensures DanglingOf(p, refs[j..], known)
         == (if PartKey(refs[j]) in known then [] else [Reported(p.title, Name(refs[j]))]) + DanglingOf(p, refs[j + 1..], known)
  {
    hide Name, PartKey;
    assert refs[j..][1..] == refs[j + 1..];
  }

  lemma NothingScanned(known: set<string>)
    ensures Nodes([]) == map[] && AllDangling([], known) == [] && Unparsed([]) == []
    ensures forall p :: DanglingOf(p, [], known) == []
    ensures forall keys :: AllMisworded([], keys) == []
    ensures forall acc, p, keys :: Noted(acc, p, [], keys) == acc
  {
  }

  lemma EmptyClause(p: Plan)
    ensures p.clause == Some([]) <==> |p.Requires()| == 0 && p.clause.Some?
  {
  }

  /** The one-pass scan: the graph in insertion order, the dangling refs, the clauses that parse to
      nothing, and the refs that hold nothing for their wording. */
  method DependencyEntryScan(planned: seq<Plan>, known: set<string>)
    returns (keys: seq<string>, nodes: map<string, Node>, dangling: seq<Reported>, unparsed: seq<string>, misworded: seq<Reported>)
    ensures nodes == Nodes(planned) && (forall key :: key in nodes <==> key in keys)
    ensures dangling == AllDangling(planned, known) && unparsed == Unparsed(planned)
    ensures misworded == AllMisworded(planned, PlannedKeys(planned))
  {
    hide *;
    keys, nodes, dangling, unparsed, misworded := [], map[], [], [], [];
    var plannedKeys := PlannedKeys(planned);
    NothingScanned(known);
    assert planned[..0] == [];
    for i := 0 to |planned|
      invariant nodes == Nodes(planned[..i]) && forall key :: key in nodes <==> key in keys
      invariant dangling == AllDangling(planned[..i], known) && unparsed == Unparsed(planned[..i])
      invariant misworded == AllMisworded(planned[..i], plannedKeys)
    {
      var entry := planned[i];
      ScanStep(planned, i, known);
      var refs := entry.Requires();
      EmptyClause(entry);
      if |refs| == 0 && entry.clause.Some? {
        unparsed := unparsed + [entry.title];
      }
      dangling := AddDangling(dangling, entry, refs, known);
      if entry.own.Some? {
        misworded := AddMisworded(misworded, entry, plannedKeys);
        var key := PartKey(entry.own.value);
        if key !in nodes {
          keys := keys + [key];
        }
        nodes := nodes[key := Node(Name(entry.own.value), Keys(refs))];
      }
    }
    assert planned[..|planned|] == planned;
  }

  method AddDangling(before: seq<Reported>, entry: Plan, refs: seq<PartRef>, known: set<string>) returns (dangling: seq<Reported>)
    ensures dangling == before + DanglingOf(entry, refs, known)
  {
    hide *;
    dangling := before;
    NothingScanned(known);
    assert refs[0..] == refs;
    for j := 0 to |refs|
      invariant dangling + DanglingOf(entry, refs[j..], known) == before + DanglingOf(entry, refs, known)
    {
      DanglingStep(entry, refs, j, known);
      if PartKey(refs[j]) !in known {
        dangling := dangling + [Reported(entry.title, Name(refs[j]))];
      }
    }
    assert refs[|refs|..] == [];
  }

  method AddMisworded(before: seq<Reported>, entry: Plan, plannedKeys: set<string>) returns (misworded: seq<Reported>)
    ensures misworded == Noted(before, entry, entry.worded, plannedKeys)
  {
    hide *;
    misworded := before;
    var held := Keys(entry.Requires());
    NothingScanned({});
    assert entry.worded[..0] == [];
    for j := 0 to |entry.worded|
      invariant misworded == Noted(before, entry, entry.worded[..j], plannedKeys)
    {
      var ref := entry.worded[j];
      NotedStep(before, entry, j, plannedKeys);
      MiswordedMeans(entry, ref, plannedKeys);
      if PartKey(ref) in plannedKeys && PartKey(ref) !in held && Reported(entry.title, Name(ref)) !in misworded {
        misworded := misworded + [Reported(entry.title, Name(ref))];
      }
    }
    assert entry.worded[..|entry.worded|] == entry.worded;
  }

  lemma MiswordedMeans(p: Plan, ref: PartRef, plannedKeys: set<string>)
    ensures Misworded(p, ref, plannedKeys) <==> PartKey(ref) in plannedKeys && PartKey(ref) !in Keys(p.Requires())
  {
  }

  // ---------------------------------------------------------------- the hold rule

  datatype Hold = Free | Refused | NeedsReview | AwaitingRecurrence | BlockedBy(names: seq<string>)

  function Blocked(refs: seq<PartRef>, keys: set<string>): seq<PartRef> {
    if refs == [] then [] else (if PartKey(refs[0]) in keys then [refs[0]] else []) + Blocked(refs[1..], keys)
  }

  function NamesOf(refs: seq<PartRef>): (names: seq<string>)
    ensures |names| == |refs|
  {
    if refs == [] then [] else [Name(refs[0])] + NamesOf(refs[1..])
  }

  /** `entryHoldAgainst`: the note holds first, then the parts still planned. */
  function HoldAgainst(p: Plan, keys: set<string>): Hold {
    match p.note
    case RefusedNote => Refused
    case ReviewNote => NeedsReview
    case RecurrenceNote => AwaitingRecurrence
    case NoNote =>
      var blocked := Blocked(p.Requires(), keys);
      if blocked == [] then Free else BlockedBy(NamesOf(blocked))
  }

  lemma {:induction false} BlockedIs(refs: seq<PartRef>, keys: set<string>)
    ensures Blocked(refs, keys) == [] <==> forall ref | ref in refs :: PartKey(ref) !in keys
  {
    if refs != [] {
      BlockedIs(refs[1..], keys);
      assert forall ref | ref in refs :: ref == refs[0] || ref in refs[1..];
      assert refs[0] in refs && forall ref | ref in refs[1..] :: ref in refs;
    }
  }

  /** An entry is free exactly when no note holds it and no part it requires is planned. */
  lemma FreeIs(p: Plan, keys: set<string>)
    ensures HoldAgainst(p, keys) == Free <==> p.note == NoNote && forall ref | ref in p.Requires() :: PartKey(ref) !in keys
  {
    BlockedIs(p.Requires(), keys);
  }

  /** What holds an entry: its note, whatever it requires; without one, the required parts still planned,
      named in the clause's order. `at` are the places of those parts in the clause. */
  lemma HoldMeans(p: Plan, keys: set<string>) returns (at: seq<nat>)
    ensures HoldAgainst(p, keys) == Refused <==> p.note == RefusedNote
    ensures HoldAgainst(p, keys) == NeedsReview <==> p.note == ReviewNote
    ensures HoldAgainst(p, keys) == AwaitingRecurrence <==> p.note == RecurrenceNote
    ensures HoldAgainst(p, keys).BlockedBy? <==> p.note == NoNote && exists ref :: ref in p.Requires() && PartKey(ref) in keys
    ensures HoldAgainst(p, keys).BlockedBy? ==> NamesAt(p.Requires(), keys, at, HoldAgainst(p, keys).names)
  {
    BlockedIs(p.Requires(), keys);
    at := BlockersAt(p.Requires(), keys);
  }

  /** `names` are those of the refs at the ascending places `at`, which are the ones with a key in `keys`. */
  ghost predicate NamesAt(refs: seq<PartRef>, keys: set<string>, at: seq<nat>, names: seq<string>) {
    && |names| == |at| && (forall k | 0 <= k < |at| :: at[k] < |refs| && names[k] == Name(refs[at[k]]))
    && (forall k, l | 0 <= k < l < |at| :: at[k] < at[l])
    && forall i | 0 <= i < |refs| :: i in at <==> PartKey(refs[i]) in keys
  }

  lemma {:induction false} BlockersAt(refs: seq<PartRef>, keys: set<string>) returns (at: seq<nat>)
    ensures NamesAt(refs, keys, at, NamesOf(Blocked(refs, keys)))
  {
    hide PartKey, Name, NamesAt, Blocked, NamesOf;
    if refs == [] {
      at := [];
      NothingBlocked(keys);
    } else {
      var n := |refs| - 1;
      var before := BlockersAt(refs[..n], keys);
      at := if PartKey(refs[n]) in keys then before + [n] else before;
      assert refs == refs[..n] + [refs[n]];
      BlockedSnoc(refs[..n], refs[n], keys);
      NamesSnoc(Blocked(refs[..n], keys), refs[n]);
      NamesAtSnoc(refs[..n], refs[n], keys, before, NamesOf(Blocked(refs[..n], keys)));
    }
  }

  lemma NothingBlocked(keys: set<string>)
    ensures NamesAt([], keys, [], NamesOf(Blocked([], keys)))
  {
  }

  lemma {:induction false} BlockedSnoc(refs: seq<PartRef>, ref: PartRef, keys: set<string>)
    ensures Blocked(refs + [ref], keys) == if PartKey(ref) in keys then Blocked(refs, keys) + [ref] else Blocked(refs, keys)
  {
    hide *;
    if refs == [] {
      BlockedCons(ref, [], keys);
      assert refs + [ref] == [ref] + [];
    } else {
      BlockedSnoc(refs[1..], ref, keys);
      BlockedCons(refs[0], refs[1..], keys);
      BlockedCons(refs[0], refs[1..] + [ref], keys);
      assert refs == [refs[0]] + refs[1..] && refs + [ref] == [refs[0]] + (refs[1..] + [ref]);
    }
  }

  lemma BlockedCons(ref: PartRef, rest: seq<PartRef>, keys: set<string>)
    ensures Blocked([ref] + rest, keys) == if PartKey(ref) in keys then [ref] + Blocked(rest, keys) else Blocked(rest, keys)
    ensures Blocked([], keys) == []
  {
    hide PartKey;
    assert ([ref] + rest)[1..] == rest;
  }

  lemma {:induction false} NamesSnoc(refs: seq<PartRef>, ref: PartRef)
    ensures NamesOf(refs + [ref]) == NamesOf(refs) + [Name(ref)]
  {
    hide Name;
    if refs == [] {
      assert refs + [ref] == [ref];
    } else {
      assert (refs + [ref])[1..] == refs[1..] + [ref];
      NamesSnoc(refs[1..], ref);
    }
  }

  lemma NamesAtSnoc(refs: seq<PartRef>, ref: PartRef, keys: set<string>, at: seq<nat>, names: seq<string>)
    requires NamesAt(refs, keys, at, names)
    ensures PartKey(ref) in keys ==> NamesAt(refs + [ref], keys, at + [|refs|], names + [Name(ref)])
    ensures PartKey(ref) !in keys ==> NamesAt(refs + [ref], keys, at, names)
  {
    hide PartKey, Name;
    assert forall i :: i in at + [|refs|] <==> i in at || i == |refs|;
  }

  // ---------------------------------------------------------------- no cycle, no starvation

  /** Following dependencies in an acyclic graph ends at a part that depends on none. */
  lemma {:induction false} Sink(nodes: map<string, Node>, p: seq<string>) returns (key: string)
    requires Acyclic(nodes) && p != [] && Walk(nodes, p)
    requires forall i, j | 0 <= i < j < |p| :: p[i] != p[j]
    ensures key in nodes && forall d | d in nodes[key].deps :: d !in nodes
    decreases |nodes| - |p|
  {
    DistinctFit(nodes.Keys, p);
    var last := p[|p| - 1];
    if d :| d in nodes[last].deps && d in nodes {
      if d in p {
        ClosedWalk(nodes, p, IndexOf(p, d), d);
      }
      Pushed(nodes, p, d);
      DistinctFit(nodes.Keys, p + [d]);
      key := Sink(nodes, p + [d]);
    } else {
      key := last;
    }
  }

  lemma {:induction false} DistinctFit(all: set<string>, p: seq<string>)
    requires (forall i | 0 <= i < |p| :: p[i] in all) && forall i, j | 0 <= i < j < |p| :: p[i] != p[j]
    ensures |p| <= |all|
  {
    if p != [] {
      var last := p[|p| - 1];
      DistinctFit(all - {last}, p[..|p| - 1]);
    }
  }

  /** The graph's clause for a part is a planned entry's. */
  lemma {:induction false} NodeEntry(planned: seq<Plan>, key: string) returns (i: nat)
    requires key in Nodes(planned)
    ensures i < |planned| && planned[i].own.Some? && PartKey(planned[i].own.value) == key
    ensures Nodes(planned)[key].deps == Keys(planned[i].Requires())
  {
    var n := |planned| - 1;
    var p := planned[n];
    if p.own.Some? && PartKey(p.own.value) == key {
      i := n;
    } else {
      i := NodeEntry(planned[..n], key);
    }
  }

  /** Without a reported cycle something can always be taken, even when part keys repeat: a non-empty
      list in which no note holds an entry has a free one. */
  lemma NoCycleNoStarvation(planned: seq<Plan>) returns (i: nat)
    requires planned != [] && Acyclic(Nodes(planned)) && forall p | p in planned :: p.note == NoNote
    ensures i < |planned| && HoldAgainst(planned[i], PlannedKeys(planned)) == Free
  {
    var keys := PlannedKeys(planned);
    if keys == {} {
      i := 0;
      FreeIs(planned[0], keys);
    } else {
      var first :| first in keys;
      var key := Sink(Nodes(planned), [first]);
      i := NodeEntry(planned, key);
      FreeIs(planned[i], keys);
      forall ref | ref in planned[i].Requires() ensures PartKey(ref) !in keys {
        var k :| 0 <= k < |planned[i].Requires()| && planned[i].Requires()[k] == ref;
        assert Keys(planned[i].Requires())[k] == PartKey(ref);
      }
      assert planned[i] in planned;
    }
  }

  ghost predicate DistinctKeys(planned: seq<Plan>) {
    forall i, j | 0 <= i < j < |planned| && planned[i].own.Some? && planned[j].own.Some? ::
      PartKey(planned[i].own.value) != PartKey(planned[j].own.value)
  }

  /** With distinct keys the graph says what each entry requires. */
  lemma {:induction false} NodeOf(planned: seq<Plan>, i: nat)
    requires DistinctKeys(planned) && i < |planned| && planned[i].own.Some?
    ensures PartKey(planned[i].own.value) in Nodes(planned)
    ensures Nodes(planned)[PartKey(planned[i].own.value)] == Node(Name(planned[i].own.value), Keys(planned[i].Requires()))
  {
    hide PartKey, Keys, Name;
    var n := |planned| - 1;
    if i < n {
      NodeOf(planned[..n], i);
    }
  }

  function Without(planned: seq<Plan>, i: nat): seq<Plan>
    requires i < |planned|
  {
    planned[..i] + planned[i + 1..]
  }

  /** Every entry but the one taken is still there. */
  lemma WithoutKeeps(planned: seq<Plan>, i: nat)
    requires i < |planned|
    ensures forall p | p in Without(planned, i) :: p in planned
    ensures forall p | p in planned && p != planned[i] :: p in Without(planned, i)
  {
    var rest := Without(planned, i);
    assert forall j | 0 <= j < |rest| :: rest[j] == planned[if j < i then j else j + 1];
    forall p | p in planned && p != planned[i] ensures p in rest {
      var j :| 0 <= j < |planned| && planned[j] == p;
      assert planned[j] == rest[if j < i then j else j - 1];
    }
  }

  /** A free entry is taken. */
  ghost predicate Takes(before: seq<Plan>, after: seq<Plan>, i: nat) {
    i < |before| && HoldAgainst(before[i], PlannedKeys(before)) == Free && after == Without(before, i)
  }

  ghost predicate Step(before: seq<Plan>, after: seq<Plan>) {
    exists i: nat :: Takes(before, after, i)
  }

  /** A run of the team: each list is the one before without one of its free entries. */
  ghost predicate Merging(run: seq<seq<Plan>>) {
    run != [] && forall k | 0 < k < |run| :: Step(run[k - 1], run[k])
  }

  ghost predicate Stuck(planned: seq<Plan>) {
    forall p | p in planned :: HoldAgainst(p, PlannedKeys(planned)) != Free
  }

  ghost predicate NoteFree(planned: seq<Plan>) {
    forall p | p in planned :: p.note == NoNote
  }

  // ---------------------------------------------------------------- the graph of the entries

  /** `p` requires the part that `q` carries: an edge of the graph whose nodes are the entries
      themselves, so that entries with the same part key stay apart. Copies of one entry have the same
      edges, so a walk need not say which copy it visits. */
  ghost predicate Needs(p: Plan, q: Plan) {
    q.own.Some? && PartKey(q.own.value) in Keys(p.Requires())
  }

  ghost predicate EntryWalk(planned: seq<Plan>, w: seq<Plan>) {
    && (forall i | 0 <= i < |w| :: w[i] in planned)
    && forall i | 0 < i < |w| :: Needs(w[i - 1], w[i])
  }

  ghost predicate EntryCycle(planned: seq<Plan>, w: seq<Plan>) {
    |w| >= 2 && EntryWalk(planned, w) && w[0] == w[|w| - 1]
  }

  ghost predicate EntryAcyclic(planned: seq<Plan>) {
    forall w: seq<Plan> :: !EntryCycle(planned, w)
  }

  /** Without a note, an entry is free exactly when it needs no entry of the list. */
  lemma FreeNeedsNone(planned: seq<Plan>, p: Plan)
    requires p.note == NoNote
    ensures HoldAgainst(p, PlannedKeys(planned)) == Free <==> forall q | q in planned :: !Needs(p, q)
  {
    hide PartKey, HoldAgainst, PlannedKeys;
    var keys := PlannedKeys(planned);
    FreeIs(p, keys);
    forall ref | ref in p.Requires() && PartKey(ref) in keys ensures exists q :: q in planned && Needs(p, q) {
      InPlannedKeys(planned, PartKey(ref));
      var r :| 0 <= r < |p.Requires()| && p.Requires()[r] == ref;
      assert Keys(p.Requires())[r] == PartKey(ref);
    }
    forall q | q in planned && Needs(p, q) ensures exists ref :: ref in p.Requires() && PartKey(ref) in keys {
      InPlannedKeys(planned, PartKey(q.own.value));
      var r :| 0 <= r < |Keys(p.Requires())| && Keys(p.Requires())[r] == PartKey(q.own.value);
      assert p.Requires()[r] in p.Requires();
    }
  }

  ghost predicate Waits(planned: seq<Plan>, p: Plan) {
    exists q :: q in planned && Needs(p, q)
  }

  lemma WaitsFor(planned: seq<Plan>, p: Plan) returns (q: Plan)
    requires Waits(planned, p)
    ensures q in planned && Needs(p, q)
  {
    q :| q in planned && Needs(p, q);
  }

  /** Following needs among entries that each need another comes round in the end. */
  lemma {:induction false} ComesRound(planned: seq<Plan>, w: seq<Plan>)
    requires forall p | p in planned :: Waits(planned, p)
    requires w != [] && EntryWalk(planned, w) && forall i, j | 0 <= i < j < |w| :: w[i] != w[j]
    ensures !EntryAcyclic(planned)
    decreases |planned| - |w|
  {
    hide Needs, Waits, EntryAcyclic;
    Fits(planned, w);
    var last := w[|w| - 1];
    assert last in planned;
    var next := WaitsFor(planned, last);
    if k :| 0 <= k < |w| && w[k] == next {
      Closes(planned, w[k..] + [next]);
    } else {
      Fits(planned, w + [next]);
      ComesRound(planned, w + [next]);
    }
  }

  lemma {:induction false} Fits(planned: seq<Plan>, w: seq<Plan>)
    requires (forall i | 0 <= i < |w| :: w[i] in planned) && forall i, j | 0 <= i < j < |w| :: w[i] != w[j]
    ensures |w| <= |planned|
  {
    if w != [] {
      var i :| 0 <= i < |planned| && planned[i] == w[|w| - 1];
      WithoutKeeps(planned, i);
      Fits(Without(planned, i), w[..|w| - 1]);
    }
  }

  lemma StuckOnCycle(planned: seq<Plan>)
    requires planned != [] && NoteFree(planned) && Stuck(planned)
    ensures !EntryAcyclic(planned)
  {
    hide Needs, HoldAgainst, PlannedKeys, EntryAcyclic;
    forall p | p in planned ensures Waits(planned, p) {
      FreeNeedsNone(planned, p);
    }
    ComesRound(planned, [planned[0]]);
  }

  /** Taking a free entry takes no entry on a cycle, and opens none. */
  lemma TakeKeeps(before: seq<Plan>, after: seq<Plan>, i: nat, w: seq<Plan>)
    requires Takes(before, after, i) && NoteFree(before)
    ensures NoteFree(after) && (EntryCycle(before, w) <==> EntryCycle(after, w))
  {
    hide Needs, HoldAgainst, PlannedKeys, Without;
    WithoutKeeps(before, i);
    FreeNeedsNone(before, before[i]);
    assert before[i] in before;
    if EntryCycle(before, w) {
      forall k | 0 <= k < |w| ensures w[k] != before[i] {
        var next := if k + 1 < |w| then k + 1 else 1;
        assert Needs(w[next - 1], w[next]) && w[next - 1] == w[k];
      }
    }
  }

  lemma {:induction false} RunKeepsCycles(run: seq<seq<Plan>>, k: nat, w: seq<Plan>)
    requires Merging(run) && k < |run| && NoteFree(run[0])
    ensures NoteFree(run[k]) && (EntryCycle(run[0], w) <==> EntryCycle(run[k], w))
  {
    hide EntryCycle, Takes, NoteFree;
    if k > 0 {
      RunKeepsCycles(run, k - 1, w);
      var i: nat :| Takes(run[k - 1], run[k], i);
      TakeKeeps(run[k - 1], run[k], i, w);
    }
  }

  /** Without notes, merging free entries in any order until none is left empties the list if and only
      if no entries wait on each other in a circle, repeated part keys or not. */
  lemma MergingEmptiesIff(run: seq<seq<Plan>>)
    requires Merging(run) && NoteFree(run[0]) && Stuck(run[|run| - 1])
    ensures run[|run| - 1] == [] <==> EntryAcyclic(run[0])
  {
    hide EntryCycle, Stuck, NoteFree, Step;
    var last := run[|run| - 1];
    forall w: seq<Plan> ensures EntryCycle(run[0], w) <==> EntryCycle(last, w) {
      RunKeepsCycles(run, |run| - 1, w);
    }
    RunKeepsCycles(run, |run| - 1, []);
    if last != [] {
      StuckOnCycle(last);
    } else {
      NothingCycles();
    }
  }

  lemma NothingCycles()
    ensures EntryAcyclic([])
  {
    forall w: seq<Plan> ensures !EntryCycle([], w) {
      if |w| >= 2 {
        assert w[0] !in [];
      }
    }
  }

  /** A cycle of parts is one of entries. */
  lemma ReportedCycleIsReal(planned: seq<Plan>)
    ensures EntryAcyclic(planned) ==> Acyclic(Nodes(planned))
  {
    hide Nodes, EntryAcyclic, PartKey, Keys;
    if p: seq<string> :| IsCycle(Nodes(planned), p) {
      var w := EntriesAlong(planned, p);
      assert w[0] == w[|w| - 1];
      Closes(planned, w);
    }
  }

  lemma Closes(planned: seq<Plan>, w: seq<Plan>)
    requires EntryCycle(planned, w)
    ensures !EntryAcyclic(planned)
  {
  }

  /** One entry for each part of a walk, the same for the same part. */
  ghost function EntryOf(planned: seq<Plan>, key: string): (p: Plan)
    requires key in Nodes(planned)
    ensures p in planned && Carries(planned, key, p)
  {
    SomeEntry(planned, key);
    var p :| p in planned && Carries(planned, key, p);
    p
  }

  /** The entry whose clause the graph has for a part. */
  ghost predicate Carries(planned: seq<Plan>, key: string, p: Plan)
    requires key in Nodes(planned)
  {
    p.own.Some? && PartKey(p.own.value) == key && Nodes(planned)[key].deps == Keys(p.Requires())
  }

  lemma SomeEntry(planned: seq<Plan>, key: string)
    requires key in Nodes(planned)
    ensures exists p :: p in planned && Carries(planned, key, p)
  {
    var i := NodeEntry(planned, key);
    assert planned[i] in planned && Carries(planned, key, planned[i]);
  }

  lemma EntriesAlong(planned: seq<Plan>, p: seq<string>) returns (w: seq<Plan>)
    requires Walk(Nodes(planned), p)
    ensures |w| == |p| && EntryWalk(planned, w) && forall i | 0 <= i < |p| :: w[i] == EntryOf(planned, p[i])
  {
    hide Nodes, PartKey, Keys;
    w := seq(|p|, i requires 0 <= i < |p| => EntryOf(planned, p[i]));
  }

  /** With distinct keys the parts' graph is the entries' graph. */
  lemma DistinctKeysAgree(planned: seq<Plan>)
    requires DistinctKeys(planned)
    ensures Acyclic(Nodes(planned)) <==> EntryAcyclic(planned)
  {
    hide Nodes, PartKey, Keys, DistinctKeys;
    ReportedCycleIsReal(planned);
    if w: seq<Plan> :| EntryCycle(planned, w) {
      assert Needs(w[|w| - 2], w[|w| - 1]);
      forall i | 0 <= i < |w| ensures w[i].own.Some? {
        assert i > 0 ==> Needs(w[i - 1], w[i]);
      }
      var p := seq(|w|, i requires 0 <= i < |w| => PartKey(w[i].own.value));
      forall i | 0 <= i < |w| ensures p[i] in Nodes(planned) && Nodes(planned)[p[i]].deps == Keys(w[i].Requires()) {
        var j :| 0 <= j < |planned| && planned[j] == w[i];
        NodeOf(planned, j);
      }
      forall i | 0 < i < |w| ensures p[i] in Nodes(planned)[p[i - 1]].deps {
        assert Needs(w[i - 1], w[i]);
      }
      assert IsCycle(Nodes(planned), p);
    }
  }

  /** With distinct keys, then, the list empties exactly when no cycle is reported. */
  lemma MergingEmptiesIffAcyclic(run: seq<seq<Plan>>)
    requires Merging(run) && NoteFree(run[0]) && DistinctKeys(run[0]) && Stuck(run[|run| - 1])
    ensures run[|run| - 1] == [] <==> Acyclic(Nodes(run[0]))
  {
    hide *;
    RunNotEmpty(run);
    MergingEmptiesIff(run);
    DistinctKeysAgree(run[0]);
  }

  lemma RunNotEmpty(run: seq<seq<Plan>>)
    requires Merging(run)
    ensures run != []
  {
  }

  /** With a repeated key the two graphs differ: no cycle is reported, yet taking the one free entry
      leaves two that wait on each other for good. */
  lemma RepeatedKeysStarve() returns (planned: seq<Plan>, i: nat)
    ensures Acyclic(Nodes(planned)) && !EntryAcyclic(planned) && NoteFree(planned)
    ensures i < |planned| && HoldAgainst(planned[i], PlannedKeys(planned)) == Free
    ensures Stuck(Without(planned, i)) && Without(planned, i) != []
  {
    var a, b := PartRef("s", "1", 2), PartRef("s", "2", 2);
    KeysDiffer(a, b);
    i := 1;
    planned := Starving(a, b);
  }

  /** Part `a` twice, the earlier entry in wait for `b`, and `b` in wait for `a`. */
  lemma Starving(a: PartRef, b: PartRef) returns (planned: seq<Plan>)
    requires PartKey(a) != PartKey(b)
    ensures |planned| == 3 && NoteFree(planned) && Acyclic(Nodes(planned)) && !EntryAcyclic(planned)
    ensures HoldAgainst(planned[1], PlannedKeys(planned)) == Free && Stuck(Without(planned, 1)) && Without(planned, 1) != []
  {
    hide PartKey, Name, Ordered, Acyclic, HoldAgainst, Nodes, EntryAcyclic, Stuck, PlannedKeys, Keys;
    var first, again := Plan("x", Some(a), Some([b]), [], NoNote), Plan("y", Some(a), None, [], NoNote);
    var other := Plan("z", Some(b), Some([a]), [], NoNote);
    planned := [first, again, other];
    var ka, kb := PartKey(a), PartKey(b);
    KeysOfOne(a);
    KeysOfOne(b);
    RepeatedNodes(first, again, other, ka, kb);
    TwoOrdered(Nodes(planned), ka, kb);
    OrderedAcyclic(Nodes(planned), [ka, kb]);
    FreeIs(again, PlannedKeys(planned));
    assert Without(planned, 1) == [first, other];
    PairStuck(first, other, a, b);
    PairCloses(planned, first, other, ka, kb);
  }

  lemma KeysOfOne(ref: PartRef)
    ensures Keys([ref]) == [PartKey(ref)] && Keys([]) == []
  {
    hide PartKey;
  }

  /** Two entries that require each other's part wait for good. */
  lemma PairStuck(p: Plan, q: Plan, a: PartRef, b: PartRef)
    requires p.own == Some(a) && p.clause == Some([b]) && q.own == Some(b) && q.clause == Some([a])
    ensures Stuck([p, q])
  {
    hide PartKey, HoldAgainst;
    PairKeys(p, q);
    FreeIs(p, PlannedKeys([p, q]));
    FreeIs(q, PlannedKeys([p, q]));
    assert b in p.Requires() && a in q.Requires();
  }

  lemma PairCloses(planned: seq<Plan>, p: Plan, q: Plan, a: string, b: string)
    requires p in planned && q in planned && p.own.Some? && q.own.Some? && PartKey(p.own.value) == a && PartKey(q.own.value) == b
    requires Keys(p.Requires()) == [b] && Keys(q.Requires()) == [a]
    ensures !EntryAcyclic(planned)
  {
    hide PartKey, Keys, EntryAcyclic;
    assert Needs(p, q) && Needs(q, p);
    Closes(planned, [p, q, p]);
  }

  /** The later plan of a key replaces the earlier one's node. */
  lemma RepeatedNodes(first: Plan, again: Plan, other: Plan, ka: string, kb: string)
    requires ka != kb && first.own.Some? && again.own.Some? && other.own.Some?
    requires PartKey(first.own.value) == PartKey(again.own.value) == ka && PartKey(other.own.value) == kb
    ensures Nodes([first, again, other])
         == map[ka := Node(Name(again.own.value), Keys(again.Requires())), kb := Node(Name(other.own.value), Keys(other.Requires()))]
  {
    hide PartKey, Name, Keys;
    assert [first][..0] == [] && [first, again][..1] == [first] && [first, again, other][..2] == [first, again];
    var one, two := Nodes([first]), Nodes([first, again]);
    assert one == map[ka := Node(Name(first.own.value), Keys(first.Requires()))];
    assert two == map[ka := Node(Name(again.own.value), Keys(again.Requires()))];
  }

  lemma PairKeys(p: Plan, q: Plan)
    requires p.own.Some? && q.own.Some?
    ensures PlannedKeys([p, q]) == {PartKey(p.own.value), PartKey(q.own.value)}
  {
    hide PartKey;
    KeysSnoc([], p);
    KeysSnoc([p], q);
    assert [] + [p] == [p] && [p] + [q] == [p, q];
  }

  lemma KeysDiffer(a: PartRef, b: PartRef)
    requires a.series == b.series && a.part == "1" && b.part == "2"
    ensures PartKey(a) != PartKey(b)
  {
    hide Lower;
    assert PartKey(a)[|PartKey(a)| - 1] == '1' && PartKey(b)[|PartKey(b)| - 1] == '2';
  }

  lemma TwoOrdered(nodes: map<string, Node>, a: string, b: string)
    requires a in nodes && b in nodes && a != b && nodes[a].deps == [] && nodes[b].deps == [a]
    ensures Ordered(nodes, [a, b])
  {
    assert [a, b][..1] == [a];
  }

  // ---------------------------------------------------------------- planDependencyProblems

  /** A title under `## Done`: its part, and whether it was retired rather than built. */
  datatype DoneTitle = DoneTitle(own: Option<PartRef>, retired: bool)

  function KnownParts(planned: seq<Plan>, done: seq<DoneTitle>): set<string> {
    if done == [] then PlannedKeys(planned)
    else (if done[0].own.Some? && !done[0].retired then {PartKey(done[0].own.value)} else {}) + KnownParts(planned, done[1..])
  }

  /** Some planned entry carries the part, or some title under Done that was built rather than retired. */
  ghost predicate Carried(planned: seq<Plan>, done: seq<DoneTitle>, key: string) {
    || (exists p :: p in planned && p.own.Some? && PartKey(p.own.value) == key)
    || exists d :: d in done && d.own.Some? && !d.retired && PartKey(d.own.value) == key
  }

  lemma {:induction false} KnownIs(planned: seq<Plan>, done: seq<DoneTitle>, key: string)
    ensures key in KnownParts(planned, done) <==> Carried(planned, done, key)
  {
    hide PartKey;
    if done == [] {
      InPlannedKeys(planned, key);
    } else {
      KnownIs(planned, done[1..], key);
      assert forall d :: d in done <==> d == done[0] || d in done[1..];
    }
  }

  lemma {:induction false} DanglingOfIs(p: Plan, refs: seq<PartRef>, known: set<string>, r: Reported)
    ensures r in DanglingOf(p, refs, known) <==> exists ref :: ref in refs && PartKey(ref) !in known && r == Reported(p.title, Name(ref))
  {
    hide PartKey, Name;
    if refs != [] {
      DanglingOfIs(p, refs[1..], known, r);
      assert forall ref :: ref in refs <==> ref == refs[0] || ref in refs[1..];
    }
  }

  lemma {:induction false} AllDanglingIs(planned: seq<Plan>, known: set<string>, r: Reported)
    ensures r in AllDangling(planned, known)
       <==> exists p, ref :: p in planned && ref in p.Requires() && PartKey(ref) !in known && r == Reported(p.title, Name(ref))
  {
    hide PartKey, Name, DanglingOf;
    if planned != [] {
      var n := |planned| - 1;
      AllDanglingIs(planned[..n], known, r);
      DanglingOfIs(planned[n], planned[n].Requires(), known, r);
      assert forall p :: p in planned <==> p in planned[..n] || p == planned[n];
    }
  }

  /** A ref is reported as dangling exactly when a planned entry's clause names it and no planned entry
      and no built title carries that part; a retired title carries nothing. */
  lemma DanglingIs(planned: seq<Plan>, done: seq<DoneTitle>, r: Reported)
    ensures r in AllDangling(planned, KnownParts(planned, done))
       <==> exists p, ref :: p in planned && ref in p.Requires() && !Carried(planned, done, PartKey(ref)) && r == Reported(p.title, Name(ref))
  {
    hide *;
    AllDanglingIs(planned, KnownParts(planned, done), r);
    forall key ensures key in KnownParts(planned, done) <==> Carried(planned, done, key) {
      KnownIs(planned, done, key);
    }
  }

  /** An entry is reported as unparsed exactly when it has a clause and the clause names no part. */
  lemma {:induction false} UnparsedIs(planned: seq<Plan>, title: string)
    ensures title in Unparsed(planned) <==> exists p :: p in planned && p.title == title && p.clause == Some([])
  {
    if planned != [] {
      var n := |planned| - 1;
      UnparsedIs(planned[..n], title);
      assert forall p :: p in planned <==> p in planned[..n] || p == planned[n];
    }
  }

  /** What the doctor reports, and what a clean report is worth to the allocator. */
  method PlanDependencyProblems(planned: seq<Plan>, done: seq<DoneTitle>)
    returns (cycle: Option<seq<string>>, dangling: seq<Reported>, unparsed: seq<string>, misworded: seq<Reported>)
    ensures cycle.None? <==> Acyclic(Nodes(planned))
    ensures cycle.None? && planned != [] && (forall p | p in planned :: p.note == NoNote) ==>
              exists i | 0 <= i < |planned| :: HoldAgainst(planned[i], PlannedKeys(planned)) == Free
    ensures dangling == AllDangling(planned, KnownParts(planned, done)) && unparsed == Unparsed(planned)
    ensures misworded == AllMisworded(planned, PlannedKeys(planned))
  {
    hide *;
    var keys, nodes;
    keys, nodes, dangling, unparsed, misworded := DependencyEntryScan(planned, KnownParts(planned, done));
    ghost var path;
    cycle, path := FirstDependencyCycle(keys, nodes);
    if cycle.None? && planned != [] && (forall p | p in planned :: p.note == NoNote) {
      ghost var i := NoCycleNoStarvation(planned);
    }
  }

  // ---------------------------------------------------------------- plansWaitingOn

  function OwnKey(p: Plan): string {
    if p.own.Some? then PartKey(p.own.value) else ""
  }

  /** Entry `i` names the part `key` in its clause, and has a part of its own. */
  predicate DependsOn(planned: seq<Plan>, i: nat, key: string) {
    i < |planned| && planned[i].own.Some? && key in Keys(planned[i].Requires())
  }

  /** A chain of entries: the first requires `key`, each other one the part of the one before it. */
  ghost predicate Chain(planned: seq<Plan>, key: string, chain: seq<nat>) {
    && chain != []
    && (forall k | 0 <= k < |chain| :: chain[k] < |planned|)
    && DependsOn(planned, chain[0], key)
    && forall k | 0 < k < |chain| :: DependsOn(planned, chain[k], OwnKey(planned[chain[k - 1]]))
  }

  ghost predicate WaitsOn(planned: seq<Plan>, key: string, i: nat) {
    exists chain: seq<nat> :: Chain(planned, key, chain) && chain[|chain| - 1] == i
  }

  ghost predicate Ascending(s: seq<nat>) {
    forall i, j | 0 <= i < j < |s| :: s[i] < s[j]
  }

  predicate Listed(dependents: map<string, seq<nat>>, key: string, i: nat) {
    key in dependents && i in dependents[key]
  }

  /** The map from each required part to the entries that require it. */
  ghost predicate Indexed(dependents: map<string, seq<nat>>, planned: seq<Plan>, n: nat) {
    forall key, i: nat :: Listed(dependents, key, i) <==> (i < n && DependsOn(planned, i, key))
  }

  lemma IndexStart(planned: seq<Plan>)
    ensures Indexed(map[], planned, 0)
  {
  }

  /** The map once the first `j` required parts of entry `n` are in. */
  ghost predicate Indexing(dependents: map<string, seq<nat>>, planned: seq<Plan>, n: nat, keys: seq<string>, j: nat) {
    j <= |keys| &&
    forall key, i: nat :: Listed(dependents, key, i) <==> ((i < n && DependsOn(planned, i, key)) || (i == n && key in keys[..j]))
  }

  lemma IndexingStarts(dependents: map<string, seq<nat>>, planned: seq<Plan>, n: nat, keys: seq<string>)
    requires Indexed(dependents, planned, n)
    ensures Indexing(dependents, planned, n, keys, 0)
  {
    hide DependsOn;
  }

  lemma IndexingStep(dependents: map<string, seq<nat>>, planned: seq<Plan>, n: nat, keys: seq<string>, j: nat)
    requires Indexing(dependents, planned, n, keys, j) && j < |keys|
    ensures Indexing(dependents[keys[j] := (if keys[j] in dependents then dependents[keys[j]] else []) + [n]], planned, n, keys, j + 1)
  {
    hide DependsOn;
    assert keys[..j + 1] == keys[..j] + [keys[j]];
    var held := if keys[j] in dependents then dependents[keys[j]] else [];
    var next := dependents[keys[j] := held + [n]];
    forall key, i: nat
      ensures Listed(next, key, i) <==> ((i < n && DependsOn(planned, i, key)) || (i == n && key in keys[..j + 1]))
    {
      assert Listed(dependents, key, i) ==> key in dependents;
      if key == keys[j] {
        assert i in held + [n] <==> i in held || i == n;
      } else {
        assert key in keys[..j + 1] <==> key in keys[..j];
      }
    }
  }

  lemma IndexingEnds(dependents: map<string, seq<nat>>, planned: seq<Plan>, n: nat)
    requires n < |planned|
    requires planned[n].own.Some? ==> Indexing(dependents, planned, n, Keys(planned[n].Requires()), |Keys(planned[n].Requires())|)
    requires planned[n].own.None? ==> Indexed(dependents, planned, n)
    ensures Indexed(dependents, planned, n + 1)
  {
    hide Keys, PartKey;
    var keys := Keys(planned[n].Requires());
    assert keys[..|keys|] == keys;
  }

  method IndexDependents(planned: seq<Plan>) returns (dependents: map<string, seq<nat>>)
    ensures Indexed(dependents, planned, |planned|)
  {
    hide *;
    dependents := map[];
    IndexStart(planned);
    for i := 0 to |planned|
      invariant Indexed(dependents, planned, i)
    {
      var entry := planned[i];
      if entry.own.Some? {
        var refs := entry.Requires();
        IndexingStarts(dependents, planned, i, Keys(refs));
        for j := 0 to |refs|
          invariant Indexing(dependents, planned, i, Keys(refs), j)
        {
          var key := PartKey(refs[j]);
          IndexingStep(dependents, planned, i, Keys(refs), j);
          var held := if key in dependents then dependents[key] else [];
          dependents := dependents[key := held + [i]];
        }
      }
      IndexingEnds(dependents, planned, i);
    }
  }

  lemma FoundIs(dependents: map<string, seq<nat>>, planned: seq<Plan>, key: string)
    requires Indexed(dependents, planned, |planned|)
    ensures forall i: nat :: i in (if key in dependents then dependents[key] else []) <==> DependsOn(planned, i, key)
  {
    hide Keys;
    forall i: nat ensures i in (if key in dependents then dependents[key] else []) <==> DependsOn(planned, i, key) {
      assert Listed(dependents, key, i) <==> DependsOn(planned, i, key) by {
        if DependsOn(planned, i, key) {
          DependsFacts(planned, i, key);
        }
      }
    }
  }

  lemma DependsFacts(planned: seq<Plan>, i: nat, key: string)
    requires DependsOn(planned, i, key)
    ensures i < |planned| && planned[i].own.Some?
  {
    hide Keys;
  }

  /** Everything seen, apart from the entry asked about, waits on it; the parts of everything seen are
      handled or queued. */
  ghost predicate Searching(planned: seq<Plan>, index: nat, key: string, seen: set<nat>, queue: seq<string>, handled: set<string>) {
    && index in seen && (forall i | i in seen :: i < |planned| && planned[i].own.Some?)
    && key == OwnKey(planned[index])
    && (forall i | i in seen && i != index :: WaitsOn(planned, key, i))
    && (forall i | i in seen :: OwnKey(planned[i]) in handled || OwnKey(planned[i]) in queue)
    && forall k | k in queue || k in handled :: KeyOfSeen(planned, seen, k)
  }

  ghost predicate KeyOfSeen(planned: seq<Plan>, seen: set<nat>, key: string) {
    exists i :: i in seen && i < |planned| && OwnKey(planned[i]) == key
  }

  /** Every entry that requires a handled part is seen. */
  ghost predicate Covered(planned: seq<Plan>, seen: set<nat>, handled: set<string>) {
    forall k, i: nat | k in handled && DependsOn(planned, i, k) :: i in seen
  }

  lemma ChainStarts(planned: seq<Plan>, key: string, i: nat)
    requires DependsOn(planned, i, key)
    ensures WaitsOn(planned, key, i)
  {
    hide DependsOn, OwnKey;
    DependsFacts(planned, i, key);
    assert Chain(planned, key, [i]) && [i][|[i]| - 1] == i;
  }

  lemma ChainOn(planned: seq<Plan>, key: string, j: nat, i: nat)
    requires WaitsOn(planned, key, j) && j < |planned| && DependsOn(planned, i, OwnKey(planned[j]))
    ensures WaitsOn(planned, key, i)
  {
    hide DependsOn, OwnKey;
    var chain: seq<nat> :| Chain(planned, key, chain) && chain[|chain| - 1] == j;
    DependsFacts(planned, i, OwnKey(planned[j]));
    LongerChain(planned, key, chain, i);
    assert (chain + [i])[|chain + [i]| - 1] == i;
  }

  lemma LongerChain(planned: seq<Plan>, key: string, chain: seq<nat>, i: nat)
    requires Chain(planned, key, chain) && i < |planned| && DependsOn(planned, i, OwnKey(planned[chain[|chain| - 1]]))
    ensures Chain(planned, key, chain + [i])
  {
    hide DependsOn, OwnKey;
    var c := chain + [i];
    assert c[0] == chain[0];
    forall k | 0 < k < |c| ensures DependsOn(planned, c[k], OwnKey(planned[c[k - 1]])) {
      assert c[k - 1] == chain[k - 1];
      if k < |chain| {
        assert c[k] == chain[k];
      }
    }
  }

  lemma {:induction false} ChainSeen(planned: seq<Plan>, key: string, seen: set<nat>, handled: set<string>, chain: seq<nat>, k: nat)
    requires Covered(planned, seen, handled) && Chain(planned, key, chain) && k < |chain|
    requires key in handled && forall i | i in seen :: i < |planned| && OwnKey(planned[i]) in handled
    ensures chain[k] in seen
  {
    hide DependsOn, OwnKey;
    if k > 0 {
      ChainSeen(planned, key, seen, handled, chain, k - 1);
    }
  }

  lemma SearchStarts(planned: seq<Plan>, index: nat)
    requires index < |planned| && planned[index].own.Some?
    ensures Searching(planned, index, OwnKey(planned[index]), {index}, [OwnKey(planned[index])], {})
    ensures Covered(planned, {index}, {})
  {
    hide WaitsOn, OwnKey, DependsOn;
  }

  lemma Dequeued(planned: seq<Plan>, index: nat, own: string, seen: set<nat>, key: string, rest: seq<string>, handled: set<string>)
    requires Searching(planned, index, own, seen, [key] + rest, handled)
    ensures Searching(planned, index, own, seen, rest, handled + {key})
  {
    hide WaitsOn, OwnKey, KeyOfSeen;
    assert forall k :: k in [key] + rest <==> k == key || k in rest;
  }

  lemma Reached(planned: seq<Plan>, index: nat, own: string, seen: set<nat>, queue: seq<string>, handled: set<string>, key: string, i: nat)
    requires Searching(planned, index, own, seen, queue, handled) && key in handled
    requires DependsOn(planned, i, key) && i !in seen
    ensures i < |planned| && Searching(planned, index, own, seen + {i}, queue + [OwnKey(planned[i])], handled)
    ensures forall j | j in seen + {i} :: j < |planned|
  {
    hide WaitsOn, OwnKey, DependsOn;
    DependsFacts(planned, i, key);
    var j :| j in seen && j < |planned| && OwnKey(planned[j]) == key;
    if j == index {
      ChainStarts(planned, own, i);
    } else {
      ChainOn(planned, own, j, i);
    }
    var seen', next := seen + {i}, OwnKey(planned[i]);
    assert i in seen';
    forall k | k in queue + [next] || k in handled ensures KeyOfSeen(planned, seen', k) {
      if k == next {
        assert KeyOfSeen(planned, seen', next);
      } else {
        assert KeyOfSeen(planned, seen, k);
        var m :| m in seen && m < |planned| && OwnKey(planned[m]) == k;
        assert m in seen';
      }
    }
    forall m | m in seen' ensures OwnKey(planned[m]) in handled || OwnKey(planned[m]) in queue + [next] {
      if m == i {
        assert (queue + [next])[|queue|] == next;
      }
    }
  }

  lemma CoveredMore(planned: seq<Plan>, seen: set<nat>, i: nat, handled: set<string>)
    requires Covered(planned, seen, handled)
    ensures Covered(planned, seen + {i}, handled)
  {
    hide DependsOn;
  }

  lemma CoveredNext(planned: seq<Plan>, seen: set<nat>, handled: set<string>, key: string)
    requires Covered(planned, seen, handled) && forall i: nat | DependsOn(planned, i, key) :: i in seen
    ensures Covered(planned, seen, handled + {key})
  {
    hide DependsOn;
  }

  /** With the queue empty, what is seen is what waits. */
  lemma SearchEnds(planned: seq<Plan>, index: nat, own: string, seen: set<nat>, handled: set<string>)
    requires Searching(planned, index, own, seen, [], handled) && Covered(planned, seen, handled)
    ensures forall i: nat | i != index :: i in seen <==> (i < |planned| && WaitsOn(planned, own, i))
  {
    hide DependsOn, OwnKey, KeyOfSeen, Covered;
    forall i: nat | i != index && i < |planned| && WaitsOn(planned, own, i) ensures i in seen {
      var chain: seq<nat> :| Chain(planned, own, chain) && chain[|chain| - 1] == i;
      ChainSeen(planned, own, seen, handled, chain, |chain| - 1);
    }
  }

  /** The ascending indexes of the entries that require this entry's part, directly or through a chain
      of parts; a cycle ends the walk, and the entry itself is never listed. */
  method PlansWaitingOn(planned: seq<Plan>, index: nat) returns (waiting: seq<nat>)
    ensures Ascending(waiting)
    ensures index >= |planned| || planned[index].own.None? ==> waiting == []
    ensures index < |planned| && planned[index].own.Some? ==>
              forall i: nat :: i in waiting <==> i != index && i < |planned| && WaitsOn(planned, OwnKey(planned[index]), i)
  {
    hide *;
    if index >= |planned| || planned[index].own.None? {
      EmptyAscends();
      return [];
    }
    var dependents := IndexDependents(planned);
    var own := OwnKey(planned[index]);
    var seen: set<nat> := {index};
    var queue := [own];
    ghost var handled: set<string> := {};
    SearchStarts(planned, index);
    while queue != []
      invariant Searching(planned, index, own, seen, queue, handled) && Covered(planned, seen, handled)
      invariant |seen| <= |planned|
      decreases 2 * (|planned| - |seen|) + |queue|
    {
      var key := queue[0];
      assert queue == [key] + queue[1..];
      var found := if key in dependents then dependents[key] else [];
      FoundIs(dependents, planned, key);
      ghost var size, length := |seen|, |queue|;
      Dequeued(planned, index, own, seen, key, queue[1..], handled);
      queue := queue[1..];
      for n := 0 to |found|
        invariant Searching(planned, index, own, seen, queue, handled + {key})
        invariant Covered(planned, seen, handled)
        invariant forall i | i in found[..n] :: i in seen
        invariant |seen| <= |planned| && |queue| + 1 - length == |seen| - size && size <= |seen|
      {
        var i := found[n];
        assert i in found && found[..n + 1] == found[..n] + [i];
        if i !in seen {
          Reached(planned, index, own, seen, queue, handled + {key}, key, i);
          CoveredMore(planned, seen, i, handled);
          FitsIn(seen + {i}, |planned|);
          seen := seen + {i};
          queue := queue + [OwnKey(planned[i])];
        }
      }
      assert found[..|found|] == found;
      CoveredNext(planned, seen, handled, key);
      handled := handled + {key};
    }
    SearchEnds(planned, index, own, seen, handled);
    waiting := Sorted(seen - {index}, |planned|);
  }

  lemma EmptyAscends()
    ensures Ascending([])
  {
  }

  lemma {:induction false} FitsIn(s: set<nat>, n: nat)
    requires forall i | i in s :: i < n
    ensures |s| <= n
  {
    if n > 0 {
      FitsIn(s - {n - 1}, n - 1);
    } else {
      assert s == {};
    }
  }

  /** The set's members below `n`, ascending. */
  method Sorted(s: set<nat>, n: nat) returns (r: seq<nat>)
    ensures Ascending(r) && forall i: nat :: i in r <==> i in s && i < n
  {
    r := [];
    for i := 0 to n
      invariant Ascending(r) && forall k: nat :: k in r <==> k in s && k < i
    {
      if i in s {
        assert forall k | 0 <= k < |r| :: r[k] in r;
        r := r + [i];
      }
    }
  }
}
