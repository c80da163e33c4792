/** What unmerged changes do to `## Planned` (src/backlog/backlog-pending.ts). */
module Pending {
  import opened Wrappers
  import opened SectionReaders

  // A keyed diff, and the projection that applies it to main's entries through a list and an index of
  // the same objects. `key` is `entryKey`, a function of the title.

  type KeyOf = string -> string

  datatype PlanChange = PlanChange(added: seq<BacklogEntry>, removed: seq<BacklogEntry>, changed: seq<BacklogEntry>)

  // ---------------------------------------------------------------- keyed lists

  function KeySet(key: KeyOf, es: seq<BacklogEntry>): set<string> {
    set e | e in es :: key(e.title)
  }

  predicate HasKey(key: KeyOf, es: seq<BacklogEntry>, k: string) {
    exists e | e in es :: key(e.title) == k
  }

  /** Where a key occurs last: the entry the index holds. */
  function LastIndex(key: KeyOf, es: seq<BacklogEntry>, k: string): (i: nat)
    requires HasKey(key, es, k)
    ensures i < |es| && key(es[i].title) == k
    ensures forall j | i < j < |es| :: key(es[j].title) != k
  {
    var n := |es| - 1;
    if key(es[n].title) == k then n
    else
      assert forall e | e in es && key(e.title) == k :: e in es[..n];
      LastIndex(key, es[..n], k)
  }

  ghost predicate DistinctKeys(key: KeyOf, es: seq<BacklogEntry>) {
    forall i, j | 0 <= i < j < |es| :: key(es[i].title) != key(es[j].title)
  }

  function Dropped(key: KeyOf, es: seq<BacklogEntry>, keys: set<string>): seq<BacklogEntry> {
    if es == [] then [] else (if key(es[0].title) in keys then [] else [es[0]]) + Dropped(key, es[1..], keys)
  }

  /** A rewrite: the entry the index holds takes the change's title and body; an unknown one is appended. */
  function Rewritten(key: KeyOf, es: seq<BacklogEntry>, e: BacklogEntry): seq<BacklogEntry> {
    if HasKey(key, es, key(e.title)) then es[LastIndex(key, es, key(e.title)) := e] else es + [e]
  }

  function RewrittenAll(key: KeyOf, es: seq<BacklogEntry>, changed: seq<BacklogEntry>): seq<BacklogEntry> {
    if changed == [] then es
    else Rewritten(key, RewrittenAll(key, es, changed[..|changed| - 1]), changed[|changed| - 1])
  }

  function Added(key: KeyOf, es: seq<BacklogEntry>, e: BacklogEntry): seq<BacklogEntry> {
    if HasKey(key, es, key(e.title)) then es else es + [e]
  }

  function AddedAll(key: KeyOf, es: seq<BacklogEntry>, added: seq<BacklogEntry>): seq<BacklogEntry> {
    if added == [] then es else Added(key, AddedAll(key, es, added[..|added| - 1]), added[|added| - 1])
  }

  function Applied(key: KeyOf, es: seq<BacklogEntry>, c: PlanChange): seq<BacklogEntry> {
    AddedAll(key, RewrittenAll(key, Dropped(key, es, KeySet(key, c.removed)), c.changed), c.added)
  }

  /** Main's entries with every change applied, in order. */
  function Projected(key: KeyOf, es: seq<BacklogEntry>, changes: seq<PlanChange>): seq<BacklogEntry> {
    if changes == [] then es
    else Applied(key, Projected(key, es, changes[..|changes| - 1]), changes[|changes| - 1])
  }

  // ---------------------------------------------------------------- the list and its index

  class PlannedEntry {
    var title: string
    var body: string

    constructor (e: BacklogEntry)
      ensures title == e.title && body == e.body
    {
      title, body := e.title, e.body;
    }
  }

  function Values(objects: seq<PlannedEntry>): (es: seq<BacklogEntry>)
    reads objects
    ensures |es| == |objects|
    ensures forall i | 0 <= i < |es| :: es[i] == BacklogEntry(objects[i].title, objects[i].body)
  {
    if objects == [] then []
    else [BacklogEntry(objects[0].title, objects[0].body)] + Values(objects[1..])
  }

  lemma ValuesConcat(a: seq<PlannedEntry>, b: seq<PlannedEntry>)
    ensures Values(a + b) == Values(a) + Values(b)
  {
    var x, y := Values(a + b), Values(a) + Values(b);
    forall i | 0 <= i < |x| ensures x[i] == y[i] {
      if i < |a| {
        assert (a + b)[i] == a[i];
      } else {
        assert (a + b)[i] == b[i - |a|];
      }
    }
  }

  /** The objects of the entries kept. */
  function DroppedObjects(key: KeyOf, objects: seq<PlannedEntry>, es: seq<BacklogEntry>, keys: set<string>): (r: seq<PlannedEntry>)
    requires |objects| == |es|
    ensures |r| == |Dropped(key, es, keys)|
    ensures forall o | o in r :: o in objects
  {
    if es == [] then []
    else (if key(es[0].title) in keys then [] else [objects[0]]) + DroppedObjects(key, objects[1..], es[1..], keys)
  }

  ghost predicate Distinct(objects: seq<PlannedEntry>) {
    forall i, j | 0 <= i < j < |objects| :: objects[i] != objects[j]
  }

  /** The index holds exactly the list's keys, each with the last entry that has it. */
  ghost predicate Indexes(key: KeyOf, objects: seq<PlannedEntry>, es: seq<BacklogEntry>, byKey: map<string, PlannedEntry>)
    requires |objects| == |es|
  {
    && (forall k :: k in byKey <==> HasKey(key, es, k))
    && forall k | k in byKey :: byKey[k] == objects[LastIndex(key, es, k)]
  }

  class Projection {
    const key: KeyOf
    var entries: seq<PlannedEntry>
    var byKey: map<string, PlannedEntry>

    ghost predicate Valid()
      reads this, entries
    {
      Distinct(entries) && Indexes(key, entries, Values(entries), byKey)
    }

    lemma ValidIs()
      ensures Valid() <==> Distinct(entries) && Indexes(key, entries, Values(entries), byKey)
    {
    }

    /** Copies of main's entries, indexed; of entries with one key the last is indexed. */
    constructor (key: KeyOf, planned: seq<BacklogEntry>)
      ensures Valid() && this.key == key && Values(entries) == planned
      ensures forall o | o in entries :: fresh(o)
    {
      this.key := key;
      entries := [];
      byKey := map[];
      new;
      hide *;
      ValidIs();
      NothingIndexed(this.key);
      NoValues();
      assert planned[..0] == [];
      for i := 0 to |planned|
        invariant Valid() && this.key == key && Values(entries) == planned[..i]
        invariant forall o | o in entries :: fresh(o)
      {
        assert planned[..i + 1] == planned[..i] + [planned[i]];
        ghost var before := entries;
        Push(planned[i]);
        assert forall o | o in entries :: o in entries[..|before|] || o == entries[|before|];
      }
      assert planned[..|planned|] == planned;
    }

    /** `push` and `set`: the copy joins both. */
    method Push(e: BacklogEntry)
      requires Valid()
      modifies this
      ensures Valid() && Values(entries) == old(Values(entries)) + [e]
      ensures |entries| == |old(entries)| + 1 && entries[..|old(entries)|] == old(entries) && fresh(entries[|old(entries)|])
    {
      hide *;
      ValidIs();
      var copy := new PlannedEntry(e);
      ghost var before, es := entries, Values(entries);
      ValuesConcat(entries, [copy]);
      OneValue(copy, e);
      Pushed(key, entries, es, byKey, copy, e);
      entries := entries + [copy];
      byKey := byKey[key(e.title) := copy];
      assert entries[..|before|] == before;
      ValidIs();
    }

    /** The backward splice loop: every entry whose key is removed leaves the list and the index. */
    method Remove(keys: set<string>)
      requires Valid()
      modifies this
      ensures Valid() && Values(entries) == Dropped(key, old(Values(entries)), keys)
      ensures forall o | o in entries :: o in old(entries)
    {
      hide *;
      ValidIs();
      ghost var objects, es, index := entries, Values(entries), byKey;
      var i := |entries|;
      NothingDropped(key, keys);
      assert objects[..i] == objects && objects[i..] == [] && es[i..] == [];
      while i > 0
        invariant 0 <= i <= |objects|
        invariant entries == objects[..i] + DroppedObjects(key, objects[i..], es[i..], keys)
        invariant forall k :: k in byKey <==> k in index && !(k in keys && HasKey(key, es[i..], k))
        invariant forall k | k in byKey :: byKey[k] == index[k]
      {
        i := i - 1;
        assert objects[i..] == [objects[i]] + objects[i + 1..] && es[i..] == [es[i]] + es[i + 1..];
        DroppedCons(key, objects[i], objects[i + 1..], es[i], es[i + 1..], keys);
        HasKeyCons(key, es[i], es[i + 1..]);
        ghost var rest := DroppedObjects(key, objects[i + 1..], es[i + 1..], keys);
        assert objects[..i + 1] == objects[..i] + [objects[i]];
        assert entries == objects[..i] + [objects[i]] + rest;
        assert [] + rest == rest && objects[..i] + ([objects[i]] + rest) == objects[..i] + [objects[i]] + rest;
        RemoveStep(key, index, es[i], es[i + 1..], keys, byKey);
        var entry := entries[i];
        assert entry == objects[i] && key(entry.title) == key(es[i].title);
        if key(entry.title) in keys {
          byKey := byKey - {key(entry.title)};
          entries := entries[..i] + entries[i + 1..];
        }
      }
      assert objects[0..] == objects && es[0..] == es;
      assert entries == [] + DroppedObjects(key, objects, es, keys) == DroppedObjects(key, objects, es, keys);
      RemovedValid(key, objects, es, index, keys, byKey);
      DroppedValues(key, objects, keys);
      ValidIs();
    }

    /** A rewrite through the index changes the list, because both hold the same object. */
    method Rewrite(e: BacklogEntry)
      requires Valid()
      modifies this, entries
      ensures Valid() && Values(entries) == Rewritten(key, old(Values(entries)), e)
      ensures forall o | o in entries :: o in old(entries) || fresh(o)
    {
      hide *;
      ValidIs();
      var k := key(e.title);
      ghost var es := Values(entries);
      IndexHolds(key, entries, es, byKey, k);
      RewrittenIs(key, es, e);
      if k in byKey {
        var existing := byKey[k];
        ghost var at := LastIndex(key, es, k);
        DistinctAt(entries, at);
        existing.title := e.title;
        existing.body := e.body;
        assert Values(entries) == es[at := e];
        SameKeys(key, entries, es, at, e, byKey);
        ValidIs();
      } else {
        Push(e);
        assert forall o | o in entries :: o in entries[..|old(entries)|] || o == entries[|old(entries)|];
      }
    }

    method Add(e: BacklogEntry)
      requires Valid()
      modifies this
      ensures Valid() && Values(entries) == Added(key, old(Values(entries)), e)
      ensures forall o | o in entries :: o in old(entries) || fresh(o)
    {
      hide *;
      ValidIs();
      IndexHolds(key, entries, Values(entries), byKey, key(e.title));
      AddedIs(key, Values(entries), e);
      if key(e.title) !in byKey {
        Push(e);
        assert forall o | o in entries :: o in entries[..|old(entries)|] || o == entries[|old(entries)|];
      }
    }
  }

  lemma NothingIndexed(key: KeyOf)
    ensures Distinct([]) && Indexes(key, [], [], map[])
  {
  }

  lemma NoValues()
    ensures Values([]) == []
  {
  }

  lemma OneValue(o: PlannedEntry, e: BacklogEntry)
    requires o.title == e.title && o.body == e.body
    ensures Values([o]) == [e]
  {
  }

  lemma IndexHolds(key: KeyOf, objects: seq<PlannedEntry>, es: seq<BacklogEntry>, byKey: map<string, PlannedEntry>, k: string)
    requires |objects| == |es| && Indexes(key, objects, es, byKey)
    ensures k in byKey <==> HasKey(key, es, k)
    ensures k in byKey ==> byKey[k] == objects[LastIndex(key, es, k)]
  {
    hide HasKey, LastIndex;
  }

  lemma RewrittenIs(key: KeyOf, es: seq<BacklogEntry>, e: BacklogEntry)
    ensures Rewritten(key, es, e) == if HasKey(key, es, key(e.title)) then es[LastIndex(key, es, key(e.title)) := e] else es + [e]
  {
    hide HasKey, LastIndex;
  }

  lemma AddedIs(key: KeyOf, es: seq<BacklogEntry>, e: BacklogEntry)
    ensures Added(key, es, e) == if HasKey(key, es, key(e.title)) then es else es + [e]
  {
    hide HasKey;
  }

  lemma DistinctAt(objects: seq<PlannedEntry>, at: nat)
    requires Distinct(objects) && at < |objects|
    ensures forall i | 0 <= i < |objects| && i != at :: objects[i] != objects[at]
  {
  }

  lemma DistinctCons(o: PlannedEntry, objects: seq<PlannedEntry>)
    ensures Distinct([o] + objects) <==> o !in objects && Distinct(objects)
  {
    var all := [o] + objects;
    if Distinct(all) {
      forall i | 0 <= i < |objects| ensures objects[i] != o {
        assert all[i + 1] == objects[i] && all[0] == o;
      }
      forall i, j | 0 <= i < j < |objects| ensures objects[i] != objects[j] {
        assert all[i + 1] == objects[i] && all[j + 1] == objects[j];
      }
    }
  }

  /** One more entry of the backward walk: its key leaves the index when it is removed. */
  lemma RemoveStep(key: KeyOf, index: map<string, PlannedEntry>, e: BacklogEntry, later: seq<BacklogEntry>, keys: set<string>, byKey: map<string, PlannedEntry>)
    requires forall k :: k in byKey <==> k in index && !(k in keys && HasKey(key, later, k))
    ensures var next := if key(e.title) in keys then byKey - {key(e.title)} else byKey;
      forall k :: k in next <==> k in index && !(k in keys && HasKey(key, [e] + later, k))
  {
    hide HasKey;
    HasKeyCons(key, e, later);
  }

  lemma HasKeyCons(key: KeyOf, e: BacklogEntry, es: seq<BacklogEntry>)
    ensures forall k :: HasKey(key, [e] + es, k) <==> key(e.title) == k || HasKey(key, es, k)
  {
    forall k ensures HasKey(key, [e] + es, k) <==> key(e.title) == k || HasKey(key, es, k) {
      assert e in [e] + es && forall x | x in es :: x in [e] + es;
      assert forall x | x in [e] + es :: x == e || x in es;
    }
  }

  lemma HasKeySnoc(key: KeyOf, es: seq<BacklogEntry>, e: BacklogEntry)
    ensures forall k :: HasKey(key, es + [e], k) <==> HasKey(key, es, k) || key(e.title) == k
  {
    forall k ensures HasKey(key, es + [e], k) <==> HasKey(key, es, k) || key(e.title) == k {
      assert e in es + [e] && forall x | x in es :: x in es + [e];
      assert forall x | x in es + [e] :: x == e || x in es;
    }
  }

  lemma LastIs(key: KeyOf, es: seq<BacklogEntry>, k: string, i: nat)
    requires i < |es| && key(es[i].title) == k && forall j | i < j < |es| :: key(es[j].title) != k
    ensures HasKey(key, es, k) && LastIndex(key, es, k) == i
  {
    assert es[i] in es;
  }

  lemma Pushed(key: KeyOf, objects: seq<PlannedEntry>, es: seq<BacklogEntry>, byKey: map<string, PlannedEntry>, copy: PlannedEntry, e: BacklogEntry)
    requires |objects| == |es| && Distinct(objects) && Indexes(key, objects, es, byKey) && copy !in objects
    ensures Distinct(objects + [copy]) && Indexes(key, objects + [copy], es + [e], byKey[key(e.title) := copy])
  {
    hide HasKey;
    HasKeySnoc(key, es, e);
    var next := byKey[key(e.title) := copy];
    forall k | k in next ensures next[k] == (objects + [copy])[LastIndex(key, es + [e], k)] {
      if k == key(e.title) {
        LastIs(key, es + [e], k, |es|);
      } else {
        LastIs(key, es + [e], k, LastIndex(key, es, k));
      }
    }
  }

  lemma DroppedCons(key: KeyOf, o: PlannedEntry, objects: seq<PlannedEntry>, e: BacklogEntry, es: seq<BacklogEntry>, keys: set<string>)
    requires |objects| == |es|
    ensures DroppedObjects(key, [o] + objects, [e] + es, keys) == (if key(e.title) in keys then [] else [o]) + DroppedObjects(key, objects, es, keys)
    ensures Dropped(key, [e] + es, keys) == (if key(e.title) in keys then [] else [e]) + Dropped(key, es, keys)
  {
    assert ([o] + objects)[1..] == objects && ([e] + es)[1..] == es;
  }

  lemma {:induction false} DroppedValues(key: KeyOf, objects: seq<PlannedEntry>, keys: set<string>)
    ensures Values(DroppedObjects(key, objects, Values(objects), keys)) == Dropped(key, Values(objects), keys)
  {
    hide *;
    if objects == [] {
      NothingDropped(key, keys);
      NoValues();
    } else {
      var o, rest := objects[0], objects[1..];
      assert objects == [o] + rest;
      ValuesConcat([o], rest);
      DroppedValues(key, rest, keys);
      DroppedCons(key, o, rest, Values([o])[0], Values(rest), keys);
      assert [Values([o])[0]] == Values([o]);
      var kept := DroppedObjects(key, rest, Values(rest), keys);
      ValuesConcat([o], kept);
      assert [] + kept == kept;
    }
  }

  /** What is kept keeps its order, its key and its object. */
  lemma {:induction false} DroppedKeeps(key: KeyOf, objects: seq<PlannedEntry>, es: seq<BacklogEntry>, keys: set<string>)
    requires |objects| == |es|
    ensures forall k :: HasKey(key, Dropped(key, es, keys), k) <==> HasKey(key, es, k) && k !in keys
    ensures Distinct(objects) ==> Distinct(DroppedObjects(key, objects, es, keys))
    ensures forall k | HasKey(key, es, k) && k !in keys ::
              HasKey(key, Dropped(key, es, keys), k)
              && DroppedObjects(key, objects, es, keys)[LastIndex(key, Dropped(key, es, keys), k)] == objects[LastIndex(key, es, k)]
  {
    hide *;
    if es == [] {
      NothingIndexed(key);
      NothingDropped(key, keys);
    } else {
      var o, rest, e, es' := objects[0], objects[1..], es[0], es[1..];
      assert objects == [o] + rest && es == [e] + es';
      DroppedKeeps(key, rest, es', keys);
      DroppedCons(key, o, rest, e, es', keys);
      HasKeyCons(key, e, es');
      var kept, keptObjects := Dropped(key, es', keys), DroppedObjects(key, rest, es', keys);
      HasKeyCons(key, e, kept);
      assert [] + kept == kept && [] + keptObjects == keptObjects;
      DistinctCons(o, rest);
      DistinctCons(o, keptObjects);
      forall k | HasKey(key, es, k) && k !in keys
        ensures HasKey(key, Dropped(key, es, keys), k)
             && DroppedObjects(key, objects, es, keys)[LastIndex(key, Dropped(key, es, keys), k)] == objects[LastIndex(key, es, k)]
      {
        LastCons(key, e, es', k);
        if key(e.title) !in keys {
          LastCons(key, e, kept, k);
        }
      }
    }
  }

  lemma NothingDropped(key: KeyOf, keys: set<string>)
    ensures Dropped(key, [], keys) == [] && DroppedObjects(key, [], [], keys) == []
    ensures forall k :: !HasKey(key, [], k)
  {
  }

  lemma LastCons(key: KeyOf, e: BacklogEntry, es: seq<BacklogEntry>, k: string)
    requires HasKey(key, [e] + es, k)
    ensures LastIndex(key, [e] + es, k) == if HasKey(key, es, k) then 1 + LastIndex(key, es, k) else 0
  {
    HasKeyCons(key, e, es);
    if HasKey(key, es, k) {
      LastIs(key, [e] + es, k, 1 + LastIndex(key, es, k));
    } else {
      assert forall j | 0 < j < |[e] + es| :: ([e] + es)[j] in es;
      LastIs(key, [e] + es, k, 0);
    }
  }

  lemma RemovedValid(key: KeyOf, objects: seq<PlannedEntry>, es: seq<BacklogEntry>, index: map<string, PlannedEntry>, keys: set<string>, byKey: map<string, PlannedEntry>)
    requires |objects| == |es| && Distinct(objects) && Indexes(key, objects, es, index)
    requires forall k :: k in byKey <==> k in index && !(k in keys && HasKey(key, es, k))
    requires forall k | k in byKey :: byKey[k] == index[k]
    ensures var kept := DroppedObjects(key, objects, es, keys);
      Distinct(kept) && Indexes(key, kept, Dropped(key, es, keys), byKey)
  {
    hide HasKey, LastIndex, Dropped, DroppedObjects, Distinct;
    DroppedKeeps(key, objects, es, keys);
  }

  /** Replacing an entry by one with its key leaves the index right. */
  lemma SameKeys(key: KeyOf, objects: seq<PlannedEntry>, es: seq<BacklogEntry>, at: nat, e: BacklogEntry, byKey: map<string, PlannedEntry>)
    requires |objects| == |es| && Indexes(key, objects, es, byKey) && at < |es| && key(es[at].title) == key(e.title)
    ensures Indexes(key, objects, es[at := e], byKey)
  {
    hide HasKey;
    var next := es[at := e];
    forall k ensures HasKey(key, next, k) <==> HasKey(key, es, k) {
      SameKeyAt(key, es, next, k);
      SameKeyAt(key, next, es, k);
    }
    forall k | k in byKey ensures byKey[k] == objects[LastIndex(key, next, k)] {
      LastIs(key, next, k, LastIndex(key, es, k));
    }
  }

  lemma SameKeyAt(key: KeyOf, a: seq<BacklogEntry>, b: seq<BacklogEntry>, k: string)
    requires |a| == |b| && forall i | 0 <= i < |a| :: key(a[i].title) == key(b[i].title)
    ensures HasKey(key, a, k) ==> HasKey(key, b, k)
  {
    if HasKey(key, a, k) {
      var e :| e in a && key(e.title) == k;
      var i :| 0 <= i < |a| && a[i] == e;
      assert b[i] in b;
    }
  }

  /** `projectedPlannedEntries`: the aliasing list and index compute the projection. */
  method ProjectedPlannedEntries(key: KeyOf, planned: seq<BacklogEntry>, changes: seq<PlanChange>) returns (entries: seq<PlannedEntry>)
    ensures Values(entries) == Projected(key, planned, changes)
    ensures forall o | o in entries :: fresh(o)
  {
    hide *;
    var p := new Projection(key, planned);
    NothingApplied(key, planned);
    assert changes[..0] == [];
    for n := 0 to |changes|
      invariant p.Valid() && p.key == key && fresh(p) && forall o | o in p.entries :: fresh(o)
      invariant Values(p.entries) == Projected(key, planned, changes[..n])
    {
      var change := changes[n];
      ghost var start := Values(p.entries);
      var removed := KeySet(key, change.removed);
      p.Remove(removed);
      ghost var dropped := Values(p.entries);
      NothingApplied(key, dropped);
      assert change.changed[..0] == [];
      for i := 0 to |change.changed|
        invariant p.Valid() && p.key == key && fresh(p) && forall o | o in p.entries :: fresh(o)
        invariant Values(p.entries) == RewrittenAll(key, dropped, change.changed[..i])
      {
        RewrittenSnoc(key, dropped, change.changed, i);
        assert forall j | 0 <= j < |p.entries| :: p.entries[j] in p.entries;
        p.Rewrite(change.changed[i]);
      }
      assert change.changed[..|change.changed|] == change.changed;
      ghost var rewritten := Values(p.entries);
      NothingApplied(key, rewritten);
      assert change.added[..0] == [];
      for i := 0 to |change.added|
        invariant p.Valid() && p.key == key && fresh(p) && forall o | o in p.entries :: fresh(o)
        invariant Values(p.entries) == AddedAll(key, rewritten, change.added[..i])
      {
        AddedSnoc(key, rewritten, change.added, i);
        p.Add(change.added[i]);
      }
      assert change.added[..|change.added|] == change.added;
      ProjectedSnoc(key, planned, changes, n);
    }
    assert changes[..|changes|] == changes;
    return p.entries;
  }

  lemma NothingApplied(key: KeyOf, es: seq<BacklogEntry>)
    ensures Projected(key, es, []) == es && RewrittenAll(key, es, []) == es && AddedAll(key, es, []) == es
  {
  }

  lemma RewrittenSnoc(key: KeyOf, es: seq<BacklogEntry>, changed: seq<BacklogEntry>, i: nat)
    requires i < |changed|
    ensures RewrittenAll(key, es, changed[..i + 1]) == Rewritten(key, RewrittenAll(key, es, changed[..i]), changed[i])
  {
    hide Rewritten;
    assert changed[..i + 1][..i] == changed[..i];
  }

  lemma AddedSnoc(key: KeyOf, es: seq<BacklogEntry>, added: seq<BacklogEntry>, i: nat)
    requires i < |added|
    ensures AddedAll(key, es, added[..i + 1]) == Added(key, AddedAll(key, es, added[..i]), added[i])
  {
    hide Added;
    assert added[..i + 1][..i] == added[..i];
  }

  lemma ProjectedSnoc(key: KeyOf, es: seq<BacklogEntry>, changes: seq<PlanChange>, n: nat)
    requires n < |changes|
    ensures Projected(key, es, changes[..n + 1])
         == AddedAll(key, RewrittenAll(key, Dropped(key, Projected(key, es, changes[..n]), KeySet(key, changes[n].removed)), changes[n].changed), changes[n].added)
  {
    hide AddedAll, RewrittenAll, Dropped, KeySet;
    assert changes[..n + 1][..n] == changes[..n];
  }

  // ---------------------------------------------------------------- no key is duplicated

  function Count(key: KeyOf, es: seq<BacklogEntry>, k: string): nat {
    if es == [] then 0 else (if key(es[0].title) == k then 1 else 0) + Count(key, es[1..], k)
  }

  lemma {:induction false} CountConcat(key: KeyOf, a: seq<BacklogEntry>, b: seq<BacklogEntry>, k: string)
    ensures Count(key, a + b, k) == Count(key, a, k) + Count(key, b, k)
  {
    if a == [] {
      assert a + b == b;
    } else {
      assert (a + b)[1..] == a[1..] + b;
      CountConcat(key, a[1..], b, k);
    }
  }

  lemma CountOne(key: KeyOf, e: BacklogEntry, k: string)
    ensures Count(key, [e], k) == if key(e.title) == k then 1 else 0
  {
    assert [e][1..] == [];
  }

  lemma {:induction false} CountNone(key: KeyOf, es: seq<BacklogEntry>, k: string)
    ensures Count(key, es, k) == 0 <==> !HasKey(key, es, k)
  {
    hide HasKey;
    if es == [] {
      NothingDropped(key, {});
    } else {
      assert es == [es[0]] + es[1..];
      HasKeyCons(key, es[0], es[1..]);
      CountNone(key, es[1..], k);
    }
  }

  lemma CountSet(key: KeyOf, es: seq<BacklogEntry>, i: nat, e: BacklogEntry, k: string)
    requires i < |es| && key(es[i].title) == key(e.title)
    ensures Count(key, es[i := e], k) == Count(key, es, k)
  {
    hide *;
    assert es == es[..i] + [es[i]] + es[i + 1..];
    assert es[i := e] == es[..i] + [e] + es[i + 1..];
    CountConcat(key, es[..i] + [es[i]], es[i + 1..], k);
    CountConcat(key, es[..i], [es[i]], k);
    CountConcat(key, es[..i] + [e], es[i + 1..], k);
    CountConcat(key, es[..i], [e], k);
    CountOne(key, es[i], k);
    CountOne(key, e, k);
  }

  lemma {:induction false} CountDropped(key: KeyOf, es: seq<BacklogEntry>, keys: set<string>, k: string)
    ensures Count(key, Dropped(key, es, keys), k) <= Count(key, es, k)
  {
    if es != [] {
      CountDropped(key, es[1..], keys, k);
      var kept := Dropped(key, es[1..], keys);
      CountConcat(key, if key(es[0].title) in keys then [] else [es[0]], kept, k);
    }
  }

  function Max(a: nat, b: nat): nat {
    if a < b then b else a
  }

  lemma CountAppended(key: KeyOf, es: seq<BacklogEntry>, e: BacklogEntry, k: string)
    requires !HasKey(key, es, key(e.title))
    ensures Count(key, es + [e], k) <= Max(1, Count(key, es, k))
  {
    hide HasKey;
    CountConcat(key, es, [e], k);
    CountOne(key, e, k);
    CountNone(key, es, key(e.title));
  }

  lemma {:induction false} CountRewritten(key: KeyOf, es: seq<BacklogEntry>, changed: seq<BacklogEntry>, k: string)
    ensures Count(key, RewrittenAll(key, es, changed), k) <= Max(1, Count(key, es, k))
  {
    hide HasKey, Count, LastIndex;
    if changed != [] {
      var n := |changed| - 1;
      CountRewritten(key, es, changed[..n], k);
      var before, e := RewrittenAll(key, es, changed[..n]), changed[n];
      if HasKey(key, before, key(e.title)) {
        CountSet(key, before, LastIndex(key, before, key(e.title)), e, k);
      } else {
        CountAppended(key, before, e, k);
      }
    }
  }

  lemma {:induction false} CountAdded(key: KeyOf, es: seq<BacklogEntry>, added: seq<BacklogEntry>, k: string)
    ensures Count(key, AddedAll(key, es, added), k) <= Max(1, Count(key, es, k))
  {
    hide HasKey, Count;
    if added != [] {
      var n := |added| - 1;
      CountAdded(key, es, added[..n], k);
      if !HasKey(key, AddedAll(key, es, added[..n]), key(added[n].title)) {
        CountAppended(key, AddedAll(key, es, added[..n]), added[n], k);
      }
    }
  }

  /** Whatever the changes are, no key occurs more often than in main, except once for a new one. */
  lemma {:induction false} NoNewDuplicates(key: KeyOf, planned: seq<BacklogEntry>, changes: seq<PlanChange>, k: string)
    ensures Count(key, Projected(key, planned, changes), k) <= Max(1, Count(key, planned, k))
  {
    hide Count, Dropped, RewrittenAll, AddedAll, KeySet;
    if changes != [] {
      var n := |changes| - 1;
      NoNewDuplicates(key, planned, changes[..n], k);
      var before, c := Projected(key, planned, changes[..n]), changes[n];
      var dropped := Dropped(key, before, KeySet(key, c.removed));
      CountDropped(key, before, KeySet(key, c.removed), k);
      CountRewritten(key, dropped, c.changed, k);
      CountAdded(key, RewrittenAll(key, dropped, c.changed), c.added, k);
    }
  }

  // ---------------------------------------------------------------- diff then apply

  /** `new Map(entries)`'s values: each key once, where it first occurs, with its last entry. */
  function LastValues(key: KeyOf, all: seq<BacklogEntry>, es: seq<BacklogEntry>, seen: set<string>): seq<BacklogEntry>
    requires forall e | e in es :: e in all
  {
    if es == [] then []
    else
      var k := key(es[0].title);
      assert es[0] in all;
      (if k in seen then [] else [all[LastIndex(key, all, k)]]) + LastValues(key, all, es[1..], seen + {k})
  }

  /** The entries of `head` whose key the base has with another title or body. */
  function ChangedFrom(key: KeyOf, base: seq<BacklogEntry>, head: seq<BacklogEntry>): seq<BacklogEntry> {
    if head == [] then []
    else
      var k := key(head[0].title);
      (if HasKey(key, base, k) && base[LastIndex(key, base, k)] != head[0] then [head[0]] else []) + ChangedFrom(key, base, head[1..])
  }

  /** `diffAt`'s three lists. */
  function Diff(key: KeyOf, base: seq<BacklogEntry>, head: seq<BacklogEntry>): PlanChange {
    PlanChange(Dropped(key, head, KeySet(key, base)),
               Dropped(key, LastValues(key, base, base, {}), KeySet(key, head)),
               ChangedFrom(key, base, head))
  }

  /** `base`'s entries that `head` still has, in base order, as `head` has them. */
  function Survivors(key: KeyOf, base: seq<BacklogEntry>, head: seq<BacklogEntry>): seq<BacklogEntry> {
    if base == [] then []
    else
      var k := key(base[0].title);
      (if HasKey(key, head, k) then [head[LastIndex(key, head, k)]] else []) + Survivors(key, base[1..], head)
  }

  lemma DistinctCut(key: KeyOf, es: seq<BacklogEntry>)
    requires DistinctKeys(key, es) && es != []
    ensures DistinctKeys(key, es[1..]) && !HasKey(key, es[1..], key(es[0].title))
  {
    forall e | e in es[1..] ensures key(e.title) != key(es[0].title) {
      var i :| 0 <= i < |es[1..]| && es[1..][i] == e;
      assert es[i + 1] == e;
    }
  }

  lemma InKeySet(key: KeyOf, es: seq<BacklogEntry>, k: string)
    ensures k in KeySet(key, es) <==> HasKey(key, es, k)
  {
  }

  lemma {:induction false} ValuesOfDistinct(key: KeyOf, all: seq<BacklogEntry>, es: seq<BacklogEntry>, seen: set<string>, at: nat)
    requires DistinctKeys(key, all) && at <= |all| && es == all[at..]
    requires forall i | at <= i < |all| :: key(all[i].title) !in seen
    ensures (forall e | e in es :: e in all) && LastValues(key, all, es, seen) == es
    decreases |es|
  {
    hide HasKey, LastIndex;
    assert forall e | e in all[at..] :: e in all;
    if es != [] {
      var k := key(all[at].title);
      LastIs(key, all, k, at);
      assert all[at..][1..] == all[at + 1..];
      ValuesOfDistinct(key, all, all[at + 1..], seen + {k}, at + 1);
      assert all[at..] == [all[at]] + all[at + 1..];
    }
  }

  /** Dropping what the head lacks leaves what it has. */
  lemma {:induction false} DropMissing(key: KeyOf, es: seq<BacklogEntry>, base: seq<BacklogEntry>, head: seq<BacklogEntry>)
    requires forall e | e in es :: e in base
    ensures var gone := KeySet(key, Dropped(key, base, KeySet(key, head)));
      forall e | e in Dropped(key, es, gone) :: HasKey(key, head, key(e.title))
    ensures Dropped(key, es, KeySet(key, Dropped(key, base, KeySet(key, head)))) == Held(key, es, head)
  {
    hide HasKey, KeySet;
    var lost := Dropped(key, base, KeySet(key, head));
    var gone := KeySet(key, lost);
    if es != [] {
      assert forall e | e in es[1..] :: e in es;
      assert es[0] in es;
      DropMissing(key, es[1..], base, head);
      var k := key(es[0].title);
      InKeySet(key, lost, k);
      InKeySet(key, head, k);
      DroppedHas(key, base, KeySet(key, head), k);
      InHasKey(key, base, es[0]);
    }
  }

  lemma InHasKey(key: KeyOf, es: seq<BacklogEntry>, e: BacklogEntry)
    requires e in es
    ensures HasKey(key, es, key(e.title))
  {
  }

  lemma DroppedHas(key: KeyOf, es: seq<BacklogEntry>, keys: set<string>, k: string)
    ensures HasKey(key, Dropped(key, es, keys), k) <==> HasKey(key, es, k) && k !in keys
    decreases |es|
  {
    hide HasKey;
    if es == [] {
      NothingDropped(key, keys);
    } else {
      assert es == [es[0]] + es[1..];
      DroppedHas(key, es[1..], keys, k);
      HasKeyCons(key, es[0], es[1..]);
      HasKeyCons(key, es[0], Dropped(key, es[1..], keys));
      assert [] + Dropped(key, es[1..], keys) == Dropped(key, es[1..], keys);
    }
  }

  /** The entries whose key `head` has. */
  function Held(key: KeyOf, es: seq<BacklogEntry>, head: seq<BacklogEntry>): seq<BacklogEntry> {
    if es == [] then [] else (if HasKey(key, head, key(es[0].title)) then [es[0]] else []) + Held(key, es[1..], head)
  }

  /** The version of `e` that counts when `changed` is rewritten in. */
  function VersionIn(key: KeyOf, changed: seq<BacklogEntry>, e: BacklogEntry): BacklogEntry {
    if HasKey(key, changed, key(e.title)) then changed[LastIndex(key, changed, key(e.title))] else e
  }

  function Versions(key: KeyOf, es: seq<BacklogEntry>, changed: seq<BacklogEntry>): (r: seq<BacklogEntry>)
    ensures |r| == |es| && forall i | 0 <= i < |es| :: r[i] == VersionIn(key, changed, es[i])
  {
    if es == [] then [] else [VersionIn(key, changed, es[0])] + Versions(key, es[1..], changed)
  }

  lemma VersionSnoc(key: KeyOf, changed: seq<BacklogEntry>, c: BacklogEntry, e: BacklogEntry)
    ensures VersionIn(key, changed + [c], e) == if key(c.title) == key(e.title) then c else VersionIn(key, changed, e)
    ensures key(VersionIn(key, changed, e).title) == key(e.title)
  {
    hide HasKey;
    HasKeySnoc(key, changed, c);
    var k := key(e.title);
    if k == key(c.title) {
      LastIs(key, changed + [c], k, |changed|);
    } else if HasKey(key, changed, k) {
      LastIs(key, changed + [c], k, LastIndex(key, changed, k));
    }
  }

  /** Rewriting entries the list has changes each to its version and nothing else. */
  lemma {:induction false} RewriteVersions(key: KeyOf, es: seq<BacklogEntry>, changed: seq<BacklogEntry>)
    requires DistinctKeys(key, es) && forall c | c in changed :: HasKey(key, es, key(c.title))
    ensures RewrittenAll(key, es, changed) == Versions(key, es, changed)
  {
    hide HasKey, LastIndex, VersionIn;
    if changed == [] {
      NoVersions(key, es);
    } else {
      var n := |changed| - 1;
      var c, before := changed[n], Versions(key, es, changed[..n]);
      assert c in changed && forall x | x in changed[..n] :: x in changed;
      RewriteVersions(key, es, changed[..n]);
      assert changed == changed[..n] + [c];
      OneMoreVersion(key, es, changed[..n], c);
    }
  }

  lemma OneMoreVersion(key: KeyOf, es: seq<BacklogEntry>, changed: seq<BacklogEntry>, c: BacklogEntry)
    requires DistinctKeys(key, es) && HasKey(key, es, key(c.title))
    ensures Rewritten(key, Versions(key, es, changed), c) == Versions(key, es, changed + [c])
  {
    hide *;
    var before, after := Versions(key, es, changed), Versions(key, es, changed + [c]);
    forall i | 0 <= i < |es|
      ensures key(before[i].title) == key(es[i].title) && after[i] == if key(c.title) == key(es[i].title) then c else before[i]
    {
      VersionSnoc(key, changed, c, es[i]);
    }
    var at := LastIndex(key, es, key(c.title));
    LastIs(key, before, key(c.title), at);
    DistinctElsewhere(key, es, at);
    RewrittenIs(key, before, c);
    assert after == before[at := c];
  }

  lemma DistinctElsewhere(key: KeyOf, es: seq<BacklogEntry>, at: nat)
    requires DistinctKeys(key, es) && at < |es|
    ensures forall i | 0 <= i < |es| && i != at :: key(es[i].title) != key(es[at].title)
  {
  }

  lemma NoVersions(key: KeyOf, es: seq<BacklogEntry>)
    ensures Versions(key, es, []) == es
  {
    NothingDropped(key, {});
  }

  /** Entries with new, distinct keys are all appended. */
  lemma {:induction false} AddAllNew(key: KeyOf, es: seq<BacklogEntry>, added: seq<BacklogEntry>)
    requires DistinctKeys(key, added) && forall a | a in added :: !HasKey(key, es, key(a.title))
    ensures AddedAll(key, es, added) == es + added
  {
    hide HasKey;
    if added == [] {
      assert es + added == es;
    } else {
      var n := |added| - 1;
      var a := added[n];
      assert a in added && forall x | x in added[..n] :: x in added;
      AddAllNew(key, es, added[..n]);
      assert added == added[..n] + [a] && es + added == es + added[..n] + [a];
      NotYet(key, es, added, n);
    }
  }

  lemma NotYet(key: KeyOf, es: seq<BacklogEntry>, added: seq<BacklogEntry>, n: nat)
    requires DistinctKeys(key, added) && n < |added| && !HasKey(key, es, key(added[n].title))
    ensures !HasKey(key, es + added[..n], key(added[n].title))
  {
    forall e | e in es + added[..n] ensures key(e.title) != key(added[n].title) {
      if e !in es {
        var i :| 0 <= i < n && added[..n][i] == e;
        assert added[i] == e;
      }
    }
  }

  /** A diff applied to its own base: what survives in main's order, then what is new in head order. */
  lemma DiffThenApply(key: KeyOf, base: seq<BacklogEntry>, head: seq<BacklogEntry>)
    requires DistinctKeys(key, base) && DistinctKeys(key, head)
    ensures Projected(key, base, [Diff(key, base, head)]) == Survivors(key, base, head) + Dropped(key, head, KeySet(key, base))
  {
    hide *;
    var c := Diff(key, base, head);
    DiffIs(key, base, head);
    assert base[0..] == base;
    ValuesOfDistinct(key, base, base, {}, 0);
    DropMissing(key, base, base, head);
    var kept := Held(key, base, head);
    HeldKeeps(key, base, head);
    ChangedAreHeld(key, base, head, base, head);
    RewriteVersions(key, kept, c.changed);
    SurvivorsAre(key, base, base, head);
    var survivors := Survivors(key, base, head);
    DroppedDistinct(key, head, KeySet(key, base));
    forall a | a in c.added ensures !HasKey(key, survivors, key(a.title)) {
      InHasKey(key, c.added, a);
      DroppedHas(key, head, KeySet(key, base), key(a.title));
      InKeySet(key, base, key(a.title));
      SurvivorKeys(key, base, head, key(a.title));
    }
    AddAllNew(key, survivors, c.added);
    ProjectedOne(key, base, c);
  }

  lemma DiffIs(key: KeyOf, base: seq<BacklogEntry>, head: seq<BacklogEntry>)
    ensures var c := Diff(key, base, head);
      && c.added == Dropped(key, head, KeySet(key, base))
      && c.removed == Dropped(key, LastValues(key, base, base, {}), KeySet(key, head))
      && c.changed == ChangedFrom(key, base, head)
  {
    hide Dropped, LastValues, ChangedFrom, KeySet;
  }

  lemma ProjectedOne(key: KeyOf, base: seq<BacklogEntry>, c: PlanChange)
    ensures Projected(key, base, [c]) == AddedAll(key, RewrittenAll(key, Dropped(key, base, KeySet(key, c.removed)), c.changed), c.added)
  {
    hide AddedAll, RewrittenAll, Dropped, KeySet;
    assert [c][..0] == [];
  }

  lemma {:induction false} HeldKeeps(key: KeyOf, es: seq<BacklogEntry>, head: seq<BacklogEntry>)
    requires DistinctKeys(key, es)
    ensures DistinctKeys(key, Held(key, es, head))
    ensures forall k :: HasKey(key, Held(key, es, head), k) <==> HasKey(key, es, k) && HasKey(key, head, k)
  {
    hide HasKey, DistinctKeys;
    if es == [] {
      NothingDropped(key, {});
      NoKeysDistinct(key);
    } else {
      DistinctCut(key, es);
      HeldKeeps(key, es[1..], head);
      assert es == [es[0]] + es[1..];
      HasKeyCons(key, es[0], es[1..]);
      var kept := Held(key, es[1..], head);
      HasKeyCons(key, es[0], kept);
      assert [] + kept == kept;
      DistinctPrepend(key, es[0], kept);
    }
  }

  lemma NoKeysDistinct(key: KeyOf)
    ensures DistinctKeys(key, [])
  {
  }

  lemma DistinctPrepend(key: KeyOf, e: BacklogEntry, es: seq<BacklogEntry>)
    ensures DistinctKeys(key, es) && !HasKey(key, es, key(e.title)) ==> DistinctKeys(key, [e] + es)
  {
    var all := [e] + es;
    if DistinctKeys(key, es) && !HasKey(key, es, key(e.title)) {
      forall i, j | 0 <= i < j < |all| ensures key(all[i].title) != key(all[j].title) {
        assert es[j - 1] in es;
      }
    }
  }

  lemma {:induction false} DroppedDistinct(key: KeyOf, es: seq<BacklogEntry>, keys: set<string>)
    requires DistinctKeys(key, es)
    ensures DistinctKeys(key, Dropped(key, es, keys))
  {
    hide HasKey, DistinctKeys;
    if es == [] {
      NoKeysDistinct(key);
    } else {
      DistinctCut(key, es);
      DroppedDistinct(key, es[1..], keys);
      var kept := Dropped(key, es[1..], keys);
      DroppedHas(key, es[1..], keys, key(es[0].title));
      assert [] + kept == kept;
      DistinctPrepend(key, es[0], kept);
    }
  }

  /** Every rewritten entry is one the base keeps. */
  lemma {:induction false} ChangedAreHeld(key: KeyOf, base: seq<BacklogEntry>, rest: seq<BacklogEntry>, es: seq<BacklogEntry>, head: seq<BacklogEntry>)
    requires DistinctKeys(key, base) && es == base && forall e | e in rest :: e in head
    ensures forall c | c in ChangedFrom(key, base, rest) :: HasKey(key, Held(key, base, head), key(c.title))
  {
    hide HasKey, LastIndex, DistinctKeys, Held;
    if rest != [] {
      assert rest[0] in rest && forall e | e in rest[1..] :: e in rest;
      ChangedAreHeld(key, base, rest[1..], es, head);
      HeldKeeps(key, base, head);
      InHasKey(key, head, rest[0]);
    }
  }

  /** The version `ChangedFrom` leaves of a base entry is the head's. */
  lemma {:induction false} ChangedVersion(key: KeyOf, base: seq<BacklogEntry>, head: seq<BacklogEntry>, b: nat)
    requires DistinctKeys(key, base) && DistinctKeys(key, head) && b < |base| && HasKey(key, head, key(base[b].title))
    ensures VersionIn(key, ChangedFrom(key, base, head), base[b]) == head[LastIndex(key, head, key(base[b].title))]
    decreases |head|
  {
    hide *;
    var k := key(base[b].title);
    if head == [] {
      NothingDropped(key, {});
      assert false;
    } else {
      var h, rest := head[0], head[1..];
      assert head == [h] + rest;
      DistinctCut(key, head);
      HasKeyCons(key, h, rest);
      ChangedCons(key, base, h, rest);
      LastCons(key, h, rest, k);
      var changed := ChangedFrom(key, base, rest);
      ChangedKeys(key, base, rest);
      HasKeyCons(key, h, changed);
      assert [] + changed == changed;
      VersionIs(key, changed, base[b]);
      VersionIs(key, [h] + changed, base[b]);
      DistinctElsewhere(key, base, b);
      LastIs(key, base, k, b);
      if HasKey(key, rest, k) {
        ChangedVersion(key, base, rest, b);
        if HasKey(key, changed, k) {
          LastCons(key, h, changed, k);
        }
      } else if base[b] != h {
        LastCons(key, h, changed, k);
      }
    }
  }

  lemma VersionIs(key: KeyOf, changed: seq<BacklogEntry>, e: BacklogEntry)
    ensures VersionIn(key, changed, e) ==
      if HasKey(key, changed, key(e.title)) then changed[LastIndex(key, changed, key(e.title))] else e
  {
    hide HasKey, LastIndex;
  }

  lemma ChangedCons(key: KeyOf, base: seq<BacklogEntry>, h: BacklogEntry, rest: seq<BacklogEntry>)
    ensures var k := key(h.title);
      ChangedFrom(key, base, [h] + rest)
        == (if HasKey(key, base, k) && base[LastIndex(key, base, k)] != h then [h] else []) + ChangedFrom(key, base, rest)
  {
    hide HasKey, LastIndex;
    assert ([h] + rest)[1..] == rest;
  }

  lemma {:induction false} ChangedKeys(key: KeyOf, base: seq<BacklogEntry>, head: seq<BacklogEntry>)
    ensures forall k | HasKey(key, ChangedFrom(key, base, head), k) :: HasKey(key, head, k)
  {
    hide HasKey, LastIndex;
    if head == [] {
      NothingDropped(key, {});
    } else {
      var h, rest := head[0], head[1..];
      assert head == [h] + rest;
      ChangedKeys(key, base, rest);
      HasKeyCons(key, h, rest);
      var changed := ChangedFrom(key, base, rest);
      HasKeyCons(key, h, changed);
      assert [] + changed == changed;
    }
  }

  lemma {:induction false} SurvivorsAre(key: KeyOf, es: seq<BacklogEntry>, base: seq<BacklogEntry>, head: seq<BacklogEntry>)
    requires DistinctKeys(key, base) && DistinctKeys(key, head) && forall e | e in es :: e in base
    ensures Versions(key, Held(key, es, head), ChangedFrom(key, base, head)) == Survivors(key, es, head)
  {
    hide HasKey, LastIndex, DistinctKeys, VersionIn, ChangedFrom;
    if es != [] {
      assert es[0] in es && forall e | e in es[1..] :: e in es;
      SurvivorsAre(key, es[1..], base, head);
      if HasKey(key, head, key(es[0].title)) {
        var b :| 0 <= b < |base| && base[b] == es[0];
        ChangedVersion(key, base, head, b);
        var kept := Held(key, es[1..], head);
        assert ([es[0]] + kept)[1..] == kept;
      }
    }
  }

  lemma {:induction false} SurvivorKeys(key: KeyOf, es: seq<BacklogEntry>, head: seq<BacklogEntry>, k: string)
    ensures HasKey(key, Survivors(key, es, head), k) <==> HasKey(key, es, k) && HasKey(key, head, k)
  {
    hide HasKey, LastIndex;
    if es == [] {
      NothingDropped(key, {});
    } else {
      assert es == [es[0]] + es[1..];
      HasKeyCons(key, es[0], es[1..]);
      SurvivorKeys(key, es[1..], head, k);
      var rest, k0 := Survivors(key, es[1..], head), key(es[0].title);
      assert [] + rest == rest;
      if HasKey(key, head, k0) {
        HasKeyCons(key, head[LastIndex(key, head, k0)], rest);
      }
    }
  }

  lemma {:induction false} SurvivorsIn(key: KeyOf, es: seq<BacklogEntry>, head: seq<BacklogEntry>)
    ensures forall e | e in Survivors(key, es, head) :: e in head
  {
    hide HasKey, LastIndex;
    if es != [] {
      SurvivorsIn(key, es[1..], head);
    }
  }

  lemma {:induction false} SurvivorsHold(key: KeyOf, es: seq<BacklogEntry>, head: seq<BacklogEntry>, i: nat)
    requires DistinctKeys(key, head) && i < |head| && HasKey(key, es, key(head[i].title))
    ensures head[i] in Survivors(key, es, head)
  {
    hide HasKey, LastIndex, DistinctKeys;
    if es == [] {
      NothingDropped(key, {});
      assert false;
    } else {
      assert es == [es[0]] + es[1..];
      HasKeyCons(key, es[0], es[1..]);
      if key(es[0].title) == key(head[i].title) {
        DistinctElsewhere(key, head, i);
        LastIs(key, head, key(head[i].title), i);
      } else {
        SurvivorsHold(key, es[1..], head, i);
      }
    }
  }

  lemma {:induction false} DroppedHolds(key: KeyOf, es: seq<BacklogEntry>, keys: set<string>)
    ensures forall e :: e in Dropped(key, es, keys) <==> e in es && key(e.title) !in keys
  {
    if es != [] {
      DroppedHolds(key, es[1..], keys);
      assert forall e :: e in es <==> e == es[0] || e in es[1..];
    }
  }

  /** The round trip: where main's list is still the merge-base's, the projection holds exactly the
      head's entries, title and body, each key once. */
  lemma RoundTrip(key: KeyOf, base: seq<BacklogEntry>, head: seq<BacklogEntry>)
    requires DistinctKeys(key, base) && DistinctKeys(key, head)
    ensures var r := Projected(key, base, [Diff(key, base, head)]);
      && (forall e :: e in r <==> e in head)
      && (forall k :: Count(key, r, k) <= 1)
  {
    hide *;
    DiffThenApply(key, base, head);
    var survivors, added := Survivors(key, base, head), Dropped(key, head, KeySet(key, base));
    SurvivorsIn(key, base, head);
    DroppedHolds(key, head, KeySet(key, base));
    forall e | e in head ensures e in survivors + added {
      var i :| 0 <= i < |head| && head[i] == e;
      InKeySet(key, base, key(e.title));
      if HasKey(key, base, key(e.title)) {
        SurvivorsHold(key, base, head, i);
      }
    }
    forall k ensures Count(key, Projected(key, base, [Diff(key, base, head)]), k) <= 1 {
      NoNewDuplicates(key, base, [Diff(key, base, head)], k);
      DistinctCount(key, base, k);
      MaxOne(Count(key, base, k));
    }
  }

  lemma MaxOne(n: nat)
    ensures n <= 1 ==> Max(1, n) == 1
  {
  }

  lemma {:induction false} DistinctCount(key: KeyOf, es: seq<BacklogEntry>, k: string)
    requires DistinctKeys(key, es)
    ensures Count(key, es, k) <= 1
  {
    hide HasKey, DistinctKeys;
    if es != [] {
      DistinctCut(key, es);
      DistinctCount(key, es[1..], k);
      CountNone(key, es[1..], key(es[0].title));
    }
  }

  // ---------------------------------------------------------------- whose version is read

  /** The entry read for a key: the last that carries it, the one the index holds. */
  function EntryFor(key: KeyOf, es: seq<BacklogEntry>, k: string): Option<BacklogEntry> {
    if HasKey(key, es, k) then Some(es[LastIndex(key, es, k)]) else None
  }

  lemma EntryForIs(key: KeyOf, es: seq<BacklogEntry>, k: string)
    ensures EntryFor(key, es, k) == if HasKey(key, es, k) then Some(es[LastIndex(key, es, k)]) else None
  {
    hide HasKey, LastIndex;
  }

  lemma EntryForSnoc(key: KeyOf, es: seq<BacklogEntry>, e: BacklogEntry, k: string)
    ensures EntryFor(key, es + [e], k) == if key(e.title) == k then Some(e) else EntryFor(key, es, k)
  {
    hide HasKey;
    HasKeySnoc(key, es, e);
    if key(e.title) == k {
      LastIs(key, es + [e], k, |es|);
    } else if HasKey(key, es, k) {
      LastIs(key, es + [e], k, LastIndex(key, es, k));
    }
  }

  lemma {:induction false} EntryForDropped(key: KeyOf, es: seq<BacklogEntry>, keys: set<string>, k: string)
    ensures EntryFor(key, Dropped(key, es, keys), k) == if k in keys then None else EntryFor(key, es, k)
  {
    hide HasKey, LastIndex;
    if es == [] {
      NothingDropped(key, keys);
    } else {
      var e, rest := es[0], es[1..];
      var kept := Dropped(key, rest, keys);
      assert es == [e] + rest && [] + kept == kept;
      EntryForDropped(key, rest, keys, k);
      EntryForCons(key, e, rest, k);
      EntryForCons(key, e, kept, k);
    }
  }

  lemma EntryForCons(key: KeyOf, e: BacklogEntry, es: seq<BacklogEntry>, k: string)
    ensures EntryFor(key, [e] + es, k)
         == if HasKey(key, es, k) then EntryFor(key, es, k) else if key(e.title) == k then Some(e) else None
  {
    hide HasKey, LastIndex;
    HasKeyCons(key, e, es);
    if HasKey(key, [e] + es, k) {
      LastCons(key, e, es, k);
    }
  }

  /** Of the rewrites of a key the last one is read, whether the list had the key or not. */
  lemma {:induction false} EntryForRewritten(key: KeyOf, es: seq<BacklogEntry>, changed: seq<BacklogEntry>, k: string)
    ensures EntryFor(key, RewrittenAll(key, es, changed), k)
         == if HasKey(key, changed, k) then EntryFor(key, changed, k) else EntryFor(key, es, k)
  {
    hide HasKey, LastIndex, Rewritten, EntryFor;
    if changed == [] {
      NothingDropped(key, {});
    } else {
      var n := |changed| - 1;
      var before, c := changed[..n], changed[n];
      assert changed == before + [c];
      EntryForRewritten(key, es, before, k);
      HasKeySnoc(key, before, c);
      EntryForSnoc(key, before, c, k);
      EntryForOneRewrite(key, RewrittenAll(key, es, before), c, k);
    }
  }

  lemma EntryForOneRewrite(key: KeyOf, es: seq<BacklogEntry>, c: BacklogEntry, k: string)
    ensures EntryFor(key, Rewritten(key, es, c), k) == if key(c.title) == k then Some(c) else EntryFor(key, es, k)
  {
    hide HasKey;
    var own := key(c.title);
    if HasKey(key, es, own) {
      var at := LastIndex(key, es, own);
      var next := es[at := c];
      SameKeyAt(key, es, next, k);
      SameKeyAt(key, next, es, k);
      if HasKey(key, es, k) {
        LastIs(key, next, k, LastIndex(key, es, k));
      }
    } else {
      EntryForSnoc(key, es, c, k);
    }
  }

  /** The first entry with a key. */
  function FirstFor(key: KeyOf, es: seq<BacklogEntry>, k: string): Option<BacklogEntry> {
    if es == [] then None else if key(es[0].title) == k then Some(es[0]) else FirstFor(key, es[1..], k)
  }

  lemma {:induction false} FirstForSnoc(key: KeyOf, es: seq<BacklogEntry>, e: BacklogEntry, k: string)
    ensures FirstFor(key, es, k).Some? <==> HasKey(key, es, k)
    ensures FirstFor(key, es + [e], k) == if HasKey(key, es, k) then FirstFor(key, es, k) else if key(e.title) == k then Some(e) else None
  {
    hide HasKey;
    if es == [] {
      NothingDropped(key, {});
      assert es + [e] == [e] && [e][1..] == [];
    } else {
      assert (es + [e])[1..] == es[1..] + [e] && es == [es[0]] + es[1..];
      FirstForSnoc(key, es[1..], e, k);
      HasKeyCons(key, es[0], es[1..]);
    }
  }

  /** Of the additions of a key the list lacks the first is read; of a key it has, none. */
  lemma {:induction false} EntryForAdded(key: KeyOf, es: seq<BacklogEntry>, added: seq<BacklogEntry>, k: string)
    ensures EntryFor(key, AddedAll(key, es, added), k) == if HasKey(key, es, k) then EntryFor(key, es, k) else FirstFor(key, added, k)
    ensures HasKey(key, AddedAll(key, es, added), k) <==> HasKey(key, es, k) || HasKey(key, added, k)
  {
    hide HasKey, LastIndex, EntryFor, FirstFor;
    if added == [] {
      NothingDropped(key, {});
      EntryForIs(key, es, k);
      NoFirst(key, k);
    } else {
      var n := |added| - 1;
      var before, a := added[..n], added[n];
      assert added == before + [a];
      EntryForAdded(key, es, before, k);
      EntryForAdded(key, es, before, key(a.title));
      HasKeySnoc(key, before, a);
      FirstForSnoc(key, before, a, k);
      var list := AddedAll(key, es, before);
      HasKeySnoc(key, list, a);
      EntryForSnoc(key, list, a, k);
      EntryForIs(key, es, k);
    }
  }

  lemma NoFirst(key: KeyOf, k: string)
    ensures FirstFor(key, [], k) == None
  {
  }

  /** Whose version of a key is read after one more change `c`. A rewrite always takes effect; an
      addition only if the key is absent once the change's removals are done; a removal alone leaves
      nothing; and a key the change does not touch keeps its entry. */
  lemma ChangeDecides(key: KeyOf, planned: seq<BacklogEntry>, changes: seq<PlanChange>, c: PlanChange, k: string)
    ensures var before := Projected(key, planned, changes);
      var kept := Dropped(key, before, KeySet(key, c.removed));
      EntryFor(key, Projected(key, planned, changes + [c]), k)
        == if k in KeySet(key, c.changed) then EntryFor(key, c.changed, k)
           else if k in KeySet(key, c.added) && !HasKey(key, kept, k) then FirstFor(key, c.added, k)
           else if k in KeySet(key, c.removed) then None
           else EntryFor(key, before, k)
    ensures var before := Projected(key, planned, changes);
      HasKey(key, Dropped(key, before, KeySet(key, c.removed)), k) <==> HasKey(key, before, k) && k !in KeySet(key, c.removed)
  {
    hide *;
    var before := Projected(key, planned, changes);
    var kept := Dropped(key, before, KeySet(key, c.removed));
    var rewritten := RewrittenAll(key, kept, c.changed);
    assert (changes + [c])[..|changes|] == changes && (changes + [c])[..|changes| + 1] == changes + [c];
    ProjectedSnoc(key, planned, changes + [c], |changes|);
    DroppedHas(key, before, KeySet(key, c.removed), k);
    EntryForDropped(key, before, KeySet(key, c.removed), k);
    EntryForRewritten(key, kept, c.changed, k);
    EntryForAdded(key, rewritten, c.added, k);
    InKeySet(key, c.changed, k);
    InKeySet(key, c.added, k);
    EntryForIs(key, rewritten, k);
    EntryForIs(key, kept, k);
    EntryForIs(key, c.changed, k);
    FirstForSnoc(key, c.added, BacklogEntry("", ""), k);
    EntryForIs(key, before, k);
  }

  /** The version a change has of a key it touches: its rewrite, else its addition, else none. */
  function VersionOf(key: KeyOf, c: PlanChange, k: string): Option<BacklogEntry> {
    if HasKey(key, c.changed, k) then EntryFor(key, c.changed, k) else FirstFor(key, c.added, k)
  }

  /** The documented rule "the last change's version" holds of a key the change touches if and only if
      the change rewrites it, or does not add it, or what it adds is absent by then, or is there word
      for word. */
  lemma LastChangeWinsIff(key: KeyOf, planned: seq<BacklogEntry>, changes: seq<PlanChange>, c: PlanChange, k: string)
    requires k in KeySet(key, c.added) + KeySet(key, c.changed) + KeySet(key, c.removed)
    ensures var before := Projected(key, planned, changes);
      (EntryFor(key, Projected(key, planned, changes + [c]), k) == VersionOf(key, c, k))
        <==> k in KeySet(key, c.changed) || k !in KeySet(key, c.added) || k in KeySet(key, c.removed) || !HasKey(key, before, k)
             || EntryFor(key, before, k) == FirstFor(key, c.added, k)
  {
    hide Projected, Dropped, KeySet, HasKey, LastIndex, FirstFor;
    ChangeDecides(key, planned, changes, c, k);
    InKeySet(key, c.changed, k);
    InKeySet(key, c.added, k);
    FirstForSnoc(key, c.added, BacklogEntry("", ""), k);
  }

  /** The instance: of two changes that both add one new key the first one's version stays. */
  lemma FirstAdditionStays(key: KeyOf, es: seq<BacklogEntry>, a: BacklogEntry, b: BacklogEntry)
    requires key(a.title) == key(b.title) && !HasKey(key, es, key(a.title))
    ensures Projected(key, es, [PlanChange([a], [], []), PlanChange([b], [], [])]) == es + [a]
    ensures EntryFor(key, Projected(key, es, [PlanChange([a], [], []), PlanChange([b], [], [])]), key(a.title)) == Some(a)
    ensures VersionOf(key, PlanChange([b], [], []), key(a.title)) == Some(b)
  {
    hide *;
    var first, second := PlanChange([a], [], []), PlanChange([b], [], []);
    NothingKeyed(key);
    ProjectedOne(key, es, first);
    DropNothing(key, es);
    NothingApplied(key, es);
    OneAdded(key, es, a);
    AddedIs(key, es, a);
    ProjectedSnoc(key, es, [first, second], 1);
    assert [first, second][..2] == [first, second] && [first, second][..1] == [first];
    DropNothing(key, es + [a]);
    NothingApplied(key, es + [a]);
    OneAdded(key, es + [a], b);
    AddedIs(key, es + [a], b);
    HasKeySnoc(key, es, a);
    EntryForSnoc(key, es, a, key(a.title));
    OneVersion(key, b);
    ChangeDecides(key, es, [first], second, key(a.title));
    assert [first] + [second] == [first, second];
  }

  lemma OneVersion(key: KeyOf, b: BacklogEntry)
    ensures KeySet(key, [b]) == {key(b.title)}
    ensures VersionOf(key, PlanChange([b], [], []), key(b.title)) == Some(b)
  {
    hide HasKey;
    NothingDropped(key, {});
    assert b in [b];
  }

  lemma NothingKeyed(key: KeyOf)
    ensures KeySet(key, []) == {}
  {
  }

  lemma {:induction false} DropNothing(key: KeyOf, es: seq<BacklogEntry>)
    ensures Dropped(key, es, {}) == es
  {
    if es != [] {
      DropNothing(key, es[1..]);
    }
  }

  lemma OneAdded(key: KeyOf, es: seq<BacklogEntry>, a: BacklogEntry)
    ensures AddedAll(key, es, [a]) == Added(key, es, a)
  {
    assert [a][..0] == [];
  }
}
