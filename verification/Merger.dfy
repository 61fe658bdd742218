/** Batches of storage actions over many keys: merged per key as they come in,
    then executed once per key in any order. */
module Merger {
  import opened Chain
  import opened Sums
  import opened Actions

  type Key = seq<bv8>
  type Batch = seq<(Key, Action)>
  type Store = map<Key, Value>

  function CellAt(store: Store, k: Key): Cell {
    if k in store then Some(store[k]) else None
  }

  function Put(store: Store, k: Key, c: Cell): Store {
    if c.Some? then store[k := c.value] else store - {k}
  }

  // The actions of a batch on one key.
  function Project(batch: Batch, k: Key): seq<Action> {
    if batch == [] then [] else
      var last := batch[|batch| - 1];
      Project(batch[..|batch| - 1], k) + if last.0 == k then [last.1] else []
  }

  lemma ProjectSnoc(batch: Batch, k: Key)
    requires batch != []
    ensures var front, last, list := batch[..|batch| - 1], batch[|batch| - 1], Project(batch, k);
      if last.0 == k then list != [] && list[..|list| - 1] == Project(front, k) && list[|list| - 1] == last.1
      else list == Project(front, k)
  {
  }

  // ----- executing a batch action by action

  ghost predicate BatchRuns(batch: Batch, store: Store) {
    forall k :: AllRun(Project(batch, k), CellAt(store, k))
  }

  // Every action meets its own terms when its turn comes.
  ghost predicate BatchFits(batch: Batch, store: Store) {
    forall k :: AllFit(Project(batch, k), CellAt(store, k))
  }

  lemma FitsRuns(batch: Batch, store: Store)
    requires BatchFits(batch, store)
    ensures BatchRuns(batch, store)
  {
    forall k ensures AllRun(Project(batch, k), CellAt(store, k)) {
      assert AllFit(Project(batch, k), CellAt(store, k));
    }
  }

  lemma RunsFront(batch: Batch, store: Store)
    requires batch != [] && BatchRuns(batch, store)
    ensures BatchRuns(batch[..|batch| - 1], store)
  {
    forall k ensures AllRun(Project(batch[..|batch| - 1], k), CellAt(store, k)) {
      ProjectSnoc(batch, k);
      assert AllRun(Project(batch, k), CellAt(store, k));
    }
  }

  ghost function RunBatch(batch: Batch, store: Store): (r: Store)
    requires BatchRuns(batch, store)
    ensures forall k :: CellAt(r, k) == AfterAll(Project(batch, k), CellAt(store, k))
  {
    if batch == [] then store else
      var front, last := batch[..|batch| - 1], batch[|batch| - 1];
      RunsFront(batch, store);
      var s := RunBatch(front, store);
      StepRuns(batch, store, s);
      var r := Put(s, last.0, Execute(last.1, CellAt(s, last.0)).cell);
      assert forall k :: CellAt(r, k) == AfterAll(Project(batch, k), CellAt(store, k)) by {
        forall k ensures CellAt(r, k) == AfterAll(Project(batch, k), CellAt(store, k)) {
          StepAt(batch, store, s, r, k);
        }
      }
      r
  }

  lemma StepRuns(batch: Batch, store: Store, s: Store)
    requires batch != [] && BatchRuns(batch, store) && BatchRuns(batch[..|batch| - 1], store)
    requires forall k :: CellAt(s, k) == AfterAll(Project(batch[..|batch| - 1], k), CellAt(store, k))
    ensures Execute(batch[|batch| - 1].1, CellAt(s, batch[|batch| - 1].0)).Now?
  {
    var last := batch[|batch| - 1];
    ProjectSnoc(batch, last.0);
    assert AllRun(Project(batch, last.0), CellAt(store, last.0));
  }

  lemma StepAt(batch: Batch, store: Store, s: Store, r: Store, k: Key)
    requires batch != [] && BatchRuns(batch, store) && BatchRuns(batch[..|batch| - 1], store)
    requires CellAt(s, k) == AfterAll(Project(batch[..|batch| - 1], k), CellAt(store, k))
    requires var last := batch[|batch| - 1];
      Execute(last.1, CellAt(s, last.0)).Now? && r == Put(s, last.0, Execute(last.1, CellAt(s, last.0)).cell)
    ensures CellAt(r, k) == AfterAll(Project(batch, k), CellAt(store, k))
  {
    ProjectSnoc(batch, k);
    assert AllRun(Project(batch, k), CellAt(store, k));
  }

  // ----- merging a batch

  datatype Pushed = Panicked | Pending(actions: map<Key, Action>)

  function PendingAt(actions: map<Key, Action>, k: Key): Merged {
    if k in actions then One(actions[k]) else Nothing
  }

  function PushOne(actions: map<Key, Action>, k: Key, a: Action): Pushed {
    match Push(PendingAt(actions, k), a)
    case Panic => Panicked
    case Nothing => Pending(actions - {k})
    case One(m) => Pending(actions[k := m])
  }

  function PushBatch(batch: Batch): Pushed {
    if batch == [] then Pending(map[]) else
      var p, last := PushBatch(batch[..|batch| - 1]), batch[|batch| - 1];
      if p.Panicked? then p else PushOne(p.actions, last.0, last.1)
  }

  /** Keys do not interfere: what is pending for a key is the merge of the
      actions on that key, and the batch panics exactly when one key does. */
  lemma {:induction false} PendingIsMerge(batch: Batch)
    ensures PushBatch(batch).Pending? ==> forall k :: PendingAt(PushBatch(batch).actions, k) == MergeAll(Project(batch, k))
    ensures PushBatch(batch).Panicked? <==> exists k :: MergeAll(Project(batch, k)).Panic?
  {
    hide Merge;
    if batch == [] {
      assert forall k :: Project(batch, k) == [];
    } else {
      var front, last := batch[..|batch| - 1], batch[|batch| - 1];
      PendingIsMerge(front);
      forall k ensures MergeAll(Project(batch, k)) ==
        if k == last.0 then Push(MergeAll(Project(front, k)), last.1) else MergeAll(Project(front, k))
      {
        ProjectSnoc(batch, k);
      }
      if PushBatch(front).Panicked? {
        var k :| MergeAll(Project(front, k)).Panic?;
        assert MergeAll(Project(batch, k)).Panic?;
      } else if PushBatch(batch).Panicked? {
        assert MergeAll(Project(batch, last.0)).Panic?;
      }
    }
  }

  // Execute what is pending, one key after the other.
  function RunPending(actions: map<Key, Action>, order: seq<Key>, store: Store): Store
    requires forall i :: 0 <= i < |order| ==> order[i] in actions
  {
    if order == [] then store else
      var s, k := RunPending(actions, order[..|order| - 1], store), order[|order| - 1];
      var r := Execute(actions[k], CellAt(s, k));
      if r.Crash? then s else Put(s, k, r.cell)
  }

  lemma {:induction false} RunPendingAt(actions: map<Key, Action>, order: seq<Key>, store: Store, k: Key)
    requires Distinct(order) && forall i :: 0 <= i < |order| ==> order[i] in actions
    ensures CellAt(RunPending(actions, order, store), k) ==
      if k in order && Execute(actions[k], CellAt(store, k)).Now? then Execute(actions[k], CellAt(store, k)).cell
      else CellAt(store, k)
  {
    hide Execute;
    if order != [] {
      var front, last := order[..|order| - 1], order[|order| - 1];
      RunPendingAt(actions, front, store, k);
      RunPendingAt(actions, front, store, last);
      assert last !in front;
      assert k in order <==> k in front || k == last;
    }
  }

  lemma SameStore(a: Store, b: Store)
    requires forall k :: CellAt(a, k) == CellAt(b, k)
    ensures a == b
  {
    forall k ensures k in a <==> k in b {
      assert CellAt(a, k) == CellAt(b, k);
    }
    forall k | k in a ensures a[k] == b[k] {
      assert CellAt(a, k) == CellAt(b, k);
    }
  }

  // Key by key: what executing the pending actions leaves.
  lemma PendingExecuted(batch: Batch, store: Store, order: seq<Key>, k: Key)
    requires PushBatch(batch).Pending? && Distinct(order) && forall k :: k in order <==> k in PushBatch(batch).actions
    requires AllRun(Project(batch, k), CellAt(store, k))
    ensures !MergeAll(Project(batch, k)).Panic?
    ensures var r := AfterMerged(MergeAll(Project(batch, k)), CellAt(store, k));
      CellAt(RunPending(PushBatch(batch).actions, order, store), k) == if r.Now? then r.cell else CellAt(store, k)
  {
    hide Execute, PushBatch, RunPending;
    PendingIsMerge(batch);
    RunPendingAt(PushBatch(batch).actions, order, store, k);
    assert PendingAt(PushBatch(batch).actions, k) == MergeAll(Project(batch, k));
  }

  /** A batch merged per key and executed in any order of the keys leaves the
      store that executing every action in turn leaves, if and only if on no key
      a stored zero is deleted unnoticed, with only inserts after it, or a number
      is lowered to nothing and then only raised by zero. */
  lemma BatchLaw(batch: Batch, store: Store, order: seq<Key>)
    requires BatchFits(batch, store) && PushBatch(batch).Pending?
    requires Distinct(order) && forall k :: k in order <==> k in PushBatch(batch).actions
    ensures BatchRuns(batch, store)
    ensures RunPending(PushBatch(batch).actions, order, store) == RunBatch(batch, store) <==>
      forall k :: !ZeroStays(Project(batch, k), CellAt(store, k)) && !ZeroMissed(Project(batch, k), CellAt(store, k))
  {
    FitsRuns(batch, store);
    hide AllFit, Execute, PushBatch, RunPending, ZeroStays, ZeroMissed;
    var merged, each := RunPending(PushBatch(batch).actions, order, store), RunBatch(batch, store);
    forall k ensures CellAt(merged, k) == CellAt(each, k) <==>
      !ZeroStays(Project(batch, k), CellAt(store, k)) && !ZeroMissed(Project(batch, k), CellAt(store, k))
    {
      assert AllFit(Project(batch, k), CellAt(store, k)) && AllRun(Project(batch, k), CellAt(store, k));
      PendingExecuted(batch, store, order, k);
      FinalLaw(Project(batch, k), CellAt(store, k));
      MergedRuns(Project(batch, k), CellAt(store, k));
    }
    if forall k :: CellAt(merged, k) == CellAt(each, k) {
      SameStore(merged, each);
    }
  }

  lemma MergedRuns(list: seq<Action>, c: Cell)
    requires AllFit(list, c) && !MergeAll(list).Panic?
    ensures AfterMerged(MergeAll(list), c).Now?
  {
    ZeroShapes(list, c);
  }

  /** Whatever the actions, the stores agree when the merge is right at every
      point of every key. */
  lemma CleanBatch(batch: Batch, store: Store, order: seq<Key>)
    requires BatchRuns(batch, store) && PushBatch(batch).Pending?
    requires forall k :: Clean(Project(batch, k), CellAt(store, k))
    requires Distinct(order) && forall k :: k in order <==> k in PushBatch(batch).actions
    ensures RunPending(PushBatch(batch).actions, order, store) == RunBatch(batch, store)
  {
    hide Clean, AllRun, Execute, PushBatch, RunPending;
    var merged, each := RunPending(PushBatch(batch).actions, order, store), RunBatch(batch, store);
    forall k ensures CellAt(merged, k) == CellAt(each, k) {
      PendingExecuted(batch, store, order, k);
      MergeAllLaw(Project(batch, k), CellAt(store, k));
      assert Exact(Project(batch, k), CellAt(store, k));
    }
    SameStore(merged, each);
  }

  // ----- rolling a batch back

  // The inverses of a batch of pending actions, given the store they found.
  function Inverses(actions: map<Key, Action>, store: Store): map<Key, Action> {
    map k | k in actions && Inverse(actions[k], CellAt(store, k)).Some? :: Inverse(actions[k], CellAt(store, k)).value
  }

  /** Executing a batch and then its inverses, each in any order of the keys,
      restores the store, unless an action was irreversible. */
  lemma BatchUndone(actions: map<Key, Action>, order: seq<Key>, back: seq<Key>, store: Store)
    requires Distinct(order) && forall k :: k in order <==> k in actions
    requires Distinct(back) && forall k :: k in back <==> k in Inverses(actions, store)
    requires forall k :: k in actions ==> Execute(actions[k], CellAt(store, k)).Now? && !Irreversible(actions[k], CellAt(store, k))
    ensures RunPending(Inverses(actions, store), back, RunPending(actions, order, store)) == store
  {
    hide Execute, Inverse, Irreversible, RunPending;
    var inverses, after := Inverses(actions, store), RunPending(actions, order, store);
    var restored := RunPending(inverses, back, after);
    forall k ensures CellAt(restored, k) == CellAt(store, k) {
      RunPendingAt(actions, order, store, k);
      RunPendingAt(inverses, back, after, k);
      if k in actions {
        InverseLaw(actions[k], CellAt(store, k));
      }
    }
    SameStore(restored, store);
  }

  /** The merger of the source: one map of pending actions. */
  class ActionMerger {
    var actions: map<Key, Action>

    constructor ()
      ensures actions == map[]
    {
      actions := map[];
    }

    // Returns false where the source panics.
    method PushActions(batch: Batch, ghost before: Batch) returns (ok: bool)
      requires PushBatch(before) == Pending(actions)
      modifies this
      ensures ok <==> PushBatch(before + batch).Pending?
      ensures ok ==> PushBatch(before + batch) == Pending(actions)
    {
      hide Push, PushOne;
      assert before + batch[..0] == before;
      for i := 0 to |batch|
        invariant PushBatch(before + batch[..i]) == Pending(actions)
      {
        var k, a := batch[i].0, batch[i].1;
        assert before + batch[..i + 1] == (before + batch[..i]) + [batch[i]];
        assert (before + batch[..i + 1])[..|before| + i] == before + batch[..i];
        PushUnfolds(actions, k, a);
        if k in actions {
          var prev := actions[k];
          actions := actions - {k};
          var m := Merge(prev, a);
          if m.Panic? {
            assert (before + batch)[..|before| + i + 1] == before + batch[..i + 1];
            StaysPanicked(before + batch, |before| + i + 1);
            return false;
          }
          if m.One? {
            actions := actions[k := m.action];
          }
        } else {
          actions := actions[k := a];
        }
      }
      assert batch[..|batch|] == batch;
      ok := true;
    }
  }

  lemma PushUnfolds(actions: map<Key, Action>, k: Key, a: Action)
    ensures PushOne(actions, k, a) ==
      if k !in actions then Pending(actions[k := a]) else
        var m := Merge(actions[k], a);
        if m.Panic? then Panicked else if m.One? then Pending((actions - {k})[k := m.action]) else Pending(actions - {k})
  {
  }

  lemma {:induction false} StaysPanicked(batch: Batch, i: nat)
    requires i <= |batch| && PushBatch(batch[..i]).Panicked?
    ensures PushBatch(batch).Panicked?
    decreases |batch|
  {
    if i == |batch| {
      assert batch[..i] == batch;
    } else {
      assert batch[..|batch| - 1][..i] == batch[..i];
      StaysPanicked(batch[..|batch| - 1], i);
    }
  }
}
