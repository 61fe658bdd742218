/** The mempool refresh of the storage: from one estimate of the next blocks to
    the next one, by differences on the keys of both and inverses on the others. */
module Refresh {
  import opened Chain
  import opened Sums
  import opened Actions
  import opened Merger

  // What is known of a key between refreshes: the stored value, the inverse
  // that leads back to the chain, and the action of the last refresh.
  datatype Slot = Slot(cell: Cell, inverse: Option<Action>, cached: Option<Action>)

  // Fails where the source panics.
  datatype Turned = Fails | Turned(slot: Slot)

  // A key of both refreshes gets the difference and keeps its inverse; any
  // other key is undone first and then gets its action and the inverse of it.
  function Turn(s: Slot, next: Option<Action>): Turned {
    if s.cached.Some? && next.Some? then
      var d := Diff(s.cached.value, next.value);
      if d.Panics? || AfterDiff(d, s.cell).Crash? then Fails
      else Turned(Slot(AfterDiff(d, s.cell).cell, s.inverse, next))
    else
      var u := Reverted(s.inverse, s.cell);
      if u.Crash? then Fails
      else if next.None? then Turned(Slot(u.cell, None, None))
      else
        var r := Execute(next.value, u.cell);
        if r.Crash? then Fails else Turned(Slot(r.cell, Inverse(next.value, u.cell), next))
  }

  // The refresh alone, on the value of the chain.
  function Alone(next: Option<Action>, c: Cell): Executed {
    if next.None? then Now(c) else Execute(next.value, c)
  }

  function Back(c: Cell): Action {
    if c.Some? then Set(c.value) else Delete
  }

  // The inverse, or no inverse at all, leads back to the value of the chain.
  predicate Restorable(s: Slot, c: Cell) {
    if s.inverse.Some? then s.inverse.value == Back(c) else s.cell == c
  }

  // The stored value is what the last refresh alone makes of the chain's.
  predicate Shows(s: Slot, c: Cell) {
    s.cached.Some? ==> Execute(s.cached.value, c) == Now(s.cell)
  }

  lemma RestoresChain(s: Slot, c: Cell)
    ensures Restorable(s, c) ==> Reverted(s.inverse, s.cell) == Now(c)
  {
  }

  // An inverse is kept, or the difference changes nothing; or, for a key of
  // this refresh only, the action can be undone.
  predicate Keeps(s: Slot, next: Option<Action>, c: Cell) {
    if next.None? then true
    else if s.cached.Some? then
      var d := Diff(s.cached.value, next.value);
      s.inverse.Some? || d.Panics? || AfterDiff(d, c) == Now(c)
    else !Irreversible(next.value, c)
  }

  predicate Corrects(s: Slot, next: Option<Action>, c: Cell) {
    s.cached.Some? && next.Some? ==> !DiffFails(s.cached.value, next.value, c)
  }

  /** One refresh on one key. It stores what it would alone store on the chain,
      if and only if the difference does not fail; and it can be rolled back, if
      and only if an inverse was kept or nothing changed, or the new action can
      be undone. */
  lemma TurnLaw(s: Slot, next: Option<Action>, c: Cell)
    requires Restorable(s, c) && Shows(s, c) && Turn(s, next).Turned? && Alone(next, c).Now?
    ensures var t := Turn(s, next).slot;
      && t.cached == next
      && (Now(t.cell) == Alone(next, c) <==> Corrects(s, next, c))
      && (Restorable(t, c) <==> Keeps(s, next, c))
  {
    hide DiffFails, Diff, Irreversible;
    if s.cached.Some? && next.Some? {
      DiffLaw(s.cached.value, next.value, c);
    } else {
      RestoresChain(s, c);
      if next.Some? {
        UndoableLaw(next.value, c);
      }
    }
  }

  lemma UndoableLaw(a: Action, c: Cell)
    requires Execute(a, c).Now?
    ensures Restorable(Slot(Execute(a, c).cell, Inverse(a, c), Some(a)), c) <==> !Irreversible(a, c)
  {
  }

  // ----- runs of refreshes

  predicate Good(s: Slot, c: Cell) {
    Restorable(s, c) && Shows(s, c)
  }

  // No refresh fails, alone or after the others.
  ghost predicate AllTurn(s: Slot, list: seq<Option<Action>>, c: Cell)
    decreases |list|
  {
    list != [] ==>
      Turn(s, list[0]).Turned? && Alone(list[0], c).Now? && AllTurn(Turn(s, list[0]).slot, list[1..], c)
  }

  ghost predicate GoodThroughout(s: Slot, list: seq<Option<Action>>, c: Cell)
    requires AllTurn(s, list, c)
    decreases |list|
  {
    Good(s, c) && (list != [] ==> GoodThroughout(Turn(s, list[0]).slot, list[1..], c))
  }

  ghost predicate SafeThroughout(s: Slot, list: seq<Option<Action>>, c: Cell)
    requires AllTurn(s, list, c)
    decreases |list|
  {
    list != [] ==>
      Corrects(s, list[0], c) && Keeps(s, list[0], c) && SafeThroughout(Turn(s, list[0]).slot, list[1..], c)
  }

  /** Over any number of refreshes every one stores what it would alone store on
      the chain and can be rolled back, if and only if no difference fails and
      every inverse that is needed is kept. */
  lemma {:induction false} RefreshesLaw(s: Slot, list: seq<Option<Action>>, c: Cell)
    requires Good(s, c) && AllTurn(s, list, c)
    ensures GoodThroughout(s, list, c) <==> SafeThroughout(s, list, c)
    decreases |list|
  {
    hide Turn, Corrects, Keeps, Restorable;
    if list != [] {
      TurnLaw(s, list[0], c);
      var t := Turn(s, list[0]).slot;
      ShowsAfter(s, list[0], c);
      if Good(t, c) {
        RefreshesLaw(t, list[1..], c);
      } else {
        NotGood(t, list[1..], c);
      }
    }
  }

  lemma ShowsAfter(s: Slot, next: Option<Action>, c: Cell)
    requires Restorable(s, c) && Shows(s, c) && Turn(s, next).Turned? && Alone(next, c).Now?
    ensures Shows(Turn(s, next).slot, c) <==> Corrects(s, next, c)
  {
    TurnLaw(s, next, c);
  }

  lemma NotGood(s: Slot, list: seq<Option<Action>>, c: Cell)
    requires AllTurn(s, list, c) && !Good(s, c)
    ensures !GoodThroughout(s, list, c)
  {
  }

  /** The inverse is not always kept: the first refresh sets the key to the value
      it has, so there is nothing to undo; the second one sets another value as a
      difference, without an inverse, and rolling back leaves it there. */
  lemma InverseForgotten(v: Value, w: Value)
    requires v != w
    ensures var first := Turn(Slot(Some(v), None, None), Some(Set(v)));
      && first == Turned(Slot(Some(v), None, Some(Set(v))))
      && Turn(first.slot, Some(Set(w))) == Turned(Slot(Some(w), None, Some(Set(w))))
      && Reverted(None, Some(w)) == Now(Some(w))
  {
  }

  // ----- all keys

  function At(actions: map<Key, Action>, k: Key): Option<Action> {
    if k in actions then Some(actions[k]) else None
  }

  function SlotOf(store: Store, inverses: map<Key, Action>, cache: map<Key, Action>, k: Key): Slot {
    Slot(CellAt(store, k), At(inverses, k), At(cache, k))
  }

  /** Where every key is good, the store is the chain's with the last refresh
      executed on it, and executing the inverses gives the chain's store back,
      each in any order of the keys. */
  lemma RefreshedStore(chain: Store, store: Store, inverses: map<Key, Action>, cache: map<Key, Action>, order: seq<Key>, back: seq<Key>)
    requires forall k :: Good(SlotOf(store, inverses, cache, k), CellAt(chain, k))
    requires forall k :: k !in cache ==> k !in inverses
    requires Distinct(order) && forall k :: k in order <==> k in cache
    requires Distinct(back) && forall k :: k in back <==> k in inverses
    ensures store == RunPending(cache, order, chain) && RunPending(inverses, back, store) == chain
  {
    hide RunPending, Execute;
    var executed, undone := RunPending(cache, order, chain), RunPending(inverses, back, store);
    forall k ensures CellAt(store, k) == CellAt(executed, k) && CellAt(undone, k) == CellAt(chain, k) {
      var s := SlotOf(store, inverses, cache, k);
      assert Good(s, CellAt(chain, k));
      RestoresChain(s, CellAt(chain, k));
      RunPendingAt(cache, order, chain, k);
      RunPendingAt(inverses, back, store, k);
    }
    SameStore(store, executed);
    SameStore(undone, chain);
  }

  class Refresher {
    var store: Store
    var inverses: map<Key, Action>
    var cache: map<Key, Action>

    ghost function SlotAt(k: Key): Slot reads this {
      SlotOf(store, inverses, cache, k)
    }

    constructor (store: Store)
      ensures forall k :: SlotAt(k) == Slot(CellAt(store, k), None, None) && Good(SlotAt(k), CellAt(store, k))
    {
      this.store, inverses, cache := store, map[], map[];
    }

    // The differences on the keys of both refreshes; false where the source panics.
    method Differences(next: map<Key, Action>) returns (ok: bool, diffs: map<Key, Difference>)
      ensures ok <==> forall k :: k in next && k in cache ==> !Diff(cache[k], next[k]).Panics?
      ensures ok ==> diffs.Keys == next.Keys * cache.Keys && forall k :: k in diffs ==> diffs[k] == Diff(cache[k], next[k])
    {
      hide Diff;
      var todo := next.Keys;
      diffs := map[];
      while todo != {}
        invariant todo <= next.Keys && diffs.Keys == (next.Keys - todo) * cache.Keys
        invariant forall k :: k in diffs ==> diffs[k] == Diff(cache[k], next[k]) && !diffs[k].Panics?
        decreases |todo|
      {
        var k :| k in todo;
        if k in cache {
          var d := Diff(cache[k], next[k]);
          if d.Panics? {
            return false, map[];
          }
          diffs := diffs[k := d];
        }
        todo := todo - {k};
      }
      ok := true;
    }

    // Undoes the last refresh on the keys that are not in `shared`.
    method UndoOthers(shared: set<Key>) returns (ok: bool)
      modifies this`store, this`inverses
      ensures ok ==> forall k :: k in old(inverses) && k !in shared ==>
        Execute(old(inverses)[k], CellAt(old(store), k)) == Now(CellAt(store, k))
      ensures ok ==> forall k :: k !in old(inverses) || k in shared ==> CellAt(store, k) == CellAt(old(store), k)
      ensures ok ==> inverses == map k | k in old(inverses) && k in shared :: old(inverses)[k]
      ensures !ok ==> exists k :: k in old(inverses) && k !in shared && Execute(old(inverses)[k], CellAt(old(store), k)).Crash?
    {
      hide Execute;
      var todo, all := inverses.Keys - shared, inverses;
      while todo != {}
        invariant todo <= all.Keys - shared && all == old(inverses) == inverses
        invariant forall k :: k in all && k !in shared && k !in todo ==> Execute(all[k], CellAt(old(store), k)) == Now(CellAt(store, k))
        invariant forall k :: k !in all || k in shared || k in todo ==> CellAt(store, k) == CellAt(old(store), k)
        decreases |todo|
      {
        var k :| k in todo;
        var r := Execute(all[k], CellAt(store, k));
        if r.Crash? {
          return false;
        }
        store := Put(store, k, r.cell);
        todo := todo - {k};
      }
      inverses := map k | k in all && k in shared :: all[k];
      ok := true;
    }

    // A difference, or an action with its inverse.
    method ApplyOne(k: Key, a: Action, diff: Option<Difference>) returns (ok: bool)
      requires diff.Some? ==> !diff.value.Panics?
      modifies this`store, this`inverses
      ensures var c := CellAt(old(store), k);
        var r := if diff.Some? then AfterDiff(diff.value, c) else Execute(a, c);
        if !ok then r.Crash? && store == old(store) && inverses == old(inverses) else
          && r == Now(CellAt(store, k)) && At(inverses, k) == (if diff.Some? then At(old(inverses), k) else Inverse(a, c))
          && forall j :: j != k ==> CellAt(store, j) == CellAt(old(store), j) && At(inverses, j) == At(old(inverses), j)
    {
      hide Execute, AfterDiff, Inverse;
      var c := CellAt(store, k);
      var r := if diff.Some? then AfterDiff(diff.value, c) else Execute(a, c);
      ok := r.Now?;
      if ok {
        store := Put(store, k, r.cell);
        if diff.None? {
          var back := Inverse(a, c);
          inverses := if back.Some? then inverses[k := back.value] else inverses - {k};
        }
      }
    }

    // Differences first or last, in any order of the keys.
    method Apply(next: map<Key, Action>, diffs: map<Key, Difference>) returns (ok: bool)
      requires forall k :: k in diffs ==> !diffs[k].Panics?
      modifies this`store, this`inverses
      ensures ok ==> forall k :: Stepped(CellAt(old(store), k), At(old(inverses), k), At(next, k), DiffAt(diffs, k), CellAt(store, k), At(inverses, k))
      ensures !ok ==> exists k :: k in next && Result(next[k], DiffAt(diffs, k), CellAt(old(store), k)).Crash?
    {
      hide Execute, AfterDiff, Inverse, Result;
      var todo := next.Keys;
      while todo != {}
        invariant todo <= next.Keys
        invariant forall k :: k !in todo ==>
          Stepped(CellAt(old(store), k), At(old(inverses), k), At(next, k), DiffAt(diffs, k), CellAt(store, k), At(inverses, k))
        invariant forall k :: k in todo ==> CellAt(store, k) == CellAt(old(store), k) && At(inverses, k) == At(old(inverses), k)
        decreases |todo|
      {
        hide Stepped;
        var k :| k in todo;
        assert CellAt(store, k) == CellAt(old(store), k) && At(inverses, k) == At(old(inverses), k);
        var done := ApplyOne(k, next[k], DiffAt(diffs, k));
        ResultIs(next[k], DiffAt(diffs, k), CellAt(old(store), k));
        if !done {
          return false;
        }
        SteppedIs(CellAt(old(store), k), At(old(inverses), k), next[k], DiffAt(diffs, k), CellAt(store, k), At(inverses, k));
        todo := todo - {k};
      }
      ok := true;
    }

    /** A refresh turns every key as specified, and fails exactly when one does. */
    method Refresh(next: map<Key, Action>) returns (ok: bool)
      modifies this
      ensures ok ==> forall k :: Turn(old(SlotAt(k)), At(next, k)) == Turned(SlotAt(k))
      ensures !ok ==> exists k :: Turn(old(SlotAt(k)), At(next, k)).Fails?
    {
      hide Diff, Execute, Inverse, AfterDiff, Stepped, Result;
      var diffs;
      ok, diffs := Differences(next);
      if !ok {
        ghost var k :| k in next && k in cache && Diff(cache[k], next[k]).Panics?;
        assert Turn(old(SlotAt(k)), At(next, k)).Fails?;
        return;
      }
      ok := UndoOthers(diffs.Keys);
      if !ok {
        ghost var k :| k in old(inverses) && k !in diffs && Execute(old(inverses)[k], CellAt(old(store), k)).Crash?;
        assert Turn(old(SlotAt(k)), At(next, k)).Fails?;
        return;
      }
      ghost var undone, kept := store, inverses;
      ok := Apply(next, diffs);
      cache := next;
      if ok {
        forall k ensures Turn(old(SlotAt(k)), At(next, k)) == Turned(SlotAt(k)) {
          TurnIs(old(SlotAt(k)), At(next, k), DiffAt(diffs, k), CellAt(undone, k), At(kept, k), CellAt(store, k), At(inverses, k));
        }
      } else {
        ghost var k :| k in next && Result(next[k], DiffAt(diffs, k), CellAt(undone, k)).Crash?;
        TurnFails(old(SlotAt(k)), next[k], DiffAt(diffs, k), CellAt(undone, k), At(kept, k));
      }
    }
  }

  function DiffAt(diffs: map<Key, Difference>, k: Key): Option<Difference> {
    if k in diffs then Some(diffs[k]) else None
  }

  function Result(a: Action, diff: Option<Difference>, c: Cell): Executed
    requires diff.Some? ==> !diff.value.Panics?
  {
    if diff.Some? then AfterDiff(diff.value, c) else Execute(a, c)
  }

  // What applying a refresh does to a key of value `c` and inverse `i`.
  predicate Stepped(c: Cell, i: Option<Action>, next: Option<Action>, diff: Option<Difference>, cell: Cell, inverse: Option<Action>)
    requires diff.Some? ==> !diff.value.Panics?
  {
    if next.None? then cell == c && inverse == i
    else Result(next.value, diff, c) == Now(cell) && inverse == if diff.Some? then i else Inverse(next.value, c)
  }

  lemma ResultIs(a: Action, diff: Option<Difference>, c: Cell)
    requires diff.Some? ==> !diff.value.Panics?
    ensures Result(a, diff, c) == if diff.Some? then AfterDiff(diff.value, c) else Execute(a, c)
  {
  }

  lemma SteppedIs(c: Cell, i: Option<Action>, a: Action, diff: Option<Difference>, cell: Cell, inverse: Option<Action>)
    requires diff.Some? ==> !diff.value.Panics?
    requires Result(a, diff, c) == Now(cell) && inverse == if diff.Some? then i else Inverse(a, c)
    ensures Stepped(c, i, Some(a), diff, cell, inverse)
  {
  }

  // The parts of a turn: undoing, if the key is not shared, then the step.
  ghost predicate Prepared(s: Slot, next: Option<Action>, diff: Option<Difference>, c: Cell, i: Option<Action>) {
    && (diff.Some? <==> s.cached.Some? && next.Some?)
    && (diff.Some? ==> diff.value == Diff(s.cached.value, next.value) && !diff.value.Panics? && c == s.cell && i == s.inverse)
    && (diff.None? ==> Reverted(s.inverse, s.cell) == Now(c) && i.None?)
  }

  lemma TurnIs(s: Slot, next: Option<Action>, diff: Option<Difference>, c: Cell, i: Option<Action>, cell: Cell, inverse: Option<Action>)
    requires Prepared(s, next, diff, c, i) && Stepped(c, i, next, diff, cell, inverse)
    ensures Turn(s, next) == Turned(Slot(cell, inverse, next))
  {
    hide Diff, Execute, Inverse, AfterDiff;
  }

  lemma TurnFails(s: Slot, a: Action, diff: Option<Difference>, c: Cell, i: Option<Action>)
    requires Prepared(s, Some(a), diff, c, i) && Result(a, diff, c).Crash?
    ensures Turn(s, Some(a)).Fails?
  {
    hide Diff, Execute, Inverse, AfterDiff;
  }
}
