/** Storage actions on one key: merging two of them into one, the difference
    between two of them, and merging whole batches before they are executed. */
module Actions {
  import opened Chain
  import S = Saturation

  type Bytes = seq<bv8>

  type U128 = n: nat | n <= U128_MAX

  // A stored value is a number or anything else; None is no value at all.
  datatype Value = Num(n: U128) | Raw(bytes: Bytes)
  type Cell = Option<Value>

  datatype Action =
    | Set(v: Value)
    | SetOnce(v: Value)
    | SetPermanent(v: Value)
    | Delete
    | Insert(v: Value)
    | InsertPermanent(v: Value)
    | Increment(d: U128)
    | Decrement(d: U128)
    | DecrementNoDelete(d: U128)

  // ----- executing an action

  datatype Executed = Crash | Now(cell: Cell)

  // Addition of unsigned 128-bit words wraps.
  function Add(a: U128, b: U128): U128 {
    if a + b <= U128_MAX then a + b else a + b - (U128_MAX + 1)
  }

  function Execute(a: Action, c: Cell): Executed {
    match a
    case Set(v) => Now(Some(v))
    case SetOnce(v) => Now(Some(v))
    case SetPermanent(v) => Now(Some(v))
    case Delete => Now(None)
    case Insert(v) => Now(if c.Some? then c else Some(v))
    case InsertPermanent(v) => Now(if c.Some? then c else Some(v))
    case Increment(d) =>
      if c.None? then Now(Some(Num(d))) else if c.value.Raw? then Crash else Now(Some(Num(Add(c.value.n, d))))
    case Decrement(d) =>
      if c.None? then Now(None) else if c.value.Raw? then Crash
      else Now(if c.value.n <= d then None else Some(Num(c.value.n - d)))
    case DecrementNoDelete(d) =>
      if c.None? then Now(None) else if c.value.Raw? then Crash
      else Now(Some(Num(if c.value.n <= d then 0 else c.value.n - d)))
  }

  // The action meets its own terms on this cell: nothing overflows, nothing
  // is decremented below zero, and a key set once was empty.
  predicate Fits(a: Action, c: Cell) {
    match a
    case SetOnce(_) => c.None?
    case SetPermanent(v) => c.None? || c.value == v
    case Increment(d) => c.Some? ==> c.value.Num? && c.value.n + d <= U128_MAX
    case Decrement(d) => c.Some? && c.value.Num? && d <= c.value.n
    case DecrementNoDelete(d) => c.Some? && c.value.Num? && d <= c.value.n
    case _ => true
  }

  // What a fitting action leaves.
  function After(a: Action, c: Cell): (r: Cell)
    requires Fits(a, c)
    ensures Execute(a, c) == Now(r)
  {
    Execute(a, c).cell
  }

  // ----- merging

  datatype Merged = Panic | Nothing | One(action: Action)

  function Merge(a: Action, b: Action): Merged {
    match a
    case Increment(p) => (
      match b
      case Increment(n) => One(Increment(Add(p, n)))
      case Decrement(n) => if p == n then Nothing else if p > n then One(Increment(p - n)) else One(Decrement(n - p))
      case DecrementNoDelete(n) => if p >= n then One(Increment(p - n)) else One(DecrementNoDelete(n - p))
      case _ => Panic)
    case Decrement(p) => (
      match b
      case Decrement(n) => One(Decrement(Add(p, n)))
      case Increment(n) => if p == n then Nothing else if p > n then One(Decrement(p - n)) else One(Increment(n - p))
      case _ => Panic)
    case DecrementNoDelete(p) => (
      match b
      case DecrementNoDelete(n) => One(DecrementNoDelete(Add(p, n)))
      case Increment(n) => if p >= n then One(DecrementNoDelete(p - n)) else One(Increment(n - p))
      case _ => Panic)
    case Set(v) => if b.Set? || b.Delete? then One(b) else if b.Insert? then One(a) else Panic
    case SetOnce(_) => if b.Delete? then Nothing else Panic
    case SetPermanent(_) => if b.SetPermanent? then One(a) else Panic
    case Delete => if b.Set? || b.Delete? then One(b) else if b.Insert? then One(Set(b.v)) else Panic
    case Insert(_) => if b.Set? || b.Delete? then One(b) else if b.Insert? then One(a) else Panic
    case InsertPermanent(_) => if b.InsertPermanent? then One(a) else Panic
  }

  // ----- which pairs are accepted

  predicate Rewrites(a: Action) {
    a.Set? || a.Delete? || a.Insert?
  }

  predicate Numeric(a: Action) {
    a.Increment? || a.Decrement? || a.DecrementNoDelete?
  }

  // Overwriting actions with each other, counters unless they lower in both ways, a
  // permanent write with its like, and a delete that takes back a key set once.
  predicate Mergeable(a: Action, b: Action) {
    || (Rewrites(a) && Rewrites(b))
    || (Numeric(a) && Numeric(b) && !(a.Decrement? && b.DecrementNoDelete?) && !(a.DecrementNoDelete? && b.Decrement?))
    || (a.SetPermanent? && b.SetPermanent?) || (a.InsertPermanent? && b.InsertPermanent?)
    || (a.SetOnce? && b.Delete?)
  }

  /** Exactly the mergeable pairs are accepted. Exactly the pairs that take each
      other back leave nothing, and what others leave merges with whatever both
      merge with. */
  lemma MergeAccepts(a: Action, b: Action, y: Action)
    ensures Merge(a, b).Panic? <==> !Mergeable(a, b)
    ensures Merge(a, b).Nothing? <==>
      || (a.SetOnce? && b.Delete?)
      || (a.Increment? && b == Decrement(a.d)) || (a.Decrement? && b == Increment(a.d))
    ensures Merge(a, b).One? && Mergeable(a, y) && Mergeable(b, y) ==> Mergeable(Merge(a, b).action, y)
  {
  }

  // The two ways a merge forgets that a number reached zero in between: zero
  // is stored and raised and lowered by as much, or a number is lowered to
  // zero and then raised by zero.
  predicate LosesZero(a: Action, b: Action, c: Cell) {
    || (a.Increment? && b == Decrement(a.d) && c == Some(Num(0)))
    || (a.Decrement? && a.d > 0 && b == Increment(0) && c == Some(Num(a.d)))
  }

  // Or it forgets that a number was cut off at zero: lowered by more than is
  // stored and raised again, or, where nothing is stored, raised and lowered.
  predicate CutsOff(a: Action, b: Action, c: Cell) {
    match (a, b)
    case (Decrement(p), Increment(n)) => if c.None? then p > 0 || n == 0 else c.value.Num? && c.value.n < p
    case (DecrementNoDelete(p), Increment(n)) => if c.None? then p > 0 || n == 0 else c.value.Num? && c.value.n < p && n > 0
    case (Increment(p), DecrementNoDelete(n)) => c.None? && p < n
    case _ => false
  }

  // Or a number passed 128 bits.
  predicate WrapsAround(a: Action, b: Action, c: Cell) {
    c.Some? && c.value.Num? &&
      match (a, b)
      case (Decrement(p), Decrement(n)) => p + n > U128_MAX && c.value.n > p + n - U128_MAX - 1
      case (DecrementNoDelete(p), DecrementNoDelete(n)) => p + n > U128_MAX && c.value.n > p + n - U128_MAX - 1
      case (Increment(p), Decrement(n)) =>
        c.value.n + p > U128_MAX && if p >= n then c.value.n + p - n <= U128_MAX + 1 else c.value.n > n - p
      case (Increment(p), DecrementNoDelete(n)) =>
        c.value.n + p > U128_MAX && if p >= n then c.value.n + p - n <= U128_MAX else c.value.n > n - p
      case _ => false
  }

  // Or a key was set once that had a value, or set permanently to two values.
  predicate SetsTwice(a: Action, b: Action, c: Cell) {
    (a.SetOnce? && b.Delete? && c.Some?) || (a.SetPermanent? && b.SetPermanent? && a.v != b.v)
  }

  predicate Differs(a: Action, b: Action, c: Cell) {
    LosesZero(a, b, c) || CutsOff(a, b, c) || WrapsAround(a, b, c) || SetsTwice(a, b, c)
  }

  function AfterMerged(m: Merged, c: Cell): (r: Executed)
    requires !m.Panic?
  {
    if m.Nothing? then Now(c) else Execute(m.action, c)
  }

  /** Merging two actions is right for every stored value, unless a zero is
      lost, a number is cut off at zero or passes 128 bits, or a key is set twice:
      then, and only then, executing the result differs from executing both. */
  lemma MergeLaw(a: Action, b: Action, c: Cell)
    requires Execute(a, c).Now? && Execute(b, Execute(a, c).cell).Now? && !Merge(a, b).Panic?
    ensures AfterMerged(Merge(a, b), c) == Execute(b, Execute(a, c).cell) <==> !Differs(a, b, c)
  {
    if a.Increment? {
      MergeIncrement(a, b, c);
    } else if a.Decrement? {
      MergeDecrement(a, b, c);
    } else if a.DecrementNoDelete? {
      MergeNoDelete(a, b, c);
    }
  }

  lemma MergeIncrement(a: Action, b: Action, c: Cell)
    requires a.Increment? && Execute(a, c).Now? && Execute(b, Execute(a, c).cell).Now? && !Merge(a, b).Panic?
    ensures AfterMerged(Merge(a, b), c) == Execute(b, Execute(a, c).cell) <==> !Differs(a, b, c)
  {
    if b.Increment? {
      MergeIncrements(a.d, b.d, c);
    } else if b.Decrement? {
      MergeDown(a.d, b.d, c);
    } else {
      MergeDownNoDelete(a.d, b.d, c);
    }
  }

  lemma MergeIncrements(p: U128, n: U128, c: Cell)
    requires c.Some? ==> c.value.Num?
    ensures Execute(Increment(Add(p, n)), c) == Execute(Increment(n), Execute(Increment(p), c).cell)
  {
  }

  lemma MergeDown(p: U128, n: U128, c: Cell)
    requires c.Some? ==> c.value.Num?
    ensures var a, b := Increment(p), Decrement(n);
      AfterMerged(Merge(a, b), c) == Execute(b, Execute(a, c).cell) <==> !Differs(a, b, c)
  {
  }

  lemma MergeDownNoDelete(p: U128, n: U128, c: Cell)
    requires c.Some? ==> c.value.Num?
    ensures var a, b := Increment(p), DecrementNoDelete(n);
      AfterMerged(Merge(a, b), c) == Execute(b, Execute(a, c).cell) <==> !Differs(a, b, c)
  {
  }

  lemma MergeDecrement(a: Action, b: Action, c: Cell)
    requires a.Decrement? && Execute(a, c).Now? && Execute(b, Execute(a, c).cell).Now? && !Merge(a, b).Panic?
    ensures AfterMerged(Merge(a, b), c) == Execute(b, Execute(a, c).cell) <==> !Differs(a, b, c)
  {
    if b.Decrement? {
      MergeDecrements(a.d, b.d, c);
    } else {
      MergeUp(a.d, b.d, c);
    }
  }

  lemma MergeDecrements(p: U128, n: U128, c: Cell)
    requires c.Some? ==> c.value.Num?
    ensures var a, b := Decrement(p), Decrement(n);
      AfterMerged(Merge(a, b), c) == Execute(b, Execute(a, c).cell) <==> !Differs(a, b, c)
  {
  }

  lemma MergeUp(p: U128, n: U128, c: Cell)
    requires c.Some? ==> c.value.Num?
    ensures var a, b := Decrement(p), Increment(n);
      AfterMerged(Merge(a, b), c) == Execute(b, Execute(a, c).cell) <==> !Differs(a, b, c)
  {
  }

  lemma MergeNoDelete(a: Action, b: Action, c: Cell)
    requires a.DecrementNoDelete? && Execute(a, c).Now? && Execute(b, Execute(a, c).cell).Now? && !Merge(a, b).Panic?
    ensures AfterMerged(Merge(a, b), c) == Execute(b, Execute(a, c).cell) <==> !Differs(a, b, c)
  {
  }

  /** Of actions that meet their own terms only a zero can be lost, and what they
      are merged into meets its terms too. */
  lemma MergeFits(a: Action, b: Action, c: Cell)
    requires Fits(a, c) && Fits(b, After(a, c)) && !Merge(a, b).Panic?
    ensures Differs(a, b, c) <==> LosesZero(a, b, c)
    ensures Merge(a, b).One? ==> Fits(Merge(a, b).action, c)
  {
    FitsDiffers(a, b, c);
    FitsMerged(a, b, c);
  }

  lemma FitsDiffers(a: Action, b: Action, c: Cell)
    requires Fits(a, c) && Fits(b, After(a, c)) && !Merge(a, b).Panic?
    ensures !CutsOff(a, b, c) && !WrapsAround(a, b, c) && !SetsTwice(a, b, c)
  {
    if a.Decrement? || a.DecrementNoDelete? {
      assert b.Increment? ==> !CutsOff(a, b, c);
    }
  }

  lemma FitsMerged(a: Action, b: Action, c: Cell)
    requires Fits(a, c) && Fits(b, After(a, c)) && !Merge(a, b).Panic?
    ensures Merge(a, b).One? ==> Fits(Merge(a, b).action, c)
  {
  }

  // ----- merging a list of actions on one key

  // Nothing pending: the next action is kept as it is.
  function Push(m: Merged, a: Action): Merged {
    match m
    case Panic => Panic
    case Nothing => One(a)
    case One(p) => Merge(p, a)
  }

  function MergeAll(list: seq<Action>): Merged {
    if list == [] then Nothing else Push(MergeAll(list[..|list| - 1]), list[|list| - 1])
  }

  /** A list of actions that merge with each other is accepted as a whole, and so
      is any further action that merges with each of them. */
  lemma {:induction false} ListAccepted(list: seq<Action>, next: Action)
    requires forall x, y :: x in list && y in list ==> Mergeable(x, y)
    requires forall x :: x in list ==> Mergeable(x, next)
    ensures !MergeAll(list).Panic? && !MergeAll(list + [next]).Panic?
    ensures MergeAll(list).One? ==> Mergeable(MergeAll(list).action, next)
  {
    hide Merge, Mergeable;
    assert (list + [next])[..|list|] == list;
    if list != [] {
      var front, last := list[..|list| - 1], list[|list| - 1];
      ListAccepted(front, last);
      ListAccepted(front, next);
      if MergeAll(front).One? {
        MergeAccepts(MergeAll(front).action, last, next);
      }
    }
    if MergeAll(list).One? {
      MergeAccepts(MergeAll(list).action, next, next);
    }
  }

  // No action meets a value it cannot read.
  predicate AllRun(list: seq<Action>, c: Cell)
    decreases |list|, 0
  {
    list != [] ==>
      AllRun(list[..|list| - 1], c) && Execute(list[|list| - 1], AfterAll(list[..|list| - 1], c)).Now?
  }

  // The actions executed one by one.
  function AfterAll(list: seq<Action>, c: Cell): Cell
    requires AllRun(list, c)
    decreases |list|, 1
  {
    if list == [] then c else Execute(list[|list| - 1], AfterAll(list[..|list| - 1], c)).cell
  }

  // Every action meets its own terms when its turn comes.
  predicate AllFit(list: seq<Action>, c: Cell) {
    AllRun(list, c) &&
      (list != [] ==> AllFit(list[..|list| - 1], c) && Fits(list[|list| - 1], AfterAll(list[..|list| - 1], c)))
  }

  // The merge is right at every point.
  predicate Clean(list: seq<Action>, c: Cell) {
    list != [] ==>
      var m := MergeAll(list[..|list| - 1]);
      Clean(list[..|list| - 1], c) && (m.One? ==> !Differs(m.action, list[|list| - 1], c))
  }

  // No zero is lost at any point.
  predicate NoZeroLost(list: seq<Action>, c: Cell) {
    list != [] ==>
      var m := MergeAll(list[..|list| - 1]);
      NoZeroLost(list[..|list| - 1], c) && (m.One? ==> !LosesZero(m.action, list[|list| - 1], c))
  }

  // So far the merged action does what the actions do one by one.
  ghost predicate Exact(list: seq<Action>, c: Cell)
    requires AllRun(list, c)
  {
    !MergeAll(list).Panic? ==> AfterMerged(MergeAll(list), c) == Now(AfterAll(list, c))
  }

  ghost predicate ExactThroughout(list: seq<Action>, c: Cell)
    requires AllRun(list, c)
  {
    Exact(list, c) && (list != [] ==> ExactThroughout(list[..|list| - 1], c))
  }

  /** Merging any accepted list into one action is right at every point of the
      list if and only if no step of the merge differs. */
  lemma {:induction false} MergeAllLaw(list: seq<Action>, c: Cell)
    requires AllRun(list, c) && !MergeAll(list).Panic?
    ensures ExactThroughout(list, c) <==> Clean(list, c)
  {
    hide Merge, Execute, Differs;
    if list != [] {
      var front, last := list[..|list| - 1], list[|list| - 1];
      MergeAllLaw(front, c);
      if Clean(front, c) && MergeAll(front).One? {
        assert Exact(front, c);
        MergeLaw(MergeAll(front).action, last, c);
      }
    }
  }

  /** Where every action meets its terms and no zero is lost, it is right. */
  lemma {:induction false} FitsIsClean(list: seq<Action>, c: Cell)
    requires AllFit(list, c) && !MergeAll(list).Panic? && NoZeroLost(list, c)
    ensures Clean(list, c) && (MergeAll(list).One? ==> Fits(MergeAll(list).action, c))
    ensures AfterMerged(MergeAll(list), c) == Now(AfterAll(list, c))
  {
    hide Merge, Fits, Execute, LosesZero, Differs;
    if list != [] {
      var front, last := list[..|list| - 1], list[|list| - 1];
      FitsIsClean(front, c);
      if MergeAll(front).One? {
        MergeFits(MergeAll(front).action, last, c);
      }
    }
    MergeAllLaw(list, c);
    assert Exact(list, c);
  }

  /** The second way to fail: lowering 2 by 5 deletes the key and raising it by 3
      leaves 3, but the merged action lowers 2 by 2. */
  lemma CutOffMatters()
    ensures var list, c := [Decrement(5), Increment(3)], Some(Num(2));
      && AllRun(list, c) && AfterAll(list, c) == Some(Num(3))
      && MergeAll(list) == One(Decrement(2)) && AfterMerged(MergeAll(list), c) == Now(None)
  {
    var one, list, c := [Decrement(5)], [Decrement(5), Increment(3)], Some(Num(2));
    assert one[..0] == [] && list[..1] == one;
    assert AllRun(one, c) && AfterAll(one, c) == None && MergeAll(one) == One(Decrement(5));
  }

  // ----- when the final result alone is right

  predicate Inserts(a: Action) {
    a.Insert? || a.InsertPermanent?
  }

  // Pairs that delete a stored zero and put it back.
  predicate Idles(list: seq<Action>) {
    list == [] ||
      (|list| >= 2 && list[|list| - 2] == Decrement(0) && list[|list| - 1] == Increment(0) && Idles(list[..|list| - 2]))
  }

  // The last action lowers the number to nothing, after it had been raised, or
  // deletes a key that was set once.
  predicate Vanishes(list: seq<Action>, c: Cell)
    requires AllRun(list, c)
  {
    list != [] &&
      var front, last := list[..|list| - 1], list[|list| - 1];
      || (last.Decrement? && AfterAll(front, c) == Some(Num(last.d)) && !Idles(front))
      || (last.Delete? && front != [] && front[|front| - 1].SetOnce?)
  }

  // The stored zero has vanished, and from then on there were only inserts, the
  // first one of something else.
  ghost predicate ZeroStays(list: seq<Action>, c: Cell)
    requires AllRun(list, c)
  {
    && c == Some(Num(0)) && list != []
    && (Vanishes(list, c)
        || (Inserts(list[|list| - 1]) && ZeroStays(list[..|list| - 1], c)
            && (list[|list| - 1].v != Num(0) || Inserts(list[|list| - 2]))))
  }

  // A stored number has been lowered until it was deleted, and from then on it
  // was only raised by zero.
  ghost predicate ZeroMissed(list: seq<Action>, c: Cell)
    requires AllRun(list, c)
  {
    && c.Some? && c.value.Num? && c.value.n > 0
    && list != [] && list[|list| - 1] == Increment(0)
    && (AfterAll(list[..|list| - 1], c).None? || ZeroMissed(list[..|list| - 1], c))
  }

  // Exact, and the pending action is one that fits or replaces a lost zero.
  ghost predicate Right(m: Merged, c: Cell, s: Cell) {
    && !m.Panic? && AfterMerged(m, c) == Now(s)
    && (m.One? ==> Fits(m.action, c) || (c == Some(Num(0)) && (m.action.SetOnce? || m.action.SetPermanent?)))
  }

  ghost predicate Stays(m: Merged, c: Cell, s: Cell) {
    && c == Some(Num(0))
    && ((m.Nothing? && s.None?) || (m.One? && Inserts(m.action) && s == Some(m.action.v) && m.action.v != Num(0)))
  }

  ghost predicate Missed(m: Merged, c: Cell, s: Cell) {
    m.One? && m.action.Decrement? && m.action.d > 0 && c == Some(Num(m.action.d)) && s == Some(Num(0))
  }

  lemma RightStep(m: Merged, c: Cell, s: Cell, a: Action)
    requires Right(m, c, s) && Fits(a, s) && !Push(m, a).Panic?
    ensures var m', s' := Push(m, a), After(a, s);
      && (Right(m', c, s') || (Stays(m', c, s') && m'.Nothing? && s'.None?) || Missed(m', c, s'))
      && (Missed(m', c, s') <==> c.Some? && c.value.Num? && c.value.n > 0 && a == Increment(0) && s.None?)
  {
    if m.One? && Fits(m.action, c) {
      FittingStep(m.action, c, s, a);
    }
  }

  lemma FittingStep(p: Action, c: Cell, s: Cell, a: Action)
    requires Fits(p, c) && Execute(p, c) == Now(s) && Fits(a, s) && !Merge(p, a).Panic?
    ensures var m', s' := Merge(p, a), After(a, s);
      && (Right(m', c, s') || (Stays(m', c, s') && m'.Nothing? && s'.None?) || Missed(m', c, s'))
      && (Missed(m', c, s') <==> c.Some? && c.value.Num? && c.value.n > 0 && a == Increment(0) && s.None?)
  {
    MergeFits(p, a, c);
    MergeLaw(p, a, c);
    hide Differs;
    if LosesZero(p, a, c) {
      LostShape(p, a, c);
    } else {
      OneShape(Merge(p, a), c, After(a, s));
      FitsNotMissed(p, c, s, a);
    }
  }

  lemma LostShape(p: Action, a: Action, c: Cell)
    requires Fits(p, c) && Fits(a, After(p, c)) && !Merge(p, a).Panic? && LosesZero(p, a, c)
    ensures var m', s' := Merge(p, a), After(a, After(p, c));
      if a.Decrement? then Stays(m', c, s') && m'.Nothing? && s'.None? else Missed(m', c, s') && After(p, c).None?
  {
  }

  lemma FitsNotMissed(p: Action, c: Cell, s: Cell, a: Action)
    requires Fits(p, c) && Execute(p, c) == Now(s) && Fits(a, s) && !Merge(p, a).Panic? && !LosesZero(p, a, c)
    ensures !(c.Some? && c.value.Num? && c.value.n > 0 && a == Increment(0) && s.None?)
  {
  }

  lemma StaysStep(m: Merged, c: Cell, s: Cell, a: Action)
    requires Stays(m, c, s) && Fits(a, s) && !Push(m, a).Panic?
    ensures var m', s' := Push(m, a), After(a, s);
      Right(m', c, s') || (Stays(m', c, s') && Inserts(a) && (m.Nothing? ==> a.v != Num(0)))
    ensures Inserts(a) && (m.Nothing? ==> a.v != Num(0)) ==> Stays(Push(m, a), c, After(a, s))
  {
  }

  lemma MissedStep(m: Merged, c: Cell, s: Cell, a: Action)
    requires Missed(m, c, s) && Fits(a, s) && !Push(m, a).Panic?
    ensures var m', s' := Push(m, a), After(a, s);
      Right(m', c, s') || Missed(m', c, s')
    ensures Missed(Push(m, a), c, After(a, s)) <==> a == Increment(0)
  {
  }

  lemma OneShape(m: Merged, c: Cell, s: Cell)
    requires !m.Panic?
    ensures Stays(m, c, s) || Missed(m, c, s) ==> AfterMerged(m, c) != Now(s)
    ensures Right(m, c, s) ==> AfterMerged(m, c) == Now(s)
    ensures Stays(m, c, s) ==> !Missed(m, c, s)
  {
  }

  // What ZeroStays says, told by the merged action.
  ghost predicate Unnoticed(list: seq<Action>, c: Cell)
    requires AllRun(list, c)
  {
    && c == Some(Num(0))
    && ((MergeAll(list).Nothing? && AfterAll(list, c).None?)
        || (list != [] && Inserts(list[|list| - 1]) && Unnoticed(list[..|list| - 1], c)
            && (MergeAll(list[..|list| - 1]).Nothing? ==> list[|list| - 1].v != Num(0))))
  }

  lemma {:induction false} ZeroShapes(list: seq<Action>, c: Cell)
    requires AllFit(list, c) && !MergeAll(list).Panic?
    ensures var m, s := MergeAll(list), AfterAll(list, c);
      && (Right(m, c, s) || Stays(m, c, s) || Missed(m, c, s))
      && (Stays(m, c, s) <==> Unnoticed(list, c)) && (Missed(m, c, s) <==> ZeroMissed(list, c))
  {
    if list != [] {
      hide Merge, Fits, Execute, AfterMerged, Right;
      var front, a := list[..|list| - 1], list[|list| - 1];
      ZeroShapes(front, c);
      var m, s := MergeAll(front), AfterAll(front, c);
      OneShape(m, c, s);
      OneShape(MergeAll(list), c, AfterAll(list, c));
      if Right(m, c, s) {
        RightStep(m, c, s, a);
      } else if Stays(m, c, s) {
        StaysStep(m, c, s, a);
      } else {
        MissedStep(m, c, s, a);
      }
    }
  }

  // ----- told by the actions alone

  lemma {:induction false} OnceIsLast(list: seq<Action>)
    requires MergeAll(list).One? && MergeAll(list).action.SetOnce?
    ensures list != [] && list[|list| - 1].SetOnce?
  {
  }

  // Steps on a stored zero: how nothing comes to be pending ...
  lemma NothingPending(m: Merged, s: Cell, a: Action)
    requires Right(m, Some(Num(0)), s) || Stays(m, Some(Num(0)), s)
    requires Fits(a, s) && Push(m, a).Nothing?
    ensures var s' := After(a, s);
      || (m.One? && m.action.Increment? && s == Some(Num(m.action.d)) && a == Decrement(m.action.d) && s'.None?)
      || (m == One(Decrement(0)) && s.None? && a == Increment(0) && s' == Some(Num(0)))
      || (m.One? && m.action.SetOnce? && a.Delete? && s'.None?)
  {
  }

  // ... how a decrement by zero does ...
  lemma ZeroPending(m: Merged, s: Cell, a: Action)
    requires Right(m, Some(Num(0)), s) || Stays(m, Some(Num(0)), s)
    requires Fits(a, s) && Push(m, a) == One(Decrement(0))
    ensures m.Nothing? && s == Some(Num(0)) && a == Decrement(0)
  {
  }

  // ... and what a decrement to nothing and a deletion do.
  lemma LoweredPending(m: Merged, s: Cell, a: Action)
    requires Right(m, Some(Num(0)), s) || Stays(m, Some(Num(0)), s)
    requires Fits(a, s) && !Push(m, a).Panic? && a.Decrement? && s == Some(Num(a.d))
    ensures m == One(Increment(a.d)) || (m.Nothing? && a.d == 0)
  {
  }

  lemma {:induction false} IdlesIs(list: seq<Action>, c: Cell)
    requires AllFit(list, c) && !MergeAll(list).Panic? && c == Some(Num(0))
    ensures Idles(list) <==> MergeAll(list).Nothing? && AfterAll(list, c) == c
  {
    if list != [] {
      var front, a := list[..|list| - 1], list[|list| - 1];
      var m, s := MergeAll(front), AfterAll(front, c);
      ZeroShapes(front, c);
      if MergeAll(list).Nothing? && AfterAll(list, c) == c {
        NothingPending(m, s, a);
        IdlePair(list, c);
        IdlesIs(list[..|list| - 2], c);
      } else if Idles(list) {
        assert front[..|front| - 1] == list[..|list| - 2];
        IdlesIs(list[..|list| - 2], c);
      }
    }
  }

  lemma IdlePair(list: seq<Action>, c: Cell)
    requires list != [] && AllFit(list, c) && !MergeAll(list).Panic? && c == Some(Num(0))
    requires list[|list| - 1] == Increment(0) && MergeAll(list[..|list| - 1]) == One(Decrement(0))
    ensures |list| >= 2 && list[|list| - 2] == Decrement(0) && AllFit(list[..|list| - 2], c)
    ensures MergeAll(list[..|list| - 2]).Nothing? && AfterAll(list[..|list| - 2], c) == c
  {
    hide Merge, Execute, Fits, Right, Stays, Missed;
    var front := list[..|list| - 1];
    var first, b := front[..|front| - 1], front[|front| - 1];
    assert first == list[..|list| - 2];
    ZeroShapes(first, c);
    NotMissed(MergeAll(first), c, AfterAll(first, c));
    ZeroPending(MergeAll(first), AfterAll(first, c), b);
  }

  lemma NotMissed(m: Merged, c: Cell, s: Cell)
    requires c == Some(Num(0))
    ensures !Missed(m, c, s)
  {
  }

  lemma VanishesIs(list: seq<Action>, c: Cell)
    requires AllFit(list, c) && !MergeAll(list).Panic? && c == Some(Num(0))
    ensures Vanishes(list, c) <==> MergeAll(list).Nothing? && AfterAll(list, c).None?
  {
    if list != [] {
      var front, a := list[..|list| - 1], list[|list| - 1];
      var m, s := MergeAll(front), AfterAll(front, c);
      ZeroShapes(front, c);
      IdlesIs(front, c);
      if MergeAll(list).Nothing? && AfterAll(list, c).None? {
        NothingPending(m, s, a);
        if m.action.SetOnce? {
          OnceIsLast(front);
        }
      } else if a.Decrement? && s == Some(Num(a.d)) {
        LoweredPending(m, s, a);
      }
    }
  }

  lemma InsertPends(list: seq<Action>)
    ensures list != [] && Inserts(list[|list| - 1]) ==> !MergeAll(list).Nothing?
  {
  }

  lemma {:induction false} ZeroStaysIs(list: seq<Action>, c: Cell)
    requires AllFit(list, c) && !MergeAll(list).Panic?
    ensures ZeroStays(list, c) <==> Unnoticed(list, c)
  {
    hide Merge, Execute, Fits, Idles;
    if c == Some(Num(0)) && list != [] {
      var front := list[..|list| - 1];
      VanishesIs(list, c);
      VanishesIs(front, c);
      ZeroStaysIs(front, c);
      InsertPends(front);
      assert front != [] ==> front[|front| - 1] == list[|list| - 2];
    }
  }

  /** The merged action leaves what the actions leave one by one, if and only if
      neither has a stored zero been deleted unnoticed, with only inserts after
      it, nor a number been lowered to nothing and then only raised by zero. */
  lemma FinalLaw(list: seq<Action>, c: Cell)
    requires AllFit(list, c) && !MergeAll(list).Panic?
    ensures AfterMerged(MergeAll(list), c) == Now(AfterAll(list, c)) <==> !ZeroStays(list, c) && !ZeroMissed(list, c)
  {
    assert AllRun(list, c);
    hide MergeAll, AfterAll, AllFit, AllRun, ZeroStays, Unnoticed, ZeroMissed, Right, Stays, Missed, AfterMerged;
    ZeroShapes(list, c);
    ZeroStaysIs(list, c);
    OneShape(MergeAll(list), c, AfterAll(list, c));
  }

  predicate Positive(a: Action) {
    (a.Increment? || a.Decrement?) ==> a.d > 0
  }

  /** Increments and decrements by more than zero, of anything but a stored
      zero, lose no zero: merging them is exact. */
  lemma {:induction false} PositiveIsExact(list: seq<Action>, c: Cell)
    requires AllFit(list, c) && !MergeAll(list).Panic? && c != Some(Num(0)) && forall a :: a in list ==> Positive(a)
    ensures AfterMerged(MergeAll(list), c) == Now(AfterAll(list, c))
  {
    PositiveIsClean(list, c);
    FitsIsClean(list, c);
  }

  lemma {:induction false} PositiveIsClean(list: seq<Action>, c: Cell)
    requires c != Some(Num(0)) && forall a :: a in list ==> Positive(a)
    ensures NoZeroLost(list, c)
  {
    if list != [] {
      PositiveIsClean(list[..|list| - 1], c);
      assert Positive(list[|list| - 1]);
    }
  }

  lemma {:induction false} NeverDecrements(list: seq<Action>)
    requires forall a :: a in list ==> !a.Decrement?
    ensures MergeAll(list).One? ==> !MergeAll(list).action.Decrement?
  {
    if list != [] {
      NeverDecrements(list[..|list| - 1]);
    }
  }

  /** Without the deleting kind of decrement no zero is lost either: merging is
      exact, on the presence of the key too. */
  lemma NoDecrementIsExact(list: seq<Action>, c: Cell)
    requires AllFit(list, c) && !MergeAll(list).Panic? && forall a :: a in list ==> !a.Decrement?
    ensures AfterMerged(MergeAll(list), c) == Now(AfterAll(list, c))
  {
    NoDecrementIsClean(list, c);
    FitsIsClean(list, c);
  }

  lemma {:induction false} NoDecrementIsClean(list: seq<Action>, c: Cell)
    requires forall a :: a in list ==> !a.Decrement?
    ensures NoZeroLost(list, c)
  {
    if list != [] {
      NoDecrementIsClean(list[..|list| - 1], c);
      NeverDecrements(list[..|list| - 1]);
      assert !list[|list| - 1].Decrement?;
    }
  }

  /** Where a zero is lost, a later insert can come out differently. */
  lemma LostZeroMatters(v: Value)
    requires v != Num(0)
    ensures var list, c := [Increment(5), Decrement(5), Insert(v)], Some(Num(0));
      && AllFit(list, c) && !MergeAll(list).Panic?
      && AfterAll(list, c) == Some(v) && AfterMerged(MergeAll(list), c) == Now(c)
  {
    var one, two, list, c := [Increment(5)], [Increment(5), Decrement(5)], [Increment(5), Decrement(5), Insert(v)], Some(Num(0));
    assert one[..0] == [] && two[..1] == one && list[..2] == two;
    assert AllFit(one, c) && AfterAll(one, c) == Some(Num(5)) && MergeAll(one) == One(Increment(5));
    assert AllFit(two, c) && AfterAll(two, c) == None && MergeAll(two) == Nothing;
    assert AllFit(list, c);
  }

  // ----- counting a stored zero as none

  function Norm(c: Cell): Cell {
    if c == Some(Num(0)) then None else c
  }

  function Amount(c: Cell): U128 {
    if c.Some? && c.value.Num? then c.value.n else 0
  }

  // Not an insert, nor a permanent zero.
  predicate Plain(a: Action) {
    !a.Insert? && !a.InsertPermanent? && a != SetPermanent(Num(0))
  }

  predicate FitsNorm(a: Action, c: Cell) {
    match a
    case SetOnce(_) => Norm(c).None?
    case SetPermanent(v) => Norm(c).None? || c.value == v
    case Increment(d) => (c.Some? ==> c.value.Num?) && Amount(c) + d <= U128_MAX
    case Decrement(d) => (c.Some? ==> c.value.Num?) && d <= Amount(c)
    case DecrementNoDelete(d) => (c.Some? ==> c.value.Num?) && d <= Amount(c)
    case _ => true
  }

  // Effect up to stored zeros.
  function NormAfter(a: Action, c: Cell): Cell
    requires FitsNorm(a, c) && Plain(a)
  {
    match a
    case Set(v) => Norm(Some(v))
    case SetOnce(v) => Norm(Some(v))
    case SetPermanent(v) => Norm(Some(v))
    case Delete => None
    case Increment(d) => Norm(Some(Num(Amount(c) + d)))
    case Decrement(d) => Norm(Some(Num(Amount(c) - d)))
    case DecrementNoDelete(d) => Norm(Some(Num(Amount(c) - d)))
  }

  lemma NormExecutes(a: Action, c: Cell)
    requires FitsNorm(a, c) && Plain(a)
    ensures Execute(a, c).Now? && Norm(Execute(a, c).cell) == NormAfter(a, Norm(c))
  {
  }

  ghost predicate NormMerges(a: Action, b: Action, c: Cell)
    requires Plain(a) && Plain(b) && FitsNorm(a, c) && FitsNorm(b, NormAfter(a, c))
  {
    match Merge(a, b)
    case Panic => true
    case Nothing => c == NormAfter(b, NormAfter(a, c))
    case One(m) => FitsNorm(m, c) && Plain(m) && NormAfter(m, c) == NormAfter(b, NormAfter(a, c))
  }

  function Net(a: Action): int
    requires Numeric(a)
  {
    if a.Increment? then a.d else 0 - a.d
  }

  lemma NetFits(a: Action, c: Cell)
    requires Numeric(a)
    ensures FitsNorm(a, c) <==> (c.Some? ==> c.value.Num?) && 0 <= Amount(c) + Net(a) <= U128_MAX
    ensures FitsNorm(a, c) ==> NormAfter(a, c) == Norm(Some(Num(Amount(c) + Net(a))))
  {
  }

  lemma MergeNet(a: Action, b: Action)
    requires Numeric(a) && !Merge(a, b).Panic?
    ensures Numeric(b)
    ensures 0 - U128_MAX <= Net(a) + Net(b) <= U128_MAX ==>
      (Merge(a, b).Nothing? ==> Net(a) + Net(b) == 0) &&
      (Merge(a, b).One? ==> Numeric(Merge(a, b).action) && Net(Merge(a, b).action) == Net(a) + Net(b))
  {
  }

  lemma MergeNorm(a: Action, b: Action, c: Cell)
    requires Plain(a) && Plain(b) && c == Norm(c) && FitsNorm(a, c) && FitsNorm(b, NormAfter(a, c))
    ensures NormMerges(a, b, c)
  {
    if Numeric(a) && !Merge(a, b).Panic? {
      MergeNormNumbers(a, b, c);
    }
  }

  lemma MergeNormNumbers(a: Action, b: Action, c: Cell)
    requires Numeric(a) && !Merge(a, b).Panic? && Plain(b) && c == Norm(c) && FitsNorm(a, c) && FitsNorm(b, NormAfter(a, c))
    ensures NormMerges(a, b, c)
  {
    hide Merge, FitsNorm, NormAfter, Net;
    MergeNet(a, b);
    NetFits(a, c);
    NetFits(b, NormAfter(a, c));
    assert Amount(NormAfter(a, c)) == Amount(c) + Net(a);
    if Merge(a, b).One? {
      NetFits(Merge(a, b).action, c);
    }
  }

  ghost predicate NormExact(m: Merged, c: Cell, now: Cell) {
    match m
    case Panic => true
    case Nothing => Norm(c) == Norm(now)
    case One(a) => Plain(a) && FitsNorm(a, Norm(c)) && NormAfter(a, Norm(c)) == Norm(now)
  }

  lemma {:induction false} MergeAllNorm(list: seq<Action>, c: Cell)
    requires AllFit(list, c) && forall a :: a in list ==> Plain(a)
    ensures NormExact(MergeAll(list), c, AfterAll(list, c))
  {
    hide Merge;
    if list != [] {
      var front, last := list[..|list| - 1], list[|list| - 1];
      MergeAllNorm(front, c);
      var s := AfterAll(front, c);
      assert FitsNorm(last, s) && FitsNorm(last, Norm(s));
      NormExecutes(last, s);
      if MergeAll(front).One? && !MergeAll(list).Panic? {
        MergeNorm(MergeAll(front).action, last, Norm(c));
      }
    }
  }

  /** Without inserts and permanent zeros, merging any accepted list is right up to stored zeros. */
  lemma MergeAllUpToZero(list: seq<Action>, c: Cell)
    requires AllFit(list, c) && !MergeAll(list).Panic? && forall a :: a in list ==> Plain(a)
    ensures AfterMerged(MergeAll(list), c).Now?
    ensures Norm(AfterMerged(MergeAll(list), c).cell) == Norm(AfterAll(list, c))
  {
    MergeAllNorm(list, c);
    var m := MergeAll(list);
    if m.One? {
      NormExecutes(m.action, c);
    }
  }

  // ----- numbers that are cut off at zero

  function Nets(list: seq<Action>): (v: seq<int>)
    requires forall a :: a in list ==> Numeric(a)
    ensures |v| == |list|
  {
    seq(|list|, i requires 0 <= i < |list| => Net(list[i]))
  }

  // Neither the total nor what it is lowered by passes 128 bits.
  predicate Within128(list: seq<Action>, x: U128)
    requires forall a :: a in list ==> Numeric(a)
  {
    list != [] ==>
      && Within128(list[..|list| - 1], x)
      && 0 - U128_MAX <= S.Sum(Nets(list)) && S.Level(Nets(list), x) <= U128_MAX
  }

  lemma AmountStep(a: Action, c: Cell)
    requires Numeric(a) && (c.Some? ==> c.value.Num?) && Amount(c) + Net(a) <= U128_MAX
    ensures Execute(a, c).Now? && (Execute(a, c).cell.Some? ==> Execute(a, c).cell.value.Num?)
    ensures var next := Amount(c) + Net(a); Amount(Execute(a, c).cell) == if next < 0 then 0 else next
  {
  }

  // One by one: the total that stops at zero. Merged: the sum of all.
  lemma {:induction false} CountersRun(list: seq<Action>, c: Cell)
    requires (forall a :: a in list ==> Numeric(a)) && (c.Some? ==> c.value.Num?) && Within128(list, Amount(c))
    ensures AllRun(list, c) && Amount(AfterAll(list, c)) == S.Level(Nets(list), Amount(c))
    ensures AfterAll(list, c).Some? ==> AfterAll(list, c).value.Num?
    ensures match MergeAll(list)
      case Panic => true
      case Nothing => S.Sum(Nets(list)) == 0
      case One(m) => Numeric(m) && Net(m) == S.Sum(Nets(list))
  {
    if list != [] {
      hide Execute, Merge;
      var front, last := list[..|list| - 1], list[|list| - 1];
      CountersRun(front, c);
      assert Nets(list)[..|list| - 1] == Nets(front);
      S.LevelStep(Nets(list), Amount(c));
      AmountStep(last, AfterAll(front, c));
      if MergeAll(front).One? && !MergeAll(list).Panic? {
        MergeNet(MergeAll(front).action, last);
      }
    }
  }

  /** Counters merge to the right amount if and only if the total sinks nowhere
      further below zero than at the end. */
  lemma AmountLaw(list: seq<Action>, c: Cell)
    requires (forall a :: a in list ==> Numeric(a)) && (c.Some? ==> c.value.Num?) && Within128(list, Amount(c))
    requires !MergeAll(list).Panic?
    ensures AllRun(list, c) && AfterMerged(MergeAll(list), c).Now?
    ensures var end := Amount(c) + S.Sum(Nets(list));
      Amount(AfterMerged(MergeAll(list), c).cell) == Amount(AfterAll(list, c)) <==>
      S.Depth(Nets(list), Amount(c)) == if end < 0 then 0 - end else 0
  {
    hide Execute, MergeAll, Within128, AllRun, AfterAll;
    CountersRun(list, c);
    SumWithin(list, Amount(c));
    if MergeAll(list).One? {
      AmountStep(MergeAll(list).action, c);
    }
  }

  lemma SumWithin(list: seq<Action>, x: U128)
    requires (forall a :: a in list ==> Numeric(a)) && Within128(list, x)
    ensures x + S.Sum(Nets(list)) <= U128_MAX
  {
  }

  // ----- the difference between two actions

  datatype Difference = NoDifference | Panics | Then(action: Action)

  function Diff(a: Action, b: Action): Difference {
    match a
    case Increment(p) => (
      match b
      case Increment(n) => if n == p then NoDifference else if n > p then Then(Increment(n - p)) else Then(Decrement(p - n))
      case Decrement(n) => if p + n <= U128_MAX then Then(Decrement(p + n)) else Panics
      case DecrementNoDelete(n) => if p + n <= U128_MAX then Then(DecrementNoDelete(p + n)) else Panics
      case _ => Panics)
    case Decrement(p) => (
      match b
      case Decrement(n) => if n == p then NoDifference else if n > p then Then(Decrement(n - p)) else Then(Increment(p - n))
      case Increment(n) => if p + n <= U128_MAX then Then(Increment(p + n)) else Panics
      case _ => Panics)
    case DecrementNoDelete(p) => (
      match b
      case DecrementNoDelete(n) =>
        if n == p then NoDifference else if n > p then Then(DecrementNoDelete(n - p)) else Then(Increment(p - n))
      case Increment(n) => if p + n <= U128_MAX then Then(Increment(p + n)) else Panics
      case _ => Panics)
    case Set(v) => if b == a then NoDifference else if b.Set? || b.Delete? then Then(b) else Panics
    case SetOnce(v) =>
      if b == a then NoDifference else if b.SetOnce? then Then(Set(b.v)) else if b.Delete? then Then(b) else Panics
    case SetPermanent(v) => if b == a then NoDifference else Panics
    case Delete => if b.Delete? then NoDifference else if b.Set? || b.SetOnce? || b.Insert? then Then(b) else Panics
    case Insert(v) => if b == a then NoDifference else if b.Set? || b.Delete? || b.Insert? then Then(b) else Panics
    case InsertPermanent(v) => if b.InsertPermanent? then NoDifference else Panics
  }

  // The key has a value that an insert must keep, but the first action has
  // replaced or removed it; or the first insert took the place of the second.
  predicate InsertTooLate(a: Action, b: Action, c: Cell) {
    || (a.Delete? && b.Insert? && c.Some? && c.value != b.v)
    || (a.Insert? && b.Insert? && a != b && c.None?)
    || (a.InsertPermanent? && b.InsertPermanent? && a != b && c.None?)
  }

  // The second action would have stored a zero.
  predicate DropsZero(a: Action, b: Action, c: Cell) {
    a.Increment? && a.d > 0 && b == Increment(0) && c.GetOr(Num(0)) == Num(0)
  }

  function AfterDiff(d: Difference, c: Cell): Executed
    requires !d.Panics?
  {
    if d.NoDifference? then Now(c) else Execute(d.action, c)
  }

  // A number was cut off at zero by the first action, or there was none to
  // lower, and the difference makes up for what was not done.
  predicate DiffCutsOff(a: Action, b: Action, c: Cell) {
    match (a, b)
    case (Decrement(p), Decrement(n)) => n < p && (c.None? || (c.value.Num? && c.value.n < p))
    case (DecrementNoDelete(p), DecrementNoDelete(n)) => n < p && (c.None? || (c.value.Num? && c.value.n < p))
    case (Decrement(p), Increment(_)) => if c.None? then p > 0 else c.value.Num? && c.value.n < p
    case (DecrementNoDelete(p), Increment(_)) => if c.None? then p > 0 else c.value.Num? && c.value.n < p
    case (Increment(_), DecrementNoDelete(_)) => c.None?
    case _ => false
  }

  predicate DiffWraps(a: Action, b: Action, c: Cell) {
    a.Increment? && c.Some? && c.value.Num? && c.value.n + a.d > U128_MAX &&
      match b
      case Increment(n) => n < a.d && c.value.n + n <= U128_MAX + 1
      case Decrement(n) => c.value.n > n
      case DecrementNoDelete(n) => c.value.n > n
      case _ => false
  }

  predicate DiffFails(a: Action, b: Action, c: Cell) {
    InsertTooLate(a, b, c) || DropsZero(a, b, c) || DiffCutsOff(a, b, c) || DiffWraps(a, b, c)
  }

  /** Executing the first action and then the difference gives what the second
      alone gives, for every stored value, exactly when no insert comes too late,
      no zero is dropped, and no number is cut off at zero or passes 128 bits. */
  lemma DiffLaw(a: Action, b: Action, c: Cell)
    requires Execute(a, c).Now? && Execute(b, c).Now? && !Diff(a, b).Panics?
    ensures AfterDiff(Diff(a, b), Execute(a, c).cell) == Execute(b, c) <==> !DiffFails(a, b, c)
  {
    if a.Increment? {
      DiffIncrement(a, b, c);
    } else if a.Decrement? {
      DiffDecrement(a, b, c);
    } else if a.DecrementNoDelete? {
      DiffNoDelete(a, b, c);
    }
  }

  lemma DiffIncrement(a: Action, b: Action, c: Cell)
    requires a.Increment? && Execute(a, c).Now? && Execute(b, c).Now? && !Diff(a, b).Panics?
    ensures AfterDiff(Diff(a, b), Execute(a, c).cell) == Execute(b, c) <==> !DiffFails(a, b, c)
  {
  }

  lemma DiffDecrement(a: Action, b: Action, c: Cell)
    requires a.Decrement? && Execute(a, c).Now? && Execute(b, c).Now? && !Diff(a, b).Panics?
    ensures AfterDiff(Diff(a, b), Execute(a, c).cell) == Execute(b, c) <==> !DiffFails(a, b, c)
  {
  }

  lemma DiffNoDelete(a: Action, b: Action, c: Cell)
    requires a.DecrementNoDelete? && Execute(a, c).Now? && Execute(b, c).Now? && !Diff(a, b).Panics?
    ensures AfterDiff(Diff(a, b), Execute(a, c).cell) == Execute(b, c) <==> !DiffFails(a, b, c)
  {
  }

  /** The difference of two counters that meet their terms never overflows, and
      there is one exactly when they can be merged; only an insert or a zero can
      make it fail. */
  lemma DiffFits(a: Action, b: Action, c: Cell)
    requires Fits(a, c) && Fits(b, c)
    ensures Numeric(a) ==> (Diff(a, b).Panics? <==> Merge(a, b).Panic?)
    ensures !Diff(a, b).Panics? ==> (DiffFails(a, b, c) <==> InsertTooLate(a, b, c) || DropsZero(a, b, c))
  {
  }

  // ----- the inverse of an executed action

  // What is kept for rolling the action back, given the value it found.
  function Inverse(a: Action, c: Cell): Option<Action> {
    match a
    case Set(v) => if c == Some(v) then None else if c.Some? then Some(Set(c.value)) else Some(Delete)
    case SetOnce(_) => Some(Delete)
    case SetPermanent(_) => None
    case Delete => if c.Some? then Some(Set(c.value)) else None
    case Insert(_) => if c.Some? then None else Some(Delete)
    case InsertPermanent(_) => None
    case Increment(_) => if c.Some? then Some(Set(c.value)) else Some(Delete)
    case Decrement(_) => if c.Some? then Some(Set(c.value)) else None
    case DecrementNoDelete(_) => if c.Some? then Some(Set(c.value)) else None
  }

  // A permanent action that changes the key, or a key set twice.
  predicate Irreversible(a: Action, c: Cell) {
    match a
    case SetOnce(_) => c.Some?
    case SetPermanent(v) => c != Some(v)
    case InsertPermanent(_) => c.None?
    case _ => false
  }

  function Reverted(inverse: Option<Action>, c: Cell): Executed {
    if inverse.None? then Now(c) else Execute(inverse.value, c)
  }

  /** The inverse restores the value that the action found, saturated
      decrements and wrapped increments included, unless the action is
      permanent or set a key twice. */
  lemma InverseLaw(a: Action, c: Cell)
    requires Execute(a, c).Now?
    ensures Reverted(Inverse(a, c), Execute(a, c).cell) == Now(c) <==> !Irreversible(a, c)
  {
  }
}
