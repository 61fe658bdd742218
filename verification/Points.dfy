/** Point aggregates: running totals kept at points of a chain. Merging and
    differencing lists of deltas, and what executing them leaves. */
module Points {
  import opened Chain
  import opened Actions
  import opened Sorting
  import opened Saturation

  datatype Delta = Up(n: U128) | Down(n: U128) {
    function Value(): int {
      if Up? then n else 0 - n
    }
  }

  type Deltas = seq<(nat, Delta)>

  // ----- adding and subtracting deltas; None is an overflow

  function Plus(a: Delta, b: Delta): (r: Option<Delta>)
    ensures r.Some? ==> r.value.Value() == a.Value() + b.Value()
    ensures r.None? <==> !(0 - U128_MAX <= a.Value() + b.Value() <= U128_MAX)
  {
    match (a, b)
    case (Up(x), Up(y)) => if x + y <= U128_MAX then Some(Up(x + y)) else None
    case (Down(x), Down(y)) => if x + y <= U128_MAX then Some(Down(x + y)) else None
    case (Up(x), Down(y)) => Some(if x >= y then Up(x - y) else Down(y - x))
    case (Down(y), Up(x)) => Some(if x >= y then Up(x - y) else Down(y - x))
  }

  function Negate(a: Delta): (r: Delta)
    ensures r.Value() == -a.Value()
  {
    if a.Up? then Down(a.n) else Up(a.n)
  }

  function Minus(a: Delta, b: Delta): (r: Option<Delta>)
    ensures r.Some? ==> r.value.Value() == a.Value() - b.Value()
    ensures r.None? <==> !(0 - U128_MAX <= a.Value() - b.Value() <= U128_MAX)
  {
    match (a, b)
    case (Up(x), Up(y)) => Some(if x >= y then Up(x - y) else Down(y - x))
    case (Down(x), Down(y)) => Some(if x >= y then Down(x - y) else Up(y - x))
    case (Up(x), Down(y)) => if x + y <= U128_MAX then Some(Up(x + y)) else None
    case (Down(x), Up(y)) => if x + y <= U128_MAX then Some(Down(x + y)) else None
  }

  // ----- lists of deltas

  // As a hash map: of equal points the last one counts.
  function Collect(s: Deltas): map<nat, Delta> {
    if s == [] then map[] else Collect(s[..|s| - 1])[s[|s| - 1].0 := s[|s| - 1].1]
  }

  function ValueAt(m: map<nat, Delta>, p: nat): int {
    if p in m then m[p].Value() else 0
  }

  predicate Ascending(s: Deltas) {
    forall i, j :: 0 <= i < j < |s| ==> s[i].0 < s[j].0
  }

  // `s` holds exactly the entries of `m`.
  ghost predicate Holds(s: Deltas, m: map<nat, Delta>) {
    && (forall i :: 0 <= i < |s| ==> s[i].0 in m && m[s[i].0] == s[i].1)
    && (forall p :: p in m ==> exists i :: 0 <= i < |s| && s[i].0 == p)
  }

  /** An ascending list is determined by its entries, whatever order they were
      found in. */
  lemma {:induction false} AscendingUnique(a: Deltas, b: Deltas, m: map<nat, Delta>)
    requires Ascending(a) && Ascending(b) && Holds(a, m) && Holds(b, m)
    ensures a == b
    decreases |a|
  {
    hide Holds;
    HoldsNone(a, m);
    HoldsNone(b, m);
    if a != [] {
      var last := a[|a| - 1];
      SameLast(a, b, m);
      HoldsFront(a, m);
      HoldsFront(b, m);
      AscendingUnique(a[..|a| - 1], b[..|b| - 1], m - {last.0});
      assert a == a[..|a| - 1] + [last] && b == b[..|b| - 1] + [last];
    }
  }

  lemma SameLast(a: Deltas, b: Deltas, m: map<nat, Delta>)
    requires a != [] && b != [] && Ascending(a) && Ascending(b) && Holds(a, m) && Holds(b, m)
    ensures a[|a| - 1] == b[|b| - 1]
  {
    LastIsHighest(a, m, b[|b| - 1].0);
    LastIsHighest(b, m, a[|a| - 1].0);
  }

  lemma HoldsNone(s: Deltas, m: map<nat, Delta>)
    requires Holds(s, m)
    ensures s == [] <==> m == map[]
  {
    if s != [] {
      assert s[0].0 in m;
    }
  }

  lemma LastIsHighest(s: Deltas, m: map<nat, Delta>, p: nat)
    requires s != [] && Ascending(s) && Holds(s, m) && p in m
    ensures p <= s[|s| - 1].0
  {
    var i :| 0 <= i < |s| && s[i].0 == p;
  }

  lemma HoldsFront(s: Deltas, m: map<nat, Delta>)
    requires s != [] && Ascending(s) && Holds(s, m)
    ensures Holds(s[..|s| - 1], m - {s[|s| - 1].0})
  {
    var front, last := s[..|s| - 1], s[|s| - 1];
    forall p | p in m - {last.0} ensures exists i :: 0 <= i < |front| && front[i].0 == p {
      var i :| 0 <= i < |s| && s[i].0 == p;
      assert front[i].0 == p;
    }
  }

  // ----- merging and differencing

  datatype Operation = Merging | Differencing

  // The delta at a point of either list; None is an overflow.
  function At(op: Operation, prev: map<nat, Delta>, next: map<nat, Delta>, p: nat): Option<Delta>
    requires p in prev || p in next
  {
    if p !in prev then Some(next[p])
    else if op.Merging? then (if p in next then Plus(prev[p], next[p]) else Some(prev[p]))
    else (if p in next then Minus(next[p], prev[p]) else Some(Negate(prev[p])))
  }

  ghost predicate Overflows(op: Operation, prev: map<nat, Delta>, next: map<nat, Delta>) {
    exists p :: p in prev && p in next && At(op, prev, next, p).None?
  }

  // An overflow, where the source panics, counts as no change here.
  ghost function Combined(op: Operation, prev: map<nat, Delta>, next: map<nat, Delta>): (m: map<nat, Delta>)
    ensures m.Keys == prev.Keys + next.Keys
  {
    map p | p in prev.Keys + next.Keys :: At(op, prev, next, p).GetOr(Up(0))
  }

  /** Merging adds the deltas of every point, differencing subtracts them. */
  lemma CombinedValue(op: Operation, prev: map<nat, Delta>, next: map<nat, Delta>, p: nat)
    requires !Overflows(op, prev, next)
    ensures ValueAt(Combined(op, prev, next), p)
      == if op.Merging? then ValueAt(prev, p) + ValueAt(next, p) else ValueAt(next, p) - ValueAt(prev, p)
  {
  }

  /** Merging a list with its difference to another one has the delta of the
      other one at every point, and overflows only if the difference does. */
  lemma DifferenceLaw(prev: map<nat, Delta>, next: map<nat, Delta>, p: nat)
    requires !Overflows(Differencing, prev, next)
    ensures var diff := Combined(Differencing, prev, next);
      && !Overflows(Merging, prev, diff)
      && ValueAt(Combined(Merging, prev, diff), p) == ValueAt(next, p)
  {
    hide Combined;
    var diff := Combined(Differencing, prev, next);
    forall q | q in prev && q in diff ensures At(Merging, prev, diff, q).Some? {
      CombinedValue(Differencing, prev, next, q);
    }
    CombinedValue(Differencing, prev, next, p);
    CombinedValue(Merging, prev, diff, p);
  }

  method CollectAll(s: Deltas) returns (m: map<nat, Delta>)
    ensures m == Collect(s)
  {
    m := map[];
    for i := 0 to |s|
      invariant m == Collect(s[..i])
    {
      m := m[s[i].0 := s[i].1];
      assert s[..i + 1][..i] == s[..i];
    }
    assert s[..|s|] == s;
  }

  // A list being filled, in any order, with entries that become those of `m`.
  ghost predicate Filling(out: Deltas, m: map<nat, Delta>, todo: set<nat>) {
    && (forall i :: 0 <= i < |out| ==> out[i].0 in m && out[i].0 !in todo && out[i].1 == m[out[i].0])
    && (forall i, j :: 0 <= i < j < |out| ==> out[i].0 != out[j].0)
    && (forall p :: p in m ==> p in todo || exists i :: 0 <= i < |out| && out[i].0 == p)
  }

  lemma FillOne(out: Deltas, m: map<nat, Delta>, todo: set<nat>, p: nat)
    requires Filling(out, m, todo) && p in todo && p in m
    ensures Filling(out + [(p, m[p])], m, todo - {p})
  {
    var longer := out + [(p, m[p])];
    forall q | q in m && q !in todo - {p} ensures exists i :: 0 <= i < |longer| && longer[i].0 == q {
      if q == p {
        assert longer[|out|].0 == q;
      } else {
        var i :| 0 <= i < |out| && out[i].0 == q;
        assert longer[i].0 == q;
      }
    }
  }

  // The first list walked through, in no particular order; what is left of
  // the second one is returned with the points found.
  method WalkPrev(op: Operation, prev: map<nat, Delta>, next: map<nat, Delta>) returns (points: Option<Deltas>, rest: map<nat, Delta>)
    ensures points.None? <==> Overflows(op, prev, next)
    ensures points.Some? ==> Remaining(prev, next, {}, rest)
    ensures points.Some? ==> Filling(points.value, Combined(op, prev, next), Open(prev, next, {}))
  {
    hide Filling, Plus, Minus, At, Combined, Overflows, Remaining, Open;
    var todo, out: Deltas := prev.Keys, [];
    rest := next;
    ghost var m := Combined(op, prev, next);
    WalkBegins(prev, next, m);
    while todo != {}
      invariant todo <= prev.Keys && Remaining(prev, next, todo, rest)
      invariant forall p :: p in prev && p !in todo ==> At(op, prev, next, p).Some?
      invariant Filling(out, m, Open(prev, next, todo))
      decreases |todo|
    {
      var p :| p in todo;
      var delta := At(op, prev, next, p);
      if delta.None? {
        NoneOverflows(op, prev, next, p);
        return None, rest;
      }
      CombinedAt(op, prev, next, p);
      WalkNext(prev, next, m, todo, rest, out, p);
      out, rest, todo := out + [(p, delta.value)], rest - {p}, todo - {p};
    }
    NoOverflow(op, prev, next);
    points := Some(out);
  }

  // Points still to be listed while those of `todo` are to be walked.
  ghost function Open(prev: map<nat, Delta>, next: map<nat, Delta>, todo: set<nat>): set<nat> {
    todo + (next.Keys - prev.Keys)
  }

  lemma WalkBegins(prev: map<nat, Delta>, next: map<nat, Delta>, m: map<nat, Delta>)
    requires m.Keys == prev.Keys + next.Keys
    ensures Remaining(prev, next, prev.Keys, next) && Filling([], m, Open(prev, next, prev.Keys))
  {
  }

  lemma WalkNext(prev: map<nat, Delta>, next: map<nat, Delta>, m: map<nat, Delta>, todo: set<nat>, rest: map<nat, Delta>, out: Deltas, p: nat)
    requires m.Keys == prev.Keys + next.Keys && p in todo && p in prev
    requires Remaining(prev, next, todo, rest) && Filling(out, m, Open(prev, next, todo))
    ensures Remaining(prev, next, todo - {p}, rest - {p})
    ensures Filling(out + [(p, m[p])], m, Open(prev, next, todo - {p}))
  {
    hide Filling;
    FillOne(out, m, Open(prev, next, todo), p);
    assert Open(prev, next, todo) - {p} == Open(prev, next, todo - {p});
  }

  // What the walk has left of the second list.
  ghost predicate Remaining(prev: map<nat, Delta>, next: map<nat, Delta>, todo: set<nat>, rest: map<nat, Delta>) {
    rest == map p | p in next && (p !in prev || p in todo) :: next[p]
  }

  lemma NoOverflow(op: Operation, prev: map<nat, Delta>, next: map<nat, Delta>)
    requires forall p :: p in prev ==> At(op, prev, next, p).Some?
    ensures !Overflows(op, prev, next)
  {
  }

  lemma NoneOverflows(op: Operation, prev: map<nat, Delta>, next: map<nat, Delta>, p: nat)
    requires p in prev && At(op, prev, next, p).None?
    ensures Overflows(op, prev, next)
  {
  }

  lemma CombinedAt(op: Operation, prev: map<nat, Delta>, next: map<nat, Delta>, p: nat)
    requires p in prev.Keys + next.Keys && At(op, prev, next, p).Some?
    ensures At(op, prev, next, p) == Some(Combined(op, prev, next)[p])
  {
  }

  method AppendRest(points: Deltas, rest: map<nat, Delta>, ghost m: map<nat, Delta>) returns (out: Deltas)
    requires Filling(points, m, rest.Keys) && forall p :: p in rest ==> p in m && m[p] == rest[p]
    ensures Filling(out, m, {})
  {
    hide Filling;
    var left := rest.Keys;
    out := points;
    while left != {}
      invariant left <= rest.Keys && Filling(out, m, left)
      decreases |left|
    {
      var p :| p in left;
      FillOne(out, m, left, p);
      out, left := out + [(p, rest[p])], left - {p};
    }
  }

  /** The source's loops: both lists as hash maps, the first walked through in
      no particular order, what is left of the second appended, and all of it
      sorted. The outcome is the ascending list of the combined deltas. */
  method Combine(op: Operation, prevPoints: Deltas, newPoints: Deltas) returns (out: Option<Deltas>)
    ensures out.None? <==> Overflows(op, Collect(prevPoints), Collect(newPoints))
    ensures out.Some? ==> Ascending(out.value) && Holds(out.value, Combined(op, Collect(prevPoints), Collect(newPoints)))
  {
    hide Holds, Filling, Collect, Plus, Minus, Overflows;
    var prev := CollectAll(prevPoints);
    var next := CollectAll(newPoints);
    var points, rest := WalkPrev(op, prev, next);
    if points.None? {
      return None;
    }
    ghost var m := Combined(op, prev, next);
    assert rest.Keys == Open(prev, next, {});
    forall p | p in rest ensures p in m && m[p] == rest[p] {
      CombinedAt(op, prev, next, p);
    }
    var all := AppendRest(points.value, rest, m);
    var sorted := Sort(ByPoint, all);
    SortSorts(ByPoint, all);
    FilledHolds(all, sorted, m);
    out := Some(sorted);
  }

  // ----- sorting by point

  predicate ByPoint(a: (nat, Delta), b: (nat, Delta)) {
    a.0 <= b.0
  }

  // Sorting a list without repeated points makes it ascending.
  lemma FilledHolds(points: Deltas, sorted: Deltas, m: map<nat, Delta>)
    requires Filling(points, m, {}) && Sorted(ByPoint, sorted) && multiset(sorted) == multiset(points)
    ensures Ascending(sorted) && Holds(sorted, m)
  {
    forall i | 0 <= i < |sorted| ensures sorted[i].0 in m && m[sorted[i].0] == sorted[i].1 {
      assert sorted[i] in multiset(sorted);
      assert sorted[i] in points;
    }
    forall p | p in m ensures exists i :: 0 <= i < |sorted| && sorted[i].0 == p {
      var i :| 0 <= i < |points| && points[i].0 == p;
      assert points[i] in multiset(points);
      assert points[i] in sorted;
    }
    forall i, j | 0 <= i < j < |sorted| ensures sorted[i].0 < sorted[j].0 {
      if sorted[i].0 == sorted[j].0 {
        assert sorted[i] == sorted[j];
        CountTwice(sorted, i, j);
        CountOnce(points, sorted[i]);
      }
    }
  }

  lemma CountTwice(s: Deltas, i: nat, j: nat)
    requires i < j < |s| && s[i] == s[j]
    ensures multiset(s)[s[i]] >= 2
  {
    assert s == s[..i + 1] + s[i + 1..];
    assert s[i] in s[..i + 1] && s[i + 1..][j - i - 1] == s[i];
  }

  lemma {:induction false} CountOnce(s: Deltas, x: (nat, Delta))
    requires forall i, j :: 0 <= i < j < |s| ==> s[i].0 != s[j].0
    ensures multiset(s)[x] <= 1
  {
    if s != [] {
      var front, last := s[..|s| - 1], s[|s| - 1];
      CountOnce(front, x);
      assert s == front + [last];
      if last == x {
        assert x !in front;
      }
    }
  }

  // ----- executing

  // A decrement below zero stops at zero; None is an overflow.
  function Step(total: nat, d: Delta): Option<nat> {
    match d
    case Up(n) => if total + n <= U128_MAX then Some(total + n) else None
    case Down(n) => Some(if n <= total then total - n else 0)
  }

  datatype Written = Overflow | Written(total: nat, points: map<nat, nat>)

  // Every point gets the running total, and the total is kept.
  function Write(s: Deltas, total: nat, points: map<nat, nat>): Written {
    if s == [] then Written(total, points) else
      var w, last := Write(s[..|s| - 1], total, points), s[|s| - 1];
      if w.Overflow? then w else
        match Step(w.total, last.1)
        case None => Overflow
        case Some(t) => Written(t, w.points[last.0 := t])
  }

  method WriteAll(s: Deltas, total: nat, points: map<nat, nat>) returns (w: Written)
    ensures w == Write(s, total, points)
  {
    hide Step;
    var value: nat, written: map<nat, nat> := total, points;
    for i := 0 to |s|
      invariant Write(s[..i], total, points) == Written(value, written)
    {
      assert s[..i + 1][..i] == s[..i];
      var step := Step(value, s[i].1);
      if step.None? {
        StaysOverflown(s, total, points, i + 1);
        return Overflow;
      }
      value := step.value;
      written := written[s[i].0 := value];
    }
    assert s[..|s|] == s;
    w := Written(value, written);
  }

  lemma {:induction false} StaysOverflown(s: Deltas, total: nat, points: map<nat, nat>, i: nat)
    requires i <= |s| && Write(s[..i], total, points).Overflow?
    ensures Write(s, total, points).Overflow?
    decreases |s|
  {
    if i == |s| {
      assert s[..i] == s;
    } else {
      assert s[..|s| - 1][..i] == s[..i];
      StaysOverflown(s[..|s| - 1], total, points, i);
    }
  }

  function Values(s: Deltas): (v: seq<int>)
    ensures |v| == |s|
  {
    seq(|s|, i requires 0 <= i < |s| => s[i].1.Value())
  }

  lemma ValuesFront(s: Deltas)
    requires s != []
    ensures Values(s)[..|s| - 1] == Values(s[..|s| - 1]) && Values(s)[|s| - 1] == s[|s| - 1].1.Value()
    ensures Sum(Values(s)) == Sum(Values(s[..|s| - 1])) + s[|s| - 1].1.Value()
  {
  }

  // The entries at points up to `p`.
  function Upto(s: Deltas, p: nat): (front: Deltas)
    ensures front <= s
  {
    if s == [] || s[|s| - 1].0 <= p then s else Upto(s[..|s| - 1], p)
  }

  // The deltas of all points up to `p`.
  function Cumulative(m: map<nat, Delta>, p: nat): int {
    ValueAt(m, p) + if p == 0 then 0 else Cumulative(m, p - 1)
  }

  lemma {:induction false} CumulativeUpdate(m: map<nat, Delta>, q: nat, d: Delta, p: nat)
    requires q !in m
    ensures Cumulative(m[q := d], p) == Cumulative(m, p) + if q <= p then d.Value() else 0
  {
    if p > 0 {
      CumulativeUpdate(m, q, d, p - 1);
    }
  }

  lemma {:induction false} CollectKeys(s: Deltas)
    ensures forall p :: p in Collect(s) <==> exists i :: 0 <= i < |s| && s[i].0 == p
  {
    if s != [] {
      var front := s[..|s| - 1];
      CollectKeys(front);
      forall p ensures p in Collect(s) <==> exists i :: 0 <= i < |s| && s[i].0 == p {
        if p == s[|s| - 1].0 {
        } else if p in Collect(front) {
          var i :| 0 <= i < |front| && front[i].0 == p;
          assert s[i].0 == p;
        } else {
          assert forall i :: 0 <= i < |front| ==> front[i].0 != p && s[i] == front[i];
        }
      }
    }
  }

  lemma CollectLast(s: Deltas, p: nat)
    requires s != [] && Ascending(s)
    ensures var front, last := s[..|s| - 1], s[|s| - 1];
      && last.0 !in Collect(front)
      && Cumulative(Collect(s), p) == Cumulative(Collect(front), p) + if last.0 <= p then last.1.Value() else 0
  {
    var front, last := s[..|s| - 1], s[|s| - 1];
    CollectKeys(front);
    CumulativeUpdate(Collect(front), last.0, last.1, p);
  }

  lemma {:induction false} SumIsCumulative(s: Deltas, p: nat)
    requires Ascending(s)
    ensures Cumulative(Collect(s), p) == Sum(Values(Upto(s, p)))
  {
    if s == [] {
      NothingCumulates(p);
    } else {
      SumIsCumulative(s[..|s| - 1], p);
      CollectLast(s, p);
      ValuesFront(s);
      if s[|s| - 1].0 <= p {
        UptoAll(s[..|s| - 1], p);
      }
    }
  }

  lemma UptoAll(s: Deltas, p: nat)
    requires forall i :: 0 <= i < |s| ==> s[i].0 <= p
    ensures Upto(s, p) == s
  {
  }

  lemma {:induction false} NothingCumulates(p: nat)
    ensures Cumulative(map[], p) == 0
  {
    if p > 0 {
      NothingCumulates(p - 1);
    }
  }

  /** Executing a list overflows exactly when the total that stops at zero
      exceeds 128 bits. Otherwise it leaves that total, and at each of its points
      the total up to that point. */
  lemma {:induction false} WriteLaw(s: Deltas, total: U128, points: map<nat, nat>)
    requires Ascending(s)
    ensures var w := Write(s, total, points);
      && (w.Overflow? <==> Exceeds(Values(s), total))
      && (w.Written? ==>
            && w.total == Level(Values(s), total) <= U128_MAX && w.points.Keys == points.Keys + Collect(s).Keys
            && forall p :: p in w.points ==>
                 w.points[p] == if p in Collect(s) then Level(Values(Upto(s, p)), total) else points[p])
  {
    if s != [] {
      var front, last, w := s[..|s| - 1], s[|s| - 1], Write(s, total, points);
      WriteLaw(front, total, points);
      ValuesFront(s);
      LevelStep(Values(s), total);
      LevelPositive(Values(front), total);
      if Write(front, total, points).Written? {
        StepIsLevel(Values(s), total, last.1);
      }
      if w.Written? {
        PointsLast(s, total, points, Write(front, total, points), w);
      }
    }
  }

  lemma StepIsLevel(v: seq<int>, total: U128, d: Delta)
    requires v != [] && v[|v| - 1] == d.Value() && 0 <= Level(v[..|v| - 1], total) <= U128_MAX
    ensures var t := Step(Level(v[..|v| - 1], total), d);
      (t.None? <==> Level(v, total) > U128_MAX) && (t.Some? ==> t.value == Level(v, total))
  {
    LevelStep(v, total);
  }

  lemma PointsLast(s: Deltas, total: nat, points: map<nat, nat>, before: Written, w: Written)
    requires s != [] && Ascending(s) && before.Written? && w.Written?
    requires w.points == before.points[s[|s| - 1].0 := w.total] && w.total == Level(Values(s), total)
    requires before.points.Keys == points.Keys + Collect(s[..|s| - 1]).Keys
    requires forall p :: p in before.points ==>
      before.points[p] == if p in Collect(s[..|s| - 1]) then Level(Values(Upto(s[..|s| - 1], p)), total) else points[p]
    ensures w.points.Keys == points.Keys + Collect(s).Keys
    ensures forall p :: p in w.points ==>
      w.points[p] == if p in Collect(s) then Level(Values(Upto(s, p)), total) else points[p]
  {
    hide Level, Values;
    var front, last := s[..|s| - 1], s[|s| - 1];
    forall p | p in w.points
      ensures w.points[p] == if p in Collect(s) then Level(Values(Upto(s, p)), total) else points[p]
    {
      CollectKeys(front);
      if p != last.0 && p in Collect(front) {
        var i :| 0 <= i < |front| && front[i].0 == p;
        assert s[i].0 < s[|s| - 1].0;
      }
    }
  }

  // ----- merging before executing

  lemma {:induction false} CumulativeAdds(a: map<nat, Delta>, b: map<nat, Delta>, p: nat)
    requires !Overflows(Merging, a, b)
    ensures Cumulative(Combined(Merging, a, b), p) == Cumulative(a, p) + Cumulative(b, p)
  {
    CombinedValue(Merging, a, b, p);
    if p > 0 {
      CumulativeAdds(a, b, p - 1);
    }
  }

  lemma CollectHolds(s: Deltas, m: map<nat, Delta>)
    requires Ascending(s) && Holds(s, m)
    ensures Collect(s) == m
    decreases |s|
  {
    if s == [] {
      HoldsNone(s, m);
    } else {
      HoldsFront(s, m);
      CollectHolds(s[..|s| - 1], m - {s[|s| - 1].0});
    }
  }

  function Highest(s: Deltas): (p: nat)
    requires Ascending(s)
    ensures forall i :: 0 <= i < |s| ==> s[i].0 <= p
  {
    if s == [] then 0 else s[|s| - 1].0
  }

  lemma SumAll(s: Deltas, p: nat)
    requires Ascending(s) && forall i :: 0 <= i < |s| ==> s[i].0 <= p
    ensures Cumulative(Collect(s), p) == Sum(Values(s))
  {
    SumIsCumulative(s, p);
    UptoAll(s, p);
  }

  lemma SumAdds(a: Deltas, b: Deltas, m: Deltas, p: nat)
    requires Ascending(a) && Ascending(b) && Ascending(m) && !Overflows(Merging, Collect(a), Collect(b))
    requires Collect(m) == Combined(Merging, Collect(a), Collect(b))
    requires (forall i :: 0 <= i < |a| ==> a[i].0 <= p) && (forall i :: 0 <= i < |b| ==> b[i].0 <= p)
    ensures Sum(Values(m)) == Sum(Values(a)) + Sum(Values(b))
  {
    CollectKeys(a);
    CollectKeys(b);
    CollectKeys(m);
    forall i | 0 <= i < |m| ensures m[i].0 <= p {
      assert m[i].0 in Collect(m);
    }
    SumAll(a, p);
    SumAll(b, p);
    SumAll(m, p);
    CumulativeAdds(Collect(a), Collect(b), p);
  }

  // What sinking leaves over in the total after the points up to `p`.
  function DepthAt(s: Deltas, total: int, p: nat): nat {
    Depth(Values(Upto(s, p)), total)
  }

  lemma LevelAt(s: Deltas, total: int, p: nat)
    requires Ascending(s)
    ensures Level(Values(Upto(s, p)), total) == total + Cumulative(Collect(s), p) + DepthAt(s, total, p)
  {
    SumIsCumulative(s, p);
  }

  // The lists write the same points merged or not: at the points of the second
  // list everything the first one counts, and at the other points of the first
  // list nothing the second one counts, up to what sinking leaves over.
  ghost predicate InOrder(a: Deltas, b: Deltas, m: Deltas, total: int) {
    var after := Level(Values(a), total);
    && (forall p :: p in Collect(b) ==>
          Cumulative(Collect(a), p) + DepthAt(m, total, p) == after - total + DepthAt(b, after, p))
    && (forall p :: p in Collect(a) && p !in Collect(b) ==>
          Cumulative(Collect(b), p) + DepthAt(m, total, p) == DepthAt(a, total, p))
  }

  /** Executing two lists one after the other, or their merge at once. Each
      overflows exactly when its total exceeds 128 bits. If neither does, the
      totals are the same if and only if both ways sinking leaves the same over,
      and the points are the same if and only if the lists are in order. */
  lemma MergedWriteLaw(a: Deltas, b: Deltas, m: Deltas, total: U128, points: map<nat, nat>)
    requires Ascending(a) && Ascending(b) && Ascending(m) && !Overflows(Merging, Collect(a), Collect(b))
    requires Holds(m, Combined(Merging, Collect(a), Collect(b)))
    ensures var first, once := Write(a, total, points), Write(m, total, points);
      var after := Level(Values(a), total);
      && (first.Overflow? <==> Exceeds(Values(a), total)) && (once.Overflow? <==> Exceeds(Values(m), total))
      && (first.Written? ==>
            && first.total == after
            && var both := Write(b, first.total, first.points);
               && (both.Overflow? <==> Exceeds(Values(b), after))
               && (both.Written? && once.Written? ==>
                     && (both.total == once.total <==>
                           Depth(Values(a), total) + Depth(Values(b), after) == Depth(Values(m), total))
                     && (both.points == once.points <==> InOrder(a, b, m, total))))
  {
    hide Ascending, Holds, Overflows, Collect, Cumulative, Combined, Write, Values, Upto, Sum, Depth, Exceeds;
    WriteLaw(a, total, points);
    WriteLaw(m, total, points);
    CollectHolds(m, Combined(Merging, Collect(a), Collect(b)));
    SumAdds(a, b, m, if Highest(a) <= Highest(b) then Highest(b) else Highest(a));
    var first, once := Write(a, total, points), Write(m, total, points);
    if first.Written? {
      WriteLaw(b, first.total, first.points);
      var both := Write(b, first.total, first.points);
      if both.Written? && once.Written? {
        forall p ensures Cumulative(Collect(m), p) == Cumulative(Collect(a), p) + Cumulative(Collect(b), p) {
          CumulativeAdds(Collect(a), Collect(b), p);
        }
        MergedPoints(a, b, m, total, points, first, both, once);
      }
    }
  }

  lemma MergedPoints(a: Deltas, b: Deltas, m: Deltas, total: nat, points: map<nat, nat>, first: Written, both: Written, once: Written)
    requires Ascending(a) && Ascending(b) && Ascending(m) && first.Written? && both.Written? && once.Written?
    requires Collect(m).Keys == Collect(a).Keys + Collect(b).Keys
    requires forall p :: Cumulative(Collect(m), p) == Cumulative(Collect(a), p) + Cumulative(Collect(b), p)
    requires first.total == Level(Values(a), total)
    requires HasPoints(first, a, total, points) && HasPoints(both, b, first.total, first.points) && HasPoints(once, m, total, points)
    ensures both.points == once.points <==> InOrder(a, b, m, total)
  {
    hide Ascending, Collect, Cumulative, Write, Values, Upto, Sum, Depth, Level, DepthAt;
    forall p ensures
      && Level(Values(Upto(a, p)), total) == total + Cumulative(Collect(a), p) + DepthAt(a, total, p)
      && Level(Values(Upto(b, p)), first.total) == first.total + Cumulative(Collect(b), p) + DepthAt(b, first.total, p)
      && Level(Values(Upto(m, p)), total) == total + Cumulative(Collect(m), p) + DepthAt(m, total, p)
    {
      LevelAt(a, total, p);
      LevelAt(b, first.total, p);
      LevelAt(m, total, p);
    }
    assert both.points.Keys == once.points.Keys;
    if InOrder(a, b, m, total) {
      forall p | p in both.points ensures both.points[p] == once.points[p] {
      }
    }
    if both.points == once.points {
      forall p | p in Collect(b)
        ensures Cumulative(Collect(a), p) + DepthAt(m, total, p) == first.total - total + DepthAt(b, first.total, p)
      {
        assert p in both.points && both.points[p] == once.points[p];
      }
      forall p | p in Collect(a) && p !in Collect(b)
        ensures Cumulative(Collect(b), p) + DepthAt(m, total, p) == DepthAt(a, total, p)
      {
        assert p in both.points && both.points[p] == once.points[p];
      }
    }
  }

  // The points of `w` are those that executing `s` leaves.
  ghost predicate HasPoints(w: Written, s: Deltas, total: int, points: map<nat, nat>)
    requires w.Written?
  {
    && w.points.Keys == points.Keys + Collect(s).Keys
    && forall p :: p in w.points ==>
         w.points[p] == if p in Collect(s) then Level(Values(Upto(s, p)), total) else points[p]
  }

  /** Lists that never sink below zero one after the other leave the total of
      their merge if and only if the merge does not sink either. */
  lemma MergeSinks(a: Deltas, b: Deltas, m: Deltas, total: U128, points: map<nat, nat>)
    requires Ascending(a) && Ascending(b) && Ascending(m) && !Overflows(Merging, Collect(a), Collect(b))
    requires Holds(m, Combined(Merging, Collect(a), Collect(b)))
    requires !Sinks(Values(a), total) && !Sinks(Values(b), total + Sum(Values(a)))
    requires Write(a, total, points).Written? && Write(m, total, points).Written?
    ensures var first := Write(a, total, points);
      var both := Write(b, first.total, first.points);
      both.Written? ==> (both.total == Write(m, total, points).total <==> !Sinks(Values(m), total))
  {
    hide Ascending, Holds, Overflows, Collect, Combined, Write, Values, Sum, Exceeds;
    MergedWriteLaw(a, b, m, total, points);
    DepthIsSinking(Values(a), total);
    DepthIsSinking(Values(b), total + Sum(Values(a)));
    DepthIsSinking(Values(m), total);
  }

  lemma {:induction false} NeverSinks(s: Deltas, total: int, p: nat)
    requires !Sinks(Values(s), total)
    ensures DepthAt(s, total, p) == 0
  {
    if s == [] || s[|s| - 1].0 <= p {
      DepthIsSinking(Values(s), total);
    } else {
      ValuesFront(s);
      NeverSinks(s[..|s| - 1], total, p);
    }
  }

  /** Where nothing sinks, lists are in order if and only if everything the
      first one counts lies at or before the points of the second, and nothing
      the second one counts lies before other points of the first. */
  lemma InOrderWithoutSinking(a: Deltas, b: Deltas, m: Deltas, total: int)
    requires !Sinks(Values(a), total) && !Sinks(Values(b), total + Sum(Values(a))) && !Sinks(Values(m), total)
    ensures InOrder(a, b, m, total) <==>
      && (forall p :: p in Collect(b) ==> Cumulative(Collect(a), p) == Sum(Values(a)))
      && (forall p :: p in Collect(a) && p !in Collect(b) ==> Cumulative(Collect(b), p) == 0)
  {
    DepthIsSinking(Values(a), total);
    hide Collect, Cumulative, Values, Sinks, Sum, Depth, DepthAt;
    var after := Level(Values(a), total);
    forall p ensures DepthAt(a, total, p) == 0 {
      NeverSinks(a, total, p);
    }
    forall p ensures DepthAt(b, after, p) == 0 {
      NeverSinks(b, after, p);
    }
    forall p ensures DepthAt(m, total, p) == 0 {
      NeverSinks(m, total, p);
    }
    if InOrder(a, b, m, total) {
      forall p | p in Collect(b) ensures Cumulative(Collect(a), p) == Sum(Values(a)) {
        assert Cumulative(Collect(a), p) + DepthAt(m, total, p) == after - total + DepthAt(b, after, p);
      }
      forall p | p in Collect(a) && p !in Collect(b) ensures Cumulative(Collect(b), p) == 0 {
        assert Cumulative(Collect(b), p) + DepthAt(m, total, p) == DepthAt(a, total, p);
      }
    } else if p :| p in Collect(b) && Cumulative(Collect(a), p) + DepthAt(m, total, p) != after - total + DepthAt(b, after, p) {
      assert Cumulative(Collect(a), p) != Sum(Values(a));
    } else {
      var q :| q in Collect(a) && q !in Collect(b) && Cumulative(Collect(b), q) + DepthAt(m, total, q) != DepthAt(a, total, q);
      assert Cumulative(Collect(b), q) != 0;
    }
  }

  lemma {:induction false} WriteConcat(a: Deltas, b: Deltas, total: nat, points: map<nat, nat>)
    ensures var first := Write(a, total, points);
      Write(a + b, total, points) == if first.Overflow? then first else Write(b, first.total, first.points)
  {
    hide Step;
    if b == [] {
      assert a + b == a;
    } else {
      WriteConcat(a, b[..|b| - 1], total, points);
      assert (a + b)[..|a + b| - 1] == a + b[..|b| - 1];
    }
  }

  /** Lists in the order of the chain, every point of the first before every
      point of the second, can always be merged, overflow and sinking included. */
  lemma LaterIsExact(a: Deltas, b: Deltas, m: Deltas, total: nat, points: map<nat, nat>)
    requires Ascending(a) && Ascending(b) && Ascending(m) && Holds(m, Combined(Merging, Collect(a), Collect(b)))
    requires forall i, j :: 0 <= i < |a| && 0 <= j < |b| ==> a[i].0 < b[j].0
    ensures !Overflows(Merging, Collect(a), Collect(b))
    ensures var first := Write(a, total, points);
      Write(m, total, points) == if first.Overflow? then first else Write(b, first.total, first.points)
  {
    CollectKeys(a);
    CollectKeys(b);
    ConcatHolds(a, b);
    AscendingUnique(m, a + b, Combined(Merging, Collect(a), Collect(b)));
    WriteConcat(a, b, total, points);
  }

  lemma {:induction false} CollectAt(s: Deltas, i: nat)
    requires Ascending(s) && i < |s|
    ensures s[i].0 in Collect(s) && Collect(s)[s[i].0] == s[i].1
  {
    if i < |s| - 1 {
      CollectAt(s[..|s| - 1], i);
    }
  }

  lemma ConcatHolds(a: Deltas, b: Deltas)
    requires Ascending(a) && Ascending(b) && forall i, j :: 0 <= i < |a| && 0 <= j < |b| ==> a[i].0 < b[j].0
    requires forall p :: p in Collect(a) <==> exists i :: 0 <= i < |a| && a[i].0 == p
    requires forall p :: p in Collect(b) <==> exists i :: 0 <= i < |b| && b[i].0 == p
    ensures Ascending(a + b) && Holds(a + b, Combined(Merging, Collect(a), Collect(b)))
  {
    var m := Combined(Merging, Collect(a), Collect(b));
    forall i | 0 <= i < |a| ensures a[i].0 in m && m[a[i].0] == a[i].1 {
      CollectAt(a, i);
    }
    forall i | 0 <= i < |b| ensures b[i].0 in m && m[b[i].0] == b[i].1 {
      CollectAt(b, i);
    }
    ConcatEntries(a, b, m);
    ConcatCovers(a, b, m);
  }

  lemma ConcatEntries(a: Deltas, b: Deltas, m: map<nat, Delta>)
    requires Ascending(a) && Ascending(b) && forall i, j :: 0 <= i < |a| && 0 <= j < |b| ==> a[i].0 < b[j].0
    requires forall i :: 0 <= i < |a| ==> a[i].0 in m && m[a[i].0] == a[i].1
    requires forall i :: 0 <= i < |b| ==> b[i].0 in m && m[b[i].0] == b[i].1
    ensures Ascending(a + b)
    ensures forall i :: 0 <= i < |a + b| ==> (a + b)[i].0 in m && m[(a + b)[i].0] == (a + b)[i].1
  {
  }

  lemma ConcatCovers(a: Deltas, b: Deltas, m: map<nat, Delta>)
    requires m.Keys == Collect(a).Keys + Collect(b).Keys
    requires forall p :: p in Collect(a) <==> exists i :: 0 <= i < |a| && a[i].0 == p
    requires forall p :: p in Collect(b) <==> exists i :: 0 <= i < |b| && b[i].0 == p
    ensures forall p :: p in m ==> exists i :: 0 <= i < |a + b| && (a + b)[i].0 == p
  {
    hide Collect;
    var ab := a + b;
    forall p | p in m ensures exists i :: 0 <= i < |ab| && ab[i].0 == p {
      if p in Collect(a) {
        var i :| 0 <= i < |a| && a[i].0 == p;
        assert ab[i].0 == p;
      } else {
        var i :| 0 <= i < |b| && b[i].0 == p;
        assert ab[|a| + i].0 == p;
      }
    }
  }

  const LATER: Deltas := [(2, Up(5))]
  const EARLIER: Deltas := [(1, Up(3))]

  lemma WriteOne(p: nat, d: Delta, total: nat, points: map<nat, nat>)
    requires Step(total, d).Some?
    ensures var t := Step(total, d).value;
      Write([(p, d)], total, points) == Written(t, points[p := t])
  {
    assert [(p, d)][..0] == [];
    assert Write([], total, points) == Written(total, points);
  }

  lemma WriteTwo(p: nat, d: Delta, q: nat, e: Delta, total: nat, points: map<nat, nat>)
    requires Step(total, d).Some? && Step(Step(total, d).value, e).Some?
    ensures var t := Step(total, d).value;
      var t' := Step(t, e).value;
      Write([(p, d), (q, e)], total, points) == Written(t', points[p := t][q := t'])
  {
    WriteOne(p, d, total, points);
    assert [(p, d), (q, e)][..1] == [(p, d)];
  }

  /** Out of order they cannot. 5 at point 2 and then 3 at point 1 leaves 8 more
      at point 1, and their merge leaves 3 more there. */
  lemma OutOfOrder(total: nat, points: map<nat, nat>)
    requires total + 8 <= U128_MAX
    ensures Holds([(1, Up(3)), (2, Up(5))], Combined(Merging, Collect(LATER), Collect(EARLIER)))
    ensures Write(LATER, total, points) == Written(total + 5, points[2 := total + 5])
    ensures Write(EARLIER, total + 5, points[2 := total + 5]) == Written(total + 8, points[2 := total + 5][1 := total + 8])
    ensures Write([(1, Up(3)), (2, Up(5))], total, points) == Written(total + 8, points[1 := total + 3][2 := total + 8])
  {
    CollectOne(2, Up(5));
    CollectOne(1, Up(3));
    var m: Deltas := [(1, Up(3)), (2, Up(5))];
    assert m[0].0 == 1 && m[1].0 == 2;
    WriteOne(2, Up(5), total, points);
    WriteOne(1, Up(3), total + 5, points[2 := total + 5]);
    WriteTwo(1, Up(3), 2, Up(5), total, points);
  }

  const SPENT: Deltas := [(1, Down(5))]

  /** And not even the total is right where the merge sinks: 5 at point 2 and
      then 5 less at point 1 leaves nothing, and their merge leaves 5. */
  lemma MergeLeavesOver(points: map<nat, nat>)
    ensures Holds([(1, Down(5)), (2, Up(5))], Combined(Merging, Collect(LATER), Collect(SPENT)))
    ensures Write(LATER, 0, points) == Written(5, points[2 := 5])
    ensures Write(SPENT, 5, points[2 := 5]) == Written(0, points[2 := 5][1 := 0])
    ensures Write([(1, Down(5)), (2, Up(5))], 0, points) == Written(5, points[1 := 0][2 := 5])
  {
    CollectOne(2, Up(5));
    CollectOne(1, Down(5));
    var m: Deltas := [(1, Down(5)), (2, Up(5))];
    assert m[0].0 == 1 && m[1].0 == 2;
    WriteOne(2, Up(5), 0, points);
    WriteOne(1, Down(5), 5, points[2 := 5]);
    WriteTwo(1, Down(5), 2, Up(5), 0, points);
  }

  // ----- correcting what has been executed

  lemma {:induction false} CumulativeDiffers(a: map<nat, Delta>, b: map<nat, Delta>, p: nat)
    requires !Overflows(Differencing, a, b)
    ensures Cumulative(Combined(Differencing, a, b), p) == Cumulative(b, p) - Cumulative(a, p)
  {
    CombinedValue(Differencing, a, b, p);
    if p > 0 {
      CumulativeDiffers(a, b, p - 1);
    }
  }

  lemma SumDiffers(a: Deltas, b: Deltas, d: Deltas, p: nat)
    requires Ascending(a) && Ascending(b) && Ascending(d) && !Overflows(Differencing, Collect(a), Collect(b))
    requires Collect(d) == Combined(Differencing, Collect(a), Collect(b))
    requires (forall i :: 0 <= i < |a| ==> a[i].0 <= p) && (forall i :: 0 <= i < |b| ==> b[i].0 <= p)
    ensures Sum(Values(d)) == Sum(Values(b)) - Sum(Values(a))
  {
    CollectKeys(a);
    CollectKeys(b);
    CollectKeys(d);
    forall i | 0 <= i < |d| ensures d[i].0 <= p {
      assert d[i].0 in Collect(d);
    }
    SumAll(a, p);
    SumAll(b, p);
    SumAll(d, p);
    CumulativeDiffers(Collect(a), Collect(b), p);
  }

  // The correction writes the points of the second list: everything the first
  // one counts lies at or before them, up to what sinking leaves over, and at
  // the other points of the first list the stored value is what is written.
  ghost predicate Correctable(a: Deltas, b: Deltas, d: Deltas, total: int, points: map<nat, nat>) {
    var after := Level(Values(a), total);
    && (forall p :: p in Collect(b) ==>
          after - total + DepthAt(d, after, p) == Cumulative(Collect(a), p) + DepthAt(b, total, p))
    && (forall p :: p in Collect(a) && p !in Collect(b) ==>
          p in points && points[p] == after + Cumulative(Collect(b), p) - Cumulative(Collect(a), p) + DepthAt(d, after, p))
  }

  /** Executing a list and then its difference to another one, or the other one
      alone. Each overflows exactly when its total exceeds 128 bits. If neither
      does, the totals are the same if and only if both ways sinking leaves the
      same over, and the points are the same if and only if the first list is
      correctable. */
  lemma DifferenceWriteLaw(a: Deltas, b: Deltas, d: Deltas, total: U128, points: map<nat, nat>)
    requires Ascending(a) && Ascending(b) && Ascending(d) && !Overflows(Differencing, Collect(a), Collect(b))
    requires Holds(d, Combined(Differencing, Collect(a), Collect(b)))
    ensures var first, direct := Write(a, total, points), Write(b, total, points);
      var after := Level(Values(a), total);
      && (first.Overflow? <==> Exceeds(Values(a), total)) && (direct.Overflow? <==> Exceeds(Values(b), total))
      && (first.Written? ==>
            && first.total == after
            && var corrected := Write(d, first.total, first.points);
               && (corrected.Overflow? <==> Exceeds(Values(d), after))
               && (corrected.Written? && direct.Written? ==>
                     && (corrected.total == direct.total <==>
                           Depth(Values(a), total) + Depth(Values(d), after) == Depth(Values(b), total))
                     && (corrected.points == direct.points <==> Correctable(a, b, d, total, points))))
  {
    hide Ascending, Holds, Overflows, Collect, Cumulative, Combined, Write, Values, Upto, Sum, Depth, Exceeds;
    WriteLaw(a, total, points);
    WriteLaw(b, total, points);
    CollectHolds(d, Combined(Differencing, Collect(a), Collect(b)));
    SumDiffers(a, b, d, if Highest(a) <= Highest(b) then Highest(b) else Highest(a));
    var first, direct := Write(a, total, points), Write(b, total, points);
    if first.Written? {
      WriteLaw(d, first.total, first.points);
      var corrected := Write(d, first.total, first.points);
      if corrected.Written? && direct.Written? {
        forall p ensures Cumulative(Collect(d), p) == Cumulative(Collect(b), p) - Cumulative(Collect(a), p) {
          CumulativeDiffers(Collect(a), Collect(b), p);
        }
        CorrectedPoints(a, b, d, total, points, first, corrected, direct);
      }
    }
  }

  lemma CorrectedPoints(a: Deltas, b: Deltas, d: Deltas, total: nat, points: map<nat, nat>, first: Written, corrected: Written, direct: Written)
    requires Ascending(a) && Ascending(b) && Ascending(d) && first.Written? && corrected.Written? && direct.Written?
    requires Collect(d).Keys == Collect(a).Keys + Collect(b).Keys
    requires forall p :: Cumulative(Collect(d), p) == Cumulative(Collect(b), p) - Cumulative(Collect(a), p)
    requires first.total == Level(Values(a), total)
    requires HasPoints(first, a, total, points) && HasPoints(corrected, d, first.total, first.points) && HasPoints(direct, b, total, points)
    ensures corrected.points == direct.points <==> Correctable(a, b, d, total, points)
  {
    hide Ascending, Collect, Cumulative, Write, Values, Upto, Sum, Depth, Level, DepthAt;
    var after := first.total;
    forall p ensures
      && Level(Values(Upto(d, p)), after) == after + Cumulative(Collect(d), p) + DepthAt(d, after, p)
      && Level(Values(Upto(b, p)), total) == total + Cumulative(Collect(b), p) + DepthAt(b, total, p)
    {
      LevelAt(d, after, p);
      LevelAt(b, total, p);
    }
    if Correctable(a, b, d, total, points) {
      assert corrected.points.Keys == direct.points.Keys;
      forall p | p in corrected.points ensures corrected.points[p] == direct.points[p] {
      }
    }
    if corrected.points == direct.points {
      forall p | p in Collect(b)
        ensures after - total + DepthAt(d, after, p) == Cumulative(Collect(a), p) + DepthAt(b, total, p)
      {
        assert p in corrected.points && corrected.points[p] == direct.points[p];
      }
      forall p | p in Collect(a) && p !in Collect(b)
        ensures p in points && points[p] == after + Cumulative(Collect(b), p) - Cumulative(Collect(a), p) + DepthAt(d, after, p)
      {
        assert p in corrected.points && p in direct.points;
      }
    }
  }

  /** Where neither list sinks below zero alone, the correction leaves the total
      of the second list if and only if the difference does not sink either. */
  lemma CorrectionSinks(a: Deltas, b: Deltas, d: Deltas, total: U128, points: map<nat, nat>)
    requires Ascending(a) && Ascending(b) && Ascending(d) && !Overflows(Differencing, Collect(a), Collect(b))
    requires Holds(d, Combined(Differencing, Collect(a), Collect(b)))
    requires !Sinks(Values(a), total) && !Sinks(Values(b), total)
    requires Write(a, total, points).Written? && Write(b, total, points).Written?
    ensures var first := Write(a, total, points);
      var corrected := Write(d, first.total, first.points);
      corrected.Written? ==>
        (corrected.total == Write(b, total, points).total <==> !Sinks(Values(d), total + Sum(Values(a))))
  {
    hide Ascending, Holds, Overflows, Collect, Combined, Write, Values, Sum, Exceeds;
    DifferenceWriteLaw(a, b, d, total, points);
    DepthIsSinking(Values(a), total);
    DepthIsSinking(Values(b), total);
    DepthIsSinking(Values(d), total + Sum(Values(a)));
  }

  /** Where nothing sinks, the first list is correctable if and only if
      everything it counts lies at or before the points of the second, and at its
      other points the stored value is what is written. */
  lemma CorrectableWithoutSinking(a: Deltas, b: Deltas, d: Deltas, total: int, points: map<nat, nat>)
    requires !Sinks(Values(a), total) && !Sinks(Values(b), total) && !Sinks(Values(d), total + Sum(Values(a)))
    ensures Correctable(a, b, d, total, points) <==>
      && (forall p :: p in Collect(b) ==> Cumulative(Collect(a), p) == Sum(Values(a)))
      && (forall p :: p in Collect(a) && p !in Collect(b) ==>
            p in points && points[p] == total + Sum(Values(a)) + Cumulative(Collect(b), p) - Cumulative(Collect(a), p))
  {
    DepthIsSinking(Values(a), total);
    hide Collect, Cumulative, Values, Sinks, Sum, Depth, DepthAt;
    var after := Level(Values(a), total);
    forall p ensures DepthAt(b, total, p) == 0 {
      NeverSinks(b, total, p);
    }
    forall p ensures DepthAt(d, after, p) == 0 {
      NeverSinks(d, after, p);
    }
    if Correctable(a, b, d, total, points) {
      forall p | p in Collect(b) ensures Cumulative(Collect(a), p) == Sum(Values(a)) {
        assert after - total + DepthAt(d, after, p) == Cumulative(Collect(a), p) + DepthAt(b, total, p);
      }
    } else if p :| p in Collect(b) && after - total + DepthAt(d, after, p) != Cumulative(Collect(a), p) + DepthAt(b, total, p) {
      assert Cumulative(Collect(a), p) != Sum(Values(a));
    }
  }

  lemma CollectOne(p: nat, d: Delta)
    ensures Collect([(p, d)]) == map[p := d]
  {
    assert [(p, d)][..0] == [] && Collect([]) == map[];
  }

  /** Lists of one and the same point can be corrected, exactly if the first does
      not sink below zero or the second is not above it. */
  lemma SamePointCorrectable(p: nat, x: Delta, y: Delta, d: Delta, total: nat, points: map<nat, nat>)
    requires d.Value() == y.Value() - x.Value()
    ensures Correctable([(p, x)], [(p, y)], [(p, d)], total, points) <==> total + x.Value() >= 0 || y.Value() <= x.Value()
  {
    var after := Level(Values([(p, x)]), total);
    OnePoint(p, x, total);
    OnePoint(p, y, total);
    OnePoint(p, d, after);
    var a, b, c: Deltas := [(p, x)], [(p, y)], [(p, d)];
    assert p in Collect(b) && Collect(a).Keys == Collect(b).Keys == {p};
    assert Correctable(a, b, c, total, points) <==>
      after - total + DepthAt(c, after, p) == Cumulative(Collect(a), p) + DepthAt(b, total, p);
  }

  lemma OnePoint(p: nat, d: Delta, total: int)
    ensures Collect([(p, d)]) == map[p := d] && Cumulative(Collect([(p, d)]), p) == d.Value()
    ensures var depth := if total + d.Value() < 0 then 0 - total - d.Value() else 0;
      DepthAt([(p, d)], total, p) == depth && Level(Values([(p, d)]), total) == total + d.Value() + depth
  {
    CollectOne(p, d);
    SumIsCumulative([(p, d)], p);
    var v := [d.Value()];
    assert Values([(p, d)]) == v && v[..0] == [];
    assert Sum([]) == 0 && Sum(v) == d.Value() && Depth([], total) == 0;
    assert Upto([(p, d)], p) == [(p, d)];
  }

  const WRONG: Deltas := [(1, Up(10)), (2, Down(2))]
  const RIGHT: Deltas := [(1, Up(1)), (3, Up(6))]
  const CORRECTION: Deltas := [(1, Down(9)), (2, Up(2)), (3, Up(6))]

  lemma CollectTwo(p: nat, d: Delta, q: nat, e: Delta)
    ensures Collect([(p, d), (q, e)]) == map[p := d][q := e]
  {
    assert [(p, d), (q, e)][..1] == [(p, d)];
    CollectOne(p, d);
  }

  lemma CorrectionIs(a: map<nat, Delta>, b: map<nat, Delta>)
    requires a == map[1 := Up(10), 2 := Down(2)] && b == map[1 := Up(1), 3 := Up(6)]
    ensures Combined(Differencing, a, b) == map[1 := Down(9), 2 := Up(2), 3 := Up(6)]
  {
    assert At(Differencing, a, b, 1) == Some(Down(9));
    assert At(Differencing, a, b, 2) == Some(Up(2)) && At(Differencing, a, b, 3) == Some(Up(6));
    hide At;
  }

  lemma CorrectionHolds()
    ensures Holds(CORRECTION, Combined(Differencing, Collect(WRONG), Collect(RIGHT)))
  {
    CollectTwo(1, Up(10), 2, Down(2));
    CollectTwo(1, Up(1), 3, Up(6));
    CorrectionIs(Collect(WRONG), Collect(RIGHT));
    hide Collect, Combined;
    assert CORRECTION[0].0 == 1 && CORRECTION[1].0 == 2 && CORRECTION[2].0 == 3;
  }

  lemma WriteThree(p: nat, d: Delta, q: nat, e: Delta, r: nat, f: Delta, total: nat, points: map<nat, nat>)
    requires Step(total, d).Some? && Step(Step(total, d).value, e).Some? && Step(Step(Step(total, d).value, e).value, f).Some?
    ensures var t := Step(total, d).value;
      var t' := Step(t, e).value;
      var t'' := Step(t', f).value;
      Write([(p, d), (q, e), (r, f)], total, points) == Written(t'', points[p := t][q := t'][r := t''])
  {
    WriteTwo(p, d, q, e, total, points);
    assert [(p, d), (q, e), (r, f)][..2] == [(p, d), (q, e)];
  }

  /** Others cannot. 10 more at point 1 and 2 less at point 2, corrected to 1 more
      at point 1 and 6 more at point 3, leaves 1 less at point 1, and a value at
      point 2. */
  lemma NotCorrected(total: nat, points: map<nat, nat>)
    requires 1 <= total && total + 10 <= U128_MAX
    ensures Holds(CORRECTION, Combined(Differencing, Collect(WRONG), Collect(RIGHT)))
    ensures Write(WRONG, total, points) == Written(total + 8, points[1 := total + 10][2 := total + 8])
    ensures Write(CORRECTION, total + 8, points[1 := total + 10][2 := total + 8])
      == Written(total + 7, points[1 := total - 1][2 := total + 1][3 := total + 7])
    ensures Write(RIGHT, total, points) == Written(total + 7, points[1 := total + 1][3 := total + 7])
  {
    CorrectionHolds();
    hide Collect, Combined, Holds, Write;
    WriteTwo(1, Up(10), 2, Down(2), total, points);
    WriteThree(1, Down(9), 2, Up(2), 3, Up(6), total + 8, points[1 := total + 10][2 := total + 8]);
    WriteTwo(1, Up(1), 3, Up(6), total, points);
  }

  const RECEIVED: Deltas := [(1, Up(10)), (2, Down(10))]
  const RECEIVED_LATER: Deltas := [(3, Up(1))]
  const SINKING: Deltas := [(1, Down(10)), (2, Up(10)), (3, Up(1))]

  lemma SinkingIs(a: map<nat, Delta>, b: map<nat, Delta>)
    requires a == map[1 := Up(10), 2 := Down(10)] && b == map[3 := Up(1)]
    ensures Combined(Differencing, a, b) == map[1 := Down(10), 2 := Up(10), 3 := Up(1)]
  {
    assert At(Differencing, a, b, 1) == Some(Down(10));
    assert At(Differencing, a, b, 2) == Some(Up(10)) && At(Differencing, a, b, 3) == Some(Up(1));
    hide At;
  }

  lemma SinkingHolds()
    ensures Holds(SINKING, Combined(Differencing, Collect(RECEIVED), Collect(RECEIVED_LATER)))
  {
    CollectTwo(1, Up(10), 2, Down(10));
    CollectOne(3, Up(1));
    SinkingIs(Collect(RECEIVED), Collect(RECEIVED_LATER));
    hide Collect, Combined;
    assert SINKING[0].0 == 1 && SINKING[1].0 == 2 && SINKING[2].0 == 3;
  }

  /** Not even the total is corrected where the difference sinks: 10 received at
      point 1 and spent at point 2, corrected to 1 received at point 3, leaves 11. */
  lemma CorrectionLeavesOver(points: map<nat, nat>)
    ensures Holds(SINKING, Combined(Differencing, Collect(RECEIVED), Collect(RECEIVED_LATER)))
    ensures Write(RECEIVED, 0, points) == Written(0, points[1 := 10][2 := 0])
    ensures Write(SINKING, 0, points[1 := 10][2 := 0]) == Written(11, points[1 := 0][2 := 10][3 := 11])
    ensures Write(RECEIVED_LATER, 0, points) == Written(1, points[3 := 1])
  {
    SinkingHolds();
    hide Collect, Combined, Holds, Write;
    WriteTwo(1, Up(10), 2, Down(10), 0, points);
    WriteThree(1, Down(10), 2, Up(10), 3, Up(1), 0, points[1 := 10][2 := 0]);
    WriteOne(3, Up(1), 0, points);
  }

  // ----- the inverse of an executed list

  // The total under the main key, if there is one, and the values at the points.
  datatype Aggregate = Aggregate(total: Option<nat>, points: map<nat, nat>)

  function Executed(s: Deltas, x: Aggregate): Option<Aggregate> {
    match Write(s, x.total.GetOr(0), x.points)
    case Overflow => None
    case Written(t, points) => Some(Aggregate(Some(t), points))
  }

  // The inverse sets the total back or deletes it, and deletes every point.
  function Undone(s: Deltas, before: Option<nat>, x: Aggregate): Aggregate {
    Aggregate(before, x.points - Collect(s).Keys)
  }

  /** The inverse restores what was found if and only if no point of the list had
      a value. */
  lemma PointInverseLaw(s: Deltas, x: Aggregate)
    requires Ascending(s) && x.total.GetOr(0) <= U128_MAX && Executed(s, x).Some?
    ensures Undone(s, x.total, Executed(s, x).value) == x <==> forall p :: p in Collect(s) ==> p !in x.points
  {
    hide Write, Collect, Values, Upto, Exceeds, Level;
    WriteLaw(s, x.total.GetOr(0), x.points);
    var after, back := Executed(s, x).value, Undone(s, x.total, Executed(s, x).value);
    assert forall p :: p in back.points ==> back.points[p] == x.points[p];
    if p :| p in Collect(s) && p in x.points {
      assert p !in back.points;
    } else {
      assert back.points.Keys == x.points.Keys;
    }
  }
}
