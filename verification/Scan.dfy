/** Batched range scans over a sorted snapshot, and pages of them. */
module Scan {
  import opened Chain
  import opened Codec
  import opened Keys
  import opened Sorting

  // A key with its value; a snapshot holds them in key order.
  type Entry = (Bytes, Bytes)
  type Snapshot = seq<Entry>

  // No key is empty: every key begins with its namespace.
  predicate Ascending(s: Snapshot) {
    && (forall i, j :: 0 <= i < j < |s| ==> Less(s[i].0, s[j].0))
    && (forall i :: 0 <= i < |s| ==> s[i].0 != [])
  }

  datatype Order = Asc | Desc

  datatype Range = Range(start: Bytes, end: Bytes)

  // ----- a range of a sorted snapshot is a slice

  // The number of keys below `k`.
  function Position(s: Snapshot, k: Bytes): (p: nat)
    ensures p <= |s|
    ensures forall i :: 0 <= i < p ==> Less(s[i].0, k)
    ensures p < |s| ==> !Less(s[p].0, k)
  {
    if s == [] || !Less(s[0].0, k) then 0 else 1 + Position(s[1..], k)
  }

  function Select(s: Snapshot, r: Range): (slice: Snapshot) {
    var lo, hi := Position(s, r.start), if r.end == [] then |s| else Position(s, r.end);
    if lo <= hi then s[lo..hi] else []
  }

  lemma PositionSplits(s: Snapshot, k: Bytes, i: nat)
    requires Ascending(s) && i < |s|
    ensures Less(s[i].0, k) <==> i < Position(s, k)
  {
    hide Less;
    var p := Position(s, k);
    if p < i && Less(s[i].0, k) {
      Transitive(s[p].0, s[i].0, k);
    }
  }

  /** Scanning a range gives the snapshot's keys in that range, and no others. */
  lemma SelectIsRange(s: Snapshot, r: Range, i: nat)
    requires Ascending(s) && i < |s|
    ensures s[i] in Select(s, r) <==> InRange(s[i].0, r.start, r.end)
  {
    hide Less, Position;
    PositionSplits(s, r.start, i);
    Comparable(s[i].0, r.start);
    if r.end != [] {
      PositionSplits(s, r.end, i);
    }
    var lo, hi := Position(s, r.start), if r.end == [] then |s| else Position(s, r.end);
    var slice := Select(s, r);
    if s[i] in slice {
      var j :| 0 <= j < |slice| && slice[j] == s[i];
      assert slice[j] == s[lo + j];
      SameIndex(s, lo + j, i);
    }
    if lo <= i < hi {
      assert slice[i - lo] == s[i];
    }
  }

  lemma SameIndex(s: Snapshot, i: nat, j: nat)
    requires Ascending(s) && i < |s| && j < |s| && s[i] == s[j]
    ensures i == j
  {
    Comparable(s[i].0, s[j].0);
    Comparable(s[j].0, s[i].0);
  }

  // The least key after `k` is `k` followed by a zero byte.
  lemma Successor(k: Bytes, x: Bytes)
    ensures AtMost(k + [0], x) <==> Less(k, x)
  {
    hide Common;
    CommonBytes(k, x);
    var n := Common(k, x);
    if n < |k| {
      CommonIs(k + [0], x, n);
    } else if n < |x| {
      CommonIs(k + [0], x, if x[n] == 0 then n + 1 else n);
      if x[n] == 0 && |x| == n + 1 {
        assert x == k + [0];
      }
    } else {
      CommonIs(k + [0], x, n);
    }
  }

  lemma PositionAfter(s: Snapshot, i: nat)
    requires Ascending(s) && i < |s|
    ensures Position(s, s[i].0) == i && Position(s, s[i].0 + [0]) == i + 1
  {
    hide Less;
    var k := s[i].0;
    Comparable(k, k);
    PositionSplits(s, k, i);
    if i > 0 {
      PositionSplits(s, k, i - 1);
    }
    Successor(k, k);
    Comparable(k, k + [0]);
    PositionSplits(s, k + [0], i);
    if i + 1 < |s| {
      Successor(k, s[i + 1].0);
      Comparable(s[i + 1].0, k + [0]);
      PositionSplits(s, k + [0], i + 1);
    }
  }

  // ----- in the order asked for

  function InOrder(s: Snapshot, r: Range, order: Order): Snapshot {
    if order.Asc? then Select(s, r) else Reverse(Select(s, r))
  }

  // What is left of a range once `last` has been read.
  function After(r: Range, last: Bytes, order: Order): Range {
    if order.Asc? then Range(last + [0], r.end) else Range(r.start, last)
  }

  lemma ReverseDrop<T>(s: seq<T>, n: nat)
    requires n <= |s|
    ensures Reverse(s)[n..] == Reverse(s[..|s| - n])
  {
    hide Reverse;
  }

  lemma ReadOnAsc(s: Snapshot, r: Range, n: nat)
    requires Ascending(s) && 0 < n <= |Select(s, r)|
    ensures Select(s, Range(Select(s, r)[n - 1].0 + [0], r.end)) == Select(s, r)[n..]
  {
    hide Less, Position, Ascending;
    var lo := Position(s, r.start);
    PositionAfter(s, lo + n - 1);
  }

  lemma ReadOnDesc(s: Snapshot, r: Range, i: nat)
    requires Ascending(s) && i < |Select(s, r)|
    ensures Select(s, Range(r.start, Select(s, r)[i].0)) == Select(s, r)[..i]
  {
    hide Less, Position;
    var lo := Position(s, r.start);
    assert Select(s, r)[i] == s[lo + i] && s[lo + i].0 != [];
    PositionAfter(s, lo + i);
    var slice := Select(s, r);
    assert slice == s[lo..lo + |slice|];
    assert s[lo..lo + i] == slice[..i];
  }

  /** Reading on after the n-th entry gives exactly the entries after it. */
  lemma ReadOn(s: Snapshot, r: Range, order: Order, n: nat)
    requires Ascending(s) && 0 < n <= |InOrder(s, r, order)|
    ensures InOrder(s, After(r, InOrder(s, r, order)[n - 1].0, order), order) == InOrder(s, r, order)[n..]
  {
    hide Ascending, Select, Reverse;
    if order.Asc? {
      ReadOnAsc(s, r, n);
    } else {
      ReadOnDesc(s, r, |Select(s, r)| - n);
      ReverseDrop(Select(s, r), n);
    }
  }

  // ----- what a scan returns

  datatype Outcome<T> = MalformedData(key: Bytes) | Found(items: seq<T>)

  // A scan: which entries match, and how an entry is decoded.
  datatype Query<!T> = Query(filter: Option<Entry -> bool>, decode: Entry -> Option<T>, count: Option<nat>)

  function Matching<T>(q: Query<T>, s: Snapshot): Snapshot {
    if s == [] || q.filter.None? then s
    else (if q.filter.value(s[0]) then [s[0]] else []) + Matching(q, s[1..])
  }

  predicate Enough<T>(q: Query<T>, n: nat) {
    q.count.Some? && n >= q.count.value
  }

  // Entries decoded one after the other until there are enough.
  function Gather<T>(q: Query<T>, s: Snapshot, found: seq<T>): Outcome<T> {
    if s == [] then Found(found) else
      match q.decode(s[0])
      case None => MalformedData(s[0].0)
      case Some(t) => if Enough(q, |found| + 1) then Found(found + [t]) else Gather(q, s[1..], found + [t])
  }

  function Truncate<T>(q: Query<T>, o: Outcome<T>): Outcome<T> {
    if o.Found? && q.count.Some? && q.count.value < |o.items| then Found(o.items[..q.count.value]) else o
  }

  // The scan as it should be: the first `count` matching entries of the range.
  function Answer<T>(q: Query<T>, entries: Snapshot): Outcome<T> {
    Truncate(q, Gather(q, Matching(q, entries), []))
  }

  lemma {:induction false} MatchingConcat<T>(q: Query<T>, a: Snapshot, b: Snapshot)
    ensures Matching(q, a + b) == Matching(q, a) + Matching(q, b)
  {
    if a == [] {
      assert a + b == b;
    } else {
      assert (a + b)[1..] == a[1..] + b;
      MatchingConcat(q, a[1..], b);
    }
  }

  // Gathering stops early, or goes on with what was found.
  lemma {:induction false} GatherConcat<T>(q: Query<T>, a: Snapshot, b: Snapshot, found: seq<T>)
    ensures var o := Gather(q, a, found);
      Gather(q, a + b, found) ==
        if o.MalformedData? || (a != [] && Enough(q, |o.items|)) then o else Gather(q, b, o.items)
  {
    if a == [] {
      assert a + b == b;
    } else {
      assert (a + b)[1..] == a[1..] + b;
      var t := q.decode(a[0]);
      if t.Some? && !Enough(q, |found| + 1) {
        GatherConcat(q, a[1..], b, found + [t.value]);
        if a[1..] == [] {
          assert Gather(q, a[1..], found + [t.value]) == Found(found + [t.value]);
        }
      }
    }
  }

  // ----- the answer, told by indices

  predicate Accepts<T>(q: Query<T>, e: Entry) {
    q.filter.Some? ==> q.filter.value(e)
  }

  // `at` lists, in increasing order, exactly the indices of accepted entries.
  ghost predicate Picks<T>(q: Query<T>, s: Snapshot, at: seq<nat>) {
    && (forall i, j :: 0 <= i < j < |at| ==> at[i] < at[j])
    && (forall k :: 0 <= k < |at| ==> at[k] < |s| && Accepts(q, s[at[k]]))
    && (forall i: nat :: i < |s| && Accepts(q, s[i]) ==> i in at)
  }

  ghost predicate KeptAt(kept: Snapshot, s: Snapshot, at: seq<nat>) {
    |kept| == |at| && forall k :: 0 <= k < |at| ==> at[k] < |s| && kept[k] == s[at[k]]
  }

  /** What matches is what is accepted, entry by entry. */
  lemma {:induction false} MatchingPicks<T>(q: Query<T>, s: Snapshot) returns (at: seq<nat>)
    ensures Picks(q, s, at) && KeptAt(Matching(q, s), s, at)
  {
    at := [];
    if s != [] {
      var n, next := |s| - 1, s[|s| - 1];
      MatchingLast(q, s[..n], next);
      at := MatchingPicks(q, s[..n]);
      hide Matching, Picks, KeptAt, Accepts;
      assert s == s[..n] + [next];
      PicksNext(q, s[..n], at, next);
      KeptNext(Matching(q, s[..n]), s[..n], at, next);
      at := if Accepts(q, next) then at + [n] else at;
    }
  }

  lemma MatchingLast<T>(q: Query<T>, s: Snapshot, next: Entry)
    ensures Matching(q, s + [next]) == if Accepts(q, next) then Matching(q, s) + [next] else Matching(q, s)
  {
    var last: Snapshot := [next];
    assert last[1..] == [];
    MatchingConcat(q, s, last);
  }

  lemma KeptNext(kept: Snapshot, s: Snapshot, at: seq<nat>, next: Entry)
    requires KeptAt(kept, s, at)
    ensures KeptAt(kept + [next], s + [next], at + [|s|]) && KeptAt(kept, s + [next], at)
  {
  }

  lemma PicksNext<T>(q: Query<T>, s: Snapshot, at: seq<nat>, next: Entry)
    requires Picks(q, s, at)
    ensures Accepts(q, next) ==> Picks(q, s + [next], at + [|s|])
    ensures !Accepts(q, next) ==> Picks(q, s + [next], at)
  {
    hide Accepts;
    var all := s + [next];
    assert all[|s|] == next;
    forall i: nat | i < |all| && Accepts(q, all[i]) ensures i in at || i == |s| {
      assert i < |s| ==> s[i] == all[i];
    }
    assert forall k :: 0 <= k < |at| ==> all[at[k]] == s[at[k]];
  }

  // How many of `m` entries are decoded when `f` have been found already: one at
  // least, since the count is compared only after an entry has been added.
  function Read<T>(q: Query<T>, m: nat, f: nat): nat {
    if q.count.None? then m else Min(Max(q.count.value - f, 1), m)
  }

  // The first n entries, all of which can be decoded, ...
  ghost predicate AllDecode<T>(q: Query<T>, m: Snapshot, n: nat)
    requires n <= |m|
  {
    forall k :: 0 <= k < n ==> q.decode(m[k]).Some?
  }

  // ... or one of them cannot, and it is the first.
  ghost predicate FirstMalformed<T>(q: Query<T>, m: Snapshot, n: nat, key: Bytes)
    requires n <= |m|
  {
    exists k :: 0 <= k < n && q.decode(m[k]).None? && m[k].0 == key && AllDecode(q, m, k)
  }

  ghost predicate Reads<T>(q: Query<T>, m: Snapshot, found: seq<T>, o: Outcome<T>) {
    var n := Read(q, |m|, |found|);
    match o
    case Found(items) =>
      && AllDecode(q, m, n) && |items| == |found| + n && found <= items
      && forall k :: 0 <= k < n ==> items[|found| + k] == q.decode(m[k]).value
    case MalformedData(key) => FirstMalformed(q, m, n, key)
  }

  lemma {:induction false} GatherReads<T>(q: Query<T>, m: Snapshot, found: seq<T>)
    ensures Reads(q, m, found, Gather(q, m, found))
  {
    if m != [] && q.decode(m[0]).Some? && !Enough(q, |found| + 1) {
      var t := q.decode(m[0]).value;
      GatherReads(q, m[1..], found + [t]);
      ReadsNext(q, m, found, t, Gather(q, m, found));
    } else if m != [] && q.decode(m[0]).None? {
      assert AllDecode(q, m, 0);
    }
  }

  lemma ReadsNext<T>(q: Query<T>, m: Snapshot, found: seq<T>, t: T, o: Outcome<T>)
    requires m != [] && q.decode(m[0]) == Some(t) && !Enough(q, |found| + 1) && Reads(q, m[1..], found + [t], o)
    ensures Reads(q, m, found, o)
  {
    var n := Read(q, |m|, |found|);
    assert n == 1 + Read(q, |m| - 1, |found| + 1);
    match o
    case Found(items) =>
      assert items[|found|] == (found + [t])[|found|] == t;
      forall k | 1 <= k < n ensures q.decode(m[k]).Some? && items[|found| + k] == q.decode(m[k]).value {
        assert m[1..][k - 1] == m[k] && items[|found + [t]| + (k - 1)] == items[|found| + k];
      }
    case MalformedData(key) =>
      var k :| 0 <= k < n - 1 && q.decode(m[1..][k]).None? && m[1..][k].0 == key && AllDecode(q, m[1..], k);
      forall j | 1 <= j < k + 1 ensures q.decode(m[j]).Some? {
        assert m[1..][j - 1] == m[j];
      }
      assert AllDecode(q, m, k + 1) && m[k + 1] == m[1..][k];
  }

  // The outcome of a scan over `s` whose accepted entries are at `at`.
  ghost predicate Delivers<T>(q: Query<T>, s: Snapshot, at: seq<nat>, o: Outcome<T>)
    requires forall k :: 0 <= k < |at| ==> at[k] < |s|
  {
    var n := Read(q, |at|, 0);
    match o
    case Found(items) =>
      && (forall k :: 0 <= k < n ==> q.decode(s[at[k]]).Some?)
      && |items| == (if q.count.None? then |at| else Min(q.count.value, |at|))
      && forall k :: 0 <= k < |items| ==> q.decode(s[at[k]]) == Some(items[k])
    case MalformedData(key) =>
      exists k :: 0 <= k < n && q.decode(s[at[k]]).None? && s[at[k]].0 == key
        && forall j :: 0 <= j < k ==> q.decode(s[at[j]]).Some?
  }

  // The first `count` accepted entries of `s`, decoded, or its first malformed one.
  ghost predicate Delivered<T>(q: Query<T>, s: Snapshot, o: Outcome<T>) {
    exists at :: Picks(q, s, at) && Delivers(q, s, at, o)
  }

  lemma KeptDelivers<T>(q: Query<T>, s: Snapshot, m: Snapshot, at: seq<nat>, o: Outcome<T>)
    requires KeptAt(m, s, at) && Reads(q, m, [], o)
    ensures Delivers(q, s, at, Truncate(q, o))
  {
    match o
    case Found(items) =>
      forall k | 0 <= k < Read(q, |at|, 0) ensures q.decode(s[at[k]]) == Some(items[k]) {
        assert items[0 + k] == q.decode(m[k]).value;
      }
    case MalformedData(key) =>
      var k :| 0 <= k < Read(q, |m|, 0) && q.decode(m[k]).None? && m[k].0 == key && AllDecode(q, m, k);
      assert s[at[k]].0 == key;
  }

  /** The answer is the decoding of the first `count` entries the filter accepts,
      in order; or, where one of them cannot be decoded, the first such key. */
  lemma AnswerDelivered<T>(q: Query<T>, s: Snapshot)
    ensures Delivered(q, s, Answer(q, s))
  {
    hide Gather, Matching, Delivers, Reads, Picks, Truncate;
    var at := MatchingPicks(q, s);
    GatherReads(q, Matching(q, s), []);
    KeptDelivers(q, s, Matching(q, s), at, Gather(q, Matching(q, s), []));
  }

  // ----- the source's loops

  const BATCH: nat := 1000

  // The number of entries asked for at a time; a count is cut to 32 bits.
  function FirstSize<T>(q: Query<T>): nat {
    if q.filter.None? && q.count.Some? then q.count.value % 0x1_0000_0000 else BATCH
  }

  function Fetch(s: Snapshot, r: Range, order: Order, size: nat): (batch: Snapshot)
    ensures |batch| <= size
  {
    var all := InOrder(s, r, order);
    if |all| <= size then all else all[..size]
  }

  method Retain<T>(q: Query<T>, batch: Snapshot) returns (kept: Snapshot)
    ensures kept == Matching(q, batch)
    ensures exists at :: Picks(q, batch, at) && KeptAt(kept, batch, at)
  {
    ghost var at := MatchingPicks(q, batch);
    hide Picks, KeptAt;
    if q.filter.None? {
      return batch;
    }
    kept := [];
    for i := 0 to |batch|
      invariant kept == Matching(q, batch[..i])
    {
      assert batch[..i + 1] == batch[..i] + [batch[i]];
      MatchingConcat(q, batch[..i], [batch[i]]);
      if q.filter.value(batch[i]) {
        kept := kept + [batch[i]];
      }
    }
    assert batch[..|batch|] == batch;
  }

  method DecodeBatch<T>(q: Query<T>, batch: Snapshot, found: seq<T>) returns (o: Outcome<T>, enough: bool)
    ensures o == Gather(q, batch, found)
    ensures enough <==> o.Found? && batch != [] && Enough(q, |o.items|)
  {
    var items := found;
    enough := false;
    for i := 0 to |batch|
      invariant Gather(q, batch, found) == Gather(q, batch[i..], items)
      invariant i > 0 ==> !Enough(q, |items|)
    {
      var t := q.decode(batch[i]);
      if t.None? {
        return MalformedData(batch[i].0), false;
      }
      items := items + [t.value];
      if Enough(q, |items|) {
        return Found(items), true;
      }
      assert batch[i..][1..] == batch[i + 1..];
    }
    o := Found(items);
  }

  // One batch further: what was found, and the range that is left.
  lemma BatchStep<T>(q: Query<T>, s: Snapshot, r: Range, order: Order, size: nat, found: seq<T>)
    requires Ascending(s) && Fetch(s, r, order, size) != []
    ensures var batch := Fetch(s, r, order, size);
      var rest := InOrder(s, After(r, batch[|batch| - 1].0, order), order);
      var o := Gather(q, Matching(q, batch), found);
      && InOrder(s, r, order) == batch + rest
      && (|batch| < size ==> rest == [])
      && Gather(q, Matching(q, InOrder(s, r, order)), found) ==
        if o.MalformedData? || (Matching(q, batch) != [] && Enough(q, |o.items|)) then o
        else Gather(q, Matching(q, rest), o.items)
  {
    hide InOrder, Ascending, Gather, Matching, After;
    var all, batch := InOrder(s, r, order), Fetch(s, r, order, size);
    ReadOn(s, r, order, |batch|);
    assert all == batch + all[|batch|..];
    MatchingConcat(q, batch, all[|batch|..]);
    GatherConcat(q, Matching(q, batch), Matching(q, all[|batch|..]), found);
  }

  /** The scan loop: batches that may come out too large and are then asked for
      again at half the size. `fails(i, size)` says that attempt i fails at that
      size. Unless the size sinks to zero, the result is the answer; at worst it
      is the answer for the entries read so far. */
  method Execute<T>(s: Snapshot, r: Range, order: Order, q: Query<T>, fails: (nat, nat) -> bool) returns (result: Outcome<T>)
    requires Ascending(s)
    ensures FirstSize(q) > 0 && (forall i :: !fails(i, 1)) ==>
      result == Answer(q, InOrder(s, r, order)) && Delivered(q, InOrder(s, r, order), result)
    ensures exists n :: 0 <= n <= |InOrder(s, r, order)| && result == Answer(q, InOrder(s, r, order)[..n])
    ensures FirstSize(q) == 0 ==> result == Found([])
  {
    hide Ascending, InOrder, Matching, Gather, FirstSize, After, Fetch, Enough, Delivered, Picks, KeptAt;
    AnswerDelivered(q, InOrder(s, r, order));
    var size: nat, attempt: nat, left := FirstSize(q), 0, r;
    var found: seq<T> := [];
    ghost var all := InOrder(s, r, order);
    ghost var read: nat := 0;
    ghost var sound := FirstSize(q) > 0 && forall i :: !fails(i, 1);
    ghost var goal := Gather(q, Matching(q, all), []);
    assert all[..0] == [] && all[0..] == all;
    NothingGathered(q);
    while true
      invariant read <= |all| && InOrder(s, left, order) == all[read..] && Reading(q, all[..read], found)
      invariant Gather(q, Matching(q, all[read..]), found) == goal
      invariant sound ==> size > 0
      invariant FirstSize(q) == 0 ==> size == 0 && found == []
      decreases |all| - read, size
    {
      hide Reading;
      if size > 0 && fails(attempt, size) {
        size, attempt := size / 2, attempt + 1;
        continue;
      }
      attempt := attempt + 1;
      var batch := Fetch(s, left, order, size);
      if batch == [] {
        if sound {
          NothingLeft(q, s, left, order, size, found);
        }
        break;
      }
      BatchStep(q, s, left, order, size, found);
      ReadFurther(q, all, read, batch, found);
      var kept := Retain(q, batch);
      var o, enough := DecodeBatch(q, kept, found);
      left := After(left, batch[|batch| - 1].0, order);
      read := read + |batch|;
      if o.MalformedData? {
        Answered(q, all, read, o);
        assert all[..|all|] == all;
        return o;
      }
      found := o.items;
      if enough || |batch| < size {
        if !enough {
          NothingMore(q, found);
        }
        Answered(q, all, read, o);
        return Truncate(q, o);
      }
    }
    ReadingFound(q, all[..read], found);
    Answered(q, all, read, Found(found));
    result := Truncate(q, Found(found));
  }

  // The entries read so far gave `found`, and that is not enough.
  ghost predicate Reading<T>(q: Query<T>, entries: Snapshot, found: seq<T>) {
    Gather(q, Matching(q, entries), []) == Found(found) && (Matching(q, entries) != [] ==> !Enough(q, |found|))
  }

  lemma ReadingFound<T>(q: Query<T>, entries: Snapshot, found: seq<T>)
    requires Reading(q, entries, found)
    ensures Gather(q, Matching(q, entries), []) == Found(found)
  {
  }

  lemma NothingMore<T>(q: Query<T>, found: seq<T>)
    ensures Gather(q, Matching(q, []), found) == Found(found)
  {
  }

  lemma Answered<T>(q: Query<T>, all: Snapshot, read: nat, o: Outcome<T>)
    requires read <= |all| && Gather(q, Matching(q, all[..read]), []) == o
    ensures exists n :: 0 <= n <= |all| && Truncate(q, o) == Answer(q, all[..n])
  {
    assert Truncate(q, o) == Answer(q, all[..read]);
  }

  lemma NothingGathered<T>(q: Query<T>)
    ensures Reading(q, [], [])
  {
  }

  lemma NothingLeft<T>(q: Query<T>, s: Snapshot, r: Range, order: Order, size: nat, found: seq<T>)
    requires size > 0 && Fetch(s, r, order, size) == []
    ensures InOrder(s, r, order) == [] && Gather(q, Matching(q, InOrder(s, r, order)), found) == Found(found)
  {
  }

  lemma ReadFurther<T>(q: Query<T>, all: Snapshot, read: nat, batch: Snapshot, found: seq<T>)
    requires read <= |all| && Reading(q, all[..read], found) && batch <= all[read..]
    ensures var next := read + |batch|;
      var o := Gather(q, Matching(q, batch), found);
      && next <= |all| && all[read..][|batch|..] == all[next..]
      && Gather(q, Matching(q, all[..next]), []) == o
      && (o.Found? && !(Matching(q, batch) != [] && Enough(q, |o.items|)) ==> Reading(q, all[..next], o.items))
  {
    hide Matching, Enough;
    var next := read + |batch|;
    assert all[..next] == all[..read] + batch;
    MatchingConcat(q, all[..read], batch);
    GatherConcat(q, Matching(q, all[..read]), Matching(q, batch), []);
    if Matching(q, batch) == [] {
      assert Matching(q, all[..read]) + [] == Matching(q, all[..read]);
    }
  }

  // ----- pages

  const MAX_PAGE: nat := 100

  datatype PageRequest = PageRequest(count: Option<nat>, order: Option<Order>, cursor: Option<Bytes>)
  datatype Page = InvalidPageSize | InvalidCursor | Page(count: nat, order: Order, range: Range)

  // The part of a range that a request asks for; a cursor is the last key seen.
  function PageRange(p: PageRequest, r: Range): Page {
    var count, order := p.count.GetOr(MAX_PAGE), p.order.GetOr(Asc);
    if count > MAX_PAGE || count == 0 then InvalidPageSize
    else if p.cursor.None? then Page(count, order, r)
    else if !(AtMost(r.start, p.cursor.value) && AtMost(p.cursor.value, r.end)) then InvalidCursor
    else Page(count, order, After(r, p.cursor.value, order))
  }

  /** A page never leaves the range it was asked for, whatever the cursor. */
  lemma PageWithin(p: PageRequest, r: Range, k: Bytes)
    requires PageRange(p, r).Page? && r.start != [] && r.end != []
    ensures var page := PageRange(p, r).range;
      InRange(k, page.start, page.end) ==> InRange(k, r.start, r.end)
  {
    var page := PageRange(p, r).range;
    if p.cursor.Some? && InRange(k, page.start, page.end) {
      var cursor := p.cursor.value;
      if p.order.GetOr(Asc).Asc? {
        Successor(cursor, k);
        if cursor != r.start {
          Transitive(r.start, cursor, k);
        }
      } else if cursor != r.end {
        Transitive(k, cursor, r.end);
      }
    }
  }

  function FirstOf(s: Snapshot, n: nat): Snapshot {
    if |s| <= n then s else s[..n]
  }

  // The entries of one page, without a filter.
  function PageEntries(s: Snapshot, p: PageRequest, r: Range): Snapshot {
    match PageRange(p, r)
    case Page(count, order, range) => FirstOf(InOrder(s, range, order), count)
    case _ => []
  }

  // All pages from a cursor on, each asked for with the last key of the one before.
  ghost function Pages(s: Snapshot, r: Range, count: nat, order: Order, cursor: Option<Bytes>, left: Snapshot): (all: Snapshot)
    decreases |left|
  {
    var page := PageEntries(s, PageRequest(Some(count), Some(order), cursor), r);
    if page == [] || |left| < |page| then [] else
      page + Pages(s, r, count, order, Some(page[|page| - 1].0), left[|page|..])
  }

  // A key of a bounded range is accepted as a cursor.
  lemma CursorAccepted(s: Snapshot, r: Range, order: Order, i: nat)
    requires Ascending(s) && r.end != [] && i < |InOrder(s, r, order)|
    ensures var k := InOrder(s, r, order)[i].0; AtMost(r.start, k) && AtMost(k, r.end)
  {
    hide Less, Position;
    var lo, slice := Position(s, r.start), Select(s, r);
    var j := if order.Asc? then i else |slice| - 1 - i;
    assert slice[j] == s[lo + j] == InOrder(s, r, order)[i];
    PositionSplits(s, r.start, lo + j);
    PositionSplits(s, r.end, lo + j);
    Comparable(s[lo + j].0, r.start);
  }

  /** Pages of any valid size, in either order, each resumed from the last key
      of the one before, concatenate to the whole range: nothing is skipped and
      nothing comes twice. */
  lemma PagesConcatenate(s: Snapshot, r: Range, count: nat, order: Order)
    requires Ascending(s) && r.end != [] && 0 < count <= MAX_PAGE
    ensures Pages(s, r, count, order, None, InOrder(s, r, order)) == InOrder(s, r, order)
  {
    PagesFrom(s, r, count, order, 0);
    var all := InOrder(s, r, order);
    assert all[0..] == all;
  }

  // The cursor after the first `n` entries.
  function CursorAt(all: Snapshot, n: nat): Option<Bytes>
    requires n <= |all|
  {
    if n == 0 then None else Some(all[n - 1].0)
  }

  lemma {:induction false} PagesFrom(s: Snapshot, r: Range, count: nat, order: Order, n: nat)
    requires Ascending(s) && r.end != [] && 0 < count <= MAX_PAGE && n <= |InOrder(s, r, order)|
    ensures var all := InOrder(s, r, order);
      Pages(s, r, count, order, CursorAt(all, n), all[n..]) == all[n..]
    decreases |InOrder(s, r, order)| - n
  {
    hide InOrder, Ascending, PageEntries;
    var all := InOrder(s, r, order);
    PageAt(s, r, count, order, n);
    var page := FirstOf(all[n..], count);
    if page != [] {
      var m := n + |page|;
      PagesFrom(s, r, count, order, m);
      assert page[|page| - 1] == all[m - 1] && all[n..][|page|..] == all[m..];
      assert all[n..] == page + all[m..];
    }
  }

  lemma PageAt(s: Snapshot, r: Range, count: nat, order: Order, n: nat)
    requires Ascending(s) && r.end != [] && 0 < count <= MAX_PAGE && n <= |InOrder(s, r, order)|
    ensures var all := InOrder(s, r, order);
      PageEntries(s, PageRequest(Some(count), Some(order), CursorAt(all, n)), r) == FirstOf(all[n..], count)
  {
    hide InOrder, Ascending, AtMost, After;
    var all := InOrder(s, r, order);
    if n == 0 {
      assert all[0..] == all;
    } else {
      CursorAccepted(s, r, order, n - 1);
      ReadOn(s, r, order, n);
    }
  }

  // ----- pages as they are answered

  predicate Decodable<T>(decode: Entry -> Option<T>, s: Snapshot) {
    forall i :: 0 <= i < |s| ==> decode(s[i]).Some?
  }

  function Decoded<T>(decode: Entry -> Option<T>, s: Snapshot): (items: seq<T>)
    requires Decodable(decode, s)
    ensures |items| == |s|
  {
    seq(|s|, i requires 0 <= i < |s| => decode(s[i]).value)
  }

  // A page is scanned without a filter.
  function PageQuery<T>(decode: Entry -> Option<T>, count: nat): Query<T> {
    Query(None, decode, Some(count))
  }

  /** Scanning for a page answers with its entries, decoded. */
  lemma AnswerIsFirst<T>(decode: Entry -> Option<T>, count: nat, s: Snapshot)
    requires 0 < count && Decodable(decode, s)
    ensures Answer(PageQuery(decode, count), s) == Found(Decoded(decode, FirstOf(s, count)))
  {
    var q := PageQuery(decode, count);
    assert Matching(q, s) == s;
    GatherReads(q, s, []);
    hide Gather;
    var items := Gather(q, s, []).items;
    forall k | 0 <= k < |items| ensures items[k] == Decoded(decode, FirstOf(s, count))[k] {
      assert items[0 + k] == q.decode(s[k]).value;
    }
  }

  // The answer to a request; None if its count or cursor is refused.
  function PageAnswer<T>(s: Snapshot, p: PageRequest, r: Range, decode: Entry -> Option<T>): Option<Outcome<T>> {
    match PageRange(p, r)
    case Page(count, order, range) => Some(Answer(PageQuery(decode, count), InOrder(s, range, order)))
    case _ => None
  }

  /** A page's count fits in 32 bits and is never cut, so the scan loop gives the
      answer. */
  method ReadPage<T>(s: Snapshot, p: PageRequest, r: Range, decode: Entry -> Option<T>, fails: (nat, nat) -> bool)
    returns (result: Option<Outcome<T>>)
    requires Ascending(s)
    ensures (forall i :: !fails(i, 1)) ==> result == PageAnswer(s, p, r, decode)
    ensures result.None? <==> PageAnswer(s, p, r, decode).None?
  {
    hide Ascending, InOrder, Answer, After, AtMost;
    match PageRange(p, r)
    case Page(count, order, range) =>
      var o := Execute(s, range, order, PageQuery(decode, count), fails);
      result := Some(o);
    case _ =>
      result := None;
  }

  // The pages a client gets when it asks for each with the key of the last
  // item of the one before.
  ghost function Answers<T>(s: Snapshot, r: Range, count: nat, order: Order, decode: Entry -> Option<T>, key: T -> Bytes,
                            cursor: Option<Bytes>, left: nat): seq<T>
    decreases left
  {
    var page := PageAnswer(s, PageRequest(Some(count), Some(order), cursor), r, decode);
    if page.None? || page.value.MalformedData? || page.value.items == [] || left < |page.value.items| then [] else
      var items := page.value.items;
      items + Answers(s, r, count, order, decode, key, Some(key(items[|items| - 1])), left - |items|)
  }

  predicate KeepsKeys<T>(decode: Entry -> Option<T>, key: T -> Bytes, s: Snapshot) {
    forall i :: 0 <= i < |s| ==> decode(s[i]).Some? && key(decode(s[i]).value) == s[i].0
  }

  lemma AnswerAt<T>(s: Snapshot, r: Range, count: nat, order: Order, decode: Entry -> Option<T>, n: nat)
    requires Ascending(s) && r.end != [] && 0 < count <= MAX_PAGE && n <= |InOrder(s, r, order)| && Decodable(decode, InOrder(s, r, order))
    ensures var all := InOrder(s, r, order);
      PageAnswer(s, PageRequest(Some(count), Some(order), CursorAt(all, n)), r, decode)
        == Some(Found(Decoded(decode, FirstOf(all[n..], count))))
  {
    hide InOrder, Ascending, AtMost, After, Answer;
    var all := InOrder(s, r, order);
    if n == 0 {
      assert all[0..] == all;
    } else {
      CursorAccepted(s, r, order, n - 1);
      ReadOn(s, r, order, n);
    }
    AnswerIsFirst(decode, count, all[n..]);
  }

  /** So the answers, too, concatenate to the whole range: every item once, in
      order, when every entry can be decoded and gives its key back. */
  lemma AnswersConcatenate<T>(s: Snapshot, r: Range, count: nat, order: Order, decode: Entry -> Option<T>, key: T -> Bytes)
    requires Ascending(s) && r.end != [] && 0 < count <= MAX_PAGE && KeepsKeys(decode, key, InOrder(s, r, order))
    ensures var all := InOrder(s, r, order);
      Answers(s, r, count, order, decode, key, None, |all|) == Decoded(decode, all)
  {
    AnswersFrom(s, r, count, order, decode, key, 0);
    var all := InOrder(s, r, order);
    assert all[0..] == all;
  }

  lemma {:induction false} AnswersFrom<T>(s: Snapshot, r: Range, count: nat, order: Order, decode: Entry -> Option<T>, key: T -> Bytes, n: nat)
    requires Ascending(s) && r.end != [] && 0 < count <= MAX_PAGE && KeepsKeys(decode, key, InOrder(s, r, order))
    requires n <= |InOrder(s, r, order)|
    ensures var all := InOrder(s, r, order);
      Answers(s, r, count, order, decode, key, CursorAt(all, n), |all| - n) == Decoded(decode, all[n..])
    decreases |InOrder(s, r, order)| - n
  {
    hide InOrder, Ascending, PageAnswer;
    var all := InOrder(s, r, order);
    AnswerAt(s, r, count, order, decode, n);
    var page := FirstOf(all[n..], count);
    if page != [] {
      var m, items := n + |page|, Decoded(decode, page);
      AnswersFrom(s, r, count, order, decode, key, m);
      assert page[|page| - 1] == all[m - 1];
      assert key(items[|items| - 1]) == all[m - 1].0;
      assert Decoded(decode, all[n..]) == items + Decoded(decode, all[m..]);
    }
  }

  /** A count that is a multiple of 2^32 is cut to zero, and the scan finds
      nothing although the range has an entry to give. */
  lemma CountIsCut<T>(q: Query<T>, e: Entry)
    requires q.filter.None? && q.count == Some(0x1_0000_0000) && q.decode(e).Some?
    ensures FirstSize(q) == 0 && Answer(q, [e]) != Found([])
  {
    assert Gather(q, [e], []) == Gather(q, [], [q.decode(e).value]);
  }

  // The range of a reducer's keys is bounded: its tag is not the largest byte.
  lemma {:induction false} ReducerRangeBounded(head: Bytes, tag: Byte, tail: Bytes)
    requires tag != 255
    ensures PrefixEnd(head + [tag] + tail) != []
  {
    if tail == [] {
      assert head + [tag] + tail == head + [tag];
    } else {
      var n := |tail| - 1;
      assert (head + [tag] + tail)[..|head| + 1 + n] == head + [tag] + tail[..n];
      ReducerRangeBounded(head, tag, tail[..n]);
    }
  }
}
