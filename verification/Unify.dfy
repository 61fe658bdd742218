/** Choosing the block and the mempool view at which several instances are
    read together. */
module Unify {
  import opened Chain
  import opened Sorting

  type Hash = nat
  type Point = (nat, Hash)

  // A commit of an instance: a confirmed block, or a mempool view on a chain tip.
  datatype Entry = Entry(height: nat, hash: Hash, mempool: bool, commit: nat, tip: Point, view: nat)

  // The instances that are needed, in the order in which the map yields them.
  type Instances = seq<seq<Entry>>

  predicate IsBlock(e: Entry, p: Point) {
    !e.mempool && (e.height, e.hash) == p
  }

  predicate HasBlock(entries: seq<Entry>, p: Point) {
    exists i :: 0 <= i < |entries| && IsBlock(entries[i], p)
  }

  predicate Common(all: Instances, p: Point) {
    forall i :: 0 <= i < |all| ==> HasBlock(all[i], p)
  }

  // A common block of the greatest height; None only if there is none.
  ghost predicate BestCommon(all: Instances, r: Option<Point>) {
    match r
    case Some(p) => Common(all, p) && forall q: Point :: Common(all, q) ==> q.0 <= p.0
    case None => forall q: Point :: !Common(all, q)
  }

  /** Whichever instance comes first, the height is the same, and so is whether
      there is a common block at all. */
  lemma OrderIrrelevant(a: Instances, b: Instances, ra: Option<Point>, rb: Option<Point>)
    requires (forall x :: x in a <==> x in b) && BestCommon(a, ra) && BestCommon(b, rb)
    ensures ra.Some? <==> rb.Some?
    ensures ra.Some? ==> ra.value.0 == rb.value.0
  {
    forall p: Point ensures Common(a, p) <==> Common(b, p) {
      if Common(a, p) {
        SameCommon(a, b, p);
      }
      if Common(b, p) {
        SameCommon(b, a, p);
      }
    }
  }

  lemma SameCommon(a: Instances, b: Instances, p: Point)
    requires (forall x :: x in b ==> x in a) && Common(a, p)
    ensures Common(b, p)
  {
    forall i | 0 <= i < |b| ensures HasBlock(b[i], p) {
      assert b[i] in a;
    }
  }

  // ----- sorting by height and commit

  predicate Older(a: Entry, b: Entry) {
    a.height < b.height || (a.height == b.height && a.commit <= b.commit)
  }

  function SortEntries(s: seq<Entry>): seq<Entry> {
    Sort(Older, s)
  }

  predicate OldestFirst(s: seq<Entry>) {
    forall i, j :: 0 <= i < j < |s| ==> Older(s[i], s[j])
  }

  predicate NewestFirst(s: seq<Entry>) {
    forall i, j :: 0 <= i < j < |s| ==> Older(s[j], s[i])
  }

  lemma EntriesSorted(s: seq<Entry>)
    ensures OldestFirst(SortEntries(s)) && forall x :: x in SortEntries(s) <==> x in s
  {
    SortSorts(Older, s);
    SortMembers(Older, s);
  }

  // Sorted and reversed: the newest first.
  function Newest(s: seq<Entry>): (r: seq<Entry>)
    ensures NewestFirst(r) && forall x :: x in r <==> x in s
  {
    EntriesSorted(s);
    var t := SortEntries(s);
    var r := Reverse(t);
    assert forall x :: x in r ==> x in t;
    assert forall i :: 0 <= i < |t| ==> t[i] == r[|t| - 1 - i];
    r
  }

  function Blocks(s: seq<Entry>): (r: seq<Entry>)
    ensures forall x :: x in r <==> x in s && !x.mempool
  {
    if s == [] then [] else (if s[0].mempool then [] else [s[0]]) + Blocks(s[1..])
  }

  // ----- the best common block

  // Of the common blocks of its height, the instance committed `p` last.
  ghost predicate CommittedLast(all: Instances, entries: seq<Entry>, p: Point) {
    forall e :: e in entries && !e.mempool && e.height == p.0 && Common(all, (e.height, e.hash)) ==>
      CommittedSince(entries, p, e.commit)
  }

  predicate CommittedSince(entries: seq<Entry>, p: Point, commit: nat) {
    exists f :: f in entries && IsBlock(f, p) && commit <= f.commit
  }

  lemma NoEarlier(all: Instances, entries: seq<Entry>, p: Point, e: Entry) returns (f: Entry)
    requires CommittedLast(all, entries, p) && e in entries && !e.mempool && e.height == p.0 && Common(all, (e.height, e.hash))
    ensures f in entries && IsBlock(f, p) && e.commit <= f.commit
  {
    assert CommittedSince(entries, p, e.commit);
    f :| f in entries && IsBlock(f, p) && e.commit <= f.commit;
  }

  method FindBestCommonBlock(all: Instances) returns (best: Option<Point>)
    requires all != []
    ensures BestCommon(all, best)
    ensures best.Some? ==> CommittedLast(all, all[0], best.value)
  {
    var candidates := Newest(Blocks(all[0]));
    best := None;
    for c := 0 to |candidates|
      invariant forall i :: 0 <= i < c ==> !Common(all, (candidates[i].height, candidates[i].hash))
    {
      var p := (candidates[c].height, candidates[c].hash);
      var shared := SharedByAll(all, p);
      if shared {
        Highest(all, candidates, c);
        FirstIsLast(all, candidates, c);
        return Some(p);
      }
    }
    NoneCommon(all, candidates);
  }

  lemma FirstIsLast(all: Instances, candidates: seq<Entry>, c: nat)
    requires all != [] && NewestFirst(candidates) && (forall x :: x in candidates <==> x in Blocks(all[0])) && c < |candidates|
    requires forall i :: 0 <= i < c ==> !Common(all, (candidates[i].height, candidates[i].hash))
    ensures CommittedLast(all, all[0], (candidates[c].height, candidates[c].hash))
  {
    var p := (candidates[c].height, candidates[c].hash);
    assert candidates[c] in candidates && candidates[c] in all[0] && IsBlock(candidates[c], p);
    forall e | e in all[0] && !e.mempool && e.height == p.0 && Common(all, (e.height, e.hash))
      ensures CommittedSince(all[0], p, e.commit)
    {
      assert e in candidates;
      var i :| 0 <= i < |candidates| && candidates[i] == e;
      assert i >= c;
    }
  }

  // No two blocks of one height have the same commit.
  predicate DistinctCommits(entries: seq<Entry>) {
    forall e, f :: e in entries && f in entries && !e.mempool && !f.mempool && e.height == f.height && e.commit == f.commit ==>
      e.hash == f.hash
  }

  /** The block itself: what is found from one instance is also found from
      another, if and only if that one, too, committed it last of the common
      blocks of its height; so always where there is only one. */
  lemma SameBlock(all: Instances, a: seq<Entry>, b: seq<Entry>, p: Point, q: Point)
    requires a in all && b in all && DistinctCommits(b)
    requires BestCommon(all, Some(p)) && CommittedLast(all, a, p) && BestCommon(all, Some(q)) && CommittedLast(all, b, q)
    ensures p == q <==> CommittedLast(all, b, p)
    ensures (forall r: Point :: Common(all, r) && r.0 == p.0 ==> r == p) ==> p == q
  {
    hide CommittedLast, DistinctCommits;
    var i :| 0 <= i < |all| && all[i] == b;
    assert HasBlock(b, p) && HasBlock(b, q);
    hide Common, HasBlock;
    if CommittedLast(all, b, p) {
      LastIsOne(all, b, p, q);
    }
  }

  lemma LastIsOne(all: Instances, b: seq<Entry>, p: Point, q: Point)
    requires HasBlock(b, p) && HasBlock(b, q) && Common(all, p) && Common(all, q) && p.0 == q.0
    requires CommittedLast(all, b, p) && CommittedLast(all, b, q) && DistinctCommits(b)
    ensures p == q
  {
    hide Common, HasBlock, CommittedLast, CommittedSince;
    var e := LastOf(b, q);
    var f := NoEarlier(all, b, p, e);
    var g := NoEarlier(all, b, q, f);
  }

  lemma {:induction false} LastOf(entries: seq<Entry>, p: Point) returns (e: Entry)
    requires HasBlock(entries, p)
    ensures e in entries && IsBlock(e, p) && forall f :: f in entries && IsBlock(f, p) ==> f.commit <= e.commit
  {
    var front, last := entries[..|entries| - 1], entries[|entries| - 1];
    assert forall f :: f in entries <==> f in front || f == last;
    if HasBlock(front, p) {
      e := LastOf(front, p);
      if IsBlock(last, p) && last.commit > e.commit {
        e := last;
      }
    } else {
      e := last;
      forall f | f in front ensures !IsBlock(f, p) {
        var i :| 0 <= i < |front| && front[i] == f;
      }
    }
  }

  const ONE_WAY := [Entry(5, 1, false, 1, (0, 0), 0), Entry(5, 2, false, 2, (0, 0), 0)]
  const OTHER_WAY := [Entry(5, 1, false, 2, (0, 0), 0), Entry(5, 2, false, 1, (0, 0), 0)]

  /** Otherwise the order of the map decides: two common blocks of height 5 that
      two instances committed in opposite order. */
  lemma OrderDecides()
    ensures var all := [ONE_WAY, OTHER_WAY];
      && BestCommon(all, Some((5, 2))) && CommittedLast(all, ONE_WAY, (5, 2))
      && BestCommon(all, Some((5, 1))) && CommittedLast(all, OTHER_WAY, (5, 1))
  {
    var all := [ONE_WAY, OTHER_WAY];
    BothHaveBoth();
    assert Common(all, (5, 1)) && Common(all, (5, 2));
    forall q: Point | Common(all, q) ensures q.0 <= 5 {
      assert HasBlock(all[0], q);
    }
    hide Common;
    assert IsBlock(ONE_WAY[1], (5, 2)) && ONE_WAY[1] in ONE_WAY;
    assert IsBlock(OTHER_WAY[0], (5, 1)) && OTHER_WAY[0] in OTHER_WAY;
  }

  lemma BothHaveBoth()
    ensures HasBlock(ONE_WAY, (5, 1)) && HasBlock(ONE_WAY, (5, 2)) && HasBlock(OTHER_WAY, (5, 1)) && HasBlock(OTHER_WAY, (5, 2))
  {
    assert IsBlock(ONE_WAY[0], (5, 1)) && IsBlock(ONE_WAY[1], (5, 2));
    assert IsBlock(OTHER_WAY[0], (5, 1)) && IsBlock(OTHER_WAY[1], (5, 2));
  }

  // Whether every instance has the block.
  method SharedByAll(all: Instances, p: Point) returns (shared: bool)
    ensures shared <==> Common(all, p)
  {
    for i := 0 to |all|
      invariant forall j :: 0 <= j < i ==> HasBlock(all[j], p)
    {
      if !HasBlock(all[i], p) {
        return false;
      }
    }
    shared := true;
  }

  // A common block is among the candidates of the first instance.
  lemma IsCandidate(all: Instances, candidates: seq<Entry>, q: Point) returns (i: nat)
    requires all != [] && Common(all, q) && forall x :: x in candidates <==> x in Blocks(all[0])
    ensures i < |candidates| && (candidates[i].height, candidates[i].hash) == q
  {
    var j :| 0 <= j < |all[0]| && IsBlock(all[0][j], q);
    assert all[0][j] in candidates;
    i :| 0 <= i < |candidates| && candidates[i] == all[0][j];
  }

  lemma Highest(all: Instances, candidates: seq<Entry>, c: nat)
    requires all != [] && NewestFirst(candidates) && (forall x :: x in candidates <==> x in Blocks(all[0])) && c < |candidates|
    requires forall i :: 0 <= i < c ==> !Common(all, (candidates[i].height, candidates[i].hash))
    ensures forall q: Point :: Common(all, q) ==> q.0 <= candidates[c].height
  {
    forall q: Point | Common(all, q) ensures q.0 <= candidates[c].height {
      var i := IsCandidate(all, candidates, q);
    }
  }

  lemma NoneCommon(all: Instances, candidates: seq<Entry>)
    requires all != [] && forall x :: x in candidates <==> x in Blocks(all[0])
    requires forall i :: 0 <= i < |candidates| ==> !Common(all, (candidates[i].height, candidates[i].hash))
    ensures forall q: Point :: !Common(all, q)
  {
    forall q: Point ensures !Common(all, q) {
      if Common(all, q) {
        var i := IsCandidate(all, candidates, q);
      }
    }
  }

  /** The commit at which an instance is then read: there is one, and it is the
      latest of that block. */
  method LatestCommit(entries: seq<Entry>, p: Point) returns (commit: nat)
    requires HasBlock(entries, p)
    ensures exists e :: e in entries && IsBlock(e, p) && e.commit == commit
    ensures forall e :: e in entries && IsBlock(e, p) ==> e.commit <= commit
  {
    var sorted := Newest(entries);
    var j :| 0 <= j < |entries| && IsBlock(entries[j], p);
    assert entries[j] in sorted;
    var i := 0;
    while !IsBlock(sorted[i], p)
      invariant 0 <= i < |sorted|
      invariant forall k :: 0 <= k < i ==> !IsBlock(sorted[k], p)
      invariant exists k :: i <= k < |sorted| && sorted[k] == entries[j]
      decreases |sorted| - i
    {
      i := i + 1;
    }
    commit := sorted[i].commit;
    assert sorted[i] in entries;
    forall e | e in entries && IsBlock(e, p) ensures e.commit <= commit {
      assert e in sorted;
      var k :| 0 <= k < |sorted| && sorted[k] == e;
    }
  }

  // ----- a common block at a height

  // The first common block of the height in the order of the first instance.
  ghost predicate FirstAt(all: Instances, height: nat, found: Option<Point>)
    requires all != []
  {
    match found
    case Some(p) =>
      && p.0 == height && Common(all, p)
      && exists i :: 0 <= i < |all[0]| && IsBlock(all[0][i], p) && NoneBefore(all, all[0][..i], height)
    case None => forall q: Point :: q.0 == height ==> !Common(all, q)
  }

  predicate NoneBefore(all: Instances, entries: seq<Entry>, height: nat) {
    forall j :: 0 <= j < |entries| && !entries[j].mempool && entries[j].height == height ==> !Common(all, (height, entries[j].hash))
  }

  method FindCommonBlockAtHeight(all: Instances, height: nat) returns (found: Option<Point>)
    ensures if all == [] then found.None? else FirstAt(all, height, found)
  {
    if all == [] {
      return None;
    }
    var entries := all[0];
    for c := 0 to |entries|
      invariant NoneBefore(all, entries[..c], height)
    {
      if !entries[c].mempool && entries[c].height == height {
        var shared := SharedByAll(all, (height, entries[c].hash));
        if shared {
          assert IsBlock(all[0][c], (height, entries[c].hash)) && NoneBefore(all, all[0][..c], height);
          return Some((height, entries[c].hash));
        }
      }
      assert entries[..c + 1] == entries[..c] + [entries[c]];
    }
    assert entries[..|entries|] == entries;
    assert forall q: Point :: q.0 == height ==> !Common(all, q);
    found := None;
  }

  // ----- the best common mempool view on a chain tip

  predicate IsView(e: Entry, tip: Point, view: nat) {
    e.mempool && e.tip == tip && e.view == view
  }

  predicate HasView(entries: seq<Entry>, tip: Point, view: nat) {
    exists i :: 0 <= i < |entries| && IsView(entries[i], tip, view)
  }

  predicate CommonView(all: Instances, tip: Point, view: nat) {
    forall i :: 0 <= i < |all| ==> HasView(all[i], tip, view)
  }

  ghost predicate BestView(all: Instances, tip: Point, r: Option<nat>) {
    match r
    case Some(v) => CommonView(all, tip, v) && forall w: nat :: CommonView(all, tip, w) ==> w <= v
    case None => forall w: nat :: !CommonView(all, tip, w)
  }

  predicate AtMost(a: nat, b: nat) {
    a <= b
  }

  function SortViews(s: seq<nat>): seq<nat> {
    Sort(AtMost, s)
  }

  function Dedup(s: seq<nat>): seq<nat> {
    if |s| <= 1 then s else if s[0] == s[1] then Dedup(s[1..]) else [s[0]] + Dedup(s[1..])
  }

  predicate Ascends(s: seq<nat>) {
    forall i, j :: 0 <= i < j < |s| ==> s[i] <= s[j]
  }

  lemma ViewsSorted(s: seq<nat>)
    ensures Ascends(SortViews(s)) && forall x :: x in SortViews(s) <==> x in s
  {
    SortSorts(AtMost, s);
    SortMembers(AtMost, s);
  }

  lemma {:induction false} DedupKeeps(s: seq<nat>)
    requires Ascends(s)
    ensures Ascends(Dedup(s)) && forall x :: x in Dedup(s) <==> x in s
  {
    if |s| > 1 {
      DedupKeeps(s[1..]);
      var r := Dedup(s[1..]);
      assert s == [s[0]] + s[1..];
      forall i | 0 <= i < |r| ensures s[0] <= r[i] {
        assert r[i] in r && r[i] in s[1..];
      }
      if s[0] == s[1] {
        assert s[1] in s[1..];
      }
    }
  }

  function ViewsOn(entries: seq<Entry>, tip: Point): seq<nat> {
    if entries == [] then [] else
      (if entries[0].mempool && entries[0].tip == tip then [entries[0].view] else []) + ViewsOn(entries[1..], tip)
  }

  lemma {:induction false} ViewsOnAre(entries: seq<Entry>, tip: Point, v: nat)
    ensures v in ViewsOn(entries, tip) <==> HasView(entries, tip, v)
  {
    if entries != [] {
      ViewsOnAre(entries[1..], tip, v);
      if HasView(entries[1..], tip, v) {
        var i :| 0 <= i < |entries[1..]| && IsView(entries[1..][i], tip, v);
        assert IsView(entries[i + 1], tip, v);
      }
      if HasView(entries, tip, v) && !IsView(entries[0], tip, v) {
        var i :| 0 <= i < |entries| && IsView(entries[i], tip, v);
        assert IsView(entries[1..][i - 1], tip, v);
      }
    }
  }

  // The views of one instance on a tip, the latest first, none twice.
  function AvailableViews(entries: seq<Entry>, tip: Point): seq<nat> {
    Reverse(Dedup(SortViews(ViewsOn(entries, tip))))
  }

  lemma AvailableViewsAre(entries: seq<Entry>, tip: Point)
    ensures var views := AvailableViews(entries, tip);
      && (forall v: nat :: v in views <==> HasView(entries, tip, v))
      && (forall i, j :: 0 <= i < j < |views| ==> views[i] >= views[j])
  {
    hide SortViews, Dedup, ViewsOn, HasView;
    var found := ViewsOn(entries, tip);
    ViewsSorted(found);
    DedupKeeps(SortViews(found));
    var unique := Dedup(SortViews(found));
    var views := Reverse(unique);
    assert forall i :: 0 <= i < |unique| ==> unique[i] == views[|unique| - 1 - i];
    forall v: nat ensures v in views <==> HasView(entries, tip, v) {
      ViewsOnAre(entries, tip, v);
      assert v in views <==> v in unique;
    }
  }

  method FindBestCommonMempoolView(all: Instances, tip: Point) returns (best: Option<nat>)
    requires all != []
    ensures BestView(all, tip, best)
  {
    hide AvailableViews, HasView;
    var candidates := AvailableViews(all[0], tip);
    AvailableViewsAre(all[0], tip);
    for c := 0 to |candidates|
      invariant forall i :: 0 <= i < c ==> !CommonView(all, tip, candidates[i])
    {
      var shared := ViewSharedByAll(all, tip, candidates[c]);
      if shared {
        return Some(candidates[c]);
      }
    }
    best := None;
  }

  method ViewSharedByAll(all: Instances, tip: Point, view: nat) returns (shared: bool)
    ensures shared <==> CommonView(all, tip, view)
  {
    hide HasView;
    for i := 0 to |all|
      invariant forall j :: 0 <= j < i ==> HasView(all[j], tip, view)
    {
      if !HasView(all[i], tip, view) {
        return false;
      }
    }
    shared := true;
  }

  // ----- the point at which everything is read

  // What is chosen when `p` is the best common block, `v` its best view, and
  // `below` the first common block one below.
  ghost predicate Chosen(all: Instances, p: Point, v: Option<nat>, below: Option<Point>, tip: Point, view: Option<nat>)
    requires all != []
  {
    && BestCommon(all, Some(p)) && CommittedLast(all, all[0], p) && BestView(all, p, v)
    && if v.Some? then tip == p && view == v
       else
         && FirstAt(all, if p.0 == 0 then 0 else p.0 - 1, below)
         && if below.Some? && !BestView(all, below.value, None) then tip == below.value && view.Some? && BestView(all, tip, view)
            else tip == p && view.None?
  }

  /** The best common block with its best mempool view; if and only if it has
      none, the first common block one below with its best view; if that has
      none either, the best block alone. Whatever is chosen is common to all
      instances. */
  method ChoosePoint(all: Instances) returns (point: Option<(Point, Option<nat>)>)
    requires all != []
    ensures point.None? <==> forall q: Point :: !Common(all, q)
    ensures point.Some? ==>
      var (tip, view) := point.value;
      && Common(all, tip)
      && (forall q: Point :: Common(all, q) ==> q.0 <= tip.0 + 1)
      && exists p, v, below :: Chosen(all, p, v, below, tip, view)
  {
    hide Common, CommonView, CommittedLast, NoneBefore;
    var best := FindBestCommonBlock(all);
    if best.None? {
      return None;
    }
    var p := best.value;
    var view := FindBestCommonMempoolView(all, p);
    if view.Some? {
      assert Chosen(all, p, view, None, p, view);
      return Some((p, view));
    }
    var fallback := FindCommonBlockAtHeight(all, if p.0 == 0 then 0 else p.0 - 1);
    if fallback.Some? {
      var older := FindBestCommonMempoolView(all, fallback.value);
      if older.Some? {
        assert Chosen(all, p, None, fallback, fallback.value, older);
        return Some((fallback.value, older));
      }
    }
    assert Chosen(all, p, None, fallback, p, None);
    point := Some((p, None));
  }
}
