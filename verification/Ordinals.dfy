/** Ranges of ordinals: taking sats from the front of a queue of ranges, and
    the ranges that coinbases create. */
module Ordinals {
  import opened Chain

  // An inclusive range of ordinals.
  datatype OrdinalRange = OrdinalRange(lower: nat, upper: nat)

  datatype Error =
    | InvalidRange(lower: nat, upper: int)
    | InvalidSplit(range: OrdinalRange, size: nat)
    | InvalidTake(left: seq<OrdinalRange>, take: nat)

  datatype Result<T> = Ok(value: T) | Err(error: Error)

  // Never empty or inverted; far below the largest 64-bit number.
  predicate Proper(r: OrdinalRange) {
    r.lower <= r.upper < U64_MAX
  }

  predicate AllProper(q: seq<OrdinalRange>) {
    forall i :: 0 <= i < |q| ==> Proper(q[i])
  }

  function NewRange(lower: nat, upper: int): Result<OrdinalRange> {
    if upper < lower then Err(InvalidRange(lower, upper)) else Ok(OrdinalRange(lower, upper))
  }

  function Size(r: OrdinalRange): nat
    requires Proper(r)
  {
    r.upper + 1 - r.lower
  }

  function Split(r: OrdinalRange, size: nat): Result<(OrdinalRange, OrdinalRange)>
    requires Proper(r)
  {
    if size == 0 || size >= Size(r) then Err(InvalidSplit(r, size)) else
      var left, right := NewRange(r.lower, r.lower + size - 1), NewRange(r.lower + size, r.upper);
      if left.Err? then Err(left.error) else if right.Err? then Err(right.error) else Ok((left.value, right.value))
  }

  // ----- the sats of a queue, in order

  ghost function SatsOf(r: OrdinalRange): (s: seq<nat>)
    requires Proper(r)
    ensures |s| == Size(r)
  {
    seq(Size(r), i requires 0 <= i < Size(r) => r.lower + i)
  }

  ghost function Sats(q: seq<OrdinalRange>): seq<nat>
    requires AllProper(q)
  {
    if q == [] then [] else SatsOf(q[0]) + Sats(q[1..])
  }

  lemma {:induction false} SatsConcat(a: seq<OrdinalRange>, b: seq<OrdinalRange>)
    requires AllProper(a) && AllProper(b)
    ensures Sats(a + b) == Sats(a) + Sats(b)
  {
    if a == [] {
      assert a + b == b;
    } else {
      SatsConcat(a[1..], b);
      assert (a + b)[1..] == a[1..] + b;
    }
  }

  lemma SatsOne(r: OrdinalRange)
    requires Proper(r)
    ensures Sats([r]) == SatsOf(r)
  {
    assert Sats([r]) == SatsOf(r) + Sats([]);
  }

  /** A split falls apart into its first sats and the rest, and fails exactly
      when one part would be empty. */
  lemma SplitLaw(r: OrdinalRange, size: nat)
    requires Proper(r)
    ensures Split(r, size).Ok? <==> 0 < size < Size(r)
    ensures Split(r, size).Ok? ==>
      var (left, right) := Split(r, size).value;
      && Proper(left) && Proper(right) && Size(left) == size
      && SatsOf(left) + SatsOf(right) == SatsOf(r)
  {
  }

  class OrdinalRanges {
    var queue: seq<OrdinalRange>

    constructor ()
      ensures queue == []
    {
      queue := [];
    }

    /** Takes exactly the first `size` sats, in order, and leaves exactly the
        rest; fails, emptying the queue, exactly when there are fewer. */
    method Take(size: nat) returns (r: Result<seq<OrdinalRange>>)
      requires AllProper(queue)
      modifies this
      ensures AllProper(queue)
      ensures r.Ok? <==> size <= |Sats(old(queue))|
      ensures r.Ok? ==> AllProper(r.value) && |Sats(r.value)| == size && Sats(r.value) + Sats(queue) == Sats(old(queue))
      ensures r.Err? ==> queue == [] && r.error == InvalidTake([], size)
    {
      hide Sats, Split, Size;
      var need: nat, out: seq<OrdinalRange> := size, [];
      ghost var all := Sats(queue);
      TakeNone(queue, size);
      while need > 0
        invariant Taking(out, queue, need, size, all)
        decreases |queue|
      {
        if queue == [] {
          TakenAll(out, need, size, all);
          return Err(InvalidTake(queue, size));
        }
        var front := queue[0];
        assert [front] + queue[1..] == queue;
        queue := queue[1..];
        if Size(front) > need {
          TakePart(out, front, queue, need, size, all);
          var parts := Split(front, need).value;
          out := out + [parts.0];
          queue := [parts.1] + queue;
          return Ok(out);
        }
        TakeWhole(out, front, queue, need, size, all);
        need := need - Size(front);
        out := out + [front];
      }
      r := Ok(out);
    }
  }

  // What has been taken and what is left make up the whole.
  ghost predicate Taking(out: seq<OrdinalRange>, queue: seq<OrdinalRange>, need: nat, size: nat, all: seq<nat>) {
    && AllProper(queue) && AllProper(out)
    && Sats(out) + Sats(queue) == all && |Sats(out)| + need == size
  }

  lemma TakeNone(queue: seq<OrdinalRange>, size: nat)
    requires AllProper(queue)
    ensures Taking([], queue, size, size, Sats(queue))
  {
    assert [] + Sats(queue) == Sats(queue);
  }

  lemma TakenAll(out: seq<OrdinalRange>, need: nat, size: nat, all: seq<nat>)
    requires Taking(out, [], need, size, all)
    ensures |all| + need == size
  {
  }

  lemma TakeWhole(out: seq<OrdinalRange>, front: OrdinalRange, queue: seq<OrdinalRange>, need: nat, size: nat, all: seq<nat>)
    requires Taking(out, [front] + queue, need, size, all) && Proper(front) && Size(front) <= need
    ensures Taking(out + [front], queue, need - Size(front), size, all)
  {
    hide Sats;
    assert AllProper(queue) by {
      assert forall i :: 0 <= i < |queue| ==> queue[i] == ([front] + queue)[i + 1];
    }
    SatsConcat([front], queue);
    SatsConcat(out, [front]);
    SatsOne(front);
  }

  lemma TakePart(out: seq<OrdinalRange>, front: OrdinalRange, queue: seq<OrdinalRange>, need: nat, size: nat, all: seq<nat>)
    requires Taking(out, [front] + queue, need, size, all) && Proper(front) && 0 < need < Size(front)
    ensures Split(front, need).Ok?
    ensures var parts := Split(front, need).value; Taking(out + [parts.0], [parts.1] + queue, 0, size, all)
  {
    hide Sats, Split, Size;
    SplitLaw(front, need);
    var parts := Split(front, need).value;
    assert AllProper(queue) by {
      assert forall i :: 0 <= i < |queue| ==> queue[i] == ([front] + queue)[i + 1];
    }
    SatsConcat([front], queue);
    SatsConcat([parts.1], queue);
    SatsConcat(out, [parts.0]);
    SatsOne(front);
    SatsOne(parts.0);
    SatsOne(parts.1);
    var a, b, c, d := Sats(out), SatsOf(parts.0), SatsOf(parts.1), Sats(queue);
    assert a + ((b + c) + d) == (a + b) + (c + d);
  }

  // ----- coinbases

  // The first height without a subsidy, and the number of sats there will be.
  const LAST_HEIGHT: nat := 6_930_000
  const SUPPLY: nat := 2_099_999_997_690_000

  // The first ordinal of a height: everything created before it.
  function First(height: nat): nat {
    if height == 0 then 0 else First(height - 1) + BlockSubsidy(height - 1)
  }

  lemma {:induction false} HalveDown(n: nat, k: nat)
    ensures Halve(n, k + 1) == Halve(n, k) / 2
  {
    if k > 0 {
      HalveDown(n / 2, k - 1);
    }
  }

  lemma {:induction false} HalveFalls(n: nat, j: nat, k: nat)
    requires j <= k
    ensures Halve(n, k) <= Halve(n, j)
  {
    if j < k {
      HalveFalls(n, j, k - 1);
      HalveDown(n, k - 1);
    }
  }

  // All sats of the first k halvings.
  function Eras(k: nat): nat {
    if k == 0 then 0 else Eras(k - 1) + HALVING * Halve(5_000_000_000, k - 1)
  }

  lemma NextEra(k: nat, subsidy: nat, total: nat)
    requires Halve(5_000_000_000, k) == subsidy && Eras(k) == total
    ensures Halve(5_000_000_000, k + 1) == subsidy / 2 && Eras(k + 1) == total + HALVING * subsidy
  {
    HalveDown(5_000_000_000, k);
  }

  // Subsidy and total at the end of each era.
  lemma Era8()
    ensures Halve(5_000_000_000, 8) == 19_531_250 && Eras(8) == 2_091_796_875_000_000
  {
    assert Halve(5_000_000_000, 0) == 5_000_000_000 && Eras(0) == 0;
    hide Halve, Eras;
    NextEra(0, 5_000_000_000, 0);
    NextEra(1, 2_500_000_000, 1_050_000_000_000_000);
    NextEra(2, 1_250_000_000, 1_575_000_000_000_000);
    NextEra(3, 625_000_000, 1_837_500_000_000_000);
    NextEra(4, 312_500_000, 1_968_750_000_000_000);
    NextEra(5, 156_250_000, 2_034_375_000_000_000);
    NextEra(6, 78_125_000, 2_067_187_500_000_000);
    NextEra(7, 39_062_500, 2_083_593_750_000_000);
  }

  lemma Era16()
    ensures Halve(5_000_000_000, 16) == 76_293 && Eras(16) == 2_099_967_955_890_000
  {
    hide Halve, Eras;
    Era8();
    NextEra(8, 19_531_250, 2_091_796_875_000_000);
    NextEra(9, 9_765_625, 2_095_898_437_500_000);
    NextEra(10, 4_882_812, 2_097_949_218_750_000);
    NextEra(11, 2_441_406, 2_098_974_609_270_000);
    NextEra(12, 1_220_703, 2_099_487_304_530_000);
    NextEra(13, 610_351, 2_099_743_652_160_000);
    NextEra(14, 305_175, 2_099_871_825_870_000);
    NextEra(15, 152_587, 2_099_935_912_620_000);
  }

  lemma Era24()
    ensures Halve(5_000_000_000, 24) == 298 && Eras(24) == 2_099_999_873_370_000
  {
    hide Halve, Eras;
    Era16();
    NextEra(16, 76_293, 2_099_967_955_890_000);
    NextEra(17, 38_146, 2_099_983_977_420_000);
    NextEra(18, 19_073, 2_099_991_988_080_000);
    NextEra(19, 9536, 2_099_995_993_410_000);
    NextEra(20, 4768, 2_099_997_995_970_000);
    NextEra(21, 2384, 2_099_998_997_250_000);
    NextEra(22, 1192, 2_099_999_497_890_000);
    NextEra(23, 596, 2_099_999_748_210_000);
  }

  lemma Era32()
    ensures Halve(5_000_000_000, 32) == 1 && Eras(32) == 2_099_999_997_480_000
  {
    hide Halve, Eras;
    Era24();
    NextEra(24, 298, 2_099_999_873_370_000);
    NextEra(25, 149, 2_099_999_935_950_000);
    NextEra(26, 74, 2_099_999_967_240_000);
    NextEra(27, 37, 2_099_999_982_780_000);
    NextEra(28, 18, 2_099_999_990_550_000);
    NextEra(29, 9, 2_099_999_994_330_000);
    NextEra(30, 4, 2_099_999_996_220_000);
    NextEra(31, 2, 2_099_999_997_060_000);
  }

  lemma HalvingTable()
    ensures Halve(5_000_000_000, 32) == 1 && Halve(5_000_000_000, 33) == 0 && Eras(33) == SUPPLY
  {
    hide Halve, Eras;
    Era32();
    NextEra(32, 1, 2_099_999_997_480_000);
  }

  /** There is a subsidy exactly below height 6,930,000. */
  lemma SubsidyEnds(height: nat)
    ensures BlockSubsidy(height) > 0 <==> height < LAST_HEIGHT
  {
    HalvingTable();
    if height < LAST_HEIGHT {
      HalveFalls(5_000_000_000, height / HALVING, 32);
    } else {
      HalveFalls(5_000_000_000, 33, height / HALVING);
    }
  }

  // The cut at the 64th halving changes nothing: no sat is left by then.
  lemma SubsidyHalves(height: nat)
    ensures BlockSubsidy(height) == Halve(5_000_000_000, height / HALVING)
  {
    if height / HALVING >= 64 {
      HalvingTable();
      HalveFalls(5_000_000_000, 33, height / HALVING);
    }
  }

  lemma EraIndex(k: nat, i: nat)
    requires i < HALVING
    ensures (HALVING * k + i) / HALVING == k
  {
  }

  lemma {:induction false} FirstInEra(k: nat, base: nat, j: nat, s: nat)
    requires j <= HALVING && base == HALVING * k && s == Halve(5_000_000_000, k)
    ensures First(base + j) == First(base) + j * s
  {
    hide Halve, BlockSubsidy;
    if j > 0 {
      FirstInEra(k, base, j - 1, s);
      SubsidyHalves(base + j - 1);
      EraIndex(k, j - 1);
      OneMore(j - 1, s);
    }
  }

  lemma OneMore(j: nat, s: nat)
    ensures j * s + s == (j + 1) * s
  {
  }

  lemma {:induction false} FirstOfEra(k: nat)
    ensures First(HALVING * k) == Eras(k)
  {
    if k > 0 {
      FirstOfEra(k - 1);
      FirstInEra(k - 1, HALVING * (k - 1), HALVING, Halve(5_000_000_000, k - 1));
      assert HALVING * (k - 1) + HALVING == HALVING * k;
    }
  }

  lemma TotalSupply()
    ensures First(LAST_HEIGHT) == SUPPLY
  {
    hide First, Eras;
    HalvingTable();
    FirstOfEra(33);
  }

  lemma {:induction false} FirstGrows(h: nat, height: nat)
    requires h <= height
    ensures First(h) <= First(height)
  {
    if h < height {
      FirstGrows(h, height - 1);
    }
  }

  /** The source's loop. From height 6,930,000 on the range would be inverted. */
  method NewCoinbaseOrds(height: nat) returns (r: Result<OrdinalRange>)
    requires height < 64 * HALVING
    ensures r.Ok? <==> height < LAST_HEIGHT
    ensures r.Ok? ==> r.value.lower == First(height) && r.value.upper + 1 == First(height + 1)
    ensures r.Err? ==> r.error == InvalidRange(SUPPLY, SUPPLY - 1)
  {
    hide BlockSubsidy;
    var start := 0;
    for h := 0 to height
      invariant start == First(h)
    {
      start := start + BlockSubsidy(h);
    }
    SubsidyEnds(height);
    AfterTheLast(height);
    r := NewRange(start, start + BlockSubsidy(height) - 1);
  }

  lemma {:induction false} AfterTheLast(height: nat)
    ensures height >= LAST_HEIGHT ==> First(height) == SUPPLY
    decreases height
  {
    hide BlockSubsidy, First;
    if height == LAST_HEIGHT {
      TotalSupply();
    } else if height > LAST_HEIGHT {
      AfterTheLast(height - 1);
      SubsidyEnds(height - 1);
      FirstStep(height);
    }
  }

  lemma FirstStep(height: nat)
    requires height > 0
    ensures First(height) == First(height - 1) + BlockSubsidy(height - 1)
  {
  }

  /** Coinbase ranges tile the supply: the range of every height below
      6,930,000 is not empty, begins where the one before ended, and lies below
      2,099,999,997,690,000, so nothing overflows 64 bits. */
  lemma CoinbasesTile(height: nat)
    requires height < LAST_HEIGHT
    ensures First(height) < First(height + 1) <= SUPPLY < U64_MAX
    ensures First(0) == 0 && First(LAST_HEIGHT) == SUPPLY
  {
    SubsidyEnds(height);
    FirstGrows(height + 1, LAST_HEIGHT);
    TotalSupply();
  }

  /** So every sat below the supply belongs to the coinbase of one height, and
      to no other. */
  lemma {:induction false} SatHeight(sat: nat, height: nat) returns (h: nat)
    requires sat < First(height)
    ensures h < height && First(h) <= sat < First(h + 1)
  {
    if sat < First(height - 1) {
      h := SatHeight(sat, height - 1);
    } else {
      h := height - 1;
    }
  }

  lemma SatHeightUnique(sat: nat, g: nat, h: nat)
    requires First(g) <= sat < First(g + 1) && First(h) <= sat < First(h + 1)
    ensures g == h
  {
    if g < h {
      FirstGrows(g + 1, h);
    } else if h < g {
      FirstGrows(h + 1, g);
    }
  }
}
