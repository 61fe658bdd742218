/** How inscribed sats move through one transaction: first in, first out. */
module Inscriptions {
  import opened Chain
  import opened Sorting

  datatype Origin = Old | New(pointer: Option<nat>, unbound: bool, cursed: bool, vindicated: bool)

  // An inscription looking for its output; `offset` counts sats from the
  // transaction's first input (or from the start of the block reward).
  datatype Flotsam = Flotsam(id: InscriptionId, offset: nat, origin: Origin)

  datatype SatPoint = SatPoint(outpoint: OutPoint, offset: nat)

  datatype Counters = Counters(cursed: nat, blessed: nat, next: nat, lost: nat, unbound: nat)

  // A resolved input; a coinbase input brings the subsidy and no inscriptions.
  datatype Input = Subsidy(value: nat) | Spent(body: TxoBody) {
    function Value(): nat {
      match this
      case Subsidy(v) => v
      case Spent(b) => b.value
    }
  }

  type Outgoing = seq<(SatPoint, InscriptionId)>

  function InputValue(inputs: seq<Input>): nat {
    if inputs == [] then 0 else InputValue(inputs[..|inputs| - 1]) + inputs[|inputs| - 1].Value()
  }

  function OutputValue(outputs: seq<TxOut>): nat {
    if outputs == [] then 0 else OutputValue(outputs[..|outputs| - 1]) + outputs[|outputs| - 1].value
  }

  // ----- collecting the floating inscriptions

  function OldFlotsam(held: seq<(nat, InscriptionId)>, base: nat): (fs: seq<Flotsam>)
    ensures |fs| == |held|
  {
    seq(|held|, j requires 0 <= j < |held| => Flotsam(held[j].1, base + held[j].0, Old))
  }

  // The first envelope at or after `pos` that does not belong to `input`.
  function EnvelopeEnd(envelopes: seq<Envelope>, pos: nat, input: nat): (end: nat)
    requires pos <= |envelopes|
    ensures pos <= end <= |envelopes|
    decreases |envelopes| - pos
  {
    if pos < |envelopes| && envelopes[pos].input == input
    then EnvelopeEnd(envelopes, pos + 1, input) else pos
  }

  // The flotsam of envelope number `pos`, revealed by an input of `value` sats
  // that starts at sat `base`.
  function NewFlotsam(tx: Tx, pos: nat, base: nat, value: nat): (f: Flotsam)
    requires pos < |tx.envelopes|
    ensures f.origin.New? && f.id == InscriptionId(tx.id, pos)
  {
    var e := tx.envelopes[pos];
    Flotsam(InscriptionId(tx.id, pos),
            if e.pointer.Some? && e.pointer.value < OutputValue(tx.outputs) then e.pointer.value else base,
            New(e.pointer, value == 0 || e.unrecognizedEvenField, e.cursed, e.vindicated))
  }

  function NewFlotsams(tx: Tx, pos: nat, end: nat, base: nat, value: nat): (fs: seq<Flotsam>)
    requires pos <= end <= |tx.envelopes|
    ensures |fs| == end - pos
  {
    seq(end - pos, j requires 0 <= j < end - pos => NewFlotsam(tx, pos + j, base, value))
  }

  lemma NewFlotsamsAre(tx: Tx, pos: nat, end: nat, base: nat, value: nat)
    requires pos <= end <= |tx.envelopes|
    ensures forall f :: f in NewFlotsams(tx, pos, end, base, value) ==>
      f.origin.New? && f.id.txid == tx.id && pos <= f.id.index < end
  {
    var fs := NewFlotsams(tx, pos, end, base, value);
    forall f | f in fs ensures f.origin.New? && f.id.txid == tx.id && pos <= f.id.index < end {
      var j :| 0 <= j < |fs| && fs[j] == f;
      assert fs[j] == NewFlotsam(tx, pos + j, base, value);
    }
  }

  // The envelope reached after the first `k` inputs.
  function EnvelopesBefore(tx: Tx, inputs: seq<Input>, k: nat): (pos: nat)
    requires k <= |inputs|
    ensures pos <= |tx.envelopes|
  {
    if k == 0 then 0
    else if inputs[k - 1].Subsidy? then EnvelopesBefore(tx, inputs, k - 1)
    else EnvelopeEnd(tx.envelopes, EnvelopesBefore(tx, inputs, k - 1), k - 1)
  }

  // Everything floating after the first `k` inputs.
  function Floating(tx: Tx, inputs: seq<Input>, k: nat): seq<Flotsam>
    requires k <= |inputs|
  {
    if k == 0 then [] else
      match inputs[k - 1]
      case Subsidy(_) => Floating(tx, inputs, k - 1)
      case Spent(body) =>
        var base := InputValue(inputs[..k - 1]);
        Floating(tx, inputs, k - 1)
        + OldFlotsam(body.inscriptions, base)
        + NewFlotsams(tx, EnvelopesBefore(tx, inputs, k - 1), EnvelopesBefore(tx, inputs, k), base, body.value)
  }

  // ----- ordering by offset, stable

  predicate ByOffset(a: Flotsam, b: Flotsam) {
    a.offset <= b.offset
  }

  function SortByOffset(fs: seq<Flotsam>): seq<Flotsam> {
    Sort(ByOffset, fs)
  }

  predicate Ordered(fs: seq<Flotsam>) {
    forall i, j :: 0 <= i < j < |fs| ==> fs[i].offset <= fs[j].offset
  }

  // The flotsam on one sat, in their order.
  function OnSat(fs: seq<Flotsam>, offset: nat): seq<Flotsam> {
    if fs == [] then [] else (if fs[0].offset == offset then [fs[0]] else []) + OnSat(fs[1..], offset)
  }

  lemma {:induction false} OnSatTies(fs: seq<Flotsam>, x: Flotsam)
    ensures Ties(ByOffset, x, fs) == OnSat(fs, x.offset)
  {
    if fs != [] {
      OnSatTies(fs[1..], x);
    }
  }

  /** The queue is a permutation ordered by offset, and flotsam on the same sat
      keep the order they were collected in. */
  lemma SortSpec(fs: seq<Flotsam>)
    ensures Ordered(SortByOffset(fs))
    ensures multiset(SortByOffset(fs)) == multiset(fs)
    ensures forall offset: nat :: OnSat(SortByOffset(fs), offset) == OnSat(fs, offset)
  {
    SortSorts(ByOffset, fs);
    forall offset: nat ensures OnSat(SortByOffset(fs), offset) == OnSat(fs, offset) {
      var x := Flotsam(InscriptionId(0, 0), offset, Old);
      SortStable(ByOffset, fs, x);
      OnSatTies(fs, x);
      OnSatTies(SortByOffset(fs), x);
    }
  }

  // ----- which output holds a sat

  // Output number and offset inside it of the transaction's sat `offset`.
  function Locate(outputs: seq<TxOut>, offset: nat): (p: (nat, nat))
    requires offset < OutputValue(outputs)
    ensures p.0 < |outputs| && p.1 < outputs[p.0].value
    ensures OutputValue(outputs[..p.0]) + p.1 == offset
  {
    var n := |outputs| - 1;
    if offset >= OutputValue(outputs[..n]) then (n, offset - OutputValue(outputs[..n]))
    else
      var p := Locate(outputs[..n], offset);
      assert outputs[..n][..p.0] == outputs[..p.0];
      p
  }

  lemma {:induction false} OutputValueMonotone(outputs: seq<TxOut>, a: nat, b: nat)
    requires a <= b <= |outputs|
    ensures OutputValue(outputs[..a]) <= OutputValue(outputs[..b])
  {
    if a < b {
      OutputValueMonotone(outputs, a, b - 1);
      assert outputs[..b][..b - 1] == outputs[..b - 1];
    }
  }

  lemma OutputValueStep(outputs: seq<TxOut>, v: nat)
    requires v < |outputs|
    ensures OutputValue(outputs[..v + 1]) == OutputValue(outputs[..v]) + outputs[v].value <= OutputValue(outputs)
  {
    assert outputs[..v + 1][..v] == outputs[..v];
    OutputValueMonotone(outputs, v + 1, |outputs|);
    assert outputs[..|outputs|] == outputs;
  }

  // No other output holds that sat.
  lemma LocateUnique(outputs: seq<TxOut>, offset: nat, vout: nat)
    requires offset < OutputValue(outputs) && vout < |outputs|
    requires OutputValue(outputs[..vout]) <= offset < OutputValue(outputs[..vout + 1])
    ensures Locate(outputs, offset) == (vout, offset - OutputValue(outputs[..vout]))
  {
    var p := Locate(outputs, offset);
    assert outputs[..p.0 + 1][..p.0] == outputs[..p.0];
    assert outputs[..vout + 1][..vout] == outputs[..vout];
    if p.0 < vout {
      OutputValueMonotone(outputs, p.0 + 1, vout);
    } else if vout < p.0 {
      OutputValueMonotone(outputs, vout + 1, p.0);
    }
  }

  function PointAt(tx: Tx, offset: nat): SatPoint
    requires offset < OutputValue(tx.outputs)
  {
    var p := Locate(tx.outputs, offset);
    SatPoint(OutPoint(tx.id, p.0), p.1)
  }

  // How many of the ordered flotsam fall into the outputs.
  function InsideCount(fs: seq<Flotsam>, value: nat): (k: nat)
    ensures k <= |fs|
    ensures forall i :: 0 <= i < k ==> fs[i].offset < value
    ensures k < |fs| ==> fs[k].offset >= value
  {
    if fs == [] || fs[0].offset >= value then 0 else 1 + InsideCount(fs[1..], value)
  }

  // The sweep: each flotsam inside the outputs, with the sat it lands on.
  function Swept(tx: Tx, fs: seq<Flotsam>): (located: seq<(SatPoint, Flotsam)>)
    requires forall i :: 0 <= i < |fs| ==> fs[i].offset < OutputValue(tx.outputs)
    ensures |located| == |fs|
  {
    seq(|fs|, i requires 0 <= i < |fs| => (PointAt(tx, fs[i].offset), fs[i]))
  }

  // Takes the flotsam that fall into output `vout`, which starts at `value`.
  method SweepOutput(tx: Tx, fs: seq<Flotsam>, k0: nat, vout: nat, value: nat)
    returns (k: nat, located: seq<(SatPoint, Flotsam)>)
    requires vout < |tx.outputs| && value == OutputValue(tx.outputs[..vout])
    requires value + tx.outputs[vout].value <= OutputValue(tx.outputs)
    requires Ordered(fs) && k0 <= |fs| && (k0 < |fs| ==> fs[k0].offset >= value)
    ensures k0 <= k <= |fs|
    ensures forall i :: k0 <= i < k ==> fs[i].offset < value + tx.outputs[vout].value
    ensures k < |fs| ==> fs[k].offset >= value + tx.outputs[vout].value
    ensures located == Swept(tx, fs[k0..k])
  {
    k, located := k0, [];
    var end := value + tx.outputs[vout].value;
    OutputValueStep(tx.outputs, vout);
    while k < |fs| && fs[k].offset < end
      invariant k0 <= k <= |fs|
      invariant forall i :: k0 <= i < k ==> fs[i].offset < end
      invariant located == Swept(tx, fs[k0..k])
    {
      LocateUnique(tx.outputs, fs[k].offset, vout);
      located := located + [(SatPoint(OutPoint(tx.id, vout), fs[k].offset - value), fs[k])];
      k := k + 1;
    }
  }

  lemma SweptConcat(tx: Tx, a: seq<Flotsam>, b: seq<Flotsam>)
    requires forall i :: 0 <= i < |a| ==> a[i].offset < OutputValue(tx.outputs)
    requires forall i :: 0 <= i < |b| ==> b[i].offset < OutputValue(tx.outputs)
    ensures Swept(tx, a) + Swept(tx, b) == Swept(tx, a + b)
  {
  }

  // The state of the sweep after `vout` outputs: the first `k` flotsam are placed.
  ghost predicate SweptTo(tx: Tx, fs: seq<Flotsam>, vout: nat, value: nat, k: nat, located: seq<(SatPoint, Flotsam)>) {
    && vout <= |tx.outputs| && value == OutputValue(tx.outputs[..vout]) <= OutputValue(tx.outputs)
    && k == InsideCount(fs, value)
    && located == Swept(tx, fs[..k])
  }

  lemma SweepStep(tx: Tx, fs: seq<Flotsam>, vout: nat, value: nat, k: nat, located: seq<(SatPoint, Flotsam)>,
                  j: nat, here: seq<(SatPoint, Flotsam)>)
    requires vout < |tx.outputs| && SweptTo(tx, fs, vout, value, k, located)
    requires k <= j <= |fs| && forall i :: k <= i < j ==> fs[i].offset < value + tx.outputs[vout].value
    requires j < |fs| ==> fs[j].offset >= value + tx.outputs[vout].value
    requires value + tx.outputs[vout].value <= OutputValue(tx.outputs) && here == Swept(tx, fs[k..j])
    ensures SweptTo(tx, fs, vout + 1, value + tx.outputs[vout].value, j, located + here)
  {
    OutputValueStep(tx.outputs, vout);
    InsideCountIs(fs, value + tx.outputs[vout].value, j);
    SweptConcat(tx, fs[..k], fs[k..j]);
    assert fs[..k] + fs[k..j] == fs[..j];
  }

  /** One pass over outputs and ordered flotsam, as the source runs it. */
  method Sweep(tx: Tx, fs: seq<Flotsam>)
    returns (located: seq<(SatPoint, Flotsam)>, rest: seq<Flotsam>, ranges: map<(nat, nat), nat>, value: nat)
    requires Ordered(fs)
    ensures value == OutputValue(tx.outputs)
    ensures var k := InsideCount(fs, value);
      located == Swept(tx, fs[..k]) && rest == fs[k..]
    ensures RangesOf(tx.outputs, |tx.outputs|, ranges)
  {
    located, ranges, value := [], map[], 0;
    var k := 0;
    InsideCountIs(fs, 0, 0);
    for vout := 0 to |tx.outputs|
      invariant SweptTo(tx, fs, vout, value, k, located)
      invariant RangesOf(tx.outputs, vout, ranges)
    {
      var end := value + tx.outputs[vout].value;
      OutputValueStep(tx.outputs, vout);
      var j, here := SweepOutput(tx, fs, k, vout, value);
      SweepStep(tx, fs, vout, value, k, located, j, here);
      RangesStep(tx.outputs, vout, ranges);
      located, k := located + here, j;
      ranges := ranges[(value, end) := vout];
      value := end;
    }
    assert tx.outputs[..|tx.outputs|] == tx.outputs;
    rest := fs[k..];
  }

  function RangeOf(outputs: seq<TxOut>, vout: nat): (nat, nat)
    requires vout < |outputs|
  {
    (OutputValue(outputs[..vout]), OutputValue(outputs[..vout + 1]))
  }

  // range_to_vout after `n` outputs: every entry is the range of its output,
  // and the range of every output is there. (Empty outputs may share an entry.)
  predicate RangesOf(outputs: seq<TxOut>, n: nat, ranges: map<(nat, nat), nat>)
    requires n <= |outputs|
  {
    && (forall r :: r in ranges ==> ranges[r] < n && r == RangeOf(outputs, ranges[r]))
    && (forall v :: 0 <= v < n ==> RangeOf(outputs, v) in ranges)
  }

  lemma RangesStep(outputs: seq<TxOut>, n: nat, ranges: map<(nat, nat), nat>)
    requires n < |outputs| && RangesOf(outputs, n, ranges)
    ensures RangesOf(outputs, n + 1, ranges[RangeOf(outputs, n) := n])
  {
  }

  lemma InsideCountIs(fs: seq<Flotsam>, value: nat, k: nat)
    requires k <= |fs|
    requires forall i :: 0 <= i < k ==> fs[i].offset < value
    requires k < |fs| ==> fs[k].offset >= value
    ensures InsideCount(fs, value) == k
  {
  }

  // ----- the pointer lookup after the sweep

  predicate PointsInside(tx: Tx, f: Flotsam) {
    f.origin.New? && f.origin.pointer.Some? && f.origin.pointer.value < OutputValue(tx.outputs)
  }

  // A pointer inside the outputs is the offset the flotsam floats at.
  predicate HonoursPointer(tx: Tx, f: Flotsam) {
    PointsInside(tx, f) ==> f.origin.pointer.value == f.offset
  }

  // The sat an inscription inside the outputs is finally put on.
  function Target(tx: Tx, f: Flotsam): SatPoint
    requires f.offset < OutputValue(tx.outputs)
  {
    if PointsInside(tx, f) then PointAt(tx, f.origin.pointer.value) else PointAt(tx, f.offset)
  }

  method LookupPointer(tx: Tx, ranges: map<(nat, nat), nat>, pointer: nat) returns (point: SatPoint)
    requires RangesOf(tx.outputs, |tx.outputs|, ranges) && pointer < OutputValue(tx.outputs)
    ensures point == PointAt(tx, pointer)
  {
    var p := Locate(tx.outputs, pointer);
    OutputValueStep(tx.outputs, p.0);
    assert RangeOf(tx.outputs, p.0) in ranges;
    var r :| r in ranges && r.0 <= pointer < r.1;
    LocateUnique(tx.outputs, pointer, ranges[r]);
    point := SatPoint(OutPoint(tx.id, ranges[r]), pointer - r.0);
  }

  lemma PointAtInjective(tx: Tx, a: nat, b: nat)
    requires a < OutputValue(tx.outputs) && b < OutputValue(tx.outputs)
    requires PointAt(tx, a) == PointAt(tx, b)
    ensures a == b
  {
  }

  /** The pointer lookup leaves the sweep's satpoint alone exactly when a
      pointer inside the outputs is the offset the flotsam was swept with. */
  lemma PointerLookupAgrees(tx: Tx, f: Flotsam)
    requires f.offset < OutputValue(tx.outputs)
    ensures Target(tx, f) == PointAt(tx, f.offset) <==> HonoursPointer(tx, f)
  {
    if PointsInside(tx, f) && Target(tx, f) == PointAt(tx, f.offset) {
      PointAtInjective(tx, f.origin.pointer.value, f.offset);
    }
  }

  /** Everything a transaction picks up from its own inputs is swept with its
      pointer, so for an ordinary transaction the lookup never moves anything. */
  lemma {:induction false} FloatingHonoursPointers(tx: Tx, inputs: seq<Input>, k: nat, f: Flotsam)
    requires k <= |inputs| && f in Floating(tx, inputs, k)
    ensures HonoursPointer(tx, f)
  {
    if f in Floating(tx, inputs, k - 1) {
      FloatingHonoursPointers(tx, inputs, k - 1, f);
    } else {
      var body, base := inputs[k - 1].body, InputValue(inputs[..k - 1]);
      var olds := OldFlotsam(body.inscriptions, base);
      if f in olds {
        var j :| 0 <= j < |olds| && olds[j] == f;
      } else {
        var pos := EnvelopesBefore(tx, inputs, k - 1);
        var news := NewFlotsams(tx, pos, EnvelopesBefore(tx, inputs, k), base, body.value);
        var j :| 0 <= j < |news| && news[j] == f;
        assert f == NewFlotsam(tx, pos + j, base, body.value);
      }
    }
  }

  // ----- counting, numbering and unbound inscriptions

  datatype Settled = Settled(
    counters: Counters,
    outgoing: Outgoing,
    numbers: seq<(InscriptionId, nat)>,
    cursed: set<InscriptionId>)

  // The counters and the set of cursed or vindicated inscriptions.
  datatype Registry = Registry(counters: Counters, cursed: set<InscriptionId>)

  function Begin(reg: Registry): Settled {
    Settled(reg.counters, [], [], reg.cursed)
  }

  function Number(s: Settled, f: Flotsam): Settled {
    match f.origin
    case Old => s
    case New(_, _, cursed, vindicated) =>
      var c := s.counters;
      Settled(
        c.(cursed := if cursed then c.cursed + 1 else c.cursed,
           blessed := if cursed then c.blessed else c.blessed + 1,
           next := c.next + 1),
        s.outgoing,
        s.numbers + [(f.id, c.next)],
        if vindicated || cursed then s.cursed + {f.id} else s.cursed)
  }

  predicate IsUnbound(f: Flotsam) {
    f.origin.New? && f.origin.unbound
  }

  // update_inscription_location
  function Settle(s: Settled, point: SatPoint, f: Flotsam): Settled {
    var n := Number(s, f);
    if IsUnbound(f) then
      n.(outgoing := n.outgoing + [(SatPoint(UNBOUND_OUTPOINT, n.counters.unbound), f.id)],
         counters := n.counters.(unbound := n.counters.unbound + 1))
    else n.(outgoing := n.outgoing + [(point, f.id)])
  }

  function SettleAll(s: Settled, located: seq<(SatPoint, Flotsam)>): Settled {
    if located == [] then s else
      var last := located[|located| - 1];
      Settle(SettleAll(s, located[..|located| - 1]), last.0, last.1)
  }

  lemma {:induction false} SettleAllPoints(s: Settled, located: seq<(SatPoint, Flotsam)>)
    requires s.outgoing == []
    ensures var out := SettleAll(s, located).outgoing;
      && |out| == |located|
      && forall i :: 0 <= i < |out| ==>
        && out[i].1 == located[i].1.id
        && if IsUnbound(located[i].1) then out[i].0.outpoint == UNBOUND_OUTPOINT else out[i].0 == located[i].0
  {
    if located != [] {
      SettleAllPoints(s, located[..|located| - 1]);
    }
  }

  /** Inscription numbers are consecutive: every new inscription gets the next
      one, and cursed and blessed counts together grow by as many. */
  lemma {:induction false} NumbersConsecutive(s: Settled, located: seq<(SatPoint, Flotsam)>)
    requires s.numbers == []
    ensures var r := SettleAll(s, located);
      && r.counters.next == s.counters.next + |r.numbers|
      && r.counters.cursed + r.counters.blessed == s.counters.cursed + s.counters.blessed + |r.numbers|
      && r.counters.lost == s.counters.lost
      && forall i :: 0 <= i < |r.numbers| ==> r.numbers[i].1 == s.counters.next + i
  {
    if located != [] {
      NumbersConsecutive(s, located[..|located| - 1]);
    }
  }

  predicate IsNew(f: Flotsam) {
    f.origin.New?
  }

  predicate IsCursed(f: Flotsam) {
    f.origin.New? && f.origin.cursed
  }

  predicate IsMarked(f: Flotsam) {
    f.origin.New? && (f.origin.cursed || f.origin.vindicated)
  }

  // How many of the flotsam are of a kind.
  function Count(located: seq<(SatPoint, Flotsam)>, kind: Flotsam -> bool): nat {
    if located == [] then 0 else
      Count(located[..|located| - 1], kind) + if kind(located[|located| - 1].1) then 1 else 0
  }

  /** Every counter grows by the number of inscriptions of its kind, and those
      that are cursed or vindicated, and no others, are remembered. */
  lemma {:induction false} SettleCounts(s: Settled, located: seq<(SatPoint, Flotsam)>, id: InscriptionId)
    ensures var r, c := SettleAll(s, located), s.counters;
      && r.counters.cursed == c.cursed + Count(located, IsCursed)
      && r.counters.blessed + Count(located, IsCursed) == c.blessed + Count(located, IsNew)
      && r.counters.next == c.next + Count(located, IsNew)
      && r.counters.unbound == c.unbound + Count(located, IsUnbound) && r.counters.lost == c.lost
      && |r.numbers| == |s.numbers| + Count(located, IsNew) && |r.outgoing| == |s.outgoing| + |located|
      && (id in r.cursed <==> id in s.cursed || exists i :: 0 <= i < |located| && located[i].1.id == id && IsMarked(located[i].1))
  {
    if located != [] {
      var front, last := located[..|located| - 1], located[|located| - 1];
      SettleCounts(s, front, id);
      if i :| 0 <= i < |front| && front[i].1.id == id && IsMarked(front[i].1) {
        assert located[i] == front[i];
      }
      if last.1.id == id && IsMarked(last.1) {
        assert located[|located| - 1] == last;
      }
      if i :| 0 <= i < |located| && located[i].1.id == id && IsMarked(located[i].1) {
        assert i < |front| ==> front[i] == located[i];
      }
    }
  }

  /** The n-th new inscription gets the n-th number, ... */
  lemma {:induction false} NumbersInOrder(s: Settled, located: seq<(SatPoint, Flotsam)>, i: nat)
    requires i < |located| && s.numbers == [] && IsNew(located[i].1)
    ensures var r, n := SettleAll(s, located), Count(located[..i], IsNew);
      n < |r.numbers| && r.numbers[n] == (located[i].1.id, s.counters.next + n)
  {
    hide Count;
    var n := |located| - 1;
    SettleCounts(s, located[..n], located[i].1.id);
    if i < n {
      NumbersInOrder(s, located[..n], i);
      assert located[..n][..i] == located[..i];
    }
  }

  /** ... and the n-th unbound one its own place at the unbound outpoint. */
  lemma {:induction false} UnboundInOrder(s: Settled, located: seq<(SatPoint, Flotsam)>, i: nat)
    requires i < |located| && s.outgoing == [] && IsUnbound(located[i].1)
    ensures var r, n := SettleAll(s, located), Count(located[..i], IsUnbound);
      i < |r.outgoing| && r.outgoing[i] == (SatPoint(UNBOUND_OUTPOINT, s.counters.unbound + n), located[i].1.id)
  {
    hide Count;
    var n := |located| - 1;
    SettleCounts(s, located[..n], located[i].1.id);
    if i < n {
      UnboundInOrder(s, located[..n], i);
      assert located[..n][..i] == located[..i];
    }
  }

  // ----- the whole transaction

  datatype Move = Move(settled: Settled, carried: seq<Flotsam>, reward: nat)

  predicate IsCoinbase(inputs: seq<Input>) {
    inputs != [] && inputs[0].Subsidy?
  }

  // Consensus: outputs are covered by the inputs, or by subsidy and fees.
  predicate Funded(tx: Tx, inputs: seq<Input>, reward: nat) {
    OutputValue(tx.outputs) <= if IsCoinbase(inputs) then reward else InputValue(inputs)
  }

  // All flotsam of the transaction, by offset; a coinbase also takes what the
  // block's other transactions lost as fees.
  function AllFloating(tx: Tx, inputs: seq<Input>, carried: seq<Flotsam>): seq<Flotsam> {
    Floating(tx, inputs, |inputs|) + if IsCoinbase(inputs) then carried else []
  }

  function Queue(tx: Tx, inputs: seq<Input>, carried: seq<Flotsam>): seq<Flotsam> {
    SortByOffset(AllFloating(tx, inputs, carried))
  }

  function Inside(tx: Tx, queue: seq<Flotsam>): (located: seq<(SatPoint, Flotsam)>)
    ensures |located| == InsideCount(queue, OutputValue(tx.outputs))
  {
    seq(InsideCount(queue, OutputValue(tx.outputs)),
        i requires 0 <= i < InsideCount(queue, OutputValue(tx.outputs)) => (Target(tx, queue[i]), queue[i]))
  }

  function Beyond(tx: Tx, queue: seq<Flotsam>): (rest: seq<Flotsam>)
    ensures forall f :: f in rest ==> f in queue
  {
    queue[InsideCount(queue, OutputValue(tx.outputs))..]
  }

  predicate AllBeyond(fs: seq<Flotsam>, value: nat) {
    forall i :: 0 <= i < |fs| ==> fs[i].offset >= value
  }

  lemma QueueSplit(tx: Tx, inputs: seq<Input>, carried: seq<Flotsam>)
    ensures AllBeyond(Beyond(tx, Queue(tx, inputs, carried)), OutputValue(tx.outputs))
  {
    SortSpec(AllFloating(tx, inputs, carried));
  }

  function Lost(rest: seq<Flotsam>, lostSats: nat, value: nat): (located: seq<(SatPoint, Flotsam)>)
    requires AllBeyond(rest, value)
    ensures |located| == |rest|
  {
    seq(|rest|, i requires 0 <= i < |rest| =>
      (SatPoint(NULL_OUTPOINT, lostSats + rest[i].offset - value), rest[i]))
  }

  function Carry(rest: seq<Flotsam>, reward: nat, value: nat): (fees: seq<Flotsam>)
    requires AllBeyond(rest, value)
    ensures |fees| == |rest|
  {
    seq(|rest|, i requires 0 <= i < |rest| => rest[i].(offset := reward + rest[i].offset - value))
  }

  function MoveInscriptions(tx: Tx, inputs: seq<Input>, reg: Registry, reward: nat, carried: seq<Flotsam>): Move
    requires Funded(tx, inputs, reward)
  {
    var queue, value := Queue(tx, inputs, carried), OutputValue(tx.outputs);
    var start := Begin(reg);
    QueueSplit(tx, inputs, carried);
    if IsCoinbase(inputs) then
      var s := SettleAll(start, Inside(tx, queue) + Lost(Beyond(tx, queue), reg.counters.lost, value));
      Move(s.(counters := s.counters.(lost := s.counters.lost + reward - value)), [], reward)
    else
      Move(SettleAll(start, Inside(tx, queue)),
           carried + Carry(Beyond(tx, queue), reward, value),
           reward + InputValue(inputs) - value)
  }

  /** No sat is unaccounted for: what a transaction does not put on its outputs
      is added to the reward, and what a coinbase does not claim is lost. */
  lemma SatsAccounted(tx: Tx, inputs: seq<Input>, reg: Registry, reward: nat, carried: seq<Flotsam>)
    requires Funded(tx, inputs, reward)
    ensures var m := MoveInscriptions(tx, inputs, reg, reward, carried);
      var lost := m.settled.counters.lost - reg.counters.lost;
      if IsCoinbase(inputs) then OutputValue(tx.outputs) + lost == reward && m.reward == reward && m.carried == []
      else OutputValue(tx.outputs) + (m.reward - reward) == InputValue(inputs) && lost == 0 && carried <= m.carried
  {
    hide SettleAll, InputValue, OutputValue, Queue;
    QueueSplit(tx, inputs, carried);
    var queue := Queue(tx, inputs, carried);
    var inside, beyond := Inside(tx, queue), Lost(Beyond(tx, queue), reg.counters.lost, OutputValue(tx.outputs));
    SettleCounts(Begin(reg), inside, InscriptionId(tx.id, 0));
    SettleCounts(Begin(reg), inside + beyond, InscriptionId(tx.id, 0));
  }

  // ----- exactly once

  function IdsOf(fs: seq<Flotsam>): (ids: seq<InscriptionId>)
    ensures |ids| == |fs|
  {
    seq(|fs|, i requires 0 <= i < |fs| => fs[i].id)
  }

  function OutIds(out: Outgoing): (ids: seq<InscriptionId>)
    ensures |ids| == |out|
  {
    seq(|out|, i requires 0 <= i < |out| => out[i].1)
  }

  lemma {:induction false} InsertKeepsIds(f: Flotsam, fs: seq<Flotsam>)
    ensures multiset(IdsOf(Insert(ByOffset, f, fs))) == multiset{f.id} + multiset(IdsOf(fs))
  {
    if fs == [] || ByOffset(f, fs[0]) {
      assert IdsOf([f] + fs) == [f.id] + IdsOf(fs);
    } else {
      InsertKeepsIds(f, fs[1..]);
      assert IdsOf(Insert(ByOffset, f, fs)) == [fs[0].id] + IdsOf(Insert(ByOffset, f, fs[1..]));
      assert IdsOf(fs) == [fs[0].id] + IdsOf(fs[1..]);
    }
  }

  lemma {:induction false} SortKeepsIds(fs: seq<Flotsam>)
    ensures multiset(IdsOf(SortByOffset(fs))) == multiset(IdsOf(fs))
  {
    if fs != [] {
      SortKeepsIds(fs[1..]);
      InsertKeepsIds(fs[0], SortByOffset(fs[1..]));
      assert IdsOf(fs) == [fs[0].id] + IdsOf(fs[1..]);
    }
  }

  lemma QueueIds(tx: Tx, inputs: seq<Input>, carried: seq<Flotsam>)
    ensures var queue := Queue(tx, inputs, carried);
      multiset(IdsOf(queue)) == multiset(IdsOf(Floating(tx, inputs, |inputs|)))
        + if IsCoinbase(inputs) then multiset(IdsOf(carried)) else multiset{}
  {
    var own := Floating(tx, inputs, |inputs|);
    SortKeepsIds(AllFloating(tx, inputs, carried));
    assert IdsOf(own + carried) == IdsOf(own) + IdsOf(carried);
    assert own + [] == own;
  }

  lemma BagConcat(a: seq<InscriptionId>, b: seq<InscriptionId>)
    ensures multiset(a + b) == multiset(a) + multiset(b)
  {
  }

  lemma IdsConcat(a: seq<Flotsam>, b: seq<Flotsam>)
    ensures IdsOf(a + b) == IdsOf(a) + IdsOf(b)
  {
  }

  // `queue` is what leaves plus the new fees; the list grows by the new fees.
  lemma BagBalance(queue: seq<InscriptionId>, out: seq<InscriptionId>, fees: seq<InscriptionId>,
                   before: seq<InscriptionId>, after: seq<InscriptionId>)
    requires queue == out + fees && after == before + fees
    ensures multiset(queue) + multiset(before) == multiset(out) + multiset(after)
  {
    BagConcat(out, fees);
    BagConcat(before, fees);
    var a, b, c := multiset(out), multiset(before), multiset(fees);
    assert (a + c) + b == a + (b + c);
  }

  function Flotsams(located: seq<(SatPoint, Flotsam)>): (fs: seq<Flotsam>)
    ensures |fs| == |located|
  {
    seq(|located|, i requires 0 <= i < |located| => located[i].1)
  }

  lemma SettledIds(reg: Registry, located: seq<(SatPoint, Flotsam)>)
    ensures OutIds(SettleAll(Begin(reg), located).outgoing) == IdsOf(Flotsams(located))
  {
    SettleAllPoints(Begin(reg), located);
  }

  lemma InsideFlotsams(tx: Tx, queue: seq<Flotsam>)
    ensures Flotsams(Inside(tx, queue)) + Beyond(tx, queue) == queue
  {
  }

  lemma CarryIds(rest: seq<Flotsam>, reward: nat, value: nat)
    requires AllBeyond(rest, value)
    ensures IdsOf(Carry(rest, reward, value)) == IdsOf(rest)
  {
  }

  lemma OrdinaryExactlyOnce(tx: Tx, inputs: seq<Input>, reg: Registry, reward: nat, carried: seq<Flotsam>)
    requires Funded(tx, inputs, reward) && !IsCoinbase(inputs)
    ensures var m, queue := MoveInscriptions(tx, inputs, reg, reward, carried), Queue(tx, inputs, carried);
      && IdsOf(queue) == OutIds(m.settled.outgoing) + IdsOf(Beyond(tx, queue))
      && IdsOf(m.carried) == IdsOf(carried) + IdsOf(Beyond(tx, queue))
  {
    var queue := Queue(tx, inputs, carried);
    var rest := Beyond(tx, queue);
    QueueSplit(tx, inputs, carried);
    InsideFlotsams(tx, queue);
    SettledIds(reg, Inside(tx, queue));
    IdsConcat(Flotsams(Inside(tx, queue)), rest);
    CarryIds(rest, reward, OutputValue(tx.outputs));
    IdsConcat(carried, Carry(rest, reward, OutputValue(tx.outputs)));
  }

  lemma LostFlotsams(inside: seq<(SatPoint, Flotsam)>, rest: seq<Flotsam>, lostSats: nat, value: nat)
    requires AllBeyond(rest, value)
    ensures Flotsams(inside + Lost(rest, lostSats, value)) == Flotsams(inside) + rest
  {
  }

  lemma CoinbaseExactlyOnce(tx: Tx, inputs: seq<Input>, reg: Registry, reward: nat, carried: seq<Flotsam>)
    requires Funded(tx, inputs, reward) && IsCoinbase(inputs)
    ensures var m := MoveInscriptions(tx, inputs, reg, reward, carried);
      OutIds(m.settled.outgoing) == IdsOf(Queue(tx, inputs, carried)) && m.carried == []
  {
    var queue, value := Queue(tx, inputs, carried), OutputValue(tx.outputs);
    QueueSplit(tx, inputs, carried);
    InsideFlotsams(tx, queue);
    LostFlotsams(Inside(tx, queue), Beyond(tx, queue), reg.counters.lost, value);
    SettledIds(reg, Inside(tx, queue) + Lost(Beyond(tx, queue), reg.counters.lost, value));
  }

  /** Every floating inscription leaves the transaction exactly once: on an
      output (or unbound, or lost), or on the list of fee-carried ones. */
  lemma ExactlyOnce(tx: Tx, inputs: seq<Input>, reg: Registry, reward: nat, carried: seq<Flotsam>)
    requires Funded(tx, inputs, reward)
    ensures var m := MoveInscriptions(tx, inputs, reg, reward, carried);
      multiset(IdsOf(Floating(tx, inputs, |inputs|))) + multiset(IdsOf(carried))
        == multiset(OutIds(m.settled.outgoing)) + multiset(IdsOf(m.carried))
  {
    var m, queue := MoveInscriptions(tx, inputs, reg, reward, carried), Queue(tx, inputs, carried);
    QueueIds(tx, inputs, carried);
    if IsCoinbase(inputs) {
      CoinbaseExactlyOnce(tx, inputs, reg, reward, carried);
    } else {
      OrdinaryExactlyOnce(tx, inputs, reg, reward, carried);
      BagBalance(IdsOf(queue), OutIds(m.settled.outgoing), IdsOf(Beyond(tx, queue)), IdsOf(carried), IdsOf(m.carried));
    }
  }

  // ----- first in, first out

  // Sat `offset` of the transaction is sat `point.offset` of output `point.outpoint.vout`.
  predicate SameSat(tx: Tx, offset: nat, point: SatPoint) {
    && point.outpoint.txid == tx.id && point.outpoint.vout < |tx.outputs|
    && point.offset < tx.outputs[point.outpoint.vout].value
    && OutputValue(tx.outputs[..point.outpoint.vout]) + point.offset == offset
  }

  // In an ordered queue the flotsam below the output value come first.
  lemma InsideIsBelow(fs: seq<Flotsam>, value: nat, i: nat)
    requires Ordered(fs) && i < |fs|
    ensures i < InsideCount(fs, value) <==> fs[i].offset < value
  {
  }

  lemma QueueInside(tx: Tx, inputs: seq<Input>, carried: seq<Flotsam>, i: nat)
    requires i < |Queue(tx, inputs, carried)|
    ensures var queue := Queue(tx, inputs, carried);
      i < |Inside(tx, queue)| <==> queue[i].offset < OutputValue(tx.outputs)
  {
    SortSpec(AllFloating(tx, inputs, carried));
    InsideIsBelow(Queue(tx, inputs, carried), OutputValue(tx.outputs), i);
  }

  // Flotsam `f` leaves as number i, at `point` unless it is unbound.
  predicate Leaves(m: Move, i: nat, f: Flotsam, point: SatPoint) {
    && i < |m.settled.outgoing| && m.settled.outgoing[i].1 == f.id
    && if IsUnbound(f) then m.settled.outgoing[i].0.outpoint == UNBOUND_OUTPOINT else m.settled.outgoing[i].0 == point
  }

  lemma InsideLeaves(tx: Tx, inputs: seq<Input>, reg: Registry, reward: nat, carried: seq<Flotsam>, i: nat)
    requires Funded(tx, inputs, reward) && i < |Queue(tx, inputs, carried)|
    requires Queue(tx, inputs, carried)[i].offset < OutputValue(tx.outputs)
    ensures var f := Queue(tx, inputs, carried)[i];
      Leaves(MoveInscriptions(tx, inputs, reg, reward, carried), i, f, Target(tx, f))
  {
    hide SortByOffset, Floating, InputValue, OutputValue, SettleAll;
    var queue := Queue(tx, inputs, carried);
    QueueInside(tx, inputs, carried, i);
    QueueSplit(tx, inputs, carried);
    var inside, lost := Inside(tx, queue), Lost(Beyond(tx, queue), reg.counters.lost, OutputValue(tx.outputs));
    SettleAllPoints(Begin(reg), inside);
    SettleAllPoints(Begin(reg), inside + lost);
  }

  lemma TargetIsOnSat(tx: Tx, f: Flotsam)
    requires f.offset < OutputValue(tx.outputs)
    ensures SameSat(tx, if PointsInside(tx, f) then f.origin.pointer.value else f.offset, Target(tx, f))
    ensures SameSat(tx, f.offset, Target(tx, f)) <==> HonoursPointer(tx, f)
  {
  }

  /** Every transaction moves its flotsam in order. One below the output value
      leaves on an output, unless it is unbound. It stays on its sat if and
      only if a pointer it was revealed with is not inside the outputs or is
      that sat. In an ordinary transaction every flotsam is so, and so is
      everything a coinbase does not take from the fees ... */
  lemma FifoInside(tx: Tx, inputs: seq<Input>, reg: Registry, reward: nat, carried: seq<Flotsam>, i: nat)
    requires Funded(tx, inputs, reward) && i < |Queue(tx, inputs, carried)|
    requires Queue(tx, inputs, carried)[i].offset < OutputValue(tx.outputs)
    ensures var f, out := Queue(tx, inputs, carried)[i], MoveInscriptions(tx, inputs, reg, reward, carried).settled.outgoing;
      && i < |out| && out[i].1 == f.id
      && (IsUnbound(f) ==> out[i].0.outpoint == UNBOUND_OUTPOINT)
      && (!IsUnbound(f) ==>
            && SameSat(tx, if PointsInside(tx, f) then f.origin.pointer.value else f.offset, out[i].0)
            && (SameSat(tx, f.offset, out[i].0) <==> HonoursPointer(tx, f)))
      && (!IsCoinbase(inputs) || f !in carried ==> HonoursPointer(tx, f))
  {
    var queue := Queue(tx, inputs, carried);
    InsideLeaves(tx, inputs, reg, reward, carried, i);
    TargetIsOnSat(tx, queue[i]);
    SortSpec(AllFloating(tx, inputs, carried));
    assert queue[i] in multiset(queue);
    if !IsCoinbase(inputs) || queue[i] !in carried {
      assert queue[i] in Floating(tx, inputs, |inputs|);
      FloatingHonoursPointers(tx, inputs, |inputs|, queue[i]);
    }
  }

  lemma OutgoingOfOrdinary(tx: Tx, inputs: seq<Input>, reg: Registry, reward: nat, carried: seq<Flotsam>)
    requires Funded(tx, inputs, reward) && !IsCoinbase(inputs)
    ensures |MoveInscriptions(tx, inputs, reg, reward, carried).settled.outgoing| == |Inside(tx, Queue(tx, inputs, carried))|
  {
    SettleAllPoints(Begin(reg), Inside(tx, Queue(tx, inputs, carried)));
  }

  lemma LostLeaves(tx: Tx, inputs: seq<Input>, reg: Registry, reward: nat, carried: seq<Flotsam>, i: nat)
    requires Funded(tx, inputs, reward) && IsCoinbase(inputs) && i < |Queue(tx, inputs, carried)|
    requires Queue(tx, inputs, carried)[i].offset >= OutputValue(tx.outputs)
    ensures var f := Queue(tx, inputs, carried)[i];
      Leaves(MoveInscriptions(tx, inputs, reg, reward, carried), i, f,
             SatPoint(NULL_OUTPOINT, reg.counters.lost + f.offset - OutputValue(tx.outputs)))
  {
    hide SortByOffset, Floating, InputValue, OutputValue, SettleAll;
    var queue := Queue(tx, inputs, carried);
    QueueInside(tx, inputs, carried, i);
    QueueSplit(tx, inputs, carried);
    SettleAllPoints(Begin(reg), Inside(tx, queue) + Lost(Beyond(tx, queue), reg.counters.lost, OutputValue(tx.outputs)));
  }

  /** ... and the others keep their distance past the outputs: an ordinary
      transaction hands them to the coinbase, counted from the reward collected
      so far, and a coinbase loses them, counted from the sats lost so far. */
  lemma FifoBeyond(tx: Tx, inputs: seq<Input>, reg: Registry, reward: nat, carried: seq<Flotsam>, i: nat)
    requires Funded(tx, inputs, reward) && i < |Queue(tx, inputs, carried)|
    requires Queue(tx, inputs, carried)[i].offset >= OutputValue(tx.outputs)
    ensures var m, f := MoveInscriptions(tx, inputs, reg, reward, carried), Queue(tx, inputs, carried)[i];
      var past := f.offset - OutputValue(tx.outputs);
      if IsCoinbase(inputs) then
        Leaves(m, i, f, SatPoint(NULL_OUTPOINT, reg.counters.lost + past))
      else
        var at := |carried| + i - |m.settled.outgoing|;
        |carried| <= at < |m.carried| && m.carried[at] == f.(offset := reward + past)
  {
    QueueInside(tx, inputs, carried, i);
    QueueSplit(tx, inputs, carried);
    if IsCoinbase(inputs) {
      LostLeaves(tx, inputs, reg, reward, carried, i);
    } else {
      OutgoingOfOrdinary(tx, inputs, reg, reward, carried);
    }
  }

  // ----- from an input to an output

  predicate LeavesOn(tx: Tx, m: Move, id: InscriptionId, sat: nat) {
    exists i :: 0 <= i < |m.settled.outgoing| && m.settled.outgoing[i].1 == id && SameSat(tx, sat, m.settled.outgoing[i].0)
  }

  predicate LeavesAt(m: Move, id: InscriptionId, outpoint: OutPoint) {
    exists i :: 0 <= i < |m.settled.outgoing| && m.settled.outgoing[i].1 == id && m.settled.outgoing[i].0.outpoint == outpoint
  }

  predicate LostAt(m: Move, id: InscriptionId, offset: nat) {
    exists i :: 0 <= i < |m.settled.outgoing| && m.settled.outgoing[i] == (SatPoint(NULL_OUTPOINT, offset), id)
  }

  // Handed on by this transaction, after what was carried before.
  predicate HandedOn(m: Move, before: nat, id: InscriptionId, offset: nat) {
    exists i :: before <= i < |m.carried| && m.carried[i].id == id && m.carried[i].offset == offset
  }

  // Sat `sat` of the inputs ends on the same sat of the outputs; past them it is
  // handed to the coinbase behind the reward so far, or lost by a coinbase
  // behind the sats lost so far.
  ghost predicate EndsOn(tx: Tx, inputs: seq<Input>, reg: Registry, reward: nat, carried: seq<Flotsam>, id: InscriptionId, sat: nat)
    requires Funded(tx, inputs, reward)
  {
    var m, value := MoveInscriptions(tx, inputs, reg, reward, carried), OutputValue(tx.outputs);
    if sat < value then LeavesOn(tx, m, id, sat)
    else if IsCoinbase(inputs) then LostAt(m, id, reg.counters.lost + sat - value)
    else HandedOn(m, |carried|, id, reward + sat - value)
  }

  lemma InQueue(tx: Tx, inputs: seq<Input>, carried: seq<Flotsam>, f: Flotsam) returns (i: nat)
    requires f in Floating(tx, inputs, |inputs|)
    ensures i < |Queue(tx, inputs, carried)| && Queue(tx, inputs, carried)[i] == f
  {
    hide Floating, SortByOffset;
    SortSpec(AllFloating(tx, inputs, carried));
    assert f in AllFloating(tx, inputs, carried);
    assert f in multiset(Queue(tx, inputs, carried));
    i :| 0 <= i < |Queue(tx, inputs, carried)| && Queue(tx, inputs, carried)[i] == f;
  }

  lemma BoundEnds(tx: Tx, inputs: seq<Input>, reg: Registry, reward: nat, carried: seq<Flotsam>, f: Flotsam)
    requires Funded(tx, inputs, reward) && f in Floating(tx, inputs, |inputs|) && !IsUnbound(f)
    requires PointsInside(tx, f) ==> f.origin.pointer.value == f.offset
    ensures EndsOn(tx, inputs, reg, reward, carried, f.id, f.offset)
  {
    hide Floating, Queue, MoveInscriptions, SameSat, OutputValue, PointsInside;
    var i := InQueue(tx, inputs, carried, f);
    if f.offset < OutputValue(tx.outputs) {
      FifoInside(tx, inputs, reg, reward, carried, i);
    } else {
      FifoBeyond(tx, inputs, reg, reward, carried, i);
    }
  }

  lemma {:induction false} FloatingKept(tx: Tx, inputs: seq<Input>, k: nat, n: nat, f: Flotsam)
    requires k <= n <= |inputs| && f in Floating(tx, inputs, k)
    ensures f in Floating(tx, inputs, n)
  {
    if k < n {
      FloatingKept(tx, inputs, k, n - 1, f);
    }
  }

  lemma HeldFloating(tx: Tx, inputs: seq<Input>, k: nat, j: nat)
    requires k < |inputs| && inputs[k].Spent? && j < |inputs[k].body.inscriptions|
    ensures var (o, id) := inputs[k].body.inscriptions[j];
      Flotsam(id, InputValue(inputs[..k]) + o, Old) in Floating(tx, inputs, |inputs|)
  {
    var base, held := InputValue(inputs[..k]), inputs[k].body.inscriptions;
    var f := Flotsam(held[j].1, base + held[j].0, Old);
    assert OldFlotsam(held, base)[j] == f;
    assert f in Floating(tx, inputs, k + 1);
    FloatingKept(tx, inputs, k + 1, |inputs|, f);
  }

  /** First in, first out: an inscription on sat `o` of a spent output ends on
      sat `o` after all the sats of the inputs before it. */
  lemma InputToOutput(tx: Tx, inputs: seq<Input>, reg: Registry, reward: nat, carried: seq<Flotsam>, k: nat, j: nat)
    requires Funded(tx, inputs, reward) && k < |inputs| && inputs[k].Spent? && j < |inputs[k].body.inscriptions|
    ensures var (o, id) := inputs[k].body.inscriptions[j];
      EndsOn(tx, inputs, reg, reward, carried, id, InputValue(inputs[..k]) + o)
  {
    hide Floating, EndsOn, InputValue, Funded;
    var (o, id) := inputs[k].body.inscriptions[j];
    HeldFloating(tx, inputs, k, j);
    BoundEnds(tx, inputs, reg, reward, carried, Flotsam(id, InputValue(inputs[..k]) + o, Old));
  }

  // The envelopes up to `pos` come in the order of their inputs.
  predicate InTurn(tx: Tx, inputs: seq<Input>, pos: nat) {
    pos < |tx.envelopes| && forall p :: 0 <= p <= pos ==>
      && tx.envelopes[p].input < |inputs| && inputs[tx.envelopes[p].input].Spent?
      && forall q :: p <= q <= pos ==> tx.envelopes[p].input <= tx.envelopes[q].input
  }

  lemma {:induction false} EnvelopeEndIs(envelopes: seq<Envelope>, pos: nat, input: nat)
    requires pos <= |envelopes|
    ensures var end := EnvelopeEnd(envelopes, pos, input);
      (forall p :: pos <= p < end ==> envelopes[p].input == input) && (end < |envelopes| ==> envelopes[end].input != input)
    decreases |envelopes| - pos
  {
    if pos < |envelopes| && envelopes[pos].input == input {
      EnvelopeEndIs(envelopes, pos + 1, input);
    }
  }

  lemma {:induction false} EachInTurn(tx: Tx, inputs: seq<Input>, pos: nat, n: nat)
    requires InTurn(tx, inputs, pos) && n <= |inputs|
    ensures forall p :: 0 <= p <= pos ==> (p < EnvelopesBefore(tx, inputs, n) <==> tx.envelopes[p].input < n)
  {
    if n > 0 {
      EachInTurn(tx, inputs, pos, n - 1);
      if inputs[n - 1].Spent? {
        EnvelopeEndIs(tx.envelopes, EnvelopesBefore(tx, inputs, n - 1), n - 1);
      }
    }
  }

  /** Envelopes that come in the order of their inputs are all read. */
  lemma AllRead(tx: Tx, inputs: seq<Input>)
    requires tx.envelopes == [] || InTurn(tx, inputs, |tx.envelopes| - 1)
    ensures EnvelopesBefore(tx, inputs, |inputs|) == |tx.envelopes|
  {
    if tx.envelopes != [] {
      var last := |tx.envelopes| - 1;
      EachInTurn(tx, inputs, last, |inputs|);
      assert tx.envelopes[last].input < |inputs|;
    }
  }

  lemma RevealFloating(tx: Tx, inputs: seq<Input>, pos: nat)
    requires InTurn(tx, inputs, pos)
    ensures var k := tx.envelopes[pos].input;
      NewFlotsam(tx, pos, InputValue(inputs[..k]), inputs[k].body.value) in Floating(tx, inputs, |inputs|)
  {
    var k := tx.envelopes[pos].input;
    var base, value := InputValue(inputs[..k]), inputs[k].body.value;
    EachInTurn(tx, inputs, pos, k);
    EachInTurn(tx, inputs, pos, k + 1);
    var from, to := EnvelopesBefore(tx, inputs, k), EnvelopesBefore(tx, inputs, k + 1);
    assert NewFlotsams(tx, from, to, base, value)[pos - from] == NewFlotsam(tx, pos, base, value);
    assert NewFlotsam(tx, pos, base, value) in Floating(tx, inputs, k + 1);
    FloatingKept(tx, inputs, k + 1, |inputs|, NewFlotsam(tx, pos, base, value));
  }

  /** A new inscription ends on the sat its pointer names, if that is inside the
      outputs, and otherwise on the first sat of the input that reveals it. With
      an unknown even field, or revealed by an input without sats, it is bound
      to no sat. */
  lemma RevealToOutput(tx: Tx, inputs: seq<Input>, reg: Registry, reward: nat, carried: seq<Flotsam>, pos: nat)
    requires Funded(tx, inputs, reward) && InTurn(tx, inputs, pos)
    ensures var e, id, m := tx.envelopes[pos], InscriptionId(tx.id, pos), MoveInscriptions(tx, inputs, reg, reward, carried);
      var pointed := e.pointer.Some? && e.pointer.value < OutputValue(tx.outputs);
      var sat := if pointed then e.pointer.value else InputValue(inputs[..e.input]);
      if inputs[e.input].body.value > 0 && !e.unrecognizedEvenField then
        EndsOn(tx, inputs, reg, reward, carried, id, sat)
      else if sat < OutputValue(tx.outputs) || IsCoinbase(inputs) then LeavesAt(m, id, UNBOUND_OUTPOINT)
      else HandedOn(m, |carried|, id, reward + sat - OutputValue(tx.outputs))
  {
    hide Floating, EndsOn, MoveInscriptions, Queue, InputValue, OutputValue;
    RevealFloating(tx, inputs, pos);
    var k := tx.envelopes[pos].input;
    var f := NewFlotsam(tx, pos, InputValue(inputs[..k]), inputs[k].body.value);
    if IsUnbound(f) {
      var i := InQueue(tx, inputs, carried, f);
      if f.offset < OutputValue(tx.outputs) {
        FifoInside(tx, inputs, reg, reward, carried, i);
      } else {
        FifoBeyond(tx, inputs, reg, reward, carried, i);
      }
    } else {
      BoundEnds(tx, inputs, reg, reward, carried, f);
    }
  }

  // Whatever leaves on an output of the transaction is on a sat of that output.
  lemma LandsOnItsOutput(tx: Tx, inputs: seq<Input>, reg: Registry, reward: nat, carried: seq<Flotsam>, j: nat)
    requires Funded(tx, inputs, reward) && tx.id != ZERO_TXID
    requires j < |MoveInscriptions(tx, inputs, reg, reward, carried).settled.outgoing|
    requires MoveInscriptions(tx, inputs, reg, reward, carried).settled.outgoing[j].0.outpoint.txid == tx.id
    ensures var point := MoveInscriptions(tx, inputs, reg, reward, carried).settled.outgoing[j].0;
      point.outpoint.vout < |tx.outputs| && point.offset < tx.outputs[point.outpoint.vout].value
  {
    OutgoingInQueue(tx, inputs, reg, reward, carried);
    hide MoveInscriptions, SortByOffset, Floating, OutputValue;
    var queue := Queue(tx, inputs, carried);
    if queue[j].offset < OutputValue(tx.outputs) {
      FifoInside(tx, inputs, reg, reward, carried, j);
    } else {
      FifoBeyond(tx, inputs, reg, reward, carried, j);
    }
  }

  lemma OutgoingInQueue(tx: Tx, inputs: seq<Input>, reg: Registry, reward: nat, carried: seq<Flotsam>)
    requires Funded(tx, inputs, reward)
    ensures |MoveInscriptions(tx, inputs, reg, reward, carried).settled.outgoing| <= |Queue(tx, inputs, carried)|
  {
    hide SortByOffset, Floating, InputValue, OutputValue;
    if IsCoinbase(inputs) {
      CoinbaseExactlyOnce(tx, inputs, reg, reward, carried);
    } else {
      OutgoingOfOrdinary(tx, inputs, reg, reward, carried);
    }
  }

  // Every inscription sits on a sat of its output.
  predicate OnItsOutput(body: TxoBody) {
    forall i :: 0 <= i < |body.inscriptions| ==> body.inscriptions[i].0 < body.value
  }

  lemma {:induction false} OldOffsetsBelowInputs(tx: Tx, inputs: seq<Input>, k: nat, f: Flotsam)
    requires k <= |inputs| && f in Floating(tx, inputs, k) && f.origin.Old?
    requires forall i :: 0 <= i < |inputs| && inputs[i].Spent? ==> OnItsOutput(inputs[i].body)
    ensures f.offset < InputValue(inputs[..k])
  {
    assert inputs[..k][..k - 1] == inputs[..k - 1];
    if f in Floating(tx, inputs, k - 1) {
      OldOffsetsBelowInputs(tx, inputs, k - 1, f);
    } else {
      var body, base := inputs[k - 1].body, InputValue(inputs[..k - 1]);
      var olds := OldFlotsam(body.inscriptions, base);
      var news := NewFlotsams(tx, EnvelopesBefore(tx, inputs, k - 1), EnvelopesBefore(tx, inputs, k), base, body.value);
      NewFlotsamsAre(tx, EnvelopesBefore(tx, inputs, k - 1), EnvelopesBefore(tx, inputs, k), base, body.value);
      assert f in olds;
      var j :| 0 <= j < |olds| && olds[j] == f;
    }
  }

  /** An existing inscription lost as a fee lands in the slice of the reward
      that this transaction's own fee adds. */
  lemma FeeSlice(tx: Tx, inputs: seq<Input>, reg: Registry, reward: nat, carried: seq<Flotsam>, i: nat)
    requires Funded(tx, inputs, reward) && !IsCoinbase(inputs)
    requires forall i :: 0 <= i < |inputs| && inputs[i].Spent? ==> OnItsOutput(inputs[i].body)
    requires |carried| <= i < |MoveInscriptions(tx, inputs, reg, reward, carried).carried|
    ensures var m := MoveInscriptions(tx, inputs, reg, reward, carried);
      reward <= m.carried[i].offset && (m.carried[i].origin.Old? ==> m.carried[i].offset < m.reward)
  {
    hide SortByOffset, Floating, InputValue, Swept, SettleAll;
    var queue := Queue(tx, inputs, carried);
    OutgoingOfOrdinary(tx, inputs, reg, reward, carried);
    var j := |Inside(tx, queue)| + i - |carried|;
    QueueInside(tx, inputs, carried, j);
    FifoBeyond(tx, inputs, reg, reward, carried, j);
    SortSpec(AllFloating(tx, inputs, carried));
    assert AllFloating(tx, inputs, carried) == Floating(tx, inputs, |inputs|);
    assert queue[j] in multiset(queue);
    assert inputs[..|inputs|] == inputs;
    if queue[j].origin.Old? {
      OldOffsetsBelowInputs(tx, inputs, |inputs|, queue[j]);
    }
  }

  // Two inputs of 10 sats pay for one output of 8; the second input reveals
  // an inscription with pointer 9, which is past that output.
  const REVEAL := Tx(8, [OutPoint(1, 0), OutPoint(2, 0)], [TxOut(8, 1, false)], None, false,
                     [Envelope(1, Some(9), false, false, false, None)])
  const PAID := [Spent(TxoBody(0, 10, 1, map[], [], map[])), Spent(TxoBody(0, 10, 1, map[], [], map[]))]
  // The coinbase collects a subsidy of 50 sats and the fee of 12.
  const COINBASE := Tx(7, [NULL_OUTPOINT], [TxOut(62, 1, false)], None, false, [])
  const REVEALED := Flotsam(InscriptionId(8, 0), 10, New(Some(9), false, false, false))

  lemma RevealFloats()
    ensures OutputValue(REVEAL.outputs) == 8 && InputValue(PAID) == 20
    ensures Floating(REVEAL, PAID, 2) == [REVEALED]
  {
    assert REVEAL.outputs[..0] == [] && OutputValue([]) == 0;
    assert PAID[..1] == [PAID[0]] && PAID[..0] == [] && [PAID[0]][..0] == [];
    assert InputValue(PAID[..1]) == 10;
    assert EnvelopeEnd(REVEAL.envelopes, 0, 0) == 0;
    assert EnvelopesBefore(REVEAL, PAID, 1) == 0;
    assert EnvelopeEnd(REVEAL.envelopes, 1, 1) == 1;
    assert EnvelopesBefore(REVEAL, PAID, 2) == 1;
    assert Floating(REVEAL, PAID, 0) == [];
    assert Floating(REVEAL, PAID, 1) == [];
    assert NewFlotsams(REVEAL, 0, 1, 10, 10) == [REVEALED];
  }

  lemma OneInQueue(tx: Tx, inputs: seq<Input>, carried: seq<Flotsam>, f: Flotsam)
    requires AllFloating(tx, inputs, carried) == [f]
    ensures Queue(tx, inputs, carried) == [f]
  {
    assert [f][1..] == [];
    assert Sort(ByOffset, []) == [];
  }

  lemma RevealCarries(reg: Registry)
    ensures Funded(REVEAL, PAID, 50)
    ensures var m := MoveInscriptions(REVEAL, PAID, reg, 50, []);
      m.settled.outgoing == [] && m.carried == [REVEALED.(offset := 52)] && m.reward == 62
  {
    RevealFloats();
    OneInQueue(REVEAL, PAID, [], REVEALED);
    FifoBeyond(REVEAL, PAID, reg, 50, [], 0);
    OutgoingOfOrdinary(REVEAL, PAID, reg, 50, []);
    QueueInside(REVEAL, PAID, [], 0);
  }

  lemma CoinbaseFloats(f: Flotsam)
    requires f == REVEALED.(offset := 52)
    ensures OutputValue(COINBASE.outputs) == 62 && OutputValue(COINBASE.outputs[..0]) == 0
    ensures Queue(COINBASE, [Subsidy(50)], [f]) == [f]
  {
    assert COINBASE.outputs[..0] == [];
    assert Floating(COINBASE, [Subsidy(50)], 1) == [];
    OneInQueue(COINBASE, [Subsidy(50)], [f], f);
  }

  lemma CoinbasePlaces(after: Registry, f: Flotsam)
    requires f == REVEALED.(offset := 52)
    ensures Funded(COINBASE, [Subsidy(50)], 62)
    ensures MoveInscriptions(COINBASE, [Subsidy(50)], after, 62, [f]).settled.outgoing
              == [(SatPoint(OutPoint(7, 0), 9), InscriptionId(8, 0))]
  {
    hide SortByOffset, Floating, OutputValue, Queue, Swept, SettleAll;
    CoinbaseFloats(f);
    FifoInside(COINBASE, [Subsidy(50)], after, 62, [f], 0);
    CoinbaseExactlyOnce(COINBASE, [Subsidy(50)], after, 62, [f]);
  }

  /** First in, first out fails for a coinbase: the reveal pays its inscription
      as a fee to sat 52 of the reward, and the coinbase puts it on sat 9, the
      pointer it was revealed with in the other transaction. */
  lemma CoinbaseLookupMoves(reg: Registry, after: Registry)
    ensures Funded(REVEAL, PAID, 50)
    ensures var m := MoveInscriptions(REVEAL, PAID, reg, 50, []);
      && Funded(COINBASE, [Subsidy(50)], m.reward)
      && Queue(COINBASE, [Subsidy(50)], m.carried) == m.carried == [REVEALED.(offset := 52)]
      && MoveInscriptions(COINBASE, [Subsidy(50)], after, m.reward, m.carried).settled.outgoing
           == [(SatPoint(OutPoint(7, 0), 9), InscriptionId(8, 0))]
    ensures !SameSat(COINBASE, 52, SatPoint(OutPoint(7, 0), 9))
  {
    hide SortByOffset, Floating, OutputValue, Queue, Swept, SettleAll, MoveInscriptions, Funded;
    RevealCarries(reg);
    CoinbaseFloats(REVEALED.(offset := 52));
    CoinbasePlaces(after, REVEALED.(offset := 52));
  }

  // ----- the source's loops

  // `f` is envelope number p, of input k with `value` sats, on the sat it points
  // at or on sat `base`.
  predicate IsRevealed(tx: Tx, p: nat, k: nat, base: nat, value: nat, f: Flotsam) {
    && p < |tx.envelopes| && tx.envelopes[p].input == k && f.id == InscriptionId(tx.id, p)
    && var e := tx.envelopes[p];
       && f.offset == (if e.pointer.Some? && e.pointer.value < OutputValue(tx.outputs) then e.pointer.value else base)
       && f.origin.New? && f.origin.pointer == e.pointer && (f.origin.unbound <==> value == 0 || e.unrecognizedEvenField)
       && (f.origin.cursed <==> e.cursed) && (f.origin.vindicated <==> e.vindicated)
  }

  lemma RevealIs(tx: Tx, p: nat, k: nat, base: nat, value: nat)
    requires p < |tx.envelopes| && tx.envelopes[p].input == k
    ensures IsRevealed(tx, p, k, base, value, NewFlotsam(tx, p, base, value))
  {
  }

  class Indexer {
    var counters: Counters
    var cursed: set<InscriptionId>

    ghost function View(): Registry reads this {
      Registry(counters, cursed)
    }

    constructor (reg: Registry)
      ensures View() == reg
    {
      counters, cursed := reg.counters, reg.cursed;
    }

    method UpdateLocation(point: SatPoint, f: Flotsam, out0: Outgoing, numbers0: seq<(InscriptionId, nat)>)
      returns (outgoing: Outgoing, numbers: seq<(InscriptionId, nat)>)
      modifies this
      ensures Settled(counters, outgoing, numbers, cursed)
        == Settle(old(Settled(counters, out0, numbers0, cursed)), point, f)
    {
      outgoing, numbers := out0, numbers0;
      var unbound := false;
      if f.origin.New? {
        if f.origin.cursed {
          counters := counters.(cursed := counters.cursed + 1);
        } else {
          counters := counters.(blessed := counters.blessed + 1);
        }
        numbers := numbers + [(f.id, counters.next)];
        counters := counters.(next := counters.next + 1);
        if f.origin.vindicated || f.origin.cursed {
          cursed := cursed + {f.id};
        }
        unbound := f.origin.unbound;
      }
      var satpoint := point;
      if unbound {
        satpoint := SatPoint(UNBOUND_OUTPOINT, counters.unbound);
        counters := counters.(unbound := counters.unbound + 1);
      }
      outgoing := outgoing + [(satpoint, f.id)];
    }

    method UpdateAll(located: seq<(SatPoint, Flotsam)>)
      returns (outgoing: Outgoing, numbers: seq<(InscriptionId, nat)>)
      modifies this
      ensures Settled(counters, outgoing, numbers, cursed) == SettleAll(Begin(old(View())), located)
    {
      outgoing, numbers := [], [];
      for i := 0 to |located|
        invariant Settled(counters, outgoing, numbers, cursed) == SettleAll(Begin(old(View())), located[..i])
      {
        outgoing, numbers := UpdateLocation(located[i].0, located[i].1, outgoing, numbers);
        assert located[..i + 1][..i] == located[..i];
      }
      assert located[..|located|] == located;
    }

    method GatherInput(tx: Tx, inputs: seq<Input>, k: nat, total: nat, pos0: nat)
      returns (found: seq<Flotsam>, pos: nat)
      requires k < |inputs| && inputs[k].Spent? && total == InputValue(inputs[..k])
      requires pos0 == EnvelopesBefore(tx, inputs, k)
      ensures pos == EnvelopesBefore(tx, inputs, k + 1)
      ensures Floating(tx, inputs, k) + found == Floating(tx, inputs, k + 1)
      ensures var held := inputs[k].body.inscriptions;
        && |found| == |held| + (pos - pos0)
        && (forall j :: 0 <= j < |held| ==> found[j] == Flotsam(held[j].1, InputValue(inputs[..k]) + held[j].0, Old))
        && forall i :: |held| <= i < |found| ==> IsRevealed(tx, pos0 + i - |held|, k, InputValue(inputs[..k]), inputs[k].body.value, found[i])
    {
      hide IsRevealed, InputValue;
      var body := inputs[k].body;
      var olds := [];
      for j := 0 to |body.inscriptions|
        invariant olds == OldFlotsam(body.inscriptions, total)[..j]
      {
        olds := olds + [Flotsam(body.inscriptions[j].1, total + body.inscriptions[j].0, Old)];
      }
      var news := [];
      pos := pos0;
      while pos < |tx.envelopes| && tx.envelopes[pos].input == k
        invariant pos0 <= pos <= |tx.envelopes|
        invariant EnvelopeEnd(tx.envelopes, pos, k) == EnvelopeEnd(tx.envelopes, pos0, k)
        invariant |news| == pos - pos0 && forall i :: 0 <= i < |news| ==> IsRevealed(tx, pos0 + i, k, total, body.value, news[i])
        invariant news == NewFlotsams(tx, pos0, pos, total, body.value)
      {
        RevealIs(tx, pos, k, total, body.value);
        news := news + [NewFlotsam(tx, pos, total, body.value)];
        pos := pos + 1;
      }
      found := olds + news;
      assert Floating(tx, inputs, k) + found == Floating(tx, inputs, k) + olds + news;
      assert forall i :: |olds| <= i < |found| ==> found[i] == news[i - |olds|];
    }

    method Gather(tx: Tx, inputs: seq<Input>) returns (floating: seq<Flotsam>, total: nat)
      ensures floating == Floating(tx, inputs, |inputs|) && total == InputValue(inputs)
    {
      floating, total := [], 0;
      var pos := 0;
      for k := 0 to |inputs|
        invariant floating == Floating(tx, inputs, k)
        invariant total == InputValue(inputs[..k])
        invariant pos == EnvelopesBefore(tx, inputs, k)
      {
        assert inputs[..k + 1][..k] == inputs[..k];
        if inputs[k].Spent? {
          var found;
          found, pos := GatherInput(tx, inputs, k, total, pos);
          floating := floating + found;
        }
        total := total + inputs[k].Value();
      }
      assert inputs[..|inputs|] == inputs;
    }

    method Retarget(tx: Tx, queue: seq<Flotsam>, swept: seq<(SatPoint, Flotsam)>, ranges: map<(nat, nat), nat>)
      returns (located: seq<(SatPoint, Flotsam)>)
      requires RangesOf(tx.outputs, |tx.outputs|, ranges)
      requires swept == Swept(tx, queue[..InsideCount(queue, OutputValue(tx.outputs))])
      ensures located == Inside(tx, queue)
    {
      located := [];
      for i := 0 to |swept|
        invariant located == Inside(tx, queue)[..i]
      {
        var (point, f) := swept[i];
        assert f == queue[i];
        if f.origin.New? && f.origin.pointer.Some? && f.origin.pointer.value < OutputValue(tx.outputs) {
          point := LookupPointer(tx, ranges, f.origin.pointer.value);
        }
        located := located + [(point, f)];
      }
    }

    /** Moves the inscriptions of one transaction, as specified. */
    method IndexInscriptions(tx: Tx, inputs: seq<Input>, reward: nat, carried: seq<Flotsam>) returns (m: Move)
      requires Funded(tx, inputs, reward)
      modifies this
      ensures m == MoveInscriptions(tx, inputs, old(View()), reward, carried)
      ensures View() == Registry(m.settled.counters, m.settled.cursed)
    {
      hide SortByOffset, Floating, InputValue, Swept, SettleAll, Lost, Carry;
      var floating, total := Gather(tx, inputs);
      var coinbase := inputs != [] && inputs[0].Subsidy?;
      var queue := SortByOffset(floating + if coinbase then carried else []);
      SortSpec(floating + if coinbase then carried else []);
      QueueSplit(tx, inputs, carried);
      var swept, rest, ranges, value := Sweep(tx, queue);
      var located := Retarget(tx, queue, swept, ranges);
      if coinbase {
        var outgoing, numbers := UpdateAll(located + Lost(rest, counters.lost, value));
        counters := counters.(lost := counters.lost + reward - value);
        m := Move(Settled(counters, outgoing, numbers, cursed), [], reward);
      } else {
        var outgoing, numbers := UpdateAll(located);
        m := Move(Settled(counters, outgoing, numbers, cursed), carried + Carry(rest, reward, value), reward + total - value);
      }
    }
  }
}
