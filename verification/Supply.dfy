/** The books that every transaction keeps, confirmed or not: runes are
    accounted for, the BRC-20 supply is balances plus locked amounts, and every
    inscription is held at most once. */
module Supply {
  import opened Chain
  import opened Sums
  import opened Inscriptions
  import R = Runes
  import B = Brc20

  function SpentInputs(bodies: seq<TxoBody>): (inputs: seq<Input>)
    ensures |inputs| == |bodies|
    ensures !IsCoinbase(inputs)
  {
    seq(|bodies|, i requires 0 <= i < |bodies| => Spent(bodies[i]))
  }

  // What indexing a transaction yields: rune tables and balances, moved
  // inscriptions, and the BRC-20 books.
  datatype Effects = Effects(runes: R.Indexed, move: Move, books: B.Books)

  // The bodies of the transaction's outputs.
  function Bodies(tx: Tx, height: nat, e: Effects): (bodies: seq<TxoBody>)
    requires |e.runes.outputs| == |tx.outputs|
    ensures |bodies| == |tx.outputs|
  {
    var out := e.move.settled.outgoing;
    seq(|tx.outputs|, v requires 0 <= v < |tx.outputs| =>
      TxoBody(height, tx.outputs[v].value, tx.outputs[v].script, e.runes.outputs[v],
              B.Landed(tx, out, v), B.NewTransfers(tx, out, v, e.books.locked)))
  }

  // The unspent outputs after a transaction that spends `spent`.
  function Next(u: map<OutPoint, TxoBody>, tx: Tx, spent: seq<OutPoint>, bodies: seq<TxoBody>): map<OutPoint, TxoBody> {
    Create(Spend(u, spent), tx.id, bodies)
  }

  // ----- rune accounts

  function RuneMeasure(id: RuneId): TxoBody -> nat {
    (b: TxoBody) => Get(b.runes, id)
  }

  function PerMint(t: R.Tables, id: RuneId): nat {
    if id in t.terms then t.terms[id].amount.GetOr(0) else 0
  }

  function Cap(t: R.Tables, id: RuneId): nat {
    if id in t.terms then t.terms[id].cap.GetOr(0) else 0
  }

  // Rune ids that an etching at or after (height, txIndex) can get.
  predicate Unborn(id: RuneId, height: nat, txIndex: nat) {
    id.block > height || (id.block == height && id.tx >= txIndex)
  }

  /** For a rune of which unspent outputs hold `held`: held + burned == premine +
      mints * amount, with no more mints than the cap; a rune not etched yet has
      neither mints nor premine. */
  ghost predicate RuneEntry(t: R.Tables, id: RuneId, held: nat, burned: nat, premined: nat, height: nat, txIndex: nat) {
    && held + burned == premined + Get(t.mints, id) * PerMint(t, id)
    && Get(t.mints, id) <= Cap(t, id)
    && (Unborn(id, height, txIndex) ==> id !in t.terms && premined == 0)
  }

  lemma {:induction false} HeldInIsMeasure(bodies: seq<TxoBody>, id: RuneId)
    ensures R.HeldIn(bodies, id) == MeasureSeq(bodies, RuneMeasure(id))
  {
    if bodies != [] {
      HeldInIsMeasure(bodies[..|bodies| - 1], id);
    }
  }

  lemma {:induction false} HeldIsMeasure(runes: seq<map<RuneId, nat>>, bodies: seq<TxoBody>, id: RuneId)
    requires |runes| == |bodies| && forall v :: 0 <= v < |bodies| ==> bodies[v].runes == runes[v]
    ensures R.Held(runes, id) == MeasureSeq(bodies, RuneMeasure(id))
  {
    if bodies != [] {
      HeldIsMeasure(runes[..|runes| - 1], bodies[..|bodies| - 1], id);
    }
  }

  lemma TablesKeepAccount(t: R.Tables, tx: Tx, txIndex: nat, height: nat, id: RuneId)
    requires R.WellFormed(tx)
    requires Get(t.mints, id) <= Cap(t, id)
    requires Unborn(id, height, txIndex) ==> id !in t.terms
    ensures var t' := R.NextTables(t, tx, txIndex, height);
      && Get(t'.mints, id) * PerMint(t', id) == Get(t.mints, id) * PerMint(t, id) + R.MintedNow(t, tx, height, id)
      && Get(t'.mints, id) <= Cap(t', id)
      && (Unborn(id, height, txIndex + 1) ==> id !in t'.terms)
  {
    if tx.artifact.Some? && R.MintedId(t, tx.artifact.value, height) == Some(id) {
      assert (Get(t.mints, id) + 1) * PerMint(t, id) == Get(t.mints, id) * PerMint(t, id) + PerMint(t, id);
    }
  }

  /** One transaction keeps the account of every rune. */
  lemma RuneEntryStep(t: R.Tables, tx: Tx, bodies: seq<TxoBody>, txIndex: nat, height: nat, id: RuneId,
                      held: nat, after: nat, burned: nat, premined: nat)
    requires R.WellFormed(tx) && RuneEntry(t, id, held, burned, premined, height, txIndex)
    requires after + R.HeldIn(bodies, id) == held + R.Held(R.IndexRunes(t, tx, bodies, txIndex, height).outputs, id)
    ensures var r := R.IndexRunes(t, tx, bodies, txIndex, height);
      RuneEntry(r.tables, id, after, burned + Get(r.burned, id),
                premined + R.PreminedNow(t, tx, txIndex, height, id), height, txIndex + 1)
  {
    R.RunesConserved(t, tx, bodies, txIndex, height, id);
    TablesKeepAccount(t, tx, txIndex, height, id);
  }

  // The accounts of premined and burned runes after a transaction.
  function PreminedAfter(premined: map<RuneId, nat>, tx: Tx, r: R.Indexed): map<RuneId, nat> {
    if r.etched.Some? && tx.artifact.Some? then R.Credit(premined, r.etched.value, R.Premine(tx.artifact.value)) else premined
  }

  function BurnedAfter(burned: map<RuneId, nat>, r: R.Indexed): map<RuneId, nat> {
    R.AddRunes(burned, r.burned)
  }

  lemma AccountsStep(t: R.Tables, tx: Tx, bodies: seq<TxoBody>, txIndex: nat, height: nat, id: RuneId,
                     premined: map<RuneId, nat>, burned: map<RuneId, nat>)
    requires R.WellFormed(tx)
    ensures var r := R.IndexRunes(t, tx, bodies, txIndex, height);
      && Get(BurnedAfter(burned, r), id) == Get(burned, id) + Get(r.burned, id)
      && Get(PreminedAfter(premined, tx, r), id) == Get(premined, id) + R.PreminedNow(t, tx, txIndex, height, id)
  {
    R.PremineIs(t, tx, txIndex, height, id);
    hide R.Premine, R.PreminedNow, R.EtchedName, R.AfterMint, R.Allocation, R.NextTables, R.LeftoverOutput, R.Settle;
  }

  lemma RunesMeasured(u: map<OutPoint, TxoBody>, tx: Tx, spent: seq<OutPoint>, height: nat, e: Effects, id: RuneId)
    requires |e.runes.outputs| == |tx.outputs| && Spendable(u, spent) && FreshTxid(u, tx.id)
    ensures Measure(Next(u, tx, spent, Bodies(tx, height, e)), RuneMeasure(id)) + R.HeldIn(Resolve(u, spent), id)
         == Measure(u, RuneMeasure(id)) + R.Held(e.runes.outputs, id)
  {
    MeasureStep(u, RuneMeasure(id), spent, tx.id, Bodies(tx, height, e));
    HeldInIsMeasure(Resolve(u, spent), id);
    HeldIsMeasure(e.runes.outputs, Bodies(tx, height, e), id);
  }

  // ----- BRC-20 books and inscription places

  ghost function LockMeasure(t: Ticker): TxoBody -> nat {
    (b: TxoBody) => B.LockedSum(b.transfers, t)
  }

  function HeldSeq(b: TxoBody): (ids: seq<InscriptionId>)
    ensures |ids| == |b.inscriptions|
  {
    seq(|b.inscriptions|, k requires 0 <= k < |b.inscriptions| => b.inscriptions[k].1)
  }

  function IdMeasure(id: InscriptionId): TxoBody -> nat {
    (b: TxoBody) => multiset(HeldSeq(b))[id]
  }

  predicate BodyOk(b: TxoBody) {
    OnItsOutput(b) && B.TransfersHeld(b)
  }

  // How often `id` is among the inscriptions on their way to the coinbase.
  function Carries(carried: seq<Flotsam>, id: InscriptionId): nat {
    multiset(IdsOf(carried))[id]
  }

  /** For every ticker: minted supply == balances + amounts locked in unspent
      transfer inscriptions, and supply <= max. Every inscription is held or
      carried to the coinbase at most once, and sits on a sat of the output
      that holds it. */
  ghost predicate Balanced(u: map<OutPoint, TxoBody>, l: B.Ledger, carried: seq<Flotsam>) {
    && B.Sound(l)
    && (forall t :: Get(l.supply, t) == B.Balance(l, t) + Measure(u, LockMeasure(t)))
    && (forall id :: Measure(u, IdMeasure(id)) + Carries(carried, id) <= 1)
    && (forall o :: o in u ==> BodyOk(u[o]))
  }

  // No unspent output holds an inscription revealed by `txid`.
  predicate FreshIds(utxos: map<OutPoint, TxoBody>, txid: Txid) {
    forall o :: o in utxos ==> forall k :: 0 <= k < |utxos[o].inscriptions| ==> utxos[o].inscriptions[k].1.txid != txid
  }

  // No inscription revealed by `txid` is held or carried.
  ghost predicate Unseen(u: map<OutPoint, TxoBody>, carried: seq<Flotsam>, txid: Txid) {
    forall id: InscriptionId :: id.txid == txid ==> Measure(u, IdMeasure(id)) + Carries(carried, id) == 0
  }

  lemma HeldSeqBag(b: TxoBody, base: nat)
    ensures IdsOf(OldFlotsam(b.inscriptions, base)) == HeldSeq(b)
  {
  }

  lemma NewIdsBag(tx: Tx, pos: nat, end: nat, base: nat, value: nat, id: InscriptionId)
    requires pos <= end <= |tx.envelopes|
    ensures multiset(IdsOf(NewFlotsams(tx, pos, end, base, value)))[id]
      == if id.txid == tx.id && pos <= id.index < end then 1 else 0
    decreases end - pos
  {
    if pos < end {
      NewIdsBag(tx, pos, end - 1, base, value, id);
      var a, b := NewFlotsams(tx, pos, end, base, value), NewFlotsams(tx, pos, end - 1, base, value);
      assert forall j :: 0 <= j < |b| ==> b[j] == a[j];
      assert a[end - 1 - pos] == NewFlotsam(tx, end - 1, base, value);
      assert IdsOf(a) == IdsOf(b) + [InscriptionId(tx.id, end - 1)];
    }
  }

  lemma BagOfThree(a: seq<InscriptionId>, b: seq<InscriptionId>, c: seq<InscriptionId>, id: InscriptionId)
    ensures multiset(a + b + c)[id] == multiset(a)[id] + multiset(b)[id] + multiset(c)[id]
  {
    assert multiset(a + b + c) == multiset(a) + multiset(b) + multiset(c);
  }

  lemma FloatingStepBag(tx: Tx, inputs: seq<Input>, k: nat, id: InscriptionId)
    requires 0 < k <= |inputs| && inputs[k - 1].Spent?
    ensures multiset(IdsOf(Floating(tx, inputs, k)))[id]
      == multiset(IdsOf(Floating(tx, inputs, k - 1)))[id] + multiset(HeldSeq(inputs[k - 1].body))[id]
         + if id.txid == tx.id && EnvelopesBefore(tx, inputs, k - 1) <= id.index < EnvelopesBefore(tx, inputs, k) then 1 else 0
  {
    var base, body := InputValue(inputs[..k - 1]), inputs[k - 1].body;
    var pos, end := EnvelopesBefore(tx, inputs, k - 1), EnvelopesBefore(tx, inputs, k);
    HeldSeqBag(body, base);
    NewIdsBag(tx, pos, end, base, body.value, id);
    var x, y, z := Floating(tx, inputs, k - 1), OldFlotsam(body.inscriptions, base), NewFlotsams(tx, pos, end, base, body.value);
    assert IdsOf(x + y + z) == IdsOf(x) + IdsOf(y) + IdsOf(z);
    BagOfThree(IdsOf(x), IdsOf(y), IdsOf(z), id);
  }

  // Each floating id counts once per output that held it, and once if it is new.
  lemma {:induction false} FloatingCount(tx: Tx, bodies: seq<TxoBody>, k: nat, id: InscriptionId)
    requires k <= |bodies|
    ensures multiset(IdsOf(Floating(tx, SpentInputs(bodies), k)))[id]
      == MeasureSeq(bodies[..k], IdMeasure(id))
         + if id.txid == tx.id && id.index < EnvelopesBefore(tx, SpentInputs(bodies), k) then 1 else 0
  {
    hide HeldSeq;
    if k > 0 {
      FloatingCount(tx, bodies, k - 1, id);
      FloatingStepBag(tx, SpentInputs(bodies), k, id);
      assert bodies[..k][..k - 1] == bodies[..k - 1];
    }
  }

  lemma FreshIdUnheld(utxos: map<OutPoint, TxoBody>, id: InscriptionId)
    requires FreshIds(utxos, id.txid)
    ensures Measure(utxos, IdMeasure(id)) == 0
  {
    var m := map o | o in utxos :: IdMeasure(id)(utxos[o]);
    forall o | o in m ensures m[o] == 0 {
      assert forall k :: 0 <= k < |HeldSeq(utxos[o])| ==> HeldSeq(utxos[o])[k] == utxos[o].inscriptions[k].1;
      assert id !in HeldSeq(utxos[o]);
    }
    ZeroTotal(m);
  }

  function LandedSeq(tx: Tx, out: Outgoing, v: nat): (ids: seq<InscriptionId>)
    ensures |ids| == |B.Landed(tx, out, v)|
  {
    seq(|B.Landed(tx, out, v)|, k requires 0 <= k < |B.Landed(tx, out, v)| => B.Landed(tx, out, v)[k].1)
  }

  function LandedCount(tx: Tx, out: Outgoing, n: nat, id: InscriptionId): nat {
    if n == 0 then 0 else LandedCount(tx, out, n - 1, id) + multiset(LandedSeq(tx, out, n - 1))[id]
  }

  function LandedAt(tx: Tx, x: (SatPoint, InscriptionId), v: nat, id: InscriptionId): nat {
    if x.1 == id && x.0.outpoint == OutPoint(tx.id, v) then 1 else 0
  }

  lemma LandedSeqSnoc(tx: Tx, front: Outgoing, last: (SatPoint, InscriptionId), v: nat, id: InscriptionId)
    ensures multiset(LandedSeq(tx, front + [last], v))[id] == multiset(LandedSeq(tx, front, v))[id] + LandedAt(tx, last, v, id)
  {
    var out := front + [last];
    assert out[..|out| - 1] == front;
    if last.0.outpoint == OutPoint(tx.id, v) {
      assert LandedSeq(tx, out, v) == LandedSeq(tx, front, v) + [last.1];
    } else {
      assert LandedSeq(tx, out, v) == LandedSeq(tx, front, v);
    }
  }

  lemma {:induction false} LandedCountSnoc(tx: Tx, front: Outgoing, last: (SatPoint, InscriptionId), n: nat, id: InscriptionId)
    ensures LandedCount(tx, front + [last], n, id) <= LandedCount(tx, front, n, id) + if last.1 == id then 1 else 0
    ensures last.0.outpoint.txid == tx.id && last.0.outpoint.vout >= n ==>
      LandedCount(tx, front + [last], n, id) == LandedCount(tx, front, n, id)
  {
    hide LandedSeq;
    if n > 0 {
      LandedCountSnoc(tx, front, last, n - 1, id);
      LandedSeqSnoc(tx, front, last, n - 1, id);
    }
  }

  lemma {:induction false} NothingLanded(tx: Tx, n: nat, id: InscriptionId)
    ensures LandedCount(tx, [], n, id) == 0
  {
    if n > 0 {
      NothingLanded(tx, n - 1, id);
      assert LandedSeq(tx, [], n - 1) == [];
    }
  }

  // No id lands on more outputs than it leaves the transaction.
  lemma {:induction false} LandedAtMostOnce(tx: Tx, out: Outgoing, n: nat, id: InscriptionId)
    ensures LandedCount(tx, out, n, id) <= multiset(OutIds(out))[id]
  {
    if out == [] {
      NothingLanded(tx, n, id);
    } else {
      var front, last := out[..|out| - 1], out[|out| - 1];
      assert out == front + [last];
      LandedAtMostOnce(tx, front, n, id);
      LandedCountSnoc(tx, front, last, n, id);
      assert OutIds(out) == OutIds(front) + [last.1];
    }
  }

  lemma {:induction false} BodiesCount(tx: Tx, height: nat, e: Effects, n: nat, id: InscriptionId)
    requires |e.runes.outputs| == |tx.outputs| && n <= |tx.outputs|
    ensures MeasureSeq(Bodies(tx, height, e)[..n], IdMeasure(id)) == LandedCount(tx, e.move.settled.outgoing, n, id)
  {
    if n > 0 {
      var bodies := Bodies(tx, height, e);
      BodiesCount(tx, height, e, n - 1, id);
      assert bodies[..n][..n - 1] == bodies[..n - 1];
      assert HeldSeq(bodies[n - 1]) == LandedSeq(tx, e.move.settled.outgoing, n - 1);
    }
  }

  lemma {:induction false} BodiesLocked(tx: Tx, height: nat, e: Effects, n: nat, t: Ticker)
    requires |e.runes.outputs| == |tx.outputs| && n <= |tx.outputs|
    ensures MeasureSeq(Bodies(tx, height, e)[..n], LockMeasure(t))
      == B.LockedOutputs(tx, e.move.settled.outgoing, e.books.locked, n, t)
  {
    if n > 0 {
      BodiesLocked(tx, height, e, n - 1, t);
      assert Bodies(tx, height, e)[..n][..n - 1] == Bodies(tx, height, e)[..n - 1];
    }
  }

  lemma {:induction false} InputsLocked(bodies: seq<TxoBody>, t: Ticker)
    ensures B.LockedInputs(SpentInputs(bodies), t) == MeasureSeq(bodies, LockMeasure(t))
  {
    if bodies != [] {
      InputsLocked(bodies[..|bodies| - 1], t);
      assert SpentInputs(bodies)[..|bodies| - 1] == SpentInputs(bodies[..|bodies| - 1]);
    }
  }

  // ----- what a transaction brings in

  // The unspent outputs it spends, or for a coinbase the subsidy alone.
  ghost predicate Brings(u: map<OutPoint, TxoBody>, spent: seq<OutPoint>, inputs: seq<Input>) {
    && Spendable(u, spent)
    && (inputs == SpentInputs(Resolve(u, spent)) || (spent == [] && |inputs| == 1 && inputs[0].Subsidy?))
  }

  // An id floats at most as often as the inputs held it, and once more if it is new.
  lemma FloatsAtMost(u: map<OutPoint, TxoBody>, tx: Tx, spent: seq<OutPoint>, inputs: seq<Input>, id: InscriptionId)
    requires Brings(u, spent, inputs)
    ensures multiset(IdsOf(Floating(tx, inputs, |inputs|)))[id]
      <= MeasureSeq(Resolve(u, spent), IdMeasure(id)) + if id.txid == tx.id then 1 else 0
  {
    if inputs == SpentInputs(Resolve(u, spent)) {
      var bodies := Resolve(u, spent);
      FloatingCount(tx, bodies, |bodies|, id);
      assert bodies[..|bodies|] == bodies;
    } else {
      assert Floating(tx, inputs, 1) == [];
    }
  }

  lemma LockedIn(u: map<OutPoint, TxoBody>, spent: seq<OutPoint>, inputs: seq<Input>, t: Ticker)
    requires Brings(u, spent, inputs)
    ensures B.LockedInputs(inputs, t) == MeasureSeq(Resolve(u, spent), LockMeasure(t))
  {
    if inputs == SpentInputs(Resolve(u, spent)) {
      InputsLocked(Resolve(u, spent), t);
    } else {
      assert inputs[..0] == [];
    }
  }

  lemma InputsHoldTransfers(u: map<OutPoint, TxoBody>, spent: seq<OutPoint>, inputs: seq<Input>)
    requires Brings(u, spent, inputs) && forall o :: o in u ==> BodyOk(u[o])
    ensures B.AllTransfersHeld(inputs)
  {
  }

  lemma NoDuplicatesFloat(u: map<OutPoint, TxoBody>, tx: Tx, spent: seq<OutPoint>, inputs: seq<Input>, carried: seq<Flotsam>)
    requires Brings(u, spent, inputs) && Unseen(u, carried, tx.id)
    requires forall id :: Measure(u, IdMeasure(id)) + Carries(carried, id) <= 1
    ensures B.NoDuplicates(multiset(IdsOf(Floating(tx, inputs, |inputs|))) + multiset(IdsOf(carried)))
  {
    var ids, more := multiset(IdsOf(Floating(tx, inputs, |inputs|))), multiset(IdsOf(carried));
    forall id ensures (ids + more)[id] <= 1 {
      FloatsAtMost(u, tx, spent, inputs, id);
      MeasureSpend(u, IdMeasure(id), spent);
      assert Measure(u, IdMeasure(id)) + Carries(carried, id) <= 1;
      assert (ids + more)[id] == ids[id] + more[id];
    }
  }

  // ----- the effects of a transaction

  // Inscriptions and BRC-20 ledger of `e` are those of indexing the transaction.
  ghost predicate Indexes(e: Effects, tx: Tx, inputs: seq<Input>, l: B.Ledger, reg: Registry, reward: nat, carried: seq<Flotsam>) {
    && |e.runes.outputs| == |tx.outputs| && Funded(tx, inputs, reward) && B.Sound(l)
    && e.move == MoveInscriptions(tx, inputs, reg, reward, carried)
    && e.books == B.IndexLedger(l, tx, inputs, e.move.settled.outgoing, B.Rest(tx, inputs, carried))
  }

  lemma OutputsHoldFloating(tx: Tx, inputs: seq<Input>, reg: Registry, reward: nat, carried: seq<Flotsam>, height: nat, e: Effects, id: InscriptionId)
    requires |e.runes.outputs| == |tx.outputs| && Funded(tx, inputs, reward)
    requires e.move == MoveInscriptions(tx, inputs, reg, reward, carried)
    ensures MeasureSeq(Bodies(tx, height, e), IdMeasure(id)) + Carries(e.move.carried, id)
      <= multiset(IdsOf(Floating(tx, inputs, |inputs|)))[id] + Carries(carried, id)
  {
    BodiesCount(tx, height, e, |tx.outputs|, id);
    assert Bodies(tx, height, e)[..|tx.outputs|] == Bodies(tx, height, e);
    LandedAtMostOnce(tx, e.move.settled.outgoing, |tx.outputs|, id);
    ExactlyOnce(tx, inputs, reg, reward, carried);
    var a, b := multiset(OutIds(e.move.settled.outgoing)), multiset(IdsOf(e.move.carried));
    var x, y := multiset(IdsOf(Floating(tx, inputs, |inputs|))), multiset(IdsOf(carried));
    assert (a + b)[id] == a[id] + b[id] && (x + y)[id] == x[id] + y[id];
  }

  /** No inscription multiplies: held and carried together grow by one at most,
      and only for an inscription that this transaction reveals. */
  lemma IdsStep(u: map<OutPoint, TxoBody>, l: B.Ledger, tx: Tx, spent: seq<OutPoint>, inputs: seq<Input>, reg: Registry, reward: nat,
                carried: seq<Flotsam>, height: nat, e: Effects, id: InscriptionId)
    requires Brings(u, spent, inputs) && FreshTxid(u, tx.id) && Indexes(e, tx, inputs, l, reg, reward, carried)
    ensures Measure(Next(u, tx, spent, Bodies(tx, height, e)), IdMeasure(id)) + Carries(e.move.carried, id)
      <= Measure(u, IdMeasure(id)) + Carries(carried, id) + if id.txid == tx.id then 1 else 0
  {
    hide Measure, MeasureSeq, Bodies, MoveInscriptions, B.IndexLedger;
    MeasureStep(u, IdMeasure(id), spent, tx.id, Bodies(tx, height, e));
    OutputsHoldFloating(tx, inputs, reg, reward, carried, height, e, id);
    FloatsAtMost(u, tx, spent, inputs, id);
  }

  // ----- the outputs of a transaction are well formed

  lemma {:induction false} LandedFrom(tx: Tx, out: Outgoing, v: nat, i: nat) returns (j: nat)
    requires i < |B.Landed(tx, out, v)|
    ensures j < |out| && out[j].0.outpoint == OutPoint(tx.id, v)
    ensures B.Landed(tx, out, v)[i] == (out[j].0.offset, out[j].1)
  {
    var front := out[..|out| - 1];
    if i < |B.Landed(tx, front, v)| {
      j := LandedFrom(tx, front, v, i);
    } else {
      j := |out| - 1;
    }
  }

  lemma LandedOffsets(tx: Tx, inputs: seq<Input>, reg: Registry, reward: nat, carried: seq<Flotsam>, v: nat)
    requires Funded(tx, inputs, reward) && tx.id != ZERO_TXID && v < |tx.outputs|
    ensures var landed := B.Landed(tx, MoveInscriptions(tx, inputs, reg, reward, carried).settled.outgoing, v);
      forall i :: 0 <= i < |landed| ==> landed[i].0 < tx.outputs[v].value
  {
    hide MoveInscriptions, Funded;
    var out := MoveInscriptions(tx, inputs, reg, reward, carried).settled.outgoing;
    var landed := B.Landed(tx, out, v);
    forall i | 0 <= i < |landed| ensures landed[i].0 < tx.outputs[v].value {
      var j := LandedFrom(tx, out, v, i);
      LandsOnItsOutput(tx, inputs, reg, reward, carried, j);
    }
  }

  lemma BodyIsOk(tx: Tx, inputs: seq<Input>, reg: Registry, reward: nat, carried: seq<Flotsam>, height: nat, e: Effects, v: nat)
    requires |e.runes.outputs| == |tx.outputs| && Funded(tx, inputs, reward)
    requires tx.id != ZERO_TXID && v < |tx.outputs|
    requires e.move == MoveInscriptions(tx, inputs, reg, reward, carried)
    ensures BodyOk(Bodies(tx, height, e)[v])
  {
    var out := e.move.settled.outgoing;
    LandedOffsets(tx, inputs, reg, reward, carried, v);
    B.LandedContents(tx, out, v);
    assert B.HeldIds(Bodies(tx, height, e)[v]) == B.LandedIds(tx, out, v);
  }

  lemma BodiesStep(u: map<OutPoint, TxoBody>, l: B.Ledger, tx: Tx, spent: seq<OutPoint>, inputs: seq<Input>, reg: Registry, reward: nat,
                   carried: seq<Flotsam>, height: nat, e: Effects, o: OutPoint)
    requires Indexes(e, tx, inputs, l, reg, reward, carried) && tx.id != ZERO_TXID && (o in u ==> BodyOk(u[o]))
    ensures var u' := Next(u, tx, spent, Bodies(tx, height, e));
      o in u' ==> BodyOk(u'[o])
  {
    hide BodyOk, Bodies, MoveInscriptions, Funded, B.IndexLedger;
    SpendContents(u, spent);
    CreateContents(Spend(u, spent), tx.id, Bodies(tx, height, e));
    if o.txid == tx.id && o.vout < |tx.outputs| {
      BodyIsOk(tx, inputs, reg, reward, carried, height, e, o.vout);
    }
  }

  // ----- the BRC-20 supply

  lemma SupplyCommit(u: map<OutPoint, TxoBody>, l: B.Ledger, tx: Tx, spent: seq<OutPoint>, inputs: seq<Input>, height: nat, e: Effects, t: Ticker)
    requires |e.runes.outputs| == |tx.outputs|
    requires Brings(u, spent, inputs) && FreshTxid(u, tx.id)
    requires Get(l.supply, t) == B.Balance(l, t) + Measure(u, LockMeasure(t))
    requires Get(e.books.ledger.supply, t) + B.Balance(l, t) + B.LockedInputs(inputs, t)
      == Get(l.supply, t) + B.Balance(e.books.ledger, t)
         + B.LockedOutputs(tx, e.move.settled.outgoing, e.books.locked, |tx.outputs|, t)
    ensures Get(e.books.ledger.supply, t) == B.Balance(e.books.ledger, t)
      + Measure(Next(u, tx, spent, Bodies(tx, height, e)), LockMeasure(t))
  {
    MeasureStep(u, LockMeasure(t), spent, tx.id, Bodies(tx, height, e));
    LockedIn(u, spent, inputs, t);
    BodiesLocked(tx, height, e, |tx.outputs|, t);
    assert Bodies(tx, height, e)[..|tx.outputs|] == Bodies(tx, height, e);
  }

  lemma SupplyStep(u: map<OutPoint, TxoBody>, l: B.Ledger, tx: Tx, spent: seq<OutPoint>, inputs: seq<Input>, reg: Registry, reward: nat,
                   carried: seq<Flotsam>, height: nat, e: Effects, t: Ticker)
    requires Brings(u, spent, inputs) && FreshTxid(u, tx.id) && Unseen(u, carried, tx.id) && Balanced(u, l, carried)
    requires Indexes(e, tx, inputs, l, reg, reward, carried)
    ensures Get(e.books.ledger.supply, t) == B.Balance(e.books.ledger, t)
      + Measure(Next(u, tx, spent, Bodies(tx, height, e)), LockMeasure(t))
  {
    hide Measure, LockMeasure, IdMeasure, Carries, Bodies, B.Sound, B.Balance, B.IndexLedger, MoveInscriptions, Funded;
    NoDuplicatesFloat(u, tx, spent, inputs, carried);
    InputsHoldTransfers(u, spent, inputs);
    B.LedgerConserved(l, tx, inputs, reg, reward, carried, t);
    SupplyCommit(u, l, tx, spent, inputs, height, e, t);
  }

  /** One transaction, ordinary or coinbase, keeps the BRC-20 books and every
      inscription in one place. */
  lemma BalancedStep(u: map<OutPoint, TxoBody>, l: B.Ledger, tx: Tx, spent: seq<OutPoint>, inputs: seq<Input>, reg: Registry, reward: nat,
                     carried: seq<Flotsam>, height: nat, e: Effects)
    requires Brings(u, spent, inputs) && FreshTxid(u, tx.id) && tx.id != ZERO_TXID
    requires Unseen(u, carried, tx.id) && Balanced(u, l, carried) && Indexes(e, tx, inputs, l, reg, reward, carried)
    ensures Balanced(Next(u, tx, spent, Bodies(tx, height, e)), e.books.ledger, e.move.carried)
  {
    hide Bodies, Measure, LockMeasure, IdMeasure, Carries, BodyOk, B.Balance, Next, Brings, MoveInscriptions, Funded;
    var u' := Next(u, tx, spent, Bodies(tx, height, e));
    forall t ensures Get(e.books.ledger.supply, t) == B.Balance(e.books.ledger, t) + Measure(u', LockMeasure(t)) {
      SupplyStep(u, l, tx, spent, inputs, reg, reward, carried, height, e, t);
    }
    forall id ensures Measure(u', IdMeasure(id)) + Carries(e.move.carried, id) <= 1 {
      IdsStep(u, l, tx, spent, inputs, reg, reward, carried, height, e, id);
      assert Measure(u, IdMeasure(id)) + Carries(carried, id) <= 1;
    }
    forall o | o in u' ensures BodyOk(u'[o]) {
      BodiesStep(u, l, tx, spent, inputs, reg, reward, carried, height, e, o);
    }
  }

  // Inscriptions of other transactions stay unseen.
  lemma UnseenStep(u: map<OutPoint, TxoBody>, l: B.Ledger, tx: Tx, spent: seq<OutPoint>, inputs: seq<Input>, reg: Registry, reward: nat,
                   carried: seq<Flotsam>, height: nat, e: Effects, txid: Txid)
    requires Brings(u, spent, inputs) && FreshTxid(u, tx.id) && Indexes(e, tx, inputs, l, reg, reward, carried)
    requires Unseen(u, carried, txid) && txid != tx.id
    ensures Unseen(Next(u, tx, spent, Bodies(tx, height, e)), e.move.carried, txid)
  {
    hide Bodies, Measure, IdMeasure, Carries, Next, Brings, MoveInscriptions, B.IndexLedger, Funded;
    forall id: InscriptionId | id.txid == txid
      ensures Measure(Next(u, tx, spent, Bodies(tx, height, e)), IdMeasure(id)) + Carries(e.move.carried, id) == 0
    {
      IdsStep(u, l, tx, spent, inputs, reg, reward, carried, height, e, id);
    }
  }

  lemma FreshIsUnseen(u: map<OutPoint, TxoBody>, txid: Txid)
    requires FreshIds(u, txid)
    ensures Unseen(u, [], txid)
  {
    forall id: InscriptionId | id.txid == txid ensures Measure(u, IdMeasure(id)) + Carries([], id) == 0 {
      FreshIdUnheld(u, id);
    }
  }

  // Inscriptions that are not passed on are simply no longer held.
  lemma DropCarried(u: map<OutPoint, TxoBody>, l: B.Ledger, carried: seq<Flotsam>)
    requires Balanced(u, l, carried)
    ensures Balanced(u, l, [])
  {
    hide Measure, IdMeasure, LockMeasure, B.Balance, BodyOk;
    forall id ensures Measure(u, IdMeasure(id)) + Carries([], id) <= 1 {
      assert Measure(u, IdMeasure(id)) + Carries(carried, id) <= 1;
    }
  }
}
