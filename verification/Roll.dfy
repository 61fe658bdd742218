/** The mempool worker: estimated blocks are folded over a snapshot of the
    chain, one transaction at a time. Supply invariants hold over every run. */
module Roll {
  import opened Chain
  import opened Sums
  import opened Inscriptions
  import opened Supply
  import R = Runes
  import B = Brc20

  // `premined` and `burned` keep the rune accounts that the indexer leaves
  // implicit; everything else is state it stores or caches.
  datatype State = State(
    utxos: map<OutPoint, TxoBody>,
    runes: R.Tables,
    ledger: B.Ledger,
    registry: Registry,
    premined: map<RuneId, nat>,
    burned: map<RuneId, nat>)

  datatype Outcome = MissingTxo(outpoint: OutPoint) | Done(state: State, reward: nat)

  // ----- one transaction

  // What consensus and the parsers guarantee about a transaction.
  predicate Valid(s: State, tx: Tx, reward: nat) {
    && R.WellFormed(tx)
    && tx.id != ZERO_TXID && FreshTxid(s.utxos, tx.id) && FreshIds(s.utxos, tx.id)
    && Distinct(tx.inputs)
    && ((forall i :: 0 <= i < |tx.inputs| ==> tx.inputs[i] in s.utxos) ==>
          Funded(tx, SpentInputs(Resolve(s.utxos, tx.inputs)), reward))
  }

  function FirstMissing(utxos: map<OutPoint, TxoBody>, inputs: seq<OutPoint>): (o: Option<OutPoint>)
    ensures o.None? <==> forall i :: 0 <= i < |inputs| ==> inputs[i] in utxos
    ensures o.Some? ==> o.value in inputs && o.value !in utxos
  {
    if inputs == [] then None
    else if inputs[0] !in utxos then Some(inputs[0])
    else FirstMissing(utxos, inputs[1..])
  }

  /** The input reported missing is the first that is. */
  lemma {:induction false} MissingIsFirst(utxos: map<OutPoint, TxoBody>, inputs: seq<OutPoint>, i: nat)
    requires i < |inputs| && inputs[i] !in utxos && forall j :: 0 <= j < i ==> inputs[j] in utxos
    ensures FirstMissing(utxos, inputs) == Some(inputs[i])
  {
    if i > 0 {
      MissingIsFirst(utxos, inputs[1..], i - 1);
    }
  }

  ghost predicate Resolvable(s: State, tx: Tx, reward: nat) {
    Valid(s, tx, reward) && B.Sound(s.ledger) && forall i :: 0 <= i < |tx.inputs| ==> tx.inputs[i] in s.utxos
  }

  function Process(s: State, tx: Tx, txIndex: nat, height: nat, reward: nat): (e: Effects)
    requires Valid(s, tx, reward) && B.Sound(s.ledger)
    requires forall i :: 0 <= i < |tx.inputs| ==> tx.inputs[i] in s.utxos
    ensures |e.runes.outputs| == |tx.outputs|
  {
    var bodies := Resolve(s.utxos, tx.inputs);
    var inputs := SpentInputs(bodies);
    var move := MoveInscriptions(tx, inputs, s.registry, reward, []);
    Effects(R.IndexRunes(s.runes, tx, bodies, txIndex, height), move,
            B.IndexLedger(s.ledger, tx, inputs, move.settled.outgoing, B.Rest(tx, inputs, [])))
  }

  function Commit(s: State, tx: Tx, height: nat, e: Effects): State
    requires |e.runes.outputs| == |tx.outputs|
  {
    State(
      Next(s.utxos, tx, tx.inputs, Bodies(tx, height, e)),
      e.runes.tables,
      e.books.ledger,
      Registry(e.move.settled.counters, e.move.settled.cursed),
      PreminedAfter(s.premined, tx, e.runes),
      BurnedAfter(s.burned, e.runes))
  }

  function Step(s: State, tx: Tx, txIndex: nat, height: nat, reward: nat): Outcome
    requires Valid(s, tx, reward) && B.Sound(s.ledger)
  {
    var missing := FirstMissing(s.utxos, tx.inputs);
    if missing.Some? then MissingTxo(missing.value) else
      var e := Process(s, tx, txIndex, height, reward);
      Done(Commit(s, tx, height, e), e.move.reward)
  }

  // ----- the books

  /** Every rune is accounted for. */
  ghost predicate RuneBooks(s: State, height: nat, txIndex: nat) {
    forall id :: RuneAccount(s, id, height, txIndex)
  }

  ghost predicate RuneAccount(s: State, id: RuneId, height: nat, txIndex: nat) {
    RuneEntry(s.runes, id, Measure(s.utxos, RuneMeasure(id)), Get(s.burned, id), Get(s.premined, id), height, txIndex)
  }

  /** BRC-20 supply and inscriptions balance. */
  ghost predicate LedgerBooks(s: State) {
    Balanced(s.utxos, s.ledger, [])
  }

  // The sats of some unspent outputs together.
  function ValueOf(utxos: map<OutPoint, TxoBody>, points: seq<OutPoint>): nat
    requires forall i :: 0 <= i < |points| ==> points[i] in utxos
  {
    if points == [] then 0 else ValueOf(utxos, points[..|points| - 1]) + utxos[points[|points| - 1]].value
  }

  lemma {:induction false} ValueOfInputs(utxos: map<OutPoint, TxoBody>, points: seq<OutPoint>, k: nat)
    requires (forall i :: 0 <= i < |points| ==> points[i] in utxos) && k <= |points|
    ensures InputValue(SpentInputs(Resolve(utxos, points))[..k]) == ValueOf(utxos, points[..k])
  {
    if k > 0 {
      ValueOfInputs(utxos, points, k - 1);
      assert SpentInputs(Resolve(utxos, points))[..k][..k - 1] == SpentInputs(Resolve(utxos, points))[..k - 1];
      assert points[..k][..k - 1] == points[..k - 1];
    }
  }

  // Output v of the transaction is unspent, as it stands there, and holds the
  // inscription on its sat `o`.
  predicate HoldsAt(utxos: map<OutPoint, TxoBody>, tx: Tx, v: nat, o: nat, id: InscriptionId) {
    && v < |tx.outputs| && OutPoint(tx.id, v) in utxos
    && var body := utxos[OutPoint(tx.id, v)];
       body.value == tx.outputs[v].value > o && body.script == tx.outputs[v].script && (o, id) in body.inscriptions
  }

  lemma CommitHolds(s: State, tx: Tx, height: nat, e: Effects, i: nat)
    requires |e.runes.outputs| == |tx.outputs| && i < |e.move.settled.outgoing|
    requires e.move.settled.outgoing[i].0.outpoint.txid == tx.id && e.move.settled.outgoing[i].0.outpoint.vout < |tx.outputs|
    requires e.move.settled.outgoing[i].0.offset < tx.outputs[e.move.settled.outgoing[i].0.outpoint.vout].value
    ensures var (point, id) := e.move.settled.outgoing[i];
      HoldsAt(Commit(s, tx, height, e).utxos, tx, point.outpoint.vout, point.offset, id)
  {
    hide Spend, Create, PreminedAfter, BurnedAfter;
    var (point, id) := e.move.settled.outgoing[i];
    B.LandedAre(tx, e.move.settled.outgoing, point.outpoint.vout, point.offset, id);
    assert OutPoint(tx.id, point.outpoint.vout) == point.outpoint;
    hide B.Landed;
    CreateContents(Spend(s.utxos, tx.inputs), tx.id, Bodies(tx, height, e));
  }

  /** A sat is followed from the output that is spent to the one that is created:
      an inscription on sat `o` of input k is afterwards recorded with the output,
      and on the sat of it, that lies as far behind the first output's first sat as
      it lay behind the first input's. */
  lemma SatFollowed(s: State, tx: Tx, txIndex: nat, height: nat, reward: nat, k: nat, j: nat)
    requires Resolvable(s, tx, reward) && k < |tx.inputs| && j < |s.utxos[tx.inputs[k]].inscriptions|
    ensures var (o, id) := s.utxos[tx.inputs[k]].inscriptions[j];
      var sat := ValueOf(s.utxos, tx.inputs[..k]) + o;
      var r := Step(s, tx, txIndex, height, reward);
      && r.Done?
      && (sat < OutputValue(tx.outputs) ==>
            exists v: nat, o': nat :: HoldsAt(r.state.utxos, tx, v, o', id) && OutputValue(tx.outputs[..v]) + o' == sat)
  {
    hide Commit, HoldsAt, ValueOf, OutputValue, InputValue, MoveInscriptions, R.IndexRunes, B.IndexLedger, B.Rest, FirstMissing, Funded, B.Sound;
    var (o, id) := s.utxos[tx.inputs[k]].inscriptions[j];
    var sat := ValueOf(s.utxos, tx.inputs[..k]) + o;
    var e := Process(s, tx, txIndex, height, reward);
    var inputs := SpentInputs(Resolve(s.utxos, tx.inputs));
    InputToOutput(tx, inputs, s.registry, reward, [], k, j);
    ValueOfInputs(s.utxos, tx.inputs, k);
    if sat < OutputValue(tx.outputs) {
      assert LeavesOn(tx, e.move, id, sat);
      var i :| 0 <= i < |e.move.settled.outgoing| && e.move.settled.outgoing[i].1 == id && SameSat(tx, sat, e.move.settled.outgoing[i].0);
      CommitHolds(s, tx, height, e, i);
    }
  }

  lemma RuneStep(s: State, tx: Tx, txIndex: nat, height: nat, reward: nat, id: RuneId)
    requires Resolvable(s, tx, reward)
    requires RuneAccount(s, id, height, txIndex)
    ensures RuneAccount(Commit(s, tx, height, Process(s, tx, txIndex, height, reward)), id, height, txIndex + 1)
  {
    hide Measure, Bodies, MoveInscriptions, Funded, B.IndexLedger, R.IndexRunes, PreminedAfter, BurnedAfter, RuneEntry;
    var e, bodies := Process(s, tx, txIndex, height, reward), Resolve(s.utxos, tx.inputs);
    var after := Measure(Next(s.utxos, tx, tx.inputs, Bodies(tx, height, e)), RuneMeasure(id));
    RunesMeasured(s.utxos, tx, tx.inputs, height, e, id);
    AccountsStep(s.runes, tx, bodies, txIndex, height, id, s.premined, s.burned);
    RuneEntryStep(s.runes, tx, bodies, txIndex, height, id, Measure(s.utxos, RuneMeasure(id)), after, Get(s.burned, id), Get(s.premined, id));
  }

  /** One transaction keeps the BRC-20 books. */
  lemma LedgerStep(s: State, tx: Tx, txIndex: nat, height: nat, reward: nat)
    requires Resolvable(s, tx, reward) && LedgerBooks(s)
    ensures LedgerBooks(Commit(s, tx, height, Process(s, tx, txIndex, height, reward)))
  {
    hide Balanced, Bodies, Unseen, MoveInscriptions, Funded, B.IndexLedger, R.IndexRunes, FreshIds;
    var e, inputs := Process(s, tx, txIndex, height, reward), SpentInputs(Resolve(s.utxos, tx.inputs));
    FreshIsUnseen(s.utxos, tx.id);
    BalancedStep(s.utxos, s.ledger, tx, tx.inputs, inputs, s.registry, reward, [], height, e);
    DropCarried(Next(s.utxos, tx, tx.inputs, Bodies(tx, height, e)), e.books.ledger, e.move.carried);
  }

  // ----- whole runs

  datatype Run = Failed(outpoint: OutPoint) | Ran(state: State)

  // Every transaction of the block is valid when its turn comes.
  ghost predicate ValidTxs(s: State, txs: seq<Tx>, txIndex: nat, height: nat, reward: nat)
    decreases |txs| - txIndex
  {
    txIndex < |txs| ==>
      && Valid(s, txs[txIndex], reward)
      && (B.Sound(s.ledger) ==>
            var o := Step(s, txs[txIndex], txIndex, height, reward);
            o.Done? ==> ValidTxs(o.state, txs, txIndex + 1, height, o.reward))
  }

  ghost function RunTxs(s: State, txs: seq<Tx>, txIndex: nat, height: nat, reward: nat): (r: Run)
    requires LedgerBooks(s) && ValidTxs(s, txs, txIndex, height, reward)
    ensures r.Ran? ==> LedgerBooks(r.state)
    decreases |txs| - txIndex
  {
    if txIndex >= |txs| then Ran(s) else
      match Step(s, txs[txIndex], txIndex, height, reward)
      case MissingTxo(outpoint) => Failed(outpoint)
      case Done(s', reward') =>
        LedgerStep(s, txs[txIndex], txIndex, height, reward);
        RunTxs(s', txs, txIndex + 1, height, reward')
  }

  ghost predicate ValidBlocks(s: State, blocks: seq<seq<Tx>>, height: nat)
    requires LedgerBooks(s)
    decreases |blocks|
  {
    blocks != [] ==>
      && ValidTxs(s, blocks[0], 0, height, BlockSubsidy(height))
      && var r := RunTxs(s, blocks[0], 0, height, BlockSubsidy(height));
         (r.Ran? ==> ValidBlocks(r.state, blocks[1..], height + 1))
  }

  // The worker's loop over the estimated blocks, from `height` on.
  ghost function RunBlocks(s: State, blocks: seq<seq<Tx>>, height: nat): (r: Run)
    requires LedgerBooks(s) && ValidBlocks(s, blocks, height)
    ensures r.Ran? ==> LedgerBooks(r.state)
    decreases |blocks|
  {
    if blocks == [] then Ran(s) else
      match RunTxs(s, blocks[0], 0, height, BlockSubsidy(height))
      case Failed(outpoint) => Failed(outpoint)
      case Ran(s') => RunBlocks(s', blocks[1..], height + 1)
  }

  lemma RuneBooksStep(s: State, tx: Tx, txIndex: nat, height: nat, reward: nat)
    requires Resolvable(s, tx, reward) && RuneBooks(s, height, txIndex)
    ensures RuneBooks(Commit(s, tx, height, Process(s, tx, txIndex, height, reward)), height, txIndex + 1)
  {
    var s', next := Commit(s, tx, height, Process(s, tx, txIndex, height, reward)), txIndex + 1;
    forall id ensures RuneAccount(s', id, height, next) {
      assert RuneAccount(s, id, height, txIndex);
      RuneStep(s, tx, txIndex, height, reward, id);
    }
  }

  lemma RuneBooksNextBlock(s: State, height: nat, txIndex: nat)
    requires RuneBooks(s, height, txIndex)
    ensures RuneBooks(s, height + 1, 0)
  {
    var next := height + 1;
    forall id ensures RuneAccount(s, id, next, 0) {
      assert RuneAccount(s, id, height, txIndex);
    }
  }

  lemma {:induction false} RunTxsKeepsRunes(s: State, txs: seq<Tx>, txIndex: nat, height: nat, reward: nat)
    requires RuneBooks(s, height, txIndex) && LedgerBooks(s) && ValidTxs(s, txs, txIndex, height, reward)
    ensures var r := RunTxs(s, txs, txIndex, height, reward);
      r.Ran? ==> RuneBooks(r.state, height + 1, 0)
    decreases |txs| - txIndex
  {
    if txIndex >= |txs| {
      RuneBooksNextBlock(s, height, txIndex);
    } else {
      hide LedgerBooks, RuneBooks, ValidTxs, RunTxs, Valid, Process, Commit, B.Sound;
      TxTurn(s, txs, txIndex, height, reward);
      var o := Step(s, txs[txIndex], txIndex, height, reward);
      if o.Done? {
        RuneBooksStep(s, txs[txIndex], txIndex, height, reward);
        RunTxsKeepsRunes(o.state, txs, txIndex + 1, height, o.reward);
      }
    }
  }

  /** Over every run of estimated blocks, every rune stays accounted for:
      unspent + burned == premine + mints * amount, and mints <= cap. */
  lemma {:induction false} RunKeepsRunes(s: State, blocks: seq<seq<Tx>>, height: nat, end: nat)
    requires end == height + |blocks|
    requires RuneBooks(s, height, 0) && LedgerBooks(s) && ValidBlocks(s, blocks, height)
    ensures RunBlocks(s, blocks, height).Ran? ==> RuneBooks(RunBlocks(s, blocks, height).state, end, 0)
    decreases |blocks|
  {
    if blocks != [] {
      var r := RunTxs(s, blocks[0], 0, height, BlockSubsidy(height));
      if r.Ran? {
        RunTxsKeepsRunes(s, blocks[0], 0, height, BlockSubsidy(height));
        assert RunBlocks(s, blocks, height) == RunBlocks(r.state, blocks[1..], height + 1);
        RunKeepsRunes(r.state, blocks[1..], height + 1, end);
      }
    }
  }

  /** No rune ever exceeds its premine plus cap times amount. */
  lemma RuneSupplyCapped(s: State, height: nat, txIndex: nat, id: RuneId)
    requires RuneBooks(s, height, txIndex)
    ensures Measure(s.utxos, RuneMeasure(id)) <= Get(s.premined, id) + Cap(s.runes, id) * PerMint(s.runes, id)
  {
    assert RuneAccount(s, id, height, txIndex);
    MulMonotone(Get(s.runes.mints, id), Cap(s.runes, id), PerMint(s.runes, id));
  }

  lemma MulMonotone(a: nat, b: nat, c: nat)
    requires a <= b
    ensures a * c <= b * c
  {
  }

  /** No BRC-20 balance ever exceeds the minted supply, nor that the maximum. */
  lemma Brc20SupplyCapped(s: State, t: Ticker, script: Script)
    requires LedgerBooks(s)
    ensures Get(s.ledger.balances, (t, script)) <= Get(s.ledger.supply, t)
    ensures t in s.ledger.terms ==> Get(s.ledger.supply, t) <= s.ledger.terms[t].max
    ensures t !in s.ledger.terms ==> Get(s.ledger.supply, t) == 0
  {
    B.BalanceBounds(s.ledger, t, script);
  }

  // ----- the source's loops

  lemma TxTurn(s: State, txs: seq<Tx>, i: nat, height: nat, reward: nat)
    requires i < |txs| && LedgerBooks(s) && ValidTxs(s, txs, i, height, reward)
    ensures Valid(s, txs[i], reward) && B.Sound(s.ledger)
    ensures match Step(s, txs[i], i, height, reward)
      case MissingTxo(o) => RunTxs(s, txs, i, height, reward) == Failed(o)
      case Done(s', r) =>
        && LedgerBooks(s') && ValidTxs(s', txs, i + 1, height, r)
        && RunTxs(s, txs, i, height, reward) == RunTxs(s', txs, i + 1, height, r)
  {
    if Step(s, txs[i], i, height, reward).Done? {
      LedgerStep(s, txs[i], i, height, reward);
    }
  }

  lemma BlockTurn(s: State, blocks: seq<seq<Tx>>, height: nat)
    requires blocks != [] && LedgerBooks(s) && ValidBlocks(s, blocks, height)
    ensures ValidTxs(s, blocks[0], 0, height, BlockSubsidy(height))
    ensures match RunTxs(s, blocks[0], 0, height, BlockSubsidy(height))
      case Failed(first) =>
        && RunBlocks(s, blocks, height) == Failed(first)
        && forall o :: Reports(s, blocks, height, o) <==> Reported(s.utxos, blocks[0], first, o)
      case Ran(s') =>
        && LedgerBooks(s') && ValidBlocks(s', blocks[1..], height + 1)
        && RunBlocks(s, blocks, height) == RunBlocks(s', blocks[1..], height + 1)
        && forall o :: Reports(s, blocks, height, o) <==> Reports(s', blocks[1..], height + 1, o)
  {
  }

  lemma NoBlocks(s: State, height: nat)
    requires LedgerBooks(s)
    ensures ValidBlocks(s, [], height) && RunBlocks(s, [], height) == Ran(s)
  {
  }

  method CreateOutputs(utxos0: map<OutPoint, TxoBody>, tx: Tx, height: nat, e: Effects) returns (utxos: map<OutPoint, TxoBody>)
    requires |e.runes.outputs| == |tx.outputs|
    ensures utxos == Create(utxos0, tx.id, Bodies(tx, height, e))
  {
    utxos := utxos0;
    ghost var bodies := Bodies(tx, height, e);
    for v := 0 to |tx.outputs|
      invariant utxos == Create(utxos0, tx.id, bodies[..v])
    {
      var landed := B.Landed(tx, e.move.settled.outgoing, v);
      var body := TxoBody(height, tx.outputs[v].value, tx.outputs[v].script, e.runes.outputs[v], landed,
                          B.NewTransfers(tx, e.move.settled.outgoing, v, e.books.locked));
      utxos := utxos[OutPoint(tx.id, v) := body];
      assert bodies[..v + 1][..v] == bodies[..v];
    }
    assert bodies[..|bodies|] == bodies;
  }

  // Inputs of the block that the block does not make itself.
  function Unchained(txs: seq<Tx>): set<OutPoint> {
    set k, i | 0 <= k < |txs| && 0 <= i < |txs[k].inputs| && (forall j :: 0 <= j < |txs| ==> txs[j].id != txs[k].inputs[i].txid) :: txs[k].inputs[i]
  }

  // The input that a failed block is reported with: unchained ones are looked
  // up first, in no fixed order.
  predicate Reported(utxos: map<OutPoint, TxoBody>, txs: seq<Tx>, first: OutPoint, o: OutPoint) {
    if Unchained(txs) <= utxos.Keys then o == first else o in Unchained(txs) && o !in utxos
  }

  // A run of the block can only end well if every unchained input is there.
  lemma {:induction false} RanFindsUnchained(s: State, txs: seq<Tx>, txIndex: nat, height: nat, reward: nat, k: nat, o: OutPoint)
    requires LedgerBooks(s) && ValidTxs(s, txs, txIndex, height, reward) && RunTxs(s, txs, txIndex, height, reward).Ran?
    requires txIndex <= k < |txs| && o in txs[k].inputs && forall j :: 0 <= j < |txs| ==> txs[j].id != o.txid
    ensures o in s.utxos
    decreases |txs| - txIndex
  {
    hide LedgerBooks, ValidTxs, RunTxs, Step;
    TxTurn(s, txs, txIndex, height, reward);
    var d := Step(s, txs[txIndex], txIndex, height, reward);
    if txIndex < k {
      RanFindsUnchained(d.state, txs, txIndex + 1, height, d.reward, k, o);
    }
    StepFinds(s, txs[txIndex], txIndex, height, reward, o);
  }

  // A transaction that is done found its inputs, and made no other outputs than its own.
  lemma StepFinds(s: State, tx: Tx, txIndex: nat, height: nat, reward: nat, o: OutPoint)
    requires Valid(s, tx, reward) && B.Sound(s.ledger) && Step(s, tx, txIndex, height, reward).Done? && o.txid != tx.id
    ensures o in tx.inputs || o in Step(s, tx, txIndex, height, reward).state.utxos ==> o in s.utxos
  {
    hide Valid, Process, Bodies, B.Sound;
    SpendContents(s.utxos, tx.inputs);
    CreateContents(Spend(s.utxos, tx.inputs), tx.id, Bodies(tx, height, Process(s, tx, txIndex, height, reward)));
  }

  lemma MissingFails(s: State, txs: seq<Tx>, height: nat, reward: nat)
    requires LedgerBooks(s) && ValidTxs(s, txs, 0, height, reward) && RunTxs(s, txs, 0, height, reward).Ran?
    ensures Unchained(txs) <= s.utxos.Keys
  {
    hide LedgerBooks, ValidTxs, RunTxs;
    forall o | o in Unchained(txs) ensures o in s.utxos {
      var k, i :| 0 <= k < |txs| && 0 <= i < |txs[k].inputs| && txs[k].inputs[i] == o && forall j :: 0 <= j < |txs| ==> txs[j].id != txs[k].inputs[i].txid;
      RanFindsUnchained(s, txs, 0, height, reward, k, o);
    }
  }

  // The input that a failed run is reported with is one of its first failing block.
  ghost predicate Reports(s: State, blocks: seq<seq<Tx>>, height: nat, o: OutPoint)
    requires LedgerBooks(s) && ValidBlocks(s, blocks, height)
    decreases |blocks|
  {
    blocks != [] &&
      match RunTxs(s, blocks[0], 0, height, BlockSubsidy(height))
      case Failed(first) => Reported(s.utxos, blocks[0], first, o)
      case Ran(s') => Reports(s', blocks[1..], height + 1, o)
  }

  /** The mempool processor with its three parts. */
  class Worker {
    var utxos: map<OutPoint, TxoBody>
    const runes: R.RuneProcessor
    const inscriptions: Indexer
    const ledger: B.LedgerProcessor
    ghost var premined: map<RuneId, nat>
    ghost var burned: map<RuneId, nat>

    ghost function View(): State
      reads this, runes, inscriptions, ledger
    {
      State(utxos, runes.View(), ledger.View(), inscriptions.View(), premined, burned)
    }

    constructor (s: State)
      ensures View() == s && fresh(runes) && fresh(inscriptions) && fresh(ledger)
    {
      utxos := s.utxos;
      runes := new R.RuneProcessor(s.runes);
      inscriptions := new Indexer(s.registry);
      ledger := new B.LedgerProcessor(s.ledger);
      premined, burned := s.premined, s.burned;
    }

    method ProcessTx(tx: Tx, txIndex: nat, height: nat, reward: nat) returns (e: Effects)
      requires Valid(View(), tx, reward) && B.Sound(View().ledger)
      requires forall i :: 0 <= i < |tx.inputs| ==> tx.inputs[i] in utxos
      modifies runes, inscriptions, ledger
      ensures e == Process(old(View()), tx, txIndex, height, reward)
      ensures runes.View() == e.runes.tables && ledger.View() == e.books.ledger
      ensures inscriptions.View() == Registry(e.move.settled.counters, e.move.settled.cursed)
    {
      var bodies := Resolve(utxos, tx.inputs);
      var inputs := SpentInputs(bodies);
      var indexed := runes.Index(tx, bodies, txIndex, height);
      var floating, _ := inscriptions.Gather(tx, inputs);
      var move := inscriptions.IndexInscriptions(tx, inputs, reward, []);
      var books := ledger.Index(tx, inputs, move.settled.outgoing, B.Rest(tx, inputs, []), floating);
      e := Effects(indexed, move, books);
    }

    /** One turn of the worker's inner loop. */
    method IndexTx(tx: Tx, txIndex: nat, height: nat, reward0: nat) returns (missing: Option<OutPoint>, reward: nat)
      requires Valid(View(), tx, reward0) && B.Sound(View().ledger)
      modifies this, runes, inscriptions, ledger
      ensures match Step(old(View()), tx, txIndex, height, reward0)
        case MissingTxo(o) => missing == Some(o)
        case Done(s, r) => missing == None && View() == s && reward == r
    {
      hide Valid, Bodies, Process, FirstMissing;
      ghost var before := View();
      missing, reward := FirstMissing(utxos, tx.inputs), reward0;
      if missing.None? {
        var e := ProcessTx(tx, txIndex, height, reward);
        var remaining := RemoveInputs(tx.inputs);
        utxos := CreateOutputs(remaining, tx, height, e);
        reward := e.move.reward;
        ghost var after := Commit(before, tx, height, e);
        premined, burned := after.premined, after.burned;
      }
    }

    // Unspent outputs looked up in no fixed order.
    method LookUp(wanted: set<OutPoint>) returns (missing: Option<OutPoint>)
      ensures missing.None? <==> wanted <= utxos.Keys
      ensures missing.Some? ==> missing.value in wanted && missing.value !in utxos
    {
      var left := wanted;
      while left != {}
        invariant left <= wanted && wanted - left <= utxos.Keys
        decreases |left|
      {
        var o :| o in left;
        if o !in utxos {
          return Some(o);
        }
        left := left - {o};
      }
      missing := None;
    }

    /** The inner loop over one estimated block. */
    method RunBlock(txs: seq<Tx>, height: nat) returns (missing: Option<OutPoint>)
      requires LedgerBooks(View()) && ValidTxs(View(), txs, 0, height, BlockSubsidy(height))
      modifies this, runes, inscriptions, ledger
      ensures match RunTxs(old(View()), txs, 0, height, BlockSubsidy(height))
        case Failed(first) => missing.Some? && Reported(old(utxos), txs, first, missing.value)
        case Ran(s) => missing == None && View() == s
    {
      hide LedgerBooks, ValidTxs, Valid, Step, BlockSubsidy, Unchained;
      var reward := BlockSubsidy(height);
      missing := LookUp(Unchained(txs));
      if missing.Some? {
        if RunTxs(View(), txs, 0, height, reward).Ran? {
          MissingFails(View(), txs, height, reward);
        }
        return;
      }
      ghost var s := View();
      ghost var end := RunTxs(s, txs, 0, height, reward);
      for i := 0 to |txs|
        invariant missing == None && View() == s && LedgerBooks(s) && ValidTxs(s, txs, i, height, reward)
        invariant RunTxs(s, txs, i, height, reward) == end
      {
        TxTurn(s, txs, i, height, reward);
        missing, reward := IndexTx(txs[i], i, height, reward);
        if missing.Some? {
          return;
        }
        s := View();
      }
    }

    /** The worker's loops over the estimated blocks: it fails exactly when the
        specified run does, and else leaves its state. */
    method Execute(blocks: seq<seq<Tx>>, height: nat) returns (missing: Option<OutPoint>)
      requires LedgerBooks(View()) && ValidBlocks(View(), blocks, height)
      modifies this, runes, inscriptions, ledger
      ensures match RunBlocks(old(View()), blocks, height)
        case Failed(_) => missing.Some? && Reports(old(View()), blocks, height, missing.value)
        case Ran(s) => missing == None && View() == s
    {
      hide LedgerBooks, ValidTxs, ValidBlocks, RunTxs, RunBlocks, Reports, Reported, BlockSubsidy;
      missing := None;
      var rest, next := blocks, height;
      ghost var s := View();
      ghost var end := RunBlocks(s, rest, next);
      while rest != []
        invariant missing == None && View() == s && LedgerBooks(s) && ValidBlocks(s, rest, next)
        invariant RunBlocks(s, rest, next) == end
        invariant forall o :: Reports(s, rest, next, o) ==> Reports(old(View()), blocks, height, o)
        decreases |rest|
      {
        BlockTurn(s, rest, next);
        missing := RunBlock(rest[0], next);
        if missing.Some? {
          assert Reports(s, rest, next, missing.value);
          return;
        }
        s := View();
        rest, next := rest[1..], next + 1;
      }
      NoBlocks(s, next);
    }

    method RemoveInputs(inputs: seq<OutPoint>) returns (remaining: map<OutPoint, TxoBody>)
      ensures remaining == Spend(utxos, inputs)
    {
      remaining := utxos;
      for k := 0 to |inputs|
        invariant remaining == Spend(utxos, inputs[..k])
      {
        remaining := remaining - {inputs[k]};
        assert inputs[..k + 1][..k] == inputs[..k];
      }
      assert inputs[..|inputs|] == inputs;
    }
  }
}
