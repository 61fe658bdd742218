/** The chain database: what applying a block does to the tables and keeps for
    undoing it, and what undoing it restores. */
module ChainDb {
  import opened Chain
  import opened Inscriptions
  import opened Sums
  import opened Undo
  import R = Runes
  import B = Brc20
  import Roll
  import Supply

  // The heights from which runes and inscriptions are indexed.
  datatype Config = Config(firstRune: nat, firstInscription: nat)

  datatype Index = Index(utxos: map<OutPoint, TxoBody>, runes: R.Tables, ledger: B.Ledger, registry: Registry)

  // A block being processed: the bodies of its inputs and of the outputs made
  // so far, the tables, and what will be kept for undoing it.
  datatype Work = Work(
    bodies: map<OutPoint, TxoBody>,
    runes: R.Tables,
    ledger: B.Ledger,
    registry: Registry,
    reward: nat,
    carried: seq<Flotsam>,
    etches: set<nat>,
    mints: set<nat>,
    log: seq<B.Event>)

  // Invalid stands for blocks that consensus rules out.
  datatype Outcome = MissingTxo(outpoint: OutPoint) | Invalid | Worked(work: Work)

  // ----- processing a block

  function RunesAt(c: Config, t: R.Tables, tx: Tx, bodies: seq<TxoBody>, txIndex: nat, height: nat): (r: R.Indexed)
    requires R.WellFormed(tx)
    ensures |r.outputs| == |tx.outputs|
  {
    if height >= c.firstRune then R.IndexRunes(t, tx, bodies, txIndex, height)
    else R.Indexed(t, seq(|tx.outputs|, _ => map[]), map[], None, false)
  }

  predicate FundedAt(c: Config, w: Work, tx: Tx, inputs: seq<Input>, height: nat) {
    height >= c.firstInscription ==> Funded(tx, inputs, w.reward)
  }

  function MoveAt(c: Config, w: Work, tx: Tx, inputs: seq<Input>, height: nat): Move
    requires FundedAt(c, w, tx, inputs, height)
  {
    if height >= c.firstInscription then MoveInscriptions(tx, inputs, w.registry, w.reward, w.carried)
    else Move(Begin(w.registry), w.carried, w.reward)
  }

  function BooksAt(c: Config, w: Work, tx: Tx, inputs: seq<Input>, move: Move, height: nat): (b: B.Books)
    requires B.Sound(w.ledger)
    ensures B.Sound(b.ledger)
  {
    if height >= c.firstInscription
    then B.IndexLedger(w.ledger, tx, inputs, move.settled.outgoing, B.Rest(tx, inputs, w.carried))
    else B.Books(w.ledger, [], map[])
  }

  function Add(s: set<nat>, k: nat, present: bool): set<nat> {
    if present then s + {k} else s
  }

  function AfterRunes(w: Work, r: R.Indexed, txIndex: nat): Work {
    w.(runes := r.tables, etches := Add(w.etches, txIndex, r.etched.Some?), mints := Add(w.mints, txIndex, r.minted))
  }

  // Outputs, inscriptions and BRC-20 actions of a transaction whose runes are indexed.
  function AfterMove(w: Work, tx: Tx, height: nat, e: Supply.Effects): Work
    requires |e.runes.outputs| == |tx.outputs|
  {
    w.(bodies := Create(w.bodies, tx.id, Supply.Bodies(tx, height, e)),
       ledger := e.books.ledger,
       registry := Registry(e.move.settled.counters, e.move.settled.cursed),
       reward := e.move.reward,
       carried := e.move.carried,
       log := w.log + e.books.log)
  }

  function EffectsAt(c: Config, w: Work, tx: Tx, runes: R.Indexed, inputs: seq<Input>, height: nat): (e: Supply.Effects)
    requires B.Sound(w.ledger) && FundedAt(c, w, tx, inputs, height)
    ensures e.runes == runes && B.Sound(e.books.ledger)
  {
    var move := MoveAt(c, w, tx, inputs, height);
    Supply.Effects(runes, move, BooksAt(c, w, tx, inputs, move, height))
  }

  function Turn(c: Config, w: Work, tx: Tx, txIndex: nat, height: nat): (o: Outcome)
    requires B.Sound(w.ledger)
    ensures o.Worked? ==> B.Sound(o.work.ledger)
  {
    var missing := Roll.FirstMissing(w.bodies, tx.inputs);
    if missing.Some? then MissingTxo(missing.value) else
      var resolved := Resolve(w.bodies, tx.inputs);
      var inputs := Supply.SpentInputs(resolved);
      if !R.WellFormed(tx) || !FundedAt(c, w, tx, inputs, height) then Invalid else
        var runes := RunesAt(c, w.runes, tx, resolved, txIndex, height);
        Worked(AfterMove(AfterRunes(w, runes, txIndex), tx, height, EffectsAt(c, w, tx, runes, inputs, height)))
  }

  // Transactions k, k + 1, ... in block order.
  function Turns(c: Config, w: Work, txs: seq<Tx>, k: nat, height: nat): (o: Outcome)
    requires B.Sound(w.ledger)
    ensures o.Worked? ==> B.Sound(o.work.ledger)
    decreases |txs| - k
  {
    if k >= |txs| then Worked(w) else
      var o := Turn(c, w, txs[k], k, height);
      if o.Worked? then Turns(c, o.work, txs, k + 1, height) else o
  }

  // The unspent outputs that the block spends and does not make itself.
  function Fetch(utxos: map<OutPoint, TxoBody>, txs: seq<Tx>): map<OutPoint, TxoBody> {
    map o | o in utxos && o in SpendsFrom(txs, 0) && (forall k :: 0 <= k < |txs| ==> txs[k].id != o.txid) :: utxos[o]
  }

  function Start(x: Index, txs: seq<Tx>, height: nat): Work {
    Work(Fetch(x.utxos, txs), x.runes, x.ledger, x.registry, BlockSubsidy(height), [], {}, {}, [])
  }

  // A coinbase spends only the subsidy and the fees.
  function CoinbaseInputs(height: nat): seq<Input> {
    [Subsidy(BlockSubsidy(height))]
  }

  // The coinbase takes its runes first and its inscriptions last.
  function ProcessBlock(c: Config, x: Index, txs: seq<Tx>, height: nat): (o: Outcome)
    requires B.Sound(x.ledger)
    ensures o.Worked? ==> B.Sound(o.work.ledger)
  {
    if txs == [] || txs[0].inputs != [NULL_OUTPOINT] || !R.WellFormed(txs[0]) then Invalid else
      var runes := RunesAt(c, x.runes, txs[0], [], 0, height);
      var o := Turns(c, AfterRunes(Start(x, txs, height), runes, 0), txs, 1, height);
      if !o.Worked? then o
      else if !FundedAt(c, o.work, txs[0], CoinbaseInputs(height), height) then Invalid
      else Worked(AfterMove(o.work, txs[0], height, EffectsAt(c, o.work, txs[0], runes, CoinbaseInputs(height), height)))
  }

  // ----- what is stored, and undoing it

  datatype Kept = Kept(
    bodies: map<OutPoint, TxoBody>,
    etches: set<nat>,
    mints: set<nat>,
    counters: Counters,
    log: seq<B.Event>)

  function Keep(x: Index, txs: seq<Tx>, w: Work): Kept {
    Kept(Pick(w.bodies, set o | o in SpendsFrom(txs, 0)), w.etches, w.mints, x.registry.counters, w.log)
  }

  function Commit(x: Index, txs: seq<Tx>, w: Work): Index {
    Index(CommitFrom(x.utxos, w.bodies, txs, 0), w.runes, w.ledger, w.registry)
  }

  function Revealed(tx: Tx): set<InscriptionId> {
    set i | 0 <= i < |tx.envelopes| :: InscriptionId(tx.id, i)
  }

  function RevealedFrom(txs: seq<Tx>, k: nat): set<InscriptionId>
    decreases |txs| - k
  {
    if k >= |txs| then {} else Revealed(txs[k]) + RevealedFrom(txs, k + 1)
  }

  function UndoRunesFrom(t: R.Tables, txs: seq<Tx>, k: nat, height: nat, kept: Kept): Option<R.Tables>
    decreases |txs| - k
  {
    if k >= |txs| then Some(t) else
      var r := UndoRunesFrom(t, txs, k + 1, height, kept);
      if r.None? then None else UndoRunes(r.value, txs[k], k, height, k in kept.etches, k in kept.mints)
  }

  function UndoBlock(x: Index, txs: seq<Tx>, height: nat, kept: Kept): Option<Index> {
    var utxos := RestoreFrom(x.utxos, kept.bodies, txs, 0);
    var runes := UndoRunesFrom(x.runes, txs, 0, height, kept);
    if utxos.MissingBody? || runes.None? then None else
      Some(Index(utxos.utxos, runes.value, UndoLog(x.ledger, kept.log, 0),
                 Registry(kept.counters, x.registry.cursed - RevealedFrom(txs, 0))))
  }

  // ----- what consensus guarantees about the next block

  ghost predicate NewBlock(c: Config, x: Index, txs: seq<Tx>, height: nat) {
    && B.Sound(x.ledger)
    && FreshTxid(x.utxos, ZERO_TXID)
    && (forall k :: 0 <= k < |txs| ==> NewTx(x, txs[k].id))
    && (forall j, k :: 0 <= j < k < |txs| ==> txs[j].id != txs[k].id)
    && Distinct(SpendsFrom(txs, 0))
    && (height >= c.firstRune ==> forall id :: id in x.runes.terms ==> id.block < height)
  }

  predicate NewTx(x: Index, txid: Txid) {
    txid != ZERO_TXID && FreshTxid(x.utxos, txid) && forall i :: i in x.registry.cursed ==> i.txid != txid
  }

  // ----- unspent outputs

  predicate FreshFrom(u: map<OutPoint, TxoBody>, txs: seq<Tx>, k: nat) {
    forall j :: k <= j < |txs| ==> FreshTxid(u, txs[j].id)
  }

  predicate DistinctIdsFrom(txs: seq<Tx>, k: nat) {
    forall i, j :: k <= i < j < |txs| ==> txs[i].id != txs[j].id
  }

  predicate Submap(a: map<OutPoint, TxoBody>, b: map<OutPoint, TxoBody>) {
    forall o :: o in a ==> o in b && b[o] == a[o]
  }

  // Keys of `b` beyond `a` are outputs of transaction k.
  lemma CreateGrows(a: map<OutPoint, TxoBody>, tx: Tx, bodies: seq<TxoBody>)
    requires FreshTxid(a, tx.id) && |bodies| == |tx.outputs|
    ensures Submap(a, Create(a, tx.id, bodies))
    ensures forall o :: o in Create(a, tx.id, bodies) ==> o in a || B.IsOutput(tx, o)
    ensures forall o :: B.IsOutput(tx, o) ==> o in Create(a, tx.id, bodies)
  {
    CreateContents(a, tx.id, bodies);
  }

  lemma TurnGrows(c: Config, w: Work, tx: Tx, txIndex: nat, height: nat)
    requires B.Sound(w.ledger) && FreshTxid(w.bodies, tx.id) && Turn(c, w, tx, txIndex, height).Worked?
    ensures var w' := Turn(c, w, tx, txIndex, height).work;
      && Submap(w.bodies, w'.bodies)
      && (forall o :: o in w'.bodies ==> o in w.bodies || B.IsOutput(tx, o))
      && (forall o :: B.IsOutput(tx, o) ==> o in w'.bodies)
      && (forall i :: 0 <= i < |tx.inputs| ==> tx.inputs[i] in w.bodies)
  {
    hide Supply.SpentInputs, RunesAt, FundedAt, MoveAt, BooksAt, R.WellFormed;
    var resolved := Resolve(w.bodies, tx.inputs);
    var runes := RunesAt(c, w.runes, tx, resolved, txIndex, height);
    var e := EffectsAt(c, w, tx, runes, Supply.SpentInputs(resolved), height);
    CreateGrows(w.bodies, tx, Supply.Bodies(tx, height, e));
  }

  // ... and so for all remaining transactions.
  lemma {:induction false} TurnsGrow(c: Config, w: Work, txs: seq<Tx>, k: nat, height: nat)
    requires B.Sound(w.ledger) && FreshFrom(w.bodies, txs, k) && DistinctIdsFrom(txs, k)
    requires Turns(c, w, txs, k, height).Worked?
    ensures var w' := Turns(c, w, txs, k, height).work;
      && Submap(w.bodies, w'.bodies)
      && forall o :: o in w'.bodies && o !in w.bodies ==> exists j :: k <= j < |txs| && o.txid == txs[j].id
    decreases |txs| - k
  {
    hide Turn;
    if k < |txs| {
      TurnGrows(c, w, txs[k], k, height);
      var w1 := Turn(c, w, txs[k], k, height).work;
      FreshNext(w, w1, txs, k);
      TurnsGrow(c, w1, txs, k + 1, height);
    }
  }

  lemma FreshNext(w: Work, w1: Work, txs: seq<Tx>, k: nat)
    requires k < |txs| && FreshFrom(w.bodies, txs, k) && DistinctIdsFrom(txs, k)
    requires forall o :: o in w1.bodies ==> o in w.bodies || B.IsOutput(txs[k], o)
    ensures FreshFrom(w1.bodies, txs, k + 1)
  {
    forall j | k + 1 <= j < |txs| ensures FreshTxid(w1.bodies, txs[j].id) {
      assert FreshTxid(w.bodies, txs[j].id);
    }
  }

  predicate Agree(u: map<OutPoint, TxoBody>, bodies: map<OutPoint, TxoBody>) {
    forall o :: o in u && o in bodies ==> u[o] == bodies[o]
  }

  // The running unspent outputs hold whatever is still to be spent and known.
  predicate HoldsDue(u: map<OutPoint, TxoBody>, known: map<OutPoint, TxoBody>, due: seq<OutPoint>) {
    forall o :: o in known && o in due ==> o in u
  }

  lemma DueNext(u: map<OutPoint, TxoBody>, w: Work, w1: Work, bodies: map<OutPoint, TxoBody>, txs: seq<Tx>, k: nat)
    requires 0 < k < |txs| && FreshFrom(u, txs, k) && DistinctIdsFrom(txs, k) && Distinct(SpendsFrom(txs, k))
    requires Agree(u, bodies) && HoldsDue(u, w.bodies, SpendsFrom(txs, k)) && Submap(w1.bodies, bodies)
    requires forall o :: o in w1.bodies ==> o in w.bodies || B.IsOutput(txs[k], o)
    ensures var u1 := CommitTx(u, bodies, txs[k]);
      FreshFrom(u1, txs, k + 1) && Agree(u1, bodies) && HoldsDue(u1, w1.bodies, SpendsFrom(txs, k + 1))
  {
    var u1 := CommitTx(u, bodies, txs[k]);
    DistinctParts(Spends(txs, k), SpendsFrom(txs, k + 1));
    forall j | k + 1 <= j < |txs| ensures FreshTxid(u1, txs[j].id) {
      assert FreshTxid(u, txs[j].id);
    }
    forall o | o in w1.bodies && o in SpendsFrom(txs, k + 1) ensures o in u1 {
      assert o in SpendsFrom(txs, k);
      assert o !in txs[k].inputs;
    }
  }

  lemma {:induction false} TurnsChain(c: Config, w: Work, txs: seq<Tx>, k: nat, height: nat,
                                      u: map<OutPoint, TxoBody>, bodies: map<OutPoint, TxoBody>)
    requires 0 < k && B.Sound(w.ledger) && FreshFrom(w.bodies, txs, k) && DistinctIdsFrom(txs, k) && Distinct(SpendsFrom(txs, k))
    requires Turns(c, w, txs, k, height).Worked? && Submap(Turns(c, w, txs, k, height).work.bodies, bodies)
    requires FreshFrom(u, txs, k) && Agree(u, bodies) && HoldsDue(u, w.bodies, SpendsFrom(txs, k))
    ensures Chainable(u, bodies, txs, k)
    decreases |txs| - k
  {
    hide Turn, CommitTx;
    if k < |txs| {
      var w1 := Turn(c, w, txs[k], k, height).work;
      TurnGrows(c, w, txs[k], k, height);
      FreshNext(w, w1, txs, k);
      TurnsGrow(c, w1, txs, k + 1, height);
      DistinctParts(Spends(txs, k), SpendsFrom(txs, k + 1));
      DueNext(u, w, w1, bodies, txs, k);
      TurnsChain(c, w1, txs, k + 1, height, CommitTx(u, bodies, txs[k]), bodies);
      assert Submap(w.bodies, bodies);
      forall o | o in Spends(txs, k) ensures o in u && o in bodies && u[o] == bodies[o] {
        assert o in SpendsFrom(txs, k);
      }
    }
  }

  /** A processed block fits the unspent outputs: every input is there with the
      body that is kept for it, and every output is new. */
  lemma BlockChains(c: Config, x: Index, txs: seq<Tx>, height: nat)
    requires NewBlock(c, x, txs, height) && ProcessBlock(c, x, txs, height).Worked?
    ensures Chainable(x.utxos, ProcessBlock(c, x, txs, height).work.bodies, txs, 0)
    ensures var w := ProcessBlock(c, x, txs, height).work;
      forall o :: o in SpendsFrom(txs, 0) ==> o in w.bodies
  {
    hide RunesAt, Turn, Turns, FundedAt, MoveAt, BooksAt;
    var u, runes := x.utxos, RunesAt(c, x.runes, txs[0], [], 0, height);
    var w1 := AfterRunes(Start(x, txs, height), runes, 0);
    var w2 := Turns(c, w1, txs, 1, height).work;
    var w := ProcessBlock(c, x, txs, height).work;
    FetchFresh(c, x, txs, height);
    TurnsGrow(c, w1, txs, 1, height);
    CoinbaseGrows(c, w1, w2, txs, runes, height);
    CoinbaseCommit(c, x, txs, w1, w, height);
    DistinctParts(Spends(txs, 0), SpendsFrom(txs, 1));
    TurnsChain(c, w1, txs, 1, height, CommitTx(u, w.bodies, txs[0]), w.bodies);
    SpendsKnown(CommitTx(u, w.bodies, txs[0]), w.bodies, txs, 1);
  }

  lemma FetchFresh(c: Config, x: Index, txs: seq<Tx>, height: nat)
    requires NewBlock(c, x, txs, height)
    ensures FreshFrom(Fetch(x.utxos, txs), txs, 0)
  {
  }

  lemma CoinbaseGrows(c: Config, w1: Work, w2: Work, txs: seq<Tx>, runes: R.Indexed, height: nat)
    requires txs != [] && |runes.outputs| == |txs[0].outputs| && DistinctIdsFrom(txs, 0) && FreshTxid(w1.bodies, txs[0].id)
    requires B.Sound(w2.ledger) && FundedAt(c, w2, txs[0], CoinbaseInputs(height), height)
    requires forall o :: o in w2.bodies && o !in w1.bodies ==> exists j :: 1 <= j < |txs| && o.txid == txs[j].id
    ensures var w := AfterMove(w2, txs[0], height, EffectsAt(c, w2, txs[0], runes, CoinbaseInputs(height), height));
      && Submap(w2.bodies, w.bodies)
      && forall o :: o in w.bodies ==> o in w2.bodies || B.IsOutput(txs[0], o)
  {
    hide FundedAt, EffectsAt;
    var e := EffectsAt(c, w2, txs[0], runes, CoinbaseInputs(height), height);
    assert FreshTxid(w2.bodies, txs[0].id);
    CreateGrows(w2.bodies, txs[0], Supply.Bodies(txs[0], height, e));
  }

  lemma CoinbaseCommit(c: Config, x: Index, txs: seq<Tx>, w1: Work, w: Work, height: nat)
    requires NewBlock(c, x, txs, height) && txs != [] && txs[0].inputs == [NULL_OUTPOINT]
    requires w1.bodies == Fetch(x.utxos, txs) && Submap(w1.bodies, w.bodies)
    requires forall o :: o in w.bodies && o !in w1.bodies ==> exists j :: 0 <= j < |txs| && o.txid == txs[j].id
    ensures var u := CommitTx(x.utxos, w.bodies, txs[0]);
      FreshFrom(u, txs, 1) && Agree(u, w.bodies) && HoldsDue(u, w1.bodies, SpendsFrom(txs, 1))
  {
    var u := CommitTx(x.utxos, w.bodies, txs[0]);
    forall j | 1 <= j < |txs| ensures FreshTxid(u, txs[j].id) {
      assert NewTx(x, txs[j].id);
    }
    assert forall j :: 0 <= j < |txs| ==> FreshTxid(x.utxos, txs[j].id);
  }

  lemma {:induction false} SpendsKnown(u: map<OutPoint, TxoBody>, bodies: map<OutPoint, TxoBody>, txs: seq<Tx>, k: nat)
    requires Chainable(u, bodies, txs, k)
    ensures forall o :: o in SpendsFrom(txs, k) ==> o in bodies
    decreases |txs| - k
  {
    if k < |txs| {
      SpendsKnown(CommitTx(u, bodies, txs[k]), bodies, txs, k + 1);
    }
  }

  // ----- the BRC-20 ledger

  function BooksOf(w: Work): B.Books {
    B.Books(w.ledger, w.log, map[])
  }

  // Appending the log of a transaction keeps its actions undoable.
  lemma MoveUndone(c: Config, w: Work, tx: Tx, inputs: seq<Input>, move: Move, height: nat)
    requires B.Sound(w.ledger)
    ensures var b := BooksAt(c, w, tx, inputs, move, height);
      Undoes(BooksOf(w), B.Books(b.ledger, w.log + b.log, map[]))
  {
    hide B.IndexLedger, B.Sound, B.Rest, SameLedger, UndoLog;
    var b, start := BooksAt(c, w, tx, inputs, move, height), B.Books(w.ledger, [], map[]);
    if height >= c.firstInscription {
      LedgerUndone(w.ledger, tx, inputs, move.settled.outgoing, B.Rest(tx, inputs, w.carried));
    } else {
      UndoesSelf(start);
    }
    assert Undoes(start, b);
    assert (w.log + b.log)[..|w.log|] == w.log;
    forall l | SameLedger(l, b.ledger) ensures SameLedger(UndoLog(l, w.log + b.log, |w.log|), w.ledger) {
      UndoLogTail(l, w.log, b.log);
    }
  }

  lemma {:induction false} TurnsUndone(c: Config, w: Work, txs: seq<Tx>, k: nat, height: nat)
    requires B.Sound(w.ledger) && Turns(c, w, txs, k, height).Worked?
    ensures Undoes(BooksOf(w), BooksOf(Turns(c, w, txs, k, height).work))
    decreases |txs| - k
  {
    hide B.Sound, Undoes;
    if k >= |txs| {
      UndoesSelf(BooksOf(w));
    } else {
      var w1 := Turn(c, w, txs[k], k, height).work;
      TurnUndone(c, w, txs[k], k, height);
      TurnsUndone(c, w1, txs, k + 1, height);
      UndoesTrans(BooksOf(w), BooksOf(w1), BooksOf(Turns(c, w, txs, k, height).work));
    }
  }

  lemma TurnUndone(c: Config, w: Work, tx: Tx, txIndex: nat, height: nat)
    requires B.Sound(w.ledger) && Turn(c, w, tx, txIndex, height).Worked?
    ensures Undoes(BooksOf(w), BooksOf(Turn(c, w, tx, txIndex, height).work))
  {
    hide B.Sound, RunesAt, FundedAt, MoveAt, BooksAt, Undoes;
    var resolved := Resolve(w.bodies, tx.inputs);
    var inputs := Supply.SpentInputs(resolved);
    MoveUndone(c, w, tx, inputs, MoveAt(c, w, tx, inputs, height), height);
  }

  lemma BlockLedgerUndone(c: Config, x: Index, txs: seq<Tx>, height: nat)
    requires B.Sound(x.ledger) && ProcessBlock(c, x, txs, height).Worked?
    ensures Undoes(B.Books(x.ledger, [], map[]), BooksOf(ProcessBlock(c, x, txs, height).work))
  {
    hide B.Sound, RunesAt, FundedAt, MoveAt, BooksAt, Undoes, Turns;
    var runes := RunesAt(c, x.runes, txs[0], [], 0, height);
    var w1 := AfterRunes(Start(x, txs, height), runes, 0);
    var w2 := Turns(c, w1, txs, 1, height).work;
    TurnsUndone(c, w1, txs, 1, height);
    MoveUndone(c, w2, txs[0], CoinbaseInputs(height), MoveAt(c, w2, txs[0], CoinbaseInputs(height), height), height);
    UndoesTrans(BooksOf(w1), BooksOf(w2), BooksOf(ProcessBlock(c, x, txs, height).work));
  }

  // ----- rune tables

  // Runes etched without a name: undoing does not find them.
  function Leftover(c: Config, txs: seq<Tx>, k: nat, height: nat): set<RuneId>
    decreases |txs| - k
  {
    if k >= |txs| || height < c.firstRune then {}
    else (if Unnamed(txs[k]) then {RuneId(height, k)} else {}) + Leftover(c, txs, k + 1, height)
  }

  // The table's runes of this height come from transactions before k.
  predicate TermsBefore(t: R.Tables, height: nat, k: nat) {
    forall id :: id in t.terms && id.block >= height ==> id.block == height && id.tx < k
  }

  function TablesAt(c: Config, t: R.Tables, tx: Tx, txIndex: nat, height: nat): R.Tables {
    if height >= c.firstRune then R.NextTables(t, tx, txIndex, height) else t
  }

  lemma TermsNext(c: Config, t: R.Tables, tx: Tx, k: nat, height: nat)
    requires height >= c.firstRune ==> TermsBefore(t, height, k)
    ensures height >= c.firstRune ==> TermsBefore(TablesAt(c, t, tx, k, height), height, k + 1)
  {
  }

  lemma TurnRunes(c: Config, w: Work, tx: Tx, k: nat, height: nat)
    requires B.Sound(w.ledger) && Turn(c, w, tx, k, height).Worked?
    ensures var w' := Turn(c, w, tx, k, height).work;
      && w'.runes == TablesAt(c, w.runes, tx, k, height)
      && w'.etches == Add(w.etches, k, height >= c.firstRune && R.Etch(w.runes, tx, k, height).Some?)
      && w'.mints == Add(w.mints, k, height >= c.firstRune && Mints(w.runes, tx, height))
  {
    hide B.Sound, FundedAt, MoveAt, BooksAt, R.NextTables, R.Etch, R.Allocation, R.WellFormed;
  }

  // Flags of earlier transactions stay as they are.
  lemma {:induction false} TurnsKeepFlags(c: Config, w: Work, txs: seq<Tx>, k: nat, height: nat, i: nat)
    requires B.Sound(w.ledger) && i < k && Turns(c, w, txs, k, height).Worked?
    ensures var w' := Turns(c, w, txs, k, height).work;
      (i in w'.etches <==> i in w.etches) && (i in w'.mints <==> i in w.mints)
    decreases |txs| - k
  {
    hide Turn;
    if k < |txs| {
      TurnRunes(c, w, txs[k], k, height);
      TurnsKeepFlags(c, Turn(c, w, txs[k], k, height).work, txs, k + 1, height, i);
    }
  }

  // Undoing transaction k with its flags, when later ones are undone.
  lemma FlagsUndone(c: Config, s: R.Tables, t: R.Tables, tx: Tx, k: nat, height: nat, extra: set<RuneId>, etched: bool, minted: bool)
    requires (height >= c.firstRune ==> TermsBefore(t, height, k)) && RuneId(height, k) !in extra
    requires Restores(s, TablesAt(c, t, tx, k, height), extra)
    requires etched == (height >= c.firstRune && R.Etch(t, tx, k, height).Some?)
    requires minted == (height >= c.firstRune && Mints(t, tx, height))
    ensures var r := UndoRunes(s, tx, k, height, etched, minted);
      r.Some? && Restores(r.value, t, extra + if height >= c.firstRune && Unnamed(tx) then {RuneId(height, k)} else {})
  {
    hide R.NextTables, R.Etch, Mints, Restores, Unnamed;
    if height >= c.firstRune {
      RunesUndone(s, t, tx, k, height, extra);
    } else {
      assert extra + {} == extra;
    }
  }

  lemma {:induction false} LeftoverLater(c: Config, txs: seq<Tx>, k: nat, height: nat)
    ensures forall id :: id in Leftover(c, txs, k, height) ==> id.block == height && id.tx >= k
    decreases |txs| - k
  {
    if k < |txs| {
      LeftoverLater(c, txs, k + 1, height);
    }
  }

  lemma {:induction false} TurnsRunesUndone(c: Config, w: Work, txs: seq<Tx>, k: nat, height: nat, s: R.Tables, kept: Kept, extra: set<RuneId>)
    requires B.Sound(w.ledger) && (height >= c.firstRune ==> TermsBefore(w.runes, height, k)) && Turns(c, w, txs, k, height).Worked?
    requires forall i :: i in w.etches || i in w.mints ==> i < k
    requires var w' := Turns(c, w, txs, k, height).work;
      Restores(s, w'.runes, extra) && kept.etches == w'.etches && kept.mints == w'.mints
    requires forall id :: id in extra ==> id.block > height
    ensures var r := UndoRunesFrom(s, txs, k, height, kept);
      r.Some? && Restores(r.value, w.runes, extra + Leftover(c, txs, k, height))
    decreases |txs| - k
  {
    hide Turn, UndoRunes, Restores, TablesAt, R.Etch, Mints, B.Sound;
    if k >= |txs| {
      assert extra + {} == extra;
    } else {
      var w1 := Turn(c, w, txs[k], k, height).work;
      TurnRunes(c, w, txs[k], k, height);
      TermsNext(c, w.runes, txs[k], k, height);
      TurnsRunesUndone(c, w1, txs, k + 1, height, s, kept, extra);
      TurnsKeepFlags(c, w1, txs, k + 1, height, k);
      LeftoverLater(c, txs, k + 1, height);
      var r, more := UndoRunesFrom(s, txs, k + 1, height, kept).value, extra + Leftover(c, txs, k + 1, height);
      FlagsUndone(c, r, w.runes, txs[k], k, height, more, k in kept.etches, k in kept.mints);
      assert more + (if height >= c.firstRune && Unnamed(txs[k]) then {RuneId(height, k)} else {})
        == extra + Leftover(c, txs, k, height);
    }
  }

  /** Undoing a block's rune actions restores the tables up to the runes that
      the block etched without a name. */
  lemma BlockRunesUndone(c: Config, x: Index, txs: seq<Tx>, height: nat, s: R.Tables, extra: set<RuneId>)
    requires NewBlock(c, x, txs, height) && ProcessBlock(c, x, txs, height).Worked?
    requires Restores(s, ProcessBlock(c, x, txs, height).work.runes, extra) && forall id :: id in extra ==> id.block > height
    ensures var r := UndoRunesFrom(s, txs, 0, height, Keep(x, txs, ProcessBlock(c, x, txs, height).work));
      r.Some? && Restores(r.value, x.runes, extra + Leftover(c, txs, 0, height))
  {
    hide Turns, UndoRunes, Restores, R.Etch, Mints, B.Sound, FundedAt, MoveAt, BooksAt;
    var kept := Keep(x, txs, ProcessBlock(c, x, txs, height).work);
    var runes := RunesAt(c, x.runes, txs[0], [], 0, height);
    var w1 := AfterRunes(Start(x, txs, height), runes, 0);
    CoinbaseRunes(c, x, txs, height);
    TermsNext(c, x.runes, txs[0], 0, height);
    TurnsRunesUndone(c, w1, txs, 1, height, s, kept, extra);
    TurnsKeepFlags(c, w1, txs, 1, height, 0);
    LeftoverLater(c, txs, 1, height);
    var r, more := UndoRunesFrom(s, txs, 1, height, kept).value, extra + Leftover(c, txs, 1, height);
    FlagsUndone(c, r, x.runes, txs[0], 0, height, more, 0 in kept.etches, 0 in kept.mints);
    assert more + (if height >= c.firstRune && Unnamed(txs[0]) then {RuneId(height, 0)} else {})
      == extra + Leftover(c, txs, 0, height);
  }

  lemma CoinbaseRunes(c: Config, x: Index, txs: seq<Tx>, height: nat)
    requires txs != [] && R.WellFormed(txs[0])
    ensures var w := AfterRunes(Start(x, txs, height), RunesAt(c, x.runes, txs[0], [], 0, height), 0);
      && w.runes == TablesAt(c, x.runes, txs[0], 0, height)
      && w.etches == Add({}, 0, height >= c.firstRune && R.Etch(x.runes, txs[0], 0, height).Some?)
      && w.mints == Add({}, 0, height >= c.firstRune && Mints(x.runes, txs[0], height))
  {
    hide R.NextTables, R.Etch, R.Allocation, R.WellFormed;
  }

  // ----- cursed and vindicated inscriptions

  predicate NewWithin(fs: seq<Flotsam>, ids: set<InscriptionId>) {
    forall i :: 0 <= i < |fs| && fs[i].origin.New? ==> fs[i].id in ids
  }

  lemma {:induction false} FloatingWithin(tx: Tx, inputs: seq<Input>, k: nat)
    requires k <= |inputs|
    ensures NewWithin(Floating(tx, inputs, k), Revealed(tx))
  {
    if k > 0 {
      FloatingWithin(tx, inputs, k - 1);
      if inputs[k - 1].Spent? {
        var base, value := InputValue(inputs[..k - 1]), inputs[k - 1].body.value;
        NewFlotsamsAre(tx, EnvelopesBefore(tx, inputs, k - 1), EnvelopesBefore(tx, inputs, k), base, value);
      }
    }
  }

  lemma {:induction false} SettleAllCursed(s: Settled, located: seq<(SatPoint, Flotsam)>, ids: set<InscriptionId>)
    requires forall i :: 0 <= i < |located| && located[i].1.origin.New? ==> located[i].1.id in ids
    ensures s.cursed <= SettleAll(s, located).cursed <= s.cursed + ids
  {
    if located != [] {
      SettleAllCursed(s, located[..|located| - 1], ids);
    }
  }

  lemma QueueWithin(tx: Tx, inputs: seq<Input>, carried: seq<Flotsam>, ids: set<InscriptionId>)
    requires Revealed(tx) <= ids && NewWithin(carried, ids)
    ensures NewWithin(Queue(tx, inputs, carried), ids)
  {
    var all, queue := AllFloating(tx, inputs, carried), Queue(tx, inputs, carried);
    FloatingWithin(tx, inputs, |inputs|);
    SortSpec(all);
    forall i | 0 <= i < |queue| && queue[i].origin.New? ensures queue[i].id in ids {
      assert queue[i] in multiset(queue);
      assert queue[i] in all;
    }
  }

  /** A transaction curses or vindicates only inscriptions revealed in its block. */
  lemma MoveCursed(tx: Tx, inputs: seq<Input>, reg: Registry, reward: nat, carried: seq<Flotsam>, ids: set<InscriptionId>)
    requires Funded(tx, inputs, reward) && Revealed(tx) <= ids && NewWithin(carried, ids)
    ensures var m := MoveInscriptions(tx, inputs, reg, reward, carried);
      reg.cursed <= m.settled.cursed <= reg.cursed + ids && NewWithin(m.carried, ids)
  {
    hide SettleAll, SortByOffset, Floating, Funded, InputValue, OutputValue;
    var queue, value := Queue(tx, inputs, carried), OutputValue(tx.outputs);
    QueueWithin(tx, inputs, carried, ids);
    QueueSplit(tx, inputs, carried);
    SettleAllCursed(Begin(reg), Inside(tx, queue), ids);
    if IsCoinbase(inputs) {
      SettleAllCursed(Begin(reg), Inside(tx, queue) + Lost(Beyond(tx, queue), reg.counters.lost, value), ids);
    }
  }

  ghost predicate CursedWithin(w: Work, w': Work, ids: set<InscriptionId>) {
    w.registry.cursed <= w'.registry.cursed <= w.registry.cursed + ids && NewWithin(w'.carried, ids)
  }

  lemma MoveAtCursed(c: Config, w: Work, tx: Tx, inputs: seq<Input>, height: nat, ids: set<InscriptionId>)
    requires FundedAt(c, w, tx, inputs, height) && Revealed(tx) <= ids && NewWithin(w.carried, ids)
    ensures var m := MoveAt(c, w, tx, inputs, height);
      w.registry.cursed <= m.settled.cursed <= w.registry.cursed + ids && NewWithin(m.carried, ids)
  {
    hide MoveInscriptions, Funded, Revealed, NewWithin;
    if height >= c.firstInscription {
      MoveCursed(tx, inputs, w.registry, w.reward, w.carried, ids);
    }
  }

  lemma TurnCursed(c: Config, w: Work, tx: Tx, k: nat, height: nat, ids: set<InscriptionId>)
    requires B.Sound(w.ledger) && Turn(c, w, tx, k, height).Worked? && Revealed(tx) <= ids && NewWithin(w.carried, ids)
    ensures CursedWithin(w, Turn(c, w, tx, k, height).work, ids)
  {
    hide B.Sound, RunesAt, FundedAt, MoveAt, BooksAt, Revealed, NewWithin;
    MoveAtCursed(c, w, tx, Supply.SpentInputs(Resolve(w.bodies, tx.inputs)), height, ids);
  }

  lemma {:induction false} TurnsCursed(c: Config, w: Work, txs: seq<Tx>, k: nat, height: nat, ids: set<InscriptionId>)
    requires B.Sound(w.ledger) && Turns(c, w, txs, k, height).Worked?
    requires RevealedFrom(txs, k) <= ids && NewWithin(w.carried, ids)
    ensures CursedWithin(w, Turns(c, w, txs, k, height).work, ids)
    decreases |txs| - k
  {
    hide Turn, Revealed, NewWithin;
    if k < |txs| {
      TurnCursed(c, w, txs[k], k, height, ids);
      TurnsCursed(c, Turn(c, w, txs[k], k, height).work, txs, k + 1, height, ids);
    }
  }

  lemma {:induction false} RevealedByBlock(txs: seq<Tx>, k: nat)
    ensures forall i :: i in RevealedFrom(txs, k) ==> exists j :: k <= j < |txs| && i.txid == txs[j].id
    decreases |txs| - k
  {
    if k < |txs| {
      RevealedByBlock(txs, k + 1);
    }
  }

  lemma BlockCursedUndone(c: Config, x: Index, txs: seq<Tx>, height: nat)
    requires NewBlock(c, x, txs, height) && ProcessBlock(c, x, txs, height).Worked?
    ensures ProcessBlock(c, x, txs, height).work.registry.cursed - RevealedFrom(txs, 0) == x.registry.cursed
  {
    hide Turns, RunesAt, FundedAt, MoveAt, BooksAt, Revealed, NewWithin, B.Sound;
    var ids, runes := RevealedFrom(txs, 0), RunesAt(c, x.runes, txs[0], [], 0, height);
    var w1 := AfterRunes(Start(x, txs, height), runes, 0);
    var w2 := Turns(c, w1, txs, 1, height).work;
    NoneWithin(ids);
    TurnsCursed(c, w1, txs, 1, height, ids);
    MoveAtCursed(c, w2, txs[0], CoinbaseInputs(height), height, ids);
    RevealedByBlock(txs, 0);
    forall i | i in x.registry.cursed ensures i !in ids {
      assert forall k :: 0 <= k < |txs| ==> NewTx(x, txs[k].id);
    }
  }

  lemma NoneWithin(ids: set<InscriptionId>)
    ensures NewWithin([], ids)
  {
  }

  // Etched runes are never forgotten while a block is processed.
  lemma {:induction false} TurnsKeepTerms(c: Config, w: Work, txs: seq<Tx>, k: nat, height: nat)
    requires B.Sound(w.ledger) && Turns(c, w, txs, k, height).Worked?
    ensures w.runes.terms.Keys <= Turns(c, w, txs, k, height).work.runes.terms.Keys
    decreases |txs| - k
  {
    hide Turn;
    if k < |txs| {
      TurnRunes(c, w, txs[k], k, height);
      TurnsKeepTerms(c, Turn(c, w, txs[k], k, height).work, txs, k + 1, height);
    }
  }

  lemma BlockKeepsTerms(c: Config, x: Index, txs: seq<Tx>, height: nat)
    requires B.Sound(x.ledger) && ProcessBlock(c, x, txs, height).Worked?
    ensures x.runes.terms.Keys <= ProcessBlock(c, x, txs, height).work.runes.terms.Keys
  {
    hide Turns, B.Sound, FundedAt, MoveAt, BooksAt;
    CoinbaseRunes(c, x, txs, height);
    TurnsKeepTerms(c, AfterRunes(Start(x, txs, height), RunesAt(c, x.runes, txs[0], [], 0, height), 0), txs, 1, height);
  }

  // ----- the whole block

  // `y` is `x` again, an absent amount counting as zero, except for the terms
  // and reserved names that `extra` runes still have.
  ghost predicate Near(y: Index, x: Index, extra: set<RuneId>) {
    y.utxos == x.utxos && y.registry == x.registry && SameLedger(y.ledger, x.ledger) && Restores(y.runes, x.runes, extra)
  }

  /** Undoing a block with what was kept for it restores every table, except
      that runes etched without a name keep their terms and reserved names. */
  lemma BlockUndone(c: Config, x: Index, txs: seq<Tx>, height: nat, y: Index, extra: set<RuneId>)
    requires NewBlock(c, x, txs, height) && ProcessBlock(c, x, txs, height).Worked?
    requires Near(y, Commit(x, txs, ProcessBlock(c, x, txs, height).work), extra)
    requires forall id :: id in extra ==> id.block > height
    ensures var r := UndoBlock(y, txs, height, Keep(x, txs, ProcessBlock(c, x, txs, height).work));
      r.Some? && Near(r.value, x, extra + Leftover(c, txs, 0, height))
  {
    hide NewBlock, ProcessBlock, UndoRunesFrom, RestoreFrom, CommitFrom, Restores, SameLedger, UndoLog, RevealedFrom;
    BlockSound(c, x, txs, height);
    var w := ProcessBlock(c, x, txs, height).work;
    var kept := Keep(x, txs, w);
    BlockChains(c, x, txs, height);
    BlockDistinct(c, x, txs, height);
    RestoreUndoes(x.utxos, w.bodies, kept.bodies, txs, 0);
    BlockRunesUndone(c, x, txs, height, y.runes, extra);
    BlockLedgerUndone(c, x, txs, height);
    BlockCursedUndone(c, x, txs, height);
  }

  lemma BlockDistinct(c: Config, x: Index, txs: seq<Tx>, height: nat)
    requires NewBlock(c, x, txs, height)
    ensures Distinct(SpendsFrom(txs, 0))
  {
  }

  lemma BlockSound(c: Config, x: Index, txs: seq<Tx>, height: nat)
    requires NewBlock(c, x, txs, height)
    ensures B.Sound(x.ledger)
  {
  }
}
