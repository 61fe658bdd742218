/** The sats of the chain: what the unspent outputs hold and what coinbases lost
    grows with every block by exactly its subsidy. */
module Sats {
  import opened Chain
  import opened Inscriptions
  import opened Sums
  import opened Undo
  import opened ChainDb
  import opened Supply
  import opened Confirmed
  import R = Runes
  import B = Brc20
  import O = Ordinals
  import S = Storage
  import Audit

  function SatMeasure(): TxoBody -> nat {
    (b: TxoBody) => b.value
  }

  lemma {:induction false} OutputsMeasured(outputs: seq<TxOut>, bodies: seq<TxoBody>)
    requires |bodies| == |outputs| && forall v :: 0 <= v < |outputs| ==> bodies[v].value == outputs[v].value
    ensures MeasureSeq(bodies, SatMeasure()) == OutputValue(outputs)
  {
    if outputs != [] {
      OutputsMeasured(outputs[..|outputs| - 1], bodies[..|bodies| - 1]);
    }
  }

  lemma {:induction false} InputsMeasured(bodies: seq<TxoBody>)
    ensures MeasureSeq(bodies, SatMeasure()) == InputValue(SpentInputs(bodies))
  {
    if bodies != [] {
      InputsMeasured(bodies[..|bodies| - 1]);
      assert SpentInputs(bodies)[..|bodies| - 1] == SpentInputs(bodies[..|bodies| - 1]);
    }
  }

  // Whatever is spent: the sats of the outputs replace those of the inputs.
  lemma NextMeasured(u: map<OutPoint, TxoBody>, tx: Tx, spent: seq<OutPoint>, height: nat, e: Effects)
    requires |e.runes.outputs| == |tx.outputs| && Spendable(u, spent) && FreshTxid(u, tx.id)
    ensures Measure(Next(u, tx, spent, Bodies(tx, height, e)), SatMeasure()) + InputValue(SpentInputs(Resolve(u, spent)))
      == Measure(u, SatMeasure()) + OutputValue(tx.outputs)
  {
    MeasureStep(u, SatMeasure(), spent, tx.id, Bodies(tx, height, e));
    OutputsMeasured(tx.outputs, Bodies(tx, height, e));
    InputsMeasured(Resolve(u, spent));
  }

  // What a turn leaves of the reward and of the sats lost so far.
  lemma TurnMoves(c: Config, w: Work, tx: Tx, k: nat, height: nat)
    requires B.Sound(w.ledger) && Turn(c, w, tx, k, height).Worked? && height >= c.firstInscription
    ensures forall i :: 0 <= i < |tx.inputs| ==> tx.inputs[i] in w.bodies
    ensures var w1 := Turn(c, w, tx, k, height).work;
      && OutputValue(tx.outputs) + w1.reward == w.reward + InputValue(SpentInputs(Resolve(w.bodies, tx.inputs)))
      && w1.registry.counters.lost == w.registry.counters.lost
  {
    hide RunesAt, MoveInscriptions, B.IndexLedger, Bodies, Create, InputValue, OutputValue;
    TurnIs(c, w, tx, k, height);
    SatsAccounted(tx, SpentInputs(Resolve(w.bodies, tx.inputs)), w.registry, w.reward, w.carried);
  }

  // What is not on the outputs is in the reward.
  lemma TurnSats(c: Config, u: map<OutPoint, TxoBody>, w: Work, bodies: map<OutPoint, TxoBody>, txs: seq<Tx>, k: nat, height: nat)
    requires Fits(u, w, bodies, txs, k) && k < |txs| && B.Sound(w.ledger) && Turn(c, w, txs[k], k, height).Worked?
    requires height >= c.firstInscription && Submap(Turn(c, w, txs[k], k, height).work.bodies, bodies)
    ensures var w1 := Turn(c, w, txs[k], k, height).work;
      && Measure(CommitTx(u, bodies, txs[k]), SatMeasure()) + w1.reward == Measure(u, SatMeasure()) + w.reward
      && w1.registry.counters.lost == w.registry.counters.lost
  {
    assert FreshTxid(u, txs[k].id);
    hide Turn, Fits, EffectsOf, Bodies, CommitTx, Next, Measure, InputValue, OutputValue;
    TurnMoves(c, w, txs[k], k, height);
    TurnCommits(c, u, w, bodies, txs, k, height);
    TurnSpends(c, u, w, bodies, txs, k, height);
    NextMeasured(u, txs[k], txs[k].inputs, height, EffectsOf(c, w, txs[k], k, height));
  }

  lemma {:induction false} TurnsSats(c: Config, u: map<OutPoint, TxoBody>, w: Work, bodies: map<OutPoint, TxoBody>, txs: seq<Tx>, k: nat, height: nat)
    requires Fits(u, w, bodies, txs, k) && B.Sound(w.ledger) && Turns(c, w, txs, k, height).Worked?
    requires height >= c.firstInscription && Submap(Turns(c, w, txs, k, height).work.bodies, bodies)
    ensures var w', u' := Turns(c, w, txs, k, height).work, CommitFrom(u, bodies, txs, k);
      && Measure(u', SatMeasure()) + w'.reward == Measure(u, SatMeasure()) + w.reward
      && w'.registry.counters.lost == w.registry.counters.lost && Fits(u', w', bodies, txs, |txs|)
    ensures forall o :: o in SpendsFrom(txs, k) ==> o.txid != txs[0].id
    decreases |txs| - k
  {
    hide Turn, Fits, Measure, Next, Bodies, CommitTx, EffectsOf, B.Sound;
    if k < |txs| {
      var w1 := Turn(c, w, txs[k], k, height).work;
      RestGrows(c, u, w, bodies, txs, k, height);
      FitsNext(c, u, w, bodies, txs, k, height);
      TurnSats(c, u, w, bodies, txs, k, height);
      TurnSpends(c, u, w, bodies, txs, k, height);
      TurnsSats(c, CommitTx(u, bodies, txs[k]), w1, bodies, txs, k + 1, height);
    } else {
      FitsIndex(u, w, bodies, txs, k);
    }
  }

  // A coinbase claims the reward or loses it.
  lemma CoinbaseSats(c: Config, u: map<OutPoint, TxoBody>, w: Work, tx: Tx, runes: R.Indexed, height: nat)
    requires |runes.outputs| == |tx.outputs| && FreshTxid(u, tx.id) && B.Sound(w.ledger)
    requires FundedAt(c, w, tx, CoinbaseInputs(height), height) && height >= c.firstInscription
    ensures var e := EffectsAt(c, w, tx, runes, CoinbaseInputs(height), height);
      Measure(Next(u, tx, [], Bodies(tx, height, e)), SatMeasure()) + e.move.settled.counters.lost
        == Measure(u, SatMeasure()) + w.registry.counters.lost + w.reward
  {
    hide MoveInscriptions, B.IndexLedger, Bodies, Next, Measure, OutputValue;
    NextMeasured(u, tx, [], height, EffectsAt(c, w, tx, runes, CoinbaseInputs(height), height));
    assert Resolve(u, []) == [];
    SatsAccounted(tx, CoinbaseInputs(height), w.registry, w.reward, w.carried);
  }

  /** Unspent and lost sats together grow by the subsidy of the block. */
  lemma BlockSats(c: Config, x: Index, txs: seq<Tx>, height: nat)
    requires NewBlock(c, x, txs, height) && ProcessBlock(c, x, txs, height).Worked? && height >= c.firstInscription
    ensures var x' := Commit(x, txs, ProcessBlock(c, x, txs, height).work);
      Measure(x'.utxos, SatMeasure()) + x'.registry.counters.lost
        == Measure(x.utxos, SatMeasure()) + x.registry.counters.lost + BlockSubsidy(height)
  {
    hide Turns, RunesAt, FundedAt, EffectsAt, ProcessBlock, Fits, CommitFrom, Bodies, NewBlock, Next, Create, Measure, BlockSubsidy, B.Sound;
    BlockSound(c, x, txs, height);
    BlockRuns(c, x, txs, height);
    var w, w1, runes := ProcessBlock(c, x, txs, height).work, Begun(c, x, txs, height), RunesAt(c, x.runes, txs[0], [], 0, height);
    var w2 := Turns(c, w1, txs, 1, height).work;
    var made := Bodies(txs[0], height, EffectsAt(c, w2, txs[0], runes, CoinbaseInputs(height), height));
    BlockGrows(c, x, txs, height);
    BlockFits(c, x, txs, height, w.bodies);
    TurnsSats(c, x.utxos, w1, w.bodies, txs, 1, height);
    var u := CommitFrom(x.utxos, w.bodies, txs, 1);
    FitsFresh(u, w2, w.bodies, txs, |txs|);
    MadeByTurn(w2, w.bodies, txs[0], made);
    BlockCommits(c, x, txs, w.bodies, made, height);
    CoinbaseSats(c, u, w2, txs[0], runes, height);
  }

  // ----- over a whole chain

  // The subsidies of all blocks together.
  function Subsidies(items: S.Blocks): nat {
    if items == [] then 0 else Subsidies(items[..|items| - 1]) + BlockSubsidy(items[|items| - 1].0)
  }

  ghost function Existing(db: S.Db): nat {
    Measure(db.index.utxos, SatMeasure()) + db.index.registry.counters.lost
  }

  /** So they do over any number of blocks: no sat appears or vanishes. */
  lemma {:induction false} ChainSats(cfg: S.Config, db: S.Db, items: S.Blocks, mutable: bool)
    requires B.Sound(db.index.ledger) && S.NewItems(cfg, db, items, mutable) && S.ApplyAll(cfg, db, items, mutable).Ok?
    requires forall i :: 0 <= i < |items| ==> items[i].0 >= cfg.index.firstInscription
    ensures Existing(S.ApplyAll(cfg, db, items, mutable).db) == Existing(db) + Subsidies(items)
  {
    hide S.ApplyBlock, NewBlock, Measure, B.Sound, BlockSubsidy;
    if items != [] {
      var front, last := items[..|items| - 1], items[|items| - 1];
      var d := S.ApplyAll(cfg, db, front, mutable).db;
      ChainSats(cfg, db, front, mutable);
      var _ := S.Applied(cfg, d, last.0, last.1, mutable);
      BlockSats(cfg.index, d.index, last.1.txs, last.0);
    }
  }

  /** A chain of all blocks from the first one on holds as many sats as there are
      below the first sat of the next block. */
  lemma {:induction false} SubsidiesAreFirst(items: S.Blocks)
    requires forall i :: 0 <= i < |items| ==> items[i].0 == i
    ensures Subsidies(items) == O.First(|items|)
  {
    if items != [] {
      SubsidiesAreFirst(items[..|items| - 1]);
    }
  }

  /** So the chain of the first n blocks, where inscriptions are followed from the
      first block on, accounts for exactly the sats that are numbered below n. */
  lemma FullChainSats(cfg: S.Config, items: S.Blocks, mutable: bool)
    requires B.Sound(Audit.EMPTY.index.ledger) && S.NewItems(cfg, Audit.EMPTY, items, mutable) && S.ApplyAll(cfg, Audit.EMPTY, items, mutable).Ok?
    requires cfg.index.firstInscription == 0 && forall i :: 0 <= i < |items| ==> items[i].0 == i
    ensures Existing(S.ApplyAll(cfg, Audit.EMPTY, items, mutable).db) == O.First(|items|)
  {
    hide S.ApplyAll, S.NewItems, B.Sound;
    ZeroTotal<OutPoint>(map[]);
    assert Measure(map[], SatMeasure()) == 0;
    ChainSats(cfg, Audit.EMPTY, items, mutable);
    SubsidiesAreFirst(items);
  }
}
