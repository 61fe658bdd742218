/** A chain reorganisation: blocks rolled back and others applied leave the
    tables as if the abandoned blocks had never been there. */
module Reorg {
  import opened Chain
  import opened Inscriptions
  import opened Sums
  import opened Undo
  import opened ChainDb
  import S = Storage
  import R = Runes
  import B = Brc20
  import Roll
  import Supply

  // ----- the ledger only depends on amounts, absent ones counting as zero

  ghost predicate SameBooks(a: B.Books, b: B.Books) {
    SameLedger(a.ledger, b.ledger) && a.log == b.log && a.locked == b.locked
  }

  lemma SoundSame(a: B.Ledger, b: B.Ledger)
    requires SameLedger(a, b) && B.Sound(a)
    ensures B.Sound(b)
  {
    forall t ensures Get(b.supply, t) == Get(a.supply, t) {
    }
    forall t | t in b.supply && b.supply[t] > 0 ensures t in b.terms {
      assert Get(a.supply, t) > 0;
    }
  }

  lemma SetSame<K(!new)>(a: map<K, nat>, b: map<K, nat>, key: K, v: nat)
    requires SameAmounts(a, b)
    ensures SameAmounts(a[key := v], b[key := v])
  {
    var a', b' := a[key := v], b[key := v];
    forall k ensures Get(a', k) == Get(b', k) {
      assert Get(a, k) == Get(b, k);
    }
  }

  lemma RedeemSame(a: B.Books, b: B.Books, unused: map<InscriptionId, B.Pending>, id: InscriptionId, receiver: Script)
    requires SameBooks(a, b)
    ensures SameBooks(B.Redeem(a, unused, id, receiver), B.Redeem(b, unused, id, receiver))
  {
    if id in unused {
      var t := unused[id].transfer;
      var key := (t.ticker, receiver);
      assert Get(a.ledger.balances, key) == Get(b.ledger.balances, key);
      SetSame(a.ledger.balances, b.ledger.balances, key, Get(a.ledger.balances, key) + t.amount);
    }
  }

  lemma MintSame(a: B.Books, b: B.Books, ticker: Ticker, amt: nat, receiver: Option<Script>)
    requires SameBooks(a, b) && B.Sound(a.ledger) && B.Sound(b.ledger) && ticker in a.ledger.terms
    ensures SameBooks(B.HandleMint(a, ticker, amt, receiver), B.HandleMint(b, ticker, amt, receiver))
  {
    hide B.Sound, SameAmounts;
    B.SupplyWithinMax(a.ledger, ticker);
    var minted := Get(a.ledger.supply, ticker);
    AmountSame(a.ledger.supply, b.ledger.supply, ticker);
    if receiver.Some? {
      var key, actual := (ticker, receiver.value), Min(amt, a.ledger.terms[ticker].max - minted);
      AmountSame(a.ledger.balances, b.ledger.balances, key);
      SetSame(a.ledger.supply, b.ledger.supply, ticker, minted + actual);
      SetSame(a.ledger.balances, b.ledger.balances, key, Get(a.ledger.balances, key) + actual);
    }
  }

  lemma AmountSame<K(!new)>(a: map<K, nat>, b: map<K, nat>, key: K)
    requires SameAmounts(a, b)
    ensures Get(a, key) == Get(b, key)
  {
  }

  lemma TransferSame(a: B.Books, b: B.Books, insc: InscriptionId, ticker: Ticker, amt: nat, receiver: Option<Script>)
    requires SameBooks(a, b) && amt > 0
    ensures SameBooks(B.HandleTransfer(a, insc, ticker, amt, receiver), B.HandleTransfer(b, insc, ticker, amt, receiver))
  {
    hide SameAmounts;
    if receiver.Some? {
      var key := (ticker, receiver.value);
      AmountSame(a.ledger.balances, b.ledger.balances, key);
      var balance := Get(a.ledger.balances, key);
      if balance >= amt {
        SetSame(a.ledger.balances, b.ledger.balances, key, balance - amt);
      }
    }
  }

  lemma HandleSame(a: B.Books, b: B.Books, insc: InscriptionId, raw: RawMessage, parents: set<InscriptionId>, receiver: Option<Script>)
    requires SameBooks(a, b) && B.Sound(a.ledger) && B.Sound(b.ledger)
    ensures SameBooks(B.Handle(a, insc, raw, parents, receiver), B.Handle(b, insc, raw, parents, receiver))
  {
    hide B.Sound, SameAmounts, B.ParseDeploy, B.ParseMint;
    var terms := a.ledger.terms;
    if B.ParseDeploy(raw, insc).None? && raw.tick in terms {
      var mint, transfer := B.ParseMint(raw, terms[raw.tick], parents), B.ParseTransfer(raw, terms[raw.tick]);
      if mint.Some? {
        MintSame(a, b, raw.tick, mint.value, receiver);
      } else if transfer.Some? {
        TransferSame(a, b, insc, raw.tick, transfer.value, receiver);
      }
    }
  }

  lemma {:induction false} RedeemAllSame(a: B.Books, b: B.Books, unused: map<InscriptionId, B.Pending>, moves: seq<(InscriptionId, Script)>)
    requires SameBooks(a, b)
    ensures SameBooks(B.RedeemAll(a, unused, moves), B.RedeemAll(b, unused, moves))
  {
    hide SameBooks, B.Redeem;
    if moves != [] {
      var front, last := moves[..|moves| - 1], moves[|moves| - 1];
      RedeemAllSame(a, b, unused, front);
      RedeemSame(B.RedeemAll(a, unused, front), B.RedeemAll(b, unused, front), unused, last.0, last.1);
    }
  }

  lemma {:induction false} HandleAllSame(a: B.Books, b: B.Books, tx: Tx, out: Outgoing, parents: set<InscriptionId>,
                                         msgs: seq<(InscriptionId, RawMessage)>)
    requires SameBooks(a, b) && B.Sound(a.ledger) && B.Sound(b.ledger)
    ensures SameBooks(B.HandleAll(a, tx, out, parents, msgs), B.HandleAll(b, tx, out, parents, msgs))
  {
    hide SameBooks, B.Handle, B.Sound, B.Landing;
    if msgs != [] {
      var front, last := msgs[..|msgs| - 1], msgs[|msgs| - 1];
      HandleAllSame(a, b, tx, out, parents, front);
      HandleSame(B.HandleAll(a, tx, out, parents, front), B.HandleAll(b, tx, out, parents, front),
                 last.0, last.1, parents, B.Landing(tx, out, last.0));
    }
  }

  lemma IndexLedgerSame(a: B.Ledger, b: B.Ledger, tx: Tx, inputs: seq<Input>, out: Outgoing, rest: seq<Flotsam>)
    requires SameLedger(a, b) && B.Sound(a) && B.Sound(b)
    ensures SameBooks(B.IndexLedger(a, tx, inputs, out, rest), B.IndexLedger(b, tx, inputs, out, rest))
  {
    hide B.Sound, SameLedger, B.RedeemAll, B.HandleAll, Floating;
    var a0, b0, floating := B.Books(a, [], map[]), B.Books(b, [], map[]), Floating(tx, inputs, |inputs|);
    var unused, moves := B.Unused(inputs), B.Moves(tx, inputs, out, rest);
    RedeemAllSame(a0, b0, unused, moves);
    B.RedeemAllSound(a0, unused, moves);
    B.RedeemAllSound(b0, unused, moves);
    HandleAllSame(B.RedeemAll(a0, unused, moves), B.RedeemAll(b0, unused, moves), tx, out, B.IdSet(floating), B.Messages(tx, floating));
  }

  // ----- runes only depend on the number of mints, absent ones counting as zero

  ghost predicate SameTables(a: R.Tables, b: R.Tables) {
    a.ids == b.ids && a.terms == b.terms && SameAmounts(a.mints, b.mints)
  }

  lemma MintsSame(a: R.Tables, b: R.Tables, artifact: Artifact, height: nat)
    requires SameTables(a, b)
    ensures R.MintedId(a, artifact, height) == R.MintedId(b, artifact, height)
    ensures R.MintedId(a, artifact, height).Some? ==>
      R.MintAmount(a, artifact.mint.value, height) == R.MintAmount(b, artifact.mint.value, height)
    ensures SameTables(R.AfterMint(a, artifact, height), R.AfterMint(b, artifact, height))
  {
    hide SameAmounts;
    if artifact.mint.Some? {
      var id := artifact.mint.value;
      AmountSame(a.mints, b.mints, id);
      SetSame(a.mints, b.mints, id, Get(a.mints, id) + 1);
    }
  }

  ghost predicate SameIndexed(a: R.Indexed, b: R.Indexed) {
    SameTables(a.tables, b.tables) && a.outputs == b.outputs && a.burned == b.burned && a.etched == b.etched && a.minted == b.minted
  }

  lemma EtchSame(a: R.Tables, b: R.Tables, tx: Tx, txIndex: nat, height: nat)
    requires SameTables(a, b)
    ensures R.Etch(a, tx, txIndex, height) == R.Etch(b, tx, txIndex, height)
    ensures SameTables(R.NextTables(a, tx, txIndex, height), R.NextTables(b, tx, txIndex, height))
  {
    hide SameAmounts, R.MintedId, R.AfterMint;
    if tx.artifact.Some? {
      MintsSame(a, b, tx.artifact.value, height);
    }
  }

  lemma IndexRunesSame(a: R.Tables, b: R.Tables, tx: Tx, bodies: seq<TxoBody>, txIndex: nat, height: nat)
    requires SameTables(a, b) && R.WellFormed(tx)
    ensures SameIndexed(R.IndexRunes(a, tx, bodies, txIndex, height), R.IndexRunes(b, tx, bodies, txIndex, height))
  {
    hide SameTables, R.Settle, R.ApplyEdicts, R.MintAmount, R.Etch, R.NextTables, R.WellFormed, R.LeftoverOutput;
    EtchSame(a, b, tx, txIndex, height);
    if tx.artifact.Some? {
      MintsSame(a, b, tx.artifact.value, height);
    }
    assert R.Funds(a, tx, bodies, txIndex, height) == R.Funds(b, tx, bodies, txIndex, height);
    assert R.Allocation(a, tx, bodies, txIndex, height) == R.Allocation(b, tx, bodies, txIndex, height);
  }

  // ----- processing a block

  ghost predicate SameWork(a: Work, b: Work) {
    && SameLedger(a.ledger, b.ledger) && SameTables(a.runes, b.runes)
    && a == b.(ledger := a.ledger, runes := a.runes)
  }

  ghost predicate SameOutcome(a: Outcome, b: Outcome) {
    if a.Worked? && b.Worked? then SameWork(a.work, b.work) else a == b
  }

  lemma RunesAtSame(c: Config, a: R.Tables, b: R.Tables, tx: Tx, bodies: seq<TxoBody>, txIndex: nat, height: nat)
    requires SameTables(a, b) && R.WellFormed(tx)
    ensures SameIndexed(RunesAt(c, a, tx, bodies, txIndex, height), RunesAt(c, b, tx, bodies, txIndex, height))
  {
    hide SameTables, R.IndexRunes, R.WellFormed;
    if height >= c.firstRune {
      IndexRunesSame(a, b, tx, bodies, txIndex, height);
    }
  }

  // The same inscriptions and outputs, and books that agree.
  lemma AfterMoveSame(c: Config, a: Work, b: Work, tx: Tx, ra: R.Indexed, rb: R.Indexed, inputs: seq<Input>, height: nat,
                      a': Work, b': Work)
    requires SameWork(a, b) && B.Sound(a.ledger) && B.Sound(b.ledger) && FundedAt(c, a, tx, inputs, height)
    requires SameIndexed(ra, rb) && |ra.outputs| == |rb.outputs| == |tx.outputs| && SameWork(a', b')
    ensures SameWork(AfterMove(a', tx, height, EffectsAt(c, a, tx, ra, inputs, height)),
                     AfterMove(b', tx, height, EffectsAt(c, b, tx, rb, inputs, height)))
  {
    hide SameTables, SameLedger, B.Sound, Funded, MoveAt, B.IndexLedger, Create;
    var ea, eb := EffectsAt(c, a, tx, ra, inputs, height), EffectsAt(c, b, tx, rb, inputs, height);
    assert ea.move == eb.move by {
      MoveAtSame(c, a, b, tx, inputs, height);
    }
    if height >= c.firstInscription {
      IndexLedgerSame(a.ledger, b.ledger, tx, inputs, ea.move.settled.outgoing, B.Rest(tx, inputs, a.carried));
    }
    assert Supply.Bodies(tx, height, ea) == Supply.Bodies(tx, height, eb);
  }

  lemma MoveAtSame(c: Config, a: Work, b: Work, tx: Tx, inputs: seq<Input>, height: nat)
    requires SameWork(a, b) && FundedAt(c, a, tx, inputs, height)
    ensures FundedAt(c, b, tx, inputs, height) && MoveAt(c, a, tx, inputs, height) == MoveAt(c, b, tx, inputs, height)
  {
    hide SameTables, SameLedger, Funded, MoveInscriptions;
  }

  lemma TurnSame(c: Config, a: Work, b: Work, tx: Tx, txIndex: nat, height: nat)
    requires SameWork(a, b) && B.Sound(a.ledger) && B.Sound(b.ledger)
    ensures SameOutcome(Turn(c, a, tx, txIndex, height), Turn(c, b, tx, txIndex, height))
  {
    hide SameTables, SameLedger, B.Sound, Funded, RunesAt, EffectsAt, AfterMove, R.WellFormed;
    if Roll.FirstMissing(a.bodies, tx.inputs).None? {
      var resolved := Resolve(a.bodies, tx.inputs);
      var inputs := Supply.SpentInputs(resolved);
      if R.WellFormed(tx) && FundedAt(c, a, tx, inputs, height) {
        var ra, rb := RunesAt(c, a.runes, tx, resolved, txIndex, height), RunesAt(c, b.runes, tx, resolved, txIndex, height);
        RunesAtSame(c, a.runes, b.runes, tx, resolved, txIndex, height);
        AfterMoveSame(c, a, b, tx, ra, rb, inputs, height, AfterRunes(a, ra, txIndex), AfterRunes(b, rb, txIndex));
      }
    }
  }

  lemma {:induction false} TurnsSame(c: Config, a: Work, b: Work, txs: seq<Tx>, k: nat, height: nat)
    requires SameWork(a, b) && B.Sound(a.ledger) && B.Sound(b.ledger)
    ensures SameOutcome(Turns(c, a, txs, k, height), Turns(c, b, txs, k, height))
    decreases |txs| - k
  {
    hide SameWork, B.Sound, Turn;
    if k < |txs| {
      TurnSame(c, a, b, txs[k], k, height);
      var oa, ob := Turn(c, a, txs[k], k, height), Turn(c, b, txs[k], k, height);
      if oa.Worked? && ob.Worked? {
        TurnsSame(c, oa.work, ob.work, txs, k + 1, height);
      }
    }
  }

  lemma SoundNear(x: Index, y: Index)
    requires Near(x, y, {}) && B.Sound(y.ledger)
    ensures B.Sound(x.ledger) && SameTables(x.runes, y.runes)
  {
    hide SameAmounts;
    LedgerSym(x.ledger, y.ledger);
    SoundSame(y.ledger, x.ledger);
  }

  lemma LedgerSym(a: B.Ledger, b: B.Ledger)
    requires SameLedger(a, b)
    ensures SameLedger(b, a)
  {
  }

  /** Tables that agree, absent amounts counting as zero, agree after a block
      too, and keep the same data for undoing it. */
  lemma ProcessSame(c: Config, x: Index, y: Index, txs: seq<Tx>, height: nat)
    requires Near(x, y, {}) && B.Sound(x.ledger) && B.Sound(y.ledger)
    ensures SameOutcome(ProcessBlock(c, x, txs, height), ProcessBlock(c, y, txs, height))
  {
    hide SameLedger, B.Sound, Funded, RunesAt, EffectsAt, AfterMove, R.WellFormed, Turns, Fetch;
    SoundNear(x, y);
    if txs != [] && txs[0].inputs == [NULL_OUTPOINT] && R.WellFormed(txs[0]) {
      var rx, ry := RunesAt(c, x.runes, txs[0], [], 0, height), RunesAt(c, y.runes, txs[0], [], 0, height);
      RunesAtSame(c, x.runes, y.runes, txs[0], [], 0, height);
      var a, b := AfterRunes(Start(x, txs, height), rx, 0), AfterRunes(Start(y, txs, height), ry, 0);
      TurnsSame(c, a, b, txs, 1, height);
      var oa, ob := Turns(c, a, txs, 1, height), Turns(c, b, txs, 1, height);
      if oa.Worked? && ob.Worked? && FundedAt(c, oa.work, txs[0], CoinbaseInputs(height), height) {
        AfterMoveSame(c, oa.work, ob.work, txs[0], rx, ry, CoinbaseInputs(height), height, oa.work, ob.work);
      }
    }
  }

  lemma CommitSame(x: Index, y: Index, txs: seq<Tx>, a: Work, b: Work)
    requires Near(x, y, {}) && SameWork(a, b)
    ensures Near(Commit(x, txs, a), Commit(y, txs, b), {}) && Keep(x, txs, a) == Keep(y, txs, b)
  {
    hide SameLedger, SameAmounts, CommitFrom;
  }

  // ----- reorganisations

  ghost predicate SameDb(a: S.Db, b: S.Db) {
    S.NearDb(a, b, {}) && a.tip == b.tip
  }

  ghost predicate SameResult(a: S.Result, b: S.Result) {
    if a.Ok? && b.Ok? then SameDb(a.db, b.db) else a == b
  }

  lemma ApplySame(cfg: S.Config, a: S.Db, b: S.Db, height: nat, block: S.Block, m: bool, n: bool)
    requires SameDb(a, b) && B.Sound(a.index.ledger) && B.Sound(b.index.ledger)
    ensures SameResult(S.ApplyBlock(cfg, a, height, block, m), S.ApplyBlock(cfg, b, height, block, n))
  {
    hide B.Sound, ProcessBlock, Near, S.Logged, SameWork, Commit, Keep;
    ProcessSame(cfg.index, a.index, b.index, block.txs, height);
    var oa, ob := ProcessBlock(cfg.index, a.index, block.txs, height), ProcessBlock(cfg.index, b.index, block.txs, height);
    if oa.Worked? && ob.Worked? {
      CommitSame(a.index, b.index, block.txs, oa.work, ob.work);
    }
  }

  lemma {:induction false} ApplyAllSame(cfg: S.Config, a: S.Db, b: S.Db, items: S.Blocks, m: bool, n: bool)
    requires SameDb(a, b) && B.Sound(a.index.ledger) && B.Sound(b.index.ledger)
    ensures SameResult(S.ApplyAll(cfg, a, items, m), S.ApplyAll(cfg, b, items, n))
  {
    hide B.Sound, SameDb, S.ApplyBlock;
    if items != [] {
      var front, last := items[..|items| - 1], items[|items| - 1];
      ApplyAllSame(cfg, a, b, front, m, n);
      var ra, rb := S.ApplyAll(cfg, a, front, m), S.ApplyAll(cfg, b, front, n);
      if ra.Ok? && rb.Ok? {
        ApplySame(cfg, ra.db, rb.db, last.0, last.1, m, n);
      }
    }
  }

  /** A reorganisation of any depth: applying the abandoned branch, rolling it
      back and applying the new branch gives the same result, up to the log, as
      applying the new branch alone, when the abandoned branch etched no rune
      without a name. */
  lemma ReorgTransparent(cfg: S.Config, db: S.Db, abandoned: S.Blocks, adopted: S.Blocks, m: bool, n: bool, base: nat)
    requires B.Sound(db.index.ledger) && S.NewItems(cfg, db, abandoned, m) && S.ApplyAll(cfg, db, abandoned, m).Ok?
    requires base in db.blocks && (forall h :: h in db.blocks ==> h <= base) && db.tip == Some(db.blocks[base].hash)
    requires S.AllNamed(cfg, abandoned)
    ensures var r := S.Rollback(S.ApplyAll(cfg, db, abandoned, m).db, base, db.blocks[base].hash, n);
      && r.Ok? && B.Sound(r.db.index.ledger)
      && SameResult(S.ApplyAll(cfg, r.db, adopted, n), S.ApplyAll(cfg, db, adopted, n))
  {
    hide B.Sound, S.Rollback, S.NewItems, S.ApplyAll, S.AllNamed, Near;
    S.RollbackRestores(cfg, db, abandoned, m, base, n);
    var r := S.Rollback(S.ApplyAll(cfg, db, abandoned, m).db, base, db.blocks[base].hash, n);
    SoundNear(r.db.index, db.index);
    ApplyAllSame(cfg, r.db, db, adopted, n, n);
  }
}
