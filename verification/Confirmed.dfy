/** The books over confirmed blocks: a processed block keeps every rune, every
    BRC-20 amount and every inscription accounted for. */
module Confirmed {
  import opened Chain
  import opened Inscriptions
  import opened Sums
  import opened Undo
  import opened ChainDb
  import opened Supply
  import R = Runes
  import B = Brc20

  // Premined and burned amounts, which the indexer leaves implicit.
  datatype Accounts = Accounts(premined: map<RuneId, nat>, burned: map<RuneId, nat>)

  function Charge(a: Accounts, tx: Tx, r: R.Indexed): Accounts {
    Accounts(PreminedAfter(a.premined, tx, r), BurnedAfter(a.burned, r))
  }

  // What indexing the runes of transaction k yields.
  function RunesOf(c: Config, w: Work, tx: Tx, k: nat, height: nat): (r: R.Indexed)
    requires B.Sound(w.ledger) && Turn(c, w, tx, k, height).Worked?
    ensures |r.outputs| == |tx.outputs|
  {
    RunesAt(c, w.runes, tx, Resolve(w.bodies, tx.inputs), k, height)
  }

  function TurnsCharge(c: Config, w: Work, a: Accounts, txs: seq<Tx>, k: nat, height: nat): Accounts
    requires B.Sound(w.ledger)
    decreases |txs| - k
  {
    if k >= |txs| || !Turn(c, w, txs[k], k, height).Worked? then a else
      TurnsCharge(c, Turn(c, w, txs[k], k, height).work, Charge(a, txs[k], RunesOf(c, w, txs[k], k, height)), txs, k + 1, height)
  }

  // The accounts after a block.
  function BlockCharge(c: Config, x: Index, a: Accounts, txs: seq<Tx>, height: nat): Accounts
    requires B.Sound(x.ledger) && ProcessBlock(c, x, txs, height).Worked?
  {
    var runes := RunesAt(c, x.runes, txs[0], [], 0, height);
    TurnsCharge(c, AfterRunes(Start(x, txs, height), runes, 0), Charge(a, txs[0], runes), txs, 1, height)
  }

  // ----- the books

  // Below the first rune height no rune can be etched yet.
  ghost predicate Accounted(c: Config, t: R.Tables, id: RuneId, held: nat, a: Accounts, height: nat, k: nat) {
    if height >= c.firstRune then RuneEntry(t, id, held, Get(a.burned, id), Get(a.premined, id), height, k)
    else RuneEntry(t, id, held, Get(a.burned, id), Get(a.premined, id), c.firstRune, 0)
  }

  predicate NoRunes(u: map<OutPoint, TxoBody>) {
    forall o :: o in u ==> u[o].runes == map[]
  }

  predicate NoInscriptions(u: map<OutPoint, TxoBody>) {
    forall o :: o in u ==> u[o].inscriptions == [] && u[o].transfers == map[]
  }

  // Outputs made below the first heights hold nothing.
  predicate Young(c: Config, u: map<OutPoint, TxoBody>, height: nat) {
    (height <= c.firstRune ==> NoRunes(u)) && (height <= c.firstInscription ==> NoInscriptions(u))
  }

  /** The books of an index whose blocks all lie below `height`: every rune is
      accounted for, the BRC-20 supply is balances plus locked amounts, and
      every inscription is held at most once. */
  ghost predicate Books(c: Config, x: Index, a: Accounts, height: nat) {
    && (forall id :: Accounted(c, x.runes, id, Measure(x.utxos, RuneMeasure(id)), a, height, 0))
    && Balanced(x.utxos, x.ledger, [])
    && Young(c, x.utxos, height)
  }

  lemma BooksLater(c: Config, x: Index, a: Accounts, height: nat, later: nat)
    requires Books(c, x, a, height) && height <= later
    ensures Books(c, x, a, later)
  {
    hide Measure, Balanced;
    forall id ensures Accounted(c, x.runes, id, Measure(x.utxos, RuneMeasure(id)), a, later, 0) {
      assert Accounted(c, x.runes, id, Measure(x.utxos, RuneMeasure(id)), a, height, 0);
    }
  }

  // ----- nothing held

  lemma NoRunesMeasure(u: map<OutPoint, TxoBody>, id: RuneId)
    requires NoRunes(u)
    ensures Measure(u, RuneMeasure(id)) == 0
  {
    ZeroTotal(map o | o in u :: RuneMeasure(id)(u[o]));
  }

  lemma NothingLocked(t: Ticker)
    ensures B.LockedSum(map[], t) == 0
  {
    assert forall m: map<InscriptionId, Transfer> :: m == map[] ==> B.LockedSum(m, t) == 0;
  }

  lemma NoInscriptionsMeasure(u: map<OutPoint, TxoBody>, t: Ticker, id: InscriptionId)
    requires NoInscriptions(u)
    ensures Measure(u, LockMeasure(t)) == 0 && Measure(u, IdMeasure(id)) == 0
  {
    NothingLocked(t);
    ZeroTotal(map o | o in u :: LockMeasure(t)(u[o]));
    ZeroTotal(map o | o in u :: IdMeasure(id)(u[o]));
  }

  lemma BlankBalanced(u: map<OutPoint, TxoBody>, v: map<OutPoint, TxoBody>, l: B.Ledger)
    requires Balanced(u, l, []) && NoInscriptions(u) && NoInscriptions(v)
    ensures Balanced(v, l, [])
  {
    hide Measure, LockMeasure, IdMeasure, B.Balance, B.Sound;
    forall t ensures Get(l.supply, t) == B.Balance(l, t) + Measure(v, LockMeasure(t)) {
      NoInscriptionsMeasure(u, t, InscriptionId(0, 0));
      NoInscriptionsMeasure(v, t, InscriptionId(0, 0));
    }
    forall id ensures Measure(v, IdMeasure(id)) + Carries([], id) <= 1 {
      NoInscriptionsMeasure(v, "", id);
    }
    forall o | o in v ensures BodyOk(v[o]) {
    }
  }

  lemma BlankUnseen(u: map<OutPoint, TxoBody>, txid: Txid)
    requires NoInscriptions(u)
    ensures Unseen(u, [], txid)
  {
    hide Measure, IdMeasure;
    forall id: InscriptionId | id.txid == txid ensures Measure(u, IdMeasure(id)) + Carries([], id) == 0 {
      NoInscriptionsMeasure(u, "", id);
    }
  }

  // ----- unspent outputs while the block runs

  // `u` are the unspent outputs before transaction k, without those of the
  // coinbase; `bodies` is everything the block spends or makes.
  predicate Fits(u: map<OutPoint, TxoBody>, w: Work, bodies: map<OutPoint, TxoBody>, txs: seq<Tx>, k: nat) {
    && 0 < k <= |txs| && DistinctIdsFrom(txs, 0) && Distinct(SpendsFrom(txs, k))
    && FreshFrom(u, txs, k) && FreshFrom(w.bodies, txs, k)
    && FreshTxid(u, txs[0].id) && FreshTxid(w.bodies, txs[0].id)
    && Submap(w.bodies, bodies) && Agree(u, bodies) && HoldsDue(u, w.bodies, SpendsFrom(txs, k))
  }

  lemma FitsNext(c: Config, u: map<OutPoint, TxoBody>, w: Work, bodies: map<OutPoint, TxoBody>, txs: seq<Tx>, k: nat, height: nat)
    requires Fits(u, w, bodies, txs, k) && k < |txs| && B.Sound(w.ledger) && Turn(c, w, txs[k], k, height).Worked?
    requires Submap(Turn(c, w, txs[k], k, height).work.bodies, bodies)
    ensures Fits(CommitTx(u, bodies, txs[k]), Turn(c, w, txs[k], k, height).work, bodies, txs, k + 1)
  {
    hide Turn;
    var w1 := Turn(c, w, txs[k], k, height).work;
    TurnGrows(c, w, txs[k], k, height);
    FreshNext(w, w1, txs, k);
    DistinctParts(Spends(txs, k), SpendsFrom(txs, k + 1));
    DueNext(u, w, w1, bodies, txs, k);
  }

  // The inputs are unspent, with the bodies the turn resolves them to.
  lemma TurnSpends(c: Config, u: map<OutPoint, TxoBody>, w: Work, bodies: map<OutPoint, TxoBody>, txs: seq<Tx>, k: nat, height: nat)
    requires Fits(u, w, bodies, txs, k) && k < |txs| && B.Sound(w.ledger) && Turn(c, w, txs[k], k, height).Worked?
    ensures Spendable(u, txs[k].inputs) && forall i :: 0 <= i < |txs[k].inputs| ==> txs[k].inputs[i] in w.bodies
    ensures Resolve(u, txs[k].inputs) == Resolve(w.bodies, txs[k].inputs)
    ensures forall o :: o in txs[k].inputs ==> o.txid != txs[k].id && o.txid != txs[0].id
  {
    hide Turn;
    var inputs := txs[k].inputs;
    TurnGrows(c, w, txs[k], k, height);
    DistinctParts(inputs, SpendsFrom(txs, k + 1));
    forall i | 0 <= i < |inputs| ensures inputs[i] in u && u[inputs[i]] == w.bodies[inputs[i]] {
      assert inputs[i] in SpendsFrom(txs, k);
    }
  }

  // Inserting the outputs and deleting the inputs, in either order.
  lemma CommitIsNext(u: map<OutPoint, TxoBody>, bodies: map<OutPoint, TxoBody>, tx: Tx, made: seq<TxoBody>)
    requires FreshTxid(u, tx.id) && |made| == |tx.outputs| && forall o :: o in tx.inputs ==> o.txid != tx.id
    requires forall o :: B.IsOutput(tx, o) ==> o in bodies && bodies[o] == made[o.vout]
    ensures CommitTx(u, bodies, tx) == Next(u, tx, tx.inputs, made)
  {
    SpendContents(u, tx.inputs);
    CreateContents(Spend(u, tx.inputs), tx.id, made);
  }

  // What the turn makes is what the block makes.
  lemma MadeByTurn(w: Work, bodies: map<OutPoint, TxoBody>, tx: Tx, made: seq<TxoBody>)
    requires |made| == |tx.outputs| && Submap(Create(w.bodies, tx.id, made), bodies)
    ensures forall o :: B.IsOutput(tx, o) ==> o in bodies && bodies[o] == made[o.vout]
  {
    CreateContents(w.bodies, tx.id, made);
  }

  // The outputs of the coinbase can as well be inserted last.
  lemma {:induction false} CoinbaseLast(u: map<OutPoint, TxoBody>, made: map<OutPoint, TxoBody>, bodies: map<OutPoint, TxoBody>, txs: seq<Tx>, k: nat)
    requires 0 < k && forall o :: o in made ==> o !in SpendsFrom(txs, k) && forall j :: k <= j < |txs| ==> o.txid != txs[j].id
    ensures CommitFrom(u + made, bodies, txs, k) == CommitFrom(u, bodies, txs, k) + made
    decreases |txs| - k
  {
    if k < |txs| {
      assert CommitTx(u + made, bodies, txs[k]) == CommitTx(u, bodies, txs[k]) + made;
      CoinbaseLast(CommitTx(u, bodies, txs[k]), made, bodies, txs, k + 1);
    }
  }

  // ----- one transaction of the block

  // Whatever its inputs are: its effects, and the unspent outputs after it.
  lemma NextHoldsNoRunes(c: Config, u: map<OutPoint, TxoBody>, tx: Tx, spent: seq<OutPoint>, height: nat, e: Effects, t: R.Tables, bodies: seq<TxoBody>, k: nat)
    requires NoRunes(u) && R.WellFormed(tx) && height < c.firstRune && e.runes == RunesAt(c, t, tx, bodies, k, height)
    ensures NoRunes(Next(u, tx, spent, Bodies(tx, height, e)))
  {
    SpendContents(u, spent);
    CreateContents(Spend(u, spent), tx.id, Bodies(tx, height, e));
  }

  lemma NextHoldsNoInscriptions(c: Config, u: map<OutPoint, TxoBody>, w: Work, tx: Tx, spent: seq<OutPoint>, inputs: seq<Input>, runes: R.Indexed, height: nat)
    requires NoInscriptions(u) && height < c.firstInscription && B.Sound(w.ledger) && |runes.outputs| == |tx.outputs|
    ensures NoInscriptions(Next(u, tx, spent, Bodies(tx, height, EffectsAt(c, w, tx, runes, inputs, height))))
  {
    var e := EffectsAt(c, w, tx, runes, inputs, height);
    SpendContents(u, spent);
    CreateContents(Spend(u, spent), tx.id, Bodies(tx, height, e));
    forall v | 0 <= v < |tx.outputs| ensures B.Landed(tx, e.move.settled.outgoing, v) == [] && B.NewTransfers(tx, e.move.settled.outgoing, v, e.books.locked) == map[] {
    }
  }

  lemma Uncharged(a: Accounts, tx: Tx, r: R.Indexed, id: RuneId)
    requires r.etched.None? && r.burned == map[]
    ensures Get(Charge(a, tx, r).burned, id) == Get(a.burned, id) && Get(Charge(a, tx, r).premined, id) == Get(a.premined, id)
  {
  }

  // The account of a rune, when `pending` waits for the end of the block.
  lemma EntryStep(c: Config, t: R.Tables, a: Accounts, u: map<OutPoint, TxoBody>, pending: nat, tx: Tx, spent: seq<OutPoint>, k: nat, height: nat, e: Effects, id: RuneId)
    requires R.WellFormed(tx) && Spendable(u, spent) && FreshTxid(u, tx.id)
    requires e.runes == RunesAt(c, t, tx, Resolve(u, spent), k, height) && (height < c.firstRune ==> NoRunes(u))
    requires Accounted(c, t, id, Measure(u, RuneMeasure(id)) + pending, a, height, k)
    ensures Accounted(c, e.runes.tables, id, Measure(Next(u, tx, spent, Bodies(tx, height, e)), RuneMeasure(id)) + pending,
                  Charge(a, tx, e.runes), height, k + 1)
  {
    hide Measure, RuneMeasure, Bodies, NoRunes, R.IndexRunes, RuneEntry, PreminedAfter, BurnedAfter, Next;
    var held, after := Measure(u, RuneMeasure(id)), Measure(Next(u, tx, spent, Bodies(tx, height, e)), RuneMeasure(id));
    if height >= c.firstRune {
      RunesMeasured(u, tx, spent, height, e, id);
      AccountsStep(t, tx, Resolve(u, spent), k, height, id, a.premined, a.burned);
      RuneEntryStep(t, tx, Resolve(u, spent), k, height, id, held + pending, after + pending, Get(a.burned, id), Get(a.premined, id));
    } else {
      NextHoldsNoRunes(c, u, tx, spent, height, e, t, Resolve(u, spent), k);
      NoRunesMeasure(u, id);
      NoRunesMeasure(Next(u, tx, spent, Bodies(tx, height, e)), id);
      Uncharged(a, tx, e.runes, id);
    }
  }

  // Ledger and inscriptions; a coinbase spends nothing.
  ghost predicate Ledgers(c: Config, u: map<OutPoint, TxoBody>, w: Work, height: nat) {
    Balanced(u, w.ledger, w.carried) && (height < c.firstInscription ==> NoInscriptions(u) && w.carried == [])
  }

  lemma LedgersStep(c: Config, u: map<OutPoint, TxoBody>, w: Work, tx: Tx, spent: seq<OutPoint>, inputs: seq<Input>, runes: R.Indexed, height: nat, w': Work)
    requires Ledgers(c, u, w, height) && B.Sound(w.ledger) && FundedAt(c, w, tx, inputs, height) && |runes.outputs| == |tx.outputs|
    requires Brings(u, spent, inputs) && FreshTxid(u, tx.id) && tx.id != ZERO_TXID && Unseen(u, w.carried, tx.id)
    requires var e := EffectsAt(c, w, tx, runes, inputs, height); w'.ledger == e.books.ledger && w'.carried == e.move.carried
    ensures Ledgers(c, Next(u, tx, spent, Bodies(tx, height, EffectsAt(c, w, tx, runes, inputs, height))), w', height)
  {
    hide Balanced, Bodies, Next, Brings, Unseen, NoInscriptions, MoveInscriptions, Funded, B.IndexLedger, B.Sound;
    var e := EffectsAt(c, w, tx, runes, inputs, height);
    if height >= c.firstInscription {
      BalancedStep(u, w.ledger, tx, spent, inputs, w.registry, w.reward, w.carried, height, e);
    } else {
      NextHoldsNoInscriptions(c, u, w, tx, spent, inputs, runes, height);
      BlankBalanced(u, Next(u, tx, spent, Bodies(tx, height, e)), w.ledger);
    }
  }

  lemma UnseenAt(c: Config, u: map<OutPoint, TxoBody>, w: Work, tx: Tx, spent: seq<OutPoint>, inputs: seq<Input>, runes: R.Indexed, height: nat, txid: Txid)
    requires Ledgers(c, u, w, height) && B.Sound(w.ledger) && FundedAt(c, w, tx, inputs, height) && |runes.outputs| == |tx.outputs|
    requires Brings(u, spent, inputs) && FreshTxid(u, tx.id) && Unseen(u, w.carried, txid) && txid != tx.id
    ensures var e := EffectsAt(c, w, tx, runes, inputs, height);
      Unseen(Next(u, tx, spent, Bodies(tx, height, e)), e.move.carried, txid)
  {
    hide Balanced, Bodies, Next, Brings, Unseen, NoInscriptions, MoveInscriptions, Funded, B.IndexLedger, B.Sound;
    var e := EffectsAt(c, w, tx, runes, inputs, height);
    if height >= c.firstInscription {
      UnseenStep(u, w.ledger, tx, spent, inputs, w.registry, w.reward, w.carried, height, e, txid);
    } else {
      NextHoldsNoInscriptions(c, u, w, tx, spent, inputs, runes, height);
      BlankUnseen(Next(u, tx, spent, Bodies(tx, height, e)), txid);
    }
  }

  // ----- all transactions of the block

  // The books before transaction k; `pending` are the runes of the coinbase
  // outputs, which are inserted at the end of the block.
  ghost predicate Running(c: Config, u: map<OutPoint, TxoBody>, w: Work, a: Accounts, pending: seq<map<RuneId, nat>>, txs: seq<Tx>, k: nat, height: nat) {
    && (forall id :: Accounted(c, w.runes, id, Measure(u, RuneMeasure(id)) + R.Held(pending, id), a, height, k))
    && (height < c.firstRune ==> NoRunes(u))
    && Ledgers(c, u, w, height)
    && (forall j :: 0 <= j < |txs| && (j == 0 || k <= j) ==> Unseen(u, w.carried, txs[j].id))
  }

  predicate NoZeroId(txs: seq<Tx>) {
    forall j :: 0 <= j < |txs| ==> txs[j].id != ZERO_TXID
  }

  function EffectsOf(c: Config, w: Work, tx: Tx, k: nat, height: nat): (e: Effects)
    requires B.Sound(w.ledger) && Turn(c, w, tx, k, height).Worked?
    ensures e.runes == RunesOf(c, w, tx, k, height)
  {
    EffectsAt(c, w, tx, RunesOf(c, w, tx, k, height), SpentInputs(Resolve(w.bodies, tx.inputs)), height)
  }

  lemma TurnIs(c: Config, w: Work, tx: Tx, k: nat, height: nat)
    requires B.Sound(w.ledger) && Turn(c, w, tx, k, height).Worked?
    ensures var w1, e := Turn(c, w, tx, k, height).work, EffectsOf(c, w, tx, k, height);
      && R.WellFormed(tx) && (forall i :: 0 <= i < |tx.inputs| ==> tx.inputs[i] in w.bodies)
      && FundedAt(c, w, tx, SpentInputs(Resolve(w.bodies, tx.inputs)), height)
      && w1.bodies == Create(w.bodies, tx.id, Bodies(tx, height, e)) && w1.runes == e.runes.tables
      && w1.ledger == e.books.ledger && w1.carried == e.move.carried && B.Sound(w1.ledger)
  {
    hide RunesAt, MoveAt, BooksAt, FundedAt, Bodies, Create, SpentInputs, R.WellFormed;
  }

  lemma TurnCommits(c: Config, u: map<OutPoint, TxoBody>, w: Work, bodies: map<OutPoint, TxoBody>, txs: seq<Tx>, k: nat, height: nat)
    requires Fits(u, w, bodies, txs, k) && k < |txs| && B.Sound(w.ledger) && Turn(c, w, txs[k], k, height).Worked?
    requires Submap(Turn(c, w, txs[k], k, height).work.bodies, bodies)
    ensures CommitTx(u, bodies, txs[k]) == Next(u, txs[k], txs[k].inputs, Bodies(txs[k], height, EffectsOf(c, w, txs[k], k, height)))
  {
    hide Turn, EffectsOf, Bodies, CommitTx, Next;
    var made := Bodies(txs[k], height, EffectsOf(c, w, txs[k], k, height));
    TurnIs(c, w, txs[k], k, height);
    TurnSpends(c, u, w, bodies, txs, k, height);
    MadeByTurn(w, bodies, txs[k], made);
    CommitIsNext(u, bodies, txs[k], made);
  }

  lemma TurnKeepsRunes(c: Config, u: map<OutPoint, TxoBody>, w: Work, a: Accounts, pending: seq<map<RuneId, nat>>,
                       bodies: map<OutPoint, TxoBody>, txs: seq<Tx>, k: nat, height: nat)
    requires Fits(u, w, bodies, txs, k) && k < |txs| && B.Sound(w.ledger) && Turn(c, w, txs[k], k, height).Worked?
    requires Running(c, u, w, a, pending, txs, k, height)
    ensures var u1 := Next(u, txs[k], txs[k].inputs, Bodies(txs[k], height, EffectsOf(c, w, txs[k], k, height)));
      var w1, a1 := Turn(c, w, txs[k], k, height).work, Charge(a, txs[k], RunesOf(c, w, txs[k], k, height));
      && (forall id :: Accounted(c, w1.runes, id, Measure(u1, RuneMeasure(id)) + R.Held(pending, id), a1, height, k + 1))
      && (height < c.firstRune ==> NoRunes(u1))
  {
    hide Turn, Bodies, Next, Accounted, Measure, RuneMeasure, NoRunes, RunesAt, EffectsAt, Ledgers, Unseen, Charge, R.Held, R.WellFormed, FundedAt;
    var tx, e, next := txs[k], EffectsOf(c, w, txs[k], k, height), k + 1;
    var u1, a1 := Next(u, tx, tx.inputs, Bodies(tx, height, e)), Charge(a, tx, e.runes);
    TurnIs(c, w, tx, k, height);
    TurnSpends(c, u, w, bodies, txs, k, height);
    forall id ensures Accounted(c, e.runes.tables, id, Measure(u1, RuneMeasure(id)) + R.Held(pending, id), a1, height, next) {
      assert Accounted(c, w.runes, id, Measure(u, RuneMeasure(id)) + R.Held(pending, id), a, height, k);
      EntryStep(c, w.runes, a, u, R.Held(pending, id), tx, tx.inputs, k, height, e, id);
    }
    if height < c.firstRune {
      NextHoldsNoRunes(c, u, tx, tx.inputs, height, e, w.runes, Resolve(u, tx.inputs), k);
    }
  }

  lemma TurnKeepsLedgers(c: Config, u: map<OutPoint, TxoBody>, w: Work, a: Accounts, pending: seq<map<RuneId, nat>>,
                         bodies: map<OutPoint, TxoBody>, txs: seq<Tx>, k: nat, height: nat)
    requires Fits(u, w, bodies, txs, k) && k < |txs| && B.Sound(w.ledger) && Turn(c, w, txs[k], k, height).Worked?
    requires Running(c, u, w, a, pending, txs, k, height) && NoZeroId(txs)
    ensures var u1 := Next(u, txs[k], txs[k].inputs, Bodies(txs[k], height, EffectsOf(c, w, txs[k], k, height)));
      var w1 := Turn(c, w, txs[k], k, height).work;
      && Ledgers(c, u1, w1, height)
      && (forall j :: 0 <= j < |txs| && (j == 0 || k + 1 <= j) ==> Unseen(u1, w1.carried, txs[j].id))
  {
    hide Turn, Bodies, Next, Accounted, Ledgers, Unseen, RunesAt, EffectsAt, FundedAt, R.WellFormed;
    var tx, e := txs[k], EffectsOf(c, w, txs[k], k, height);
    TurnIs(c, w, tx, k, height);
    var inputs, w1 := SpentInputs(Resolve(w.bodies, tx.inputs)), Turn(c, w, tx, k, height).work;
    TurnSpends(c, u, w, bodies, txs, k, height);
    LedgersStep(c, u, w, tx, tx.inputs, inputs, e.runes, height, w1);
    var u1 := Next(u, tx, tx.inputs, Bodies(tx, height, e));
    forall j | 0 <= j < |txs| && (j == 0 || k + 1 <= j) ensures Unseen(u1, w1.carried, txs[j].id) {
      UnseenAt(c, u, w, tx, tx.inputs, inputs, e.runes, height, txs[j].id);
    }
  }

  lemma {:induction false} TurnsKeepBooks(c: Config, u: map<OutPoint, TxoBody>, w: Work, a: Accounts, pending: seq<map<RuneId, nat>>,
                                          bodies: map<OutPoint, TxoBody>, txs: seq<Tx>, k: nat, height: nat)
    requires Fits(u, w, bodies, txs, k) && B.Sound(w.ledger) && Turns(c, w, txs, k, height).Worked?
    requires Running(c, u, w, a, pending, txs, k, height) && NoZeroId(txs)
    requires Submap(Turns(c, w, txs, k, height).work.bodies, bodies)
    ensures var w', u' := Turns(c, w, txs, k, height).work, CommitFrom(u, bodies, txs, k);
      Fits(u', w', bodies, txs, |txs|) && Running(c, u', w', TurnsCharge(c, w, a, txs, k, height), pending, txs, |txs|, height)
    ensures forall o :: o in SpendsFrom(txs, k) ==> o.txid != txs[0].id
    decreases |txs| - k
  {
    hide Turn, Fits, Accounted, Measure, NoRunes, Ledgers, Unseen, Next, Bodies, CommitTx, Charge, RunesOf, EffectsOf, B.Sound;
    if k < |txs| {
      var w1 := Turn(c, w, txs[k], k, height).work;
      RestGrows(c, u, w, bodies, txs, k, height);
      FitsNext(c, u, w, bodies, txs, k, height);
      TurnCommits(c, u, w, bodies, txs, k, height);
      TurnKeepsRunes(c, u, w, a, pending, bodies, txs, k, height);
      TurnKeepsLedgers(c, u, w, a, pending, bodies, txs, k, height);
      TurnSpends(c, u, w, bodies, txs, k, height);
      TurnsKeepBooks(c, CommitTx(u, bodies, txs[k]), w1, Charge(a, txs[k], RunesOf(c, w, txs[k], k, height)), pending, bodies, txs, k + 1, height);
    } else {
      FitsIndex(u, w, bodies, txs, k);
    }
  }

  lemma FitsIndex(u: map<OutPoint, TxoBody>, w: Work, bodies: map<OutPoint, TxoBody>, txs: seq<Tx>, k: nat)
    requires Fits(u, w, bodies, txs, k)
    ensures 0 < k <= |txs|
  {
  }

  lemma RestGrows(c: Config, u: map<OutPoint, TxoBody>, w: Work, bodies: map<OutPoint, TxoBody>, txs: seq<Tx>, k: nat, height: nat)
    requires Fits(u, w, bodies, txs, k) && k < |txs| && B.Sound(w.ledger) && Turns(c, w, txs, k, height).Worked?
    requires Submap(Turns(c, w, txs, k, height).work.bodies, bodies)
    ensures Submap(Turn(c, w, txs[k], k, height).work.bodies, bodies)
  {
    hide Turn;
    var w1 := Turn(c, w, txs[k], k, height).work;
    TurnGrows(c, w, txs[k], k, height);
    FreshNext(w, w1, txs, k);
    TurnsGrow(c, w1, txs, k + 1, height);
  }

  // ----- the whole block

  // No inscription revealed by the block is held yet.
  predicate NewIds(x: Index, txs: seq<Tx>) {
    forall j :: 0 <= j < |txs| ==> FreshIds(x.utxos, txs[j].id)
  }

  // Before any turn, with the runes of the coinbase indexed.
  function Begun(c: Config, x: Index, txs: seq<Tx>, height: nat): Work
    requires txs != [] && R.WellFormed(txs[0])
  {
    AfterRunes(Start(x, txs, height), RunesAt(c, x.runes, txs[0], [], 0, height), 0)
  }

  lemma BlockRuns(c: Config, x: Index, txs: seq<Tx>, height: nat)
    requires B.Sound(x.ledger) && ProcessBlock(c, x, txs, height).Worked?
    ensures txs != [] && txs[0].inputs == [NULL_OUTPOINT] && R.WellFormed(txs[0])
    ensures var o, w, runes := Turns(c, Begun(c, x, txs, height), txs, 1, height), ProcessBlock(c, x, txs, height).work,
                               RunesAt(c, x.runes, txs[0], [], 0, height);
      && o.Worked? && FundedAt(c, o.work, txs[0], CoinbaseInputs(height), height)
      && w == AfterMove(o.work, txs[0], height, EffectsAt(c, o.work, txs[0], runes, CoinbaseInputs(height), height))
  {
    hide Turns, RunesAt, FundedAt, EffectsAt, AfterMove, R.WellFormed;
  }

  lemma BlockFits(c: Config, x: Index, txs: seq<Tx>, height: nat, bodies: map<OutPoint, TxoBody>)
    requires NewBlock(c, x, txs, height) && txs != [] && R.WellFormed(txs[0]) && Submap(Fetch(x.utxos, txs), bodies)
    requires forall o :: o in bodies && o !in Fetch(x.utxos, txs) ==> exists j :: 0 <= j < |txs| && o.txid == txs[j].id
    ensures Fits(x.utxos, Begun(c, x, txs, height), bodies, txs, 1)
  {
    hide RunesAt;
    assert forall j :: 0 <= j < |txs| ==> NewTx(x, txs[j].id);
    DistinctParts(Spends(txs, 0), SpendsFrom(txs, 1));
    FetchFresh(c, x, txs, height);
    forall o | o in x.utxos && o in bodies ensures x.utxos[o] == bodies[o] {
      assert forall j :: 0 <= j < |txs| ==> FreshTxid(x.utxos, txs[j].id);
    }
  }

  // The coinbase's runes come from nowhere but its own mint and premine.
  lemma BlockBegins(c: Config, x: Index, a: Accounts, txs: seq<Tx>, height: nat)
    requires Books(c, x, a, height) && NewIds(x, txs) && txs != [] && R.WellFormed(txs[0])
    ensures var runes := RunesAt(c, x.runes, txs[0], [], 0, height);
      Running(c, x.utxos, Begun(c, x, txs, height), Charge(a, txs[0], runes), runes.outputs, txs, 1, height)
  {
    hide Measure, RuneMeasure, Balanced, Unseen, Accounted, NoRunes, NoInscriptions, RunesAt, Charge, R.Held, FreshIds;
    var runes := RunesAt(c, x.runes, txs[0], [], 0, height);
    var a1, u := Charge(a, txs[0], runes), x.utxos;
    forall id ensures Accounted(c, runes.tables, id, Measure(u, RuneMeasure(id)) + R.Held(runes.outputs, id), a1, height, 1) {
      assert Accounted(c, x.runes, id, Measure(u, RuneMeasure(id)), a, height, 0);
      CoinbaseEntry(c, x.runes, a, Measure(u, RuneMeasure(id)), txs[0], height, id);
    }
    forall j | 0 <= j < |txs| ensures Unseen(u, [], txs[j].id) {
      FreshIsUnseen(u, txs[j].id);
    }
  }

  lemma CoinbaseEntry(c: Config, t: R.Tables, a: Accounts, held: nat, tx: Tx, height: nat, id: RuneId)
    requires R.WellFormed(tx) && Accounted(c, t, id, held, a, height, 0)
    ensures var runes := RunesAt(c, t, tx, [], 0, height);
      Accounted(c, runes.tables, id, held + R.Held(runes.outputs, id), Charge(a, tx, runes), height, 1)
  {
    hide R.IndexRunes, RuneEntry, PreminedAfter, BurnedAfter;
    var runes := RunesAt(c, t, tx, [], 0, height);
    if height >= c.firstRune {
      AccountsStep(t, tx, [], 0, height, id, a.premined, a.burned);
      RuneEntryStep(t, tx, [], 0, height, id, held, held + R.Held(runes.outputs, id), Get(a.burned, id), Get(a.premined, id));
    } else {
      R.NothingHeld(|tx.outputs|, id);
      Uncharged(a, tx, runes, id);
    }
  }

  // At the end the coinbase outputs take their runes and the carried inscriptions.
  lemma BlockEnds(c: Config, u: map<OutPoint, TxoBody>, w: Work, a: Accounts, t: R.Tables, bodies: map<OutPoint, TxoBody>, txs: seq<Tx>, height: nat)
    requires txs != [] && R.WellFormed(txs[0]) && FreshTxid(u, txs[0].id) && NoZeroId(txs) && B.Sound(w.ledger)
    requires FundedAt(c, w, txs[0], CoinbaseInputs(height), height)
    requires Running(c, u, w, a, RunesAt(c, t, txs[0], [], 0, height).outputs, txs, |txs|, height)
    ensures var runes := RunesAt(c, t, txs[0], [], 0, height);
      var e := EffectsAt(c, w, txs[0], runes, CoinbaseInputs(height), height);
      var x' := Index(Next(u, txs[0], [], Bodies(txs[0], height, e)), w.runes, e.books.ledger, Registry(e.move.settled.counters, e.move.settled.cursed));
      Books(c, x', a, height + 1)
  {
    hide RunesAt, EffectsAt, FundedAt, Measure, RuneMeasure, Bodies, Unseen, Balanced, B.Sound, R.Held, R.HeldIn, R.WellFormed, Next;
    var tx, runes, inputs := txs[0], RunesAt(c, t, txs[0], [], 0, height), CoinbaseInputs(height);
    var e := EffectsAt(c, w, tx, runes, inputs, height);
    var u' := Next(u, tx, [], Bodies(tx, height, e));
    forall id ensures Accounted(c, w.runes, id, Measure(u', RuneMeasure(id)), a, height + 1, 0) {
      assert Accounted(c, w.runes, id, Measure(u, RuneMeasure(id)) + R.Held(runes.outputs, id), a, height, |txs|);
      CoinbaseMeasured(u, tx, height, e, id);
    }
    assert Brings(u, [], inputs) by {
      assert CoinbaseInputs(height)[0].Subsidy?;
    }
    LedgersStep(c, u, w, tx, [], inputs, runes, height, w.(ledger := e.books.ledger, carried := e.move.carried));
    DropCarried(u', e.books.ledger, e.move.carried);
    if height < c.firstRune {
      NextHoldsNoRunes(c, u, tx, [], height, e, t, [], 0);
    }
  }

  lemma CoinbaseMeasured(u: map<OutPoint, TxoBody>, tx: Tx, height: nat, e: Effects, id: RuneId)
    requires |e.runes.outputs| == |tx.outputs| && FreshTxid(u, tx.id)
    ensures Measure(Next(u, tx, [], Bodies(tx, height, e)), RuneMeasure(id)) == Measure(u, RuneMeasure(id)) + R.Held(e.runes.outputs, id)
  {
    RunesMeasured(u, tx, [], height, e, id);
    assert Resolve(u, []) == [];
  }

  // The committed outputs are those of the turns, then those of the coinbase.
  lemma BlockCommits(c: Config, x: Index, txs: seq<Tx>, bodies: map<OutPoint, TxoBody>, made: seq<TxoBody>, height: nat)
    requires NewBlock(c, x, txs, height) && txs != [] && txs[0].inputs == [NULL_OUTPOINT] && |made| == |txs[0].outputs|
    requires forall o :: B.IsOutput(txs[0], o) ==> o in bodies && bodies[o] == made[o.vout]
    requires forall o :: o in SpendsFrom(txs, 1) ==> o.txid != txs[0].id
    ensures CommitFrom(x.utxos, bodies, txs, 0) == Next(CommitFrom(x.utxos, bodies, txs, 1), txs[0], [], made)
  {
    hide SpendsFrom, CommitFrom, CommitTx, Create, Next, Made;
    var outs, u := Made(bodies, txs[0]), CommitFrom(x.utxos, bodies, txs, 1);
    CoinbaseInserted(c, x, txs, bodies, height);
    MadeKeys(bodies, txs[0]);
    CoinbaseLast(x.utxos, outs, bodies, txs, 1);
    CommitFromFirst(x.utxos, bodies, txs);
    CreateMade(u, bodies, txs[0], made);
  }

  // The outputs of a transaction.
  function Made(bodies: map<OutPoint, TxoBody>, tx: Tx): map<OutPoint, TxoBody> {
    map o | o in bodies && B.IsOutput(tx, o) :: bodies[o]
  }

  lemma MadeKeys(bodies: map<OutPoint, TxoBody>, tx: Tx)
    ensures forall o :: o in Made(bodies, tx) ==> o.txid == tx.id
  {
  }

  lemma CoinbaseInserted(c: Config, x: Index, txs: seq<Tx>, bodies: map<OutPoint, TxoBody>, height: nat)
    requires NewBlock(c, x, txs, height) && txs != [] && txs[0].inputs == [NULL_OUTPOINT]
    ensures CommitTx(x.utxos, bodies, txs[0]) == x.utxos + Made(bodies, txs[0])
  {
    assert NewTx(x, txs[0].id);
  }

  lemma CreateMade(u: map<OutPoint, TxoBody>, bodies: map<OutPoint, TxoBody>, tx: Tx, made: seq<TxoBody>)
    requires |made| == |tx.outputs| && forall o :: B.IsOutput(tx, o) ==> o in bodies && bodies[o] == made[o.vout]
    ensures Next(u, tx, [], made) == u + Made(bodies, tx)
  {
    CreateContents(u, tx.id, made);
    assert Next(u, tx, [], made) == Create(u, tx.id, made);
  }

  lemma CommitFromFirst(u: map<OutPoint, TxoBody>, bodies: map<OutPoint, TxoBody>, txs: seq<Tx>)
    requires txs != []
    ensures CommitFrom(u, bodies, txs, 0) == CommitFrom(CommitTx(u, bodies, txs[0]), bodies, txs, 1)
  {
  }

  /** A processed block keeps the books. */
  lemma BlockKeepsBooks(c: Config, x: Index, a: Accounts, txs: seq<Tx>, height: nat)
    requires NewBlock(c, x, txs, height) && NewIds(x, txs) && ProcessBlock(c, x, txs, height).Worked?
    requires Books(c, x, a, height)
    ensures Books(c, Commit(x, txs, ProcessBlock(c, x, txs, height).work), BlockCharge(c, x, a, txs, height), height + 1)
  {
    hide Turns, RunesAt, FundedAt, EffectsAt, ProcessBlock, Books, Running, Fits, CommitFrom, Bodies, NewBlock, Next, Create, TurnsCharge, Charge, B.Sound;
    BlockSound(c, x, txs, height);
    BlockRuns(c, x, txs, height);
    var w, w1, runes := ProcessBlock(c, x, txs, height).work, Begun(c, x, txs, height), RunesAt(c, x.runes, txs[0], [], 0, height);
    var w2 := Turns(c, w1, txs, 1, height).work;
    var made := Bodies(txs[0], height, EffectsAt(c, w2, txs[0], runes, CoinbaseInputs(height), height));
    BlockGrows(c, x, txs, height);
    BlockFits(c, x, txs, height, w.bodies);
    BlockBegins(c, x, a, txs, height);
    BlockIds(c, x, txs, height);
    TurnsKeepBooks(c, x.utxos, w1, Charge(a, txs[0], runes), runes.outputs, w.bodies, txs, 1, height);
    var u := CommitFrom(x.utxos, w.bodies, txs, 1);
    FitsFresh(u, w2, w.bodies, txs, |txs|);
    MadeByTurn(w2, w.bodies, txs[0], made);
    BlockCommits(c, x, txs, w.bodies, made, height);
    BlockEnds(c, u, w2, TurnsCharge(c, w1, Charge(a, txs[0], runes), txs, 1, height), x.runes, w.bodies, txs, height);
  }

  lemma FitsFresh(u: map<OutPoint, TxoBody>, w: Work, bodies: map<OutPoint, TxoBody>, txs: seq<Tx>, k: nat)
    requires Fits(u, w, bodies, txs, k)
    ensures FreshTxid(u, txs[0].id)
  {
  }

  lemma BlockIds(c: Config, x: Index, txs: seq<Tx>, height: nat)
    requires NewBlock(c, x, txs, height)
    ensures NoZeroId(txs)
  {
    assert forall j :: 0 <= j < |txs| ==> NewTx(x, txs[j].id);
  }

  lemma BlockGrows(c: Config, x: Index, txs: seq<Tx>, height: nat)
    requires NewBlock(c, x, txs, height) && ProcessBlock(c, x, txs, height).Worked? && txs != [] && R.WellFormed(txs[0])
    requires Turns(c, Begun(c, x, txs, height), txs, 1, height).Worked?
    ensures var w, w2 := ProcessBlock(c, x, txs, height).work, Turns(c, Begun(c, x, txs, height), txs, 1, height).work;
      && Submap(Fetch(x.utxos, txs), w.bodies) && Submap(w2.bodies, w.bodies)
      && (forall o :: o in w.bodies && o !in Fetch(x.utxos, txs) ==> exists j :: 0 <= j < |txs| && o.txid == txs[j].id)
  {
    hide RunesAt, Turn, Turns, FundedAt, MoveAt, BooksAt;
    var w1 := Begun(c, x, txs, height);
    var w2 := Turns(c, w1, txs, 1, height).work;
    FetchFresh(c, x, txs, height);
    TurnsGrow(c, w1, txs, 1, height);
    CoinbaseGrows(c, w1, w2, txs, RunesAt(c, x.runes, txs[0], [], 0, height), height);
  }
}
