/** The books over whole runs: every chain of confirmed blocks, every run of the
    sync stage with its rollbacks, and the mempool worker on top of it. */
module Audit {
  import opened Chain
  import opened Sums
  import opened Undo
  import opened Storage
  import opened Supply
  import opened Confirmed
  import C = ChainDb
  import I = Inscriptions
  import R = Runes
  import B = Brc20
  import Reorg
  import Roll
  import Sync
  import Wal

  // ----- chains of confirmed blocks

  function ChargeAll(cfg: Config, db: Db, a: Accounts, items: Blocks): Accounts
    requires B.Sound(db.index.ledger) && ApplyAll(cfg, db, items, false).Ok?
  {
    if items == [] then a else
      var front, last := items[..|items| - 1], items[|items| - 1];
      BlockCharge(cfg.index, ApplyAll(cfg, db, front, false).db.index, ChargeAll(cfg, db, a, front), last.1.txs, last.0)
  }

  // Consensus: the inscriptions of every block are new when its turn comes.
  ghost predicate NewIdsAll(cfg: Config, db: Db, items: Blocks)
    requires B.Sound(db.index.ledger)
  {
    items != [] ==>
      var front, last := items[..|items| - 1], items[|items| - 1];
      && NewIdsAll(cfg, db, front)
      && (ApplyAll(cfg, db, front, false).Ok? ==> NewIds(ApplyAll(cfg, db, front, false).db.index, last.1.txs))
  }

  // The height after the last block.
  function Ends(height: nat, items: Blocks): nat {
    if items == [] then height else items[|items| - 1].0 + 1
  }

  lemma BlockBooks(cfg: Config, db: Db, a: Accounts, height: nat, block: Block, from: nat)
    requires NewItem(cfg, db, height, block) && NewIds(db.index, block.txs) && B.Sound(db.index.ledger)
    requires ApplyBlock(cfg, db, height, block, false).Ok? && Books(cfg.index, db.index, a, from) && from <= height
    ensures C.ProcessBlock(cfg.index, db.index, block.txs, height).Worked?
    ensures Books(cfg.index, ApplyBlock(cfg, db, height, block, false).db.index,
                  BlockCharge(cfg.index, db.index, a, block.txs, height), height + 1)
  {
    hide C.ProcessBlock, C.NewBlock, C.Commit, ApplyBlock, Books, BlockCharge, B.Sound;
    var _ := Applied(cfg, db, height, block, false);
    BooksLater(cfg.index, db.index, a, from, height);
    BlockKeepsBooks(cfg.index, db.index, a, block.txs, height);
  }

  /** Any number of confirmed blocks keeps the books. */
  lemma {:induction false} ChainKeepsBooks(cfg: Config, db: Db, a: Accounts, items: Blocks, from: nat)
    requires B.Sound(db.index.ledger) && NewItems(cfg, db, items, false) && NewIdsAll(cfg, db, items)
    requires ApplyAll(cfg, db, items, false).Ok?
    requires Books(cfg.index, db.index, a, from) && (items != [] ==> from <= items[0].0)
    ensures Books(cfg.index, ApplyAll(cfg, db, items, false).db.index, ChargeAll(cfg, db, a, items), Ends(from, items))
  {
    hide ApplyBlock, C.NewBlock, Books, BlockCharge, NewIds, B.Sound;
    if items != [] {
      var front, last := items[..|items| - 1], items[|items| - 1];
      var d := ApplyAll(cfg, db, front, false).db;
      ChainKeepsBooks(cfg, db, a, front, from);
      ApplyAllBlocks(cfg, db, front, false);
      assert Ends(from, front) <= last.0;
      BlockBooks(cfg, d, ChargeAll(cfg, db, a, front), last.0, last.1, Ends(from, front));
    }
  }

  // ----- tables that differ only in absent amounts

  lemma TotalSame<K(!new)>(a: map<K, nat>, b: map<K, nat>)
    requires forall k :: Get(a, k) == Get(b, k)
    ensures Total(a) == Total(b)
  {
    var positive := map k | k in a && a[k] > 0 :: a[k];
    assert forall k :: k in positive ==> Get(a, k) == Get(b, k);
    assert forall k :: k in b && k !in positive ==> Get(a, k) == Get(b, k);
    TotalOfPart(positive, a);
    TotalOfPart(positive, b);
  }

  lemma BalanceSame(a: B.Ledger, b: B.Ledger, t: Ticker)
    requires SameAmounts(a.balances, b.balances)
    ensures B.Balance(a, t) == B.Balance(b, t)
  {
    var x, y := B.Share(a.balances, t), B.Share(b.balances, t);
    forall k ensures Get(x, k) == Get(y, k) {
      assert Get(a.balances, k) == Get(b.balances, k);
    }
    TotalSame(x, y);
  }

  lemma BooksSame(c: C.Config, x: C.Index, y: C.Index, a: Accounts, height: nat)
    requires Books(c, x, a, height) && C.Near(y, x, {}) && B.Sound(y.ledger)
    ensures Books(c, y, a, height)
  {
    hide Measure, B.Balance, B.Sound;
    NothingLeft(y.runes, x.runes);
    forall t ensures Get(y.ledger.supply, t) == B.Balance(y.ledger, t) + Measure(y.utxos, LockMeasure(t)) {
      BalanceSame(y.ledger, x.ledger, t);
      assert Get(y.ledger.supply, t) == Get(x.ledger.supply, t);
    }
    forall id ensures Accounted(c, y.runes, id, Measure(y.utxos, RuneMeasure(id)), a, height, 0) {
      assert Accounted(c, x.runes, id, Measure(x.utxos, RuneMeasure(id)), a, height, 0);
      assert Get(y.runes.mints, id) == Get(x.runes.mints, id);
    }
  }

  // ----- every run of the sync stage

  function NextHeight(blocks: map<nat, Block>): nat {
    if blocks == map[] then 0 else Top(blocks.Keys) + 1
  }

  /** In every state of a run the books balance, whatever was rolled back. */
  lemma StateBooks(cfg: Config, start: Db, st: Sync.Stage, items: Blocks, j: Wal.Journal, a: Accounts)
    requires Sync.Inv(cfg, start, st, items, j) && NewIdsAll(cfg, start, items)
    requires Books(cfg.index, start.index, a, NextHeight(start.blocks))
    ensures Books(cfg.index, st.db.index, ChargeAll(cfg, start, a, items), Ends(NextHeight(start.blocks), items))
  {
    hide ApplyBlock, Books, C.Near, Wal.InStep, Wal.TipIsTop, NewItem, NewIds, B.Sound, AllNamed;
    Sync.BranchAscends(cfg, start, items);
    ChainKeepsBooks(cfg, start, a, items, NextHeight(start.blocks));
    BooksSame(cfg.index, ApplyAll(cfg, start, items, false).db.index, st.db.index, ChargeAll(cfg, start, a, items), Ends(NextHeight(start.blocks), items));
  }

  /** Any number of blocks and rollbacks, in any order, failing or not, keeps
      the books. */
  lemma RunKeepsBooks(cfg: Config, start: Db, st: Sync.Stage, items: Blocks, j: Wal.Journal, events: seq<Sync.Event>, a: Accounts)
    requires Sync.Inv(cfg, start, st, items, j) && Sync.ValidEvents(cfg, start, st, items, j, events)
    requires Books(cfg.index, start.index, a, NextHeight(start.blocks)) && NewIdsAll(cfg, start, Sync.Run(cfg, start, st, items, j, events).items)
    ensures var r := Sync.Run(cfg, start, st, items, j, events);
      Books(cfg.index, r.stage.db.index, ChargeAll(cfg, start, a, r.items), Ends(NextHeight(start.blocks), r.items))
  {
    hide Sync.Run, Sync.Inv, Sync.ValidEvents, Books, NewIdsAll;
    var r := Sync.Run(cfg, start, st, items, j, events);
    StateBooks(cfg, start, r.stage, r.items, r.journal, a);
  }

  // ----- the mempool worker

  // What the worker starts from: the tables of the confirmed chain.
  function View(x: C.Index, a: Accounts): Roll.State {
    Roll.State(x.utxos, x.runes, x.ledger, x.registry, a.premined, a.burned)
  }

  /** The books of the confirmed chain are what the worker's runs need. */
  lemma WorkerStarts(c: C.Config, x: C.Index, a: Accounts, height: nat, next: nat)
    requires Books(c, x, a, height) && height <= next && c.firstRune <= next
    ensures Roll.LedgerBooks(View(x, a)) && Roll.RuneBooks(View(x, a), next, 0)
  {
    hide Measure, Balanced;
    forall id ensures Roll.RuneAccount(View(x, a), id, next, 0) {
      assert Accounted(c, x.runes, id, Measure(x.utxos, RuneMeasure(id)), a, height, 0);
    }
  }

  lemma RunApplies(cfg: Config, start: Db, st: Sync.Stage, items: Blocks, j: Wal.Journal)
    requires Sync.Inv(cfg, start, st, items, j)
    ensures B.Sound(start.index.ledger) && ApplyAll(cfg, start, items, false).Ok?
  {
  }

  lemma WorkerRuns(s: Roll.State, blocks: seq<seq<Tx>>, next: nat)
    requires Roll.LedgerBooks(s) && Roll.RuneBooks(s, next, 0)
    ensures Roll.ValidBlocks(s, blocks, next) && Roll.RunBlocks(s, blocks, next).Ran? ==>
      var r := Roll.RunBlocks(s, blocks, next).state;
      Roll.LedgerBooks(r) && Roll.RuneBooks(r, next + |blocks|, 0)
  {
    hide Roll.LedgerBooks, Roll.RuneBooks, Roll.RunBlocks, Roll.ValidBlocks;
    if Roll.ValidBlocks(s, blocks, next) {
      Roll.RunKeepsRunes(s, blocks, next, next + |blocks|);
    }
  }

  /** Estimated blocks on top of any state of any run keep every rune, every
      BRC-20 amount and every inscription accounted for. */
  lemma MempoolKeepsBooks(cfg: Config, start: Db, st: Sync.Stage, items: Blocks, j: Wal.Journal, a: Accounts,
                          blocks: seq<seq<Tx>>, next: nat)
    requires Sync.Inv(cfg, start, st, items, j) && NewIdsAll(cfg, start, items)
    requires Books(cfg.index, start.index, a, NextHeight(start.blocks)) && Ends(NextHeight(start.blocks), items) <= next && cfg.index.firstRune <= next
    ensures var s := View(st.db.index, ChargeAll(cfg, start, a, items));
      && Roll.LedgerBooks(s)
      && (Roll.ValidBlocks(s, blocks, next) && Roll.RunBlocks(s, blocks, next).Ran? ==>
            var r := Roll.RunBlocks(s, blocks, next).state;
            Roll.LedgerBooks(r) && Roll.RuneBooks(r, next + |blocks|, 0))
  {
    hide Sync.Inv, Books, NewIdsAll, Roll.LedgerBooks, Roll.RuneBooks, Roll.RunBlocks, Roll.ValidBlocks, ChargeAll, Ends, View;
    RunApplies(cfg, start, st, items, j);
    StateBooks(cfg, start, st, items, j, a);
    var charged := ChargeAll(cfg, start, a, items);
    WorkerStarts(cfg.index, st.db.index, charged, Ends(NextHeight(start.blocks), items), next);
    WorkerRuns(View(st.db.index, charged), blocks, next);
  }

  // ----- from the beginning

  // A new database: no blocks, and only the hard-coded rune 1:0.
  const EMPTY := Db(
    C.Index(map[],
            R.Tables(map[2055900680524219742 := RuneId(1, 0)],
                     map[RuneId(1, 0) := R.RuneTerms(2055900680524219742, Some(1), Some(U128_MAX), Some(840_000), Some(1_050_000))],
                     map[]),
            B.Ledger(map[], map[], map[]),
            I.Registry(I.Counters(0, 0, 0, 0, 0), {})),
    map[], map[], map[], 1, None)

  const NOTHING := Accounts(map[], map[])

  /** The books of a new database balance. */
  lemma EmptyBooks(c: C.Config)
    requires c.firstRune > 1
    ensures Books(c, EMPTY.index, NOTHING, 0)
  {
    forall f: TxoBody -> nat ensures Measure(map[], f) == 0 {
      ZeroTotal<OutPoint>(map[]);
    }
    forall t ensures B.Balance(EMPTY.index.ledger, t) == 0 {
      ZeroTotal(B.Share(EMPTY.index.ledger.balances, t));
    }
    forall id ensures Accounted(c, EMPTY.index.runes, id, Measure(map[], RuneMeasure(id)), NOTHING, 0, 0) {
    }
  }

  /** So the whole confirmed chain keeps the books, from the first block on ... */
  lemma ChainFromEmpty(cfg: Config, items: Blocks)
    requires cfg.index.firstRune > 1 && B.Sound(EMPTY.index.ledger)
    requires NewItems(cfg, EMPTY, items, false) && NewIdsAll(cfg, EMPTY, items) && ApplyAll(cfg, EMPTY, items, false).Ok?
    ensures Books(cfg.index, ApplyAll(cfg, EMPTY, items, false).db.index, ChargeAll(cfg, EMPTY, NOTHING, items), Ends(0, items))
  {
    hide ApplyAll, NewItems, NewIdsAll, Books, ChargeAll, B.Sound;
    EmptyBooks(cfg.index);
    ChainKeepsBooks(cfg, EMPTY, NOTHING, items, 0);
  }

  /** ... and a new database can begin a run that keeps them. */
  lemma RunFromEmpty(cfg: Config, j: Wal.Journal)
    requires cfg.index.firstRune > 1
    ensures Sync.Inv(cfg, EMPTY, Sync.Stage(EMPTY, false), [], j)
    ensures Books(cfg.index, EMPTY.index, NOTHING, NextHeight(EMPTY.blocks))
  {
    hide Books;
    EmptyBooks(cfg.index);
  }
}
