/** Blocks applied to and rolled back from the chain database, and the
    write-ahead log that downstream readers follow. */
module Storage {
  import opened Chain
  import opened Undo
  import C = ChainDb
  import I = Inscriptions
  import R = Runes
  import B = Brc20

  type Hash = nat

  datatype Block = Block(hash: Hash, prev: Hash, txs: seq<Tx>)

  // What is kept for undoing a block, under the block's hash.
  datatype Stored = Stored(hash: Hash, kept: C.Kept)

  datatype Entry =
    | Apply(height: nat, block: Block, kept: C.Kept)
    | Undo(height: nat, block: Block)
    | Mark(height: nat, block: Block)

  // `next` is the sequence number of the next log entry.
  datatype Db = Db(
    index: C.Index,
    blocks: map<nat, Block>,
    kept: map<nat, Stored>,
    wal: map<nat, Entry>,
    next: nat,
    tip: Option<Hash>)

  // `confs` is the number of confirmations after which a block is immutable.
  datatype Config = Config(index: C.Config, confs: Option<nat>)

  datatype Error =
    | PreviousHashMismatch(received: Hash, expected: Hash)
    | MissingTxo(outpoint: OutPoint)
    | InvalidBlock
    | InvalidRollbackPoint
    | MissingResolver(hash: Hash)
    | ResolverHashMismatch(height: nat, hash: Hash, found: Hash)
    | UndoFailed(hash: Hash)

  datatype Result = Ok(db: Db) | Err(error: Error)

  // ----- the newest block

  lemma {:induction false} HasTop(keys: set<nat>)
    requires keys != {}
    ensures exists k :: k in keys && forall j :: j in keys ==> j <= k
  {
    var k :| k in keys;
    var rest := keys - {k};
    if rest == {} {
      assert keys == {k};
    } else {
      HasTop(rest);
      var t :| t in rest && forall j :: j in rest ==> j <= t;
      var top := Max(k, t);
      forall j | j in keys ensures j <= top {
        assert j == k || j in rest;
      }
    }
  }

  function Top(keys: set<nat>): (k: nat)
    requires keys != {}
    ensures k in keys && forall j :: j in keys ==> j <= k
  {
    HasTop(keys);
    var k :| k in keys && forall j :: j in keys ==> j <= k;
    k
  }

  // The chain: heights and hashes, oldest first.
  function Branch(blocks: map<nat, Block>): (chain: seq<(nat, Hash)>)
    ensures |chain| == |blocks|
    decreases |blocks|
  {
    if blocks == map[] then [] else
      var top := Top(blocks.Keys);
      Branch(blocks - {top}) + [(top, blocks[top].hash)]
  }

  lemma BranchPush(blocks: map<nat, Block>, height: nat, block: Block)
    requires forall h :: h in blocks ==> h < height
    ensures Branch(blocks[height := block]) == Branch(blocks) + [(height, block.hash)]
  {
    assert blocks[height := block] - {height} == blocks;
    assert Top(blocks[height := block].Keys) == height;
  }

  // ----- applying a block

  // Entries are pruned from the oldest on, up to the first one of height `limit`.
  function Prune(wal: map<nat, Entry>, limit: nat): map<nat, Entry> {
    map s | s in wal && (exists j :: j in wal && j <= s && wal[j].height >= limit) :: wal[s]
  }

  function Logged(cfg: Config, wal: map<nat, Entry>, next: nat, height: nat, entry: Entry): map<nat, Entry> {
    var wal1 := wal[next := entry];
    if cfg.confs.Some? && height >= cfg.confs.value then Prune(wal1, height - cfg.confs.value) else wal1
  }

  function ApplyBlock(cfg: Config, db: Db, height: nat, block: Block, mutable: bool): (r: Result)
    requires B.Sound(db.index.ledger)
    ensures r.Ok? ==> B.Sound(r.db.index.ledger) && height in r.db.blocks
  {
    if db.tip.Some? && block.prev != db.tip.value then Err(PreviousHashMismatch(block.prev, db.tip.value)) else
      match C.ProcessBlock(cfg.index, db.index, block.txs, height)
      case MissingTxo(o) => Err(MissingTxo(o))
      case Invalid => Err(InvalidBlock)
      case Worked(w) =>
        var kept := C.Keep(db.index, block.txs, w);
        Ok(Db(C.Commit(db.index, block.txs, w), db.blocks[height := block], db.kept[height := Stored(block.hash, kept)],
              if mutable then Logged(cfg, db.wal, db.next, height, Apply(height, block, kept)) else db.wal,
              db.next + 1, Some(block.hash)))
  }

  // ----- rolling back

  function Push(db: Db, entry: Entry, mutable: bool): Db {
    if mutable then db.(wal := db.wal[db.next := entry], next := db.next + 1) else db
  }

  function UndoTop(db: Db, height: nat, mutable: bool): (r: Result)
    requires height in db.blocks
    ensures r.Ok? ==> r.db.blocks == db.blocks - {height}
  {
    var block := db.blocks[height];
    if height !in db.kept then Err(MissingResolver(block.hash)) else
      var stored := db.kept[height];
      if stored.hash != block.hash then Err(ResolverHashMismatch(height, block.hash, stored.hash)) else
        var index := C.UndoBlock(db.index, block.txs, height, stored.kept);
        if index.None? then Err(UndoFailed(block.hash)) else
          Ok(Push(db, Undo(height, block), mutable)
             .(index := index.value, blocks := db.blocks - {height}, kept := db.kept - {height}))
  }

  // Undo the blocks above `height`, the newest first.
  function UndoAbove(db: Db, height: nat, mutable: bool): (r: Result)
    decreases |db.blocks|
  {
    if db.blocks == map[] || Top(db.blocks.Keys) <= height then Ok(db) else
      var r := UndoTop(db, Top(db.blocks.Keys), mutable);
      if r.Err? then r else
        assert |r.db.blocks.Keys| == |db.blocks.Keys - {Top(db.blocks.Keys)}|;
        UndoAbove(r.db, height, mutable)
  }

  function Rollback(db: Db, height: nat, hash: Hash, mutable: bool): Result {
    if height !in db.blocks || db.blocks[height].hash != hash then Err(InvalidRollbackPoint) else
      var r := UndoAbove(db, height, mutable);
      if r.Err? then r else Ok(Push(r.db, Mark(height, db.blocks[height]), mutable).(tip := Some(hash)))
  }

  // ----- applying blocks and rolling them back

  type Blocks = seq<(nat, Block)>

  function ApplyAll(cfg: Config, db: Db, items: Blocks, mutable: bool): (r: Result)
    requires B.Sound(db.index.ledger)
    ensures r.Ok? ==> B.Sound(r.db.index.ledger)
  {
    if items == [] then Ok(db) else
      var r := ApplyAll(cfg, db, items[..|items| - 1], mutable);
      var last := items[|items| - 1];
      if r.Err? then r else ApplyBlock(cfg, r.db, last.0, last.1, mutable)
  }

  // Consensus and the node: every block is new, and above all others, when its turn comes.
  ghost predicate NewItem(cfg: Config, db: Db, height: nat, block: Block) {
    C.NewBlock(cfg.index, db.index, block.txs, height) && forall h :: h in db.blocks || h in db.kept ==> h < height
  }

  ghost predicate NewItems(cfg: Config, db: Db, items: Blocks, mutable: bool)
    requires B.Sound(db.index.ledger)
  {
    items != [] ==>
      var front, last := items[..|items| - 1], items[|items| - 1];
      && NewItems(cfg, db, front, mutable)
      && var r := ApplyAll(cfg, db, front, mutable);
         (r.Ok? ==> NewItem(cfg, r.db, last.0, last.1))
  }

  // Runes etched without a name by any of the blocks.
  function LeftoverAll(cfg: Config, items: Blocks): set<RuneId> {
    if items == [] then {} else
      LeftoverAll(cfg, items[..|items| - 1]) + C.Leftover(cfg.index, items[|items| - 1].1.txs, 0, items[|items| - 1].0)
  }

  ghost predicate NearDb(y: Db, x: Db, extra: set<RuneId>) {
    C.Near(y.index, x.index, extra) && y.blocks == x.blocks && y.kept == x.kept
  }

  lemma Applied(cfg: Config, db: Db, height: nat, block: Block, mutable: bool) returns (w: C.Work)
    requires B.Sound(db.index.ledger) && ApplyBlock(cfg, db, height, block, mutable).Ok?
    ensures C.ProcessBlock(cfg.index, db.index, block.txs, height) == C.Worked(w)
    ensures var d := ApplyBlock(cfg, db, height, block, mutable).db;
      && d.index == C.Commit(db.index, block.txs, w)
      && d.blocks == db.blocks[height := block]
      && d.kept == db.kept[height := Stored(block.hash, C.Keep(db.index, block.txs, w))]
      && d.tip == Some(block.hash)
  {
    hide C.ProcessBlock, C.Commit, C.Keep, B.Sound, Logged;
    w := C.ProcessBlock(cfg.index, db.index, block.txs, height).work;
  }

  /** One block up and down again. */
  lemma ApplyUndone(cfg: Config, db: Db, height: nat, block: Block, mutable: bool, y: Db, extra: set<RuneId>, logged: bool)
    requires NewItem(cfg, db, height, block) && B.Sound(db.index.ledger)
    requires ApplyBlock(cfg, db, height, block, mutable).Ok?
    requires NearDb(y, ApplyBlock(cfg, db, height, block, mutable).db, extra)
    requires forall id :: id in extra ==> id.block > height
    ensures height in y.blocks && forall h :: h in y.blocks ==> h <= height
    ensures var r := UndoTop(y, height, logged);
      r.Ok? && NearDb(r.db, db, extra + C.Leftover(cfg.index, block.txs, 0, height))
  {
    hide C.NewBlock, C.ProcessBlock, C.UndoBlock, C.Keep, C.Commit, C.Near, B.Sound, ApplyBlock, Restores;
    var d := ApplyBlock(cfg, db, height, block, mutable).db;
    var w := Applied(cfg, db, height, block, mutable);
    C.BlockUndone(cfg.index, db.index, block.txs, height, y.index, extra);
    assert d.blocks - {height} == db.blocks && d.kept - {height} == db.kept;
  }

  predicate Above(items: Blocks, height: nat) {
    forall i :: 0 <= i < |items| ==> items[i].0 > height
  }

  lemma {:induction false} ApplyAllBlocks(cfg: Config, db: Db, items: Blocks, mutable: bool)
    requires B.Sound(db.index.ledger) && ApplyAll(cfg, db, items, mutable).Ok?
    ensures var d := ApplyAll(cfg, db, items, mutable).db;
      && (forall h :: h in db.blocks ==> h in d.blocks)
      && (forall i :: 0 <= i < |items| ==> items[i].0 in d.blocks)
  {
    hide C.ProcessBlock, C.Commit, C.Keep, B.Sound, Logged;
    if items != [] {
      ApplyAllBlocks(cfg, db, items[..|items| - 1], mutable);
    }
  }

  /** Undoing every block that was applied leads back to where it started,
      whatever the log mode. */
  lemma {:induction false} ApplyAllUndone(cfg: Config, db: Db, items: Blocks, mutable: bool, base: nat,
                                          y: Db, extra: set<RuneId>, logged: bool)
    requires B.Sound(db.index.ledger) && NewItems(cfg, db, items, mutable) && Above(items, base)
    requires forall h :: h in db.blocks ==> h <= base
    requires ApplyAll(cfg, db, items, mutable).Ok? && NearDb(y, ApplyAll(cfg, db, items, mutable).db, extra)
    requires forall id, i :: id in extra && 0 <= i < |items| ==> items[i].0 < id.block
    ensures var r := UndoAbove(y, base, logged);
      r.Ok? && NearDb(r.db, db, extra + LeftoverAll(cfg, items))
  {
    hide C.Near, C.NewBlock, ApplyBlock, UndoTop, B.Sound;
    if items == [] {
      assert extra + {} == extra;
    } else {
      var front, last := items[..|items| - 1], items[|items| - 1];
      var d := ApplyAll(cfg, db, front, mutable).db;
      ApplyUndone(cfg, d, last.0, last.1, mutable, y, extra, logged);
      ApplyAllBlocks(cfg, db, front, mutable);
      C.LeftoverLater(cfg.index, last.1.txs, 0, last.0);
      var y1, more := UndoTop(y, last.0, logged).db, extra + C.Leftover(cfg.index, last.1.txs, 0, last.0);
      assert forall i :: 0 <= i < |front| ==> front[i] == items[i];
      ApplyAllUndone(cfg, db, front, mutable, base, y1, more, logged);
      assert more + LeftoverAll(cfg, front) == extra + LeftoverAll(cfg, items);
    }
  }

  lemma {:induction false} ItemsAbove(cfg: Config, db: Db, items: Blocks, mutable: bool, base: nat)
    requires B.Sound(db.index.ledger) && NewItems(cfg, db, items, mutable) && ApplyAll(cfg, db, items, mutable).Ok?
    requires base in db.blocks || (items != [] && items[0].0 == base + 1)
    ensures Above(items, base)
  {
    hide C.NewBlock, ApplyBlock, B.Sound;
    if items != [] {
      var front, last := items[..|items| - 1], items[|items| - 1];
      if front != [] || base in db.blocks {
        ItemsAbove(cfg, db, front, mutable, base);
        ApplyAllBlocks(cfg, db, front, mutable);
      }
      if front != [] {
        assert front[0] == items[0];
      }
      assert forall i :: 0 <= i < |front| ==> front[i] == items[i];
    }
  }

  // No block from the first rune height on etches a rune without a name.
  predicate AllNamed(cfg: Config, items: Blocks) {
    forall i, k :: 0 <= i < |items| && 0 <= k < |items[i].1.txs| && items[i].0 >= cfg.index.firstRune ==> !Unnamed(items[i].1.txs[k])
  }

  lemma {:induction false} NoLeftover(c: C.Config, txs: seq<Tx>, k: nat, height: nat)
    ensures C.Leftover(c, txs, k, height) == {} <==> (height >= c.firstRune ==> forall j :: k <= j < |txs| ==> !Unnamed(txs[j]))
    decreases |txs| - k
  {
    if k < |txs| {
      NoLeftover(c, txs, k + 1, height);
      if height >= c.firstRune && Unnamed(txs[k]) {
        assert RuneId(height, k) in C.Leftover(c, txs, k, height);
      }
    }
  }

  lemma {:induction false} NoLeftoverAll(cfg: Config, items: Blocks)
    ensures LeftoverAll(cfg, items) == {} <==> AllNamed(cfg, items)
  {
    hide Unnamed;
    if items != [] {
      var front, last := items[..|items| - 1], items[|items| - 1];
      NoLeftoverAll(cfg, front);
      NoLeftover(cfg.index, last.1.txs, 0, last.0);
      assert forall i :: 0 <= i < |front| ==> front[i] == items[i];
      assert AllNamed(cfg, items) ==> AllNamed(cfg, front);
    }
  }

  lemma {:induction false} ApplyAllKeepsTerms(cfg: Config, db: Db, items: Blocks, mutable: bool)
    requires B.Sound(db.index.ledger) && ApplyAll(cfg, db, items, mutable).Ok?
    ensures db.index.runes.terms.Keys <= ApplyAll(cfg, db, items, mutable).db.index.runes.terms.Keys
  {
    hide C.ProcessBlock, ApplyBlock, B.Sound;
    if items != [] {
      var front, last := items[..|items| - 1], items[|items| - 1];
      var d := ApplyAll(cfg, db, front, mutable).db;
      ApplyAllKeepsTerms(cfg, db, front, mutable);
      var _ := Applied(cfg, d, last.0, last.1, mutable);
      C.BlockKeepsTerms(cfg.index, d.index, last.1.txs, last.0);
    }
  }

  lemma {:induction false} LeftoverIsNew(cfg: Config, db: Db, items: Blocks, mutable: bool)
    requires B.Sound(db.index.ledger) && NewItems(cfg, db, items, mutable) && ApplyAll(cfg, db, items, mutable).Ok?
    ensures forall id :: id in LeftoverAll(cfg, items) ==> id !in db.index.runes.terms
  {
    hide ApplyBlock, B.Sound;
    if items != [] {
      var front, last := items[..|items| - 1], items[|items| - 1];
      LeftoverIsNew(cfg, db, front, mutable);
      ApplyAllKeepsTerms(cfg, db, front, mutable);
      C.LeftoverLater(cfg.index, last.1.txs, 0, last.0);
    }
  }

  /** Rolling back to the block that was newest before any number of blocks
      were applied restores unspent outputs, inscriptions, BRC-20 ledger,
      blocks and undo data; it restores the rune tables if and only if none of
      the blocks etched a rune without a name. */
  lemma RollbackRestores(cfg: Config, db: Db, items: Blocks, mutable: bool, base: nat, logged: bool)
    requires B.Sound(db.index.ledger) && NewItems(cfg, db, items, mutable) && ApplyAll(cfg, db, items, mutable).Ok?
    requires base in db.blocks && forall h :: h in db.blocks ==> h <= base
    ensures var r := Rollback(ApplyAll(cfg, db, items, mutable).db, base, db.blocks[base].hash, logged);
      && r.Ok? && NearDb(r.db, db, LeftoverAll(cfg, items)) && r.db.tip == Some(db.blocks[base].hash)
      && (AllNamed(cfg, items) ==> NearDb(r.db, db, {}))
      && (r.db.index.runes.terms == db.index.runes.terms <==> AllNamed(cfg, items))
  {
    hide UndoAbove, SameLedger, SameAmounts, AllNamed, B.Sound;
    var d, none: set<RuneId> := ApplyAll(cfg, db, items, mutable).db, {};
    ItemsAbove(cfg, db, items, mutable, base);
    SelfNear(d);
    BaseKept(cfg, db, items, mutable, base);
    ApplyAllUndone(cfg, db, items, mutable, base, d, none, logged);
    assert none + LeftoverAll(cfg, items) == LeftoverAll(cfg, items);
    NoLeftoverAll(cfg, items);
    LeftoverIsNew(cfg, db, items, mutable);
  }

  lemma SelfNear(d: Db)
    ensures NearDb(d, d, {})
  {
  }

  lemma {:induction false} BaseKept(cfg: Config, db: Db, items: Blocks, mutable: bool, base: nat)
    requires B.Sound(db.index.ledger) && NewItems(cfg, db, items, mutable) && ApplyAll(cfg, db, items, mutable).Ok?
    requires base in db.blocks
    ensures var d := ApplyAll(cfg, db, items, mutable).db; base in d.blocks && d.blocks[base] == db.blocks[base]
  {
    hide C.NewBlock, ApplyBlock, B.Sound;
    if items != [] {
      var front, last := items[..|items| - 1], items[|items| - 1];
      BaseKept(cfg, db, front, mutable, base);
      var _ := Applied(cfg, ApplyAll(cfg, db, front, mutable).db, last.0, last.1, mutable);
    }
  }

  // A coinbase that etches a rune and leaves the choice of its name open.
  const ETCHER := Tx(7, [NULL_OUTPOINT], [TxOut(0, 1, false)], Some(Runestone([], Some(Etching(None, None, None)), None, None)), false, [])
  const RUNES_ONLY := Config(C.Config(0, 100), None)
  const FIVE := Db(
    C.Index(map[], R.Tables(map[], map[], map[]), B.Ledger(map[], map[], map[]), I.Registry(I.Counters(0, 0, 0, 0, 0), {})),
    map[5 := Block(1, 0, [])], map[], map[], 0, Some(1))

  lemma EtcherWorks(c: C.Config, x: C.Index, height: nat)
    requires B.Sound(x.ledger) && height < c.firstInscription
    ensures C.ProcessBlock(c, x, [ETCHER], height).Worked?
  {
    hide C.RunesAt, C.MoveAt, C.BooksAt, C.Start, C.CoinbaseInputs, C.AfterRunes, C.AfterMove;
  }

  lemma EtcherIsNew()
    ensures B.Sound(FIVE.index.ledger) && NewItem(RUNES_ONLY, FIVE, 6, Block(2, 1, [ETCHER]))
  {
    assert SpendsFrom([ETCHER], 1) == [];
  }

  /** The exception is real: this one block is rolled back without an error and
      its rune keeps its terms. */
  lemma UnnamedEtchingStays()
    ensures B.Sound(FIVE.index.ledger)
    ensures var r := ApplyBlock(RUNES_ONLY, FIVE, 6, Block(2, 1, [ETCHER]), true);
      r.Ok? && var z := Rollback(r.db, 5, 1, true); z.Ok? && z.db.index.runes.terms != FIVE.index.runes.terms
  {
    hide C.ProcessBlock, B.Sound, C.Commit, C.Keep, NewItem, Rollback, NearDb, LeftoverAll;
    var block, before := Block(2, 1, [ETCHER]), FIVE;
    EtcherIsNew();
    EtcherWorks(RUNES_ONLY.index, before.index, 6);
    var items := [(6, block)];
    assert items[..0] == [];
    RollbackRestores(RUNES_ONLY, before, items, true, 5, true);
    assert Unnamed(items[0].1.txs[0]);
  }
}
