/** The write-ahead log: following it entry by entry rebuilds the chain. */
module Wal {
  import opened Chain
  import opened Storage
  import B = Brc20
  import C = ChainDb

  type Links = seq<(nat, Hash)>

  // What a reader does to its own copy of the chain; None if the entry does not fit.
  function Follow(chain: Links, e: Entry): Option<Links> {
    match e
    case Apply(height, block, _) =>
      if chain == [] || block.prev == chain[|chain| - 1].1 then Some(chain + [(height, block.hash)]) else None
    case Undo(height, block) =>
      if chain != [] && chain[|chain| - 1] == (height, block.hash) then Some(chain[..|chain| - 1]) else None
    case Mark(height, block) =>
      if chain != [] && chain[|chain| - 1] == (height, block.hash) then Some(chain) else None
  }

  function FollowAll(chain: Links, entries: seq<Entry>): Option<Links> {
    if entries == [] then Some(chain) else
      var r := FollowAll(chain, entries[..|entries| - 1]);
      if r.None? then None else Follow(r.value, entries[|entries| - 1])
  }

  // Everything logged since entry `from`, when the chain was `chain`; the
  // database itself keeps only the newest part of it.
  datatype Journal = Journal(from: nat, chain: Links, entries: seq<Entry>)

  // The highest limit up to which the log has been pruned.
  function Limit(confs: Option<nat>, entries: seq<Entry>): nat {
    if entries == [] || confs.None? then 0 else
      var last := entries[|entries| - 1];
      Max(Limit(confs, entries[..|entries| - 1]),
          if last.Apply? && last.height >= confs.value then last.height - confs.value else 0)
  }

  // The log holds a final part of the journal, entry by entry.
  predicate HoldsEnd(wal: map<nat, Entry>, j: Journal) {
    var end := j.from + |j.entries|;
    && (forall s :: j.from <= s < end && s in wal ==> wal[s] == j.entries[s - j.from])
    && (forall s, t :: j.from <= s <= t < end && s in wal ==> t in wal)
  }

  /** Following the whole journal gives the current chain. The log holds a final
      part of it and nothing beyond, and what is missing lies below the pruning
      limit: without pruning nothing is missing. */
  ghost predicate InStep(cfg: Config, db: Db, j: Journal) {
    && db.next == j.from + |j.entries|
    && FollowAll(j.chain, j.entries) == Some(Branch(db.blocks))
    && (forall s :: s in db.wal ==> s < db.next)
    && HoldsEnd(db.wal, j)
    && (forall s :: j.from <= s < db.next && s !in db.wal ==> j.entries[s - j.from].height < Limit(cfg.confs, j.entries))
  }

  // The hash of the newest block is the one that the next block must name.
  predicate TipIsTop(db: Db) {
    db.tip == if db.blocks == map[] then None else Some(db.blocks[Top(db.blocks.Keys)].hash)
  }

  lemma {:induction false} FollowAllParts(chain: Links, a: seq<Entry>, b: seq<Entry>)
    ensures var r := FollowAll(chain, a);
      FollowAll(chain, a + b) == if r.None? then None else FollowAll(r.value, b)
  {
    if b == [] {
      assert a + b == a;
    } else {
      FollowAllParts(chain, a, b[..|b| - 1]);
      assert (a + b)[..|a + b| - 1] == a + b[..|b| - 1];
    }
  }

  // The entries from `s` on, as a reader finds them in the log.
  function Tail(wal: map<nat, Entry>, s: nat, end: nat): (entries: seq<Entry>)
    requires s <= end && forall t :: s <= t < end ==> t in wal
    ensures |entries| == end - s
  {
    seq(end - s, i requires 0 <= i < end - s => wal[s + i])
  }

  /** A reader that has followed the journal up to any entry that is still in
      the log gets the current chain by following the log from there. */
  lemma ReaderCatchesUp(cfg: Config, db: Db, j: Journal, s: nat)
    requires InStep(cfg, db, j) && j.from <= s < db.next && s in db.wal
    ensures var p := s - j.from;
      && FollowAll(j.chain, j.entries[..p]).Some?
      && (forall t :: s <= t < db.next ==> t in db.wal)
      && FollowAll(FollowAll(j.chain, j.entries[..p]).value, Tail(db.wal, s, db.next)) == Some(Branch(db.blocks))
  {
    var p := s - j.from;
    FollowAllParts(j.chain, j.entries[..p], j.entries[p..]);
    assert j.entries[..p] + j.entries[p..] == j.entries;
    assert Tail(db.wal, s, db.next) == j.entries[p..];
  }

  lemma PushInStep(cfg: Config, db: Db, j: Journal, entry: Entry, blocks: map<nat, Block>)
    requires InStep(cfg, db, j) && Follow(Branch(db.blocks), entry) == Some(Branch(blocks))
    ensures InStep(cfg, db.(wal := db.wal[db.next := entry], next := db.next + 1, blocks := blocks), j.(entries := j.entries + [entry]))
  {
    hide Follow, Branch;
    assert (j.entries + [entry])[..|j.entries|] == j.entries;
  }

  lemma {:induction false} FirstFrom(wal: map<nat, Entry>, limit: nat, s: nat) returns (first: nat)
    requires s in wal && wal[s].height >= limit
    ensures first <= s && first in wal && wal[first].height >= limit
    ensures forall t :: t in wal && wal[t].height >= limit ==> first <= t
    decreases s
  {
    if t :| t in wal && wal[t].height >= limit && t < s {
      first := FirstFrom(wal, limit, t);
    } else {
      first := s;
    }
  }

  /** Pruning leaves exactly the entries from the first one on whose height is
      not below the limit, and none if there is no such entry. */
  lemma PruneKeepsEnd(wal: map<nat, Entry>, limit: nat)
    ensures (forall s :: s in wal ==> wal[s].height < limit) ==> Prune(wal, limit) == map[]
    ensures !(forall s :: s in wal ==> wal[s].height < limit) ==>
      exists first :: first in wal && wal[first].height >= limit
        && (forall t :: t in wal && t < first ==> wal[t].height < limit)
        && Prune(wal, limit) == map t | t in wal && first <= t :: wal[t]
  {
    if s :| s in wal && wal[s].height >= limit {
      var first := FirstFrom(wal, limit, s);
      assert Prune(wal, limit) == map t | t in wal && first <= t :: wal[t];
    }
  }

  /** Pruning below a limit that the journal allows keeps the log in step. */
  lemma PruneInStep(cfg: Config, db: Db, j: Journal, limit: nat)
    requires InStep(cfg, db, j) && limit <= Limit(cfg.confs, j.entries)
    ensures InStep(cfg, db.(wal := Prune(db.wal, limit)), j)
  {
    var wal, kept := db.wal, Prune(db.wal, limit);
    forall s, t | j.from <= s <= t < db.next && s in kept ensures t in kept {
      var i :| i in wal && i <= s && wal[i].height >= limit;
      assert i <= t;
    }
    forall s | j.from <= s < db.next && s !in kept ensures j.entries[s - j.from].height < Limit(cfg.confs, j.entries) {
      if s in wal {
        assert wal[s].height < limit;
      }
    }
  }

  /** The log does not grow with the chain: after a block in mutable mode it ends
      with that block, and it begins with an entry not further below it than the
      confirmations asked for. */
  lemma LogIsShort(cfg: Config, db: Db, height: nat, block: Block, s: nat)
    requires B.Sound(db.index.ledger) && ApplyBlock(cfg, db, height, block, true).Ok?
    requires forall t :: t in db.wal ==> t < db.next
    ensures var wal := ApplyBlock(cfg, db, height, block, true).db.wal;
      && db.next in wal && wal[db.next].Apply? && wal[db.next].height == height && wal[db.next].block == block
      && (cfg.confs.Some? && height >= cfg.confs.value && s in wal ==>
            exists t :: t in wal && t <= s && wal[t].height + cfg.confs.value >= height)
  {
    hide C.ProcessBlock, C.Commit, C.Keep, B.Sound;
    var wal := ApplyBlock(cfg, db, height, block, true).db.wal;
    if cfg.confs.Some? && height >= cfg.confs.value {
      var limit := height - cfg.confs.value;
      if s in wal {
        var w1 := db.wal[db.next := AppliedEntry(cfg, db, height, block)];
        assert wal == Prune(w1, limit);
        var t :| t in w1 && t <= s && w1[t].height >= limit;
        assert t in wal;
      }
    }
  }

  // ----- each operation

  lemma BranchTop(blocks: map<nat, Block>)
    requires blocks != map[]
    ensures var top := Top(blocks.Keys);
      Branch(blocks) == Branch(blocks - {top}) + [(top, blocks[top].hash)]
  {
  }

  // The entry that applying a block writes.
  function AppliedEntry(cfg: Config, db: Db, height: nat, block: Block): Entry
    requires B.Sound(db.index.ledger) && ApplyBlock(cfg, db, height, block, true).Ok?
  {
    Apply(height, block, C.Keep(db.index, block.txs, C.ProcessBlock(cfg.index, db.index, block.txs, height).work))
  }

  /** Applying a block above all others writes one entry, prunes, and keeps the
      log in step. */
  lemma ApplyInStep(cfg: Config, db: Db, height: nat, block: Block, j: Journal)
    requires B.Sound(db.index.ledger) && ApplyBlock(cfg, db, height, block, true).Ok?
    requires InStep(cfg, db, j) && TipIsTop(db) && forall h :: h in db.blocks ==> h < height
    ensures InStep(cfg, ApplyBlock(cfg, db, height, block, true).db, j.(entries := j.entries + [AppliedEntry(cfg, db, height, block)]))
  {
    hide B.Sound, C.ProcessBlock, C.Commit, Prune, Branch, InStep;
    var d, entry := ApplyBlock(cfg, db, height, block, true).db, AppliedEntry(cfg, db, height, block);
    var pushed := db.(wal := db.wal[db.next := entry], next := db.next + 1, blocks := d.blocks);
    var j' := j.(entries := j.entries + [entry]);
    var _ := Applied(cfg, db, height, block, true);
    BranchPush(db.blocks, height, block);
    ApplyFits(db, height, block, entry);
    PushInStep(cfg, db, j, entry, d.blocks);
    if cfg.confs.Some? && height >= cfg.confs.value {
      assert Limit(cfg.confs, j'.entries) >= height - cfg.confs.value;
      PruneInStep(cfg, pushed, j', height - cfg.confs.value);
      SameLog(cfg, pushed.(wal := d.wal), d, j');
    } else {
      SameLog(cfg, pushed, d, j');
    }
  }

  lemma SameLog(cfg: Config, a: Db, b: Db, j: Journal)
    requires InStep(cfg, a, j) && a.wal == b.wal && a.next == b.next && a.blocks == b.blocks
    ensures InStep(cfg, b, j)
  {
  }

  lemma ApplyFits(db: Db, height: nat, block: Block, entry: Entry)
    requires TipIsTop(db) && (db.tip.Some? ==> block.prev == db.tip.value) && entry.Apply? && entry.height == height && entry.block == block
    ensures Follow(Branch(db.blocks), entry) == Some(Branch(db.blocks) + [(height, block.hash)])
  {
    if db.blocks != map[] {
      BranchTop(db.blocks);
    }
  }

  /** Applying keeps the tip. */
  lemma ApplyTip(cfg: Config, db: Db, height: nat, block: Block, mutable: bool)
    requires B.Sound(db.index.ledger) && ApplyBlock(cfg, db, height, block, mutable).Ok?
    requires forall h :: h in db.blocks ==> h < height
    ensures TipIsTop(ApplyBlock(cfg, db, height, block, mutable).db)
  {
    hide B.Sound, ApplyBlock;
    var _ := Applied(cfg, db, height, block, mutable);
  }

  lemma UndoInStep(cfg: Config, db: Db, j: Journal)
    requires InStep(cfg, db, j) && db.blocks != map[] && UndoTop(db, Top(db.blocks.Keys), true).Ok?
    ensures var top := Top(db.blocks.Keys);
      InStep(cfg, UndoTop(db, top, true).db, j.(entries := j.entries + [Undo(top, db.blocks[top])]))
  {
    hide InStep, Branch, C.UndoBlock;
    var top := Top(db.blocks.Keys);
    var d, entry := UndoTop(db, top, true).db, Undo(top, db.blocks[top]);
    BranchTop(db.blocks);
    assert Follow(Branch(db.blocks), entry) == Some(Branch(d.blocks));
    PushInStep(cfg, db, j, entry, d.blocks);
    SameLog(cfg, db.(wal := db.wal[db.next := entry], next := db.next + 1, blocks := d.blocks), d, j.(entries := j.entries + [entry]));
  }

  // The entries that undoing the blocks above `height` writes.
  function UndoEntries(blocks: map<nat, Block>, height: nat): seq<Entry>
    decreases |blocks|
  {
    if blocks == map[] || Top(blocks.Keys) <= height then [] else
      var top := Top(blocks.Keys);
      var rest := blocks - {top};
      assert |rest.Keys| == |blocks.Keys - {top}|;
      [Undo(top, blocks[top])] + UndoEntries(rest, height)
  }

  lemma {:induction false} UndoAboveInStep(cfg: Config, db: Db, height: nat, j: Journal)
    requires InStep(cfg, db, j) && UndoAbove(db, height, true).Ok?
    ensures InStep(cfg, UndoAbove(db, height, true).db, j.(entries := j.entries + UndoEntries(db.blocks, height)))
    decreases |db.blocks|
  {
    hide InStep, UndoTop;
    if db.blocks != map[] && Top(db.blocks.Keys) > height {
      var top := Top(db.blocks.Keys);
      var d, entry := UndoTop(db, top, true).db, Undo(top, db.blocks[top]);
      UndoInStep(cfg, db, j);
      assert |d.blocks.Keys| == |db.blocks.Keys - {top}|;
      UndoAboveInStep(cfg, d, height, j.(entries := j.entries + [entry]));
      assert j.entries + [entry] + UndoEntries(d.blocks, height) == j.entries + UndoEntries(db.blocks, height);
    } else {
      assert j.entries + [] == j.entries;
    }
  }

  lemma {:induction false} UndoAboveBlocks(db: Db, height: nat, mutable: bool)
    requires UndoAbove(db, height, mutable).Ok?
    ensures UndoAbove(db, height, mutable).db.blocks == map h | h in db.blocks && h <= height :: db.blocks[h]
    decreases |db.blocks|
  {
    hide UndoTop;
    if db.blocks != map[] && Top(db.blocks.Keys) > height {
      var d := UndoTop(db, Top(db.blocks.Keys), mutable).db;
      assert |d.blocks.Keys| == |db.blocks.Keys - {Top(db.blocks.Keys)}|;
      UndoAboveBlocks(d, height, mutable);
    }
  }

  function RollbackEntries(blocks: map<nat, Block>, height: nat): seq<Entry>
    requires height in blocks
  {
    UndoEntries(blocks, height) + [Mark(height, blocks[height])]
  }

  /** A rollback logs the undone blocks, newest first, and then the block it
      stops at; the log stays in step. */
  lemma RollbackInStep(cfg: Config, db: Db, height: nat, hash: Hash, j: Journal)
    requires InStep(cfg, db, j) && Rollback(db, height, hash, true).Ok?
    ensures height in db.blocks
    ensures InStep(cfg, Rollback(db, height, hash, true).db, j.(entries := j.entries + RollbackEntries(db.blocks, height)))
  {
    hide InStep, UndoAbove, Branch, UndoEntries;
    var d, entry := UndoAbove(db, height, true).db, Mark(height, db.blocks[height]);
    var j1 := j.(entries := j.entries + UndoEntries(db.blocks, height));
    UndoAboveInStep(cfg, db, height, j);
    UndoAboveBlocks(db, height, true);
    assert height in d.blocks && Top(d.blocks.Keys) == height;
    BranchTop(d.blocks);
    PushInStep(cfg, d, j1, entry, d.blocks);
    assert j1.entries + [entry] == j.entries + RollbackEntries(db.blocks, height);
    SameLog(cfg, d.(wal := d.wal[d.next := entry], next := d.next + 1, blocks := d.blocks), Rollback(db, height, hash, true).db,
            j1.(entries := j1.entries + [entry]));
  }

  lemma RollbackTip(db: Db, height: nat, hash: Hash, mutable: bool)
    requires Rollback(db, height, hash, mutable).Ok?
    ensures var d := Rollback(db, height, hash, mutable).db;
      TipIsTop(d) && d.blocks == map h | h in db.blocks && h <= height :: db.blocks[h]
  {
    hide UndoAbove;
    UndoAboveBlocks(db, height, mutable);
    var d := Rollback(db, height, hash, mutable).db;
    assert height in d.blocks && Top(d.blocks.Keys) == height;
  }
}
