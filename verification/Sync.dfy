/** The sync stage: the switch to mutable mode, and every run of blocks and
    rollbacks that the node sends. */
module Sync {
  import opened Chain
  import opened Storage
  import opened Wal
  import Reorg
  import Undo
  import B = Brc20
  import C = ChainDb

  // `tip` is the height of the node's own tip.
  datatype Event = Forward(height: nat, block: Block, tip: nat) | Back(height: nat, hash: Hash, tip: nat)

  datatype Stage = Stage(db: Db, mutable: bool)

  function Latch(cfg: Config, mutable: bool, ev: Event): bool {
    mutable ||
      match ev
      case Forward(height, _, tip) => cfg.confs.None? || height + cfg.confs.value > tip
      case Back(height, _, tip) => cfg.confs.Some? && height + cfg.confs.value > tip
  }

  function Outcome(cfg: Config, st: Stage, ev: Event): Result
    requires B.Sound(st.db.index.ledger)
  {
    match ev
    case Forward(height, block, _) => ApplyBlock(cfg, st.db, height, block, Latch(cfg, st.mutable, ev))
    case Back(height, hash, _) => Rollback(st.db, height, hash, Latch(cfg, st.mutable, ev))
  }

  // An event that fails leaves the database as it was.
  function Execute(cfg: Config, st: Stage, ev: Event): Stage
    requires B.Sound(st.db.index.ledger)
  {
    var r := Outcome(cfg, st, ev);
    Stage(if r.Ok? then r.db else st.db, Latch(cfg, st.mutable, ev))
  }

  // The blocks that are left after the event.
  function Survivors(items: Blocks, ev: Event): Blocks {
    match ev
    case Forward(height, block, _) => items + [(height, block)]
    case Back(height, _, _) => Upto(items, height)
  }

  function Upto(items: Blocks, height: nat): (front: Blocks)
    ensures front <= items
  {
    if items == [] || items[|items| - 1].0 <= height then items else Upto(items[..|items| - 1], height)
  }

  // ----- splitting a branch

  lemma {:induction false} ApplyAllSplit(cfg: Config, db: Db, items: Blocks, p: nat)
    requires B.Sound(db.index.ledger) && p <= |items| && ApplyAll(cfg, db, items, false).Ok?
    ensures ApplyAll(cfg, db, items[..p], false).Ok?
    ensures ApplyAll(cfg, ApplyAll(cfg, db, items[..p], false).db, items[p..], false) == ApplyAll(cfg, db, items, false)
  {
    hide B.Sound, ApplyBlock;
    if p == |items| {
      assert items[..p] == items;
    } else {
      var front, last := items[..|items| - 1], items[|items| - 1];
      ApplyAllSplit(cfg, db, front, p);
      assert front[..p] == items[..p] && items[p..][..|items| - p - 1] == front[p..];
    }
  }

  lemma {:induction false} NewItemsSplit(cfg: Config, db: Db, items: Blocks, p: nat)
    requires B.Sound(db.index.ledger) && p <= |items| && ApplyAll(cfg, db, items, false).Ok? && NewItems(cfg, db, items, false)
    ensures NewItems(cfg, db, items[..p], false)
    ensures ApplyAll(cfg, db, items[..p], false).Ok? && NewItems(cfg, ApplyAll(cfg, db, items[..p], false).db, items[p..], false)
  {
    hide B.Sound, ApplyBlock, NewItem;
    if p == |items| {
      assert items[..p] == items;
    } else {
      var front, last := items[..|items| - 1], items[|items| - 1];
      NewItemsSplit(cfg, db, front, p);
      ApplyAllSplit(cfg, db, front, p);
      assert front[..p] == items[..p] && items[p..][..|items| - p - 1] == front[p..];
    }
  }

  predicate Ascending(items: Blocks) {
    forall i, j :: 0 <= i < j < |items| ==> items[i].0 < items[j].0
  }

  function Heights(items: Blocks): set<nat> {
    if items == [] then {} else Heights(items[..|items| - 1]) + {items[|items| - 1].0}
  }

  lemma {:induction false} HeightsBound(items: Blocks, height: nat)
    requires forall i :: 0 <= i < |items| ==> items[i].0 <= height
    ensures forall h :: h in Heights(items) ==> h <= height
  {
    if items != [] {
      HeightsBound(items[..|items| - 1], height);
    }
  }

  // Blocks of a branch: those it started from, and its own ...
  lemma {:induction false} BranchBlocks(cfg: Config, db: Db, items: Blocks)
    requires B.Sound(db.index.ledger) && ApplyAll(cfg, db, items, false).Ok?
    ensures ApplyAll(cfg, db, items, false).db.blocks.Keys == db.blocks.Keys + Heights(items)
  {
    hide B.Sound, ApplyBlock;
    if items != [] {
      var front, last := items[..|items| - 1], items[|items| - 1];
      BranchBlocks(cfg, db, front);
      var _ := Applied(cfg, ApplyAll(cfg, db, front, false).db, last.0, last.1, false);
    }
  }

  // ... which are ever higher.
  lemma {:induction false} BranchAscends(cfg: Config, db: Db, items: Blocks)
    requires B.Sound(db.index.ledger) && ApplyAll(cfg, db, items, false).Ok? && NewItems(cfg, db, items, false)
    requires TipIsTop(db)
    ensures Ascending(items) && TipIsTop(ApplyAll(cfg, db, items, false).db)
    ensures forall h, i :: h in db.blocks && 0 <= i < |items| ==> h < items[i].0
  {
    hide B.Sound, ApplyBlock, C.NewBlock, TipIsTop;
    if items != [] {
      var front, last := items[..|items| - 1], items[|items| - 1];
      var d := ApplyAll(cfg, db, front, false).db;
      BranchAscends(cfg, db, front);
      ApplyAllBlocks(cfg, db, front, false);
      ApplyTip(cfg, d, last.0, last.1, false);
      assert forall i :: 0 <= i < |front| ==> front[i] == items[i];
    }
  }

  lemma {:induction false} UptoHeights(items: Blocks, height: nat)
    requires Ascending(items)
    ensures var p := |Upto(items, height)|;
      (forall i :: 0 <= i < p ==> items[i].0 <= height) && Above(items[p..], height)
  {
    if items != [] && items[|items| - 1].0 > height {
      var front := items[..|items| - 1];
      UptoHeights(front, height);
      var p := |Upto(items, height)|;
      assert forall i :: 0 <= i < |front| ==> front[i] == items[i];
      assert forall i :: 0 <= i < |items[p..]| ==> items[p..][i] == items[p + i];
      assert forall i :: 0 <= i < |front[p..]| ==> front[p..][i] == front[p + i];
      forall i | p <= i < |items| ensures items[i].0 > height {
        if i < |front| {
          assert front[p..][i - p] == items[i];
        }
      }
    }
  }

  // ----- the invariant of every run

  /** The database is what applying the surviving blocks in order gives, and in
      mutable mode its log is in step with the journal kept since the switch. */
  ghost predicate Inv(cfg: Config, start: Db, st: Stage, items: Blocks, j: Journal) {
    && Begun(start)
    && NewItems(cfg, start, items, false) && ApplyAll(cfg, start, items, false).Ok?
    && Reorg.SameDb(st.db, ApplyAll(cfg, start, items, false).db)
    && B.Sound(st.db.index.ledger) && TipIsTop(st.db)
    && (forall s :: s in st.db.wal ==> s < st.db.next)
    && (st.mutable ==> InStep(cfg, st.db, j))
  }

  // Any database, an empty one too, whose remembered hash is that of its newest block.
  ghost predicate Begun(start: Db) {
    B.Sound(start.index.ledger) && TipIsTop(start)
  }

  // The entries that a successful event writes in mutable mode.
  function Entries(cfg: Config, db: Db, ev: Event): seq<Entry>
    requires B.Sound(db.index.ledger) && Outcome(cfg, Stage(db, true), ev).Ok?
  {
    match ev
    case Forward(height, block, _) => [AppliedEntry(cfg, db, height, block)]
    case Back(height, _, _) => RollbackEntries(db.blocks, height)
  }

  // The switch to mutable mode opens a journal at the chain as it is then.
  function Opened(st: Stage, j: Journal): Journal {
    if st.mutable then j else Journal(st.db.next, Branch(st.db.blocks), [])
  }

  function Noted(cfg: Config, st: Stage, j: Journal, ev: Event): Journal
    requires B.Sound(st.db.index.ledger)
  {
    if !Latch(cfg, st.mutable, ev) then j
    else if Outcome(cfg, st, ev).Err? then Opened(st, j)
    else Opened(st, j).(entries := Opened(st, j).entries + Entries(cfg, st.db, ev))
  }

  // Forward: a new block above all others. Back: not below the blocks that the
  // run started with, and past no block that etched a rune without a name.
  ghost predicate ValidEvent(cfg: Config, start: Db, items: Blocks, db: Db, ev: Event) {
    match ev
    case Forward(height, block, _) => NewItem(cfg, db, height, block)
    case Back(height, _, _) =>
      (forall h :: h in start.blocks ==> h <= height) && AllNamed(cfg, items[|Upto(items, height)|..])
  }

  lemma JournalOpens(cfg: Config, st: Stage, j: Journal)
    requires (forall s :: s in st.db.wal ==> s < st.db.next) && (st.mutable ==> InStep(cfg, st.db, j))
    ensures InStep(cfg, st.db, Opened(st, j))
  {
    hide Branch;
  }

  /** Whatever the event and its outcome, in mutable mode the log is in step
      with the journal, which has grown by what the event wrote. */
  lemma LogKept(cfg: Config, st: Stage, j: Journal, ev: Event)
    requires B.Sound(st.db.index.ledger) && TipIsTop(st.db) && (forall s :: s in st.db.wal ==> s < st.db.next)
    requires st.mutable ==> InStep(cfg, st.db, j)
    requires ev.Forward? ==> forall h :: h in st.db.blocks ==> h < ev.height
    ensures var st' := Execute(cfg, st, ev);
      (forall s :: s in st'.db.wal ==> s < st'.db.next) && (st'.mutable ==> InStep(cfg, st'.db, Noted(cfg, st, j, ev)))
  {
    hide ApplyBlock, Rollback, InStep, TipIsTop, B.Sound, Entries, Opened;
    var r := Outcome(cfg, st, ev);
    if Latch(cfg, st.mutable, ev) {
      JournalOpens(cfg, st, j);
      if r.Ok? {
        LoggedEvent(cfg, st, Opened(st, j), ev);
        LogBounds(cfg, r.db, Noted(cfg, st, j, ev));
      }
    } else if r.Ok? {
      UnloggedEvent(cfg, st, ev);
    }
  }

  lemma LogBounds(cfg: Config, db: Db, j: Journal)
    requires InStep(cfg, db, j)
    ensures forall s :: s in db.wal ==> s < db.next
  {
  }

  lemma LoggedEvent(cfg: Config, st: Stage, j: Journal, ev: Event)
    requires B.Sound(st.db.index.ledger) && TipIsTop(st.db) && InStep(cfg, st.db, j)
    requires Latch(cfg, st.mutable, ev) && Outcome(cfg, st, ev).Ok?
    requires ev.Forward? ==> forall h :: h in st.db.blocks ==> h < ev.height
    ensures InStep(cfg, Outcome(cfg, st, ev).db, j.(entries := j.entries + Entries(cfg, st.db, ev)))
  {
    hide ApplyBlock, Rollback, InStep, TipIsTop, B.Sound, RollbackEntries, AppliedEntry;
    match ev
    case Forward(height, block, _) =>
      ApplyInStep(cfg, st.db, height, block, j);
    case Back(height, hash, _) =>
      RollbackInStep(cfg, st.db, height, hash, j);
  }

  lemma UnloggedEvent(cfg: Config, st: Stage, ev: Event)
    requires B.Sound(st.db.index.ledger) && !Latch(cfg, st.mutable, ev) && Outcome(cfg, st, ev).Ok?
    ensures var d := Outcome(cfg, st, ev).db; d.wal == st.db.wal && d.next >= st.db.next
  {
    hide B.Sound, UndoAbove, C.ProcessBlock, C.Commit, C.Keep;
    if ev.Back? {
      UndoAboveUnlogged(st.db, ev.height);
    }
  }

  lemma {:induction false} UndoAboveUnlogged(db: Db, height: nat)
    requires UndoAbove(db, height, false).Ok?
    ensures var d := UndoAbove(db, height, false).db; d.wal == db.wal && d.next == db.next
    decreases |db.blocks|
  {
    hide C.UndoBlock;
    if db.blocks != map[] && Top(db.blocks.Keys) > height {
      var d := UndoTop(db, Top(db.blocks.Keys), false).db;
      assert |d.blocks.Keys| == |db.blocks.Keys - {Top(db.blocks.Keys)}|;
      UndoAboveUnlogged(d, height);
    }
  }

  // ----- one event

  lemma NewItemSame(cfg: Config, a: Db, b: Db, height: nat, block: Block)
    requires NewItem(cfg, a, height, block) && Reorg.SameDb(a, b) && B.Sound(b.index.ledger)
    ensures NewItem(cfg, b, height, block)
  {
    assert C.NewBlock(cfg.index, b.index, block.txs, height) by {
      assert forall k :: 0 <= k < |block.txs| ==> C.NewTx(a.index, block.txs[k].id) && C.NewTx(b.index, block.txs[k].id);
    }
  }

  lemma ForwardKeeps(cfg: Config, start: Db, st: Stage, items: Blocks, j: Journal, ev: Event)
    requires Inv(cfg, start, st, items, j) && ev.Forward? && ValidEvent(cfg, start, items, st.db, ev) && Outcome(cfg, st, ev).Ok?
    ensures Inv(cfg, start, Execute(cfg, st, ev), Survivors(items, ev), Noted(cfg, st, j, ev))
  {
    hide ApplyBlock, C.NewBlock, Begun, InStep, Noted, TipIsTop, B.Sound, Undo.Unnamed;
    BegunSound(start);
    var d, item := ApplyAll(cfg, start, items, false).db, (ev.height, ev.block);
    var items' := items + [item];
    Reorg.ApplySame(cfg, st.db, d, ev.height, ev.block, Latch(cfg, st.mutable, ev), false);
    NewItemSame(cfg, st.db, d, ev.height, ev.block);
    LogKept(cfg, st, j, ev);
    ApplyTip(cfg, st.db, ev.height, ev.block, Latch(cfg, st.mutable, ev));
    assert items'[..|items|] == items && items'[|items|] == item;
  }

  lemma BegunSound(start: Db)
    requires Begun(start)
    ensures B.Sound(start.index.ledger)
  {
  }

  // A rollback to a block of the branch leads to the branch up to that block.
  lemma BackTo(cfg: Config, start: Db, st: Stage, items: Blocks, j: Journal, height: nat, hash: Hash, m: bool)
    requires Inv(cfg, start, st, items, j) && Rollback(st.db, height, hash, m).Ok?
    requires (forall h :: h in start.blocks ==> h <= height) && AllNamed(cfg, items[|Upto(items, height)|..])
    ensures var front := Upto(items, height);
      && ApplyAll(cfg, start, front, false).Ok? && NewItems(cfg, start, front, false)
      && Reorg.SameDb(Rollback(st.db, height, hash, m).db, ApplyAll(cfg, start, front, false).db)
  {
    hide ApplyBlock, UndoAbove, C.NewBlock, InStep, Noted, B.Sound, C.Near, AllNamed, NewItems;
    var p := |Upto(items, height)|;
    BranchAscends(cfg, start, items);
    UptoHeights(items, height);
    assert Upto(items, height) == items[..p];
    ApplyAllSplit(cfg, start, items, p);
    NewItemsSplit(cfg, start, items, p);
    var d := ApplyAll(cfg, start, items[..p], false).db;
    BranchBlocks(cfg, start, items[..p]);
    HeightsBound(items[..p], height);
    NoLeftoverAll(cfg, items[p..]);
    var none: set<RuneId> := {};
    ApplyAllUndone(cfg, d, items[p..], false, height, st.db, none, m);
    assert none + LeftoverAll(cfg, items[p..]) == none;
    BranchAscends(cfg, start, items[..p]);
    RollbackTip(st.db, height, hash, m);
    TipsAgree(Rollback(st.db, height, hash, m).db, d);
  }

  lemma TipsAgree(a: Db, b: Db)
    requires TipIsTop(a) && TipIsTop(b) && a.blocks == b.blocks
    ensures a.tip == b.tip
  {
  }

  lemma BackKeeps(cfg: Config, start: Db, st: Stage, items: Blocks, j: Journal, ev: Event)
    requires Inv(cfg, start, st, items, j) && ev.Back? && ValidEvent(cfg, start, items, st.db, ev) && Outcome(cfg, st, ev).Ok?
    ensures Inv(cfg, start, Execute(cfg, st, ev), Survivors(items, ev), Noted(cfg, st, j, ev))
  {
    hide ApplyBlock, Rollback, C.NewBlock, InStep, Noted, TipIsTop, B.Sound, C.Near, AllNamed, NewItems;
    var m := Latch(cfg, st.mutable, ev);
    BackTo(cfg, start, st, items, j, ev.height, ev.hash, m);
    LogKept(cfg, st, j, ev);
    RollbackTip(st.db, ev.height, ev.hash, m);
    assert Upto(items, ev.height) == items[..|Upto(items, ev.height)|];
    Reorg.SoundNear(Rollback(st.db, ev.height, ev.hash, m).db.index, ApplyAll(cfg, start, Upto(items, ev.height), false).db.index);
  }

  /** Every event keeps the invariant, whether it succeeds or fails. */
  lemma EventKeeps(cfg: Config, start: Db, st: Stage, items: Blocks, j: Journal, ev: Event)
    requires Inv(cfg, start, st, items, j) && ValidEvent(cfg, start, items, st.db, ev)
    ensures Inv(cfg, start, Execute(cfg, st, ev), if Outcome(cfg, st, ev).Ok? then Survivors(items, ev) else items, Noted(cfg, st, j, ev))
  {
    hide ApplyBlock, Rollback, C.NewBlock, InStep, Noted, TipIsTop, B.Sound, C.Near, AllNamed, NewItems, Reorg.SameDb;
    if Outcome(cfg, st, ev).Err? {
      LogKept(cfg, st, j, ev);
    } else if ev.Forward? {
      ForwardKeeps(cfg, start, st, items, j, ev);
    } else {
      BackKeeps(cfg, start, st, items, j, ev);
    }
  }

  // ----- every run

  ghost predicate ValidEvents(cfg: Config, start: Db, st: Stage, items: Blocks, j: Journal, events: seq<Event>)
    requires Inv(cfg, start, st, items, j)
    decreases |events|
  {
    events != [] ==>
      && ValidEvent(cfg, start, items, st.db, events[0])
      && (EventKeeps(cfg, start, st, items, j, events[0]);
          ValidEvents(cfg, start, Execute(cfg, st, events[0]),
                      if Outcome(cfg, st, events[0]).Ok? then Survivors(items, events[0]) else items,
                      Noted(cfg, st, j, events[0]), events[1..]))
  }

  // What a run leaves: the stage, the blocks that survived and the journal.
  datatype Trace = Trace(stage: Stage, items: Blocks, journal: Journal)

  /** Any number of blocks and rollbacks, in any order, failing or not: the
      database always is what the surviving blocks, applied in order to where
      the run started, give. Mutable mode is never left. From the switch on one
      journal is kept, it only grows, and the log is always in step with it. */
  ghost function Run(cfg: Config, start: Db, st: Stage, items: Blocks, j: Journal, events: seq<Event>): (r: Trace)
    requires Inv(cfg, start, st, items, j) && ValidEvents(cfg, start, st, items, j, events)
    ensures Inv(cfg, start, r.stage, r.items, r.journal)
    ensures st.mutable ==> r.stage.mutable
    ensures st.mutable ==> r.journal.from == j.from && r.journal.chain == j.chain && j.entries <= r.journal.entries
    decreases |events|
  {
    if events == [] then Trace(st, items, j) else
      EventKeeps(cfg, start, st, items, j, events[0]);
      Run(cfg, start, Execute(cfg, st, events[0]),
          if Outcome(cfg, st, events[0]).Ok? then Survivors(items, events[0]) else items,
          Noted(cfg, st, j, events[0]), events[1..])
  }

  // The event is fewer blocks below the tip than the confirmations asked for;
  // without such a number every block counts as near, and no rollback.
  predicate NearTip(cfg: Config, ev: Event) {
    if cfg.confs.None? then ev.Forward? else ev.tip - ev.height < cfg.confs.value
  }

  predicate SomeNear(cfg: Config, events: seq<Event>) {
    exists i :: 0 <= i < |events| && NearTip(cfg, events[i])
  }

  lemma SomeNearNext(cfg: Config, events: seq<Event>)
    requires events != []
    ensures SomeNear(cfg, events) <==> NearTip(cfg, events[0]) || SomeNear(cfg, events[1..])
  {
    hide NearTip;
    var rest := events[1..];
    if i :| 0 <= i < |rest| && NearTip(cfg, rest[i]) {
      assert events[i + 1] == rest[i];
    }
    if i :| 0 < i < |events| && NearTip(cfg, events[i]) {
      assert rest[i - 1] == events[i];
    }
  }

  lemma LatchIs(cfg: Config, st: Stage, ev: Event)
    requires B.Sound(st.db.index.ledger)
    ensures Execute(cfg, st, ev).mutable <==> st.mutable || NearTip(cfg, ev)
  {
    hide Outcome;
  }

  /** A run is in mutable mode exactly from the first event near the tip on. */
  lemma {:induction false} RunLatches(cfg: Config, start: Db, st: Stage, items: Blocks, j: Journal, events: seq<Event>)
    requires Inv(cfg, start, st, items, j) && ValidEvents(cfg, start, st, items, j, events)
    ensures Run(cfg, start, st, items, j, events).stage.mutable <==> st.mutable || SomeNear(cfg, events)
    decreases |events|
  {
    assert B.Sound(st.db.index.ledger);
    hide Inv, Outcome, Execute, ValidEvent, Survivors, Noted, B.Sound, NearTip;
    if events != [] {
      SomeNearNext(cfg, events);
      hide SomeNear;
      LatchIs(cfg, st, events[0]);
      EventKeeps(cfg, start, st, items, j, events[0]);
      RunLatches(cfg, start, Execute(cfg, st, events[0]),
                 if Outcome(cfg, st, events[0]).Ok? then Survivors(items, events[0]) else items,
                 Noted(cfg, st, j, events[0]), events[1..]);
    }
  }

  // Opening a database: the newest block and the last log entry are looked up.
  function Open(index: C.Index, blocks: map<nat, Block>, kept: map<nat, Stored>, wal: map<nat, Entry>): Db {
    Db(index, blocks, kept, wal, (if wal == map[] then 0 else Top(wal.Keys)) + 1,
       if blocks == map[] then None else Some(blocks[Top(blocks.Keys)].hash))
  }

  /** A run can begin with any database that has just been opened, an empty one
      too, before any event and in immutable mode. */
  lemma RunBegins(cfg: Config, index: C.Index, blocks: map<nat, Block>, kept: map<nat, Stored>, wal: map<nat, Entry>)
    requires B.Sound(index.ledger)
    ensures var start := Open(index, blocks, kept, wal);
      forall j :: Inv(cfg, start, Stage(start, false), [], j)
  {
  }
}
