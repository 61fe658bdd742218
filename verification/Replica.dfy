/** Downstream readers of the write-ahead log: over every run of blocks and
    rollbacks, whatever the blocks etch and however far they are rolled back, the
    log stays in step with the chain. */
module Replica {
  import opened Chain
  import opened Storage
  import opened Wal
  import opened Sync
  import Reorg
  import Undo
  import B = Brc20
  import C = ChainDb

  // ----- the ledger stays sound all the way back

  // Undoing the stored blocks one after the other meets sound ledgers only.
  ghost predicate SoundBack(l: B.Ledger, blocks: map<nat, Block>, kept: map<nat, Stored>)
    decreases |blocks|
  {
    B.Sound(l) &&
      (blocks != map[] ==>
         var top := Top(blocks.Keys);
         var rest := blocks - {top};
         assert |rest.Keys| == |blocks.Keys - {top}|;
         (top in kept ==> SoundBack(Undo.UndoLog(l, kept[top].kept.log, 0), rest, kept)))
  }

  lemma SetSame<K(!new)>(a: map<K, nat>, b: map<K, nat>, k: K, v: nat)
    requires Undo.SameAmounts(a, b)
    ensures Get(a, k) == Get(b, k) && Undo.SameAmounts(a[k := v], b[k := v])
  {
    var x, y := a[k := v], b[k := v];
    forall j ensures Get(x, j) == Get(y, j) {
      assert Get(a, j) == Get(b, j);
    }
  }

  lemma UndoEventSame(a: B.Ledger, b: B.Ledger, e: B.Event)
    requires Undo.SameLedger(a, b)
    ensures Undo.SameLedger(Undo.UndoEvent(a, e), Undo.UndoEvent(b, e))
  {
    var x, y := Undo.UndoEvent(a, e), Undo.UndoEvent(b, e);
    match e
    case Deployed(_) =>
    case Minted(t, _, script) =>
      SetSame(a.supply, b.supply, t, x.supply[t]);
      SetSame(a.balances, b.balances, (t, script), x.balances[(t, script)]);
    case Transferred(t, _, script) =>
      SetSame(a.balances, b.balances, (t, script), x.balances[(t, script)]);
    case Locked(t, _, script) =>
      SetSame(a.balances, b.balances, (t, script), x.balances[(t, script)]);
  }

  lemma {:induction false} UndoLogSame(a: B.Ledger, b: B.Ledger, log: seq<B.Event>)
    requires Undo.SameLedger(a, b)
    ensures Undo.SameLedger(Undo.UndoLog(a, log, 0), Undo.UndoLog(b, log, 0))
    decreases |log|
  {
    hide Undo.UndoEvent, Undo.SameLedger;
    if log != [] {
      UndoEventSame(a, b, log[|log| - 1]);
      UndoLogSame(Undo.UndoEvent(a, log[|log| - 1]), Undo.UndoEvent(b, log[|log| - 1]), log[..|log| - 1]);
    }
  }

  lemma {:induction false} SoundBackSame(a: B.Ledger, b: B.Ledger, blocks: map<nat, Block>, kept: map<nat, Stored>, more: map<nat, Stored>)
    requires SoundBack(a, blocks, kept) && Undo.SameLedger(a, b)
    requires forall h :: h in blocks ==> (h in kept <==> h in more) && (h in kept ==> more[h] == kept[h])
    ensures SoundBack(b, blocks, more)
    decreases |blocks|
  {
    hide B.Sound, Undo.SameLedger, Undo.UndoLog;
    Reorg.SoundSame(a, b);
    if blocks != map[] {
      var top := Top(blocks.Keys);
      var rest := blocks - {top};
      assert |rest.Keys| == |blocks.Keys - {top}|;
      if top in kept {
        UndoLogSame(a, b, kept[top].kept.log);
        SoundBackSame(Undo.UndoLog(a, kept[top].kept.log, 0), Undo.UndoLog(b, kept[top].kept.log, 0), rest, kept, more);
      }
    }
  }

  lemma ApplySoundBack(cfg: Config, db: Db, height: nat, block: Block, mutable: bool)
    requires SoundBack(db.index.ledger, db.blocks, db.kept) && ApplyBlock(cfg, db, height, block, mutable).Ok?
    requires forall h :: h in db.blocks ==> h < height
    ensures var d := ApplyBlock(cfg, db, height, block, mutable).db; SoundBack(d.index.ledger, d.blocks, d.kept)
  {
    hide B.Sound, ApplyBlock, C.ProcessBlock, Undo.SameLedger, Undo.UndoLog;
    var d := ApplyBlock(cfg, db, height, block, mutable).db;
    var w := Applied(cfg, db, height, block, mutable);
    C.BlockLedgerUndone(cfg.index, db.index, block.txs, height);
    SelfSame(w.ledger);
    var back := Undo.UndoLog(w.ledger, w.log, 0);
    Reorg.LedgerSym(back, db.index.ledger);
    assert Top(d.blocks.Keys) == height && d.blocks - {height} == db.blocks;
    SoundBackSame(db.index.ledger, back, db.blocks, db.kept, d.kept);
  }

  lemma SelfSame(l: B.Ledger)
    ensures Undo.SameLedger(l, l)
  {
  }

  lemma {:induction false} UndoSoundBack(db: Db, height: nat, mutable: bool)
    requires SoundBack(db.index.ledger, db.blocks, db.kept) && UndoAbove(db, height, mutable).Ok?
    ensures var d := UndoAbove(db, height, mutable).db; SoundBack(d.index.ledger, d.blocks, d.kept)
    decreases |db.blocks|
  {
    hide B.Sound, Undo.UndoLog;
    if db.blocks != map[] && Top(db.blocks.Keys) > height {
      var top := Top(db.blocks.Keys);
      var d := UndoTop(db, top, mutable).db;
      assert |d.blocks.Keys| == |db.blocks.Keys - {top}|;
      UndoTopLedger(db, top, mutable);
      SelfSame(d.index.ledger);
      SoundBackSame(d.index.ledger, d.index.ledger, d.blocks, db.kept, d.kept);
      UndoSoundBack(d, height, mutable);
    }
  }

  lemma UndoTopLedger(db: Db, height: nat, mutable: bool)
    requires height in db.blocks && UndoTop(db, height, mutable).Ok?
    ensures var d := UndoTop(db, height, mutable).db;
      && height in db.kept && d.blocks == db.blocks - {height} && d.kept == db.kept - {height}
      && d.index.ledger == Undo.UndoLog(db.index.ledger, db.kept[height].kept.log, 0)
  {
    hide Undo.UndoLog, Undo.RestoreFrom, C.UndoRunesFrom, C.RevealedFrom;
  }

  // ----- one event

  /** In mutable mode the log is in step; the ledger is sound, and would stay so
      whatever is rolled back. */
  ghost predicate Following(cfg: Config, st: Stage, j: Journal) {
    && SoundBack(st.db.index.ledger, st.db.blocks, st.db.kept) && TipIsTop(st.db)
    && (forall s :: s in st.db.wal ==> s < st.db.next)
    && (st.mutable ==> InStep(cfg, st.db, j))
  }

  // All that is asked of an event: a block comes above all others.
  predicate Rises(db: Db, ev: Event) {
    ev.Forward? ==> forall h :: h in db.blocks ==> h < ev.height
  }

  lemma FollowingSound(cfg: Config, st: Stage, j: Journal)
    requires Following(cfg, st, j)
    ensures B.Sound(st.db.index.ledger)
  {
  }

  /** Every event keeps the log in step, whether it succeeds or fails. */
  lemma EventFollowed(cfg: Config, st: Stage, j: Journal, ev: Event)
    requires Following(cfg, st, j) && Rises(st.db, ev)
    ensures B.Sound(st.db.index.ledger)
    ensures Following(cfg, Execute(cfg, st, ev), Noted(cfg, st, j, ev))
  {
    FollowingSound(cfg, st, j);
    hide B.Sound, ApplyBlock, Rollback, InStep, TipIsTop, SoundBack, Noted;
    LogKept(cfg, st, j, ev);
    if Outcome(cfg, st, ev).Ok? {
      StoreFollowed(cfg, st, ev);
    }
  }

  lemma StoreFollowed(cfg: Config, st: Stage, ev: Event)
    requires SoundBack(st.db.index.ledger, st.db.blocks, st.db.kept) && B.Sound(st.db.index.ledger) && Rises(st.db, ev)
    requires Outcome(cfg, st, ev).Ok?
    ensures var d := Outcome(cfg, st, ev).db; SoundBack(d.index.ledger, d.blocks, d.kept) && TipIsTop(d)
  {
    hide B.Sound, ApplyBlock, UndoAbove, SoundBack, TipIsTop;
    var m := Latch(cfg, st.mutable, ev);
    match ev
    case Forward(height, block, _) =>
      ApplySoundBack(cfg, st.db, height, block, m);
      ApplyTip(cfg, st.db, height, block, m);
    case Back(height, hash, _) =>
      UndoSoundBack(st.db, height, m);
      RollbackTip(st.db, height, hash, m);
  }

  // ----- every run

  ghost predicate AllRise(cfg: Config, st: Stage, j: Journal, events: seq<Event>)
    requires Following(cfg, st, j)
    decreases |events|
  {
    events != [] ==>
      Rises(st.db, events[0]) &&
      (EventFollowed(cfg, st, j, events[0]);
       AllRise(cfg, Execute(cfg, st, events[0]), Noted(cfg, st, j, events[0]), events[1..]))
  }

  /** Any number of blocks and rollbacks, in any order, failing or not: mutable
      mode is never left, one journal is kept from the switch on and only grows,
      and the log is always in step with it. */
  ghost function LogRun(cfg: Config, st: Stage, j: Journal, events: seq<Event>): (r: (Stage, Journal))
    requires Following(cfg, st, j) && AllRise(cfg, st, j, events)
    ensures Following(cfg, r.0, r.1)
    ensures st.mutable ==> r.0.mutable
    ensures st.mutable ==> r.1.from == j.from && r.1.chain == j.chain && j.entries <= r.1.entries
    decreases |events|
  {
    if events == [] then (st, j) else
      EventFollowed(cfg, st, j, events[0]);
      LogRun(cfg, Execute(cfg, st, events[0]), Noted(cfg, st, j, events[0]), events[1..])
  }

  /** A run can begin with an empty database, or with any opened one whose
      blocks can be undone soundly. */
  lemma FollowBegins(cfg: Config, index: C.Index, blocks: map<nat, Block>, kept: map<nat, Stored>, wal: map<nat, Entry>, j: Journal)
    requires B.Sound(index.ledger) && (blocks == map[] || SoundBack(index.ledger, blocks, kept))
    ensures Following(cfg, Stage(Open(index, blocks, kept, wal), false), j)
  {
  }
}
