/** The chain database as the source writes it: loops over transactions, inputs
    and outputs, and fields that change only when a whole operation succeeds. */
module Database {
  import opened Chain
  import opened Sums
  import opened Storage
  import opened Undo
  import I = Inscriptions
  import C = ChainDb
  import R = Runes
  import B = Brc20

  type Utxos = map<OutPoint, TxoBody>

  // ----- applying

  method ProcessRest(c: C.Config, start: C.Work, txs: seq<Tx>, height: nat) returns (o: C.Outcome)
    requires B.Sound(start.ledger) && txs != []
    ensures o == C.Turns(c, start, txs, 1, height)
  {
    hide C.Turn, B.Sound;
    var w := start;
    for k := 1 to |txs|
      invariant B.Sound(w.ledger) && C.Turns(c, w, txs, k, height) == C.Turns(c, start, txs, 1, height)
    {
      var turn := C.Turn(c, w, txs[k], k, height);
      if !turn.Worked? {
        return turn;
      }
      w := turn.work;
    }
    o := C.Worked(w);
  }

  method CommitOutputs(utxos: Utxos, bodies: Utxos, tx: Tx) returns (u: Utxos)
    requires forall o :: B.IsOutput(tx, o) ==> o in bodies
    ensures u == utxos + map o | o in bodies && B.IsOutput(tx, o) :: bodies[o]
  {
    u := utxos;
    for v := 0 to |tx.outputs|
      invariant u == utxos + map o | o in bodies && B.IsOutput(tx, o) && o.vout < v :: bodies[o]
    {
      assert B.IsOutput(tx, OutPoint(tx.id, v));
      u := u[OutPoint(tx.id, v) := bodies[OutPoint(tx.id, v)]];
    }
  }

  method DeleteInputs(utxos: Utxos, inputs: seq<OutPoint>) returns (u: Utxos)
    ensures u == utxos - (set o | o in inputs)
  {
    u := utxos;
    for i := 0 to |inputs|
      invariant u == utxos - (set o | o in inputs[..i])
    {
      u := u - {inputs[i]};
    }
    assert inputs[..|inputs|] == inputs;
  }

  method CommitAll(utxos: Utxos, bodies: Utxos, txs: seq<Tx>) returns (u: Utxos)
    requires forall k :: 0 <= k < |txs| ==> HasOutputs(bodies, txs[k])
    ensures u == CommitFrom(utxos, bodies, txs, 0)
  {
    hide CommitTx;
    u := utxos;
    for k := 0 to |txs|
      invariant CommitFrom(u, bodies, txs, k) == CommitFrom(utxos, bodies, txs, 0)
    {
      assert HasOutputs(bodies, txs[k]);
      u := CommitOne(u, bodies, txs[k]);
    }
  }

  method CommitOne(utxos: Utxos, bodies: Utxos, tx: Tx) returns (u: Utxos)
    requires HasOutputs(bodies, tx)
    ensures u == CommitTx(utxos, bodies, tx)
  {
    u := CommitOutputs(utxos, bodies, tx);
    u := DeleteInputs(u, tx.inputs);
  }

  predicate HasOutputs(bodies: Utxos, tx: Tx) {
    forall v :: 0 <= v < |tx.outputs| ==> OutPoint(tx.id, v) in bodies
  }

  // ----- undoing

  method UndoLedger(ledger: B.Ledger, log: seq<B.Event>) returns (l: B.Ledger)
    ensures l == UndoLog(ledger, log, 0)
  {
    hide UndoEvent;
    l := ledger;
    assert log[..|log|] == log;
    for i := |log| downto 0
      invariant UndoLog(l, log[..i], 0) == UndoLog(ledger, log, 0)
    {
      l := UndoEvent(l, log[i]);
      assert log[..i + 1][..i] == log[..i];
    }
  }

  method ReinsertInputs(utxos: Utxos, bodies: Utxos, inputs: seq<OutPoint>) returns (r: Restoring)
    ensures r == Reinsert(utxos, bodies, inputs)
  {
    var u, left := utxos, bodies;
    for i := 0 to |inputs|
      invariant Reinsert(utxos, bodies, inputs[..i]) == Restoring(u, left)
    {
      assert inputs[..i + 1][..i] == inputs[..i];
      if inputs[i] !in left {
        ReinsertStops(utxos, bodies, inputs, i + 1);
        return MissingBody(inputs[i]);
      }
      u, left := u[inputs[i] := left[inputs[i]]], left - {inputs[i]};
    }
    assert inputs[..|inputs|] == inputs;
    r := Restoring(u, left);
  }

  lemma {:induction false} ReinsertStops(utxos: Utxos, bodies: Utxos, inputs: seq<OutPoint>, i: nat)
    requires i <= |inputs| && Reinsert(utxos, bodies, inputs[..i]).MissingBody?
    ensures Reinsert(utxos, bodies, inputs) == Reinsert(utxos, bodies, inputs[..i])
    decreases |inputs|
  {
    if i == |inputs| {
      assert inputs[..i] == inputs;
    } else {
      assert inputs[..|inputs| - 1][..i] == inputs[..i];
      ReinsertStops(utxos, bodies, inputs[..|inputs| - 1], i);
    }
  }

  method DeleteOutputs(utxos: Utxos, tx: Tx) returns (u: Utxos)
    ensures u == DropOutputs(utxos, tx)
  {
    u := utxos;
    for v := 0 to |tx.outputs|
      invariant u == map o | o in utxos && !(o.txid == tx.id && o.vout < v) :: utxos[o]
    {
      u := u - {OutPoint(tx.id, v)};
    }
  }

  method ForgetRevealed(cursed: set<InscriptionId>, tx: Tx) returns (s: set<InscriptionId>)
    ensures s == cursed - C.Revealed(tx)
  {
    s := cursed;
    for i := 0 to |tx.envelopes|
      invariant s == cursed - (set j | 0 <= j < i :: InscriptionId(tx.id, j))
    {
      s := s - {InscriptionId(tx.id, i)};
    }
  }

  // Fields of the database that a block being undone changes one transaction at a time.
  datatype Progress = Progress(utxos: Utxos, bodies: Utxos, runes: R.Tables, cursed: set<InscriptionId>)

  function UndoneTo(p: Progress, txs: seq<Tx>, k: nat, height: nat, kept: C.Kept): Option<Progress> {
    var u, t := RestoreFrom(p.utxos, p.bodies, txs, k), C.UndoRunesFrom(p.runes, txs, k, height, kept);
    if u.MissingBody? || t.None? then None
    else Some(Progress(u.utxos, u.bodies, t.value, p.cursed - C.RevealedFrom(txs, k)))
  }

  lemma UndoneStep(p: Progress, txs: seq<Tx>, k: nat, height: nat, kept: C.Kept)
    requires k < |txs|
    ensures var q := UndoneTo(p, txs, k + 1, height, kept);
      UndoneTo(p, txs, k, height, kept) ==
        if q.None? then None else
          var r := Reinsert(q.value.utxos, q.value.bodies, Spends(txs, k));
          var t := UndoRunes(q.value.runes, txs[k], k, height, k in kept.etches, k in kept.mints);
          if r.MissingBody? || t.None? then None
          else Some(Progress(DropOutputs(r.utxos, txs[k]), r.bodies, t.value, q.value.cursed - C.Revealed(txs[k])))
  {
    hide Reinsert, UndoRunes, DropOutputs, C.Revealed, Spends;
    assert p.cursed - C.RevealedFrom(txs, k) == p.cursed - C.RevealedFrom(txs, k + 1) - C.Revealed(txs[k]);
  }

  lemma {:induction false} UndoneStops(p: Progress, txs: seq<Tx>, k: nat, height: nat, kept: C.Kept)
    requires k <= |txs| && UndoneTo(p, txs, k, height, kept).None?
    ensures UndoneTo(p, txs, 0, height, kept).None?
  {
    hide UndoneTo;
    if k > 0 {
      UndoneStep(p, txs, k - 1, height, kept);
      UndoneStops(p, txs, k - 1, height, kept);
    }
  }

  method UndoTxs(start: Progress, txs: seq<Tx>, height: nat, kept: C.Kept) returns (r: Option<Progress>)
    ensures r == UndoneTo(start, txs, 0, height, kept)
  {
    var p := start;
    assert start.cursed - {} == start.cursed;
    for k := |txs| downto 0
      invariant UndoneTo(start, txs, k, height, kept) == Some(p)
    {
      hide UndoneTo, UndoRunes, C.Revealed, DropOutputs, Reinsert;
      UndoneStep(start, txs, k, height, kept);
      var cursed := ForgetRevealed(p.cursed, txs[k]);
      var runes := UndoRunes(p.runes, txs[k], k, height, k in kept.etches, k in kept.mints);
      if runes.None? {
        UndoneStops(start, txs, k, height, kept);
        return None;
      }
      // a coinbase input is not reinserted
      var utxos := Restoring(p.utxos, p.bodies);
      if k != 0 {
        utxos := ReinsertInputs(p.utxos, p.bodies, txs[k].inputs);
      } else {
        NothingReinserted(p.utxos, p.bodies);
      }
      if utxos.MissingBody? {
        UndoneStops(start, txs, k, height, kept);
        return None;
      }
      var u := DeleteOutputs(utxos.utxos, txs[k]);
      p := Progress(u, utxos.bodies, runes.value, cursed);
    }
    r := Some(p);
  }

  lemma NothingReinserted(utxos: Utxos, bodies: Utxos)
    ensures Reinsert(utxos, bodies, []) == Restoring(utxos, bodies)
  {
  }

  method UndoOne(x: C.Index, txs: seq<Tx>, height: nat, kept: C.Kept) returns (r: Option<C.Index>)
    ensures r == C.UndoBlock(x, txs, height, kept)
  {
    hide RestoreFrom, C.UndoRunesFrom, UndoLog, C.RevealedFrom;
    var ledger := UndoLedger(x.ledger, kept.log);
    var p := UndoTxs(Progress(x.utxos, kept.bodies, x.runes, x.registry.cursed), txs, height, kept);
    if p.None? {
      return None;
    }
    r := Some(C.Index(p.value.utxos, p.value.runes, ledger, I.Registry(kept.counters, p.value.cursed)));
  }

  // ----- every output of a processed block has a body

  predicate KeepsKeys(a: Utxos, b: Utxos) {
    forall o :: o in a ==> o in b
  }

  lemma TurnMakes(c: C.Config, w: C.Work, tx: Tx, k: nat, height: nat)
    requires B.Sound(w.ledger) && C.Turn(c, w, tx, k, height).Worked?
    ensures var w' := C.Turn(c, w, tx, k, height).work;
      KeepsKeys(w.bodies, w'.bodies) && HasOutputs(w'.bodies, tx)
  {
    hide C.Supply.SpentInputs, C.RunesAt, C.FundedAt, C.MoveAt, C.BooksAt, R.WellFormed, B.Sound;
    var resolved := Resolve(w.bodies, tx.inputs);
    var runes := C.RunesAt(c, w.runes, tx, resolved, k, height);
    var e := C.EffectsAt(c, w, tx, runes, C.Supply.SpentInputs(resolved), height);
    CreateContents(w.bodies, tx.id, C.Supply.Bodies(tx, height, e));
  }

  lemma {:induction false} TurnsMake(c: C.Config, w: C.Work, txs: seq<Tx>, k: nat, height: nat)
    requires B.Sound(w.ledger) && C.Turns(c, w, txs, k, height).Worked?
    ensures var w' := C.Turns(c, w, txs, k, height).work;
      KeepsKeys(w.bodies, w'.bodies) && forall j :: k <= j < |txs| ==> HasOutputs(w'.bodies, txs[j])
    decreases |txs| - k
  {
    hide C.Turn, B.Sound;
    if k < |txs| {
      TurnMakes(c, w, txs[k], k, height);
      TurnsMake(c, C.Turn(c, w, txs[k], k, height).work, txs, k + 1, height);
    }
  }

  lemma BlockMakes(c: C.Config, x: C.Index, txs: seq<Tx>, height: nat)
    requires B.Sound(x.ledger) && C.ProcessBlock(c, x, txs, height).Worked?
    ensures forall j :: 0 <= j < |txs| ==> HasOutputs(C.ProcessBlock(c, x, txs, height).work.bodies, txs[j])
  {
    hide C.RunesAt, C.Turns, C.FundedAt, C.MoveAt, C.BooksAt, B.Sound, R.WellFormed;
    var runes := C.RunesAt(c, x.runes, txs[0], [], 0, height);
    var w1 := C.AfterRunes(C.Start(x, txs, height), runes, 0);
    TurnsMake(c, w1, txs, 1, height);
    var w2 := C.Turns(c, w1, txs, 1, height).work;
    var e := C.EffectsAt(c, w2, txs[0], runes, C.CoinbaseInputs(height), height);
    CreateContents(w2.bodies, txs[0].id, C.Supply.Bodies(txs[0], height, e));
  }

  method Process(c: C.Config, x: C.Index, txs: seq<Tx>, height: nat) returns (o: C.Outcome)
    requires B.Sound(x.ledger)
    ensures o == C.ProcessBlock(c, x, txs, height)
  {
    hide C.RunesAt, C.Turns, C.MoveAt, C.BooksAt, B.Sound, R.WellFormed, C.AfterMove;
    if txs == [] || txs[0].inputs != [NULL_OUTPOINT] || !R.WellFormed(txs[0]) {
      return C.Invalid;
    }
    var runes := C.RunesAt(c, x.runes, txs[0], [], 0, height);
    o := ProcessRest(c, C.AfterRunes(C.Start(x, txs, height), runes, 0), txs, height);
    if o.Worked? {
      if !C.FundedAt(c, o.work, txs[0], C.CoinbaseInputs(height), height) {
        return C.Invalid;
      }
      var e := C.EffectsAt(c, o.work, txs[0], runes, C.CoinbaseInputs(height), height);
      o := C.Worked(C.AfterMove(o.work, txs[0], height, e));
    }
  }

  class ChainDatabase {
    const cfg: Config
    var index: C.Index
    var blocks: map<nat, Block>
    var kept: map<nat, Stored>
    var wal: map<nat, Entry>
    var next: nat
    var tip: Option<Hash>

    ghost function View(): Db reads this {
      Db(index, blocks, kept, wal, next, tip)
    }

    constructor (cfg: Config, db: Db)
      ensures this.cfg == cfg && View() == db
    {
      this.cfg := cfg;
      index, blocks, kept, wal, next, tip := db.index, db.blocks, db.kept, db.wal, db.next, db.tip;
    }

    method Apply(height: nat, block: Block, mutable: bool) returns (error: Option<Error>)
      requires B.Sound(index.ledger)
      modifies this
      ensures match ApplyBlock(cfg, old(View()), height, block, mutable)
        case Ok(db) => error == None && View() == db
        case Err(e) => error == Some(e) && View() == old(View())
    {
      hide C.ProcessBlock, B.Sound, CommitFrom, Prune, SpendsFrom;
      if tip.Some? && block.prev != tip.value {
        return Some(PreviousHashMismatch(block.prev, tip.value));
      }
      var o := Process(cfg.index, index, block.txs, height);
      match o
      case MissingTxo(outpoint) => error := Some(Error.MissingTxo(outpoint));
      case Invalid => error := Some(InvalidBlock);
      case Worked(w) =>
        BlockMakes(cfg.index, index, block.txs, height);
        var utxos := CommitAll(index.utxos, w.bodies, block.txs);
        var keep := C.Keep(index, block.txs, w);
        if mutable {
          wal := Logged(cfg, wal, next, height, Entry.Apply(height, block, keep));
        }
        blocks, kept := blocks[height := block], kept[height := Stored(block.hash, keep)];
        index := C.Index(utxos, w.runes, w.ledger, w.registry);
        next, tip := next + 1, Some(block.hash);
        error := None;
    }

    method Rollback(height: nat, hash: Hash, mutable: bool) returns (error: Option<Error>)
      modifies this
      ensures match Storage.Rollback(old(View()), height, hash, mutable)
        case Ok(db) => error == None && View() == db
        case Err(e) => error == Some(e) && View() == old(View())
    {
      hide UndoTop;
      if height !in blocks || blocks[height].hash != hash {
        return Some(InvalidRollbackPoint);
      }
      // everything is staged in `db` and stored only at the end
      var db := Db(index, blocks, kept, wal, next, tip);
      ghost var all := UndoAbove(db, height, mutable);
      while db.blocks != map[] && Top(db.blocks.Keys) > height
        invariant View() == old(View()) && UndoAbove(db, height, mutable) == all
        decreases |db.blocks|
      {
        var top := Top(db.blocks.Keys);
        var r := UndoNewest(db, top, mutable);
        if r.Err? {
          return Some(r.error);
        }
        assert |r.db.blocks.Keys| == |db.blocks.Keys - {top}|;
        db := r.db;
      }
      var mark := Mark(height, blocks[height]);
      index, blocks, kept := db.index, db.blocks, db.kept;
      wal, next := db.wal, db.next;
      if mutable {
        wal, next := wal[next := mark], next + 1;
      }
      tip := Some(hash);
      error := None;
    }
  }

  method UndoNewest(db: Db, height: nat, mutable: bool) returns (r: Result)
    requires height in db.blocks
    ensures r == UndoTop(db, height, mutable)
  {
    hide C.UndoBlock;
    var block := db.blocks[height];
    if height !in db.kept {
      return Err(MissingResolver(block.hash));
    }
    var stored := db.kept[height];
    if stored.hash != block.hash {
      return Err(ResolverHashMismatch(height, block.hash, stored.hash));
    }
    var index := UndoOne(db.index, block.txs, height, stored.kept);
    if index.None? {
      return Err(UndoFailed(block.hash));
    }
    r := Ok(Push(db, Undo(height, block), mutable)
            .(index := index.value, blocks := db.blocks - {height}, kept := db.kept - {height}));
  }
}
