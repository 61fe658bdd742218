/** Undoing what a block did to each table, from the data kept for it. */
module Undo {
  import opened Chain
  import opened Inscriptions
  import opened Sums
  import R = Runes
  import B = Brc20

  // ----- the BRC-20 ledger, from the log of valid actions

  // Subtraction of 128-bit words: it wraps below zero.
  function Sub(a: nat, b: nat): nat {
    if b <= a then a - b else if b - a <= U128_MAX then U128_MAX + 1 - (b - a) else 0
  }

  function UndoEvent(l: B.Ledger, e: B.Event): B.Ledger {
    match e
    case Deployed(t) => l.(terms := l.terms - {t})
    case Minted(t, amount, script) =>
      l.(supply := l.supply[t := Sub(Get(l.supply, t), amount)],
         balances := l.balances[(t, script) := Sub(Get(l.balances, (t, script)), amount)])
    case Transferred(t, amount, script) =>
      l.(balances := l.balances[(t, script) := Sub(Get(l.balances, (t, script)), amount)])
    case Locked(t, amount, script) =>
      l.(balances := l.balances[(t, script) := Get(l.balances, (t, script)) + amount])
  }

  // Undo the newest actions until `n` are left.
  function UndoLog(l: B.Ledger, log: seq<B.Event>, n: nat): B.Ledger
    decreases |log|
  {
    if |log| <= n then l else UndoLog(UndoEvent(l, log[|log| - 1]), log[..|log| - 1], n)
  }

  // Equal ledgers, an absent amount counting as zero.
  ghost predicate SameLedger(a: B.Ledger, b: B.Ledger) {
    && a.terms == b.terms
    && SameAmounts(a.supply, b.supply)
    && SameAmounts(a.balances, b.balances)
  }

  // `r` continues `b` by actions whose undoing leads from `r` back to `b`.
  ghost predicate Undoes(b: B.Books, r: B.Books) {
    && |b.log| <= |r.log| && r.log[..|b.log|] == b.log
    && forall l :: SameLedger(l, r.ledger) ==> SameLedger(UndoLog(l, r.log, |b.log|), b.ledger)
  }

  lemma {:induction false} UndoLogSplit(l: B.Ledger, log: seq<B.Event>, n: nat, m: nat)
    requires n <= m <= |log|
    ensures UndoLog(l, log, n) == UndoLog(UndoLog(l, log, m), log[..m], n)
    decreases |log|
  {
    if |log| == m {
      assert log[..m] == log;
    } else {
      UndoLogSplit(UndoEvent(l, log[|log| - 1]), log[..|log| - 1], n, m);
      assert log[..|log| - 1][..m] == log[..m];
    }
  }

  lemma {:induction false} UndoLogTail(l: B.Ledger, a: seq<B.Event>, b: seq<B.Event>)
    ensures UndoLog(l, a + b, |a|) == UndoLog(l, b, 0)
    decreases |b|
  {
    if b != [] {
      var front := b[..|b| - 1];
      assert (a + b)[..|a + b| - 1] == a + front;
      UndoLogTail(UndoEvent(l, b[|b| - 1]), a, front);
    }
  }

  lemma UndoesTrans(a: B.Books, b: B.Books, c: B.Books)
    requires Undoes(a, b) && Undoes(b, c)
    ensures Undoes(a, c)
  {
    assert c.log[..|b.log|][..|a.log|] == c.log[..|a.log|];
    forall l | SameLedger(l, c.ledger) ensures SameLedger(UndoLog(l, c.log, |a.log|), a.ledger) {
      UndoLogSplit(l, c.log, |a.log|, |b.log|);
    }
  }

  lemma UndoesSelf(b: B.Books)
    ensures Undoes(b, b)
  {
  }

  lemma UndoesOne(b: B.Books, r: B.Books, e: B.Event)
    requires r.log == b.log + [e]
    requires forall l :: SameLedger(l, r.ledger) ==> SameLedger(UndoEvent(l, e), b.ledger)
    ensures Undoes(b, r)
  {
    assert r.log[..|b.log|] == b.log;
    forall l | SameLedger(l, r.ledger) ensures SameLedger(UndoLog(l, r.log, |b.log|), b.ledger) {
      assert UndoLog(l, r.log, |b.log|) == UndoLog(UndoEvent(l, e), b.log, |b.log|);
    }
  }

  ghost predicate SameAmounts<K(!new)>(a: map<K, nat>, b: map<K, nat>) {
    forall k :: Get(a, k) == Get(b, k)
  }

  // Setting one amount back undoes a change of that amount.
  lemma SetBack<K(!new)>(a: map<K, nat>, after: map<K, nat>, before: map<K, nat>, key: K, v: nat)
    requires SameAmounts(a, after) && after == before[key := v]
    ensures SameAmounts(a[key := Get(before, key)], before)
  {
    forall k ensures Get(a[key := Get(before, key)], k) == Get(before, k) {
      assert Get(a, k) == Get(after, k);
    }
  }

  lemma RedeemUndone(b: B.Books, unused: map<InscriptionId, B.Pending>, id: InscriptionId, receiver: Script)
    ensures Undoes(b, B.Redeem(b, unused, id, receiver))
  {
    if id in unused {
      var r, t := B.Redeem(b, unused, id, receiver), unused[id].transfer;
      var e := B.Transferred(t.ticker, t.amount, receiver);
      forall l | SameLedger(l, r.ledger) ensures SameLedger(UndoEvent(l, e), b.ledger) {
        SetBack(l.balances, r.ledger.balances, b.ledger.balances, (t.ticker, receiver), r.ledger.balances[(t.ticker, receiver)]);
        assert Get(l.balances, (t.ticker, receiver)) == Get(r.ledger.balances, (t.ticker, receiver));
      }
      UndoesOne(b, r, e);
    }
  }

  lemma MintUndone(b: B.Books, ticker: Ticker, amt: nat, receiver: Option<Script>)
    requires B.Sound(b.ledger) && ticker in b.ledger.terms
    ensures Undoes(b, B.HandleMint(b, ticker, amt, receiver))
  {
    var r := B.HandleMint(b, ticker, amt, receiver);
    if r != b {
      var actual := Min(amt, b.ledger.terms[ticker].max - Get(b.ledger.supply, ticker));
      var e := B.Minted(ticker, actual, receiver.value);
      forall l | SameLedger(l, r.ledger) ensures SameLedger(UndoEvent(l, e), b.ledger) {
        SetBack(l.supply, r.ledger.supply, b.ledger.supply, ticker, r.ledger.supply[ticker]);
        assert Get(l.supply, ticker) == Get(r.ledger.supply, ticker);
        SetBack(l.balances, r.ledger.balances, b.ledger.balances, (ticker, receiver.value), r.ledger.balances[(ticker, receiver.value)]);
        assert Get(l.balances, (ticker, receiver.value)) == Get(r.ledger.balances, (ticker, receiver.value));
      }
      UndoesOne(b, r, e);
    }
  }

  lemma TransferUndone(b: B.Books, insc: InscriptionId, ticker: Ticker, amt: nat, receiver: Option<Script>)
    ensures Undoes(b, B.HandleTransfer(b, insc, ticker, amt, receiver))
  {
    var r := B.HandleTransfer(b, insc, ticker, amt, receiver);
    if r.log != b.log {
      var e := B.Locked(ticker, amt, receiver.value);
      forall l | SameLedger(l, r.ledger) ensures SameLedger(UndoEvent(l, e), b.ledger) {
        SetBack(l.balances, r.ledger.balances, b.ledger.balances, (ticker, receiver.value), r.ledger.balances[(ticker, receiver.value)]);
        assert Get(l.balances, (ticker, receiver.value)) == Get(r.ledger.balances, (ticker, receiver.value));
      }
      UndoesOne(b, r, e);
    }
  }

  lemma HandleUndone(b: B.Books, insc: InscriptionId, raw: RawMessage, parents: set<InscriptionId>, receiver: Option<Script>)
    requires B.Sound(b.ledger)
    ensures Undoes(b, B.Handle(b, insc, raw, parents, receiver))
  {
    var deploy, terms := B.ParseDeploy(raw, insc), b.ledger.terms;
    if deploy.Some? {
      if raw.tick !in terms {
        DeployUndone(b, raw.tick, deploy.value);
      }
    } else if raw.tick in terms {
      var mint, transfer := B.ParseMint(raw, terms[raw.tick], parents), B.ParseTransfer(raw, terms[raw.tick]);
      if mint.Some? {
        MintUndone(b, raw.tick, mint.value, receiver);
      } else if transfer.Some? {
        TransferUndone(b, insc, raw.tick, transfer.value, receiver);
      }
    }
  }

  lemma DeployUndone(b: B.Books, ticker: Ticker, terms: B.Terms)
    requires ticker !in b.ledger.terms
    ensures Undoes(b, b.(ledger := b.ledger.(terms := b.ledger.terms[ticker := terms]), log := b.log + [B.Deployed(ticker)]))
  {
    var r := b.(ledger := b.ledger.(terms := b.ledger.terms[ticker := terms]), log := b.log + [B.Deployed(ticker)]);
    assert r.ledger.terms - {ticker} == b.ledger.terms;
    UndoesOne(b, r, B.Deployed(ticker));
  }

  lemma {:induction false} RedeemAllUndone(b: B.Books, unused: map<InscriptionId, B.Pending>, moves: seq<(InscriptionId, Script)>)
    ensures Undoes(b, B.RedeemAll(b, unused, moves))
  {
    if moves != [] {
      var last := moves[|moves| - 1];
      var r := B.RedeemAll(b, unused, moves[..|moves| - 1]);
      RedeemAllUndone(b, unused, moves[..|moves| - 1]);
      RedeemUndone(r, unused, last.0, last.1);
      UndoesTrans(b, r, B.Redeem(r, unused, last.0, last.1));
    }
  }

  lemma {:induction false} HandleAllUndone(b: B.Books, tx: Tx, out: Outgoing, parents: set<InscriptionId>, msgs: seq<(InscriptionId, RawMessage)>)
    requires B.Sound(b.ledger)
    ensures Undoes(b, B.HandleAll(b, tx, out, parents, msgs))
  {
    if msgs != [] {
      var last := msgs[|msgs| - 1];
      var r := B.HandleAll(b, tx, out, parents, msgs[..|msgs| - 1]);
      HandleAllUndone(b, tx, out, parents, msgs[..|msgs| - 1]);
      HandleUndone(r, last.0, last.1, parents, B.Landing(tx, out, last.0));
      UndoesTrans(b, r, B.Handle(r, last.0, last.1, parents, B.Landing(tx, out, last.0)));
    }
  }

  /** Undoing the logged actions of a transaction, newest first, restores the
      ledger as it was before the transaction. */
  lemma LedgerUndone(l: B.Ledger, tx: Tx, inputs: seq<Input>, out: Outgoing, rest: seq<Flotsam>)
    requires B.Sound(l)
    ensures Undoes(B.Books(l, [], map[]), B.IndexLedger(l, tx, inputs, out, rest))
  {
    var floating := Floating(tx, inputs, |inputs|);
    var start := B.Books(l, [], map[]);
    var redeemed := B.Redeemed(l, tx, inputs, out, rest);
    RedeemAllUndone(start, B.Unused(inputs), B.Moves(tx, inputs, out, rest));
    B.RedeemAllSound(start, B.Unused(inputs), B.Moves(tx, inputs, out, rest));
    HandleAllUndone(redeemed, tx, out, B.IdSet(floating), B.Messages(tx, floating));
    UndoesTrans(start, redeemed, B.IndexLedger(l, tx, inputs, out, rest));
  }

  // ----- the rune tables, from the flags of successful etchings and mints

  // The name written in the transaction; a reserved name is not written.
  function WrittenName(artifact: Artifact): Option<nat> {
    match artifact
    case Cenotaph(name, _) => name
    case Runestone(_, Some(etching), _, _) => etching.rune
    case Runestone(_, None, _, _) => None
  }

  predicate Unnamed(tx: Tx) {
    tx.artifact.Some? && tx.artifact.value.Runestone? && tx.artifact.value.etching.Some? && tx.artifact.value.etching.value.rune.None?
  }

  // None stands for an underflow of the mint counter.
  function UndoRunes(t: R.Tables, tx: Tx, txIndex: nat, height: nat, etched: bool, minted: bool): Option<R.Tables> {
    if tx.artifact.None? then Some(t) else
      var artifact := tx.artifact.value;
      var name := WrittenName(artifact);
      var t1 := if name.Some? && etched then R.Tables(t.ids - {name.value}, t.terms - {RuneId(height, txIndex)}, t.mints) else t;
      if artifact.mint.None? || !minted then Some(t1) else
        var id := artifact.mint.value;
        if Get(t1.mints, id) == 0 then None else Some(t1.(mints := t1.mints[id := Get(t1.mints, id) - 1]))
  }

  // The names of runes etched without one.
  function Names(ids: set<RuneId>): set<nat> {
    set id | id in ids :: R.ReservedName(id.block, id.tx)
  }

  // `s` is `t` again, except that the `extra` runes, etched without a name,
  // still have their terms and their reserved names.
  ghost predicate Restores(s: R.Tables, t: R.Tables, extra: set<RuneId>) {
    && SameAmounts(s.mints, t.mints)
    && s.terms.Keys == t.terms.Keys + extra
    && (forall id :: id in t.terms ==> s.terms[id] == t.terms[id])
    && s.ids.Keys == t.ids.Keys + Names(extra)
    && (forall n :: n in s.ids && n !in Names(extra) ==> s.ids[n] == t.ids[n])
    && (forall n :: n in s.ids && n in Names(extra) ==>
          s.ids[n] in extra && R.ReservedName(s.ids[n].block, s.ids[n].tx) == n)
  }

  lemma NothingLeft(s: R.Tables, t: R.Tables)
    requires Restores(s, t, {})
    ensures s.ids == t.ids && s.terms == t.terms
  {
    assert Names({}) == {};
  }

  predicate Mints(t: R.Tables, tx: Tx, height: nat) {
    tx.artifact.Some? && R.MintedId(t, tx.artifact.value, height).Some?
  }

  /** Undoing a transaction's rune actions restores the tables, but the terms
      and the reserved name of a rune etched without a name stay behind. */
  lemma RunesUndone(s: R.Tables, t: R.Tables, tx: Tx, txIndex: nat, height: nat, extra: set<RuneId>)
    requires RuneId(height, txIndex) !in t.terms && RuneId(height, txIndex) !in extra
    requires Restores(s, R.NextTables(t, tx, txIndex, height), extra)
    ensures var r := UndoRunes(s, tx, txIndex, height, R.Etch(t, tx, txIndex, height).Some?, Mints(t, tx, height));
      r.Some? && Restores(r.value, t, extra + if Unnamed(tx) then {RuneId(height, txIndex)} else {})
  {
    hide Restores, R.AfterEtch;
    if tx.artifact.Some? {
      var artifact := tx.artifact.value;
      var t1 := R.AfterMint(t, artifact, height);
      var s1 := EtchUndone(s, t1, tx, txIndex, height, extra);
      var left := extra + if Unnamed(tx) then {RuneId(height, txIndex)} else {};
      if Mints(t, tx, height) {
        CountUndone(s1, t, artifact.mint.value, left);
      }
    } else {
      assert extra + {} == extra;
    }
  }

  lemma CountUndone(s: R.Tables, t: R.Tables, id: RuneId, extra: set<RuneId>)
    requires Restores(s, t.(mints := t.mints[id := Get(t.mints, id) + 1]), extra)
    ensures Get(s.mints, id) == Get(t.mints, id) + 1
    ensures Restores(s.(mints := s.mints[id := Get(s.mints, id) - 1]), t, extra)
  {
    var minted := t.mints[id := Get(t.mints, id) + 1];
    assert Get(s.mints, id) == Get(minted, id);
    SetBack(s.mints, minted, t.mints, id, minted[id]);
  }

  lemma EtchUndone(s: R.Tables, t: R.Tables, tx: Tx, txIndex: nat, height: nat, extra: set<RuneId>) returns (s1: R.Tables)
    requires tx.artifact.Some?
    requires RuneId(height, txIndex) !in t.terms && RuneId(height, txIndex) !in extra
    requires var name := R.EtchedName(t, tx, txIndex, height);
      Restores(s, if name.Some? then R.AfterEtch(t, tx.artifact.value, RuneId(height, txIndex), name.value, height) else t, extra)
    ensures s1 == if WrittenName(tx.artifact.value).Some? && R.EtchedName(t, tx, txIndex, height).Some?
      then R.Tables(s.ids - {WrittenName(tx.artifact.value).value}, s.terms - {RuneId(height, txIndex)}, s.mints) else s
    ensures Restores(s1, t, extra + if Unnamed(tx) then {RuneId(height, txIndex)} else {})
  {
    s1 := s;
    var name, id := R.EtchedName(t, tx, txIndex, height), RuneId(height, txIndex);
    if name.Some? {
      if WrittenName(tx.artifact.value).Some? {
        s1 := R.Tables(s.ids - {name.value}, s.terms - {id}, s.mints);
        NamedUndone(s, t, id, name.value, R.NewTerms(tx.artifact.value, name.value, height), extra);
      } else {
        UnnamedStays(s, t, id, R.NewTerms(tx.artifact.value, name.value, height), extra);
      }
    } else {
      assert !Unnamed(tx);
      assert extra + {} == extra;
    }
  }

  lemma NamedUndone(s: R.Tables, t: R.Tables, id: RuneId, name: nat, terms: R.RuneTerms, extra: set<RuneId>)
    requires id !in t.terms && id !in extra && name !in t.ids && name < R.RESERVED
    requires Restores(s, t.(ids := t.ids[name := id], terms := t.terms[id := terms]), extra)
    ensures Restores(R.Tables(s.ids - {name}, s.terms - {id}, s.mints), t, extra)
  {
    assert name !in Names(extra);
  }

  lemma UnnamedStays(s: R.Tables, t: R.Tables, id: RuneId, terms: R.RuneTerms, extra: set<RuneId>)
    requires id !in t.terms && id !in extra
    requires var name := R.ReservedName(id.block, id.tx);
      Restores(s, t.(ids := t.ids[name := id], terms := t.terms[id := terms]), extra)
    ensures Restores(s, t, extra + {id})
  {
    var name := R.ReservedName(id.block, id.tx);
    assert Names(extra + {id}) == Names(extra) + {name};
  }

  // ----- unspent outputs, from the bodies of the spent ones

  // Insert the outputs of a transaction, then delete its inputs.
  function CommitTx(u: map<OutPoint, TxoBody>, bodies: map<OutPoint, TxoBody>, tx: Tx): map<OutPoint, TxoBody> {
    (u + (map o | o in bodies && B.IsOutput(tx, o) :: bodies[o])) - (set o | o in tx.inputs)
  }

  function CommitFrom(u: map<OutPoint, TxoBody>, bodies: map<OutPoint, TxoBody>, txs: seq<Tx>, k: nat): map<OutPoint, TxoBody>
    decreases |txs| - k
  {
    if k >= |txs| then u else CommitFrom(CommitTx(u, bodies, txs[k]), bodies, txs, k + 1)
  }

  datatype Restoring = MissingBody(outpoint: OutPoint) | Restoring(utxos: map<OutPoint, TxoBody>, bodies: map<OutPoint, TxoBody>)

  // Put spent outputs back, taking each body out of the stored ones.
  function Reinsert(u: map<OutPoint, TxoBody>, bodies: map<OutPoint, TxoBody>, inputs: seq<OutPoint>): Restoring {
    if inputs == [] then Restoring(u, bodies) else
      var last := inputs[|inputs| - 1];
      var r := Reinsert(u, bodies, inputs[..|inputs| - 1]);
      if r.MissingBody? then r
      else if last !in r.bodies then MissingBody(last)
      else Restoring(r.utxos[last := r.bodies[last]], r.bodies - {last})
  }

  function DropOutputs(u: map<OutPoint, TxoBody>, tx: Tx): map<OutPoint, TxoBody> {
    map o | o in u && !B.IsOutput(tx, o) :: u[o]
  }

  // The spent outputs of a transaction; a coinbase spends none.
  function Spends(txs: seq<Tx>, k: nat): seq<OutPoint>
    requires k < |txs|
  {
    if k == 0 then [] else txs[k].inputs
  }

  function SpendsFrom(txs: seq<Tx>, k: nat): seq<OutPoint>
    decreases |txs| - k
  {
    if k >= |txs| then [] else Spends(txs, k) + SpendsFrom(txs, k + 1)
  }

  // Undo transactions k, k + 1, ... of a block, the last one first.
  function RestoreFrom(u: map<OutPoint, TxoBody>, bodies: map<OutPoint, TxoBody>, txs: seq<Tx>, k: nat): Restoring
    decreases |txs| - k
  {
    if k >= |txs| then Restoring(u, bodies) else
      var r := RestoreFrom(u, bodies, txs, k + 1);
      if r.MissingBody? then r else
        var q := Reinsert(r.utxos, r.bodies, Spends(txs, k));
        if q.MissingBody? then q else Restoring(DropOutputs(q.utxos, txs[k]), q.bodies)
  }

  function Pick(bodies: map<OutPoint, TxoBody>, keys: set<OutPoint>): map<OutPoint, TxoBody> {
    map o | o in bodies && o in keys :: bodies[o]
  }

  lemma {:induction false} ReinsertAll(u: map<OutPoint, TxoBody>, bodies: map<OutPoint, TxoBody>, inputs: seq<OutPoint>)
    requires Distinct(inputs) && forall o :: o in inputs ==> o in bodies
    ensures var keys := set o | o in inputs;
      Reinsert(u, bodies, inputs) == Restoring(u + Pick(bodies, keys), bodies - keys)
  {
    if inputs == [] {
      assert u + Pick(bodies, {}) == u;
    } else {
      var front, last := inputs[..|inputs| - 1], inputs[|inputs| - 1];
      ReinsertAll(u, bodies, front);
      var keys := set o | o in front;
      assert (set o | o in inputs) == keys + {last};
      assert last !in keys;
      PickAdd(u, bodies, keys, last);
    }
  }

  lemma PickAdd(u: map<OutPoint, TxoBody>, bodies: map<OutPoint, TxoBody>, keys: set<OutPoint>, last: OutPoint)
    requires last in bodies && last !in keys
    ensures last in bodies - keys
    ensures (u + Pick(bodies, keys))[last := bodies[last]] == u + Pick(bodies, keys + {last})
    ensures (bodies - keys) - {last} == bodies - (keys + {last})
  {
    assert Pick(bodies, keys + {last}) == Pick(bodies, keys)[last := bodies[last]];
  }

  // Every spent output is there, with the stored body, when its turn comes,
  // and no output is there already.
  ghost predicate Chainable(u: map<OutPoint, TxoBody>, bodies: map<OutPoint, TxoBody>, txs: seq<Tx>, k: nat)
    decreases |txs| - k
  {
    k < |txs| ==>
      && FreshTxid(u, txs[k].id)
      && (forall o :: o in Spends(txs, k) ==> o in u && o in bodies && u[o] == bodies[o])
      && (k == 0 ==> forall o :: o in txs[k].inputs ==> o !in u && o.txid != txs[k].id)
      && Chainable(CommitTx(u, bodies, txs[k]), bodies, txs, k + 1)
  }

  lemma CommitUndone(u: map<OutPoint, TxoBody>, bodies: map<OutPoint, TxoBody>, left: map<OutPoint, TxoBody>, txs: seq<Tx>, k: nat)
    requires k < |txs| && Chainable(u, bodies, txs, k) && Distinct(Spends(txs, k))
    requires forall o :: o in Spends(txs, k) ==> o in left && left[o] == bodies[o]
    ensures var q := Reinsert(CommitTx(u, bodies, txs[k]), left, Spends(txs, k));
      && q.Restoring? && DropOutputs(q.utxos, txs[k]) == u
      && q.bodies == left - (set o | o in Spends(txs, k))
  {
    ReinsertAll(CommitTx(u, bodies, txs[k]), left, Spends(txs, k));
    var q := Reinsert(CommitTx(u, bodies, txs[k]), left, Spends(txs, k));
    assert DropOutputs(q.utxos, txs[k]) == u;
  }

  lemma DistinctParts<T>(a: seq<T>, b: seq<T>)
    requires Distinct(a + b)
    ensures Distinct(a) && Distinct(b) && forall x :: x in a ==> x !in b
  {
    forall i, j | 0 <= i < j < |a| ensures a[i] != a[j] {
      assert (a + b)[i] != (a + b)[j];
    }
    forall i, j | 0 <= i < j < |b| ensures b[i] != b[j] {
      assert (a + b)[|a| + i] != (a + b)[|a| + j];
    }
    forall i, j | 0 <= i < |a| && 0 <= j < |b| ensures a[i] != b[j] {
      assert (a + b)[i] != (a + b)[|a| + j];
    }
  }

  /** Undoing a block's transactions, last first, restores the unspent outputs
      and finds a stored body for every input. */
  lemma {:induction false} RestoreUndoes(u: map<OutPoint, TxoBody>, bodies: map<OutPoint, TxoBody>, left: map<OutPoint, TxoBody>,
                                         txs: seq<Tx>, k: nat)
    requires k <= |txs| && Chainable(u, bodies, txs, k) && Distinct(SpendsFrom(txs, k))
    requires forall o :: o in SpendsFrom(txs, k) ==> o in left && o in bodies && left[o] == bodies[o]
    ensures RestoreFrom(CommitFrom(u, bodies, txs, k), left, txs, k)
      == Restoring(u, left - (set o | o in SpendsFrom(txs, k)))
    decreases |txs| - k
  {
    if k < |txs| {
      var mine, later := Spends(txs, k), SpendsFrom(txs, k + 1);
      DistinctParts(mine, later);
      RestoreUndoes(CommitTx(u, bodies, txs[k]), bodies, left, txs, k + 1);
      var left1 := left - (set o | o in later);
      CommitUndone(u, bodies, left1, txs, k);
      assert left1 - (set o | o in mine) == left - (set o | o in SpendsFrom(txs, k));
    }
  }
}
