/** The BRC-20 ledger: deploy, mint, transfer-init and transfer, driven by the
    inscriptions that one transaction moves. */
module Brc20 {
  import opened Chain
  import opened Inscriptions
  import D = Decimal
  import Sums

  datatype Terms = Terms(max: nat, limit: nat, dec: nat, selfMint: bool, deployId: InscriptionId)

  datatype Ledger = Ledger(
    terms: map<Ticker, Terms>,
    supply: map<Ticker, nat>,
    balances: map<(Ticker, Script), nat>)

  // The log of valid actions that is kept for undoing a block.
  datatype Event =
    | Deployed(ticker: Ticker)
    | Minted(ticker: Ticker, amount: nat, script: Script)
    | Transferred(ticker: Ticker, amount: nat, script: Script)
    | Locked(ticker: Ticker, amount: nat, script: Script)

  // The ledger while a transaction is processed, the actions logged so far,
  // and the transfer inscriptions created so far.
  datatype Books = Books(ledger: Ledger, log: seq<Event>, locked: map<InscriptionId, Transfer>)

  // ----- messages

  function Amount(s: Option<string>, dec: nat): Option<nat> {
    if s.None? then None else
      match D.Parse(s.value, dec)
      case Accepted(n) => Some(n)
      case _ => None
  }

  function ParseDec(s: Option<string>): Option<nat> {
    var d := s.GetOr("18");
    if D.AllDigits(d) && d != [] && D.Num(d) <= 18 then Some(D.Num(d)) else None
  }

  function ParseMax(raw: RawMessage, dec: nat): Option<nat> {
    match Amount(raw.max, dec)
    case None => None
    case Some(n) =>
      if n > 0 then Some(n)
      else if raw.selfMint then Some(U64_MAX * D.Pow10(dec))
      else None
  }

  function ParseDeploy(raw: RawMessage, insc: InscriptionId): Option<Terms> {
    if raw.op != Deploy || raw.tickLength != (if raw.selfMint then 5 else 4) then None else
      match ParseDec(raw.dec)
      case None => None
      case Some(dec) =>
        match ParseMax(raw, dec)
        case None => None
        case Some(max) =>
          if raw.lim.None? then Some(Terms(max, max, dec, raw.selfMint, insc)) else
            match Amount(raw.lim, dec)
            case None => None
            case Some(lim) => if lim == 0 then None else Some(Terms(max, lim, dec, raw.selfMint, insc))
  }

  function ParseMint(raw: RawMessage, terms: Terms, parents: set<InscriptionId>): Option<nat> {
    if raw.op != Mint then None else
      match Amount(raw.amt, terms.dec)
      case None => None
      case Some(amt) =>
        if amt > terms.limit || amt == 0 then None
        else if terms.selfMint && terms.deployId !in parents then None
        else Some(amt)
  }

  function ParseTransfer(raw: RawMessage, terms: Terms): Option<nat> {
    if raw.op != TransferInit then None else
      match Amount(raw.amt, terms.dec)
      case None => None
      case Some(amt) => if amt == 0 then None else Some(amt)
  }

  /** Whatever a deploy message says, the maximum supply fits in 128 bits. */
  lemma DeployFits(raw: RawMessage, insc: InscriptionId)
    requires ParseDeploy(raw, insc).Some?
    ensures 0 < ParseDeploy(raw, insc).value.max <= U128_MAX && ParseDeploy(raw, insc).value.dec <= 18
  {
    var dec := ParseDec(raw.dec).value;
    D.ParseNeverPanics(raw.max.value, dec);
    D.Pow10Limit(dec);
  }

  // ----- crediting used transfer inscriptions

  // A transfer inscription spent by the transaction, and the script it left.
  datatype Pending = Pending(transfer: Transfer, sender: Script)

  function PendingIn(body: TxoBody): map<InscriptionId, Pending> {
    map i | i in body.transfers && i in HeldIds(body) :: Pending(body.transfers[i], body.script)
  }

  function HeldIds(body: TxoBody): set<InscriptionId> {
    set k | 0 <= k < |body.inscriptions| :: body.inscriptions[k].1
  }

  function Unused(inputs: seq<Input>): map<InscriptionId, Pending> {
    if inputs == [] then map[] else
      var last := inputs[|inputs| - 1];
      Unused(inputs[..|inputs| - 1]) + if last.Spent? then PendingIn(last.body) else map[]
  }

  function Credit(l: Ledger, ticker: Ticker, script: Script, amount: nat): Ledger {
    l.(balances := l.balances[(ticker, script) := Get(l.balances, (ticker, script)) + amount])
  }

  function Redeem(b: Books, unused: map<InscriptionId, Pending>, id: InscriptionId, receiver: Script): Books {
    if id !in unused then b else
      var t := unused[id].transfer;
      b.(ledger := Credit(b.ledger, t.ticker, receiver, t.amount),
         log := b.log + [Transferred(t.ticker, t.amount, receiver)])
  }

  function RedeemAll(b: Books, unused: map<InscriptionId, Pending>, moves: seq<(InscriptionId, Script)>): Books {
    if moves == [] then b else
      var last := moves[|moves| - 1];
      Redeem(RedeemAll(b, unused, moves[..|moves| - 1]), unused, last.0, last.1)
  }

  function Sender(unused: map<InscriptionId, Pending>, id: InscriptionId): Script {
    if id in unused then unused[id].sender else 0
  }

  // Fee-carried inscriptions go back to their sender.
  function FeeMoves(rest: seq<Flotsam>, unused: map<InscriptionId, Pending>): (moves: seq<(InscriptionId, Script)>)
    ensures |moves| == |rest|
  {
    seq(|rest|, i requires 0 <= i < |rest| => (rest[i].id, Sender(unused, rest[i].id)))
  }

  predicate IsOutput(tx: Tx, o: OutPoint) {
    o.txid == tx.id && o.vout < |tx.outputs|
  }

  // Others go to the script of the output they land on.
  function OutMoves(tx: Tx, outgoing: Outgoing, unused: map<InscriptionId, Pending>): (moves: seq<(InscriptionId, Script)>)
    ensures |moves| == |outgoing|
  {
    seq(|outgoing|, i requires 0 <= i < |outgoing| =>
      (outgoing[i].1,
       if IsOutput(tx, outgoing[i].0.outpoint) then tx.outputs[outgoing[i].0.outpoint.vout].script
       else Sender(unused, outgoing[i].1)))
  }

  // ----- new messages

  // The script of the output that inscription `id` landed on, if any.
  function Landing(tx: Tx, outgoing: Outgoing, id: InscriptionId): Option<Script> {
    if outgoing == [] then None else
      var last := outgoing[|outgoing| - 1];
      if last.1 == id && IsOutput(tx, last.0.outpoint) then Some(tx.outputs[last.0.outpoint.vout].script)
      else Landing(tx, outgoing[..|outgoing| - 1], id)
  }

  // No ticker is minted beyond its maximum.
  predicate WithinMax(l: Ledger) {
    forall t :: t in l.terms ==> Get(l.supply, t) <= l.terms[t].max
  }

  // ... and only deployed tickers are minted at all.
  predicate Sound(l: Ledger) {
    WithinMax(l) && forall t :: t in l.supply && l.supply[t] > 0 ==> t in l.terms
  }

  lemma SupplyWithinMax(l: Ledger, t: Ticker)
    requires Sound(l) && t in l.terms
    ensures Get(l.supply, t) <= l.terms[t].max
  {
  }

  function HandleMint(b: Books, ticker: Ticker, amt: nat, receiver: Option<Script>): (r: Books)
    requires Sound(b.ledger) && ticker in b.ledger.terms
    ensures Sound(r.ledger)
  {
    var l := b.ledger;
    var supply, max := Get(l.supply, ticker), l.terms[ticker].max;
    if supply == max || receiver.None? then b else
      var actual := Min(amt, max - supply);
      b.(ledger := Credit(l.(supply := l.supply[ticker := supply + actual]), ticker, receiver.value, actual),
         log := b.log + [Minted(ticker, actual, receiver.value)])
  }

  function HandleTransfer(b: Books, insc: InscriptionId, ticker: Ticker, amt: nat, receiver: Option<Script>): Books {
    if receiver.None? || (ticker, receiver.value) !in b.ledger.balances then b else
      var balance := b.ledger.balances[(ticker, receiver.value)];
      if balance < amt then b else
        Books(b.ledger.(balances := b.ledger.balances[(ticker, receiver.value) := balance - amt]),
              b.log + [Locked(ticker, amt, receiver.value)],
              b.locked[insc := Transfer(ticker, amt)])
  }

  function Handle(b: Books, insc: InscriptionId, raw: RawMessage, parents: set<InscriptionId>, receiver: Option<Script>): (r: Books)
    requires Sound(b.ledger)
    ensures Sound(r.ledger)
  {
    var deploy, terms := ParseDeploy(raw, insc), b.ledger.terms;
    if deploy.Some? then
      if raw.tick in terms then b else
        b.(ledger := b.ledger.(terms := terms[raw.tick := deploy.value]), log := b.log + [Deployed(raw.tick)])
    else if raw.tick !in terms then b
    else
      var mint := ParseMint(raw, terms[raw.tick], parents);
      if mint.Some? then HandleMint(b, raw.tick, mint.value, receiver) else
        var transfer := ParseTransfer(raw, terms[raw.tick]);
        if transfer.Some? then HandleTransfer(b, insc, raw.tick, transfer.value, receiver) else b
  }

  // ----- sums

  function Share(m: map<(Ticker, Script), nat>, t: Ticker): map<(Ticker, Script), nat> {
    map k | k in m :: if k.0 == t then m[k] else 0
  }

  ghost function Balance(l: Ledger, t: Ticker): nat {
    Sums.Total(Share(l.balances, t))
  }

  function AmountOf(x: Transfer, t: Ticker): nat {
    if x.ticker == t then x.amount else 0
  }

  ghost function LockedSum(m: map<InscriptionId, Transfer>, t: Ticker): nat {
    Sums.Total(map i | i in m :: AmountOf(m[i], t))
  }

  // Setting one balance moves the sum of that ticker, and of no other.
  lemma BalanceUpdate(l: Ledger, l': Ledger, ticker: Ticker, script: Script, v: nat, t: Ticker)
    requires l'.balances == l.balances[(ticker, script) := v]
    ensures ticker == t ==> Balance(l', t) + Get(l.balances, (ticker, script)) == Balance(l, t) + v
    ensures ticker != t ==> Balance(l', t) == Balance(l, t)
  {
    var key := (ticker, script);
    var share := if ticker == t then v else 0;
    Sums.TotalUpdate(Share(l.balances, t), key, share);
    assert Share(l'.balances, t) == Share(l.balances, t)[key := share];
  }

  lemma LockedAdd(m: map<InscriptionId, Transfer>, i: InscriptionId, x: Transfer, t: Ticker)
    requires i !in m
    ensures LockedSum(m[i := x], t) == LockedSum(m, t) + AmountOf(x, t)
  {
    var after := m[i := x];
    var amounts := map j | j in m :: AmountOf(m[j], t);
    Sums.TotalUpdate(amounts, i, AmountOf(x, t));
    assert (map j | j in after :: AmountOf(after[j], t)) == amounts[i := AmountOf(x, t)];
  }

  // A balance is never larger than the sum of all balances.
  lemma BalanceBounds(l: Ledger, ticker: Ticker, script: Script)
    ensures Get(l.balances, (ticker, script)) <= Balance(l, ticker)
  {
    Sums.TotalBounds(Share(l.balances, ticker), (ticker, script));
  }

  // ----- each step keeps supply == balances + locked

  ghost function Held(b: Books, t: Ticker): nat {
    Balance(b.ledger, t) + LockedSum(b.locked, t)
  }

  /** A message changes the supply of a ticker by exactly what it changes the
      sum of its balances and of the amounts locked in new transfers. */
  lemma HandleConserves(b: Books, insc: InscriptionId, raw: RawMessage, parents: set<InscriptionId>, receiver: Option<Script>, t: Ticker)
    requires Sound(b.ledger) && insc !in b.locked
    ensures var r := Handle(b, insc, raw, parents, receiver);
      && Get(r.ledger.supply, t) + Held(b, t) == Get(b.ledger.supply, t) + Held(r, t)
      && r.locked.Keys <= b.locked.Keys + (if receiver.Some? then {insc} else {})
  {
    if ParseDeploy(raw, insc).None? && raw.tick in b.ledger.terms {
      var terms := b.ledger.terms[raw.tick];
      var mint := ParseMint(raw, terms, parents);
      if mint.Some? {
        MintConserves(b, raw.tick, mint.value, receiver, t);
      } else if ParseTransfer(raw, terms).Some? {
        TransferConserves(b, insc, raw.tick, ParseTransfer(raw, terms).value, receiver, t);
      }
    }
  }

  lemma MintConserves(b: Books, ticker: Ticker, amt: nat, receiver: Option<Script>, t: Ticker)
    requires Sound(b.ledger) && ticker in b.ledger.terms
    ensures var r := HandleMint(b, ticker, amt, receiver);
      && Get(r.ledger.supply, t) + Held(b, t) == Get(b.ledger.supply, t) + Held(r, t)
      && r.locked == b.locked
  {
    var l := b.ledger;
    var supply, max := Get(l.supply, ticker), l.terms[ticker].max;
    if supply != max && receiver.Some? {
      BalanceUpdate(l, HandleMint(b, ticker, amt, receiver).ledger, ticker, receiver.value,
                    Get(l.balances, (ticker, receiver.value)) + Min(amt, max - supply), t);
    }
  }

  /** A mint with a receiver takes the supply up to the maximum at most, credits
      the receiver with exactly what it adds, and nobody else. */
  lemma MintClips(b: Books, ticker: Ticker, amt: nat, receiver: Script, key: (Ticker, Script))
    requires Sound(b.ledger) && ticker in b.ledger.terms
    ensures var r := HandleMint(b, ticker, amt, Some(receiver));
      var minted := Get(r.ledger.supply, ticker) - Get(b.ledger.supply, ticker);
      && Get(r.ledger.supply, ticker) == Min(Get(b.ledger.supply, ticker) + amt, b.ledger.terms[ticker].max)
      && Get(r.ledger.balances, key) - Get(b.ledger.balances, key) == (if key == (ticker, receiver) then minted else 0)
  {
    SupplyWithinMax(b.ledger, ticker);
  }

  // The terms a deploy message asks for: its tick has 4 bytes, or 5 for a
  // self-mint; at most 18 decimals, 18 if it does not say; a maximum, where a
  // self-mint may say 0 for none; and a limit, the maximum if it does not say.
  predicate Asks(raw: RawMessage, insc: InscriptionId, t: Terms) {
    var digits, max := raw.dec.GetOr("18"), Amount(raw.max, t.dec);
    && raw.op == Deploy && raw.tickLength == (if raw.selfMint then 5 else 4)
    && digits != [] && D.AllDigits(digits) && t.dec == D.Num(digits) <= 18
    && max.Some? && (if max.value > 0 then t.max == max.value else raw.selfMint && t.max == U64_MAX * D.Pow10(t.dec))
    && (if raw.lim.None? then t.limit == t.max else t.limit > 0 && Amount(raw.lim, t.dec) == Some(t.limit))
    && t.selfMint == raw.selfMint && t.deployId == insc
  }

  /** A deploy message sets the terms it asks for exactly if the ticker is new and
      the message is well-formed; otherwise nothing changes. */
  lemma DeploysExactlyIf(b: Books, insc: InscriptionId, raw: RawMessage, parents: set<InscriptionId>, receiver: Option<Script>)
    requires Sound(b.ledger) && raw.op == Deploy
    ensures var r, l := Handle(b, insc, raw, parents, receiver), b.ledger;
      && (r != b <==> raw.tick !in l.terms && exists t :: Asks(raw, insc, t))
      && (r != b ==>
            && raw.tick in r.ledger.terms && Asks(raw, insc, r.ledger.terms[raw.tick])
            && r.ledger.terms == l.terms[raw.tick := r.ledger.terms[raw.tick]]
            && r.ledger.balances == l.balances && r.ledger.supply == l.supply && r.locked == b.locked)
  {
    hide Amount, D.Num, D.AllDigits, D.Pow10;
    var deploy := ParseDeploy(raw, insc);
    if deploy.Some? {
      assert Asks(raw, insc, deploy.value);
      assert raw.tick !in b.ledger.terms ==> |Handle(b, insc, raw, parents, receiver).log| > |b.log|;
    }
    assert forall t :: Asks(raw, insc, t) ==> deploy == Some(t);
  }

  /** A mint message raises the supply exactly if the ticker is deployed and not
      minted out, the amount is positive and within the limit, a self-mint has
      the deploy inscription as a parent, and there is a receiver. Otherwise
      nothing changes. */
  lemma MintsExactlyIf(b: Books, insc: InscriptionId, raw: RawMessage, parents: set<InscriptionId>, receiver: Option<Script>, key: (Ticker, Script))
    requires Sound(b.ledger) && raw.op == Mint
    ensures var r, l := Handle(b, insc, raw, parents, receiver), b.ledger;
      var minted := Get(r.ledger.supply, raw.tick) - Get(l.supply, raw.tick);
      && (minted > 0 <==>
          && raw.tick in l.terms && Get(l.supply, raw.tick) < l.terms[raw.tick].max && receiver.Some?
          && (l.terms[raw.tick].selfMint ==> l.terms[raw.tick].deployId in parents)
          && var amt := Amount(raw.amt, l.terms[raw.tick].dec); amt.Some? && 0 < amt.value <= l.terms[raw.tick].limit)
      && (if minted > 0 then
            && minted == Min(Amount(raw.amt, l.terms[raw.tick].dec).value, l.terms[raw.tick].max - Get(l.supply, raw.tick))
            && Get(r.ledger.balances, key) - Get(l.balances, key) == (if key == (raw.tick, receiver.value) then minted else 0)
            && r.locked == b.locked && r.ledger.terms == l.terms
          else r == b)
  {
    if raw.tick in b.ledger.terms {
      SupplyWithinMax(b.ledger, raw.tick);
    }
  }

  /** A transfer inscription locks its amount exactly if the ticker is deployed,
      the amount is positive and the receiver's balance covers it. The balance
      falls by what is locked, and otherwise nothing changes. */
  lemma LocksExactlyIf(b: Books, insc: InscriptionId, raw: RawMessage, parents: set<InscriptionId>, receiver: Option<Script>, key: (Ticker, Script))
    requires Sound(b.ledger) && raw.op == TransferInit && insc !in b.locked
    ensures var r, l := Handle(b, insc, raw, parents, receiver), b.ledger;
      && (insc in r.locked <==>
          && raw.tick in l.terms && receiver.Some?
          && var amt := Amount(raw.amt, l.terms[raw.tick].dec);
             amt.Some? && 0 < amt.value <= Get(l.balances, (raw.tick, receiver.value)))
      && (if insc in r.locked then
            var amt := Amount(raw.amt, l.terms[raw.tick].dec).value;
            && r.locked == b.locked[insc := Transfer(raw.tick, amt)]
            && Get(l.balances, key) - Get(r.ledger.balances, key) == (if key == (raw.tick, receiver.value) then amt else 0)
            && r.ledger.supply == l.supply && r.ledger.terms == l.terms
          else r == b)
  {
    hide D.Parse;
    if raw.tick in b.ledger.terms && receiver.Some? {
      var amt := Amount(raw.amt, b.ledger.terms[raw.tick].dec);
      assert amt.Some? && amt.value > 0 ==>
        Handle(b, insc, raw, parents, receiver) == HandleTransfer(b, insc, raw.tick, amt.value, receiver);
    }
  }

  lemma TransferConserves(b: Books, insc: InscriptionId, ticker: Ticker, amt: nat, receiver: Option<Script>, t: Ticker)
    requires insc !in b.locked
    ensures var r := HandleTransfer(b, insc, ticker, amt, receiver);
      && Held(r, t) == Held(b, t) && r.ledger.supply == b.ledger.supply
      && r.locked.Keys <= b.locked.Keys + (if receiver.Some? then {insc} else {})
  {
    if receiver.Some? && (ticker, receiver.value) in b.ledger.balances && amt <= b.ledger.balances[(ticker, receiver.value)] {
      BalanceUpdate(b.ledger, HandleTransfer(b, insc, ticker, amt, receiver).ledger, ticker, receiver.value,
                    Get(b.ledger.balances, (ticker, receiver.value)) - amt, t);
      LockedAdd(b.locked, insc, Transfer(ticker, amt), t);
    }
  }

  lemma RedeemCredits(b: Books, unused: map<InscriptionId, Pending>, id: InscriptionId, receiver: Script, t: Ticker)
    ensures var r := Redeem(b, unused, id, receiver);
      && Balance(r.ledger, t) == Balance(b.ledger, t) + (if id in unused then AmountOf(unused[id].transfer, t) else 0)
      && r.locked == b.locked && r.ledger.supply == b.ledger.supply && r.ledger.terms == b.ledger.terms
  {
    if id in unused {
      var x := unused[id].transfer;
      BalanceUpdate(b.ledger, Redeem(b, unused, id, receiver).ledger, x.ticker, receiver,
                    Get(b.ledger.balances, (x.ticker, receiver)) + x.amount, t);
    }
  }

  ghost function PendingSum(m: map<InscriptionId, Pending>, t: Ticker): nat {
    Sums.Total(map i | i in m :: AmountOf(m[i].transfer, t))
  }

  lemma PendingRemove(m: map<InscriptionId, Pending>, i: InscriptionId, t: Ticker)
    requires i in m
    ensures PendingSum(m, t) == PendingSum(m - {i}, t) + AmountOf(m[i].transfer, t)
  {
    var amounts := map j | j in m :: AmountOf(m[j].transfer, t);
    Sums.TotalRemove(amounts, i);
    var rest := m - {i};
    assert (map j | j in rest :: AmountOf(rest[j].transfer, t)) == amounts - {i};
  }

  function MoveIds(moves: seq<(InscriptionId, Script)>): set<InscriptionId> {
    set k | 0 <= k < |moves| :: moves[k].0
  }

  function Restrict<V>(m: map<InscriptionId, V>, ids: set<InscriptionId>): map<InscriptionId, V> {
    map i | i in m && i in ids :: m[i]
  }

  /** Moves that name every inscription at most once credit exactly the amounts
      of the pending transfers they name. */
  lemma {:induction false} RedeemAllCredits(b: Books, unused: map<InscriptionId, Pending>, moves: seq<(InscriptionId, Script)>, t: Ticker)
    requires Sums.DistinctFirsts(moves)
    ensures var r := RedeemAll(b, unused, moves);
      && Balance(r.ledger, t) == Balance(b.ledger, t) + PendingSum(Restrict(unused, MoveIds(moves)), t)
      && r.locked == b.locked && r.ledger.supply == b.ledger.supply && r.ledger.terms == b.ledger.terms
  {
    if moves == [] {
      assert Restrict(unused, MoveIds(moves)) == map[];
    } else {
      var front, last := moves[..|moves| - 1], moves[|moves| - 1];
      RedeemAllCredits(b, unused, front, t);
      RedeemCredits(RedeemAll(b, unused, front), unused, last.0, last.1, t);
      RestrictSnoc(unused, moves, t);
    }
  }

  lemma RestrictSnoc(unused: map<InscriptionId, Pending>, moves: seq<(InscriptionId, Script)>, t: Ticker)
    requires moves != [] && Sums.DistinctFirsts(moves)
    ensures var front, last := moves[..|moves| - 1], moves[|moves| - 1];
      PendingSum(Restrict(unused, MoveIds(moves)), t) == PendingSum(Restrict(unused, MoveIds(front)), t)
        + (if last.0 in unused then AmountOf(unused[last.0].transfer, t) else 0)
  {
    hide MoveIds, Sums.DistinctFirsts, AmountOf, PendingSum;
    var front, last := moves[..|moves| - 1], moves[|moves| - 1];
    MoveIdsSnoc(front, last);
    assert front + [last] == moves;
    var now, before := Restrict(unused, MoveIds(moves)), Restrict(unused, MoveIds(front));
    if last.0 in unused {
      PendingRemove(now, last.0, t);
      assert now - {last.0} == before;
    } else {
      assert now == before;
    }
  }

  lemma MoveIdsSnoc(front: seq<(InscriptionId, Script)>, last: (InscriptionId, Script))
    ensures MoveIds(front + [last]) == MoveIds(front) + {last.0}
    ensures Sums.DistinctFirsts(front + [last]) ==> last.0 !in MoveIds(front)
  {
    var moves := front + [last];
    assert moves[|front|] == last;
    assert forall k :: 0 <= k < |front| ==> moves[k] == front[k];
    forall id | id in MoveIds(moves) ensures id in MoveIds(front) + {last.0} {
      var k :| 0 <= k < |moves| && moves[k].0 == id;
    }
    forall id | id in MoveIds(front) ensures id in MoveIds(moves) {
      var k :| 0 <= k < |front| && front[k].0 == id;
      assert moves[k].0 == id;
    }
  }

  // ----- the whole transaction

  // The messages of new, bound inscriptions, in order.
  function Messages(tx: Tx, fs: seq<Flotsam>): seq<(InscriptionId, RawMessage)> {
    if fs == [] then [] else
      var f := fs[|fs| - 1];
      Messages(tx, fs[..|fs| - 1]) +
      if f.origin.New? && !f.origin.unbound && f.id.index < |tx.envelopes| && tx.envelopes[f.id.index].message.Some?
      then [(f.id, tx.envelopes[f.id.index].message.value)] else []
  }

  function HandleAll(b: Books, tx: Tx, outgoing: Outgoing, parents: set<InscriptionId>, msgs: seq<(InscriptionId, RawMessage)>): (r: Books)
    requires Sound(b.ledger)
    ensures Sound(r.ledger)
  {
    if msgs == [] then b else
      var last := msgs[|msgs| - 1];
      Handle(HandleAll(b, tx, outgoing, parents, msgs[..|msgs| - 1]), last.0, last.1, parents, Landing(tx, outgoing, last.0))
  }

  function IdSet(fs: seq<Flotsam>): set<InscriptionId> {
    set k | 0 <= k < |fs| :: fs[k].id
  }

  // Every spent transfer inscription with the script it is credited to.
  function Moves(tx: Tx, inputs: seq<Input>, outgoing: Outgoing, rest: seq<Flotsam>): seq<(InscriptionId, Script)> {
    (if IsCoinbase(inputs) then [] else FeeMoves(rest, Unused(inputs))) + OutMoves(tx, outgoing, Unused(inputs))
  }

  lemma RedeemAllSound(b: Books, unused: map<InscriptionId, Pending>, moves: seq<(InscriptionId, Script)>)
    requires Sound(b.ledger)
    ensures Sound(RedeemAll(b, unused, moves).ledger)
  {
  }

  function IndexLedger(l: Ledger, tx: Tx, inputs: seq<Input>, outgoing: Outgoing, rest: seq<Flotsam>): (b: Books)
    requires Sound(l)
    ensures Sound(b.ledger)
  {
    var floating := Floating(tx, inputs, |inputs|);
    RedeemAllSound(Books(l, [], map[]), Unused(inputs), Moves(tx, inputs, outgoing, rest));
    HandleAll(RedeemAll(Books(l, [], map[]), Unused(inputs), Moves(tx, inputs, outgoing, rest)),
              tx, outgoing, IdSet(floating), Messages(tx, floating))
  }

  // ----- which messages are handled, and for whom

  // Envelope number p is bound to a sat, so its message counts.
  predicate Counts(tx: Tx, inputs: seq<Input>, p: nat)
    requires p < |tx.envelopes|
  {
    var e := tx.envelopes[p];
    && e.input < |inputs| && inputs[e.input].Value() > 0 && !e.unrecognizedEvenField
    && e.message.Some?
  }

  // The messages of the first n envelopes, in order.
  function Announced(tx: Tx, inputs: seq<Input>, n: nat): seq<(InscriptionId, RawMessage)>
    requires n <= |tx.envelopes|
  {
    if n == 0 then [] else
      Announced(tx, inputs, n - 1) +
      if Counts(tx, inputs, n - 1) then [(InscriptionId(tx.id, n - 1), tx.envelopes[n - 1].message.value)] else []
  }

  lemma {:induction false} MessagesConcat(tx: Tx, a: seq<Flotsam>, b: seq<Flotsam>)
    ensures Messages(tx, a + b) == Messages(tx, a) + Messages(tx, b)
  {
    if b == [] {
      assert a + b == a;
    } else {
      assert (a + b)[..|a + b| - 1] == a + b[..|b| - 1];
      MessagesConcat(tx, a, b[..|b| - 1]);
    }
  }

  lemma {:induction false} OldSaysNothing(tx: Tx, held: seq<(nat, InscriptionId)>, base: nat)
    ensures Messages(tx, OldFlotsam(held, base)) == []
  {
    if held != [] {
      OldSaysNothing(tx, held[..|held| - 1], base);
      assert OldFlotsam(held, base)[..|held| - 1] == OldFlotsam(held[..|held| - 1], base);
    }
  }

  lemma {:induction false} NewSays(tx: Tx, inputs: seq<Input>, from: nat, to: nat, k: nat)
    requires from <= to <= |tx.envelopes| && k < |inputs| && inputs[k].Spent?
    requires forall p :: from <= p < to ==> tx.envelopes[p].input == k
    ensures Announced(tx, inputs, to)
      == Announced(tx, inputs, from) + Messages(tx, NewFlotsams(tx, from, to, InputValue(inputs[..k]), inputs[k].body.value))
  {
    hide InputValue;
    var base, value := InputValue(inputs[..k]), inputs[k].body.value;
    var news := NewFlotsams(tx, from, to, base, value);
    if from < to {
      NewSays(tx, inputs, from, to - 1, k);
      assert news[..|news| - 1] == NewFlotsams(tx, from, to - 1, base, value);
      assert news[|news| - 1] == NewFlotsam(tx, to - 1, base, value);
    }
  }

  lemma {:induction false} MessagesUpTo(tx: Tx, inputs: seq<Input>, n: nat)
    requires n <= |inputs|
    ensures Messages(tx, Floating(tx, inputs, n)) == Announced(tx, inputs, EnvelopesBefore(tx, inputs, n))
  {
    if n > 0 {
      MessagesUpTo(tx, inputs, n - 1);
      if inputs[n - 1].Spent? {
        EnvelopeEndIs(tx.envelopes, EnvelopesBefore(tx, inputs, n - 1), n - 1);
        MessagesStep(tx, inputs, n - 1, Floating(tx, inputs, n - 1), EnvelopesBefore(tx, inputs, n - 1), EnvelopesBefore(tx, inputs, n));
      }
    }
  }

  lemma MessagesStep(tx: Tx, inputs: seq<Input>, k: nat, before: seq<Flotsam>, from: nat, to: nat)
    requires k < |inputs| && inputs[k].Spent? && from <= to <= |tx.envelopes|
    requires forall p :: from <= p < to ==> tx.envelopes[p].input == k
    requires Messages(tx, before) == Announced(tx, inputs, from)
    ensures var base, body := InputValue(inputs[..k]), inputs[k].body;
      Messages(tx, before + OldFlotsam(body.inscriptions, base) + NewFlotsams(tx, from, to, base, body.value)) == Announced(tx, inputs, to)
  {
    hide Messages, Announced, InputValue, NewFlotsam;
    var base, body := InputValue(inputs[..k]), inputs[k].body;
    MessagesConcat(tx, before + OldFlotsam(body.inscriptions, base), NewFlotsams(tx, from, to, base, body.value));
    MessagesConcat(tx, before, OldFlotsam(body.inscriptions, base));
    OldSaysNothing(tx, body.inscriptions, base);
    NewSays(tx, inputs, from, to, k);
  }

  // Where an inscription lands, told by the list of those that leave.
  lemma {:induction false} LandingIs(tx: Tx, outgoing: Outgoing, id: InscriptionId, script: Script)
    requires Sums.Distinct(OutIds(outgoing))
    ensures Landing(tx, outgoing, id) == Some(script) <==> LandsWith(tx, outgoing, id, script)
    ensures Landing(tx, outgoing, id).Some? <==> Lands(tx, outgoing, id)
  {
    if outgoing != [] {
      var n := |outgoing| - 1;
      var front := outgoing[..n];
      assert OutIds(front) == OutIds(outgoing)[..n];
      LandingIs(tx, front, id, script);
      if outgoing[n].1 == id {
        forall i | 0 <= i < n ensures outgoing[i].1 != id {
          assert OutIds(outgoing)[i] != OutIds(outgoing)[n];
        }
      } else {
        assert forall i :: 0 <= i < n ==> front[i] == outgoing[i];
      }
    }
  }

  // Messages handled one after the other, each for the script its inscription
  // lands with.
  ghost predicate HandledBy(b: Books, tx: Tx, outgoing: Outgoing, parents: set<InscriptionId>,
                            msgs: seq<(InscriptionId, RawMessage)>, r: Books)
    requires Sound(b.ledger)
    decreases |msgs|
  {
    if msgs == [] then r == b else
      exists to: Option<Script> ::
        && (to.Some? <==> Lands(tx, outgoing, msgs[0].0)) && (to.Some? ==> LandsWith(tx, outgoing, msgs[0].0, to.value))
        && HandledBy(Handle(b, msgs[0].0, msgs[0].1, parents, to), tx, outgoing, parents, msgs[1..], r)
  }

  lemma {:induction false} HandleAllFirst(b: Books, tx: Tx, outgoing: Outgoing, parents: set<InscriptionId>, msgs: seq<(InscriptionId, RawMessage)>)
    requires Sound(b.ledger) && msgs != []
    ensures HandleAll(b, tx, outgoing, parents, msgs)
      == HandleAll(Handle(b, msgs[0].0, msgs[0].1, parents, Landing(tx, outgoing, msgs[0].0)), tx, outgoing, parents, msgs[1..])
  {
    hide Handle, Landing, Sound;
    if |msgs| > 1 {
      HandleAllFirst(b, tx, outgoing, parents, msgs[..|msgs| - 1]);
      assert msgs[..|msgs| - 1][1..] == msgs[1..][..|msgs| - 2];
    }
  }

  lemma {:induction false} HandleAllHandles(b: Books, tx: Tx, outgoing: Outgoing, parents: set<InscriptionId>, msgs: seq<(InscriptionId, RawMessage)>)
    requires Sound(b.ledger) && Sums.Distinct(OutIds(outgoing))
    ensures HandledBy(b, tx, outgoing, parents, msgs, HandleAll(b, tx, outgoing, parents, msgs))
    decreases |msgs|
  {
    hide Handle, Landing, Lands, LandsWith, Sound;
    if msgs != [] {
      var to := Landing(tx, outgoing, msgs[0].0);
      LandingIs(tx, outgoing, msgs[0].0, to.GetOr(0));
      HandleAllFirst(b, tx, outgoing, parents, msgs);
      HandleAllHandles(Handle(b, msgs[0].0, msgs[0].1, parents, to), tx, outgoing, parents, msgs[1..]);
    }
  }

  lemma {:induction false} MessagesDistinct(tx: Tx, fs: seq<Flotsam>)
    requires Sums.Distinct(IdsOf(fs))
    ensures Sums.DistinctFirsts(Messages(tx, fs))
    ensures forall k :: 0 <= k < |Messages(tx, fs)| ==> Messages(tx, fs)[k].0 in IdSet(fs)
  {
    if fs != [] {
      var front, last := fs[..|fs| - 1], fs[|fs| - 1];
      assert forall i :: 0 <= i < |front| ==> IdsOf(front)[i] == IdsOf(fs)[i];
      MessagesDistinct(tx, front);
      forall k | 0 <= k < |front| ensures front[k].id != last.id {
        assert IdsOf(fs)[k] == front[k].id && IdsOf(fs)[|fs| - 1] == last.id;
      }
      assert forall id :: id in IdSet(front) ==> id in IdSet(fs) by {
        forall id | id in IdSet(front) ensures id in IdSet(fs) {
          var k :| 0 <= k < |front| && front[k].id == id;
          assert fs[k].id == id;
        }
      }
      assert fs[|fs| - 1].id in IdSet(fs);
    }
  }

  lemma {:induction false} HandleAllConserves(b: Books, tx: Tx, outgoing: Outgoing, parents: set<InscriptionId>,
                                              msgs: seq<(InscriptionId, RawMessage)>, t: Ticker)
    requires Sound(b.ledger) && b.locked == map[] && Sums.DistinctFirsts(msgs)
    ensures var r := HandleAll(b, tx, outgoing, parents, msgs);
      && Get(r.ledger.supply, t) + Held(b, t) == Get(b.ledger.supply, t) + Held(r, t)
      && forall i :: i in r.locked ==> Landing(tx, outgoing, i).Some? && exists k :: 0 <= k < |msgs| && msgs[k].0 == i
  {
    if msgs != [] {
      var front, last := msgs[..|msgs| - 1], msgs[|msgs| - 1];
      HandleAllConserves(b, tx, outgoing, parents, front, t);
      var before := HandleAll(b, tx, outgoing, parents, front);
      HandleConserves(before, last.0, last.1, parents, Landing(tx, outgoing, last.0), t);
      var r := HandleAll(b, tx, outgoing, parents, msgs);
      forall i | i in r.locked ensures Landing(tx, outgoing, i).Some? && exists k :: 0 <= k < |msgs| && msgs[k].0 == i {
        if i == last.0 {
          assert msgs[|msgs| - 1].0 == i;
        } else {
          var k :| 0 <= k < |front| && front[k].0 == i;
          assert msgs[k].0 == i;
        }
      }
    }
  }

  // ----- what the inputs had locked

  // Transfers are recorded only for inscriptions the output holds.
  predicate TransfersHeld(body: TxoBody) {
    body.transfers.Keys <= HeldIds(body)
  }

  predicate AllTransfersHeld(inputs: seq<Input>) {
    forall i :: 0 <= i < |inputs| && inputs[i].Spent? ==> TransfersHeld(inputs[i].body)
  }

  ghost function LockedInputs(inputs: seq<Input>, t: Ticker): nat {
    if inputs == [] then 0 else
      var last := inputs[|inputs| - 1];
      LockedInputs(inputs[..|inputs| - 1], t) + if last.Spent? then LockedSum(last.body.transfers, t) else 0
  }

  lemma PendingInSum(body: TxoBody, t: Ticker)
    requires TransfersHeld(body)
    ensures PendingSum(PendingIn(body), t) == LockedSum(body.transfers, t)
  {
    assert (map i | i in PendingIn(body) :: AmountOf(PendingIn(body)[i].transfer, t))
        == (map i | i in body.transfers :: AmountOf(body.transfers[i], t));
  }

  lemma PendingUnion(a: map<InscriptionId, Pending>, b: map<InscriptionId, Pending>, t: Ticker)
    requires a.Keys !! b.Keys
    ensures PendingSum(a + b, t) == PendingSum(a, t) + PendingSum(b, t)
  {
    var x, y, z := map i | i in a :: AmountOf(a[i].transfer, t), map i | i in b :: AmountOf(b[i].transfer, t), a + b;
    assert (map i | i in z :: AmountOf(z[i].transfer, t)) == x + y;
    Sums.TotalUnion(x, y);
  }

  lemma FloatingGrows(tx: Tx, inputs: seq<Input>, k: nat)
    requires 0 < k <= |inputs| && Sums.Distinct(IdsOf(Floating(tx, inputs, k)))
    ensures Sums.Distinct(IdsOf(Floating(tx, inputs, k - 1)))
    ensures IdSet(Floating(tx, inputs, k - 1)) <= IdSet(Floating(tx, inputs, k))
    ensures inputs[k - 1].Spent? ==>
      HeldIds(inputs[k - 1].body) !! IdSet(Floating(tx, inputs, k - 1)) && HeldIds(inputs[k - 1].body) <= IdSet(Floating(tx, inputs, k))
  {
    var front, all := Floating(tx, inputs, k - 1), Floating(tx, inputs, k);
    assert |front| <= |all| && forall i :: 0 <= i < |front| ==> front[i] == all[i] && IdsOf(front)[i] == IdsOf(all)[i];
    forall id | id in IdSet(front) ensures id in IdSet(all) {
      var i :| 0 <= i < |front| && front[i].id == id;
      assert all[i].id == id;
    }
    if inputs[k - 1].Spent? {
      var held := inputs[k - 1].body.inscriptions;
      assert forall j :: 0 <= j < |held| ==> all[|front| + j].id == held[j].1;
      forall id | id in HeldIds(inputs[k - 1].body) ensures id in IdSet(all) && id !in IdSet(front) {
        var j :| 0 <= j < |held| && held[j].1 == id;
        assert IdsOf(all)[|front| + j] == id;
        assert forall i :: 0 <= i < |front| ==> IdsOf(all)[i] != id;
      }
    }
  }

  lemma {:induction false} UnusedSum(tx: Tx, inputs: seq<Input>, k: nat, t: Ticker)
    requires k <= |inputs| && Sums.Distinct(IdsOf(Floating(tx, inputs, k)))
    requires AllTransfersHeld(inputs)
    ensures PendingSum(Unused(inputs[..k]), t) == LockedInputs(inputs[..k], t)
    ensures Unused(inputs[..k]).Keys <= IdSet(Floating(tx, inputs, k))
  {
    if k > 0 {
      FloatingGrows(tx, inputs, k);
      UnusedSum(tx, inputs, k - 1, t);
      assert inputs[..k][..k - 1] == inputs[..k - 1];
      UnusedStep(inputs[..k], t, IdSet(Floating(tx, inputs, k - 1)));
    }
  }

  lemma UnusedStep(inputs: seq<Input>, t: Ticker, earlier: set<InscriptionId>)
    requires inputs != [] && AllTransfersHeld(inputs)
    requires Unused(inputs[..|inputs| - 1]).Keys <= earlier
    requires inputs[|inputs| - 1].Spent? ==> HeldIds(inputs[|inputs| - 1].body) !! earlier
    ensures var last := inputs[|inputs| - 1];
      && PendingSum(Unused(inputs), t) == PendingSum(Unused(inputs[..|inputs| - 1]), t)
        + (if last.Spent? then LockedSum(last.body.transfers, t) else 0)
      && Unused(inputs).Keys <= earlier + (if last.Spent? then HeldIds(last.body) else {})
  {
    var last, before := inputs[|inputs| - 1], Unused(inputs[..|inputs| - 1]);
    if last.Spent? {
      PendingInSum(last.body, t);
      PendingUnion(before, PendingIn(last.body), t);
    } else {
      assert before + map[] == before;
    }
  }

  // ----- what the outputs hold locked

  // The inscriptions that land on output `v`, in order.
  function Landed(tx: Tx, outgoing: Outgoing, v: nat): seq<(nat, InscriptionId)> {
    if outgoing == [] then [] else
      var last := outgoing[|outgoing| - 1];
      Landed(tx, outgoing[..|outgoing| - 1], v) +
      if last.0.outpoint == OutPoint(tx.id, v) then [(last.0.offset, last.1)] else []
  }

  function LandedIds(tx: Tx, outgoing: Outgoing, v: nat): set<InscriptionId> {
    set k | 0 <= k < |outgoing| && outgoing[k].0.outpoint == OutPoint(tx.id, v) :: outgoing[k].1
  }

  /** An output is recorded with exactly the inscriptions that land on it, each on
      the sat it lands on. */
  lemma {:induction false} LandedAre(tx: Tx, outgoing: Outgoing, v: nat, o: nat, id: InscriptionId)
    ensures (o, id) in Landed(tx, outgoing, v) <==>
      exists k :: 0 <= k < |outgoing| && outgoing[k] == (SatPoint(OutPoint(tx.id, v), o), id)
  {
    if outgoing != [] {
      var n := |outgoing| - 1;
      var front, last := outgoing[..n], outgoing[n];
      LandedAre(tx, front, v, o, id);
      if k :| 0 <= k < |front| && front[k] == (SatPoint(OutPoint(tx.id, v), o), id) {
        assert outgoing[k] == front[k];
      }
      if k :| 0 <= k < |outgoing| && outgoing[k] == (SatPoint(OutPoint(tx.id, v), o), id) {
        assert k < n ==> front[k] == outgoing[k];
      }
      assert last == (SatPoint(OutPoint(tx.id, v), o), id) <==> last.0.outpoint == OutPoint(tx.id, v) && (last.0.offset, last.1) == (o, id);
    }
  }

  lemma {:induction false} LandedContents(tx: Tx, outgoing: Outgoing, v: nat)
    ensures (set k | 0 <= k < |Landed(tx, outgoing, v)| :: Landed(tx, outgoing, v)[k].1) == LandedIds(tx, outgoing, v)
  {
    if outgoing != [] {
      var front, last := outgoing[..|outgoing| - 1], outgoing[|outgoing| - 1];
      LandedContents(tx, front, v);
      var a, b := Landed(tx, front, v), Landed(tx, outgoing, v);
      forall id | id in LandedIds(tx, outgoing, v) ensures exists k :: 0 <= k < |b| && b[k].1 == id {
        var k :| 0 <= k < |outgoing| && outgoing[k].0.outpoint == OutPoint(tx.id, v) && outgoing[k].1 == id;
        if k < |front| {
          assert front[k].1 in LandedIds(tx, front, v);
          var j :| 0 <= j < |a| && a[j].1 == id;
          assert b[j].1 == id;
        } else {
          assert b[|b| - 1].1 == id;
        }
      }
      forall k | 0 <= k < |b| ensures b[k].1 in LandedIds(tx, outgoing, v) {
        if k < |a| {
          assert a[k].1 in LandedIds(tx, front, v);
          var j :| 0 <= j < |front| && front[j].0.outpoint == OutPoint(tx.id, v) && front[j].1 == b[k].1;
          assert outgoing[j].1 == b[k].1;
        } else {
          assert outgoing[|outgoing| - 1].1 == b[k].1;
        }
      }
    }
  }

  // The new transfer inscriptions recorded with output `v`.
  function NewTransfers(tx: Tx, outgoing: Outgoing, v: nat, locked: map<InscriptionId, Transfer>): map<InscriptionId, Transfer> {
    Restrict(locked, LandedIds(tx, outgoing, v))
  }

  ghost function LockedOutputs(tx: Tx, outgoing: Outgoing, locked: map<InscriptionId, Transfer>, n: nat, t: Ticker): nat {
    if n == 0 then 0 else
      LockedOutputs(tx, outgoing, locked, n - 1, t) + LockedSum(NewTransfers(tx, outgoing, n - 1, locked), t)
  }

  function LandedBelow(tx: Tx, outgoing: Outgoing, n: nat): set<InscriptionId> {
    set k | 0 <= k < |outgoing| && outgoing[k].0.outpoint.txid == tx.id && outgoing[k].0.outpoint.vout < n :: outgoing[k].1
  }

  lemma LandedBelowStep(tx: Tx, outgoing: Outgoing, n: nat)
    requires Sums.Distinct(OutIds(outgoing)) && n > 0
    ensures LandedBelow(tx, outgoing, n) == LandedBelow(tx, outgoing, n - 1) + LandedIds(tx, outgoing, n - 1)
    ensures LandedBelow(tx, outgoing, n - 1) !! LandedIds(tx, outgoing, n - 1)
  {
    var below, here := LandedBelow(tx, outgoing, n - 1), LandedIds(tx, outgoing, n - 1);
    forall id | id in below ensures id !in here {
      var j :| 0 <= j < |outgoing| && outgoing[j].0.outpoint.txid == tx.id && outgoing[j].0.outpoint.vout < n - 1 && outgoing[j].1 == id;
      forall k | 0 <= k < |outgoing| && outgoing[k].1 == id ensures k == j {
        assert OutIds(outgoing)[k] == OutIds(outgoing)[j];
      }
    }
  }

  lemma LockedUnion(m: map<InscriptionId, Transfer>, a: set<InscriptionId>, b: set<InscriptionId>, t: Ticker)
    requires a !! b
    ensures LockedSum(Restrict(m, a + b), t) == LockedSum(Restrict(m, a), t) + LockedSum(Restrict(m, b), t)
  {
    var x, y, z := Restrict(m, a), Restrict(m, b), Restrict(m, a + b);
    var p, q := map i | i in x :: AmountOf(x[i], t), map i | i in y :: AmountOf(y[i], t);
    assert (map i | i in z :: AmountOf(z[i], t)) == p + q;
    Sums.TotalUnion(p, q);
  }

  lemma {:induction false} LockedOutputsSum(tx: Tx, outgoing: Outgoing, locked: map<InscriptionId, Transfer>, n: nat, t: Ticker)
    requires Sums.Distinct(OutIds(outgoing))
    ensures LockedOutputs(tx, outgoing, locked, n, t) == LockedSum(Restrict(locked, LandedBelow(tx, outgoing, n)), t)
  {
    if n == 0 {
      assert Restrict(locked, LandedBelow(tx, outgoing, 0)) == map[];
    } else {
      LockedOutputsSum(tx, outgoing, locked, n - 1, t);
      LandedBelowStep(tx, outgoing, n);
      LockedUnion(locked, LandedBelow(tx, outgoing, n - 1), LandedIds(tx, outgoing, n - 1), t);
    }
  }

  lemma {:induction false} LandingIsLanded(tx: Tx, outgoing: Outgoing, id: InscriptionId)
    requires Landing(tx, outgoing, id).Some?
    ensures id in LandedBelow(tx, outgoing, |tx.outputs|)
  {
    var front, last := outgoing[..|outgoing| - 1], outgoing[|outgoing| - 1];
    if last.1 == id && IsOutput(tx, last.0.outpoint) {
      assert outgoing[|outgoing| - 1].1 == id;
    } else {
      LandingIsLanded(tx, front, id);
      var k :| 0 <= k < |front| && front[k].0.outpoint.txid == tx.id && front[k].0.outpoint.vout < |tx.outputs| && front[k].1 == id;
      assert outgoing[k].1 == id;
    }
  }

  // ----- the books of one transaction

  ghost predicate NoDuplicates(ids: multiset<InscriptionId>) {
    forall id :: ids[id] <= 1
  }

  lemma PartOfBag(a: multiset<InscriptionId>, b: multiset<InscriptionId>)
    requires NoDuplicates(a + b)
    ensures NoDuplicates(a) && NoDuplicates(b)
  {
    forall id ensures a[id] <= 1 && b[id] <= 1 {
      assert (a + b)[id] == a[id] + b[id];
    }
  }

  lemma BagIsDistinct(ids: seq<InscriptionId>)
    requires NoDuplicates(multiset(ids))
    ensures Sums.Distinct(ids)
  {
    forall i, j | 0 <= i < j < |ids| ensures ids[i] != ids[j] {
      assert ids == ids[..j] + ids[j..];
      assert multiset(ids)[ids[j]] == multiset(ids[..j])[ids[j]] + multiset(ids[j..])[ids[j]];
      assert ids[i] in ids[..j] && ids[j] in ids[j..];
    }
  }

  function MoveSeq(moves: seq<(InscriptionId, Script)>): (ids: seq<InscriptionId>)
    ensures |ids| == |moves|
  {
    seq(|moves|, i requires 0 <= i < |moves| => moves[i].0)
  }

  // The flotsam that no output takes.
  function Rest(tx: Tx, inputs: seq<Input>, carried: seq<Flotsam>): seq<Flotsam> {
    Beyond(tx, Queue(tx, inputs, carried))
  }

  lemma MoveSeqConcat(a: seq<(InscriptionId, Script)>, b: seq<(InscriptionId, Script)>)
    ensures MoveSeq(a + b) == MoveSeq(a) + MoveSeq(b)
  {
  }

  lemma MoveSeqParts(tx: Tx, outgoing: Outgoing, rest: seq<Flotsam>, unused: map<InscriptionId, Pending>)
    ensures MoveSeq(FeeMoves(rest, unused)) == IdsOf(rest)
    ensures MoveSeq(OutMoves(tx, outgoing, unused)) == OutIds(outgoing)
  {
  }

  lemma BagCommutes(a: seq<InscriptionId>, b: seq<InscriptionId>)
    ensures multiset(a + b) == multiset(b + a)
  {
    BagConcat(a, b);
    BagConcat(b, a);
  }

  lemma MoveSeqBag(tx: Tx, inputs: seq<Input>, reg: Registry, reward: nat, carried: seq<Flotsam>)
    requires Funded(tx, inputs, reward)
    ensures var m := MoveInscriptions(tx, inputs, reg, reward, carried);
      multiset(MoveSeq(Moves(tx, inputs, m.settled.outgoing, Rest(tx, inputs, carried))))
        == multiset(IdsOf(Queue(tx, inputs, carried)))
  {
    var out := MoveInscriptions(tx, inputs, reg, reward, carried).settled.outgoing;
    var rest, unused := Rest(tx, inputs, carried), Unused(inputs);
    MoveSeqParts(tx, out, rest, unused);
    if IsCoinbase(inputs) {
      CoinbaseExactlyOnce(tx, inputs, reg, reward, carried);
      assert Moves(tx, inputs, out, rest) == OutMoves(tx, out, unused);
    } else {
      OrdinaryExactlyOnce(tx, inputs, reg, reward, carried);
      MoveSeqConcat(FeeMoves(rest, unused), OutMoves(tx, out, unused));
      BagCommutes(IdsOf(rest), OutIds(out));
    }
  }

  lemma MovesDistinct(moves: seq<(InscriptionId, Script)>)
    requires NoDuplicates(multiset(MoveSeq(moves)))
    ensures Sums.DistinctFirsts(moves)
  {
    BagIsDistinct(MoveSeq(moves));
    assert forall i :: 0 <= i < |moves| ==> MoveSeq(moves)[i] == moves[i].0;
  }

  lemma IdsInMoves(fs: seq<Flotsam>, moves: seq<(InscriptionId, Script)>)
    requires multiset(IdsOf(fs)) <= multiset(MoveSeq(moves))
    ensures IdSet(fs) <= MoveIds(moves)
  {
    forall id | id in IdSet(fs) ensures id in MoveIds(moves) {
      var k :| 0 <= k < |fs| && fs[k].id == id;
      assert IdsOf(fs)[k] == id;
      assert id in multiset(IdsOf(fs));
      assert id in multiset(MoveSeq(moves));
      var j :| 0 <= j < |moves| && MoveSeq(moves)[j] == id;
      assert moves[j].0 == id;
    }
  }

  lemma MovesCover(tx: Tx, inputs: seq<Input>, reg: Registry, reward: nat, carried: seq<Flotsam>)
    requires Funded(tx, inputs, reward)
    requires NoDuplicates(multiset(IdsOf(Floating(tx, inputs, |inputs|))) + multiset(IdsOf(carried)))
    ensures var m := MoveInscriptions(tx, inputs, reg, reward, carried);
      var moves := Moves(tx, inputs, m.settled.outgoing, Rest(tx, inputs, carried));
      && Sums.DistinctFirsts(moves) && IdSet(Floating(tx, inputs, |inputs|)) <= MoveIds(moves)
  {
    var out := MoveInscriptions(tx, inputs, reg, reward, carried).settled.outgoing;
    var own, fees := multiset(IdsOf(Floating(tx, inputs, |inputs|))), multiset(IdsOf(carried));
    MoveSeqBag(tx, inputs, reg, reward, carried);
    QueueIds(tx, inputs, carried);
    PartOfBag(own, fees);
    var moves := Moves(tx, inputs, out, Rest(tx, inputs, carried));
    assert multiset(MoveSeq(moves)) == own + if IsCoinbase(inputs) then fees else multiset{};
    MovesDistinct(moves);
    IdsInMoves(Floating(tx, inputs, |inputs|), moves);
  }

  // The ledger once every spent transfer inscription has been credited.
  function Redeemed(l: Ledger, tx: Tx, inputs: seq<Input>, outgoing: Outgoing, rest: seq<Flotsam>): Books {
    RedeemAll(Books(l, [], map[]), Unused(inputs), Moves(tx, inputs, outgoing, rest))
  }

  lemma UnusedCovered(tx: Tx, inputs: seq<Input>, reg: Registry, reward: nat, carried: seq<Flotsam>, t: Ticker)
    requires Funded(tx, inputs, reward) && AllTransfersHeld(inputs)
    requires NoDuplicates(multiset(IdsOf(Floating(tx, inputs, |inputs|))) + multiset(IdsOf(carried)))
    ensures var out := MoveInscriptions(tx, inputs, reg, reward, carried).settled.outgoing;
      Restrict(Unused(inputs), MoveIds(Moves(tx, inputs, out, Rest(tx, inputs, carried)))) == Unused(inputs)
    ensures PendingSum(Unused(inputs), t) == LockedInputs(inputs, t)
  {
    IdsDistinct(tx, inputs, reg, reward, carried);
    MovesCover(tx, inputs, reg, reward, carried);
    UnusedSum(tx, inputs, |inputs|, t);
    assert inputs[..|inputs|] == inputs;
  }

  /** Every spent transfer inscription is credited exactly once: the balances
      of a ticker grow by what the inputs had locked. */
  lemma CreditedOnce(l: Ledger, tx: Tx, inputs: seq<Input>, reg: Registry, reward: nat, carried: seq<Flotsam>, t: Ticker)
    requires Sound(l) && Funded(tx, inputs, reward) && AllTransfersHeld(inputs)
    requires NoDuplicates(multiset(IdsOf(Floating(tx, inputs, |inputs|))) + multiset(IdsOf(carried)))
    ensures var out := MoveInscriptions(tx, inputs, reg, reward, carried).settled.outgoing;
      var b := Redeemed(l, tx, inputs, out, Rest(tx, inputs, carried));
      && Balance(b.ledger, t) == Balance(l, t) + LockedInputs(inputs, t)
      && b.ledger.supply == l.supply && b.ledger.terms == l.terms && b.locked == map[] && Sound(b.ledger)
  {
    var out := MoveInscriptions(tx, inputs, reg, reward, carried).settled.outgoing;
    var start, moves := Books(l, [], map[]), Moves(tx, inputs, out, Rest(tx, inputs, carried));
    MovesCover(tx, inputs, reg, reward, carried);
    UnusedCovered(tx, inputs, reg, reward, carried, t);
    RedeemAllCredits(start, Unused(inputs), moves, t);
    RedeemAllSound(start, Unused(inputs), moves);
  }

  // ----- who is credited

  // The inscription leaves on an output of the transaction with this script.
  predicate LandsWith(tx: Tx, outgoing: Outgoing, id: InscriptionId, script: Script) {
    exists k :: 0 <= k < |outgoing| && outgoing[k].1 == id
      && outgoing[k].0.outpoint.txid == tx.id && outgoing[k].0.outpoint.vout < |tx.outputs|
      && tx.outputs[outgoing[k].0.outpoint.vout].script == script
  }

  predicate Lands(tx: Tx, outgoing: Outgoing, id: InscriptionId) {
    exists k :: 0 <= k < |outgoing| && outgoing[k].1 == id
      && outgoing[k].0.outpoint.txid == tx.id && outgoing[k].0.outpoint.vout < |tx.outputs|
  }

  // A transfer inscription that `sender` held belongs to `script` from now on.
  predicate GoesTo(tx: Tx, outgoing: Outgoing, id: InscriptionId, sender: Script, script: Script) {
    LandsWith(tx, outgoing, id, script) || (!Lands(tx, outgoing, id) && sender == script)
  }

  // What `script` is due from one spent output: the amounts of the transfers
  // that go to it.
  ghost function DueFrom(body: TxoBody, tx: Tx, outgoing: Outgoing, t: Ticker, script: Script): nat {
    Sums.Total(map i | i in body.transfers ::
      if GoesTo(tx, outgoing, i, body.script, script) then AmountOf(body.transfers[i], t) else 0)
  }

  ghost function Due(inputs: seq<Input>, tx: Tx, outgoing: Outgoing, t: Ticker, script: Script): nat {
    if inputs == [] then 0 else
      var last := inputs[|inputs| - 1];
      Due(inputs[..|inputs| - 1], tx, outgoing, t, script)
      + if last.Spent? then DueFrom(last.body, tx, outgoing, t, script) else 0
  }

  // The pending transfers that go to `script`.
  function Sent(m: map<InscriptionId, Pending>, tx: Tx, outgoing: Outgoing, script: Script): map<InscriptionId, Pending> {
    map i | i in m && GoesTo(tx, outgoing, i, m[i].sender, script) :: m[i]
  }

  lemma SentIn(body: TxoBody, tx: Tx, outgoing: Outgoing, t: Ticker, script: Script)
    requires TransfersHeld(body)
    ensures PendingSum(Sent(PendingIn(body), tx, outgoing, script), t) == DueFrom(body, tx, outgoing, t, script)
  {
    hide GoesTo;
    var sent := Sent(PendingIn(body), tx, outgoing, script);
    var all := map i | i in body.transfers ::
      if GoesTo(tx, outgoing, i, body.script, script) then AmountOf(body.transfers[i], t) else 0;
    var mine := map i | i in sent :: AmountOf(sent[i].transfer, t);
    assert forall i :: i in mine ==> i in all && mine[i] == all[i];
    assert forall i :: i in all && i !in mine ==> all[i] == 0;
    Sums.TotalOfPart(mine, all);
  }

  lemma {:induction false} SentSum(tx: Tx, inputs: seq<Input>, k: nat, out: Outgoing, t: Ticker, script: Script)
    requires k <= |inputs| && Sums.Distinct(IdsOf(Floating(tx, inputs, k))) && AllTransfersHeld(inputs)
    ensures PendingSum(Sent(Unused(inputs[..k]), tx, out, script), t) == Due(inputs[..k], tx, out, t, script)
  {
    hide GoesTo, DueFrom, PendingSum, PendingIn, Sent, HeldIds;
    if k == 0 {
      NothingSent(tx, out, t, script);
    } else {
      FloatingGrows(tx, inputs, k);
      SentSum(tx, inputs, k - 1, out, t, script);
      UnusedSum(tx, inputs, k - 1, t);
      assert inputs[..k][..k - 1] == inputs[..k - 1];
      SentStep(inputs[..k], tx, out, t, script, IdSet(Floating(tx, inputs, k - 1)));
    }
  }

  lemma SentStep(inputs: seq<Input>, tx: Tx, out: Outgoing, t: Ticker, script: Script, earlier: set<InscriptionId>)
    requires inputs != [] && AllTransfersHeld(inputs)
    requires Unused(inputs[..|inputs| - 1]).Keys <= earlier
    requires inputs[|inputs| - 1].Spent? ==> HeldIds(inputs[|inputs| - 1].body) !! earlier
    ensures var last := inputs[|inputs| - 1];
      PendingSum(Sent(Unused(inputs), tx, out, script), t) == PendingSum(Sent(Unused(inputs[..|inputs| - 1]), tx, out, script), t)
        + (if last.Spent? then DueFrom(last.body, tx, out, t, script) else 0)
  {
    hide GoesTo, DueFrom, PendingSum, PendingIn, Sent, HeldIds;
    var last, before := inputs[|inputs| - 1], Unused(inputs[..|inputs| - 1]);
    if last.Spent? {
      SentIn(last.body, tx, out, t, script);
      PendingHeld(last.body);
      SentUnion(before, PendingIn(last.body), tx, out, t, script);
    } else {
      assert before + map[] == before;
    }
  }

  lemma NothingSent(tx: Tx, out: Outgoing, t: Ticker, script: Script)
    ensures PendingSum(Sent(map[], tx, out, script), t) == 0
  {
    assert Sent(map[], tx, out, script) == map[];
  }

  lemma PendingHeld(body: TxoBody)
    ensures PendingIn(body).Keys <= HeldIds(body)
  {
  }

  lemma SentUnion(a: map<InscriptionId, Pending>, b: map<InscriptionId, Pending>, tx: Tx, out: Outgoing, t: Ticker, script: Script)
    requires a.Keys !! b.Keys
    ensures PendingSum(Sent(a + b, tx, out, script), t)
      == PendingSum(Sent(a, tx, out, script), t) + PendingSum(Sent(b, tx, out, script), t)
  {
    hide GoesTo, PendingSum;
    assert Sent(a + b, tx, out, script) == Sent(a, tx, out, script) + Sent(b, tx, out, script);
    PendingUnion(Sent(a, tx, out, script), Sent(b, tx, out, script), t);
  }

  // Moves to `script` are those of the ids in `mine`.
  predicate MovesTo(moves: seq<(InscriptionId, Script)>, unused: map<InscriptionId, Pending>, mine: set<InscriptionId>, script: Script) {
    forall k :: 0 <= k < |moves| && moves[k].0 in unused ==> (moves[k].1 == script <==> moves[k].0 in mine)
  }

  lemma {:induction false} RedeemAllAt(b: Books, unused: map<InscriptionId, Pending>, moves: seq<(InscriptionId, Script)>,
                                       t: Ticker, script: Script, mine: set<InscriptionId>)
    requires Sums.DistinctFirsts(moves) && MovesTo(moves, unused, mine, script)
    ensures Get(RedeemAll(b, unused, moves).ledger.balances, (t, script))
      == Get(b.ledger.balances, (t, script)) + PendingSum(Restrict(Restrict(unused, mine), MoveIds(moves)), t)
  {
    if moves == [] {
      assert Restrict(Restrict(unused, mine), MoveIds(moves)) == map[];
    } else {
      hide PendingSum;
      var front, last := moves[..|moves| - 1], moves[|moves| - 1];
      RedeemAllAt(b, unused, front, t, script, mine);
      RestrictSnoc(Restrict(unused, mine), moves, t);
    }
  }

  lemma OutMoveGoes(tx: Tx, out: Outgoing, unused: map<InscriptionId, Pending>, k: nat, script: Script)
    requires Sums.Distinct(OutIds(out)) && k < |out| && out[k].1 in unused
    ensures OutMoves(tx, out, unused)[k].1 == script <==> GoesTo(tx, out, out[k].1, unused[out[k].1].sender, script)
  {
    var id := out[k].1;
    forall i | 0 <= i < |out| && out[i].1 == id ensures i == k {
      assert OutIds(out)[i] == OutIds(out)[k];
    }
  }

  lemma FeeMoveGoes(tx: Tx, out: Outgoing, unused: map<InscriptionId, Pending>, id: InscriptionId, script: Script)
    requires id !in OutIds(out) && id in unused
    ensures Sender(unused, id) == script <==> GoesTo(tx, out, id, unused[id].sender, script)
  {
    forall i | 0 <= i < |out| ensures out[i].1 != id {
      assert OutIds(out)[i] == out[i].1;
    }
  }

  lemma MovesGo(tx: Tx, inputs: seq<Input>, out: Outgoing, rest: seq<Flotsam>, script: Script)
    requires Sums.Distinct(OutIds(out)) && Sums.DistinctFirsts(Moves(tx, inputs, out, rest))
    ensures MovesTo(Moves(tx, inputs, out, rest), Unused(inputs), Sent(Unused(inputs), tx, out, script).Keys, script)
  {
    hide GoesTo;
    var moves, unused := Moves(tx, inputs, out, rest), Unused(inputs);
    var fees := if IsCoinbase(inputs) then [] else FeeMoves(rest, unused);
    assert moves == fees + OutMoves(tx, out, unused);
    forall k | 0 <= k < |moves| && moves[k].0 in unused
      ensures moves[k].1 == script <==> GoesTo(tx, out, moves[k].0, unused[moves[k].0].sender, script)
    {
      if k < |fees| {
        forall i | 0 <= i < |out| ensures OutIds(out)[i] != moves[k].0 {
          assert moves[|fees| + i] == OutMoves(tx, out, unused)[i];
        }
        FeeMoveGoes(tx, out, unused, moves[k].0, script);
      } else {
        OutMoveGoes(tx, out, unused, k - |fees|, script);
      }
    }
  }

  /** Every balance after redeeming: the old one plus the amounts of exactly those
      spent transfers that land on an output with that script, or that land on
      none and were held by an input of that script. */
  lemma CreditedTo(l: Ledger, tx: Tx, inputs: seq<Input>, reg: Registry, reward: nat, carried: seq<Flotsam>, t: Ticker, script: Script)
    requires Funded(tx, inputs, reward) && AllTransfersHeld(inputs)
    requires NoDuplicates(multiset(IdsOf(Floating(tx, inputs, |inputs|))) + multiset(IdsOf(carried)))
    ensures var out := MoveInscriptions(tx, inputs, reg, reward, carried).settled.outgoing;
      Get(Redeemed(l, tx, inputs, out, Rest(tx, inputs, carried)).ledger.balances, (t, script))
        == Get(l.balances, (t, script)) + Due(inputs, tx, out, t, script)
  {
    hide GoesTo, Due, PendingSum, MoveInscriptions, Funded, Floating, Rest, Moves, NoDuplicates, IdsOf, RedeemAll;
    var out := MoveInscriptions(tx, inputs, reg, reward, carried).settled.outgoing;
    var start, moves := Books(l, [], map[]), Moves(tx, inputs, out, Rest(tx, inputs, carried));
    var unused, mine := Unused(inputs), Sent(Unused(inputs), tx, out, script);
    IdsDistinct(tx, inputs, reg, reward, carried);
    MovesCover(tx, inputs, reg, reward, carried);
    UnusedCovered(tx, inputs, reg, reward, carried, t);
    MovesGo(tx, inputs, out, Rest(tx, inputs, carried), script);
    RedeemAllAt(start, unused, moves, t, script, mine.Keys);
    SentSum(tx, inputs, |inputs|, out, t, script);
    assert inputs[..|inputs|] == inputs;
    RestrictKeys(unused, MoveIds(moves));
    assert Restrict(Restrict(unused, mine.Keys), MoveIds(moves)) == mine;
  }

  // An inscription takes part in the transaction: a spent output holds it, or
  // one of the envelopes read reveals it.
  predicate TakesPart(tx: Tx, inputs: seq<Input>, n: nat, id: InscriptionId)
    requires n <= |inputs|
  {
    || (id.txid == tx.id && id.index < EnvelopesBefore(tx, inputs, n))
    || exists k :: 0 <= k < n && inputs[k].Spent? && id in HeldIds(inputs[k].body)
  }

  lemma {:induction false} FloatingTakesPart(tx: Tx, inputs: seq<Input>, n: nat, id: InscriptionId)
    requires n <= |inputs|
    ensures id in IdSet(Floating(tx, inputs, n)) <==> TakesPart(tx, inputs, n, id)
  {
    if n > 0 {
      FloatingTakesPart(tx, inputs, n - 1, id);
      if inputs[n - 1].Spent? {
        var body, base := inputs[n - 1].body, InputValue(inputs[..n - 1]);
        var from, to := EnvelopesBefore(tx, inputs, n - 1), EnvelopesBefore(tx, inputs, n);
        var olds, news := OldFlotsam(body.inscriptions, base), NewFlotsams(tx, from, to, base, body.value);
        IdSetConcat(Floating(tx, inputs, n - 1) + olds, news);
        IdSetConcat(Floating(tx, inputs, n - 1), olds);
        OldIds(body, base, id);
        NewIdsAre(tx, from, to, base, body.value, id);
        hide Floating, OldFlotsam, NewFlotsams, IdSet, HeldIds, EnvelopesBefore, InputValue;
        TakesPartNext(tx, inputs, n, id);
      }
    }
  }

  lemma IdSetConcat(a: seq<Flotsam>, b: seq<Flotsam>)
    ensures IdSet(a + b) == IdSet(a) + IdSet(b)
  {
    assert forall k :: 0 <= k < |a| ==> (a + b)[k] == a[k];
    assert forall k :: 0 <= k < |b| ==> (a + b)[|a| + k] == b[k];
  }

  lemma OldIds(body: TxoBody, base: nat, id: InscriptionId)
    ensures id in IdSet(OldFlotsam(body.inscriptions, base)) <==> id in HeldIds(body)
  {
    var olds := OldFlotsam(body.inscriptions, base);
    assert forall k :: 0 <= k < |olds| ==> olds[k].id == body.inscriptions[k].1;
  }

  lemma NewIdsAre(tx: Tx, from: nat, to: nat, base: nat, value: nat, id: InscriptionId)
    requires from <= to <= |tx.envelopes|
    ensures id in IdSet(NewFlotsams(tx, from, to, base, value)) <==> id.txid == tx.id && from <= id.index < to
  {
    var news := NewFlotsams(tx, from, to, base, value);
    NewFlotsamsAre(tx, from, to, base, value);
    assert forall k :: 0 <= k < |news| ==> news[k] in news;
    if id.txid == tx.id && from <= id.index < to {
      var j := id.index - from;
      assert news[j] == NewFlotsam(tx, from + j, base, value);
      assert news[j].id == id;
    }
  }

  lemma TakesPartNext(tx: Tx, inputs: seq<Input>, n: nat, id: InscriptionId)
    requires 0 < n <= |inputs| && inputs[n - 1].Spent?
    ensures TakesPart(tx, inputs, n, id) <==>
      || TakesPart(tx, inputs, n - 1, id) || id in HeldIds(inputs[n - 1].body)
      || (id.txid == tx.id && EnvelopesBefore(tx, inputs, n - 1) <= id.index < EnvelopesBefore(tx, inputs, n))
  {
    hide HeldIds, EnvelopeEnd;
  }

  /** After redeeming, exactly the messages of the envelopes read that are bound
      to a sat are handled, in the order of the envelopes, each for the script its
      inscription lands with; whatever takes part may be the parent of a self-mint. */
  lemma LedgerHandles(l: Ledger, tx: Tx, inputs: seq<Input>, reg: Registry, reward: nat, carried: seq<Flotsam>) returns (parents: set<InscriptionId>)
    requires Sound(l) && Funded(tx, inputs, reward)
    requires NoDuplicates(multiset(IdsOf(Floating(tx, inputs, |inputs|))) + multiset(IdsOf(carried)))
    ensures forall id :: id in parents <==> TakesPart(tx, inputs, |inputs|, id)
    ensures var out, rest := MoveInscriptions(tx, inputs, reg, reward, carried).settled.outgoing, Rest(tx, inputs, carried);
      var redeemed := Redeemed(l, tx, inputs, out, rest);
      && Sound(redeemed.ledger)
      && HandledBy(redeemed, tx, out, parents, Announced(tx, inputs, EnvelopesBefore(tx, inputs, |inputs|)), IndexLedger(l, tx, inputs, out, rest))
  {
    hide Sound, MoveInscriptions, Funded, Rest, Moves, NoDuplicates, IdsOf, RedeemAll, HandledBy, HandleAll, TakesPart, Messages, Announced, IdSet, Floating;
    var out, rest := MoveInscriptions(tx, inputs, reg, reward, carried).settled.outgoing, Rest(tx, inputs, carried);
    parents := IdSet(Floating(tx, inputs, |inputs|));
    forall id: InscriptionId ensures id in parents <==> TakesPart(tx, inputs, |inputs|, id) {
      FloatingTakesPart(tx, inputs, |inputs|, id);
    }
    IdsDistinct(tx, inputs, reg, reward, carried);
    MessagesUpTo(tx, inputs, |inputs|);
    RedeemAllSound(Books(l, [], map[]), Unused(inputs), Moves(tx, inputs, out, rest));
    HandleAllHandles(Redeemed(l, tx, inputs, out, rest), tx, out, parents, Messages(tx, Floating(tx, inputs, |inputs|)));
  }

  lemma RestrictKeys<V>(m: map<InscriptionId, V>, ids: set<InscriptionId>)
    requires Restrict(m, ids) == m
    ensures m.Keys <= ids
  {
    forall i | i in m ensures i in ids {
      assert i in Restrict(m, ids);
    }
  }

  lemma LockedOnOutputs(tx: Tx, out: Outgoing, locked: map<InscriptionId, Transfer>, t: Ticker)
    requires Sums.Distinct(OutIds(out))
    requires forall i :: i in locked ==> Landing(tx, out, i).Some?
    ensures LockedOutputs(tx, out, locked, |tx.outputs|, t) == LockedSum(locked, t)
    ensures locked.Keys <= LandedBelow(tx, out, |tx.outputs|)
  {
    forall i | i in locked ensures i in LandedBelow(tx, out, |tx.outputs|) {
      LandingIsLanded(tx, out, i);
    }
    LockedOutputsSum(tx, out, locked, |tx.outputs|, t);
    assert Restrict(locked, LandedBelow(tx, out, |tx.outputs|)) == locked;
  }

  /** For every ticker: new supply + old balances + amounts locked in the inputs
      == old supply + new balances + amounts locked in the outputs. */
  lemma LedgerConserved(l: Ledger, tx: Tx, inputs: seq<Input>, reg: Registry, reward: nat, carried: seq<Flotsam>, t: Ticker)
    requires Sound(l) && Funded(tx, inputs, reward) && AllTransfersHeld(inputs)
    requires NoDuplicates(multiset(IdsOf(Floating(tx, inputs, |inputs|))) + multiset(IdsOf(carried)))
    ensures var out := MoveInscriptions(tx, inputs, reg, reward, carried).settled.outgoing;
      var b := IndexLedger(l, tx, inputs, out, Rest(tx, inputs, carried));
      && Get(b.ledger.supply, t) + Balance(l, t) + LockedInputs(inputs, t)
        == Get(l.supply, t) + Balance(b.ledger, t) + LockedOutputs(tx, out, b.locked, |tx.outputs|, t)
      && b.locked.Keys <= LandedBelow(tx, out, |tx.outputs|)
  {
    hide Sound, Funded, AllTransfersHeld, NoDuplicates, MoveInscriptions, Floating, Rest, HandleAll, Messages, IdSet, IdsOf,
      Balance, LockedInputs, LockedOutputs, LandedBelow, Sums.Distinct, Sums.DistinctFirsts;
    var out, floating := MoveInscriptions(tx, inputs, reg, reward, carried).settled.outgoing, Floating(tx, inputs, |inputs|);
    CreditedOnce(l, tx, inputs, reg, reward, carried, t);
    IdsDistinct(tx, inputs, reg, reward, carried);
    MessagesDistinct(tx, floating);
    var redeemed := Redeemed(l, tx, inputs, out, Rest(tx, inputs, carried));
    HandleAllConserves(redeemed, tx, out, IdSet(floating), Messages(tx, floating), t);
    LockedOnOutputs(tx, out, HandleAll(redeemed, tx, out, IdSet(floating), Messages(tx, floating)).locked, t);
  }

  lemma IdsDistinct(tx: Tx, inputs: seq<Input>, reg: Registry, reward: nat, carried: seq<Flotsam>)
    requires Funded(tx, inputs, reward)
    requires NoDuplicates(multiset(IdsOf(Floating(tx, inputs, |inputs|))) + multiset(IdsOf(carried)))
    ensures Sums.Distinct(IdsOf(Floating(tx, inputs, |inputs|)))
    ensures Sums.Distinct(OutIds(MoveInscriptions(tx, inputs, reg, reward, carried).settled.outgoing))
  {
    var m := MoveInscriptions(tx, inputs, reg, reward, carried);
    ExactlyOnce(tx, inputs, reg, reward, carried);
    PartOfBag(multiset(IdsOf(Floating(tx, inputs, |inputs|))), multiset(IdsOf(carried)));
    PartOfBag(multiset(OutIds(m.settled.outgoing)), multiset(IdsOf(m.carried)));
    BagIsDistinct(IdsOf(Floating(tx, inputs, |inputs|)));
    BagIsDistinct(OutIds(m.settled.outgoing));
  }

  // ----- the source's loops

  class LedgerProcessor {
    var terms: map<Ticker, Terms>
    var supply: map<Ticker, nat>
    var balances: map<(Ticker, Script), nat>

    ghost function View(): Ledger reads this {
      Ledger(terms, supply, balances)
    }

    constructor (l: Ledger)
      ensures View() == l
    {
      terms, supply, balances := l.terms, l.supply, l.balances;
    }

    method CollectUnused(inputs: seq<Input>) returns (unused: map<InscriptionId, Pending>)
      ensures unused == Unused(inputs)
    {
      unused := map[];
      for k := 0 to |inputs|
        invariant unused == Unused(inputs[..k])
      {
        assert inputs[..k + 1][..k] == inputs[..k];
        if inputs[k].Spent? {
          unused := unused + PendingIn(inputs[k].body);
        } else {
          assert unused + map[] == unused;
        }
      }
      assert inputs[..|inputs|] == inputs;
    }

    // Credits each spent transfer inscription to the script it moved to.
    method RedeemMoves(unused: map<InscriptionId, Pending>, moves: seq<(InscriptionId, Script)>) returns (log: seq<Event>)
      modifies this
      ensures Books(View(), log, map[]) == RedeemAll(Books(old(View()), [], map[]), unused, moves)
    {
      log := [];
      for k := 0 to |moves|
        invariant Books(View(), log, map[]) == RedeemAll(Books(old(View()), [], map[]), unused, moves[..k])
      {
        assert moves[..k + 1][..k] == moves[..k];
        var (id, receiver) := moves[k];
        if id in unused {
          var x := unused[id].transfer;
          var balance := Get(balances, (x.ticker, receiver));
          balances := balances[(x.ticker, receiver) := balance + x.amount];
          log := log + [Transferred(x.ticker, x.amount, receiver)];
        }
      }
      assert moves[..|moves|] == moves;
    }

    method MintTo(ticker: Ticker, amt: nat, receiver: Option<Script>, log0: seq<Event>, ghost locked: map<InscriptionId, Transfer>)
      returns (log: seq<Event>)
      requires Sound(View()) && ticker in terms
      modifies this
      ensures Sound(View())
      ensures Books(View(), log, locked) == HandleMint(Books(old(View()), log0, locked), ticker, amt, receiver)
    {
      hide Sound, WithinMax;
      SupplyWithinMax(View(), ticker);
      ghost var after := HandleMint(Books(View(), log0, locked), ticker, amt, receiver);
      log := log0;
      var minted, max := Get(supply, ticker), terms[ticker].max;
      if minted != max && receiver.Some? {
        var amount := Min(amt, max - minted);
        var balance := Get(balances, (ticker, receiver.value));
        supply := supply[ticker := minted + amount];
        balances := balances[(ticker, receiver.value) := balance + amount];
        log := log + [Minted(ticker, amount, receiver.value)];
      }
      assert after == Books(View(), log, locked);
    }

    method LockFor(insc: InscriptionId, ticker: Ticker, amt: nat, receiver: Option<Script>,
                   log0: seq<Event>, locked0: map<InscriptionId, Transfer>)
      returns (log: seq<Event>, locked: map<InscriptionId, Transfer>)
      modifies this
      ensures Books(View(), log, locked) == HandleTransfer(Books(old(View()), log0, locked0), insc, ticker, amt, receiver)
    {
      log, locked := log0, locked0;
      if receiver.Some? && (ticker, receiver.value) in balances {
        var balance := balances[(ticker, receiver.value)];
        if balance >= amt {
          balances := balances[(ticker, receiver.value) := balance - amt];
          locked := locked[insc := Transfer(ticker, amt)];
          log := log + [Locked(ticker, amt, receiver.value)];
        }
      }
    }

    method HandleOne(insc: InscriptionId, raw: RawMessage, parents: set<InscriptionId>, receiver: Option<Script>,
                     log0: seq<Event>, locked0: map<InscriptionId, Transfer>)
      returns (log: seq<Event>, locked: map<InscriptionId, Transfer>)
      requires Sound(View())
      modifies this
      ensures Books(View(), log, locked) == Handle(Books(old(View()), log0, locked0), insc, raw, parents, receiver)
    {
      log, locked := log0, locked0;
      var deploy := ParseDeploy(raw, insc);
      if deploy.Some? {
        if raw.tick !in terms {
          terms := terms[raw.tick := deploy.value];
          log := log + [Deployed(raw.tick)];
        }
      } else if raw.tick in terms {
        var mint := ParseMint(raw, terms[raw.tick], parents);
        var transfer := ParseTransfer(raw, terms[raw.tick]);
        if mint.Some? {
          log := MintTo(raw.tick, mint.value, receiver, log, locked);
        } else if transfer.Some? {
          log, locked := LockFor(insc, raw.tick, transfer.value, receiver, log, locked);
        }
      }
    }

    method HandleMessages(tx: Tx, outgoing: Outgoing, parents: set<InscriptionId>, msgs: seq<(InscriptionId, RawMessage)>, log0: seq<Event>)
      returns (log: seq<Event>, locked: map<InscriptionId, Transfer>)
      requires Sound(View())
      modifies this
      ensures Sound(View())
      ensures Books(View(), log, locked) == HandleAll(Books(old(View()), log0, map[]), tx, outgoing, parents, msgs)
    {
      log, locked := log0, map[];
      for k := 0 to |msgs|
        invariant Sound(View()) && Sound(old(View()))
        invariant Books(View(), log, locked) == HandleAll(Books(old(View()), log0, map[]), tx, outgoing, parents, msgs[..k])
      {
        assert msgs[..k + 1][..k] == msgs[..k];
        log, locked := HandleOne(msgs[k].0, msgs[k].1, parents, Landing(tx, outgoing, msgs[k].0), log, locked);
      }
      assert msgs[..|msgs|] == msgs;
    }

    /** The BRC-20 part of indexing one transaction, as specified. */
    method Index(tx: Tx, inputs: seq<Input>, outgoing: Outgoing, rest: seq<Flotsam>, floating: seq<Flotsam>) returns (b: Books)
      requires Sound(View()) && floating == Floating(tx, inputs, |inputs|)
      modifies this
      ensures b == IndexLedger(old(View()), tx, inputs, outgoing, rest)
      ensures View() == b.ledger
    {
      var unused := CollectUnused(inputs);
      RedeemAllSound(Books(View(), [], map[]), unused, Moves(tx, inputs, outgoing, rest));
      var fees := if inputs != [] && inputs[0].Subsidy? then [] else FeeMoves(rest, unused);
      var log := RedeemMoves(unused, fees + OutMoves(tx, outgoing, unused));
      var locked;
      log, locked := HandleMessages(tx, outgoing, IdSet(floating), Messages(tx, floating), log);
      b := Books(Ledger(terms, supply, balances), log, locked);
    }
  }
}
