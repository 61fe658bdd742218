/** Rune allocation for one transaction: minting, etching, edicts, the pointer
    and burning, and the proof that every rune is conserved. */
module Runes {
  import opened Chain

  datatype RuneTerms = RuneTerms(
    name: nat,
    amount: Option<nat>,
    cap: Option<nat>,
    start: Option<nat>,
    end: Option<nat>)

  // name -> id, id -> terms, id -> number of mints
  datatype Tables = Tables(ids: map<nat, RuneId>, terms: map<RuneId, RuneTerms>, mints: map<RuneId, nat>)

  datatype Indexed = Indexed(
    tables: Tables,
    outputs: seq<map<RuneId, nat>>,
    burned: map<RuneId, nat>,
    etched: Option<RuneId>,
    minted: bool)

  // Runes of the transaction still to be placed, and those placed per output.
  datatype Pools = Pools(unallocated: map<RuneId, nat>, placed: seq<map<RuneId, nat>>)

  const DEFAULT_ID := RuneId(0, 0)

  // What Runestone::decipher guarantees about the transaction it was run on.
  predicate WellFormed(tx: Tx) {
    tx.artifact.Some? && tx.artifact.value.Runestone? ==>
      var stone := tx.artifact.value;
      && (forall e :: e in stone.edicts ==> e.output <= |tx.outputs|)
      && (stone.pointer.Some? ==> stone.pointer.value < |tx.outputs|)
  }

  // ----- inputs

  function AddRunes(acc: map<RuneId, nat>, runes: map<RuneId, nat>): map<RuneId, nat> {
    map id | id in acc.Keys + runes.Keys :: Get(acc, id) + Get(runes, id)
  }

  function Unallocated(bodies: seq<TxoBody>): map<RuneId, nat> {
    if bodies == [] then map[] else
      AddRunes(Unallocated(bodies[..|bodies| - 1]), bodies[|bodies| - 1].runes)
  }

  function Credit(m: map<RuneId, nat>, id: RuneId, amount: nat): map<RuneId, nat> {
    m[id := Get(m, id) + amount]
  }

  // ----- minting and etching

  // The amount minted for `id` at `height`, or None when the mint is closed.
  function MintAmount(t: Tables, id: RuneId, height: nat): Option<nat> {
    if id !in t.terms then None else
      var terms := t.terms[id];
      if terms.start.Some? && height < terms.start.value then None
      else if terms.end.Some? && terms.end.value <= height then None
      else if terms.cap.GetOr(0) <= Get(t.mints, id) then None
      else Some(terms.amount.GetOr(0))
  }

  function MintedId(t: Tables, artifact: Artifact, height: nat): Option<RuneId> {
    if artifact.mint.Some? && MintAmount(t, artifact.mint.value, height).Some? then artifact.mint else None
  }

  function AfterMint(t: Tables, artifact: Artifact, height: nat): Tables {
    match MintedId(t, artifact, height)
    case None => t
    case Some(id) => t.(mints := t.mints[id := Get(t.mints, id) + 1])
  }

  // Names from here on are reserved for runes etched without one.
  const RESERVED: nat := 6402364363415443603228541259936211926

  function ReservedName(height: nat, txIndex: nat): (name: nat)
    ensures name >= RESERVED
  {
    RESERVED + height * 0x1_0000_0000 + txIndex
  }

  // The name etched by the transaction, or None when nothing is etched.
  function EtchedName(t: Tables, tx: Tx, txIndex: nat, height: nat): Option<nat>
    requires tx.artifact.Some?
  {
    match tx.artifact.value
    case Runestone(_, None, _, _) => None
    case Runestone(_, Some(etching), _, _) =>
      if etching.rune.None? then Some(ReservedName(height, txIndex))
      else if tx.nameAccepted && etching.rune.value < RESERVED && etching.rune.value !in t.ids then etching.rune
      else None
    case Cenotaph(None, _) => None
    case Cenotaph(Some(name), _) =>
      if tx.nameAccepted && name < RESERVED && name !in t.ids then Some(name) else None
  }

  function SaturatingAdd(a: nat, b: nat): nat {
    Min(a + b, U64_MAX)
  }

  // Relative and absolute bounds combined: the stricter one counts.
  function Bound(relative: Option<nat>, absolute: Option<nat>, later: bool): Option<nat> {
    if relative.Some? && absolute.Some? then
      Some(if later then Max(relative.value, absolute.value) else Min(relative.value, absolute.value))
    else if relative.Some? then relative
    else absolute
  }

  function Offset(height: nat, offset: Option<nat>): Option<nat> {
    if offset.Some? then Some(SaturatingAdd(height, offset.value)) else None
  }

  function NewTerms(artifact: Artifact, name: nat, height: nat): RuneTerms {
    match artifact
    case Runestone(_, Some(Etching(_, _, Some(t))), _, _) =>
      RuneTerms(name, t.amount, t.cap,
                Bound(Offset(height, t.offsetStart), t.heightStart, true),
                Bound(Offset(height, t.offsetEnd), t.heightEnd, false))
    case _ => RuneTerms(name, None, None, None, None)
  }

  function AfterEtch(t: Tables, artifact: Artifact, id: RuneId, name: nat, height: nat): Tables {
    t.(ids := t.ids[name := id], terms := t.terms[id := NewTerms(artifact, name, height)])
  }

  // Heights at which all bounds of the terms allow a mint, when the rune was
  // etched at height `etched`; the end is exclusive.
  predicate Opens(m: MintTerms, etched: nat, height: nat) {
    && (m.heightStart.Some? ==> m.heightStart.value <= height)
    && (m.offsetStart.Some? ==> SaturatingAdd(etched, m.offsetStart.value) <= height)
    && (m.heightEnd.Some? ==> height < m.heightEnd.value)
    && (m.offsetEnd.Some? ==> height < SaturatingAdd(etched, m.offsetEnd.value))
  }

  /** A rune can be minted exactly while the absolute and the relative bounds of
      its terms all hold and the cap is not reached; one etched without terms
      never. Etching changes no other rune. */
  lemma MintWindow(t: Tables, artifact: Artifact, id: RuneId, name: nat, etched: nat, height: nat, other: RuneId)
    ensures var after := AfterEtch(t, artifact, id, name, etched);
      && (other != id ==> MintAmount(after, other, height) == MintAmount(t, other, height))
      && match artifact
         case Runestone(_, Some(Etching(_, _, Some(m))), _, _) =>
           MintAmount(after, id, height) ==
             if Opens(m, etched, height) && Get(t.mints, id) < m.cap.GetOr(0) then Some(m.amount.GetOr(0)) else None
         case _ => MintAmount(after, id, height) == None
  {
    match artifact
    case Runestone(_, Some(Etching(_, _, Some(m))), _, _) =>
      BoundIsBoth(Offset(etched, m.offsetStart), m.heightStart, height);
      BoundIsBoth(Offset(etched, m.offsetEnd), m.heightEnd, height);
    case _ =>
  }

  // The combined bound holds exactly when both do.
  lemma BoundIsBoth(relative: Option<nat>, absolute: Option<nat>, height: nat)
    ensures var b := Bound(relative, absolute, true);
      (b.Some? ==> b.value <= height) <==> (relative.Some? ==> relative.value <= height) && (absolute.Some? ==> absolute.value <= height)
    ensures var b := Bound(relative, absolute, false);
      (b.Some? ==> height < b.value) <==> (relative.Some? ==> height < relative.value) && (absolute.Some? ==> height < absolute.value)
  {
  }

  function Premine(artifact: Artifact): nat {
    match artifact
    case Runestone(_, Some(etching), _, _) => etching.premine.GetOr(0)
    case _ => 0
  }

  // ----- edicts

  function Allocate(p: Pools, id: RuneId, amount: nat, output: nat): (q: Pools)
    requires id in p.unallocated && amount <= p.unallocated[id]
    requires output < |p.placed|
    ensures q.unallocated.Keys == p.unallocated.Keys && |q.placed| == |p.placed|
  {
    if amount == 0 then p else
      Pools(p.unallocated[id := p.unallocated[id] - amount],
            p.placed[output := Credit(p.placed[output], id, amount)])
  }

  // Indices of the outputs that are not OP_RETURN, in order.
  function Destinations(outputs: seq<TxOut>): (d: seq<nat>)
    ensures forall i: nat :: i in d <==> i < |outputs| && !outputs[i].opReturn
    ensures forall k :: 0 <= k < |d| ==> d[k] < |outputs|
    ensures d == [] <==> forall i :: 0 <= i < |outputs| ==> outputs[i].opReturn
    ensures forall i, j :: 0 <= i < j < |d| ==> d[i] < d[j]
  {
    if outputs == [] then [] else
      var front := Destinations(outputs[..|outputs| - 1]);
      if outputs[|outputs| - 1].opReturn then front else front + [|outputs| - 1]
  }

  predicate InBounds(dests: seq<nat>, p: Pools) {
    forall i :: 0 <= i < |dests| ==> dests[i] < |p.placed|
  }

  // What destination `i` gets of an even split: one more for the first `remainder`.
  function Share(amount: nat, remainder: nat, i: nat): nat {
    if i < remainder then amount + 1 else amount
  }

  // What destinations i, .., n - 1 get together.
  function ShareFrom(amount: nat, remainder: nat, n: nat, i: nat): nat
    requires i <= n
    decreases n - i
  {
    if i == n then 0 else Share(amount, remainder, i) + ShareFrom(amount, remainder, n, i + 1)
  }

  lemma {:induction false} SharesSum(amount: nat, remainder: nat, n: nat, i: nat)
    requires i <= n && remainder <= n
    ensures ShareFrom(amount, remainder, n, i) == (n - i) * amount + Max(remainder - i, 0)
    decreases n - i
  {
    if i < n {
      SharesSum(amount, remainder, n, i + 1);
      assert (n - i) * amount == (n - (i + 1)) * amount + amount;
    }
  }

  lemma SharesUseBalance(balance: nat, n: nat)
    requires n > 0
    ensures ShareFrom(balance / n, balance % n, n, 0) == balance
  {
    SharesSum(balance / n, balance % n, n, 0);
  }

  function SplitEvenly(p: Pools, id: RuneId, dests: seq<nat>, amount: nat, remainder: nat, i: nat): (q: Pools)
    requires i <= |dests| && InBounds(dests, p)
    requires id in p.unallocated && p.unallocated[id] == ShareFrom(amount, remainder, |dests|, i)
    ensures q.unallocated.Keys == p.unallocated.Keys && |q.placed| == |p.placed|
    ensures q.unallocated[id] == 0
    decreases |dests| - i
  {
    if i == |dests| then p else
      SplitEvenly(Allocate(p, id, Share(amount, remainder, i), dests[i]), id, dests, amount, remainder, i + 1)
  }

  lemma SplitStep(p: Pools, id: RuneId, dests: seq<nat>, amount: nat, remainder: nat, i: nat)
    requires i < |dests| && InBounds(dests, p)
    requires id in p.unallocated && p.unallocated[id] == ShareFrom(amount, remainder, |dests|, i)
    ensures Share(amount, remainder, i) <= p.unallocated[id] && dests[i] < |p.placed|
    ensures var q := Allocate(p, id, Share(amount, remainder, i), dests[i]);
      && q.unallocated[id] == ShareFrom(amount, remainder, |dests|, i + 1)
      && SplitEvenly(p, id, dests, amount, remainder, i) == SplitEvenly(q, id, dests, amount, remainder, i + 1)
  {
  }

  function DealOut(p: Pools, id: RuneId, dests: seq<nat>, amount: nat, i: nat): (q: Pools)
    requires i <= |dests| && InBounds(dests, p) && id in p.unallocated
    ensures q.unallocated.Keys == p.unallocated.Keys && |q.placed| == |p.placed|
    decreases |dests| - i
  {
    if i == |dests| then p else
      DealOut(Allocate(p, id, Min(amount, p.unallocated[id]), dests[i]), id, dests, amount, i + 1)
  }

  function EdictId(e: Edict, etched: Option<RuneId>): Option<RuneId> {
    if e.id == DEFAULT_ID then etched else Some(e.id)
  }

  function ApplyEdict(p: Pools, e: Edict, etched: Option<RuneId>, outputs: seq<TxOut>): (q: Pools)
    requires |p.placed| == |outputs| && e.output <= |outputs|
    ensures q.unallocated.Keys == p.unallocated.Keys && |q.placed| == |p.placed|
  {
    match EdictId(e, etched)
    case None => p
    case Some(id) =>
      if id !in p.unallocated then p
      else if e.output < |outputs| then
        var balance := p.unallocated[id];
        Allocate(p, id, if e.amount == 0 then balance else Min(e.amount, balance), e.output)
      else
        var dests := Destinations(outputs);
        if e.amount > 0 then DealOut(p, id, dests, e.amount, 0)
        else if dests == [] then p
        else
          SharesUseBalance(p.unallocated[id], |dests|);
          SplitEvenly(p, id, dests, p.unallocated[id] / |dests|, p.unallocated[id] % |dests|, 0)
  }

  function ApplyEdicts(p: Pools, edicts: seq<Edict>, etched: Option<RuneId>, outputs: seq<TxOut>): (q: Pools)
    requires |p.placed| == |outputs|
    requires forall e :: e in edicts ==> e.output <= |outputs|
    ensures q.unallocated.Keys == p.unallocated.Keys && |q.placed| == |p.placed|
    decreases |edicts|
  {
    if edicts == [] then p else
      ApplyEdicts(ApplyEdict(p, edicts[0], etched, outputs), edicts[1..], etched, outputs)
  }

  // ----- what is left over

  function FirstDestination(outputs: seq<TxOut>): Option<nat> {
    var d := Destinations(outputs);
    if d == [] then None else Some(d[0])
  }

  // Where left-over runes go: nowhere for a cenotaph, otherwise to the
  // pointer, or to the first output that is not OP_RETURN.
  function LeftoverOutput(tx: Tx): (vout: Option<nat>)
    requires WellFormed(tx)
    ensures vout.Some? ==> vout.value < |tx.outputs|
  {
    match tx.artifact
    case Some(Cenotaph(_, _)) => None
    case Some(Runestone(_, _, _, Some(pointer))) => Some(pointer)
    case _ => FirstDestination(tx.outputs)
  }

  function Positive(m: map<RuneId, nat>): map<RuneId, nat> {
    map id | id in m && m[id] > 0 :: m[id]
  }

  function Settle(p: Pools, vout: Option<nat>): Pools
    requires vout.Some? ==> vout.value < |p.placed|
  {
    if vout.None? then p else
      Pools(map[], p.placed[vout.value := AddRunes(p.placed[vout.value], Positive(p.unallocated))])
  }

  // ----- the whole transaction

  function Etch(t: Tables, tx: Tx, txIndex: nat, height: nat): Option<nat> {
    if tx.artifact.None? then None
    else EtchedName(AfterMint(t, tx.artifact.value, height), tx, txIndex, height)
  }

  // Inputs, plus the minted amount, plus the premine of a successful etching.
  function Funds(t: Tables, tx: Tx, inputs: seq<TxoBody>, txIndex: nat, height: nat): map<RuneId, nat> {
    var held := Unallocated(inputs);
    if tx.artifact.None? then held else
      var artifact := tx.artifact.value;
      var minted := MintedId(t, artifact, height);
      var withMint := if minted.Some? then Credit(held, minted.value, MintAmount(t, minted.value, height).value) else held;
      if artifact.Runestone? && Etch(t, tx, txIndex, height).Some? then
        Credit(withMint, RuneId(height, txIndex), Premine(artifact))
      else withMint
  }

  function Allocation(t: Tables, tx: Tx, inputs: seq<TxoBody>, txIndex: nat, height: nat): (p: Pools)
    requires WellFormed(tx)
    ensures |p.placed| == |tx.outputs|
  {
    var etched := if Etch(t, tx, txIndex, height).Some? then Some(RuneId(height, txIndex)) else None;
    var start := Pools(Funds(t, tx, inputs, txIndex, height), seq(|tx.outputs|, _ => map[]));
    if tx.artifact.Some? && tx.artifact.value.Runestone? then
      ApplyEdicts(start, tx.artifact.value.edicts, etched, tx.outputs)
    else start
  }

  function NextTables(t: Tables, tx: Tx, txIndex: nat, height: nat): Tables {
    if tx.artifact.None? then t else
      var t1 := AfterMint(t, tx.artifact.value, height);
      match Etch(t, tx, txIndex, height)
      case None => t1
      case Some(name) => AfterEtch(t1, tx.artifact.value, RuneId(height, txIndex), name, height)
  }

  function IndexRunes(t: Tables, tx: Tx, inputs: seq<TxoBody>, txIndex: nat, height: nat): (r: Indexed)
    requires WellFormed(tx)
    ensures |r.outputs| == |tx.outputs|
  {
    var settled := Settle(Allocation(t, tx, inputs, txIndex, height), LeftoverOutput(tx));
    Indexed(NextTables(t, tx, txIndex, height), settled.placed, settled.unallocated,
            if Etch(t, tx, txIndex, height).Some? then Some(RuneId(height, txIndex)) else None,
            tx.artifact.Some? && MintedId(t, tx.artifact.value, height).Some?)
  }

  // ----- what is etched

  /** The names reserved for two transactions of the chain differ. */
  lemma ReservedNamesDiffer(height: nat, txIndex: nat, height': nat, txIndex': nat)
    requires txIndex < 0x1_0000_0000 && txIndex' < 0x1_0000_0000
    ensures ReservedName(height, txIndex) == ReservedName(height', txIndex') <==> height == height' && txIndex == txIndex'
  {
  }

  // What the transaction asks to etch: nothing, a rune without a name, or a name.
  datatype Wish = Nothing | Unnamed | Named(name: nat)

  function Wished(tx: Tx): Wish {
    match tx.artifact
    case Some(Runestone(_, Some(Etching(Some(name), _, _)), _, _)) => Named(name)
    case Some(Runestone(_, Some(Etching(None, _, _)), _, _)) => Unnamed
    case Some(Cenotaph(Some(name), _)) => Named(name)
    case _ => Nothing
  }

  // The rune is new under this name, and nothing else is.
  predicate RecordedAs(t: Tables, r: Indexed, id: RuneId, name: nat) {
    && r.etched == Some(id) && r.tables.ids == t.ids[name := id]
    && r.tables.terms.Keys == t.terms.Keys + {id} && r.tables.terms - {id} == t.terms - {id}
    && r.tables.terms[id].name == name
  }

  predicate NothingRecorded(t: Tables, r: Indexed) {
    r.etched.None? && r.tables.ids == t.ids && r.tables.terms == t.terms
  }

  /** A transaction etches exactly if it asks for it without a name, or with a
      name that is accepted, not reserved and not taken. The rune is then
      recorded under that name, or under the one reserved for this transaction,
      and otherwise no name and no terms change. */
  lemma EtchesExactlyIf(t: Tables, tx: Tx, inputs: seq<TxoBody>, txIndex: nat, height: nat)
    requires WellFormed(tx)
    ensures var r, id := IndexRunes(t, tx, inputs, txIndex, height), RuneId(height, txIndex);
      match Wished(tx)
      case Nothing => NothingRecorded(t, r)
      case Unnamed => RecordedAs(t, r, id, ReservedName(height, txIndex))
      case Named(name) =>
        if tx.nameAccepted && name < RESERVED && name !in t.ids then RecordedAs(t, r, id, name) else NothingRecorded(t, r)
  {
    hide Settle, Allocation;
  }

  // ----- conservation

  function Held(placed: seq<map<RuneId, nat>>, id: RuneId): nat {
    if placed == [] then 0 else Held(placed[..|placed| - 1], id) + Get(placed[|placed| - 1], id)
  }

  function HeldIn(bodies: seq<TxoBody>, id: RuneId): nat {
    if bodies == [] then 0 else HeldIn(bodies[..|bodies| - 1], id) + Get(bodies[|bodies| - 1].runes, id)
  }

  // placed plus still unplaced
  function Volume(p: Pools, id: RuneId): nat {
    Get(p.unallocated, id) + Held(p.placed, id)
  }

  function MintedNow(t: Tables, tx: Tx, height: nat, id: RuneId): nat {
    if tx.artifact.Some? && tx.artifact.value.mint == Some(id) then MintAmount(t, id, height).GetOr(0) else 0
  }

  function PreminedNow(t: Tables, tx: Tx, txIndex: nat, height: nat, id: RuneId): nat {
    match tx.artifact
    case Some(Runestone(_, Some(Etching(_, Some(premine), _)), _, _)) =>
      if Etch(t, tx, txIndex, height).Some? && id == RuneId(height, txIndex) then premine else 0
    case _ => 0
  }

  lemma PremineIs(t: Tables, tx: Tx, txIndex: nat, height: nat, id: RuneId)
    ensures PreminedNow(t, tx, txIndex, height, id) ==
      if Etch(t, tx, txIndex, height).Some? && id == RuneId(height, txIndex) then Premine(tx.artifact.value) else 0
  {
    hide EtchedName, AfterMint;
  }

  lemma {:induction false} HeldUpdate(placed: seq<map<RuneId, nat>>, i: nat, m: map<RuneId, nat>, id: RuneId)
    requires i < |placed|
    ensures Held(placed[i := m], id) + Get(placed[i], id) == Held(placed, id) + Get(m, id)
  {
    var n := |placed| - 1;
    if i == n {
      assert placed[i := m][..n] == placed[..n];
    } else {
      HeldUpdate(placed[..n], i, m, id);
      assert placed[i := m][..n] == placed[..n][i := m];
    }
  }

  lemma AllocateKeepsVolume(p: Pools, id: RuneId, amount: nat, output: nat, r: RuneId)
    requires id in p.unallocated && amount <= p.unallocated[id]
    requires output < |p.placed|
    ensures Volume(Allocate(p, id, amount, output), r) == Volume(p, r)
  {
    HeldUpdate(p.placed, output, Credit(p.placed[output], id, amount), r);
  }

  lemma {:induction false} SplitKeepsVolume(p: Pools, id: RuneId, dests: seq<nat>, amount: nat, remainder: nat, i: nat, r: RuneId)
    requires i <= |dests| && InBounds(dests, p)
    requires id in p.unallocated && p.unallocated[id] == ShareFrom(amount, remainder, |dests|, i)
    ensures Volume(SplitEvenly(p, id, dests, amount, remainder, i), r) == Volume(p, r)
    decreases |dests| - i
  {
    if i < |dests| {
      AllocateKeepsVolume(p, id, Share(amount, remainder, i), dests[i], r);
      SplitKeepsVolume(Allocate(p, id, Share(amount, remainder, i), dests[i]), id, dests, amount, remainder, i + 1, r);
    }
  }

  lemma {:induction false} DealKeepsVolume(p: Pools, id: RuneId, dests: seq<nat>, amount: nat, i: nat, r: RuneId)
    requires i <= |dests| && InBounds(dests, p) && id in p.unallocated
    ensures Volume(DealOut(p, id, dests, amount, i), r) == Volume(p, r)
    decreases |dests| - i
  {
    if i < |dests| {
      AllocateKeepsVolume(p, id, Min(amount, p.unallocated[id]), dests[i], r);
      DealKeepsVolume(Allocate(p, id, Min(amount, p.unallocated[id]), dests[i]), id, dests, amount, i + 1, r);
    }
  }

  lemma EdictKeepsVolume(p: Pools, e: Edict, etched: Option<RuneId>, outputs: seq<TxOut>, r: RuneId)
    requires |p.placed| == |outputs| && e.output <= |outputs|
    ensures Volume(ApplyEdict(p, e, etched, outputs), r) == Volume(p, r)
  {
    var target := EdictId(e, etched);
    if target.Some? && target.value in p.unallocated {
      var id, dests := target.value, Destinations(outputs);
      if e.output < |outputs| {
        AllocateKeepsVolume(p, id, if e.amount == 0 then p.unallocated[id] else Min(e.amount, p.unallocated[id]), e.output, r);
      } else if e.amount > 0 {
        DealKeepsVolume(p, id, dests, e.amount, 0, r);
      } else if dests != [] {
        SharesUseBalance(p.unallocated[id], |dests|);
        SplitKeepsVolume(p, id, dests, p.unallocated[id] / |dests|, p.unallocated[id] % |dests|, 0, r);
      }
    }
  }

  lemma {:induction false} EdictsKeepVolume(p: Pools, edicts: seq<Edict>, etched: Option<RuneId>, outputs: seq<TxOut>, r: RuneId)
    requires |p.placed| == |outputs|
    requires forall e :: e in edicts ==> e.output <= |outputs|
    ensures Volume(ApplyEdicts(p, edicts, etched, outputs), r) == Volume(p, r)
    decreases |edicts|
  {
    if edicts != [] {
      EdictKeepsVolume(p, edicts[0], etched, outputs, r);
      EdictsKeepVolume(ApplyEdict(p, edicts[0], etched, outputs), edicts[1..], etched, outputs, r);
    }
  }

  lemma SettleKeepsVolume(p: Pools, vout: Option<nat>, r: RuneId)
    requires vout.Some? ==> vout.value < |p.placed|
    ensures Volume(Settle(p, vout), r) == Volume(p, r)
  {
    if vout.Some? {
      HeldUpdate(p.placed, vout.value, AddRunes(p.placed[vout.value], Positive(p.unallocated)), r);
    }
  }

  lemma {:induction false} UnallocatedSums(bodies: seq<TxoBody>, id: RuneId)
    ensures Get(Unallocated(bodies), id) == HeldIn(bodies, id)
  {
    if bodies != [] {
      UnallocatedSums(bodies[..|bodies| - 1], id);
    }
  }

  lemma {:induction false} NothingHeld(n: nat, id: RuneId)
    ensures Held(seq(n, _ => map[]), id) == 0
  {
    if n > 0 {
      NothingHeld(n - 1, id);
      assert seq<map<RuneId, nat>>(n, _ => map[])[..n - 1] == seq<map<RuneId, nat>>(n - 1, _ => map[]);
    }
  }

  lemma FundsSum(t: Tables, tx: Tx, inputs: seq<TxoBody>, txIndex: nat, height: nat, id: RuneId)
    requires WellFormed(tx)
    ensures Get(Funds(t, tx, inputs, txIndex, height), id)
      == HeldIn(inputs, id) + MintedNow(t, tx, height, id) + PreminedNow(t, tx, txIndex, height, id)
  {
    hide HeldIn, Unallocated, MintAmount, EtchedName;
    UnallocatedSums(inputs, id);
  }

  /** Every rune is conserved by every transaction, whatever its edicts:
      outputs + burned == inputs + mint + premine. */
  lemma RunesConserved(t: Tables, tx: Tx, inputs: seq<TxoBody>, txIndex: nat, height: nat, id: RuneId)
    requires WellFormed(tx)
    ensures var r := IndexRunes(t, tx, inputs, txIndex, height);
      Held(r.outputs, id) + Get(r.burned, id)
        == HeldIn(inputs, id) + MintedNow(t, tx, height, id) + PreminedNow(t, tx, txIndex, height, id)
  {
    hide Held, HeldIn, Funds, Etch, MintedNow, PreminedNow, NextTables, ApplyEdicts, LeftoverOutput;
    FundsSum(t, tx, inputs, txIndex, height, id);
    NothingHeld(|tx.outputs|, id);
    var start := Pools(Funds(t, tx, inputs, txIndex, height), seq(|tx.outputs|, _ => map[]));
    if tx.artifact.Some? && tx.artifact.value.Runestone? {
      var etched := if Etch(t, tx, txIndex, height).Some? then Some(RuneId(height, txIndex)) else None;
      EdictsKeepVolume(start, tx.artifact.value.edicts, etched, tx.outputs, id);
    }
    SettleKeepsVolume(Allocation(t, tx, inputs, txIndex, height), LeftoverOutput(tx), id);
  }

  // A cenotaph, or no pointer and nothing but OP_RETURN outputs.
  predicate NoDestination(tx: Tx) {
    match tx.artifact
    case Some(Cenotaph(_, _)) => true
    case Some(Runestone(_, _, _, Some(_))) => false
    case _ => forall i :: 0 <= i < |tx.outputs| ==> tx.outputs[i].opReturn
  }

  /** Runes are burned only by a cenotaph or for want of an eligible output;
      otherwise nothing at all is burned. */
  lemma BurnedOnlyWithoutDestination(t: Tables, tx: Tx, inputs: seq<TxoBody>, txIndex: nat, height: nat, id: RuneId)
    requires WellFormed(tx)
    ensures LeftoverOutput(tx).None? <==> NoDestination(tx)
    ensures Get(IndexRunes(t, tx, inputs, txIndex, height).burned, id) > 0 ==> NoDestination(tx)
  {
    assert Destinations(tx.outputs) == [] <==> FirstDestination(tx.outputs).None?;
  }

  lemma {:induction false} SplitGivesShares(p: Pools, id: RuneId, outputs: seq<TxOut>, amount: nat, remainder: nat, i: nat, k: nat)
    requires |p.placed| == |outputs| && i <= |Destinations(outputs)| && k < |outputs|
    requires id in p.unallocated && p.unallocated[id] == ShareFrom(amount, remainder, |Destinations(outputs)|, i)
    ensures var dests := Destinations(outputs);
      var q := SplitEvenly(p, id, dests, amount, remainder, i);
      && (forall j :: i <= j < |dests| && dests[j] == k ==>
            Get(q.placed[k], id) == Get(p.placed[k], id) + Share(amount, remainder, j))
      && ((forall j :: i <= j < |dests| ==> dests[j] != k) ==> q.placed[k] == p.placed[k])
    decreases |Destinations(outputs)| - i
  {
    var dests := Destinations(outputs);
    if i < |dests| {
      SplitGivesShares(Allocate(p, id, Share(amount, remainder, i), dests[i]), id, outputs, amount, remainder, i + 1, k);
    }
  }

  // The edict moves rune `id`; the id 0:0 stands for the rune etched just now.
  predicate Concerns(e: Edict, etched: Option<RuneId>, id: RuneId) {
    if e.id == RuneId(0, 0) then etched == Some(id) else e.id == id
  }

  /** An edict for 0:0 where nothing is etched, or for a rune that is not there,
      does nothing. */
  lemma EdictIgnored(p: Pools, e: Edict, etched: Option<RuneId>, outputs: seq<TxOut>)
    requires |p.placed| == |outputs| && e.output <= |outputs|
    requires forall id :: Concerns(e, etched, id) ==> id !in p.unallocated
    ensures ApplyEdict(p, e, etched, outputs) == p
  {
    assert EdictId(e, etched).Some? ==> Concerns(e, etched, EdictId(e, etched).value);
  }

  /** An edict with amount 0 that names one past the last output splits the
      whole balance over the eligible outputs, and no two of them get amounts
      that differ by more than one. */
  lemma EvenSplit(p: Pools, e: Edict, etched: Option<RuneId>, outputs: seq<TxOut>, id: RuneId, a: nat, b: nat)
    requires |p.placed| == |outputs| && e.output == |outputs| && e.amount == 0
    requires Concerns(e, etched, id) && id in p.unallocated
    requires a < |outputs| && b < |outputs| && !outputs[a].opReturn && !outputs[b].opReturn
    ensures var q := ApplyEdict(p, e, etched, outputs);
      && q.unallocated[id] == 0
      && (Get(q.placed[a], id) - Get(p.placed[a], id)) - (Get(q.placed[b], id) - Get(p.placed[b], id)) <= 1
      && forall k :: 0 <= k < |outputs| && outputs[k].opReturn ==> q.placed[k] == p.placed[k]
  {
    hide SplitEvenly, DealOut, Destinations, Allocate;
    var dests := Destinations(outputs);
    assert a in dests && b in dests;
    var n, balance := |dests|, p.unallocated[id];
    SharesUseBalance(balance, n);
    forall k: nat | k < |outputs| {
      SplitGivesShares(p, id, outputs, balance / n, balance % n, 0, k);
    }
  }

  /** An edict that names an output gives it the amount, as far as the balance
      goes, or the whole balance if the amount is 0, and touches no other output
      and no other rune. */
  lemma EdictPlaces(p: Pools, e: Edict, etched: Option<RuneId>, outputs: seq<TxOut>, id: RuneId, k: nat, r: RuneId)
    requires |p.placed| == |outputs| && e.output < |outputs| && Concerns(e, etched, id) && id in p.unallocated
    requires k < |outputs|
    ensures var q, balance := ApplyEdict(p, e, etched, outputs), p.unallocated[id];
      var given := if e.amount == 0 || e.amount > balance then balance else e.amount;
      && Get(q.placed[k], r) - Get(p.placed[k], r) == (if k == e.output && r == id then given else 0)
      && Get(p.unallocated, r) - Get(q.unallocated, r) == (if r == id then given else 0)
  {
  }

  // What the j-th destination gets when `amount` is dealt out of `balance`.
  function Dealt(balance: nat, amount: nat, j: nat): int {
    Min(amount, Max(balance - j * amount, 0))
  }

  lemma {:induction false} DealGives(p: Pools, id: RuneId, outputs: seq<TxOut>, amount: nat, i: nat, k: nat, balance: nat)
    requires |p.placed| == |outputs| && i <= |Destinations(outputs)| && k < |outputs|
    requires id in p.unallocated && p.unallocated[id] == Max(balance - i * amount, 0)
    ensures var dests := Destinations(outputs);
      var q := DealOut(p, id, dests, amount, i);
      && (forall j :: i <= j < |dests| && dests[j] == k ==>
            Get(q.placed[k], id) == Get(p.placed[k], id) + Dealt(balance, amount, j))
      && ((forall j :: i <= j < |dests| ==> dests[j] != k) ==> q.placed[k] == p.placed[k])
    decreases |Destinations(outputs)| - i
  {
    hide Destinations;
    var dests := Destinations(outputs);
    if i < |dests| {
      var p' := Allocate(p, id, Min(amount, p.unallocated[id]), dests[i]);
      assert (i + 1) * amount == i * amount + amount;
      DealGives(p', id, outputs, amount, i + 1, k, balance);
    }
  }

  /** An edict with an amount that names one past the last output deals it to
      the eligible outputs in order, until the balance is used up. */
  lemma DealsInOrder(p: Pools, e: Edict, etched: Option<RuneId>, outputs: seq<TxOut>, id: RuneId, j: nat)
    requires |p.placed| == |outputs| && e.output == |outputs| && e.amount > 0
    requires Concerns(e, etched, id) && id in p.unallocated && j < |Destinations(outputs)|
    ensures var q, k := ApplyEdict(p, e, etched, outputs), Destinations(outputs)[j];
      Get(q.placed[k], id) == Get(p.placed[k], id) + Dealt(p.unallocated[id], e.amount, j)
  {
    hide DealOut, Dealt;
    assert 0 * e.amount == 0;
    DealGives(p, id, outputs, e.amount, 0, Destinations(outputs)[j], p.unallocated[id]);
  }

  // Output k takes what the edicts left: the one the runestone points at, or
  // without a pointer (and for no cenotaph) the first that is not OP_RETURN.
  predicate TakesRest(tx: Tx, k: nat) {
    match tx.artifact
    case Some(Cenotaph(_, _)) => false
    case Some(Runestone(_, _, _, Some(pointer))) => k == pointer
    case _ => k < |tx.outputs| && !tx.outputs[k].opReturn && forall j :: 0 <= j < k ==> tx.outputs[j].opReturn
  }

  lemma RestTaken(tx: Tx, k: nat)
    requires WellFormed(tx)
    ensures TakesRest(tx, k) <==> LeftoverOutput(tx) == Some(k)
    ensures LeftoverOutput(tx).None? <==> forall j: nat :: !TakesRest(tx, j)
  {
    FirstIsFirst(tx.outputs, k);
    if LeftoverOutput(tx).Some? {
      FirstIsFirst(tx.outputs, LeftoverOutput(tx).value);
      assert TakesRest(tx, LeftoverOutput(tx).value);
    }
  }

  lemma FirstIsFirst(outputs: seq<TxOut>, k: nat)
    ensures FirstDestination(outputs) == Some(k) <==>
      k < |outputs| && !outputs[k].opReturn && forall j :: 0 <= j < k ==> outputs[j].opReturn
  {
    var d := Destinations(outputs);
    if k in d {
      var i :| 0 <= i < |d| && d[i] == k;
      if i > 0 {
        assert d[0] in d && d[0] < k;
      } else {
        forall j: nat | j < k ensures outputs[j].opReturn {
          assert j !in d;
        }
      }
    }
  }

  /** What no edict placed goes to the output the runestone points at, or to the
      first one that is not OP_RETURN, all of it and nowhere else; where there
      is no such output it is burned, all of it. */
  lemma LeftoverPlaced(t: Tables, tx: Tx, inputs: seq<TxoBody>, txIndex: nat, height: nat, k: nat, id: RuneId)
    requires WellFormed(tx) && k < |tx.outputs|
    ensures var p, r := Allocation(t, tx, inputs, txIndex, height), IndexRunes(t, tx, inputs, txIndex, height);
      && Get(r.outputs[k], id) - Get(p.placed[k], id) == (if TakesRest(tx, k) then Get(p.unallocated, id) else 0)
      && Get(r.burned, id) == if exists j: nat :: TakesRest(tx, j) then 0 else Get(p.unallocated, id)
  {
    hide Allocation, NextTables, LeftoverOutput, TakesRest;
    RestTaken(tx, k);
  }

  /** The rune tables of the mempool processor. */
  class RuneProcessor {
    var ids: map<nat, RuneId>
    var terms: map<RuneId, RuneTerms>
    var mints: map<RuneId, nat>

    ghost function View(): Tables reads this {
      Tables(ids, terms, mints)
    }

    constructor (t: Tables)
      ensures View() == t
    {
      ids, terms, mints := t.ids, t.terms, t.mints;
    }

    method CreditAll(start: map<RuneId, nat>, runes: map<RuneId, nat>) returns (acc: map<RuneId, nat>)
      ensures acc == AddRunes(start, runes)
    {
      acc := start;
      var todo := runes.Keys;
      while todo != {}
        invariant todo <= runes.Keys
        invariant forall id :: id in acc <==> id in start || (id in runes && id !in todo)
        invariant forall id :: id in acc ==> acc[id] == Get(start, id) + if id in todo then 0 else Get(runes, id)
        decreases todo
      {
        var id :| id in todo;
        acc := Credit(acc, id, runes[id]);
        todo := todo - {id};
      }
      assert acc.Keys == AddRunes(start, runes).Keys;
    }

    method CollectUnallocated(inputs: seq<TxoBody>) returns (unallocated: map<RuneId, nat>)
      ensures unallocated == Unallocated(inputs)
    {
      unallocated := map[];
      for k := 0 to |inputs|
        invariant unallocated == Unallocated(inputs[..k])
      {
        unallocated := CreditAll(unallocated, inputs[k].runes);
        assert inputs[..k + 1][..k] == inputs[..k];
      }
      assert inputs[..|inputs|] == inputs;
    }

    method Mint(id: RuneId, height: nat) returns (amount: Option<nat>)
      modifies this
      ensures amount == MintAmount(old(View()), id, height)
      ensures View() == if amount.Some?
        then old(View()).(mints := old(mints)[id := Get(old(mints), id) + 1])
        else old(View())
    {
      if id !in terms {
        return None;
      }
      var t := terms[id];
      if t.start.Some? && height < t.start.value {
        return None;
      }
      if t.end.Some? && height >= t.end.value {
        return None;
      }
      var current := Get(mints, id);
      if current >= t.cap.GetOr(0) {
        return None;
      }
      mints := mints[id := current + 1];
      return Some(t.amount.GetOr(0));
    }

    method RunEvenSplit(start: Pools, id: RuneId, dests: seq<nat>, amount: nat, remainder: nat) returns (pools: Pools)
      requires InBounds(dests, start) && id in start.unallocated
      requires start.unallocated[id] == ShareFrom(amount, remainder, |dests|, 0)
      ensures pools == SplitEvenly(start, id, dests, amount, remainder, 0)
    {
      pools := start;
      for i := 0 to |dests|
        invariant |pools.placed| == |start.placed| && id in pools.unallocated
        invariant pools.unallocated[id] == ShareFrom(amount, remainder, |dests|, i)
        invariant SplitEvenly(pools, id, dests, amount, remainder, i) == SplitEvenly(start, id, dests, amount, remainder, 0)
      {
        SplitStep(pools, id, dests, amount, remainder, i);
        hide SplitEvenly, ShareFrom, Allocate;
        pools := Allocate(pools, id, if i < remainder then amount + 1 else amount, dests[i]);
      }
    }

    method RunDealOut(start: Pools, id: RuneId, dests: seq<nat>, amount: nat) returns (pools: Pools)
      requires InBounds(dests, start) && id in start.unallocated
      ensures pools == DealOut(start, id, dests, amount, 0)
    {
      pools := start;
      for i := 0 to |dests|
        invariant |pools.placed| == |start.placed| && id in pools.unallocated
        invariant DealOut(pools, id, dests, amount, i) == DealOut(start, id, dests, amount, 0)
      {
        pools := Allocate(pools, id, Min(amount, pools.unallocated[id]), dests[i]);
      }
    }

    method RunEdict(start: Pools, e: Edict, etched: Option<RuneId>, outputs: seq<TxOut>) returns (pools: Pools)
      requires |start.placed| == |outputs| && e.output <= |outputs|
      ensures pools == ApplyEdict(start, e, etched, outputs)
    {
      hide ShareFrom, SplitEvenly, DealOut, Destinations;
      pools := start;
      var target := EdictId(e, etched);
      if target.None? || target.value !in pools.unallocated {
        return;
      }
      var id := target.value;
      if e.output == |outputs| {
        var dests := Destinations(outputs);
        if e.amount > 0 {
          pools := RunDealOut(pools, id, dests, e.amount);
        } else if dests != [] {
          var balance := pools.unallocated[id];
          SharesUseBalance(balance, |dests|);
          pools := RunEvenSplit(pools, id, dests, balance / |dests|, balance % |dests|);
        }
      } else {
        var balance := pools.unallocated[id];
        pools := Allocate(pools, id, if e.amount == 0 then balance else Min(e.amount, balance), e.output);
      }
    }

    method CreateRuneEntry(artifact: Artifact, id: RuneId, name: nat, height: nat)
      modifies this
      ensures View() == AfterEtch(old(View()), artifact, id, name, height)
    {
      ids := ids[name := id];
      terms := terms[id := NewTerms(artifact, name, height)];
    }

    method PlaceLeftover(start: Pools, vout: Option<nat>) returns (pools: Pools)
      requires vout.Some? ==> vout.value < |start.placed|
      ensures pools == Settle(start, vout)
    {
      if vout.None? {
        return start;
      }
      var out := CreditAll(start.placed[vout.value], Positive(start.unallocated));
      pools := Pools(map[], start.placed[vout.value := out]);
    }

    method RunEdicts(start: Pools, edicts: seq<Edict>, etched: Option<RuneId>, outputs: seq<TxOut>) returns (pools: Pools)
      requires |start.placed| == |outputs|
      requires forall e :: e in edicts ==> e.output <= |outputs|
      ensures pools == ApplyEdicts(start, edicts, etched, outputs)
    {
      pools := start;
      for k := 0 to |edicts|
        invariant |pools.placed| == |outputs|
        invariant ApplyEdicts(pools, edicts[k..], etched, outputs) == ApplyEdicts(start, edicts, etched, outputs)
      {
        pools := RunEdict(pools, edicts[k], etched, outputs);
        assert edicts[k..][1..] == edicts[k + 1..];
      }
    }

    method RunMint(artifact: Artifact, held: map<RuneId, nat>, height: nat) returns (funds: map<RuneId, nat>, minted: bool)
      modifies this
      ensures var id := MintedId(old(View()), artifact, height);
        && minted == id.Some?
        && funds == if minted then Credit(held, id.value, MintAmount(old(View()), id.value, height).value) else held
      ensures View() == AfterMint(old(View()), artifact, height)
    {
      funds, minted := held, false;
      if artifact.mint.Some? {
        var amount := Mint(artifact.mint.value, height);
        if amount.Some? {
          funds, minted := Credit(funds, artifact.mint.value, amount.value), true;
        }
      }
    }

    /** Indexes one transaction: the outputs, the burned runes and the new
        tables are those of the specification. */
    method Index(tx: Tx, inputs: seq<TxoBody>, txIndex: nat, height: nat) returns (r: Indexed)
      requires WellFormed(tx)
      modifies this
      ensures r == IndexRunes(old(View()), tx, inputs, txIndex, height)
      ensures View() == r.tables
    {
      var unallocated := CollectUnallocated(inputs);
      var placed: seq<map<RuneId, nat>> := seq(|tx.outputs|, _ => map[]);
      var minted, etched := false, None;
      if tx.artifact.Some? {
        var artifact := tx.artifact.value;
        unallocated, minted := RunMint(artifact, unallocated, height);
        var name := EtchedName(Tables(ids, terms, mints), tx, txIndex, height);
        if name.Some? {
          etched := Some(RuneId(height, txIndex));
        }
        if artifact.Runestone? {
          if name.Some? {
            unallocated := Credit(unallocated, RuneId(height, txIndex), Premine(artifact));
          }
          var pools := RunEdicts(Pools(unallocated, placed), artifact.edicts, etched, tx.outputs);
          unallocated, placed := pools.unallocated, pools.placed;
        }
        if name.Some? {
          CreateRuneEntry(artifact, RuneId(height, txIndex), name.value, height);
        }
      }
      var settled := PlaceLeftover(Pools(unallocated, placed), LeftoverOutput(tx));
      r := Indexed(Tables(ids, terms, mints), settled.placed, settled.unallocated, etched, minted);
    }
  }
}
