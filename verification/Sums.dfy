/** Sums over finite maps, and how a sum over the unspent outputs changes when
    a transaction spends its inputs and creates its outputs. */
module Sums {
  import opened Chain

  ghost function Total<K(!new)>(m: map<K, nat>): nat {
    if m == map[] then 0 else
      var k :| k in m;
      m[k] + Total(m - {k})
  }

  lemma {:induction false} TotalRemove<K(!new)>(m: map<K, nat>, k: K)
    requires k in m
    ensures Total(m) == m[k] + Total(m - {k})
  {
    var j :| j in m && Total(m) == m[j] + Total(m - {j});
    if j != k {
      TotalRemove(m - {j}, k);
      TotalRemove(m - {k}, j);
      assert m - {j} - {k} == m - {k} - {j};
    }
  }

  lemma TotalUpdate<K(!new)>(m: map<K, nat>, k: K, v: nat)
    ensures Total(m[k := v]) + Get(m, k) == Total(m) + v
  {
    TotalRemove(m[k := v], k);
    assert m[k := v] - {k} == m - {k};
    if k in m {
      TotalRemove(m, k);
    } else {
      assert m - {k} == m;
    }
  }

  lemma {:induction false} TotalBounds<K(!new)>(m: map<K, nat>, k: K)
    ensures Get(m, k) <= Total(m)
  {
    if k in m {
      TotalRemove(m, k);
    }
  }

  lemma {:induction false} TotalUnion<K(!new)>(a: map<K, nat>, b: map<K, nat>)
    requires a.Keys !! b.Keys
    ensures Total(a + b) == Total(a) + Total(b)
  {
    if b == map[] {
      assert a + b == a;
    } else {
      var k :| k in b;
      TotalRemove(b, k);
      TotalUnion(a, b - {k});
      TotalRemove(a + b, k);
      assert (a + b) - {k} == a + (b - {k});
    }
  }

  lemma {:induction false} ZeroTotal<K(!new)>(m: map<K, nat>)
    requires forall k :: k in m ==> m[k] == 0
    ensures Total(m) == 0
  {
    if m != map[] {
      var k :| k in m;
      TotalRemove(m, k);
      ZeroTotal(m - {k});
    }
  }

  // Entries of zero do not count.
  lemma TotalOfPart<K(!new)>(part: map<K, nat>, all: map<K, nat>)
    requires (forall k :: k in part ==> k in all && part[k] == all[k]) && (forall k :: k in all && k !in part ==> all[k] == 0)
    ensures Total(part) == Total(all)
  {
    var rest := all - part.Keys;
    assert part + rest == all;
    TotalUnion(part, rest);
    ZeroTotal(rest);
  }

  // ----- a measure summed over all unspent outputs

  ghost function Measure(utxos: map<OutPoint, TxoBody>, f: TxoBody -> nat): nat {
    Total(map o | o in utxos :: f(utxos[o]))
  }

  function MeasureSeq(bodies: seq<TxoBody>, f: TxoBody -> nat): nat {
    if bodies == [] then 0 else MeasureSeq(bodies[..|bodies| - 1], f) + f(bodies[|bodies| - 1])
  }

  lemma MeasureAdd(utxos: map<OutPoint, TxoBody>, f: TxoBody -> nat, o: OutPoint, body: TxoBody)
    requires o !in utxos
    ensures Measure(utxos[o := body], f) == Measure(utxos, f) + f(body)
  {
    var m, after := map p | p in utxos :: f(utxos[p]), utxos[o := body];
    assert (map p | p in after :: f(after[p])) == m[o := f(body)];
    TotalUpdate(m, o, f(body));
  }

  lemma MeasureRemove(utxos: map<OutPoint, TxoBody>, f: TxoBody -> nat, o: OutPoint)
    requires o in utxos
    ensures Measure(utxos, f) == Measure(utxos - {o}, f) + f(utxos[o])
  {
    MeasureAdd(utxos - {o}, f, o, utxos[o]);
    assert (utxos - {o})[o := utxos[o]] == utxos;
  }

  predicate Distinct<T(==)>(s: seq<T>) {
    forall i, j :: 0 <= i < j < |s| ==> s[i] != s[j]
  }

  predicate DistinctFirsts<K(==), V>(s: seq<(K, V)>) {
    forall i, j :: 0 <= i < j < |s| ==> s[i].0 != s[j].0
  }

  // The unspent outputs after a transaction's inputs have been deleted.
  function Spend(utxos: map<OutPoint, TxoBody>, inputs: seq<OutPoint>): map<OutPoint, TxoBody> {
    if inputs == [] then utxos else Spend(utxos, inputs[..|inputs| - 1]) - {inputs[|inputs| - 1]}
  }

  // The unspent outputs after outputs 0, 1, ... of `txid` have been inserted.
  function Create(utxos: map<OutPoint, TxoBody>, txid: Txid, bodies: seq<TxoBody>): map<OutPoint, TxoBody> {
    if bodies == [] then utxos else
      Create(utxos, txid, bodies[..|bodies| - 1])[OutPoint(txid, |bodies| - 1) := bodies[|bodies| - 1]]
  }

  function Resolve(utxos: map<OutPoint, TxoBody>, inputs: seq<OutPoint>): (bodies: seq<TxoBody>)
    requires forall i :: 0 <= i < |inputs| ==> inputs[i] in utxos
    ensures |bodies| == |inputs|
  {
    seq(|inputs|, i requires 0 <= i < |inputs| => utxos[inputs[i]])
  }

  lemma {:induction false} SpendContents(utxos: map<OutPoint, TxoBody>, inputs: seq<OutPoint>)
    ensures Spend(utxos, inputs) == utxos - (set o | o in inputs)
  {
    if inputs != [] {
      var front, last := inputs[..|inputs| - 1], inputs[|inputs| - 1];
      SpendContents(utxos, front);
      assert forall o :: o in inputs <==> o in front || o == last;
    }
  }

  lemma {:induction false} CreateContents(utxos: map<OutPoint, TxoBody>, txid: Txid, bodies: seq<TxoBody>)
    ensures forall o :: o in Create(utxos, txid, bodies) <==>
      o in utxos || (o.txid == txid && o.vout < |bodies|)
    ensures forall o :: o in Create(utxos, txid, bodies) ==>
      Create(utxos, txid, bodies)[o] ==
        if o.txid == txid && o.vout < |bodies| then bodies[o.vout] else utxos[o]
  {
    if bodies != [] {
      CreateContents(utxos, txid, bodies[..|bodies| - 1]);
    }
  }

  predicate Spendable(utxos: map<OutPoint, TxoBody>, inputs: seq<OutPoint>) {
    && Distinct(inputs)
    && forall i :: 0 <= i < |inputs| ==> inputs[i] in utxos
  }

  predicate FreshTxid(utxos: map<OutPoint, TxoBody>, txid: Txid) {
    forall o :: o in utxos ==> o.txid != txid
  }

  lemma {:induction false} MeasureSpend(utxos: map<OutPoint, TxoBody>, f: TxoBody -> nat, inputs: seq<OutPoint>)
    requires Spendable(utxos, inputs)
    ensures Measure(utxos, f) == Measure(Spend(utxos, inputs), f) + MeasureSeq(Resolve(utxos, inputs), f)
  {
    if inputs != [] {
      var front, last := inputs[..|inputs| - 1], inputs[|inputs| - 1];
      MeasureSpend(utxos, f, front);
      SpendContents(utxos, front);
      MeasureRemove(Spend(utxos, front), f, last);
      assert Resolve(utxos, inputs)[..|inputs| - 1] == Resolve(utxos, front);
    }
  }

  lemma {:induction false} MeasureCreate(utxos: map<OutPoint, TxoBody>, f: TxoBody -> nat, txid: Txid, bodies: seq<TxoBody>)
    requires FreshTxid(utxos, txid)
    ensures Measure(Create(utxos, txid, bodies), f) == Measure(utxos, f) + MeasureSeq(bodies, f)
  {
    if bodies != [] {
      var front := bodies[..|bodies| - 1];
      MeasureCreate(utxos, f, txid, front);
      CreateContents(utxos, txid, front);
      MeasureAdd(Create(utxos, txid, front), f, OutPoint(txid, |front|), bodies[|bodies| - 1]);
    }
  }

  /** The books of one transaction: whatever is measured, the sum over the
      unspent outputs drops by what the inputs held and grows by what the
      outputs hold. */
  lemma MeasureStep(utxos: map<OutPoint, TxoBody>, f: TxoBody -> nat,
                    inputs: seq<OutPoint>, txid: Txid, bodies: seq<TxoBody>)
    requires Spendable(utxos, inputs) && FreshTxid(utxos, txid)
    ensures Measure(Create(Spend(utxos, inputs), txid, bodies), f) + MeasureSeq(Resolve(utxos, inputs), f)
         == Measure(utxos, f) + MeasureSeq(bodies, f)
  {
    MeasureSpend(utxos, f, inputs);
    SpendContents(utxos, inputs);
    MeasureCreate(Spend(utxos, inputs), f, txid, bodies);
  }
}
