/** The storage cache of the mempool worker: values read from the snapshot are
    carried from one iteration to the next as long as the chain tip stays. */
module Cache {
  import opened Chain

  type Hash = nat

  // K ranges over the keys of all cached tables: unspent outputs, BRC-20
  // terms, supplies and balances, rune ids, terms and mints.
  datatype Store<K(!new), V> = Store(tip: Hash, values: map<K, V>)

  // Every value is one of the snapshot.
  predicate Within<K(!new), V(==)>(values: map<K, V>, snapshot: map<K, V>) {
    forall k :: k in values ==> k in snapshot && snapshot[k] == values[k]
  }

  // What a processor without a cache reads: its own writes, then the snapshot.
  function Read<K(!new), V>(overlay: map<K, V>, snapshot: map<K, V>, k: K): Option<V> {
    if k in overlay then Some(overlay[k]) else if k in snapshot then Some(snapshot[k]) else None
  }

  datatype Batch<K(!new), V> = MissingTxo(key: K) | Resolved(values: map<K, V>)

  // All keys at once; the first one that cannot be found is an error.
  function ReadAll<K(!new), V>(overlay: map<K, V>, snapshot: map<K, V>, keys: seq<K>): Batch<K, V> {
    if keys == [] then Resolved(map[]) else
      var rest := ReadAll(overlay, snapshot, keys[..|keys| - 1]);
      var last := keys[|keys| - 1];
      if rest.MissingTxo? then rest else
        match Read(overlay, snapshot, last)
        case None => MissingTxo(last)
        case Some(v) => Resolved(rest.values[last := v])
  }

  /** The batch agrees with reading key by key. */
  lemma {:induction false} ReadAllAgrees<K(!new), V>(overlay: map<K, V>, snapshot: map<K, V>, keys: seq<K>)
    ensures match ReadAll(overlay, snapshot, keys)
      case Resolved(values) =>
        && (forall k :: k in values <==> k in keys)
        && (forall k :: k in keys ==> Read(overlay, snapshot, k) == Some(values[k]))
      case MissingTxo(k) => k in keys && Read(overlay, snapshot, k) == None
  {
    if keys != [] {
      var front, last := keys[..|keys| - 1], keys[|keys| - 1];
      ReadAllAgrees(overlay, snapshot, front);
      assert forall k :: k in keys <==> k in front || k == last;
    }
  }

  // The first key that cannot be found.
  function FirstUnread<K(!new), V>(overlay: map<K, V>, snapshot: map<K, V>, keys: seq<K>): Option<K> {
    if keys == [] then None
    else if Read(overlay, snapshot, keys[0]).None? then Some(keys[0])
    else FirstUnread(overlay, snapshot, keys[1..])
  }

  lemma {:induction false} FirstUnreadSnoc<K(!new), V>(overlay: map<K, V>, snapshot: map<K, V>, keys: seq<K>, k: K)
    ensures FirstUnread(overlay, snapshot, keys + [k]) ==
      if FirstUnread(overlay, snapshot, keys).Some? then FirstUnread(overlay, snapshot, keys)
      else if Read(overlay, snapshot, k).None? then Some(k) else None
  {
    hide Read;
    if keys == [] {
      assert keys + [k] == [k];
    } else {
      FirstUnreadSnoc(overlay, snapshot, keys[1..], k);
      assert (keys + [k])[1..] == keys[1..] + [k];
    }
  }

  /** A batch fails exactly when one of its keys cannot be found, and names the
      first such key. */
  lemma {:induction false} ReadAllFails<K(!new), V>(overlay: map<K, V>, snapshot: map<K, V>, keys: seq<K>)
    ensures match FirstUnread(overlay, snapshot, keys)
      case None => ReadAll(overlay, snapshot, keys).Resolved?
      case Some(k) => ReadAll(overlay, snapshot, keys) == MissingTxo(k)
  {
    hide Read;
    if keys != [] {
      var front, last := keys[..|keys| - 1], keys[|keys| - 1];
      ReadAllFails(overlay, snapshot, front);
      FirstUnreadSnoc(overlay, snapshot, front, last);
      assert keys == front + [last];
    }
  }

  // Of `keys`, those in `fetched` are read and those in `missing` are still to
  // be fetched from the snapshot.
  ghost predicate Progress<K(!new), V>(overlay: map<K, V>, snapshot: map<K, V>, keys: seq<K>, fetched: map<K, V>, missing: seq<K>) {
    && (forall k :: k in fetched ==> k in keys && Read(overlay, snapshot, k) == Some(fetched[k]))
    && (forall k :: k in missing ==> k in keys && k !in overlay)
    && (forall k :: k in keys ==> k in fetched || k in missing)
    && FirstUnread(overlay, snapshot, keys) == FirstUnread(overlay, snapshot, missing)
  }

  lemma FoundOne<K(!new), V>(overlay: map<K, V>, snapshot: map<K, V>, keys: seq<K>, fetched: map<K, V>, missing: seq<K>, k: K, v: V)
    requires Progress(overlay, snapshot, keys, fetched, missing) && Read(overlay, snapshot, k) == Some(v)
    ensures Progress(overlay, snapshot, keys + [k], fetched[k := v], missing)
  {
    FirstUnreadSnoc(overlay, snapshot, keys, k);
  }

  lemma MissedOne<K(!new), V>(overlay: map<K, V>, snapshot: map<K, V>, keys: seq<K>, fetched: map<K, V>, missing: seq<K>, k: K)
    requires Progress(overlay, snapshot, keys, fetched, missing) && k !in overlay
    ensures Progress(overlay, snapshot, keys + [k], fetched, missing + [k])
  {
    FirstUnreadSnoc(overlay, snapshot, keys, k);
    FirstUnreadSnoc(overlay, snapshot, missing, k);
  }

  lemma AllRead<K(!new), V>(overlay: map<K, V>, snapshot: map<K, V>, keys: seq<K>, fetched: map<K, V>)
    requires Progress(overlay, snapshot, keys, fetched, [])
    ensures ReadAll(overlay, snapshot, keys) == Resolved(fetched)
  {
    hide ReadAll;
    ReadAllFails(overlay, snapshot, keys);
    ReadAllAgrees(overlay, snapshot, keys);
    assert ReadAll(overlay, snapshot, keys).values == fetched;
  }

  class Processor<K(!new, ==), V(==)> {
    const snapshot: map<K, V>
    const tip: Hash
    const input: Option<Store<K, V>>
    var overlay: map<K, V>
    var output: map<K, V>

    // The caches hold snapshot values only, never writes of this iteration.
    ghost predicate Valid() reads this {
      (input.Some? ==> Within(input.value.values, snapshot)) && Within(output, snapshot)
    }

    // A cache that was filled at another tip is dropped.
    constructor (snapshot: map<K, V>, tip: Hash, cache: Option<Store<K, V>>)
      requires cache.Some? && cache.value.tip == tip ==> Within(cache.value.values, snapshot)
      ensures Valid() && this.snapshot == snapshot && this.tip == tip && overlay == map[] && output == map[]
      ensures input == if cache.Some? && cache.value.tip == tip then cache else None
    {
      this.snapshot := snapshot;
      this.tip := tip;
      input := if cache.Some? && cache.value.tip == tip then cache else None;
      overlay, output := map[], map[];
    }

    method Write(k: K, v: V)
      requires Valid()
      modifies this
      ensures Valid() && overlay == old(overlay)[k := v] && output == old(output)
    {
      overlay := overlay[k := v];
    }

    method Get(k: K) returns (v: Option<V>)
      requires Valid()
      modifies this
      ensures Valid() && overlay == old(overlay) && v == Read(overlay, snapshot, k)
    {
      if k in overlay {
        return Some(overlay[k]);
      }
      if input.Some? && k in input.value.values {
        output := output[k := input.value.values[k]];
        return Some(input.value.values[k]);
      }
      if k !in snapshot {
        return None;
      }
      output := output[k := snapshot[k]];
      v := Some(snapshot[k]);
    }

    /** First everything that needs no access to the snapshot, then the rest. */
    method Resolve(keys: seq<K>) returns (r: Batch<K, V>)
      requires Valid()
      modifies this
      ensures Valid() && overlay == old(overlay)
      ensures r == ReadAll(overlay, snapshot, keys)
    {
      var fetched, missing := Known(keys);
      for i := 0 to |missing|
        invariant Valid() && overlay == old(overlay)
        invariant Progress(overlay, snapshot, keys, fetched, missing[i..])
      {
        var k := missing[i];
        if k !in snapshot {
          ReadAllFails(overlay, snapshot, keys);
          return MissingTxo(k);
        }
        assert missing[i..][1..] == missing[i + 1..];
        fetched := fetched[k := snapshot[k]];
        output := output[k := snapshot[k]];
      }
      AllRead(overlay, snapshot, keys, fetched);
      r := Resolved(fetched);
    }

    method Known(keys: seq<K>) returns (fetched: map<K, V>, missing: seq<K>)
      requires Valid()
      modifies this
      ensures Valid() && overlay == old(overlay)
      ensures Progress(overlay, snapshot, keys, fetched, missing)
    {
      fetched, missing := map[], [];
      for i := 0 to |keys|
        invariant Valid() && overlay == old(overlay)
        invariant Progress(overlay, snapshot, keys[..i], fetched, missing)
      {
        var k := keys[i];
        assert keys[..i + 1] == keys[..i] + [k];
        if k in overlay {
          FoundOne(overlay, snapshot, keys[..i], fetched, missing, k, overlay[k]);
          fetched := fetched[k := overlay[k]];
        } else if input.Some? && k in input.value.values {
          FoundOne(overlay, snapshot, keys[..i], fetched, missing, k, input.value.values[k]);
          fetched := fetched[k := input.value.values[k]];
          output := output[k := input.value.values[k]];
        } else {
          MissedOne(overlay, snapshot, keys[..i], fetched, missing, k);
          missing := missing + [k];
        }
      }
      assert keys[..|keys|] == keys;
    }
  }

  // ----- iterations

  datatype Op<K(!new), V> = Set(key: K, value: V) | Lookup(key: K) | LookupAll(keys: seq<K>)

  datatype Reply<K(!new), V> = Done | Value(value: Option<V>) | Values(values: Batch<K, V>)

  // One step without a cache: the new overlay and the reply.
  function Plain<K(!new), V>(overlay: map<K, V>, snapshot: map<K, V>, op: Op<K, V>): (map<K, V>, Reply<K, V>) {
    match op
    case Set(k, v) => (overlay[k := v], Done)
    case Lookup(k) => (overlay, Value(Read(overlay, snapshot, k)))
    case LookupAll(keys) => (overlay, Values(ReadAll(overlay, snapshot, keys)))
  }

  // What an iteration does next, given the replies it got so far.
  type Client<!K(!new), !V> = seq<Reply<K, V>> -> Option<Op<K, V>>

  // The overlay after some steps from an empty one.
  function Ran<K(!new), V>(snapshot: map<K, V>, ops: seq<Op<K, V>>): map<K, V> {
    if ops == [] then map[] else Plain(Ran(snapshot, ops[..|ops| - 1]), snapshot, ops[|ops| - 1]).0
  }

  // The last step that sets `k` is number i, or none does.
  predicate LastSet<K(!new, ==), V>(ops: seq<Op<K, V>>, k: K, i: nat) {
    i < |ops| && ops[i].Set? && ops[i].key == k && forall j :: i < j < |ops| && ops[j].Set? ==> ops[j].key != k
  }

  predicate NeverSet<K(!new, ==), V>(ops: seq<Op<K, V>>, k: K) {
    forall j :: 0 <= j < |ops| && ops[j].Set? ==> ops[j].key != k
  }

  /** A lookup finds what was set last, and the snapshot where nothing was set. */
  lemma {:induction false} LastWriteIsRead<K(!new), V>(snapshot: map<K, V>, ops: seq<Op<K, V>>, k: K, i: nat)
    ensures var found := Plain(Ran(snapshot, ops), snapshot, Lookup(k)).1;
      && (LastSet(ops, k, i) ==> found == Value(Some(ops[i].value)))
      && (NeverSet(ops, k) ==> found == Value(if k in snapshot then Some(snapshot[k]) else None))
  {
    if ops != [] {
      var front := ops[..|ops| - 1];
      LastWriteIsRead(snapshot, front, k, i);
      assert LastSet(ops, k, i) && i < |front| ==> LastSet(front, k, i);
    }
  }

  // The replies of an iteration without a cache, for at most `steps` further
  // steps; a missing output ends it.
  function PlainRun<K(!new), V>(overlay: map<K, V>, snapshot: map<K, V>, client: Client<K, V>, said: seq<Reply<K, V>>, steps: nat): seq<Reply<K, V>>
    decreases steps
  {
    if steps == 0 || client(said).None? then [] else
      var step := Plain(overlay, snapshot, client(said).value);
      if Fails(step.1) then [step.1] else [step.1] + PlainRun(step.0, snapshot, client, said + [step.1], steps - 1)
  }

  predicate Fails<K(!new), V>(r: Reply<K, V>) {
    r.Values? && r.values.MissingTxo?
  }

  // `tip` is the chain tip of the database, `unit` the tip the mempool was
  // estimated on, `aborts` whether something else than a lookup fails.
  datatype Iteration<!K(!new), !V> = Iteration(tip: Hash, unit: Hash, client: Client<K, V>, steps: nat, aborts: bool)

  // Without a cache: nothing is done when the tips differ.
  function PlainReplies<K(!new), V>(chain: Hash -> map<K, V>, it: Iteration<K, V>): seq<Reply<K, V>> {
    if it.tip != it.unit then [] else PlainRun(map[], chain(it.tip), it.client, [], it.steps)
  }

  /** The mempool worker and the cache it keeps between iterations. */
  class Worker<K(!new, ==), V(==)> {
    // The snapshot that belongs to a tip.
    const chain: Hash -> map<K, V>
    var cache: Option<Store<K, V>>

    ghost predicate Valid() reads this {
      cache.Some? ==> Within(cache.value.values, chain(cache.value.tip))
    }

    constructor (chain: Hash -> map<K, V>)
      ensures Valid() && this.chain == chain
    {
      this.chain := chain;
      cache := None;
    }

    /** Whatever the cache holds, an iteration replies what it would reply
        without one, and leaves a cache that holds snapshot values only. A
        skipped iteration keeps the cache, a failed one loses it. */
    method Execute(it: Iteration<K, V>) returns (replies: seq<Reply<K, V>>)
      requires Valid()
      modifies this
      ensures Valid() && replies == PlainReplies(chain, it)
      ensures it.tip != it.unit ==> cache == old(cache)
      ensures it.tip == it.unit && (it.aborts || (replies != [] && Fails(replies[|replies| - 1]))) ==> cache == None
      ensures it.tip == it.unit && cache.Some? ==> cache.value.tip == it.tip
    {
      if it.tip != it.unit {
        return [];
      }
      var p := new Processor<K, V>(chain(it.tip), it.tip, cache);
      cache := None;
      var failed;
      replies, failed := RunOps(p, it.client, it.steps);
      if !failed && !it.aborts {
        cache := Some(Store(it.tip, p.output));
      }
    }

    method ExecuteAll(its: seq<Iteration<K, V>>) returns (replies: seq<seq<Reply<K, V>>>)
      requires Valid()
      modifies this
      ensures Valid() && |replies| == |its|
      ensures forall i :: 0 <= i < |its| ==> replies[i] == PlainReplies(chain, its[i])
    {
      replies := [];
      for i := 0 to |its|
        invariant Valid() && |replies| == i
        invariant forall j :: 0 <= j < i ==> replies[j] == PlainReplies(chain, its[j])
      {
        var r := Execute(its[i]);
        replies := replies + [r];
      }
    }
  }

  method RunOne<K(!new, ==), V(==)>(p: Processor<K, V>, op: Op<K, V>) returns (reply: Reply<K, V>)
    requires p.Valid()
    modifies p
    ensures p.Valid() && (p.overlay, reply) == Plain(old(p.overlay), p.snapshot, op)
  {
    hide ReadAll, Within;
    match op {
      case Set(k, v) =>
        p.Write(k, v);
        reply := Done;
      case Lookup(k) =>
        var v := p.Get(k);
        reply := Value(v);
      case LookupAll(keys) =>
        var b := p.Resolve(keys);
        reply := Values(b);
    }
  }

  method RunOps<K(!new, ==), V(==)>(p: Processor<K, V>, client: Client<K, V>, steps: nat) returns (replies: seq<Reply<K, V>>, failed: bool)
    requires p.Valid()
    modifies p
    ensures p.Valid() && replies == PlainRun(old(p.overlay), p.snapshot, client, [], steps)
    ensures failed <==> replies != [] && Fails(replies[|replies| - 1])
  {
    replies, failed := [], false;
    ghost var goal := PlainRun(p.overlay, p.snapshot, client, [], steps);
    assert goal == [] + goal;
    for i := 0 to steps
      invariant p.Valid() && !failed && goal == replies + PlainRun(p.overlay, p.snapshot, client, replies, steps - i)
      invariant replies != [] ==> !Fails(replies[|replies| - 1])
    {
      hide PlainRun, Plain, Within;
      PlainRunStep(p.overlay, p.snapshot, client, replies, steps - i);
      var op := client(replies);
      if op.None? {
        return;
      }
      var reply := RunOne(p, op.value);
      replies := replies + [reply];
      if Fails(reply) {
        failed := true;
        return;
      }
    }
  }

  lemma PlainRunStep<K(!new), V>(overlay: map<K, V>, snapshot: map<K, V>, client: Client<K, V>, said: seq<Reply<K, V>>, steps: nat)
    requires steps > 0
    ensures PlainRun(overlay, snapshot, client, said, steps) ==
      if client(said).None? then [] else
        var step := Plain(overlay, snapshot, client(said).value);
        if Fails(step.1) then [step.1] else [step.1] + PlainRun(step.0, snapshot, client, said + [step.1], steps - 1)
  {
  }
}
