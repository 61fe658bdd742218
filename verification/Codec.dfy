/** The binary codec of keys and values: self-delimiting, and ordered as the
    encoded values are. */
module Codec {
  import opened Chain

  type Byte = n: nat | n < 256
  type Bytes = seq<Byte>

  // ----- unsigned integers: a length byte and the significant bytes

  // The significant bytes of `n`, most significant first.
  function Significant(n: nat): (s: Bytes)
    ensures s != [] ==> s[0] != 0
  {
    if n == 0 then [] else Significant(n / 256) + [n % 256]
  }

  function BigEndian(n: nat, k: nat): (s: Bytes)
    ensures |s| == k
  {
    if k == 0 then [] else BigEndian(n / 256, k - 1) + [n % 256]
  }

  function ValueOf(s: Bytes): nat {
    if s == [] then 0 else 256 * ValueOf(s[..|s| - 1]) + s[|s| - 1]
  }

  function Pow256(k: nat): (p: nat)
    ensures p > 0
  {
    if k == 0 then 1 else 256 * Pow256(k - 1)
  }

  lemma {:induction false} SignificantValue(n: nat)
    ensures ValueOf(Significant(n)) == n
  {
    if n > 0 {
      SignificantValue(n / 256);
      var s := Significant(n);
      assert s[..|s| - 1] == Significant(n / 256);
    }
  }

  lemma {:induction false} SignificantLength(n: nat, k: nat)
    ensures |Significant(n)| <= k <==> n < Pow256(k)
  {
    if n > 0 && k > 0 {
      SignificantLength(n / 256, k - 1);
      var p, q := Pow256(k - 1), n / 256;
      assert n == 256 * q + n % 256;
    }
  }

  lemma Pow16()
    ensures Pow256(16) == U128_MAX + 1
  {
    assert Pow256(4) == 0x1_0000_0000;
    PowDouble(4);
    PowDouble(8);
  }

  lemma PowDouble(k: nat)
    ensures Pow256(k + k) == Pow256(k) * Pow256(k)
  {
    PowAdd(k, k);
  }

  lemma {:induction false} PowAdd(j: nat, k: nat)
    ensures Pow256(j + k) == Pow256(j) * Pow256(k)
  {
    if j > 0 {
      PowAdd(j - 1, k);
      var a, b := Pow256(j - 1), Pow256(k);
      assert 256 * (a * b) == (256 * a) * b;
    }
  }

  lemma AtMost16(n: nat)
    requires n <= U128_MAX
    ensures |Significant(n)| <= 16
  {
    Pow16();
    SignificantLength(n, 16);
  }

  function EncodeUInt(n: nat): (s: Bytes)
    requires n <= U128_MAX
    ensures s != [] && |s| == s[0] as nat + 1
  {
    AtMost16(n);
    [|Significant(n)|] + Significant(n)
  }

  // Big-endian bytes are the significant ones after as many zeros as needed.
  lemma {:induction false} BigEndianSplits(n: nat, k: nat)
    requires |Significant(n)| <= k
    ensures var z := k - |Significant(n)|;
      && BigEndian(n, k)[z..] == Significant(n)
      && forall i :: 0 <= i < z ==> BigEndian(n, k)[i] == 0
  {
    if k > 0 {
      BigEndianSplits(n / 256, k - 1);
      var z := k - |Significant(n)|;
      var front := BigEndian(n / 256, k - 1);
      assert BigEndian(n, k) == front + [n % 256];
      if n > 0 {
        assert BigEndian(n, k)[z..] == front[z..] + [n % 256];
      }
    }
  }

  /** The source's loop: the first of sixteen bytes that is not zero. */
  method EncodeVarUInt(n: nat) returns (out: Bytes)
    requires n <= U128_MAX
    ensures out == EncodeUInt(n)
  {
    var bend := BigEndian(n, 16);
    AtMost16(n);
    BigEndianSplits(n, 16);
    ghost var z := 16 - |Significant(n)|;
    assert z < 16 ==> bend[z] == bend[z..][0] != 0;
    for idx := 0 to 16
      invariant idx <= z && forall i :: 0 <= i < idx ==> bend[i] == 0
    {
      if bend[idx] != 0 {
        return [16 - idx] + bend[idx..];
      }
    }
    out := [0];
  }

  // ----- decoding results

  datatype Decoded<T> = Malformed | Panicked | Ok(value: T, rest: Bytes)

  function DecodeByte(s: Bytes): Decoded<Byte> {
    if s == [] then Malformed else Ok(s[0], s[1..])
  }

  function DecodeUInt(s: Bytes, max: nat): Decoded<nat> {
    if s == [] || s[0] > 16 || |s| - 1 < s[0] then Malformed else
      var end := s[0] as nat + 1;
      var n := ValueOf(s[1..end]);
      if n > max then Malformed else Ok(n, s[end..])
  }

  lemma UIntRoundTrip(n: nat, max: nat, rest: Bytes)
    requires n <= max <= U128_MAX
    ensures DecodeUInt(EncodeUInt(n) + rest, max) == Ok(n, rest)
  {
    AtMost16(n);
    SignificantValue(n);
    var s := EncodeUInt(n) + rest;
    var end := s[0] as nat + 1;
    assert s[1..end] == Significant(n) && s[end..] == rest;
  }

  // ----- schemas and their values

  // Tuples and structs are nested pairs; a unit ends them or stands alone.
  datatype Schema =
    | U8
    | UInt(max: nat)
    | Bool
    | Fixed(size: nat)
    | Short
    | Opt(item: Schema)
    | Unit
    | Pair(first: Schema, second: Schema)
    | List(item: Schema)
    | Dict(entry: Schema)
    | Enum(cases: seq<Schema>)

  datatype Data =
    | Number(n: nat)
    | Flag(b: bool)
    | Blob(s: Bytes)
    | Nothing
    | Just(d: Data)
    | Empty
    | Two(a: Data, b_: Data)
    | Many(items: seq<Data>)
    | Entries(pairs: seq<Data>)
    | Case(index: nat, payload: Data)

  predicate Fits(s: Schema, d: Data)
    decreases s, 0
  {
    match s
    case U8 => d.Number? && d.n < 256
    case UInt(max) => d.Number? && d.n <= max <= U128_MAX
    case Bool => d.Flag?
    case Fixed(size) => d.Blob? && |d.s| == size
    case Short => d.Blob? && |d.s| <= 255
    case Opt(t) => d.Nothing? || (d.Just? && Fits(t, d.d))
    case Unit => d.Empty?
    case Pair(t, u) => d.Two? && Fits(t, d.a) && Fits(u, d.b_)
    case List(t) => d.Many? && |d.items| <= U64_MAX && FitsAll(t, d.items)
    case Dict(t) => t.Pair? && d.Entries? && |d.pairs| <= U64_MAX && FitsAll(t, d.pairs) && DistinctKeys(d.pairs)
    case Enum(cases) => d.Case? && d.index < |cases| && d.index < 256 && Fits(cases[d.index], d.payload)
  }

  predicate FitsAll(t: Schema, items: seq<Data>)
    decreases t, |items| + 1
  {
    items != [] ==> FitsAll(t, items[..|items| - 1]) && Fits(t, items[|items| - 1])
  }

  function Key(d: Data): Data {
    if d.Two? then d.a else d
  }

  predicate DistinctKeys(pairs: seq<Data>) {
    forall i, j :: 0 <= i < j < |pairs| ==> Key(pairs[i]) != Key(pairs[j])
  }

  // ----- encoding and decoding

  function Encode(s: Schema, d: Data): Bytes
    requires Fits(s, d)
    decreases s, 0
  {
    match s
    case U8 => [d.n]
    case UInt(_) => EncodeUInt(d.n)
    case Bool => [if d.b then 1 else 0]
    case Fixed(_) => d.s
    case Short => [|d.s|] + d.s
    case Opt(t) => if d.Nothing? then [0] else [1] + Encode(t, d.d)
    case Unit => []
    case Pair(t, u) => Encode(t, d.a) + Encode(u, d.b_)
    case List(t) => EncodeUInt(|d.items|) + EncodeAll(t, d.items)
    case Dict(t) => EncodeUInt(|d.pairs|) + EncodeAll(t, d.pairs)
    case Enum(cases) => [d.index] + Encode(cases[d.index], d.payload)
  }

  function EncodeAll(t: Schema, items: seq<Data>): Bytes
    requires FitsAll(t, items)
    decreases t, |items| + 1
  {
    if items == [] then [] else EncodeAll(t, items[..|items| - 1]) + Encode(t, items[|items| - 1])
  }

  // An index map keeps the place of a key that comes again.
  function Insert(pairs: seq<Data>, e: Data): seq<Data> {
    if pairs == [] then [e]
    else if Key(pairs[0]) == Key(e) then [e] + pairs[1..]
    else [pairs[0]] + Insert(pairs[1..], e)
  }

  function InsertAll(pairs: seq<Data>): seq<Data> {
    if pairs == [] then [] else Insert(InsertAll(pairs[..|pairs| - 1]), pairs[|pairs| - 1])
  }

  // A short byte string is cut off without a check.
  function DecodeShort(s: Bytes): Decoded<Bytes> {
    if s == [] || |s| - 1 < s[0] then Panicked else
      var end := s[0] as nat + 1;
      Ok(s[1..end], s[end..])
  }

  function DecodeBool(s: Bytes): Decoded<bool> {
    if s == [] || s[0] > 1 then Malformed else Ok(s[0] == 1, s[1..])
  }

  function Decode(t: Schema, s: Bytes): Decoded<Data>
    decreases t, 0
  {
    match t
    case U8 => (
      match DecodeByte(s)
      case Ok(b, rest) => Ok(Number(b), rest)
      case _ => Malformed)
    case UInt(max) => (
      match DecodeUInt(s, max)
      case Ok(n, rest) => Ok(Number(n), rest)
      case _ => Malformed)
    case Bool => (
      match DecodeBool(s)
      case Ok(b, rest) => Ok(Flag(b), rest)
      case _ => Malformed)
    case Fixed(size) => if |s| < size then Malformed else Ok(Blob(s[..size]), s[size..])
    case Short => (
      match DecodeShort(s)
      case Ok(b, rest) => Ok(Blob(b), rest)
      case _ => Panicked)
    case Opt(u) => (
      match DecodeBool(s)
      case Ok(false, rest) => Ok(Nothing, rest)
      case Ok(true, rest) => (
        match Decode(u, rest)
        case Ok(d, rest') => Ok(Just(d), rest')
        case e => e)
      case _ => Malformed)
    case Unit => Ok(Empty, s)
    case Pair(u, v) => (
      match Decode(u, s)
      case Ok(a, rest) => (
        match Decode(v, rest)
        case Ok(b, rest') => Ok(Two(a, b), rest')
        case e => e)
      case e => e)
    case List(u) => (
      match DecodeUInt(s, U64_MAX)
      case Ok(n, rest) => (
        match DecodeMany(u, n, rest)
        case Ok(items, rest') => Ok(Many(items), rest')
        case Malformed => Malformed
        case Panicked => Panicked)
      case _ => Malformed)
    case Dict(u) => (
      match DecodeUInt(s, U128_MAX)
      case Ok(n, rest) => (
        match DecodeMany(u, n, rest)
        case Ok(items, rest') => Ok(Entries(InsertAll(items)), rest')
        case Malformed => Malformed
        case Panicked => Panicked)
      case _ => Malformed)
    case Enum(cases) =>
      if s == [] || s[0] >= |cases| then Malformed else
        match Decode(cases[s[0]], s[1..])
        case Ok(d, rest) => Ok(Case(s[0], d), rest)
        case e => e
  }

  // `n` items one after the other.
  function DecodeMany(t: Schema, n: nat, s: Bytes): Decoded<seq<Data>>
    decreases t, n + 1
  {
    if n == 0 then Ok([], s) else
      match DecodeMany(t, n - 1, s)
      case Ok(items, rest) => (
        match Decode(t, rest)
        case Ok(d, rest') => Ok(items + [d], rest')
        case Malformed => Malformed
        case Panicked => Panicked)
      case e => e
  }

  // ----- round trip

  lemma {:induction false} InsertNew(pairs: seq<Data>, e: Data)
    requires forall i :: 0 <= i < |pairs| ==> Key(pairs[i]) != Key(e)
    ensures Insert(pairs, e) == pairs + [e]
  {
    if pairs != [] {
      InsertNew(pairs[1..], e);
    }
  }

  lemma {:induction false} InsertAllDistinct(pairs: seq<Data>)
    requires DistinctKeys(pairs)
    ensures InsertAll(pairs) == pairs
  {
    if pairs != [] {
      var front := pairs[..|pairs| - 1];
      InsertAllDistinct(front);
      InsertNew(front, pairs[|pairs| - 1]);
      assert pairs == front + [pairs[|pairs| - 1]];
    }
  }

  predicate Leaf(t: Schema) {
    t.U8? || t.UInt? || t.Bool? || t.Fixed? || t.Short? || t.Unit?
  }

  lemma LeafTrip(t: Schema, d: Data, rest: Bytes)
    requires Leaf(t) && Fits(t, d)
    ensures Decode(t, Encode(t, d) + rest) == Ok(d, rest)
  {
    var s := Encode(t, d) + rest;
    match t
    case UInt(max) => UIntRoundTrip(d.n, max, rest);
    case Fixed(size) => assert s[..size] == d.s && s[size..] == rest;
    case Short => assert s[1..|d.s| + 1] == d.s && s[|d.s| + 1..] == rest;
    case Unit => assert s == rest;
    case _ =>
  }

  lemma DecodePair(t: Schema, u: Schema, s: Bytes, a: Data, r: Bytes, b: Data, q: Bytes)
    requires Decode(t, s) == Ok(a, r) && Decode(u, r) == Ok(b, q)
    ensures Decode(Pair(t, u), s) == Ok(Two(a, b), q)
  {
  }

  lemma PairTrip(t: Schema, u: Schema, d: Data, rest: Bytes)
    requires Fits(Pair(t, u), d)
    requires Decode(t, Encode(t, d.a) + (Encode(u, d.b_) + rest)) == Ok(d.a, Encode(u, d.b_) + rest)
    requires Decode(u, Encode(u, d.b_) + rest) == Ok(d.b_, rest)
    ensures Decode(Pair(t, u), Encode(Pair(t, u), d) + rest) == Ok(d, rest)
  {
    hide Decode, EncodeUInt, EncodeAll, FitsAll, DistinctKeys;
    var s := Encode(t, d.a) + (Encode(u, d.b_) + rest);
    assert Encode(Pair(t, u), d) + rest == s;
    DecodePair(t, u, s, d.a, Encode(u, d.b_) + rest, d.b_, rest);
  }

  lemma DecodeJust(t: Schema, s: Bytes, d: Data, rest: Bytes)
    requires s != [] && s[0] == 1 && Decode(t, s[1..]) == Ok(d, rest)
    ensures Decode(Opt(t), s) == Ok(Just(d), rest)
  {
  }

  lemma DecodeCase(cases: seq<Schema>, s: Bytes, d: Data, rest: Bytes)
    requires s != [] && s[0] < |cases| && Decode(cases[s[0]], s[1..]) == Ok(d, rest)
    ensures Decode(Enum(cases), s) == Ok(Case(s[0], d), rest)
  {
  }

  lemma DecodeList(t: Schema, s: Bytes, n: nat, r: Bytes, items: seq<Data>, rest: Bytes)
    requires DecodeUInt(s, U64_MAX) == Ok(n, r) && DecodeMany(t, n, r) == Ok(items, rest)
    ensures Decode(List(t), s) == Ok(Many(items), rest)
  {
  }

  lemma DecodeDict(t: Schema, s: Bytes, n: nat, r: Bytes, items: seq<Data>, rest: Bytes)
    requires DecodeUInt(s, U128_MAX) == Ok(n, r) && DecodeMany(t, n, r) == Ok(items, rest)
    ensures Decode(Dict(t), s) == Ok(Entries(InsertAll(items)), rest)
  {
  }

  lemma JustTrip(t: Schema, d: Data, rest: Bytes)
    requires Fits(Opt(t), d) && d.Just? && Decode(t, Encode(t, d.d) + rest) == Ok(d.d, rest)
    ensures Decode(Opt(t), Encode(Opt(t), d) + rest) == Ok(d, rest)
  {
    hide Decode;
    var s := Encode(Opt(t), d) + rest;
    assert s[1..] == Encode(t, d.d) + rest;
    DecodeJust(t, s, d.d, rest);
  }

  lemma CaseTrip(cases: seq<Schema>, d: Data, rest: Bytes)
    requires Fits(Enum(cases), d)
    requires Decode(cases[d.index], Encode(cases[d.index], d.payload) + rest) == Ok(d.payload, rest)
    ensures Decode(Enum(cases), Encode(Enum(cases), d) + rest) == Ok(d, rest)
  {
    hide Decode;
    var s := Encode(Enum(cases), d) + rest;
    assert s[1..] == Encode(cases[d.index], d.payload) + rest;
    DecodeCase(cases, s, d.payload, rest);
  }

  lemma ListTrip(t: Schema, d: Data, rest: Bytes)
    requires Fits(List(t), d) && DecodeMany(t, |d.items|, EncodeAll(t, d.items) + rest) == Ok(d.items, rest)
    ensures Decode(List(t), Encode(List(t), d) + rest) == Ok(d, rest)
  {
    hide Decode, DecodeMany, DecodeUInt, EncodeUInt, EncodeAll, FitsAll;
    var s, r := Encode(List(t), d) + rest, EncodeAll(t, d.items) + rest;
    UIntRoundTrip(|d.items|, U64_MAX, r);
    assert s == EncodeUInt(|d.items|) + r;
    DecodeList(t, s, |d.items|, r, d.items, rest);
  }

  lemma DictTrip(t: Schema, d: Data, rest: Bytes)
    requires Fits(Dict(t), d) && DecodeMany(t, |d.pairs|, EncodeAll(t, d.pairs) + rest) == Ok(d.pairs, rest)
    ensures Decode(Dict(t), Encode(Dict(t), d) + rest) == Ok(d, rest)
  {
    hide Decode, DecodeMany, DecodeUInt, EncodeUInt, EncodeAll, FitsAll, DistinctKeys, InsertAll;
    var s, r := Encode(Dict(t), d) + rest, EncodeAll(t, d.pairs) + rest;
    UIntRoundTrip(|d.pairs|, U128_MAX, r);
    assert s == EncodeUInt(|d.pairs|) + r;
    DecodeDict(t, s, |d.pairs|, r, d.pairs, rest);
    InsertAllDistinct(d.pairs);
  }

  /** Decoding what was encoded gives the value back and leaves whatever came
      after it, for every schema. */
  lemma {:induction false} RoundTrip(t: Schema, d: Data, rest: Bytes)
    requires Fits(t, d)
    ensures Decode(t, Encode(t, d) + rest) == Ok(d, rest)
    decreases t, 0
  {
    hide EncodeUInt, EncodeAll, Decode, DecodeMany, FitsAll, DistinctKeys;
    match t
    case Opt(u) =>
      if d.Just? {
        RoundTrip(u, d.d, rest);
        JustTrip(u, d, rest);
      } else {
        NothingTrip(u, rest);
      }
    case Pair(u, v) =>
      RoundTrip(u, d.a, Encode(v, d.b_) + rest);
      RoundTrip(v, d.b_, rest);
      PairTrip(u, v, d, rest);
    case List(u) =>
      ManyRoundTrip(u, d.items, rest);
      ListTrip(u, d, rest);
    case Dict(u) =>
      ManyRoundTrip(u, d.pairs, rest);
      DictTrip(u, d, rest);
    case Enum(cases) =>
      RoundTrip(cases[d.index], d.payload, rest);
      CaseTrip(cases, d, rest);
    case _ => LeafTrip(t, d, rest);
  }

  lemma NothingTrip(t: Schema, rest: Bytes)
    ensures Decode(Opt(t), Encode(Opt(t), Nothing) + rest) == Ok(Nothing, rest)
  {
  }

  lemma {:induction false} ManyRoundTrip(t: Schema, items: seq<Data>, rest: Bytes)
    requires FitsAll(t, items)
    ensures DecodeMany(t, |items|, EncodeAll(t, items) + rest) == Ok(items, rest)
    decreases t, |items| + 1
  {
    hide Encode, Decode, Fits;
    if items == [] {
      assert EncodeAll(t, items) + rest == rest;
    } else {
      var front, last := items[..|items| - 1], items[|items| - 1];
      ManyRoundTrip(t, front, Encode(t, last) + rest);
      RoundTrip(t, last, rest);
      OneMore(t, front, last, EncodeAll(t, front), Encode(t, last), rest);
      assert items == front + [last];
    }
  }

  lemma OneMore(t: Schema, front: seq<Data>, last: Data, a: Bytes, b: Bytes, rest: Bytes)
    requires DecodeMany(t, |front|, a + (b + rest)) == Ok(front, b + rest) && Decode(t, b + rest) == Ok(last, rest)
    ensures DecodeMany(t, |front| + 1, (a + b) + rest) == Ok(front + [last], rest)
  {
    hide Decode;
    assert (a + b) + rest == a + (b + rest);
  }

  /** No encoding is the beginning of another one, whatever follows, and
      different values are encoded differently. */
  lemma PrefixFree(t: Schema, a: Data, b: Data, x: Bytes, y: Bytes)
    requires Fits(t, a) && Fits(t, b) && Encode(t, a) + x == Encode(t, b) + y
    ensures a == b && x == y
  {
    RoundTrip(t, a, x);
    RoundTrip(t, b, y);
  }

  // ----- the source's loops over items

  lemma {:induction false} ManyFails(t: Schema, i: nat, n: nat, s: Bytes)
    requires i <= n && !DecodeMany(t, i, s).Ok?
    ensures DecodeMany(t, n, s) == DecodeMany(t, i, s)
    decreases n
  {
    hide Decode;
    if i < n {
      ManyFails(t, i, n - 1, s);
    }
  }

  method DecodeItems(t: Schema, n: nat, s: Bytes) returns (r: Decoded<seq<Data>>)
    ensures r == DecodeMany(t, n, s)
    decreases t, 1
  {
    hide Decode;
    var items, rest := [], s;
    for i := 0 to n
      invariant DecodeMany(t, i, s) == Ok(items, rest)
    {
      var item := DecodeValue(t, rest);
      if !item.Ok? {
        ManyFails(t, i + 1, n, s);
        return if item.Malformed? then Malformed else Panicked;
      }
      items, rest := items + [item.value], item.rest;
    }
    r := Ok(items, rest);
  }

  method DecodeEntries(t: Schema, n: nat, s: Bytes) returns (r: Decoded<seq<Data>>)
    ensures r == match DecodeMany(t, n, s) case Ok(items, rest) => Ok(InsertAll(items), rest) case e => e
    decreases t, 1
  {
    hide Decode, Insert;
    var map_, rest := [], s;
    ghost var items := [];
    for i := 0 to n
      invariant DecodeMany(t, i, s) == Ok(items, rest) && map_ == InsertAll(items)
    {
      var item := DecodeValue(t, rest);
      if !item.Ok? {
        ManyFails(t, i + 1, n, s);
        return if item.Malformed? then Malformed else Panicked;
      }
      assert (items + [item.value])[..|items|] == items;
      items := items + [item.value];
      map_, rest := Insert(map_, item.value), item.rest;
    }
    r := Ok(map_, rest);
  }

  /** Decoding as the source does it, with a loop for every list and map. */
  method DecodeValue(t: Schema, s: Bytes) returns (r: Decoded<Data>)
    ensures r == Decode(t, s)
    decreases t, 0
  {
    hide DecodeUInt, DecodeMany, InsertAll, DecodeShort;
    match t
    case Opt(u) =>
      var present := DecodeBool(s);
      if !present.Ok? {
        return Malformed;
      }
      if !present.value {
        return Ok(Nothing, present.rest);
      }
      r := DecodeValue(u, present.rest);
      if r.Ok? {
        r := Ok(Just(r.value), r.rest);
      }
    case Pair(u, v) =>
      r := DecodeValue(u, s);
      if r.Ok? {
        var first := r.value;
        r := DecodeValue(v, r.rest);
        if r.Ok? {
          r := Ok(Two(first, r.value), r.rest);
        }
      }
    case List(u) =>
      var n := DecodeUInt(s, U64_MAX);
      if !n.Ok? {
        return Malformed;
      }
      var items := DecodeItems(u, n.value, n.rest);
      r := if items.Ok? then Ok(Many(items.value), items.rest) else if items.Malformed? then Malformed else Panicked;
    case Dict(u) =>
      var n := DecodeUInt(s, U128_MAX);
      if !n.Ok? {
        return Malformed;
      }
      var pairs := DecodeEntries(u, n.value, n.rest);
      r := if pairs.Ok? then Ok(Entries(pairs.value), pairs.rest) else if pairs.Malformed? then Malformed else Panicked;
    case Enum(cases) =>
      if s == [] || s[0] >= |cases| {
        return Malformed;
      }
      r := DecodeValue(cases[s[0]], s[1..]);
      if r.Ok? {
        r := Ok(Case(s[0], r.value), r.rest);
      }
    case _ => r := Decode(t, s);
  }
}
