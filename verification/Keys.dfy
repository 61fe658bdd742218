/** Keys in byte order: what a range of keys holds, and how encoded fields sort. */
module Keys {
  import opened Chain
  import opened Codec

  // ----- byte order

  // The length of the common beginning.
  function Common(a: Bytes, b: Bytes): (n: nat)
    ensures n <= |a| && n <= |b|
  {
    if a == [] || b == [] || a[0] != b[0] then 0 else 1 + Common(a[1..], b[1..])
  }

  // Neither is a prefix of the other, and the first has the smaller byte
  // where they differ.
  predicate Before(a: Bytes, b: Bytes) {
    var n := Common(a, b);
    n < |a| && n < |b| && a[n] < b[n]
  }

  predicate Less(a: Bytes, b: Bytes) {
    var n := Common(a, b);
    n < |b| && (n == |a| || a[n] < b[n])
  }

  predicate AtMost(a: Bytes, b: Bytes) {
    a == b || Less(a, b)
  }

  lemma {:induction false} CommonIs(a: Bytes, b: Bytes, n: nat)
    requires n <= |a| && n <= |b| && forall i :: 0 <= i < n ==> a[i] == b[i]
    requires n == |a| || n == |b| || a[n] != b[n]
    ensures Common(a, b) == n
  {
    if n > 0 {
      CommonIs(a[1..], b[1..], n - 1);
    }
  }

  lemma {:induction false} CommonBytes(a: Bytes, b: Bytes)
    ensures var n := Common(a, b);
      (forall i :: 0 <= i < n ==> a[i] == b[i]) && (n == |a| || n == |b| || a[n] != b[n])
  {
    if a != [] && b != [] && a[0] == b[0] {
      CommonBytes(a[1..], b[1..]);
      var n := Common(a, b);
      assert forall i :: 1 <= i < n ==> a[i] == a[1..][i - 1] && b[i] == b[1..][i - 1];
    }
  }

  /** Byte order is total. */
  lemma Comparable(a: Bytes, b: Bytes)
    ensures Less(a, b) || a == b || Less(b, a)
    ensures !(Less(a, b) && Less(b, a)) && !(a == b && Less(a, b))
  {
    CommonBytes(a, b);
    CommonIs(b, a, Common(a, b));
  }

  /** Byte order is transitive. */
  lemma Transitive(a: Bytes, b: Bytes, c: Bytes)
    requires Less(a, b) && Less(b, c)
    ensures Less(a, c)
  {
    CommonBytes(a, b);
    CommonBytes(b, c);
    var m, n := Common(a, b), Common(b, c);
    CommonIs(a, c, if m <= n then m else n);
  }

  // A difference stays when more is appended.
  lemma BeforeExtends(a: Bytes, b: Bytes, x: Bytes, y: Bytes)
    requires Before(a, b)
    ensures Before(a + x, b + y)
  {
    CommonBytes(a, b);
    CommonIs(a + x, b + y, Common(a, b));
  }

  lemma Behind(p: Bytes, a: Bytes, b: Bytes)
    ensures Common(p + a, p + b) == |p| + Common(a, b)
    ensures (Before(p + a, p + b) <==> Before(a, b)) && (Less(p + a, p + b) <==> Less(a, b))
  {
    CommonBytes(a, b);
    CommonIs(p + a, p + b, |p| + Common(a, b));
  }

  lemma PrefixIsCommon(p: Bytes, k: Bytes)
    ensures p <= k <==> Common(p, k) == |p|
  {
    CommonBytes(p, k);
    if p <= k {
      CommonIs(p, k, |p|);
    }
  }

  // ----- a prefix as a range

  // The end of the range of keys that begin with `p`; none if it is empty.
  function PrefixEnd(p: Bytes): Bytes {
    if p == [] then []
    else if p[|p| - 1] != 255 then p[..|p| - 1] + [p[|p| - 1] + 1]
    else PrefixEnd(p[..|p| - 1])
  }

  /** The source's loop, from the last byte backwards. */
  method PrefixKeyRange(prefix: Bytes) returns (start: Bytes, end: Bytes)
    ensures start == prefix && end == PrefixEnd(prefix)
  {
    start, end := prefix, prefix;
    assert prefix[..|prefix|] == prefix;
    for i := |end| downto 0
      invariant end == prefix && PrefixEnd(prefix[..i]) == PrefixEnd(prefix)
    {
      assert prefix[..i + 1][..i] == prefix[..i];
      if end[i] != 255 {
        end := end[..i] + [end[i] + 1];
        return;
      }
    }
    end := [];
  }

  predicate InRange(k: Bytes, start: Bytes, end: Bytes) {
    AtMost(start, k) && (end == [] || Less(k, end))
  }

  lemma {:induction false} BelowEnd(p: Bytes, k: Bytes)
    requires AtMost(p, k)
    ensures p <= k <==> PrefixEnd(p) == [] || Less(k, PrefixEnd(p))
  {
    hide Common;
    PrefixIsCommon(p, k);
    CommonBytes(p, k);
    if p != [] {
      var m, n := |p| - 1, Common(p, k);
      if p[m] != 255 {
        var end := p[..m] + [p[m] + 1];
        CommonIs(k, end, if n < m then n else if m < |k| && k[m] == p[m] + 1 then m + 1 else m);
      } else {
        var front := p[..m];
        CommonIs(front, k, if n < m then n else m);
        PrefixIsCommon(front, k);
        BelowEnd(front, k);
      }
    }
  }

  /** The range of a prefix holds exactly the keys that begin with it. */
  lemma PrefixRangeLaw(p: Bytes, k: Bytes)
    ensures InRange(k, p, PrefixEnd(p)) <==> p <= k
  {
    PrefixIsCommon(p, k);
    if AtMost(p, k) {
      BelowEnd(p, k);
    }
  }

  // ----- encoded integers sort as integers

  lemma {:induction false} SignificantOrder(m: nat, n: nat)
    requires m < n && |Significant(m)| == |Significant(n)|
    ensures Before(Significant(m), Significant(n))
  {
    hide Common;
    var a, b := Significant(m / 256), Significant(n / 256);
    if m / 256 < n / 256 {
      SignificantOrder(m / 256, n / 256);
      BeforeExtends(a, b, [m % 256], [n % 256]);
    } else {
      Behind(a, [m % 256], [n % 256]);
      CommonIs([m % 256], [n % 256], 0);
    }
  }

  /** Smaller integers come first, whatever follows. */
  lemma UIntOrder(m: nat, n: nat)
    requires m < n <= U128_MAX
    ensures Before(EncodeUInt(m), EncodeUInt(n))
  {
    hide Common, Significant;
    var a, b := Significant(m), Significant(n);
    AtMost16(n);
    SignificantLength(m, |b|);
    SignificantLength(n, |b|);
    if |a| < |b| {
      CommonIs(EncodeUInt(m), EncodeUInt(n), 0);
    } else {
      SignificantOrder(m, n);
      Behind([|a|], a, b);
    }
  }

  lemma BeforeIsLess(a: Bytes, b: Bytes)
    requires Before(a, b)
    ensures Less(a, b) && !Less(b, a)
  {
    Comparable(a, b);
  }

  // ----- encoded fields sort field by field

  // Not lists, maps and short byte strings: they sort by length first.
  predicate Sortable(t: Schema) {
    match t
    case Short => false
    case List(_) => false
    case Dict(_) => false
    case Opt(u) => Sortable(u)
    case Pair(u, v) => Sortable(u) && Sortable(v)
    case Enum(cases) => forall i :: 0 <= i < |cases| ==> Sortable(cases[i])
    case _ => true
  }

  // Numbers as numbers, no value before any value, tuples from the left.
  predicate Precedes(t: Schema, a: Data, b: Data)
    requires Sortable(t) && Fits(t, a) && Fits(t, b)
  {
    match t
    case U8 => a.n < b.n
    case UInt(_) => a.n < b.n
    case Bool => !a.b && b.b
    case Fixed(_) => Before(a.s, b.s)
    case Opt(u) => b.Just? && (a.Nothing? || Precedes(u, a.d, b.d))
    case Unit => false
    case Pair(u, v) => Precedes(u, a.a, b.a) || (a.a == b.a && Precedes(v, a.b_, b.b_))
    case Enum(cases) => a.index < b.index || (a.index == b.index && Precedes(cases[a.index], a.payload, b.payload))
    case _ => false
  }

  /** What precedes is encoded before, whatever follows. */
  lemma {:induction false} OrderKept(t: Schema, a: Data, b: Data)
    requires Sortable(t) && Fits(t, a) && Fits(t, b) && Precedes(t, a, b)
    ensures Before(Encode(t, a), Encode(t, b))
  {
    hide Common, EncodeUInt, EncodeAll, FitsAll, DistinctKeys;
    match t
    case UInt(_) => UIntOrder(a.n, b.n);
    case Opt(u) =>
      if a.Just? {
        OrderKept(u, a.d, b.d);
        Behind([1], Encode(u, a.d), Encode(u, b.d));
      } else {
        CommonIs(Encode(t, a), Encode(t, b), 0);
      }
    case Pair(u, v) =>
      if a.a == b.a {
        OrderOrSame(t, a, b);
        OrderKept(v, a.b_, b.b_);
        Behind(Encode(u, a.a), Encode(v, a.b_), Encode(v, b.b_));
      } else {
        OrderKept(u, a.a, b.a);
        BeforeExtends(Encode(u, a.a), Encode(u, b.a), Encode(v, a.b_), Encode(v, b.b_));
      }
    case Enum(cases) =>
      if a.index < b.index {
        CommonIs(Encode(t, a), Encode(t, b), 0);
      } else {
        OrderKept(cases[a.index], a.payload, b.payload);
        Behind([a.index], Encode(cases[a.index], a.payload), Encode(cases[a.index], b.payload));
      }
    case U8 => CommonIs(Encode(t, a), Encode(t, b), 0);
    case Bool => CommonIs(Encode(t, a), Encode(t, b), 0);
    case _ =>
  }

  lemma OrderOrSame(t: Schema, a: Data, b: Data)
    requires t.Pair? && Sortable(t) && Fits(t, a) && Fits(t, b) && Precedes(t, a, b) && a.a == b.a
    ensures Precedes(t.second, a.b_, b.b_)
  {
    Irreflexive(t.first, a.a);
  }

  lemma {:induction false} Irreflexive(t: Schema, a: Data)
    requires Sortable(t) && Fits(t, a)
    ensures !Precedes(t, a, a)
  {
    match t
    case Fixed(_) => CommonBytes(a.s, a.s);
    case Opt(u) =>
      if a.Just? {
        Irreflexive(u, a.d);
      }
    case Pair(u, v) =>
      Irreflexive(u, a.a);
      Irreflexive(v, a.b_);
    case Enum(cases) => Irreflexive(cases[a.index], a.payload);
    case _ =>
  }

  lemma {:induction false} OrderTotal(t: Schema, a: Data, b: Data)
    requires Sortable(t) && Fits(t, a) && Fits(t, b) && a != b
    ensures Precedes(t, a, b) || Precedes(t, b, a)
  {
    hide Common, EncodeAll, FitsAll, DistinctKeys;
    match t
    case Fixed(_) =>
      CommonBytes(a.s, b.s);
      CommonIs(b.s, a.s, Common(a.s, b.s));
    case Opt(u) =>
      if a.Just? && b.Just? {
        OrderTotal(u, a.d, b.d);
      }
    case Pair(u, v) =>
      if a.a != b.a {
        OrderTotal(u, a.a, b.a);
      } else {
        OrderTotal(v, a.b_, b.b_);
      }
    case Enum(cases) =>
      if a.index == b.index {
        OrderTotal(cases[a.index], a.payload, b.payload);
      }
    case _ =>
  }

  /** Byte order is field order: keys sort by their encoded fields first and by
      what follows only when these are equal. */
  lemma FieldOrder(t: Schema, a: Data, b: Data, x: Bytes, y: Bytes)
    requires Sortable(t) && Fits(t, a) && Fits(t, b)
    ensures Less(Encode(t, a) + x, Encode(t, b) + y) <==> Precedes(t, a, b) || (a == b && Less(x, y))
  {
    hide Common, Before, Less, Fits, Sortable, Precedes, Encode;
    if a == b {
      Irreflexive(t, a);
      Behind(Encode(t, a), x, y);
    } else {
      OtherFields(t, a, b, x, y);
    }
  }

  lemma OtherFields(t: Schema, a: Data, b: Data, x: Bytes, y: Bytes)
    requires Sortable(t) && Fits(t, a) && Fits(t, b) && a != b
    ensures Less(Encode(t, a) + x, Encode(t, b) + y) <==> Precedes(t, a, b)
  {
    hide Common, Before, Less, Fits, Sortable, Precedes, Encode;
    OrderTotal(t, a, b);
    var u, v := Encode(t, a), Encode(t, b);
    if Precedes(t, a, b) {
      OrderKept(t, a, b);
      Apart(u, v, x, y);
    } else {
      OrderKept(t, b, a);
      Apart(v, u, y, x);
    }
  }

  lemma Apart(a: Bytes, b: Bytes, x: Bytes, y: Bytes)
    requires Before(a, b)
    ensures Less(a + x, b + y) && !Less(b + y, a + x) && a + x != b + y
  {
    BeforeExtends(a, b, x, y);
    BeforeIsLess(a + x, b + y);
    Comparable(a + x, b + y);
  }

  // ----- keys of a reducer, and the range of a query

  // Tag of data keys, and the byte that closes the reducer's name.
  const DATA: Byte := 68
  const BREAK: Byte := 96

  type U16 = n: nat | n < 0x1_0000

  datatype Namespace = Namespace(dataplane: Byte, instance: U16)

  // Everything before the parameters of a key.
  function Head(ns: Namespace, reducer: Byte): (head: Bytes)
    ensures |head| == 6
  {
    [ns.dataplane] + BigEndian(ns.instance, 2) + [DATA, reducer, BREAK]
  }

  // The height comes after the parameters, then the rest of the key.
  function DataKey(ns: Namespace, reducer: Byte, t: Schema, params: Data, height: nat, rest: Bytes): Bytes
    requires Fits(t, params) && height <= U64_MAX
  {
    Head(ns, reducer) + (Encode(t, params) + (EncodeUInt(height) + rest))
  }

  function SaturatingSucc(n: nat): nat {
    if n < U64_MAX then n + 1 else U64_MAX
  }

  // The range for some parameters and heights; a missing bound is that of the parameters.
  function QueryRange(ns: Namespace, reducer: Byte, t: Schema, params: Data, from: Option<nat>, upto: Option<nat>): (Bytes, Bytes)
    requires Fits(t, params) && (from.Some? ==> from.value <= U64_MAX)
  {
    var base := Head(ns, reducer) + Encode(t, params);
    (if from.Some? then base + EncodeUInt(from.value) else base,
     if upto.Some? then base + EncodeUInt(SaturatingSucc(upto.value)) else PrefixEnd(base))
  }

  predicate Within(height: nat, from: Option<nat>, upto: Option<nat>) {
    (from.Some? ==> from.value <= height) && (upto.Some? ==> height < SaturatingSucc(upto.value))
  }

  // Keys of other parameters lie entirely before or after.
  lemma ParamsApart(t: Schema, p: Data, q: Data)
    requires Fits(t, p) && Fits(t, q) && p != q
    ensures Before(Encode(t, p), Encode(t, q)) || Before(Encode(t, q), Encode(t, p))
  {
    hide Encode, Fits;
    var a, b := Encode(t, p), Encode(t, q);
    CommonBytes(a, b);
    var n := Common(a, b);
    CommonIs(b, a, n);
    if n == |a| {
      assert b == a + b[n..] && b + [] == b;
      PrefixFree(t, p, q, b[n..], []);
    } else if n == |b| {
      assert a == b + a[n..] && a + [] == a;
      PrefixFree(t, q, p, a[n..], []);
    }
  }

  lemma HeightAtLeast(base: Bytes, height: nat, rest: Bytes, from: nat)
    requires height <= U64_MAX && from <= U64_MAX
    ensures AtMost(base + EncodeUInt(from), base + (EncodeUInt(height) + rest)) <==> from <= height
    ensures Less(base + (EncodeUInt(height) + rest), base + EncodeUInt(from)) <==> height < from
  {
    hide Common, EncodeUInt;
    var a, b := EncodeUInt(from), EncodeUInt(height);
    Behind(base, a, b + rest);
    Behind(base, b + rest, a);
    assert a + [] == a;
    if from < height {
      UIntOrder(from, height);
      BeforeExtends(a, b, [], rest);
      BeforeIsLess(a, b + rest);
      SamePrefix(base, a, b + rest);
    } else if height < from {
      UIntOrder(height, from);
      BeforeExtends(b, a, rest, []);
      BeforeIsLess(b + rest, a);
      SamePrefix(base, a, b + rest);
    } else {
      Behind(a, [], rest);
      Behind(a, rest, []);
      Comparable(a, a + rest);
      CommonIs([], rest, 0);
      CommonIs(rest, [], 0);
      assert rest == [] ==> a + rest == a;
    }
  }

  lemma SamePrefix(p: Bytes, a: Bytes, b: Bytes)
    requires Less(a, b) || Less(b, a)
    ensures p + a != p + b
  {
    Comparable(a, b);
    assert a == (p + a)[|p|..] && b == (p + b)[|p|..];
  }

  lemma PrefixAtMost(base: Bytes, x: Bytes)
    ensures AtMost(base, base + x) && base <= base + x
  {
    Behind(base, [], x);
    assert base + [] == base;
    CommonIs([], x, 0);
    assert x == [] ==> base + x == base;
  }

  lemma QuerySame(base: Bytes, height: nat, rest: Bytes, from: Option<nat>, upto: Option<nat>)
    requires height <= U64_MAX && (from.Some? ==> from.value <= U64_MAX)
    ensures var key := base + (EncodeUInt(height) + rest);
      var start := if from.Some? then base + EncodeUInt(from.value) else base;
      var end := if upto.Some? then base + EncodeUInt(SaturatingSucc(upto.value)) else PrefixEnd(base);
      InRange(key, start, end) <==> Within(height, from, upto)
  {
    hide Common, Less, EncodeUInt, PrefixEnd;
    PrefixAtMost(base, EncodeUInt(height) + rest);
    PrefixRangeLaw(base, base + (EncodeUInt(height) + rest));
    if from.Some? {
      HeightAtLeast(base, height, rest, from.value);
    }
    if upto.Some? {
      HeightAtLeast(base, height, rest, SaturatingSucc(upto.value));
    }
  }

  // Keys that differ before the heights are compared lie outside.
  lemma QueryOther(head: Bytes, mine: Bytes, other: Bytes, lower: Bytes, upper: Option<Bytes>, rest: Bytes)
    requires Before(mine, other) || Before(other, mine)
    ensures !InRange(head + (other + rest), head + mine + lower,
                     if upper.Some? then head + mine + upper.value else PrefixEnd(head + mine))
  {
    hide Common, Before, Less, PrefixEnd;
    var base, key := head + mine, head + (other + rest);
    assert base + lower == head + (mine + lower);
    if Before(mine, other) {
      Behind(head, mine, other + rest);
      if upper.Some? {
        Apart(mine, other, upper.value, rest);
        Behind(head, other + rest, mine + upper.value);
        assert base + upper.value == head + (mine + upper.value);
        NotEmpty(mine, other);
      } else {
        Apart(mine, other, [], rest);
        assert mine + [] == mine;
        PrefixRangeLaw(base, key);
        NoPrefix(mine, other, rest, head);
      }
    } else {
      Apart(other, mine, rest, lower);
      Behind(head, mine + lower, other + rest);
      SamePrefix(head, mine + lower, other + rest);
    }
  }

  lemma NotEmpty(a: Bytes, b: Bytes)
    requires Before(a, b)
    ensures a != []
  {
  }

  lemma NoPrefix(a: Bytes, b: Bytes, x: Bytes, p: Bytes)
    requires Before(a, b)
    ensures !(p + a <= p + (b + x)) && AtMost(p + a, p + (b + x))
  {
    BeforeExtends(a, b, [], x);
    assert a + [] == a;
    Behind(p, a, b + x);
    PrefixIsCommon(p + a, p + (b + x));
  }

  // Between two keys with a common beginning every key has that beginning.
  lemma SharesPrefix(base: Bytes, lower: Bytes, upper: Bytes, k: Bytes)
    requires AtMost(base + lower, k) && Less(k, base + upper)
    ensures base <= k
  {
    hide Common;
    var a, b := base + lower, base + upper;
    var n := Common(base, k);
    CommonBytes(base, k);
    CommonIs(k, base, n);
    if n < |base| {
      CommonIs(a, k, n);
      CommonIs(k, b, n);
    } else {
      PrefixIsCommon(base, k);
    }
  }

  /** Whatever is in the range of a query, key or not, begins with the query's
      namespace, the tag of data keys, its reducer and its parameters. */
  lemma QueryOnly(ns: Namespace, reducer: Byte, t: Schema, params: Data, from: Option<nat>, upto: Option<nat>, k: Bytes)
    requires Fits(t, params) && (from.Some? ==> from.value <= U64_MAX)
    requires var r := QueryRange(ns, reducer, t, params, from, upto); InRange(k, r.0, r.1)
    ensures Head(ns, reducer) + Encode(t, params) <= k
  {
    hide Common, Less, Fits, Encode, EncodeUInt, PrefixEnd, Head;
    var base := Head(ns, reducer) + Encode(t, params);
    var lower := if from.Some? then EncodeUInt(from.value) else [];
    assert base + [] == base;
    if upto.Some? {
      SharesPrefix(base, lower, EncodeUInt(SaturatingSucc(upto.value)), k);
    } else {
      AboveBase(base, lower, k);
      PrefixRangeLaw(base, k);
    }
  }

  lemma AboveBase(base: Bytes, lower: Bytes, k: Bytes)
    requires AtMost(base + lower, k)
    ensures AtMost(base, k)
  {
    hide Common;
    var n := Common(base + lower, k);
    CommonBytes(base + lower, k);
    if n < |base| {
      CommonIs(base, k, n);
    } else {
      CommonIs(base, k, |base|);
    }
  }

  // The head of a key tells its namespace and its reducer.
  lemma HeadTells(a: Namespace, x: Byte, b: Namespace, y: Byte)
    requires Head(a, x) == Head(b, y)
    ensures a == b && x == y
  {
    var p, q := Head(a, x), Head(b, y);
    assert p[0] == a.dataplane && q[0] == b.dataplane && p[4] == x && q[4] == y;
    assert p[1..3] == BigEndian(a.instance, 2) && q[1..3] == BigEndian(b.instance, 2);
    BigEndianTwo(a.instance);
    BigEndianTwo(b.instance);
  }

  lemma BigEndianTwo(n: U16)
    ensures BigEndian(n, 2) == [n / 256, n % 256]
  {
    assert BigEndian(n / 256, 1) == [n / 256 % 256];
  }

  /** A data key is in the range of a query exactly when it has the query's
      namespace, reducer and parameters and a height from the lower bound up to
      the upper one; the largest height of all is never included in an upper
      bound. A reducer's parameters have one schema. */
  lemma QueryLaw(ns: Namespace, reducer: Byte, t: Schema, params: Data, from: Option<nat>, upto: Option<nat>,
                 other: Namespace, tag: Byte, u: Schema, p: Data, height: nat, rest: Bytes)
    requires Fits(t, params) && Fits(u, p) && height <= U64_MAX && (from.Some? ==> from.value <= U64_MAX)
    requires tag == reducer ==> u == t
    ensures var r := QueryRange(ns, reducer, t, params, from, upto);
      InRange(DataKey(other, tag, u, p, height, rest), r.0, r.1) <==>
      other == ns && tag == reducer && p == params && Within(height, from, upto)
  {
    hide Common, Before, Less, Fits, Encode, EncodeUInt, PrefixEnd, Head, InRange;
    var r, k := QueryRange(ns, reducer, t, params, from, upto), DataKey(other, tag, u, p, height, rest);
    if other == ns && tag == reducer {
      ParamsLaw(ns, reducer, t, params, from, upto, p, height, rest);
    } else if InRange(k, r.0, r.1) {
      QueryOnly(ns, reducer, t, params, from, upto, k);
      assert k[..6] == Head(other, tag);
      assert (Head(ns, reducer) + Encode(t, params))[..6] == Head(ns, reducer);
      HeadTells(ns, reducer, other, tag);
    }
  }

  lemma ParamsLaw(ns: Namespace, reducer: Byte, t: Schema, params: Data, from: Option<nat>, upto: Option<nat>,
                  p: Data, height: nat, rest: Bytes)
    requires Fits(t, params) && Fits(t, p) && height <= U64_MAX && (from.Some? ==> from.value <= U64_MAX)
    ensures var r := QueryRange(ns, reducer, t, params, from, upto);
      InRange(DataKey(ns, reducer, t, p, height, rest), r.0, r.1) <==> p == params && Within(height, from, upto)
  {
    hide Common, Before, Less, Fits, Encode, EncodeUInt, PrefixEnd, Head, InRange;
    var head, mine, tail := Head(ns, reducer), Encode(t, params), EncodeUInt(height) + rest;
    if p == params {
      assert head + (mine + tail) == (head + mine) + tail;
      QuerySame(head + mine, height, rest, from, upto);
    } else {
      ParamsApart(t, params, p);
      var lower := if from.Some? then EncodeUInt(from.value) else [];
      var upper := if upto.Some? then Some(EncodeUInt(SaturatingSucc(upto.value))) else None;
      assert head + mine + [] == head + mine;
      QueryOther(head, mine, Encode(t, p), lower, upper, tail);
    }
  }

  /** Up to the largest height, exclusive: the bounds are as written. */
  lemma WithinBounds(height: nat, from: nat, upto: nat)
    requires height <= U64_MAX
    ensures Within(height, Some(from), Some(upto)) <==> from <= height <= upto && height < U64_MAX
  {
  }
}
