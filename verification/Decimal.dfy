/** Fixed-point decimals: the printer used by the API and the parser used for
    BRC-20 amounts, and the proof that they undo each other. */
module Decimal {
  import opened Chain

  predicate IsDigit(c: char) {
    '0' <= c <= '9'
  }

  predicate AllDigits(s: string) {
    forall i :: 0 <= i < |s| ==> IsDigit(s[i])
  }

  function DigitValue(c: char): nat
    requires IsDigit(c)
  {
    c as int - '0' as int
  }

  function DigitChar(d: nat): (c: char)
    requires d < 10
    ensures IsDigit(c) && DigitValue(c) == d
  {
    (d + '0' as int) as char
  }

  // The number a digit string denotes.
  function Num(s: string): nat
    requires AllDigits(s)
  {
    if s == [] then 0 else 10 * Num(s[..|s| - 1]) + DigitValue(s[|s| - 1])
  }

  // n.to_string()
  function Digits(n: nat): (s: string)
    ensures s != [] && AllDigits(s)
  {
    if n < 10 then [DigitChar(n)] else Digits(n / 10) + [DigitChar(n % 10)]
  }

  function Pow10(k: nat): (p: nat)
    ensures p > 0
  {
    if k == 0 then 1 else 10 * Pow10(k - 1)
  }

  function Zeros(k: nat): (s: string)
    ensures |s| == k && AllDigits(s)
  {
    if k == 0 then [] else Zeros(k - 1) + ['0']
  }

  lemma {:induction false} NumDigits(n: nat)
    ensures Num(Digits(n)) == n
  {
    if n >= 10 {
      NumDigits(n / 10);
      assert Digits(n)[..|Digits(n)| - 1] == Digits(n / 10);
    }
  }

  lemma {:induction false} NumConcat(a: string, b: string, k: nat)
    requires AllDigits(a) && AllDigits(b) && k == |b|
    ensures Num(a + b) == Num(a) * Pow10(k) + Num(b)
  {
    hide DigitValue;
    if b == [] {
      assert a + b == a;
    } else {
      var front := b[..k - 1];
      NumConcat(a, front, k - 1);
      assert (a + b)[..|a + b| - 1] == a + front;
      TenTimes(Num(a), Pow10(k - 1));
    }
  }

  lemma TenTimes(a: nat, p: nat)
    ensures 10 * (a * p) == a * (10 * p)
  {
  }

  lemma {:induction false} NumZeros(k: nat)
    ensures Num(Zeros(k)) == 0
  {
    if k > 0 {
      NumZeros(k - 1);
      assert Zeros(k)[..k - 1] == Zeros(k - 1);
    }
  }

  lemma {:induction false} NumBound(s: string)
    requires AllDigits(s)
    ensures Num(s) < Pow10(|s|)
  {
    if s != [] {
      NumBound(s[..|s| - 1]);
    }
  }

  lemma {:induction false} Pow10Add(a: nat, b: nat)
    ensures Pow10(a + b) == Pow10(a) * Pow10(b)
  {
    if a > 0 {
      Pow10Add(a - 1, b);
      assert Pow10(a + b) == 10 * (Pow10(a - 1) * Pow10(b)) == (10 * Pow10(a - 1)) * Pow10(b);
    }
  }

  // ----- printing

  // The digits of `n` before and after the last `dec` places.
  function Whole(n: nat, dec: nat): (s: string)
    ensures s != [] && AllDigits(s)
  {
    if |Digits(n)| <= dec then "0" else Digits(n)[..|Digits(n)| - dec]
  }

  function Fraction(n: nat, dec: nat): (s: string)
    ensures |s| == dec && AllDigits(s)
  {
    if |Digits(n)| <= dec then Zeros(dec - |Digits(n)|) + Digits(n) else Digits(n)[|Digits(n)| - dec..]
  }

  // `n` shifted down by `dec` decimal places.
  function Print(n: nat, dec: nat): string {
    if dec == 0 then Digits(n) else Whole(n, dec) + "." + Fraction(n, dec)
  }

  lemma PrintCases(n: nat, dec: nat)
    requires dec > 0
    ensures var s := Digits(n);
      Print(n, dec) == if |s| <= dec then "0." + Zeros(dec - |s|) + s else s[..|s| - dec] + "." + s[|s| - dec..]
  {
    hide Digits, Zeros;
    var s := Digits(n);
    if |s| <= dec {
      assert "0." == "0" + ".";
    }
  }

  method PrintDecimal(num: nat, dec: nat) returns (s: string)
    ensures s == Print(num, dec)
  {
    hide Digits, AllDigits, Whole, Fraction;
    s := Digits(num);
    var len := |s|;
    if dec > 0 {
      PrintCases(num, dec);
      if len == dec {
        s := "0." + s;
      } else if len < dec {
        var padded := "0.";
        for i := 0 to dec - len
          invariant padded == "0." + Zeros(i)
        {
          padded := padded + ['0'];
        }
        s := padded + s;
      } else {
        s := s[..len - dec] + ['.'] + s[len - dec..];
      }
    }
  }

  // ----- parsing

  datatype Parsed = Rejected | Accepted(value: nat) | Panicked

  function FirstDot(m: string): (i: nat)
    ensures i <= |m|
    ensures forall j :: 0 <= j < i ==> m[j] != '.'
    ensures i < |m| ==> m[i] == '.'
  {
    if m == [] || m[0] == '.' then 0 else 1 + FirstDot(m[1..])
  }

  function IntPart(m: string): string {
    m[..FirstDot(m)]
  }

  function FracPart(m: string): string {
    if FirstDot(m) < |m| then m[FirstDot(m) + 1..] else []
  }

  // Digits, then optionally one dot and more digits.
  predicate WellFormed(m: string) {
    && AllDigits(IntPart(m)) && IntPart(m) != []
    && AllDigits(FracPart(m)) && (FirstDot(m) < |m| ==> FracPart(m) != [])
  }

  // The value denoted by `m`, in units of 10^-dec.
  function Scaled(m: string, dec: nat): nat
    requires WellFormed(m) && |FracPart(m)| <= dec
  {
    Num(IntPart(m)) * Pow10(dec) + Num(FracPart(m)) * Pow10(dec - |FracPart(m)|)
  }

  function Parse(m: string, dec: nat): Parsed {
    if !WellFormed(m) || Num(IntPart(m)) > U64_MAX || |FracPart(m)| > dec then Rejected
    else if Scaled(m, dec) > U128_MAX then Panicked
    else Accepted(Scaled(m, dec))
  }

  function Split(m: string): (parts: seq<string>)
    ensures |parts| >= 1
  {
    if FirstDot(m) == |m| then [m] else [IntPart(m)] + Split(m[FirstDot(m) + 1..])
  }

  predicate NumbersAndDots(m: string) {
    forall i :: 0 <= i < |m| ==> IsDigit(m[i]) || m[i] == '.'
  }

  lemma SplitShape(m: string)
    requires NumbersAndDots(m)
    ensures Split(m)[0] == IntPart(m) && AllDigits(IntPart(m))
    ensures |Split(m)| == 1 ==> FirstDot(m) == |m|
    ensures |Split(m)| == 2 ==> FirstDot(m) < |m| && Split(m)[1] == FracPart(m) && AllDigits(FracPart(m))
    ensures |Split(m)| > 2 ==> FirstDot(m) < |m| && !AllDigits(FracPart(m))
  {
    if FirstDot(m) < |m| {
      var rest := FracPart(m);
      assert Split(m)[1..] == Split(rest);
      if FirstDot(rest) == |rest| {
        assert forall i :: 0 <= i < |rest| ==> rest[i] == m[FirstDot(m) + 1 + i];
      } else {
        assert rest[FirstDot(rest)] == '.';
      }
    }
  }

  // m is its integer part, then (if there is a dot) a dot and the fraction
  lemma DotSplits(m: string)
    ensures forall i :: 0 <= i < |IntPart(m)| ==> m[i] == IntPart(m)[i]
    ensures |m| == |IntPart(m)| + if FirstDot(m) < |m| then 1 + |FracPart(m)| else 0
    ensures forall i :: |IntPart(m)| < i < |m| ==> m[i] == FracPart(m)[i - |IntPart(m)| - 1]
  {
    var d := FirstDot(m);
    assert |IntPart(m)| == d;
    if d < |m| {
      assert FracPart(m) == m[d + 1..];
    }
  }

  lemma DotPlaces(m: string)
    ensures WellFormed(m) ==> NumbersAndDots(m) && m[0] != '.' && m[|m| - 1] != '.'
    ensures m != [] && m[0] != '.' ==> IntPart(m) != []
    ensures FirstDot(m) < |m| && m[|m| - 1] != '.' ==> FracPart(m) != []
  {
    DotSplits(m);
  }

  // The checks made on the text and its parts are those for a decimal number.
  lemma SplitDecides(m: string)
    ensures WellFormed(m) <==>
      && NumbersAndDots(m) && !(m != [] && (m[0] == '.' || m[|m| - 1] == '.'))
      && |Split(m)| <= 2 && Split(m)[0] != []
    ensures WellFormed(m) ==>
      && IntPart(m) == Split(m)[0] && AllDigits(IntPart(m)) && AllDigits(FracPart(m))
      && FracPart(m) == if |Split(m)| == 1 then [] else Split(m)[1]
  {
    hide FirstDot, Split, IsDigit;
    DotPlaces(m);
    if NumbersAndDots(m) {
      SplitShape(m);
    }
  }

  /** The parser as written: checks, splitting, padding the fraction with
      zeros, and reading integer and padded fraction as one number. */
  method ParseDecimal(m: string, dec: nat) returns (r: Parsed)
    ensures r == Parse(m, dec)
  {
    assert Num([]) == 0;
    hide Digits, DigitValue, IsDigit, AllDigits, Num, Pow10, FirstDot, Split, WellFormed, IntPart, FracPart;
    SplitDecides(m);
    if exists i :: 0 <= i < |m| && !IsDigit(m[i]) && m[i] != '.' {
      return Rejected;
    }
    if |m| > 0 && (m[0] == '.' || m[|m| - 1] == '.') {
      return Rejected;
    }
    var parts := Split(m);
    if |parts| > 2 {
      return Rejected;
    }
    if parts[0] == [] || Num(parts[0]) > U64_MAX {
      return Rejected;
    }
    var integer := Num(parts[0]);
    if |parts| == 1 {
      var out := integer * Pow10(dec);
      r := if out > U128_MAX then Panicked else Accepted(out);
    } else {
      var decimalPart := parts[1];
      if |decimalPart| > dec {
        return Rejected;
      }
      var missing := dec - |decimalPart|;
      for i := 0 to missing
        invariant decimalPart == parts[1] + Zeros(i)
      {
        decimalPart := decimalPart + ['0'];
      }
      PaddedValue(integer, parts[1], missing);
      var out := Num(Digits(integer) + decimalPart);
      r := if out > U128_MAX then Panicked else Accepted(out);
    }
  }

  lemma PaddedValue(integer: nat, frac: string, missing: nat)
    requires AllDigits(frac)
    ensures AllDigits(Digits(integer) + (frac + Zeros(missing)))
    ensures Num(Digits(integer) + (frac + Zeros(missing)))
      == integer * Pow10(|frac| + missing) + Num(frac) * Pow10(missing)
  {
    NumConcat(Digits(integer), frac + Zeros(missing), |frac| + missing);
    NumConcat(frac, Zeros(missing), missing);
    NumDigits(integer);
    NumZeros(missing);
  }

  // ----- which texts are accepted

  // `m` is the digits `a`, followed by a dot and the digits `f` unless `f` is empty.
  predicate Writes(m: string, a: string, f: string) {
    a != [] && AllDigits(a) && AllDigits(f) && m == if f == [] then a else a + ['.'] + f
  }

  lemma PartsOf(m: string, a: string, f: string)
    requires Writes(m, a, f)
    ensures IntPart(m) == a && FracPart(m) == f && (FirstDot(m) < |m| <==> f != [])
  {
    assert forall i :: 0 <= i < |a| ==> m[i] == a[i] && a[i] != '.';
    assert FirstDot(m) >= |a|;
    if f != [] {
      assert m[|a|] == '.';
      assert FirstDot(m) == |a|;
    }
  }

  lemma PartsWrite(m: string)
    requires WellFormed(m)
    ensures Writes(m, IntPart(m), FracPart(m))
  {
  }

  /** Exactly these texts are accepted, with exactly this value: digits alone, or
      digits, one dot and between 1 and `dec` digits, where the integer part
      fits in 64 bits and the value in 128. */
  lemma AcceptedExactlyIf(m: string, dec: nat, n: nat)
    ensures Parse(m, dec) == Accepted(n) <==> (
      && n <= U128_MAX
      && exists a, f ::
        && Writes(m, a, f) && Num(a) <= U64_MAX && |f| <= dec
        && n == Num(a) * Pow10(dec) + Num(f) * Pow10(dec - |f|))
  {
    hide Num, Pow10, AllDigits, FirstDot;
    if Parse(m, dec) == Accepted(n) {
      PartsWrite(m);
    }
    forall a, f | Writes(m, a, f) ensures WellFormed(m) && IntPart(m) == a && FracPart(m) == f {
      PartsOf(m, a, f);
    }
  }

  // ----- the two undo each other

  lemma LeadingZeros(k: nat, s: string)
    requires AllDigits(s)
    ensures Num(Zeros(k) + s) == Num(s)
  {
    hide Num, Zeros, Pow10, AllDigits;
    NumConcat(Zeros(k), s, |s|);
    NumZeros(k);
  }

  lemma PartsSmall(n: nat, dec: nat)
    requires |Digits(n)| <= dec
    ensures Num(Whole(n, dec)) == 0 && Num(Fraction(n, dec)) == n
  {
    NumDigits(n);
    LeadingZeros(dec - |Digits(n)|, Digits(n));
    assert Num(Whole(n, dec)) == DigitValue('0');
  }

  lemma PartsConcat(n: nat, dec: nat)
    requires |Digits(n)| > dec
    ensures Whole(n, dec) + Fraction(n, dec) == Digits(n)
  {
  }

  lemma PartsValue(n: nat, dec: nat)
    ensures Num(Whole(n, dec)) * Pow10(dec) + Num(Fraction(n, dec)) == n
  {
    if |Digits(n)| <= dec {
      PartsSmall(n, dec);
    } else {
      NumDigits(n);
      PartsConcat(n, dec);
      NumConcat(Whole(n, dec), Fraction(n, dec), dec);
    }
  }

  lemma PrintShape(n: nat, dec: nat)
    ensures IntPart(Print(n, dec)) == Whole(n, dec) && FracPart(Print(n, dec)) == Fraction(n, dec)
    ensures WellFormed(Print(n, dec))
  {
    if dec == 0 {
      DotAt(Digits(n), [], false);
    } else {
      DotAt(Whole(n, dec), Fraction(n, dec), true);
    }
  }

  lemma DotAt(a: string, b: string, dot: bool)
    requires AllDigits(a) && AllDigits(b) && (!dot ==> b == [])
    ensures var m := if dot then a + "." + b else a;
      FirstDot(m) == |a| && IntPart(m) == a && FracPart(m) == b
  {
    var m := if dot then a + "." + b else a;
    assert forall j :: 0 <= j < |a| ==> m[j] == a[j];
    assert dot ==> m[|a|] == '.' && m[|a| + 1..] == b;
  }

  lemma DivBound(i: nat, f: nat, p: nat)
    requires f < p
    ensures (i * p + f) / p == i
  {
    var q := (i * p + f) / p;
    assert (q - i) * p == q * p - i * p;
    SmallMultiple(q - i, p);
    SmallMultiple(i - q, p);
  }

  lemma SmallMultiple(d: int, p: nat)
    requires d * p < p
    ensures d <= 0
  {
  }

  /** Parsing a printed amount gives the amount back, exactly when its integer
      part fits in 64 bits; otherwise the parser rejects it. */
  lemma ParseUndoesPrint(n: nat, dec: nat)
    requires n <= U128_MAX
    ensures Parse(Print(n, dec), dec) == if n / Pow10(dec) <= U64_MAX then Accepted(n) else Rejected
  {
    hide IsDigit, AllDigits, DigitValue, Num, Digits, Zeros, Whole, Fraction, FirstDot, IntPart, FracPart, Print;
    PrintShape(n, dec);
    PartsValue(n, dec);
    NumBound(Fraction(n, dec));
    DivBound(Num(Whole(n, dec)), Num(Fraction(n, dec)), Pow10(dec));
  }

  /** Different amounts print differently. */
  lemma PrintInjective(a: nat, b: nat, dec: nat)
    requires Print(a, dec) == Print(b, dec)
    ensures a == b
  {
    PrintShape(a, dec);
    PrintShape(b, dec);
    PartsValue(a, dec);
    PartsValue(b, dec);
  }

  lemma {:induction false} Pow10Monotone(a: nat, b: nat)
    requires a <= b
    ensures Pow10(a) <= Pow10(b)
  {
    if a < b {
      Pow10Monotone(a, b - 1);
    }
  }

  lemma Pow10Limit(dec: nat)
    requires dec <= 18
    ensures Pow10(dec) <= 1_000_000_000_000_000_000
  {
    Pow10Monotone(dec, 18);
    assert Pow10(1) == 10 && Pow10(2) == 100 && Pow10(3) == 1000;
    Pow10Add(3, 3);
    Pow10Add(6, 6);
    Pow10Add(12, 6);
  }

  lemma FixedPointBound(i: nat, f: nat, a: nat, b: nat, limit: nat)
    requires i <= limit && f < a && b > 0
    ensures i * (a * b) + f * b < (limit + 1) * (a * b)
  {
    assert i * (a * b) <= limit * (a * b);
    assert f * b < a * b;
    assert (limit + 1) * (a * b) == limit * (a * b) + a * b;
  }

  lemma ScaledBound(m: string, dec: nat)
    requires WellFormed(m) && |FracPart(m)| <= dec && Num(IntPart(m)) <= U64_MAX
    ensures Scaled(m, dec) < (U64_MAX + 1) * Pow10(dec)
  {
    var k := dec - |FracPart(m)|;
    NumBound(FracPart(m));
    Pow10Add(|FracPart(m)|, k);
    FixedPointBound(Num(IntPart(m)), Num(FracPart(m)), Pow10(|FracPart(m)|), Pow10(k), U64_MAX);
  }

  /** With at most 18 decimals the parser never panics, and what it accepts is
      below 2^64 * 10^18. */
  lemma ParseNeverPanics(m: string, dec: nat)
    requires dec <= 18
    ensures Parse(m, dec) != Panicked
    ensures Parse(m, dec).Accepted? ==> Parse(m, dec).value < (U64_MAX + 1) * 1_000_000_000_000_000_000 <= U128_MAX
  {
    Pow10Limit(dec);
    if WellFormed(m) && Num(IntPart(m)) <= U64_MAX && |FracPart(m)| <= dec {
      ScaledBound(m, dec);
    }
  }

  lemma Rescale(i: nat, f: nat, a: nat, b: nat)
    ensures (i * (a * b) + f * b) * a == (i * a + f) * (a * b)
  {
    assert i * (a * b) == (i * a) * b;
    assert (i * a) * b + f * b == (i * a + f) * b;
    assert ((i * a + f) * b) * a == (i * a + f) * (a * b);
  }

  /** What is accepted is exact: the number times 10^(digits after the dot)
      is the digit string without its dot, times 10^dec. */
  lemma ParseIsExact(m: string, dec: nat)
    requires Parse(m, dec).Accepted?
    ensures AllDigits(IntPart(m) + FracPart(m))
    ensures Parse(m, dec).value * Pow10(|FracPart(m)|) == Num(IntPart(m) + FracPart(m)) * Pow10(dec)
  {
    NumConcat(IntPart(m), FracPart(m), |FracPart(m)|);
    Pow10Add(|FracPart(m)|, dec - |FracPart(m)|);
    Rescale(Num(IntPart(m)), Num(FracPart(m)), Pow10(|FracPart(m)|), Pow10(dec - |FracPart(m)|));
  }
}
