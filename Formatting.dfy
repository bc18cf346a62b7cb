/** The numeric primitives of JavaScript that the model needs, stated exactly:
    `Math.round`, `Number.prototype.toFixed`, the 32-bit wrap of the bitwise operators,
    and decimal printing of non-negative integers. */
module Formatting {
  import opened Wrappers

  function Pow10(f: nat): (p: nat)
    ensures p >= 1
  {
    if f == 0 then 1 else 10 * Pow10(f - 1)
  }

  /** `Math.round(n / d)` for integers: the nearest integer, halves rounded up. */
  function RoundHalfUp(n: int, d: int): (r: int)
    requires d > 0
    ensures 2 * r * d <= 2 * n + d < 2 * (r + 1) * d
  {
    var q := (2 * n + d) / (2 * d);
    assert 2 * n + d == q * (2 * d) + (2 * n + d) % (2 * d);
    q
  }

  /** `Math.round(x)` on an exact number: the nearest integer, halves rounded up. */
  function RoundReal(x: real): (r: int)
    ensures r as real <= x + 0.5 < r as real + 1.0
  {
    (x + 0.5).Floor
  }

  const TwoTo31: int := 0x8000_0000
  const TwoTo32: int := 0x1_0000_0000

  /** ECMAScript ToInt32: the value of the low 32 bits read as a two's-complement integer. */
  function ToInt32(x: int): (r: int)
    ensures -TwoTo31 <= r < TwoTo31
    ensures (x - r) % TwoTo32 == 0
  {
    var m := (x + TwoTo31) % TwoTo32;
    assert x + TwoTo31 == ((x + TwoTo31) / TwoTo32) * TwoTo32 + m;
    m - TwoTo31
  }

  /** ToInt32 depends only on the value modulo 2^32. */
  lemma ToInt32Congruent(x: int, y: int, k: int)
    requires x == y + k * TwoTo32
    ensures ToInt32(x) == ToInt32(y)
  {
    var m := (y + TwoTo31) % TwoTo32;
    var q := (y + TwoTo31) / TwoTo32;
    assert x + TwoTo31 == (q + k) * TwoTo32 + m;
  }

  // ---------------------------------------------------------------------------
  // Decimal digits

  function DigitChar(d: nat): (c: char)
    requires d < 10
    ensures '0' <= c <= '9'
  {
    "0123456789"[d]
  }

  function DigitValue(c: char): (d: nat)
    requires '0' <= c <= '9'
    ensures d < 10
  {
    (c as int) - ('0' as int)
  }

  lemma DigitRoundTrip(d: nat)
    requires d < 10
    ensures DigitValue(DigitChar(d)) == d
  {
  }

  predicate AllDigits(s: string) {
    forall i :: 0 <= i < |s| ==> '0' <= s[i] <= '9'
  }

  /** Decimal rendering of a non-negative integer, without leading zeros. */
  function NatToString(n: nat): (s: string)
    ensures |s| >= 1 && AllDigits(s)
    ensures n > 0 ==> s[0] != '0'
    decreases n
  {
    if n < 10 then [DigitChar(n)] else NatToString(n / 10) + [DigitChar(n % 10)]
  }

  /** The value of a string of decimal digits (what `parseInt` reads). */
  function DigitsValue(s: string): (n: nat)
    requires AllDigits(s)
  {
    if s == [] then 0 else 10 * DigitsValue(s[..|s| - 1]) + DigitValue(s[|s| - 1])
  }

  /** Printing a number and reading it back gives the number. */
  lemma {:induction false} NatToStringRoundTrip(n: nat)
    ensures DigitsValue(NatToString(n)) == n
    decreases n
  {
    var s := NatToString(n);
    if n < 10 {
      DigitRoundTrip(n);
    } else {
      NatToStringRoundTrip(n / 10);
      DigitRoundTrip(n % 10);
      assert s[..|s| - 1] == NatToString(n / 10);
    }
  }

  /** Printing is injective: distinct numbers get distinct renderings. */
  lemma NatToStringInjective(m: nat, n: nat)
    requires NatToString(m) == NatToString(n)
    ensures m == n
  {
    NatToStringRoundTrip(m);
    NatToStringRoundTrip(n);
  }

  function Zeros(k: nat): (s: string)
    ensures |s| == k && AllDigits(s)
  {
    if k == 0 then "" else "0" + Zeros(k - 1)
  }

  /** Left-pads a digit string with zeros to at least `width` characters. */
  function PadLeft(s: string, width: nat): (r: string)
    requires AllDigits(s)
    ensures AllDigits(r) && |r| == if |s| >= width then |s| else width
  {
    if |s| >= width then s else Zeros(width - |s|) + s
  }

  // ---------------------------------------------------------------------------
  // Number.prototype.toFixed

  /** The integer `n` that toFixed picks for a non-negative `x`: `n / 10^f` nearest to `x`, the larger on a tie. */
  function ScaledHalfUp(x: real, f: nat): (n: nat)
    requires x >= 0.0
    ensures n as real <= x * (Pow10(f) as real) + 0.5 < n as real + 1.0
  {
    var m := RoundReal(x * (Pow10(f) as real));
    assert m as real > x * (Pow10(f) as real) - 0.5 >= -0.5;
    m
  }

  /** `n / 10^f` written with exactly `f` digits after the point. */
  function FixedDigits(n: nat, f: nat): (s: string)
  {
    var digits := PadLeft(NatToString(n), f + 1);
    if f == 0 then digits else digits[..|digits| - f] + "." + digits[|digits| - f..]
  }

  /** `x.toFixed(f)`: a leading '-' for negative x, then the rounded magnitude with `f` decimals. */
  function ToFixed(x: real, f: nat): (s: string)
    ensures |s| >= f + 1
    ensures x < 0.0 <==> (|s| > 0 && s[0] == '-')
  {
    if x < 0.0 then "-" + FixedDigits(ScaledHalfUp(-x, f), f)
    else
      var s := FixedDigits(ScaledHalfUp(x, f), f);
      assert '0' <= s[0] <= '9';
      s
  }

  /** The number that `x.toFixed(f)` denotes (what `parseFloat` reads back): within half a unit of the last place. */
  function FixedValue(x: real, f: nat): (v: real)
    ensures -0.5 <= (v - x) * (Pow10(f) as real) <= 0.5
  {
    var p := Pow10(f) as real;
    if x < 0.0 then
      var n := ScaledHalfUp(-x, f);
      assert (-(n as real / p) - x) * p == -(n as real) + (-x) * p;
      -(n as real / p)
    else
      var n := ScaledHalfUp(x, f);
      assert (n as real / p - x) * p == n as real - x * p;
      n as real / p
  }

  // ---------------------------------------------------------------------------
  // parseFloat on the text toFixed writes

  /** The position of the first '.' in `s`, or `|s|` when there is none. */
  function DotIndex(s: string): (k: nat)
    ensures k <= |s| && (k < |s| ==> s[k] == '.')
    ensures forall i :: 0 <= i < k ==> s[i] != '.'
  {
    if s == [] then 0
    else if s[0] == '.' then 0
    else
      var k := DotIndex(s[1..]);
      assert forall i :: 1 <= i < k + 1 ==> s[i] == s[1..][i - 1];
      k + 1
  }

  /** The value of an unsigned decimal `d+` or `d+.d+`, or `None` for any other text. */
  function UnsignedValue(s: string): (v: Option<real>)
    ensures v.Some? ==> v.value >= 0.0
  {
    var k := DotIndex(s);
    if k == 0 || !AllDigits(s[..k]) then None
    else if k == |s| then Some(DigitsValue(s) as real)
    else
      var frac := s[k + 1..];
      if frac == [] || !AllDigits(frac) then None
      else Some(DigitsValue(s[..k]) as real + DigitsValue(frac) as real / Pow10(|frac|) as real)
  }

  /** The number that decimal text with an optional leading '-' denotes, as `parseFloat` reads the text
      `toFixed` writes; `None` (NaN) for any other text. Other inputs `parseFloat` accepts (exponents,
      leading spaces, trailing garbage) are not modelled. */
  function DecimalValue(s: string): Option<real> {
    if s != [] && s[0] == '-' then
      match UnsignedValue(s[1..])
      case Some(v) => Some(-v)
      case None => None
    else UnsignedValue(s)
  }

  lemma AllDigitsAppend(a: string, b: string)
    requires AllDigits(a) && AllDigits(b)
    ensures AllDigits(a + b)
  {
    forall i | 0 <= i < |a + b| ensures '0' <= (a + b)[i] <= '9' {
      if i >= |a| {
        assert (a + b)[i] == b[i - |a|];
      }
    }
  }

  /** The value of digits followed by digits. */
  lemma {:induction false} DigitsValueAppend(a: string, b: string)
    requires AllDigits(a) && AllDigits(b)
    ensures AllDigits(a + b)
    ensures DigitsValue(a + b) == DigitsValue(a) * Pow10(|b|) + DigitsValue(b)
    decreases |b|
  {
    AllDigitsAppend(a, b);
    if b == [] {
      assert a + b == a;
    } else {
      var b' := b[..|b| - 1];
      var d := DigitValue(b[|b| - 1]);
      assert (a + b)[..|a + b| - 1] == a + b';
      assert (a + b)[|a + b| - 1] == b[|b| - 1];
      DigitsValueAppend(a, b');
      ShiftDigit(DigitsValue(a), DigitsValue(b'), d, Pow10(|b'|));
    }
  }

  /** Appending one digit: `10 (a p + b) + d = a (10 p) + (10 b + d)`. */
  lemma ShiftDigit(a: int, b: int, d: int, p: int)
    ensures 10 * (a * p + b) + d == a * (10 * p) + (10 * b + d)
  {
    assert 10 * (a * p) == a * (10 * p);
  }

  /** Leading zeros do not change the value. */
  lemma {:induction false} ZerosValue(k: nat)
    ensures DigitsValue(Zeros(k)) == 0
  {
    if k > 0 {
      ZerosValue(k - 1);
      DigitsValueAppend("0", Zeros(k - 1));
      assert "0" + Zeros(k - 1) == Zeros(k);
    }
  }

  lemma MulZero(x: int, y: int)
    requires x == 0
    ensures x * y == 0
  {
  }

  lemma PadLeftValue(s: string, width: nat)
    requires AllDigits(s)
    ensures DigitsValue(PadLeft(s, width)) == DigitsValue(s)
  {
    if |s| < width {
      var z := Zeros(width - |s|);
      ZerosValue(width - |s|);
      DigitsValueAppend(z, s);
      MulZero(DigitsValue(z), Pow10(|s|));
      assert PadLeft(s, width) == z + s;
    }
  }

  /** A digit string has no '.'. */
  lemma DigitsHaveNoDot(s: string)
    requires AllDigits(s)
    ensures DotIndex(s) == |s|
  {
  }

  /** In `a.b` with digit strings `a` and `b`, the first '.' separates `a` from `b`. */
  lemma DotSplit(a: string, b: string)
    requires AllDigits(a)
    ensures DotIndex(a + "." + b) == |a|
    ensures (a + "." + b)[..|a|] == a && (a + "." + b)[|a| + 1..] == b
  {
    var s := a + "." + b;
    assert forall i :: 0 <= i < |a| ==> s[i] == a[i];
    assert s[|a|] == '.';
  }

  /** `(a p + b) / p = a + b / p`, read over the reals. */
  lemma ScaledSum(a: nat, b: nat, p: nat, n: nat)
    requires p > 0 && n == a * p + b
    ensures n as real / p as real == a as real + b as real / p as real
  {
    assert n as real == a as real * p as real + b as real;
  }

  /** Reading back the digits toFixed writes for `n` and `f` gives `n / 10^f`. */
  lemma FixedDigitsValue(n: nat, f: nat)
    ensures UnsignedValue(FixedDigits(n, f)).Some? && UnsignedValue(FixedDigits(n, f)).value == n as real / Pow10(f) as real
  {
    var digits := PadLeft(NatToString(n), f + 1);
    NatToStringRoundTrip(n);
    PadLeftValue(NatToString(n), f + 1);
    if f == 0 {
      assert FixedDigits(n, f) == digits;
      WholeDigitsValue(digits, n);
    } else {
      assert FixedDigits(n, f) == digits[..|digits| - f] + "." + digits[|digits| - f..];
      FractionDigitsValue(digits, n, f);
    }
  }

  lemma WholeDigitsValue(digits: string, n: nat)
    requires AllDigits(digits) && digits != [] && DigitsValue(digits) == n
    ensures UnsignedValue(digits).Some? && UnsignedValue(digits).value == n as real / Pow10(0) as real
  {
    UnsignedOfDigits(digits);
    assert Pow10(0) == 1;
  }

  lemma FractionDigitsValue(digits: string, n: nat, f: nat)
    requires AllDigits(digits) && |digits| >= f + 1 && f >= 1 && DigitsValue(digits) == n
    ensures var s := digits[..|digits| - f] + "." + digits[|digits| - f..];
      UnsignedValue(s).Some? && UnsignedValue(s).value == n as real / Pow10(f) as real
  {
    var a, b := digits[..|digits| - f], digits[|digits| - f..];
    CutDigits(digits, f);
    AppendScaled(a, b, f);
    UnsignedOfSplit(a, b, f);
  }

  /** Cutting digits before the last `f` leaves two non-empty digit strings that make up the whole. */
  lemma CutDigits(digits: string, f: nat)
    requires AllDigits(digits) && |digits| >= f + 1 && f >= 1
    ensures var a, b := digits[..|digits| - f], digits[|digits| - f..];
      AllDigits(a) && AllDigits(b) && |b| == f && a != [] && b != [] && a + b == digits
  {
    assert digits[..|digits| - f] + digits[|digits| - f..] == digits;
  }

  /** Digits `a` followed by the `f` digits `b`, read over the reals and scaled down by `10^f`, are `a + b / 10^f`. */
  lemma AppendScaled(a: string, b: string, f: nat)
    requires AllDigits(a) && AllDigits(b) && |b| == f
    ensures DigitsValue(a + b) as real / Pow10(f) as real == DigitsValue(a) as real + DigitsValue(b) as real / Pow10(f) as real
  {
    DigitsValueAppend(a, b);
    ScaledSum(DigitsValue(a), DigitsValue(b), Pow10(|b|), DigitsValue(a + b));
  }

  /** A digit string reads as its value. */
  lemma UnsignedOfDigits(s: string)
    requires AllDigits(s) && s != []
    ensures UnsignedValue(s).Some? && UnsignedValue(s).value == DigitsValue(s) as real
  {
    DigitsHaveNoDot(s);
    assert s[..|s|] == s;
  }

  /** `a.b` reads as `a + b / 10^|b|`. */
  lemma UnsignedOfSplit(a: string, b: string, f: nat)
    requires AllDigits(a) && AllDigits(b) && a != [] && b != [] && |b| == f
    ensures UnsignedValue(a + "." + b).Some?
    ensures UnsignedValue(a + "." + b).value == DigitsValue(a) as real + DigitsValue(b) as real / Pow10(f) as real
  {
    DotSplit(a, b);
    var s := a + "." + b;
    var k := DotIndex(s);
    assert s[..k] == a && s[k + 1..] == b;
    assert k != 0 && AllDigits(s[..k]) && k != |s|;
  }

  /** `parseFloat(x.toFixed(f))` is the number `x.toFixed(f)` denotes. */
  lemma ParseToFixed(x: real, f: nat)
    ensures DecimalValue(ToFixed(x, f)) == Some(FixedValue(x, f))
  {
    if x < 0.0 {
      ParseNegativeFixed(x, f);
    } else {
      ParseNonNegativeFixed(x, f);
    }
  }

  lemma ParseNegativeFixed(x: real, f: nat)
    requires x < 0.0
    ensures DecimalValue(ToFixed(x, f)) == Some(FixedValue(x, f))
  {
    var n := ScaledHalfUp(-x, f);
    var d := FixedDigits(n, f);
    var v := n as real / Pow10(f) as real;
    FixedDigitsValue(n, f);
    NegatedValue(d, v);
    assert ToFixed(x, f) == "-" + d;
    assert FixedValue(x, f) == -v;
  }

  /** A minus sign before an unsigned numeral negates the number it denotes. */
  lemma NegatedValue(d: string, v: real)
    requires UnsignedValue(d) == Some(v)
    ensures DecimalValue("-" + d) == Some(-v)
  {
    assert ("-" + d)[1..] == d;
  }

  lemma ParseNonNegativeFixed(x: real, f: nat)
    requires x >= 0.0
    ensures DecimalValue(ToFixed(x, f)) == Some(FixedValue(x, f))
  {
    var n := ScaledHalfUp(x, f);
    var d := FixedDigits(n, f);
    assert ToFixed(x, f) == d && d[0] != '-';
    assert FixedValue(x, f) == n as real / Pow10(f) as real;
    FixedDigitsValue(n, f);
  }

  /** A number with at most `f` decimals is its own rounding to `f` decimals. */
  lemma ScaledOfExact(n: nat, f: nat)
    ensures ScaledHalfUp(n as real / Pow10(f) as real, f) == n
  {
    var p := Pow10(f) as real;
    assert (n as real / p) * p == n as real;
  }

  /** Zero with two decimals prints as "0.00". */
  lemma ZeroToFixed()
    ensures ToFixed(0.0, 2) == "0.00"
  {
    assert ScaledHalfUp(0.0, 2) == 0;
    assert NatToString(0) == "0";
    assert Zeros(2) == "00";
    assert PadLeft("0", 3) == "000";
  }

  /** Rounding is stable: a value `toFixed` already rounded prints as the same text again, except that
      a negative value rounding to zero ("-0.00") comes back without its sign. */
  lemma RefixedText(x: real, f: nat)
    ensures x >= 0.0 || ScaledHalfUp(-x, f) > 0 ==> ToFixed(FixedValue(x, f), f) == ToFixed(x, f)
    ensures x < 0.0 && ScaledHalfUp(-x, f) == 0 ==> ToFixed(FixedValue(x, f), f) == ToFixed(0.0, f)
  {
    var p := Pow10(f) as real;
    if x < 0.0 {
      var n := ScaledHalfUp(-x, f);
      var v := n as real / p;
      ScaledOfExact(n, f);
      assert ToFixed(x, f) == "-" + FixedDigits(n, f);
      if n > 0 {
        assert v > 0.0;
        assert FixedValue(x, f) == -v;
        assert ToFixed(-v, f) == "-" + FixedDigits(ScaledHalfUp(v, f), f);
      } else {
        assert FixedValue(x, f) == 0.0;
      }
    } else {
      var n := ScaledHalfUp(x, f);
      var v := n as real / p;
      ScaledOfExact(n, f);
      assert v >= 0.0;
      assert FixedValue(x, f) == v;
      assert ToFixed(v, f) == FixedDigits(ScaledHalfUp(v, f), f);
      assert ToFixed(x, f) == FixedDigits(n, f);
    }
  }
}
