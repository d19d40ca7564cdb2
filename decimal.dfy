/**
 * Java's `new BigDecimal(String)`: an optional sign, a significand of digits
 * with at most one decimal point and at least one digit, and an optional
 * exponent `e`/`E` followed by an optionally signed run of digits. Anything
 * else (blanks, grouping commas, a second point) is a NumberFormatException,
 * modelled as `None`. Only ASCII digits are modelled.
 */
module Decimal {
  import opened Wrappers
  import opened Text
  import opened Numbers

  function Pow10(n: nat): (r: nat)
    ensures r >= 1
  {
    if n == 0 then 1 else 10 * Pow10(n - 1)
  }

  /** The exact value m * 10^e. */
  function Scale(m: nat, e: int): real {
    if e >= 0 then (m * Pow10(e)) as real else m as real / Pow10(-e) as real
  }

  predicate AllDigits(s: string) {
    forall i :: 0 <= i < |s| ==> IsDigit(s[i])
  }

  /** The characters a parsable decimal may contain. */
  predicate NumberChar(c: char) {
    IsDigit(c) || c == '+' || c == '-' || c == '.' || c == 'e' || c == 'E'
  }

  /** Index of the first exponent marker, or |s| when there is none. */
  function ExpIndex(s: string): (k: nat)
    ensures k <= |s|
    ensures forall i :: 0 <= i < k ==> s[i] != 'e' && s[i] != 'E'
    ensures k < |s| ==> s[k] == 'e' || s[k] == 'E'
  {
    if s == [] then 0
    else if s[0] == 'e' || s[0] == 'E' then 0
    else 1 + ExpIndex(s[1..])
  }

  /** The exponent after `e`: an optional sign and at least one digit. */
  function ParseExponent(s: string): (r: Option<int>)
    ensures r.Some? ==> forall i :: 0 <= i < |s| ==> NumberChar(s[i])
  {
    if s != [] && (s[0] == '+' || s[0] == '-') then
      if |s| > 1 && AllDigits(s[1..]) then
        var v: int := DigitsValue(s[1..]);
        Some(if s[0] == '-' then -v else v)
      else None
    else if s != [] && AllDigits(s) then Some(DigitsValue(s))
    else None
  }

  /** An unsigned decimal: significand and optional exponent. */
  function ParseUnsigned(s: string): (r: Option<real>) {
    var k := ExpIndex(s);
    var mant := s[..k];
    var e := if k == |s| then Some(0) else ParseExponent(s[k + 1..]);
    var d := IndexOf(mant, '.');
    var whole := if d < 0 then mant else mant[..d];
    var frac := if d < 0 then [] else mant[d + 1..];
    if e.None? || !AllDigits(whole) || !AllDigits(frac) || |whole| + |frac| == 0 then None
    else Some(Scale(DigitsValue(whole + frac), e.value - |frac|))
  }

  /** `new BigDecimal(s)`, `None` where Java throws NumberFormatException. */
  function Parse(s: string): (r: Option<real>) {
    if s != [] && (s[0] == '+' || s[0] == '-') then
      match ParseUnsigned(s[1..])
      case Some(v) => Some(if s[0] == '-' then -v else v)
      case None => None
    else ParseUnsigned(s)
  }

  lemma UnsignedChars(s: string)
    requires ParseUnsigned(s).Some?
    ensures forall i :: 0 <= i < |s| ==> NumberChar(s[i])
  {
    var k := ExpIndex(s);
    var mant := s[..k];
    var d := IndexOf(mant, '.');
    forall i | 0 <= i < |s| ensures NumberChar(s[i]) {
      if i > k {
        assert s[i] == s[k + 1..][i - k - 1];
      } else if i < k {
        assert s[i] == mant[i];
        if d < 0 {
          assert IsDigit(mant[i]);
        } else if i < d {
          assert mant[i] == mant[..d][i];
        } else if i > d {
          assert mant[i] == mant[d + 1..][i - d - 1];
        }
      }
    }
  }

  /** A parsable string holds no blank, no grouping comma and no letter but `e`. */
  lemma ParsedChars(s: string)
    requires Parse(s).Some?
    ensures forall i :: 0 <= i < |s| ==> NumberChar(s[i])
  {
    if s != [] && (s[0] == '+' || s[0] == '-') {
      UnsignedChars(s[1..]);
      forall i | 0 < i < |s| ensures NumberChar(s[i]) {
        assert s[i] == s[1..][i - 1];
      }
    } else {
      UnsignedChars(s);
    }
  }

  lemma DigitsHaveNoMarkers(s: string)
    requires AllDigits(s)
    ensures ExpIndex(s) == |s|
    ensures IndexOf(s, '.') == -1
  {
  }

  /** The decimal text of an integer, as `toString` writes it, parses back to it. */
  lemma ParseIntText(n: int)
    ensures Parse(IntToString(n)) == Some(n as real)
  {
    var m: nat := if n < 0 then -n else n;
    var t := NatToString(m);
    ParseNatText(m);
    assert IsDigit(t[0]);
    if n < 0 {
      assert IntToString(n)[1..] == t;
    }
  }

  /** The decimal text of a natural number parses, unsigned, back to it. */
  lemma ParseNatText(m: nat)
    ensures ParseUnsigned(NatToString(m)) == Some(m as real)
  {
    var t := NatToString(m);
    DigitsHaveNoMarkers(t);
    NatToStringRoundTrip(m);
    assert t[..|t|] == t;
    assert t + [] == t;
  }

  /**
   * `divide(divisor, RoundingMode.HALF_UP)` keeps the dividend's scale: the
   * exact quotient `x` rounded to `scale` decimal places, ties away from zero.
   */
  function RoundHalfUp(x: real, scale: nat): real {
    var p := Pow10(scale) as real;
    var q := Units(if x < 0.0 then -x else x, p) as real / p;
    if x < 0.0 then -q else q
  }

  /** HALF_UP rounding to `scale` places moves a value by at most half a unit in the last place. */
  lemma RoundWithinHalfUnit(x: real, scale: nat)
    ensures var h := 0.5 / Pow10(scale) as real;
      x - h <= RoundHalfUp(x, scale) <= x + h
  {
    var p := Pow10(scale) as real;
    var h := 0.5 / p;
    var y := if x < 0.0 then -x else x;
    var f := Units(y, p);
    assert y * p - 0.5 < f as real <= y * p + 0.5;
    assert h * p == 0.5;
    assert (y + h) * p == y * p + 0.5;
    assert (y - h) * p == y * p - 0.5;
    DivAtMost(f as real, p, y + h);
    DivAtLeast(f as real, p, y - h);
  }

  /** The floor of x*p + 1/2 for a non-negative x. */
  function Units(x: real, p: real): int {
    (x * p + 0.5).Floor
  }

  /** Rounding never takes a value below a whole number it reached. */
  lemma RoundKeepsWholeBound(x: real, k: nat, scale: nat)
    requires x >= k as real
    ensures RoundHalfUp(x, scale) >= k as real
  {
    var p := Pow10(scale) as real;
    MulMonotone(x, k as real, p);
    var n := k * Pow10(scale);
    assert n as real == k as real * p;
    var f := Units(x, p);
    assert f as real <= x * p + 0.5 < f as real + 1.0;
    assert f >= n;
    assert RoundHalfUp(x, scale) == f as real / p;
    DivAtLeast(f as real, p, k as real);
  }

  /** A non-negative value that rounds to at least a whole number was at most half a last-place unit below it. */
  lemma RoundReachesWholeBound(x: real, k: nat, scale: nat)
    requires x >= 0.0
    requires RoundHalfUp(x, scale) >= k as real
    ensures x * (Pow10(scale) as real) + 0.5 >= (k * Pow10(scale)) as real
  {
    var p := Pow10(scale) as real;
    var f := Units(x, p);
    assert RoundHalfUp(x, scale) == f as real / p;
    DivAtLeast(f as real, p, k as real);
    assert f as real <= x * p + 0.5;
    assert (k * Pow10(scale)) as real == k as real * p;
  }

  /** A negative value never rounds to a positive one. */
  lemma RoundNegative(x: real, scale: nat)
    requires x < 0.0
    ensures RoundHalfUp(x, scale) <= 0.0
  {
    var p := Pow10(scale) as real;
    MulMonotone(-x, 0.0, p);
    var f := Units(-x, p);
    assert f >= 0;
    DivAtLeast(f as real, p, 0.0);
  }

  /** Rounding a non-negative value never takes it above a whole number it did not exceed. */
  lemma RoundKeepsWholeUpper(x: real, k: nat, scale: nat)
    requires 0.0 <= x <= k as real
    ensures 0.0 <= RoundHalfUp(x, scale) <= k as real
  {
    var p := Pow10(scale) as real;
    MulMonotone(k as real, x, p);
    MulMonotone(x, 0.0, p);
    var n := k * Pow10(scale);
    assert n as real == k as real * p;
    var f := Units(x, p);
    assert f as real <= x * p + 0.5 < f as real + 1.0;
    assert 0 <= f <= n;
    assert RoundHalfUp(x, scale) == f as real / p;
    DivAtMost(f as real, p, k as real);
    DivAtLeast(f as real, p, 0.0);
  }
}
