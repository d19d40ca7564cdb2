/**
 * Arithmetic helpers: integer and real minimum, maximum and absolute value,
 * Java's truncating division, floor and truncation of reals, and the facts
 * about real multiplication and division the solver does not find unaided.
 */
module Numbers {
  function Abs(x: int): nat { if x < 0 then -x else x }
  function Max(a: int, b: int): int { if a >= b then a else b }
  function Min(a: int, b: int): int { if a <= b then a else b }
  function AbsReal(x: real): real { if x < 0.0 then -x else x }
  function MaxReal(a: real, b: real): real { if a >= b then a else b }
  function MinReal(a: real, b: real): real { if a <= b then a else b }

  /** `RoundingMode.DOWN` to a whole number: truncation toward zero. */
  function Trunc(x: real): (r: int)
    ensures Abs(r) as real <= AbsReal(x) < Abs(r) as real + 1.0
    ensures x >= 0.0 ==> r >= 0
  {
    if x >= 0.0 then x.Floor else -((-x).Floor)
  }

  /** `Math.floor` of a real. */
  function Floor(x: real): (r: int)
    ensures r as real <= x < r as real + 1.0
  {
    x.Floor
  }

  // Real arithmetic facts the solver does not find unaided.

  lemma MulMonotone(a: real, b: real, c: real)
    requires a >= b && c >= 0.0
    ensures a * c >= b * c
  {
    assert a * c - b * c == (a - b) * c;
  }

  lemma MulPositive(a: real, c: real)
    requires a > 0.0 && c > 0.0
    ensures a * c > 0.0
  {
  }

  lemma DivAtLeast(f: real, p: real, k: real)
    requires p > 0.0
    ensures f / p >= k <==> f >= k * p
  {
    var q := f / p;
    assert q * p == f;
    assert q * p - k * p == (q - k) * p;
    if q >= k {
      MulMonotone(q, k, p);
    } else {
      MulPositive(k - q, p);
      assert (q - k) * p == -((k - q) * p);
    }
  }

  lemma DivAtMost(f: real, p: real, k: real)
    requires p > 0.0
    ensures f / p <= k <==> f <= k * p
  {
    DivAtLeast(-f, p, -k);
    assert (-f) / p == -(f / p);
    assert (-k) * p == -(k * p);
  }
}
