/** Exact-arithmetic stand-ins for the float operations the scripts use.
    Python's `int()` on a float truncates toward zero; on reals that is `Trunc`. */
module Numerics {

  /** Python's `int(x)` for a float `x`, on exact reals: rounds toward zero. */
  function Trunc(x: real): (n: int)
    ensures 0.0 <= x ==> 0 <= n && n as real <= x < n as real + 1.0
    ensures x < 0.0 ==> n <= 0 && n as real - 1.0 < x <= n as real
  {
    if x >= 0.0 then x.Floor else -((-x).Floor)
  }

  function Min(a: int, b: int): (m: int)
    ensures m <= a && m <= b && (m == a || m == b)
  {
    if a <= b then a else b
  }

  function Max(a: int, b: int): (m: int)
    ensures a <= m && b <= m && (m == a || m == b)
  {
    if a >= b then a else b
  }

  /** An integer is the truncation of every real in [k, k+1) when k >= 0. */
  lemma TruncOfNonNegative(x: real, k: int)
    requires 0 <= k && k as real <= x < k as real + 1.0
    ensures Trunc(x) == k
  {
  }

  /** Truncation never decreases as its argument grows. */
  lemma TruncMonotone(x: real, y: real)
    requires x <= y
    ensures Trunc(x) <= Trunc(y)
  {
  }

  /** Truncating an exact quotient of naturals is integer floor division:
      `int(n / d)` is `n // d`. */
  lemma TruncQuotient(n: nat, d: nat)
    requires d > 0
    ensures Trunc(n as real / d as real) == n / d
  {
    var q, r := n / d, n % d;
    assert n == d * q + r;
    assert (d * q) as real == d as real * q as real;
    assert n as real / d as real == q as real + r as real / d as real;
    assert r as real / d as real < 1.0;
    TruncOfNonNegative(n as real / d as real, q);
  }

  /** A whole non-negative shift passes through truncation of a non-negative real. */
  lemma TruncShift(k: nat, y: real)
    requires 0.0 <= y
    ensures Trunc(k as real + y) == k + Trunc(y)
  {
    TruncOfNonNegative(k as real + y, k + Trunc(y));
  }
}
