/** Facts about division by a variable element size. */
module Multiples {

  lemma ProductNonNegative(a: int, b: int)
    requires a >= 0 && b >= 0
    ensures a * b >= 0
  {
  }

  /** Multiples of `e` are at least `e` apart. */
  lemma Spaced(e: int, a: int, b: int)
    requires e > 0 && a < b
    ensures e * b >= e * a + e
  {
    ProductNonNegative(e, b - a - 1);
    assert e * (b - a - 1) == e * b - e * a - e;
  }

  /** Division with remainder is unique. */
  lemma DivisionUnique(x: int, e: int, k: int, r: int)
    requires 0 <= r < e && x == e * k + r
    ensures x / e == k && x % e == r
  {
    assert x == e * (x / e) + x % e;
    if k < x / e {
      Spaced(e, k, x / e);
    } else if x / e < k {
      Spaced(e, x / e, k);
    }
  }

  lemma MultipleModulo(q: int, e: int)
    requires e > 0
    ensures (q * e) % e == 0
  {
    DivisionUnique(q * e, e, q, 0);
  }

  lemma RemainderBound(n: nat, e: nat)
    requires e > 0
    ensures n % e <= n
  {
    assert n == e * (n / e) + n % e;
    ProductNonNegative(e, n / e);
  }

  /** Rounding `n` down to a multiple of `e` does not pass a smaller multiple `m`. */
  lemma AlignedFloor(n: nat, m: nat, e: nat)
    requires e > 0 && m % e == 0 && n >= m
    ensures n - n % e >= m && (n - n % e) % e == 0
  {
    var a, b := n / e, m / e;
    assert n == e * a + n % e && m == e * b + 0;
    DivisionUnique(n - n % e, e, a, 0);
    if a < b {
      Spaced(e, a, b);
    } else if b < a {
      Spaced(e, b, a);
    }
  }
}
