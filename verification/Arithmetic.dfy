/** Machine integers, and the few nonlinear facts the models need, each proved on its own. */
module Arithmetic {
  const TWO_64: int := 0x1_0000_0000_0000_0000
  const TWO_63: int := 0x8000_0000_0000_0000

  /** The int64 value that a Go computation with exact result x leaves. */
  function Wrap(x: int): (w: int)
    ensures -TWO_63 <= w < TWO_63
  {
    var m := x % TWO_64;
    if m >= TWO_63 then m - TWO_64 else m
  }

  lemma WrapIsCongruent(x: int) returns (q: int)
    ensures Wrap(x) == x - q * TWO_64
  {
    q := x / TWO_64;
    if x % TWO_64 >= TWO_63 {
      q := q + 1;
    }
  }

  lemma MulMonotone(d: int, a: int, b: int)
    requires d >= 0 && a <= b
    ensures d * a <= d * b
  {
    var k := b - a;
    assert d * k >= 0;
    assert d * b == d * a + d * k;
  }

  lemma MulCancel(d: int, a: int, b: int)
    requires d > 0 && d * a < d * b + d
    ensures a <= b
  {
    assert d * (b + 1) == d * b + d;
    if a > b {
      MulMonotone(d, b + 1, a);
    }
  }

  lemma DivBounds(x: int, d: int)
    requires d > 0
    ensures d * (x / d) <= x < d * (x / d) + d
  {
    assert x == d * (x / d) + x % d;
  }

  lemma QuotientIs(x: int, d: int, q: int)
    requires d > 0 && d * q <= x < d * q + d
    ensures x / d == q
  {
    DivBounds(x, d);
    MulCancel(d, q, x / d);
    MulCancel(d, x / d, q);
  }

  /** A remainder is determined by its range and a multiple of the divisor away. */
  lemma RemainderIs(x: int, n: int, q: int, r: int)
    requires 0 <= r < n && x == n * q + r
    ensures x % n == r
  {
    QuotientIs(x, n, q);
    assert x == n * (x / n) + x % n;
  }
}
