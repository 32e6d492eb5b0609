/** The non-linear facts the proofs about money, dates and numerals rest on. */
module Products {

  lemma ProductNotNegative(a: int, b: int)
    requires a >= 0 && b >= 0
    ensures a * b >= 0
  {
  }

  lemma ProductPositive(a: int, b: int)
    requires a > 0 && b > 0
    ensures a * b > 0
  {
  }

  lemma ProductMonotone(a: int, b: int, n: int)
    requires a <= b && n >= 0
    ensures a * n <= b * n
  {
  }

  /** Multiples of n of different numbers are at least n apart. */
  lemma ProductGrows(a: int, b: int, n: int)
    requires a < b && n >= 0
    ensures a * n + n <= b * n
  {
    ProductNotNegative(b - a - 1, n);
    assert (b - a - 1) * n == b * n - a * n - n;
  }

  lemma ProductBounds(r: int, f: int, m: int)
    requires 0 <= r && 0 <= f <= m
    ensures 0 <= r * f <= r * m
  {
    assert r * (m - f) >= 0;
    assert r * (m - f) == r * m - r * f;
  }

  lemma Regroup(a: int, b: int, c: int)
    ensures a * (b * c) == (a * b) * c
  {
  }

  lemma CancelFactor(a: int, b: int, d: int)
    requires a * d == b * d && d > 0
    ensures a == b
  {
    if a < b { ProductGrows(a, b, d); }
    if b < a { ProductGrows(b, a, d); }
  }

  /** The integer quotient, between its neighbouring multiples. */
  function Quotient(a: int, n: int): (q: int)
    requires n > 0
    ensures q * n <= a < (q + 1) * n
    ensures a >= 0 ==> q >= 0
  {
    a / n
  }

  lemma WrapAround(x: int, n: int)
    requires 0 <= x < 2 * n
    ensures x % n == if x < n then x else x - n
  {
  }

  lemma RealProductMonotone(a: real, b: real, c: real)
    requires a <= b && c >= 0.0
    ensures a * c <= b * c
  {
  }

  lemma RealProductPositive(a: real, b: real, product: real)
    requires a > 0.0 && b > 0.0 && product == a * b
    ensures product > 0.0
  {
  }

  lemma RealFactorNotNegative(n: real, x: real)
    requires n > 0.0 && n * x >= 0.0
    ensures x >= 0.0
  {
  }
}
