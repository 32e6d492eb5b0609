/** Exact money: whole millionths held in an unbounded `int`. */
module Decimals {

  function Abs(x: int): nat {
    if x < 0 then -x else x
  }

  function Min(a: int, b: int): int {
    if a <= b then a else b
  }

  function Max(a: int, b: int): int {
    if a <= b then b else a
  }

  /** C++ integer division: the quotient is truncated toward zero. */
  function TruncDiv(a: int, n: int): int
    requires n != 0
  {
    if a >= 0 then a / n else -((-a) / n)
  }

  function TruncMod(a: int, n: int): int
    requires n != 0
  {
    a - n * TruncDiv(a, n)
  }

  /** Decimal's operator/: truncate, then step away from zero when the remainder is at least half. */
  function DivRound(a: int, n: int): int
    requires n != 0
  {
    var q := TruncDiv(a, n);
    var r := TruncMod(a, n);
    if Abs(r) >= Abs(n) - Abs(r) then
      if (a < 0) != (n < 0) then q - 1 else q + 1
    else q
  }

  /** `x` is a multiple of `n` nearest to `a`; on a tie, the one farther from zero. */
  ghost predicate NearestMultiple(a: int, n: int, x: int) {
    && 2 * Abs(x - a) <= Abs(n)
    && (2 * Abs(x - a) == Abs(n) ==> if a >= 0 then x > a else x < a)
  }

  ghost predicate NearestAwayFromZero(a: int, n: int, q: int) {
    NearestMultiple(a, n, q * n)
  }

  lemma TruncFacts(a: int, n: int)
    requires n != 0
    ensures Abs(TruncMod(a, n)) < Abs(n)
    ensures a >= 0 ==> TruncMod(a, n) >= 0
    ensures a <= 0 ==> TruncMod(a, n) <= 0
  {
  }

  /** The result is a nearest integer to a/n, and a tie goes to the larger magnitude. */
  lemma DivRoundNearest(a: int, n: int)
    requires n != 0
    ensures NearestAwayFromZero(a, n, DivRound(a, n))
  {
    TruncFacts(a, n);
    var q, r := TruncDiv(a, n), TruncMod(a, n);
    assert a == n * q + r;
    assert (q + 1) * n == q * n + n && (q - 1) * n == q * n - n;
    assert q * n == n * q;
  }

  lemma MultiplesApart(a: int, b: int, n: int, x: int, y: int)
    requires n != 0 && a <= b
    requires NearestMultiple(a, n, x) && NearestMultiple(b, n, y)
    ensures x - y < Abs(n)
    ensures a == b ==> y - x < Abs(n)
  {
  }

  lemma MultiplesOrdered(p: int, q: int, n: int)
    requires n > 0
    ensures p * n - q * n < n ==> p <= q
  {
    if p >= q + 1 {
      assert (p - q - 1) * n >= 0;
      assert (p - q - 1) * n == p * n - q * n - n;
    }
  }

  /** Two multiples of n less than n apart are the same one. */
  lemma CloseMultiples(p: int, q: int, n: int)
    requires n != 0 && p * n - q * n < Abs(n) && q * n - p * n < Abs(n)
    ensures p == q
  {
    if n > 0 {
      MultiplesOrdered(p, q, n);
      MultiplesOrdered(q, p, n);
    } else {
      assert (-p) * (-n) == p * n && (-q) * (-n) == q * n;
      MultiplesOrdered(-p, -q, -n);
      MultiplesOrdered(-q, -p, -n);
    }
  }

  lemma NearestUnique(a: int, n: int, p: int, q: int)
    requires n != 0
    requires NearestAwayFromZero(a, n, p) && NearestAwayFromZero(a, n, q)
    ensures p == q
  {
    hide NearestMultiple;
    MultiplesApart(a, a, n, p * n, q * n);
    CloseMultiples(p, q, n);
  }

  /** Those two facts leave one answer: rounding half away from zero is the only such function. */
  lemma DivRoundUnique(a: int, n: int, q: int)
    requires n != 0
    requires NearestAwayFromZero(a, n, q)
    ensures q == DivRound(a, n)
  {
    DivRoundNearest(a, n);
    NearestUnique(a, n, DivRound(a, n), q);
  }

  /** Dividing by a signed quantity or by its magnitude gives the same price. */
  lemma DivRoundNegate(a: int, n: int)
    requires n != 0
    ensures DivRound(-a, -n) == DivRound(a, n)
  {
    DivRoundNearest(a, n);
    var q := DivRound(a, n);
    assert q * (-n) - (-a) == -(q * n - a);
    assert q * (-n) == -(q * n);
    DivRoundUnique(-a, -n, q);
  }

  lemma DivRoundExact(k: int, n: int)
    requires n != 0
    ensures DivRound(k * n, n) == k
  {
    DivRoundUnique(k * n, n, k);
  }

  lemma DivRoundMonotone(a: int, b: int, n: int)
    requires n > 0 && a <= b
    ensures DivRound(a, n) <= DivRound(b, n)
  {
    DivRoundNearest(a, n);
    DivRoundNearest(b, n);
    MultiplesApart(a, b, n, DivRound(a, n) * n, DivRound(b, n) * n);
    MultiplesOrdered(DivRound(a, n), DivRound(b, n), n);
  }

  lemma DivRoundBetween(a: int, n: int, lo: int, hi: int)
    requires n > 0 && lo * n <= a <= hi * n
    ensures lo <= DivRound(a, n) <= hi
  {
    DivRoundExact(lo, n);
    DivRoundExact(hi, n);
    DivRoundMonotone(lo * n, a, n);
    DivRoundMonotone(a, hi * n, n);
  }
}
