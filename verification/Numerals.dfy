/** Decimal digits, the numbers they stand for, and std::to_string of a natural number. */
module Numerals {
  predicate IsDigit(c: char) {
    '0' <= c <= '9'
  }

  function DigitOf(c: char): (d: nat)
    requires IsDigit(c)
    ensures d <= 9
  {
    c as int - '0' as int
  }

  function CharOf(d: nat): (c: char)
    requires d <= 9
    ensures IsDigit(c) && DigitOf(c) == d
  {
    ('0' as int + d) as char
  }

  predicate AllDigits(s: string) {
    forall i :: 0 <= i < |s| ==> IsDigit(s[i])
  }

  function Numeral(s: string): nat
    requires AllDigits(s)
  {
    if s == "" then 0 else Numeral(s[..|s| - 1]) * 10 + DigitOf(s[|s| - 1])
  }

  function Pow10(n: nat): (p: nat)
    ensures p > 0
  {
    if n == 0 then 1 else 10 * Pow10(n - 1)
  }

  lemma PowStep(m: nat)
    ensures Pow10(m + 1) == 10 * Pow10(m)
  {
  }

  lemma {:induction false} PowAdds(a: nat, b: nat)
    ensures Pow10(a + b) == Pow10(a) * Pow10(b)
    decreases b
  {
    if b == 0 {
    } else {
      PowAdds(a, b - 1);
      assert 10 * (Pow10(a) * Pow10(b - 1)) == Pow10(a) * (10 * Pow10(b - 1));
    }
  }

  lemma PowGrows(a: nat, b: nat)
    requires a <= b
    ensures Pow10(a) <= Pow10(b)
  {
    PowAdds(a, b - a);
    AtLeast(Pow10(a), Pow10(b - a));
  }

  lemma AtLeast(p: nat, q: nat)
    requires q >= 1
    ensures p * q >= p
  {
  }

  lemma NumeralGrows(s: string, c: char)
    requires AllDigits(s) && IsDigit(c)
    ensures AllDigits(s + [c]) && Numeral(s + [c]) == Numeral(s) * 10 + DigitOf(c)
  {
    assert (s + [c])[..|s|] == s;
  }

  /** The number x with y written behind it in n digits. */
  function Placed(x: nat, n: nat, y: nat): nat {
    x * Pow10(n) + y
  }

  lemma PlacedGrows(x: nat, n: nat, y: nat, d: nat)
    ensures Placed(x, n + 1, y * 10 + d) == Placed(x, n, y) * 10 + d
  {
    PowStep(n);
    hide Pow10;
    OneMoreDigit(x, Pow10(n), y, d);
  }

  lemma PlacedNothing(x: nat)
    ensures Numeral("") == 0 && Placed(x, 0, 0) == x
  {
    assert Pow10(0) == 1;
  }

  lemma OneMoreDigit(x: nat, p: nat, y: nat, d: nat)
    ensures (x * p + y) * 10 + d == x * (10 * p) + (y * 10 + d)
  {
  }

  lemma {:induction false} ConcatIsPlaced(a: string, b: string)
    requires AllDigits(a) && AllDigits(b)
    ensures AllDigits(a + b) && Numeral(a + b) == Placed(Numeral(a), |b|, Numeral(b))
    decreases |b|
  {
    hide Numeral, Placed;
    if b == "" {
      assert a + b == a;
      PlacedNothing(Numeral(a));
    } else {
      var init, c := b[..|b| - 1], b[|b| - 1];
      ConcatIsPlaced(a, init);
      NumeralGrows(a + init, c);
      NumeralGrows(init, c);
      PlacedGrows(Numeral(a), |init|, Numeral(init), DigitOf(c));
      assert a + b == (a + init) + [c] && b == init + [c];
    }
  }

  /** Reading on: what was read is multiplied by a power of ten, and the rest added. */
  lemma NumeralOfConcat(a: string, b: string)
    requires AllDigits(a) && AllDigits(b)
    ensures AllDigits(a + b) && Numeral(a + b) == Numeral(a) * Pow10(|b|) + Numeral(b)
  {
    hide Numeral, Pow10;
    ConcatIsPlaced(a, b);
  }

  lemma {:induction false} NumeralIsBelow(s: string)
    requires AllDigits(s)
    ensures Numeral(s) < Pow10(|s|)
    decreases |s|
  {
    if s == "" {
    } else {
      NumeralIsBelow(s[..|s| - 1]);
    }
  }

  // ----- std::to_string ------------------------------------------------------------------

  /** No leading zero unless the number is zero. */
  predicate Canonical(s: string) {
    AllDigits(s) && s != "" && (s[0] == '0' ==> |s| == 1)
  }

  function Show(n: nat): (s: string)
    ensures Canonical(s)
    ensures n > 0 ==> s[0] != '0'
  {
    if n < 10 then [CharOf(n)] else Show(n / 10) + [CharOf(n % 10)]
  }

  lemma {:induction false} ShowReadsBack(n: nat)
    ensures Numeral(Show(n)) == n
  {
    if n < 10 {
      NumeralGrows("", CharOf(n));
      assert "" + [CharOf(n)] == [CharOf(n)];
    } else {
      ShowReadsBack(n / 10);
      NumeralGrows(Show(n / 10), CharOf(n % 10));
    }
  }

  lemma ShowGrows(n: nat, c: char)
    requires IsDigit(c)
    ensures Show(n * 10 + DigitOf(c)) == if n == 0 then [c] else Show(n) + [c]
  {
    var m := n * 10 + DigitOf(c);
    assert m / 10 == n && m % 10 == DigitOf(c) && CharOf(DigitOf(c)) == c;
  }

  /** The text of a number is its only canonical text. */
  lemma {:induction false} CanonicalTextIsUnique(s: string)
    requires Canonical(s)
    ensures Show(Numeral(s)) == s
    decreases |s|
  {
    hide Numeral, Show;
    var init, c := s[..|s| - 1], s[|s| - 1];
    assert s == init + [c];
    NumeralGrows(init, c);
    ShowGrows(Numeral(init), c);
    if init == "" {
      NoDigits();
      assert s == [c];
    } else {
      CanonicalTextIsUnique(init);
      LeadingDigitCounts(init);
    }
  }

  lemma NoDigits()
    ensures Numeral("") == 0
  {
  }

  lemma {:induction false} LeadingDigitCounts(s: string)
    requires AllDigits(s) && s != "" && s[0] != '0'
    ensures Numeral(s) > 0
    decreases |s|
  {
    if |s| <= 1 {
    } else {
      LeadingDigitCounts(s[..|s| - 1]);
    }
  }

  // ----- padding with zeros --------------------------------------------------------------

  function Zeros(n: nat): (s: string)
    ensures |s| == n && AllDigits(s)
  {
    seq(n, _ => '0')
  }

  function Padded(digits: string, width: nat): string {
    if |digits| < width then Zeros(width - |digits|) + digits else digits
  }

  lemma {:induction false} ZerosAreZero(k: nat)
    ensures Numeral(Zeros(k)) == 0
  {
    if k == 0 {
    } else {
      ZerosAreZero(k - 1);
      assert Zeros(k)[..k - 1] == Zeros(k - 1);
    }
  }

  lemma PaddingKeepsTheNumber(s: string, width: nat)
    requires AllDigits(s)
    ensures AllDigits(Padded(s, width)) && Numeral(Padded(s, width)) == Numeral(s)
  {
    if |s| < width {
      NumeralOfConcat(Zeros(width - |s|), s);
      ZerosAreZero(width - |s|);
    }
  }

  /** One more digit behind a padded text. */
  lemma PaddedGrows(n: nat, width: nat, c: char)
    requires width > 0 && IsDigit(c)
    ensures Padded(if n == 0 then [c] else Show(n) + [c], width + 1) == Padded(Show(n), width) + [c]
  {
  }

  /** A digit string is its number's text, padded to its length. */
  lemma {:induction false} PaddedTextIsUnique(s: string)
    requires AllDigits(s) && s != ""
    ensures Padded(Show(Numeral(s)), |s|) == s
    decreases |s|
  {
    hide Padded, Show, Numeral;
    var init, c := s[..|s| - 1], s[|s| - 1];
    assert s == init + [c];
    NumeralGrows(init, c);
    ShowGrows(Numeral(init), c);
    if init == "" {
      OneDigit(c);
    } else {
      PaddedTextIsUnique(init);
      PaddedGrows(Numeral(init), |init|, c);
    }
  }

  lemma OneDigit(c: char)
    requires IsDigit(c)
    ensures Numeral("") == 0 && Padded([c], 1) == [c]
  {
  }

  lemma {:induction false} ShowLength(n: nat, width: nat)
    requires n < Pow10(width) && width >= 1
    ensures |Show(n)| <= width
  {
    if n < 10 {
    } else {
      assert width > 1 by { assert Pow10(1) == 10; }
      ShowLength(n / 10, width - 1);
    }
  }

  /** A field of fixed width holds any number that fits it, and reads back. */
  lemma FieldReadsBack(n: nat, width: nat)
    requires n < Pow10(width) && width >= 1
    ensures var s := Padded(Show(n), width); |s| == width && AllDigits(s) && Numeral(s) == n
  {
    ShowLength(n, width);
    ShowReadsBack(n);
    PaddingKeepsTheNumber(Show(n), width);
  }
}
