/** Exact decimal text of fixed-point numbers: the parser, the formatter, and that they undo each other. */
module DecimalText {
  import opened Domain
  import opened MachineIntegers
  import opened Numerals
  import opened Products

  const DECIMAL_PLACES: int := 6
  const MAX_DECIMALS: int := 18

  datatype Status = Ok | Empty | NotADecimal | TooManyDecimals | OutOfRange

  // ----- what a text means ---------------------------------------------------------------

  /** The text without its points. */
  function Digits(t: string): string {
    if t == "" then ""
    else if t[|t| - 1] == '.' then Digits(t[..|t| - 1])
    else Digits(t[..|t| - 1]) + [t[|t| - 1]]
  }

  function Points(t: string): nat {
    if t == "" then 0 else Points(t[..|t| - 1]) + (if t[|t| - 1] == '.' then 1 else 0)
  }

  /** How many digits follow the point. */
  function FractionLength(t: string): nat {
    if t == "" || t[|t| - 1] == '.' || Points(t[..|t| - 1]) == 0 then 0 else FractionLength(t[..|t| - 1]) + 1
  }

  predicate DigitsAndPoint(t: string) {
    Points(t) <= 1 && forall i :: 0 <= i < |t| ==> t[i] == '.' || IsDigit(t[i])
  }

  predicate Plain(t: string) {
    DigitsAndPoint(t) && Digits(t) != ""
  }

  lemma {:induction false} DigitsAreDigits(t: string)
    requires DigitsAndPoint(t)
    ensures AllDigits(Digits(t))
    decreases |t|
  {
    if t == "" {
    } else {
      assert forall i :: 0 <= i < |t| - 1 ==> t[..|t| - 1][i] == t[i];
      DigitsAreDigits(t[..|t| - 1]);
    }
  }

  function Unscaled(t: string): nat
    requires DigitsAndPoint(t)
  {
    DigitsAreDigits(t);
    Numeral(Digits(t))
  }

  /** The text is the rational n / 10^decimals: both sides cleared of denominators. */
  ghost predicate Denotes(t: string, decimals: nat, n: nat)
    requires DigitsAndPoint(t)
  {
    Unscaled(t) * Pow10(decimals) == n * Pow10(FractionLength(t))
  }

  /** x / p, when that is an integer within int64. */
  function Exactly(x: nat, p: nat): Option<nat>
    requires p > 0
  {
    if x % p == 0 && x / p <= INT64_MAX then Some(x / p) else None
  }

  /** The int64 a text stands for at a scale, when it is a plain decimal and there is one. */
  function ParseOf(t: string, decimals: int): Option<nat> {
    if decimals < 0 || decimals > MAX_DECIMALS || !Plain(t) then None
    else
      Exactly(Unscaled(t) * Pow10(decimals), Pow10(FractionLength(t)))
  }

  lemma ParseOfMeans(t: string, decimals: int, n: nat)
    ensures ParseOf(t, decimals) == Some(n)
       <==> 0 <= decimals <= MAX_DECIMALS && Plain(t) && Denotes(t, decimals, n) && n <= INT64_MAX
  {
    if 0 <= decimals <= MAX_DECIMALS && Plain(t) {
      Quotient(Unscaled(t) * Pow10(decimals), Pow10(FractionLength(t)), n);
    }
  }

  lemma Quotient(x: nat, p: nat, n: nat)
    requires p > 0
    ensures x % p == 0 && x / p == n <==> x == n * p
  {
    var q, r := x / p, x % p;
    assert x == q * p + r;
    if x == n * p { Split(q, r, n, p); }
  }

  lemma Split(q: nat, r: nat, n: nat, p: nat)
    requires q * p + r == n * p && r < p
    ensures q == n && r == 0
  {
    if q < n {
      ProductGrows(q, n, p);
    } else if q > n {
      ProductGrows(n, q, p);
    }
  }

  // ----- reading on ----------------------------------------------------------------------

  lemma {:induction false} Grows(p: string, c: char)
    ensures (p + [c])[..|p|] == p
    ensures Points(p + [c]) == Points(p) + (if c == '.' then 1 else 0)
    ensures Digits(p + [c]) == if c == '.' then Digits(p) else Digits(p) + [c]
    ensures FractionLength(p + [c]) == if c == '.' || Points(p) == 0 then 0 else FractionLength(p) + 1
  {
    assert (p + [c])[..|p|] == p;
  }

  lemma NoFractionBeforePoint(p: string)
    requires Points(p) == 0
    ensures FractionLength(p) == 0
  {
  }

  /** What was read of p bounds what is read of the longer q: the more digits, the finer. */
  ghost predicate ReadsOn(p: string, q: string)
    requires DigitsAndPoint(p) && DigitsAndPoint(q)
  {
    var m := |Digits(q)| - |Digits(p)|;
    && Digits(p) <= Digits(q) && Points(p) <= Points(q)
    && FractionLength(q) <= FractionLength(p) + m
    && (Points(p) == 1 ==> FractionLength(q) == FractionLength(p) + m)
    && Unscaled(p) * Pow10(m) <= Unscaled(q) < (Unscaled(p) + 1) * Pow10(m)
  }

  /** What the rest of a text adds: m more digits, at most m of them to the fraction. */
  lemma {:induction false} ReadOn(p: string, rest: string)
    requires DigitsAndPoint(p + rest)
    ensures DigitsAndPoint(p) && ReadsOn(p, p + rest)
    decreases |rest|
  {
    hide ReadsOn;
    if rest == "" {
      assert p + rest == p;
      ReadsOnItself(p);
    } else {
      var init, c := rest[..|rest| - 1], rest[|rest| - 1];
      var t := p + init;
      assert p + rest == t + [c];
      assert forall i :: 0 <= i < |t| ==> t[i] == (t + [c])[i];
      ReadOn(p, init);
      ReadOneMore(p, t, c);
    }
  }

  lemma ReadsOnItself(p: string)
    requires DigitsAndPoint(p)
    ensures ReadsOn(p, p)
  {
    hide Unscaled, Digits, Points, FractionLength;
    assert Pow10(0) == 1;
  }

  lemma ReadOneMore(p: string, t: string, c: char)
    requires DigitsAndPoint(t + [c]) && DigitsAndPoint(t) && DigitsAndPoint(p) && ReadsOn(p, t)
    ensures ReadsOn(p, t + [c])
  {
    hide Points, FractionLength, Numeral, Pow10, Digits, Unscaled, DigitsAndPoint;
    Grows(t, c);
    UnscaledGrows(t, c);
    var m := |Digits(t)| - |Digits(p)|;
    if c == '.' {
      BeforeThePoint(p, t);
    } else {
      assert |Digits(t + [c])| - |Digits(p)| == m + 1;
      NextDigitBounds(Unscaled(p), Pow10(m), Unscaled(t), DigitOf(c));
      PowStep(m);
    }
  }

  lemma BeforeThePoint(p: string, t: string)
    requires DigitsAndPoint(t + ['.']) && Points(p) <= Points(t)
    ensures Points(p) == 0
  {
    Grows(t, '.');
  }

  lemma UnscaledGrows(t: string, c: char)
    requires DigitsAndPoint(t + [c]) && DigitsAndPoint(t)
    ensures c == '.' || IsDigit(c)
    ensures Unscaled(t + [c]) == if c == '.' then Unscaled(t) else Unscaled(t) * 10 + DigitOf(c)
  {
    Grows(t, c);
    DigitsAreDigits(t);
    hide Points, Digits, FractionLength;
    assert (t + [c])[|t|] == c;
    if c != '.' { NumeralGrows(Digits(t), c); }
  }

  lemma PowZero()
    ensures Pow10(0) == 1
  {
  }

  lemma NextDigitBounds(x: nat, q: nat, y: nat, d: nat)
    requires x * q <= y < (x + 1) * q && d <= 9
    ensures x * (10 * q) <= y * 10 + d < (x + 1) * (10 * q)
  {
    assert x * (10 * q) == 10 * (x * q);
    assert (x + 1) * (10 * q) == 10 * ((x + 1) * q);
  }

  // ----- what the scanner's variables hold -----------------------------------------------

  /** The number of digits beyond the scale; they were all zero. */
  function Excess(fraction: nat, decimals: nat): nat {
    if fraction > decimals then fraction - decimals else 0
  }

  ghost predicate Scanned(p: string, decimals: nat, value: nat, seenPoint: bool, anyDigit: bool, fraction: nat) {
    && DigitsAndPoint(p)
    && seenPoint == (Points(p) == 1) && anyDigit == (Digits(p) != "") && fraction == FractionLength(p)
    && value * Pow10(Excess(fraction, decimals)) == Unscaled(p)
  }

  lemma ScanPoint(p: string, decimals: nat, value: nat, anyDigit: bool, fraction: nat)
    requires Scanned(p, decimals, value, false, anyDigit, fraction)
    ensures Scanned(p + ['.'], decimals, value, true, anyDigit, fraction)
  {
    hide Points, Digits, FractionLength, Numeral, Pow10, Unscaled;
    Grows(p, '.');
    UnscaledGrows(p, '.');
    NoFractionBeforePoint(p);
  }

  lemma ScanDigit(p: string, c: char, decimals: nat, value: nat, seenPoint: bool, anyDigit: bool, fraction: nat)
    requires Scanned(p, decimals, value, seenPoint, anyDigit, fraction) && IsDigit(c)
    requires seenPoint ==> fraction < decimals
    ensures Scanned(p + [c], decimals, value * 10 + DigitOf(c), seenPoint, true,
                    if seenPoint then fraction + 1 else fraction)
  {
    hide Points, Digits, FractionLength, Numeral, Pow10, Unscaled;
    Grows(p, c);
    UnscaledGrows(p, c);
    if !seenPoint { NoFractionBeforePoint(p); }
    PowZero();
  }

  lemma ScanExtraZero(p: string, decimals: nat, value: nat, anyDigit: bool, fraction: nat)
    requires Scanned(p, decimals, value, true, anyDigit, fraction) && fraction >= decimals
    ensures Scanned(p + ['0'], decimals, value, true, true, fraction + 1)
  {
    hide Points, Digits, FractionLength, Numeral, Pow10, Unscaled;
    Grows(p, '0');
    UnscaledGrows(p, '0');
    PowStep(Excess(fraction, decimals));
    TenMore(value, Pow10(Excess(fraction, decimals)));
  }

  lemma TenMore(v: nat, q: nat)
    ensures v * (10 * q) == (v * q) * 10
    ensures (v * 10) * q == v * (10 * q)
  {
  }

  /** A prefix too large for int64 makes the whole text too large. */
  lemma TooLarge(p: string, rest: string, decimals: nat)
    requires DigitsAndPoint(p + rest) && DigitsAndPoint(p)
    requires FractionLength(p) <= decimals && Unscaled(p) > INT64_MAX
    ensures Unscaled(p + rest) * Pow10(decimals) > INT64_MAX * Pow10(FractionLength(p + rest))
  {
    ReadOn(p, rest);
    var m, f := |Digits(p + rest)| - |Digits(p)|, FractionLength(p + rest);
    PowAdds(m, decimals);
    PowGrows(f, m + decimals);
    hide Points, Digits, FractionLength, Unscaled, Pow10;
    ProductOrder(Unscaled(p), Pow10(m), Pow10(decimals), Unscaled(p + rest), Pow10(f), INT64_MAX);
  }

  lemma ProductOrder(x: nat, q: nat, d: nat, y: nat, f: nat, max: nat)
    requires x * q <= y && f <= q * d && x > max && f > 0
    ensures y * d > max * f
  {
    assert y * d >= (x * q) * d == x * (q * d);
    assert x * (q * d) >= x * f;
    assert x * f > max * f;
  }

  /** A non-zero digit beyond the scale makes the text a fraction of a unit. */
  lemma TooFine(p: string, c: char, rest: string, decimals: nat)
    requires DigitsAndPoint(p + [c] + rest) && IsDigit(c) && c != '0'
    requires Points(p) == 1 && FractionLength(p) >= decimals
    ensures (Unscaled(p + [c] + rest) * Pow10(decimals)) % Pow10(FractionLength(p + [c] + rest)) != 0
  {
    hide Points, Digits, FractionLength, Unscaled, Pow10, DigitsAndPoint;
    var s := p + [c];
    ReadOn(s, rest);
    OneDigitFurther(p, c);
    NotRound(Unscaled(p), DigitOf(c));
    var m := |Digits(s + rest)| - |Digits(s)|;
    NotWhole(Unscaled(s), Unscaled(s + rest), FractionLength(s), m, decimals);
  }

  lemma NotRound(x: nat, d: nat)
    requires 1 <= d <= 9
    ensures (x * 10 + d) % 10 != 0
  {
  }

  lemma OneDigitFurther(p: string, c: char)
    requires DigitsAndPoint(p + [c]) && IsDigit(c) && Points(p) == 1
    ensures DigitsAndPoint(p) && Unscaled(p + [c]) == Unscaled(p) * 10 + DigitOf(c)
    ensures Points(p + [c]) == 1 && FractionLength(p + [c]) == FractionLength(p) + 1
  {
    ReadOn(p, [c]);
    Grows(p, c);
    DigitsAreDigits(p);
    hide Points, Digits, FractionLength, Pow10;
    NumeralGrows(Digits(p), c);
  }

  lemma NotWhole(x: nat, y: nat, f: nat, m: nat, decimals: nat)
    requires x * Pow10(m) <= y < (x + 1) * Pow10(m) && x % 10 != 0 && f > decimals
    ensures (y * Pow10(decimals)) % Pow10(f + m) != 0
  {
    PowAdds(f, m);
    PowAdds(decimals, f - decimals);
    PowStep(f - decimals - 1);
    hide Pow10;
    NotAMultiple(x, Pow10(m), y, Pow10(decimals), Pow10(f - decimals - 1));
  }

  lemma NotAMultiple(x: nat, q: nat, y: nat, d: nat, e: nat)
    requires x * q <= y < (x + 1) * q && x % 10 != 0 && q > 0 && d > 0 && e > 0
    ensures (y * d) % (d * (10 * e) * q) != 0
  {
    var z := d * (10 * e) * q;
    assert z > 0;
    if (y * d) % z == 0 {
      var k := (y * d) / z;
      Quotient(y * d, z, k);
      assert k * (d * (10 * e) * q) == (10 * (k * e) * q) * d;
      CancelFactor(y, 10 * (k * e) * q, d);
      Pinned(x, 10 * (k * e), q);
    }
  }

  lemma Pinned(x: nat, k: nat, q: nat)
    requires q > 0 && x * q <= k * q < (x + 1) * q
    ensures x == k
  {
    if k < x { ProductGrows(k, x, q); }
    if k > x { ProductGrows(x, k, q); }
  }

  /** Padding the missing fractional digits turns what was scanned into the numerator. */
  lemma Finished(t: string, decimals: nat, value: nat, seenPoint: bool, fraction: nat)
    requires Scanned(t, decimals, value, seenPoint, true, fraction)
    ensures var start := if fraction < decimals then fraction else decimals;
            Unscaled(t) * Pow10(decimals) == value * Pow10(decimals - start) * Pow10(FractionLength(t))
  {
    var start := if fraction < decimals then fraction else decimals;
    var e := Excess(fraction, decimals);
    PowAdds(e, decimals);
    PowAdds(decimals - start, fraction);
    assert e + decimals == (decimals - start) + fraction;
    Regroup(value, Pow10(e), Pow10(decimals), Pow10(decimals - start), Pow10(fraction));
  }

  lemma Regroup(v: nat, a: nat, b: nat, c: nat, d: nat)
    requires a * b == c * d
    ensures v * a * b == v * c * d
  {
    assert v * a * b == v * (a * b);
    assert v * c * d == v * (c * d);
  }

  // ----- the parser ----------------------------------------------------------------------

  /** Why a plain text has no value: it needs more decimals, or is too large. */
  ghost predicate Refused(status: Status, t: string, decimals: nat)
    requires DigitsAndPoint(t)
  {
    var x, p := Unscaled(t) * Pow10(decimals), Pow10(FractionLength(t));
    match status
    case TooManyDecimals => x % p != 0
    case OutOfRange => x > INT64_MAX * p
    case _ => false
  }

  lemma RefusedHasNoValue(status: Status, t: string, decimals: nat)
    requires DigitsAndPoint(t) && Refused(status, t, decimals)
    ensures ParseOf(t, decimals).None?
  {
    if ParseOf(t, decimals).Some? {
      var n := ParseOf(t, decimals).value;
      ParseOfMeans(t, decimals, n);
      hide Unscaled, FractionLength, Pow10;
      Quotient(Unscaled(t) * Pow10(decimals), Pow10(FractionLength(t)), n);
      ProductMonotone(n, INT64_MAX, Pow10(FractionLength(t)));
    }
  }

  /** Every intermediate value fits int64: the arithmetic below is on Int64. */
  method ParseScaled(text: string, decimals: int) returns (status: Status, out: Int64)
    ensures status == Status.Ok <==> ParseOf(text, decimals).Some?
    ensures status == Status.Ok ==> ParseOf(text, decimals) == Some(out as int)
    ensures status == Empty <==> text == ""
    ensures status == NotADecimal ==> decimals < 0 || decimals > MAX_DECIMALS || !Plain(text)
    ensures status in {TooManyDecimals, OutOfRange} && Plain(text) ==>
              0 <= decimals <= MAX_DECIMALS && Refused(status, text, decimals)
  {
    hide Plain, Refused, Scanned, Unscaled, FractionLength, Points, Digits, Pow10;
    out := 0;
    if text == "" {
      assert !Plain("") by { EmptyIsNotPlain(); }
      return Empty, 0;
    }
    if decimals < 0 || decimals > MAX_DECIMALS { return NotADecimal, 0; }
    var value: Int64 := 0;
    var seenPoint, anyDigit, fraction := false, false, 0;
    ScanNothing(decimals);
    var i := 0;
    while i < |text|
      invariant 0 <= i <= |text| && value >= 0 && 0 <= fraction && (!seenPoint ==> fraction == 0)
      invariant Scanned(text[..i], decimals, value as int, seenPoint, anyDigit, fraction)
    {
      var c := text[i];
      ghost var p := text[..i];
      assert text[..i + 1] == p + [c] && text == p + [c] + text[i + 1..];
      i := i + 1;
      if c == '.' {
        if seenPoint {
          SecondPoint(p, text[i..], decimals, value as int, anyDigit, fraction);
          return NotADecimal, 0;
        }
        ScanPoint(p, decimals, value as int, anyDigit, fraction);
        seenPoint := true;
        continue;
      }
      if c < '0' || c > '9' {
        StrayCharacter(text, i - 1);
        return NotADecimal, 0;
      }
      anyDigit := true;
      var digit := DigitOf(c) as Int64;
      if seenPoint {
        fraction := fraction + 1;
        if fraction > decimals {
          if digit != 0 {
            NonZeroBeyondScale(p, c, text[i..], decimals, value as int, fraction - 1);
            return TooManyDecimals, 0;
          }
          ScanExtraZeroAt(p, c, decimals, value as int, fraction - 1);
          continue;
        }
      }
      ScanDigitAt(p, c, decimals, value as int, seenPoint, if seenPoint then fraction - 1 else fraction);
      if value > (0x7FFF_FFFF_FFFF_FFFF - digit) / 10 {
        PrefixTooLarge(p + [c], text[i..], decimals, value as int * 10 + digit as int, seenPoint, fraction);
        return OutOfRange, 0;
      }
      value := value * 10 + digit;
    }
    assert text[..i] == text;
    if !anyDigit {
      NoDigit(text, decimals, value as int, seenPoint, fraction);
      return NotADecimal, 0;
    }
    status, out := PadFraction(text, decimals, value, seenPoint, fraction);
  }

  method PadFraction(ghost text: string, decimals: nat, scanned: Int64, ghost seenPoint: bool, fraction: nat)
    returns (status: Status, out: Int64)
    requires decimals <= MAX_DECIMALS && scanned >= 0
    requires Scanned(text, decimals, scanned as int, seenPoint, true, fraction)
    ensures Plain(text) && status in {Status.Ok, OutOfRange}
    ensures status == Status.Ok ==> ParseOf(text, decimals) == Some(out as int)
    ensures status == OutOfRange ==> ParseOf(text, decimals).None? && Refused(status, text, decimals)
  {
    hide Unscaled, FractionLength, Points, Digits, ParseOf, Pow10;
    var i := if fraction < decimals then fraction else decimals;
    ghost var start, full := i, scanned as int * Pow10(decimals - i);
    Finished(text, decimals, scanned as int, seenPoint, fraction);
    var value := scanned;
    while i < decimals
      invariant start <= i <= decimals && value >= 0
      invariant value as int * Pow10(decimals - i) == full
    {
      PowStep(decimals - i - 1);
      ghost var q := Pow10(decimals - i - 1);
      TenMore(value as int, q);
      if value > 0x7FFF_FFFF_FFFF_FFFF / 10 {
        AtLeast(value as int * 10, q);
        Exceeds(full, INT64_MAX, Pow10(FractionLength(text)));
        RefusedHasNoValue(OutOfRange, text, decimals);
        return OutOfRange, 0;
      }
      value := value * 10;
      i := i + 1;
    }
    assert Pow10(0) == 1 by { PowZero(); }
    ParseOfMeans(text, decimals, value as int);
    return Status.Ok, value;
  }

  lemma Exceeds(a: nat, b: nat, p: nat)
    requires a > b && p > 0
    ensures a * p > b * p
  {
  }

  lemma EmptyIsNotPlain()
    ensures !Plain("")
  {
  }

  lemma ScanNothing(decimals: nat)
    ensures Scanned("", decimals, 0, false, false, 0)
  {
  }

  lemma StrayCharacter(t: string, i: nat)
    requires i < |t| && t[i] != '.' && !IsDigit(t[i])
    ensures !Plain(t)
  {
  }

  lemma NoDigit(t: string, decimals: nat, value: nat, seenPoint: bool, fraction: nat)
    requires Scanned(t, decimals, value, seenPoint, false, fraction)
    ensures !Plain(t)
  {
  }

  lemma {:induction false} PointsNeverDrop(p: string, rest: string)
    ensures Points(p + rest) >= Points(p)
    decreases |rest|
  {
    if rest == "" {
      assert p + rest == p;
    } else {
      assert (p + rest)[..|p + rest| - 1] == p + rest[..|rest| - 1];
      PointsNeverDrop(p, rest[..|rest| - 1]);
    }
  }

  lemma SecondPoint(p: string, rest: string, decimals: nat, value: nat, anyDigit: bool, fraction: nat)
    requires Scanned(p, decimals, value, true, anyDigit, fraction)
    ensures !Plain(p + ['.'] + rest)
  {
    Grows(p, '.');
    PointsNeverDrop(p + ['.'], rest);
  }

  lemma NonZeroBeyondScale(p: string, c: char, rest: string, decimals: nat, value: nat, fraction: nat)
    requires decimals <= MAX_DECIMALS && IsDigit(c) && c != '0' && fraction >= decimals
    requires exists any :: Scanned(p, decimals, value, true, any, fraction)
    ensures ParseOf(p + [c] + rest, decimals).None?
    ensures Plain(p + [c] + rest) ==> Refused(TooManyDecimals, p + [c] + rest, decimals)
  {
    if Plain(p + [c] + rest) {
      TooFine(p, c, rest, decimals);
      hide Unscaled, FractionLength, Points, Digits, ParseOf;
      RefusedHasNoValue(TooManyDecimals, p + [c] + rest, decimals);
    }
  }

  lemma ScanExtraZeroAt(p: string, c: char, decimals: nat, value: nat, fraction: nat)
    requires IsDigit(c) && DigitOf(c) == 0 && fraction >= decimals
    requires exists any :: Scanned(p, decimals, value, true, any, fraction)
    ensures Scanned(p + [c], decimals, value, true, true, fraction + 1)
  {
    var any :| Scanned(p, decimals, value, true, any, fraction);
    ScanExtraZero(p, decimals, value, any, fraction);
    assert c == '0';
  }

  lemma ScanDigitAt(p: string, c: char, decimals: nat, value: nat, seenPoint: bool, fraction: nat)
    requires IsDigit(c) && (seenPoint ==> fraction < decimals)
    requires exists any :: Scanned(p, decimals, value, seenPoint, any, fraction)
    ensures Scanned(p + [c], decimals, value * 10 + DigitOf(c), seenPoint, true,
                    if seenPoint then fraction + 1 else fraction)
  {
    var any :| Scanned(p, decimals, value, seenPoint, any, fraction);
    ScanDigit(p, c, decimals, value, seenPoint, any, fraction);
  }

  lemma PrefixTooLarge(p: string, rest: string, decimals: nat, value: nat, seenPoint: bool, fraction: nat)
    requires decimals <= MAX_DECIMALS && value > INT64_MAX
    requires Scanned(p, decimals, value, seenPoint, true, fraction) && fraction <= decimals
    ensures ParseOf(p + rest, decimals).None?
    ensures Plain(p + rest) ==> Refused(OutOfRange, p + rest, decimals)
  {
    if Plain(p + rest) {
      TooLarge(p, rest, decimals);
      hide Unscaled, FractionLength, Points, Digits, ParseOf;
      RefusedHasNoValue(OutOfRange, p + rest, decimals);
    }
  }

  // ----- the formatter -------------------------------------------------------------------

  function TrimZeros(s: string): string {
    if s != "" && s[|s| - 1] == '0' then TrimZeros(s[..|s| - 1]) else s
  }

  function Join(whole: string, fraction: string): string {
    if fraction == "" then whole else whole + "." + fraction
  }

  /** The text of v / 10^decimals. */
  function FormatNat(v: nat, decimals: nat): string {
    var digits := Padded(Show(v), decimals + 1);
    var point := |digits| - decimals;
    Join(digits[..point], TrimZeros(digits[point..]))
  }

  function FormatOf(scaled: int, decimals: int): string {
    var d := if decimals < 0 then 0 else decimals;
    if scaled < 0 then "-" + FormatNat(-scaled, d) else FormatNat(scaled, d)
  }

  method WithoutTrailingZeros(digits: string, point: nat) returns (out: string)
    requires point <= |digits|
    ensures out == Join(digits[..point], TrimZeros(digits[point..]))
  {
    var fraction := digits[point..];
    while fraction != "" && fraction[|fraction| - 1] == '0'
      invariant TrimZeros(fraction) == TrimZeros(digits[point..])
      decreases |fraction|
    {
      fraction := fraction[..|fraction| - 1];
    }
    out := digits[..point];
    if fraction != "" { out := out + "." + fraction; }
  }

  method FormatScaled(scaled: Int64, decimals: int) returns (text: string)
    ensures text == FormatOf(scaled as int, decimals)
  {
    hide Show, TrimZeros, Join;
    var negative := scaled < 0;
    var magnitude: UInt64 := (if negative then -(scaled as int) else scaled as int) as UInt64;
    var digits := Show(magnitude as int);
    var out;
    if decimals <= 0 {
      out := digits;
      assert digits == FormatNat(magnitude as int, 0) by { WholeNumber(digits); }
    } else {
      if |digits| <= decimals {
        digits := Zeros(decimals + 1 - |digits|) + digits;
      }
      out := WithoutTrailingZeros(digits, |digits| - decimals);
    }
    return if negative then "-" + out else out;
  }

  lemma WholeNumber(digits: string)
    requires digits != ""
    ensures Join(digits[..|digits|], TrimZeros(digits[|digits|..])) == digits == Padded(digits, 1)
  {
    assert digits[|digits|..] == "";
    assert digits[..|digits|] == digits;
  }

  // ----- the text of a number, taken apart -----------------------------------------------

  lemma {:induction false} DigitsAlone(s: string)
    requires AllDigits(s)
    ensures Digits(s) == s && Points(s) == 0 && FractionLength(s) == 0 && DigitsAndPoint(s)
    decreases |s|
  {
    if s == "" {
    } else {
      DigitsAlone(s[..|s| - 1]);
      assert s == s[..|s| - 1] + [s[|s| - 1]];
    }
  }

  lemma {:induction false} DigitsAroundPoint(w: string, f: string)
    requires AllDigits(w) && AllDigits(f)
    ensures var t := w + "." + f;
            Digits(t) == w + f && Points(t) == 1 && FractionLength(t) == |f| && DigitsAndPoint(t)
    decreases |f|
  {
    if f == "" {
      DigitsAlone(w);
      Grows(w, '.');
      assert w + "." + f == w + ['.'] && w + f == w;
    } else {
      var init, c := f[..|f| - 1], f[|f| - 1];
      DigitsAroundPoint(w, init);
      Grows(w + "." + init, c);
      assert w + "." + f == (w + "." + init) + [c] && w + f == (w + init) + [c];
    }
  }

  lemma JoinMeans(w: string, f: string)
    requires AllDigits(w) && AllDigits(f)
    ensures var t := Join(w, f);
            DigitsAndPoint(t) && Digits(t) == w + f && Unscaled(t) == Numeral(w + f) && FractionLength(t) == |f|
  {
    DigitsAlone(w);
    DigitsAroundPoint(w, f);
    assert w + "" == w;
  }

  lemma {:induction false} TrimSplits(s: string)
    requires AllDigits(s)
    ensures var f := TrimZeros(s);
            && f <= s && AllDigits(f) && s == f + Zeros(|s| - |f|)
            && (f != "" ==> f[|f| - 1] != '0')
    decreases |s|
  {
    if s != "" && s[|s| - 1] == '0' {
      TrimSplits(s[..|s| - 1]);
      assert s == s[..|s| - 1] + ['0'];
    }
  }

  lemma {:induction false} TrimUndoesZeros(f: string, k: nat)
    requires f == "" || f[|f| - 1] != '0'
    ensures TrimZeros(f + Zeros(k)) == f
    decreases k
  {
    if k == 0 {
      assert f + Zeros(0) == f;
    } else {
      assert (f + Zeros(k))[..|f| + k - 1] == f + Zeros(k - 1);
      TrimUndoesZeros(f, k - 1);
    }
  }

  lemma TrailingZeros(s: string, k: nat)
    requires AllDigits(s)
    ensures AllDigits(s + Zeros(k)) && Numeral(s + Zeros(k)) == Numeral(s) * Pow10(k)
  {
    NumeralOfConcat(s, Zeros(k));
    ZerosAreZero(k);
  }

  /** Digits around an optional point, no needless leading zero, no trailing fraction zero. */
  predicate Shortest(w: string, f: string) {
    Canonical(w) && AllDigits(f) && (f != "" ==> f[|f| - 1] != '0')
  }

  lemma FormatParts(digits: string, decimals: nat) returns (w: string, f: string)
    requires AllDigits(digits) && |digits| > decimals && (digits[0] == '0' ==> |digits| == decimals + 1)
    ensures w == digits[..|digits| - decimals] && f == TrimZeros(digits[|digits| - decimals..])
    ensures Shortest(w, f) && |f| <= decimals && digits == (w + f) + Zeros(decimals - |f|)
  {
    hide TrimZeros, Zeros;
    var point := |digits| - decimals;
    w, f := digits[..point], TrimZeros(digits[point..]);
    TrimSplits(digits[point..]);
    var z := Zeros(decimals - |f|);
    assert digits == w + (f + z) == (w + f) + z;
  }

  /** The formatter's text is shortest and denotes the value exactly. */
  lemma FormatDenotes(v: nat, decimals: nat) returns (w: string, f: string)
    ensures FormatNat(v, decimals) == Join(w, f) && Shortest(w, f) && |f| <= decimals
    ensures Plain(Join(w, f)) && Denotes(Join(w, f), decimals, v)
  {
    hide Show, Padded, TrimZeros, Numeral, Unscaled, Pow10, Denotes, Digits, Points, FractionLength, DigitsAndPoint,
         Zeros;
    PaddedShape(v, decimals);
    w, f := FormatParts(Padded(Show(v), decimals + 1), decimals);
    PartsDenote(w, f, decimals, v);
    JoinMeans(w, f);
  }

  lemma PaddedShape(v: nat, decimals: nat)
    ensures var d := Padded(Show(v), decimals + 1);
            && AllDigits(d) && Numeral(d) == v && |d| > decimals
            && (d[0] == '0' ==> |d| == decimals + 1)
  {
    ShowReadsBack(v);
    PaddingKeepsTheNumber(Show(v), decimals + 1);
  }

  /** Parts denote v exactly when the fraction, filled up with zeros, makes v's digits. */
  lemma PartsDenote(w: string, f: string, decimals: nat, v: nat)
    requires AllDigits(w) && AllDigits(f) && |f| <= decimals
    ensures DigitsAndPoint(Join(w, f)) && AllDigits((w + f) + Zeros(decimals - |f|))
    ensures Denotes(Join(w, f), decimals, v) <==> Numeral((w + f) + Zeros(decimals - |f|)) == v
  {
    var z := decimals - |f|;
    TrailingZeros(w + f, z);
    JoinMeans(w, f);
    PowAdds(z, |f|);
    hide Numeral, Unscaled, Pow10, Digits, Points, FractionLength, Zeros, Join;
    Associate(Numeral(w + f), Pow10(z), Pow10(|f|));
    if Denotes(Join(w, f), decimals, v) {
      CancelFactor(Numeral((w + f) + Zeros(z)), v, Pow10(|f|));
    }
  }

  lemma Associate(a: nat, b: nat, c: nat)
    ensures (a * b) * c == a * (b * c)
  {
  }

  lemma DenotesOnce(t: string, decimals: nat, n: nat, k: nat)
    requires DigitsAndPoint(t) && Denotes(t, decimals, n) && Denotes(t, decimals, k)
    ensures n == k
  {
    hide Unscaled, FractionLength;
    CancelFactor(n, k, Pow10(FractionLength(t)));
  }

  /** Formatting then parsing gives the number back, exactly when it fits int64. */
  lemma ParseUndoesFormat(v: nat, decimals: nat)
    requires decimals <= MAX_DECIMALS
    ensures ParseOf(FormatNat(v, decimals), decimals) == if v <= INT64_MAX then Some(v) else None
  {
    var w, f := FormatDenotes(v, decimals);
    hide FormatNat, Denotes;
    var t := Join(w, f);
    ParseOfMeans(t, decimals, v);
    if ParseOf(t, decimals).Some? {
      var n := ParseOf(t, decimals).value;
      ParseOfMeans(t, decimals, n);
      DenotesOnce(t, decimals, n, v);
    }
  }

  /** Parsing then formatting gives every shortest text back. */
  lemma FormatUndoesParse(w: string, f: string, decimals: nat)
    requires Shortest(w, f) && ParseOf(Join(w, f), decimals).Some?
    ensures FormatNat(ParseOf(Join(w, f), decimals).value, decimals) == Join(w, f)
  {
    var t := Join(w, f);
    var v := ParseOf(t, decimals).value;
    ParseOfMeans(t, decimals, v);
    if |f| > decimals { NoValueBeyondScale(w, f, decimals); }
    hide Numeral, Unscaled, Pow10, Denotes, Digits, Points, FractionLength, ParseOf, Show, TrimZeros, Padded, Zeros,
         DigitsAndPoint;
    PartsDenote(w, f, decimals, v);
    DigitsOfShortest(w, f, decimals, v);
    TrimUndoesZeros(f, decimals - |f|);
  }

  /** The digits a number is formatted from are its shortest parts, filled up with zeros. */
  lemma DigitsOfShortest(w: string, f: string, decimals: nat, v: nat)
    requires Shortest(w, f) && |f| <= decimals
    requires var digits := (w + f) + Zeros(decimals - |f|); AllDigits(digits) && Numeral(digits) == v
    ensures var digits := Padded(Show(v), decimals + 1);
            && |digits| == |w| + decimals && digits[..|w|] == w
            && digits[|w|..] == f + Zeros(decimals - |f|)
  {
    hide Numeral, Show, Padded, Zeros;
    var z := Zeros(decimals - |f|);
    var digits := (w + f) + z;
    PaddedTextIsUnique(digits);
    assert digits[0] == w[0];
    PaddingAgrees(Show(v), digits, decimals + 1);
    assert digits == w + (f + z);
  }

  lemma PaddingAgrees(s: string, digits: string, width: nat)
    requires Padded(s, |digits|) == digits && |digits| >= width && digits != ""
    requires digits[0] == '0' ==> |digits| == width
    ensures Padded(s, width) == digits
  {
  }

  lemma NoValueBeyondScale(w: string, f: string, decimals: nat)
    requires Shortest(w, f) && |f| > decimals
    ensures ParseOf(Join(w, f), decimals).None?
  {
    var init, c := f[..|f| - 1], f[|f| - 1];
    DigitsAroundPoint(w, init);
    DigitsAroundPoint(w, f);
    assert w + "." + f == (w + "." + init) + [c] + "";
    TooFine(w + "." + init, c, "", decimals);
  }

  // ----- signed decimals on the wire -----------------------------------------------------

  function DecimalOf(text: string): Option<int> {
    var negative := text != "" && text[0] == '-';
    var parsed := ParseOf(if negative then text[1..] else text, DECIMAL_PLACES);
    if parsed.None? then None
    else
      var v: int := parsed.value;
      Some(if negative then -v else v)
  }

  /** Every amount survives, except the one whose magnitude does not fit int64. */
  lemma DecimalSurvives(v: int)
    requires -INT64_MAX - 1 <= v <= INT64_MAX
    ensures DecimalOf(FormatOf(v, DECIMAL_PLACES)) == if v == -INT64_MAX - 1 then None else Some(v)
  {
    hide FormatNat, ParseOf;
    var magnitude := if v < 0 then -v else v;
    var text := FormatNat(magnitude, DECIMAL_PLACES);
    ParseUndoesFormat(magnitude, DECIMAL_PLACES);
    StartsWithADigit(magnitude, DECIMAL_PLACES);
    if v < 0 { assert ("-" + text)[1..] == text; }
  }

  lemma StartsWithADigit(v: nat, decimals: nat)
    ensures var t := FormatNat(v, decimals); t != "" && IsDigit(t[0])
  {
    var w, f := FormatDenotes(v, decimals);
    hide FormatNat, Denotes, Plain;
    assert Join(w, f)[0] == w[0];
  }
}
