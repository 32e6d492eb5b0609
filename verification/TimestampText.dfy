/** UTC timestamps as text, nanosecond by nanosecond: what is written, what is accepted, and the way back. */
module TimestampText {
  import opened CivilTime
  import opened Decimals
  import opened Domain
  import opened MachineIntegers
  import opened Numerals
  import opened Products

  const NANOS: int := 1_000_000_000
  const DAY: int := 86400
  const MIN_YEAR: int := 1970
  const MAX_YEAR: int := 2261

  datatype Moment = Moment(date: Civil, hour: nat, minute: nat, second: nat, nanos: nat)

  predicate RealMoment(m: Moment) {
    ValidDate(m.date) && m.hour <= 23 && m.minute <= 59 && m.second <= 59 && m.nanos < NANOS
  }

  /** Nanoseconds since 1970-01-01. */
  function InstantOf(m: Moment): int
    requires ValidDate(m.date)
  {
    (DaysFromCivil(m.date) * DAY + m.hour * 3600 + m.minute * 60 + m.second) * NANOS + m.nanos
  }

  function MomentOf(total: int): (m: Moment)
    ensures RealMoment(m)
  {
    var seconds := total / NANOS;
    var rest := seconds % DAY;
    CivilFromDaysIsADate(seconds / DAY);
    Moment(CivilFromDays(seconds / DAY), rest / 3600, rest % 3600 / 60, rest % 60, total % NANOS)
  }

  lemma MomentOfInstant(total: int)
    ensures InstantOf(MomentOf(total)) == total
  {
    var days, rest := total / NANOS / DAY, total / NANOS % DAY;
    CivilFromDaysIsADate(days);
    hide CivilFromDays, DaysFromCivil, ValidDate;
    TimeOfDay(rest);
    assert InstantOf(MomentOf(total)) == (days * DAY + rest) * NANOS + total % NANOS;
  }

  lemma TimeOfDay(rest: nat)
    ensures rest / 3600 * 3600 + rest % 3600 / 60 * 60 + rest % 60 == rest
  {
    assert rest % 3600 % 60 == rest % 60;
  }

  // ----- writing -------------------------------------------------------------------------

  function Field(v: nat, width: nat): string {
    Padded(Show(v), width)
  }

  function Stamp(m: Moment): string
    requires m.date.year >= 0
  {
    Field(m.date.year, 4) + "-" + Field(m.date.month, 2) + "-" + Field(m.date.day, 2) + "T"
    + Field(m.hour, 2) + ":" + Field(m.minute, 2) + ":" + Field(m.second, 2) + "." + Field(m.nanos, 9) + "Z"
  }

  /** The years an int64 of nanoseconds can reach. */
  lemma YearsOfInt64(total: int)
    requires -INT64_MAX - 1 <= total <= INT64_MAX
    ensures 1677 <= MomentOf(total).date.year <= 2262
    ensures 0 <= total < 106651 * DAY * NANOS <==> MIN_YEAR <= MomentOf(total).date.year <= MAX_YEAR
  {
    var days := total / NANOS / DAY;
    var c := CivilFromDays(days);
    CivilFromDaysIsADate(days);
    hide CivilFromDays, DaysFromCivil, ValidDate;
    YearBegins(c, 1677);
    YearBegins(c, 1970);
    YearBegins(c, 2262);
    YearBegins(c, 2263);
    FirstDays();
    assert total == (days * DAY + total / NANOS % DAY) * NANOS + total % NANOS;
  }

  lemma FirstDays()
    ensures DaysFromCivil(Civil(1677, 1, 1)) == -107015 && DaysFromCivil(Civil(1970, 1, 1)) == 0
    ensures DaysFromCivil(Civil(2262, 1, 1)) == 106651 && DaysFromCivil(Civil(2263, 1, 1)) == 107016
  {
    hide DaysFromCivil;
    DaysOfParts(Civil(1677, 1, 1), 4, 76);
    DaysOfParts(Civil(1970, 1, 1), 4, 369);
    DaysOfParts(Civil(2262, 1, 1), 5, 261);
    DaysOfParts(Civil(2263, 1, 1), 5, 262);
  }

  /** Truncating division, then flooring by hand, as the source does for times before 1970. */
  method FormatUtcTimestamp(total: Int64) returns (text: string)
    ensures MomentOf(total as int).date.year >= 0 && text == Stamp(MomentOf(total as int))
  {
    hide CivilFromDays, Padded, Show, ValidDate;
    YearsOfInt64(total as int);
    var seconds, nanos := TruncDiv(total as int, NANOS), TruncMod(total as int, NANOS);
    if nanos < 0 {
      nanos := nanos + NANOS;
      seconds := seconds - 1;
    }
    var days, rest := TruncDiv(seconds, DAY), TruncMod(seconds, DAY);
    if rest < 0 {
      rest := rest + DAY;
      days := days - 1;
    }
    assert seconds == total as int / NANOS && nanos == total as int % NANOS;
    assert days == seconds / DAY && rest == seconds % DAY;
    var civil := CivilFromDays(days);
    text := Field(civil.year, 4);
    text := text + "-";
    text := text + Field(civil.month, 2);
    text := text + "-";
    text := text + Field(civil.day, 2);
    text := text + "T";
    text := text + Field(rest / 3600, 2);
    text := text + ":";
    text := text + Field(rest % 3600 / 60, 2);
    text := text + ":";
    text := text + Field(rest % 60, 2);
    text := text + ".";
    text := text + Field(nanos, 9);
    text := text + "Z";
  }

  // ----- reading -------------------------------------------------------------------------

  function NumberAt(text: string, pos: nat, count: nat): Option<nat>
    requires pos + count <= |text|
  {
    var s := text[pos..pos + count];
    if AllDigits(s) then Some(Numeral(s)) else None
  }

  method ReadDigits(text: string, pos: nat, count: nat) returns (r: Option<nat>)
    requires pos + count <= |text|
    ensures r == NumberAt(text, pos, count)
  {
    var value := 0;
    for i := 0 to count
      invariant AllDigits(text[pos..pos + i]) && value == Numeral(text[pos..pos + i])
    {
      var c := text[pos + i];
      if c < '0' || c > '9' {
        assert text[pos..pos + count][i] == c;
        return None;
      }
      assert text[pos..pos + (i + 1)] == text[pos..pos + i] + [c];
      NumeralGrows(text[pos..pos + i], c);
      value := value * 10 + DigitOf(c);
    }
    return Some(value);
  }

  /** What may follow the seconds: Z, or one to nine digits of fraction and Z. */
  function NanosOf(tail: string): Option<nat> {
    if tail == "Z" then Some(0)
    else if 3 <= |tail| <= 11 && tail[0] == '.' && tail[|tail| - 1] == 'Z' && AllDigits(tail[1..|tail| - 1])
    then Some(Numeral(tail[1..|tail| - 1]) * Pow10(11 - |tail|))
    else None
  }

  predicate SeparatorsAt(text: string)
    requires |text| >= 20
  {
    text[4] == '-' && text[7] == '-' && text[10] == 'T' && text[13] == ':' && text[16] == ':'
  }

  /** The moment a text spells, real or not; None for any other shape. */
  function ReadMoment(text: string): Option<Moment> {
    if |text| < 20 || !SeparatorsAt(text) then None
    else
      var year, month, day := NumberAt(text, 0, 4), NumberAt(text, 5, 2), NumberAt(text, 8, 2);
      var hour, minute, second := NumberAt(text, 11, 2), NumberAt(text, 14, 2), NumberAt(text, 17, 2);
      var nanos := NanosOf(text[19..]);
      if year.Some? && month.Some? && day.Some? && hour.Some? && minute.Some? && second.Some? && nanos.Some?
      then Some(Moment(Civil(year.value, month.value, day.value), hour.value, minute.value, second.value, nanos.value))
      else None
  }

  /** The instant a text spells, when it is a real moment in the years allowed. */
  function ParseIn(text: string, minYear: int, maxYear: int): Option<int> {
    var m := ReadMoment(text);
    if m.Some? && minYear <= m.value.date.year <= maxYear && RealMoment(m.value)
    then Some(InstantOf(m.value)) else None
  }

  /** The scanner of the optional fraction, from the character after the seconds. */
  method ReadFraction(text: string) returns (r: Option<nat>)
    requires |text| >= 20
    ensures r == NanosOf(text[19..])
  {
    hide NanosOf, Pow10;
    var pos, nanos := 19, 0;
    if text[pos] == '.' {
      pos := pos + 1;
      var digits := 0;
      while pos < |text| && '0' <= text[pos] <= '9'
        invariant 20 <= pos <= |text| && digits == pos - 20 <= 9
        invariant AllDigits(text[20..pos]) && nanos == Numeral(text[20..pos])
      {
        if digits == 9 {
          TooManyDigits(text, pos);
          return None;
        }
        assert text[20..pos + 1] == text[20..pos] + [text[pos]];
        NumeralGrows(text[20..pos], text[pos]);
        nanos := nanos * 10 + DigitOf(text[pos]);
        digits := digits + 1;
        pos := pos + 1;
      }
      if digits == 0 {
        WrongEnding(text, pos);
        return None;
      }
      nanos := ScaledToNanos(nanos, digits);
    }
    if pos >= |text| || text[pos] != 'Z' || pos + 1 != |text| {
      WrongEnding(text, pos);
      return None;
    }
    RightEnding(text, pos);
    return Some(nanos);
  }

  /** The missing digits of the fraction are zeros. */
  method ScaledToNanos(fraction: nat, digits: nat) returns (nanos: nat)
    requires digits <= 9
    ensures nanos == fraction * Pow10(9 - digits)
  {
    nanos := fraction;
    var i := digits;
    while i < 9
      invariant digits <= i <= 9 && nanos * Pow10(9 - i) == fraction * Pow10(9 - digits)
    {
      Regroup(nanos, 10, Pow10(9 - i - 1));
      nanos := nanos * 10;
      i := i + 1;
    }
    assert Pow10(0) == 1;
  }

  lemma RightEnding(text: string, pos: nat)
    requires 19 <= pos < |text| && |text| >= 20 && text[pos] == 'Z' && pos + 1 == |text|
    requires pos > 19 ==> text[19] == '.' && 21 <= pos <= 29 && AllDigits(text[20..pos])
    ensures NanosOf(text[19..])
         == Some(if pos == 19 then 0 else Numeral(text[20..pos]) * Pow10(9 - (pos - 20)))
  {
    var tail := text[19..];
    if pos > 19 {
      assert tail[1..|tail| - 1] == text[20..pos];
    } else {
      assert tail == "Z";
    }
  }

  lemma TooManyDigits(text: string, pos: nat)
    requires pos == 29 && 29 < |text| && AllDigits(text[20..pos]) && IsDigit(text[pos])
    ensures NanosOf(text[19..]).None?
  {
    var tail := text[19..];
    assert tail[10] == text[29];
  }

  /** A text that does not end with Z right where its digits end has no fraction. */
  lemma WrongEnding(text: string, pos: nat)
    requires 19 <= pos <= |text| && |text| >= 20 && (pos == 19 ==> text[19] != '.')
    requires pos > 19 ==> text[19] == '.' && AllDigits(text[20..pos])
    requires pos > 19 && pos < |text| ==> !IsDigit(text[pos])
    requires pos == 20 || pos >= |text| || text[pos] != 'Z' || pos + 1 != |text|
    ensures NanosOf(text[19..]).None?
  {
    var tail := text[19..];
    if 20 < pos == |text| {
      assert text[20..pos][pos - 21] == tail[|tail| - 1];
    } else if 19 < pos < |text| - 1 {
      assert tail[1..|tail| - 1][pos - 20] == text[pos];
    }
  }

  /** The Strategy Lab's parser: every intermediate value fits int64, as the arithmetic is on Int64. */
  method ParseUtcTimestamp(text: string) returns (r: Option<Int64>)
    ensures r.Some? <==> ParseIn(text, MIN_YEAR, MAX_YEAR).Some?
    ensures r.Some? ==> r.value as int == ParseIn(text, MIN_YEAR, MAX_YEAR).value
  {
    hide DaysFromCivil, NanosOf, NumberAt;
    if |text| < 20 { return None; }
    if !SeparatorsAt(text) { return None; }
    var year := ReadDigits(text, 0, 4);
    var month := ReadDigits(text, 5, 2);
    var day := ReadDigits(text, 8, 2);
    var hour := ReadDigits(text, 11, 2);
    var minute := ReadDigits(text, 14, 2);
    var second := ReadDigits(text, 17, 2);
    if year.None? || month.None? || day.None? || hour.None? || minute.None? || second.None? { return None; }
    var fraction := ReadFraction(text);
    if fraction.None? { return None; }
    FractionFits(text[19..]);
    if year.value < MIN_YEAR || year.value > MAX_YEAR { return None; }
    var c := Civil(year.value, month.value, day.value);
    if !ValidDate(c) { return None; }
    if hour.value > 23 || minute.value > 59 || second.value > 59 { return None; }
    DaysFitInt64(c);
    var days := DaysFromCivil(c) as Int64;
    var seconds := days * 86400 + hour.value as Int64 * 3600 + minute.value as Int64 * 60 + second.value as Int64;
    return Some(seconds * 1_000_000_000 + fraction.value as Int64);
  }

  lemma DaysFitInt64(c: Civil)
    requires ValidDate(c) && MIN_YEAR <= c.year <= MAX_YEAR
    ensures 0 <= DaysFromCivil(c) < 106651
  {
    YearBegins(c, 1970);
    YearBegins(c, 2262);
    FirstDays();
  }

  lemma FractionFits(tail: string)
    requires NanosOf(tail).Some?
    ensures NanosOf(tail).value < NANOS
  {
    assert Pow10(9) == NANOS by { BillionIsPower(); }
    if tail != "Z" {
      var f := tail[1..|tail| - 1];
      NumeralIsBelow(f);
      PowAdds(|f|, 9 - |f|);
      ProductGrows(Numeral(f), Pow10(|f|), Pow10(9 - |f|));
    }
  }

  lemma BillionIsPower()
    ensures Pow10(9) == NANOS
  {
    assert Pow10(5) == 100_000;
  }

  // ----- the way back --------------------------------------------------------------------

  /** A stamp of any moment with a four-digit year is read back as that moment. */
  lemma StampReadsBack(m: Moment)
    requires RealMoment(m) && 0 <= m.date.year <= 9999
    ensures ReadMoment(Stamp(m)) == Some(m)
  {
    Fields(m);
    hide Field, Numeral, ValidDate;
    Slices(Field(m.date.year, 4), Field(m.date.month, 2), Field(m.date.day, 2),
           Field(m.hour, 2), Field(m.minute, 2), Field(m.second, 2), Field(m.nanos, 9));
    assert Pow10(0) == 1;
  }

  lemma Slices(y: string, mo: string, d: string, h: string, mi: string, s: string, n: string)
    requires |y| == 4 && |mo| == |d| == |h| == |mi| == |s| == 2 && |n| == 9
    ensures var t := y + "-" + mo + "-" + d + "T" + h + ":" + mi + ":" + s + "." + n + "Z";
            && |t| == 30 && SeparatorsAt(t)
            && t[0..4] == y && t[5..7] == mo && t[8..10] == d && t[11..13] == h && t[14..16] == mi && t[17..19] == s
            && t[19..][0] == '.' && t[19..][10] == 'Z' && t[19..][1..10] == n
  {
    var time := h + ":" + mi + ":" + s + "." + n + "Z";
    var t := y + "-" + mo + "-" + d + "T" + h + ":" + mi + ":" + s + "." + n + "Z";
    assert t == (y + "-" + mo + "-" + d + "T") + time;
    assert t[8..10] == d;
    assert t[11..] == time;
    assert time[0..2] == h && time[3..5] == mi && time[6..8] == s;
    assert t[19..] == "." + n + "Z";
  }

  lemma Fields(m: Moment)
    requires RealMoment(m) && 0 <= m.date.year <= 9999
    ensures IsField(m.date.year, 4) && IsField(m.date.month, 2) && IsField(m.date.day, 2)
    ensures IsField(m.hour, 2) && IsField(m.minute, 2) && IsField(m.second, 2) && IsField(m.nanos, 9)
  {
    assert Pow10(2) == 100 && Pow10(4) == 10_000;
    BillionIsPower();
    hide Pow10, Padded, Show, Numeral;
    FieldReadsBack(m.date.year, 4);
    FieldReadsBack(m.date.month, 2);
    FieldReadsBack(m.date.day, 2);
    FieldReadsBack(m.hour, 2);
    FieldReadsBack(m.minute, 2);
    FieldReadsBack(m.second, 2);
    FieldReadsBack(m.nanos, 9);
  }

  predicate IsField(v: nat, width: nat) {
    var s := Field(v, width);
    |s| == width && AllDigits(s) && Numeral(s) == v
  }

  /** Parsing what was formatted gives the instant back, exactly when its year is one the parser allows. */
  lemma ParseUndoesStamp(total: int, minYear: int, maxYear: int)
    requires -INT64_MAX - 1 <= total <= INT64_MAX
    ensures var m := MomentOf(total);
            && 0 <= m.date.year
            && ParseIn(Stamp(m), minYear, maxYear) == if minYear <= m.date.year <= maxYear then Some(total) else None
  {
    hide Stamp, ReadMoment;
    YearsOfInt64(total);
    StampReadsBack(MomentOf(total));
    MomentOfInstant(total);
  }

  /** The Strategy Lab's round trip: every nanosecond of 1970..2261 survives, and nothing else does. */
  lemma LabTimesSurvive(total: int)
    requires -INT64_MAX - 1 <= total <= INT64_MAX
    ensures 0 <= MomentOf(total).date.year
    ensures ParseIn(Stamp(MomentOf(total)), MIN_YEAR, MAX_YEAR)
         == if 0 <= total < 106651 * DAY * NANOS then Some(total) else None
  {
    hide MomentOf, ParseIn;
    YearsOfInt64(total);
    ParseUndoesStamp(total, MIN_YEAR, MAX_YEAR);
  }

  // ----- where each part of a timestamp stands -------------------------------------------

  predicate Reads(digits: string, n: int) {
    AllDigits(digits) && Numeral(digits) == n
  }

  /** Year, month, day, hour, minute, second and nanoseconds stand at fixed places, between their separators. */
  lemma StampByPosition(m: Moment)
    requires RealMoment(m) && 0 <= m.date.year <= 9999
    ensures var s := Stamp(m);
            && |s| == 30
            && s[4] == s[7] == '-' && s[10] == 'T' && s[13] == s[16] == ':' && s[19] == '.' && s[29] == 'Z'
            && Reads(s[..4], m.date.year) && Reads(s[5..7], m.date.month) && Reads(s[8..10], m.date.day)
            && Reads(s[11..13], m.hour) && Reads(s[14..16], m.minute) && Reads(s[17..19], m.second)
            && Reads(s[20..29], m.nanos)
  {
    Fields(m);
    hide Field, Numeral, ValidDate;
    Slices(Field(m.date.year, 4), Field(m.date.month, 2), Field(m.date.day, 2),
           Field(m.hour, 2), Field(m.minute, 2), Field(m.second, 2), Field(m.nanos, 9));
    var s := Stamp(m);
    assert s[..4] == s[0..4] && s[20..29] == s[19..][1..10];
    assert s[29] == s[19..][10];
  }
}
