/** Civil dates from day numbers and back, in the proleptic Gregorian calendar. */
module CivilTime {
  import opened Decimals
  import opened Products

  datatype Civil = Civil(year: int, month: nat, day: nat)

  // ----- the calendar --------------------------------------------------------------------

  predicate IsLeap(year: int) {
    (year % 4 == 0 && year % 100 != 0) || year % 400 == 0
  }

  function DaysInMonth(year: int, month: nat): nat {
    if month == 2 then (if IsLeap(year) then 29 else 28)
    else if month in {4, 6, 9, 11} then 30
    else 31
  }

  predicate ValidDate(c: Civil) {
    1 <= c.month <= 12 && 1 <= c.day <= DaysInMonth(c.year, c.month)
  }

  /** The calendar's own definition: the day after a date. */
  function NextDay(c: Civil): Civil {
    if c.day < DaysInMonth(c.year, c.month) then c.(day := c.day + 1)
    else if c.month < 12 then Civil(c.year, c.month + 1, 1)
    else Civil(c.year + 1, 1, 1)
  }

  // ----- the two conversions -------------------------------------------------------------

  /** Days from the March of an era's first year to the March of its year `yoe`. */
  function YearStart(yoe: nat): nat {
    yoe * 365 + yoe / 4 - yoe / 100
  }

  /** Days from the first of March to the first day of the month `mp` months later. */
  function MonthStart(mp: nat): nat {
    (153 * mp + 2) / 5
  }

  function MarchYear(c: Civil): int {
    c.year - (if c.month <= 2 then 1 else 0)
  }

  function DayOfYear(c: Civil): nat
    requires c.month >= 1 && c.day >= 1
  {
    MonthStart(if c.month > 2 then c.month - 3 else c.month + 9) + c.day - 1
  }

  /** Shifting a negative number down makes truncating division round down. */
  function EraOf(y: int, n: int): int
    requires n > 0
  {
    TruncDiv(if y >= 0 then y else y - (n - 1), n)
  }

  lemma EraIsFloor(y: int, n: int)
    requires n in {400, 146097}
    ensures EraOf(y, n) == y / n && 0 <= y - EraOf(y, n) * n < n
  {
  }

  function DaysFromCivil(c: Civil): int
    requires c.month >= 1 && c.day >= 1
  {
    var y := MarchYear(c);
    var era := EraOf(y, 400);
    EraIsFloor(y, 400);
    var yoe := y - era * 400;
    era * 146097 + YearStart(yoe) + DayOfYear(c) - 719468
  }

  function YearOfEra(doe: nat): (yoe: nat)
    requires doe < 146097
  {
    (doe - doe / 1460 + doe / 36524 - doe / 146096) / 365
  }

  /** The date `doy` days into the March-based year `yoe` of an era. */
  function DateAt(era: int, yoe: nat, doy: nat): Civil
    requires doy <= 365
  {
    var mp := (5 * doy + 2) / 153;
    MonthFits(doy);
    var month := if mp < 10 then mp + 3 else mp - 9;
    Civil(yoe + era * 400 + (if month <= 2 then 1 else 0), month, doy - MonthStart(mp) + 1)
  }

  function CivilFromDays(days: int): Civil {
    var z := days + 719468;
    var era := EraOf(z, 146097);
    EraIsFloor(z, 146097);
    var doe := z - era * 146097;
    YearOfEraFits(doe);
    var yoe := YearOfEra(doe);
    DateAt(era, yoe, doe - YearStart(yoe))
  }

  lemma FloorIs(y: int, n: int, q: int, r: nat)
    requires n > 0 && y == q * n + r && r < n
    ensures y / n == q
  {
    var d := y / n;
    assert y == d * n + y % n;
    if d < q { ProductGrows(d, q, n); }
    if d > q { ProductGrows(q, d, n); }
  }

  lemma RemainderIs(y: int, n: int, q: int, r: nat)
    requires n > 0 && y == q * n + r && r < n
    ensures y % n == r
  {
    FloorIs(y, n, q, r);
  }

  // ----- years within an era -------------------------------------------------------------

  predicate YearParts(yoe: nat, c: nat, k: nat, j: nat) {
    c <= 3 && k <= 24 && j <= 3 && yoe == 100 * c + 4 * k + j
  }

  lemma YearStartOfParts(yoe: nat, c: nat, k: nat, j: nat)
    requires YearParts(yoe, c, k, j)
    ensures YearStart(yoe) == 36524 * c + 1461 * k + 365 * j
  {
    assert yoe / 4 == 25 * c + k;
    assert yoe / 100 == c;
  }

  /** Year `yoe` ends in February of calendar year yoe + 1: it has a 366th day when that is a leap year. */
  predicate DayFitsYear(yoe: nat, doy: nat) {
    doy < 365 || (doy == 365 && IsLeap(yoe + 1))
  }

  /** Every day of the era is a day of one of its 400 years. */
  lemma DayHasAYear(doe: nat) returns (yoe: nat, doy: nat)
    requires doe < 146097
    ensures yoe < 400 && DayFitsYear(yoe, doy) && doe == YearStart(yoe) + doy
  {
    var c := if doe >= 109572 then 3 else doe / 36524;
    var r := doe - 36524 * c;
    var k := r / 1461;
    var r2 := r - 1461 * k;
    var j := if r2 >= 1095 then 3 else r2 / 365;
    yoe, doy := 100 * c + 4 * k + j, r2 - 365 * j;
    YearStartOfParts(yoe, c, k, j);
    if doy == 365 { LeapParts(yoe, c, k, j); }
  }

  lemma LeapParts(yoe: nat, c: nat, k: nat, j: nat)
    requires YearParts(yoe, c, k, j)
    ensures IsLeap(yoe + 1) <==> j == 3 && (k < 24 || c == 3)
  {
    var y := yoe + 1;
    RemainderIs(y, 400, if y == 400 then 1 else 0, if y == 400 then 0 else y);
    if j < 3 {
      RemainderIs(y, 4, 25 * c + k, j + 1);
    } else {
      RemainderIs(y, 4, 25 * c + k + 1, 0);
      if k < 24 {
        RemainderIs(y, 100, c, 4 * (k + 1));
      } else {
        RemainderIs(y, 100, c + 1, 0);
      }
    }
  }

  /** The divisions in the formula, for a day given by century, four years, year and day. */
  lemma Corrections(c: nat, k: nat, j: nat, doy: nat)
    requires c <= 3 && k <= 24 && j <= 3 && doy <= 365 && (doy == 365 ==> j == 3 && (k < 24 || c == 3))
    ensures var doe := 36524 * c + 1461 * k + 365 * j + doy;
            var rest := 24 * c + k + 365 * j + doy;
            && doe < 146097 && doe / 1460 == 25 * c + k + (if rest >= 1460 then 1 else 0)
            && (doe != 146096 ==> doe / 36524 == c && doe / 146096 == 0)
  {
    var rest := 24 * c + k + 365 * j + doy;
    var e := if rest >= 1460 then 1 else 0;
    var inCentury := 1461 * k + 365 * j + doy;
    FloorIs(36524 * c + inCentury, 1460, 25 * c + k + e, rest - 1460 * e);
    if c < 3 || inCentury < 36524 {
      FloorIs(36524 * c + inCentury, 36524, c, inCentury);
      FloorIs(36524 * c + inCentury, 146096, 0, 36524 * c + inCentury);
    }
  }

  lemma YearIs(doe: nat, fours: int, centuries: int, eras: int, yoe: nat, doy: nat)
    requires doe < 146097 && doe / 1460 == fours && doe / 36524 == centuries && doe / 146096 == eras
    requires doe - fours + centuries - eras == 365 * yoe + doy && doy < 365
    ensures YearOfEra(doe) == yoe
  {
    FloorIs(doe - fours + centuries - eras, 365, yoe, doy);
  }

  lemma YearOfParts(yoe: nat, c: nat, k: nat, j: nat, doy: nat)
    requires YearParts(yoe, c, k, j) && doy <= 365 && (doy == 365 ==> j == 3 && (k < 24 || c == 3))
    ensures var doe := 36524 * c + 1461 * k + 365 * j + doy;
            doe < 146097 && YearOfEra(doe) == yoe
  {
    hide YearOfEra;
    Corrections(c, k, j, doy);
    var doe := 36524 * c + 1461 * k + 365 * j + doy;
    if doe == 146096 {
      assert c == 3 && k == 24 && j == 3 && doy == 365;
      YearIs(146096, 100, 4, 1, 399, 364);
    } else {
      var e := if 24 * c + k + 365 * j + doy >= 1460 then 1 else 0;
      YearIs(doe, 25 * c + k + e, c, 0, yoe, doy - e);
    }
  }

  lemma PartsOf(yoe: nat) returns (c: nat, k: nat, j: nat)
    requires yoe < 400
    ensures YearParts(yoe, c, k, j)
  {
    c, k, j := yoe / 100, yoe % 100 / 4, yoe % 4;
  }

  /** The formula finds the year: its corrections count the leap days passed. */
  lemma YearOfEraIs(yoe: nat, doy: nat)
    requires yoe < 400 && DayFitsYear(yoe, doy)
    ensures YearStart(yoe) + doy < 146097
    ensures YearOfEra(YearStart(yoe) + doy) == yoe
  {
    hide IsLeap, YearStart, YearOfEra;
    var c, k, j := PartsOf(yoe);
    YearStartOfParts(yoe, c, k, j);
    LeapParts(yoe, c, k, j);
    YearOfParts(yoe, c, k, j, doy);
  }

  lemma YearOfEraFits(doe: nat)
    requires doe < 146097
    ensures var yoe := YearOfEra(doe);
            yoe < 400 && YearStart(yoe) <= doe && DayFitsYear(yoe, doe - YearStart(yoe))
  {
    var yoe, doy := DayHasAYear(doe);
    YearOfEraIs(yoe, doy);
  }

  // ----- months within a year ------------------------------------------------------------

  lemma MonthFits(doy: nat)
    requires doy <= 365
    ensures var mp := (5 * doy + 2) / 153;
            mp <= 11 && MonthStart(mp) <= doy
            && doy - MonthStart(mp) < (if mp == 11 then 29 else if mp in {1, 3, 6, 8} then 30 else 31)
            && (mp == 11 && doy - MonthStart(mp) == 28 ==> doy == 365)
  {
    var mp := (5 * doy + 2) / 153;
    assert 153 * mp <= 5 * doy + 2 < 153 * (mp + 1);
  }

  lemma MonthIs(mp: nat, day: nat)
    requires mp <= 11 && 1 <= day <= (if mp == 11 then 29 else if mp in {1, 3, 6, 8} then 30 else 31)
    ensures (5 * (MonthStart(mp) + day - 1) + 2) / 153 == mp
    ensures MonthStart(mp) + day - 1 <= 365
    ensures MonthStart(mp) + day - 1 == 365 <==> mp == 11 && day == 29
  {
    var doy := MonthStart(mp) + day - 1;
    assert 153 * mp <= 5 * doy + 2 < 153 * (mp + 1);
  }

  lemma LeapRepeats(yoe: nat, era: int)
    ensures IsLeap(yoe + era * 400) <==> IsLeap(yoe)
  {
    var y := yoe + era * 400;
    RemainderIs(y, 4, 100 * era + yoe / 4, yoe % 4);
    RemainderIs(y, 100, 4 * era + yoe / 100, yoe % 100);
    RemainderIs(y, 400, era + yoe / 400, yoe % 400);
  }

  lemma DaysOfParts(c: Civil, era: int, yoe: nat)
    requires c.month >= 1 && c.day >= 1 && MarchYear(c) == yoe + era * 400 && yoe < 400
    ensures DaysFromCivil(c) == era * 146097 + YearStart(yoe) + DayOfYear(c) - 719468
  {
    hide YearStart, DayOfYear, EraOf;
    EraIsFloor(MarchYear(c), 400);
    FloorIs(MarchYear(c), 400, era, yoe);
  }

  lemma CivilOfParts(days: int, era: int, yoe: nat, doy: nat)
    requires yoe < 400 && DayFitsYear(yoe, doy)
    requires days == era * 146097 + YearStart(yoe) + doy - 719468
    ensures CivilFromDays(days) == DateAt(era, yoe, doy)
  {
    hide YearStart, YearOfEra, DateAt, IsLeap, EraOf, DayFitsYear;
    YearOfEraIs(yoe, doy);
    var z := days + 719468;
    EraIsFloor(z, 146097);
    FloorIs(z, 146097, era, YearStart(yoe) + doy);
    assert z - era * 146097 == YearStart(yoe) + doy;
  }

  lemma PartsOfDays(days: int) returns (era: int, yoe: nat, doy: nat)
    ensures yoe < 400 && DayFitsYear(yoe, doy)
    ensures days == era * 146097 + YearStart(yoe) + doy - 719468
  {
    era := (days + 719468) / 146097;
    yoe, doy := DayHasAYear((days + 719468) % 146097);
  }

  lemma DateAtIsADate(era: int, yoe: nat, doy: nat)
    requires yoe < 400 && DayFitsYear(yoe, doy)
    ensures var c := DateAt(era, yoe, doy);
            ValidDate(c) && MarchYear(c) == yoe + era * 400 && DayOfYear(c) == doy
  {
    MonthFits(doy);
    LeapRepeats(yoe + 1, era);
  }

  lemma DateFromParts(c: Civil) returns (era: int, yoe: nat)
    requires ValidDate(c)
    ensures yoe < 400 && MarchYear(c) == yoe + era * 400 && DayFitsYear(yoe, DayOfYear(c))
    ensures DateAt(era, yoe, DayOfYear(c)) == c
  {
    var y := MarchYear(c);
    era, yoe := y / 400, y % 400;
    MonthIs(if c.month > 2 then c.month - 3 else c.month + 9, c.day);
    LeapRepeats(yoe + 1, era);
  }

  // ----- the conversions undo each other -------------------------------------------------

  /** Every day number is a real calendar date, whose day number it is. */
  lemma CivilFromDaysIsADate(days: int)
    ensures ValidDate(CivilFromDays(days)) && DaysFromCivil(CivilFromDays(days)) == days
  {
    hide YearStart, DateAt, IsLeap, ValidDate, CivilFromDays, DaysFromCivil;
    var era, yoe, doy := PartsOfDays(days);
    CivilOfParts(days, era, yoe, doy);
    DateAtIsADate(era, yoe, doy);
    DaysOfParts(DateAt(era, yoe, doy), era, yoe);
  }

  /** Every real date comes back from its day number. */
  lemma DateComesBack(c: Civil)
    requires ValidDate(c)
    ensures CivilFromDays(DaysFromCivil(c)) == c
  {
    hide YearStart, DateAt, IsLeap, CivilFromDays, DaysFromCivil;
    var era, yoe := DateFromParts(c);
    DaysOfParts(c, era, yoe);
    CivilOfParts(DaysFromCivil(c), era, yoe, DayOfYear(c));
  }

  /** From one March to the next: 366 days when the February between has 29. */
  lemma NextYearStart(yoe: nat)
    requires yoe < 400
    ensures (if yoe == 399 then 146097 else YearStart(yoe + 1)) == YearStart(yoe)
              + (if IsLeap(yoe + 1) then 366 else 365)
  {
    hide YearStart, IsLeap;
    if yoe == 399 {
      YearStartOfParts(399, 3, 24, 3);
      LeapParts(399, 3, 24, 3);
    } else {
      var c, k, j := PartsOf(yoe);
      YearStartOfParts(yoe, c, k, j);
      LeapParts(yoe, c, k, j);
      if j < 3 {
        YearStartOfParts(yoe + 1, c, k, j + 1);
      } else if k < 24 {
        YearStartOfParts(yoe + 1, c, k + 1, 0);
      } else {
        YearStartOfParts(yoe + 1, c + 1, 0, 0);
      }
    }
  }

  lemma JanuaryFirst(year: int)
    ensures ValidDate(Civil(year, 1, 1))
  {
  }

  lemma EpochIsDayZero()
    ensures DaysFromCivil(Civil(1970, 1, 1)) == 0
  {
  }

  /** The next date has the next day number. */
  lemma NextDayIsOneMore(c: Civil)
    requires ValidDate(c)
    ensures ValidDate(NextDay(c)) && DaysFromCivil(NextDay(c)) == DaysFromCivil(c) + 1
  {
    hide YearStart, DaysFromCivil, IsLeap;
    var next := NextDay(c);
    var era, yoe := DateFromParts(c);
    DaysOfParts(c, era, yoe);
    LeapRepeats(yoe + 1, era);
    if c.month == 2 && next.month == 3 {
      NextYearStart(yoe);
      if yoe == 399 {
        DaysOfParts(next, era + 1, 0);
        assert YearStart(0) == 0 by { YearStartOfParts(0, 0, 0, 0); }
      } else {
        DaysOfParts(next, era, yoe + 1);
      }
    } else {
      DaysOfParts(next, era, yoe);
    }
  }

  /** So day numbers count along the calendar from 1970-01-01, in both directions. */
  lemma DaysCountTheCalendar(days: int)
    ensures CivilFromDays(0) == Civil(1970, 1, 1)
    ensures CivilFromDays(days + 1) == NextDay(CivilFromDays(days))
  {
    hide CivilFromDays, DaysFromCivil, NextDay, ValidDate;
    EpochIsDayZero();
    assert ValidDate(Civil(1970, 1, 1)) by { JanuaryFirst(1970); }
    DateComesBack(Civil(1970, 1, 1));
    CivilFromDaysIsADate(days);
    NextDayIsOneMore(CivilFromDays(days));
    DateComesBack(NextDay(CivilFromDays(days)));
  }

  // ----- years in order ------------------------------------------------------------------

  /** Leap days before the March of year y. */
  function LeapDays(y: int): int {
    y / 4 - y / 100 + y / 400
  }

  lemma LeapDaysGrow(y1: int, y2: int)
    requires y1 <= y2
    ensures LeapDays(y1) <= LeapDays(y2)
  {
    var u1, u2 := y1 / 4, y2 / 4;
    assert u1 <= u2;
    assert y1 / 100 == u1 / 25 && y2 / 100 == u2 / 25;
    assert u1 - u1 / 25 <= u2 - u2 / 25;
    assert y1 / 400 <= y2 / 400;
  }

  lemma DaysByLeapDays(c: Civil)
    requires ValidDate(c)
    ensures var y := MarchYear(c); DaysFromCivil(c) == 365 * y + LeapDays(y) + DayOfYear(c) - 719468
    ensures DayOfYear(c) <= 365 && (c.month <= 2 <==> DayOfYear(c) >= 306)
  {
    var y := MarchYear(c);
    var era, yoe := y / 400, y % 400;
    DaysOfParts(c, era, yoe);
    MonthIs(if c.month > 2 then c.month - 3 else c.month + 9, c.day);
    hide DaysFromCivil;
    assert y == 400 * era + yoe;
    assert y / 4 == 100 * era + yoe / 4;
    assert y / 100 == 4 * era + yoe / 100;
  }

  /** A year's dates are those from its first of January on. */
  lemma YearBegins(c: Civil, year: int)
    requires ValidDate(c)
    ensures c.year >= year <==> DaysFromCivil(c) >= DaysFromCivil(Civil(year, 1, 1))
  {
    var first := Civil(year, 1, 1);
    DaysByLeapDays(c);
    DaysByLeapDays(first);
    hide DaysFromCivil, LeapDays;
    if c.year >= year {
      LeapDaysGrow(MarchYear(first), MarchYear(c));
    } else {
      LeapDaysGrow(MarchYear(c), MarchYear(first));
    }
  }
}
