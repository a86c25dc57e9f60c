/** The timestamp in the client's version string, as a calendar date
    (crates/spectre-bnet/src/bncsutil/exe_info.rs, `timestamp_to_utc_parts`). */
module CivilDate {
  import opened Basics

  datatype Date = Date(year: int, month: int, day: int, hour: int, minute: int, second: int)

  // ---- the code ----

  /** Year of the 400-year era from the day of the era; years start in March. */
  function YearOfEra(doe: int): int {
    (doe - doe / 1460 + doe / 36524 - doe / 146096) / 365
  }

  function DayOfYear(doe: int, yoe: int): int {
    doe - (365 * yoe + yoe / 4 - yoe / 100)
  }

  function MarchMonth(doy: int): int {
    (5 * doy + 2) / 153
  }

  function Day(doy: int): int {
    doy - (153 * MarchMonth(doy) + 2) / 5 + 1
  }

  function Month(doy: int): int {
    var mp := MarchMonth(doy);
    if mp < 10 then mp + 3 else mp - 9
  }

  /** The date with its full year. */
  function FullDate(secs: nat): Date {
    var days, rem := secs / 86400, secs % 86400;
    var z := days + 719468;
    var era := z / 146097;
    var doe := z - era * 146097;
    var yoe := YearOfEra(doe);
    var y := yoe + era * 400;
    var doy := DayOfYear(doe, yoe);
    var m := Month(doy);
    Date(if m <= 2 then y + 1 else y, m, Day(doy), rem / 3600, rem % 3600 / 60, rem % 60)
  }

  /** `timestamp_to_utc_parts`: the year is cut to 32 bits, then to two digits. */
  function UtcParts(secs: nat): Date {
    TwoDigitYear(FullDate(secs))
  }

  function TwoDigitYear(d: Date): Date {
    d.(year := d.year % 0x1_0000_0000 % 100)
  }

  // ---- the proleptic Gregorian calendar ----

  predicate Leap(y: int) {
    y % 4 == 0 && (y % 100 != 0 || y % 400 == 0)
  }

  function LeapDay(y: int): int {
    if Leap(y) then 1 else 0
  }

  /** Days before the first of the month in a common year. */
  function DaysBefore(month: int): int {
    if month <= 1 then 0
    else if month == 2 then 31
    else if month == 3 then 59
    else if month == 4 then 90
    else if month == 5 then 120
    else if month == 6 then 151
    else if month == 7 then 181
    else if month == 8 then 212
    else if month == 9 then 243
    else if month == 10 then 273
    else if month == 11 then 304
    else if month == 12 then 334
    else 365
  }

  function DaysIn(y: int, month: int): int {
    DaysBefore(month + 1) - DaysBefore(month) + (if month == 2 then LeapDay(y) else 0)
  }

  predicate ValidDate(d: Date) {
    && 1 <= d.month <= 12 && 1 <= d.day <= DaysIn(d.year, d.month)
    && 0 <= d.hour < 24 && 0 <= d.minute < 60 && 0 <= d.second < 60
  }

  /** `tm_yday`. */
  function YearDay(d: Date): int {
    DaysBefore(d.month) + (if d.month > 2 then LeapDay(d.year) else 0) + d.day - 1
  }

  /** Seconds since the Epoch, section 4.16 of IEEE Std 1003.1-2017. */
  function SecondsSinceEpoch(d: Date): int {
    var tmYear := d.year - 1900;
    d.second + d.minute * 60 + d.hour * 3600 + YearDay(d) * 86400
    + (tmYear - 70) * 31536000 + ((tmYear - 69) / 4) * 86400
    - ((tmYear - 1) / 100) * 86400 + ((tmYear + 299) / 400) * 86400
  }

  // ---- the year ----

  /** The day of the era, split into centuries, four-year groups, years and
      days: the last day of a year past its 365th exists only in leap years. */
  lemma SplitEra(doe: int) returns (c: int, k: int, j: int, doy: int)
    requires 0 <= doe < 146097
    ensures 0 <= c < 4 && 0 <= k < 25 && 0 <= j < 4 && 0 <= doy <= 365
    ensures doe == 36524 * c + 1461 * k + 365 * j + doy
    ensures doy == 365 ==> j == 3 && (k < 24 || c == 3)
  {
    c := if doe >= 109572 then 3 else doe / 36524;
    var r := doe - 36524 * c;
    k := r / 1461;
    var s := r - 1461 * k;
    j := if s >= 1095 then 3 else s / 365;
    doy := s - 365 * j;
  }

  lemma CenturyOfEra(c: int, r: int)
    requires 0 <= c < 4 && 0 <= r <= 36524 && (r == 36524 ==> c == 3)
    ensures (36524 * c + r) / 36524 - (36524 * c + r) / 146096 == c
  {
    if r == 36524 {
      assert 36524 * c + r == 146096;
    } else {
      assert (36524 * c + r) / 36524 == c && (36524 * c + r) / 146096 == 0;
    }
  }

  /** The closed formula finds the year of the era. */
  lemma YearOfEraIsExact(c: int, k: int, j: int, doy: int)
    requires 0 <= c < 4 && 0 <= k < 25 && 0 <= j < 4 && 0 <= doy <= 365
    requires doy == 365 ==> j == 3 && (k < 24 || c == 3)
    ensures var doe := 36524 * c + 1461 * k + 365 * j + doy;
            YearOfEra(doe) == 100 * c + 4 * k + j && DayOfYear(doe, 100 * c + 4 * k + j) == doy
  {
    var doe := 36524 * c + 1461 * k + 365 * j + doy;
    CenturyOfEra(c, 1461 * k + 365 * j + doy);
    var e := FourYears(c, k, j, doy);
    var y := 100 * c + 4 * k + j;
    YearQuotients(c, k, j);
    assert doe - doe / 1460 + doe / 36524 - doe / 146096 == 365 * y + (doy - e);
    WholeDivision(y, doy - e);
  }

  lemma YearQuotients(c: int, k: int, j: int)
    requires 0 <= c < 4 && 0 <= k < 25 && 0 <= j < 4
    ensures (100 * c + 4 * k + j) / 4 == 25 * c + k && (100 * c + 4 * k + j) / 100 == c
  {
  }

  lemma WholeDivision(y: int, rest: int)
    requires 0 <= rest < 365
    ensures (365 * y + rest) / 365 == y
  {
  }

  /** Leap days counted too early: at most one. */
  lemma FourYears(c: int, k: int, j: int, doy: int) returns (e: int)
    requires 0 <= c < 4 && 0 <= k < 25 && 0 <= j < 4 && 0 <= doy <= 365
    requires doy == 365 ==> j == 3 && (k < 24 || c == 3)
    ensures (36524 * c + 1461 * k + 365 * j + doy) / 1460 == 25 * c + k + e && 0 <= doy - e < 365
  {
    var rest := 24 * c + k + 365 * j + doy;
    e := rest / 1460;
    assert 36524 * c + 1461 * k + 365 * j + doy == 1460 * (25 * c + k) + rest;
  }

  /** Days before the first of March of year `y`, counted from year 0. */
  function MarchDays(y: int): int {
    365 * y + y / 4 - y / 100 + y / 400
  }

  // ---- the month ----

  function MarchOffset(month: int): int {
    if month > 2 then DaysBefore(month) - 59 else DaysBefore(month) + 306
  }

  /** Every day of the year falls in the right month. */
  lemma MonthIsExact(doy: int)
    requires 0 <= doy <= 365
    ensures 1 <= Month(doy) <= 12
    ensures MarchOffset(Month(doy)) + Day(doy) - 1 == doy
    ensures 1 <= Day(doy) <= DaysBefore(Month(doy) + 1) - DaysBefore(Month(doy)) + (if doy == 365 then 1 else 0)
    ensures doy == 365 ==> Month(doy) == 2
    ensures Month(doy) <= 2 <==> doy >= 306
  {
    var mp := MarchMonth(doy);
    assert mp == 0 || mp == 1 || mp == 2 || mp == 3 || mp == 4 || mp == 5 || mp == 6 || mp == 7 || mp == 8 || mp == 9
        || mp == 10 || mp == 11;
  }

  // ---- the date ----

  /** `y` and `doy` are the March year and its day for day number `z`. */
  lemma EraIsExact(z: int) returns (y: int, doy: int)
    requires z >= 719468
    ensures var era := z / 146097;
            var doe := z - era * 146097;
            y == YearOfEra(doe) + era * 400 && doy == DayOfYear(doe, YearOfEra(doe))
    ensures y >= 1969 && 0 <= doy <= 365 && MarchDays(y) + doy == z
    ensures doy == 365 ==> Leap(y + 1)
  {
    var era := z / 146097;
    var doe := z - era * 146097;
    var c, k, j, d := SplitEra(doe);
    YearOfEraIsExact(c, k, j, d);
    y, doy := 100 * c + 4 * k + j + era * 400, d;
    WholeYears(era, c, k, j);
    if doy == 365 {
      LeapEnd(era, c, k);
    }
  }

  lemma WholeYears(era: int, c: int, k: int, j: int)
    requires 0 <= c < 4 && 0 <= k < 25 && 0 <= j < 4
    ensures MarchDays(100 * c + 4 * k + j + era * 400) == 146097 * era + 36524 * c + 1461 * k + 365 * j
  {
    var y := 100 * c + 4 * k + j + era * 400;
    assert y / 4 == 25 * c + k + 100 * era;
    assert y / 100 == c + 4 * era;
    assert y / 400 == era;
  }

  lemma LeapEnd(era: int, c: int, k: int)
    requires 0 <= c < 4 && 0 <= k < 25 && (k < 24 || c == 3)
    ensures Leap(100 * c + 4 * k + 3 + era * 400 + 1)
  {
    var y := 100 * c + 4 * k + 4 + era * 400;
    assert y == 4 * (25 * c + k + 1 + 100 * era);
    if k == 24 {
      assert y == 400 * (era + 1);
    } else {
      assert y == 100 * (c + 4 * era) + (4 * k + 4);
    }
  }

  /** Days from the Epoch to the first of January of year `y`. */
  function YearStart(y: int): int {
    (y - 1970) * 365 + (y - 1969) / 4 - (y - 1901) / 100 + (y - 1601) / 400
  }

  lemma MarchIsBeforeYearStart(y: int)
    ensures MarchDays(y) - 719468 == YearStart(y + 1) - 306
  {
    assert (y + 1 - 1969) / 4 == y / 4 - 492;
    assert (y + 1 - 1901) / 100 == y / 100 - 19;
    assert (y + 1 - 1601) / 400 == y / 400 - 4;
  }

  lemma MultiplesBelow(y: int)
    ensures y / 4 - (y - 1) / 4 == if y % 4 == 0 then 1 else 0
    ensures y / 100 - (y - 1) / 100 == if y % 100 == 0 then 1 else 0
    ensures y / 400 - (y - 1) / 400 == if y % 400 == 0 then 1 else 0
    ensures y % 400 == 0 ==> y % 100 == 0
    ensures y % 100 == 0 ==> y % 4 == 0
  {
  }

  lemma YearLength(y: int)
    ensures YearStart(y + 1) == YearStart(y) + 365 + LeapDay(y)
  {
    MarchIsBeforeYearStart(y);
    MarchIsBeforeYearStart(y - 1);
    MultiplesBelow(y);
    assert MarchDays(y) == MarchDays(y - 1) + 365 + LeapDay(y);
  }

  lemma SecondsByDay(d: Date)
    ensures SecondsSinceEpoch(d) == (YearStart(d.year) + YearDay(d)) * 86400 + d.hour * 3600 + d.minute * 60 + d.second
  {
  }

  function CalendarYear(y: int, doy: int): int {
    if Month(doy) <= 2 then y + 1 else y
  }

  /** The date of day `doy` of March year `y`. */
  lemma DayIsExact(y: int, doy: int, rem: int)
    requires 0 <= doy <= 365 && (doy == 365 ==> Leap(y + 1)) && 0 <= rem < 86400
    ensures var d := DateOf(y, doy, rem);
            ValidDate(d) && YearStart(d.year) + YearDay(d) == MarchDays(y) + doy - 719468
  {
    MonthIsExact(doy);
    MarchIsBeforeYearStart(y);
    YearLength(y);
  }

  lemma SplitDay(rem: int)
    requires 0 <= rem
    ensures rem / 3600 * 3600 + rem % 3600 / 60 * 60 + rem % 60 == rem
  {
    var h, r := rem / 3600, rem % 3600;
    assert rem == 60 * (60 * h) + r;
    SixtyDivides(60 * h, r);
  }

  lemma SixtyDivides(k: int, r: int)
    requires r >= 0
    ensures (60 * k + r) % 60 == r % 60
  {
  }

  function DateOf(y: int, doy: int, rem: int): Date {
    Date(CalendarYear(y, doy), Month(doy), Day(doy), rem / 3600, rem % 3600 / 60, rem % 60)
  }

  lemma FullDateIsDateOf(secs: nat) returns (y: int, doy: int)
    ensures FullDate(secs) == DateOf(y, doy, secs % 86400)
    ensures 0 <= doy <= 365 && MarchDays(y) + doy - 719468 == secs / 86400
    ensures doy == 365 ==> Leap(y + 1)
  {
    y, doy := EraIsExact(secs / 86400 + 719468);
  }

  /** For every timestamp the date is a valid one and the POSIX formula takes it
      back to the timestamp. */
  lemma DateIsExact(secs: nat)
    ensures ValidDate(FullDate(secs)) && SecondsSinceEpoch(FullDate(secs)) == secs
  {
    var y, doy := FullDateIsDateOf(secs);
    var rem := secs % 86400;
    DayIsExact(y, doy, rem);
    SecondsByDay(DateOf(y, doy, rem));
    SplitDay(rem);
  }

  // ---- uniqueness ----

  lemma {:induction false} YearsAreApart(a: int, b: int)
    requires a < b
    ensures YearStart(a) + 365 + LeapDay(a) <= YearStart(b)
    decreases b - a
  {
    YearLength(b - 1);
    if a < b - 1 {
      YearsAreApart(a, b - 1);
    } else {
      YearLength(a);
    }
  }

  lemma YearDayIsInYear(d: Date)
    requires ValidDate(d)
    ensures 0 <= YearDay(d) < 365 + LeapDay(d.year)
  {
  }

  lemma YearDayIsUnique(a: Date, b: Date)
    requires ValidDate(a) && ValidDate(b) && a.year == b.year && YearDay(a) == YearDay(b)
    ensures a.month == b.month && a.day == b.day
  {
    if a.month < b.month {
      MonthsAreApart(a, b);
    } else if b.month < a.month {
      MonthsAreApart(b, a);
    }
  }

  lemma MonthsAreApart(a: Date, b: Date)
    requires ValidDate(a) && ValidDate(b) && a.year == b.year && a.month < b.month
    ensures YearDay(a) < YearDay(b)
  {
  }

  /** No two valid dates have the same number of seconds. */
  lemma DateIsUnique(a: Date, b: Date)
    requires ValidDate(a) && ValidDate(b) && SecondsSinceEpoch(a) == SecondsSinceEpoch(b)
    ensures a == b
  {
    SecondsByDay(a);
    SecondsByDay(b);
    assert YearStart(a.year) + YearDay(a) == YearStart(b.year) + YearDay(b);
    assert a.hour * 3600 + a.minute * 60 + a.second == b.hour * 3600 + b.minute * 60 + b.second;
    YearDayIsInYear(a);
    YearDayIsInYear(b);
    if a.year < b.year {
      YearsAreApart(a.year, b.year);
    } else if b.year < a.year {
      YearsAreApart(b.year, a.year);
    }
    YearDayIsUnique(a, b);
  }

  lemma YearIsNotNegative(d: Date)
    requires ValidDate(d) && YearStart(d.year) + YearDay(d) >= 0
    ensures d.year >= 1970
  {
    YearDayIsInYear(d);
    assert YearStart(1970) == 0;
    if d.year < 1970 {
      YearsAreApart(d.year, 1970);
    }
  }

  /** Converting a valid date to seconds and back gives that date. */
  lemma SecondsToDateRoundTrip(d: Date)
    requires ValidDate(d) && SecondsSinceEpoch(d) >= 0
    ensures FullDate(SecondsSinceEpoch(d)) == d && d.year >= 1970
  {
    var secs: nat := SecondsSinceEpoch(d);
    DateIsExact(secs);
    DateIsUnique(FullDate(secs), d);
    SecondsByDay(d);
    YearIsNotNegative(d);
  }

  /** Civil date: for every valid date from the Epoch on whose year fits 32
      bits, the parts of its timestamp are its own, year modulo 100. */
  lemma PartsAreTheUniqueDate(d: Date)
    requires ValidDate(d) && SecondsSinceEpoch(d) >= 0 && d.year < 0x1_0000_0000
    ensures UtcParts(SecondsSinceEpoch(d)) == d.(year := d.year % 100)
  {
    SecondsToDateRoundTrip(d);
    SmallYear(d.year);
  }

  lemma SmallYear(y: int)
    requires 0 <= y < 0x1_0000_0000
    ensures y % 0x1_0000_0000 == y
  {
  }
}
