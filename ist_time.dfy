/** India Standard Time calendar keys of the live metrics ticker (`istNowDate`, `istDayKey`,
    `istMonthKey`, `istFractionOfDay` in src/components/hero/LiveMetricsTicker.client.tsx).

    Each of them builds `new Date(ms + IST_OFFSET_MS)` and reads its UTC fields, so the result
    is the UTC calendar of the shifted time value. The calendar follows the time-value rules
    of ECMA-262, section 21.4.1 (Day, DayFromYear, YearFromTime, MonthFromTime, DateFromTime and
    the hour, minute and second fields); `new Date(v)` applies TimeClip (section 21.4.1.31), and an
    out-of-range value gives an invalid date whose fields are all NaN. */
module IstTime {
  import opened Wrappers
  import opened Decimal
  import opened Arith

  const MS_PER_SECOND: int := 1000
  const MS_PER_MINUTE: int := 60000
  const MS_PER_HOUR: int := 3600000
  const MS_PER_DAY: int := 86400000

  /** `5.5 * 60 * 60 * 1000`. */
  const IST_OFFSET_MS: int := 19800000

  /** The largest magnitude TimeClip admits. */
  const MAX_TIME: int := 8640000000000000

  // ---------- years ----------

  predicate IsLeapYear(y: int) {
    y % 4 == 0 && (y % 100 != 0 || y % 400 == 0)
  }

  function DaysInYear(y: int): int {
    if IsLeapYear(y) then 366 else 365
  }

  /** The day number of the first day of year `y` (day 0 is 1 January 1970), counted in
      whole years from 1970; `DayFromYearFormula` shows it is ECMA-262's DayFromYear. */
  function DayFromYear(y: int): int
    decreases if y < 1970 then 1970 - y else y - 1970
  {
    if y == 1970 then 0
    else if 1970 < y then DayFromYear(y - 1) + DaysInYear(y - 1)
    else DayFromYear(y + 1) - DaysInYear(y)
  }

  /** Consecutive years start `DaysInYear` days apart. */
  lemma DayFromYearStep(y: int)
    ensures DayFromYear(y + 1) == DayFromYear(y) + DaysInYear(y)
  {}

  /** ECMA-262's closed form `365 * (y - 1970) + floor((y - 1969) / 4) - floor((y - 1901) / 100)
      + floor((y - 1601) / 400)`. */
  function DayFromYearClosed(y: int): int {
    365 * (y - 1970) + (y - 1969) / 4 - (y - 1901) / 100 + (y - 1601) / 400
  }

  lemma Step4(y: int)
    ensures (y - 1968) / 4 == (y - 1969) / 4 + (if y % 4 == 0 then 1 else 0)
  {}

  lemma Step100(y: int)
    ensures (y - 1900) / 100 == (y - 1901) / 100 + (if y % 100 == 0 then 1 else 0)
  {}

  lemma Step400(y: int)
    ensures (y - 1600) / 400 == (y - 1601) / 400 + (if y % 400 == 0 then 1 else 0)
  {}

  /** The leap-year rule as the three counting terms of the closed form see it: a year
      divisible by 100 is divisible by 4, one divisible by 400 is divisible by 100. */
  lemma LeapDays(y: int)
    ensures DaysInYear(y) == 365 + (if y % 4 == 0 then 1 else 0) - (if y % 100 == 0 then 1 else 0)
                                 + (if y % 400 == 0 then 1 else 0)
  {
    if y % 100 == 0 {
      DivModUnique(y, 4, 25 * (y / 100), 0);
    }
    if y % 400 == 0 {
      DivModUnique(y, 100, 4 * (y / 400), 0);
    }
  }

  /** The closed form also advances by the length of the year. */
  lemma ClosedStep(y: int)
    ensures DayFromYearClosed(y + 1) == DayFromYearClosed(y) + DaysInYear(y)
  {
    Step4(y);
    Step100(y);
    Step400(y);
    LeapDays(y);
  }

  /** The year count agrees with ECMA-262's formula for every year. */
  lemma {:induction false} DayFromYearFormula(y: int)
    ensures DayFromYear(y) == DayFromYearClosed(y)
    decreases if y < 1970 then 1970 - y else y - 1970
  {
    if 1970 < y {
      DayFromYearFormula(y - 1);
      ClosedStep(y - 1);
    } else if y < 1970 {
      DayFromYearFormula(y + 1);
      ClosedStep(y);
    }
  }

  /** Later years start later, by at least 365 days a year. */
  lemma {:induction false} DayFromYearMonotone(y1: int, y2: int)
    requires y1 <= y2
    ensures DayFromYear(y1) + 365 * (y2 - y1) <= DayFromYear(y2)
    decreases y2 - y1
  {
    if y1 < y2 {
      DayFromYearStep(y2 - 1);
      DayFromYearMonotone(y1, y2 - 1);
    }
  }

  function YearUp(y: int, day: int): (r: int)
    requires DayFromYear(y) <= day
    ensures DayFromYear(r) <= day < DayFromYear(r + 1)
    decreases day - DayFromYear(y)
  {
    DayFromYearStep(y);
    if DayFromYear(y + 1) <= day then YearUp(y + 1, day) else y
  }

  function YearDown(y: int, day: int): (r: int)
    requires day < DayFromYear(y)
    ensures DayFromYear(r) <= day < DayFromYear(r + 1)
    decreases DayFromYear(y) - day
  {
    DayFromYearStep(y - 1);
    if DayFromYear(y - 1) <= day then y - 1 else YearDown(y - 1, day)
  }

  /** YearFromTime on day numbers: the year whose days contain `day`, found by walking from 1970. */
  function YearFromDay(day: int): (y: int)
    ensures DayFromYear(y) <= day < DayFromYear(y + 1)
  {
    if 0 <= day then YearUp(1970, day) else YearDown(1970, day)
  }

  /** Only one year contains a given day, so `YearFromDay` is ECMA-262's "largest y whose
      first day is not after `day`". */
  lemma YearFromDayUnique(day: int, y: int)
    requires DayFromYear(y) <= day < DayFromYear(y + 1)
    ensures y == YearFromDay(day)
  {
    var r := YearFromDay(day);
    if y < r {
      DayFromYearMonotone(y + 1, r);
    } else if r < y {
      DayFromYearMonotone(r + 1, y);
    }
  }

  // ---------- months ----------

  /** Days of a common year before month `m` (0 for January); `m == 12` gives the year
      length. */
  function CommonMonthStart(m: int): int
    requires 0 <= m <= 12
  {
    if m == 0 then 0 else if m == 1 then 31 else if m == 2 then 59 else if m == 3 then 90
    else if m == 4 then 120 else if m == 5 then 151 else if m == 6 then 181
    else if m == 7 then 212 else if m == 8 then 243 else if m == 9 then 273
    else if m == 10 then 304 else if m == 11 then 334 else 365
  }

  /** The day within the year on which month `m` begins; from March on a leap year is one
      day later. */
  function MonthStart(m: int, leap: bool): int
    requires 0 <= m <= 12
  {
    CommonMonthStart(m) + (if leap && 2 <= m then 1 else 0)
  }

  function DaysInMonth(m: int, leap: bool): (n: int)
    requires 0 <= m < 12
    ensures 28 <= n <= 31
  {
    MonthStart(m + 1, leap) - MonthStart(m, leap)
  }

  lemma MonthStartMonotone(m1: int, m2: int, leap: bool)
    requires 0 <= m1 < m2 <= 12
    ensures MonthStart(m1 + 1, leap) <= MonthStart(m2, leap)
  {}

  function FindMonth(d: int, leap: bool, m: int): (r: int)
    requires 0 <= m < 12 && 0 <= d < MonthStart(m + 1, leap)
    ensures 0 <= r <= m
    ensures MonthStart(r, leap) <= d < MonthStart(r + 1, leap)
    decreases m
  {
    if MonthStart(m, leap) <= d then m else FindMonth(d, leap, m - 1)
  }

  /** MonthFromTime on days within the year. */
  function MonthFromDayInYear(d: int, leap: bool): (m: int)
    requires 0 <= d < MonthStart(12, leap)
    ensures 0 <= m < 12
    ensures MonthStart(m, leap) <= d < MonthStart(m + 1, leap)
  {
    FindMonth(d, leap, 11)
  }

  lemma MonthUnique(d: int, leap: bool, m: int)
    requires 0 <= m < 12 && MonthStart(m, leap) <= d < MonthStart(m + 1, leap)
    ensures m == MonthFromDayInYear(d, leap)
  {
    var r := MonthFromDayInYear(d, leap);
    if m < r {
      MonthStartMonotone(m, r, leap);
    } else if r < m {
      MonthStartMonotone(r, m, leap);
    }
  }

  // ---------- calendar dates ----------

  /** A calendar date as the UTC getters report it: `month` is 0 for January, as
      `getUTCMonth` returns it, and `date` starts at 1. */
  datatype CivilDate = CivilDate(year: int, month: int, date: int)

  predicate ValidCivil(c: CivilDate) {
    0 <= c.month < 12 && 1 <= c.date <= DaysInMonth(c.month, IsLeapYear(c.year))
  }

  /** MakeDay: the day number of a calendar date. */
  function DayFromCivil(c: CivilDate): int
    requires ValidCivil(c)
  {
    DayFromYear(c.year) + MonthStart(c.month, IsLeapYear(c.year)) + c.date - 1
  }

  /** MonthFromTime and DateFromTime of the day `d` (from 0) of year `y`. */
  function CivilInYear(y: int, d: int): (c: CivilDate)
    requires 0 <= d < DaysInYear(y)
    ensures ValidCivil(c) && c.year == y
    ensures MonthStart(c.month, IsLeapYear(y)) + c.date - 1 == d
  {
    var leap := IsLeapYear(y);
    var m := MonthFromDayInYear(d, leap);
    CivilDate(y, m, d - MonthStart(m, leap) + 1)
  }

  /** YearFromTime, MonthFromTime and DateFromTime of a day number: a valid date that
      `DayFromCivil` maps back to the same day. */
  function CivilFromDay(day: int): (c: CivilDate)
    ensures ValidCivil(c)
    ensures DayFromCivil(c) == day
  {
    var y := YearFromDay(day);
    DayFromYearStep(y);
    CivilInYear(y, day - DayFromYear(y))
  }

  /** The day within the year of a valid date lies inside that year. */
  lemma DayInYearBounds(c: CivilDate)
    requires ValidCivil(c)
    ensures DayFromYear(c.year) <= DayFromCivil(c) < DayFromYear(c.year + 1)
  {
    MonthStartMonotone(c.month, 12, IsLeapYear(c.year));
    DayFromYearStep(c.year);
  }

  /** The other direction: every valid date is the date of its own day number, so calendar
      dates and day numbers correspond one to one. */
  lemma CivilRoundTrip(c: CivilDate)
    requires ValidCivil(c)
    ensures CivilFromDay(DayFromCivil(c)) == c
  {
    YearOfCivil(c);
    DayInYearRange(c);
    CivilInYearRoundTrip(c);
  }

  /** A valid date's day number lies in the date's year. */
  lemma YearOfCivil(c: CivilDate)
    requires ValidCivil(c)
    ensures YearFromDay(DayFromCivil(c)) == c.year
  {
    DayInYearBounds(c);
    YearFromDayUnique(DayFromCivil(c), c.year);
  }

  /** The day within its year of a valid date. */
  function DayInYear(c: CivilDate): int
    requires ValidCivil(c)
  {
    MonthStart(c.month, IsLeapYear(c.year)) + c.date - 1
  }

  lemma DayInYearRange(c: CivilDate)
    requires ValidCivil(c)
    ensures 0 <= DayInYear(c) < DaysInYear(c.year)
  {
    MonthStartMonotone(c.month, 12, IsLeapYear(c.year));
  }

  /** The day within its year of a valid date gives the date back. */
  lemma CivilInYearRoundTrip(c: CivilDate)
    requires ValidCivil(c)
    requires 0 <= DayInYear(c) < DaysInYear(c.year)
    ensures CivilInYear(c.year, DayInYear(c)) == c
  {
    MonthUnique(DayInYear(c), IsLeapYear(c.year), c.month);
  }

  lemma CivilFromDayInjective(d1: int, d2: int)
    requires CivilFromDay(d1) == CivilFromDay(d2)
    ensures d1 == d2
  {}

  // ---------- time values ----------

  /** Day(t): the day number of a time value (rounding down, also before 1970). */
  function Day(t: int): int {
    t / MS_PER_DAY
  }

  function HourFromTime(t: int): int { (t / MS_PER_HOUR) % 24 }
  function MinFromTime(t: int): int { (t / MS_PER_MINUTE) % 60 }
  function SecFromTime(t: int): int { (t / MS_PER_SECOND) % 60 }

  /** Hours, minutes and seconds recombine to the whole seconds elapsed since midnight. */
  lemma SecondsOfDay(t: int)
    ensures HourFromTime(t) * 3600 + MinFromTime(t) * 60 + SecFromTime(t)
         == (t % MS_PER_DAY) / MS_PER_SECOND
  {
    var s, ms := t / 1000, t % 1000;
    DivModUnique(t, MS_PER_MINUTE, s / 60, (s % 60) * 1000 + ms);
    DivModUnique(t, MS_PER_HOUR, s / 3600, (s % 3600) * 1000 + ms);
    DivModUnique(t, MS_PER_DAY, s / 86400, (s % 86400) * 1000 + ms);
    DivModUnique(t % MS_PER_DAY, MS_PER_SECOND, s % 86400, ms);
    var h := s / 3600;
    DivModUnique(s / 60, 60, h, (s % 3600) / 60);
    DivModUnique(s, 86400, h / 24, (h % 24) * 3600 + s % 3600);
  }

  /** The time value of `new Date(ms + IST_OFFSET_MS)`, or `None` for an invalid date. */
  function IstTimeValue(ms: int): (t: Option<int>)
    ensures t.Some? <==> -MAX_TIME <= ms + IST_OFFSET_MS <= MAX_TIME
    ensures t.Some? ==> t.value == ms + IST_OFFSET_MS
  {
    var v := ms + IST_OFFSET_MS;
    if -MAX_TIME <= v <= MAX_TIME then Some(v) else None
  }

  /** The IST calendar date of `ms`, read off the shifted date's UTC fields. */
  function IstCivil(ms: int): Option<CivilDate> {
    match IstTimeValue(ms)
    case None => None
    case Some(t) => Some(CivilFromDay(Day(t)))
  }

  // ---------- keys ----------

  /** `${y}`: each field of an invalid date is NaN and renders as "NaN"; `padStart` leaves
      those three characters alone. */
  const NAN: string := "NaN"

  function YearMonthText(c: CivilDate): string
    requires 0 <= c.month < 12
  {
    IntToDecimal(c.year) + "-" + Pad2(c.month + 1)
  }

  function DayText(c: CivilDate): string
    requires ValidCivil(c)
  {
    YearMonthText(c) + "-" + Pad2(c.date)
  }

  /** `istDayKey(ms)`: `year-MM-DD` of the IST date. */
  function IstDayKey(ms: int): string {
    match IstCivil(ms)
    case None => NAN + "-" + NAN + "-" + NAN
    case Some(c) => DayText(c)
  }

  /** `istMonthKey(ms)`: `year-MM` of the IST date. */
  function IstMonthKey(ms: int): string {
    match IstCivil(ms)
    case None => NAN + "-" + NAN
    case Some(c) => YearMonthText(c)
  }

  /** The day text extends the month text by `-DD`, and both fields are two digits. */
  lemma DayTextShape(c: CivilDate)
    requires ValidCivil(c)
    ensures var k, n := DayText(c), |DayText(c)|;
      n == |YearMonthText(c)| + 3 && k[..n - 3] == YearMonthText(c) && k[n - 3] == '-' &&
      k[n - 5..n - 3] == Pad2(c.month + 1) && k[n - 2..] == Pad2(c.date)
  {
    var m := YearMonthText(c);
    var k := DayText(c);
    assert k == m + "-" + Pad2(c.date);
    assert m == IntToDecimal(c.year) + "-" + Pad2(c.month + 1);
  }

  /** The month key is the day key cut before its last `-`; for a valid date the day key
      adds exactly `-DD`. */
  lemma MonthKeyIsDayKeyPrefix(ms: int)
    ensures |IstMonthKey(ms)| < |IstDayKey(ms)|
    ensures IstDayKey(ms)[..|IstMonthKey(ms)|] == IstMonthKey(ms)
    ensures IstDayKey(ms)[|IstMonthKey(ms)|] == '-'
    ensures IstCivil(ms).Some? ==> |IstDayKey(ms)| == |IstMonthKey(ms)| + 3
  {
    match IstCivil(ms)
    case None =>
      assert IstDayKey(ms) == "NaN-NaN-NaN" && IstMonthKey(ms) == "NaN-NaN";
    case Some(c) =>
      DayTextShape(c);
  }

  /** For a valid date the day key ends in the month number and the date of the month, each
      padded to two digits by `Pad2`. */
  lemma DayKeyFields(ms: int)
    requires IstCivil(ms).Some?
    ensures var c, k := IstCivil(ms).value, IstDayKey(ms);
      |k| >= 5 && k[|k| - 5..|k| - 3] == Pad2(c.month + 1) && k[|k| - 2..] == Pad2(c.date)
  {
    var c := IstCivil(ms).value;
    assert IstDayKey(ms) == DayText(c);
    DayTextShape(c);
  }

  /** The fields a valid date shows: a month number from 1 to 12 and a date from 1 to 31. */
  lemma CivilFieldRanges(c: CivilDate)
    requires ValidCivil(c)
    ensures 1 <= c.month + 1 <= 12 && 1 <= c.date <= 31
  {}

  lemma IntToDecimalInjective(i: int, j: int)
    requires IntToDecimal(i) == IntToDecimal(j)
    ensures i == j
  {}

  /** Two equal concatenations whose second parts have equal lengths split the same way. */
  lemma SplitAtSuffix(a1: string, b1: string, a2: string, b2: string)
    requires |b1| == |b2| && a1 + b1 == a2 + b2
    ensures a1 == a2 && b1 == b2
  {
    assert a1 == (a1 + b1)[..|a1|];
    assert a2 == (a2 + b2)[..|a2|];
    assert b1 == (a1 + b1)[|a1|..];
    assert b2 == (a2 + b2)[|a2|..];
  }

  /** Distinct dates have distinct day texts: the date, the month and then the year can be
      read back from the text. */
  lemma DayTextInjective(c1: CivilDate, c2: CivilDate)
    requires ValidCivil(c1) && ValidCivil(c2)
    requires DayText(c1) == DayText(c2)
    ensures c1 == c2
  {
    SplitAtSuffix(YearMonthText(c1) + "-", Pad2(c1.date), YearMonthText(c2) + "-", Pad2(c2.date));
    SplitAtSuffix(YearMonthText(c1), "-", YearMonthText(c2), "-");
    YearMonthTextInjective(c1, c2);
  }

  /** Distinct months have distinct month texts. */
  lemma YearMonthTextInjective(c1: CivilDate, c2: CivilDate)
    requires 0 <= c1.month < 12 && 0 <= c2.month < 12
    requires YearMonthText(c1) == YearMonthText(c2)
    ensures c1.year == c2.year && c1.month == c2.month
  {
    SplitAtSuffix(IntToDecimal(c1.year) + "-", Pad2(c1.month + 1), IntToDecimal(c2.year) + "-", Pad2(c2.month + 1));
    SplitAtSuffix(IntToDecimal(c1.year), "-", IntToDecimal(c2.year), "-");
    IntToDecimalInjective(c1.year, c2.year);
  }

  /** For valid times the day key changes exactly when the IST day changes: two times share
      a day key if and only if their shifted time values fall on the same day. */
  lemma DayKeyIdentifiesIstDay(ms1: int, ms2: int)
    requires IstTimeValue(ms1).Some? && IstTimeValue(ms2).Some?
    ensures IstDayKey(ms1) == IstDayKey(ms2) <==>
            Day(ms1 + IST_OFFSET_MS) == Day(ms2 + IST_OFFSET_MS)
  {
    var d1, d2 := Day(ms1 + IST_OFFSET_MS), Day(ms2 + IST_OFFSET_MS);
    DayKeyOfValid(ms1);
    DayKeyOfValid(ms2);
    if IstDayKey(ms1) == IstDayKey(ms2) {
      DayTextInjective(CivilFromDay(d1), CivilFromDay(d2));
      CivilFromDayInjective(d1, d2);
    }
  }

  /** The day key of a valid time is the text of the shifted time value's date: an
      unfolding step of `IstDayKey`, used by `DayKeyIdentifiesIstDay`. */
  lemma DayKeyOfValid(ms: int)
    requires IstTimeValue(ms).Some?
    ensures IstDayKey(ms) == DayText(CivilFromDay(Day(ms + IST_OFFSET_MS)))
  {
    assert IstCivil(ms) == Some(CivilFromDay(Day(ms + IST_OFFSET_MS)));
  }

  /** For valid times the month key changes exactly when the IST year or month changes. */
  lemma MonthKeyIdentifiesIstMonth(ms1: int, ms2: int)
    requires IstCivil(ms1).Some? && IstCivil(ms2).Some?
    ensures IstMonthKey(ms1) == IstMonthKey(ms2) <==>
            IstCivil(ms1).value.year == IstCivil(ms2).value.year &&
            IstCivil(ms1).value.month == IstCivil(ms2).value.month
  {
    var c1, c2 := IstCivil(ms1).value, IstCivil(ms2).value;
    assert IstMonthKey(ms1) == YearMonthText(c1);
    assert IstMonthKey(ms2) == YearMonthText(c2);
    if YearMonthText(c1) == YearMonthText(c2) {
      YearMonthTextInjective(c1, c2);
    }
  }

  // ---------- fraction of the day ----------

  /** `istFractionOfDay(ms)`: `(h * 3600 + min * 60 + sec) / 86400` of the IST time, `None`
      (NaN) for an invalid date. The value is the whole seconds since IST midnight over the
      seconds of a day, in [0, 1). */
  function IstFractionOfDay(ms: int): (f: Option<real>)
    ensures f.Some? <==> IstTimeValue(ms).Some?
    ensures f.Some? ==>
      var t := ms + IST_OFFSET_MS;
      f.value == ((t % MS_PER_DAY) / MS_PER_SECOND) as real / 86400.0 &&
      0.0 <= f.value < 1.0
  {
    match IstTimeValue(ms)
    case None => None
    case Some(t) =>
      SecondsOfDay(t);
      Some((HourFromTime(t) * 3600 + MinFromTime(t) * 60 + SecFromTime(t)) as real / 86400.0)
  }

  /** The fraction repeats every day. */
  lemma FractionIsDaily(ms: int)
    requires IstTimeValue(ms).Some? && IstTimeValue(ms + MS_PER_DAY).Some?
    ensures IstFractionOfDay(ms + MS_PER_DAY) == IstFractionOfDay(ms)
  {
    var t := ms + IST_OFFSET_MS;
    DivModUnique(t + MS_PER_DAY, MS_PER_DAY, t / MS_PER_DAY + 1, t % MS_PER_DAY);
  }
}
