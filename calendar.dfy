/**
 * Naive calendar dates (no time of day, no time zone).
 *
 * A date is kept as its (year, month, day) fields, as the records carry it
 * ("YYYY-MM-DD"). `DayNumber` counts days from 1970-01-01, which gives the
 * weekday and the Sunday that starts a date's week.
 */
module Calendar {

  datatype Date = Date(year: int, month: int, day: int)

  predicate IsLeapYear(y: int)
  {
    y % 4 == 0 && (y % 100 != 0 || y % 400 == 0)
  }

  function DaysInMonth(y: int, m: int): (n: int)
    requires 1 <= m <= 12
    ensures 28 <= n <= 31
    ensures n == 29 <==> m == 2 && IsLeapYear(y)
  {
    if m == 2 then (if IsLeapYear(y) then 29 else 28)
    else if m == 4 || m == 6 || m == 9 || m == 11 then 30
    else 31
  }

  /** A date that exists in the proleptic Gregorian calendar. */
  predicate ValidDate(d: Date)
  {
    1 <= d.month <= 12 && 1 <= d.day <= DaysInMonth(d.year, d.month)
  }

  /** The calendar day after `d`. */
  function NextDay(d: Date): (n: Date)
    requires ValidDate(d)
    ensures ValidDate(n)
  {
    if d.day < DaysInMonth(d.year, d.month) then Date(d.year, d.month, d.day + 1)
    else if d.month < 12 then Date(d.year, d.month + 1, 1)
    else Date(d.year + 1, 1, 1)
  }

  /** The year counted from March, so that the leap day ends it: January and February belong to the year before. */
  function ShiftedYear(d: Date): int
  {
    if d.month <= 2 then d.year - 1 else d.year
  }

  /** Months since March of the shifted year: March is 0, February is 11. */
  function ShiftedMonth(d: Date): int
  {
    if d.month > 2 then d.month - 3 else d.month + 9
  }

  /** Days from the start of an era to the start of its `yoe`-th (March-based) year. */
  function DaysBeforeYear(yoe: int): int
  {
    yoe * 365 + yoe / 4 - yoe / 100
  }

  /** Days from March 1 to the first of the `mp`-th month after March. */
  function DaysBeforeMonth(mp: int): int
  {
    (153 * mp + 2) / 5
  }

  /**
   * Days from 0000-03-01 to March 1 of the shifted year `y`. The years are
   * split into 400-year eras of 146097 days; Dafny's `/` by a positive divisor
   * rounds down, which is what the era split needs.
   */
  function YearStart(y: int): int
  {
    var era := y / 400;
    era * 146097 + DaysBeforeYear(y - era * 400)
  }

  /** Days since 1970-01-01 (negative before it), by the shifted-year method. */
  function DayNumber(d: Date): int
  {
    YearStart(ShiftedYear(d)) + DaysBeforeMonth(ShiftedMonth(d)) + d.day - 1 - 719468
  }

  /** Day of the week of a day number, Sunday = 0 as JavaScript's getDay (1970-01-01 was a Thursday). */
  function Weekday(n: int): (w: int)
    ensures 0 <= w < 7
  {
    (n + 4) % 7
  }

  /** The Sunday on or before day `n`: `date - date.getDay()`. */
  function WeekStart(n: int): (s: int)
    ensures Weekday(s) == 0
    ensures s <= n < s + 7
    ensures Weekday(n) == 0 ==> s == n
  {
    n - Weekday(n)
  }

  /** Months since year 0, so that "YYYY-MM" keys compare as these numbers do. */
  function MonthIndex(d: Date): int
  {
    d.year * 12 + (d.month - 1)
  }

  predicate SameMonth(a: Date, b: Date)
  {
    a.year == b.year && a.month == b.month
  }

  /** Only one Sunday lies in any seven consecutive days ending at `n`. */
  lemma WeekStartUnique(n: int, s: int)
    requires Weekday(s) == 0 && s <= n < s + 7
    ensures s == WeekStart(n)
  {
    var t := WeekStart(n);
    assert (s + 4) % 7 == 0 && (t + 4) % 7 == 0;
    assert (s + 4) == 7 * ((s + 4) / 7);
    assert (t + 4) == 7 * ((t + 4) / 7);
    assert -7 < s - t < 7;
  }

  /** Every day of one Sunday-to-Saturday week has the same week start. */
  lemma SameWeekSameStart(n: int, m: int)
    requires WeekStart(n) <= m < WeekStart(n) + 7
    ensures WeekStart(m) == WeekStart(n)
  {
    WeekStartUnique(m, WeekStart(n));
  }

  /** For real months, two dates share a month index exactly when they share year and month. */
  lemma MonthIndexInjective(a: Date, b: Date)
    requires 1 <= a.month <= 12 && 1 <= b.month <= 12
    ensures MonthIndex(a) == MonthIndex(b) <==> SameMonth(a, b)
  {
    if a.year < b.year {
      assert MonthIndex(a) <= a.year * 12 + 11 < b.year * 12 <= MonthIndex(b);
    } else if b.year < a.year {
      assert MonthIndex(b) <= b.year * 12 + 11 < a.year * 12 <= MonthIndex(a);
    }
  }

  /** Month indexes are ordered as (year, month) pairs are, so sorting by them is chronological. */
  lemma MonthIndexOrder(a: Date, b: Date)
    requires 1 <= a.month <= 12 && 1 <= b.month <= 12
    ensures MonthIndex(a) < MonthIndex(b) <==> a.year < b.year || (a.year == b.year && a.month < b.month)
  {
    if a.year < b.year {
      assert MonthIndex(a) <= a.year * 12 + 11 < b.year * 12 <= MonthIndex(b);
    } else if b.year < a.year {
      assert MonthIndex(b) <= b.year * 12 + 11 < a.year * 12 <= MonthIndex(a);
    }
  }

  /** Going from one year of an era to the next adds 365 days, plus one when the later year is a multiple of 4 but not of 100. */
  lemma DaysBeforeYearStep(t: int)
    requires 1 <= t < 400
    ensures DaysBeforeYear(t) - DaysBeforeYear(t - 1)
         == 365 + (if t % 4 == 0 then 1 else 0) - (if t % 100 == 0 then 1 else 0)
  {
    var q4, r4 := t / 4, t % 4;
    assert t == 4 * q4 + r4;
    if r4 == 0 {
      assert (t - 1) / 4 == q4 - 1;
    } else {
      assert (t - 1) / 4 == q4;
    }
    var q100, r100 := t / 100, t % 100;
    assert t == 100 * q100 + r100;
    if r100 == 0 {
      assert (t - 1) / 100 == q100 - 1;
    } else {
      assert (t - 1) / 100 == q100;
    }
  }

  /** Numbers that differ by a multiple of `m` leave the same remainder. */
  lemma SameRemainder(a: int, b: int, m: int, k: int)
    requires m == 4 || m == 7 || m == 100 || m == 400
    requires a == b + m * k
    ensures a % m == b % m
  {
    var qa, qb := a / m, b / m;
    assert a == m * qa + a % m && b == m * qb + b % m;
    var z := qa - qb - k;
    if m == 4 {
      assert 4 * z == b % 4 - a % 4;
    } else if m == 7 {
      assert 7 * z == b % 7 - a % 7;
    } else if m == 100 {
      assert 100 * z == b % 100 - a % 100;
    } else {
      assert 400 * z == b % 400 - a % 400;
    }
  }

  /** The year `y` has the same leap-year status as its position `y - era * 400` in its era. */
  lemma LeapYearInEra(y: int)
    ensures var t := y - (y / 400) * 400;
            0 <= t < 400 && (IsLeapYear(y) <==> t % 4 == 0 && (t % 100 != 0 || t == 0))
  {
    var e := y / 400;
    var t := y - e * 400;
    SameRemainder(y, t, 4, 100 * e);
    SameRemainder(y, t, 100, 4 * e);
    SameRemainder(y, t, 400, e);
  }

  /** The quotient by 400 is the only `q` that leaves a remainder in `[0, 400)`. */
  lemma EraOf(a: int, q: int, r: int)
    requires a == 400 * q + r && 0 <= r < 400
    ensures a / 400 == q
  {
    var q' := a / 400;
    assert a == 400 * q' + a % 400;
    assert 400 * (q - q') == a % 400 - r;
  }

  /** The next year is either the next year of the same era or the first year of the next era. */
  lemma NextYearInEra(y: int)
    ensures var e, t := y / 400, y - (y / 400) * 400;
            var e', t' := (y + 1) / 400, (y + 1) - ((y + 1) / 400) * 400;
            (t < 399 && e' == e && t' == t + 1) || (t == 399 && e' == e + 1 && t' == 0)
  {
    var e := y / 400;
    var t := y - e * 400;
    assert y == 400 * e + t && 0 <= t < 400;
    if t < 399 {
      EraOf(y + 1, e, t + 1);
    } else {
      EraOf(y + 1, e + 1, 0);
    }
  }

  /** March 1 of the next shifted year comes 365 days later, or 366 when that year ends in a leap day. */
  lemma YearStartStep(y: int)
    ensures YearStart(y + 1) == YearStart(y) + 365 + (if IsLeapYear(y + 1) then 1 else 0)
  {
    var t := y - (y / 400) * 400;
    NextYearInEra(y);
    LeapYearInEra(y + 1);
    if t < 399 {
      DaysBeforeYearStep(t + 1);
    } else {
      assert DaysBeforeYear(399) == 145731 && DaysBeforeYear(0) == 0;
    }
  }

  /** February's last day is followed by March 1, which starts a new shifted year. */
  lemma EndOfFebruary(d: Date)
    requires ValidDate(d) && d.month == 2 && d.day == DaysInMonth(d.year, 2)
    ensures DayNumber(Date(d.year, 3, 1)) == DayNumber(d) + 1
  {
    YearStartStep(d.year - 1);
    assert DaysBeforeMonth(11) == 337 && DaysBeforeMonth(0) == 0;
  }

  /** The months after March, from March to January, have the lengths the month starts differ by. */
  lemma MonthLength(d: Date)
    requires 1 <= d.month <= 12 && d.month != 2
    ensures DaysBeforeMonth(ShiftedMonth(d) + 1) - DaysBeforeMonth(ShiftedMonth(d)) == DaysInMonth(d.year, d.month)
  {
    match d.month
    case 1 => assert DaysBeforeMonth(11) - DaysBeforeMonth(10) == 31;
    case 3 => assert DaysBeforeMonth(1) - DaysBeforeMonth(0) == 31;
    case 4 => assert DaysBeforeMonth(2) - DaysBeforeMonth(1) == 30;
    case 5 => assert DaysBeforeMonth(3) - DaysBeforeMonth(2) == 31;
    case 6 => assert DaysBeforeMonth(4) - DaysBeforeMonth(3) == 30;
    case 7 => assert DaysBeforeMonth(5) - DaysBeforeMonth(4) == 31;
    case 8 => assert DaysBeforeMonth(6) - DaysBeforeMonth(5) == 31;
    case 9 => assert DaysBeforeMonth(7) - DaysBeforeMonth(6) == 30;
    case 10 => assert DaysBeforeMonth(8) - DaysBeforeMonth(7) == 31;
    case 11 => assert DaysBeforeMonth(9) - DaysBeforeMonth(8) == 30;
    case 12 => assert DaysBeforeMonth(10) - DaysBeforeMonth(9) == 31;
  }

  /** The last day of a month other than February is followed by the first of the next month. */
  lemma EndOfMonth(d: Date)
    requires ValidDate(d) && d.month != 2 && d.day == DaysInMonth(d.year, d.month)
    ensures DayNumber(NextDay(d)) == DayNumber(d) + 1
  {
    var n := NextDay(d);
    assert ShiftedYear(n) == ShiftedYear(d) && ShiftedMonth(n) == ShiftedMonth(d) + 1;
    MonthLength(d);
  }

  /** Consecutive calendar days have consecutive day numbers. */
  lemma DayNumberNextDay(d: Date)
    requires ValidDate(d)
    ensures DayNumber(NextDay(d)) == DayNumber(d) + 1
  {
    if d.day < DaysInMonth(d.year, d.month) {
    } else if d.month == 2 {
      EndOfFebruary(d);
    } else {
      EndOfMonth(d);
    }
  }

  /** The weekday advances by one, modulo 7, from one calendar day to the next. */
  lemma WeekdayNextDay(d: Date)
    requires ValidDate(d)
    ensures Weekday(DayNumber(NextDay(d))) == (Weekday(DayNumber(d)) + 1) % 7
  {
    DayNumberNextDay(d);
    var n := DayNumber(d);
    var w := Weekday(n);
    SameRemainder(n + 4, w, 7, (n + 4) / 7);
    SameRemainder(n + 5, w + 1, 7, (n + 4) / 7);
  }

  /**
   * The day numbering is anchored to the real calendar: 1970-01-01 is day 0,
   * a Thursday, so weekday 0 falls on real Sundays (2000-01-02, 2025-08-03).
   */
  lemma DayNumberEpoch()
    ensures DayNumber(Date(1970, 1, 1)) == 0 && Weekday(0) == 4
    ensures Weekday(DayNumber(Date(2000, 1, 2))) == 0
    ensures Weekday(DayNumber(Date(2025, 8, 3))) == 0
  {
    assert DaysBeforeYear(369) == 134774 && YearStart(1969) == 719162;
    assert DaysBeforeYear(399) == 145731 && YearStart(1999) == 730119;
    assert DaysBeforeYear(25) == 9131 && YearStart(2025) == 739616;
    assert DaysBeforeMonth(10) == 306 && DaysBeforeMonth(5) == 153;
    assert DayNumber(Date(2000, 1, 2)) == 10958 && DayNumber(Date(2025, 8, 3)) == 20303;
  }
}
