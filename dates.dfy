/** Calendar dates of the proleptic Gregorian calendar, which is the one
    JavaScript's `Date` uses. A date is a (year, month, day) triple with the
    month counted from 1; `DayNumber` counts days from 0001-01-01, so two
    dates compare as their time values do. */
module Dates {
  import opened JsText

  datatype Date = Date(year: int, month: int, day: int)

  predicate IsLeapYear(y: int)
  {
    (y % 4 == 0 && y % 100 != 0) || y % 400 == 0
  }

  /** The number of days of month `m` (1..12) of year `y`. */
  function DaysInMonth(y: int, m: int): (n: int)
    requires 1 <= m <= 12
    ensures 28 <= n <= 31
    ensures m == 2 ==> (n == 29 <==> IsLeapYear(y))
  {
    if m == 2 then (if IsLeapYear(y) then 29 else 28)
    else if m == 4 || m == 6 || m == 9 || m == 11 then 30
    else 31
  }

  /** A date that exists in the calendar. */
  predicate Valid(d: Date)
  {
    1 <= d.month <= 12 && 1 <= d.day <= DaysInMonth(d.year, d.month)
  }

  /** Days in the years before `y`, counted from year 1 (negative before it). */
  function DaysBeforeYear(y: int): int
  {
    365 * (y - 1) + (y - 1) / 4 - (y - 1) / 100 + (y - 1) / 400
  }

  /** Days in the months of year `y` before month `m`. */
  function DaysBeforeMonth(y: int, m: int): (n: int)
    requires 1 <= m <= 13
    ensures 0 <= n <= 31 * (m - 1)
  {
    if m == 1 then 0 else DaysBeforeMonth(y, m - 1) + DaysInMonth(y, m - 1)
  }

  /** Days from 0001-01-01 to `d`. */
  function DayNumber(d: Date): int
    requires 1 <= d.month <= 12
  {
    DaysBeforeYear(d.year) + DaysBeforeMonth(d.year, d.month) + d.day - 1
  }

  /** `getDay()`: 0 for Sunday through 6 for Saturday (0001-01-01 was a Monday). */
  function Weekday(d: Date): (w: int)
    requires 1 <= d.month <= 12
    ensures 0 <= w < 7
  {
    (DayNumber(d) + 1) % 7
  }

  /** The Unix epoch, 1970-01-01, was a Thursday. */
  lemma EpochIsThursday()
    ensures Weekday(Date(1970, 1, 1)) == 4
  {
  }

  /** A year has 366 days when it is a leap year and 365 otherwise. */
  lemma YearLength(y: int)
    ensures DaysBeforeYear(y + 1) - DaysBeforeYear(y) == if IsLeapYear(y) then 366 else 365
  {
    assert y / 4 - (y - 1) / 4 == if y % 4 == 0 then 1 else 0;
    assert y / 100 - (y - 1) / 100 == if y % 100 == 0 then 1 else 0;
    assert y / 400 - (y - 1) / 400 == if y % 400 == 0 then 1 else 0;
  }

  /** The twelve months fill the year exactly. */
  lemma MonthsFillYear(y: int)
    ensures DaysBeforeMonth(y, 13) == DaysBeforeYear(y + 1) - DaysBeforeYear(y)
  {
    YearLength(y);
    var feb := DaysInMonth(y, 2);
    assert DaysBeforeMonth(y, 3) == 31 + feb;
    assert DaysBeforeMonth(y, 5) == 92 + feb;
    assert DaysBeforeMonth(y, 7) == 153 + feb;
    assert DaysBeforeMonth(y, 9) == 215 + feb;
    assert DaysBeforeMonth(y, 11) == 276 + feb;
    assert DaysBeforeMonth(y, 13) == 337 + feb;
  }

  /** The first day of the following month comes right after the last day of
      this one, across the turn of the year too. */
  lemma NextMonthStart(y: int, m: int)
    requires 1 <= m <= 12
    ensures var next := if m == 12 then Date(y + 1, 1, 1) else Date(y, m + 1, 1);
            DayNumber(next) == DayNumber(Date(y, m, 1)) + DaysInMonth(y, m)
  {
    if m == 12 {
      MonthsFillYear(y);
    }
  }

  /** Years begin in order. */
  lemma {:induction false} YearStartMonotone(y: int, z: int)
    requires y <= z
    ensures DaysBeforeYear(y) + (z - y) * 365 <= DaysBeforeYear(z)
    decreases z - y
  {
    if y < z {
      YearStartMonotone(y, z - 1);
      YearLength(z - 1);
    }
  }

  /** Months of one year begin in order, each after the previous one ends. */
  lemma {:induction false} MonthStartMonotone(y: int, m: int, k: int)
    requires 1 <= m <= k <= 13
    ensures DaysBeforeMonth(y, m) + 28 * (k - m) <= DaysBeforeMonth(y, k)
    ensures m < k ==> DaysBeforeMonth(y, m) + DaysInMonth(y, m) <= DaysBeforeMonth(y, k)
    decreases k - m
  {
    if m < k {
      MonthStartMonotone(y, m, k - 1);
    }
  }

  /** Field-wise order on (year, month, day). */
  predicate LessEq(a: Date, b: Date)
  {
    a.year < b.year
    || (a.year == b.year && (a.month < b.month || (a.month == b.month && a.day <= b.day)))
  }

  /** On valid dates the field-wise order is the order of the time values
      that `new Date(...)` comparisons use. */
  lemma LessEqIffDayNumber(a: Date, b: Date)
    requires Valid(a) && Valid(b)
    ensures LessEq(a, b) <==> DayNumber(a) <= DayNumber(b)
  {
    if a.year < b.year {
      MonthStartMonotone(a.year, a.month, 13);
      MonthsFillYear(a.year);
      YearStartMonotone(a.year + 1, b.year);
    } else if b.year < a.year {
      MonthStartMonotone(b.year, b.month, 13);
      MonthsFillYear(b.year);
      YearStartMonotone(b.year + 1, a.year);
    } else if a.month < b.month {
      MonthStartMonotone(a.year, a.month, b.month);
    } else if b.month < a.month {
      MonthStartMonotone(a.year, b.month, a.month);
    }
  }

  /** A natural number written with at least two digits (`padStart(2, '0')`). */
  function Pad2(n: nat): (s: string)
    ensures |s| >= 2
  {
    PadStart(NatToString(n), 2, '0')
  }

  /** The `YYYY-MM-DD` part of `toISOString()`: a four-digit year for years
      0..9999, otherwise a signed six-digit year. */
  function IsoDateString(d: Date): string
    requires Valid(d)
  {
    var y := if 0 <= d.year <= 9999 then PadStart(NatToString(d.year), 4, '0')
             else (if d.year < 0 then "-" else "+") + PadStart(NatToString(if d.year < 0 then -d.year else d.year), 6, '0');
    y + "-" + Pad2(d.month) + "-" + Pad2(d.day)
  }
}
