/**
 * The calendar the booking screen relies on, written out instead of the date
 * library: a proleptic Gregorian date record, its successor, a day count and the
 * weekday (0 = Sunday ... 6 = Saturday, the numbering of JavaScript's getDay()).
 */
module Calendar {

  datatype Date = Date(year: nat, month: nat, day: nat)

  /** A minute of a day. Seconds are always zero in this system. */
  datatype Timestamp = Timestamp(date: Date, hour: nat, minute: nat)

  predicate IsLeapYear(y: nat) {
    (y % 4 == 0 && y % 100 != 0) || y % 400 == 0
  }

  function DaysInMonth(y: nat, m: nat): nat {
    if m == 2 then (if IsLeapYear(y) then 29 else 28)
    else if m == 4 || m == 6 || m == 9 || m == 11 then 30
    else 31
  }

  predicate ValidDate(d: Date) {
    d.year >= 1 && 1 <= d.month <= 12 && 1 <= d.day <= DaysInMonth(d.year, d.month)
  }

  predicate ValidTimestamp(t: Timestamp) {
    ValidDate(t.date) && t.hour < 24 && t.minute < 60
  }

  /** The following calendar day (the date library's addDays(d, 1)). */
  function NextDay(d: Date): (r: Date)
    requires ValidDate(d)
    ensures ValidDate(r)
  {
    if d.day < DaysInMonth(d.year, d.month) then d.(day := d.day + 1)
    else if d.month < 12 then Date(d.year, d.month + 1, 1)
    else Date(d.year + 1, 1, 1)
  }

  function YearLength(y: nat): nat {
    if IsLeapYear(y) then 366 else 365
  }

  /** Days from 0001-01-01 to the first day of year y. */
  function DaysBeforeYear(y: nat): nat
    requires y >= 1
  {
    if y == 1 then 0 else DaysBeforeYear(y - 1) + YearLength(y - 1)
  }

  /** Days from the first of January of year y to the first day of month m. */
  function DaysBeforeMonth(y: nat, m: nat): nat
    requires 1 <= m <= 12
  {
    [0, 31, 59, 90, 120, 151, 181, 212, 243, 273, 304, 334][m - 1]
      + (if m > 2 && IsLeapYear(y) then 1 else 0)
  }

  /** Days since 0001-01-01, which is day 0. */
  function DayNumber(d: Date): nat
    requires ValidDate(d)
  {
    DaysBeforeYear(d.year) + DaysBeforeMonth(d.year, d.month) + d.day - 1
  }

  /** 0 = Sunday, ..., 5 = Friday, 6 = Saturday; 0001-01-01 was a Monday. */
  function Weekday(d: Date): (w: nat)
    requires ValidDate(d)
    ensures w < 7
  {
    (DayNumber(d) + 1) % 7
  }

  const Friday: nat := 5

  /** The usual closed form: 365 days a year plus one per leap year before y. */
  lemma {:induction false} DaysBeforeYearClosedForm(y: nat)
    requires y >= 1
    ensures DaysBeforeYear(y) == 365 * (y - 1) + (y - 1) / 4 - (y - 1) / 100 + (y - 1) / 400
  {
    if y > 1 {
      DaysBeforeYearClosedForm(y - 1);
      var x := y - 1;
      assert x / 4 == (x - 1) / 4 + (if x % 4 == 0 then 1 else 0);
      assert x / 100 == (x - 1) / 100 + (if x % 100 == 0 then 1 else 0);
      assert x / 400 == (x - 1) / 400 + (if x % 400 == 0 then 1 else 0);
    }
  }

  lemma MonthStep(y: nat, m: nat)
    requires 1 <= m < 12
    ensures DaysBeforeMonth(y, m + 1) == DaysBeforeMonth(y, m) + DaysInMonth(y, m)
  {
  }

  lemma WholeYear(y: nat)
    ensures DaysBeforeMonth(y, 12) + DaysInMonth(y, 12) == YearLength(y)
  {
  }

  /** Consecutive calendar days have consecutive day numbers. */
  lemma NextDayNumber(d: Date)
    requires ValidDate(d)
    ensures DayNumber(NextDay(d)) == DayNumber(d) + 1
  {
    if d.day == DaysInMonth(d.year, d.month) {
      if d.month < 12 {
        MonthStep(d.year, d.month);
      } else {
        WholeYear(d.year);
      }
    }
  }

  lemma NextWeekday(d: Date)
    requires ValidDate(d)
    ensures Weekday(NextDay(d)) == (Weekday(d) + 1) % 7
  {
    NextDayNumber(d);
    ShiftWeek(DayNumber(d) + 1);
  }

  lemma ShiftWeek(n: int)
    ensures (n + 1) % 7 == (n % 7 + 1) % 7
  {
  }

  /** The anchor of the weekday numbering agrees with a well-known date. */
  lemma UnixEpochWasThursday()
    ensures Weekday(Date(1970, 1, 1)) == 4
  {
    DaysBeforeYearClosedForm(1970);
    assert DaysBeforeYear(1970) == 719162;
    assert DayNumber(Date(1970, 1, 1)) == 719162;
  }
}
