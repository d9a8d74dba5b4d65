/**
 * UTC dates as ECMAScript decomposes them, and the month arithmetic billing periods rest on.
 * A date is an absolute month index (year * 12 + month), a day of that month and a time of day;
 * `Instant` maps it to milliseconds since the epoch and `InstantOrder` shows the two orders agree.
 */
module Calendar {
  import opened Rounding

  const MS_PER_DAY := 86_400_000

  datatype Date = Date(month: int, day: int, ms: int) {
    predicate Valid() {
      1 <= day <= DaysInMonth(month) && 0 <= ms < MS_PER_DAY
    }
  }

  /** The dates JavaScript can hold as valid `Date` objects, up to its range limit. */
  type UtcDate = d: Date | d.Valid() witness Date(1970 * 12, 1, 0)

  predicate IsLeap(year: int) {
    year % 4 == 0 && (year % 100 != 0 || year % 400 == 0)
  }

  /** Length of an absolute month under the Gregorian rule. */
  function DaysInMonth(month: int): (days: int)
    ensures 28 <= days <= 31
  {
    var m := month % 12;
    if m == 1 then (if IsLeap(month / 12) then 29 else 28)
    else if m == 3 || m == 5 || m == 8 || m == 10 then 30
    else 31
  }

  // ---------- Days and instants since the epoch ----------

  /** DayFromYear of ECMAScript: the day number of 1 January, floor divisions throughout. */
  function DayFromYear(year: int): int {
    365 * (year - 1970) + (year - 1969) / 4 - (year - 1901) / 100 + (year - 1601) / 400
  }

  function DaysBeforeMonth(m: int, leap: bool): int
    requires 0 <= m < 12
  {
    [0, 31, 59, 90, 120, 151, 181, 212, 243, 273, 304, 334][m] + (if leap && m >= 2 then 1 else 0)
  }

  function FirstDay(month: int): int {
    DayFromYear(month / 12) + DaysBeforeMonth(month % 12, IsLeap(month / 12))
  }

  function Instant(d: Date): int {
    (FirstDay(d.month) + d.day - 1) * MS_PER_DAY + d.ms
  }

  /** 1 January 1970 at midnight is the instant zero. */
  lemma EpochIsZero()
    ensures Instant(Date(1970 * 12, 1, 0)) == 0
  {}

  lemma Step4(year: int)
    ensures (year - 1968) / 4 - (year - 1969) / 4 == if year % 4 == 0 then 1 else 0
  {}

  lemma Step100(year: int)
    ensures (year - 1900) / 100 - (year - 1901) / 100 == if year % 100 == 0 then 1 else 0
  {}

  lemma Step400(year: int)
    ensures (year - 1600) / 400 - (year - 1601) / 400 == if year % 400 == 0 then 1 else 0
  {}

  lemma CenturiesDivide(q: int)
    ensures (400 * q) % 100 == 0 && (100 * q) % 4 == 0
  {}

  lemma YearStep(year: int)
    ensures DayFromYear(year + 1) - DayFromYear(year)
         == 365 + ((year - 1968) / 4 - (year - 1969) / 4) - ((year - 1900) / 100 - (year - 1901) / 100)
          + ((year - 1600) / 400 - (year - 1601) / 400)
  {}

  lemma YearLength(year: int)
    ensures DayFromYear(year + 1) - DayFromYear(year) == if IsLeap(year) then 366 else 365
  {
    hide DayFromYear;
    YearStep(year);
    Step4(year);
    Step100(year);
    Step400(year);
    CenturiesDivide(year / 400);
    CenturiesDivide(year / 100);
  }

  /** The epoch table and the leap rule describe the same months. */
  lemma MonthLength(month: int)
    ensures FirstDay(month + 1) - FirstDay(month) == DaysInMonth(month)
  {
    var y, m := month / 12, month % 12;
    if m == 11 {
      assert (month + 1) / 12 == y + 1 && (month + 1) % 12 == 0;
      YearLength(y);
    } else {
      assert (month + 1) / 12 == y && (month + 1) % 12 == m + 1;
    }
  }

  lemma {:induction false} MonthsAreDisjoint(a: int, b: int)
    requires a < b
    ensures FirstDay(a) + DaysInMonth(a) <= FirstDay(b)
    decreases b - a
  {
    hide FirstDay, DaysInMonth;
    MonthLength(b - 1);
    if a < b - 1 {
      MonthsAreDisjoint(a, b - 1);
    }
  }

  predicate DayBefore(a: Date, b: Date) {
    a.month < b.month || (a.month == b.month && a.day < b.day)
  }

  predicate Before(a: Date, b: Date) {
    DayBefore(a, b) || (a.month == b.month && a.day == b.day && a.ms < b.ms)
  }

  predicate NotAfter(a: Date, b: Date) {
    a == b || Before(a, b)
  }

  /** Comparing the parts left to right is comparing `getTime()`. */
  lemma InstantOrder(a: Date, b: Date)
    requires a.Valid() && b.Valid()
    ensures Before(a, b) <==> Instant(a) < Instant(b)
    ensures a == b <==> Instant(a) == Instant(b)
  {
    if a.month < b.month {
      MonthsAreDisjoint(a.month, b.month);
    } else if b.month < a.month {
      MonthsAreDisjoint(b.month, a.month);
    }
  }

  // ---------- addMonths ----------

  /** `Date.UTC` reads a year of 0 to 99 as 1900 to 1999. */
  function UtcYear(year: int): int {
    if 0 <= year <= 99 then 1900 + year else year
  }

  /** The last day of a month as the code asks for it: `new Date(Date.UTC(year, m + 1, 0)).getUTCDate()`. */
  function LastDateUtc(year: int, m: int): int {
    var month := UtcYear(year) * 12 + m;
    FirstDay(month + 1) - FirstDay(month)
  }

  /** 1900 is the only year the two-digit rule substitutes for one of the other leapness. */
  lemma UtcYearLeap(year: int)
    ensures IsLeap(UtcYear(year)) == (IsLeap(year) && year != 0)
  {}

  function AddMonths(d: Date, months: int): Date {
    var absolute := d.month + months;
    var year := absolute / 12;
    var m := absolute - year * 12;
    Date(year * 12 + m, Min(d.day, LastDateUtc(year, m)), d.ms)
  }

  /** The last day a clamped date may fall on: the month's length, but 28 in February of year 0. */
  function LastDay(month: int): (day: int)
    ensures 28 <= day <= DaysInMonth(month)
  {
    if month == 1 then 28 else DaysInMonth(month)
  }

  /** Day 0 of the next month is the last of this one, except that year 0 is read as 1900 and loses its leap day. */
  lemma LastDateIsMonthLength(month: int)
    ensures LastDateUtc(month / 12, month % 12) == LastDay(month)
    ensures LastDay(month) == DaysInMonth(month) <==> month != 1
  {
    hide FirstDay;
    var y, m := month / 12, month % 12;
    MonthLength(UtcYear(y) * 12 + m);
    assert (UtcYear(y) * 12 + m) / 12 == UtcYear(y);
    UtcYearLeap(y);
  }

  /** The month is exactly `months` later, the time of day is kept, and the day is clamped to the last of that month. */
  lemma AddMonthsLands(d: Date, months: int)
    requires d.Valid()
    ensures var r := AddMonths(d, months);
      && r.Valid()
      && r.month == d.month + months
      && r.ms == d.ms
      && r.day == Min(d.day, LastDay(r.month))
      && (r.day == Min(d.day, DaysInMonth(r.month)) <==> !(r.month == 1 && d.day >= 29))
      && (d.day <= 28 ==> r.day == d.day)
  {
    hide LastDateUtc;
    LastDateIsMonthLength(d.month + months);
  }

  /** `end` is `months` whole months after `start`: same time of day, same day or the last of a month too short for it. */
  predicate LastsMonths(start: Date, end: Date, months: int) {
    end.month == start.month + months && end.ms == start.ms && end.day == Min(start.day, LastDay(end.month))
  }

  lemma AddMonthsAdvances(d: Date, months: int)
    requires d.Valid() && months >= 1
    ensures Before(d, AddMonths(d, months))
    ensures Instant(d) < Instant(AddMonths(d, months))
  {
    AddMonthsLands(d, months);
    InstantOrder(d, AddMonths(d, months));
  }

  /** A later calendar day never lands on an earlier one. */
  lemma AddMonthsMonotoneByDay(a: Date, b: Date, months: int)
    requires a.Valid() && b.Valid() && !DayBefore(b, a)
    ensures !DayBefore(AddMonths(b, months), AddMonths(a, months))
  {
    hide LastDateUtc, DaysInMonth;
    LastDateIsMonthLength(a.month + months);
    AddMonthsLands(a, months);
    AddMonthsLands(b, months);
  }

  /**
   * Instants can swap: exactly when two days of one month both reach the last of the target month and
   * the earlier day carried the later time of day.
   */
  lemma AddMonthsSwapsInstants(a: Date, b: Date, months: int)
    requires a.Valid() && b.Valid() && NotAfter(a, b)
    ensures Instant(AddMonths(b, months)) < Instant(AddMonths(a, months))
       <==> a.month == b.month && a.day < b.day && a.ms > b.ms && LastDay(b.month + months) <= a.day
  {
    hide LastDateUtc, DaysInMonth;
    AddMonthsLands(a, months);
    AddMonthsLands(b, months);
    InstantOrder(AddMonths(b, months), AddMonths(a, months));
  }

  /** 30 January 23:00 and 31 January 01:00 of 2026, one month on. */
  lemma SwapHappens()
    ensures var a, b := Date(2026 * 12, 30, 23 * 3_600_000), Date(2026 * 12, 31, 3_600_000);
      && Before(a, b) && Before(AddMonths(b, 1), AddMonths(a, 1))
  {
    var a, b := Date(2026 * 12, 30, 23 * 3_600_000), Date(2026 * 12, 31, 3_600_000);
    hide LastDateUtc;
    AddMonthsLands(a, 1);
    AddMonthsLands(b, 1);
  }

  /**
   * Adding in two steps reaches the same month on a day no later. It is the same date exactly when the
   * month stopped at is long enough for the day, or at least as long as the month arrived at.
   */
  lemma AddMonthsComposes(d: Date, m: int, n: int)
    requires d.Valid()
    ensures var two, one := AddMonths(AddMonths(d, m), n), AddMonths(d, m + n);
      && two.month == one.month && two.ms == one.ms && two.day <= one.day
      && (two == one <==> d.day <= LastDay(d.month + m) || LastDay(d.month + m + n) <= LastDay(d.month + m))
      && (d.day <= 28 ==> two == one)
  {
    hide LastDateUtc, DaysInMonth;
    AddMonthsLands(d, m);
    AddMonthsLands(AddMonths(d, m), n);
    AddMonthsLands(d, m + n);
  }

  /** 31 January 2026: a month and a month is 28 March, two months is 31 March. */
  lemma StopShortensTheMonth()
    ensures var d := Date(2026 * 12, 31, 0);
      AddMonths(AddMonths(d, 1), 1).day == 28 && AddMonths(d, 2).day == 31
  {
    var d := Date(2026 * 12, 31, 0);
    hide LastDateUtc;
    AddMonthsLands(d, 1);
    AddMonthsLands(AddMonths(d, 1), 1);
    AddMonthsLands(d, 2);
  }
}
