/**
 * The proleptic Gregorian calendar as Go's time package reads it: dates, their
 * position on the day line, and the weekday. Day 0 is Monday, 1 January of year 1.
 */
module Calendar {
  import opened Arith

  datatype Date = Date(y: int, m: int, d: int)

  predicate IsLeap(y: int) { y % 4 == 0 && (y % 100 != 0 || y % 400 == 0) }

  function MonthLength(y: int, m: int): (n: int)
    requires 1 <= m <= 12
    ensures 28 <= n <= 31
  {
    if m == 2 then (if IsLeap(y) then 29 else 28)
    else if m == 4 || m == 6 || m == 9 || m == 11 then 30
    else 31
  }

  predicate ValidDate(x: Date) {
    1 <= x.m <= 12 && 1 <= x.d <= MonthLength(x.y, x.m)
  }

  /** Chronological order of dates, field by field. */
  predicate Before(a: Date, b: Date) {
    a.y < b.y || (a.y == b.y && (a.m < b.m || (a.m == b.m && a.d < b.d)))
  }

  // ----- position on the day line -----

  function YearDays(y: int): int { if IsLeap(y) then 366 else 365 }

  function DaysBeforeYear(y: int): int
    decreases if y < 1 then 1 - y else y - 1
  {
    if y == 1 then 0
    else if y > 1 then DaysBeforeYear(y - 1) + YearDays(y - 1)
    else DaysBeforeYear(y + 1) - YearDays(y)
  }

  function DaysBeforeMonth(y: int, m: int): (n: int)
    requires 1 <= m <= 12
    ensures 0 <= n
  {
    if m == 1 then 0 else DaysBeforeMonth(y, m - 1) + MonthLength(y, m - 1)
  }

  function DayIndex(x: Date): int
    requires 1 <= x.m <= 12
  {
    DaysBeforeYear(x.y) + DaysBeforeMonth(x.y, x.m) + x.d - 1
  }

  /** Sunday is 0. */
  function Weekday(day: int): (wd: nat)
    ensures wd < 7
  {
    (day + 1) % 7
  }

  lemma YearLength(y: int)
    ensures DaysBeforeYear(y + 1) == DaysBeforeYear(y) + YearDays(y)
  {
  }

  /** The closed form: a leap day every 4 years, but not every 100, yet every 400. */
  lemma {:induction false} DaysBeforeYearClosed(y: int)
    ensures DaysBeforeYear(y) == 365 * (y - 1) + (y - 1) / 4 - (y - 1) / 100 + (y - 1) / 400
    decreases if y < 1 then 1 - y else y - 1
  {
    if y > 1 {
      DaysBeforeYearClosed(y - 1);
      LeapDays(y - 1);
    } else if y < 1 {
      DaysBeforeYearClosed(y + 1);
      LeapDays(y);
    }
  }

  lemma QuotientSteps(y: int, n: int)
    requires n > 1
    ensures y / n - (y - 1) / n == if y % n == 0 then 1 else 0
  {
    var q, r := y / n, y % n;
    if r == 0 {
      assert y - 1 == (q - 1) * n + (n - 1);
      DivModUnique(y - 1, n, q - 1, n - 1);
    } else {
      DivModUnique(y - 1, n, q, r - 1);
    }
  }

  lemma Multiples(y: int)
    ensures y % 400 == 0 ==> y % 100 == 0
    ensures y % 100 == 0 ==> y % 4 == 0
  {
  }

  lemma LeapDays(y: int)
    ensures YearDays(y) == 365 + (y / 4 - (y - 1) / 4) - (y / 100 - (y - 1) / 100) + (y / 400 - (y - 1) / 400)
  {
    QuotientSteps(y, 4);
    QuotientSteps(y, 100);
    QuotientSteps(y, 400);
    Multiples(y);
  }

  lemma MonthsFillYear(y: int)
    ensures DaysBeforeMonth(y, 12) + 31 == YearDays(y)
  {
    assert DaysBeforeMonth(y, 2) == 31;
    assert DaysBeforeMonth(y, 3) == 59 + if IsLeap(y) then 1 else 0;
    assert DaysBeforeMonth(y, 4) == DaysBeforeMonth(y, 3) + 31;
    assert DaysBeforeMonth(y, 6) == DaysBeforeMonth(y, 4) + 61;
    assert DaysBeforeMonth(y, 8) == DaysBeforeMonth(y, 6) + 61;
    assert DaysBeforeMonth(y, 10) == DaysBeforeMonth(y, 8) + 61;
  }

  /** Counted from 1 March the months run 31, 30, 31, 30, 31 over and over. */
  lemma DaysBeforeMonthClosed(y: int, m: int)
    requires 1 <= m <= 12
    ensures DaysBeforeMonth(y, m) == if m <= 2 then 31 * (m - 1)
                                     else 59 + (if IsLeap(y) then 1 else 0) + (153 * (m - 3) + 2) / 5
  {
    if m > 4 {
      DaysBeforeMonthClosed(y, m - 1);
    } else if m > 2 {
      assert DaysBeforeMonth(y, 2) == 31 && DaysBeforeMonth(y, 3) == 59 + if IsLeap(y) then 1 else 0;
    }
  }

  /** The whole count in closed form: no walk over years or months. */
  lemma DayIndexClosed(x: Date)
    requires ValidDate(x)
    ensures var leaps := (x.y - 1) / 4 - (x.y - 1) / 100 + (x.y - 1) / 400;
            var leap := if x.y % 400 == 0 || (x.y % 4 == 0 && x.y % 100 != 0) then 1 else 0;
            DayIndex(x) == 365 * (x.y - 1) + leaps
                           + (if x.m <= 2 then 31 * (x.m - 1) else 59 + leap + (153 * (x.m - 3) + 2) / 5)
                           + x.d - 1
  {
    DaysBeforeYearClosed(x.y);
    DaysBeforeMonthClosed(x.y, x.m);
    Multiples(x.y);
  }

  // ----- weekdays -----

  /** The day of 1 January 1970. */
  const EPOCH_DAY := 719162

  /** 1 January 1970 was a Thursday. */
  lemma EpochIsAThursday()
    ensures DayIndex(Date(1970, 1, 1)) == EPOCH_DAY && Weekday(EPOCH_DAY) == 4
  {
    DayIndexClosed(Date(1970, 1, 1));
  }

  /** Every other weekday is counted from there. */
  lemma WeekdayCountsFromTheEpoch(day: int)
    ensures Weekday(day) == (day - EPOCH_DAY + 4) % 7
  {
  }

  // ----- stepping -----

  function NextMonth(y: int, m: int): (int, int) {
    if m == 12 then (y + 1, 1) else (y, m + 1)
  }

  function NextDate(x: Date): (r: Date)
    requires ValidDate(x)
    ensures ValidDate(r)
  {
    if x.d < MonthLength(x.y, x.m) then Date(x.y, x.m, x.d + 1)
    else var (y, m) := NextMonth(x.y, x.m); Date(y, m, 1)
  }

  function PrevDate(x: Date): (r: Date)
    requires ValidDate(x)
    ensures ValidDate(r)
  {
    if x.d > 1 then Date(x.y, x.m, x.d - 1)
    else if x.m > 1 then Date(x.y, x.m - 1, MonthLength(x.y, x.m - 1))
    else Date(x.y - 1, 12, 31)
  }

  /** The first of the next month comes right after the last day of this one. */
  lemma NextMonthIndex(y: int, m: int)
    requires 1 <= m <= 12
    ensures var (y', m') := NextMonth(y, m);
            1 <= m' <= 12 && DayIndex(Date(y', m', 1)) == DayIndex(Date(y, m, 1)) + MonthLength(y, m)
  {
    if m == 12 {
      YearLength(y);
      MonthsFillYear(y);
    }
  }

  lemma NextDateIndex(x: Date)
    requires ValidDate(x)
    ensures DayIndex(NextDate(x)) == DayIndex(x) + 1
  {
    NextMonthIndex(x.y, x.m);
  }

  /** The next date falls on the next weekday. */
  lemma WeekdayAdvances(x: Date)
    requires ValidDate(x)
    ensures Weekday(DayIndex(NextDate(x))) == (Weekday(DayIndex(x)) + 1) % 7
  {
    NextDateIndex(x);
    WeekdayOfNext(DayIndex(x), DayIndex(NextDate(x)));
  }

  lemma WeekdayOfNext(day: int, next: int)
    requires next == day + 1
    ensures Weekday(next) == (Weekday(day) + 1) % 7
  {
  }

  lemma NextOfPrev(x: Date)
    requires ValidDate(x)
    ensures NextDate(PrevDate(x)) == x
  {
  }

  /** The date of a day, by walking the calendar from day 0. */
  function Civil(day: int): (x: Date)
    ensures ValidDate(x)
    decreases if day < 0 then -day else day
  {
    if day == 0 then Date(1, 1, 1)
    else if day > 0 then NextDate(Civil(day - 1))
    else PrevDate(Civil(day + 1))
  }

  lemma IndexAfter(x: Date, y: Date)
    requires ValidDate(x) && y == NextDate(x)
    ensures DayIndex(y) == DayIndex(x) + 1
  {
    NextDateIndex(x);
  }

  lemma {:induction false} IndexOfCivil(day: int)
    ensures DayIndex(Civil(day)) == day
    decreases if day < 0 then -day else day
  {
    if day > 0 {
      IndexOfCivil(day - 1);
      IndexAfter(Civil(day - 1), Civil(day));
    } else if day < 0 {
      IndexOfCivil(day + 1);
      NextOfPrev(Civil(day + 1));
      IndexAfter(Civil(day), Civil(day + 1));
    } else {
      assert DayIndex(Date(1, 1, 1)) == 0;
    }
  }

  lemma CivilNext(day: int)
    ensures Civil(day + 1) == NextDate(Civil(day))
  {
    if day < 0 {
      NextOfPrev(Civil(day + 1));
    }
  }

  lemma {:induction false} MonthsGrow(y: int, m: int, n: int)
    requires 1 <= m < n <= 12
    ensures DaysBeforeMonth(y, m) + MonthLength(y, m) <= DaysBeforeMonth(y, n)
    decreases n
  {
    if m < n - 1 {
      MonthsGrow(y, m, n - 1);
    }
  }

  lemma {:induction false} YearsGrow(y: int, z: int)
    requires y < z
    ensures DaysBeforeYear(y) + YearDays(y) <= DaysBeforeYear(z)
    decreases z - y
  {
    YearLength(z - 1);
    if y < z - 1 {
      YearsGrow(y, z - 1);
    }
  }

  /** A date stays inside its year. */
  lemma DateInsideYear(x: Date)
    requires ValidDate(x)
    ensures 0 <= DayIndex(x) - DaysBeforeYear(x.y) < YearDays(x.y)
  {
    MonthsFillYear(x.y);
    if x.m < 12 {
      MonthsGrow(x.y, x.m, 12);
    }
  }

  /** The day line orders valid dates exactly as their fields do. */
  lemma IndexOrdersDates(a: Date, b: Date)
    requires ValidDate(a) && ValidDate(b)
    ensures Before(a, b) <==> DayIndex(a) < DayIndex(b)
    ensures a == b <==> DayIndex(a) == DayIndex(b)
  {
    if Before(a, b) {
      BeforeMeansLess(a, b);
    } else if Before(b, a) {
      BeforeMeansLess(b, a);
    }
  }

  lemma BeforeMeansLess(a: Date, b: Date)
    requires ValidDate(a) && ValidDate(b) && Before(a, b)
    ensures DayIndex(a) < DayIndex(b)
  {
    if a.y < b.y {
      DateInsideYear(a);
      DateInsideYear(b);
      YearsGrow(a.y, b.y);
    } else if a.m < b.m {
      MonthsGrow(a.y, a.m, b.m);
    }
  }

  /** Walking and counting agree: a valid date is the date of its own index. */
  lemma CivilOfIndex(x: Date)
    requires ValidDate(x)
    ensures Civil(DayIndex(x)) == x
  {
    IndexOfCivil(DayIndex(x));
    IndexOrdersDates(Civil(DayIndex(x)), x);
  }

  lemma DayOfMonthIndex(y: int, m: int, d: int)
    requires 1 <= m <= 12
    ensures DayIndex(Date(y, m, d)) == DayIndex(Date(y, m, 1)) + d - 1
  {
  }

  /** Inside a month, days of the line are days of the month. */
  lemma CivilInsideMonth(y: int, m: int, day: int)
    requires 1 <= m <= 12
    requires DayIndex(Date(y, m, 1)) <= day < DayIndex(Date(y, m, 1)) + MonthLength(y, m)
    ensures Civil(day) == Date(y, m, 1 + day - DayIndex(Date(y, m, 1)))
  {
    var x := Date(y, m, 1 + day - DayIndex(Date(y, m, 1)));
    DayOfMonthIndex(y, m, x.d);
    assert DayIndex(x) == day;
    CivilOfIndex(x);
  }

  /** Neighbouring days never share a day of month. */
  lemma NeighboursDiffer(a: int, b: int)
    requires -1 <= a - b <= 1 && Civil(a).d == Civil(b).d
    ensures a == b
  {
    CivilNext(a);
    CivilNext(b);
  }

  // ----- Go's normalising constructor -----

  /** Months out of range carry into the year. */
  function NormalMonth(y: int, m: int): (r: (int, int))
    ensures 1 <= r.1 <= 12
  {
    (y + (m - 1) / 12, (m - 1) % 12 + 1)
  }

  /** The day time.Date(y, m, d, ...) lands on: months and days out of range carry over. */
  function NormalDay(y: int, m: int, d: int): int {
    DayIndex(Date(NormalMonth(y, m).0, NormalMonth(y, m).1, 1)) + d - 1
  }

  lemma NormalMonthOfNext(y: int, m: int)
    requires 1 <= m <= 12
    ensures NormalMonth(y, m) == (y, m) && NormalMonth(y, m + 1) == NextMonth(y, m)
  {
  }

  /** The day before the first of the following month, as time.Date(y, m + 1, 0, ...) names it. */
  lemma DayZeroOfNextMonth(y: int, m: int)
    requires 1 <= m <= 12
    ensures NormalDay(y, m + 1, 0) == DayIndex(Date(y, m, 1)) + MonthLength(y, m) - 1
  {
    NormalMonthOfNext(y, m);
    NextMonthIndex(y, m);
  }
}
