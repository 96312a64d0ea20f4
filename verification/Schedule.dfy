/**
 * The walk over one window of a cadence: how many firings it finds, the newest of them, and
 * which windows lie within the search horizon, where the walk is exact.
 */
module Schedule {
  import opened Text
  import opened Calendar
  import opened Cron

  const MATCH_CAP: nat := 1000

  // ----- walking a window -----

  /** The wall minutes at which e fires in (lo, hi]. */
  ghost function Firings(e: Expr, loc: Location, lo: int, hi: int): set<int> {
    set w | loc.DayOf(lo) * MINUTES_PER_DAY <= w < (loc.DayOf(hi) + 1) * MINUTES_PER_DAY && Fires(e, loc, w, lo, hi)
  }

  lemma FiringsAreAll(e: Expr, loc: Location, lo: int, hi: int)
    requires loc.DayOrdered()
    ensures forall w :: w in Firings(e, loc, lo, hi) <==> Fires(e, loc, w, lo, hi)
  {
    forall w | Fires(e, loc, w, lo, hi)
      ensures loc.DayOf(lo) * MINUTES_PER_DAY <= w < (loc.DayOf(hi) + 1) * MINUTES_PER_DAY
    {
      assert loc.DayOf(lo) <= w / MINUTES_PER_DAY <= loc.DayOf(hi);
    }
  }

  /** Every instant of the window can see its end within the search horizon. */
  ghost predicate WithinHorizon(loc: Location, lo: int, hi: int) {
    forall t | lo <= t <= hi :: hi <= loc.AddYears(t, SEARCH_YEARS)
  }

  /** Result of a walk: the newest firing found, how many, and whether the walk gave up at the bound. */
  datatype Walk = Walk(latest: Option<int>, n: nat, capped: bool)

  /** t is the newest firing of (lo, t]. */
  ghost predicate IsFiringInstant(e: Expr, loc: Location, t: int, lo: int) {
    Fires(e, loc, loc.MinuteOf(t), lo, t) && loc.Start(loc.MinuteOf(t)) == t
  }

  /** What every walk guarantees: its answer is a firing of the window, and zero means no answer. */
  ghost predicate WalkSound(e: Expr, loc: Location, lo: int, hi: int, r: Walk) {
    && (r.n == 0 <==> r.latest.None?)
    && (r.latest.Some? ==> lo < r.latest.value <= hi && IsFiringInstant(e, loc, r.latest.value, lo))
  }

  /** What a walk guarantees of a window inside the search horizon: exact counts, the newest firing. */
  ghost predicate WalkOf(e: Expr, loc: Location, lo: int, hi: int, limit: nat, r: Walk) {
    && WalkSound(e, loc, lo, hi, r)
    && (r.capped <==> |Firings(e, loc, lo, hi)| >= limit)
    && (!r.capped ==> r.n == |Firings(e, loc, lo, hi)|)
    && (!r.capped && r.latest.Some? ==> Firings(e, loc, r.latest.value, hi) == {})
    && (r.capped ==> r.latest.Some? && r.n == limit == |Firings(e, loc, lo, r.latest.value)|)
  }

  lemma FiringsExtend(e: Expr, loc: Location, lo: int, mid: int, hi: int)
    requires loc.DayOrdered() && lo <= mid <= hi
    ensures Firings(e, loc, lo, hi) == Firings(e, loc, lo, mid) + Firings(e, loc, mid, hi)
    ensures Firings(e, loc, lo, mid) !! Firings(e, loc, mid, hi)
  {
    FiringsAreAll(e, loc, lo, hi);
    FiringsAreAll(e, loc, lo, mid);
    FiringsAreAll(e, loc, mid, hi);
  }

  /** Between an instant and its earliest next firing lies that firing alone. */
  lemma OnlyTheEarliest(e: Expr, loc: Location, t: int, lo: int, hi: int)
    requires loc.Regular() && EarliestFiring(e, loc, t, lo, hi)
    ensures Firings(e, loc, lo, t) == {loc.MinuteOf(t)} && IsFiringInstant(e, loc, t, lo) && lo < t <= hi
  {
    FiringsAreAll(e, loc, lo, t);
    var w :| IsEarliest(e, loc, w, t, lo, hi);
    forall v | Fires(e, loc, v, lo, t) ensures v == w {
      assert Fires(e, loc, v, lo, hi);
      assert loc.Start(v) == loc.Start(w);
      assert v < w ==> loc.Start(v) < loc.Start(w);
    }
  }

  /** The walk so far: it has reached t and found the n firings up to it. */
  ghost predicate WalkedTo(e: Expr, loc: Location, from: int, t: int, latest: Option<int>, n: nat) {
    && from <= t
    && |Firings(e, loc, from, t)| == n
    && (n == 0 <==> latest.None?)
    && (latest.Some? ==> latest.value == t && from < t && IsFiringInstant(e, loc, t, from))
    && (latest.None? ==> t == from)
  }

  lemma WalkOneMore(e: Expr, loc: Location, from: int, t: int, latest: Option<int>, n: nat, next: int, hi: int)
    requires loc.Regular() && WalkedTo(e, loc, from, t, latest, n) && EarliestFiring(e, loc, next, t, hi)
    ensures t < next <= hi && WalkedTo(e, loc, from, next, Some(next), n + 1)
  {
    OnlyTheEarliest(e, loc, next, t, hi);
    FiringsExtend(e, loc, from, t, next);
  }

  lemma WalkDone(e: Expr, loc: Location, from: int, t: int, to: int, limit: nat, latest: Option<int>, n: nat)
    requires loc.Regular() && WalkedTo(e, loc, from, t, latest, n) && t <= to && n < limit
    requires Firings(e, loc, t, to) == {}
    ensures WalkOf(e, loc, from, to, limit, Walk(latest, n, false))
  {
    FiringsExtend(e, loc, from, t, to);
    assert Firings(e, loc, from, to) == Firings(e, loc, from, t);
  }

  lemma WalkCapped(e: Expr, loc: Location, from: int, t: int, to: int, limit: nat)
    requires loc.Regular() && limit >= 1 && WalkedTo(e, loc, from, t, Some(t), limit) && t <= to
    ensures WalkOf(e, loc, from, to, limit, Walk(Some(t), limit, true))
  {
    FiringsExtend(e, loc, from, t, to);
    SubsetIsSmaller(Firings(e, loc, from, t), Firings(e, loc, from, to));
  }

  method CronMatchesIn(e: Expr, loc: Location, from: int, to: int, limit: nat) returns (r: Walk)
    requires loc.Regular() && limit >= 1
    ensures WalkSound(e, loc, from, to, r)
    ensures WithinHorizon(loc, from, to) ==> WalkOf(e, loc, from, to, limit, r)
  {
    var t := from;
    var latest: Option<int> := None;
    var n := 0;
    FiringsAreAll(e, loc, from, from);
    FiringsAreAll(e, loc, from, to);
    while true
      invariant n < limit && WalkedTo(e, loc, from, t, latest, n) && (t <= to || n == 0)
      decreases limit - n
    {
      var next := Next(e, loc, t);
      if next.None? || next.value > to {
        if WithinHorizon(loc, from, to) && from <= to {
          NothingLeft(e, loc, next, t, to);
          WalkDone(e, loc, from, t, to, limit, latest, n);
        }
        return Walk(latest, n, false);
      }
      WalkOneMore(e, loc, from, t, latest, n, next.value, loc.AddYears(t, SEARCH_YEARS));
      t := next.value;
      latest, n := Some(t), n + 1;
      if n >= limit {
        WalkCapped(e, loc, from, t, to, limit);
        return Walk(latest, n, true);
      }
    }
  }

  lemma NothingLeft(e: Expr, loc: Location, next: Option<int>, t: int, to: int)
    requires loc.Regular() && to <= loc.AddYears(t, SEARCH_YEARS)
    requires Answers(e, loc, next, t, loc.AddYears(t, SEARCH_YEARS))
    requires next.None? || next.value > to
    ensures Firings(e, loc, t, to) == {}
  {
    FiringsAreAll(e, loc, t, to);
    forall w ensures !Fires(e, loc, w, t, to) {
      if Fires(e, loc, w, t, to) {
        assert Fires(e, loc, w, t, loc.AddYears(t, SEARCH_YEARS));
      }
    }
  }

  lemma SubsetIsSmaller<T>(a: set<T>, b: set<T>)
    requires a <= b
    ensures |a| <= |b|
  {
    if a != {} {
      var x :| x in a;
      SubsetIsSmaller(a - {x}, b - {x});
    }
  }

  // ----- the search horizon at a fixed offset -----

  lemma {:induction false} FiveYearsAreLong(y: int, n: nat)
    ensures DaysBeforeYear(y + n) >= DaysBeforeYear(y) + 365 * n
    ensures n >= 1 && IsLeap(y) ==> DaysBeforeYear(y + n) >= DaysBeforeYear(y) + 365 * n + 1
  {
    if n > 0 {
      FiveYearsAreLong(y, n - 1);
      YearLength(y + n - 1);
    }
  }

  lemma {:induction false} MonthsOfYearsDiffer(y: int, z: int, m: int)
    requires 1 <= m <= 12
    ensures DaysBeforeMonth(z, m) >= DaysBeforeMonth(y, m) - if IsLeap(y) then 1 else 0
  {
    if m > 1 {
      MonthsOfYearsDiffer(y, z, m - 1);
      if m == 2 || m == 3 {
        assert DaysBeforeMonth(y, 1) == DaysBeforeMonth(z, 1) == 0;
        assert DaysBeforeMonth(y, 2) == DaysBeforeMonth(z, 2) == 31;
      }
    }
  }

  /** Five years later is at least 1825 days later. */
  lemma HorizonLength(offset: int, t: int)
    ensures FixedOffset(offset).AddYears(t, SEARCH_YEARS) >= t + 1825 * MINUTES_PER_DAY * NANOS_PER_MINUTE
  {
    var loc := FixedOffset(offset);
    var x := Civil(loc.DayOf(t));
    IndexOfCivil(loc.DayOf(t));
    FiveYearsAreLong(x.y, 5);
    MonthsOfYearsDiffer(x.y, x.y + 5, x.m);
    NormalDayOfMonth(x.y + 5, x.m, x.d);
  }

  lemma NormalDayOfMonth(y: int, m: int, d: int)
    requires 1 <= m <= 12
    ensures NormalDay(y, m, d) == DaysBeforeYear(y) + DaysBeforeMonth(y, m) + d - 1
  {
    NormalMonthOfNext(y, m);
  }

  /** Windows up to 1825 days lie within the horizon. */
  lemma ShortWindowsAreWithinHorizon(offset: int, lo: int, hi: int)
    requires hi - lo <= 1825 * MINUTES_PER_DAY * NANOS_PER_MINUTE
    ensures WithinHorizon(FixedOffset(offset), lo, hi)
  {
    forall t | lo <= t <= hi ensures hi <= FixedOffset(offset).AddYears(t, SEARCH_YEARS) {
      HorizonLength(offset, t);
    }
  }

  // ----- windows of five calendar years -----

  const NANOS_PER_DAY := 86_400_000_000_000

  predicate IsLeapDay(x: Date) {
    x.m == 2 && x.d == 29
  }

  /** The date the search horizon of a date falls on: five years later, 29 February carried over to 1 March. */
  function FiveYearsOn(x: Date): (r: Date)
    requires ValidDate(x)
    ensures ValidDate(r)
  {
    if IsLeapDay(x) then Date(x.y + SEARCH_YEARS, 3, 1) else Date(x.y + SEARCH_YEARS, x.m, x.d)
  }

  lemma FiveYearsOnIsNormal(x: Date)
    requires ValidDate(x)
    ensures NormalDay(x.y + SEARCH_YEARS, x.m, x.d) == DayIndex(FiveYearsOn(x))
  {
    var y := x.y + SEARCH_YEARS;
    NormalMonthOfNext(y, x.m);
    DayOfMonthIndex(y, x.m, x.d);
    if IsLeapDay(x) {
      NextMonthIndex(y, 2);
    }
  }

  /** From any date but 29 February, later dates have strictly later horizons. */
  lemma HorizonsRise(a: Date, b: Date)
    requires ValidDate(a) && ValidDate(b) && DayIndex(a) < DayIndex(b) && !IsLeapDay(a)
    ensures DayIndex(FiveYearsOn(a)) < DayIndex(FiveYearsOn(b))
  {
    IndexOrdersDates(a, b);
    IndexOrdersDates(FiveYearsOn(a), FiveYearsOn(b));
  }

  /** A reading is its day, its minute of the day and its nanosecond of the minute. */
  lemma ReadingParts(x: int)
    ensures var minute := x / NANOS_PER_MINUTE;
            && x == (minute / MINUTES_PER_DAY) * NANOS_PER_DAY + (minute % MINUTES_PER_DAY) * NANOS_PER_MINUTE
               + x % NANOS_PER_MINUTE
            && (minute / MINUTES_PER_DAY) * NANOS_PER_DAY <= x < (minute / MINUTES_PER_DAY + 1) * NANOS_PER_DAY
  {
    var minute := x / NANOS_PER_MINUTE;
    assert x == minute * NANOS_PER_MINUTE + x % NANOS_PER_MINUTE;
    assert minute == (minute / MINUTES_PER_DAY) * MINUTES_PER_DAY + minute % MINUTES_PER_DAY;
  }

  lemma DayOfReading(x: int, day: int)
    requires day * NANOS_PER_DAY <= x < (day + 1) * NANOS_PER_DAY
    ensures x / NANOS_PER_MINUTE / MINUTES_PER_DAY == day
  {
    ReadingParts(x);
  }

  /** At a fixed offset the horizon of an instant is the horizon of its day, at the same time of day. */
  lemma HorizonOfInstant(offset: int, t: int, day: int)
    requires day == FixedOffset(offset).DayOf(t)
    ensures day * NANOS_PER_DAY <= t + offset < (day + 1) * NANOS_PER_DAY
    ensures FixedOffset(offset).AddYears(t, SEARCH_YEARS)
            == t + (DayIndex(FiveYearsOn(Civil(day))) - day) * NANOS_PER_DAY
  {
    ReadingParts(t + offset);
    FiveYearsOnIsNormal(Civil(day));
  }

  /** Later days with later horizons have later horizons at every time of day. */
  lemma SameTimeOfDay(offset: int, lo: int, t: int, a: int, b: int, x: int, y: int)
    requires lo + offset < (a + 1) * NANOS_PER_DAY && b * NANOS_PER_DAY <= t + offset && x < y
    ensures lo + (x - a) * NANOS_PER_DAY <= t + (y - b) * NANOS_PER_DAY
  {
  }

  lemma HorizonsRiseFrom(offset: int, lo: int, t: int, a: int, b: int)
    requires lo <= t && a == FixedOffset(offset).DayOf(lo) && b == FixedOffset(offset).DayOf(t) && !IsLeapDay(Civil(a))
    ensures FixedOffset(offset).AddYears(lo, SEARCH_YEARS) <= FixedOffset(offset).AddYears(t, SEARCH_YEARS)
  {
    HorizonOfInstant(offset, lo, a);
    HorizonOfInstant(offset, t, b);
    if a != b {
      assert a < b;
      IndexOfCivil(a);
      IndexOfCivil(b);
      HorizonsRise(Civil(a), Civil(b));
      SameTimeOfDay(offset, lo, t, a, b, DayIndex(FiveYearsOn(Civil(a))), DayIndex(FiveYearsOn(Civil(b))));
    }
  }

  /**
   * A window that starts on any date but 29 February lies within the horizon exactly when it is no longer than
   * five years.
   */
  lemma FiveYearWindowsAreWithinHorizon(offset: int, lo: int, hi: int)
    requires lo <= hi && !IsLeapDay(Civil(FixedOffset(offset).DayOf(lo)))
    ensures WithinHorizon(FixedOffset(offset), lo, hi) <==> hi <= FixedOffset(offset).AddYears(lo, SEARCH_YEARS)
  {
    forall t | lo <= t <= hi && hi <= FixedOffset(offset).AddYears(lo, SEARCH_YEARS)
      ensures hi <= FixedOffset(offset).AddYears(t, SEARCH_YEARS)
    {
      HorizonsRiseFrom(offset, lo, t, FixedOffset(offset).DayOf(lo), FixedOffset(offset).DayOf(t));
    }
  }

  /**
   * Every instant of 29 February has the horizon of the same time on 1 March, five years on, as
   * has 1 March itself: a window from there lies within the horizon exactly up to that midnight.
   */
  lemma LeapDayWindowsAreWithinHorizon(offset: int, lo: int, hi: int)
    requires lo <= hi && IsLeapDay(Civil(FixedOffset(offset).DayOf(lo)))
    ensures WithinHorizon(FixedOffset(offset), lo, hi) <==>
            hi <= DayIndex(Date(Civil(FixedOffset(offset).DayOf(lo)).y + SEARCH_YEARS, 3, 1)) * NANOS_PER_DAY - offset
  {
    var loc := FixedOffset(offset);
    var day := loc.DayOf(lo);
    var midnight := (day + 1) * NANOS_PER_DAY - offset;
    DayOfReading(midnight + offset, day + 1);
    LeapMidnight(offset, lo, day, midnight);
    var limit := loc.AddYears(midnight, SEARCH_YEARS);
    forall t | lo <= t <= hi ensures limit <= loc.AddYears(t, SEARCH_YEARS) {
      LeapDayHorizons(offset, lo, t, day, midnight);
    }
  }

  lemma LeapMidnight(offset: int, lo: int, day: int, midnight: int)
    requires day == FixedOffset(offset).DayOf(lo) && IsLeapDay(Civil(day))
    requires midnight == (day + 1) * NANOS_PER_DAY - offset && FixedOffset(offset).DayOf(midnight) == day + 1
    ensures lo < midnight < FixedOffset(offset).AddYears(midnight, SEARCH_YEARS)
    ensures !IsLeapDay(Civil(day + 1))
    ensures FixedOffset(offset).AddYears(midnight, SEARCH_YEARS)
            == DayIndex(Date(Civil(day).y + SEARCH_YEARS, 3, 1)) * NANOS_PER_DAY - offset
  {
    CivilNext(day);
    HorizonOfInstant(offset, lo, day);
    HorizonOfInstant(offset, midnight, day + 1);
    HorizonLength(offset, midnight);
  }

  /** No instant from 29 February on has a horizon before the coming midnight's. */
  lemma LeapDayHorizons(offset: int, lo: int, t: int, day: int, midnight: int)
    requires lo <= t && day == FixedOffset(offset).DayOf(lo) && IsLeapDay(Civil(day))
    requires midnight == (day + 1) * NANOS_PER_DAY - offset && FixedOffset(offset).DayOf(midnight) == day + 1
    ensures FixedOffset(offset).AddYears(midnight, SEARCH_YEARS) <= FixedOffset(offset).AddYears(t, SEARCH_YEARS)
  {
    LeapMidnight(offset, lo, day, midnight);
    if midnight <= t {
      HorizonsRiseFrom(offset, midnight, t, day + 1, FixedOffset(offset).DayOf(t));
    } else {
      HorizonOfInstant(offset, lo, day);
      DayOfReading(t + offset, day);
      HorizonOfInstant(offset, t, day);
    }
  }
}
