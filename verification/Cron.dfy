/**
 * The cron engine: a parsed five-field expression, when it matches, and the search
 * for the next firing, which skips whole days and months of the calendar.
 *
 * Times are nanoseconds. A location maps wall-clock nanoseconds to instants and back.
 */
module Cron {
  import opened Calendar
  import opened Text

  const SEARCH_YEARS := 5
  const NANOS_PER_MINUTE := 60_000_000_000
  const MINUTES_PER_DAY := 1440

  /** A field's bitmask: bit v of the word is element v, and the word's width is the length. */
  type Mask = seq<bool>

  /** bit(): is value v selected; bits beyond the word's width are zero. */
  predicate Bit(mask: Mask, v: nat) { v < |mask| && mask[v] }

  datatype Expr = Expr(minute: Mask, hour: Mask, dom: Mask, month: Mask, dow: Mask,
                       domRestricted: bool, dowRestricted: bool)
  {
    /** The day rule: either field when both are restricted, else the restricted one, else every day. */
    predicate DayMatches(dayOfMonth: nat, weekday: nat) {
      var domHit, dowHit := Bit(dom, dayOfMonth), Bit(dow, weekday);
      if domRestricted && dowRestricted then domHit || dowHit
      else if domRestricted then domHit
      else if dowRestricted then dowHit
      else true
    }

    /** The expression selects the wall-clock minute number w. */
    predicate MatchesMinute(w: int) {
      && Bit(minute, w % 60)
      && Bit(hour, w % MINUTES_PER_DAY / 60)
      && MatchesDay(w / MINUTES_PER_DAY)
    }

    predicate MatchesDay(day: int) {
      Bit(month, Civil(day).m) && DayMatches(Civil(day).d, Weekday(day))
    }
  }

  // ----- locations -----

  datatype Location = Location(resolve: int -> int, wall: int -> int)
  {
    /** The wall-clock minute an instant reads as. */
    function MinuteOf(t: int): int { wall(t) / NANOS_PER_MINUTE }

    function DayOf(t: int): int { MinuteOf(t) / MINUTES_PER_DAY }

    /** The instant the start of wall minute w resolves to. */
    function Start(w: int): int { resolve(w * NANOS_PER_MINUTE) }

    /** The minute exists on the clock: it is not skipped by a transition. */
    predicate Exists(w: int) { MinuteOf(Start(w)) == w }

    /** t.AddDate(years, 0, 0): the same clock reading years later, dates out of range carried over. */
    function AddYears(t: int, years: int): int {
      var x := Civil(DayOf(t));
      var minutes := NormalDay(x.y + years, x.m, x.d) * MINUTES_PER_DAY + MinuteOf(t) % MINUTES_PER_DAY;
      resolve(minutes * NANOS_PER_MINUTE + wall(t) % NANOS_PER_MINUTE)
    }

    /** Resolving moves a reading by less than a day. */
    ghost predicate Near() {
      forall w: int :: -MINUTES_PER_DAY < MinuteOf(Start(w)) - w < MINUTES_PER_DAY
    }

    /** Existing minutes resolve in clock order. */
    ghost predicate Ordered() {
      forall v: int, w: int | v < w && Exists(v) && Exists(w) :: Start(v) < Start(w)
    }

    /** No transition carries the clock back over midnight: days of readings order instants. */
    ghost predicate DayOrdered() {
      forall w: int, t: int | Exists(w) ::
        && (w / MINUTES_PER_DAY < DayOf(t) ==> Start(w) < t)
        && (w / MINUTES_PER_DAY > DayOf(t) ==> Start(w) > t)
    }

    ghost predicate Regular() { Near() && Ordered() && DayOrdered() }
  }

  /** A location at a constant offset from the instant line. */
  function FixedOffset(offset: int): Location {
    Location(x => x - offset, t => t + offset)
  }

  lemma FixedOffsetIsRegular(offset: int)
    ensures FixedOffset(offset).Regular()
    ensures forall w :: FixedOffset(offset).Exists(w)
  {
  }

  /** Expr.Matches: every field is read from the instant's own location. */
  predicate Matches(e: Expr, loc: Location, t: int) {
    e.MatchesMinute(loc.MinuteOf(t))
  }

  // ----- what a firing is -----

  /** Wall minute w is a firing of e strictly after lo and no later than hi. */
  predicate Fires(e: Expr, loc: Location, w: int, lo: int, hi: int) {
    e.MatchesMinute(w) && loc.Exists(w) && lo < loc.Start(w) <= hi
  }

  ghost predicate NoFiring(e: Expr, loc: Location, lo: int, hi: int) {
    forall w :: !Fires(e, loc, w, lo, hi)
  }

  /** t is the earliest firing in (lo, hi]. */
  ghost predicate EarliestFiring(e: Expr, loc: Location, t: int, lo: int, hi: int) {
    exists w :: IsEarliest(e, loc, w, t, lo, hi)
  }

  ghost predicate IsEarliest(e: Expr, loc: Location, w: int, t: int, lo: int, hi: int) {
    && Fires(e, loc, w, lo, hi) && t == loc.Start(w)
    && forall v | Fires(e, loc, v, lo, hi) :: t <= loc.Start(v)
  }

  /** r is the earliest firing in (lo, hi], or says that there is none. */
  ghost predicate Answers(e: Expr, loc: Location, r: Option<int>, lo: int, hi: int) {
    match r
    case Some(t) => EarliestFiring(e, loc, t, lo, hi)
    case None => NoFiring(e, loc, lo, hi)
  }

  // ----- the search -----

  /** daysInMonth: the day before the first of the following month. */
  function DaysInMonth(y: int, m: int): int {
    Civil(NormalDay(y, m + 1, 0)).d
  }

  lemma DaysInMonthIsMonthLength(y: int, m: int)
    requires 1 <= m <= 12
    ensures DaysInMonth(y, m) == MonthLength(y, m)
  {
    DayZeroOfNextMonth(y, m);
    CivilInsideMonth(y, m, NormalDay(y, m + 1, 0));
  }

  /** No wall minute before w is a firing. */
  ghost predicate NoneBelow(e: Expr, loc: Location, w: int, lo: int, hi: int) {
    forall v | v < w :: !Fires(e, loc, v, lo, hi)
  }

  /** No day of the line before day holds a firing. */
  ghost predicate NoneBefore(e: Expr, loc: Location, day: int, lo: int, hi: int) {
    NoneBelow(e, loc, day * MINUTES_PER_DAY, lo, hi)
  }

  lemma FirstIsEarliest(e: Expr, loc: Location, w: int, lo: int, hi: int)
    requires loc.Ordered() && NoneBelow(e, loc, w, lo, hi) && Fires(e, loc, w, lo, hi)
    ensures EarliestFiring(e, loc, loc.Start(w), lo, hi)
  {
    assert IsEarliest(e, loc, w, loc.Start(w), lo, hi);
  }

  lemma PastTheLimit(e: Expr, loc: Location, w: int, lo: int, hi: int)
    requires loc.Ordered() && NoneBelow(e, loc, w, lo, hi) && loc.Exists(w) && loc.Start(w) > hi
    ensures NoFiring(e, loc, lo, hi)
  {
  }

  lemma PastTheLastDay(e: Expr, loc: Location, day: int, lo: int, hi: int)
    requires loc.DayOrdered() && NoneBefore(e, loc, day, lo, hi) && day > loc.DayOf(hi)
    ensures NoFiring(e, loc, lo, hi)
  {
    forall w ensures !Fires(e, loc, w, lo, hi) {
      assert w >= day * MINUTES_PER_DAY ==> w / MINUTES_PER_DAY >= day;
    }
  }

  lemma BeforeTheFirstDay(e: Expr, loc: Location, lo: int, hi: int)
    requires loc.DayOrdered()
    ensures NoneBefore(e, loc, loc.DayOf(lo), lo, hi)
  {
    forall w | w < loc.DayOf(lo) * MINUTES_PER_DAY ensures !Fires(e, loc, w, lo, hi) {
      assert w / MINUTES_PER_DAY < loc.DayOf(lo);
    }
  }

  /** Days that fail the calendar fields carry no firing. */
  lemma SkippedDay(e: Expr, loc: Location, day: int, lo: int, hi: int)
    requires !e.MatchesDay(day) && NoneBefore(e, loc, day, lo, hi)
    ensures NoneBefore(e, loc, day + 1, lo, hi)
  {
    forall w | w < (day + 1) * MINUTES_PER_DAY ensures !Fires(e, loc, w, lo, hi) {
      assert w >= day * MINUTES_PER_DAY ==> w / MINUTES_PER_DAY == day;
    }
  }

  /** Stepping past the last day of a month is stepping to the next date. */
  lemma DayStep(y: int, m: int, d: int)
    requires ValidDate(Date(y, m, d))
    ensures NextDate(Date(y, m, d)) == if d + 1 > DaysInMonth(y, m) then Date(NextMonth(y, m).0, NextMonth(y, m).1, 1)
                                       else Date(y, m, d + 1)
    ensures DayIndex(NextDate(Date(y, m, d))) == DayIndex(Date(y, m, d)) + 1
  {
    NextDateIndex(Date(y, m, d));
    DaysInMonthIsMonthLength(y, m);
  }

  /** The candidate minute's clock reading, compared field by field as the search does. */
  predicate ReadsBack(loc: Location, day: int, h: int, mi: int, candidate: int) {
    var back := loc.MinuteOf(candidate);
    Civil(back / MINUTES_PER_DAY).d == Civil(day).d && back % MINUTES_PER_DAY / 60 == h && back % 60 == mi
  }

  lemma ReadBackIsExistence(loc: Location, day: int, h: int, mi: int)
    requires loc.Near() && 0 <= h < 24 && 0 <= mi < 60
    ensures var w := day * MINUTES_PER_DAY + h * 60 + mi;
            loc.Exists(w) <==> ReadsBack(loc, day, h, mi, loc.Start(w))
  {
    var w := day * MINUTES_PER_DAY + h * 60 + mi;
    var back := loc.MinuteOf(loc.Start(w));
    assert w / MINUTES_PER_DAY == day;
    assert -1 <= back / MINUTES_PER_DAY - day <= 1;
    if Civil(back / MINUTES_PER_DAY).d == Civil(day).d {
      NeighboursDiffer(back / MINUTES_PER_DAY, day);
    }
  }

  lemma FiringOfDay(e: Expr, loc: Location, day: int, h: int, mi: int, lo: int, hi: int)
    requires e.MatchesDay(day) && 0 <= h < 24 && 0 <= mi < 60
    ensures var w := day * MINUTES_PER_DAY + h * 60 + mi;
            Fires(e, loc, w, lo, hi) <==>
            Bit(e.hour, h) && Bit(e.minute, mi) && loc.Exists(w) && lo < loc.Start(w) <= hi
  {
    var w := day * MINUTES_PER_DAY + h * 60 + mi;
    assert w / MINUTES_PER_DAY == day && w % MINUTES_PER_DAY == h * 60 + mi && w % 60 == mi;
  }

  lemma SkippedHour(e: Expr, loc: Location, day: int, h: int, lo: int, hi: int)
    requires e.MatchesDay(day) && 0 <= h < 24 && !Bit(e.hour, h)
    requires NoneBelow(e, loc, day * MINUTES_PER_DAY + h * 60, lo, hi)
    ensures NoneBelow(e, loc, day * MINUTES_PER_DAY + (h + 1) * 60, lo, hi)
  {
    var base := day * MINUTES_PER_DAY + h * 60;
    forall w | w < base + 60 ensures !Fires(e, loc, w, lo, hi) {
      if w >= base {
        FiringOfDay(e, loc, day, h, w - base, lo, hi);
      }
    }
  }

  /** Months whose bit is clear carry no firing. */
  lemma SkippedMonth(e: Expr, loc: Location, y: int, m: int, d: int, lo: int, hi: int)
    requires ValidDate(Date(y, m, d)) && !Bit(e.month, m)
    requires NoneBefore(e, loc, DayIndex(Date(y, m, d)), lo, hi)
    ensures var (y', m') := NextMonth(y, m);
            ValidDate(Date(y', m', 1)) && DayIndex(Date(y', m', 1)) > DayIndex(Date(y, m, d))
            && NoneBefore(e, loc, DayIndex(Date(y', m', 1)), lo, hi)
  {
    NextMonthIndex(y, m);
    var (y', m') := NextMonth(y, m);
    forall w | w < DayIndex(Date(y', m', 1)) * MINUTES_PER_DAY ensures !Fires(e, loc, w, lo, hi) {
      var day := w / MINUTES_PER_DAY;
      if w >= DayIndex(Date(y, m, d)) * MINUTES_PER_DAY {
        CivilInsideMonth(y, m, day);
      }
    }
  }

  method Next(e: Expr, loc: Location, after: int) returns (r: Option<int>)
    requires loc.Regular()
    ensures Answers(e, loc, r, after, loc.AddYears(after, SEARCH_YEARS))
  {
    var limit := loc.AddYears(after, SEARCH_YEARS);
    var last, first := Civil(loc.DayOf(limit)), Civil(loc.DayOf(after));
    IndexOfCivil(loc.DayOf(limit));
    IndexOfCivil(loc.DayOf(after));
    BeforeTheFirstDay(e, loc, after, limit);
    var y, m, d := first.y, first.m, first.d;
    while true
      invariant ValidDate(Date(y, m, d))
      invariant NoneBefore(e, loc, DayIndex(Date(y, m, d)), after, limit)
      decreases loc.DayOf(limit) - DayIndex(Date(y, m, d))
    {
      ghost var day := DayIndex(Date(y, m, d));
      IndexOrdersDates(last, Date(y, m, d));
      if y > last.y || (y == last.y && (m > last.m || (m == last.m && d > last.d))) {
        PastTheLastDay(e, loc, day, after, limit);
        return None;
      }
      if !Bit(e.month, m) {
        SkippedMonth(e, loc, y, m, d, after, limit);
        d := 1;
        var next := NextMonth(y, m);
        y, m := next.0, next.1;
        continue;
      }
      CivilOfIndex(Date(y, m, d));
      if e.DayMatches(d, Weekday(DayIndex(Date(y, m, d)))) {
        var done, found := SearchDay(e, loc, DayIndex(Date(y, m, d)), after, limit);
        if done {
          return found;
        }
      } else {
        SkippedDay(e, loc, day, after, limit);
      }
      DayStep(y, m, d);
      d := d + 1;
      if d > DaysInMonth(y, m) {
        d := 1;
        var next := NextMonth(y, m);
        y, m := next.0, next.1;
      }
    }
  }

  /** The hour and minute loops over one day the calendar fields select. */
  method SearchDay(e: Expr, loc: Location, day: int, after: int, limit: int) returns (done: bool, r: Option<int>)
    requires loc.Regular() && e.MatchesDay(day)
    requires NoneBefore(e, loc, day, after, limit)
    ensures !done ==> NoneBefore(e, loc, day + 1, after, limit)
    ensures done ==> Answers(e, loc, r, after, limit)
  {
    var base := day * MINUTES_PER_DAY;
    var h := 0;
    while h < 24
      invariant 0 <= h <= 24
      invariant NoneBelow(e, loc, base + h * 60, after, limit)
    {
      if !Bit(e.hour, h) {
        SkippedHour(e, loc, day, h, after, limit);
        h := h + 1;
        continue;
      }
      var mi := 0;
      while mi < 60
        invariant 0 <= mi <= 60
        invariant NoneBelow(e, loc, base + h * 60 + mi, after, limit)
      {
        ghost var w := base + h * 60 + mi;
        FiringOfDay(e, loc, day, h, mi, after, limit);
        ReadBackIsExistence(loc, day, h, mi);
        if Bit(e.minute, mi) {
          var candidate := loc.Start(base + h * 60 + mi);
          if candidate > after && ReadsBack(loc, day, h, mi, candidate) {
            if candidate > limit {
              PastTheLimit(e, loc, w, after, limit);
              return true, None;
            }
            FirstIsEarliest(e, loc, w, after, limit);
            return true, Some(candidate);
          }
        }
        mi := mi + 1;
      }
      h := h + 1;
    }
    return false, None;
  }

  // ----- what the answer means in a fixed-offset location -----

  /** t is a whole minute in (lo, hi] that the expression matches. */
  predicate MatchingMinute(e: Expr, loc: Location, t: int, lo: int, hi: int) {
    loc.wall(t) % NANOS_PER_MINUTE == 0 && Matches(e, loc, t) && lo < t <= hi
  }

  /** The minute-by-minute scan: the least matching minute of the window, or none at all. */
  ghost predicate ScanAnswers(e: Expr, loc: Location, r: Option<int>, lo: int, hi: int) {
    match r
    case Some(t) => MatchingMinute(e, loc, t, lo, hi) && forall u | MatchingMinute(e, loc, u, lo, hi) :: t <= u
    case None => forall u :: !MatchingMinute(e, loc, u, lo, hi)
  }

  lemma MatchingMinuteIsFiring(e: Expr, offset: int, t: int, lo: int, hi: int)
    requires var loc := FixedOffset(offset); MatchingMinute(e, loc, t, lo, hi)
    ensures var loc := FixedOffset(offset);
            Fires(e, loc, loc.MinuteOf(t), lo, hi) && loc.Start(loc.MinuteOf(t)) == t
  {
  }

  lemma FiringIsMatchingMinute(e: Expr, offset: int, w: int, lo: int, hi: int)
    requires var loc := FixedOffset(offset); Fires(e, loc, w, lo, hi)
    ensures var loc := FixedOffset(offset); MatchingMinute(e, loc, loc.Start(w), lo, hi)
  {
  }

  /** At a fixed offset, skipping days and months finds what scanning every minute finds. */
  lemma SearchEqualsScan(e: Expr, offset: int, r: Option<int>, lo: int, hi: int)
    ensures Answers(e, FixedOffset(offset), r, lo, hi) <==> ScanAnswers(e, FixedOffset(offset), r, lo, hi)
  {
    var loc := FixedOffset(offset);
    forall t | MatchingMinute(e, loc, t, lo, hi)
      ensures Fires(e, loc, loc.MinuteOf(t), lo, hi) && loc.Start(loc.MinuteOf(t)) == t
    {
      MatchingMinuteIsFiring(e, offset, t, lo, hi);
    }
    forall w | Fires(e, loc, w, lo, hi) ensures MatchingMinute(e, loc, loc.Start(w), lo, hi) {
      FiringIsMatchingMinute(e, offset, w, lo, hi);
    }
    match r
    case None =>
    case Some(t) =>
      if ScanAnswers(e, loc, r, lo, hi) {
        assert IsEarliest(e, loc, loc.MinuteOf(t), t, lo, hi);
      }
  }

  // ----- daylight-saving transitions -----

  const HOUR := 60 * NANOS_PER_MINUTE

  /** Clocks jump an hour ahead when they reach minute m; skipped readings resolve an hour on. */
  function SpringForward(m: int): Location {
    var jump := m * NANOS_PER_MINUTE;
    Location(x => if x < jump + HOUR then x else x - HOUR, t => if t < jump then t else t + HOUR)
  }

  /**
   * The first wall minute that resolves past an autumn transition at minute m: the repeated hour resolves to
   * its first pass, or to its second.
   */
  function TurningMinute(m: int, second: bool): int { if second then m - 60 else m }

  /** Clocks fall an hour back when they reach minute m; the zone resolves repeated readings to one of their passes. */
  function FallBack(m: int, second: bool): Location {
    var fall, turn := m * NANOS_PER_MINUTE, TurningMinute(m, second) * NANOS_PER_MINUTE;
    Location(x => if x < turn then x else x + HOUR, t => if t < fall then t else t - HOUR)
  }

  /** The search is exact across a spring transition, and the skipped minutes carry no firing. */
  lemma SpringForwardIsRegular(m: int)
    ensures SpringForward(m).Regular()
    ensures forall w :: SpringForward(m).Exists(w) <==> !(m <= w < m + 60)
  {
  }

  lemma FallBackReadings(m: int, second: bool, w: int, t: int)
    ensures FallBack(m, second).Start(w) == (if w < TurningMinute(m, second) then w else w + 60) * NANOS_PER_MINUTE
    ensures FallBack(m, second).Exists(w)
    ensures FallBack(m, second).MinuteOf(t) == if t / NANOS_PER_MINUTE < m then t / NANOS_PER_MINUTE
                                               else t / NANOS_PER_MINUTE - 60
  {
  }

  lemma DaysRise(v: int, w: int)
    requires v <= w
    ensures v / MINUTES_PER_DAY <= w / MINUTES_PER_DAY
  {
  }

  /** The hour up to an autumn transition lies in one day. */
  lemma OneDayBefore(m: int)
    requires m % MINUTES_PER_DAY >= 60
    ensures (m - 60) / MINUTES_PER_DAY == m / MINUTES_PER_DAY
  {
    var d := m / MINUTES_PER_DAY;
    assert m == d * MINUTES_PER_DAY + m % MINUTES_PER_DAY;
    assert (m - 60) == d * MINUTES_PER_DAY + (m % MINUTES_PER_DAY - 60);
  }

  /**
   * A wall minute of an earlier day is past: wall minutes rise with the instant's minute k, the repeated hour
   * apart.
   */
  lemma FallBackOrdersMinutes(m: int, second: bool, w: int, k: int)
    requires m % MINUTES_PER_DAY >= 60
    ensures var (start, reading) := (if w < TurningMinute(m, second) then w else w + 60, if k < m then k else k - 60);
            && (w / MINUTES_PER_DAY < reading / MINUTES_PER_DAY ==> start < k)
            && (w / MINUTES_PER_DAY > reading / MINUTES_PER_DAY ==> start > k)
  {
    OneDayBefore(m);
    var reading := if k < m then k else k - 60;
    if w / MINUTES_PER_DAY < reading / MINUTES_PER_DAY {
      DaysRise(reading, if w < reading then reading else w);
      if w >= m - 60 {
        DaysRise(m - 60, w);
        DaysRise(if k < m then k else m, m);
      }
    } else if w / MINUTES_PER_DAY > reading / MINUTES_PER_DAY {
      DaysRise(if w < reading then w else reading, reading);
      if w < m {
        DaysRise(w, m);
        DaysRise(m - 60, if k < m then m - 60 else reading);
      }
    }
  }

  lemma FallBackIsDayOrdered(m: int, second: bool, w: int, t: int)
    requires m % MINUTES_PER_DAY >= 60
    ensures w / MINUTES_PER_DAY < FallBack(m, second).DayOf(t) ==> FallBack(m, second).Start(w) < t
    ensures w / MINUTES_PER_DAY > FallBack(m, second).DayOf(t) ==> FallBack(m, second).Start(w) > t
  {
    FallBackReadings(m, second, w, t);
    FallBackOrdersMinutes(m, second, w, t / NANOS_PER_MINUTE);
  }

  /** The search is exact across an autumn transition inside a day, whichever pass a repeated minute resolves to. */
  lemma FallBackIsRegular(m: int, second: bool)
    requires m % MINUTES_PER_DAY >= 60
    ensures FallBack(m, second).Regular()
  {
    var loc := FallBack(m, second);
    forall w, t
      ensures w / MINUTES_PER_DAY < loc.DayOf(t) ==> loc.Start(w) < t
      ensures w / MINUTES_PER_DAY > loc.DayOf(t) ==> loc.Start(w) > t
    {
      FallBackIsDayOrdered(m, second, w, t);
    }
    forall w
      ensures loc.Exists(w) && loc.Start(w) == (if w < TurningMinute(m, second) then w else w + 60) * NANOS_PER_MINUTE
    {
      FallBackReadings(m, second, w, 0);
    }
  }

  /** A repeated minute's other pass reads the same, but that instant is never a firing. */
  lemma RepeatedMinuteFiresOnce(m: int, second: bool, w: int, v: int)
    requires m - 60 <= w < m
    ensures var other := FallBack(m, second).Start(w) + if second then -HOUR else HOUR;
            FallBack(m, second).MinuteOf(other) == w && FallBack(m, second).Start(v) != other
  {
    FallBackReadings(m, second, w, FallBack(m, second).Start(w) + if second then -HOUR else HOUR);
    FallBackReadings(m, second, v, 0);
  }
}
