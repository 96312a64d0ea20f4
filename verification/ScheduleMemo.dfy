/**
 * The Schedule producer's memo across passes: a high-water mark and at most one owed
 * firing per Schedule. A ledger accounts for every firing the passes walk over.
 */
module ScheduleMemo {
  import opened Text
  import opened Cron
  import opened Schedule

  // ----- one Schedule, one pass -----

  datatype Memo = Memo(checked: Option<int>, pending: Option<int>)

  const NO_MEMO := Memo(None, None)

  datatype Overlap = NoRun | RunLive | ReadFailed

  datatype Provider = ResolveFailed | LoggedOut | LoggedIn

  /** What a pass sees of a listed Schedule. */
  datatype Sight = Sight(ready: bool, cadence: Option<Expr>, overlap: Overlap, live: nat, cap: int,
                         provider: Provider)

  /** Nothing stands in the way of a Schedule of this cadence. */
  function Unvetoed(e: Expr): Sight { Sight(true, Some(e), NoRun, 0, 1, LoggedIn) }

  /** The pass advances the mark and walks the window behind it. */
  predicate Walks(m: Memo, c: Sight, now: int) {
    c.ready && c.cadence.Some? && m.checked.Some? && now > m.checked.value
  }

  /** The gather's effect on one memo, given the walk's newest firing, and whether a candidate is emitted. */
  function Gathered(m: Memo, c: Sight, now: int, latest: Option<int>): (Memo, bool) {
    if !c.ready || c.cadence.None? then (m, false)
    else if m.checked.None? then (m.(checked := Some(now)), false)
    else if now <= m.checked.value then (m, false)
    else
      var owed := Memo(Some(now), if latest.Some? then latest else m.pending);
      if owed.pending.None? then (owed, false)
      else if c.overlap.RunLive? then (owed.(pending := None), false)
      else (owed, c.overlap.NoRun? && c.live < c.cap && c.provider.LoggedIn?)
  }

  /** The walk behind a gather: only a walking pass has one. */
  ghost predicate WalkBehind(loc: Location, m: Memo, c: Sight, now: int, r: Walk) {
    if Walks(m, c, now) then
      && WalkSound(c.cadence.value, loc, m.checked.value, now, r)
      && (WithinHorizon(loc, m.checked.value, now) ==>
            WalkOf(c.cadence.value, loc, m.checked.value, now, MATCH_CAP, r))
    else r == Walk(None, 0, false)
  }

  /** One Schedule's turn in a pass. */
  ghost predicate Turn(loc: Location, m: Memo, c: Sight, now: int, m': Memo, emits: bool) {
    exists r :: WalkBehind(loc, m, c, now, r) && (m', emits) == Gathered(m, c, now, r.latest)
  }

  /** The Schedule is launchable and its mark advances. */
  predicate MarkAdvances(m: Memo, c: Sight, now: int) {
    c.ready && c.cadence.Some? && m.checked.Some? && m.checked.value < now
  }

  /** No run of the Schedule is live, there is room, and the provider is logged in. */
  predicate NothingVetoes(c: Sight) {
    c.overlap == NoRun && c.live < c.cap && c.provider == LoggedIn
  }

  /** A turn emits exactly when the mark advanced, the memo it leaves owes a firing and nothing vetoes it. */
  lemma EmitsIffOwedAndUnvetoed(loc: Location, m: Memo, c: Sight, now: int, m': Memo, emits: bool)
    requires Turn(loc, m, c, now, m', emits)
    ensures emits <==> MarkAdvances(m, c, now) && m'.pending.Some? && NothingVetoes(c)
  {
    var r :| WalkBehind(loc, m, c, now, r) && (m', emits) == Gathered(m, c, now, r.latest);
    GatheredEmits(m, c, now, r.latest);
  }

  lemma GatheredEmits(m: Memo, c: Sight, now: int, latest: Option<int>)
    ensures var (m', emits) := Gathered(m, c, now, latest);
            emits <==> MarkAdvances(m, c, now) && m'.pending.Some? && NothingVetoes(c)
  {
  }

  /**
   * A turn emits exactly when nothing vetoes and a firing is owed: one held from an earlier pass or
   * one of the window walked; and below the cap the window's newest firing is then the one owed.
   */
  lemma EmitsIffFiringOwed(loc: Location, m: Memo, c: Sight, now: int, m': Memo, emits: bool)
    requires Turn(loc, m, c, now, m', emits) && loc.Regular()
    requires MarkAdvances(m, c, now) ==> WithinHorizon(loc, m.checked.value, now)
    ensures emits <==> MarkAdvances(m, c, now) && NothingVetoes(c)
                       && (m.pending.Some? || exists w :: Fires(c.cadence.value, loc, w, m.checked.value, now))
    ensures emits && |Firings(c.cadence.value, loc, m.checked.value, now)| < MATCH_CAP ==>
              forall w | Fires(c.cadence.value, loc, w, m.checked.value, now) :: loc.Start(w) <= m'.pending.value
  {
    var r :| WalkBehind(loc, m, c, now, r) && (m', emits) == Gathered(m, c, now, r.latest);
    if MarkAdvances(m, c, now) {
      FiringsAreAll(c.cadence.value, loc, m.checked.value, now);
      if r.latest.Some? && |Firings(c.cadence.value, loc, m.checked.value, now)| < MATCH_CAP {
        NoneIsNewer(c.cadence.value, loc, m.checked.value, r.latest.value, now);
      }
    }
  }

  lemma NoneIsNewer(e: Expr, loc: Location, lo: int, latest: int, hi: int)
    requires loc.Regular() && Firings(e, loc, latest, hi) == {}
    ensures forall w | Fires(e, loc, w, lo, hi) :: loc.Start(w) <= latest
  {
    FiringsAreAll(e, loc, latest, hi);
    forall w | Fires(e, loc, w, lo, hi) ensures loc.Start(w) <= latest {
      assert !Fires(e, loc, w, latest, hi);
    }
  }

  // ----- the launch's answer -----

  datatype LaunchCause =
    | Vanished | ScheduleUnreadable | DisabledOrPaused
    | RepoGone | RepoUnreadable | RepoNotReady
    | PreviousLive | OverlapUnreadable | EmptyPrompt | ResolverFailed | ListingFailed
    | AtCap | LaunchOverCap | LaunchFailed | Spawned

  /** launchScheduledRun on a cadence firing: is the owed firing spent. */
  predicate Consumes(cause: LaunchCause) {
    match cause
    case Vanished | DisabledOrPaused | RepoGone | RepoNotReady | PreviousLive | EmptyPrompt | LaunchFailed | Spawned =>
      true
    case ScheduleUnreadable | RepoUnreadable | OverlapUnreadable | ResolverFailed | ListingFailed => false
    case AtCap | LaunchOverCap => false
  }

  datatype Lookup = Present | Absent | Unreadable

  datatype LaunchResult = CameUp | OverCap | Broke

  /** What the locked launch of a firing meets, in the order it asks. */
  datatype LaunchFacts = LaunchFacts(
    schedule: Lookup, enabled: bool, paused: bool, repo: Lookup, cloneReady: bool, activeRun: Lookup,
    promptBlank: bool, resolved: bool, liveCount: Option<nat>, cap: int, result: LaunchResult)

  /** Settled obstacles stay until someone changes the Schedule or its repo; a passing one is gone by the next pass. */
  datatype Obstacle = Clear | Settled | Passing

  function OfLookup(l: Lookup): Obstacle {
    match l case Present => Clear case Absent => Settled case Unreadable => Passing
  }

  /** What the rows of the firing put in its way, in the order they are read. */
  function RowObstacles(f: LaunchFacts): seq<Obstacle> {
    [OfLookup(f.schedule), if f.paused || !f.enabled then Settled else Clear,
     OfLookup(f.repo), if f.cloneReady then Clear else Settled,
     match f.activeRun case Present => Settled case Absent => Clear case Unreadable => Passing]
  }

  /** What its start puts in its way. */
  function StartObstacles(f: LaunchFacts): seq<Obstacle> {
    [if f.promptBlank then Settled else Clear, if f.resolved then Clear else Passing,
     if f.liveCount.None? then Passing else Clear,
     if f.liveCount.Some? && f.liveCount.value >= f.cap then Passing else Clear,
     match f.result case CameUp => Clear case OverCap => Passing case Broke => Settled]
  }

  /** The first obstacle met, Clear if there is none. */
  function FirstObstacle(os: seq<Obstacle>): (o: Obstacle)
    ensures o.Clear? <==> forall i | 0 <= i < |os| :: os[i].Clear?
    ensures !o.Clear? ==> exists i | 0 <= i < |os| :: os[i] == o && forall k | 0 <= k < i :: os[k].Clear?
  {
    if os == [] then Clear else if !os[0].Clear? then os[0] else FirstObstacle(os[1..])
  }

  lemma FirstOfFive(os: seq<Obstacle>)
    requires |os| == 5
    ensures FirstObstacle(os) == if !os[0].Clear? then os[0]
                                 else if !os[1].Clear? then os[1]
                                 else if !os[2].Clear? then os[2]
                                 else if !os[3].Clear? then os[3] else os[4]
  {
    var o := FirstObstacle(os);
    if !o.Clear? {
      var i :| 0 <= i < |os| && os[i] == o && forall k | 0 <= k < i :: os[k].Clear?;
    }
  }

  lemma {:induction false} FirstOfConcat(a: seq<Obstacle>, b: seq<Obstacle>)
    ensures FirstObstacle(a + b) == if FirstObstacle(a).Clear? then FirstObstacle(b) else FirstObstacle(a)
  {
    if a == [] {
      assert a + b == b;
    } else {
      assert (a + b)[1..] == a[1..] + b;
      FirstOfConcat(a[1..], b);
    }
  }

  method AskRows(f: LaunchFacts) returns (cause: Option<LaunchCause>)
    ensures cause.None? <==> FirstObstacle(RowObstacles(f)).Clear?
    ensures cause.Some?
            ==> !cause.value.Spawned? && (Consumes(cause.value) <==> FirstObstacle(RowObstacles(f)).Settled?)
  {
    FirstOfFive(RowObstacles(f));
    if !f.schedule.Present? {
      return Some(if f.schedule.Absent? then Vanished else ScheduleUnreadable);
    }
    if f.paused || !f.enabled {
      return Some(DisabledOrPaused);
    }
    if !f.repo.Present? {
      return Some(if f.repo.Absent? then RepoGone else RepoUnreadable);
    }
    if !f.cloneReady {
      return Some(RepoNotReady);
    }
    if !f.activeRun.Absent? {
      return Some(if f.activeRun.Present? then PreviousLive else OverlapUnreadable);
    }
    return None;
  }

  method Start(f: LaunchFacts) returns (cause: LaunchCause)
    ensures cause.Spawned? <==> FirstObstacle(StartObstacles(f)).Clear?
    ensures Consumes(cause) <==> !FirstObstacle(StartObstacles(f)).Passing?
  {
    FirstOfFive(StartObstacles(f));
    if f.promptBlank {
      return EmptyPrompt;
    }
    if !f.resolved {
      return ResolverFailed;
    }
    if f.liveCount.None? {
      return ListingFailed;
    }
    if f.liveCount.value >= f.cap {
      return AtCap;
    }
    cause := match f.result case CameUp => Spawned case OverCap => LaunchOverCap case Broke => LaunchFailed;
  }

  /** A firing is kept exactly when the first obstacle it meets is a passing one, and spawned when it meets none. */
  method LaunchScheduledRun(f: LaunchFacts) returns (cause: LaunchCause)
    ensures Consumes(cause) <==> !FirstObstacle(RowObstacles(f) + StartObstacles(f)).Passing?
    ensures cause.Spawned? <==> FirstObstacle(RowObstacles(f) + StartObstacles(f)).Clear?
    ensures (cause.Spawned? <==> ComesUp(f)) && (Consumes(cause) <==> !WorthRetrying(f))
  {
    FirstOfConcat(RowObstacles(f), StartObstacles(f));
    FirstOfFive(RowObstacles(f));
    FirstOfFive(StartObstacles(f));
    var stopped := AskRows(f);
    if stopped.Some? {
      return stopped.value;
    }
    cause := Start(f);
  }

  /** A launch comes up: enabled, unpaused, cloned, nothing live, a prompt, a provider, room, and no failure. */
  predicate ComesUp(f: LaunchFacts) {
    && f.schedule == Present && f.enabled && !f.paused && f.repo == Present && f.cloneReady && f.activeRun == Absent
    && !f.promptBlank && f.resolved && f.liveCount.Some? && f.liveCount.value < f.cap && f.result == CameUp
  }

  /** Everything up to some unreadable fact or a full house was in order: the next pass may well succeed. */
  predicate WorthRetrying(f: LaunchFacts) {
    || f.schedule == Unreadable
    || (f.schedule == Present && f.enabled && !f.paused
        && (f.repo == Unreadable
            || (f.repo == Present && f.cloneReady
                && (f.activeRun == Unreadable
                    || (f.activeRun == Absent && !f.promptBlank
                        && (!f.resolved || f.liveCount.None? || f.liveCount.value >= f.cap || f.result == OverCap))))))
  }

  function Answered(m: Memo, cause: LaunchCause): Memo {
    if Consumes(cause) then m.(pending := None) else m
  }

  // ----- the producer -----

  datatype Listed = Listed(id: string, sight: Sight)

  predicate DistinctIds(schedules: seq<Listed>) {
    forall i, j | 0 <= i < j < |schedules| :: schedules[i].id != schedules[j].id
  }

  function Ids(schedules: seq<Listed>): set<string> {
    set i | 0 <= i < |schedules| :: schedules[i].id
  }

  /** The first k listed Schedules have had their turn. */
  ghost predicate TookTurns(loc: Location, schedules: seq<Listed>, now: int, before: seq<Memo>, after: seq<Memo>,
                            emits: seq<bool>, k: nat)
  {
    && k <= |schedules| == |before| && |after| == |emits| == k
    && forall i | 0 <= i < k :: Turn(loc, before[i], schedules[i].sight, now, after[i], emits[i])
  }

  lemma TookOneMore(loc: Location, schedules: seq<Listed>, now: int, before: seq<Memo>, after: seq<Memo>,
                    emits: seq<bool>, k: nat, m: Memo, emit: bool)
    requires TookTurns(loc, schedules, now, before, after, emits, k) && k < |schedules|
    requires Turn(loc, before[k], schedules[k].sight, now, m, emit)
    ensures TookTurns(loc, schedules, now, before, after + [m], emits + [emit], k + 1)
  {
  }

  lemma TurnsEmit(loc: Location, schedules: seq<Listed>, now: int, before: seq<Memo>, after: seq<Memo>,
                  emits: seq<bool>)
    requires TookTurns(loc, schedules, now, before, after, emits, |schedules|)
    ensures forall i | 0 <= i < |schedules| ::
              emits[i] <==> MarkAdvances(before[i], schedules[i].sight, now)
                            && after[i].pending.Some? && NothingVetoes(schedules[i].sight)
  {
    forall i | 0 <= i < |schedules|
      ensures emits[i] <==> MarkAdvances(before[i], schedules[i].sight, now)
                            && after[i].pending.Some? && NothingVetoes(schedules[i].sight)
    {
      EmitsIffOwedAndUnvetoed(loc, before[i], schedules[i].sight, now, after[i], emits[i]);
    }
  }

  class Producer {
    const loc: Location
    var pending: map<string, int>
    var checked: map<string, int>

    constructor (loc: Location)
      ensures this.loc == loc && forall id :: MemoOf(id) == NO_MEMO
    {
      this.loc := loc;
      pending, checked := map[], map[];
    }

    function MemoOf(id: string): Memo
      reads this
    {
      Memo(if id in checked then Some(checked[id]) else None, if id in pending then Some(pending[id]) else None)
    }

    /** Drop the memo entries of Schedules no longer listed. */
    method Forget(m: map<string, int>, listed: set<string>) returns (r: map<string, int>)
      ensures forall id :: id in r <==> id in m && id in listed
      ensures forall id | id in r :: r[id] == m[id]
    {
      r := m;
      var rest := m.Keys;
      while rest != {}
        invariant rest <= m.Keys
        invariant forall id :: id in r <==> id in m && (id in rest || id in listed)
        invariant forall id | id in r :: r[id] == m[id]
        decreases rest
      {
        var id :| id in rest;
        if id !in listed {
          r := r - {id};
        }
        rest := rest - {id};
      }
    }

    /** scheduleCandidates: one pass over the enabled Schedules; emits[i] says whether schedules[i] is a candidate. */
    method Pass(schedules: seq<Listed>, now: int) returns (emits: seq<bool>)
      requires loc.Regular() && DistinctIds(schedules)
      modifies this
      ensures |emits| == |schedules|
      ensures forall i | 0 <= i < |schedules| ::
                Turn(loc, old(MemoOf(schedules[i].id)), schedules[i].sight, now, MemoOf(schedules[i].id), emits[i])
      ensures forall i | 0 <= i < |schedules| ::
                emits[i] <==>
                && MarkAdvances(old(MemoOf(schedules[i].id)), schedules[i].sight, now)
                && MemoOf(schedules[i].id).pending.Some? && NothingVetoes(schedules[i].sight)
      ensures pending.Keys <= Ids(schedules) && checked.Keys <= Ids(schedules)
    {
      var listed := Ids(schedules);
      pending := Forget(pending, listed);
      checked := Forget(checked, listed);
      assert forall i | 0 <= i < |schedules| :: schedules[i].id in listed;
      assert forall i | 0 <= i < |schedules| :: MemoOf(schedules[i].id) == old(MemoOf(schedules[i].id));
      emits := TakeAll(schedules, now);
    }

    /** The gather's loop. */
    method TakeAll(schedules: seq<Listed>, now: int) returns (emits: seq<bool>)
      requires loc.Regular() && DistinctIds(schedules)
      modifies this
      ensures |emits| == |schedules|
      ensures forall i | 0 <= i < |schedules| ::
                Turn(loc, old(MemoOf(schedules[i].id)), schedules[i].sight, now, MemoOf(schedules[i].id), emits[i])
      ensures forall i | 0 <= i < |schedules| ::
                emits[i] <==>
                && MarkAdvances(old(MemoOf(schedules[i].id)), schedules[i].sight, now)
                && MemoOf(schedules[i].id).pending.Some? && NothingVetoes(schedules[i].sight)
      ensures pending.Keys <= old(pending.Keys) + Ids(schedules)
      ensures checked.Keys <= old(checked.Keys) + Ids(schedules)
    {
      ghost var before := seq(|schedules|, i requires 0 <= i < |schedules| reads this => MemoOf(schedules[i].id));
      emits := [];
      ghost var after: seq<Memo> := [];
      var k := 0;
      while k < |schedules|
        invariant TookTurns(loc, schedules, now, before, after, emits, k)
        invariant forall i | 0 <= i < k :: MemoOf(schedules[i].id) == after[i]
        invariant forall i | k <= i < |schedules| :: MemoOf(schedules[i].id) == before[i]
        invariant pending.Keys <= old(pending.Keys) + Ids(schedules)
        invariant checked.Keys <= old(checked.Keys) + Ids(schedules)
      {
        var emit := Take(schedules[k].id, schedules[k].sight, now);
        TookOneMore(loc, schedules, now, before, after, emits, k, MemoOf(schedules[k].id), emit);
        emits := emits + [emit];
        after := after + [MemoOf(schedules[k].id)];
        k := k + 1;
      }
      TurnsEmit(loc, schedules, now, before, after, emits);
    }

    /** The body of the gather's loop for one listed Schedule. */
    method Take(id: string, c: Sight, now: int) returns (emit: bool)
      requires loc.Regular()
      modifies this
      ensures Turn(loc, old(MemoOf(id)), c, now, MemoOf(id), emit)
      ensures emit <==> MarkAdvances(old(MemoOf(id)), c, now) && MemoOf(id).pending.Some? && NothingVetoes(c)
      ensures forall other | other != id :: MemoOf(other) == old(MemoOf(other))
      ensures pending.Keys <= old(pending.Keys) + {id} && checked.Keys <= old(checked.Keys) + {id}
    {
      ghost var m := MemoOf(id);
      var r := Walk(None, 0, false);
      if !c.ready || c.cadence.None? {
        assert WalkBehind(loc, m, c, now, r);
        return false;
      }
      if id !in checked {
        checked := checked[id := now];
        assert WalkBehind(loc, m, c, now, r);
        return false;
      }
      var lastChecked := checked[id];
      if now <= lastChecked {
        assert WalkBehind(loc, m, c, now, r);
        return false;
      }
      checked := checked[id := now];
      r := CronMatchesIn(c.cadence.value, loc, lastChecked, now, MATCH_CAP);
      assert WalkBehind(loc, m, c, now, r);
      if r.n > 0 {
        pending := pending[id := r.latest.value];
      }
      if id !in pending {
        return false;
      }
      if c.overlap.RunLive? {
        pending := pending - {id};
        return false;
      }
      return c.overlap.NoRun? && c.live < c.cap && c.provider.LoggedIn?;
    }

    /**
     * A candidate's closure: the owed firing stays exactly when the first obstacle its launch meets is a
     * passing one.
     */
    method Launch(id: string, f: LaunchFacts) returns (cause: LaunchCause)
      modifies this`pending
      ensures MemoOf(id) == if FirstObstacle(RowObstacles(f) + StartObstacles(f)).Passing? then old(MemoOf(id))
                            else old(MemoOf(id)).(pending := None)
      ensures forall other | other != id :: MemoOf(other) == old(MemoOf(other))
      ensures MemoOf(id).pending == if WorthRetrying(f) then old(MemoOf(id)).pending else None
      ensures cause.Spawned? <==> FirstObstacle(RowObstacles(f) + StartObstacles(f)).Clear?
    {
      cause := LaunchScheduledRun(f);
      Answer(id, cause);
    }

    /** Only a spent firing leaves the memo. */
    method Answer(id: string, cause: LaunchCause)
      modifies this`pending
      ensures MemoOf(id) == Answered(old(MemoOf(id)), cause)
      ensures forall other | other != id :: MemoOf(other) == old(MemoOf(other))
    {
      if Consumes(cause) {
        pending := pending - {id};
      }
    }
  }

  // ----- the ledger -----

  datatype Window = Window(cadence: Expr, lo: int, hi: int)

  /**
   * What became of the firings a Schedule's passes walked over. Windows from base on
   * belong to the current listing, whose mark was seeded at seed.
   */
  datatype Ledger = Ledger(walked: seq<Window>, base: nat, seed: int, owed: seq<int>,
                           consumed: set<int>, superseded: set<int>, collapsed: set<int>,
                           dropped: set<int>, abandoned: set<int>)

  const NO_LEDGER := Ledger([], 0, 0, [], {}, {}, {}, {}, {})

  datatype State = State(memo: Memo, ledger: Ledger)

  datatype Event =
    | Listing(now: int, sight: Sight)
    | Launch(cause: LaunchCause)
    | Unlisting

  /** The owed firing as a set of wall minutes. */
  ghost function Owed(loc: Location, m: Memo): set<int> {
    if m.pending.Some? then {loc.MinuteOf(m.pending.value)} else {}
  }

  /** The firings of a walked window that its newest one stands for, and those past it. */
  ghost function Collapsed(loc: Location, e: Expr, lo: int, r: Walk): set<int> {
    if r.latest.None? then {} else Firings(e, loc, lo, r.latest.value) - {loc.MinuteOf(r.latest.value)}
  }

  ghost function Dropped(loc: Location, e: Expr, lo: int, hi: int, r: Walk): set<int> {
    Firings(e, loc, if r.latest.None? then lo else r.latest.value, hi)
  }

  /** The ledger after a listed Schedule's turn. */
  ghost function Booked(loc: Location, s: State, c: Sight, now: int, r: Walk): Ledger {
    var m, l := s.memo, s.ledger;
    if c.ready && c.cadence.Some? && m.checked.None? then l.(base := |l.walked|, seed := now)
    else if !Walks(m, c, now) then l
    else
      var e, lo := c.cadence.value, m.checked.value;
      var owedNow := if r.latest.Some? then {loc.MinuteOf(r.latest.value)} else Owed(loc, m);
      l.(walked := l.walked + [Window(e, lo, now)],
         owed := if r.latest.Some? then l.owed + [r.latest.value] else l.owed,
         superseded := if r.latest.Some? then l.superseded + Owed(loc, m) else l.superseded,
         collapsed := l.collapsed + Collapsed(loc, e, lo, r),
         dropped := l.dropped + Dropped(loc, e, lo, now, r),
         consumed := if c.overlap.RunLive? then l.consumed + owedNow else l.consumed)
  }

  ghost predicate Step(loc: Location, s: State, ev: Event, s': State) {
    match ev
    case Listing(now, c) =>
      exists r :: WalkBehind(loc, s.memo, c, now, r)
                  && s' == State(Gathered(s.memo, c, now, r.latest).0, Booked(loc, s, c, now, r))
    case Launch(cause) =>
      && s.memo.pending.Some?
      && s'.memo == Answered(s.memo, cause)
      && s'.ledger == if Consumes(cause) then s.ledger.(consumed := s.ledger.consumed + Owed(loc, s.memo)) else s.ledger
    case Unlisting =>
      s' == State(NO_MEMO, s.ledger.(abandoned := s.ledger.abandoned + Owed(loc, s.memo)))
  }

  /** What the producer does in a pass is a step of the ledger's life. */
  lemma TurnIsAStep(loc: Location, s: State, c: Sight, now: int, m': Memo, emits: bool)
    requires Turn(loc, s.memo, c, now, m', emits)
    ensures exists l' :: Step(loc, s, Listing(now, c), State(m', l'))
  {
    var r :| WalkBehind(loc, s.memo, c, now, r) && (m', emits) == Gathered(s.memo, c, now, r.latest);
    assert Step(loc, s, Listing(now, c), State(m', Booked(loc, s, c, now, r)));
  }

  /** Only a first sighting reads the clock unguarded: it must not be behind what was already walked. */
  predicate ClockKept(s: State, ev: Event) {
    ev.Listing? && s.memo.checked.None? && s.ledger.walked != [] ==> s.ledger.walked[|s.ledger.walked| - 1].hi <= ev.now
  }

  // ----- the accounts -----

  ghost function Covered(loc: Location, ws: seq<Window>): set<int> {
    if ws == [] then {}
    else var last := ws[|ws| - 1]; Covered(loc, ws[..|ws| - 1]) + Firings(last.cadence, loc, last.lo, last.hi)
  }

  /** The walked windows are proper, disjoint and in order. */
  ghost predicate Disjoint(ws: seq<Window>) {
    && (forall i | 0 <= i < |ws| :: ws[i].lo < ws[i].hi)
    && (forall i, j | 0 <= i < j < |ws| :: ws[i].hi <= ws[j].lo)
  }

  /** The windows of the current listing tile the line from its seed to its mark. */
  ghost predicate Tiles(ws: seq<Window>, base: nat, seed: int, mark: int) {
    && base <= |ws|
    && (base == |ws| ==> seed == mark)
    && (base < |ws| ==> ws[base].lo == seed && ws[|ws| - 1].hi == mark)
    && (forall i | base < i < |ws| :: ws[i].lo == ws[i - 1].hi)
  }

  ghost predicate Increasing(xs: seq<int>) {
    forall i, j | 0 <= i < j < |xs| :: xs[i] < xs[j]
  }

  /** No walked window reaches past t. */
  ghost predicate WalkedBy(ws: seq<Window>, t: int) {
    forall i | 0 <= i < |ws| :: ws[i].hi <= t
  }

  function One(b: bool): nat { if b then 1 else 0 }

  /** How many fates wall minute w has met. */
  ghost function Fates(loc: Location, m: Memo, l: Ledger, w: int): nat {
    One(w in l.consumed) + One(w in l.superseded) + One(w in l.collapsed) + One(w in l.dropped)
    + One(w in l.abandoned) + One(w in Owed(loc, m))
  }

  /** Every firing walked over has exactly one fate, and nothing else has any. */
  ghost predicate Partition(loc: Location, m: Memo, l: Ledger) {
    forall w :: Fates(loc, m, l, w) == One(w in Covered(loc, l.walked))
  }

  /** The owed instants grow, none of them past the walked windows; the pending one is the newest. */
  ghost predicate OwedInOrder(m: Memo, l: Ledger) {
    && Increasing(l.owed)
    && (forall i | 0 <= i < |l.owed| :: l.walked != [] && l.owed[i] <= l.walked[|l.walked| - 1].hi)
    && (m.pending.Some? ==> l.owed != [] && m.pending.value == l.owed[|l.owed| - 1])
  }

  /** The walked windows are disjoint and in order, and those of this listing tile up to the mark. */
  ghost predicate WindowsInOrder(m: Memo, l: Ledger) {
    && Disjoint(l.walked)
    && match m.checked
       case None => m.pending.None?
       case Some(mark) => Tiles(l.walked, l.base, l.seed, mark) && WalkedBy(l.walked, mark)
  }

  /** The invariant of a Schedule's life. */
  ghost predicate Accounts(loc: Location, s: State) {
    Partition(loc, s.memo, s.ledger) && OwedInOrder(s.memo, s.ledger) && WindowsInOrder(s.memo, s.ledger)
  }

  // ----- every step keeps the accounts -----

  lemma {:induction false} CoveredLiesBehind(loc: Location, ws: seq<Window>, t: int)
    requires WalkedBy(ws, t)
    ensures forall w | w in Covered(loc, ws) :: loc.Start(w) <= t
  {
    if ws != [] {
      var last := ws[|ws| - 1];
      CoveredLiesBehind(loc, ws[..|ws| - 1], t);
      assert forall w | w in Firings(last.cadence, loc, last.lo, last.hi) :: loc.Start(w) <= last.hi;
    }
  }

  lemma CoveredOneMore(loc: Location, ws: seq<Window>, x: Window)
    ensures Covered(loc, ws + [x]) == Covered(loc, ws) + Firings(x.cadence, loc, x.lo, x.hi)
  {
    assert (ws + [x])[..|ws|] == ws;
  }

  /** The newest firing of a walk, as a set of wall minutes. */
  ghost function Newest(loc: Location, r: Walk): set<int> {
    if r.latest.None? then {} else {loc.MinuteOf(r.latest.value)}
  }

  /** A walked window's firings are the newest, those collapsed into it, and those past it. */
  lemma WindowSplits(loc: Location, e: Expr, lo: int, hi: int, r: Walk)
    requires loc.Regular() && WalkSound(e, loc, lo, hi, r)
    ensures Firings(e, loc, lo, hi) == Newest(loc, r) + Collapsed(loc, e, lo, r) + Dropped(loc, e, lo, hi, r)
    ensures Newest(loc, r) !! Collapsed(loc, e, lo, r) !! Dropped(loc, e, lo, hi, r)
  {
    if r.latest.Some? {
      FiringsExtend(e, loc, lo, r.latest.value, hi);
      FiringsAreAll(e, loc, lo, r.latest.value);
    }
  }

  /** Firings past the mark were never walked over before. */
  lemma AheadOfTheMark(loc: Location, ws: seq<Window>, e: Expr, lo: int, hi: int)
    requires WalkedBy(ws, lo)
    ensures Covered(loc, ws) !! Firings(e, loc, lo, hi)
  {
    CoveredLiesBehind(loc, ws, lo);
    assert forall w | w in Firings(e, loc, lo, hi) :: loc.Start(w) > lo;
  }

  lemma WalkKeepsPartition(loc: Location, s: State, c: Sight, now: int, r: Walk)
    requires loc.Regular() && Partition(loc, s.memo, s.ledger)
    requires Walks(s.memo, c, now) && WalkedBy(s.ledger.walked, s.memo.checked.value)
    requires WalkSound(c.cadence.value, loc, s.memo.checked.value, now, r)
    ensures Partition(loc, Gathered(s.memo, c, now, r.latest).0, Booked(loc, s, c, now, r))
  {
    var e, lo := c.cadence.value, s.memo.checked.value;
    CoveredOneMore(loc, s.ledger.walked, Window(e, lo, now));
    AheadOfTheMark(loc, s.ledger.walked, e, lo, now);
    WindowSplits(loc, e, lo, now, r);
    forall w ensures Fates(loc, Gathered(s.memo, c, now, r.latest).0, Booked(loc, s, c, now, r), w)
                     == Fates(loc, s.memo, s.ledger, w) + One(w in Firings(e, loc, lo, now)) {
      WalkAddsOneFate(loc, s, c, now, r, w);
    }
  }

  lemma WalkAddsOneFate(loc: Location, s: State, c: Sight, now: int, r: Walk, w: int)
    requires Walks(s.memo, c, now)
    requires var e, lo := c.cadence.value, s.memo.checked.value;
             && Fates(loc, s.memo, s.ledger, w) <= One(w !in Firings(e, loc, lo, now))
             && One(w in Firings(e, loc, lo, now))
                == One(w in Newest(loc, r)) + One(w in Collapsed(loc, e, lo, r)) + One(w in Dropped(loc, e, lo, now, r))
    ensures Fates(loc, Gathered(s.memo, c, now, r.latest).0, Booked(loc, s, c, now, r), w)
            == Fates(loc, s.memo, s.ledger, w) + One(w in Firings(c.cadence.value, loc, s.memo.checked.value, now))
  {
  }

  lemma WindowAppended(ws: seq<Window>, base: nat, seed: int, x: Window)
    requires Disjoint(ws) && Tiles(ws, base, seed, x.lo) && WalkedBy(ws, x.lo) && x.lo < x.hi
    ensures Disjoint(ws + [x]) && Tiles(ws + [x], base, seed, x.hi) && WalkedBy(ws + [x], x.hi)
  {
  }

  lemma OwedAppended(owed: seq<int>, t: int)
    requires Increasing(owed) && (forall i | 0 <= i < |owed| :: owed[i] < t)
    ensures Increasing(owed + [t])
  {
  }

  lemma WalkKeepsOrder(loc: Location, s: State, c: Sight, now: int, r: Walk)
    requires OwedInOrder(s.memo, s.ledger) && WindowsInOrder(s.memo, s.ledger)
    requires Walks(s.memo, c, now) && WalkSound(c.cadence.value, loc, s.memo.checked.value, now, r)
    ensures var m', l' := Gathered(s.memo, c, now, r.latest).0, Booked(loc, s, c, now, r);
            OwedInOrder(m', l') && WindowsInOrder(m', l')
  {
    var l, lo := s.ledger, s.memo.checked.value;
    WindowAppended(l.walked, l.base, l.seed, Window(c.cadence.value, lo, now));
    assert forall i | 0 <= i < |l.owed| :: l.owed[i] <= lo;
    if r.latest.Some? {
      OwedAppended(l.owed, r.latest.value);
    }
  }

  lemma AllEndByTheLast(ws: seq<Window>, t: int)
    requires Disjoint(ws) && (ws != [] ==> ws[|ws| - 1].hi <= t)
    ensures WalkedBy(ws, t)
  {
    forall i | 0 <= i < |ws| ensures ws[i].hi <= t {
      assert i < |ws| - 1 ==> ws[i].hi <= ws[|ws| - 1].lo;
    }
  }

  lemma ListingKeepsAccounts(loc: Location, s: State, c: Sight, now: int, r: Walk)
    requires loc.Regular() && Accounts(loc, s) && ClockKept(s, Listing(now, c)) && WalkBehind(loc, s.memo, c, now, r)
    ensures Accounts(loc, State(Gathered(s.memo, c, now, r.latest).0, Booked(loc, s, c, now, r)))
  {
    var m, l := s.memo, s.ledger;
    if Walks(m, c, now) {
      WalkKeepsPartition(loc, s, c, now, r);
      WalkKeepsOrder(loc, s, c, now, r);
    } else if c.ready && c.cadence.Some? && m.checked.None? {
      SeedKeepsAccounts(loc, s, now);
    }
  }

  lemma SeedKeepsAccounts(loc: Location, s: State, now: int)
    requires Accounts(loc, s) && s.memo.checked.None?
    requires var ws := s.ledger.walked; ws != [] ==> ws[|ws| - 1].hi <= now
    ensures Accounts(loc, State(s.memo.(checked := Some(now)), s.ledger.(base := |s.ledger.walked|, seed := now)))
  {
    AllEndByTheLast(s.ledger.walked, now);
    var l' := s.ledger.(base := |s.ledger.walked|, seed := now);
    assert OwedInOrder(s.memo, s.ledger);
    assert OwedInOrder(s.memo.(checked := Some(now)), l');
    forall w ensures Fates(loc, s.memo.(checked := Some(now)), l', w) == One(w in Covered(loc, l'.walked)) {
      assert Fates(loc, s.memo.(checked := Some(now)), l', w) == Fates(loc, s.memo, s.ledger, w);
    }
  }

  lemma SpentKeepsAccounts(loc: Location, s: State)
    requires Accounts(loc, s)
    ensures Accounts(loc, State(s.memo.(pending := None), s.ledger.(consumed := s.ledger.consumed + Owed(loc, s.memo))))
    ensures Accounts(loc, State(NO_MEMO, s.ledger.(abandoned := s.ledger.abandoned + Owed(loc, s.memo))))
  {
  }

  /** Every step of a Schedule's life keeps its accounts. */
  lemma StepKeepsAccounts(loc: Location, s: State, ev: Event, s': State)
    requires loc.Regular() && Accounts(loc, s) && ClockKept(s, ev) && Step(loc, s, ev, s')
    ensures Accounts(loc, s')
  {
    match ev
    case Listing(now, c) =>
      var r :| WalkBehind(loc, s.memo, c, now, r)
               && s' == State(Gathered(s.memo, c, now, r.latest).0, Booked(loc, s, c, now, r));
      ListingKeepsAccounts(loc, s, c, now, r);
    case Launch(cause) =>
      SpentKeepsAccounts(loc, s);
    case Unlisting =>
      SpentKeepsAccounts(loc, s);
  }

  // ----- runs -----

  /** A run from the empty memo: states[i+1] follows states[i] by events[i], first sightings never behind the clock. */
  ghost predicate IsRun(loc: Location, states: seq<State>, events: seq<Event>) {
    && |states| == |events| + 1
    && states[0] == State(NO_MEMO, NO_LEDGER)
    && forall i | 0 <= i < |events| :: ClockKept(states[i], events[i]) && Step(loc, states[i], events[i], states[i + 1])
  }

  /** In every reachable state every walked firing has exactly one fate, and no firing is owed twice. */
  lemma {:induction false} RunsKeepAccounts(loc: Location, states: seq<State>, events: seq<Event>, n: nat)
    requires loc.Regular() && IsRun(loc, states, events) && n < |states|
    ensures Accounts(loc, states[n])
  {
    if n > 0 {
      RunsKeepAccounts(loc, states, events, n - 1);
      StepKeepsAccounts(loc, states[n - 1], events[n - 1], states[n]);
    }
  }

  lemma {:induction false} TilesCover(loc: Location, ws: seq<Window>, base: nat, seed: int, mark: int, e: Expr, w: int)
    requires loc.Regular() && Disjoint(ws) && Tiles(ws, base, seed, mark)
    requires forall i | base <= i < |ws| :: ws[i].cadence == e
    requires Fires(e, loc, w, seed, mark)
    ensures w in Covered(loc, ws)
    decreases |ws|
  {
    if base < |ws| {
      var last := ws[|ws| - 1];
      FiringsAreAll(e, loc, last.lo, last.hi);
      if loc.Start(w) <= last.lo && base < |ws| - 1 {
        TilesCover(loc, ws[..|ws| - 1], base, seed, last.lo, e, w);
      }
    }
  }

  /**
   * While a Schedule stays listed under one cadence, every match since its first sighting is
   * consumed, superseded, collapsed, dropped, abandoned or still owed; and exactly one of these.
   */
  lemma EveryMatchHasAFate(loc: Location, s: State, e: Expr, w: int)
    requires loc.Regular() && Accounts(loc, s) && s.memo.checked.Some?
    requires forall i | s.ledger.base <= i < |s.ledger.walked| :: s.ledger.walked[i].cadence == e
    requires Fires(e, loc, w, s.ledger.seed, s.memo.checked.value)
    ensures Fates(loc, s.memo, s.ledger, w) == 1
  {
    TilesCover(loc, s.ledger.walked, s.ledger.base, s.ledger.seed, s.memo.checked.value, e, w);
  }

  /** A walk inside the horizon drops firings exactly when its window holds more than the cap. */
  lemma WalkDropsIffOverCap(loc: Location, m: Memo, c: Sight, now: int, r: Walk)
    requires loc.Regular() && Walks(m, c, now) && WalkBehind(loc, m, c, now, r)
    requires WithinHorizon(loc, m.checked.value, now)
    ensures Dropped(loc, c.cadence.value, m.checked.value, now, r) != {} <==>
            |Firings(c.cadence.value, loc, m.checked.value, now)| > 1000
  {
    if r.latest.Some? {
      FiringsExtend(c.cadence.value, loc, m.checked.value, r.latest.value, now);
    }
  }

  // ----- uncapped walks -----

  /** A walk of the event lies within the search horizon and below the cap. */
  ghost predicate Uncapped(loc: Location, s: State, ev: Event) {
    ev.Listing? && Walks(s.memo, ev.sight, ev.now) ==>
      && WithinHorizon(loc, s.memo.checked.value, ev.now)
      && |Firings(ev.sight.cadence.value, loc, s.memo.checked.value, ev.now)| < MATCH_CAP
  }

  lemma UncappedStepDropsNothing(loc: Location, s: State, ev: Event, s': State)
    requires loc.Regular() && Step(loc, s, ev, s') && Uncapped(loc, s, ev)
    ensures s'.ledger.dropped == s.ledger.dropped
  {
    if ev.Listing? {
      var r :| WalkBehind(loc, s.memo, ev.sight, ev.now, r)
               && s' == State(Gathered(s.memo, ev.sight, ev.now, r.latest).0, Booked(loc, s, ev.sight, ev.now, r));
      if Walks(s.memo, ev.sight, ev.now) {
        WalkDropsIffOverCap(loc, s.memo, ev.sight, ev.now, r);
      }
    }
  }

  /** Runs of uncapped walks drop no match. */
  lemma {:induction false} UncappedRunsDropNothing(loc: Location, states: seq<State>, events: seq<Event>, n: nat)
    requires loc.Regular() && IsRun(loc, states, events) && n < |states|
    requires forall i | 0 <= i < n :: Uncapped(loc, states[i], events[i])
    ensures states[n].ledger.dropped == {}
  {
    if n > 0 {
      UncappedRunsDropNothing(loc, states, events, n - 1);
      UncappedStepDropsNothing(loc, states[n - 1], events[n - 1], states[n]);
    }
  }

  // ----- matches of the current listing -----

  /** The matches of a fate lie behind the first sighting of the current listing. */
  ghost predicate LieBehind(loc: Location, s: State, fate: set<int>) {
    s.memo.checked.Some? ==> forall w | w in fate :: loc.Start(w) <= s.ledger.seed
  }

  /** At a first sighting everything walked so far lies behind it. */
  lemma SightingLeavesBehind(loc: Location, s: State, now: int, fate: set<int>)
    requires loc.Regular() && Accounts(loc, s) && s.memo.checked.None?
    requires s.ledger.walked != [] ==> s.ledger.walked[|s.ledger.walked| - 1].hi <= now
    requires fate == s.ledger.abandoned || fate == s.ledger.dropped
    ensures forall w | w in fate :: loc.Start(w) <= now
  {
    AllEndByTheLast(s.ledger.walked, now);
    CoveredLiesBehind(loc, s.ledger.walked, now);
    forall w | w in fate ensures loc.Start(w) <= now {
      assert Fates(loc, s.memo, s.ledger, w) == One(w in Covered(loc, s.ledger.walked));
    }
  }

  lemma StepLeavesAbandonedBehind(loc: Location, s: State, ev: Event, s': State)
    requires loc.Regular() && Accounts(loc, s) && ClockKept(s, ev) && Step(loc, s, ev, s')
    requires LieBehind(loc, s, s.ledger.abandoned)
    ensures LieBehind(loc, s', s'.ledger.abandoned)
  {
    if ev.Listing? && s.memo.checked.None? {
      SightingLeavesBehind(loc, s, ev.now, s.ledger.abandoned);
    }
  }

  /** No match of the current listing is abandoned: only a delisting abandons, and the next listing starts past it. */
  lemma {:induction false} AbandonedLieBehind(loc: Location, states: seq<State>, events: seq<Event>, n: nat)
    requires loc.Regular() && IsRun(loc, states, events) && n < |states|
    ensures LieBehind(loc, states[n], states[n].ledger.abandoned)
  {
    if n > 0 {
      AbandonedLieBehind(loc, states, events, n - 1);
      RunsKeepAccounts(loc, states, events, n - 1);
      StepLeavesAbandonedBehind(loc, states[n - 1], events[n - 1], states[n]);
    }
  }

  /** The Schedule was first sighted at event k and has stayed listed up to state n, all its walks uncapped. */
  ghost predicate ListedUncapped(loc: Location, states: seq<State>, events: seq<Event>, k: nat, n: nat)
    requires |states| == |events| + 1
  {
    && k < n < |states| && Sights(states[k], events[k])
    && (forall i | k < i <= n :: states[i].memo.checked.Some?)
    && (forall i | k < i < n :: Uncapped(loc, states[i], events[i]))
  }

  lemma StepLeavesDroppedBehind(loc: Location, s: State, ev: Event, s': State)
    requires loc.Regular() && Accounts(loc, s) && ClockKept(s, ev) && Step(loc, s, ev, s')
    requires Sights(s, ev)
             || (s.memo.checked.Some? && s'.memo.checked.Some? && Uncapped(loc, s, ev)
                 && LieBehind(loc, s, s.ledger.dropped))
    ensures LieBehind(loc, s', s'.ledger.dropped)
  {
    if Sights(s, ev) {
      SightingLeavesBehind(loc, s, ev.now, s.ledger.dropped);
    } else {
      UncappedStepDropsNothing(loc, s, ev, s');
    }
  }

  /** The step a run takes, and the accounts it takes it from. */
  lemma RunStep(loc: Location, states: seq<State>, events: seq<Event>, n: nat)
    requires loc.Regular() && IsRun(loc, states, events) && n < |events|
    ensures Accounts(loc, states[n]) && ClockKept(states[n], events[n])
            && Step(loc, states[n], events[n], states[n + 1])
  {
    RunsKeepAccounts(loc, states, events, n);
  }

  lemma NextDroppedBehind(loc: Location, states: seq<State>, events: seq<Event>, k: nat, n: nat)
    requires loc.Regular() && IsRun(loc, states, events) && ListedUncapped(loc, states, events, k, n + 1)
    requires n > k ==> LieBehind(loc, states[n], states[n].ledger.dropped)
    ensures LieBehind(loc, states[n + 1], states[n + 1].ledger.dropped)
  {
    RunStep(loc, states, events, n);
    StepLeavesDroppedBehind(loc, states[n], events[n], states[n + 1]);
  }

  lemma {:induction false} DroppedLieBehind(loc: Location, states: seq<State>, events: seq<Event>, k: nat, n: nat)
    requires loc.Regular() && IsRun(loc, states, events) && ListedUncapped(loc, states, events, k, n)
    ensures LieBehind(loc, states[n], states[n].ledger.dropped)
  {
    if n - 1 > k {
      DroppedLieBehind(loc, states, events, k, n - 1);
    }
    NextDroppedBehind(loc, states, events, k, n - 1);
  }

  /**
   * While a Schedule stays listed under one cadence and its walks are uncapped, every match since
   * its first sighting is consumed, superseded, collapsed or pending; and exactly one of these.
   */
  lemma ListedMatchesHaveOneOfFourFates(loc: Location, states: seq<State>, events: seq<Event>, k: nat, n: nat, e: Expr,
                                        w: int)
    requires loc.Regular() && IsRun(loc, states, events) && ListedUncapped(loc, states, events, k, n)
    requires var l := states[n].ledger; forall i | l.base <= i < |l.walked| :: l.walked[i].cadence == e
    requires Fires(e, loc, w, states[n].ledger.seed, states[n].memo.checked.value)
    ensures var (m, l) := (states[n].memo, states[n].ledger);
            && One(w in l.consumed) + One(w in l.superseded) + One(w in l.collapsed) + One(w in Owed(loc, m)) == 1
            && w !in l.dropped && w !in l.abandoned
  {
    RunsKeepAccounts(loc, states, events, n);
    EveryMatchHasAFate(loc, states[n], e, w);
    AbandonedLieBehind(loc, states, events, n);
    DroppedLieBehind(loc, states, events, k, n);
  }

  // ----- when a firing can be owed twice -----

  /** A first sighting sets the mark from the clock alone. */
  predicate Sights(s: State, ev: Event) {
    ev.Listing? && s.memo.checked.None? && ev.sight.ready && ev.sight.cadence.Some?
  }

  /** No first sighting reads a clock behind the greatest instant already owed. */
  predicate SightedAhead(s: State, ev: Event) {
    Sights(s, ev) && s.ledger.owed != [] ==> s.ledger.owed[|s.ledger.owed| - 1] <= ev.now
  }

  /** The owed instants rise, and none is past the mark. */
  ghost predicate OwedRises(s: State) {
    && Increasing(s.ledger.owed)
    && (s.memo.checked.Some? && s.ledger.owed != [] ==> s.ledger.owed[|s.ledger.owed| - 1] <= s.memo.checked.value)
  }

  lemma NewestAppended(owed: seq<int>, t: int)
    requires Increasing(owed) && (owed != [] ==> owed[|owed| - 1] < t)
    ensures Increasing(owed + [t])
  {
    forall i | 0 <= i < |owed| ensures owed[i] < t {
      assert i < |owed| - 1 ==> owed[i] < owed[|owed| - 1];
    }
    OwedAppended(owed, t);
  }

  lemma WalkKeepsOwedRising(loc: Location, s: State, c: Sight, now: int, r: Walk)
    requires Walks(s.memo, c, now) && WalkSound(c.cadence.value, loc, s.memo.checked.value, now, r) && OwedRises(s)
    ensures OwedRises(State(Gathered(s.memo, c, now, r.latest).0, Booked(loc, s, c, now, r)))
  {
    var m', l' := Gathered(s.memo, c, now, r.latest).0, Booked(loc, s, c, now, r);
    assert m'.checked == Some(now);
    if r.latest.Some? {
      NewestAppended(s.ledger.owed, r.latest.value);
      assert l'.owed == s.ledger.owed + [r.latest.value];
    } else {
      assert l'.owed == s.ledger.owed;
    }
  }

  lemma ListingKeepsOwedRising(loc: Location, s: State, c: Sight, now: int, r: Walk)
    requires WalkBehind(loc, s.memo, c, now, r) && OwedRises(s) && SightedAhead(s, Listing(now, c))
    ensures OwedRises(State(Gathered(s.memo, c, now, r.latest).0, Booked(loc, s, c, now, r)))
  {
    if Walks(s.memo, c, now) {
      WalkKeepsOwedRising(loc, s, c, now, r);
    }
  }

  lemma StepKeepsOwedRising(loc: Location, s: State, ev: Event, s': State)
    requires Step(loc, s, ev, s') && OwedRises(s) && SightedAhead(s, ev)
    ensures OwedRises(s')
  {
    if ev.Listing? {
      var r :| WalkBehind(loc, s.memo, ev.sight, ev.now, r)
               && s' == State(Gathered(s.memo, ev.sight, ev.now, r.latest).0, Booked(loc, s, ev.sight, ev.now, r));
      ListingKeepsOwedRising(loc, s, ev.sight, ev.now, r);
    }
  }

  /** From s on, by steps of a relation. */
  ghost predicate Continues(step: (State, Event, State) -> bool, s: State, states: seq<State>, events: seq<Event>) {
    && |states| == |events| + 1 && states[0] == s
    && forall i | 0 <= i < |events| :: step(states[i], events[i], states[i + 1])
  }

  lemma ContinuesFurther(step: (State, Event, State) -> bool, s: State, states: seq<State>, events: seq<Event>,
                         ev: Event, s': State)
    requires Continues(step, s, states, events) && step(states[|events|], ev, s')
    ensures Continues(step, s, states + [s'], events + [ev])
  {
  }

  /** The steps of a Schedule's life. */
  ghost function Steps(loc: Location): (State, Event, State) -> bool {
    (s, ev, s') => Step(loc, s, ev, s')
  }

  /**
   * Whatever the clock does otherwise, sightings not behind the greatest owed instant keep the owed instants
   * rising.
   */
  lemma {:induction false} OwedKeepsRising(loc: Location, s: State, states: seq<State>, events: seq<Event>, n: nat)
    requires OwedRises(s) && Continues(Steps(loc), s, states, events) && n < |states|
    requires forall i | 0 <= i < n :: SightedAhead(states[i], events[i])
    ensures OwedRises(states[n])
  {
    if n > 0 {
      OwedKeepsRising(loc, s, states, events, n - 1);
      StepKeepsOwedRising(loc, states[n - 1], events[n - 1], states[n]);
    }
  }

  ghost predicate OwedTwice(owed: seq<int>) {
    exists i, j | 0 <= i < j < |owed| :: owed[i] == owed[j]
  }

  /** The Schedule is relisted at `now` under cadence e and stays listed under it. */
  ghost predicate Relists(events: seq<Event>, now: int, e: Expr) {
    && events != [] && events[0].Listing? && events[0].now == now && events[0].sight.ready
    && forall i | 0 <= i < |events| ::
         !events[i].Unlisting? && (events[i].Listing? ==> events[i].sight.cadence == Some(e))
  }

  ghost predicate CanOweTwiceBy(step: (State, Event, State) -> bool, s: State, now: int, e: Expr) {
    exists states: seq<State>, events: seq<Event> ::
      Continues(step, s, states, events) && Relists(events, now, e) && OwedTwice(states[|events|].ledger.owed)
  }

  ghost predicate CanOweTwice(loc: Location, s: State, now: int, e: Expr) {
    CanOweTwiceBy(Steps(loc), s, now, e)
  }

  /** While it stays listed the mark stays. */
  lemma {:induction false} MarkStays(loc: Location, s: State, states: seq<State>, events: seq<Event>, now: int, e: Expr,
                                     n: nat)
    requires Continues(Steps(loc), s, states, events) && Relists(events, now, e) && 1 <= n < |states|
    ensures states[n].memo.checked.Some?
  {
    if n > 1 {
      MarkStays(loc, s, states, events, now, e, n - 1);
    }
  }

  lemma OnlyFiringOfItsInstant(loc: Location, e: Expr, w: int, t: int)
    requires loc.Regular() && e.MatchesMinute(w) && loc.Exists(w) && t == loc.Start(w)
    ensures Firings(e, loc, t - 1, t) == {w}
  {
    var before := t - 1;
    FiringsAreAll(e, loc, before, t);
    forall v | Fires(e, loc, v, before, t) ensures v == w {
      assert loc.Start(v) == loc.Start(w);
      assert v < w ==> loc.Start(v) < loc.Start(w);
      assert w < v ==> loc.Start(w) < loc.Start(v);
    }
    assert Fires(e, loc, w, before, t);
  }

  /** Some walk of every window meets what the horizon promises of it, capped or not. */
  lemma WalkExists(e: Expr, loc: Location, lo: int, hi: int) returns (r: Walk)
    requires loc.Regular() && lo <= hi
    ensures WalkOf(e, loc, lo, hi, MATCH_CAP, r)
    decreases hi - lo
  {
    FiringsAreAll(e, loc, lo, lo);
    if lo == hi {
      r := Walk(None, 0, false);
    } else {
      var before := WalkExists(e, loc, lo, hi - 1);
      r := WalkOneOn(e, loc, lo, hi, before);
    }
  }

  lemma WalkOneOn(e: Expr, loc: Location, lo: int, hi: int, before: Walk) returns (r: Walk)
    requires loc.Regular() && lo < hi && WalkOf(e, loc, lo, hi - 1, MATCH_CAP, before)
    ensures WalkOf(e, loc, lo, hi, MATCH_CAP, r)
  {
    FiringsExtend(e, loc, lo, hi - 1, hi);
    FiringsAreAll(e, loc, hi - 1, hi);
    var last := Firings(e, loc, hi - 1, hi);
    if before.capped {
      SubsetIsSmaller(Firings(e, loc, lo, hi - 1), Firings(e, loc, lo, hi));
      r := before;
    } else if w :| w in last {
      OnlyFiringOfItsInstant(loc, e, w, hi);
      FiringsAreAll(e, loc, hi, hi);
      assert Fires(e, loc, w, lo, hi) && loc.MinuteOf(hi) == w;
      r := Walk(Some(hi), before.n + 1, before.n + 1 >= MATCH_CAP);
    } else {
      r := before;
      if r.latest.Some? {
        FiringsExtend(e, loc, r.latest.value, hi - 1, hi);
      }
    }
  }

  /** A pass with its walk is a step; a walking one moves the mark and may append to what is owed. */
  lemma PassIsAStep(loc: Location, s: State, e: Expr, now: int, r: Walk) returns (s': State)
    requires s.memo.checked.Some? && s.memo.checked.value < now
    requires WalkOf(e, loc, s.memo.checked.value, now, MATCH_CAP, r)
    ensures Steps(loc)(s, Listing(now, Unvetoed(e)), s')
    ensures s'.memo == Memo(Some(now), if r.latest.Some? then r.latest else s.memo.pending)
    ensures s'.ledger.owed == if r.latest.Some? then s.ledger.owed + [r.latest.value] else s.ledger.owed
    ensures s'.ledger.consumed == s.ledger.consumed
  {
    var c := Unvetoed(e);
    assert WalkBehind(loc, s.memo, c, now, r);
    s' := State(Gathered(s.memo, c, now, r.latest).0, Booked(loc, s, c, now, r));
  }

  /** A pass over the last instant before a firing, and the firing, owes it. */
  lemma PassAtOwes(loc: Location, e: Expr, w: int, t: int, s: State) returns (s': State)
    requires loc.Regular() && e.MatchesMinute(w) && loc.Exists(w) && t == loc.Start(w)
    requires s.memo.checked == Some(t - 1)
    ensures Steps(loc)(s, Listing(t, Unvetoed(e)), s')
    ensures s'.ledger.owed == s.ledger.owed + [t] && s'.ledger.consumed == s.ledger.consumed
    ensures s'.memo == Memo(Some(t), Some(t))
  {
    WalkToFiringIsWalk(loc, e, w, t);
    s' := PassIsAStep(loc, s, e, t, Walk(Some(t), 1, false));
  }

  lemma WalkToFiringIsWalk(loc: Location, e: Expr, w: int, t: int)
    requires loc.Regular() && e.MatchesMinute(w) && loc.Exists(w) && t == loc.Start(w)
    ensures WalkOf(e, loc, t - 1, t, MATCH_CAP, Walk(Some(t), 1, false))
  {
    OnlyFiringOfItsInstant(loc, e, w, t);
    FiringsAreAll(e, loc, t - 1, t);
    FiringsAreAll(e, loc, t, t);
    assert w in Firings(e, loc, t - 1, t) && Firings(e, loc, t, t) == {};
    assert IsFiringInstant(e, loc, t, t - 1);
  }

  /** A pass moves the mark, whatever it walks over. */
  lemma PassMovesMark(loc: Location, e: Expr, now: int, s: State) returns (s': State)
    requires loc.Regular() && s.memo.checked.Some? && s.memo.checked.value < now
    ensures Steps(loc)(s, Listing(now, Unvetoed(e)), s')
    ensures s'.memo.checked == Some(now) && s.ledger.owed <= s'.ledger.owed
  {
    var r := WalkExists(e, loc, s.memo.checked.value, now);
    s' := PassIsAStep(loc, s, e, now, r);
  }

  lemma AgainIsTwice(owed: seq<int>, later: seq<int>)
    requires owed != [] && owed <= later
    ensures OwedTwice(later + [owed[|owed| - 1]])
  {
    var all := later + [owed[|owed| - 1]];
    assert all[|owed| - 1] == all[|later|];
  }

  /** A Schedule just sighted at the instant before its greatest owed firing owes that firing again at its next pass. */
  lemma OneBehindOwesTwice(loc: Location, s: State, seeded: State, t: int, e: Expr, w: int)
    requires loc.Regular() && e.MatchesMinute(w) && loc.Exists(w) && t == loc.Start(w)
    requires s.ledger.owed != [] && t == s.ledger.owed[|s.ledger.owed| - 1]
    requires Steps(loc)(s, Listing(t - 1, Unvetoed(e)), seeded)
    requires seeded.memo.checked == Some(t - 1) && seeded.ledger.owed == s.ledger.owed
    ensures CanOweTwice(loc, s, t - 1, e)
  {
    var again := PassAtOwes(loc, e, w, t, seeded);
    AgainIsTwice(s.ledger.owed, s.ledger.owed);
    TwoPassesContinue(Steps(loc), s, t - 1, e, seeded, t, again);
  }

  /** Sighted earlier, it owes it again by a pass at the instant before and one at it. */
  lemma FurtherBehindOwesTwice(loc: Location, s: State, seeded: State, now: int, t: int, e: Expr, w: int)
    requires loc.Regular() && e.MatchesMinute(w) && loc.Exists(w) && t == loc.Start(w)
    requires s.ledger.owed != [] && t == s.ledger.owed[|s.ledger.owed| - 1] && now < t - 1
    requires Steps(loc)(s, Listing(now, Unvetoed(e)), seeded)
    requires seeded.memo.checked == Some(now) && seeded.ledger.owed == s.ledger.owed
    ensures CanOweTwice(loc, s, now, e)
  {
    var before := PassMovesMark(loc, e, t - 1, seeded);
    var again := PassAtOwes(loc, e, w, t, before);
    AgainIsTwice(s.ledger.owed, before.ledger.owed);
    ThreePassesContinue(Steps(loc), s, now, e, seeded, t - 1, before, t, again);
  }

  /** Relisted behind its greatest owed firing, a Schedule can owe that firing again, however far behind. */
  lemma BehindOwesTwice(loc: Location, s: State, now: int, e: Expr, w: int)
    requires loc.Regular() && s.memo == NO_MEMO && s.ledger.owed != []
    requires var t := s.ledger.owed[|s.ledger.owed| - 1];
             e.MatchesMinute(w) && loc.Exists(w) && t == loc.Start(w) && now < t && WithinHorizon(loc, t - 1, t)
    ensures CanOweTwice(loc, s, now, e)
  {
    var t := s.ledger.owed[|s.ledger.owed| - 1];
    var seeded := SightingSeeds(loc, e, now, s);
    if now == t - 1 {
      OneBehindOwesTwice(loc, s, seeded, t, e, w);
    } else {
      FurtherBehindOwesTwice(loc, s, seeded, now, t, e, w);
    }
  }

  lemma TwoPassesContinue(step: (State, Event, State) -> bool, s: State, now: int, e: Expr, s1: State, t: int,
                          s2: State)
    requires var c := Unvetoed(e);
             step(s, Listing(now, c), s1) && step(s1, Listing(t, c), s2)
    requires OwedTwice(s2.ledger.owed)
    ensures CanOweTwiceBy(step, s, now, e)
  {
    var c := Unvetoed(e);
    ContinuesFurther(step, s, [s], [], Listing(now, c), s1);
    ContinuesFurther(step, s, [s] + [s1], [] + [Listing(now, c)], Listing(t, c), s2);
    var states, events := [s] + [s1] + [s2], [] + [Listing(now, c)] + [Listing(t, c)];
    assert Continues(step, s, states, events) && Relists(events, now, e) && OwedTwice(states[|events|].ledger.owed);
  }

  lemma ThreePassesContinue(step: (State, Event, State) -> bool, s: State, now: int, e: Expr, s1: State, u: int,
                            s2: State, t: int, s3: State)
    requires var c := Unvetoed(e);
             step(s, Listing(now, c), s1) && step(s1, Listing(u, c), s2) && step(s2, Listing(t, c), s3)
    requires OwedTwice(s3.ledger.owed)
    ensures CanOweTwiceBy(step, s, now, e)
  {
    var c := Unvetoed(e);
    ContinuesFurther(step, s, [s], [], Listing(now, c), s1);
    ContinuesFurther(step, s, [s] + [s1], [] + [Listing(now, c)], Listing(u, c), s2);
    ContinuesFurther(step, s, [s] + [s1] + [s2], [] + [Listing(now, c)] + [Listing(u, c)], Listing(t, c), s3);
    var states, events := [s] + [s1] + [s2] + [s3], [] + [Listing(now, c)] + [Listing(u, c)] + [Listing(t, c)];
    assert Continues(step, s, states, events) && Relists(events, now, e) && OwedTwice(states[|events|].ledger.owed);
  }

  /** Relisted at or after it, a Schedule never owes an instant twice while it stays listed. */
  lemma AheadOwesOnce(loc: Location, s: State, states: seq<State>, events: seq<Event>, now: int, e: Expr)
    requires OwedRises(s) && s.memo == NO_MEMO && (s.ledger.owed != [] ==> s.ledger.owed[|s.ledger.owed| - 1] <= now)
    requires Continues(Steps(loc), s, states, events) && Relists(events, now, e)
    ensures !OwedTwice(states[|events|].ledger.owed)
  {
    forall i | 0 <= i < |events| ensures SightedAhead(states[i], events[i]) {
      if i > 0 {
        MarkStays(loc, s, states, events, now, e, i);
      }
    }
    OwedKeepsRising(loc, s, states, events, |events|);
  }

  /**
   * A delisted Schedule whose greatest owed instant is a firing of its cadence can owe an instant
   * again, once relisted, exactly when the relisting reads a clock behind that instant.
   */
  lemma OwesTwiceIffBehind(loc: Location, s: State, now: int, e: Expr, w: int)
    requires loc.Regular() && OwedRises(s) && s.memo == NO_MEMO && s.ledger.owed != []
    requires var t := s.ledger.owed[|s.ledger.owed| - 1];
             e.MatchesMinute(w) && loc.Exists(w) && t == loc.Start(w) && (now < t ==> WithinHorizon(loc, t - 1, t))
    ensures CanOweTwice(loc, s, now, e) <==> now < s.ledger.owed[|s.ledger.owed| - 1]
  {
    if now < s.ledger.owed[|s.ledger.owed| - 1] {
      BehindOwesTwice(loc, s, now, e, w);
    } else {
      forall states: seq<State>, events: seq<Event>
        | Continues(Steps(loc), s, states, events) && Relists(events, now, e)
        ensures !OwedTwice(states[|events|].ledger.owed)
      {
        AheadOwesOnce(loc, s, states, events, now, e);
      }
    }
  }

  /** The owed instants of a run rise if no relisting is behind the greatest of them, step-backs of the clock or not. */
  lemma RunsOweInOrder(loc: Location, states: seq<State>, events: seq<Event>, n: nat)
    requires Continues(Steps(loc), State(NO_MEMO, NO_LEDGER), states, events) && n < |states|
    requires forall i | 0 <= i < n :: SightedAhead(states[i], events[i])
    ensures Increasing(states[n].ledger.owed)
  {
    OwedKeepsRising(loc, State(NO_MEMO, NO_LEDGER), states, events, n);
  }

  /** A first sighting only sets the mark. */
  lemma SightingSeeds(loc: Location, e: Expr, now: int, s: State) returns (seeded: State)
    requires s.memo == NO_MEMO
    ensures Steps(loc)(s, Listing(now, Unvetoed(e)), seeded)
    ensures seeded.memo == Memo(Some(now), None)
    ensures seeded.ledger.owed == s.ledger.owed && seeded.ledger.consumed == s.ledger.consumed
  {
    seeded := State(Memo(Some(now), None), s.ledger.(base := |s.ledger.walked|, seed := now));
    var c := Unvetoed(e);
    assert WalkBehind(loc, NO_MEMO, c, now, Walk(None, 0, false));
  }

  /** Delisting a Schedule that owes nothing forgets its mark and nothing else. */
  lemma DelistingForgets(loc: Location, s: State)
    requires s.memo.pending.None?
    ensures Steps(loc)(s, Unlisting, State(NO_MEMO, s.ledger))
  {
    assert s.ledger.abandoned + Owed(loc, s.memo) == s.ledger.abandoned;
  }

  /** A launch that comes up consumes the owed firing and leaves the rest. */
  lemma SpentFiring(loc: Location, s: State, w: int) returns (spent: State)
    requires s.memo.pending.Some? && loc.MinuteOf(s.memo.pending.value) == w
    ensures Steps(loc)(s, Launch(Spawned), spent)
    ensures spent.memo.pending.None? && spent.ledger.owed == s.ledger.owed
    ensures spent.ledger.consumed == s.ledger.consumed + {w}
  {
    assert Owed(loc, s.memo) == {w};
    spent := State(s.memo.(pending := None), s.ledger.(consumed := s.ledger.consumed + {w}));
  }

  /** The six events of a Schedule delisted and relisted behind its old mark. */
  function Relisted(e: Expr, t: int): seq<Event> {
    var c := Unvetoed(e);
    [Listing(t - 1, c), Listing(t, c), Launch(Spawned), Unlisting, Listing(t - 1, c), Listing(t, c)]
  }

  lemma FiresOnce(loc: Location, e: Expr, w: int, t: int) returns (seeded: State, owing: State, fired: State)
    requires loc.Regular() && e.MatchesMinute(w) && loc.Exists(w) && t == loc.Start(w)
    ensures Steps(loc)(State(NO_MEMO, NO_LEDGER), Listing(t - 1, Unvetoed(e)), seeded)
    ensures Steps(loc)(seeded, Listing(t, Unvetoed(e)), owing)
    ensures Steps(loc)(owing, Launch(Spawned), fired)
    ensures fired.memo.pending.None? && fired.ledger.owed == [t] && fired.ledger.consumed == {w}
  {
    seeded := SightingSeeds(loc, e, t - 1, State(NO_MEMO, NO_LEDGER));
    owing := PassAtOwes(loc, e, w, t, seeded);
    fired := SpentFiring(loc, owing, w);
  }

  lemma FiresAgain(loc: Location, e: Expr, w: int, t: int, fired: State)
    returns (gone: State, relisted: State, again: State)
    requires loc.Regular() && e.MatchesMinute(w) && loc.Exists(w) && t == loc.Start(w)
    requires fired.memo.pending.None?
    ensures Steps(loc)(fired, Unlisting, gone)
    ensures Steps(loc)(gone, Listing(t - 1, Unvetoed(e)), relisted)
    ensures Steps(loc)(relisted, Listing(t, Unvetoed(e)), again)
    ensures again.memo.pending == Some(t) && again.ledger.consumed == fired.ledger.consumed
    ensures again.ledger.owed == fired.ledger.owed + [t]
  {
    DelistingForgets(loc, fired);
    gone := State(NO_MEMO, fired.ledger);
    relisted := SightingSeeds(loc, e, t - 1, gone);
    again := PassAtOwes(loc, e, w, t, relisted);
  }

  /** Without the clock assumption a firing can be owed twice: delisting forgets the mark. */
  lemma SteppedBackRelistingOwesTwice(loc: Location, e: Expr, w: int, t: int) returns (states: seq<State>)
    requires loc.Regular() && e.MatchesMinute(w) && loc.Exists(w) && t == loc.Start(w) && WithinHorizon(loc, t - 1, t)
    ensures Continues(Steps(loc), State(NO_MEMO, NO_LEDGER), states, Relisted(e, t))
    ensures var last := states[|states| - 1];
            last.memo.pending == Some(t) && last.ledger.consumed == {w} && last.ledger.owed == [t, t]
  {
    var seeded, owing, fired := FiresOnce(loc, e, w, t);
    var gone, relisted, again := FiresAgain(loc, e, w, t, fired);
    states := RelistedRun(Steps(loc), e, t, State(NO_MEMO, NO_LEDGER), seeded, owing, fired, gone, relisted, again);
  }

  lemma RelistedRun(step: (State, Event, State) -> bool, e: Expr, t: int,
                    s0: State, s1: State, s2: State, s3: State, s4: State, s5: State, s6: State)
    returns (states: seq<State>)
    requires var c := Unvetoed(e);
             && step(s0, Listing(t - 1, c), s1) && step(s1, Listing(t, c), s2) && step(s2, Launch(Spawned), s3)
             && step(s3, Unlisting, s4) && step(s4, Listing(t - 1, c), s5) && step(s5, Listing(t, c), s6)
    ensures Continues(step, s0, states, Relisted(e, t)) && states[|states| - 1] == s6
  {
    states := [s0, s1, s2, s3, s4, s5, s6];
  }
}
