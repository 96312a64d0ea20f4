/**
 * The life of a run: launches under the start guard, the reaper's claim and its teardown, the
 * neutral Stop, session deaths and the zombie drain, interleaved step by step.
 */
module RunLifecycle {
  import opened Text

  type RunId = nat
  type Name = string

  datatype Kind = Manual | AfkManual | AfkAuto | Lander | Fix | Escalate | Scheduled

  datatype Outcome = Success | Escalated | Death | Timeout | Stopped

  datatype Row = Row(session: Name, kind: Kind, deadline: Option<int>, ended: Option<Outcome>)

  // ----- classification -----

  /** The outcome of one look at a run; None while it is running. */
  function Classify(done: bool, alive: bool, now: int, deadline: int): Option<Outcome> {
    if done then Some(Success)
    else if !alive then Some(Death)
    else if now >= deadline then Some(Timeout)
    else None
  }

  const DAY := 24 * 60 * 60

  /** The claim's outcome: Classify, then the escalated and the scheduled promotion. */
  function ClaimOutcome(row: Row, done: bool, escalated: bool, alive: bool, now: int): Option<Outcome> {
    var deadline := if row.deadline.Some? then row.deadline.value else now + DAY;
    var first := Classify(done, alive, now, deadline);
    var second := if first == Some(Success) && escalated then Some(Escalated) else first;
    if row.kind.Scheduled? && (second == Some(Timeout) || (second == Some(Death) && now >= deadline)) then Some(Success)
    else second
  }

  /**
   * What a claim says of the run: never a Stop; escalated only through the marker; and a
   * scheduled run, which has no done-signal, fails only by dying before its deadline.
   */
  lemma ClaimTable(row: Row, done: bool, escalated: bool, alive: bool, now: int)
    ensures var outcome := ClaimOutcome(row, done, escalated, alive, now);
            && (outcome == Some(Escalated) <==> done && escalated)
            && (outcome == Some(Death) <==>
                  !done && !alive && (row.kind.Scheduled? && row.deadline.Some? ==> now < row.deadline.value))
            && (outcome == Some(Timeout) <==>
                  !done && alive && !row.kind.Scheduled? && row.deadline.Some? && now >= row.deadline.value)
            && (outcome.None? <==> !done && alive && (row.deadline.Some? ==> now < row.deadline.value))
            && outcome != Some(Stopped)
  {
  }

  // ----- the interleaved state -----

  datatype Stage = Marked | HasRow | Spawned | RollingBack | Killed | Unrowed

  datatype Launch = Launch(name: Name, stage: Stage)

  datatype Effect = Pushed | TornDown | Counted

  /** Where the watcher stands: reaping one run, or draining one session. Between looks, launches move on. */
  datatype Watch =
    | Resting
    | Observed(id: RunId, done: bool, escalated: bool)
    | RowSeen(id: RunId, row: Row, done: bool, escalated: bool)
    | GuardSeen(id: RunId, row: Row, done: bool, escalated: bool)
    | LiveSeen(id: RunId, row: Row, done: bool, escalated: bool, alive: bool)
    | Claimed(id: RunId, name: Name, outcome: Outcome, alive: bool)
    | Notified(id: RunId, name: Name, outcome: Outcome, alive: bool)
    | Quiet(id: RunId, outcome: Outcome)
    | Torn(id: RunId, outcome: Outcome)
    | Unguarded(name: Name)
    | Orphan(name: Name)

  /** Where a neutral Stop stands: it has found its run, or written its outcome. */
  datatype Stop = NoStop | StopFound(id: RunId) | Written(name: Name)

  datatype World = World(
    rows: map<RunId, Row>, guard: set<Name>, live: set<Name>,
    launches: map<RunId, Launch>, used: set<RunId>,
    watch: Watch, stop: Stop, effects: multiset<(RunId, Effect)>)

  const START := World(map[], {}, {}, map[], {}, Resting, NoStop, multiset{})

  predicate IsActive(rows: map<RunId, Row>, id: RunId) {
    id in rows && rows[id].ended.None?
  }

  predicate HasActive(rows: map<RunId, Row>, name: Name) {
    exists id | id in rows :: rows[id].ended.None? && rows[id].session == name
  }

  /** Someone between a look at this session's row and its kill. */
  predicate Busy(w: World, name: Name) {
    || w.stop == Written(name)
    || (w.watch.Claimed? && w.watch.name == name) || (w.watch.Notified? && w.watch.name == name)
    || (w.watch.Unguarded? && w.watch.name == name) || (w.watch.Orphan? && w.watch.name == name)
  }

  datatype Event =
    | Mark(id: RunId, name: Name)
    | CreateRun(id: RunId, kind: Kind, deadline: Option<int>)
    | Spawn(id: RunId)
    | Fail(id: RunId, halfLive: bool)
    | RollbackKill(id: RunId, killed: bool)
    | DeleteRun(id: RunId, deleted: bool)
    | Clear(id: RunId)
    | SessionDies(name: Name)
    | Observe(id: RunId, done: bool, escalated: bool)
    | LookRow
    | LookGuard
    | LookLive(readable: bool)
    | WriteOutcome(now: int)
    | Notify
    | ReapKill(killed: bool)
    | Teardown
    | Count
    | DrainLook(name: Name)
    | DrainLookup
    | DrainKill(killed: bool)
    | StopLook(id: RunId)
    | StopWrite
    | StopKill(killed: bool)

  /** The claim holds the runs lock from its first look to its write. */
  predicate Claiming(w: World) {
    w.watch.RowSeen? || w.watch.GuardSeen? || w.watch.LiveSeen?
  }

  predicate InStage(w: World, id: RunId, stage: Stage) {
    id in w.launches && w.launches[id].stage == stage
  }

  /** When an event may happen. Names are not relaunched while active, mid-launch or between a look and a kill. */
  predicate Can(w: World, e: Event) {
    match e
    case Mark(id, name) => id !in w.used && name !in w.guard && !HasActive(w.rows, name) && !Busy(w, name)
    case CreateRun(id, _, _) => InStage(w, id, Marked)
    case Spawn(id) => InStage(w, id, HasRow)
    case Fail(id, _) => InStage(w, id, HasRow) || InStage(w, id, Marked)
    case RollbackKill(id, _) => InStage(w, id, RollingBack)
    case DeleteRun(id, _) => InStage(w, id, Killed)
    case Clear(id) => InStage(w, id, Spawned) || InStage(w, id, Unrowed)
    case SessionDies(_) => true
    case Observe(_, _, _) => w.watch.Resting?
    case LookRow => w.watch.Observed? && w.stop.NoStop?
    case LookGuard => w.watch.RowSeen?
    case LookLive(_) => w.watch.GuardSeen?
    case WriteOutcome(_) => w.watch.LiveSeen?
    case Notify => w.watch.Claimed?
    case ReapKill(_) => w.watch.Notified?
    case Teardown => w.watch.Quiet?
    case Count => w.watch.Torn?
    case DrainLook(_) => w.watch.Resting?
    case DrainLookup => w.watch.Unguarded?
    case DrainKill(_) => w.watch.Orphan?
    case StopLook(id) => w.stop.NoStop? && !Claiming(w) && IsActive(w.rows, id) && !w.rows[id].kind.Manual?
    case StopWrite => w.stop.StopFound?
    case StopKill(_) => w.stop.Written?
  }

  function Move(w: World, id: RunId, stage: Stage): map<RunId, Launch>
    requires id in w.launches
  {
    w.launches[id := w.launches[id].(stage := stage)]
  }

  function Kill(live: set<Name>, name: Name, killed: bool): set<Name> {
    if killed then live - {name} else live
  }

  /** EndRun: only a row still active takes an outcome. */
  function WithOutcome(rows: map<RunId, Row>, id: RunId, outcome: Outcome): map<RunId, Row> {
    if IsActive(rows, id) then rows[id := rows[id].(ended := Some(outcome))] else rows
  }

  /** Success and escalation push; AFK kinds and fix runs move the failure counter. */
  predicate Pushes(kind: Kind, outcome: Outcome) {
    outcome.Escalated? || (outcome.Success? && (kind.AfkManual? || kind.AfkAuto?))
  }

  predicate Counts(kind: Kind, outcome: Outcome) {
    !outcome.Escalated? && (kind.AfkManual? || kind.AfkAuto? || kind.Fix? || kind.Scheduled?)
  }

  function DoLaunch(w: World, e: Event): World
    requires Can(w, e)
  {
    match e
    case Mark(id, name) =>
      w.(guard := w.guard + {name}, used := w.used + {id}, launches := w.launches[id := Launch(name, Marked)])
    case CreateRun(id, kind, deadline) =>
      w.(rows := w.rows[id := Row(w.launches[id].name, kind, deadline, None)], launches := Move(w, id, HasRow))
    case Spawn(id) => w.(live := w.live + {w.launches[id].name}, launches := Move(w, id, Spawned))
    case Fail(id, halfLive) =>
      w.(live := if halfLive then w.live + {w.launches[id].name} else w.live, launches := Move(w, id, RollingBack))
    case RollbackKill(id, killed) =>
      w.(live := Kill(w.live, w.launches[id].name, killed), launches := Move(w, id, Killed))
    case DeleteRun(id, deleted) =>
      w.(rows := if deleted then w.rows - {id} else w.rows, launches := Move(w, id, Unrowed))
    case Clear(id) => w.(guard := w.guard - {w.launches[id].name}, launches := w.launches - {id})
    case SessionDies(name) => w.(live := w.live - {name})
    case _ => w
  }

  function DoWatch(w: World, e: Event): World
    requires Can(w, e)
  {
    match e
    case Observe(id, done, escalated) => w.(watch := Observed(id, done, escalated))
    case LookRow =>
      if !IsActive(w.rows, w.watch.id) then w.(watch := Resting)
      else w.(watch := RowSeen(w.watch.id, w.rows[w.watch.id], w.watch.done, w.watch.escalated))
    case LookGuard =>
      if w.watch.row.session in w.guard then w.(watch := Resting)
      else w.(watch := GuardSeen(w.watch.id, w.watch.row, w.watch.done, w.watch.escalated))
    case LookLive(readable) =>
      if !readable then w.(watch := Resting)
      else w.(
        watch := LiveSeen(w.watch.id, w.watch.row, w.watch.done, w.watch.escalated, w.watch.row.session in w.live))
    case WriteOutcome(now) =>
      var outcome := ClaimOutcome(w.watch.row, w.watch.done, w.watch.escalated, w.watch.alive, now);
      if outcome.None? || !IsActive(w.rows, w.watch.id) then w.(watch := Resting)
      else w.(rows := WithOutcome(w.rows, w.watch.id, outcome.value),
              watch := Claimed(w.watch.id, w.watch.row.session, outcome.value, w.watch.alive))
    case Notify =>
      w.(effects := if w.watch.id in w.rows && Pushes(w.rows[w.watch.id].kind, w.watch.outcome)
                    then w.effects + multiset{(w.watch.id, Pushed)} else w.effects,
         watch := Notified(w.watch.id, w.watch.name, w.watch.outcome, w.watch.alive))
    case ReapKill(killed) =>
      w.(live := Kill(w.live, w.watch.name, killed && w.watch.alive), watch := Quiet(w.watch.id, w.watch.outcome))
    case Teardown =>
      w.(effects := w.effects + multiset{(w.watch.id, TornDown)}, watch := Torn(w.watch.id, w.watch.outcome))
    case Count =>
      w.(effects := if w.watch.id in w.rows && Counts(w.rows[w.watch.id].kind, w.watch.outcome)
                    then w.effects + multiset{(w.watch.id, Counted)} else w.effects,
         watch := Resting)
    case DrainLook(name) => w.(watch := if name in w.live && name !in w.guard then Unguarded(name) else Resting)
    case DrainLookup => w.(watch := if HasActive(w.rows, w.watch.name) then Resting else Orphan(w.watch.name))
    case DrainKill(killed) => w.(live := Kill(w.live, w.watch.name, killed), watch := Resting)
    case StopLook(id) => w.(stop := StopFound(id))
    case StopWrite =>
      if !IsActive(w.rows, w.stop.id) then w.(stop := NoStop)
      else w.(rows := WithOutcome(w.rows, w.stop.id, Stopped), stop := Written(w.rows[w.stop.id].session))
    case StopKill(killed) => w.(live := Kill(w.live, w.stop.name, killed), stop := NoStop)
    case _ => w
  }

  predicate IsLaunchEvent(e: Event) {
    e.Mark? || e.CreateRun? || e.Spawn? || e.Fail? || e.RollbackKill? || e.DeleteRun? || e.Clear? || e.SessionDies?
  }

  function Do(w: World, e: Event): World
    requires Can(w, e)
  {
    if IsLaunchEvent(e) then DoLaunch(w, e) else DoWatch(w, e)
  }

  // ----- what every reachable state keeps -----

  /** Every launch in progress is guarded, one launch a name. */
  ghost predicate GuardHolds(w: World) {
    && (forall id | id in w.launches :: w.launches[id].name in w.guard && id in w.used)
    && (forall i, j | i in w.launches && j in w.launches && w.launches[i].name == w.launches[j].name :: i == j)
  }

  /** A launch's row appears after its mark and carries its name. */
  ghost predicate LaunchesHold(w: World) {
    && (forall id | id in w.launches && w.launches[id].stage.Marked? :: id !in w.rows)
    && (forall id | id in w.launches && id in w.rows :: w.rows[id].session == w.launches[id].name)
  }

  /** Active rows have distinct names, and a guarded name's active row belongs to the launch. */
  ghost predicate RowsHold(w: World) {
    && (forall id | id in w.rows :: id in w.used)
    && (forall i, j | IsActive(w.rows, i) && IsActive(w.rows, j) && w.rows[i].session == w.rows[j].session :: i == j)
    && (forall id | IsActive(w.rows, id) && w.rows[id].session in w.guard :: id in w.launches)
    && (forall id | id in w.launches && w.launches[id].stage.Marked? :: !HasActive(w.rows, w.launches[id].name))
  }

  /** A reaped run: ended by the reaper, its launch long over. */
  ghost predicate Reaped(w: World, id: RunId) {
    id in w.rows && w.rows[id].ended.Some? && !w.rows[id].ended.value.Stopped? && id !in w.launches
  }

  /** Each effect of a reap is had once, by a reaped run, in its order. */
  ghost predicate EffectsHold(w: World) {
    forall x: (RunId, Effect) | x in w.effects :: Reaped(w, x.0) && w.effects[x] == 1
  }

  ghost predicate None3(w: World, id: RunId, pushed: bool, torn: bool) {
    && (!pushed ==> (id, Pushed) !in w.effects) && (!torn ==> (id, TornDown) !in w.effects)
    && (id, Counted) !in w.effects
  }

  ghost predicate Orphaned(w: World, name: Name) {
    name !in w.guard && !HasActive(w.rows, name)
  }

  ghost predicate Ended(w: World, id: RunId, outcome: Outcome) {
    Reaped(w, id) && w.rows[id].ended == Some(outcome)
  }

  /** The row a claim looked at: still that row or rolled back, never ended by another. */
  ghost predicate StillThere(w: World, id: RunId, row: Row) {
    && row.ended.None? && id in w.used && (id in w.rows ==> w.rows[id] == row)
    && (id in w.launches ==> !w.launches[id].stage.Marked?)
  }

  /** Past the guard look an active run's launch is over, and its name cannot be launched again. */
  ghost predicate PastGuard(w: World, id: RunId, row: Row) {
    StillThere(w, id, row) && (id in w.rows ==> row.session !in w.guard && id !in w.launches)
  }

  ghost predicate WatchHolds(w: World) {
    match w.watch
    case RowSeen(id, row, _, _) => StillThere(w, id, row)
    case GuardSeen(id, row, _, _) => PastGuard(w, id, row)
    case LiveSeen(id, row, _, _, _) => PastGuard(w, id, row)
    case Claimed(id, name, outcome, _) =>
      Ended(w, id, outcome) && None3(w, id, false, false) && Orphaned(w, name) && w.rows[id].session == name
    case Notified(id, name, outcome, _) =>
      Ended(w, id, outcome) && None3(w, id, true, false) && Orphaned(w, name) && w.rows[id].session == name
    case Quiet(id, outcome) => Ended(w, id, outcome) && None3(w, id, true, false)
    case Torn(id, outcome) => Ended(w, id, outcome) && None3(w, id, true, true)
    case Unguarded(name) => name !in w.guard
    case Orphan(name) => Orphaned(w, name)
    case _ => true
  }

  ghost predicate StopHolds(w: World) {
    && (!w.stop.NoStop? ==> !Claiming(w))
    && (w.stop.StopFound? ==> w.stop.id in w.used && (w.stop.id in w.launches ==> !w.launches[w.stop.id].stage.Marked?))
    && (w.stop.Written? ==> !HasActive(w.rows, w.stop.name)
                            && forall id | InStage(w, id, Marked) :: w.launches[id].name != w.stop.name)
  }

  ghost predicate CoreHolds(w: World) {
    GuardHolds(w) && LaunchesHold(w) && RowsHold(w)
  }

  ghost predicate SidesHold(w: World) {
    EffectsHold(w) && WatchHolds(w) && StopHolds(w)
  }

  ghost predicate Inv(w: World) {
    CoreHolds(w) && SidesHold(w)
  }

  lemma MarkKeepsCore(w: World, e: Event)
    requires Inv(w) && Can(w, e) && e.Mark?
    ensures CoreHolds(Do(w, e))
  {
  }

  lemma MarkKeepsSides(w: World, e: Event)
    requires Inv(w) && Can(w, e) && e.Mark?
    ensures SidesHold(Do(w, e))
  {
  }

  /** A marked launch's name has no active row yet, so its new row is the only one. */
  lemma CreateRunKeepsRows(w: World, e: Event)
    requires Inv(w) && Can(w, e) && e.CreateRun?
    ensures RowsHold(Do(w, e))
  {
    var w' := Do(w, e);
    var name := w.launches[e.id].name;
    assert !HasActive(w.rows, name);
    assert forall j | IsActive(w.rows, j) :: w.rows[j].session != name;
    forall id | id in w'.launches && w'.launches[id].stage.Marked? ensures !HasActive(w'.rows, w'.launches[id].name) {
      assert !HasActive(w.rows, w.launches[id].name);
    }
  }

  lemma CreateRunKeepsCore(w: World, e: Event)
    requires Inv(w) && Can(w, e) && e.CreateRun?
    ensures CoreHolds(Do(w, e))
  {
    CreateRunKeepsRows(w, e);
  }

  lemma CreateRunKeepsSides(w: World, e: Event)
    requires Inv(w) && Can(w, e) && e.CreateRun?
    ensures SidesHold(Do(w, e))
  {
  }

  lemma FailKeepsCore(w: World, e: Event)
    requires Inv(w) && Can(w, e) && e.Fail?
    ensures CoreHolds(Do(w, e))
  {
  }

  lemma FailKeepsSides(w: World, e: Event)
    requires Inv(w) && Can(w, e) && e.Fail?
    ensures SidesHold(Do(w, e))
  {
  }

  lemma DeleteRunKeepsCore(w: World, e: Event)
    requires Inv(w) && Can(w, e) && e.DeleteRun?
    ensures CoreHolds(Do(w, e))
  {
  }

  lemma DeleteRunKeepsSides(w: World, e: Event)
    requires Inv(w) && Can(w, e) && e.DeleteRun?
    ensures SidesHold(Do(w, e))
  {
  }

  lemma ClearKeepsCore(w: World, e: Event)
    requires Inv(w) && Can(w, e) && e.Clear?
    ensures CoreHolds(Do(w, e))
  {
  }

  lemma ClearKeepsSides(w: World, e: Event)
    requires Inv(w) && Can(w, e) && e.Clear?
    ensures SidesHold(Do(w, e))
  {
  }

  lemma WriteOutcomeLeaves(w: World, e: Event)
    requires Can(w, e) && e.WriteOutcome?
    ensures var w' := Do(w, e);
            w'.guard == w.guard && w'.launches == w.launches && w'.used == w.used
            && (w'.rows == w.rows || exists outcome :: w'.rows == WithOutcome(w.rows, w.watch.id, outcome))
  {
    var outcome := ClaimOutcome(w.watch.row, w.watch.done, w.watch.escalated, w.watch.alive, e.now);
    if outcome.Some? && IsActive(w.rows, w.watch.id) {
      assert Do(w, e).rows == WithOutcome(w.rows, w.watch.id, outcome.value);
    }
  }

  /** Ending a row keeps guard, launches and rows consistent. */
  lemma EndingKeepsCore(w: World, w': World, id: RunId, outcome: Outcome)
    requires CoreHolds(w) && w'.rows == WithOutcome(w.rows, id, outcome)
    requires w'.guard == w.guard && w'.launches == w.launches && w'.used == w.used
    ensures CoreHolds(w')
  {
  }

  lemma WriteOutcomeKeepsCore(w: World, e: Event)
    requires Inv(w) && Can(w, e) && e.WriteOutcome?
    ensures CoreHolds(Do(w, e))
  {
    WriteOutcomeLeaves(w, e);
    if Do(w, e).rows == w.rows {
      SameCore(w, Do(w, e));
    } else {
      var outcome :| Do(w, e).rows == WithOutcome(w.rows, w.watch.id, outcome);
      EndingKeepsCore(w, Do(w, e), w.watch.id, outcome);
    }
  }

  lemma WriteOutcomeKeepsSides(w: World, e: Event)
    requires Inv(w) && Can(w, e) && e.WriteOutcome?
    ensures SidesHold(Do(w, e))
  {
  }

  lemma StopWriteKeepsCore(w: World, e: Event)
    requires Inv(w) && Can(w, e) && e.StopWrite?
    ensures CoreHolds(Do(w, e))
  {
    EndingKeepsCore(w, Do(w, e), w.stop.id, Stopped);
  }

  lemma StopWriteKeepsEffects(w: World, e: Event)
    requires Inv(w) && Can(w, e) && e.StopWrite?
    ensures EffectsHold(Do(w, e)) && StopHolds(Do(w, e))
  {
  }

  /** Ending a row frees no other row and activates none. */
  lemma EndingEndsOne(rows: map<RunId, Row>, id: RunId, outcome: Outcome)
    ensures var ended := WithOutcome(rows, id, outcome);
            && (forall other | other in rows && rows[other].ended.Some? ::
                  other in ended && ended[other] == rows[other])
            && (forall name :: HasActive(ended, name) ==> HasActive(rows, name))
  {
  }

  lemma StopWriteLeaves(w: World, e: Event)
    requires Can(w, e) && e.StopWrite?
    ensures var w' := Do(w, e);
            && w'.rows == WithOutcome(w.rows, w.stop.id, Stopped) && w'.guard == w.guard && w'.launches == w.launches
            && w'.watch == w.watch && w'.effects == w.effects
  {
  }

  lemma StopWriteKeepsReap(w: World, e: Event)
    requires Inv(w) && Can(w, e) && e.StopWrite?
    requires w.watch.Claimed? || w.watch.Notified? || w.watch.Quiet? || w.watch.Torn?
    ensures WatchHolds(Do(w, e))
  {
    StopWriteLeaves(w, e);
    ReapOutlivesEnding(w, Do(w, e), w.stop.id, Stopped);
  }

  lemma ReapOutlivesEnding(w: World, w': World, id: RunId, outcome: Outcome)
    requires WatchHolds(w) && (w.watch.Claimed? || w.watch.Notified? || w.watch.Quiet? || w.watch.Torn?)
    requires w'.rows == WithOutcome(w.rows, id, outcome) && w'.guard == w.guard && w'.launches == w.launches
    requires w'.watch == w.watch && w'.effects == w.effects
    ensures WatchHolds(w')
  {
    EndingEndsOne(w.rows, id, outcome);
  }

  lemma StopWriteKeepsWatch(w: World, e: Event)
    requires Inv(w) && Can(w, e) && e.StopWrite?
    ensures WatchHolds(Do(w, e))
  {
    if w.watch.Claimed? || w.watch.Notified? || w.watch.Quiet? || w.watch.Torn? {
      StopWriteKeepsReap(w, e);
    }
  }

  lemma StopWriteKeepsSides(w: World, e: Event)
    requires Inv(w) && Can(w, e) && e.StopWrite?
    ensures SidesHold(Do(w, e))
  {
    StopWriteKeepsEffects(w, e);
    StopWriteKeepsWatch(w, e);
  }

  lemma SpawnKeepsCore(w: World, e: Event)
    requires Inv(w) && Can(w, e) && e.Spawn?
    ensures CoreHolds(Do(w, e))
  {
  }

  lemma SpawnKeepsSides(w: World, e: Event)
    requires Inv(w) && Can(w, e) && e.Spawn?
    ensures SidesHold(Do(w, e))
  {
  }

  lemma RollbackKillKeepsCore(w: World, e: Event)
    requires Inv(w) && Can(w, e) && e.RollbackKill?
    ensures CoreHolds(Do(w, e))
  {
  }

  lemma RollbackKillKeepsSides(w: World, e: Event)
    requires Inv(w) && Can(w, e) && e.RollbackKill?
    ensures SidesHold(Do(w, e))
  {
  }

  /** The watcher's other steps, a Stop's kill and a death leave rows, guard and launches alone. */
  predicate LeavesRows(e: Event) {
    !e.WriteOutcome? && !e.StopWrite? && (IsLaunchEvent(e) ==> e.SessionDies?)
  }

  lemma LooksLeaveCore(w: World, e: Event)
    requires Can(w, e) && (e.Observe? || e.LookRow? || e.LookGuard? || e.LookLive? || e.StopLook?)
    ensures var w' := Do(w, e);
            w'.rows == w.rows && w'.guard == w.guard && w'.launches == w.launches && w'.used == w.used
  {
  }

  lemma DrainsLeaveCore(w: World, e: Event)
    requires Can(w, e) && (e.DrainLook? || e.DrainLookup? || e.DrainKill?)
    ensures var w' := Do(w, e);
            w'.rows == w.rows && w'.guard == w.guard && w'.launches == w.launches && w'.used == w.used
  {
  }

  lemma WatchersLeaveCore(w: World, e: Event)
    requires Can(w, e) && LeavesRows(e)
    ensures var w' := Do(w, e);
            w'.rows == w.rows && w'.guard == w.guard && w'.launches == w.launches && w'.used == w.used
  {
    if e.Observe? || e.LookRow? || e.LookGuard? || e.LookLive? || e.StopLook? {
      LooksLeaveCore(w, e);
    } else if e.DrainLook? || e.DrainLookup? || e.DrainKill? {
      DrainsLeaveCore(w, e);
    }
  }

  lemma SameCore(w: World, w': World)
    requires CoreHolds(w)
    requires w'.rows == w.rows && w'.guard == w.guard && w'.launches == w.launches && w'.used == w.used
    ensures CoreHolds(w')
  {
  }

  lemma WatchersKeepCore(w: World, e: Event)
    requires Inv(w) && Can(w, e) && LeavesRows(e)
    ensures CoreHolds(Do(w, e))
  {
    WatchersLeaveCore(w, e);
    SameCore(w, Do(w, e));
  }

  lemma DrainsKeepSides(w: World, e: Event)
    requires Inv(w) && Can(w, e) && (e.DrainLook? || e.DrainLookup? || e.DrainKill?)
    ensures SidesHold(Do(w, e))
  {
  }

  lemma KillsKeepSides(w: World, e: Event)
    requires Inv(w) && Can(w, e) && (e.ReapKill? || e.StopKill?)
    ensures SidesHold(Do(w, e))
  {
  }

  lemma ArrivalsKeepSides(w: World, e: Event)
    requires Inv(w) && Can(w, e) && (e.SessionDies? || e.Observe?)
    ensures SidesHold(Do(w, e))
  {
  }

  lemma RowLooksKeepSides(w: World, e: Event)
    requires Inv(w) && Can(w, e) && (e.LookRow? || e.LookLive?)
    ensures SidesHold(Do(w, e))
  {
  }

  lemma GuardLooksKeepSides(w: World, e: Event)
    requires Inv(w) && Can(w, e) && (e.LookGuard? || e.StopLook?)
    ensures SidesHold(Do(w, e))
  {
  }

  lemma TeardownKeepSides(w: World, e: Event)
    requires Inv(w) && Can(w, e) && (e.Teardown?)
    ensures SidesHold(Do(w, e))
  {
  }

  lemma NotifyKeepSides(w: World, e: Event)
    requires Inv(w) && Can(w, e) && (e.Notify?)
    ensures SidesHold(Do(w, e))
  {
  }

  lemma CountKeepSides(w: World, e: Event)
    requires Inv(w) && Can(w, e) && (e.Count?)
    ensures SidesHold(Do(w, e))
  {
  }

  lemma LaunchStepKeepsInv(w: World, e: Event)
    requires Inv(w) && Can(w, e) && !LeavesRows(e)
    ensures Inv(Do(w, e))
  {
    match e
    case Mark(_, _) => MarkKeepsCore(w, e); MarkKeepsSides(w, e);
    case CreateRun(_, _, _) => CreateRunKeepsCore(w, e); CreateRunKeepsSides(w, e);
    case Spawn(_) => SpawnKeepsCore(w, e); SpawnKeepsSides(w, e);
    case Fail(_, _) => FailKeepsCore(w, e); FailKeepsSides(w, e);
    case RollbackKill(_, _) => RollbackKillKeepsCore(w, e); RollbackKillKeepsSides(w, e);
    case DeleteRun(_, _) => DeleteRunKeepsCore(w, e); DeleteRunKeepsSides(w, e);
    case Clear(_) => ClearKeepsCore(w, e); ClearKeepsSides(w, e);
    case WriteOutcome(_) => WriteOutcomeKeepsCore(w, e); WriteOutcomeKeepsSides(w, e);
    case StopWrite => StopWriteKeepsCore(w, e); StopWriteKeepsSides(w, e);
  }

  lemma StepKeepsInv(w: World, e: Event)
    requires Inv(w) && Can(w, e)
    ensures Inv(Do(w, e))
  {
    if !LeavesRows(e) {
      LaunchStepKeepsInv(w, e);
    } else {
      WatchersKeepCore(w, e);
      match e
      case DrainLook(_) => DrainsKeepSides(w, e);
      case DrainLookup => DrainsKeepSides(w, e);
      case DrainKill(_) => DrainsKeepSides(w, e);
      case Teardown => TeardownKeepSides(w, e);
      case Notify => NotifyKeepSides(w, e);
      case Count => CountKeepSides(w, e);
      case LookRow => RowLooksKeepSides(w, e);
      case LookGuard => GuardLooksKeepSides(w, e);
      case LookLive(_) => RowLooksKeepSides(w, e);
      case StopLook(_) => GuardLooksKeepSides(w, e);
      case ReapKill(_) => KillsKeepSides(w, e);
      case StopKill(_) => KillsKeepSides(w, e);
      case _ => ArrivalsKeepSides(w, e);
    }
  }

  // ----- runs of the system -----

  ghost predicate IsRun(ws: seq<World>, es: seq<Event>) {
    && |ws| == |es| + 1 && ws[0] == START
    && forall i | 0 <= i < |es| :: Can(ws[i], es[i]) && ws[i + 1] == Do(ws[i], es[i])
  }

  lemma {:induction false} RunsKeepInv(ws: seq<World>, es: seq<Event>, n: nat)
    requires IsRun(ws, es) && n < |ws|
    ensures Inv(ws[n])
  {
    if n > 0 {
      RunsKeepInv(ws, es, n - 1);
      StepKeepsInv(ws[n - 1], es[n - 1]);
    }
  }

  /** The run's row, once ended, is that row or gone, and no launch will write it again. */
  ghost predicate Settled(w: World, id: RunId, row: Row) {
    && row.ended.Some? && id in w.used && (id in w.rows ==> w.rows[id] == row)
    && (id in w.launches ==> !w.launches[id].stage.Marked?)
  }

  lemma LaunchKeepsSettled(w: World, e: Event, id: RunId, row: Row)
    requires Inv(w) && Can(w, e) && Settled(w, id, row) && (e.Mark? || e.CreateRun? || e.DeleteRun? || e.Clear?)
    ensures Settled(Do(w, e), id, row)
  {
  }

  lemma StageKeepsSettled(w: World, e: Event, id: RunId, row: Row)
    requires Inv(w) && Can(w, e) && Settled(w, id, row) && (e.Spawn? || e.Fail? || e.RollbackKill?)
    ensures Settled(Do(w, e), id, row)
  {
  }

  lemma WriteKeepsSettled(w: World, e: Event, id: RunId, row: Row)
    requires Inv(w) && Can(w, e) && Settled(w, id, row) && (e.WriteOutcome? || e.StopWrite?)
    ensures Settled(Do(w, e), id, row)
  {
  }

  lemma StepKeepsSettled(w: World, e: Event, id: RunId, row: Row)
    requires Inv(w) && Can(w, e) && Settled(w, id, row)
    ensures Settled(Do(w, e), id, row)
  {
    if e.Mark? || e.CreateRun? || e.DeleteRun? || e.Clear? {
      LaunchKeepsSettled(w, e, id, row);
    } else if e.Spawn? || e.Fail? || e.RollbackKill? {
      StageKeepsSettled(w, e, id, row);
    } else if e.WriteOutcome? || e.StopWrite? {
      WriteKeepsSettled(w, e, id, row);
    } else {
      WatchersLeaveCore(w, e);
    }
  }

  /** A run leaves 'active' once: its ended row is never rewritten; only its own rollback may delete it. */
  lemma {:induction false} EndsOnce(ws: seq<World>, es: seq<Event>, i: nat, j: nat, id: RunId)
    requires IsRun(ws, es) && i <= j < |ws|
    requires id in ws[i].rows && ws[i].rows[id].ended.Some?
    ensures Settled(ws[j], id, ws[i].rows[id])
  {
    RunsKeepInv(ws, es, i);
    if i < j {
      EndsOnce(ws, es, i, j - 1, id);
      RunsKeepInv(ws, es, j - 1);
      StepKeepsSettled(ws[j - 1], es[j - 1], id, ws[i].rows[id]);
    }
  }

  lemma WritesKeepRows(w: World, e: Event, id: RunId)
    requires Can(w, e) && id in w.rows && (e.WriteOutcome? || e.StopWrite?)
    ensures id in Do(w, e).rows
  {
  }

  lemma LaunchesKeepRows(w: World, e: Event, id: RunId)
    requires Can(w, e) && id in w.rows && IsLaunchEvent(e) && !e.DeleteRun?
    ensures id in Do(w, e).rows
  {
  }

  /** Only a rollback of the run's own launch removes a row. */
  lemma RowsVanishByRollback(w: World, e: Event, id: RunId)
    requires Inv(w) && Can(w, e) && id in w.rows && id !in Do(w, e).rows
    ensures e.DeleteRun? && e.id == id && id in w.launches && w.rows[id].session in w.guard
  {
    if e.WriteOutcome? || e.StopWrite? {
      WritesKeepRows(w, e, id);
    } else if IsLaunchEvent(e) && !e.DeleteRun? {
      LaunchesKeepRows(w, e, id);
    } else if LeavesRows(e) {
      WatchersLeaveCore(w, e);
    }
  }

  /** A stopped run is never pushed, torn down or counted, before or after the Stop. */
  lemma StoppedIsLeftAlone(ws: seq<World>, es: seq<Event>, i: nat, j: nat, id: RunId, effect: Effect)
    requires IsRun(ws, es) && i <= j < |ws|
    requires id in ws[i].rows && ws[i].rows[id].ended == Some(Stopped)
    ensures (id, effect) !in ws[j].effects
    ensures !(ws[j].watch.Claimed? && ws[j].watch.id == id) && !(ws[j].watch.Quiet? && ws[j].watch.id == id)
  {
    EndsOnce(ws, es, i, j, id);
    RunsKeepInv(ws, es, j);
  }

  /** A reaped run is torn down, pushed and counted at most once each, under an outcome that is not a Stop. */
  lemma EffectsOfReapsOnly(ws: seq<World>, es: seq<Event>, n: nat, id: RunId, effect: Effect)
    requires IsRun(ws, es) && n < |ws| && (id, effect) in ws[n].effects
    ensures ws[n].effects[(id, effect)] == 1
    ensures id in ws[n].rows && ws[n].rows[id].ended.Some? && ws[n].rows[id].ended != Some(Stopped)
  {
    RunsKeepInv(ws, es, n);
  }

  /** No claim ends a run whose launch is in progress, whatever the launch did between the claim's looks. */
  lemma LaunchesAreNotClaimed(ws: seq<World>, es: seq<Event>, n: nat, id: RunId)
    requires IsRun(ws, es) && n < |es| && es[n].WriteOutcome? && id in ws[n].launches
    ensures id in ws[n + 1].rows <==> id in ws[n].rows
    ensures id in ws[n].rows ==> ws[n + 1].rows[id] == ws[n].rows[id]
  {
    RunsKeepInv(ws, es, n);
  }

  /** A claim writes exactly what its looks decided, on a row no launch, Stop or other claim has touched since. */
  lemma ClaimsWriteWhatTheySaw(ws: seq<World>, es: seq<Event>, n: nat, now: int)
    requires IsRun(ws, es) && n < |es| && es[n] == WriteOutcome(now) && ws[n + 1].rows != ws[n].rows
    ensures var seen := ws[n].watch;
            && seen.id in ws[n].rows && ws[n].rows[seen.id] == seen.row && seen.row.ended.None?
            && var outcome := ClaimOutcome(seen.row, seen.done, seen.escalated, seen.alive, now);
               outcome.Some? && ws[n + 1].rows == ws[n].rows[seen.id := seen.row.(ended := outcome)]
  {
    RunsKeepInv(ws, es, n);
  }

  /** A claim on a row still there, with an outcome to write, writes it and goes on to reap. */
  lemma ClaimsAreWritten(ws: seq<World>, es: seq<Event>, n: nat, now: int)
    requires IsRun(ws, es) && n < |es| && es[n] == WriteOutcome(now) && ws[n].watch.id in ws[n].rows
    ensures var (seen, after) := (ws[n].watch, ws[n + 1]);
            var outcome := ClaimOutcome(seen.row, seen.done, seen.escalated, seen.alive, now);
            if outcome.None? then after.rows == ws[n].rows && after.watch.Resting?
            else
              && after.rows[seen.id].ended == outcome && after.rows[seen.id].session == seen.row.session
              && after.watch == Claimed(seen.id, seen.row.session, outcome.value, seen.alive)
  {
    RunsKeepInv(ws, es, n);
  }

  // ----- what a reap has when it is over -----

  /** The watcher reaps the run under the outcome. */
  predicate Reaping(watch: Watch, id: RunId, outcome: Outcome) {
    match watch
    case Claimed(i, _, o, _) => i == id && o == outcome
    case Notified(i, _, o, _) => i == id && o == outcome
    case Quiet(i, o) => i == id && o == outcome
    case Torn(i, o) => i == id && o == outcome
    case _ => false
  }

  /** An escalation pushes whatever the kind, a success only for the kinds that open a pull request. */
  ghost predicate PushedRightly(w: World, id: RunId, outcome: Outcome) {
    && id in w.rows
    && ((id, Pushed) in w.effects <==>
        outcome == Escalated || (outcome == Success && (w.rows[id].kind == AfkManual || w.rows[id].kind == AfkAuto)))
  }

  /** A reap past its push has pushed rightly, and past its teardown is torn down. */
  ghost predicate Underway(w: World) {
    match w.watch
    case Notified(id, _, outcome, _) => PushedRightly(w, id, outcome)
    case Quiet(id, outcome) => PushedRightly(w, id, outcome)
    case Torn(id, outcome) => PushedRightly(w, id, outcome) && (id, TornDown) in w.effects
    case _ => true
  }

  lemma LaunchKeepsUnderway(w: World, e: Event)
    requires Inv(w) && Can(w, e) && Underway(w) && IsLaunchEvent(e)
    ensures Underway(Do(w, e))
  {
  }

  lemma NotifyKeepsUnderway(w: World, e: Event)
    requires WatchHolds(w) && Can(w, e) && Underway(w) && e.Notify?
    ensures Underway(Do(w, e))
  {
  }

  lemma ReapKeepsUnderway(w: World, e: Event)
    requires Can(w, e) && Underway(w) && (e.ReapKill? || e.Teardown?)
    ensures Underway(Do(w, e))
  {
  }

  lemma StopKeepsUnderway(w: World, e: Event)
    requires Can(w, e) && Underway(w) && (e.StopLook? || e.StopWrite? || e.StopKill?)
    ensures Underway(Do(w, e))
  {
    if e.StopWrite? {
      StopWriteLeaves(w, e);
      KindsOutliveEnding(w.rows, w.stop.id, Stopped);
    }
  }

  lemma KindsOutliveEnding(rows: map<RunId, Row>, id: RunId, outcome: Outcome)
    ensures var ended := WithOutcome(rows, id, outcome);
            ended.Keys == rows.Keys && forall other | other in rows :: ended[other].kind == rows[other].kind
  {
  }

  lemma StepKeepsUnderway(w: World, e: Event)
    requires Inv(w) && Can(w, e) && Underway(w)
    ensures Underway(Do(w, e))
  {
    if IsLaunchEvent(e) {
      LaunchKeepsUnderway(w, e);
    } else if e.Notify? {
      NotifyKeepsUnderway(w, e);
    } else if e.ReapKill? || e.Teardown? {
      ReapKeepsUnderway(w, e);
    } else if e.StopLook? || e.StopWrite? || e.StopKill? {
      StopKeepsUnderway(w, e);
    }
  }

  lemma {:induction false} RunsStayUnderway(ws: seq<World>, es: seq<Event>, n: nat)
    requires IsRun(ws, es) && n < |ws|
    ensures Underway(ws[n])
  {
    if n > 0 {
      RunsStayUnderway(ws, es, n - 1);
      RunsKeepInv(ws, es, n - 1);
      StepKeepsUnderway(ws[n - 1], es[n - 1]);
    }
  }

  /** Until its last step a reap stays the reap of its run. */
  lemma ReapGoesOn(w: World, e: Event, id: RunId, outcome: Outcome)
    requires Can(w, e) && Reaping(w.watch, id, outcome) && !e.Count?
    ensures Reaping(Do(w, e).watch, id, outcome)
  {
  }

  /** A watcher that reaped a run and rests again has taken the reap's last step. */
  lemma {:induction false} ReapsFinish(ws: seq<World>, es: seq<Event>, i: nat, j: nat, id: RunId, outcome: Outcome)
    requires IsRun(ws, es) && i <= j < |ws| && Reaping(ws[i].watch, id, outcome)
    ensures Reaping(ws[j].watch, id, outcome)
            || exists n :: i <= n < j && es[n].Count? && Reaping(ws[n].watch, id, outcome)
  {
    if i < j {
      ReapsFinish(ws, es, i, j - 1, id, outcome);
      if Reaping(ws[j - 1].watch, id, outcome) {
        if !es[j - 1].Count? {
          ReapGoesOn(ws[j - 1], es[j - 1], id, outcome);
        }
      }
    }
  }

  /**
   * A finished reap has torn its run down; pushed it exactly when it escalated or an AFK run opened
   * its pull request; and counted it exactly when it did not escalate and is of a kind that counts.
   */
  lemma FinishedReapHasItsEffects(ws: seq<World>, es: seq<Event>, i: nat, j: nat, id: RunId, outcome: Outcome)
    requires IsRun(ws, es) && i < j < |ws| && Reaping(ws[i].watch, id, outcome) && !Reaping(ws[j].watch, id, outcome)
    ensures exists n | i <= n < j :: HasItsEffects(ws[n], ws[n + 1].effects, id, outcome)
  {
    ReapsFinish(ws, es, i, j, id, outcome);
    var n :| i <= n < j && es[n].Count? && Reaping(ws[n].watch, id, outcome);
    LastStepOfReap(ws, es, n, id, outcome);
  }

  lemma LastStepOfReap(ws: seq<World>, es: seq<Event>, n: nat, id: RunId, outcome: Outcome)
    requires IsRun(ws, es) && n < |es| && es[n].Count? && Reaping(ws[n].watch, id, outcome)
    ensures HasItsEffects(ws[n], ws[n + 1].effects, id, outcome)
  {
    RunsStayUnderway(ws, es, n);
    RunsKeepInv(ws, es, n);
    CountCompletes(ws[n], es[n], id, outcome);
  }

  lemma CountCompletes(w: World, e: Event, id: RunId, outcome: Outcome)
    requires WatchHolds(w) && Underway(w) && Can(w, e) && e.Count? && Reaping(w.watch, id, outcome)
    ensures HasItsEffects(w, Do(w, e).effects, id, outcome)
  {
  }

  ghost predicate HasItsEffects(w: World, effects: multiset<(RunId, Effect)>, id: RunId, outcome: Outcome) {
    && id in w.rows && w.rows[id].ended == Some(outcome)
    && var kind := w.rows[id].kind;
       && (id, TornDown) in effects
       && ((id, Pushed) in effects <==>
           outcome == Escalated || (outcome == Success && (kind == AfkManual || kind == AfkAuto)))
       && ((id, Counted) in effects <==>
           outcome != Escalated && (kind == AfkManual || kind == AfkAuto || kind == Fix || kind == Scheduled))
  }

  /** Effects are never taken back, so a finished reap keeps them. */
  lemma {:induction false} EffectsStay(ws: seq<World>, es: seq<Event>, i: nat, j: nat)
    requires IsRun(ws, es) && i <= j < |ws|
    ensures ws[i].effects <= ws[j].effects
  {
    if i < j {
      EffectsStay(ws, es, i, j - 1);
    }
  }

  /** A kill that goes through, a reap's of a live session, a drain's or a Stop's, ends it; one that fails ends none. */
  lemma KillsTakeEffect(w: World, e: Event)
    requires Can(w, e)
    ensures e == ReapKill(false) || e == DrainKill(false) || e == StopKill(false) ==> Do(w, e).live == w.live
    ensures e.ReapKill? && !w.watch.alive ==> Do(w, e).live == w.live
    ensures e == ReapKill(true) && w.watch.alive ==> w.watch.name !in Do(w, e).live
    ensures e == DrainKill(true) ==> w.watch.name !in Do(w, e).live
    ensures e == StopKill(true) ==> w.stop.name !in Do(w, e).live
  {
  }

  lemma WatcherKillsAreOwed(w: World, e: Event, name: Name)
    requires Inv(w) && Can(w, e) && (e.ReapKill? || e.DrainKill?) && name in w.live && name !in Do(w, e).live
    ensures !HasActive(w.rows, name) && name !in w.guard
  {
  }

  lemma StopKillsAreOwed(w: World, e: Event, name: Name)
    requires Inv(w) && Can(w, e) && e.StopKill? && name in w.live && name !in Do(w, e).live
    ensures !HasActive(w.rows, name)
  {
  }

  /** Every kill hits a session whose run is over; the watcher's kills never hit a launch in progress. */
  lemma KillsAreOwed(ws: seq<World>, es: seq<Event>, n: nat, name: Name)
    requires IsRun(ws, es) && n < |es| && (es[n].ReapKill? || es[n].DrainKill? || es[n].StopKill?)
    requires name in ws[n].live && name !in ws[n + 1].live
    ensures !HasActive(ws[n].rows, name)
    ensures !es[n].StopKill? ==> forall id | id in ws[n].launches :: ws[n].launches[id].name != name
  {
    RunsKeepInv(ws, es, n);
    if es[n].StopKill? {
      StopKillsAreOwed(ws[n], es[n], name);
    } else {
      WatcherKillsAreOwed(ws[n], es[n], name);
    }
  }

  /**
   * The order of the claim's looks matters: a guard look before the mark and a row look after the
   * row would see an unguarded active run without a session, a death, while its launch is in progress.
   */
  lemma GuardFirstWouldReapALaunch(id: RunId, name: Name, now: int) returns (ws: seq<World>, es: seq<Event>)
    ensures IsRun(ws, es) && name !in ws[0].guard
    ensures var last := ws[|es|];
            && id in last.launches && IsActive(last.rows, id) && last.rows[id].session == name && name !in last.live
            && ClaimOutcome(last.rows[id], false, false, false, now) == Some(Death)
  {
    var mark, row := Mark(id, name), CreateRun(id, AfkAuto, None);
    var w1 := Do(START, mark);
    var w2 := Do(w1, row);
    ws, es := [START, w1, w2], [mark, row];
  }

  // ----- what nobody disturbs -----

  /** Events in a row, nothing between them. */
  ghost predicate Continues(w: World, ws: seq<World>, es: seq<Event>) {
    && |ws| == |es| + 1 && ws[0] == w
    && forall i | 0 <= i < |es| :: Can(ws[i], es[i]) && ws[i + 1] == Do(ws[i], es[i])
  }

  lemma OneMore(w: World, ws: seq<World>, es: seq<Event>, e: Event) returns (ws': seq<World>, es': seq<Event>)
    requires Continues(w, ws, es) && Can(ws[|es|], e)
    ensures Continues(w, ws', es') && es' == es + [e] && ws'[|es'|] == Do(ws[|es|], e)
  {
    ws', es' := ws + [Do(ws[|es|], e)], es + [e];
  }

  /** A launch that has its row is guarded and live nowhere yet. */
  lemma LaunchOn(w: World, id: RunId, name: Name, kind: Kind, deadline: Option<int>)
    returns (ws: seq<World>, es: seq<Event>)
    requires id !in w.used && name !in w.guard && !HasActive(w.rows, name) && !Busy(w, name)
    ensures Continues(w, ws, es)
    ensures ws[|es|] == w.(rows := w.rows[id := Row(name, kind, deadline, None)], guard := w.guard + {name},
                           used := w.used + {id}, launches := w.launches[id := Launch(name, HasRow)])
  {
    ws, es := OneMore(w, [w], [], Mark(id, name));
    ws, es := OneMore(w, ws, es, CreateRun(id, kind, deadline));
    assert ws[|es|].launches == w.launches[id := Launch(name, HasRow)];
  }

  lemma ClearedIsAsBefore(w: World, id: RunId, name: Name, stage: Stage)
    requires Inv(w) && id !in w.used && name !in w.guard
    ensures w.guard + {name} - {name} == w.guard
    ensures w.launches[id := Launch(name, stage)] - {id} == w.launches
  {
  }

  /** A launch leaves an active row, a live session, and no guard. */
  lemma UndisturbedLaunch(w: World, id: RunId, name: Name, kind: Kind, deadline: Option<int>)
    returns (ws: seq<World>, es: seq<Event>)
    requires Inv(w) && id !in w.used && name !in w.guard && !HasActive(w.rows, name) && !Busy(w, name)
    ensures Continues(w, ws, es)
    ensures ws[|es|] == w.(rows := w.rows[id := Row(name, kind, deadline, None)], live := w.live + {name},
                           used := w.used + {id})
  {
    ws, es := LaunchOn(w, id, name, kind, deadline);
    ws, es := OneMore(w, ws, es, Spawn(id));
    assert ws[|es|].launches == w.launches[id := Launch(name, Spawned)];
    ws, es := OneMore(w, ws, es, Clear(id));
    ClearedIsAsBefore(w, id, name, Spawned);
  }

  /** A launch that fails after its row leaves nothing behind but a half-live session whose kill fails. */
  lemma RolledBackLaunch(w: World, id: RunId, name: Name, kind: Kind, deadline: Option<int>, halfLive: bool,
                         killed: bool)
    returns (ws: seq<World>, es: seq<Event>)
    requires Inv(w) && id !in w.used && name !in w.guard && !HasActive(w.rows, name) && !Busy(w, name)
    ensures Continues(w, ws, es)
    ensures ws[|es|] == w.(live := if killed then w.live - {name} else if halfLive then w.live + {name} else w.live,
                           used := w.used + {id})
  {
    ws, es := LaunchOn(w, id, name, kind, deadline);
    ws, es := RollBackOn(w, ws, es, id, name, halfLive, killed);
    assert id !in w.rows;
    assert w.rows[id := Row(name, kind, deadline, None)] - {id} == w.rows;
    ClearedIsAsBefore(w, id, name, HasRow);
  }

  /** The four steps of a rollback whose row goes. */
  lemma RollBackOn(w: World, before: seq<World>, events: seq<Event>, id: RunId, name: Name, halfLive: bool,
                   killed: bool)
    returns (ws: seq<World>, es: seq<Event>)
    requires Continues(w, before, events)
    requires var v := before[|events|]; id in v.launches && v.launches[id] == Launch(name, HasRow)
    ensures Continues(w, ws, es)
    ensures var v := before[|events|];
            ws[|es|] == v.(rows := v.rows - {id}, guard := v.guard - {name}, launches := v.launches - {id},
                           live := if killed then v.live - {name} else if halfLive then v.live + {name} else v.live)
  {
    var v := before[|events|];
    ws, es := OneMore(w, before, events, Fail(id, halfLive));
    ws, es := OneMore(w, ws, es, RollbackKill(id, killed));
    assert killed ==> ws[|es|].live == v.live - {name};
    ws, es := OneMore(w, ws, es, DeleteRun(id, true));
    ws, es := OneMore(w, ws, es, Clear(id));
    assert ws[|es|].launches == v.launches - {id};
  }

  /** The claim of an active, unguarded run: its row, its guard, its session, its outcome. */
  lemma UndisturbedClaim(w: World, id: RunId, done: bool, escalated: bool, now: int)
    returns (ws: seq<World>, es: seq<Event>)
    requires w.watch.Resting? && w.stop.NoStop? && IsActive(w.rows, id) && w.rows[id].session !in w.guard
    ensures Continues(w, ws, es)
    ensures var row := w.rows[id];
            var alive := row.session in w.live;
            var outcome := ClaimOutcome(row, done, escalated, alive, now);
            ws[|es|] == if outcome.None? then w
                        else w.(rows := w.rows[id := row.(ended := outcome)],
                                watch := Claimed(id, row.session, outcome.value, alive))
  {
    ws, es := OneMore(w, [w], [], Observe(id, done, escalated));
    ws, es := OneMore(w, ws, es, LookRow);
    ws, es := OneMore(w, ws, es, LookGuard);
    ws, es := OneMore(w, ws, es, LookLive(true));
    ws, es := OneMore(w, ws, es, WriteOutcome(now));
  }

  /** A claim of a run already over, being launched, or whose session cannot be looked up gives up without a trace. */
  lemma ClaimGivesUp(w: World, id: RunId, done: bool, escalated: bool, readable: bool)
    returns (ws: seq<World>, es: seq<Event>)
    requires w.watch.Resting? && w.stop.NoStop?
    requires !IsActive(w.rows, id) || w.rows[id].session in w.guard || !readable
    ensures Continues(w, ws, es) && [Observe(id, done, escalated), LookRow] <= es && ws[|es|] == w
  {
    ws, es := OneMore(w, [w], [], Observe(id, done, escalated));
    ws, es := OneMore(w, ws, es, LookRow);
    if IsActive(w.rows, id) {
      ws, es := OneMore(w, ws, es, LookGuard);
      if w.rows[id].session !in w.guard {
        ws, es := OneMore(w, ws, es, LookLive(readable));
      }
    }
  }

  /** A Stop whose run was reaped meanwhile gives up: it writes nothing and kills nothing. */
  lemma LateStopGivesUp(w: World)
    requires w.stop.StopFound? && !IsActive(w.rows, w.stop.id)
    ensures Can(w, StopWrite) && Do(w, StopWrite) == w.(stop := NoStop)
  {
  }

  /** The reap ends the run, kills its session and has its effects, and touches nothing else. */
  lemma UndisturbedReap(w: World, id: RunId, done: bool, escalated: bool, now: int)
    returns (ws: seq<World>, es: seq<Event>)
    requires w.watch.Resting? && w.stop.NoStop? && IsActive(w.rows, id) && w.rows[id].session !in w.guard
    requires ClaimOutcome(w.rows[id], done, escalated, w.rows[id].session in w.live, now).Some?
    ensures Continues(w, ws, es)
    ensures var row := w.rows[id];
            var outcome := ClaimOutcome(row, done, escalated, row.session in w.live, now).value;
            ws[|es|] == w.(rows := w.rows[id := row.(ended := Some(outcome))], live := w.live - {row.session},
                           effects := w.effects + PushOf(id, row.kind, outcome) + multiset{(id, TornDown)}
                                      + CountOf(id, row.kind, outcome))
  {
    ws, es := UndisturbedClaim(w, id, done, escalated, now);
    ws, es := HushOn(w, ws, es);
    ws, es := CloseOn(w, ws, es);
  }

  ghost function PushOf(id: RunId, kind: Kind, outcome: Outcome): multiset<(RunId, Effect)> {
    if outcome == Escalated || (outcome == Success && (kind == AfkManual || kind == AfkAuto))
    then multiset{(id, Pushed)}
    else multiset{}
  }

  ghost function CountOf(id: RunId, kind: Kind, outcome: Outcome): multiset<(RunId, Effect)> {
    if outcome != Escalated && (kind == AfkManual || kind == AfkAuto || kind == Fix || kind == Scheduled)
    then multiset{(id, Counted)}
    else multiset{}
  }

  /** The push and the kill of a reap that has its claim. */
  lemma HushOn(w: World, before: seq<World>, events: seq<Event>) returns (ws: seq<World>, es: seq<Event>)
    requires Continues(w, before, events)
    requires var v := before[|events|];
             v.watch.Claimed? && v.watch.id in v.rows && (v.watch.alive <==> v.watch.name in v.live)
    ensures Continues(w, ws, es)
    ensures var v := before[|events|];
            var (id, outcome) := (v.watch.id, v.watch.outcome);
            ws[|es|] == v.(watch := Quiet(id, outcome), live := v.live - {v.watch.name},
                           effects := v.effects + PushOf(id, v.rows[id].kind, outcome))
  {
    ws, es := OneMore(w, before, events, Notify);
    ws, es := OneMore(w, ws, es, ReapKill(true));
  }

  /** Its teardown and its count. */
  lemma CloseOn(w: World, before: seq<World>, events: seq<Event>) returns (ws: seq<World>, es: seq<Event>)
    requires Continues(w, before, events)
    requires var v := before[|events|]; v.watch.Quiet? && v.watch.id in v.rows
    ensures Continues(w, ws, es)
    ensures var v := before[|events|];
            var (id, outcome) := (v.watch.id, v.watch.outcome);
            ws[|es|] == v.(watch := Resting,
                           effects := v.effects + multiset{(id, TornDown)} + CountOf(id, v.rows[id].kind, outcome))
  {
    ws, es := OneMore(w, before, events, Teardown);
    ws, es := OneMore(w, ws, es, Count);
  }

  lemma OneBefore(w: World, e: Event, w': World, ws: seq<World>, es: seq<Event>)
    requires Can(w, e) && w' == Do(w, e) && Continues(w', ws, es)
    ensures Continues(w, [w] + ws, [e] + es) && ([w] + ws)[|[e] + es|] == ws[|es|]
  {
    var ws', es' := [w] + ws, [e] + es;
    forall i | 0 <= i < |es'| ensures Can(ws'[i], es'[i]) && ws'[i + 1] == Do(ws'[i], es'[i]) {
      if i > 0 {
        assert Can(ws[i - 1], es[i - 1]) && ws[i] == Do(ws[i - 1], es[i - 1]);
      }
    }
  }

  /** A run whose session dies without its done-signal ends in death; a scheduled one past its deadline succeeds. */
  lemma DeadRunIsReaped(w: World, id: RunId, now: int) returns (ws: seq<World>, es: seq<Event>)
    requires w.watch.Resting? && w.stop.NoStop? && IsActive(w.rows, id) && w.rows[id].session !in w.guard
    ensures Continues(w, ws, es)
    ensures var (row, last) := (w.rows[id], ws[|es|]);
            var expired := row.deadline.Some? && now >= row.deadline.value;
            var outcome := if row.kind == Scheduled && expired then Success else Death;
            && last.rows == w.rows[id := row.(ended := Some(outcome))]
            && last.live == w.live - {row.session} && last.watch == Resting
  {
    var dies := SessionDies(w.rows[id].session);
    var w' := Do(w, dies);
    ClaimTable(w.rows[id], false, false, false, now);
    ws, es := UndisturbedReap(w', id, false, false, now);
    OneBefore(w, dies, w', ws, es);
    ws, es := [w] + ws, [dies] + es;
  }

  /** A Stop ends an unattended run as stopped and kills its session. */
  lemma UndisturbedStop(w: World, id: RunId) returns (ws: seq<World>, es: seq<Event>)
    requires w.stop.NoStop? && !Claiming(w) && IsActive(w.rows, id) && w.rows[id].kind != Manual
    ensures Continues(w, ws, es)
    ensures var row := w.rows[id];
            ws[|es|] == w.(rows := w.rows[id := row.(ended := Some(Stopped))], live := w.live - {row.session})
  {
    ws, es := OneMore(w, [w], [], StopLook(id));
    ws, es := OneMore(w, ws, es, StopWrite);
    ws, es := OneMore(w, ws, es, StopKill(true));
  }

  /** A drain kills a live session nobody guards or owns, and spares every other. */
  lemma UndisturbedDrain(w: World, name: Name) returns (ws: seq<World>, es: seq<Event>)
    requires w.watch.Resting?
    ensures Continues(w, ws, es)
    ensures ws[|es|] == if name in w.live && name !in w.guard && !HasActive(w.rows, name)
                        then w.(live := w.live - {name}) else w
  {
    ws, es := OneMore(w, [w], [], DrainLook(name));
    if ws[|es|].watch.Unguarded? {
      ws, es := OneMore(w, ws, es, DrainLookup);
      if ws[|es|].watch.Orphan? {
        ws, es := OneMore(w, ws, es, DrainKill(true));
      }
    }
  }

  // ----- the two sides of the reap race, under the runs lock -----

  /** What the store, the guard and the sessions have become between two accesses. */
  datatype Moved = Moved(rows: map<RunId, Row>, guard: set<Name>, live: set<Name>)

  /** Others may roll the run's row back, but nobody else writes it while the runs lock is held. */
  predicate LeavesRow(rows: map<RunId, Row>, rows': map<RunId, Row>, id: RunId) {
    id in rows' ==> id in rows && rows'[id] == rows[id]
  }

  class Engine {
    var rows: map<RunId, Row>
    var guard: set<Name>
    var live: set<Name>

    constructor ()
      ensures Valid() && rows == map[] && guard == {} && live == {}
    {
      rows, guard, live := map[], {}, {};
    }

    /** A session name carries at most one active run. */
    ghost predicate Valid()
      reads this
    {
      forall i, j | IsActive(rows, i) && IsActive(rows, j) && rows[i].session == rows[j].session :: i == j
    }

    /** The store's lookup: the active run of a session. */
    method RunBySession(session: Name) returns (r: Option<RunId>)
      ensures r.Some? ==> IsActive(rows, r.value) && rows[r.value].session == session
      ensures r.None? <==> !HasActive(rows, session)
    {
      var rest := rows.Keys;
      while rest != {}
        invariant rest <= rows.Keys
        invariant forall id | id in rows && id !in rest :: !(IsActive(rows, id) && rows[id].session == session)
        decreases rest
      {
        var id :| id in rest;
        if rows[id].ended.None? && rows[id].session == session {
          return Some(id);
        }
        rest := rest - {id};
      }
      return None;
    }

    /** The store's transition: touches only a row still active. */
    method EndRun(id: RunId, outcome: Outcome) returns (ok: bool)
      modifies this`rows
      ensures ok == IsActive(old(rows), id)
      ensures rows == if ok then old(rows)[id := old(rows)[id].(ended := Some(outcome))] else old(rows)
    {
      ok := id in rows && rows[id].ended.None?;
      if ok {
        rows := rows[id := rows[id].(ended := Some(outcome))];
      }
    }

    /** Launches run without the runs lock: between two accesses the store, the guard and the sessions move on. */
    method Meanwhile(m: Moved)
      modifies this
      ensures rows == m.rows && guard == m.guard && live == m.live
    {
      rows, guard, live := m.rows, m.guard, m.live;
    }

    /**
     * Row, guard, liveness, write: four accesses with launches moving between them. The outcome is
     * the one of the row, guard and session as each was looked at, and a row gone by then takes none.
     */
    method ClassifyAndClaim(id: RunId, session: Name, done: bool, escalated: bool, now: int, readable: bool,
                            first: Moved, second: Moved, third: Moved)
      returns (outcome: Option<Outcome>)
      requires Valid() && (id in rows ==> rows[id].session == session)
      requires LeavesRow(rows, first.rows, id) && LeavesRow(first.rows, second.rows, id)
               && LeavesRow(second.rows, third.rows, id)
      modifies this
      ensures outcome ==
                if !IsActive(old(rows), id) || session in first.guard || !readable || !IsActive(third.rows, id)
                then None
                else ClaimOutcome(old(rows)[id], done, escalated, session in second.live, now)
      ensures IsActive(old(rows), id) && session !in first.guard && readable ==>
                rows == if outcome.Some? then WithOutcome(third.rows, id, outcome.value) else third.rows
      ensures !IsActive(old(rows), id) ==> rows == old(rows)
    {
      var found := RunBySession(session);
      if found != Some(id) {
        assert !IsActive(rows, id);
        return None;
      }
      var fresher := rows[id];
      Meanwhile(first);
      if session in guard {
        return None;
      }
      Meanwhile(second);
      if !readable {
        return None;
      }
      var alive := session in live;
      Meanwhile(third);
      var deadline := if fresher.deadline.Some? then fresher.deadline.value else now + DAY;
      outcome := Classify(done, alive, now, deadline);
      if outcome == Some(Success) && escalated {
        outcome := Some(Escalated);
      }
      if fresher.kind.Scheduled? && (outcome == Some(Timeout) || (outcome == Some(Death) && now >= deadline)) {
        outcome := Some(Success);
      }
      if outcome.Some? {
        var ok := EndRun(id, outcome.value);
        if !ok {
          return None;
        }
      }
    }

    /** The neutral Stop: the outcome first, the kill second and best-effort. */
    method StopAFK(session: Name, killed: bool) returns (stopped: Option<RunId>)
      requires Valid()
      modifies this`rows, this`live
      ensures stopped.Some? ==> IsActive(old(rows), stopped.value) && old(rows)[stopped.value].session == session
      ensures stopped.Some? ==> rows == old(rows)[stopped.value := old(rows)[stopped.value].(ended := Some(Stopped))]
      ensures stopped.Some? ==> live == Kill(old(live), session, killed) && !HasActive(rows, session)
      ensures stopped.None? ==> rows == old(rows) && live == old(live)
      ensures stopped.None? <==>
                forall id | IsActive(old(rows), id) && old(rows)[id].session == session :: old(rows)[id].kind.Manual?
      ensures Valid()
    {
      stopped := RunBySession(session);
      if stopped.None? || rows[stopped.value].kind.Manual? {
        return None;
      }
      var ok := EndRun(stopped.value, Stopped);
      if killed {
        live := live - {session};
      }
    }

    /**
     * The drain of one listed session: killed when unguarded at the first look and nobody's active run at the
     * second.
     */
    method DrainOne(name: Name, killed: bool, first: Moved, second: Moved)
      modifies this
      ensures name in old(guard) ==> rows == old(rows) && guard == old(guard) && live == old(live)
      ensures name !in old(guard) && HasActive(first.rows, name) ==> rows == first.rows && live == first.live
      ensures name !in old(guard) && !HasActive(first.rows, name)
              ==> rows == second.rows && live == Kill(second.live, name, killed)
    {
      if name in guard {
        return;
      }
      Meanwhile(first);
      var owner := RunBySession(name);
      if owner.None? {
        Meanwhile(second);
        if killed {
          live := live - {name};
        }
      }
    }
  }
}
