/**
 * The autoland protocol of one pull request: the spawn pass reads the thread, the branch, the
 * re-arm, the escalated run and the counts one at a time, decides, launches and burns an
 * attempt, while comments, run endings and re-arms land between any two of those steps.
 */
module Autoland {
  import opened Text
  import opened Verdicts

  datatype Kind = AuthorRun | LanderRun | FixRun | EscalateRun

  /** Where the serialized spawn pass stands with this pull request. */
  datatype Phase =
    | Idle
    | SawThread(seen: seq<Comment>, reviews: seq<Review>)
    | SawBranch(seen: seq<Comment>, reviews: seq<Review>, onBranch: bool)
    | SawRearm(seen: seq<Comment>, reviews: seq<Review>, onBranch: bool, asOf: int)
    | NeedsFixCount(seen: seq<Comment>, asOf: int, st: PullVerdictState)
    | NeedsEscalateCount(seen: seq<Comment>, asOf: int, st: PullVerdictState)
    | Pending(seen: seq<Comment>, asOf: int, st: PullVerdictState, action: Action)
    | Burning(kind: Kind)

  datatype World = World(
    thread: seq<Comment>, rearmedAt: int, escalatedAt: Option<int>,
    fixAttempts: nat, escalateAttempts: nat,
    active: multiset<Kind>,
    phase: Phase,
    fixLaunches: nat, escalateLaunches: nat)  // past the cap check since the last re-arm

  /** An escalate run ended escalated after the last re-arm. */
  predicate EscalationStands(w: World) {
    w.escalatedAt.Some? && w.escalatedAt.value > w.rearmedAt
  }

  // ----- the world around the pass -----

  /** People and agents edit the thread at will. */
  ghost predicate Talk(w: World, w': World) {
    w' == w.(thread := w'.thread)
  }

  /** A run leaves the active set; only an escalate run moves the newest escalated instant. */
  ghost predicate EndRun(w: World, w': World) {
    && (exists k | k in w.active ::
        w'.active == w.active - multiset{k} && (w'.escalatedAt != w.escalatedAt ==> k.EscalateRun?))
    && (w.escalatedAt.Some? ==> w'.escalatedAt.Some? && w'.escalatedAt.value >= w.escalatedAt.value)
    && w' == w.(active := w'.active, escalatedAt := w'.escalatedAt)
  }

  /** RearmPull: the instant and both budgets move together. */
  ghost predicate Rearm(w: World, w': World) {
    && w'.rearmedAt >= w.rearmedAt
    && w' == w.(rearmedAt := w'.rearmedAt,
                fixAttempts := 0, escalateAttempts := 0, fixLaunches := 0, escalateLaunches := 0)
  }

  // ----- the pass -----

  /** A failed read, or a logged-out provider, skips the pull request for this pass. */
  ghost predicate Skip(w: World, w': World) {
    !w.phase.Burning? && w' == w.(phase := Idle)
  }

  ghost predicate ReadThread(w: World, w': World) {
    w.phase.Idle? && exists reviews :: w' == w.(phase := SawThread(w.thread, reviews))
  }

  ghost predicate ReadBranch(w: World, w': World) {
    w.phase.SawThread? && w' == w.(phase := SawBranch(w.phase.seen, w.phase.reviews, w.active != multiset{}))
  }

  ghost predicate ReadRearm(w: World, w': World) {
    w.phase.SawBranch? && w' == w.(phase := SawRearm(w.phase.seen, w.phase.reviews, w.phase.onBranch, w.rearmedAt))
  }

  /** Decide with the counts known so far; a count is read only before acting on it. */
  function Route(seen: seq<Comment>, asOf: int, st: PullVerdictState, fixCounted: bool, escalateCounted: bool): Phase {
    match DecideAutoland(st)
    case Nothing => Idle
    case Lander(_) => Pending(seen, asOf, st, DecideAutoland(st))
    case Fix => if fixCounted then Pending(seen, asOf, st, Fix) else NeedsFixCount(seen, asOf, st)
    case Escalate => if escalateCounted then Pending(seen, asOf, st, Escalate) else NeedsEscalateCount(seen, asOf, st)
  }

  ghost predicate ReadEscalatedRun(w: World, w': World, maxFix: int) {
    && w.phase.SawRearm?
    && var st := Polled(w.phase.seen, w.phase.reviews, w.phase.asOf, w.escalatedAt, w.phase.onBranch, 0, maxFix, 0);
       w' == w.(phase := Route(w.phase.seen, w.phase.asOf, st, false, false))
  }

  ghost predicate ReadFixCount(w: World, w': World) {
    && w.phase.NeedsFixCount?
    && w' == w.(phase := Route(w.phase.seen, w.phase.asOf, w.phase.st.(fixSpawns := w.fixAttempts), true, false))
  }

  ghost predicate ReadEscalateCount(w: World, w': World) {
    && w.phase.NeedsEscalateCount?
    && var st := w.phase.st.(escalateSpawns := w.escalateAttempts);
       w' == w.(phase := Route(w.phase.seen, w.phase.asOf, st, true, true))
  }

  function KindOf(action: Action): Kind {
    match action
    case Fix => FixRun
    case Escalate => EscalateRun
    case _ => LanderRun
  }

  /** The launch is tried past the cap check: it starts a run or fails, and a bounded kind then owes an attempt. */
  ghost predicate Launch(w: World, w': World) {
    && w.phase.Pending?
    && var kind := KindOf(w.phase.action);
    && (w'.active == w.active || w'.active == w.active + multiset{kind})
    && w' == w.(active := w'.active,
                phase := if kind.LanderRun? then Idle else Burning(kind),
                fixLaunches := if kind.FixRun? then w.fixLaunches + 1 else w.fixLaunches,
                escalateLaunches := if kind.EscalateRun? then w.escalateLaunches + 1 else w.escalateLaunches)
  }

  ghost predicate AtCap(w: World, w': World) {
    w.phase.Pending? && w' == w.(phase := Idle)
  }

  ghost predicate Burn(w: World, w': World) {
    && w.phase.Burning?
    && w' == w.(phase := Idle,
                fixAttempts := if w.phase.kind.FixRun? then w.fixAttempts + 1 else w.fixAttempts,
                escalateAttempts := if w.phase.kind.EscalateRun? then w.escalateAttempts + 1 else w.escalateAttempts)
  }

  ghost predicate Around(w: World, w': World) {
    Talk(w, w') || EndRun(w, w') || Rearm(w, w')
  }

  ghost predicate Pass(w: World, w': World, maxFix: int) {
    || Skip(w, w') || ReadThread(w, w') || ReadBranch(w, w') || ReadRearm(w, w') || ReadEscalatedRun(w, w', maxFix)
    || ReadFixCount(w, w') || ReadEscalateCount(w, w') || Launch(w, w') || AtCap(w, w') || Burn(w, w')
  }

  ghost predicate Step(w: World, w': World, maxFix: int) {
    Around(w, w') || Pass(w, w', maxFix)
  }

  // ----- what every reachable state keeps -----

  /** No comment the pass read is an escalation newer than the re-arm it read. */
  ghost predicate NoLiveMarker(seen: seq<Comment>, asOf: int) {
    forall i | 0 <= i < |seen| :: seen[i].word == Some(ESCALATE) ==> seen[i].createdAt <= asOf
  }

  /** What a decision in hand rests on, still true of the store it was read from. */
  ghost predicate Grounded(w: World, seen: seq<Comment>, asOf: int, st: PullVerdictState, maxFix: int) {
    && w.active == multiset{} && !EscalationStands(w)
    && asOf <= w.rearmedAt && NoLiveMarker(seen, asOf)
    && st.maxFixAttempts == maxFix
  }

  ghost predicate PhaseHolds(w: World, maxFix: int) {
    match w.phase
    case SawBranch(_, _, onBranch) => onBranch || w.active == multiset{}
    case SawRearm(_, _, onBranch, asOf) => asOf <= w.rearmedAt && (onBranch || w.active == multiset{})
    case NeedsFixCount(seen, asOf, st) => Grounded(w, seen, asOf, st, maxFix)
    case NeedsEscalateCount(seen, asOf, st) => Grounded(w, seen, asOf, st, maxFix) && DecideAutoland(st).Escalate?
    case Pending(seen, asOf, st, action) =>
      && Grounded(w, seen, asOf, st, maxFix) && action == DecideAutoland(st) && !action.Nothing?
      && (action.Fix? ==> w.fixAttempts <= st.fixSpawns)
      && (action.Escalate? ==> w.escalateAttempts <= st.escalateSpawns)
    case Burning(kind) =>
      && (kind.FixRun? ==> w.fixAttempts < maxFix) && (kind.EscalateRun? ==> w.escalateAttempts < MAX_ESCALATE_ATTEMPTS)
    case _ => true
  }

  function Owed(w: World, kind: Kind): nat {
    if w.phase == Burning(kind) then 1 else 0
  }

  ghost predicate Budgets(w: World, maxFix: nat) {
    && w.fixAttempts <= maxFix && w.fixLaunches <= w.fixAttempts + Owed(w, FixRun)
    && w.escalateAttempts <= MAX_ESCALATE_ATTEMPTS && w.escalateLaunches <= w.escalateAttempts + Owed(w, EscalateRun)
  }

  ghost predicate Safe(w: World, maxFix: nat) {
    |w.active| <= 1 && PhaseHolds(w, maxFix) && Budgets(w, maxFix)
  }

  lemma NoMarkerInLiveThread(thread: seq<Comment>, asOf: int)
    requires ESCALATE !in Words(LiveThread(thread, asOf))
    ensures NoLiveMarker(thread, asOf)
  {
    forall i | 0 <= i < |thread| && thread[i].word == Some(ESCALATE) ensures thread[i].createdAt <= asOf {
      if thread[i].createdAt > asOf {
        LiveMarkerIsAWord(thread, asOf, i);
      }
    }
  }

  lemma {:induction false} LiveMarkerIsAWord(thread: seq<Comment>, asOf: int, i: nat)
    requires i < |thread| && thread[i].word == Some(ESCALATE) && thread[i].createdAt > asOf
    ensures ESCALATE in Words(LiveThread(thread, asOf))
  {
    var front, last := thread[..|thread| - 1], thread[|thread| - 1];
    assert thread == front + [last];
    LiveThreadOfAppend(front, last, asOf);
    var live := LiveThread(front, asOf);
    WordsOfAppend(live, last);
    if i == |front| {
      assert Words(live + [last]) == Words(live) + [ESCALATE];
      assert (Words(live) + [ESCALATE])[|Words(live)|] == ESCALATE;
    } else {
      LiveMarkerIsAWord(front, asOf, i);
      if Superseded(last, asOf) {
        assert LiveThread(thread, asOf) == live;
      } else {
        var k :| 0 <= k < |Words(live)| && Words(live)[k] == ESCALATE;
        assert Words(live + [last])[k] == ESCALATE;
      }
    }
  }

  lemma AroundKeepsSafe(w: World, w': World, maxFix: nat)
    requires Safe(w, maxFix) && Around(w, w')
    ensures Safe(w', maxFix)
  {
  }

  lemma ReadsKeepSafe(w: World, w': World, maxFix: nat)
    requires Safe(w, maxFix)
    requires Skip(w, w') || ReadThread(w, w') || ReadBranch(w, w') || ReadRearm(w, w')
    ensures Safe(w', maxFix)
  {
  }

  lemma DecisionKeepsSafe(w: World, w': World, maxFix: nat)
    requires Safe(w, maxFix) && ReadEscalatedRun(w, w', maxFix)
    ensures Safe(w', maxFix)
  {
    var st := Polled(w.phase.seen, w.phase.reviews, w.phase.asOf, w.escalatedAt, w.phase.onBranch, 0, maxFix, 0);
    if !DecideAutoland(st).Nothing? {
      NoMarkerInLiveThread(w.phase.seen, w.phase.asOf);
    }
  }

  lemma CountsKeepSafe(w: World, w': World, maxFix: nat)
    requires Safe(w, maxFix) && (ReadFixCount(w, w') || ReadEscalateCount(w, w'))
    ensures Safe(w', maxFix)
  {
  }

  lemma LaunchKeepsSafe(w: World, w': World, maxFix: nat)
    requires Safe(w, maxFix) && (Launch(w, w') || AtCap(w, w') || Burn(w, w'))
    ensures Safe(w', maxFix)
  {
  }

  lemma StepKeepsSafe(w: World, w': World, maxFix: nat)
    requires Safe(w, maxFix) && Step(w, w', maxFix)
    ensures Safe(w', maxFix)
  {
    if Around(w, w') {
      AroundKeepsSafe(w, w', maxFix);
    } else if ReadEscalatedRun(w, w', maxFix) {
      DecisionKeepsSafe(w, w', maxFix);
    } else if ReadFixCount(w, w') || ReadEscalateCount(w, w') {
      CountsKeepSafe(w, w', maxFix);
    } else if Launch(w, w') || AtCap(w, w') || Burn(w, w') {
      LaunchKeepsSafe(w, w', maxFix);
    } else {
      ReadsKeepSafe(w, w', maxFix);
    }
  }

  // ----- runs of the protocol -----

  /** A pull request just opened by the authoring run, which may still sit on the branch. */
  ghost predicate Init(w: World) {
    && w.fixAttempts == w.escalateAttempts == w.fixLaunches == w.escalateLaunches == 0
    && w.phase.Idle? && w.escalatedAt.None?
    && (w.active == multiset{} || w.active == multiset{AuthorRun})
  }

  ghost predicate IsRun(ws: seq<World>, maxFix: int) {
    ws != [] && Init(ws[0]) && forall i | 0 <= i < |ws| - 1 :: StepAt(ws, i, maxFix)
  }

  ghost predicate StepAt(ws: seq<World>, i: nat, maxFix: int)
    requires i < |ws| - 1
  {
    Step(ws[i], ws[i + 1], maxFix)
  }

  lemma {:induction false} RunsStaySafe(ws: seq<World>, maxFix: nat, n: nat)
    requires IsRun(ws, maxFix) && n < |ws|
    ensures Safe(ws[n], maxFix)
  {
    if n > 0 {
      RunsStaySafe(ws, maxFix, n - 1);
      assert StepAt(ws, n - 1, maxFix);
      StepKeepsSafe(ws[n - 1], ws[n], maxFix);
    }
  }

  /** Between two re-arms the launches past the cap check stay within both budgets, and one run works the branch. */
  lemma BudgetsHold(ws: seq<World>, maxFix: nat, n: nat)
    requires IsRun(ws, maxFix) && n < |ws|
    ensures ws[n].fixLaunches <= maxFix && ws[n].escalateLaunches <= MAX_ESCALATE_ATTEMPTS
    ensures |ws[n].active| <= 1
  {
    RunsStaySafe(ws, maxFix, n);
  }

  /**
   * A launch finds the branch idle, no escalated run newer than the re-arm, and no live marker among the
   * comments it read.
   */
  lemma LaunchesAreGrounded(ws: seq<World>, maxFix: nat, n: nat)
    requires IsRun(ws, maxFix) && n + 1 < |ws| && Launch(ws[n], ws[n + 1])
    ensures ws[n].active == multiset{} && !EscalationStands(ws[n])
    ensures forall c | c in ws[n].phase.seen :: c.word == Some(ESCALATE) ==> c.createdAt <= ws[n].rearmedAt
  {
    RunsStaySafe(ws, maxFix, n);
  }

  /** An escalation stands until the next re-arm. */
  lemma {:induction false} EscalationLasts(ws: seq<World>, maxFix: nat, i: nat, j: nat)
    requires IsRun(ws, maxFix) && i <= j < |ws|
    requires EscalationStands(ws[i])
    requires forall k | i <= k < j :: ws[k + 1].rearmedAt == ws[k].rearmedAt
    ensures EscalationStands(ws[j])
  {
    if i < j {
      EscalationLasts(ws, maxFix, i, j - 1);
      var k := j - 1;
      assert ws[k + 1].rearmedAt == ws[k].rearmedAt;
      assert StepAt(ws, k, maxFix);
      EscalationPersists(ws[k], ws[k + 1], maxFix);
    }
  }

  /** An escalation silences the pull request until the next re-arm. */
  lemma SilentUntilRearm(ws: seq<World>, maxFix: nat, i: nat, j: nat)
    requires IsRun(ws, maxFix) && i <= j && j + 1 < |ws|
    requires EscalationStands(ws[i])
    requires forall k | i <= k < j :: ws[k + 1].rearmedAt == ws[k].rearmedAt
    ensures !Launch(ws[j], ws[j + 1])
  {
    EscalationLasts(ws, maxFix, i, j);
    if Launch(ws[j], ws[j + 1]) {
      LaunchesAreGrounded(ws, maxFix, j);
    }
  }

  // ----- the marker half of terminality -----

  /** An escalation marker newer than the last re-arm is on the thread. */
  ghost predicate MarkerStands(w: World, c: Comment) {
    c.word == Some(ESCALATE) && c.createdAt > w.rearmedAt && c in w.thread
  }

  /** The pass has not read the thread yet, or read the marker with it. */
  ghost predicate MarkerInView(w: World, c: Comment) {
    match w.phase
    case Idle => true
    case Burning(_) => true
    case SawThread(seen, _) => c in seen
    case SawBranch(seen, _, _) => c in seen
    case SawRearm(seen, _, _, _) => c in seen
    case _ => false
  }

  lemma SeenMarkerDecidesNothing(w: World, c: Comment, maxFix: nat)
    requires Safe(w, maxFix) && w.phase.SawRearm? && MarkerStands(w, c) && c in w.phase.seen
    ensures DecideAutoland(Polled(w.phase.seen, w.phase.reviews, w.phase.asOf, w.escalatedAt, w.phase.onBranch, 0,
                                  maxFix, 0)).Nothing?
  {
    var i :| 0 <= i < |w.phase.seen| && w.phase.seen[i] == c;
    LiveMarkerIsAWord(w.phase.seen, w.phase.asOf, i);
  }

  lemma MarkerStaysInView(w: World, w': World, c: Comment, maxFix: nat)
    requires Safe(w, maxFix) && Step(w, w', maxFix) && MarkerStands(w, c) && MarkerInView(w, c)
    ensures MarkerInView(w', c) && !Launch(w, w')
  {
    if ReadEscalatedRun(w, w', maxFix) {
      SeenMarkerDecidesNothing(w, c, maxFix);
    }
  }

  /** The marker is on the thread from tick i to tick j, and no re-arm supersedes it. */
  ghost predicate StandsThrough(ws: seq<World>, i: nat, j: nat, c: Comment) {
    j < |ws| && forall k | i <= k <= j :: MarkerStands(ws[k], c)
  }

  lemma NextInView(ws: seq<World>, maxFix: nat, k: nat, c: Comment)
    requires IsRun(ws, maxFix) && k + 1 < |ws| && MarkerStands(ws[k], c) && MarkerInView(ws[k], c)
    ensures MarkerInView(ws[k + 1], c) && !Launch(ws[k], ws[k + 1])
  {
    RunsStaySafe(ws, maxFix, k);
    assert StepAt(ws, k, maxFix);
    MarkerStaysInView(ws[k], ws[k + 1], c, maxFix);
  }

  lemma {:induction false} MarkerComesIntoView(ws: seq<World>, maxFix: nat, i: nat, j: nat, c: Comment)
    requires IsRun(ws, maxFix) && i <= j && StandsThrough(ws, i, j, c)
    requires MarkerInView(ws[i], c)
    ensures MarkerInView(ws[j], c)
  {
    if i < j {
      MarkerComesIntoView(ws, maxFix, i, j - 1, c);
      NextInView(ws, maxFix, j - 1, c);
    }
  }

  /**
   * A marker that stands from before a pass reads the thread silences that pass and every later one, as long
   * as it stands.
   */
  lemma MarkerSilences(ws: seq<World>, maxFix: nat, i: nat, j: nat, c: Comment)
    requires IsRun(ws, maxFix) && i <= j && j + 1 < |ws| && StandsThrough(ws, i, j, c)
    requires ws[i].phase.Idle? || ws[i].phase.Burning?
    ensures !Launch(ws[j], ws[j + 1])
  {
    MarkerComesIntoView(ws, maxFix, i, j, c);
    NextInView(ws, maxFix, j, c);
  }

  /** At most one launch slips past a marker: after it the marker silences every pass. */
  lemma AtMostOneSlips(ws: seq<World>, maxFix: nat, a: nat, b: nat, c: Comment)
    requires IsRun(ws, maxFix) && a < b && b + 1 < |ws|
    requires Launch(ws[a], ws[a + 1]) && StandsThrough(ws, a + 1, b, c)
    ensures !Launch(ws[b], ws[b + 1])
  {
    MarkerSilences(ws, maxFix, a + 1, b, c);
  }

  /**
   * The thread asks for a run the budgets still allow: none yet, a repair to validate, or a rejection with an
   * attempt left.
   */
  predicate Unspent(st: PullVerdictState) {
    || (st.words == [] && !st.liveReview)
    || LastKnown(st.words) == FIX_DONE
    || ((LastKnown(st.words) == REJECT || st.humanRejected)
        && (st.fixSpawns < st.maxFixAttempts || st.escalateSpawns < MAX_ESCALATE_ATTEMPTS))
  }

  /** What a pass that has read the thread makes of the world as it is, were nothing to come between. */
  ghost function Reading(w: World, maxFix: int): PullVerdictState
    requires w.phase.SawThread?
  {
    Polled(w.phase.seen, w.phase.reviews, w.rearmedAt, w.escalatedAt, w.active != multiset{}, w.fixAttempts, maxFix,
           w.escalateAttempts)
  }

  /** The phases of deciding undisturbed, each count read only where the decision needs it. */
  function RouteOn(seen: seq<Comment>, asOf: int, st: PullVerdictState, fixes: nat,
                   escalates: nat): (phases: seq<Phase>)
    ensures |phases| == 3
  {
    var decided := Route(seen, asOf, st, false, false);
    var fixed := if decided.NeedsFixCount? then Route(seen, asOf, st.(fixSpawns := fixes), true, false) else decided;
    var counted := if fixed.NeedsEscalateCount?
                   then Route(seen, asOf, fixed.st.(escalateSpawns := escalates), true, true) else fixed;
    [decided, fixed, counted]
  }

  /** The phases an undisturbed pass goes through after it read the thread. */
  ghost function ReadOn(w: World, maxFix: int): seq<World>
    requires w.phase.SawThread?
  {
    var seen, reviews, onBranch := w.phase.seen, w.phase.reviews, w.active != multiset{};
    var st := Polled(seen, reviews, w.rearmedAt, w.escalatedAt, onBranch, 0, maxFix, 0);
    var routes := RouteOn(seen, w.rearmedAt, st, w.fixAttempts, w.escalateAttempts);
    [w, w.(phase := SawBranch(seen, reviews, onBranch)), w.(phase := SawRearm(seen, reviews, onBranch, w.rearmedAt)),
     w.(phase := routes[0]), w.(phase := routes[1]), w.(phase := routes[2])]
  }

  /** Each phase follows the one before, or is the same where no count was needed. */
  lemma ReadOnIsThePass(w: World, maxFix: int)
    requires w.phase.SawThread?
    ensures var r := ReadOn(w, maxFix);
            && Pass(r[0], r[1], maxFix) && Pass(r[1], r[2], maxFix) && Pass(r[2], r[3], maxFix)
            && (r[3] == r[4] || Pass(r[3], r[4], maxFix)) && (r[4] == r[5] || Pass(r[4], r[5], maxFix))
  {
    var r := ReadOn(w, maxFix);
    assert ReadBranch(r[0], r[1]) && ReadRearm(r[1], r[2]) && ReadEscalatedRun(r[2], r[3], maxFix);
    assert r[3] == r[4] || ReadFixCount(r[3], r[4]);
    assert r[4] == r[5] || ReadEscalateCount(r[4], r[5]);
  }

  lemma DecidesIffUnspent(st: PullVerdictState)
    ensures DecideAutoland(st) != Nothing <==> !st.runOnBranch && !st.escalated && Unspent(st)
  {
  }

  /**
   * A marker posted after the pass read the thread slips exactly when the pass goes on to read an
   * idle branch, no standing escalation and an unspent budget.
   */
  lemma SlipsIffIdleAndUnspent(w: World, maxFix: int)
    requires w.phase.SawThread?
    ensures ReadOn(w, maxFix)[5].phase.Pending? <==>
            w.active == multiset{} && !Reading(w, maxFix).escalated && Unspent(Reading(w, maxFix))
  {
    ReadOnDecidesEagerly(w, maxFix);
    DecidesIffUnspent(Reading(w, maxFix));
  }

  /**
   * Whatever came between, a launch over a standing marker had not read it, and read an idle branch and an
   * unspent budget.
   */
  lemma SlipsOnlyUnread(ws: seq<World>, maxFix: nat, n: nat, c: Comment)
    requires IsRun(ws, maxFix) && n + 1 < |ws| && Launch(ws[n], ws[n + 1]) && MarkerStands(ws[n], c)
    ensures c !in ws[n].phase.seen
    ensures !ws[n].phase.st.runOnBranch && !ws[n].phase.st.escalated && Unspent(ws[n].phase.st)
  {
    RunsStaySafe(ws, maxFix, n);
    LaunchesAreGrounded(ws, maxFix, n);
  }

  lemma EscalationPersists(w: World, w': World, maxFix: int)
    requires Step(w, w', maxFix) && EscalationStands(w) && w'.rearmedAt == w.rearmedAt
    ensures EscalationStands(w')
  {
  }

  lemma RouteOnDecidesEagerly(seen: seq<Comment>, asOf: int, st: PullVerdictState, fixes: nat, escalates: nat)
    requires st.fixSpawns == 0 && st.escalateSpawns == 0
    ensures var action := DecideAutoland(st.(fixSpawns := fixes, escalateSpawns := escalates));
            var phase := RouteOn(seen, asOf, st, fixes, escalates)[2];
            if action.Nothing? then phase.Idle? else phase.Pending? && phase.action == action
  {
  }

  /** An undisturbed pass, reading its counts lazily, comes to what the counts read together decide. */
  lemma ReadOnDecidesEagerly(w: World, maxFix: int)
    requires w.phase.SawThread?
    ensures var (action, phase) := (DecideAutoland(Reading(w, maxFix)), ReadOn(w, maxFix)[5].phase);
            if action.Nothing? then phase.Idle? else phase.Pending? && phase.action == action
  {
    var st := Polled(w.phase.seen, w.phase.reviews, w.rearmedAt, w.escalatedAt, w.active != multiset{}, 0, maxFix, 0);
    RouteOnDecidesEagerly(w.phase.seen, w.rearmedAt, st, w.fixAttempts, w.escalateAttempts);
    assert Reading(w, maxFix) == st.(fixSpawns := w.fixAttempts, escalateSpawns := w.escalateAttempts);
  }

  /**
   * In any run, the counts a pending decision left unread do not matter: it stands for every
   * escalation count unless it escalates, and for every fix count unless it fixes or escalates past
   * a spent fix budget; and the budget it spends is not spent yet.
   */
  lemma PendingIsTheEagerDecision(ws: seq<World>, maxFix: nat, n: nat, fix: nat, escalate: nat)
    requires IsRun(ws, maxFix) && n < |ws| && ws[n].phase.Pending?
    requires var (st, action) := (ws[n].phase.st, ws[n].phase.action);
             && (action.Fix? ==> fix == st.fixSpawns)
             && (action.Escalate? ==> escalate == st.escalateSpawns && fix >= st.fixSpawns)
    ensures ws[n].phase.action == DecideAutoland(ws[n].phase.st.(fixSpawns := fix, escalateSpawns := escalate))
    ensures ws[n].phase.action.Fix? ==> ws[n].fixAttempts < maxFix
    ensures ws[n].phase.action.Escalate? ==> ws[n].escalateAttempts < MAX_ESCALATE_ATTEMPTS
  {
    RunsStaySafe(ws, maxFix, n);
  }

  /**
   * A re-arm renews the budget: whatever was spent before it, the next pass that reads a rejection
   * as the newest word, an idle branch and no escalation from after the re-arm asks for a run again.
   */
  lemma RearmRenewsTheBudget(w: World, w': World, maxFix: int, seen: seq<Comment>, reviews: seq<Review>)
    requires Rearm(w, w') && w'.active == multiset{}
    requires w'.escalatedAt.Some? ==> w'.escalatedAt.value <= w'.rearmedAt
    requires !EscalatesAfter(seen, w'.rearmedAt) && LastKnown(Words(LiveThread(seen, w'.rearmedAt))) == REJECT
    ensures var end := ReadOn(w'.(phase := SawThread(seen, reviews)), maxFix)[5].phase;
            end.Pending? && end.action == if maxFix > 0 then Fix else Escalate
  {
    var read := w'.(phase := SawThread(seen, reviews));
    EscalationIsLiveIff(seen, w'.rearmedAt);
    LastKnownIsAWord(Words(LiveThread(seen, w'.rearmedAt)));
    ReadOnDecidesEagerly(read, maxFix);
    DecisionTable(Reading(read, maxFix));
  }

  // ----- the store's side: burning and re-arming -----

  datatype LaunchResult = OverCap | CameUp | FellOver

  datatype SpawnOutcome = SpawnedOne | AtTheCap | SkippedOne

  /** What the store keeps of one pull request. */
  class PullStore {
    var rearmedAt: int
    var attempts: map<Kind, nat>

    constructor ()
      ensures attempts == map[]
    {
      rearmedAt, attempts := 0, map[];
    }

    /** An absent row is zero attempts. */
    function Attempts(kind: Kind): nat
      reads this
    {
      if kind in attempts then attempts[kind] else 0
    }

    method RecordAutolandAttempt(kind: Kind)
      modifies this`attempts
      ensures Attempts(kind) == old(Attempts(kind)) + 1
      ensures forall k | k != kind :: Attempts(k) == old(Attempts(k))
    {
      attempts := attempts[kind := Attempts(kind) + 1];
    }

    /** One transaction: the instant is stamped and every budget is whole again. */
    method RearmPull(at: int)
      modifies this
      ensures rearmedAt == at && forall k :: Attempts(k) == 0
    {
      rearmedAt, attempts := at, map[];
    }

    /** Every launch past the cap check burns an attempt of a bounded kind, whether or not it came up. */
    method AutolandLaunch(kind: Kind, result: LaunchResult) returns (outcome: SpawnOutcome)
      modifies this`attempts
      ensures outcome == (match result case OverCap => AtTheCap case CameUp => SpawnedOne case FellOver => SkippedOne)
      ensures forall k :: Attempts(k) == old(Attempts(k)) +
                if k == kind && !result.OverCap? && (kind.FixRun? || kind.EscalateRun?) then 1 else 0
    {
      if result.OverCap? {
        return AtTheCap;
      }
      if kind.FixRun? || kind.EscalateRun? {
        RecordAutolandAttempt(kind);
      }
      outcome := if result.CameUp? then SpawnedOne else SkippedOne;
    }
  }

  // ----- the marker half alone has a gap -----

  const REJECTED := Comment(Some(REJECT), "", 1)
  const MARKER := Comment(Some(ESCALATE), "", 2)

  function Rejected(fixSpawns: nat, escalateSpawns: nat): PullVerdictState {
    PullVerdictState([REJECT], false, false, false, false, fixSpawns, 0, escalateSpawns)
  }

  lemma RejectedIsPolled()
    ensures Polled([REJECTED], [], 0, None, false, 0, 0, 0) == Rejected(0, 0)
  {
    OneComment(REJECTED, 0);
  }

  /** One read of a rejected pull request, up to a pending escalation. */
  ghost function Reads(w: World): seq<World> {
    var seen := [REJECTED];
    [w.(phase := SawBranch(seen, [], false)),
     w.(phase := SawRearm(seen, [], false, 0)),
     w.(phase := NeedsEscalateCount(seen, 0, Rejected(0, 0))),
     w.(phase := Pending(seen, 0, Rejected(0, w.escalateAttempts), Escalate))]
  }

  lemma ReadsAreSteps(w: World)
    requires w.phase == SawThread([REJECTED], []) && w.active == multiset{} && w.escalatedAt.None? && w.rearmedAt == 0
    requires w.escalateAttempts < MAX_ESCALATE_ATTEMPTS
    ensures var r := Reads(w); Step(w, r[0], 0) && Step(r[0], r[1], 0) && Step(r[1], r[2], 0) && Step(r[2], r[3], 0)
  {
    var r := Reads(w);
    assert ReadBranch(w, r[0]) && ReadRearm(r[0], r[1]);
    RejectedIsPolled();
    RejectedEscalates(0);
    assert ReadEscalatedRun(r[1], r[2], 0);
    RejectedEscalates(w.escalateAttempts);
    assert ReadEscalateCount(r[2], r[3]);
  }

  lemma RejectedEscalates(n: nat)
    requires n < MAX_ESCALATE_ATTEMPTS
    ensures DecideAutoland(Rejected(0, n)) == Escalate
  {
    LastKnownOfOne(REJECT);
  }

  lemma Extend(ws: seq<World>, w: World) returns (longer: seq<World>)
    requires IsRun(ws, 0) && Step(ws[|ws| - 1], w, 0)
    ensures IsRun(longer, 0) && |longer| >= 2 && longer[|longer| - 2] == ws[|ws| - 1] && longer[|longer| - 1] == w
  {
    longer := ws + [w];
    forall i | 0 <= i < |longer| - 1 ensures StepAt(longer, i, 0) {
      if i < |ws| - 1 {
        assert StepAt(ws, i, 0);
      }
    }
  }

  lemma ExtendByReads(ws: seq<World>) returns (longer: seq<World>)
    requires IsRun(ws, 0)
    requires var w := ws[|ws| - 1];
             && w.phase == SawThread([REJECTED], []) && w.active == multiset{} && w.escalatedAt.None?
             && w.rearmedAt == 0
             && w.escalateAttempts < MAX_ESCALATE_ATTEMPTS
    ensures IsRun(longer, 0) && longer[|longer| - 1] == Reads(ws[|ws| - 1])[3]
  {
    ReadsAreSteps(ws[|ws| - 1]);
    var r := Reads(ws[|ws| - 1]);
    longer := Extend(ws, r[0]);
    longer := Extend(longer, r[1]);
    longer := Extend(longer, r[2]);
    longer := Extend(longer, r[3]);
  }

  /** A run up to the second read of the thread, with an escalate run at work. */
  lemma EscalateRunAtWork() returns (ws: seq<World>)
    ensures IsRun(ws, 0)
    ensures ws[|ws| - 1] == World([REJECTED], 0, None, 0, 1, multiset{EscalateRun}, SawThread([REJECTED], []), 0, 1)
  {
    var w0 := World([REJECTED], 0, None, 0, 0, multiset{}, Idle, 0, 0);
    var w1 := w0.(phase := SawThread([REJECTED], []));
    assert ReadThread(w0, w1);
    ws := Extend([w0], w1);
    ws := ExtendByReads(ws);
    var w2 := w1.(active := multiset{EscalateRun}, phase := Burning(EscalateRun), escalateLaunches := 1);
    assert Launch(ws[|ws| - 1], w2);
    ws := Extend(ws, w2);
    var w3 := w2.(phase := Idle, escalateAttempts := 1);
    assert Burn(w2, w3);
    ws := Extend(ws, w3);
    var w4 := w3.(phase := SawThread([REJECTED], []));
    assert ReadThread(w3, w4);
    ws := Extend(ws, w4);
  }

  /**
   * A marker posted after the pass read the thread, by an escalate run stopped before the pass
   * read the branch, is missed: another run is launched over a live escalation.
   */
  lemma MarkerInTheGap() returns (ws: seq<World>)
    ensures IsRun(ws, 0) && |ws| >= 2
    ensures MarkerStands(ws[|ws| - 2], MARKER) && Launch(ws[|ws| - 2], ws[|ws| - 1])
    ensures ws[|ws| - 1].active == multiset{EscalateRun}
  {
    ws := EscalateRunAtWork();
    var w4 := ws[|ws| - 1];
    var w5 := w4.(thread := [REJECTED, MARKER]);
    assert Talk(w4, w5);
    ws := Extend(ws, w5);
    var w6 := w5.(active := multiset{});
    assert multiset{EscalateRun} - multiset{EscalateRun} == multiset{};
    assert EscalateRun in w5.active && w6.active == w5.active - multiset{EscalateRun};
    assert EndRun(w5, w6);
    ws := Extend(ws, w6);
    ws := ExtendByReads(ws);
    assert [REJECTED, MARKER][1] == MARKER;
    var w7 := ws[|ws| - 1];
    var w8 := w7.(active := multiset{EscalateRun}, phase := Burning(EscalateRun), escalateLaunches := 2);
    assert w7.active + multiset{EscalateRun} == multiset{EscalateRun};
    assert Launch(w7, w8);
    ws := Extend(ws, w8);
  }
}
