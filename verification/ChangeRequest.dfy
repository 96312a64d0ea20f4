/**
 * Merge, Close and the head delete of change requests, interleaved under one mutex a request,
 * with the store's rows on one side and origin's refs on the other.
 */
module ChangeRequest {
  import opened Text
  import opened CommitGraph

  type CrId = nat
  type OpId = nat

  datatype State = Open | Closed | Merged(head: Commit, commit: Commit)

  datatype Row = Row(head: string, base: string, state: State)

  datatype Op =
    | MergeWaits(cr: CrId, deleteHead: bool)
    | MergeHolds(cr: CrId, deleteHead: bool)
    | MergeLanded(cr: CrId, deleteHead: bool, head: Commit, commit: Commit)
    | MergeRecorded(cr: CrId, deleteHead: bool)
    | Remerged(cr: CrId)
    | CloseWaits(cr: CrId)
    | CloseHolds(cr: CrId)
    | Finished

  datatype World = World(
    graph: Graph, refs: map<string, Commit>, rows: map<CrId, Row>,
    ops: map<OpId, Op>, lock: map<CrId, OpId>,
    landed: set<CrId>,    // a merge of the request reached origin
    stranded: set<CrId>)  // a merge of the request failed between its push and its record

  datatype Event =
    | CreateCR(cr: CrId, head: string, base: string)
    | CallMerge(id: OpId, cr: CrId, deleteHead: bool)
    | CallClose(id: OpId, cr: CrId)
    | CallDeleteHead(id: OpId, cr: CrId)
    | Acquire(id: OpId)
    | Refuse(id: OpId)
    | GitFails(id: OpId)
    | Land(id: OpId, headTip: Commit, commit: Commit)
    | Record(id: OpId, ok: bool)
    | CloseRow(id: OpId)
    | DeleteHead(id: OpId, ok: bool)
    | OutsideCommit(parents: seq<Commit>)
    | OutsidePush(branch: string, commit: Commit)
    | OutsideDelete(branch: string)

  predicate IsOp(w: World, id: OpId) {
    id in w.ops && (w.ops[id].Finished? || w.ops[id].cr in w.rows)
  }

  /** The deletion is asked for and the guard lets it through. */
  predicate Deletes(w: World, id: OpId, main: string) {
    && IsOp(w, id)
    && var op := w.ops[id];
       (op.MergeRecorded? && op.deleteHead && Deletable(w.rows[op.cr].head, w.rows[op.cr].base, main))
       || (op.Remerged? && Deletable(w.rows[op.cr].head, main, main))
  }

  /** deleteHead's refusal to touch the base or the default branch. */
  predicate Deletable(head: string, base: string, main: string) {
    head != "" && head != base && head != main
  }

  /** `main` is the repo's default branch; others never delete it and never force a push to it. */
  predicate Can(w: World, e: Event, main: string) {
    match e
    case CreateCR(cr, _, _) => cr !in w.rows
    case CallMerge(id, cr, _) => id !in w.ops && cr in w.rows
    case CallClose(id, cr) => id !in w.ops && cr in w.rows
    case CallDeleteHead(id, cr) => id !in w.ops && cr in w.rows && w.rows[cr].state.Merged?
    case Acquire(id) => IsOp(w, id) && (w.ops[id].MergeWaits? || w.ops[id].CloseWaits?) && w.ops[id].cr !in w.lock
    case Refuse(id) => IsOp(w, id) && w.ops[id].MergeHolds? && !w.rows[w.ops[id].cr].state.Open?
    case GitFails(id) => IsOp(w, id) && w.ops[id].MergeHolds?
    case Land(id, head, commit) =>
      && IsOp(w, id) && w.ops[id].MergeHolds? && w.rows[w.ops[id].cr].state.Open?
      && w.rows[w.ops[id].cr].base in w.refs
      && commit < |w.graph| && Ancestor(w.graph, w.refs[w.rows[w.ops[id].cr].base], commit)
      && Ancestor(w.graph, head, commit)
    case Record(id, _) => IsOp(w, id) && w.ops[id].MergeLanded?
    case CloseRow(id) => IsOp(w, id) && w.ops[id].CloseHolds?
    case DeleteHead(id, _) => IsOp(w, id) && (w.ops[id].MergeRecorded? || w.ops[id].Remerged?)
    case OutsideCommit(parents) => forall k | 0 <= k < |parents| :: parents[k] < |w.graph|
    case OutsidePush(branch, commit) =>
      commit < |w.graph| && (branch in w.refs ==> Ancestor(w.graph, w.refs[branch], commit))
    case OutsideDelete(branch) => branch != main
  }

  function Next(w: World, id: OpId, op: Op): World {
    w.(ops := w.ops[id := op])
  }

  function Release(w: World, id: OpId, op: Op): World
    requires id in w.ops && !w.ops[id].Finished?
  {
    Next(w, id, op).(lock := w.lock - {w.ops[id].cr})
  }

  function Do(w: World, e: Event, main: string): World
    requires Can(w, e, main)
  {
    match e
    case CreateCR(cr, head, base) => w.(rows := w.rows[cr := Row(head, base, Open)])
    case CallMerge(id, cr, deleteHead) => Next(w, id, MergeWaits(cr, deleteHead))
    case CallClose(id, cr) => Next(w, id, CloseWaits(cr))
    case CallDeleteHead(id, cr) => Next(w, id, Remerged(cr))
    case Acquire(id) =>
      var op := w.ops[id];
      var holds := if op.MergeWaits? then MergeHolds(op.cr, op.deleteHead) else CloseHolds(op.cr);
      Next(w, id, holds).(lock := w.lock[op.cr := id])
    case Refuse(id) => Release(w, id, Finished)
    case GitFails(id) => Release(w, id, Finished)
    case Land(id, head, commit) =>
      var op := w.ops[id];
      Next(w, id, MergeLanded(op.cr, op.deleteHead, head, commit)).(
        refs := w.refs[w.rows[op.cr].base := commit], landed := w.landed + {op.cr})
    case Record(id, ok) =>
      var op := w.ops[id];
      if ok && w.rows[op.cr].state.Open?
      then Release(w, id, MergeRecorded(op.cr, op.deleteHead)).(
             rows := w.rows[op.cr := w.rows[op.cr].(state := Merged(op.head, op.commit))])
      else Release(w, id, Finished).(stranded := w.stranded + {op.cr})
    case CloseRow(id) =>
      var op := w.ops[id];
      if w.rows[op.cr].state.Open?
      then Release(w, id, Finished).(rows := w.rows[op.cr := w.rows[op.cr].(state := Closed)])
      else Release(w, id, Finished)
    case DeleteHead(id, ok) =>
      var deletes := ok && Deletes(w, id, main);
      Next(w, id, Finished).(refs := if deletes then w.refs - {w.rows[w.ops[id].cr].head} else w.refs)
    case OutsideCommit(parents) => w.(graph := w.graph + [parents])
    case OutsidePush(branch, commit) => w.(refs := w.refs[branch := commit])
    case OutsideDelete(branch) => w.(refs := w.refs - {branch})
  }

  // ----- what every reachable state keeps -----

  ghost predicate Holds(op: Op) {
    op.MergeHolds? || op.MergeLanded? || op.CloseHolds?
  }

  /** One holder a request, and the lock names it. */
  ghost predicate LocksHold(w: World) {
    && (forall id | id in w.ops && Holds(w.ops[id]) :: w.ops[id].cr in w.lock && w.lock[w.ops[id].cr] == id)
    && (forall cr | cr in w.lock :: w.lock[cr] in w.ops && Holds(w.ops[w.lock[cr]]) && w.ops[w.lock[cr]].cr == cr)
  }

  ghost predicate OpsHold(w: World) {
    forall id | id in w.ops && !w.ops[id].Finished? :: w.ops[id].cr in w.rows
  }

  /** Origin's base branch contains the commit, which contains the head. */
  ghost predicate Contained(w: World, head: Commit, commit: Commit, base: string) {
    base in w.refs && commit < |w.graph| && Ancestor(w.graph, head, commit) && Ancestor(w.graph, commit, w.refs[base])
  }

  ghost predicate GraphHolds(w: World, main: string) {
    WellFormed(w.graph) && main in w.refs && forall b | b in w.refs :: w.refs[b] < |w.graph|
  }

  /** A merge past its push holds an open row; one past its record stands on a merged row. */
  ghost predicate StagesHold(w: World) {
    && (forall id | id in w.ops && w.ops[id].MergeLanded? ::
          w.ops[id].cr in w.rows && w.rows[w.ops[id].cr].state.Open? && w.ops[id].cr in w.landed)
    && (forall id | id in w.ops && (w.ops[id].MergeRecorded? || w.ops[id].Remerged?) ::
          w.ops[id].cr in w.rows && w.rows[w.ops[id].cr].state.Merged?)
  }

  ghost predicate MergesHold(w: World, base: string) {
    LandedHold(w, base) && MergedHold(w, base)
  }

  ghost predicate Landing(w: World, cr: CrId) {
    cr in w.lock && w.lock[cr] in w.ops && w.ops[w.lock[cr]].MergeLanded?
  }

  /** A request whose merge reached origin is merged, about to be recorded, or stranded. */
  ghost predicate LandingsHold(w: World) {
    && w.stranded <= w.landed
    && (forall cr | cr in w.landed :: cr in w.rows)
    && (forall cr | cr in w.landed && !w.rows[cr].state.Merged? :: cr in w.stranded || Landing(w, cr))
  }

  ghost predicate Inv(w: World, main: string) {
    OpsHold(w) && LocksHold(w) && GraphHolds(w, main) && StagesHold(w) && LandingsHold(w)
  }

  lemma AcquireKeepsLocks(w: World, e: Event, main: string)
    requires Inv(w, main) && Can(w, e, main) && (e.Acquire? || e.Land?)
    ensures LocksHold(Do(w, e, main))
  {
  }

  lemma ReleaseKeepsLocks(w: World, e: Event, main: string)
    requires Inv(w, main) && Can(w, e, main) && (e.Refuse? || e.GitFails? || e.Record? || e.CloseRow?)
    ensures LocksHold(Do(w, e, main))
  {
  }

  lemma LocksKept(w: World, e: Event, main: string)
    requires Inv(w, main) && Can(w, e, main)
    ensures LocksHold(Do(w, e, main))
  {
    match e
    case Acquire(_) => AcquireKeepsLocks(w, e, main);
    case Land(_, _, _) => AcquireKeepsLocks(w, e, main);
    case Refuse(_) => ReleaseKeepsLocks(w, e, main);
    case GitFails(_) => ReleaseKeepsLocks(w, e, main);
    case Record(_, _) => ReleaseKeepsLocks(w, e, main);
    case CloseRow(_) => ReleaseKeepsLocks(w, e, main);
    case _ =>
  }

  lemma GraphKept(w: World, e: Event, main: string)
    requires Inv(w, main) && Can(w, e, main)
    ensures GraphHolds(Do(w, e, main), main)
  {
  }

  lemma RowWritesKeepLandings(w: World, e: Event, main: string)
    requires Inv(w, main) && Can(w, e, main) && (e.Record? || e.CloseRow? || e.Land?)
    ensures LandingsHold(Do(w, e, main))
  {
  }

  lemma CallsKeepLandings(w: World, e: Event, main: string)
    requires Inv(w, main) && Can(w, e, main) && !e.Record? && !e.CloseRow? && !e.Land?
    ensures LandingsHold(Do(w, e, main))
  {
  }

  /** A branch that is not deleted only moves to descendants, so what it contains it keeps. */
  lemma ContainedKept(w: World, e: Event, main: string, base: string, head: Commit, commit: Commit)
    requires Inv(w, main) && Can(w, e, main) && Contained(w, head, commit, base) && base in Do(w, e, main).refs
    ensures Contained(Do(w, e, main), head, commit, base)
  {
    var w' := Do(w, e, main);
    match e
    case OutsideCommit(_) =>
      AncestorGrows(w.graph, w'.graph, head, commit);
      AncestorGrows(w.graph, w'.graph, commit, w.refs[base]);
    case Land(id, _, c) =>
      if w.rows[w.ops[id].cr].base == base {
        AncestorTransitive(w.graph, commit, w.refs[base], c);
      }
    case OutsidePush(branch, c) =>
      if branch == base {
        AncestorTransitive(w.graph, commit, w.refs[base], c);
      }
    case _ =>
  }

  ghost predicate LandedHold(w: World, base: string) {
    forall id | id in w.ops && w.ops[id].MergeLanded? && w.ops[id].cr in w.rows && w.rows[w.ops[id].cr].base == base ::
      Contained(w, w.ops[id].head, w.ops[id].commit, base)
  }

  ghost predicate MergedHold(w: World, base: string) {
    forall cr | cr in w.rows && w.rows[cr].state.Merged? && w.rows[cr].base == base ::
      Contained(w, w.rows[cr].state.head, w.rows[cr].state.commit, base)
  }

  lemma LandedKept(w: World, e: Event, main: string, base: string)
    requires Inv(w, main) && Can(w, e, main) && MergesHold(w, base)
    requires forall head, commit | Contained(w, head, commit, base) :: Contained(Do(w, e, main), head, commit, base)
    ensures LandedHold(Do(w, e, main), base)
  {
  }

  lemma MergedKept(w: World, e: Event, main: string, base: string)
    requires Inv(w, main) && Can(w, e, main) && MergesHold(w, base)
    requires forall head, commit | Contained(w, head, commit, base) :: Contained(Do(w, e, main), head, commit, base)
    ensures MergedHold(Do(w, e, main), base)
  {
  }

  lemma MergesKept(w: World, e: Event, main: string, base: string)
    requires Inv(w, main) && Can(w, e, main) && MergesHold(w, base) && (base in w.refs ==> base in Do(w, e, main).refs)
    ensures MergesHold(Do(w, e, main), base)
  {
    forall head, commit | Contained(w, head, commit, base) ensures Contained(Do(w, e, main), head, commit, base) {
      ContainedKept(w, e, main, base, head, commit);
    }
    LandedKept(w, e, main, base);
    MergedKept(w, e, main, base);
  }

  /** The holder of the lock is the only merge or close that moves the row. */
  lemma RowWritesKeepStages(w: World, e: Event, main: string)
    requires Inv(w, main) && Can(w, e, main) && (e.Record? || e.CloseRow? || e.Land?)
    ensures StagesHold(Do(w, e, main))
  {
  }

  lemma CallsKeepStages(w: World, e: Event, main: string)
    requires Inv(w, main) && Can(w, e, main) && !e.Record? && !e.CloseRow? && !e.Land?
    ensures StagesHold(Do(w, e, main))
  {
  }

  lemma OpsKept(w: World, e: Event, main: string)
    requires Inv(w, main) && Can(w, e, main)
    ensures OpsHold(Do(w, e, main))
  {
  }

  lemma StepKeepsInv(w: World, e: Event, main: string)
    requires Inv(w, main) && Can(w, e, main)
    ensures Inv(Do(w, e, main), main)
  {
    LocksKept(w, e, main);
    GraphKept(w, e, main);
    OpsKept(w, e, main);
    if e.Record? || e.CloseRow? || e.Land? {
      RowWritesKeepStages(w, e, main);
      RowWritesKeepLandings(w, e, main);
    } else {
      CallsKeepStages(w, e, main);
      CallsKeepLandings(w, e, main);
    }
  }

  // ----- runs -----

  ghost predicate Init(w: World, main: string) {
    GraphHolds(w, main) && w.rows == map[] && w.ops == map[] && w.lock == map[] && w.landed == w.stranded == {}
  }

  ghost predicate IsRun(ws: seq<World>, es: seq<Event>, main: string) {
    && |ws| == |es| + 1 && Init(ws[0], main)
    && forall i | 0 <= i < |es| :: Can(ws[i], es[i], main) && ws[i + 1] == Do(ws[i], es[i], main)
  }

  lemma {:induction false} RunsKeepInv(ws: seq<World>, es: seq<Event>, main: string, n: nat)
    requires IsRun(ws, es, main) && n < |ws|
    ensures Inv(ws[n], main)
  {
    if n > 0 {
      RunsKeepInv(ws, es, main, n - 1);
      StepKeepsInv(ws[n - 1], es[n - 1], main);
    }
  }

  /** A row leaves open once: merged or closed, it is never written again. */
  lemma {:induction false} LeavesOpenOnce(ws: seq<World>, es: seq<Event>, main: string, i: nat, j: nat, cr: CrId)
    requires IsRun(ws, es, main) && i <= j < |ws|
    requires cr in ws[i].rows && !ws[i].rows[cr].state.Open?
    ensures cr in ws[j].rows && ws[j].rows[cr] == ws[i].rows[cr]
  {
    if i < j {
      LeavesOpenOnce(ws, es, main, i, j - 1, cr);
      RunsKeepInv(ws, es, main, j - 1);
      OtherRowsStay(ws[j - 1], es[j - 1], main, cr);
    }
  }

  lemma OtherRowsStay(w: World, e: Event, main: string, cr: CrId)
    requires Inv(w, main) && Can(w, e, main) && cr in w.rows && !w.rows[cr].state.Open?
    ensures cr in Do(w, e, main).rows && Do(w, e, main).rows[cr] == w.rows[cr]
  {
  }

  /** A closed request reached origin exactly when some merge of it failed between its push and its record. */
  lemma ClosedMeansUnmerged(ws: seq<World>, es: seq<Event>, main: string, n: nat, cr: CrId)
    requires IsRun(ws, es, main) && n < |ws| && cr in ws[n].rows && ws[n].rows[cr].state.Closed?
    ensures cr in ws[n].landed <==> cr in ws[n].stranded
  {
    RunsKeepInv(ws, es, main, n);
  }

  /** Origin's branch is never deleted in the run up to tick n. */
  ghost predicate StaysOnOrigin(ws: seq<World>, base: string, n: nat) {
    n < |ws| && forall m | 0 <= m < n :: KeepsRef(ws[m], ws[m + 1], base)
  }

  predicate KeepsRef(w: World, w': World, base: string) {
    base in w.refs ==> base in w'.refs
  }

  lemma {:induction false} RunsKeepMerges(ws: seq<World>, es: seq<Event>, main: string, base: string, n: nat)
    requires IsRun(ws, es, main) && StaysOnOrigin(ws, base, n)
    ensures MergesHold(ws[n], base)
  {
    if n > 0 {
      RunsKeepMerges(ws, es, main, base, n - 1);
      RunsKeepInv(ws, es, main, n - 1);
      assert KeepsRef(ws[n - 1], ws[n - 1 + 1], base);
      MergesKept(ws[n - 1], es[n - 1], main, base);
    }
  }

  lemma MainStaysOnOrigin(ws: seq<World>, es: seq<Event>, main: string, n: nat)
    requires IsRun(ws, es, main) && n < |ws|
    ensures StaysOnOrigin(ws, main, n)
  {
    forall m | 0 <= m < n ensures KeepsRef(ws[m], ws[m + 1], main) {
      RunsKeepInv(ws, es, main, m + 1);
    }
  }

  /**
   * Whatever its base, a merged request's head is contained in that base on origin as long as the base is not
   * deleted; the default branch never is.
   */
  lemma MergedIsContained(ws: seq<World>, es: seq<Event>, main: string, n: nat, cr: CrId)
    requires IsRun(ws, es, main) && n < |ws| && cr in ws[n].rows && ws[n].rows[cr].state.Merged?
    requires ws[n].rows[cr].base == main || StaysOnOrigin(ws, ws[n].rows[cr].base, n)
    ensures var row := ws[n].rows[cr];
            row.base in ws[n].refs && Ancestor(ws[n].graph, row.state.head, ws[n].refs[row.base])
  {
    var row := ws[n].rows[cr];
    if row.base == main {
      MainStaysOnOrigin(ws, es, main, n);
    }
    RunsKeepMerges(ws, es, main, row.base, n);
    AncestorTransitive(ws[n].graph, row.state.head, row.state.commit, ws[n].refs[row.base]);
  }

  /** At most one merge or close holds a request. */
  lemma OneHolder(ws: seq<World>, es: seq<Event>, main: string, n: nat, a: OpId, b: OpId)
    requires IsRun(ws, es, main) && n < |ws| && a in ws[n].ops && b in ws[n].ops
    requires Holds(ws[n].ops[a]) && Holds(ws[n].ops[b]) && ws[n].ops[a].cr == ws[n].ops[b].cr
    ensures a == b
  {
    RunsKeepInv(ws, es, main, n);
  }

  /** The record of a landed merge never finds the row closed or merged by someone else. */
  lemma RecordsFindOpenRows(ws: seq<World>, es: seq<Event>, main: string, n: nat, id: OpId, ok: bool)
    requires IsRun(ws, es, main) && n < |es| && es[n] == Record(id, ok)
    ensures IsOp(ws[n], id) && ws[n].rows[ws[n].ops[id].cr].state.Open?
    ensures ok <==> ws[n + 1].rows[ws[n].ops[id].cr].state.Merged?
  {
    RunsKeepInv(ws, es, main, n);
  }

  /**
   * Lab deletes a branch on origin only for a request recorded as merged, only its head, and never
   * the default branch; a merge never deletes its base.
   */
  lemma DeletesMergedHeadsOnly(ws: seq<World>, es: seq<Event>, main: string, n: nat, id: OpId, ok: bool)
    requires IsRun(ws, es, main) && n < |es| && es[n] == DeleteHead(id, ok) && ws[n + 1].refs != ws[n].refs
    ensures IsOp(ws[n], id) && !ws[n].ops[id].Finished?
    ensures var row := ws[n].rows[ws[n].ops[id].cr];
            && row.state.Merged? && ok && row.head != main
            && ws[n + 1].refs == ws[n].refs - {row.head}
            && (row.head == row.base ==> ws[n].ops[id].Remerged?)
  {
    RunsKeepInv(ws, es, main, n);
  }

  /** The merge call's request and its wish about the head. */
  predicate IsMergeOf(op: Op, cr: CrId, deleteHead: bool) {
    op.Finished? || (!op.Remerged? && !op.CloseWaits? && !op.CloseHolds? && op.cr == cr && op.deleteHead == deleteHead)
  }

  lemma {:induction false} MergeKeepsItsWish(ws: seq<World>, es: seq<Event>, main: string, i: nat, n: nat, id: OpId,
                                             cr: CrId, deleteHead: bool)
    requires IsRun(ws, es, main) && i < n < |ws| && es[i] == CallMerge(id, cr, deleteHead)
    ensures id in ws[n].ops && IsMergeOf(ws[n].ops[id], cr, deleteHead)
  {
    if i < n - 1 {
      MergeKeepsItsWish(ws, es, main, i, n - 1, id, cr, deleteHead);
      StepKeepsItsWish(ws[n - 1], es[n - 1], main, id, cr, deleteHead);
    }
  }

  lemma StepKeepsItsWish(w: World, e: Event, main: string, id: OpId, cr: CrId, deleteHead: bool)
    requires Can(w, e, main) && id in w.ops && IsMergeOf(w.ops[id], cr, deleteHead)
    ensures id in Do(w, e, main).ops && IsMergeOf(Do(w, e, main).ops[id], cr, deleteHead)
  {
  }

  /** A recorded merge's accepted delete takes the head exactly when the call asked for it and the head is no base. */
  lemma MergeDeletesItsHeadIffAsked(ws: seq<World>, es: seq<Event>, main: string, i: nat, n: nat, id: OpId, cr: CrId,
                                    deleteHead: bool)
    requires IsRun(ws, es, main) && i < n < |es|
    requires es[i] == CallMerge(id, cr, deleteHead) && es[n] == DeleteHead(id, true)
    ensures cr in ws[n].rows
    ensures var row := ws[n].rows[cr];
            ws[n + 1].refs == if deleteHead && row.head != "" && row.head != row.base && row.head != main
                              then ws[n].refs - {row.head} else ws[n].refs
  {
    MergeKeepsItsWish(ws, es, main, i, n, id, cr, deleteHead);
  }

  /**
   * A head delete that origin accepts removes the request's own base exactly when it is the retried
   * delete of a merged request, whose head and base are one branch other than the default.
   */
  lemma DeletesItsBaseIff(ws: seq<World>, es: seq<Event>, main: string, n: nat, id: OpId)
    requires IsRun(ws, es, main) && n < |es| && es[n] == DeleteHead(id, true)
    requires ws[n].rows[ws[n].ops[id].cr].base in ws[n].refs
    ensures var row := ws[n].rows[ws[n].ops[id].cr];
            row.base !in ws[n + 1].refs <==>
              ws[n].ops[id].Remerged? && row.head == row.base && row.head != main && row.head != ""
  {
  }

  lemma Extend(ws: seq<World>, es: seq<Event>, main: string, e: Event) returns (ws': seq<World>, es': seq<Event>)
    requires IsRun(ws, es, main) && Can(ws[|es|], e, main)
    ensures IsRun(ws', es', main) && ws'[|es'|] == Do(ws[|es|], e, main)
  {
    ws', es' := ws + [Do(ws[|es|], e, main)], es + [e];
  }

  /** A merge holds its request and is about to land. */
  lemma HeldMerge(main: string) returns (ws: seq<World>, es: seq<Event>)
    ensures IsRun(ws, es, main)
    ensures ws[|es|] == World([[], [0]], map[main := 0], map[0 := Row("work", main, Open)],
                              map[0 := MergeHolds(0, true)], map[0 := 0], {}, {})
  {
    ws, es := [World([[], [0]], map[main := 0], map[], map[], map[], {}, {})], [];
    ws, es := Extend(ws, es, main, CreateCR(0, "work", main));
    ws, es := Extend(ws, es, main, CallMerge(0, 0, true));
    ws, es := Extend(ws, es, main, Acquire(0));
  }

  /** A merge has landed and its record is about to fail. */
  lemma LandedMerge(main: string) returns (ws: seq<World>, es: seq<Event>)
    ensures IsRun(ws, es, main)
    ensures ws[|es|] == World([[], [0]], map[main := 1], map[0 := Row("work", main, Open)],
                              map[0 := MergeLanded(0, true, 1, 1)], map[0 := 0], {0}, {})
  {
    ws, es := HeldMerge(main);
    ParentIsAncestor(ws[|es|].graph, 1, 0);
    ws, es := Extend(ws, es, main, Land(0, 1, 1));
  }

  /** It happens: a merge lands, its record fails, and a close then wins. */
  lemma StrandedThenClosed(main: string) returns (ws: seq<World>, es: seq<Event>)
    ensures IsRun(ws, es, main)
    ensures var w := ws[|es|]; 0 in w.rows && w.rows[0].state.Closed? && 0 in w.landed && 0 in w.stranded
  {
    ws, es := LandedMerge(main);
    ws, es := Extend(ws, es, main, Record(0, false));
    ws, es := Extend(ws, es, main, CallClose(1, 0));
    ws, es := Extend(ws, es, main, Acquire(1));
    ws, es := Extend(ws, es, main, CloseRow(1));
  }

  lemma SelfRequestLanded(main: string, topic: string) returns (ws: seq<World>, es: seq<Event>)
    requires topic != main
    ensures IsRun(ws, es, main)
    ensures ws[|es|] == World([[]], map[main := 0, topic := 0], map[0 := Row(topic, topic, Open)],
                              map[0 := MergeLanded(0, true, 0, 0)], map[0 := 0], {0}, {})
  {
    ws, es := [World([[]], map[main := 0, topic := 0], map[], map[], map[], {}, {})], [];
    ws, es := Extend(ws, es, main, CreateCR(0, topic, topic));
    ws, es := Extend(ws, es, main, CallMerge(0, 0, true));
    ws, es := Extend(ws, es, main, Acquire(0));
    ws, es := Extend(ws, es, main, Land(0, 0, 0));
  }

  /** A request of a branch onto itself is merged, its merge keeping the head as the base. */
  lemma SelfRequestMerged(main: string, topic: string) returns (ws: seq<World>, es: seq<Event>)
    requires topic != main
    ensures IsRun(ws, es, main)
    ensures ws[|es|] == World([[]], map[main := 0, topic := 0], map[0 := Row(topic, topic, Merged(0, 0))],
                              map[0 := Finished], map[], {0}, {})
  {
    ws, es := SelfRequestLanded(main, topic);
    ws, es := Extend(ws, es, main, Record(0, true));
    ws, es := Extend(ws, es, main, DeleteHead(0, true));
  }

  /** The retried delete of such a request removes the branch it was merged into. */
  lemma RetriedDeleteLosesTheBase(main: string, topic: string) returns (ws: seq<World>, es: seq<Event>)
    requires topic != main && topic != ""
    ensures IsRun(ws, es, main)
    ensures var w := ws[|es|]; 0 in w.rows && w.rows[0].state.Merged? && w.rows[0].base == topic && topic !in w.refs
  {
    ws, es := SelfRequestMerged(main, topic);
    ws, es := Extend(ws, es, main, CallDeleteHead(1, 0));
    ws, es := Extend(ws, es, main, DeleteHead(1, true));
  }

  // ----- deleting the head on origin -----

  /** Origin's heads and the clone's tracking refs. */
  class Remote {
    var heads: set<string>
    var tracking: set<string>

    constructor (heads: set<string>)
      ensures this.heads == heads && tracking == heads
    {
      this.heads, tracking := heads, heads;
    }

    /** ls-remote lists every ref that ends in the pattern; only the exact name counts. */
    method RemoteRefExists(branch: string, listed: seq<string>, reachable: bool) returns (r: Option<bool>)
      requires forall b | b in listed :: b in heads
      requires branch in heads ==> branch in listed
      ensures r == if reachable then Some(branch in heads) else None
    {
      if !reachable {
        return None;
      }
      for i := 0 to |listed|
        invariant branch !in listed[..i]
      {
        if listed[i] == branch {
          return Some(true);
        }
        assert listed[..i + 1] == listed[..i] + [listed[i]];
      }
      assert listed[..|listed|] == listed;
      r := Some(false);
    }

    /** git push origin :branch fails on an absent ref, a hook's refusal or a dead link. */
    method PushDelete(branch: string, hookOk: bool, reachable: bool) returns (ok: bool)
      modifies this
      ensures ok == (reachable && hookOk && branch in old(heads))
      ensures heads == (if ok then old(heads) - {branch} else old(heads))
      ensures tracking == (if ok then old(tracking) - {branch} else old(tracking))
    {
      ok := reachable && hookOk && branch in heads;
      if ok {
        heads, tracking := heads - {branch}, tracking - {branch};
      }
    }

    /**
     * Absent afterwards: no error means origin does not have the branch, whoever removed it; an
     * error means it is still there or origin could not be asked. No other ref moves.
     */
    method DeleteRemoteBranch(branch: string, listed: seq<string>, hookOk: bool, pushReaches: bool, listReaches: bool)
      returns (failed: bool)
      requires (forall b | b in listed :: b in heads) && (branch in heads ==> branch in listed)
      modifies this
      ensures !failed ==> branch !in heads && branch !in tracking
      ensures branch != "" ==> (failed <==> if branch in old(heads) then !(pushReaches && hookOk) else !listReaches)
      ensures branch == "" ==> failed
      ensures heads == old(heads) || heads == old(heads) - {branch}
      ensures failed ==> heads == old(heads) && tracking == old(tracking)
      ensures tracking == old(tracking) || tracking == old(tracking) - {branch}
    {
      if branch == "" {
        return true;
      }
      var pushed := PushDelete(branch, hookOk, pushReaches);
      if pushed {
        return false;
      }
      var present := RemoteRefExists(branch, listed, listReaches);
      if present.None? || present.value {
        return true;
      }
      tracking := tracking - {branch};
      failed := false;
    }
  }

  // ----- calls nobody disturbs -----

  /** Events in a row, nothing between them. */
  ghost predicate Continues(w: World, ws: seq<World>, es: seq<Event>, main: string) {
    && |ws| == |es| + 1 && ws[0] == w
    && forall i | 0 <= i < |es| :: Can(ws[i], es[i], main) && ws[i + 1] == Do(ws[i], es[i], main)
  }

  lemma OneMore(w: World, ws: seq<World>, es: seq<Event>, main: string, e: Event)
    returns (ws': seq<World>, es': seq<Event>)
    requires Continues(w, ws, es, main) && Can(ws[|es|], e, main)
    ensures Continues(w, ws', es', main) && ws'[|es'|] == Do(ws[|es|], e, main)
  {
    ws', es' := ws + [Do(ws[|es|], e, main)], es + [e];
  }

  /** A call that has the request's mutex. */
  lemma Acquired(w: World, main: string, id: OpId, cr: CrId, call: Event, op: Op)
    returns (ws: seq<World>, es: seq<Event>)
    requires id !in w.ops && cr in w.rows && cr !in w.lock
    requires (exists deleteHead :: call == CallMerge(id, cr, deleteHead) && op == MergeHolds(cr, deleteHead))
             || (call == CallClose(id, cr) && op == CloseHolds(cr))
    ensures Continues(w, ws, es, main)
    ensures ws[|es|] == w.(ops := w.ops[id := op], lock := w.lock[cr := id])
  {
    ws, es := OneMore(w, [w], [], main, call);
    ws, es := OneMore(w, ws, es, main, Acquire(id));
    assert ws[|es|].ops == w.ops[id := op];
  }

  /** A merge up to its record. */
  lemma RecordedMerge(w: World, main: string, id: OpId, cr: CrId, deleteHead: bool, head: Commit, commit: Commit)
    returns (ws: seq<World>, es: seq<Event>)
    requires id !in w.ops && cr in w.rows && cr !in w.lock && w.rows[cr].state.Open? && w.rows[cr].base in w.refs
    requires commit < |w.graph| && Ancestor(w.graph, w.refs[w.rows[cr].base], commit) && Ancestor(w.graph, head, commit)
    ensures Continues(w, ws, es, main)
    ensures ws[|es|] == w.(rows := w.rows[cr := w.rows[cr].(state := Merged(head, commit))],
                           refs := w.refs[w.rows[cr].base := commit],
                           ops := w.ops[id := MergeRecorded(cr, deleteHead)], landed := w.landed + {cr})
  {
    ws, es := Acquired(w, main, id, cr, CallMerge(id, cr, deleteHead), MergeHolds(cr, deleteHead));
    ws, es := OneMore(w, ws, es, main, Land(id, head, commit));
    ws, es := OneMore(w, ws, es, main, Record(id, true));
    assert ws[|es|].lock == w.lock && ws[|es|].ops == w.ops[id := MergeRecorded(cr, deleteHead)];
  }

  /** The row is merged, origin's base holds the commit, the mutex is free, and the head is gone exactly when asked. */
  lemma UndisturbedMerge(w: World, main: string, id: OpId, cr: CrId, deleteHead: bool, head: Commit, commit: Commit)
    returns (ws: seq<World>, es: seq<Event>)
    requires id !in w.ops && cr in w.rows && cr !in w.lock && w.rows[cr].state.Open? && w.rows[cr].base in w.refs
    requires commit < |w.graph| && Ancestor(w.graph, w.refs[w.rows[cr].base], commit) && Ancestor(w.graph, head, commit)
    ensures Continues(w, ws, es, main)
    ensures var row, landed := w.rows[cr], w.refs[w.rows[cr].base := commit];
            ws[|es|] == w.(rows := w.rows[cr := row.(state := Merged(head, commit))],
                           refs := if deleteHead && row.head != "" && row.head != row.base && row.head != main
                                   then landed - {row.head} else landed,
                           ops := w.ops[id := Finished], landed := w.landed + {cr})
  {
    ws, es := RecordedMerge(w, main, id, cr, deleteHead, head, commit);
    ws, es := OneMore(w, ws, es, main, DeleteHead(id, true));
    assert ws[|es|].ops == w.ops[id := Finished];
  }

  /** A merge of a request that is not open, or that git refuses, leaves everything as it was. */
  lemma RefusedMerge(w: World, main: string, id: OpId, cr: CrId, deleteHead: bool)
    returns (ws: seq<World>, es: seq<Event>)
    requires id !in w.ops && cr in w.rows && cr !in w.lock
    ensures Continues(w, ws, es, main) && ws[|es|] == w.(ops := w.ops[id := Finished])
  {
    ws, es := Acquired(w, main, id, cr, CallMerge(id, cr, deleteHead), MergeHolds(cr, deleteHead));
    ws, es := OneMore(w, ws, es, main, if w.rows[cr].state.Open? then GitFails(id) else Refuse(id));
    assert ws[|es|].lock == w.lock && ws[|es|].ops == w.ops[id := Finished];
  }

  /** A close closes an open request and no other. */
  lemma UndisturbedClose(w: World, main: string, id: OpId, cr: CrId) returns (ws: seq<World>, es: seq<Event>)
    requires id !in w.ops && cr in w.rows && cr !in w.lock
    ensures Continues(w, ws, es, main)
    ensures var row := w.rows[cr];
            ws[|es|] == w.(rows := if row.state.Open? then w.rows[cr := row.(state := Closed)] else w.rows,
                           ops := w.ops[id := Finished])
  {
    ws, es := Acquired(w, main, id, cr, CallClose(id, cr), CloseHolds(cr));
    ws, es := OneMore(w, ws, es, main, CloseRow(id));
    assert ws[|es|].lock == w.lock && ws[|es|].ops == w.ops[id := Finished];
  }

  /** The delete of a merged request, retried on its own, takes any head but the default branch. */
  lemma UndisturbedDelete(w: World, main: string, id: OpId, cr: CrId) returns (ws: seq<World>, es: seq<Event>)
    requires id !in w.ops && cr in w.rows && w.rows[cr].state.Merged?
    ensures Continues(w, ws, es, main)
    ensures var head := w.rows[cr].head;
            ws[|es|] == w.(refs := if head != "" && head != main then w.refs - {head} else w.refs,
                           ops := w.ops[id := Finished])
  {
    ws, es := OneMore(w, [w], [], main, CallDeleteHead(id, cr));
    ws, es := OneMore(w, ws, es, main, DeleteHead(id, true));
    assert ws[|es|].ops == w.ops[id := Finished];
  }
}
