/**
 * Any number of merges into one base branch, step by step, racing each other and outside pushes.
 */
module MergeRace {
  import opened Text
  import opened CommitGraph

  type OpId = nat

  /** A merge of `head`; `from` is origin's base tip when it began. */
  datatype Op =
    | Begun(head: Commit, from: Commit)
    | Fetched(head: Commit, from: Commit)
    | FastForward(head: Commit, from: Commit)
    | Diverged(head: Commit, from: Commit)
    | Built(head: Commit, from: Commit, commit: Commit)
    | OnOrigin(head: Commit, from: Commit, commit: Commit)
    | Succeeded(head: Commit, from: Commit, commit: Commit)
    | PushedUnfetched(head: Commit, from: Commit, commit: Commit)
    | Failed

  datatype World = World(graph: Graph, tip: Commit, tracking: Commit, ops: map<OpId, Op>)

  datatype Event =
    | Begin(id: OpId, head: Commit)
    | Fetch(id: OpId, ok: bool)
    | Check(id: OpId)
    | Build(id: OpId, conflict: bool)
    | Push(id: OpId, hookOk: bool)
    | Refetch(id: OpId, ok: bool)
    | OutsideCommit(parents: seq<Commit>)
    | OutsidePush(commit: Commit)
    | OutsideFetch

  predicate At(w: World, id: OpId) {
    id in w.ops
  }

  predicate Can(w: World, e: Event) {
    match e
    case Begin(id, head) => id !in w.ops && head < |w.graph|
    case Fetch(id, _) => At(w, id) && w.ops[id].Begun?
    case Check(id) => At(w, id) && w.ops[id].Fetched?
    case Build(id, _) => At(w, id) && w.ops[id].Diverged?
    case Push(id, _) => At(w, id) && (w.ops[id].FastForward? || w.ops[id].Built?)
    case Refetch(id, _) => At(w, id) && w.ops[id].OnOrigin?
    case OutsideCommit(parents) => forall k | 0 <= k < |parents| :: parents[k] < |w.graph|
    case OutsidePush(commit) => commit < |w.graph| && Ancestor(w.graph, w.tip, commit)
    case OutsideFetch => true
  }

  function Next(w: World, id: OpId, op: Op): World {
    w.(ops := w.ops[id := op])
  }

  /** The commit a push step offers. */
  function Offered(op: Op): Commit
    requires op.FastForward? || op.Built?
  {
    if op.FastForward? then op.head else op.commit
  }

  function Do(w: World, e: Event): World
    requires Can(w, e)
  {
    match e
    case Begin(id, head) => Next(w, id, Begun(head, w.tip))
    case Fetch(id, ok) =>
      if ok then Next(w, id, Fetched(w.ops[id].head, w.ops[id].from)).(tracking := w.tip) else Next(w, id, Failed)
    case Check(id) =>
      var op := w.ops[id];
      var fastForward := Ancestor(w.graph, w.tracking, op.head);
      Next(w, id, if fastForward then FastForward(op.head, op.from) else Diverged(op.head, op.from))
    case Build(id, conflict) =>
      var op := w.ops[id];
      (match Merged(w.graph, w.tracking, op.head, conflict)
       case None => Next(w, id, Failed)
       case Some((g, c)) => Next(w, id, Built(op.head, op.from, c)).(graph := g))
    case Push(id, hookOk) =>
      var op := w.ops[id];
      var c := Offered(op);
      if Pushed(w.graph, w.tip, c, hookOk).Some?
      then Next(w, id, OnOrigin(op.head, op.from, c)).(tip := c, tracking := c)
      else Next(w, id, Failed)
    case Refetch(id, ok) =>
      var op := w.ops[id];
      if ok then Next(w, id, Succeeded(op.head, op.from, op.commit)).(tracking := w.tip)
      else Next(w, id, PushedUnfetched(op.head, op.from, op.commit))
    case OutsideCommit(parents) => w.(graph := w.graph + [parents])
    case OutsidePush(commit) => w.(tip := commit)
    case OutsideFetch => w.(tracking := w.tip)
  }

  /** The refs: tracking trails the tip. */
  ghost predicate RefsHold(w: World) {
    && WellFormed(w.graph) && w.tip < |w.graph| && w.tracking < |w.graph|
    && Ancestor(w.graph, w.tracking, w.tip)
  }

  /** What each stage of a merge has established. */
  ghost predicate OpHolds(w: World, op: Op) {
    match op
    case Begun(head, from) => head < |w.graph| && Ancestor(w.graph, from, w.tip)
    case Fetched(head, from) => head < |w.graph| && Ancestor(w.graph, from, w.tracking)
    case FastForward(head, from) => head < |w.graph| && Ancestor(w.graph, from, head)
    case Diverged(head, from) =>
      head < |w.graph| && Ancestor(w.graph, from, w.tracking) && !Ancestor(w.graph, w.tracking, head)
    case Built(head, from, c) => c < |w.graph| && Ancestor(w.graph, from, c) && Ancestor(w.graph, head, c)
    case Failed => true
    case _ =>
      && op.commit < |w.graph| && Ancestor(w.graph, op.from, op.commit) && Ancestor(w.graph, op.head, op.commit)
      && Ancestor(w.graph, op.commit, w.tip)
  }

  ghost predicate Inv(w: World) {
    RefsHold(w) && forall id | id in w.ops :: OpHolds(w, w.ops[id])
  }

  /** Refs that only move to descendants, over a graph that only grows, keep what a merge established. */
  ghost predicate Advances(w: World, w': World) {
    && w.graph <= w'.graph && WellFormed(w.graph) && WellFormed(w'.graph)
    && w.tip < |w.graph| && w.tracking < |w.graph| && w'.tip < |w'.graph| && w'.tracking < |w'.graph|
    && Ancestor(w'.graph, w.tip, w'.tip) && Ancestor(w'.graph, w.tracking, w'.tracking)
  }

  lemma AdvancingKeeps(w: World, w': World, op: Op)
    requires Advances(w, w') && OpHolds(w, op)
    ensures OpHolds(w', op)
  {
    if !op.Failed? {
      var g, g' := w.graph, w'.graph;
      if op.Begun? {
        AncestorGrows(g, g', op.from, w.tip);
        AncestorTransitive(g', op.from, w.tip, w'.tip);
      } else if op.Fetched? || op.Diverged? {
        AncestorGrows(g, g', op.from, w.tracking);
        AncestorTransitive(g', op.from, w.tracking, w'.tracking);
        AncestorGrows(g, g', w.tracking, op.head);
        if Ancestor(g', w'.tracking, op.head) {
          AncestorTransitive(g', w.tracking, w'.tracking, op.head);
        }
      } else if op.FastForward? {
        AncestorGrows(g, g', op.from, op.head);
      } else {
        AncestorGrows(g, g', op.from, op.commit);
        AncestorGrows(g, g', op.head, op.commit);
        if !op.Built? {
          AncestorGrows(g, g', op.commit, w.tip);
          AncestorTransitive(g', op.commit, w.tip, w'.tip);
        }
      }
    }
  }

  lemma StepAdvances(w: World, e: Event)
    requires Inv(w) && Can(w, e)
    ensures Advances(w, Do(w, e)) && RefsHold(Do(w, e))
  {
    var w' := Do(w, e);
    match e
    case Build(id, conflict) =>
      if Merged(w.graph, w.tracking, w.ops[id].head, conflict).Some? {
        MergedContainsBoth(w.graph, w.tracking, w.ops[id].head, conflict);
      }
      AncestorGrows(w.graph, w'.graph, w.tracking, w.tip);
    case Push(id, hookOk) =>
      AncestorTransitive(w.graph, w.tracking, w.tip, w'.tip);
    case OutsideCommit(parents) =>
      AncestorGrows(w.graph, w'.graph, w.tracking, w.tip);
    case OutsidePush(commit) =>
      AncestorTransitive(w.graph, w.tracking, w.tip, commit);
    case _ =>
  }

  lemma CheckerHolds(w: World, e: Event)
    requires Inv(w) && Can(w, e) && e.Check?
    ensures OpHolds(Do(w, e), Do(w, e).ops[e.id])
  {
    if Ancestor(w.graph, w.tracking, w.ops[e.id].head) {
      AncestorTransitive(w.graph, w.ops[e.id].from, w.tracking, w.ops[e.id].head);
    }
  }

  lemma BuilderHolds(w: World, e: Event)
    requires Inv(w) && Can(w, e) && e.Build?
    ensures OpHolds(Do(w, e), Do(w, e).ops[e.id])
  {
    var w', op := Do(w, e), w.ops[e.id];
    if Merged(w.graph, w.tracking, op.head, e.conflict).Some? {
      MergedContainsBoth(w.graph, w.tracking, op.head, e.conflict);
      AncestorGrows(w.graph, w'.graph, op.from, w.tracking);
      AncestorTransitive(w'.graph, op.from, w.tracking, w'.ops[e.id].commit);
    }
  }

  /** The merge that moves establishes what its next stage claims. */
  lemma MoverHolds(w: World, e: Event, id: OpId)
    requires Inv(w) && Can(w, e) && id in Do(w, e).ops && (id in w.ops ==> Do(w, e).ops[id] != w.ops[id])
    ensures OpHolds(Do(w, e), Do(w, e).ops[id])
  {
    StepAdvances(w, e);
    match e
    case Check(_) => CheckerHolds(w, e);
    case Build(_, _) => BuilderHolds(w, e);
    case _ =>
  }

  lemma StepKeepsInv(w: World, e: Event)
    requires Inv(w) && Can(w, e)
    ensures Inv(Do(w, e))
  {
    var w' := Do(w, e);
    StepAdvances(w, e);
    forall id | id in w'.ops ensures OpHolds(w', w'.ops[id]) {
      if id in w.ops && w'.ops[id] == w.ops[id] {
        AdvancingKeeps(w, w', w.ops[id]);
      } else {
        MoverHolds(w, e, id);
      }
    }
  }

  // ----- runs -----

  ghost predicate Init(w: World) {
    RefsHold(w) && w.ops == map[]
  }

  ghost predicate IsRun(ws: seq<World>, es: seq<Event>) {
    && |ws| == |es| + 1 && Init(ws[0])
    && forall i | 0 <= i < |es| :: Can(ws[i], es[i]) && ws[i + 1] == Do(ws[i], es[i])
  }

  lemma {:induction false} RunsKeepInv(ws: seq<World>, es: seq<Event>, n: nat)
    requires IsRun(ws, es) && n < |ws|
    ensures Inv(ws[n])
  {
    if n > 0 {
      RunsKeepInv(ws, es, n - 1);
      StepKeepsInv(ws[n - 1], es[n - 1]);
    }
  }

  /**
   * Whatever raced it, a successful merge's commit descends from the base it began on and from its head, and
   * origin holds it.
   */
  lemma SuccessIsOnOrigin(ws: seq<World>, es: seq<Event>, n: nat, id: OpId)
    requires IsRun(ws, es) && n < |ws| && id in ws[n].ops && ws[n].ops[id].Succeeded?
    ensures var (op, g) := (ws[n].ops[id], ws[n].graph);
            Ancestor(g, op.from, op.commit) && Ancestor(g, op.head, op.commit) && Ancestor(g, op.commit, ws[n].tip)
  {
    RunsKeepInv(ws, es, n);
  }

  /** A merge reports success with the tracking ref at origin's tip, so the merged head is seen as merged there. */
  lemma SuccessIsSeen(ws: seq<World>, es: seq<Event>, n: nat, id: OpId)
    requires IsRun(ws, es) && n < |es| && es[n] == Refetch(id, true)
    ensures var (w', op) := (ws[n + 1], ws[n + 1].ops[id]);
            && op.Succeeded? && w'.tracking == w'.tip
            && Ancestor(w'.graph, op.commit, w'.tracking) && Ancestor(w'.graph, op.head, w'.tracking)
  {
    RunsKeepInv(ws, es, n + 1);
    assert OpHolds(ws[n + 1], ws[n + 1].ops[id]);
    AncestorTransitive(ws[n + 1].graph, ws[n + 1].ops[id].head, ws[n + 1].ops[id].commit, ws[n + 1].tip);
  }

  lemma {:induction false} SuccessLasts(ws: seq<World>, es: seq<Event>, i: nat, j: nat, id: OpId)
    requires IsRun(ws, es) && i <= j < |ws|
    requires id in ws[i].ops && ws[i].ops[id].Succeeded?
    ensures id in ws[j].ops && ws[j].ops[id] == ws[i].ops[id]
  {
    if i < j {
      SuccessLasts(ws, es, i, j - 1, id);
    }
  }

  /** No head is lost: once two merges have succeeded, origin contains both heads, then and ever after. */
  lemma HeadsAreNeverLost(ws: seq<World>, es: seq<Event>, i: nat, j: nat, a: OpId, b: OpId)
    requires IsRun(ws, es) && i <= j < |ws|
    requires a in ws[i].ops && ws[i].ops[a].Succeeded? && b in ws[i].ops && ws[i].ops[b].Succeeded?
    ensures Ancestor(ws[j].graph, ws[i].ops[a].head, ws[j].tip) && Ancestor(ws[j].graph, ws[i].ops[b].head, ws[j].tip)
  {
    forall id | id == a || id == b ensures Ancestor(ws[j].graph, ws[i].ops[id].head, ws[j].tip) {
      SuccessLasts(ws, es, i, j, id);
      SuccessIsOnOrigin(ws, es, j, id);
      AncestorTransitive(ws[j].graph, ws[j].ops[id].head, ws[j].ops[id].commit, ws[j].tip);
    }
  }

  /** The merge's commit is on origin. */
  predicate HasLanded(op: Op) {
    op.OnOrigin? || op.Succeeded? || op.PushedUnfetched?
  }

  lemma {:induction false} LandingLasts(ws: seq<World>, es: seq<Event>, i: nat, j: nat, id: OpId)
    requires IsRun(ws, es) && i <= j < |ws|
    requires id in ws[i].ops && HasLanded(ws[i].ops[id])
    ensures id in ws[j].ops && HasLanded(ws[j].ops[id])
    ensures ws[j].ops[id].commit == ws[i].ops[id].commit && ws[j].ops[id].head == ws[i].ops[id].head
  {
    if i < j {
      LandingLasts(ws, es, i, j - 1, id);
      StepKeepsLanded(ws[j - 1], es[j - 1], id);
    }
  }

  lemma StepKeepsLanded(w: World, e: Event, id: OpId)
    requires Can(w, e) && id in w.ops && HasLanded(w.ops[id])
    ensures var w' := Do(w, e);
            && id in w'.ops && HasLanded(w'.ops[id])
            && w'.ops[id].commit == w.ops[id].commit && w'.ops[id].head == w.ops[id].head
  {
  }

  /**
   * A push that succeeds takes origin to a commit above its old tip, above the base the merge
   * began on and above the merge's head; one that fails leaves origin alone.
   */
  lemma PushesLandAboveEverything(ws: seq<World>, es: seq<Event>, n: nat, id: OpId, hookOk: bool)
    requires IsRun(ws, es) && n < |es| && es[n] == Push(id, hookOk)
    ensures var (w, w') := (ws[n], ws[n + 1]);
            && w'.graph == w.graph && (w'.ops[id].OnOrigin? || w'.ops[id].Failed?)
            && (w'.ops[id].OnOrigin? ==>
                  && Ancestor(w.graph, w.tip, w'.tip)
                  && Ancestor(w.graph, w.ops[id].from, w'.tip) && Ancestor(w.graph, w.ops[id].head, w'.tip))
            && (w'.ops[id].Failed? ==> w'.tip == w.tip)
  {
    RunsKeepInv(ws, es, n);
  }

  /**
   * Once a merge has landed, a push of a commit that does not contain its commit is refused, whatever the
   * hooks say.
   */
  lemma LoserIsRejected(ws: seq<World>, es: seq<Event>, i: nat, n: nat, a: OpId, id: OpId, hookOk: bool)
    requires IsRun(ws, es) && i <= n < |es| && es[n] == Push(id, hookOk)
    requires a in ws[i].ops && HasLanded(ws[i].ops[a])
    requires !Ancestor(ws[n].graph, ws[i].ops[a].commit, Offered(ws[n].ops[id]))
    ensures ws[n + 1].ops[id].Failed? && ws[n + 1].tip == ws[n].tip
  {
    LandingLasts(ws, es, i, n, a);
    RunsKeepInv(ws, es, n);
    assert OpHolds(ws[n], ws[n].ops[a]);
    if Ancestor(ws[n].graph, ws[n].tip, Offered(ws[n].ops[id])) {
      AncestorTransitive(ws[n].graph, ws[n].ops[a].commit, ws[n].tip, Offered(ws[n].ops[id]));
    }
  }

  /** Of two merge commits on one base, neither contains the other unless its head does. */
  lemma SiblingsAreApart(g: Graph, base: Commit, x: Commit, xHead: Commit, y: Commit, yHead: Commit)
    requires WellFormed(g) && x < |g| && y < |g| && x != y
    requires g[x] == [base, xHead] && g[y] == [base, yHead] && !Ancestor(g, x, yHead)
    ensures !Ancestor(g, x, y)
  {
    assert g[x][0] == base;
    if Ancestor(g, x, base) {
      AncestorIsOlder(g, x, base);
    }
  }

  /**
   * Of two merges that built their commits on one tip, the second to push is refused, unless its head contains
   * the first's commit.
   */
  lemma RaceHasOneWinner(ws: seq<World>, es: seq<Event>, i: nat, n: nat, a: OpId, b: OpId, base: Commit, hookOk: bool)
    requires IsRun(ws, es) && i <= n < |es| && es[n] == Push(b, hookOk)
    requires a in ws[i].ops && HasLanded(ws[i].ops[a]) && ws[n].ops[b].Built?
    requires var (g, x, y) := (ws[n].graph, ws[i].ops[a], ws[n].ops[b]);
             && x.commit < |g| && y.commit < |g| && x.commit != y.commit
             && g[x.commit] == [base, x.head] && g[y.commit] == [base, y.head] && !Ancestor(g, x.commit, y.head)
    ensures ws[n + 1].ops[b].Failed? && ws[n + 1].tip == ws[n].tip
  {
    RunsKeepInv(ws, es, n);
    SiblingsAreApart(ws[n].graph, base, ws[i].ops[a].commit, ws[i].ops[a].head, ws[n].ops[b].commit, ws[n].ops[b].head);
    LoserIsRejected(ws, es, i, n, a, b, hookOk);
  }

  /** A merge writes at most one commit, of the tracked base and the head, only when neither contains the other. */
  lemma OneCommitWhenDiverged(ws: seq<World>, es: seq<Event>, n: nat)
    requires IsRun(ws, es) && n < |es| && !es[n].OutsideCommit? && ws[n + 1].graph != ws[n].graph
    ensures es[n].Build? && ws[n].ops[es[n].id].Diverged?
    ensures var (w, head) := (ws[n], ws[n].ops[es[n].id].head);
            && ws[n + 1].graph == w.graph + [[w.tracking, head]]
            && !Ancestor(w.graph, head, w.tracking) && !Ancestor(w.graph, w.tracking, head)
  {
    RunsKeepInv(ws, es, n);
  }

  // ----- what one merge comes to -----

  /** Events in a row, nothing between them. */
  ghost predicate Continues(w: World, ws: seq<World>, es: seq<Event>) {
    && |ws| == |es| + 1 && ws[0] == w
    && forall i | 0 <= i < |es| :: Can(ws[i], es[i]) && ws[i + 1] == Do(ws[i], es[i])
  }

  lemma OneMore(w: World, ws: seq<World>, es: seq<Event>, e: Event) returns (ws': seq<World>, es': seq<Event>)
    requires Continues(w, ws, es) && Can(ws[|es|], e)
    ensures Continues(w, ws', es') && ws'[|es'|] == Do(ws[|es|], e)
  {
    ws', es' := ws + [Do(ws[|es|], e)], es + [e];
  }

  /** How a merge ends that met the outcome, and refreshed or not. */
  function EndOf(head: Commit, from: Commit, outcome: Outcome, refreshOk: bool): Op {
    match outcome
    case Landed(c) => if refreshOk then Succeeded(head, from, c) else PushedUnfetched(head, from, c)
    case _ => Failed
  }

  /**
   * Whatever raced before it, a merge nobody disturbs comes to what the one merge comes to: its
   * graph, origin's tip and its answer; the tracking ref is origin's, and other merges stay put.
   */
  lemma UndisturbedMerge(w: World, id: OpId, head: Commit, hookOk: bool, conflict: bool, refreshOk: bool)
    returns (ws: seq<World>, es: seq<Event>)
    requires Inv(w) && id !in w.ops && head < |w.graph|
    ensures Continues(w, ws, es)
    ensures var (graph, tip, outcome) := MergeAlone(w.graph, w.tip, head, hookOk, conflict);
            ws[|es|] == World(graph, tip, tip, w.ops[id := EndOf(head, w.tip, outcome, refreshOk)])
  {
    ws, es := CheckOn(w, id, head);
    if Ancestor(w.graph, w.tip, head) {
      ws, es := PushOn(w, ws, es, id, hookOk, refreshOk);
    } else {
      ws, es := OneMore(w, ws, es, Build(id, conflict));
      if Merged(w.graph, w.tip, head, conflict).Some? {
        ws, es := PushOn(w, ws, es, id, hookOk, refreshOk);
      }
    }
  }

  /** The first three steps of a merge. */
  lemma CheckOn(w: World, id: OpId, head: Commit) returns (ws: seq<World>, es: seq<Event>)
    requires id !in w.ops && head < |w.graph|
    ensures Continues(w, ws, es)
    ensures var op := if Ancestor(w.graph, w.tip, head) then FastForward(head, w.tip) else Diverged(head, w.tip);
            ws[|es|] == World(w.graph, w.tip, w.tip, w.ops[id := op])
  {
    ws, es := OneMore(w, [w], [], Begin(id, head));
    ws, es := OneMore(w, ws, es, Fetch(id, true));
    ws, es := OneMore(w, ws, es, Check(id));
  }

  /** The last two steps of a merge that has a commit to offer. */
  lemma PushOn(w: World, before: seq<World>, events: seq<Event>, id: OpId, hookOk: bool, refreshOk: bool)
    returns (ws: seq<World>, es: seq<Event>)
    requires Continues(w, before, events)
    requires var v := before[|events|]; id in v.ops && (v.ops[id].FastForward? || v.ops[id].Built?)
    ensures Continues(w, ws, es)
    ensures var v := before[|events|];
            var op, c := v.ops[id], Offered(v.ops[id]);
            ws[|es|] == if Pushed(v.graph, v.tip, c, hookOk).None? then v.(ops := v.ops[id := Failed])
                        else World(v.graph, c, c, v.ops[id := EndOf(op.head, op.from, Landed(c), refreshOk)])
  {
    ws, es := OneMore(w, before, events, Push(id, hookOk));
    if ws[|es|].ops[id].OnOrigin? {
      ws, es := OneMore(w, ws, es, Refetch(id, refreshOk));
    }
  }

  /** A commit someone pushes just before a merge does refuses the merge, whatever the hooks say. */
  lemma LatePushIsRefused(w: World, id: OpId, hookOk: bool) returns (ws: seq<World>, es: seq<Event>)
    requires Inv(w) && id in w.ops && (w.ops[id].FastForward? || w.ops[id].Built?)
    ensures Continues(w, ws, es)
    ensures var d := |w.graph|;
            ws[|es|] == World(w.graph + [[w.tip]], d, d, w.ops[id := Failed])
  {
    var d, op := |w.graph|, w.ops[id];
    ws, es := OneMore(w, [w], [], OutsideCommit([w.tip]));
    var g := ws[|es|].graph;
    assert OpHolds(w, op);
    assert g[d] == [w.tip] && WellFormed(g);
    ParentIsAncestor(g, d, 0);
    ws, es := OneMore(w, ws, es, OutsidePush(d));
    if Ancestor(g, d, Offered(op)) {
      AncestorIsOlder(g, d, Offered(op));
    }
    ws, es := OneMore(w, ws, es, Push(id, hookOk));
    ws, es := OneMore(w, ws, es, OutsideFetch);
  }
}
