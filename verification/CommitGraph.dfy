/**
 * The commit graph, and landing one change request's head on origin's base branch: fetch,
 * ancestry, fast-forward or merge commit, push and refresh.
 */
module CommitGraph {
  import opened Text

  type Commit = nat

  /** The parents of every commit; a commit is numbered after its parents. */
  type Graph = seq<seq<Commit>>

  ghost predicate WellFormed(g: Graph) {
    forall d, k | 0 <= d < |g| && 0 <= k < |g[d]| :: g[d][k] < d
  }

  /** a is reachable from d through parents (every commit from itself). */
  predicate Ancestor(g: Graph, a: Commit, d: Commit)
    decreases d
  {
    a == d || (d < |g| && exists k | 0 <= k < |g[d]| :: g[d][k] < d && Ancestor(g, a, g[d][k]))
  }

  lemma {:induction false} AncestorIsOlder(g: Graph, a: Commit, d: Commit)
    requires Ancestor(g, a, d)
    ensures a <= d
    decreases d
  {
    if a != d {
      var k :| 0 <= k < |g[d]| && g[d][k] < d && Ancestor(g, a, g[d][k]);
      AncestorIsOlder(g, a, g[d][k]);
    }
  }

  lemma {:induction false} AncestorTransitive(g: Graph, a: Commit, b: Commit, c: Commit)
    requires Ancestor(g, a, b) && Ancestor(g, b, c)
    ensures Ancestor(g, a, c)
    decreases c
  {
    if b != c {
      var k :| 0 <= k < |g[c]| && g[c][k] < c && Ancestor(g, b, g[c][k]);
      AncestorTransitive(g, a, b, g[c][k]);
    }
  }

  /** New commits change nothing between old ones. */
  lemma {:induction false} AncestorGrows(g: Graph, g': Graph, a: Commit, d: Commit)
    requires WellFormed(g) && g <= g' && d < |g|
    ensures Ancestor(g, a, d) <==> Ancestor(g', a, d)
    decreases d
  {
    assert g[d] == g'[d];
    forall k | 0 <= k < |g[d]| ensures Ancestor(g, a, g[d][k]) <==> Ancestor(g', a, g'[d][k]) {
      AncestorGrows(g, g', a, g[d][k]);
    }
  }

  lemma ParentIsAncestor(g: Graph, d: Commit, k: nat)
    requires WellFormed(g) && d < |g| && k < |g[d]|
    ensures Ancestor(g, g[d][k], d)
  {
    assert Ancestor(g, g[d][k], g[d][k]);
  }

  // ----- git's two effects -----

  /** A push that does not force: up to date, or a fast-forward the hooks accept. */
  function Pushed(g: Graph, tip: Commit, c: Commit, hookOk: bool): Option<Commit> {
    if c == tip then Some(tip)
    else if hookOk && Ancestor(g, tip, c) then Some(c)
    else None
  }

  /** merge --no-ff of head onto `at`: already up to date, a conflict, or one merge commit. */
  function Merged(g: Graph, at: Commit, head: Commit, conflict: bool): Option<(Graph, Commit)> {
    if Ancestor(g, head, at) then Some((g, at))
    else if conflict then None
    else Some((g + [[at, head]], |g|))
  }

  /** Whatever merge --no-ff leaves checked out descends from both sides. */
  lemma MergedContainsBoth(g: Graph, at: Commit, head: Commit, conflict: bool)
    requires WellFormed(g) && at < |g| && head < |g| && Merged(g, at, head, conflict).Some?
    ensures var (g', c) := Merged(g, at, head, conflict).value;
            WellFormed(g') && g <= g' && c < |g'| && Ancestor(g', at, c) && Ancestor(g', head, c)
  {
    var g' := g + [[at, head]];
    if !Ancestor(g, head, at) {
      ParentIsAncestor(g', |g|, 0);
      ParentIsAncestor(g', |g|, 1);
      assert g'[|g|] == [at, head];
    }
  }

  // ----- one merge, undisturbed -----

  datatype Outcome = Landed(commit: Commit) | Rejected | Conflict

  /** The graph, origin's base tip and the answer of one whole merge. */
  function MergeAlone(g: Graph, tip: Commit, head: Commit, hookOk: bool, conflict: bool): (Graph, Commit, Outcome) {
    if Ancestor(g, tip, head) then
      match Pushed(g, tip, head, hookOk)
      case None => (g, tip, Rejected)
      case Some(now) => (g, now, Landed(head))
    else
      match Merged(g, tip, head, conflict)
      case None => (g, tip, Conflict)
      case Some((g', c)) =>
        match Pushed(g', tip, c, hookOk)
        case None => (g', tip, Rejected)
        case Some(now) => (g', now, Landed(c))
  }

  /** A merge that succeeds leaves origin at its commit, above the old tip and the head. */
  lemma SuccessContainsBoth(g: Graph, tip: Commit, head: Commit, hookOk: bool, conflict: bool)
    requires WellFormed(g) && tip < |g| && head < |g| && MergeAlone(g, tip, head, hookOk, conflict).2.Landed?
    ensures var (g', tip', outcome) := MergeAlone(g, tip, head, hookOk, conflict);
            && WellFormed(g') && tip' == outcome.commit < |g'|
            && Ancestor(g', tip, tip') && Ancestor(g', head, tip')
            && (Ancestor(g, tip, head) ==> g' == g && tip' == head)
            && (g' != g ==> g' == g + [[tip, head]] && !Ancestor(g, head, tip))
  {
    if !Ancestor(g, tip, head) {
      MergedContainsBoth(g, tip, head, conflict);
    }
  }

  /** Exactly when a merge lands, and that a refused one moves nothing on origin. */
  lemma RefusalMovesNothing(g: Graph, tip: Commit, head: Commit, hookOk: bool, conflict: bool)
    requires WellFormed(g) && tip < |g| && head < |g|
    ensures var (_, tip', outcome) := MergeAlone(g, tip, head, hookOk, conflict);
            && (outcome.Landed? <==> Ancestor(g, head, tip) || (hookOk && (Ancestor(g, tip, head) || !conflict)))
            && (!outcome.Landed? ==> tip' == tip)
  {
    if Ancestor(g, tip, head) {
      if Ancestor(g, head, tip) {
        AncestorIsOlder(g, tip, head);
        AncestorIsOlder(g, head, tip);
      }
    } else if Merged(g, tip, head, conflict).Some? {
      MergedContainsBoth(g, tip, head, conflict);
    }
  }

  /**
   * Merging the same head again, the base unmoved: no commit, no ref movement, the same tip — whatever the
   * hooks say.
   */
  lemma RepeatIsNoOp(g: Graph, tip: Commit, head: Commit, hookOk: bool, conflict: bool, hookOk': bool, conflict': bool)
    requires WellFormed(g) && tip < |g| && head < |g| && MergeAlone(g, tip, head, hookOk, conflict).2.Landed?
    ensures var (g', tip', outcome) := MergeAlone(g, tip, head, hookOk, conflict);
            MergeAlone(g', tip', head, hookOk', conflict') == (g', tip', outcome)
  {
    var (g', tip', outcome) := MergeAlone(g, tip, head, hookOk, conflict);
    SuccessContainsBoth(g, tip, head, hookOk, conflict);
    if Ancestor(g', tip', head) {
      AncestorIsOlder(g', tip', head);
      AncestorIsOlder(g', head, tip');
    }
  }

  /** What a merge reports: a landed merge whose refresh failed is an error naming the landed commit. */
  datatype Answer = HeadMissing | FetchFailed | RefreshFailed(commit: Commit) | Done(outcome: Outcome)

  function Report(outcome: Outcome, refreshOk: bool): Answer {
    if outcome.Landed? && !refreshOk then RefreshFailed(outcome.commit) else Done(outcome)
  }

  /** The reference clone and the origin it pushes to. */
  class Clone {
    var graph: Graph
    var tip: Commit       // origin's base branch
    var tracking: Commit  // refs/remotes/origin/<base>
    var worktrees: set<nat>

    constructor (graph: Graph, tip: Commit, tracking: Commit)
      ensures this.graph == graph && this.tip == tip && this.tracking == tracking && worktrees == {}
    {
      this.graph, this.tip, this.tracking, worktrees := graph, tip, tracking, {};
    }

    method Fetch()
      modifies this`tracking
      ensures tracking == tip
    {
      tracking := tip;
    }

    /** A push updates origin and, with it, the tracking ref. */
    method PushOrigin(c: Commit, hookOk: bool) returns (ok: bool)
      modifies this`tip, this`tracking
      ensures ok == Pushed(graph, old(tip), c, hookOk).Some?
      ensures tip == (if ok then c else old(tip)) && tracking == (if ok then c else old(tracking))
    {
      ok := c == tip || (hookOk && Ancestor(graph, tip, c));
      if ok {
        tip, tracking := c, c;
      }
    }

    /** The throwaway worktree is gone on every path out. */
    method MergeInTempWorktree(head: Commit, fresher: nat, conflict: bool, hookOk: bool) returns (outcome: Outcome)
      requires tracking == tip && !Ancestor(graph, tip, head) && fresher !in worktrees
      modifies this
      ensures (graph, tip, outcome) == MergeAlone(old(graph), old(tip), head, hookOk, conflict)
      ensures worktrees == old(worktrees)
    {
      worktrees := worktrees + {fresher};
      var checkedOut := tracking;
      var merged := Merged(graph, checkedOut, head, conflict);
      if merged.None? {
        worktrees := worktrees - {fresher};
        return Conflict;
      }
      graph, checkedOut := merged.value.0, merged.value.1;
      var ok := PushOrigin(checkedOut, hookOk);
      worktrees := worktrees - {fresher};
      outcome := if ok then Landed(checkedOut) else Rejected;
    }

    /** A missing head or a failed fetch stops before anything moves; a failed refresh reports a merge that did land. */
    method CRMerge(head: Option<Commit>, fetchOk: bool, fresher: nat, conflict: bool, hookOk: bool, refreshOk: bool)
      returns (answer: Answer)
      requires fresher !in worktrees
      modifies this
      ensures answer.HeadMissing? <==> head.None?
      ensures answer.FetchFailed? <==> head.Some? && !fetchOk
      ensures head.None? || !fetchOk ==> graph == old(graph) && tip == old(tip)
      ensures head.Some? && fetchOk ==>
                && (graph, tip) == (MergeAlone(old(graph), old(tip), head.value, hookOk, conflict).0,
                                    MergeAlone(old(graph), old(tip), head.value, hookOk, conflict).1)
                && answer == Report(MergeAlone(old(graph), old(tip), head.value, hookOk, conflict).2, refreshOk)
      ensures worktrees == old(worktrees)
      ensures answer.Done? && answer.outcome.Landed? ==> tracking == tip && refreshOk
      ensures answer.RefreshFailed? <==>
              && head.Some? && fetchOk && !refreshOk
              && MergeAlone(old(graph), old(tip), head.value, hookOk, conflict).2.Landed?
      ensures answer.RefreshFailed? ==> tip == answer.commit
    {
      if head.None? {
        return HeadMissing;
      }
      if !fetchOk {
        return FetchFailed;
      }
      Fetch();
      var outcome;
      if Ancestor(graph, tracking, head.value) {
        var ok := PushOrigin(head.value, hookOk);
        outcome := if ok then Landed(head.value) else Rejected;
      } else {
        outcome := MergeInTempWorktree(head.value, fresher, conflict, hookOk);
      }
      if outcome.Landed? {
        if !refreshOk {
          return RefreshFailed(outcome.commit);
        }
        Fetch();
      }
      answer := Done(outcome);
    }
  }
}
