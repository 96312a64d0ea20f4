/**
 * Claiming an issue: the claim oracle over branches, the dependency gate, the pick, and the
 * locked launch that turns a free issue into a claim branch and an active run.
 */
module Claims {
  import opened Text
  import opened Decimal
  import opened BranchPattern

  /** An issue and the local issue numbers its "Blocked by" section names. */
  datatype Issue = Issue(number: nat, blockers: seq<nat>)

  // ----- the two gates -----

  /** The branch that claims the issue is listed. */
  predicate IsClaimed(branches: seq<string>, pattern: string, n: nat) {
    1 <= n <= MAX_INT64 && RenderBranch(pattern, n) in branches
  }

  ghost predicate IsClaimSet(claimed: set<nat>, branches: seq<string>, pattern: string) {
    forall n: nat :: n in claimed <==> IsClaimed(branches, pattern, n)
  }

  predicate Blocked(issue: Issue, open: set<nat>) {
    exists i | 0 <= i < |issue.blockers| :: issue.blockers[i] in open
  }

  /** The claim oracle: an issue number registers exactly when its rendered branch is listed. */
  method ClaimedIssues(branches: seq<string>, pattern: string) returns (claimed: set<nat>)
    requires Cut(pattern, N_TOKEN).Found?
    ensures IsClaimSet(claimed, branches, pattern)
  {
    claimed := {};
    for i := 0 to |branches|
      invariant IsClaimSet(claimed, branches[..i], pattern)
    {
      var b := branches[i];
      assert branches[..i + 1] == branches[..i] + [b];
      var n := ParseBranch(pattern, b);
      forall m: nat ensures n == Some(m) <==> 1 <= m <= MAX_INT64 && b == RenderBranch(pattern, m) {
        ParseInvertsRender(pattern, b, m);
      }
      if n.Some? {
        claimed := claimed + {n.value};
      }
    }
    assert branches[..|branches|] == branches;
  }

  /** The ready issues nobody claims, in order. */
  function Unclaimed(ready: seq<Issue>, branches: seq<string>, pattern: string): (r: seq<Issue>)
    ensures forall x :: x in r <==> x in ready && !IsClaimed(branches, pattern, x.number)
  {
    if ready == [] then []
    else
      var last := ready[|ready| - 1];
      assert ready == ready[..|ready| - 1] + [last];
      Unclaimed(ready[..|ready| - 1], branches, pattern)
      + if IsClaimed(branches, pattern, last.number) then [] else [last]
  }

  /** The issues no open issue blocks, in order. */
  function Unblocked(ready: seq<Issue>, open: set<nat>): (r: seq<Issue>)
    ensures forall x :: x in r <==> x in ready && !Blocked(x, open)
  {
    if ready == [] then []
    else
      var last := ready[|ready| - 1];
      assert ready == ready[..|ready| - 1] + [last];
      Unblocked(ready[..|ready| - 1], open) + if Blocked(last, open) then [] else [last]
  }

  method ClaimableIssues(ready: seq<Issue>, claimed: set<nat>, ghost branches: seq<string>, ghost pattern: string)
    returns (out: seq<Issue>)
    requires IsClaimSet(claimed, branches, pattern)
    ensures out == Unclaimed(ready, branches, pattern)
  {
    out := [];
    for i := 0 to |ready|
      invariant out == Unclaimed(ready[..i], branches, pattern)
    {
      assert ready[..i + 1][..i] == ready[..i];
      if ready[i].number !in claimed {
        out := out + [ready[i]];
      }
    }
    assert ready[..|ready|] == ready;
  }

  /** The open blockers of an issue. */
  method OpenBlockers(issue: Issue, open: set<nat>) returns (refs: seq<nat>)
    ensures forall n :: n in refs <==> n in issue.blockers && n in open
    ensures refs == [] <==> !Blocked(issue, open)
  {
    refs := [];
    for i := 0 to |issue.blockers|
      invariant forall n :: n in refs <==> n in issue.blockers[..i] && n in open
    {
      assert issue.blockers[..i + 1] == issue.blockers[..i] + [issue.blockers[i]];
      if issue.blockers[i] in open {
        refs := refs + [issue.blockers[i]];
      }
    }
    assert issue.blockers[..|issue.blockers|] == issue.blockers;
    if refs == [] {
      assert forall i | 0 <= i < |issue.blockers| :: issue.blockers[i] !in open;
    } else {
      assert refs[0] in issue.blockers;
    }
  }

  datatype BlockedIssue = BlockedIssue(issue: Issue, openBlockers: seq<nat>)

  /** The issues some open issue blocks, in order. */
  function Held(ready: seq<Issue>, open: set<nat>): seq<Issue> {
    if ready == [] then []
    else
      var last := ready[|ready| - 1];
      Held(ready[..|ready| - 1], open) + if Blocked(last, open) then [last] else []
  }

  /** The held-back issues, each with exactly the open issues that hold it. */
  ghost predicate HeldBack(blocked: seq<BlockedIssue>, held: seq<Issue>, open: set<nat>) {
    && |blocked| == |held|
    && forall k | 0 <= k < |blocked| ::
         && blocked[k].issue == held[k]
         && forall n :: n in blocked[k].openBlockers <==> n in held[k].blockers && n in open
  }

  method PartitionBlocked(ready: seq<Issue>, open: set<nat>) returns (unblocked: seq<Issue>, blocked: seq<BlockedIssue>)
    ensures unblocked == Unblocked(ready, open)
    ensures HeldBack(blocked, Held(ready, open), open)
  {
    unblocked, blocked := [], [];
    for i := 0 to |ready|
      invariant unblocked == Unblocked(ready[..i], open)
      invariant HeldBack(blocked, Held(ready[..i], open), open)
    {
      assert ready[..i + 1][..i] == ready[..i];
      var refs := OpenBlockers(ready[i], open);
      if refs == [] {
        unblocked := unblocked + [ready[i]];
      } else {
        blocked := blocked + [BlockedIssue(ready[i], refs)];
      }
    }
    assert ready[..|ready|] == ready;
  }

  lemma {:induction false} UnclaimedConcat(a: seq<Issue>, b: seq<Issue>, branches: seq<string>, pattern: string)
    ensures Unclaimed(a + b, branches, pattern) == Unclaimed(a, branches, pattern) + Unclaimed(b, branches, pattern)
  {
    if b == [] {
      assert a + b == a;
    } else {
      var front := b[..|b| - 1];
      assert (a + b)[..|a + b| - 1] == a + front;
      UnclaimedConcat(a, front, branches, pattern);
    }
  }

  lemma {:induction false} UnblockedConcat(a: seq<Issue>, b: seq<Issue>, open: set<nat>)
    ensures Unblocked(a + b, open) == Unblocked(a, open) + Unblocked(b, open)
  {
    if b == [] {
      assert a + b == a;
    } else {
      var front := b[..|b| - 1];
      assert (a + b)[..|a + b| - 1] == a + front;
      UnblockedConcat(a, front, open);
    }
  }

  /** The gates keep the order of the ready list: two lists in a row give what each gives, in a row. */
  lemma GatesKeepOrder(a: seq<Issue>, b: seq<Issue>, branches: seq<string>, pattern: string, open: set<nat>)
    ensures FreeIssues(a + b, branches, pattern, open)
            == FreeIssues(a, branches, pattern, open) + FreeIssues(b, branches, pattern, open)
  {
    UnclaimedConcat(a, b, branches, pattern);
    UnblockedConcat(Unclaimed(a, branches, pattern), Unclaimed(b, branches, pattern), open);
  }

  /** Ready, unclaimed, and held back by no open issue. */
  predicate Free(issue: Issue, ready: seq<Issue>, branches: seq<string>, pattern: string, open: set<nat>) {
    issue in ready && !IsClaimed(branches, pattern, issue.number) && !Blocked(issue, open)
  }

  function FreeIssues(ready: seq<Issue>, branches: seq<string>, pattern: string, open: set<nat>): (r: seq<Issue>)
    ensures forall x :: x in r <==> Free(x, ready, branches, pattern, open)
  {
    Unblocked(Unclaimed(ready, branches, pattern), open)
  }

  predicate NamesABlocker(issues: seq<Issue>) {
    exists i | 0 <= i < |issues| :: issues[i].blockers != []
  }

  lemma NamesNothing(issue: Issue, open: set<nat>)
    requires issue.blockers == []
    ensures !Blocked(issue, open)
  {
  }

  lemma OneMoreUnheld(front: seq<Issue>, last: Issue, issues: seq<Issue>, open: set<nat>)
    requires issues == front + [last] && last.blockers == [] && Unblocked(front, open) == front
    ensures Unblocked(issues, open) == issues
  {
    NamesNothing(last, open);
    assert issues[..|issues| - 1] == front;
  }

  /** Where nothing names a blocker, no open set holds anything back. */
  lemma {:induction false} NoBlockersNothingHeld(issues: seq<Issue>, open: set<nat>)
    requires !NamesABlocker(issues)
    ensures Unblocked(issues, open) == issues
  {
    if issues != [] {
      var front, last := issues[..|issues| - 1], issues[|issues| - 1];
      NamesABlockerIsLater(issues);
      NoBlockersNothingHeld(front, open);
      OneMoreUnheld(front, last, issues, open);
    }
  }

  lemma NamesABlockerIsLater(issues: seq<Issue>)
    requires issues != [] && !NamesABlocker(issues)
    ensures !NamesABlocker(issues[..|issues| - 1]) && issues[|issues| - 1].blockers == []
  {
  }

  datatype Filtered = Claimable(issues: seq<Issue>) | TrackerFailed

  /**
   * The choke point: the open issues are asked for only when a claimable issue names a blocker.
   * Whatever the tracker answers, that is what always asking would give; a failed answer fails
   * exactly when it was needed.
   */
  method FilterClaimable(ready: seq<Issue>, branches: seq<string>, pattern: string, openIssues: Option<set<nat>>)
    returns (r: Filtered, asked: bool)
    requires Cut(pattern, N_TOKEN).Found?
    ensures asked <==> NamesABlocker(Unclaimed(ready, branches, pattern))
    ensures r.TrackerFailed? <==> asked && openIssues.None?
    ensures openIssues.Some? ==> r == Claimable(FreeIssues(ready, branches, pattern, openIssues.value))
    ensures !asked ==> forall open: set<nat> :: r == Claimable(FreeIssues(ready, branches, pattern, open))
  {
    var claimed := ClaimedIssues(branches, pattern);
    var claimable := ClaimableIssues(ready, claimed, branches, pattern);
    asked := false;
    for i := 0 to |claimable|
      invariant asked <==> NamesABlocker(claimable[..i])
    {
      assert claimable[..i + 1] == claimable[..i] + [claimable[i]];
      NamesOneMore(claimable[..i], claimable[i]);
      if |claimable[i].blockers| > 0 {
        asked := true;
      }
    }
    assert claimable[..|claimable|] == claimable;
    if !asked {
      forall open: set<nat> ensures FreeIssues(ready, branches, pattern, open) == claimable {
        NoBlockersNothingHeld(claimable, open);
      }
      return Claimable(claimable), asked;
    }
    if openIssues.None? {
      return TrackerFailed, asked;
    }
    var unblocked, blocked := PartitionBlocked(claimable, openIssues.value);
    r := Claimable(unblocked);
  }

  lemma NamesOneMore(issues: seq<Issue>, issue: Issue)
    ensures NamesABlocker(issues + [issue]) <==> NamesABlocker(issues) || issue.blockers != []
  {
    assert (issues + [issue])[|issues|] == issue;
    if NamesABlocker(issues) {
      var i :| 0 <= i < |issues| && issues[i].blockers != [];
      assert (issues + [issue])[i].blockers != [];
    }
  }

  predicate IsLeast(issue: Issue, issues: seq<Issue>) {
    issue in issues && forall i | 0 <= i < |issues| :: issue.number <= issues[i].number
  }

  method PickLowestIssue(issues: seq<Issue>) returns (r: Option<Issue>)
    ensures r.None? <==> issues == []
    ensures r.Some? ==> IsLeast(r.value, issues)
  {
    if issues == [] {
      return None;
    }
    var lowest := issues[0];
    for i := 1 to |issues|
      invariant lowest in issues
      invariant forall j | 0 <= j < i :: lowest.number <= issues[j].number
    {
      if issues[i].number < lowest.number {
        lowest := issues[i];
      }
    }
    r := Some(lowest);
  }

  // ----- the locked launch -----

  datatype Run = Run(issue: nat, auto: bool, active: bool)

  datatype LaunchOutcome = TrackerDown | NoReady | AutoInFlight | AtCap | Failed | Started(run: nat)

  /** Active runs hold distinct issues, each behind its claim branch, and at most one is an auto run. */
  ghost predicate ClaimsHold(runs: map<nat, Run>, branches: set<string>, pattern: string) {
    && (forall i | i in runs && runs[i].active ::
          1 <= runs[i].issue <= MAX_INT64 && RenderBranch(pattern, runs[i].issue) in branches)
    && (forall i, j | i in runs && j in runs && runs[i].active && runs[j].active ::
          (runs[i].issue == runs[j].issue ==> i == j) && (runs[i].auto && runs[j].auto ==> i == j))
  }

  /** Their claim branches are distinct too. */
  lemma ActiveBranchesDiffer(runs: map<nat, Run>, branches: set<string>, pattern: string, i: nat, j: nat)
    requires Cut(pattern, N_TOKEN).Found? && ClaimsHold(runs, branches, pattern)
    requires i in runs && j in runs && runs[i].active && runs[j].active
    requires RenderBranch(pattern, runs[i].issue) == RenderBranch(pattern, runs[j].issue)
    ensures i == j
  {
    RenderInjective(pattern, runs[i].issue, runs[j].issue);
  }

  predicate AutoRuns(runs: map<nat, Run>) {
    exists i | i in runs :: runs[i].active && runs[i].auto
  }

  /** The claimed issue of the launch: the least free one. */
  ghost predicate LeastFree(n: nat, ready: seq<Issue>, branches: set<string>, pattern: string, open: set<nat>) {
    && (exists x :: x in ready && x.number == n && !Blocked(x, open))
    && RenderBranch(pattern, n) !in branches
    && forall x | x in ready && x.number < n :: RenderBranch(pattern, x.number) in branches || Blocked(x, open)
  }

  ghost predicate NothingFree(ready: seq<Issue>, branches: set<string>, pattern: string, open: set<nat>) {
    forall x | x in ready :: RenderBranch(pattern, x.number) in branches || Blocked(x, open)
  }

  /** Some unclaimed ready issue names a blocker, so the open issues must be asked for. */
  ghost predicate NeedsOpenSet(ready: seq<Issue>, branches: set<string>, pattern: string) {
    exists x :: x in ready && RenderBranch(pattern, x.number) !in branches && x.blockers != []
  }

  lemma NamesIffNeeded(unclaimed: seq<Issue>, ready: seq<Issue>, branches: set<string>, pattern: string)
    requires forall x :: x in unclaimed <==> x in ready && RenderBranch(pattern, x.number) !in branches
    ensures NamesABlocker(unclaimed) <==> NeedsOpenSet(ready, branches, pattern)
  {
    if NamesABlocker(unclaimed) {
      var i :| 0 <= i < |unclaimed| && unclaimed[i].blockers != [];
      assert unclaimed[i] in unclaimed;
    }
    if x :| x in ready && RenderBranch(pattern, x.number) !in branches && x.blockers != [] {
      var i :| 0 <= i < |unclaimed| && unclaimed[i] == x;
      assert unclaimed[i].blockers != [];
    }
  }

  /** The open issues as far as they matter: unread, they stand for none. */
  function Known(openIssues: Option<set<nat>>): set<nat> {
    if openIssues.Some? then openIssues.value else {}
  }

  /** A repo of one branch pattern: its local branches and its run rows. */
  class Repo {
    const pattern: string
    var branches: set<string>
    var runs: map<nat, Run>

    ghost predicate Valid()
      reads this
    {
      Cut(pattern, N_TOKEN).Found? && ClaimsHold(runs, branches, pattern)
    }

    constructor (pattern: string, existing: set<string>)
      requires Cut(pattern, N_TOKEN).Found?
      ensures Valid() && branches == existing && runs == map[] && this.pattern == pattern
    {
      this.pattern := pattern;
      branches, runs := existing, map[];
    }

    /** git lists the local branches, each once. */
    method Listing() returns (names: seq<string>)
      ensures forall b :: b in names <==> b in branches
    {
      names := [];
      var rest := branches;
      while rest != {}
        invariant rest <= branches
        invariant forall b :: b in names <==> b in branches && b !in rest
        decreases rest
      {
        var b :| b in rest;
        names := names + [b];
        rest := rest - {b};
      }
    }

    /** git worktree add -b: creates the branch, refusing a name already taken. */
    method AddWorktree(branch: string) returns (ok: bool)
      modifies this`branches
      ensures ok == (branch !in old(branches))
      ensures branches == old(branches) + {branch}
    {
      ok := branch !in branches;
      branches := branches + {branch};
    }

    /** The least number among the free issues; fails when the open issues are needed and cannot be read. */
    method Pick(ready: seq<Issue>, openIssues: Option<set<nat>>) returns (n: Option<nat>, failed: bool)
      requires Valid()
      requires forall x | x in ready :: 1 <= x.number <= MAX_INT64
      ensures failed <==> openIssues.None? && NeedsOpenSet(ready, branches, pattern)
      ensures !failed ==> (n.None? <==> NothingFree(ready, branches, pattern, Known(openIssues)))
      ensures !failed && n.Some?
              ==> 1 <= n.value <= MAX_INT64 && LeastFree(n.value, ready, branches, pattern, Known(openIssues))
    {
      var listing := Listing();
      var filtered, asked := FilterClaimable(ready, listing, pattern, openIssues);
      var unclaimed := Unclaimed(ready, listing, pattern);
      assert forall x :: x in unclaimed <==> x in ready && RenderBranch(pattern, x.number) !in branches;
      NamesIffNeeded(unclaimed, ready, branches, pattern);
      if filtered.TrackerFailed? {
        return None, true;
      }
      var free := filtered.issues;
      assert free == FreeIssues(ready, listing, pattern, Known(openIssues));
      assert forall x :: x in free <==>
               x in ready && RenderBranch(pattern, x.number) !in branches && !Blocked(x, Known(openIssues));
      var pick := PickLowestIssue(free);
      n, failed := if pick.None? then None else Some(pick.value.number), false;
    }

    /** Claims a free branch and starts its run, releasing the claim when the session does not come up. */
    method ClaimAndStart(auto: bool, n: nat, intruders: set<string>, comesUp: bool) returns (started: Option<nat>)
      requires Valid() && 1 <= n <= MAX_INT64 && RenderBranch(pattern, n) !in branches
      requires auto ==> !AutoRuns(runs)
      modifies this
      ensures Valid()
      ensures started.Some? <==> comesUp && RenderBranch(pattern, n) !in intruders
      ensures started.None? ==> runs == old(runs) && branches == old(branches) + intruders
      ensures started.Some? ==>
                && started.value !in old(runs) && runs == old(runs)[started.value := Run(n, auto, true)]
                && branches == old(branches) + intruders + {RenderBranch(pattern, n)}
    {
      branches := branches + intruders;
      var claimed := AddWorktree(RenderBranch(pattern, n));
      if !claimed {
        return None;
      }
      if !comesUp {
        branches := branches - {RenderBranch(pattern, n)};
        return None;
      }
      var id := NewId();
      runs := runs[id := Run(n, auto, true)];
      started := Some(id);
    }

    /**
     * Pick, check, claim and start, under the engine lock. Between the pick and the claim others
     * may create branches; a session that does not come up releases the claim it made.
     */
    method Launch(auto: bool, ready: seq<Issue>, openIssues: Option<set<nat>>, underCap: bool, intruders: set<string>,
                  comesUp: bool)
      returns (outcome: LaunchOutcome)
      requires Valid()
      requires forall x | x in ready :: 1 <= x.number <= MAX_INT64
      modifies this
      ensures Valid()
      ensures outcome.TrackerDown? <==> openIssues.None? && NeedsOpenSet(ready, old(branches), pattern)
      ensures outcome.NoReady?
              <==> !outcome.TrackerDown? && NothingFree(ready, old(branches), pattern, Known(openIssues))
      ensures outcome.AutoInFlight? <==>
              && !outcome.TrackerDown? && !outcome.NoReady? && auto
              && exists i | i in old(runs) :: old(runs)[i].active && old(runs)[i].auto
      ensures outcome.AtCap? <==> !outcome.TrackerDown? && !outcome.NoReady? && !outcome.AutoInFlight? && !underCap
      ensures !outcome.Started? ==> runs == old(runs) && old(branches) <= branches <= old(branches) + intruders
      ensures outcome.Started? ==>
                && outcome.run !in old(runs) && outcome.run in runs && underCap && comesUp
                && runs == old(runs)[outcome.run := Run(runs[outcome.run].issue, auto, true)]
                && LeastFree(runs[outcome.run].issue, ready, old(branches), pattern, Known(openIssues))
                && RenderBranch(pattern, runs[outcome.run].issue) !in intruders
                && branches == old(branches) + intruders + {RenderBranch(pattern, runs[outcome.run].issue)}
    {
      var pick, failed := Pick(ready, openIssues);
      if failed {
        return TrackerDown;
      }
      if pick.None? {
        return NoReady;
      }
      var inFlight := AutoRunActive();
      if auto && inFlight {
        return AutoInFlight;
      }
      if !underCap {
        return AtCap;
      }
      var started := ClaimAndStart(auto, pick.value, intruders, comesUp);
      outcome := if started.Some? then Started(started.value) else Failed;
    }

    method AutoRunActive() returns (found: bool)
      ensures found == AutoRuns(runs)
    {
      var rest := runs.Keys;
      while rest != {}
        invariant rest <= runs.Keys
        invariant forall i | i in runs && i !in rest :: !(runs[i].active && runs[i].auto)
        decreases rest
      {
        var i :| i in rest;
        if runs[i].active && runs[i].auto {
          return true;
        }
        rest := rest - {i};
      }
      return false;
    }

    /** An id no row has. */
    method NewId() returns (id: nat)
      ensures id !in runs
    {
      id := 0;
      var rest := runs.Keys;
      while rest != {}
        invariant rest <= runs.Keys
        invariant forall i | i in runs && i !in rest :: i < id
        decreases rest
      {
        var i :| i in rest;
        if i >= id {
          id := i + 1;
        }
        rest := rest - {i};
      }
    }

    /** A reap or a Stop: the run ends, its claim branch stays. */
    method End(id: nat)
      requires Valid() && id in runs
      modifies this`runs
      ensures Valid() && runs == old(runs)[id := old(runs)[id].(active := false)]
    {
      runs := runs[id := runs[id].(active := false)];
    }

    /** A teardown or a discard drops a branch no active run claims. */
    method DropBranch(branch: string)
      requires Valid() && forall i | i in runs && runs[i].active :: RenderBranch(pattern, runs[i].issue) != branch
      modifies this`branches
      ensures Valid() && branches == old(branches) - {branch}
    {
      branches := branches - {branch};
    }
  }
}
