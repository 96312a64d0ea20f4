/**
 * The autoland producer: for every repo that may spawn, walk the pull requests, fold each open
 * claim's facts and offer the one run the decision yields.
 */
module AutolandGather {
  import opened Text
  import opened BranchPattern
  import opened Verdicts

  const PAUSE_THRESHOLD := 3

  /** What one pass can read of a pull request; None is a read that fails this pass. */
  datatype Pull = Pull(
    number: nat, open: bool, head: string,
    reviews: Option<seq<Review>>, comments: Option<seq<Comment>>,
    onBranch: Option<bool>, rearmedAt: Option<int>, escalatedRun: Option<Option<int>>,
    fixAttempts: Option<nat>, escalateAttempts: Option<nat>)

  datatype Settings = Settings(
    autoland: bool, forge: bool, ready: bool, failures: nat, cap: int, pattern: string, maxFix: int,
    landerProvider: Option<string>, fixProvider: Option<string>)

  /** A repo: its row in the pass's listing, the row read again, and its pull requests. */
  datatype Repo = Repo(listed: Settings, reread: Option<Settings>, pulls: Option<seq<Pull>>)

  datatype Candidate = Candidate(action: Action, pull: nat, head: string, issue: nat, workOrder: string)

  // ----- what one pull request is offered -----

  /** The decision with every count filled in that can be read; an unreadable count it depends on decides nothing. */
  function DecideOnCounts(st: PullVerdictState, fix: Option<nat>, escalate: Option<nat>): Action {
    if DecideAutoland(st).Fix? && fix.None? then Nothing
    else
      var counted := if fix.Some? then st.(fixSpawns := fix.value) else st;
      if DecideAutoland(counted).Escalate? && escalate.None? then Nothing
      else DecideAutoland(counted.(escalateSpawns := if escalate.Some? then escalate.value else 0))
  }

  ghost predicate FoldReadable(p: Pull) {
    && p.reviews.Some? && p.comments.Some? && p.onBranch.Some? && p.rearmedAt.Some?
    && (p.escalatedRun.Some? || ESCALATE in Words(LiveThread(p.comments.value, p.rearmedAt.value)))
  }

  ghost function Folded(repo: Settings, p: Pull): PullVerdictState
    requires FoldReadable(p)
  {
    Polled(p.comments.value, p.reviews.value, p.rearmedAt.value,
           if p.escalatedRun.Some? then p.escalatedRun.value else None,
           p.onBranch.value, 0, repo.maxFix, 0)
  }

  ghost function Decided(repo: Settings, p: Pull): Action {
    if p.open && ParseBranch(repo.pattern, p.head).Some? && FoldReadable(p)
    then DecideOnCounts(Folded(repo, p), p.fixAttempts, p.escalateAttempts)
    else Nothing
  }

  function ProviderFor(repo: Settings, action: Action): Option<string> {
    if action.Fix? then repo.fixProvider else repo.landerProvider
  }

  ghost predicate Offered(repo: Settings, p: Pull, auth: string -> bool) {
    && !Decided(repo, p).Nothing?
    && ProviderFor(repo, Decided(repo, p)).Some? && auth(ProviderFor(repo, Decided(repo, p)).value)
  }

  ghost function OrderText(p: Pull, action: Action): string
    requires FoldReadable(p)
  {
    if action.Fix?
    then Join(WorkOrder(LiveThread(p.comments.value, p.rearmedAt.value), p.reviews.value), "\n\n")
    else ""
  }

  ghost function Offer(repo: Settings, p: Pull, auth: string -> bool): Option<Candidate> {
    if Offered(repo, p, auth)
    then Some(Candidate(Decided(repo, p), p.number, p.head, ParseBranch(repo.pattern, p.head).value,
                        OrderText(p, Decided(repo, p))))
    else None
  }

  predicate MaySpawn(s: Settings) {
    s.autoland && s.forge && s.ready
  }

  predicate Polls(r: Repo, liveCount: int) {
    && MaySpawn(r.listed) && r.reread.Some? && MaySpawn(r.reread.value)
    && r.reread.value.failures < PAUSE_THRESHOLD && liveCount < r.reread.value.cap && r.pulls.Some?
  }

  /** What each of a repo's first n pull requests is offered. */
  ghost function OffersUpTo(r: Repo, auth: string -> bool, n: nat): (offers: seq<Option<Candidate>>)
    requires r.reread.Some? && r.pulls.Some? && n <= |r.pulls.value|
    ensures |offers| == n
    ensures forall j | 0 <= j < n :: offers[j] == Offer(r.reread.value, r.pulls.value[j], auth)
  {
    seq(n, j requires 0 <= j < n => Offer(r.reread.value, r.pulls.value[j], auth))
  }

  /** What each of a repo's pull requests is offered; nothing when the repo is not polled. */
  ghost function Offers(r: Repo, liveCount: int, auth: string -> bool): seq<Option<Candidate>> {
    if Polls(r, liveCount) then OffersUpTo(r, auth, |r.pulls.value|) else []
  }

  ghost function FleetOffers(repos: seq<Repo>, liveCount: int, auth: string -> bool): seq<seq<Option<Candidate>>> {
    seq(|repos|, i requires 0 <= i < |repos| => Offers(repos[i], liveCount, auth))
  }

  // ----- candidates and where they come from -----

  predicate OfferedHere(offers: seq<Option<Candidate>>, j: nat, c: Candidate) {
    j < |offers| && offers[j] == Some(c)
  }

  /** out[k] is what place at[k] offers; every offer is there, once, in listing order. */
  ghost predicate OnePer(offers: seq<Option<Candidate>>, out: seq<Candidate>, at: seq<nat>) {
    && |at| == |out|
    && (forall k | 0 <= k < |at| :: OfferedHere(offers, at[k], out[k]))
    && (forall k, l | 0 <= k < l < |at| :: at[k] < at[l])
    && (forall j: nat | j < |offers| && offers[j].Some? :: j in at)
  }

  function WithMore(out: seq<Candidate>, more: Option<Candidate>): seq<Candidate> {
    if more.Some? then out + [more.value] else out
  }

  function WithPlace(at: seq<nat>, j: nat, more: Option<Candidate>): seq<nat> {
    if more.Some? then at + [j] else at
  }

  lemma RisingOneMore(at: seq<nat>, n: nat)
    requires (forall k | 0 <= k < |at| :: at[k] < n) && (forall k, l | 0 <= k < l < |at| :: at[k] < at[l])
    ensures forall k, l | 0 <= k < l < |at + [n]| :: (at + [n])[k] < (at + [n])[l]
  {
  }

  lemma HereOneMore(offers: seq<Option<Candidate>>, more: Option<Candidate>, j: nat, c: Candidate)
    requires OfferedHere(offers, j, c) || (j == |offers| && more == Some(c))
    ensures OfferedHere(offers + [more], j, c)
  {
  }

  lemma NoMoreOffer(offers: seq<Option<Candidate>>, out: seq<Candidate>, at: seq<nat>)
    requires OnePer(offers, out, at)
    ensures OnePer(offers + [None], out, at)
  {
    var all := offers + [None];
    forall k | 0 <= k < |at| ensures OfferedHere(all, at[k], out[k]) {
      HereOneMore(offers, None, at[k], out[k]);
    }
  }

  lemma SomeMoreOffer(offers: seq<Option<Candidate>>, out: seq<Candidate>, at: seq<nat>, c: Candidate)
    requires OnePer(offers, out, at)
    ensures OnePer(offers + [Some(c)], out + [c], at + [|offers|])
  {
    var all, out', at' := offers + [Some(c)], out + [c], at + [|offers|];
    forall k | 0 <= k < |at'| ensures OfferedHere(all, at'[k], out'[k]) {
      HereOneMore(offers, Some(c), at'[k], out'[k]);
    }
    assert forall k | 0 <= k < |at| :: OfferedHere(offers, at[k], out[k]);
    RisingOneMore(at, |offers|);
    forall j: nat | j < |all| && all[j].Some? ensures j in at' {
      if j == |offers| {
        assert at'[|at|] == j;
      }
    }
  }

  lemma OneMoreOffer(offers: seq<Option<Candidate>>, out: seq<Candidate>, at: seq<nat>, more: Option<Candidate>)
    requires OnePer(offers, out, at)
    ensures OnePer(offers + [more], WithMore(out, more), WithPlace(at, |offers|, more))
  {
    if more.None? {
      NoMoreOffer(offers, out, at);
    } else {
      SomeMoreOffer(offers, out, at, more.value);
    }
  }

  /** A candidate's origin: a pull request of a repo, by their places in the listings. */
  datatype Origin = Origin(repo: nat, pull: nat)

  predicate Before(a: Origin, b: Origin) {
    a.repo < b.repo || (a.repo == b.repo && a.pull < b.pull)
  }

  predicate IsPlace(offers: seq<seq<Option<Candidate>>>, o: Origin) {
    o.repo < |offers| && o.pull < |offers[o.repo]|
  }

  /** The same over the whole fleet. */
  ghost predicate OneEach(offers: seq<seq<Option<Candidate>>>, out: seq<Candidate>, origins: seq<Origin>) {
    && |origins| == |out|
    && (forall k | 0 <= k < |origins| :: OffersThere(offers, origins[k], out[k]))
    && (forall k, l | 0 <= k < l < |origins| :: Before(origins[k], origins[l]))
    && (forall o | IsPlace(offers, o) && offers[o.repo][o.pull].Some? :: o in origins)
  }

  function Places(repo: nat, at: seq<nat>): (r: seq<Origin>)
    ensures |r| == |at| && forall k | 0 <= k < |at| :: r[k] == Origin(repo, at[k])
  {
    seq(|at|, k requires 0 <= k < |at| => Origin(repo, at[k]))
  }

  predicate OffersThere(offers: seq<seq<Option<Candidate>>>, o: Origin, c: Candidate) {
    IsPlace(offers, o) && offers[o.repo][o.pull] == Some(c)
  }

  lemma PlacedInOneMore(offers: seq<seq<Option<Candidate>>>, row: seq<Option<Candidate>>, o: Origin, c: Candidate)
    requires OffersThere(offers, o, c) || (o.repo == |offers| && o.pull < |row| && row[o.pull] == Some(c))
    ensures OffersThere(offers + [row], o, c)
  {
  }

  lemma OfferedInOneMore(offers: seq<seq<Option<Candidate>>>, origins: seq<Origin>, row: seq<Option<Candidate>>,
                         at: seq<nat>, o: Origin)
    requires IsPlace(offers + [row], o) && (offers + [row])[o.repo][o.pull].Some?
    requires forall p | IsPlace(offers, p) && offers[p.repo][p.pull].Some? :: p in origins
    requires forall j: nat | j < |row| && row[j].Some? :: j in at
    ensures o in origins + Places(|offers|, at)
  {
    if o.repo < |offers| {
      assert IsPlace(offers, o);
    } else {
      assert o.pull in at;
      var k :| 0 <= k < |at| && at[k] == o.pull;
      assert (origins + Places(|offers|, at))[|origins| + k] == o;
    }
  }

  /** The origins of one more repo's candidates follow those of the repos before it. */
  lemma OneMoreRepo(offers: seq<seq<Option<Candidate>>>, out: seq<Candidate>, origins: seq<Origin>,
                    row: seq<Option<Candidate>>, more: seq<Candidate>, at: seq<nat>)
    requires OneEach(offers, out, origins) && OnePer(row, more, at)
    ensures OneEach(offers + [row], out + more, origins + Places(|offers|, at))
  {
    var all, longer := offers + [row], origins + Places(|offers|, at);
    forall k | 0 <= k < |longer| ensures OffersThere(all, longer[k], (out + more)[k]) {
      PlacedInOneMore(offers, row, longer[k], (out + more)[k]);
    }
    forall o | IsPlace(all, o) && all[o.repo][o.pull].Some? ensures o in longer {
      OfferedInOneMore(offers, origins, row, at, o);
    }
    assert forall k | 0 <= k < |origins| :: IsPlace(offers, origins[k]);
  }

  /** The memo holds what the first check of each provider said. */
  predicate MemoHolds(loggedIn: map<string, bool>, auth: string -> bool) {
    forall p | p in loggedIn :: loggedIn[p] == auth(p)
  }

  // ----- the producer -----

  /** Fold the forge's and the store's facts; a failed read folds nothing. */
  method FoldPull(repo: Settings, p: Pull) returns (st: Option<PullVerdictState>, live: seq<Comment>)
    ensures st == if FoldReadable(p) then Some(Folded(repo, p)) else None
    ensures FoldReadable(p) ==> live == LiveThread(p.comments.value, p.rearmedAt.value)
  {
    st, live := None, [];
    if p.reviews.None? || p.comments.None? || p.onBranch.None? || p.rearmedAt.None? {
      return;
    }
    live := DropSupersededEscalations(p.comments.value, p.rearmedAt.value);
    var words := VerdictWords(live);
    var escalated := ESCALATE in words;
    if !escalated {
      if p.escalatedRun.None? {
        return;
      }
      escalated := p.escalatedRun.value.Some? && p.escalatedRun.value.value > p.rearmedAt.value;
    }
    var liveReview := LiveReview(p.reviews.value);
    var humanRejected := HumanRejected(p.reviews.value);
    st := Some(PullVerdictState(words, liveReview, humanRejected, escalated, p.onBranch.value, 0, repo.maxFix, 0));
  }

  /** Each count is read only when the permissive zero would act on it. */
  method DecideReadingCounts(folded: PullVerdictState, fix: Option<nat>, escalate: Option<nat>) returns (action: Action)
    requires folded.fixSpawns == folded.escalateSpawns == 0
    ensures action == DecideOnCounts(folded, fix, escalate)
  {
    var st := folded;
    action := DecideAutoland(st);
    if action.Fix? {
      if fix.None? {
        return Nothing;
      }
      st := st.(fixSpawns := fix.value);
      action := DecideAutoland(st);
    }
    if action.Escalate? {
      if escalate.None? {
        return Nothing;
      }
      st := st.(escalateSpawns := escalate.value);
      action := DecideAutoland(st);
    }
  }

  method OfferPull(repo: Settings, p: Pull, auth: string -> bool, memo: map<string, bool>)
    returns (out: Option<Candidate>, loggedIn: map<string, bool>)
    requires MemoHolds(memo, auth)
    ensures out == Offer(repo, p, auth)
    ensures MemoHolds(loggedIn, auth) && forall k | k in memo :: k in loggedIn
  {
    out, loggedIn := None, memo;
    if !p.open || ParseBranch(repo.pattern, p.head).None? {
      return;
    }
    var st, live := FoldPull(repo, p);
    if st.None? {
      return;
    }
    var action := DecideReadingCounts(st.value, p.fixAttempts, p.escalateAttempts);
    if action.Nothing? {
      return;
    }
    var provider := ProviderFor(repo, action);
    if provider.None? {
      return;
    }
    if provider.value !in loggedIn {
      loggedIn := loggedIn[provider.value := auth(provider.value)];
    }
    if !loggedIn[provider.value] {
      return;
    }
    var workOrder := "";
    if action.Fix? {
      workOrder := RejectionContext(live, p.reviews.value);
    }
    out := Some(Candidate(action, p.number, p.head, ParseBranch(repo.pattern, p.head).value, workOrder));
  }

  /** One polled repo: each pull request is offered at most one run, and failed reads skip it alone. */
  method RepoCandidates(r: Repo, liveCount: int, auth: string -> bool, memo: map<string, bool>)
    returns (out: seq<Candidate>, loggedIn: map<string, bool>, ghost at: seq<nat>)
    requires MemoHolds(memo, auth) && Polls(r, liveCount)
    ensures OnePer(Offers(r, liveCount, auth), out, at)
    ensures forall k | 0 <= k < |out| ::
              at[k] < |r.pulls.value| && Sound(r.reread.value, r.pulls.value[at[k]], auth, out[k])
    ensures MemoHolds(loggedIn, auth)
  {
    var pulls := r.pulls.value;
    out, loggedIn, at := [], memo, [];
    for j := 0 to |pulls|
      invariant OnePer(OffersUpTo(r, auth, j), out, at)
      invariant MemoHolds(loggedIn, auth)
    {
      var offered;
      offered, loggedIn := OfferPull(r.reread.value, pulls[j], auth, loggedIn);
      OneMoreOffer(OffersUpTo(r, auth, j), out, at, offered);
      assert OffersUpTo(r, auth, j + 1) == OffersUpTo(r, auth, j) + [offered];
      out, at := WithMore(out, offered), WithPlace(at, j, offered);
    }
    assert OffersUpTo(r, auth, |pulls|) == Offers(r, liveCount, auth);
    RepoIsSound(r, liveCount, auth, out, at);
  }

  lemma RepoIsSound(r: Repo, liveCount: int, auth: string -> bool, out: seq<Candidate>, at: seq<nat>)
    requires Polls(r, liveCount) && OnePer(Offers(r, liveCount, auth), out, at)
    ensures forall k | 0 <= k < |out| ::
              at[k] < |r.pulls.value| && Sound(r.reread.value, r.pulls.value[at[k]], auth, out[k])
  {
    forall k | 0 <= k < |out|
      ensures at[k] < |r.pulls.value| && Sound(r.reread.value, r.pulls.value[at[k]], auth, out[k])
    {
      assert OfferedHere(Offers(r, liveCount, auth), at[k], out[k]);
      OfferIsSound(r.reread.value, r.pulls.value[at[k]], auth, out[k]);
    }
  }

  /** The place is a pull request of a polled repo, and the candidate keeps an offer's promises there. */
  ghost predicate SoundAt(repos: seq<Repo>, liveCount: int, auth: string -> bool, o: Origin, c: Candidate) {
    && o.repo < |repos| && Polls(repos[o.repo], liveCount) && o.pull < |repos[o.repo].pulls.value|
    && Sound(repos[o.repo].reread.value, repos[o.repo].pulls.value[o.pull], auth, c)
  }

  /**
   * The whole gather: every candidate comes from its own pull request of a repo that may spawn and
   * keeps an offer's promises; every pull request that can be offered a run is; in listing order.
   */
  method AutolandCandidates(repos: seq<Repo>, liveCount: int, auth: string -> bool, memo: map<string, bool>)
    returns (out: seq<Candidate>, loggedIn: map<string, bool>, ghost origins: seq<Origin>)
    requires MemoHolds(memo, auth)
    ensures OneEach(FleetOffers(repos, liveCount, auth), out, origins)
    ensures forall k | 0 <= k < |out| :: SoundAt(repos, liveCount, auth, origins[k], out[k])
    ensures forall o, action :: DueAt(repos, liveCount, auth, o, action) <==> TakenAt(out, origins, o, action)
    ensures MemoHolds(loggedIn, auth)
  {
    ghost var offers := FleetOffers(repos, liveCount, auth);
    out, loggedIn, origins := [], memo, [];
    for i := 0 to |repos|
      invariant OneEach(offers[..i], out, origins)
      invariant forall k | 0 <= k < |out| :: SoundAt(repos, liveCount, auth, origins[k], out[k])
      invariant MemoHolds(loggedIn, auth)
    {
      var offered: seq<Candidate> := [];
      ghost var at: seq<nat> := [];
      if Polls(repos[i], liveCount) {
        offered, loggedIn, at := RepoCandidates(repos[i], liveCount, auth, loggedIn);
      }
      assert offers[..i + 1] == offers[..i] + [Offers(repos[i], liveCount, auth)];
      OneMoreRepo(offers[..i], out, origins, Offers(repos[i], liveCount, auth), offered, at);
      SoundlyMore(repos, liveCount, auth, out, origins, i, offered, at);
      out, origins := out + offered, origins + Places(i, at);
    }
    assert offers[..|repos|] == offers;
    forall o, action ensures DueAt(repos, liveCount, auth, o, action) <==> TakenAt(out, origins, o, action) {
      TakenIffDue(repos, liveCount, auth, out, origins, o, action);
    }
  }

  lemma SoundlyMore(repos: seq<Repo>, liveCount: int, auth: string -> bool, out: seq<Candidate>, origins: seq<Origin>,
                    i: nat, offered: seq<Candidate>, at: seq<nat>)
    requires |out| == |origins| && |offered| == |at|
    requires forall k | 0 <= k < |out| :: SoundAt(repos, liveCount, auth, origins[k], out[k])
    requires forall k | 0 <= k < |offered| :: SoundAt(repos, liveCount, auth, Origin(i, at[k]), offered[k])
    ensures forall k | 0 <= k < |out + offered| ::
              SoundAt(repos, liveCount, auth, (origins + Places(i, at))[k], (out + offered)[k])
  {
    HoldsOfMore((o: Origin, c: Candidate) => SoundAt(repos, liveCount, auth, o, c), out, origins, i, offered, at);
  }

  lemma HoldsOfMore(holds: (Origin, Candidate) -> bool, out: seq<Candidate>, origins: seq<Origin>,
                    i: nat, offered: seq<Candidate>, at: seq<nat>)
    requires |out| == |origins| && |offered| == |at|
    requires forall k | 0 <= k < |out| :: holds(origins[k], out[k])
    requires forall k | 0 <= k < |offered| :: holds(Origin(i, at[k]), offered[k])
    ensures forall k | 0 <= k < |out + offered| :: holds((origins + Places(i, at))[k], (out + offered)[k])
  {
    var all, from := out + offered, origins + Places(i, at);
    forall k | 0 <= k < |all| ensures holds(from[k], all[k]) {
      if k >= |out| {
        assert all[k] == offered[k - |out|] && from[k] == Origin(i, at[k - |out|]);
      }
    }
  }

  // ----- which runs are due -----

  /** Whatever the counts that could not be read are, the decision on the pull request's facts is the action. */
  ghost predicate DecidesSurely(s: Settings, p: Pull, action: Action) {
    && p.reviews.Some? && p.comments.Some? && p.onBranch.Some? && p.rearmedAt.Some? && p.escalatedRun.Some?
    && forall fix: nat, escalate: nat
         | (p.fixAttempts.Some? ==> fix == p.fixAttempts.value)
           && (p.escalateAttempts.Some? ==> escalate == p.escalateAttempts.value) ::
         DecideAutoland(Polled(p.comments.value, p.reviews.value, p.rearmedAt.value, p.escalatedRun.value,
                               p.onBranch.value, fix, s.maxFix, escalate)) == action
  }

  /**
   * A run is due: the repo opted in, is bound to a forge and cloned, in the listing and in the row
   * read again, is not paused and has room; the pull request is an open claim the facts decide on;
   * and the run's own provider is logged in, the AFK chain's for a fix, else the lander chain's.
   */
  ghost predicate Due(r: Repo, p: Pull, liveCount: int, auth: string -> bool, action: Action) {
    && r.listed.autoland && r.listed.forge && r.listed.ready && r.reread.Some?
    && var s := r.reread.value;
       && s.autoland && s.forge && s.ready && s.failures < 3 && liveCount < s.cap
       && p.open && ParseBranch(s.pattern, p.head).Some?
       && !action.Nothing? && DecidesSurely(s, p, action)
       && var provider := if action.Fix? then s.fixProvider else s.landerProvider;
          provider.Some? && auth(provider.value)
  }

  ghost predicate DueAt(repos: seq<Repo>, liveCount: int, auth: string -> bool, o: Origin, action: Action) {
    && o.repo < |repos| && repos[o.repo].pulls.Some? && o.pull < |repos[o.repo].pulls.value|
    && Due(repos[o.repo], repos[o.repo].pulls.value[o.pull], liveCount, auth, action)
  }

  /** Some candidate of that origin is of that action. */
  ghost predicate TakenAt(out: seq<Candidate>, origins: seq<Origin>, o: Origin, action: Action) {
    exists k :: 0 <= k < |out| && k < |origins| && origins[k] == o && out[k].action == action
  }

  /** The gather's lazy reads decide to spawn exactly when no value of an unread count could change the decision. */
  lemma DecidedIffSure(s: Settings, p: Pull, action: Action)
    requires !action.Nothing?
    ensures Decided(s, p) == action <==>
            p.open && ParseBranch(s.pattern, p.head).Some? && DecidesSurely(s, p, action)
  {
    if DecidesSurely(s, p, action) {
      SureFillings(s, p, action);
    }
    if Decided(s, p) == action {
      forall fix: nat, escalate: nat
        | (p.fixAttempts.Some? ==> fix == p.fixAttempts.value)
          && (p.escalateAttempts.Some? ==> escalate == p.escalateAttempts.value)
        ensures DecideAutoland(Folded(s, p).(fixSpawns := fix, escalateSpawns := escalate)) == action
      {
        UnreadCountsDoNotMatter(Folded(s, p), p.fixAttempts, p.escalateAttempts, fix, escalate);
      }
    }
  }

  lemma UnreadCountsDoNotMatter(st: PullVerdictState, fix: Option<nat>, escalate: Option<nat>, f: nat, e: nat)
    requires st.fixSpawns == st.escalateSpawns == 0 && !DecideOnCounts(st, fix, escalate).Nothing?
    requires (fix.Some? ==> f == fix.value) && (escalate.Some? ==> e == escalate.value)
    ensures DecideAutoland(st.(fixSpawns := f, escalateSpawns := e)) == DecideOnCounts(st, fix, escalate)
  {
  }

  lemma SureAt(s: Settings, p: Pull, action: Action, fix: nat, escalate: nat)
    requires DecidesSurely(s, p, action)
    requires p.fixAttempts.Some? ==> fix == p.fixAttempts.value
    requires p.escalateAttempts.Some? ==> escalate == p.escalateAttempts.value
    ensures DecideAutoland(Folded(s, p).(fixSpawns := fix, escalateSpawns := escalate)) == action
  {
    assert DecideAutoland(Polled(p.comments.value, p.reviews.value, p.rearmedAt.value, p.escalatedRun.value,
                                 p.onBranch.value, fix, s.maxFix, escalate)) == action;
  }

  /** The fillings that matter: what was read, or nothing spent, or everything. */
  lemma SureFillings(s: Settings, p: Pull, action: Action)
    requires !action.Nothing? && DecidesSurely(s, p, action)
    ensures FoldReadable(p) && DecideOnCounts(Folded(s, p), p.fixAttempts, p.escalateAttempts) == action
  {
    var spent: nat := if s.maxFix > 0 then s.maxFix else 0;
    var (fix, spentFix) := if p.fixAttempts.Some? then (p.fixAttempts.value, p.fixAttempts.value) else (0, spent);
    var (escalate, spentEscalate) := if p.escalateAttempts.Some?
                                     then (p.escalateAttempts.value, p.escalateAttempts.value)
                                     else (0, MAX_ESCALATE_ATTEMPTS);
    SureAt(s, p, action, fix, escalate);
    SureAt(s, p, action, spentFix, escalate);
    SureAt(s, p, action, fix, spentEscalate);
    SureAt(s, p, action, spentFix, spentEscalate);
    SureCounts(Folded(s, p), p.fixAttempts, p.escalateAttempts, action, spentFix, spentEscalate);
  }

  lemma SureCounts(st: PullVerdictState, fix: Option<nat>, escalate: Option<nat>, action: Action,
                   spentFix: nat, spentEscalate: nat)
    requires !action.Nothing? && st.fixSpawns == st.escalateSpawns == 0
    requires if fix.Some? then spentFix == fix.value else spentFix >= st.maxFixAttempts
    requires if escalate.Some? then spentEscalate == escalate.value else spentEscalate >= MAX_ESCALATE_ATTEMPTS
    requires forall f: nat, e: nat
               | f in {if fix.Some? then fix.value else 0, spentFix}
                 && e in {if escalate.Some? then escalate.value else 0, spentEscalate} ::
               DecideAutoland(st.(fixSpawns := f, escalateSpawns := e)) == action
    ensures DecideOnCounts(st, fix, escalate) == action
  {
    var (f, e) := (if fix.Some? then fix.value else 0, if escalate.Some? then escalate.value else 0);
    assert DecideAutoland(st.(fixSpawns := f, escalateSpawns := e)) == action;
    assert DecideAutoland(st.(fixSpawns := spentFix, escalateSpawns := e)) == action;
    assert DecideAutoland(st.(fixSpawns := f, escalateSpawns := spentEscalate)) == action;
    assert DecideAutoland(st.(fixSpawns := spentFix, escalateSpawns := spentEscalate)) == action;
  }

  lemma OfferedIffDue(r: Repo, p: Pull, liveCount: int, auth: string -> bool, action: Action)
    requires r.pulls.Some? && !action.Nothing?
    ensures Polls(r, liveCount) && Offer(r.reread.value, p, auth).Some?
            && Offer(r.reread.value, p, auth).value.action == action <==>
            Due(r, p, liveCount, auth, action)
  {
    if r.reread.Some? {
      DecidedIffSure(r.reread.value, p, action);
    }
  }

  lemma TakenIffDue(repos: seq<Repo>, liveCount: int, auth: string -> bool, out: seq<Candidate>, origins: seq<Origin>,
                    o: Origin, action: Action)
    requires OneEach(FleetOffers(repos, liveCount, auth), out, origins)
    ensures DueAt(repos, liveCount, auth, o, action) <==> TakenAt(out, origins, o, action)
  {
    var offers := FleetOffers(repos, liveCount, auth);
    if TakenAt(out, origins, o, action) {
      var k :| 0 <= k < |out| && k < |origins| && origins[k] == o && out[k].action == action;
      assert OffersThere(offers, origins[k], out[k]);
      var r := repos[o.repo];
      OfferedIffDue(r, r.pulls.value[o.pull], liveCount, auth, action);
    }
    if DueAt(repos, liveCount, auth, o, action) {
      var r := repos[o.repo];
      OfferedIffDue(r, r.pulls.value[o.pull], liveCount, auth, action);
      assert IsPlace(offers, o) && offers[o.repo][o.pull].Some?;
      var k :| 0 <= k < |origins| && origins[k] == o;
      assert OffersThere(offers, origins[k], out[k]);
    }
  }

  // ----- what an offer promises -----

  /** With every fact readable, reading the counts lazily decides what reading them up front decides. */
  lemma ReadableFactsDecide(repo: Settings, p: Pull)
    requires p.open && ParseBranch(repo.pattern, p.head).Some?
    requires p.reviews.Some? && p.comments.Some? && p.onBranch.Some? && p.rearmedAt.Some? && p.escalatedRun.Some?
    requires p.fixAttempts.Some? && p.escalateAttempts.Some?
    ensures Decided(repo, p)
            == DecideAutoland(Polled(p.comments.value, p.reviews.value, p.rearmedAt.value, p.escalatedRun.value,
                                     p.onBranch.value, p.fixAttempts.value, repo.maxFix, p.escalateAttempts.value))
  {
  }

  /** The state a decision was made on, counts included. */
  ghost function Judged(repo: Settings, p: Pull): PullVerdictState
    requires FoldReadable(p)
  {
    Folded(repo, p).(fixSpawns := if p.fixAttempts.Some? then p.fixAttempts.value else 0,
                     escalateSpawns := if p.escalateAttempts.Some? then p.escalateAttempts.value else 0)
  }

  /** Whatever could not be read, a decision to spawn is the decision on some full reading. */
  lemma DecidedOnSomeReading(repo: Settings, p: Pull)
    requires !Decided(repo, p).Nothing?
    ensures FoldReadable(p) && Decided(repo, p) == DecideAutoland(Judged(repo, p))
  {
  }

  /**
   * What a candidate promises of its pull request: an open claim of the candidate's issue with its
   * branch idle, no escalation standing and its provider logged in; a run that is not done at birth;
   * and, for a fix run, a work order that is empty only when no live rejection has prose.
   */
  ghost predicate Sound(repo: Settings, p: Pull, auth: string -> bool, c: Candidate) {
    && FoldReadable(p) && p.open && !p.onBranch.value
    && ESCALATE !in Words(LiveThread(p.comments.value, p.rearmedAt.value))
    && p.escalatedRun.Some? && (p.escalatedRun.value.Some? ==> p.escalatedRun.value.value <= p.rearmedAt.value)
    && c.pull == p.number && c.head == p.head == RenderBranch(repo.pattern, c.issue)
    && !c.action.Nothing? && c.action == DecideAutoland(Judged(repo, p))
    && ProviderFor(repo, c.action).Some? && auth(ProviderFor(repo, c.action).value)
    && (c.action.Lander? ==> !LanderDone(Open, true, Words(p.comments.value)))
    && (c.action.Fix? ==> !FixDone(Open, true, Words(p.comments.value)))
    && (c.action.Escalate? ==>
          (EscalateDelivered(Open, true, Words(p.comments.value)).0
           <==> EndsSuperseded(p.comments.value, p.rearmedAt.value)))
    && (c.action.Fix? ==>
          (c.workOrder != "" <==> SomethingToFix(LiveThread(p.comments.value, p.rearmedAt.value), p.reviews.value)))
  }

  lemma OfferIsSound(repo: Settings, p: Pull, auth: string -> bool, c: Candidate)
    requires Offer(repo, p, auth) == Some(c)
    ensures Sound(repo, p, auth, c)
  {
    DecidedOnSomeReading(repo, p);
    var st := Judged(repo, p);
    var run := if p.escalatedRun.Some? then p.escalatedRun.value else None;
    NotDoneAtBirth(p.comments.value, p.reviews.value, p.rearmedAt.value, run, p.onBranch.value,
                   st.fixSpawns, repo.maxFix, st.escalateSpawns);
    if Decided(repo, p).Escalate? {
      EscalateDoneAtBirth(p.comments.value, p.reviews.value, p.rearmedAt.value, run, p.onBranch.value,
                          st.fixSpawns, repo.maxFix, st.escalateSpawns);
    }
    WorkOrderEmpty(LiveThread(p.comments.value, p.rearmedAt.value), p.reviews.value);
    OfferedBranch(repo, p);
  }

  lemma OfferedBranch(repo: Settings, p: Pull)
    requires ParseBranch(repo.pattern, p.head).Some?
    ensures p.head == RenderBranch(repo.pattern, ParseBranch(repo.pattern, p.head).value)
  {
  }
}
