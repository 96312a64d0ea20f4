/**
 * The autoland verdict folds: marker words of a comment thread, native reviews, the
 * per-PR decision, the done-signals the reaper reads, and a fix run's work order.
 */
module Verdicts {
  import opened Text

  // ----- marker words -----

  const MARKER_PREFIX := "[autoland] verdict:"
  const PASS := "pass"
  const REJECT := "reject"
  const FIX_DONE := "fix-done"
  const ESCALATE := "escalate"

  /** A comment as the folds read it: its marker word, the text below its first line, its instant. */
  datatype Comment = Comment(word: Option<string>, prose: string, createdAt: int)

  function ReadComment(body: string, createdAt: int): Comment {
    Comment(ParseVerdict(body), BelowFirstLine(body), createdAt)
  }

  function FirstLine(body: string): string {
    match Cut(body, "\n")
    case NotFound => body
    case Found(first, _) => first
  }

  /** The body below its first line. */
  function BelowFirstLine(body: string): string {
    match Cut(body, "\n")
    case NotFound => ""
    case Found(_, rest) => rest
  }

  /** tracker.ParseVerdict: the first line must open with the marker; its trimmed remainder is the word. */
  function ParseVerdict(body: string): Option<string> {
    var first := FirstLine(body);
    if MARKER_PREFIX <= first then Some(TrimSpace(first[|MARKER_PREFIX|..])) else None
  }

  predicate IsKnown(word: string) {
    word == PASS || word == REJECT || word == FIX_DONE || word == ESCALATE
  }

  /** The words of a thread, oldest first. */
  function Words(thread: seq<Comment>): seq<string> {
    if thread == [] then []
    else
      var last := thread[|thread| - 1];
      Words(thread[..|thread| - 1]) + match last.word case None => [] case Some(w) => [w]
  }

  method VerdictWords(thread: seq<Comment>) returns (words: seq<string>)
    ensures words == Words(thread)
  {
    words := [];
    for i := 0 to |thread|
      invariant words == Words(thread[..i])
    {
      assert thread[..i + 1][..i] == thread[..i];
      var w := thread[i].word;
      if w.Some? {
        words := words + [w.value];
      }
    }
    assert thread[..|thread|] == thread;
  }

  /** The newest known word, "" when there is none. */
  function LastKnown(words: seq<string>): string {
    if words == [] then ""
    else if IsKnown(words[|words| - 1]) then words[|words| - 1]
    else LastKnown(words[..|words| - 1])
  }

  method LastVerdictWord(words: seq<string>) returns (word: string)
    ensures word == LastKnown(words)
    ensures word == "" ==> forall i | 0 <= i < |words| :: !IsKnown(words[i])
    ensures word != "" ==> exists i | 0 <= i < |words| ::
                             words[i] == word && IsKnown(word) && forall j | i < j < |words| :: !IsKnown(words[j])
  {
    assert words[..|words|] == words;
    var i := |words|;
    while i > 0
      invariant 0 <= i <= |words|
      invariant LastKnown(words) == LastKnown(words[..i])
      invariant forall j | i <= j < |words| :: !IsKnown(words[j])
    {
      i := i - 1;
      assert words[..i + 1][..i] == words[..i];
      if IsKnown(words[i]) {
        return words[i];
      }
    }
    return "";
  }

  // ----- supersession -----

  predicate Superseded(c: Comment, rearmedAt: int) {
    c.word == Some(ESCALATE) && c.createdAt <= rearmedAt
  }

  /** The thread without the escalations the last re-arm superseded. */
  function LiveThread(thread: seq<Comment>, rearmedAt: int): seq<Comment> {
    if thread == [] then []
    else
      var last := thread[|thread| - 1];
      LiveThread(thread[..|thread| - 1], rearmedAt) + if Superseded(last, rearmedAt) then [] else [last]
  }

  method DropSupersededEscalations(thread: seq<Comment>, rearmedAt: int) returns (live: seq<Comment>)
    ensures live == LiveThread(thread, rearmedAt)
  {
    live := [];
    for i := 0 to |thread|
      invariant live == LiveThread(thread[..i], rearmedAt)
    {
      assert thread[..i + 1][..i] == thread[..i];
      if !Superseded(thread[i], rearmedAt) {
        live := live + [thread[i]];
      }
    }
    assert thread[..|thread|] == thread;
  }

  lemma WordsOfAppend(thread: seq<Comment>, c: Comment)
    ensures Words(thread + [c]) == Words(thread) + match c.word case None => [] case Some(w) => [w]
  {
    assert (thread + [c])[..|thread|] == thread;
  }

  lemma LastKnownOfAppend(words: seq<string>, w: string)
    ensures LastKnown(words + [w]) == if IsKnown(w) then w else LastKnown(words)
  {
    assert (words + [w])[..|words|] == words;
  }

  /** One more comment moves the newest known word exactly when its own word is known. */
  lemma LastKnownOfThread(thread: seq<Comment>, c: Comment)
    ensures LastKnown(Words(thread + [c])) == if HasKnownWord(c) then c.word.value else LastKnown(Words(thread))
  {
    WordsOfAppend(thread, c);
    var w := c.word;
    if w.Some? {
      LastKnownOfAppend(Words(thread), w.value);
    } else {
      assert Words(thread + [c]) == Words(thread);
    }
  }

  predicate HasKnownWord(c: Comment) {
    var w := c.word;
    w.Some? && IsKnown(w.value)
  }

  /** The newest comment with a known word is an escalation the last re-arm superseded. */
  ghost predicate EndsSuperseded(thread: seq<Comment>, rearmedAt: int) {
    exists i | 0 <= i < |thread| ::
      Superseded(thread[i], rearmedAt) && forall j | i < j < |thread| :: !HasKnownWord(thread[j])
  }

  lemma EndsSupersededOfAppend(thread: seq<Comment>, c: Comment, rearmedAt: int)
    ensures EndsSuperseded(thread + [c], rearmedAt) <==>
            Superseded(c, rearmedAt) || (!HasKnownWord(c) && EndsSuperseded(thread, rearmedAt))
  {
    var all := thread + [c];
    if Superseded(c, rearmedAt) {
      assert Superseded(all[|thread|], rearmedAt);
    } else if !HasKnownWord(c) && EndsSuperseded(thread, rearmedAt) {
      var i :| 0 <= i < |thread| && Superseded(thread[i], rearmedAt)
               && forall j | i < j < |thread| :: !HasKnownWord(thread[j]);
      assert Superseded(all[i], rearmedAt);
    }
    if EndsSuperseded(all, rearmedAt) && !Superseded(c, rearmedAt) {
      var i :| 0 <= i < |all| && Superseded(all[i], rearmedAt) && forall j | i < j < |all| :: !HasKnownWord(all[j]);
      assert i < |thread| && !HasKnownWord(all[|thread|]);
      assert Superseded(thread[i], rearmedAt);
      assert forall j | i < j < |thread| :: thread[j] == all[j];
    }
  }

  /**
   * Filtering hides the newest known word exactly when a superseded escalation carries it, and
   * then the raw thread reads escalate.
   */
  lemma {:induction false} LastKnownOfLiveThread(thread: seq<Comment>, rearmedAt: int)
    ensures EndsSuperseded(thread, rearmedAt) ==> LastKnown(Words(thread)) == ESCALATE
    ensures !EndsSuperseded(thread, rearmedAt) ==>
              LastKnown(Words(thread)) == LastKnown(Words(LiveThread(thread, rearmedAt)))
  {
    if thread != [] {
      var front, last := thread[..|thread| - 1], thread[|thread| - 1];
      assert thread == front + [last];
      LastKnownOfLiveThread(front, rearmedAt);
      EndsSupersededOfAppend(front, last, rearmedAt);
      LastKnownOfThread(front, last);
      if !Superseded(last, rearmedAt) {
        LastKnownOfThread(LiveThread(front, rearmedAt), last);
      }
    }
  }

  lemma LiveThreadOfAppend(thread: seq<Comment>, c: Comment, rearmedAt: int)
    ensures LiveThread(thread + [c], rearmedAt)
            == LiveThread(thread, rearmedAt) + if Superseded(c, rearmedAt) then [] else [c]
  {
    assert (thread + [c])[..|thread|] == thread;
  }

  /** Some comment carries an escalation marker from after the re-arm instant. */
  predicate EscalatesAfter(thread: seq<Comment>, rearmedAt: int) {
    exists i | 0 <= i < |thread| :: thread[i].word == Some("escalate") && thread[i].createdAt > rearmedAt
  }

  lemma EscalatesAfterAppend(front: seq<Comment>, last: Comment, rearmedAt: int)
    ensures EscalatesAfter(front + [last], rearmedAt) <==>
            EscalatesAfter(front, rearmedAt) || (last.word == Some("escalate") && last.createdAt > rearmedAt)
  {
    var all := front + [last];
    assert all[|front|] == last;
    if EscalatesAfter(front, rearmedAt) {
      var i :| 0 <= i < |front| && front[i].word == Some("escalate") && front[i].createdAt > rearmedAt;
      assert all[i] == front[i];
    }
  }

  lemma EscalatesInWordsAppend(live: seq<Comment>, last: Comment)
    ensures "escalate" in Words(live + [last]) <==> "escalate" in Words(live) || last.word == Some("escalate")
  {
    WordsOfAppend(live, last);
    if last.word.Some? {
      assert (Words(live) + [last.word.value])[|Words(live)|] == last.word.value;
    }
  }

  /** An escalation is live exactly when some comment carries it from after the re-arm instant. */
  lemma {:induction false} EscalationIsLiveIff(thread: seq<Comment>, rearmedAt: int)
    ensures "escalate" in Words(LiveThread(thread, rearmedAt)) <==> EscalatesAfter(thread, rearmedAt)
  {
    if thread != [] {
      var front, last := thread[..|thread| - 1], thread[|thread| - 1];
      assert thread == front + [last];
      EscalationIsLiveIff(front, rearmedAt);
      LiveThreadOfAppend(front, last, rearmedAt);
      EscalatesAfterAppend(front, last, rearmedAt);
      var live := LiveThread(front, rearmedAt);
      EscalatesInWordsAppend(live, last);
      assert LiveThread(thread, rearmedAt) == if Superseded(last, rearmedAt) then live else live + [last];
    }
  }

  /** A never re-armed thread loses nothing. */
  lemma {:induction false} NeverRearmed(thread: seq<Comment>, rearmedAt: int)
    requires forall i | 0 <= i < |thread| :: thread[i].createdAt > rearmedAt
    ensures LiveThread(thread, rearmedAt) == thread
  {
    if thread != [] {
      var front, last := thread[..|thread| - 1], thread[|thread| - 1];
      NeverRearmed(front, rearmedAt);
      calc {
        LiveThread(thread, rearmedAt);
        LiveThread(front, rearmedAt) + [last];
        front + [last];
        thread;
      }
    }
  }

  // ----- reviews -----

  datatype ReviewState = Approved | ChangesRequested | OtherState

  datatype Review = Review(reviewer: string, state: ReviewState, dismissed: bool, body: string)

  /** A row that carries a verdict someone still stands by. */
  predicate Binding(r: Review) {
    r.reviewer != "" && !r.dismissed && (r.state.Approved? || r.state.ChangesRequested?)
  }

  /** A reviewer's latest live verdict, reviews oldest first. */
  function Latest(reviews: seq<Review>, login: string): (r: Option<Review>)
    ensures r.Some? ==> Binding(r.value) && r.value.reviewer == login
  {
    if reviews == [] then None
    else
      var last := reviews[|reviews| - 1];
      if Binding(last) && last.reviewer == login then Some(last) else Latest(reviews[..|reviews| - 1], login)
  }

  /** The reviewer still requests changes. */
  predicate Stands(reviews: seq<Review>, login: string) {
    var r := Latest(reviews, login);
    r.Some? && r.value.state.ChangesRequested?
  }

  ghost predicate HumanRejects(reviews: seq<Review>) {
    exists login :: Stands(reviews, login)
  }

  /** Any review that was not dismissed. */
  predicate IsLiveReview(reviews: seq<Review>) {
    exists i | 0 <= i < |reviews| :: !reviews[i].dismissed
  }

  method LiveReview(reviews: seq<Review>) returns (live: bool)
    ensures live <==> IsLiveReview(reviews)
  {
    for i := 0 to |reviews|
      invariant forall j | 0 <= j < i :: reviews[j].dismissed
    {
      if !reviews[i].dismissed {
        return true;
      }
    }
    return false;
  }

  /** The map both review folds build: each reviewer's latest live verdict. */
  ghost predicate FoldsLatest(latest: map<string, Review>, reviews: seq<Review>) {
    forall login ::
      if login in latest then Latest(reviews, login) == Some(latest[login]) else Latest(reviews, login).None?
  }

  lemma LatestOfAppend(reviews: seq<Review>, r: Review)
    ensures forall login :: Latest(reviews + [r], login) ==
              if Binding(r) && r.reviewer == login then Some(r) else Latest(reviews, login)
  {
    assert (reviews + [r])[..|reviews|] == reviews;
  }

  /** Row i is its reviewer's newest verdict: only comments, dismissed rows and other people's follow it. */
  predicate IsNewestVerdict(reviews: seq<Review>, i: nat) {
    && i < |reviews| && reviews[i].reviewer != "" && !reviews[i].dismissed && !reviews[i].state.OtherState?
    && forall j | i < j < |reviews| && reviews[j].reviewer == reviews[i].reviewer ::
         reviews[j].dismissed || reviews[j].state.OtherState?
  }

  /** The fold finds a reviewer's newest verdict by its place among the rows. */
  lemma {:induction false} LatestIsNewestVerdict(reviews: seq<Review>, login: string, r: Review)
    ensures Latest(reviews, login) == Some(r) <==>
            exists i: nat :: IsNewestVerdict(reviews, i) && reviews[i] == r && r.reviewer == login
  {
    if reviews != [] {
      var front, last := reviews[..|reviews| - 1], reviews[|reviews| - 1];
      assert reviews == front + [last];
      LatestIsNewestVerdict(front, login, r);
      if last.reviewer == login && login != "" && !last.dismissed && !last.state.OtherState? {
        assert IsNewestVerdict(reviews, |front|);
      } else {
        forall i: nat | i < |front| && front[i].reviewer == login
          ensures IsNewestVerdict(reviews, i) <==> IsNewestVerdict(front, i)
        {
          assert reviews[i] == front[i];
        }
        assert !(IsNewestVerdict(reviews, |front|) && last.reviewer == login);
      }
    }
  }

  /** Someone's newest verdict requests changes: a later comment neither sets nor clears it. */
  ghost predicate SomeRowRejects(reviews: seq<Review>) {
    exists i: nat :: IsNewestVerdict(reviews, i) && reviews[i].state.ChangesRequested?
  }

  lemma RejectsByRows(reviews: seq<Review>)
    ensures HumanRejects(reviews) <==> SomeRowRejects(reviews)
  {
    if login :| Stands(reviews, login) {
      LatestIsNewestVerdict(reviews, login, Latest(reviews, login).value);
    }
    if i: nat :| IsNewestVerdict(reviews, i) && reviews[i].state.ChangesRequested? {
      LatestIsNewestVerdict(reviews, reviews[i].reviewer, reviews[i]);
      assert Stands(reviews, reviews[i].reviewer);
    }
  }

  method HumanRejected(reviews: seq<Review>) returns (rejected: bool)
    ensures rejected <==> HumanRejects(reviews)
    ensures rejected <==> SomeRowRejects(reviews)
  {
    RejectsByRows(reviews);
    var latest: map<string, Review> := map[];
    for i := 0 to |reviews|
      invariant FoldsLatest(latest, reviews[..i])
    {
      assert reviews[..i + 1] == reviews[..i] + [reviews[i]];
      LatestOfAppend(reviews[..i], reviews[i]);
      if Binding(reviews[i]) {
        latest := latest[reviews[i].reviewer := reviews[i]];
      }
    }
    assert reviews[..|reviews|] == reviews;
    var rest := latest.Keys;
    while rest != {}
      invariant rest <= latest.Keys
      invariant forall login | login in latest && login !in rest :: !Stands(reviews, login)
      decreases rest
    {
      var login :| login in rest;
      if latest[login].state.ChangesRequested? {
        assert Stands(reviews, login);
        return true;
      }
      rest := rest - {login};
    }
    return false;
  }

  // ----- the decision -----

  const MAX_ESCALATE_ATTEMPTS := 3

  datatype PullVerdictState = PullVerdictState(
    words: seq<string>, liveReview: bool, humanRejected: bool, escalated: bool, runOnBranch: bool,
    fixSpawns: nat, maxFixAttempts: int, escalateSpawns: nat)

  datatype Action = Nothing | Lander(approveOnly: bool) | Fix | Escalate

  function DecideAutoland(st: PullVerdictState): Action {
    if st.escalated then Nothing
    else if st.runOnBranch then Nothing
    else if st.words == [] && !st.liveReview then Lander(false)
    else
      var last := LastKnown(st.words);
      if last == FIX_DONE then Lander(st.humanRejected)
      else if last == REJECT || st.humanRejected then
        if st.fixSpawns < st.maxFixAttempts then Fix
        else if st.escalateSpawns < MAX_ESCALATE_ATTEMPTS then Escalate
        else Nothing
      else Nothing
  }

  /**
   * When each run is asked for. A pull request nobody judged gets a lander; a finished repair gets
   * one that validates it, and only approves where someone still requests changes; a rejection, by
   * the lander's newest word or a reviewer, gets a fix while one is left and else an escalation
   * while fewer than three were made. An active run on the branch and an escalation allow nothing.
   */
  lemma DecisionTable(st: PullVerdictState)
    ensures var newest, action := LastKnown(st.words), DecideAutoland(st);
            var quiet, judged := !st.escalated && !st.runOnBranch, st.words != [] || st.liveReview;
            var rejected := judged && newest != "fix-done" && (newest == "reject" || st.humanRejected);
            && (action == Lander(false) <==> quiet && (!judged || (newest == "fix-done" && !st.humanRejected)))
            && (action == Lander(true) <==> quiet && judged && newest == "fix-done" && st.humanRejected)
            && (action == Fix <==> quiet && rejected && st.fixSpawns < st.maxFixAttempts)
            && (action == Escalate <==>
                  quiet && rejected && st.fixSpawns >= st.maxFixAttempts && st.escalateSpawns < 3)
  {
  }

  /** The gather's lazy order: each count is read only when the permissive zero would act on it. */
  function DecideLazily(st: PullVerdictState, fixCount: nat, escalateCount: nat): Action {
    var st0 := st.(fixSpawns := 0, escalateSpawns := 0);
    var action0 := DecideAutoland(st0);
    var st1 := if action0.Fix? then st0.(fixSpawns := fixCount) else st0;
    var action1 := if action0.Fix? then DecideAutoland(st1) else action0;
    if action1.Escalate? then DecideAutoland(st1.(escalateSpawns := escalateCount)) else action1
  }

  /** Reading the counts lazily decides what reading both up front decides. */
  lemma LazyCountsDecideAlike(st: PullVerdictState, fixCount: nat, escalateCount: nat)
    ensures DecideLazily(st, fixCount, escalateCount)
            == DecideAutoland(st.(fixSpawns := fixCount, escalateSpawns := escalateCount))
  {
  }

  // ----- done-signals -----

  datatype PullState = Open | Merged

  predicate LanderDone(state: PullState, present: bool, words: seq<string>) {
    present && (state.Merged? || LastKnown(words) == PASS || LastKnown(words) == REJECT)
  }

  predicate FixDone(state: PullState, present: bool, words: seq<string>) {
    present && (state.Merged? || LastKnown(words) == FIX_DONE)
  }

  /** (done, via the escalate marker). */
  function EscalateDelivered(state: PullState, present: bool, words: seq<string>): (bool, bool) {
    if !present then (false, false)
    else if state.Merged? then (true, false)
    else (LastKnown(words) == ESCALATE, LastKnown(words) == ESCALATE)
  }

  /** What the poller folds of an open claim PR: everything but the raw thread is as of the last re-arm. */
  ghost function Polled(thread: seq<Comment>, reviews: seq<Review>, rearmedAt: int, escalatedRun: Option<int>,
                        runOnBranch: bool, fixSpawns: nat, maxFixAttempts: int, escalateSpawns: nat): PullVerdictState
  {
    var words := Words(LiveThread(thread, rearmedAt));
    PullVerdictState(words, IsLiveReview(reviews), HumanRejects(reviews),
                     ESCALATE in words || (escalatedRun.Some? && escalatedRun.value > rearmedAt),
                     runOnBranch, fixSpawns, maxFixAttempts, escalateSpawns)
  }

  /**
   * The folded facts by the rows they come from: an escalation counts only from after the re-arm,
   * whether a comment or a run delivered it; a reviewer rejects by the newest verdict alone.
   */
  lemma PolledByRows(thread: seq<Comment>, reviews: seq<Review>, rearmedAt: int, escalatedRun: Option<int>,
                     onBranch: bool, fixSpawns: nat, maxFix: int, escalateSpawns: nat)
    ensures var st := Polled(thread, reviews, rearmedAt, escalatedRun, onBranch, fixSpawns, maxFix, escalateSpawns);
            && (st.escalated <==>
                EscalatesAfter(thread, rearmedAt) || (escalatedRun.Some? && escalatedRun.value > rearmedAt))
            && (st.humanRejected <==> SomeRowRejects(reviews))
            && (st.liveReview <==> exists i | 0 <= i < |reviews| :: !reviews[i].dismissed)
  {
    EscalationIsLiveIff(thread, rearmedAt);
    RejectsByRows(reviews);
  }

  lemma {:induction false} LastKnownIsAWord(words: seq<string>)
    ensures LastKnown(words) != "" ==> LastKnown(words) in words && IsKnown(LastKnown(words))
    ensures words == [] ==> LastKnown(words) == ""
  {
    if words != [] {
      LastKnownIsAWord(words[..|words| - 1]);
    }
  }

  /**
   * No run is done at birth. A lander or fix run's signal, read on the raw thread, is false when
   * the poller decides to spawn it; an escalate run's is false on the thread the poller reads.
   */
  lemma NotDoneAtBirth(thread: seq<Comment>, reviews: seq<Review>, rearmedAt: int, escalatedRun: Option<int>,
                       onBranch: bool, fixSpawns: nat, maxFix: int, escalateSpawns: nat)
    ensures var st := Polled(thread, reviews, rearmedAt, escalatedRun, onBranch, fixSpawns, maxFix, escalateSpawns);
            var action := DecideAutoland(st);
            && (action.Lander? ==> !LanderDone(Open, true, Words(thread)))
            && (action.Fix? ==> !FixDone(Open, true, Words(thread)))
            && (action.Escalate?
                ==> EscalateDelivered(Open, true, Words(LiveThread(thread, rearmedAt))) == (false, false))
  {
    LastKnownOfLiveThread(thread, rearmedAt);
    LastKnownIsAWord(Words(LiveThread(thread, rearmedAt)));
  }

  /**
   * On the raw thread an escalate run is done at birth exactly when a superseded escalation carries the newest
   * known word.
   */
  lemma EscalateDoneAtBirth(thread: seq<Comment>, reviews: seq<Review>, rearmedAt: int, escalatedRun: Option<int>,
                            onBranch: bool, fixSpawns: nat, maxFix: int, escalateSpawns: nat)
    requires DecideAutoland(Polled(thread, reviews, rearmedAt, escalatedRun, onBranch, fixSpawns, maxFix,
                                   escalateSpawns)).Escalate?
    ensures EscalateDelivered(Open, true, Words(thread)).0 <==> EndsSuperseded(thread, rearmedAt)
  {
    LastKnownOfLiveThread(thread, rearmedAt);
    LastKnownIsAWord(Words(LiveThread(thread, rearmedAt)));
  }

  /** It does happen: a re-armed PR of a repo that allows no fix runs, rejected and once escalated. */
  lemma RearmedEscalationIsDoneAtBirth()
    ensures var thread := [Comment(Some(REJECT), "", 1), Comment(Some(ESCALATE), "", 2)];
            && DecideAutoland(Polled(thread, [], 3, Some(2), false, 0, 0, 0)).Escalate?
            && EscalateDelivered(Open, true, Words(thread)) == (true, true)
  {
    var a, b := Comment(Some(REJECT), "", 1), Comment(Some(ESCALATE), "", 2);
    SupersededEscalation(a, b, [a, b]);
  }

  lemma SupersededEscalation(a: Comment, b: Comment, thread: seq<Comment>)
    requires thread == [a] + [b]
    requires a.word == Some(REJECT) && b.word == Some(ESCALATE) && b.createdAt < 3
    ensures DecideAutoland(Polled(thread, [], 3, Some(2), false, 0, 0, 0)).Escalate?
    ensures LastKnown(Words(thread)) == ESCALATE
  {
    OneComment(a, 3);
    LiveThreadOfAppend([a], b, 3);
    LastKnownOfOne(REJECT);
    LastKnownOfThread([a], b);
  }

  lemma OneComment(c: Comment, rearmedAt: int)
    ensures LiveThread([c], rearmedAt) == if Superseded(c, rearmedAt) then [] else [c]
    ensures Words([c]) == match c.word case None => [] case Some(w) => [w]
  {
    assert [c] == [] + [c];
    LiveThreadOfAppend([], c, rearmedAt);
    WordsOfAppend([], c);
  }

  lemma LastKnownOfOne(w: string)
    ensures LastKnown([w]) == if IsKnown(w) then w else ""
  {
    assert [w] == [] + [w];
    LastKnownOfAppend([], w);
  }

  /** Only the first line is read: whatever follows it, no word appears, vanishes or changes. */
  lemma FirstLineOnly(first: string, rest: string, at: int)
    requires '\n' !in first
    ensures ReadComment(first + "\n" + rest, at) == Comment(ParseVerdict(first), rest, at)
  {
    CutAtNewline(first, rest);
    NoNewline(first);
  }

  lemma CutAtNewline(first: string, rest: string)
    requires '\n' !in first
    ensures Cut(first + "\n" + rest, "\n") == Found(first, rest)
  {
    var s := first + "\n" + rest;
    if first == "" {
      assert s == "\n" + rest;
      assert s[1..] == rest;
    } else {
      assert s[0] == first[0];
      assert s[1..] == first[1..] + "\n" + rest;
      CutAtNewline(first[1..], rest);
      assert [first[0]] + first[1..] == first;
    }
  }

  lemma NoNewline(s: string)
    requires '\n' !in s
    ensures Cut(s, "\n").NotFound?
  {
    if s != "" {
      NoNewline(s[1..]);
    }
  }

  // ----- verdicts as they are posted -----

  /** The comment a verdict verb posts: the marker line, and the prose below it. */
  function VerdictComment(word: string, body: string): string {
    Posted("[autoland] verdict: " + word, body)
  }

  function Posted(line: string, body: string): string {
    if body == "" then line else line + "\n\n" + body
  }

  predicate IsPlain(word: string) {
    word != "" && !IsSpace(word[0]) && !IsSpace(word[|word| - 1]) && '\n' !in word
  }

  lemma TrimmedWord(word: string)
    requires IsPlain(word)
    ensures TrimSpace(" " + word) == word
  {
    assert (" " + word)[1..] == word;
  }

  lemma MarkerLineReads(prefix: string, tail: string)
    requires prefix == MARKER_PREFIX && '\n' !in tail
    ensures '\n' !in prefix + tail && ParseVerdict(prefix + tail) == Some(TrimSpace(tail))
  {
    NoNewline(prefix + tail);
    assert (prefix + tail)[|prefix|..] == tail;
  }

  lemma BareLineReadsBack(line: string, word: string, at: int)
    requires '\n' !in line && ParseVerdict(line) == Some(word)
    ensures ReadComment(line, at) == Comment(Some(word), "", at)
  {
    NoNewline(line);
  }

  lemma LineReadsBack(line: string, word: string, body: string, at: int)
    requires '\n' !in line && ParseVerdict(line) == Some(word)
    ensures ReadComment(line + "\n\n" + body, at) == Comment(Some(word), "\n" + body, at)
  {
    var rest := "\n" + body;
    assert line + "\n\n" + body == line + "\n" + rest;
    FirstLineOnly(line, rest, at);
    FirstLineAlone(line);
  }

  lemma FirstLineAlone(line: string)
    requires '\n' !in line
    ensures FirstLine(line) == line
  {
    NoNewline(line);
  }

  lemma MarkerLine(line: string, prefix: string, word: string)
    requires prefix == MARKER_PREFIX && line == prefix + (" " + word) && IsPlain(word)
    ensures '\n' !in line && ParseVerdict(line) == Some(word)
  {
    var tail := " " + word;
    MarkerLineReads(prefix, tail);
    TrimmedWord(word);
  }

  lemma KnownWordsArePlain(word: string)
    requires IsKnown(word)
    ensures IsPlain(word)
  {
  }

  lemma PostedReadsBack(line: string, word: string, body: string, at: int)
    requires '\n' !in line && ParseVerdict(line) == Some(word)
    ensures ReadComment(Posted(line, body), at) == Comment(Some(word), if body == "" then "" else "\n" + body, at)
  {
    if body == "" {
      BareLineReadsBack(line, word, at);
    } else {
      LineReadsBack(line, word, body, at);
    }
  }

  /** A posted verdict reads back as its word and its prose. */
  lemma PostedVerdictReadsBack(word: string, body: string, at: int)
    requires IsKnown(word)
    ensures ReadComment(VerdictComment(word, body), at)
            == Comment(Some(word), if body == "" then "" else "\n" + body, at)
  {
    var line := "[autoland] verdict: " + word;
    assert line == MARKER_PREFIX + (" " + word);
    KnownWordsArePlain(word);
    MarkerLine(line, MARKER_PREFIX, word);
    PostedReadsBack(line, word, body, at);
  }

  /** A posted verdict is the done-signal of its own run kind and of no other, whatever the thread held before. */
  lemma PostedVerdictSignals(thread: seq<Comment>, word: string, body: string, at: int)
    requires word == "pass" || word == "reject" || word == "fix-done" || word == "escalate"
    ensures var words := Words(thread + [ReadComment(VerdictComment(word, body), at)]);
            && (LanderDone(Open, true, words) <==> word == "pass" || word == "reject")
            && (FixDone(Open, true, words) <==> word == "fix-done")
            && EscalateDelivered(Open, true, words) == (word == "escalate", word == "escalate")
  {
    PostedVerdictReadsBack(word, body, at);
    LastKnownOfThread(thread, ReadComment(VerdictComment(word, body), at));
  }

  /** Any other comment leaves every signal as it was; a merge sets them all, none by the marker; no request, none. */
  lemma SignalsOtherwise(thread: seq<Comment>, c: Comment, words: seq<string>, state: PullState)
    requires c.word.None? || c.word.value !in ["pass", "reject", "fix-done", "escalate"]
    ensures LanderDone(state, true, Words(thread + [c])) <==> LanderDone(state, true, Words(thread))
    ensures FixDone(state, true, Words(thread + [c])) <==> FixDone(state, true, Words(thread))
    ensures EscalateDelivered(state, true, Words(thread + [c])) == EscalateDelivered(state, true, Words(thread))
    ensures LanderDone(Merged, true, words) && FixDone(Merged, true, words)
    ensures EscalateDelivered(Merged, true, words) == (true, false)
    ensures !LanderDone(state, false, words) && !FixDone(state, false, words)
    ensures EscalateDelivered(state, false, words) == (false, false)
  {
    LastKnownOfThread(thread, c);
  }

  // ----- a fix run's work order -----

  /** What the standing reject asks for: the prose of the newest comment with a known word, if that word is reject. */
  function OpenFindings(thread: seq<Comment>): string {
    if thread == [] then ""
    else
      var last := thread[|thread| - 1];
      if !HasKnownWord(last) then OpenFindings(thread[..|thread| - 1])
      else if last.word == Some(REJECT) then TrimSpace(last.prose)
      else ""
  }

  /** The prose of the newest reject comment, standing or not. */
  function NewestReject(thread: seq<Comment>): string {
    if thread == [] then ""
    else
      var last := thread[|thread| - 1];
      if last.word == Some(REJECT) then TrimSpace(last.prose) else NewestReject(thread[..|thread| - 1])
  }

  /** While reject is the newest known word, the newest reject comment is the standing one; otherwise none stands. */
  lemma {:induction false} StandingRejectIsNewest(thread: seq<Comment>)
    ensures OpenFindings(thread) == if LastKnown(Words(thread)) == REJECT then NewestReject(thread) else ""
  {
    if thread != [] {
      var front, last := thread[..|thread| - 1], thread[|thread| - 1];
      assert thread == front + [last];
      StandingRejectIsNewest(front);
      LastKnownOfThread(front, last);
    }
  }

  /** The comment carries one of the four verdicts and nothing after it does. */
  predicate IsNewestWord(thread: seq<Comment>, i: nat) {
    && i < |thread| && thread[i].word.Some? && thread[i].word.value in ["pass", "reject", "fix-done", "escalate"]
    && forall j | i < j < |thread| ::
         thread[j].word.None? || thread[j].word.value !in ["pass", "reject", "fix-done", "escalate"]
  }

  /** The findings of a thread are the trimmed prose of its newest verdict, if that is a reject. */
  lemma {:induction false} FindingsByRows(thread: seq<Comment>, i: nat)
    requires IsNewestWord(thread, i)
    ensures OpenFindings(thread) == if thread[i].word == Some("reject") then TrimSpace(thread[i].prose) else ""
    ensures LastKnown(Words(thread)) == thread[i].word.value
  {
    var front, last := thread[..|thread| - 1], thread[|thread| - 1];
    assert thread == front + [last];
    LastKnownOfThread(front, last);
    if i < |front| {
      assert front[i] == thread[i];
      FindingsByRows(front, i);
    }
  }

  /** Without a verdict there are no findings. */
  lemma {:induction false} NoVerdictNoFindings(thread: seq<Comment>)
    requires forall j | 0 <= j < |thread| ::
               thread[j].word.None? || thread[j].word.value !in ["pass", "reject", "fix-done", "escalate"]
    ensures OpenFindings(thread) == "" && LastKnown(Words(thread)) == ""
  {
    if thread != [] {
      var front, last := thread[..|thread| - 1], thread[|thread| - 1];
      assert thread == front + [last];
      LastKnownOfThread(front, last);
      NoVerdictNoFindings(front);
    }
  }

  /** The reviewers with a binding row, in the order of their first one. */
  function FirstSeen(reviews: seq<Review>): seq<string> {
    if reviews == [] then []
    else
      var last, front := reviews[|reviews| - 1], FirstSeen(reviews[..|reviews| - 1]);
      if Binding(last) && last.reviewer !in front then front + [last.reviewer] else front
  }

  lemma FirstSeenOfAppend(reviews: seq<Review>, r: Review)
    ensures FirstSeen(reviews + [r]) == FirstSeen(reviews) +
            if Binding(r) && r.reviewer !in FirstSeen(reviews) then [r.reviewer] else []
  {
    assert (reviews + [r])[..|reviews|] == reviews;
  }

  /** The index of a reviewer's first binding row; |reviews| when there is none. */
  function FirstRow(reviews: seq<Review>, login: string): (k: nat)
    ensures k <= |reviews|
    ensures k < |reviews| ==> Binding(reviews[k]) && reviews[k].reviewer == login
    ensures forall i | 0 <= i < k :: !(Binding(reviews[i]) && reviews[i].reviewer == login)
  {
    if reviews == [] then 0
    else
      var front := reviews[..|reviews| - 1];
      var k := FirstRow(front, login);
      if k < |front| then k
      else if Binding(reviews[|front|]) && reviews[|front|].reviewer == login then |front|
      else |reviews|
  }

  /** FirstSeen lists exactly the reviewers with a verdict, once each, by their first binding row. */
  lemma {:induction false} FirstSeenOrder(reviews: seq<Review>)
    ensures forall login :: login in FirstSeen(reviews) <==> Latest(reviews, login).Some?
    ensures forall i, j | 0 <= i < j < |FirstSeen(reviews)| ::
              FirstRow(reviews, FirstSeen(reviews)[i]) < FirstRow(reviews, FirstSeen(reviews)[j]) < |reviews|
  {
    if reviews != [] {
      var front, last := reviews[..|reviews| - 1], reviews[|reviews| - 1];
      assert reviews == front + [last];
      FirstSeenOrder(front);
      FirstSeenOfAppend(front, last);
      LatestOfAppend(front, last);
      var was := FirstSeen(front);
      forall i | 0 <= i < |was| ensures FirstRow(reviews, was[i]) == FirstRow(front, was[i]) < |front| {
        LatestHasRow(front, was[i]);
      }
      if Binding(last) && last.reviewer !in was {
        LatestHasRow(front, last.reviewer);
        assert FirstRow(reviews, last.reviewer) == |front|;
      }
    }
  }

  lemma {:induction false} LatestHasRow(reviews: seq<Review>, login: string)
    ensures Latest(reviews, login).Some? <==> FirstRow(reviews, login) < |reviews|
  {
    if reviews != [] {
      LatestHasRow(reviews[..|reviews| - 1], login);
    }
  }

  /** A standing rejection with something to say. */
  predicate HasWork(reviews: seq<Review>, login: string) {
    Stands(reviews, login) && !All(Latest(reviews, login).value.body, IsSpace)
  }

  function ReviewText(login: string, body: string): (r: string)
    ensures r != ""
  {
    "Review by " + login + " (changes requested):\n" + TrimSpace(body)
  }

  function ReviewSection(reviews: seq<Review>, login: string): seq<string> {
    if HasWork(reviews, login) then [ReviewText(login, Latest(reviews, login).value.body)] else []
  }

  /** The section of a reviewer's winning row, if it has one. */
  function SectionOf(r: Review): seq<string> {
    if r.state.ChangesRequested? && TrimSpace(r.body) != "" then [ReviewText(r.reviewer, r.body)] else []
  }

  lemma ReviewSectionOf(reviews: seq<Review>, login: string, r: Review)
    requires Latest(reviews, login) == Some(r)
    ensures ReviewSection(reviews, login) == SectionOf(r)
  {
    TrimSpaceEmpty(r.body);
  }

  function ReviewSections(reviews: seq<Review>, order: seq<string>): seq<string> {
    if order == [] then []
    else ReviewSections(reviews, order[..|order| - 1]) + ReviewSection(reviews, order[|order| - 1])
  }

  function LanderSection(findings: string): seq<string> {
    if findings == "" then [] else ["Lander rejection:\n" + findings]
  }

  function WorkOrder(thread: seq<Comment>, reviews: seq<Review>): seq<string> {
    LanderSection(OpenFindings(thread)) + ReviewSections(reviews, FirstSeen(reviews))
  }

  method LanderFindings(thread: seq<Comment>) returns (findings: string)
    ensures findings == OpenFindings(thread)
  {
    findings := "";
    var words := VerdictWords(thread);
    var newest := LastVerdictWord(words);
    StandingRejectIsNewest(thread);
    if newest == REJECT {
      for i := 0 to |thread|
        invariant findings == NewestReject(thread[..i])
      {
        assert thread[..i + 1][..i] == thread[..i];
        if thread[i].word == Some(REJECT) {
          findings := TrimSpace(thread[i].prose);
        }
      }
      assert thread[..|thread|] == thread;
    }
  }

  method FoldReviews(reviews: seq<Review>) returns (latest: map<string, Review>, order: seq<string>)
    ensures FoldsLatest(latest, reviews) && order == FirstSeen(reviews)
  {
    latest, order := map[], [];
    for i := 0 to |reviews|
      invariant FoldsLatest(latest, reviews[..i])
      invariant order == FirstSeen(reviews[..i])
    {
      assert reviews[..i + 1] == reviews[..i] + [reviews[i]];
      LatestOfAppend(reviews[..i], reviews[i]);
      FirstSeenOfAppend(reviews[..i], reviews[i]);
      FirstSeenOrder(reviews[..i]);
      if Binding(reviews[i]) {
        if reviews[i].reviewer !in latest {
          order := order + [reviews[i].reviewer];
        }
        latest := latest[reviews[i].reviewer := reviews[i]];
      }
    }
    assert reviews[..|reviews|] == reviews;
  }

  method RejectionContext(thread: seq<Comment>, reviews: seq<Review>) returns (text: string)
    ensures text == Join(WorkOrder(thread, reviews), "\n\n")
  {
    var findings := LanderFindings(thread);
    var sections: seq<string> := [];
    var latest, order := FoldReviews(reviews);
    FirstSeenOrder(reviews);
    for i := 0 to |order|
      invariant sections == ReviewSections(reviews, order[..i])
    {
      assert order[..i + 1][..i] == order[..i];
      var login := order[i];
      assert login in latest;
      ReviewSectionOf(reviews, login, latest[login]);
      sections := sections + SectionOf(latest[login]);
    }
    assert order[..|order|] == order;
    text := Join(LanderSection(findings) + sections, "\n\n");
  }

  /** The standing rejections of a fix run: an open reject with prose, or a reviewer's. */
  ghost predicate SomethingToFix(thread: seq<Comment>, reviews: seq<Review>) {
    OpenFindings(thread) != "" || exists login :: HasWork(reviews, login)
  }

  lemma {:induction false} NoEmptySection(reviews: seq<Review>, order: seq<string>)
    ensures forall i | 0 <= i < |ReviewSections(reviews, order)| :: ReviewSections(reviews, order)[i] != ""
  {
    if order != [] {
      NoEmptySection(reviews, order[..|order| - 1]);
    }
  }

  lemma {:induction false} NoSection(reviews: seq<Review>, order: seq<string>, i: nat)
    requires ReviewSections(reviews, order) == [] && i < |order|
    ensures ReviewSection(reviews, order[i]) == []
  {
    if i < |order| - 1 {
      var front := order[..|order| - 1];
      assert front[i] == order[i];
      NoSection(reviews, front, i);
    }
  }

  lemma {:induction false} SomeSection(reviews: seq<Review>, order: seq<string>) returns (login: string)
    requires ReviewSections(reviews, order) != []
    ensures HasWork(reviews, login)
  {
    login := order[|order| - 1];
    if !HasWork(reviews, login) {
      login := SomeSection(reviews, order[..|order| - 1]);
    }
  }

  /** The work order is empty exactly when no live rejection has prose. */
  lemma WorkOrderEmpty(thread: seq<Comment>, reviews: seq<Review>)
    ensures Join(WorkOrder(thread, reviews), "\n\n") != "" <==> SomethingToFix(thread, reviews)
  {
    var order := FirstSeen(reviews);
    NoEmptySection(reviews, order);
    NoEmptyText(OpenFindings(thread), ReviewSections(reviews, order));
    FirstSeenOrder(reviews);
    if ReviewSections(reviews, order) == [] {
      forall login ensures !HasWork(reviews, login) {
        if Latest(reviews, login).Some? {
          var i :| 0 <= i < |order| && order[i] == login;
          NoSection(reviews, order, i);
        }
      }
    } else {
      var login := SomeSection(reviews, order);
    }
  }

  lemma NoEmptyText(findings: string, sections: seq<string>)
    requires forall i | 0 <= i < |sections| :: sections[i] != ""
    ensures Join(LanderSection(findings) + sections, "\n\n") == "" <==> findings == "" && sections == []
  {
    var all := LanderSection(findings) + sections;
    assert forall i | 0 <= i < |all| :: all[i] != "";
    JoinEmpty(all, "\n\n");
  }

  /** A fix decision always has a live rejection behind it: an open reject or a standing reviewer. */
  lemma FixHasARejection(thread: seq<Comment>, reviews: seq<Review>, rearmedAt: int, escalatedRun: Option<int>,
                         onBranch: bool, fixSpawns: nat, maxFix: int, escalateSpawns: nat)
    requires DecideAutoland(Polled(thread, reviews, rearmedAt, escalatedRun, onBranch, fixSpawns, maxFix,
                                   escalateSpawns)).Fix?
    ensures LastKnown(Words(LiveThread(thread, rearmedAt))) == REJECT
            || exists i | 0 <= i < |FirstSeen(reviews)| :: Stands(reviews, FirstSeen(reviews)[i])
  {
    if HumanRejects(reviews) {
      FirstSeenOrder(reviews);
      var login :| Stands(reviews, login);
      assert login in FirstSeen(reviews);
    }
  }

  /** A lander may merge exactly when no reviewer still requests changes; otherwise it only approves. */
  lemma ApprovesOnlyOverARejection(thread: seq<Comment>, reviews: seq<Review>, rearmedAt: int,
                                   escalatedRun: Option<int>,
                                   onBranch: bool, fixSpawns: nat, maxFix: int, escalateSpawns: nat)
    requires DecideAutoland(Polled(thread, reviews, rearmedAt, escalatedRun, onBranch, fixSpawns, maxFix,
                                   escalateSpawns)).Lander?
    ensures DecideAutoland(Polled(thread, reviews, rearmedAt, escalatedRun, onBranch, fixSpawns, maxFix,
                                  escalateSpawns)).approveOnly
            <==> HumanRejects(reviews)
  {
    if login :| Stands(reviews, login) {
      LatestHasRow(reviews, login);
      assert !reviews[FirstRow(reviews, login)].dismissed;
    }
  }
}
