/**
 * The chat tailer: each tick follows a run's transcript, spots messages that re-rendered since
 * the last read, and publishes where a client must refetch from.
 */
module ChatTailer {
  import opened Text

  /** A message; its content stands for its hash, which is taken as injective. */
  datatype Message = Message(number: nat, content: string)

  datatype Chat = Chat(messages: seq<Message>, state: string, detail: string)

  datatype Stat = Stat(mod: int, size: int)

  const ZERO := Stat(0, 0)

  // ----- the back-patch diff -----

  /** Sequence numbers start at 1 and rise. */
  predicate Rising(msgs: seq<Message>) {
    && (forall i | 0 <= i < |msgs| :: msgs[i].number >= 1)
    && forall i, j | 0 <= i < j < |msgs| :: msgs[i].number < msgs[j].number
  }

  /** The last content each sequence number was read with. */
  function Hashes(msgs: seq<Message>): map<nat, string> {
    if msgs == [] then map[]
    else Hashes(msgs[..|msgs| - 1])[msgs[|msgs| - 1].number := msgs[|msgs| - 1].content]
  }

  lemma {:induction false} HashesOf(msgs: seq<Message>)
    requires Rising(msgs)
    ensures forall i | 0 <= i < |msgs| ::
              msgs[i].number in Hashes(msgs) && Hashes(msgs)[msgs[i].number] == msgs[i].content
  {
    if msgs != [] {
      var front := msgs[..|msgs| - 1];
      assert forall i | 0 <= i < |front| :: front[i] == msgs[i];
      HashesOf(front);
    }
  }

  method HashesBySeq(msgs: seq<Message>) returns (m: map<nat, string>)
    ensures m == Hashes(msgs)
  {
    m := map[];
    for i := 0 to |msgs|
      invariant m == Hashes(msgs[..i])
    {
      assert msgs[..i + 1][..i] == msgs[..i];
      m := m[msgs[i].number := msgs[i].content];
    }
    assert msgs[..|msgs|] == msgs;
  }

  /** An already-seen message that re-rendered. */
  predicate Rerendered(baseline: map<nat, string>, m: Message) {
    m.number in baseline && baseline[m.number] != m.content
  }

  /** The lowest sequence number that re-rendered; 0 when none did. */
  function Lowest(baseline: map<nat, string>, msgs: seq<Message>): nat {
    if msgs == [] then 0
    else
      var last, lowest := msgs[|msgs| - 1], Lowest(baseline, msgs[..|msgs| - 1]);
      if Rerendered(baseline, last) && (lowest == 0 || last.number < lowest) then last.number else lowest
  }

  lemma {:induction false} LowestIsLowest(baseline: map<nat, string>, msgs: seq<Message>)
    requires Rising(msgs)
    ensures Lowest(baseline, msgs) == 0 <==> forall i | 0 <= i < |msgs| :: !Rerendered(baseline, msgs[i])
    ensures forall i | 0 <= i < |msgs| && Rerendered(baseline, msgs[i]) :: Lowest(baseline, msgs) <= msgs[i].number
    ensures Lowest(baseline, msgs) > 0
            ==> exists i :: 0 <= i < |msgs| && Rerendered(baseline, msgs[i]) && msgs[i].number == Lowest(baseline, msgs)
  {
    if msgs != [] {
      var front, last := msgs[..|msgs| - 1], msgs[|msgs| - 1];
      assert forall i | 0 <= i < |front| :: front[i] == msgs[i];
      LowestIsLowest(baseline, front);
      assert msgs[|msgs| - 1] == last;
    }
  }

  method LowestBackpatchSeq(baseline: map<nat, string>, msgs: seq<Message>) returns (lowest: nat)
    ensures lowest == Lowest(baseline, msgs)
  {
    lowest := 0;
    for i := 0 to |msgs|
      invariant lowest == Lowest(baseline, msgs[..i])
    {
      assert msgs[..i + 1][..i] == msgs[..i];
      if msgs[i].number !in baseline || baseline[msgs[i].number] == msgs[i].content {
        continue;
      }
      if lowest == 0 || msgs[i].number < lowest {
        lowest := msgs[i].number;
      }
    }
    assert msgs[..|msgs|] == msgs;
  }

  // ----- the client -----

  /** How many messages are numbered up to k. */
  function UpTo(msgs: seq<Message>, k: nat): (n: nat)
    requires Rising(msgs)
    ensures n <= |msgs|
    ensures forall i | 0 <= i < |msgs| :: i < n <==> msgs[i].number <= k
  {
    if msgs == [] then 0
    else if msgs[|msgs| - 1].number <= k then |msgs|
    else UpTo(msgs[..|msgs| - 1], k)
  }

  /** The number of the last message a client holds. */
  function Cursor(msgs: seq<Message>): nat {
    if msgs == [] then 0 else msgs[|msgs| - 1].number
  }

  /** Where the client refetches after: min(cursor, backpatch - 1). */
  function RefetchAfter(cursor: nat, backpatch: nat): nat {
    if backpatch > 0 && backpatch - 1 < cursor then backpatch - 1 else cursor
  }

  /** Keep what is numbered up to the refetch point, take the rest from the transcript. */
  function Refetch(held: seq<Message>, backpatch: nat, transcript: seq<Message>): seq<Message>
    requires Rising(held) && Rising(transcript)
  {
    var after := RefetchAfter(Cursor(held), backpatch);
    held[..UpTo(held, after)] + transcript[UpTo(transcript, after)..]
  }

  /** Later reads of one file: messages are re-rendered in place or appended, never renumbered. */
  predicate Stable(a: seq<Message>, b: seq<Message>) {
    |a| <= |b| && forall i | 0 <= i < |a| :: a[i].number == b[i].number
  }

  /** UpTo is the one split of the messages at k. */
  lemma {:induction false} UpToIsTheSplit(msgs: seq<Message>, k: nat, n: nat)
    requires Rising(msgs) && n <= |msgs|
    requires forall i | 0 <= i < |msgs| :: i < n <==> msgs[i].number <= k
    ensures n == UpTo(msgs, k)
  {
    if msgs != [] && msgs[|msgs| - 1].number > k {
      var front := msgs[..|msgs| - 1];
      assert forall i | 0 <= i < |front| :: front[i] == msgs[i];
      UpToIsTheSplit(front, k, n);
    }
  }

  lemma AlignedRefetch(held: seq<Message>, backpatch: nat, now: seq<Message>)
    requires Rising(held) && Rising(now) && Stable(held, now)
    ensures var n := UpTo(held, RefetchAfter(Cursor(held), backpatch));
            n <= |held| && Refetch(held, backpatch, now) == held[..n] + now[n..]
  {
    var after := RefetchAfter(Cursor(held), backpatch);
    var n := UpTo(held, after);
    forall i | 0 <= i < |now| ensures i < n <==> now[i].number <= after {
      if i < |held| {
        assert held[i].number == now[i].number;
      } else if held != [] {
        assert now[|held| - 1].number < now[i].number;
      }
    }
    UpToIsTheSplit(now, after, n);
  }

  /**
   * A client that agrees with the tailer's last read ends up with the new one exactly when none
   * of the kept messages the tailer had not yet read changed since the client fetched them.
   */
  lemma RefetchCatchesUp(before: seq<Message>, held: seq<Message>, now: seq<Message>)
    requires Rising(before) && Rising(held) && Rising(now) && Stable(before, now) && Stable(held, now)
    requires forall i | 0 <= i < |held| && i < |before| :: held[i] == before[i]
    ensures var backpatch := Lowest(Hashes(before), now);
            var n := UpTo(held, RefetchAfter(Cursor(held), backpatch));
            Refetch(held, backpatch, now) == now <==> forall i | |before| <= i < n :: held[i] == now[i]
  {
    var backpatch := Lowest(Hashes(before), now);
    var n := UpTo(held, RefetchAfter(Cursor(held), backpatch));
    AlignedRefetch(held, backpatch, now);
    forall i | 0 <= i < n && i < |before| ensures held[i] == now[i] {
      UnflaggedIsUnchanged(before, now, i, RefetchAfter(Cursor(held), backpatch));
    }
    PatchedEquals(held, now, n, |before|);
  }

  /** Replacing the tail gives the whole exactly when the doubtful part of the head was right. */
  lemma PatchedEquals(held: seq<Message>, now: seq<Message>, n: nat, known: nat)
    requires n <= |held| <= |now|
    requires forall i | 0 <= i < n && i < known :: held[i] == now[i]
    ensures held[..n] + now[n..] == now <==> forall i | known <= i < n :: held[i] == now[i]
  {
    var got := held[..n] + now[n..];
    assert forall i | 0 <= i < n :: got[i] == held[i];
    assert forall i | n <= i < |now| :: got[i] == now[i];
    if got == now {
      assert forall i | 0 <= i < n :: held[i] == got[i] == now[i];
    }
  }

  lemma UnflaggedIsUnchanged(before: seq<Message>, now: seq<Message>, i: nat, after: nat)
    requires Rising(before) && Rising(now) && Stable(before, now) && i < |before|
    requires now[i].number <= after
    requires var backpatch := Lowest(Hashes(before), now); backpatch > 0 ==> after < backpatch
    ensures before[i] == now[i]
  {
    HashesOf(before);
    LowestIsLowest(Hashes(before), now);
    assert !Rerendered(Hashes(before), now[i]);
  }

  /** Without a back-patch a read only adds messages at the end. */
  lemma NoBackpatchAppends(before: seq<Message>, now: seq<Message>)
    requires Rising(before) && Rising(now) && Stable(before, now)
    requires Lowest(Hashes(before), now) == 0
    ensures before <= now
  {
    forall i | 0 <= i < |before| ensures before[i] == now[i] {
      UnflaggedIsUnchanged(before, now, i, now[i].number);
    }
  }

  /**
   * A client that loaded past the tailer's last read can stay stale: the new message re-renders before the
   * tailer sees it.
   */
  lemma LoadAheadOfTheRead()
    ensures var before, held, now := [], [Message(1, "running")], [Message(1, "ok")];
            && Rising(held) && Rising(now)
            && Refetch(held, Lowest(Hashes(before), now), now) != now
  {
    var before, held, now := [], [Message(1, "running")], [Message(1, "ok")];
    LowestIsLowest(Hashes(before), now);
    AlignedRefetch(held, 0, now);
  }

  // ----- the tick -----

  datatype Tailer = Tailer(
    path: string, stat: Stat, sig: string, state: string, detail: string, first: bool, baseline: map<nat, string>)

  /** What one tick finds: the located path, its stat, the live-signal digest, and the read if it succeeds. */
  datatype Look = Look(located: string, stat: Option<Stat>, sig: string, read: Option<Chat>)

  datatype Envelope = Envelope(state: string, detail: string, backpatch: nat)

  predicate Rotates(t: Tailer, l: Look) {
    t.path != "" && l.located != t.path
  }

  /** The bookkeeping the stat is compared with: dropped on a rotation. */
  function LastStat(t: Tailer, l: Look): Stat {
    if Rotates(t, l) then ZERO else t.stat
  }

  predicate StatMoved(t: Tailer, l: Look) {
    l.located != "" && l.stat.Some? && l.stat.value != LastStat(t, l)
  }

  predicate TranscriptChanged(t: Tailer, l: Look) {
    Rotates(t, l) || StatMoved(t, l)
  }

  predicate Reads(t: Tailer, l: Look) {
    t.first || TranscriptChanged(t, l) || l.sig != t.sig
  }

  /** The baseline a read is compared with: dropped on a rotation. */
  function Compared(t: Tailer, l: Look): map<nat, string> {
    if Rotates(t, l) then map[] else t.baseline
  }

  /** The tick read the transcript. */
  predicate Succeeds(t: Tailer, l: Look) {
    Reads(t, l) && l.read.Some?
  }

  function Published(t: Tailer, l: Look): Option<Envelope> {
    if !Succeeds(t, l) then None
    else
      var chat := l.read.value;
      var backpatch := Lowest(Compared(t, l), chat.messages);
      if t.first || TranscriptChanged(t, l) || chat.state != t.state || chat.detail != t.detail || backpatch != 0
      then Some(Envelope(chat.state, chat.detail, backpatch))
      else None
  }

  function After(t: Tailer, l: Look): Tailer {
    if !Succeeds(t, l) then t.(path := l.located, stat := LastStat(t, l))
    else
      Tailer(l.located, if StatMoved(t, l) then l.stat.value else LastStat(t, l), l.sig,
             l.read.value.state, l.read.value.detail, false, Hashes(l.read.value.messages))
  }

  /** The tail goroutine's variables. */
  class TailLoop {
    var path: string
    var lastStat: Stat
    var lastSig: string
    var lastState: string
    var lastDetail: string
    var first: bool
    var baseline: map<nat, string>

    function View(): Tailer
      reads this
    {
      Tailer(path, lastStat, lastSig, lastState, lastDetail, first, baseline)
    }

    constructor (persisted: string)
      ensures View() == Tailer(persisted, ZERO, "", "", "", true, map[])
    {
      path, lastStat, lastSig, lastState, lastDetail, first, baseline := persisted, ZERO, "", "", "", true, map[];
    }

    method Tick(l: Look) returns (envelope: Option<Envelope>)
      modifies this
      ensures View() == After(old(View()), l)
      ensures envelope == Published(old(View()), l)
    {
      envelope := None;
      var prev := path;
      path := l.located;
      var rotated := prev != "" && path != prev;
      if rotated {
        lastStat := ZERO;
      }
      var changed, staged := rotated, lastStat;
      if path != "" && l.stat.Some? && l.stat.value != lastStat {
        changed, staged := true, l.stat.value;
      }
      if !(first || changed || l.sig != lastSig) || l.read.None? {
        return;
      }
      var chat := l.read.value;
      if rotated {
        baseline := map[];
      }
      var backpatch := LowestBackpatchSeq(baseline, chat.messages);
      baseline := HashesBySeq(chat.messages);
      if first || changed || chat.state != lastState || chat.detail != lastDetail || backpatch != 0 {
        envelope := Some(Envelope(chat.state, chat.detail, backpatch));
      }
      first, lastSig, lastState, lastDetail, lastStat := false, l.sig, chat.state, chat.detail, staged;
    }
  }

  // ----- a client along a run of ticks -----

  datatype Client = Client(file: string, held: seq<Message>)

  /** On an envelope the client refetches; another file resets its stream. */
  function Refreshed(c: Client, file: string, msgs: seq<Message>, backpatch: nat): Client
    requires Rising(c.held) && Rising(msgs)
  {
    if c.file != file then Client(file, msgs) else Client(file, Refetch(c.held, backpatch, msgs))
  }

  ghost predicate GoodReads(looks: seq<Look>) {
    && (forall i | 0 <= i < |looks| && looks[i].read.Some? ::
          Rising(looks[i].read.value.messages) && (looks[i].located == "" ==> looks[i].read.value.messages == []))
    && (forall i, j | 0 <= i < j < |looks| && looks[i].read.Some? && looks[j].read.Some?
                      && looks[i].located == looks[j].located ::
          Stable(looks[i].read.value.messages, looks[j].read.value.messages))
  }

  ghost predicate IsRun(ts: seq<Tailer>, looks: seq<Look>) {
    |ts| == |looks| + 1 && forall i | 0 <= i < |looks| :: ts[i + 1] == After(ts[i], looks[i])
  }

  /** The last tick up to k, from j on, that read the transcript. */
  ghost function LastRead(ts: seq<Tailer>, looks: seq<Look>, j: nat, k: nat): (r: nat)
    requires IsRun(ts, looks) && j <= k < |looks| && Succeeds(ts[j], looks[j])
    ensures j <= r <= k && Succeeds(ts[r], looks[r])
  {
    if Succeeds(ts[k], looks[k]) then k else LastRead(ts, looks, j, k - 1)
  }

  /** A client that loads what tick j read and then follows the envelopes. */
  ghost predicate Follows(cs: seq<Client>, ts: seq<Tailer>, looks: seq<Look>, j: nat)
    requires IsRun(ts, looks) && GoodReads(looks)
  {
    && |cs| == |looks| && j < |looks| && Succeeds(ts[j], looks[j])
    && cs[j] == Client(looks[j].located, looks[j].read.value.messages)
    && forall k | j < k < |looks| :: FollowsAt(cs, ts, looks, k)
  }

  ghost predicate FollowsAt(cs: seq<Client>, ts: seq<Tailer>, looks: seq<Look>, k: nat)
    requires IsRun(ts, looks) && GoodReads(looks) && 0 < k < |looks| && |cs| == |looks|
  {
    && Rising(cs[k - 1].held)
    && cs[k] == if Published(ts[k], looks[k]).Some?
                then Refreshed(cs[k - 1], looks[k].located, looks[k].read.value.messages,
                               Published(ts[k], looks[k]).value.backpatch)
                else cs[k - 1]
  }

  /** The newest tick up to k, from j on, that read the given file. */
  ghost predicate IsOwnRead(ts: seq<Tailer>, looks: seq<Look>, file: string, r: nat, k: nat)
    requires IsRun(ts, looks) && k < |looks|
  {
    && r <= k && Succeeds(ts[r], looks[r]) && looks[r].located == file
    && forall q | r < q <= k :: !(Succeeds(ts[q], looks[q]) && looks[q].located == file)
  }

  ghost function NextClient(c: Client, t: Tailer, l: Look): Client
    requires Rising(c.held) && (l.read.Some? ==> Rising(l.read.value.messages))
  {
    if Published(t, l).Some? then Refreshed(c, l.located, l.read.value.messages, Published(t, l).value.backpatch) else c
  }

  /** The messages a client keeps when an envelope arrives. */
  ghost function Kept(held: seq<Message>, backpatch: nat): seq<Message>
    requires Rising(held)
  {
    held[..UpTo(held, RefetchAfter(Cursor(held), backpatch))]
  }

  /**
   * What one published tick does to any client whose messages are numbered like the transcript:
   * it has the new read exactly when it was on another file, or what it kept had not re-rendered.
   */
  lemma AgreesIffKeptStands(c: Client, t: Tailer, l: Look)
    requires Published(t, l).Some? && Rising(c.held) && Rising(l.read.value.messages)
    requires c.file == l.located ==> Stable(c.held, l.read.value.messages)
    ensures NextClient(c, t, l) == Client(l.located, l.read.value.messages) <==>
            c.file != l.located || Kept(c.held, Published(t, l).value.backpatch) <= l.read.value.messages
  {
    if c.file == l.located {
      var backpatch := Published(t, l).value.backpatch;
      AlignedRefetch(c.held, backpatch, l.read.value.messages);
      PatchedIffPrefix(c.held, l.read.value.messages, |Kept(c.held, backpatch)|);
    }
  }

  lemma PatchedIffPrefix(held: seq<Message>, now: seq<Message>, n: nat)
    requires n <= |held| <= |now|
    ensures held[..n] + now[n..] == now <==> held[..n] <= now
  {
    assert now == now[..n] + now[n..];
    if held[..n] + now[n..] == now {
      assert held[..n] == (held[..n] + now[n..])[..n] == now[..n];
    }
  }

  /**
   * A rotation back into the client's file: nothing is flagged, so the client agrees exactly when nothing it
   * holds re-rendered.
   */
  lemma RotationBackAgreesIff(c: Client, t: Tailer, l: Look)
    requires Rotates(t, l) && Succeeds(t, l) && c.file == l.located
    requires Rising(c.held) && Rising(l.read.value.messages) && Stable(c.held, l.read.value.messages)
    ensures Published(t, l).Some? && Published(t, l).value.backpatch == 0
    ensures NextClient(c, t, l) == Client(l.located, l.read.value.messages) <==> c.held <= l.read.value.messages
  {
    LowestIsLowest(map[], l.read.value.messages);
    AgreesIffKeptStands(c, t, l);
    KeptWithoutBackpatch(c.held);
  }

  lemma KeptWithoutBackpatch(held: seq<Message>)
    requires Rising(held)
    ensures Kept(held, 0) == held
  {
    UpToIsTheSplit(held, Cursor(held), |held|);
    assert held[..|held|] == held;
  }

  // ----- any run of ticks -----

  /** The client's messages are numbered like the newest read of its file. */
  ghost predicate Numbered(c: Client, ts: seq<Tailer>, looks: seq<Look>, r: nat, k: nat)
    requires IsRun(ts, looks) && k < |looks|
  {
    IsOwnRead(ts, looks, c.file, r, k) && Rising(c.held) && Stable(c.held, looks[r].read.value.messages)
  }

  lemma RefetchStaysNumbered(held: seq<Message>, backpatch: nat, now: seq<Message>)
    requires Rising(held) && Rising(now) && Stable(held, now)
    ensures Stable(Refetch(held, backpatch, now), now) && Rising(Refetch(held, backpatch, now))
  {
    AlignedRefetch(held, backpatch, now);
    PatchStaysNumbered(held, now, UpTo(held, RefetchAfter(Cursor(held), backpatch)));
  }

  lemma PatchStaysNumbered(held: seq<Message>, now: seq<Message>, n: nat)
    requires Rising(now) && Stable(held, now) && n <= |held|
    ensures Stable(held[..n] + now[n..], now) && Rising(held[..n] + now[n..])
  {
    var got := held[..n] + now[n..];
    assert |got| == |now|;
    forall i | 0 <= i < |got| ensures got[i].number == now[i].number {
      assert got[i] == if i < n then held[i] else now[i];
    }
    SameNumbersRise(got, now);
  }

  lemma SameNumbersRise(got: seq<Message>, now: seq<Message>)
    requires Rising(now) && |got| == |now| && forall i | 0 <= i < |got| :: got[i].number == now[i].number
    ensures Rising(got)
  {
  }

  lemma {:induction false} ClientStaysNumbered(cs: seq<Client>, ts: seq<Tailer>, looks: seq<Look>, j: nat, k: nat)
    returns (r: nat)
    requires IsRun(ts, looks) && GoodReads(looks) && Follows(cs, ts, looks, j) && j <= k < |looks|
    ensures j <= r && Numbered(cs[k], ts, looks, r, k)
  {
    if k == j {
      r := j;
    } else {
      r := ClientStaysNumbered(cs, ts, looks, j, k - 1);
      assert FollowsAt(cs, ts, looks, k);
      r := NumberedStep(cs[k - 1], cs[k], ts, looks, r, k);
    }
  }

  lemma NumberedStep(c: Client, c': Client, ts: seq<Tailer>, looks: seq<Look>, r: nat, k: nat) returns (r': nat)
    requires IsRun(ts, looks) && GoodReads(looks) && 0 < k < |looks| && Numbered(c, ts, looks, r, k - 1)
    requires c' == NextClient(c, ts[k], looks[k])
    ensures r <= r' && Numbered(c', ts, looks, r', k)
  {
    var l := looks[k];
    if Succeeds(ts[k], l) && (l.located == c.file || Published(ts[k], l).Some?) {
      r' := k;
      if l.located == c.file {
        assert Stable(looks[r].read.value.messages, l.read.value.messages);
        if Published(ts[k], l).Some? {
          RefetchStaysNumbered(c.held, Published(ts[k], l).value.backpatch, l.read.value.messages);
        }
      }
    } else {
      r' := r;
    }
  }

  /**
   * Along any run, failed reads and failed rotations included: after a published tick the client
   * has the tailer's read exactly when it came from another file or what it kept had not re-rendered.
   */
  lemma ClientAgreesIff(cs: seq<Client>, ts: seq<Tailer>, looks: seq<Look>, j: nat, k: nat)
    requires IsRun(ts, looks) && GoodReads(looks) && Follows(cs, ts, looks, j)
    requires j < k < |looks| && Published(ts[k], looks[k]).Some?
    ensures Rising(cs[k - 1].held)
    ensures cs[k] == Client(looks[k].located, looks[k].read.value.messages) <==>
            cs[k - 1].file != looks[k].located
            || Kept(cs[k - 1].held, Published(ts[k], looks[k]).value.backpatch) <= looks[k].read.value.messages
  {
    var r := ClientStaysNumbered(cs, ts, looks, j, k - 1);
    assert FollowsAt(cs, ts, looks, k);
    AgreesIffKeptStands(cs[k - 1], ts[k], looks[k]);
  }

  // ----- runs whose reads of the client's file are compared with that file -----

  /** The tick compares its read with the last read of the same file. */
  ghost predicate ComparesOwn(ts: seq<Tailer>, looks: seq<Look>, j: nat, k: nat)
    requires IsRun(ts, looks) && j < k < |looks| && Succeeds(ts[j], looks[j])
  {
    !Rotates(ts[k], looks[k]) && looks[LastRead(ts, looks, j, k - 1)].located == looks[k].located
  }

  /**
   * Every read of the file a client holds messages of is compared with that file: the tailer neither
   * rotates back into it nor read another file last. Rotation ticks may fail their read.
   */
  ghost predicate ReadsCompareOwn(cs: seq<Client>, ts: seq<Tailer>, looks: seq<Look>, j: nat)
    requires IsRun(ts, looks) && |cs| == |looks| && j < |looks| && Succeeds(ts[j], looks[j])
  {
    forall k | j < k < |looks| && Succeeds(ts[k], looks[k]) && looks[k].located == cs[k - 1].file
                 && cs[k - 1].held != [] ::
      ComparesOwn(ts, looks, j, k)
  }

  /** The tailer's state after a tick comes from its last read. */
  lemma {:induction false} BaselineOfLastRead(ts: seq<Tailer>, looks: seq<Look>, j: nat, k: nat)
    requires IsRun(ts, looks) && GoodReads(looks) && j <= k < |looks| && Succeeds(ts[j], looks[j])
    ensures !ts[k + 1].first && ts[k + 1].baseline == Hashes(looks[LastRead(ts, looks, j, k)].read.value.messages)
  {
    assert ts[k + 1] == After(ts[k], looks[k]);
    if k > j && !Succeeds(ts[k], looks[k]) {
      BaselineOfLastRead(ts, looks, j, k - 1);
    }
  }

  /** The client holds a prefix of the newest read of its file. */
  ghost predicate Holds(c: Client, ts: seq<Tailer>, looks: seq<Look>, r: nat, k: nat)
    requires IsRun(ts, looks) && k < |looks|
  {
    IsOwnRead(ts, looks, c.file, r, k) && Rising(c.held) && c.held <= looks[r].read.value.messages
  }

  lemma OwnReadIsLastRead(ts: seq<Tailer>, looks: seq<Look>, file: string, j: nat, r: nat, k: nat)
    requires IsRun(ts, looks) && j <= r <= k < |looks| && Succeeds(ts[j], looks[j])
    requires IsOwnRead(ts, looks, file, r, k) && looks[LastRead(ts, looks, j, k)].located == file
    ensures LastRead(ts, looks, j, k) == r
  {
    LastReadIsLast(ts, looks, j, k, r);
  }

  lemma {:induction false} LastReadIsLast(ts: seq<Tailer>, looks: seq<Look>, j: nat, k: nat, q: nat)
    requires IsRun(ts, looks) && j <= q <= k < |looks| && Succeeds(ts[j], looks[j]) && Succeeds(ts[q], looks[q])
    ensures q <= LastRead(ts, looks, j, k)
  {
    if !Succeeds(ts[k], looks[k]) {
      LastReadIsLast(ts, looks, j, k - 1, q);
    }
  }

  /**
   * A read of the client's own file, compared with it: published it brings the client up, unpublished it only
   * appends.
   */
  lemma OwnReadStep(c: Client, c': Client, ts: seq<Tailer>, looks: seq<Look>, j: nat, r: nat, k: nat)
    requires IsRun(ts, looks) && GoodReads(looks) && j <= r && j < k < |looks| && Succeeds(ts[j], looks[j])
    requires Holds(c, ts, looks, r, k - 1) && c' == NextClient(c, ts[k], looks[k])
    requires Succeeds(ts[k], looks[k]) && looks[k].located == c.file && (c.held != [] ==> ComparesOwn(ts, looks, j, k))
    ensures c'.file == c.file && c'.held <= looks[k].read.value.messages
    ensures Published(ts[k], looks[k]).Some? ==> c'.held == looks[k].read.value.messages
  {
    var t, l := ts[k], looks[k];
    if c.held == [] {
      EmptyHandedStep(c, t, l);
    } else {
      OwnReadIsLastRead(ts, looks, c.file, j, r, k - 1);
      BaselineOfLastRead(ts, looks, j, k - 1);
      ComparedStep(c, t, l, looks[r].read.value.messages);
    }
  }

  /** A client that holds nothing has everything after a published tick. */
  lemma EmptyHandedStep(c: Client, t: Tailer, l: Look)
    requires c.held == [] && c.file == l.located && Succeeds(t, l) && Rising(l.read.value.messages)
    ensures var c' := NextClient(c, t, l);
            && c'.file == c.file && c'.held <= l.read.value.messages
            && (Published(t, l).Some? ==> c'.held == l.read.value.messages)
  {
    if Published(t, l).Some? {
      AgreesIffKeptStands(c, t, l);
    }
  }

  /** One that holds a prefix of the compared read keeps up with the new one. */
  lemma ComparedStep(c: Client, t: Tailer, l: Look, last: seq<Message>)
    requires c.file == l.located && Succeeds(t, l) && !t.first && !Rotates(t, l) && t.baseline == Hashes(last)
    requires Rising(c.held) && Rising(last) && Rising(l.read.value.messages)
    requires c.held <= last && Stable(last, l.read.value.messages)
    ensures var c' := NextClient(c, t, l);
            && c'.file == c.file && c'.held <= l.read.value.messages
            && (Published(t, l).Some? ==> c'.held == l.read.value.messages)
  {
    if Published(t, l).Some? {
      RefetchCatchesUp(last, c.held, l.read.value.messages);
    } else {
      NoBackpatchAppends(last, l.read.value.messages);
    }
  }

  lemma HoldsStep(c: Client, c': Client, ts: seq<Tailer>, looks: seq<Look>, j: nat, r: nat, k: nat) returns (r': nat)
    requires IsRun(ts, looks) && GoodReads(looks) && j <= r && j < k < |looks| && Succeeds(ts[j], looks[j])
    requires Holds(c, ts, looks, r, k - 1) && c' == NextClient(c, ts[k], looks[k])
    requires Succeeds(ts[k], looks[k]) && looks[k].located == c.file && c.held != [] ==> ComparesOwn(ts, looks, j, k)
    ensures r <= r' && Holds(c', ts, looks, r', k)
    ensures Published(ts[k], looks[k]).Some? ==> c' == Client(looks[k].located, looks[k].read.value.messages)
  {
    var own := Succeeds(ts[k], looks[k]) && looks[k].located == c.file;
    r' := if own || Published(ts[k], looks[k]).Some? then k else r;
    if own {
      OwnReadStep(c, c', ts, looks, j, r, k);
    }
  }

  lemma {:induction false} ClientKeepsUp(cs: seq<Client>, ts: seq<Tailer>, looks: seq<Look>, j: nat, k: nat)
    returns (r: nat)
    requires IsRun(ts, looks) && GoodReads(looks) && Follows(cs, ts, looks, j) && ReadsCompareOwn(cs, ts, looks, j)
    requires j <= k < |looks|
    ensures j <= r && Holds(cs[k], ts, looks, r, k)
    ensures j < k && Published(ts[k], looks[k]).Some?
            ==> cs[k] == Client(looks[k].located, looks[k].read.value.messages)
  {
    if k == j {
      r := j;
    } else {
      r := ClientKeepsUp(cs, ts, looks, j, k - 1);
      assert FollowsAt(cs, ts, looks, k);
      r := HoldsStep(cs[k - 1], cs[k], ts, looks, j, r, k);
    }
  }

  /**
   * After every published tick the client's stream is what the tailer read, through failed reads and
   * rotations, failed ones too.
   */
  lemma ClientAgreesWhenPublished(cs: seq<Client>, ts: seq<Tailer>, looks: seq<Look>, j: nat, k: nat)
    requires IsRun(ts, looks) && GoodReads(looks) && Follows(cs, ts, looks, j) && ReadsCompareOwn(cs, ts, looks, j)
    requires j < k < |looks| && Published(ts[k], looks[k]).Some?
    ensures cs[k] == Client(looks[k].located, looks[k].read.value.messages)
  {
    var r := ClientKeepsUp(cs, ts, looks, j, k);
  }

  /** Every tick that moves to another file reads it. */
  ghost predicate MovesRead(ts: seq<Tailer>, looks: seq<Look>)
    requires IsRun(ts, looks)
  {
    forall i | 0 <= i < |looks| && looks[i].located != ts[i].path :: Succeeds(ts[i], looks[i])
  }

  lemma {:induction false} MovesReadStaysOnPath(cs: seq<Client>, ts: seq<Tailer>, looks: seq<Look>, j: nat, k: nat)
    requires IsRun(ts, looks) && GoodReads(looks) && Follows(cs, ts, looks, j) && MovesRead(ts, looks)
             && j <= k < |looks|
    ensures looks[LastRead(ts, looks, j, k)].located == ts[k + 1].path
    ensures cs[k].file == ts[k + 1].path || cs[k].file == ""
    ensures cs[k].file == "" ==> cs[k].held == []
  {
    assert ts[k + 1] == After(ts[k], looks[k]);
    if k > j {
      MovesReadStaysOnPath(cs, ts, looks, j, k - 1);
      assert FollowsAt(cs, ts, looks, k);
      if Published(ts[k], looks[k]).Some? && cs[k - 1].file == looks[k].located && cs[k - 1].held == [] {
        AgreesIffKeptStands(cs[k - 1], ts[k], looks[k]);
      }
    }
  }

  /** Where every move is read, every read of the client's file is compared with it. */
  lemma MovesReadCompareOwn(cs: seq<Client>, ts: seq<Tailer>, looks: seq<Look>, j: nat)
    requires IsRun(ts, looks) && GoodReads(looks) && Follows(cs, ts, looks, j) && MovesRead(ts, looks)
    ensures ReadsCompareOwn(cs, ts, looks, j)
  {
    forall k | j < k < |looks| && Succeeds(ts[k], looks[k]) && looks[k].located == cs[k - 1].file
                 && cs[k - 1].held != []
      ensures ComparesOwn(ts, looks, j, k)
    {
      MovesReadStaysOnPath(cs, ts, looks, j, k - 1);
    }
  }

  /** A read that publishes nothing is no rotation, and only adds messages at the end of the file it last read. */
  lemma UnpublishedReadsAppend(ts: seq<Tailer>, looks: seq<Look>, j: nat, k: nat)
    requires IsRun(ts, looks) && GoodReads(looks) && j < k < |looks| && Succeeds(ts[j], looks[j])
    requires Succeeds(ts[k], looks[k]) && Published(ts[k], looks[k]).None?
    ensures !Rotates(ts[k], looks[k])
    ensures var last := looks[LastRead(ts, looks, j, k - 1)];
            last.located == looks[k].located ==> last.read.value.messages <= looks[k].read.value.messages
  {
    BaselineOfLastRead(ts, looks, j, k - 1);
    var last := looks[LastRead(ts, looks, j, k - 1)];
    if last.located == looks[k].located {
      NoBackpatchAppends(last.read.value.messages, looks[k].read.value.messages);
    }
  }

  // ----- what is announced -----

  /** A prefix needs no back-patch. */
  lemma AppendsNeedNoBackpatch(before: seq<Message>, now: seq<Message>)
    requires Rising(before) && Rising(now) && before <= now
    ensures Lowest(Hashes(before), now) == 0
  {
    HashesOf(before);
    LowestIsLowest(Hashes(before), now);
    forall i | 0 <= i < |now| ensures !Rerendered(Hashes(before), now[i]) {
      if i < |before| {
        assert before[i] == now[i];
      } else if now[i].number in Hashes(before) {
        NumbersOfHashes(before, now[i].number);
      }
    }
  }

  lemma {:induction false} NumbersOfHashes(msgs: seq<Message>, number: nat)
    requires number in Hashes(msgs)
    ensures exists i :: 0 <= i < |msgs| && msgs[i].number == number
  {
    var front, last := msgs[..|msgs| - 1], msgs[|msgs| - 1];
    if last.number == number {
      assert msgs[|msgs| - 1].number == number;
    } else {
      NumbersOfHashes(front, number);
      var i :| 0 <= i < |front| && front[i].number == number;
      assert msgs[i].number == number;
    }
  }

  /** The stat a tick compares with: the file's own, as of the last tick that committed one; dropped by a rotation. */
  predicate Moved(t: Tailer, l: Look) {
    l.located != "" && l.stat.Some? && l.stat.value != t.stat
  }

  /**
   * A tick on the same path announces its read exactly when the stat moved, the state or its detail
   * changed, or an earlier message re-rendered; and it never reads without one of these or a new signal.
   */
  lemma AnnouncedIff(t: Tailer, l: Look, last: seq<Message>)
    requires !t.first && (t.path == "" || l.located == t.path) && t.baseline == Hashes(last) && l.read.Some?
    requires Rising(last) && Rising(l.read.value.messages) && Stable(last, l.read.value.messages)
    ensures Succeeds(t, l) <==> Moved(t, l) || l.sig != t.sig
    ensures Published(t, l).Some? <==>
            Succeeds(t, l) && (Moved(t, l) || l.read.value.state != t.state || l.read.value.detail != t.detail
                               || !(last <= l.read.value.messages))
  {
    if Lowest(Hashes(last), l.read.value.messages) == 0 {
      NoBackpatchAppends(last, l.read.value.messages);
    } else if last <= l.read.value.messages {
      AppendsNeedNoBackpatch(last, l.read.value.messages);
    }
  }

  /** A first read and a read after a rotation are always announced, with the state they read. */
  lemma FirstAndRotatedAreAnnounced(t: Tailer, l: Look)
    requires t.first || (t.path != "" && l.located != t.path)
    ensures Published(t, l).Some? <==> l.read.Some?
    ensures Published(t, l).Some? ==>
              Published(t, l).value.state == l.read.value.state && Published(t, l).value.detail == l.read.value.detail
  {
  }

  /**
   * A tick whose read failed is taken up by the next look at the same path, stat and signal, unless
   * all it had noticed was the move to another path, whose stat could not be read either.
   */
  lemma FailedReadIsRetriedIff(t: Tailer, l: Look, l': Look)
    requires Reads(t, l) && l.read.None? && l' == l.(read := l'.read) && (l.stat.Some? ==> l.stat.value != ZERO)
    ensures Reads(After(t, l), l') <==>
            || t.first || l.sig != t.sig
            || (l.located != "" && l.stat.Some? && (l.stat.value != t.stat || (t.path != "" && l.located != t.path)))
  {
  }

  /** The tailer's bookkeeping after a tick is that of its last read. */
  lemma {:induction false} SignalsOfLastRead(ts: seq<Tailer>, looks: seq<Look>, j: nat, k: nat)
    requires IsRun(ts, looks) && j <= k < |looks| && Succeeds(ts[j], looks[j])
    ensures var last := looks[LastRead(ts, looks, j, k)];
            ts[k + 1].sig == last.sig && ts[k + 1].state == last.read.value.state
            && ts[k + 1].detail == last.read.value.detail && !ts[k + 1].first
  {
    assert ts[k + 1] == After(ts[k], looks[k]);
    if !Succeeds(ts[k], looks[k]) {
      SignalsOfLastRead(ts, looks, j, k - 1);
    }
  }

  /** In any run, a read whose state or detail differs from the read before it is announced with them. */
  lemma StateChangesAreAnnounced(ts: seq<Tailer>, looks: seq<Look>, j: nat, k: nat)
    requires IsRun(ts, looks) && j < k < |looks| && Succeeds(ts[j], looks[j]) && Succeeds(ts[k], looks[k])
    requires var last := looks[LastRead(ts, looks, j, k - 1)].read.value;
             looks[k].read.value.state != last.state || looks[k].read.value.detail != last.detail
    ensures Published(ts[k], looks[k]).Some?
    ensures Published(ts[k], looks[k]).value.state == looks[k].read.value.state
    ensures Published(ts[k], looks[k]).value.detail == looks[k].read.value.detail
  {
    SignalsOfLastRead(ts, looks, j, k - 1);
  }

  // ----- files whose stat tells of their messages -----

  /** Every read file has a stat, and reads of one file with one stat found the same messages. */
  ghost predicate StatsTell(looks: seq<Look>) {
    && (forall i | 0 <= i < |looks| && looks[i].read.Some? && looks[i].located != "" ::
          looks[i].stat.Some? && looks[i].stat.value != ZERO)
    && (forall i, j | 0 <= i < j < |looks| && looks[i].read.Some? && looks[j].read.Some?
                      && looks[i].located == looks[j].located && looks[i].stat == looks[j].stat ::
          looks[i].read.value.messages == looks[j].read.value.messages)
  }

  /** Between reads the tailer remembers the stat of its last read while it stays on that path, none after it left. */
  ghost predicate Remembers(t: Tailer, last: Look) {
    t.stat == ZERO || (t.path == last.located && last.stat == Some(t.stat))
  }

  lemma {:induction false} PathlessRemembersNothing(ts: seq<Tailer>, looks: seq<Look>, n: nat)
    requires IsRun(ts, looks) && ts[0].stat == ZERO && n < |ts|
    ensures ts[n].path == "" ==> ts[n].stat == ZERO
  {
    if n > 0 {
      PathlessRemembersNothing(ts, looks, n - 1);
      assert ts[n] == After(ts[n - 1], looks[n - 1]);
    }
  }

  lemma {:induction false} RemembersLastRead(ts: seq<Tailer>, looks: seq<Look>, j: nat, k: nat)
    requires IsRun(ts, looks) && StatsTell(looks) && ts[0].stat == ZERO
    requires j <= k < |looks| && Succeeds(ts[j], looks[j])
    ensures Remembers(ts[k + 1], looks[LastRead(ts, looks, j, k)])
  {
    assert ts[k + 1] == After(ts[k], looks[k]);
    PathlessRemembersNothing(ts, looks, k);
    if k > j {
      RemembersLastRead(ts, looks, j, k - 1);
    }
  }

  /** Then a read that goes unannounced found the messages of the read before it, in the same file. */
  lemma UnannouncedReadsRepeat(ts: seq<Tailer>, looks: seq<Look>, j: nat, k: nat)
    requires IsRun(ts, looks) && GoodReads(looks) && StatsTell(looks) && ts[0].stat == ZERO
    requires j < k < |looks| && Succeeds(ts[j], looks[j])
    requires Succeeds(ts[k], looks[k]) && Published(ts[k], looks[k]).None? && looks[k].located != ""
    ensures var last := looks[LastRead(ts, looks, j, k - 1)];
            last.located == looks[k].located && last.read.value.messages == looks[k].read.value.messages
  {
    RemembersLastRead(ts, looks, j, k - 1);
    PathlessRemembersNothing(ts, looks, k);
  }

  /** The client's stream is the newest read of its file, announced or not. */
  ghost predicate HasAll(c: Client, ts: seq<Tailer>, looks: seq<Look>, r: nat, k: nat)
    requires IsRun(ts, looks) && k < |looks|
  {
    IsOwnRead(ts, looks, c.file, r, k) && c.held == looks[r].read.value.messages
  }

  lemma {:induction false} ClientHasEveryRead(cs: seq<Client>, ts: seq<Tailer>, looks: seq<Look>, j: nat, k: nat)
    returns (r: nat)
    requires IsRun(ts, looks) && GoodReads(looks) && StatsTell(looks) && ts[0].stat == ZERO
    requires Follows(cs, ts, looks, j) && ReadsCompareOwn(cs, ts, looks, j) && j <= k < |looks|
    ensures j <= r && HasAll(cs[k], ts, looks, r, k)
  {
    if k == j {
      r := j;
    } else {
      r := ClientHasEveryRead(cs, ts, looks, j, k - 1);
      assert FollowsAt(cs, ts, looks, k);
      if Published(ts[k], looks[k]).Some? {
        ClientAgreesWhenPublished(cs, ts, looks, j, k);
        r := k;
      } else if Succeeds(ts[k], looks[k]) && looks[k].located == cs[k].file {
        UnannouncedOwnRead(cs[k], ts, looks, j, r, k);
        r := k;
      }
    }
  }

  /** An unannounced read of the client's own file finds what the client has. */
  lemma UnannouncedOwnRead(c: Client, ts: seq<Tailer>, looks: seq<Look>, j: nat, r: nat, k: nat)
    requires IsRun(ts, looks) && GoodReads(looks) && StatsTell(looks) && ts[0].stat == ZERO
    requires j <= r < k < |looks| && Succeeds(ts[j], looks[j]) && HasAll(c, ts, looks, r, k - 1)
    requires Succeeds(ts[k], looks[k]) && Published(ts[k], looks[k]).None? && looks[k].located == c.file
    ensures c.held == looks[k].read.value.messages
  {
    if c.file != "" {
      UnannouncedReadsRepeat(ts, looks, j, k);
      OwnReadIsLastRead(ts, looks, c.file, j, r, k - 1);
    }
  }

  /**
   * Where a file's stat moves whenever its messages do, no message is missed: after every read of
   * its file, announced or not, the client's stream is that read.
   */
  lemma NothingIsMissed(cs: seq<Client>, ts: seq<Tailer>, looks: seq<Look>, j: nat, k: nat)
    requires IsRun(ts, looks) && GoodReads(looks) && StatsTell(looks) && ts[0].stat == ZERO
    requires Follows(cs, ts, looks, j) && ReadsCompareOwn(cs, ts, looks, j) && j <= k < |looks|
    requires Succeeds(ts[k], looks[k]) && looks[k].located == cs[k].file
    ensures cs[k].held == looks[k].read.value.messages
  {
    var r := ClientHasEveryRead(cs, ts, looks, j, k);
  }

  // ----- what a failed rotation read costs -----

  const WAS := [Message(1, "a")]
  const NOW := [Message(1, "b")]
  const READ_WAS := Look("old", Some(Stat(1, 1)), "", Some(Chat(WAS, "", "")))
  const LOST := Look("new", Some(Stat(2, 2)), "", None)

  /** A run of the tail loop from its start. */
  ghost predicate Starts(ts: seq<Tailer>, looks: seq<Look>) {
    IsRun(ts, looks) && GoodReads(looks) && ts[0] == Tailer("old", ZERO, "", "", "", true, map[])
  }

  lemma LostRun(third: Look) returns (ts: seq<Tailer>)
    requires third.read == Some(Chat(NOW, "", "")) && (third.located == "old" || third.located == "new")
    ensures Starts(ts, [READ_WAS, LOST, third]) && Succeeds(ts[0], READ_WAS)
    ensures ts[2] == Tailer("new", ZERO, "", "", "", false, Hashes(WAS))
  {
    var t0 := Tailer("old", ZERO, "", "", "", true, map[]);
    var t1, t2 := After(t0, READ_WAS), After(After(t0, READ_WAS), LOST);
    ts := [t0, t1, t2, After(t2, third)];
  }

  /**
   * The tailer leaves the client's file on a failed read and comes back: nothing is flagged, and the client
   * stays stale.
   */
  lemma FailedRotationLeavesStale() returns (cs: seq<Client>, ts: seq<Tailer>, looks: seq<Look>)
    ensures Starts(ts, looks) && Follows(cs, ts, looks, 0) && |looks| == 3 && looks[1].read.None?
    ensures Published(ts[2], looks[2]) == Some(Envelope("", "", 0))
    ensures cs[2].file == looks[2].located && cs[2].held != looks[2].read.value.messages
  {
    var back := Look("old", Some(Stat(3, 3)), "", Some(Chat(NOW, "", "")));
    looks := [READ_WAS, LOST, back];
    ts := LostRun(back);
    LowestIsLowest(map[], NOW);
    var c := Client("old", WAS);
    var c' := NextClient(c, ts[2], back);
    RotationBackAgreesIff(c, ts[2], back);
    cs := [c, c, c'];
    assert FollowsAt(cs, ts, looks, 1);
    assert FollowsAt(cs, ts, looks, 2);
  }

  /** A rotation whose read fails makes the next read compare two files: a fresh transcript publishes a back-patch. */
  lemma FailedRotationFlagsFreshFile() returns (ts: seq<Tailer>, looks: seq<Look>)
    ensures Starts(ts, looks) && |looks| == 3 && looks[1].read.None? && looks[2].located != looks[0].located
    ensures Published(ts[2], looks[2]) == Some(Envelope("", "", 1))
  {
    var fresher := Look("new", Some(Stat(2, 2)), "", Some(Chat(NOW, "", "")));
    looks := [READ_WAS, LOST, fresher];
    ts := LostRun(fresher);
    HashesOf(WAS);
    LowestIsLowest(Hashes(WAS), NOW);
    assert Rerendered(Hashes(WAS), NOW[0]);
  }

  /** A read opened by a signal alone, ahead of the stat, finds an appended message and announces nothing yet. */
  lemma SignalReadHidesAppend() returns (cs: seq<Client>, ts: seq<Tailer>, looks: seq<Look>)
    ensures Starts(ts, looks) && Follows(cs, ts, looks, 0) && |looks| == 2 && looks[1].stat == looks[0].stat
    ensures Succeeds(ts[1], looks[1]) && cs[1].file == looks[1].located
    ensures cs[1].held < looks[1].read.value.messages
  {
    var longer := WAS + [Message(2, "c")];
    var flip := Look("old", Some(Stat(1, 1)), "flip", Some(Chat(longer, "", "")));
    looks := [READ_WAS, flip];
    var t0 := Tailer("old", ZERO, "", "", "", true, map[]);
    var t1 := After(t0, READ_WAS);
    ts := [t0, t1, After(t1, flip)];
    AnnouncedIff(t1, flip, WAS);
    cs := [Client("old", WAS), Client("old", WAS)];
    assert FollowsAt(cs, ts, looks, 1);
  }
}
