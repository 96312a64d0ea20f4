/**
 * Credential rotation of one provider: adopt the newest family an instance refreshed by itself,
 * poke the master store now and then, and fan the master's family out to the live homes.
 */
module CredRotate {
  import opened Text

  type RunId = nat

  const POKE_EVERY := 15 * 60

  /** A credential file: the token family it holds, its modification time, and whether its tokens are there. */
  datatype File = File(family: int, mtime: int, loggedIn: bool)

  /** The opaque signature; None when the file is absent or logged out. */
  function Sig(f: Option<File>): Option<int> {
    if f.Some? && f.value.loggedIn then Some(f.value.mtime) else None
  }

  function FileOf(files: map<RunId, File>, r: RunId): Option<File> {
    if r in files then Some(files[r]) else None
  }

  /** A home whose signature left the one last injected into it: its CLI refreshed by itself. */
  predicate Diverged(files: map<RunId, File>, baseline: map<RunId, int>, r: RunId) {
    r in baseline && Sig(FileOf(files, r)).Some? && Sig(FileOf(files, r)) != Some(baseline[r])
  }

  /** A home with credentials nobody stamped: a row older than the baselines. */
  predicate Unstamped(files: map<RunId, File>, baseline: map<RunId, int>, r: RunId) {
    r !in baseline && Sig(FileOf(files, r)).Some?
  }

  /** The runs whose adopt, inject or stamp fails this time. */
  datatype Faults = Faults(adopt: set<RunId>, inject: set<RunId>, stamp: set<RunId>)

  const NO_FAULTS := Faults({}, {}, {})

  /** The newest diverged home whose adopt succeeds. */
  ghost predicate NewestAdoptable(files: map<RunId, File>, baseline: map<RunId, int>, live: seq<RunId>,
                                  failing: set<RunId>, r: RunId) {
    && r in live && r in files && Diverged(files, baseline, r) && r !in failing
    && forall q | q in live && Diverged(files, baseline, q) && q !in failing :: files[q].mtime <= files[r].mtime
  }

  predicate Distinct(runs: seq<RunId>) {
    forall i, j | 0 <= i < j < |runs| :: runs[i] != runs[j]
  }

  datatype Candidate = Candidate(run: RunId, mtime: int)

  /** The diverged homes of the listing, in its order. */
  function Candidates(files: map<RunId, File>, baseline: map<RunId, int>, live: seq<RunId>): (r: seq<Candidate>)
    ensures forall c :: c in r <==>
              c.run in live && Diverged(files, baseline, c.run) && c.run in files && files[c.run].mtime == c.mtime
  {
    if live == [] then []
    else
      var front, last := live[..|live| - 1], live[|live| - 1];
      assert live == front + [last];
      Candidates(files, baseline, front)
      + if Diverged(files, baseline, last) then [Candidate(last, files[last].mtime)] else []
  }

  predicate NewestFirst(cs: seq<Candidate>) {
    forall k, l | 0 <= k < l < |cs| :: cs[k].mtime >= cs[l].mtime
  }

  /** The candidates of one modification time, in listing order. */
  function OfTime(cs: seq<Candidate>, mtime: int): seq<Candidate> {
    if cs == [] then []
    else if cs[0].mtime == mtime then [cs[0]] + OfTime(cs[1..], mtime)
    else OfTime(cs[1..], mtime)
  }

  lemma {:induction false} OfTimeConcat(a: seq<Candidate>, b: seq<Candidate>, mtime: int)
    ensures OfTime(a + b, mtime) == OfTime(a, mtime) + OfTime(b, mtime)
  {
    if a == [] {
      assert a + b == b;
    } else {
      assert (a + b)[1..] == a[1..] + b;
      OfTimeConcat(a[1..], b, mtime);
    }
  }

  lemma {:induction false} NoneOfTime(cs: seq<Candidate>, mtime: int)
    requires forall i | 0 <= i < |cs| :: cs[i].mtime != mtime
    ensures OfTime(cs, mtime) == []
  {
    if cs != [] {
      NoneOfTime(cs[1..], mtime);
    }
  }

  function InsertAt(cs: seq<Candidate>, k: nat, c: Candidate): seq<Candidate>
    requires k <= |cs|
  {
    cs[..k] + [c] + cs[k..]
  }

  lemma InsertAtSorts(cs: seq<Candidate>, k: nat, c: Candidate)
    requires NewestFirst(cs) && k <= |cs|
    requires k > 0 ==> cs[k - 1].mtime >= c.mtime
    requires k < |cs| ==> cs[k].mtime < c.mtime
    ensures NewestFirst(InsertAt(cs, k, c))
  {
    var out := InsertAt(cs, k, c);
    forall i, j | 0 <= i < j < |out| ensures out[i].mtime >= out[j].mtime {
      var x := if i < k then cs[i] else if i == k then c else cs[i - 1];
      assert out[i] == x;
    }
  }

  lemma TailIsOlder(cs: seq<Candidate>, k: nat, mtime: int)
    requires NewestFirst(cs) && k <= |cs| && (k < |cs| ==> cs[k].mtime < mtime)
    ensures OfTime(cs[k..], mtime) == []
  {
    forall i | 0 <= i < |cs[k..]| ensures cs[k..][i].mtime != mtime {
      assert cs[k..][i] == cs[k + i];
    }
    NoneOfTime(cs[k..], mtime);
  }

  lemma OfTimeOne(c: Candidate, mtime: int)
    ensures OfTime([c], mtime) == if c.mtime == mtime then [c] else []
  {
    assert [c][1..] == [];
  }

  lemma OfTimeBetween(a: seq<Candidate>, c: Candidate, b: seq<Candidate>, mtime: int)
    ensures OfTime(a + [c] + b, mtime) == OfTime(a, mtime) + OfTime([c], mtime) + OfTime(b, mtime)
  {
    OfTimeConcat(a + [c], b, mtime);
    OfTimeConcat(a, [c], mtime);
  }

  lemma EmptyLast(x: seq<Candidate>, y: seq<Candidate>, z: seq<Candidate>)
    requires y == [] || z == []
    ensures x + y + z == x + z + y
  {
  }

  /** Behind everything as new as it is, the newcomer comes last of its time. */
  lemma InsertAtIsStable(cs: seq<Candidate>, k: nat, c: Candidate, mtime: int)
    requires NewestFirst(cs) && k <= |cs| && (k < |cs| ==> cs[k].mtime < c.mtime)
    ensures OfTime(InsertAt(cs, k, c), mtime) == OfTime(cs, mtime) + OfTime([c], mtime)
  {
    var x, y, z := OfTime(cs[..k], mtime), OfTime([c], mtime), OfTime(cs[k..], mtime);
    assert OfTime(InsertAt(cs, k, c), mtime) == x + y + z by {
      OfTimeBetween(cs[..k], c, cs[k..], mtime);
    }
    assert OfTime(cs, mtime) == x + z by {
      OfTimeConcat(cs[..k], cs[k..], mtime);
      assert cs == cs[..k] + cs[k..];
    }
    assert y == [] || z == [] by {
      OfTimeOne(c, mtime);
      if mtime == c.mtime {
        TailIsOlder(cs, k, mtime);
      }
    }
    EmptyLast(x, y, z);
  }

  lemma InsertAtAdds(cs: seq<Candidate>, k: nat, c: Candidate)
    requires k <= |cs|
    ensures multiset(InsertAt(cs, k, c)) == multiset(cs) + multiset{c}
  {
    assert cs == cs[..k] + cs[k..];
  }

  method Insert(cs: seq<Candidate>, c: Candidate) returns (out: seq<Candidate>)
    requires NewestFirst(cs)
    ensures NewestFirst(out) && multiset(out) == multiset(cs) + multiset{c}
    ensures forall mtime :: OfTime(out, mtime) == OfTime(cs, mtime) + OfTime([c], mtime)
  {
    var k := |cs|;
    while k > 0 && cs[k - 1].mtime < c.mtime
      invariant 0 <= k <= |cs|
      invariant k < |cs| ==> cs[k].mtime < c.mtime
    {
      k := k - 1;
    }
    InsertAtSorts(cs, k, c);
    InsertAtAdds(cs, k, c);
    forall mtime ensures OfTime(InsertAt(cs, k, c), mtime) == OfTime(cs, mtime) + OfTime([c], mtime) {
      InsertAtIsStable(cs, k, c, mtime);
    }
    out := InsertAt(cs, k, c);
  }

  /** The same candidates, newest first, those of one time in listing order. */
  method SortNewestFirst(cs: seq<Candidate>) returns (out: seq<Candidate>)
    ensures NewestFirst(out) && multiset(out) == multiset(cs)
    ensures forall mtime :: OfTime(out, mtime) == OfTime(cs, mtime)
  {
    out := [];
    for i := 0 to |cs|
      invariant NewestFirst(out) && multiset(out) == multiset(cs[..i])
      invariant forall mtime :: OfTime(out, mtime) == OfTime(cs[..i], mtime)
    {
      assert cs[..i + 1] == cs[..i] + [cs[i]];
      forall mtime ensures OfTime(cs[..i + 1], mtime) == OfTime(cs[..i], mtime) + OfTime([cs[i]], mtime) {
        OfTimeConcat(cs[..i], [cs[i]], mtime);
      }
      out := Insert(out, cs[i]);
    }
    assert cs[..|cs|] == cs;
  }

  /** The baselines once every listed home with credentials has one. */
  function Stamped(files: map<RunId, File>, baseline: map<RunId, int>, live: seq<RunId>,
                   failing: set<RunId>): map<RunId, int> {
    map r | r in baseline.Keys + files.Keys
      && (r in baseline || (r in live && r !in failing && Unstamped(files, baseline, r)))
      :: if r in baseline then baseline[r] else files[r].mtime
  }

  /** The fed homes that scan leaves fed: a home stamped with whatever it held is fed no more. */
  function StillFed(files: map<RunId, File>, baseline: map<RunId, int>, live: seq<RunId>, failing: set<RunId>,
                    fed: set<RunId>): set<RunId> {
    set r | r in fed && !(r in live && r !in failing && Unstamped(files, baseline, r))
  }

  lemma SameElements(a: seq<Candidate>, b: seq<Candidate>)
    requires multiset(a) == multiset(b)
    ensures forall c :: c in a <==> c in b
  {
    forall c ensures c in a <==> c in b {
      assert c in a <==> c in multiset(a);
      assert c in b <==> c in multiset(b);
    }
  }

  /** The run's home file and its baseline are as they were. */
  predicate SameRun(files: map<RunId, File>, baseline: map<RunId, int>, files0: map<RunId, File>,
                    baseline0: map<RunId, int>, r: RunId) {
    && FileOf(files, r) == FileOf(files0, r)
    && (r in baseline <==> r in baseline0) && (r in baseline ==> baseline[r] == baseline0[r])
  }

  /** The run's home file is as it was, and so is its baseline if it had one. */
  predicate KeptFile(files: map<RunId, File>, baseline: map<RunId, int>, files0: map<RunId, File>,
                     baseline0: map<RunId, int>, r: RunId) {
    FileOf(files, r) == FileOf(files0, r) && (r in baseline0 ==> r in baseline && baseline[r] == baseline0[r])
  }

  class Rotation {
    var master: Option<File>
    var files: map<RunId, File>
    var baseline: map<RunId, int>
    var lastPoke: Option<int>
    var lastMaster: Option<Option<int>>  // the last observed master signature; None before the first
    var clock: int                       // every write gets a fresh modification time
    ghost var fed: set<RunId>            // homes last written and stamped from the master lastMaster saw, or later

    constructor (master: Option<File>, files: map<RunId, File>, baseline: map<RunId, int>, clock: int)
      requires master.Some? ==> master.value.mtime < clock
      requires forall r | r in files :: files[r].mtime < clock
      requires forall r | r in baseline :: baseline[r] < clock
      ensures Valid() && lastMaster.None? && fed == {}
      ensures this.master == master && this.files == files && this.baseline == baseline
    {
      this.master, this.files, this.baseline, this.clock := master, files, baseline, clock;
      lastPoke, lastMaster, fed := None, None, {};
    }

    /**
     * Writes are told apart by their times, and a fed home that nobody touched since holds the
     * master's family unless the master itself has changed unseen.
     */
    ghost predicate Valid()
      reads this
    {
      && TimesHold() && FedHold()
    }

    ghost predicate TimesHold()
      reads this
    {
      && (master.Some? ==> master.value.mtime < clock)
      && (forall r | r in files :: files[r].mtime < clock)
      && (forall r | r in baseline :: baseline[r] < clock)
      && (lastMaster.Some? && lastMaster.value.Some? ==> lastMaster.value.value < clock)
    }

    ghost predicate FedHold()
      reads this
    {
      lastMaster == Some(Sig(master)) && Sig(master).Some? ==>
        forall r | r in fed && InSync(r) :: files[r].family == master.value.family
    }

    /** The home's signature is the one last injected into it. */
    ghost predicate InSync(r: RunId)
      reads this
    {
      r in files && r in baseline && Sig(FileOf(files, r)) == Some(baseline[r])
    }

    predicate PokeDue(now: int)
      reads this
    {
      lastPoke.None? || now - lastPoke.value >= POKE_EVERY
    }

    /** Every live, logged-in home holds the master's family. */
    ghost predicate FamilyHolds(live: seq<RunId>)
      reads this
    {
      master.Some? && forall r | r in live && Sig(FileOf(files, r)).Some? :: files[r].family == master.value.family
    }

    /**
     * Whether a tick will fan out: a self-refreshed home, a master signature not seen before, or a poke that
     * rotates.
     */
    ghost predicate WillFanOut(now: int, live: seq<RunId>, rotated: Option<(int, bool)>)
      reads this
    {
      || (exists r | r in live :: Diverged(files, baseline, r))
      || lastMaster != Some(Sig(master))
      || (PokeDue(now) && rotated.Some?)
    }

    /** Nothing for a tick to do but poke. */
    ghost predicate Settled(live: seq<RunId>)
      reads this
    {
      && lastMaster == Some(Sig(master))
      && forall r | r in live :: !Diverged(files, baseline, r) && !Unstamped(files, baseline, r)
    }

    method WriteMaster(family: int, loggedIn: bool)
      modifies this`master, this`clock
      ensures master == Some(File(family, old(clock), loggedIn)) && clock == old(clock) + 1
    {
      master := Some(File(family, clock, loggedIn));
      clock := clock + 1;
    }

    /** UpdateRunCredSig: an empty signature clears the baseline. */
    method Stamp(r: RunId, sig: Option<int>, ok: bool)
      modifies this`baseline
      ensures baseline == if !ok then old(baseline)
                          else if sig.Some? then old(baseline)[r := sig.value] else old(baseline) - {r}
    {
      if ok {
        baseline := if sig.Some? then baseline[r := sig.value] else baseline - {r};
      }
    }

    /** Adopt copies a logged-in home's file over the master; a logged-out one is refused. */
    method Adopt(r: RunId, ok: bool) returns (done: bool)
      modifies this`master, this`clock
      ensures done == (ok && Sig(FileOf(files, r)).Some?)
      ensures done ==> master == Some(File(files[r].family, old(clock), true)) && clock == old(clock) + 1
      ensures !done ==> master == old(master) && clock == old(clock)
    {
      done := ok && r in files && files[r].loggedIn;
      if done {
        WriteMaster(files[r].family, true);
      }
    }

    /** Homes with credentials but no baseline get one: whatever they hold. */
    method StampUnstamped(live: seq<RunId>, failing: set<RunId>)
      modifies this`baseline, this`fed
      ensures baseline == Stamped(files, old(baseline), live, failing)
      ensures fed == StillFed(files, old(baseline), live, failing, old(fed))
      ensures forall r | r in old(baseline) :: r in baseline && baseline[r] == old(baseline)[r]
      ensures forall r | r !in old(baseline) ::
                && (r in baseline <==> r in live && r !in failing && r in files && files[r].loggedIn)
                && (r in baseline ==> baseline[r] == files[r].mtime)
      ensures forall r :: r in fed <==> r in old(fed) && (r in baseline ==> r in old(baseline))
    {
      ghost var was, fedWas := baseline, fed;
      fed := StillFed(files, was, live, failing, fedWas);
      for i := 0 to |live|
        invariant baseline == Stamped(files, was, live[..i], failing)
        invariant fed == StillFed(files, was, live, failing, fedWas)
      {
        assert live[..i + 1] == live[..i] + [live[i]];
        var sig := Sig(FileOf(files, live[i]));
        if live[i] !in baseline && sig.Some? {
          Stamp(live[i], sig, live[i] !in failing);
        }
      }
      assert live[..|live|] == live;
    }

    /** The newest candidate whose adopt succeeds goes over the master; the others are tried no more. */
    method AdoptNewest(candidates: seq<Candidate>, failing: set<RunId>) returns (adopted: Option<RunId>)
      requires forall c | c in candidates :: c.run in files && files[c.run].loggedIn && files[c.run].mtime == c.mtime
      modifies this`master, this`clock
      ensures adopted.None?
              ==> master == old(master) && clock == old(clock) && forall c | c in candidates :: c.run in failing
      ensures adopted.Some? ==>
                && (exists c | c in candidates :: c.run == adopted.value) && adopted.value !in failing
                && (forall c | c in candidates && c.run !in failing :: c.mtime <= files[adopted.value].mtime)
                && master == Some(File(files[adopted.value].family, old(clock), true)) && clock == old(clock) + 1
    {
      var sorted := SortNewestFirst(candidates);
      SameElements(sorted, candidates);
      for i := 0 to |sorted|
        invariant forall k | 0 <= k < i :: sorted[k].run in failing
        invariant master == old(master) && clock == old(clock)
      {
        var run := sorted[i].run;
        assert sorted[i] in candidates;
        var done := Adopt(run, run !in failing);
        if done {
          return Some(run);
        }
      }
      return None;
    }

    /** Stamps the unstamped and adopts the newest self-refreshed family. */
    method AdoptScan(live: seq<RunId>, faults: Faults) returns (adopted: Option<RunId>)
      modifies this`master, this`baseline, this`clock, this`fed
      ensures baseline == Stamped(files, old(baseline), live, faults.stamp)
      ensures fed == StillFed(files, old(baseline), live, faults.stamp, old(fed))
      ensures adopted.None? ==>
                && master == old(master) && clock == old(clock)
                && forall r | r in live && Diverged(files, old(baseline), r) :: r in faults.adopt
      ensures adopted.Some? ==>
                && NewestAdoptable(files, old(baseline), live, faults.adopt, adopted.value)
                && master == Some(File(files[adopted.value].family, old(clock), true)) && clock == old(clock) + 1
    {
      var candidates := Candidates(files, baseline, live);
      ghost var was := baseline;
      StampUnstamped(live, faults.stamp);
      adopted := AdoptNewest(candidates, faults.adopt);
      forall r | r in live && Diverged(files, was, r) ensures r in files && Candidate(r, files[r].mtime) in candidates {
      }
    }

    /** Inject copies the master's file into a home; an absent master writes nothing. */
    method Inject(r: RunId)
      modifies this`files, this`clock
      ensures files == if master.None? then old(files)
                       else old(files)[r := File(master.value.family, old(clock), master.value.loggedIn)]
      ensures clock == if master.Some? then old(clock) + 1 else old(clock)
    {
      if master.Some? {
        files := files[r := File(master.value.family, clock, master.value.loggedIn)];
        clock := clock + 1;
      }
    }

    /** A run's home holds a copy of the master's file, made since `since`, and its baseline says so. */
    ghost predicate CopyOfMaster(r: RunId, since: int)
      reads this
    {
      && master.Some? && r in files && since <= files[r].mtime < clock
      && files[r].family == master.value.family && files[r].loggedIn == master.value.loggedIn
      && Sig(FileOf(files, r)) == if r in baseline then Some(baseline[r]) else None
    }

    /** Re-injects and re-stamps one home; a failed inject leaves it as it was. */
    method Feed(r: RunId, faults: Faults)
      requires TimesHold() && master.Some?
      modifies this`files, this`baseline, this`clock
      ensures TimesHold() && clock >= old(clock)
      ensures r !in faults.inject && r !in faults.stamp ==> CopyOfMaster(r, old(clock))
      ensures forall q | q != r || r in faults.inject :: SameRun(files, baseline, old(files), old(baseline), q)
    {
      if r !in faults.inject {
        Inject(r);
        Stamp(r, Sig(FileOf(files, r)), r !in faults.stamp);
      }
    }

    ghost predicate AllCopies(runs: set<RunId>, since: int)
      reads this
    {
      forall r | r in runs :: CopyOfMaster(r, since)
    }

    /** Re-injects and re-stamps every listed home; a failed home is left as it was. */
    method FanOut(runs: seq<RunId>, faults: Faults)
      requires TimesHold() && Distinct(runs) && master.Some?
      modifies this`files, this`baseline, this`lastMaster, this`clock, this`fed
      ensures TimesHold() && FedHold()
      ensures lastMaster == Some(Sig(master)) && clock >= old(clock)
      ensures fed == set r | r in runs && r !in faults.inject && r !in faults.stamp
      ensures AllCopies(fed, old(clock))
      ensures forall r | r !in runs || r in faults.inject :: SameRun(files, baseline, old(files), old(baseline), r)
    {
      ghost var since := clock;
      ghost var copied: set<RunId> := {};
      for i := 0 to |runs|
        invariant TimesHold() && clock >= since
        invariant copied == set r | r in runs[..i] && r !in faults.inject && r !in faults.stamp
        invariant AllCopies(copied, since)
        invariant forall r | r !in runs[..i] || r in faults.inject ::
                    SameRun(files, baseline, old(files), old(baseline), r)
      {
        assert runs[..i + 1] == runs[..i] + [runs[i]];
        assert runs[i] !in runs[..i];
        ghost var files0, baseline0 := files, baseline;
        Feed(runs[i], faults);
        forall r | r in copied ensures CopyOfMaster(r, since) {
          assert SameRun(files, baseline, files0, baseline0, r);
        }
        forall r | r !in runs[..i + 1] || r in faults.inject
          ensures SameRun(files, baseline, old(files), old(baseline), r)
        {
          assert SameRun(files, baseline, files0, baseline0, r);
          assert SameRun(files0, baseline0, old(files), old(baseline), r);
        }
        if runs[i] !in faults.inject && runs[i] !in faults.stamp {
          copied := copied + {runs[i]};
        }
      }
      assert runs[..|runs|] == runs;
      fed := copied;
      lastMaster := Some(Sig(master));
    }

    /** The blind poke: when due, the master's own CLI may rotate its family, or lose it. */
    method Poke(now: int, rotated: Option<(int, bool)>)
      requires TimesHold()
      modifies this`lastPoke, this`master, this`clock
      ensures TimesHold() && clock >= old(clock)
      ensures lastPoke == if old(PokeDue(now)) then Some(now) else old(lastPoke)
      ensures lastPoke == if old(lastPoke).Some? && now - old(lastPoke).value < 900 then old(lastPoke) else Some(now)
      ensures if old(PokeDue(now)) && Sig(old(master)).Some? && rotated.Some?
              then master == Some(File(rotated.value.0, old(clock), rotated.value.1))
              else master == old(master) && clock == old(clock)
    {
      if PokeDue(now) {
        lastPoke := Some(now);
        if Sig(master).Some? && rotated.Some? {
          WriteMaster(rotated.value.0, rotated.value.1);
        }
      }
    }

    /** Step 1 of a tick: adopt, and fan an adopted family out at once. */
    method AdoptAndFanOut(live: seq<RunId>, faults: Faults) returns (adopted: Option<RunId>)
      requires Valid() && Distinct(live)
      modifies this
      ensures Valid() && clock >= old(clock) && lastPoke == old(lastPoke)
      ensures adopted.Some? ==>
                && NewestAdoptable(old(files), old(baseline), live, faults.adopt, adopted.value)
                && master.Some? && master.value.family == old(files)[adopted.value].family && master.value.loggedIn
                && lastMaster == Some(Sig(master))
                && fed == set r | r in live && r !in faults.inject && r !in faults.stamp
      ensures forall r | r !in live :: SameRun(files, baseline, old(files), old(baseline), r)
      ensures forall r | r in faults.inject :: KeptFile(files, baseline, old(files), old(baseline), r)
      ensures adopted.None? ==>
                && master == old(master) && lastMaster == old(lastMaster) && files == old(files) && clock == old(clock)
                && fed == StillFed(files, old(baseline), live, faults.stamp, old(fed))
                && baseline == Stamped(files, old(baseline), live, faults.stamp)
                && forall r | r in live && Diverged(files, old(baseline), r) :: r in faults.adopt
      ensures faults == NO_FAULTS
              ==> forall r | r in live :: !Diverged(files, baseline, r) && !Unstamped(files, baseline, r)
    {
      ghost var was := baseline;
      adopted := AdoptScan(live, faults);
      assert TimesHold();
      if adopted.Some? {
        FanOut(live, faults);
        assert faults == NO_FAULTS ==> forall r | r in live :: r in fed && CopyOfMaster(r, old(clock));
      }
    }

    /**
     * One tick. Without faults it leaves nothing to adopt or stamp; a settled state it leaves
     * alone but for the poke; and whenever it fans out, every live home is fed.
     */
    method Tick(now: int, live: seq<RunId>, faults: Faults, rotated: Option<(int, bool)>)
      returns (adopted: Option<RunId>)
      requires Valid() && Distinct(live)
      modifies this
      ensures Valid() && lastMaster == Some(Sig(master))
      ensures adopted.Some? <==> exists r :: r in live && Diverged(old(files), old(baseline), r) && r !in faults.adopt
      ensures adopted.Some? ==> NewestAdoptable(old(files), old(baseline), live, faults.adopt, adopted.value)
      ensures adopted.Some? && !(old(PokeDue(now)) && rotated.Some?) ==>
                master.Some? && master.value.loggedIn && master.value.family == old(files)[adopted.value].family
      ensures adopted.None? && !(old(PokeDue(now)) && rotated.Some?) ==> master == old(master)
      ensures lastPoke == if old(PokeDue(now)) then Some(now) else old(lastPoke)
      ensures lastPoke == if old(lastPoke).Some? && now - old(lastPoke).value < 900 then old(lastPoke) else Some(now)
      ensures faults == NO_FAULTS ==> Settled(live)
      ensures faults == NO_FAULTS ==>
                fed == (set r | r in live) || fed == StillFed(old(files), old(baseline), live, {}, old(fed))
      ensures faults == NO_FAULTS && (adopted.Some? || (Sig(master).Some? && old(lastMaster) != Some(Sig(master)))) ==>
                fed == set r | r in live
      ensures adopted.None? && master == old(master) && (old(lastMaster) == Some(Sig(master)) || Sig(master).None?) ==>
                files == old(files) && baseline == Stamped(files, old(baseline), live, faults.stamp)
      ensures forall r | r !in live :: SameRun(files, baseline, old(files), old(baseline), r)
      ensures forall r | r in faults.inject :: KeptFile(files, baseline, old(files), old(baseline), r)
      ensures faults == NO_FAULTS && Sig(master).Some? ==>
                (FamilyHolds(live) <==> old(WillFanOut(now, live, rotated)) || old(FamilyHolds(live)))
      ensures old(Settled(live)) && !old(PokeDue(now)) ==>
                && master == old(master) && files == old(files) && baseline == old(baseline)
                && lastMaster == old(lastMaster) && clock == old(clock)
    {
      adopted := AdoptAndFanOut(live, faults);
      Poke(now, rotated);
      ghost var fansOut, since := Sig(master).Some? && lastMaster != Some(Sig(master)), clock;
      FanOutChange(live, faults);
      assert fansOut && faults == NO_FAULTS ==> forall r | r in live :: r in fed && CopyOfMaster(r, since);
    }

    /** Steps 3 and 4: a master signature not seen before, at bootstrap or after a write, is fanned out. */
    method FanOutChange(live: seq<RunId>, faults: Faults)
      requires TimesHold() && Distinct(live) && (lastMaster == Some(Sig(master)) ==> FedHold())
      modifies this`files, this`baseline, this`lastMaster, this`clock, this`fed
      ensures Valid() && lastMaster == Some(Sig(master)) && clock >= old(clock)
      ensures forall r | r !in live :: SameRun(files, baseline, old(files), old(baseline), r)
      ensures forall r | r in faults.inject :: KeptFile(files, baseline, old(files), old(baseline), r)
      ensures if Sig(master).Some? && old(lastMaster) != Some(Sig(master))
              then fed == (set r | r in live && r !in faults.inject && r !in faults.stamp) && AllCopies(fed, old(clock))
              else files == old(files) && baseline == old(baseline) && fed == old(fed) && clock == old(clock)
    {
      var sig := Sig(master);
      if sig.Some? && lastMaster != Some(sig) {
        FanOut(live, faults);
      }
      lastMaster := Some(sig);
    }

    /**
     * Before a home is wiped: a family it refreshed by itself reaches the master, and the other
     * live homes; a home with nothing to lose changes nothing.
     */
    method AdoptCheck(r: RunId, others: seq<RunId>, faults: Faults) returns (adopted: bool)
      requires Valid() && Distinct(others) && r !in others
      modifies this
      ensures Valid()
      ensures adopted <==> Diverged(old(files), old(baseline), r) && r !in faults.adopt
      ensures adopted ==>
                && master.Some? && master.value.loggedIn && master.value.family == old(files)[r].family
                && FileOf(files, r) == FileOf(old(files), r) && lastMaster == Some(Sig(master))
                && fed == set q | q in others && q !in faults.inject && q !in faults.stamp
      ensures !adopted ==>
                && master == old(master) && files == old(files) && baseline == old(baseline)
                && lastMaster == old(lastMaster) && fed == old(fed)
    {
      if r !in baseline {
        return false;
      }
      var sig := Sig(FileOf(files, r));
      if sig.None? || sig.value == baseline[r] {
        return false;
      }
      adopted := Adopt(r, r !in faults.adopt);
      if adopted {
        FanOut(others, faults);
      }
    }

    // ----- what happens between ticks -----

    /** A launch injects the master's file into the new home and stamps it. */
    method Launch(r: RunId)
      requires Valid() && r !in files && r !in baseline && r !in fed
      modifies this`files, this`baseline, this`clock, this`fed
      ensures Valid()
      ensures master.Some? ==> fed == old(fed) + {r} && CopyOfMaster(r, old(clock))
      ensures forall q | q != r :: SameRun(files, baseline, old(files), old(baseline), q)
      ensures master.None? ==> fed == old(fed) && files == old(files) && baseline == old(baseline)
    {
      Inject(r);
      if master.Some? {
        Stamp(r, Sig(FileOf(files, r)), true);
        fed := fed + {r};
      }
    }

    /** An instance's CLI rewrites its own home: a new family, or cleared tokens. */
    method SelfRefresh(r: RunId, family: int, loggedIn: bool)
      requires Valid() && r in files
      modifies this`files, this`clock
      ensures Valid() && files == old(files)[r := File(family, old(clock), loggedIn)]
      ensures loggedIn && r in baseline ==> Diverged(files, baseline, r)
    {
      files := files[r := File(family, clock, loggedIn)];
      clock := clock + 1;
    }

    /** A home left by an earlier release, never stamped. */
    method HomeAppears(r: RunId, family: int)
      requires Valid() && r !in files && r !in baseline
      modifies this`files, this`clock
      ensures Valid() && files == old(files)[r := File(family, old(clock), true)]
    {
      files := files[r := File(family, clock, true)];
      clock := clock + 1;
    }

    /** An operator logs in or out on the host. */
    method HostWrite(family: int, loggedIn: bool)
      requires Valid()
      modifies this`master, this`clock
      ensures Valid() && master == Some(File(family, old(clock), loggedIn))
    {
      WriteMaster(family, loggedIn);
    }

    method Wipe(r: RunId)
      requires Valid()
      modifies this`files, this`fed
      ensures Valid() && files == old(files) - {r} && fed == old(fed) - {r}
    {
      files, fed := files - {r}, fed - {r};
    }

    /** After a settled tick every fed, logged-in, stamped home holds the master's family. */
    lemma FedHomesHoldTheFamily(live: seq<RunId>, r: RunId)
      requires Valid() && Settled(live) && Sig(master).Some?
      requires r in live && r in fed && Sig(FileOf(files, r)).Some?
      ensures InSync(r) && files[r].family == master.value.family
    {
    }
  }

  /** An unstamped home that nothing fans out to is stamped with the family it holds, which need not be the master's. */
  method UnstampedHomeKeepsItsFamily() returns (c: Rotation)
    ensures fresh(c) && c.Valid() && c.Settled([0]) && c.InSync(0)
    ensures c.master.Some? && c.master.value.loggedIn && !c.FamilyHolds([0])
  {
    c := new Rotation(Some(File(1, 0, true)), map[], map[], 1);
    var adopted := c.Tick(0, [], NO_FAULTS, None);
    assert SameRun(c.files, c.baseline, map[], map[], 0);
    c.HomeAppears(0, 2);
    adopted := c.Tick(30, [0], NO_FAULTS, None);
  }

  /** A tick that sees a new master while the one live home's inject fails. */
  method FailedTick(c: Rotation)
    requires c.Valid() && c.InSync(0) && Sig(c.master).Some? && c.lastMaster != Some(Sig(c.master))
    modifies c
    ensures c.Valid() && c.InSync(0) && c.files[0] == old(c.files)[0]
    ensures c.master == old(c.master) && c.lastMaster == Some(Sig(c.master))
  {
    ghost var files0, baseline0 := c.files, c.baseline;
    var adopted := c.Tick(30, [0], Faults({}, {0}, {}), None);
    assert KeptFile(c.files, c.baseline, files0, baseline0, 0);
  }

  /**
   * A home whose inject failed keeps its old family: the signature is recorded, so no later faultless tick
   * feeds it.
   */
  method FailedInjectKeepsItsFamily() returns (c: Rotation)
    ensures fresh(c) && c.Valid() && c.Settled([0]) && c.InSync(0)
    ensures c.master.Some? && c.master.value.loggedIn && !c.FamilyHolds([0])
  {
    c := new Rotation(Some(File(1, 0, true)), map[], map[], 1);
    c.Launch(0);
    assert c.InSync(0) && c.files[0].family == 1;
    c.HostWrite(2, true);
    FailedTick(c);
    var adopted := c.Tick(60, [0], NO_FAULTS, None);
  }
}
