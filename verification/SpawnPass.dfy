/**
 * The fleet's spawn pass: candidates sorted by stage in place, then launched down the list
 * under a liveness count that starts from a snapshot and is only ever raised.
 */
module SpawnPass {

  datatype Candidate = Candidate(stage: int, repo: string, tag: string)

  // ----- the stable order -----

  predicate StageSorted(cs: seq<Candidate>) {
    forall i, j | 0 <= i < j < |cs| :: cs[i].stage <= cs[j].stage
  }

  /** The candidates of one stage, in production order. */
  function OfStage(cs: seq<Candidate>, stage: int): seq<Candidate> {
    if cs == [] then []
    else if cs[0].stage == stage then [cs[0]] + OfStage(cs[1..], stage)
    else OfStage(cs[1..], stage)
  }

  ghost predicate IsStableSort(out: seq<Candidate>, cs: seq<Candidate>) {
    StageSorted(out) && forall stage :: OfStage(out, stage) == OfStage(cs, stage)
  }

  lemma {:induction false} OfStageConcat(a: seq<Candidate>, b: seq<Candidate>, stage: int)
    ensures OfStage(a + b, stage) == OfStage(a, stage) + OfStage(b, stage)
  {
    if a == [] {
      assert a + b == b;
    } else {
      assert (a + b)[1..] == a[1..] + b;
      OfStageConcat(a[1..], b, stage);
    }
  }

  lemma {:induction false} OfStageEmpty(cs: seq<Candidate>, stage: int)
    requires forall i | 0 <= i < |cs| :: cs[i].stage != stage
    ensures OfStage(cs, stage) == []
  {
    if cs != [] {
      OfStageEmpty(cs[1..], stage);
    }
  }

  /** There is one stable order: stage and production order decide every position. */
  lemma {:induction false} StableSortIsUnique(a: seq<Candidate>, b: seq<Candidate>)
    requires StageSorted(a) && StageSorted(b)
    requires forall stage :: OfStage(a, stage) == OfStage(b, stage)
    ensures a == b
  {
    if a != [] {
      HeadIsFirst(a);
    }
    if b != [] {
      HeadIsFirst(b);
    }
    if a != [] && b != [] {
      SameHead(a, b);
      forall stage ensures OfStage(a[1..], stage) == OfStage(b[1..], stage) {
        assert OfStage(a, stage) == OfStage(b, stage);
        if stage == a[0].stage {
          assert OfStage(a, stage)[1..] == OfStage(a[1..], stage);
          assert OfStage(b, stage)[1..] == OfStage(b[1..], stage);
        }
      }
      StableSortIsUnique(a[1..], b[1..]);
      assert a == [a[0]] + a[1..] && b == [b[0]] + b[1..];
    }
  }

  lemma HeadIsFirst(cs: seq<Candidate>)
    requires cs != []
    ensures OfStage(cs, cs[0].stage) != [] && OfStage(cs, cs[0].stage)[0] == cs[0]
  {
  }

  lemma SameHead(a: seq<Candidate>, b: seq<Candidate>)
    requires a != [] && b != [] && StageSorted(a) && StageSorted(b)
    requires forall stage :: OfStage(a, stage) == OfStage(b, stage)
    ensures a[0] == b[0]
  {
    assert OfStage(a, a[0].stage)[0] == a[0];
    assert OfStage(b, b[0].stage)[0] == b[0];
    if a[0].stage < b[0].stage {
      OfStageEmpty(b, a[0].stage);
    } else if b[0].stage < a[0].stage {
      OfStageEmpty(a, b[0].stage);
    }
  }

  /** Swapping neighbours of different stages keeps every stage's order. */
  lemma SwapKeepsStages(front: seq<Candidate>, x: Candidate, y: Candidate, back: seq<Candidate>)
    requires x.stage != y.stage
    ensures forall stage :: OfStage(front + [x, y] + back, stage) == OfStage(front + [y, x] + back, stage)
  {
    forall stage ensures OfStage(front + [x, y] + back, stage) == OfStage(front + [y, x] + back, stage) {
      PairOfStage(front, x, y, back, stage);
      PairOfStage(front, y, x, back, stage);
    }
  }

  lemma PairOfStage(front: seq<Candidate>, x: Candidate, y: Candidate, back: seq<Candidate>, stage: int)
    ensures OfStage(front + [x, y] + back, stage)
            == OfStage(front, stage)
               + (if x.stage == stage then [x] else []) + (if y.stage == stage then [y] else [])
               + OfStage(back, stage)
  {
    OfStageConcat(front + [x, y], back, stage);
    OfStageConcat(front, [x, y], stage);
    assert OfStage([x, y], stage) == OfStage([x], stage) + OfStage([y], stage) by {
      assert [x, y] == [x] + [y];
      OfStageConcat([x], [y], stage);
    }
    OfStageOne(x, stage);
    OfStageOne(y, stage);
  }

  lemma OfStageOne(x: Candidate, stage: int)
    ensures OfStage([x], stage) == if x.stage == stage then [x] else []
  {
    assert [x][1..] == [];
  }

  function SwapDown(cs: seq<Candidate>, j: nat): seq<Candidate>
    requires 0 < j < |cs|
  {
    cs[j - 1 := cs[j]][j := cs[j - 1]]
  }

  lemma SwapDownKeepsStages(cs: seq<Candidate>, j: nat)
    requires 0 < j < |cs| && cs[j - 1].stage != cs[j].stage
    ensures SameStages(SwapDown(cs, j), cs)
  {
    assert cs == cs[..j - 1] + [cs[j - 1], cs[j]] + cs[j + 1..];
    assert SwapDown(cs, j) == cs[..j - 1] + [cs[j], cs[j - 1]] + cs[j + 1..];
    SwapKeepsStages(cs[..j - 1], cs[j - 1], cs[j], cs[j + 1..]);
  }

  ghost predicate SameStages(a: seq<Candidate>, b: seq<Candidate>) {
    forall stage :: OfStage(a, stage) == OfStage(b, stage)
  }

  /** Sinks a[k] into the sorted a[..k], past larger stages only. */
  method Insert(a: array<Candidate>, k: nat)
    requires k < a.Length && StageSorted(a[..k])
    modifies a
    ensures StageSorted(a[..k + 1]) && a[k + 1..] == old(a[k + 1..])
    ensures SameStages(a[..], old(a[..]))
  {
    var j := k;
    while j > 0 && a[j].stage < a[j - 1].stage
      invariant 0 <= j <= k
      invariant forall p, q | 0 <= p < q <= k && p != j && q != j :: a[p].stage <= a[q].stage
      invariant forall q | j < q <= k :: a[j].stage <= a[q].stage
      invariant a[k + 1..] == old(a[k + 1..])
      invariant SameStages(a[..], old(a[..]))
    {
      ghost var was := a[..];
      a[j - 1], a[j] := a[j], a[j - 1];
      assert a[..] == SwapDown(was, j);
      SwapDownKeepsStages(was, j);
      j := j - 1;
    }
  }

  method SortByStage(a: array<Candidate>)
    modifies a
    ensures IsStableSort(a[..], old(a[..]))
  {
    for k := 0 to a.Length
      invariant StageSorted(a[..k])
      invariant SameStages(a[..], old(a[..]))
    {
      Insert(a, k);
    }
    assert a[..a.Length] == a[..];
  }

  // ----- the pass -----

  datatype LaunchResult = Spawned | AtCap | Skipped

  /**
   * What a locked launch meets: the caps, how many outside sessions have arrived by each
   * position, and whether it gets to the cap check and past it, given the runs spawned so far.
   */
  datatype Fleet = Fleet(
    live: nat, arrived: nat -> nat, cap: string -> int,
    reachesCap: (Candidate, seq<Candidate>) -> bool, startsBelowCap: (Candidate, seq<Candidate>) -> bool)
  {
    /** Sessions only arrive: none dies during the pass. */
    ghost predicate NoDeaths() {
      forall i: nat, j: nat | i <= j :: arrived(i) <= arrived(j)
    }

    function Live(i: nat, spawned: seq<Candidate>): nat {
      live + arrived(i) + |spawned|
    }

    function Launch(c: Candidate, i: nat, spawned: seq<Candidate>): LaunchResult {
      if !reachesCap(c, spawned) then Skipped
      else if Live(i, spawned) >= cap(c.repo) then AtCap
      else if startsBelowCap(c, spawned) then Spawned
      else Skipped
    }

    /** The runs spawned by trying every one of the first n candidates. */
    function TryAll(cs: seq<Candidate>, n: nat): seq<Candidate>
      requires n <= |cs|
    {
      if n == 0 then []
      else
        var before := TryAll(cs, n - 1);
        if Launch(cs[n - 1], n - 1, before).Spawned? then before + [cs[n - 1]] else before
    }

    function Result(cs: seq<Candidate>, i: nat): LaunchResult
      requires i < |cs|
    {
      Launch(cs[i], i, TryAll(cs, i))
    }
  }

  /** Positions in increasing order, below a limit. */
  predicate Rising(positions: seq<nat>, limit: nat) {
    && (forall k | 0 <= k < |positions| :: positions[k] < limit)
    && (forall k, l | 0 <= k < l < |positions| :: positions[k] < positions[l])
  }

  /** The count never passes true liveness, and whoever was not launched was at its cap. */
  ghost predicate PassHolds(fleet: Fleet, cs: seq<Candidate>, i: nat, count: nat, spawned: seq<Candidate>,
                            launched: seq<nat>)
    requires i <= |cs|
  {
    && spawned == fleet.TryAll(cs, i)
    && count <= fleet.Live(i, spawned)
    && Rising(launched, i)
    && forall j: nat | j < i && j !in launched :: VetoedSoundly(fleet, cs, j)
  }

  ghost predicate VetoedSoundly(fleet: Fleet, cs: seq<Candidate>, j: nat)
    requires j < |cs|
  {
    fleet.Live(j, fleet.TryAll(cs, j)) >= fleet.cap(cs[j].repo)
  }

  lemma VetoHolds(fleet: Fleet, cs: seq<Candidate>, i: nat, count: nat, spawned: seq<Candidate>, launched: seq<nat>)
    requires fleet.NoDeaths() && i < |cs| && PassHolds(fleet, cs, i, count, spawned, launched)
    requires count >= fleet.cap(cs[i].repo)
    ensures PassHolds(fleet, cs, i + 1, count, spawned, launched)
  {
    assert fleet.arrived(i) <= fleet.arrived(i + 1);
    assert VetoedSoundly(fleet, cs, i);
  }

  lemma LaunchHolds(fleet: Fleet, cs: seq<Candidate>, i: nat, count: nat, spawned: seq<Candidate>, launched: seq<nat>)
    requires fleet.NoDeaths() && i < |cs| && PassHolds(fleet, cs, i, count, spawned, launched)
    ensures var result, cap := fleet.Launch(cs[i], i, spawned), fleet.cap(cs[i].repo);
            PassHolds(fleet, cs, i + 1,
                      if result.Spawned? then count + 1 else if result.AtCap? && cap > count then cap else count,
                      if result.Spawned? then spawned + [cs[i]] else spawned, launched + [i])
  {
    assert fleet.arrived(i) <= fleet.arrived(i + 1);
    forall j: nat | j < i + 1 && j !in launched + [i] ensures VetoedSoundly(fleet, cs, j) {
      assert (launched + [i])[|launched|] == i;
      assert j !in launched;
    }
  }

  lemma PassDone(fleet: Fleet, cs: seq<Candidate>, count: nat, spawned: seq<Candidate>, launched: seq<nat>)
    requires PassHolds(fleet, cs, |cs|, count, spawned, launched)
    ensures spawned == fleet.TryAll(cs, |cs|) && Rising(launched, |cs|)
    ensures forall j: nat | j < |cs| && j !in launched :: fleet.Live(j, fleet.TryAll(cs, j)) >= fleet.cap(cs[j].repo)
  {
    forall j: nat | j < |cs| && j !in launched ensures fleet.Live(j, fleet.TryAll(cs, j)) >= fleet.cap(cs[j].repo) {
      assert VetoedSoundly(fleet, cs, j);
    }
  }

  /**
   * Veto on the count, launch, raise the count. The runs spawned are those of a pass that tries
   * every candidate; a candidate not launched was already at its cap.
   */
  method Pass(fleet: Fleet, candidates: array<Candidate>, snapshot: nat)
    returns (spawned: seq<Candidate>, launched: seq<nat>)
    requires fleet.NoDeaths() && snapshot <= fleet.live
    modifies candidates
    ensures IsStableSort(candidates[..], old(candidates[..]))
    ensures spawned == fleet.TryAll(candidates[..], candidates.Length)
    ensures Rising(launched, candidates.Length)
    ensures forall i: nat | i < candidates.Length && i !in launched ::
              fleet.Live(i, fleet.TryAll(candidates[..], i)) >= fleet.cap(candidates[..][i].repo)
  {
    SortByStage(candidates);
    var count: nat := snapshot;
    spawned, launched := [], [];
    var i: nat := 0;
    ghost var cs := candidates[..];
    while i < candidates.Length
      invariant i <= candidates.Length && candidates[..] == cs
      invariant PassHolds(fleet, cs, i, count, spawned, launched)
    {
      var c := candidates[i];
      var cap := fleet.cap(c.repo);
      assert c == cs[i];
      if count >= cap {
        VetoHolds(fleet, cs, i, count, spawned, launched);
      } else {
        LaunchHolds(fleet, cs, i, count, spawned, launched);
        launched := launched + [i];
        match fleet.Launch(c, i, spawned) {
          case Spawned =>
            spawned := spawned + [c];
            count := count + 1;
          case AtCap =>
            if cap > count {
              count := cap;
            }
          case Skipped =>
        }
      }
      i := i + 1;
    }
    PassDone(fleet, cs, count, spawned, launched);
  }

  // ----- what the pass promises -----

  lemma {:induction false} SpawnedOnlyGrows(fleet: Fleet, cs: seq<Candidate>, i: nat, j: nat)
    requires i <= j <= |cs|
    ensures |fleet.TryAll(cs, i)| <= |fleet.TryAll(cs, j)|
  {
    if i < j {
      SpawnedOnlyGrows(fleet, cs, i, j - 1);
    }
  }

  /** After a candidate at its cap, none whose cap is no larger spawns. */
  lemma AtCapStopsSmallerCaps(fleet: Fleet, cs: seq<Candidate>, i: nat, j: nat)
    requires fleet.NoDeaths() && i < j < |cs|
    requires fleet.Result(cs, i).AtCap? && fleet.cap(cs[j].repo) <= fleet.cap(cs[i].repo)
    ensures !fleet.Result(cs, j).Spawned?
  {
    SpawnedOnlyGrows(fleet, cs, i, j);
    assert fleet.arrived(i) <= fleet.arrived(j);
  }

  /** Under one shared cap, the runs spawned are those before the first candidate at cap. */
  lemma {:induction false} SharedCapStopsThePass(fleet: Fleet, cs: seq<Candidate>, cap: int, i: nat, n: nat)
    requires fleet.NoDeaths() && i < n <= |cs|
    requires forall k | 0 <= k < |cs| :: fleet.cap(cs[k].repo) == cap
    requires fleet.Result(cs, i).AtCap?
    ensures fleet.TryAll(cs, n) == fleet.TryAll(cs, i)
  {
    if n - 1 > i {
      SharedCapStopsThePass(fleet, cs, cap, i, n - 1);
      AtCapStopsSmallerCaps(fleet, cs, i, n - 1);
    }
  }

  /** Every run is spawned below its repo's cap, so no spawn takes true liveness past it. */
  lemma SpawnsStayUnderCap(fleet: Fleet, cs: seq<Candidate>, i: nat)
    requires i < |cs| && fleet.Result(cs, i).Spawned?
    ensures fleet.Live(i, fleet.TryAll(cs, i + 1)) <= fleet.cap(cs[i].repo)
  {
  }

  /** The producers' candidates of a stage come in gather order, on-demand ones last. */
  lemma StagesInProductionOrder(out: seq<Candidate>, autoland: seq<Candidate>, newWork: seq<Candidate>,
                                scheduled: seq<Candidate>, onDemand: seq<Candidate>, stage: int)
    requires IsStableSort(out, autoland + newWork + scheduled + onDemand)
    ensures OfStage(out, stage)
            == OfStage(autoland, stage) + OfStage(newWork, stage) + OfStage(scheduled, stage) + OfStage(onDemand, stage)
  {
    OfStageConcat(autoland + newWork + scheduled, onDemand, stage);
    OfStageConcat(autoland + newWork, scheduled, stage);
    OfStageConcat(autoland, newWork, stage);
  }

  /** A candidate is spawned exactly when it reaches the cap check with room left and nothing stops it past it. */
  lemma SpawnsExactlyWhereRoomIs(fleet: Fleet, cs: seq<Candidate>, i: nat)
    requires i < |cs|
    ensures var before := fleet.TryAll(cs, i);
            fleet.TryAll(cs, i + 1) == before + [cs[i]] <==>
            && fleet.reachesCap(cs[i], before) && fleet.startsBelowCap(cs[i], before)
            && fleet.live + fleet.arrived(i) + |before| < fleet.cap(cs[i].repo)
  {
    if !fleet.Result(cs, i).Spawned? {
      assert |fleet.TryAll(cs, i + 1)| < |fleet.TryAll(cs, i) + [cs[i]]|;
    }
  }
}
