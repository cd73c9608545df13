// Who transmits under random access, on how many blocks, and what a transmission earns.
module RandomAccess {
  import opened Domain
  import opened Reals
  import opened Collections
  import opened SchedulerPort
  import opened LinkAdaptation
  import opened SlotMac
  import opened BlockAirtime
  import opened ContentionMac

  // ------------------------------------------------------------------ who transmits

  // The user may send k blocks on the beam: no more than it needs, and the whole grid could carry them.
  ghost predicate MayUse(m: MacConfig, c: ScheduleCandidate, beam: Beam, k: nat)
    requires m.Valid()
  {
    k <= RbsNeeded(m, c.request) && Carries(m, FirstLimit(c.options, beam.fleet, beam.band), beam, m.rbsPerBeam, k)
  }

  ghost predicate MayUsePart(m: MacConfig, c: ScheduleCandidate, beam: Beam, k: nat)
    requires m.Valid()
  {
    c.degradable && MayUse(m, c, beam, k) && ReachesFloor(m, RbsNeeded(m, c.request), k)
  }

  // The user has no way to transmit on the beam: neither all it needs nor, if its class is
  // degradable, anything down to its floor.
  ghost predicate Silent(m: MacConfig, c: ScheduleCandidate, beam: Beam)
    requires m.Valid()
  {
    !MayUse(m, c, beam, RbsNeeded(m, c.request)) && forall k: nat :: !MayUsePart(m, c, beam, k)
  }

  // What it sends otherwise: all it needs, or as much as it may.
  ghost predicate Sends(m: MacConfig, c: ScheduleCandidate, beam: Beam, k: nat, degraded: bool)
    requires m.Valid()
  {
    if MayUse(m, c, beam, RbsNeeded(m, c.request)) then k == RbsNeeded(m, c.request) && !degraded
    else MayUsePart(m, c, beam, k) && degraded && forall j: nat :: MayUse(m, c, beam, j) ==> j <= k
  }

  lemma UsableIsLeast(m: MacConfig, c: ScheduleCandidate, beam: Beam, k: nat)
    requires m.Valid() && k >= 1
    ensures var needed := RbsNeeded(m, c.request);
      var reg := RegulatoryCapRbs(FirstLimit(c.options, beam.fleet, beam.band), RbUnits(m, beam), m.rbsPerBeam);
      MayUse(m, c, beam, k) <==> k <= LeastOf(LeastOf(needed, RequestCap(m, needed)), LeastOf(reg, m.rbsPerBeam))
  {
    var needed := RbsNeeded(m, c.request);
    if k <= needed {
      AssignableIsCarried(m, FirstLimit(c.options, beam.fleet, beam.band), beam, m.rbsPerBeam, needed, k);
    }
    hide Carries, RegulatoryCapRbs, RequestCap, RbsNeeded, FirstLimit, RbUnits;
  }

  lemma FloorIsPositive(m: MacConfig, needed: nat)
    requires m.Valid() && needed >= 1
    ensures !ReachesFloor(m, needed, 0)
  {
    assert Wanted(m, needed) >= 1;
    assert Product(m.degradeMinFraction, Wanted(m, needed) as real) > 0.0;
  }

  lemma SizeInAirtime(m: MacConfig, c: ScheduleCandidate, beam: Beam)
    requires m.Valid()
    ensures var (k, degraded) := RbsFor(m, c, beam);
      if k == 0 then Silent(m, c, beam) else Sends(m, c, beam, k, degraded) && !Silent(m, c, beam)
  {
    var needed := RbsNeeded(m, c.request);
    var reg := RegulatoryCapRbs(FirstLimit(c.options, beam.fleet, beam.band), RbUnits(m, beam), m.rbsPerBeam);
    var least := LeastOf(LeastOf(needed, RequestCap(m, needed)), LeastOf(reg, m.rbsPerBeam));
    forall j: nat | j >= 1 ensures MayUse(m, c, beam, j) <==> j <= least {
      UsableIsLeast(m, c, beam, j);
    }
    assert !MayUse(m, c, beam, 0);
    FloorIsPositive(m, needed);
    FloorRises(m, needed, least);
    FloorInBlocks(m, needed, least);
    hide MayUse, RegulatoryCapRbs, RequestCap, RbsNeeded, FirstLimit, RbUnits, ReachesFloor, RbFloor, LeastOf;
    assert least <= needed by { LeastIsBelow(needed, RequestCap(m, needed), reg, m.rbsPerBeam); }
    assert MayUsePart(m, c, beam, least) || forall k: nat :: !MayUsePart(m, c, beam, k);
  }

  lemma LeastIsBelow(a: nat, b: nat, c: nat, d: nat)
    ensures LeastOf(LeastOf(a, b), LeastOf(c, d)) <= a
  {
  }

  lemma FloorRises(m: MacConfig, needed: nat, most: nat)
    ensures forall k: nat :: k <= most && ReachesFloor(m, needed, k) ==> ReachesFloor(m, needed, most)
  {
  }

  function DrawnBeam(c: ScheduleCandidate, beams: seq<Beam>, pick: nat): Beam
    requires EligibleBeams(c, beams) != []
  {
    EligibleBeams(c, beams)[pick % |EligibleBeams(c, beams)|]
  }

  // The candidate does not transmit: no beam is eligible, or it is silent on the one drawn for it.
  ghost predicate Refused(m: MacConfig, c: ScheduleCandidate, beams: seq<Beam>, pick: nat)
    requires m.Valid()
  {
    (forall beam :: beam in beams ==> !Eligible(c, beam))
    || (EligibleBeams(c, beams) != [] && Silent(m, c, DrawnBeam(c, beams, pick)))
  }

  // The attempt is the candidate's, on the beam drawn for it, on the first blocks drawn for it, as
  // many as it sends there.
  ghost predicate Transmits(m: MacConfig, c: ScheduleCandidate, beams: seq<Beam>, pick: nat, shuffle: seq<nat>,
                            a: Attempt)
    requires m.Valid()
  {
    && a.candidate == c && EligibleBeams(c, beams) != [] && a.beam == DrawnBeam(c, beams, pick)
    && exists k: nat :: k <= |shuffle| && SentOn(shuffle, k, a.rbs) && Sends(m, c, a.beam, k, a.degraded)
  }

  ghost predicate SentOn(shuffle: seq<nat>, k: nat, rbs: set<nat>)
    requires k <= |shuffle|
  {
    forall rb :: rb in rbs <==> rb in shuffle[..k]
  }

  lemma EligibleOnes(c: ScheduleCandidate, beams: seq<Beam>)
    ensures forall beam :: beam in EligibleBeams(c, beams) <==> beam in beams && Eligible(c, beam)
    ensures EligibleBeams(c, beams) == [] <==> forall beam :: beam in beams ==> !Eligible(c, beam)
  {
    var eligible := EligibleBeams(c, beams);
    if eligible != [] {
      assert eligible[0] in eligible;
    }
  }

  // Each candidate does what its draw, its need and the limits say.
  lemma TryInAirtime(m: MacConfig, c: ScheduleCandidate, beams: seq<Beam>, pick: nat, shuffle: seq<nat>)
    requires m.Valid() && PermutationOf(shuffle, m.rbsPerBeam)
    ensures var a := TryAttempt(m, c, beams, pick, shuffle);
      (a.None? <==> Refused(m, c, beams, pick)) && (a.Some? ==> Transmits(m, c, beams, pick, shuffle, a.value))
  {
    EligibleOnes(c, beams);
    if EligibleBeams(c, beams) != [] {
      var beam := DrawnBeam(c, beams, pick);
      SizeInAirtime(m, c, beam);
      var (k, degraded) := RbsFor(m, c, beam);
      if k > 0 {
        SentFitsGrid(m, c, beam, k, degraded);
        assert SentOn(shuffle, k, SampleRbs(shuffle, k));
      }
      hide RbsFor, Silent, Sends, SampleRbs, Eligible, EligibleBeams;
    }
  }

  lemma SentFitsGrid(m: MacConfig, c: ScheduleCandidate, beam: Beam, k: nat, degraded: bool)
    requires m.Valid() && Sends(m, c, beam, k, degraded)
    ensures k <= m.rbsPerBeam
  {
  }

  // What hearing one more candidate adds.
  ghost predicate HeardNext(m: MacConfig, beams: seq<Beam>, step: int, c: ScheduleCandidate, pick: nat,
                            shuffle: seq<nat>, before: PassOne, after: PassOne)
    requires m.Valid()
  {
    if c.request.IsExpired(step) then after == before.(expired := before.expired + [c])
    else if Refused(m, c, beams, pick) then after == before.(refused := before.refused + [c])
    else
      && after.attempts != [] && after == before.(attempts := after.attempts)
      && after.attempts[..|after.attempts| - 1] == before.attempts
      && Transmits(m, c, beams, pick, shuffle, after.attempts[|after.attempts| - 1])
  }

  // Pass one, position by position: who is refused, who transmits, where, on which blocks.
  lemma TransmitExactly(m: MacConfig, beams: seq<Beam>, step: int, cs: seq<ScheduleCandidate>, draws: Draws, k: nat)
    requires m.Valid() && draws.Fair(m.rbsPerBeam) && k < |cs|
    ensures HeardNext(m, beams, step, cs[k], draws.pick(k), draws.shuffle(k),
                      Transmit(m, beams, step, cs[..k], draws), Transmit(m, beams, step, cs[..k + 1], draws))
  {
    TryInAirtime(m, cs[k], beams, draws.pick(k), draws.shuffle(k));
    hide TryAttempt, Refused, Transmits;
    assert cs[..k + 1][..k] == cs[..k];
  }

  ghost predicate RefusedAt(m: MacConfig, beams: seq<Beam>, step: int, cs: seq<ScheduleCandidate>, draws: Draws, k: nat)
    requires m.Valid() && k < |cs|
  {
    !cs[k].request.IsExpired(step) && Refused(m, cs[k], beams, draws.pick(k))
  }

  // Pass one refuses exactly the unexpired candidates that have no way to transmit where they were drawn.
  lemma {:induction false} RefusedExactly(m: MacConfig, beams: seq<Beam>, step: int, cs: seq<ScheduleCandidate>,
                                          draws: Draws, c: ScheduleCandidate)
    requires m.Valid() && draws.Fair(m.rbsPerBeam)
    ensures c in Transmit(m, beams, step, cs, draws).refused
      <==> exists k :: 0 <= k < |cs| && cs[k] == c && RefusedAt(m, beams, step, cs, draws, k)
  {
    if cs != [] {
      var n := |cs| - 1;
      RefusedExactly(m, beams, step, cs[..n], draws, c);
      TransmitExactly(m, beams, step, cs, draws, n);
      assert cs[..n + 1] == cs;
      hide Transmit, Refused, Transmits;
      forall k | 0 <= k < n
        ensures RefusedAt(m, beams, step, cs[..n], draws, k) <==> RefusedAt(m, beams, step, cs, draws, k)
      {
      }
    }
  }

  // ------------------------------------------------------------------ a user alone on its beam

  // Nobody else transmits on the beam drawn for the candidate at position k.
  ghost predicate Alone(m: MacConfig, beams: seq<Beam>, step: int, cs: seq<ScheduleCandidate>, draws: Draws, k: nat)
    requires m.Valid() && k < |cs| && EligibleBeams(cs[k], beams) != []
  {
    forall l: nat :: l < |cs| && l != k && !cs[l].request.IsExpired(step) && EligibleBeams(cs[l], beams) != []
      ==> DrawnBeam(cs[l], beams, draws.pick(l)).id != DrawnBeam(cs[k], beams, draws.pick(k)).id
  }

  // What the candidate at position k transmits, as the only user of its blocks among those heard so far.
  ghost predicate TransmitsAlone(m: MacConfig, beams: seq<Beam>, cs: seq<ScheduleCandidate>, draws: Draws, k: nat,
                                 all: seq<Attempt>, i: nat)
    requires m.Valid() && k < |cs|
  {
    i < |all| && Transmits(m, cs[k], beams, draws.pick(k), draws.shuffle(k), all[i]) && OnlyUser(all, all[i])
  }

  lemma FirstAlone(m: MacConfig, beams: seq<Beam>, step: int, cs: seq<ScheduleCandidate>, draws: Draws, k: nat)
    requires m.Valid() && draws.Fair(m.rbsPerBeam) && k < |cs|
    requires EligibleBeams(cs[k], beams) != [] && Alone(m, beams, step, cs, draws, k)
    requires !cs[k].request.IsExpired(step) && !Refused(m, cs[k], beams, draws.pick(k))
    ensures var all := Transmit(m, beams, step, cs[..k + 1], draws).attempts;
      all != [] && TransmitsAlone(m, beams, cs, draws, k, all, |all| - 1)
  {
    var before := Transmit(m, beams, step, cs[..k], draws);
    var after := Transmit(m, beams, step, cs[..k + 1], draws);
    TransmitExactly(m, beams, step, cs, draws, k);
    NobodyYet(m, beams, step, cs, draws, k, k);
    hide Transmit, Refused, Alone, EligibleBeams, Unused, OnlyUser;
    var last := after.attempts[|after.attempts| - 1];
    OneMoreUser(before.attempts, last);
    assert after.attempts == before.attempts + [last];
  }

  lemma StillAlone(m: MacConfig, beams: seq<Beam>, step: int, cs: seq<ScheduleCandidate>, draws: Draws, k: nat,
                   before: PassOne, after: PassOne, l: nat, i: nat)
    requires m.Valid() && k < |cs| && l < |cs| && l != k
    requires EligibleBeams(cs[k], beams) != [] && Alone(m, beams, step, cs, draws, k)
    requires HeardNext(m, beams, step, cs[l], draws.pick(l), draws.shuffle(l), before, after)
    requires TransmitsAlone(m, beams, cs, draws, k, before.attempts, i)
    ensures TransmitsAlone(m, beams, cs, draws, k, after.attempts, i)
  {
    if !cs[l].request.IsExpired(step) && !Refused(m, cs[l], beams, draws.pick(l)) {
      var last := after.attempts[|after.attempts| - 1];
      assert last.beam.id != before.attempts[i].beam.id;
      hide Refused, Alone, EligibleBeams, Transmits, OnlyUser;
      StrangerElsewhere(before.attempts, last, before.attempts[i]);
      assert after.attempts == before.attempts + [last];
    }
  }

  lemma {:induction false} AloneInPassOne(m: MacConfig, beams: seq<Beam>, step: int, cs: seq<ScheduleCandidate>,
                                          draws: Draws, k: nat, n: nat) returns (i: nat)
    requires m.Valid() && draws.Fair(m.rbsPerBeam) && k < |cs| && k < n <= |cs|
    requires EligibleBeams(cs[k], beams) != [] && Alone(m, beams, step, cs, draws, k)
    requires !cs[k].request.IsExpired(step) && !Refused(m, cs[k], beams, draws.pick(k))
    ensures TransmitsAlone(m, beams, cs, draws, k, Transmit(m, beams, step, cs[..n], draws).attempts, i)
  {
    hide Transmit, Refused, Alone, EligibleBeams, Transmits, OnlyUser, TransmitsAlone, HeardNext;
    if n - 1 == k {
      FirstAlone(m, beams, step, cs, draws, k);
      i := |Transmit(m, beams, step, cs[..n], draws).attempts| - 1;
    } else {
      i := AloneInPassOne(m, beams, step, cs, draws, k, n - 1);
      TransmitExactly(m, beams, step, cs, draws, n - 1);
      StillAlone(m, beams, step, cs, draws, k, Transmit(m, beams, step, cs[..n - 1], draws),
                 Transmit(m, beams, step, cs[..n], draws), n - 1, i);
    }
  }

  ghost predicate OnlyUser(all: seq<Attempt>, a: Attempt) {
    forall rb :: Occupancy(all, a.beam.id, rb) == if rb in a.rbs then 1 else 0
  }

  ghost predicate Unused(all: seq<Attempt>, beam: BeamId) {
    forall rb :: Occupancy(all, beam, rb) == 0
  }

  lemma OneMoreUser(all: seq<Attempt>, a: Attempt)
    requires Unused(all, a.beam.id)
    ensures OnlyUser(all + [a], a)
  {
    assert (all + [a])[..|all|] == all;
  }

  lemma StrangerElsewhere(all: seq<Attempt>, stranger: Attempt, a: Attempt)
    requires OnlyUser(all, a) && stranger.beam.id != a.beam.id
    ensures OnlyUser(all + [stranger], a)
  {
    assert (all + [stranger])[..|all|] == all;
  }

  lemma StillUnused(all: seq<Attempt>, stranger: Attempt, beam: BeamId)
    requires Unused(all, beam) && stranger.beam.id != beam
    ensures Unused(all + [stranger], beam)
  {
    assert (all + [stranger])[..|all|] == all;
  }

  lemma OneMoreElsewhere(m: MacConfig, beams: seq<Beam>, step: int, cs: seq<ScheduleCandidate>, draws: Draws, k: nat,
                         l: nat, before: PassOne, after: PassOne)
    requires m.Valid() && k < |cs| && l < |cs| && l != k
    requires EligibleBeams(cs[k], beams) != [] && Alone(m, beams, step, cs, draws, k)
    requires HeardNext(m, beams, step, cs[l], draws.pick(l), draws.shuffle(l), before, after)
    requires Unused(before.attempts, DrawnBeam(cs[k], beams, draws.pick(k)).id)
    ensures Unused(after.attempts, DrawnBeam(cs[k], beams, draws.pick(k)).id)
  {
    var beam := DrawnBeam(cs[k], beams, draws.pick(k)).id;
    if !cs[l].request.IsExpired(step) && !Refused(m, cs[l], beams, draws.pick(l)) {
      var last := after.attempts[|after.attempts| - 1];
      assert last.beam.id != beam;
      hide Refused, Alone, EligibleBeams, Transmits, Unused;
      StillUnused(before.attempts, last, beam);
      assert after.attempts == before.attempts + [last];
    }
  }

  lemma {:induction false} NobodyYet(m: MacConfig, beams: seq<Beam>, step: int, cs: seq<ScheduleCandidate>,
                                     draws: Draws, k: nat, n: nat)
    requires m.Valid() && draws.Fair(m.rbsPerBeam) && k < |cs| && n <= k
    requires EligibleBeams(cs[k], beams) != [] && Alone(m, beams, step, cs, draws, k)
    ensures Unused(Transmit(m, beams, step, cs[..n], draws).attempts, DrawnBeam(cs[k], beams, draws.pick(k)).id)
  {
    if n > 0 {
      hide Transmit, Refused, Alone, EligibleBeams, Transmits, Unused, HeardNext, DrawnBeam;
      NobodyYet(m, beams, step, cs, draws, k, n - 1);
      TransmitExactly(m, beams, step, cs, draws, n - 1);
      OneMoreElsewhere(m, beams, step, cs, draws, k, n - 1, Transmit(m, beams, step, cs[..n - 1], draws),
                       Transmit(m, beams, step, cs[..n], draws));
    }
  }

  lemma {:induction false} LoneAirtime(all: seq<Attempt>, a: Attempt, unit: real, n: nat)
    requires OnlyUser(all, a)
    ensures Airtime(all, a, unit, n) == Product(CountIn(a.rbs, n) as real, unit)
  {
    if n > 0 {
      LoneAirtime(all, a, unit, n - 1);
      assert n - 1 in a.rbs ==> Occupancy(all, a.beam.id, n - 1) == 1;
      ProductAdds(CountIn(a.rbs, n - 1) as real, 1.0, unit);
      assert Product(1.0, unit) == unit;
    }
  }

  lemma {:induction false} WinnerListed(m: MacConfig, all: seq<Attempt>, attempts: seq<Attempt>, i: nat)
    returns (j: nat)
    requires i < |attempts| && Recovered(m.captureCapacity, all, attempts[i])
    ensures j < |Winners(m, all, attempts)|
    ensures Winners(m, all, attempts)[j]
      == Placed(attempts[i].candidate, ContentionMac.AllocationFor(m, all, attempts[i]))
  {
    hide Recovered, ContentionMac.AllocationFor;
    var n := |attempts| - 1;
    if i < n {
      j := WinnerListed(m, all, attempts[..n], i);
    } else {
      j := |Winners(m, all, attempts[..n])|;
    }
  }

  // A user alone on its beam that may send all it needs is served in full there, with the airtime of
  // exactly the blocks it needs.
  ghost predicate ServedAlone(m: MacConfig, c: ScheduleCandidate, beam: Beam, r: SchedulingResult, j: nat)
    requires m.Valid()
  {
    && j < |r.served| == |r.allocations| && r.served[j] == c.request
    && r.allocations[j].requestId == c.request.id && r.allocations[j].beamId == beam.id && !r.allocations[j].degraded
    && r.allocations[j].units == Product(RbsNeeded(m, c.request) as real, beam.capacity / m.rbsPerBeam as real)
  }

  ghost predicate InIdOrder(cs: seq<ScheduleCandidate>, ordered: seq<ScheduleCandidate>) {
    && multiset(ordered) == multiset(cs)
    && forall i, j :: 0 <= i < j < |ordered| ==> ordered[i].request.id < ordered[j].request.id
  }

  lemma IdOrderIsSort(cs: seq<ScheduleCandidate>, ordered: seq<ScheduleCandidate>)
    requires InIdOrder(cs, ordered)
    ensures Sort(ById, cs) == ordered
  {
    hide Sort;
    SortedIsUnique(ById, ordered, Sort(ById, cs));
  }

  // The k-th candidate in id order is on time, may send all it needs on the beam drawn for it, and is
  // alone there.
  ghost predicate MustServe(m: MacConfig, ordered: seq<ScheduleCandidate>, beams: seq<Beam>, step: int, draws: Draws,
                            k: nat)
    requires m.Valid()
  {
    && k < |ordered| && !ordered[k].request.IsExpired(step) && EligibleBeams(ordered[k], beams) != []
    && MayUse(m, ordered[k], DrawnBeam(ordered[k], beams, draws.pick(k)), RbsNeeded(m, ordered[k].request))
    && Alone(m, beams, step, ordered, draws, k)
  }

  lemma LoneUserIsServed(m: MacConfig, cs: seq<ScheduleCandidate>, ordered: seq<ScheduleCandidate>, beams: seq<Beam>,
                         step: int, draws: Draws, k: nat)
    returns (j: nat)
    requires m.Valid() && draws.Fair(m.rbsPerBeam) && InIdOrder(cs, ordered)
    requires MustServe(m, ordered, beams, step, draws, k)
    ensures var c := ordered[k];
      ServedAlone(m, c, DrawnBeam(c, beams, draws.pick(k)), ContentionMac.ScheduleOf(m, cs, beams, step, draws), j)
  {
    IdOrderIsSort(cs, ordered);
    var c := ordered[k];
    var all := Transmit(m, beams, step, ordered, draws).attempts;
    assert !Refused(m, c, beams, draws.pick(k)) by {
      EligibleOnes(c, beams);
    }
    var i := AloneInPassOne(m, beams, step, ordered, draws, k, |ordered|);
    assert ordered[..|ordered|] == ordered;
    var a := all[i];
    assert Recovered(m.captureCapacity, all, a);
    j := WinnerListed(m, all, all, i);
    FullAttemptEarns(m, all, a, c, beams, draws.pick(k), draws.shuffle(k));
    hide Transmit, Winners, Transmits, MayUse, Alone, Recovered, OnlyUser, Sort, EligibleBeams, InIdOrder;
  }

  lemma FullAttemptEarns(m: MacConfig, all: seq<Attempt>, a: Attempt, c: ScheduleCandidate, beams: seq<Beam>, pick: nat,
                         shuffle: seq<nat>)
    requires m.Valid() && PermutationOf(shuffle, m.rbsPerBeam) && Transmits(m, c, beams, pick, shuffle, a)
    requires MayUse(m, c, a.beam, RbsNeeded(m, c.request)) && OnlyUser(all, a)
    ensures !a.degraded
    ensures Airtime(all, a, RbUnits(m, a.beam), m.rbsPerBeam)
      == Product(RbsNeeded(m, c.request) as real, a.beam.capacity / m.rbsPerBeam as real)
  {
    var needed := RbsNeeded(m, c.request);
    assert needed <= m.rbsPerBeam && SentOn(shuffle, needed, a.rbs);
    assert a.rbs == SampleRbs(shuffle, needed);
    SampleSize(shuffle, needed, m.rbsPerBeam);
    LoneAirtime(all, a, RbUnits(m, a.beam), m.rbsPerBeam);
  }

  // ------------------------------------------------------------------ who is recovered, and what is paid out

  function UsersOf(attempts: seq<Attempt>, beam: BeamId, rb: nat): set<nat> {
    set i | 0 <= i < |attempts| && attempts[i].beam.id == beam && rb in attempts[i].rbs
  }

  lemma {:induction false} OccupancyIsUsers(attempts: seq<Attempt>, beam: BeamId, rb: nat)
    ensures Occupancy(attempts, beam, rb) == |UsersOf(attempts, beam, rb)|
  {
    if attempts != [] {
      var n := |attempts| - 1;
      OccupancyIsUsers(attempts[..n], beam, rb);
      var fewer := UsersOf(attempts[..n], beam, rb);
      assert n !in fewer;
      assert UsersOf(attempts, beam, rb)
        == if attempts[n].beam.id == beam && rb in attempts[n].rbs then fewer + {n} else fewer;
    }
  }

  // No block of the attempt has more users than can be told apart.
  ghost predicate Uncrowded(m: MacConfig, all: seq<Attempt>, a: Attempt) {
    forall rb :: rb in a.rbs ==> |UsersOf(all, a.beam.id, rb)| <= m.captureCapacity
  }

  lemma UncrowdedIsRecovered(m: MacConfig, all: seq<Attempt>, a: Attempt)
    ensures Uncrowded(m, all, a) <==> Recovered(m.captureCapacity, all, a)
  {
    forall rb ensures Occupancy(all, a.beam.id, rb) == |UsersOf(all, a.beam.id, rb)| {
      OccupancyIsUsers(all, a.beam.id, rb);
    }
  }

  ghost predicate Uncrowds(m: MacConfig, all: seq<Attempt>, attempts: seq<Attempt>, c: ScheduleCandidate) {
    exists i :: 0 <= i < |attempts| && attempts[i].candidate == c && Uncrowded(m, all, attempts[i])
  }

  // Served are exactly the candidates with an attempt no block of which is overcrowded.
  lemma {:induction false} ServedExactly(m: MacConfig, all: seq<Attempt>, attempts: seq<Attempt>, c: ScheduleCandidate)
    ensures c in Map(PlacedCandidate, Winners(m, all, attempts)) <==> Uncrowds(m, all, attempts, c)
  {
    if attempts != [] {
      var n := |attempts| - 1;
      var before, last := Winners(m, all, attempts[..n]), attempts[n];
      ServedExactly(m, all, attempts[..n], c);
      UncrowdedIsRecovered(m, all, last);
      hide Recovered, Uncrowded, ContentionMac.AllocationFor;
      assert Uncrowds(m, all, attempts, c)
        <==> Uncrowds(m, all, attempts[..n], c) || (last.candidate == c && Uncrowded(m, all, last));
      MapSnoc(PlacedCandidate, before, Placed(last.candidate, ContentionMac.AllocationFor(m, all, last)));
      assert before + [] == before;
    } else {
      assert Map(PlacedCandidate, Winners(m, all, attempts)) == [];
    }
  }

  // Blocks below n of the beam that somebody transmitted on.
  function InUse(all: seq<Attempt>, beam: BeamId, n: nat): nat {
    if n == 0 then 0 else InUse(all, beam, n - 1) + if UsersOf(all, beam, n - 1) != {} then 1 else 0
  }

  ghost predicate AllUncrowded(m: MacConfig, all: seq<Attempt>, beam: BeamId) {
    forall i :: 0 <= i < |all| && all[i].beam.id == beam ==> Uncrowded(m, all, all[i])
  }

  lemma {:induction false} EveryUserHolds(capture: nat, all: seq<Attempt>, attempts: seq<Attempt>, beam: BeamId,
                                          rb: nat)
    requires forall a :: a in attempts && a.beam.id == beam ==> Recovered(capture, all, a)
    ensures Holders(capture, all, attempts, beam, rb) == Occupancy(attempts, beam, rb)
  {
    if attempts != [] {
      EveryUserHolds(capture, all, attempts[..|attempts| - 1], beam, rb);
    }
  }

  lemma WholeBlockPaid(users: nat, unit: real)
    ensures Product(users as real, Share(unit, users)) == if users == 0 then 0.0 else unit
  {
    if users > 0 {
      QuotientTimes(unit, users as real);
      assert Product(users as real, unit / users as real) == Product(unit / users as real, users as real);
    }
  }

  lemma {:induction false} BillInFull(capture: nat, all: seq<Attempt>, beam: BeamId, unit: real, n: nat)
    requires forall a :: a in all && a.beam.id == beam ==> Recovered(capture, all, a)
    ensures Charged(capture, all, all, beam, unit, n) == Product(InUse(all, beam, n) as real, unit)
  {
    if n > 0 {
      var users := Occupancy(all, beam, n - 1);
      BillInFull(capture, all, beam, unit, n - 1);
      EveryUserHolds(capture, all, all, beam, n - 1);
      OccupancyIsUsers(all, beam, n - 1);
      WholeBlockPaid(users, unit);
      ProductAdds(InUse(all, beam, n - 1) as real, 1.0, unit);
      assert Product(1.0, unit) == unit;
      hide Product, Share, Recovered, UsersOf, Occupancy, Holders;
    }
  }

  // When nobody collides on a beam, its users are paid for exactly the blocks in use, each one whole.
  lemma BlocksInUseArePaid(m: MacConfig, all: seq<Attempt>, beams: seq<Beam>, beam: Beam)
    requires m.rbsPerBeam > 0 && UniqueBeams(beams) && OnBeams(all, beams) && beam in beams
    requires AllUncrowded(m, all, beam.id)
    ensures UsedOn(Map(PlacedAllocation, Winners(m, all, all)), beam.id)
      == Product(InUse(all, beam.id, m.rbsPerBeam) as real, beam.capacity / m.rbsPerBeam as real)
  {
    SumsExchange(m, all, all, beams, beam);
    forall a | a in all && a.beam.id == beam.id ensures Recovered(m.captureCapacity, all, a) {
      var i :| 0 <= i < |all| && all[i] == a;
      UncrowdedIsRecovered(m, all, all[i]);
    }
    BillInFull(m.captureCapacity, all, beam.id, RbUnits(m, beam), m.rbsPerBeam);
  }
}
