// What whole resource blocks mean in airtime, and what granting by airtime leaves undone.
module BlockAirtime {
  import opened Domain
  import opened Reals
  import opened Collections
  import opened SchedulerPort
  import opened LinkAdaptation
  import opened SlotMac

  // The beam can give k of its free blocks to one request: the beam carries airtime, the request's
  // own cap permits k blocks, and their airtime is within the ceiling.
  ghost predicate Carries(m: MacConfig, limit: Limit, beam: Beam, free: nat, k: nat)
    requires m.rbsPerBeam > 0
  {
    && 1 <= k <= free && beam.capacity > 0.0
    && (m.maxRbsPerRequest.Some? ==> k <= m.maxRbsPerRequest.value)
    && limit.Allows(Product(k as real, beam.capacity / m.rbsPerBeam as real), 0.0)
  }

  // What a request may ask for at most: its need, or the per-request cap if that is less.
  function Wanted(m: MacConfig, needed: nat): nat {
    if m.maxRbsPerRequest.Some? && m.maxRbsPerRequest.value < needed then m.maxRbsPerRequest.value else needed
  }

  // k blocks are at least the fraction of what is wanted that a degraded grant must reach.
  ghost predicate ReachesFloor(m: MacConfig, needed: nat, k: nat) {
    k as real >= Product(m.degradeMinFraction, Wanted(m, needed) as real)
  }

  lemma BlockWorth(m: MacConfig, beam: Beam)
    requires m.rbsPerBeam > 0
    ensures Product(m.rbsPerBeam as real, beam.capacity / m.rbsPerBeam as real) == beam.capacity
    ensures beam.capacity / m.rbsPerBeam as real > 0.0 <==> beam.capacity > 0.0
  {
    QuotientTimes(beam.capacity, m.rbsPerBeam as real);
  }

  // Up to its need, what a request can be assigned is exactly what the beam carries.
  lemma AssignableIsCarried(m: MacConfig, limit: Limit, beam: Beam, free: nat, needed: nat, k: nat)
    requires m.Valid() && 1 <= k <= needed
    ensures k <= free && k <= RequestCap(m, needed) && k <= RegulatoryCapRbs(limit, RbUnits(m, beam), free)
      <==> Carries(m, limit, beam, free, k)
  {
    BlockWorth(m, beam);
    CapIsGreatest(limit, RbUnits(m, beam), free, k);
    hide RegulatoryCapRbs, Product;
  }

  lemma FloorInBlocks(m: MacConfig, needed: nat, k: nat)
    requires m.Valid()
    ensures k >= RbFloor(m, needed) <==> ReachesFloor(m, needed, k)
  {
    hide Product;
    assert LeastOf(needed, RequestCap(m, needed)) == Wanted(m, needed);
  }

  ghost predicate GivesBlocks(m: MacConfig, c: ScheduleCandidate, beam: Beam, free: nat, k: nat)
    requires m.rbsPerBeam > 0
  {
    Eligible(c, beam) && Carries(m, OptionLimit(c.options, beam.fleet, beam.band).value, beam, free, k)
  }

  ghost predicate SomeGives(m: MacConfig, c: ScheduleCandidate, beams: seq<Beam>, free: seq<nat>, k: nat)
    requires m.rbsPerBeam > 0 && |beams| == |free|
  {
    exists i :: 0 <= i < |beams| && GivesBlocks(m, c, beams[i], free[i], k)
  }

  // Some beam gives a degradable candidate k blocks, fewer than it needs and at least its floor.
  ghost predicate SomeGivesPart(m: MacConfig, c: ScheduleCandidate, beams: seq<Beam>, free: seq<nat>, k: nat)
    requires m.Valid() && |beams| == |free|
  {
    && c.degradable && k < RbsNeeded(m, c.request) && SomeGives(m, c, beams, free, k)
    && ReachesFloor(m, RbsNeeded(m, c.request), k)
  }

  // A candidate is served in full exactly when some beam gives all the blocks it needs, else in part
  // exactly when some beam gives at least its floor, then with the most any beam gives, else not.
  ghost predicate GrantInAirtime(m: MacConfig, c: ScheduleCandidate, beams: seq<Beam>, free: seq<nat>, g: Option<Grant>)
    requires m.Valid() && |beams| == |free| && (g.Some? ==> g.value.beam < |beams|)
  {
    var needed := RbsNeeded(m, c.request);
    && (g.Some? ==> GivesBlocks(m, c, beams[g.value.beam], free[g.value.beam], g.value.rbs))
    && if SomeGives(m, c, beams, free, needed) then g.Some? && g.value.rbs == needed && !g.value.degraded
       else
         && (g.Some? <==> exists k: nat :: SomeGivesPart(m, c, beams, free, k))
         && (g.Some? ==> g.value.degraded && SomeGivesPart(m, c, beams, free, g.value.rbs)
                         && forall k: nat :: k < needed && SomeGives(m, c, beams, free, k) ==> k <= g.value.rbs)
  }

  lemma GivesIsAssignable(m: MacConfig, c: ScheduleCandidate, beam: Beam, free: nat, k: nat)
    requires m.Valid() && 1 <= k <= RbsNeeded(m, c.request)
    ensures GivesBlocks(m, c, beam, free, k) <==> Eligible(c, beam) && k <= Assignable(m, c, beam, free)
    ensures GivesBlocks(m, c, beam, free, RbsNeeded(m, c.request)) <==> FitsInFull(m, c, beam, free)
  {
    var needed := RbsNeeded(m, c.request);
    if Eligible(c, beam) {
      var limit := OptionLimit(c.options, beam.fleet, beam.band).value;
      AssignableIsCarried(m, limit, beam, free, needed, k);
      AssignableIsCarried(m, limit, beam, free, needed, needed);
    }
    hide Carries, RbsNeeded, RegulatoryCapRbs, OptionLimit, RbUnits;
  }

  lemma SomeGivesInFull(m: MacConfig, c: ScheduleCandidate, beams: seq<Beam>, free: seq<nat>)
    requires m.Valid() && |beams| == |free|
    ensures SomeGives(m, c, beams, free, RbsNeeded(m, c.request)) <==> !NoFit(m, c, beams, free)
  {
    hide RbsNeeded, FitsInFull, GivesBlocks;
    forall i | 0 <= i < |beams|
      ensures GivesBlocks(m, c, beams[i], free[i], RbsNeeded(m, c.request)) <==> FitsInFull(m, c, beams[i], free[i])
    {
      GivesIsAssignable(m, c, beams[i], free[i], RbsNeeded(m, c.request));
    }
  }

  lemma PartIsServable(m: MacConfig, c: ScheduleCandidate, beams: seq<Beam>, free: seq<nat>, k: nat)
    requires m.Valid() && |beams| == |free| && SomeGivesPart(m, c, beams, free, k)
    ensures !NoneCanServe(m, c, beams, free)
  {
    var i :| 0 <= i < |beams| && GivesBlocks(m, c, beams[i], free[i], k);
    GivesIsAssignable(m, c, beams[i], free[i], k);
    FloorInBlocks(m, RbsNeeded(m, c.request), k);
    hide RbsNeeded, RbFloor, Assignable, FitsInFull;
    assert CanServe(m, c, beams[i], free[i]);
  }

  // The slot scheduler's placement, in airtime.
  lemma PlaceInAirtime(m: MacConfig, c: ScheduleCandidate, beams: seq<Beam>, free: seq<nat>)
    requires m.Valid() && |beams| == |free|
    ensures GrantInAirtime(m, c, beams, free, Place(m, c, beams, free))
  {
    var g, needed := Place(m, c, beams, free), RbsNeeded(m, c.request);
    PlaceMeaning(m, c, beams, free);
    RefusedMeansNoneCanServe(m, c, beams, free);
    SomeGivesInFull(m, c, beams, free);
    hide Place, NoFit, NoneCanServe, RbsNeeded, Assignable, RbFloor, Eligible, GivesBlocks;
    if g.Some? {
      var beam, rbs := g.value.beam, g.value.rbs;
      GivesIsAssignable(m, c, beams[beam], free[beam], rbs);
      FloorInBlocks(m, needed, rbs);
      assert GivesBlocks(m, c, beams[beam], free[beam], rbs);
      if g.value.degraded {
        GreatestGiven(m, c, beams, free, g.value);
        assert SomeGivesPart(m, c, beams, free, rbs);
      }
    } else if k: nat :| SomeGivesPart(m, c, beams, free, k) {
      PartIsServable(m, c, beams, free, k);
    }
  }

  // A degraded grant takes all that its beam can assign, which no other beam exceeds.
  lemma GreatestGiven(m: MacConfig, c: ScheduleCandidate, beams: seq<Beam>, free: seq<nat>, g: Grant)
    requires m.Valid() && |beams| == |free| && Place(m, c, beams, free) == Some(g) && g.degraded
    ensures forall k: nat :: k < RbsNeeded(m, c.request) && SomeGives(m, c, beams, free, k) ==> k <= g.rbs
  {
    PlaceMeaning(m, c, beams, free);
    assert g.rbs == Assignable(m, c, beams[g.beam], free[g.beam]);
    hide Place, NoFit, RbsNeeded, Assignable, RbFloor, Eligible, GivesBlocks;
    forall k: nat | k < RbsNeeded(m, c.request) && SomeGives(m, c, beams, free, k) ensures k <= g.rbs {
      var i :| 0 <= i < |beams| && GivesBlocks(m, c, beams[i], free[i], k);
      GivesAtLeastOne(m, c, beams[i], free[i], k);
      GivesIsAssignable(m, c, beams[i], free[i], k);
    }
  }

  lemma GivesAtLeastOne(m: MacConfig, c: ScheduleCandidate, beam: Beam, free: nat, k: nat)
    requires m.rbsPerBeam > 0 && GivesBlocks(m, c, beam, free, k)
    ensures k >= 1
  {
  }

  // ------------------------------------------------------------------ what a finished schedule leaves undone

  // The candidate's whole need fits the beam's unused airtime, its own cap and the option's ceiling.
  ghost predicate FitsUnused(m: MacConfig, c: ScheduleCandidate, beam: Beam, used: real, k: nat)
    requires m.rbsPerBeam > 0
  {
    var airtime := Product(k as real, beam.capacity / m.rbsPerBeam as real);
    && Eligible(c, beam) && beam.capacity > 0.0 && k >= 1
    && (m.maxRbsPerRequest.Some? ==> k <= m.maxRbsPerRequest.value)
    && OptionLimit(c.options, beam.fleet, beam.band).value.Allows(airtime, 0.0)
    && airtime <= beam.capacity - used
  }

  lemma UnusedIsFree(m: MacConfig, c: ScheduleCandidate, beam: Beam, free: nat, taken: nat, used: real, k: nat)
    requires m.rbsPerBeam > 0 && GridConserved(m, beam, free, taken, used) && FitsUnused(m, c, beam, used, k)
    ensures GivesBlocks(m, c, beam, free, k)
  {
    BlockWorth(m, beam);
    var unit := beam.capacity / m.rbsPerBeam as real;
    ProductAdds(taken as real, free as real, unit);
    assert Product((taken + free) as real, unit) == beam.capacity;
    if k > free {
      ScaleUp(free as real, k as real, unit);
    }
  }

  // k blocks are short of the need and, for a degradable class, short of its floor.
  ghost predicate TooFew(m: MacConfig, c: ScheduleCandidate, k: nat)
    requires m.mcsTable != []
  {
    k < RbsNeeded(m, c.request) && (c.degradable ==> !ReachesFloor(m, RbsNeeded(m, c.request), k))
  }

  // What the airtime finally unused on any beam could still give a deferred candidate is too little.
  ghost predicate NothingLeftFor(m: MacConfig, beams: seq<Beam>, run: Run)
    requires m.Valid()
  {
    forall c, i, k: nat :: c in run.deferred && 0 <= i < |beams| ==>
      UnusedIsTooFew(m, c, beams[i], run.Allocations(), k)
  }

  ghost predicate UnusedIsTooFew(m: MacConfig, c: ScheduleCandidate, beam: Beam, allocations: seq<Allocation>, k: nat)
    requires m.Valid()
  {
    k <= RbsNeeded(m, c.request) && FitsUnused(m, c, beam, UsedOn(allocations, beam.id), k) ==> TooFew(m, c, k)
  }

  lemma DeferredFitNowhere(m: MacConfig, beams: seq<Beam>, step: int, cs: seq<ScheduleCandidate>)
    requires m.Valid() && UniqueBeams(beams)
    ensures NothingLeftFor(m, beams, RunOver(m, beams, step, cs))
  {
    var run := RunOver(m, beams, step, cs);
    DeferredStillDoNotFit(m, beams, step, cs);
    GridConservation(m, beams, step, cs);
    hide RunOver, Place, NoFit, UnusedIsTooFew, GridConserved;
    forall c, i, k: nat | c in run.deferred && 0 <= i < |beams|
      ensures UnusedIsTooFew(m, c, beams[i], run.Allocations(), k)
    {
      RefusedLeavesTooFew(m, c, beams, run.free, i, RbsOn(run.granted, i), run.Allocations(), k);
    }
  }

  lemma RefusedLeavesTooFew(m: MacConfig, c: ScheduleCandidate, beams: seq<Beam>, free: seq<nat>, i: nat, taken: nat,
                            allocations: seq<Allocation>, k: nat)
    requires m.Valid() && i < |beams| == |free| && Place(m, c, beams, free).None?
    requires GridConserved(m, beams[i], free[i], taken, UsedOn(allocations, beams[i].id))
    ensures UnusedIsTooFew(m, c, beams[i], allocations, k)
  {
    PlaceInAirtime(m, c, beams, free);
    hide Place, RbsNeeded, FitsUnused, GridConserved, GivesBlocks, ReachesFloor;
    if k <= RbsNeeded(m, c.request) && FitsUnused(m, c, beams[i], UsedOn(allocations, beams[i].id), k) {
      UnusedIsFree(m, c, beams[i], free[i], taken, UsedOn(allocations, beams[i].id), k);
      assert SomeGives(m, c, beams, free, k);
      assert !SomeGivesPart(m, c, beams, free, k);
    }
  }

  // In the result itself, for candidates with unique ids: what the airtime left on any beam could
  // still give a deferred one is too little.
  ghost predicate ResultIsMaximal(m: MacConfig, cs: seq<ScheduleCandidate>, beams: seq<Beam>, r: SchedulingResult)
    requires m.Valid()
  {
    forall c, i, k: nat :: c in cs && c.request in r.deferred && 0 <= i < |beams| ==>
      UnusedIsTooFew(m, c, beams[i], r.allocations, k)
  }

  lemma ScheduleIsMaximal(m: MacConfig, cs: seq<ScheduleCandidate>, beams: seq<Beam>, step: int)
    requires m.Valid() && UniqueBeams(beams) && UniqueIds(cs)
    ensures ResultIsMaximal(m, cs, beams, ScheduleOf(m, cs, beams, step))
  {
    var ordered := Sort(Priority, cs);
    var run := RunOver(m, beams, step, ordered);
    DeferredFitNowhere(m, beams, step, ordered);
    EveryCandidateDecided(m, beams, step, ordered);
    hide RunOver, UnusedIsTooFew, Sort, Decided, UniqueIds;
    forall c, i, k: nat | c in cs && c.request in ScheduleOf(m, cs, beams, step).deferred && 0 <= i < |beams|
      ensures UnusedIsTooFew(m, c, beams[i], run.Allocations(), k)
    {
      DeferredIsCandidate(cs, ordered, run.Placements(), run.deferred, run.expired, step, c);
    }
  }

  // The allocation is the candidate's, for k whole blocks of the beam: all it needs, or fewer but at
  // least its floor.
  ghost predicate BlocksFor(m: MacConfig, c: ScheduleCandidate, beam: Beam, k: nat, a: Allocation)
    requires m.Valid()
  {
    && a.requestId == c.request.id && a.beamId == beam.id && 1 <= k <= RbsNeeded(m, c.request)
    && a.units == Product(k as real, beam.capacity / m.rbsPerBeam as real)
    && a.deliveryProbability == Clamp01(c.request.linkQuality)
    && (a.degraded <==> k < RbsNeeded(m, c.request))
    && (a.degraded ==> c.degradable && ReachesFloor(m, RbsNeeded(m, c.request), k))
  }

  ghost predicate SomeBlocks(m: MacConfig, cs: seq<ScheduleCandidate>, beams: seq<Beam>, a: Allocation)
    requires m.Valid()
  {
    exists c, beam, k: nat :: c in cs && beam in beams && BlocksFor(m, c, beam, k, a)
  }

  ghost predicate InWholeBlocks(m: MacConfig, cs: seq<ScheduleCandidate>, beams: seq<Beam>, r: SchedulingResult)
    requires m.Valid()
  {
    forall a :: a in r.allocations ==> SomeBlocks(m, cs, beams, a)
  }

  lemma GoodIsWhole(m: MacConfig, g: Granted, ordered: seq<ScheduleCandidate>, cs: seq<ScheduleCandidate>,
                    beams: seq<Beam>, step: int)
    requires m.Valid() && GoodGrant(m, g, ordered, beams, step) && forall c :: c in ordered <==> c in cs
    ensures SomeBlocks(m, cs, beams, g.allocation)
  {
    hide RbsNeeded, RbFloor, OptionLimit, ReachesFloor;
    FloorInBlocks(m, RbsNeeded(m, g.candidate.request), g.grant.rbs);
    assert BlocksFor(m, g.candidate, beams[g.grant.beam], g.grant.rbs, g.allocation);
  }

  // Every allocation of a finished schedule is some candidate's, in whole blocks of one beam.
  lemma ScheduleInWholeBlocks(m: MacConfig, cs: seq<ScheduleCandidate>, beams: seq<Beam>, step: int)
    requires m.Valid()
    ensures InWholeBlocks(m, cs, beams, ScheduleOf(m, cs, beams, step))
  {
    var ordered := Sort(Priority, cs);
    var run := RunOver(m, beams, step, ordered);
    SameMembers(ordered, cs);
    GrantsAreGood(m, beams, step, ordered);
    hide RunOver, Sort, GoodGrant, SomeBlocks;
    assert ScheduleOf(m, cs, beams, step).allocations == run.Allocations();
    forall a | a in run.Allocations() ensures SomeBlocks(m, cs, beams, a) {
      MapMember(PlacedAllocation, run.Placements(), a);
      var i :| 0 <= i < |run.Allocations()| && run.Allocations()[i] == a;
      assert run.granted[i] in run.granted && run.granted[i].allocation == a;
      GoodIsWhole(m, run.granted[i], ordered, cs, beams, step);
    }
  }

  // In the result itself: whoever is served in full, no deferred candidate had a better claim.
  ghost predicate ResultInOrder(m: MacConfig, cs: seq<ScheduleCandidate>, r: SchedulingResult)
    requires m.Valid()
  {
    && |r.served| == |r.allocations|
    && forall c, d, i :: 0 <= i < |r.served| && ServedOver(m, cs, r, c, d, i) ==> r.allocations[i].degraded
  }

  // The i-th service went to d while c, with the better claim, was deferred.
  predicate ServedOver(m: MacConfig, cs: seq<ScheduleCandidate>, r: SchedulingResult, c: ScheduleCandidate,
                       d: ScheduleCandidate, i: nat)
    requires m.mcsTable != [] && i < |r.served|
  {
    c in cs && c.request in r.deferred && d in cs && r.served[i] == d.request && Outranks(m, c, d)
  }

  lemma GrantedIsCandidate(m: MacConfig, g: Granted, ordered: seq<ScheduleCandidate>, cs: seq<ScheduleCandidate>,
                           beams: seq<Beam>, step: int)
    requires m.mcsTable != [] && GoodGrant(m, g, ordered, beams, step) && forall c :: c in ordered <==> c in cs
    ensures g.candidate in cs && g.allocation.degraded == g.grant.degraded
  {
  }

  lemma ScheduleInOrder(m: MacConfig, cs: seq<ScheduleCandidate>, beams: seq<Beam>, step: int)
    requires m.Valid() && UniqueIds(cs)
    ensures ResultInOrder(m, cs, ScheduleOf(m, cs, beams, step))
  {
    var ordered := Sort(Priority, cs);
    var run, r := RunOver(m, beams, step, ordered), ScheduleOf(m, cs, beams, step);
    SameMembers(ordered, cs);
    BetterClaimsComeFirst(m, cs, beams, step);
    EveryCandidateDecided(m, beams, step, ordered);
    GrantsAreGood(m, beams, step, ordered);
    hide RunOver, Sort, Decided, Outranks, GoodGrant;
    assert r.deferred == Map(RequestOf, run.deferred) && |r.served| == |r.allocations| == |run.granted|;
    forall c, d, i | 0 <= i < |r.served| && ServedOver(m, cs, r, c, d, i) ensures r.allocations[i].degraded
    {
      DeferredIsCandidate(cs, ordered, run.Placements(), run.deferred, run.expired, step, c);
      assert run.granted[i] in run.granted;
      GrantedIsCandidate(m, run.granted[i], ordered, cs, beams, step);
      assert run.granted[i].candidate == d;
    }
  }
}
