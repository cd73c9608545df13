// What the fluid schedulers grant and refuse, in airtime, and what their results leave undone.
module FluidAirtime {
  import opened Domain
  import opened Reals
  import opened Collections
  import opened SchedulerPort
  import opened FluidScheduler

  // The whole cost is within what the beam has left, the option's ceiling and the per-request cap,
  // each up to the tolerance.
  ghost predicate RoomFor(p: Params, c: ScheduleCandidate, beam: Beam, left: real) {
    && Eligible(c, beam) && c.cost <= left + EPS
    && OptionLimit(c.options, beam.fleet, beam.band).value.Allows(c.cost, EPS) && p.perRequestCap.Allows(c.cost, EPS)
  }

  // An amount of airtime the beam may give the candidate.
  ghost predicate MayGive(p: Params, c: ScheduleCandidate, beam: Beam, left: real, amount: real) {
    && Eligible(c, beam) && 0.0 < amount <= left
    && OptionLimit(c.options, beam.fleet, beam.band).value.Allows(amount, 0.0) && p.perRequestCap.Allows(amount, 0.0)
  }

  // What a request may ask for at most: its cost, or the per-request cap if that is less.
  function Wanted(p: Params, c: ScheduleCandidate): real {
    match p.perRequestCap
    case Unbounded => c.cost
    case AtMost(cap) => if cap < c.cost then cap else c.cost
  }

  ghost predicate ReachesFloor(p: Params, c: ScheduleCandidate, amount: real) {
    amount + EPS >= Product(p.degradeMinFraction, Wanted(p, c))
  }

  lemma RoomIsFit(p: Params, c: ScheduleCandidate, beam: Beam, left: real)
    ensures RoomFor(p, c, beam, left) <==> Fits(p, c, beam, left)
  {
  }

  lemma GivesUpTo(p: Params, c: ScheduleCandidate, beam: Beam, left: real, amount: real)
    ensures MayGive(p, c, beam, left, amount)
      <==> Eligible(c, beam) && 0.0 < amount <= Allocatable(p, c, beam, left)
  {
  }

  lemma FloorIsFraction(p: Params, c: ScheduleCandidate, amount: real)
    ensures ReachesFloor(p, c, amount) <==> amount + EPS >= DegradeFloor(p, c)
  {
    assert Wanted(p, c) == Within(c.cost, p.perRequestCap);
  }

  ghost predicate SomeRoom(p: Params, c: ScheduleCandidate, beams: seq<Beam>, left: seq<real>)
    requires |beams| == |left|
  {
    exists i :: 0 <= i < |beams| && RoomFor(p, c, beams[i], left[i])
  }

  ghost predicate GivesPart(p: Params, c: ScheduleCandidate, beam: Beam, left: real) {
    exists amount: real :: MayGive(p, c, beam, left, amount) && ReachesFloor(p, c, amount)
  }

  ghost predicate SomePart(p: Params, c: ScheduleCandidate, beams: seq<Beam>, left: seq<real>)
    requires |beams| == |left|
  {
    c.degradable && exists i :: 0 <= i < |beams| && GivesPart(p, c, beams[i], left[i])
  }

  // A candidate is served in full exactly when some beam has room for all of it; failing that, in
  // part exactly when its class allows it and some beam can give its floor, and it gets the most any
  // beam could give.
  ghost predicate GrantInAirtime(p: Params, c: ScheduleCandidate, beams: seq<Beam>, left: seq<real>, g: Option<Grant>)
    requires |beams| == |left| && (g.Some? ==> g.value.beam < |beams|)
  {
    if SomeRoom(p, c, beams, left) then
      && g.Some? && !g.value.degraded && g.value.units == c.cost
      && RoomFor(p, c, beams[g.value.beam], left[g.value.beam])
    else
      && (g.Some? <==> SomePart(p, c, beams, left))
      && (g.Some? ==>
        && g.value.degraded && MayGive(p, c, beams[g.value.beam], left[g.value.beam], g.value.units)
        && MostGiven(p, c, beams, left, g.value.units))
  }

  ghost predicate MostGiven(p: Params, c: ScheduleCandidate, beams: seq<Beam>, left: seq<real>, most: real)
    requires |beams| == |left|
  {
    forall i, amount: real :: 0 <= i < |beams| && MayGive(p, c, beams[i], left[i], amount) ==> amount <= most
  }

  lemma PartIsOffered(p: Params, c: ScheduleCandidate, beam: Beam, left: real)
    requires !Fits(p, c, beam, left)
    ensures GivesPart(p, c, beam, left) <==> OffersPart(p, c, beam, left)
  {
    if GivesPart(p, c, beam, left) {
      var amount: real :| MayGive(p, c, beam, left, amount) && ReachesFloor(p, c, amount);
      GivesUpTo(p, c, beam, left, amount);
      FloorIsFraction(p, c, amount);
    }
    if OffersPart(p, c, beam, left) {
      var amount := Allocatable(p, c, beam, left);
      GivesUpTo(p, c, beam, left, amount);
      FloorIsFraction(p, c, amount);
    }
  }

  // The fluid schedulers' placement, in airtime.
  lemma PlaceInAirtime(p: Params, c: ScheduleCandidate, beams: seq<Beam>, left: seq<real>)
    requires |beams| == |left| && forall i :: 0 <= i < |beams| ==> left[i] > -1.0
    ensures GrantInAirtime(p, c, beams, left, Place(p, c, beams, left))
  {
    var g := Place(p, c, beams, left);
    PlaceMeaning(p, c, beams, left);
    hide Place, RoomFor, Fits, GivesPart, OffersPart;
    forall i | 0 <= i < |beams|
      ensures RoomFor(p, c, beams[i], left[i]) <==> Fits(p, c, beams[i], left[i])
      ensures Fits(p, c, beams[i], left[i])
        || (GivesPart(p, c, beams[i], left[i]) <==> OffersPart(p, c, beams[i], left[i]))
    {
      RoomIsFit(p, c, beams[i], left[i]);
      if !Fits(p, c, beams[i], left[i]) {
        PartIsOffered(p, c, beams[i], left[i]);
      }
    }
    if g.Some? && g.value.degraded {
      MostIsGiven(p, c, beams, left, g.value);
    }
  }

  lemma MostIsGiven(p: Params, c: ScheduleCandidate, beams: seq<Beam>, left: seq<real>, g: Grant)
    requires |beams| == |left| && g.beam < |beams|
    requires PartialKey(p, c, beams[g.beam], left[g.beam]) == Some(g.units)
    requires forall i :: 0 <= i < |beams| && Eligible(c, beams[i]) ==> Allocatable(p, c, beams[i], left[i]) <= g.units
    ensures MayGive(p, c, beams[g.beam], left[g.beam], g.units) && MostGiven(p, c, beams, left, g.units)
  {
    GivesUpTo(p, c, beams[g.beam], left[g.beam], g.units);
    hide Allocatable, MayGive;
    forall i, amount: real | 0 <= i < |beams| && MayGive(p, c, beams[i], left[i], amount) ensures amount <= g.units {
      GivesUpTo(p, c, beams[i], left[i], amount);
    }
  }

  // ------------------------------------------------------------------ what a finished schedule leaves undone

  // The beam's unused airtime serves the candidate neither in full nor, if its class allows it, in part.
  ghost predicate UnusedIsTooLittle(p: Params, c: ScheduleCandidate, beam: Beam, allocations: seq<Allocation>) {
    var left := beam.capacity - UsedOn(allocations, beam.id);
    !RoomFor(p, c, beam, left) && (c.degradable ==> !GivesPart(p, c, beam, left))
  }

  // In the result itself, for candidates with unique ids: no deferred one could still be served.
  ghost predicate ResultIsMaximal(p: Params, cs: seq<ScheduleCandidate>, beams: seq<Beam>, r: SchedulingResult) {
    forall c, beam :: c in cs && c.request in r.deferred && beam in beams ==>
      UnusedIsTooLittle(p, c, beam, r.allocations)
  }

  // Every allocation is positive, within the per-request cap up to the tolerance, and its candidate's.
  ghost predicate WithinCap(p: Params, cs: seq<ScheduleCandidate>, r: SchedulingResult) {
    forall a :: a in r.allocations ==> GrantedToSome(p, cs, a)
  }

  ghost predicate GrantedToSome(p: Params, cs: seq<ScheduleCandidate>, a: Allocation) {
    exists c :: c in cs && GrantedTo(p, c, a)
  }

  ghost predicate GrantedTo(p: Params, c: ScheduleCandidate, a: Allocation) {
    && a.requestId == c.request.id && a.deliveryProbability == c.deliveryProbability
    && 0.0 < a.units <= c.cost && p.perRequestCap.Allows(a.units, EPS)
    && (if a.degraded then a.units < c.cost && c.degradable && ReachesFloor(p, c, a.units) else a.units == c.cost)
  }

  lemma RefusedLeavesTooLittle(p: Params, c: ScheduleCandidate, beams: seq<Beam>, left: seq<real>, i: nat)
    requires InBounds(beams, left) && i < |beams| && Place(p, c, beams, left).None?
    ensures !RoomFor(p, c, beams[i], left[i]) && (c.degradable ==> !GivesPart(p, c, beams[i], left[i]))
  {
    hide RoomFor, GivesPart, Place;
    assert forall j :: 0 <= j < |beams| ==> left[j] > -1.0;
    PlaceInAirtime(p, c, beams, left);
  }

  lemma ScheduleIsMaximal(p: Params, cs: seq<ScheduleCandidate>, beams: seq<Beam>, step: int)
    requires UniqueBeams(beams) && NonNegativeCapacity(beams) && PositiveCosts(cs) && UniqueIds(cs)
    ensures ResultIsMaximal(p, cs, beams, ScheduleOf(p, cs, beams, step))
  {
    var ordered := Sort(Priority, cs);
    var run := RunOver(p, beams, step, ordered);
    SameMembers(ordered, cs);
    DeferredStillDoNotFit(p, beams, step, ordered);
    RemainingBounds(p, beams, step, ordered);
    AirtimeConserved(p, beams, step, ordered);
    EveryCandidateDecided(p, beams, step, ordered);
    hide RunOver, Place, RoomFor, GivesPart, Sort, Decided, UniqueIds, NoFit, InBounds, UniqueBeams;
    hide NonNegativeCapacity, PositiveCosts;
    forall c, beam | c in cs && c.request in ScheduleOf(p, cs, beams, step).deferred && beam in beams
      ensures UnusedIsTooLittle(p, c, beam, Granted(run))
    {
      DeferredIsCandidate(cs, ordered, run.placed, run.deferred, run.expired, step, c);
      var i :| 0 <= i < |beams| && beams[i] == beam;
      RefusedLeavesTooLittle(p, c, beams, run.remaining, i);
      assert UsedOn(Granted(run), beams[i].id) == beams[i].capacity - run.remaining[i];
    }
  }

  lemma GoodIsGranted(p: Params, pl: Placed, cs: seq<ScheduleCandidate>, beams: seq<Beam>, step: int)
    requires GoodPlacement(p, pl, cs, beams, step)
    ensures GrantedTo(p, pl.candidate, pl.allocation)
  {
    FloorIsFraction(p, pl.candidate, pl.allocation.units);
  }

  lemma ScheduleIsCapped(p: Params, cs: seq<ScheduleCandidate>, beams: seq<Beam>, step: int)
    requires NonNegativeCapacity(beams) && PositiveCosts(cs)
    ensures WithinCap(p, cs, ScheduleOf(p, cs, beams, step))
  {
    var ordered := Sort(Priority, cs);
    var run := RunOver(p, beams, step, ordered);
    SameMembers(ordered, cs);
    PlacementsAreGood(p, beams, step, ordered);
    hide RunOver, GrantedTo, Sort, GoodPlacement;
    assert ScheduleOf(p, cs, beams, step).allocations == Granted(run);
    forall a | a in Granted(run) ensures GrantedToSome(p, cs, a) {
      MapMember(PlacedAllocation, run.placed, a);
      var pl :| pl in run.placed && PlacedAllocation(pl) == a;
      GoodIsGranted(p, pl, ordered, beams, step);
      PlacedIsCandidate(p, pl, ordered, cs, beams, step);
    }
  }

  lemma PlacedIsCandidate(p: Params, pl: Placed, ordered: seq<ScheduleCandidate>, cs: seq<ScheduleCandidate>,
                          beams: seq<Beam>, step: int)
    requires GoodPlacement(p, pl, ordered, beams, step) && forall c :: c in ordered <==> c in cs
    ensures pl.candidate in cs
  {
  }

  // In the result itself: whoever is served in full, no deferred candidate had a better claim.
  ghost predicate ResultInOrder(cs: seq<ScheduleCandidate>, r: SchedulingResult) {
    && |r.served| == |r.allocations|
    && forall c, d, i :: 0 <= i < |r.served| && ServedOver(cs, r, c, d, i) ==> r.allocations[i].degraded
  }

  // The i-th service went to d while c, with the better claim, was deferred.
  predicate ServedOver(cs: seq<ScheduleCandidate>, r: SchedulingResult, c: ScheduleCandidate, d: ScheduleCandidate,
                       i: nat)
    requires i < |r.served|
  {
    c in cs && c.request in r.deferred && d in cs && r.served[i] == d.request && Outranks(c, d)
  }

  lemma ScheduleInOrder(p: Params, cs: seq<ScheduleCandidate>, beams: seq<Beam>, step: int)
    requires NonNegativeCapacity(beams) && PositiveCosts(cs) && UniqueIds(cs)
    ensures ResultInOrder(cs, ScheduleOf(p, cs, beams, step))
  {
    var ordered := Sort(Priority, cs);
    var run, r := RunOver(p, beams, step, ordered), ScheduleOf(p, cs, beams, step);
    SameMembers(ordered, cs);
    BetterClaimsComeFirst(p, cs, beams, step);
    EveryCandidateDecided(p, beams, step, ordered);
    PlacementsAreGood(p, beams, step, ordered);
    hide RunOver, Sort, Decided, Outranks, GoodPlacement;
    assert r.deferred == Map(RequestOf, run.deferred) && |r.served| == |r.allocations| == |run.placed|;
    forall c, d, i | 0 <= i < |r.served| && ServedOver(cs, r, c, d, i) ensures r.allocations[i].degraded
    {
      DeferredIsCandidate(cs, ordered, run.placed, run.deferred, run.expired, step, c);
      assert run.placed[i] in run.placed;
      PlacedIsCandidate(p, run.placed[i], ordered, cs, beams, step);
      assert run.placed[i].candidate == d;
    }
  }
}
