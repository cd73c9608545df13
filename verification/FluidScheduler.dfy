// Highest-score-first greedy allocation over scalar beam capacity, with an optional
// per-request airtime cap and degraded service for degradable classes.
module FluidScheduler {
  import opened Domain
  import opened Collections
  import opened SchedulerPort

  // `Unbounded` gives the plain heuristic scheduler, `AtMost(cap)` the priority-fair one.
  datatype Params = Params(perRequestCap: Limit, degradeMinFraction: real)

  function Allocatable(p: Params, c: ScheduleCandidate, beam: Beam, remaining: real): real
    requires Eligible(c, beam)
  {
    Within(Within(remaining, OptionLimit(c.options, beam.fleet, beam.band).value), p.perRequestCap)
  }

  // The whole cost fits on the beam as it now stands.
  predicate Fits(p: Params, c: ScheduleCandidate, beam: Beam, remaining: real) {
    Eligible(c, beam) && Allocatable(p, c, beam, remaining) + EPS >= c.cost
  }

  function FullKey(p: Params, c: ScheduleCandidate, beam: Beam, remaining: real): Option<real> {
    if Fits(p, c, beam, remaining) && remaining > -1.0 then Some(remaining) else None
  }

  function PartialKey(p: Params, c: ScheduleCandidate, beam: Beam, remaining: real): Option<real> {
    if Eligible(c, beam) && !Fits(p, c, beam, remaining) && Allocatable(p, c, beam, remaining) > 0.0
    then Some(Allocatable(p, c, beam, remaining))
    else None
  }

  function FullKeys(p: Params, c: ScheduleCandidate, beams: seq<Beam>, remaining: seq<real>): (keys: seq<Option<real>>)
    requires |beams| == |remaining|
  {
    seq(|beams|, i requires 0 <= i < |beams| => FullKey(p, c, beams[i], remaining[i]))
  }

  function PartialKeys(p: Params, c: ScheduleCandidate, beams: seq<Beam>,
                       remaining: seq<real>): (keys: seq<Option<real>>)
    requires |beams| == |remaining|
  {
    seq(|beams|, i requires 0 <= i < |beams| => PartialKey(p, c, beams[i], remaining[i]))
  }

  datatype Grant = Grant(beam: nat, units: real, degraded: bool)

  function DegradeFloor(p: Params, c: ScheduleCandidate): real {
    p.degradeMinFraction * Within(c.cost, p.perRequestCap)
  }

  function Place(p: Params, c: ScheduleCandidate, beams: seq<Beam>, remaining: seq<real>): (g: Option<Grant>)
    requires |beams| == |remaining|
    ensures g.Some? ==> g.value.beam < |beams|
  {
    var full := Best(FullKeys(p, c, beams, remaining));
    var part := Best(PartialKeys(p, c, beams, remaining));
    if full.Some? then Some(Grant(full.value, c.cost, false))
    else if c.degradable && part.Some? then
      var amount := PartialKeys(p, c, beams, remaining)[part.value].value;
      if amount + EPS >= DegradeFloor(p, c) then Some(Grant(part.value, Min(amount, c.cost), true)) else None
    else None
  }

  function Take(remaining: seq<real>, g: Grant): seq<real>
    requires g.beam < |remaining|
  {
    remaining[g.beam := remaining[g.beam] - g.units]
  }

  function AllocationFor(c: ScheduleCandidate, beam: Beam, g: Grant): Allocation {
    Allocation(c.request.id, beam.fleet, beam.id, beam.band, g.units, c.deliveryProbability, g.degraded)
  }

  // ------------------------------------------------------------------ the greedy pass as a fold

  datatype Run = Run(remaining: seq<real>, placed: seq<Placed>, deferred: seq<ScheduleCandidate>,
    expired: seq<ScheduleCandidate>)

  function Advance(p: Params, beams: seq<Beam>, step: int, run: Run, c: ScheduleCandidate): (r: Run)
    requires |run.remaining| == |beams|
    ensures |r.remaining| == |beams|
  {
    if c.request.IsExpired(step) then run.(expired := run.expired + [c])
    else
      match Place(p, c, beams, run.remaining)
      case None => run.(deferred := run.deferred + [c])
      case Some(g) =>
        run.(remaining := Take(run.remaining, g),
             placed := run.placed + [Placed(c, AllocationFor(c, beams[g.beam], g))])
  }

  // The state after offering the candidates in the order given.
  function RunOver(p: Params, beams: seq<Beam>, step: int, cs: seq<ScheduleCandidate>): (r: Run)
    ensures |r.remaining| == |beams|
  {
    if cs == [] then Run(Map(CapacityOf, beams), [], [], [])
    else Advance(p, beams, step, RunOver(p, beams, step, cs[..|cs| - 1]), cs[|cs| - 1])
  }

  function Report(run: Run, cs: seq<ScheduleCandidate>, beams: seq<Beam>): SchedulingResult {
    Conclude(cs, beams, Map(PlacedAllocation, run.placed), Map(PlacedRequest, run.placed),
             Map(RequestOf, run.deferred), Map(DeadlineMiss, run.expired))
  }

  function ScheduleOf(p: Params, cs: seq<ScheduleCandidate>, beams: seq<Beam>, step: int): SchedulingResult {
    Report(RunOver(p, beams, step, Sort(Priority, cs)), cs, beams)
  }

  // ------------------------------------------------------------------ the allocator

  // One pass over the beams: the fitting beam with most headroom, and the best partial one.
  method Scan(p: Params, c: ScheduleCandidate, beams: seq<Beam>, remaining: array<real>)
    returns (fullBest: Option<nat>, degradeBest: Option<nat>, degradeAllocatable: real)
    requires remaining.Length == |beams|
    ensures fullBest == Best(FullKeys(p, c, beams, remaining[..]))
    ensures degradeBest == Best(PartialKeys(p, c, beams, remaining[..]))
    ensures degradeBest.Some? ==>
      PartialKeys(p, c, beams, remaining[..])[degradeBest.value] == Some(degradeAllocatable)
  {
    var fullHeadroom := -1.0;
    fullBest, degradeBest, degradeAllocatable := None, None, 0.0;
    ghost var full := FullKeys(p, c, beams, remaining[..]);
    ghost var part := PartialKeys(p, c, beams, remaining[..]);
    for i := 0 to |beams|
      invariant fullBest == Best(full[..i])
      invariant if fullBest.Some? then full[fullBest.value] == Some(fullHeadroom) else fullHeadroom == -1.0
      invariant degradeBest == Best(part[..i])
      invariant if degradeBest.Some? then part[degradeBest.value]
        == Some(degradeAllocatable) else degradeAllocatable == 0.0
    {
      BestSnoc(full, i);
      BestSnoc(part, i);
      var limit := OptionLimit(c.options, beams[i].fleet, beams[i].band);
      if limit.Some? && beams[i].region == c.request.region {
        var allocatable := Within(Within(remaining[i], limit.value), p.perRequestCap);
        if allocatable + EPS >= c.cost {
          if remaining[i] > fullHeadroom {
            fullBest, fullHeadroom := Some(i), remaining[i];
          }
        } else if allocatable > degradeAllocatable {
          degradeBest, degradeAllocatable := Some(i), allocatable;
        }
      }
    }
    assert full[..|beams|] == full && part[..|beams|] == part;
  }

  method Allocate(p: Params, c: ScheduleCandidate, beams: seq<Beam>, remaining: array<real>)
    returns (a: Option<Allocation>)
    requires remaining.Length == |beams|
    modifies remaining
    ensures var g := Place(p, c, beams, old(remaining[..]));
      && a == (if g.Some? then Some(AllocationFor(c, beams[g.value.beam], g.value)) else None)
      && remaining[..] == (if g.Some? then Take(old(remaining[..]), g.value) else old(remaining[..]))
  {
    var fullBest, degradeBest, degradeAllocatable := Scan(p, c, beams, remaining);
    if fullBest.Some? {
      remaining[fullBest.value] := remaining[fullBest.value] - c.cost;
      return Some(AllocationFor(c, beams[fullBest.value], Grant(fullBest.value, c.cost, false)));
    }
    if c.degradable && degradeBest.Some? {
      if degradeAllocatable + EPS >= DegradeFloor(p, c) {
        var amount := Min(degradeAllocatable, c.cost);
        remaining[degradeBest.value] := remaining[degradeBest.value] - amount;
        return Some(AllocationFor(c, beams[degradeBest.value], Grant(degradeBest.value, amount, true)));
      }
    }
    return None;
  }

  method Schedule(p: Params, cs: seq<ScheduleCandidate>, beams: seq<Beam>, step: int) returns (r: SchedulingResult)
    ensures r == ScheduleOf(p, cs, beams, step)
  {
    var remaining := new real[|beams|](i requires 0 <= i < |beams| => beams[i].capacity);
    var allocations: seq<Allocation>, served: seq<ServiceRequest> := [], [];
    var deferred: seq<ServiceRequest>, dropped: seq<RejectedRequest> := [], [];
    var ordered := Sort(Priority, cs);
    hide Place, AllocationFor, Conclude;
    assert remaining[..] == Map(CapacityOf, beams);
    for i := 0 to |ordered|
      invariant remaining[..] == RunOver(p, beams, step, ordered[..i]).remaining
      invariant allocations == Map(PlacedAllocation, RunOver(p, beams, step, ordered[..i]).placed)
      invariant served == Map(PlacedRequest, RunOver(p, beams, step, ordered[..i]).placed)
      invariant deferred == Map(RequestOf, RunOver(p, beams, step, ordered[..i]).deferred)
      invariant dropped == Map(DeadlineMiss, RunOver(p, beams, step, ordered[..i]).expired)
    {
      ghost var run := RunOver(p, beams, step, ordered[..i]);
      var candidate := ordered[i];
      assert RunOver(p, beams, step, ordered[..i + 1]) == Advance(p, beams, step, run, candidate) by {
        assert ordered[..i + 1][..i] == ordered[..i];
      }
      if candidate.request.IsExpired(step) {
        MapSnoc(DeadlineMiss, run.expired, candidate);
        dropped := dropped + [DeadlineMiss(candidate)];
      } else {
        ghost var g := Place(p, candidate, beams, run.remaining);
        var allocation := Allocate(p, candidate, beams, remaining);
        if allocation.None? {
          MapSnoc(RequestOf, run.deferred, candidate);
          deferred := deferred + [candidate.request];
        } else {
          ghost var placed := Placed(candidate, allocation.value);
          MapSnoc(PlacedAllocation, run.placed, placed);
          MapSnoc(PlacedRequest, run.placed, placed);
          allocations := allocations + [allocation.value];
          served := served + [candidate.request];
        }
      }
    }
    assert ordered[..|ordered|] == ordered;
    r := Conclude(cs, beams, allocations, served, deferred, dropped);
  }

  // ------------------------------------------------------------------ what one placement means

  ghost predicate OffersPart(p: Params, c: ScheduleCandidate, beam: Beam, remaining: real) {
    PartialKey(p, c, beam, remaining).Some? && Allocatable(p, c, beam, remaining) + EPS >= DegradeFloor(p, c)
  }

  // A candidate is served in full exactly when some beam has room for it, on the first such beam
  // with the most headroom; failing that, a degradable one is served in part exactly when some beam
  // offers a positive amount reaching the floor, and it gets the largest amount on offer.
  ghost predicate PlacementRule(p: Params, c: ScheduleCandidate, beams: seq<Beam>, remaining: seq<real>,
                                g: Option<Grant>)
    requires |beams| == |remaining| && (g.Some? ==> g.value.beam < |beams|)
  {
    if exists i :: 0 <= i < |beams| && Fits(p, c, beams[i], remaining[i]) then
      && g.Some? && !g.value.degraded && g.value.units == c.cost
      && Fits(p, c, beams[g.value.beam], remaining[g.value.beam])
      && forall i :: 0 <= i < |beams| && Fits(p, c, beams[i], remaining[i]) ==>
        remaining[i] < remaining[g.value.beam] || (remaining[i] == remaining[g.value.beam] && g.value.beam <= i)
    else
      && (g.Some? <==> c.degradable && exists i :: 0 <= i < |beams| && OffersPart(p, c, beams[i], remaining[i]))
      && (g.Some? ==>
        && g.value.degraded
        && PartialKey(p, c, beams[g.value.beam], remaining[g.value.beam]) == Some(g.value.units)
        && g.value.units < c.cost
        && forall i :: 0 <= i < |beams| && Eligible(c, beams[i]) ==>
          Allocatable(p, c, beams[i], remaining[i]) <= g.value.units)
  }

  lemma PlaceMeaning(p: Params, c: ScheduleCandidate, beams: seq<Beam>, remaining: seq<real>)
    requires |beams| == |remaining|
    requires forall i :: 0 <= i < |beams| ==> remaining[i] > -1.0
    ensures PlacementRule(p, c, beams, remaining, Place(p, c, beams, remaining))
  {
    var full, part := FullKeys(p, c, beams, remaining), PartialKeys(p, c, beams, remaining);
    assert forall i :: 0 <= i < |beams| && Fits(p, c, beams[i], remaining[i]) ==> full[i].Some?;
    assert forall i :: 0 <= i < |beams| && OffersPart(p, c, beams[i], remaining[i]) ==> part[i].Some?;
    var best := Best(part);
    if Best(full).None? && best.Some? {
      var b := best.value;
      assert PartialKey(p, c, beams[b], remaining[b]) == part[b];
      assert part[b].value + EPS >= DegradeFloor(p, c) ==> OffersPart(p, c, beams[b], remaining[b]);
    }
  }

  // ------------------------------------------------------------------ what a whole pass keeps

  ghost predicate PositiveCosts(cs: seq<ScheduleCandidate>) {
    forall c :: c in cs ==> c.cost > 0.0
  }

  function Granted(run: Run): seq<Allocation> {
    Map(PlacedAllocation, run.placed)
  }

  ghost predicate InBounds(beams: seq<Beam>, remaining: seq<real>) {
    && |remaining| == |beams|
    && forall i :: 0 <= i < |beams| ==> -EPS <= remaining[i] <= beams[i].capacity
  }

  // No beam is drawn below the tolerance, however many placements were made on it.
  lemma {:induction false} RemainingBounds(p: Params, beams: seq<Beam>, step: int, cs: seq<ScheduleCandidate>)
    requires NonNegativeCapacity(beams) && PositiveCosts(cs)
    ensures InBounds(beams, RunOver(p, beams, step, cs).remaining)
  {
    if cs != [] {
      RemainingBounds(p, beams, step, cs[..|cs| - 1]);
      PlaceMeaning(p, cs[|cs| - 1], beams, RunOver(p, beams, step, cs[..|cs| - 1]).remaining);
    }
  }

  ghost predicate Conserved(beams: seq<Beam>, run: Run) {
    && |run.remaining| == |beams|
    && forall i :: 0 <= i < |beams| ==>
      UsedOn(Granted(run), beams[i].id) == beams[i].capacity - run.remaining[i]
  }

  // Airtime granted on a beam is exactly the capacity it lost.
  lemma {:induction false} AirtimeConserved(p: Params, beams: seq<Beam>, step: int, cs: seq<ScheduleCandidate>)
    requires UniqueBeams(beams)
    ensures Conserved(beams, RunOver(p, beams, step, cs))
  {
    if cs != [] {
      var before, c := RunOver(p, beams, step, cs[..|cs| - 1]), cs[|cs| - 1];
      AirtimeConserved(p, beams, step, cs[..|cs| - 1]);
      var g := Place(p, c, beams, before.remaining);
      if !c.request.IsExpired(step) && g.Some? {
        var a := AllocationFor(c, beams[g.value.beam], g.value);
        MapSnoc(PlacedAllocation, before.placed, Placed(c, a));
        forall i | 0 <= i < |beams|
          ensures UsedOn(Granted(before) + [a], beams[i].id)
            == UsedOn(Granted(before), beams[i].id) + if i == g.value.beam then g.value.units else 0.0
        {
          UsedSnoc(Granted(before), a, beams[i].id);
        }
      }
    }
  }

  // Every candidate ends in exactly one of placed, deferred and expired.
  lemma {:induction false} EveryCandidateDecided(p: Params, beams: seq<Beam>, step: int, cs: seq<ScheduleCandidate>)
    ensures var run := RunOver(p, beams, step, cs); Decided(cs, run.placed, run.deferred, run.expired, step)
  {
    if cs != [] {
      var before := RunOver(p, beams, step, cs[..|cs| - 1]);
      EveryCandidateDecided(p, beams, step, cs[..|cs| - 1]);
      DecideOne(cs, before.placed, before.deferred, before.expired, step, cs[|cs| - 1]);
    }
  }

  ghost predicate GoodPlacement(p: Params, pl: Placed, cs: seq<ScheduleCandidate>, beams: seq<Beam>, step: int) {
    && pl.candidate in cs
    && !pl.candidate.request.IsExpired(step)
    && pl.allocation.requestId == pl.candidate.request.id
    && pl.allocation.deliveryProbability == pl.candidate.deliveryProbability
    && (exists beam :: beam in beams && LegalOn(pl.candidate, pl.allocation, beam))
    && 0.0 < pl.allocation.units <= pl.candidate.cost
    && (pl.allocation.degraded <==> pl.allocation.units < pl.candidate.cost)
    && (pl.allocation.degraded ==>
      pl.candidate.degradable && pl.allocation.units + EPS >= DegradeFloor(p, pl.candidate))
    && p.perRequestCap.Allows(pl.allocation.units, EPS)
  }

  // Each grant is legal, unexpired, within both airtime caps, and degraded exactly when it is short.
  lemma {:induction false} PlacementsAreGood(p: Params, beams: seq<Beam>, step: int, cs: seq<ScheduleCandidate>)
    requires NonNegativeCapacity(beams) && PositiveCosts(cs)
    ensures forall pl :: pl in RunOver(p, beams, step, cs).placed ==> GoodPlacement(p, pl, cs, beams, step)
  {
    if cs != [] {
      var n := |cs| - 1;
      var before, c := RunOver(p, beams, step, cs[..n]), cs[n];
      PlacementsAreGood(p, beams, step, cs[..n]);
      RemainingBounds(p, beams, step, cs[..n]);
      var g := Place(p, c, beams, before.remaining);
      if !c.request.IsExpired(step) && g.Some? {
        GrantIsGood(p, c, beams, before.remaining, step, cs);
      }
      hide GoodPlacement, Place;
      forall pl | pl in before.placed ensures GoodPlacement(p, pl, cs, beams, step) {
        FromMore(p, pl, cs, beams, step);
      }
    }
  }

  lemma FromMore(p: Params, pl: Placed, cs: seq<ScheduleCandidate>, beams: seq<Beam>, step: int)
    requires cs != [] && GoodPlacement(p, pl, cs[..|cs| - 1], beams, step)
    ensures GoodPlacement(p, pl, cs, beams, step)
  {
  }

  lemma GrantIsGood(p: Params, c: ScheduleCandidate, beams: seq<Beam>, remaining: seq<real>, step: int,
                    cs: seq<ScheduleCandidate>)
    requires InBounds(beams, remaining) && c in cs && c.cost > 0.0 && !c.request.IsExpired(step)
    requires Place(p, c, beams, remaining).Some?
    ensures var g := Place(p, c, beams, remaining).value;
      GoodPlacement(p, Placed(c, AllocationFor(c, beams[g.beam], g)), cs, beams, step)
  {
    PlaceMeaning(p, c, beams, remaining);
    var g := Place(p, c, beams, remaining).value;
    assert beams[g.beam] in beams;
  }

  ghost predicate Below(after: seq<real>, before: seq<real>) {
    |after| == |before| && forall i :: 0 <= i < |after| ==> after[i] <= before[i]
  }

  // Resources only shrink along a pass.
  lemma {:induction false} RemainingShrinks(p: Params, beams: seq<Beam>, step: int, cs: seq<ScheduleCandidate>, k: nat)
    requires NonNegativeCapacity(beams) && PositiveCosts(cs) && k <= |cs|
    ensures Below(RunOver(p, beams, step, cs).remaining, RunOver(p, beams, step, cs[..k]).remaining)
    decreases |cs|
  {
    var n := |cs| - 1;
    if k == |cs| {
      assert cs[..k] == cs;
    } else {
      assert cs[..n][..k] == cs[..k];
      RemainingShrinks(p, beams, step, cs[..n], k);
      RemainingBounds(p, beams, step, cs[..n]);
      GrantsArePositive(p, cs[n], beams, RunOver(p, beams, step, cs[..n]).remaining);
      hide Place;
    }
  }

  lemma GrantsArePositive(p: Params, c: ScheduleCandidate, beams: seq<Beam>, remaining: seq<real>)
    requires InBounds(beams, remaining) && c.cost > 0.0
    ensures var g := Place(p, c, beams, remaining); g.Some? ==> g.value.units > 0.0
  {
    PlaceMeaning(p, c, beams, remaining);
  }

  ghost predicate NoFit(p: Params, c: ScheduleCandidate, beams: seq<Beam>, remaining: seq<real>) {
    |remaining| == |beams| && forall i :: 0 <= i < |beams| ==> !Fits(p, c, beams[i], remaining[i])
  }

  ghost predicate Maximal(p: Params, beams: seq<Beam>, run: Run) {
    |run.remaining| == |beams| && forall c :: c in run.deferred ==>
      NoFit(p, c, beams, run.remaining) && Place(p, c, beams, run.remaining).None?
  }

  // What does not fit still does not fit with less room, nor does anything as costly.
  lemma NoFitLater(p: Params, c: ScheduleCandidate, d: ScheduleCandidate, beams: seq<Beam>, before: seq<real>,
                   after: seq<real>)
    requires NoFit(p, c, beams, before) && Below(after, before)
    requires c.request.region == d.request.region && c.options == d.options && c.cost <= d.cost
    ensures NoFit(p, d, beams, after)
  {
    forall i | 0 <= i < |beams| ensures !Fits(p, d, beams[i], after[i]) {
      assert !Fits(p, c, beams[i], before[i]);
    }
  }

  lemma RefusedMeansNoFit(p: Params, c: ScheduleCandidate, beams: seq<Beam>, remaining: seq<real>)
    requires InBounds(beams, remaining)
    ensures var g := Place(p, c, beams, remaining);
      NoFit(p, c, beams, remaining) <==> g.None? || g.value.degraded
  {
    PlaceMeaning(p, c, beams, remaining);
  }

  // Whom the beams refuse, in full and in part, they refuse with less room.
  lemma RefusedStaysRefused(p: Params, c: ScheduleCandidate, beams: seq<Beam>, before: seq<real>, after: seq<real>)
    requires InBounds(beams, before) && InBounds(beams, after) && Below(after, before)
    requires Place(p, c, beams, before).None?
    ensures NoFit(p, c, beams, after) && Place(p, c, beams, after).None?
  {
    PlaceMeaning(p, c, beams, before);
    PlaceMeaning(p, c, beams, after);
    RefusedMeansNoFit(p, c, beams, before);
    NoFitLater(p, c, c, beams, before, after);
    hide Place;
    forall i | c.degradable && 0 <= i < |beams| ensures !OffersPart(p, c, beams[i], after[i]) {
      assert !OffersPart(p, c, beams[i], before[i]) && !Fits(p, c, beams[i], before[i]);
    }
  }

  // The schedule is maximal: the beams as finally left would refuse every deferred candidate
  // again, in full and in part.
  lemma {:induction false} DeferredStillDoNotFit(p: Params, beams: seq<Beam>, step: int, cs: seq<ScheduleCandidate>)
    requires NonNegativeCapacity(beams) && PositiveCosts(cs)
    ensures Maximal(p, beams, RunOver(p, beams, step, cs))
  {
    if cs != [] {
      var n := |cs| - 1;
      var before, after := RunOver(p, beams, step, cs[..n]), RunOver(p, beams, step, cs);
      DeferredStillDoNotFit(p, beams, step, cs[..n]);
      RemainingShrinks(p, beams, step, cs, n);
      RemainingBounds(p, beams, step, cs[..n]);
      RemainingBounds(p, beams, step, cs);
      hide Place, NoFit, InBounds;
      forall c | c in after.deferred
        ensures NoFit(p, c, beams, after.remaining) && Place(p, c, beams, after.remaining).None?
      {
        assert Place(p, c, beams, before.remaining).None?;
        RefusedStaysRefused(p, c, beams, before.remaining, after.remaining);
      }
    }
  }

  // What the allocator says to the candidate at position k of the pass.
  function VerdictAt(p: Params, beams: seq<Beam>, step: int, cs: seq<ScheduleCandidate>, k: nat): Option<Grant>
    requires k < |cs|
  {
    Place(p, cs[k], beams, RunOver(p, beams, step, cs[..k]).remaining)
  }

  // No overtaking: once a candidate is deferred, a later one in the same region with the same
  // options and at least its cost is never served in full.
  lemma NoOvertaking(p: Params, beams: seq<Beam>, step: int, cs: seq<ScheduleCandidate>, j: nat, k: nat)
    requires NonNegativeCapacity(beams) && PositiveCosts(cs) && j < k < |cs|
    requires cs[j].request.region == cs[k].request.region && cs[j].options == cs[k].options && cs[j].cost <= cs[k].cost
    requires VerdictAt(p, beams, step, cs, j).None?
    ensures var v := VerdictAt(p, beams, step, cs, k); v.None? || v.value.degraded
  {
    assert cs[..k][..j] == cs[..j];
    var before, after := RunOver(p, beams, step, cs[..j]).remaining, RunOver(p, beams, step, cs[..k]).remaining;
    RemainingShrinks(p, beams, step, cs[..k], j);
    RemainingBounds(p, beams, step, cs[..j]);
    RemainingBounds(p, beams, step, cs[..k]);
    RefusedMeansNoFit(p, cs[j], beams, before);
    NoFitLater(p, cs[j], cs[k], beams, before, after);
    RefusedMeansNoFit(p, cs[k], beams, after);
  }

  lemma {:induction false} PlacedAt(p: Params, beams: seq<Beam>, step: int, cs: seq<ScheduleCandidate>,
                                    pl: Placed) returns (k: nat)
    requires pl in RunOver(p, beams, step, cs).placed
    ensures k < |cs| && cs[k] == pl.candidate
    ensures var v := VerdictAt(p, beams, step, cs, k); v.Some? && v.value.degraded == pl.allocation.degraded
  {
    hide Place;
    var n := |cs| - 1;
    if pl in RunOver(p, beams, step, cs[..n]).placed {
      k := PlacedAt(p, beams, step, cs[..n], pl);
      assert cs[..n][..k] == cs[..k];
    } else {
      k := n;
    }
  }

  lemma {:induction false} DeferredAt(p: Params, beams: seq<Beam>, step: int, cs: seq<ScheduleCandidate>,
                                      c: ScheduleCandidate) returns (k: nat)
    requires c in RunOver(p, beams, step, cs).deferred
    ensures k < |cs| && cs[k] == c && VerdictAt(p, beams, step, cs, k).None?
  {
    hide Place;
    var n := |cs| - 1;
    if c in RunOver(p, beams, step, cs[..n]).deferred {
      k := DeferredAt(p, beams, step, cs[..n], c);
      assert cs[..n][..k] == cs[..k];
    } else {
      k := n;
    }
  }

  // The first candidate has the better claim: a higher score (or the same and a lower id), in the
  // same region, with the same options and no larger cost.
  predicate Outranks(c: ScheduleCandidate, d: ScheduleCandidate) {
    ComesBefore(c, d) && c.request.region == d.request.region && c.options == d.options && c.cost <= d.cost
  }

  ghost predicate NoneOvertaken(run: Run) {
    forall c, pl :: c in run.deferred && pl in run.placed && Outranks(c, pl.candidate) ==> pl.allocation.degraded
  }

  // Whoever is served in full, no deferred request had a better claim.
  lemma BetterClaimsComeFirst(p: Params, cs: seq<ScheduleCandidate>, beams: seq<Beam>, step: int)
    requires NonNegativeCapacity(beams) && PositiveCosts(cs)
    ensures NoneOvertaken(RunOver(p, beams, step, Sort(Priority, cs)))
  {
    var ordered := Sort(Priority, cs);
    SameMembers(ordered, cs);
    var run := RunOver(p, beams, step, ordered);
    forall c, pl | c in run.deferred && pl in run.placed && Outranks(c, pl.candidate) ensures pl.allocation.degraded {
      var j := DeferredAt(p, beams, step, ordered, c);
      var k := PlacedAt(p, beams, step, ordered, pl);
      hide VerdictAt;
      PrecedesInOrder(Priority, ordered, j, k);
      NoOvertaking(p, beams, step, ordered, j, k);
    }
  }

  // The outcome is the same for every arrival order of the same candidates.
  lemma ScheduleIgnoresOrder(p: Params, cs: seq<ScheduleCandidate>, ds: seq<ScheduleCandidate>, beams: seq<Beam>,
                             step: int)
    requires multiset(cs) == multiset(ds) && UniqueIds(cs)
    ensures ScheduleOf(p, cs, beams, step) == ScheduleOf(p, ds, beams, step)
  {
    SortIgnoresOrder(Priority, cs, ds);
    SharesPermutation(Granted(RunOver(p, beams, step, Sort(Priority, cs))), cs, ds);
  }

  // The fluid schedulers meet the scheduler contract with the tolerance as only slack.
  lemma ScheduleIsSound(p: Params, cs: seq<ScheduleCandidate>, beams: seq<Beam>, step: int)
    requires UniqueBeams(beams) && NonNegativeCapacity(beams) && PositiveCosts(cs)
    ensures Sound(cs, beams, step, EPS, ScheduleOf(p, cs, beams, step))
  {
    var ordered := Sort(Priority, cs);
    var run := RunOver(p, beams, step, ordered);
    SameMembers(ordered, cs);
    EveryCandidateDecided(p, beams, step, ordered);
    PartitionOfRequests(cs, ordered, run.placed, run.deferred, run.expired, step);
    PlacementsAreGood(p, beams, step, ordered);
    RemainingBounds(p, beams, step, ordered);
    AirtimeConserved(p, beams, step, ordered);
    assert WithinCapacity(Granted(run), beams, EPS);
    ReportIsSound(cs, beams, step, EPS, run.placed, run.deferred, run.expired);
  }
}
