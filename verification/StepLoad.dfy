// What a step measures before it admits anything: the load offered to Tier 1, the capacity left for
// it, and what admission does about the two.
module StepLoad {
  import opened Domain
  import opened Reals
  import opened Collections
  import opened SchedulerPort
  import opened Scoring
  import opened Planning
  import opened Admission
  import opened Pipeline
  import opened StepSafety
  import EmergencyLane

  // ------------------------------------------------------------------ who reaches Tier 1

  // Urgent requests the lane drops for good: expired, or over its retries.
  function DroppedByLane(cfg: Config, step: int): ServiceRequest -> bool {
    (r: ServiceRequest) =>
      Urgent(r.trafficClass) && (step > r.deadlineStep || r.retryCount > cfg.lane.maxRetries)
  }

  // Everything else that the lane did not admit goes to Tier 1.
  function ForTierOne(cfg: Config, step: int, admitted: seq<ServiceRequest>): ServiceRequest -> bool {
    (r: ServiceRequest) => r !in admitted && !DroppedByLane(cfg, step)(r)
  }

  function TierOneArrivals(cfg: Config, step: int, arrivals: seq<ServiceRequest>,
                           admitted: seq<ServiceRequest>): seq<ServiceRequest> {
    Filter(ForTierOne(cfg, step, admitted), arrivals)
  }

  lemma {:induction false} FilterThroughMap(keep: ScoredRequest -> bool, want: ServiceRequest -> bool,
                                            scored: seq<ScoredRequest>)
    requires forall s :: s in scored ==> keep(s) == want(s.request)
    ensures Map(ScoredOf, Filter(keep, scored)) == Filter(want, Map(ScoredOf, scored))
  {
    if scored != [] {
      var n := |scored| - 1;
      FilterThroughMap(keep, want, scored[..n]);
      assert scored == scored[..n] + [scored[n]];
      MapSnoc(ScoredOf, scored[..n], scored[n]);
      assert Map(ScoredOf, scored)[..n] == Map(ScoredOf, scored[..n]);
      var kept := Filter(keep, scored[..n]);
      MapSnoc(ScoredOf, kept, scored[n]);
      assert kept + [] == kept;
    }
  }

  // What the lane admits does not spill as well.
  lemma AdmittedDoNotSpill(scored: seq<ScoredRequest>, admitted: seq<ServiceRequest>, shed: seq<RejectedRequest>,
                           r: ServiceRequest)
    requires DistinctIds(Map(ScoredOf, scored)) && LaneSplit(scored, admitted, shed) && r in admitted
    ensures r in UrgentOnes(scored) && r.id !in SpilloverIds(shed)
  {
    assert r in multiset(admitted);
    assert r in multiset(UrgentOnes(scored));
    KeptOnce(IsUrgent, scored, r);
    FilterIsPart(IsUrgent, ScoredOf, scored);
    assert r in multiset(Map(ScoredOf, scored));
    if r.id in SpilloverIds(shed) {
      SpillsById(scored, admitted, shed, r);
      FilterIsPart(IsSpill, RejectedOf, shed);
    }
  }

  lemma TierOneExactly(cfg: Config, step: int, scored: seq<ScoredRequest>, beams: seq<Beam>, s: ScoredRequest)
    requires cfg.Valid() && UniqueBeams(beams) && NonNegativeCapacity(beams) && s in scored
    requires DistinctIds(Map(ScoredOf, scored)) && EmergencyLane.Priced(UrgentOnes(scored))
    ensures var d := EmergencyLane.DecisionOf(LaneContext(cfg, beams, step), UrgentOnes(scored));
      ToBestEffort(SpilloverIds(d.shed))(s) <==> ForTierOne(cfg, step, d.admitted)(s.request)
  {
    var d := EmergencyLane.DecisionOf(LaneContext(cfg, beams, step), UrgentOnes(scored));
    EmergencyLane.DecisionSplits(LaneContext(cfg, beams, step), UrgentOnes(scored));
    hide EmergencyLane.DecisionOf, SpilloverIds;
    assert ForTierOne(cfg, step, d.admitted)(s.request)
      <==> s.request !in d.admitted && !DroppedByLane(cfg, step)(s.request);
    if s.request in d.admitted {
      AdmittedDoNotSpill(scored, d.admitted, d.shed, s.request);
      UrgentAreUrgent(scored, s.request);
    } else if IsUrgent(s) {
      MapMember(ScoredOf, Filter(IsUrgent, scored), s.request);
      SpillsExactly(cfg, step, scored, beams, s.request);
    }
  }

  lemma TierOneIs(cfg: Config, plan: ResourcePlan, step: int, arrivals: seq<ServiceRequest>, beams: seq<Beam>)
    requires cfg.Valid() && UniqueBeams(beams) && NonNegativeCapacity(beams)
    requires DistinctIds(arrivals) && PositiveSizes(arrivals)
    ensures var scored := ScoreAll(cfg, plan, step, arrivals);
      var d := EmergencyLane.DecisionOf(LaneContext(cfg, beams, step), UrgentOnes(scored));
      Map(ScoredOf, Filter(ToBestEffort(SpilloverIds(d.shed)), scored))
        == TierOneArrivals(cfg, step, arrivals, d.admitted)
  {
    var scored := ScoreAll(cfg, plan, step, arrivals);
    ScoredAreReady(cfg, plan, step, arrivals);
    hide ScoreAll, EmergencyLane.DecisionOf, ToBestEffort, ForTierOne, DistinctIds, EmergencyLane.Priced;
    var d := EmergencyLane.DecisionOf(LaneContext(cfg, beams, step), UrgentOnes(scored));
    var keep, want := ToBestEffort(SpilloverIds(d.shed)), ForTierOne(cfg, step, d.admitted);
    forall s | s in scored ensures keep(s) == want(s.request) {
      TierOneExactly(cfg, step, scored, beams, s);
    }
    FilterThroughMap(keep, want, scored);
  }

  // ------------------------------------------------------------------ load and capacity

  // Airtime the requests ask for, by the cost model.
  function LoadOf(pricing: ScoringConfig, requests: seq<ServiceRequest>): real
    requires pricing.bytesPerUnit > 0.0 && pricing.minLinkQuality > 0.0
  {
    if requests == [] then 0.0
    else
      var n := |requests| - 1;
      LoadOf(pricing, requests[..n]) + EstimateCost(pricing, requests[n])
  }

  lemma {:induction false} OfferedIsLoad(pricing: ScoringConfig, scored: seq<ScoredRequest>)
    requires pricing.Valid() && forall s :: s in scored ==> s.cost == EstimateCost(pricing, s.request)
    ensures Sum(Map(CostOf, scored)) == LoadOf(pricing, Map(ScoredOf, scored))
  {
    if scored != [] {
      var n := |scored| - 1;
      OfferedIsLoad(pricing, scored[..n]);
      assert Map(CostOf, scored)[..n] == Map(CostOf, scored[..n]);
      assert Map(ScoredOf, scored)[..n] == Map(ScoredOf, scored[..n]);
    }
  }

  // What is left of each beam's capacity once the reservations are taken off, never below zero.
  function Unreserved(beams: seq<Beam>, reservations: seq<Allocation>): seq<real> {
    seq(|beams|, i requires 0 <= i < |beams| => Max(0.0, beams[i].capacity - UsedOn(reservations, beams[i].id)))
  }

  lemma LeftIsUnreserved(beams: seq<Beam>, reservations: seq<Allocation>)
    requires NonNegativeCapacity(beams)
    ensures TotalCapacity(LeftOver(beams, reservations)) == Sum(Unreserved(beams, reservations))
  {
    assert Map(CapacityOf, LeftOver(beams, reservations)) == Unreserved(beams, reservations);
  }

  // What the step reports as its congestion is the load of what reaches Tier 1 and the capacity the
  // reservations leave.
  ghost predicate Measured(cfg: Config, step: int, arrivals: seq<ServiceRequest>, beams: seq<Beam>, d: Dispositions) {
    && cfg.pricing.Valid()
    && d.congestion.offeredLoad == LoadOf(cfg.pricing, TierOneArrivals(cfg, step, arrivals, d.admitted))
    && d.congestion.availableCapacity == Sum(Unreserved(beams, d.reservations))
  }

  lemma StepIsMeasured(cfg: Config, world: World, plan: ResourcePlan, step: int, arrivals: seq<ServiceRequest>,
                       beams: seq<Beam>, queueDepth: int, dropRate: real)
    requires cfg.Valid() && UniqueBeams(beams) && NonNegativeCapacity(beams)
    requires DistinctIds(arrivals) && PositiveSizes(arrivals)
    ensures var d := DispositionsOf(cfg, world, plan, step, arrivals, beams, queueDepth, dropRate);
      && Measured(cfg, step, arrivals, beams, d)
      && d.congestion.queueDepth == queueDepth && d.congestion.dropRate == dropRate
  {
    var scored := ScoreAll(cfg, plan, step, arrivals);
    TierOneIs(cfg, plan, step, arrivals, beams);
    hide ScoreAll, EmergencyLane.DecisionOf, TierOneArrivals, LeftOver, Unreserved, TierOne, DistinctIds;
    var d := EmergencyLane.DecisionOf(LaneContext(cfg, beams, step), UrgentOnes(scored));
    var bestEffort := Filter(ToBestEffort(SpilloverIds(d.shed)), scored);
    OfferedIsLoad(cfg.pricing, bestEffort);
    LeftIsUnreserved(beams, d.reservations);
  }

  // ------------------------------------------------------------------ the load adds up

  lemma LoadOfOne(pricing: ScoringConfig, xs: seq<ServiceRequest>, r: ServiceRequest)
    requires pricing.Valid()
    ensures LoadOf(pricing, xs + [r]) == LoadOf(pricing, xs) + EstimateCost(pricing, r)
  {
    assert (xs + [r])[..|xs|] == xs;
  }

  lemma {:induction false} LoadAppend(pricing: ScoringConfig, xs: seq<ServiceRequest>, ys: seq<ServiceRequest>)
    requires pricing.Valid()
    ensures LoadOf(pricing, xs + ys) == LoadOf(pricing, xs) + LoadOf(pricing, ys)
  {
    if ys == [] {
      assert xs + ys == xs;
    } else {
      var n := |ys| - 1;
      LoadAppend(pricing, xs, ys[..n]);
      assert xs + ys == (xs + ys[..n]) + [ys[n]];
      LoadOfOne(pricing, xs + ys[..n], ys[n]);
    }
  }

  // The load does not depend on the order.
  lemma {:induction false} LoadPermutation(pricing: ScoringConfig, xs: seq<ServiceRequest>, ys: seq<ServiceRequest>)
    requires pricing.Valid() && multiset(xs) == multiset(ys)
    ensures LoadOf(pricing, xs) == LoadOf(pricing, ys)
  {
    if xs == [] {
      assert |multiset(ys)| == |ys|;
    } else {
      var j := TakeOut(xs, ys);
      LoadPermutation(pricing, xs[..|xs| - 1], ys[..j] + ys[j + 1..]);
      LoadAppend(pricing, ys[..j], ys[j + 1..]);
      LoadAppend(pricing, ys[..j] + [ys[j]], ys[j + 1..]);
      LoadOfOne(pricing, ys[..j], ys[j]);
    }
  }

  lemma {:induction false} KeptCount(keep: ServiceRequest -> bool, requests: seq<ServiceRequest>, r: ServiceRequest)
    requires DistinctIds(requests)
    ensures multiset(Filter(keep, requests))[r] == if r in requests && keep(r) then 1 else 0
  {
    if requests != [] {
      var n := |requests| - 1;
      KeptCount(keep, requests[..n], r);
      assert requests == requests[..n] + [requests[n]];
      assert requests[n] !in requests[..n];
      assert Filter(keep, requests[..n]) + [] == Filter(keep, requests[..n]);
    }
  }

  // Every arrival is admitted by the lane, dropped by it, or goes to Tier 1: exactly one of the three.
  lemma ThreeWays(cfg: Config, step: int, arrivals: seq<ServiceRequest>, admitted: seq<ServiceRequest>)
    requires DistinctIds(arrivals) && multiset(admitted) <= multiset(arrivals)
    requires forall r :: r in admitted ==> !DroppedByLane(cfg, step)(r)
    ensures multiset(arrivals) == multiset(TierOneArrivals(cfg, step, arrivals, admitted)) + multiset(admitted)
      + multiset(Filter(DroppedByLane(cfg, step), arrivals))
  {
    forall r
      ensures multiset(arrivals)[r] == multiset(TierOneArrivals(cfg, step, arrivals, admitted))[r]
        + multiset(admitted)[r] + multiset(Filter(DroppedByLane(cfg, step), arrivals))[r]
    {
      OneOfEach(arrivals, r);
      KeptCount(ForTierOne(cfg, step, admitted), arrivals, r);
      KeptCount(DroppedByLane(cfg, step), arrivals, r);
      assert r in admitted <==> r in multiset(admitted);
      hide Filter, DroppedByLane;
      assert multiset(admitted)[r] <= multiset(arrivals)[r];
    }
  }

  lemma LaneAdmitsInTime(x: EmergencyLane.Context, urgent: seq<ServiceRequest>)
    requires x.Valid() && UniqueBeams(x.beams) && NonNegativeCapacity(x.beams) && EmergencyLane.Priced(urgent)
    ensures var d := EmergencyLane.DecisionOf(x, urgent);
      && multiset(d.admitted) <= multiset(urgent)
      && forall r :: r in d.admitted ==> EmergencyLane.Barred(x.cfg, r, x.step).None?
  {
    EmergencyLane.DecisionIsSound(x, urgent);
    hide EmergencyLane.DecisionOf, EmergencyLane.LegalReservation, EmergencyLane.Barred, EmergencyLane.ShedForCause;
    var d := EmergencyLane.DecisionOf(x, urgent);
    forall r | r in d.admitted ensures EmergencyLane.Barred(x.cfg, r, x.step).None? {
      AdmittedAreUnbarred(x, d.admitted, d.reservations, r);
    }
  }

  lemma UnbarredIsKept(cfg: Config, step: int, r: ServiceRequest)
    requires EmergencyLane.Barred(cfg.lane, r, step).None?
    ensures !DroppedByLane(cfg, step)(r)
  {
  }

  lemma AdmittedAreArrivals(cfg: Config, plan: ResourcePlan, step: int, arrivals: seq<ServiceRequest>,
                            beams: seq<Beam>)
    requires cfg.Valid() && UniqueBeams(beams) && NonNegativeCapacity(beams)
    requires DistinctIds(arrivals) && PositiveSizes(arrivals)
    ensures var d := EmergencyLane.DecisionOf(LaneContext(cfg, beams, step),
                                              UrgentOnes(ScoreAll(cfg, plan, step, arrivals)));
      && multiset(d.admitted) <= multiset(arrivals)
      && forall r :: r in d.admitted ==> !DroppedByLane(cfg, step)(r)
  {
    var scored := ScoreAll(cfg, plan, step, arrivals);
    var x := LaneContext(cfg, beams, step);
    ScoredAreReady(cfg, plan, step, arrivals);
    FilterIsPart(IsUrgent, ScoredOf, scored);
    hide ScoreAll, EmergencyLane.DecisionOf, EmergencyLane.LegalReservation, DroppedByLane, DistinctIds, PositiveSizes;
    var d := EmergencyLane.DecisionOf(x, UrgentOnes(scored));
    LaneAdmitsInTime(x, UrgentOnes(scored));
    assert multiset(d.admitted) <= multiset(UrgentOnes(scored));
    forall r | r in d.admitted ensures !DroppedByLane(cfg, step)(r) {
      UnbarredIsKept(cfg, step, r);
    }
  }

  // Offered load, lane admissions and lane drops are together the cost of everything that arrived.
  ghost predicate LoadBalances(cfg: Config, step: int, arrivals: seq<ServiceRequest>, d: Dispositions) {
    && cfg.pricing.Valid()
    && d.congestion.offeredLoad + LoadOf(cfg.pricing, d.admitted)
      + LoadOf(cfg.pricing, Filter(DroppedByLane(cfg, step), arrivals)) == LoadOf(cfg.pricing, arrivals)
  }

  lemma LoadAddsUp(cfg: Config, world: World, plan: ResourcePlan, step: int, arrivals: seq<ServiceRequest>,
                   beams: seq<Beam>, queueDepth: int, dropRate: real)
    requires cfg.Valid() && UniqueBeams(beams) && NonNegativeCapacity(beams)
    requires DistinctIds(arrivals) && PositiveSizes(arrivals)
    ensures LoadBalances(cfg, step, arrivals,
                         DispositionsOf(cfg, world, plan, step, arrivals, beams, queueDepth, dropRate))
  {
    StepIsMeasured(cfg, world, plan, step, arrivals, beams, queueDepth, dropRate);
    AdmittedAreArrivals(cfg, plan, step, arrivals, beams);
    var d := DispositionsOf(cfg, world, plan, step, arrivals, beams, queueDepth, dropRate);
    assert multiset(d.admitted) <= multiset(arrivals) && forall r :: r in d.admitted ==> !DroppedByLane(cfg, step)(r);
    hide DispositionsOf, TierOneArrivals, DroppedByLane, DistinctIds, EmergencyLane.DecisionOf, ScoreAll, Unreserved;
    ThreeWays(cfg, step, arrivals, d.admitted);
    var load, drops := TierOneArrivals(cfg, step, arrivals, d.admitted), Filter(DroppedByLane(cfg, step), arrivals);
    LoadPermutation(cfg.pricing, arrivals, load + d.admitted + drops);
    LoadAppend(cfg.pricing, load, d.admitted);
    LoadAppend(cfg.pricing, load + d.admitted, drops);
  }

  // ------------------------------------------------------------------ who is shed

  // The coin is not below the curve's value damped by the overage on the part of the score that is missing.
  ghost predicate CoinFails(plan: ResourcePlan, overage: real, score: real, coin: real) {
    coin >= Product(plan.curve.AdmitProbability(score), 1.0 - Product(overage, 1.0 - score))
  }

  lemma {:induction false} ShedAt(plan: ResourcePlan, overage: real, scored: seq<ScoredRequest>, coins: Coins, i: nat)
    requires i < |scored| && CoinFails(plan, overage, scored[i].score, coins(i))
    ensures RejectedRequest(scored[i].request, AdmissionShed) in ShedOf(plan.curve, overage, scored, coins)
  {
    var n := |scored| - 1;
    if i < n {
      ShedAt(plan, overage, scored[..n], coins, i);
    }
    hide CoinFails;
  }

  // The i-th request offered to Tier 1 is shed by admission exactly when the i-th coin fails for its
  // score under the congestion the step reports.
  ghost predicate ShedExactly(cfg: Config, world: World, plan: ResourcePlan, step: int, arrivals: seq<ServiceRequest>,
                              d: Dispositions) {
    var offered := TierOneArrivals(cfg, step, arrivals, d.admitted);
    && (forall i :: 0 <= i < |offered| ==> ShedBy(cfg, world, plan, step, offered, i, d))
    && d.admittedCount + |Filter(IsCoinShed, d.rejected)| == |offered| + |d.admitted|
  }

  ghost predicate ShedBy(cfg: Config, world: World, plan: ResourcePlan, step: int, offered: seq<ServiceRequest>,
                         i: nat, d: Dispositions)
    requires i < |offered|
  {
    RejectedRequest(offered[i], AdmissionShed) in d.rejected
    <==> CoinFails(plan, d.congestion.Overage(), Score(cfg.pricing, offered[i], step, plan.fairnessWeights),
                   world.coins(step)(i))
  }

  predicate IsCoinShed(x: RejectedRequest) {
    x.reason == AdmissionShed
  }

  lemma {:induction false} FilterDistinct(keep: ServiceRequest -> bool, requests: seq<ServiceRequest>)
    requires DistinctIds(requests)
    ensures DistinctIds(Filter(keep, requests))
  {
    if requests != [] {
      var n := |requests| - 1;
      FilterDistinct(keep, requests[..n]);
      var kept := Filter(keep, requests[..n]);
      forall i | 0 <= i < |kept| ensures kept[i].id != requests[n].id {
        assert kept[i] in kept;
        var j :| 0 <= j < n && requests[..n][j] == kept[i];
      }
    }
  }

  lemma {:induction false} CountShed(shed: seq<RejectedRequest>, other: seq<RejectedRequest>)
    requires forall x :: x in shed ==> x.reason == AdmissionShed
    requires forall x :: x in other ==> x.reason != AdmissionShed
    ensures |Filter(IsCoinShed, shed + other)| == |shed|
  {
    if other != [] {
      var n := |other| - 1;
      assert (shed + other)[..|shed| + n] == shed + other[..n];
      assert (shed + other)[|shed| + n] == other[n];
      CountShed(shed, other[..n]);
    } else if shed != [] {
      assert shed + other == shed && shed + [] == shed;
      assert shed[..|shed| - 1] + [] == shed[..|shed| - 1];
      CountShed(shed[..|shed| - 1], []);
    } else {
      assert shed + other == [];
    }
  }

  lemma SamePlace(requests: seq<ServiceRequest>, i: nat, j: nat)
    requires DistinctIds(requests) && i < |requests| && j < |requests|
    ensures requests[i] == requests[j] ==> i == j
  {
  }

  // Admission's outcome for the load it was offered, position by position and in all.
  ghost predicate TierSheds(world: World, plan: ResourcePlan, overage: real, bestEffort: seq<ScoredRequest>, step: int,
                            t: TierOneOutcome) {
    && t.admittedCount + |Filter(IsCoinShed, t.rejected)| == |bestEffort|
    && forall i :: 0 <= i < |bestEffort| ==> ShedItem(world, plan, overage, bestEffort[i], i, step, t)
  }

  ghost predicate ShedItem(world: World, plan: ResourcePlan, overage: real, s: ScoredRequest, i: nat, step: int,
                           t: TierOneOutcome) {
    RejectedRequest(s.request, AdmissionShed) in t.rejected
    <==> CoinFails(plan, overage, s.score, world.coins(step)(i))
  }

  lemma AdmissionCounts(plan: ResourcePlan, overage: real, scored: seq<ScoredRequest>, coins: Coins)
    ensures |AdmittedOf(plan.curve, overage, scored, coins)| + |ShedOf(plan.curve, overage, scored, coins)| == |scored|
    ensures forall x :: x in ShedOf(plan.curve, overage, scored, coins) ==> x.reason == AdmissionShed
  {
    var admitted, shed := AdmittedOf(plan.curve, overage, scored, coins), ShedOf(plan.curve, overage, scored, coins);
    AdmissionPartitions(plan.curve, overage, scored, coins);
    hide AdmittedOf, ShedOf;
    assert |multiset(Map(ScoredOf, scored))| == |scored|;
    assert |multiset(Map(ScoredOf, admitted))| == |admitted| && |multiset(Map(RejectedOf, shed))| == |shed|;
  }

  lemma ShedIffCoinFails(plan: ResourcePlan, overage: real, scored: seq<ScoredRequest>, coins: Coins, i: nat)
    requires DistinctIds(Map(ScoredOf, scored)) && i < |scored|
    ensures RejectedRequest(scored[i].request, AdmissionShed) in ShedOf(plan.curve, overage, scored, coins)
      <==> CoinFails(plan, overage, scored[i].score, coins(i))
  {
    var x := RejectedRequest(scored[i].request, AdmissionShed);
    if CoinFails(plan, overage, scored[i].score, coins(i)) {
      ShedAt(plan, overage, scored, coins, i);
    } else if x in ShedOf(plan.curve, overage, scored, coins) {
      var j := ShedByCoin(plan.curve, overage, scored, coins, x);
      SamePlace(Map(ScoredOf, scored), i, j);
    }
  }

  lemma TierOneSheds(cfg: Config, world: World, plan: ResourcePlan, overage: real, bestEffort: seq<ScoredRequest>,
                     left: seq<Beam>, step: int)
    requires cfg.mac.mcsTable != [] && DistinctIds(Map(ScoredOf, bestEffort))
    ensures TierSheds(world, plan, overage, bestEffort, step,
                      TierOne(cfg, world, plan.curve, overage, bestEffort, left, step))
  {
    var coins := world.coins(step);
    var admitted := AdmittedOf(plan.curve, overage, bestEffort, coins);
    var shed := ShedOf(plan.curve, overage, bestEffort, coins);
    var noLegal := NoLegalOf(cfg, admitted);
    AdmissionCounts(plan, overage, bestEffort, coins);
    assert TierOne(cfg, world, plan.curve, overage, bestEffort, left, step).rejected == shed + noLegal;
    assert TierOne(cfg, world, plan.curve, overage, bestEffort, left, step).admittedCount == |admitted|;
    hide ShedOf, AdmittedOf, NoLegalOf, TierOne, DistinctIds, Filter, CoinFails;
    forall x | x in noLegal ensures x.reason != AdmissionShed {
      NoLegalHasCause(cfg, admitted, x);
    }
    CountShed(shed, noLegal);
    forall i | 0 <= i < |bestEffort|
      ensures (RejectedRequest(bestEffort[i].request, AdmissionShed) in shed
        <==> CoinFails(plan, overage, bestEffort[i].score, coins(i)))
    {
      ShedIffCoinFails(plan, overage, bestEffort, coins, i);
    }
  }

  lemma DistinctForTierOne(cfg: Config, step: int, arrivals: seq<ServiceRequest>, admitted: seq<ServiceRequest>)
    requires DistinctIds(arrivals)
    ensures DistinctIds(TierOneArrivals(cfg, step, arrivals, admitted))
  {
    FilterDistinct(ForTierOne(cfg, step, admitted), arrivals);
  }

  lemma ShedOfOffered(cfg: Config, world: World, plan: ResourcePlan, step: int, arrivals: seq<ServiceRequest>,
                      bestEffort: seq<ScoredRequest>, lane: EmergencyLane.EmergencyDecision, t: TierOneOutcome,
                      congestion: CongestionState)
    requires Map(ScoredOf, bestEffort) == TierOneArrivals(cfg, step, arrivals, lane.admitted)
    requires forall s :: s in bestEffort ==> s.score == ScoreOf(cfg, plan, step, s.request)
    requires TierSheds(world, plan, congestion.Overage(), bestEffort, step, t)
    ensures ShedExactly(cfg, world, plan, step, arrivals, Assemble(lane, t, congestion))
  {
    var d := Assemble(lane, t, congestion);
    var offered := TierOneArrivals(cfg, step, arrivals, lane.admitted);
    hide CoinFails, CongestionState.Overage, TierOneArrivals;
    forall i | 0 <= i < |offered| ensures ShedBy(cfg, world, plan, step, offered, i, d) {
      assert bestEffort[i] in bestEffort && Map(ScoredOf, bestEffort)[i] == bestEffort[i].request;
      assert ShedItem(world, plan, congestion.Overage(), bestEffort[i], i, step, t);
    }
  }

  lemma StepShedsExactly(cfg: Config, world: World, plan: ResourcePlan, step: int, arrivals: seq<ServiceRequest>,
                         beams: seq<Beam>, queueDepth: int, dropRate: real)
    requires cfg.Valid() && UniqueBeams(beams) && NonNegativeCapacity(beams)
    requires DistinctIds(arrivals) && PositiveSizes(arrivals)
    ensures ShedExactly(cfg, world, plan, step, arrivals,
                        DispositionsOf(cfg, world, plan, step, arrivals, beams, queueDepth, dropRate))
  {
    var scored := ScoreAll(cfg, plan, step, arrivals);
    TierOneIs(cfg, plan, step, arrivals, beams);
    var lane := EmergencyLane.DecisionOf(LaneContext(cfg, beams, step), UrgentOnes(scored));
    var left := LeftOver(beams, lane.reservations);
    var bestEffort := Filter(ToBestEffort(SpilloverIds(lane.shed)), scored);
    var congestion := CongestionFor(bestEffort, left, queueDepth, dropRate);
    var t := TierOne(cfg, world, plan.curve, congestion.Overage(), bestEffort, left, step);
    assert DispositionsOf(cfg, world, plan, step, arrivals, beams, queueDepth, dropRate)
      == Assemble(lane, t, congestion);
    assert forall s :: s in bestEffort ==> s.score == ScoreOf(cfg, plan, step, s.request);
    hide DispositionsOf, ScoreAll, EmergencyLane.DecisionOf, LeftOver, TierOne, CongestionFor, ToBestEffort, ScoreOf;
    hide DistinctIds, TierSheds, ShedExactly, TierOneArrivals, CongestionState.Overage;
    DistinctForTierOne(cfg, step, arrivals, lane.admitted);
    TierOneSheds(cfg, world, plan, congestion.Overage(), bestEffort, left, step);
    ShedOfOffered(cfg, world, plan, step, arrivals, bestEffort, lane, t, congestion);
  }

  // What a step tells about its load: the congestion measured, and the shedding that followed from it.
  ghost predicate LoadTold(cfg: Config, world: World, plan: ResourcePlan, step: int, arrivals: seq<ServiceRequest>,
                           beams: seq<Beam>, d: Dispositions) {
    && Measured(cfg, step, arrivals, beams, d)
    && LoadBalances(cfg, step, arrivals, d)
    && ShedExactly(cfg, world, plan, step, arrivals, d)
  }

  lemma StepTellsLoad(cfg: Config, world: World, plan: ResourcePlan, step: int, arrivals: seq<ServiceRequest>,
                      beams: seq<Beam>, queueDepth: int, dropRate: real)
    requires cfg.Valid() && UniqueBeams(beams) && NonNegativeCapacity(beams)
    requires DistinctIds(arrivals) && PositiveSizes(arrivals)
    ensures var d := DispositionsOf(cfg, world, plan, step, arrivals, beams, queueDepth, dropRate);
      && LoadTold(cfg, world, plan, step, arrivals, beams, d)
      && d.congestion.queueDepth == queueDepth && d.congestion.dropRate == dropRate
  {
    hide DispositionsOf, Measured, ShedExactly, LoadBalances;
    LoadAddsUp(cfg, world, plan, step, arrivals, beams, queueDepth, dropRate);
    StepIsMeasured(cfg, world, plan, step, arrivals, beams, queueDepth, dropRate);
    StepShedsExactly(cfg, world, plan, step, arrivals, beams, queueDepth, dropRate);
  }
}
