// Which scheduler a step runs, told from its results alone.
module SchedulerKinds {
  import opened Domain
  import opened Collections
  import opened SchedulerPort
  import opened Regulatory
  import opened Scoring
  import opened Planning
  import opened Admission
  import opened Pipeline
  import opened StepSafety
  import opened StepLoad
  import FluidScheduler
  import FluidAirtime
  import SlotMac
  import BlockAirtime
  import ContentionMac
  import RandomAccess
  import EmergencyLane

  // What a fluid scheduler with these limits leaves behind: grants within them, and nothing deferred
  // that still fits.
  ghost predicate FluidKept(cap: Limit, fraction: real, cs: seq<ScheduleCandidate>, beams: seq<Beam>,
                            r: SchedulingResult) {
    var p := FluidScheduler.Params(cap, fraction);
    && FluidAirtime.ResultIsMaximal(p, cs, beams, r) && FluidAirtime.WithinCap(p, cs, r)
    && FluidAirtime.ResultInOrder(cs, r)
  }

  ghost predicate LoneUsersServed(cfg: Config, world: World, cs: seq<ScheduleCandidate>, beams: seq<Beam>, step: int,
                                  r: SchedulingResult)
    requires cfg.mac.Valid()
  {
    forall ordered: seq<ScheduleCandidate>, k: nat ::
      RandomAccess.InIdOrder(cs, ordered) && RandomAccess.MustServe(cfg.mac, ordered, beams, step, world.draws(step), k)
      ==> LoneUserServed(cfg, world, ordered, beams, step, r, k)
  }

  ghost predicate LoneUserServed(cfg: Config, world: World, ordered: seq<ScheduleCandidate>, beams: seq<Beam>,
                                 step: int, r: SchedulingResult, k: nat)
    requires cfg.mac.Valid()
  {
    k < |ordered| && ContentionMac.EligibleBeams(ordered[k], beams) != []
    && exists j: nat ::
      RandomAccess.ServedAlone(cfg.mac, ordered[k],
                               RandomAccess.DrawnBeam(ordered[k], beams, world.draws(step).pick(k)), r, j)
  }

  // The result is one the configured scheduler would give.
  ghost predicate KindKept(cfg: Config, world: World, cs: seq<ScheduleCandidate>, beams: seq<Beam>, step: int,
                           r: SchedulingResult)
    requires cfg.mac.Valid()
  {
    match cfg.scheduler
    case HeuristicKind => FluidKept(Unbounded, cfg.degradeMinFraction, cs, beams, r)
    case PriorityFairKind(most) => FluidKept(AtMost(most), cfg.degradeMinFraction, cs, beams, r)
    case SlotMacKind =>
      && BlockAirtime.ResultIsMaximal(cfg.mac, cs, beams, r) && BlockAirtime.InWholeBlocks(cfg.mac, cs, beams, r)
      && BlockAirtime.ResultInOrder(cfg.mac, cs, r)
    case ContentionMacKind => LoneUsersServed(cfg, world, cs, beams, step, r)
  }

  ghost predicate Reported(cs: seq<ScheduleCandidate>, beams: seq<Beam>, r: SchedulingResult) {
    exists shares: seq<real> :: ReportedExactly(cs, beams, r, shares)
  }

  // The exit taken: the configured scheduler unless it fails, then the heuristic one unless that
  // fails too, then nothing but deferrals; with the mode and the fallbacks each exit stands for.
  ghost predicate ExitTold(cfg: Config, world: World, cs: seq<ScheduleCandidate>, beams: seq<Beam>, step: int,
                           s: Scheduled)
    requires cfg.mac.Valid()
  {
    if !world.primaryFails(step) then
      s.mode == Normal && s.fallbackUsed == 0 && KindKept(cfg, world, cs, beams, step, s.result)
      && Reported(cs, beams, s.result)
    else if !world.fallbackFails(step) then
      s.mode == Fallback && s.fallbackUsed == 1 && FluidKept(Unbounded, cfg.degradeMinFraction, cs, beams, s.result)
      && Reported(cs, beams, s.result)
    else s == Scheduled(SchedulingResult([], [], Map(RequestOf, cs), [], 1.0, 0.0), Safe, 1)
  }

  lemma FluidIsKept(cap: Limit, fraction: real, cs: seq<ScheduleCandidate>, beams: seq<Beam>, step: int)
    requires UniqueBeams(beams) && NonNegativeCapacity(beams) && FluidScheduler.PositiveCosts(cs) && UniqueIds(cs)
    ensures var r := FluidScheduler.ScheduleOf(FluidScheduler.Params(cap, fraction), cs, beams, step);
      FluidKept(cap, fraction, cs, beams, r) && Reported(cs, beams, r)
  {
    var p := FluidScheduler.Params(cap, fraction);
    FluidAirtime.ScheduleIsMaximal(p, cs, beams, step);
    FluidAirtime.ScheduleIsCapped(p, cs, beams, step);
    FluidAirtime.ScheduleInOrder(p, cs, beams, step);
    var r := FluidScheduler.ScheduleOf(p, cs, beams, step);
    var shares := ConclusionIsExact(cs, beams, r.allocations, r.served, r.deferred, r.dropped);
    hide FluidAirtime.ResultIsMaximal, FluidAirtime.WithinCap, FluidAirtime.ResultInOrder;
    hide ReportedExactly, FluidScheduler.RunOver;
  }

  lemma SlotIsKept(cfg: Config, world: World, cs: seq<ScheduleCandidate>, beams: seq<Beam>, step: int)
    requires cfg.mac.Valid() && cfg.scheduler == SlotMacKind && UniqueBeams(beams) && UniqueIds(cs)
    ensures var r := SlotMac.ScheduleOf(cfg.mac, cs, beams, step);
      KindKept(cfg, world, cs, beams, step, r) && Reported(cs, beams, r)
  {
    BlockAirtime.ScheduleIsMaximal(cfg.mac, cs, beams, step);
    BlockAirtime.ScheduleInWholeBlocks(cfg.mac, cs, beams, step);
    BlockAirtime.ScheduleInOrder(cfg.mac, cs, beams, step);
    var r := SlotMac.ScheduleOf(cfg.mac, cs, beams, step);
    var shares := ConclusionIsExact(cs, beams, r.allocations, r.served, r.deferred, r.dropped);
    hide BlockAirtime.ResultIsMaximal, BlockAirtime.InWholeBlocks, BlockAirtime.ResultInOrder;
    hide ReportedExactly, SlotMac.RunOver;
  }

  lemma ContentionIsKept(cfg: Config, world: World, cs: seq<ScheduleCandidate>, beams: seq<Beam>, step: int)
    requires cfg.mac.Valid() && cfg.scheduler == ContentionMacKind && world.draws(step).Fair(cfg.mac.rbsPerBeam)
    ensures var r := ContentionMac.ScheduleOf(cfg.mac, cs, beams, step, world.draws(step));
      KindKept(cfg, world, cs, beams, step, r) && Reported(cs, beams, r)
  {
    var draws := world.draws(step);
    var r := ContentionMac.ScheduleOf(cfg.mac, cs, beams, step, draws);
    var shares := ConclusionIsExact(cs, beams, r.allocations, r.served, r.deferred, r.dropped);
    assert Reported(cs, beams, r) by {
      hide ReportedExactly, ContentionMac.Transmit, ContentionMac.Winners;
    }
    hide ContentionMac.ScheduleOf, RandomAccess.ServedAlone, Reported, ReportedExactly;
    forall ordered: seq<ScheduleCandidate>, k: nat | RandomAccess.InIdOrder(cs, ordered)
      && RandomAccess.MustServe(cfg.mac, ordered, beams, step, draws, k)
      ensures LoneUserServed(cfg, world, ordered, beams, step, r, k)
    {
      var j := RandomAccess.LoneUserIsServed(cfg.mac, cs, ordered, beams, step, draws, k);
    }
  }

  lemma PrimaryIsTold(cfg: Config, world: World, cs: seq<ScheduleCandidate>, beams: seq<Beam>, step: int)
    requires cfg.mac.Valid() && world.draws(step).Fair(cfg.mac.rbsPerBeam)
    requires UniqueBeams(beams) && NonNegativeCapacity(beams) && GoodCandidates(cs) && UniqueIds(cs)
    ensures var r := PrimaryResult(cfg, world, cs, beams, step);
      KindKept(cfg, world, cs, beams, step, r) && Reported(cs, beams, r)
  {
    hide FluidKept, Reported, LoneUsersServed, BlockAirtime.ResultIsMaximal, BlockAirtime.InWholeBlocks;
    hide BlockAirtime.ResultInOrder;
    hide FluidScheduler.ScheduleOf, SlotMac.ScheduleOf, ContentionMac.ScheduleOf, UniqueIds, UniqueBeams;
    match cfg.scheduler
    case HeuristicKind => FluidIsKept(Unbounded, cfg.degradeMinFraction, cs, beams, step);
    case PriorityFairKind(most) => FluidIsKept(AtMost(most), cfg.degradeMinFraction, cs, beams, step);
    case SlotMacKind => SlotIsKept(cfg, world, cs, beams, step);
    case ContentionMacKind => ContentionIsKept(cfg, world, cs, beams, step);
  }

  // Every exit of the scheduler chain leaves the marks of the scheduler it stands for.
  lemma ExitIsTold(cfg: Config, world: World, cs: seq<ScheduleCandidate>, beams: seq<Beam>, step: int)
    requires cfg.mac.Valid() && world.draws(step).Fair(cfg.mac.rbsPerBeam)
    requires UniqueBeams(beams) && NonNegativeCapacity(beams) && GoodCandidates(cs) && UniqueIds(cs)
    ensures ExitTold(cfg, world, cs, beams, step, ScheduleChain(cfg, world, cs, beams, step))
  {
    PrimaryIsTold(cfg, world, cs, beams, step);
    assert FluidScheduler.PositiveCosts(cs);
    hide PrimaryResult, KindKept, FluidKept, Reported, FluidScheduler.ScheduleOf, UniqueIds, UniqueBeams;
    FluidIsKept(Unbounded, cfg.degradeMinFraction, cs, beams, step);
  }

  // ------------------------------------------------------------------ the scheduler in its step

  // What the step tells the scheduler about a request: its permitted options, its score under the
  // plan, its cost, its chance of delivery, and whether its class may be degraded.
  ghost predicate CandidateTold(cfg: Config, plan: ResourcePlan, step: int, c: ScheduleCandidate) {
    && cfg.pricing.Valid()
    && c.options == AllowedOptions(cfg.rules, c.request) && c.options != []
    && c.score == Score(cfg.pricing, c.request, step, plan.fairnessWeights)
    && c.cost == EstimateCost(cfg.pricing, c.request)
    && c.deliveryProbability == Clamp01(c.request.linkQuality)
    && (c.degradable <==> c.request.trafficClass in cfg.classMix && cfg.classMix[c.request.trafficClass].degradable)
  }

  // The step's grants, services, deferrals and fairness are those of one run of the scheduler chain,
  // over candidates it told truly, on the capacity the reservations left.
  ghost predicate Scheduling(cfg: Config, world: World, plan: ResourcePlan, step: int, beams: seq<Beam>,
                             d: Dispositions, cs: seq<ScheduleCandidate>, r: SchedulingResult)
    requires cfg.mac.Valid()
  {
    && (forall c :: c in cs ==> CandidateTold(cfg, plan, step, c))
    && d.grants == r.allocations && d.served == r.served && d.deferred == r.deferred && d.fairness == r.fairness
    && ExitTold(cfg, world, cs, LeftOver(beams, d.reservations), step, Scheduled(r, d.mode, d.fallbackUsed))
  }

  ghost predicate WellMade(cfg: Config, plan: ResourcePlan, step: int, scored: seq<ScoredRequest>) {
    forall s :: s in scored ==> CostAndScore(cfg, plan, step, s)
  }

  ghost predicate CostAndScore(cfg: Config, plan: ResourcePlan, step: int, s: ScoredRequest) {
    && cfg.pricing.Valid()
    && s.score == Score(cfg.pricing, s.request, step, plan.fairnessWeights)
    && s.cost == EstimateCost(cfg.pricing, s.request)
    && s.deliveryProbability == Clamp01(s.request.linkQuality)
  }

  lemma CandidatesAreTold(cfg: Config, plan: ResourcePlan, step: int, admitted: seq<ScoredRequest>)
    requires WellMade(cfg, plan, step, admitted)
    ensures forall c :: c in CandidatesOf(cfg, admitted) ==> CandidateTold(cfg, plan, step, c)
  {
    hide Score, EstimateCost, AllowedOptions, CandidatesOf;
    forall c | c in CandidatesOf(cfg, admitted) ensures CandidateTold(cfg, plan, step, c) {
      var s := CandidatesComeFrom(cfg, admitted, c);
      assert CostAndScore(cfg, plan, step, s);
    }
  }

  lemma CandidatesAreUnique(cfg: Config, bestEffort: seq<ScoredRequest>, admitted: seq<ScoredRequest>)
    requires DistinctIds(Map(ScoredOf, bestEffort)) && forall s :: s in admitted ==> s in bestEffort
    ensures UniqueIds(CandidatesOf(cfg, admitted))
  {
    var cs := CandidatesOf(cfg, admitted);
    forall c, d | c in cs && d in cs && c.request.id == d.request.id ensures c == d {
      var s := CandidatesComeFrom(cfg, admitted, c);
      var t := CandidatesComeFrom(cfg, admitted, d);
      SameScored(bestEffort, s, t);
    }
  }

  lemma SameScored(scored: seq<ScoredRequest>, s: ScoredRequest, t: ScoredRequest)
    requires DistinctIds(Map(ScoredOf, scored)) && s in scored && t in scored && s.request.id == t.request.id
    ensures s == t
  {
    var i :| 0 <= i < |scored| && scored[i] == s;
    var j :| 0 <= j < |scored| && scored[j] == t;
    assert Map(ScoredOf, scored)[i].id == Map(ScoredOf, scored)[j].id;
  }

  lemma TierOneIsTold(cfg: Config, world: World, plan: ResourcePlan, overage: real, bestEffort: seq<ScoredRequest>,
                      left: seq<Beam>, step: int) returns (cs: seq<ScheduleCandidate>)
    requires cfg.mac.Valid() && world.draws(step).Fair(cfg.mac.rbsPerBeam)
    requires UniqueBeams(left) && NonNegativeCapacity(left) && forall s :: s in bestEffort ==> s.cost > 0.0
    requires DistinctIds(Map(ScoredOf, bestEffort)) && WellMade(cfg, plan, step, bestEffort)
    ensures forall c :: c in cs ==> CandidateTold(cfg, plan, step, c)
    ensures ExitTold(cfg, world, cs, left, step,
                     TierOne(cfg, world, plan.curve, overage, bestEffort, left, step).scheduled)
  {
    var coins := world.coins(step);
    var admitted := AdmittedOf(plan.curve, overage, bestEffort, coins);
    AdmissionPartitions(plan.curve, overage, bestEffort, coins);
    cs := CandidatesOf(cfg, admitted);
    hide AdmittedOf, ScheduleChain, ExitTold, CostAndScore, CandidatesOf, DistinctIds, UniqueIds;
    CandidatesAreGood(cfg, admitted);
    CandidatesAreTold(cfg, plan, step, admitted);
    CandidatesAreUnique(cfg, bestEffort, admitted);
    ExitIsTold(cfg, world, cs, left, step);
  }

  // Every step schedules what it admitted, told truly, with the scheduler it is configured for.
  lemma StepSchedules(cfg: Config, world: World, plan: ResourcePlan, step: int, arrivals: seq<ServiceRequest>,
                      beams: seq<Beam>, queueDepth: int, dropRate: real)
    returns (cs: seq<ScheduleCandidate>, r: SchedulingResult)
    requires cfg.Valid() && world.FairAt(cfg, step) && UniqueBeams(beams) && NonNegativeCapacity(beams)
    requires DistinctIds(arrivals) && PositiveSizes(arrivals)
    ensures Scheduling(cfg, world, plan, step, beams,
                       DispositionsOf(cfg, world, plan, step, arrivals, beams, queueDepth, dropRate), cs, r)
  {
    var scored := ScoreAll(cfg, plan, step, arrivals);
    ScoredAreReady(cfg, plan, step, arrivals);
    TierOneIs(cfg, plan, step, arrivals, beams);
    TierTwoIsSound(cfg, step, scored, beams);
    var lane := EmergencyLane.DecisionOf(LaneContext(cfg, beams, step), UrgentOnes(scored));
    var left := LeftOver(beams, lane.reservations);
    var bestEffort := Filter(ToBestEffort(SpilloverIds(lane.shed)), scored);
    var congestion := CongestionFor(bestEffort, left, queueDepth, dropRate);
    var t := TierOne(cfg, world, plan.curve, congestion.Overage(), bestEffort, left, step);
    r := t.scheduled.result;
    assert DispositionsOf(cfg, world, plan, step, arrivals, beams, queueDepth, dropRate)
      == Assemble(lane, t, congestion);
    assert WellMade(cfg, plan, step, bestEffort);
    hide DispositionsOf, ScoreAll, EmergencyLane.DecisionOf, LeftOver, TierOne, CongestionFor, ToBestEffort;
    hide DistinctIds, UniqueBeams, NonNegativeCapacity, TierOneArrivals, CongestionState.Overage, ExitTold;
    hide TierTwoSound, CandidateTold;
    DistinctForTierOne(cfg, step, arrivals, lane.admitted);
    cs := TierOneIsTold(cfg, world, plan, congestion.Overage(), bestEffort, left, step);
  }
}
