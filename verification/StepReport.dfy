// Everything a step can be held to from its record alone: the load it met, the shares the lane gave,
// and the scheduler it ran.
module StepReport {
  import opened Domain
  import opened Collections
  import opened Planning
  import opened Admission
  import opened Pipeline
  import opened StepSafety
  import opened StepLoad
  import opened SchedulerKinds
  import EmergencyLane
  import LaneFairness
  import opened SchedulerPort

  predicate IsUrgentRequest(r: ServiceRequest) {
    Urgent(r.trafficClass)
  }

  // The lane's reservations keep every region within its proportional share of the reserve.
  ghost predicate LaneTold(cfg: Config, step: int, arrivals: seq<ServiceRequest>, beams: seq<Beam>, d: Dispositions) {
    LaneFairness.FairShares(LaneContext(cfg, beams, step), Filter(IsUrgentRequest, arrivals),
                            EmergencyLane.EmergencyDecision(d.admitted, d.reservations, [], 0.0))
  }

  // One run of the scheduler chain gave the step's grants.
  ghost predicate SchedulingTold(cfg: Config, world: World, plan: ResourcePlan, step: int, beams: seq<Beam>,
                                 d: Dispositions) {
    cfg.mac.Valid() && exists cs, r :: Scheduling(cfg, world, plan, step, beams, d, cs, r)
  }

  ghost predicate StepTold(cfg: Config, world: World, plan: ResourcePlan, step: int, arrivals: seq<ServiceRequest>,
                           beams: seq<Beam>, d: Dispositions) {
    && LoadTold(cfg, world, plan, step, arrivals, beams, d)
    && LaneTold(cfg, step, arrivals, beams, d)
    && SchedulingTold(cfg, world, plan, step, beams, d)
  }

  lemma UrgentArrivals(cfg: Config, plan: ResourcePlan, step: int, arrivals: seq<ServiceRequest>)
    requires cfg.pricing.Valid()
    ensures UrgentOnes(ScoreAll(cfg, plan, step, arrivals)) == Filter(IsUrgentRequest, arrivals)
  {
    var scored := ScoreAll(cfg, plan, step, arrivals);
    FilterThroughMap(IsUrgent, IsUrgentRequest, scored);
  }

  lemma StepSharesFairly(cfg: Config, world: World, plan: ResourcePlan, step: int, arrivals: seq<ServiceRequest>,
                         beams: seq<Beam>, queueDepth: int, dropRate: real)
    requires cfg.Valid() && NonNegativeCapacity(beams)
    ensures LaneTold(cfg, step, arrivals, beams,
                     DispositionsOf(cfg, world, plan, step, arrivals, beams, queueDepth, dropRate))
  {
    var x, urgent := LaneContext(cfg, beams, step), Filter(IsUrgentRequest, arrivals);
    UrgentArrivals(cfg, plan, step, arrivals);
    LaneFairness.RegionsShareInProportion(x, urgent);
    hide ScoreAll, LeftOver, TierOne, CongestionFor, EmergencyLane.DecisionOf, LaneFairness.FairAmount, UrgentOnes;
    assert LaneFairness.FairShares(x, urgent, EmergencyLane.DecisionOf(x, urgent));
  }

  // Every step can be held to all three.
  lemma StepTells(cfg: Config, world: World, plan: ResourcePlan, step: int, arrivals: seq<ServiceRequest>,
                  beams: seq<Beam>, queueDepth: int, dropRate: real)
    requires cfg.Valid() && world.FairAt(cfg, step) && UniqueBeams(beams) && NonNegativeCapacity(beams)
    requires DistinctIds(arrivals) && PositiveSizes(arrivals)
    ensures var d := DispositionsOf(cfg, world, plan, step, arrivals, beams, queueDepth, dropRate);
      && StepTold(cfg, world, plan, step, arrivals, beams, d)
      && d.congestion.queueDepth == queueDepth && d.congestion.dropRate == dropRate
  {
    hide DispositionsOf, LoadTold, LaneTold, Scheduling;
    StepTellsLoad(cfg, world, plan, step, arrivals, beams, queueDepth, dropRate);
    StepSharesFairly(cfg, world, plan, step, arrivals, beams, queueDepth, dropRate);
    var cs, r := StepSchedules(cfg, world, plan, step, arrivals, beams, queueDepth, dropRate);
  }
}
