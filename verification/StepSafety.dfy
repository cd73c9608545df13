// What one step of the control loop guarantees, whichever scheduler and whichever exit was taken.
module StepSafety {
  import opened Domain
  import opened Reals
  import opened Collections
  import opened SchedulerPort
  import opened Regulatory
  import opened Planning
  import opened Admission
  import opened Pipeline
  import EmergencyLane

  // ------------------------------------------------------------------ lawful service

  ghost predicate LawfulOn(rules: Rules, r: ServiceRequest, a: Allocation, beam: Beam) {
    && a.beamId == beam.id && a.fleet == beam.fleet && a.band == beam.band && beam.region == r.region
    && var decision := Evaluate(rules, r.region, beam.fleet, beam.band);
      decision.Allowed? && decision.maxAirtime.Allows(a.units, EPS)
  }

  // On time, on a visible beam of its region, with a fleet and band the rule table permits there,
  // within the airtime ceiling.
  ghost predicate Lawful(rules: Rules, beams: seq<Beam>, step: int, r: ServiceRequest, a: Allocation) {
    && !r.IsExpired(step)
    && a.requestId == r.id
    && a.units >= 0.0
    && exists beam :: beam in beams && LawfulOn(rules, r, a, beam)
  }

  lemma ReservationIsLawful(x: EmergencyLane.Context, r: ServiceRequest, a: Allocation)
    requires x.Valid() && EmergencyLane.LegalReservation(x, r, a) && r.sizeBytes > 0
    ensures Lawful(x.rules, x.beams, x.step, r, a)
  {
    var beam :| beam in x.beams && EmergencyLane.ReservedOn(x, r, a, beam);
    assert LawfulOn(x.rules, r, a, beam);
  }

  ghost predicate FromTable(cfg: Config, cs: seq<ScheduleCandidate>) {
    forall c :: c in cs ==> c.options == AllowedOptions(cfg.rules, c.request)
  }

  // What a scheduler may grant on an option list is what the rule table allows on the triple.
  lemma GrantIsLawful(cfg: Config, beams: seq<Beam>, reservations: seq<Allocation>, step: int,
                      cs: seq<ScheduleCandidate>,
                      r: ServiceRequest, a: Allocation)
    requires FromTable(cfg, cs) && LegalService(r, a, cs, LeftOver(beams, reservations), step)
    ensures Lawful(cfg.rules, beams, step, r, a)
  {
    var left := LeftOver(beams, reservations);
    var c :| c in cs && c.request == r && LegalGrant(c, a, left, step);
    var reduced :| reduced in left && LegalOn(c, a, reduced);
    var i :| 0 <= i < |left| && left[i] == reduced;
    ViewsAgree(cfg.rules, r, reduced.fleet, reduced.band);
    assert beams[i] in beams && LawfulOn(cfg.rules, r, a, beams[i]);
  }

  // ------------------------------------------------------------------ capacity across the tiers

  lemma {:induction false} UsedAppend(xs: seq<Allocation>, ys: seq<Allocation>, beam: BeamId)
    ensures UsedOn(xs + ys, beam) == UsedOn(xs, beam) + UsedOn(ys, beam)
  {
    if ys == [] {
      assert xs + ys == xs;
    } else {
      var n := |ys| - 1;
      assert (xs + ys)[..|xs| + n] == xs + ys[..n];
      UsedAppend(xs, ys[..n], beam);
    }
  }

  ghost predicate SlicesHold(fraction: real, beams: seq<Beam>, reservations: seq<Allocation>) {
    forall beam :: beam in beams ==> UsedOn(reservations, beam.id) <= Product(beam.capacity, fraction) + EPS
  }

  // Tier 2 leaves Tier 1 at least the unreserved fraction, and what is left plus what was
  // reserved is the capacity up to the tolerance.
  lemma TierOneKeepsItsShare(fraction: real, beams: seq<Beam>, reservations: seq<Allocation>, i: nat)
    requires i < |beams| && 0.0 <= fraction <= 1.0 && NonNegativeCapacity(beams)
      && SlicesHold(fraction, beams, reservations)
    ensures LeftOver(beams, reservations)[i].capacity >= Product(beams[i].capacity, 1.0 - fraction) - EPS
    ensures LeftOver(beams, reservations)[i].capacity + UsedOn(reservations, beams[i].id) <= beams[i].capacity + EPS
    ensures LeftOver(beams, reservations)[i].capacity >= 0.0
  {
    var c := beams[i].capacity;
    assert beams[i] in beams;
    assert Product(c, 1.0 - fraction) == c - Product(c, fraction);
    ProductMonotone(c, fraction, 1.0);
    assert Product(c, 1.0) == c;
    ProductMonotone(c, 0.0, fraction);
  }

  ghost predicate BeamsHold(beams: seq<Beam>, reservations: seq<Allocation>, grants: seq<Allocation>, slack: real) {
    forall beam :: beam in beams ==> UsedOn(reservations + grants, beam.id) <= beam.capacity + EPS + slack
  }

  // Both tiers together overdraw no beam by more than the two tolerances.
  lemma TiersFitTogether(fraction: real, beams: seq<Beam>, reservations: seq<Allocation>, grants: seq<Allocation>,
                         slack: real)
    requires 0.0 <= fraction <= 1.0 && NonNegativeCapacity(beams) && SlicesHold(fraction, beams, reservations)
    requires WithinCapacity(grants, LeftOver(beams, reservations), slack)
    ensures BeamsHold(beams, reservations, grants, slack)
  {
    var left := LeftOver(beams, reservations);
    forall beam | beam in beams ensures UsedOn(reservations + grants, beam.id) <= beam.capacity + EPS + slack {
      var i :| 0 <= i < |beams| && beams[i] == beam;
      TierOneKeepsItsShare(fraction, beams, reservations, i);
      assert left[i] in left;
      UsedAppend(reservations, grants, beam.id);
    }
  }

  lemma LeftOverIsUsable(fraction: real, beams: seq<Beam>, reservations: seq<Allocation>)
    requires 0.0 <= fraction <= 1.0 && UniqueBeams(beams) && NonNegativeCapacity(beams)
      && SlicesHold(fraction, beams, reservations)
    ensures UniqueBeams(LeftOver(beams, reservations)) && NonNegativeCapacity(LeftOver(beams, reservations))
  {
    forall i | 0 <= i < |beams| ensures LeftOver(beams, reservations)[i].capacity >= 0.0 {
      TierOneKeepsItsShare(fraction, beams, reservations, i);
    }
  }

  // ------------------------------------------------------------------ the step's contract

  ghost predicate AllLawful(cfg: Config, beams: seq<Beam>, step: int, served: seq<ServiceRequest>,
                            allocations: seq<Allocation>) {
    && |served| == |allocations|
    && forall i :: 0 <= i < |served| ==> Lawful(cfg.rules, beams, step, served[i], allocations[i])
  }

  ghost predicate Accounted(arrivals: seq<ServiceRequest>, served: seq<ServiceRequest>, deferred: seq<ServiceRequest>,
                            dropped: seq<RejectedRequest>, rejected: seq<RejectedRequest>) {
    multiset(arrivals) == multiset(served) + multiset(deferred) + multiset(Map(RejectedOf, dropped))
      + multiset(Map(RejectedOf, rejected))
  }

  // Each arrival has exactly one disposition, each service is lawful, and each beam holds.
  ghost predicate StepSound(cfg: Config, step: int, arrivals: seq<ServiceRequest>, beams: seq<Beam>, d: Dispositions) {
    && Accounted(arrivals, d.AllServed(), d.deferred, d.dropped, d.rejected)
    && AllLawful(cfg, beams, step, d.AllServed(), d.Allocations())
    && SlicesHold(cfg.lane.reservedFraction, beams, d.reservations)
    && BeamsHold(beams, d.reservations, d.grants, SlackOf(cfg, d.mode))
    && 0.0 <= d.fairness <= 1.0
  }

  lemma ReservationsAreLawful(cfg: Config, step: int, beams: seq<Beam>, decision: EmergencyLane.EmergencyDecision)
    requires cfg.Valid() && EmergencyLane.AllLegal(LaneContext(cfg, beams, step), decision.admitted,
      decision.reservations)
    requires PositiveSizes(decision.admitted)
    ensures AllLawful(cfg, beams, step, decision.admitted, decision.reservations)
  {
    forall i | 0 <= i < |decision.admitted|
      ensures Lawful(cfg.rules, beams, step, decision.admitted[i], decision.reservations[i])
    {
      ReservationIsLawful(LaneContext(cfg, beams, step), decision.admitted[i], decision.reservations[i]);
    }
  }

  lemma GrantsAreLawful(cfg: Config, step: int, beams: seq<Beam>, reservations: seq<Allocation>,
                        cs: seq<ScheduleCandidate>,
                        slack: real, r: SchedulingResult)
    requires FromTable(cfg, cs) && Sound(cs, LeftOver(beams, reservations), step, slack, r)
    ensures AllLawful(cfg, beams, step, r.served, r.allocations)
  {
    forall i | 0 <= i < |r.served| ensures Lawful(cfg.rules, beams, step, r.served[i], r.allocations[i]) {
      GrantIsLawful(cfg, beams, reservations, step, cs, r.served[i], r.allocations[i]);
    }
  }

  lemma LawfulTogether(cfg: Config, beams: seq<Beam>, step: int, first: seq<ServiceRequest>,
                       firstUnits: seq<Allocation>,
                       second: seq<ServiceRequest>, secondUnits: seq<Allocation>)
    requires AllLawful(cfg, beams, step, first, firstUnits) && AllLawful(cfg, beams, step, second, secondUnits)
    ensures AllLawful(cfg, beams, step, first + second, firstUnits + secondUnits)
  {
    var served, allocations := first + second, firstUnits + secondUnits;
    forall i | 0 <= i < |served| ensures Lawful(cfg.rules, beams, step, served[i], allocations[i]) {
      if i < |first| {
        assert Lawful(cfg.rules, beams, step, first[i], firstUnits[i]);
      } else {
        assert Lawful(cfg.rules, beams, step, second[i - |first|], secondUnits[i - |first|]);
      }
    }
  }

  lemma CandidatesAreGood(cfg: Config, admitted: seq<ScoredRequest>)
    requires forall s :: s in admitted ==> s.cost > 0.0
    ensures GoodCandidates(CandidatesOf(cfg, admitted)) && FromTable(cfg, CandidatesOf(cfg, admitted))
  {
    forall c | c in CandidatesOf(cfg, admitted)
      ensures c.cost > 0.0 && ConsistentOptions(c.options) && c.options == AllowedOptions(cfg.rules, c.request)
    {
      var s := CandidatesComeFrom(cfg, admitted, c);
      ViewsAgree(cfg.rules, s.request, NextGen, L);
    }
  }

  // Tier 1 splits what it is offered into scheduled verdicts, shed and illegal requests.
  lemma TierOneAccounts(cfg: Config, curve: AdmissionCurve, overage: real, bestEffort: seq<ScoredRequest>, coins: Coins,
                        r: SchedulingResult)
    requires var admitted := AdmittedOf(curve, overage, bestEffort, coins);
      multiset(Map(RequestOf, CandidatesOf(cfg, admitted)))
        == multiset(r.served + r.deferred + Map(RejectedOf, r.dropped))
    ensures var admitted := AdmittedOf(curve, overage, bestEffort, coins);
      multiset(Map(ScoredOf, bestEffort))
        == multiset(r.served) + multiset(r.deferred) + multiset(Map(RejectedOf, r.dropped))
        + multiset(Map(RejectedOf, ShedOf(curve, overage, bestEffort, coins) + NoLegalOf(cfg, admitted)))
  {
    var admitted, shed := AdmittedOf(curve, overage, bestEffort, coins), ShedOf(curve, overage, bestEffort, coins);
    AdmissionPartitions(curve, overage, bestEffort, coins);
    CandidatesPartition(cfg, admitted);
    MapAppend(RejectedOf, shed, NoLegalOf(cfg, admitted));
  }

  lemma ScoredAreReady(cfg: Config, plan: ResourcePlan, step: int, arrivals: seq<ServiceRequest>)
    requires cfg.pricing.Valid() && PositiveSizes(arrivals)
    ensures var scored := ScoreAll(cfg, plan, step, arrivals);
      && (forall s :: s in scored ==> s.cost > 0.0)
      && EmergencyLane.Priced(UrgentOnes(scored))
  {
    var scored := ScoreAll(cfg, plan, step, arrivals);
    forall s | s in scored ensures s.request.sizeBytes > 0 {
      MapMember(ScoredOf, scored, s.request);
      assert s.request in arrivals;
    }
    forall r | r in UrgentOnes(scored) ensures r.sizeBytes > 0 {
      MapMember(ScoredOf, Filter(IsUrgent, scored), r);
    }
  }

  // What Tier 2 hands over: lawful reservations within their slices, and capacity Tier 1 can use.
  lemma TierTwoIsSound(cfg: Config, step: int, scored: seq<ScoredRequest>, beams: seq<Beam>)
    requires cfg.Valid() && UniqueBeams(beams) && NonNegativeCapacity(beams)
    requires DistinctIds(Map(ScoredOf, scored)) && EmergencyLane.Priced(UrgentOnes(scored))
    ensures var d := EmergencyLane.DecisionOf(LaneContext(cfg, beams, step), UrgentOnes(scored));
      && TierTwoSound(cfg, step, scored, beams, d)
      && UniqueBeams(LeftOver(beams, d.reservations)) && NonNegativeCapacity(LeftOver(beams, d.reservations))
  {
    var x := LaneContext(cfg, beams, step);
    var d := EmergencyLane.DecisionOf(x, UrgentOnes(scored));
    EmergencyLane.DecisionIsSound(x, UrgentOnes(scored));
    AdmittedAreSized(scored, d.admitted, d.shed);
    ReservationsAreLawful(cfg, step, beams, d);
    assert SlicesHold(cfg.lane.reservedFraction, beams, d.reservations);
    LeftOverIsUsable(cfg.lane.reservedFraction, beams, d.reservations);
  }

  ghost predicate TierOneSound(cfg: Config, bestEffort: seq<ScoredRequest>, left: seq<Beam>, step: int,
                               cs: seq<ScheduleCandidate>, t: TierOneOutcome) {
    && FromTable(cfg, cs)
    && Sound(cs, left, step, SlackOf(cfg, t.scheduled.mode), t.scheduled.result)
    && Accounted(Map(ScoredOf, bestEffort), t.scheduled.result.served, t.scheduled.result.deferred,
                 t.scheduled.result.dropped, t.rejected)
  }

  // What Tier 1 does with the best-effort load on the capacity left over.
  lemma TierOneIsSound(cfg: Config, world: World, curve: AdmissionCurve, overage: real, bestEffort: seq<ScoredRequest>,
                       left: seq<Beam>, step: int)
    returns (cs: seq<ScheduleCandidate>)
    requires cfg.mac.Valid() && world.draws(step).Fair(cfg.mac.rbsPerBeam)
    requires UniqueBeams(left) && NonNegativeCapacity(left) && forall s :: s in bestEffort ==> s.cost > 0.0
    ensures TierOneSound(cfg, bestEffort, left, step, cs, TierOne(cfg, world, curve, overage, bestEffort, left, step))
  {
    var admitted := AdmittedOf(curve, overage, bestEffort, world.coins(step));
    AdmissionPartitions(curve, overage, bestEffort, world.coins(step));
    CandidatesAreGood(cfg, admitted);
    cs := CandidatesOf(cfg, admitted);
    EveryExitIsSound(cfg, world, cs, left, step);
    TierOneAccounts(cfg, curve, overage, bestEffort, world.coins(step), ScheduleChain(cfg, world, cs, left,
      step).result);
  }

  ghost predicate TierTwoSound(cfg: Config, step: int, scored: seq<ScoredRequest>, beams: seq<Beam>,
                               d: EmergencyLane.EmergencyDecision) {
    && AllLawful(cfg, beams, step, d.admitted, d.reservations)
    && SlicesHold(cfg.lane.reservedFraction, beams, d.reservations)
    && LaneSplit(scored, d.admitted, d.shed)
  }

  lemma AccountsMerge(arrivals: seq<ServiceRequest>, bestEffort: seq<ServiceRequest>, admitted: seq<ServiceRequest>,
                      served: seq<ServiceRequest>, deferred: seq<ServiceRequest>, dropped: seq<RejectedRequest>,
                      laneDropped: seq<RejectedRequest>, rejected: seq<RejectedRequest>)
    requires multiset(arrivals) == multiset(bestEffort) + multiset(admitted) + multiset(Map(RejectedOf, laneDropped))
    requires Accounted(bestEffort, served, deferred, dropped, rejected)
    ensures Accounted(arrivals, admitted + served, deferred, dropped + laneDropped, rejected)
  {
    MapAppend(RejectedOf, dropped, laneDropped);
  }

  // Two sound tiers make a sound step.
  lemma TiersMakeAStep(cfg: Config, step: int, scored: seq<ScoredRequest>, beams: seq<Beam>,
                       d: EmergencyLane.EmergencyDecision,
                       cs: seq<ScheduleCandidate>, t: TierOneOutcome, congestion: CongestionState)
    requires cfg.lane.Valid() && NonNegativeCapacity(beams) && DistinctIds(Map(ScoredOf, scored))
    requires TierTwoSound(cfg, step, scored, beams, d)
    requires TierOneSound(cfg, Filter(ToBestEffort(SpilloverIds(d.shed)), scored), LeftOver(beams, d.reservations),
      step, cs, t)
    ensures StepSound(cfg, step, Map(ScoredOf, scored), beams, Assemble(d, t, congestion))
  {
    var r, slack := t.scheduled.result, SlackOf(cfg, t.scheduled.mode);
    assert AllLawful(cfg, beams, step, d.admitted + r.served, d.reservations + r.allocations) by {
      GrantsAreLawful(cfg, step, beams, d.reservations, cs, slack, r);
      LawfulTogether(cfg, beams, step, d.admitted, d.reservations, r.served, r.allocations);
    }
    assert BeamsHold(beams, d.reservations, r.allocations, slack) by {
      TiersFitTogether(cfg.lane.reservedFraction, beams, d.reservations, r.allocations, slack);
    }
    TiersSplit(scored, d.admitted, d.shed);
    AccountsMerge(Map(ScoredOf, scored), Map(ScoredOf, Filter(ToBestEffort(SpilloverIds(d.shed)), scored)), d.admitted,
                  r.served, r.deferred, r.dropped, Filter(IsLaneDrop, d.shed), t.rejected);
  }

  // Whatever the plan, the draws and the faults, one step keeps its contract.
  lemma StepIsSound(cfg: Config, world: World, plan: ResourcePlan, step: int, arrivals: seq<ServiceRequest>,
                    beams: seq<Beam>, queueDepth: int, dropRate: real)
    requires cfg.Valid() && world.FairAt(cfg, step) && UniqueBeams(beams) && NonNegativeCapacity(beams)
    requires DistinctIds(arrivals) && PositiveSizes(arrivals)
    ensures StepSound(cfg, step, arrivals, beams, DispositionsOf(cfg, world, plan, step, arrivals, beams, queueDepth,
      dropRate))
  {
    var scored := ScoreAll(cfg, plan, step, arrivals);
    ScoredAreReady(cfg, plan, step, arrivals);
    var d := EmergencyLane.DecisionOf(LaneContext(cfg, beams, step), UrgentOnes(scored));
    TierTwoIsSound(cfg, step, scored, beams);
    var left := LeftOver(beams, d.reservations);
    var bestEffort := Filter(ToBestEffort(SpilloverIds(d.shed)), scored);
    var congestion := CongestionFor(bestEffort, left, queueDepth, dropRate);
    var cs := TierOneIsSound(cfg, world, plan.curve, congestion.Overage(), bestEffort, left, step);
    TiersMakeAStep(cfg, step, scored, beams, d, cs,
                   TierOne(cfg, world, plan.curve, congestion.Overage(), bestEffort, left, step), congestion);
  }

  lemma AdmittedAreSized(scored: seq<ScoredRequest>, admitted: seq<ServiceRequest>, shed: seq<RejectedRequest>)
    requires LaneSplit(scored, admitted, shed) && EmergencyLane.Priced(UrgentOnes(scored))
    ensures PositiveSizes(admitted)
  {
    forall r | r in admitted ensures r.sizeBytes > 0 {
      assert r in multiset(admitted);
      assert r in multiset(UrgentOnes(scored));
    }
  }

  // ------------------------------------------------------------------ what spills into Tier 1

  // A request shed by the lane is a scored urgent request, and the shed entry says why.
  lemma ShedEntry(scored: seq<ScoredRequest>, admitted: seq<ServiceRequest>, shed: seq<RejectedRequest>,
    s: RejectedRequest)
    requires LaneSplit(scored, admitted, shed) && s in shed
    ensures s.request in Map(ScoredOf, scored) && s.request in UrgentOnes(scored)
  {
    MapMember(RejectedOf, shed, s.request);
    assert s.request in multiset(Map(RejectedOf, shed));
    assert s.request in multiset(UrgentOnes(scored));
    FilterIsPart(IsUrgent, ScoredOf, scored);
    assert s.request in multiset(Map(ScoredOf, scored));
  }

  lemma ShedOrAdmitted(scored: seq<ScoredRequest>, admitted: seq<ServiceRequest>, shed: seq<RejectedRequest>,
                       r: ServiceRequest) returns (s: RejectedRequest)
    requires LaneSplit(scored, admitted, shed) && r in UrgentOnes(scored) && r !in admitted
    ensures s in shed && s.request == r
  {
    assert r in multiset(UrgentOnes(scored));
    assert r !in multiset(admitted);
    assert r in multiset(Map(RejectedOf, shed));
    MapMember(RejectedOf, shed, r);
    s :| s in shed && s.request == r;
  }

  // Urgent traffic the lane does not admit spills into Tier 1 exactly when it is neither expired
  // nor over the lane's retry limit.
  lemma SpillsExactly(cfg: Config, step: int, scored: seq<ScoredRequest>, beams: seq<Beam>, r: ServiceRequest)
    requires cfg.Valid() && UniqueBeams(beams) && NonNegativeCapacity(beams)
    requires DistinctIds(Map(ScoredOf, scored)) && EmergencyLane.Priced(UrgentOnes(scored))
    requires r in UrgentOnes(scored)
    ensures var d := EmergencyLane.DecisionOf(LaneContext(cfg, beams, step), UrgentOnes(scored));
      r !in d.admitted ==> (r.id in SpilloverIds(d.shed) <==> !r.IsExpired(step) && r.retryCount <= cfg.lane.maxRetries)
  {
    var x := LaneContext(cfg, beams, step);
    var d := EmergencyLane.DecisionOf(x, UrgentOnes(scored));
    EmergencyLane.DecisionIsSound(x, UrgentOnes(scored));
    hide EmergencyLane.DecisionOf, EmergencyLane.TurnedAway;
    if r in d.admitted {
      return;
    }
    var s := ShedOrAdmitted(scored, d.admitted, d.shed, r);
    ShedEntry(scored, d.admitted, d.shed, s);
    if r.id in SpilloverIds(d.shed) {
      var other :| other in d.shed && other.reason == EmergencyLaneFull && other.request.id == r.id;
      ShedEntry(scored, d.admitted, d.shed, other);
      SameIdSameRequest(Map(ScoredOf, scored), other.request, r);
    }
  }

  lemma AdmittedAreUnbarred(x: EmergencyLane.Context, admitted: seq<ServiceRequest>, reservations: seq<Allocation>,
                            r: ServiceRequest)
    requires x.Valid() && EmergencyLane.AllLegal(x, admitted, reservations) && r in admitted
    ensures EmergencyLane.Barred(x.cfg, r, x.step).None?
  {
    var i :| 0 <= i < |admitted| && admitted[i] == r;
    assert EmergencyLane.LegalReservation(x, admitted[i], reservations[i]);
  }

  // What is expired or over the lane's retries is never admitted, never spills, and never reaches
  // the best-effort load: it is dropped.
  lemma BarredNeverSpill(cfg: Config, step: int, scored: seq<ScoredRequest>, beams: seq<Beam>, r: ServiceRequest)
    requires cfg.Valid() && UniqueBeams(beams) && NonNegativeCapacity(beams)
    requires DistinctIds(Map(ScoredOf, scored)) && EmergencyLane.Priced(UrgentOnes(scored))
    requires r in UrgentOnes(scored) && (r.IsExpired(step) || r.retryCount > cfg.lane.maxRetries)
    ensures var d := EmergencyLane.DecisionOf(LaneContext(cfg, beams, step), UrgentOnes(scored));
      && r !in d.admitted && r.id !in SpilloverIds(d.shed)
      && r !in Map(ScoredOf, Filter(ToBestEffort(SpilloverIds(d.shed)), scored))
      && r in Map(RejectedOf, Filter(IsLaneDrop, d.shed))
  {
    var x := LaneContext(cfg, beams, step);
    var d := EmergencyLane.DecisionOf(x, UrgentOnes(scored));
    EmergencyLane.DecisionIsSound(x, UrgentOnes(scored));
    if r in d.admitted {
      AdmittedAreUnbarred(x, d.admitted, d.reservations, r);
    }
    SpillsExactly(cfg, step, scored, beams, r);
    hide EmergencyLane.DecisionOf, EmergencyLane.TurnedAway;
    var s := ShedOrAdmitted(scored, d.admitted, d.shed, r);
    MapMember(RejectedOf, Filter(IsLaneDrop, d.shed), r);
    var bestEffort := Filter(ToBestEffort(SpilloverIds(d.shed)), scored);
    MapMember(ScoredOf, bestEffort, r);
    MapMember(ScoredOf, Filter(IsUrgent, scored), r);
  }

  // An SOS that arrives one step after its deadline.
  const LATE_SOS := ServiceRequest(0, EmergencySos, NA, 100, 1.0, 1.0, 0, 0, 0, None)

  // The documented spillover fails for it: the lane sheds it and Tier 1 never sees it.
  lemma LateSosDoesNotSpill(cfg: Config, plan: ResourcePlan, beams: seq<Beam>)
    requires cfg.Valid() && UniqueBeams(beams) && NonNegativeCapacity(beams)
    ensures var scored := ScoreAll(cfg, plan, 1, [LATE_SOS]);
      var d := EmergencyLane.DecisionOf(LaneContext(cfg, beams, 1), UrgentOnes(scored));
      && LATE_SOS in Map(RejectedOf, d.shed) && LATE_SOS.id !in SpilloverIds(d.shed)
      && Filter(ToBestEffort(SpilloverIds(d.shed)), scored) == []
  {
    var scored := ScoreAll(cfg, plan, 1, [LATE_SOS]);
    ScoredAreReady(cfg, plan, 1, [LATE_SOS]);
    assert scored[0].request == Map(ScoredOf, scored)[0] == LATE_SOS;
    MapMember(ScoredOf, Filter(IsUrgent, scored), LATE_SOS);
    BarredNeverSpill(cfg, 1, scored, beams, LATE_SOS);
    var d := EmergencyLane.DecisionOf(LaneContext(cfg, beams, 1), UrgentOnes(scored));
    MapMember(RejectedOf, Filter(IsLaneDrop, d.shed), LATE_SOS);
    MapMember(RejectedOf, d.shed, LATE_SOS);
  }

  // ------------------------------------------------------------------ why a step gives up on a request

  // The cause a dispatch has for dropping or rejecting a request: its deadline, the lane's retry
  // limit, the rule table, or its coin. A full lane is never the last word.
  ghost predicate DispatchCause(cfg: Config, world: World, plan: ResourcePlan, overage: real, step: int,
                                x: RejectedRequest) {
    match x.reason
    case DeadlineMissed => step > x.request.deadlineStep
    case RetryBudgetExhausted => Urgent(x.request.trafficClass) && x.request.retryCount > cfg.lane.maxRetries
    case NoLegalOption => AllowedOptions(cfg.rules, x.request) == []
    case AdmissionShed => CoinSheds(cfg, world, plan, overage, step, x.request)
    case _ => false
  }

  // One of the step's coins falls outside the damped probability of the request's own score.
  ghost predicate CoinSheds(cfg: Config, world: World, plan: ResourcePlan, overage: real, step: int,
    r: ServiceRequest) {
    exists i: nat :: world.coins(step)(i) >= DampedProbability(plan.curve, overage, ScoreOf(cfg, plan, step, r))
  }

  ghost predicate Caused(cfg: Config, world: World, plan: ResourcePlan, step: int, d: Dispositions) {
    && (forall x :: x in d.dropped ==> DispatchCause(cfg, world, plan, d.congestion.Overage(), step, x))
    && (forall x :: x in d.rejected ==> DispatchCause(cfg, world, plan, d.congestion.Overage(), step, x))
  }

  ghost predicate WellScored(cfg: Config, plan: ResourcePlan, step: int, scored: seq<ScoredRequest>) {
    forall s :: s in scored ==> s.score == ScoreOf(cfg, plan, step, s.request)
  }

  lemma UrgentAreUrgent(scored: seq<ScoredRequest>, r: ServiceRequest)
    requires r in UrgentOnes(scored)
    ensures Urgent(r.trafficClass)
  {
    MapMember(ScoredOf, Filter(IsUrgent, scored), r);
  }

  lemma BarredIsACause(cfg: Config, world: World, plan: ResourcePlan, overage: real, step: int, x: RejectedRequest)
    requires Urgent(x.request.trafficClass) && EmergencyLane.Barred(cfg.lane, x.request, step) == Some(x.reason)
    ensures DispatchCause(cfg, world, plan, overage, step, x)
  {
  }

  lemma LaneDropsHaveCause(cfg: Config, world: World, plan: ResourcePlan, overage: real, step: int,
                           scored: seq<ScoredRequest>, beams: seq<Beam>, x: RejectedRequest)
    requires cfg.Valid()
    requires x in Filter(IsLaneDrop, EmergencyLane.DecisionOf(LaneContext(cfg, beams, step), UrgentOnes(scored)).shed)
    ensures DispatchCause(cfg, world, plan, overage, step, x)
  {
    hide EmergencyLane.DecisionOf, EmergencyLane.Barred, CoinSheds;
    EmergencyLane.BarredIsBarred(LaneContext(cfg, beams, step), UrgentOnes(scored), x);
    UrgentAreUrgent(scored, x.request);
    BarredIsACause(cfg, world, plan, overage, step, x);
  }

  lemma TierOneRejectsForCause(cfg: Config, world: World, plan: ResourcePlan, overage: real, step: int,
                               bestEffort: seq<ScoredRequest>, left: seq<Beam>, x: RejectedRequest)
    requires cfg.mac.mcsTable != [] && WellScored(cfg, plan, step, bestEffort)
    requires x in TierOne(cfg, world, plan.curve, overage, bestEffort, left, step).rejected
    ensures DispatchCause(cfg, world, plan, overage, step, x)
  {
    var coins := world.coins(step);
    if x in ShedOf(plan.curve, overage, bestEffort, coins) {
      var i := ShedByCoin(plan.curve, overage, bestEffort, coins, x);
      assert bestEffort[i] in bestEffort;
    } else {
      NoLegalHasCause(cfg, AdmittedOf(plan.curve, overage, bestEffort, coins), x);
    }
  }

  lemma TierOneHasCauses(cfg: Config, world: World, plan: ResourcePlan, overage: real, step: int,
                         bestEffort: seq<ScoredRequest>, left: seq<Beam>, x: RejectedRequest)
    requires cfg.mac.Valid() && world.draws(step).Fair(cfg.mac.rbsPerBeam)
    requires UniqueBeams(left) && NonNegativeCapacity(left) && forall s :: s in bestEffort ==> s.cost > 0.0
    requires WellScored(cfg, plan, step, bestEffort)
    requires var t := TierOne(cfg, world, plan.curve, overage, bestEffort, left, step);
      x in t.scheduled.result.dropped || x in t.rejected
    ensures DispatchCause(cfg, world, plan, overage, step, x)
  {
    hide DispatchCause, TierOne;
    var t := TierOne(cfg, world, plan.curve, overage, bestEffort, left, step);
    if x in t.rejected {
      TierOneRejectsForCause(cfg, world, plan, overage, step, bestEffort, left, x);
    } else {
      var cs := TierOneIsSound(cfg, world, plan.curve, overage, bestEffort, left, step);
      ExpiredIsACause(cfg, world, plan, overage, step, x);
    }
  }

  // Whatever a step drops or rejects, it has the cause it states.
  lemma StepHasCauses(cfg: Config, world: World, plan: ResourcePlan, step: int, arrivals: seq<ServiceRequest>,
                      beams: seq<Beam>, queueDepth: int, dropRate: real)
    requires cfg.Valid() && world.FairAt(cfg, step) && UniqueBeams(beams) && NonNegativeCapacity(beams)
    requires DistinctIds(arrivals) && PositiveSizes(arrivals)
    ensures Caused(cfg, world, plan, step, DispositionsOf(cfg, world, plan, step, arrivals, beams, queueDepth,
      dropRate))
  {
    hide EmergencyLane.DecisionOf, TierOne, DispatchCause, ScoreOf, CongestionFor;
    var scored := ScoreAll(cfg, plan, step, arrivals);
    ScoredAreReady(cfg, plan, step, arrivals);
    var lane := EmergencyLane.DecisionOf(LaneContext(cfg, beams, step), UrgentOnes(scored));
    assert DistinctIds(Map(ScoredOf, scored));
    var left := LeftOver(beams, lane.reservations);
    assert UniqueBeams(left) && NonNegativeCapacity(left) by {
      TierTwoIsSound(cfg, step, scored, beams);
    }
    var bestEffort := Filter(ToBestEffort(SpilloverIds(lane.shed)), scored);
    assert WellScored(cfg, plan, step, bestEffort);
    hide ScoreAll, LeftOver;
    var overage := CongestionFor(bestEffort, left, queueDepth, dropRate).Overage();
    var t := TierOne(cfg, world, plan.curve, overage, bestEffort, left, step);
    forall x | x in t.scheduled.result.dropped + Filter(IsLaneDrop, lane.shed)
      ensures DispatchCause(cfg, world, plan, overage, step, x)
    {
      if x in t.scheduled.result.dropped {
        TierOneHasCauses(cfg, world, plan, overage, step, bestEffort, left, x);
      } else {
        LaneDropsHaveCause(cfg, world, plan, overage, step, scored, beams, x);
      }
    }
    forall x | x in t.rejected ensures DispatchCause(cfg, world, plan, overage, step, x) {
      TierOneHasCauses(cfg, world, plan, overage, step, bestEffort, left, x);
    }
  }

  lemma ExpiredIsACause(cfg: Config, world: World, plan: ResourcePlan, overage: real, step: int, x: RejectedRequest)
    requires x.reason == DeadlineMissed && x.request.IsExpired(step)
    ensures DispatchCause(cfg, world, plan, overage, step, x)
  {
  }
}
