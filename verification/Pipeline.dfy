// The stages of one control-loop step, from scored arrivals to dispositions.
module Pipeline {
  import opened Domain
  import opened Collections
  import opened SchedulerPort
  import opened Regulatory
  import opened Scoring
  import opened Planning
  import opened Admission
  import opened RequestSource
  import CircuitBreaker
  import EmergencyLane
  import LinkAdaptation
  import FluidScheduler
  import SlotMac
  import ContentionMac

  datatype ClassProfile = ClassProfile(retryBudget: nat, degradable: bool)

  datatype SchedulerKind = HeuristicKind | PriorityFairKind(maxUnitsPerRequest: real) | SlotMacKind | ContentionMacKind

  datatype Config = Config(
    classMix: map<TrafficClass, ClassProfile>,
    maxBatch: nat,
    queueCapacity: nat,
    backoffBase: nat,
    backoffMax: nat,
    breaker: CircuitBreaker.Settings,
    clients: nat,
    lane: EmergencyLane.LaneConfig,
    pricing: ScoringConfig,
    rules: Rules,
    scheduler: SchedulerKind,
    degradeMinFraction: real,
    mac: LinkAdaptation.MacConfig,
    cadence: nat,
    durationSteps: nat)
  {
    ghost predicate Valid() {
      && queueCapacity > 0 && backoffMax > 0 && cadence > 0
      && breaker.Valid() && lane.Valid() && pricing.Valid() && mac.Valid()
    }

    function RetryBudget(c: TrafficClass): nat {
      if c in classMix then classMix[c].retryBudget else 0
    }

    function Degradable(c: TrafficClass): bool {
      c in classMix && classMix[c].degradable
    }
  }

  // Everything a run meets from outside: demand, constellation replies, plans, coins, jitter,
  // random access draws, and scheduler faults.
  datatype World = World(
    demand: Demand,
    reply: (nat, int) -> Option<seq<Beam>>,
    plan: int -> ResourcePlan,
    coins: int -> Coins,
    jitter: (int, nat) -> nat,
    draws: int -> ContentionMac.Draws,
    primaryFails: int -> bool,
    fallbackFails: int -> bool)
  {
    // Payloads are positive.
    ghost predicate GoodDemand() {
      forall step: nat, i :: 0 <= i < |demand(step)| ==> demand(step)[i].sizeBytes > 0
    }

    // Capacities are non-negative and beam ids unique, also across constellations.
    ghost predicate GoodReplies(step: int) {
      && (forall k: nat :: GoodReply(reply(k, step)))
      && (forall k: nat, l: nat :: k != l ==> DisjointReplies(reply(k, step), reply(l, step)))
    }

    // The randomness of one step is in range.
    ghost predicate FairAt(cfg: Config, step: int) {
      FairCoins(coins(step)) && draws(step).Fair(cfg.mac.rbsPerBeam)
        && forall i: nat :: jitter(step, i) <= cfg.backoffBase
    }

    ghost predicate Fair(cfg: Config) {
      GoodDemand() && (forall step :: GoodReplies(step)) && (forall step :: FairAt(cfg, step))
    }
  }

  ghost predicate GoodReply(reply: Option<seq<Beam>>) {
    reply.Some? ==> UniqueBeams(reply.value) && NonNegativeCapacity(reply.value)
  }

  ghost predicate DisjointReplies(a: Option<seq<Beam>>, b: Option<seq<Beam>>) {
    a.Some? && b.Some? ==> forall x, y :: x in a.value && y in b.value ==> x.id != y.id
  }

  // ------------------------------------------------------------------ scoring and the two lanes

  function ScoreOf(cfg: Config, plan: ResourcePlan, step: int, r: ServiceRequest): real {
    Score(cfg.pricing, r, step, plan.fairnessWeights)
  }

  function ScoreAll(cfg: Config, plan: ResourcePlan, step: int,
                    arrivals: seq<ServiceRequest>): (scored: seq<ScoredRequest>)
    requires cfg.pricing.bytesPerUnit > 0.0 && cfg.pricing.minLinkQuality > 0.0
    ensures Map(ScoredOf, scored) == arrivals
    ensures forall s :: s in scored ==> s.cost == EstimateCost(cfg.pricing, s.request)
    ensures forall s :: s in scored && s.request.sizeBytes > 0 ==> s.cost > 0.0
    ensures forall s :: s in scored ==> s.deliveryProbability == Clamp01(s.request.linkQuality)
    ensures forall s :: s in scored ==> s.score == ScoreOf(cfg, plan, step, s.request)
  {
    seq(|arrivals|, i requires 0 <= i < |arrivals| =>
      ScoredRequest(arrivals[i], ScoreOf(cfg, plan, step, arrivals[i]), EstimateCost(cfg.pricing, arrivals[i]),
                    Clamp01(arrivals[i].linkQuality)))
  }

  predicate IsUrgent(s: ScoredRequest) {
    Urgent(s.request.trafficClass)
  }

  function UrgentOnes(scored: seq<ScoredRequest>): seq<ServiceRequest> {
    Map(ScoredOf, Filter(IsUrgent, scored))
  }

  predicate IsSpill(s: RejectedRequest) {
    s.reason == EmergencyLaneFull
  }

  predicate IsLaneDrop(s: RejectedRequest) {
    s.reason != EmergencyLaneFull
  }

  // Ids of the urgent requests a full lane passes on to Tier 1.
  function SpilloverIds(shed: seq<RejectedRequest>): set<RequestId> {
    set s | s in shed && s.reason == EmergencyLaneFull :: s.request.id
  }

  function ToBestEffort(spilled: set<RequestId>): ScoredRequest -> bool {
    (s: ScoredRequest) => !IsUrgent(s) || s.request.id in spilled
  }

  // Capacity left for Tier 1 after the reservations.
  function LeftOver(beams: seq<Beam>, reservations: seq<Allocation>): (left: seq<Beam>)
    ensures |left| == |beams|
    ensures forall i :: 0 <= i < |beams| ==>
      left[i].id == beams[i].id && left[i].fleet == beams[i].fleet && left[i].region == beams[i].region
        && left[i].band == beams[i].band
  {
    if reservations == [] then beams
    else
      seq(|beams|, i requires 0 <= i < |beams| =>
        beams[i].(capacity := Max(0.0, beams[i].capacity - UsedOn(reservations, beams[i].id))))
  }

  function UsedIn(used: map<BeamId, real>, beam: BeamId): real {
    if beam in used then used[beam] else 0.0
  }

  method SubtractReservations(beams: seq<Beam>, reservations: seq<Allocation>) returns (left: seq<Beam>)
    ensures left == LeftOver(beams, reservations)
  {
    var used: map<BeamId, real> := map[];
    for i := 0 to |reservations|
      invariant forall id :: UsedIn(used, id) == UsedOn(reservations[..i], id)
      invariant i > 0 <==> used != map[]
    {
      var a := reservations[i];
      assert reservations[..i + 1][..i] == reservations[..i];
      used := used[a.beamId := UsedIn(used, a.beamId) + a.units];
      assert a.beamId in used;
    }
    assert reservations[..|reservations|] == reservations;
    if used == map[] {
      return beams;
    }
    left := seq(|beams|, i requires 0 <= i < |beams| =>
      beams[i].(capacity := Max(0.0, beams[i].capacity - UsedIn(used, beams[i].id))));
    assert forall i :: 0 <= i < |beams| ==> UsedIn(used, beams[i].id) == UsedOn(reservations, beams[i].id);
  }

  // ------------------------------------------------------------------ candidates

  function CandidateFor(cfg: Config, s: ScoredRequest): ScheduleCandidate {
    ScheduleCandidate(s.request, AllowedOptions(cfg.rules, s.request), s.score, s.cost, s.deliveryProbability,
                      cfg.Degradable(s.request.trafficClass))
  }

  function CandidatesOf(cfg: Config, admitted: seq<ScoredRequest>): seq<ScheduleCandidate> {
    if admitted == [] then []
    else
      var n := |admitted| - 1;
      CandidatesOf(cfg, admitted[..n])
        + if AllowedOptions(cfg.rules, admitted[n].request) == [] then [] else [CandidateFor(cfg, admitted[n])]
  }

  function NoLegalOf(cfg: Config, admitted: seq<ScoredRequest>): seq<RejectedRequest> {
    if admitted == [] then []
    else
      var n := |admitted| - 1;
      NoLegalOf(cfg, admitted[..n])
        + if AllowedOptions(cfg.rules, admitted[n].request)
          == [] then [RejectedRequest(admitted[n].request, NoLegalOption)] else []
  }

  method BuildCandidates(cfg: Config, admitted: seq<ScoredRequest>)
    returns (candidates: seq<ScheduleCandidate>, noLegal: seq<RejectedRequest>)
    ensures candidates == CandidatesOf(cfg, admitted) && noLegal == NoLegalOf(cfg, admitted)
  {
    candidates, noLegal := [], [];
    for i := 0 to |admitted|
      invariant candidates == CandidatesOf(cfg, admitted[..i]) && noLegal == NoLegalOf(cfg, admitted[..i])
    {
      assert admitted[..i + 1][..i] == admitted[..i];
      if AllowedOptions(cfg.rules, admitted[i].request) == [] {
        noLegal := noLegal + [RejectedRequest(admitted[i].request, NoLegalOption)];
      } else {
        candidates := candidates + [CandidateFor(cfg, admitted[i])];
      }
    }
    assert admitted[..|admitted|] == admitted;
  }

  lemma {:induction false} CandidatesPartition(cfg: Config, admitted: seq<ScoredRequest>)
    ensures multiset(Map(ScoredOf, admitted))
      == multiset(Map(RequestOf, CandidatesOf(cfg, admitted))) + multiset(Map(RejectedOf, NoLegalOf(cfg, admitted)))
  {
    if admitted != [] {
      var n := |admitted| - 1;
      var s := admitted[n];
      CandidatesPartition(cfg, admitted[..n]);
      hide AllowedOptions;
      var cs, none := CandidatesOf(cfg, admitted[..n]), NoLegalOf(cfg, admitted[..n]);
      assert multiset(Map(ScoredOf, admitted)) == multiset(Map(ScoredOf, admitted[..n])) + multiset{s.request} by {
        assert admitted == admitted[..n] + [s];
        MapSnoc(ScoredOf, admitted[..n], s);
      }
      if AllowedOptions(cfg.rules, s.request) == [] {
        MapSnoc(RejectedOf, none, RejectedRequest(s.request, NoLegalOption));
        assert cs + [] == cs;
      } else {
        assert CandidateFor(cfg, s).request == s.request;
        MapSnoc(RequestOf, cs, CandidateFor(cfg, s));
        assert none + [] == none;
      }
    }
  }

  lemma {:induction false} NoLegalHasCause(cfg: Config, admitted: seq<ScoredRequest>, x: RejectedRequest)
    requires x in NoLegalOf(cfg, admitted)
    ensures x.reason == NoLegalOption && AllowedOptions(cfg.rules, x.request) == []
  {
    hide AllowedOptions;
    var n := |admitted| - 1;
    if x in NoLegalOf(cfg, admitted[..n]) {
      NoLegalHasCause(cfg, admitted[..n], x);
    }
  }

  // Each candidate comes from an admitted request and carries exactly its permitted options.
  lemma {:induction false} CandidatesComeFrom(cfg: Config, admitted: seq<ScoredRequest>, c: ScheduleCandidate)
    returns (s: ScoredRequest)
    requires c in CandidatesOf(cfg, admitted)
    ensures s in admitted && c == CandidateFor(cfg, s) && c.options != []
  {
    var n := |admitted| - 1;
    if c in CandidatesOf(cfg, admitted[..n]) {
      s := CandidatesComeFrom(cfg, admitted[..n], c);
    } else {
      s := admitted[n];
    }
  }

  // ------------------------------------------------------------------ the scheduler chain

  datatype Scheduled = Scheduled(result: SchedulingResult, mode: DegradeMode, fallbackUsed: nat)

  function FluidParams(cfg: Config): FluidScheduler.Params {
    match cfg.scheduler
    case PriorityFairKind(cap) => FluidScheduler.Params(AtMost(cap), cfg.degradeMinFraction)
    case _ => FluidScheduler.Params(Unbounded, cfg.degradeMinFraction)
  }

  function PrimaryResult(cfg: Config, world: World, cs: seq<ScheduleCandidate>, beams: seq<Beam>,
                         step: int): SchedulingResult
    requires cfg.mac.mcsTable != []
  {
    match cfg.scheduler
    case SlotMacKind => SlotMac.ScheduleOf(cfg.mac, cs, beams, step)
    case ContentionMacKind => ContentionMac.ScheduleOf(cfg.mac, cs, beams, step, world.draws(step))
    case _ => FluidScheduler.ScheduleOf(FluidParams(cfg), cs, beams, step)
  }

  // Safe mode: everything best-effort is deferred, nothing else is touched.
  function SafeResult(cs: seq<ScheduleCandidate>): SchedulingResult {
    SchedulingResult([], [], Map(RequestOf, cs), [], 1.0, 0.0)
  }

  // Primary scheduler, else the plain heuristic one, else safe mode.
  function ScheduleChain(cfg: Config, world: World, cs: seq<ScheduleCandidate>, beams: seq<Beam>, step: int): Scheduled
    requires cfg.mac.mcsTable != []
  {
    if !world.primaryFails(step) then Scheduled(PrimaryResult(cfg, world, cs, beams, step), Normal, 0)
    else if !world.fallbackFails(step) then
      Scheduled(FluidScheduler.ScheduleOf(FluidScheduler.Params(Unbounded, cfg.degradeMinFraction), cs, beams, step),
        Fallback, 1)
    else Scheduled(SafeResult(cs), Safe, 1)
  }

  method RunScheduler(cfg: Config, world: World, cs: seq<ScheduleCandidate>, beams: seq<Beam>, step: int)
    returns (r: Scheduled)
    requires cfg.mac.Valid() && world.draws(step).Fair(cfg.mac.rbsPerBeam)
    ensures r == ScheduleChain(cfg, world, cs, beams, step)
  {
    if !world.primaryFails(step) {
      var result;
      match cfg.scheduler {
        case SlotMacKind => result := SlotMac.Schedule(cfg.mac, cs, beams, step);
        case ContentionMacKind => result := ContentionMac.Schedule(cfg.mac, cs, beams, step, world.draws(step));
        case _ => result := FluidScheduler.Schedule(FluidParams(cfg), cs, beams, step);
      }
      return Scheduled(result, Normal, 0);
    }
    if !world.fallbackFails(step) {
      var result := FluidScheduler.Schedule(FluidScheduler.Params(Unbounded, cfg.degradeMinFraction), cs, beams, step);
      return Scheduled(result, Fallback, 1);
    }
    return Scheduled(SafeResult(cs), Safe, 1);
  }

  // The capacity slack of the exit taken: none on a resource-block grid, the tolerance otherwise.
  function SlackOf(cfg: Config, mode: DegradeMode): real {
    if mode == Normal && (cfg.scheduler == SlotMacKind || cfg.scheduler == ContentionMacKind) then 0.0 else EPS
  }

  ghost predicate GoodCandidates(cs: seq<ScheduleCandidate>) {
    forall c :: c in cs ==> c.cost > 0.0 && ConsistentOptions(c.options)
  }

  lemma PrimaryIsSound(cfg: Config, world: World, cs: seq<ScheduleCandidate>, beams: seq<Beam>, step: int)
    requires cfg.mac.Valid() && world.draws(step).Fair(cfg.mac.rbsPerBeam)
    requires UniqueBeams(beams) && NonNegativeCapacity(beams) && GoodCandidates(cs)
    ensures Sound(cs, beams, step, SlackOf(cfg, Normal), PrimaryResult(cfg, world, cs, beams, step))
  {
    var r := PrimaryResult(cfg, world, cs, beams, step);
    if cfg.scheduler == SlotMacKind {
      assert Sound(cs, beams, step, 0.0, r) by { SlotMac.ScheduleIsSound(cfg.mac, cs, beams, step); }
    } else if cfg.scheduler == ContentionMacKind {
      assert Sound(cs, beams, step, 0.0, r)
        by { ContentionMac.ScheduleIsSound(cfg.mac, cs, beams, step, world.draws(step)); }
    } else {
      assert Sound(cs, beams, step, EPS, r) by { FluidScheduler.ScheduleIsSound(FluidParams(cfg), cs, beams, step); }
    }
  }

  lemma SafeIsSound(cs: seq<ScheduleCandidate>, beams: seq<Beam>, step: int)
    requires NonNegativeCapacity(beams)
    ensures Sound(cs, beams, step, EPS, SafeResult(cs))
  {
    var all := Map(RequestOf, cs);
    assert [] + all + Map(RejectedOf, []) == all;
    forall beam | beam in beams ensures UsedOn([], beam.id) <= beam.capacity + EPS {
      assert beam.capacity >= 0.0;
    }
  }

  // All three exits of the fallback chain meet the scheduler contract.
  lemma EveryExitIsSound(cfg: Config, world: World, cs: seq<ScheduleCandidate>, beams: seq<Beam>, step: int)
    requires cfg.mac.Valid() && world.draws(step).Fair(cfg.mac.rbsPerBeam)
    requires UniqueBeams(beams) && NonNegativeCapacity(beams) && GoodCandidates(cs)
    ensures Sound(cs, beams, step, SlackOf(cfg, ScheduleChain(cfg, world, cs, beams, step).mode),
                  ScheduleChain(cfg, world, cs, beams, step).result)
  {
    if !world.primaryFails(step) {
      PrimaryIsSound(cfg, world, cs, beams, step);
    } else if !world.fallbackFails(step) {
      FluidScheduler.ScheduleIsSound(FluidScheduler.Params(Unbounded, cfg.degradeMinFraction), cs, beams, step);
    } else {
      SafeIsSound(cs, beams, step);
    }
  }

  // ------------------------------------------------------------------ one step's dispositions

  datatype Dispositions = Dispositions(
    reservations: seq<Allocation>,
    grants: seq<Allocation>,
    admitted: seq<ServiceRequest>,
    served: seq<ServiceRequest>,
    deferred: seq<ServiceRequest>,
    dropped: seq<RejectedRequest>,
    rejected: seq<RejectedRequest>,
    admittedCount: nat,
    fairness: real,
    mode: DegradeMode,
    fallbackUsed: nat,
    congestion: CongestionState)
  {
    // Tier 2 first, then Tier 1.
    function AllServed(): seq<ServiceRequest> {
      admitted + served
    }

    function Allocations(): seq<Allocation> {
      reservations + grants
    }
  }

  function CostOf(s: ScoredRequest): real {
    s.cost
  }

  function CongestionFor(bestEffort: seq<ScoredRequest>, left: seq<Beam>, queueDepth: int,
                         dropRate: real): CongestionState {
    CongestionState(queueDepth, Sum(Map(CostOf, bestEffort)), TotalCapacity(left), dropRate)
  }

  function LaneContext(cfg: Config, beams: seq<Beam>, step: int): EmergencyLane.Context {
    EmergencyLane.Context(cfg.lane, cfg.rules, cfg.pricing, beams, step)
  }

  // What Tier 1 does with the best-effort load.
  datatype TierOneOutcome = TierOneOutcome(admittedCount: nat, scheduled: Scheduled, rejected: seq<RejectedRequest>)

  // Admission, the regulatory filter, and the scheduler chain.
  function TierOne(cfg: Config, world: World, curve: AdmissionCurve, overage: real, bestEffort: seq<ScoredRequest>,
                   left: seq<Beam>, step: int): TierOneOutcome
    requires cfg.mac.mcsTable != []
  {
    var admitted := AdmittedOf(curve, overage, bestEffort, world.coins(step));
    var shed := ShedOf(curve, overage, bestEffort, world.coins(step));
    TierOneOutcome(|admitted|, ScheduleChain(cfg, world, CandidatesOf(cfg, admitted), left, step), shed
      + NoLegalOf(cfg, admitted))
  }

  function Assemble(decision: EmergencyLane.EmergencyDecision, t: TierOneOutcome,
                    congestion: CongestionState): Dispositions {
    var s := t.scheduled;
    Dispositions(decision.reservations, s.result.allocations, decision.admitted, s.result.served, s.result.deferred,
                 s.result.dropped + Filter(IsLaneDrop, decision.shed), t.rejected,
                 t.admittedCount + |decision.admitted|, s.result.fairness, s.mode, s.fallbackUsed, congestion)
  }

  // The whole step as a function of what it starts from.
  function DispositionsOf(cfg: Config, world: World, plan: ResourcePlan, step: int, arrivals: seq<ServiceRequest>,
                          beams: seq<Beam>, queueDepth: int, dropRate: real): Dispositions
    requires cfg.pricing.bytesPerUnit > 0.0 && cfg.pricing.minLinkQuality > 0.0 && cfg.mac.mcsTable != []
  {
    var scored := ScoreAll(cfg, plan, step, arrivals);
    var decision := EmergencyLane.DecisionOf(LaneContext(cfg, beams, step), UrgentOnes(scored));
    var left := LeftOver(beams, decision.reservations);
    var bestEffort := Filter(ToBestEffort(SpilloverIds(decision.shed)), scored);
    var congestion := CongestionFor(bestEffort, left, queueDepth, dropRate);
    Assemble(decision, TierOne(cfg, world, plan.curve, congestion.Overage(), bestEffort, left, step), congestion)
  }

  // A step counts a fallback exactly when it leaves normal mode.
  lemma FallbackIsTold(cfg: Config, world: World, plan: ResourcePlan, step: int, arrivals: seq<ServiceRequest>,
                       beams: seq<Beam>, queueDepth: int, dropRate: real)
    requires cfg.Valid()
    ensures var d := DispositionsOf(cfg, world, plan, step, arrivals, beams, queueDepth, dropRate);
      d.fallbackUsed == (if d.mode == Normal then 0 else 1) && d.congestion.dropRate == dropRate
  {
    hide ScoreAll, EmergencyLane.DecisionOf, LeftOver, CandidatesOf, AdmittedOf, ShedOf, NoLegalOf, PrimaryResult;
  }

  method Dispatch(cfg: Config, world: World, admission: AdmissionController, plan: ResourcePlan, step: int,
                  arrivals: seq<ServiceRequest>, beams: seq<Beam>, queueDepth: int, dropRate: real)
    returns (d: Dispositions)
    requires cfg.Valid() && world.FairAt(cfg, step) && admission.plan == plan
    ensures d == DispositionsOf(cfg, world, plan, step, arrivals, beams, queueDepth, dropRate)
  {
    var scored := ScoreAll(cfg, plan, step, arrivals);
    var decision := EmergencyLane.Reserve(LaneContext(cfg, beams, step), UrgentOnes(scored));
    var left := SubtractReservations(beams, decision.reservations);
    var bestEffort := Filter(ToBestEffort(SpilloverIds(decision.shed)), scored);
    var congestion := CongestionFor(bestEffort, left, queueDepth, dropRate);
    var admitted, shed := admission.Admit(bestEffort, congestion, world.coins(step));
    var candidates, noLegal := BuildCandidates(cfg, admitted);
    var s := RunScheduler(cfg, world, candidates, left, step);
    d := Assemble(decision, TierOneOutcome(|admitted|, s, shed + noLegal), congestion);
  }

  // ------------------------------------------------------------------ every arrival gets one disposition

  ghost predicate DistinctIds(requests: seq<ServiceRequest>) {
    forall i, j :: 0 <= i < j < |requests| ==> requests[i].id != requests[j].id
  }

  ghost predicate PositiveSizes(requests: seq<ServiceRequest>) {
    forall r :: r in requests ==> r.sizeBytes > 0
  }

  lemma {:induction false} OneOfEach(requests: seq<ServiceRequest>, r: ServiceRequest)
    requires DistinctIds(requests)
    ensures multiset(requests)[r] == if r in requests then 1 else 0
  {
    if requests != [] {
      var n := |requests| - 1;
      OneOfEach(requests[..n], r);
      assert requests == requests[..n] + [requests[n]];
    }
  }

  lemma SameIdSameRequest(requests: seq<ServiceRequest>, a: ServiceRequest, b: ServiceRequest)
    requires DistinctIds(requests) && a in requests && b in requests && a.id == b.id
    ensures a == b
  {
  }

  // A request kept by a filter over distinct arrivals is kept exactly once.
  lemma KeptOnce(keep: ScoredRequest -> bool, scored: seq<ScoredRequest>, r: ServiceRequest)
    requires DistinctIds(Map(ScoredOf, scored))
    ensures multiset(Map(ScoredOf, Filter(keep, scored)))[r]
      == if exists s :: s in scored && keep(s) && s.request == r then 1 else 0
  {
    FilterIsPart(keep, ScoredOf, scored);
    OneOfEach(Map(ScoredOf, scored), r);
    MapMember(ScoredOf, Filter(keep, scored), r);
    assert r in multiset(Map(ScoredOf, Filter(keep, scored))) <==> r in Map(ScoredOf, Filter(keep, scored));
  }

  ghost predicate LaneSplit(scored: seq<ScoredRequest>, admitted: seq<ServiceRequest>, shed: seq<RejectedRequest>) {
    multiset(UrgentOnes(scored)) == multiset(admitted) + multiset(Map(RejectedOf, shed))
  }

  // Nobody falls between the tiers: reserved, dropped by the lane, or passed to Tier 1, exactly once.
  lemma TiersSplit(scored: seq<ScoredRequest>, admitted: seq<ServiceRequest>, shed: seq<RejectedRequest>)
    requires DistinctIds(Map(ScoredOf, scored)) && LaneSplit(scored, admitted, shed)
    ensures multiset(Map(ScoredOf, scored))
      == multiset(Map(ScoredOf, Filter(ToBestEffort(SpilloverIds(shed)), scored))) + multiset(admitted)
        + multiset(Map(RejectedOf, Filter(IsLaneDrop, shed)))
  {
    var best := Map(ScoredOf, Filter(ToBestEffort(SpilloverIds(shed)), scored));
    var drops, spills := Map(RejectedOf, Filter(IsLaneDrop, shed)), Map(RejectedOf, Filter(IsSpill, shed));
    FilterSplits(IsSpill, IsLaneDrop, RejectedOf, shed);
    forall r
      ensures multiset(Map(ScoredOf, scored))[r] == multiset(best)[r] + multiset(admitted)[r] + multiset(drops)[r]
    {
      TierOf(scored, admitted, shed, r);
    }
  }

  lemma TierOf(scored: seq<ScoredRequest>, admitted: seq<ServiceRequest>, shed: seq<RejectedRequest>, r: ServiceRequest)
    requires DistinctIds(Map(ScoredOf, scored)) && LaneSplit(scored, admitted, shed)
    requires multiset(Map(RejectedOf, shed))
      == multiset(Map(RejectedOf, Filter(IsSpill, shed))) + multiset(Map(RejectedOf, Filter(IsLaneDrop, shed)))
    ensures multiset(Map(ScoredOf, scored))[r]
      == multiset(Map(ScoredOf, Filter(ToBestEffort(SpilloverIds(shed)), scored)))[r] + multiset(admitted)[r]
        + multiset(Map(RejectedOf, Filter(IsLaneDrop, shed)))[r]
  {
    var toBest := ToBestEffort(SpilloverIds(shed));
    OneOfEach(Map(ScoredOf, scored), r);
    KeptOnce(toBest, scored, r);
    KeptOnce(IsUrgent, scored, r);
    MapMember(ScoredOf, scored, r);
    if s :| s in scored && s.request == r {
      SpillsById(scored, admitted, shed, r);
      assert forall t :: t in scored && t.request == r ==> IsUrgent(t) == IsUrgent(s) && toBest(t) == toBest(s);
    }
  }

  // A request's id is among the spilled ids exactly when the request itself spilled.
  lemma SpillsById(scored: seq<ScoredRequest>, admitted: seq<ServiceRequest>, shed: seq<RejectedRequest>,
                   r: ServiceRequest)
    requires DistinctIds(Map(ScoredOf, scored)) && LaneSplit(scored, admitted, shed) && r in Map(ScoredOf, scored)
    ensures r.id in SpilloverIds(shed) <==> r in multiset(Map(RejectedOf, Filter(IsSpill, shed)))
  {
    var spilled := Filter(IsSpill, shed);
    MapMember(RejectedOf, spilled, r);
    if r.id in SpilloverIds(shed) {
      var s :| s in shed && s.reason == EmergencyLaneFull && s.request.id == r.id;
      MapMember(RejectedOf, shed, s.request);
      assert s.request in multiset(Map(RejectedOf, shed));
      assert s.request in multiset(UrgentOnes(scored));
      FilterIsPart(IsUrgent, ScoredOf, scored);
      assert s.request in multiset(Map(ScoredOf, scored));
      SameIdSameRequest(Map(ScoredOf, scored), s.request, r);
    }
  }
}
