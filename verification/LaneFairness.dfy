// How the emergency lane shares its reserve between regions, and what a full lane has left, in airtime.
module LaneFairness {
  import opened Domain
  import opened Reals
  import opened Collections
  import opened SchedulerPort
  import opened Regulatory
  import opened Scoring
  import opened EmergencyLane

  // ------------------------------------------------------------------ regions and reserve

  // The request may claim from the lane at all: it is on time and within the lane's retries.
  predicate MayClaim(x: Context, r: ServiceRequest) {
    !r.IsExpired(x.step) && r.retryCount <= x.cfg.maxRetries
  }

  function ClaimingRegions(x: Context, urgent: seq<ServiceRequest>): set<Region> {
    set r | r in urgent && MayClaim(x, r) :: r.region
  }

  // The reserved fraction of all the capacity there is.
  function WholeReserve(x: Context): real {
    Product(TotalCapacity(x.beams), x.cfg.reservedFraction)
  }

  function SliceOf(fraction: real): Beam -> real {
    (beam: Beam) => Product(beam.capacity, fraction)
  }

  function HasSlice(fraction: real): Beam -> bool {
    (beam: Beam) => Product(beam.capacity, fraction) > 0.0
  }

  lemma CapacityAdds(beams: seq<Beam>, last: Beam)
    ensures TotalCapacity(beams + [last]) == TotalCapacity(beams) + last.capacity
  {
    MapSnoc(CapacityOf, beams, last);
    SumSnoc(Map(CapacityOf, beams), last.capacity);
  }

  lemma SlicesAdd(pool: seq<Beam>, last: Beam, fraction: real)
    ensures Sum(Map(SliceOf(fraction), pool + [last]))
      == Sum(Map(SliceOf(fraction), pool)) + Product(last.capacity, fraction)
    ensures pool + [] == pool
  {
    MapSnoc(SliceOf(fraction), pool, last);
    SumSnoc(Map(SliceOf(fraction), pool), SliceOf(fraction)(last));
  }

  // The slices of the beams that have one.
  function Slices(beams: seq<Beam>, fraction: real): real {
    Sum(Map(SliceOf(fraction), Filter(HasSlice(fraction), beams)))
  }

  lemma SlicesStep(beams: seq<Beam>, last: Beam, fraction: real)
    requires last.capacity >= 0.0 && fraction >= 0.0
    ensures Slices(beams + [last], fraction) == Slices(beams, fraction) + Product(last.capacity, fraction)
  {
    var pool := Filter(HasSlice(fraction), beams);
    assert (beams + [last])[..|beams|] == beams;
    SlicesAdd(pool, last, fraction);
    assert Filter(HasSlice(fraction), beams + [last]) == pool + if HasSlice(fraction)(last) then [last] else [];
    hide Sum, Map, Product, Filter;
  }

  // They add up to the reserved fraction of all capacity.
  lemma {:induction false} SliceSum(beams: seq<Beam>, fraction: real)
    requires NonNegativeCapacity(beams) && fraction >= 0.0
    ensures Slices(beams, fraction) == Product(TotalCapacity(beams), fraction)
  {
    if beams != [] {
      hide Product, Slices, TotalCapacity;
      var n := |beams| - 1;
      SliceSum(beams[..n], fraction);
      assert beams == beams[..n] + [beams[n]];
      CapacityAdds(beams[..n], beams[n]);
      SlicesStep(beams[..n], beams[n], fraction);
      ProductAdds(TotalCapacity(beams[..n]), beams[n].capacity, fraction);
    }
  }

  lemma {:induction false} SameFilter(keep: Beam -> bool, want: Beam -> bool, beams: seq<Beam>)
    requires forall beam :: keep(beam) == want(beam)
    ensures Filter(keep, beams) == Filter(want, beams)
  {
    if beams != [] {
      SameFilter(keep, want, beams[..|beams| - 1]);
    }
  }

  lemma ReserveIsWhole(x: Context)
    requires x.Valid() && NonNegativeCapacity(x.beams)
    ensures Sum(x.Reserve()) == WholeReserve(x)
  {
    SliceSum(x.beams, x.cfg.reservedFraction);
    SameFilter(x.HasReserve(), HasSlice(x.cfg.reservedFraction), x.beams);
    assert x.Reserve() == Map(SliceOf(x.cfg.reservedFraction), x.Pool());
  }

  lemma RankedRegions(x: Context, urgent: seq<ServiceRequest>)
    ensures RegionsOf(Ranked(x, urgent)) == ClaimingRegions(x, urgent)
  {
    RankedMembers(x, urgent);
    ViableSplit(x.cfg, urgent, x.step);
    forall r | r in urgent && MayClaim(x, r) ensures r in Ranked(x, urgent) {
      ClaimsAreRanked(x, urgent, r);
    }
    hide Ranked;
  }

  lemma ClaimsAreRanked(x: Context, urgent: seq<ServiceRequest>, r: ServiceRequest)
    requires r in urgent && MayClaim(x, r)
    ensures r in Ranked(x, urgent)
  {
    var viable, barred := Viable(x.cfg, urgent, x.step), BarredOnes(x.cfg, urgent, x.step);
    ViableSplit(x.cfg, urgent, x.step);
    RankedMembers(x, urgent);
    hide Viable, BarredOnes, Ranked;
    assert r in multiset(urgent);
    if r in Map(RejectedOf, barred) {
      MapMember(RejectedOf, barred, r);
      assert false;
    }
    assert r in multiset(viable);
    assert r in multiset(Ranked(x, urgent));
  }

  // ------------------------------------------------------------------ proportional shares

  // With n regions claiming, n times the amount is within the weighted reserve, and the amount is
  // within the reserve; both up to the tolerance.
  ghost predicate FairAmount(x: Context, n: nat, amount: real) {
    && Product(n as real, amount) <= Product(x.cfg.geoFairnessWeight, WholeReserve(x)) + Product(n as real, EPS)
    && amount <= WholeReserve(x) + EPS
  }

  lemma QuotientScales(t: real, n: real, w: real)
    requires n > 0.0
    ensures Product(n, Product(t / n, w)) == Product(w, t)
  {
    var q := t / n;
    assert q * n == t;
    assert n * (q * w) == w * (q * n);
  }

  lemma ScaledOrder(n: real, a: real, b: real)
    requires n > 0.0
    ensures a <= b <==> Product(n, a) <= Product(n, b)
  {
    if a <= b {
      ProductMonotone(n, a, b);
    } else {
      ScaleUp(b, a, n);
      assert Product(n, a) == Product(a, n) && Product(n, b) == Product(b, n);
    }
  }

  // The cap compared against is exactly the fair amount.
  lemma CapIsFairAmount(x: Context, urgent: seq<ServiceRequest>, amount: real)
    requires x.Valid() && NonNegativeCapacity(x.beams) && ClaimingRegions(x, urgent) != {}
    ensures amount <= CapFor(x, urgent) + EPS <==> FairAmount(x, |ClaimingRegions(x, urgent)|, amount)
  {
    var n, reserve, w := |ClaimingRegions(x, urgent)|, WholeReserve(x), x.cfg.geoFairnessWeight;
    RankedRegions(x, urgent);
    ReserveIsWhole(x);
    var scaled := Product(reserve / n as real, w);
    assert CapFor(x, urgent) == Min(reserve, scaled);
    ScaledOrder(n as real, amount - EPS, scaled);
    QuotientScales(reserve, n as real, w);
    assert Product(n as real, amount - EPS) == Product(n as real, amount) - Product(n as real, EPS);
    hide Product, CapFor, ClaimingRegions, WholeReserve;
  }

  ghost predicate FairShares(x: Context, urgent: seq<ServiceRequest>, d: EmergencyDecision) {
    && |d.admitted| == |d.reservations|
    && forall region ::
      FairAmount(x, |ClaimingRegions(x, urgent)|, ReservedFor(region, d.admitted, d.reservations))
  }

  // However the requests fall, each region's reservations are at most its share of the reserve when
  // it is divided among the regions claiming, scaled by the fairness weight, and at most the whole.
  lemma RegionsShareInProportion(x: Context, urgent: seq<ServiceRequest>)
    requires x.Valid() && NonNegativeCapacity(x.beams)
    ensures FairShares(x, urgent, DecisionOf(x, urgent))
  {
    var d, n := DecisionOf(x, urgent), |ClaimingRegions(x, urgent)|;
    RegionsShareFairly(x, urgent);
    hide DecisionOf, CapFor, FairAmount, ClaimingRegions;
    forall region ensures FairAmount(x, n, ReservedFor(region, d.admitted, d.reservations)) {
      if n > 0 {
        CapIsFairAmount(x, urgent, ReservedFor(region, d.admitted, d.reservations));
      } else {
        NobodyClaims(x, urgent);
      }
    }
  }

  lemma SomeRegion(requests: seq<ServiceRequest>)
    ensures requests != [] ==> requests[0].region in RegionsOf(requests)
  {
  }

  lemma NobodyClaims(x: Context, urgent: seq<ServiceRequest>)
    requires x.Valid() && NonNegativeCapacity(x.beams) && ClaimingRegions(x, urgent) == {}
    ensures var d := DecisionOf(x, urgent);
      d.admitted == [] && d.reservations == [] && forall region :: FairAmount(x, 0, ReservedFor(region, [], []))
  {
    RankedRegions(x, urgent);
    SomeRegion(Ranked(x, urgent));
    SumBounds(Map(CapacityOf, x.beams));
    assert WholeReserve(x) >= 0.0;
  }

  // ------------------------------------------------------------------ what a full lane has left

  // The reserved slice of the beam can still take the cost, and the rules let it.
  ghost predicate CanStillReserve(x: Context, r: ServiceRequest, cost: real, beam: Beam,
                                  reservations: seq<Allocation>) {
    var slice := Product(beam.capacity, x.cfg.reservedFraction);
    var decision := Evaluate(x.rules, r.region, beam.fleet, beam.band);
    && beam.region == r.region && slice > 0.0
    && decision.Allowed? && decision.maxAirtime.Allows(cost, EPS)
    && slice - UsedOn(reservations, beam.id) + EPS >= cost
  }

  // Why the lane is full for the request: it asks too much for one request, its region would exceed
  // its fair amount, or no beam can still take it.
  ghost predicate FullFor(x: Context, urgent: seq<ServiceRequest>, d: EmergencyDecision, r: ServiceRequest)
    requires x.Valid() && |d.admitted| == |d.reservations|
  {
    var cost := EstimateCost(x.pricing, r);
    || cost > x.cfg.maxUnitsPerRequest + EPS
    || !FairAmount(x, |ClaimingRegions(x, urgent)|, ReservedFor(r.region, d.admitted, d.reservations) + cost)
    || forall beam :: beam in x.beams ==> !CanStillReserve(x, r, cost, beam, d.reservations)
  }

  lemma NoRoomNoReserve(x: Context, r: ServiceRequest, remaining: seq<real>, reservations: seq<Allocation>, beam: Beam)
    requires x.Valid() && UniqueBeams(x.beams) && beam in x.beams
    requires NoRoom(x, r, remaining) && PoolConserved(x, remaining, reservations)
    ensures !CanStillReserve(x, r, EstimateCost(x.pricing, r), beam, reservations)
  {
    if CanStillReserve(x, r, EstimateCost(x.pricing, r), beam, reservations) {
      assert beam in x.Pool();
      var i :| 0 <= i < |x.Pool()| && x.Pool()[i] == beam;
      assert UsedOn(reservations, x.Pool()[i].id) == x.Reserve()[i] - remaining[i];
      assert HasRoom(x, r, EstimateCost(x.pricing, r), x.Pool()[i], remaining[i]);
    }
  }

  lemma FullWasClaiming(x: Context, urgent: seq<ServiceRequest>, s: RejectedRequest)
    requires x.Valid() && Priced(urgent) && s in DecisionOf(x, urgent).shed && s.reason == EmergencyLaneFull
    ensures s.request.region in ClaimingRegions(x, urgent)
  {
    var shed := DecisionOf(x, urgent).shed;
    FullIsTurnedAway(x, urgent, s);
    DecisionSplits(x, urgent);
    hide DecisionOf, TurnedAway;
    MapMember(RejectedOf, shed, s.request);
    assert s.request in multiset(Map(RejectedOf, shed));
    assert s.request in multiset(urgent);
    assert MayClaim(x, s.request);
  }

  lemma TurnedAwayIsFull(x: Context, urgent: seq<ServiceRequest>, run: Run, r: ServiceRequest, reserved: real)
    requires x.Valid() && UniqueBeams(x.beams) && NonNegativeCapacity(x.beams)
    requires r.region in ClaimingRegions(x, urgent) && TurnedAway(x, CapFor(x, urgent), run, r)
    requires PoolConserved(x, run.remaining, run.reservations) && UsedBy(run.regionUse, r.region) == reserved
    ensures var cost := EstimateCost(x.pricing, r);
      || cost > x.cfg.maxUnitsPerRequest + EPS
      || !FairAmount(x, |ClaimingRegions(x, urgent)|, reserved + cost)
      || forall beam :: beam in x.beams ==> !CanStillReserve(x, r, cost, beam, run.reservations)
  {
    var cost := EstimateCost(x.pricing, r);
    hide CapFor, NoRoom, CanStillReserve, PoolConserved, FairAmount, UniqueBeams, NonNegativeCapacity, EstimateCost;
    hide ClaimingRegions, MayClaim, Context.Pool, Context.Reserve;
    CapIsFairAmount(x, urgent, reserved + cost);
    if NoRoom(x, r, run.remaining) {
      forall beam | beam in x.beams ensures !CanStillReserve(x, r, cost, beam, run.reservations) {
        NoRoomNoReserve(x, r, run.remaining, run.reservations, beam);
      }
    }
  }

  lemma BookedFull(x: Context, urgent: seq<ServiceRequest>, run: Run, d: EmergencyDecision, r: ServiceRequest)
    requires x.Valid() && UniqueBeams(x.beams) && NonNegativeCapacity(x.beams)
    requires r.region in ClaimingRegions(x, urgent) && TurnedAway(x, CapFor(x, urgent), run, r)
    requires PoolConserved(x, run.remaining, run.reservations) && Books(x, run)
    requires d.admitted == run.admitted && d.reservations == run.reservations
    ensures |d.admitted| == |d.reservations| && FullFor(x, urgent, d, r)
  {
    hide TurnedAway, PoolConserved, FairAmount, CanStillReserve, ClaimingRegions, CapFor, EstimateCost;
    TurnedAwayIsFull(x, urgent, run, r, ReservedFor(r.region, run.admitted, run.reservations));
  }

  lemma DecisionBooks(x: Context, urgent: seq<ServiceRequest>) returns (run: Run)
    requires x.Valid() && UniqueBeams(x.beams)
    ensures run == RunOver(x, CapFor(x, urgent), Ranked(x, urgent))
    ensures PoolConserved(x, run.remaining, run.reservations) && Books(x, run)
    ensures DecisionOf(x, urgent).admitted == run.admitted && DecisionOf(x, urgent).reservations == run.reservations
  {
    run := RunOver(x, CapFor(x, urgent), Ranked(x, urgent));
    hide CapFor, Ranked, Books, PoolConserved, UniqueBeams, Context.Pool;
    BooksBalance(x, CapFor(x, urgent), Ranked(x, urgent));
    x.PoolIsUnique();
    PoolConservation(x, CapFor(x, urgent), Ranked(x, urgent));
  }

  // A request shed because the lane is full really has no room in it, when all is decided.
  lemma ShedMeansNoRoom(x: Context, urgent: seq<ServiceRequest>, s: RejectedRequest)
    requires x.Valid() && UniqueBeams(x.beams) && NonNegativeCapacity(x.beams) && Priced(urgent)
    requires s in DecisionOf(x, urgent).shed && s.reason == EmergencyLaneFull
    ensures var d := DecisionOf(x, urgent);
      |d.admitted| == |d.reservations| && FullFor(x, urgent, d, s.request)
  {
    var d := DecisionOf(x, urgent);
    hide *;
    FullWasClaiming(x, urgent, s);
    FullIsTurnedAway(x, urgent, s);
    var run := DecisionBooks(x, urgent);
    BookedFull(x, urgent, run, d, s.request);
  }

  // ------------------------------------------------------------------ who goes first

  // The part of the lane's retries (of one at least) the request has used, at most all of them.
  ghost predicate RetriesUsed(cfg: LaneConfig, r: ServiceRequest, q: real) {
    var limit := if cfg.maxRetries > 1 then cfg.maxRetries else 1;
    Product(q, limit as real) == (if r.retryCount < limit then r.retryCount else limit) as real
  }

  lemma ThreeTerms(cfg: LaneConfig, r: ServiceRequest, step: int)
    ensures var limit := if cfg.maxRetries > 1 then cfg.maxRetries else 1;
      EmergencyScore(cfg, r, step) == Product(cfg.severityWeight, Clamp01(r.urgency))
        + Product(cfg.waitingWeight, WaitingPressure(r, step))
        + Product(cfg.retryWeight, Clamp01(r.retryCount as real / limit as real))
  {
    hide WaitingPressure, Clamp01;
  }

  // Urgent requests rank by severity, waiting and retries, each times its weight.
  lemma RankIsComposite(cfg: LaneConfig, r: ServiceRequest, step: int) returns (p: real, q: real)
    requires r.retryCount >= 0
    ensures Waited(r, step, p) && RetriesUsed(cfg, r, q)
    ensures EmergencyScore(cfg, r, step)
      == Product(cfg.severityWeight, Clamp01(r.urgency)) + Product(cfg.waitingWeight, p) + Product(cfg.retryWeight, q)
  {
    var limit := if cfg.maxRetries > 1 then cfg.maxRetries else 1;
    p, q := WaitingPressure(r, step), Clamp01(r.retryCount as real / limit as real);
    PressureIsWaited(r, step);
    ClampedFraction(r.retryCount, limit);
    assert RetriesUsed(cfg, r, q);
    hide Waited, WaitingPressure, RetriesUsed;
    ThreeTerms(cfg, r, step);
  }

  // Nobody turned away for want of room had a better claim than somebody admitted.
  ghost predicate DecisionInOrder(x: Context, d: EmergencyDecision)
    requires x.Valid()
  {
    forall s, r :: s in d.shed && s.reason == EmergencyLaneFull && r in d.admitted ==> !Outranks(x, s.request, r)
  }

  lemma DecidedInOrder(x: Context, urgent: seq<ServiceRequest>)
    requires x.Valid() && Priced(urgent)
    ensures DecisionInOrder(x, DecisionOf(x, urgent))
  {
    var run := RunOver(x, CapFor(x, urgent), Ranked(x, urgent));
    BetterClaimsComeFirst(x, urgent);
    ViableSplit(x.cfg, urgent, x.step);
    hide RunOver, Outranks, Ranked, CapFor, Viable;
    var barred := BarredOnes(x.cfg, urgent, x.step);
    forall s, r | s in barred + Map(LaneFull, run.full) && s.reason == EmergencyLaneFull && r in run.admitted
      ensures !Outranks(x, s.request, r)
    {
      assert s !in barred;
      MapMember(LaneFull, run.full, s);
    }
  }
}
