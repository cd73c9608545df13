// Tier 3: the heuristic planner's curve and budgets, and the curve learned from realized outcomes.
module Optimizer {
  import opened Domain
  import opened Reals
  import opened Collections
  import opened Planning
  import opened Admission
  import opened Telemetry

  // ------------------------------------------------------------------ heuristic planner

  type ClassDemand = map<TrafficClass, real>

  function DemandOf(demand: ClassDemand, c: TrafficClass): real {
    if c in demand then demand[c] else 0.0
  }

  // Sum over all classes of a per-class table.
  function TotalDemand(demand: ClassDemand): real {
    DemandOf(demand, ThirdPartyApi) + DemandOf(demand, Photo) + DemandOf(demand, MapsTiles) + DemandOf(demand, FindMy)
    + DemandOf(demand, Messaging) + DemandOf(demand, Roadside) + DemandOf(demand, EmergencySos)
  }

  function CappedUtilization(clamp: real): CongestionState -> real {
    (c: CongestionState) =>
      match c.Utilization()
      case Infinite => clamp
      case Finite(u) => Min(clamp, u)
  }

  function DropRateOf(c: CongestionState): real {
    c.dropRate
  }

  function Mean(xs: seq<real>): real
    requires xs != []
  {
    Sum(xs) / |xs| as real
  }

  // Mean of the recent clamped utilizations, or demand over capacity when there is no history.
  function MeanUtilization(recent: seq<CongestionState>, demand: ClassDemand, capacity: real, clamp: real): real {
    if recent != [] then Mean(Map(CappedUtilization(clamp), recent))
    else if capacity > 0.0 then Min(clamp, TotalDemand(demand) / capacity)
    else 0.0
  }

  function MeanDropRate(recent: seq<CongestionState>): real {
    if recent == [] then 0.0 else Mean(Map(DropRateOf, recent))
  }

  // The score-zero floor tracks one over utilization and falls with the drop rate.
  function HeuristicCurve(utilization: real, dropRate: real): AdmissionCurve {
    var floor := if utilization <= 1.0 then 1.0 else 1.0 / utilization;
    AdmissionCurve([Point(0.0, Clamp01(floor * (1.0 - dropRate))), Point(1.0, 1.0)])
  }

  // The curve the heuristic planner broadcasts for a planning window.
  function HeuristicPlanCurve(recent: seq<CongestionState>, demand: ClassDemand, capacity: real,
                              clamp: real): AdmissionCurve {
    HeuristicCurve(MeanUtilization(recent, demand, capacity, clamp), MeanDropRate(recent))
  }

  function DemandShares(demand: ClassDemand): ClassDemand {
    var total := TotalDemand(demand);
    if total <= 0.0 then map[]
    else map c | c in demand && demand[c] > 0.0 :: demand[c] / total
  }

  function AirtimeBudgets(capacity: real, demand: ClassDemand): ClassDemand {
    var shares := DemandShares(demand);
    map c | c in shares :: Product(capacity, shares[c])
  }

  ghost predicate NonNegativeDemand(demand: ClassDemand) {
    forall c :: c in demand ==> demand[c] >= 0.0
  }

  lemma ShareOfClass(demand: ClassDemand, c: TrafficClass)
    requires NonNegativeDemand(demand) && TotalDemand(demand) > 0.0
    ensures DemandOf(DemandShares(demand), c) == DemandOf(demand, c) / TotalDemand(demand)
  {
  }

  lemma BudgetOfClass(capacity: real, demand: ClassDemand, c: TrafficClass)
    ensures DemandOf(AirtimeBudgets(capacity, demand), c) == Product(capacity, DemandOf(DemandShares(demand), c))
  {
  }

  // Seven shares of a total add up to one, and their products with x to x.
  lemma SevenShares(x: real, t: real, a: real, b: real, c: real, d: real, e: real, f: real, g: real)
    requires t > 0.0 && a + b + c + d + e + f + g == t
    ensures a / t + b / t + c / t + d / t + e / t + f / t + g / t == 1.0
    ensures Product(x, a / t) + Product(x, b / t) + Product(x, c / t) + Product(x, d / t) + Product(x, e / t)
      + Product(x, f / t) + Product(x, g / t) == x
  {
    var total := a / t + b / t + c / t + d / t + e / t + f / t + g / t;
    assert total == (a + b + c + d + e + f + g) / t;
    assert Product(x, total) == x;
  }

  // A class gets the part of the capacity that its demand is of all demand.
  ghost predicate InProportion(demand: ClassDemand, capacity: real, c: TrafficClass) {
    && Product(DemandOf(DemandShares(demand), c), TotalDemand(demand)) == DemandOf(demand, c)
    && Product(DemandOf(AirtimeBudgets(capacity, demand), c), TotalDemand(demand))
      == Product(capacity, DemandOf(demand, c))
  }

  lemma ProportionOfClass(demand: ClassDemand, capacity: real, c: TrafficClass)
    requires NonNegativeDemand(demand) && TotalDemand(demand) > 0.0
    ensures InProportion(demand, capacity, c)
  {
    var total, own := TotalDemand(demand), DemandOf(demand, c);
    ShareOfClass(demand, c);
    BudgetOfClass(capacity, demand, c);
    QuotientTimes(own, total);
    ShareTimesTotal(capacity, own / total, total);
    hide DemandShares, AirtimeBudgets, DemandOf, TotalDemand, Product;
  }

  lemma ShareTimesTotal(capacity: real, share: real, total: real)
    ensures Product(Product(capacity, share), total) == Product(capacity, Product(share, total))
  {
    assert (capacity * share) * total == capacity * (share * total);
  }

  // Demand shares add up to one, so the airtime budgets hand out exactly the capacity.
  lemma BudgetsSpendTheCapacity(capacity: real, demand: ClassDemand)
    requires NonNegativeDemand(demand) && TotalDemand(demand) > 0.0
    ensures TotalDemand(DemandShares(demand)) == 1.0
    ensures TotalDemand(AirtimeBudgets(capacity, demand)) == capacity
    ensures forall c :: InProportion(demand, capacity, c)
  {
    forall c: TrafficClass
      ensures DemandOf(DemandShares(demand), c) == DemandOf(demand, c) / TotalDemand(demand)
      ensures DemandOf(AirtimeBudgets(capacity, demand), c) == Product(capacity, DemandOf(DemandShares(demand), c))
    {
      ShareOfClass(demand, c);
      BudgetOfClass(capacity, demand, c);
    }
    forall c ensures InProportion(demand, capacity, c) {
      ProportionOfClass(demand, capacity, c);
    }
    hide InProportion;
    SevenShares(capacity, TotalDemand(demand), DemandOf(demand, ThirdPartyApi), DemandOf(demand, Photo),
                DemandOf(demand, MapsTiles), DemandOf(demand, FindMy), DemandOf(demand, Messaging),
                DemandOf(demand, Roadside), DemandOf(demand, EmergencySos));
  }

  // Whatever the signals, the heuristic curve is sorted, monotone, and certain at score one.
  lemma HeuristicCurveIsSafe(utilization: real, dropRate: real)
    ensures var pts := HeuristicCurve(utilization, dropRate).breakpoints;
      Monotone(pts) && |pts| >= 2 && pts[0].score < 1.0 && pts[|pts| - 1] == Point(1.0, 1.0)
  {
  }

  lemma HeuristicFloor(utilization: real, dropRate: real)
    requires 0.0 <= dropRate <= 1.0
    ensures HeuristicCurve(utilization, dropRate).breakpoints[0].probability == 1.0
      <==> utilization <= 1.0 && dropRate == 0.0
  {
    if utilization > 1.0 {
      var floor := 1.0 / utilization;
      FractionRange(1.0, utilization);
      assert floor < 1.0 by { QuotientOrder(1.0, utilization, utilization); }
      ProductMonotone(floor, 1.0 - dropRate, 1.0);
      assert Product(floor, 1.0) == floor;
    }
  }

  ghost predicate DropRatesInRange(recent: seq<CongestionState>) {
    forall i :: 0 <= i < |recent| ==> 0.0 <= recent[i].dropRate <= 1.0
  }

  // The load over the capacity, at most the clamp; without capacity any load reaches the clamp.
  ghost predicate ClampedRatio(load: real, capacity: real, clamp: real, u: real) {
    if capacity <= 0.0 then u == if load > 0.0 then clamp else Min(clamp, 0.0)
    else if load > Product(clamp, capacity) then u == clamp
    else Product(u, capacity) == load
  }

  lemma RatioIsClamped(load: real, capacity: real, clamp: real)
    requires capacity > 0.0
    ensures ClampedRatio(load, capacity, clamp, Min(clamp, load / capacity))
  {
    QuotientTimes(load, capacity);
    if clamp < load / capacity {
      ScaleUp(clamp, load / capacity, capacity);
    } else {
      ProductMonotone(capacity, load / capacity, clamp);
      assert Product(capacity, load / capacity) == Product(load / capacity, capacity);
      assert Product(capacity, clamp) == Product(clamp, capacity);
    }
  }

  lemma StepIsClamped(c: CongestionState, clamp: real)
    ensures ClampedRatio(c.offeredLoad, c.availableCapacity, clamp, CappedUtilization(clamp)(c))
  {
    if c.availableCapacity > 0.0 {
      RatioIsClamped(c.offeredLoad, c.availableCapacity, clamp);
    }
  }

  // The mean of the recent steps' clamped ratios, or the ratio of demand to capacity without history.
  ghost predicate MeanOfRatios(recent: seq<CongestionState>, demand: ClassDemand, capacity: real, clamp: real,
                               u: real) {
    if recent == [] then (if capacity <= 0.0 then u == 0.0 else ClampedRatio(TotalDemand(demand), capacity, clamp, u))
    else exists ratios: seq<real> :: AllRatios(recent, clamp, ratios) && Product(u, |recent| as real) == Sum(ratios)
  }

  ghost predicate AllRatios(recent: seq<CongestionState>, clamp: real, ratios: seq<real>) {
    && |ratios| == |recent|
    && forall i :: 0 <= i < |recent| ==>
      ClampedRatio(recent[i].offeredLoad, recent[i].availableCapacity, clamp, ratios[i])
  }

  lemma MeanIsOfRatios(recent: seq<CongestionState>, demand: ClassDemand, capacity: real, clamp: real)
    ensures MeanOfRatios(recent, demand, capacity, clamp, MeanUtilization(recent, demand, capacity, clamp))
  {
    if recent != [] {
      var ratios := Map(CappedUtilization(clamp), recent);
      hide ClampedRatio;
      forall i | 0 <= i < |recent|
        ensures ClampedRatio(recent[i].offeredLoad, recent[i].availableCapacity, clamp, ratios[i])
      {
        StepIsClamped(recent[i], clamp);
      }
      assert AllRatios(recent, clamp, ratios);
      QuotientTimes(Sum(ratios), |recent| as real);
    } else if capacity > 0.0 {
      RatioIsClamped(TotalDemand(demand), capacity, clamp);
    }
  }

  // The planned curve is a line from the floor to certainty: the floor is the fraction of load that
  // was not dropped, divided by the mean utilization where that exceeds one.
  ghost predicate ProportionalFloor(curve: AdmissionCurve, u: real, d: real) {
    var floor := curve.AdmitProbability(0.0);
    && curve.AdmitProbability(1.0) == 1.0 && 0.0 <= floor <= 1.0
    && (if u <= 1.0 then floor == 1.0 - d else Product(floor, u) == 1.0 - d)
  }

  lemma HeuristicCurveExact(recent: seq<CongestionState>, demand: ClassDemand, capacity: real, clamp: real)
    returns (u: real, d: real)
    requires DropRatesInRange(recent)
    ensures MeanOfRatios(recent, demand, capacity, clamp, u)
    ensures Product(d, |recent| as real) == Sum(Map((c: CongestionState) => c.dropRate, recent))
    ensures recent == [] ==> d == 0.0
    ensures ProportionalFloor(HeuristicPlanCurve(recent, demand, capacity, clamp), u, d)
  {
    u, d := MeanUtilization(recent, demand, capacity, clamp), MeanDropRate(recent);
    MeanIsOfRatios(recent, demand, capacity, clamp);
    var rates := Map(DropRateOf, recent);
    assert Map((c: CongestionState) => c.dropRate, recent) == rates;
    if recent != [] {
      QuotientTimes(Sum(rates), |recent| as real);
      MeanRange(rates);
    }
    hide MeanUtilization, MeanOfRatios, MeanDropRate;
    FloorIsProportional(u, d);
  }

  lemma FloorIsProportional(u: real, d: real)
    requires 0.0 <= d <= 1.0
    ensures ProportionalFloor(HeuristicCurve(u, d), u, d)
  {
    if u > 1.0 {
      var floor := 1.0 / u;
      FractionRange(1.0, u);
      ProductMonotone(floor, 1.0 - d, 1.0);
      assert Product(floor, 1.0) == floor;
      assert floor * u == 1.0;
      assert (floor * (1.0 - d)) * u == (floor * u) * (1.0 - d);
    }
  }

  // The planner's comment in exact form: under its curve a request is safe from shedding exactly
  // when its score is one, or nothing is oversubscribed, dropped or queued.
  lemma HeuristicNeverSheds(utilization: real, dropRate: real, overage: real, s: ScoredRequest)
    requires 0.0 <= dropRate <= 1.0 && 0.0 <= overage <= 1.0 && 0.0 <= s.score <= 1.0
    ensures NeverShed(HeuristicCurve(utilization, dropRate), overage, s)
      <==> s.score == 1.0 || (utilization <= 1.0 && dropRate == 0.0 && overage == 0.0)
  {
    var curve := HeuristicCurve(utilization, dropRate);
    var floor := curve.breakpoints[0].probability;
    HeuristicCurveIsSafe(utilization, dropRate);
    HeuristicFloor(utilization, dropRate);
    NeverShedExactly(curve, overage, s);
    assert curve.AdmitProbability(s.score) == 1.0 <==> floor == 1.0 || s.score == 1.0 by {
      if 0.0 < s.score < 1.0 {
        assert curve.AdmitProbability(s.score) == OnSegment(curve.breakpoints[0], curve.breakpoints[1], s.score);
        assert curve.AdmitProbability(s.score) == 1.0 - Product(1.0 - s.score, 1.0 - floor) by {
          ProductAdds(s.score, 1.0 - s.score, 1.0 - floor);
          assert Product(1.0, 1.0 - floor) == 1.0 - floor;
        }
      }
    }
  }

  lemma {:induction false} ZeroSum(xs: seq<real>)
    requires forall i :: 0 <= i < |xs| ==> 0.0 <= xs[i]
    ensures Sum(xs) == 0.0 <==> forall i :: 0 <= i < |xs| ==> xs[i] == 0.0
  {
    SumBounds(xs);
    if xs != [] {
      ZeroSum(xs[..|xs| - 1]);
      SumBounds(xs[..|xs| - 1]);
    }
  }

  ghost predicate NothingDropped(recent: seq<CongestionState>) {
    forall i :: 0 <= i < |recent| ==> recent[i].dropRate == 0.0
  }

  // The same for a whole planning window: the planner keeps every score only if no recent step dropped.
  lemma HeuristicPlanNeverSheds(recent: seq<CongestionState>, demand: ClassDemand, capacity: real, clamp: real,
                                overage: real, s: ScoredRequest)
    requires DropRatesInRange(recent) && 0.0 <= overage <= 1.0 && 0.0 <= s.score <= 1.0
    ensures NeverShed(HeuristicPlanCurve(recent, demand, capacity, clamp), overage, s)
      <==> s.score == 1.0 || (MeanUtilization(recent, demand, capacity, clamp) <= 1.0 && NothingDropped(recent)
                              && overage == 0.0)
  {
    var rates := Map(DropRateOf, recent);
    ZeroSum(rates);
    if recent != [] {
      MeanRange(rates);
      assert MeanDropRate(recent) == 0.0 <==> Sum(rates) == 0.0;
      assert Sum(rates) == 0.0 <==> NothingDropped(recent);
    }
    HeuristicNeverSheds(MeanUtilization(recent, demand, capacity, clamp), MeanDropRate(recent), overage, s);
  }

  // ------------------------------------------------------------------ adaptive planner

  datatype Settings = Settings(
    buckets: nat, validForSteps: nat, learningRate: real, smoothing: real, floorMin: real, collapsePenalty: real)
  {
    ghost predicate Valid() {
      && buckets >= 1 && validForSteps >= 1
      && 0.0 < learningRate <= 1.0 && 0.0 < smoothing <= 1.0
      && 0.0 <= floorMin <= 1.0 && collapsePenalty >= 0.0
    }

    // Midpoint score of a bucket, and its learning gain: the lower the score, the larger the gain.
    function Mid(i: nat): real
      requires i < buckets
    {
      (i as real + 0.5) / buckets as real
    }

    function Grade(i: nat): real
      requires i < buckets
    {
      1.0 - Mid(i)
    }
  }

  // One bucket moved by a signal, clamped between the floor and one.
  function Nudged(s: Settings, p: real, i: nat, signal: real): real
    requires i < s.buckets
  {
    Clamp(p + Product(Product(s.learningRate, s.Grade(i)), signal), s.floorMin, 1.0)
  }

  function NudgedAll(s: Settings, p: seq<real>, signal: real): seq<real>
    requires |p| == s.buckets
  {
    seq(|p|, i requires 0 <= i < |p| => Nudged(s, p[i], i, signal))
  }

  // Each entry raised to the largest one before it.
  function RunningMax(p: seq<real>): (r: seq<real>)
    ensures |r| == |p|
    ensures forall i :: 0 <= i < |p| ==> r[i] >= p[i]
    ensures forall i, j :: 0 <= i < j < |p| ==> r[i] <= r[j]
  {
    if |p| <= 1 then p
    else
      var n := |p| - 1;
      var front := RunningMax(p[..n]);
      front + [Max(p[n], front[n - 1])]
  }

  lemma {:induction false} RunningMaxBound(p: seq<real>, high: real)
    requires forall i :: 0 <= i < |p| ==> p[i] <= high
    ensures forall i :: 0 <= i < |p| ==> RunningMax(p)[i] <= high
  {
    if |p| > 1 {
      RunningMaxBound(p[..|p| - 1], high);
    }
  }

  // The bucket update of one planning window.
  function LearnedBuckets(s: Settings, p: seq<real>, signal: real): seq<real>
    requires |p| == s.buckets
  {
    RunningMax(NudgedAll(s, p, signal))
  }

  function Smooth(s: Settings, previous: Option<real>, value: real): real {
    if previous.None? then value
    else Product(1.0 - s.smoothing, previous.value) + Product(s.smoothing, value)
  }

  datatype Signals = Signals(utilization: real, collapse: real, shed: real)
  {
    ghost predicate InRange() {
      0.0 <= utilization <= 1.0 && 0.0 <= collapse <= 1.0 && 0.0 <= shed <= 1.0
    }

    // Loosen when load was shed while capacity sat idle, tighten on collapse.
    function Net(s: Settings): real {
      Product(Max(0.0, 1.0 - utilization), shed) - Product(s.collapsePenalty, collapse)
    }
  }

  function UtilizationOfStep(c: StepCounters): real {
    c.utilization
  }

  function CollapseOfStep(c: StepCounters): real {
    c.collapseRisk
  }

  function HandledIn(recent: seq<StepCounters>): nat {
    if recent == [] then 0 else HandledIn(recent[..|recent| - 1]) + recent[|recent| - 1].Handled()
  }

  function ShedIn(recent: seq<StepCounters>): nat {
    if recent == [] then 0 else ShedIn(recent[..|recent| - 1]) + recent[|recent| - 1].ShedByAdmission()
  }

  // The steps the previously broadcast curve governed.
  function Governed(s: Settings, counters: seq<StepCounters>): seq<StepCounters> {
    if s.validForSteps == 0 || |counters| <= s.validForSteps then counters else counters[|counters| - s.validForSteps..]
  }

  function Realized(recent: seq<StepCounters>): Signals
    requires recent != []
  {
    Signals(Mean(Map(UtilizationOfStep, recent)), Mean(Map(CollapseOfStep, recent)),
            if HandledIn(recent) > 0 then ShedIn(recent) as real / HandledIn(recent) as real else 0.0)
  }

  function SmoothAll(s: Settings, previous: Option<Signals>, now: Signals): Signals {
    match previous
    case None => now
    case Some(past) =>
      Signals(Smooth(s, Some(past.utilization), now.utilization), Smooth(s, Some(past.collapse), now.collapse),
              Smooth(s, Some(past.shed), now.shed))
  }

  ghost predicate GoodBuckets(s: Settings, p: seq<real>) {
    && |p| == s.buckets
    && (forall i :: 0 <= i < |p| ==> s.floorMin <= p[i] <= 1.0)
    && (forall i, j :: 0 <= i < j < |p| ==> p[i] <= p[j])
  }

  ghost predicate AllInRange(counters: seq<StepCounters>) {
    forall c :: c in counters ==> c.InRange()
  }

  class AdaptiveOptimizer {
    const settings: Settings
    const p: array<real>
    // The smoothed feedback; `None` until the first window that carries counters.
    var utilization: Option<real>
    var collapse: Option<real>
    var shed: Option<real>

    ghost predicate Valid()
      reads this, p
    {
      && settings.Valid()
      && GoodBuckets(settings, p[..])
      && utilization.Some? == collapse.Some? == shed.Some?
      && (utilization.Some? ==> Smoothed().value.InRange())
    }

    function Smoothed(): Option<Signals>
      reads this
    {
      if utilization.Some? && collapse.Some? && shed.Some?
      then Some(Signals(utilization.value, collapse.value, shed.value)) else None
    }

    constructor (settings: Settings)
      requires settings.Valid()
      ensures Valid() && fresh(p) && this.settings == settings
      ensures Smoothed().None? && forall i :: 0 <= i < p.Length ==> p[i] == 1.0
    {
      this.settings := settings;
      p := new real[settings.buckets](_ => 1.0);
      utilization, collapse, shed := None, None, None;
    }

    // One planning window: smooth the realized signals, move the buckets, keep the curve monotone.
    method Learn(counters: seq<StepCounters>)
      requires Valid() && AllInRange(counters)
      modifies this, p
      ensures Valid()
      ensures var recent := Governed(settings, counters);
        if recent == [] then p[..] == old(p[..]) && Smoothed() == old(Smoothed())
        else
          && Smoothed() == Some(SmoothAll(settings, old(Smoothed()), Realized(recent)))
          && p[..] == LearnedBuckets(settings, old(p[..]), Smoothed().value.Net(settings))
    {
      var recent := Governed(settings, counters);
      if recent == [] {
        return;
      }
      UpdateSignals(recent);
      var idle := Max(0.0, 1.0 - utilization.value);
      var signal := Product(idle, shed.value) - Product(settings.collapsePenalty, collapse.value);
      assert signal == Smoothed().value.Net(settings);
      BucketsStayGood(settings, p[..], signal);
      hide LearnedBuckets, Signals.Net, SmoothAll, Realized;
      MoveBuckets(signal);
    }

    // Smooths the realized outcome of the governed steps into the feedback signals.
    method UpdateSignals(recent: seq<StepCounters>)
      requires Valid() && recent != [] && AllInRange(recent)
      modifies this
      ensures Valid()
      ensures Smoothed() == Some(SmoothAll(settings, old(Smoothed()), Realized(recent)))
    {
      RealizedInRange(recent);
      SmoothAllInRange(settings, Smoothed(), Realized(recent));
      var handled, shedCount := Feedback(recent);
      var shedFraction := if handled > 0 then shedCount as real / handled as real else 0.0;
      utilization := Some(Smooth(settings, utilization, Mean(Map(UtilizationOfStep, recent))));
      collapse := Some(Smooth(settings, collapse, Mean(Map(CollapseOfStep, recent))));
      shed := Some(Smooth(settings, shed, shedFraction));
    }

    method MoveBuckets(signal: real)
      requires p.Length == settings.buckets && settings.buckets >= 1
      modifies p
      ensures p[..] == LearnedBuckets(settings, old(p[..]), signal)
    {
      ghost var before := p[..];
      for i := 0 to p.Length
        invariant forall j :: 0 <= j < i ==> p[j] == Nudged(settings, before[j], j, signal)
        invariant forall j :: i <= j < p.Length ==> p[j] == before[j]
      {
        p[i] := Clamp(p[i] + Product(Product(settings.learningRate, settings.Grade(i)), signal), settings.floorMin,
          1.0);
      }
      assert p[..] == NudgedAll(settings, before, signal);
      RaiseBuckets();
    }

    // Keeps the curve non-decreasing in score.
    method RaiseBuckets()
      requires p.Length >= 1
      modifies p
      ensures p[..] == RunningMax(old(p[..]))
    {
      ghost var before := p[..];
      ghost var raised := RunningMax(before);
      if p.Length > 1 {
        RunningMaxStep(before, 1);
      }
      for i := 1 to p.Length
        invariant forall j :: 0 <= j < i ==> p[j] == raised[j]
        invariant forall j :: i <= j < p.Length ==> p[j] == before[j]
      {
        RunningMaxStep(before, i);
        p[i] := Max(p[i], p[i - 1]);
      }
    }

    method Feedback(recent: seq<StepCounters>) returns (handled: nat, shedCount: nat)
      ensures handled == HandledIn(recent) && shedCount == ShedIn(recent)
    {
      handled, shedCount := 0, 0;
      for i := 0 to |recent|
        invariant handled == HandledIn(recent[..i]) && shedCount == ShedIn(recent[..i])
      {
        assert recent[..i + 1][..i] == recent[..i];
        handled := handled + recent[i].Handled();
        shedCount := shedCount + recent[i].ShedByAdmission();
      }
      assert recent[..|recent|] == recent;
    }

    // The curve as broadcast: the learned buckets between a floor at score zero and certainty at one.
    method Curve() returns (curve: AdmissionCurve)
      requires Valid()
      ensures curve == LearnedCurve(settings, p[..])
    {
      var points := [Point(0.0, p[0])];
      for i := 0 to p.Length
        invariant points == [Point(0.0, p[0])] + BucketPoints(settings, p[..])[..i]
      {
        points := points + [Point(settings.Mid(i), p[i])];
      }
      curve := AdmissionCurve(points + [Point(1.0, 1.0)]);
    }
  }

  function BucketPoints(s: Settings, p: seq<real>): seq<Point>
    requires |p| == s.buckets
  {
    seq(|p|, i requires 0 <= i < |p| => Point(s.Mid(i), p[i]))
  }

  function LearnedCurve(s: Settings, p: seq<real>): AdmissionCurve
    requires |p| == s.buckets && s.buckets >= 1
  {
    AdmissionCurve([Point(0.0, p[0])] + BucketPoints(s, p) + [Point(1.0, 1.0)])
  }

  lemma {:induction false} RunningMaxStep(p: seq<real>, i: nat)
    requires 1 <= i < |p|
    ensures RunningMax(p)[i] == Max(p[i], RunningMax(p)[i - 1])
    ensures RunningMax(p)[0] == p[0]
    decreases |p|
  {
    var n := |p| - 1;
    if i < n {
      RunningMaxStep(p[..n], i);
    } else if n > 1 {
      RunningMaxStep(p[..n], n - 1);
    }
  }

  // ------------------------------------------------------------------ what learning keeps

  lemma GradeOrder(s: Settings, i: nat, j: nat)
    requires i < j < s.buckets
    ensures 0.0 < s.Mid(i) < s.Mid(j) < 1.0
  {
    var n := s.buckets as real;
    QuotientOrder(i as real + 0.5, j as real + 0.5, n);
    QuotientOrder(j as real + 0.5, n, n);
    assert n / n == 1.0;
    assert (i as real + 0.5) / n > 0.0;
  }

  lemma QuotientOrder(a: real, b: real, n: real)
    requires a < b && n > 0.0
    ensures a / n < b / n
  {
  }

  lemma MidRange(s: Settings, i: nat)
    requires i < s.buckets
    ensures 0.0 < s.Mid(i) < 1.0
  {
    var n := s.buckets as real;
    QuotientOrder(i as real + 0.5, n, n);
    assert n / n == 1.0;
    assert (i as real + 0.5) / n > 0.0;
  }

  lemma GainRange(s: Settings, i: nat)
    requires s.Valid() && i < s.buckets
    ensures Product(s.learningRate, s.Grade(i)) > 0.0
  {
    MidRange(s, i);
  }

  // Every update, whatever the signal, leaves the buckets in range and non-decreasing.
  lemma BucketsStayGood(s: Settings, p: seq<real>, signal: real)
    requires s.Valid() && |p| == s.buckets
    ensures GoodBuckets(s, LearnedBuckets(s, p, signal))
  {
    var nudged := NudgedAll(s, p, signal);
    forall i | 0 <= i < |p| ensures s.floorMin <= nudged[i] <= 1.0 {
      assert nudged[i] == Nudged(s, p[i], i, signal);
    }
    RunningMaxBound(nudged, 1.0);
  }

  // A non-positive signal raises no bucket, and the running maximum then changes nothing.
  lemma TighteningLowersAll(s: Settings, p: seq<real>, signal: real)
    requires s.Valid() && GoodBuckets(s, p) && signal <= 0.0
    ensures LearnedBuckets(s, p, signal) == NudgedAll(s, p, signal)
    ensures forall i :: 0 <= i < |p| ==> LearnedBuckets(s, p, signal)[i] <= p[i]
  {
    var nudged := NudgedAll(s, p, signal);
    forall i, j | 0 <= i < j < |p| ensures nudged[i] <= nudged[j] {
      assert p[i] <= p[j];
      TighteningKeepsOrder(s, p[i], p[j], i, j, signal);
    }
    SortedIsItsRunningMax(nudged);
    forall i | 0 <= i < |p| ensures nudged[i] <= p[i] {
      GainRange(s, i);
      assert s.floorMin <= p[i] <= 1.0;
    }
  }

  // Lower buckets move down more, so tightening keeps the order.
  lemma TighteningKeepsOrder(s: Settings, low: real, high: real, i: nat, j: nat, signal: real)
    requires s.Valid() && i < j < s.buckets && low <= high && signal <= 0.0
    ensures Nudged(s, low, i, signal) <= Nudged(s, high, j, signal)
  {
    GradeOrder(s, i, j);
    var gi, gj := Product(s.learningRate, s.Grade(i)), Product(s.learningRate, s.Grade(j));
    ProductMonotone(s.learningRate, s.Grade(j), s.Grade(i));
    ProductMonotone(-signal, gj, gi);
    NegatedProduct(gi, signal);
    NegatedProduct(gj, signal);
  }

  lemma NegatedProduct(a: real, b: real)
    ensures Product(a, b) == -Product(-b, a)
  {
  }

  lemma {:induction false} SortedIsItsRunningMax(p: seq<real>)
    requires forall i, j :: 0 <= i < j < |p| ==> p[i] <= p[j]
    ensures RunningMax(p) == p
  {
    if |p| > 1 {
      SortedIsItsRunningMax(p[..|p| - 1]);
    }
  }

  // A non-negative signal lowers no bucket.
  lemma LooseningRaisesAll(s: Settings, p: seq<real>, signal: real)
    requires s.Valid() && GoodBuckets(s, p) && signal >= 0.0
    ensures forall i :: 0 <= i < |p| ==> p[i] <= LearnedBuckets(s, p, signal)[i]
  {
    forall i | 0 <= i < |p| ensures p[i] <= NudgedAll(s, p, signal)[i] {
      GainRange(s, i);
      assert Product(Product(s.learningRate, s.Grade(i)), signal) >= 0.0;
    }
  }

  lemma MeanRange(xs: seq<real>)
    requires xs != [] && forall i :: 0 <= i < |xs| ==> 0.0 <= xs[i] <= 1.0
    ensures 0.0 <= Mean(xs) <= 1.0
  {
    SumRange(xs);
    FractionRange(Sum(xs), |xs| as real);
  }

  lemma {:induction false} SumRange(xs: seq<real>)
    requires forall i :: 0 <= i < |xs| ==> 0.0 <= xs[i] <= 1.0
    ensures 0.0 <= Sum(xs) <= |xs| as real
  {
    if xs != [] {
      SumRange(xs[..|xs| - 1]);
    }
  }

  lemma {:induction false} ShedBelowHandled(recent: seq<StepCounters>)
    requires AllInRange(recent)
    ensures ShedIn(recent) <= HandledIn(recent)
  {
    if recent != [] {
      ShedBelowHandled(recent[..|recent| - 1]);
      assert recent[|recent| - 1].InRange();
    }
  }

  lemma RealizedInRange(recent: seq<StepCounters>)
    requires recent != [] && AllInRange(recent)
    ensures Realized(recent).InRange()
  {
    assert forall i :: 0 <= i < |recent| ==> recent[i] in recent;
    MeanRange(Map(UtilizationOfStep, recent));
    MeanRange(Map(CollapseOfStep, recent));
    ShedBelowHandled(recent);
    if HandledIn(recent) > 0 {
      FractionRange(ShedIn(recent) as real, HandledIn(recent) as real);
    }
  }

  lemma SmoothRange(s: Settings, previous: real, value: real)
    requires s.Valid() && 0.0 <= previous <= 1.0 && 0.0 <= value <= 1.0
    ensures 0.0 <= Smooth(s, Some(previous), value) <= 1.0
  {
    ProductMonotone(1.0 - s.smoothing, previous, 1.0);
    ProductMonotone(s.smoothing, value, 1.0);
    assert Product(1.0 - s.smoothing, 1.0) == 1.0 - s.smoothing && Product(s.smoothing, 1.0) == s.smoothing;
  }

  // Smoothed signals stay fractions.
  lemma SmoothAllInRange(s: Settings, previous: Option<Signals>, now: Signals)
    requires s.Valid() && now.InRange() && (previous.Some? ==> previous.value.InRange())
    ensures SmoothAll(s, previous, now).InRange()
  {
    if previous.Some? {
      SmoothRange(s, previous.value.utilization, now.utilization);
      SmoothRange(s, previous.value.collapse, now.collapse);
      SmoothRange(s, previous.value.shed, now.shed);
    }
  }

  // The buckets after any sequence of windows' signals, from the permissive start.
  function BucketsAfter(s: Settings, signals: seq<real>): (p: seq<real>)
    ensures |p| == s.buckets
  {
    if signals == [] then seq(s.buckets, _ => 1.0)
    else LearnedBuckets(s, BucketsAfter(s, signals[..|signals| - 1]), signals[|signals| - 1])
  }

  // Over every history the learned curve is sorted, monotone, above the floor, and certain at score one.
  lemma {:induction false} LearnedCurveIsSafe(s: Settings, signals: seq<real>)
    requires s.Valid()
    ensures GoodBuckets(s, BucketsAfter(s, signals))
    ensures var pts := LearnedCurve(s, BucketsAfter(s, signals)).breakpoints;
      Monotone(pts) && |pts| >= 2 && pts[0].score < 1.0 && pts[|pts| - 1] == Point(1.0, 1.0)
  {
    if signals != [] {
      BucketsStayGood(s, BucketsAfter(s, signals[..|signals| - 1]), signals[|signals| - 1]);
    }
    CurveOfGoodBuckets(s, BucketsAfter(s, signals));
  }

  lemma CurveOfGoodBuckets(s: Settings, p: seq<real>)
    requires s.Valid() && GoodBuckets(s, p)
    ensures Monotone(LearnedCurve(s, p).breakpoints)
  {
    var pts := LearnedCurve(s, p).breakpoints;
    forall i | 0 <= i < |p| ensures 0.0 < s.Mid(i) < 1.0 {
      MidRange(s, i);
    }
    forall i, j | 0 <= i < j < |pts| ensures pts[i].score <= pts[j].score && pts[i].probability <= pts[j].probability {
      if 0 < i && j < |pts| - 1 {
        GradeOrder(s, i - 1, j - 1);
      }
    }
  }

  // Whatever was observed or learned, and however congested the step, a score of one is never shed
  // and a higher score is admitted whenever a lower one is, under either planner's curve.
  lemma PlannersProtectTheTop(s: Settings, signals: seq<real>, utilization: real, dropRate: real, overage: real,
                              top: ScoredRequest, lower: ScoredRequest, higher: ScoredRequest, coin: real)
    requires s.Valid() && 0.0 <= overage <= 1.0 && 0.0 <= coin < 1.0
    requires top.score == 1.0 && 0.0 <= lower.score <= higher.score <= 1.0
    ensures var heuristic, learned := HeuristicCurve(utilization, dropRate), LearnedCurve(s, BucketsAfter(s, signals));
      && Admits(heuristic, overage, top, coin) && Admits(learned, overage, top, coin)
      && (Admits(heuristic, overage, lower, coin) ==> Admits(heuristic, overage, higher, coin))
      && (Admits(learned, overage, lower, coin) ==> Admits(learned, overage, higher, coin))
  {
    var heuristic, learned := HeuristicCurve(utilization, dropRate), LearnedCurve(s, BucketsAfter(s, signals));
    HeuristicCurveIsSafe(utilization, dropRate);
    LearnedCurveIsSafe(s, signals);
    hide HeuristicCurve, LearnedCurve, BucketsAfter, Admits;
    forall curve | curve in [heuristic, learned]
      ensures Admits(curve, overage, top, coin)
        && (Admits(curve, overage, lower, coin) ==> Admits(curve, overage, higher, coin))
    {
      TopScoreNeverShed(curve, overage, top, coin);
      SameCoinFavoursHigherScore(curve, overage, overage, lower, higher, coin);
    }
    assert heuristic in [heuristic, learned] && learned in [heuristic, learned];
  }
}
