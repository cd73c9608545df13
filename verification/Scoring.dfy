// The one place that prices airtime and scores a request.
module Scoring {
  import opened Domain
  import opened Reals

  datatype ScoringConfig = ScoringConfig(
    priorityWeight: real, urgencyWeight: real, waitingWeight: real, bytesPerUnit: real, minLinkQuality: real)
  {
    ghost predicate Valid() {
      bytesPerUnit > 0.0 && 0.0 < minLinkQuality <= 1.0
    }
  }

  function PriorityValue(c: TrafficClass): real {
    match c
    case ThirdPartyApi => 0.0
    case Photo => 1.0
    case MapsTiles => 2.0
    case FindMy => 3.0
    case Messaging => 4.0
    case Roadside => 5.0
    case EmergencySos => 6.0
  }

  // Airtime to clear a payload: a poorer link costs more.
  function EstimateCost(cfg: ScoringConfig, r: ServiceRequest): (cost: real)
    requires cfg.bytesPerUnit > 0.0 && cfg.minLinkQuality > 0.0
    ensures r.sizeBytes > 0 ==> cost > 0.0
  {
    var link := Max(cfg.minLinkQuality, r.linkQuality);
    var bytes := r.sizeBytes as real;
    PositiveQuotient(bytes, cfg.bytesPerUnit);
    PositiveQuotient(bytes / cfg.bytesPerUnit, link);
    bytes / cfg.bytesPerUnit / link
  }

  lemma PositiveQuotient(a: real, b: real)
    requires b > 0.0
    ensures a > 0.0 ==> a / b > 0.0
  {
  }

  // The cost is the airtime that clears exactly the payload at the link's rate.
  lemma CostClearsPayload(cfg: ScoringConfig, r: ServiceRequest)
    requires cfg.Valid()
    ensures Product(Product(EstimateCost(cfg, r), Max(cfg.minLinkQuality, r.linkQuality)), cfg.bytesPerUnit)
      == r.sizeBytes as real
  {
    QuotientTimes(r.sizeBytes as real / cfg.bytesPerUnit, Max(cfg.minLinkQuality, r.linkQuality));
    QuotientTimes(r.sizeBytes as real, cfg.bytesPerUnit);
  }

  // A better link never costs more, and one below the floor costs as much as at the floor.
  lemma BetterLinkCostsNoMore(cfg: ScoringConfig, r: ServiceRequest, better: real)
    requires cfg.Valid() && r.sizeBytes >= 0 && r.linkQuality <= better
    ensures EstimateCost(cfg, r.(linkQuality := better)) <= EstimateCost(cfg, r)
    ensures better <= cfg.minLinkQuality ==> EstimateCost(cfg, r.(linkQuality := better)) == EstimateCost(cfg, r)
  {
    var low, high := Max(cfg.minLinkQuality, r.linkQuality), Max(cfg.minLinkQuality, better);
    var units := r.sizeBytes as real / cfg.bytesPerUnit;
    var dear, cheap := units / low, units / high;
    QuotientTimes(units, low);
    QuotientTimes(units, high);
    if dear < cheap {
      ScaleUp(dear, cheap, low);
      assert cheap >= 0.0 by { NonNegativeQuotient(units, high); }
      ProductMonotone(cheap, low, high);
    }
  }

  lemma NonNegativeQuotient(a: real, b: real)
    requires b > 0.0
    ensures a >= 0.0 ==> a / b >= 0.0
  {
  }

  function WaitingPressure(r: ServiceRequest, step: int): real {
    var slack := r.deadlineStep - r.arrivalStep;
    var span := if slack > 1 then slack else 1;
    Clamp01(r.WaitingSteps(step) as real / span as real)
  }

  type FairnessWeights = map<TrafficClass, real>

  function WeightOf(weights: FairnessWeights, c: TrafficClass): real {
    if c in weights then weights[c] else 1.0
  }

  // The weighted composite of class, urgency and waiting.
  function Base(cfg: ScoringConfig, r: ServiceRequest, step: int): real {
    Product(cfg.priorityWeight, PriorityValue(r.trafficClass) / 6.0)
      + Product(cfg.urgencyWeight, Clamp01(r.urgency)) + Product(cfg.waitingWeight, WaitingPressure(r, step))
  }

  function Score(cfg: ScoringConfig, r: ServiceRequest, step: int, weights: FairnessWeights): (score: real)
    ensures 0.0 <= score <= 1.0
  {
    Clamp01(Product(Base(cfg, r, step), WeightOf(weights, r.trafficClass)))
  }

  ghost predicate NonNegativeWeights(cfg: ScoringConfig) {
    cfg.priorityWeight >= 0.0 && cfg.urgencyWeight >= 0.0 && cfg.waitingWeight >= 0.0
  }

  // Every component counts: the score does not fall with a higher class, more urgency or longer waiting.
  lemma ScoreRises(cfg: ScoringConfig, r: ServiceRequest, more: ServiceRequest, early: int, late: int,
                   weights: FairnessWeights)
    requires NonNegativeWeights(cfg)
    requires PriorityValue(r.trafficClass) <= PriorityValue(more.trafficClass) && r.urgency <= more.urgency
    requires WaitingPressure(r, early) <= WaitingPressure(more, late)
    requires 0.0 <= WeightOf(weights, r.trafficClass) <= WeightOf(weights, more.trafficClass)
    ensures Score(cfg, r, early, weights) <= Score(cfg, more, late, weights)
  {
    BaseRises(cfg, r, more, early, late);
    hide Base;
    var low, high := Base(cfg, r, early), Base(cfg, more, late);
    var light, heavy := WeightOf(weights, r.trafficClass), WeightOf(weights, more.trafficClass);
    assert Product(low, light) <= Product(high, heavy) by {
      ProductMonotone(low, light, heavy);
      ProductMonotone(heavy, low, high);
      assert Product(low, heavy) == Product(heavy, low) && Product(high, heavy) == Product(heavy, high);
    }
    hide Product, WeightOf;
  }

  lemma BaseRises(cfg: ScoringConfig, r: ServiceRequest, more: ServiceRequest, early: int, late: int)
    requires NonNegativeWeights(cfg)
    requires PriorityValue(r.trafficClass) <= PriorityValue(more.trafficClass) && r.urgency <= more.urgency
    requires WaitingPressure(r, early) <= WaitingPressure(more, late)
    ensures 0.0 <= Base(cfg, r, early) <= Base(cfg, more, late)
  {
    assert 0.0 <= PriorityValue(r.trafficClass);
    hide PriorityValue;
    assert 0.0 <= WaitingPressure(r, early);
    hide WaitingPressure;
    var p, q := PriorityValue(r.trafficClass) / 6.0, PriorityValue(more.trafficClass) / 6.0;
    ProductMonotone(cfg.priorityWeight, p, q);
    ProductMonotone(cfg.urgencyWeight, Clamp01(r.urgency), Clamp01(more.urgency));
    ProductMonotone(cfg.waitingWeight, WaitingPressure(r, early), WaitingPressure(more, late));
  }

  // Waiting presses harder every step until the deadline, where it is full.
  lemma WaitingRises(r: ServiceRequest, early: int, late: int)
    requires early <= late
    ensures 0.0 <= WaitingPressure(r, early) <= WaitingPressure(r, late) <= 1.0
    ensures late >= r.deadlineStep > r.arrivalStep ==> WaitingPressure(r, late) == 1.0
  {
    var slack := r.deadlineStep - r.arrivalStep;
    var span := (if slack > 1 then slack else 1) as real;
    QuotientRises(r.WaitingSteps(early) as real, r.WaitingSteps(late) as real, span);
    if late >= r.deadlineStep > r.arrivalStep {
      assert span == slack as real;
      QuotientRises(span, r.WaitingSteps(late) as real, span);
    }
  }

  lemma QuotientRises(a: real, b: real, d: real)
    requires a <= b && d > 0.0
    ensures a / d <= b / d
    ensures a == d ==> a / d == 1.0
  {
  }

  // With neutral fairness and weights of at most one in all, nothing is clamped away: the score is
  // the weighted sum itself.
  lemma NeutralScoreIsWeighted(cfg: ScoringConfig, r: ServiceRequest, step: int, weights: FairnessWeights)
    requires NonNegativeWeights(cfg) && cfg.priorityWeight + cfg.urgencyWeight + cfg.waitingWeight <= 1.0
    requires WeightOf(weights, r.trafficClass) == 1.0
    ensures Score(cfg, r, step, weights) == Base(cfg, r, step)
  {
    WaitingRises(r, step, step);
    var p, u, w := PriorityValue(r.trafficClass) / 6.0, Clamp01(r.urgency), WaitingPressure(r, step);
    ProductMonotone(cfg.priorityWeight, p, 1.0);
    ProductMonotone(cfg.urgencyWeight, u, 1.0);
    ProductMonotone(cfg.waitingWeight, w, 1.0);
    assert Product(cfg.priorityWeight, 1.0) == cfg.priorityWeight
      && Product(cfg.urgencyWeight, 1.0) == cfg.urgencyWeight;
    assert Product(cfg.waitingWeight, 1.0) == cfg.waitingWeight;
    assert Product(Base(cfg, r, step), 1.0) == Base(cfg, r, step);
  }

  // ------------------------------------------------------------------ the score term by term

  // The classes from the least to the most important.
  const RANKING := [ThirdPartyApi, Photo, MapsTiles, FindMy, Messaging, Roadside, EmergencySos]

  // The part of its slack (of one step at least) the request has waited, at most all of it.
  ghost predicate Waited(r: ServiceRequest, step: int, p: real) {
    var slack := if r.deadlineStep - r.arrivalStep > 1 then r.deadlineStep - r.arrivalStep else 1;
    var waited := if step > r.arrivalStep then step - r.arrivalStep else 0;
    Product(p, slack as real) == (if waited < slack then waited else slack) as real
  }

  lemma PressureIsWaited(r: ServiceRequest, step: int)
    ensures Waited(r, step, WaitingPressure(r, step))
  {
    var slack := if r.deadlineStep - r.arrivalStep > 1 then r.deadlineStep - r.arrivalStep else 1;
    ClampedFraction(r.WaitingSteps(step), slack);
  }

  lemma ClampedFraction(part: nat, whole: nat)
    requires whole > 0
    ensures Product(Clamp01(part as real / whole as real), whole as real)
      == (if part < whole then part else whole) as real
  {
    var n, d := part as real, whole as real;
    QuotientTimes(n, d);
    NonNegativeQuotient(n, d);
    assert Product(1.0, d) == d;
    if part < whole {
      QuotientRises(n, d, d);
      QuotientRises(d, d, d);
    } else {
      QuotientRises(d, n, d);
    }
  }

  // The weighted sum of rank, urgency and waiting, before the plan's weight and the clamp.
  ghost predicate Composite(cfg: ScoringConfig, r: ServiceRequest, step: int, rank: nat, p: real, raw: real) {
    && rank < |RANKING| && RANKING[rank] == r.trafficClass && Waited(r, step, p)
    && 6.0 * raw == Product(cfg.priorityWeight, rank as real) + 6.0 * Product(cfg.urgencyWeight, Clamp01(r.urgency))
      + 6.0 * Product(cfg.waitingWeight, p)
  }

  // A class scores by its rank, its urgency and its waiting, each times its weight, all of it times
  // the plan's weight for the class if the plan has one; and then cut to the unit interval.
  lemma ScoreIsComposite(cfg: ScoringConfig, r: ServiceRequest, step: int, weights: FairnessWeights)
    returns (rank: nat, p: real, raw: real)
    ensures Composite(cfg, r, step, rank, p, raw)
    ensures var weighted := if r.trafficClass in weights then Product(raw, weights[r.trafficClass]) else raw;
      Score(cfg, r, step, weights) == if weighted < 0.0 then 0.0 else if weighted > 1.0 then 1.0 else weighted
  {
    p, raw := WaitingPressure(r, step), Base(cfg, r, step);
    rank := PriorityValue(r.trafficClass).Floor;
    PressureIsWaited(r, step);
    assert PriorityValue(r.trafficClass) == rank as real;
    Sixth(cfg.priorityWeight, rank as real);
    assert Product(raw, 1.0) == raw;
    hide Product, Waited, WaitingPressure;
  }

  lemma Sixth(weight: real, rank: real)
    ensures 6.0 * Product(weight, rank / 6.0) == Product(weight, rank)
  {
  }
}
