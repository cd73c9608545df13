// The plan Tier 3 broadcasts, the admission curve it carries, and the congestion signals.
module Planning {
  import opened Domain
  import opened Reals
  import opened Scoring

  datatype Point = Point(score: real, probability: real)

  // Score to admit probability, by linear interpolation between breakpoints.
  datatype AdmissionCurve = AdmissionCurve(breakpoints: seq<Point>)
  {
    function AdmitProbability(score: real): real {
      var n := |breakpoints|;
      if n == 0 then 1.0
      else if score <= breakpoints[0].score then breakpoints[0].probability
      else if score >= breakpoints[n - 1].score then breakpoints[n - 1].probability
      else Interpolated(breakpoints, score, 0)
    }
  }

  datatype ResourcePlan = ResourcePlan(curve: AdmissionCurve, fairnessWeights: FairnessWeights)

  const PASSTHROUGH := ResourcePlan(AdmissionCurve([Point(0.0, 1.0), Point(1.0, 1.0)]), map[])

  predicate InSegment(a: Point, b: Point, score: real) {
    a.score <= score <= b.score
  }

  function OnSegment(a: Point, b: Point, score: real): real {
    if a.score == b.score then b.probability
    else a.probability + Product((score - a.score) / (b.score - a.score), b.probability - a.probability)
  }

  // The value on the first segment, from index i on, that contains the score.
  function Interpolated(pts: seq<Point>, score: real, i: nat): real
    requires i < |pts|
    decreases |pts| - i
  {
    if i == |pts| - 1 then pts[i].probability
    else if InSegment(pts[i], pts[i + 1], score) then OnSegment(pts[i], pts[i + 1], score)
    else Interpolated(pts, score, i + 1)
  }

  // ------------------------------------------------------------------ congestion

  // Offered load over capacity; the source's infinity when there is load but no capacity.
  datatype Ratio = Infinite | Finite(value: real)

  datatype CongestionState = CongestionState(queueDepth: int, offeredLoad: real, availableCapacity: real,
    dropRate: real)
  {
    function Utilization(): Ratio {
      if availableCapacity <= 0.0 then (if offeredLoad > 0.0 then Infinite else Finite(0.0))
      else Finite(offeredLoad / availableCapacity)
    }

    // Oversubscription beyond full load, capped at one.
    function CappedOver(): real {
      match Utilization()
      case Infinite => 1.0
      case Finite(u) => Min(1.0, Max(0.0, u - 1.0))
    }

    function QueuePressure(): (p: real)
      ensures 0.0 <= p <= 1.0
    {
      if queueDepth <= 0 then 0.0
      else
        PositiveQuotient(queueDepth as real, Max(1.0, availableCapacity));
        Min(1.0, queueDepth as real / Max(1.0, availableCapacity))
    }

    function CollapseRisk(): (risk: real)
      ensures dropRate >= 0.0 ==> 0.0 <= risk <= 1.0
    {
      Min(1.0, 0.5 * CappedOver() + 0.5 * dropRate + 0.5 * QueuePressure())
    }

    // The extra shedding pressure admission applies.
    function Overage(): (o: real)
      ensures 0.0 <= o <= 1.0
    {
      match Utilization()
      case Infinite => 1.0
      case Finite(u) => Min(1.0, Max(0.0, u - 1.0) + QueuePressure())
    }
  }

  // ------------------------------------------------------------------ what the congestion signals mean

  // Load beyond the capacity.
  function Excess(c: CongestionState): real {
    Max(0.0, c.offeredLoad - Max(0.0, c.availableCapacity))
  }

  // Requests waiting.
  function Backlog(c: CongestionState): real {
    if c.queueDepth > 0 then c.queueDepth as real else 0.0
  }

  lemma PressureIsBacklog(c: CongestionState)
    ensures Product(c.QueuePressure(), Max(1.0, c.availableCapacity)) == Min(Max(1.0, c.availableCapacity), Backlog(c))
    ensures c.QueuePressure() == 0.0 <==> c.queueDepth <= 0
  {
    var d := Max(1.0, c.availableCapacity);
    assert Product(1.0, d) == d;
    if c.queueDepth > 0 {
      QuotientTimes(c.queueDepth as real, d);
      QuotientAgainstOne(c.queueDepth as real, d);
    }
  }

  // A quotient compares with one as its terms compare.
  lemma QuotientAgainstOne(a: real, d: real)
    requires d > 0.0
    ensures a / d <= 1.0 <==> a <= d
    ensures a / d > 0.0 <==> a > 0.0
  {
    QuotientTimes(a, d);
    assert a == Product(a / d, d);
    ProductAdds(a / d, -1.0, d);
    assert Product(-1.0, d) == -d;
    assert Product(a / d - 1.0, d) == a - d;
  }

  lemma CappedOverIsExcess(c: CongestionState)
    ensures c.CappedOver() == 0.0 <==> Excess(c) == 0.0
    ensures c.availableCapacity > 0.0 ==>
      Product(c.CappedOver(), c.availableCapacity) == Min(c.availableCapacity, Excess(c))
  {
    var cap := c.availableCapacity;
    if cap > 0.0 {
      var u := c.offeredLoad / cap;
      QuotientAgainstOne(c.offeredLoad, cap);
      QuotientTimes(c.offeredLoad, cap);
      ProductAdds(u, -1.0, cap);
      assert Product(u - 1.0, cap) == c.offeredLoad - cap && Product(1.0, cap) == cap by {
        assert Product(-1.0, cap) == -cap;
      }
      if u - 1.0 > 1.0 {
        ScaleUp(1.0, u - 1.0, cap);
      } else {
        ProductMonotone(cap, u - 1.0, 1.0);
        assert Product(cap, u - 1.0) == Product(u - 1.0, cap);
      }
    }
  }

  // Collapse risk is half of each of capped excess, drops and queue pressure, none of which it ignores.
  lemma CollapseRiskExact(c: CongestionState)
    requires c.dropRate >= 0.0
    ensures c.CollapseRisk() == 0.0 <==> Excess(c) == 0.0 && c.dropRate == 0.0 && c.queueDepth <= 0
    ensures c.availableCapacity > 0.0 && c.CollapseRisk() < 1.0 ==>
      2.0 * Product(c.CollapseRisk(), c.availableCapacity)
        == Min(c.availableCapacity, Excess(c)) + Product(c.dropRate, c.availableCapacity)
          + Product(c.QueuePressure(), c.availableCapacity)
    ensures c.availableCapacity <= 0.0 && c.CollapseRisk() < 1.0 ==>
      2.0 * c.CollapseRisk() == (if c.offeredLoad > 0.0 then 1.0 else 0.0) + c.dropRate + c.QueuePressure()
  {
    PressureIsBacklog(c);
    CappedOverIsExcess(c);
    ProductAdds(0.5 * c.CappedOver() + 0.5 * c.dropRate, 0.5 * c.QueuePressure(), c.availableCapacity);
    ProductAdds(0.5 * c.CappedOver(), 0.5 * c.dropRate, c.availableCapacity);
    Halved(c.CappedOver(), c.availableCapacity);
    Halved(c.dropRate, c.availableCapacity);
    Halved(c.QueuePressure(), c.availableCapacity);
  }

  lemma Halved(x: real, factor: real)
    ensures 2.0 * Product(0.5 * x, factor) == Product(x, factor)
  {
  }

  // The overage is the excess load as a fraction of the capacity plus the queue pressure, at most one;
  // without any capacity every load is over.
  lemma OverageExact(c: CongestionState)
    ensures c.Overage() == 0.0 <==> Excess(c) == 0.0 && c.queueDepth <= 0
    ensures c.availableCapacity > 0.0 ==>
      Product(c.Overage(), c.availableCapacity)
        == Min(c.availableCapacity, Excess(c) + Product(c.QueuePressure(), c.availableCapacity))
    ensures c.availableCapacity <= 0.0 ==> c.Overage() == if c.offeredLoad > 0.0 then 1.0 else c.QueuePressure()
  {
    PressureIsBacklog(c);
    CappedOverIsExcess(c);
    var cap := c.availableCapacity;
    if cap > 0.0 {
      var over := Max(0.0, c.offeredLoad / cap - 1.0);
      assert Product(over, cap) == Excess(c) by {
        QuotientTimes(c.offeredLoad, cap);
        ProductAdds(c.offeredLoad / cap, -1.0, cap);
        assert Product(-1.0, cap) == -cap;
      }
      ProductAdds(over, c.QueuePressure(), cap);
      assert Product(1.0, cap) == cap;
      if over + c.QueuePressure() > 1.0 {
        ScaleUp(1.0, over + c.QueuePressure(), cap);
      } else {
        ProductMonotone(cap, over + c.QueuePressure(), 1.0);
        assert Product(cap, over + c.QueuePressure()) == Product(over + c.QueuePressure(), cap);
        assert Product(cap, 1.0) == cap;
      }
    }
  }

  // With at least one unit of capacity, the overage is excess plus backlog over capacity, at most one.
  lemma OverageOfBacklog(c: CongestionState)
    requires c.availableCapacity >= 1.0
    ensures Product(c.Overage(), c.availableCapacity) == Min(c.availableCapacity, Excess(c) + Backlog(c))
  {
    PressureIsBacklog(c);
    OverageExact(c);
  }

  // ------------------------------------------------------------------ what the curve promises

  // Sorted breakpoints whose probabilities do not fall, on the unit square.
  ghost predicate Monotone(pts: seq<Point>) {
    && (forall i :: 0 <= i < |pts| ==> 0.0 <= pts[i].score <= 1.0 && 0.0 <= pts[i].probability <= 1.0)
    && (forall i, j :: 0 <= i < j < |pts| ==> pts[i].score <= pts[j].score && pts[i].probability <= pts[j].probability)
  }

  lemma FractionRange(a: real, b: real)
    requires 0.0 <= a <= b && b > 0.0
    ensures 0.0 <= a / b <= 1.0
  {
  }

  lemma SegmentRange(a: Point, b: Point, score: real)
    requires InSegment(a, b, score) && a.probability <= b.probability
    ensures a.probability <= OnSegment(a, b, score) <= b.probability
  {
    if a.score < b.score {
      var t, rise := (score - a.score) / (b.score - a.score), b.probability - a.probability;
      FractionRange(score - a.score, b.score - a.score);
      ProductMonotone(rise, t, 1.0);
      assert Product(rise, 1.0) == rise && Product(rise, t) == Product(t, rise);
    }
  }

  lemma SegmentRises(a: Point, b: Point, low: real, high: real)
    requires a.score <= low <= high <= b.score && a.probability <= b.probability
    ensures OnSegment(a, b, low) <= OnSegment(a, b, high)
  {
    if a.score < b.score {
      var width, rise := b.score - a.score, b.probability - a.probability;
      var t, u := (low - a.score) / width, (high - a.score) / width;
      assert u - t == (high - low) / width;
      FractionRange(high - low, width);
      ProductMonotone(rise, t, u);
      assert Product(rise, t) == Product(t, rise) && Product(rise, u) == Product(u, rise);
    }
  }

  // Which segment a score between the end breakpoints is read on: the first that contains it.
  lemma {:induction false} Locate(pts: seq<Point>, score: real, start: nat) returns (i: nat)
    requires start < |pts| - 1 && pts[start].score <= score <= pts[|pts| - 1].score
    ensures start <= i < |pts| - 1 && InSegment(pts[i], pts[i + 1], score)
    ensures Interpolated(pts, score, start) == OnSegment(pts[i], pts[i + 1], score)
    ensures forall j :: start < j <= i ==> pts[j].score < score
    decreases |pts| - start
  {
    if InSegment(pts[start], pts[start + 1], score) {
      i := start;
    } else {
      i := Locate(pts, score, start + 1);
    }
  }

  // A higher score is never less likely to be admitted.
  lemma CurveIsMonotone(curve: AdmissionCurve, low: real, high: real)
    requires Monotone(curve.breakpoints) && low <= high
    ensures curve.AdmitProbability(low) <= curve.AdmitProbability(high)
  {
    var pts, n := curve.breakpoints, |curve.breakpoints|;
    if n > 0 && pts[0].score < high < pts[n - 1].score {
      var k := Locate(pts, high, 0);
      SegmentRange(pts[k], pts[k + 1], high);
      if pts[0].score < low {
        var i := Locate(pts, low, 0);
        SegmentRange(pts[i], pts[i + 1], low);
        if i == k {
          SegmentRises(pts[i], pts[i + 1], low, high);
        }
      }
    } else if n > 0 && pts[0].score < low < pts[n - 1].score {
      var i := Locate(pts, low, 0);
      SegmentRange(pts[i], pts[i + 1], low);
    }
  }

  lemma CurveRange(curve: AdmissionCurve, score: real)
    requires Monotone(curve.breakpoints)
    ensures 0.0 <= curve.AdmitProbability(score) <= 1.0
  {
    var pts, n := curve.breakpoints, |curve.breakpoints|;
    if n > 0 && pts[0].score < score < pts[n - 1].score {
      var i := Locate(pts, score, 0);
      SegmentRange(pts[i], pts[i + 1], score);
    }
  }

  // The value lies on the straight line through the two points.
  ghost predicate OnLine(a: Point, b: Point, score: real, value: real) {
    Product(value - a.probability, b.score - a.score) == Product(score - a.score, b.probability - a.probability)
  }

  lemma SegmentIsLine(a: Point, b: Point, score: real)
    requires a.score < b.score
    ensures OnLine(a, b, score, OnSegment(a, b, score))
  {
    var width, rise := b.score - a.score, b.probability - a.probability;
    var t := (score - a.score) / width;
    QuotientTimes(score - a.score, width);
    assert t * width == score - a.score;
    assert (t * rise) * width == (t * width) * rise;
  }

  // Where breakpoints are strictly apart, the curve is their linear interpolation on every segment,
  // whichever one the scan stops at.
  lemma CurveInterpolates(curve: AdmissionCurve, i: nat, score: real)
    requires i + 1 < |curve.breakpoints| && InSegment(curve.breakpoints[i], curve.breakpoints[i + 1], score)
    requires forall j, k :: 0 <= j < k < |curve.breakpoints| ==> curve.breakpoints[j].score < curve.breakpoints[k].score
    ensures curve.AdmitProbability(score) == OnSegment(curve.breakpoints[i], curve.breakpoints[i + 1], score)
    ensures OnLine(curve.breakpoints[i], curve.breakpoints[i + 1], score, curve.AdmitProbability(score))
  {
    SegmentIsLine(curve.breakpoints[i], curve.breakpoints[i + 1], score);
    hide OnLine;
    var pts, n := curve.breakpoints, |curve.breakpoints|;
    SegmentEnds(pts[i], pts[i + 1]);
    if pts[0].score < score < pts[n - 1].score {
      var k := Locate(pts, score, 0);
      SegmentEnds(pts[k], pts[k + 1]);
      assert k == i || (k + 1 == i && score == pts[i].score);
    }
  }

  lemma SegmentEnds(a: Point, b: Point)
    requires a.score < b.score
    ensures OnSegment(a, b, a.score) == a.probability && OnSegment(a, b, b.score) == b.probability
  {
    assert (b.score - a.score) / (b.score - a.score) == 1.0;
    assert Product(1.0, b.probability - a.probability) == b.probability - a.probability;
  }
}
