// What one planning window teaches the adaptive planner: the signal its counters amount to, and how
// far that signal moves each bucket.
module Learning {
  import opened Domain
  import opened Reals
  import opened Collections
  import opened Planning
  import opened Telemetry
  import opened Optimizer

  // ------------------------------------------------------------------ how far a bucket moves

  // A bucket of n goes from p to t under the signal: the lower the bucket, the further.
  ghost predicate Pushed(s: Settings, i: nat, p: real, t: real, signal: real) {
    var n := s.buckets as real;
    2.0 * Product(n, t - p) == Product(Product(s.learningRate, 2.0 * n - 2.0 * i as real - 1.0), signal)
  }

  // A value kept between the floor and one.
  ghost predicate Kept(s: Settings, t: real, v: real) {
    if t < s.floorMin then v == s.floorMin else if t > 1.0 then v == 1.0 else v == t
  }

  // The targets of all buckets, and the buckets as the targets leave them: each is the largest of
  // the kept targets up to it.
  ghost predicate Moved(s: Settings, p: seq<real>, signal: real, kept: seq<real>, next: seq<real>) {
    && |p| == |kept| == |next| == s.buckets
    && (forall i :: 0 <= i < |p| ==> MovedTo(s, i, p[i], signal, kept[i]))
    && (forall i, j :: 0 <= j <= i < |p| ==> kept[j] <= next[i])
    && (forall i :: 0 <= i < |p| ==> TakenUpTo(kept, i, next[i]))
  }

  ghost predicate TakenUpTo(xs: seq<real>, i: nat, v: real) {
    exists j :: 0 <= j < |xs| && j <= i && xs[j] == v
  }

  ghost predicate MovedTo(s: Settings, i: nat, p: real, signal: real, v: real) {
    exists t :: Pushed(s, i, p, t, signal) && Kept(s, t, v)
  }

  lemma GradeTimesBuckets(s: Settings, i: nat, signal: real)
    requires i < s.buckets
    ensures 2.0 * Product(s.buckets as real, Product(Product(s.learningRate, s.Grade(i)), signal))
      == Product(Product(s.learningRate, 2.0 * s.buckets as real - 2.0 * i as real - 1.0), signal)
  {
    var n, rate, grade := s.buckets as real, s.learningRate, s.Grade(i);
    var width := 2.0 * n - 2.0 * i as real - 1.0;
    QuotientTimes(i as real + 0.5, n);
    assert Product(s.Mid(i), n) == i as real + 0.5;
    ProductAdds(1.0, -s.Mid(i), n);
    assert Product(1.0, n) == n && Product(-s.Mid(i), n) == -Product(s.Mid(i), n);
    assert 2.0 * Product(grade, n) == width;
    Reassociated(n, rate, grade, signal);
    Doubled(rate, Product(grade, n), signal);
  }

  lemma Reassociated(n: real, rate: real, grade: real, signal: real)
    ensures Product(n, Product(Product(rate, grade), signal)) == Product(Product(rate, Product(grade, n)), signal)
  {
    assert n * ((rate * grade) * signal) == (rate * (grade * n)) * signal;
  }

  lemma Doubled(rate: real, x: real, signal: real)
    ensures 2.0 * Product(Product(rate, x), signal) == Product(Product(rate, 2.0 * x), signal)
  {
    assert 2.0 * ((rate * x) * signal) == (rate * (2.0 * x)) * signal;
  }

  lemma NudgedIsMoved(s: Settings, i: nat, p: real, signal: real)
    requires s.Valid() && i < s.buckets
    ensures MovedTo(s, i, p, signal, Nudged(s, p, i, signal))
  {
    var t := p + Product(Product(s.learningRate, s.Grade(i)), signal);
    GradeTimesBuckets(s, i, signal);
    assert Pushed(s, i, p, t, signal);
    hide Pushed, Product;
    assert Kept(s, t, Nudged(s, p, i, signal));
  }

  lemma {:induction false} RunningMaxIsTaken(p: seq<real>, i: nat)
    requires i < |p|
    ensures TakenUpTo(p, i, RunningMax(p)[i])
    decreases i
  {
    if i > 0 {
      RunningMaxStep(p, i);
      RunningMaxIsTaken(p, i - 1);
    } else if |p| > 1 {
      RunningMaxStep(p, 1);
    }
    hide RunningMax;
    assert TakenUpTo(p, i, p[i]);
  }

  lemma RaisedFrom(p: seq<real>)
    ensures forall i, j :: 0 <= j <= i < |p| ==> p[j] <= RunningMax(p)[i]
    ensures forall i :: 0 <= i < |p| ==> TakenUpTo(p, i, RunningMax(p)[i])
  {
    hide RunningMax, TakenUpTo;
    forall i | 0 <= i < |p| ensures TakenUpTo(p, i, RunningMax(p)[i]) {
      RunningMaxIsTaken(p, i);
    }
    forall i, j | 0 <= j <= i < |p| ensures p[j] <= RunningMax(p)[i] {
      assert p[j] <= RunningMax(p)[j];
    }
  }

  // A window moves every bucket by its gain times the signal, keeps it between the floor and one,
  // and raises it to the largest bucket below it; nothing else.
  lemma BucketsMove(s: Settings, p: seq<real>, signal: real) returns (kept: seq<real>)
    requires s.Valid() && |p| == s.buckets
    ensures Moved(s, p, signal, kept, LearnedBuckets(s, p, signal))
  {
    kept := NudgedAll(s, p, signal);
    hide MovedTo, Nudged, RunningMax, TakenUpTo;
    forall i | 0 <= i < |p| ensures MovedTo(s, i, p[i], signal, kept[i]) {
      NudgedIsMoved(s, i, p[i], signal);
    }
    RaisedFrom(kept);
    hide NudgedAll;
  }

  // ------------------------------------------------------------------ strict movement

  ghost predicate Tightened(s: Settings, p: seq<real>, next: seq<real>) {
    |p| == |next| && forall i :: 0 <= i < |p| ==> if p[i] > s.floorMin then next[i] < p[i] else next[i] == p[i]
  }

  ghost predicate Loosened(p: seq<real>, next: seq<real>) {
    |p| == |next| && forall i :: 0 <= i < |p| ==> if p[i] < 1.0 then next[i] > p[i] else next[i] == p[i]
  }

  lemma PushIsSigned(s: Settings, i: nat, p: real, t: real, signal: real)
    requires s.Valid() && i < s.buckets && Pushed(s, i, p, t, signal)
    ensures signal < 0.0 ==> t < p
    ensures signal > 0.0 ==> t > p
    ensures signal == 0.0 ==> t == p
  {
    var n := s.buckets as real;
    var gain := Product(s.learningRate, 2.0 * n - 2.0 * i as real - 1.0);
    assert gain > 0.0;
  }

  lemma MoveIsSigned(s: Settings, i: nat, p: real, signal: real, v: real)
    requires s.Valid() && i < s.buckets && s.floorMin <= p <= 1.0 && MovedTo(s, i, p, signal, v)
    ensures signal < 0.0 ==> if p > s.floorMin then v < p else v == p
    ensures signal > 0.0 ==> if p < 1.0 then v > p else v == p
    ensures signal == 0.0 ==> v == p
  {
    var t :| Pushed(s, i, p, t, signal) && Kept(s, t, v);
    PushIsSigned(s, i, p, t, signal);
    hide Pushed;
  }

  // A negative signal strictly lowers every bucket above the floor, a positive one strictly raises
  // every bucket below one, and a zero one leaves them all.
  lemma SignalMovesBuckets(s: Settings, p: seq<real>, signal: real)
    requires s.Valid() && GoodBuckets(s, p)
    ensures signal < 0.0 ==> Tightened(s, p, LearnedBuckets(s, p, signal))
    ensures signal > 0.0 ==> Loosened(p, LearnedBuckets(s, p, signal))
    ensures signal == 0.0 ==> LearnedBuckets(s, p, signal) == p
  {
    var next := LearnedBuckets(s, p, signal);
    var kept := BucketsMove(s, p, signal);
    BucketsStayGood(s, p, signal);
    hide LearnedBuckets, Moved;
    assert |next| == |p|;
    forall i | 0 <= i < |p|
      ensures signal < 0.0 ==> if p[i] > s.floorMin then next[i] < p[i] else next[i] == p[i]
      ensures signal > 0.0 ==> if p[i] < 1.0 then next[i] > p[i] else next[i] == p[i]
      ensures signal == 0.0 ==> next[i] == p[i]
    {
      OneBucketMoves(s, p, signal, kept, next, i);
    }
  }

  lemma OneBucketMoves(s: Settings, p: seq<real>, signal: real, kept: seq<real>, next: seq<real>, i: nat)
    requires s.Valid() && GoodBuckets(s, p) && Moved(s, p, signal, kept, next) && i < |p| && next[i] <= 1.0
    ensures signal < 0.0 ==> if p[i] > s.floorMin then next[i] < p[i] else next[i] == p[i]
    ensures signal > 0.0 ==> if p[i] < 1.0 then next[i] > p[i] else next[i] == p[i]
    ensures signal == 0.0 ==> next[i] == p[i]
  {
    var j :| 0 <= j < |kept| && j <= i && kept[j] == next[i];
    MoveIsSigned(s, i, p[i], signal, kept[i]);
    MoveIsSigned(s, j, p[j], signal, kept[j]);
    hide MovedTo;
    assert kept[i] <= next[i] && p[j] <= p[i];
  }

  // ------------------------------------------------------------------ the signal

  // Counted over the steps of a window: everything handled, and what admission shed of it.
  function HandledBy(c: StepCounters): real {
    (c.served + c.deferred + c.dropped + c.rejected) as real
  }

  function ShedBy(c: StepCounters): real {
    (if AdmissionShed in c.rejectedByReason then c.rejectedByReason[AdmissionShed] else 0) as real
  }

  function Over(measure: StepCounters -> real, recent: seq<StepCounters>): real {
    Sum(Map(measure, recent))
  }

  // The realized outcome of a window: mean utilization and collapse risk, and the fraction shed.
  ghost predicate MeasuredOver(recent: seq<StepCounters>, now: Signals) {
    && Product(|recent| as real, now.utilization) == Over((c: StepCounters) => c.utilization, recent)
    && Product(|recent| as real, now.collapse) == Over((c: StepCounters) => c.collapseRisk, recent)
    && Product(Over(HandledBy, recent), now.shed) == Over(ShedBy, recent)
    && (Over(HandledBy, recent) == 0.0 ==> now.shed == 0.0)
  }

  lemma {:induction false} CountsAreSums(recent: seq<StepCounters>)
    ensures Over(HandledBy, recent) == HandledIn(recent) as real && Over(ShedBy, recent) == ShedIn(recent) as real
  {
    if recent != [] {
      var n := |recent| - 1;
      CountsAreSums(recent[..n]);
      assert Map(HandledBy, recent)[..n] == Map(HandledBy, recent[..n]);
      assert Map(ShedBy, recent)[..n] == Map(ShedBy, recent[..n]);
    }
  }

  lemma MeanTimesCount(xs: seq<real>)
    requires xs != []
    ensures Product(|xs| as real, Mean(xs)) == Sum(xs)
  {
    QuotientTimes(Sum(xs), |xs| as real);
    assert Product(|xs| as real, Mean(xs)) == Product(Mean(xs), |xs| as real);
  }

  lemma RealizedExactly(recent: seq<StepCounters>)
    requires recent != [] && AllInRange(recent)
    ensures MeasuredOver(recent, Realized(recent))
  {
    CountsAreSums(recent);
    ShedBelowHandled(recent);
    assert Map((c: StepCounters) => c.utilization, recent) == Map(UtilizationOfStep, recent);
    assert Map((c: StepCounters) => c.collapseRisk, recent) == Map(CollapseOfStep, recent);
    MeanTimesCount(Map(UtilizationOfStep, recent));
    MeanTimesCount(Map(CollapseOfStep, recent));
    if HandledIn(recent) > 0 {
      QuotientTimes(ShedIn(recent) as real, HandledIn(recent) as real);
      ProductCommutes(HandledIn(recent) as real, ShedIn(recent) as real / HandledIn(recent) as real);
    }
    hide Product, Mean, Map, Sum, HandledIn, ShedIn, AllInRange;
  }

  lemma ProductCommutes(a: real, b: real)
    ensures Product(a, b) == Product(b, a)
  {
  }

  // A smoothed value lies between the old and the new one and divides their distance as the weights do.
  ghost predicate Divides(s: Settings, past: real, now: real, v: real) {
    && Product(1.0 - s.smoothing, v - past) == Product(s.smoothing, now - v)
    && Min(past, now) <= v <= Max(past, now)
  }

  lemma SmoothDivides(s: Settings, past: real, now: real)
    requires s.Valid()
    ensures Divides(s, past, now, Smooth(s, Some(past), now))
  {
    var b, v := s.smoothing, Smooth(s, Some(past), now);
    assert v == Product(1.0 - b, past) + Product(b, now);
    assert v - past == Product(b, now - past) && now - v == Product(1.0 - b, now - past) by {
      ProductAdds(1.0, -b, past);
      ProductAdds(1.0, -b, now);
      ProductAdds(1.0, -b, now - past);
    }
    Swapped(1.0 - b, b, now - past);
    ProductAdds(b, 1.0 - b, now - past);
    assert Product(1.0, now - past) == now - past;
  }

  lemma Swapped(a: real, b: real, x: real)
    ensures Product(a, Product(b, x)) == Product(b, Product(a, x))
  {
    assert a * (b * x) == b * (a * x);
  }

  // The signals after a window: those realized, or each divided between its own past and present.
  ghost predicate SmoothedFrom(s: Settings, past: Option<Signals>, now: Signals, next: Signals) {
    if past.None? then next == now
    else
      && Divides(s, past.value.utilization, now.utilization, next.utilization)
      && Divides(s, past.value.collapse, now.collapse, next.collapse)
      && Divides(s, past.value.shed, now.shed, next.shed)
  }

  lemma SignalsAreSmoothed(s: Settings, past: Option<Signals>, now: Signals)
    requires s.Valid()
    ensures SmoothedFrom(s, past, now, SmoothAll(s, past, now))
  {
    if past.Some? {
      SmoothDivides(s, past.value.utilization, now.utilization);
      SmoothDivides(s, past.value.collapse, now.collapse);
      SmoothDivides(s, past.value.shed, now.shed);
    }
    hide Divides, Smooth;
  }

  // The net signal: what was shed, less the part shed on used capacity, less the collapse penalty.
  // Without collapse it is positive exactly when load was shed while capacity sat idle.
  lemma NetExactly(s: Settings, now: Signals)
    requires s.Valid() && now.InRange()
    ensures now.Net(s) + Product(now.utilization, now.shed) + Product(s.collapsePenalty, now.collapse) == now.shed
    ensures now.collapse == 0.0 ==> now.Net(s) >= 0.0 && (now.Net(s) > 0.0 <==> now.utilization < 1.0 && now.shed > 0.0)
    ensures (now.utilization == 1.0 || now.shed == 0.0) && now.collapse > 0.0 && s.collapsePenalty > 0.0 ==>
      now.Net(s) < 0.0
  {
    ProductAdds(1.0 - now.utilization, now.utilization, now.shed);
    assert Product(1.0, now.shed) == now.shed;
  }

  // ------------------------------------------------------------------ what a window teaches

  // The steps a window learns from are the latest ones, as many as a plan is valid for.
  ghost predicate Latest(s: Settings, counters: seq<StepCounters>, recent: seq<StepCounters>) {
    && |recent| <= |counters| && counters[|counters| - |recent|..] == recent
    && |recent| <= s.validForSteps && (|recent| < |counters| ==> |recent| == s.validForSteps)
  }

  lemma GovernedAreLatest(s: Settings, counters: seq<StepCounters>)
    requires s.Valid()
    ensures Latest(s, counters, Governed(s, counters))
  {
  }

  // The signal of a window, given the smoothed past.
  function SignalOf(s: Settings, past: Option<Signals>, recent: seq<StepCounters>): real
    requires recent != []
  {
    SmoothAll(s, past, Realized(recent)).Net(s)
  }

  lemma MovesTowards(s: Settings, past: real, now: real, v: real)
    requires s.Valid() && Divides(s, past, now, v)
    ensures (now > past ==> v > past) && (now < past ==> v < past) && (now == past ==> v == past)
  {
  }

  lemma AllAtMost(xs: seq<real>, high: real)
    requires forall i :: 0 <= i < |xs| ==> xs[i] <= high
    ensures Sum(xs) <= Product(|xs| as real, high)
    ensures Sum(xs) == Product(|xs| as real, high) <==> forall i :: 0 <= i < |xs| ==> xs[i] == high
  {
    if xs != [] {
      var n := |xs| - 1;
      AllAtMost(xs[..n], high);
      ProductAdds(n as real, 1.0, high);
      assert Product(1.0, high) == high;
    }
  }

  // What the realized signals say about single steps.
  lemma SignalsOfSteps(recent: seq<StepCounters>)
    requires recent != [] && AllInRange(recent)
    ensures var now := Realized(recent);
      && (now.collapse == 0.0 <==> forall i :: 0 <= i < |recent| ==> recent[i].collapseRisk == 0.0)
      && (now.utilization == 1.0 <==> forall i :: 0 <= i < |recent| ==> recent[i].utilization == 1.0)
      && (now.shed == 0.0 <==> forall i :: 0 <= i < |recent| ==> ShedBy(recent[i]) == 0.0)
  {
    var now := Realized(recent);
    RealizedExactly(recent);
    RealizedInRange(recent);
    CountsAreSums(recent);
    ShedBelowHandled(recent);
    forall i | 0 <= i < |recent| ensures recent[i].InRange() {
      assert recent[i] in recent;
    }
    var used := Map((c: StepCounters) => c.utilization, recent);
    var risks := Map((c: StepCounters) => c.collapseRisk, recent);
    var shed := Map(ShedBy, recent);
    AllAtMost(used, 1.0);
    ZeroSum(risks);
    ZeroSum(shed);
    hide AllInRange, Realized, HandledIn, ShedIn, Sum;
    assert Product(|recent| as real, 1.0) == |recent| as real;
    ScaledToOne(|recent| as real, now.utilization);
  }

  lemma ScaledToOne(n: real, u: real)
    requires n > 0.0
    ensures Product(n, u) == n <==> u == 1.0
  {
    ProductAdds(u, -1.0, n);
    assert Product(n, u) == Product(u, n) && Product(-1.0, n) == -n;
  }

  // Nothing was shed by admission, in the window or in the smoothed past.
  ghost predicate NothingShed(past: Option<Signals>, recent: seq<StepCounters>) {
    && (past.Some? ==> past.value.shed == 0.0)
    && forall i :: 0 <= i < |recent| ==> ShedBy(recent[i]) == 0.0
  }

  ghost predicate NoCollapse(past: Option<Signals>, recent: seq<StepCounters>) {
    && (past.Some? ==> past.value.collapse == 0.0)
    && forall i :: 0 <= i < |recent| ==> recent[i].collapseRisk == 0.0
  }

  ghost predicate FullyUsed(past: Option<Signals>, recent: seq<StepCounters>) {
    && (past.Some? ==> past.value.utilization == 1.0)
    && forall i :: 0 <= i < |recent| ==> recent[i].utilization == 1.0
  }

  lemma SmoothedSignals(s: Settings, past: Option<Signals>, recent: seq<StepCounters>)
    requires s.Valid() && recent != [] && AllInRange(recent) && (past.Some? ==> past.value.InRange())
    ensures var next := SmoothAll(s, past, Realized(recent));
      && next.InRange()
      && (NothingShed(past, recent) ==> next.shed == 0.0)
      && (NoCollapse(past, recent) ==> next.collapse == 0.0)
      && (FullyUsed(past, recent) ==> next.utilization == 1.0)
      && (!(forall i :: 0 <= i < |recent| ==> ShedBy(recent[i]) == 0.0) ==> next.shed > 0.0)
      && (!(forall i :: 0 <= i < |recent| ==> recent[i].collapseRisk == 0.0) ==> next.collapse > 0.0)
      && (!(forall i :: 0 <= i < |recent| ==> recent[i].utilization == 1.0) ==> next.utilization < 1.0)
  {
    var now := Realized(recent);
    var next := SmoothAll(s, past, now);
    SignalsOfSteps(recent);
    RealizedInRange(recent);
    SmoothAllInRange(s, past, now);
    SignalsAreSmoothed(s, past, now);
    hide SmoothAll, Realized, Divides, AllInRange;
    if past.Some? {
      MovesTowards(s, past.value.utilization, now.utilization, next.utilization);
      MovesTowards(s, past.value.collapse, now.collapse, next.collapse);
      MovesTowards(s, past.value.shed, now.shed, next.shed);
    }
    hide ShedBy;
  }

  // Pure collapse tightens: if nothing was shed and some step of the window risked collapse, every
  // bucket above the floor strictly falls.
  lemma CollapseTightens(s: Settings, past: Option<Signals>, recent: seq<StepCounters>, p: seq<real>)
    requires s.Valid() && recent != [] && AllInRange(recent) && (past.Some? ==> past.value.InRange())
    requires GoodBuckets(s, p) && s.collapsePenalty > 0.0
    requires NothingShed(past, recent) && exists i :: 0 <= i < |recent| && recent[i].collapseRisk > 0.0
    ensures Tightened(s, p, LearnedBuckets(s, p, SignalOf(s, past, recent)))
  {
    SmoothedSignals(s, past, recent);
    NetExactly(s, SmoothAll(s, past, Realized(recent)));
    hide Signals.Net, SmoothAll, Realized, Tightened, GoodBuckets;
    SignalMovesBuckets(s, p, SignalOf(s, past, recent));
  }

  // Shedding while capacity sits idle loosens: without collapse, every bucket below one strictly rises.
  lemma IdleSheddingLoosens(s: Settings, past: Option<Signals>, recent: seq<StepCounters>, p: seq<real>)
    requires s.Valid() && recent != [] && AllInRange(recent) && (past.Some? ==> past.value.InRange())
    requires GoodBuckets(s, p) && NoCollapse(past, recent)
    requires exists i :: 0 <= i < |recent| && ShedBy(recent[i]) > 0.0
    requires exists i :: 0 <= i < |recent| && recent[i].utilization < 1.0
    ensures Loosened(p, LearnedBuckets(s, p, SignalOf(s, past, recent)))
  {
    SmoothedSignals(s, past, recent);
    NetExactly(s, SmoothAll(s, past, Realized(recent)));
    hide Signals.Net, SmoothAll, Realized, Loosened, GoodBuckets;
    SignalMovesBuckets(s, p, SignalOf(s, past, recent));
  }

  // Without collapse, a fully used window teaches nothing, and neither does one that shed nothing.
  lemma QuietWindowTeachesNothing(s: Settings, past: Option<Signals>, recent: seq<StepCounters>, p: seq<real>)
    requires s.Valid() && recent != [] && AllInRange(recent) && (past.Some? ==> past.value.InRange())
    requires GoodBuckets(s, p) && NoCollapse(past, recent)
    requires FullyUsed(past, recent) || NothingShed(past, recent)
    ensures LearnedBuckets(s, p, SignalOf(s, past, recent)) == p
  {
    SmoothedSignals(s, past, recent);
    NetExactly(s, SmoothAll(s, past, Realized(recent)));
    hide Signals.Net, SmoothAll, Realized, GoodBuckets;
    SignalMovesBuckets(s, p, SignalOf(s, past, recent));
  }

  // ------------------------------------------------------------------ the curve broadcast

  // The learned curve passes through every bucket at the middle of its scores, through the lowest
  // bucket at score zero and through one at score one.
  lemma CurveMeetsBuckets(s: Settings, p: seq<real>, i: nat, score: real)
    requires s.Valid() && GoodBuckets(s, p) && i < |p|
    requires 2.0 * Product(score, s.buckets as real) == 2.0 * i as real + 1.0
    ensures LearnedCurve(s, p).AdmitProbability(score) == p[i]
    ensures LearnedCurve(s, p).AdmitProbability(0.0) == p[0]
    ensures LearnedCurve(s, p).AdmitProbability(1.0) == 1.0
  {
    var curve := LearnedCurve(s, p);
    var pts := curve.breakpoints;
    BucketScore(s, i, score);
    LearnedScoresApart(s, p);
    MidRange(s, i);
    assert pts[i + 1] == Point(score, p[i]);
    CurveInterpolates(curve, i, score);
    SegmentEnds(pts[i], pts[i + 1]);
    hide LearnedCurve;
  }

  lemma BucketScore(s: Settings, i: nat, score: real)
    requires i < s.buckets && 2.0 * Product(score, s.buckets as real) == 2.0 * i as real + 1.0
    ensures score == s.Mid(i)
  {
    assert score * s.buckets as real == i as real + 0.5;
  }

  lemma LearnedScoresApart(s: Settings, p: seq<real>)
    requires s.Valid() && |p| == s.buckets
    ensures var pts := LearnedCurve(s, p).breakpoints;
      && |pts| == |p| + 2
      && forall j, k :: 0 <= j < k < |pts| ==> pts[j].score < pts[k].score
  {
    var pts := LearnedCurve(s, p).breakpoints;
    forall j, k | 0 <= j < k < |pts| ensures pts[j].score < pts[k].score {
      if 0 < j {
        MidRange(s, j - 1);
      }
      if k < |pts| - 1 {
        MidRange(s, k - 1);
        if 0 < j {
          GradeOrder(s, j - 1, k - 1);
        }
      }
    }
  }
}
