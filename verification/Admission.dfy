// Tier 1 load shedding: a coin against the curve's probability, damped under live congestion.
module Admission {
  import opened Domain
  import opened Reals
  import opened Collections
  import opened Planning

  datatype ScoredRequest = ScoredRequest(request: ServiceRequest, score: real, cost: real, deliveryProbability: real)

  function ScoredOf(s: ScoredRequest): ServiceRequest {
    s.request
  }

  function DampedProbability(curve: AdmissionCurve, overage: real, score: real): real {
    Product(curve.AdmitProbability(score), 1.0 - Product(overage, 1.0 - score))
  }

  // Coins come from an arbitrary stream in [0, 1).
  type Coins = nat -> real

  ghost predicate FairCoins(coins: Coins) {
    forall i :: 0.0 <= coins(i) < 1.0
  }

  predicate Admits(curve: AdmissionCurve, overage: real, s: ScoredRequest, coin: real) {
    coin < DampedProbability(curve, overage, s.score)
  }

  function AdmittedOf(curve: AdmissionCurve, overage: real, scored: seq<ScoredRequest>,
                      coins: Coins): seq<ScoredRequest> {
    if scored == [] then []
    else
      var n := |scored| - 1;
      AdmittedOf(curve, overage, scored[..n], coins)
        + if Admits(curve, overage, scored[n], coins(n)) then [scored[n]] else []
  }

  function ShedOf(curve: AdmissionCurve, overage: real, scored: seq<ScoredRequest>,
                  coins: Coins): seq<RejectedRequest> {
    if scored == [] then []
    else
      var n := |scored| - 1;
      ShedOf(curve, overage, scored[..n], coins)
        + if Admits(curve, overage, scored[n], coins(n)) then []
          else [RejectedRequest(scored[n].request, AdmissionShed)]
  }

  class AdmissionController {
    var plan: ResourcePlan

    constructor ()
      ensures plan == PASSTHROUGH
    {
      plan := PASSTHROUGH;
    }

    method UpdatePolicy(plan: ResourcePlan)
      modifies this
      ensures this.plan == plan
    {
      this.plan := plan;
    }

    method Admit(scored: seq<ScoredRequest>, congestion: CongestionState, coins: Coins)
      returns (admitted: seq<ScoredRequest>, rejected: seq<RejectedRequest>)
      ensures admitted == AdmittedOf(plan.curve, congestion.Overage(), scored, coins)
      ensures rejected == ShedOf(plan.curve, congestion.Overage(), scored, coins)
    {
      var curve, overage := plan.curve, congestion.Overage();
      admitted, rejected := [], [];
      for i := 0 to |scored|
        invariant admitted == AdmittedOf(curve, overage, scored[..i], coins)
        invariant rejected == ShedOf(curve, overage, scored[..i], coins)
      {
        assert scored[..i + 1][..i] == scored[..i];
        var item := scored[i];
        var prob := curve.AdmitProbability(item.score);
        prob := Product(prob, 1.0 - Product(overage, 1.0 - item.score));
        if coins(i) < prob {
          admitted := admitted + [item];
        } else {
          rejected := rejected + [RejectedRequest(item.request, AdmissionShed)];
        }
      }
      assert scored[..|scored|] == scored;
    }
  }

  // ------------------------------------------------------------------ what admission promises

  lemma DampingRange(overage: real, score: real)
    requires 0.0 <= overage <= 1.0 && 0.0 <= score <= 1.0
    ensures 0.0 <= 1.0 - Product(overage, 1.0 - score) <= 1.0
  {
    ProductMonotone(1.0 - score, overage, 1.0);
    assert Product(1.0 - score, 1.0) == 1.0 - score && Product(1.0 - score, overage) == Product(overage, 1.0 - score);
  }

  lemma ProductRises(a: real, b: real, c: real, d: real)
    requires 0.0 <= a <= c && 0.0 <= b <= d
    ensures 0.0 <= Product(a, b) <= Product(c, d)
  {
    ProductMonotone(a, b, d);
    ProductMonotone(d, a, c);
    assert Product(a, d) == Product(d, a) && Product(c, d) == Product(d, c);
  }

  // The probability actually used is a probability, rises with the score, and falls with congestion.
  lemma DampedIsMonotone(curve: AdmissionCurve, calm: real, busy: real, low: real, high: real)
    requires Monotone(curve.breakpoints)
    requires 0.0 <= calm <= busy <= 1.0 && 0.0 <= low <= high <= 1.0
    ensures 0.0 <= DampedProbability(curve, busy, low) <= DampedProbability(curve, calm, high) <= 1.0
  {
    CurveRange(curve, low);
    CurveRange(curve, high);
    CurveIsMonotone(curve, low, high);
    DampingRange(busy, low);
    DampingRange(calm, high);
    ProductRises(calm, 1.0 - high, busy, 1.0 - low);
    var p, q := curve.AdmitProbability(low), curve.AdmitProbability(high);
    ProductRises(p, 1.0 - Product(busy, 1.0 - low), q, 1.0 - Product(calm, 1.0 - high));
    ProductRises(q, 1.0 - Product(calm, 1.0 - high), 1.0, 1.0);
    assert Product(1.0, 1.0) == 1.0;
  }

  // Under the same coin a higher score is admitted whenever a lower one is, also under less congestion.
  lemma SameCoinFavoursHigherScore(curve: AdmissionCurve, calm: real, busy: real, lower: ScoredRequest,
                                   higher: ScoredRequest, coin: real)
    requires Monotone(curve.breakpoints) && 0.0 <= calm <= busy <= 1.0
    requires 0.0 <= lower.score <= higher.score <= 1.0
    ensures Admits(curve, busy, lower, coin) ==> Admits(curve, calm, higher, coin)
  {
    DampedIsMonotone(curve, calm, busy, lower.score, higher.score);
  }

  // A curve that reaches certainty at score one never sheds a top score, under any congestion.
  lemma TopScoreNeverShed(curve: AdmissionCurve, overage: real, s: ScoredRequest, coin: real)
    requires |curve.breakpoints| >= 2 && curve.breakpoints[0].score < 1.0
    requires curve.breakpoints[|curve.breakpoints| - 1] == Point(1.0, 1.0)
    requires s.score == 1.0 && coin < 1.0
    ensures Admits(curve, overage, s, coin)
  {
    assert Product(overage, 0.0) == 0.0 && Product(1.0, 1.0) == 1.0;
  }

  // No coin sheds the request.
  ghost predicate NeverShed(curve: AdmissionCurve, overage: real, s: ScoredRequest) {
    forall coin: real :: 0.0 <= coin < 1.0 ==> Admits(curve, overage, s, coin)
  }

  lemma SomeCoinSheds(curve: AdmissionCurve, overage: real, s: ScoredRequest)
    requires 0.0 <= DampedProbability(curve, overage, s.score) < 1.0
    ensures !NeverShed(curve, overage, s)
  {
    assert !Admits(curve, overage, s, DampedProbability(curve, overage, s.score));
  }

  // A request is safe from shedding exactly when its curve value is one and either there is no
  // overage or its score is one: a high score alone is not enough.
  lemma NeverShedExactly(curve: AdmissionCurve, overage: real, s: ScoredRequest)
    requires Monotone(curve.breakpoints) && 0.0 <= overage <= 1.0 && 0.0 <= s.score <= 1.0
    ensures NeverShed(curve, overage, s) <==>
      curve.AdmitProbability(s.score) == 1.0 && (overage == 0.0 || s.score == 1.0)
  {
    CurveRange(curve, s.score);
    DampingRange(overage, s.score);
    var p, damping := curve.AdmitProbability(s.score), 1.0 - Product(overage, 1.0 - s.score);
    assert Product(p, 1.0) == p && Product(1.0, damping) == damping && Product(1.0, 1.0) == 1.0;
    ProductMonotone(p, damping, 1.0);
    ProductRises(p, damping, 1.0, damping);
    if Product(p, damping) < 1.0 {
      SomeCoinSheds(curve, overage, s);
    }
  }

  // A step offered twice its capacity, with nothing queued and nothing dropped.
  const OVERSUBSCRIBED := CongestionState(0, 2.0, 1.0, 0.0)

  // In an oversubscribed step every curve, also one that admits everything, can shed a score of 0.9.
  lemma HighScoresCanBeShed(curve: AdmissionCurve, s: ScoredRequest)
    requires Monotone(curve.breakpoints) && s.score == 0.9
    ensures OVERSUBSCRIBED.Overage() == 1.0 && !Admits(curve, OVERSUBSCRIBED.Overage(), s, 0.95)
  {
    assert OVERSUBSCRIBED.Utilization() == Finite(2.0);
    CurveRange(curve, 0.9);
    hide AdmissionCurve.AdmitProbability;
    var p := curve.AdmitProbability(0.9);
    ProductRises(p, 0.9, 1.0, 0.9);
    assert Product(1.0, 1.0 - 0.9) == 0.1 && Product(1.0, 0.9) == 0.9;
  }

  // What is shed was shed by its own coin.
  lemma {:induction false} ShedByCoin(curve: AdmissionCurve, overage: real, scored: seq<ScoredRequest>, coins: Coins,
                                      x: RejectedRequest) returns (i: nat)
    requires x in ShedOf(curve, overage, scored, coins)
    ensures i < |scored| && x == RejectedRequest(scored[i].request, AdmissionShed)
    ensures !Admits(curve, overage, scored[i], coins(i))
  {
    hide Admits;
    var n := |scored| - 1;
    if x in ShedOf(curve, overage, scored[..n], coins) {
      i := ShedByCoin(curve, overage, scored[..n], coins, x);
    } else {
      i := n;
    }
  }

  // Every scored request is either admitted or shed with the shedding reason.
  lemma {:induction false} AdmissionPartitions(curve: AdmissionCurve, overage: real, scored: seq<ScoredRequest>,
                                               coins: Coins)
    ensures multiset(Map(ScoredOf, scored))
      == multiset(Map(ScoredOf, AdmittedOf(curve, overage, scored, coins)))
        + multiset(Map(RejectedOf, ShedOf(curve, overage, scored, coins)))
    ensures forall s :: s in AdmittedOf(curve, overage, scored, coins) ==> s in scored
    ensures forall r :: r in ShedOf(curve, overage, scored, coins) ==> r.reason == AdmissionShed
  {
    if scored != [] {
      var n := |scored| - 1;
      var s := scored[n];
      AdmissionPartitions(curve, overage, scored[..n], coins);
      assert scored == scored[..n] + [s];
      MapSnoc(ScoredOf, scored[..n], s);
      var admitted, shed := AdmittedOf(curve, overage, scored[..n], coins), ShedOf(curve, overage, scored[..n], coins);
      if Admits(curve, overage, s, coins(n)) {
        MapSnoc(ScoredOf, admitted, s);
        assert shed + [] == shed;
      } else {
        MapSnoc(RejectedOf, shed, RejectedRequest(s.request, AdmissionShed));
        assert admitted + [] == admitted;
      }
    }
  }
}
