// What every Tier-1 scheduler returns, and what the control loop relies on.
module SchedulerPort {
  import opened Domain
  import opened Reals
  import opened Collections
  import opened Fairness

  datatype SchedulingResult = SchedulingResult(
    allocations: seq<Allocation>,
    served: seq<ServiceRequest>,
    deferred: seq<ServiceRequest>,
    dropped: seq<RejectedRequest>,
    fairness: real,
    utilization: real)

  datatype Placed = Placed(candidate: ScheduleCandidate, allocation: Allocation)

  function PlacedRequest(p: Placed): ServiceRequest {
    p.candidate.request
  }

  function PlacedCandidate(p: Placed): ScheduleCandidate {
    p.candidate
  }

  function PlacedAllocation(p: Placed): Allocation {
    p.allocation
  }

  function DeadlineMiss(c: ScheduleCandidate): RejectedRequest {
    RejectedRequest(c.request, DeadlineMissed)
  }

  function CapacityOf(beam: Beam): real {
    beam.capacity
  }

  function UnitsOf(a: Allocation): real {
    a.units
  }

  function TotalCapacity(beams: seq<Beam>): real {
    Sum(Map(CapacityOf, beams))
  }

  function TotalUnits(allocations: seq<Allocation>): real {
    Sum(Map(UnitsOf, allocations))
  }

  // Highest score first; the id breaks ties.
  function Priority(c: ScheduleCandidate): Key {
    Key(-c.score, c.request.id)
  }

  // A higher score, or the same and a lower id.
  predicate ComesBefore(c: ScheduleCandidate, d: ScheduleCandidate) {
    c.score > d.score || (c.score == d.score && c.request.id < d.request.id)
  }

  ghost predicate UniqueIds(cs: seq<ScheduleCandidate>) {
    forall c, d :: c in cs && d in cs && c.request.id == d.request.id ==> c == d
  }

  // Airtime the result gave a request id: the last allocation naming it, or nothing.
  function ShareOf(allocations: seq<Allocation>, id: RequestId): real {
    if allocations == [] then 0.0
    else
      var last := allocations[|allocations| - 1];
      if last.requestId == id then last.units else ShareOf(allocations[..|allocations| - 1], id)
  }

  function Shares(allocations: seq<Allocation>, cs: seq<ScheduleCandidate>): seq<real> {
    seq(|cs|, i requires 0 <= i < |cs| => ShareOf(allocations, cs[i].request.id))
  }

  function UtilizationOf(allocations: seq<Allocation>, beams: seq<Beam>): real {
    var capacity := TotalCapacity(beams);
    Min(1.0, if capacity > 0.0 then TotalUnits(allocations) / capacity else 0.0)
  }

  // The closing bookkeeping shared by all schedulers.
  function Conclude(cs: seq<ScheduleCandidate>, beams: seq<Beam>, allocations: seq<Allocation>,
                    served: seq<ServiceRequest>, deferred: seq<ServiceRequest>, dropped: seq<RejectedRequest>)
    : SchedulingResult
  {
    SchedulingResult(allocations, served, deferred, dropped,
                     JainIndex(Shares(allocations, cs)), UtilizationOf(allocations, beams))
  }

  // The allocation lies on this beam, in the request's region, on a listed option, within its ceiling.
  ghost predicate LegalOn(c: ScheduleCandidate, a: Allocation, beam: Beam) {
    && a.beamId == beam.id && a.fleet == beam.fleet && a.band == beam.band
    && Eligible(c, beam)
    && OptionLimit(c.options, beam.fleet, beam.band).value.Allows(a.units, EPS)
  }

  ghost predicate LegalGrant(c: ScheduleCandidate, a: Allocation, beams: seq<Beam>, step: int) {
    && !c.request.IsExpired(step)
    && a.requestId == c.request.id
    && a.units >= 0.0
    && exists beam :: beam in beams && LegalOn(c, a, beam)
  }

  ghost predicate LegalService(r: ServiceRequest, a: Allocation, cs: seq<ScheduleCandidate>, beams: seq<Beam>,
                               step: int) {
    exists c :: c in cs && c.request == r && LegalGrant(c, a, beams, step)
  }

  ghost predicate WithinCapacity(allocations: seq<Allocation>, beams: seq<Beam>, slack: real) {
    forall beam :: beam in beams ==> UsedOn(allocations, beam.id) <= beam.capacity + slack
  }

  // The contract of one scheduling call: every candidate gets exactly one verdict, each served
  // request has one legal, unexpired allocation, only missed deadlines are dropped, and no beam
  // is overdrawn by more than the slack.
  ghost predicate Sound(cs: seq<ScheduleCandidate>, beams: seq<Beam>, step: int, slack: real, r: SchedulingResult) {
    && multiset(Map(RequestOf, cs)) == multiset(r.served + r.deferred + Map(RejectedOf, r.dropped))
    && |r.allocations| == |r.served|
    && (forall i :: 0 <= i < |r.served| ==> LegalService(r.served[i], r.allocations[i], cs, beams, step))
    && (forall i :: 0 <= i < |r.dropped| ==>
      r.dropped[i].reason == DeadlineMissed && r.dropped[i].request.IsExpired(step))
    && WithinCapacity(r.allocations, beams, slack)
    && 0.0 <= r.fairness <= 1.0
    && 0.0 <= r.utilization <= 1.0
  }

  lemma SharesPermutation(allocations: seq<Allocation>, cs: seq<ScheduleCandidate>, ds: seq<ScheduleCandidate>)
    requires multiset(cs) == multiset(ds)
    ensures JainIndex(Shares(allocations, cs)) == JainIndex(Shares(allocations, ds))
  {
    var share := (c: ScheduleCandidate) => ShareOf(allocations, c.request.id);
    assert Shares(allocations, cs) == Map(share, cs) && Shares(allocations, ds) == Map(share, ds);
    MapPermutation(share, cs, ds);
    JainPermutation(Map(share, cs), Map(share, ds));
  }

  lemma {:induction false} ShareNonNegative(allocations: seq<Allocation>, id: RequestId)
    requires forall a :: a in allocations ==> a.units >= 0.0
    ensures ShareOf(allocations, id) >= 0.0
  {
    if allocations != [] {
      ShareNonNegative(allocations[..|allocations| - 1], id);
    }
  }

  lemma UnitsAdd(reservations: seq<Allocation>, a: Allocation)
    ensures TotalUnits(reservations + [a]) == TotalUnits(reservations) + a.units
  {
    MapSnoc(UnitsOf, reservations, a);
    assert (Map(UnitsOf, reservations) + [a.units])[..|reservations|] == Map(UnitsOf, reservations);
  }

  lemma QuotientNonNegative(a: real, b: real)
    requires a >= 0.0 && b > 0.0
    ensures a / b >= 0.0
  {
  }

  // Fairness and utilization always report fractions.
  lemma IndicatorsInRange(allocations: seq<Allocation>, cs: seq<ScheduleCandidate>, beams: seq<Beam>)
    requires forall a :: a in allocations ==> a.units >= 0.0
    ensures 0.0 <= JainIndex(Shares(allocations, cs)) <= 1.0
    ensures 0.0 <= UtilizationOf(allocations, beams) <= 1.0
  {
    forall i | 0 <= i < |cs| ensures Shares(allocations, cs)[i] >= 0.0 {
      ShareNonNegative(allocations, cs[i].request.id);
    }
    JainRange(Shares(allocations, cs));
    SumBounds(Map(UnitsOf, allocations));
    if TotalCapacity(beams) > 0.0 {
      QuotientNonNegative(TotalUnits(allocations), TotalCapacity(beams));
    }
  }

  // ------------------------------------------------------------------ what the indicators say

  // What the allocations give a request: the units of the one naming it, or nothing.
  ghost predicate GetsShare(allocations: seq<Allocation>, id: RequestId, share: real) {
    if exists a :: a in allocations && a.requestId == id then
      exists a :: a in allocations && a.requestId == id && a.units == share
    else share == 0.0
  }

  ghost predicate SharesOut(allocations: seq<Allocation>, cs: seq<ScheduleCandidate>, shares: seq<real>) {
    |shares| == |cs| && forall i :: 0 <= i < |cs| ==> GetsShare(allocations, cs[i].request.id, shares[i])
  }

  // Utilization is the part of all capacity that was granted, at most one; fairness is Jain's index of
  // the airtime each candidate got: one for nobody, zero when nothing was granted, and else the
  // squared sum over the number of candidates times the sum of squares.
  ghost predicate ReportedExactly(cs: seq<ScheduleCandidate>, beams: seq<Beam>, r: SchedulingResult,
                                  shares: seq<real>) {
    var capacity, granted := Sum(Map((b: Beam) => b.capacity, beams)), TotalOf(r.allocations);
    && SharesOut(r.allocations, cs, shares)
    && (if capacity > 0.0 then Product(r.utilization, capacity) == Min(capacity, granted) else r.utilization == 0.0)
    && IsJain(shares, r.fairness)
  }

  ghost predicate IsJain(shares: seq<real>, fairness: real) {
    var n, squares := |shares| as real, Sum(Map((x: real) => Product(x, x), shares));
    && (shares == [] ==> fairness == 1.0)
    && (shares != [] && Sum(shares) <= 0.0 ==> fairness == 0.0)
    && (Sum(shares) > 0.0 ==> Product(fairness, Product(n, squares)) == Product(Sum(shares), Sum(shares)))
  }

  function TotalOf(allocations: seq<Allocation>): real {
    Sum(Map((a: Allocation) => a.units, allocations))
  }

  lemma {:induction false} ShareIsGiven(allocations: seq<Allocation>, id: RequestId)
    ensures GetsShare(allocations, id, ShareOf(allocations, id))
  {
    if allocations != [] {
      var n := |allocations| - 1;
      ShareIsGiven(allocations[..n], id);
      assert allocations[n] in allocations;
      assert forall a :: a in allocations <==> a in allocations[..n] || a == allocations[n];
    }
  }

  lemma UtilizationIsPart(allocations: seq<Allocation>, beams: seq<Beam>)
    ensures var capacity, u := TotalCapacity(beams), UtilizationOf(allocations, beams);
      if capacity > 0.0 then Product(u, capacity) == Min(capacity, TotalUnits(allocations)) else u == 0.0
  {
    var capacity, units := TotalCapacity(beams), TotalUnits(allocations);
    if capacity > 0.0 {
      QuotientTimes(units, capacity);
      assert Product(1.0, capacity) == capacity;
      if units / capacity > 1.0 {
        ScaleUp(1.0, units / capacity, capacity);
      } else {
        ProductMonotone(capacity, units / capacity, 1.0);
        assert Product(capacity, units / capacity) == Product(units / capacity, capacity);
        assert Product(capacity, 1.0) == capacity;
      }
    }
  }

  lemma IndexIsJain(shares: seq<real>)
    ensures IsJain(shares, JainIndex(shares))
  {
    assert Map((x: real) => Product(x, x), shares) == Map(Square, shares);
    if Sum(shares) > 0.0 {
      PositiveSquares(shares);
      QuotientTimes(Square(Sum(shares)), Product(|shares| as real, Squares(shares)));
    }
  }

  lemma ConclusionIsExact(cs: seq<ScheduleCandidate>, beams: seq<Beam>, allocations: seq<Allocation>,
                          served: seq<ServiceRequest>, deferred: seq<ServiceRequest>, dropped: seq<RejectedRequest>)
    returns (shares: seq<real>)
    ensures ReportedExactly(cs, beams, Conclude(cs, beams, allocations, served, deferred, dropped), shares)
  {
    shares := Shares(allocations, cs);
    assert Map((b: Beam) => b.capacity, beams) == Map(CapacityOf, beams);
    assert Map((a: Allocation) => a.units, allocations) == Map(UnitsOf, allocations);
    UtilizationIsPart(allocations, beams);
    forall i | 0 <= i < |cs| ensures GetsShare(allocations, cs[i].request.id, shares[i]) {
      ShareIsGiven(allocations, cs[i].request.id);
    }
    IndexIsJain(shares);
    hide IsJain, JainIndex, UtilizationOf, TotalCapacity, TotalUnits, ShareOf, GetsShare;
  }

  // Every candidate has exactly one verdict, and exactly the expired ones are dropped.
  ghost predicate Decided(cs: seq<ScheduleCandidate>, placed: seq<Placed>,
                          deferred: seq<ScheduleCandidate>, expired: seq<ScheduleCandidate>, step: int) {
    && multiset(cs) == multiset(Map(PlacedCandidate, placed)) + multiset(deferred) + multiset(expired)
    && (forall c :: c in expired <==> c in cs && c.request.IsExpired(step))
  }

  // With unique ids, a deferred request names its candidate.
  lemma DeferredIsCandidate(cs: seq<ScheduleCandidate>, ordered: seq<ScheduleCandidate>, placed: seq<Placed>,
                            deferred: seq<ScheduleCandidate>, expired: seq<ScheduleCandidate>, step: int,
                            c: ScheduleCandidate)
    requires UniqueIds(cs) && c in cs && c.request in Map(RequestOf, deferred)
    requires multiset(cs) == multiset(ordered) && Decided(ordered, placed, deferred, expired, step)
    ensures c in deferred
  {
    MapMember(RequestOf, deferred, c.request);
    var d :| d in deferred && d.request == c.request;
    assert d in multiset(deferred);
    assert d in multiset(cs);
  }

  // One more candidate with one more verdict.
  lemma DecideOne(cs: seq<ScheduleCandidate>, placed: seq<Placed>, deferred: seq<ScheduleCandidate>,
                  expired: seq<ScheduleCandidate>, step: int, c: ScheduleCandidate)
    requires cs != [] && cs[|cs| - 1] == c && Decided(cs[..|cs| - 1], placed, deferred, expired, step)
    ensures c.request.IsExpired(step) ==> Decided(cs, placed, deferred, expired + [c], step)
    ensures !c.request.IsExpired(step) ==> Decided(cs, placed, deferred + [c], expired, step)
    ensures forall a: Allocation :: !c.request.IsExpired(step) ==>
      Decided(cs, placed + [Placed(c, a)], deferred, expired, step)
  {
    assert cs == cs[..|cs| - 1] + [c];
    forall a: Allocation
      ensures multiset(Map(PlacedCandidate, placed + [Placed(c, a)]))
        == multiset(Map(PlacedCandidate, placed)) + multiset{c}
    {
      MapSnoc(PlacedCandidate, placed, Placed(c, a));
    }
  }

  // Verdicts on a reordering of the candidates partition the candidates' requests.
  lemma PartitionOfRequests(cs: seq<ScheduleCandidate>, ordered: seq<ScheduleCandidate>, placed: seq<Placed>,
                            deferred: seq<ScheduleCandidate>, expired: seq<ScheduleCandidate>, step: int)
    requires multiset(cs) == multiset(ordered) && Decided(ordered, placed, deferred, expired, step)
    ensures multiset(Map(RequestOf, cs))
      == multiset(Map(PlacedRequest, placed) + Map(RequestOf, deferred) + Map(RejectedOf, Map(DeadlineMiss, expired)))
  {
    var all := Map(PlacedCandidate, placed) + deferred + expired;
    MapPermutation(RequestOf, cs, all);
    assert Map(RequestOf, all)
      == Map(PlacedRequest, placed) + Map(RequestOf, deferred) + Map(RejectedOf, Map(DeadlineMiss, expired));
  }

  // Legal placements within capacity that partition the candidates make a sound result.
  lemma ReportIsSound(cs: seq<ScheduleCandidate>, beams: seq<Beam>, step: int, slack: real, placed: seq<Placed>,
                      deferred: seq<ScheduleCandidate>, expired: seq<ScheduleCandidate>)
    requires multiset(Map(RequestOf, cs))
      == multiset(Map(PlacedRequest, placed) + Map(RequestOf, deferred) + Map(RejectedOf, Map(DeadlineMiss, expired)))
    requires forall pl :: pl in placed ==> pl.candidate in cs && LegalGrant(pl.candidate, pl.allocation, beams, step)
    requires forall c :: c in expired ==> c.request.IsExpired(step)
    requires WithinCapacity(Map(PlacedAllocation, placed), beams, slack)
    ensures Sound(cs, beams, step, slack,
                  Conclude(cs, beams, Map(PlacedAllocation, placed), Map(PlacedRequest, placed),
                           Map(RequestOf, deferred), Map(DeadlineMiss, expired)))
  {
    var allocations, served := Map(PlacedAllocation, placed), Map(PlacedRequest, placed);
    forall i | 0 <= i < |placed|
      ensures LegalService(served[i], allocations[i], cs, beams, step) && allocations[i].units >= 0.0
    {
      assert placed[i] in placed;
      assert LegalGrant(placed[i].candidate, placed[i].allocation, beams, step);
    }
    assert forall i :: 0 <= i < |expired| ==> expired[i] in expired;
    IndicatorsInRange(allocations, cs, beams);
  }
}
