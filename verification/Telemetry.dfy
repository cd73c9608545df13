// Per-step counters: totals, tallies per class, region, fleet and reason, and indicators.
module Telemetry {
  import opened Domain
  import opened Collections
  import opened SchedulerPort
  import opened Planning

  datatype StepCounters = StepCounters(
    step: int,
    admitted: nat, rejected: nat, served: nat, deferred: nat, dropped: nat, degraded: nat,
    servedByClass: map<TrafficClass, nat>,
    servedByRegion: map<Region, nat>,
    servedByFleet: map<FleetId, nat>,
    rejectedByReason: map<RejectReason, nat>,
    servedWaitSteps: seq<int>,
    fairness: real, utilization: real, collapseRisk: real,
    queueDepth: int, offeredLoad: real, availableCapacity: real,
    degradeMode: DegradeMode, fallbackActivations: nat, breakerTrips: nat)
  {
    function ShedByAdmission(): nat {
      if AdmissionShed in rejectedByReason then rejectedByReason[AdmissionShed] else 0
    }

    function Handled(): nat {
      served + deferred + dropped + rejected
    }

    // What a planner may rely on: indicators are fractions, and shed requests are among the rejected.
    ghost predicate InRange() {
      && 0.0 <= utilization <= 1.0
      && 0.0 <= collapseRisk <= 1.0
      && 0.0 <= fairness <= 1.0
      && ShedByAdmission() <= Handled()
    }
  }

  function At<K>(tally: map<K, nat>, k: K): nat {
    if k in tally then tally[k] else 0
  }

  // The dictionary counts exactly the occurrences in the multiset, and has no other keys.
  ghost predicate Tallies<K(!new)>(tally: map<K, nat>, items: multiset<K>) {
    && (forall k :: k in tally <==> k in items)
    && (forall k :: k in tally ==> tally[k] == items[k])
  }

  lemma TallyOne<K(!new)>(tally: map<K, nat>, items: multiset<K>, k: K)
    requires Tallies(tally, items)
    ensures Tallies(tally[k := At(tally, k) + 1], items + multiset{k})
  {
  }

  lemma TallyNext<A, K(!new)>(tally: map<K, nat>, f: A -> K, items: seq<A>, i: nat)
    requires i < |items| && Tallies(tally, multiset(Map(f, items[..i])))
    ensures Tallies(tally[f(items[i]) := At(tally, f(items[i])) + 1], multiset(Map(f, items[..i + 1])))
  {
    hide Tallies;
    assert items[..i + 1] == items[..i] + [items[i]];
    MapSnoc(f, items[..i], items[i]);
    MultisetSnoc(Map(f, items[..i]), f(items[i]));
    TallyOne(tally, multiset(Map(f, items[..i])), f(items[i]));
  }

  // Sum of all counts of a dictionary.
  ghost function Total<K>(tally: map<K, nat>): nat {
    if tally == map[] then 0
    else
      var k :| k in tally;
      tally[k] + Total(tally - {k})
  }

  // The counts of a tally add up to the number of things tallied.
  lemma {:induction false} TalliesAddUp<K(!new)>(tally: map<K, nat>, items: multiset<K>)
    requires Tallies(tally, items)
    ensures Total(tally) == |items|
    decreases |tally|
  {
    if tally == map[] {
      assert items == multiset{};
    } else {
      var k :| k in tally && Total(tally) == tally[k] + Total(tally - {k});
      assert |items[k := 0]| == |items| - items[k];
      TalliesAddUp(tally - {k}, items[k := 0]);
    }
  }

  function ClassOf(r: ServiceRequest): TrafficClass {
    r.trafficClass
  }

  function RegionOf(r: ServiceRequest): Region {
    r.region
  }

  function FleetOf(a: Allocation): FleetId {
    a.fleet
  }

  function ReasonOf(r: RejectedRequest): RejectReason {
    r.reason
  }

  function DegradedIn(allocations: seq<Allocation>): nat {
    if allocations == [] then 0
    else
      var n := |allocations| - 1;
      DegradedIn(allocations[..n]) + if allocations[n].degraded then 1 else 0
  }

  function Waits(step: int, served: seq<ServiceRequest>): seq<int> {
    seq(|served|, i requires 0 <= i < |served| => served[i].WaitingSteps(step))
  }

  // What a step's counters say about the step's dispositions.
  ghost predicate Counts(c: StepCounters, served: seq<ServiceRequest>, allocations: seq<Allocation>, deferred: nat,
                         dropped: seq<RejectedRequest>, rejected: seq<RejectedRequest>) {
    && c.served == |served| && c.deferred == deferred && c.dropped == |dropped| && c.rejected == |rejected|
    && Tallies(c.servedByClass, multiset(Map(ClassOf, served)))
    && Tallies(c.servedByRegion, multiset(Map(RegionOf, served)))
    && Tallies(c.servedByFleet, multiset(Map(FleetOf, allocations)))
    && Tallies(c.rejectedByReason, multiset(Map(ReasonOf, dropped + rejected)))
    && c.degraded == DegradedIn(allocations)
    && c.servedWaitSteps == Waits(c.step, served)
  }

  // Whatever was counted, the tallies add up to the totals.
  lemma CountsAddUp(c: StepCounters, served: seq<ServiceRequest>, allocations: seq<Allocation>, deferred: nat,
                    dropped: seq<RejectedRequest>, rejected: seq<RejectedRequest>)
    requires Counts(c, served, allocations, deferred, dropped, rejected) && |allocations| == |served|
    ensures Total(c.servedByClass) == Total(c.servedByRegion) == Total(c.servedByFleet) == c.served
    ensures Total(c.rejectedByReason) == c.dropped + c.rejected
  {
    TalliesAddUp(c.servedByClass, multiset(Map(ClassOf, served)));
    TalliesAddUp(c.servedByRegion, multiset(Map(RegionOf, served)));
    TalliesAddUp(c.servedByFleet, multiset(Map(FleetOf, allocations)));
    TalliesAddUp(c.rejectedByReason, multiset(Map(ReasonOf, dropped + rejected)));
  }

  function Places<A, K(!new, ==)>(f: A -> K, items: seq<A>, k: K): set<int> {
    set i | 0 <= i < |items| && f(items[i]) == k
  }

  lemma {:induction false} CopiesArePlaces<A, K(!new)>(f: A -> K, items: seq<A>, k: K)
    ensures multiset(Map(f, items))[k] == |Places(f, items, k)|
  {
    if items != [] {
      var n := |items| - 1;
      CopiesArePlaces(f, items[..n], k);
      MapLast(f, items);
      var fewer := Places(f, items[..n], k);
      assert n !in fewer;
      assert Places(f, items, k) == if f(items[n]) == k then fewer + {n} else fewer;
    }
  }

  lemma {:induction false} DegradedArePlaces(allocations: seq<Allocation>)
    ensures DegradedIn(allocations) == |set i | 0 <= i < |allocations| && allocations[i].degraded|
  {
    if allocations != [] {
      var n := |allocations| - 1;
      DegradedArePlaces(allocations[..n]);
      var fewer := set i | 0 <= i < n && allocations[..n][i].degraded;
      assert n !in fewer;
      assert (set i | 0 <= i < |allocations| && allocations[i].degraded)
        == if allocations[n].degraded then fewer + {n} else fewer;
    }
  }

  // Every count is the number of dispositions it is about, and every wait is from arrival to service.
  ghost predicate CountsExactly(c: StepCounters, served: seq<ServiceRequest>, allocations: seq<Allocation>,
                                gone: seq<RejectedRequest>) {
    && (forall k :: At(c.servedByClass, k) == |set i | 0 <= i < |served| && served[i].trafficClass == k|)
    && (forall k :: At(c.servedByRegion, k) == |set i | 0 <= i < |served| && served[i].region == k|)
    && (forall k :: At(c.servedByFleet, k) == |set i | 0 <= i < |allocations| && allocations[i].fleet == k|)
    && (forall k :: At(c.rejectedByReason, k) == |set i | 0 <= i < |gone| && gone[i].reason == k|)
    && c.degraded == |set i | 0 <= i < |allocations| && allocations[i].degraded|
    && |c.servedWaitSteps| == |served|
    && forall i :: 0 <= i < |served| ==>
      c.servedWaitSteps[i] == if c.step > served[i].arrivalStep then c.step - served[i].arrivalStep else 0
  }

  lemma TallyIsPlaces<A, K(!new)>(tally: map<K, nat>, f: A -> K, items: seq<A>)
    requires Tallies(tally, multiset(Map(f, items)))
    ensures forall k :: At(tally, k) == |Places(f, items, k)|
  {
    forall k ensures At(tally, k) == |Places(f, items, k)| {
      CopiesArePlaces(f, items, k);
    }
  }

  lemma ClassPlaces(tally: map<TrafficClass, nat>, served: seq<ServiceRequest>, k: TrafficClass)
    requires Tallies(tally, multiset(Map(ClassOf, served)))
    ensures At(tally, k) == |set i | 0 <= i < |served| && served[i].trafficClass == k|
  {
    TallyIsPlaces(tally, ClassOf, served);
    assert Places(ClassOf, served, k) == set i | 0 <= i < |served| && served[i].trafficClass == k;
  }

  lemma RegionPlaces(tally: map<Region, nat>, served: seq<ServiceRequest>, k: Region)
    requires Tallies(tally, multiset(Map(RegionOf, served)))
    ensures At(tally, k) == |set i | 0 <= i < |served| && served[i].region == k|
  {
    TallyIsPlaces(tally, RegionOf, served);
    assert Places(RegionOf, served, k) == set i | 0 <= i < |served| && served[i].region == k;
  }

  lemma FleetPlaces(tally: map<FleetId, nat>, allocations: seq<Allocation>, k: FleetId)
    requires Tallies(tally, multiset(Map(FleetOf, allocations)))
    ensures At(tally, k) == |set i | 0 <= i < |allocations| && allocations[i].fleet == k|
  {
    TallyIsPlaces(tally, FleetOf, allocations);
    assert Places(FleetOf, allocations, k) == set i | 0 <= i < |allocations| && allocations[i].fleet == k;
  }

  lemma ReasonPlaces(tally: map<RejectReason, nat>, gone: seq<RejectedRequest>, k: RejectReason)
    requires Tallies(tally, multiset(Map(ReasonOf, gone)))
    ensures At(tally, k) == |set i | 0 <= i < |gone| && gone[i].reason == k|
  {
    TallyIsPlaces(tally, ReasonOf, gone);
    assert Places(ReasonOf, gone, k) == set i | 0 <= i < |gone| && gone[i].reason == k;
  }

  lemma CountsAreExact(c: StepCounters, served: seq<ServiceRequest>, allocations: seq<Allocation>, deferred: nat,
                       dropped: seq<RejectedRequest>, rejected: seq<RejectedRequest>)
    requires Counts(c, served, allocations, deferred, dropped, rejected)
    ensures CountsExactly(c, served, allocations, dropped + rejected)
  {
    DegradedArePlaces(allocations);
    hide Tallies, At, DegradedIn;
    forall k { ClassPlaces(c.servedByClass, served, k); }
    forall k { RegionPlaces(c.servedByRegion, served, k); }
    forall k { FleetPlaces(c.servedByFleet, allocations, k); }
    forall k { ReasonPlaces(c.rejectedByReason, dropped + rejected, k); }
  }

  method TallyServed(served: seq<ServiceRequest>) returns (byClass: map<TrafficClass, nat>, byRegion: map<Region, nat>)
    ensures Tallies(byClass, multiset(Map(ClassOf, served))) && Tallies(byRegion, multiset(Map(RegionOf, served)))
  {
    byClass, byRegion := map[], map[];
    assert Map(ClassOf, served[..0]) == [] && Map(RegionOf, served[..0]) == [];
    for i := 0 to |served|
      invariant Tallies(byClass, multiset(Map(ClassOf, served[..i])))
        && Tallies(byRegion, multiset(Map(RegionOf, served[..i])))
    {
      hide Tallies;
      TallyNext(byClass, ClassOf, served, i);
      TallyNext(byRegion, RegionOf, served, i);
      byClass := byClass[served[i].trafficClass := At(byClass, served[i].trafficClass) + 1];
      byRegion := byRegion[served[i].region := At(byRegion, served[i].region) + 1];
    }
    assert served[..|served|] == served;
  }

  lemma AllocationStep(byFleet: map<FleetId, nat>, allocations: seq<Allocation>, i: nat)
    requires i < |allocations| && Tallies(byFleet, multiset(Map(FleetOf, allocations[..i])))
    ensures var a := allocations[i];
      && Tallies(byFleet[a.fleet := At(byFleet, a.fleet) + 1], multiset(Map(FleetOf, allocations[..i + 1])))
      && TotalUnits(allocations[..i + 1]) == TotalUnits(allocations[..i]) + a.units
      && DegradedIn(allocations[..i + 1]) == DegradedIn(allocations[..i]) + if a.degraded then 1 else 0
  {
    var a, before := allocations[i], allocations[..i];
    assert allocations[..i + 1] == before + [a] && (before + [a])[..i] == before;
    UnitsAdd(before, a);
    TallyNext(byFleet, FleetOf, allocations, i);
  }

  method TallyAllocations(allocations: seq<Allocation>) returns (byFleet: map<FleetId, nat>, units: real, degraded: nat)
    ensures Tallies(byFleet, multiset(Map(FleetOf, allocations)))
    ensures units == TotalUnits(allocations) && degraded == DegradedIn(allocations)
  {
    byFleet, units, degraded := map[], 0.0, 0;
    for i := 0 to |allocations|
      invariant Tallies(byFleet, multiset(Map(FleetOf, allocations[..i])))
      invariant units == TotalUnits(allocations[..i]) && degraded == DegradedIn(allocations[..i])
    {
      var a := allocations[i];
      AllocationStep(byFleet, allocations, i);
      byFleet := byFleet[a.fleet := At(byFleet, a.fleet) + 1];
      units := units + a.units;
      if a.degraded {
        degraded := degraded + 1;
      }
    }
    assert allocations[..|allocations|] == allocations;
  }

  method TallyReasons(items: seq<RejectedRequest>) returns (byReason: map<RejectReason, nat>)
    ensures Tallies(byReason, multiset(Map(ReasonOf, items)))
  {
    byReason := map[];
    for i := 0 to |items|
      invariant Tallies(byReason, multiset(Map(ReasonOf, items[..i])))
    {
      TallyNext(byReason, ReasonOf, items, i);
      byReason := byReason[items[i].reason := At(byReason, items[i].reason) + 1];
    }
    assert items[..|items|] == items;
  }

  lemma CountBound<K>(items: multiset<K>, k: K)
    ensures items[k] <= |items|
  {
    assert |items[k := 0]| == |items| - items[k];
  }

  // Inputs on which the indicators are fractions.
  ghost predicate Measurable(allocations: seq<Allocation>, fairness: real, congestion: CongestionState) {
    (forall a :: a in allocations ==> a.units >= 0.0) && 0.0 <= fairness <= 1.0 && congestion.dropRate >= 0.0
  }

  // What a step's counters say about its congestion, its beams and its airtime.
  ghost predicate Measures(c: StepCounters, congestion: CongestionState, beams: seq<Beam>,
                           allocations: seq<Allocation>, fairness: real) {
    && c.fairness == fairness
    && c.utilization == (if TotalCapacity(beams) > 0.0
      then Min(1.0, TotalUnits(allocations) / TotalCapacity(beams)) else 0.0)
    && c.collapseRisk == congestion.CollapseRisk()
    && c.queueDepth == congestion.queueDepth
    && c.offeredLoad == congestion.offeredLoad
    && c.availableCapacity == congestion.availableCapacity
  }

  method BuildCounters(step: int, congestion: CongestionState, beams: seq<Beam>, served: seq<ServiceRequest>,
                       allocations: seq<Allocation>, deferred: nat, dropped: seq<RejectedRequest>,
                       rejected: seq<RejectedRequest>, admitted: nat, fairness: real, mode: DegradeMode,
                       fallbacks: nat, trips: nat)
    returns (c: StepCounters)
    ensures c.step == step && c.admitted == admitted && c.degradeMode == mode
    ensures c.fallbackActivations == fallbacks && c.breakerTrips == trips
    ensures Counts(c, served, allocations, deferred, dropped, rejected)
    ensures Measures(c, congestion, beams, allocations, fairness)
    ensures Measurable(allocations, fairness, congestion) ==> c.InRange()
  {
    var byClass, byRegion := TallyServed(served);
    var byFleet, units, degraded := TallyAllocations(allocations);
    var byReason := TallyReasons(dropped + rejected);
    if Measurable(allocations, fairness, congestion) {
      IndicatorsInRange(allocations, [], beams);
    }
    c := StepCounters(step, admitted, |rejected|, |served|, deferred, |dropped|, degraded, byClass, byRegion, byFleet,
                      byReason, Waits(step, served), fairness,
                      Min(1.0, if TotalCapacity(beams) > 0.0 then units / TotalCapacity(beams) else 0.0),
                      congestion.CollapseRisk(), congestion.queueDepth, congestion.offeredLoad,
                      congestion.availableCapacity, mode, fallbacks, trips);
    CountBound(multiset(Map(ReasonOf, dropped + rejected)), AdmissionShed);
  }
}
