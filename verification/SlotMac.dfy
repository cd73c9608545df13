// Granted access: whole resource blocks (RBs) of a beam's grid, highest score first.
module SlotMac {
  import opened Domain
  import opened Reals
  import opened Collections
  import opened SchedulerPort
  import opened LinkAdaptation

  // Airtime one RB of the beam carries.
  function RbUnits(m: MacConfig, beam: Beam): real {
    if m.rbsPerBeam > 0 then beam.capacity / m.rbsPerBeam as real else 0.0
  }

  function LeastOf(a: nat, b: nat): nat {
    if a <= b then a else b
  }

  // The per-request RB cap, which defaults to the need itself.
  function RequestCap(m: MacConfig, needed: nat): nat {
    if m.maxRbsPerRequest.Some? && m.maxRbsPerRequest.value > 0 then m.maxRbsPerRequest.value else needed
  }

  function Assignable(m: MacConfig, c: ScheduleCandidate, beam: Beam, free: nat): nat
    requires m.mcsTable != [] && Eligible(c, beam)
  {
    var limit := OptionLimit(c.options, beam.fleet, beam.band).value;
    LeastOf(LeastOf(free, RequestCap(m, RbsNeeded(m, c.request))), RegulatoryCapRbs(limit, RbUnits(m, beam), free))
  }

  function GridKey(m: MacConfig, c: ScheduleCandidate, beam: Beam, free: nat): Option<real>
    requires m.mcsTable != []
  {
    if Eligible(c, beam) && Assignable(m, c, beam, free) > 0 then Some(Assignable(m, c, beam, free) as real) else None
  }

  function GridKeys(m: MacConfig, c: ScheduleCandidate, beams: seq<Beam>, free: seq<nat>): seq<Option<real>>
    requires m.mcsTable != [] && |beams| == |free|
  {
    seq(|beams|, i requires 0 <= i < |beams| => GridKey(m, c, beams[i], free[i]))
  }

  datatype Grant = Grant(beam: nat, rbs: nat, degraded: bool)

  function RbFloor(m: MacConfig, needed: nat): int {
    Ceil(Product(m.degradeMinFraction, LeastOf(needed, RequestCap(m, needed)) as real))
  }

  function Place(m: MacConfig, c: ScheduleCandidate, beams: seq<Beam>, free: seq<nat>): (g: Option<Grant>)
    requires m.mcsTable != [] && |beams| == |free|
    ensures g.Some? ==> g.value.beam < |beams| && g.value.rbs <= free[g.value.beam]
  {
    var needed := RbsNeeded(m, c.request);
    var best := Best(GridKeys(m, c, beams, free));
    if best.None? then None
    else
      var i := best.value;
      assert GridKeys(m, c, beams, free)[i] == GridKey(m, c, beams[i], free[i]);
      var assignable := Assignable(m, c, beams[i], free[i]);
      if needed <= RequestCap(m, needed) && assignable >= needed then Some(Grant(i, needed, false))
      else if c.degradable && assignable >= RbFloor(m, needed) then Some(Grant(i, assignable, true))
      else None
  }

  function Take(free: seq<nat>, g: Grant): seq<nat>
    requires g.beam < |free| && g.rbs <= free[g.beam]
  {
    free[g.beam := free[g.beam] - g.rbs]
  }

  function AllocationFor(m: MacConfig, c: ScheduleCandidate, beam: Beam, g: Grant): Allocation {
    Allocation(c.request.id, beam.fleet, beam.id, beam.band, Product(g.rbs as real, RbUnits(m, beam)),
               Clamp01(c.request.linkQuality), g.degraded)
  }

  // ------------------------------------------------------------------ the greedy pass as a fold

  datatype Granted = Granted(candidate: ScheduleCandidate, grant: Grant, allocation: Allocation)

  function ToPlaced(g: Granted): Placed {
    Placed(g.candidate, g.allocation)
  }

  datatype Run = Run(free: seq<nat>, granted: seq<Granted>, deferred: seq<ScheduleCandidate>,
    expired: seq<ScheduleCandidate>)
  {
    function Placements(): seq<Placed> {
      Map(ToPlaced, granted)
    }

    function Allocations(): seq<Allocation> {
      Map(PlacedAllocation, Placements())
    }
  }

  function Advance(m: MacConfig, beams: seq<Beam>, step: int, run: Run, c: ScheduleCandidate): (r: Run)
    requires m.mcsTable != [] && |run.free| == |beams|
    ensures |r.free| == |beams|
  {
    if c.request.IsExpired(step) then run.(expired := run.expired + [c])
    else
      match Place(m, c, beams, run.free)
      case None => run.(deferred := run.deferred + [c])
      case Some(g) =>
        run.(free := Take(run.free, g), granted := run.granted + [Granted(c, g, AllocationFor(m, c, beams[g.beam], g))])
  }

  function RunOver(m: MacConfig, beams: seq<Beam>, step: int, cs: seq<ScheduleCandidate>): (r: Run)
    requires m.mcsTable != []
    ensures |r.free| == |beams|
  {
    if cs == [] then Run(seq(|beams|, _ => m.rbsPerBeam), [], [], [])
    else Advance(m, beams, step, RunOver(m, beams, step, cs[..|cs| - 1]), cs[|cs| - 1])
  }

  function Report(run: Run, cs: seq<ScheduleCandidate>, beams: seq<Beam>): SchedulingResult {
    Conclude(cs, beams, run.Allocations(), Map(PlacedRequest, run.Placements()),
             Map(RequestOf, run.deferred), Map(DeadlineMiss, run.expired))
  }

  function ScheduleOf(m: MacConfig, cs: seq<ScheduleCandidate>, beams: seq<Beam>, step: int): SchedulingResult
    requires m.mcsTable != []
  {
    Report(RunOver(m, beams, step, Sort(Priority, cs)), cs, beams)
  }

  // ------------------------------------------------------------------ the allocator

  // One pass over the grids: the first eligible one offering the most assignable RBs.
  method Scan(m: MacConfig, c: ScheduleCandidate, beams: seq<Beam>, free: array<nat>)
    returns (best: Option<nat>, bestAssignable: nat)
    requires m.mcsTable != [] && free.Length == |beams|
    ensures best == Best(GridKeys(m, c, beams, free[..]))
    ensures best.Some? ==>
      Eligible(c, beams[best.value]) && bestAssignable == Assignable(m, c, beams[best.value], free[best.value])
  {
    var cap := RequestCap(m, RbsNeeded(m, c.request));
    best, bestAssignable := None, 0;
    ghost var keys := GridKeys(m, c, beams, free[..]);
    for i := 0 to |beams|
      invariant best == Best(keys[..i])
      invariant if best.Some? then keys[best.value] == Some(bestAssignable as real) else bestAssignable == 0
    {
      BestSnoc(keys, i);
      assert keys[i] == GridKey(m, c, beams[i], free[i]);
      var limit := OptionLimit(c.options, beams[i].fleet, beams[i].band);
      if beams[i].region == c.request.region && limit.Some? {
        var regCap := RegulatoryCapRbs(limit.value, RbUnits(m, beams[i]), free[i]);
        var assignable := LeastOf(LeastOf(free[i], cap), regCap);
        if assignable > bestAssignable {
          best, bestAssignable := Some(i), assignable;
        }
      }
    }
    assert keys[..|beams|] == keys;
    if best.Some? {
      assert keys[best.value] == GridKey(m, c, beams[best.value], free[best.value]);
    }
  }

  method Assign(m: MacConfig, c: ScheduleCandidate, beams: seq<Beam>, free: array<nat>) returns (a: Option<Allocation>)
    requires m.mcsTable != [] && free.Length == |beams|
    modifies free
    ensures var g := Place(m, c, beams, old(free[..]));
      && a == (if g.Some? then Some(AllocationFor(m, c, beams[g.value.beam], g.value)) else None)
      && free[..] == (if g.Some? then Take(old(free[..]), g.value) else old(free[..]))
  {
    var needed := RbsNeeded(m, c.request);
    var cap := RequestCap(m, needed);
    var best, bestAssignable := Scan(m, c, beams, free);
    if best.None? {
      return None;
    }
    if needed <= cap && bestAssignable >= needed {
      a := GrantRbs(m, c, beams, free, Grant(best.value, needed, false));
    } else if c.degradable && bestAssignable >= RbFloor(m, needed) {
      a := GrantRbs(m, c, beams, free, Grant(best.value, bestAssignable, true));
    } else {
      a := None;
    }
  }

  method GrantRbs(m: MacConfig, c: ScheduleCandidate, beams: seq<Beam>, free: array<nat>, g: Grant)
    returns (a: Option<Allocation>)
    requires free.Length == |beams| && g.beam < |beams| && g.rbs <= free[g.beam]
    modifies free
    ensures a == Some(AllocationFor(m, c, beams[g.beam], g))
    ensures free[..] == Take(old(free[..]), g)
  {
    free[g.beam] := free[g.beam] - g.rbs;
    a := Some(AllocationFor(m, c, beams[g.beam], g));
  }

  // The result lists so far say what the pass so far decided.
  ghost predicate Reports(run: Run, allocations: seq<Allocation>, served: seq<ServiceRequest>,
                          deferred: seq<ServiceRequest>, dropped: seq<RejectedRequest>) {
    && allocations == run.Allocations() && served == Map(PlacedRequest, run.Placements())
    && deferred == Map(RequestOf, run.deferred) && dropped == Map(DeadlineMiss, run.expired)
  }

  lemma ReportsMore(run: Run, allocations: seq<Allocation>, served: seq<ServiceRequest>,
                    deferred: seq<ServiceRequest>, dropped: seq<RejectedRequest>, c: ScheduleCandidate)
    requires Reports(run, allocations, served, deferred, dropped)
    ensures Reports(run.(expired := run.expired + [c]), allocations, served, deferred, dropped + [DeadlineMiss(c)])
    ensures Reports(run.(deferred := run.deferred + [c]), allocations, served, deferred + [c.request], dropped)
  {
    MapSnoc(DeadlineMiss, run.expired, c);
    MapSnoc(RequestOf, run.deferred, c);
    hide Map;
  }

  lemma ReportsGrant(run: Run, allocations: seq<Allocation>, served: seq<ServiceRequest>,
                     deferred: seq<ServiceRequest>, dropped: seq<RejectedRequest>, g: Granted)
    requires Reports(run, allocations, served, deferred, dropped)
    ensures forall free :: Reports(run.(granted := run.granted + [g], free := free), allocations + [g.allocation],
                                   served + [g.candidate.request], deferred, dropped)
  {
    RecordGrant(run, g);
    hide Map;
  }

  lemma ReportsAreReported(run: Run, allocations: seq<Allocation>, served: seq<ServiceRequest>,
                           deferred: seq<ServiceRequest>, dropped: seq<RejectedRequest>,
                           cs: seq<ScheduleCandidate>, beams: seq<Beam>)
    requires Reports(run, allocations, served, deferred, dropped)
    ensures Report(run, cs, beams) == Conclude(cs, beams, allocations, served, deferred, dropped)
  {
  }

  method Schedule(m: MacConfig, cs: seq<ScheduleCandidate>, beams: seq<Beam>, step: int) returns (r: SchedulingResult)
    requires m.mcsTable != []
    ensures r == ScheduleOf(m, cs, beams, step)
  {
    var free := new nat[|beams|](_ => m.rbsPerBeam);
    var allocations: seq<Allocation>, served: seq<ServiceRequest> := [], [];
    var deferred: seq<ServiceRequest>, dropped: seq<RejectedRequest> := [], [];
    var ordered := Sort(Priority, cs);
    assert RunOver(m, beams, step, ordered[..0]) == Run(free[..], [], [], []);
    assert Reports(RunOver(m, beams, step, ordered[..0]), allocations, served, deferred, dropped);
    hide RunOver, Place, AllocationFor, Reports, Sort;
    for i := 0 to |ordered|
      invariant free[..] == RunOver(m, beams, step, ordered[..i]).free
      invariant Reports(RunOver(m, beams, step, ordered[..i]), allocations, served, deferred, dropped)
    {
      ghost var run := RunOver(m, beams, step, ordered[..i]);
      var candidate := ordered[i];
      RunNext(m, beams, step, ordered, i);
      if candidate.request.IsExpired(step) {
        ReportsMore(run, allocations, served, deferred, dropped, candidate);
        dropped := dropped + [DeadlineMiss(candidate)];
      } else {
        ghost var g := Place(m, candidate, beams, run.free);
        var allocation := Assign(m, candidate, beams, free);
        if allocation.None? {
          ReportsMore(run, allocations, served, deferred, dropped, candidate);
          deferred := deferred + [candidate.request];
        } else {
          ReportsGrant(run, allocations, served, deferred, dropped, Granted(candidate, g.value, allocation.value));
          allocations := allocations + [allocation.value];
          served := served + [candidate.request];
        }
      }
    }
    assert ordered[..|ordered|] == ordered;
    assert Report(RunOver(m, beams, step, ordered), cs, beams)
      == Conclude(cs, beams, allocations, served, deferred, dropped) by {
      ReportsAreReported(RunOver(m, beams, step, ordered), allocations, served, deferred, dropped, cs, beams);
    }
    r := Conclude(cs, beams, allocations, served, deferred, dropped);
  }

  lemma RunNext(m: MacConfig, beams: seq<Beam>, step: int, cs: seq<ScheduleCandidate>, i: nat)
    requires m.mcsTable != [] && i < |cs|
    ensures RunOver(m, beams, step, cs[..i + 1]) == Advance(m, beams, step, RunOver(m, beams, step, cs[..i]), cs[i])
  {
    assert cs[..i + 1][..i] == cs[..i];
    hide Advance;
  }

  lemma RecordGrant(run: Run, g: Granted)
    ensures var next := run.(granted := run.granted + [g]);
      && next.Placements() == run.Placements() + [ToPlaced(g)]
      && next.Allocations() == run.Allocations() + [g.allocation]
      && Map(PlacedRequest, next.Placements()) == Map(PlacedRequest, run.Placements()) + [g.candidate.request]
  {
    MapSnoc(ToPlaced, run.granted, g);
    MapSnoc(PlacedAllocation, run.Placements(), ToPlaced(g));
    MapSnoc(PlacedRequest, run.Placements(), ToPlaced(g));
  }

  // ------------------------------------------------------------------ what one grant means

  predicate FitsInFull(m: MacConfig, c: ScheduleCandidate, beam: Beam, free: nat)
    requires m.mcsTable != []
  {
    var needed := RbsNeeded(m, c.request);
    && Eligible(c, beam)
    && needed <= RequestCap(m, needed)
    && needed <= free
    && needed <= RegulatoryCapRbs(OptionLimit(c.options, beam.fleet, beam.band).value, RbUnits(m, beam), free)
  }

  ghost predicate NoFit(m: MacConfig, c: ScheduleCandidate, beams: seq<Beam>, free: seq<nat>)
    requires m.mcsTable != []
  {
    |free| == |beams| && forall i :: 0 <= i < |beams| ==> !FitsInFull(m, c, beams[i], free[i])
  }

  // A grant takes between one and the needed number of RBs, is marked degraded exactly when it is
  // short, and offers the most any eligible beam can give; a refusal (or a degraded grant) means
  // that no beam could carry the full need.
  ghost predicate GrantRule(m: MacConfig, c: ScheduleCandidate, beams: seq<Beam>, free: seq<nat>, g: Option<Grant>)
    requires m.mcsTable != [] && |beams| == |free| && (g.Some? ==> g.value.beam < |beams|)
  {
    var needed := RbsNeeded(m, c.request);
    && (NoFit(m, c, beams, free) <==> g.None? || g.value.degraded)
    && (g.Some? ==>
      && Eligible(c, beams[g.value.beam])
      && 1 <= g.value.rbs <= needed
      && g.value.rbs <= Assignable(m, c, beams[g.value.beam], free[g.value.beam])
      && (g.value.degraded <==> g.value.rbs < needed)
      && (g.value.degraded ==> c.degradable && g.value.rbs >= RbFloor(m, needed))
      && forall i :: 0 <= i < |beams| && Eligible(c, beams[i]) ==>
        Assignable(m, c, beams[i], free[i]) <= Assignable(m, c, beams[g.value.beam], free[g.value.beam]))
  }

  lemma PlaceMeaning(m: MacConfig, c: ScheduleCandidate, beams: seq<Beam>, free: seq<nat>)
    requires m.mcsTable != [] && |beams| == |free|
    ensures GrantRule(m, c, beams, free, Place(m, c, beams, free))
  {
    hide RbsNeeded, RegulatoryCapRbs, RbFloor, OptionLimit;
    var keys := GridKeys(m, c, beams, free);
    assert forall i :: 0 <= i < |beams| ==> keys[i] == GridKey(m, c, beams[i], free[i]);
    assert forall i :: 0 <= i < |beams| && FitsInFull(m, c, beams[i], free[i]) ==> keys[i].Some?;
  }

  // ------------------------------------------------------------------ what a whole pass keeps

  function RbsOn(granted: seq<Granted>, beam: nat): nat {
    if granted == [] then 0
    else
      var last := granted[|granted| - 1];
      RbsOn(granted[..|granted| - 1], beam) + if last.grant.beam == beam then last.grant.rbs else 0
  }

  ghost predicate GridConserved(m: MacConfig, beam: Beam, free: nat, taken: nat, used: real) {
    free + taken == m.rbsPerBeam && used == Product(taken as real, RbUnits(m, beam))
  }

  ghost predicate GridsConserved(m: MacConfig, beams: seq<Beam>, run: Run) {
    && |run.free| == |beams|
    && forall i :: 0 <= i < |beams| ==>
      GridConserved(m, beams[i], run.free[i], RbsOn(run.granted, i), UsedOn(run.Allocations(), beams[i].id))
  }

  lemma GrantConserves(m: MacConfig, beams: seq<Beam>, before: Run, g: Granted, i: nat)
    requires i < |beams| == |before.free| && UniqueBeams(beams)
    requires g.grant.beam < |beams| && g.grant.rbs <= before.free[g.grant.beam]
    requires g.allocation == AllocationFor(m, g.candidate, beams[g.grant.beam], g.grant)
    requires GridConserved(m, beams[i], before.free[i], RbsOn(before.granted, i), UsedOn(before.Allocations(),
      beams[i].id))
    ensures GridConserved(m, beams[i], Take(before.free, g.grant)[i], RbsOn(before.granted + [g], i),
                          UsedOn(before.Allocations() + [g.allocation], beams[i].id))
  {
    assert (before.granted + [g])[..|before.granted|] == before.granted;
    UsedSnoc(before.Allocations(), g.allocation, beams[i].id);
    ProductAdds(RbsOn(before.granted, i) as real, g.grant.rbs as real, RbUnits(m, beams[i]));
  }

  // On every beam free plus granted RBs make up the grid, and airtime is granted RBs times their units.
  lemma {:induction false} GridConservation(m: MacConfig, beams: seq<Beam>, step: int, cs: seq<ScheduleCandidate>)
    requires m.mcsTable != [] && UniqueBeams(beams)
    ensures GridsConserved(m, beams, RunOver(m, beams, step, cs))
  {
    if cs == [] {
      return;
    }
    var n := |cs| - 1;
    var before, after, c := RunOver(m, beams, step, cs[..n]), RunOver(m, beams, step, cs), cs[n];
    GridConservation(m, beams, step, cs[..n]);
    var g := Place(m, c, beams, before.free);
    if !c.request.IsExpired(step) && g.Some? {
      var granted := Granted(c, g.value, AllocationFor(m, c, beams[g.value.beam], g.value));
      RecordGrant(before, granted);
      forall i | 0 <= i < |beams|
        ensures GridConserved(m, beams[i], after.free[i], RbsOn(after.granted, i), UsedOn(after.Allocations(),
          beams[i].id))
      {
        GrantConserves(m, beams, before, granted, i);
      }
    }
  }

  // No beam grants more airtime than it has.
  lemma CapacityRespected(m: MacConfig, beams: seq<Beam>, step: int, cs: seq<ScheduleCandidate>)
    requires m.Valid() && UniqueBeams(beams) && NonNegativeCapacity(beams)
    ensures WithinCapacity(RunOver(m, beams, step, cs).Allocations(), beams, 0.0)
  {
    var run := RunOver(m, beams, step, cs);
    GridConservation(m, beams, step, cs);
    forall beam | beam in beams ensures UsedOn(run.Allocations(), beam.id) <= beam.capacity {
      var i :| 0 <= i < |beams| && beams[i] == beam;
      assert GridConserved(m, beam, run.free[i], RbsOn(run.granted, i), UsedOn(run.Allocations(), beam.id));
      ShareOfGrid(RbsOn(run.granted, i) as real, m.rbsPerBeam as real, beam.capacity);
    }
  }

  lemma ShareOfGrid(k: real, n: real, capacity: real)
    requires 0.0 <= k <= n && n > 0.0 && capacity >= 0.0
    ensures Product(k, capacity / n) <= capacity
  {
    QuotientTimes(capacity, n);
    assert capacity / n >= 0.0;
    ProductMonotone(capacity / n, k, n);
    assert Product(capacity / n, k) == Product(k, capacity / n);
  }

  ghost predicate GoodGrant(m: MacConfig, g: Granted, cs: seq<ScheduleCandidate>, beams: seq<Beam>, step: int)
    requires m.mcsTable != []
  {
    && g.candidate in cs && g.grant.beam < |beams|
    && !g.candidate.request.IsExpired(step)
    && g.allocation == AllocationFor(m, g.candidate, beams[g.grant.beam], g.grant)
    && Eligible(g.candidate, beams[g.grant.beam])
    && 1 <= g.grant.rbs <= RbsNeeded(m, g.candidate.request)
    && g.grant.rbs <= RequestCap(m, RbsNeeded(m, g.candidate.request))
    && (g.grant.degraded <==> g.grant.rbs < RbsNeeded(m, g.candidate.request))
    && (g.grant.degraded ==>
      g.candidate.degradable && g.grant.rbs >= RbFloor(m, RbsNeeded(m, g.candidate.request)))
    && g.allocation.units > 0.0
    // The option's ceiling holds exactly, without slack.
    && OptionLimit(g.candidate.options, beams[g.grant.beam].fleet,
      beams[g.grant.beam].band).value.Allows(g.allocation.units, 0.0)
  }

  lemma GrantIsGood(m: MacConfig, c: ScheduleCandidate, beams: seq<Beam>, free: seq<nat>, g: Grant)
    requires m.mcsTable != [] && |beams| == |free| && Place(m, c, beams, free) == Some(g)
    ensures Product(g.rbs as real, RbUnits(m, beams[g.beam])) > 0.0
    ensures Eligible(c, beams[g.beam])
    ensures OptionLimit(c.options, beams[g.beam].fleet, beams[g.beam].band).value
      .Allows(Product(g.rbs as real, RbUnits(m, beams[g.beam])), 0.0)
  {
    PlaceMeaning(m, c, beams, free);
    var limit := OptionLimit(c.options, beams[g.beam].fleet, beams[g.beam].band).value;
    CapRespected(limit, RbUnits(m, beams[g.beam]), free[g.beam], g.rbs);
  }

  lemma {:induction false} GrantsAreGood(m: MacConfig, beams: seq<Beam>, step: int, cs: seq<ScheduleCandidate>)
    requires m.mcsTable != []
    ensures forall g :: g in RunOver(m, beams, step, cs).granted ==> GoodGrant(m, g, cs, beams, step)
  {
    if cs != [] {
      var n := |cs| - 1;
      var before, c := RunOver(m, beams, step, cs[..n]), cs[n];
      GrantsAreGood(m, beams, step, cs[..n]);
      assert forall d :: d in cs[..n] ==> d in cs;
      var g := Place(m, c, beams, before.free);
      PlaceMeaning(m, c, beams, before.free);
      if g.Some? {
        GrantIsGood(m, c, beams, before.free, g.value);
      }
    }
  }

  // Every candidate ends in exactly one of granted, deferred and expired.
  lemma {:induction false} EveryCandidateDecided(m: MacConfig, beams: seq<Beam>, step: int, cs: seq<ScheduleCandidate>)
    requires m.mcsTable != []
    ensures var run := RunOver(m, beams, step, cs); Decided(cs, run.Placements(), run.deferred, run.expired, step)
  {
    if cs != [] {
      var before, c := RunOver(m, beams, step, cs[..|cs| - 1]), cs[|cs| - 1];
      EveryCandidateDecided(m, beams, step, cs[..|cs| - 1]);
      DecideOne(cs, before.Placements(), before.deferred, before.expired, step, c);
      var g := Place(m, c, beams, before.free);
      if !c.request.IsExpired(step) && g.Some? {
        RecordGrant(before, Granted(c, g.value, AllocationFor(m, c, beams[g.value.beam], g.value)));
      }
    }
  }

  ghost predicate Below(after: seq<nat>, before: seq<nat>) {
    |after| == |before| && forall i :: 0 <= i < |after| ==> after[i] <= before[i]
  }

  lemma {:induction false} FreeShrinks(m: MacConfig, beams: seq<Beam>, step: int, cs: seq<ScheduleCandidate>, k: nat)
    requires m.mcsTable != [] && k <= |cs|
    ensures Below(RunOver(m, beams, step, cs).free, RunOver(m, beams, step, cs[..k]).free)
    decreases |cs|
  {
    if k == |cs| {
      assert cs[..k] == cs;
    } else {
      var n := |cs| - 1;
      assert cs[..n][..k] == cs[..k];
      FreeShrinks(m, beams, step, cs[..n], k);
      hide Place;
    }
  }

  // What cannot be carried in full still cannot with fewer free RBs, nor can a larger need.
  lemma NoFitLater(m: MacConfig, c: ScheduleCandidate, d: ScheduleCandidate, beams: seq<Beam>, before: seq<nat>,
                   after: seq<nat>)
    requires m.mcsTable != [] && NoFit(m, c, beams, before) && Below(after, before)
    requires c.request.region == d.request.region && c.options == d.options
    requires RbsNeeded(m, c.request) <= RbsNeeded(m, d.request)
    ensures NoFit(m, d, beams, after)
  {
    forall i | 0 <= i < |beams| ensures !FitsInFull(m, d, beams[i], after[i]) {
      assert !FitsInFull(m, c, beams[i], before[i]);
    }
  }

  // The beam could take the candidate, in full or as a degraded grant.
  predicate CanServe(m: MacConfig, c: ScheduleCandidate, beam: Beam, free: nat)
    requires m.mcsTable != []
  {
    FitsInFull(m, c, beam, free)
    || (Eligible(c, beam) && c.degradable && Assignable(m, c, beam, free) >= 1
        && Assignable(m, c, beam, free) >= RbFloor(m, RbsNeeded(m, c.request)))
  }

  ghost predicate NoneCanServe(m: MacConfig, c: ScheduleCandidate, beams: seq<Beam>, free: seq<nat>)
    requires m.mcsTable != []
  {
    |free| == |beams| && forall i :: 0 <= i < |beams| ==> !CanServe(m, c, beams[i], free[i])
  }

  // A candidate is refused exactly when no beam could take it even in part.
  lemma RefusedMeansNoneCanServe(m: MacConfig, c: ScheduleCandidate, beams: seq<Beam>, free: seq<nat>)
    requires m.mcsTable != [] && |beams| == |free|
    ensures Place(m, c, beams, free).None? <==> NoneCanServe(m, c, beams, free)
  {
    hide RbsNeeded, RegulatoryCapRbs, RbFloor, OptionLimit;
    var keys := GridKeys(m, c, beams, free);
    assert forall i :: 0 <= i < |beams| ==> keys[i] == GridKey(m, c, beams[i], free[i]);
    assert forall i :: 0 <= i < |beams| && CanServe(m, c, beams[i], free[i]) ==> keys[i].Some?;
    var best := Best(keys);
    if best.Some? {
      assert keys[best.value] == GridKey(m, c, beams[best.value], free[best.value]);
    }
  }

  // Whom the grids refuse they refuse with fewer free RBs.
  lemma RefusedStaysRefused(m: MacConfig, c: ScheduleCandidate, beams: seq<Beam>, before: seq<nat>, after: seq<nat>)
    requires m.mcsTable != [] && |beams| == |before| && Below(after, before)
    requires Place(m, c, beams, before).None?
    ensures Place(m, c, beams, after).None?
  {
    RefusedMeansNoneCanServe(m, c, beams, before);
    RefusedMeansNoneCanServe(m, c, beams, after);
    hide Place, RbsNeeded, RbFloor, OptionLimit;
    forall i | 0 <= i < |beams| ensures !CanServe(m, c, beams[i], after[i]) {
      assert !CanServe(m, c, beams[i], before[i]);
    }
  }

  ghost predicate Complete(m: MacConfig, beams: seq<Beam>, run: Run)
    requires m.mcsTable != []
  {
    |run.free| == |beams| && forall c :: c in run.deferred ==>
      NoFit(m, c, beams, run.free) && Place(m, c, beams, run.free).None?
  }

  // The grid is used completely: the final grids would refuse every deferred candidate again, in
  // full and in part.
  lemma {:induction false} DeferredStillDoNotFit(m: MacConfig, beams: seq<Beam>, step: int, cs: seq<ScheduleCandidate>)
    requires m.mcsTable != []
    ensures Complete(m, beams, RunOver(m, beams, step, cs))
  {
    if cs != [] {
      var n := |cs| - 1;
      var before, after := RunOver(m, beams, step, cs[..n]), RunOver(m, beams, step, cs);
      DeferredStillDoNotFit(m, beams, step, cs[..n]);
      FreeShrinks(m, beams, step, cs, n);
      hide Place, NoFit;
      forall c | c in after.deferred ensures NoFit(m, c, beams, after.free) && Place(m, c, beams, after.free).None? {
        assert Place(m, c, beams, before.free).None?;
        RefusedStaysRefused(m, c, beams, before.free, after.free);
        RefusedFitsNowhere(m, c, beams, after.free);
      }
    }
  }

  lemma RefusedFitsNowhere(m: MacConfig, c: ScheduleCandidate, beams: seq<Beam>, free: seq<nat>)
    requires m.mcsTable != [] && |beams| == |free| && Place(m, c, beams, free).None?
    ensures NoFit(m, c, beams, free)
  {
    RefusedMeansNoneCanServe(m, c, beams, free);
  }

  // What the allocator says to the candidate at position k of the pass.
  function VerdictAt(m: MacConfig, beams: seq<Beam>, step: int, cs: seq<ScheduleCandidate>, k: nat): Option<Grant>
    requires m.mcsTable != [] && k < |cs|
  {
    Place(m, cs[k], beams, RunOver(m, beams, step, cs[..k]).free)
  }

  // Once a candidate is refused, a later one in the same region with the same options and at least
  // its RB need is never carried in full.
  lemma NoOvertaking(m: MacConfig, beams: seq<Beam>, step: int, cs: seq<ScheduleCandidate>, j: nat, k: nat)
    requires m.mcsTable != [] && j < k < |cs|
    requires cs[j].request.region == cs[k].request.region && cs[j].options == cs[k].options
    requires RbsNeeded(m, cs[j].request) <= RbsNeeded(m, cs[k].request)
    requires VerdictAt(m, beams, step, cs, j).None?
    ensures var v := VerdictAt(m, beams, step, cs, k); v.None? || v.value.degraded
  {
    assert cs[..k][..j] == cs[..j];
    var before, after := RunOver(m, beams, step, cs[..j]).free, RunOver(m, beams, step, cs[..k]).free;
    FreeShrinks(m, beams, step, cs[..k], j);
    PlaceMeaning(m, cs[j], beams, before);
    NoFitLater(m, cs[j], cs[k], beams, before, after);
    PlaceMeaning(m, cs[k], beams, after);
  }

  lemma {:induction false} GrantedAt(m: MacConfig, beams: seq<Beam>, step: int, cs: seq<ScheduleCandidate>,
                                     g: Granted) returns (k: nat)
    requires m.mcsTable != [] && g in RunOver(m, beams, step, cs).granted
    ensures k < |cs| && cs[k] == g.candidate && VerdictAt(m, beams, step, cs, k) == Some(g.grant)
  {
    hide Place;
    var n := |cs| - 1;
    if g in RunOver(m, beams, step, cs[..n]).granted {
      k := GrantedAt(m, beams, step, cs[..n], g);
      assert cs[..n][..k] == cs[..k];
    } else {
      k := n;
    }
  }

  lemma {:induction false} DeferredAt(m: MacConfig, beams: seq<Beam>, step: int, cs: seq<ScheduleCandidate>,
                                      c: ScheduleCandidate) returns (k: nat)
    requires m.mcsTable != [] && c in RunOver(m, beams, step, cs).deferred
    ensures k < |cs| && cs[k] == c && VerdictAt(m, beams, step, cs, k).None?
  {
    hide Place;
    var n := |cs| - 1;
    if c in RunOver(m, beams, step, cs[..n]).deferred {
      k := DeferredAt(m, beams, step, cs[..n], c);
      assert cs[..n][..k] == cs[..k];
    } else {
      k := n;
    }
  }

  // The first candidate has the better claim: a higher score (or the same and a lower id), in the
  // same region, with the same options and no larger need.
  predicate Outranks(m: MacConfig, c: ScheduleCandidate, d: ScheduleCandidate)
    requires m.mcsTable != []
  {
    && ComesBefore(c, d) && c.request.region == d.request.region && c.options == d.options
    && RbsNeeded(m, c.request) <= RbsNeeded(m, d.request)
  }

  ghost predicate NoneOvertaken(m: MacConfig, run: Run)
    requires m.mcsTable != []
  {
    forall c, g :: c in run.deferred && g in run.granted && Outranks(m, c, g.candidate) ==> g.grant.degraded
  }

  // Whoever is served in full, no deferred request had a better claim.
  lemma BetterClaimsComeFirst(m: MacConfig, cs: seq<ScheduleCandidate>, beams: seq<Beam>, step: int)
    requires m.mcsTable != []
    ensures NoneOvertaken(m, RunOver(m, beams, step, Sort(Priority, cs)))
  {
    var ordered := Sort(Priority, cs);
    var run := RunOver(m, beams, step, ordered);
    forall c, g | c in run.deferred && g in run.granted && Outranks(m, c, g.candidate) ensures g.grant.degraded {
      var j := DeferredAt(m, beams, step, ordered, c);
      var k := GrantedAt(m, beams, step, ordered, g);
      PrecedesInOrder(Priority, ordered, j, k);
      hide Place, RbsNeeded;
      NoOvertaking(m, beams, step, ordered, j, k);
    }
  }

  lemma ScheduleIgnoresOrder(m: MacConfig, cs: seq<ScheduleCandidate>, ds: seq<ScheduleCandidate>, beams: seq<Beam>,
                             step: int)
    requires m.mcsTable != [] && multiset(cs) == multiset(ds) && UniqueIds(cs)
    ensures ScheduleOf(m, cs, beams, step) == ScheduleOf(m, ds, beams, step)
  {
    SortIgnoresOrder(Priority, cs, ds);
    SharesPermutation(RunOver(m, beams, step, Sort(Priority, cs)).Allocations(), cs, ds);
  }

  // The slot scheduler meets the scheduler contract with no slack at all.
  lemma ScheduleIsSound(m: MacConfig, cs: seq<ScheduleCandidate>, beams: seq<Beam>, step: int)
    requires m.Valid() && UniqueBeams(beams) && NonNegativeCapacity(beams)
    ensures Sound(cs, beams, step, 0.0, ScheduleOf(m, cs, beams, step))
  {
    var ordered := Sort(Priority, cs);
    var run := RunOver(m, beams, step, ordered);
    SameMembers(ordered, cs);
    EveryCandidateDecided(m, beams, step, ordered);
    PartitionOfRequests(cs, ordered, run.Placements(), run.deferred, run.expired, step);
    GrantsAreGood(m, beams, step, ordered);
    forall pl | pl in run.Placements()
      ensures pl.candidate in cs && LegalGrant(pl.candidate, pl.allocation, beams, step)
    {
      var i :| 0 <= i < |run.granted| && run.Placements()[i] == pl;
      assert run.granted[i] in run.granted && pl == ToPlaced(run.granted[i]);
      var beam := beams[run.granted[i].grant.beam];
      assert beam in beams && LegalOn(pl.candidate, pl.allocation, beam);
    }
    CapacityRespected(m, beams, step, ordered);
    ReportIsSound(cs, beams, step, 0.0, run.Placements(), run.deferred, run.expired);
  }
}
