// Tier 2: urgent requests claim a bounded reserved fraction of every beam, most urgent first,
// under per-request and per-region airtime caps.
module EmergencyLane {
  import opened Domain
  import opened Reals
  import opened Collections
  import opened SchedulerPort
  import opened Regulatory
  import opened Scoring

  datatype LaneConfig = LaneConfig(
    reservedFraction: real, maxUnitsPerRequest: real, geoFairnessWeight: real, maxRetries: int,
    severityWeight: real, waitingWeight: real, retryWeight: real)
  {
    ghost predicate Valid() {
      0.0 <= reservedFraction <= 1.0 && maxUnitsPerRequest > 0.0 && geoFairnessWeight >= 0.0 && maxRetries >= 0
    }
  }

  // Everything a lane decision depends on besides the requests.
  datatype Context = Context(cfg: LaneConfig, rules: Rules, pricing: ScoringConfig, beams: seq<Beam>, step: int)
  {
    ghost predicate Valid() {
      cfg.Valid() && pricing.Valid()
    }

    function HasReserve(): Beam -> bool {
      (beam: Beam) => Product(beam.capacity, cfg.reservedFraction) > 0.0
    }

    // The beams with a positive reserved slice.
    function Pool(): seq<Beam> {
      Filter(HasReserve(), beams)
    }

    lemma PoolIsUnique()
      requires UniqueBeams(beams)
      ensures UniqueBeams(Pool())
    {
      FilterKeepsUnique(HasReserve(), beams);
    }

    function Reserve(): seq<real> {
      Map((beam: Beam) => Product(beam.capacity, cfg.reservedFraction), Pool())
    }
  }

  lemma {:induction false} FilterKeepsUnique(keep: Beam -> bool, beams: seq<Beam>)
    requires UniqueBeams(beams)
    ensures UniqueBeams(Filter(keep, beams))
  {
    if beams != [] {
      var n := |beams| - 1;
      FilterKeepsUnique(keep, beams[..n]);
      forall beam | beam in Filter(keep, beams[..n]) ensures beam.id != beams[n].id {
        assert beam in beams[..n];
      }
    }
  }

  datatype EmergencyDecision = EmergencyDecision(
    admitted: seq<ServiceRequest>, reservations: seq<Allocation>, shed: seq<RejectedRequest>, unitsUsed: real)

  function EmergencyScore(cfg: LaneConfig, r: ServiceRequest, step: int): real {
    var retries := r.retryCount as real / (if cfg.maxRetries > 1 then cfg.maxRetries else 1) as real;
    cfg.severityWeight * Clamp01(r.urgency)
      + cfg.waitingWeight * WaitingPressure(r, step)
      + cfg.retryWeight * Clamp01(retries)
  }

  function UrgencyKey(cfg: LaneConfig, step: int): ServiceRequest -> Key {
    (r: ServiceRequest) => Key(-EmergencyScore(cfg, r, step), r.id)
  }

  // Why a request never reaches the lane's queue, if it does not.
  function Barred(cfg: LaneConfig, r: ServiceRequest, step: int): Option<RejectReason> {
    if r.IsExpired(step) then Some(DeadlineMissed)
    else if r.retryCount > cfg.maxRetries then Some(RetryBudgetExhausted)
    else None
  }

  function Viable(cfg: LaneConfig, urgent: seq<ServiceRequest>, step: int): seq<ServiceRequest> {
    if urgent == [] then []
    else
      var n := |urgent| - 1;
      Viable(cfg, urgent[..n], step) + if Barred(cfg, urgent[n], step).None? then [urgent[n]] else []
  }

  function BarredOnes(cfg: LaneConfig, urgent: seq<ServiceRequest>, step: int): seq<RejectedRequest> {
    if urgent == [] then []
    else
      var n := |urgent| - 1;
      var reason := Barred(cfg, urgent[n], step);
      BarredOnes(cfg, urgent[..n], step) + if reason.Some? then [RejectedRequest(urgent[n], reason.value)] else []
  }

  function RegionsOf(requests: seq<ServiceRequest>): set<Region> {
    set r | r in requests :: r.region
  }

  function PerRegionCap(cfg: LaneConfig, total: real, regions: nat): real {
    if regions == 0 then 0.0 else Min(total, Product(total / regions as real, cfg.geoFairnessWeight))
  }

  // The room a beam offers is enough for the request.
  predicate HasRoom(x: Context, r: ServiceRequest, need: real, beam: Beam, remaining: real) {
    && beam.region == r.region
    && var decision := Evaluate(x.rules, r.region, beam.fleet, beam.band);
      decision.Allowed? && Within(remaining, decision.maxAirtime) + EPS >= need
  }

  function RoomKey(x: Context, r: ServiceRequest, need: real, beam: Beam, remaining: real): Option<real> {
    if HasRoom(x, r, need, beam, remaining) then Some(remaining) else None
  }

  function RoomKeys(x: Context, r: ServiceRequest, need: real, pool: seq<Beam>, remaining: seq<real>): seq<Option<real>>
    requires |pool| == |remaining|
  {
    seq(|pool|, i requires 0 <= i < |pool| => RoomKey(x, r, need, pool[i], remaining[i]))
  }

  function ReservationFor(r: ServiceRequest, beam: Beam, need: real): Allocation {
    Allocation(r.id, beam.fleet, beam.id, beam.band, need, Clamp01(r.linkQuality), false)
  }

  type RegionUse = map<Region, real>

  function UsedBy(use: RegionUse, region: Region): real {
    if region in use then use[region] else 0.0
  }

  // ------------------------------------------------------------------ the lane as a fold

  datatype Run = Run(
    remaining: seq<real>, regionUse: RegionUse, used: real, admitted: seq<ServiceRequest>,
    reservations: seq<Allocation>, full: seq<ServiceRequest>)

  // Whether the caps (not the beams) already turn the request away.
  predicate OverCap(x: Context, cap: real, use: RegionUse, r: ServiceRequest)
    requires x.pricing.bytesPerUnit > 0.0 && x.pricing.minLinkQuality > 0.0
  {
    var cost := EstimateCost(x.pricing, r);
    cost > x.cfg.maxUnitsPerRequest + EPS || UsedBy(use, r.region) + cost > cap + EPS
  }

  // Where the request goes, if the lane takes it.
  function Choice(x: Context, cap: real, run: Run, r: ServiceRequest): (i: Option<nat>)
    requires x.pricing.bytesPerUnit > 0.0 && x.pricing.minLinkQuality > 0.0
    requires |run.remaining| == |x.Pool()|
    ensures i.Some? ==> i.value < |x.Pool()|
  {
    if OverCap(x, cap, run.regionUse, r) then None
    else Best(RoomKeys(x, r, EstimateCost(x.pricing, r), x.Pool(), run.remaining))
  }

  function Advance(x: Context, cap: real, run: Run, r: ServiceRequest): (next: Run)
    requires x.pricing.bytesPerUnit > 0.0 && x.pricing.minLinkQuality > 0.0
    requires |run.remaining| == |x.Pool()|
    ensures |next.remaining| == |x.Pool()|
  {
    match Choice(x, cap, run, r)
    case None => run.(full := run.full + [r])
    case Some(i) =>
      var need := EstimateCost(x.pricing, r);
      Run(run.remaining[i := run.remaining[i] - need],
          run.regionUse[r.region := UsedBy(run.regionUse, r.region) + need],
          run.used + need,
          run.admitted + [r],
          run.reservations + [ReservationFor(r, x.Pool()[i], need)],
          run.full)
  }

  function RunOver(x: Context, cap: real, ranked: seq<ServiceRequest>): (run: Run)
    requires x.pricing.bytesPerUnit > 0.0 && x.pricing.minLinkQuality > 0.0
    ensures |run.remaining| == |x.Pool()|
  {
    if ranked == [] then Run(x.Reserve(), map[], 0.0, [], [], [])
    else Advance(x, cap, RunOver(x, cap, ranked[..|ranked| - 1]), ranked[|ranked| - 1])
  }

  function Ranked(x: Context, urgent: seq<ServiceRequest>): seq<ServiceRequest> {
    Sort(UrgencyKey(x.cfg, x.step), Viable(x.cfg, urgent, x.step))
  }

  function CapFor(x: Context, urgent: seq<ServiceRequest>): real {
    PerRegionCap(x.cfg, Sum(x.Reserve()), |RegionsOf(Ranked(x, urgent))|)
  }

  function LaneFull(r: ServiceRequest): RejectedRequest {
    RejectedRequest(r, EmergencyLaneFull)
  }

  function DecisionOf(x: Context, urgent: seq<ServiceRequest>): EmergencyDecision
    requires x.pricing.bytesPerUnit > 0.0 && x.pricing.minLinkQuality > 0.0
  {
    var run := RunOver(x, CapFor(x, urgent), Ranked(x, urgent));
    EmergencyDecision(run.admitted, run.reservations,
                      BarredOnes(x.cfg, urgent, x.step) + Map(LaneFull, run.full), run.used)
  }

  // ------------------------------------------------------------------ the lane

  method Rank(x: Context, urgent: seq<ServiceRequest>) returns (ranked: seq<ServiceRequest>, shed: seq<RejectedRequest>)
    ensures ranked == Ranked(x, urgent)
    ensures shed == BarredOnes(x.cfg, urgent, x.step)
  {
    var viable: seq<ServiceRequest> := [];
    shed := [];
    for i := 0 to |urgent|
      invariant viable == Viable(x.cfg, urgent[..i], x.step)
      invariant shed == BarredOnes(x.cfg, urgent[..i], x.step)
    {
      var request := urgent[i];
      assert urgent[..i + 1][..i] == urgent[..i];
      if request.IsExpired(x.step) {
        shed := shed + [RejectedRequest(request, DeadlineMissed)];
      } else if request.retryCount > x.cfg.maxRetries {
        shed := shed + [RejectedRequest(request, RetryBudgetExhausted)];
      } else {
        viable := viable + [request];
      }
    }
    assert urgent[..|urgent|] == urgent;
    ranked := Sort(UrgencyKey(x.cfg, x.step), viable);
  }

  method PlaceOn(x: Context, r: ServiceRequest, need: real, pool: seq<Beam>, remaining: array<real>)
    returns (a: Option<Allocation>)
    requires remaining.Length == |pool|
    modifies remaining
    ensures var best := Best(RoomKeys(x, r, need, pool, old(remaining[..])));
      && a == (if best.Some? then Some(ReservationFor(r, pool[best.value], need)) else None)
      && remaining[..] == (if best.Some? then old(remaining[..])[best.value := old(remaining[..])[best.value] - need]
                           else old(remaining[..]))
  {
    var best: Option<nat> := None;
    ghost var keys := RoomKeys(x, r, need, pool, remaining[..]);
    for i := 0 to |pool|
      invariant remaining[..] == old(remaining[..])
      invariant best == Best(keys[..i])
    {
      BestSnoc(keys, i);
      assert keys[i] == RoomKey(x, r, need, pool[i], remaining[i]);
      assert best.Some? ==> keys[best.value] == RoomKey(x, r, need, pool[best.value], remaining[best.value]);
      if pool[i].region == r.region {
        var decision := Evaluate(x.rules, r.region, pool[i].fleet, pool[i].band);
        if decision.Allowed? && Within(remaining[i], decision.maxAirtime) + EPS >= need {
          if best.None? || remaining[i] > remaining[best.value] {
            best := Some(i);
          }
        }
      }
    }
    assert keys[..|pool|] == keys;
    if best.None? {
      return None;
    }
    remaining[best.value] := remaining[best.value] - need;
    return Some(ReservationFor(r, pool[best.value], need));
  }

  // Offers one request to the lane: the caps first, then the beams.
  method Offer(x: Context, cap: real, r: ServiceRequest, regionUse: RegionUse, pool: seq<Beam>, remaining: array<real>,
               ghost run: Run)
    returns (a: Option<Allocation>)
    requires x.Valid() && pool == x.Pool() && remaining.Length == |pool|
    requires remaining[..] == run.remaining && regionUse == run.regionUse
    modifies remaining
    ensures var next := Advance(x, cap, run, r);
      && remaining[..] == next.remaining
      && match a
        case None => next == run.(full := run.full + [r])
        case Some(allocation) =>
          next == Run(next.remaining, regionUse[r.region := UsedBy(regionUse, r.region) + allocation.units],
                      run.used + allocation.units, run.admitted + [r], run.reservations + [allocation], run.full)
  {
    var cost := EstimateCost(x.pricing, r);
    if cost > x.cfg.maxUnitsPerRequest + EPS {
      return None;
    }
    if UsedBy(regionUse, r.region) + cost > cap + EPS {
      return None;
    }
    a := PlaceOn(x, r, cost, pool, remaining);
  }

  // Offers the ranked requests in order; those the lane refuses join the shed ones.
  method OfferAll(x: Context, cap: real, ranked: seq<ServiceRequest>, barred: seq<RejectedRequest>)
    returns (admitted: seq<ServiceRequest>, reservations: seq<Allocation>, shed: seq<RejectedRequest>, used: real)
    requires x.Valid()
    ensures var run := RunOver(x, cap, ranked);
      && admitted == run.admitted && reservations == run.reservations && used == run.used
      && shed == barred + Map(LaneFull, run.full)
  {
    var pool, reserve := x.Pool(), x.Reserve();
    var remaining := new real[|pool|](i requires 0 <= i < |pool| => reserve[i]);
    assert remaining[..] == reserve;
    admitted, reservations, shed, used := [], [], barred, 0.0;
    var regionUse: RegionUse := map[];
    ghost var run := RunOver(x, cap, []);
    for i := 0 to |ranked|
      invariant run == RunOver(x, cap, ranked[..i])
      invariant remaining[..] == run.remaining && regionUse == run.regionUse && used == run.used
      invariant admitted == run.admitted && reservations == run.reservations
      invariant shed == barred + Map(LaneFull, run.full)
    {
      var request := ranked[i];
      assert ranked[..i + 1][..i] == ranked[..i];
      var allocation := Offer(x, cap, request, regionUse, pool, remaining, run);
      if allocation.None? {
        MapSnoc(LaneFull, run.full, request);
        shed := shed + [RejectedRequest(request, EmergencyLaneFull)];
      } else {
        admitted := admitted + [request];
        reservations := reservations + [allocation.value];
        regionUse := regionUse[request.region := UsedBy(regionUse, request.region) + allocation.value.units];
        used := used + allocation.value.units;
      }
      run := Advance(x, cap, run, request);
    }
    assert ranked[..|ranked|] == ranked;
  }

  method Reserve(x: Context, urgent: seq<ServiceRequest>) returns (d: EmergencyDecision)
    requires x.Valid()
    ensures d == DecisionOf(x, urgent)
  {
    var ranked, barred := Rank(x, urgent);
    var cap := PerRegionCap(x.cfg, Sum(x.Reserve()), |RegionsOf(ranked)|);
    var admitted, reservations, shed, used := OfferAll(x, cap, ranked, barred);
    d := EmergencyDecision(admitted, reservations, shed, used);
  }

  // ------------------------------------------------------------------ what the lane keeps

  ghost predicate Priced(requests: seq<ServiceRequest>) {
    forall r :: r in requests ==> r.sizeBytes > 0
  }

  // The sum of what all regions used.
  function TotalUse(use: RegionUse): real {
    UsedBy(use, NA) + UsedBy(use, EU) + UsedBy(use, APAC) + UsedBy(use, LATAM) + UsedBy(use, Ocean)
  }

  // Airtime reserved for one region, read off the admitted requests and their reservations.
  function ReservedFor(region: Region, admitted: seq<ServiceRequest>, reservations: seq<Allocation>): real
    requires |admitted| == |reservations|
  {
    if admitted == [] then 0.0
    else
      var n := |admitted| - 1;
      ReservedFor(region, admitted[..n], reservations[..n]) + if admitted[n].region
        == region then reservations[n].units else 0.0
  }

  ghost predicate Books(x: Context, run: Run) {
    && |run.admitted| == |run.reservations|
    && run.used == TotalUnits(run.reservations)
    && run.used == TotalUse(run.regionUse)
    && forall region :: UsedBy(run.regionUse, region) == ReservedFor(region, run.admitted, run.reservations)
  }

  // One reservation per admitted request; the units used are the sum of the reservations and the
  // sum of what the regions used, region by region.
  lemma {:induction false} BooksBalance(x: Context, cap: real, ranked: seq<ServiceRequest>)
    requires x.Valid()
    ensures Books(x, RunOver(x, cap, ranked))
  {
    if ranked != [] {
      var n := |ranked| - 1;
      var before, r := RunOver(x, cap, ranked[..n]), ranked[n];
      hide Advance, Books;
      BooksBalance(x, cap, ranked[..n]);
      BookOffered(x, cap, before, r);
    }
  }

  lemma BookOffered(x: Context, cap: real, before: Run, r: ServiceRequest)
    requires x.Valid() && |before.remaining| == |x.Pool()| && Books(x, before)
    ensures Books(x, Advance(x, cap, before, r))
  {
    assert Books(x, before);
    hide Choice, EstimateCost, Books, Context.Pool;
    var i := Choice(x, cap, before, r);
    if i.None? {
      BooksIgnoreFull(x, before, r);
    } else {
      BookOne(x, before, r, ReservationFor(r, x.Pool()[i.value], EstimateCost(x.pricing, r)));
    }
  }

  lemma BooksIgnoreFull(x: Context, before: Run, r: ServiceRequest)
    requires Books(x, before)
    ensures Books(x, before.(full := before.full + [r]))
  {
  }

  lemma BookOne(x: Context, before: Run, r: ServiceRequest, a: Allocation)
    requires Books(x, before)
    ensures Books(x, Run(before.remaining, before.regionUse[r.region := UsedBy(before.regionUse, r.region) + a.units],
                         before.used + a.units, before.admitted + [r], before.reservations + [a], before.full))
  {
    UnitsAdd(before.reservations, a);
    UseAdds(before.regionUse, r.region, a.units);
    assert (before.admitted + [r])[..|before.admitted|] == before.admitted;
    assert (before.reservations + [a])[..|before.admitted|] == before.reservations;
    var use := before.regionUse[r.region := UsedBy(before.regionUse, r.region) + a.units];
    forall region
      ensures UsedBy(use, region) == ReservedFor(region, before.admitted + [r], before.reservations + [a])
    {
      assert UsedBy(before.regionUse, region) == ReservedFor(region, before.admitted, before.reservations);
    }
  }

  lemma UseAdds(use: RegionUse, region: Region, units: real)
    ensures TotalUse(use[region := UsedBy(use, region) + units]) == TotalUse(use) + units
  {
  }

  ghost predicate PoolBounds(x: Context, remaining: seq<real>) {
    && |remaining| == |x.Pool()|
    && forall i :: 0 <= i < |remaining| ==> -EPS <= remaining[i] <= x.Reserve()[i]
  }

  lemma WithinBelow(amount: real, limit: Limit)
    ensures Within(amount, limit) <= amount && limit.Allows(Within(amount, limit), 0.0)
  {
  }

  // No reserved slice is drawn below the tolerance, however many requests are placed on it.
  lemma {:induction false} PoolStaysInBounds(x: Context, cap: real, ranked: seq<ServiceRequest>)
    requires x.Valid() && Priced(ranked)
    ensures PoolBounds(x, RunOver(x, cap, ranked).remaining)
  {
    if ranked != [] {
      var n := |ranked| - 1;
      var before, r := RunOver(x, cap, ranked[..n]), ranked[n];
      PoolStaysInBounds(x, cap, ranked[..n]);
      var i := Choice(x, cap, before, r);
      if i.Some? {
        RoomFound(x, r, EstimateCost(x.pricing, r), before.remaining, i.value);
      }
    } else {
      forall i | 0 <= i < |x.Pool()| ensures x.Reserve()[i] > 0.0 {
        assert x.Pool()[i] in x.Pool();
      }
    }
  }

  lemma RoomFound(x: Context, r: ServiceRequest, need: real, remaining: seq<real>, i: nat)
    requires |remaining| == |x.Pool()| && Best(RoomKeys(x, r, need, x.Pool(), remaining)) == Some(i)
    ensures i < |x.Pool()| && HasRoom(x, r, need, x.Pool()[i], remaining[i]) && remaining[i] - need >= -EPS
    ensures forall j :: 0 <= j < |remaining| && HasRoom(x, r, need, x.Pool()[j], remaining[j]) ==>
      remaining[j] <= remaining[i]
  {
    var keys := RoomKeys(x, r, need, x.Pool(), remaining);
    assert keys[i] == RoomKey(x, r, need, x.Pool()[i], remaining[i]);
    forall j | 0 <= j < |remaining|
      && HasRoom(x, r, need, x.Pool()[j], remaining[j]) ensures remaining[j] <= remaining[i] {
      assert keys[j] == RoomKey(x, r, need, x.Pool()[j], remaining[j]);
    }
    WithinBelow(remaining[i], Evaluate(x.rules, r.region, x.Pool()[i].fleet, x.Pool()[i].band).maxAirtime);
  }

  ghost predicate InPool(x: Context, id: BeamId) {
    exists i :: 0 <= i < |x.Pool()| && x.Pool()[i].id == id
  }

  ghost predicate PoolConserved(x: Context, remaining: seq<real>, reservations: seq<Allocation>) {
    && |remaining| == |x.Pool()|
    && (forall i :: 0 <= i < |remaining| ==> UsedOn(reservations, x.Pool()[i].id) == x.Reserve()[i] - remaining[i])
    && (forall a :: a in reservations ==> InPool(x, a.beamId))
  }

  // Airtime reserved on a beam is exactly what its slice lost, and only pool beams are touched.
  lemma {:induction false} PoolConservation(x: Context, cap: real, ranked: seq<ServiceRequest>)
    requires x.Valid() && UniqueBeams(x.Pool())
    ensures var run := RunOver(x, cap, ranked); PoolConserved(x, run.remaining, run.reservations)
  {
    if ranked != [] {
      var n := |ranked| - 1;
      var before, r := RunOver(x, cap, ranked[..n]), ranked[n];
      PoolConservation(x, cap, ranked[..n]);
      hide Choice, EstimateCost, PoolConserved, UniqueBeams, Context.Pool;
      var i := Choice(x, cap, before, r);
      if i.Some? {
        PoolConserveOne(x, before.remaining, before.reservations, i.value,
                        ReservationFor(r, x.Pool()[i.value], EstimateCost(x.pricing, r)));
      }
    }
  }

  lemma PoolConserveOne(x: Context, remaining: seq<real>, reservations: seq<Allocation>, i: nat, a: Allocation)
    requires UniqueBeams(x.Pool()) && PoolConserved(x, remaining, reservations)
    requires i < |x.Pool()| && a.beamId == x.Pool()[i].id
    ensures PoolConserved(x, remaining[i := remaining[i] - a.units], reservations + [a])
  {
    assert InPool(x, a.beamId);
    hide InPool, Context.Pool, Context.Reserve;
    forall j | 0 <= j < |x.Pool()|
      ensures UsedOn(reservations + [a], x.Pool()[j].id)
        == UsedOn(reservations, x.Pool()[j].id) + if i == j then a.units else 0.0
    {
      UsedSnoc(reservations, a, x.Pool()[j].id);
    }
  }

  lemma {:induction false} UnusedBeam(reservations: seq<Allocation>, id: BeamId)
    requires forall a :: a in reservations ==> a.beamId != id
    ensures UsedOn(reservations, id) == 0.0
  {
    if reservations != [] {
      UnusedBeam(reservations[..|reservations| - 1], id);
    }
  }

  // Every beam, in the pool or not, gives the lane at most its reserved fraction plus the tolerance.
  lemma ReservedSliceHolds(x: Context, cap: real, ranked: seq<ServiceRequest>, beam: Beam)
    requires x.Valid() && UniqueBeams(x.beams) && NonNegativeCapacity(x.beams) && Priced(ranked) && beam in x.beams
    ensures UsedOn(RunOver(x, cap, ranked).reservations, beam.id) <= Product(beam.capacity, x.cfg.reservedFraction)
      + EPS
  {
    var run := RunOver(x, cap, ranked);
    x.PoolIsUnique();
    PoolConservation(x, cap, ranked);
    PoolStaysInBounds(x, cap, ranked);
    if beam in x.Pool() {
      var i :| 0 <= i < |x.Pool()| && x.Pool()[i] == beam;
      assert UsedOn(run.reservations, x.Pool()[i].id) == x.Reserve()[i] - run.remaining[i];
    } else {
      forall a | a in run.reservations ensures a.beamId != beam.id {
        var i :| 0 <= i < |x.Pool()| && x.Pool()[i].id == a.beamId;
        assert x.Pool()[i] in x.beams;
      }
      UnusedBeam(run.reservations, beam.id);
    }
  }

  // ------------------------------------------------------------------ regions and completeness

  ghost predicate RegionsWithin(cap: real, use: RegionUse) {
    forall region :: UsedBy(use, region) <= cap + EPS
  }

  // No region takes more than its fair cap plus the tolerance.
  lemma {:induction false} RegionCapsHold(x: Context, cap: real, ranked: seq<ServiceRequest>)
    requires x.Valid() && cap >= 0.0
    ensures RegionsWithin(cap, RunOver(x, cap, ranked).regionUse)
  {
    if ranked != [] {
      var before, r := RunOver(x, cap, ranked[..|ranked| - 1]), ranked[|ranked| - 1];
      RegionCapsHold(x, cap, ranked[..|ranked| - 1]);
      forall region ensures UsedBy(Advance(x, cap, before, r).regionUse, region) <= cap + EPS {
        assert UsedBy(before.regionUse, region) <= cap + EPS;
      }
    }
  }

  ghost predicate NoRoom(x: Context, r: ServiceRequest, remaining: seq<real>)
    requires x.Valid()
  {
    && |remaining| == |x.Pool()|
    && forall i :: 0 <= i < |remaining| ==> !HasRoom(x, r, EstimateCost(x.pricing, r), x.Pool()[i], remaining[i])
  }

  ghost predicate TurnedAway(x: Context, cap: real, run: Run, r: ServiceRequest)
    requires x.Valid()
  {
    OverCap(x, cap, run.regionUse, r) || NoRoom(x, r, run.remaining)
  }

  lemma ChoiceMeaning(x: Context, cap: real, run: Run, r: ServiceRequest)
    requires x.Valid() && |run.remaining| == |x.Pool()|
    ensures Choice(x, cap, run, r).None? <==> TurnedAway(x, cap, run, r)
  {
    var keys := RoomKeys(x, r, EstimateCost(x.pricing, r), x.Pool(), run.remaining);
    assert forall i :: 0 <= i < |keys| ==>
      keys[i] == RoomKey(x, r, EstimateCost(x.pricing, r), x.Pool()[i], run.remaining[i]);
    assert NoRoom(x, r, run.remaining) <==> Best(keys).None?;
  }

  // A request turned away stays turned away as the lane fills.
  lemma TurnedAwayStays(x: Context, cap: real, run: Run, next: ServiceRequest, r: ServiceRequest)
    requires x.Valid() && |run.remaining| == |x.Pool()| && next.sizeBytes > 0
    requires TurnedAway(x, cap, run, r)
    ensures TurnedAway(x, cap, Advance(x, cap, run, next), r)
  {
    var after := Advance(x, cap, run, next);
    if !OverCap(x, cap, run.regionUse, r) {
      forall i | 0 <= i < |after.remaining|
        ensures !HasRoom(x, r, EstimateCost(x.pricing, r), x.Pool()[i], after.remaining[i])
      {
        assert !HasRoom(x, r, EstimateCost(x.pricing, r), x.Pool()[i], run.remaining[i]);
      }
    }
  }

  ghost predicate AllTurnedAway(x: Context, cap: real, run: Run)
    requires x.Valid()
  {
    forall r :: r in run.full ==> TurnedAway(x, cap, run, r)
  }

  // The lane is used completely: each request shed as lane-full still does not fit at the end.
  lemma {:induction false} FullMeansFull(x: Context, cap: real, ranked: seq<ServiceRequest>)
    requires x.Valid() && Priced(ranked)
    ensures AllTurnedAway(x, cap, RunOver(x, cap, ranked))
  {
    if ranked != [] {
      var n := |ranked| - 1;
      var before, next := RunOver(x, cap, ranked[..n]), ranked[n];
      FullMeansFull(x, cap, ranked[..n]);
      ChoiceMeaning(x, cap, before, next);
      forall r | r in before.full ensures TurnedAway(x, cap, Advance(x, cap, before, next), r) {
        TurnedAwayStays(x, cap, before, next, r);
      }
    }
  }

  // ------------------------------------------------------------------ who is admitted

  ghost predicate LegalReservation(x: Context, r: ServiceRequest, a: Allocation)
    requires x.Valid()
  {
    && Barred(x.cfg, r, x.step).None?
    && a.requestId == r.id && a.deliveryProbability == Clamp01(r.linkQuality) && !a.degraded
    && a.units == EstimateCost(x.pricing, r) && a.units <= x.cfg.maxUnitsPerRequest + EPS
    && exists beam :: beam in x.beams && ReservedOn(x, r, a, beam)
  }

  ghost predicate ReservedOn(x: Context, r: ServiceRequest, a: Allocation, beam: Beam) {
    && a.beamId == beam.id && a.fleet == beam.fleet && a.band == beam.band && beam.region == r.region
    && var decision := Evaluate(x.rules, r.region, beam.fleet, beam.band);
      decision.Allowed? && decision.maxAirtime.Allows(a.units, EPS)
  }

  ghost predicate AllLegal(x: Context, admitted: seq<ServiceRequest>, reservations: seq<Allocation>)
    requires x.Valid()
  {
    && |admitted| == |reservations|
    && forall i :: 0 <= i < |admitted| ==> LegalReservation(x, admitted[i], reservations[i])
  }

  // Each reservation is on time, in budget, legal, in the request's region and priced by the cost model.
  lemma {:induction false} ReservationsAreLegal(x: Context, cap: real, ranked: seq<ServiceRequest>)
    requires x.Valid() && forall r :: r in ranked ==> Barred(x.cfg, r, x.step).None?
    ensures var run := RunOver(x, cap, ranked); AllLegal(x, run.admitted, run.reservations)
  {
    if ranked != [] {
      var n := |ranked| - 1;
      var before, r := RunOver(x, cap, ranked[..n]), ranked[n];
      ReservationsAreLegal(x, cap, ranked[..n]);
      var i := Choice(x, cap, before, r);
      if i.Some? {
        var beam, need := x.Pool()[i.value], EstimateCost(x.pricing, r);
        RoomFound(x, r, need, before.remaining, i.value);
        assert beam in x.Pool();
        assert ReservedOn(x, r, ReservationFor(r, beam, need), beam);
      }
    }
  }

  ghost predicate Split(requests: seq<ServiceRequest>, admitted: seq<ServiceRequest>, shed: seq<ServiceRequest>) {
    multiset(requests) == multiset(admitted) + multiset(shed)
  }

  lemma {:induction false} OfferedSplit(x: Context, cap: real, ranked: seq<ServiceRequest>)
    requires x.Valid()
    ensures var run := RunOver(x, cap, ranked); Split(ranked, run.admitted, run.full)
  {
    if ranked != [] {
      var n := |ranked| - 1;
      var before, r := RunOver(x, cap, ranked[..n]), ranked[n];
      OfferedSplit(x, cap, ranked[..n]);
      hide Choice, ReservationFor, EstimateCost;
      MultisetLast(ranked);
      MultisetSnoc(before.admitted, r);
      MultisetSnoc(before.full, r);
    }
  }

  lemma {:induction false} ViableSplit(cfg: LaneConfig, urgent: seq<ServiceRequest>, step: int)
    ensures Split(urgent, Viable(cfg, urgent, step), Map(RejectedOf, BarredOnes(cfg, urgent, step)))
    ensures forall r :: r in Viable(cfg, urgent, step) ==> Barred(cfg, r, step).None?
    ensures forall s :: s in BarredOnes(cfg, urgent, step) ==> Barred(cfg, s.request, step) == Some(s.reason)
  {
    if urgent != [] {
      var n := |urgent| - 1;
      var r := urgent[n];
      ViableSplit(cfg, urgent[..n], step);
      hide Barred;
      var viable, barred := Viable(cfg, urgent[..n], step), BarredOnes(cfg, urgent[..n], step);
      MultisetLast(urgent);
      MultisetSnoc(viable, r);
      var reason := Barred(cfg, r, step);
      if reason.Some? {
        MapSnoc(RejectedOf, barred, RejectedRequest(r, reason.value));
        MultisetSnoc(Map(RejectedOf, barred), r);
        assert viable + [] == viable;
      } else {
        assert barred + [] == barred;
      }
    }
  }

  // ------------------------------------------------------------------ the lane's contract

  // Why each request was shed: barred for its own sake, or turned away by a lane that is still full.
  ghost predicate ShedForCause(x: Context, cap: real, run: Run, s: RejectedRequest)
    requires x.Valid()
  {
    if s.reason == EmergencyLaneFull then Barred(x.cfg, s.request, x.step).None? && TurnedAway(x, cap, run, s.request)
    else Barred(x.cfg, s.request, x.step) == Some(s.reason)
  }

  // One decision: urgent requests split exactly into admitted and shed, reservations are legal and
  // stay within every beam's reserved slice, and every shed request has its reason.
  ghost predicate LaneSound(x: Context, urgent: seq<ServiceRequest>, d: EmergencyDecision)
    requires x.Valid()
  {
    && Split(urgent, d.admitted, Map(RejectedOf, d.shed))
    && AllLegal(x, d.admitted, d.reservations)
    && d.unitsUsed == TotalUnits(d.reservations)
    && (forall beam :: beam in x.beams ==>
      UsedOn(d.reservations, beam.id) <= Product(beam.capacity, x.cfg.reservedFraction) + EPS)
    && (forall s :: s in d.shed ==>
      ShedForCause(x, CapFor(x, urgent), RunOver(x, CapFor(x, urgent), Ranked(x, urgent)), s))
  }

  lemma RankedMembers(x: Context, urgent: seq<ServiceRequest>)
    ensures multiset(Ranked(x, urgent)) == multiset(Viable(x.cfg, urgent, x.step))
    ensures forall r :: r in Ranked(x, urgent) ==> Barred(x.cfg, r, x.step).None? && r in urgent
  {
    ViableSplit(x.cfg, urgent, x.step);
    SameMembers(Ranked(x, urgent), Viable(x.cfg, urgent, x.step));
    forall r | r in Viable(x.cfg, urgent, x.step) ensures r in urgent {
      assert r in multiset(Viable(x.cfg, urgent, x.step));
      assert r in multiset(urgent);
    }
  }

  lemma DecisionIsSound(x: Context, urgent: seq<ServiceRequest>)
    requires x.Valid() && UniqueBeams(x.beams) && NonNegativeCapacity(x.beams) && Priced(urgent)
    ensures LaneSound(x, urgent, DecisionOf(x, urgent))
  {
    var cap, ranked := CapFor(x, urgent), Ranked(x, urgent);
    var run := RunOver(x, cap, ranked);
    RankedMembers(x, urgent);
    DecisionSplits(x, urgent);
    ReservationsAreLegal(x, cap, ranked);
    BooksBalance(x, cap, ranked);
    forall beam | beam in x.beams
      ensures UsedOn(run.reservations, beam.id) <= Product(beam.capacity, x.cfg.reservedFraction) + EPS
    {
      ReservedSliceHolds(x, cap, ranked, beam);
    }
    forall s | s in DecisionOf(x, urgent).shed ensures ShedForCause(x, cap, run, s) {
      ShedHasCause(x, urgent, s);
    }
  }

  lemma DecisionSplits(x: Context, urgent: seq<ServiceRequest>)
    requires x.Valid()
    ensures var d := DecisionOf(x, urgent); Split(urgent, d.admitted, Map(RejectedOf, d.shed))
  {
    var cap, ranked := CapFor(x, urgent), Ranked(x, urgent);
    var run := RunOver(x, cap, ranked);
    var barred := BarredOnes(x.cfg, urgent, x.step);
    RankedMembers(x, urgent);
    ViableSplit(x.cfg, urgent, x.step);
    OfferedSplit(x, cap, ranked);
    MapAppend(RejectedOf, barred, Map(LaneFull, run.full));
    assert Map(RejectedOf, Map(LaneFull, run.full)) == run.full;
  }

  lemma ShedHasCause(x: Context, urgent: seq<ServiceRequest>, s: RejectedRequest)
    requires x.Valid() && Priced(urgent) && s in DecisionOf(x, urgent).shed
    ensures ShedForCause(x, CapFor(x, urgent), RunOver(x, CapFor(x, urgent), Ranked(x, urgent)), s)
  {
    if s.reason != EmergencyLaneFull {
      BarredIsBarred(x, urgent, s);
    } else {
      FullIsTurnedAway(x, urgent, s);
    }
  }

  lemma FullIsTurnedAway(x: Context, urgent: seq<ServiceRequest>, s: RejectedRequest)
    requires x.Valid() && Priced(urgent) && s in DecisionOf(x, urgent).shed && s.reason == EmergencyLaneFull
    ensures Barred(x.cfg, s.request, x.step).None?
    ensures TurnedAway(x, CapFor(x, urgent), RunOver(x, CapFor(x, urgent), Ranked(x, urgent)), s.request)
  {
    var cap, ranked := CapFor(x, urgent), Ranked(x, urgent);
    var run := RunOver(x, cap, ranked);
    RankedMembers(x, urgent);
    hide RunOver, Ranked, CapFor, TurnedAway, Viable;
    FullMeansFull(x, cap, ranked);
    OfferedSplitMembers(x, cap, ranked);
    ViableSplit(x.cfg, urgent, x.step);
    assert s !in BarredOnes(x.cfg, urgent, x.step);
    var i :| 0 <= i < |run.full| && Map(LaneFull, run.full)[i] == s;
    assert run.full[i] in run.full;
  }

  lemma FullForOneReason(full: seq<ServiceRequest>)
    ensures forall s :: s in Map(LaneFull, full) ==> s.reason == EmergencyLaneFull
  {
  }

  // What is shed for another reason than a full lane was barred for that reason.
  lemma BarredIsBarred(x: Context, urgent: seq<ServiceRequest>, s: RejectedRequest)
    requires x.Valid() && s in DecisionOf(x, urgent).shed && s.reason != EmergencyLaneFull
    ensures s.request in urgent && Barred(x.cfg, s.request, x.step) == Some(s.reason)
  {
    var full := RunOver(x, CapFor(x, urgent), Ranked(x, urgent)).full;
    hide RunOver, Ranked, CapFor, Barred, Viable;
    var barred := BarredOnes(x.cfg, urgent, x.step);
    ViableSplit(x.cfg, urgent, x.step);
    FullForOneReason(full);
    MapMember(RejectedOf, barred, s.request);
    assert s.request in multiset(Map(RejectedOf, barred));
    assert s.request in multiset(urgent);
  }

  lemma OfferedSplitMembers(x: Context, cap: real, ranked: seq<ServiceRequest>)
    requires x.Valid()
    ensures forall r :: r in RunOver(x, cap, ranked).full ==> r in ranked
  {
    OfferedSplit(x, cap, ranked);
    forall r | r in RunOver(x, cap, ranked).full ensures r in ranked {
      assert r in multiset(RunOver(x, cap, ranked).full);
      assert r in multiset(ranked);
    }
  }

  // ------------------------------------------------------------------ fairness between regions and requests

  // What one region may take: a fair share of the whole reserve, scaled and never above it.
  lemma CapIsFair(x: Context, urgent: seq<ServiceRequest>)
    requires x.Valid()
    ensures 0.0 <= CapFor(x, urgent) <= Sum(x.Reserve())
  {
    forall i | 0 <= i < |x.Reserve()| ensures x.Reserve()[i] >= 0.0 {
      assert x.Pool()[i] in x.Pool();
    }
    SumBounds(x.Reserve());
    var regions := |RegionsOf(Ranked(x, urgent))|;
    if regions > 0 {
      QuotientNonNegative(Sum(x.Reserve()), regions as real);
      assert Product(Sum(x.Reserve()) / regions as real, x.cfg.geoFairnessWeight) >= 0.0;
    }
  }

  // Geographic fairness of a decision, and its two ways of adding up.
  lemma RegionsShareFairly(x: Context, urgent: seq<ServiceRequest>)
    requires x.Valid()
    ensures var d := DecisionOf(x, urgent);
      && |d.admitted| == |d.reservations|
      && forall region :: ReservedFor(region, d.admitted, d.reservations) <= CapFor(x, urgent) + EPS
    ensures var d := DecisionOf(x, urgent);
      d.unitsUsed == ReservedFor(NA, d.admitted, d.reservations) + ReservedFor(EU, d.admitted, d.reservations)
        + ReservedFor(APAC, d.admitted, d.reservations) + ReservedFor(LATAM, d.admitted, d.reservations)
        + ReservedFor(Ocean, d.admitted, d.reservations)
  {
    var cap, ranked := CapFor(x, urgent), Ranked(x, urgent);
    var run := RunOver(x, cap, ranked);
    CapIsFair(x, urgent);
    BooksBalance(x, cap, ranked);
    RegionCapsHold(x, cap, ranked);
    forall region ensures ReservedFor(region, run.admitted, run.reservations) <= cap + EPS {
      assert UsedBy(run.regionUse, region) == ReservedFor(region, run.admitted, run.reservations);
    }
  }

  // What was turned away at position j is still turned away after any longer prefix.
  lemma {:induction false} TurnedAwayForGood(x: Context, cap: real, ranked: seq<ServiceRequest>, j: nat)
    requires x.Valid() && Priced(ranked) && j < |ranked|
    requires Choice(x, cap, RunOver(x, cap, ranked[..j]), ranked[j]).None?
    ensures TurnedAway(x, cap, RunOver(x, cap, ranked), ranked[j])
  {
    hide Choice, NoRoom, OverCap, EstimateCost, ReservationFor;
    var n := |ranked| - 1;
    var before, r := RunOver(x, cap, ranked[..n]), ranked[j];
    if j < n {
      assert ranked[..n][..j] == ranked[..j] && ranked[..n][j] == r;
      TurnedAwayForGood(x, cap, ranked[..n], j);
    } else {
      ChoiceMeaning(x, cap, before, r);
    }
    TurnedAwayStays(x, cap, before, ranked[n], r);
  }

  // No overtaking in the lane: once a request is turned away, no less urgent one of its region
  // costing at least as much is admitted.
  lemma NoOvertaking(x: Context, cap: real, ranked: seq<ServiceRequest>, j: nat, k: nat)
    requires x.Valid() && Priced(ranked) && j < k < |ranked|
    requires ranked[j].region == ranked[k].region
    requires EstimateCost(x.pricing, ranked[j]) <= EstimateCost(x.pricing, ranked[k])
    requires Choice(x, cap, RunOver(x, cap, ranked[..j]), ranked[j]).None?
    ensures Choice(x, cap, RunOver(x, cap, ranked[..k]), ranked[k]).None?
  {
    var run := RunOver(x, cap, ranked[..k]);
    assert ranked[..k][..j] == ranked[..j];
    TurnedAwayForGood(x, cap, ranked[..k], j);
    if !OverCap(x, cap, run.regionUse, ranked[j]) {
      forall i | 0 <= i < |run.remaining|
        ensures !HasRoom(x, ranked[k], EstimateCost(x.pricing, ranked[k]), x.Pool()[i], run.remaining[i])
      {
        assert !HasRoom(x, ranked[j], EstimateCost(x.pricing, ranked[j]), x.Pool()[i], run.remaining[i]);
      }
    }
    ChoiceMeaning(x, cap, run, ranked[k]);
  }

  function VerdictAt(x: Context, cap: real, ranked: seq<ServiceRequest>, k: nat): Option<nat>
    requires x.pricing.bytesPerUnit > 0.0 && x.pricing.minLinkQuality > 0.0 && k < |ranked|
  {
    Choice(x, cap, RunOver(x, cap, ranked[..k]), ranked[k])
  }

  lemma {:induction false} AdmittedAt(x: Context, cap: real, ranked: seq<ServiceRequest>,
                                      r: ServiceRequest) returns (k: nat)
    requires x.Valid() && r in RunOver(x, cap, ranked).admitted
    ensures k < |ranked| && ranked[k] == r && VerdictAt(x, cap, ranked, k).Some?
  {
    hide Choice, EstimateCost, ReservationFor;
    var n := |ranked| - 1;
    if r in RunOver(x, cap, ranked[..n]).admitted {
      k := AdmittedAt(x, cap, ranked[..n], r);
      assert ranked[..n][..k] == ranked[..k];
    } else {
      k := n;
    }
  }

  lemma {:induction false} FullAt(x: Context, cap: real, ranked: seq<ServiceRequest>,
                                  r: ServiceRequest) returns (k: nat)
    requires x.Valid() && r in RunOver(x, cap, ranked).full
    ensures k < |ranked| && ranked[k] == r && VerdictAt(x, cap, ranked, k).None?
  {
    hide Choice, EstimateCost, ReservationFor;
    var n := |ranked| - 1;
    if r in RunOver(x, cap, ranked[..n]).full {
      k := FullAt(x, cap, ranked[..n], r);
      assert ranked[..n][..k] == ranked[..k];
    } else {
      k := n;
    }
  }

  // The first request has the better claim: a higher emergency score (or the same and a lower id),
  // in the same region, at no larger cost.
  predicate Outranks(x: Context, c: ServiceRequest, d: ServiceRequest)
    requires x.pricing.bytesPerUnit > 0.0 && x.pricing.minLinkQuality > 0.0
  {
    && EmergencyScore(x.cfg, c, x.step) >= EmergencyScore(x.cfg, d, x.step)
    && (EmergencyScore(x.cfg, c, x.step) == EmergencyScore(x.cfg, d, x.step) ==> c.id < d.id)
    && c.region == d.region
    && EstimateCost(x.pricing, c) <= EstimateCost(x.pricing, d)
  }

  ghost predicate NoneOvertaken(x: Context, run: Run)
    requires x.Valid()
  {
    forall c, d :: c in run.full && d in run.admitted ==> !Outranks(x, c, d)
  }

  // Whoever the lane admits, no request it shed as full had a better claim.
  lemma BetterClaimsComeFirst(x: Context, urgent: seq<ServiceRequest>)
    requires x.Valid() && Priced(urgent)
    ensures NoneOvertaken(x, RunOver(x, CapFor(x, urgent), Ranked(x, urgent)))
  {
    var cap, ranked := CapFor(x, urgent), Ranked(x, urgent);
    var run := RunOver(x, cap, ranked);
    RankedMembers(x, urgent);
    forall c, d | c in run.full && d in run.admitted ensures !Outranks(x, c, d) {
      if Outranks(x, c, d) {
        var j := FullAt(x, cap, ranked, c);
        var k := AdmittedAt(x, cap, ranked, d);
        PrecedesInOrder(UrgencyKey(x.cfg, x.step), ranked, j, k);
        NoOvertaking(x, cap, ranked, j, k);
        assert false;
      }
    }
  }

  // ------------------------------------------------------------------ arrival order

  lemma {:induction false} CountViable(cfg: LaneConfig, urgent: seq<ServiceRequest>, step: int, r: ServiceRequest)
    ensures multiset(Viable(cfg, urgent, step))[r] == if Barred(cfg, r, step).None? then multiset(urgent)[r] else 0
  {
    if urgent != [] {
      var n := |urgent| - 1;
      CountViable(cfg, urgent[..n], step, r);
      hide Barred;
      MultisetLast(urgent);
      var viable := Viable(cfg, urgent[..n], step);
      MultisetSnoc(viable, urgent[n]);
      assert viable + [] == viable;
    }
  }

  lemma {:induction false} CountBarred(cfg: LaneConfig, urgent: seq<ServiceRequest>, step: int, s: RejectedRequest)
    ensures multiset(BarredOnes(cfg, urgent, step))[s]
      == if Barred(cfg, s.request, step) == Some(s.reason) then multiset(urgent)[s.request] else 0
  {
    if urgent != [] {
      var n := |urgent| - 1;
      CountBarred(cfg, urgent[..n], step, s);
      hide Barred;
      MultisetLast(urgent);
      var barred, reason := BarredOnes(cfg, urgent[..n], step), Barred(cfg, urgent[n], step);
      if reason.Some? {
        MultisetSnoc(barred, RejectedRequest(urgent[n], reason.value));
      } else {
        assert barred + [] == barred;
      }
    }
  }

  ghost predicate UniqueRequests(requests: seq<ServiceRequest>) {
    forall r, s :: r in requests && s in requests && r.id == s.id ==> r == s
  }

  lemma SameViable(cfg: LaneConfig, urgent: seq<ServiceRequest>, others: seq<ServiceRequest>, step: int)
    requires multiset(urgent) == multiset(others)
    ensures multiset(Viable(cfg, urgent, step)) == multiset(Viable(cfg, others, step))
  {
    hide Barred, Viable;
    forall r ensures multiset(Viable(cfg, urgent, step))[r] == multiset(Viable(cfg, others, step))[r] {
      CountViable(cfg, urgent, step, r);
      CountViable(cfg, others, step, r);
    }
  }

  lemma SameBarred(cfg: LaneConfig, urgent: seq<ServiceRequest>, others: seq<ServiceRequest>, step: int)
    requires multiset(urgent) == multiset(others)
    ensures multiset(BarredOnes(cfg, urgent, step)) == multiset(BarredOnes(cfg, others, step))
  {
    hide Barred, BarredOnes;
    forall s ensures multiset(BarredOnes(cfg, urgent, step))[s] == multiset(BarredOnes(cfg, others, step))[s] {
      CountBarred(cfg, urgent, step, s);
      CountBarred(cfg, others, step, s);
    }
  }

  lemma ViableIdentified(x: Context, urgent: seq<ServiceRequest>)
    requires UniqueRequests(urgent)
    ensures KeyIdentifies(UrgencyKey(x.cfg, x.step), Viable(x.cfg, urgent, x.step))
  {
    hide Barred, EmergencyScore;
    var viable := Viable(x.cfg, urgent, x.step);
    forall r | r in viable ensures r in urgent {
      CountViable(x.cfg, urgent, x.step, r);
      assert r in multiset(viable);
      assert r in multiset(urgent);
    }
  }

  // With unique ids the lane ranks the same for every arrival order.
  lemma RankIgnoresOrder(x: Context, urgent: seq<ServiceRequest>, others: seq<ServiceRequest>)
    requires multiset(urgent) == multiset(others) && UniqueRequests(urgent)
    ensures Ranked(x, urgent) == Ranked(x, others)
  {
    SameViable(x.cfg, urgent, others, x.step);
    ViableIdentified(x, urgent);
    hide Viable, UrgencyKey, KeyIdentifies;
    SortIgnoresOrder(UrgencyKey(x.cfg, x.step), Viable(x.cfg, urgent, x.step), Viable(x.cfg, others, x.step));
  }

  // With unique ids the lane decides the same for every arrival order; only the order in which it
  // lists the barred requests follows the arrivals.
  lemma DecisionIgnoresOrder(x: Context, urgent: seq<ServiceRequest>, others: seq<ServiceRequest>)
    requires x.Valid() && multiset(urgent) == multiset(others) && UniqueRequests(urgent)
    ensures var d, e := DecisionOf(x, urgent), DecisionOf(x, others);
      && d.admitted == e.admitted && d.reservations == e.reservations && d.unitsUsed == e.unitsUsed
      && multiset(d.shed) == multiset(e.shed)
  {
    RankIgnoresOrder(x, urgent, others);
    SameBarred(x.cfg, urgent, others, x.step);
    hide RunOver, Ranked, BarredOnes, Map;
    assert CapFor(x, urgent) == CapFor(x, others);
  }
}
