// Random access: every user picks a beam and a random set of resource blocks (RBs); an RB chosen
// by more users than the capture capacity fails all of them, a recovered RB splits its airtime.
module ContentionMac {
  import opened Domain
  import opened Reals
  import opened Collections
  import opened SchedulerPort
  import opened LinkAdaptation
  import opened SlotMac

  datatype Attempt = Attempt(candidate: ScheduleCandidate, beam: Beam, rbs: set<nat>, degraded: bool)

  // The randomness of one call, per position in id order: a number that picks the beam, and the
  // order in which distinct RB indices come up.
  datatype Draws = Draws(pick: nat -> nat, shuffle: nat -> seq<nat>)
  {
    ghost predicate Fair(n: nat) {
      forall i :: PermutationOf(shuffle(i), n)
    }
  }

  ghost predicate PermutationOf(s: seq<nat>, n: nat) {
    && |s| == n
    && (forall i :: 0 <= i < n ==> s[i] < n)
    && (forall i, j :: 0 <= i < j < n ==> s[i] != s[j])
  }

  function ById(c: ScheduleCandidate): Key {
    Key(0.0, c.request.id)
  }

  function EligibleBeams(c: ScheduleCandidate, beams: seq<Beam>): seq<Beam> {
    Filter((beam: Beam) => Eligible(c, beam), beams)
  }

  // The ceiling of the first option naming the beam's fleet and band.
  function FirstLimit(options: seq<CandidateOption>, fleet: FleetId, band: Band): Limit {
    if options == [] then Unbounded
    else if options[0].fleet == fleet && options[0].band == band then options[0].maxAirtime
    else FirstLimit(options[1..], fleet, band)
  }

  // How many RBs this user attempts, and whether that is less than it needs; zero means none.
  function RbsFor(m: MacConfig, c: ScheduleCandidate, beam: Beam): (nat, bool)
    requires m.mcsTable != []
  {
    var needed := RbsNeeded(m, c.request);
    var cap := RequestCap(m, needed);
    var reg := RegulatoryCapRbs(FirstLimit(c.options, beam.fleet, beam.band), RbUnits(m, beam), m.rbsPerBeam);
    var k := LeastOf(LeastOf(needed, cap), LeastOf(reg, m.rbsPerBeam));
    if k >= needed then (needed, false)
    else if c.degradable && k >= RbFloor(m, needed) then (k, true)
    else (0, false)
  }

  function SampleRbs(shuffle: seq<nat>, k: nat): set<nat> {
    set r | r in shuffle[..LeastOf(k, |shuffle|)]
  }

  function TryAttempt(m: MacConfig, c: ScheduleCandidate, beams: seq<Beam>, pick: nat,
                      shuffle: seq<nat>): Option<Attempt>
    requires m.mcsTable != []
  {
    var eligible := EligibleBeams(c, beams);
    if eligible == [] then None
    else
      var beam := eligible[pick % |eligible|];
      var (k, degraded) := RbsFor(m, c, beam);
      if k == 0 then None else Some(Attempt(c, beam, SampleRbs(shuffle, k), degraded))
  }

  // ------------------------------------------------------------------ pass one: everybody transmits

  datatype PassOne = PassOne(attempts: seq<Attempt>, refused: seq<ScheduleCandidate>, expired: seq<ScheduleCandidate>)

  function Transmit(m: MacConfig, beams: seq<Beam>, step: int, cs: seq<ScheduleCandidate>, draws: Draws): PassOne
    requires m.mcsTable != []
  {
    if cs == [] then PassOne([], [], [])
    else
      var n := |cs| - 1;
      var before := Transmit(m, beams, step, cs[..n], draws);
      if cs[n].request.IsExpired(step) then before.(expired := before.expired + [cs[n]])
      else
        match TryAttempt(m, cs[n], beams, draws.pick(n), draws.shuffle(n))
        case None => before.(refused := before.refused + [cs[n]])
        case Some(attempt) => before.(attempts := before.attempts + [attempt])
  }

  // How many users transmitted on one RB of one beam.
  function Occupancy(attempts: seq<Attempt>, beam: BeamId, rb: nat): nat {
    if attempts == [] then 0
    else
      var last := attempts[|attempts| - 1];
      Occupancy(attempts[..|attempts| - 1], beam, rb) + if last.beam.id == beam && rb in last.rbs then 1 else 0
  }

  // ------------------------------------------------------------------ pass two: who is recovered

  predicate Recovered(capture: nat, all: seq<Attempt>, a: Attempt) {
    forall rb :: rb in a.rbs ==> Occupancy(all, a.beam.id, rb) <= capture
  }

  // A fair part of one RB's airtime.
  function Share(unit: real, users: nat): real {
    if users == 0 then 0.0 else unit / users as real
  }

  // Airtime the attempt earns on RBs below n.
  function Airtime(all: seq<Attempt>, a: Attempt, unit: real, n: nat): real {
    if n == 0 then 0.0
    else
      Airtime(all, a, unit, n - 1)
        + if n - 1 in a.rbs then Share(unit, Occupancy(all, a.beam.id, n - 1)) else 0.0
  }

  function AllocationFor(m: MacConfig, all: seq<Attempt>, a: Attempt): Allocation {
    Allocation(a.candidate.request.id, a.beam.fleet, a.beam.id, a.beam.band,
               Airtime(all, a, RbUnits(m, a.beam), m.rbsPerBeam), Clamp01(a.candidate.request.linkQuality), a.degraded)
  }

  function Winners(m: MacConfig, all: seq<Attempt>, attempts: seq<Attempt>): seq<Placed> {
    if attempts == [] then []
    else
      var n := |attempts| - 1;
      Winners(m, all, attempts[..n])
        + if Recovered(m.captureCapacity, all, attempts[n])
        then [Placed(attempts[n].candidate, AllocationFor(m, all, attempts[n]))] else []
  }

  function Colliders(m: MacConfig, all: seq<Attempt>, attempts: seq<Attempt>): seq<ScheduleCandidate> {
    if attempts == [] then []
    else
      var n := |attempts| - 1;
      Colliders(m, all, attempts[..n])
        + if Recovered(m.captureCapacity, all, attempts[n]) then [] else [attempts[n].candidate]
  }

  function ScheduleOf(m: MacConfig, cs: seq<ScheduleCandidate>, beams: seq<Beam>, step: int,
                      draws: Draws): SchedulingResult
    requires m.mcsTable != []
  {
    var first := Transmit(m, beams, step, Sort(ById, cs), draws);
    var winners := Winners(m, first.attempts, first.attempts);
    var losers := first.refused + Colliders(m, first.attempts, first.attempts);
    Conclude(cs, beams, Map(PlacedAllocation, winners), Map(PlacedRequest, winners),
             Map(RequestOf, losers), Map(DeadlineMiss, first.expired))
  }

  // ------------------------------------------------------------------ the scheduler

  type Grid = map<(BeamId, nat), nat>

  function CountAt(occupancy: Grid, beam: BeamId, rb: nat): nat {
    if (beam, rb) in occupancy then occupancy[(beam, rb)] else 0
  }

  ghost predicate Counts(occupancy: Grid, attempts: seq<Attempt>) {
    forall beam, rb: nat :: CountAt(occupancy, beam, rb) == Occupancy(attempts, beam, rb)
  }

  // Marks one attempt's RBs as used once more.
  method Occupy(occupancy: Grid, ghost attempts: seq<Attempt>, a: Attempt, n: nat) returns (next: Grid)
    requires Counts(occupancy, attempts)
    requires forall rb :: rb in a.rbs ==> rb < n
    ensures Counts(next, attempts + [a])
  {
    next := occupancy;
    for rb := 0 to n
      invariant forall beam, r: nat ::
        CountAt(next, beam, r) == Occupancy(attempts, beam, r) + if beam == a.beam.id && r in a.rbs
          && r < rb then 1 else 0
    {
      if rb in a.rbs {
        next := next[(a.beam.id, rb) := CountAt(next, a.beam.id, rb) + 1];
      }
    }
    assert (attempts + [a])[..|attempts|] == attempts;
  }

  method SumShares(m: MacConfig, occupancy: Grid, ghost all: seq<Attempt>, a: Attempt) returns (units: real)
    requires Counts(occupancy, all)
    ensures units == Airtime(all, a, RbUnits(m, a.beam), m.rbsPerBeam)
  {
    units := 0.0;
    for rb := 0 to m.rbsPerBeam
      invariant units == Airtime(all, a, RbUnits(m, a.beam), rb)
    {
      if rb in a.rbs {
        units := units + Share(RbUnits(m, a.beam), CountAt(occupancy, a.beam.id, rb));
      }
    }
  }

  // Pass two: every attempt either recovers all its RBs, and is granted its shares, or collides.
  method ResolveAll(m: MacConfig, attempts: seq<Attempt>, occupancy: Grid)
    returns (allocations: seq<Allocation>, served: seq<ServiceRequest>, lost: seq<ServiceRequest>)
    requires m.rbsPerBeam > 0 && Counts(occupancy, attempts)
    ensures allocations == Map(PlacedAllocation, Winners(m, attempts, attempts))
    ensures served == Map(PlacedRequest, Winners(m, attempts, attempts))
    ensures lost == Map(RequestOf, Colliders(m, attempts, attempts))
  {
    allocations, served, lost := [], [], [];
    for i := 0 to |attempts|
      invariant allocations == Map(PlacedAllocation, Winners(m, attempts, attempts[..i]))
      invariant served == Map(PlacedRequest, Winners(m, attempts, attempts[..i]))
      invariant lost == Map(RequestOf, Colliders(m, attempts, attempts[..i]))
    {
      var attempt := attempts[i];
      assert attempts[..i + 1][..i] == attempts[..i];
      if exists rb :: rb in attempt.rbs && CountAt(occupancy, attempt.beam.id, rb) > m.captureCapacity {
        assert !Recovered(m.captureCapacity, attempts, attempt);
        MapSnoc(RequestOf, Colliders(m, attempts, attempts[..i]), attempt.candidate);
        lost := lost + [attempt.candidate.request];
      } else {
        assert Recovered(m.captureCapacity, attempts, attempt);
        var units := SumShares(m, occupancy, attempts, attempt);
        var allocation := Allocation(attempt.candidate.request.id, attempt.beam.fleet, attempt.beam.id,
          attempt.beam.band,
                                     units, Clamp01(attempt.candidate.request.linkQuality), attempt.degraded);
        ghost var won := Winners(m, attempts, attempts[..i]);
        MapSnoc(PlacedAllocation, won, Placed(attempt.candidate, allocation));
        MapSnoc(PlacedRequest, won, Placed(attempt.candidate, allocation));
        allocations := allocations + [allocation];
        served := served + [attempt.candidate.request];
      }
    }
    assert attempts[..|attempts|] == attempts;
  }

  // Pass one: who transmits where, and how crowded each RB gets.
  method TransmitAll(m: MacConfig, ordered: seq<ScheduleCandidate>, beams: seq<Beam>, step: int, draws: Draws)
    returns (attempts: seq<Attempt>, occupancy: Grid, deferred: seq<ServiceRequest>, dropped: seq<RejectedRequest>)
    requires m.mcsTable != [] && draws.Fair(m.rbsPerBeam)
    ensures var first := Transmit(m, beams, step, ordered, draws);
      && attempts == first.attempts
      && deferred == Map(RequestOf, first.refused)
      && dropped == Map(DeadlineMiss, first.expired)
    ensures Counts(occupancy, attempts)
  {
    attempts, occupancy, deferred, dropped := [], map[], [], [];
    for i := 0 to |ordered|
      invariant attempts == Transmit(m, beams, step, ordered[..i], draws).attempts
      invariant deferred == Map(RequestOf, Transmit(m, beams, step, ordered[..i], draws).refused)
      invariant dropped == Map(DeadlineMiss, Transmit(m, beams, step, ordered[..i], draws).expired)
      invariant Counts(occupancy, attempts)
    {
      ghost var before := Transmit(m, beams, step, ordered[..i], draws);
      assert ordered[..i + 1][..i] == ordered[..i];
      var candidate := ordered[i];
      if candidate.request.IsExpired(step) {
        MapSnoc(DeadlineMiss, before.expired, candidate);
        dropped := dropped + [DeadlineMiss(candidate)];
      } else {
        var attempt := TryAttempt(m, candidate, beams, draws.pick(i), draws.shuffle(i));
        if attempt.None? {
          MapSnoc(RequestOf, before.refused, candidate);
          deferred := deferred + [candidate.request];
        } else {
          AttemptInGrid(m, candidate, beams, draws.pick(i), draws.shuffle(i));
          occupancy := Occupy(occupancy, attempts, attempt.value, m.rbsPerBeam);
          attempts := attempts + [attempt.value];
        }
      }
    }
    assert ordered[..|ordered|] == ordered;
  }

  method Schedule(m: MacConfig, cs: seq<ScheduleCandidate>, beams: seq<Beam>, step: int, draws: Draws)
    returns (r: SchedulingResult)
    requires m.Valid() && draws.Fair(m.rbsPerBeam)
    ensures r == ScheduleOf(m, cs, beams, step, draws)
  {
    var ordered := Sort(ById, cs);
    var attempts, occupancy, deferred, dropped := TransmitAll(m, ordered, beams, step, draws);
    var allocations, served, lost := ResolveAll(m, attempts, occupancy);
    MapAppend(RequestOf, Transmit(m, beams, step, ordered, draws).refused, Colliders(m, attempts, attempts));
    r := Conclude(cs, beams, allocations, served, deferred + lost, dropped);
  }

  // ------------------------------------------------------------------ what one attempt is

  // Number of RBs below n in a set.
  function CountIn(rbs: set<nat>, n: nat): nat {
    if n == 0 then 0 else CountIn(rbs, n - 1) + if n - 1 in rbs then 1 else 0
  }

  lemma {:induction false} CountInGrows(rbs: set<nat>, rb: nat, n: nat)
    requires rb !in rbs
    ensures CountIn(rbs + {rb}, n) == CountIn(rbs, n) + if rb < n then 1 else 0
  {
    if n > 0 {
      CountInGrows(rbs, rb, n - 1);
    }
  }

  // Drawing k distinct indices gives exactly k RBs of the grid.
  lemma {:induction false} SampleSize(shuffle: seq<nat>, k: nat, n: nat)
    requires PermutationOf(shuffle, n) && k <= n
    ensures CountIn(SampleRbs(shuffle, k), n) == k
  {
    if k == 0 {
      EmptyCount(n);
      assert SampleRbs(shuffle, 0) == {};
    } else {
      SampleSize(shuffle, k - 1, n);
      var fewer := SampleRbs(shuffle, k - 1);
      assert SampleRbs(shuffle, k) == fewer + {shuffle[k - 1]} by {
        assert shuffle[..k] == shuffle[..k - 1] + [shuffle[k - 1]];
      }
      CountInGrows(fewer, shuffle[k - 1], n);
    }
  }

  lemma EmptyCount(n: nat)
    ensures CountIn({}, n) == 0
  {
  }

  ghost predicate GoodAttempt(m: MacConfig, a: Attempt, beams: seq<Beam>)
    requires m.mcsTable != []
  {
    && a.beam in beams && Eligible(a.candidate, a.beam)
    && (forall rb :: rb in a.rbs ==> rb < m.rbsPerBeam)
    && 1 <= CountIn(a.rbs, m.rbsPerBeam) <= RbsNeeded(m, a.candidate.request)
    && CountIn(a.rbs, m.rbsPerBeam) <= RequestCap(m, RbsNeeded(m, a.candidate.request))
    && (a.degraded <==> CountIn(a.rbs, m.rbsPerBeam) < RbsNeeded(m, a.candidate.request))
    && (a.degraded ==>
      a.candidate.degradable && CountIn(a.rbs, m.rbsPerBeam) >= RbFloor(m, RbsNeeded(m, a.candidate.request)))
    && CountIn(a.rbs, m.rbsPerBeam)
      <= RegulatoryCapRbs(FirstLimit(a.candidate.options, a.beam.fleet, a.beam.band), RbUnits(m, a.beam), m.rbsPerBeam)
  }

  // An attempt lies in the grid of an eligible beam, holds exactly the RBs decided for it, and is
  // marked degraded exactly when that is less than it needs.
  lemma AttemptInGrid(m: MacConfig, c: ScheduleCandidate, beams: seq<Beam>, pick: nat, shuffle: seq<nat>)
    requires m.mcsTable != [] && PermutationOf(shuffle, m.rbsPerBeam)
    ensures var a := TryAttempt(m, c, beams, pick, shuffle);
      a.Some? ==> a.value.candidate == c && GoodAttempt(m, a.value, beams)
  {
    var eligible := EligibleBeams(c, beams);
    if eligible != [] {
      var beam := eligible[pick % |eligible|];
      assert beam in eligible;
      var k := RbsFor(m, c, beam).0;
      SampleSize(shuffle, k, m.rbsPerBeam);
    }
  }

  ghost predicate GoodAttempts(m: MacConfig, attempts: seq<Attempt>, cs: seq<ScheduleCandidate>, beams: seq<Beam>,
                               step: int)
    requires m.mcsTable != []
  {
    forall a :: a in attempts ==> GoodAttempt(m, a, beams) && a.candidate in cs && !a.candidate.request.IsExpired(step)
  }

  lemma {:induction false} AttemptsAreGood(m: MacConfig, beams: seq<Beam>, step: int, cs: seq<ScheduleCandidate>,
                                           draws: Draws)
    requires m.mcsTable != [] && draws.Fair(m.rbsPerBeam)
    ensures GoodAttempts(m, Transmit(m, beams, step, cs, draws).attempts, cs, beams, step)
  {
    if cs != [] {
      var n := |cs| - 1;
      AttemptsAreGood(m, beams, step, cs[..n], draws);
      assert forall c :: c in cs[..n] ==> c in cs;
      AttemptInGrid(m, cs[n], beams, draws.pick(n), draws.shuffle(n));
    }
  }

  // ------------------------------------------------------------------ double counting over the grid

  // Recovered users among the attempts that hold one RB of one beam.
  function Holders(capture: nat, all: seq<Attempt>, attempts: seq<Attempt>, beam: BeamId, rb: nat): nat {
    if attempts == [] then 0
    else
      var last := attempts[|attempts| - 1];
      Holders(capture, all, attempts[..|attempts| - 1], beam, rb)
        + if last.beam.id == beam && rb in last.rbs && Recovered(capture, all, last) then 1 else 0
  }

  // Never more holders than transmitters, and never more than the capture capacity.
  lemma {:induction false} HoldersBound(capture: nat, all: seq<Attempt>, attempts: seq<Attempt>, beam: BeamId, rb: nat)
    ensures Holders(capture, all, attempts, beam, rb) <= Occupancy(attempts, beam, rb)
    ensures Holders(capture, all, attempts, beam, rb) > 0 ==> Occupancy(all, beam, rb) <= capture
  {
    if attempts != [] {
      HoldersBound(capture, all, attempts[..|attempts| - 1], beam, rb);
    }
  }

  // The beam's airtime bill read RB by RB: each holder of an RB pays one share of it.
  function Charged(capture: nat, all: seq<Attempt>, attempts: seq<Attempt>, beam: BeamId, unit: real, n: nat): real {
    if n == 0 then 0.0
    else
      Charged(capture, all, attempts, beam, unit, n - 1)
        + Product(Holders(capture, all, attempts, beam, n - 1) as real, Share(unit, Occupancy(all, beam, n - 1)))
  }

  // One more user adds to the bill exactly the airtime that user earns.
  lemma {:induction false} ChargeOne(capture: nat, all: seq<Attempt>, attempts: seq<Attempt>, a: Attempt,
                                     beam: BeamId, unit: real, n: nat)
    ensures Charged(capture, all, attempts + [a], beam, unit, n)
      == Charged(capture, all, attempts, beam, unit, n)
        + if a.beam.id == beam && Recovered(capture, all, a) then Airtime(all, a, unit, n) else 0.0
  {
    if n > 0 {
      ChargeOne(capture, all, attempts, a, beam, unit, n - 1);
      assert (attempts + [a])[..|attempts|] == attempts;
      var share := Share(unit, Occupancy(all, beam, n - 1));
      ProductAdds(Holders(capture, all, attempts, beam, n - 1) as real, 1.0, share);
      assert Product(1.0, share) == share;
    }
  }

  ghost predicate OnBeams(attempts: seq<Attempt>, beams: seq<Beam>) {
    forall a :: a in attempts ==> a.beam in beams
  }

  lemma SameBeam(beams: seq<Beam>, a: Beam, b: Beam)
    requires UniqueBeams(beams) && a in beams && b in beams && a.id == b.id
    ensures a == b
  {
  }

  lemma WinOne(m: MacConfig, all: seq<Attempt>, attempts: seq<Attempt>, a: Attempt, beam: BeamId)
    ensures UsedOn(Map(PlacedAllocation, Winners(m, all, attempts + [a])), beam)
      == UsedOn(Map(PlacedAllocation, Winners(m, all, attempts)), beam)
        + if a.beam.id == beam && Recovered(m.captureCapacity, all, a)
          then Airtime(all, a, RbUnits(m, a.beam), m.rbsPerBeam) else 0.0
  {
    assert (attempts + [a])[..|attempts|] == attempts;
    var won := Winners(m, all, attempts);
    if Recovered(m.captureCapacity, all, a) {
      var allocation := AllocationFor(m, all, a);
      MapSnoc(PlacedAllocation, won, Placed(a.candidate, allocation));
      UsedSnoc(Map(PlacedAllocation, won), allocation, beam);
    } else {
      assert won + [] == won;
    }
  }

  // Reading the bill user by user or RB by RB gives the same total.
  lemma {:induction false} SumsExchange(m: MacConfig, all: seq<Attempt>, attempts: seq<Attempt>, beams: seq<Beam>,
                                        beam: Beam)
    requires UniqueBeams(beams) && OnBeams(attempts, beams) && beam in beams
    ensures UsedOn(Map(PlacedAllocation, Winners(m, all, attempts)), beam.id)
      == Charged(m.captureCapacity, all, attempts, beam.id, RbUnits(m, beam), m.rbsPerBeam)
  {
    var unit, capture := RbUnits(m, beam), m.captureCapacity;
    if attempts == [] {
      EmptyBill(capture, all, beam.id, unit, m.rbsPerBeam);
    } else {
      var n := |attempts| - 1;
      var before, last := attempts[..n], attempts[n];
      assert attempts == before + [last];
      SumsExchange(m, all, before, beams, beam);
      ChargeOne(capture, all, before, last, beam.id, unit, m.rbsPerBeam);
      WinOne(m, all, before, last, beam.id);
      if last.beam.id == beam.id {
        SameBeam(beams, last.beam, beam);
      }
    }
  }

  lemma {:induction false} EmptyBill(capture: nat, all: seq<Attempt>, beam: BeamId, unit: real, n: nat)
    ensures Charged(capture, all, [], beam, unit, n) == 0.0
  {
    if n > 0 {
      EmptyBill(capture, all, beam, unit, n - 1);
    }
  }

  lemma SplitShare(holders: real, users: real, unit: real)
    requires 0.0 <= holders <= users && users > 0.0 && unit >= 0.0
    ensures Product(holders, unit / users) <= unit
  {
    QuotientTimes(unit, users);
    assert unit / users >= 0.0;
    ProductMonotone(unit / users, holders, users);
    assert Product(unit / users, users) == Product(users, unit / users);
    assert Product(unit / users, holders) == Product(holders, unit / users);
  }

  // The holders of an RB together pay at most one RB.
  lemma {:induction false} BillBound(capture: nat, all: seq<Attempt>, beam: BeamId, unit: real, n: nat)
    requires unit >= 0.0
    ensures Charged(capture, all, all, beam, unit, n) <= Product(n as real, unit)
  {
    if n > 0 {
      BillBound(capture, all, beam, unit, n - 1);
      OneRbBound(capture, all, beam, unit, n - 1);
      assert Product(n as real, unit) == Product((n - 1) as real, unit) + unit by {
        ProductAdds((n - 1) as real, 1.0, unit);
        assert Product(1.0, unit) == unit;
      }
      hide Product;
    }
  }

  lemma OneRbBound(capture: nat, all: seq<Attempt>, beam: BeamId, unit: real, rb: nat)
    requires unit >= 0.0
    ensures Product(Holders(capture, all, all, beam, rb) as real, Share(unit, Occupancy(all, beam, rb))) <= unit
  {
    HoldersBound(capture, all, all, beam, rb);
    hide Product;
    var users := Occupancy(all, beam, rb);
    if users > 0 {
      SplitShare(Holders(capture, all, all, beam, rb) as real, users as real, unit);
    }
  }

  // Airtime is conserved: on every beam all served users together get at most its capacity.
  lemma AirtimeConserved(m: MacConfig, all: seq<Attempt>, beams: seq<Beam>)
    requires m.rbsPerBeam > 0 && UniqueBeams(beams) && NonNegativeCapacity(beams) && OnBeams(all, beams)
    ensures WithinCapacity(Map(PlacedAllocation, Winners(m, all, all)), beams, 0.0)
  {
    forall beam | beam in beams
      ensures UsedOn(Map(PlacedAllocation, Winners(m, all, all)), beam.id) <= beam.capacity
    {
      SumsExchange(m, all, all, beams, beam);
      var n := m.rbsPerBeam as real;
      QuotientTimes(beam.capacity, n);
      assert beam.capacity / n >= 0.0;
      BillBound(m.captureCapacity, all, beam.id, RbUnits(m, beam), m.rbsPerBeam);
      assert Product(n, beam.capacity / n) == Product(beam.capacity / n, n);
    }
  }

  // ------------------------------------------------------------------ capture

  // RBs held by recovered users of one beam, counted user by user.
  function HeldRbs(capture: nat, all: seq<Attempt>, attempts: seq<Attempt>, beam: BeamId, n: nat): nat {
    if attempts == [] then 0
    else
      var last := attempts[|attempts| - 1];
      HeldRbs(capture, all, attempts[..|attempts| - 1], beam, n)
        + if last.beam.id == beam && Recovered(capture, all, last) then CountIn(last.rbs, n) else 0
  }

  function ServedOn(capture: nat, all: seq<Attempt>, attempts: seq<Attempt>, beam: BeamId): nat {
    if attempts == [] then 0
    else
      var last := attempts[|attempts| - 1];
      ServedOn(capture, all, attempts[..|attempts| - 1], beam)
        + if last.beam.id == beam && Recovered(capture, all, last) then 1 else 0
  }

  lemma {:induction false} HeldOneMore(capture: nat, all: seq<Attempt>, attempts: seq<Attempt>, beam: BeamId, n: nat)
    ensures HeldRbs(capture, all, attempts, beam, n + 1)
      == HeldRbs(capture, all, attempts, beam, n) + Holders(capture, all, attempts, beam, n)
  {
    if attempts != [] {
      HeldOneMore(capture, all, attempts[..|attempts| - 1], beam, n);
    }
  }

  lemma {:induction false} HeldBound(capture: nat, all: seq<Attempt>, beam: BeamId, n: nat)
    ensures HeldRbs(capture, all, all, beam, n) <= capture * n
  {
    if n == 0 {
      HeldNone(capture, all, all, beam);
    } else {
      HeldBound(capture, all, beam, n - 1);
      HeldOneMore(capture, all, all, beam, n - 1);
      HoldersBound(capture, all, all, beam, n - 1);
      assert capture * n == capture * (n - 1) + capture;
    }
  }

  lemma {:induction false} HeldNone(capture: nat, all: seq<Attempt>, attempts: seq<Attempt>, beam: BeamId)
    ensures HeldRbs(capture, all, attempts, beam, 0) == 0
  {
    if attempts != [] {
      HeldNone(capture, all, attempts[..|attempts| - 1], beam);
    }
  }

  lemma {:induction false} ServedHoldRbs(capture: nat, all: seq<Attempt>, attempts: seq<Attempt>, beam: BeamId, n: nat)
    requires forall a :: a in attempts ==> CountIn(a.rbs, n) >= 1
    ensures ServedOn(capture, all, attempts, beam) <= HeldRbs(capture, all, attempts, beam, n)
  {
    if attempts != [] {
      ServedHoldRbs(capture, all, attempts[..|attempts| - 1], beam, n);
    }
  }

  // With capture capacity C, at most C times the grid size users are served on a beam.
  lemma UsersPerBeam(m: MacConfig, beams: seq<Beam>, step: int, cs: seq<ScheduleCandidate>, draws: Draws, beam: BeamId)
    requires m.mcsTable != [] && draws.Fair(m.rbsPerBeam)
    ensures var all := Transmit(m, beams, step, cs, draws).attempts;
      ServedOn(m.captureCapacity, all, all, beam) <= m.captureCapacity * m.rbsPerBeam
  {
    var all := Transmit(m, beams, step, cs, draws).attempts;
    AttemptsAreGood(m, beams, step, cs, draws);
    ServedHoldRbs(m.captureCapacity, all, all, beam, m.rbsPerBeam);
    HeldBound(m.captureCapacity, all, beam, m.rbsPerBeam);
  }

  lemma {:induction false} OccupancyCounts(attempts: seq<Attempt>, beam: BeamId, rb: nat, i: nat, j: nat)
    requires i < j < |attempts|
    requires attempts[i].beam.id == beam && rb in attempts[i].rbs && attempts[j].beam.id == beam
      && rb in attempts[j].rbs
    ensures Occupancy(attempts, beam, rb) >= 2
  {
    var n := |attempts| - 1;
    if j < n {
      OccupancyCounts(attempts[..n], beam, rb, i, j);
    } else {
      OccupancyPositive(attempts[..n], beam, rb, i);
    }
  }

  lemma {:induction false} OccupancyPositive(attempts: seq<Attempt>, beam: BeamId, rb: nat, i: nat)
    requires i < |attempts| && attempts[i].beam.id == beam && rb in attempts[i].rbs
    ensures Occupancy(attempts, beam, rb) >= 1
  {
    if i < |attempts| - 1 {
      OccupancyPositive(attempts[..|attempts| - 1], beam, rb, i);
    }
  }

  // Pure ALOHA: with capture capacity one, two recovered users of a beam share no RB.
  lemma RecoveredAreDisjoint(all: seq<Attempt>, i: nat, j: nat)
    requires i < j < |all| && all[i].beam.id == all[j].beam.id
    requires Recovered(1, all, all[i]) && Recovered(1, all, all[j])
    ensures all[i].rbs !! all[j].rbs
  {
    forall rb | rb in all[i].rbs ensures rb !in all[j].rbs {
      if rb in all[j].rbs {
        OccupancyCounts(all, all[i].beam.id, rb, i, j);
      }
    }
  }

  lemma NeedIgnoresCapture(m: MacConfig, r: ServiceRequest, capture: nat)
    requires m.mcsTable != []
    ensures RbsNeeded(m.(captureCapacity := capture), r) == RbsNeeded(m, r)
  {
    assert m.(captureCapacity := capture).Ladder() == m.Ladder();
    assert BitsPerRb(m.(captureCapacity := capture), r.linkQuality) == BitsPerRb(m, r.linkQuality);
  }

  lemma RbsForIgnoresCapture(m: MacConfig, c: ScheduleCandidate, beam: Beam, capture: nat)
    requires m.mcsTable != []
    ensures RbsFor(m.(captureCapacity := capture), c, beam) == RbsFor(m, c, beam)
  {
    var wide, needed := m.(captureCapacity := capture), RbsNeeded(m, c.request);
    NeedIgnoresCapture(m, c.request, capture);
    hide RbsNeeded, RegulatoryCapRbs, FirstLimit;
    assert RbUnits(wide, beam) == RbUnits(m, beam);
    assert RequestCap(wide, needed) == RequestCap(m, needed) && RbFloor(wide, needed) == RbFloor(m, needed);
    hide RbUnits, RequestCap, RbFloor;
  }

  lemma AttemptIgnoresCapture(m: MacConfig, c: ScheduleCandidate, beams: seq<Beam>, pick: nat, shuffle: seq<nat>,
                              capture: nat)
    requires m.mcsTable != []
    ensures TryAttempt(m.(captureCapacity := capture), c, beams, pick, shuffle)
      == TryAttempt(m, c, beams, pick, shuffle)
  {
    var eligible := EligibleBeams(c, beams);
    if eligible != [] {
      RbsForIgnoresCapture(m, c, eligible[pick % |eligible|], capture);
    }
  }

  // The attempts do not depend on the capture capacity.
  lemma {:induction false} TransmitIgnoresCapture(m: MacConfig, beams: seq<Beam>, step: int,
                                                  cs: seq<ScheduleCandidate>, draws: Draws, capture: nat)
    requires m.mcsTable != []
    ensures Transmit(m.(captureCapacity := capture), beams, step, cs, draws) == Transmit(m, beams, step, cs, draws)
  {
    if cs != [] {
      var n := |cs| - 1;
      TransmitIgnoresCapture(m, beams, step, cs[..n], draws, capture);
      AttemptIgnoresCapture(m, cs[n], beams, draws.pick(n), draws.shuffle(n), capture);
    }
  }

  lemma {:induction false} WinnersGrow(m: MacConfig, wide: MacConfig, all: seq<Attempt>, attempts: seq<Attempt>,
                                       r: ServiceRequest)
    requires m.captureCapacity <= wide.captureCapacity
    requires r in Map(PlacedRequest, Winners(m, all, attempts))
    ensures r in Map(PlacedRequest, Winners(wide, all, attempts))
  {
    var n := |attempts| - 1;
    var last := attempts[n];
    var tail := if Recovered(m.captureCapacity, all, last)
      then [Placed(last.candidate, AllocationFor(m, all, last))] else [];
    var wideTail := if Recovered(wide.captureCapacity, all, last)
      then [Placed(last.candidate, AllocationFor(wide, all, last))] else [];
    MapAppend(PlacedRequest, Winners(m, all, attempts[..n]), tail);
    MapAppend(PlacedRequest, Winners(wide, all, attempts[..n]), wideTail);
    if r in Map(PlacedRequest, Winners(m, all, attempts[..n])) {
      WinnersGrow(m, wide, all, attempts[..n], r);
    } else {
      assert r in Map(PlacedRequest, tail) && r == last.candidate.request;
      assert Map(PlacedRequest, wideTail)[0] == r;
    }
  }

  ghost predicate AllAmong(few: seq<ServiceRequest>, many: seq<ServiceRequest>) {
    forall r :: r in few ==> r in many
  }

  // Under the same draws, raising the capture capacity serves everyone served before.
  lemma CaptureOnlyHelps(m: MacConfig, cs: seq<ScheduleCandidate>, beams: seq<Beam>, step: int, draws: Draws,
                         capture: nat)
    requires m.mcsTable != [] && m.captureCapacity <= capture
    ensures AllAmong(ScheduleOf(m, cs, beams, step, draws).served,
                     ScheduleOf(m.(captureCapacity := capture), cs, beams, step, draws).served)
  {
    var wide := m.(captureCapacity := capture);
    TransmitIgnoresCapture(m, beams, step, Sort(ById, cs), draws, capture);
    var all := Transmit(m, beams, step, Sort(ById, cs), draws).attempts;
    forall r | r in Map(PlacedRequest, Winners(m, all, all)) ensures r in Map(PlacedRequest, Winners(wide, all, all)) {
      WinnersGrow(m, wide, all, all, r);
    }
  }

  // ------------------------------------------------------------------ the scheduler contract

  lemma {:induction false} FirstLimitIs(options: seq<CandidateOption>, fleet: FleetId, band: Band, i: nat)
    requires i < |options| && Names(options[i], fleet, band)
    requires forall j :: 0 <= j < i ==> !Names(options[j], fleet, band)
    ensures FirstLimit(options, fleet, band) == options[i].maxAirtime
  {
    if i > 0 {
      assert !Names(options[0], fleet, band);
      FirstLimitIs(options[1..], fleet, band, i - 1);
    }
  }

  lemma {:induction false} LastLimitIs(options: seq<CandidateOption>, fleet: FleetId, band: Band, i: nat)
    requires i < |options| && Names(options[i], fleet, band)
    requires forall j :: i < j < |options| ==> !Names(options[j], fleet, band)
    ensures OptionLimit(options, fleet, band) == Some(options[i].maxAirtime)
  {
    var n := |options| - 1;
    if i < n {
      assert !Names(options[n], fleet, band);
      LastLimitIs(options[..n], fleet, band, i);
    }
  }

  // The granted and the random-access schedulers read the same ceiling exactly when the first and
  // the last listing of the pair carry the same one.
  lemma LimitsAgreeExactly(options: seq<CandidateOption>, fleet: FleetId, band: Band, first: nat, last: nat)
    requires first <= last < |options| && Names(options[first], fleet, band) && Names(options[last], fleet, band)
    requires forall j :: 0 <= j < first ==> !Names(options[j], fleet, band)
    requires forall j :: last < j < |options| ==> !Names(options[j], fleet, band)
    ensures OptionLimit(options, fleet, band) == Some(FirstLimit(options, fleet, band))
      <==> options[first].maxAirtime == options[last].maxAirtime
  {
    FirstLimitIs(options, fleet, band, first);
    LastLimitIs(options, fleet, band, last);
  }

  // One pair listed with the ceilings one and two: the schedulers disagree.
  const LISTED_TWICE := [CandidateOption(NextGen, L, AtMost(1.0)), CandidateOption(NextGen, L, AtMost(2.0))]

  lemma LimitsCanDisagree()
    ensures FirstLimit(LISTED_TWICE, NextGen, L) == AtMost(1.0)
    ensures OptionLimit(LISTED_TWICE, NextGen, L) == Some(AtMost(2.0))
  {
    FirstLimitIs(LISTED_TWICE, NextGen, L, 0);
    LastLimitIs(LISTED_TWICE, NextGen, L, 1);
  }

  lemma LimitsAgree(options: seq<CandidateOption>, fleet: FleetId, band: Band)
    requires ConsistentOptions(options) && OptionLimit(options, fleet, band).Some?
    ensures OptionLimit(options, fleet, band) == Some(FirstLimit(options, fleet, band))
  {
    var i := LastListed(options, fleet, band);
    var j := FirstListed(options, fleet, band, i);
  }

  lemma {:induction false} FirstListed(options: seq<CandidateOption>, fleet: FleetId, band: Band,
                                       k: nat) returns (i: nat)
    requires k < |options| && Names(options[k], fleet, band)
    ensures i < |options| && Names(options[i], fleet, band)
    ensures FirstLimit(options, fleet, band) == options[i].maxAirtime
  {
    i := 0;
    if !Names(options[0], fleet, band) {
      i := FirstListed(options[1..], fleet, band, k - 1);
      i := i + 1;
    }
  }

  lemma {:induction false} AirtimeBound(all: seq<Attempt>, a: Attempt, unit: real, n: nat)
    requires unit >= 0.0
    ensures 0.0 <= Airtime(all, a, unit, n) <= Product(CountIn(a.rbs, n) as real, unit)
  {
    if n > 0 {
      AirtimeBound(all, a, unit, n - 1);
      if n - 1 in a.rbs {
        ShareBound(unit, Occupancy(all, a.beam.id, n - 1));
        ProductAdds(CountIn(a.rbs, n - 1) as real, 1.0, unit);
        assert Product(1.0, unit) == unit;
      }
    }
  }

  lemma ShareBound(unit: real, users: nat)
    requires unit >= 0.0
    ensures 0.0 <= Share(unit, users) <= unit
  {
    if users > 0 {
      SplitShare(1.0, users as real, unit);
      assert unit / users as real >= 0.0;
      assert Product(1.0, unit / users as real) == unit / users as real;
    }
  }

  // A recovered attempt's airtime stays within its option's ceiling, without slack.
  lemma AttemptIsLegal(m: MacConfig, all: seq<Attempt>, a: Attempt, beams: seq<Beam>)
    requires m.Valid() && NonNegativeCapacity(beams) && GoodAttempt(m, a, beams)
      && ConsistentOptions(a.candidate.options)
    ensures var allocation := AllocationFor(m, all, a);
      && allocation.units >= 0.0
      && OptionLimit(a.candidate.options, a.beam.fleet, a.beam.band).value.Allows(allocation.units, 0.0)
      && LegalOn(a.candidate, allocation, a.beam)
  {
    var limit, unit := FirstLimit(a.candidate.options, a.beam.fleet, a.beam.band), RbUnits(m, a.beam);
    LimitsAgree(a.candidate.options, a.beam.fleet, a.beam.band);
    CapRespected(limit, unit, m.rbsPerBeam, CountIn(a.rbs, m.rbsPerBeam));
    AirtimeBound(all, a, unit, m.rbsPerBeam);
  }

  lemma {:induction false} WinnersAreLegal(m: MacConfig, all: seq<Attempt>, attempts: seq<Attempt>,
                                           cs: seq<ScheduleCandidate>, beams: seq<Beam>, step: int)
    requires m.Valid() && NonNegativeCapacity(beams) && GoodAttempts(m, attempts, cs, beams, step)
    requires forall c :: c in cs ==> ConsistentOptions(c.options)
    ensures forall pl :: pl in Winners(m, all, attempts) ==>
      pl.candidate in cs && LegalGrant(pl.candidate, pl.allocation, beams, step)
  {
    if attempts != [] {
      var n := |attempts| - 1;
      WinnersAreLegal(m, all, attempts[..n], cs, beams, step);
      AttemptIsLegal(m, all, attempts[n], beams);
    }
  }

  function AttemptCandidate(a: Attempt): ScheduleCandidate {
    a.candidate
  }

  lemma {:induction false} WonOrLost(m: MacConfig, all: seq<Attempt>, attempts: seq<Attempt>)
    ensures multiset(Map(AttemptCandidate, attempts))
      == multiset(Map(PlacedCandidate, Winners(m, all, attempts))) + multiset(Colliders(m, all, attempts))
  {
    if attempts != [] {
      var n := |attempts| - 1;
      var last := attempts[n];
      WonOrLost(m, all, attempts[..n]);
      MapSnoc(AttemptCandidate, attempts[..n], last);
      assert attempts == attempts[..n] + [last];
      var won, lost := Winners(m, all, attempts[..n]), Colliders(m, all, attempts[..n]);
      if Recovered(m.captureCapacity, all, last) {
        MapSnoc(PlacedCandidate, won, Placed(last.candidate, AllocationFor(m, all, last)));
        assert lost + [] == lost;
      } else {
        assert won + [] == won;
      }
    }
  }

  ghost predicate Heard(cs: seq<ScheduleCandidate>, first: PassOne, step: int) {
    && multiset(cs) == multiset(Map(AttemptCandidate, first.attempts)) + multiset(first.refused)
      + multiset(first.expired)
    && (forall c :: c in first.expired <==> c in cs && c.request.IsExpired(step))
  }

  lemma HearExpired(cs: seq<ScheduleCandidate>, before: PassOne, step: int, c: ScheduleCandidate)
    requires cs != [] && c == cs[|cs| - 1] && Heard(cs[..|cs| - 1], before, step) && c.request.IsExpired(step)
    ensures Heard(cs, before.(expired := before.expired + [c]), step)
  {
    MultisetLast(cs);
    MultisetSnoc(before.expired, c);
  }

  lemma HearRefused(cs: seq<ScheduleCandidate>, before: PassOne, step: int, c: ScheduleCandidate)
    requires cs != [] && c == cs[|cs| - 1] && Heard(cs[..|cs| - 1], before, step) && !c.request.IsExpired(step)
    ensures Heard(cs, before.(refused := before.refused + [c]), step)
  {
    MultisetLast(cs);
    MultisetSnoc(before.refused, c);
  }

  lemma HearAttempt(cs: seq<ScheduleCandidate>, before: PassOne, step: int, a: Attempt)
    requires cs != [] && a.candidate == cs[|cs| - 1] && Heard(cs[..|cs| - 1], before, step)
    requires !a.candidate.request.IsExpired(step)
    ensures Heard(cs, before.(attempts := before.attempts + [a]), step)
  {
    MultisetLast(cs);
    MapSnoc(AttemptCandidate, before.attempts, a);
    MultisetSnoc(Map(AttemptCandidate, before.attempts), a.candidate);
    hide Map;
  }

  // Every candidate transmits, is refused or is expired, exactly once.
  lemma {:induction false} EveryCandidateHeard(m: MacConfig, beams: seq<Beam>, step: int, cs: seq<ScheduleCandidate>,
                                               draws: Draws)
    requires m.mcsTable != []
    ensures Heard(cs, Transmit(m, beams, step, cs, draws), step)
  {
    if cs != [] {
      var n := |cs| - 1;
      var before, c := Transmit(m, beams, step, cs[..n], draws), cs[n];
      hide TryAttempt, Heard;
      EveryCandidateHeard(m, beams, step, cs[..n], draws);
      var a := TryAttempt(m, c, beams, draws.pick(n), draws.shuffle(n));
      TriedForItself(m, c, beams, draws.pick(n), draws.shuffle(n));
      if c.request.IsExpired(step) {
        HearExpired(cs, before, step, c);
      } else if a.None? {
        HearRefused(cs, before, step, c);
      } else {
        HearAttempt(cs, before, step, a.value);
      }
    }
  }

  lemma TriedForItself(m: MacConfig, c: ScheduleCandidate, beams: seq<Beam>, pick: nat, shuffle: seq<nat>)
    requires m.mcsTable != []
    ensures var a := TryAttempt(m, c, beams, pick, shuffle); a.Some? ==> a.value.candidate == c
  {
    hide RbsFor, SampleRbs;
  }

  lemma ScheduleIgnoresOrder(m: MacConfig, cs: seq<ScheduleCandidate>, ds: seq<ScheduleCandidate>, beams: seq<Beam>,
                             step: int, draws: Draws)
    requires m.mcsTable != [] && multiset(cs) == multiset(ds) && UniqueIds(cs)
    ensures ScheduleOf(m, cs, beams, step, draws) == ScheduleOf(m, ds, beams, step, draws)
  {
    SortIgnoresOrder(ById, cs, ds);
    var all := Transmit(m, beams, step, Sort(ById, cs), draws).attempts;
    SharesPermutation(Map(PlacedAllocation, Winners(m, all, all)), cs, ds);
  }

  // Random access meets the scheduler contract with no slack, whatever is drawn.
  lemma ScheduleIsSound(m: MacConfig, cs: seq<ScheduleCandidate>, beams: seq<Beam>, step: int, draws: Draws)
    requires m.Valid() && draws.Fair(m.rbsPerBeam) && UniqueBeams(beams) && NonNegativeCapacity(beams)
    requires forall c :: c in cs ==> ConsistentOptions(c.options)
    ensures Sound(cs, beams, step, 0.0, ScheduleOf(m, cs, beams, step, draws))
  {
    var ordered := Sort(ById, cs);
    var first := Transmit(m, beams, step, ordered, draws);
    var all := first.attempts;
    var winners, losers := Winners(m, all, all), first.refused + Colliders(m, all, all);
    SameMembers(ordered, cs);
    EveryCandidateHeard(m, beams, step, ordered, draws);
    WonOrLost(m, all, all);
    PartitionOfRequests(cs, ordered, winners, losers, first.expired, step);
    AttemptsAreGood(m, beams, step, ordered, draws);
    WinnersAreLegal(m, all, all, cs, beams, step);
    AirtimeConserved(m, all, beams);
    ReportIsSound(cs, beams, step, 0.0, winners, losers, first.expired);
  }
}
