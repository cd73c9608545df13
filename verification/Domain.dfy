// The vocabulary every tier shares: requests, beams, candidates, grants and verdicts.
// Times are integer steps, airtime is an exact real, ids are integers (only their
// uniqueness and their total order matter to the code).
module Domain {

  datatype Option<+T> = None | Some(value: T)

  // The tolerance 1e-9 every capacity comparison allows.
  const EPS: real := 0.000000001

  datatype TrafficClass = ThirdPartyApi | Photo | MapsTiles | FindMy | Messaging | Roadside | EmergencySos

  datatype FleetId = LegacyLeo | NextGen

  datatype Band = L | S | Ku | Ka

  datatype Region = NA | EU | APAC | LATAM | Ocean

  datatype RejectReason =
    | AdmissionShed
    | EmergencyLaneFull
    | NoLegalOption
    | NoCapacity
    | DeadlineMissed
    | RetryBudgetExhausted

  datatype DegradeMode = Normal | Fallback | Safe

  type RequestId = int

  type BeamId = int

  // Classes that may use the Tier-2 emergency lane.
  predicate Urgent(trafficClass: TrafficClass) {
    trafficClass == EmergencySos || trafficClass == Roadside
  }

  datatype ServiceRequest = ServiceRequest(
    id: RequestId,
    trafficClass: TrafficClass,
    region: Region,
    sizeBytes: int,
    linkQuality: real,
    urgency: real,
    arrivalStep: int,
    deadlineStep: int,
    retryCount: int,
    preferredBand: Option<Band>)
  {
    predicate IsExpired(step: int) {
      step > deadlineStep
    }

    function WaitingSteps(step: int): int {
      if step > arrivalStep then step - arrivalStep else 0
    }
  }

  datatype Beam = Beam(id: BeamId, fleet: FleetId, region: Region, band: Band, capacity: real)

  // An airtime ceiling; `Unbounded` is the source's infinity or missing value.
  datatype Limit = Unbounded | AtMost(units: real)
  {
    predicate Allows(amount: real, slack: real) {
      AtMost? ==> amount <= units + slack
    }
  }

  datatype CandidateOption = CandidateOption(fleet: FleetId, band: Band, maxAirtime: Limit)

  datatype ScheduleCandidate = ScheduleCandidate(
    request: ServiceRequest,
    options: seq<CandidateOption>,
    score: real,
    cost: real,
    deliveryProbability: real,
    degradable: bool)

  datatype Allocation = Allocation(
    requestId: RequestId,
    fleet: FleetId,
    beamId: BeamId,
    band: Band,
    units: real,
    deliveryProbability: real,
    degraded: bool)

  datatype RejectedRequest = RejectedRequest(request: ServiceRequest, reason: RejectReason)

  function Min(a: real, b: real): real {
    if a <= b then a else b
  }

  function Max(a: real, b: real): real {
    if a >= b then a else b
  }

  function Clamp(value: real, low: real, high: real): real {
    Max(low, Min(high, value))
  }

  function Clamp01(value: real): real {
    Clamp(value, 0.0, 1.0)
  }

  function Within(amount: real, limit: Limit): real {
    match limit
    case Unbounded => amount
    case AtMost(units) => Min(amount, units)
  }

  function Ceil(x: real): int {
    -((-x).Floor)
  }

  // The airtime ceiling of the (fleet, band) option, if the candidate lists that option at all.
  // A pair listed twice keeps its last ceiling.
  function OptionLimit(options: seq<CandidateOption>, fleet: FleetId, band: Band): Option<Limit> {
    if options == [] then None
    else
      var last := options[|options| - 1];
      if last.fleet == fleet && last.band == band then Some(last.maxAirtime)
      else OptionLimit(options[..|options| - 1], fleet, band)
  }

  predicate Names(o: CandidateOption, fleet: FleetId, band: Band) {
    o.fleet == fleet && o.band == band
  }

  lemma {:induction false} LastListed(options: seq<CandidateOption>, fleet: FleetId, band: Band) returns (i: nat)
    requires OptionLimit(options, fleet, band).Some?
    ensures i < |options| && Names(options[i], fleet, band)
    ensures OptionLimit(options, fleet, band) == Some(options[i].maxAirtime)
  {
    i := |options| - 1;
    if !Names(options[i], fleet, band) {
      i := LastListed(options[..i], fleet, band);
    }
  }

  // A pair listed twice carries one ceiling: the slot and fluid schedulers read the last entry,
  // the contention scheduler the first.
  ghost predicate ConsistentOptions(options: seq<CandidateOption>) {
    forall o, q :: o in options && q in options && o.fleet == q.fleet && o.band == q.band ==>
      o.maxAirtime == q.maxAirtime
  }

  predicate Eligible(c: ScheduleCandidate, beam: Beam) {
    beam.region == c.request.region && OptionLimit(c.options, beam.fleet, beam.band).Some?
  }

  ghost predicate UniqueBeams(beams: seq<Beam>) {
    forall i, j :: 0 <= i < j < |beams| ==> beams[i].id != beams[j].id
  }

  ghost predicate NonNegativeCapacity(beams: seq<Beam>) {
    forall i :: 0 <= i < |beams| ==> beams[i].capacity >= 0.0
  }

  // Airtime a list of allocations takes from one beam.
  function UsedOn(allocations: seq<Allocation>, beam: BeamId): real {
    if allocations == [] then 0.0
    else
      var last := allocations[|allocations| - 1];
      UsedOn(allocations[..|allocations| - 1], beam) + if last.beamId == beam then last.units else 0.0
  }

  lemma UsedSnoc(allocations: seq<Allocation>, a: Allocation, beam: BeamId)
    ensures UsedOn(allocations + [a], beam) == UsedOn(allocations, beam) + if a.beamId == beam then a.units else 0.0
  {
    assert (allocations + [a])[..|allocations|] == allocations;
  }

  function RequestOf(c: ScheduleCandidate): ServiceRequest {
    c.request
  }

  function RejectedOf(r: RejectedRequest): ServiceRequest {
    r.request
  }
}
