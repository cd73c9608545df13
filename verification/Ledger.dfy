// The retry lifecycle over whole runs: who is where, since when, and for how long at most.
module Ledger {
  import opened Domain
  import opened Reals
  import opened Collections
  import opened Planning
  import opened Pipeline
  import opened StepSafety
  import opened StepLoad
  import opened StepReport
  import opened Telemetry
  import opened Regulatory
  import opened Gathering

  // A deferred request and the earliest step it may be retried.
  datatype RetryEntry = RetryEntry(request: ServiceRequest, eligibleStep: int)

  function QueuedRequest(e: RetryEntry): ServiceRequest {
    e.request
  }

  function Queued(queue: seq<RetryEntry>): seq<ServiceRequest> {
    Map(QueuedRequest, queue)
  }

  // ------------------------------------------------------------------ backoff and re-queueing

  // The base doubled n times.
  function Doubled(base: nat, n: nat): nat {
    if n == 0 then base else 2 * Doubled(base, n - 1)
  }

  // Exponential backoff, capped, plus jitter up to the base.
  function BackoffSteps(cfg: Config, retryCount: int, jitter: nat): nat {
    var doubled := Doubled(cfg.backoffBase, if retryCount > 0 then retryCount else 0);
    (if doubled < cfg.backoffMax then doubled else cfg.backoffMax) + if cfg.backoffBase > 0 then jitter else 0
  }

  // The longest wait one deferral can cost.
  function LongestWait(cfg: Config): nat {
    cfg.backoffMax + cfg.backoffBase
  }

  lemma {:induction false} DoublingGrows(base: nat, m: nat, n: nat)
    requires m <= n
    ensures Doubled(base, m) <= Doubled(base, n)
  {
    if m < n {
      DoublingGrows(base, m, n - 1);
    }
  }

  // Backoff never exceeds the longest wait, and without jitter it does not fall as retries add up.
  lemma BackoffBounds(cfg: Config, fewer: nat, more: nat, jitter: nat)
    requires fewer <= more && jitter <= cfg.backoffBase
    ensures BackoffSteps(cfg, more, jitter) <= LongestWait(cfg)
    ensures BackoffSteps(cfg, fewer, 0) <= BackoffSteps(cfg, more, 0)
  {
    DoublingGrows(cfg.backoffBase, fewer, more);
  }

  // The shortest time the first retries can have taken: each waits its backoff out.
  function Pace(cfg: Config, retries: int): nat
    decreases if retries > 0 then retries else 0
  {
    if retries <= 0 then 0 else Pace(cfg, retries - 1) + BackoffSteps(cfg, retries - 1, 0)
  }

  function Capped(cfg: Config, steps: nat): nat {
    if steps < cfg.backoffMax then steps else cfg.backoffMax
  }

  // Backoff starts at the base, doubles with every retry, and is cut at the cap; jitter, if there is
  // a base, comes on top.
  lemma BackoffDoubles(cfg: Config, retries: nat, jitter: nat)
    ensures BackoffSteps(cfg, 0, 0) == Capped(cfg, cfg.backoffBase)
    ensures BackoffSteps(cfg, retries + 1, 0) == Capped(cfg, 2 * BackoffSteps(cfg, retries, 0))
    ensures BackoffSteps(cfg, retries, jitter)
      == BackoffSteps(cfg, retries, 0) + if cfg.backoffBase > 0 then jitter else 0
  {
    var doubled := Doubled(cfg.backoffBase, retries);
    assert Doubled(cfg.backoffBase, retries + 1) == 2 * doubled;
  }

  datatype Requeue = Requeue(queue: seq<RetryEntry>, drops: seq<RejectedRequest>)

  // One deferred request: dropped over budget, dropped for want of room, or queued once more.
  function RequeueOne(cfg: Config, step: int, before: Requeue, jitter: nat, r: ServiceRequest): Requeue {
    if r.retryCount >= cfg.RetryBudget(r.trafficClass) then
      before.(drops := before.drops + [RejectedRequest(r, RetryBudgetExhausted)])
    else if |before.queue| >= cfg.queueCapacity then
      before.(drops := before.drops + [RejectedRequest(r, NoCapacity)])
    else
      before.(queue := before.queue
        + [RetryEntry(r.(retryCount := r.retryCount + 1), step + BackoffSteps(cfg, r.retryCount, jitter))])
  }

  // Deferred requests re-enter the queue within their retry budget and the queue's capacity.
  function RequeueAll(cfg: Config, world: World, step: int, queue: seq<RetryEntry>,
                      deferred: seq<ServiceRequest>): (q: Requeue)
    ensures |q.queue| >= |queue|
    ensures |q.queue| - |queue| + |q.drops| == |deferred|
  {
    if deferred == [] then Requeue(queue, [])
    else
      var n := |deferred| - 1;
      var before := RequeueAll(cfg, world, step, queue, deferred[..n]);
      RequeueOne(cfg, step, before, world.jitter(step, |before.queue| - |queue|), deferred[n])
  }

  function IsDue(step: int): RetryEntry -> bool {
    (e: RetryEntry) => e.eligibleStep <= step
  }

  function IsHeld(step: int): RetryEntry -> bool {
    (e: RetryEntry) => e.eligibleStep > step
  }

  // ------------------------------------------------------------------ the journal of a run

  // What one step took in and what became of it.
  datatype Day = Day(
    ingested: seq<ServiceRequest>,
    beams: seq<Beam>,
    plan: ResourcePlan,
    outcome: Dispositions,
    requeued: nat,
    queued: nat,
    lag: nat,
    dropped: seq<RejectedRequest>,
    counters: StepCounters)

  // The fraction a step dropped of what it served, dropped or rejected.
  ghost predicate IsDropRate(c: StepCounters, rate: real) {
    var handled := c.served + c.dropped + c.rejected;
    if handled > 0 then Product(rate, handled as real) == c.dropped as real else rate == 0.0
  }

  // The drop rate a step starts from: that of the step before, or zero.
  ghost predicate LastDropRate(days: seq<Day>, rate: real) {
    if days == [] then rate == 0.0 else IsDropRate(days[|days| - 1].counters, rate)
  }

  function ServedIn(days: seq<Day>): seq<ServiceRequest> {
    if days == [] then [] else ServedIn(days[..|days| - 1]) + days[|days| - 1].outcome.AllServed()
  }

  function DroppedIn(days: seq<Day>): seq<ServiceRequest> {
    if days == [] then [] else DroppedIn(days[..|days| - 1]) + Map(RejectedOf, days[|days| - 1].dropped)
  }

  function RejectedIn(days: seq<Day>): seq<ServiceRequest> {
    if days == [] then [] else RejectedIn(days[..|days| - 1]) + Map(RejectedOf, days[|days| - 1].outcome.rejected)
  }

  // The loop's state as a value. Requests carry their publish position as id, so `polledAt[id]` is
  // the step request `id` was polled at.
  datatype State = State(
    polled: seq<ServiceRequest>,
    backlog: seq<ServiceRequest>,
    polledAt: seq<int>,
    queue: seq<RetryEntry>,
    days: seq<Day>)
  {
    function Now(): nat {
      |days|
    }

    function Published(): seq<ServiceRequest> {
      polled + backlog
    }
  }

  // A request without the mark retries leave on it.
  function Base(r: ServiceRequest): ServiceRequest {
    r.(retryCount := 0)
  }

  function Bases(requests: seq<ServiceRequest>): multiset<ServiceRequest> {
    multiset(Map(Base, requests))
  }

  function IdOf(r: ServiceRequest): RequestId {
    r.id
  }

  function Ids(requests: seq<ServiceRequest>): multiset<RequestId> {
    multiset(Map(IdOf, requests))
  }

  // The latest step at which a request polled at p can still be waiting for its retry number r.
  function Horizon(cfg: Config, polledAt: int, retries: int): int {
    polledAt + retries * LongestWait(cfg)
  }

  // A request seen at step `now`: on its first attempt or a permitted retry, and not too late.
  ghost predicate InTime(cfg: Config, now: int, polledAt: seq<int>, r: ServiceRequest) {
    && 0 <= r.id < |polledAt|
    && 0 <= r.retryCount <= cfg.RetryBudget(r.trafficClass)
    && r.arrivalStep <= now <= Horizon(cfg, polledAt[r.id], r.retryCount)
    && r.sizeBytes > 0
  }

  // A request handled at step `now`: no sooner than its retries' backoffs allow, and not too late.
  ghost predicate OnPace(cfg: Config, now: int, polledAt: seq<int>, r: ServiceRequest) {
    && 0 <= r.id < |polledAt|
    && polledAt[r.id] + Pace(cfg, r.retryCount) <= now <= Horizon(cfg, polledAt[r.id], r.retryCount)
  }

  ghost predicate EntryOk(cfg: Config, now: int, polledAt: seq<int>, e: RetryEntry) {
    && e.request.retryCount >= 1
    && InTime(cfg, now, polledAt, e.request)
    && OnPace(cfg, e.eligibleStep, polledAt, e.request)
  }

  ghost predicate QueueOk(cfg: Config, now: int, polledAt: seq<int>, queue: seq<RetryEntry>) {
    |queue| <= cfg.queueCapacity && forall e :: e in queue ==> EntryOk(cfg, now, polledAt, e)
  }

  ghost predicate Numbered(published: seq<ServiceRequest>) {
    forall i :: 0 <= i < |published| ==> published[i].id == i
  }

  ghost predicate Conserved(s: State) {
    Bases(s.polled) == Bases(Queued(s.queue)) + Bases(ServedIn(s.days)) + Bases(DroppedIn(s.days))
      + Bases(RejectedIn(s.days))
  }

  // Why a step gave up on a request: its deadline, a retry limit, a queue that ended the step full,
  // the rule table, or its coin. A full lane is never the last word.
  ghost predicate Cause(cfg: Config, world: World, step: int, day: Day, x: RejectedRequest) {
    match x.reason
    case DeadlineMissed => step > x.request.deadlineStep
    case RetryBudgetExhausted =>
      || x.request.retryCount >= cfg.RetryBudget(x.request.trafficClass)
      || (Urgent(x.request.trafficClass) && x.request.retryCount > cfg.lane.maxRetries)
    case NoCapacity => day.queued >= cfg.queueCapacity
    case NoLegalOption => AllowedOptions(cfg.rules, x.request) == []
    case AdmissionShed => CoinSheds(cfg, world, day.plan, day.outcome.congestion.Overage(), step, x.request)
    case EmergencyLaneFull => false
  }

  ghost predicate DayCaused(cfg: Config, world: World, step: int, day: Day) {
    && (forall x :: x in day.dropped ==> Cause(cfg, world, step, day, x))
    && (forall x :: x in day.outcome.rejected ==> Cause(cfg, world, step, day, x))
  }

  ghost predicate DayOk(cfg: Config, world: World, step: nat, day: Day) {
    && StepSound(cfg, step, day.ingested, day.beams, day.outcome)
    && Offered(cfg, world, step, day.beams)
    && DayCaused(cfg, world, step, day)
    && (forall r :: r in day.ingested ==> r.arrivalStep <= step)
    && Telemetry.Counts(day.counters, day.outcome.AllServed(), day.outcome.Allocations(), day.requeued, day.dropped,
      day.outcome.rejected)
    && |day.ingested| == day.counters.Handled()
    && day.counters.InRange()
  }

  // What a step acted on and counted: the load offered to Tier 1 and the capacity left for it, the
  // retries still held plus the requests not yet polled, and what was shed, shared and scheduled.
  ghost predicate DayTold(cfg: Config, world: World, step: nat, day: Day) {
    && StepTold(cfg, world, day.plan, step, day.ingested, day.beams, day.outcome)
    && day.outcome.congestion.queueDepth == day.queued - day.requeued + day.lag
    && Telemetry.Measures(day.counters, day.outcome.congestion, day.beams, day.outcome.Allocations(),
                          day.outcome.fairness)
  }

  ghost predicate DropRateTold(days: seq<Day>, t: nat)
    requires t < |days|
  {
    LastDropRate(days[..t], days[t].outcome.congestion.dropRate)
  }

  ghost predicate DayOnPace(cfg: Config, polledAt: seq<int>, t: int, day: Day) {
    forall r :: r in day.ingested ==> OnPace(cfg, t, polledAt, r)
  }

  // What holds before the first step and after every step of every run.
  ghost predicate Consistent(cfg: Config, world: World, s: State) {
    && Numbered(s.Published())
    && |s.polledAt| == |s.polled|
    && (forall i :: 0 <= i < |s.polledAt| ==> 0 <= s.polledAt[i] < s.Now())
    && QueueOk(cfg, s.Now(), s.polledAt, s.queue)
    && Conserved(s)
    && (forall t :: 0 <= t < s.Now() ==> DayOk(cfg, world, t, s.days[t]))
    && (forall t :: 0 <= t < s.Now() ==> DayOnPace(cfg, s.polledAt, t, s.days[t]))
  }

  // What the record of every step of a run tells truly.
  ghost predicate Told(cfg: Config, world: World, s: State) {
    forall t :: 0 <= t < s.Now() ==> DayTold(cfg, world, t, s.days[t]) && DropRateTold(s.days, t)
  }

  // ------------------------------------------------------------------ whole-run results

  // Everything published, place by place.
  function Everywhere(s: State): seq<ServiceRequest> {
    s.backlog + Queued(s.queue) + ServedIn(s.days) + DroppedIn(s.days) + RejectedIn(s.days)
  }

  lemma IdsOfBases(requests: seq<ServiceRequest>)
    ensures Map(IdOf, Map(Base, requests)) == Map(IdOf, requests)
  {
  }

  lemma BasesAppend(xs: seq<ServiceRequest>, ys: seq<ServiceRequest>)
    ensures Bases(xs + ys) == Bases(xs) + Bases(ys)
  {
    MapAppend(Base, xs, ys);
  }

  lemma IdsAppend(xs: seq<ServiceRequest>, ys: seq<ServiceRequest>)
    ensures Ids(xs + ys) == Ids(xs) + Ids(ys)
  {
    MapAppend(IdOf, xs, ys);
  }

  lemma SameBasesSameIds(xs: seq<ServiceRequest>, ys: seq<ServiceRequest>)
    requires Bases(xs) == Bases(ys)
    ensures Ids(xs) == Ids(ys)
  {
    MapPermutation(IdOf, Map(Base, xs), Map(Base, ys));
    IdsOfBases(xs);
    IdsOfBases(ys);
  }

  lemma {:induction false} IdCount(published: seq<ServiceRequest>, id: int)
    requires Numbered(published)
    ensures Ids(published)[id] == if 0 <= id < |published| then 1 else 0
  {
    if published != [] {
      var n := |published| - 1;
      IdCount(published[..n], id);
      assert published == published[..n] + [published[n]];
      IdsAppend(published[..n], [published[n]]);
      assert Map(IdOf, [published[n]]) == [n];
    }
  }

  lemma EverythingIsSomewhere(cfg: Config, world: World, s: State)
    requires Consistent(cfg, world, s)
    ensures Bases(s.Published()) == Bases(Everywhere(s))
    ensures Ids(Everywhere(s)) == Ids(s.backlog) + Ids(Queued(s.queue)) + Ids(ServedIn(s.days)) + Ids(DroppedIn(s.days))
      + Ids(RejectedIn(s.days))
  {
    var a, b, c, d, e := s.backlog, Queued(s.queue), ServedIn(s.days), DroppedIn(s.days), RejectedIn(s.days);
    BasesAppend(s.polled, s.backlog);
    BasesAppend(a, b);
    BasesAppend(a + b, c);
    BasesAppend(a + b + c, d);
    BasesAppend(a + b + c + d, e);
    IdsAppend(a, b);
    IdsAppend(a + b, c);
    IdsAppend(a + b + c, d);
    IdsAppend(a + b + c + d, e);
  }

  // Conservation: every published request is in exactly one of the bus backlog, the retry queue,
  // the served, the dropped and the rejected; nothing unpublished is anywhere.
  lemma ExactlyOnePlace(cfg: Config, world: World, s: State, id: int)
    requires Consistent(cfg, world, s)
    ensures Ids(s.backlog)[id] + Ids(Queued(s.queue))[id] + Ids(ServedIn(s.days))[id] + Ids(DroppedIn(s.days))[id]
      + Ids(RejectedIn(s.days))[id] == if 0 <= id < |s.Published()| then 1 else 0
  {
    EverythingIsSomewhere(cfg, world, s);
    SameBasesSameIds(s.Published(), Everywhere(s));
    IdCount(s.Published(), id);
  }

  lemma QueuedWasPolled(cfg: Config, world: World, s: State, e: RetryEntry)
    requires Consistent(cfg, world, s) && e in s.queue
    ensures 0 <= e.request.id < |s.polled| && Base(e.request) == Base(s.polled[e.request.id])
  {
    MapMember(QueuedRequest, s.queue, e.request);
    MapMember(Base, Queued(s.queue), Base(e.request));
    assert Base(e.request) in Bases(Queued(s.queue));
    assert Base(e.request) in Bases(s.polled);
    MapMember(Base, s.polled, Base(e.request));
    var r :| r in s.polled && Base(r) == Base(e.request);
    var i :| 0 <= i < |s.polled| && s.polled[i] == r;
    assert s.Published()[i] == r;
  }

  lemma {:induction false} QueuedCount(queue: seq<RetryEntry>, id: RequestId)
    requires forall e :: e in queue ==> e.request.id != id
    ensures Ids(Queued(queue))[id] == 0
  {
    if queue != [] {
      var n := |queue| - 1;
      QueuedCount(queue[..n], id);
      assert queue == queue[..n] + [queue[n]];
      MapAppend(QueuedRequest, queue[..n], [queue[n]]);
      IdsAppend(Queued(queue[..n]), Queued([queue[n]]));
      assert Map(IdOf, Queued([queue[n]])) == [queue[n].request.id];
    }
  }

  lemma BudgetHorizon(cfg: Config, polledAt: int, retries: int, budget: int)
    requires 0 <= retries <= budget
    ensures Horizon(cfg, polledAt, retries) <= Horizon(cfg, polledAt, budget)
  {
    assert (budget - retries) * LongestWait(cfg) >= 0;
    assert budget * LongestWait(cfg) == retries * LongestWait(cfg) + (budget - retries) * LongestWait(cfg);
  }

  lemma HorizonIs(cfg: Config, polledAt: int, retries: int)
    ensures Horizon(cfg, polledAt, retries) == polledAt + retries * (cfg.backoffMax + cfg.backoffBase)
  {
  }

  lemma PastItsHorizon(cfg: Config, world: World, s: State, id: nat)
    requires Consistent(cfg, world, s) && id < |s.polled|
    requires s.Now() > Horizon(cfg, s.polledAt[id], cfg.RetryBudget(s.polled[id].trafficClass))
    ensures Ids(ServedIn(s.days))[id] + Ids(DroppedIn(s.days))[id] + Ids(RejectedIn(s.days))[id] == 1
  {
    forall e | e in s.queue ensures e.request.id != id {
      QueuedWasPolled(cfg, world, s, e);
      assert EntryOk(cfg, s.Now(), s.polledAt, e);
      BudgetHorizon(cfg, s.polledAt[e.request.id], e.request.retryCount, cfg.RetryBudget(e.request.trafficClass));
    }
    QueuedCount(s.queue, id);
    ExactlyOnePlace(cfg, world, s, id);
    BacklogIsUnpolled(s, id);
  }

  // Bounded resolution: a request polled at step p is served, dropped or rejected by the end of
  // step p + budget * (backoff_max + backoff_base).
  lemma ResolvedInTime(cfg: Config, world: World, s: State, id: nat)
    requires Consistent(cfg, world, s) && id < |s.polled|
    requires s.Now() > s.polledAt[id]
      + cfg.RetryBudget(s.polled[id].trafficClass) * (cfg.backoffMax + cfg.backoffBase)
    ensures Ids(ServedIn(s.days))[id] + Ids(DroppedIn(s.days))[id] + Ids(RejectedIn(s.days))[id] == 1
  {
    HorizonIs(cfg, s.polledAt[id], cfg.RetryBudget(s.polled[id].trafficClass));
    hide Consistent, Horizon, Ids;
    PastItsHorizon(cfg, world, s, id);
  }

  lemma BacklogIsUnpolled(s: State, id: nat)
    requires Numbered(s.Published()) && id < |s.polled|
    ensures Ids(s.backlog)[id] == 0
  {
    IdCount(s.Published(), id);
    IdsAppend(s.polled, s.backlog);
    assert forall i :: 0 <= i < |s.polled| ==> s.Published()[i] == s.polled[i];
    IdCount(s.polled, id);
  }

  // The retry queue is bounded, and each entry is on a retry its class permits.
  lemma QueueIsBounded(cfg: Config, world: World, s: State, e: RetryEntry)
    requires Consistent(cfg, world, s) && e in s.queue
    ensures |s.queue| <= cfg.queueCapacity
    ensures 1 <= e.request.retryCount <= cfg.RetryBudget(e.request.trafficClass)
    ensures s.Now() <= Horizon(cfg, s.polledAt[e.request.id], cfg.RetryBudget(e.request.trafficClass))
  {
    assert EntryOk(cfg, s.Now(), s.polledAt, e);
    BudgetHorizon(cfg, s.polledAt[e.request.id], e.request.retryCount, cfg.RetryBudget(e.request.trafficClass));
  }

  lemma HandledArrived(cfg: Config, t: int, day: Day, r: ServiceRequest)
    requires StepSound(cfg, t, day.ingested, day.beams, day.outcome)
    requires r in day.outcome.AllServed() + day.outcome.deferred
    ensures r in day.ingested
  {
    assert r in multiset(day.outcome.AllServed()) + multiset(day.outcome.deferred);
    assert r in multiset(day.ingested);
  }

  ghost predicate HandledOnPace(cfg: Config, polledAt: seq<int>, t: nat, day: Day) {
    forall r :: r in day.outcome.AllServed() + day.outcome.deferred ==> OnPace(cfg, t, polledAt, r)
  }

  // Retries are paced from both sides: a request handled on its k-th retry has waited at least the
  // k backoffs without jitter, and at most k of the longest waits.
  lemma RetriesKeepPace(cfg: Config, world: World, s: State, t: nat)
    requires Consistent(cfg, world, s) && t < s.Now()
    ensures HandledOnPace(cfg, s.polledAt, t, s.days[t])
  {
    assert DayOk(cfg, world, t, s.days[t]) && DayOnPace(cfg, s.polledAt, t, s.days[t]);
    hide Consistent, DayCaused, OnPace, Telemetry.Counts;
    forall r | r in s.days[t].outcome.AllServed() + s.days[t].outcome.deferred ensures OnPace(cfg, t, s.polledAt, r) {
      HandledArrived(cfg, t, s.days[t], r);
    }
  }

  // The i-th service of a day waited no longer than its slack, on a beam shown that step by a client
  // out of cooldown, with fleet, band and airtime the rule table permits there.
  ghost predicate WellServed(cfg: Config, world: World, t: nat, day: Day, i: nat)
    requires i < |day.outcome.AllServed()|
  {
    var r := day.outcome.AllServed()[i];
    && r.WaitingSteps(t) <= r.deadlineStep - r.arrivalStep
    && |day.outcome.Allocations()| == |day.outcome.AllServed()|
    && exists beam :: Visible(cfg, world, t, beam) && LawfulOn(cfg.rules, r, day.outcome.Allocations()[i], beam)
  }

  ghost predicate AllWellServed(cfg: Config, world: World, t: nat, day: Day) {
    forall i :: 0 <= i < |day.outcome.AllServed()| ==> WellServed(cfg, world, t, day, i)
  }

  // Every service of a run is on time and lawful: the wait fits between arrival and deadline, and
  // the beam was offered that step, in the request's region, with a permitted fleet and band.
  lemma ServedOnTimeAndLawfully(cfg: Config, world: World, s: State, t: nat)
    requires Consistent(cfg, world, s) && t < s.Now()
    ensures AllWellServed(cfg, world, t, s.days[t])
  {
    assert DayOk(cfg, world, t, s.days[t]);
    hide Consistent, DayOk, WellServed;
    forall i | 0 <= i < |s.days[t].outcome.AllServed()| ensures WellServed(cfg, world, t, s.days[t], i) {
      DayServesWell(cfg, world, t, s.days[t], i);
    }
  }

  lemma DayServesWell(cfg: Config, world: World, t: nat, day: Day, i: nat)
    requires DayOk(cfg, world, t, day) && i < |day.outcome.AllServed()|
    ensures WellServed(cfg, world, t, day, i)
  {
    hide Accounted, DayCaused, Telemetry.Counts, SlicesHold, BeamsHold, Visible;
    var r, a := day.outcome.AllServed()[i], day.outcome.Allocations()[i];
    assert Lawful(cfg.rules, day.beams, t, r, a);
    assert r in day.ingested by {
      HandledArrived(cfg, t, day, r);
    }
    var beam :| beam in day.beams && LawfulOn(cfg.rules, r, a, beam);
    assert Visible(cfg, world, t, beam);
  }

  // Every request a run drops or rejects has the cause it states.
  lemma RefusalsHaveCause(cfg: Config, world: World, s: State, t: nat, x: RejectedRequest)
    requires Consistent(cfg, world, s) && t < s.Now()
    ensures x in s.days[t].dropped + s.days[t].outcome.rejected ==> Cause(cfg, world, t, s.days[t], x)
  {
    assert DayOk(cfg, world, t, s.days[t]);
    hide Cause;
  }

  // On every step of every run, the two tiers together overdraw no beam beyond the tolerances, and
  // Tier 2 stays within its reserved slice.
  lemma CapacityHeldEveryStep(cfg: Config, world: World, s: State, t: nat, beam: Beam)
    requires Consistent(cfg, world, s) && t < s.Now() && beam in s.days[t].beams
    ensures UsedOn(s.days[t].outcome.Allocations(), beam.id) <= beam.capacity + 2.0 * EPS
    ensures s.days[t].outcome.mode == Normal && (cfg.scheduler == SlotMacKind || cfg.scheduler == ContentionMacKind) ==>
      UsedOn(s.days[t].outcome.Allocations(), beam.id) <= beam.capacity + EPS
    ensures UsedOn(s.days[t].outcome.reservations, beam.id) <= Product(beam.capacity, cfg.lane.reservedFraction) + EPS
  {
    assert DayOk(cfg, world, t, s.days[t]);
  }

  // On every step of every run, what the counters report as congestion is the load of what the lane
  // left to Tier 1, the capacity its reservations left, the retries held plus the requests unpolled,
  // and the drop rate is that of the step before.
  lemma CongestionEveryStep(cfg: Config, world: World, s: State, t: nat)
    requires Told(cfg, world, s) && t < s.Now()
    ensures var day := s.days[t];
      && LoadBalances(cfg, t, day.ingested, day.outcome)
      && day.counters.offeredLoad == day.outcome.congestion.offeredLoad
      && day.counters.availableCapacity == Sum(Unreserved(day.beams, day.outcome.reservations))
      && day.counters.queueDepth == day.queued - day.requeued + day.lag
      && ShedExactly(cfg, world, day.plan, t, day.ingested, day.outcome)
    ensures LastDropRate(s.days[..t], s.days[t].outcome.congestion.dropRate)
  {
    assert DayTold(cfg, world, t, s.days[t]) && DropRateTold(s.days, t);
    hide Told, LoadBalances, ShedExactly, LastDropRate, LaneTold, SchedulingTold;
  }

  // On every step of every run each region stays within its proportional share of the lane's reserve,
  // and the grants are those of the configured scheduler, or of the exit its faults leave.
  lemma SharesAndGrantsEveryStep(cfg: Config, world: World, s: State, t: nat)
    requires Told(cfg, world, s) && t < s.Now()
    ensures LaneTold(cfg, t, s.days[t].ingested, s.days[t].beams, s.days[t].outcome)
    ensures SchedulingTold(cfg, world, s.days[t].plan, t, s.days[t].beams, s.days[t].outcome)
  {
    assert DayTold(cfg, world, t, s.days[t]);
    hide Told, LoadTold, LaneTold, SchedulingTold, Telemetry.Measures;
  }

  // In each step what came in equals what was counted out, tally by tally.
  lemma StepsAddUp(cfg: Config, world: World, s: State, t: nat)
    requires Consistent(cfg, world, s) && t < s.Now()
    ensures var c := s.days[t].counters;
      && |s.days[t].ingested| == c.served + c.deferred + c.dropped + c.rejected
      && Total(c.servedByClass) == Total(c.servedByRegion) == Total(c.servedByFleet) == c.served
      && Total(c.rejectedByReason) == c.dropped + c.rejected
      && CountsExactly(c, s.days[t].outcome.AllServed(), s.days[t].outcome.Allocations(),
                       s.days[t].dropped + s.days[t].outcome.rejected)
  {
    var day := s.days[t];
    assert DayOk(cfg, world, t, day);
    CountsAreExact(day.counters, day.outcome.AllServed(), day.outcome.Allocations(), day.requeued, day.dropped,
      day.outcome.rejected);
    hide Consistent, CountsExactly, StepSound, DayCaused, Offered;
    CountsAddUp(day.counters, day.outcome.AllServed(), day.outcome.Allocations(), day.requeued, day.dropped,
      day.outcome.rejected);
  }

  // ------------------------------------------------------------------ one step preserves it all

  lemma StartIsConsistent(cfg: Config, world: World)
    ensures Consistent(cfg, world, State([], [], [], [], []))
  {
  }

  lemma TwoCopies<T>(xs: seq<T>, i: nat, j: nat)
    requires i < j < |xs|
    ensures xs[i] == xs[j] ==> multiset(xs)[xs[i]] >= 2
  {
    assert xs == xs[..j] + [xs[j]] + xs[j + 1..];
    assert xs[i] == xs[..j][i];
    assert xs[i] in multiset(xs[..j]);
    assert multiset(xs) == multiset(xs[..j]) + multiset{xs[j]} + multiset(xs[j + 1..]);
  }

  // Requests that are, retries aside, among distinct published ones are distinct themselves.
  lemma PartsAreDistinct(parts: seq<ServiceRequest>, published: seq<ServiceRequest>)
    requires Bases(parts) <= Bases(published) && Numbered(published)
    ensures DistinctIds(parts)
    ensures forall r :: r in parts ==> 0 <= r.id < |published| && Base(r) == Base(published[r.id])
  {
    forall r | r in parts ensures 0 <= r.id < |published| && Base(r) == Base(published[r.id]) {
      MapMember(Base, parts, Base(r));
      assert Base(r) in Bases(parts);
      MapMember(Base, published, Base(r));
      assert Base(r) in Bases(published);
    }
    var bases := Map(Base, published);
    assert DistinctIds(bases);
    forall i, j | 0 <= i < j < |parts| ensures parts[i].id != parts[j].id {
      TwoCopies(Map(Base, parts), i, j);
      OneOfEach(bases, Base(parts[i]));
      assert parts[i] in parts && parts[j] in parts;
    }
  }

  // What a poll hands over: fresh requests numbered on from the last ones.
  ghost predicate FreshBatch(s: State, batch: seq<ServiceRequest>, backlog: seq<ServiceRequest>) {
    && Numbered(s.polled + batch + backlog)
    && forall r :: r in batch ==> r.retryCount == 0 && r.arrivalStep <= s.Now() && r.sizeBytes > 0
  }

  function DueNow(s: State): seq<ServiceRequest> {
    Queued(Filter(IsDue(s.Now()), s.queue))
  }

  function StillHeld(s: State): seq<RetryEntry> {
    Filter(IsHeld(s.Now()), s.queue)
  }

  function PolledAtAfter(s: State, batch: seq<ServiceRequest>): seq<int> {
    s.polledAt + seq(|batch|, _ => s.Now())
  }

  ghost predicate AllInTime(cfg: Config, now: int, polledAt: seq<int>, requests: seq<ServiceRequest>) {
    forall r :: r in requests ==> InTime(cfg, now, polledAt, r) && OnPace(cfg, now, polledAt, r)
  }

  lemma QueueSplits(s: State)
    ensures Bases(Queued(s.queue)) == Bases(DueNow(s)) + Bases(Queued(StillHeld(s)))
  {
    FilterSplits(IsDue(s.Now()), IsHeld(s.Now()), QueuedRequest, s.queue);
    MapPermutation(Base, Queued(s.queue), DueNow(s) + Queued(StillHeld(s)));
    BasesAppend(DueNow(s), Queued(StillHeld(s)));
  }

  lemma ArrivalsAreParts(s: State, batch: seq<ServiceRequest>)
    requires Conserved(s)
    ensures Bases(batch + DueNow(s)) <= Bases(s.polled + batch)
  {
    QueueSplits(s);
    BasesAppend(s.polled, batch);
    BasesAppend(batch, DueNow(s));
  }

  // Arrivals of a step: distinct, priced, and each in time.
  lemma ArrivalsAreReady(cfg: Config, world: World, s: State, batch: seq<ServiceRequest>, backlog: seq<ServiceRequest>)
    requires Consistent(cfg, world, s) && FreshBatch(s, batch, backlog)
    ensures DistinctIds(batch + DueNow(s)) && PositiveSizes(batch + DueNow(s))
    ensures AllInTime(cfg, s.Now(), PolledAtAfter(s, batch), batch + DueNow(s))
  {
    var arrivals, polledAt := batch + DueNow(s), PolledAtAfter(s, batch);
    ArrivalsAreParts(s, batch);
    NumberedPrefix(s.polled + batch, backlog);
    PartsAreDistinct(arrivals, s.polled + batch);
    hide Conserved, DayOk, DayOnPace, Bases, InTime, OnPace, EntryOk;
    forall r | r in arrivals ensures InTime(cfg, s.Now(), polledAt, r) && OnPace(cfg, s.Now(), polledAt, r) {
      if r in batch {
        var i :| 0 <= i < |batch| && batch[i] == r;
        BatchInTime(cfg, s, batch, backlog, i);
      } else {
        MapMember(QueuedRequest, Filter(IsDue(s.Now()), s.queue), r);
        var e :| e in s.queue && e.eligibleStep <= s.Now() && e.request == r;
        DueInTime(cfg, s, batch, e);
      }
    }
  }

  lemma BatchInTime(cfg: Config, s: State, batch: seq<ServiceRequest>, backlog: seq<ServiceRequest>, i: nat)
    requires FreshBatch(s, batch, backlog) && |s.polledAt| == |s.polled| && i < |batch|
    ensures InTime(cfg, s.Now(), PolledAtAfter(s, batch), batch[i])
      && OnPace(cfg, s.Now(), PolledAtAfter(s, batch), batch[i])
  {
    assert (s.polled + batch + backlog)[|s.polled| + i] == batch[i];
  }

  lemma DueInTime(cfg: Config, s: State, batch: seq<ServiceRequest>, e: RetryEntry)
    requires EntryOk(cfg, s.Now(), s.polledAt, e) && e.eligibleStep <= s.Now()
    ensures InTime(cfg, s.Now(), PolledAtAfter(s, batch), e.request)
    ensures OnPace(cfg, s.Now(), PolledAtAfter(s, batch), e.request)
  {
  }

  lemma NumberedPrefix(first: seq<ServiceRequest>, rest: seq<ServiceRequest>)
    requires Numbered(first + rest)
    ensures Numbered(first)
  {
    assert forall i :: 0 <= i < |first| ==> (first + rest)[i] == first[i];
  }

  lemma RequeueNext(cfg: Config, world: World, step: int, queue: seq<RetryEntry>, deferred: seq<ServiceRequest>,
                    i: nat)
    requires i < |deferred|
    ensures var before := RequeueAll(cfg, world, step, queue, deferred[..i]);
      RequeueAll(cfg, world, step, queue, deferred[..i + 1])
        == RequeueOne(cfg, step, before, world.jitter(step, |before.queue| - |queue|), deferred[i])
  {
    assert deferred[..i + 1][..i] == deferred[..i];
    hide RequeueOne;
  }

  // What is queued or dropped by re-queueing.
  function Handed(q: Requeue): multiset<ServiceRequest> {
    Bases(Queued(q.queue)) + Bases(Map(RejectedOf, q.drops))
  }

  lemma RequeueOneConserves(cfg: Config, step: int, before: Requeue, jitter: nat, r: ServiceRequest)
    ensures Handed(RequeueOne(cfg, step, before, jitter, r)) == Handed(before) + multiset{Base(r)}
  {
    hide Bases, Queued, Map, BackoffSteps, Base;
    if r.retryCount >= cfg.RetryBudget(r.trafficClass) {
      DropOne(before.drops, RejectedRequest(r, RetryBudgetExhausted));
    } else if |before.queue| >= cfg.queueCapacity {
      DropOne(before.drops, RejectedRequest(r, NoCapacity));
    } else {
      QueueOne(before.queue, r, step + BackoffSteps(cfg, r.retryCount, jitter));
    }
  }

  lemma QueueOne(queue: seq<RetryEntry>, r: ServiceRequest, eligible: int)
    ensures Bases(Queued(queue + [RetryEntry(r.(retryCount := r.retryCount + 1), eligible)]))
      == Bases(Queued(queue)) + multiset{Base(r)}
  {
    var bumped := r.(retryCount := r.retryCount + 1);
    MapSnoc(QueuedRequest, queue, RetryEntry(bumped, eligible));
    BasesOne(Queued(queue), bumped, r);
  }

  lemma DropOne(drops: seq<RejectedRequest>, s: RejectedRequest)
    ensures Bases(Map(RejectedOf, drops + [s])) == Bases(Map(RejectedOf, drops)) + multiset{Base(s.request)}
  {
    MapSnoc(RejectedOf, drops, s);
    BasesOne(Map(RejectedOf, drops), s.request, s.request);
  }

  // Re-queueing loses nothing.
  lemma {:induction false} RequeueConserves(cfg: Config, world: World, step: int, queue: seq<RetryEntry>,
                                            deferred: seq<ServiceRequest>)
    ensures Handed(RequeueAll(cfg, world, step, queue, deferred)) == Bases(Queued(queue)) + Bases(deferred)
  {
    if deferred == [] {
      HandedNothing(queue);
    } else {
      var n := |deferred| - 1;
      var before, r := RequeueAll(cfg, world, step, queue, deferred[..n]), deferred[n];
      RequeueConserves(cfg, world, step, queue, deferred[..n]);
      var jitter := world.jitter(step, |before.queue| - |queue|);
      assert RequeueAll(cfg, world, step, queue, deferred) == RequeueOne(cfg, step, before, jitter, r);
      RequeueOneConserves(cfg, step, before, jitter, r);
      BasesLast(deferred);
      Regroup(Bases(Queued(queue)), Bases(deferred[..n]), multiset{Base(r)});
    }
  }

  lemma HandedNothing(queue: seq<RetryEntry>)
    ensures Handed(Requeue(queue, [])) == Bases(Queued(queue)) + Bases([])
  {
    assert Map(RejectedOf, []) == [];
  }

  lemma BasesLast(requests: seq<ServiceRequest>)
    requires requests != []
    ensures var n := |requests| - 1; Bases(requests) == Bases(requests[..n]) + multiset{Base(requests[n])}
  {
    var n := |requests| - 1;
    assert requests == requests[..n] + [requests[n]];
    BasesOne(requests[..n], requests[n], requests[n]);
  }

  lemma Regroup(a: multiset<ServiceRequest>, b: multiset<ServiceRequest>, c: multiset<ServiceRequest>)
    ensures (a + b) + c == a + (b + c)
  {
  }

  lemma BasesOne(requests: seq<ServiceRequest>, r: ServiceRequest, like: ServiceRequest)
    requires Base(r) == Base(like)
    ensures Bases(requests + [r]) == Bases(requests) + multiset{Base(like)}
  {
    MapSnoc(Base, requests, r);
  }

  // Re-queueing drops for cause: a request over its budget, or one that met a queue that ends full.
  lemma {:induction false} DropsHaveCause(cfg: Config, world: World, step: int, queue: seq<RetryEntry>,
                                          deferred: seq<ServiceRequest>, x: RejectedRequest)
    requires x in RequeueAll(cfg, world, step, queue, deferred).drops
    ensures x.request in deferred
    ensures if x.request.retryCount >= cfg.RetryBudget(x.request.trafficClass) then x.reason == RetryBudgetExhausted
            else x.reason == NoCapacity && |RequeueAll(cfg, world, step, queue, deferred).queue| >= cfg.queueCapacity
  {
    var n := |deferred| - 1;
    if x in RequeueAll(cfg, world, step, queue, deferred[..n]).drops {
      DropsHaveCause(cfg, world, step, queue, deferred[..n], x);
    }
  }

  function WithinBudget(cfg: Config): ServiceRequest -> bool {
    (r: ServiceRequest) =>
      r.retryCount < if r.trafficClass in cfg.classMix then cfg.classMix[r.trafficClass].retryBudget else 0
  }

  // The retry of a request: one count on, due when its backoff and the jitter drawn for it have passed.
  ghost predicate RetryOf(cfg: Config, step: int, jitter: nat, r: ServiceRequest, e: RetryEntry) {
    && e.request == r.(retryCount := r.retryCount + 1)
    && e.eligibleStep == step + BackoffSteps(cfg, r.retryCount, 0) + if cfg.backoffBase > 0 then jitter else 0
  }

  // The queue after re-queueing: the old entries, then the retries of the first requests within their
  // budget, in order, until the queue is full or they are all in; the others are dropped.
  ghost predicate Appended(cfg: Config, world: World, step: int, queue: seq<RetryEntry>,
                           deferred: seq<ServiceRequest>, q: Requeue) {
    var fit := Filter(WithinBudget(cfg), deferred);
    var room := if |queue| < cfg.queueCapacity then cfg.queueCapacity - |queue| else 0;
    && |q.queue| == |queue| + (if room < |fit| then room else |fit|) && q.queue[..|queue|] == queue
    && |q.drops| == |deferred| - (|q.queue| - |queue|)
    && forall j :: 0 <= j < |q.queue| - |queue| ==>
      RetryOf(cfg, step, world.jitter(step, j), fit[j], q.queue[|queue| + j])
  }

  lemma FilterSnoc(cfg: Config, deferred: seq<ServiceRequest>)
    requires deferred != []
    ensures var n := |deferred| - 1;
      Filter(WithinBudget(cfg), deferred) == Filter(WithinBudget(cfg), deferred[..n])
        + if deferred[n].retryCount < cfg.RetryBudget(deferred[n].trafficClass) then [deferred[n]] else []
  {
  }

  lemma NewEntry(cfg: Config, step: int, before: Requeue, jitter: nat, r: ServiceRequest)
    ensures var queue := RequeueOne(cfg, step, before, jitter, r).queue;
      |queue| > |before.queue| ==> RetryOf(cfg, step, jitter, r, queue[|before.queue|])
  {
  }

  lemma AppendOne(cfg: Config, world: World, step: int, queue: seq<RetryEntry>, deferred: seq<ServiceRequest>,
                  before: Requeue)
    requires deferred != [] && Appended(cfg, world, step, queue, deferred[..|deferred| - 1], before)
    ensures Appended(cfg, world, step, queue, deferred,
                     RequeueOne(cfg, step, before, world.jitter(step, |before.queue| - |queue|),
                                deferred[|deferred| - 1]))
  {
    var r, jitter := deferred[|deferred| - 1], world.jitter(step, |before.queue| - |queue|);
    var q := RequeueOne(cfg, step, before, jitter, r);
    FilterSnoc(cfg, deferred);
    if |q.queue| > |before.queue| {
      NewEntry(cfg, step, before, jitter, r);
    }
    hide RetryOf, Filter, BackoffSteps, WithinBudget;
  }

  lemma NothingAppended(cfg: Config, world: World, step: int, queue: seq<RetryEntry>)
    ensures Appended(cfg, world, step, queue, [], Requeue(queue, []))
  {
  }

  // Re-queueing takes the deferred in order, each at its own time, and leaves none out for which
  // there is budget and room.
  lemma {:induction false} RequeuedAtTheirTime(cfg: Config, world: World, step: int, queue: seq<RetryEntry>,
                                               deferred: seq<ServiceRequest>)
    ensures Appended(cfg, world, step, queue, deferred, RequeueAll(cfg, world, step, queue, deferred))
  {
    hide Appended, RequeueOne;
    if deferred == [] {
      NothingAppended(cfg, world, step, queue);
    } else {
      RequeuedAtTheirTime(cfg, world, step, queue, deferred[..|deferred| - 1]);
      AppendOne(cfg, world, step, queue, deferred, RequeueAll(cfg, world, step, queue, deferred[..|deferred| - 1]));
    }
  }

  // Re-queueing respects the queue's capacity, the budgets and the horizons.
  lemma {:induction false} RequeueKeepsQueue(cfg: Config, world: World, now: nat, polledAt: seq<int>,
                                             queue: seq<RetryEntry>, deferred: seq<ServiceRequest>)
    requires cfg.Valid() && world.FairAt(cfg, now)
    requires QueueOk(cfg, now + 1, polledAt, queue) && AllInTime(cfg, now, polledAt, deferred)
    ensures QueueOk(cfg, now + 1, polledAt, RequeueAll(cfg, world, now, queue, deferred).queue)
  {
    if deferred != [] {
      var n := |deferred| - 1;
      var before, r := RequeueAll(cfg, world, now, queue, deferred[..n]), deferred[n];
      RequeueKeepsQueue(cfg, world, now, polledAt, queue, deferred[..n]);
      assert r in deferred && InTime(cfg, now, polledAt, r) && OnPace(cfg, now, polledAt, r);
      BackoffBounds(cfg, r.retryCount, r.retryCount, world.jitter(now, |before.queue| - |queue|));
      NextHorizon(cfg, polledAt[r.id], r.retryCount);
    }
  }

  lemma NextHorizon(cfg: Config, polledAt: int, retries: int)
    ensures Horizon(cfg, polledAt, retries + 1) == Horizon(cfg, polledAt, retries) + LongestWait(cfg)
  {
  }

  // Entries kept waiting are kept in time: their retry step is still ahead.
  lemma HeldStayOk(cfg: Config, s: State, polledAt: seq<int>)
    requires QueueOk(cfg, s.Now(), s.polledAt, s.queue) && s.polledAt <= polledAt
    ensures QueueOk(cfg, s.Now() + 1, polledAt, StillHeld(s))
  {
    forall e | e in StillHeld(s) ensures EntryOk(cfg, s.Now() + 1, polledAt, e) {
      assert EntryOk(cfg, s.Now(), s.polledAt, e);
    }
  }

  ghost predicate GoodDay(cfg: Config, world: World, s: State, batch: seq<ServiceRequest>, day: Day, q: Requeue) {
    && day.ingested == batch + DueNow(s)
    && StepSound(cfg, s.Now(), day.ingested, day.beams, day.outcome)
    && Offered(cfg, world, s.Now(), day.beams)
    && Caused(cfg, world, day.plan, s.Now(), day.outcome)
    && day.queued == |q.queue|
    && q == RequeueAll(cfg, world, s.Now(), StillHeld(s), day.outcome.deferred)
    && day.requeued == |q.queue| - |StillHeld(s)|
    && day.dropped == day.outcome.dropped + q.drops
    && Telemetry.Counts(day.counters, day.outcome.AllServed(), day.outcome.Allocations(), day.requeued, day.dropped,
      day.outcome.rejected)
    && day.counters.InRange()
  }

  function After(s: State, batch: seq<ServiceRequest>, backlog: seq<ServiceRequest>, q: Requeue, day: Day): State {
    State(s.polled + batch, backlog, PolledAtAfter(s, batch), q.queue, s.days + [day])
  }

  // The causes of the dispatch and those of the re-queueing are the day's causes.
  lemma DayHasCauses(cfg: Config, world: World, s: State, batch: seq<ServiceRequest>, day: Day, q: Requeue)
    requires GoodDay(cfg, world, s, batch, day, q)
    ensures DayCaused(cfg, world, s.Now(), day)
  {
    hide StepSound, Offered, Telemetry.Counts, CoinSheds, RequeueAll;
    forall x | x in day.dropped ensures Cause(cfg, world, s.Now(), day, x) {
      if x in q.drops {
        DropsHaveCause(cfg, world, s.Now(), StillHeld(s), day.outcome.deferred, x);
      } else {
        assert DispatchCause(cfg, world, day.plan, day.outcome.congestion.Overage(), s.Now(), x);
      }
    }
    forall x | x in day.outcome.rejected ensures Cause(cfg, world, s.Now(), day, x) {
      assert DispatchCause(cfg, world, day.plan, day.outcome.congestion.Overage(), s.Now(), x);
    }
  }

  lemma DayIsOk(cfg: Config, world: World, s: State, batch: seq<ServiceRequest>, day: Day, q: Requeue)
    requires GoodDay(cfg, world, s, batch, day, q) && AllInTime(cfg, s.Now(), PolledAtAfter(s, batch), day.ingested)
    ensures DayOk(cfg, world, s.Now(), day)
  {
    hide DayCaused, Caused, Offered, Accounted, AllLawful, SlicesHold, BeamsHold;
    DayHasCauses(cfg, world, s, batch, day, q);
    AccountedCounts(day.ingested, day.outcome);
  }

  lemma AccountedCounts(arrivals: seq<ServiceRequest>, d: Dispositions)
    requires Accounted(arrivals, d.AllServed(), d.deferred, d.dropped, d.rejected)
    ensures |arrivals| == |d.AllServed()| + |d.deferred| + |d.dropped| + |d.rejected|
  {
    assert |multiset(arrivals)| == |arrivals|;
    assert |multiset(d.AllServed())| == |d.AllServed()| && |multiset(d.deferred)| == |d.deferred|;
    assert |multiset(Map(RejectedOf, d.dropped))| == |d.dropped|;
    assert |multiset(Map(RejectedOf, d.rejected))| == |d.rejected|;
  }

  lemma DeferredAreArrivals(cfg: Config, now: int, polledAt: seq<int>, day: Day)
    requires StepSound(cfg, now, day.ingested, day.beams, day.outcome) && AllInTime(cfg, now, polledAt, day.ingested)
    ensures AllInTime(cfg, now, polledAt, day.outcome.deferred)
  {
    var d, arrivals := day.outcome, day.ingested;
    forall r | r in d.deferred ensures InTime(cfg, now, polledAt, r) && OnPace(cfg, now, polledAt, r) {
      assert r in multiset(d.deferred);
      assert r in multiset(arrivals);
    }
  }

  lemma AccountedBases(arrivals: seq<ServiceRequest>, d: Dispositions)
    requires Accounted(arrivals, d.AllServed(), d.deferred, d.dropped, d.rejected)
    ensures Bases(arrivals) == Bases(d.AllServed()) + Bases(d.deferred) + Bases(Map(RejectedOf, d.dropped))
      + Bases(Map(RejectedOf, d.rejected))
  {
    var a, b, c, e := d.AllServed(), d.deferred, Map(RejectedOf, d.dropped), Map(RejectedOf, d.rejected);
    MapPermutation(Base, arrivals, a + b + c + e);
    BasesAppend(a, b);
    BasesAppend(a + b, c);
    BasesAppend(a + b + c, e);
  }

  // The day's journal entry moves each arrival from one account to another.
  lemma JournalGrows(s: State, batch: seq<ServiceRequest>, day: Day)
    ensures Bases(s.polled + batch) == Bases(s.polled) + Bases(batch)
    ensures Bases(ServedIn(s.days + [day])) == Bases(ServedIn(s.days)) + Bases(day.outcome.AllServed())
    ensures Bases(DroppedIn(s.days + [day])) == Bases(DroppedIn(s.days)) + Bases(Map(RejectedOf, day.dropped))
    ensures Bases(RejectedIn(s.days + [day]))
      == Bases(RejectedIn(s.days)) + Bases(Map(RejectedOf, day.outcome.rejected))
  {
    assert (s.days + [day])[..|s.days|] == s.days;
    BasesAppend(s.polled, batch);
    BasesAppend(ServedIn(s.days), day.outcome.AllServed());
    BasesAppend(DroppedIn(s.days), Map(RejectedOf, day.dropped));
    BasesAppend(RejectedIn(s.days), Map(RejectedOf, day.outcome.rejected));
  }

  // Rearranging the day's accounts.
  lemma Rebalance(queue: multiset<ServiceRequest>, due: multiset<ServiceRequest>, held: multiset<ServiceRequest>,
                  batch: multiset<ServiceRequest>, arrivals: multiset<ServiceRequest>, served: multiset<ServiceRequest>,
                  deferred: multiset<ServiceRequest>, early: multiset<ServiceRequest>,
                    rejected: multiset<ServiceRequest>,
                  next: multiset<ServiceRequest>, late: multiset<ServiceRequest>, dropped: multiset<ServiceRequest>)
    requires queue == due + held && arrivals == batch + due && arrivals == served + deferred + early + rejected
    requires next + late == held + deferred && dropped == early + late
    ensures batch + queue == next + served + dropped + rejected
  {
    forall r ensures (batch + queue)[r] == (next + served + dropped + rejected)[r] {
      assert arrivals[r] == batch[r] + due[r] == served[r] + deferred[r] + early[r] + rejected[r];
      assert (next + late)[r] == held[r] + deferred[r];
    }
  }

  lemma MoveAll(polled: multiset<ServiceRequest>, batch: multiset<ServiceRequest>, queue: multiset<ServiceRequest>,
                next: multiset<ServiceRequest>, a: multiset<ServiceRequest>, b: multiset<ServiceRequest>,
                c: multiset<ServiceRequest>, x: multiset<ServiceRequest>, y: multiset<ServiceRequest>,
                  z: multiset<ServiceRequest>)
    requires polled == queue + a + b + c && batch + queue == next + x + y + z
    ensures polled + batch == next + (a + x) + (b + y) + (c + z)
  {
    forall r ensures (polled + batch)[r] == (next + (a + x) + (b + y) + (c + z))[r] {
      assert (batch + queue)[r] == next[r] + x[r] + y[r] + z[r];
    }
  }

  lemma DayBalances(cfg: Config, world: World, s: State, batch: seq<ServiceRequest>, day: Day, q: Requeue)
    requires GoodDay(cfg, world, s, batch, day, q)
    ensures Bases(batch) + Bases(Queued(s.queue)) == Bases(Queued(q.queue)) + Bases(day.outcome.AllServed())
      + Bases(Map(RejectedOf, day.dropped)) + Bases(Map(RejectedOf, day.outcome.rejected))
  {
    var d := day.outcome;
    QueueSplits(s);
    BasesAppend(batch, DueNow(s));
    AccountedBases(day.ingested, d);
    RequeueConserves(cfg, world, s.Now(), StillHeld(s), d.deferred);
    MapAppend(RejectedOf, d.dropped, q.drops);
    BasesAppend(Map(RejectedOf, d.dropped), Map(RejectedOf, q.drops));
    Rebalance(Bases(Queued(s.queue)), Bases(DueNow(s)), Bases(Queued(StillHeld(s))), Bases(batch), Bases(day.ingested),
              Bases(d.AllServed()), Bases(d.deferred), Bases(Map(RejectedOf, d.dropped)), Bases(Map(RejectedOf,
                d.rejected)),
              Bases(Queued(q.queue)), Bases(Map(RejectedOf, q.drops)), Bases(Map(RejectedOf, day.dropped)));
  }

  lemma DayConserves(cfg: Config, world: World, s: State, batch: seq<ServiceRequest>, backlog: seq<ServiceRequest>,
                     day: Day, q: Requeue)
    requires Conserved(s) && GoodDay(cfg, world, s, batch, day, q)
    ensures Conserved(After(s, batch, backlog, q, day))
  {
    JournalGrows(s, batch, day);
    DayBalances(cfg, world, s, batch, day, q);
    var served, dropped, rejected := Bases(ServedIn(s.days)), Bases(DroppedIn(s.days)), Bases(RejectedIn(s.days));
    var d, today := day.outcome, Bases(Map(RejectedOf, day.dropped));
    MoveAll(Bases(s.polled), Bases(batch), Bases(Queued(s.queue)), Bases(Queued(q.queue)), served, dropped, rejected,
            Bases(d.AllServed()), today, Bases(Map(RejectedOf, d.rejected)));
  }

  lemma ClockKept(s: State, batch: seq<ServiceRequest>, backlog: seq<ServiceRequest>, day: Day, q: Requeue)
    requires |s.polledAt| == |s.polled| && forall i :: 0 <= i < |s.polledAt| ==> 0 <= s.polledAt[i] < s.Now()
    ensures var next := After(s, batch, backlog, q, day);
      && |next.polledAt| == |next.polled|
      && forall i :: 0 <= i < |next.polledAt| ==> 0 <= next.polledAt[i] < next.Now()
  {
  }

  lemma DaysKept(cfg: Config, world: World, days: seq<Day>, day: Day)
    requires forall t :: 0 <= t < |days| ==> DayOk(cfg, world, t, days[t])
    requires DayOk(cfg, world, |days|, day)
    ensures forall t :: 0 <= t < |days + [day]| ==> DayOk(cfg, world, t, (days + [day])[t])
  {
    hide DayOk;
  }

  lemma NextDropRate(s: State, batch: seq<ServiceRequest>, backlog: seq<ServiceRequest>, q: Requeue, day: Day,
                     rate: real)
    requires IsDropRate(day.counters, rate)
    ensures LastDropRate(After(s, batch, backlog, q, day).days, rate)
  {
  }

  lemma PaceKept(cfg: Config, s: State, batch: seq<ServiceRequest>, day: Day)
    requires forall t :: 0 <= t < s.Now() ==> DayOnPace(cfg, s.polledAt, t, s.days[t])
    requires AllInTime(cfg, s.Now(), PolledAtAfter(s, batch), day.ingested)
    ensures forall t :: 0 <= t < s.Now() + 1 ==> DayOnPace(cfg, PolledAtAfter(s, batch), t, (s.days + [day])[t])
  {
    forall t | 0 <= t < s.Now() ensures DayOnPace(cfg, PolledAtAfter(s, batch), t, s.days[t]) {
      assert DayOnPace(cfg, s.polledAt, t, s.days[t]);
    }
  }

  // One step, whichever scheduler exit it took, keeps everything a run promises.
  lemma StepKeepsConsistent(cfg: Config, world: World, s: State, batch: seq<ServiceRequest>,
                            backlog: seq<ServiceRequest>, day: Day, q: Requeue)
    requires cfg.Valid() && world.FairAt(cfg, s.Now())
    requires Consistent(cfg, world, s) && FreshBatch(s, batch, backlog) && GoodDay(cfg, world, s, batch, day, q)
    ensures Consistent(cfg, world, After(s, batch, backlog, q, day))
  {
    hide DayOk, DayOnPace, QueueOk, Conserved, StepSound, Telemetry.Counts, RequeueAll;
    var polledAt := PolledAtAfter(s, batch);
    ArrivalsAreReady(cfg, world, s, batch, backlog);
    assert QueueOk(cfg, s.Now() + 1, polledAt, q.queue) by {
      DeferredAreArrivals(cfg, s.Now(), polledAt, day);
      HeldStayOk(cfg, s, polledAt);
      RequeueKeepsQueue(cfg, world, s.Now(), polledAt, StillHeld(s), day.outcome.deferred);
    }
    DayIsOk(cfg, world, s, batch, day, q);
    DaysKept(cfg, world, s.days, day);
    PaceKept(cfg, s, batch, day);
    DayConserves(cfg, world, s, batch, backlog, day, q);
    ClockKept(s, batch, backlog, day, q);
  }

  // The journal entry agrees with what was dispatched, counted and re-queued.
  ghost predicate Settled(cfg: Config, world: World, plan: ResourcePlan, s: State, arrivals: seq<ServiceRequest>,
                          beams: seq<Beam>, lag: nat, d: Dispositions, day: Day, q: Requeue) {
    && day.ingested == arrivals && day.beams == beams && day.plan == plan && day.outcome == d && day.lag == lag
    && day.queued == |q.queue|
    && q == RequeueAll(cfg, world, s.Now(), StillHeld(s), d.deferred)
    && day.requeued == |q.queue| - |StillHeld(s)|
    && day.dropped == d.dropped + q.drops
    && Telemetry.Counts(day.counters, d.AllServed(), d.Allocations(), day.requeued, day.dropped, d.rejected)
    && Telemetry.Measures(day.counters, d.congestion, beams, d.Allocations(), d.fairness)
    && (Measurable(d.Allocations(), d.fairness, d.congestion) ==> day.counters.InRange())
  }

  ghost predicate UsableBeams(cfg: Config, world: World, step: nat, beams: seq<Beam>) {
    UniqueBeams(beams) && NonNegativeCapacity(beams) && Offered(cfg, world, step, beams)
  }

  lemma SoundStepsAreMeasurable(cfg: Config, step: int, arrivals: seq<ServiceRequest>, beams: seq<Beam>,
                                d: Dispositions)
    requires StepSound(cfg, step, arrivals, beams, d) && d.congestion.dropRate >= 0.0
    ensures Measurable(d.Allocations(), d.fairness, d.congestion)
  {
    forall a | a in d.Allocations() ensures a.units >= 0.0 {
      var i :| 0 <= i < |d.Allocations()| && d.Allocations()[i] == a;
      assert Lawful(cfg.rules, beams, step, d.AllServed()[i], a);
    }
  }

  // Dispatching from a consistent state is sound, whatever the plan, the beams that answer, the
  // draws and the scheduler faults.
  lemma DispatchIsSound(cfg: Config, world: World, plan: ResourcePlan, s: State, batch: seq<ServiceRequest>,
                        backlog: seq<ServiceRequest>, beams: seq<Beam>, depth: int, dropRate: real)
    requires cfg.Valid() && world.FairAt(cfg, s.Now()) && UsableBeams(cfg, world, s.Now(), beams) && dropRate >= 0.0
    requires Consistent(cfg, world, s) && FreshBatch(s, batch, backlog)
    ensures var d := DispositionsOf(cfg, world, plan, s.Now(), batch + DueNow(s), beams, depth, dropRate);
      && StepSound(cfg, s.Now(), batch + DueNow(s), beams, d)
      && Caused(cfg, world, plan, s.Now(), d)
      && Measurable(d.Allocations(), d.fairness, d.congestion)
  {
    hide DispositionsOf, StepSound, Caused, Offered;
    ArrivalsAreReady(cfg, world, s, batch, backlog);
    StepHasCauses(cfg, world, plan, s.Now(), batch + DueNow(s), beams, depth, dropRate);
    FallbackIsTold(cfg, world, plan, s.Now(), batch + DueNow(s), beams, depth, dropRate);
    StepIsSound(cfg, world, plan, s.Now(), batch + DueNow(s), beams, depth, dropRate);
    SoundStepsAreMeasurable(cfg, s.Now(), batch + DueNow(s), beams,
                            DispositionsOf(cfg, world, plan, s.Now(), batch + DueNow(s), beams, depth, dropRate));
  }

  // A step that dispatches soundly and settles keeps everything a run promises.
  lemma SettledStepKeepsConsistent(cfg: Config, world: World, plan: ResourcePlan, s: State,
                                   batch: seq<ServiceRequest>, backlog: seq<ServiceRequest>,
                                   beams: seq<Beam>, d: Dispositions, day: Day, q: Requeue)
    requires cfg.Valid() && world.FairAt(cfg, s.Now()) && UsableBeams(cfg, world, s.Now(), beams)
    requires Consistent(cfg, world, s) && FreshBatch(s, batch, backlog)
    requires StepSound(cfg, s.Now(), batch + DueNow(s), beams, d) && Caused(cfg, world, plan, s.Now(), d)
    requires Measurable(d.Allocations(), d.fairness, d.congestion)
    requires Settled(cfg, world, plan, s, batch + DueNow(s), beams, |backlog|, d, day, q)
    ensures Consistent(cfg, world, After(s, batch, backlog, q, day))
  {
    StepKeepsConsistent(cfg, world, s, batch, backlog, day, q);
  }

  // Dispatching from a consistent state tells the load it met, the shares it gave and the scheduler it ran.
  lemma DispatchIsTold(cfg: Config, world: World, plan: ResourcePlan, s: State, batch: seq<ServiceRequest>,
                       backlog: seq<ServiceRequest>, beams: seq<Beam>, depth: int, dropRate: real)
    requires cfg.Valid() && world.FairAt(cfg, s.Now()) && UsableBeams(cfg, world, s.Now(), beams)
    requires Consistent(cfg, world, s) && FreshBatch(s, batch, backlog)
    ensures var d := DispositionsOf(cfg, world, plan, s.Now(), batch + DueNow(s), beams, depth, dropRate);
      && StepTold(cfg, world, plan, s.Now(), batch + DueNow(s), beams, d)
      && d.congestion.queueDepth == depth && d.congestion.dropRate == dropRate
  {
    hide DispositionsOf, StepTold, Offered;
    ArrivalsAreReady(cfg, world, s, batch, backlog);
    StepTells(cfg, world, plan, s.Now(), batch + DueNow(s), beams, depth, dropRate);
  }

  // A step dispatched and settled keeps the record of the run true.
  lemma SettledStepKeepsTold(cfg: Config, world: World, plan: ResourcePlan, s: State, batch: seq<ServiceRequest>,
                             backlog: seq<ServiceRequest>, beams: seq<Beam>, d: Dispositions, day: Day, q: Requeue)
    requires Told(cfg, world, s)
    requires StepTold(cfg, world, plan, s.Now(), batch + DueNow(s), beams, d)
    requires d.congestion.queueDepth == |StillHeld(s)| + |backlog| && LastDropRate(s.days, d.congestion.dropRate)
    requires Settled(cfg, world, plan, s, batch + DueNow(s), beams, |backlog|, d, day, q)
    ensures Told(cfg, world, After(s, batch, backlog, q, day))
  {
    hide StepTold, Telemetry.Counts, Telemetry.Measures, RequeueAll, LastDropRate;
    assert DayTold(cfg, world, s.Now(), day);
    hide Settled;
    forall t | 0 <= t < s.Now() + 1
      ensures DayTold(cfg, world, t, (s.days + [day])[t]) && DropRateTold(s.days + [day], t)
    {
      assert (s.days + [day])[..t] == s.days[..t];
      if t < s.Now() {
        assert DayTold(cfg, world, t, s.days[t]) && DropRateTold(s.days, t);
      } else {
        assert s.days[..t] == s.days;
      }
      hide DayTold;
    }
  }
}
