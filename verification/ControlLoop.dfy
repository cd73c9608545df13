// Tier 1: the authoritative per-step loop with its retry queue, breakers, and current plan.
module ControlLoop {
  import opened Domain
  import opened Reals
  import opened Collections
  import opened Planning
  import opened Admission
  import opened RequestBus
  import opened RequestSource
  import opened Pipeline
  import opened StepSafety
  import opened StepReport
  import opened Telemetry
  import opened Ledger
  import opened RunSummary
  import opened Gathering
  import CircuitBreaker

  lemma BeamsAreUsable(cfg: Config, world: World, states: seq<CircuitBreaker.State>, step: nat)
    requires world.GoodReplies(step) && Follows(cfg, world, states, step) && |states| == cfg.clients
    ensures UsableBeams(cfg, world, step, GatherBeams(world, states, step))
  {
    hide Follows, FromClients, Offered, GatherBeams;
    GatheredAreUsable(world, states, step);
    GatheredAreOffered(cfg, world, states, step);
  }

  lemma {:induction false} PublishedAreSized(demand: Demand, n: nat)
    requires forall step: nat, i :: 0 <= i < |demand(step)| ==> demand(step)[i].sizeBytes > 0
    ensures forall i :: 0 <= i < |Published(demand, n)| ==> Published(demand, n)[i].request.sizeBytes > 0
  {
    if n > 0 {
      PublishedAreSized(demand, n - 1);
    }
  }

  // A poll's batch continues the numbering of what was polled before.
  lemma BatchIsFresh(world: World, n: nat, s: State, batch: seq<ServiceRequest>, backlog: seq<ServiceRequest>)
    requires world.GoodDemand()
    requires Map(EntryRequest, Published(world.demand, n)) == s.polled + batch + backlog
    requires AllFresh(batch, |s.polled|, s.Now())
    ensures FreshBatch(s, batch, backlog)
  {
    var all := Published(world.demand, n);
    PublishedAreSized(world.demand, n);
    PublishedInOrder(world.demand, n);
    assert forall i :: 0 <= i < |all| ==> Map(EntryRequest, all)[i] == all[i].request;
    forall r | r in batch ensures r.retryCount == 0 && r.arrivalStep <= s.Now() && r.sizeBytes > 0 {
      var i :| 0 <= i < |batch| && batch[i] == r;
      assert (s.polled + batch + backlog)[|s.polled| + i] == r;
    }
  }

  // The rate the loop computes is the fraction dropped.
  lemma RateIsDropRate(c: StepCounters)
    ensures var handled := c.served + c.dropped + c.rejected;
      handled > 0 ==> IsDropRate(c, c.dropped as real / handled as real)
  {
    var handled := c.served + c.dropped + c.rejected;
    if handled > 0 {
      QuotientTimes(c.dropped as real, handled as real);
    }
  }

  class ControlLoop {
    const config: Config
    const world: World
    const source: SyntheticRequestSource
    const admission: AdmissionController
    const breakers: seq<CircuitBreaker.Breaker>
    var retryQueue: seq<RetryEntry>
    var plan: ResourcePlan
    var lastDropRate: real
    // The run so far as a value: what was polled when, and what each step did.
    ghost var journal: State

    ghost predicate BreakersOk() {
      && |breakers| == config.clients
      && (forall i, j :: 0 <= i < j < |breakers| ==> breakers[i] != breakers[j])
      && (forall i :: 0 <= i < |breakers| ==> breakers[i].settings == config.breaker)
    }

    ghost function BreakerStates(): seq<CircuitBreaker.State>
      reads breakers
    {
      seq(|breakers|, i requires 0 <= i < |breakers| reads breakers => breakers[i].Value())
    }

    // The journal describes the fields: what was polled, what is buffered, and what waits for retry.
    ghost predicate InSync()
      reads this, source, source.bus
    {
      && journal.polled == source.drained
      && journal.backlog == Map(EntryRequest, source.bus.pending)
      && journal.queue == retryQueue
    }

    ghost predicate Wired()
      reads this, source, source.bus, admission, breakers
    {
      && source.Valid() && source.demand == world.demand && source.generatedThrough == journal.Now() - 1
      && BreakersOk()
      && admission.plan == plan
      && 0.0 <= lastDropRate <= 1.0
    }

    ghost predicate Valid()
      reads this, source, source.bus, admission, breakers
    {
      && config.Valid() && world.Fair(config) && Wired() && InSync() && Consistent(config, world, journal)
      && Follows(config, world, BreakerStates(), journal.Now())
      && LastDropRate(journal.days, lastDropRate) && Told(config, world, journal)
    }

    constructor (config: Config, world: World)
      requires config.Valid() && world.Fair(config)
      ensures Valid() && this.config == config && this.world == world
      ensures journal == State([], [], [], [], []) && plan == PASSTHROUGH
      ensures fresh(source) && fresh(source.bus) && fresh(admission) && forall b :: b in breakers ==> fresh(b)
    {
      this.config, this.world := config, world;
      var s := new SyntheticRequestSource(world.demand);
      source := s;
      admission := new AdmissionController();
      var made := MakeBreakers(config.breaker, config.clients);
      breakers := made;
      retryQueue, plan, lastDropRate := [], PASSTHROUGH, 0.0;
      journal := State([], [], [], [], []);
      new;
      StartIsConsistent(config, world);
      assert forall k: nat :: Health(world, k, 0) == [];
      assert Published(world.demand, 0) == [];
    }

    static method MakeBreakers(settings: CircuitBreaker.Settings, n: nat) returns (made: seq<CircuitBreaker.Breaker>)
      ensures |made| == n && fresh(set b | b in made)
      ensures forall i, j :: 0 <= i < j < |made| ==> made[i] != made[j]
      ensures forall i :: 0 <= i < |made| ==> made[i].settings == settings && made[i].Value() == CircuitBreaker.CLOSED
    {
      made := [];
      for k := 0 to n
        invariant |made| == k && fresh(set b | b in made)
        invariant forall i, j :: 0 <= i < j < |made| ==> made[i] != made[j]
        invariant forall i :: 0 <= i < |made| ==>
          made[i].settings == settings && made[i].Value() == CircuitBreaker.CLOSED
      {
        var b := new CircuitBreaker.Breaker(settings);
        made := made + [b];
      }
    }

    // Asks one client if its breaker allows, and tells the breaker how the call went.
    method AskClient(k: nat, step: int) returns (beams: seq<Beam>, tripped: bool)
      requires BreakersOk() && k < |breakers|
      modifies breakers[k]
      ensures var b, reply := old(BreakerStates())[k], world.reply(k, step);
        && BreakerStates() == old(BreakerStates())[k := NextState(config, b, step, reply)]
        && beams == (if CircuitBreaker.Allows(b, step) && reply.Some? then reply.value else [])
        && tripped == (CircuitBreaker.Allows(b, step) && reply.None? && CircuitBreaker.Trips(config.breaker, b, step))
    {
      beams, tripped := [], false;
      var allowed := breakers[k].Allow(step);
      if allowed {
        var reply := world.reply(k, step);
        if reply.Some? {
          beams := reply.value;
          breakers[k].RecordSuccess();
        } else {
          tripped := breakers[k].RecordFailure(step);
        }
      }
    }

    // Asks every client its breaker allows, and records how each call went.
    method GatherConstellation(step: int) returns (beams: seq<Beam>, trips: nat)
      requires BreakersOk()
      modifies breakers
      ensures beams == GatherBeams(world, old(BreakerStates()), step)
      ensures trips == GatherTrips(config, world, old(BreakerStates()), step)
      ensures BreakerStates() == NextStates(config, world, old(BreakerStates()), step)
    {
      beams, trips := [], 0;
      ghost var states := BreakerStates();
      assert GatherBeams(world, states[..0], step) == [] && GatherTrips(config, world, states[..0], step) == 0;
      assert |states| == |breakers|;
      hide BreakerStates, BreakersOk, GatherBeams, GatherTrips, NextState;
      for k := 0 to |breakers|
        invariant |BreakerStates()| == |states|
        invariant beams == GatherBeams(world, states[..k], step)
        invariant trips == GatherTrips(config, world, states[..k], step)
        invariant forall j :: 0 <= j < k ==>
          BreakerStates()[j] == NextState(config, states[j], step, world.reply(j, step))
        invariant forall j :: k <= j < |states| ==> BreakerStates()[j] == states[j]
      {
        GatherNext(config, world, states, k, step);
        var reply, tripped := AskClient(k, step);
        beams := beams + reply;
        if tripped {
          trips := trips + 1;
        }
      }
      assert states[..|breakers|] == states;
    }

    // On cadence, adopts the plan the optimizer broadcasts.
    method MaybeReplan(step: int)
      requires config.cadence > 0 && admission.plan == plan
      modifies this`plan, admission
      ensures plan == (if step % config.cadence == 0 then world.plan(step) else old(plan)) && admission.plan == plan
    {
      if step % config.cadence != 0 {
        return;
      }
      plan := world.plan(step);
      admission.UpdatePolicy(plan);
    }

    // Splits the retry queue into the requests due at the step and the entries still waiting.
    static method SplitDue(queue: seq<RetryEntry>, step: int) returns (eligible: seq<ServiceRequest>,
                           held: seq<RetryEntry>)
      ensures eligible == Queued(Filter(IsDue(step), queue)) && held == Filter(IsHeld(step), queue)
    {
      eligible, held := [], [];
      for i := 0 to |queue|
        invariant eligible == Queued(Filter(IsDue(step), queue[..i]))
        invariant held == Filter(IsHeld(step), queue[..i])
      {
        var entry := queue[i];
        assert queue[..i + 1][..i] == queue[..i];
        MapSnoc(QueuedRequest, Filter(IsDue(step), queue[..i]), entry);
        if entry.eligibleStep <= step {
          eligible := eligible + [entry.request];
        } else {
          held := held + [entry];
        }
      }
      assert queue[..|queue|] == queue;
    }

    // Polls new requests and re-admits the deferred ones whose backoff has elapsed.
    method Ingest(step: int) returns (arrivals: seq<ServiceRequest>, ghost batch: seq<ServiceRequest>)
      requires source.Valid() && source.demand == world.demand && world.GoodDemand() && InSync()
      requires step == journal.Now() && source.generatedThrough < step
      modifies this`retryQueue, source, source.bus
      ensures source.Valid() && source.generatedThrough == step
      ensures |batch| <= config.maxBatch && (source.bus.pending != [] ==> |batch| == config.maxBatch)
      ensures arrivals == batch + DueNow(journal) && retryQueue == StillHeld(journal)
      ensures source.drained == journal.polled + batch
      ensures FreshBatch(journal, batch, Map(EntryRequest, source.bus.pending))
    {
      var eligible, held := SplitDue(retryQueue, step);
      retryQueue := held;
      var polled := source.Poll(step, config.maxBatch);
      batch := polled;
      arrivals := polled + eligible;
      BatchIsFresh(world, source.generatedThrough + 1, journal, batch, Map(EntryRequest, source.bus.pending));
    }

    // Re-queues one deferred request within retry budget and queue capacity, or drops it.
    method RequeueRequest(step: int, request: ServiceRequest, requeued: nat, ghost drops: seq<RejectedRequest>)
      returns (drop: seq<RejectedRequest>)
      modifies this`retryQueue
      ensures RequeueOne(config, step, Requeue(old(retryQueue), drops), world.jitter(step, requeued), request)
        == Requeue(retryQueue, drops + drop)
      ensures |retryQueue| == |old(retryQueue)| + if drop == [] then 1 else 0
    {
      var budget := config.RetryBudget(request.trafficClass);
      if request.retryCount >= budget {
        return [RejectedRequest(request, RetryBudgetExhausted)];
      }
      if |retryQueue| >= config.queueCapacity {
        return [RejectedRequest(request, NoCapacity)];
      }
      var again := request.(retryCount := request.retryCount + 1);
      var eligible := step + BackoffSteps(config, request.retryCount, world.jitter(step, requeued));
      retryQueue := retryQueue + [RetryEntry(again, eligible)];
      assert drops + [] == drops;
      return [];
    }

    // Re-queues the deferred requests in order and gathers the drops.
    method HandleDeferred(step: int, deferred: seq<ServiceRequest>) returns (requeued: nat, drops: seq<RejectedRequest>)
      modifies this`retryQueue
      ensures var q := RequeueAll(config, world, step, old(retryQueue), deferred);
        retryQueue == q.queue && drops == q.drops && requeued == |q.queue| - |old(retryQueue)|
    {
      requeued, drops := 0, [];
      assert RequeueAll(config, world, step, retryQueue, deferred[..0]) == Requeue(retryQueue, []);
      hide RequeueAll, RequeueOne;
      for i := 0 to |deferred|
        invariant RequeueAll(config, world, step, old(retryQueue), deferred[..i]) == Requeue(retryQueue, drops)
        invariant requeued == |retryQueue| - |old(retryQueue)|
      {
        RequeueNext(config, world, step, old(retryQueue), deferred, i);
        var drop := RequeueRequest(step, deferred[i], requeued, drops);
        drops := drops + drop;
        if drop == [] {
          requeued := requeued + 1;
        }
      }
      assert deferred[..|deferred|] == deferred;
    }

    // Assembles the dispositions of a step: re-queues the deferred, counts, and notes the drop rate.
    method Settle(step: nat, arrivals: seq<ServiceRequest>, beams: seq<Beam>, trips: nat, d: Dispositions)
      returns (counters: StepCounters, ghost day: Day, ghost q: Requeue)
      requires retryQueue == StillHeld(journal) && step == journal.Now()
      modifies this`retryQueue, this`lastDropRate
      ensures Settled(config, world, plan, journal, arrivals, beams, |source.bus.pending|, d, day, q)
      ensures retryQueue == q.queue
      ensures day.counters == counters && counters.breakerTrips == trips
      ensures counters.degradeMode == d.mode && counters.fallbackActivations == d.fallbackUsed
      ensures IsDropRate(counters, lastDropRate) && 0.0 <= lastDropRate <= 1.0
    {
      var requeued, drops := HandleDeferred(step, d.deferred);
      var dropped := d.dropped + drops;
      counters := BuildCounters(step, d.congestion, beams, d.AllServed(), d.Allocations(), requeued, dropped,
        d.rejected,
                                d.admittedCount, d.fairness, d.mode, d.fallbackUsed, trips);
      var handled := counters.served + counters.dropped + counters.rejected;
      lastDropRate := if handled > 0 then counters.dropped as real / handled as real else 0.0;
      if handled > 0 {
        FractionRange(counters.dropped as real, handled as real);
        RateIsDropRate(counters);
      }
      q := Requeue(retryQueue, drops);
      day := Day(arrivals, beams, plan, d, requeued, |retryQueue|, |source.bus.pending|, dropped, counters);
    }

    // The first half of a step: asks the constellations, adopts the plan on cadence, and ingests.
    method Open(step: nat)
      returns (beams: seq<Beam>, trips: nat, arrivals: seq<ServiceRequest>, ghost batch: seq<ServiceRequest>)
      requires config.cadence > 0 && world.GoodDemand() && world.GoodReplies(step)
      requires Wired() && InSync() && step == journal.Now() && Follows(config, world, BreakerStates(), step)
      modifies this`plan, this`retryQueue, source, source.bus, admission, breakers
      ensures source.Valid() && source.generatedThrough == step && BreakersOk() && admission.plan == plan
      ensures plan == if step % config.cadence == 0 then world.plan(step) else old(plan)
      ensures beams == GatherBeams(world, old(BreakerStates()), step) && UsableBeams(config, world, step, beams)
      ensures trips == GatherTrips(config, world, old(BreakerStates()), step)
      ensures BreakerStates() == NextStates(config, world, old(BreakerStates()), step)
      ensures arrivals == batch + DueNow(journal) && retryQueue == StillHeld(journal)
      ensures |batch| <= config.maxBatch && (source.bus.pending != [] ==> |batch| == config.maxBatch)
      ensures source.drained == journal.polled + batch
      ensures FreshBatch(journal, batch, Map(EntryRequest, source.bus.pending))
    {
      hide Follows, GatherBeams, GatherTrips, UsableBeams;
      beams, trips := GatherConstellation(step);
      BeamsAreUsable(config, world, old(BreakerStates()), step);
      MaybeReplan(step);
      arrivals, batch := Ingest(step);
    }

    // The second half: dispatches the arrivals, settles the outcome and enters it in the journal.
    method Close(step: nat, beams: seq<Beam>, trips: nat, arrivals: seq<ServiceRequest>,
                 ghost batch: seq<ServiceRequest>)
      returns (counters: StepCounters, ghost d: Dispositions, ghost day: Day, ghost q: Requeue)
      requires config.Valid() && world.FairAt(config, step) && admission.plan == plan
      requires UsableBeams(config, world, step, beams)
      requires Consistent(config, world, journal) && step == journal.Now() && 0.0 <= lastDropRate
      requires LastDropRate(journal.days, lastDropRate) && Told(config, world, journal)
      requires FreshBatch(journal, batch, Map(EntryRequest, source.bus.pending))
      requires arrivals == batch + DueNow(journal) && retryQueue == StillHeld(journal)
      modifies this`retryQueue, this`lastDropRate, this`journal
      ensures d == DispositionsOf(config, world, plan, step, arrivals, beams,
                                  |StillHeld(old(journal))| + |source.bus.pending|, old(lastDropRate))
      ensures Settled(config, world, plan, old(journal), arrivals, beams, |source.bus.pending|, d, day, q)
      ensures journal == After(old(journal), batch, Map(EntryRequest, source.bus.pending), q, day)
      ensures Consistent(config, world, journal) && Told(config, world, journal)
      ensures LastDropRate(journal.days, lastDropRate)
      ensures retryQueue == q.queue && IsDropRate(counters, lastDropRate) && 0.0 <= lastDropRate <= 1.0
      ensures day.counters == counters && counters.breakerTrips == trips
      ensures counters.degradeMode == d.mode && counters.fallbackActivations == if d.mode == Normal then 0 else 1
    {
      hide Consistent, DispositionsOf, Settled, FreshBatch, UsableBeams, StepSound, Caused, StepTold, LastDropRate;
      hide Told;
      ghost var s, backlog := journal, Map(EntryRequest, source.bus.pending);
      var depth := |retryQueue| + source.Backlog();
      DispatchIsSound(config, world, plan, s, batch, backlog, beams, depth, lastDropRate);
      DispatchIsTold(config, world, plan, s, batch, backlog, beams, depth, lastDropRate);
      var found := Dispatch(config, world, admission, plan, step, arrivals, beams, depth, lastDropRate);
      d := found;
      FallbackIsTold(config, world, plan, step, arrivals, beams, depth, lastDropRate);
      counters, day, q := Settle(step, arrivals, beams, trips, found);
      SettledStepKeepsConsistent(config, world, plan, s, batch, backlog, beams, found, day, q);
      SettledStepKeepsTold(config, world, plan, s, batch, backlog, beams, found, day, q);
      NextDropRate(s, batch, backlog, q, day, lastDropRate);
      journal := After(s, batch, backlog, q, day);
    }

    // Runs one time step and returns its counters.
    method Step(step: nat)
      returns (counters: StepCounters, ghost batch: seq<ServiceRequest>, ghost d: Dispositions, ghost day: Day,
        ghost q: Requeue)
      requires Valid() && step == journal.Now()
      modifies this, source, source.bus, admission, breakers
      ensures Valid()
      ensures plan == if step % config.cadence == 0 then world.plan(step) else old(plan)
      ensures BreakerStates() == NextStates(config, world, old(BreakerStates()), step)
      ensures |batch| <= config.maxBatch && (journal.backlog != [] ==> |batch| == config.maxBatch)
      ensures d == DispositionsOf(config, world, plan, step, batch + DueNow(old(journal)),
                                  GatherBeams(world, old(BreakerStates()), step),
                                  |StillHeld(old(journal))| + |journal.backlog|, old(lastDropRate))
      ensures Settled(config, world, plan, old(journal), batch + DueNow(old(journal)),
                      GatherBeams(world, old(BreakerStates()), step), |journal.backlog|, d, day, q)
      ensures journal == After(old(journal), batch, journal.backlog, q, day)
      ensures day.counters == counters
        && counters.breakerTrips == GatherTrips(config, world, old(BreakerStates()), step)
      ensures IsDropRate(counters, lastDropRate)
      ensures counters.degradeMode == d.mode && counters.fallbackActivations == if d.mode == Normal then 0 else 1
    {
      hide Consistent, DispositionsOf, Settled, GatherBeams, GatherTrips, FreshBatch, UsableBeams;
      hide Follows, LastDropRate, IsDropRate, StepTold, Told;
      FollowsOn(config, world, BreakerStates(), step);
      var beams, trips, arrivals;
      beams, trips, arrivals, batch := Open(step);
      counters, d, day, q := Close(step, beams, trips, arrivals, batch);
    }

    // One step of a run, added to the summary so far.
    method RunStep(step: nat, so: Summary) returns (summary: Summary)
      requires Valid() && step == journal.Now() && Totals(so, journal.days)
      requires TripsIn(journal.days) == TripsOf(config, world, config.clients, step)
      modifies this, source, source.bus, admission, breakers
      ensures Valid() && journal.Now() == step + 1 && Totals(summary, journal.days)
      ensures TripsIn(journal.days) == TripsOf(config, world, config.clients, step + 1)
    {
      hide Consistent, DispositionsOf, GatherBeams, GatherTrips, Totals, Settled, NextStates, Follows, TripsOf, Told;
      ghost var s := journal;
      ghost var beams := GatherBeams(world, BreakerStates(), step);
      TripsAdvance(config, world, BreakerStates(), step);
      ghost var batch, d, day, q;
      var c;
      c, batch, d, day, q := Step(step);
      var byClass := AddTally(so.servedByClass, c.servedByClass);
      StepAdds(config, world, plan, s, batch + DueNow(s), beams, |journal.backlog|, d, day, q, so, byClass);
      summary := Added(so, c, byClass);
    }

    // Executes the whole simulation and returns its aggregate summary.
    method Run() returns (summary: Summary)
      requires Valid() && journal.days == []
      modifies this, source, source.bus, admission, breakers
      ensures Valid() && journal.Now() == config.durationSteps
      ensures Totals(summary, journal.days) && summary.retryBacklog == |retryQueue|
      ensures |Published(world.demand, config.durationSteps)|
        == |journal.backlog| + summary.retryBacklog + summary.served + summary.dropped + summary.rejected
      ensures summary.breakerTrips == TripsOf(config, world, config.clients, config.durationSteps)
    {
      NoTripsYet(config, world, config.clients);
      hide Consistent, Follows, LastDropRate, TripsOf, GatherBeams, GatherTrips, Told;
      summary := NOTHING_YET;
      for step := 0 to config.durationSteps
        invariant Valid() && journal.Now() == step
        invariant Totals(summary, journal.days) && TripsIn(journal.days) == TripsOf(config, world, config.clients, step)
      {
        summary := RunStep(step, summary);
      }
      SummaryBalances(config, world, journal, summary);
      summary := summary.(retryBacklog := |retryQueue|);
      assert |source.drained| + |source.bus.pending| == |Published(world.demand, config.durationSteps)|;
    }
  }
}
