// The aggregate outcome of a run, summed over its steps.
module RunSummary {
  import opened Domain
  import opened Collections
  import opened Telemetry
  import opened Planning
  import opened Ledger
  import opened Optimizer
  import Pipeline

  datatype Summary = Summary(
    steps: nat, served: nat, deferred: nat, dropped: nat, rejected: nat,
    retryBacklog: nat, fallbackActivations: nat, breakerTrips: nat,
    servedByClass: map<TrafficClass, nat>)

  const NOTHING_YET := Summary(0, 0, 0, 0, 0, 0, 0, 0, map[])

  // Deferrals that were re-queued for another try.
  function DeferralsIn(days: seq<Day>): nat {
    if days == [] then 0 else DeferralsIn(days[..|days| - 1]) + days[|days| - 1].requeued
  }

  // Steps that did not end in the configured scheduler's own result.
  function FallbacksIn(days: seq<Day>): nat {
    if days == [] then 0
    else FallbacksIn(days[..|days| - 1]) + if days[|days| - 1].outcome.mode == Normal then 0 else 1
  }

  function TripsIn(days: seq<Day>): nat {
    if days == [] then 0 else TripsIn(days[..|days| - 1]) + days[|days| - 1].counters.breakerTrips
  }

  function IngestedIn(days: seq<Day>): nat {
    if days == [] then 0 else IngestedIn(days[..|days| - 1]) + |days[|days| - 1].ingested|
  }

  // The summary says what the journal's days did.
  ghost predicate Totals(t: Summary, days: seq<Day>) {
    && t.steps == |days|
    && t.served == |ServedIn(days)|
    && t.deferred == DeferralsIn(days)
    && t.dropped == |DroppedIn(days)|
    && t.rejected == |RejectedIn(days)|
    && t.fallbackActivations == FallbacksIn(days)
    && t.breakerTrips == TripsIn(days)
    && Tallies(t.servedByClass, multiset(Map(ClassOf, ServedIn(days))))
  }

  function Merged<K>(a: map<K, nat>, b: map<K, nat>): map<K, nat> {
    map k | k in a.Keys + b.Keys :: At(a, k) + At(b, k)
  }

  // Adding two tallies tallies both.
  lemma MergedTallies<K(!new)>(a: map<K, nat>, b: map<K, nat>, xs: multiset<K>, ys: multiset<K>)
    requires Tallies(a, xs) && Tallies(b, ys)
    ensures Tallies(Merged(a, b), xs + ys)
  {
    forall k ensures At(a, k) == xs[k] && At(b, k) == ys[k] {
    }
  }

  // Adds one step's tally to the run's.
  method AddTally(total: map<TrafficClass, nat>, part: map<TrafficClass, nat>) returns (sum: map<TrafficClass, nat>)
    ensures sum == Merged(total, part)
  {
    sum := total;
    var left := part.Keys;
    while left != {}
      invariant left <= part.Keys && sum.Keys == total.Keys + (part.Keys - left)
      invariant forall k :: k in sum ==> sum[k] == At(total, k) + if k in left then 0 else At(part, k)
    {
      var k :| k in left;
      sum := sum[k := At(sum, k) + part[k]];
      left := left - {k};
    }
  }

  // The totals after one more step with these counters.
  function Added(t: Summary, c: StepCounters, byClass: map<TrafficClass, nat>): Summary {
    Summary(t.steps + 1, t.served + c.served, t.deferred + c.deferred, t.dropped + c.dropped, t.rejected + c.rejected,
            t.retryBacklog, t.fallbackActivations + c.fallbackActivations, t.breakerTrips + c.breakerTrips, byClass)
  }

  lemma ClassesAdd(a: map<TrafficClass, nat>, b: map<TrafficClass, nat>, before: seq<ServiceRequest>,
                   today: seq<ServiceRequest>)
    requires Tallies(a, multiset(Map(ClassOf, before))) && Tallies(b, multiset(Map(ClassOf, today)))
    ensures Tallies(Merged(a, b), multiset(Map(ClassOf, before + today)))
  {
    hide Tallies, Merged;
    MapAppend(ClassOf, before, today);
    MergedTallies(a, b, multiset(Map(ClassOf, before)), multiset(Map(ClassOf, today)));
  }

  // One more day adds that day's counters to every total.
  lemma DayAdds(t: Summary, days: seq<Day>, day: Day, byClass: map<TrafficClass, nat>)
    requires Totals(t, days) && byClass == Merged(t.servedByClass, day.counters.servedByClass)
    requires Counts(day.counters, day.outcome.AllServed(), day.outcome.Allocations(), day.requeued, day.dropped,
      day.outcome.rejected)
    requires day.counters.fallbackActivations == if day.outcome.mode == Normal then 0 else 1
    ensures TripsIn(days + [day]) == TripsIn(days) + day.counters.breakerTrips
    ensures Totals(Added(t, day.counters, byClass), days + [day])
  {
    hide Tallies, Merged;
    assert (days + [day])[..|days|] == days;
    assert Tallies(byClass, multiset(Map(ClassOf, ServedIn(days) + day.outcome.AllServed()))) by {
      ClassesAdd(t.servedByClass, day.counters.servedByClass, ServedIn(days), day.outcome.AllServed());
    }
  }

  // A settled step adds its day.
  lemma StepAdds(cfg: Pipeline.Config, world: Pipeline.World, plan: ResourcePlan, s: State,
                 arrivals: seq<ServiceRequest>, beams: seq<Beam>, lag: nat, d: Pipeline.Dispositions, day: Day,
                 q: Requeue, t: Summary, byClass: map<TrafficClass, nat>)
    requires Settled(cfg, world, plan, s, arrivals, beams, lag, d, day, q) && Totals(t, s.days)
    requires byClass == Merged(t.servedByClass, day.counters.servedByClass)
    requires day.counters.fallbackActivations == if d.mode == Normal then 0 else 1
    ensures TripsIn(s.days + [day]) == TripsIn(s.days) + day.counters.breakerTrips
    ensures Totals(Added(t, day.counters, byClass), s.days + [day])
  {
    hide Totals, Merged, Counts, RequeueAll, Measures;
    DayAdds(t, s.days, day, byClass);
  }

  lemma CountPolled(s: State)
    requires Conserved(s)
    ensures |s.polled| == |s.queue| + |ServedIn(s.days)| + |DroppedIn(s.days)| + |RejectedIn(s.days)|
  {
    assert |Bases(s.polled)| == |s.polled| && |Bases(Queued(s.queue))| == |s.queue|;
    assert |Bases(ServedIn(s.days))| == |ServedIn(s.days)|;
    assert |Bases(DroppedIn(s.days))| == |DroppedIn(s.days)| && |Bases(RejectedIn(s.days))| == |RejectedIn(s.days)|;
  }

  ghost predicate DayBalanced(day: Day) {
    |day.ingested| == |day.outcome.AllServed()| + day.requeued + |day.dropped| + |day.outcome.rejected|
  }

  lemma DayHandles(cfg: Pipeline.Config, world: Pipeline.World, t: nat, day: Day)
    requires DayOk(cfg, world, t, day)
    ensures DayBalanced(day)
  {
  }

  lemma {:induction false} IngestedAddsUp(days: seq<Day>)
    requires forall t :: 0 <= t < |days| ==> DayBalanced(days[t])
    ensures IngestedIn(days) == |ServedIn(days)| + DeferralsIn(days) + |DroppedIn(days)| + |RejectedIn(days)|
  {
    if days != [] {
      IngestedAddsUp(days[..|days| - 1]);
      assert DayBalanced(days[|days| - 1]);
    }
  }

  // A run's summary balances: what was polled is served, dropped, rejected or waiting for a retry,
  // and what was ingested, first or again, is that plus the deferrals.
  lemma SummaryBalances(cfg: Pipeline.Config, world: Pipeline.World, s: State, t: Summary)
    requires Consistent(cfg, world, s) && Totals(t, s.days)
    ensures |s.polled| == t.served + t.dropped + t.rejected + |s.queue|
    ensures IngestedIn(s.days) == t.served + t.deferred + t.dropped + t.rejected
    ensures Total(t.servedByClass) == t.served
  {
    hide DayOk, DayOnPace, QueueOk, Conserved, Tallies;
    CountPolled(s);
    TalliesAddUp(t.servedByClass, multiset(Map(ClassOf, ServedIn(s.days))));
    forall t | 0 <= t < |s.days| ensures DayBalanced(s.days[t]) {
      DayHandles(cfg, world, t, s.days[t]);
    }
    IngestedAddsUp(s.days);
  }

  // Whatever a run records is fit feedback for the adaptive planner: every indicator is a fraction.
  lemma RunsFeedThePlanner(cfg: Pipeline.Config, world: Pipeline.World, s: State)
    requires Consistent(cfg, world, s)
    ensures AllInRange(Map((day: Day) => day.counters, s.days))
  {
    forall t | 0 <= t < s.Now() ensures s.days[t].counters.InRange() {
      assert DayOk(cfg, world, t, s.days[t]);
    }
  }
}
