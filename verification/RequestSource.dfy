// The synthetic request source: each step's demand is published once, then drained in batches.
module RequestSource {
  import opened Domain
  import opened Collections
  import opened RequestBus

  // What the demand generator draws for one request; everything else about it is computed.
  datatype Sample = Sample(trafficClass: TrafficClass, region: Region, sizeBytes: int, linkQuality: real,
    urgency: real, slack: int)

  // The draws of every step of a run, in generation order.
  type Demand = nat -> seq<Sample>

  function RequestFor(step: int, id: RequestId, s: Sample): ServiceRequest {
    ServiceRequest(id, s.trafficClass, s.region, s.sizeBytes, s.linkQuality, s.urgency, step, step + s.slack, 0, None)
  }

  function EntriesOf(step: int, first: nat, samples: seq<Sample>): seq<Entry> {
    seq(|samples|, i requires 0 <= i < |samples| => Entry(step, first + i, RequestFor(step, first + i, samples[i])))
  }

  // Everything published by generating steps 0 to n - 1 once each, in order.
  function Published(demand: Demand, n: nat): (entries: seq<Entry>) {
    if n == 0 then []
    else
      var before := Published(demand, n - 1);
      before + EntriesOf(n - 1, |before|, demand(n - 1))
  }

  // The i-th entry carries the number and the id i, an untried request, and its step of arrival.
  ghost predicate NumberedInOrder(entries: seq<Entry>, n: nat) {
    && (forall i :: 0 <= i < |entries| ==> entries[i].sequence == i && entries[i].request.id == i)
    && (forall i :: 0 <= i < |entries| ==> 0 <= entries[i].availableAt == entries[i].request.arrivalStep < n)
    && (forall i :: 0 <= i < |entries| ==> entries[i].request.retryCount == 0)
    && InOrder(entries)
  }

  // Everything published is numbered from zero in order, available at its step, and untried.
  lemma {:induction false} PublishedInOrder(demand: Demand, n: nat)
    ensures NumberedInOrder(Published(demand, n), n)
  {
    if n > 0 {
      hide NumberedInOrder, EntriesOf;
      PublishedInOrder(demand, n - 1);
      OneMoreStepInOrder(Published(demand, n - 1), n - 1, demand(n - 1));
    } else {
      assert NumberedInOrder([], 0);
    }
  }

  lemma OneMoreStepInOrder(before: seq<Entry>, step: nat, samples: seq<Sample>)
    requires NumberedInOrder(before, step)
    ensures NumberedInOrder(before + EntriesOf(step, |before|, samples), step + 1)
  {
    var more := EntriesOf(step, |before|, samples);
    var all := before + more;
    forall i | 0 <= i < |all|
      ensures all[i].sequence == i == all[i].request.id && all[i].request.retryCount == 0
      ensures 0 <= all[i].availableAt == all[i].request.arrivalStep <= step
      ensures i >= |before| ==> all[i].availableAt == step
    {
      assert all[i] == if i < |before| then before[i] else more[i - |before|];
    }
    forall i, j | 0 <= i < j < |all| ensures all[i].availableAt <= all[j].availableAt {
      if j < |before| {
        assert all[i] == before[i] && all[j] == before[j];
      }
    }
  }

  // The request is what the sample drew, arriving at the step and due its slack later.
  ghost predicate DrawnAs(step: int, s: Sample, r: ServiceRequest) {
    && r.trafficClass == s.trafficClass && r.region == s.region && r.sizeBytes == s.sizeBytes
    && r.linkQuality == s.linkQuality && r.urgency == s.urgency
    && r.arrivalStep == step && r.deadlineStep == step + s.slack && r.preferredBand == None
  }

  // One more step publishes exactly that step's samples, in the order drawn, after all earlier ones.
  lemma DemandIsPublished(demand: Demand, step: nat)
    ensures var before, after := Published(demand, step), Published(demand, step + 1);
      && |after| == |before| + |demand(step)| && after[..|before|] == before
      && forall i :: 0 <= i < |demand(step)| ==> DrawnAs(step, demand(step)[i], after[|before| + i].request)
  {
    hide Published;
    PublishedGrows(demand, step, 0);
    assert Published(demand, step + 1)[0..] == Published(demand, step + 1);
  }

  // The drained requests and the pending entries are the two sides of a cut through the published list.
  ghost predicate CutAt(all: seq<Entry>, drained: seq<ServiceRequest>, pending: seq<Entry>) {
    && |drained| <= |all|
    && drained == Map(EntryRequest, all[..|drained|])
    && pending == all[|drained|..]
  }

  class SyntheticRequestSource {
    const bus: InMemoryBus
    const demand: Demand
    var generatedThrough: int
    var sequence: nat
    // Everything polled so far, in order.
    ghost var drained: seq<ServiceRequest>

    ghost predicate Valid()
      reads this, bus
    {
      && generatedThrough >= -1
      && var all := Published(demand, generatedThrough + 1);
        sequence == bus.nextSequence == |all| && CutAt(all, drained, bus.pending)
    }

    ghost function History(): seq<ServiceRequest>
      requires Valid()
      reads this, bus
    {
      Map(EntryRequest, Published(demand, generatedThrough + 1))
    }

    constructor (demand: Demand)
      ensures Valid() && fresh(bus) && this.demand == demand && drained == [] && generatedThrough == -1
    {
      this.demand := demand;
      bus := new InMemoryBus();
      generatedThrough, sequence, drained := -1, 0, [];
    }

    // The consumer lag the control loop reads.
    function Backlog(): nat
      reads this, bus
    {
      bus.Size()
    }

    method GenerateStep(step: nat)
      requires sequence == bus.nextSequence
      modifies this`sequence, bus
      ensures bus.pending == old(bus.pending) + EntriesOf(step, old(sequence), demand(step))
      ensures sequence == bus.nextSequence == old(sequence) + |demand(step)|
    {
      var samples := demand(step);
      for i := 0 to |samples|
        invariant bus.pending == old(bus.pending) + EntriesOf(step, old(sequence), samples)[..i]
        invariant sequence == bus.nextSequence == old(sequence) + i
      {
        bus.Publish(RequestFor(step, sequence, samples[i]), step);
        sequence := sequence + 1;
      }
    }

    // Catches up with the step, generating each missing step exactly once.
    method GenerateThrough(step: int)
      requires Valid()
      modifies this`generatedThrough, this`sequence, bus
      ensures Valid()
      ensures generatedThrough == if old(generatedThrough) < step then step else old(generatedThrough)
    {
      while generatedThrough < step
        invariant Valid() && drained == old(drained)
        invariant generatedThrough == old(generatedThrough) || old(generatedThrough) < generatedThrough <= step
        decreases step - generatedThrough
      {
        ghost var all := Published(demand, generatedThrough + 1);
        generatedThrough := generatedThrough + 1;
        GenerateStep(generatedThrough);
        PublishedGrows(demand, generatedThrough, |drained|);
      }
    }

    // Publishes all demand up to the step exactly once, then takes the oldest entries available.
    // The concatenation of all batches stays a prefix of what was published, the backlog the rest.
    method Poll(step: int, maxBatch: int) returns (batch: seq<ServiceRequest>)
      requires Valid()
      modifies this, bus
      ensures Valid()
      ensures generatedThrough == if old(generatedThrough) < step then step else old(generatedThrough)
      ensures drained == old(drained) + batch
      ensures History() == drained + Map(EntryRequest, bus.pending)
      ensures |batch| <= if maxBatch > 0 then maxBatch else 0
      ensures bus.pending != [] ==> |batch| >= maxBatch || bus.pending[0].availableAt > step
      ensures bus.pending != [] && generatedThrough <= step ==> |batch| >= maxBatch
      ensures AllFresh(batch, |old(drained)|, step)
    {
      GenerateThrough(step);
      hide Taken, Kept, CutAt, Published, AllFresh;
      PollMoves(demand, generatedThrough + 1, drained, bus.pending, step, maxBatch);
      batch := bus.Drain(step, maxBatch);
      drained := drained + batch;
      assert CutAt(Published(demand, generatedThrough + 1), drained, bus.pending);
    }
  }

  // A newly polled request: its id is its publish position, and it has not been tried yet.
  predicate IsFresh(r: ServiceRequest, id: RequestId, step: int) {
    r.id == id && r.retryCount == 0 && 0 <= r.arrivalStep <= step
  }

  ghost predicate AllFresh(batch: seq<ServiceRequest>, first: nat, step: int) {
    forall i :: 0 <= i < |batch| ==> IsFresh(batch[i], first + i, step)
  }

  // The entries follow one another in the list from `first` on, and are available.
  ghost predicate TakenFrom(all: seq<Entry>, first: nat, taken: seq<Entry>, step: int) {
    && first + |taken| <= |all|
    && forall i :: 0 <= i < |taken| ==> taken[i] == all[first + i] && taken[i].availableAt <= step
  }

  lemma BatchIsUntried(all: seq<Entry>, n: nat, first: nat, taken: seq<Entry>, step: int)
    requires NumberedInOrder(all, n) && TakenFrom(all, first, taken, step)
    ensures AllFresh(Map(EntryRequest, taken), first, step)
  {
  }

  // What one drain of a generated bus comes to.
  lemma PollMoves(demand: Demand, n: nat, drained: seq<ServiceRequest>, pending: seq<Entry>, step: int, room: int)
    requires CutAt(Published(demand, n), drained, pending)
    ensures var all, kept := Published(demand, n), Kept(pending, step, room);
      var batch := Map(EntryRequest, Taken(pending, step, room));
      && CutAt(all, drained + batch, kept)
      && Map(EntryRequest, all) == drained + batch + Map(EntryRequest, kept)
      && |batch| <= (if room > 0 then room else 0)
      && (kept != [] ==> (|batch| >= room || kept[0].availableAt > step) && (n <= step + 1 ==> |batch| >= room))
      && AllFresh(batch, |drained|, step)
  {
    var all, taken, kept := Published(demand, n), Taken(pending, step, room), Kept(pending, step, room);
    PublishedInOrder(demand, n);
    hide Taken, Kept, CutAt, NumberedInOrder, Published, AllFresh, TakenFrom;
    DrainMovesCut(all, n, drained, pending, step, room);
    BatchIsUntried(all, n, |drained|, taken, step);
    CutRebuilds(all, drained + Map(EntryRequest, taken), kept);
    PendingAreGenerated(all, n, drained + Map(EntryRequest, taken), kept);
  }

  lemma PublishedGrows(demand: Demand, step: nat, k: nat)
    requires k <= |Published(demand, step)|
    ensures var before, after := Published(demand, step), Published(demand, step + 1);
      && after == before + EntriesOf(step, |before|, demand(step))
      && after[..k] == before[..k] && after[k..] == before[k..] + EntriesOf(step, |before|, demand(step))
  {
  }

  lemma PendingAreGenerated(all: seq<Entry>, n: nat, drained: seq<ServiceRequest>, pending: seq<Entry>)
    requires NumberedInOrder(all, n) && CutAt(all, drained, pending)
    ensures pending != [] ==> pending[0].availableAt < n
  {
  }

  lemma CutRebuilds(all: seq<Entry>, drained: seq<ServiceRequest>, pending: seq<Entry>)
    requires CutAt(all, drained, pending)
    ensures Map(EntryRequest, all) == drained + Map(EntryRequest, pending)
  {
    assert all == all[..|drained|] + pending;
    MapAppend(EntryRequest, all[..|drained|], pending);
  }

  // A drain moves the cut to the right and leaves only what is not yet due or did not fit.
  lemma DrainMovesCut(all: seq<Entry>, n: nat, drained: seq<ServiceRequest>, pending: seq<Entry>, step: int, room: int)
    requires CutAt(all, drained, pending) && NumberedInOrder(all, n)
    ensures var taken, kept := Taken(pending, step, room), Kept(pending, step, room);
      && CutAt(all, drained + Map(EntryRequest, taken), kept)
      && |taken| <= (if room > 0 then room else 0)
      && (kept != [] ==> |taken| >= room || kept[0].availableAt > step)
      && TakenFrom(all, |drained|, taken, step)
  {
    SuffixInOrder(all, |drained|);
    assert InOrder(pending);
    hide InOrder, Taken, Kept, CutAt;
    DrainCutsPrefix(pending, step, room);
    DrainWithin(pending, step, room);
    CutMoves(all, drained, Taken(pending, step, room), Kept(pending, step, room));
  }

  lemma DrainWithin(pending: seq<Entry>, step: int, room: int)
    requires InOrder(pending)
    ensures |Taken(pending, step, room)| <= if room > 0 then room else 0
    ensures forall i :: 0 <= i < |Taken(pending, step, room)| ==> Taken(pending, step, room)[i].availableAt <= step
  {
    hide InOrder, Taken, Kept;
    DrainCutsPrefix(pending, step, room);
    if room <= 0 {
      DrainNothing(pending, step, room);
    }
    TakenAreAvailable(pending, step, room);
  }

  // Taking the first pending entries moves the cut behind them.
  lemma CutMoves(all: seq<Entry>, drained: seq<ServiceRequest>, taken: seq<Entry>, kept: seq<Entry>)
    requires CutAt(all, drained, taken + kept)
    ensures CutAt(all, drained + Map(EntryRequest, taken), kept) && |drained| + |taken| <= |all|
    ensures forall i :: 0 <= i < |taken| ==> taken[i] == all[|drained| + i]
  {
    CutSplits(all, |drained|, taken, kept);
    MapAppend(EntryRequest, all[..|drained|], taken);
  }

  lemma SuffixInOrder(all: seq<Entry>, k: nat)
    requires InOrder(all) && k <= |all|
    ensures InOrder(all[k..])
  {
  }

  lemma CutSplits(all: seq<Entry>, k: nat, taken: seq<Entry>, kept: seq<Entry>)
    requires k <= |all| && taken + kept == all[k..]
    ensures k + |taken| <= |all|
    ensures all[..k + |taken|] == all[..k] + taken && all[k + |taken|..] == kept
    ensures forall i :: 0 <= i < |taken| ==> taken[i] == all[k + i]
  {
    assert forall i :: 0 <= i < |taken| ==> (taken + kept)[i] == all[k + i];
    assert |taken + kept| == |all| - k;
    assert (taken + kept)[|taken|..] == kept && all[k..][|taken|..] == all[k + |taken|..];
  }

  lemma {:induction false} TakenAreAvailable(entries: seq<Entry>, step: int, room: int)
    ensures forall i :: 0 <= i < |Taken(entries, step, room)| ==> Taken(entries, step, room)[i].availableAt <= step
  {
    if entries != [] {
      TakenAreAvailable(entries[1..], step, if room > 0 && entries[0].availableAt <= step then room - 1 else room);
    }
  }
}
