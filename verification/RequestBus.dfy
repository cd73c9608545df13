// The in-memory request bus: step-gated entries drained in publish order.
module RequestBus {
  import opened Domain
  import opened Collections

  datatype Entry = Entry(availableAt: int, sequence: nat, request: ServiceRequest)

  function EntryRequest(e: Entry): ServiceRequest {
    e.request
  }

  // The entries one drain takes out: the first `room` available ones.
  function Taken(entries: seq<Entry>, step: int, room: int): seq<Entry> {
    if entries == [] then []
    else if room > 0 && entries[0].availableAt <= step then [entries[0]] + Taken(entries[1..], step, room - 1)
    else Taken(entries[1..], step, room)
  }

  // The entries one drain leaves queued.
  function Kept(entries: seq<Entry>, step: int, room: int): seq<Entry> {
    if entries == [] then []
    else if room > 0 && entries[0].availableAt <= step then Kept(entries[1..], step, room - 1)
    else [entries[0]] + Kept(entries[1..], step, room)
  }

  class InMemoryBus {
    var pending: seq<Entry>
    var nextSequence: nat

    constructor ()
      ensures pending == [] && nextSequence == 0
    {
      pending, nextSequence := [], 0;
    }

    method Publish(request: ServiceRequest, availableAt: int)
      modifies this
      ensures pending == old(pending) + [Entry(availableAt, old(nextSequence), request)]
      ensures nextSequence == old(nextSequence) + 1
    {
      pending := pending + [Entry(availableAt, nextSequence, request)];
      nextSequence := nextSequence + 1;
    }

    method Drain(step: int, maxBatch: int) returns (drained: seq<ServiceRequest>)
      modifies this`pending
      ensures drained == Map(EntryRequest, Taken(old(pending), step, maxBatch))
      ensures pending == Kept(old(pending), step, maxBatch)
    {
      if maxBatch <= 0 {
        DrainNothing(pending, step, maxBatch);
        return [];
      }
      drained := [];
      var remaining: seq<Entry> := [];
      ghost var taken: seq<Entry> := [];
      while pending != []
        invariant drained == Map(EntryRequest, taken) && |drained| <= maxBatch
        invariant taken + Taken(pending, step, maxBatch - |drained|) == Taken(old(pending), step, maxBatch)
        invariant remaining + Kept(pending, step, maxBatch - |drained|) == Kept(old(pending), step, maxBatch)
        decreases |pending|
      {
        var entry := pending[0];
        pending := pending[1..];
        if |drained| < maxBatch && entry.availableAt <= step {
          MapSnoc(EntryRequest, taken, entry);
          drained := drained + [entry.request];
          taken := taken + [entry];
        } else {
          remaining := remaining + [entry];
        }
      }
      assert taken + [] == taken && remaining + [] == remaining;
      pending := remaining;
    }

    // The consumer lag.
    function Size(): nat
      reads this
    {
      |pending|
    }
  }

  lemma {:induction false} DrainNothing(entries: seq<Entry>, step: int, room: int)
    requires room <= 0
    ensures Taken(entries, step, room) == [] && Kept(entries, step, room) == entries
  {
    if entries != [] {
      DrainNothing(entries[1..], step, room);
    }
  }

  // ------------------------------------------------------------------ what one drain guarantees

  function Available(entries: seq<Entry>, step: int): seq<Entry> {
    if entries == [] then []
    else (if entries[0].availableAt <= step then [entries[0]] else []) + Available(entries[1..], step)
  }

  ghost predicate Subsequence(xs: seq<Entry>, ys: seq<Entry>) {
    if xs == [] then true
    else if ys == [] then false
    else if xs[0] == ys[0] && Subsequence(xs[1..], ys[1..]) then true
    else Subsequence(xs, ys[1..])
  }

  function FirstOf(entries: seq<Entry>, room: nat): seq<Entry> {
    entries[..if room < |entries| then room else |entries|]
  }

  // A drain returns the first `room` available entries, in publish order.
  lemma {:induction false} DrainTakesFirstAvailable(entries: seq<Entry>, step: int, room: nat)
    ensures Taken(entries, step, room) == FirstOf(Available(entries, step), room)
  {
    if entries != [] {
      var rest := Available(entries[1..], step);
      if room > 0 && entries[0].availableAt <= step {
        DrainTakesFirstAvailable(entries[1..], step, room - 1);
        assert FirstOf([entries[0]] + rest, room) == [entries[0]] + FirstOf(rest, room - 1);
      } else if room == 0 {
        DrainNothing(entries, step, room);
      } else {
        DrainTakesFirstAvailable(entries[1..], step, room);
        assert [] + rest == rest;
      }
    }
  }

  // It neither loses nor duplicates an entry.
  lemma {:induction false} DrainConserves(entries: seq<Entry>, step: int, room: int)
    ensures multiset(entries) == multiset(Taken(entries, step, room)) + multiset(Kept(entries, step, room))
  {
    if entries != [] {
      assert entries == [entries[0]] + entries[1..];
      DrainConserves(entries[1..], step, if room > 0 && entries[0].availableAt <= step then room - 1 else room);
    }
  }

  // What stays queued stays in publish order.
  lemma {:induction false} DrainKeepsOrder(entries: seq<Entry>, step: int, room: int)
    ensures Subsequence(Kept(entries, step, room), entries)
  {
    if entries != [] {
      var rest := if room > 0 && entries[0].availableAt <= step then room - 1 else room;
      DrainKeepsOrder(entries[1..], step, rest);
    }
  }

  ghost predicate InOrder(entries: seq<Entry>) {
    forall i, j :: 0 <= i < j < |entries| ==> entries[i].availableAt <= entries[j].availableAt
  }

  // When entries become available in publish order, a drain cuts a prefix off the queue.
  lemma {:induction false} DrainCutsPrefix(entries: seq<Entry>, step: int, room: int)
    requires InOrder(entries)
    ensures Taken(entries, step, room) + Kept(entries, step, room) == entries
    ensures room >= 0 ==> |Taken(entries, step, room)| <= room
    ensures Kept(entries, step, room) != [] ==>
      |Taken(entries, step, room)| >= room || Kept(entries, step, room)[0].availableAt > step
  {
    if entries != [] {
      if room > 0 && entries[0].availableAt <= step {
        DrainCutsPrefix(entries[1..], step, room - 1);
        var taken, kept := Taken(entries[1..], step, room - 1), Kept(entries[1..], step, room - 1);
        assert entries == [entries[0]] + entries[1..];
        assert ([entries[0]] + taken) + kept == [entries[0]] + (taken + kept);
      } else if room <= 0 {
        DrainNothing(entries, step, room);
      } else {
        NoneAvailable(entries, step, room);
      }
    }
  }

  lemma {:induction false} NoneAvailable(entries: seq<Entry>, step: int, room: int)
    requires forall i :: 0 <= i < |entries| ==> entries[i].availableAt > step
    ensures Taken(entries, step, room) == [] && Kept(entries, step, room) == entries
  {
    if entries != [] {
      NoneAvailable(entries[1..], step, room);
    }
  }
}
