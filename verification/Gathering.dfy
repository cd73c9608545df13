// Failing over between constellations: whose beams a step sees, and what the breakers learn from it.
module Gathering {
  import opened Domain
  import opened Pipeline
  import opened CircuitBreaker

  // The breaker after one step, given what its client replied (if it was asked).
  function NextState(cfg: Config, b: State, step: int, reply: Option<seq<Beam>>): State {
    if !Allows(b, step) then b
    else if reply.Some? then CLOSED
    else AfterFailure(cfg.breaker, b, step)
  }

  function NextStates(cfg: Config, world: World, states: seq<State>, step: int): seq<State> {
    seq(|states|, k requires 0 <= k < |states| => NextState(cfg, states[k], step, world.reply(k, step)))
  }

  // Beams of the clients that were asked and answered, in client order.
  function GatherBeams(world: World, states: seq<State>, step: int): seq<Beam> {
    if states == [] then []
    else
      var k := |states| - 1;
      GatherBeams(world, states[..k], step)
        + if Allows(states[k], step) && world.reply(k, step).Some? then world.reply(k, step).value else []
  }

  // Breakers newly tripped by clients that were asked and failed.
  function GatherTrips(cfg: Config, world: World, states: seq<State>, step: int): nat {
    if states == [] then 0
    else
      var k := |states| - 1;
      GatherTrips(cfg, world, states[..k], step)
        + if Allows(states[k], step) && world.reply(k, step).None?
             && Trips(cfg.breaker, states[k], step) then 1 else 0
  }

  lemma GatherNext(cfg: Config, world: World, states: seq<State>, k: nat, step: int)
    requires k < |states|
    ensures GatherBeams(world, states[..k + 1], step) == GatherBeams(world, states[..k], step)
      + if Allows(states[k], step) && world.reply(k, step).Some? then world.reply(k, step).value else []
    ensures GatherTrips(cfg, world, states[..k + 1], step) == GatherTrips(cfg, world, states[..k], step)
      + if Allows(states[k], step) && world.reply(k, step).None? && Trips(cfg.breaker, states[k], step) then 1 else 0
  {
    assert states[..k + 1][..k] == states[..k];
  }

  // A client the loop asks this step, because its breaker allows it, replies with the beam.
  ghost predicate Shows(world: World, states: seq<State>, k: nat, step: int, beam: Beam) {
    && k < |states| && Allows(states[k], step)
    && world.reply(k, step).Some? && beam in world.reply(k, step).value
  }

  ghost predicate FromClients(world: World, states: seq<State>, step: int, beams: seq<Beam>) {
    forall beam :: beam in beams ==> exists k: nat :: Shows(world, states, k, step, beam)
  }

  // Failing over leaves a usable view: unique beams, non-negative capacities, all really offered.
  lemma {:induction false} GatheredAreUsable(world: World, states: seq<State>, step: int)
    requires world.GoodReplies(step)
    ensures var beams := GatherBeams(world, states, step);
      UniqueBeams(beams) && NonNegativeCapacity(beams) && FromClients(world, states, step, beams)
  {
    if states != [] {
      var k := |states| - 1;
      GatheredAreUsable(world, states[..k], step);
      var before := GatherBeams(world, states[..k], step);
      assert GoodReply(world.reply(k, step));
      if Allows(states[k], step) && world.reply(k, step).Some? {
        var more := world.reply(k, step).value;
        forall i, j | 0 <= i < |before| && 0 <= j < |more| ensures before[i].id != more[j].id {
          assert before[i] in before;
          var l: nat :| Shows(world, states[..k], l, step, before[i]);
          assert DisjointReplies(world.reply(l, step), world.reply(k, step));
          assert more[j] in more;
        }
      }
      var beams := GatherBeams(world, states, step);
      forall beam | beam in beams ensures exists l: nat :: Shows(world, states, l, step, beam) {
        if beam in before {
          var l: nat :| Shows(world, states[..k], l, step, beam);
          assert Shows(world, states, l, step, beam);
        } else {
          assert Shows(world, states, k, step, beam);
        }
      }
    }
  }

  // ------------------------------------------------------------------ breakers over whole runs

  // How a client fared in the first n steps: up exactly when it would have answered.
  function Health(world: World, k: nat, n: nat): seq<bool> {
    seq(n, t requires 0 <= t < n => world.reply(k, t).Some?)
  }

  // What driving the client's breaker through the first n steps amounts to.
  function ClientTally(cfg: Config, world: World, k: nat, n: nat): Tally {
    Drive(cfg.breaker, FRESH, 0, Health(world, k, n))
  }

  // A configured client, not held in cooldown by its own history of outages, shows the beam.
  ghost predicate Serves(cfg: Config, world: World, k: nat, step: nat, beam: Beam) {
    && k < cfg.clients && Allows(ClientTally(cfg, world, k, step).state, step)
    && world.reply(k, step).Some? && beam in world.reply(k, step).value
  }

  ghost predicate Visible(cfg: Config, world: World, step: nat, beam: Beam) {
    exists k: nat :: Serves(cfg, world, k, step, beam)
  }

  // The beams of a day are exactly what its constellations out of cooldown replied.
  ghost predicate Offered(cfg: Config, world: World, step: nat, beams: seq<Beam>) {
    forall beam :: beam in beams <==> Visible(cfg, world, step, beam)
  }

  lemma {:induction false} ShownAreGathered(world: World, states: seq<State>, k: nat, step: int, beam: Beam)
    requires Shows(world, states, k, step, beam)
    ensures beam in GatherBeams(world, states, step)
  {
    if k < |states| - 1 {
      ShownAreGathered(world, states[..|states| - 1], k, step, beam);
    }
  }

  lemma GatheredAreOffered(cfg: Config, world: World, states: seq<State>, step: nat)
    requires world.GoodReplies(step) && Follows(cfg, world, states, step) && |states| == cfg.clients
    ensures Offered(cfg, world, step, GatherBeams(world, states, step))
  {
    GatheredAreUsable(world, states, step);
    hide GatherBeams, ClientTally;
    forall beam | beam in GatherBeams(world, states, step) ensures Visible(cfg, world, step, beam) {
      var k: nat :| Shows(world, states, k, step, beam);
      assert Serves(cfg, world, k, step, beam);
    }
    forall beam | Visible(cfg, world, step, beam) ensures beam in GatherBeams(world, states, step) {
      var k: nat :| Serves(cfg, world, k, step, beam);
      ShownAreGathered(world, states, k, step, beam);
    }
  }

  // The loop's breakers are where driving each client on its own would leave them.
  ghost predicate Follows(cfg: Config, world: World, states: seq<State>, n: nat) {
    forall k :: 0 <= k < |states| ==> states[k] == ClientTally(cfg, world, k, n).state
  }

  lemma OneMoreStep(cfg: Config, world: World, k: nat, n: nat)
    ensures ClientTally(cfg, world, k, n + 1)
      == DriveOnce(cfg.breaker, ClientTally(cfg, world, k, n), n, world.reply(k, n).Some?)
  {
    assert Health(world, k, n + 1)[..n] == Health(world, k, n);
  }

  // A step of the loop drives every client's breaker by exactly one step.
  lemma FollowsOn(cfg: Config, world: World, states: seq<State>, n: nat)
    requires Follows(cfg, world, states, n)
    ensures Follows(cfg, world, NextStates(cfg, world, states, n), n + 1)
  {
    forall k | 0 <= k < |states|
      ensures NextState(cfg, states[k], n, world.reply(k, n)) == ClientTally(cfg, world, k, n + 1).state
    {
      OneMoreStep(cfg, world, k, n);
    }
  }

  // Trips of the first so many clients in n steps.
  function TripsOf(cfg: Config, world: World, clients: nat, n: nat): nat {
    if clients == 0 then 0 else TripsOf(cfg, world, clients - 1, n) + ClientTally(cfg, world, clients - 1, n).trips
  }

  function RecoveriesOf(cfg: Config, world: World, clients: nat, n: nat): nat {
    if clients == 0 then 0
    else RecoveriesOf(cfg, world, clients - 1, n) + ClientTally(cfg, world, clients - 1, n).recoveries
  }

  function OpenBreakers(states: seq<State>): nat {
    if states == [] then 0 else OpenBreakers(states[..|states| - 1]) + if states[|states| - 1].Open() then 1 else 0
  }

  lemma {:induction false} NoTripsYet(cfg: Config, world: World, clients: nat)
    ensures TripsOf(cfg, world, clients, 0) == 0
  {
    if clients > 0 {
      NoTripsYet(cfg, world, clients - 1);
      assert Health(world, clients - 1, 0) == [];
    }
  }

  // The trips a step reports are the trips of the clients' own runs.
  lemma {:induction false} TripsAdvance(cfg: Config, world: World, states: seq<State>, n: nat)
    requires Follows(cfg, world, states, n)
    ensures TripsOf(cfg, world, |states|, n) + GatherTrips(cfg, world, states, n)
      == TripsOf(cfg, world, |states|, n + 1)
  {
    if states != [] {
      TripsAdvance(cfg, world, states[..|states| - 1], n);
      OneMoreStep(cfg, world, |states| - 1, n);
    }
  }

  // Over all constellations together, trips exceed recoveries by the number of open breakers.
  lemma {:induction false} TripsMinusRecoveries(cfg: Config, world: World, states: seq<State>, n: nat)
    requires Follows(cfg, world, states, n)
    ensures TripsOf(cfg, world, |states|, n) == RecoveriesOf(cfg, world, |states|, n) + OpenBreakers(states)
  {
    if states != [] {
      TripsMinusRecoveries(cfg, world, states[..|states| - 1], n);
      TripsBalanceRecoveries(cfg.breaker, 0, Health(world, |states| - 1, n));
    }
  }
}
