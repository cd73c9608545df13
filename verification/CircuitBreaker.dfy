// The per-constellation circuit breaker: closed, open during a cooldown, then a half-open trial.
module CircuitBreaker {
  import opened Domain

  // The breaker's fields as a value; `openUntil` is the step from which a trial is allowed.
  datatype State = State(failures: nat, openUntil: Option<int>)
  {
    predicate Open() {
      openUntil.Some?
    }
  }

  const CLOSED := State(0, None)

  datatype Settings = Settings(threshold: int, cooldown: int)
  {
    ghost predicate Valid() {
      threshold > 0 && cooldown > 0
    }
  }

  predicate Allows(b: State, step: int) {
    b.openUntil.None? || step >= b.openUntil.value
  }

  function AfterFailure(s: Settings, b: State, step: int): State {
    State(b.failures + 1,
          if b.Open() || b.failures + 1 >= s.threshold then Some(step + s.cooldown) else None)
  }

  // A failure trips the breaker when it opens a closed one.
  predicate Trips(s: Settings, b: State, step: int) {
    !b.Open() && AfterFailure(s, b, step).Open()
  }

  class Breaker {
    const settings: Settings
    var failures: nat
    var openUntil: Option<int>

    constructor (settings: Settings)
      ensures this.settings == settings && Value() == CLOSED
    {
      this.settings := settings;
      failures, openUntil := 0, None;
    }

    function Value(): State
      reads this
    {
      State(failures, openUntil)
    }

    method Allow(step: int) returns (allowed: bool)
      ensures allowed == Allows(Value(), step)
    {
      if openUntil.None? {
        return true;
      }
      return step >= openUntil.value;
    }

    method RecordSuccess()
      modifies this
      ensures Value() == CLOSED
    {
      failures := 0;
      openUntil := None;
    }

    method RecordFailure(step: int) returns (tripped: bool)
      modifies this
      ensures Value() == AfterFailure(settings, old(Value()), step)
      ensures tripped == Trips(settings, old(Value()), step)
    {
      failures := failures + 1;
      if openUntil.Some? {
        openUntil := Some(step + settings.cooldown);
        return false;
      }
      if failures >= settings.threshold {
        openUntil := Some(step + settings.cooldown);
        return true;
      }
      return false;
    }
  }

  // ------------------------------------------------------------------ whole runs

  // What a client driven once per step has seen so far.
  datatype Tally = Tally(state: State, attempts: nat, trips: nat, recoveries: nat)

  const FRESH := Tally(CLOSED, 0, 0, 0)

  // One step of the loop: ask, and if allowed attempt a call that succeeds or fails.
  function DriveOnce(s: Settings, t: Tally, step: int, healthy: bool): Tally {
    if !Allows(t.state, step) then t
    else if healthy then
      Tally(CLOSED, t.attempts + 1, t.trips, t.recoveries + if t.state.Open() then 1 else 0)
    else
      Tally(AfterFailure(s, t.state, step), t.attempts + 1,
            t.trips + if Trips(s, t.state, step) then 1 else 0, t.recoveries)
  }

  // Consecutive steps from `start`, the client being healthy at step k exactly when `health[k - start]`.
  function Drive(s: Settings, t: Tally, start: int, health: seq<bool>): Tally {
    if health == [] then t
    else
      var n := |health| - 1;
      DriveOnce(s, Drive(s, t, start, health[..n]), start + n, health[n])
  }

  // In every run trips exceed recoveries by one exactly while the breaker is open.
  lemma {:induction false} TripsBalanceRecoveries(s: Settings, start: int, health: seq<bool>)
    ensures var t := Drive(s, FRESH, start, health);
      t.trips - t.recoveries == if t.state.Open() then 1 else 0
  {
    if health != [] {
      TripsBalanceRecoveries(s, start, health[..|health| - 1]);
    }
  }

  // A closed breaker has seen fewer failures in a row than its threshold.
  lemma {:induction false} ClosedBelowThreshold(s: Settings, start: int, health: seq<bool>)
    requires s.Valid()
    ensures var b := Drive(s, FRESH, start, health).state; !b.Open() ==> b.failures < s.threshold
  {
    if health != [] {
      ClosedBelowThreshold(s, start, health[..|health| - 1]);
    }
  }

  function Failing(n: nat): seq<bool> {
    seq(n, _ => false)
  }

  // Tries in n failing steps when the next trial is `wait` steps away: that trial, then one per cooldown.
  function TriesWhileOpen(s: Settings, wait: nat, n: nat): nat
    requires s.Valid()
  {
    if n <= wait then 0 else 1 + (n - 1 - wait) / s.cooldown
  }

  // Failures a closed breaker still tolerates before it trips.
  function Tolerance(s: Settings, b: State): int {
    s.threshold - b.failures
  }

  function Wait(b: State, start: int): nat
    requires b.Open()
  {
    if b.openUntil.value > start then b.openUntil.value - start else 0
  }

  // How often a client that fails at each of n steps from `start` is tried.
  function TriesWhileFailing(s: Settings, b: State, start: int, n: nat): nat
    requires s.Valid() && (!b.Open() ==> b.failures < s.threshold)
  {
    if b.Open() then TriesWhileOpen(s, Wait(b, start), n)
    else if n < Tolerance(s, b) then n
    else Tolerance(s, b) + (n - Tolerance(s, b)) / s.cooldown
  }

  lemma NextMultiple(a: nat, c: int)
    requires c > 0
    ensures (a + 1) / c == a / c + if a + 1 >= c * (a / c + 1) then 1 else 0
  {
    var q, r := a / c, a % c;
    assert a == c * q + r && 0 <= r < c;
    if r + 1 == c {
      assert a + 1 == c * (q + 1);
      QuotientIs(a + 1, c, q + 1, 0);
    } else {
      QuotientIs(a + 1, c, q, r + 1);
    }
  }

  lemma QuotientIs(a: int, c: int, q: int, r: int)
    requires c > 0 && a == c * q + r && 0 <= r < c
    ensures a / c == q
  {
    var d := a / c - q;
    assert c * d == r - a % c by {
      assert c * (a / c) == a - a % c;
      assert c * d == c * (a / c) - c * q;
    }
    AtLeastOnce(c, d);
  }

  lemma AtLeastOnce(c: int, d: int)
    requires c > 0
    ensures d > 0 ==> c * d >= c
    ensures d < 0 ==> c * d <= -c
  {
  }

  // An open breaker under n failing steps: tried when its wait is over and then once per cooldown,
  // never tripped again.
  lemma {:induction false} OpenRun(s: Settings, t: Tally, start: int, n: nat)
    requires s.Valid() && t.state.Open()
    ensures var r, wait := Drive(s, t, start, Failing(n)), Wait(t.state, start);
      var tries := TriesWhileOpen(s, wait, n);
      && r.attempts == t.attempts + tries && r.trips == t.trips && r.recoveries == t.recoveries
      && r.state.openUntil == if tries == 0 then t.state.openUntil else Some(start + wait + s.cooldown * tries)
  {
    if n > 0 {
      var k, wait := n - 1, Wait(t.state, start);
      OpenRun(s, t, start, k);
      assert Failing(n)[..k] == Failing(k);
      if k > wait {
        NextMultiple(k - 1 - wait, s.cooldown);
        var q := (k - 1 - wait) / s.cooldown;
        assert s.cooldown * (q + 2) == s.cooldown * (q + 1) + s.cooldown;
        assert k - 1 - wait < s.cooldown * (q + 1);
      } else if k == wait {
        assert 0 / s.cooldown == 0 && s.cooldown * 1 == s.cooldown;
      }
    }
  }

  // A closed breaker counts failures up to its threshold and trips there.
  lemma {:induction false} ClosedRun(s: Settings, t: Tally, start: int, n: nat)
    requires s.Valid() && !t.state.Open() && n <= Tolerance(s, t.state)
    ensures var r := Drive(s, t, start, Failing(n));
      && r.attempts == t.attempts + n && r.recoveries == t.recoveries
      && r.trips == t.trips + (if 0 < n == Tolerance(s, t.state) then 1 else 0)
      && r.state.failures == t.state.failures + n
      && r.state.openUntil == if 0 < n == Tolerance(s, t.state) then Some(start + n - 1 + s.cooldown) else None
  {
    if n > 0 {
      ClosedRun(s, t, start, n - 1);
      assert Failing(n)[..n - 1] == Failing(n - 1);
    }
  }

  lemma {:induction false} DriveSplit(s: Settings, t: Tally, start: int, first: seq<bool>, second: seq<bool>)
    ensures Drive(s, t, start, first + second) == Drive(s, Drive(s, t, start, first), start + |first|, second)
  {
    if second == [] {
      assert first + second == first;
    } else {
      var n := |second| - 1;
      assert (first + second)[..|first| + n] == first + second[..n];
      DriveSplit(s, t, start, first, second[..n]);
    }
  }

  lemma TriesAfterTrip(s: Settings, n: nat)
    requires s.Valid()
    ensures TriesWhileOpen(s, s.cooldown - 1, n) == n / s.cooldown
  {
    if n < s.cooldown {
      QuotientIs(n, s.cooldown, 0, n);
    } else {
      var q, r := (n - s.cooldown) / s.cooldown, (n - s.cooldown) % s.cooldown;
      assert n == s.cooldown * (q + 1) + r;
      QuotientIs(n, s.cooldown, q + 1, r);
    }
  }

  // From any closed breaker below its threshold, or any open one, n failing steps in a row are
  // tried exactly TriesWhileFailing times; a closed one trips once, exactly when its tolerance is
  // used up, and an open one never.
  lemma FailingRun(s: Settings, t: Tally, start: int, n: nat)
    requires s.Valid() && (!t.state.Open() ==> t.state.failures < s.threshold)
    ensures var r := Drive(s, t, start, Failing(n));
      && r.attempts == t.attempts + TriesWhileFailing(s, t.state, start, n)
      && r.trips == t.trips + (if t.state.Open() || n < Tolerance(s, t.state) then 0 else 1)
      && r.recoveries == t.recoveries
  {
    if t.state.Open() {
      OpenRun(s, t, start, n);
    } else if n < Tolerance(s, t.state) {
      ClosedRun(s, t, start, n);
    } else {
      var k := Tolerance(s, t.state);
      var tripped := Drive(s, t, start, Failing(k));
      ClosedRun(s, t, start, k);
      assert Failing(n) == Failing(k) + Failing(n - k);
      DriveSplit(s, t, start, Failing(k), Failing(n - k));
      OpenRun(s, tripped, start + k, n - k);
      TriesAfterTrip(s, n - k);
    }
  }

  // After any history at all, an outage of n steps is tried exactly this often, and trips the
  // breaker once if it was closed and the outage outlasts its tolerance.
  lemma OutageAttempts(s: Settings, start: int, history: seq<bool>, n: nat)
    requires s.Valid()
    ensures var before := Drive(s, FRESH, start, history);
      var after := Drive(s, FRESH, start, history + Failing(n));
      && (!before.state.Open() ==> before.state.failures < s.threshold)
      && after.attempts - before.attempts == TriesWhileFailing(s, before.state, start + |history|, n)
      && after.trips - before.trips == (if before.state.Open() || n < Tolerance(s, before.state) then 0 else 1)
  {
    ClosedBelowThreshold(s, start, history);
    DriveSplit(s, FRESH, start, history, Failing(n));
    FailingRun(s, Drive(s, FRESH, start, history), start + |history|, n);
  }

  ghost predicate AllHealthy(history: seq<bool>) {
    forall i :: 0 <= i < |history| ==> history[i]
  }

  lemma {:induction false} HealthyStaysClosed(s: Settings, start: int, history: seq<bool>)
    requires AllHealthy(history)
    ensures Drive(s, FRESH, start, history).state == CLOSED
  {
    if history != [] {
      HealthyStaysClosed(s, start, history[..|history| - 1]);
    }
  }

  // A client that fails from some step on, after succeeding before, trips exactly once in an outage
  // of at least the threshold, and is tried threshold + (n - threshold) / cooldown times.
  lemma FirstOutage(s: Settings, start: int, history: seq<bool>, n: nat)
    requires s.Valid() && AllHealthy(history) && n >= s.threshold
    ensures var before := Drive(s, FRESH, start, history);
      var after := Drive(s, FRESH, start, history + Failing(n));
      && after.attempts - before.attempts == s.threshold + (n - s.threshold) / s.cooldown
      && after.trips == before.trips + 1
  {
    HealthyStaysClosed(s, start, history);
    OutageAttempts(s, start, history, n);
  }

  // What a breaker adds to its tally depends on its state alone.
  lemma {:induction false} SameFuture(s: Settings, t: Tally, u: Tally, start: int, future: seq<bool>)
    requires t.state == u.state
    ensures var a, b := Drive(s, t, start, future), Drive(s, u, start, future);
      && a.state == b.state && a.attempts - t.attempts == b.attempts - u.attempts
      && a.trips - t.trips == b.trips - u.trips && a.recoveries - t.recoveries == b.recoveries - u.recoveries
  {
    if future != [] {
      SameFuture(s, t, u, start, future[..|future| - 1]);
    }
  }

  // An attempted call that succeeds wipes the slate: whatever the history before it, what follows is
  // what would follow a breaker never driven before.
  lemma SuccessForgets(s: Settings, start: int, history: seq<bool>, future: seq<bool>)
    ensures var before := Drive(s, FRESH, start, history);
      var healed := Drive(s, FRESH, start, history + [true]);
      var after := Drive(s, FRESH, start, history + [true] + future);
      var anew := Drive(s, FRESH, start + |history| + 1, future);
      healed.attempts > before.attempts ==>
        && after.attempts - healed.attempts == anew.attempts
        && after.trips - healed.trips == anew.trips && after.recoveries - healed.recoveries == anew.recoveries
  {
    var healed := Drive(s, FRESH, start, history + [true]);
    DriveSplit(s, FRESH, start, history, [true]);
    DriveSplit(s, FRESH, start, history + [true], future);
    assert [true][..0] == [];
    if healed.attempts > Drive(s, FRESH, start, history).attempts {
      assert healed.state == FRESH.state;
      SameFuture(s, healed, FRESH, start + |history| + 1, future);
    }
  }
}
