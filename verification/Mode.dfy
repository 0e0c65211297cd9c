/** The online/hybrid/offline mode manager and why hybrid mode cannot flap. */
module Mode {
  import opened Options

  datatype ConnectionMode = Online | Offline

  /** Any configured text other than "hybrid" and "offline" behaves as online. */
  datatype Manager = Manager(
    configured: string,
    runtime: ConnectionMode,
    failCount: nat,
    failThreshold: int,
    retryInterval: real,
    lastOfflineTime: real,
    inOffline: bool)

  function Start(configured: string, failThreshold: int, retryInterval: real): Manager {
    Manager(configured, if configured == "offline" then Offline else Online, 0, failThreshold, retryInterval, 0.0, false)
  }

  predicate ShouldTryCloud(m: Manager, now: real) {
    if m.configured == "offline" then false
    else if m.configured == "online" then true
    else !m.inOffline || now - m.lastOfflineTime >= m.retryInterval
  }

  predicate IsOffline(m: Manager) {
    m.configured == "offline" || m.inOffline
  }

  function OnFailure(m: Manager, now: real): Manager {
    if m.configured != "hybrid" then m
    else
      var m1 := m.(failCount := m.failCount + 1, lastOfflineTime := if m.inOffline then now else m.lastOfflineTime);
      if m1.failCount >= m1.failThreshold && !m1.inOffline then
        m1.(inOffline := true, lastOfflineTime := now, runtime := Offline)
      else m1
  }

  function OnSuccess(m: Manager): Manager {
    if m.configured != "hybrid" then m
    else if m.inOffline then m.(inOffline := false, runtime := Online, failCount := 0)
    else m.(failCount := 0)
  }

  /** mode is the configured text stripped and in lower case. */
  function Apply(m: Manager, mode: string): Manager {
    if mode == "offline" then m.(configured := mode, inOffline := true, runtime := Offline)
    else if mode in {"online", "hybrid"} then
      m.(configured := mode, inOffline := false, failCount := 0, runtime := Online)
    else m
  }

  /** A transition callback: the mode entered and the clock reading. */
  datatype Transition = Transition(mode: ConnectionMode, at: real)

  class ModeManager {
    var configuredMode: string
    var runtimeMode: ConnectionMode
    var failCount: nat
    const failThreshold: int
    const retryInterval: real
    var lastOfflineTime: real
    var inOffline: bool
    var transitions: seq<Transition>

    constructor (configured: string, failThreshold: int, retryInterval: real)
      ensures View() == Start(configured, failThreshold, retryInterval) && transitions == []
    {
      configuredMode := configured;
      runtimeMode := if configured == "offline" then Offline else Online;
      failCount, lastOfflineTime, inOffline := 0, 0.0, false;
      this.failThreshold, this.retryInterval := failThreshold, retryInterval;
      transitions := [];
    }

    ghost function View(): Manager
      reads this
    {
      Manager(configuredMode, runtimeMode, failCount, failThreshold, retryInterval, lastOfflineTime, inOffline)
    }

    method ShouldTryCloudNow(now: real) returns (b: bool)
      ensures b == ShouldTryCloud(View(), now)
    {
      if configuredMode == "offline" { return false; }
      if configuredMode == "online" { return true; }
      if !inOffline { return true; }
      b := now - lastOfflineTime >= retryInterval;
    }

    /** The callback runs exactly when the failure takes the manager offline. */
    method RecordFailure(now: real)
      modifies this
      ensures View() == OnFailure(old(View()), now)
      ensures transitions == old(transitions)
              + if !old(inOffline) && inOffline then [Transition(Offline, now)] else []
    {
      if configuredMode != "hybrid" { return; }
      failCount := failCount + 1;
      if inOffline { lastOfflineTime := now; }
      if failCount >= failThreshold {
        if !inOffline {
          inOffline := true;
          lastOfflineTime := now;
          runtimeMode := Offline;
          transitions := transitions + [Transition(Offline, now)];
        }
      }
    }

    method RecordSuccess(now: real)
      modifies this
      ensures View() == OnSuccess(old(View()))
      ensures transitions == old(transitions)
              + if old(inOffline) && !inOffline then [Transition(Online, now)] else []
    {
      if configuredMode != "hybrid" { return; }
      if inOffline {
        inOffline := false;
        runtimeMode := Online;
        transitions := transitions + [Transition(Online, now)];
      }
      failCount := 0;
    }

    method ApplyConfiguredMode(mode: string) returns (applied: bool)
      modifies this`configuredMode, this`inOffline, this`runtimeMode, this`failCount
      ensures applied == (mode in {"online", "hybrid", "offline"})
      ensures View() == Apply(old(View()), mode)
    {
      if mode !in {"online", "hybrid", "offline"} { return false; }
      configuredMode := mode;
      if mode == "offline" {
        inOffline := true;
        runtimeMode := Offline;
      } else {
        inOffline := false;
        failCount := 0;
        runtimeMode := Online;
      }
      applied := true;
    }
  }

  // ---- Every reachable state ----

  datatype Event = Failure(now: real) | Success | Configure(mode: string)

  function OnEvent(m: Manager, e: Event): Manager {
    match e
    case Failure(now) => OnFailure(m, now)
    case Success => OnSuccess(m)
    case Configure(mode) => Apply(m, mode)
  }

  function After(m: Manager, events: seq<Event>): Manager {
    if events == [] then m else OnEvent(After(m, events[..|events| - 1]), events[|events| - 1])
  }

  /** What every call keeps; it implies that is_offline agrees with the runtime mode. */
  predicate Coherent(m: Manager) {
    && (IsOffline(m) <==> m.runtime == Offline)
    && (m.inOffline ==> m.configured == "hybrid" || m.configured == "offline")
  }

  lemma {:induction false} OfflineMatchesRuntime(configured: string, failThreshold: int, retryInterval: real,
                                                 events: seq<Event>)
    ensures Coherent(After(Start(configured, failThreshold, retryInterval), events))
  {
    if events != [] {
      OfflineMatchesRuntime(configured, failThreshold, retryInterval, events[..|events| - 1]);
    }
  }

  // ---- No flapping in hybrid mode ----

  /**
   One thing that happens in hybrid mode: a connection attempt, made only when
   should_try_cloud allows it and then ending in success or failure, or a
   failure reported by an established connection.
   */
  datatype Attempt = Connect(now: real, up: bool) | Broken(now: real)

  function OnAttempt(m: Manager, a: Attempt): Manager {
    match a
    case Connect(now, up) =>
      if !ShouldTryCloud(m, now) then m else if up then OnSuccess(m) else OnFailure(m, now)
    case Broken(now) => OnFailure(m, now)
  }

  function AfterAll(m: Manager, attempts: seq<Attempt>): Manager {
    if attempts == [] then m else OnAttempt(AfterAll(m, attempts[..|attempts| - 1]), attempts[|attempts| - 1])
  }

  /** The attempts that brought the manager back online. */
  function Recoveries(m: Manager, attempts: seq<Attempt>): nat {
    if attempts == [] then 0
    else
      var n := |attempts| - 1;
      Recoveries(m, attempts[..n])
      + if AfterAll(m, attempts[..n]).inOffline && !AfterAll(m, attempts).inOffline then 1 else 0
  }

  predicate Monotone(start: real, attempts: seq<Attempt>) {
    && (forall i :: 0 <= i < |attempts| ==> start <= attempts[i].now)
    && (forall i, j :: 0 <= i < j < |attempts| ==> attempts[i].now <= attempts[j].now)
  }

  function EndOf(start: real, attempts: seq<Attempt>): real {
    if attempts == [] then start else attempts[|attempts| - 1].now
  }

  lemma MonotonePrefix(start: real, attempts: seq<Attempt>)
    requires attempts != [] && Monotone(start, attempts)
    ensures Monotone(start, attempts[..|attempts| - 1])
    ensures EndOf(start, attempts[..|attempts| - 1]) <= EndOf(start, attempts)
  {
  }

  /** k retry intervals. */
  function Waits(k: nat, interval: real): real {
    if k == 0 then 0.0 else Waits(k - 1, interval) + interval
  }

  lemma {:induction false} WaitsIsProduct(k: nat, interval: real)
    ensures Waits(k, interval) == k as real * interval
  {
    if k > 0 {
      WaitsIsProduct(k - 1, interval);
      OneMore((k - 1) as real, interval);
    }
  }

  lemma {:induction false} OneMore(a: real, x: real)
    ensures (a + 1.0) * x == a * x + x
  {
  }

  lemma ProductBound(k: nat, interval: real, span: real)
    requires Waits(k, interval) <= span
    ensures k as real * interval <= span
  {
    WaitsIsProduct(k, interval);
  }

  /** The moment from which the next wait counts. */
  function WaitFrom(m: Manager, clock: real): real {
    if m.inOffline then m.lastOfflineTime else clock
  }

  /** One attempt: a recovery comes a retry interval after the wait began, and waits never move back. */
  lemma AttemptWaits(m: Manager, a: Attempt, clock: real)
    requires m.configured == "hybrid" && clock <= a.now && WaitFrom(m, clock) <= clock
    ensures var r := OnAttempt(m, a);
            && r.configured == "hybrid" && r.retryInterval == m.retryInterval
            && WaitFrom(m, clock) <= WaitFrom(r, a.now) <= a.now
            && (m.inOffline && !r.inOffline ==> WaitFrom(r, a.now) - WaitFrom(m, clock) >= m.retryInterval)
  {
  }

  lemma {:induction false} RecoveriesTakeTime(m: Manager, start: real, attempts: seq<Attempt>)
    requires m.configured == "hybrid" && !m.inOffline && Monotone(start, attempts)
    ensures AfterAll(m, attempts).configured == "hybrid"
    ensures AfterAll(m, attempts).retryInterval == m.retryInterval
    ensures start + Waits(Recoveries(m, attempts), m.retryInterval)
            <= WaitFrom(AfterAll(m, attempts), EndOf(start, attempts)) <= EndOf(start, attempts)
  {
    if attempts != [] {
      var n := |attempts| - 1;
      MonotonePrefix(start, attempts);
      RecoveriesTakeTime(m, start, attempts[..n]);
      AttemptWaits(AfterAll(m, attempts[..n]), attempts[n], EndOf(start, attempts[..n]));
    }
  }

  /** With the clock never going back, every return to online takes a retry interval. */
  lemma {:induction false} ReturnsWait(m: Manager, start: real, attempts: seq<Attempt>)
    requires m.configured == "hybrid" && !m.inOffline && Monotone(start, attempts)
    ensures Waits(Recoveries(m, attempts), m.retryInterval) <= EndOf(start, attempts) - start
  {
    RecoveriesTakeTime(m, start, attempts);
  }

  /** So their number times the retry interval is at most the time that passed. */
  lemma {:induction false} NoFlapping(m: Manager, start: real, attempts: seq<Attempt>, count: nat, interval: real,
                                      span: real)
    requires m.configured == "hybrid" && !m.inOffline && Monotone(start, attempts)
    requires count == Recoveries(m, attempts) && interval == m.retryInterval
    requires span == EndOf(start, attempts) - start
    ensures count as real * interval <= span
  {
    assert Waits(count, interval) <= span by { ReturnsWait(m, start, attempts); }
    ProductBound(count, interval, span);
  }

  predicate Fails(m: Manager, a: Attempt) {
    a.Broken? || (!a.up && ShouldTryCloud(m, a.now))
  }

  predicate Succeeds(m: Manager, a: Attempt) {
    a.Connect? && a.up && ShouldTryCloud(m, a.now)
  }

  /** The failures since the last success. */
  function FailuresInARow(m: Manager, attempts: seq<Attempt>): nat {
    if attempts == [] then 0
    else
      var n := |attempts| - 1;
      var before := AfterAll(m, attempts[..n]);
      if Succeeds(before, attempts[n]) then 0
      else FailuresInARow(m, attempts[..n]) + if Fails(before, attempts[n]) then 1 else 0
  }

  lemma {:induction false} FailCountIsRow(m: Manager, attempts: seq<Attempt>)
    requires m.configured == "hybrid" && m.failCount == 0
    ensures AfterAll(m, attempts).configured == "hybrid"
    ensures AfterAll(m, attempts).failThreshold == m.failThreshold
    ensures AfterAll(m, attempts).failCount == FailuresInARow(m, attempts)
  {
    if attempts != [] { FailCountIsRow(m, attempts[..|attempts| - 1]); }
  }

  /**
   Going offline: it happens at an attempt if and only if that attempt fails
   while online and completes fail_threshold failures with no success between.
   */
  lemma OfflineExactlyAfterThreshold(m: Manager, attempts: seq<Attempt>)
    requires m.configured == "hybrid" && m.failCount == 0 && attempts != []
    ensures var n := |attempts| - 1;
            var before := AfterAll(m, attempts[..n]);
            (!before.inOffline && AfterAll(m, attempts).inOffline)
            <==> (!before.inOffline && Fails(before, attempts[n])
                  && FailuresInARow(m, attempts) >= m.failThreshold)
  {
    FailCountIsRow(m, attempts);
    FailCountIsRow(m, attempts[..|attempts| - 1]);
  }
}
