/**
 * The retry loop and its two policies, pkg/common/errors/retry.go.
 *
 * The outside world decides, for each attempt, whether the context is already cancelled, how the
 * operation ends, what the clock says when the policy reads it, which random number the jitter
 * draws, and whether the wait is cut short.  Intervals are exact reals until the final truncation.
 */
module Retry {
  import opened Common

  datatype Config = Config(
    maxAttempts: int,
    initialInterval: int,
    maxInterval: int,
    multiplier: real,
    randomizeFactor: real)

  datatype CircuitState = CircuitClosed | CircuitOpen | CircuitHalfOpen

  datatype Policy =
    | Exponential(cfg: Config)
    | Circuit(cfg: Config, failureCount: int, successCount: int, lastFailureTime: int, state: CircuitState)

  datatype OpResult = Success | Failure(retryable: bool)

  datatype Attempt = Attempt(
    cancelledBefore: bool,
    result: OpResult,
    now: int,
    random: real,
    cancelledDuringWait: bool)

  type World = nat -> Attempt

  datatype Outcome = Succeeded | GaveUp | Cancelled

  /** How an execution ended, how many operations it ran, the waits it asked for, the policy it leaves behind. */
  datatype Report = Report(outcome: Outcome, operations: nat, waits: seq<int>, policy: Policy)

  // ---- Intervals --------------------------------------------------------------------------

  function Pow(b: real, e: nat): real {
    if e == 0 then 1.0 else b * Pow(b, e - 1)
  }

  /** The uncapped exponential interval after attempt number `attempt`. */
  function Backoff(cfg: Config, attempt: nat): real
    requires attempt >= 1
  {
    cfg.initialInterval as real * Pow(cfg.multiplier, attempt - 1)
  }

  function Capped(cfg: Config, attempt: nat): real
    requires attempt >= 1
  {
    if Backoff(cfg, attempt) > cfg.maxInterval as real then cfg.maxInterval as real else Backoff(cfg, attempt)
  }

  function Jittered(base: real, factor: real, random: real): real {
    if factor > 0.0 then
      var delta := base * factor;
      var low, high := base - delta, base + delta;
      low + random * (high - low)
    else base
  }

  /** Conversion of a float to an integer duration: truncation toward zero. */
  function Truncated(x: real): int {
    if x >= 0.0 then x.Floor else -((-x).Floor)
  }

  function NextInterval(p: Policy, attempt: nat, random: real): int
    requires attempt >= 1
  {
    if p.Exponential? then Truncated(Jittered(Capped(p.cfg, attempt), p.cfg.randomizeFactor, random))
    else if p.state == CircuitHalfOpen then p.cfg.initialInterval
    else Truncated(Backoff(p.cfg, attempt))
  }

  function Abs(x: real): real { if x < 0.0 then -x else x }

  function NonNegative(x: real): real { if x < 0.0 then 0.0 else x }

  lemma ProductNonNegative(a: real, b: real)
    requires a >= 0.0 && b >= 0.0
    ensures a * b >= 0.0
  {
  }

  lemma Scaled(d: real, r: real)
    requires 0.0 <= r <= 1.0
    ensures -Abs(d) <= d * (2.0 * r - 1.0) <= Abs(d)
  {
    var e := Abs(d);
    ProductNonNegative(e, 2.0 * r);
    ProductNonNegative(e, 2.0 - 2.0 * r);
    assert e * (2.0 * r - 1.0) == e * (2.0 * r) - e == e - e * (2.0 - 2.0 * r);
    assert d * (2.0 * r - 1.0) == if d < 0.0 then -(e * (2.0 * r - 1.0)) else e * (2.0 * r - 1.0);
  }

  /** Jitter moves an interval by at most the randomization factor, and not at all without one. */
  lemma JitterWithinFactor(base: real, factor: real, random: real)
    requires 0.0 <= random <= 1.0
    ensures Abs(Jittered(base, factor, random) - base) <= NonNegative(factor) * Abs(base)
  {
    if factor > 0.0 {
      var delta := base * factor;
      Scaled(delta, random);
      assert Jittered(base, factor, random) == base + delta * (2.0 * random - 1.0);
      assert Abs(delta) == factor * Abs(base);
    }
  }

  /** `w` is within (1 +/- factor) of the capped exponential for this attempt, up to the truncated fraction. */
  ghost predicate NearBackoff(cfg: Config, attempt: nat, w: int)
    requires attempt >= 1
  {
    Abs(w as real - Capped(cfg, attempt)) < NonNegative(cfg.randomizeFactor) * Abs(Capped(cfg, attempt)) + 1.0
  }

  lemma WaitNearBackoff(cfg: Config, attempt: nat, random: real)
    requires attempt >= 1 && 0.0 <= random <= 1.0
    ensures NearBackoff(cfg, attempt, NextInterval(Exponential(cfg), attempt, random))
  {
    JitterWithinFactor(Capped(cfg, attempt), cfg.randomizeFactor, random);
  }

  lemma {:induction false} PowAtLeast(b: real, e: nat)
    requires b >= 1.0
    ensures 1.0 <= Pow(b, e) <= Pow(b, e + 1)
  {
    if e > 0 { PowAtLeast(b, e - 1); }
    assert b * Pow(b, e) >= Pow(b, e);
  }

  /** With a multiplier of at least one, the capped interval never shrinks and never passes the cap. */
  lemma BackoffNeverShrinks(cfg: Config, attempt: nat)
    requires attempt >= 1 && cfg.initialInterval >= 0 && cfg.multiplier >= 1.0
    ensures Capped(cfg, attempt) <= Capped(cfg, attempt + 1) <= cfg.maxInterval as real
  {
    PowAtLeast(cfg.multiplier, attempt - 1);
    var i, p, q := cfg.initialInterval as real, Pow(cfg.multiplier, attempt - 1), Pow(cfg.multiplier, attempt);
    assert i * (q - p) >= 0.0;
  }

  /** The backoff begins with the initial interval and grows by the multiplier. */
  lemma BackoffGrows(cfg: Config, attempt: nat)
    requires attempt >= 1
    ensures Backoff(cfg, 1) == cfg.initialInterval as real
    ensures Backoff(cfg, attempt + 1) == cfg.multiplier * Backoff(cfg, attempt)
  {
    assert Pow(cfg.multiplier, attempt) == cfg.multiplier * Pow(cfg.multiplier, attempt - 1);
  }

  /** Capping takes the lesser of backoff and cap. */
  lemma CappedMeaning(cfg: Config, attempt: nat)
    requires attempt >= 1
    ensures Capped(cfg, attempt) <= cfg.maxInterval as real && Capped(cfg, attempt) <= Backoff(cfg, attempt)
    ensures Capped(cfg, attempt) == cfg.maxInterval as real || Capped(cfg, attempt) == Backoff(cfg, attempt)
  {
  }

  /** Jitter uses the whole range: the ends for the ends of the random numbers, the middle for the middle. */
  lemma JitterRange(base: real, factor: real)
    requires factor > 0.0
    ensures Jittered(base, factor, 0.0) == base - base * factor
    ensures Jittered(base, factor, 0.5) == base
    ensures Jittered(base, factor, 1.0) == base + base * factor
  {
  }

  /** Truncation never moves away from zero, and by less than one. */
  lemma TruncatedMeaning(x: real)
    ensures x >= 0.0 ==> Truncated(x) as real <= x < Truncated(x) as real + 1.0
    ensures x <= 0.0 ==> Truncated(x) as real - 1.0 < x <= Truncated(x) as real
  {
  }

  // ---- Policies ---------------------------------------------------------------------------

  /** The verdict after attempt number `attempt` failed, and the policy's new state. */
  function ShouldRetry(p: Policy, attempt: nat, retryable: bool, now: int): (bool, Policy) {
    match p
    case Exponential(cfg) => (attempt < cfg.maxAttempts && retryable, p)
    case Circuit(cfg, failureCount, _, lastFailureTime, state) =>
      match state
      case CircuitOpen =>
        if now - lastFailureTime > cfg.maxInterval then (true, p.(state := CircuitHalfOpen)) else (false, p)
      case CircuitHalfOpen => (attempt == 1, p)
      case CircuitClosed =>
        if !retryable then (false, p)
        else if failureCount + 1 >= cfg.maxAttempts
        then (false, p.(failureCount := failureCount + 1, state := CircuitOpen, lastFailureTime := now))
        else (true, p.(failureCount := failureCount + 1))
  }

  /** How many more retries the policy can grant after attempt `attempt`. */
  function RetriesLeft(p: Policy, attempt: nat): nat {
    match p
    case Exponential(cfg) => Max(0, cfg.maxAttempts - attempt)
    case Circuit(cfg, failureCount, _, _, state) =>
      match state
      case CircuitClosed => Max(0, cfg.maxAttempts - failureCount - 1)
      case CircuitOpen => 1
      case CircuitHalfOpen => if attempt == 1 then 1 else 0
  }

  lemma RetryCosts(p: Policy, attempt: nat, retryable: bool, now: int)
    requires attempt >= 1 && ShouldRetry(p, attempt, retryable, now).0
    ensures RetriesLeft(ShouldRetry(p, attempt, retryable, now).1, attempt + 1) < RetriesLeft(p, attempt)
  {
  }

  // ---- The loop ---------------------------------------------------------------------------

  /** The execution from attempt number `attempt` on, having asked for `waits` so far. */
  function ExecuteFrom(p: Policy, world: World, attempt: nat, waits: seq<int>): Report
    requires attempt >= 1
    decreases RetriesLeft(p, attempt)
  {
    var a := world(attempt);
    if a.cancelledBefore then Report(Cancelled, attempt - 1, waits, p)
    else if a.result.Success? then Report(Succeeded, attempt, waits, p)
    else
      var (again, p') := ShouldRetry(p, attempt, a.result.retryable, a.now);
      if !again then Report(GaveUp, attempt, waits, p')
      else
        var waits' := waits + [NextInterval(p', attempt, a.random)];
        if a.cancelledDuringWait then Report(Cancelled, attempt, waits', p')
        else
          RetryCosts(p, attempt, a.result.retryable, a.now);
          ExecuteFrom(p', world, attempt + 1, waits')
  }

  function Executed(p: Policy, world: World): Report { ExecuteFrom(p, world, 1, []) }

  /** The loop of the retry manager computes the recursive specification. */
  method Execute(p: Policy, world: World) returns (r: Report)
    ensures r == Executed(p, world)
  {
    var attempt, policy, waits := 1, p, [];
    while true
      invariant attempt >= 1 && Executed(p, world) == ExecuteFrom(policy, world, attempt, waits)
      decreases RetriesLeft(policy, attempt)
    {
      var a := world(attempt);
      if a.cancelledBefore { return Report(Cancelled, attempt - 1, waits, policy); }
      if a.result == Success { return Report(Succeeded, attempt, waits, policy); }
      var (again, next) := ShouldRetry(policy, attempt, a.result.retryable, a.now);
      if !again { return Report(GaveUp, attempt, waits, next); }
      waits := waits + [NextInterval(next, attempt, a.random)];
      if a.cancelledDuringWait { return Report(Cancelled, attempt, waits, next); }
      RetryCosts(policy, attempt, a.result.retryable, a.now);
      attempt, policy := attempt + 1, next;
    }
  }

  /** The most operations one execution can run. */
  function Limit(p: Policy): nat {
    match p
    case Exponential(cfg) => Max(1, cfg.maxAttempts)
    case Circuit(cfg, failureCount, _, _, state) =>
      if state == CircuitClosed then Max(1, cfg.maxAttempts - failureCount) else 2
  }

  lemma {:induction false} OperationsFrom(p: Policy, world: World, attempt: nat, waits: seq<int>)
    requires attempt >= 1
    ensures ExecuteFrom(p, world, attempt, waits).operations <= attempt + RetriesLeft(p, attempt)
    decreases RetriesLeft(p, attempt)
  {
    var a := world(attempt);
    if !a.cancelledBefore && a.result.Failure? {
      var (again, p') := ShouldRetry(p, attempt, a.result.retryable, a.now);
      if again && !a.cancelledDuringWait {
        RetryCosts(p, attempt, a.result.retryable, a.now);
        OperationsFrom(p', world, attempt + 1, waits + [NextInterval(p', attempt, a.random)]);
      }
    }
  }

  /** Every execution ends, within the policy's limit. */
  lemma OperationsBounded(p: Policy, world: World)
    ensures Executed(p, world).operations <= Limit(p)
  {
    OperationsFrom(p, world, 1, []);
  }

  /** Nothing cancels, every operation fails in a way worth retrying, and any open period has run out. */
  ghost predicate Relentless(p: Policy, world: World) {
    forall i: nat :: !world(i).cancelledBefore && world(i).result == Failure(true)
                     && !world(i).cancelledDuringWait
                     && (p.Circuit? ==> world(i).now - p.lastFailureTime > p.cfg.maxInterval)
  }

  lemma {:induction false} RelentlessFrom(p: Policy, world: World, attempt: nat, waits: seq<int>)
    requires attempt >= 1 && Relentless(p, world)
    ensures var r := ExecuteFrom(p, world, attempt, waits);
            r.operations == attempt + RetriesLeft(p, attempt) && r.outcome == GaveUp
    decreases RetriesLeft(p, attempt)
  {
    var a := world(attempt);
    var (again, p') := ShouldRetry(p, attempt, true, a.now);
    if again {
      RetryCosts(p, attempt, true, a.now);
      RelentlessFrom(p', world, attempt + 1, waits + [NextInterval(p', attempt, a.random)]);
    }
  }

  /** The limit is exact: failures that never stop are met with exactly that many operations. */
  lemma LimitIsReached(p: Policy, world: World)
    requires Relentless(p, world)
    ensures Executed(p, world).operations == Limit(p) && Executed(p, world).outcome == GaveUp
  {
    RelentlessFrom(p, world, 1, []);
  }

  /** What the report says about the operations numbered from `first` on. */
  ghost predicate Meaning(r: Report, world: World, first: nat) {
    && (r.outcome == Succeeded ==> r.operations >= first && world(r.operations).result == Success)
    && (r.outcome == GaveUp ==> r.operations >= first && world(r.operations).result.Failure?)
    && (forall i: nat :: first <= i < r.operations ==> world(i).result.Failure?)
    && (r.outcome == Cancelled ==> world(r.operations).cancelledDuringWait || world(r.operations + 1).cancelledBefore)
  }

  lemma {:induction false} ResultMeaningFrom(p: Policy, world: World, attempt: nat, waits: seq<int>)
    requires attempt >= 1
    ensures Meaning(ExecuteFrom(p, world, attempt, waits), world, attempt)
    decreases RetriesLeft(p, attempt)
  {
    var a := world(attempt);
    if !a.cancelledBefore && a.result.Failure? {
      var (again, p') := ShouldRetry(p, attempt, a.result.retryable, a.now);
      if again && !a.cancelledDuringWait {
        RetryCosts(p, attempt, a.result.retryable, a.now);
        ResultMeaningFrom(p', world, attempt + 1, waits + [NextInterval(p', attempt, a.random)]);
      }
    }
  }

  /** Success means the last operation succeeded; an error, that every operation failed or the context ended. */
  lemma ResultMeaning(p: Policy, world: World)
    ensures Meaning(Executed(p, world), world, 1)
  {
    ResultMeaningFrom(p, world, 1, []);
  }

  ghost predicate AllNearBackoff(cfg: Config, waits: seq<int>) {
    forall i :: 0 <= i < |waits| ==> NearBackoff(cfg, i + 1, waits[i])
  }

  lemma {:induction false} WaitsFrom(cfg: Config, world: World, attempt: nat, waits: seq<int>)
    requires attempt >= 1 && |waits| == attempt - 1 && AllNearBackoff(cfg, waits)
    requires forall i: nat :: 0.0 <= world(i).random <= 1.0
    ensures var r := ExecuteFrom(Exponential(cfg), world, attempt, waits);
            r.operations - 1 <= |r.waits| <= r.operations && AllNearBackoff(cfg, r.waits)
    decreases RetriesLeft(Exponential(cfg), attempt)
  {
    var a, p := world(attempt), Exponential(cfg);
    if !a.cancelledBefore && a.result.Failure? && ShouldRetry(p, attempt, a.result.retryable, a.now).0 {
      WaitNearBackoff(cfg, attempt, a.random);
      if !a.cancelledDuringWait {
        WaitsFrom(cfg, world, attempt + 1, waits + [NextInterval(p, attempt, a.random)]);
      }
    }
  }

  /**
   * In every execution under exponential backoff there is a wait after each operation but the last
   * (and after the last only when cancelled), and the i-th wait is within (1 +/- factor) of the i-th
   * capped exponential interval.
   */
  lemma EveryWaitNearBackoff(cfg: Config, world: World)
    requires forall i: nat :: 0.0 <= world(i).random <= 1.0
    ensures var r := Executed(Exponential(cfg), world);
            r.operations - 1 <= |r.waits| <= r.operations && AllNearBackoff(cfg, r.waits)
  {
    WaitsFrom(cfg, world, 1, []);
  }

  // ---- When it stops and what it waits ---------------------------------------------------------

  /** Every attempt but the last failed in a way that is retried, from attempt `first` on. */
  ghost predicate RetriedOnly(world: World, first: nat, last: nat) {
    forall i: nat :: first <= i < last ==> world(i).result == Failure(true)
  }

  lemma {:induction false} StopsFrom(cfg: Config, world: World, attempt: nat, waits: seq<int>)
    requires attempt >= 1
    ensures var r := ExecuteFrom(Exponential(cfg), world, attempt, waits);
            && RetriedOnly(world, attempt, r.operations)
            && (r.outcome == GaveUp ==> world(r.operations).result == Failure(false) || r.operations >= cfg.maxAttempts)
            && (r.operations >= attempt && world(r.operations).result == Failure(false) ==> r.outcome == GaveUp)
    decreases RetriesLeft(Exponential(cfg), attempt)
  {
    var a, p := world(attempt), Exponential(cfg);
    if !a.cancelledBefore && a.result.Failure? && ShouldRetry(p, attempt, a.result.retryable, a.now).0 {
      if !a.cancelledDuringWait {
        StopsFrom(cfg, world, attempt + 1, waits + [NextInterval(p, attempt, a.random)]);
      }
    }
  }

  /**
   * Under exponential backoff only failures worth retrying are retried: any other failure ends the
   * execution at once, and the execution gives up only on such a failure or at the last attempt.
   */
  lemma StopsExactly(cfg: Config, world: World)
    ensures var r := Executed(Exponential(cfg), world);
            && RetriedOnly(world, 1, r.operations)
            && (r.outcome == GaveUp ==> world(r.operations).result == Failure(false) || r.operations >= cfg.maxAttempts)
            && (r.operations >= 1 && world(r.operations).result == Failure(false) ==> r.outcome == GaveUp)
  {
    StopsFrom(cfg, world, 1, []);
  }

  /** The waits a circuit policy asks for: the uncapped backoff while closed, the initial interval half-open. */
  ghost predicate CircuitWaits(p: Policy, waits: seq<int>)
    requires p.Circuit?
  {
    if p.state == CircuitClosed
    then forall i :: 0 <= i < |waits| ==> waits[i] == Truncated(Backoff(p.cfg, i + 1))
    else |waits| <= 1 && forall i :: 0 <= i < |waits| ==> waits[i] == p.cfg.initialInterval
  }

  /** How many of the attempts from `first` to `last` failed in a way that is retried. */
  function Retryable(world: World, first: nat, last: nat): nat
    decreases last + 1 - first
  {
    if first > last then 0
    else (if world(first).result == Failure(true) then 1 else 0) + Retryable(world, first + 1, last)
  }

  lemma {:induction false} ClosedFrom(p: Policy, world: World, attempt: nat, waits: seq<int>)
    requires attempt >= 1 && |waits| == attempt - 1 && p.Circuit? && p.state == CircuitClosed
    requires CircuitWaits(p, waits)
    ensures var r := ExecuteFrom(p, world, attempt, waits);
            && r.policy.Circuit? && r.policy.cfg == p.cfg && CircuitWaits(p, r.waits)
            && RetriedOnly(world, attempt, r.operations)
            && (r.policy.state == CircuitOpen <==>
                  r.outcome == GaveUp && world(r.operations).result == Failure(true))
            && (r.policy.state == CircuitOpen ==> r.policy.failureCount >= p.cfg.maxAttempts
                                                  && r.policy.lastFailureTime == world(r.operations).now)
            && r.policy.state != CircuitHalfOpen && attempt - 1 <= r.operations
            && r.policy.failureCount == p.failureCount + Retryable(world, attempt, r.operations)
    decreases RetriesLeft(p, attempt)
  {
    var a := world(attempt);
    if !a.cancelledBefore && a.result.Failure? {
      var (again, p') := ShouldRetry(p, attempt, a.result.retryable, a.now);
      if again && !a.cancelledDuringWait {
        ClosedFrom(p', world, attempt + 1, waits + [NextInterval(p', attempt, a.random)]);
      }
    }
  }

  /**
   * A closed circuit retries only failures worth retrying, counts every one of them, waits the
   * uncapped exponential, and ends open exactly when it gave up on one of those.
   */
  lemma ClosedCircuit(p: Policy, world: World)
    requires p.Circuit? && p.state == CircuitClosed
    ensures var r := Executed(p, world);
            && r.policy.Circuit? && CircuitWaits(p, r.waits) && RetriedOnly(world, 1, r.operations)
            && (r.policy.state == CircuitOpen <==>
                  r.outcome == GaveUp && world(r.operations).result == Failure(true))
            && r.policy.failureCount == p.failureCount + Retryable(world, 1, r.operations)
  {
    ClosedFrom(p, world, 1, []);
  }

  /**
   * A circuit that is not closed makes at most one retry, whatever failed: an open one only once
   * its period is over and then half-open, and it waits the initial interval.
   */
  lemma TrippedCircuit(p: Policy, world: World)
    requires p.Circuit? && p.state != CircuitClosed
    ensures var r := Executed(p, world); var a := world(1);
            && r.policy.Circuit? && CircuitWaits(p, r.waits) && r.operations <= 2
            && (r.waits != [] <==>
                  && !a.cancelledBefore && a.result.Failure?
                  && (p.state == CircuitOpen ==> a.now - p.lastFailureTime > p.cfg.maxInterval))
            && (r.policy == if p.state == CircuitOpen && r.waits != [] then p.(state := CircuitHalfOpen) else p)
  {
    OperationsBounded(p, world);
    var a := world(1);
    if !a.cancelledBefore && a.result.Failure? {
      var (again, p') := ShouldRetry(p, 1, a.result.retryable, a.now);
      if again && !a.cancelledDuringWait {
        var waits := [] + [NextInterval(p', 1, a.random)];
        assert Executed(p, world) == ExecuteFrom(p', world, 2, waits);
        assert !ShouldRetry(p', 2, true, world(2).now).0 && !ShouldRetry(p', 2, false, world(2).now).0;
        assert ExecuteFrom(p', world, 2, waits).waits == waits;
      }
    }
  }

  // ---- Many executions sharing one circuit policy --------------------------------------------

  /** Operations run by a series of executions that share the policy. */
  function TotalOperations(p: Policy, worlds: seq<World>): nat
    decreases |worlds|
  {
    if worlds == [] then 0
    else Executed(p, worlds[0]).operations + TotalOperations(Executed(p, worlds[0]).policy, worlds[1..])
  }

  /** Retries the closed circuit can still grant, over its whole life. */
  function Budget(p: Policy): nat {
    if p.Circuit? && p.state == CircuitClosed then Max(0, p.cfg.maxAttempts - p.failureCount - 1) else 0
  }

  lemma {:induction false} BudgetSpent(p: Policy, world: World, attempt: nat, waits: seq<int>)
    requires attempt >= 1 && p.Circuit?
    ensures var r := ExecuteFrom(p, world, attempt, waits);
            && r.policy.Circuit?
            && (p.state == CircuitClosed ==> r.operations + Budget(r.policy) <= attempt + Budget(p))
            && (p.state != CircuitClosed ==> r.policy.state != CircuitClosed)
    decreases RetriesLeft(p, attempt)
  {
    var a := world(attempt);
    if !a.cancelledBefore && a.result.Failure? {
      var (again, p') := ShouldRetry(p, attempt, a.result.retryable, a.now);
      if again && !a.cancelledDuringWait {
        RetryCosts(p, attempt, a.result.retryable, a.now);
        BudgetSpent(p', world, attempt + 1, waits + [NextInterval(p', attempt, a.random)]);
      }
    }
  }

  /**
   * A circuit policy shared by executions one after the other limits them together: beyond two
   * operations each, they never run more than the closed circuit's retry budget, which no execution
   * renews.
   */
  lemma {:induction false} SharedCircuitBoundsTotal(p: Policy, worlds: seq<World>)
    requires p.Circuit?
    ensures TotalOperations(p, worlds) <= 2 * |worlds| + Budget(p)
    decreases |worlds|
  {
    if worlds != [] {
      BudgetSpent(p, worlds[0], 1, []);
      OperationsBounded(p, worlds[0]);
      SharedCircuitBoundsTotal(Executed(p, worlds[0]).policy, worlds[1..]);
    }
  }

  /** The circuit policy as the object that executions share. */
  class CircuitBreakerPolicy {
    const cfg: Config
    var failureCount: int
    var successCount: int
    var lastFailureTime: int
    var state: CircuitState

    ghost function Model(): Policy
      reads this
    {
      Circuit(cfg, failureCount, successCount, lastFailureTime, state)
    }

    constructor (cfg: Config, zeroTime: int)
      ensures Model() == Circuit(cfg, 0, 0, zeroTime, CircuitClosed)
    {
      this.cfg, failureCount, successCount, lastFailureTime, state := cfg, 0, 0, zeroTime, CircuitClosed;
    }

    method Decide(attempt: nat, retryable: bool, now: int) returns (again: bool)
      modifies this
      ensures (again, Model()) == ShouldRetry(old(Model()), attempt, retryable, now)
    {
      match state {
        case CircuitOpen =>
          if now - lastFailureTime > cfg.maxInterval {
            state := CircuitHalfOpen;
            return true;
          }
          return false;
        case CircuitHalfOpen =>
          return attempt == 1;
        case CircuitClosed =>
          if !retryable { return false; }
          failureCount := failureCount + 1;
          if failureCount >= cfg.maxAttempts {
            state, lastFailureTime := CircuitOpen, now;
            return false;
          }
          return true;
      }
    }

    method RecordSuccess()
      modifies this
      ensures state == if old(state) == CircuitHalfOpen then CircuitClosed else old(state)
      ensures failureCount == if old(state) == CircuitHalfOpen
                                 || (old(state) == CircuitClosed && old(successCount) + 1 > cfg.maxAttempts)
                              then 0 else old(failureCount)
      ensures successCount == old(successCount) + 1 && lastFailureTime == old(lastFailureTime)
    {
      successCount := successCount + 1;
      match state {
        case CircuitHalfOpen => state, failureCount := CircuitClosed, 0;
        case CircuitClosed => if successCount > cfg.maxAttempts { failureCount := 0; }
        case CircuitOpen =>
      }
    }

    method RecordFailure(now: int)
      modifies this
      ensures state == if old(state) == CircuitHalfOpen then CircuitOpen else old(state)
      ensures lastFailureTime == if old(state) == CircuitHalfOpen then now else old(lastFailureTime)
      ensures successCount == 0 && failureCount == old(failureCount)
    {
      successCount := 0;
      if state == CircuitHalfOpen { state, lastFailureTime := CircuitOpen, now; }
    }
  }
}
