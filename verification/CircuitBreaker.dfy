/**
 * The three-state circuit breaker of services/gateway/pkg/circuit/breaker.go.
 *
 * `Call` releases its lock while the protected function runs, so it is split into a
 * `Begin` step (the admission test) and an `End` step (recording the outcome): a call may
 * begin in one state and end in any other.  The background ticker is the `Tick` step.
 * Time is an integer carried by the steps that read the clock.
 */
module CircuitBreakers {
  import opened Common

  datatype State = Closed | Open | HalfOpen

  datatype Config = Config(maxFailures: int, successThreshold: int, timeout: int)

  datatype Breaker = Breaker(state: State, failures: int, successes: int, lastFailureTime: int)

  datatype Event =
    | Begin
    | End(ok: bool, now: int)
    | Tick(now: int)
    | Reset

  const INITIAL := Breaker(Closed, 0, 0, 0)

  function RecordFailure(cfg: Config, b: Breaker, now: int): Breaker {
    var c := b.(failures := b.failures + 1, lastFailureTime := now);
    match b.state
    case Closed => if c.failures >= cfg.maxFailures then c.(state := Open, failures := 0) else c
    case HalfOpen => c.(state := Open, failures := 0)
    case Open => c
  }

  function RecordSuccess(cfg: Config, b: Breaker): Breaker {
    var c := b.(failures := 0);
    if b.state != HalfOpen then c
    else if b.successes + 1 >= cfg.successThreshold then c.(state := Closed, successes := 0)
    else c.(successes := b.successes + 1)
  }

  function Recover(cfg: Config, b: Breaker, now: int): Breaker {
    if b.state == Open && now - b.lastFailureTime > cfg.timeout
    then b.(state := HalfOpen, successes := 0)
    else b
  }

  function Step(cfg: Config, b: Breaker, e: Event): Breaker {
    match e
    case Begin => b
    case End(ok, now) => if ok then RecordSuccess(cfg, b) else RecordFailure(cfg, b, now)
    case Tick(now) => Recover(cfg, b, now)
    case Reset => b.(state := Closed, failures := 0, successes := 0)
  }

  function Run(cfg: Config, es: seq<Event>): Breaker {
    if es == [] then INITIAL else Step(cfg, Run(cfg, es[..|es| - 1]), es[|es| - 1])
  }

  // ------------------------------------------------------------------ what a run means

  /** The episode after `e`, given the breaker and the episode before it. */
  function NextEpisode(cfg: Config, b: Breaker, episode: seq<bool>, e: Event): seq<bool> {
    if e.Reset? || Step(cfg, b, e).state != b.state then []
    else if e.End? then episode + [e.ok]
    else episode
  }

  /** The outcomes recorded since the state last changed (or since the last Reset). */
  function Episode(cfg: Config, es: seq<Event>): seq<bool> {
    if es == [] then []
    else
      var before, e := es[..|es| - 1], es[|es| - 1];
      NextEpisode(cfg, Run(cfg, before), Episode(cfg, before), e)
  }

  function NextFailure(latest: Option<int>, e: Event): Option<int> {
    if e.End? && !e.ok then Some(e.now) else latest
  }

  /** The time of the latest failure recorded, in any state. */
  function LatestFailure(es: seq<Event>): Option<int> {
    if es == [] then None else NextFailure(LatestFailure(es[..|es| - 1]), es[|es| - 1])
  }

  predicate EndsWithFailures(outcomes: seq<bool>, n: nat) {
    n <= |outcomes| && forall i :: |outcomes| - n <= i < |outcomes| ==> !outcomes[i]
  }

  function Negate(s: seq<bool>): (r: seq<bool>)
    ensures |r| == |s| && forall i :: 0 <= i < |s| ==> r[i] == !s[i]
  {
    seq(|s|, i requires 0 <= i < |s| => !s[i])
  }

  /** The thresholds count as 1 when they are configured as zero or less. */
  function FailuresToOpen(cfg: Config): nat { Max(1, cfg.maxFailures) }
  function SuccessesToClose(cfg: Config): nat { Max(1, cfg.successThreshold) }

  /** What the counters may be in each state. */
  predicate CountersFit(cfg: Config, b: Breaker) {
    match b.state
    case Closed => 0 <= b.failures < FailuresToOpen(cfg) && b.successes == 0
    case HalfOpen => 0 <= b.successes < SuccessesToClose(cfg)
    case Open => true
  }

  lemma TrailingSnoc(s: seq<bool>, ok: bool)
    ensures TrailingTrue(Negate(s + [ok])) == if ok then 0 else TrailingTrue(Negate(s)) + 1
  {
    assert Negate(s + [ok])[..|s|] == Negate(s);
  }

  /** The breaker's fields abbreviate the episode and the latest failure. */
  ghost predicate Summarises(cfg: Config, b: Breaker, episode: seq<bool>, latest: Option<int>) {
    && CountersFit(cfg, b)
    && (b.state == Closed ==> b.failures == TrailingTrue(Negate(episode)))
    && (b.state == HalfOpen ==>
          b.successes == |episode| && (forall ok <- episode :: ok) && (episode != [] ==> b.failures == 0))
    && (b.state == Open ==> latest.Some? && b.failures == TrailingTrue(Negate(episode)))
    && (latest.Some? ==> latest.value == b.lastFailureTime)
  }

  lemma StepSummarises(cfg: Config, b: Breaker, episode: seq<bool>, latest: Option<int>, e: Event)
    requires Summarises(cfg, b, episode, latest)
    ensures Summarises(cfg, Step(cfg, b, e), NextEpisode(cfg, b, episode, e), NextFailure(latest, e))
  {
    if e.End? { TrailingSnoc(episode, e.ok); }
  }

  /** The counters are exactly the history they abbreviate. */
  lemma {:induction false} CountersSummariseEpisode(cfg: Config, es: seq<Event>)
    ensures Summarises(cfg, Run(cfg, es), Episode(cfg, es), LatestFailure(es))
  {
    if es != [] {
      var before := es[..|es| - 1];
      CountersSummariseEpisode(cfg, before);
      StepSummarises(cfg, Run(cfg, before), Episode(cfg, before), LatestFailure(before), es[|es| - 1]);
    }
  }

  lemma EndsWithFailuresIffTrailing(outcomes: seq<bool>, n: nat)
    ensures EndsWithFailures(outcomes, n) <==> n <= TrailingTrue(Negate(outcomes))
  {
    var t := TrailingTrue(Negate(outcomes));
    assert t < |outcomes| ==> outcomes[|outcomes| - t - 1];
  }

  /**
   * From Closed, a run opens exactly when the outcomes recorded since it became Closed
   * end in `FailuresToOpen` failures; nothing else leaves Closed.
   */
  lemma OpensExactlyOnConsecutiveFailures(cfg: Config, es: seq<Event>, e: Event)
    requires Run(cfg, es).state == Closed
    ensures Run(cfg, es + [e]).state != HalfOpen
    ensures Run(cfg, es + [e]).state == Open <==>
            e.End? && EndsWithFailures(Episode(cfg, es) + [e.ok], FailuresToOpen(cfg))
  {
    Snoc(es, e);
    CountersSummariseEpisode(cfg, es);
    if e.End? {
      TrailingSnoc(Episode(cfg, es), e.ok);
      EndsWithFailuresIffTrailing(Episode(cfg, es) + [e.ok], FailuresToOpen(cfg));
    }
  }

  lemma AllSnoc(s: seq<bool>, ok: bool)
    ensures (forall x <- s + [ok] :: x) <==> ok && forall x <- s :: x
  {
    assert ok in s + [ok];
    forall x | x in s ensures x in s + [ok] {}
  }

  /**
   * From HalfOpen, one failure reopens; it closes exactly on a Reset or when the episode
   * reaches `SuccessesToClose` outcomes, all of them successes.
   */
  lemma ClosesExactlyOnSuccesses(cfg: Config, es: seq<Event>, e: Event)
    requires Run(cfg, es).state == HalfOpen
    ensures Run(cfg, es + [e]).state == Open <==> e.End? && !e.ok
    ensures Run(cfg, es + [e]).state == Closed <==>
            e.Reset? || (e.End? && |Episode(cfg, es) + [e.ok]| == SuccessesToClose(cfg)
                         && forall ok <- Episode(cfg, es) + [e.ok] :: ok)
  {
    Snoc(es, e);
    CountersSummariseEpisode(cfg, es);
    if e.End? { AllSnoc(Episode(cfg, es), e.ok); }
  }

  /** Open ends only by Reset, or by a tick more than `timeout` after the latest failure. */
  lemma {:induction false} OpenEndsExactlyAfterTimeout(cfg: Config, es: seq<Event>, e: Event)
    requires Run(cfg, es).state == Open
    ensures LatestFailure(es).Some?
    ensures Run(cfg, es + [e]).state == Closed <==> e.Reset?
    ensures Run(cfg, es + [e]).state == HalfOpen <==>
            e.Tick? && e.now - LatestFailure(es).value > cfg.timeout
  {
    Snoc(es, e);
    CountersSummariseEpisode(cfg, es);
  }

  /** Every failure in `fs` happens no earlier than `floor`; every tick no later than `ceiling`. */
  predicate Within(fs: seq<Event>, floor: int, ceiling: int) {
    forall e <- fs :: !e.Reset? && (e.End? ==> floor <= e.now) && (e.Tick? ==> e.now <= ceiling)
  }

  /**
   * Once open, and until `timeout` has passed or someone resets it, the breaker is open at every
   * point, so that it admits no call, whatever calls begun earlier do when they end.
   */
  lemma {:induction false} OpenAdmitsNothing(cfg: Config, es: seq<Event>, fs: seq<Event>)
    requires Run(cfg, es).state == Open
    requires Within(fs, Run(cfg, es).lastFailureTime, Run(cfg, es).lastFailureTime + cfg.timeout)
    ensures Run(cfg, es).lastFailureTime <= Run(cfg, es + fs).lastFailureTime
    ensures forall i :: 0 <= i <= |fs| ==> Run(cfg, es + fs[..i]).state == Open
  {
    if fs == [] {
      assert es + fs == es;
    } else {
      var rest, e := fs[..|fs| - 1], fs[|fs| - 1];
      OpenAdmitsNothing(cfg, es, rest);
      assert es + fs == (es + rest) + [e];
      Snoc(es + rest, e);
      forall i | 0 <= i <= |fs| ensures Run(cfg, es + fs[..i]).state == Open {
        if i < |fs| { assert fs[..i] == rest[..i]; } else { assert fs[..i] == fs; assert rest[..|rest|] == rest; }
      }
    }
  }

  // ------------------------------------------------------------------ the mutable object

  class CircuitBreaker {
    const cfg: Config
    var state: State
    var failures: int
    var successes: int
    var lastFailureTime: int

    function Model(): Breaker
      reads this
    {
      Breaker(state, failures, successes, lastFailureTime)
    }

    predicate Valid()
      reads this
    {
      CountersFit(cfg, Model())
    }

    constructor (cfg: Config)
      ensures this.cfg == cfg && Model() == INITIAL && Valid()
    {
      this.cfg := cfg;
      state, failures, successes, lastFailureTime := Closed, 0, 0, 0;
    }

    method CheckAndTransitionToHalfOpen(now: int)
      requires Valid()
      modifies this
      ensures Valid() && Model() == Step(cfg, old(Model()), Tick(now))
    {
      if state == Open && now - lastFailureTime > cfg.timeout {
        state := HalfOpen;
        successes := 0;
      }
    }

    /** First half of `Call`: fails fast exactly when the circuit is open. */
    method BeginCall() returns (admitted: bool)
      ensures admitted <==> state != Open
    {
      admitted := !(state == Open);
    }

    /** Second half of `Call`: records the outcome in whatever state the breaker is in now. */
    method EndCall(ok: bool, now: int)
      requires Valid()
      modifies this
      ensures Valid() && Model() == Step(cfg, old(Model()), End(ok, now))
    {
      if ok {
        DoRecordSuccess();
      } else {
        DoRecordFailure(now);
      }
    }

    method DoRecordFailure(now: int)
      requires Valid()
      modifies this
      ensures Valid() && Model() == RecordFailure(cfg, old(Model()), now)
    {
      failures := failures + 1;
      lastFailureTime := now;
      match state
      case Closed =>
        if failures >= cfg.maxFailures {
          state := Open;
          failures := 0;
        }
      case HalfOpen =>
        state := Open;
        failures := 0;
      case Open =>
    }

    method DoRecordSuccess()
      requires Valid()
      modifies this
      ensures Valid() && Model() == RecordSuccess(cfg, old(Model()))
    {
      failures := 0;
      if state == HalfOpen {
        successes := successes + 1;
        if successes >= cfg.successThreshold {
          state := Closed;
          successes := 0;
        }
      }
    }

    method ResetBreaker()
      modifies this
      ensures Valid() && Model() == Step(cfg, old(Model()), Reset)
    {
      state := Closed;
      failures := 0;
      successes := 0;
    }
  }
}
