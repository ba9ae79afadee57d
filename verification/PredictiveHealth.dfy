/**
 * The predictive health monitor of services/gateway/pkg/health/predictive.go: its own circuit
 * breaker and the health score, in exact real arithmetic.
 */
module PredictiveHealth {
  import opened Common

  datatype Config = Config(
    failureThreshold: int,
    successThreshold: int,
    historySize: int,
    latencyThreshold: int,
    errorRateThreshold: real)

  // ------------------------------------------------------------------------------ the breaker

  datatype State = Closed | HalfOpen | Open

  datatype Breaker = Breaker(
    state: State,
    failures: int,
    successes: int,
    requests: int,
    dynamicThreshold: real,
    lastUpdate: int,
    totalRequests: int,
    totalFailures: int,
    stateChanges: int)

  datatype Sample = Sample(ok: bool, now: int)

  const FIVE_MINUTES: int := 300_000_000_000

  function NewBreaker(cfg: Config, now: int): Breaker {
    Breaker(Closed, 0, 0, 0, cfg.failureThreshold as real, now, 0, 0, 0)
  }

  function Counted(b: Breaker, ok: bool): Breaker {
    var c := b.(requests := b.requests + 1, totalRequests := b.totalRequests + 1);
    if ok then c.(successes := b.successes + 1)
    else c.(failures := b.failures + 1, totalFailures := b.totalFailures + 1, successes := 0)
  }

  /** The threshold an overall error rate calls for. */
  function Sensitivity(cfg: Config, failures: int, requests: int): real
    requires requests > 0
  {
    var base, rate := cfg.failureThreshold as real, failures as real / requests as real;
    if rate < 0.01 then base * 0.5 else if rate > 0.1 then base * 1.5 else base
  }

  function DynamicThreshold(cfg: Config, b: Breaker): real {
    if b.totalRequests <= 0 then b.dynamicThreshold else Sensitivity(cfg, b.totalFailures, b.totalRequests)
  }

  function Adapted(cfg: Config, b: Breaker, now: int): Breaker {
    if now - b.lastUpdate > FIVE_MINUTES
    then b.(dynamicThreshold := DynamicThreshold(cfg, b), lastUpdate := now) else b
  }

  /** A failure ratio at or above the threshold, in percent, over at least ten requests. */
  predicate ShouldOpen(requests: int, failures: int, threshold: real)
    requires requests > 0
  {
    var rate := failures as real / requests as real;
    requests >= 10 && rate >= threshold / 100.0
  }

  function NewState(cfg: Config, b: Breaker): State
    requires b.requests > 0
  {
    match b.state
    case Closed => if ShouldOpen(b.requests, b.failures, b.dynamicThreshold) then Open else Closed
    case Open => if b.successes >= cfg.successThreshold then HalfOpen else Open
    case HalfOpen =>
      if b.failures > 0 then Open else if b.successes >= cfg.successThreshold then Closed else HalfOpen
  }

  /** The transitions that set the window's counters back to zero. */
  predicate Resets(before: State, after: State) {
    after != before && (after == HalfOpen || (before == HalfOpen && after == Closed))
  }

  function Transitioned(b: Breaker, state: State): Breaker {
    if state == b.state then b
    else
      var c := b.(state := state, stateChanges := b.stateChanges + 1);
      if Resets(b.state, state) then c.(failures := 0, requests := 0) else c
  }

  /** A request is counted before the ratio is taken, so there is always one to divide by. */
  function Record(cfg: Config, b: Breaker, s: Sample): (r: Breaker)
    requires b.requests >= 0
    ensures r.requests >= 0
  {
    var c := Adapted(cfg, Counted(b, s.ok), s.now);
    Transitioned(c, NewState(cfg, c))
  }

  function CountFailures(outcomes: seq<bool>): (n: nat)
    ensures n <= |outcomes|
  {
    if outcomes == [] then 0
    else CountFailures(outcomes[..|outcomes| - 1]) + if outcomes[|outcomes| - 1] then 0 else 1
  }

  function Outcomes(ss: seq<Sample>): (r: seq<bool>)
    ensures |r| == |ss| && forall i :: 0 <= i < |ss| ==> r[i] == ss[i].ok
  {
    seq(|ss|, i requires 0 <= i < |ss| => ss[i].ok)
  }

  function Last(outcomes: seq<bool>, n: int): seq<bool>
    requires 0 <= n <= |outcomes|
  {
    outcomes[|outcomes| - n..]
  }

  /** The counters are tallies of the whole history of outcomes and of its last `requests` ones. */
  predicate Tallies(b: Breaker, history: seq<bool>) {
    && b.totalRequests == |history| && b.totalFailures == CountFailures(history)
    && b.successes == TrailingTrue(history)
    && 0 <= b.failures <= b.requests <= b.totalRequests
    && b.failures == CountFailures(Last(history, b.requests))
  }

  predicate Summarises(cfg: Config, b: Breaker, history: seq<bool>) {
    && Tallies(b, history)
    && (b.state == HalfOpen ==> b.failures == 0 == b.requests && b.successes >= cfg.successThreshold)
  }

  lemma CountSnoc(s: seq<bool>, ok: bool)
    ensures CountFailures(s + [ok]) == CountFailures(s) + if ok then 0 else 1
  {
    Snoc(s, ok);
  }

  lemma CountedTallies(b: Breaker, history: seq<bool>, ok: bool)
    requires Tallies(b, history)
    ensures Tallies(Counted(b, ok), history + [ok])
  {
    Snoc(history, ok);
    CountSnoc(history, ok);
    CountSnoc(Last(history, b.requests), ok);
    assert Last(history + [ok], b.requests + 1) == Last(history, b.requests) + [ok];
  }

  lemma TransitionedTallies(b: Breaker, history: seq<bool>, state: State)
    requires Tallies(b, history)
    ensures Tallies(Transitioned(b, state), history)
  {
    assert Last(history, 0) == [];
  }

  /** What can be said of the next state without computing a failure ratio. */
  predicate Follows(cfg: Config, b: Breaker, state: State) {
    match b.state
    case Closed => state != HalfOpen
    case Open => state == if b.successes >= cfg.successThreshold then HalfOpen else Open
    case HalfOpen =>
      state == if b.failures > 0 then Open
               else if b.successes >= cfg.successThreshold then Closed else HalfOpen
  }

  lemma NewStateFollows(cfg: Config, b: Breaker)
    requires b.requests > 0
    ensures Follows(cfg, b, NewState(cfg, b))
  {
  }

  lemma SummarisesAfter(cfg: Config, b: Breaker, history: seq<bool>, ok: bool, c: Breaker, state: State)
    requires Summarises(cfg, b, history)
    requires c == Counted(b, ok).(dynamicThreshold := c.dynamicThreshold, lastUpdate := c.lastUpdate)
    requires Follows(cfg, c, state)
    ensures Summarises(cfg, Transitioned(c, state), history + [ok])
  {
    CountedTallies(b, history, ok);
    TransitionedTallies(c, history + [ok], state);
  }

  lemma RecordSummarises(cfg: Config, b: Breaker, history: seq<bool>, s: Sample)
    requires Summarises(cfg, b, history)
    ensures Summarises(cfg, Record(cfg, b, s), history + [s.ok])
  {
    var c := Adapted(cfg, Counted(b, s.ok), s.now);
    NewStateFollows(cfg, c);
    SummarisesAfter(cfg, b, history, s.ok, c, NewState(cfg, c));
  }

  function Run(cfg: Config, start: int, ss: seq<Sample>): (b: Breaker)
    ensures b.requests >= 0
  {
    if ss == [] then NewBreaker(cfg, start) else Record(cfg, Run(cfg, start, ss[..|ss| - 1]), ss[|ss| - 1])
  }

  /**
   * In every run the success count is the trailing run of successes, the failure and request counts
   * are those of a window at the end of the history, and HalfOpen has both of those at zero.
   */
  lemma {:induction false} CountersSummariseHistory(cfg: Config, start: int, ss: seq<Sample>)
    ensures Summarises(cfg, Run(cfg, start, ss), Outcomes(ss))
  {
    if ss != [] {
      var before, s := ss[..|ss| - 1], ss[|ss| - 1];
      CountersSummariseHistory(cfg, start, before);
      RecordSummarises(cfg, Run(cfg, start, before), Outcomes(before), s);
      assert Outcomes(ss) == Outcomes(before) + [s.ok];
    }
  }

  /** HalfOpen lasts exactly one recorded request: a success closes, a failure reopens. */
  lemma HalfOpenLastsOneRequest(cfg: Config, start: int, ss: seq<Sample>, s: Sample)
    requires Run(cfg, start, ss).state == HalfOpen
    ensures Run(cfg, start, ss + [s]).state == if s.ok then Closed else Open
  {
    Snoc(ss, s);
    CountersSummariseHistory(cfg, start, ss);
  }

  /**
   * An open breaker closes again only after at least SuccessThreshold + 1 consecutive successes,
   * and at least one.
   */
  lemma ReclosingNeedsSuccesses(cfg: Config, start: int, ss: seq<Sample>, s: Sample)
    requires Run(cfg, start, ss).state != Closed && Run(cfg, start, ss + [s]).state == Closed
    ensures Run(cfg, start, ss).state == HalfOpen && s.ok
    ensures TrailingTrue(Outcomes(ss + [s])) >= Max(cfg.successThreshold, 0) + 1
  {
    Snoc(ss, s);
    CountersSummariseHistory(cfg, start, ss);
    assert Outcomes(ss + [s])[..|ss|] == Outcomes(ss);
  }

  // ---- the window and the threshold, from the run alone

  /** How many requests since the counters were last reset, or since the start. */
  function SinceReset(cfg: Config, start: int, ss: seq<Sample>): nat {
    if ss == [] then 0
    else
      var before := ss[..|ss| - 1];
      var was, now := Run(cfg, start, before).state, Run(cfg, start, ss).state;
      if was != HalfOpen && now == HalfOpen then 0
      else if was == HalfOpen && now == Closed then 0
      else SinceReset(cfg, start, before) + 1
  }

  /** How often the state changed. */
  function Changes(cfg: Config, start: int, ss: seq<Sample>): nat {
    if ss == [] then 0
    else
      var before := ss[..|ss| - 1];
      Changes(cfg, start, before) + if Run(cfg, start, before).state == Run(cfg, start, ss).state then 0 else 1
  }

  /** When the threshold was last adapted: with the first request more than five minutes after the time before. */
  function LastAdaptation(start: int, ss: seq<Sample>): int {
    if ss == [] then start
    else
      var last, now := LastAdaptation(start, ss[..|ss| - 1]), ss[|ss| - 1].now;
      if now - last > FIVE_MINUTES then now else last
  }

  /** The threshold in force: the configured one until the first adaptation, then what the error rate so far called for. */
  function Threshold(cfg: Config, start: int, ss: seq<Sample>): real {
    if ss == [] then cfg.failureThreshold as real
    else
      var before := ss[..|ss| - 1];
      if ss[|ss| - 1].now - LastAdaptation(start, before) > FIVE_MINUTES
      then Demanded(cfg, CountFailures(Outcomes(ss)), |ss|)
      else Threshold(cfg, start, before)
  }

  /** Half the configured threshold below one failure in a hundred, half as much again above one in ten. */
  function Demanded(cfg: Config, failures: int, requests: int): real {
    if 100 * failures < requests then cfg.failureThreshold as real / 2.0
    else if 10 * failures > requests then 3.0 * cfg.failureThreshold as real / 2.0
    else cfg.failureThreshold as real
  }

  /** A quotient is below, or above, what its numerator is of its denominator. */
  lemma QuotientCompared(x: real, y: real, c: real)
    requires y > 0.0
    ensures x / y < c <==> x < c * y
    ensures x / y > c <==> x > c * y
  {
    var q := x / y;
    assert q * y == x;
    if q < c { ProductLess(q, c, y); }
    if q > c { ProductLess(c, q, y); }
  }

  lemma ProductLess(a: real, b: real, y: real)
    requires y > 0.0 && a < b
    ensures a * y < b * y
  {
    assert (b - a) * y > 0.0;
  }

  lemma SensitivityInNumbers(cfg: Config, failures: int, requests: int)
    requires requests > 0
    ensures Sensitivity(cfg, failures, requests) == Demanded(cfg, failures, requests)
  {
    QuotientCompared(failures as real, requests as real, 0.01);
    QuotientCompared(failures as real, requests as real, 0.1);
  }

  /** The opening rule without a quotient. */
  predicate FailsOften(requests: int, failures: int, threshold: real) {
    requests >= 10 && 100.0 * failures as real >= threshold * requests as real
  }

  lemma OpeningInNumbers(requests: int, failures: int, threshold: real)
    requires requests > 0
    ensures ShouldOpen(requests, failures, threshold) <==> FailsOften(requests, failures, threshold)
  {
    QuotientCompared(failures as real, requests as real, threshold / 100.0);
    assert threshold / 100.0 * requests as real == threshold * requests as real / 100.0;
  }

  lemma RecordFields(cfg: Config, b: Breaker, s: Sample)
    requires 0 <= b.requests && 0 <= b.totalRequests
    ensures var b', adapts := Record(cfg, b, s), s.now - b.lastUpdate > FIVE_MINUTES;
            && b'.requests == (if b.state != HalfOpen && b'.state == HalfOpen then 0
                               else if b.state == HalfOpen && b'.state == Closed then 0 else b.requests + 1)
            && b'.stateChanges == b.stateChanges + (if b'.state == b.state then 0 else 1)
            && b'.lastUpdate == (if adapts then s.now else b.lastUpdate)
            && b'.dynamicThreshold ==
               if adapts then Sensitivity(cfg, b.totalFailures + (if s.ok then 0 else 1), b.totalRequests + 1)
               else b.dynamicThreshold
  {
  }

  lemma TotalsNext(cfg: Config, start: int, ss: seq<Sample>)
    requires ss != []
    ensures var b := Run(cfg, start, ss[..|ss| - 1]);
            && b.totalRequests == |ss| - 1
            && CountFailures(Outcomes(ss)) == b.totalFailures + if ss[|ss| - 1].ok then 0 else 1
  {
    var before, s := ss[..|ss| - 1], ss[|ss| - 1];
    CountersSummariseHistory(cfg, start, before);
    assert Outcomes(ss) == Outcomes(before) + [s.ok];
    CountSnoc(Outcomes(before), s.ok);
  }

  lemma {:induction false} CountsFromRun(cfg: Config, start: int, ss: seq<Sample>)
    ensures var b := Run(cfg, start, ss);
            b.requests == SinceReset(cfg, start, ss) <= |ss| && b.stateChanges == Changes(cfg, start, ss)
  {
    if ss != [] {
      var before := ss[..|ss| - 1];
      CountsFromRun(cfg, start, before);
      TotalsNext(cfg, start, ss);
      RecordFields(cfg, Run(cfg, start, before), ss[|ss| - 1]);
    }
  }

  lemma {:induction false} ThresholdFromRun(cfg: Config, start: int, ss: seq<Sample>)
    ensures var b := Run(cfg, start, ss);
            b.lastUpdate == LastAdaptation(start, ss) && b.dynamicThreshold == Threshold(cfg, start, ss)
  {
    if ss != [] {
      var before := ss[..|ss| - 1];
      ThresholdFromRun(cfg, start, before);
      TotalsNext(cfg, start, ss);
      RecordFields(cfg, Run(cfg, start, before), ss[|ss| - 1]);
      SensitivityInNumbers(cfg, CountFailures(Outcomes(ss)), |ss|);
    }
  }

  /** In every run the breaker's fields are what the run alone says they should be. */
  lemma FieldsFromRun(cfg: Config, start: int, ss: seq<Sample>)
    ensures var b := Run(cfg, start, ss);
            && b.requests == SinceReset(cfg, start, ss) <= |ss| && b.stateChanges == Changes(cfg, start, ss)
            && b.lastUpdate == LastAdaptation(start, ss)
            && b.dynamicThreshold == Threshold(cfg, start, ss)
  {
    CountsFromRun(cfg, start, ss);
    ThresholdFromRun(cfg, start, ss);
  }

  lemma RecordFromClosed(cfg: Config, b: Breaker, s: Sample, requests: int, failures: int)
    requires b.state == Closed && b.requests >= 0
    requires requests == b.requests + 1 && failures == b.failures + if s.ok then 0 else 1
    ensures var b' := Record(cfg, b, s);
            b'.state == if ShouldOpen(requests, failures, b'.dynamicThreshold) then Open else Closed
  {
  }

  /** The outcomes since the counters were last reset. */
  function Window(cfg: Config, start: int, ss: seq<Sample>): (w: seq<bool>)
    requires SinceReset(cfg, start, ss) <= |ss|
  {
    Last(Outcomes(ss), SinceReset(cfg, start, ss))
  }

  /**
   * In every run, from Closed, a request opens the breaker exactly when the outcomes since the
   * counters were last reset, its own included, are at least ten and fail at least as often as the
   * threshold in force demands.
   */
  lemma OpensExactlyOnFailureRatio(cfg: Config, start: int, ss: seq<Sample>, s: Sample)
    requires Run(cfg, start, ss).state == Closed
    ensures SinceReset(cfg, start, ss) <= |ss|
    ensures var window := Window(cfg, start, ss) + [s.ok];
            var opens := FailsOften(|window|, CountFailures(window), Threshold(cfg, start, ss + [s]));
            Run(cfg, start, ss + [s]).state == if opens then Open else Closed
  {
    FieldsFromRun(cfg, start, ss);
    FieldsFromRun(cfg, start, ss + [s]);
    CountersSummariseHistory(cfg, start, ss);
    Snoc(ss, s);
    var window := Window(cfg, start, ss) + [s.ok];
    CountSnoc(Window(cfg, start, ss), s.ok);
    RecordFromClosed(cfg, Run(cfg, start, ss), s, |window|, CountFailures(window));
    OpeningInNumbers(|window|, CountFailures(window), Threshold(cfg, start, ss + [s]));
  }

  // ------------------------------------------------------------------------- the health score

  /** The counters and the bounded latency history of an endpoint. */
  datatype Tally = Tally(
    consecutiveSuccesses: int,
    consecutiveFailures: int,
    responseTimes: seq<int>,
    totalRequests: int)

  /** What is calculated from them after each request. */
  datatype Assessment = Assessment(averageLatency: int, errorRate: real, score: real, isHealthy: bool)

  const NEW_TALLY := Tally(0, 0, [], 0)
  const UNMEASURED := Assessment(0, 0.0, 1.0, true)

  function AddToHistory(history: seq<int>, value: int, maxSize: int): seq<int> {
    var h := history + [value];
    if |h| > maxSize then h[1..] else h
  }

  function SumOf(xs: seq<int>): int {
    if xs == [] then 0 else SumOf(xs[..|xs| - 1]) + xs[|xs| - 1]
  }

  function AverageOf(xs: seq<int>): int {
    if xs == [] then 0 else TruncDiv(SumOf(xs), |xs|)
  }

  function ErrorRate(samples: nat, consecutiveFailures: int, lastOk: bool): real {
    if samples < 10 then if lastOk then 0.0 else 1.0
    else
      var rate := consecutiveFailures as real / 10.0;
      if rate > 1.0 then 1.0 else rate
  }

  /** The sum taken from the other end. */
  function SumFront(xs: seq<int>): int {
    if xs == [] then 0 else xs[0] + SumFront(xs[1..])
  }

  lemma {:induction false} SumFrontSnoc(xs: seq<int>, x: int)
    ensures SumFront(xs + [x]) == SumFront(xs) + x
  {
    if xs == [] {
      assert [x][1..] == [];
    } else {
      SumFrontSnoc(xs[1..], x);
      assert (xs + [x])[1..] == xs[1..] + [x];
    }
  }

  lemma {:induction false} SumsAgree(xs: seq<int>)
    ensures SumOf(xs) == SumFront(xs)
  {
    if xs != [] {
      SumsAgree(xs[..|xs| - 1]);
      SumFrontSnoc(xs[..|xs| - 1], xs[|xs| - 1]);
      assert xs[..|xs| - 1] + [xs[|xs| - 1]] == xs;
    }
  }

  /** The average is the sum over the number, short of it by less than one and toward zero. */
  lemma AverageMeaning(xs: seq<int>)
    ensures xs == [] ==> AverageOf(xs) == 0
    ensures xs != [] ==> -|xs| < SumFront(xs) - AverageOf(xs) * |xs| < |xs|
    ensures xs != [] && SumFront(xs) >= 0 ==> AverageOf(xs) * |xs| <= SumFront(xs)
  {
    SumsAgree(xs);
  }

  /** With few samples the last outcome is all; with ten or more it is a tenth for each failure in a row. */
  lemma ErrorRateMeaning(samples: nat, consecutiveFailures: int, lastOk: bool)
    ensures var rate := ErrorRate(samples, consecutiveFailures, lastOk);
            && (samples <= 9 && lastOk ==> rate == 0.0)
            && (samples <= 9 && !lastOk ==> rate == 1.0)
            && (samples >= 10 ==> 10.0 * rate == Min(consecutiveFailures, 10) as real)
  {
  }

  function MinReal(a: real, b: real): real { if a < b then a else b }

  /** The threshold is never zero: a zero is replaced by its default when the monitor is made. */
  function Score(latencyThreshold: int, averageLatency: int, errorRate: real): real
    requires latencyThreshold != 0
  {
    var penalty := if averageLatency > latencyThreshold
                   then MinReal(averageLatency as real / (latencyThreshold * 2) as real, 0.4) else 0.0;
    var score := 1.0 - penalty - errorRate * 0.6;
    if score < 0.0 then 0.0 else score
  }

  predicate IsHealthy(cfg: Config, consecutiveFailures: int, errorRate: real, averageLatency: int, score: real) {
    && consecutiveFailures < cfg.failureThreshold
    && errorRate <= cfg.errorRateThreshold
    && averageLatency <= cfg.latencyThreshold * 2
    && score >= 0.3
  }

  function Observed(cfg: Config, t: Tally, latency: int, ok: bool): Tally {
    Tally(if ok then t.consecutiveSuccesses + 1 else 0,
          if ok then 0 else t.consecutiveFailures + 1,
          AddToHistory(t.responseTimes, latency, cfg.historySize),
          t.totalRequests + 1)
  }

  function Assessed(cfg: Config, t: Tally, lastOk: bool): Assessment
    requires cfg.latencyThreshold != 0
  {
    var average := AverageOf(t.responseTimes);
    var rate := ErrorRate(|t.responseTimes|, t.consecutiveFailures, lastOk);
    var score := Score(cfg.latencyThreshold, average, rate);
    Assessment(average, rate, score, IsHealthy(cfg, t.consecutiveFailures, rate, average, score))
  }

  lemma QuotientAbove(x: real, y: real, c: real)
    requires y > 0.0 && x >= c * y
    ensures x / y >= c
  {
    var q := x / y;
    assert q * y == x;
    if q < c { assert q * y < c * y; }
  }

  /**
   * The latency penalty is all or nothing: an average above the threshold always costs exactly
   * 0.4, so with an error rate in [0, 1] the clamp at zero never acts.
   */
  lemma ScoreClosedForm(latencyThreshold: int, averageLatency: int, errorRate: real)
    requires latencyThreshold > 0 && 0.0 <= errorRate <= 1.0
    ensures Score(latencyThreshold, averageLatency, errorRate) ==
            1.0 - (if averageLatency > latencyThreshold then 0.4 else 0.0) - errorRate * 0.6
    ensures 0.0 <= Score(latencyThreshold, averageLatency, errorRate) <= 1.0
  {
    if averageLatency > latencyThreshold {
      QuotientAbove(averageLatency as real, (latencyThreshold * 2) as real, 0.4);
    }
  }

  /** The clamp: whatever the inputs, the score is not negative, and it is zero where the penalties exceed one. */
  lemma ScoreNeverNegative(latencyThreshold: int, averageLatency: int, errorRate: real)
    requires latencyThreshold != 0
    ensures Score(latencyThreshold, averageLatency, errorRate) >= 0.0
    ensures averageLatency <= latencyThreshold && errorRate * 0.6 > 1.0 ==>
              Score(latencyThreshold, averageLatency, errorRate) == 0.0
  {
  }

  /** A negative threshold turns the penalty into a bonus: half the quotient of average and threshold. */
  lemma NegativeThresholdPays(latencyThreshold: int, averageLatency: int, errorRate: real)
    requires latencyThreshold < 0 <= averageLatency && 0.0 <= errorRate <= 1.0
    ensures var bonus := Score(latencyThreshold, averageLatency, errorRate) - 1.0 + errorRate * 0.6;
            bonus >= 0.0 && bonus * (latencyThreshold * 2) as real == -(averageLatency as real)
  {
    var y := (latencyThreshold * 2) as real;
    var q := averageLatency as real / y;
    assert q * y == averageLatency as real;
    if q > 0.0 { ProductLess(0.0, q, -y); }
  }

  /** The score stays in [0, 1] for all inputs exactly when the latency threshold is positive. */
  lemma ScoreBoundedExactly(latencyThreshold: int)
    requires latencyThreshold != 0
    ensures (forall average: int, rate: real :: 0.0 <= rate <= 1.0 ==>
               0.0 <= Score(latencyThreshold, average, rate) <= 1.0)
            <==> latencyThreshold > 0
  {
    if latencyThreshold > 0 {
      forall average: int, rate: real | 0.0 <= rate <= 1.0
        ensures 0.0 <= Score(latencyThreshold, average, rate) <= 1.0 {
        ScoreClosedForm(latencyThreshold, average, rate);
      }
    } else {
      var y := (latencyThreshold * 2) as real;
      var q := 1.0 / y;
      assert q * y == 1.0;
      assert q < 0.0;
      assert Score(latencyThreshold, 1, 0.0) > 1.0;
    }
  }

  /** With an error-rate threshold of at most one half, the score never decides a verdict. */
  lemma ScoreNeverDecides(cfg: Config, consecutiveFailures: int, errorRate: real, averageLatency: int)
    requires cfg.latencyThreshold > 0 && cfg.errorRateThreshold <= 0.5 && 0.0 <= errorRate <= 1.0
    ensures IsHealthy(cfg, consecutiveFailures, errorRate, averageLatency,
                      Score(cfg.latencyThreshold, averageLatency, errorRate)) <==>
            && consecutiveFailures < cfg.failureThreshold
            && errorRate <= cfg.errorRateThreshold
            && averageLatency <= cfg.latencyThreshold * 2
  {
    ScoreClosedForm(cfg.latencyThreshold, averageLatency, errorRate);
  }

  datatype Measure = Measure(latency: int, ok: bool)

  function RunTally(cfg: Config, ms: seq<Measure>): Tally {
    if ms == [] then NEW_TALLY
    else Observed(cfg, RunTally(cfg, ms[..|ms| - 1]), ms[|ms| - 1].latency, ms[|ms| - 1].ok)
  }

  /** The assessment an endpoint has after a run of requests. */
  function RunAssessment(cfg: Config, ms: seq<Measure>): Assessment
    requires cfg.latencyThreshold != 0
  {
    if ms == [] then UNMEASURED else Assessed(cfg, RunTally(cfg, ms), ms[|ms| - 1].ok)
  }

  function Latencies(ms: seq<Measure>): seq<int> {
    if ms == [] then [] else Latencies(ms[..|ms| - 1]) + [ms[|ms| - 1].latency]
  }

  function Failed(ms: seq<Measure>): seq<bool> {
    if ms == [] then [] else Failed(ms[..|ms| - 1]) + [!ms[|ms| - 1].ok]
  }

  /** The last `n` of a list, or all of it. */
  function LastOf(xs: seq<int>, n: int): seq<int> {
    if n <= 0 then [] else if n < |xs| then xs[|xs| - n..] else xs
  }

  lemma HistoryIsLast(xs: seq<int>, x: int, n: int)
    ensures AddToHistory(LastOf(xs, n), x, n) == LastOf(xs + [x], n)
  {
  }

  /** The history is the last HistorySize latencies; failures and successes in a row are the trailing runs. */
  ghost predicate Means(cfg: Config, t: Tally, latencies: seq<int>, failed: seq<bool>) {
    && t.totalRequests == |latencies|
    && t.responseTimes == LastOf(latencies, cfg.historySize)
    && t.consecutiveFailures == TrailingTrue(failed) && t.consecutiveSuccesses == TrailingTrue(Negated(failed))
  }

  function Negated(s: seq<bool>): seq<bool> {
    if s == [] then [] else Negated(s[..|s| - 1]) + [!s[|s| - 1]]
  }

  lemma ObservedMeans(cfg: Config, t: Tally, latencies: seq<int>, failed: seq<bool>, m: Measure)
    requires Means(cfg, t, latencies, failed)
    ensures Means(cfg, Observed(cfg, t, m.latency, m.ok), latencies + [m.latency], failed + [!m.ok])
  {
    HistoryIsLast(latencies, m.latency, cfg.historySize);
    TrailingExtended(failed, !m.ok);
    Snoc(failed, !m.ok);
    TrailingExtended(Negated(failed), m.ok);
  }

  /** In every run the tally means that of all the measurements. */
  lemma {:induction false} TallyMeaning(cfg: Config, ms: seq<Measure>)
    ensures |Latencies(ms)| == |ms| && Means(cfg, RunTally(cfg, ms), Latencies(ms), Failed(ms))
  {
    if ms != [] {
      var before := ms[..|ms| - 1];
      TallyMeaning(cfg, before);
      ObservedMeans(cfg, RunTally(cfg, before), Latencies(before), Failed(before), ms[|ms| - 1]);
    }
  }

  lemma AssessedInRange(cfg: Config, t: Tally, lastOk: bool)
    requires cfg.latencyThreshold > 0 && 0 <= t.consecutiveFailures
    ensures var a := Assessed(cfg, t, lastOk); 0.0 <= a.errorRate <= 1.0 && 0.0 <= a.score <= 1.0
  {
    var a := Assessed(cfg, t, lastOk);
    ScoreClosedForm(cfg.latencyThreshold, a.averageLatency, a.errorRate);
  }

  /** In every run, error rate and score stay in [0, 1]. */
  lemma HealthInRange(cfg: Config, ms: seq<Measure>)
    requires cfg.latencyThreshold > 0
    ensures var a := RunAssessment(cfg, ms); 0.0 <= a.errorRate <= 1.0 && 0.0 <= a.score <= 1.0
  {
    if ms != [] {
      TallyMeaning(cfg, ms);
      AssessedInRange(cfg, RunTally(cfg, ms), ms[|ms| - 1].ok);
    }
  }

  // ------------------------------------------------------------------------ the mutable objects

  class CircuitBreaker {
    const cfg: Config
    var state: State
    var failures: int
    var successes: int
    var requests: int
    var dynamicThreshold: real
    var lastUpdate: int
    var totalRequests: int
    var totalFailures: int
    var stateChanges: int

    function Model(): Breaker
      reads this
    {
      Breaker(state, failures, successes, requests, dynamicThreshold, lastUpdate,
              totalRequests, totalFailures, stateChanges)
    }

    constructor (cfg: Config, now: int)
      ensures this.cfg == cfg && Model() == NewBreaker(cfg, now)
    {
      this.cfg := cfg;
      state, failures, successes, requests := Closed, 0, 0, 0;
      dynamicThreshold, lastUpdate := cfg.failureThreshold as real, now;
      totalRequests, totalFailures, stateChanges := 0, 0, 0;
    }

    /** One step of a run: what the counters then mean is `CountersSummariseHistory`. */
    method UpdateCircuitBreaker(ok: bool, now: int)
      requires requests >= 0
      modifies this
      ensures requests >= 0 && Model() == Record(cfg, old(Model()), Sample(ok, now))
    {
      UpdateMetrics(ok);
      UpdateThresholdIfNeeded(now);
      ProcessStateTransition();
    }

    method UpdateThresholdIfNeeded(now: int)
      modifies this`dynamicThreshold, this`lastUpdate
      ensures Model() == Adapted(cfg, old(Model()), now)
    {
      if now - lastUpdate > FIVE_MINUTES {
        dynamicThreshold := DynamicThreshold(cfg, Model());
        lastUpdate := now;
      }
    }

    method ProcessStateTransition()
      requires requests > 0
      modifies this
      ensures Model() == Transitioned(old(Model()), NewState(cfg, old(Model())))
    {
      var newState := NewState(cfg, Model());
      if newState != state { TransitionTo(newState); }
    }

    method UpdateMetrics(ok: bool)
      modifies this
      ensures Model() == Counted(old(Model()), ok)
    {
      requests := requests + 1;
      totalRequests := totalRequests + 1;
      if !ok {
        failures := failures + 1;
        totalFailures := totalFailures + 1;
        successes := 0;
      } else {
        successes := successes + 1;
      }
    }

    method TransitionTo(newState: State)
      requires newState != state
      modifies this
      ensures Model() == Transitioned(old(Model()), newState)
    {
      var oldState := state;
      state := newState;
      stateChanges := stateChanges + 1;
      if newState == HalfOpen || (oldState == HalfOpen && newState == Closed) {
        failures := 0;
        requests := 0;
      }
    }
  }

  class EndpointHealthData {
    const cfg: Config
    var tally: Tally
    var health: Assessment

    constructor (cfg: Config)
      ensures this.cfg == cfg && tally == NEW_TALLY && health == UNMEASURED
    {
      this.cfg := cfg;
      tally, health := NEW_TALLY, UNMEASURED;
    }

    method RecordMetrics(latency: int, ok: bool)
      requires cfg.latencyThreshold != 0
      modifies this
      ensures tally == Observed(cfg, old(tally), latency, ok) && health == Assessed(cfg, tally, ok)
    {
      var times := tally.responseTimes + [latency];
      if |times| > cfg.historySize { times := times[1..]; }
      if ok {
        tally := Tally(tally.consecutiveSuccesses + 1, 0, times, tally.totalRequests + 1);
      } else {
        tally := Tally(0, tally.consecutiveFailures + 1, times, tally.totalRequests + 1);
      }
      var average := CalculateAverageLatency(times);
      var rate := ErrorRate(|times|, tally.consecutiveFailures, ok);
      var score := Score(cfg.latencyThreshold, average, rate);
      health := Assessment(average, rate, score,
                           IsHealthy(cfg, tally.consecutiveFailures, rate, average, score));
    }
  }

  method CalculateAverageLatency(latencies: seq<int>) returns (average: int)
    ensures average == AverageOf(latencies)
  {
    if |latencies| == 0 { return 0; }
    var total := 0;
    for i := 0 to |latencies|
      invariant total == SumOf(latencies[..i])
    {
      assert latencies[..i + 1][..i] == latencies[..i];
      total := total + latencies[i];
    }
    assert latencies[..|latencies|] == latencies;
    average := TruncDiv(total, |latencies|);
  }
}
