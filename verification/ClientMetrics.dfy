/**
 * Running metrics of a direct client, services/router/internal/direct/adaptive_request_handler.go:
 * latency extremes and truncated running average, error counters, error categories, and what of
 * them outlives a request.
 *
 * The updater works on the copy of the stored record that observability.go hands out, and nothing
 * stores that copy again.  Only the map of categories, which copies share, keeps what a request
 * adds.  The theorems on runs of updates are about a record its user keeps; those on the stored
 * record come after them.
 */
module ClientMetrics {
  import opened Common

  /** One finished request: how long it took and, if it failed, the error text. */
  datatype Sample = Sample(duration: int, error: Option<string>)

  datatype Latency = Latency(min: int, max: int, average: int)

  datatype ErrorStats = ErrorStats(
    errorCount: nat,
    consecutiveFailures: nat,
    isHealthy: bool,
    lastError: string,
    timeoutCount: nat,
    connectionErrors: nat,
    protocolErrors: nat)

  type Categories = map<string, nat>

  datatype Metrics = Metrics(requestCount: nat, latency: Latency, errors: ErrorStats, byType: Categories)

  const FRESH: Metrics := Metrics(0, Latency(0, 0, 0), ErrorStats(0, 0, true, "", 0, 0, 0), map[])

  const TIMEOUT := "timeout_error"
  const CONNECTION := "connection_error"
  const PROTOCOL := "protocol_error"
  const UNKNOWN := "unknown_error"

  // ---- One update -------------------------------------------------------------------------

  predicate OccursAt(s: string, sub: string, i: nat) {
    i + |sub| <= |s| && s[i..i + |sub|] == sub
  }

  predicate Contains(s: string, sub: string) {
    exists i :: 0 <= i <= |s| && OccursAt(s, sub, i)
  }

  /** The category of an error text; the first matching row decides. */
  function ErrorType(text: string): string {
    if Contains(text, "timeout") || Contains(text, "context deadline exceeded") then TIMEOUT
    else if Contains(text, "connection") || Contains(text, "network") then CONNECTION
    else if Contains(text, "protocol") then PROTOCOL
    else UNKNOWN
  }

  /** Containing a text is being it with something before and something after. */
  lemma ContainsMeaning(s: string, sub: string)
    ensures Contains(s, sub) <==> exists before, after :: s == before + sub + after
  {
    if Contains(s, sub) {
      var i :| 0 <= i <= |s| && OccursAt(s, sub, i);
      assert s == s[..i] + sub + s[i + |sub|..];
    }
    if before, after :| s == before + sub + after {
      assert OccursAt(s, sub, |before|);
    }
  }

  /** What each category is given for: timeouts before connections before protocols. */
  lemma CategoryMeaning(text: string)
    ensures var timeout := Contains(text, "timeout") || Contains(text, "context deadline exceeded");
            var connection := Contains(text, "connection") || Contains(text, "network");
            && (ErrorType(text) == TIMEOUT <==> timeout)
            && (ErrorType(text) == CONNECTION <==> !timeout && connection)
            && (ErrorType(text) == PROTOCOL <==> !timeout && !connection && Contains(text, "protocol"))
            && ErrorType(text) in {TIMEOUT, CONNECTION, PROTOCOL, UNKNOWN}
  {
    assert TIMEOUT[0] != CONNECTION[0] && TIMEOUT[0] != PROTOCOL[0] && TIMEOUT[0] != UNKNOWN[0];
    assert CONNECTION[0] != PROTOCOL[0] && CONNECTION[0] != UNKNOWN[0] && PROTOCOL[0] != UNKNOWN[0];
  }

  /** Latency statistics after the `n`-th sample. */
  function UpdatedLatency(l: Latency, n: nat, duration: int): Latency
    requires n > 0
  {
    if n == 1 then Latency(duration, duration, duration)
    else Latency(Min(duration, l.min), Max(duration, l.max), TruncDiv(l.average * (n - 1) + duration, n))
  }

  function Count(m: Categories, kind: string): nat { if kind in m then m[kind] else 0 }

  function OneMore(m: Categories, error: Option<string>): Categories {
    if error.None? then m else m[ErrorType(error.value) := Count(m, ErrorType(error.value)) + 1]
  }

  function UpdatedErrors(e: ErrorStats, error: Option<string>): ErrorStats {
    match error
    case None => e.(consecutiveFailures := 0, isHealthy := true)
    case Some(text) =>
      var kind := ErrorType(text);
      ErrorStats(e.errorCount + 1, e.consecutiveFailures + 1, false, text,
                 e.timeoutCount + (if kind == TIMEOUT then 1 else 0),
                 e.connectionErrors + (if kind == CONNECTION then 1 else 0),
                 e.protocolErrors + (if kind == PROTOCOL then 1 else 0))
  }

  function Update(m: Metrics, s: Sample): Metrics {
    var n := m.requestCount + 1;
    Metrics(n, UpdatedLatency(m.latency, n, s.duration), UpdatedErrors(m.errors, s.error),
            OneMore(m.byType, s.error))
  }

  /** A record that is kept through a run of samples, newest last. */
  function After(samples: seq<Sample>): Metrics {
    if samples == [] then FRESH else Update(After(samples[..|samples| - 1]), samples[|samples| - 1])
  }

  lemma {:induction false} CountIsLength(samples: seq<Sample>)
    ensures After(samples).requestCount == |samples|
  {
    if samples != [] { CountIsLength(samples[..|samples| - 1]); }
  }

  // ---- Latency ----------------------------------------------------------------------------

  function Sum(samples: seq<Sample>): int {
    if samples == [] then 0 else Sum(samples[..|samples| - 1]) + samples[|samples| - 1].duration
  }

  /** `l.min` and `l.max` are attained bounds of all the durations. */
  ghost predicate Extremes(l: Latency, samples: seq<Sample>) {
    && (forall i :: 0 <= i < |samples| ==> l.min <= samples[i].duration <= l.max)
    && (exists i :: 0 <= i < |samples| && samples[i].duration == l.min)
    && (exists i :: 0 <= i < |samples| && samples[i].duration == l.max)
  }

  lemma {:induction false} ExtremesAreTrue(samples: seq<Sample>)
    requires samples != []
    ensures Extremes(After(samples).latency, samples)
  {
    CountIsLength(samples);
    var last := |samples| - 1;
    CountIsLength(samples[..last]);
    if last == 0 {
      assert samples[0].duration == After(samples).latency.min;
    } else {
      ExtremesAreTrue(samples[..last]);
      ExtremesExtend(After(samples[..last]).latency, samples, After(samples).latency);
    }
  }

  lemma ExtremesExtend(l: Latency, samples: seq<Sample>, l': Latency)
    requires |samples| >= 2 && Extremes(l, samples[..|samples| - 1])
    requires l'.min == Min(samples[|samples| - 1].duration, l.min)
    requires l'.max == Max(samples[|samples| - 1].duration, l.max)
    ensures Extremes(l', samples)
  {
    var last := |samples| - 1;
    var before := samples[..last];
    var i :| 0 <= i < |before| && before[i].duration == l.min;
    var j :| 0 <= j < |before| && before[j].duration == l.max;
    assert samples[i] == before[i] && samples[j] == before[j] && samples[last].duration >= l'.min;
    forall k | 0 <= k < |samples| ensures l'.min <= samples[k].duration <= l'.max {
      if k < last { assert samples[k] == before[k]; }
    }
  }

  lemma ProductMonotone(a: int, b: int, n: nat)
    ensures a <= b ==> a * n <= b * n
  {
    if a <= b { assert (b - a) * n >= 0; }
  }

  lemma WithinProduct(n: nat, q: int, lo: int, hi: int, total: int)
    requires n > 0 && lo * n <= total <= hi * n && q == TruncDiv(total, n)
    ensures lo <= q <= hi
  {
    ProductMonotone(q + 1, lo, n);
    ProductMonotone(hi, q - 1, n);
  }

  lemma MeanOfTwo(n: nat, average: int, x: int, lo: int, hi: int)
    requires n > 1 && lo <= average <= hi && lo <= x <= hi
    ensures lo * n <= average * (n - 1) + x <= hi * n
  {
    ProductMonotone(lo, average, n - 1);
    ProductMonotone(average, hi, n - 1);
    assert lo * (n - 1) + lo == lo * n && hi * (n - 1) + hi == hi * n;
  }

  /** On a record that is kept, the running average never leaves the range of the samples. */
  lemma {:induction false} AverageBetweenExtremes(samples: seq<Sample>)
    requires samples != []
    ensures var l := After(samples).latency; l.min <= l.average <= l.max
  {
    CountIsLength(samples);
    var last := |samples| - 1;
    CountIsLength(samples[..last]);
    if last > 0 {
      AverageBetweenExtremes(samples[..last]);
      var l, l', x := After(samples[..last]).latency, After(samples).latency, samples[last].duration;
      MeanOfTwo(|samples|, l.average, x, l'.min, l'.max);
      WithinProduct(|samples|, l'.average, l'.min, l'.max, l.average * (|samples| - 1) + x);
    }
  }

  /** How far `n` times the average falls short of the sum. */
  function Shortfall(sum: int, average: int, n: nat): int { sum - average * n }

  function Lag(samples: seq<Sample>): int {
    Shortfall(Sum(samples), After(samples).latency.average, |samples|)
  }

  /** What one truncated division adds to the shortfall. */
  function Remainder(average: int, n: nat, x: int): int
    requires n > 0
  {
    average * (n - 1) + x - TruncDiv(average * (n - 1) + x, n) * n
  }

  lemma ShortfallStep(sum: int, average: int, n: nat, x: int)
    requires n > 0
    ensures Shortfall(sum + x, TruncDiv(average * (n - 1) + x, n), n)
            == Shortfall(sum, average, n - 1) + Remainder(average, n, x)
  {
  }

  lemma LagStep(samples: seq<Sample>)
    requires |samples| >= 2
    ensures var n := |samples|; var before := samples[..n - 1];
            Lag(samples) == Lag(before) + Remainder(After(before).latency.average, n, samples[n - 1].duration)
  {
    var n := |samples|;
    var before := samples[..n - 1];
    CountIsLength(before);
    ShortfallStep(Sum(before), After(before).latency.average, n, samples[n - 1].duration);
  }

  lemma LagBase(samples: seq<Sample>)
    requires |samples| == 1
    ensures Lag(samples) == 0
  {
    CountIsLength(samples);
    assert samples[..0] == [];
    assert Sum(samples) == Sum(samples[..0]) + samples[0].duration;
    assert After(samples).latency.average == samples[0].duration;
  }

  lemma LagGrows(n: int, lag: int, more: int)
    requires n >= 2 && -n < more < n
    requires -((n - 1) * (n - 2)) <= 2 * lag <= (n - 1) * (n - 2)
    ensures -(n * (n - 1)) <= 2 * (lag + more) <= n * (n - 1)
  {
    assert n * (n - 1) == (n - 1) * (n - 2) + 2 * (n - 1);
  }

  /** Truncation costs the average at most (n - 1) / 2 against the true mean, on either side. */
  lemma {:induction false} AverageNearMean(samples: seq<Sample>)
    requires samples != []
    ensures var n := |samples|; -(n * (n - 1)) <= 2 * Lag(samples) <= n * (n - 1)
  {
    if |samples| == 1 {
      LagBase(samples);
    } else {
      var n := |samples|;
      var before := samples[..n - 1];
      AverageNearMean(before);
      LagStep(samples);
      LagGrows(n, Lag(before), Lag(samples) - Lag(before));
    }
  }

  ghost predicate NoneNegative(samples: seq<Sample>) {
    forall i :: 0 <= i < |samples| ==> samples[i].duration >= 0
  }

  /** For durations that are not negative, as real ones are, the average never exceeds the true mean. */
  lemma {:induction false} AverageLagsMean(samples: seq<Sample>)
    requires samples != [] && NoneNegative(samples)
    ensures Lag(samples) >= 0
  {
    if |samples| == 1 {
      LagBase(samples);
    } else {
      var n := |samples|;
      var before := samples[..n - 1];
      AverageLagsMean(before);
      LagStep(samples);
      AverageBetweenExtremes(before);
      ExtremesAreTrue(before);
      RemainderNonNegative(After(before).latency.average, n, samples[n - 1].duration);
    }
  }

  lemma RemainderNonNegative(average: int, n: nat, x: int)
    requires average >= 0 && n >= 1 && x >= 0
    ensures Remainder(average, n, x) >= 0
  {
  }

  // ---- Errors -----------------------------------------------------------------------------

  function Failed(samples: seq<Sample>): seq<bool> {
    if samples == [] then []
    else Failed(samples[..|samples| - 1]) + [samples[|samples| - 1].error.Some?]
  }

  /** How many samples failed with an error of category `kind`. */
  function OfKind(samples: seq<Sample>, kind: string): nat {
    if samples == [] then 0
    else
      var last := samples[|samples| - 1].error;
      OfKind(samples[..|samples| - 1], kind) + (if last.Some? && ErrorType(last.value) == kind then 1 else 0)
  }

  function Failures(samples: seq<Sample>): nat {
    if samples == [] then 0
    else Failures(samples[..|samples| - 1]) + (if samples[|samples| - 1].error.Some? then 1 else 0)
  }

  /** The categories of `m` are those of `was` and of the samples since. */
  ghost predicate CategoriesGrew(m: Categories, was: Categories, samples: seq<Sample>) {
    forall kind :: Count(m, kind) == Count(was, kind) + OfKind(samples, kind)
  }

  lemma CategoriesStep(m: Categories, was: Categories, samples: seq<Sample>, s: Sample)
    requires CategoriesGrew(m, was, samples)
    ensures CategoriesGrew(OneMore(m, s.error), was, samples + [s])
  {
    Snoc(samples, s);
  }

  /** The counters count what their names say. */
  ghost predicate Tallied(m: Metrics, samples: seq<Sample>) {
    && m.errors.errorCount == Failures(samples) <= |samples|
    && m.errors.timeoutCount == OfKind(samples, TIMEOUT)
    && m.errors.connectionErrors == OfKind(samples, CONNECTION)
    && m.errors.protocolErrors == OfKind(samples, PROTOCOL)
    && CategoriesGrew(m.byType, map[], samples)
  }

  lemma TalliedStep(m: Metrics, samples: seq<Sample>, s: Sample)
    requires Tallied(m, samples)
    ensures Tallied(Update(m, s), samples + [s])
  {
    Snoc(samples, s);
    CategoriesStep(m.byType, map[], samples, s);
  }

  lemma {:induction false} CountersTally(samples: seq<Sample>)
    ensures Tallied(After(samples), samples)
  {
    if samples != [] {
      var before, s := samples[..|samples| - 1], samples[|samples| - 1];
      CountersTally(before);
      TalliedStep(After(before), before, s);
      assert before + [s] == samples;
    }
  }

  /** The four categories cover every failure once. */
  lemma {:induction false} CategoriesPartitionErrors(samples: seq<Sample>)
    ensures Failures(samples) == OfKind(samples, TIMEOUT) + OfKind(samples, CONNECTION)
                                 + OfKind(samples, PROTOCOL) + OfKind(samples, UNKNOWN)
  {
    assert TIMEOUT[0] != CONNECTION[0] && TIMEOUT[0] != PROTOCOL[0] && TIMEOUT[0] != UNKNOWN[0];
    assert CONNECTION[0] != PROTOCOL[0] && CONNECTION[0] != UNKNOWN[0] && PROTOCOL[0] != UNKNOWN[0];
    if samples != [] { CategoriesPartitionErrors(samples[..|samples| - 1]); }
  }

  /** The errors counted over all four categories. */
  function Total(m: Categories): nat {
    Count(m, TIMEOUT) + Count(m, CONNECTION) + Count(m, PROTOCOL) + Count(m, UNKNOWN)
  }

  lemma TotalGrew(m: Categories, was: Categories, samples: seq<Sample>)
    requires CategoriesGrew(m, was, samples)
    ensures Total(m) == Total(was) + Failures(samples)
  {
    CategoriesPartitionErrors(samples);
  }

  lemma {:induction false} StreakIsTrailing(samples: seq<Sample>)
    ensures After(samples).errors.consecutiveFailures == TrailingTrue(Failed(samples))
    ensures After(samples).errors.isHealthy <==> After(samples).errors.consecutiveFailures == 0
  {
    if samples != [] {
      var before := samples[..|samples| - 1];
      StreakIsTrailing(before);
      TrailingExtended(Failed(before), samples[|samples| - 1].error.Some?);
    }
  }

  /** On a record that is kept, the error counters describe the whole run. */
  lemma ErrorsDescribeRun(samples: seq<Sample>)
    ensures var m := After(samples);
            && Tallied(m, samples) && m.errors.errorCount == Total(m.byType)
            && m.errors.consecutiveFailures == TrailingTrue(Failed(samples))
            && (m.errors.isHealthy <==> m.errors.consecutiveFailures == 0)
  {
    CountersTally(samples);
    TotalGrew(After(samples).byType, map[], samples);
    StreakIsTrailing(samples);
  }

  // ---- What outlives a request ------------------------------------------------------------

  /** The stored record; without a map of its own, a request's copy makes one and takes it along. */
  datatype Entry = Entry(kept: Metrics, hasMap: bool)

  /** The copy a request leaves behind, which nobody stores. */
  function WorkingCopy(e: Entry, s: Sample): Metrics { Update(e.kept, s) }

  /** The stored record after a request: only the shared map has changed. */
  function Requested(e: Entry, s: Sample): Entry {
    if e.hasMap then e.(kept := e.kept.(byType := OneMore(e.kept.byType, s.error))) else e
  }

  function AfterRequests(e: Entry, samples: seq<Sample>): Entry {
    if samples == [] then e else Requested(AfterRequests(e, samples[..|samples| - 1]), samples[|samples| - 1])
  }

  /** Whatever requests follow, the stored record keeps everything but the categories of their errors. */
  lemma {:induction false} OnlyCategoriesSurvive(e: Entry, samples: seq<Sample>)
    ensures var after := AfterRequests(e, samples);
            && after == e.(kept := e.kept.(byType := after.kept.byType))
            && (if e.hasMap then CategoriesGrew(after.kept.byType, e.kept.byType, samples) else after == e)
  {
    if samples != [] {
      var before, s := samples[..|samples| - 1], samples[|samples| - 1];
      OnlyCategoriesSurvive(e, before);
      if e.hasMap {
        CategoriesStep(AfterRequests(e, before).kept.byType, e.kept.byType, before, s);
        assert before + [s] == samples;
      }
    }
  }

  /**
   * So no statistic accumulates over requests: each one's copy has the counts and the latency it
   * would have had as the first.
   */
  lemma EveryRequestIsTheFirst(e: Entry, samples: seq<Sample>, s: Sample)
    ensures var copy, first := WorkingCopy(AfterRequests(e, samples), s), WorkingCopy(e, s);
            copy == first.(byType := copy.byType)
  {
    OnlyCategoriesSurvive(e, samples);
  }

  /**
   * In a request's copy the categories add up to the error count exactly when, before it, the
   * stored categories and the failures since then did.
   */
  lemma CategoriesAgreeExactly(e: Entry, samples: seq<Sample>, s: Sample)
    requires e.hasMap
    ensures var copy := WorkingCopy(AfterRequests(e, samples), s);
            Total(copy.byType) == copy.errors.errorCount <==>
            Total(e.kept.byType) + Failures(samples) == e.kept.errors.errorCount
  {
    OnlyCategoriesSurvive(e, samples);
    var after := AfterRequests(e, samples);
    TotalGrew(after.kept.byType, e.kept.byType, samples);
    CategoriesStep(after.kept.byType, after.kept.byType, [], s);
    TotalGrew(OneMore(after.kept.byType, s.error), after.kept.byType, [s]);
  }

  // ---- What the manager stores ------------------------------------------------------------

  datatype Event =
    | Connected
    | ConnectFailed(text: string)
    | Request(s: Sample)
    | HealthOk
    | HealthFailed(text: string, monitored: bool)

  /** A failed connection is an error by category only: no error count goes with it. */
  function Disconnected(text: string): Entry {
    Entry(FRESH.(errors := ErrorStats(0, 1, false, text, 0, 1, 0), byType := map[CONNECTION := 1]), true)
  }

  /** A failed health check counts twice where monitoring is on: in place, and in the copy stored after it. */
  function Checked(m: Metrics, e: Event): Metrics
    requires e.HealthOk? || e.HealthFailed?
  {
    match e
    case HealthOk => m.(errors := m.errors.(isHealthy := true, consecutiveFailures := 0))
    case HealthFailed(text, monitored) =>
      m.(errors := m.errors.(isHealthy := false, lastError := text,
         consecutiveFailures := m.errors.consecutiveFailures + if monitored then 2 else 1))
  }

  function Step(store: Option<Entry>, e: Event): Option<Entry> {
    match e
    case Connected => Some(Entry(FRESH, true))
    case ConnectFailed(text) => Some(Disconnected(text))
    case Request(s) => if store.None? then None else Some(Requested(store.value, s))
    case HealthOk => if store.None? then None else Some(store.value.(kept := Checked(store.value.kept, e)))
    case HealthFailed(_, _) => if store.None? then None else Some(store.value.(kept := Checked(store.value.kept, e)))
  }

  function Run(es: seq<Event>): Option<Entry> {
    if es == [] then None else Step(Run(es[..|es| - 1]), es[|es| - 1])
  }

  /** The last attempt to connect, if any: whether it succeeded, and the requests since. */
  datatype Era = NoEra | Era(connected: bool, samples: seq<Sample>)

  function NextEra(era: Era, e: Event): Era {
    match e
    case Connected => Era(true, [])
    case ConnectFailed(_) => Era(false, [])
    case Request(s) => if era.NoEra? then era else era.(samples := era.samples + [s])
    case HealthOk => era
    case HealthFailed(_, _) => era
  }

  function EraOf(es: seq<Event>): Era {
    if es == [] then NoEra else NextEra(EraOf(es[..|es| - 1]), es[|es| - 1])
  }

  /** The categories an era begins with. */
  function Initial(era: Era): Categories { if era.Era? && !era.connected then map[CONNECTION := 1] else map[] }

  /** All the stored record knows of requests is the categories of the errors of its era. */
  ghost predicate Describes(store: Option<Entry>, era: Era) {
    && (store.Some? <==> era.Era?)
    && (era.Era? ==>
          var m := store.value.kept;
          && store.value.hasMap && CategoriesGrew(m.byType, Initial(era), era.samples)
          && m.requestCount == 0 && m.latency == Latency(0, 0, 0)
          && m.errors.errorCount == m.errors.timeoutCount == m.errors.protocolErrors == 0
          && m.errors.connectionErrors == if era.connected then 0 else 1)
  }

  lemma DescribesStep(store: Option<Entry>, era: Era, e: Event)
    requires Describes(store, era)
    ensures Describes(Step(store, e), NextEra(era, e))
  {
    if e.Request? && era.Era? {
      CategoriesStep(store.value.kept.byType, Initial(era), era.samples, e.s);
    }
  }

  /**
   * In every run of connections, requests and health checks the stored request and error counts
   * and latencies are zero, and the categories are exactly those of the errors since the last
   * attempt to connect, with that attempt itself if it failed.
   */
  lemma {:induction false} StoredRecordMeaning(es: seq<Event>)
    ensures Describes(Run(es), EraOf(es))
  {
    if es != [] {
      StoredRecordMeaning(es[..|es| - 1]);
      DescribesStep(Run(es[..|es| - 1]), EraOf(es[..|es| - 1]), es[|es| - 1]);
    }
  }

  /** The stored categories add up to the stored error count exactly when the era has seen no failure at all. */
  lemma StoredTotalsAgreeExactly(es: seq<Event>)
    requires Run(es).Some?
    ensures var m, era := Run(es).value.kept, EraOf(es);
            era.Era? && (Total(m.byType) == m.errors.errorCount <==> era.connected && Failures(era.samples) == 0)
  {
    StoredRecordMeaning(es);
    var era := EraOf(es);
    TotalGrew(Run(es).value.kept.byType, Initial(era), era.samples);
    assert Total(map[CONNECTION := 1]) >= 1;
    assert Total(map[]) == 0;
  }

  /** The latest connection attempt or health check that says how the client is doing. */
  function LatestVerdict(es: seq<Event>): Option<Event> {
    if es == [] then None
    else
      var e := es[|es| - 1];
      if !e.Request? then Some(e) else LatestVerdict(es[..|es| - 1])
  }

  /** Failures since the latest good verdict: one for a connection, one for a check, and one more if it is monitored. */
  function Streak(es: seq<Event>): nat {
    if es == [] then 0
    else
      var before := Streak(es[..|es| - 1]);
      match es[|es| - 1]
      case Connected => 0
      case ConnectFailed(_) => 1
      case HealthOk => 0
      case HealthFailed(_, monitored) => before + 1 + if monitored then 1 else 0
      case Request(_) => before
  }

  /** The text of the latest failure since the latest connection attempt. */
  function LatestError(es: seq<Event>): string {
    if es == [] then ""
    else
      match es[|es| - 1]
      case Connected => ""
      case ConnectFailed(text) => text
      case HealthFailed(text, _) => text
      case _ => LatestError(es[..|es| - 1])
  }

  predicate IsGood(e: Event) { e.Connected? || e.HealthOk? }

  /**
   * Once there is a record, in every run it calls the client healthy exactly when the latest verdict
   * was good, its streak and error are those of the failures since, and requests have no say in it.
   */
  lemma {:induction false} HealthMeaning(es: seq<Event>)
    requires Run(es).Some?
    ensures var e, verdict := Run(es).value.kept.errors, LatestVerdict(es);
            && verdict.Some? && (e.isHealthy <==> IsGood(verdict.value))
            && e.consecutiveFailures == Streak(es) && e.lastError == LatestError(es)
  {
    if Run(es[..|es| - 1]).Some? { HealthMeaning(es[..|es| - 1]); }
  }

  // ---- The objects ------------------------------------------------------------------------

  /** A map that several records may share. */
  class ErrorMap {
    var counts: Categories

    constructor ()
      ensures counts == map[]
    {
      counts := map[];
    }
  }

  /** The metrics record of one client, updated in place. */
  class DetailedClientMetrics {
    var requestCount: nat
    var minLatency: int
    var maxLatency: int
    var averageLatency: int
    var errors: ErrorStats
    var byType: ErrorMap?

    ghost function Model(): Metrics
      reads this, byType
    {
      Metrics(requestCount, Latency(minLatency, maxLatency, averageLatency), errors,
              if byType == null then map[] else byType.counts)
    }

    constructor ()
      ensures Model() == FRESH && byType != null && fresh(byType)
    {
      requestCount, minLatency, maxLatency, averageLatency := 0, 0, 0, 0;
      errors := FRESH.errors;
      byType := new ErrorMap();
    }

    /** A shallow copy: its map is the original's. */
    constructor CopyOf(m: DetailedClientMetrics)
      ensures Model() == m.Model() && byType == m.byType
    {
      requestCount, minLatency, maxLatency := m.requestCount, m.minLatency, m.maxLatency;
      averageLatency, errors, byType := m.averageLatency, m.errors, m.byType;
    }

    method UpdateLatencyStats(duration: int)
      requires requestCount > 0
      modifies `minLatency, `maxLatency, `averageLatency
      ensures Model().latency == UpdatedLatency(old(Model().latency), requestCount, duration)
    {
      if requestCount == 1 {
        minLatency, maxLatency, averageLatency := duration, duration, duration;
      } else {
        if duration < minLatency { minLatency := duration; }
        if duration > maxLatency { maxLatency := duration; }
        averageLatency := TruncDiv(averageLatency * (requestCount - 1) + duration, requestCount);
      }
    }

    /** The map grows in place; only where there is none is a new one made. */
    method CategorizeError(text: string)
      modifies `errors, `byType, byType
      ensures byType != null && (if old(byType) != null then byType == old(byType) else fresh(byType))
      ensures byType.counts == OneMore(old(Model().byType), Some(text))
      ensures var kind := ErrorType(text); var e := old(errors);
              errors == e.(timeoutCount := e.timeoutCount + (if kind == TIMEOUT then 1 else 0),
                           connectionErrors := e.connectionErrors + (if kind == CONNECTION then 1 else 0),
                           protocolErrors := e.protocolErrors + (if kind == PROTOCOL then 1 else 0))
    {
      if byType == null { byType := new ErrorMap(); }
      var kind := ErrorType(text);
      byType.counts := byType.counts[kind := Count(byType.counts, kind) + 1];
      if kind == TIMEOUT {
        errors := errors.(timeoutCount := errors.timeoutCount + 1);
      } else if kind == CONNECTION {
        errors := errors.(connectionErrors := errors.connectionErrors + 1);
      } else if kind == PROTOCOL {
        errors := errors.(protocolErrors := errors.protocolErrors + 1);
      }
    }

    method UpdateErrorStats(error: Option<string>)
      modifies `errors, `byType, byType
      ensures old(byType) != null ==> byType == old(byType)
      ensures byType != old(byType) ==> fresh(byType)
      ensures errors == UpdatedErrors(old(errors), error) && Model().byType == OneMore(old(Model().byType), error)
    {
      if error.None? {
        errors := errors.(consecutiveFailures := 0, isHealthy := true);
      } else {
        errors := errors.(errorCount := errors.errorCount + 1,
                          consecutiveFailures := errors.consecutiveFailures + 1,
                          isHealthy := false, lastError := error.value);
        CategorizeError(error.value);
      }
    }

    method Record(s: Sample)
      modifies this, byType
      ensures old(byType) != null ==> byType == old(byType)
      ensures byType != old(byType) ==> fresh(byType)
      ensures Model() == Update(old(Model()), s)
    {
      requestCount := requestCount + 1;
      UpdateLatencyStats(s.duration);
      UpdateErrorStats(s.error);
    }
  }

  /** The store of one client's record. */
  class ObservabilityManager {
    var stored: DetailedClientMetrics?

    ghost function Model(): Option<Entry>
      reads this, stored, if stored == null then {} else {stored.byType}
    {
      if stored == null then None else Some(Entry(stored.Model(), stored.byType != null))
    }

    constructor ()
      ensures Model() == None
    {
      stored := null;
    }

    method GetClientMetrics() returns (copy: DetailedClientMetrics?)
      ensures copy == null <==> stored == null
      ensures copy != null ==>
                fresh(copy) && copy.Model() == stored.Model() && copy.byType == stored.byType
    {
      copy := null;
      if stored != null { copy := new DetailedClientMetrics.CopyOf(stored); }
    }

    method RecordClientMetrics(metrics: DetailedClientMetrics)
      modifies this
      ensures stored == metrics
    {
      stored := metrics;
    }

    method RecordConnectionSuccess()
      modifies this
      ensures Model() == Step(old(Model()), Connected)
    {
      var metrics := new DetailedClientMetrics();
      RecordClientMetrics(metrics);
    }

    method RecordConnectionFailure(text: string)
      modifies this
      ensures Model() == Step(old(Model()), ConnectFailed(text))
    {
      var metrics := new DetailedClientMetrics();
      metrics.errors := metrics.errors.(lastError := text, consecutiveFailures := 1, isHealthy := false);
      metrics.byType.counts := metrics.byType.counts[CONNECTION := 1];
      metrics.errors := metrics.errors.(connectionErrors := 1);
      RecordClientMetrics(metrics);
    }

    /** A health check: in the stored record if it is monitored, then in a copy that replaces it. */
    method RecordHealth(e: Event)
      requires e.HealthOk? || e.HealthFailed?
      modifies this, stored
      ensures Model() == Step(old(Model()), e)
    {
      if stored != null && e.HealthFailed? && e.monitored {
        stored.errors := stored.errors.(lastError := e.text,
                                        consecutiveFailures := stored.errors.consecutiveFailures + 1);
      }
      var metrics := GetClientMetrics();
      if metrics == null { return; }
      if e.HealthOk? {
        metrics.errors := metrics.errors.(isHealthy := true, consecutiveFailures := 0);
      } else {
        metrics.errors := metrics.errors.(isHealthy := false, lastError := e.text,
                                          consecutiveFailures := metrics.errors.consecutiveFailures + 1);
      }
      RecordClientMetrics(metrics);
    }

    /** After a request: the copy is brought up to date and dropped. */
    method UpdateClientMetrics(s: Sample)
      modifies if stored == null then {} else {stored.byType}
      ensures stored == old(stored) && Model() == Step(old(Model()), Request(s))
    {
      var metrics := GetClientMetrics();
      if metrics == null { return; }
      metrics.Record(s);
    }
  }
}
