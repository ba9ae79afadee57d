/**
 * The Redis limiter behind a circuit breaker with an in-memory fallback
 * (services/gateway/internal/ratelimit/redis_circuit.go and ratelimit.go).
 *
 * Redis is a map of counters with optional expiry.  A pipeline may fail after applying any
 * part of its commands.  Concurrent calls of `Allow` interleave at the points where the code
 * holds no lock: the open test, the breaker's admission, each clock reading, the arrival of each
 * pipeline at Redis, the recording of the outcome and the fallback are separate steps.  A
 * pipeline names the bucket of the clock reading and is applied any time later.  Other gateways
 * may run their own pipelines against the same Redis at any time.
 */
module FaultTolerantLimiter {
  import opened Common
  import CB = CircuitBreakers
  import Mem = MemoryRateLimit

  // nanoseconds
  const BUCKET: int := 60_000_000_000
  const RATE_TTL: int := 61_000_000_000
  const BURST_BUCKET: int := 10_000_000_000
  const BURST_TTL: int := 11_000_000_000
  const FALLBACK_BURST_WINDOW: int := 10_000_000_000
  const BREAKER := CB.Config(5, 3, 30_000_000_000)

  /** How much longer a counter lives than its bucket. */
  const SLACK: int := 1_000_000_000

  // ------------------------------------------------------------------------------- Redis

  datatype Kind = Rate | Burst

  datatype RedisKey = RedisKey(kind: Kind, key: string, bucket: int)

  datatype Counter = Counter(count: nat, expiresAt: Option<int>)

  type Redis = map<RedisKey, Counter>

  /** How a pipeline of INCR and EXPIRE ended: all applied, or an error after some part was. */
  datatype Outcome = Done | Failed(incremented: bool, expirySet: bool)

  function Ttl(kind: Kind): int { if kind == Rate then RATE_TTL else BURST_TTL }

  function Length(kind: Kind): int { if kind == Rate then BUCKET else BURST_BUCKET }

  /** The counter that a clock reading selects. */
  function KeyAt(kind: Kind, key: string, at: int): RedisKey {
    RedisKey(kind, key, if kind == Rate then at / BUCKET else at / BURST_BUCKET)
  }

  predicate IsLive(db: Redis, k: RedisKey, now: int) {
    k in db && (db[k].expiresAt.Some? ==> now < db[k].expiresAt.value)
  }

  function CountOf(db: Redis, k: RedisKey, now: int): nat {
    if IsLive(db, k, now) then db[k].count else 0
  }

  function Incr(db: Redis, k: RedisKey, now: int): Redis {
    db[k := Counter(CountOf(db, k, now) + 1, if IsLive(db, k, now) then db[k].expiresAt else None)]
  }

  function Expire(db: Redis, k: RedisKey, now: int): Redis {
    if IsLive(db, k, now) then db[k := db[k].(expiresAt := Some(now + Ttl(k.kind)))] else db
  }

  /** The pipeline of `checkRateLimit` or `checkBurstLimit`, applied at `now`. */
  function Pipeline(db: Redis, k: RedisKey, now: int, o: Outcome): Redis {
    var db1 := if o.Done? || o.incremented then Incr(db, k, now) else db;
    if o.Done? || o.expirySet then Expire(db1, k, now) else db1
  }

  /** `k` counts at least `n` and cannot expire before `until`. */
  predicate Holds(db: Redis, k: RedisKey, n: nat, until: int) {
    k in db && n <= db[k].count && (db[k].expiresAt.Some? ==> until <= db[k].expiresAt.value)
  }

  /**
   * A counter that has to live until `until` survives any pipeline applied before then that does
   * not give it an earlier expiry, and a complete pipeline on that very counter raises it.
   */
  lemma PipelineKeepsCounters(db: Redis, k: RedisKey, now: int, o: Outcome, k': RedisKey, n: nat, until: int)
    requires Holds(db, k', n, until) && now < until
    requires k == k' ==> until <= now + Ttl(k.kind)
    ensures Holds(Pipeline(db, k, now, o), k', n, until)
    ensures k == k' && o.Done? ==> Holds(Pipeline(db, k, now, o), k', n + 1, until)
  {
  }

  // ------------------------------------------------------------------- interleaved calls

  /** Request `id` took one of the counts of a counter, read the clock at `time`, and was within the limit. */
  datatype Pass = Pass(id: nat, counter: RedisKey, time: int)

  datatype Stage =
    | Arrived
    | Calling
    | InRedis
    | RateSent(at: int)
    | NeedsBurst(rate: Pass)
    | BurstSent(rate: Pass, at: int)
    | Decided(verdict: bool, passes: set<Pass>)
    | Errored
    | UseFallback
    | Answered(answer: bool)

  datatype Job = Job(key: string, limits: Mem.Limits, stage: Stage)

  datatype Sys = Sys(
    clock: int,
    breaker: CB.Breaker,
    db: Redis,
    fallback: seq<Mem.Call>,
    jobs: map<nat, Job>,
    passed: set<Pass>,
    allowed: set<Pass>)

  datatype Event =
    | Arrive(id: nat, key: string, limits: Mem.Limits)
    | Advance(id: nat, now: int, outcome: Outcome)
    | Tick(now: int)
    | ResetBreaker
    | OtherGateway(kind: Kind, key: string, at: int, now: int, outcome: Outcome)

  const START := Sys(0, CB.INITIAL, map[], [], map[], {}, {})

  predicate Enabled(s: Sys, e: Event) {
    match e
    case Arrive(id, _, _) => id !in s.jobs
    case Advance(id, now, _) => id in s.jobs && !s.jobs[id].stage.Answered? && s.clock <= now
    case Tick(now) => s.clock <= now
    case ResetBreaker => true
    case OtherGateway(_, _, at, now, _) => s.clock <= now && at <= now
  }

  function MoveTo(s: Sys, id: nat, stage: Stage): Sys
    requires id in s.jobs
  {
    s.(jobs := s.jobs[id := s.jobs[id].(stage := stage)])
  }

  function PassOf(kind: Kind, id: nat, j: Job, at: int): Pass {
    Pass(id, KeyAt(kind, j.key, at), at)
  }

  /** The pipeline of `checkRateLimit` arrives, and the comparison that follows it. */
  function RateStep(s: Sys, id: nat, at: int, now: int, o: Outcome): Sys
    requires id in s.jobs
  {
    var j := s.jobs[id];
    var p := PassOf(Rate, id, j, at);
    var db' := Pipeline(s.db, p.counter, now, o);
    var s' := s.(db := db');
    if o.Failed? then MoveTo(s', id, Errored)
    else if CountOf(db', p.counter, now) > j.limits.requestsPerMinute then MoveTo(s', id, Decided(false, {}))
    else MoveTo(s'.(passed := s.passed + {p}), id,
                if j.limits.burst > 0 then NeedsBurst(p) else Decided(true, {p}))
  }

  /** The pipeline of `checkBurstLimit` arrives, and the comparison that follows it. */
  function BurstStep(s: Sys, id: nat, rate: Pass, at: int, now: int, o: Outcome): Sys
    requires id in s.jobs
  {
    var j := s.jobs[id];
    var p := PassOf(Burst, id, j, at);
    var db' := Pipeline(s.db, p.counter, now, o);
    var s' := s.(db := db');
    if o.Failed? then MoveTo(s', id, Errored)
    else if CountOf(db', p.counter, now) > j.limits.burst then MoveTo(s', id, Decided(false, {}))
    else MoveTo(s'.(passed := s.passed + {p}), id, Decided(true, {rate, p}))
  }

  function FallbackCall(j: Job, now: int): Mem.Call {
    Mem.Call(j.key, j.limits, now, FALLBACK_BURST_WINDOW)
  }

  function AdvanceStep(s: Sys, id: nat, now: int, o: Outcome): Sys
    requires id in s.jobs && !s.jobs[id].stage.Answered?
  {
    var j := s.jobs[id];
    match j.stage
    case Arrived => MoveTo(s, id, if s.breaker.state == CB.Open then UseFallback else Calling)
    case Calling => MoveTo(s, id, if s.breaker.state == CB.Open then UseFallback else InRedis)
    case InRedis => MoveTo(s, id, if j.limits.requestsPerMinute <= 0 then Decided(true, {}) else RateSent(now))
    case RateSent(at) => RateStep(s, id, at, now, o)
    case NeedsBurst(rate) => MoveTo(s, id, BurstSent(rate, now))
    case BurstSent(rate, at) => BurstStep(s, id, rate, at, now, o)
    case Decided(v, ps) =>
      MoveTo(s.(breaker := CB.Step(BREAKER, s.breaker, CB.End(true, now)), allowed := s.allowed + ps),
             id, Answered(v))
    case Errored =>
      MoveTo(s.(breaker := CB.Step(BREAKER, s.breaker, CB.End(false, now))), id, UseFallback)
    case UseFallback =>
      var c := FallbackCall(j, now);
      MoveTo(s.(fallback := s.fallback + [c]), id, Answered(Mem.Allows(Mem.Run(s.fallback), c)))
  }

  function Step(s: Sys, e: Event): Sys
    requires Enabled(s, e)
  {
    match e
    case Arrive(id, key, limits) => s.(jobs := s.jobs[id := Job(key, limits, Arrived)])
    case Advance(id, now, o) => AdvanceStep(s.(clock := now), id, now, o)
    case Tick(now) => s.(clock := now, breaker := CB.Step(BREAKER, s.breaker, CB.Tick(now)))
    case ResetBreaker => s.(breaker := CB.Step(BREAKER, s.breaker, CB.Reset))
    case OtherGateway(kind, key, at, now, o) =>
      s.(clock := now, db := Pipeline(s.db, KeyAt(kind, key, at), now, o))
  }

  /**
   * The terms a run is judged on: every request on `key` is limited, by the limit of this kind to
   * at most `limit`, and no successful pipeline of this kind for it reaches Redis more than
   * `delay` after its clock reading.
   */
  datatype Terms = Terms(key: string, kind: Kind, limit: int, delay: int)

  function LimitOf(kind: Kind, limits: Mem.Limits): int {
    if kind == Rate then limits.requestsPerMinute else limits.burst
  }

  predicate LimitsMeet(m: Terms, limits: Mem.Limits) {
    0 < limits.requestsPerMinute && 0 < LimitOf(m.kind, limits) <= m.limit
  }

  /** When the pipeline of this kind that the request is waiting for was given its bucket. */
  function SentAt(kind: Kind, stage: Stage): Option<int> {
    if kind == Rate && stage.RateSent? then Some(stage.at)
    else if kind == Burst && stage.BurstSent? then Some(stage.at)
    else None
  }

  predicate Meets(m: Terms, s: Sys, e: Event)
    requires Enabled(s, e)
  {
    match e
    case Arrive(_, key, limits) => key == m.key ==> LimitsMeet(m, limits)
    case Advance(id, now, o) =>
      var j := s.jobs[id];
      j.key == m.key && o.Done? && SentAt(m.kind, j.stage).Some? ==> now - SentAt(m.kind, j.stage).value <= m.delay
    case _ => true
  }

  /** `s` is reachable by a run on these terms. */
  ghost predicate Reaches(es: seq<Event>, m: Terms, s: Sys) {
    if es == [] then s == START
    else
      var e := es[|es| - 1];
      exists p :: Reaches(es[..|es| - 1], m, p) && Enabled(p, e) && Meets(m, p, e) && s == Step(p, e)
  }

  // ---------------------------------------------------------------------- what single steps do

  /**
   * What a pipeline leaves of a counter.  A complete one counts and renews the expiry.  One broken
   * off after INCR counts and leaves a live counter its expiry, but a new one without any; one that
   * got through EXPIRE only renews a live counter; one that got nowhere changes nothing.
   */
  lemma PipelineMeaning(db: Redis, k: RedisKey, now: int, o: Outcome)
    ensures var db', live := Pipeline(db, k, now, o), IsLive(db, k, now);
            var counts, renews := o.Done? || o.incremented, o.Done? || o.expirySet;
            && db' - {k} == db - {k}
            && (!counts && (!renews || !live) ==> db' == db)
            && (counts || (renews && live) ==>
                  && k in db' && db'[k].count == CountOf(db, k, now) + (if counts then 1 else 0)
                  && db'[k].expiresAt == if renews then Some(now + Ttl(k.kind))
                                         else if live then db[k].expiresAt else None)
  {
  }

  /** A request goes on to Redis exactly when the breaker is not open at either of the two tests. */
  lemma AdmittedExactly(s: Sys, id: nat, now: int, o: Outcome)
    requires id in s.jobs && (s.jobs[id].stage.Arrived? || s.jobs[id].stage.Calling?)
    ensures var stage := AdvanceStep(s, id, now, o).jobs[id].stage;
            && (stage == UseFallback <==> s.breaker.state == CB.Open)
            && (stage != UseFallback ==> stage == if s.jobs[id].stage.Arrived? then Calling else InRedis)
  {
  }

  /** What the breaker sees of a step: ticks, resets, and every call of Redis that ends. */
  function BreakerSees(s: Sys, e: Event): Option<CB.Event>
    requires Enabled(s, e)
  {
    match e
    case Tick(now) => Some(CB.Tick(now))
    case ResetBreaker => Some(CB.Reset)
    case Advance(id, now, _) =>
      if s.jobs[id].stage.Decided? then Some(CB.End(true, now))
      else if s.jobs[id].stage.Errored? then Some(CB.End(false, now))
      else None
    case _ => None
  }

  /** In every run the breaker is in the state its own events lead to, so all its laws hold here. */
  lemma {:induction false} BreakerRuns(es: seq<Event>, m: Terms, s: Sys) returns (bs: seq<CB.Event>)
    requires Reaches(es, m, s)
    ensures s.breaker == CB.Run(BREAKER, bs)
  {
    bs := [];
    if es != [] {
      var p := Unrolled(es, m, s);
      bs := BreakerRuns(es[..|es| - 1], m, p);
      BreakerStep(p, es[|es| - 1]);
      var b := BreakerSees(p, es[|es| - 1]);
      if b.Some? {
        Snoc(bs, b.value);
        bs := bs + [b.value];
      }
    }
  }

  lemma BreakerStep(s: Sys, e: Event)
    requires Enabled(s, e)
    ensures Step(s, e).breaker ==
            if BreakerSees(s, e).Some? then CB.Step(BREAKER, s.breaker, BreakerSees(s, e).value) else s.breaker
  {
  }

  /** The world is free: time passes, resets come, and other gateways count on the same counters. */
  lemma WorldIsFree(s: Sys, kind: Kind, key: string, at: int, now: int)
    requires s.clock <= now && at <= now
    ensures Enabled(s, Tick(now)) && Enabled(s, ResetBreaker) && Enabled(s, OtherGateway(kind, key, at, now, Done))
    ensures var k := KeyAt(kind, key, at);
            CountOf(Step(s, OtherGateway(kind, key, at, now, Done)).db, k, now) == CountOf(s.db, k, now) + 1
  {
  }

  // ------------------------------------------------------------------------- invariants

  /** The passes of counter `k` whose clock reading lies in [lo, hi). */
  function InWindow(ps: set<Pass>, k: RedisKey, lo: int, hi: int): set<Pass> {
    set p <- ps | p.counter == k && lo <= p.time < hi
  }

  predicate RateDone(stage: Stage) {
    !stage.Arrived? && !stage.Calling? && !stage.InRedis? && !stage.RateSent?
  }

  predicate BurstDone(stage: Stage) {
    RateDone(stage) && !stage.NeedsBurst? && !stage.BurstSent?
  }

  /** A pass belongs to a request that has this count behind it. */
  predicate PassOk(s: Sys, p: Pass) {
    && p.id in s.jobs && p.time <= s.clock
    && p.counter == KeyAt(p.counter.kind, s.jobs[p.id].key, p.time)
    && (if p.counter.kind == Rate then RateDone(s.jobs[p.id].stage) else BurstDone(s.jobs[p.id].stage))
  }

  predicate Own(s: Sys, id: nat, kind: Kind, p: Pass) {
    p in s.passed && p.id == id && p.counter.kind == kind
  }

  predicate OnlyOf(ps: set<Pass>, kind: Kind, p: Pass) {
    p in ps && forall q <- ps :: q.counter.kind == kind ==> q == p
  }

  ghost predicate HasOne(s: Sys, id: nat, kind: Kind, ps: set<Pass>) {
    exists p :: Own(s, id, kind, p) && OnlyOf(ps, kind, p)
  }

  /** The request has to pass this kind of counter. */
  predicate Counts(kind: Kind, limits: Mem.Limits) {
    0 < limits.requestsPerMinute && 0 < LimitOf(kind, limits)
  }

  /** A request carries the passes it has taken; one that Redis allows has one of each kind it needs. */
  ghost predicate JobOk(s: Sys, id: nat)
    requires id in s.jobs
  {
    var j := s.jobs[id];
    match j.stage
    case RateSent(at) => at <= s.clock
    case NeedsBurst(rate) => Own(s, id, Rate, rate)
    case BurstSent(rate, at) => Own(s, id, Rate, rate) && at <= s.clock
    case Decided(v, ps) =>
      && ps <= s.passed && (forall p <- ps :: p.id == id) && (!v ==> ps == {})
      && (v && Counts(Rate, j.limits) ==> HasOne(s, id, Rate, ps))
      && (v && Counts(Burst, j.limits) ==> HasOne(s, id, Burst, ps))
    case _ => true
  }

  ghost predicate JobsInv(s: Sys) {
    && (forall p <- s.passed :: PassOk(s, p))
    && (forall id <- s.jobs :: JobOk(s, id))
    && s.allowed <= s.passed
  }

  predicate LimitsInv(m: Terms, s: Sys) {
    forall id <- s.jobs :: s.jobs[id].key == m.key ==> LimitsMeet(m, s.jobs[id].limits)
  }

  /** While the counter must live, it has counted every pass of the window. */
  predicate WindowInv(s: Sys, k: RedisKey, limit: int, lo: int, hi: int) {
    var n := |InWindow(s.passed, k, lo, hi)|;
    n <= limit && (n > 0 && s.clock < lo + Ttl(k.kind) ==> Holds(s.db, k, n, lo + Ttl(k.kind)))
  }

  /** The fallback's calls came in clock order, and those on the key with limits as the terms demand. */
  predicate FallbackOk(m: Terms, calls: seq<Mem.Call>, clock: int) {
    && Mem.ClockOrdered(calls)
    && (calls != [] ==> calls[|calls| - 1].now <= clock)
    && (if m.kind == Rate then Mem.RateAtMost(calls, m.key, m.limit)
        else Mem.BurstAtMost(calls, m.key, m.limit, BURST_BUCKET))
  }

  predicate FallbackInv(m: Terms, s: Sys) { FallbackOk(m, s.fallback, s.clock) }

  // ---- jobs

  /** One job moves on, keeping its passes and perhaps taking one more. */
  lemma JobMoved(s: Sys, s': Sys, id: nat, stage: Stage)
    requires JobsInv(s) && id in s.jobs && s.clock <= s'.clock
    requires s'.jobs == s.jobs[id := s.jobs[id].(stage := stage)]
    requires s.passed <= s'.passed && s'.allowed <= s'.passed
    requires forall p <- s'.passed :: p in s.passed || (p.id == id && PassOk(s', p))
    requires RateDone(s.jobs[id].stage) ==> RateDone(stage)
    requires BurstDone(s.jobs[id].stage) ==> BurstDone(stage)
    requires JobOk(s', id)
    ensures JobsInv(s')
  {
    forall p <- s'.passed ensures PassOk(s', p) {
      if p in s.passed { assert PassOk(s, p); }
    }
    forall i <- s'.jobs ensures JobOk(s', i) {
      if i != id { OthersOk(s, s', i); }
    }
  }

  lemma HasOneStill(s: Sys, s': Sys, id: nat, kind: Kind, ps: set<Pass>)
    requires HasOne(s, id, kind, ps) && s.passed <= s'.passed
    ensures HasOne(s', id, kind, ps)
  {
    var p :| Own(s, id, kind, p) && OnlyOf(ps, kind, p);
    assert Own(s', id, kind, p);
  }

  lemma OthersOk(s: Sys, s': Sys, i: nat)
    requires i in s.jobs && i in s'.jobs && s'.jobs[i] == s.jobs[i] && JobOk(s, i)
    requires s.clock <= s'.clock && s.passed <= s'.passed
    ensures JobOk(s', i)
  {
    var j := s.jobs[i];
    if j.stage.Decided? && j.stage.verdict {
      if Counts(Rate, j.limits) { HasOneStill(s, s', i, Rate, j.stage.passes); }
      if Counts(Burst, j.limits) { HasOneStill(s, s', i, Burst, j.stage.passes); }
    }
  }

  lemma RateMoved(s: Sys, id: nat, at: int, now: int, o: Outcome)
    requires JobsInv(s) && id in s.jobs && s.jobs[id].stage == RateSent(at) && s.clock == now
    ensures JobsInv(RateStep(s, id, at, now, o))
  {
    var s' := RateStep(s, id, at, now, o);
    var p := PassOf(Rate, id, s.jobs[id], at);
    assert at <= now by { assert JobOk(s, id); }
    if p in s'.passed { assert Own(s', id, Rate, p) && OnlyOf({p}, Rate, p); }
    JobMoved(s, s', id, s'.jobs[id].stage);
  }

  lemma BurstMoved(s: Sys, id: nat, rate: Pass, at: int, now: int, o: Outcome)
    requires JobsInv(s) && id in s.jobs && s.jobs[id].stage == BurstSent(rate, at) && s.clock == now
    ensures JobsInv(BurstStep(s, id, rate, at, now, o))
  {
    var s' := BurstStep(s, id, rate, at, now, o);
    var p := PassOf(Burst, id, s.jobs[id], at);
    assert Own(s, id, Rate, rate) && at <= now by { assert JobOk(s, id); }
    if p in s'.passed {
      assert Own(s', id, Rate, rate) && OnlyOf({rate, p}, Rate, rate);
      assert Own(s', id, Burst, p) && OnlyOf({rate, p}, Burst, p);
    }
    JobMoved(s, s', id, s'.jobs[id].stage);
  }

  lemma JobsAdvance(s: Sys, id: nat, now: int, o: Outcome)
    requires JobsInv(s) && id in s.jobs && !s.jobs[id].stage.Answered? && s.clock == now
    ensures JobsInv(AdvanceStep(s, id, now, o))
  {
    var stage, s' := s.jobs[id].stage, AdvanceStep(s, id, now, o);
    assert JobOk(s, id);
    if stage.RateSent? {
      RateMoved(s, id, stage.at, now, o);
    } else if stage.BurstSent? {
      BurstMoved(s, id, stage.rate, stage.at, now, o);
    } else {
      JobMoved(s, s', id, s'.jobs[id].stage);
    }
  }

  lemma JobsElsewhere(s: Sys, s': Sys)
    requires JobsInv(s) && s.clock <= s'.clock && s'.passed == s.passed && s'.allowed == s.allowed
    requires forall i <- s.jobs :: i in s'.jobs && s'.jobs[i] == s.jobs[i]
    requires forall i <- s'.jobs :: i in s.jobs || s'.jobs[i].stage == Arrived
    ensures JobsInv(s')
  {
    forall p <- s'.passed ensures PassOk(s', p) { assert PassOk(s, p); }
    forall i <- s'.jobs ensures JobOk(s', i) {
      if i in s.jobs { OthersOk(s, s', i); }
    }
  }

  lemma JobsStep(s: Sys, e: Event)
    requires Enabled(s, e) && JobsInv(s)
    ensures JobsInv(Step(s, e))
  {
    if e.Advance? {
      var s1 := s.(clock := e.now);
      JobsElsewhere(s, s1);
      JobsAdvance(s1, e.id, e.now, e.outcome);
    } else {
      JobsElsewhere(s, Step(s, e));
    }
  }

  // ---- windows

  lemma AddPass(ps: set<Pass>, p: Pass, k: RedisKey, lo: int, hi: int)
    requires p !in ps
    ensures |InWindow(ps + {p}, k, lo, hi)| ==
            |InWindow(ps, k, lo, hi)| + if p.counter == k && lo <= p.time < hi then 1 else 0
  {
    if p.counter == k && lo <= p.time < hi {
      assert InWindow(ps + {p}, k, lo, hi) == InWindow(ps, k, lo, hi) + {p};
    } else {
      assert InWindow(ps + {p}, k, lo, hi) == InWindow(ps, k, lo, hi);
    }
  }

  /** Pipelines by anyone, on any counter, however late, keep what the window has counted. */
  lemma WindowKept(s: Sys, k: RedisKey, limit: int, lo: int, hi: int, now: int, k': RedisKey, o: Outcome)
    requires JobsInv(s) && WindowInv(s, k, limit, lo, hi) && s.clock <= now
    ensures WindowInv(s.(clock := now, db := Pipeline(s.db, k', now, o)), k, limit, lo, hi)
  {
    var window := InWindow(s.passed, k, lo, hi);
    if |window| > 0 && now < lo + Ttl(k.kind) {
      var p :| p in window;
      assert PassOk(s, p);
      PipelineKeepsCounters(s.db, k', now, o, k, |window|, lo + Ttl(k.kind));
    }
  }

  /** A request within its limit takes a count the window still had free, if it comes in time. */
  lemma WindowPass(s: Sys, p: Pass, k: RedisKey, limit: int, lo: int, hi: int, delay: int)
    requires JobsInv(s) && WindowInv(s, k, limit, lo, hi) && p !in s.passed && p.time <= s.clock
    requires hi - lo + delay <= Ttl(k.kind)
    requires var db := Pipeline(s.db, p.counter, s.clock, Done);
             p.counter == k ==> s.clock - p.time <= delay && CountOf(db, k, s.clock) <= limit
    ensures var db := Pipeline(s.db, p.counter, s.clock, Done);
            WindowInv(s.(db := db, passed := s.passed + {p}), k, limit, lo, hi)
  {
    AddPass(s.passed, p, k, lo, hi);
    var n, db := |InWindow(s.passed, k, lo, hi)|, Pipeline(s.db, p.counter, s.clock, Done);
    if p.counter == k && lo <= p.time < hi {
      assert s.clock < lo + Ttl(k.kind);
      if n > 0 { PipelineKeepsCounters(s.db, k, s.clock, Done, k, n, lo + Ttl(k.kind)); }
      assert Holds(db, k, n + 1, lo + Ttl(k.kind));
    } else {
      WindowKept(s, k, limit, lo, hi, s.clock, p.counter, Done);
    }
  }

  /** A counter of the terms' key and kind, and a window on it that the delay leaves safe. */
  predicate Safe(m: Terms, k: RedisKey, lo: int, hi: int) {
    k.key == m.key && k.kind == m.kind && hi - lo + m.delay <= Ttl(m.kind)
  }

  /** Either kind of pipeline arrives for request `id`. */
  lemma WindowArrival(m: Terms, s: Sys, id: nat, p: Pass, o: Outcome, k: RedisKey, lo: int, hi: int)
    requires JobsInv(s) && LimitsInv(m, s) && WindowInv(s, k, m.limit, lo, hi) && Safe(m, k, lo, hi)
    requires id in s.jobs && p == PassOf(p.counter.kind, id, s.jobs[id], p.time) && p.time <= s.clock
    requires if p.counter.kind == Rate then !RateDone(s.jobs[id].stage) else !BurstDone(s.jobs[id].stage)
    requires p.counter == k && o.Done? ==> s.clock - p.time <= m.delay
    ensures var db := Pipeline(s.db, p.counter, s.clock, o);
            && WindowInv(s.(db := db), k, m.limit, lo, hi)
            && (o.Done? && CountOf(db, p.counter, s.clock) <= LimitOf(p.counter.kind, s.jobs[id].limits) ==>
                  WindowInv(s.(db := db, passed := s.passed + {p}), k, m.limit, lo, hi))
  {
    WindowKept(s, k, m.limit, lo, hi, s.clock, p.counter, o);
    if p in s.passed { assert PassOk(s, p); }
    if o.Done? && CountOf(Pipeline(s.db, p.counter, s.clock, o), p.counter, s.clock)
                  <= LimitOf(p.counter.kind, s.jobs[id].limits) {
      WindowPass(s, p, k, m.limit, lo, hi, m.delay);
    }
  }

  lemma WindowAdvance(m: Terms, s: Sys, id: nat, now: int, o: Outcome, k: RedisKey, lo: int, hi: int)
    requires JobsInv(s) && LimitsInv(m, s) && WindowInv(s, k, m.limit, lo, hi) && Safe(m, k, lo, hi)
    requires id in s.jobs && !s.jobs[id].stage.Answered? && s.clock == now
    requires Enabled(s, Advance(id, now, o)) && Meets(m, s, Advance(id, now, o))
    ensures WindowInv(AdvanceStep(s, id, now, o), k, m.limit, lo, hi)
  {
    var j := s.jobs[id];
    assert JobOk(s, id);
    match j.stage
    case RateSent(at) => WindowArrival(m, s, id, PassOf(Rate, id, j, at), o, k, lo, hi);
    case BurstSent(_, at) => WindowArrival(m, s, id, PassOf(Burst, id, j, at), o, k, lo, hi);
    case _ =>
  }

  lemma WindowStep(m: Terms, s: Sys, e: Event, k: RedisKey, lo: int, hi: int)
    requires Enabled(s, e) && Meets(m, s, e)
    requires JobsInv(s) && LimitsInv(m, s) && WindowInv(s, k, m.limit, lo, hi) && Safe(m, k, lo, hi)
    ensures WindowInv(Step(s, e), k, m.limit, lo, hi)
  {
    match e
    case Advance(id, now, o) =>
      var s1 := s.(clock := now);
      JobsElsewhere(s, s1);
      WindowAdvance(m, s1, id, now, o, k, lo, hi);
    case OtherGateway(kind, key, at, now, o) => WindowKept(s, k, m.limit, lo, hi, now, KeyAt(kind, key, at), o);
    case _ =>
  }

  // ---- the fallback and the limits

  lemma FallbackGrows(m: Terms, calls: seq<Mem.Call>, clock: int, c: Mem.Call)
    requires FallbackOk(m, calls, clock) && clock <= c.now
    requires c.key == m.key ==> LimitsMeet(m, c.limits) && BURST_BUCKET <= Min(c.burstWindow, Mem.MINUTE)
    ensures FallbackOk(m, calls + [c], c.now)
  {
    Snoc(calls, c);
  }

  /** Only a request sent to the fallback adds a call, and that with its own key and limits. */
  lemma FallbackAsked(s: Sys, e: Event)
    requires Enabled(s, e)
    ensures s.clock <= Step(s, e).clock
    ensures Step(s, e).fallback ==
            if e.Advance? && s.jobs[e.id].stage.UseFallback?
            then s.fallback + [Mem.Call(s.jobs[e.id].key, s.jobs[e.id].limits, e.now, FALLBACK_BURST_WINDOW)]
            else s.fallback
    ensures e.Advance? ==> Step(s, e).clock == e.now
  {
  }

  lemma FallbackStep(m: Terms, s: Sys, e: Event)
    requires Enabled(s, e) && LimitsInv(m, s) && FallbackInv(m, s)
    ensures FallbackInv(m, Step(s, e))
  {
    FallbackAsked(s, e);
    if e.Advance? && s.jobs[e.id].stage.UseFallback? {
      var j := s.jobs[e.id];
      FallbackGrows(m, s.fallback, s.clock, Mem.Call(j.key, j.limits, e.now, FALLBACK_BURST_WINDOW));
    }
  }

  lemma LimitsStep(m: Terms, s: Sys, e: Event)
    requires Enabled(s, e) && Meets(m, s, e) && LimitsInv(m, s)
    ensures LimitsInv(m, Step(s, e))
  {
  }

  /** The last step of a run. */
  lemma Unrolled(es: seq<Event>, m: Terms, s: Sys) returns (p: Sys)
    requires es != [] && Reaches(es, m, s)
    ensures var e := es[|es| - 1];
            Reaches(es[..|es| - 1], m, p) && Enabled(p, e) && Meets(m, p, e) && s == Step(p, e)
  {
    var e := es[|es| - 1];
    p :| Reaches(es[..|es| - 1], m, p) && Enabled(p, e) && Meets(m, p, e) && s == Step(p, e);
  }

  /** Every reachable state, whatever the delays, knows its passes and keeps the limits. */
  lemma {:induction false} ReachableInv(es: seq<Event>, m: Terms, s: Sys)
    requires Reaches(es, m, s)
    ensures JobsInv(s) && LimitsInv(m, s) && FallbackInv(m, s)
  {
    if es != [] {
      var p := Unrolled(es, m, s);
      ReachableInv(es[..|es| - 1], m, p);
      JobsStep(p, es[|es| - 1]);
      LimitsStep(m, p, es[|es| - 1]);
      FallbackStep(m, p, es[|es| - 1]);
    }
  }

  lemma {:induction false} WindowReachable(es: seq<Event>, m: Terms, s: Sys, k: RedisKey, lo: int, hi: int)
    requires 0 < m.limit && Reaches(es, m, s) && Safe(m, k, lo, hi)
    ensures WindowInv(s, k, m.limit, lo, hi)
  {
    if es != [] {
      var p := Unrolled(es, m, s);
      WindowReachable(es[..|es| - 1], m, p, k, lo, hi);
      ReachableInv(es[..|es| - 1], m, p);
      WindowStep(m, p, es[|es| - 1], k, lo, hi);
    } else {
      assert InWindow(s.passed, k, lo, hi) == {};
    }
  }

  // ----------------------------------------------------------------------- main results

  lemma {:induction false} SubsetSize<T>(a: set<T>, b: set<T>)
    requires a <= b
    ensures |a| <= |b|
  {
    assert b == a + (b - a);
  }

  lemma UnionSize<T>(a: set<T>, b: set<T>)
    ensures |a + b| <= |a| + |b|
  {
    assert a + b == a + (b - a);
    SubsetSize(b - a, b);
  }

  /**
   * In every run, of the requests that read the clock in a window, one counter lets at most its
   * limit through, as long as window and delay together fit into the counter's life.
   */
  lemma WindowBound(es: seq<Event>, m: Terms, s: Sys, k: RedisKey, lo: int, hi: int)
    requires 0 < m.limit && Reaches(es, m, s) && Safe(m, k, lo, hi)
    ensures |InWindow(s.allowed, k, lo, hi)| <= m.limit
  {
    ReachableInv(es, m, s);
    WindowReachable(es, m, s, k, lo, hi);
    SubsetSize(InWindow(s.allowed, k, lo, hi), InWindow(s.passed, k, lo, hi));
  }

  /** The requests let through by one counter. */
  function InBucket(ps: set<Pass>, k: RedisKey): set<Pass> {
    set p <- ps | p.counter == k
  }

  /** No counter of the key ever lets more than its limit through. */
  ghost predicate BucketsKeepLimit(m: Terms) {
    forall es, s, k: RedisKey :: Reaches(es, m, s) && k.key == m.key && k.kind == m.kind ==>
      |InBucket(s.allowed, k)| <= m.limit
  }

  function StartOf(k: RedisKey): int {
    if k.kind == Rate then k.bucket * BUCKET else k.bucket * BURST_BUCKET
  }

  /**
   * In every run whose pipelines come within a second of their clock reading, an aligned bucket
   * lets at most the limit through: a minute's bucket the rate limit, ten seconds' the burst limit.
   */
  lemma BucketBound(es: seq<Event>, m: Terms, s: Sys, k: RedisKey)
    requires 0 < m.limit && m.delay <= SLACK && Reaches(es, m, s) && k.key == m.key && k.kind == m.kind
    ensures |InBucket(s.allowed, k)| <= m.limit
  {
    ReachableInv(es, m, s);
    var lo := StartOf(k);
    var hi := lo + Length(k.kind);
    forall p <- InBucket(s.allowed, k) ensures p in InWindow(s.allowed, k, lo, hi) {
      assert PassOk(s, p);
    }
    assert InBucket(s.allowed, k) == InWindow(s.allowed, k, lo, hi);
    WindowBound(es, m, s, k, lo, hi);
  }

  /** The requests Redis let through on `key` whose clock reading for this kind lies in [lo, hi). */
  function InSpan(ps: set<Pass>, kind: Kind, key: string, lo: int, hi: int): set<Pass> {
    set p <- ps | p.counter.kind == kind && p.counter.key == key && lo <= p.time < hi
  }

  /** Accepts on the key in the minute, or the ten seconds, from `a`: through Redis and from the fallback. */
  function Accepts(s: Sys, kind: Kind, key: string, a: int): nat {
    |InSpan(s.allowed, kind, key, a, a + Length(kind))|
    + Mem.CountIn(Mem.History(s.fallback, key), a, a + Length(kind))
  }

  /** Where a span that begins at `a` is cut: at the end of its bucket, or right away if it begins with one. */
  function CutOf(kind: Kind, key: string, a: int): (RedisKey, RedisKey, int) {
    var k := KeyAt(kind, key, a);
    if a == StartOf(k) then (k, k, a + 1)
    else (k, k.(bucket := k.bucket + 1), StartOf(k.(bucket := k.bucket + 1)))
  }

  lemma CutIsInside(kind: Kind, key: string, a: int)
    ensures var (k, k', cut) := CutOf(kind, key, a); a < cut < a + Length(kind)
  {
  }

  /** A clock reading in the span belongs to the counter of its side of the cut. */
  lemma SideOfCut(kind: Kind, key: string, a: int, t: int)
    requires a <= t < a + Length(kind)
    ensures var (k, k', cut) := CutOf(kind, key, a); KeyAt(kind, key, t) == if t < cut then k else k'
  {
  }

  /** A span as long as a bucket divides into two shorter windows, each on a single counter. */
  lemma SpanSplits(s: Sys, kind: Kind, key: string, a: int)
    requires JobsInv(s)
    ensures var (k, k', cut) := CutOf(kind, key, a); var end := a + Length(kind);
            |InSpan(s.allowed, kind, key, a, end)| <=
            |InWindow(s.allowed, k, a, cut)| + |InWindow(s.allowed, k', cut, end)|
  {
    var (k, k', cut) := CutOf(kind, key, a);
    var end := a + Length(kind);
    var first, second := InWindow(s.allowed, k, a, cut), InWindow(s.allowed, k', cut, end);
    forall p <- InSpan(s.allowed, kind, key, a, end) ensures p in first + second {
      assert PassOk(s, p);
      SideOfCut(kind, key, a, p.time);
    }
    SubsetSize(InSpan(s.allowed, kind, key, a, end), first + second);
    UnionSize(first, second);
  }

  lemma RedisSpanBound(es: seq<Event>, m: Terms, s: Sys, a: int)
    requires 0 < m.limit && m.delay <= SLACK + 1 && Reaches(es, m, s)
    ensures |InSpan(s.allowed, m.kind, m.key, a, a + Length(m.kind))| <= 2 * m.limit
  {
    var (k, k', cut) := CutOf(m.kind, m.key, a);
    CutIsInside(m.kind, m.key, a);
    WindowBound(es, m, s, k, a, cut);
    WindowBound(es, m, s, k', cut, a + Length(m.kind));
    SplitReached(es, m, s, a);
  }

  lemma SplitReached(es: seq<Event>, m: Terms, s: Sys, a: int)
    requires Reaches(es, m, s)
    ensures var (k, k', cut) := CutOf(m.kind, m.key, a); var end := a + Length(m.kind);
            |InSpan(s.allowed, m.kind, m.key, a, end)| <=
            |InWindow(s.allowed, k, a, cut)| + |InWindow(s.allowed, k', cut, end)|
  {
    ReachableInv(es, m, s);
    SpanSplits(s, m.kind, m.key, a);
  }

  /** In every run the fallback by itself keeps the limit: the rate over a minute, the burst over ten seconds. */
  lemma FallbackBound(es: seq<Event>, m: Terms, s: Sys, a: int)
    requires 0 < m.limit && Reaches(es, m, s)
    ensures Mem.CountIn(Mem.History(s.fallback, m.key), a, a + Length(m.kind)) <= m.limit
  {
    ReachableInv(es, m, s);
    if m.kind == Rate {
      Mem.RateBound(s.fallback, m.key, m.limit, a);
    } else {
      Mem.BurstBound(s.fallback, m.key, m.limit, BURST_BUCKET, a);
    }
  }

  /**
   * In every run and every interleaving in which no successful pipeline of the kind for the key
   * comes more than a second late, whatever else Redis, the breaker and other gateways do, any
   * span as long as a bucket holds at most three times the limit: once on each of the two counters
   * it touches, and once from the fallback.  So much for the rate over any minute, and for the
   * burst over any ten seconds.
   */
  lemma SpanBound(es: seq<Event>, m: Terms, s: Sys, a: int)
    requires 0 < m.limit && m.delay <= SLACK + 1 && Reaches(es, m, s)
    ensures Accepts(s, m.kind, m.key, a) <= 3 * m.limit
  {
    RedisSpanBound(es, m, s, a);
    FallbackBound(es, m, s, a);
  }

  // ------------------------------------------------------------- beyond the allowed delay

  lemma Extended(es: seq<Event>, m: Terms, s: Sys, e: Event) returns (es': seq<Event>, s': Sys)
    requires Reaches(es, m, s) && Enabled(s, e) && Meets(m, s, e)
    ensures Reaches(es', m, s') && s' == Step(s, e)
  {
    es', s' := es + [e], Step(s, e);
    Snoc(es, e);
  }

  /** What a complete pipeline leaves: one count more, and a new lease of life. */
  function Bumped(db: Redis, k: RedisKey, now: int): Redis {
    db[k := Counter(CountOf(db, k, now) + 1, Some(now + Ttl(k.kind)))]
  }

  lemma DoneBumps(db: Redis, k: RedisKey, now: int)
    ensures Pipeline(db, k, now, Done) == Bumped(db, k, now)
  {
  }

  /** Calls go to Redis. */
  predicate Calm(s: Sys) { s.breaker.state == CB.Closed }

  /** `s` at time `now` with the new request `id`, a job at the given stage. */
  function With(s: Sys, id: nat, now: int, key: string, limits: Mem.Limits, stage: Stage): Sys {
    s.(clock := now, jobs := s.jobs[id := Job(key, limits, stage)])
  }

  /** A step that only moves the request on. */
  lemma Moves(es: seq<Event>, m: Terms, s: Sys, id: nat, now: int, limits: Mem.Limits, from: Stage, to: Stage)
    returns (es': seq<Event>)
    requires Calm(s) && LimitsMeet(m, limits) && Reaches(es, m, With(s, id, now, m.key, limits, from))
    requires (from == Arrived && to == Calling) || (from == Calling && to == InRedis)
             || (from == InRedis && to == RateSent(now))
    ensures Reaches(es', m, With(s, id, now, m.key, limits, to))
  {
    var s', t := With(s, id, now, m.key, limits, from), With(s, id, now, m.key, limits, to);
    assert Step(s', Advance(id, now, Done)).jobs == t.jobs;
    var t';
    es', t' := Extended(es, m, s', Advance(id, now, Done));
    assert t' == t;
  }

  /** A request arrives, is admitted and reads the clock. */
  lemma Sends(es: seq<Event>, m: Terms, s: Sys, id: nat, limits: Mem.Limits, at: int)
    returns (es': seq<Event>, s': Sys)
    requires Reaches(es, m, s) && id !in s.jobs && Calm(s) && s.clock <= at && LimitsMeet(m, limits)
    ensures Reaches(es', m, s') && s' == With(s, id, at, m.key, limits, RateSent(at))
  {
    es', s' := Extended(es, m, s, Tick(at));
    var t := s';
    assert t == s.(clock := at);
    es', s' := Extended(es', m, t, Arrive(id, m.key, limits));
    es' := Moves(es', m, t, id, at, limits, Arrived, Calling);
    es' := Moves(es', m, t, id, at, limits, Calling, InRedis);
    es' := Moves(es', m, t, id, at, limits, InRedis, RateSent(at));
    s' := With(s, id, at, m.key, limits, RateSent(at));
  }

  /** The outcome of a request that Redis allowed: recorded, and answered with yes. */
  ghost predicate Served(s: Sys, s': Sys, id: nat, ps: set<Pass>, now: int) {
    && s'.clock == now && Calm(s') && s'.fallback == s.fallback && s'.allowed == s.allowed + ps
    && id in s'.jobs && s'.jobs == s.jobs[id := s'.jobs[id]]
  }

  /** The rate pipeline of a request without burst limit arrives at `now` and finds nothing counted. */
  lemma Arrives(es: seq<Event>, m: Terms, s: Sys, id: nat, now: int) returns (es': seq<Event>, s': Sys)
    requires Reaches(es, m, s) && id in s.jobs && s.jobs[id].stage.RateSent? && Calm(s) && s.clock <= now
    requires s.jobs[id].limits == Mem.Limits(1, 0) && now - s.jobs[id].stage.at <= m.delay
    requires CountOf(s.db, KeyAt(Rate, s.jobs[id].key, s.jobs[id].stage.at), now) == 0
    ensures var p := PassOf(Rate, id, s.jobs[id], s.jobs[id].stage.at);
            Reaches(es', m, s') && Served(s, s', id, {p}, now) && s'.db == Bumped(s.db, p.counter, now)
  {
    DoneBumps(s.db, KeyAt(Rate, s.jobs[id].key, s.jobs[id].stage.at), now);
    es', s' := Extended(es, m, s, Advance(id, now, Done));
    es', s' := Extended(es', m, s', Advance(id, now, Done));
  }

  /** The rate pipeline of a request with a burst limit arrives at once, and the clock is read again. */
  lemma SendsBurst(es: seq<Event>, m: Terms, s: Sys, id: nat) returns (es': seq<Event>, s': Sys)
    requires Reaches(es, m, s) && m.kind == Burst && id in s.jobs && s.jobs[id].stage.RateSent?
    requires s.jobs[id].limits.burst == 1 && s.clock == s.jobs[id].stage.at
    requires CountOf(s.db, KeyAt(Rate, s.jobs[id].key, s.clock), s.clock) < s.jobs[id].limits.requestsPerMinute
    ensures var j := s.jobs[id]; var rate := PassOf(Rate, id, j, s.clock);
            && Reaches(es', m, s')
            && s' == s.(db := Bumped(s.db, rate.counter, s.clock), passed := s.passed + {rate},
                        jobs := s.jobs[id := j.(stage := BurstSent(rate, s.clock))])
  {
    DoneBumps(s.db, KeyAt(Rate, s.jobs[id].key, s.clock), s.clock);
    es', s' := Extended(es, m, s, Advance(id, s.clock, Done));
    var rate := PassOf(Rate, id, s.jobs[id], s.clock);
    assert s'.jobs[id].stage == NeedsBurst(rate);
    es', s' := Extended(es', m, s', Advance(id, s.clock, Done));
    assert s'.jobs == s.jobs[id := s.jobs[id].(stage := BurstSent(rate, s.clock))];
  }

  /** The burst pipeline arrives at `now` and finds nothing counted. */
  lemma ArrivesInBurst(es: seq<Event>, m: Terms, s: Sys, id: nat, now: int) returns (es': seq<Event>, s': Sys)
    requires Reaches(es, m, s) && id in s.jobs && s.jobs[id].stage.BurstSent? && Calm(s) && s.clock <= now
    requires s.jobs[id].limits.burst == 1 && now - s.jobs[id].stage.at <= m.delay
    requires CountOf(s.db, KeyAt(Burst, s.jobs[id].key, s.jobs[id].stage.at), now) == 0
    ensures var stage := s.jobs[id].stage; var p := PassOf(Burst, id, s.jobs[id], stage.at);
            && Reaches(es', m, s') && Served(s, s', id, {stage.rate, p}, now)
            && s'.db == Bumped(s.db, p.counter, now)
  {
    DoneBumps(s.db, KeyAt(Burst, s.jobs[id].key, s.jobs[id].stage.at), now);
    es', s' := Extended(es, m, s, Advance(id, now, Done));
    es', s' := Extended(es', m, s', Advance(id, now, Done));
  }

  /** Both: a new request on its way to its burst counter, read off the clock at `at`. */
  lemma QueuesBurst(es: seq<Event>, m: Terms, s: Sys, id: nat, limits: Mem.Limits, at: int)
    returns (es': seq<Event>, s': Sys)
    requires Reaches(es, m, s) && m.kind == Burst && id !in s.jobs && Calm(s) && s.clock <= at
    requires LimitsMeet(m, limits) && limits.burst == 1
    requires CountOf(s.db, KeyAt(Rate, m.key, at), at) < limits.requestsPerMinute
    ensures Reaches(es', m, s') && s'.clock == at && Calm(s') && s'.fallback == s.fallback && s'.allowed == s.allowed
    ensures s'.db == Bumped(s.db, KeyAt(Rate, m.key, at), at)
    ensures s'.jobs == s.jobs[id := Job(m.key, limits, BurstSent(Pass(id, KeyAt(Rate, m.key, at), at), at))]
  {
    es', s' := Sends(es, m, s, id, limits, at);
    es', s' := SendsBurst(es', m, s', id);
    assert s'.jobs == s.jobs[id := Job(m.key, limits, BurstSent(Pass(id, KeyAt(Rate, m.key, at), at), at))];
  }

  /** Redis fails a request, and the breaker takes note. */
  lemma Fails(es: seq<Event>, m: Terms, s: Sys, id: nat) returns (es': seq<Event>, s': Sys)
    requires Reaches(es, m, s) && id in s.jobs && s.jobs[id].stage.RateSent? && Calm(s) && s.breaker.failures == 0
    ensures Reaches(es', m, s') && Calm(s')
    ensures s' == s.(breaker := s'.breaker, jobs := s.jobs[id := s.jobs[id].(stage := UseFallback)])
  {
    es', s' := Extended(es, m, s, Advance(id, s.clock, Failed(false, false)));
    assert s'.jobs[id].stage == Errored && s'.db == s.db;
    es', s' := Extended(es', m, s', Advance(id, s.clock, Done));
    assert s'.jobs == s.jobs[id := s.jobs[id].(stage := UseFallback)];
  }

  lemma FirstFallback(c: Mem.Call)
    requires 0 < c.limits.requestsPerMinute
    ensures Mem.History([c], c.key) == [c.now]
  {
    assert [c][..0] == [];
    assert Mem.Allows(Mem.Run([]), c);
  }

  /** At the very start, Redis fails a request and the empty fallback accepts it. */
  lemma FallsBack(m: Terms, id: nat, limits: Mem.Limits, now: int) returns (es: seq<Event>, s: Sys)
    requires LimitsMeet(m, limits) && 0 <= now
    ensures Reaches(es, m, s) && s.clock == now && Calm(s) && s.db == map[] && s.allowed == {}
    ensures s.jobs.Keys == {id} && Mem.History(s.fallback, m.key) == [now]
  {
    assert Reaches([], m, START);
    es, s := Sends([], m, START, id, limits, now);
    es, s := Fails(es, m, s, id);
    es, s := Extended(es, m, s, Advance(id, now, Done));
    var c := Mem.Call(m.key, limits, now, FALLBACK_BURST_WINDOW);
    assert s.fallback == [c];
    FirstFallback(c);
  }

  /** A pipeline that comes a nanosecond too late finds its counter gone and starts it again. */
  lemma LateRate(m: Terms) returns (es: seq<Event>, s: Sys)
    requires m.kind == Rate && m.limit == 1 && SLACK < m.delay
    ensures Reaches(es, m, s) && |InBucket(s.allowed, RedisKey(Rate, m.key, 0))| == 2
  {
    assert Reaches([], m, START);
    es, s := Sends([], m, START, 0, Mem.Limits(1, 0), 0);
    es, s := Arrives(es, m, s, 0, 0);
    es, s := Sends(es, m, s, 1, Mem.Limits(1, 0), BUCKET - 1);
    es, s := Arrives(es, m, s, 1, RATE_TTL);
    var k := RedisKey(Rate, m.key, 0);
    assert InBucket(s.allowed, k) == {Pass(0, k, 0), Pass(1, k, BUCKET - 1)};
  }

  /** The state after one request that went straight through both counters at time 0. */
  lemma FirstBurst(m: Terms) returns (es: seq<Event>, s: Sys)
    requires m.kind == Burst && m.limit == 1 && 0 <= m.delay
    ensures var k, k' := RedisKey(Rate, m.key, 0), RedisKey(Burst, m.key, 0);
            && Reaches(es, m, s) && Calm(s) && s.clock == 0 && s.jobs.Keys == {0}
            && s.allowed == {Pass(0, k, 0), Pass(0, k', 0)}
            && CountOf(s.db, k, BURST_BUCKET - 1) == 1
            && k' in s.db && s.db[k'] == Counter(1, Some(BURST_TTL))
  {
    assert Reaches([], m, START);
    es, s := QueuesBurst([], m, START, 0, Mem.Limits(2, 1), 0);
    es, s := ArrivesInBurst(es, m, s, 0, 0);
  }

  /** And after another has read the clock for the burst counter at the end of its ten seconds. */
  lemma SecondBurst(m: Terms) returns (es: seq<Event>, s: Sys)
    requires m.kind == Burst && m.limit == 1 && 0 <= m.delay
    ensures var k, k' := RedisKey(Rate, m.key, 0), RedisKey(Burst, m.key, 0); var at := BURST_BUCKET - 1;
            && Reaches(es, m, s) && Calm(s) && s.clock == at && s.allowed == {Pass(0, k, 0), Pass(0, k', 0)}
            && 1 in s.jobs && s.jobs[1] == Job(m.key, Mem.Limits(2, 1), BurstSent(Pass(1, k, at), at))
            && k' in s.db && s.db[k'] == Counter(1, Some(BURST_TTL))
  {
    es, s := FirstBurst(m);
    es, s := QueuesBurst(es, m, s, 1, Mem.Limits(2, 1), BURST_BUCKET - 1);
  }

  lemma LateBurst(m: Terms) returns (es: seq<Event>, s: Sys)
    requires m.kind == Burst && m.limit == 1 && SLACK < m.delay
    ensures Reaches(es, m, s) && |InBucket(s.allowed, RedisKey(Burst, m.key, 0))| == 2
  {
    es, s := SecondBurst(m);
    es, s := ArrivesInBurst(es, m, s, 1, BURST_TTL);
    var k := RedisKey(Burst, m.key, 0);
    assert InBucket(s.allowed, k) == {Pass(0, k, 0), Pass(1, k, BURST_BUCKET - 1)};
  }

  /**
   * The second that a counter outlives its bucket is exactly the delay that is safe: with that
   * delay or less every counter keeps its limit in every run, and with any more some run breaks it.
   */
  lemma BucketsSafeExactly(kind: Kind, delay: int)
    ensures (forall m: Terms :: m.kind == kind && m.delay == delay && 0 < m.limit ==> BucketsKeepLimit(m))
            <==> delay <= SLACK
  {
    if delay <= SLACK {
      forall m: Terms, es, s, k: RedisKey | m.kind == kind && m.delay == delay && 0 < m.limit
          && Reaches(es, m, s) && k.key == m.key && k.kind == m.kind
        ensures |InBucket(s.allowed, k)| <= m.limit
      {
        BucketBound(es, m, s, k);
      }
    } else {
      var m := Terms("k", kind, 1, delay);
      var es, s;
      if kind == Rate { es, s := LateRate(m); } else { es, s := LateBurst(m); }
      assert !BucketsKeepLimit(m);
    }
  }

  /** Any minute holds at most three times the limit. */
  ghost predicate SpansKeepBound(m: Terms) {
    forall es, s, a :: Reaches(es, m, s) ==> Accepts(s, m.kind, m.key, a) <= 3 * m.limit
  }

  /** A fallback accept and a Redis accept at time 1. */
  lemma SpanBegins(m: Terms) returns (es: seq<Event>, s: Sys)
    requires m.kind == Rate && m.limit == 1 && 0 <= m.delay
    ensures var k := RedisKey(Rate, m.key, 0);
            && Reaches(es, m, s) && Calm(s) && s.clock == 1 && s.jobs.Keys == {0, 1}
            && s.allowed == {Pass(1, k, 1)} && s.db == map[k := Counter(1, Some(RATE_TTL + 1))]
            && Mem.History(s.fallback, m.key) == [1]
  {
    es, s := FallsBack(m, 0, Mem.Limits(1, 0), 1);
    es, s := Sends(es, m, s, 1, Mem.Limits(1, 0), 1);
    es, s := Arrives(es, m, s, 1, 1);
  }

  /** One more request reads the clock just before the minute ends, another is served just after. */
  lemma SpanGoesOn(m: Terms) returns (es: seq<Event>, s: Sys)
    requires m.kind == Rate && m.limit == 1 && 0 <= m.delay
    ensures var k, k' := RedisKey(Rate, m.key, 0), RedisKey(Rate, m.key, 1);
            && Reaches(es, m, s) && Calm(s) && s.clock == BUCKET
            && 2 in s.jobs && s.jobs[2] == Job(m.key, Mem.Limits(1, 0), RateSent(BUCKET - 1))
            && s.allowed == {Pass(1, k, 1), Pass(3, k', BUCKET)}
            && k in s.db && s.db[k] == Counter(1, Some(RATE_TTL + 1))
            && Mem.History(s.fallback, m.key) == [1]
  {
    es, s := SpanBegins(m);
    es, s := Sends(es, m, s, 2, Mem.Limits(1, 0), BUCKET - 1);
    es, s := Sends(es, m, s, 3, Mem.Limits(1, 0), BUCKET);
    es, s := Arrives(es, m, s, 3, BUCKET);
  }

  lemma CountOne(t: int, lo: int, hi: int)
    requires lo <= t < hi
    ensures Mem.CountIn([t], lo, hi) == 1
  {
    assert Mem.CountFirst([t], 1, lo, hi) == Mem.CountFirst([t], 0, lo, hi) + 1;
  }

  /** Two counts of the first minute's counter, one of the second's and one fallback, all within a minute. */
  lemma LateSpan(m: Terms) returns (es: seq<Event>, s: Sys)
    requires m.kind == Rate && m.limit == 1 && SLACK + 2 <= m.delay
    ensures Reaches(es, m, s) && Accepts(s, Rate, m.key, 1) == 4
  {
    es, s := SpanGoesOn(m);
    es, s := Arrives(es, m, s, 2, RATE_TTL + 1);
    var k, k' := RedisKey(Rate, m.key, 0), RedisKey(Rate, m.key, 1);
    assert InSpan(s.allowed, Rate, m.key, 1, 1 + BUCKET) ==
            {Pass(1, k, 1), Pass(2, k, BUCKET - 1), Pass(3, k', BUCKET)};
    CountOne(1, 1, 1 + BUCKET);
  }

  /** A fallback accept and a Redis accept at time 1, both with a burst limit. */
  lemma BurstSpanBegins(m: Terms) returns (es: seq<Event>, s: Sys)
    requires m.kind == Burst && m.limit == 1 && 0 <= m.delay
    ensures var k, k' := RedisKey(Rate, m.key, 0), RedisKey(Burst, m.key, 0);
            && Reaches(es, m, s) && Calm(s) && s.clock == 1 && s.jobs.Keys == {0, 1}
            && s.allowed == {Pass(1, k, 1), Pass(1, k', 1)}
            && CountOf(s.db, k, BURST_BUCKET - 1) == 1
            && k' in s.db && s.db[k'] == Counter(1, Some(BURST_TTL + 1)) && k'.(bucket := 1) !in s.db
            && Mem.History(s.fallback, m.key) == [1]
  {
    es, s := FallsBack(m, 0, Mem.Limits(3, 1), 1);
    es, s := QueuesBurst(es, m, s, 1, Mem.Limits(3, 1), 1);
    es, s := ArrivesInBurst(es, m, s, 1, 1);
  }

  /** One more request reads the clock for its burst counter just before the ten seconds end. */
  lemma BurstSpanGoesOn(m: Terms) returns (es: seq<Event>, s: Sys)
    requires m.kind == Burst && m.limit == 1 && 0 <= m.delay
    ensures var k, k', at := RedisKey(Rate, m.key, 0), RedisKey(Burst, m.key, 0), BURST_BUCKET - 1;
            && Reaches(es, m, s) && Calm(s) && s.clock == at && 2 in s.jobs && 3 !in s.jobs
            && s.jobs[2] == Job(m.key, Mem.Limits(3, 1), BurstSent(Pass(2, k, at), at))
            && s.allowed == {Pass(1, k, 1), Pass(1, k', 1)}
            && CountOf(s.db, k, BURST_BUCKET) == 2
            && k' in s.db && s.db[k'] == Counter(1, Some(BURST_TTL + 1)) && k'.(bucket := 1) !in s.db
            && Mem.History(s.fallback, m.key) == [1]
  {
    es, s := BurstSpanBegins(m);
    es, s := QueuesBurst(es, m, s, 2, Mem.Limits(3, 1), BURST_BUCKET - 1);
  }

  /** And another is served just after. */
  lemma BurstSpanCloses(m: Terms) returns (es: seq<Event>, s: Sys)
    requires m.kind == Burst && m.limit == 1 && 0 <= m.delay
    ensures var k, k', at := RedisKey(Rate, m.key, 0), RedisKey(Burst, m.key, 0), BURST_BUCKET - 1;
            && Reaches(es, m, s) && Calm(s) && s.clock == BURST_BUCKET
            && 2 in s.jobs && s.jobs[2] == Job(m.key, Mem.Limits(3, 1), BurstSent(Pass(2, k, at), at))
            && s.allowed == {Pass(1, k, 1), Pass(1, k', 1), Pass(3, k, BURST_BUCKET),
                             Pass(3, k'.(bucket := 1), BURST_BUCKET)}
            && k' in s.db && s.db[k'] == Counter(1, Some(BURST_TTL + 1))
            && Mem.History(s.fallback, m.key) == [1]
  {
    es, s := BurstSpanGoesOn(m);
    es, s := QueuesBurst(es, m, s, 3, Mem.Limits(3, 1), BURST_BUCKET);
    es, s := ArrivesInBurst(es, m, s, 3, BURST_BUCKET);
  }

  lemma LateBurstSpan(m: Terms) returns (es: seq<Event>, s: Sys)
    requires m.kind == Burst && m.limit == 1 && SLACK + 2 <= m.delay
    ensures Reaches(es, m, s) && Accepts(s, Burst, m.key, 1) == 4
  {
    es, s := BurstSpanCloses(m);
    es, s := ArrivesInBurst(es, m, s, 2, BURST_TTL + 1);
    var k, k' := RedisKey(Burst, m.key, 0), RedisKey(Burst, m.key, 1);
    assert InSpan(s.allowed, Burst, m.key, 1, 1 + BURST_BUCKET) ==
           {Pass(1, k, 1), Pass(2, k, BURST_BUCKET - 1), Pass(3, k', BURST_BUCKET)};
    CountOne(1, 1, 1 + BURST_BUCKET);
  }

  /** And the bound of a span, of either kind, holds in all runs exactly up to a nanosecond more. */
  lemma SpansSafeExactly(kind: Kind, delay: int)
    ensures (forall m: Terms :: m.kind == kind && m.delay == delay && 0 < m.limit ==> SpansKeepBound(m))
            <==> delay <= SLACK + 1
  {
    if delay <= SLACK + 1 {
      forall m: Terms, es, s, a | m.kind == kind && m.delay == delay && 0 < m.limit && Reaches(es, m, s)
        ensures Accepts(s, m.kind, m.key, a) <= 3 * m.limit
      {
        SpanBound(es, m, s, a);
      }
    } else {
      var m := Terms("k", kind, 1, delay);
      var es, s;
      if kind == Rate { es, s := LateSpan(m); } else { es, s := LateBurstSpan(m); }
      assert !SpansKeepBound(m);
    }
  }

  // ------------------------------------------------------------------- nothing is left out

  function OfKey(ps: set<Pass>, m: Terms): set<Pass> {
    set p <- ps | p.counter.kind == m.kind && p.counter.key == m.key
  }

  /** The requests on `key` answered with yes. */
  function Yes(s: Sys, key: string): set<nat> {
    set id <- s.jobs | s.jobs[id].key == key && s.jobs[id].stage == Answered(true)
  }

  ghost predicate AnswerInv(m: Terms, s: Sys) {
    && (forall p <- s.allowed :: p.id in s.jobs && s.jobs[p.id].stage.Answered?)
    && |Yes(s, m.key)| == |OfKey(s.allowed, m)| + |Mem.History(s.fallback, m.key)|
  }

  lemma YesMoved(s: Sys, s': Sys, id: nat, stage: Stage, key: string)
    requires id in s.jobs && !s.jobs[id].stage.Answered?
    requires s'.jobs == s.jobs[id := s.jobs[id].(stage := stage)]
    ensures |Yes(s', key)| ==
            |Yes(s, key)| + if s.jobs[id].key == key && stage == Answered(true) then 1 else 0
  {
    if s.jobs[id].key == key && stage == Answered(true) {
      assert Yes(s', key) == Yes(s, key) + {id};
    } else {
      assert Yes(s', key) == Yes(s, key);
    }
  }

  lemma AllowedGrew(allowed: set<Pass>, ps: set<Pass>, p: Pass, m: Terms)
    requires allowed !! ps && OnlyOf(ps, m.kind, p) && p.counter.kind == m.kind && p.counter.key == m.key
    ensures |OfKey(allowed + ps, m)| == |OfKey(allowed, m)| + 1
  {
    assert OfKey(allowed + ps, m) == OfKey(allowed, m) + {p};
  }

  lemma HistoryGrew(calls: seq<Mem.Call>, c: Mem.Call, key: string)
    requires c.key == key ==> 0 < c.limits.requestsPerMinute
    ensures |Mem.History(calls + [c], key)| ==
            |Mem.History(calls, key)| + if c.key == key && Mem.Allows(Mem.Run(calls), c) then 1 else 0
  {
    Snoc(calls, c);
  }

  /** A job moved on, and the accepts on record grew by one exactly if it was answered with yes. */
  lemma AnswerMoved(m: Terms, s: Sys, s': Sys, id: nat, stage: Stage)
    requires AnswerInv(m, s) && id in s.jobs && !s.jobs[id].stage.Answered?
    requires s'.jobs == s.jobs[id := s.jobs[id].(stage := stage)]
    requires forall p <- s'.allowed :: p in s.allowed || (p.id == id && stage.Answered?)
    requires |OfKey(s'.allowed, m)| + |Mem.History(s'.fallback, m.key)| ==
             |OfKey(s.allowed, m)| + |Mem.History(s.fallback, m.key)|
             + if s.jobs[id].key == m.key && stage == Answered(true) then 1 else 0
    ensures AnswerInv(m, s')
  {
    YesMoved(s, s', id, stage, m.key);
  }

  lemma AnswerFromRedis(m: Terms, s: Sys, e: Event)
    requires e.Advance? && Enabled(s, e) && JobsInv(s) && LimitsInv(m, s) && AnswerInv(m, s)
    requires s.jobs[e.id].stage.Decided?
    ensures AnswerInv(m, Step(s, e))
  {
    var j := s.jobs[e.id];
    var ps := j.stage.passes;
    assert JobOk(s, e.id);
    if j.stage.verdict && j.key == m.key {
      assert Counts(m.kind, j.limits);
      assert HasOne(s, e.id, m.kind, ps);
      var p :| Own(s, e.id, m.kind, p) && OnlyOf(ps, m.kind, p);
      assert PassOk(s, p);
      AllowedGrew(s.allowed, ps, p, m);
    } else {
      assert OfKey(s.allowed + ps, m) == OfKey(s.allowed, m) by {
        forall p <- ps ensures p.counter.key == j.key { assert PassOk(s, p); }
      }
    }
    AnswerMoved(m, s, Step(s, e), e.id, Answered(j.stage.verdict));
  }

  lemma AnswerFromFallback(m: Terms, s: Sys, e: Event)
    requires e.Advance? && Enabled(s, e) && LimitsInv(m, s) && AnswerInv(m, s)
    requires s.jobs[e.id].stage.UseFallback?
    ensures AnswerInv(m, Step(s, e))
  {
    var c := FallbackCall(s.jobs[e.id], e.now);
    HistoryGrew(s.fallback, c, m.key);
    AnswerMoved(m, s, Step(s, e), e.id, Answered(Mem.Allows(Mem.Run(s.fallback), c)));
  }

  lemma AnswerLater(m: Terms, s: Sys, e: Event)
    requires e.Advance? && Enabled(s, e) && AnswerInv(m, s)
    requires !s.jobs[e.id].stage.Decided? && !s.jobs[e.id].stage.UseFallback?
    ensures AnswerInv(m, Step(s, e))
  {
    var s' := Step(s, e);
    AnswerMoved(m, s, s', e.id, s'.jobs[e.id].stage);
  }

  lemma AnswerUntouched(m: Terms, s: Sys, e: Event)
    requires !e.Advance? && Enabled(s, e) && AnswerInv(m, s)
    ensures AnswerInv(m, Step(s, e))
  {
    assert Yes(Step(s, e), m.key) == Yes(s, m.key);
  }

  lemma AnswerStep(m: Terms, s: Sys, e: Event)
    requires Enabled(s, e) && JobsInv(s) && LimitsInv(m, s) && AnswerInv(m, s)
    ensures AnswerInv(m, Step(s, e))
  {
    if !e.Advance? {
      AnswerUntouched(m, s, e);
    } else if s.jobs[e.id].stage.Decided? {
      AnswerFromRedis(m, s, e);
    } else if s.jobs[e.id].stage.UseFallback? {
      AnswerFromFallback(m, s, e);
    } else {
      AnswerLater(m, s, e);
    }
  }

  /** The accepts counted above are all of them, for either kind: one for each request answered with yes. */
  lemma {:induction false} EveryYesIsCounted(es: seq<Event>, m: Terms, s: Sys)
    requires Reaches(es, m, s)
    ensures |Yes(s, m.key)| == |OfKey(s.allowed, m)| + |Mem.History(s.fallback, m.key)|
    ensures AnswerInv(m, s)
  {
    if es == [] {
      assert Yes(s, m.key) == {} && OfKey(s.allowed, m) == {};
    } else {
      var p := Unrolled(es, m, s);
      EveryYesIsCounted(es[..|es| - 1], m, p);
      ReachableInv(es[..|es| - 1], m, p);
      AnswerStep(m, p, es[|es| - 1]);
    }
  }

  // --------------------------------------------------------- one call, run without a break

  /** One pipeline of a call: when its bucket was read off the clock, when it arrived, how it ended. */
  datatype Trip = Trip(sent: int, arrived: int, outcome: Outcome)

  /** What the outside world does to one call. */
  datatype Env = Env(rate: Trip, burst: Trip, endAt: int, fallbackAt: int)

  datatype Verdict = Ok(allowed: bool) | Err

  /** One pipeline: the count Redis replies with, if it replies, and the counters left behind. */
  function Tripped(db: Redis, kind: Kind, key: string, t: Trip): (Option<nat>, Redis) {
    var k := KeyAt(kind, key, t.sent);
    var db' := Pipeline(db, k, t.arrived, t.outcome);
    (if t.outcome.Failed? then None else Some(CountOf(db', k, t.arrived)), db')
  }

  /** `RedisRateLimiter.Allow`: the verdict and the counters it leaves behind. */
  function RedisAllows(db: Redis, key: string, limits: Mem.Limits, env: Env): (Verdict, Redis) {
    if limits.requestsPerMinute <= 0 then (Ok(true), db)
    else
      var (count, db1) := Tripped(db, Rate, key, env.rate);
      if count.None? then (Err, db1)
      else if count.value > limits.requestsPerMinute then (Ok(false), db1)
      else if limits.burst <= 0 then (Ok(true), db1)
      else
        var (burstCount, db2) := Tripped(db1, Burst, key, env.burst);
        (if burstCount.None? then Err else Ok(burstCount.value <= limits.burst), db2)
  }

  /** The clock and outcome the next step of a lone call sees. */
  function Next(s: Sys, stage: Stage, env: Env): (int, Outcome) {
    match stage
    case InRedis => (env.rate.sent, Done)
    case RateSent(_) => (env.rate.arrived, env.rate.outcome)
    case NeedsBurst(_) => (env.burst.sent, Done)
    case BurstSent(_, _) => (env.burst.arrived, env.burst.outcome)
    case Decided(_, _) => (env.endAt, Done)
    case Errored => (env.endAt, Done)
    case UseFallback => (env.fallbackAt, Done)
    case _ => (s.clock, Done)
  }

  function StepsLeft(stage: Stage): nat {
    match stage
    case Arrived => 8
    case Calling => 7
    case InRedis => 6
    case RateSent(_) => 5
    case NeedsBurst(_) => 4
    case BurstSent(_, _) => 3
    case Decided(_, _) => 2
    case Errored => 2
    case UseFallback => 1
    case Answered(_) => 0
  }

  /** Runs the steps of job `id` one after the other until it is answered. */
  function Drive(s: Sys, id: nat, env: Env): (r: Sys)
    requires id in s.jobs
    ensures id in r.jobs && r.jobs[id].stage.Answered?
    decreases StepsLeft(s.jobs[id].stage)
  {
    if s.jobs[id].stage.Answered? then s
    else
      var (now, o) := Next(s, s.jobs[id].stage, env);
      Drive(AdvanceStep(s.(clock := now), id, now, o), id, env)
  }

  lemma DriveFallback(s: Sys, id: nat, env: Env)
    requires id in s.jobs && s.jobs[id].stage.UseFallback?
    ensures var c := FallbackCall(s.jobs[id], env.fallbackAt); var r := Drive(s, id, env);
            && r.jobs[id].stage == Answered(Mem.Allows(Mem.Run(s.fallback), c))
            && r.breaker == s.breaker && r.db == s.db && r.fallback == s.fallback + [c]
  {
  }

  /** How a call ends once Redis has given the verdict `v`. */
  ghost predicate Concluded(s: Sys, r: Sys, id: nat, v: Verdict, env: Env)
    requires id in s.jobs && id in r.jobs
  {
    var c := FallbackCall(s.jobs[id], env.fallbackAt);
    && r.jobs[id].stage == Answered(if v.Ok? then v.allowed else Mem.Allows(Mem.Run(s.fallback), c))
    && r.breaker == CB.Step(BREAKER, s.breaker, CB.End(v.Ok?, env.endAt))
    && r.fallback == if v.Ok? then s.fallback else s.fallback + [c]
  }

  lemma DriveVerdict(s: Sys, id: nat, env: Env)
    requires id in s.jobs && (s.jobs[id].stage.Decided? || s.jobs[id].stage.Errored?)
    ensures var stage := s.jobs[id].stage;
            Concluded(s, Drive(s, id, env), id, if stage.Decided? then Ok(stage.verdict) else Err, env)
    ensures Drive(s, id, env).db == s.db
  {
    var t := AdvanceStep(s.(clock := env.endAt), id, env.endAt, Done);
    assert Drive(s, id, env) == Drive(t, id, env);
    if t.jobs[id].stage.UseFallback? { DriveFallback(t, id, env); }
  }

  lemma DriveBurst(s: Sys, id: nat, env: Env)
    requires id in s.jobs && s.jobs[id].stage.NeedsBurst?
    ensures var j := s.jobs[id]; var (count, db) := Tripped(s.db, Burst, j.key, env.burst);
            var v := if count.None? then Err else Ok(count.value <= j.limits.burst);
            Concluded(s, Drive(s, id, env), id, v, env) && Drive(s, id, env).db == db
  {
    var t := AdvanceStep(s.(clock := env.burst.sent), id, env.burst.sent, Done);
    assert Drive(s, id, env) == Drive(t, id, env);
    var u := AdvanceStep(t.(clock := env.burst.arrived), id, env.burst.arrived, env.burst.outcome);
    assert Drive(t, id, env) == Drive(u, id, env);
    DriveVerdict(u, id, env);
  }

  lemma DriveRate(s: Sys, id: nat, env: Env)
    requires id in s.jobs && s.jobs[id].stage == RateSent(env.rate.sent) && 0 < s.jobs[id].limits.requestsPerMinute
    ensures var j := s.jobs[id]; var (v, db) := RedisAllows(s.db, j.key, j.limits, env);
            Concluded(s, Drive(s, id, env), id, v, env) && Drive(s, id, env).db == db
  {
    var t := AdvanceStep(s.(clock := env.rate.arrived), id, env.rate.arrived, env.rate.outcome);
    assert Drive(s, id, env) == Drive(t, id, env);
    if t.jobs[id].stage.NeedsBurst? { DriveBurst(t, id, env); } else { DriveVerdict(t, id, env); }
  }

  lemma DriveRedis(s: Sys, id: nat, env: Env)
    requires id in s.jobs && s.jobs[id].stage.InRedis?
    ensures var j := s.jobs[id]; var (v, db) := RedisAllows(s.db, j.key, j.limits, env);
            Concluded(s, Drive(s, id, env), id, v, env) && Drive(s, id, env).db == db
  {
    var t := AdvanceStep(s.(clock := env.rate.sent), id, env.rate.sent, Done);
    assert Drive(s, id, env) == Drive(t, id, env);
    if t.jobs[id].stage.RateSent? { DriveRate(t, id, env); } else { DriveVerdict(t, id, env); }
  }

  /** The breaker, the counters, the answer and the fallback after one undisturbed call. */
  lemma SoloCall(s: Sys, id: nat, key: string, limits: Mem.Limits, env: Env)
    requires id !in s.jobs
    ensures var r := Drive(Step(s, Arrive(id, key, limits)), id, env);
            var c := FallbackCall(Job(key, limits, Arrived), env.fallbackAt);
            if s.breaker.state == CB.Open then
              && r.jobs[id].stage == Answered(Mem.Allows(Mem.Run(s.fallback), c))
              && r.breaker == s.breaker && r.db == s.db && r.fallback == s.fallback + [c]
            else
              var (v, db) := RedisAllows(s.db, key, limits, env);
              && r.jobs[id].stage == Answered(if v.Ok? then v.allowed else Mem.Allows(Mem.Run(s.fallback), c))
              && r.breaker == CB.Step(BREAKER, s.breaker, CB.End(v.Ok?, env.endAt))
              && r.db == db && r.fallback == if v.Ok? then s.fallback else s.fallback + [c]
  {
    var s0 := Step(s, Arrive(id, key, limits));
    var s1 := AdvanceStep(s0.(clock := s.clock), id, s.clock, Done);
    assert Drive(s0, id, env) == Drive(s1, id, env);
    if s.breaker.state == CB.Open {
      DriveFallback(s1, id, env);
    } else {
      var s2 := AdvanceStep(s1.(clock := s.clock), id, s.clock, Done);
      assert Drive(s1, id, env) == Drive(s2, id, env);
      DriveRedis(s2, id, env);
    }
  }

  class RedisRateLimiterWithCircuitBreaker {
    const breaker: CB.CircuitBreaker
    const fallback: Mem.InMemoryRateLimiter
    var db: Redis

    predicate Valid()
      reads this, breaker, fallback
    {
      breaker.cfg == BREAKER && breaker.Valid() && fallback.burstWindow == FALLBACK_BURST_WINDOW
    }

    constructor ()
      ensures Valid() && fresh(breaker) && fresh(fallback)
      ensures breaker.Model() == CB.INITIAL && fallback.requests == map[] && db == map[]
    {
      breaker := new CB.CircuitBreaker(BREAKER);
      fallback := new Mem.InMemoryRateLimiter(FALLBACK_BURST_WINDOW);
      db := map[];
    }

    /** `checkRateLimit` or the pipeline of `checkBurstLimit`: the count, unless the pipeline fails. */
    method RunPipeline(kind: Kind, key: string, t: Trip) returns (count: Option<nat>)
      modifies this`db
      ensures (count, db) == Tripped(old(db), kind, key, t)
    {
      var k := KeyAt(kind, key, t.sent);
      db := Pipeline(db, k, t.arrived, t.outcome);
      count := if t.outcome.Failed? then None else Some(CountOf(db, k, t.arrived));
    }

    method RedisAllow(key: string, limits: Mem.Limits, env: Env) returns (v: Verdict)
      modifies this`db
      ensures (v, db) == RedisAllows(old(db), key, limits, env)
    {
      if limits.requestsPerMinute <= 0 { return Ok(true); }
      var count := RunPipeline(Rate, key, env.rate);
      if count.None? { return Err; }
      if count.value > limits.requestsPerMinute { return Ok(false); }
      if limits.burst > 0 {
        count := RunPipeline(Burst, key, env.burst);
        if count.None? { return Err; }
        return Ok(count.value <= limits.burst);
      }
      return Ok(true);
    }

    /** The undisturbed call; its effect is the one `SoloCall` shows for the interleaved steps. */
    method Allow(key: string, limits: Mem.Limits, env: Env) returns (ok: bool)
      requires Valid()
      modifies this, breaker, fallback
      ensures Valid()
      ensures var c := FallbackCall(Job(key, limits, Arrived), env.fallbackAt);
              var memory := old(fallback.requests);
              if old(breaker.state) == CB.Open then
                && ok == Mem.Allows(memory, c) && fallback.requests == Mem.Step(memory, c)
                && breaker.Model() == old(breaker.Model()) && db == old(db)
              else
                var (v, db') := RedisAllows(old(db), key, limits, env);
                && db == db'
                && breaker.Model() == CB.Step(BREAKER, old(breaker.Model()), CB.End(v.Ok?, env.endAt))
                && ok == (if v.Ok? then v.allowed else Mem.Allows(memory, c))
                && fallback.requests == if v.Ok? then memory else Mem.Step(memory, c)
    {
      if breaker.state == CB.Open {
        ok := fallback.Allow(key, limits, env.fallbackAt);
        return;
      }
      var admitted := breaker.BeginCall();
      assert admitted;
      var v := RedisAllow(key, limits, env);
      breaker.EndCall(v.Ok?, env.endAt);
      if v.Err? {
        ok := fallback.Allow(key, limits, env.fallbackAt);
        return;
      }
      ok := v.allowed;
    }
  }
}
