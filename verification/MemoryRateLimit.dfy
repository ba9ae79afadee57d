/**
 * The in-memory sliding-window limiter of services/gateway/internal/ratelimit/ratelimit.go.
 *
 * The limiter forgets accepted requests that have left the one-minute window.  The
 * reference it is proved against forgets nothing: it decides from the complete history of
 * accepted requests.  Times are integers (nanoseconds) read from a non-decreasing clock.
 */
module MemoryRateLimit {
  import opened Common

  const MINUTE: int := 60_000_000_000

  datatype Limits = Limits(requestsPerMinute: int, burst: int)

  /** One call of `Allow`, with the clock reading and burst window in force. */
  datatype Call = Call(key: string, limits: Limits, now: int, burstWindow: int)

  type Store = map<string, seq<int>>

  /** The entries later than `cut` among the first `n`, in order. */
  function PruneFirst(ts: seq<int>, n: nat, cut: int): seq<int>
    requires n <= |ts|
  {
    if n == 0 then []
    else if ts[n - 1] > cut then PruneFirst(ts, n - 1, cut) + [ts[n - 1]]
    else PruneFirst(ts, n - 1, cut)
  }

  /** The entries later than `cut`, in order. */
  function Prune(ts: seq<int>, cut: int): seq<int> {
    PruneFirst(ts, |ts|, cut)
  }

  /** How many of the first `n` entries lie in [lo, hi). */
  function CountFirst(ts: seq<int>, n: nat, lo: int, hi: int): nat
    requires n <= |ts|
  {
    if n == 0 then 0 else CountFirst(ts, n - 1, lo, hi) + if lo <= ts[n - 1] < hi then 1 else 0
  }

  /** How many entries lie in [lo, hi). */
  function CountIn(ts: seq<int>, lo: int, hi: int): nat {
    CountFirst(ts, |ts|, lo, hi)
  }

  /** How many entries are later than `cut`. */
  function CountAfter(ts: seq<int>, cut: int): nat {
    |Prune(ts, cut)|
  }

  function Stored(m: Store, key: string): seq<int> {
    if key in m then m[key] else []
  }

  /** The decision taken on the pruned list. */
  predicate Admits(kept: seq<int>, c: Call) {
    |kept| < c.limits.requestsPerMinute
    && (c.limits.burst > 0 ==> CountAfter(kept, c.now - c.burstWindow) < c.limits.burst)
  }

  /** The list left for the caller's key: pruned, and extended when the call is accepted. */
  function Updated(ts: seq<int>, c: Call): seq<int> {
    var kept := Prune(ts, c.now - MINUTE);
    if Admits(kept, c) then kept + [c.now] else kept
  }

  predicate Allows(m: Store, c: Call) {
    c.limits.requestsPerMinute <= 0 || Admits(Prune(Stored(m, c.key), c.now - MINUTE), c)
  }

  function Step(m: Store, c: Call): Store {
    if c.limits.requestsPerMinute <= 0 then m else m[c.key := Updated(Stored(m, c.key), c)]
  }

  function Run(calls: seq<Call>): Store {
    if calls == [] then map[] else Step(Run(calls[..|calls| - 1]), calls[|calls| - 1])
  }

  // ------------------------------------------------------------- the full-history reference

  /** Every accept ever recorded for `key`; unlimited calls are accepted but not recorded. */
  function History(calls: seq<Call>, key: string): seq<int> {
    if calls == [] then []
    else
      var before, c := calls[..|calls| - 1], calls[|calls| - 1];
      if c.key == key && c.limits.requestsPerMinute > 0 && Allows(Run(before), c)
      then History(before, key) + [c.now]
      else History(before, key)
  }

  predicate ClockOrdered(calls: seq<Call>) {
    |calls| > 1 ==>
      && calls[|calls| - 2].now <= calls[|calls| - 1].now
      && ClockOrdered(calls[..|calls| - 1])
  }

  /**
   * The rule without forgetting.  Entries older than a minute never reach the burst count,
   * so the burst window in force is at most a minute.
   */
  predicate ReferenceAllows(history: seq<int>, c: Call) {
    c.limits.requestsPerMinute <= 0
    || (CountAfter(history, c.now - MINUTE) < c.limits.requestsPerMinute
        && (c.limits.burst > 0 ==>
              CountAfter(history, c.now - Min(c.burstWindow, MINUTE)) < c.limits.burst))
  }

  lemma {:induction false} PruneExtended(ts: seq<int>, t: int, n: nat, cut: int)
    requires n <= |ts|
    ensures PruneFirst(ts + [t], n, cut) == PruneFirst(ts, n, cut)
  {
    if n > 0 { PruneExtended(ts, t, n - 1, cut); }
  }

  /** Pruning an extended list. */
  lemma PruneSnoc(ts: seq<int>, t: int, cut: int)
    ensures Prune(ts + [t], cut) == if t > cut then Prune(ts, cut) + [t] else Prune(ts, cut)
  {
    PruneExtended(ts, t, |ts|, cut);
  }

  lemma {:induction false} PruneFirstPrune(ts: seq<int>, n: nat, a: int, b: int)
    requires n <= |ts|
    ensures Prune(PruneFirst(ts, n, a), b) == PruneFirst(ts, n, Max(a, b))
  {
    if n > 0 {
      PruneFirstPrune(ts, n - 1, a, b);
      if ts[n - 1] > a { PruneSnoc(PruneFirst(ts, n - 1, a), ts[n - 1], b); }
    }
  }

  /** Pruning twice is pruning once, at the later cut. */
  lemma PrunePrune(ts: seq<int>, a: int, b: int)
    ensures Prune(Prune(ts, a), b) == Prune(ts, Max(a, b))
  {
    PruneFirstPrune(ts, |ts|, a, b);
  }

  lemma {:induction false} CountExtended(ts: seq<int>, t: int, n: nat, lo: int, hi: int)
    requires n <= |ts|
    ensures CountFirst(ts + [t], n, lo, hi) == CountFirst(ts, n, lo, hi)
  {
    if n > 0 { CountExtended(ts, t, n - 1, lo, hi); }
  }

  /** Deciding from the last minute alone is deciding from the history. */
  lemma DecidesAsReference(h: seq<int>, c: Call)
    requires 0 < c.limits.requestsPerMinute
    ensures Admits(Prune(h, c.now - MINUTE), c) <==> ReferenceAllows(h, c)
  {
    PrunePrune(h, c.now - MINUTE, c.now - c.burstWindow);
  }

  /** The list is the history with its oldest part cut off, never within the last minute. */
  ghost predicate IsPruned(ts: seq<int>, h: seq<int>, cut: int, now: int) {
    ts == Prune(h, cut) && cut <= now - MINUTE
  }

  lemma PrunedListDecides(ts: seq<int>, h: seq<int>, cut: int, c: Call)
    requires IsPruned(ts, h, cut, c.now) && 0 < c.limits.requestsPerMinute
    ensures Prune(ts, c.now - MINUTE) == Prune(h, c.now - MINUTE)
    ensures Admits(Prune(ts, c.now - MINUTE), c) <==> ReferenceAllows(h, c)
  {
    PrunePrune(h, cut, c.now - MINUTE);
    DecidesAsReference(h, c);
  }

  /** The list of `key` after one more call. */
  function NextList(ts: seq<int>, key: string, c: Call): seq<int> {
    if c.key == key && 0 < c.limits.requestsPerMinute then Updated(ts, c) else ts
  }

  /** The history of `key` after one more call, decided on its list. */
  function NextHistory(ts: seq<int>, h: seq<int>, key: string, c: Call): seq<int> {
    if c.key == key && 0 < c.limits.requestsPerMinute && Admits(Prune(ts, c.now - MINUTE), c)
    then h + [c.now] else h
  }

  lemma KeyStep(calls: seq<Call>, key: string)
    requires calls != []
    ensures var before, c := calls[..|calls| - 1], calls[|calls| - 1];
            var ts, h := Stored(Run(before), key), History(before, key);
            Stored(Run(calls), key) == NextList(ts, key, c) && History(calls, key) == NextHistory(ts, h, key, c)
  {
  }

  lemma PrunedStep(ts: seq<int>, h: seq<int>, cut: int, key: string, c: Call) returns (cut': int)
    requires IsPruned(ts, h, cut, c.now)
    ensures IsPruned(NextList(ts, key, c), NextHistory(ts, h, key, c), cut', c.now)
  {
    cut' := cut;
    if c.key == key && 0 < c.limits.requestsPerMinute {
      cut' := c.now - MINUTE;
      PrunedListDecides(ts, h, cut, c);
      PruneSnoc(h, c.now, cut');
    }
  }

  /** In every run, at any time from the last call on, the stored lists are the pruned histories. */
  lemma {:induction false} StoreIsPrunedHistory(calls: seq<Call>, key: string, now: int) returns (cut: int)
    requires ClockOrdered(calls) && (calls != [] ==> calls[|calls| - 1].now <= now)
    ensures IsPruned(Stored(Run(calls), key), History(calls, key), cut, now)
  {
    cut := now - MINUTE;
    if calls != [] {
      var before, c := calls[..|calls| - 1], calls[|calls| - 1];
      cut := StoreIsPrunedHistory(before, key, c.now);
      KeyStep(calls, key);
      cut := PrunedStep(Stored(Run(before), key), History(before, key), cut, key, c);
    }
  }

  lemma PrunedStoreDecides(m: Store, h: seq<int>, cut: int, c: Call)
    requires IsPruned(Stored(m, c.key), h, cut, c.now)
    ensures Allows(m, c) <==> ReferenceAllows(h, c)
  {
    if 0 < c.limits.requestsPerMinute { PrunedListDecides(Stored(m, c.key), h, cut, c); }
  }

  /** In every run, forgetting changes no decision. */
  lemma RefinesFullHistory(calls: seq<Call>, c: Call)
    requires ClockOrdered(calls) && (calls != [] ==> calls[|calls| - 1].now <= c.now)
    ensures Allows(Run(calls), c) <==> ReferenceAllows(History(calls, c.key), c)
  {
    var cut := StoreIsPrunedHistory(calls, c.key, c.now);
    PrunedStoreDecides(Run(calls), History(calls, c.key), cut, c);
  }

  lemma {:induction false} WindowWithinSuffix(ts: seq<int>, n: nat, lo: int, hi: int, cut: int)
    requires n <= |ts| && cut < lo
    ensures CountFirst(ts, n, lo, hi) <= |PruneFirst(ts, n, cut)|
  {
    if n > 0 { WindowWithinSuffix(ts, n - 1, lo, hi, cut); }
  }

  lemma {:induction false} CountedFirst(ts: seq<int>, n: nat, lo: int, hi: int)
    requires n <= |ts| && lo <= hi
    ensures |PruneFirst(ts, n, lo - 1)| == CountFirst(ts, n, lo, hi) + |PruneFirst(ts, n, hi - 1)|
  {
    if n > 0 { CountedFirst(ts, n - 1, lo, hi); }
  }

  /** The entries from `lo` on are those before `hi` and those from `hi` on. */
  lemma CountMeaning(ts: seq<int>, lo: int, hi: int)
    requires lo <= hi
    ensures CountAfter(ts, lo - 1) == CountIn(ts, lo, hi) + CountAfter(ts, hi - 1)
  {
    CountedFirst(ts, |ts|, lo, hi);
  }

  lemma {:induction false} PruneFirstMeaning(ts: seq<int>, n: nat, cut: int, t: int)
    requires n <= |ts|
    ensures multiset(PruneFirst(ts, n, cut))[t] == if t > cut then multiset(ts[..n])[t] else 0
  {
    if n > 0 {
      PruneFirstMeaning(ts, n - 1, cut, t);
      assert ts[..n] == ts[..n - 1] + [ts[n - 1]];
    } else {
      assert ts[..0] == [];
    }
  }

  /** Pruning keeps exactly the later entries, each as often as it was there. */
  lemma PruneMeaning(ts: seq<int>, cut: int, t: int)
    ensures multiset(Prune(ts, cut))[t] == if t > cut then multiset(ts)[t] else 0
  {
    PruneFirstMeaning(ts, |ts|, cut, t);
    assert ts[..|ts|] == ts;
  }

  /** Accepting at `now` keeps a window's count within a limit checked over a longer suffix. */
  lemma AcceptKeepsWindow(h: seq<int>, now: int, a: int, w: int, cut: int, limit: int)
    requires CountIn(h, a, a + w) <= limit
    requires cut <= now - w && CountAfter(h, cut) < limit
    ensures CountIn(h + [now], a, a + w) <= limit
  {
    CountExtended(h, now, |h|, a, a + w);
    if a <= now < a + w { WindowWithinSuffix(h, |h|, a, a + w, cut); }
  }

  /** Every call on `key` is limited to at most `r` requests a minute. */
  predicate RateAtMost(calls: seq<Call>, key: string, r: int) {
    forall c <- calls :: c.key == key ==> 0 < c.limits.requestsPerMinute <= r
  }

  /** Every call on `key` allows at most `b` requests in a burst window of at least `w`. */
  predicate BurstAtMost(calls: seq<Call>, key: string, b: int, w: int) {
    forall c <- calls :: c.key == key ==> 0 < c.limits.burst <= b && w <= Min(c.burstWindow, MINUTE)
  }

  /** The history of a key after one more call, by the reference rule. */
  function Extended(h: seq<int>, key: string, c: Call): seq<int> {
    if c.key == key && 0 < c.limits.requestsPerMinute && ReferenceAllows(h, c) then h + [c.now] else h
  }

  lemma RateStep(h: seq<int>, key: string, c: Call, r: int, a: int)
    requires CountIn(h, a, a + MINUTE) <= r && (c.key == key ==> c.limits.requestsPerMinute <= r)
    ensures CountIn(Extended(h, key, c), a, a + MINUTE) <= r
  {
    if Extended(h, key, c) != h { AcceptKeepsWindow(h, c.now, a, MINUTE, c.now - MINUTE, r); }
  }

  lemma BurstStep(h: seq<int>, key: string, c: Call, b: int, w: int, a: int)
    requires CountIn(h, a, a + w) <= b
    requires c.key == key ==> 0 < c.limits.burst <= b && w <= Min(c.burstWindow, MINUTE)
    ensures CountIn(Extended(h, key, c), a, a + w) <= b
  {
    if Extended(h, key, c) != h { AcceptKeepsWindow(h, c.now, a, w, c.now - Min(c.burstWindow, MINUTE), b); }
  }

  /** A call extends its key's history exactly when the reference accepts it. */
  lemma HistoryStep(calls: seq<Call>, key: string)
    requires calls != [] && ClockOrdered(calls)
    ensures History(calls, key) == Extended(History(calls[..|calls| - 1], key), key, calls[|calls| - 1])
  {
    RefinesFullHistory(calls[..|calls| - 1], calls[|calls| - 1]);
  }

  /** Any one-minute span holds at most `r` accepts. */
  lemma {:induction false} RateBound(calls: seq<Call>, key: string, r: int, a: int)
    requires ClockOrdered(calls) && 0 < r && RateAtMost(calls, key, r)
    ensures CountIn(History(calls, key), a, a + MINUTE) <= r
  {
    if calls != [] {
      var before := calls[..|calls| - 1];
      RateBound(before, key, r, a);
      HistoryStep(calls, key);
      RateStep(History(before, key), key, calls[|calls| - 1], r, a);
    }
  }

  /** Any span as long as the burst window holds at most `b` accepts. */
  lemma {:induction false} BurstBound(calls: seq<Call>, key: string, b: int, w: int, a: int)
    requires ClockOrdered(calls) && 0 < b && BurstAtMost(calls, key, b, w)
    ensures CountIn(History(calls, key), a, a + w) <= b
  {
    if calls != [] {
      var before := calls[..|calls| - 1];
      BurstBound(before, key, b, w, a);
      HistoryStep(calls, key);
      BurstStep(History(before, key), key, calls[|calls| - 1], b, w, a);
    }
  }

  // ------------------------------------------------------------------ the mutable object

  class InMemoryRateLimiter {
    var requests: Store
    var burstWindow: int

    constructor (burstWindow: int)
      ensures requests == map[] && this.burstWindow == burstWindow
    {
      requests := map[];
      this.burstWindow := burstWindow;
    }

    method SetBurstWindow(duration: int)
      modifies this
      ensures burstWindow == duration && requests == old(requests)
    {
      burstWindow := duration;
    }

    method Allow(key: string, limits: Limits, now: int) returns (ok: bool)
      modifies this`requests
      ensures ok <==> Allows(old(requests), Call(key, limits, now, burstWindow))
      ensures requests == Step(old(requests), Call(key, limits, now, burstWindow))
    {
      if limits.requestsPerMinute <= 0 { return true; }
      ghost var c := Call(key, limits, now, burstWindow);
      var windowStart := now - MINUTE;
      if key in requests {
        var valid := PruneList(requests[key], windowStart);
        requests := requests[key := valid];
      }
      ghost var kept := Prune(Stored(old(requests), key), windowStart);
      var current := if key in requests then requests[key] else [];
      assert current == kept;
      if |current| >= limits.requestsPerMinute { return false; }
      if limits.burst > 0 {
        var burstCount := CountLater(current, now - burstWindow);
        if burstCount >= limits.burst { return false; }
      }
      requests := requests[key := current + [now]];
      return true;
    }
  }

  method PruneList(ts: seq<int>, cut: int) returns (valid: seq<int>)
    ensures valid == Prune(ts, cut)
  {
    valid := [];
    for i := 0 to |ts|
      invariant valid == PruneFirst(ts, i, cut)
    {
      if ts[i] > cut { valid := valid + [ts[i]]; }
    }
  }

  method CountLater(ts: seq<int>, cut: int) returns (n: nat)
    ensures n == CountAfter(ts, cut)
  {
    n := 0;
    for i := 0 to |ts|
      invariant n == |PruneFirst(ts, i, cut)|
    {
      if ts[i] > cut { n := n + 1; }
    }
  }
}
