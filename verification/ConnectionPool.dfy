/**
 * The direct-client connection pool of services/router/internal/direct/connection_pool.go.
 *
 * The nested map (protocol, then server URL) is one map keyed by both: the inner maps of all four
 * protocols exist from the start.  Every operation runs under the pool's lock with one clock reading.
 */
module ConnectionPool {
  import opened Common

  datatype Protocol = Stdio | Http | WebSocket | Sse

  datatype Key = Key(protocol: Protocol, url: string)

  datatype Conn = Conn(createdAt: int, lastUsedAt: int, usageCount: int, healthy: bool)

  datatype Config = Config(maxActive: int, ttl: int, idleTimeout: int, reuse: bool)

  type Conns = map<Key, Conn>

  /** The pool's own fields, and how many entries were ever removed or overwritten. */
  datatype Pool = Pool(conns: Conns, active: int, total: int, removed: nat, overwritten: nat)

  datatype Op =
    | Get(k: Key, now: int, createOk: bool)
    | Remove(k: Key)
    | Cleanup(now: int)
    | CheckHealth(k: Key, healthy: bool)

  datatype Result = Reused | Created | Exhausted | CreateFailed

  const EMPTY := Pool(map[], 0, 0, 0, 0)

  predicate IsIdle(cfg: Config, c: Conn, now: int) {
    now - c.lastUsedAt > cfg.idleTimeout
  }

  predicate IsExpired(cfg: Config, c: Conn, now: int) {
    now - c.createdAt > cfg.ttl
  }

  /** Eviction is for idle connections only, cleanup for expired ones too. */
  predicate Doomed(cfg: Config, c: Conn, now: int, evenBusy: bool) {
    (evenBusy && IsExpired(cfg, c, now)) || IsIdle(cfg, c, now)
  }

  function DoomedKeys(cfg: Config, conns: Conns, now: int, evenBusy: bool): set<Key> {
    set k <- conns | Doomed(cfg, conns[k], now, evenBusy)
  }

  function Idle(cfg: Config, conns: Conns, now: int): set<Key> {
    DoomedKeys(cfg, conns, now, false)
  }

  function Stale(cfg: Config, conns: Conns, now: int): set<Key> {
    DoomedKeys(cfg, conns, now, true)
  }

  function Without(p: Pool, ks: set<Key>): Pool {
    p.(conns := p.conns - ks, active := p.active - |ks|, removed := p.removed + |ks|)
  }

  predicate CanReuse(cfg: Config, p: Pool, k: Key) {
    cfg.reuse && k in p.conns && p.conns[k].healthy
  }

  /** A new connection takes the entry; an older one under the same key is lost, not closed. */
  function Stored(p: Pool, k: Key, now: int): Pool {
    p.(conns := p.conns[k := Conn(now, now, 1, true)], active := p.active + 1, total := p.total + 1,
       overwritten := p.overwritten + if k in p.conns then 1 else 0)
  }

  function GetResult(cfg: Config, p: Pool, k: Key, now: int, createOk: bool): (Result, Pool) {
    if CanReuse(cfg, p, k) then
      (Reused, p.(conns := p.conns[k := p.conns[k].(lastUsedAt := now, usageCount := p.conns[k].usageCount + 1)]))
    else
      var idle := Idle(cfg, p.conns, now);
      var p1 := if p.active >= cfg.maxActive then Without(p, idle) else p;
      if p.active >= cfg.maxActive && idle == {} then (Exhausted, p)
      else if !createOk then (CreateFailed, p1)
      else (Created, Stored(p1, k, now))
  }

  function Step(cfg: Config, p: Pool, op: Op): Pool {
    match op
    case Get(k, now, createOk) => GetResult(cfg, p, k, now, createOk).1
    case Remove(k) => if k in p.conns then Without(p, {k}) else p
    case Cleanup(now) => Without(p, Stale(cfg, p.conns, now))
    case CheckHealth(k, h) => if k in p.conns then p.(conns := p.conns[k := p.conns[k].(healthy := h)]) else p
  }

  function Run(cfg: Config, p: Pool, ops: seq<Op>): Pool {
    if ops == [] then p else Step(cfg, Run(cfg, p, ops[..|ops| - 1]), ops[|ops| - 1])
  }

  // -------------------------------------------------------------------------------- accounting

  /**
   * Stored entries never exceed the active count, which never exceeds the limit; what the count
   * has too much is exactly the entries overwritten; and every connection ever made is stored,
   * removed or overwritten.
   */
  predicate Accounts(cfg: Config, p: Pool) {
    && p.active == |p.conns| + p.overwritten
    && p.total == |p.conns| + p.removed + p.overwritten
    && p.active <= Max(0, cfg.maxActive)
  }

  lemma WithoutAccounts(cfg: Config, p: Pool, ks: set<Key>)
    requires Accounts(cfg, p) && ks <= p.conns.Keys
    ensures Accounts(cfg, Without(p, ks))
    ensures Without(p, ks).active == p.active - |ks|
  {
    assert (p.conns - ks).Keys == p.conns.Keys - ks;
    assert |p.conns.Keys - ks| == |p.conns.Keys| - |ks|;
    assert |p.conns - ks| == |(p.conns - ks).Keys|;
  }

  lemma WithoutOneMore(p: Pool, ks: set<Key>, k: Key)
    requires k !in ks
    ensures Without(Without(p, ks), {k}) == Without(p, ks + {k})
  {
    assert p.conns - ks - {k} == p.conns - (ks + {k});
  }

  /** Visiting `k` moves it out of the entries still to do and, if doomed, into those done. */
  lemma Visited(doomed: set<Key>, todo: set<Key>, k: Key)
    requires k in todo
    ensures k in doomed ==> doomed - (todo - {k}) == (doomed - todo) + {k}
    ensures k in doomed ==> |doomed - (todo - {k})| == |doomed - todo| + 1
    ensures k !in doomed ==> doomed - (todo - {k}) == doomed - todo
  {
    if k in doomed { assert doomed - (todo - {k}) == (doomed - todo) + {k}; }
  }

  lemma WithoutNone(p: Pool)
    ensures Without(p, {}) == p
  {
    assert p.conns - {} == p.conns;
  }

  lemma UpdateSize(conns: Conns, k: Key, c: Conn)
    ensures |conns[k := c]| == |conns| + if k in conns then 0 else 1
  {
    assert conns[k := c].Keys == conns.Keys + {k};
    assert |conns[k := c]| == |conns[k := c].Keys|;
  }

  lemma StepAccounts(cfg: Config, p: Pool, op: Op)
    requires Accounts(cfg, p)
    ensures Accounts(cfg, Step(cfg, p, op))
  {
    match op
    case Get(k, now, createOk) =>
      if CanReuse(cfg, p, k) {
        var c := p.conns[k];
        UpdateSize(p.conns, k, c.(lastUsedAt := now, usageCount := c.usageCount + 1));
      } else {
        var idle := Idle(cfg, p.conns, now);
        WithoutAccounts(cfg, p, idle);
        UpdateSize(p.conns, k, Conn(now, now, 1, true));
        UpdateSize((p.conns - idle), k, Conn(now, now, 1, true));
      }
    case Remove(k) => if k in p.conns { WithoutAccounts(cfg, p, {k}); }
    case Cleanup(now) => WithoutAccounts(cfg, p, Stale(cfg, p.conns, now));
    case CheckHealth(k, h) => if k in p.conns { UpdateSize(p.conns, k, p.conns[k].(healthy := h)); }
  }

  lemma {:induction false} RunAccounts(cfg: Config, p: Pool, ops: seq<Op>)
    requires Accounts(cfg, p)
    ensures Accounts(cfg, Run(cfg, p, ops))
    ensures p.overwritten <= Run(cfg, p, ops).overwritten
  {
    if ops != [] {
      RunAccounts(cfg, p, ops[..|ops| - 1]);
      StepAccounts(cfg, Run(cfg, p, ops[..|ops| - 1]), ops[|ops| - 1]);
    }
  }

  // ------------------------------------------------------------------------------ lost capacity

  /** What overwriting leaves usable of the limit. */
  function Capacity(cfg: Config, p: Pool): int { Max(0, cfg.maxActive) - p.overwritten }

  lemma StepKeepsOneFree(cfg: Config, p: Pool, op: Op)
    requires Accounts(cfg, p) && (p.overwritten == 0 || p.overwritten < cfg.maxActive)
    ensures var q := Step(cfg, p, op); q.overwritten == 0 || q.overwritten < cfg.maxActive
  {
    StepAccounts(cfg, p, op);
    var q := Step(cfg, p, op);
    if q.overwritten != p.overwritten {
      assert op.k in q.conns;
      assert |q.conns| == |q.conns.Keys|;
      assert |q.conns.Keys| >= 1;
    }
  }

  lemma {:induction false} OneStaysFree(cfg: Config, ops: seq<Op>)
    ensures var q := Run(cfg, EMPTY, ops); q.overwritten == 0 || q.overwritten < cfg.maxActive
  {
    if ops != [] {
      OneStaysFree(cfg, ops[..|ops| - 1]);
      RunAccounts(cfg, EMPTY, ops[..|ops| - 1]);
      StepKeepsOneFree(cfg, Run(cfg, EMPTY, ops[..|ops| - 1]), ops[|ops| - 1]);
    }
  }

  lemma {:induction false} RunConcat(cfg: Config, p: Pool, ops: seq<Op>, more: seq<Op>)
    ensures Run(cfg, p, ops + more) == Run(cfg, Run(cfg, p, ops), more)
  {
    if more == [] {
      assert ops + more == ops;
    } else {
      RunConcat(cfg, p, ops, more[..|more| - 1]);
      assert ops + more == (ops + more[..|more| - 1]) + [more[|more| - 1]];
      Snoc(ops + more[..|more| - 1], more[|more| - 1]);
    }
  }

  /**
   * In every run of the pool, capacity lost to overwriting is never given back, whatever is cleaned
   * up, removed or evicted later: the pool never again holds more than what is left.  But with a
   * positive limit there is always at least one connection left to hold.
   */
  lemma CapacityNeverRecovers(cfg: Config, ops: seq<Op>, more: seq<Op>)
    ensures var p, q := Run(cfg, EMPTY, ops), Run(cfg, EMPTY, ops + more);
            |q.conns| <= Capacity(cfg, q) <= Capacity(cfg, p) && (cfg.maxActive > 0 ==> Capacity(cfg, q) >= 1)
  {
    RunAccounts(cfg, EMPTY, ops);
    RunConcat(cfg, EMPTY, ops, more);
    RunAccounts(cfg, Run(cfg, EMPTY, ops), more);
    OneStaysFree(cfg, ops + more);
  }

  /** A connection that cannot be reused is refused exactly when the capacity left is in use by busy ones. */
  lemma RefusedExactly(cfg: Config, ops: seq<Op>, k: Key, now: int, createOk: bool)
    requires cfg.maxActive > 0
    ensures var p := Run(cfg, EMPTY, ops);
            GetResult(cfg, p, k, now, createOk).0 == Exhausted <==>
            !CanReuse(cfg, p, k) && |p.conns| == Capacity(cfg, p) && Idle(cfg, p.conns, now) == {}
  {
    RunAccounts(cfg, EMPTY, ops);
  }

  /** One server, asked for again and again after each of its connections was found unhealthy. */
  function Flapping(k: Key, n: nat): seq<Op> {
    if n == 0 then [] else Flapping(k, n - 1) + [Get(k, 0, true)] + [CheckHealth(k, false)]
  }

  /** What `n` rounds of that leave: one entry, the others' counts lost. */
  function Flapped(k: Key, n: nat): Pool {
    if n == 0 then EMPTY else Pool(map[k := Conn(0, 0, 1, false)], n, n, 0, n - 1)
  }

  /** One round on what the rounds before it left. */
  lemma OneRound(cfg: Config, k: Key, n: nat)
    requires n < cfg.maxActive
    ensures Step(cfg, Step(cfg, Flapped(k, n), Get(k, 0, true)), CheckHealth(k, false)) == Flapped(k, n + 1)
  {
    var p := Flapped(k, n);
    assert Step(cfg, p, Get(k, 0, true)) == Stored(p, k, 0);
    assert Stored(p, k, 0).conns == map[k := Conn(0, 0, 1, true)];
    assert map[k := Conn(0, 0, 1, true)][k := Conn(0, 0, 1, false)] == map[k := Conn(0, 0, 1, false)];
  }

  lemma {:induction false} FlappingLoses(cfg: Config, k: Key, n: nat)
    requires n <= Max(0, cfg.maxActive)
    ensures Run(cfg, EMPTY, Flapping(k, n)) == Flapped(k, n)
  {
    if n > 0 {
      FlappingLoses(cfg, k, n - 1);
      OneRound(cfg, k, n - 1);
      RunTwoMore(cfg, Flapping(k, n - 1), Get(k, 0, true), CheckHealth(k, false));
    }
  }

  lemma RunTwoMore(cfg: Config, ops: seq<Op>, a: Op, b: Op)
    ensures Run(cfg, EMPTY, ops + [a] + [b]) == Step(cfg, Step(cfg, Run(cfg, EMPTY, ops), a), b)
  {
    Snoc(ops, a);
    Snoc(ops + [a], b);
  }

  /** The loss is real and can go all the way: whatever the configuration, one flapping server takes all but one. */
  lemma AllButOneCanBeLost(cfg: Config, k: Key)
    requires cfg.maxActive > 0
    ensures Capacity(cfg, Run(cfg, EMPTY, Flapping(k, cfg.maxActive))) == 1
  {
    FlappingLoses(cfg, k, cfg.maxActive);
  }

  /** An entry is overwritten exactly when a connection is created where one not reusable is stored. */
  lemma OverwritesExactly(cfg: Config, p: Pool, k: Key, now: int, createOk: bool)
    requires Accounts(cfg, p)
    ensures var (r, p') := GetResult(cfg, p, k, now, createOk);
            p'.overwritten > p.overwritten <==>
            && createOk && k in p.conns && !CanReuse(cfg, p, k)
            && (p.active < cfg.maxActive || (Idle(cfg, p.conns, now) != {} && !IsIdle(cfg, p.conns[k], now)))
  {
  }

  // ------------------------------------------------------------------------------ what is kept

  /** When the connection to `k` was made, and when it was last handed out. */
  datatype Use = Use(made: int, used: int)

  /** Read off the run alone: a connection is made where none is reusable, and used each time it is handed out. */
  function NextUse(cfg: Config, p: Pool, op: Op, k: Key, use: Option<Use>): Option<Use> {
    if op.Get? && op.k == k then
      match GetResult(cfg, p, k, op.now, op.createOk).0
      case Created => Some(Use(op.now, op.now))
      case Reused => if use.Some? then Some(use.value.(used := op.now)) else None
      case _ => use
    else use
  }

  function UseOf(cfg: Config, ops: seq<Op>, k: Key): Option<Use> {
    if ops == [] then None
    else
      var before := ops[..|ops| - 1];
      NextUse(cfg, Run(cfg, EMPTY, before), ops[|ops| - 1], k, UseOf(cfg, before, k))
  }

  lemma UseStep(cfg: Config, p: Pool, op: Op, k: Key, use: Option<Use>)
    requires k in p.conns ==> use == Some(Use(p.conns[k].createdAt, p.conns[k].lastUsedAt))
    ensures var q := Step(cfg, p, op);
            k in q.conns ==> NextUse(cfg, p, op, k, use) == Some(Use(q.conns[k].createdAt, q.conns[k].lastUsedAt))
  {
  }

  lemma {:induction false} TimesAreTrue(cfg: Config, ops: seq<Op>, k: Key)
    ensures var p := Run(cfg, EMPTY, ops);
            k in p.conns ==> UseOf(cfg, ops, k) == Some(Use(p.conns[k].createdAt, p.conns[k].lastUsedAt))
  {
    if ops != [] {
      var before := ops[..|ops| - 1];
      TimesAreTrue(cfg, before, k);
      UseStep(cfg, Run(cfg, EMPTY, before), ops[|ops| - 1], k, UseOf(cfg, before, k));
    }
  }

  /** The operation may take the connection made and used at these times. */
  predicate MayTake(cfg: Config, p: Pool, op: Op, k: Key, use: Use) {
    match op
    case Get(k', now, _) => p.active >= cfg.maxActive && !CanReuse(cfg, p, k') && now - use.used > cfg.idleTimeout
    case Remove(k') => k' == k
    case Cleanup(now) => now - use.used > cfg.idleTimeout || now - use.made > cfg.ttl
    case CheckHealth(_, _) => false
  }

  /**
   * In every run, a stored connection goes exactly when it is removed by name, when cleanup finds
   * it unused for longer than the idle timeout or older than its time to live, or when a request
   * at the limit finds it unused that long; and of these the last puts a new one in its place if
   * it is for the same server.
   */
  lemma LeavesExactly(cfg: Config, ops: seq<Op>, op: Op, k: Key)
    requires k in Run(cfg, EMPTY, ops).conns
    ensures UseOf(cfg, ops, k).Some?
    ensures var p, q := Run(cfg, EMPTY, ops), Run(cfg, EMPTY, ops + [op]);
            var created := op.Get? && op.k == k && GetResult(cfg, p, k, op.now, op.createOk).0 == Created;
            k !in q.conns <==> MayTake(cfg, p, op, k, UseOf(cfg, ops, k).value) && !created
  {
    Snoc(ops, op);
    TimesAreTrue(cfg, ops, k);
    TakenExactly(cfg, Run(cfg, EMPTY, ops), op, k);
  }

  lemma TakenExactly(cfg: Config, p: Pool, op: Op, k: Key)
    requires k in p.conns
    ensures var use := Use(p.conns[k].createdAt, p.conns[k].lastUsedAt);
            var created := op.Get? && op.k == k && GetResult(cfg, p, k, op.now, op.createOk).0 == Created;
            k !in Step(cfg, p, op).conns <==> MayTake(cfg, p, op, k, use) && !created
  {
    if op.Get? {
      assert k in Idle(cfg, p.conns, op.now) <==> IsIdle(cfg, p.conns[k], op.now);
    } else if op.Cleanup? {
      assert k in Stale(cfg, p.conns, op.now) <==>
             IsIdle(cfg, p.conns[k], op.now) || IsExpired(cfg, p.conns[k], op.now);
    }
  }

  /** A connection handed out within the idle timeout is never evicted to make room. */
  lemma RecentlyUsedIsKept(cfg: Config, ops: seq<Op>, k: Key, k': Key, now: int, createOk: bool)
    requires k in Run(cfg, EMPTY, ops).conns && UseOf(cfg, ops, k).Some?
    requires now - UseOf(cfg, ops, k).value.used <= cfg.idleTimeout
    ensures k in Run(cfg, EMPTY, ops + [Get(k', now, createOk)]).conns
  {
    LeavesExactly(cfg, ops, Get(k', now, createOk), k);
  }

  /** A healthy stored connection is reused where reuse is on, and then nothing is made. */
  lemma ReusedExactly(cfg: Config, p: Pool, k: Key, now: int, createOk: bool)
    ensures GetResult(cfg, p, k, now, createOk).0 == Reused <==> cfg.reuse && k in p.conns && p.conns[k].healthy
    ensures var (r, q) := GetResult(cfg, p, k, now, createOk);
            && (q.total == p.total + if r == Created then 1 else 0)
            && (r == Reused || r == Created ==> k in q.conns && q.conns[k].lastUsedAt == now)
            && (r == Reused ==> q.conns[k].usageCount == p.conns[k].usageCount + 1
                                && q.conns[k].createdAt == p.conns[k].createdAt)
  {
  }

  // --------------------------------------------------------------------------- the mutable object

  class Connections {
    const cfg: Config
    var conns: Conns
    var active: int
    var total: int
    ghost var removed: nat
    ghost var overwritten: nat

    ghost function Model(): Pool
      reads this
    {
      Pool(conns, active, total, removed, overwritten)
    }

    ghost predicate Valid()
      reads this
    {
      Accounts(cfg, Model())
    }

    constructor (cfg: Config)
      ensures this.cfg == cfg && Model() == EMPTY && Valid()
    {
      this.cfg := cfg;
      conns, active, total, removed, overwritten := map[], 0, 0, 0, 0;
    }

    method GetConnection(k: Key, now: int, createOk: bool) returns (r: Result)
      requires Valid()
      modifies this
      ensures Valid() && (r, Model()) == GetResult(cfg, old(Model()), k, now, createOk)
    {
      StepAccounts(cfg, Model(), Get(k, now, createOk));
      if cfg.reuse && k in conns && conns[k].healthy {
        conns := conns[k := conns[k].(lastUsedAt := now, usageCount := conns[k].usageCount + 1)];
        return Reused;
      }
      if active >= cfg.maxActive {
        WithoutNone(Model());
        var evicted := EvictIdle(now);
        if evicted == 0 { return Exhausted; }
      }
      if !createOk { return CreateFailed; }
      Store(k, now);
      return Created;
    }

    method Store(k: Key, now: int)
      modifies this
      ensures Model() == Stored(old(Model()), k, now)
    {
      if k in conns { overwritten := overwritten + 1; }
      conns := conns[k := Conn(now, now, 1, true)];
      active := active + 1;
      total := total + 1;
    }

    method EvictIdle(now: int) returns (evicted: nat)
      requires Valid()
      modifies this
      ensures Valid() && Model() == Without(old(Model()), Idle(cfg, old(conns), now))
      ensures evicted == |Idle(cfg, old(conns), now)|
    {
      WithoutAccounts(cfg, Model(), Idle(cfg, conns, now));
      evicted := Sweep(now, false);
    }

    method PerformCleanup(now: int)
      requires Valid()
      modifies this
      ensures Valid() && Model() == Step(cfg, old(Model()), Cleanup(now))
    {
      WithoutAccounts(cfg, Model(), Stale(cfg, conns, now));
      var n := Sweep(now, true);
    }

    /** Visits every entry and removes the doomed ones on the way. */
    method Sweep(now: int, evenBusy: bool) returns (n: nat)
      modifies this
      ensures var ks := DoomedKeys(cfg, old(conns), now, evenBusy);
              Model() == Without(old(Model()), ks) && n == |ks|
    {
      n := 0;
      var todo := conns.Keys;
      ghost var start, doomed := Model(), DoomedKeys(cfg, conns, now, evenBusy);
      WithoutNone(start);
      assert doomed - todo == {};
      while todo != {}
        invariant todo <= start.conns.Keys && n == |doomed - todo|
        invariant Model() == Without(start, doomed - todo)
        decreases todo
      {
        var k :| k in todo;
        assert k in conns && conns[k] == start.conns[k];
        Visited(doomed, todo, k);
        if Doomed(cfg, conns[k], now, evenBusy) {
          WithoutOneMore(start, doomed - todo, k);
          Drop(k);
          n := n + 1;
        }
        todo := todo - {k};
      }
      assert doomed - todo == doomed;
    }

    method Drop(k: Key)
      modifies this
      ensures Model() == Without(old(Model()), {k})
    {
      conns := conns - {k};
      active := active - 1;
      removed := removed + 1;
    }

    method RemoveConnection(k: Key) returns (found: bool)
      requires Valid()
      modifies this
      ensures Valid() && Model() == Step(cfg, old(Model()), Remove(k))
      ensures found <==> k in old(conns)
    {
      StepAccounts(cfg, Model(), Remove(k));
      if k in conns {
        Drop(k);
        return true;
      }
      return false;
    }
  }
}
