/**
 * The router's load-balancer cache against the discovery registry: `getLoadBalancer`,
 * `updateLoadBalancers` and `invalidateLoadBalancer` of services/gateway/internal/router/router.go
 * with the endpoint events of services/gateway/internal/discovery/kubernetes.go.
 *
 * One goroutine handles the endpoint events of each Kubernetes namespace: it notes the affected
 * MCP namespaces, later re-indexes the registry, and then calls back once per affected namespace.
 * A loader holds the cache's lock from before it reads the registry until it has stored the list,
 * so callbacks and flushes cannot run in between, but re-indexing can.
 */
module BalancerCache {
  import opened Common
  import opened Discovery
  import opened Registry

  /** What the handler of a Kubernetes namespace is doing; absent means waiting for an event. */
  datatype Handler =
    | Tracked(incoming: seq<Endpoint>, affected: set<string>)
    | Notifying(todo: set<string>)

  datatype Load = Load(ns: string, list: seq<Endpoint>)

  datatype Sys = Sys(
    reg: Reg,
    cache: map<string, seq<Endpoint>>,
    loader: Option<Load>,
    handlers: map<string, Handler>)

  datatype Event =
    | Track(k: string, incoming: seq<Endpoint>)
    | Update(k: string)
    | Notify(k: string, ns: string)
    | Settle(k: string)
    | BeginLoad(ns: string)
    | FinishLoad
    | FlushAll

  predicate Enabled(s: Sys, e: Event) {
    match e
    case Track(k, incoming) => k !in s.handlers && AllFrom(incoming, k)
    case Update(k) => k in s.handlers && s.handlers[k].Tracked?
    case Notify(k, ns) => s.loader.None? && k in s.handlers && s.handlers[k].Notifying? && ns in s.handlers[k].todo
    case Settle(k) => k in s.handlers && s.handlers[k].Notifying? && s.handlers[k].todo == {}
    case BeginLoad(ns) => s.loader.None?
    case FinishLoad => s.loader.Some?
    case FlushAll => s.loader.None?
  }

  function Step(s: Sys, e: Event): Sys
    requires Enabled(s, e)
  {
    match e
    case Track(k, incoming) =>
      s.(handlers := s.handlers[k := Tracked(incoming, Affected(s.reg, k, incoming))])
    case Update(k) =>
      var h := s.handlers[k];
      s.(reg := Reindexed(s.reg, k, h.incoming), handlers := s.handlers[k := Notifying(h.affected)])
    case Notify(k, ns) =>
      s.(cache := s.cache - {ns}, handlers := s.handlers[k := Notifying(s.handlers[k].todo - {ns})])
    case Settle(k) => s.(handlers := s.handlers - {k})
    case BeginLoad(ns) =>
      if ns in s.cache || ListOf(s.reg, ns) == [] then s
      else s.(loader := Some(Load(ns, ListOf(s.reg, ns))))
    case FinishLoad => s.(cache := s.cache[s.loader.value.ns := s.loader.value.list], loader := None)
    case FlushAll => s.(cache := map[])
  }

  predicate Leads(s: Sys, es: seq<Event>, t: Sys)
    decreases es
  {
    if es == [] then s == t
    else Enabled(s, es[0]) && Leads(Step(s, es[0]), es[1..], t)
  }

  // ------------------------------------------------------------------------------ invariants

  /** Some unfinished update still has to call back for `ns`. */
  predicate Awaited(s: Sys, ns: string) {
    exists k <- s.handlers :: s.handlers[k].Notifying? && ns in s.handlers[k].todo
  }

  /** `list` is what the registry holds for `ns`, or `ns` awaits a callback. */
  predicate Coherent(s: Sys, ns: string, list: seq<Endpoint>) {
    list == ListOf(s.reg, ns) || Awaited(s, ns)
  }

  predicate Inv(s: Sys) {
    && Shaped(s.reg)
    && (forall k <- s.handlers :: s.handlers[k].Tracked? ==>
          && AllFrom(s.handlers[k].incoming, k)
          && s.handlers[k].affected == Affected(s.reg, k, s.handlers[k].incoming))
    && (forall ns <- s.cache :: Coherent(s, ns, s.cache[ns]))
    && (s.loader.Some? ==> Coherent(s, s.loader.value.ns, s.loader.value.list))
  }

  /** Re-indexing changes a list only if its namespace is among those it then has to notify. */
  lemma UpdateKeepsCoherence(s: Sys, k: string, ns: string, list: seq<Endpoint>)
    requires Inv(s) && Enabled(s, Update(k)) && Coherent(s, ns, list)
    ensures Coherent(Step(s, Update(k)), ns, list)
  {
    var s' := Step(s, Update(k));
    if ListOf(s'.reg, ns) != ListOf(s.reg, ns) {
      ChangedIsAffected(s.reg, k, s.handlers[k].incoming, ns);
      assert k in s'.handlers;
    } else if Awaited(s, ns) {
      var k' :| k' in s.handlers && s.handlers[k'].Notifying? && ns in s.handlers[k'].todo;
      assert k' in s'.handlers;
    }
  }

  lemma UpdateKeepsTracking(s: Sys, k: string, k': string)
    requires Inv(s) && Enabled(s, Update(k))
    requires k != k' && k' in s.handlers && s.handlers[k'].Tracked?
    ensures s.handlers[k'].affected == Affected(Step(s, Update(k)).reg, k', s.handlers[k'].incoming)
  {
    AffectedIsStable(s.reg, k', s.handlers[k'].incoming, k, s.handlers[k].incoming);
  }

  lemma UpdateKeepsInv(s: Sys, k: string)
    requires Inv(s) && Enabled(s, Update(k))
    ensures Inv(Step(s, Update(k)))
  {
    var s' := Step(s, Update(k));
    ReindexKeepsShape(s.reg, k, s.handlers[k].incoming);
    forall k' | k' in s.handlers && k' != k && s.handlers[k'].Tracked?
      ensures s.handlers[k'].affected == Affected(s'.reg, k', s.handlers[k'].incoming) {
      UpdateKeepsTracking(s, k, k');
    }
    forall ns <- s.cache ensures Coherent(s', ns, s.cache[ns]) {
      UpdateKeepsCoherence(s, k, ns, s.cache[ns]);
    }
    if s.loader.Some? { UpdateKeepsCoherence(s, k, s.loader.value.ns, s.loader.value.list); }
  }

  /** Steps that leave the registry alone and only retire callbacks for namespaces not in question. */
  lemma AwaitedKept(s: Sys, s': Sys, ns: string)
    requires forall k <- s.handlers :: s.handlers[k].Notifying? && ns in s.handlers[k].todo ==>
               k in s'.handlers && s'.handlers[k].Notifying? && ns in s'.handlers[k].todo
    ensures Awaited(s, ns) ==> Awaited(s', ns)
  {
  }

  lemma StepKeepsInv(s: Sys, e: Event)
    requires Inv(s) && Enabled(s, e)
    ensures Inv(Step(s, e))
  {
    var s' := Step(s, e);
    match e
    case Update(k) => UpdateKeepsInv(s, k);
    case Notify(k, ns) =>
      forall n <- s'.cache ensures Coherent(s', n, s'.cache[n]) { AwaitedKept(s, s', n); }
    case _ =>
      forall n ensures Awaited(s, n) ==> Awaited(s', n) { AwaitedKept(s, s', n); }
  }

  // ---------------------------------------------------------------------------- main results

  /**
   * Coherence under every interleaving: a cached list, and a list about to be cached, is the
   * registry's, or its namespace still awaits a callback of an unfinished update.
   */
  lemma {:induction false} CacheStaysCoherent(s: Sys, es: seq<Event>, t: Sys)
    requires Inv(s) && Leads(s, es, t)
    ensures Inv(t)
    decreases es
  {
    if es != [] {
      StepKeepsInv(s, es[0]);
      CacheStaysCoherent(Step(s, es[0]), es[1..], t);
    }
  }

  /** Once no update is calling back any more, every cached list is exactly the registry's. */
  lemma QuietCacheAgrees(reg: Reg, es: seq<Event>, t: Sys, ns: string)
    requires Shaped(reg) && Leads(Sys(reg, map[], None, map[]), es, t)
    requires forall k <- t.handlers :: !t.handlers[k].Notifying?
    requires ns in t.cache
    ensures t.cache[ns] == ListOf(t.reg, ns)
  {
    CacheStaysCoherent(Sys(reg, map[], None, map[]), es, t);
  }

  // -------------------------------------------------------------------------- the mutable object

  // ------------------------------------------------------------------------------ what lookups do

  /** A whole lookup: the list answered and the cache left behind. */
  function LookedUp(cache: map<string, seq<Endpoint>>, reg: Reg, ns: string):
      (Option<seq<Endpoint>>, map<string, seq<Endpoint>>)
  {
    if ns in cache then (Some(cache[ns]), cache)
    else if ListOf(reg, ns) == [] then (None, cache)
    else (Some(ListOf(reg, ns)), cache[ns := ListOf(reg, ns)])
  }

  /** Only these steps leave the registry alone and touch neither cache nor lookup. */
  predicate Elsewhere(e: Event) { e.Track? || e.Update? || e.Settle? }

  /**
   * The two steps of a lookup, whatever events are tracked, applied and settled in between, leave in
   * the cache what the lookup of the registry at its first step says, and nothing else changes there.
   */
  lemma {:induction false} LookupStores(s: Sys, ns: string, es: seq<Event>, t: Sys)
    requires Enabled(s, BeginLoad(ns)) && Leads(Step(s, BeginLoad(ns)), es, t)
    requires forall e <- es :: Elsewhere(e)
    ensures var cache' := LookedUp(s.cache, s.reg, ns).1;
            if t.loader.Some? then Step(t, FinishLoad).cache == cache' && Step(t, FinishLoad).loader.None?
            else t.cache == cache'
    ensures t.loader.Some? <==> ns !in s.cache && ListOf(s.reg, ns) != []
  {
    KeptMeanwhile(Step(s, BeginLoad(ns)), es, t);
  }

  lemma {:induction false} KeptMeanwhile(s: Sys, es: seq<Event>, t: Sys)
    requires Leads(s, es, t) && forall e <- es :: Elsewhere(e)
    ensures t.cache == s.cache && t.loader == s.loader
    decreases es
  {
    if es != [] {
      assert Elsewhere(es[0]);
      KeptMeanwhile(Step(s, es[0]), es[1..], t);
    }
  }

  /** A callback removes its one namespace, a flush all, and nothing else is ever removed. */
  lemma RemovedExactly(s: Sys, e: Event, ns: string)
    requires Enabled(s, e) && ns in s.cache
    ensures ns !in Step(s, e).cache <==> e.FlushAll? || (e.Notify? && e.ns == ns)
  {
  }

  /** The callbacks for the namespaces in `todo`, in some order, and the end of the event. */
  ghost predicate CallsBack(k: string, todo: set<string>, es: seq<Event>) {
    && es != [] && es[|es| - 1] == Settle(k)
    && (forall i :: 0 <= i < |es| - 1 ==> es[i].Notify? && es[i].k == k && es[i].ns in todo)
    && (forall ns <- todo :: Notify(k, ns) in es)
  }

  lemma {:induction false} CallbacksFinish(s: Sys, k: string, todo: set<string>) returns (es: seq<Event>, t: Sys)
    requires s.loader.None? && k in s.handlers && s.handlers[k] == Notifying(todo)
    ensures Leads(s, es, t) && CallsBack(k, todo, es)
    ensures t == s.(cache := s.cache - todo, handlers := s.handlers - {k})
    decreases todo
  {
    if todo == {} {
      es, t := [Settle(k)], Step(s, Settle(k));
      assert Leads(t, es[1..], t);
      assert s.cache - {} == s.cache;
    } else {
      var ns :| ns in todo;
      var s' := Step(s, Notify(k, ns));
      es, t := CallbacksFinish(s', k, todo - {ns});
      var rest := es;
      es := [Notify(k, ns)] + rest;
      assert es[1..] == rest;
      assert s'.cache - (todo - {ns}) == s.cache - todo;
      assert s'.handlers - {k} == s.handlers - {k};
      forall i | 0 <= i < |es| - 1 ensures es[i].Notify? && es[i].k == k && es[i].ns in todo {
        if i > 0 { assert es[i] == rest[i - 1]; }
      }
      forall n <- todo ensures Notify(k, n) in es {
        if n != ns { assert Notify(k, n) in rest; }
      }
    }
  }

  /** An event can always be carried through: it re-indexes, drops exactly the affected lists and is done. */
  lemma EventCompletes(s: Sys, k: string, incoming: seq<Endpoint>) returns (es: seq<Event>, t: Sys)
    requires s.loader.None? && k !in s.handlers && AllFrom(incoming, k)
    ensures Leads(s, es, t) && t.handlers == s.handlers && t.loader == s.loader
    ensures t.reg == Reindexed(s.reg, k, incoming) && t.cache == s.cache - Affected(s.reg, k, incoming)
  {
    var s1 := Step(s, Track(k, incoming));
    var s2 := Step(s1, Update(k));
    es, t := CallbacksFinish(s2, k, Affected(s.reg, k, incoming));
    var rest := es;
    es := [Track(k, incoming)] + ([Update(k)] + rest);
    assert ([Update(k)] + rest)[1..] == rest;
    assert Leads(s1, [Update(k)] + rest, t);
    assert es[1..] == [Update(k)] + rest;
    assert s2.handlers - {k} == s.handlers;
  }

  class BalancerTable {
    const discovery: KubernetesDiscovery
    var balancers: map<string, seq<Endpoint>>

    constructor (discovery: KubernetesDiscovery)
      ensures this.discovery == discovery && balancers == map[]
    {
      this.discovery := discovery;
      balancers := map[];
    }

    /** `getLoadBalancer` when nothing else runs: a balancer is built only for a non-empty list. */
    method GetLoadBalancer(ns: string) returns (lb: Option<seq<Endpoint>>)
      modifies this
      ensures old(ns in balancers) ==> lb == Some(old(balancers)[ns]) && balancers == old(balancers)
      ensures old(ns !in balancers) ==>
                var list := ListOf(discovery.endpoints, ns);
                && lb == (if list == [] then None else Some(list))
                && balancers == if list == [] then old(balancers) else old(balancers)[ns := list]
      ensures (lb, balancers) == LookedUp(old(balancers), discovery.endpoints, ns)
    {
      if ns in balancers { return Some(balancers[ns]); }
      var endpoints := discovery.GetEndpoints(ns);
      if |endpoints| == 0 { return None; }
      balancers := balancers[ns := endpoints];
      return Some(endpoints);
    }

    method UpdateLoadBalancers()
      modifies this
      ensures balancers == map[]
    {
      balancers := map[];
    }

    method InvalidateLoadBalancer(ns: string)
      modifies this
      ensures balancers == old(balancers) - {ns}
    {
      balancers := balancers - {ns};
    }

    /** A whole endpoint event with nothing else running leaves cache and registry in agreement. */
    method EndpointEvent(k: string, incoming: seq<Endpoint>)
      requires Shaped(discovery.endpoints)
      requires forall ns <- balancers :: balancers[ns] == ListOf(discovery.endpoints, ns)
      modifies this, discovery
      ensures discovery.endpoints == Reindexed(old(discovery.endpoints), k, incoming)
      ensures Shaped(discovery.endpoints)
      ensures forall ns <- balancers :: balancers[ns] == ListOf(discovery.endpoints, ns)
    {
      var affected := discovery.TrackAffectedNamespaces(k, incoming);
      ReindexKeepsShape(discovery.endpoints, k, incoming);
      discovery.UpdateEndpoints(k, incoming);
      var todo := affected;
      while todo != {}
        invariant todo <= affected && discovery.endpoints == Reindexed(old(discovery.endpoints), k, incoming)
        invariant balancers.Keys == old(balancers).Keys - (affected - todo)
        invariant forall ns <- balancers :: balancers[ns] == old(balancers)[ns]
        decreases todo
      {
        var ns :| ns in todo;
        InvalidateLoadBalancer(ns);
        todo := todo - {ns};
      }
      forall ns <- balancers ensures balancers[ns] == ListOf(discovery.endpoints, ns) {
        if ListOf(discovery.endpoints, ns) != ListOf(old(discovery.endpoints), ns) {
          ChangedIsAffected(old(discovery.endpoints), k, incoming, ns);
          assert false;
        }
      }
    }
  }
}
