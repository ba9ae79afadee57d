/**
 * The endpoint registry of services/gateway/internal/discovery/kubernetes.go: a map from MCP
 * namespace to endpoints, re-indexed when the endpoints of one Kubernetes namespace change.
 */
module Registry {
  import opened Common
  import opened Discovery

  type Reg = map<string, seq<Endpoint>>

  const K8S_NAMESPACE := "k8s_namespace"

  /** The endpoint was discovered in Kubernetes namespace `k`. */
  predicate IsFrom(ep: Endpoint, k: string) {
    K8S_NAMESPACE in ep.metadata && ep.metadata[K8S_NAMESPACE] == k
  }

  function ListOf(reg: Reg, ns: string): seq<Endpoint> {
    if ns in reg then reg[ns] else []
  }

  /** The endpoints that are (or are not) from `k`, in order. */
  function Select(eps: seq<Endpoint>, k: string, from: bool): seq<Endpoint> {
    if eps == [] then []
    else
      var rest, last := Select(eps[..|eps| - 1], k, from), eps[|eps| - 1];
      if IsFrom(last, k) == from then rest + [last] else rest
  }

  /** The endpoints of MCP namespace `ns`, in order. */
  function InNamespace(eps: seq<Endpoint>, ns: string): seq<Endpoint> {
    if eps == [] then []
    else
      var rest, last := InNamespace(eps[..|eps| - 1], ns), eps[|eps| - 1];
      if last.namespace == ns then rest + [last] else rest
  }

  function Namespaces(eps: seq<Endpoint>): set<string> {
    set ep <- eps :: ep.namespace
  }

  /** The list for `ns` once `incoming` has replaced what `k` had there. */
  function After(reg: Reg, k: string, incoming: seq<Endpoint>, ns: string): seq<Endpoint> {
    Select(ListOf(reg, ns), k, false) + InNamespace(incoming, ns)
  }

  function Reindexed(reg: Reg, k: string, incoming: seq<Endpoint>): Reg {
    map ns <- reg.Keys + Namespaces(incoming) | After(reg, k, incoming, ns) != [] :: After(reg, k, incoming, ns)
  }

  /** The namespaces that had or will have an endpoint from `k`. */
  function Affected(reg: Reg, k: string, incoming: seq<Endpoint>): set<string> {
    (set ns <- reg | Select(reg[ns], k, true) != []) + Namespaces(incoming)
  }

  /** Every endpoint sits under its own MCP namespace and no list is empty. */
  predicate Shaped(reg: Reg) {
    forall ns <- reg :: reg[ns] != [] && forall ep <- reg[ns] :: ep.namespace == ns
  }

  predicate AllFrom(eps: seq<Endpoint>, k: string) {
    forall ep <- eps :: IsFrom(ep, k)
  }

  // ----------------------------------------------------------------------------------- lists

  lemma {:induction false} SelectMembers(eps: seq<Endpoint>, k: string, from: bool)
    ensures forall ep <- Select(eps, k, from) :: ep in eps && IsFrom(ep, k) == from
  {
    if eps != [] { SelectMembers(eps[..|eps| - 1], k, from); }
  }

  lemma {:induction false} NamespaceMembers(eps: seq<Endpoint>, ns: string)
    ensures forall ep <- InNamespace(eps, ns) :: ep in eps && ep.namespace == ns
    ensures InNamespace(eps, ns) != [] ==> ns in Namespaces(eps)
  {
    if eps != [] { NamespaceMembers(eps[..|eps| - 1], ns); }
  }

  lemma {:induction false} SelectConcat(a: seq<Endpoint>, b: seq<Endpoint>, k: string, from: bool)
    ensures Select(a + b, k, from) == Select(a, k, from) + Select(b, k, from)
  {
    if b == [] {
      assert a + b == a;
    } else {
      assert (a + b)[..|a + b| - 1] == a + b[..|b| - 1];
      SelectConcat(a, b[..|b| - 1], k, from);
    }
  }

  /** Selecting from a list whose members all agree takes all or nothing. */
  lemma {:induction false} SelectUniform(eps: seq<Endpoint>, k: string, from: bool, agreed: bool)
    requires forall ep <- eps :: IsFrom(ep, k) == agreed
    ensures Select(eps, k, from) == if from == agreed then eps else []
  {
    if eps != [] { SelectUniform(eps[..|eps| - 1], k, from, agreed); }
  }

  /** Dropping what is not from `k'` keeps, for another `k`, the endpoints from `k`. */
  lemma {:induction false} SelectOther(eps: seq<Endpoint>, k: string, k': string)
    requires k != k'
    ensures Select(Select(eps, k', false), k, true) == Select(eps, k, true)
  {
    if eps != [] {
      SelectOther(eps[..|eps| - 1], k, k');
      Snoc(Select(eps[..|eps| - 1], k', false), eps[|eps| - 1]);
    }
  }

  lemma AfterSnoc(reg: Reg, k: string, incoming: seq<Endpoint>, ep: Endpoint)
    ensures forall ns :: After(reg, k, incoming + [ep], ns) ==
                         if ep.namespace == ns then After(reg, k, incoming, ns) + [ep]
                         else After(reg, k, incoming, ns)
  {
    Snoc(incoming, ep);
  }

  lemma ListAfter(reg: Reg, k: string, incoming: seq<Endpoint>, ns: string)
    ensures ListOf(Reindexed(reg, k, incoming), ns) == After(reg, k, incoming, ns)
  {
    NamespaceMembers(incoming, ns);
  }

  /** Without empty lists, the lists determine the registry. */
  lemma ListsDetermine(reg': Reg, reg: Reg, k: string, incoming: seq<Endpoint>)
    requires forall ns :: ListOf(reg', ns) == After(reg, k, incoming, ns)
    requires forall ns <- reg' :: reg'[ns] != []
    ensures reg' == Reindexed(reg, k, incoming)
  {
    forall ns ensures ns in reg' <==> ns in Reindexed(reg, k, incoming) {
      ListAfter(reg, k, incoming, ns);
      assert ListOf(reg', ns) == After(reg, k, incoming, ns);
    }
  }

  // ------------------------------------------------------------------------------ main results

  /** An endpoint event keeps the registry's shape. */
  lemma ReindexKeepsShape(reg: Reg, k: string, incoming: seq<Endpoint>)
    requires Shaped(reg)
    ensures Shaped(Reindexed(reg, k, incoming))
  {
    var reg' := Reindexed(reg, k, incoming);
    forall ns: string, ep: Endpoint | ns in reg' && ep in reg'[ns] ensures ep.namespace == ns {
      SelectMembers(ListOf(reg, ns), k, false);
      NamespaceMembers(incoming, ns);
    }
  }

  /**
   * It replaces exactly the endpoints of the one Kubernetes namespace: in every list those from
   * elsewhere stay, in order, and those from `k` are now the incoming ones of that MCP namespace.
   */
  lemma ReindexReplacesExactly(reg: Reg, k: string, incoming: seq<Endpoint>, ns: string)
    requires AllFrom(incoming, k)
    ensures var was, now := ListOf(reg, ns), ListOf(Reindexed(reg, k, incoming), ns);
            Select(now, k, false) == Select(was, k, false) && Select(now, k, true) == InNamespace(incoming, ns)
  {
    ListAfter(reg, k, incoming, ns);
    NamespaceMembers(incoming, ns);
    SelectMembers(ListOf(reg, ns), k, false);
    SelectSplits(Select(ListOf(reg, ns), k, false), InNamespace(incoming, ns), k);
  }

  lemma SelectSplits(kept: seq<Endpoint>, added: seq<Endpoint>, k: string)
    requires AllFrom(added, k) && forall ep <- kept :: !IsFrom(ep, k)
    ensures Select(kept + added, k, false) == kept && Select(kept + added, k, true) == added
  {
    SelectConcat(kept, added, k, false);
    SelectConcat(kept, added, k, true);
    SelectUniform(kept, k, false, false);
    SelectUniform(kept, k, true, false);
    SelectUniform(added, k, false, true);
    SelectUniform(added, k, true, true);
  }

  /** Every MCP namespace whose list changes is notified. */
  lemma ChangedIsAffected(reg: Reg, k: string, incoming: seq<Endpoint>, ns: string)
    requires ListOf(Reindexed(reg, k, incoming), ns) != ListOf(reg, ns)
    ensures ns in Affected(reg, k, incoming)
  {
    if ns !in Affected(reg, k, incoming) {
      ListAfter(reg, k, incoming, ns);
      NamespaceMembers(incoming, ns);
      NothingSelected(ListOf(reg, ns), k);
    }
  }

  lemma {:induction false} NothingSelected(eps: seq<Endpoint>, k: string)
    requires Select(eps, k, true) == []
    ensures Select(eps, k, false) == eps
  {
    if eps != [] { NothingSelected(eps[..|eps| - 1], k); }
  }

  /** Another namespace's update does not move what an update of `k` will affect. */
  lemma AffectedIsStable(reg: Reg, k: string, incoming: seq<Endpoint>, k': string, incoming': seq<Endpoint>)
    requires k != k' && AllFrom(incoming', k')
    ensures Affected(Reindexed(reg, k', incoming'), k, incoming) == Affected(reg, k, incoming)
  {
    var reg' := Reindexed(reg, k', incoming');
    forall ns ensures Select(ListOf(reg', ns), k, true) == Select(ListOf(reg, ns), k, true) {
      ListAfter(reg, k', incoming', ns);
      NamespaceMembers(incoming', ns);
      SelectConcat(Select(ListOf(reg, ns), k', false), InNamespace(incoming', ns), k, true);
      SelectOther(ListOf(reg, ns), k, k');
      SelectUniform(InNamespace(incoming', ns), k, true, false);
    }
    forall ns ensures ns in Affected(reg', k, incoming) <==> ns in Affected(reg, k, incoming) {
      assert Select(ListOf(reg', ns), k, true) == Select(ListOf(reg, ns), k, true);
    }
  }

  // -------------------------------------------------------------------------- the mutable object

  class KubernetesDiscovery {
    var endpoints: Reg

    constructor ()
      ensures endpoints == map[]
    {
      endpoints := map[];
    }

    method TrackAffectedNamespaces(k: string, incoming: seq<Endpoint>) returns (affected: set<string>)
      ensures affected == Affected(endpoints, k, incoming)
    {
      affected := {};
      var todo := endpoints.Keys;
      while todo != {}
        invariant todo <= endpoints.Keys
        invariant affected == set ns <- endpoints.Keys - todo | Select(endpoints[ns], k, true) != []
        decreases todo
      {
        var ns :| ns in todo;
        var found := FindFrom(endpoints[ns], k);
        if found { affected := affected + {ns}; }
        todo := todo - {ns};
      }
      for i := 0 to |incoming|
        invariant affected ==
                  (set ns <- endpoints | Select(endpoints[ns], k, true) != []) + Namespaces(incoming[..i])
      {
        assert incoming[..i + 1] == incoming[..i] + [incoming[i]];
        affected := affected + {incoming[i].namespace};
      }
      assert incoming[..|incoming|] == incoming;
    }

    method UpdateEndpoints(k: string, incoming: seq<Endpoint>)
      modifies this
      ensures endpoints == Reindexed(old(endpoints), k, incoming)
    {
      RemoveOld(k);
      for i := 0 to |incoming|
        invariant forall ns :: ListOf(endpoints, ns) == After(old(endpoints), k, incoming[..i], ns)
        invariant forall ns <- endpoints :: endpoints[ns] != []
      {
        var ep := incoming[i];
        assert incoming[..i + 1] == incoming[..i] + [ep];
        AfterSnoc(old(endpoints), k, incoming[..i], ep);
        endpoints := endpoints[ep.namespace := ListOf(endpoints, ep.namespace) + [ep]];
      }
      assert incoming[..|incoming|] == incoming;
      ListsDetermine(endpoints, old(endpoints), k, incoming);
    }

    /** First loop: drops the old endpoints from `k`, and lists that become empty. */
    method RemoveOld(k: string)
      modifies this
      ensures endpoints.Keys <= old(endpoints).Keys
      ensures forall ns :: ListOf(endpoints, ns) == Select(ListOf(old(endpoints), ns), k, false)
      ensures forall ns <- endpoints :: endpoints[ns] != []
    {
      var todo := endpoints.Keys;
      while todo != {}
        invariant todo <= endpoints.Keys <= old(endpoints).Keys
        invariant forall ns <- todo :: endpoints[ns] == old(endpoints)[ns]
        invariant forall ns :: ns !in todo ==>
                    ListOf(endpoints, ns) == Select(ListOf(old(endpoints), ns), k, false)
        invariant forall ns <- endpoints :: ns in todo || endpoints[ns] != []
        decreases todo
      {
        var ns :| ns in todo;
        var filtered := FilterOut(endpoints[ns], k);
        if |filtered| > 0 {
          endpoints := endpoints[ns := filtered];
        } else {
          endpoints := endpoints - {ns};
        }
        todo := todo - {ns};
      }
    }

    /** A copy of the list; the registry may change while the caller uses it. */
    method GetEndpoints(ns: string) returns (r: seq<Endpoint>)
      ensures r == ListOf(endpoints, ns)
    {
      r := if ns in endpoints then endpoints[ns] else [];
    }
  }

  method FindFrom(eps: seq<Endpoint>, k: string) returns (found: bool)
    ensures found <==> Select(eps, k, true) != []
  {
    found := false;
    for i := 0 to |eps|
      invariant found <==> Select(eps[..i], k, true) != []
    {
      assert eps[..i + 1] == eps[..i] + [eps[i]];
      Snoc(eps[..i], eps[i]);
      if IsFrom(eps[i], k) { found := true; }
    }
    assert eps[..|eps|] == eps;
  }

  method FilterOut(eps: seq<Endpoint>, k: string) returns (filtered: seq<Endpoint>)
    ensures filtered == Select(eps, k, false)
  {
    filtered := [];
    for i := 0 to |eps|
      invariant filtered == Select(eps[..i], k, false)
    {
      assert eps[..i + 1] == eps[..i] + [eps[i]];
      Snoc(eps[..i], eps[i]);
      if !IsFrom(eps[i], k) { filtered := filtered + [eps[i]]; }
    }
    assert eps[..|eps|] == eps;
  }
}
