/** Least-connections selection of services/gateway/pkg/loadbalancer/loadbalancer.go. */
module LeastConnections {
  import opened Common
  import opened Discovery

  const MAX_INT64: int := 0x7fff_ffff_ffff_ffff

  type Counts = map<string, int>

  function Conns(m: Counts, address: string): int {
    if address in m then m[address] else 0
  }

  /** The first healthy endpoint, among the first `i`, whose count is least and below the maximum. */
  function Pick(eps: seq<Endpoint>, m: Counts, i: nat): (r: Option<nat>)
    requires i <= |eps|
    ensures r.Some? ==>
              && r.value < i && eps[r.value].healthy && Conns(m, eps[r.value].address) < MAX_INT64
              && (forall k :: 0 <= k < i && eps[k].healthy ==>
                    Conns(m, eps[r.value].address) <= Conns(m, eps[k].address))
              && (forall k :: 0 <= k < r.value && eps[k].healthy ==>
                    Conns(m, eps[r.value].address) < Conns(m, eps[k].address))
    ensures r.None? ==>
              forall k :: 0 <= k < i && eps[k].healthy ==> Conns(m, eps[k].address) >= MAX_INT64
  {
    if i == 0 then None
    else
      var best := Pick(eps, m, i - 1);
      var least := if best.Some? then Conns(m, eps[best.value].address) else MAX_INT64;
      if eps[i - 1].healthy && Conns(m, eps[i - 1].address) < least then Some(i - 1) else best
  }

  datatype Op = Select | Release(address: string)

  function Step(eps: seq<Endpoint>, m: Counts, op: Op): Counts {
    match op
    case Select =>
      var j := Pick(eps, m, |eps|);
      if j.None? then m else m[eps[j.value].address := Conns(m, eps[j.value].address) + 1]
    case Release(a) => if a in m && m[a] > 0 then m[a := m[a] - 1] else m
  }

  /** +1 for a selection that succeeds, -1 for a release that has something to release. */
  function Effect(eps: seq<Endpoint>, m: Counts, op: Op): int {
    match op
    case Select => if Pick(eps, m, |eps|).Some? then 1 else 0
    case Release(a) => if a in m && m[a] > 0 then -1 else 0
  }

  function Run(eps: seq<Endpoint>, m: Counts, ops: seq<Op>): Counts {
    if ops == [] then m else Step(eps, Run(eps, m, ops[..|ops| - 1]), ops[|ops| - 1])
  }

  function NetEffect(eps: seq<Endpoint>, m: Counts, ops: seq<Op>): int {
    if ops == [] then 0
    else NetEffect(eps, m, ops[..|ops| - 1]) +
         Effect(eps, Run(eps, m, ops[..|ops| - 1]), ops[|ops| - 1])
  }

  predicate InRange(m: Counts) {
    forall a <- m :: 0 <= m[a] <= MAX_INT64
  }

  // -------------------------------------------------------------------------------- balance

  /** No healthy endpoint is more than one connection ahead of another. */
  predicate Balanced(eps: seq<Endpoint>, m: Counts) {
    forall i, k :: 0 <= i < |eps| && 0 <= k < |eps| && eps[i].healthy && eps[k].healthy ==>
      Conns(m, eps[i].address) <= Conns(m, eps[k].address) + 1
  }

  /** While nothing is released, a balanced start stays balanced through any number of selections. */
  lemma {:induction false} SelectionsStayBalanced(eps: seq<Endpoint>, m: Counts, ops: seq<Op>)
    requires Balanced(eps, m) && forall op <- ops :: op.Select?
    ensures Balanced(eps, Run(eps, m, ops))
  {
    if ops != [] {
      SelectionsStayBalanced(eps, m, ops[..|ops| - 1]);
    }
  }

  // --------------------------------------------------------------------------- conservation

  ghost function Total(m: Counts): int {
    if m == map[] then 0
    else var a :| a in m; m[a] + Total(m - {a})
  }

  lemma {:induction false} TotalRemove(m: Counts, a: string)
    requires a in m
    ensures Total(m) == m[a] + Total(m - {a})
  {
    var b :| b in m && Total(m) == m[b] + Total(m - {b});
    if a != b {
      TotalRemove(m - {b}, a);
      TotalRemove(m - {a}, b);
      assert m - {a} - {b} == m - {b} - {a};
    }
  }

  lemma TotalUpdate(m: Counts, a: string, v: int)
    ensures Total(m[a := v]) == Total(m) - Conns(m, a) + v
  {
    TotalRemove(m[a := v], a);
    if a in m {
      TotalRemove(m, a);
      assert m[a := v] - {a} == m - {a};
    } else {
      assert m[a := v] - {a} == m;
    }
  }

  /**
   * Between endpoint updates, the open connections are those selected minus those effectively
   * released, every count stays non-negative and none ever overflows.
   */
  lemma {:induction false} ConnectionsConserved(eps: seq<Endpoint>, m: Counts, ops: seq<Op>)
    requires InRange(m)
    ensures InRange(Run(eps, m, ops))
    ensures Total(Run(eps, m, ops)) == Total(m) + NetEffect(eps, m, ops)
  {
    if ops != [] {
      var before, op := Run(eps, m, ops[..|ops| - 1]), ops[|ops| - 1];
      ConnectionsConserved(eps, m, ops[..|ops| - 1]);
      var j := Pick(eps, before, |eps|);
      if op.Release? {
        TotalUpdate(before, op.address, Conns(before, op.address) - 1);
      } else if j.Some? {
        var a := eps[j.value].address;
        TotalUpdate(before, a, Conns(before, a) + 1);
      }
    }
  }

  // ------------------------------------------------------------------------ the mutable object

  class LeastConnectionsBalancer {
    var endpoints: seq<Endpoint>
    var connections: Counts

    constructor (endpoints: seq<Endpoint>)
      ensures this.endpoints == endpoints && connections == map[]
      ensures InRange(connections) && Balanced(endpoints, connections)
    {
      this.endpoints := endpoints;
      connections := map[];
    }

    /** Scans the endpoints for the least loaded one. */
    method LeastLoaded() returns (selected: Option<nat>)
      ensures selected == Pick(endpoints, connections, |endpoints|)
    {
      selected := None;
      var minConns := MAX_INT64;
      for i := 0 to |endpoints|
        invariant selected == Pick(endpoints, connections, i)
        invariant minConns ==
                  if selected.Some? then Conns(connections, endpoints[selected.value].address) else MAX_INT64
      {
        if endpoints[i].healthy {
          var conns := Conns(connections, endpoints[i].address);
          if conns < minConns {
            minConns := conns;
            selected := Some(i);
          }
        }
      }
    }

    method Next() returns (selected: Option<nat>)
      requires InRange(connections)
      modifies this`connections
      ensures InRange(connections)
      ensures selected == Pick(endpoints, old(connections), |endpoints|)
      ensures connections == Step(endpoints, old(connections), Select)
    {
      if |endpoints| == 0 { return None; }
      selected := LeastLoaded();
      if selected.Some? {
        var a := endpoints[selected.value].address;
        connections := connections[a := Conns(connections, a) + 1];
      }
    }

    method ReleaseConnection(address: string)
      requires InRange(connections)
      modifies this`connections
      ensures InRange(connections)
      ensures connections == Step(endpoints, old(connections), Release(address))
    {
      if address in connections && connections[address] > 0 {
        connections := connections[address := connections[address] - 1];
      }
    }

    /** Counts survive exactly for the addresses still present. */
    method UpdateEndpoints(eps: seq<Endpoint>)
      requires InRange(connections)
      modifies this
      ensures InRange(connections) && endpoints == eps
      ensures connections ==
              map a <- old(connections) | (exists ep <- eps :: ep.address == a) :: old(connections)[a]
    {
      endpoints := eps;
      var newMap: Counts := map[];
      for i := 0 to |eps|
        invariant connections == old(connections)
        invariant newMap ==
                  map a <- connections | (exists ep <- eps[..i] :: ep.address == a) :: connections[a]
      {
        assert eps[..i + 1] == eps[..i] + [eps[i]];
        if eps[i].address in connections {
          newMap := newMap[eps[i].address := connections[eps[i].address]];
        }
      }
      assert eps[..|eps|] == eps;
      connections := newMap;
    }
  }
}
