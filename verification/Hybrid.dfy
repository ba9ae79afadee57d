/**
 * Cross-protocol load balancing, services/gateway/pkg/loadbalancer/hybrid.go.
 *
 * The value `Hybrid` and the functions on it say what one call does to the balancer; the
 * class at the end does it with the source's maps and loops.  `Next` is one atomic step.
 */
module HybridBalancer {
  import opened Common
  import opened Discovery
  import opened Schedulers
  import LC = LeastConnections

  datatype Strategy = RoundRobinStrategy | LeastConnectionsStrategy | WeightedStrategy

  datatype Hybrid = Hybrid(
    endpoints: seq<Endpoint>,
    pref: seq<string>,
    strategy: Strategy,
    connections: LC.Counts,
    current: nat,
    healthAware: bool)

  const DEFAULT_PREFERENCE: seq<string> := ["http", "websocket", "stdio", "sse"]

  function DetectProtocol(ep: Endpoint): string {
    if "protocol" in ep.metadata then ep.metadata["protocol"]
    else if ep.scheme == "ws" || ep.scheme == "wss" then "websocket"
    else if ep.scheme == "http" || ep.scheme == "https" then
      if ep.path == "/events" || ("sse" in ep.metadata && ep.metadata["sse"] == "true") then "sse" else "http"
    else if ep.scheme == "stdio" then "stdio"
    else if ep.address == "localhost" || ep.port == 0 then "stdio"
    else "http"
  }

  predicate IsHttp(ep: Endpoint) { ep.scheme == "http" || ep.scheme == "https" }

  predicate IsWebSocket(ep: Endpoint) { ep.scheme == "ws" || ep.scheme == "wss" }

  /** An event stream is served: by path, or by the endpoint's own word. */
  predicate ServesEvents(ep: Endpoint) {
    ep.path == "/events" || ("sse" in ep.metadata && ep.metadata["sse"] == "true")
  }

  /** What each protocol is detected from, when the endpoint does not name one, which always wins. */
  lemma ProtocolMeaning(ep: Endpoint)
    ensures "protocol" in ep.metadata ==> DetectProtocol(ep) == ep.metadata["protocol"]
    ensures "protocol" !in ep.metadata ==>
              && (DetectProtocol(ep) == "websocket" <==> IsWebSocket(ep))
              && (DetectProtocol(ep) == "sse" <==> IsHttp(ep) && ServesEvents(ep))
              && (DetectProtocol(ep) == "stdio" <==>
                    !IsHttp(ep) && !IsWebSocket(ep)
                    && (ep.scheme == "stdio" || ep.address == "localhost" || ep.port == 0))
              && DetectProtocol(ep) in {"websocket", "sse", "stdio", "http"}
  {
    assert "websocket"[0] == 'w' && "sse"[1] == 's' && "stdio"[1] == 't' && "http"[0] == 'h';
    assert "ws" != "http" && "ws" != "https" && "wss" != "http" && "wss" != "https";
    assert "stdio" != "ws" && "stdio" != "wss" && "stdio" != "http" && "stdio" != "https";
  }

  /** The endpoints of protocol `p`, in their original order. */
  function Group(eps: seq<Endpoint>, p: string): seq<Endpoint> {
    if eps == [] then []
    else
      var rest, last := Group(eps[..|eps| - 1], p), eps[|eps| - 1];
      if DetectProtocol(last) == p then rest + [last] else rest
  }

  /** Every endpoint lands in the group of its protocol, as often as it was listed, and nowhere else. */
  lemma {:induction false} GroupsPartition(eps: seq<Endpoint>, p: string, ep: Endpoint)
    ensures multiset(Group(eps, p))[ep] == if DetectProtocol(ep) == p then multiset(eps)[ep] else 0
  {
    if eps != [] {
      GroupsPartition(eps[..|eps| - 1], p, ep);
      assert eps == eps[..|eps| - 1] + [eps[|eps| - 1]];
    }
  }

  // ------------------------------------------------------------------ choosing from a group

  predicate Usable(healthAware: bool, ep: Endpoint) {
    !healthAware || ep.healthy
  }

  function Usables(healthAware: bool, eps: seq<Endpoint>): seq<Endpoint> {
    if eps == [] then []
    else
      var rest, last := Usables(healthAware, eps[..|eps| - 1]), eps[|eps| - 1];
      if Usable(healthAware, last) then rest + [last] else rest
  }

  /** The first usable endpoint among the `i` positions from `x` of the cycle. */
  function ScanUsable(healthAware: bool, eps: seq<Endpoint>, x: nat, i: nat): (r: Option<Endpoint>)
    requires eps != []
    ensures r.Some? ==> r.value in eps && Usable(healthAware, r.value)
    ensures r.None? ==> forall y :: x <= y < x + i ==> !Usable(healthAware, At(eps, y))
    decreases i
  {
    if i == 0 then None
    else if Usable(healthAware, At(eps, x)) then Some(At(eps, x))
    else ScanUsable(healthAware, eps, x + 1, i - 1)
  }

  function LeastConns(eps: seq<Endpoint>, m: LC.Counts): int {
    if eps == [] then LC.MAX_INT64
    else Min(LeastConns(eps[..|eps| - 1], m), LC.Conns(m, eps[|eps| - 1].address))
  }

  function WithConns(eps: seq<Endpoint>, m: LC.Counts, c: int): seq<Endpoint> {
    if eps == [] then []
    else
      var rest, last := WithConns(eps[..|eps| - 1], m, c), eps[|eps| - 1];
      if LC.Conns(m, last.address) == c then rest + [last] else rest
  }

  /** The index, from `i` on, of the endpoint whose weight interval contains `position`. */
  function IndexByWeight(eps: seq<Endpoint>, i: nat, position: nat): (j: nat)
    requires i <= |eps| && WeightOf(eps, i) <= position < WeightOf(eps, |eps|)
    ensures j < |eps| && WeightOf(eps, j) <= position < WeightOf(eps, j + 1)
    decreases |eps| - i
  {
    if position < WeightOf(eps, i + 1) then i else IndexByWeight(eps, i + 1, position)
  }

  function ByWeight(eps: seq<Endpoint>, i: nat, position: nat): (r: Endpoint)
    requires i <= |eps| && WeightOf(eps, i) <= position < WeightOf(eps, |eps|)
    ensures r in eps
  {
    eps[IndexByWeight(eps, i, position)]
  }

  function ChooseRoundRobin(h: Hybrid, eps: seq<Endpoint>): (Option<Endpoint>, nat) {
    if eps == [] then (None, h.current)
    else (ScanUsable(h.healthAware, eps, h.current + 1, |eps|), h.current + 1)
  }

  /** The usable endpoints with the fewest connections; a tie is broken by the counter. */
  function Tied(h: Hybrid, eps: seq<Endpoint>): seq<Endpoint> {
    var us := Usables(h.healthAware, eps);
    WithConns(us, h.connections, LeastConns(us, h.connections))
  }

  function ChooseLeast(h: Hybrid, eps: seq<Endpoint>): (Option<Endpoint>, nat) {
    var candidates := Tied(h, eps);
    if candidates == [] then (None, h.current)
    else if |candidates| == 1 then (Some(candidates[0]), h.current)
    else (Some(candidates[Mod(h.current + 1, |candidates|)]), h.current + 1)
  }

  function ChooseWeighted(h: Hybrid, eps: seq<Endpoint>): (Option<Endpoint>, nat) {
    var us := Usables(h.healthAware, eps);
    if us == [] then (None, h.current)
    else (Some(ByWeight(us, 0, Mod(h.current + 1, WeightOf(us, |us|)))), h.current + 1)
  }

  /** What the configured strategy answers for a group, and the counter it leaves. */
  function Choose(h: Hybrid, eps: seq<Endpoint>): (Option<Endpoint>, nat) {
    match h.strategy
    case RoundRobinStrategy => ChooseRoundRobin(h, eps)
    case LeastConnectionsStrategy => ChooseLeast(h, eps)
    case WeightedStrategy => ChooseWeighted(h, eps)
  }

  /** `connections[address]++` on a 64-bit counter. */
  function Tracked(m: LC.Counts, address: string): LC.Counts {
    m[address := if LC.Conns(m, address) == LC.MAX_INT64 then -LC.MAX_INT64 - 1
                 else LC.Conns(m, address) + 1]
  }

  function SelectFrom(h: Hybrid, p: string): (Option<Endpoint>, Hybrid) {
    var (chosen, current) := Choose(h, Group(h.endpoints, p));
    var h' := h.(current := current);
    if chosen.Some? && h.strategy == LeastConnectionsStrategy
    then (chosen, h'.(connections := Tracked(h.connections, chosen.value.address)))
    else (chosen, h')
  }

  /** Tries the preferred protocols in order, from index `i`. */
  function SelectPreferred(h: Hybrid, i: nat): (Option<Endpoint>, Hybrid)
    requires i <= |h.pref|
    decreases |h.pref| - i
  {
    if i == |h.pref| then (None, h)
    else
      var (chosen, h') := SelectFrom(h, h.pref[i]);
      if chosen.Some? then (chosen, h') else SelectPreferred(h', i + 1)
  }

  function NextOf(h: Hybrid): (Option<Endpoint>, Hybrid) {
    if h.endpoints == [] then (None, h) else FallBack(SelectPreferred(h, 0))
  }

  /** Health-blind balancers try every endpoint when no preferred protocol has one. */
  function FallBack(preferred: (Option<Endpoint>, Hybrid)): (Option<Endpoint>, Hybrid) {
    var (chosen, h) := preferred;
    if chosen.Some? || h.healthAware then (chosen, h)
    else
      var (any, current) := ChooseRoundRobin(h, h.endpoints);
      (any, h.(current := current))
  }

  predicate InRange(m: LC.Counts) {
    forall a <- m :: -LC.MAX_INT64 - 1 <= m[a] <= LC.MAX_INT64
  }

  // --------------------------------------------------------------------------- completeness

  lemma {:induction false} GroupMembers(eps: seq<Endpoint>, p: string, ep: Endpoint)
    ensures ep in Group(eps, p) <==> ep in eps && DetectProtocol(ep) == p
  {
    GroupsPartition(eps, p, ep);
    assert ep in eps <==> multiset(eps)[ep] > 0;
    assert ep in Group(eps, p) <==> multiset(Group(eps, p))[ep] > 0;
  }

  lemma {:induction false} UsableMembers(healthAware: bool, eps: seq<Endpoint>, ep: Endpoint)
    ensures ep in Usables(healthAware, eps) <==> ep in eps && Usable(healthAware, ep)
  {
    if eps != [] {
      UsableMembers(healthAware, eps[..|eps| - 1], ep);
      assert eps == eps[..|eps| - 1] + [eps[|eps| - 1]];
    }
  }

  /** Some candidate has the least count, and candidates are members of the list. */
  lemma {:induction false} CandidatesComplete(us: seq<Endpoint>, m: LC.Counts, c: int)
    requires InRange(m)
    ensures us != [] ==> WithConns(us, m, LeastConns(us, m)) != []
    ensures forall ep <- WithConns(us, m, c) :: ep in us
    ensures c < LeastConns(us, m) ==> WithConns(us, m, c) == []
  {
    if us != [] {
      var rest := us[..|us| - 1];
      CandidatesComplete(rest, m, c);
      CandidatesComplete(rest, m, LeastConns(us, m));
      if rest == [] { assert LeastConns(us, m) == LC.Conns(m, us[|us| - 1].address); }
    }
  }

  predicate HasUsable(healthAware: bool, eps: seq<Endpoint>) {
    exists i :: 0 <= i < |eps| && Usable(healthAware, eps[i])
  }

  lemma UsablesEmpty(healthAware: bool, eps: seq<Endpoint>)
    ensures Usables(healthAware, eps) == [] <==> !HasUsable(healthAware, eps)
  {
    var us := Usables(healthAware, eps);
    if us != [] { UsableMembers(healthAware, eps, us[0]); }
    if i :| 0 <= i < |eps| && Usable(healthAware, eps[i]) { UsableMembers(healthAware, eps, eps[i]); }
  }

  lemma ScanComplete(healthAware: bool, eps: seq<Endpoint>, x: nat)
    requires eps != []
    ensures ScanUsable(healthAware, eps, x, |eps|).Some? <==> HasUsable(healthAware, eps)
  {
    if i :| 0 <= i < |eps| && Usable(healthAware, eps[i]) {
      SomePosition(|eps|, i, x);
      var y :| x <= y < x + |eps| && Mod(y, |eps|) == i;
      assert Usable(healthAware, At(eps, y));
    }
  }

  /** Whatever the strategy, a group is skipped only when nothing in it is usable. */
  lemma ChooseComplete(h: Hybrid, eps: seq<Endpoint>)
    requires InRange(h.connections)
    ensures Choose(h, eps).0.Some? <==> HasUsable(h.healthAware, eps)
    ensures Choose(h, eps).0.Some? ==>
              Choose(h, eps).0.value in eps && Usable(h.healthAware, Choose(h, eps).0.value)
  {
    var us := Usables(h.healthAware, eps);
    UsablesEmpty(h.healthAware, eps);
    match h.strategy
    case RoundRobinStrategy =>
      if eps != [] { ScanComplete(h.healthAware, eps, h.current + 1); }
    case LeastConnectionsStrategy =>
      CandidatesComplete(us, h.connections, LeastConns(us, h.connections));
      if us != [] { UsableMembers(h.healthAware, eps, Choose(h, eps).0.value); }
    case WeightedStrategy =>
      if us != [] { UsableMembers(h.healthAware, eps, Choose(h, eps).0.value); }
  }

  // ------------------------------------------------------------------ what each strategy answers

  lemma {:induction false} WeightMonotone(eps: seq<Endpoint>, i: nat, k: nat)
    requires i <= k <= |eps|
    ensures WeightOf(eps, i) <= WeightOf(eps, k)
  {
    if i < k { WeightMonotone(eps, i, k - 1); }
  }

  /** Exactly one endpoint owns a position. */
  lemma OwnsPosition(us: seq<Endpoint>, position: nat, j: nat)
    requires position < WeightOf(us, |us|) && j < |us|
    ensures IndexByWeight(us, 0, position) == j <==> WeightOf(us, j) <= position < WeightOf(us, j + 1)
  {
    var i := IndexByWeight(us, 0, position);
    if i < j { WeightMonotone(us, i + 1, j); }
    if j < i { WeightMonotone(us, j + 1, i); }
  }

  /** The index each position of the weight cycle answers. */
  function WeightCycle(us: seq<Endpoint>): (t: seq<Option<nat>>)
    ensures |t| == WeightOf(us, |us|)
  {
    seq(WeightOf(us, |us|), x requires 0 <= x < WeightOf(us, |us|) => Some(IndexByWeight(us, 0, x)))
  }

  lemma {:induction false} WeightCycleHits(us: seq<Endpoint>, j: nat, len: nat)
    requires j < |us| && len <= WeightOf(us, |us|)
    ensures Hits(WeightCycle(us), j, 0, len) == Max(0, Min(len, WeightOf(us, j + 1)) - WeightOf(us, j))
  {
    if len > 0 {
      WeightCycleHits(us, j, len - 1);
      OwnsPosition(us, len - 1, j);
    }
  }

  /** The answers of `n` weighted choices in a row, each with the counter the one before it left. */
  function WeightedChoices(h: Hybrid, eps: seq<Endpoint>, n: nat): seq<Option<Endpoint>>
    decreases n
  {
    if n == 0 then []
    else
      var (chosen, current) := ChooseWeighted(h, eps);
      [chosen] + WeightedChoices(h.(current := current), eps, n - 1)
  }

  /** The usable endpoint that position `x` of the cycle answers. */
  function OnCycle(us: seq<Endpoint>, x: nat): Option<Endpoint>
    requires us != []
  {
    Some(us[IndexByWeight(us, 0, Mod(x, WeightOf(us, |us|)))])
  }

  function CycleFrom(us: seq<Endpoint>, current: nat, n: nat): seq<Option<Endpoint>>
    requires us != []
    decreases n
  {
    if n == 0 then [] else [OnCycle(us, current + 1)] + CycleFrom(us, current + 1, n - 1)
  }

  lemma {:induction false} CycleFromAt(us: seq<Endpoint>, current: nat, n: nat, k: nat)
    requires us != [] && k < n
    ensures |CycleFrom(us, current, n)| == n && CycleFrom(us, current, n)[k] == OnCycle(us, current + 1 + k)
    decreases n
  {
    if n > 1 { CycleFromAt(us, current + 1, n - 1, if k > 0 then k - 1 else 0); }
  }

  lemma ChoiceOnCycle(h: Hybrid, eps: seq<Endpoint>, us: seq<Endpoint>)
    requires us == Usables(h.healthAware, eps) != []
    ensures ChooseWeighted(h, eps) == (OnCycle(us, h.current + 1), h.current + 1)
  {
  }

  lemma {:induction false} WeightedChoicesFollowCycle(h: Hybrid, eps: seq<Endpoint>, us: seq<Endpoint>, n: nat)
    requires us == Usables(h.healthAware, eps) != []
    ensures WeightedChoices(h, eps, n) == CycleFrom(us, h.current, n)
    decreases n
  {
    if n > 0 {
      ChoiceOnCycle(h, eps, us);
      WeightedChoicesFollowCycle(h.(current := h.current + 1), eps, us, n - 1);
    }
  }

  /** The same, with the answers as places in the list of usable endpoints. */
  lemma {:induction false} AnswersOnCycle(us: seq<Endpoint>, current: nat, n: nat, k: nat)
    requires us != [] && k < n
    ensures |Answers(WeightCycle(us), current, n)| == n
    ensures var j := Answers(WeightCycle(us), current, n)[k];
            j.Some? && j.value < |us| && OnCycle(us, current + 1 + k) == Some(us[j.value])
  {
    var cycle := WeightCycle(us);
    if n > 1 { AnswersOnCycle(us, current, n - 1, if k < n - 1 then k else 0); }
    assert Answers(cycle, current, n) == Answers(cycle, current, n - 1) + [cycle[Mod(current + n, |cycle|)]];
  }

  predicate IsPlace(place: Option<nat>, us: seq<Endpoint>, chosen: Option<Endpoint>) {
    place.Some? && place.value < |us| && chosen == Some(us[place.value])
  }

  /** `places` are the places in `us` of the endpoints chosen. */
  ghost predicate ArePlaces(places: seq<Option<nat>>, us: seq<Endpoint>, chosen: seq<Option<Endpoint>>) {
    |places| == |chosen| && forall k :: 0 <= k < |places| ==> IsPlace(places[k], us, chosen[k])
  }

  lemma PlaceOnCycle(us: seq<Endpoint>, current: nat, n: nat, k: nat)
    requires us != [] && k < n
    ensures |CycleFrom(us, current, n)| == n == |Answers(WeightCycle(us), current, n)|
    ensures IsPlace(Answers(WeightCycle(us), current, n)[k], us, CycleFrom(us, current, n)[k])
  {
    AnswersOnCycle(us, current, n, k);
    CycleFromAt(us, current, n, k);
  }

  lemma PlacesOnCycle(us: seq<Endpoint>, current: nat, n: nat)
    requires us != [] && n > 0
    ensures |CycleFrom(us, current, n)| == n
    ensures ArePlaces(Answers(WeightCycle(us), current, n), us, CycleFrom(us, current, n))
  {
    PlaceOnCycle(us, current, n, 0);
    forall k | 0 <= k < n
      ensures IsPlace(Answers(WeightCycle(us), current, n)[k], us, CycleFrom(us, current, n)[k])
    {
      PlaceOnCycle(us, current, n, k);
    }
  }

  lemma CycleShare(us: seq<Endpoint>, current: nat, j: nat)
    requires j < |us|
    ensures WeightOf(us, |us|) > 0
    ensures CountAnswers(Answers(WeightCycle(us), current, WeightOf(us, |us|)), j) == EffectiveWeight(us[j])
  {
    WeightMonotone(us, j + 1, |us|);
    CycleCount(WeightCycle(us), current, j, 0);
    WeightCycleHits(us, j, WeightOf(us, |us|));
  }

  /**
   * Weighted selection is exact: over as many consecutive choices from a group as its usable
   * endpoints weigh together, each of them (by its place in the list) is the answer exactly as
   * often as it weighs, wherever the counter stands.
   */
  lemma WeightedShare(h: Hybrid, eps: seq<Endpoint>, j: nat) returns (places: seq<Option<nat>>)
    requires j < |Usables(h.healthAware, eps)|
    ensures var us := Usables(h.healthAware, eps); var n := WeightOf(us, |us|);
            && |places| == n && ArePlaces(places, us, WeightedChoices(h, eps, n))
            && CountAnswers(places, j) == EffectiveWeight(us[j])
  {
    var us := Usables(h.healthAware, eps);
    CycleShare(us, h.current, j);
    PlacesOnCycle(us, h.current, WeightOf(us, |us|));
    WeightedChoicesFollowCycle(h, eps, us, WeightOf(us, |us|));
    places := Answers(WeightCycle(us), h.current, WeightOf(us, |us|));
  }

  /** Round-robin answers the first usable endpoint from the advanced counter on. */
  lemma RoundRobinFirst(h: Hybrid, eps: seq<Endpoint>) returns (y: nat)
    requires HasUsable(h.healthAware, eps)
    ensures h.current + 1 <= y < h.current + 1 + |eps| && Usable(h.healthAware, At(eps, y))
    ensures forall z :: h.current + 1 <= z < y ==> !Usable(h.healthAware, At(eps, z))
    ensures ChooseRoundRobin(h, eps) == (Some(At(eps, y)), h.current + 1)
  {
    ScanComplete(h.healthAware, eps, h.current + 1);
    y := ScanFirst(h.healthAware, eps, h.current + 1, |eps|);
  }

  lemma {:induction false} ScanFirst(healthAware: bool, eps: seq<Endpoint>, x: nat, i: nat) returns (y: nat)
    requires eps != [] && ScanUsable(healthAware, eps, x, i).Some?
    ensures x <= y < x + i && Usable(healthAware, At(eps, y))
    ensures ScanUsable(healthAware, eps, x, i) == Some(At(eps, y))
    ensures forall z :: x <= z < y ==> !Usable(healthAware, At(eps, z))
    decreases i
  {
    y := x;
    if !Usable(healthAware, At(eps, x)) { y := ScanFirst(healthAware, eps, x + 1, i - 1); }
  }

  lemma {:induction false} LeastIsLeast(us: seq<Endpoint>, m: LC.Counts, c: int, ep: Endpoint)
    requires InRange(m)
    ensures ep in us ==> LeastConns(us, m) <= LC.Conns(m, ep.address)
    ensures ep in WithConns(us, m, c) <==> ep in us && LC.Conns(m, ep.address) == c
  {
    if us != [] {
      LeastIsLeast(us[..|us| - 1], m, c, ep);
      assert us == us[..|us| - 1] + [us[|us| - 1]];
    }
  }

  /** The candidates are exactly the usable endpoints that no usable endpoint has fewer connections than. */
  lemma TiedExactly(h: Hybrid, eps: seq<Endpoint>, ep: Endpoint)
    requires InRange(h.connections)
    ensures ep in Tied(h, eps) <==>
            && ep in eps && Usable(h.healthAware, ep)
            && forall u :: u in eps && Usable(h.healthAware, u) ==>
                 LC.Conns(h.connections, ep.address) <= LC.Conns(h.connections, u.address)
  {
    var us, m := Usables(h.healthAware, eps), h.connections;
    var least := LeastConns(us, m);
    UsableMembers(h.healthAware, eps, ep);
    LeastIsLeast(us, m, least, ep);
    forall u ensures u in us <==> u in eps && Usable(h.healthAware, u) { UsableMembers(h.healthAware, eps, u); }
    forall u | u in us ensures least <= LC.Conns(m, u.address) { LeastIsLeast(us, m, least, u); }
    if us != [] {
      CandidatesComplete(us, m, least);
      var c := WithConns(us, m, least)[0];
      LeastIsLeast(us, m, least, c);
    }
  }

  /** Least-connections answers one of them, and no usable endpoint has fewer connections than the answer. */
  lemma LeastChosen(h: Hybrid, eps: seq<Endpoint>, u: Endpoint)
    requires InRange(h.connections) && u in eps && Usable(h.healthAware, u)
    ensures var chosen := ChooseLeast(h, eps).0;
            && chosen.Some? && chosen.value in Tied(h, eps)
            && LC.Conns(h.connections, chosen.value.address) <= LC.Conns(h.connections, u.address)
  {
    var us := Usables(h.healthAware, eps);
    UsableMembers(h.healthAware, eps, u);
    CandidatesComplete(us, h.connections, LeastConns(us, h.connections));
    TiedExactly(h, eps, ChooseLeast(h, eps).0.value);
  }

  /** `n` least-connections choices in a row while the counts stay the same. */
  function LeastChoices(h: Hybrid, eps: seq<Endpoint>, n: nat): seq<Option<Endpoint>>
    decreases n
  {
    if n == 0 then []
    else
      var (chosen, current) := ChooseLeast(h, eps);
      [chosen] + LeastChoices(h.(current := current), eps, n - 1)
  }

  /** A tie is broken in turn: the k-th choice from here is the k-th candidate from the advanced counter on. */
  lemma {:induction false} TiesTakeTurns(h: Hybrid, eps: seq<Endpoint>, n: nat, k: nat)
    requires Tied(h, eps) != [] && k < n
    ensures |LeastChoices(h, eps, n)| == n
    ensures var tied := Tied(h, eps); LeastChoices(h, eps, n)[k] == Some(tied[Mod(h.current + 1 + k, |tied|)])
    decreases n
  {
    var h' := h.(current := ChooseLeast(h, eps).1);
    assert Tied(h', eps) == Tied(h, eps);
    if n > 1 { TiesTakeTurns(h', eps, n - 1, if k > 0 then k - 1 else 0); }
    if |Tied(h, eps)| == 1 {
      assert Mod(h.current + 1 + k, 1) == 0;
    }
  }

  /**
   * The counter moves on by one: in round-robin for any group that is not empty, in weighted
   * selection for one with a usable endpoint, and in least-connections to break a tie.
   */
  lemma CounterMoves(h: Hybrid, p: string)
    ensures var eps := Group(h.endpoints, p);
            var moves := match h.strategy
                         case RoundRobinStrategy => eps != []
                         case WeightedStrategy => HasUsable(h.healthAware, eps)
                         case LeastConnectionsStrategy => |Tied(h, eps)| > 1;
            SelectFrom(h, p).1.current == h.current + if moves then 1 else 0
  {
    UsablesEmpty(h.healthAware, Group(h.endpoints, p));
  }

  /**
   * Under least-connections, and only then, the answer's address counts one connection more; a
   * count at the top of its 64 bits goes on from the bottom.
   */
  lemma TracksExactly(h: Hybrid, p: string, a: string)
    requires InRange(h.connections)
    ensures var (chosen, h') := SelectFrom(h, p); var was, now := LC.Conns(h.connections, a), LC.Conns(h'.connections, a);
            var counted := chosen.Some? && h.strategy == LeastConnectionsStrategy && chosen.value.address == a;
            now == if !counted then was
                   else if was < 0x7fff_ffff_ffff_ffff then was + 1
                   else -0x8000_0000_0000_0000
  {
  }

  /** Some endpoint of protocol `p` is usable. */
  predicate Offers(healthAware: bool, eps: seq<Endpoint>, p: string) {
    HasUsable(healthAware, Group(eps, p))
  }

  /** None of the protocols offers a usable endpoint. */
  predicate NoneOffers(healthAware: bool, eps: seq<Endpoint>, protocols: seq<string>) {
    forall q :: 0 <= q < |protocols| ==> !Offers(healthAware, eps, protocols[q])
  }

  /** The `k`-th protocol is the first that offers a usable endpoint. */
  predicate IsEarliest(healthAware: bool, eps: seq<Endpoint>, protocols: seq<string>, k: nat) {
    k < |protocols| && Offers(healthAware, eps, protocols[k]) && NoneOffers(healthAware, eps, protocols[..k])
  }

  lemma SelectFromComplete(h: Hybrid, p: string)
    requires InRange(h.connections)
    ensures SelectFrom(h, p).0.Some? <==> Offers(h.healthAware, h.endpoints, p)
    ensures var ep := SelectFrom(h, p).0;
            ep.Some? ==> ep.value in h.endpoints && DetectProtocol(ep.value) == p
                         && Usable(h.healthAware, ep.value)
    ensures OnlyCountersChanged(h, SelectFrom(h, p).1)
  {
    var g := Group(h.endpoints, p);
    ChooseComplete(h, g);
    var ep := SelectFrom(h, p).0;
    if ep.Some? { GroupMembers(h.endpoints, p, ep.value); }
  }

  /** `ep` answers for the protocols listed: the earliest that offers one, or nobody does. */
  predicate AnswersFor(ep: Option<Endpoint>, h: Hybrid, protocols: seq<string>, k: nat) {
    match ep
    case None => NoneOffers(h.healthAware, h.endpoints, protocols)
    case Some(e) =>
      && IsEarliest(h.healthAware, h.endpoints, protocols, k) && DetectProtocol(e) == protocols[k]
      && e in h.endpoints && Usable(h.healthAware, e)
  }

  predicate OnlyCountersChanged(h: Hybrid, h': Hybrid) {
    InRange(h'.connections) && h' == h.(connections := h'.connections, current := h'.current)
  }

  lemma AnswersLater(ep: Option<Endpoint>, h: Hybrid, h': Hybrid, p: string, later: seq<string>, k: nat)
    requires !Offers(h.healthAware, h.endpoints, p)
    requires OnlyCountersChanged(h, h') && AnswersFor(ep, h', later, k)
    ensures AnswersFor(ep, h, [p] + later, k + 1)
  {
    if ep.Some? { assert ([p] + later)[..k + 1] == [p] + later[..k]; }
  }

  lemma {:induction false} PreferredComplete(h: Hybrid, i: nat) returns (k: nat)
    requires i <= |h.pref| && InRange(h.connections)
    ensures OnlyCountersChanged(h, SelectPreferred(h, i).1)
    ensures AnswersFor(SelectPreferred(h, i).0, h, h.pref[i..], k)
    decreases |h.pref| - i
  {
    k := 0;
    if i < |h.pref| {
      SelectFromComplete(h, h.pref[i]);
      var (chosen, h1) := SelectFrom(h, h.pref[i]);
      if chosen.None? {
        k := PreferredComplete(h1, i + 1);
        AnswersLater(SelectPreferred(h1, i + 1).0, h, h1, h.pref[i], h.pref[i + 1..], k);
        assert h.pref[i..] == [h.pref[i]] + h.pref[i + 1..];
        k := k + 1;
      }
    }
  }

  /**
   * Health-aware selection is complete under all three strategies: a healthy endpoint of the
   * earliest preferred protocol that has one, and nil exactly when no preferred protocol has one.
   */
  lemma HealthAwareComplete(h: Hybrid) returns (k: nat)
    requires h.healthAware && InRange(h.connections)
    ensures AnswersFor(NextOf(h).0, h, h.pref, k)
    ensures NextOf(h).0.Some? ==> NextOf(h).0.value.healthy && !NoneOffers(true, h.endpoints, h.pref)
  {
    k := PreferredComplete(h, 0);
    assert h.pref[0..] == h.pref;
    if h.endpoints == [] {
      forall q | 0 <= q < |h.pref| ensures Group(h.endpoints, h.pref[q]) == [] {}
    }
  }

  /**
   * Without health awareness the answer is nil exactly when there are no endpoints: the preferred
   * protocols come first here too, and if none of them has an endpoint, all endpoints take turns.
   */
  lemma HealthBlindComplete(h: Hybrid) returns (k: nat)
    requires !h.healthAware && InRange(h.connections)
    ensures NextOf(h).0.None? <==> h.endpoints == []
    ensures NextOf(h).0.Some? ==> NextOf(h).0.value in h.endpoints
    ensures !NoneOffers(false, h.endpoints, h.pref) ==> AnswersFor(NextOf(h).0, h, h.pref, k)
    ensures h.endpoints != [] && NoneOffers(false, h.endpoints, h.pref) ==>
              var current := SelectPreferred(h, 0).1.current + 1;
              NextOf(h).0 == Some(At(h.endpoints, current)) && NextOf(h).1.current == current
  {
    k := PreferredComplete(h, 0);
    assert h.pref[0..] == h.pref;
    if h.endpoints != [] {
      var h' := SelectPreferred(h, 0).1;
      assert Usable(false, At(h.endpoints, h'.current + 1));
    } else {
      forall q | 0 <= q < |h.pref| ensures Group(h.endpoints, h.pref[q]) == [] {}
    }
  }

  // ------------------------------------------------------------------------ the mutable object

  /** The map holds exactly the non-empty groups. */
  ghost predicate GroupedAs(groups: map<string, seq<Endpoint>>, eps: seq<Endpoint>) {
    && (forall p :: GroupIn(groups, p) == Group(eps, p))
    && (forall p <- groups :: groups[p] != [])
  }

  function GroupIn(groups: map<string, seq<Endpoint>>, p: string): seq<Endpoint> {
    if p in groups then groups[p] else []
  }

  lemma GroupedSnoc(groups: map<string, seq<Endpoint>>, eps: seq<Endpoint>, ep: Endpoint)
    requires GroupedAs(groups, eps)
    ensures var p := DetectProtocol(ep); GroupedAs(groups[p := GroupIn(groups, p) + [ep]], eps + [ep])
  {
    Snoc(eps, ep);
    var p := DetectProtocol(ep);
    var more := groups[p := GroupIn(groups, p) + [ep]];
    forall q ensures GroupIn(more, q) == Group(eps + [ep], q) {
      assert GroupIn(groups, q) == Group(eps, q);
    }
  }

  class HybridLoadBalancer {
    var endpoints: seq<Endpoint>
    var protocolGroups: map<string, seq<Endpoint>>
    var protocolPref: seq<string>
    var strategy: Strategy
    var connections: LC.Counts
    var current: nat
    var healthAware: bool

    function Model(): Hybrid
      reads this
    {
      Hybrid(endpoints, protocolPref, strategy, connections, current, healthAware)
    }

    ghost predicate Grouped()
      reads this
    {
      GroupedAs(protocolGroups, endpoints)
    }

    constructor (endpoints: seq<Endpoint>, strategy: Strategy, pref: seq<string>, healthAware: bool)
      ensures Grouped()
      ensures Model() == Hybrid(endpoints, if pref == [] then DEFAULT_PREFERENCE else pref,
                                strategy, map[], 0, healthAware)
    {
      this.endpoints := endpoints;
      protocolGroups := map[];
      protocolPref := if pref == [] then DEFAULT_PREFERENCE else pref;
      this.strategy := strategy;
      connections := map[];
      current := 0;
      this.healthAware := healthAware;
      new;
      UpdateProtocolGroups();
    }

    method UpdateProtocolGroups()
      modifies this`protocolGroups
      ensures Grouped()
    {
      protocolGroups := map[];
      for i := 0 to |endpoints|
        invariant GroupedAs(protocolGroups, endpoints[..i])
      {
        var ep := endpoints[i];
        var p := DetectProtocol(ep);
        GroupedSnoc(protocolGroups, endpoints[..i], ep);
        assert endpoints[..i + 1] == endpoints[..i] + [ep];
        protocolGroups := protocolGroups[p := GroupIn(protocolGroups, p) + [ep]];
      }
      assert endpoints[..|endpoints|] == endpoints;
    }

    method NextRoundRobin(eps: seq<Endpoint>) returns (r: Option<Endpoint>)
      modifies this`current
      ensures (r, current) == ChooseRoundRobin(old(Model()), eps)
    {
      if |eps| == 0 { return None; }
      current := current + 1;
      var start := current;
      for i := 0 to |eps|
        invariant current == start
        invariant ScanUsable(healthAware, eps, start, |eps|) ==
                  ScanUsable(healthAware, eps, start + i, |eps| - i)
      {
        var idx := Remainder(start + i, |eps|);
        if !healthAware || eps[idx].healthy { return Some(eps[idx]); }
      }
      return None;
    }

    method NextLeastConnections(eps: seq<Endpoint>) returns (r: Option<Endpoint>)
      requires InRange(connections)
      modifies this`current
      ensures (r, current) == ChooseLeast(old(Model()), eps)
    {
      if |eps| == 0 { return None; }
      var candidates := Candidates(eps, healthAware, connections);
      assert candidates == Tied(Model(), eps);
      if |candidates| == 0 { return None; }
      if |candidates| > 1 {
        current := current + 1;
        var idx := Remainder(current, |candidates|);
        return Some(candidates[idx]);
      }
      return Some(candidates[0]);
    }

    method NextWeighted(eps: seq<Endpoint>) returns (r: Option<Endpoint>)
      modifies this`current
      ensures (r, current) == ChooseWeighted(old(Model()), eps)
    {
      if |eps| == 0 { return None; }
      var us, total := HealthyWeighted(eps, healthAware);
      if |us| == 0 || total == 0 { return None; }
      var ep := SelectWeightedEndpoint(us, total);
      return Some(ep);
    }

    method SelectWeightedEndpoint(us: seq<Endpoint>, total: nat) returns (ep: Endpoint)
      requires us != [] && total == WeightOf(us, |us|)
      modifies this`current
      ensures current == old(current) + 1 && Some(ep) == OnCycle(us, current)
    {
      current := current + 1;
      var position := Remainder(current, total);
      var currentWeight := 0;
      for i := 0 to |us|
        invariant current == old(current) + 1
        invariant currentWeight == WeightOf(us, i) <= position
        invariant IndexByWeight(us, 0, position) == IndexByWeight(us, i, position)
      {
        currentWeight := currentWeight + EffectiveWeight(us[i]);
        if position < currentWeight { return us[i]; }
      }
      // The loop always returns: `position` is below the total weight.
      assert false;
    }

    method ApplyStrategy(eps: seq<Endpoint>) returns (r: Option<Endpoint>)
      requires InRange(connections)
      modifies this`current
      ensures (r, current) == Choose(old(Model()), eps)
    {
      match strategy
      case LeastConnectionsStrategy => r := NextLeastConnections(eps);
      case WeightedStrategy => r := NextWeighted(eps);
      case RoundRobinStrategy => r := NextRoundRobin(eps);
    }

    method SelectFromProtocol(p: string) returns (r: Option<Endpoint>)
      requires Grouped() && InRange(connections)
      modifies this`current, this`connections
      ensures Grouped() && (r, Model()) == SelectFrom(old(Model()), p)
    {
      var eps := GroupIn(protocolGroups, p);
      assert eps == Group(endpoints, p);
      if |eps| == 0 { return None; }
      ChooseComplete(Model(), eps);
      r := ApplyStrategy(eps);
      if r == None { return; }
      // `r` is healthy when health matters: ChooseComplete.
      if healthAware && !r.value.healthy { assert false; }
      if strategy == LeastConnectionsStrategy {
        connections := Tracked(connections, r.value.address);
      }
    }

    method SelectFromPreferredProtocols() returns (r: Option<Endpoint>)
      requires Grouped() && InRange(connections)
      modifies this`current, this`connections
      ensures Grouped() && InRange(connections)
      ensures (r, Model()) == SelectPreferred(old(Model()), 0)
    {
      ghost var h := Model();
      for i := 0 to |protocolPref|
        invariant Grouped() && InRange(connections)
        invariant SelectPreferred(h, 0) == SelectPreferred(Model(), i)
      {
        SelectFromComplete(Model(), protocolPref[i]);
        r := SelectFromProtocol(protocolPref[i]);
        if r != None { return; }
      }
      return None;
    }

    method Next() returns (r: Option<Endpoint>)
      requires Grouped() && InRange(connections)
      modifies this`current, this`connections
      ensures Grouped() && InRange(connections)
      ensures (r, Model()) == NextOf(old(Model()))
    {
      if |endpoints| == 0 { return None; }
      r := SelectFromPreferredProtocols();
      ghost var preferred := (r, Model());
      if r == None { r := FallbackSelection(); }
      assert (r, Model()) == FallBack(preferred);
    }

    method FallbackSelection() returns (r: Option<Endpoint>)
      modifies this`current
      ensures (r, Model()) == FallBack((None, old(Model())))
    {
      if !healthAware {
        r := NextRoundRobin(endpoints);
      } else {
        r := None;
      }
    }
  }

  /** Meeting one more usable endpoint: reset, extend or keep the candidate list. */
  lemma CandidateSnoc(us: seq<Endpoint>, m: LC.Counts, ep: Endpoint)
    requires InRange(m)
    ensures var least, conns := LeastConns(us, m), LC.Conns(m, ep.address);
            && LeastConns(us + [ep], m) == Min(least, conns)
            && WithConns(us + [ep], m, Min(least, conns)) ==
               if conns < least then [ep]
               else if conns == least then WithConns(us, m, least) + [ep]
               else WithConns(us, m, least)
  {
    Snoc(us, ep);
    CandidatesComplete(us, m, LC.Conns(m, ep.address));
  }

  /** The endpoints with minimum connections, found in one pass. */
  method Candidates(eps: seq<Endpoint>, healthAware: bool, m: LC.Counts) returns (candidates: seq<Endpoint>)
    requires InRange(m)
    ensures candidates == WithConns(Usables(healthAware, eps), m, LeastConns(Usables(healthAware, eps), m))
  {
    candidates := [];
    var minConns := LC.MAX_INT64;
    ghost var us: seq<Endpoint> := [];
    for i := 0 to |eps|
      invariant us == Usables(healthAware, eps[..i])
      invariant minConns == LeastConns(us, m)
      invariant candidates == WithConns(us, m, minConns)
    {
      UsablesNext(healthAware, eps, i);
      if !(healthAware && !eps[i].healthy) {
        CandidateSnoc(us, m, eps[i]);
        us := us + [eps[i]];
        var conns := LC.Conns(m, eps[i].address);
        if conns < minConns {
          minConns := conns;
          candidates := [eps[i]];
        } else if conns == minConns {
          candidates := candidates + [eps[i]];
        }
      }
    }
    assert eps[..|eps|] == eps;
  }

  lemma UsablesNext(healthAware: bool, eps: seq<Endpoint>, i: nat)
    requires i < |eps|
    ensures Usables(healthAware, eps[..i + 1]) ==
            if Usable(healthAware, eps[i]) then Usables(healthAware, eps[..i]) + [eps[i]]
            else Usables(healthAware, eps[..i])
  {
    assert eps[..i + 1][..i] == eps[..i];
  }

  method HealthyWeighted(eps: seq<Endpoint>, healthAware: bool) returns (us: seq<Endpoint>, total: nat)
    ensures us == Usables(healthAware, eps) && total == WeightOf(us, |us|)
  {
    us, total := [], 0;
    for i := 0 to |eps|
      invariant us == Usables(healthAware, eps[..i]) && total == WeightOf(us, |us|)
    {
      UsablesNext(healthAware, eps, i);
      if !(healthAware && !eps[i].healthy) {
        WeightSnoc(us, eps[i], |us|);
        total := total + EffectiveWeight(eps[i]);
        us := us + [eps[i]];
      }
    }
    assert eps[..|eps|] == eps;
  }

  lemma {:induction false} WeightSnoc(us: seq<Endpoint>, ep: Endpoint, i: nat)
    requires i <= |us|
    ensures WeightOf(us + [ep], i) == WeightOf(us, i)
    ensures WeightOf(us + [ep], |us| + 1) == WeightOf(us + [ep], |us|) + EffectiveWeight(ep)
  {
    if i > 0 { WeightSnoc(us, ep, i - 1); }
  }
}
