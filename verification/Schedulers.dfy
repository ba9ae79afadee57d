/**
 * Round-robin and weighted selection of services/gateway/pkg/loadbalancer/loadbalancer.go.
 *
 * Both turn a call counter into a position on a cycle and answer from a table that depends
 * only on that position, so counting the answers of one full cycle of consecutive calls
 * counts one row per position.  Answers are indices into the endpoint list.
 */
module Schedulers {
  import opened Common
  import opened Discovery

  // ------------------------------------------------------------------ counting on a cycle

  /** Position `x` on a cycle of length `n`. */
  function Mod(x: nat, n: nat): (r: nat)
    requires n > 0
    ensures r < n
    ensures x < n ==> r == x
  {
    if x < n then x else Mod(x - n, n)
  }

  lemma MulMonotone(n: nat, a: int, b: int)
    requires a <= b
    ensures n * a <= n * b
  {
  }

  lemma RemainderStep(x: nat, n: nat)
    requires 0 < n <= x
    ensures x % n == (x - n) % n
  {
    var d := x / n - (x - n) / n;
    var q := (x - n) / n;
    assert x / n == q + d;
    assert n * (q + d) == n * q + n * d;
    assert n * d == n + (x - n) % n - x % n;
    if d <= 0 { MulMonotone(n, d, 0); }
    if d >= 2 { MulMonotone(n, 2, d); }
  }

  lemma {:induction false} ModIsRemainder(x: nat, n: nat)
    requires n > 0
    ensures Mod(x, n) == x % n
  {
    if x >= n {
      RemainderStep(x, n);
      ModIsRemainder(x - n, n);
    }
  }

  method Remainder(x: nat, n: nat) returns (r: nat)
    requires n > 0
    ensures r == Mod(x, n)
  {
    ModIsRemainder(x, n);
    r := x % n;
  }

  /** How many of the `len` consecutive positions from `start` have a row that names `j`. */
  function Hits(table: seq<Option<nat>>, j: nat, start: nat, len: nat): nat
    requires |table| > 0
  {
    if len == 0 then 0
    else Hits(table, j, start, len - 1) + Hit(table, j, start + len - 1)
  }

  function Hit(table: seq<Option<nat>>, j: nat, x: nat): nat
    requires |table| > 0
  {
    if table[Mod(x, |table|)] == Some(j) then 1 else 0
  }

  lemma {:induction false} HitsFront(table: seq<Option<nat>>, j: nat, start: nat, len: nat)
    requires |table| > 0 && len > 0
    ensures Hits(table, j, start, len) == Hit(table, j, start) + Hits(table, j, start + 1, len - 1)
  {
    if len > 1 {
      HitsFront(table, j, start, len - 1);
    }
  }

  /** One full cycle of consecutive positions meets every row once, wherever it starts. */
  lemma {:induction false} FullCycle(table: seq<Option<nat>>, j: nat, a: nat, b: nat)
    requires |table| > 0 && a <= b
    ensures Hits(table, j, a, |table|) == Hits(table, j, b, |table|)
    decreases b - a
  {
    if a < b {
      HitsFront(table, j, a, |table|);
      assert Hit(table, j, a + |table|) == Hit(table, j, a);
      FullCycle(table, j, a + 1, b);
    }
  }

  /** How often endpoint `j` occurs among the answers. */
  function CountAnswers(answers: seq<Option<nat>>, j: nat): nat {
    if answers == [] then 0
    else CountAnswers(answers[..|answers| - 1], j) +
         if answers[|answers| - 1] == Some(j) then 1 else 0
  }

  /** The rows met by `m` consecutive calls, the first of which moves the counter past `current`. */
  function Answers(table: seq<Option<nat>>, current: nat, m: nat): seq<Option<nat>>
    requires |table| > 0
  {
    if m == 0 then []
    else Answers(table, current, m - 1) + [table[Mod(current + m, |table|)]]
  }

  lemma {:induction false} CountIsHits(table: seq<Option<nat>>, current: nat, m: nat, j: nat)
    requires |table| > 0
    ensures CountAnswers(Answers(table, current, m), j) == Hits(table, j, current + 1, m)
  {
    if m > 0 {
      CountIsHits(table, current, m - 1, j);
      Snoc(Answers(table, current, m - 1), table[Mod(current + m, |table|)]);
    }
  }

  /** Any |table| consecutive calls are answered as the positions 0, 1, .. |table|-1 would be. */
  lemma CycleCount(table: seq<Option<nat>>, current: nat, j: nat, from: nat)
    requires |table| > 0
    ensures CountAnswers(Answers(table, current, |table|), j) == Hits(table, j, from, |table|)
  {
    CountIsHits(table, current, |table|, j);
    if from <= current + 1 { FullCycle(table, j, from, current + 1); }
    else { FullCycle(table, j, current + 1, from); }
  }

  // -------------------------------------------------------------------------- round robin

  function At(eps: seq<Endpoint>, x: nat): Endpoint
    requires eps != []
  {
    eps[Mod(x, |eps|)]
  }

  /** The first healthy endpoint among the `i` positions from `x`. */
  function Scan(eps: seq<Endpoint>, x: nat, i: nat): Option<nat>
    requires eps != []
    decreases i
  {
    if i == 0 then None
    else if At(eps, x).healthy then Some(Mod(x, |eps|))
    else Scan(eps, x + 1, i - 1)
  }

  function RoundRobinTable(eps: seq<Endpoint>): (t: seq<Option<nat>>)
    requires eps != []
    ensures |t| == |eps|
  {
    seq(|eps|, r requires 0 <= r < |eps| => Scan(eps, r, |eps|))
  }

  lemma {:induction false} ScanPeriodic(eps: seq<Endpoint>, x: nat, i: nat)
    requires eps != []
    ensures Scan(eps, x + |eps|, i) == Scan(eps, x, i)
    decreases i
  {
    if i > 0 { ScanPeriodic(eps, x + 1, i - 1); }
  }

  lemma {:induction false} TableRow(eps: seq<Endpoint>, x: nat)
    requires eps != []
    ensures RoundRobinTable(eps)[Mod(x, |eps|)] == Scan(eps, x, |eps|)
  {
    if x >= |eps| {
      TableRow(eps, x - |eps|);
      ScanPeriodic(eps, x - |eps|, |eps|);
    }
  }

  /** `None` only when none of the positions scanned is healthy. */
  lemma {:induction false} ScanNone(eps: seq<Endpoint>, x: nat, i: nat)
    requires eps != []
    ensures Scan(eps, x, i) == None <==> forall y :: x <= y < x + i ==> !At(eps, y).healthy
    decreases i
  {
    if i > 0 {
      ScanNone(eps, x + 1, i - 1);
      assert x <= x < x + i;
    }
  }

  lemma {:induction false} SomePosition(n: nat, k: nat, x: nat)
    requires k < n
    ensures exists y :: x <= y < x + n && Mod(y, n) == k
  {
    if x == 0 {
      assert Mod(k, n) == k;
    } else {
      SomePosition(n, k, x - 1);
      var y :| x - 1 <= y < x - 1 + n && Mod(y, n) == k;
      if y == x - 1 { assert Mod(y + n, n) == k; }
    }
  }

  /** A round-robin call answers nil exactly when no endpoint is healthy. */
  lemma RoundRobinNil(eps: seq<Endpoint>, start: nat)
    requires eps != []
    ensures Scan(eps, start, |eps|) == None <==> !AnyHealthy(eps)
  {
    ScanNone(eps, start, |eps|);
    if k: nat :| k < |eps| && eps[k].healthy {
      SomePosition(|eps|, k, start);
      var y :| start <= y < start + |eps| && Mod(y, |eps|) == k;
      assert At(eps, y).healthy;
    }
  }

  /** Length of the run of unhealthy positions that ends at `x`, going back no further than `j`. */
  function UnhealthyRun(eps: seq<Endpoint>, j: nat, x: nat): (run: nat)
    requires j < |eps| && j <= x
    ensures run <= x - j
    ensures forall y :: x - run < y <= x ==> !At(eps, y).healthy
    ensures run < x - j ==> At(eps, x - run).healthy
    decreases x
  {
    if x == j || At(eps, x).healthy then 0 else 1 + UnhealthyRun(eps, j, x - 1)
  }

  /** The number of unhealthy endpoints cyclically just before `j`. */
  function UnhealthyBefore(eps: seq<Endpoint>, j: nat): (run: nat)
    requires j < |eps|
    ensures run < |eps|
  {
    UnhealthyRun(eps, j, j + |eps| - 1)
  }

  /** A scan from `x` ends at `j` exactly when everything it meets before `j` is unhealthy. */
  lemma {:induction false} ScanReaches(eps: seq<Endpoint>, j: nat, x: nat, i: nat)
    requires j < |eps| && eps[j].healthy && j < x <= j + |eps| && j + |eps| - x < i
    ensures Scan(eps, x, i) == Some(j) <==> forall y :: x <= y < j + |eps| ==> !At(eps, y).healthy
    decreases i
  {
    if x < j + |eps| {
      assert Mod(x, |eps|) != j;
      if !At(eps, x).healthy { ScanReaches(eps, j, x + 1, i - 1); }
    }
  }

  lemma {:induction false} RoundRobinHits(eps: seq<Endpoint>, j: nat, len: nat)
    requires j < |eps| && eps[j].healthy && len <= |eps|
    ensures Hits(RoundRobinTable(eps), j, j + 1, len) ==
            Max(0, len - (|eps| - 1 - UnhealthyBefore(eps, j)))
  {
    if len > 0 {
      RoundRobinHits(eps, j, len - 1);
      var x := j + len;
      TableRow(eps, x);
      ScanReaches(eps, j, x, |eps|);
    }
  }

  /**
   * Round-robin is exact: over any n consecutive calls on n endpoints, a healthy endpoint is
   * answered once for itself and once for each unhealthy endpoint cyclically just before it.
   */
  lemma RoundRobinExact(eps: seq<Endpoint>, current: nat, j: nat)
    requires j < |eps| && eps[j].healthy
    ensures CountAnswers(Answers(RoundRobinTable(eps), current, |eps|), j) == 1 + UnhealthyBefore(eps, j)
  {
    CycleCount(RoundRobinTable(eps), current, j, j + 1);
    RoundRobinHits(eps, j, |eps|);
  }

  class RoundRobin {
    var endpoints: seq<Endpoint>
    var current: nat

    constructor (endpoints: seq<Endpoint>)
      ensures this.endpoints == endpoints && current == 0
    {
      this.endpoints := endpoints;
      current := 0;
    }

    method Next() returns (ep: Option<nat>)
      modifies this`current
      ensures endpoints == [] ==> ep == None && current == old(current)
      ensures endpoints != [] ==>
                && current == old(current) + 1
                && ep == RoundRobinTable(endpoints)[Mod(current, |endpoints|)]
    {
      if |endpoints| == 0 { return None; }
      current := current + 1;
      var start := current;
      TableRow(endpoints, start);
      for i := 0 to |endpoints|
        invariant current == start
        invariant Scan(endpoints, start, |endpoints|) == Scan(endpoints, start + i, |endpoints| - i)
      {
        var idx := Remainder(start + i, |endpoints|);
        if endpoints[idx].healthy { return Some(idx); }
      }
      return None;
    }

    method UpdateEndpoints(eps: seq<Endpoint>)
      modifies this`endpoints
      ensures endpoints == eps
    {
      endpoints := eps;
    }
  }

  // ----------------------------------------------------------------------------- weighted

  /** Total effective weight of the first `i` endpoints. */
  function WeightOf(eps: seq<Endpoint>, i: nat): (w: nat)
    requires i <= |eps|
    ensures w >= i
  {
    if i == 0 then 0 else WeightOf(eps, i - 1) + EffectiveWeight(eps[i - 1])
  }

  /** Total effective weight of the healthy ones among the first `i` endpoints. */
  function HealthyWeightOf(eps: seq<Endpoint>, i: nat): (w: nat)
    requires i <= |eps|
    ensures w <= WeightOf(eps, i)
  {
    if i == 0 then 0
    else HealthyWeightOf(eps, i - 1) + if eps[i - 1].healthy then EffectiveWeight(eps[i - 1]) else 0
  }

  predicate IsFirstHealthy(eps: seq<Endpoint>, j: nat) {
    j < |eps| && eps[j].healthy && forall k :: 0 <= k < j ==> !eps[k].healthy
  }

  /** The healthy endpoint, from index `i` on, whose weight interval contains `position`. */
  function WeightScan(eps: seq<Endpoint>, i: nat, position: nat): Option<nat>
    requires i <= |eps|
    decreases |eps| - i
  {
    if i == |eps| then None
    else if eps[i].healthy && position < HealthyWeightOf(eps, i + 1) then Some(i)
    else WeightScan(eps, i + 1, position)
  }

  function FirstHealthy(eps: seq<Endpoint>, i: nat): (r: Option<nat>)
    requires i <= |eps|
    ensures r.Some? ==> i <= r.value < |eps| && eps[r.value].healthy
                        && forall k :: i <= k < r.value ==> !eps[k].healthy
    ensures r.None? ==> forall k :: i <= k < |eps| ==> !eps[k].healthy
    decreases |eps| - i
  {
    if i == |eps| then None else if eps[i].healthy then Some(i) else FirstHealthy(eps, i + 1)
  }

  function WeightedRow(eps: seq<Endpoint>, position: nat): Option<nat> {
    var found := WeightScan(eps, 0, position);
    if found.Some? then found else FirstHealthy(eps, 0)
  }

  function WeightedTable(eps: seq<Endpoint>): (t: seq<Option<nat>>)
    ensures |t| == WeightOf(eps, |eps|)
  {
    seq(WeightOf(eps, |eps|), p requires 0 <= p < WeightOf(eps, |eps|) => WeightedRow(eps, p))
  }

  lemma {:induction false} HealthyWeightMonotone(eps: seq<Endpoint>, i: nat, k: nat)
    requires i <= k <= |eps|
    ensures HealthyWeightOf(eps, i) <= HealthyWeightOf(eps, k)
  {
    if i < k { HealthyWeightMonotone(eps, i, k - 1); }
  }

  /** The healthy endpoints own consecutive intervals of positions as long as their weights. */
  lemma {:induction false} IntervalOf(eps: seq<Endpoint>, i: nat, position: nat, j: nat)
    requires i <= j < |eps| && HealthyWeightOf(eps, i) <= position
    ensures WeightScan(eps, i, position) == Some(j) <==>
            eps[j].healthy && HealthyWeightOf(eps, j) <= position < HealthyWeightOf(eps, j + 1)
    decreases j - i
  {
    HealthyWeightMonotone(eps, i + 1, if i < j then j else j + 1);
    if i < j {
      if position >= HealthyWeightOf(eps, i + 1) {
        IntervalOf(eps, i + 1, position, j);
      }
    } else if position >= HealthyWeightOf(eps, i + 1) {
      PastInterval(eps, i + 1, position, j);
    }
  }

  lemma {:induction false} PastInterval(eps: seq<Endpoint>, i: nat, position: nat, j: nat)
    requires j < i <= |eps|
    ensures WeightScan(eps, i, position) != Some(j)
    decreases |eps| - i
  {
    if i < |eps| { PastInterval(eps, i + 1, position, j); }
  }

  lemma {:induction false} BeyondHealthyWeight(eps: seq<Endpoint>, i: nat, position: nat)
    requires i <= |eps|
    ensures WeightScan(eps, i, position) == None <==>
            forall k :: i <= k < |eps| && eps[k].healthy ==> HealthyWeightOf(eps, k + 1) <= position
    decreases |eps| - i
  {
    if i < |eps| { BeyondHealthyWeight(eps, i + 1, position); }
  }

  /** What position `p` selects. */
  lemma RowMeaning(eps: seq<Endpoint>, p: nat, j: nat)
    requires j < |eps| && eps[j].healthy
    ensures WeightedRow(eps, p) == Some(j) <==>
            || HealthyWeightOf(eps, j) <= p < HealthyWeightOf(eps, j + 1)
            || (IsFirstHealthy(eps, j) && HealthyWeightOf(eps, |eps|) <= p)
  {
    IntervalOf(eps, 0, p, j);
    BeyondHealthyWeight(eps, 0, p);
    HealthyWeightMonotone(eps, j + 1, |eps|);
    if HealthyWeightOf(eps, |eps|) <= p {
      forall k | 0 <= k < |eps| && eps[k].healthy ensures HealthyWeightOf(eps, k + 1) <= p {
        HealthyWeightMonotone(eps, k + 1, |eps|);
      }
    } else if WeightScan(eps, 0, p) == None {
      NoneMeansBeyond(eps, p, |eps|);
    }
  }

  lemma {:induction false} NoneMeansBeyond(eps: seq<Endpoint>, p: nat, i: nat)
    requires i <= |eps|
    requires forall k :: 0 <= k < |eps| && eps[k].healthy ==> HealthyWeightOf(eps, k + 1) <= p
    ensures HealthyWeightOf(eps, i) <= p
  {
    if i > 0 && !eps[i - 1].healthy { NoneMeansBeyond(eps, p, i - 1); }
  }

  lemma {:induction false} WeightedHits(eps: seq<Endpoint>, j: nat, len: nat)
    requires j < |eps| && eps[j].healthy && len <= WeightOf(eps, |eps|)
    ensures HealthyWeightOf(eps, j) + EffectiveWeight(eps[j]) == HealthyWeightOf(eps, j + 1)
                                                             <= HealthyWeightOf(eps, |eps|)
    ensures |WeightedTable(eps)| > 0
    ensures Hits(WeightedTable(eps), j, 0, len) ==
            Min(len, HealthyWeightOf(eps, j + 1)) - Min(len, HealthyWeightOf(eps, j))
            + if IsFirstHealthy(eps, j) then Max(0, len - HealthyWeightOf(eps, |eps|)) else 0
  {
    HealthyWeightMonotone(eps, j + 1, |eps|);
    if len > 0 {
      WeightedHits(eps, j, len - 1);
      RowMeaning(eps, len - 1, j);
    }
  }

  /**
   * Weighted selection is exact: over any totalWeight consecutive calls a healthy endpoint is
   * answered as often as its effective weight, and the first healthy one in addition absorbs
   * the weight of all the unhealthy ones.
   */
  lemma WeightedExact(eps: seq<Endpoint>, current: nat, j: nat)
    requires j < |eps| && eps[j].healthy
    ensures |WeightedTable(eps)| > 0
    ensures CountAnswers(Answers(WeightedTable(eps), current, |WeightedTable(eps)|), j) ==
            EffectiveWeight(eps[j])
            + if IsFirstHealthy(eps, j) then UnhealthyWeightOf(eps, |eps|) else 0
    ensures |WeightedTable(eps)| == HealthyWeightOf(eps, |eps|) + UnhealthyWeightOf(eps, |eps|)
  {
    var total := WeightOf(eps, |eps|);
    WeightedHits(eps, j, total);
    CycleCount(WeightedTable(eps), current, j, 0);
    WeightSplits(eps, |eps|);
  }

  /** Total effective weight of the unhealthy ones among the first `i` endpoints. */
  function UnhealthyWeightOf(eps: seq<Endpoint>, i: nat): nat
    requires i <= |eps|
  {
    if i == 0 then 0
    else UnhealthyWeightOf(eps, i - 1) + if eps[i - 1].healthy then 0 else EffectiveWeight(eps[i - 1])
  }

  lemma {:induction false} WeightSplits(eps: seq<Endpoint>, i: nat)
    requires i <= |eps|
    ensures WeightOf(eps, i) == HealthyWeightOf(eps, i) + UnhealthyWeightOf(eps, i)
  {
    if i > 0 { WeightSplits(eps, i - 1); }
  }

  /** A weighted call answers nil exactly when no endpoint is healthy. */
  lemma WeightedNil(eps: seq<Endpoint>, position: nat)
    ensures WeightedRow(eps, position) == None <==> !AnyHealthy(eps)
  {
    BeyondHealthyWeight(eps, 0, position);
  }

  class Weighted {
    var endpoints: seq<Endpoint>
    var weights: array<int>
    var totalWeight: int
    var current: nat

    predicate Valid()
      reads this, weights
    {
      && weights.Length == |endpoints|
      && (forall i :: 0 <= i < |endpoints| ==> weights[i] == EffectiveWeight(endpoints[i]))
      && totalWeight == WeightOf(endpoints, |endpoints|)
    }

    constructor (endpoints: seq<Endpoint>)
      ensures Valid() && this.endpoints == endpoints && current == 0 && fresh(weights)
    {
      this.endpoints := endpoints;
      weights := new int[|endpoints|];
      totalWeight := 0;
      current := 0;
      new;
      CalculateWeights();
    }

    method CalculateWeights()
      requires weights.Length == |endpoints|
      modifies weights, `totalWeight
      ensures Valid()
    {
      totalWeight := 0;
      for i := 0 to |endpoints|
        invariant weights.Length == |endpoints|
        invariant forall k :: 0 <= k < i ==> weights[k] == EffectiveWeight(endpoints[k])
        invariant totalWeight == WeightOf(endpoints, i)
      {
        var weight := endpoints[i].weight;
        if weight <= 0 { weight := 1; }
        weights[i] := weight;
        totalWeight := totalWeight + weight;
      }
    }

    method Next() returns (ep: Option<nat>)
      requires Valid()
      modifies this`current
      ensures Valid()
      ensures endpoints == [] ==> ep == None && current == old(current)
      ensures endpoints != [] ==>
                && current == old(current) + 1 && |WeightedTable(endpoints)| > 0
                && ep == WeightedTable(endpoints)[Mod(current, |WeightedTable(endpoints)|)]
    {
      if |endpoints| == 0 || totalWeight == 0 { return None; }
      current := current + 1;
      var position := Remainder(current, totalWeight);
      var currentWeight := 0;
      for i := 0 to |endpoints|
        invariant currentWeight == HealthyWeightOf(endpoints, i)
        invariant WeightScan(endpoints, 0, position) == WeightScan(endpoints, i, position)
      {
        if endpoints[i].healthy {
          currentWeight := currentWeight + weights[i];
          if position < currentWeight { return Some(i); }
        }
      }
      for i := 0 to |endpoints|
        invariant FirstHealthy(endpoints, 0) == FirstHealthy(endpoints, i)
      {
        if endpoints[i].healthy { return Some(i); }
      }
      return None;
    }

    method UpdateEndpoints(eps: seq<Endpoint>)
      modifies this, weights
      ensures Valid() && endpoints == eps && current == old(current)
    {
      endpoints := eps;
      weights := new int[|eps|];
      CalculateWeights();
    }
  }
}
