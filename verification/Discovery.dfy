/** The endpoint record of services/gateway/internal/discovery/types.go. */
module Discovery {

  /** `healthy` is the value the atomic health flag has when it is read. */
  datatype Endpoint = Endpoint(
    namespace: string,
    address: string,
    port: int,
    scheme: string,
    path: string,
    weight: int,
    metadata: map<string, string>,
    healthy: bool)

  /** A weight that is not positive counts as 1. */
  function EffectiveWeight(ep: Endpoint): (w: nat)
    ensures w >= 1
  {
    if ep.weight <= 0 then 1 else ep.weight
  }

  predicate AnyHealthy(eps: seq<Endpoint>) {
    exists i :: 0 <= i < |eps| && eps[i].healthy
  }
}
