# Verified models of the MCP bridge

The MCP bridge connects MCP clients to backends: a gateway authenticates and rate-limits requests, finds
endpoints in Kubernetes, balances over them and forwards over several transports; a router on the client side
keeps a pool of direct connections and retries. This project models the parts whose correctness depends on
many operations together and proves what they keep. Each component is a Dafny module with a value-level model
(data, one step, runs of steps), a class with the source's own mutable fields whose methods are proved to take
exactly those steps, and theorems about every run.

| module | what it models |
|---|---|
| `BalancerCache`, `Registry` | the balancer cache over the Kubernetes endpoint registry, events interleaved with lookups |
| `SseStream` | request/response correlation over one shared SSE stream, as section 5 of the JSON-RPC 2.0 specification pairs them |
| `FaultTolerantLimiter`, `MemoryRateLimit` | the Redis rate limiter behind a breaker with its in-memory fallback |
| `CircuitBreakers` | the gateway's three-state circuit breaker |
| `Batcher` | the message batcher with its timer and flush channel |
| `Schedulers`, `LeastConnections`, `HybridBalancer` | the load balancers |
| `WireProtocol`, `TcpSession` | the binary framing and the TCP session on top of it |
| `PredictiveHealth` | the predictive breaker and the health score |
| `ConnectionPool`, `Retry`, `ClientMetrics` | the router's connection pool, the retry loop, the client metrics |
| `Discovery`, `Common` | endpoints, and vocabulary shared by all |

Concurrency is modelled as interleaving: a step is one region the source runs under a lock, or one channel
operation, and runs are arbitrary sequences of enabled steps. The clock, random numbers, Redis, backends and
cancellation are parameters of the steps. Strings are compared as the source compares them; JSON is opaque.

`dafny verify dfyconfig.toml` verifies the whole project.

Where the code does something other than its comments or an obvious reading suggest, the code is modelled:

- Breaker thresholds of zero or less act as 1 (`CircuitBreakers`), so no theorem assumes them positive.
- The in-memory limiter prunes to one minute before it counts the burst, so a longer burst window acts as one
  minute (`MemoryRateLimit.RefinesFullHistory` holds for every window).
- The predictive breaker reaches HalfOpen only with the success threshold met, so HalfOpen lasts one request.
- The latency part of the health score has already reached its cap at the point where it sets in, so it is
  either 0 or 0.4; the score leaves [0, 1] exactly when a negative latency threshold is configured.
- The connection pool overwrites an entry it cannot reuse without giving its count back: capacity is lost for
  good, down to a single connection but never to none (`ConnectionPool.CapacityNeverRecovers`,
  `ConnectionPool.AllButOneCanBeLost`).
- A pipeline names the bucket of an earlier clock reading; one that arrives more than a second late can find its
  counter expired and start it again, so the rate bounds hold exactly up to that delay
  (`FaultTolerantLimiter.BucketsSafeExactly`, `FaultTolerantLimiter.SpansSafeExactly`).
- The length field of an encoding is the payload length modulo 2^32; the round trip holds exactly for
  payloads up to 10 MB (`WireProtocol.RoundTrip`).
- On a shared stream a requester is left waiting exactly when, while it is pending, another request registers
  under its id, or another one under its id fails its post or is cancelled (`SseStream.AnsweredExactly`).
- The metrics updater works on a copy that is dropped, so the stored counts and latencies never move; only the
  category map, which copies share, does (`ClientMetrics.StoredRecordMeaning`).
- A request without a message token is routed even where tokens are validated (`TcpSession.RoutedExactly`).
- Nothing in the retry loop calls the circuit policy's success or failure recording, so its failure budget is
  not renewed by executions (`Retry.SharedCircuitBoundsTotal`).

## Model

| member | source | states |
|---|---|---|
| BalancerCache.CacheStaysCoherent | services/gateway/internal/router/router.go:802-847 | in every interleaving of endpoint events, their callbacks, whole-cache flushes and two-step lookups, a cached list (and one about to be cached) is the registry's, or its namespace still awaits a callback of an unfinished update |
| BalancerCache.QuietCacheAgrees | services/gateway/internal/router/router.go:1024-1042 | once no update is still calling back, every cached list is exactly the registry's |
| BalancerCache.StepKeepsInv | services/gateway/internal/discovery/kubernetes.go:561-603 | each single step keeps coherence, the registry's shape, and the set every update in progress has computed for its callbacks |
| BalancerCache.UpdateKeepsCoherence | services/gateway/internal/discovery/kubernetes.go:561-603 | re-indexing changes a cached namespace's list only if that namespace is among those it then has to notify |
| BalancerCache.UpdateKeepsTracking | services/gateway/internal/discovery/kubernetes.go:536-558 | the affected set computed before the lock is taken is still right after other namespaces' updates have come in between |
| BalancerCache.LookupStores | services/gateway/internal/router/router.go:802-847 | the two steps of a lookup, whatever events are tracked, applied and settled in between, leave in the cache exactly what a whole lookup of the registry at the first step leaves |
| BalancerCache.RemovedExactly | services/gateway/internal/router/router.go:1024-1042 | a callback removes its one namespace, a flush all, and nothing else is ever removed |
| BalancerCache.EventCompletes | services/gateway/internal/discovery/kubernetes.go:494-603 | from any state an endpoint event can be carried through: it re-indexes, drops exactly the affected lists and is done |
| BalancerCache.BalancerTable.GetLoadBalancer | services/gateway/internal/router/router.go:802-847 | a cached balancer is returned as it is; otherwise one is built from the registry's list and stored, and never for an empty list; the same lookup that the two steps make |
| BalancerCache.BalancerTable.UpdateLoadBalancers | services/gateway/internal/router/router.go:1024-1030 | the whole cache is emptied |
| BalancerCache.BalancerTable.InvalidateLoadBalancer | services/gateway/internal/router/router.go:1033-1042 | exactly the one namespace leaves the cache |
| BalancerCache.BalancerTable.EndpointEvent | services/gateway/internal/discovery/kubernetes.go:494-603 | a whole endpoint event with nothing else running takes an agreeing cache and registry to an agreeing cache and registry |
| Registry.ReindexKeepsShape | services/gateway/internal/discovery/kubernetes.go:561-586 | every endpoint stays under its own MCP namespace and no list is empty |
| Registry.ReindexReplacesExactly | services/gateway/internal/discovery/kubernetes.go:561-586 | in every list the endpoints from elsewhere stay, in order, and those of the event's Kubernetes namespace become exactly the incoming ones |
| Registry.ChangedIsAffected | services/gateway/internal/discovery/kubernetes.go:536-558 | every MCP namespace whose list changes is in the notified set |
| Registry.AffectedIsStable | services/gateway/internal/discovery/kubernetes.go:536-558 | another Kubernetes namespace's update does not move the set an update will affect |
| Registry.KubernetesDiscovery.TrackAffectedNamespaces | services/gateway/internal/discovery/kubernetes.go:536-558 | the two loops collect exactly the namespaces that lose or gain endpoints |
| Registry.KubernetesDiscovery.UpdateEndpoints | services/gateway/internal/discovery/kubernetes.go:561-586 | the two in-place loops compute the re-indexed registry |
| Registry.KubernetesDiscovery.RemoveOld | services/gateway/internal/discovery/kubernetes.go:566-580 | first loop: the old endpoints are gone, the others keep their order, empty lists are deleted |
| Registry.KubernetesDiscovery.GetEndpoints | services/gateway/internal/discovery/kubernetes.go:660-670 | a copy of the list, empty for an unknown namespace |
| SseStream.CorrelationIsSafe | services/gateway/internal/router/router.go:1501-1521 | in every interleaving, whatever ids the requests use: no send to a closed channel, no double close, the default branch never taken, at most one send per channel, and a response received carries the receiver's own id |
| SseStream.AnsweredExactly | services/gateway/internal/router/router.go:1661-1681 | after the stream has ended a waiting requester can receive if and only if it registered before the end and, while it was pending on the live stream, no other request registered under its id and none under its id failed its post or was cancelled; one that registered later only ever fails its post or is cancelled |
| SseStream.ResponseFindsItsRequester | services/gateway/internal/router/router.go:1501-1521 | while the stream lives, the response to an unanswered request lands in its requester's channel under that same condition, and only then |
| SseStream.ReceivesExactly | services/gateway/internal/router/router.go:1661-1673 | in every run a requester that receives gets the very response, body included, delivered under its id while it was pending, once, and is told that the stream closed if and only if there was none |
| SseStream.MailArrives | services/gateway/internal/router/router.go:1501-1521 | in every run a requester in flight has in its channel exactly the response delivered under its id while it was pending |
| SseStream.ExchangeSucceeds | services/gateway/internal/router/router.go:1625-1673 | at any point of any run on a live stream a new request can be registered, posted, answered and received |
| SseStream.DeliverEffects | services/gateway/internal/router/router.go:1501-1521 | a delivery to any stream fills an open empty channel once; a full channel drops it and a closed one panics |
| SseStream.CloseEffects | services/gateway/internal/router/router.go:1417-1430 | ending any stream panics exactly if a channel it closes was closed already |
| SseStream.FateOf | services/gateway/internal/router/router.go:1417-1681 | in every run: a displaced requester has an empty open channel and no entry; any other one in time has an entry, a response or a closed channel |
| SseStream.DistinctIdsDisplaceNobody | services/gateway/internal/router/router.go:1625-1654 | with distinct ids in flight nobody is displaced |
| SseStream.LaterRegistrationStrands | services/gateway/internal/router/router.go:1625-1629 | a concrete run with two requests under one id in which the first waits for ever |
| SseStream.StepKeepsInv | services/gateway/internal/router/router.go:1625-1681 | every step of the protocol keeps the correlation invariant |
| SseStream.RunKeepsInv | services/gateway/internal/router/router.go:1417-1681 | so does every run, with ids shared or not |
| SseStream.PendingRequests.Register | services/gateway/internal/router/router.go:1625-1629 | a fresh one-slot channel is stored under the id |
| SseStream.PendingRequests.Remove | services/gateway/internal/router/router.go:1631-1654 | exactly the one id is forgotten |
| SseStream.PendingRequests.Deliver | services/gateway/internal/router/router.go:1501-1521 | non-blocking send to the channel registered under the response's id, which is then forgotten; an unknown id changes nothing |
| SseStream.PendingRequests.CloseAll | services/gateway/internal/router/router.go:1417-1440 | the cleanup loop closes the channel of every entry, one at a time |
| FaultTolerantLimiter.SpanBound | services/gateway/internal/ratelimit/redis_circuit.go:45-80 | in every interleaving in which no successful pipeline of the kind for the key reaches Redis more than a second after its clock reading, whatever else Redis, the breaker and other gateways do, any 60-second span holds at most 3r accepts on a key limited to r, and any 10-second span at most three times its burst limit, Redis and fallback together |
| FaultTolerantLimiter.SpansSafeExactly | services/gateway/internal/ratelimit/ratelimit.go:49-103 | for rate and burst alike, that bound holds in all runs with a given largest delay if and only if the delay is at most one second and one nanosecond |
| FaultTolerantLimiter.LateSpan | services/gateway/internal/ratelimit/ratelimit.go:49-70 | a run beyond that delay with four accepts in one minute on a key limited to one |
| FaultTolerantLimiter.LateBurstSpan | services/gateway/internal/ratelimit/ratelimit.go:73-103 | a run beyond that delay with four accepts in ten seconds on a key with burst limit one |
| FaultTolerantLimiter.FallbackBound | services/gateway/internal/ratelimit/redis_circuit.go:55-76 | in every run the fallback by itself keeps the requests' own limits: the rate over any minute and the burst over any ten seconds |
| FaultTolerantLimiter.WindowBound | services/gateway/internal/ratelimit/ratelimit.go:49-103 | of the requests that read the clock in any window, one counter (rate or burst) lets at most its limit through, as long as window and delay together fit into the life of the counter |
| FaultTolerantLimiter.BucketsSafeExactly | services/gateway/internal/ratelimit/ratelimit.go:49-103 | for rate and burst alike: every aligned bucket keeps its limit in all runs with a given largest delay if and only if the delay is at most the second by which a counter outlives its bucket |
| FaultTolerantLimiter.EveryYesIsCounted | services/gateway/internal/ratelimit/redis_circuit.go:45-80 | the accepts those bounds count are all of them, for rate and for burst: one for each request answered with yes |
| FaultTolerantLimiter.BucketBound | services/gateway/internal/ratelimit/ratelimit.go:49-103 | with pipelines at most a second late, at most r accepts in any aligned one-minute bucket and at most Burst in any aligned ten-second bucket |
| FaultTolerantLimiter.PipelineKeepsCounters | services/gateway/internal/ratelimit/ratelimit.go:54-59 | a counter that has to live until a given time survives any pipeline, complete or broken off, applied before then that does not give it an earlier expiry, and a complete one on that counter raises it |
| FaultTolerantLimiter.PipelineMeaning | services/gateway/internal/ratelimit/ratelimit.go:54-59 | what a pipeline, complete or broken off anywhere, leaves of its counter and of the others |
| FaultTolerantLimiter.AdmittedExactly | services/gateway/internal/ratelimit/redis_circuit.go:50-66 | a request goes on to Redis exactly when the breaker is not open at either of the two tests |
| FaultTolerantLimiter.FallbackAsked | services/gateway/internal/ratelimit/redis_circuit.go:55-76 | only a request sent to the fallback asks it, with its own key and limits and a ten-second burst window |
| FaultTolerantLimiter.BreakerStep | services/gateway/internal/ratelimit/redis_circuit.go:61-66 | the breaker sees ticks, resets and every call of Redis that ends, with its outcome, and nothing else |
| FaultTolerantLimiter.BreakerRuns | services/gateway/internal/ratelimit/redis_circuit.go:45-80 | in every run the breaker is where its own events lead, so all its laws hold here |
| FaultTolerantLimiter.WorldIsFree | services/gateway/internal/ratelimit/ratelimit.go:49-70 | time, resets and other gateways on the same counters are never excluded |
| FaultTolerantLimiter.ReachableInv | services/gateway/internal/ratelimit/redis_circuit.go:45-80 | in every reachable state, whatever the delays, each request carries exactly the passes it has taken, limits are kept and the fallback history is in clock order |
| FaultTolerantLimiter.WindowReachable | services/gateway/internal/ratelimit/ratelimit.go:49-103 | in every reachable state a counter that must still live has counted every pass of a safe window |
| FaultTolerantLimiter.SoloCall | services/gateway/internal/ratelimit/redis_circuit.go:45-80 | run without interruption, the stages of one call give the breaker, counters, answer and fallback state of the sequential code |
| FaultTolerantLimiter.DriveRedis | services/gateway/internal/ratelimit/ratelimit.go:105-131 | the Redis stages in a row are the sequential Redis limiter |
| FaultTolerantLimiter.RedisRateLimiterWithCircuitBreaker.constructor | services/gateway/internal/ratelimit/redis_circuit.go:31-42 | a closed breaker with limits 5, 3 and 30 s, and an empty fallback |
| FaultTolerantLimiter.RedisRateLimiterWithCircuitBreaker.RunPipeline | services/gateway/internal/ratelimit/ratelimit.go:49-92 | one pipeline: the count at its arrival on the counter of its clock reading, or none if it fails |
| FaultTolerantLimiter.RedisRateLimiterWithCircuitBreaker.RedisAllow | services/gateway/internal/ratelimit/ratelimit.go:105-131 | verdict and counters of the sequential Redis limiter, each pipeline with its own clock reading and its own time of arrival |
| FaultTolerantLimiter.RedisRateLimiterWithCircuitBreaker.Allow | services/gateway/internal/ratelimit/redis_circuit.go:45-80 | open breaker: the fallback decides; otherwise Redis decides and the outcome is recorded; a Redis error falls back |
| MemoryRateLimit.RefinesFullHistory | services/gateway/internal/ratelimit/ratelimit.go:151-211 | in every run on a non-decreasing clock, deciding from the pruned list is deciding from the complete history of accepts |
| MemoryRateLimit.StoreIsPrunedHistory | services/gateway/internal/ratelimit/ratelimit.go:151-211 | every stored list is the key's history with its oldest part cut off, never within the last minute |
| MemoryRateLimit.HistoryStep | services/gateway/internal/ratelimit/ratelimit.go:151-211 | a call extends its key's history exactly when the full-history rule accepts it |
| MemoryRateLimit.RateBound | services/gateway/internal/ratelimit/ratelimit.go:175-184 | any one-minute span holds at most r accepts of a key limited to r |
| MemoryRateLimit.BurstBound | services/gateway/internal/ratelimit/ratelimit.go:186-205 | any span as long as the burst window holds at most Burst accepts |
| MemoryRateLimit.PrunePrune | services/gateway/internal/ratelimit/ratelimit.go:162-173 | pruning twice is pruning once, at the later cut |
| MemoryRateLimit.PruneMeaning | services/gateway/internal/ratelimit/ratelimit.go:162-173 | pruning keeps exactly the later entries, each as often as it was there |
| MemoryRateLimit.CountMeaning | services/gateway/internal/ratelimit/ratelimit.go:186-195 | the entries from one time on are those of a span and those from its end on |
| MemoryRateLimit.InMemoryRateLimiter.constructor | services/gateway/internal/ratelimit/ratelimit.go:142-148 | an empty store with the given burst window |
| MemoryRateLimit.InMemoryRateLimiter.SetBurstWindow | services/gateway/internal/ratelimit/ratelimit.go:214-219 | only the window changes |
| MemoryRateLimit.InMemoryRateLimiter.Allow | services/gateway/internal/ratelimit/ratelimit.go:151-211 | answer and new store are those of the specification step; other keys are untouched |
| MemoryRateLimit.PruneList | services/gateway/internal/ratelimit/ratelimit.go:162-173 | the filtering loop keeps exactly the later entries, in order |
| MemoryRateLimit.CountLater | services/gateway/internal/ratelimit/ratelimit.go:188-195 | the counting loop counts the later entries |
| CircuitBreakers.CountersSummariseEpisode | services/gateway/pkg/circuit/breaker.go:132-164 | in every interleaving: Closed means failures below the limit; Closed or Open, failures equal the trailing failures of the episode; HalfOpen means successes below the threshold and equal to the episode's length, all of it successes; the stored failure time is that of the latest failure |
| CircuitBreakers.OpensExactlyOnConsecutiveFailures | services/gateway/pkg/circuit/breaker.go:132-148 | Closed opens exactly when the outcomes recorded since it became Closed end in the limit's number of failures |
| CircuitBreakers.ClosesExactlyOnSuccesses | services/gateway/pkg/circuit/breaker.go:151-164 | HalfOpen reopens on one failure and closes exactly on Reset or on the threshold's number of successes |
| CircuitBreakers.OpenEndsExactlyAfterTimeout | services/gateway/pkg/circuit/breaker.go:93-101 | Open ends exactly by Reset or by a tick more than the timeout after the latest failure |
| CircuitBreakers.OpenAdmitsNothing | services/gateway/pkg/circuit/breaker.go:104-129 | through any run inside the timeout without Reset the breaker is open at every point, so no call is admitted |
| CircuitBreakers.CircuitBreaker.constructor | services/gateway/pkg/circuit/breaker.go:55-70 | starts closed with zero counters |
| CircuitBreakers.CircuitBreaker.CheckAndTransitionToHalfOpen | services/gateway/pkg/circuit/breaker.go:93-101 | the tick step, keeping the counter invariant |
| CircuitBreakers.CircuitBreaker.BeginCall | services/gateway/pkg/circuit/breaker.go:104-114 | a call is admitted exactly when the circuit is not open |
| CircuitBreakers.CircuitBreaker.EndCall | services/gateway/pkg/circuit/breaker.go:116-129 | the outcome is recorded in whatever state the breaker is in by then |
| CircuitBreakers.CircuitBreaker.DoRecordFailure | services/gateway/pkg/circuit/breaker.go:132-148 | the failure step, keeping the counter invariant |
| CircuitBreakers.CircuitBreaker.DoRecordSuccess | services/gateway/pkg/circuit/breaker.go:151-164 | the success step, keeping the counter invariant |
| CircuitBreakers.CircuitBreaker.ResetBreaker | services/gateway/pkg/circuit/breaker.go:197-205 | back to closed with zero counters; the failure time stays |
| Batcher.NoLostWakeup | services/gateway/pkg/protocol/converter.go:319-409 | in every run: flushed batches followed by the buffer are exactly the messages added, in order; no batch is empty; and until the consumer exits a non-empty buffer has a token queued, a consumer about to flush, or a timer still to signal |
| Batcher.EveryUnpromptedRunFlushes | services/gateway/pkg/protocol/converter.go:319-409 | however timers and a live consumer go on by themselves, they stop after a bounded number of steps, and when they stop everything added has been flushed |
| Batcher.QuietMeansEmpty | services/gateway/pkg/protocol/converter.go:319-409 | a state with a live consumer in which no such step is possible has an empty buffer |
| Batcher.UnpromptedStepsUseUp | services/gateway/pkg/protocol/converter.go:356-409 | every such step lowers one measure |
| Batcher.FullBufferNeedsNoTimer | services/gateway/pkg/protocol/converter.go:327-332 | in every run a buffer that has reached the limit is flushed by at most two steps of the consumer, without any timer, and at most one timer is waiting |
| Batcher.RunKeepsTimers | services/gateway/pkg/protocol/converter.go:319-409 | in every run a full buffer has a signal queued or a consumer on its way, the only timer waiting is the current batch's, and an empty buffer has none |
| Batcher.TokenHasCause | services/gateway/pkg/protocol/converter.go:319-409 | in every run a signal is queued if and only if a message that reached the limit or a timer callback gave one since the last was taken |
| Batcher.TimerIsSetExactly | services/gateway/pkg/protocol/converter.go:333-341 | a timer is set exactly for a message that begins a batch with room for more |
| Batcher.FinishesOnlyCancelled | services/gateway/pkg/protocol/converter.go:356-370 | in every run the consumer winds up only after cancellation |
| Batcher.CancelFlushes | services/gateway/pkg/protocol/converter.go:356-370 | cancelled at any point, a waiting consumer flushes what is left and exits |
| Batcher.BufferGetsFlushed | services/gateway/pkg/protocol/converter.go:356-370 | at most four steps, none by a producer or the canceller, can flush everything added |
| Batcher.StepKeepsInv | services/gateway/pkg/protocol/converter.go:319-409 | every step keeps conservation and the pending wake-up |
| Batcher.FlushConserves | services/gateway/pkg/protocol/converter.go:373-409 | a flush moves the buffer to the end of the flushed sequence |
| Batcher.MessageBatcher.constructor | services/gateway/pkg/protocol/converter.go:297-316 | an empty batcher whose consumer waits |
| Batcher.MessageBatcher.AddMessage | services/gateway/pkg/protocol/converter.go:319-353 | the append step: signal at the size limit, otherwise arm a timer for the first message |
| Batcher.MessageBatcher.TimerCallback | services/gateway/pkg/protocol/converter.go:335-340 | a fired timer leaves a token, unless one is queued already |
| Batcher.MessageBatcher.FlushOnce | services/gateway/pkg/protocol/converter.go:373-409 | stops the timer, empties the buffer and flushes it |
| Batcher.MessageBatcher.ProcessOnce | services/gateway/pkg/protocol/converter.go:356-370 | one turn of the consumer loop, including the final flush on cancellation |
| Schedulers.WeightedExact | services/gateway/pkg/loadbalancer/loadbalancer.go:177-210 | over any totalWeight consecutive calls (the healthy and the unhealthy weights together) each healthy endpoint is answered exactly its effective weight times, and the first healthy one also absorbs the weight of all unhealthy ones |
| Schedulers.WeightedNil | services/gateway/pkg/loadbalancer/loadbalancer.go:177-210 | nil exactly when no endpoint is healthy |
| Schedulers.RowMeaning | services/gateway/pkg/loadbalancer/loadbalancer.go:191-209 | a position selects a healthy endpoint exactly if it lies in its weight interval, or lies past all of them and the endpoint is the first healthy one |
| Schedulers.RoundRobinExact | services/gateway/pkg/loadbalancer/loadbalancer.go:32-53 | over any n consecutive calls on n endpoints each healthy endpoint is answered 1 plus the length of the unhealthy run cyclically just before it |
| Schedulers.RoundRobinNil | services/gateway/pkg/loadbalancer/loadbalancer.go:32-53 | nil exactly when no endpoint is healthy |
| Schedulers.CycleCount | services/gateway/pkg/loadbalancer/loadbalancer.go:32-53 | counting the answers of one full cycle of calls counts one row per position, wherever the counter stands |
| Schedulers.RoundRobin.Next | services/gateway/pkg/loadbalancer/loadbalancer.go:32-53 | the scanning loop answers the row of the advanced counter |
| Schedulers.RoundRobin.UpdateEndpoints | services/gateway/pkg/loadbalancer/loadbalancer.go:56-61 | the list is replaced |
| Schedulers.Weighted.constructor | services/gateway/pkg/loadbalancer/loadbalancer.go:152-160 | weights computed for the given endpoints |
| Schedulers.Weighted.CalculateWeights | services/gateway/pkg/loadbalancer/loadbalancer.go:163-174 | the loop fills in every effective weight (at least 1) and their total |
| Schedulers.Weighted.Next | services/gateway/pkg/loadbalancer/loadbalancer.go:177-210 | the cumulative-weight loop and its fallback loop answer the row of the advanced counter |
| Schedulers.Weighted.UpdateEndpoints | services/gateway/pkg/loadbalancer/loadbalancer.go:213-220 | endpoints replaced and weights recomputed; the counter goes on |
| LeastConnections.SelectionsStayBalanced | services/gateway/pkg/loadbalancer/loadbalancer.go:79-111 | without releases, healthy counts never come to differ by more than one, through any number of selections |
| LeastConnections.ConnectionsConserved | services/gateway/pkg/loadbalancer/loadbalancer.go:79-140 | between updates the total of all counts changes by successful selections minus effective releases, every count stays non-negative and none overflows |
| LeastConnections.Pick | services/gateway/pkg/loadbalancer/loadbalancer.go:79-111 | the choice is the first healthy endpoint of least count; none exactly when every healthy count is at the maximum |
| LeastConnections.LeastConnectionsBalancer.LeastLoaded | services/gateway/pkg/loadbalancer/loadbalancer.go:87-103 | the scanning loop finds that choice |
| LeastConnections.LeastConnectionsBalancer.Next | services/gateway/pkg/loadbalancer/loadbalancer.go:79-111 | selects it and counts one more connection for its address |
| LeastConnections.LeastConnectionsBalancer.ReleaseConnection | services/gateway/pkg/loadbalancer/loadbalancer.go:133-140 | one fewer for that address, and never below zero |
| LeastConnections.LeastConnectionsBalancer.UpdateEndpoints | services/gateway/pkg/loadbalancer/loadbalancer.go:114-130 | counts survive exactly for the addresses still present |
| HybridBalancer.GroupsPartition | services/gateway/pkg/loadbalancer/hybrid.go:294-301 | every endpoint lands in the group of its detected protocol, as often as it was listed, and in no other |
| HybridBalancer.HealthAwareComplete | services/gateway/pkg/loadbalancer/hybrid.go:65-117 | under every strategy: a healthy endpoint of the earliest preferred protocol that has one, and nil exactly when no preferred protocol has one |
| HybridBalancer.HealthBlindComplete | services/gateway/pkg/loadbalancer/hybrid.go:65-81 | without health awareness nil exactly when there are no endpoints: the earliest preferred protocol that has one answers, and if none has, all endpoints take turns |
| HybridBalancer.ChooseComplete | services/gateway/pkg/loadbalancer/hybrid.go:120-269 | whatever the strategy, a group yields a usable member exactly when it has one (so the weighted fallback line is never reached) |
| HybridBalancer.SelectFromComplete | services/gateway/pkg/loadbalancer/hybrid.go:96-117 | the answer from one protocol is of that protocol and usable, and only counters change |
| HybridBalancer.CandidatesComplete | services/gateway/pkg/loadbalancer/hybrid.go:167-203 | some candidate has the least count, and every candidate is a member of the list |
| HybridBalancer.ProtocolMeaning | services/gateway/pkg/loadbalancer/hybrid.go:304-331 | what each protocol is detected from; a protocol named in the metadata always wins |
| HybridBalancer.WeightedShare | services/gateway/pkg/loadbalancer/hybrid.go:206-269 | over as many consecutive weighted choices as the usable endpoints of a group weigh together, each is the answer exactly as often as it weighs, wherever the counter stands |
| HybridBalancer.OwnsPosition | services/gateway/pkg/loadbalancer/hybrid.go:250-269 | a position answers an endpoint if and only if it lies between the weight before it and the weight up to it |
| HybridBalancer.RoundRobinFirst | services/gateway/pkg/loadbalancer/hybrid.go:148-164 | the answer is the first usable endpoint from the advanced counter on |
| HybridBalancer.TiedExactly | services/gateway/pkg/loadbalancer/hybrid.go:167-190 | the candidates are exactly the usable endpoints that no usable endpoint has fewer connections than |
| HybridBalancer.LeastChosen | services/gateway/pkg/loadbalancer/hybrid.go:167-203 | no usable endpoint has fewer connections than the answer |
| HybridBalancer.TiesTakeTurns | services/gateway/pkg/loadbalancer/hybrid.go:192-203 | while the counts stay the same the candidates are answered in turn |
| HybridBalancer.CounterMoves | services/gateway/pkg/loadbalancer/hybrid.go:96-269 | when each strategy advances the shared counter |
| HybridBalancer.TracksExactly | services/gateway/pkg/loadbalancer/hybrid.go:132-136 | under least-connections, and only then, the answer's address counts one more, wrapping at 64 bits |
| HybridBalancer.HybridLoadBalancer.constructor | services/gateway/pkg/loadbalancer/hybrid.go:40-62 | grouped endpoints, default preference when none is given |
| HybridBalancer.HybridLoadBalancer.UpdateProtocolGroups | services/gateway/pkg/loadbalancer/hybrid.go:294-301 | the loop builds exactly the non-empty groups, each in list order |
| HybridBalancer.HybridLoadBalancer.NextRoundRobin | services/gateway/pkg/loadbalancer/hybrid.go:148-164 | first usable endpoint from the advanced counter on |
| HybridBalancer.HybridLoadBalancer.NextLeastConnections | services/gateway/pkg/loadbalancer/hybrid.go:167-203 | round-robin among the usable endpoints of least count |
| HybridBalancer.HybridLoadBalancer.NextWeighted | services/gateway/pkg/loadbalancer/hybrid.go:206-269 | the usable endpoint whose cumulative weight interval holds the advanced counter |
| HybridBalancer.HybridLoadBalancer.SelectWeightedEndpoint | services/gateway/pkg/loadbalancer/hybrid.go:250-269 | the cumulative loop finds the owner of the advanced counter's position; its last line is unreachable |
| HybridBalancer.HybridLoadBalancer.SelectFromProtocol | services/gateway/pkg/loadbalancer/hybrid.go:96-117 | choice from one group, counted as a connection |
| HybridBalancer.HybridLoadBalancer.SelectFromPreferredProtocols | services/gateway/pkg/loadbalancer/hybrid.go:84-93 | the first preferred protocol that yields an endpoint |
| HybridBalancer.HybridLoadBalancer.FallbackSelection | services/gateway/pkg/loadbalancer/hybrid.go:139-145 | round-robin over all endpoints |
| HybridBalancer.HybridLoadBalancer.Next | services/gateway/pkg/loadbalancer/hybrid.go:65-81 | preferred protocols first, then the fallback if health is ignored |
| HybridBalancer.Candidates | services/gateway/pkg/loadbalancer/hybrid.go:167-195 | one pass finds the usable endpoints of least count, in order |
| HybridBalancer.HealthyWeighted | services/gateway/pkg/loadbalancer/hybrid.go:222-238 | one pass collects the usable endpoints and their total weight |
| WireProtocol.StreamRoundTrip | services/gateway/pkg/wire/protocol.go:62-221 | the encodings of any frames followed by any bytes decode to those frames and leave those bytes |
| WireProtocol.RoundTrip | services/gateway/pkg/wire/protocol.go:62-113 | one frame survives encoding and decoding exactly when its version is supported and its payload is at most 10 MB |
| WireProtocol.ReencodeGivesBytes | services/gateway/pkg/wire/protocol.go:95-221 | decoding accepts nothing but encodings: re-encoding gives back exactly the bytes consumed |
| WireProtocol.StreamReencodes | services/gateway/pkg/wire/protocol.go:95-221 | decoding any byte string loses none of it: frames re-encoded plus the rest are the string |
| WireProtocol.StrictPrefixFails | services/gateway/pkg/wire/protocol.go:95-221 | no strict prefix of an encoding decodes |
| WireProtocol.TruncatedStream | services/gateway/pkg/wire/protocol.go:95-221 | a reader with the first k bytes of a stream sees a prefix of its frames, and not all of them if bytes are missing |
| WireProtocol.WireFormat | services/gateway/pkg/wire/protocol.go:62-92 | on the wire: the letters MCPB, then version, type and length, the high byte of each first, then the payload |
| WireProtocol.OnlyVersionOne | services/gateway/pkg/wire/protocol.go:282-284 | exactly one version is supported |
| WireProtocol.DecodedFields | services/gateway/pkg/wire/protocol.go:123-221 | where the fields of a decoded frame were in the bytes |
| WireProtocol.NegotiateVersion | services/gateway/pkg/wire/protocol.go:259-279 | the highest version in both ranges, and none exactly when the ranges share no version |
| WireProtocol.PutU16 | services/gateway/pkg/wire/protocol.go:62-92 | two bytes that read back as the number |
| WireProtocol.PutU32 | services/gateway/pkg/wire/protocol.go:62-92 | four bytes that read back as the number |
| WireProtocol.Encode | services/gateway/pkg/wire/protocol.go:62-92 | appends the encoding to the writer, section by section |
| WireProtocol.Decode | services/gateway/pkg/wire/protocol.go:95-221 | result and bytes left are those of the specification, on every failing branch too |
| TcpSession.RoutedOnlyAfterHandshake | services/gateway/internal/server/tcp_handler.go:310-349 | in every run a routed request comes after an event that negotiated a supported version and a later one that authenticated and created the connection's session, and itself passed validation and the rate limit, and its message token if it has one and there is a validator |
| TcpSession.RoutedExactly | services/gateway/internal/server/tcp_handler.go:310-349 | what it takes to be routed, no more and no less; an absent message token passes even where there is a validator |
| TcpSession.NegotiationOutcome | services/gateway/internal/server/tcp_handler.go:259-307 | the first offer decides: with a shared version the connection agrees on the greatest and stays open exactly if the acknowledgement goes out, without one it closes; later offers change nothing |
| TcpSession.InitializationOutcome | services/gateway/internal/server/tcp_handler.go:497-599 | before authentication a request authenticates if and only if everything about the handshake is in order, takes the new session, and is answered in any case |
| TcpSession.HandshakePossible | services/gateway/internal/server/tcp_handler.go:259-403 | any offer with a shared version, any good initialize and any good request are a run that routes the request |
| TcpSession.EndsExactly | services/gateway/internal/server/tcp_handler.go:121-349 | which messages end a connection, no more and no fewer |
| TcpSession.ClosedForGood | services/gateway/internal/server/tcp_handler.go:106-151 | nothing but such a message or cancellation closes a connection, and nothing opens it again |
| TcpSession.ExtractionFailureIsFatal | services/gateway/internal/server/tcp_handler.go:456-494 | after a request that cannot be extracted nothing more happens |
| TcpSession.CancelIsPossible | services/gateway/internal/server/tcp_handler.go:106-151 | until then a connection can be cancelled, and what is in flight can still complete |
| TcpSession.ResponsesConserved | services/gateway/internal/server/tcp_handler.go:310-403 | in every run the requests handled are, as multisets, those a response was attempted for plus those still in flight |
| TcpSession.IdsKeptExactly | services/gateway/internal/server/tcp_handler.go:352-403 | every response carries the id of the request it answers if and only if every response of the router does |
| TcpSession.StateHasCause | services/gateway/internal/server/tcp_handler.go:259-307 | agreed version and session go back to the events that set them, negotiation first |
| TcpSession.FlagsRise | services/gateway/internal/server/tcp_handler.go:497-599 | a flag goes up only by the event that justifies it and never comes down |
| TcpSession.SettledOnce | services/gateway/internal/server/tcp_handler.go:259-307 | the agreed version, and once authenticated the session, never change again |
| TcpSession.ReceiveConserves | services/gateway/internal/server/tcp_handler.go:220-256 | each message received adds exactly the request it carries to responses plus requests in flight |
| TcpSession.Connection.ProcessNextMessage | services/gateway/internal/server/tcp_handler.go:121-151 | one turn of the message loop is one step of the model |
| TcpSession.Connection.DoVersionNegotiation | services/gateway/internal/server/tcp_handler.go:259-307 | negotiation, its refusals and its acknowledgement |
| TcpSession.Connection.DoRequest | services/gateway/internal/server/tcp_handler.go:310-349 | the checks in source order; the first that fails answers |
| TcpSession.Connection.DoInitialization | services/gateway/internal/server/tcp_handler.go:497-519 | initialization: authentication, session, answer |
| TcpSession.Connection.ProcessRequestAsync | services/gateway/internal/server/tcp_handler.go:352-403 | a routed request ends with exactly one response attempted |
| PredictiveHealth.CountersSummariseHistory | services/gateway/pkg/health/predictive.go:634-769 | in every run successes equal the trailing run of successes, failures and requests are those of a window ending now, failures <= requests <= total, and HalfOpen has both at zero with the success threshold reached |
| PredictiveHealth.OpensExactlyOnFailureRatio | services/gateway/pkg/health/predictive.go:708-716 | in every run Closed opens exactly when the outcomes since the last reset, the new one included, are at least ten and fail at least as often as the threshold of the last adaptation demands |
| PredictiveHealth.FieldsFromRun | services/gateway/pkg/health/predictive.go:676-790 | in every run the request count is the number of requests since the last entry to HalfOpen or return from it to Closed (or since the start), state changes are counted, and the threshold is the configured one until the first adaptation and then what the overall error rate at the last one called for |
| PredictiveHealth.OpeningInNumbers | services/gateway/pkg/health/predictive.go:709-716 | opening in numbers: at least ten requests, and a hundred times the failures at least the threshold times the requests |
| PredictiveHealth.SensitivityInNumbers | services/gateway/pkg/health/predictive.go:771-790 | half the configured threshold below one failure in a hundred requests, one and a half times above one in ten, otherwise itself |
| PredictiveHealth.HalfOpenLastsOneRequest | services/gateway/pkg/health/predictive.go:695-738 | a success closes, a failure reopens: HalfOpen lasts exactly one recorded request |
| PredictiveHealth.ReclosingNeedsSuccesses | services/gateway/pkg/health/predictive.go:695-769 | closing again takes at least SuccessThreshold + 1 consecutive successes |
| PredictiveHealth.ScoreBoundedExactly | services/gateway/pkg/health/predictive.go:588-606 | the score stays in [0, 1] for all inputs if and only if the latency threshold is positive |
| PredictiveHealth.ScoreClosedForm | services/gateway/pkg/health/predictive.go:588-606 | the latency penalty is all or nothing: an average above the threshold always costs exactly 0.4 |
| PredictiveHealth.ScoreNeverNegative | services/gateway/pkg/health/predictive.go:600-605 | whatever the inputs, the score is not negative, and zero where the penalties exceed one |
| PredictiveHealth.NegativeThresholdPays | services/gateway/pkg/health/predictive.go:591-595 | a negative latency threshold turns the penalty into a bonus of half the quotient of average and threshold |
| PredictiveHealth.ScoreNeverDecides | services/gateway/pkg/health/predictive.go:608-631 | with an error-rate threshold of at most one half the score never decides the verdict |
| PredictiveHealth.TallyMeaning | services/gateway/pkg/health/predictive.go:333-386 | in every run the history holds the last HistorySize latencies, and failures and successes in a row are the trailing runs |
| PredictiveHealth.AverageMeaning | services/gateway/pkg/health/predictive.go:555-566 | the average is the sum over the number, short of it by less than one and toward zero, and zero for no samples |
| PredictiveHealth.ErrorRateMeaning | services/gateway/pkg/health/predictive.go:568-586 | below ten samples the last outcome is all; from ten on a tenth for each failure in a row, at most one |
| PredictiveHealth.HealthInRange | services/gateway/pkg/health/predictive.go:568-606 | in every run error rate and score stay in [0, 1] |
| PredictiveHealth.CircuitBreaker.constructor | services/gateway/pkg/health/predictive.go:291-330 | a closed breaker whose dynamic threshold is the configured one |
| PredictiveHealth.CircuitBreaker.UpdateCircuitBreaker | services/gateway/pkg/health/predictive.go:634-651 | counting, threshold and transition in a row are the step whose runs the theorems above describe; the ratio is never taken of no requests |
| PredictiveHealth.CircuitBreaker.UpdateMetrics | services/gateway/pkg/health/predictive.go:662-673 | the counting part |
| PredictiveHealth.CircuitBreaker.UpdateThresholdIfNeeded | services/gateway/pkg/health/predictive.go:676-682 | the threshold is recomputed only after five minutes |
| PredictiveHealth.CircuitBreaker.ProcessStateTransition | services/gateway/pkg/health/predictive.go:684-738 | the transition to the next state, if it differs |
| PredictiveHealth.CircuitBreaker.TransitionTo | services/gateway/pkg/health/predictive.go:741-769 | counters reset as the new state demands |
| PredictiveHealth.EndpointHealthData.RecordMetrics | services/gateway/pkg/health/predictive.go:333-386 | history, counters, rates, score and verdict after one measurement |
| PredictiveHealth.CalculateAverageLatency | services/gateway/pkg/health/predictive.go:555-566 | the summing loop computes the truncated average, zero for no samples |
| ConnectionPool.RunAccounts | services/router/internal/direct/connection_pool.go:143-227 | in every run: stored entries <= active <= max(0, limit); active minus stored is the number overwritten; total is stored plus removed plus overwritten |
| ConnectionPool.StepAccounts | services/router/internal/direct/connection_pool.go:143-470 | every operation keeps that accounting |
| ConnectionPool.CapacityNeverRecovers | services/router/internal/direct/connection_pool.go:143-199 | in every run from an empty pool, capacity lost to overwriting is never given back, the pool never again holds more than what is left, and with a positive limit at least one connection is always left |
| ConnectionPool.AllButOneCanBeLost | services/router/internal/direct/connection_pool.go:143-199 | that loss happens and is the largest possible: under every configuration one server whose connections keep failing takes all capacity but one |
| ConnectionPool.FlappingLoses | services/router/internal/direct/connection_pool.go:143-199 | n rounds of a connection made and found unhealthy leave one entry and n - 1 lost counts |
| ConnectionPool.RefusedExactly | services/router/internal/direct/connection_pool.go:165-171 | a request is refused exactly when nothing can be reused, the capacity left is in use, and nothing is idle |
| ConnectionPool.OverwritesExactly | services/router/internal/direct/connection_pool.go:143-199 | an entry is overwritten exactly when a connection is created where one that cannot be reused is stored |
| ConnectionPool.LeavesExactly | services/router/internal/direct/connection_pool.go:143-470 | in every run a stored connection goes if and only if it is removed by name, cleaned up as unused beyond the idle timeout or past its time to live, or found that idle by a request at the limit (which may put a new one in its place) |
| ConnectionPool.RecentlyUsedIsKept | services/router/internal/direct/connection_pool.go:444-470 | a connection handed out within the idle timeout is never evicted to make room |
| ConnectionPool.TimesAreTrue | services/router/internal/direct/connection_pool.go:143-199 | in every run the stored times are when the connection was made and when it was last handed out |
| ConnectionPool.ReusedExactly | services/router/internal/direct/connection_pool.go:153-163 | a healthy stored connection is handed out again exactly where reuse is on, with its use counted and nothing made |
| ConnectionPool.Connections.GetConnection | services/router/internal/direct/connection_pool.go:143-199 | reuse, eviction at the limit, refusal and creation as in the specification |
| ConnectionPool.Connections.RemoveConnection | services/router/internal/direct/connection_pool.go:202-227 | the one entry is removed and counted; an unknown one is reported |
| ConnectionPool.Connections.PerformCleanup | services/router/internal/direct/connection_pool.go:350-396 | exactly the idle and expired entries go |
| ConnectionPool.Connections.EvictIdle | services/router/internal/direct/connection_pool.go:444-470 | exactly the idle entries go, and their number is returned |
| ConnectionPool.Connections.Sweep | services/router/internal/direct/connection_pool.go:350-396 | removing while iterating removes exactly the entries that were doomed at the start |
| Retry.OperationsBounded | pkg/common/errors/retry.go:140-202 | every execution ends within max(1, MaxAttempts) operations under exponential backoff; under the circuit policy within max(1, MaxAttempts - failureCount) when closed and 2 otherwise |
| Retry.LimitIsReached | pkg/common/errors/retry.go:140-202 | the limit is exact: failures that never stop are met with exactly that many operations |
| Retry.ResultMeaning | pkg/common/errors/retry.go:140-202 | success means the last operation succeeded and all earlier ones failed; giving up, that all failed; cancellation, that the context ended where the loop looked |
| Retry.StopsExactly | pkg/common/errors/retry.go:81-97 | under exponential backoff any failure not worth retrying ends the execution at once, and it gives up only on one or at the last attempt |
| Retry.ClosedCircuit | pkg/common/errors/retry.go:256-289 | a closed circuit retries only failures worth retrying, counts every one of them, waits the uncapped exponential, and ends open if and only if it gave up on one of those |
| Retry.TrippedCircuit | pkg/common/errors/retry.go:240-289 | a circuit that is not closed makes at most one retry, an open one only once its period is over and then half-open, after the initial interval |
| Retry.EveryWaitNearBackoff | pkg/common/errors/retry.go:100-120 | in every execution the i-th wait is within (1 +/- factor) of the i-th capped exponential interval, up to the truncated fraction |
| Retry.JitterWithinFactor | pkg/common/errors/retry.go:109-117 | jitter moves an interval by at most the randomization factor |
| Retry.BackoffNeverShrinks | pkg/common/errors/retry.go:100-107 | with a multiplier of at least one the capped interval never shrinks and never passes the cap |
| Retry.BackoffGrows | pkg/common/errors/retry.go:101-102 | the backoff begins with the initial interval and grows by the multiplier |
| Retry.CappedMeaning | pkg/common/errors/retry.go:104-107 | capping takes the lesser of backoff and cap |
| Retry.JitterRange | pkg/common/errors/retry.go:109-117 | jitter uses the whole range, end to end |
| Retry.TruncatedMeaning | pkg/common/errors/retry.go:119-119 | conversion to a duration never moves away from zero, and by less than one |
| Retry.SharedCircuitBoundsTotal | pkg/common/errors/retry.go:239-278 | executions that use a circuit policy one after the other run, all together, at most two operations each plus the closed circuit's retry budget, which no execution renews |
| Retry.Execute | pkg/common/errors/retry.go:140-202 | the loop computes the recursive specification |
| Retry.CircuitBreakerPolicy.constructor | pkg/common/errors/retry.go:227-236 | starts closed with zero counters |
| Retry.CircuitBreakerPolicy.Decide | pkg/common/errors/retry.go:239-278 | verdict and new state of the circuit policy |
| Retry.CircuitBreakerPolicy.RecordSuccess | pkg/common/errors/retry.go:292-311 | a half-open circuit closes; a closed one forgets its failures after more than MaxAttempts successes |
| Retry.CircuitBreakerPolicy.RecordFailure | pkg/common/errors/retry.go:314-323 | a half-open circuit reopens now |
| ClientMetrics.StoredRecordMeaning | services/router/internal/direct/manager.go:672-720 | in every run of connections, requests and health checks the stored request count, error count and latencies are zero, and the stored categories are exactly those of the errors since the last attempt to connect, with that attempt itself if it failed |
| ClientMetrics.StoredTotalsAgreeExactly | services/router/internal/direct/manager.go:672-720 | the stored categories add up to the stored error count if and only if the last attempt to connect succeeded and no request has failed since |
| ClientMetrics.HealthMeaning | services/router/internal/direct/manager.go:1485-1523 | in every run the stored record calls the client healthy exactly when the latest connection attempt or health check was good, its streak and error are those of the failures since, and requests have no say in it |
| ClientMetrics.OnlyCategoriesSurvive | services/router/internal/direct/adaptive_request_handler.go:155-179 | whatever requests follow, a stored record keeps everything but the categories of their errors, and those only in a map it has |
| ClientMetrics.EveryRequestIsTheFirst | services/router/internal/direct/adaptive_request_handler.go:155-179 | no statistic accumulates: each request's copy has the counts and latencies it would have had as the first |
| ClientMetrics.CategoriesAgreeExactly | services/router/internal/direct/adaptive_request_handler.go:232-265 | in a request's copy the categories add up to the error count if and only if the stored categories plus the failures since did before it |
| ClientMetrics.CategoryMeaning | services/router/internal/direct/adaptive_request_handler.go:267-283 | what each category is given for: timeouts before connections before protocols |
| ClientMetrics.ContainsMeaning | services/router/internal/direct/adaptive_request_handler.go:267-283 | containing a text is being it with something before and something after |
| ClientMetrics.AverageBetweenExtremes | services/router/internal/direct/adaptive_request_handler.go:212-230 | updater applied to one record that is kept: the truncated running average stays between minimum and maximum |
| ClientMetrics.AverageNearMean | services/router/internal/direct/adaptive_request_handler.go:212-230 | updater on a kept record: the average differs from the true mean of n samples by at most (n - 1) / 2, for samples of any sign |
| ClientMetrics.AverageLagsMean | services/router/internal/direct/adaptive_request_handler.go:212-230 | updater on a kept record: the average never exceeds the mean when no sample is negative |
| ClientMetrics.ExtremesAreTrue | services/router/internal/direct/adaptive_request_handler.go:195-219 | updater on a kept record: minimum and maximum are attained bounds of all the samples |
| ClientMetrics.ErrorsDescribeRun | services/router/internal/direct/adaptive_request_handler.go:232-283 | updater on a kept record: the error counters count the failures and each category, the categories add up to the error count, and the streak is the trailing run of failures |
| ClientMetrics.ObservabilityManager.GetClientMetrics | services/router/internal/direct/observability.go:374-387 | a copy that shares the stored record's map |
| ClientMetrics.ObservabilityManager.UpdateClientMetrics | services/router/internal/direct/adaptive_request_handler.go:155-179 | the copy is updated and dropped, which leaves the stored record with its map grown in place |
| ClientMetrics.ObservabilityManager.RecordConnectionSuccess | services/router/internal/direct/manager.go:704-721 | a fresh record with a fresh map |
| ClientMetrics.ObservabilityManager.RecordConnectionFailure | services/router/internal/direct/manager.go:672-702 | a fresh record with one connection error by category and no error counted |
| ClientMetrics.ObservabilityManager.RecordHealth | services/router/internal/direct/manager.go:1495-1523 | a health check in place and again in the copy stored after it: a monitored failure counts twice |
| ClientMetrics.DetailedClientMetrics.UpdateLatencyStats | services/router/internal/direct/adaptive_request_handler.go:195-230 | first sample initializes, later ones update extremes and average |
| ClientMetrics.DetailedClientMetrics.UpdateErrorStats | services/router/internal/direct/adaptive_request_handler.go:232-247 | error counters after one request |
| ClientMetrics.DetailedClientMetrics.CategorizeError | services/router/internal/direct/adaptive_request_handler.go:249-265 | exactly the counters of the one category go up, in the map the record has, or in a new one |
| ClientMetrics.DetailedClientMetrics.Record | services/router/internal/direct/adaptive_request_handler.go:189-247 | all statistics after one request |

## Left out

- Schedulers.RoundRobinExact: the call counter is unbounded; the source's uint64 counter wraps after 2^64 calls, and the cycle is broken there unless the number of endpoints divides 2^64.
- Schedulers.WeightedExact: the same unbounded counter, and endpoint health is fixed during the counted calls.
- HybridBalancer.HybridLoadBalancer.Next: taken as one atomic step; the source writes the connection map under a read lock.
- BalancerCache.CacheStaysCoherent: covers endpoint events, one handler per Kubernetes namespace at a time, with the callback registered before the first event; service events and the periodic resync do not notify and are not covered.
- FaultTolerantLimiter.SpanBound: gateways and Redis read one clock, INCR and EXPIRE of one pipeline are applied at one instant, Redis keys are triples of kind, key and bucket instead of formatted strings, and an accept through Redis is dated by its clock reading for the limit in question.
- MemoryRateLimit.RefinesFullHistory: each call reads the clock once and readings do not decrease.
- SseStream.CorrelationIsSafe: one live stream; establishing streams and the map of streams are not modelled.
- Batcher.NoLostWakeup: messages added after the consumer has exited stay in the buffer, as in the source; nothing is claimed to flush them.
- TcpSession.ResponsesConserved: frames are sent and received whole; writes without the write mutex, read timeouts inside a frame, the health-check traffic and connection clean-up are not modelled, a request that cannot be extracted ends the run as the source's nil dereference would, and which id a routed response carries is the router's affair.
- PredictiveHealth.HealthInRange: exact reals instead of floating point, and a positive latency threshold.
- PredictiveHealth.EndpointHealthData.RecordMetrics: the latency threshold is not zero, because the monitor replaces a zero by its default when it is made.
- Retry.EveryWaitNearBackoff: exact reals instead of floating point; durations do not overflow.
- Retry.SharedCircuitBoundsTotal: the executions do not overlap; the source's policy has no lock.
- ConnectionPool.RunAccounts: the two-level map is one map keyed by protocol and URL; creating and closing connections are outcomes given by the environment.
- CircuitBreakers.CircuitBreaker.EndCall: the time of the last state change, used only for reporting, is not kept.
- WireProtocol.Encode: a writer that fails part-way is not modelled.
- ClientMetrics.AverageBetweenExtremes: like the other results on a kept record, speaks of the updater applied again and again to one record; the source's only caller gives it a new copy each time, and `ClientMetrics.EveryRequestIsTheFirst` says what that means.
- ClientMetrics.StoredRecordMeaning: connecting, a request's update and a health check are atomic steps on one client's record; records stored by other callers, the health history, rates, byte counts and time stamps are not modelled.
- Hybrid balancer endpoint updates, connection release and statistics: single assignments and counters already covered by `LeastConnections`.
- Propagation of health-check results into balancers: endpoint health is an input of the schedulers.
- HTTP, WebSocket, Redis, Kubernetes and Consul clients, TLS, JSON, JWT: foreign code behind the steps.
- Configuration, logging, metrics export, tracing, command-line tools, error tables, factories: no property beyond single assignments.
- Failure prediction and active health checks: placeholders in the source.
