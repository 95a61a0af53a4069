# gruf-relay: a verified model

gruf-relay supervises worker processes and relays gRPC streams to them. Its logic is
concurrent state plus one aggregation algorithm. This project models four cores and
proves what they promise over every run:

- worker supervision: `worker.dfy`, `connection_pool.dfy`, `manager.dfy`;
- health-driven balancing: `healthcheck.dfy`, `worker_set.dfy`, `loadbalance.dfy`,
  `round_robin.dfy`, `uint64.dfy`;
- the stream relay: `proxy.dfy`;
- metrics aggregation: `label_keys.dfy`, `collector.dfy`, `histogram.dfy`,
  `scraper.dfy`, `folds.dfy`.

`runs.dfy` defines runs of a step system and what every run keeps; `basics.dfy` holds the
rest of what the modules share. `dafny verify dfyconfig.toml` checks everything.

## How the model is built

Each concurrent core is a step system: a `State`, the `Event`s that its goroutines and
their environment can perform, and `Next`, which says whether an event is possible and
where it leads. `Runs.Reaches(Next, s, es, t)` says that the interleaving `es` leads from
`s` to `t`. The number of goroutines is not bounded. The theorems quantify over every
`es`, hence over every interleaving.

An event is one access to shared state, one channel operation, or one outcome of the
environment (a child exits, a call fails, a timeout fires). Some accesses are joined in
one event, each time because no other goroutine can see the state between them or change
what they use:

- `StartLock`, `Launch` and `Clear` (`internal/worker/worker.go:110-121`, `128-137` and
  `219-221`) join an operation of the worker's mutex with accesses to `running`, which is
  accessed under that mutex only; `stopping`, which is also read without it, is written
  under it by an event of its own;
- `Handle` joins what the balancer loop does with one request; the list it publishes is
  read without a lock, and `loadbalance.dfy` treats these reads, also in the middle of an
  in-place delete;
- `Update`, `ProbeRead` and the merge of a scrape each are one critical section;
- in the pool every access, mutex operation and channel operation is an event of its own,
  except that `CloseSlot` joins the close of a connection with the clearing of its slot: a
  fast read between the two is one before both;
- in the relay `SelectDown` joins a receive with the trailer, which only the loop touches.

Beside the step system stands a class with the fields of the source. A method of it
executes one body of the source and changes these fields; its contract says that what it
did is a run of the step system, or equals a specification function of the old state. So
the theorems about runs hold of the methods. The bodies that wait for other goroutines
(the shutdown, the select loop of the relay, the readiness probe) take the steps of these
goroutines as a parameter and are proved for all of them. Sequential code (the balancer's
list, the aggregation) is a class or a method proved equal to a specification function,
and the properties are lemmas about that function.

What the environment is assumed to do:

- `Wait` returns only after its child has exited; a start, SIGTERM or SIGKILL succeeds or
  fails freely; timeouts may fire at any time;
- the connection builder fails, or returns a connection that was not returned before;
- a handle is returned once, as the deferred calls in `internal/proxy/proxy.go:70` and
  `internal/healthcheck/healthcheck.go:134` do;
- a stream call either succeeds or returns an error, and a `SendMsg` that fails has
  delivered nothing;
- reads and writes of shared variables are atomic and take effect in program order.

Where a plausible claim about the code is false, the project states exactly when it holds
and exhibits an input or a run on which it fails:

| claim | exact version | failing case |
|---|---|---|
| a serving worker is restarted after an exit | `SupervisedUntilRestartFails` | `SupervisionLost` |
| a fetched handle has a connection | `HandleNilExactlyWhenClosedBetween`, `LockedHandleIsLive` | `NilHandleOccurs` |
| readiness 200 means that every worker is in the balancer | `ReadyMeansServingIff` | `MisledProbeOccurs` |
| every round of checks completes | `StuckExactlyWhenStopped` | `StuckRoundOccurs` |
| a `Next` that loaded a non-empty list returns a worker | `StaleReadNilIff` | `RemovalShiftsSnapshot` |
| picks differ by at most one | `EvenAlwaysIffDivides` | `UnevenWindow` |
| OK means that every response was delivered | `OkMeansDelivered`, `OkMeansAllDelivered` | `OkLosesResponse` |
| the half-close follows every client message | `HalfCloseMeansForwardedIff` | `HalfCloseLosesRequest` |
| nothing is sent to the client after the handler has returned | `ClientIsLeftIff` | `SendAfterReturnOccurs` |
| a key stands for one vector of label values | `KeyUniqueIff` | `KeyCollides` |
| gauges do not depend on the order of the samples | `GaugeOrderIndependentIff`, `ExposedGaugeOrderIndependentIff` | `GaugeDependsOnOrder` |
| exposed counters do not depend on which worker finishes first | `ExposedCountersOrderIndependentIff` | `DifferentNamesExpose` |
| finite buckets are summed | `FaithfulIffSeparated` | `FirstExcludesClose` |
| finite buckets do not depend on the order of the merged buckets | `BucketOrderFreeIffSeparated` | `CloseBoundsDependOnOrder` |
| cumulative histograms add up to a cumulative one | `CumulativeForAllCountsIff` | `SpikeDecreases`, `DifferentBoundsDecrease` |
| the `+Inf` bucket equals the count | `InfMatchesCountIff` | `InfBelowCount` |
| the `+Inf` bucket does not depend on the order of the samples | `InfOrderIndependentIff` | `InfDependsOnOrder` |

The relay treats EOF from `Header`, `SendHeader` and `SendMsg` like EOF from `RecvMsg`
(`internal/proxy/proxy.go:166-192`, `114`). The documentation of gRPC for Go names EOF as
the end of a stream for `RecvMsg`, and for `SendMsg` on a client stream, which is the
request direction; for the header calls and `SendMsg` on a server stream it neither names
nor excludes it. So `OkMeansDelivered` covers all of them, and `OkMeansAllDelivered`
states what follows if EOF comes from `RecvMsg` alone. In the request direction the loop
takes the EOF of a failed `SendMsg` for the end of the client's messages
(`internal/proxy/proxy.go:99-102`). The library itself is not part of this model.

The repository's `README.md:36` and `README.md:228` call the balancer random. The code is
round robin (`internal/loadbalance/loadbalance.go:58-68`), and so is the model.

## Model

| member | source | states |
|---|---|---|
| WorkerLifecycle.EveryRunIsSafe | internal/worker/worker.go:109-228 | In every interleaving: at most one child is alive and a waiter watches it; at most one waiter has not yet cleared `running`, and before stopping such a waiter exists exactly when `running` holds; the command is not replaced while a waiter waits on it; the exit channel is sent to at most once, closed at most once and after the send, and the send never blocks or panics; after a nil shutdown every child still alive was sent SIGKILL |
| WorkerLifecycle.RunKeepsInv | internal/worker/worker.go:109-228 | The inductive invariant behind it (mutex, ownership, start, children, channel, result) survives every run |
| WorkerLifecycle.StoppingRunIsBounded | internal/worker/worker.go:159-228 | Once `stopping` is set no child is started, a returned shutdown stays returned, and all goroutines together take at most `Work(s)` more steps |
| WorkerLifecycle.ShutdownIsFinal | internal/worker/worker.go:159-200 | After shutdown returned nil, in every continuation no child is added, `running` stays false, and a child still alive is one that was killed before the return |
| WorkerLifecycle.QuietExactlyWhenFinished | internal/worker/worker.go:159-228 | A stopping worker is never deadlocked: no goroutine can move if and only if `Run` has returned and each waiter has finished or waits for a living child; so a restart blocked on the mutex of `shutdown` is released |
| WorkerLifecycle.SupervisedUntilRestartFails | internal/worker/worker.go:202-228 | While the worker serves, no waiter is left to restart it if and only if a restart has failed: a failed restart is never retried |
| WorkerLifecycle.SupervisionLost | internal/worker/worker.go:218-227 | A run with one exit and one failed restart, after which the worker serves on with no waiter and no child |
| WorkerLifecycle.Worker.constructor | internal/worker/worker.go:52-82 | A new worker is in the initial state, with an empty one-place exit channel |
| WorkerLifecycle.Worker.Start | internal/worker/worker.go:109-138 | `start` is a run of the step system; it fails exactly when the launch fails, and then leaves `running` unset, no living child, no new waiter, and ends `Run` with the error or the restarting waiter; on success there is one living child, `running` and one new waiter; when already running or stopping nothing changes |
| WorkerLifecycle.Worker.Shutdown | internal/worker/worker.go:159-200 | With any outcomes of the process calls and any steps of waiters and children while it waits at its select, `shutdown` is a run of the step system with these outcomes that keeps the invariant; SIGTERM is tried exactly when the worker runs and its child did not exit normally; the exit is received exactly when a waiter has handed it over and the timeout does not fire; SIGKILL is sent exactly when SIGTERM failed or the exit was not received; it returns nil exactly when there is nothing to stop, or a signal was delivered and the exit was received or SIGKILL succeeded; it releases the mutex on all exits; on nil every living child was killed |
| WorkerLifecycle.ExitReachesSelect | internal/worker/worker.go:189-213 | A child that exits while shutdown waits with the mutex is handed over: its waiter's steps fill the channel that the select reads |
| WorkerLifecycle.Worker.StopChild | internal/worker/worker.go:180-187 | SIGTERM, and SIGKILL only if SIGTERM failed; an error if both fail |
| WorkerLifecycle.Worker.AwaitExit | internal/worker/worker.go:189-197 | Either the exit is in the channel and received, and the child is not killed, or the timeout sends SIGKILL and reports its failure |
| WorkerLifecycle.Worker.ReportExit | internal/worker/worker.go:210-221 | When stopping, and also while shutdown holds the mutex, the exit is sent once and the channel closed once without a panic; otherwise `running` is cleared under the mutex and the waiter goes to sleep |
| ConnectionPool.IndexInOnePlace | internal/worker/connection_pool.go:35-107 | In every run an index is in the channel if and only if no goroutine has it, at most once there, and two goroutines never have the same one |
| ConnectionPool.ChannelNeverBlocks | internal/worker/connection_pool.go:49-71 | Neither send of an index back to the channel ever blocks, and the channel is empty only while every index is taken |
| ConnectionPool.OnlyTheMutexBlocks | internal/worker/connection_pool.go:58-89 | A goroutine past the index channel waits for nothing but the mutex, and whoever holds the mutex, a fetch or `close`, can always move |
| ConnectionPool.ConnectionsConserved | internal/worker/connection_pool.go:58-89 | Every connection ever built is in exactly one slot or on its way into one, or was closed exactly once, and never both; a handle's connection is its slot's or was closed |
| ConnectionPool.OpenAtMostSize | internal/worker/connection_pool.go:35-89 | In every run at most `size` connections are built and not closed |
| ConnectionPool.LockedHandleIsLive | internal/worker/connection_pool.go:62-74 | On the locked path the handle carries a connection that is not closed and is its slot's when the mutex is released, whatever other goroutines do |
| ConnectionPool.HandleNilExactlyWhenClosedBetween | internal/worker/connection_pool.go:58-98 | On the fast path the handle's connection is nil if and only if a `close` passed its slot between the test and the second read; otherwise it is the connection that was tested |
| ConnectionPool.NilHandleOccurs | internal/worker/connection_pool.go:58-98 | A run of a pool of one in which a fetch succeeds with a nil connection |
| ConnectionPool.RunKeepsInv | internal/worker/connection_pool.go:35-107 | Conservation of indices and connections survives every run of any number of goroutines |
| ConnectionPool.HolderHasRoom | internal/worker/connection_pool.go:104-107 | Whenever a goroutine has an index, the channel has room for it (a pigeonhole argument) |
| ConnectionPool.Pool.constructor | internal/worker/connection_pool.go:35-47 | The filling loop leaves each index once in the channel and every slot nil |
| ConnectionPool.Pool.FetchConn | internal/worker/connection_pool.go:49-75 | A fetch is a run of the step system: it fails exactly when cancelled, or when the slot is nil and the builder fails; then no index is lost; on success the handle has the first index and the live connection of its slot; the mutex is as before |
| ConnectionPool.Pool.Fast | internal/worker/connection_pool.go:58-60 | The unlocked path, two reads of the slot, gives the slot's connection if nothing intervenes |
| ConnectionPool.Pool.Locked | internal/worker/connection_pool.go:62-74 | The locked path hands out the slot's connection if another goroutine left one, otherwise stores and hands out a new one, or puts the index back and fails; the mutex is released on all three |
| ConnectionPool.Pool.Close | internal/worker/connection_pool.go:77-89 | After the loop every slot is nil and every connection that was in one is closed; it is a run of the step system |
| ConnectionPool.Pool.Return | internal/worker/connection_pool.go:104-107 | The index of the handle is put back, and the invariant is kept |
| Manager.NewManager | internal/manager/manager.go:18-31 | The loop builds the table of workers |
| Manager.TableHoldsAll | internal/manager/manager.go:18-31 | Decimal names never collide, so the map has as many workers as configured |
| Manager.TableEntry | internal/manager/manager.go:21-25 | The entry of worker `i` has its name, the service port `StartPort + i` and the metrics port 100 above it: no later worker overwrites it |
| Manager.NameHoldsNumber | internal/manager/manager.go:22 | A name is `worker-` followed by the decimal numeral of the worker's number, counted from 1 |
| Manager.PortsDistinctIff | internal/manager/manager.go:21-25 | Service and metrics ports are all distinct if and only if there are at most 100 workers |
| Manager.RunReturnsFirstError | internal/manager/manager.go:33-65 | When `Run` returns, every runner has finished and all were cancelled; its error is the first one offered; without an error the context was done; nothing is offered after the close of the channel |
| Manager.FirstErrorIsOffered | internal/manager/manager.go:46-60 | The first error that a runner offers is taken, stays the first in every continuation, can be received as long as `Run` selects, and is the only error that `Run` can return |
| Manager.RunIsBounded | internal/manager/manager.go:33-65 | No interleaving of runners and the main goroutine takes more than `Work(s)` steps |
| Manager.QuietOnlyWhenReturned | internal/manager/manager.go:33-65 | After an error or the end of the context, the goroutines come to rest if and only if `Run` has returned |
| HealthCheck.AgreeUnlessInFlight | internal/healthcheck/healthcheck.go:76-127 | In every interleaving of the checks with the balancer loop, a worker's membership and recorded state agree unless its own request is being handled or its update is still to come |
| HealthCheck.MembersAreReady | internal/healthcheck/healthcheck.go:76-127 | After a drained round the balancer's names are exactly the managed workers recorded as Ready |
| HealthCheck.ReadyMeansServingIff | internal/probes/probes.go:97-109 | The probe reads one state at a time, while rounds go on. When it answers 200 with nothing in flight, every managed worker is in the balancer if and only if no state it had read was last recorded off Ready before the answer; then the published slice is not empty, if there are workers, and each of its slots holds a worker |
| HealthCheck.ReadWorkerIsMemberIff | internal/probes/probes.go:97-109 | The same for each worker at any moment of the probe: one that was read and has no request in flight is in the balancer if and only if its state did not go off Ready since |
| HealthCheck.CalmProbeMeansServing | internal/probes/probes.go:97-109 | If no state that the probe has read is recorded off Ready between its start and its answer, 200 with nothing in flight means that every worker is in the balancer |
| HealthCheck.UnrecordedIsCalm | internal/healthcheck/healthcheck.go:123-127 | A probe during which no state is recorded is such a probe |
| HealthCheck.MisledProbeOccurs | internal/probes/probes.go:97-109 | A run with a round between two reads: the probe answers 200 with nothing in flight, and a worker that it has read as Ready is not in the balancer |
| HealthCheck.StuckExactlyWhenStopped | internal/healthcheck/healthcheck.go:76-88 | Nothing can move if and only if the balancer loop has stopped and the unfinished checks are all sending |
| HealthCheck.StuckRoundOccurs | internal/loadbalance/loadbalance.go:43-52 | A run in which the balancer loop stops between a check and its request, and the round is stuck |
| HealthCheck.SenderBlocksForever | internal/loadbalance/loadbalance.go:50-56 | After the loop stopped, a sending check stays blocked in every continuation and its round never completes |
| HealthCheck.RoundIsBounded | internal/healthcheck/healthcheck.go:76-88 | A round, with at most one probe beside it, takes at most `Work(s)` steps, whatever the order of the checks |
| HealthCheck.RunKeepsInv | internal/healthcheck/healthcheck.go:76-127 | The invariant (membership after the pending request equals the latest verdict) survives every run |
| HealthCheck.Checker.constructor | internal/healthcheck/healthcheck.go:34-47 | A new checker has recorded no state |
| HealthCheck.Checker.CheckWorker | internal/healthcheck/healthcheck.go:90-121 | The verdict is Shutdown exactly when the worker does not run, Ready exactly when it runs and serves, and TransientFailure otherwise; the request adds this worker when Ready and removes it otherwise |
| HealthCheck.Checker.UpdateWorkerState | internal/healthcheck/healthcheck.go:123-127 | The verdict is recorded under the worker's name and the check ends |
| HealthCheck.Checker.CheckAll | internal/healthcheck/healthcheck.go:76-88 | A round in which the checks run in turn is a run of the step system that ends drained; each worker is recorded as Shutdown exactly when it does not run and as Ready exactly when it runs and serves, and then it is in the balancer |
| HealthCheck.Checker.ReadinessProbe | internal/probes/probes.go:97-109 | The loop, with any steps of the checks and the balancer before each of its reads, is the run of the step system with exactly these steps; on 200 a worker with nothing in flight is in the balancer exactly when it is not stale; undisturbed it answers 200 exactly when every worker is recorded as Ready |
| WorkerSet.MemberIffLastAdded | internal/loadbalance/loadbalance.go:70-101 | A name is in the replayed set if and only if the last request about it was an addition |
| WorkerSet.ReplayIsInInsertionOrder | internal/loadbalance/loadbalance.go:70-101 | The set is the workers of exactly those additions whose name was not listed before and was not removed since, in the order of these additions |
| LoadBalance.ListIsReplay | internal/loadbalance/loadbalance.go:70-101 | After any sequence of requests the published slice is the insertion-ordered set, names are distinct, and the name set is exactly its names |
| LoadBalance.RemovalFindsItsTarget | internal/loadbalance/loadbalance.go:87-98 | In every run the scan of a removal hits if and only if the name is recorded, so a nil slice is never published |
| LoadBalance.AddsKeepSnapshot | internal/loadbalance/loadbalance.go:70-81 | Any number of additions, in place or with growth, leave a loaded snapshot unchanged |
| LoadBalance.StaleReadAfterAdds | internal/loadbalance/loadbalance.go:58-68 | A `Next` that loaded the slice before any number of additions still returns the worker that was at its index |
| LoadBalance.StaleReadNilIff | internal/loadbalance/loadbalance.go:58-101 | After any requests that follow the load, a call of `Next` reads nil at its index if and only if the list still lives in the loaded array and has shrunk to that index or less; while it lives there the call reads the current list |
| LoadBalance.RemovalShiftsSnapshot | internal/loadbalance/loadbalance.go:91-100 | The case of one removal: a stale snapshot reads nil in its last slot, the next worker from the removed index on, and the old worker before it |
| LoadBalance.SlotsHoldAddedWorkers | internal/loadbalance/loadbalance.go:58-101 | Over any run each slot of each array, live or left behind, holds nil or a worker that was once added |
| LoadBalance.LoadBalancer.constructor | internal/loadbalance/loadbalance.go:24-32 | The list, the name set and the counter are empty |
| LoadBalance.LoadBalancer.Next | internal/loadbalance/loadbalance.go:58-68 | Nil and no increment for an empty list; otherwise the counter wraps at 2^64 and the worker at the picked index is returned |
| LoadBalance.LoadBalancer.OnAddWorker | internal/loadbalance/loadbalance.go:70-81 | The new state is that of the slice model, and a growing append leaves the old array as it was |
| LoadBalance.LoadBalancer.Grow | internal/loadbalance/loadbalance.go:79 | The copy has the old slots, the new worker and empty spare slots |
| LoadBalance.LoadBalancer.OnRemoveWorker | internal/loadbalance/loadbalance.go:83-101 | The new state is that of the slice model: one worker removed in place |
| LoadBalance.LoadBalancer.IndexOf | internal/loadbalance/loadbalance.go:93-94 | The scan stops at the first slot with the name |
| LoadBalance.LoadBalancer.DeleteAt | internal/loadbalance/loadbalance.go:95 | The tail moves down one slot in place, one write at a time, and the last slot is cleared; until that last write every slot holds its old worker or the next one, so a concurrent reader sees no nil |
| LoadBalance.LoadBalancer.Run | internal/loadbalance/loadbalance.go:34-48 | The loop over any requests leaves the object with the replayed set, list and names agreeing |
| Uint64.WordIsPower | internal/loadbalance/loadbalance.go:21 | The counter's word has 64 bits |
| RoundRobin.EvenWithoutWrap | internal/loadbalance/loadbalance.go:58-68 | Over any k calls without a wrap of the counter two workers' pick counts differ by at most 1 |
| RoundRobin.EvenAcrossOneWrap | internal/loadbalance/loadbalance.go:58-68 | Across one wrap they differ by at most 2 |
| RoundRobin.EvenAlwaysIffDivides | internal/loadbalance/loadbalance.go:66 | The bound of 1 holds for every start and number of calls if and only if the number of workers divides 2^64 |
| RoundRobin.UnevenWindow | internal/loadbalance/loadbalance.go:66 | For any other number of workers there is a window with two picks of the first worker and none of the last |
| RoundRobin.ConsecutiveCalls | internal/loadbalance/loadbalance.go:66 | The picks that are counted are those of consecutive calls of `Next` on the wrapped counter |
| Proxy.EveryRunKeepsOrder | internal/proxy/proxy.go:88-198 | In every interleaving the messages sent each way are an in-order prefix of those received and lag by at most one; the header is sent at most once and before any message; nothing follows the half-close |
| Proxy.OkMeansDelivered | internal/proxy/proxy.go:112-117 | OK means that the response pump reported EOF; every response received has reached the client if and only if the EOF came from `RecvMsg`; otherwise exactly the last one is missing |
| Proxy.OkMeansAllDelivered | internal/proxy/proxy.go:112-117 | If EOF in the response direction comes from `RecvMsg` alone, OK means that the client has the header, if there was a response, and every response received, in every interleaving |
| Proxy.OkLosesResponse | internal/proxy/proxy.go:178-192 | A run in which the send of a response ends with EOF: the result is OK and the response is lost |
| Proxy.LoopIsBounded | internal/proxy/proxy.go:91-122 | At most three channel receives, the downstream channel is never nil, the trailer is set once exactly when the loop ends on it, and no pump blocks on its error channel |
| Proxy.ClientIsLeftIff | internal/proxy/proxy.go:91-122 | For every result of the handler: in no continuation is anything more sent to the client if and only if the response pump had left its loop; with a result of the downstream channel (OK or its error) it always had |
| Proxy.DownstreamResultIsFinal | internal/proxy/proxy.go:106-121 | After such a result the result, the one trailer, what was received from the worker and what was sent to the client are final in every continuation |
| Proxy.SendAfterReturnOccurs | internal/proxy/proxy.go:99-105 | A run in which a failed request returns while the response pump is about to send, and the send to the client comes after the return |
| Proxy.HalfCloseMeansForwardedIff | internal/proxy/proxy.go:93-105 | The stream to the worker is half-closed only after an EOF of the request pump; every client message was forwarded before if and only if that EOF came from `RecvMsg`, and otherwise exactly the last one is lost |
| Proxy.HalfCloseLosesRequest | internal/proxy/proxy.go:134-144 | A run in which the send of a client message ends with EOF: the stream is half-closed and the message is lost |
| Proxy.RunKeepsInv | internal/proxy/proxy.go:88-198 | The invariant over both pumps and the loop survives every run |
| Proxy.Relay.ProxyRequest | internal/proxy/proxy.go:125-149 | The request pump forwards all messages, or those before a failed send, in order; it reports one error and closes its channel |
| Proxy.Relay.ProxyResponse | internal/proxy/proxy.go:151-198 | The response pump forwards the header after the first response, then the responses in order up to a failed send; an error of fetching or forwarding the header ends it with nothing sent; one error is reported, then the channel is closed |
| Proxy.Relay.CopyResponses | internal/proxy/proxy.go:183-194 | The copying loop forwards the remaining responses in order |
| Proxy.Relay.Establish | internal/proxy/proxy.go:159-175 | The first response is received before the header is fetched and forwarded, and the first error of the two ends the pump |
| Proxy.Relay.HandleRequest | internal/proxy/proxy.go:91-122 | With any steps of the pumps before each receive and either choice at every select, the loop ends within three receives with a result justified by the pump it ended on, or waits only while no channel is ready; once the response pump has reported it always ends; every half-close has the given outcome, and the result is the half-close error exactly when one failed |
| Proxy.RoundMovesPumps | internal/proxy/proxy.go:91-122 | A round of the loop leaves the pumps, what they received and what they sent to the client as their own steps put them |
| Proxy.Relay.ReceiveUp | internal/proxy/proxy.go:93-105 | The upstream case of the select is that step |
| Proxy.Relay.ReceiveDown | internal/proxy/proxy.go:106-121 | The downstream case of the select is that step |
| LabelKeys.PartsOfKey | internal/metrics/collector.go:94-99 | Splitting the key of k values, k at least 1, gives k plus the number of commas parts |
| LabelKeys.RoundTripIff | internal/metrics/collector.go:94-99 | The split gives the values back if and only if there are some and none has a comma |
| LabelKeys.JoinOfSplit | internal/metrics/collector.go:94-99 | Joining the split gives the key back, for every key |
| LabelKeys.EmittedArityIff | internal/metrics/collector.go:98-117 | As many values as labels are emitted if and only if there are no labels, or no value has a comma and some value is not empty; then they are the values |
| LabelKeys.KeyUniqueIff | internal/metrics/collector.go:85-94 | A vector's key belongs to no other vector of its length if and only if it has at most one value or no value has a comma |
| LabelKeys.KeyCollides | internal/metrics/collector.go:85-94 | For two or more values with a comma another vector with the same key exists |
| LabelKeys.GetLabelKey | internal/metrics/histogram.go:70-81 | The nested loops with the early break give the joined vector of label values |
| LabelKeys.VectorHoldsValues | internal/metrics/collector.go:85-93 | At the position of each label name the vector has the value of the first label of that name, and the empty string if there is none |
| LabelKeys.PrepareLabelValues | internal/metrics/histogram.go:142-155 | No values when all are empty, otherwise all of them |
| Collector.AggregateIsFold | internal/metrics/collector.go:82-97 | A key is present exactly when it has samples, and its value is the fold of its own samples in order |
| Collector.GaugeIsLast | internal/metrics/gauge.go:44 | A gauge group yields exactly its last sample |
| Collector.GaugeOrderIndependentIff | internal/metrics/gauge.go:44 | All gauges are the same for every permutation of the samples if and only if samples with the same key have the same value |
| Collector.GaugeDependsOnOrder | internal/metrics/gauge.go:44 | Two samples whose order changes a gauge |
| Collector.CounterOrderIndependent | internal/metrics/counter.go:44 | Counter results are the same for every permutation of the samples |
| Collector.CounterConserved | internal/metrics/collector.go:84-97 | The totals of the groups add up to the sum of all samples |
| Collector.EmissionSucceedsIff | internal/metrics/collector.go:98-117 | Every group is emitted with one value for each label if and only if no sample has a comma in a value or only empty values |
| LabelKeys.GroupsAreLabelClasses | internal/metrics/collector.go:84-117 | Among samples without a comma in a value and not with empty values only, two have the same key if and only if their label values are equal, and the key is emitted as these values, for all three kinds of metrics |
| Collector.CollectGeneric | internal/metrics/collector.go:73-109 | The two loops emit each group once, in any order of the map, with its fold and its split key |
| Histogram.FaithfulIffSpaced | internal/metrics/histogram.go:100-131 | On the real bounds: every finite bound that occurs is emitted with the sum of its counts, modulo 2^64, if and only if finite bounds are equal or at least 1e-10 apart |
| Histogram.FaithfulIffSeparated | internal/metrics/histogram.go:100-131 | The same in terms of the code's comparison of two bounds |
| Histogram.CloseIff | internal/metrics/histogram.go:105 | Two bounds are taken for the same exactly when both are finite and less than 1e-10 apart |
| Histogram.CloserAreNotBothEmitted | internal/metrics/histogram.go:104-131 | Of two different bounds closer than 1e-10 at most one is emitted, whatever else the group holds |
| Histogram.EmittedBoundsOccur | internal/metrics/histogram.go:100-131 | With such bounds the emitted bounds are exactly those that occur: the conversion to a map loses none |
| Histogram.InfsNeverMerge | internal/metrics/histogram.go:104-119 | The merge keeps every `+Inf` bucket as a bucket of its own, in order |
| Histogram.EmittedInfIsLast | internal/metrics/histogram.go:127-130 | The emitted `+Inf` count is that of the last one |
| Histogram.AggregateIsTotal | internal/metrics/histogram.go:48-98 | A group's count and sum are the totals of its samples, and its buckets the merge of all their buckets |
| Histogram.SampleCarries | internal/metrics/histogram.go:84-97 | A sample contributes the count, the sum and the buckets it carries, and nothing for what it lacks |
| Histogram.GroupsAddUp | internal/metrics/histogram.go:48-98 | The totals of a group over two parts of the input add up, and its buckets follow one another |
| Histogram.SingleSampleUnchanged | internal/metrics/histogram.go:48-140 | A single sample whose bounds are distinct and not within the tolerance goes through unchanged: one group, with its count, its sum, and each bucket with its count |
| Histogram.AggregateKeys | internal/metrics/histogram.go:48-68 | There is a group for a key if and only if some sample has it, with or without a histogram |
| Histogram.HistogramOrderIndependent | internal/metrics/histogram.go:48-121 | With separated bounds, count, sum and finite buckets are the same for every permutation of the samples |
| Histogram.BucketOrderFreeIffSeparated | internal/metrics/histogram.go:100-131 | The emitted finite buckets are the same for every order of the merged buckets if and only if finite bounds are equal or at least 1e-10 apart |
| Histogram.InfOrderIndependentIff | internal/metrics/histogram.go:104-131 | The emitted `+Inf` bucket is the same for every permutation of the samples if and only if all samples of the group that have one end with the same count |
| Histogram.EmissionSucceedsIff | internal/metrics/histogram.go:123-155 | Every histogram is emitted with one value for each label if and only if no sample has a comma in a value or only empty values |
| Histogram.CumulativeForAllCountsIff | internal/metrics/histogram.go:83-140 | For given labels and separated bounds: whatever the counts, samples that are cumulative over their own bounds add up to a histogram that is nondecreasing in the bound and bounded by its count, as long as that does not wrap, if and only if each sample of the group that has a finite bound has every greater finite bound of the group; in particular if all have the same bounds |
| Histogram.DifferentBoundsDecrease | internal/metrics/histogram.go:83-140 | Cumulative samples over different bounds can add up to a decreasing histogram |
| Histogram.InfMatchesCountIff | internal/metrics/histogram.go:83-140 | For samples whose `+Inf` bucket equals their count, as the Prometheus text exposition format ("Histograms and summaries") demands, the emitted one equals the emitted count if and only if the earlier samples of the group count nothing modulo 2^64 |
| Histogram.InfBelowCount | internal/metrics/histogram.go:104-131 | Two equal samples that count anything are emitted with a `+Inf` bucket that differs from the count |
| Histogram.Accumulator.AggregateBucket | internal/metrics/histogram.go:100-121 | The first bucket less than 1e-10 away is increased in place and keeps its bound; if there is none, or the bound is `+Inf`, the bucket is appended |
| Histogram.Accumulator.AggregateHistogramData | internal/metrics/histogram.go:83-98 | A missing histogram, count or sum changes nothing; the rest is added |
| Histogram.AggregateHistograms | internal/metrics/histogram.go:48-68 | The map of accumulator objects, which never alias, holds the specified groups |
| Histogram.BucketMap | internal/metrics/histogram.go:127-130 | The loop keeps the last count of each bound |
| Histogram.Collect | internal/metrics/histogram.go:42-45 | For each key of a sample one metric is emitted, in any order, with the group's total count modulo 2^64, its total sum, the merged map of all its buckets, and the parts of the key, or none if all are empty |
| Histogram.SendHistograms | internal/metrics/histogram.go:123-140 | Each accumulator is emitted once, in any order of the map, with its count, sum and buckets under its split key |
| Scraper.Merge | internal/metrics/scraper.go:137-145 | Merging one scrape appends its samples to those of each family, and changes no other family |
| Scraper.SamplesAddUp | internal/metrics/scraper.go:138-144 | The samples that a scrape holds for a name are those of its families of that name, one after the other |
| Scraper.MergeKeepsSamples | internal/metrics/scraper.go:127-146 | The merged family holds exactly the samples of all scrapes, none lost and none doubled |
| Scraper.MergeOrderIndependent | internal/metrics/scraper.go:127-146 | It is the same bag of samples in whatever order the workers finish |
| Scraper.CountersOrderIndependent | internal/metrics/scraper.go:127-146 | So are the counters that are collected from it, for a given list of labels |
| Scraper.FirstSampleKeepsLabels | internal/metrics/counter.go:14-32 | The exposed label names are those of the first merged sample in order, and its label values are its own |
| Scraper.ExposedKeepsSamples | internal/metrics/collector.go:84-97 | Every merged sample is in a group that is exposed, under the exposed label names |
| Scraper.ExposedCountersOrderIndependentIff | internal/metrics/counter.go:14-32 | The label names are read from the first merged sample; the exposed names and counters are the same in whatever order the workers finish if and only if the first samples of all workers that report the family list the same label names |
| Scraper.ExposedGaugeOrderIndependentIff | internal/metrics/scraper.go:127-146 | The gauge of a group is the same in whatever order the workers finish if and only if all workers that report the group end with the same value |
| Scraper.HistogramsOrderIndependent | internal/metrics/scraper.go:127-146 | With separated bounds the merged histograms have the same count, sum and finite buckets in whatever order the workers finish |

## Left out

- ConnectionPool.Pool.Close: `internal/worker/worker.go:125` and `internal/worker/worker.go:166` call it under the worker's mutex; the pool is proved for any number of closes at any time instead of those two places.
- ConnectionPool.Pool.FetchConn: as a method it runs uninterrupted, with no close under way; a fetch that races with a close is covered by the step system.
- Proxy.Relay.ProxyRequest: as a method the pump runs alone to its end; interleaved pumps are covered by the step system.
- Proxy.Relay.ProxyResponse: likewise.
- Proxy.Relay.HandleRequest: the exits before the pumps start (`internal/proxy/proxy.go:52-84`) only return an error and are not modelled.
- HealthCheck.Checker.CheckAll: as a method its checks run one after the other; interleaved checks are covered by the step system.
- WorkerLifecycle.Worker.Shutdown: as a method it lets others move at its select only; steps of others between its other statements are covered by the step system.
- HealthCheck.ReadyMeansServingIff: one probe is observed; probes only read, so other probes at the same time change nothing for it.
- Histogram.AggregateIsTotal: sums are mathematical reals, so the rounding of `float64` and its NaN are not modelled; bounds are finite or `+Inf`, and `-Inf` is not modelled.
- HealthCheck.SenderBlocksForever: because of it, no termination of the checker after cancellation is claimed.
- Collector.EmissionSucceedsIff, Histogram.EmissionSucceedsIff: the client library panics on a wrong number of label values; the library is not part of this model, only the number it is given.
- Torn or reordered accesses of unsynchronised variables are not modelled.
- Durations (the 5 s timeouts, the 1 s pause before a restart, ticker intervals): a timer may fire at any time.
- The text of errors and logs, and the wrapping of errors.
- Building the command line and the environment of a worker, signals and `os/exec`.
- gRPC, HTTP, Prometheus and protobuf libraries, and the frame codec, which delegates to protobuf.
- Configuration, logging, `main`, the gRPC server, HTTP serving, the startup and liveness probes: plumbing without state.
- The swap of the metrics map (`internal/metrics/collector.go:49-54`), family types, help texts and descriptions.
