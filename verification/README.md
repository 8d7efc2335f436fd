# Volund: verified models of the gateway's stateful parts

Volund is a gateway that claims warm agent pods for conversations, caches the conversation-to-pod
route in Redis, streams agent output back, and routes LLM calls through fallback chains guarded by
circuit breakers. This project models the parts of it that carry state and proves what they promise
over every run. `dafny verify dfyconfig.toml` checks everything.

| file | what it models |
|---|---|
| `WarmPool.dfy` | the claim/release protocol: any number of gateways, each SQL statement, routing-table call and gauge update one atomic step, all interleavings |
| `ClaimManager.dfy` | the instance repository, the heartbeat syncer and the claim manager as objects; each undisturbed operation is shown to be a run of the protocol |
| `PoolRoutes.dfy` | the protocol over Redis: several gateways with faulty connections to one server, shown to be runs of the protocol |
| `Resp.dfy` | the RESP2 encoding of commands and replies, over bytes |
| `RoutingTable.dfy` | the Redis client with its reconnects, a server, and the two routing tables |
| `CircuitBreaker.dfy` | the breaker, its history specification, cool-down, admission bound and health polling |
| `Router.dfy` | provider registration, fallback chains, the request loop, health polling over whole runs |
| `RequestOverlaps.dfy` | the requests of the router at once, their steps and health reads interleaved |
| `ChatStream.dfy` | the Anthropic stream assembler |
| `Bridge.dfy` | the 512-slot queue that drops when full |
| `Watcher.dfy` | the conversation watcher, alone and fed by the bridge |
| `WatchedPool.dfy` | the watchers of one conversation over the pool |
| `Usage.dfy` | the usage log and its aggregations |
| `Quota.dfy` | quotas and the latched alerts; each SQL statement of a check is one atomic step |
| `Wrappers.dfy` | the option type the others share |

Clocks, the success of each I/O call, provider replies and the rows other transactions hold locked are
inputs. Where the source updates an object in place the model is a class whose methods are proved
against value-level functions (`Step`, `Exchange`, `Absorb`, `After` and so on), and the theorems are
about those functions.

The pool theorems, except `ClaimLastsUntilRelease`, are about *careful* runs: an instance has at most one
`Release` in flight, a `Release` does not go on over a route it failed to delete, and an announcement
names an instance that its conversation has claimed and not released. *Disciplined* runs are careful and
each conversation asks in its own tenant; only the tenant of a routed instance rests on that.
`WarmPool.GuardIsExact` shows that the discipline is exactly what safety needs: a step is disciplined if
and only if no disciplined continuation after it reaches an unsafe state. Four lemmas give a run from a
fresh pool to an unsafe state when one hypothesis is dropped. Over Redis the same discipline is a
condition on what the gateways do and on which of their commands reach the server (`Steady` and
`Orderly` in `PoolRoutes.dfy`); a lost deletion of a route that is still there is what it excludes.

Three properties hold under an exact condition.

- Health polls change no answer of a breaker, overlapping requests included, until a success finds the
  breaker open and leaves another admitted request in flight (`PollsShowExactlyAfterLateSuccess`).
  Serial requests never do that. Operation by operation, the poll shows at a failure that finds the
  breaker open and cooled with too few failures on record to open it (`PollsShowExactlyAtEarlyFailure`).
- Over whole overlapping requests of the router, health reads change a result exactly after a success
  that finds its breaker open while another request waits for the same provider
  (`ReadsShowExactlyAfterLateAnswer`).
- An alert whose marks succeed fires exactly once as long as a check loads the flags only when no other
  check of its tenant is due at a level that it has seen crossed; due means in the loop, before that
  level, with its latch loaded as down. `LoadGuardIsExact` shows that any other load can lead to a second
  firing. Checks of one tenant that do not overlap are always timely.

Where the code and its comments differ, the model follows the code:

- `ClaimInstance` is documented to take the oldest warm instance; its query takes the one with the
  most recent heartbeat (internal/db/agent_repo.go:141-150).
- An empty pool is documented to give no instance and no error; `isNoRows` compares bare text with a
  wrapped error, so it surfaces as an error (internal/db/agent_repo.go:256-271). The model has this
  branch and `ScanErrorIsNeverNoRows` states it.
- The cached path of `EnsureInstance` returns an instance without a pod name
  (internal/gateway/claim.go:53-57); the model's `Hit` has none.
- `alerted_*` columns are described as "this period", but an upsert with a new period keeps them
  (internal/db/quota_repo.go:66-83). `NoAlertInALaterPeriod` states what follows.

## Model

| member | source | states |
|---|---|---|
| `WarmPool.StepKeepsInv` | internal/gateway/claim.go:49-132 | every disciplined step of every operation keeps: active rows are exactly the owned ones, owners are in their row's tenant, routes lead to the owner's instance, one row per pod, and what each operation in flight relies on |
| `WarmPool.StepKeepsCore` | internal/gateway/claim.go:49-132 | every careful step keeps all of that but the tenants, in whatever tenant the conversations ask |
| `WarmPool.GuardIsExact` | internal/gateway/claim.go:49-132 | from a state with the invariant, a step is disciplined if and only if no disciplined continuation after it reaches a state in which a routed instance is not active, not its conversation's or not in its tenant |
| `WarmPool.NoInstanceServesTwoConversations` | internal/gateway/claim.go:49-132 | in every state of every careful interleaving each routed instance is active and owned by its conversation, no two conversations share one, and a pod has one row; in a disciplined one it is also in its conversation's tenant |
| `WarmPool.GaugeCountsActiveRows` | internal/gateway/claim.go:75-107 | in every careful run the gauge equals the active rows, corrected by the operations between row update and gauge update; equal outright between operations, failed releases, expiries and clears included |
| `WarmPool.ClaimLastsUntilRelease` | internal/db/agent_repo.go:227-234 | in any run, disciplined or not, with any number of heartbeats, a claimed row keeps its phase, tenant, pod and claim time until a release updates it |
| `WarmPool.RowTellsItsHistory` | internal/db/agent_repo.go:145-239 | after any run, careful or not, each field of a row is told by the claims, releases and heartbeats of that row: the last heartbeat, the claim still open, the last release, active exactly while claimed, pod, tenant and profile unchanged |
| `WarmPool.LatestBeatIsClaimed` | internal/db/agent_repo.go:145-153 | after a heartbeat later than all others, a claim takes that very pod when it is claimable |
| `WarmPool.ForeignTenantIsUnsafe` | internal/db/agent_repo.go:145-153 | from a fresh pool, asking once in a foreign tenant leads to a route to a pod of that tenant |
| `WarmPool.DoubleReleaseIsUnsafe` | internal/gateway/claim.go:95-113 | from a fresh pool, with two releases of one instance in flight, some run releases the row of its next claim |
| `WarmPool.LostDeleteIsUnsafe` | internal/gateway/claim.go:100-104 | from a fresh pool, a release that goes on after its route deletion failed leaves a route to a warm row |
| `WarmPool.ForeignAnnouncementIsUnsafe` | internal/gateway/ws.go:221-238 | from a fresh pool, an announcement after a pool dispatch routes a conversation to a warm instance it never claimed |
| `ClaimManagers.AgentRepo.ClaimInstance` | internal/db/agent_repo.go:143-165 | claims exactly when an unlocked warm row of tenant and profile exists, takes one with the latest heartbeat, makes it active with its claim time and changes that row only |
| `ClaimManagers.AgentRepo.Freshest` | internal/db/agent_repo.go:148-152 | of the candidate rows, one whose heartbeat is at least that of every other |
| `ClaimManagers.AgentRepo.ReleaseInstance` | internal/db/agent_repo.go:167-174 | the row becomes warm with its release time set and its claim time cleared, its heartbeat and pod as before; an unknown id or a failed statement changes nothing |
| `ClaimManagers.AgentRepo.GetInstanceByPodName` | internal/db/agent_repo.go:213-220 | an id only of a row with that pod name; none only if the database failed or no row has it |
| `ClaimManagers.AgentRepo.UpsertInstanceByPodName` | internal/db/agent_repo.go:225-239 | a row with the pod name gets its heartbeat time set, stays active if it was and is warm otherwise, and keeps every other field; with none, one warm row is added; a failure changes nothing |
| `ClaimManagers.InstanceSyncer.HandleHeartbeat` | internal/gateway/instance_syncer.go:49-90 | an incomplete message changes nothing; any other is one Heartbeat step of the protocol in whatever state, after which the row of the pod has the time of the message and is active only if it was |
| `ClaimManagers.ScanErrorIsNeverNoRows` | internal/db/agent_repo.go:256-271 | no error of a row scan is recognised as "no rows" |
| `ClaimManagers.ClaimManager.EnsureInstance` | internal/gateway/claim.go:49-91 | the new state is that of a run of protocol steps, disciplined when the tenant is the conversation's; a hit, a claim and a failure are told apart exactly, and only a claim changes anything |
| `ClaimManagers.ClaimManager.Release` | internal/gateway/claim.go:95-113 | likewise a run, disciplined when the route deletion succeeds; a missing route is a no-op, a failed row update keeps row and gauge but not the route |
| `ClaimManagers.ClaimManager.ActiveInstance` | internal/gateway/claim.go:117-119 | the cached route, or none when the table does not answer |
| `ClaimManagers.ClaimManager.SetActiveInstance` | internal/gateway/claim.go:123-125 | the last step of an announcement: the route is set, no row or gauge is touched |
| `ClaimManagers.ClaimManager.ClearActiveInstance` | internal/gateway/claim.go:130-132 | a Clear step: the route goes, the row stays claimed |
| `PoolRoutes.LookupIsAnswered` | internal/gateway/routing.go:144-151 | under every fault a lookup gives the live route of its conversation or nothing, and the connection stays in step |
| `PoolRoutes.SetIsAnswered` | internal/gateway/routing.go:153-161 | under every fault a set changes the live entries exactly when the command reaches the server, and then by the new route |
| `PoolRoutes.DropIsAnswered` | internal/gateway/routing.go:163-167 | under every fault a delete changes the live entries exactly when the command reaches the server, and then by the old route |
| `PoolRoutes.EventIsRun` | internal/gateway/routing.go:88-167 | every routing call, under every fault, is one protocol step with the answer it had, or none for a clear that does not reach the server, every other step is itself, and every wait is a series of expiries; the event is steady exactly when the steps are careful and orderly exactly when they are disciplined |
| `PoolRoutes.FaultGuardIsExact` | internal/gateway/claim.go:95-125 | from a state with the invariant, a gateway's call with the faults it meets is orderly if and only if no disciplined continuation after it reaches an unsafe state |
| `PoolRoutes.SystemRunsAreProtocolRuns` | internal/gateway/claim.go:49-132 | every run of any number of gateways over one Redis server, with every pattern of faults and waits, is one run of the protocol, made of the steps of its events, whose routes are the live entries; it is careful exactly when the events are steady and disciplined exactly when they are orderly |
| `PoolRoutes.RedisEntriesAreSafe` | internal/gateway/claim.go:49-132 | at the end of every steady run every live entry of Redis leads to an active instance of its conversation, and of every orderly run to one in its tenant, whatever else fails |
| `PoolRoutes.RedisGaugeCountsActiveRows` | internal/gateway/claim.go:75-107 | in every steady run of the gateways over Redis the gauge equals the active rows, corrected by the operations between their two updates |
| `Resp.DecimalRoundTrip` | internal/gateway/routing.go:97-99 | parsing a printed length gives the length |
| `Resp.SignedRoundTrip` | internal/gateway/routing.go:126-132 | parsing a printed integer of either sign gives it back, and it fits on a line |
| `Resp.BuildCommand` | internal/gateway/routing.go:95-100 | the buffer loop produces the RESP array of the arguments |
| `Resp.CommandRoundTrip` | internal/gateway/routing_test.go:170-200 | for every list of byte strings and every suffix, decoding the encoded command gives back the list and the suffix |
| `Resp.CommandsArePrefixFree` | internal/gateway/routing.go:95-100 | equal byte streams that begin with commands begin with the same command: injective and prefix-free |
| `Resp.ReplyRoundTrip` | internal/gateway/routing.go:109-141 | reading any well-formed reply gives its meaning and leaves exactly the items of an array unread |
| `Resp.RepliesByTheirBytes` | internal/gateway/routing.go:117-141 | each kind of reply written out in bytes, whatever follows it, gives its value, error or nil and consumes exactly its own bytes |
| `RoutingTables.ServeExecutes` | internal/gateway/routing_test.go:170-200 | the server executes exactly the arguments the client encoded |
| `RoutingTables.ExchangeStaysInStep` | internal/gateway/routing.go:88-142 | whatever fails, no unread byte survives on a connection that is used again, and the outcome is an I/O error or the meaning of this command's reply |
| `RoutingTables.ExchangeUnderFaults` | internal/gateway/routing.go:88-142 | exactly what each fault does: a failed dial leaves no connection; a closed connection, a failed write and a failed read of a line or payload fail the command and replace the connection, or keep the closed one if the redial fails; otherwise the caller gets the reply |
| `RoutingTables.RequestsAndRepliesPair` | internal/gateway/routing.go:59-142 | after every series of commands with arbitrary dial, write and read failures, a value returned is the reply to the command just sent |
| `RoutingTables.StepLostExactlyByArrays` | internal/gateway/routing.go:121-141 | without faults the connection stays in step if and only if the reply is not an array with items |
| `RoutingTables.ArrayAnswersNextCommand` | internal/gateway/routing.go:139-140 | after an array reply the next command is answered with the array's first item |
| `RoutingTables.RedisRoutingTable.DoLocked` | internal/gateway/routing.go:88-142 | connection, outcome and server store are those of one exchange, for every fault |
| `RoutingTables.RedisRoutingTable.ReadOff` | internal/gateway/routing.go:109-141 | the reply parser and its reconnects compute one read of the inbound bytes |
| `RoutingTables.RedisRoutingTable.Get` | internal/gateway/routing.go:144-151 | under any fault the live route or nothing, the store unchanged and no unread reply left; without faults the live route, and the connection stays usable |
| `RoutingTables.RedisRoutingTable.Set` | internal/gateway/routing.go:153-161 | under any fault the store is unchanged or has the entry with its expiry; without faults it has it, and the connection stays usable |
| `RoutingTables.RedisRoutingTable.Delete` | internal/gateway/routing.go:163-167 | under any fault the store is unchanged or lacks the entry; without faults it lacks it, and the connection stays usable |
| `RoutingTables.RedisRoutingTable.Close` | internal/gateway/routing.go:169-176 | no connection is left, so the next command dials |
| `RoutingTables.KeyIsInjective` | internal/gateway/routing.go:77-79 | different conversations have different keys |
| `RoutingTables.CommandsByTheirBytes` | internal/gateway/routing.go:95-165 | GET, SET and DEL byte by byte: the "rt:" key, the instance, and an expiry of 2100 seconds when none is given |
| `RoutingTables.MemoryRoutingTable.Set` | internal/gateway/routing.go:198-202 | exactly this entry is set; the time to live is ignored |
| `RoutingTables.MemoryRoutingTable.Delete` | internal/gateway/routing.go:204-208 | exactly this entry is removed |
| `RoutingTables.StoreTracksMemory` | internal/gateway/routing.go:144-208 | after the same calls both tables hold the same conversations and instances, in Redis with the expiry of the last write |
| `RoutingTables.TablesAgreeWithinTTL` | internal/gateway/routing.go:144-208 | after every history of default-TTL calls the Redis store answers as the in-memory table for entries last set within the TTL, and nothing for the others |
| `RoutingTables.RouteLivesForItsTTL` | internal/gateway/routing.go:153-161 | a route is there for its time to live in whole seconds, 35 minutes by default, and then gone; no other route changes |
| `RoutingTables.Replay` | internal/gateway/routing.go:144-208 | the two table objects, given any sequence of Get, Set and Delete calls without I/O fault, give the same answers up to the TTL |
| `CircuitBreakers.CircuitBreaker.Allow` | internal/llm/circuit.go:40-59 | answer and new state, tied to the value-level step |
| `CircuitBreakers.CircuitBreaker.RecordSuccess` | internal/llm/circuit.go:62-73 | new state, tied to the value-level step |
| `CircuitBreakers.CircuitBreaker.RecordFailure` | internal/llm/circuit.go:76-87 | new state, tied to the value-level step |
| `CircuitBreakers.CircuitBreaker.State` | internal/llm/circuit.go:90-98 | answer and new state, tied to the value-level step |
| `CircuitBreakers.BreakerRefinesHistory` | internal/llm/circuit.go:40-98 | over every operation sequence: failures is the trailing failure run, lastFailure the last failure's time, closed means fewer failures than the threshold, open means no successes, half-open means the success streak of this phase, below its threshold |
| `CircuitBreakers.ClosesExactlyAtThreshold` | internal/llm/circuit.go:62-73 | a breaker that is not closed closes if and only if a success completes the streak of its half-open phase |
| `CircuitBreakers.TransitionsAreExact` | internal/llm/circuit.go:44-98 | in every history a closed breaker opens exactly when a failure run reaches the threshold, and an open one changes exactly when it is asked or polled after the cool-down, to half-open |
| `CircuitBreakers.ClosedWithoutFailureRun` | internal/llm/circuit.go:40-98 | a breaker whose results never held threshold failures in a row reports closed |
| `CircuitBreakers.RefusedDuringCoolDown` | internal/llm/circuit.go:44-87 | a log ending in threshold failures refuses every request before the cool-down is over |
| `CircuitBreakers.RefusalHasRecentFailure` | internal/llm/circuit.go:44-54 | every refusal has a recorded failure less than the cool-down ago |
| `CircuitBreakers.RecoversAfterCoolDown` | internal/llm/circuit.go:44-73 | from any reachable breaker past its cool-down, success-threshold many successful requests are all admitted and close it |
| `CircuitBreakers.HealthPollingIsHarmless` | internal/llm/circuit.go:47-98 | from any breaker, deleting every poll from a serial run, those during a request included, changes no answer of Allow |
| `CircuitBreakers.PollsChangeNothing` | internal/llm/circuit.go:40-98 | polls change no answer of any sequence of operations in which, without them, no failure finds the breaker open and cooled with too few failures on record to open it |
| `CircuitBreakers.PollsShowExactlyAtEarlyFailure` | internal/llm/circuit.go:40-98 | from any breaker, after any sequence without such a failure, some placement of polls changes an answer up to the request after the next operation if and only if that operation is such a failure |
| `CircuitBreakers.PollsHideInOverlaps` | internal/llm/circuit.go:40-98 | from any breaker with nothing in flight, polls change no answer of overlapping requests unless a success finds the breaker open and leaves another request in flight |
| `CircuitBreakers.PollsShowExactlyAfterLateSuccess` | internal/llm/circuit.go:40-98 | after any run of overlapping requests without a late success, the next operation lets some placement of polls change some later answer if and only if it is a success that finds the breaker open and leaves another admitted request in flight, and the failure threshold exceeds one |
| `CircuitBreakers.OverlapMakesPollingVisible` | internal/llm/circuit.go:30-98 | with the program's settings, seven overlapping requests and one late success: a poll before the last failure decides whether the next request is admitted |
| `CircuitBreakers.FailingProviderIsRarelyCalled` | internal/llm/circuit.go:40-87 | a provider that always fails, called serially, is admitted at most failureThreshold + floor(W / openDuration) times in any window of length W |
| `Routers.Router.Register` | internal/llm/router.go:32-40 | one provider and one fresh breaker under its name; the first becomes the default; providers and circuits keep the same keys |
| `Routers.Router.SetFallbackChain` | internal/llm/router.go:45-49 | exactly this chain is replaced |
| `Routers.Router.GetWithFallbacks` | internal/llm/router.go:68-93 | the first entry is the provider asked for, or the default for an empty name; the others are exactly the registered names of its fallback list, in the order of the list; the two errors are told apart; every entry has a breaker |
| `Routers.RegisteredIsInOrder` | internal/llm/router.go:83-91 | for every fallback list, skipping the unregistered names keeps the others once each and in order, by a strictly increasing index map that misses no registered name |
| `Routers.Router.TryChain` | internal/llm/router.go:108-133 | the loop returns the reply of the first entry that is admitted and succeeds, or the last loss, and leaves the breakers as after the entries tried |
| `Routers.Router.Chat` | internal/llm/router.go:102-134 | the same for a request by provider name, with the two lookup errors changing nothing; health reads of other goroutines may fall anywhere in the loop |
| `Routers.OneResultPerAdmittedAttempt` | internal/llm/router.go:109-131 | for chains with repeats, each breaker ends where its own calls take it: one result per admitted attempt, none per refused one, nothing but health reads for an untried provider |
| `Routers.FailsExactlyWhenNothingWins` | internal/llm/router.go:109-133 | a request fails if and only if no entry is admitted and succeeds |
| `Routers.RequestEndsAtFirstWin` | internal/llm/router.go:108-133 | the reply is that of the first entry that is admitted and succeeds, and no later entry is tried |
| `Routers.RequestEndsInLastError` | internal/llm/router.go:108-133 | with no winning entry every entry is tried, and the error is that of the last one: the provider's if it was called, circuit-open with its name if it was refused |
| `Routers.Router.ProviderHealth` | internal/llm/router.go:266-274 | polls every breaker once, as a series of single reads, and reports the states it leaves |
| `Routers.ProviderHealthIsHarmless` | internal/llm/router.go:266-274 | over every serial run of the router, health reads between requests, between attempts and while a provider is called change the result of no request |
| `RequestOverlaps.OverlappingRequestsAreUnaffected` | internal/llm/router.go:102-134 | over every run of overlapping requests from any breakers, health reads change neither result nor progress of any request, unless without them a success finds its breaker open while another request waits for the same provider |
| `RequestOverlaps.ReadsShowExactlyAfterLateAnswer` | internal/llm/router.go:102-134 | from a settled world, a step lets health reads change a result in what follows if and only if it is a success that finds its breaker open while another request waits for the same provider, and the failure threshold exceeds one |
| `RequestOverlaps.LoneRequestEndsAsTheLoop` | internal/llm/router.go:102-134 | in any world, a request whose steps nothing but health reads fall between ends with the reply and leaves the breakers that the loop gives |
| `ChatStreams.ChatStream.Recv` | internal/llm/anthropic/provider.go:95-167 | returns the next assembled chunk, or the end or error once none is left; then the end forever |
| `ChatStreams.ChatStream.Drain` | internal/llm/anthropic/provider.go:95-167 | repeated Recv terminates and returns every chunk in order |
| `ChatStreams.AssemblyFollowsBlocks` | internal/llm/anthropic/provider.go:113-165 | for every stream the chunks are what each event emits given the history of its own block alone |
| `ChatStreams.WellFormedStreamsAssemble` | internal/llm/anthropic/provider.go:113-165 | for every well-formed interleaving the chunks are, in the order of the events: each non-empty text delta, one tool call per stopped block with a fragment, with its id, name and fragments in order, and the final chunk |
| `ChatStreams.FinalChunkIsItsEvents` | internal/llm/anthropic/provider.go:148-158 | in every stream a message delta gives at most a final chunk with its own count and reason: "tool_use" and "max_tokens" are passed on, every other reason is "end_turn" |
| `ChatStreams.Int32Wraps` | internal/llm/anthropic/provider.go:148-158 | the count is converted with wrap-around and every count that fits is kept |
| `Bridges.Bridge.Deliver` | internal/dispatch/bridge.go:45-56 | a parsed event goes to the end of the queue, or is dropped exactly when 512 wait; an unparsed one is ignored |
| `Bridges.Bridge.Receive` | internal/dispatch/bridge.go:43-60 | the oldest waiting event |
| `Bridges.DeliveryIsInOrder` | internal/dispatch/bridge.go:43-56 | under every schedule, what is delivered is an in-order subsequence of what was parsed |
| `Bridges.LosslessExactlyWithinCapacity` | internal/dispatch/bridge.go:43-56 | nothing is lost if and only if the backlog never exceeds 512 |
| `Watchers.WatchConvStream` | internal/gateway/ws.go:198-291 | the loop computes the fold of the signals and stops at the first that ends it |
| `Watchers.TextIsConserved` | internal/gateway/ws.go:205-276 | at every point persisted plus pending text is the received text in order, minus what a later agent_start drops; after agent_end nothing is pending |
| `Watchers.EffectsAreInOrder` | internal/gateway/ws.go:209-289 | no empty message; one release exactly when the agent ended and claims are managed, the route cleared right after it; a timeout clears without releasing; the task completes exactly when the agent ended, after every failure |
| `Watchers.AnnouncementSetsRoute` | internal/gateway/ws.go:221-245 | after every running prefix, an agent_start with a pod name that the database knows appends the route to that instance and then, with a task, the running mark on it; any other agent_start appends neither |
| `Watchers.FatalErrorFailsTask` | internal/gateway/ws.go:278-287 | after every running prefix, a fatal error with a task and a database appends one failure with its text, or its message if the text is empty; any other error appends nothing |
| `Watchers.OtherSignalsTrackNothing` | internal/gateway/ws.go:209-291 | no other signal sets the route, marks the task as running or fails it |
| `Watchers.RoutesAreAnnounced` | internal/gateway/ws.go:221-245 | in every log each route set and each running mark comes from an announcement whose lookup gave that instance |
| `Watchers.EndingsAreTold` | internal/gateway/ws.go:209-276 | after every running prefix, agent_end alone finishes the loop, the safety timer alone times it out, and cancellation or a closed channel alone stops it |
| `Watchers.MessagesNameTheirAgent` | internal/gateway/ws.go:221-261 | after every stream, a turn or agent end persists exactly the pending text under the agent announced last |
| `Watchers.StoredExactlyWhenInsertsSucceed` | internal/gateway/ws.go:250-316 | after the agent ended the stored text is the kept text if and only if every insert succeeded |
| `Watchers.WholeTextIsStored` | internal/gateway/ws.go:216-276 | through the bridge, within its capacity, an agent's whole text is stored |
| `WatchedPool.BothWatchersRelease` | internal/gateway/server.go:353-357 | two watchers of one stream, the second joining at any point before its end, both release the conversation's instance |
| `WatchedPool.TwoWatchersAreUnsafe` | internal/gateway/ws.go:269-275 | wherever the conversation is routed, if both look up the route before either deletes it, a disciplined continuation reaches an unsafe state |
| `WatchedPool.OneWatcherIsSafe` | internal/gateway/ws.go:269-275 | a watcher's release that finds no other release of the instance is disciplined, and no disciplined continuation goes wrong |
| `Usage.UsageRepo.Record` | internal/db/usage_repo.go:42-51 | appends the event exactly when the database answers and both counts and their sum fit 32 bits, or fails and changes nothing |
| `Usage.UsageRepo.SummaryByTenant` | internal/db/usage_repo.go:54-67 | the sums over the tenant's events of the half-open period |
| `Usage.UsageRepo.BreakdownByModel` | internal/db/usage_repo.go:81-106 | one row per model that occurs, with its own sums, by tokens descending, and the rows add up to the summary of the same query |
| `Usage.GroupByModel` | internal/db/usage_repo.go:83-89 | distinct models, each with its own sums, no model missing, by tokens descending |
| `Usage.BreakdownAddsUpToSummary` | internal/db/usage_repo.go:54-106 | for every log, any breakdown adds up column by column to the summary |
| `Usage.TokensAreInputPlusOutput` | internal/db/migrations/007_usage_events.up.sql:11 | total tokens are input plus output, and the count is the number of events |
| `Usage.ColumnsAreSums` | internal/db/usage_repo.go:58-59 | each column of the totals is the sum of its own column of the events, missing costs ignored |
| `Usage.SelectsExactlyTheMatches` | internal/db/usage_repo.go:60-61 | a query selects each event with its tenant, at or after `from` and before `to`, as often as it occurs, and no other |
| `Usage.OtherEventsDoNotCount` | internal/db/usage_repo.go:60-61 | an event of another tenant, before the period, at its end or after it leaves the summary unchanged |
| `Usage.OwnEventsCount` | internal/db/usage_repo.go:58-61 | an event of the tenant in the period adds its own tokens, its cost if it has one, and one to the count |
| `Usage.EmptySummary` | internal/db/usage_repo.go:58-59 | over no events every column is zero, not null |
| `Usage.AdjacentPeriodsAddUp` | internal/db/usage_repo.go:54-67 | summaries over adjacent half-open periods add up to the one over their union |
| `Quota.CrossedExactlyWhenReached` | internal/db/quota_repo.go:131-142 | a level is crossed if and only if a positive limit is used up to that share |
| `Quota.ExceededExactlyAtHundred` | internal/db/quota_repo.go:131-142 | exceeded if and only if the highest percentage is at least 100, if and only if a positive limit is used up |
| `Quota.StatusShowsUsage` | internal/db/quota_repo.go:117-142 | the status carries the used tokens and cost, and each percentage is the used share of its own limit, zero without one |
| `Quota.QuotaRepo.Upsert` | internal/db/quota_repo.go:66-83 | one Upsert step: a new row has its latches down, an existing one keeps them |
| `Quota.QuotaRepo.MarkAlerted` | internal/db/quota_repo.go:86-102 | raises exactly the latch of the threshold, the other two latches and the limits as before; unknown thresholds and failures change nothing |
| `Quota.QuotaRepo.CheckQuota` | internal/db/quota_repo.go:106-145 | no quota, an error or the status, exactly as the stores answer; the status shows the tenant's usage in its period and is exceeded if and only if a positive limit is used up |
| `Quota.QuotaEnforcer.CheckAndAlert` | internal/usage/quota.go:34-83 | an undisturbed check does the steps of the state machine, whatever fails; each alert carries the tenant, webhook and status of the check and a level that it has reached, and exactly those with a webhook are posted |
| `Quota.QuotaEnforcer.IsBlocked` | internal/usage/quota.go:87-96 | blocked if and only if the reads succeed, the action is block and a positive limit is used up |
| `Quota.FiringsAreAccountedFor` | internal/usage/quota.go:65-80 | over every run, overlapping checks included: firings = failed marks + marks of latches already up + latches raised |
| `Quota.SerialChecksNeverRepeat` | internal/usage/quota.go:50-63 | while checks of one tenant do not overlap, no firing finds its latch up, however records, upserts and other tenants interleave |
| `Quota.AlertsAreLatched` | internal/usage/quota.go:34-83 | over every run, overlapping checks included, a level fires if and only if some check saw it crossed; its firings are failed marks, repeats and the one that raised the latch; the latch is up only if seen, and then unless a mark failed |
| `Quota.LoadGuardIsExact` | internal/usage/quota.go:49-63 | from a state in which no alert is due twice, a step is timely if and only if no timely continuation in which marks succeed fires an alert again; timely means that a check loads the flags only when no other check of its tenant is due at a level that it has seen crossed |
| `Quota.TimelyChecksNeverRepeat` | internal/usage/quota.go:49-80 | while every load is timely no firing finds its latch up, whatever marks fail |
| `Quota.TimelyAlertsFireOnce` | internal/usage/quota.go:34-83 | while loads are timely and marks succeed, each alert fires exactly once if some check saw its level crossed, and never otherwise |
| `Quota.SerialAlertsFireOnce` | internal/usage/quota.go:34-83 | while checks of one tenant do not overlap and marks succeed, each alert fires exactly once if some check saw its level crossed, and never otherwise |
| `Quota.LatchesAreDownwardClosed` | internal/usage/quota.go:56-80 | in every run a latch implies the lower latches, except where a mark of the lower one failed |
| `Quota.NoAlertInALaterPeriod` | internal/db/quota_repo.go:66-83 | a level whose latch is up never fires again from a check that loads later, whatever limits and period upserts set |
| `Quota.FiresCountsAlerts` | internal/usage/quota.go:66-75 | the firings counted are the alerts sent |
| `Quota.OverlappingChecksFireTwice` | internal/usage/quota.go:49-80 | for every level, two checks that both load the flags before either decides send it twice if its share is reached and its latch is down, and not at all otherwise, whatever marks succeed |
| `Quota.RunsCompose` | internal/usage/quota.go:34-83 | one run after another is a run, with their alerts in order |
| `Quota.SpendingKeepsReached` | internal/db/quota_repo.go:117-142 | further non-negative usage never takes a tenant back below a level |

## Left out

- HTTP handlers, JSON shaping, middleware, gRPC wiring, configuration, migrations, telemetry and deployment files: plumbing without a hard property.
- PostgreSQL, NATS, Redis and TCP internals: each is an atomic step or an input that may fail.
- JWT, bcrypt, AES-GCM, OIDC and OAuth exchanges: they rest on libraries outside the repository.
- The OpenAI and Ollama adapters, memory similarity search and decay scoring, slug and file-name helpers, scope and skill enablement.
- `StreamChat`, `Embed`, `Respond`, `StreamRespond` and `ListModels`: the first two run Chat's loop with another reply type, so the reply payload is a string here; the others are conversions around it.
- `CreateInstance`, `SetPod` and the `Heartbeat` statement of the instance table: not part of the gateway's claim protocol.
- Gateway crashes in the middle of an operation, and eventual release of every claimed pod, which the code does not provide (the watcher's timeout drops the route and keeps the claim).
- Task-row status over time: the watcher's effects are logged, and a failed task whose agent ends is completed last.
- Identifiers in the pool and quota models are numbers, because they are only compared.
- Conversation identifiers and instance identifiers that are empty strings: the routing tables give them no special meaning beyond reading as no route.
- The 64-bit range of parsed and printed integers in RESP, and negative or fractional-second time-to-live values; the gateway passes only the default.
- Floating-point rounding of costs and percentages, and rounding to the scale of the NUMERIC columns: both are exact reals here.
- Webhook delivery over HTTP: an alert is posted or not, and its delivery is not followed.
- SummaryByConversation and the remaining queries of the usage repository.
