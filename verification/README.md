# Proofs about the multi-tenant messaging system

A Dafny model of three parts of the system, with proofs of what they keep over every interleaving,
every run and every input.

**Consumers and their worker pools.** `WorkerPool` is the token channel of one consumer as a step
machine: the consumer loop, the worker goroutines and `UpdateConcurrency` take their steps in any
order, one select at a time, and `break` leaves only the select; `PoolUpdates` is one update on its own.
`TenantRegistry` is the manager around the pools: start, delete, resize and stop-all under the mutex, while every consumer ever started goes
on. `TenantManager` has the same operations as methods of classes that are updated in place, each proved
to be a run of those machines, with the steps of other goroutines in between given by a schedule.

**Messages.** `MessageLifecycle` is the whole system as a step machine: publication, the queues, the
consumer loops, worker goroutines statement by statement, delayed requeues, the tables, and the
updates of the pools. What the broker makes of integer headers is a parameter. `LifecycleInvariant` and
`LifecycleSteps` hold the invariant and its preservation, `LifecycleTheorems` what it gives,
`LifecycleHeaders` what headers a message keeps, `LifecyclePools` the refinement to the token machine,
`LifecycleTermination` the measure and the end of every message, `DeadLetterReach` when a dead letter is reachable and when retrying ends. `MessageServices` has `Publish`,
`processMessage` and their helpers as methods on tables and header maps that are updated in place.
`Deliveries` holds headers and queue names, `Partitions` the partition names, `Sums` counting.

**Generated models.** `CacheKeys` builds the cache keys and proves them uniquely decodable over each
table's columns. `QueryCaches` is a cache that calls read and write under separate lock sections,
`TableQueries` its use by `Insert`, `Update` and `Upsert`, `UpsertText` the reading back of upsert statements.
`Relationships` is eager loading from both sides and the methods that set a link, on objects updated in place; `Joins` is the join on sequences.

Some promises hold only under a condition, and the exact condition is proved:

- A consumer keeps at least one token for every request between 1 and n if and only if n is at most the
  worker count it was started with (`StarvationExactly`).
- What a resize that nothing interrupts leaves is known exactly from any state (`UpdateLeavesExactly`). Where T is
  the worker count it always reaches a larger size if and only if the channel has room for the difference,
  and can with one more if the loop may be parked before an empty channel; it always reaches a smaller size if
  and only if the difference lies in the channel, and can with the senders parked before a full one
  (`UpdateReachesSizeExactly`).
- Requests between lo and hi keep the running workers within the worker count if and only if none can ever
  shrink the pool (`ConcurrencyBoundExactly`). Shrinking and growing a busy pool by one, again and again,
  raises the concurrency past any limit (`BusyShrinkUnbounded`). Between updates T is within the worker count if and only if
  no more removals than adds were dropped (`TotalBoundedExactly`).
- `StartConsumer` keeps the registry sound if and only if the tenant has no consumer yet; otherwise the
  old consumer can never be stopped again (`StartKeepsInvExactly`, `OrphanForever`).
- A dead letter is reachable if and only if some attempt reads a retry count of at least three
  (`DeadLettersExactly`), so never when integer headers come back under a type other than `int`.
- Retrying ends if and only if some attempt reads a retry count of at least three (`RetryingEndsExactly`). When
  integer headers come back under a type other than `int`, a message that keeps failing is retried for ever.
- A query cache agrees with building each query anew if and only if equal keys mean equal queries
  (`AgreesExactly`). For Insert and Update on a table's columns that always holds. The key of Upsert leaves
  its options out, so there it holds if and only if no two calls differ in the text of their options
  alone (`UpsertAgreesExactly`).
- Setting a link keeps both sides in step if and only if the row was free or linked to the same tenant
  (`LinkKeepsStepExactly`, `JoinKeepsStepExactly`).

Where code and comments disagree the model follows the code: the delay called exponential backoff is the
square of the retry count (line 484), the branch in which the pool is full "shouldn't happen" but does
(lines 192-195), and `StopAllConsumers` closes a channel whose loop does not listen, which is never one
that is closed already (lines 228-234).

## Model

| member | source | states |
|---|---|---|
| WorkerPool.AccountingStep | internal/services/tenant_manager.go:185-212 | every step of loop, worker or updater leaves tokens minus aimed-at size alone, but for one down per dropped add and one up per dropped removal; the channel is never overfilled |
| WorkerPool.Accounting | internal/services/tenant_manager.go:185-212 | the same over any run from any state |
| WorkerPool.TokensAccounted | internal/services/tenant_manager.go:185-212 | T is the worker count (mid-update the pending part counted in) minus dropped adds plus dropped removals, for any integer requests and any interleaving; tokens in the channel stay within the capacity |
| WorkerPool.TotalBoundedExactly | internal/services/tenant_manager.go:185-212 | between updates T is within the worker count if and only if no more removals than adds were dropped, and equal to it if and only if as many were |
| WorkerPool.HandOverIsSendAndReceive | internal/services/tenant_manager.go:319-326 | on a buffered channel a direct hand-over between two goroutines amounts to a send and a receive |
| WorkerPool.NoStarvation | internal/services/tenant_manager.go:187-212 | with requests between 1 and the capacity, T is at least the worker count between updates and at least one always |
| WorkerPool.WaitingLoopServed | internal/services/tenant_manager.go:317-326 | a loop that waits for a token has a schedule of at most two steps, of a worker and itself, that serves it |
| WorkerPool.EveryScheduleServes | internal/services/tenant_manager.go:317-326 | outside the steps of updates every schedule serves it: while it waits a step is enabled, and at most 2 * working + returning steps pass before it has its token |
| WorkerPool.ConcurrencyBound | internal/services/tenant_manager.go:198-212 | without a dropped removal, workers that own a token never exceed the worker count between updates |
| WorkerPool.ConcurrencyBoundExactly | internal/services/tenant_manager.go:185-212 | requests between lo and hi always keep the workers that own a token within the worker count between updates if and only if the initial count is at most lo and lo = hi, so that no request can shrink the pool |
| WorkerPool.Exactness | internal/services/tenant_manager.go:187-212 | if also every request is within the capacity, no add is dropped, T is the worker count between updates, and a worker that returns its token never blocks |
| WorkerPool.OversizedRequestStarves | internal/services/tenant_manager.go:187-208 | growing an idle pool past its capacity and shrinking it to one leaves worker count 1 and no token |
| WorkerPool.StarvationExactly | internal/services/tenant_manager.go:187-212 | requests between 1 and n can never empty the pool if and only if n is at most the initial worker count |
| WorkerPool.BusyShrinkUnbounded | internal/services/tenant_manager.go:198-208 | shrinking and growing a busy pool by one, within the capacity, raises the running workers past any number |
| PoolUpdates.UpdateLeavesExactly | internal/services/tenant_manager.go:185-212 | from any state between updates, an update that nothing interrupts can leave t tokens if and only if t lies between two bounds given by the channel, by a loop that may be parked before an empty channel, and by senders that may be parked before a full one |
| PoolUpdates.UpdateReachesSizeExactly | internal/services/tenant_manager.go:185-212 | the exact conditions for some uninterrupted update, and for every one, to leave the requested number of tokens, from any state; spelled out where T is the worker count |
| WorkerPool.QuiescenceAfterStop | internal/services/tenant_manager.go:294-329 | after the loop has returned, the workers' steps are bounded, and when none is left exactly max(0, T - capacity) goroutines are stuck returning a token |
| TenantRegistry.StepKeepsInv | internal/services/tenant_manager.go:112-243 | every operation and every consumer step keeps the registry sound: one close or signal per stopped consumer, none for a registered one, one update at a time |
| TenantRegistry.RunKeepsInv | internal/services/tenant_manager.go:112-243 | the same over any run that starts consumers for unregistered tenants |
| TenantRegistry.StopSafety | internal/services/tenant_manager.go:117-130 | over all runs no stop channel is closed or signalled twice, nothing panics, a registered consumer's channel is open and its loop alive, a removed one has its stop |
| TenantRegistry.StopEnabledForGood | internal/services/tenant_manager.go:294-298 | a closed stop channel can be received from in every later select of the loop |
| TenantRegistry.OneUpdater | internal/services/tenant_manager.go:160-162 | the mutex keeps two consumers from being resized at once |
| TenantRegistry.StartKeepsInvExactly | internal/services/tenant_manager.go:261-309 | starting keeps the registry sound if and only if the tenant has no consumer; otherwise the old one becomes an orphan |
| TenantRegistry.OrphanForever | internal/services/tenant_manager.go:303-306 | no later operation ever stops an orphan |
| TenantRegistry.PoolMoves | internal/services/tenant_manager.go:185-212 | a step of the manager is, for each consumer, one step of its pool or none |
| TenantRegistry.PoolsAreRuns | internal/services/tenant_manager.go:160-332 | every consumer ever started is for the tenant that its start named, and its pool is a run of the token machine from the worker count that this start asked for, so the laws proved there hold of all consumers under all operations |
| TenantRegistry.OneConsumerPerStart | internal/services/tenant_manager.go:288-303 | a run adds exactly one consumer for each start |
| TenantRegistry.ConsumerNeverStarved | internal/services/tenant_manager.go:187-212 | a consumer whose resizes ask for between one worker and as many as it was started with always has a token, whatever the manager does |
| TenantRegistry.RemovedConsumerQuiet | internal/services/tenant_manager.go:294-329 | a removed consumer that has come to rest leaves exactly max(0, T - n) goroutines behind, n being the worker count it was started with |
| TenantManager.TenantConsumer.constructor | internal/services/tenant_manager.go:288-302 | a new consumer's channel is filled to its capacity by the loop of sends |
| TenantManager.TenantConsumer.Step | internal/services/tenant_manager.go:311-331 | each step of the loop or of a worker on the fields is the step of the machine |
| TenantManager.TenantConsumer.TrySend | internal/services/tenant_manager.go:190-196 | one iteration of the adding loop: to a loop parked before an empty channel, else into the channel, else dropped |
| TenantManager.TenantConsumer.TryReceive | internal/services/tenant_manager.go:201-207 | one iteration of the removing loop: from a full channel that a parked sender refills, else from the channel, else dropped |
| TenantManager.UndisturbedResize | internal/services/tenant_manager.go:185-212 | an undisturbed update leaves between the fewest and the most tokens: growing, the most if the loop is parked at every step and the fewest if it never is; shrinking, the fewest if the senders are and the most if they are not |
| TenantManager.TenantConsumer.Iterate | internal/services/tenant_manager.go:185-209 | both loops, with any steps of other goroutines before each iteration, are a run of the token machine, and end where the schedule leads turn by turn |
| TenantManager.TenantConsumer.Resize | internal/services/tenant_manager.go:185-212 | the whole update is such a run with the store at its end; the schedule determines its result, which undisturbed is as `UndisturbedResize` says |
| TenantManager.LiftRun | internal/services/tenant_manager.go:185-209 | a run of one pool during an update is a run of the registry's machine |
| TenantManager.UpdateTraceRun | internal/services/tenant_manager.go:160-218 | lock, pool run, store and unlock make a run of the registry's machine |
| TenantManager.TenantManager.StartConsumer | internal/services/tenant_manager.go:261-309 | registers a new consumer whose capacity, tokens and worker count are the requested number, idle and not stopped, leaving all others; or changes nothing when the broker refuses |
| TenantManager.TenantManager.DeleteTenant | internal/services/tenant_manager.go:112-158 | closes the stop channel once and forgets this consumer only, before the database answers, and reports failure or no rows |
| TenantManager.TenantManager.UpdateConcurrency | internal/services/tenant_manager.go:160-218 | returns early on failure, no rows or no consumer with nothing changed; otherwise is the trace of an update of this consumer, with the result that the schedule of the others determines, undisturbed as `UndisturbedResize` says |
| TenantManager.TenantManager.StopOne | internal/services/tenant_manager.go:226-234 | signals exactly a loop that listens in its select, and closes the channel of any other |
| TenantManager.TenantManager.StopEach | internal/services/tenant_manager.go:226-240 | visits every consumer once, in any order: each listening loop has the signal and has returned, of each other the channel is closed, no other consumer is touched |
| TenantManager.TenantManager.StopAllConsumers | internal/services/tenant_manager.go:220-246 | is a run of the registry's machine that leaves the map empty and the registry sound; a consumer ends with one signal and its loop returned if that listened, and else with one close and its loop as it was |
| LifecycleSteps.StepKeepsInv | internal/services/tenant_manager.go:311-376 | every step of the system keeps conservation, identity, placement and the fit of logs, status, backoff and headers |
| LifecycleSteps.RunKeepsInv | internal/services/tenant_manager.go:311-376 | the same over every run |
| LifecycleTheorems.PublishedExactly | internal/services/message.go:52-63 | the messages that count as published are those that the run's Publish calls handed to the broker and those of before, which it does not publish again |
| LifecycleTheorems.PublishedOnce | internal/services/message.go:52-63 | no message is handed to the broker twice in a run |
| LifecycleTheorems.MessagesConserved | internal/services/tenant_manager.go:311-376 | after any interleaving a published message is in exactly one place exactly once (queue, held, processing, delayed, completed or dead-lettered), and nothing else is anywhere |
| LifecycleTheorems.AttemptsNeverOverlap | internal/services/tenant_manager.go:317-329 | no two holders have the same message |
| LifecycleTheorems.IdentityAndIsolation | internal/services/tenant_manager.go:472-499 | every holder carries the body, id and tenant given to Publish and is that tenant's queue or consumer |
| LifecycleHeaders.StepBears | internal/services/tenant_manager.go:472-499 | every step keeps that each holder carries the headers of its publication, as the broker has handed them back, and beside them only retry headers |
| LifecycleHeaders.HeadersCarried | internal/services/tenant_manager.go:476-481 | over every run each holder carries the body, ids, creation time and schedule given to Publish unchanged, the priority as the broker returns it after as many deliveries as there were, and no other header than the two of a requeue |
| LifecycleHeaders.PriorityKept | internal/services/tenant_manager.go:476-481 | with integer headers intact the priority is the one given to Publish |
| LifecycleHeaders.LostSettled | internal/services/tenant_manager.go:476-481 | where integers come back under another type, the first delivery settles the priority |
| LifecycleHeaders.PublishedStamp | internal/services/message.go:41-50 | what Publish writes: both ids, the priority, the time, and the schedule exactly when it lies ahead |
| LifecycleTheorems.LogTraceShape | internal/services/tenant_manager.go:346-375 | with integer headers intact, the log rows of a message are a prefix of at most three failed attempts and a successful one, or four failed attempts |
| LifecycleTheorems.DeadLetterExact | internal/services/tenant_manager.go:364-369 | with integer headers intact, a dead-lettered message failed exactly four times, its row has the published body and retry count 3, it waited 14 seconds, and it is not completed |
| LifecycleTheorems.DeadLetterIdentity | internal/services/tenant_manager.go:501-508 | whatever the broker does to integers, a dead-letter row carries the published key and body, and its count is the first of its attempts' reads to reach the maximum |
| LifecycleTheorems.BackoffBounded | internal/services/tenant_manager.go:483-484 | with integer headers intact, the total backoff after k requeues is k(k+1)(2k+1)/6 seconds, at most 14 |
| LifecycleTheorems.DeadNeedsThree | internal/services/tenant_manager.go:358-368 | a dead letter takes an attempt that reads the maximum |
| LifecycleTheorems.HeaderDichotomy | internal/services/tenant_manager.go:463-480 | if integers come back under another type, every delivery reads 0, the written header is never above 1, and nothing is dead-lettered |
| LifecycleTheorems.RowsAdvanceOverRun | internal/services/tenant_manager.go:388-398 | a row keeps its payload and only moves from pending to processing to completed, and completed is final |
| LifecycleTheorems.OutcomesAgree | internal/services/tenant_manager.go:364-375 | a completed log row means a completed status, a dead letter one that is not, and no message has both |
| LifecyclePools.StepRefines | internal/services/tenant_manager.go:313-329 | one system step is, for each tenant, one step of its pool or none |
| LifecyclePools.RunRefines | internal/services/tenant_manager.go:313-329 | every run of the system is, for each tenant, a run of its pool |
| LifecyclePools.JobsBounded | internal/services/tenant_manager.go:198-212 | without a dropped removal, the worker goroutines that exist never outnumber the worker count between updates |
| LifecyclePools.TokensSupplied | internal/services/tenant_manager.go:187-212 | with requests between 1 and the capacity no tenant's pool is starved, whatever messages do |
| LifecycleTermination.StepWithin | internal/services/tenant_manager.go:358-368 | without publications no delivery gets further from reading the maximum than k more attempts |
| LifecycleTermination.StepDecreases | internal/services/tenant_manager.go:358-368 | where every delivery is within k attempts of reading the maximum, whatever the broker does to integers, each step on a message lowers a measure and updates leave it alone |
| LifecycleTermination.RunsAreBounded | internal/services/tenant_manager.go:358-368 | under that condition the steps on messages of a run without publications are bounded by the measure |
| LifecycleTermination.KeptWithin | internal/services/tenant_manager.go:463-470 | with integer headers intact every state meets the condition, reached or not |
| LifecycleTermination.ReachedWithin | internal/services/tenant_manager.go:463-480 | if attempt k of a message reads the maximum, every state that a run reaches meets it |
| LifecycleTermination.EveryMessageEnds | internal/services/tenant_manager.go:311-376 | with requests between 1 and the capacity, where no step on a message is left every published message is completed or dead-lettered, exactly once |
| DeadLetterReach.FailTimes | internal/services/tenant_manager.go:352-362 | a message can go on failing, nine steps each time, as long as its attempts read less than the maximum |
| DeadLetterReach.DeadLettersExactly | internal/services/tenant_manager.go:358-368 | a dead letter is reachable if and only if some attempt reads the maximum, whatever the broker does to integers |
| DeadLetterReach.RetryingEndsExactly | internal/services/tenant_manager.go:358-368 | after the last publication the steps on messages are bounded if and only if some attempt reads the maximum, whatever the broker does to integers; otherwise a message can be retried for ever |
| DeadLetterReach.RetryingByType | internal/services/tenant_manager.go:463-470 | so retrying ends when integers come back as `int`, and does not when they come back under another type |
| Deliveries.BackoffKept | internal/services/tenant_manager.go:483-484 | the closed form of the backoff when integers come back intact |
| Deliveries.RetryCountReturns | internal/services/tenant_manager.go:463-480 | the count written on a requeue is the count the next attempt reads if and only if the broker hands it back as an `int` with its value, or it is the zero that every other type reads as |
| Deliveries.QueueNameInverse | internal/services/tenant_manager.go:473 | a queue name determines its tenant |
| MessageServices.AttemptIsRun | internal/services/tenant_manager.go:334-376 | an undisturbed attempt is five steps of the life cycle and amounts to two log rows and a completed row, a requeue or a dead letter |
| MessageServices.Services.Publish | internal/services/message.go:24-64 | fills the headers field by field; fails without effect when the payload cannot be encoded or the row exists, leaves the row when only the broker fails, and else is the machine's Publish: a pending row, and in the tenant's queue the payload with exactly the headers asked for |
| MessageServices.Services.ProcessMessage | internal/services/tenant_manager.go:334-376 | changes tables, queue and header map exactly as an attempt does; a requeued delivery keeps every other header |
| MessageServices.Services.RequeueMessage | internal/services/tenant_manager.go:472-499 | writes the two retry entries into the delivery's own header map, keeps every other entry, and leaves the message with this map delayed by the square of the count |
| MessageServices.Services.RouteFailure | internal/services/tenant_manager.go:352-369 | a failed attempt requeues with the next count below the maximum, and dead-letters from it on |
| Partitions.HyphensRestored | internal/services/tenant_manager.go:249-250 | removing hyphens is injective on texts with hyphens in the same places |
| Partitions.PartitionsDistinct | internal/services/tenant_manager.go:248-256 | tenants with UUIDs have distinct partition names |
| Partitions.PartitionsShared | internal/services/tenant_manager.go:249-250 | two ids of another form that share a partition name |
| CacheKeys.UniquelyDecodable | internal/models/boil_types.go:40-48 | over a prefix-free code the concatenation of a list of any length determines the list |
| CacheKeys.MakeCacheKey | internal/models/boil_types.go:34-52 | the loops write the numeral, the columns and, after a dot, the non-zero defaults |
| CacheKeys.CacheKeyInjective | internal/models/boil_types.go:34-52 | the key determines kind, columns and non-zero defaults in order |
| CacheKeys.MakeUpsertKey | internal/models/tenants.go:1328-1354 | the inline loops write the five sections |
| CacheKeys.UpsertKeyInjective | internal/models/tenants.go:1328-1354 | the key determines all five parts, for lists of any length over a table's columns |
| CacheKeys.TenantCode | internal/models/tenants.go:191 | the columns of tenants start with a letter, hold no dot and make a prefix-free code |
| CacheKeys.MessageCode | internal/models/messages.go:127 | the same for messages |
| CacheKeys.DeadLetterCode | internal/models/dead_letter_messages.go:295 | the same for dead_letter_messages |
| CacheKeys.LogCode | internal/models/message_processing_logs.go:177 | the same for message_processing_logs |
| CacheKeys.ConfigCode | internal/models/tenant_configs.go:164 | the same for tenant_configs |
| CacheKeys.KeysCanClash | internal/models/boil_types.go:40-48 | without a prefix-free code two lists can have one key |
| QueryCaches.RunAgrees | internal/models/tenants.go:1109-1168 | over any interleaving of calls whose keys settle their queries, stored and used entries stay those that building anew gives |
| QueryCaches.AgreesExactly | internal/models/tenants.go:1109-1168 | that holds over all interleavings if and only if equal keys mean equal queries |
| QueryCaches.QueryCache.Lookup | internal/models/tenants.go:1110-1112 | the section under the read lock |
| QueryCaches.QueryCache.Store | internal/models/tenants.go:1164-1168 | the section under the write lock |
| QueryCaches.RunTaken | internal/models/tenants.go:1109-1168 | the events of other calls that a schedule names happen wherever they make a run |
| QueryCaches.QueryCache.Run | internal/models/tenants.go:1107-1168 | a call among other calls, whose whole effect the schedule determines: if the database accepts, it answers with the entry found, or else the query built, which is stored then; if not, it answers none. Among calls whose keys settle their queries the answer is its own query, the cache holds it, and goes on agreeing |
| TableQueries.InsertAgrees | internal/models/tenants.go:1107-1168 | Insert caches over a prefix-free table agree with building anew, whatever building does |
| TableQueries.UpdateAgrees | internal/models/tenants.go:1187-1237 | the same for Update, whose key has no defaults |
| TableQueries.TablesAgree | internal/models/tenants.go:1107-1237 | both for each of the five tables |
| TableQueries.UnknownColumnServed | internal/models/boil_types.go:40-48 | beyond a table's columns agreement fails: an unknown column is served the query of two known ones |
| TableQueries.Insert | internal/models/tenants.go:1107-1168 | key and cache together: an accepted call answers with its own query, which the cache then holds, a refused one with none, and the cache goes on agreeing |
| TableQueries.Update | internal/models/tenants.go:1187-1237 | the same for Update |
| TableQueries.BuildUpsertQuery | internal/models/psql_upsert.go:34-99 | the statement written piece by piece is head, conflict clause and tail, with options replacing target or assignments |
| TableQueries.BuildUpsertEntry | internal/models/tenants.go:1362-1402 | the construction on a cache miss succeeds exactly when the call passes its own checks, and is the query that the cache scheme stands for |
| UpsertText.StatementRead | internal/models/psql_upsert.go:34-99 | round trip: a parser reads the inserted columns, the conflict columns, the action with its columns and the returned columns back from the statement built for them |
| UpsertText.EntryRead | internal/models/tenants.go:1363-1401 | the entry's statement, read back, is what the call asked for, with the primary key where the conflict columns default to it, and its mappings are those of the statement's columns in the same order |
| TableQueries.SameQueryExactly | internal/models/psql_upsert.go:65-98 | calls that differ in options only build the same query exactly when they fail alike or their clauses are the same text |
| TableQueries.UpsertAgreesExactly | internal/models/tenants.go:1328-1432 | Upsert caches agree over all interleavings if and only if no two calls differ in their options' text alone |
| TableQueries.UpsertAgreesWithoutOptions | internal/models/tenants.go:1328-1432 | calls without options agree |
| TableQueries.OptionsClash | internal/models/tenants.go:1328-1357 | a call with a conflict target and the same call without one break agreement |
| TableQueries.AssignmentsClash | internal/models/tenants.go:1328-1357 | so do a call with assignments of its own and the same call without |
| TableQueries.OptionsVerbatim | internal/models/psql_upsert.go:65-90 | options stand in the conflict clause as they are |
| TableQueries.Upsert | internal/models/tenants.go:1309-1435 | the same for Upsert, for calls whose keys settle their queries |
| Relationships.Join | internal/models/tenants.go:642-653 | the nested loops link each row with the first tenant that has its id, and change nothing else |
| Relationships.JoinedLists | internal/models/tenants.go:642-653 | a tenant ends with its old list followed by the rows with its id in result order, a later twin with its old list |
| Relationships.JoinedBacks | internal/models/tenants.go:642-653 | a matched row ends with the first tenant that has its id, an unmatched one is unchanged |
| Relationships.AssignedIsFilter | internal/models/tenants.go:642-653 | what the loops give to a tenant is a plain filter |
| Relationships.JoinIsFilter | internal/models/dead_letter_messages.go:722-733 | from empty lists the pairs linked are those that a filter on the ids selects |
| Relationships.JoinSymmetry | internal/models/dead_letter_messages.go:722-733 | filtering the rows selected by the tenants and filtering all rows by the selected tenants give the same pairs of ids |
| Relationships.LoadersAgree | internal/models/dead_letter_messages.go:722-733 | from empty relations and over the same data, loading from the tenants and loading from the rows link the same pairs of ids, and in both each link has its other side |
| Relationships.LoadersAgreeOnObjects | internal/models/dead_letter_messages.go:722-733 | what the two loaders leave on the objects themselves: the same pairs of ids, and each link with its other side |
| Relationships.LoadBothWays | internal/models/dead_letter_messages.go:646-735 | calling both loaders on unlinked objects over the same data ends so |
| Relationships.LinkKeepsStepExactly | internal/models/dead_letter_messages.go:765-780 | setting a link keeps forward and backward links in step if and only if the row was free or linked to this tenant |
| Relationships.JoinKeepsStepExactly | internal/models/tenants.go:922-933 | the same for many rows, so for the loaders and for AddDeadLetterMessages |
| Relationships.LoadDeadLetterMessages | internal/models/tenants.go:573-655 | new objects for the rows selected by the tenants' ids, joined into the lists that the tenants had |
| Relationships.SelectedComplete | internal/models/tenants.go:599-602 | the selection loses no row of a wanted tenant, repeats none and keeps their order |
| Relationships.LoadedList | internal/models/tenants.go:642-653 | so a tenant's list grows by all rows that the table has for it, in table order |
| Relationships.LoadDeadLetterMessagesOf | internal/models/tenants.go:573-640 | for a single tenant the rows with its id replace its list, each pointing back |
| Relationships.LoadTenant | internal/models/dead_letter_messages.go:646-735 | new objects for the tenants selected by the rows' ids, with the rows joined into empty lists |
| Relationships.LoadTenantOf | internal/models/dead_letter_messages.go:708-720 | for a single row both links to a new tenant, or nothing when there is none |
| Relationships.SetTenant | internal/models/dead_letter_messages.go:741-783 | one link and the row's tenant id, or nothing when the database fails |
| Relationships.StoreRelated | internal/models/tenants.go:890-915 | which rows have the new tenant id when a statement fails: inserting sets it before, updating after |
| Relationships.AddDeadLetterMessages | internal/models/tenants.go:888-935 | appends all rows and points them at the tenant, or leaves all links alone when a statement fails |

## Left out

- Failing database writes other than those named: log rows, status updates and dead-letter rows always succeed in the model; the program ignores their errors, and with them lost neither the trace shape nor the agreement of outcomes holds.
- Redelivery, closed delivery channels, lost acknowledgements and process crashes: a delivery is handed over once, and a delayed requeue that lives only in memory is not lost.
- Zero-capacity channels in the system machine: `MessageLifecycle` starts consumers with at least one worker; the direct hand-overs of a token are single steps in `WorkerPool` only; in `MessageLifecycle` they are a send and a receive.
- TenantManager.TenantManager.StartConsumer: a negative worker count, which panics when the channel is made, is excluded by its type.
- TenantManager.TenantManager.StopAllConsumers: whether a loop listens is given with the call, as no other goroutine steps inside the method; those steps occur between any two in `TenantRegistry`.
- TenantManager.TenantManager.DeleteTenant: like the other methods but StartConsumer it asks for a sound registry, which any run that starts consumers for unregistered tenants has; without it the second close of a channel would panic.
- MessageServices.Services.ProcessMessage: models one attempt without steps of other goroutines inside; they occur between any two statements in `MessageLifecycle`.
- MessageServices.Services.HandleBusinessLogic: whether the payload parses and the row can be stored is given with the call; the types of message are left out, as all their branches succeed.
- A nil header map: taken as an empty one; worker ids, durations, error texts and timestamps of log rows.
- Relation structs as objects of their own: `R` is a value of its owner, so two owners that share one, which nothing in the source makes, are not modelled; nor is the sharing of slices with a caller of `AddDeadLetterMessages`.
- Duplicate message keys across restarts, transactions, and the missing rollback of `CreateTenant`.
- Hooks, contexts, debug output and timestamps of the generated methods; column sets, quoting, placeholders and mappings of the libraries are uninterpreted functions; only `UpsertText` takes quoting to be double quotes around the name.
- Relationships.LoadDeadLetterMessages: query modifiers are part of the table it is given; the loaders of the other relations are the same template.
- Argument lists of `UpdateAll` and `DeleteAll`, finders, counts and existence queries.
- Cursor pagination: the cursor is a position that is compared to an id, so no page walk theorem holds.
- Folding and length limits of partition names: UUIDs in lower case are within both.
- Machine integers: worker counts, retry counts and delays are unbounded.
- Handlers, middleware, metrics, configuration, connection handling.
