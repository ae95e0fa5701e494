# Stateful protocols of the edge-cloud orchestrator, modelled and proved in Dafny

The orchestrator keeps several small protocols whose guarantees are about whole runs, not
about single calls. This project models thirteen of its files and proves what each promises.

| file | models |
|---|---|
| `KafkaExactlyOnce.dfy` | consume-process-produce of one partition: transaction, database row and Redis key per offset |
| `Idempotency.dfy` | idempotency keys behind a cache, an expiring lock and a unique database row |
| `TaskSaga.dfy` | the five steps of the task saga and their compensations, over shared node counters |
| `CircuitBreakers.dfy` | the breaker with calls in flight, its sequential twin, and the retry loop |
| `RateLimiter.dfy` | the edge agent's sliding-window limiter |
| `PluginManager.dfy` | plugin registration, dependency-closed enablement, loading from configuration |
| `WebSocketClient.dfy` | resubscription of a reconnecting client |
| `Deduplicator.dfy` | request coalescing with a TTL cache and eviction |
| `TaskQueue.dfy` | the client-side priority queue with retries |
| `AutoHealer.dfy` | recovery-storm prevention |
| `PriorityScheduler.dfy` | the scheduler's sorted sets, scores, aging and batch sizes |
| `SchedulerRuns.dfy` | overlapping batches, aging passes, submissions and cancellations, one Redis command at a time |
| `SchedulerIds.dfy` | what those runs mean for task ids |
| `SchedulerCalls.dfy` | `getNextBatch` and `applyAging` as programs among others |
| `RaftElection.dfy` | leader election among consensus nodes |
| `Basics.dfy` | what the others share |

Code between two awaits is one atomic step; everything else interleaves. Each module has a
state, an `Apply` for one event and a `Run` for a sequence of events; its main theorems are
about all runs. The classes keep the original's fields and update them in place (the scheduler's
works on Redis alone), and each method is proved to do what the state machine or its
specification functions say. Of `CheckAndRecord`, `ProcessExactlyOnce`,
`GetNextBatch`, `ApplyAging` and their parts, what the others (or the timers) do at each await
is a parameter; the saga's methods run alone, and their interleavings are those of the
machine. Clocks,
outcomes of foreign calls and random choices are parameters. Ghost fields record what
the original does not keep: full histories, outstanding runs, who won.

## Where the code does less than it says

Each of these is proved, by the exact condition under which the code does what it promises
or by a concrete run in which it does not, mostly by both.

- The abort path of exactly-once announces a retry; a retry inside the process after a failed
  database insert publishes twice (`RetryInProcessDuplicates`), and the records of processed
  offsets protect a message only while they last (`RedeliveryIsHarmlessIff`).
- A cache key can be another key's lock key (`KeysCollideIff`, `CacheIsTrustedIff`), and a
  cleanup leaves a stale answer whenever the result is still cached or about to be
  (`CleanupIsHarmlessIff`, `StaleAfterCleanup`); so does finishing a record again with another
  result (`FinishingIsHarmlessIff`).
- A saga that fails while creating the execution record leaves the task SCHEDULED, since the
  failing step is not itself compensated (`RestoredIff`); one whose agent call fails leaves
  an execution RUNNING (`OrphansLeftIff`).
- The first breaker wedges in half-open, and its twin does not, if fewer probes are allowed
  than successes needed (`NeverWedgedIff`, `BisimilarIff`).
- The flush loop of the WebSocket client can spin forever when an older socket opens
  (`FlushTerminatesIff`, `FlushCanSpin`).
- A factory that throws synchronously poisons its key in the deduplicator
  (`SynchronousThrowSticks`, `AlwaysLiveIff`, `FactoriesKeepLiveIff`).
- The hourly restart limit reads a key that is never written (`HourlyKeyIsNeverWritten`); it
  holds exactly for cooldowns of twenty minutes and more (`HourlyLimitHoldsIff`).
- A stamp a quarter of an hour ahead breaks the order of the classes (`StaysByClassIff`).
- A share of zero slots takes a whole class (`FitsWhateverIsQueuedIff`), aging queues a task
  a second time (`AgedTaskIsQueuedTwiceIff`), overlapping batches hand a task out twice and
  an overlapping aging pass brings it back (`OverlappingCallsShareTask`,
  `PoppedTaskComesBack`, `AlwaysCleanIff`, `IdsStaySingleIff`).
- A candidate counts votes of its earlier elections, so two nodes can lead one term
  (`OneLeaderPerTermIff`).

## Model

| member | source | states |
|---|---|---|
| `KafkaExactlyOnce.EveryRunIsExactlyOnce` | backend/src/services/kafka-exactly-once.ts:139-278 | However calls, crashes, aborts, key expiry and cleanup interleave, if each delivery starts at the committed offset then the committed transactions carry offsets 0, 1, 2, ... once each and in order, each with the records of one handler answer for that offset, and every offset in the database or Redis is below the committed one |
| `KafkaExactlyOnce.InvStep` | backend/src/services/kafka-exactly-once.ts:153-276 | Each single await, throw, redelivery, expiry or cleanup keeps that guarantee and keeps the running call at the committed offset |
| `KafkaExactlyOnce.CommitKeepsExactlyOnce` | backend/src/services/kafka-exactly-once.ts:200-245 | Committing the sent records together with the next offset extends the exactly-once sequence by one |
| `KafkaExactlyOnce.OutputsPerMessage` | backend/src/services/kafka-exactly-once.ts:200-245 | Read back from the output topic: each offset below the committed one left exactly the records of one handler answer, in order; any other offset left none |
| `KafkaExactlyOnce.AttemptIsRun` | backend/src/services/kafka-exactly-once.ts:139-278 | One call that is cut off after any number of awaits is a run of the step machine, so the main theorem applies to it |
| `KafkaExactlyOnce.SendingAwaits` | backend/src/services/kafka-exactly-once.ts:200-259 | From the send loop on: which await makes the outputs, the database row and the Redis key appear |
| `KafkaExactlyOnce.RedeliveryIsHarmlessIff` | backend/src/services/kafka-exactly-once.ts:153-179 | Handing over an offset keeps the guarantee, whatever answers, throws, crashes, expiry and cleanup follow, exactly if it is the committed offset; given that its key does not expire, also if it is in Redis; given that its row is not cleaned up, also if it is in the database; and in no other case |
| `KafkaExactlyOnce.RecordsCanVanish` | backend/src/services/kafka-exactly-once.ts:153-179 | The run that breaks it otherwise: the records of the offset vanish before the call looks, and it is committed a second time |
| `KafkaExactlyOnce.RetryInProcessDuplicates` | backend/src/services/kafka-exactly-once.ts:247-276 | A database failure after the commit, followed by a retry of the same message in the process, publishes its output twice |
| `KafkaExactlyOnce.KafkaExactlyOnceService.ProcessExactlyOnce` | backend/src/services/kafka-exactly-once.ts:139-278 | With keys expiring and rows being cleaned up in any way before each await, and cut off after any number of them by a throw, by a throw and a failing abort, or by the death of the process: the state is that of the step machine after that many awaits, and the caller sees true exactly if the call ended with the offset recorded, false if it was caught and the abort went through |
| `KafkaExactlyOnce.QuietIsAttempt` | backend/src/services/kafka-exactly-once.ts:139-278 | With nothing expiring meanwhile, that state is given directly for every number of awaits |
| `KafkaExactlyOnce.KafkaExactlyOnceService.Tick` | backend/src/services/kafka-exactly-once.ts:351-367 | Expiry and cleanup, one after the other, as events of the machine |
| `KafkaExactlyOnce.KafkaExactlyOnceService.SendOutputs` | backend/src/services/kafka-exactly-once.ts:200-219 | The send loop: the records sent so far carry the messages in order and name the source offset |
| `KafkaExactlyOnce.KafkaExactlyOnceService.CleanupOldOffsets` | backend/src/services/kafka-exactly-once.ts:351-367 | Deletes exactly the rows older than the cutoff and returns how many |
| `KafkaExactlyOnce.KafkaExactlyOnceService.constructor` | backend/src/services/kafka-exactly-once.ts:84-107 | Starts with nothing committed and nothing recorded, where the guarantee holds |
| `Idempotency.AtMostOneWinner` | backend/src/services/idempotency-service.ts:99-156 | Over every interleaving, with locks expiring, waiters giving up and callers deleting foreign locks, the calls newly told that a key is fresh are at most the deletions of its row, plus one if the row appeared; without a cleanup, at most one |
| `Idempotency.WinnersStep` | backend/src/services/idempotency-service.ts:134-151 | Only the insert of an absent row can add a winner, and it adds just the inserting call |
| `Idempotency.KeysCollideIff` | backend/src/services/idempotency-service.ts:51-52 | A cache key equals a lock key exactly if the one idempotency key is "lock:" followed by the other; otherwise keys do not collide |
| `Idempotency.CacheInvStep` | backend/src/services/idempotency-service.ts:80-201 | Every event, if records are finished once, keeps each cached or about to be cached text a final result of its key and each finished row unchanged |
| `Idempotency.CacheInvRun` | backend/src/services/idempotency-service.ts:80-201 | The same over whole runs; with no row of the key deleted, every result given to the key is that of its present row |
| `Idempotency.CacheAgreesWithDatabase` | backend/src/services/idempotency-service.ts:86-132 | If only one complete or fail finishes each record, a cached entry is always a final result of its key, and equals the stored result as long as the record was not cleaned up |
| `Idempotency.StartIsCoherent` | backend/src/services/idempotency-service.ts:51-52 | With nothing stored the cache invariant holds |
| `Idempotency.StaysMatchedIff` | backend/src/services/idempotency-service.ts:86-132 | From any moment on, the cache of a key (that does not begin with "lock:") matches the database in every run until the next deletion exactly if what is cached, and what is about to be, is the stored result |
| `Idempotency.FinishingIsHarmlessIff` | backend/src/services/idempotency-service.ts:161-201 | A complete or fail, of a finished record too, leaves the cache trustworthy exactly if nothing of the key is cached or about to be, or the result does not change |
| `Idempotency.AbsentRowIsSafeIff` | backend/src/services/idempotency-service.ts:86-132 | With no row of the key, that is so exactly if nothing of it is cached or about to be cached |
| `Idempotency.CleanupIsHarmlessIff` | backend/src/services/idempotency-service.ts:273-282 | Deleting an expired row is harmless in that sense exactly if its result is not cached and no call is about to cache it |
| `Idempotency.StaleAfterCleanup` | backend/src/services/idempotency-service.ts:161-186 | One run from the start that gets there: the cleanup falls between the row update and the cache write, and the cache answers for a new record that is still processing |
| `Idempotency.LockIsMistakenForResult` | backend/src/services/idempotency-service.ts:86-97 | A key that begins with "lock:" is answered as a duplicate with the text of another key's lock although no record exists |
| `Idempotency.CacheIsTrustedIff` | backend/src/services/idempotency-service.ts:86-97 | For a key never cleaned up, the cache always matches the database exactly if the key does not begin with "lock:" |
| `Idempotency.AloneWins` | backend/src/services/idempotency-service.ts:80-156 | A call alone on a free key inserts its row, is told it is fresh, and leaves Redis as it was |
| `Idempotency.IdempotencyService.CheckAndRecord` | backend/src/services/idempotency-service.ts:80-156 | With arbitrary other calls and timers before each await, the whole execution is a run of the step machine in which this call returns this answer |
| `Idempotency.IdempotencyService.ReadCache` | backend/src/services/idempotency-service.ts:86-97 | After whatever the others did meanwhile: a cached text is the answer, no cached text leads to the lock, and nothing else changes |
| `Idempotency.IdempotencyService.TryLock` | backend/src/services/idempotency-service.ts:245-248 | Sets the lock exactly if it is absent at that moment |
| `Idempotency.IdempotencyService.AcquireLock` | backend/src/services/idempotency-service.ts:99-110 | An absent lock is taken and nothing else happens; otherwise, after the wait, the outcome is that of the second look at the database |
| `Idempotency.IdempotencyService.Poll` | backend/src/services/idempotency-service.ts:256-258 | One look at the lock: gone or still there |
| `Idempotency.IdempotencyService.WaitForLockRelease` | backend/src/services/idempotency-service.ts:254-261 | At most the given number of polls; all but the last found the lock; it ends by the lock being gone or by running out of polls, and says which |
| `Idempotency.IdempotencyService.WaitAndRecheck` | backend/src/services/idempotency-service.ts:101-110 | The wait followed by the second look |
| `Idempotency.IdempotencyService.Recheck` | backend/src/services/idempotency-service.ts:105-110 | A stored result answers as duplicate; no row or no result lets the call proceed without the lock |
| `Idempotency.IdempotencyService.FindRecord` | backend/src/services/idempotency-service.ts:112-118 | The result column of the row at that moment, and where the call goes next |
| `Idempotency.IdempotencyService.CheckAndCreate` | backend/src/services/idempotency-service.ts:112-151 | A row that is there makes the answer a duplicate with its result, cached first if there is one; an absent row leads to the insert, which throws exactly if a row has appeared meanwhile |
| `Idempotency.IdempotencyService.RefreshCache` | backend/src/services/idempotency-service.ts:118-132 | The stored result is cached and nothing else changes |
| `Idempotency.IdempotencyService.CreateRecord` | backend/src/services/idempotency-service.ts:134-147 | A present key throws and changes nothing; otherwise a new row with status processing, no result and the expiry time |
| `Idempotency.IdempotencyService.ReleaseLock` | backend/src/services/idempotency-service.ts:152-155 | Whatever lock is there is gone when the call returns, and nothing else changes |
| `Idempotency.IdempotencyService.Complete` | backend/src/services/idempotency-service.ts:161-186 | Updates the row and then the cache; a missing row throws and changes nothing |
| `Idempotency.IdempotencyService.Fail` | backend/src/services/idempotency-service.ts:191-201 | Marks the row failed with the error and leaves the cache alone |
| `TaskSaga.CountersFollowReservations` | backend/src/sagas/task-lifecycle-saga.ts:98-166 | For any number of interleaved sagas failing at any await, each node's tasksRunning is its starting value plus the reservations held on it, so it never drops below that value nor rises above maxTasks |
| `TaskSaga.CountedStep` | backend/src/sagas/task-lifecycle-saga.ts:98-166 | Each event keeps that accounting |
| `TaskSaga.CounterMatchesHold` | backend/src/sagas/task-lifecycle-saga.ts:126-166 | A node's counter moves exactly with the reservation of the saga that made the step |
| `TaskSaga.TrackedRun` | backend/src/sagas/task-lifecycle-saga.ts:64-374 | Over every run in which no two unfinished sagas share a task, retries by later sagas included, each unfinished saga finds its task row as it left it |
| `TaskSaga.CompensationLeaves` | backend/src/sagas/task-lifecycle-saga.ts:149-318 | In every such run, when a compensation ends the saga holds no reservation and its task is exactly what the failing point alone determines |
| `TaskSaga.TrackedStep` | backend/src/sagas/task-lifecycle-saga.ts:64-374 | Each event keeps the rows of unfinished sagas equal to what those have written and undone so far, and the row of a saga that it finishes as well |
| `TaskSaga.BeforeAnySaga` | backend/src/sagas/task-lifecycle-saga.ts:126-166 | Before any saga both invariants hold, with the counters themselves as starting values |
| `TaskSaga.LastWrite` | backend/src/sagas/task-lifecycle-saga.ts:205-318 | The compensations composed in reverse order leave that result |
| `TaskSaga.RestoredIff` | backend/src/sagas/task-lifecycle-saga.ts:169-223 | At the end of a compensation in any run, the status is that before the saga exactly unless the creation of the execution record failed; the exact condition for the node assignment |
| `TaskSaga.ExecutionsLeft` | backend/src/sagas/task-lifecycle-saga.ts:191-318 | At the end of a compensation in any run, which executions of the task are as before, whatever they were, what became of the others, and what of the one the saga created |
| `TaskSaga.OrphansLeftIff` | backend/src/sagas/task-lifecycle-saga.ts:191-318 | One is RUNNING exactly if the run on the agent failed, or one was before and the failure came before the completion step; SCHEDULED exactly if one was before and the saga created none |
| `TaskSaga.TaskLifecycleSaga.ValidateTask` | backend/src/sagas/task-lifecycle-saga.ts:64-95 | As the next event of a saga in any run on this database: the saga goes on to the node query exactly if it returns, is compensated with nothing to undo if it throws, and returns only for a PENDING task |
| `TaskSaga.TaskLifecycleSaga.ReserveResources` | backend/src/sagas/task-lifecycle-saga.ts:98-147 | Adds one to the counter of the least loaded suitable node, or, above capacity or on a throw, changes nothing |
| `TaskSaga.TaskLifecycleSaga.ReleaseReservation` | backend/src/sagas/task-lifecycle-saga.ts:149-166 | Takes one off a positive counter |
| `TaskSaga.TaskLifecycleSaga.ScheduleTask` | backend/src/sagas/task-lifecycle-saga.ts:169-204 | The row and execution after each of its two writes |
| `TaskSaga.TaskLifecycleSaga.UnscheduleTask` | backend/src/sagas/task-lifecycle-saga.ts:205-223 | Resets the row and cancels scheduled executions |
| `TaskSaga.TaskLifecycleSaga.ExecuteTask` | backend/src/sagas/task-lifecycle-saga.ts:227-293 | The row and executions after each of its writes and the agent call |
| `TaskSaga.TaskLifecycleSaga.CancelExecution` | backend/src/sagas/task-lifecycle-saga.ts:294-318 | Cancels running executions |
| `TaskSaga.TaskLifecycleSaga.CompleteTask` | backend/src/sagas/task-lifecycle-saga.ts:322-369 | The row and executions after each of its writes and the event |
| `TaskSaga.TaskLifecycleSaga.RunReserved` | backend/src/sagas/task-lifecycle-saga.ts:169-374 | The three steps behind the reservation, up to the first failure |
| `TaskSaga.TaskLifecycleSaga.Compensate` | backend/src/sagas/task-lifecycle-saga.ts:149-318 | The compensations of the completed steps in reverse give the leftover row and release the reservation |
| `TaskSaga.TaskLifecycleSaga.RunSaga` | backend/src/sagas/task-lifecycle-saga.ts:377-382 | A saga on its own: all writes and one kept reservation on success; on failure the nodes as before and the leftover row |
| `CircuitBreakers.NeverWedgedIff` | src/lib/circuit-breaker.ts:44-120 | Over all runs, with stale completions landing in later episodes, the breaker never becomes half-open with nothing of the episode in flight and no call admitted, exactly if halfOpenMaxCalls is at least max(1, successThreshold) |
| `CircuitBreakers.AccountedStep` | src/lib/circuit-breaker.ts:44-166 | Each call, completion, force or reset keeps: in half-open, handed-out slots are at most successes plus calls of this episode in flight |
| `CircuitBreakers.AccountedRun` | src/lib/circuit-breaker.ts:44-166 | The same over every run |
| `CircuitBreakers.ProbesUseUpSlots` | src/lib/circuit-breaker.ts:44-94 | With more successes needed than slots, successful probes use up all slots and leave the breaker half-open |
| `CircuitBreakers.TwinsAgree` | src/lib/circuit-breaker.ts:44-120 | With equal positive settings and enough half-open slots the two breakers are in matching states after every sequential history |
| `CircuitBreakers.BisimilarIff` | src/lib/retry.ts:124-180 | With equal positive settings, the two breakers show the same states and take the same decisions after every sequential history under a non-decreasing clock exactly if halfOpenMaxCalls is at least successThreshold |
| `CircuitBreakers.CircuitBreaker.Begin` | src/lib/circuit-breaker.ts:44-72 | Whether a call is admitted, the start of a half-open episode, and all counters |
| `CircuitBreakers.CircuitBreaker.OnSuccess` | src/lib/circuit-breaker.ts:85-94 | Clears failures; closes at the success threshold in half-open |
| `CircuitBreakers.CircuitBreaker.OnFailure` | src/lib/circuit-breaker.ts:96-105 | Opens in half-open or at the failure threshold |
| `CircuitBreakers.CircuitBreaker.ForceOpen` | src/lib/circuit-breaker.ts:107-112 | Open until now plus timeout, with half-open counters cleared |
| `CircuitBreakers.CircuitBreaker.ForceClose` | src/lib/circuit-breaker.ts:114-120 | Closed with counters cleared, total and rejected calls kept |
| `CircuitBreakers.CircuitBreaker.Reset` | src/lib/circuit-breaker.ts:161-166 | Back to the initial state |
| `CircuitBreakers.SequentialCircuitBreaker.CanExecute` | src/lib/retry.ts:141-155 | The twin's admission and its move to half-open |
| `CircuitBreakers.SequentialCircuitBreaker.RecordSuccess` | src/lib/retry.ts:157-169 | The twin's success path |
| `CircuitBreakers.SequentialCircuitBreaker.RecordFailure` | src/lib/retry.ts:171-180 | The twin's failure path, with defaults for zero settings |
| `CircuitBreakers.Execute` | src/lib/retry.ts:61-100 | Attempts stop at the first success, the first fatal error or maxAttempts, whichever is first; all earlier ones were retryable |
| `CircuitBreakers.ExecuteWithCircuitBreaker` | src/lib/retry.ts:103-120 | However many attempts it makes, it counts once at the breaker |
| `RateLimiter.AnyWindowHoldsAtMostLimit` | edge-agent/server.js:94-132 | No window of RATE_LIMIT_WINDOW_MS, wherever placed, holds more than RATE_LIMIT_MAX admitted requests of a client, and none if the limit is not positive |
| `RateLimiter.AdvertisedWaitIsExact` | edge-agent/server.js:111-122 | A refused client that sends nothing and returns after s whole seconds is admitted exactly if there is an advertised retry-after and s is at least that; with a limit of zero it never is |
| `RateLimiter.RequestHandled` | edge-agent/server.js:94-132 | The pruned log decides as the full history does, and stays faithful after the request |
| `RateLimiter.TimePasses` | edge-agent/server.js:97-108 | A faithful log stays faithful as the clock moves on |
| `RateLimiter.Dropped` | edge-agent/server.js:135-142 | Deleting a log idle for two windows changes no later decision |
| `RateLimiter.RateLimiter.constructor` | edge-agent/server.js:33-34 | For every window and limit, starts with an empty store |
| `RateLimiter.RateLimiter.Handle` | edge-agent/server.js:94-132 | Decides exactly as the specification that never forgets a request, and records exactly the admitted ones |
| `RateLimiter.RateLimiter.Cleanup` | edge-agent/server.js:135-142 | Deletes exactly the idle clients, keeps the others' logs, and leaves the histories faithful |
| `PluginManagement.ReachableIsValid` | backend/src/architecture/core-vs-plugins.ts:529-615 | After any calls, failed ones included, the enabled set is dependency-closed and registration order is a topological order |
| `PluginManagement.StepKeepsValid` | backend/src/architecture/core-vs-plugins.ts:529-615 | Each register, enable or disable keeps that |
| `PluginManagement.ShutdownSucceeds` | backend/src/architecture/core-vs-plugins.ts:592-615 | Disabling everything in reverse registration order never fails and leaves nothing enabled |
| `PluginManagement.LoadSequenceSorts` | backend/src/architecture/core-vs-plugins.ts:620-624 | The load order holds every plugin once, by loadOrder, equal ones by registration |
| `PluginManagement.EnabledAtItsTurn` | backend/src/architecture/core-vs-plugins.ts:552-563 | When the load reaches a plugin, it can be enabled exactly if its dependencies were enabled beforehand or are requested with no larger loadOrder |
| `PluginManagement.LoadFrom` | backend/src/architecture/core-vs-plugins.ts:620-632 | The rest of a load succeeds exactly if all remaining requested plugins are loadable; it only ever fails on a missing dependency |
| `PluginManagement.LoadSucceedsIff` | backend/src/architecture/core-vs-plugins.ts:620-632 | Loading succeeds exactly if each requested plugin's dependencies are enabled beforehand or requested with no larger loadOrder; it then enables exactly the requested plugins in addition |
| `PluginManagement.FirstMissing` | backend/src/architecture/core-vs-plugins.ts:535-539 | Reports a dependency that is absent, and none exactly if all are present |
| `PluginManagement.FirstDependent` | backend/src/architecture/core-vs-plugins.ts:603-607 | Reports an enabled plugin that depends on this one, and none exactly if there is none |
| `PluginManagement.PluginManager.constructor` | backend/src/architecture/core-vs-plugins.ts:517-524 | Starts empty and valid |
| `PluginManagement.PluginManager.CheckDependencies` | backend/src/architecture/core-vs-plugins.ts:534-563 | The loop over dependencies stops at the first one missing |
| `PluginManagement.PluginManager.Register` | backend/src/architecture/core-vs-plugins.ts:529-547 | Outcome and new state; a plugin whose onLoad throws stays registered |
| `PluginManagement.PluginManager.Enable` | backend/src/architecture/core-vs-plugins.ts:552-587 | Outcome and new state; a throwing hook leaves it disabled |
| `PluginManagement.PluginManager.Disable` | backend/src/architecture/core-vs-plugins.ts:592-615 | Outcome and new state; refuses while an enabled plugin depends on it |
| `PluginManagement.PluginManager.LoadFromConfig` | backend/src/architecture/core-vs-plugins.ts:620-632 | Ends with success exactly if the request is loadable, and then with exactly the requested plugins added; the state stays valid in any case |
| `WebSocketClients.ServerMatchesSubscriptions` | src/lib/websocketClient.ts:66-217 | After any events, whenever the socket is open the queue is empty and replaying what was sent on this connection into an empty server gives exactly the channels with a live handler |
| `WebSocketClients.StepKeepsInv` | src/lib/websocketClient.ts:38-217 | Each event keeps that |
| `WebSocketClients.OpenKeepsInv` | src/lib/websocketClient.ts:66-87 | The flush followed by the resubscription brings the server to the subscribed channels, whichever socket opened |
| `WebSocketClients.SendAllExtends` | src/lib/websocketClient.ts:159-165 | A batch of sends appends to the open connection, or else to the queue |
| `WebSocketClients.FlushProgress` | src/lib/websocketClient.ts:71-75 | How long the queue is after any number of rounds of the flush loop |
| `WebSocketClients.FlushTerminatesIff` | src/lib/websocketClient.ts:71-75 | The flush loop ends exactly if the client's own socket is open or nothing is queued |
| `WebSocketClients.FlushCanSpin` | src/lib/websocketClient.ts:38-87 | Disconnecting and reconnecting before the old close event leads to a flush that never ends |
| `WebSocketClients.HangsOnlyAfterOverlap` | src/lib/websocketClient.ts:38-111 | A client hangs only in a run in which a connect made a socket while another one was still connecting |
| `WebSocketClients.WebSocketClient.constructor` | src/lib/websocketClient.ts:30-32 | Starts without socket, queue or subscriptions, where the invariant holds |
| `WebSocketClients.WebSocketClient.OpenSocket` | src/lib/websocketClient.ts:38-60 | No new socket while one is open or connecting |
| `WebSocketClients.WebSocketClient.Transmit` | src/lib/websocketClient.ts:159-165 | Sends on the open socket or queues |
| `WebSocketClients.WebSocketClient.HandleOpen` | src/lib/websocketClient.ts:66-87 | The handler ends in the state in which the queue and then all subscriptions were sent, or hangs |
| `WebSocketClients.WebSocketClient.FlushQueue` | src/lib/websocketClient.ts:71-75 | The loop sends the whole queue in order |
| `WebSocketClients.WebSocketClient.Resubscribe` | src/lib/websocketClient.ts:77-80 | The loop sends one subscribe per channel |
| `WebSocketClients.WebSocketClient.HandleClose` | src/lib/websocketClient.ts:105-111 | The close event ends the connecting phase but leaves the client's socket reference |
| `WebSocketClients.WebSocketClient.CloseSocket` | src/lib/websocketClient.ts:234-245 | Forgets the socket and starts closing it |
| `WebSocketClients.WebSocketClient.AddHandler` | src/lib/websocketClient.ts:198-207 | Subscribes at the server only for the channel's first handler |
| `WebSocketClients.WebSocketClient.RemoveHandler` | src/lib/websocketClient.ts:207-217 | Unsubscribes at the server when the last handler goes; calling it again does no harm |
| `Deduplication.OneRunPerKey` | src/lib/deduplication.ts:64-134 | Over every run of events a key has at most one factory run outstanding, plus one per entry of it that was evicted, invalidated or cleaned up; the in-flight map stays within max(1, maxInFlight) |
| `Deduplication.StepKeepsInv` | src/lib/deduplication.ts:40-170 | Each call, completion, cleanup or invalidation keeps the accounting behind it |
| `Deduplication.EndKeepsOwn` | src/lib/deduplication.ts:115-134 | It holds even when a run whose entry was dropped ends and takes the newer run's entry with it |
| `Deduplication.ConcurrentCallersShare` | src/lib/deduplication.ts:72-88 | With no drop of the key, every call made during a run joins that run, and there is only one |
| `Deduplication.AnswersBelongToTheKey` | src/lib/deduplication.ts:64-112 | Whatever was dropped, a joined run is a run of the same key, still going as long as entries are live, and a stored answer is the result of a run of the same key that ended less than ttlMs ago |
| `Deduplication.StepLiveIff` | src/lib/deduplication.ts:64-134 | From live entries, an event leaves a dead entry exactly if it is a call that starts a run with a factory throwing before its first await |
| `Deduplication.AlwaysLiveIff` | src/lib/deduplication.ts:64-134 | Run by run: every entry is at all times that of a run still going exactly if no run is started by a factory that throws synchronously |
| `Deduplication.FactoriesKeepLiveIff` | src/lib/deduplication.ts:64-134 | Over all calls, times, cleanups and invalidations, entries stay live exactly if none of the factories throws synchronously |
| `Deduplication.SynchronousThrowPoisons` | src/lib/deduplication.ts:90-134 | Such a call leaves its rejected promise as the entry of the key, after an eviction too |
| `Deduplication.PoisonStays` | src/lib/deduplication.ts:40-134 | Only a drop of the key removes such an entry |
| `Deduplication.SynchronousThrowSticks` | src/lib/deduplication.ts:64-134 | Until a drop, every later caller gets that old rejection |
| `Deduplication.RequestDeduplicator.constructor` | src/lib/deduplication.ts:25-32 | Starts with both maps empty, where the accounting holds |
| `Deduplication.RequestDeduplicator.FindOldest` | src/lib/deduplication.ts:90-95 | Finds the entry that an ascending stable sort by timestamp puts first |
| `Deduplication.RequestDeduplicator.Evict` | src/lib/deduplication.ts:90-98 | Removes that entry only |
| `Deduplication.RequestDeduplicator.Deduplicate` | src/lib/deduplication.ts:64-113 | The promise returned (stored, joined or new) and the new state |
| `Deduplication.RequestDeduplicator.BeginRun` | src/lib/deduplication.ts:100-112 | A new run becomes the key's entry |
| `Deduplication.RequestDeduplicator.FactoryEnded` | src/lib/deduplication.ts:115-134 | A success is cached; in any case the key's entry goes, whichever run it belongs to |
| `Deduplication.RequestDeduplicator.CleanupEntries` | src/lib/deduplication.ts:40-57 | Drops entries older than twice the TTL and results older than the TTL, no others |
| `Deduplication.RequestDeduplicator.CleanupCompleted` | src/lib/deduplication.ts:44-49 | Keeps exactly the results not older than the TTL |
| `Deduplication.RequestDeduplicator.InvalidateKeys` | src/lib/deduplication.ts:144-170 | Forgets results and entries of the given keys |
| `TaskQueue.StaysByClassIff` | src/lib/task-queue.ts:37-131 | Over all runs with a non-decreasing clock and stamps less than d ahead, whatever is submitted, updated, retried and removed, the queue is always partitioned by class exactly if d is at most fifteen minutes |
| `TaskQueue.QueueStaysOrdered` | src/lib/task-queue.ts:37-131 | With stamps less than fifteen minutes ahead it is also always sorted by its stored priorities |
| `TaskQueue.OrderStep` | src/lib/task-queue.ts:37-131 | Each event keeps the order and the band of each stored priority |
| `TaskQueue.SortedIsByClass` | src/lib/task-queue.ts:20-25 | Priorities computed at different times still separate the four classes |
| `TaskQueue.FifteenMinutesAreTooMany` | src/lib/task-queue.ts:37-74 | A run of two submissions, one stamped a quarter of an hour ahead, ends with a critical task behind a high one |
| `TaskQueue.SortIsStable` | src/lib/task-queue.ts:76-82 | Reordering sorts, keeps every entry and keeps insertion order among equal priorities |
| `TaskQueue.InsertedBehindEquals` | src/lib/task-queue.ts:56-65 | A new entry goes behind all entries of its priority and disturbs no other priority |
| `TaskQueue.EveryEntryIsSomewhere` | src/lib/task-queue.ts:37-131 | In every run with distinct ids and a limit that is not lowered, each accepted entry is in exactly one of queued, in flight, backing off, done, abandoned or removed; in-flight entries never exceed maxConcurrent; no entry runs more than maxRetries + 1 times |
| `TaskQueue.ConservedStep` | src/lib/task-queue.ts:37-131 | Each event keeps that |
| `TaskQueue.StartIsConserved` | src/lib/task-queue.ts:33-35 | The empty queue satisfies both invariants |
| `TaskQueue.PriorityTaskQueue.FindIndex` | src/lib/task-queue.ts:38-40 | Finds the first entry with the id |
| `TaskQueue.PriorityTaskQueue.InsertByPriority` | src/lib/task-queue.ts:56-65 | Inserts before the first entry of smaller priority |
| `TaskQueue.PriorityTaskQueue.ReorderQueue` | src/lib/task-queue.ts:76-82 | Recomputes every priority and sorts |
| `TaskQueue.PriorityTaskQueue.ProcessQueue` | src/lib/task-queue.ts:84-95 | Takes the head if there is a processor, room and work |
| `TaskQueue.PriorityTaskQueue.Submit` | src/lib/task-queue.ts:37-68 | Updates a queued task in place and reorders, or inserts and starts processing |
| `TaskQueue.PriorityTaskQueue.LeaveProcessing` | src/lib/task-queue.ts:96-109 | Done, backing off or abandoned, and the slot is free |
| `TaskQueue.PriorityTaskQueue.OnSettled` | src/lib/task-queue.ts:96-113 | The same followed by the next entry |
| `TaskQueue.PriorityTaskQueue.OnBackoffEnds` | src/lib/task-queue.ts:103-106 | The entry rejoins the queue without starting the next one |
| `TaskQueue.PriorityTaskQueue.TakeFirst` | src/lib/task-queue.ts:115-118 | Takes the head of the queue, if there is one |
| `TaskQueue.PriorityTaskQueue.InstallProcessor` | src/lib/task-queue.ts:133-136 | Sets the processor and starts processing |
| `TaskQueue.PriorityTaskQueue.Resize` | src/lib/task-queue.ts:138-141 | Sets the limit and starts processing |
| `TaskQueue.PriorityTaskQueue.TakeOut` | src/lib/task-queue.ts:124-131 | Removes the entry and says whether it was queued |
| `AutoHealing.DecisionIsRule` | backend/src/services/auto-healer.ts:484-569 | In every reachable state a healer starts an action exactly if thirty seconds have passed since any action of any healer, its own cooldown since the last one of this type and target, and fewer than min(maxConcurrentActions, 3) of its own are active; the trimmed history decides as the full log would |
| `AutoHealing.EveryRunIsCalm` | backend/src/services/auto-healer.ts:206-264 | Over every run, with any number of differently configured healers, starts are at least thirty seconds apart, actions are distinct, and no healer has more than min(maxConcurrentActions, 3) of its own going |
| `AutoHealing.StepKeepsInv` | backend/src/services/auto-healer.ts:206-264 | Each alert or completion keeps the relation between the shared history and the full log |
| `AutoHealing.StartHasInv` | backend/src/services/auto-healer.ts:70-78 | The fresh process satisfies the invariant |
| `AutoHealing.AnyMinuteHoldsTwo` | backend/src/services/auto-healer.ts:70-78 | Any sixty seconds hold at most two starts |
| `AutoHealing.ApartCount` | backend/src/services/auto-healer.ts:70-78 | Of times a gap apart, m of them need more than m - 1 gaps |
| `AutoHealing.MinuteCapIsIdle` | backend/src/services/auto-healer.ts:527-543 | The ten-per-minute cap never decides: at most two recent actions are ever counted |
| `AutoHealing.HourlyKeyIsNeverWritten` | backend/src/services/auto-healer.ts:507-546 | No action is filed under the key that the hourly restart limit reads |
| `AutoHealing.HistoryKeyIsInjective` | backend/src/services/auto-healer.ts:484-486 | Different type or target, different history key |
| `AutoHealing.HourlyLimitNeverBinds` | backend/src/services/auto-healer.ts:544-556 | At any gap of thirty seconds or more that the cooldown allows, n restart alerts make n restarts of one service, for every n |
| `AutoHealing.FourthRestart` | backend/src/services/auto-healer.ts:544-556 | A healer with a cooldown under twenty minutes restarts a service a fourth time within the hour |
| `AutoHealing.TargetsStayApart` | backend/src/services/auto-healer.ts:484-505 | If all healers that can act have a cooldown of at least g, starts of one type and target stay g apart in every run |
| `AutoHealing.HourlyLimitHoldsIff` | backend/src/services/auto-healer.ts:544-556 | Over all runs, no service is restarted more than three times in any hour exactly if every healer that can act has a cooldown of at least twenty minutes |
| `AutoHealing.AutoHealer.CheckRecoveryRateLimits` | backend/src/services/auto-healer.ts:527-569 | The three limits, as coded |
| `AutoHealing.AutoHealer.IsOnCooldown` | backend/src/services/auto-healer.ts:484-505 | Global cooldown, cooldown of the target, and the limits |
| `AutoHealing.AutoHealer.SetCooldown` | backend/src/services/auto-healer.ts:507-521 | Appends the time, trims to the last hour and sets the global time |
| `AutoHealing.AutoHealer.InitiateHealing` | backend/src/services/auto-healer.ts:206-241 | Starts exactly if the rule on the full log allows it, and keeps history, log and active actions in step |
| `AutoHealing.AutoHealer.FinishHealing` | backend/src/services/auto-healer.ts:253-262 | As the next event of the run: the invariant is kept, shared history and other healers are untouched, and an active action frees one slot |
| `PriorityScheduling.BatchFitsIff` | backend/src/services/priority-scheduler.ts:209-262 | For every batch size and every content of the queues: the exact condition, on queue lengths and the slots left after CRITICAL, for an undisturbed batch to be at most batchSize |
| `PriorityScheduling.FitsWhateverIsQueuedIff` | backend/src/services/priority-scheduler.ts:224-250 | The number of slots left guarantees the size exactly if it is zero or at least nine; with fewer, a zero share takes a whole class |
| `PriorityScheduling.NonPositiveBatch` | backend/src/services/priority-scheduler.ts:210-214 | A batch size of zero takes all of CRITICAL, and -n all but n |
| `PriorityScheduling.LowIsOfferedAShare` | backend/src/services/priority-scheduler.ts:258-266 | From nine slots on, LOW is offered at least 53 percent of them and takes as many as it has |
| `PriorityScheduling.AgingOnlyAdds` | backend/src/services/priority-scheduler.ts:286-317 | Undisturbed aging keeps every old member beside the re-scored text of each member read |
| `PriorityScheduling.AgedTaskIsQueuedTwiceIff` | backend/src/services/priority-scheduler.ts:299-317 | A task is queued twice after undisturbed aging exactly if its boost changed; removing the stored text then leaves the other one |
| `PriorityScheduling.AgedTaskRunsTwice` | backend/src/services/priority-scheduler.ts:205-317 | One submitted LOW task and one aging pass: the next batch runs it twice |
| `SchedulerRuns.EveryRunIsBalanced` | backend/src/services/priority-scheduler.ts:145-329 | Over all runs with any number of overlapping calls, passes, submissions and cancellations: every text that came into a queue is still there, was cancelled or stands in the batch of some call, and hand-outs beyond that are exactly those of tasks already removed by another |
| `SchedulerRuns.BalancedStep` | backend/src/services/priority-scheduler.ts:205-329 | Each single Redis command keeps that balance |
| `SchedulerRuns.OrderedRun` | backend/src/services/priority-scheduler.ts:205-329 | In every run each queue stays a set, ascending by score |
| `SchedulerRuns.ReadIsCheapest` | backend/src/services/priority-scheduler.ts:210-266 | So in every reachable state what a zrange leaves behind scores no lower than what it returns |
| `SchedulerRuns.SoundStepIff` | backend/src/services/priority-scheduler.ts:205-329 | From a sound state (what was read is still queued, and no call shares it with another call or a pass) a command leads to a sound one exactly if it reads or cancels nothing that another call or pass has read and not yet dealt with |
| `SchedulerRuns.CleanIffSound` | backend/src/services/priority-scheduler.ts:216-317 | From any time on, what has begun can finish in every order without a task handed out twice or brought back by aging, exactly if the state is sound |
| `SchedulerRuns.AlwaysCleanIff` | backend/src/services/priority-scheduler.ts:205-329 | Run by run: that is so at every moment exactly if no zrange reads and no cancellation removes what another call or pass has read and not yet dealt with |
| `SchedulerRuns.SeparateRunsHandOutOnce` | backend/src/services/priority-scheduler.ts:205-329 | In such runs nothing is lost, nothing is handed out more often than it came in, and aging brings no task back |
| `SchedulerRuns.UnsoundIsDirty` | backend/src/services/priority-scheduler.ts:216-317 | From any unsound state, and from any time on, some order of the pending zrems and zadds goes wrong |
| `SchedulerRuns.OverlappingCallsShareTask` | backend/src/services/priority-scheduler.ts:210-220 | Two calls that both read before either removes have the same task in their batches |
| `SchedulerRuns.PoppedTaskComesBack` | backend/src/services/priority-scheduler.ts:291-317 | A task read by an aging pass and then handed out is put back by the pass |
| `SchedulerRuns.BatchFitsInEveryRun` | backend/src/services/priority-scheduler.ts:205-280 | In every run, whatever the queues hold at each zrange, a call left with zero or at least nine slots after CRITICAL returns at most batchSize tasks, and with nine or more offers LOW at least 53 percent of them |
| `SchedulerRuns.FitsInEveryRunIff` | backend/src/services/priority-scheduler.ts:205-280 | Over all runs, the number of slots left after CRITICAL guarantees the size exactly if it is zero or at least nine |
| `SchedulerRuns.OverfullRun` | backend/src/services/priority-scheduler.ts:222-255 | For each of one to eight slots, a run of submissions and one call that returns too many |
| `SchedulerRuns.OneClass` | backend/src/services/priority-scheduler.ts:209-220 | Undisturbed, one zrange and its zrems take the prefix out of the queue and into the batch |
| `SchedulerIds.IdsStaySingleIff` | backend/src/services/priority-scheduler.ts:145-329 | Run by run, without overlaps and with a new id for each submission: every task id stands at all times for at most one text, queued or handed out, exactly if no aging pass changes a text |
| `SchedulerIds.IdsStepIff` | backend/src/services/priority-scheduler.ts:205-329 | The same for each single Redis command |
| `SchedulerIds.NoTaskTwice` | backend/src/services/priority-scheduler.ts:205-280 | In such a run no task is handed out twice |
| `SchedulerIds.BothTextsComeOut` | backend/src/services/priority-scheduler.ts:286-317 | Where aging did change a text, the task is handed out twice once neither text is queued any more and none was cancelled |
| `SchedulerCalls.PriorityScheduler.ReadClass` | backend/src/services/priority-scheduler.ts:210-214 | After whatever the others did meanwhile, returns the front of the queue as it then is |
| `SchedulerCalls.PriorityScheduler.RemoveFirst` | backend/src/services/priority-scheduler.ts:216-220 | push and zrem of one task, wasted if another has removed it |
| `SchedulerCalls.PriorityScheduler.RemoveRead` | backend/src/services/priority-scheduler.ts:216-220 | The zrem loop over what was read, with anything happening before each command |
| `SchedulerCalls.PriorityScheduler.TakeFrom` | backend/src/services/priority-scheduler.ts:209-220 | zrange and zrem loop of one class as commands of a run |
| `SchedulerCalls.PriorityScheduler.GetNextBatch` | backend/src/services/priority-scheduler.ts:205-280 | With arbitrary other calls, passes and submissions before each command, a run of the machine in which this call finishes with this batch; with nobody else at work, exactly the batch and rest of the size theorems |
| `SchedulerCalls.PriorityScheduler.ScanClass` | backend/src/services/priority-scheduler.ts:291-297 | Returns the whole class as it then is |
| `SchedulerCalls.PriorityScheduler.RescoreFirst` | backend/src/services/priority-scheduler.ts:305-317 | Writes back one re-scored text |
| `SchedulerCalls.PriorityScheduler.AgeClass` | backend/src/services/priority-scheduler.ts:289-317 | The loop over the members read at its start, with anything happening before each command |
| `SchedulerCalls.PriorityScheduler.ApplyAging` | backend/src/services/priority-scheduler.ts:286-329 | A run of the machine in which this pass ages HIGH, MEDIUM and LOW in turn |
| `SchedulerCalls.PiecesMakeBatch` | backend/src/services/priority-scheduler.ts:205-280 | The prefixes taken one class after the other are the batch of the size theorems |
| `RaftElection.OneLeaderPerTermIff` | packages/raft-consensus/src/raft-node.ts:141-349 | Over all interleavings of timeouts, vote requests, late and lost replies and heartbeats among n nodes: no term ever has two leaders exactly if elections count only votes of the present term, which the code does not check, or there is but one node |
| `RaftElection.TwoLeaders` | packages/raft-consensus/src/raft-node.ts:311-349 | The run of the code that fails, for every n of at least two: both nodes collect all votes in early terms, but late, and both become leaders of term 4 |
| `RaftElection.SafeUnlessStale` | packages/raft-consensus/src/raft-node.ts:311-349 | Run by run the code elects at most one leader per term as long as it counts no vote of an earlier term |
| `RaftElection.SafeStep` | packages/raft-consensus/src/raft-node.ts:141-349 | With that check each event keeps: one winner per term, elected by a majority that has voted for nobody else in it and will not |
| `RaftElection.GrantKeepsVotes` | packages/raft-consensus/src/raft-node.ts:141-174 | A vote given leaves each voter of an undecided term with a single vote |
| `RaftElection.ForgetKeepsVotes` | packages/raft-consensus/src/raft-node.ts:176-196 | A candidate that a heartbeat of its own term makes forget its vote is none of the leader's voters, so clearing the vote does no harm |
| `RaftElection.UndecidedBefore` | packages/raft-consensus/src/raft-node.ts:311-349 | An election won on votes of its own term is the first of that term, since two majorities share a voter |
| `RaftElection.RaftNode.constructor` | packages/raft-consensus/src/raft-node.ts:55-75 | A follower of term zero without a vote, its timer set |
| `RaftElection.RaftNode.ConvertToCandidate` | packages/raft-consensus/src/raft-node.ts:275-287 | The next term, a vote for itself, and a new round that waits for all peers |
| `RaftElection.RaftNode.HandleVoteRequest` | packages/raft-consensus/src/raft-node.ts:141-174 | The node after a vote request, and the term and vote that go back |
| `RaftElection.RaftNode.HandleAppendEntries` | packages/raft-consensus/src/raft-node.ts:176-196 | The node after a heartbeat: a follower of the same term keeps its vote |
| `RaftElection.RaftNode.CountVote` | packages/raft-consensus/src/raft-node.ts:311-349 | The node and the count after one reply, exactly as in the machine; it reports an election exactly if the node became leader |

## Left out

- CacheAgreesWithDatabase: assumes that each record is finished once, by its winner, as the service expects of its callers; `FinishingIsHarmlessIff` says which further complete or fail does harm.
- CompensationLeaves: assumes that no two unfinished sagas work on the same task; the two would write over each other.
- EveryEntryIsSomewhere: assumes that an id is submitted again only while queued and that `maxConcurrent` is not lowered, and makes no liveness claim, because an entry back from its backoff does not start processing.
- StaysByClassIff: needs a non-decreasing clock.
- LoadSucceedsIff: hooks and route or service factories do not throw in it; Register, Enable and Disable model a throwing hook.
- BatchFitsIff: shares are computed with exact percentages; the floating-point product gives one slot less for HIGH at 180, 340, 360 and some larger numbers of slots, which changes no bound stated here.
- GetNextBatch: members of equal score stay in insertion order, while Redis orders them by text; a Redis command that throws is not modelled, and would lose the tasks already removed by its call; statistics are left out.
- SeparateRunsHandOutOnce: about texts; `IdsStaySingleIff` is about task ids.
- OneLeaderPerTermIff: about elections only. Log replication, commit and the state machine are left out; whether a candidate's log is up to date is a parameter, and nodes do not restart, since persistence is a stub in the code.
- ProcessExactlyOnce: one consumer group, topic and partition; `sendExactlyOnce`, batch consumption, connection handling and statistics are left out, and the transaction is atomic as the broker promises.
- CheckAndRecord: the number of polls stands for the wait timeout; request hashes are computed by callers and payloads are opaque texts.
- RunSaga: of the saga engine (`packages/saga/src/saga-orchestrator.ts:150-330`) only forward execution and reverse compensation of the completed steps are modelled. Its step timeout rejects while `execute` runs on, its recovery re-runs the current step, and a failure of its own bookkeeping right after a step leaves that step uncompensated. Compensations do not throw, an absent event producer counts as a publish that succeeds, and the heartbeat route that overwrites tasksRunning is excluded.
- CountersFollowReservations: as a consequence of those exclusions, a reservation that a timed-out or re-run reservation step takes after its saga has moved on has no holder in the model; there tasksRunning stays too high by one.
- Handle: windows, limits and times are whole numbers.
- Execute: delays, jitter and the classification of errors as retryable are left out.
- HandleOpen: reconnect attempts and delays, ping timers and dispatch of incoming messages are left out; a connect may come at any time, and application messages other than subscriptions and pings are not sent.
- Deduplicate: `track`, statistics and the HTTP client around it are left out; keys and results are opaque.
- InitiateHealing: the clock does not move between the checks and the start, which run without an await; the actions themselves (Docker, kubectl) are foreign calls, and the history of the last hundred actions is not kept.
- Submit: `clear` and statistics are left out; priorities are scaled by 60000 so that ages are exact.
- The stored task records, positions and start-time estimates of the batch scheduler; submission, promotion and cancellation are the zadd and zrem they issue.
- Cluster load balancing (`src/lib/clustering.ts`) and the task worker (`src/workers/taskWorker.ts`): their accounting and minimum-load facts are easier members of the kind proved here.
- Routes, authentication, database schemas, UI, load tests, metrics and logging.
