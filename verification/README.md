# Spool, verified

Spool is a task queue on Redis: clients push tasks into one list per priority, workers pop
them, run a handler, and acknowledge, retry or dead-letter them; a pool of workers grows and
shrinks with the backlog. Every queue and storage call is several separate Redis commands, so
what the system guarantees is a matter of interleavings and crashes. This project models that
behaviour in Dafny and proves what holds of it in every run.

`dafny verify dfyconfig.toml` checks the whole project.

## How the model is organised

| part | modules |
|---|---|
| tasks, retry arithmetic, handlers | `Tasks`, `Backoff`, `Handlers` |
| Redis, one function per command; the queue class with failing commands | `Redis`, `RedisQueue` |
| the four lists as one stable priority queue | `PriorityOrder` |
| the queue/worker protocol, one Redis command per step, with crashes | `Protocol` |
| its invariant and what follows for every run | `Ownership`, `Safety`, `Counts`, `Progress`, `Drain`, `Outcomes`, `Reports` |
| the sequential worker, tied to the protocol's process | `Worker` |
| start and stop of a worker | `Lifecycle` |
| task storage and its state index | `StateIndex` |
| worker metrics, the pool, the auto-scaler, instrumented workers | `Metrics`, `Pool`, `Scaler`, `Instrumented` |
| the logger's JSON escaper | `Escape` |

Imperative code is modelled twice where it runs concurrently. The class (`Queue`, `Poller`,
`Storage`, `WorkerPool`, `AutoScaler`, `Collector`, `Wrapper`) has the source's loops and
updates and is proved against a function of the old state; the state machine splits the same
calls into the steps between which other processes can move. `Worker.SoloPollMatches`,
`StateIndex.UndisturbedIsAlone` and `Instrumented.UndisturbedIsSync` prove that a call left undisturbed does the same in both.

In `Protocol` any number of processes run; a process is a client or a worker. A step is one
Redis command with the in-memory work that follows it. Between any two commands a process may
crash for good, and processing keys may expire at any time. `track` and `log` record the
history of each submission; no step reads them. The main results there are: nothing is lost
under crashes (`NoLoss`, `DeletionIsLate`), each task is in one place
(`ExclusiveOwnership`) and succeeds at most once (`SuccessIsFinal`), counters balance (`Conservation`), attempts are bounded
(`BoundedAttempts`, `RunsAreBounded`), every fair schedule drains the queue
(`FairRunsDrain`), storage ends up agreeing with what happened (`TerminalAgreement`,
`TerminalIsAbsorbing`), and outputs, errors and reasons are those of the last attempt
(`CompletedHasItsOutput`, `DeadLetterNamesItsError`).

## Where the code does less than it seems to

Each of these is proved as an exact condition, beside the property it limits.

- `GetRetryDelay` overflows int64: it is min(1 s * 2^n, 5 min) exactly for n <= 33 and for
  n = 37, 41, 42, 45, 47, 50, 51, 53; from n = 55 on the delay is 0 and at n = 34 it is
  negative, which is no wait either (`RetryDelayMeetsFormula`).
- `handleTaskFailure` ignores a failed `EnqueueDLQ` and still deletes the task's data; a failed
  RPUSH while re-queueing deletes it as well (`FailureKeepsTask`).
- A failed `Enqueue` under an identifier already queued deletes the queued task's data
  (`FailedEnqueue`), and a `Dequeue` whose GET and whose LPUSH both fail, or that meets data it
  cannot decode, drops the identifier (`FailedDequeueRestores`).
- `SaveTask` never leaves the old state's set (`SaveKeepsExact`), so every successful task stays
  listed as processing (`WorkerPathIsNotExact`); expiry leaves index entries behind
  (`ExpiryKeepsExact`); a failing SADD, or a SET or DEL failing after an SREM, leaves a task out
  of the index (`SaveKeepsComplete`, `UpdateKeepsComplete`, `DeleteKeepsComplete`).
- `Stop` during `Start` can return nil before the run loop has even been launched
  (`NilReturnIsSound`, `EarlyStopReturnsTooSoon`).
- k overlapping `RemoveWorker` calls can bring the pool to min - (k - 1), below its minimum
  (`NeverBelowFloor`, `FloorIsReached`).
- The metrics counters drift on unknown or repeated worker identifiers (`RegisterKeepsAgree`,
  `UnregisterKeepsAgree`, `MarkIdleKeepsAgree`).
- Two overlapping removals of the same worker unregister it twice, and active stays one too low
  (`DoubleRemovalDrifts`, `MetricsFollowPool`).
- A `Stop` that overtakes a sync past its running check leaves an idle stamp for a worker that
  is gone (`OvertakenSync`, `AgreeExactlyIfNotOvertaken`).
- Idle counts win over backlog: no code outside its tests calls `MarkWorkerBusy`, so every
  worker of the pool counts as idle (`EverybodyIdle`), and a full pool with a flooded queue is
  scaled down after two long-idle evaluations (`FullPoolShrinks`, `FloodedEvaluation`).
- `escapeJSON` writes a line that is not JSON for control characters other than newline,
  return and tab (`EscapedMessageReadsBack`).

Where the documentation and the code differ, the model follows the code. The docs speak of
sorted sets, ZPOPMIN and MULTI/EXEC; the code uses RPUSH and LPOP and separate commands.
docs/data-structures.md lists delays of 1 s, 2 s, 4 s and 8 s and then 5 min from retry 4 on; the
worker, asking after the increment, waits 2 s, 4 s, 8 s and so on and reaches 5 min at the ninth
retry. docs/reliability.md says that a handler panic is recovered, but no code recovers it, and
that executions may be duplicated, while under crashes a success is final (`SuccessIsFinal`).

## Model

| member | source | states |
|---|---|---|
| `Safety.NoLoss` | internal/queue/redis.go:76-282 | in every reachable state, crashes included, a submitted task has its data with identifier, type, payload, priority and retry limit intact, or its handler has succeeded, or it is in the dead letter list |
| `Safety.DeletionIsLate` | internal/queue/redis.go:224-282 | whatever step removes a task's data, the handler had succeeded or the task was dead-lettered before that step |
| `Safety.OnlyAckAndNackDelete` | internal/queue/redis.go:224-262 | data disappears only by the DEL of Ack or of Nack without requeue, issued by a process holding that task |
| `Safety.ExclusiveOwnership` | internal/worker/worker.go:135-269 | an identifier occurs at most once in the four lists, is held by at most one process, is dead-lettered at most once, and is never listed while held or dead-lettered |
| `Safety.DeadLettersAreUnique` | internal/queue/redis.go:358-396 | dead letters have distinct identifiers and none of them is listed |
| `Safety.ListedHasData` | internal/queue/redis.go:95-106 | every listed identifier has stored data filed under it, with the priority of that list |
| `Safety.DequeueIsSound` | internal/queue/redis.go:132-174 | the "data not found" skip is unreachable, and a task handed out by an interleaved Dequeue was preceded, in that call, by finding every higher list empty |
| `Safety.UnlistedHasHolder` | docs/reliability.md:131-136 | data in no list is in the hands of a process, so only a crash strands a task |
| `Safety.DrainedMeansSettled` | internal/worker/worker.go:135-269 | with empty lists, no crash and nobody working, each task has succeeded or is dead-lettered, never both, and no data or processing key is left |
| `Safety.BoundedAttempts` | internal/worker/worker.go:135-269 | executions <= dequeues <= retry budget, which is MaxRetries + 1 for a fresh task |
| `Safety.DeadLetterIsExhausted` | internal/task/task.go:156-186 | a dead letter has used its whole budget, carries the final retry count, the submitted job and state dead_letter, and its handler has not succeeded |
| `Safety.SuccessIsFinal` | internal/worker/worker.go:189-203 | at most one successful execution: once the handler of a task has succeeded, no step executes it again or takes the success back, crashes included |
| `Safety.OnlyUnfinishedExecute` | internal/worker/worker.go:135-203 | a process about to execute a task holds one whose handler has not succeeded |
| `Safety.ProcessingHasData` | internal/queue/redis.go:160-168 | a processing key always points at stored data |
| `Ownership.ActionKeepsInv` | internal/queue/redis.go:76-282 | every single command, crash, submission or expiry keeps the ownership invariant |
| `Ownership.RunKeepsInv` | internal/queue/redis.go:76-282 | so does every run |
| `Counts.Conservation` | internal/queue/redis.go:285-297 | whenever no call is in progress: total = Size + completed + dead letters + retries; failed = dead letters = length of the dead letter list; processed = completed; failed attempts = retries + dead letters; submissions = Size + completed + dead letters |
| `Counts.ActionKeepsBooks` | internal/worker/worker.go:166-268 | every command keeps the balance that accounts for each call in progress |
| `Progress.RunsAreBounded` | internal/worker/worker.go:135-269 | in every run, crashes included, the working steps and the dequeues are bounded by the submissions alone, the dequeues by the sum of the retry budgets |
| `Progress.ActionRank` | internal/worker/worker.go:135-269 | every step that is not a look at an empty list strictly lowers a rank that only submissions raise |
| `Drain.FairRunsDrain` | internal/worker/worker.go:97-269 | after any run, every schedule that keeps giving each surviving process its turns drains the lists within a number of rounds fixed by the submissions, though processes crash and start and processing keys expire meanwhile; each task has then succeeded, is dead-lettered, or is held with its data by a crashed process, and without crashes exactly one of the first two |
| `Drain.RoundsDrain` | internal/worker/worker.go:97-269 | each fair round does work or leaves the system calm, and calm stays |
| `Drain.FruitlessMeansCalm` | internal/queue/redis.go:131-178 | if nobody works in a round although each surviving process has made a full lap of Dequeue, then all lists are empty and no live process holds a task |
| `Outcomes.TerminalAgreement` | internal/worker/worker.go:189-218 | stored as completed means a stored successful result; stored as dead_letter with a registered type means a stored failing result; no task is ever stored as failed |
| `Outcomes.TerminalIsAbsorbing` | internal/worker/worker.go:286-349 | once stored as completed or dead_letter, no step changes the record or its result |
| `Outcomes.DeadLetterWaited` | internal/worker/worker.go:206-237 | the sleeps in the history of a dead letter add up to 2^(m+1) - 2 s for m <= 8 and 510 + 300 (m - 8) s for m <= 33 |
| `Reports.CompletedHasItsOutput` | internal/worker/worker.go:286-349 | in every reachable state, a task stored as completed has a registered handler and a stored result whose output is what its last execution returned |
| `Reports.DeadLetterNamesItsError` | internal/worker/worker.go:254-268 | the error of a dead letter is the exhaustion text for the submitted limit and the error of its last attempt: the timeout, the handler's own message or the missing handler; its metadata, once written, repeats reason and retry count, and is written before the burial ends |
| `Reports.StoredWhileRunning` | internal/worker/worker.go:153-164 | while a handler runs, storage shows exactly that task as processing |
| `Reports.WaitingCarriesItsError` | internal/worker/worker.go:206-249 | a task listed for a retry carries the error of its last attempt, in the queue and, as retrying, in storage |
| `Reports.RunKeepsReports` | internal/worker/worker.go:135-350 | every run keeps what queue, storage, results and dead letters say about every task in line with its last attempt |
| `Worker.Poller.PollAndExecute` | internal/worker/worker.go:135-203 | one poll, with any queue command or storage write failing and any data undecodable, changes Redis, storage, results and counters as its specification says and reports no task, an error or success |
| `Worker.Poller.Process` | internal/worker/worker.go:154-203 | the same for the part after Dequeue |
| `Worker.Poller.Conclude` | internal/worker/worker.go:165-203 | the same for the part after the handler has returned |
| `Worker.Poller.HandleTaskFailure` | internal/worker/worker.go:206-269 | the same for a failed attempt: retry with re-Enqueue, or EnqueueDLQ and Nack; only a failed re-Enqueue or an empty identifier is reported |
| `Worker.StorageFaultsStayInStorage` | internal/worker/worker.go:153-222 | failing storage writes never change what a poll does to the queue and the counters; result and final record are stored if and only if their own writes get through |
| `Worker.SoloPollMatches` | internal/worker/worker.go:135-269 | from any state, an idle process of the protocol stepping alone ends idle with exactly the memory the sequential poll computes |
| `Worker.FailureKeepsTask` | internal/worker/worker.go:206-269 | exactly which failing commands lose the task after a failed attempt |
| `Worker.BurialKeepsTask` | internal/worker/worker.go:260-268 | a burial keeps the task if and only if the RPUSH to the dead letter list got through or the DEL did not |
| `Worker.RetryKeepsTask` | internal/queue/redis.go:95-106 | a re-Enqueue keeps the task unless SET and clean-up DEL got through and RPUSH did not |
| `RedisQueue.Queue.Enqueue` | internal/queue/redis.go:76-113 | succeeds if and only if SET and RPUSH get through, then with the identifier at the end of its list, the task stored and the count raised; otherwise nothing but the data may differ |
| `RedisQueue.Queue.Dequeue` | internal/queue/redis.go:116-178 | the loop over the four lists computes the recursive specification, failing commands, orphaned heads and undecodable data (which it deletes) included |
| `RedisQueue.Queue.Peek` | internal/queue/redis.go:181-221 | likewise, without changing anything |
| `RedisQueue.Queue.Ack` | internal/queue/redis.go:224-241 | refuses only the empty identifier; the new state for every pattern of failing commands |
| `RedisQueue.Queue.Nack` | internal/queue/redis.go:244-282 | both branches, with the failures and the undecodable data that make requeueing report an error |
| `RedisQueue.Queue.EnqueueDLQ` | internal/queue/redis.go:358-396 | succeeds if and only if RPUSH gets through; then the last dead letter is this job with this retry count and reason, and metadata and counter follow their own commands |
| `RedisQueue.Queue.Size` | internal/queue/redis.go:285-297 | the accumulated total is the sum of the four lengths if all four commands get through, and an error otherwise |
| `RedisQueue.Queue.Purge` | internal/queue/redis.go:315-342 | what is gone and what is left for every order of the lists and every command at which it stops; dead letters and statistics stay |
| `RedisQueue.Queue.PurgeLists` | internal/queue/redis.go:316-322 | its first loop: the lists emptied before the first failure, and the error |
| `RedisQueue.Queue.PurgeData` | internal/queue/redis.go:324-328 | its second: exactly the keys whose DEL got through are gone |
| `RedisQueue.Queue.PurgeProcessing` | internal/queue/redis.go:333-337 | its third: likewise for the processing keys |
| `PriorityOrder.PurgeLeavesNoOrphans` | internal/queue/redis.go:315-342 | wherever a Purge stops, it leaves no identifier listed without its data; one that runs through empties lists, data and processing keys |
| `PriorityOrder.Best` | internal/queue/redis.go:131-136 | the first task of greatest priority: none is greater, and every earlier one is smaller |
| `PriorityOrder.EnqueueSimulates` | internal/queue/redis.go:76-113 | Enqueue appends to the single sequence that the lists represent |
| `PriorityOrder.DequeueSimulates` | internal/queue/redis.go:116-178 | Dequeue takes the first task of greatest priority out of that sequence and nothing else, or reports that there is none |
| `PriorityOrder.HistoriesAgree` | internal/queue/redis.go:76-241 | every history of Enqueue, Dequeue and Ack calls hands out, call by call, what one stable priority queue hands out |
| `PriorityOrder.DrainOrder` | internal/queue/redis.go:116-178 | as many Dequeue calls as tasks are waiting hand out all of them, by descending priority, and for each priority exactly its list in order |
| `PriorityOrder.PeekIsNextDequeue` | internal/queue/redis.go:181-221 | in any server state, orphaned heads and undecodable data included, and whichever commands fail, Peek returns what Dequeue would return instead |
| `PriorityOrder.DequeueByCases` | internal/queue/redis.go:131-178 | what Dequeue returns in any state and for any failing commands, by the first non-empty list: error, nothing, or the task of its head, and then exactly that head is gone |
| `PriorityOrder.FailedDequeueRestores` | internal/queue/redis.go:132-163 | in any server state, a Dequeue that reports an error left everything unchanged if and only if an LPOP up to the first non-empty list failed, or the GET of its head failed and the undoing LPUSH got through |
| `PriorityOrder.FailedEnqueue` | internal/queue/redis.go:95-106 | a failed Enqueue left no trace if and only if the SET failed, or the clean-up got through and the identifier was new, or the clean-up failed and the same data was there |
| `PriorityOrder.NackRequeuesAtBack` | internal/queue/redis.go:262-282 | Nack with requeue of a dequeued task puts it at the back of its priority |
| `Tasks.FailingRun` | internal/task/task.go:137-186 | a task whose attempts fail with any sequence of messages is retrying after every attempt but the last of its budget and dead_letter from then on, with the final retry count, and carries the last message |
| `Tasks.TaskObject.MarkFailed` | internal/task/task.go:170-186 | records the error, decides on the old counter, then moves the counter, and changes nothing else of the job |
| `Tasks.ReasonIsUnambiguous` | internal/worker/worker.go:259-259 | two dead letter reasons with the same text name the same retry limit, negative ones included, and the same last error |
| `Backoff.RetryDelayMeetsFormula` | internal/task/task.go:144-153 | the int64 computation equals min(1 s * 2^n, 5 min) if and only if n <= 33 or n is one of eight larger counts |
| `Backoff.DelayMonotoneUpTo33` | internal/task/task.go:144-153 | delays are positive, capped and never shrink up to n = 33, and n = 34 is negative |
| `Backoff.NegativeCountDoesNotWait` | internal/task/task.go:144-153 | every negative counter gives a zero delay |
| `Backoff.TotalBackoff` | internal/worker/worker.go:206-237 | closed form of the total wait for m retries, with the delay asked for after the increment |
| `Handlers.Registry.Register` | internal/task/handler.go:62-72 | refuses a type that is registered and changes nothing then; otherwise adds exactly that handler |
| `Handlers.Registry.Execute` | internal/task/handler.go:100-131 | by what the handler of the task's type returns for its payload: its output in a successful result, or its error in a failing one and returned; without a handler no result and an error that names the type |
| `Handlers.VerdictFollowsError` | internal/worker/worker.go:272-350 | the saved result succeeds if and only if no error is returned, so "not successful but no error" is unreachable; no result is saved only for an unregistered type within its deadline |
| `Handlers.VerdictNamesTheError` | internal/worker/worker.go:286-350 | for every registry, task and deadline, which error and which output: the timeout if the deadline has passed, otherwise the handler's own message or that there is no handler; the output of a success is the handler's |
| `Handlers.TimeoutMeansLate` | internal/worker/worker.go:288-312 | a failure is reported as a timeout if and only if the deadline has passed, unless a handler fails with that text itself |
| `Handlers.VerdictOfAttempt` | internal/worker/worker.go:272-350 | executeTask's result and error as functions of what the attempt met |
| `Lifecycle.AtMostOneClose` | internal/worker/worker.go:353-397 | in every interleaving the shutdown channel is closed at most once and at most one Stop or Shutdown gets past the running check |
| `Lifecycle.NilReturnMeansExited` | internal/worker/worker.go:76-132 | if all calls come after Start returned, a nil return means the run loop has exited |
| `Lifecycle.NilReturnIsSound` | internal/worker/worker.go:353-397 | a call about to return nil finds the loop gone if and only if Start has returned by then |
| `Lifecycle.EarlyStopReturnsTooSoon` | internal/worker/worker.go:76-95 | a run in which Stop returns nil and the loop starts afterwards |
| `StateIndex.Storage.SaveTask` | internal/storage/redis_store.go:38-62 | record and set membership after every pattern of failing commands, and the error; empty identifiers refused |
| `StateIndex.Storage.GetTask` | internal/storage/redis_store.go:65-85 | the stored record, or an error for an empty, missing, unreadable or undecodable one |
| `StateIndex.Storage.UpdateTaskState` | internal/storage/redis_store.go:88-108 | which of SREM, SET and SADD took effect for every pattern of failures; a failed SREM is not reported |
| `StateIndex.Storage.DeleteTask` | internal/storage/redis_store.go:185-211 | index entry, record and result after every pattern of failures; only GET and the DEL of the record report theirs |
| `StateIndex.Storage.GetTasksByState` | internal/storage/redis_store.go:153-182 | returns exactly the existing, readable records of the members the server picked, each once; with a complete index, no limit and nothing unreadable, every task in that state; with an exact index, only tasks in that state |
| `StateIndex.QuietIndexIsComplete` | internal/storage/redis_store.go:38-108 | for every interleaving of the commands of SaveTask, UpdateTaskState, DeleteTask and expiry, whenever no call is half done every stored task is in the set of its state |
| `StateIndex.MissingMeansHalfDone` | internal/storage/redis_store.go:38-211 | at any moment a stored task missing from its set has a call under way that will write, erase or index it |
| `StateIndex.UndisturbedIsAlone` | internal/storage/redis_store.go:38-211 | the commands of a call left undisturbed do what the call does as a whole |
| `StateIndex.SavedReadsBack` | internal/storage/redis_store.go:38-85 | what SaveTask reports as saved is read back and listed under its state; a failed one leaves the old record or the new; nothing else changes |
| `StateIndex.UpdatedReadsBack` | internal/storage/redis_store.go:88-108 | what UpdateTaskState reports as updated reads back with that state and everything else as before, listed under the new state and, if SREM got through, not under the old |
| `StateIndex.DeletedIsGone` | internal/storage/redis_store.go:185-211 | what DeleteTask reports as deleted is gone with its index entry and result as far as those commands got through; a failed one keeps the record |
| `StateIndex.WithoutFaults` | internal/storage/redis_store.go:38-211 | when every command gets through, the calls are the ones whose exactness is proved below |
| `StateIndex.SaveKeepsComplete` | internal/storage/redis_store.go:49-59 | SaveTask keeps the index complete unless its SET got through and its SADD did not, with the task not in that set before |
| `StateIndex.UpdateKeepsComplete` | internal/storage/redis_store.go:94-108 | UpdateTaskState keeps it complete if and only if, when SET failed, SREM failed too, and otherwise SADD got through or the task was in the new set and stays there |
| `StateIndex.DeleteKeepsComplete` | internal/storage/redis_store.go:185-211 | DeleteTask keeps it complete unless SREM got through and the DEL did not |
| `StateIndex.SaveKeepsExact` | internal/storage/redis_store.go:55-59 | SaveTask keeps the index exact if and only if the task is new or keeps its state |
| `StateIndex.UpdateKeepsExact` | internal/storage/redis_store.go:88-108 | UpdateTaskState keeps the index exact |
| `StateIndex.DeleteKeepsExact` | internal/storage/redis_store.go:185-211 | DeleteTask keeps the index exact |
| `StateIndex.ExpiryKeepsExact` | internal/storage/redis_store.go:45-52 | expiry of a record breaks exactness whenever there was a record |
| `StateIndex.SequentialHistoryIsExact` | internal/storage/redis_store.go:38-211 | sequential histories that never save a stored task into another state keep the index exact |
| `StateIndex.WorkerPathIsNotExact` | internal/worker/worker.go:153-200 | saving a task as processing and then as completed leaves it in both sets |
| `Metrics.Collector.RegisterWorker` | internal/monitoring/metrics.go:213-236 | counters, statistics and idle stamp after registration |
| `Metrics.Collector.UnregisterWorker` | internal/monitoring/metrics.go:239-257 | counters and maps after removal, by whether the worker was idle |
| `Metrics.Collector.MarkWorkerBusy` | internal/monitoring/metrics.go:260-276 | moves one worker from idle to busy only if it was idle |
| `Metrics.Collector.MarkWorkerIdle` | internal/monitoring/metrics.go:293-314 | moves one worker from busy to idle unless it is idle already |
| `Metrics.Collector.RecordWorkerTaskCompleted` | internal/monitoring/metrics.go:317-334 | one more completed or failed task for a known worker, nothing for an unknown one |
| `Metrics.Collector.OldestIdleTime` | internal/monitoring/metrics.go:344-356 | the idle time of some idle worker, at least that of every other; 0 if none is idle |
| `Metrics.RegisterKeepsAgree` | internal/monitoring/metrics.go:213-236 | registering keeps counters equal to cardinalities if and only if the worker is new |
| `Metrics.UnregisterKeepsAgree` | internal/monitoring/metrics.go:239-257 | unregistering keeps them if and only if the worker is registered |
| `Metrics.MarkBusyKeepsAgree` | internal/monitoring/metrics.go:260-276 | marking busy always keeps them |
| `Metrics.MarkIdleKeepsAgree` | internal/monitoring/metrics.go:293-314 | marking idle keeps them if and only if the worker is registered |
| `Metrics.DisciplineKeepsAgree` | internal/monitoring/metrics.go:213-334 | every call sequence that registers only new and unregisters or idles only known workers keeps active, idle and busy equal to the set sizes |
| `Metrics.BalanceAlways` | internal/monitoring/metrics.go:213-334 | active = idle + busy after any sequence of calls at all |
| `Metrics.IdleIsNeverNegative` | internal/monitoring/metrics.go:213-314 | after any sequence of calls at all, unknown and repeated identifiers and Reset included, the idle counter is not negative |
| `Metrics.IdleCoversStamps` | internal/monitoring/metrics.go:213-314 | the idle counter never falls below the number of idle stamps |
| `Metrics.StampsAreIdleTimes` | internal/monitoring/metrics.go:213-314 | after any sequence of calls, a worker's idle stamp is the time of its latest RegisterWorker or of its latest MarkWorkerIdle that found it not idle, and there is none once it was marked busy or unregistered |
| `Metrics.OldestIdleIsReal` | internal/monitoring/metrics.go:344-356 | so the oldest idle time reported never exceeds the time since the first such call |
| `Metrics.TimeIsAccounted` | internal/monitoring/metrics.go:213-314 | under the discipline, idle time, busy time and the current spell of a worker make up its life since registration |
| `Metrics.IdleWithinActive` | internal/monitoring/metrics.go:337-341 | when counters and sets agree, 0 <= idle <= active |
| `Metrics.EverybodyIdle` | internal/monitoring/metrics.go:213-314 | as long as nobody calls MarkWorkerBusy, disciplined calls leave idle = active and busy = 0 |
| `Metrics.Collector.Reset` | internal/monitoring/metrics.go:593-617 | counters and maps are those of a new collector |
| `Pool.WorkerPool.constructor` | internal/worker/pool.go:57-88 | the bounds are clamped to 1 <= min <= max and the pool is empty |
| `Pool.WorkerPool.Start` | internal/worker/pool.go:91-110 | adds min workers as far as max allows, so an empty pool gets exactly min |
| `Pool.WorkerPool.AddWorker` | internal/worker/pool.go:113-146 | fails if and only if the pool is full; otherwise adds one worker under a new number and registers it |
| `Pool.WorkerPool.RemoveWorker` | internal/worker/pool.go:149-190 | succeeds if and only if the worker exists and the pool is above min; removes and unregisters exactly it |
| `Pool.WorkerPool.GetIdleWorker` | internal/worker/pool.go:200-210 | finds a worker marked idle if and only if there is one |
| `Pool.NeverOverMaxNeverReused` | internal/worker/pool.go:113-146 | in every interleaving the pool stays at or below max and no worker number comes back |
| `Pool.NeverBelowFloor` | internal/worker/pool.go:149-190 | with at most k removals between check and deletion at a time, the pool never falls below min - (k - 1) |
| `Pool.FloorIsReached` | internal/worker/pool.go:149-190 | for every set of k workers there is such an overlap that removes all of them, so the floor is exact |
| `Pool.MetricsFollowPool` | internal/worker/pool.go:134-185 | through every interleaving, overlapping removals of one worker included: active = workers + removals deleted but not yet unregistered - deletions of a worker already deleted; the counters agree with their maps as long as there was no such deletion, and with no removal half done only then |
| `Pool.DistinctRemovalsDoNotDrift` | internal/worker/pool.go:149-190 | there is none if no removal of a worker starts while another of the same worker is under way |
| `Pool.DoubleRemovalDrifts` | internal/worker/pool.go:149-190 | for any worker above the minimum, a run in which two removals of it both succeed and active drops by two |
| `Scaler.ScaleUpTargetBounds` | internal/monitoring/scaler.go:266-286 | for every depth, wrapping int32 narrowing included, the target is above current, at most max and at most current/2 + 1 higher |
| `Scaler.ScaleDownTargetBounds` | internal/monitoring/scaler.go:289-308 | the target is in [min, current) if and only if the idle count is positive or overflows the subtraction; it drops at most max(1, current/4) |
| `Scaler.ScaleUpTargetIs` | internal/monitoring/scaler.go:266-286 | where nothing wraps, exactly min(max, current + min(current/2 + 1, max(1, depth/50))) |
| `Scaler.ScaleDownTargetIs` | internal/monitoring/scaler.go:289-308 | for a positive idle count, exactly max(min, current - min(idle, max(1, current/4))) |
| `Scaler.GrowsExactly` | internal/monitoring/scaler.go:202-229 | for every depth, an evaluation grows the pool if and only if it is not full, the up-cooldown is over, and the depth exceeds the threshold, or ten per worker in int32, or 0 with nobody idle |
| `Scaler.ShrinksExactly` | internal/monitoring/scaler.go:232-263 | it shrinks the pool if and only if it does not grow it, the pool is above min, somebody is idle, the down-cooldown is over, and somebody is long idle for the second time, or nobody is, the queue is empty and half the workers are idle |
| `Scaler.EmptyQueueDoesNotGrow` | internal/monitoring/scaler.go:202-229 | an empty queue grows the pool if and only if ten times its size wraps below zero, so never for sizes up to 214748364 |
| `Scaler.BacklogGrows` | internal/monitoring/scaler.go:202-229 | below max and cooled, a depth above the threshold grows the pool, and so does any waiting task with nobody idle |
| `Scaler.ModestQueueDoesNotGrow` | internal/monitoring/scaler.go:202-229 | with somebody idle, a depth within the threshold and ten per worker does not |
| `Scaler.GrowthIsMonotone` | internal/monitoring/scaler.go:202-286 | a greater depth grows whatever a smaller one grows, at least as far where nothing wraps |
| `Scaler.CountsLongIdleness` | internal/monitoring/scaler.go:232-263 | when the count of long-idle evaluations is raised, kept and reset, by what the evaluation saw |
| `Scaler.AutoScaler.ShouldScaleDown` | internal/monitoring/scaler.go:232-263 | the answer and the idle count, by the branch taken |
| `Scaler.AutoScaler.MakeDecision` | internal/monitoring/scaler.go:168-199 | the decision and the memory afterwards; LoopSafety says what they guarantee |
| `Scaler.AutoScaler.AddWorkers` | internal/monitoring/scaler.go:323-338 | the pool grows by the count as far as max allows, and the refusals are counted |
| `Scaler.AutoScaler.RemoveWorkers` | internal/monitoring/scaler.go:353-374 | the pool shrinks by the count as far as min allows, and the refusals are counted |
| `Scaler.AutoScaler.Execute` | internal/monitoring/scaler.go:311-387 | the pool ends at the desired size clamped to its bounds, an error is reported exactly when that differs, and the cooldown stamps are set |
| `Scaler.AutoScaler.Evaluate` | internal/monitoring/scaler.go:137-165 | fails without any change if the queue depth cannot be read; otherwise decides on the metrics as they are, and the pool then has exactly the decided size, within its bounds, without error |
| `Scaler.DecisionInBounds` | internal/monitoring/scaler.go:168-199 | every decision stays in [min, max] and moves in its own direction |
| `Scaler.LoopSafety` | internal/monitoring/scaler.go:202-263 | in every run: size in [min, max], scale-ups 30 s apart, scale-downs 2 min apart, consecutiveIdle = long-idle evaluations since the last reset, and no long-idle scale-down without an earlier one |
| `Scaler.EvaluationKeepsLoop` | internal/monitoring/scaler.go:340-380 | one evaluation keeps all of these |
| `Scaler.FloodedTarget` | internal/monitoring/scaler.go:266-286 | under a backlog of 50 tasks per allowed worker the target is min(max, current + current/2 + 1) |
| `Scaler.GrowthIsGeometric` | internal/monitoring/scaler.go:266-286 | k scale-ups under such backlogs give max or at least (3/2)^k times the first size |
| `Scaler.FloodedRunGrows` | internal/monitoring/scaler.go:202-308 | in every run that finds such backlogs, at whatever intervals and whoever is idle, after u scale-ups and d scale-downs the size times 2^d is at least max or (3/2)^u times the first size |
| `Scaler.FloodedRunGrowsInTime` | internal/monitoring/scaler.go:202-308 | if evaluations end at most P apart, after k (30 s + 2 P) the size times 2^d is at least max or (3/2)^k times the first size |
| `Scaler.FloodedRunNeverShrinks` | internal/monitoring/scaler.go:232-263 | d is 0, and a full pool stays full, if nobody idle has been idle for long at any evaluation |
| `Scaler.DownsAreRare` | internal/monitoring/scaler.go:232-263 | in every run d scale-downs take at least (d - 1) times 2 min |
| `Scaler.FloodedEvaluation` | internal/monitoring/scaler.go:168-263 | under such a backlog an evaluation grows the pool if and only if it is not full and the up-cooldown is over, and shrinks it if and only if it is above min and full or cooling, the down-cooldown is over, and somebody is long idle for at least the second time; growth is by half or to max, and at least half is kept |
| `Scaler.FullPoolShrinks` | internal/monitoring/scaler.go:232-263 | a full pool with a backlog of 50 tasks per worker loses workers after any two evaluations that find somebody long idle |
| `Instrumented.Wrapper.Sync` | internal/worker/instrumented.go:41-83 | one sync step that nothing disturbs pushes exactly the growth of the counters, remembers it and marks the worker idle, or does nothing |
| `Instrumented.NothingInventedNothingTwice` | internal/worker/instrumented.go:29-97 | in every interleaving of finished tasks with the single metrics calls of syncs, Start and Stop: the global counter is the sum of what was pushed, each registered worker is shown with what was pushed for it, nobody pushed more than it did; between syncs both are what the syncs remember |
| `Instrumented.AgreeExactlyIfNotOvertaken` | internal/worker/instrumented.go:41-97 | idle stamps and registrations agree unless Stop unregistered a worker between the running check and the MarkWorkerIdle of a sync, and once syncs have ended, only then |
| `Instrumented.OvertakenSync` | internal/worker/instrumented.go:62-97 | such a run: no worker active, one counted idle, busy at -1 |
| `Instrumented.UndisturbedIsSync` | internal/worker/instrumented.go:41-83 | the single steps of a sync, left alone, do what Sync does as a whole |
| `Escape.FivePassesAreOne` | internal/logger/logger.go:245-252 | the five ReplaceAll passes equal one character-by-character map |
| `Escape.EscapedMessageReadsBack` | internal/logger/logger.go:245-252 | a quoted escaped message reads back, by section 7 of RFC 8259, as the message with the rest of the line intact, if and only if it has no control character other than newline, return and tab; otherwise it is not JSON |
| `Escape.MessageStaysQuoted` | internal/logger/logger.go:245-252 | whatever its characters, a quoted escaped message ends at its own closing quote and nowhere before |
| `Escape.NoRawBreaks` | internal/logger/logger.go:245-252 | no raw newline, return or tab is left |
| `Escape.EscapeIsInjective` | internal/logger/logger.go:245-252 | different messages have different escaped texts |

## Left out

- The HTTP broker, the web dashboard, the commands and the examples: plumbing around the core.
- The Redis client, connections, timeouts and JSON encoding: a task reads back as it was written; data somebody else made undecodable appears in `RedisQueue`, `Worker` and `StateIndex`, not in the protocol.
- `SizeByPriority`, `GetDLQSize`, `GetDLQTasks`, `GetResult` and the last_enqueue and last_dequeue stamps: one command each.
- Throughput, percentiles, depth history, `tasksInProgress`, the decision history, logger levels: no invariant of the code speaks about them.
- Time stamps and schedule times on tasks, and the duration in the timeout message.
- Nil arguments, workers without storage and pools without metrics.
- Submissions use fresh, non-empty identifiers and priorities 0 to 3: with another priority the code pushes to the key "", and a second submission of a live identifier overwrites its data.
- RetryCount, MaxRetries and the int32 and int64 counters are unbounded integers, except in `Backoff` (int64) and `Scaler` (int32), where the width decides the result.
- Safety.NoLoss: the fault model of the protocol is crashes, not failing commands; failing commands are in `RedisQueue`, `PriorityOrder` and `Worker`.
- Outcomes.TerminalAgreement: storage records, results and dead letter metadata do not expire in the protocol; expiry is in `StateIndex`.
- Scaler.AutoScaler.Evaluate: nobody else drives the pool while it runs.
- Scaler.LoopSafety: the idle counts of a run are any that an int32 gauge can hold and `Metrics.IdleIsNeverNegative` allows; `ScaleDownTargetBounds` says what a negative one would do.
- Scaler.AutoScaler.AddWorkers: the workers added together get one time stamp, not one each.
- Scaler.AutoScaler.Execute: the decision moves in its own direction, as `DecisionInBounds` guarantees for every decision made.
- Pool.WorkerPool.RemoveWorker: the class handles one call at a time, with the shutdown in between (whose error the code only logs) taken as done; overlapping calls are the state machine in the same module.
- Lifecycle.AtMostOneClose: the worker is started once; starting it again after a stop is not supported by the code.
- Escape.EscapedMessageReadsBack: the reader does not follow escapes of surrogate code points, which the escaper never writes.
- Waiting in `Pool.Shutdown`, restarting an `AutoScaler`, and handler panics, which end the process.
