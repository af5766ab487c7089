# A verified model of TickHook

TickHook stores webhook jobs in Redis, polls for due ones with a single scheduler goroutine, and executes them in a
pool of workers. This project models that life of a job in Dafny and proves what holds of it over whole runs, under
every interleaving, with store calls that fail, crashes, restarts and shutdown.

## How the model is built

- `Protocol.dfy` is the state machine: the store, the scheduler, the bounded queue, the workers with their program
  counters and loaded copies, the semaphores and the lock around `domainSems`, and main's shutdown sequence. A label is
  one atomic action of one participant, and `Apply` is its effect; UpdateJob and AddToSchedule are two labels. All
  nondeterminism is in the labels: who moves, whether a store call takes effect and whether its reply arrives
  (`Net`), what clocks and the random source say, what the webhook answers. `Run` follows a sequence of labels. Two
  components are history only: `born`, each job as created, and `log`, the requests sent and the outcomes seen.
- `Lifecycle.dfy` holds the decisions of the outcome handlers as functions, and `Folded`, the job one gets by applying
  the outcomes of its executions one after the other.
- `Pool`, `Claims`, `Records`, `RecordsProofs`, `Limits` and `Safety` hold the invariant (claims, records, semaphores,
  shutdown) and its preservation; `Safety`, `Finality`, `Losses`, `Outcomes`, `Liveness`, `Shutdown`, `Timing`,
  `CatchUp`, `Backlog` and `ErrorRecord` state what follows for runs. `Witness.dfy` has runs that reach surprising
  states.
- `Codec.dfy`, `Decimal.dfy`, `DueIndex.dfy` and `RedisStore.dfy` model the store as it is: hashes of text under HSET,
  and a sorted set with float64 scores. `Simulation.dfy` proves that in every run this store reads back as the map of jobs
  the state machine speaks of.
- `Binary64.dfy` and `Util.dfy` are the float64 arithmetic: IEEE 754-2008 rounding of integers, and the retry backoff.
- `RedisStore.dfy`, `Executor.dfy`, `Scheduler.dfy`, `Requests.dfy` contain the imperative code: the store's methods, the
  handlers, executeJob, the poll loop, validation and the creating and deleting handlers, each proved against the
  specification functions. `Refinement.dfy` shows that what ExecuteJob and Poll do to the text store is what a worker
  and the scheduler can do, label by label, to the map of jobs; `Conformance.dfy` that in every run, however the
  participants interleave, each execution and each poll does what ExecuteJob and Poll do.

A store call is one atomic step that succeeds, or takes effect but reports an error, or fails without effect. IDs are
fresh at creation. Batch, MaxInflight and MaxPerDomain are positive. URL parsing, upper-casing and the JSON encoders are
parameters; the encoders are inverse to their decoders and never produce the empty string. The RWMutex keeps new readers
out once a writer has asked for it, as Go's does.

After the signal the client refuses calls on the cancelled context, but one that was under way may still succeed. So
`Enabled` lets the store calls of workers and scheduler succeed or fail after the signal, which is what the statements
about every run need, except that a poll then fetches nothing. `Heeds` singles out the runs in which every such call is
refused; statements that something can happen give a run of this kind.

## What the code does where its documentation says otherwise

- README.md:319 and docs/ARCHITECTURE.md:195-203 promise at-least-once delivery. The code sends a request at most once
  for each attempt number (`AtMostOncePerAttempt`) and can lose a job. `LossIff` and `LostIff` say exactly which steps
  do so, `LossHappens` is a run that does, and a crash loses exactly the jobs claimed at that instant
  (`CrashLosesTheClaimed`).
- README.md:210 says a recurring job always schedules its next run. One that runs out of attempts is stored as failed
  and never runs again (`FailedForever`, `HowPendingEnds`).
- docs/INTERNALS.md:136-145 lists the statuses that are retried. The executor retries every status outside 200-299 and
  400-499, and 429 (`RetryBranchVersusClassifier`).
- docs/INTERNALS.md:76-78 has a worker load the job before it acquires the global semaphore. It acquires first.
- docs/INTERNALS.md:156 shows a Mutex around the semaphore map. It is an RWMutex with double-checked creation.
- docs/INTERNALS.md:101-104 ties the next due time to the previous one. A retry overwrites the due time, so a recurring
  job's phase starts anew there (`RecurringPhase`).
- The record of the last error is cleared in the job after a success but not in the store (`StaleAfterSuccess`). Message
  and status code may stem from different executions (`LastErrors`), and a DELETE that a worker undoes wipes what was on
  record before (`ErrorsOnRecord`, `UndoneDeleteForgets`).
- The shutdown may never finish: at the signal it can get stuck exactly if the scheduler waits on a full queue
  (`StrandIff`).
- Float64 scores answer correctly up to but not including 2^53 milliseconds: at 2^53 a job due one millisecond later
  already counts as due (`ScoresInexactAtTwo53`, `ScoresExactIff`).

## Model

| member | source | states |
|---|---|---|
| Safety.InvStep | internal/executor/executor.go:82-333 | every label, faults, crash and shutdown included, keeps the combined invariant of claims, records, semaphores and shutdown |
| Safety.ClaimUniqueness | internal/scheduler/scheduler.go:76-98 | in every reachable state an ID has at most one claim, a claimed ID is neither scheduled nor in the rest of the batch, and two requests for one job never overlap |
| Safety.AtMostOncePerAttempt | internal/executor/executor.go:259-289 | whatever crashes and fails, the requests for a job since its last success carry attempt numbers 0, 1, 2, ... each once, at most MaxAttempts; for a one-shot job these are all requests ever sent |
| Safety.RecordIsFold | internal/executor/executor.go:219-310 | the stored record of a job that can still run (scheduled, queued, in the scheduler's hand, or with a worker that has not sent its request) is the fold of its outcomes, as if they had come one after the other without faults; it is pending with attempts left |
| Finality.FailedRecordIsFold | internal/executor/executor.go:264-305 | the stored record of a failed job is the fold of its outcomes, too |
| Safety.ConcurrencyLimits | internal/executor/executor.go:43-58 | there are MaxInflight workers and at most 2 * MaxInflight queued IDs; requests under way never exceed MaxPerDomain for a domain nor MaxInflight in all, and the global acquire never blocks |
| Limits.OneSemaphorePerDomain | internal/executor/executor.go:313-333 | double-checked creation gives all who wait or call for a domain one and the same semaphore, and different domains different ones |
| Limits.SemsCountedStep | internal/executor/executor.go:131-138 | the occupancy of every domain semaphore stays equal to the number of workers that hold it |
| Limits.LimitsHold | internal/executor/executor.go:43-45 | the limits follow from the counters in any state that satisfies the invariant |
| Safety.IndexAgreement | internal/store/redis.go:61-67 | a job both stored and scheduled has the float64 of its stored due time as its score, and is not failed |
| Finality.FailedForever | internal/executor/executor.go:264-273 | a job stored as failed, one-shot or recurring, is never scheduled and never sent again, in any continuation |
| Finality.HowPendingEnds | internal/executor/executor.go:222-229 | a pending job ceases to be one only by DELETE, by the removal of a one-shot job whose last outcome was a success, or by being stored as failed |
| Losses.LossIff | internal/executor/executor.go:101-136 | in every reachable state a step makes a job pending, unscheduled and unclaimed exactly if it is one of these: a ZREM of it that takes effect unheard, a failed load, a failed update or an unheard one before a rescheduling, a failed rescheduling or removal, its holder quitting on the signal, or a crash while it is claimed |
| Losses.LostIff | internal/scheduler/scheduler.go:88-99 | after any run a job is pending but will never run again exactly if some step of the run was a losing one for it and no later step was a DELETE of it |
| Losses.LostForever | internal/scheduler/scheduler.go:89-91 | what is lost is never scheduled and never sent again |
| Losses.NothingLost | internal/scheduler/scheduler.go:88-98 | in runs without store errors, crash or shutdown a pending job is scheduled exactly when it is not claimed, and has at most one claim |
| Losses.LossHappens | internal/scheduler/scheduler.go:92-95 | one lost reply to a ZREM suffices to lose a job that was never sent |
| Outcomes.DeleteFinalIff | internal/httpapi/handlers.go:122-137 | a DELETE is permanent, in all continuations in which calls after the signal are refused, exactly when the signal has come or no worker holds a loaded copy it may still write back |
| Outcomes.DeletedIsSilent | internal/executor/executor.go:115-119 | after a DELETE that finds no such copy no record returns and no request is sent for the job, in any continuation, wherever its ID still lingers |
| Outcomes.CanWriteBack | internal/executor/executor.go:242-281 | while the process serves, a worker with a loaded copy can bring a deleted record back, from any state of the other workers |
| Outcomes.CrashLosesTheClaimed | internal/scheduler/scheduler.go:89-91 | a crash in a fault-free run strands exactly the pending jobs claimed at that instant, at most 3 * MaxInflight + 1, for good; the rest of the batch stays scheduled |
| Liveness.DeadlockFree | internal/executor/executor.go:82-143 | while the process serves, no worker can act exactly when the queue is empty and all workers are idle |
| Liveness.WeightDrops | internal/executor/executor.go:82-143 | every action of the process other than a poll lowers a measure |
| Liveness.InternalRunsEnd | internal/executor/executor.go:82-143 | so a run of the process's own actions is no longer than the measure says |
| Liveness.InternalRunsRest | internal/executor/executor.go:82-143 | and while the process serves it cannot go on exactly if queue and batch are empty, every worker is idle and the scheduler waits for its tick |
| Liveness.ShutdownOutcome | cmd/tickhook/main.go:91-107 | after the signal the process is at rest exactly when main has finished, or in the one stuck state: scheduler blocked in Dispatch on a full queue, all workers gone |
| Liveness.NoSendOnClosedQueue | internal/executor/executor.go:62-79 | no reachable state lets Dispatch send on the closed queue, nor take its stop branch |
| Shutdown.StrandIff | internal/executor/executor.go:73-90 | from a reachable serving state the signal can lead, without a crash, to the stuck state exactly if the scheduler waits on a queue of 2 * MaxInflight IDs; calls after the signal are refused |
| Shutdown.OverloadStrandsIff | internal/scheduler/scheduler.go:88-99 | if calls under way at the signal may still succeed, it can exactly if queue, hand and batch together exceed 2 * MaxInflight |
| Shutdown.StrandingHappens | internal/scheduler/scheduler.go:88-99 | the stuck state is reachable: three due jobs, one worker and a signal suffice |
| Simulation.StoreSimulation | internal/store/redis.go:92-131 | after any run the text store under HSET reads back as the map of jobs, record of the last error included, and a poll's answer is the one the map calls for |
| Simulation.PlainSimulation | internal/store/redis.go:78-118 | after any run every ID reads back from the text store as from a plain map whose writes replace, on every field but the record of the last error |
| ErrorRecords.ErrorsOnRecord | internal/store/redis.go:201-207 | in every run the stored last error and last status code of a job that is not lost nor about to be saved are the last non-empty message and the last non-zero code of its executions, counted from the last DELETE, or from the execution being saved as it came |
| ErrorRecords.LastErrors | internal/executor/executor.go:237-242 | without a DELETE that takes effect these are all its executions |
| Witnesses.StaleAfterSuccess | internal/executor/executor.go:234-250 | a reachable job that has failed, then succeeded, and still shows the failure |
| Witnesses.UndoneDeleteForgets | internal/executor/executor.go:260-281 | a reachable job, scheduled, whose last status code an undone DELETE has wiped |
| Simulation.PollsAreTimely | internal/store/redis.go:121-131 | below 2^53 ms a poll fetches no stored job before its due time, and leaves out a due one only for a full batch |
| Timings.RetryWindow | internal/executor/executor.go:275-289 | the k-th execution since the last success, if it fails in any way and is retried, is retried min(base * 2^(k-1), 600000) ms later, plus at most 250 ms, in int64 arithmetic; k is below MaxAttempts, and is the number of requests sent if the URL has a domain |
| Timings.RetryWaits | internal/executor/executor.go:259-289 | in every reachable state, a one-shot job that can still run and has n attempts on record has waited for its retries at least the sum of the n base delays, and at most 250 n ms more |
| Timings.LifetimeWait | internal/util/util.go:35-52 | in every reachable state the waits of a one-shot job before retries, running, failed, deleted or lost, come to at most 600250 (MaxAttempts - 1) ms |
| Timings.PhaseHolds | internal/executor/executor.go:231-240 | the due time of a recurring job is t0 + n * interval modulo 2^64, with t0 the start or the latest retry and n the successes since; exactly so while that is an int64 |
| Timings.RecurringPhase | internal/executor/executor.go:234-250 | in every run this is the stored due time of a scheduled recurring job |
| CatchingUp.CatchUp | internal/executor/executor.go:231-250 | in every run in which an overdue recurring job's executions succeed and the clock stays at or below `now`, its due time moves on by one interval for each request sent; it is sent at most floor((now - due) / interval) + 1 times, and exactly that often when its due time has passed `now` |
| CatchingUp.TrackStep | internal/scheduler/scheduler.go:73-98 | each label keeps to this track: a request is on its way only if its time has come, and each success adds one interval |
| Lifecycle.SettleKeeps | internal/executor/executor.go:145-165 | an execution leaves the fixed part alone; what runs again is pending with attempts left, what is parked is failed with none |
| Lifecycle.OutcomeRecorded | internal/executor/executor.go:145-310 | every field of the job after every outcome: 200-299 removes a one-shot job and renews any other with no attempts and no error; 400-499 but 429 parks it with all attempts used; any other code, an error or a bad URL adds one attempt, with message and code, and parks it exactly on the last |
| Lifecycle.DrawsAndSuccesses | internal/util/util.go:13-18 | the jitter is any number from 0 to 250, and success any code from 200 to 299 |
| RecordsProofs.OutcomeSettled | internal/executor/executor.go:142-165 | the handler's job is the fold of the history including the new outcome, and its attempt number counts the requests sent |
| RecordsProofs.AttemptAfter | internal/executor/executor.go:259-289 | each retry uses up one attempt, so MaxAttempts - Attempt falls until the next success |
| Executors.HandlersFollowProtocol | internal/executor/executor.go:242-289 | the handlers' store calls are those of the protocol's worker, in order and with the same reaction to errors |
| Executors.Executor.GetDomainSemaphore | internal/executor/executor.go:313-333 | returns the registered semaphore or registers a new, empty one, and keeps semaphores of different domains apart |
| Executors.Executor.HandleExecutionSuccess | internal/executor/executor.go:219-253 | deletes a one-shot job; otherwise updates, and reschedules only if the update succeeded |
| Executors.Executor.HandleExecutionFailure | internal/executor/executor.go:256-292 | counts the attempt, and parks the job or updates and reschedules it after the float64 backoff |
| Executors.Executor.HandleNonRetryableFailure | internal/executor/executor.go:295-310 | parks the job as failed with all attempts used |
| Executors.Executor.ExecuteJob | internal/executor/executor.go:101-166 | sends at most one request and makes the store calls its outcome calls for, with both semaphores as before on every path; or waits on a full semaphore, having done nothing |
| Executors.Executor.Dispatch | internal/executor/executor.go:73-79 | queues the ID in order if there is room and drops it if the executor has stopped; on both, either |
| Schedulers.Scheduler.Poll | internal/scheduler/scheduler.go:73-100 | takes each fetched ID off the schedule and dispatches it unless that failed |
| Schedulers.FaultlessPoll | internal/scheduler/scheduler.go:88-99 | without faults a poll dispatches what it fetched, in order, and removes just that |
| Schedulers.PassedIff | internal/scheduler/scheduler.go:92-98 | an ID is dispatched exactly when its removal reported no error, and then it has been removed |
| Schedulers.PollFollowsProtocol | internal/scheduler/scheduler.go:88-99 | with room in the queue, the loop's store calls and dispatches are a run of the protocol's scheduler |
| Refinements.PollRefines | internal/scheduler/scheduler.go:73-100 | from every reachable state with room for the batch a poll, fetch included, is a run of the protocol: same batch, store calls and queue, and text store and map of jobs agree afterwards |
| Conformance.EveryPoll | internal/scheduler/scheduler.go:88-99 | conversely, in every run from fetch to end of loop, with a full queue and anybody else in between, the scheduler makes the store calls of Poll and queues what Poll dispatches |
| Refinements.ExecuteJobRefines | internal/executor/executor.go:101-166 | in every reachable state an undisturbed execution is a run of the protocol's worker with the store calls and requests of ExecuteJob, whatever faults, answers and stop signals it meets; text store and map of jobs agree afterwards |
| Conformance.EveryExecution | internal/executor/executor.go:101-166 | in every run, whatever the others do in between, a worker makes from taking an ID to the end of its execution the store calls and requests of ExecuteJob, for what GetJob answered it |
| Refinements.Seek | internal/executor/executor.go:313-333 | with the lock free, the six steps of getDomainSemaphore give the registered semaphore or register a new one, and leave the lock free |
| DueIndex.RangeIsDueBatch | internal/store/redis.go:121-131 | the sorted set answers with the first `limit` members of the plain filter in (score, ID) order |
| DueIndex.DueBatchUnique | internal/store/redis.go:121-131 | that description leaves only one answer |
| StoreModel.IdLessMeans | internal/store/redis.go:121-131 | members with equal scores are in the order of their characters: a proper prefix first, or the smaller character at the first place where they differ |
| DueIndex.AddRepresents | internal/store/redis.go:143-152 | ZADD on the ordered sequence is an update of the map of scores |
| DueIndex.RemoveRepresents | internal/store/redis.go:134-140 | ZREM on the ordered sequence is a removal from the map of scores |
| DueIndex.ScoresExactIff | internal/store/redis.go:64-67 | float64 comparison answers every int64 due time correctly exactly when the next millisecond is a larger float64 |
| DueIndex.ScoresExact | internal/store/redis.go:122-126 | so it does below 2^53 |
| DueIndex.ScoresInexactAtTwo53 | internal/store/redis.go:122-126 | and does not at 2^53 |
| Backlogs.BacklogDrains | internal/scheduler/scheduler.go:73-100 | in every run in which the clock stands, ZREMs succeed and nothing else changes the schedule, the IDs claimed are the first due ones in (score, ID) order, each once: at least a batch for each completed poll until all D are claimed, at most a batch for each poll begun; the rest stays scheduled |
| Backlogs.EnoughPolls | internal/scheduler/scheduler.go:73-100 | ceil(D / batch) completed polls claim all D due IDs |
| Backlogs.ClaimedIsDispatched | internal/scheduler/scheduler.go:92-98 | what is claimed is queued, in the same order, but for the ID still in the scheduler's hand |
| Backlogs.QueueIsFifo | internal/executor/executor.go:73-96 | without a crash the workers begin what is queued in the order in which it was queued |
| Backlogs.BegunInOrder | internal/scheduler/scheduler.go:88-99 | so a backlog is begun in (score, ID) order |
| Backlogs.StoredBacklogDrains | internal/store/redis.go:121-131 | the same for the backlog found in the text store after any run |
| Codec.RoundTrip | internal/store/redis.go:165-289 | a job reads back as written exactly if its interval is not negative; nil and empty maps are told apart |
| Codec.OverlayReads | internal/store/redis.go:92-106 | writing over a readable hash reads back as the overlay: omitted fields keep their old values |
| Codec.StrconvFaithful | internal/store/redis.go:169-182 | decimal text of every int64 down to -2^63 is read back |
| Codec.SerializeJob | internal/store/redis.go:165-210 | writes twelve fields always, and interval, headers, body, last error and last code only if not zero, nil or empty, each with its own text |
| Codec.DeserializeJob | internal/store/redis.go:213-289 | fills the job, or reports the first field it cannot read |
| Codec.DecodedIff | internal/store/redis.go:213-289 | a hash is read exactly if each of its texts can be, and the field reported otherwise is one that cannot |
| Decimal.ParseFormat | internal/store/redis.go:220-223 | printing and parsing an integer gives it back, or a range error outside -9223372036854775808 to 9223372036854775807 |
| Decimal.FormatCanonical | internal/store/redis.go:169-182 | the digit at each place, no leading zero, and a minus sign before a negative number only |
| Decimal.ParseMeans | internal/store/redis.go:220-250 | digits after at most one sign are read by their value, within the range of int64 |
| Decimal.NothingElseParses | internal/store/redis.go:220-250 | no other text is read |
| RedisStores.ExecAgrees | internal/store/redis.go:52-152 | each store call on text and sorted set does what it does on the map of jobs and the map of scores |
| RedisStores.RedisStore.CreateJob | internal/store/redis.go:52-75 | overlays the hash and sets the schedule entry in one step, for any scores the schedule represents, or does neither |
| RedisStores.RedisStore.GetJob | internal/store/redis.go:78-89 | tells a missing job, a failed read, an unreadable hash and a job apart |
| RedisStores.RedisStore.UpdateJob | internal/store/redis.go:92-106 | overlays the hash and leaves the schedule alone |
| RedisStores.RedisStore.DeleteJob | internal/store/redis.go:109-118 | removes hash and schedule entry in one step, or does neither |
| RedisStores.RedisStore.GetDueJobs | internal/store/redis.go:121-131 | answers, for any map of scores the schedule represents, with the first `limit` due members of that map in (score, ID) order |
| RedisStores.RedisStore.RemoveFromSchedule | internal/store/redis.go:134-140 | removes the schedule entry only |
| RedisStores.RedisStore.AddToSchedule | internal/store/redis.go:143-152 | sets the schedule entry only |
| Util.CalculateBackoff | internal/util/util.go:35-52 | for every positive int64 base and every int64 attempt the float64 computation, with rounding, overflow to +Inf and the cap, gives exactly base * 2^(max(attempt, 1) - 1), or 600000 once that is reached, plus the jitter |
| Util.BackoffMeans | internal/util/util.go:13-18 | the delay every other statement speaks of is that product, and 600000 from there on |
| Util.BackoffMonotone | internal/util/util.go:40-46 | the delay never shrinks from one attempt to the next |
| Util.BackoffSaturates | internal/util/util.go:13-18 | every base is at the cap exactly from attempt 21 on |
| Util.RetryHorizon | internal/util/util.go:35-52 | n base delays sum to base * (2^n - 1) while the cap is not reached, and to at most 600000 n |
| Util.RetryBranchVersusClassifier | internal/executor/executor.go:151-165 | the executor retries the codes outside 200-299 and 400-499, and 429; IsRetryableHTTPStatus agrees with that exactly on 200-299 and 400-599 |
| Binary64.RoundsToNearest | internal/store/redis.go:64-67 | the modelled conversion to float64 gives a representable value, none is nearer, and of two equally near ones it takes the one with the even significand |
| Binary64.OfIntToNearest | internal/store/redis.go:64-67 | the same for integers of either sign |
| Binary64.OfIntMonotone | internal/store/redis.go:64-67 | conversion to float64 keeps the order of due times |
| Requests.WebhookConfig.Validate | internal/model/job.go:106-141 | accepts exactly the webhooks without a fault, reports the first fault otherwise, and normalizes method and timeout in place |
| Requests.ValidateRequest | internal/model/job.go:155-194 | accepts exactly the requests without a fault, and reports the first fault otherwise |
| Requests.AcceptableMeans | internal/model/job.go:105-194 | a request is acceptable exactly if it has none of the faults |
| Requests.AcceptedIsNewborn | internal/model/job.go:205-265 | whatever passes validation becomes the job it asks for, field by field, and one the store can hold and the executor can run |
| Requests.HandleCreate | internal/httpapi/handlers.go:29-83 | reports the first fault and stores nothing, or stores the job the request asks for, every field of it, and schedules its ID with the float64 of the requested time |
| Requests.HandleDelete | internal/httpapi/handlers.go:112-141 | deletes hash and schedule entry of a job that a preceding read found, and answers accordingly; whatever goes wrong but for a missing job is an internal error |

## Left out

- The HTTP client: redirects, transport retries, TLS and real timeouts. A request ends with an error or any status code.
- JSON encoding and its errors on the way into the store, URL parsing and domain extraction: parameters of the model.
- Redis networking, retries of the client library, and persistence settings.
- Authentication, logging and header middleware, routing, response bodies, log levels and flag parsing.
- Executors.Executor.ExecuteJob: one goroutine without interference, on records with a positive base delay and a non-negative interval. On a full semaphore the method reports that it waits. That every stored record is of this kind is proved on the state machine, and that interleaved executions do the same is Conformance.EveryExecution.
- Executors.Executor.Dispatch: where the source blocks, the method reports that it is not done. Blocking is in the state machine.
- Refinements.ExecuteJobRefines: the worker moves alone, with the lock free and room in the semaphores. Executions that are delayed or interleaved are covered by Conformance.EveryExecution.
- Refinements.PollRefines: the queue has room for the batch. Polls that block are covered by Conformance.EveryPoll.
- Refinements.Seek: the lock is free. Interleaved calls are covered by Limits.OneSemaphorePerDomain.
- Requests.HandleDelete: in the state machine a DELETE may come for any ID at any time, whether or not a read has found it; that allows more runs than the handler.
- The goroutine loops around executeJob and poll (Start, worker, Wait) exist only as labels of the state machine.
- CatchingUp.CatchUp: says nothing about when the next poll comes, so it counts the requests of every run but does not promise that they are sent; that a poll fetches what is due is stated by Simulation.PollsAreTimely.
- Liveness.InternalRunsEnd: webhooks are taken to return, and fairness between domains or goroutines is not claimed.
- The ticker: a poll may come at any moment, with any reading of the clock.
