# Work queues: a verified model

A work queue hands tasks to handlers at least once, retries a failed task with
exponential backoff up to `MaxRetries` times, and then keeps it as a dead letter
that an operator can list, requeue or delete. Four backends implement this: a
SQL table with optimistic claims (gorm), a SQL table with atomic claims and
NOTIFY (postgres), two JetStream streams (nats), and a heap in memory. This
project models the concurrent protocols of all four and proves what they keep
over every run.

## Modules

- `RetryBackoff`: the delay loop on wrapping 64-bit integers against the formula
  over unbounded integers; the options of a consumer.
- `TaskTable`, `RowHistory`: the SQL statements as functions on single rows, what
  any sequence of statements keeps (row life cycle, attempt accounting, claim
  bounds), and which statement each column reports.
- `Scheduling`, `TableStatements`: the queries and statements of the database
  backends, as code over the rows.
- `Lease`, `LeaseRuns`: workers with stale candidate lists and stale records racing
  on the table; exclusivity, reports of superseded holders, and optimistic claims.
- `LeaseExactness`, `LeaseExclusivity`, `ClaimTiming`: the exact conditions under
  which a requeue leaves leases honoured, leases exclusive, and claims on time.
  `LeaseHazards` has runs that go wrong without them.
- `GormQueue`, `PostgresQueue`: the two database backends as classes. `GormRuns`
  shows that a claim as the gorm class makes it is a run of the lease protocol.
- `WakeChannels`, `Wakeups`: the wake channels of a process as objects, and the
  cross-process wakeup protocol.
- `NatsStreams`, `NatsRuns`, `NatsExactness`: the hand-off between the two
  streams, no loss over every run, and the states from which a task can be lost.
- `MemoryHeap`, `MemoryQueue`, `MemoryRuns`, `MemoryTimes`: the array heap, the
  queue on it, its runs, and when its tasks are due.
- `DeadListing`: paging over dead letters.
- `Shutdown`: what `Stop` and `Done` promise.

Methods of the classes are proved against functions on values, and the state
machines take their steps with the same functions. Where one method call is several
steps, a lemma says that it is a run: `GormRuns.ClaimIsARun` and
`NatsExactness.HandlingIsARun`. Ghost fields, and the fields that comments call
bookkeeping (`Row.epoch`, `Entry.gen`, `Streams.gens`, `Streams.top`, a worker's
`claimed`), are read by no operation.

## Assumptions

- There is one integer clock that never goes back. An instant that an operation
  used may lie in the past of the step that uses it, by any amount.
- Identifiers are never assigned twice.
- A database statement, publish, ack or notification that returns an error had no
  effect. Each is one atomic step.
- A handler is an arbitrary outcome. A panic is an error outcome. With nats, the
  handler leaves the task it receives as it was.
- Attempts fit a 64-bit integer; `maxRetries` is never negative, as the enqueue
  options make it (`workqueue/options.go:53-55`).
- A crash of a worker can come between any two of its statements or requests.

## Findings

In four places the code does not do what its documentation says. The model follows
the code; each place has a run that shows it and the exact condition under which
the promise is kept. A careful run of the lease protocol is one that requeues a
task only while no worker holds a record of it.

- "The attempts guard ensures a worker whose lease expired mid-flight cannot
  clobber a newer claim", `gorm_workqueue/workqueue.go:315-316`. A requeue resets
  `attempts` to 0 and the guard compares `attempts` only, so the report of a worker
  that held the task before the requeue can match a claim after it
  (`LeaseHazards.RequeueOfHeldTaskBreaksExclusivity`). In all further
  careful runs, a requeue leaves every unexpired lease honoured, that is the row as
  its holder claimed it, exactly when no worker holds the task
  (`LeaseExactness.RequeueHonouredIff`). It leaves leases exclusive, that is no two
  unexpired ones on a task, exactly when every worker that holds the task has used
  up its retries: such a worker can bury the task under another's lease, but not set
  it free (`LeaseExclusivity.RequeueExclusiveIff`). A
  success is not guarded at all: it deletes the row whoever holds it
  (`Lease.ReportSparesIff`).
- `RunAt` is "the earliest time the task may be delivered",
  `workqueue/workqueue.go:44`. The candidate loop rechecks status and attempts but
  not `run_at`, so a candidate read before a requeue can win a task far ahead of its
  time (`LeaseHazards.StaleCandidateClaimsEarly`). Whatever happens between reading
  and trying, a candidate wins no task early exactly when it was read before any
  attempt, or its task has no retries, or the task is gone
  (`ClaimTiming.TryIsNeverEarlyIff`). A first delivery is never early.
- "A duplicate dead entry rather than a lost task",
  `nats_workqueue/workqueue.go:608-609`. The deduplication ID of a retry does not
  name the requeue, so a retry after a requeue can be dropped as a duplicate of one
  before it, and the task is lost (`NatsExactness.RequeueInsideWindowLosesTask`).
  `NatsExactness.KeptIffSecure` says of every state exactly whether a task can still
  be lost. A requeue of the only copy is safe exactly when the server remembers no
  retry of the task (`NatsExactness.RequeueKeepsTaskIff`).
- `ListDeadTasks` lists every dead task, `workqueue/workqueue.go:87-89`. In memory
  it panics when `offset + limit` overflows, and only then (`DeadListing.SlicePage`).

## Model

| member | source | states |
|---|---|---|
| RetryBackoff.DoubleUpTo | workqueue/options.go:164-174 | the wrapping loop on clamped arguments returns min(base doubled attempt - 1 times, max) over unbounded integers; the sign test catches every overflow; at most 63 doublings |
| RetryBackoff.Compute | workqueue/options.go:153-175 | for every 64-bit base, max and attempt: min(base·2^(attempt-1), max) for 0 < base <= max; the base for a cap below it; the default base of 10 s for base <= 0; attempts below 1 count as 1 |
| RetryBackoff.DelayMonotone | workqueue/options.go:150-152 | later retries never wait less, up to the cap |
| RetryBackoff.DelayDoubles | workqueue/options.go:150-152 | the delay doubles from retry to retry until the cap |
| RetryBackoff.NewConsumeOptions | workqueue/options.go:114-133 | each setting is that of the last option of its kind, by index, or the default, then clamped; one worker at least runs; clamping the options first changes no delay |
| TaskTable.Apply | gorm_workqueue/workqueue.go:234-239 | a statement changes each row as its WHERE clause and SET list say, and no row depends on another |
| TaskTable.RowsAreWellShaped | gorm_workqueue/workqueue.go:211-361 | in every run lease_expires_at is set iff running, died_at iff dead, and running or dead rows have been claimed |
| TaskTable.Advances | gorm_workqueue/workqueue.go:271-361 | every statement that affects a row moves it forward in (requeues, attempts, phase), so no state of a row comes back |
| TaskTable.OnlyForward | gorm_workqueue/workqueue.go:271-361 | over any continuation of a run a row is the same, later, or gone |
| TaskTable.AttemptsAccounted | gorm_workqueue/workqueue.go:234-505 | attempts == failures + reaps since the last requeue + 1 if running; the claims since then carried 1, 2, 3, … without gap or repetition |
| TaskTable.DiesOnBudget | gorm_workqueue/workqueue.go:333-361 | a task that is not dead failed at most maxRetries times since its last requeue; a dead one used maxRetries + 1 attempts plus one for each expired lease, exactly without reaps |
| TaskTable.ClaimsBounded | gorm_workqueue/workqueue.go:264-288 | over a whole run: claims <= (maxRetries + 1)·(1 + requeues) + reaps |
| LeaseRuns.LeavesIff | gorm_workqueue/workqueue.go:319-534 | a step takes a task out of the table iff it reports the success of a worker that holds the task, or deletes it while it is dead |
| LeaseRuns.LeftByHandlerOrDelete | gorm_workqueue/workqueue.go:319-534 | in every run, an enqueued task that is not in the table left it by one such step: its handler had returned nil, or DeleteDeadTask found it dead |
| TaskTable.GoneForGood | gorm_workqueue/workqueue.go:264-371 | once gone a task stays gone: nothing claims, reschedules, reaps or revives it, however stale its issuer |
| RowHistory.TimesTellHistory | gorm_workqueue/workqueue.go:211-361 | run_at is what the last enqueue, retry or requeue set; the lease is that of the last claim unless it ended since |
| RowHistory.ReportsTellHistory | gorm_workqueue/workqueue.go:333-505 | last_error and died_at are those of the last failure and death since the last requeue |
| RowHistory.DeadRowWasReported | gorm_workqueue/workqueue.go:333-353 | a dead row was killed by the report of the very attempt it carries, which wrote both its error and its time |
| Scheduling.WindowHead | gorm_workqueue/workqueue.go:250-262 | the first candidate is what the single-statement claim would take; no candidates iff nothing is due |
| Scheduling.WindowByColumns | gorm_workqueue/workqueue.go:250-262 | what a window is, column by column: at most five pending due rows of the queue in order of run_at and enqueued_at, and a due row is left out only for lack of room |
| TableStatements.Earliest | postgres_workqueue/workqueue.go:352-358 | an element of the set that none precedes in ORDER BY run_at, enqueued_at |
| TableStatements.FindCandidates | gorm_workqueue/workqueue.go:250-262 | a sorted prefix, of five at most, of the due pending rows of the queue, with their contents |
| TableStatements.NextRunAt | gorm_workqueue/workqueue.go:291-299 | the least run_at of the pending rows, none iff there is none |
| TableStatements.SleepTime | gorm_workqueue/workqueue.go:291-312 | the wait is the poll interval when no pending row of the queue is due before its end, in particular when there is none; otherwise it lasts up to the first pending row, but a millisecond at least |
| TableStatements.Reap | gorm_workqueue/workqueue.go:232-243 | every running row of the queue whose lease ended before now becomes pending and loses its lease, all others stay; the count is positive iff a row was affected |
| TableStatements.GuardedReschedule | gorm_workqueue/workqueue.go:355-363 | the row, column by column, after the guarded retry UPDATE; nothing when status or attempts moved on |
| TableStatements.GuardedDeath | gorm_workqueue/workqueue.go:330-340 | the row, column by column, after the guarded dead-letter UPDATE; nothing when status or attempts moved on |
| TableStatements.Settle | gorm_workqueue/workqueue.go:317-371 | a success deletes the row whatever its state; a failure of the standing claim makes it pending, due after the delay of (base, max, attempts), or dead at that instant, with error and without lease; any other failure does nothing; local workers are woken after every retry, even one that did nothing |
| TableStatements.Revive | gorm_workqueue/workqueue.go:491-510 | the row, column by column, after the requeue; not found iff the task is not a dead one of the queue |
| TableStatements.Discard | gorm_workqueue/workqueue.go:518-534 | equals the dead-letter DELETE; ok iff a row left the table |
| Lease.CoreAlways | gorm_workqueue/workqueue.go:248-371 | in every interleaving, with crashes and requeues at any time: the table is the replay of its statements, all copies that workers keep are earlier states of their rows, and no two holders claimed the same state |
| Lease.ExclusiveAlways | gorm_workqueue/workqueue.go:232-371 | if only tasks that nobody holds are requeued: no two workers hold one task with unexpired leases, and under an unexpired lease the row is as its holder claimed it or gone |
| Lease.ReportAffects | gorm_workqueue/workqueue.go:330-370 | a failure report changes the row iff the row is still the claim reported, or runs at the same attempt number after a later requeue |
| Lease.SupersededReportIsNoOp | gorm_workqueue/workqueue.go:315-370 | under the same premise a failure report leaves the whole table as it is iff its holder was superseded |
| Lease.ReportSparesIff | gorm_workqueue/workqueue.go:317-370 | without the premise, another holder's report spares a standing claim iff it reports a failure at a different attempt number; a success never does |
| Lease.WinnerWasDue | gorm_workqueue/workqueue.go:264-289 | a winning UPDATE takes the very row that was read iff the task was not requeued since; then the row is pending and due although the UPDATE does not look at run_at, and the worker's copy equals it; always, the copy's attempts do; all earlier candidates were no longer pending at their attempts |
| Lease.AccountedAlways | gorm_workqueue/workqueue.go:234-361 | the accounting and the gap-free numbering of claims hold in every run with any number of stale workers |
| Lease.BudgetAlways | gorm_workqueue/workqueue.go:264-361 | the claim bound and the exact death hold in every run |
| LeaseExactness.CarefulRunsKeepLeases | gorm_workqueue/workqueue.go:232-371 | from any consistent state, runs that requeue only unheld tasks keep all leases |
| LeaseExactness.HeldRequeueIsNotHonoured | gorm_workqueue/workqueue.go:491-505 | whoever still holds a dead task: after its requeue there is a run in which that worker's report ends another's unexpired lease |
| LeaseExactness.RequeueHonouredIff | gorm_workqueue/workqueue.go:491-505 | a requeue leaves all further runs honouring unexpired leases iff no worker holds a record of the task |
| LeaseExclusivity.CarefulRunsStayGuarded | gorm_workqueue/workqueue.go:232-371 | leases stay exclusive in all runs that requeue only unheld tasks, even while holders from before a requeue bury or delete tasks under others |
| LeaseExclusivity.FreeingHolderEndsExclusivity | gorm_workqueue/workqueue.go:355-370 | from every state in which a dead task is held by a worker with retries left, its requeue can lead to two unexpired leases |
| LeaseExclusivity.RequeueExclusiveIff | gorm_workqueue/workqueue.go:491-505 | a requeue leaves all further careful runs exclusive iff every worker that holds the task has used up its retries |
| ClaimTiming.RunsKeepDue | gorm_workqueue/workqueue.go:497-505 | in every run a requeued task is due until a retry postpones it, and forever if it has no retries |
| ClaimTiming.Postpone | gorm_workqueue/workqueue.go:355-370 | from every reachable state, whatever the row is like, a task with retries can come to wait, not yet due, at any attempt above 0, while all workers inside a candidate loop stay where they are |
| ClaimTiming.TryIsNeverEarlyIff | gorm_workqueue/workqueue.go:264-289 | in every reachable state, whatever happens before a worker tries its next candidate, the try wins no task ahead of its run_at, iff the candidate was read before any attempt, or its task has no retries, or is gone; in careful runs and in all others |
| LeaseHazards.ConfusionEndsExclusivity | gorm_workqueue/workqueue.go:355-370 | from every state in which two holders of a task share an attempt number, one under a live lease, a run leads to two live leases |
| LeaseHazards.RequeueOfHeldTaskBreaksExclusivity | gorm_workqueue/workqueue.go:491-505 | such a state is reachable from the empty table |
| LeaseHazards.StaleCandidateClaimsEarly | gorm_workqueue/workqueue.go:250-289 | a run in which a candidate read before a requeue wins a task a thousand ticks before its run_at |
| LeaseRuns.AtomicClaimIsAStep | postgres_workqueue/workqueue.go:345-369 | a claim of the postgres backend is one step: the row taken is running, one attempt further, under the lease, and that is the record the worker goes on with |
| GormQueue.UnrivalledRace | gorm_workqueue/workqueue.go:264-289 | without interference the loop is the atomic claim: it takes a row the single statement could select, or nothing when nothing is due |
| GormQueue.RaceClaimsOnce | gorm_workqueue/workqueue.go:264-289 | under any interference the final table is the rivals' statements followed by at most one claim, which its guard admitted |
| GormQueue.RaceWinsCandidate | gorm_workqueue/workqueue.go:264-289 | under any interference what is won is one of the candidates, one attempt further than it was read and under the lease, in the table and in the record |
| GormRuns.ClaimIsARun | gorm_workqueue/workqueue.go:248-289 | the claim against rivals whose statements come from a run is itself a run of the lease protocol, and ends, in the table and in the worker's record, as the code's race does |
| GormQueue.GormWorkQueue.Enqueue | gorm_workqueue/workqueue.go:193-229 | the table gains the row, column by column; the waiting workers of the queue are woken |
| GormQueue.GormWorkQueue.GuardedClaim | gorm_workqueue/workqueue.go:271-283 | equals the guarded claim UPDATE; affected iff the row is pending at the expected attempts |
| GormQueue.GormWorkQueue.TryCandidates | gorm_workqueue/workqueue.go:264-289 | the loop with early exit, under arbitrary statements of others before each try, is Race |
| GormQueue.GormWorkQueue.Claim | gorm_workqueue/workqueue.go:248-313 | the window, the race on it, the record won, and otherwise the exact wait for the table as it then is |
| GormQueue.GormWorkQueue.Complete | gorm_workqueue/workqueue.go:317-371 | the table, column by column, and the wake channels after a success, a retry with its delay, a death, or a report that comes too late |
| GormQueue.GormWorkQueue.RequeueDeadTask | gorm_workqueue/workqueue.go:491-515 | the table, the outcome, and a broadcast iff a row was requeued |
| GormQueue.GormWorkQueue.DeleteDeadTask | gorm_workqueue/workqueue.go:518-534 | the table and the outcome |
| GormQueue.GormWorkQueue.ReapExpiredLeases | gorm_workqueue/workqueue.go:232-243 | the table after the reap |
| PostgresQueue.PostgresWorkQueue.Enqueue | postgres_workqueue/workqueue.go:291-333 | row and NOTIFY commit together or not at all; a failed transaction wakes nobody |
| PostgresQueue.PostgresWorkQueue.Claim | postgres_workqueue/workqueue.go:339-392 | takes a (run_at, enqueued_at)-least due row among those not locked, leaves it running, one attempt further, under the lease, and returns it so; otherwise every due row was locked, and the wait is exact for the table as it then is |
| PostgresQueue.PostgresWorkQueue.ReapExpiredLeases | postgres_workqueue/workqueue.go:396-415 | the table after the reap, and a NOTIFY iff a row was recovered and the NOTIFY did not fail |
| PostgresQueue.PostgresWorkQueue.Complete | postgres_workqueue/workqueue.go:419-473 | as in gorm, column by column, with no NOTIFY after a retry |
| PostgresQueue.PostgresWorkQueue.RequeueDeadTask | postgres_workqueue/workqueue.go:593-623 | row, NOTIFY and local broadcast happen together, iff the transaction committed and the task was a dead one of the queue |
| PostgresQueue.PostgresWorkQueue.OnWake | postgres_workqueue/workqueue.go:212-218 | an empty payload wakes every queue, any other its queue |
| WakeChannels.Waker.Notify | gorm_workqueue/workqueue.go:170-180 | the current, open channel of the queue, made on first use |
| WakeChannels.Waker.BroadcastLocal | gorm_workqueue/workqueue.go:182-190 | closes all channels of the queue handed out so far, none twice, and no other queue's |
| WakeChannels.Waker.BroadcastAll | postgres_workqueue/workqueue.go:278-286 | closes all channels handed out so far and replaces that of every queue exactly once, in whatever order |
| WakeChannels.Waker.ClosedAsModelled | gorm_workqueue/workqueue.go:167-190 | a channel that was ever handed out is closed iff its queue was broadcast since |
| WakeChannels.EachOnce | postgres_workqueue/workqueue.go:278-286 | one broadcast to each queue in any order is one broadcast to every queue |
| Wakeups.InvAlways | postgres_workqueue/workqueue.go:501-541 | over all interleavings of processes, commits, NOTIFYs and reconnects, every pending row a worker must not miss was seen by its query, or its channel is closed, or a broadcast is owed |
| Wakeups.NoLostWakeup | postgres_workqueue/workqueue.go:501-541 | for a sleeping worker and a pending row put there by any Enqueue or RequeueDeadTask, or by a retry of its own process: its channel is closed, a broadcast is still owed, or its timer fires by the row's run_at, late only by the time it took to start it, or a millisecond after it started |
| Wakeups.ClosedChannelWakes | postgres_workqueue/listener.go:78-101 | whatever is owed wakes the worker when it runs: the local broadcast, the next notification of its queue or of all queues, the wake-all after LISTEN |
| Wakeups.PollBoundsSleep | postgres_workqueue/workqueue.go:376-391 | whatever was missed, no worker sleeps longer than the poll interval or a millisecond |
| Wakeups.PendingBefore | postgres_workqueue/workqueue.go:320-473 | a row becomes pending, or changes its run_at while pending, through an enqueue, requeue, retry or reap only |
| NatsStreams.Broker.PublishTask | nats_workqueue/workqueue.go:268-282 | the message is stored under the next sequence number and its ID remembered, unless it carries an ID the server remembers already |
| NatsStreams.Broker.Enqueue | nats_workqueue/workqueue.go:290-317 | the task, field by field, is stored under the ID of attempt 0 and returned, or the publish failed and nothing changed |
| NatsStreams.Broker.HandleMsg | nats_workqueue/workqueue.go:384-447 | both streams, the messages in them field by field, and the remembered IDs after a delivery that was early, succeeded, was retried after the delay of its new attempt number, or died; publish before ack, with either failing or not |
| NatsStreams.Broker.RequeueDeadTask | nats_workqueue/workqueue.go:591-646 | the new message field by field, both streams, and the outcome: publish without an ID first, then delete; an error iff a request failed, and ok iff the entry was still there to delete |
| NatsRuns.RunsKeepCore | nats_workqueue/workqueue.go:384-615 | in every run, all messages and all copies that workers and operators keep are consistent with the budgets accepted at Enqueue, and ranks (requeues, attempts) only grow |
| NatsRuns.NoTaskIsLost | nats_workqueue/workqueue.go:384-447 | in every run with crashes, redeliveries, duplicates and failed requests in which the server drops only true duplicates of a task, the task, once accepted, is in a stream, or handled, or deleted on request, and so is its most advanced copy |
| NatsRuns.BudgetAlways | nats_workqueue/workqueue.go:398-442 | in every run, waiting messages have attempts <= maxRetries and dead entries exactly maxRetries + 1, however often handlers are invoked again |
| NatsRuns.WaitingMakesDuplicatesTrue | nats_workqueue/workqueue.go:285-287 | when the requeues of a task wait until the server remembers no retry of it, the server drops nothing but true duplicates of it |
| NatsRuns.WaitingLosesNoTask | nats_workqueue/workqueue.go:591-615 | so such a task is not lost, whatever happens to others |
| NatsExactness.HandlingIsARun | nats_workqueue/workqueue.go:384-447 | what HandleMsg does to the streams is a run of single steps, so nothing the code does escapes the theorems on runs |
| NatsExactness.RunsKeepSecure | nats_workqueue/workqueue.go:384-447 | a task whose next retry cannot be taken for a duplicate stays so, or settled, or dead, over all runs in which its requeues wait |
| NatsExactness.RememberedRetryLoses | nats_workqueue/workqueue.go:426-446 | a copy below an attempt that the server remembers can catch up with it and be acknowledged without a successor |
| NatsExactness.KeptIffSecure | nats_workqueue/workqueue.go:384-615 | from every reachable state: the task is kept in all further runs in which its requeues wait, iff it is settled, or waits in a message that nobody is about to acknowledge and whose attempt is not below any retry the server remembers, or is dead in an entry that nobody is about to delete after a requeue |
| NatsExactness.RequeueKeepsTaskIff | nats_workqueue/workqueue.go:591-615 | from every reachable state, requeueing the only copy of a task keeps it in all further runs in which its requeues wait iff the server remembers no retry of it |
| NatsExactness.RequeueInsideWindowLosesTask | nats_workqueue/workqueue.go:285-287 | a run from empty streams that loses an accepted task |
| MemoryHeap.InsertKeepsSorted | memory_workqueue/workqueue.go:115-120 | insertion keeps the (RunAt, push number) order strict |
| MemoryHeap.InsertIsFifo | memory_workqueue/workqueue.go:112-120 | a push overtakes nothing that is due no later: equal RunAt come out in push order |
| MemoryHeap.RootIsHead | memory_workqueue/workqueue.go:192 | the root of a heap with the contents of a sorted queue is its head |
| MemoryHeap.UpStep | memory_workqueue/workqueue.go:112-130 | one exchange of sift-up moves the only violation of heap order to the parent |
| MemoryHeap.DownStep | memory_workqueue/workqueue.go:112-130 | one exchange of sift-down moves it to the lesser child |
| MemoryHeap.PendingHeap.Push | memory_workqueue/workqueue.go:112-130 | the array heap after a push refines sorted insertion |
| MemoryHeap.PendingHeap.Pop | memory_workqueue/workqueue.go:122-130 | pop returns the head of the sorted queue and leaves its tail |
| MemoryQueue.ClaimIsLeast | memory_workqueue/workqueue.go:178-200 | a claim delivers iff some pending RunAt is due, and then the (RunAt, push number)-least task |
| MemoryQueue.PushKeepsOrdered | memory_workqueue/workqueue.go:166-169 | push numbers stay unique and the queue sorted |
| MemoryQueue.PushAdds | memory_workqueue/workqueue.go:166-169 | the task that waits is the task that was pushed, under the next push number |
| MemoryQueue.QueueState.Retry | memory_workqueue/workqueue.go:229-232 | the task with the delay of (base, max, attempts) joins those that wait, and nothing else changes but the counters |
| MemoryQueue.QueueState.ClaimTask | memory_workqueue/workqueue.go:178-200 | the head, one attempt further, if it is due; otherwise the wait, up to the head or a minute, and the current channel |
| MemoryQueue.QueueState.Complete | memory_workqueue/workqueue.go:204-233 | nothing on success; a retry pushed with its delay and a broadcast; or the dead list extended by the task with its error and time |
| MemoryQueue.QueueState.RequeueDeadTask | memory_workqueue/workqueue.go:325-351 | the first dead task with the ID leaves the slice and, reset field by field, joins those that wait; not found iff there is none |
| MemoryQueue.QueueState.DeleteDeadTask | memory_workqueue/workqueue.go:354-369 | in-place removal of the first match |
| MemoryQueue.QueueState.ListDeadTasks | memory_workqueue/workqueue.go:297-321 | the page of the dead list, or the panic |
| MemoryQueue.QueueState.Enqueue | memory_workqueue/workqueue.go:146-173 | the task, field by field, joins those that wait, under the next number and with a broadcast |
| MemoryRuns.TasksAreConserved | memory_workqueue/workqueue.go:146-369 | in every run each enqueued task occurs exactly once in pending, in flight, dead, succeeded and deleted together, and nothing else does |
| MemoryRuns.TasksStayInQueue | memory_workqueue/workqueue.go:146-369 | every task keeps the queue it was enqueued to |
| MemoryRuns.DeliveriesFollowBudget | memory_workqueue/workqueue.go:197-231 | since enqueue or requeue the deliveries of a task carried exactly 1, 2, …, k with k <= maxRetries + 1; pending tasks have an attempt left, dead ones none; the dead list is ordered by time of death |
| MemoryRuns.RemovalIsExact | memory_workqueue/workqueue.go:332-337 | removal in place drops exactly one task and keeps the order of all others |
| MemoryTimes.RunAtIsLastSet | memory_workqueue/workqueue.go:158-345 | in every run whatever waits or runs carries the time that its enqueue, its last failure or its last requeue set |
| MemoryTimes.NoDeliveryIsEarly | memory_workqueue/workqueue.go:192-199 | so no task is delivered before that time |
| MemoryRuns.NoLostWakeup | memory_workqueue/workqueue.go:257-283 | a parked worker whose channel is open saw an empty heap that is still empty, or its timer fires by the RunAt of everything pending, late only by the time it took to start it |
| MemoryRuns.SilentStepsShrink | memory_workqueue/workqueue.go:100-233 | whatever does not broadcast leaves the pending queue or takes its head |
| DeadListing.PagesAreWhole | workqueue/workqueue.go:85-99 | consecutive pages together are the whole list |
| DeadListing.PageByIndex | memory_workqueue/workqueue.go:304-320 | a page by its entries: which, how many, and what a negative offset and a limit of 0 or less mean |
| DeadListing.BetweenHolds | nats_workqueue/workqueue.go:516-535 | each stored message of a range of sequence numbers is listed, after those with lower numbers |
| DeadListing.BetweenIsAll | nats_workqueue/workqueue.go:516-535 | nothing else is listed |
| DeadListing.ScanPage | nats_workqueue/workqueue.go:516-566 | the scan over sequence numbers, skipping and stopping in its callback, returns the page of the tasks that its reads found, and ends even when the last sequence number is the greatest there is; it fails iff a read fails before the page is full |
| DeadListing.ScanFor | nats_workqueue/workqueue.go:569-587 | the oldest entry that matches, none iff none does, and an error iff a read fails before it |
| DeadListing.SlicePage | memory_workqueue/workqueue.go:304-320 | the same page, and a panic iff offset + limit overflows |
| Shutdown.MovesKeepBalance | nats_workqueue/workqueue.go:349-377 | the semaphore and the wait group count exactly the callback and the goroutines that hold them |
| Shutdown.ConcurrencyIsBounded | nats_workqueue/workqueue.go:349-370 | never more handlers at once than Concurrency |
| Shutdown.DoneIsFinal | nats_workqueue/workqueue.go:659-678 | once Done is closed no handler runs, and no continuation starts one |
| Shutdown.OneMoreHandlerEach | gorm_workqueue/workqueue.go:399-441 | each worker of a pool starts at most one handler after the stop signal |
| Shutdown.PoolDoneIsFinal | gorm_workqueue/workqueue.go:383-394 | once Done is closed every worker has returned, for good |

## Left out

- Wakeups.NoLostWakeup: does not cover retries of other processes, because the
  code sends no NOTIFY for them, nor reaps, whose NOTIFY is a statement of its own
  that can be lost; the poll interval bounds both (`Wakeups.PollBoundsSleep`).
- MemoryQueue.QueueState.Complete: a task is a value that moves between heap,
  flight and dead list, so aliasing of the pointer between them is not captured.
- MemoryRuns.NoLostWakeup: a channel is a generation number here, since one queue
  has one channel at a time; `WakeChannels` has the channels as objects.
- MemoryHeap.PendingHeap.Pop: the item popped is not cleared in the array.
- Shutdown.DoneIsFinal: that the consumer's Closed follows its last callback is
  assumed of the JetStream client.
- Liveness under fair scheduling, and AckWait timing: any unacknowledged message
  may be redelivered at any time instead, and heartbeats change nothing.
- ListDeadTasks of the database backends: one ORDER BY query with LIMIT and OFFSET.
- Payload, metadata and their encoding, undecodable messages and records.
- NewEnqueueOptions and ResolveRunAt: the resolved values are parameters.
- The map from queue names to in-memory queues: a QueueState is one queue.
- Reconnect backoff and Close of the postgres listener; the connection may be up
  or down at any time instead.
- Modules, configuration, logging, migrations, readiness guards, stream and
  consumer provisioning.
- Postgres isolation anomalies, and SKIP LOCKED beyond choosing among the rows
  that are not locked. Wall clock adjustments and time zones.

Nothing was executed; every statement above is one of the verifier's.
