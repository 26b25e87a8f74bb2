# Verified model of the API test platform's task engine

The platform runs collections of HTTP requests as *test runs*. A run is one task for every
(data row, request) pair. Tasks travel from a Redis stream to a pool of workers, through a delayed
retry set and back, and their outcomes are written to Postgres in batches. Delivery is
at-least-once: workers, replies, commits and acknowledgements may all fail. This project models
that engine in Dafny and proves what it keeps, what it does not keep, and under which conditions
it is exact.

## How the model is built

`Protocol.dfy` is the whole system as one state: the Postgres tables, runs that are flushed but not
committed, the stream with its pending list, the retry set, the chain contexts, the batch in the
hands of each worker, the list that the retry sweeper has popped, and the entries that the reclaim
sweeper has claimed. A step is one Redis command, one commit, one read, one decision, or the death
of a process. A step that is not enabled changes nothing, so *every* sequence of actions is a run,
and the theorems are about all of them. The reply to an enqueue, an ack or a commit may be lost
whether or not the command took effect. Four fields of the state (`covered`, `used`, `merges`,
`processed`) are histories for the proofs; no action depends on them, except that new task ids are
new.

On top of it:

- `Soundness.dfy` proves what every run keeps with no premise at all: counters equal committed
  outcomes, rows keep their shape, completion is never left, chain contexts are isolated. It also
  has the exact guards that the writer would need for no task to be ended twice and for every task's
  attempts to be numbered without gap or repeat.
- `NoTaskLost.dfy` proves that no task is lost; the premises are in the predicate `Safe`.
  `Premises.dfy` proves that the premises are exact: after any run of the fragment below, a step
  that breaks one loses a task at once, or makes a worker about to acknowledge one away.
  `Recovery.dfy` proves what "not lost" is worth: whatever failed before, going on without failures
  can end every task and complete every run.
- `SingleReference.dfy`, `Termination.dfy`, `Draining.dfy` and `Backoff.dfy` are about runs without
  failures and reclaims in which a retry is not swept before the attempt that scheduled it is
  committed (predicate `Clean`): exactly-once attempts, termination, progress, backoff times.
- `Reclaim.dfy` proves that a stream entry is processed at most once, and that prompt workers keep
  their entries.
- `Ledger.dfy` states what the four tables say together, whatever batches were written.
- `Witnesses.dfy` has runs, from the initial state, in which what the code or its comments promise
  goes wrong.
- `Attempts.dfy` says what one attempt sees, sends, asks of the limiter, judges and concludes, in
  terms of its rows, its request and the merges before it, and of nothing that computes it.
- `Throttling.dfy` bounds what a host receives over any sequence of attempts by any workers.
- `Restarts.dfy` says what dies with a process.
- `CronSweeps.dfy` says which schedules a sweep fires, and how a backlog drains.
- `ScheduleInterleaving.dfy` is about edits of schedules and sweeps that overlap.

The parts that the protocol is made of follow the source file by file. Code that works by changing
things is imperative here, with the source's loops, and proved against a specification:
`ResultWriter.dfy`, `Streams.dfy`, `RetryQueue.dfy`, `RunContext.dfy`, `RateLimiter.dfy`,
`TaskProcessor.dfy`, `VariableExtractor.dfy`, `WorkerProcess.dfy`, `RetrySweeper.dfy`,
`ReclaimSweeper.dfy`, `TestRunService.dfy`, `Cron.dfy`. The worker's consume cycle, both sweeps and
run creation are also proved to be runs of the protocol, command by command. `Templates.dfy` is
pure, as its source is.

Outside answers are parameters: HTTP responses, assertion results, the JSON, JSONPath and JWT
libraries, URL parsing, clocks, primary keys, and whether a command's reply arrives. A text counts
as JSON here if it parses to something other than null, which the extractor takes for no JSON.

## Where the code and its documentation disagree

- A comment in `backend/worker/main.py:218-223` calls reprocessing after a failed ack "a harmless
  extra attempt". It can push the counters past the total (`Witnesses.SlowWorkerOvercounts`) and put
  a COMPLETED task back to RETRYING (`Witnesses.SlowWorkerReopensTask`).
- `backend/scheduler/retry_sweeper.py:51-59` promises not to lose a popped task. It does if the
  fallback reschedule fails too, and then all ids popped after it are lost as well
  (`RetrySweeper.LostIds` names them, `RetrySweeper.NothingLostIff` says when there are none,
  `Witnesses.FailedRescheduleLosesTask` is a run).
- Runs are enqueued before they are committed (`backend/app/services/test_run_service.py:140-144`),
  so a fast worker finds no row and acknowledges the task away (`Witnesses.EarlyReadLosesTask`).
- The cron sweep catches a failed enqueue and still commits its session
  (`backend/scheduler/cron_scheduler.py:72-95`); the tasks not yet enqueued stay PENDING for ever
  (`Witnesses.ScheduledEnqueueFailureLosesTask`). A manual run is rolled back instead.
- `backend/app/services/schedule_service.py:4-6` says that next_run_at is set if and only if the
  schedule is active. That holds for operations one after another (`Cron.ScheduledIffActive`). When
  they overlap, what counts is that the ORM leaves out of its UPDATE every column whose value is the
  one that the session has read. Over all interleavings the two agree if and only if every write
  changes is_active, leaves next_run_at as it has read it, or has decided on the is_active that is
  in the row (`ScheduleInterleaving.AlwaysAgreeIff`). They come apart when a deactivation commits
  between a sweep's query and its update (`ScheduleInterleaving.DeactivatedDuringSweep`), or while
  another session, which still saw the schedule active, changes its cron expression
  (`ScheduleInterleaving.DeactivatedDuringEdit`), even if that session sends is_active = true along
  (`ScheduleInterleaving.ResentIsActiveIsLeftOut`).
- `backend/app/queue/rate_limiter.py:32` calls the time to live of a bucket housekeeping only. It
  shows, and hosts can receive more than their budget, exactly for buckets that take longer than
  that to refill (`RateLimiter.ExpiryUnobservableIff`, `RateLimiter.GrantsAreBoundedIff`,
  `Throttling.RequestsAreBoundedIff`).
- An exception that process_task does not catch, such as that of a JSONPath that does not parse or
  of a URL that the HTTP client rejects, leaves the entry unacknowledged, to be reclaimed again and
  again, with no attempt recorded (`Attempts.AttemptRaisesIff`, `Witnesses.RaisesForEver`).
- Merging is HSET and then EXPIRE (`backend/app/queue/run_context.py:43-44`). If EXPIRE raises,
  later tasks see the variables of an attempt that is never recorded
  (`Witnesses.MergedButNotRecorded`). If scheduling a retry raises although it took effect, the task
  is retried and its entry is reclaimed as well (`Witnesses.ScheduledAndPending`).

## Model

| member | source | states |
|---|---|---|
| NoTaskLost.NoTaskIsLost | backend/worker/main.py:154-260 | In every run that keeps the premises, with any number of workers, crashes at any step, lost replies and reclaims of live or dead entries, every committed task has a committed terminal outcome or a live reference |
| NoTaskLost.StepKeepsTasks | backend/scheduler/reclaim_sweeper.py:61-90 | Every single step of every process that keeps the premises keeps the no-loss invariant |
| Premises.PremisesAreExact | backend/scheduler/retry_sweeper.py:45-63 | After any clean run, the next step, whatever it is, keeps the no-loss invariant if and only if it keeps the premises; every step but a read loses a task at once if it breaks one |
| Premises.PrematureReadLoses | backend/app/services/test_run_service.py:140-144 | After any clean run, a worker that reads an uncommitted task loses it by itself: it need only give its other entries up, write and acknowledge, every command answered |
| Recovery.EveryRunCanRecover | backend/scheduler/reclaim_sweeper.py:61-90 | After any safe run, with any crashes, lost replies, reclaims and duplicates, there is a continuation without failures, with successful executions and at any sweep limit and idle threshold, that gives every committed task a terminal outcome and completes every run |
| Witnesses.EarlyReadLosesTask | backend/app/services/test_run_service.py:140-144 | A run in which a worker reads a task before its commit, and the task is lost |
| Witnesses.ScheduledEnqueueFailureLosesTask | backend/scheduler/cron_scheduler.py:71-95 | A run in which the cron sweep commits a run whose task was never enqueued |
| Witnesses.FailedRescheduleLosesTask | backend/scheduler/retry_sweeper.py:45-59 | A run in which the fallback reschedule fails and the task is lost |
| Witnesses.RestartLosesPoppedTask | backend/app/queue/retry_queue.py:43-49 | A run in which the backend dies between ZREM and XADD and the task is lost |
| Witnesses.SlowWorkerOvercounts | backend/worker/result_writer.py:87-98 | A run in which one task is counted twice: completed_tasks 2 of total_tasks 1 |
| Witnesses.DuplicateCompletesEarly | backend/worker/result_writer.py:99-109 | A run in which one worker is slow, task 0 is executed twice, and the run of two tasks is COMPLETED although task 1 has not ended |
| Witnesses.SlowWorkerReopensTask | backend/worker/result_writer.py:61-73 | A run that ends with a RETRYING row for an ended task of a COMPLETED run |
| Witnesses.EarlySweepRepeatsAttempt | backend/worker/task_processor.py:136-152 | A run in which attempt 1 is recorded twice, because the retry was popped before the outcome was committed |
| Witnesses.RaisesForEver | backend/worker/main.py:183-189 | For every n, a run in which a task is fetched, raises and is reclaimed n times, and no attempt is ever recorded |
| Witnesses.MergedButNotRecorded | backend/app/queue/run_context.py:43-44 | A run in which variables are in the chain context although no attempt is recorded |
| Witnesses.ScheduledAndPending | backend/worker/task_processor.py:145-152 | A run in which scheduling the retry of a failed attempt raises although it took effect: the task is in the retry set and its entry is pending, too |
| Restarts.WhatDiesIsForgotten | backend/worker/main.py:154-233 | For every state, after the death of a worker, of the creation of a run, or of the backend, nothing that it had begun goes on: until it begins something new, the state is as if it had done nothing more |
| Soundness.CountersAreConserved | backend/worker/result_writer.py:45-109 | In every run: completed_tasks and failed_tasks are the numbers of committed INFO and ERROR logs, the run is COMPLETED exactly when they reach total_tasks, which is the number of its tasks, and results and logs pair one to one |
| Soundness.ResultsMatchLogs | backend/worker/result_writer.py:111-148 | In every run, each result and its log are of the same task and attempt; the result has an error if and only if the log is not INFO, and the log has that error, or otherwise the result's status code |
| Soundness.RowsKeepTheirShape | backend/worker/task_processor.py:136-155 | In every run: next_retry_at is set exactly for RETRYING, RETRYING has 1 <= retry_count <= max_retries, FAILED has retry_count > max_retries, for committed rows and for every outcome in flight |
| Soundness.CompletedIsNeverLeft | backend/worker/result_writer.py:99-109 | In every run, no step takes a run out of COMPLETED or removes a terminal outcome |
| Soundness.RunsAreWellformed | backend/worker/result_writer.py:45-109 | Every run keeps sound tables, consistent uncommitted creations, and fitting outcomes in the workers' hands |
| Soundness.ConcludeFits | backend/worker/task_processor.py:136-155 | The retry state machine keeps the row invariant from any row of the task, however stale |
| Soundness.CommitKeepsSound | backend/app/services/test_run_service.py:116-140 | Committing a run leaves its total equal to the number of its tasks and disturbs no other run |
| Soundness.EndedOnceIffGuarded | backend/worker/result_writer.py:45-76 | Over all runs: no task has ever been ended twice if and only if every batch committed had its terminal outcomes for different tasks, none of which had ended, which is what no code checks |
| Soundness.NumberedIffContinued | backend/worker/result_writer.py:45-56 | Over all runs: every task has recorded attempts 1 to k if and only if every outcome of every batch committed was of the attempt that follows those recorded for its task and those before it in the batch, which is what no code checks |
| Soundness.ContextsAreIsolated | backend/app/queue/run_context.py:24-43 | In every run, the context of a (run, row) is the merge-order overlay of the variables of successful attempts of that run and row only |
| Soundness.MergesComeFromSuccesses | backend/worker/task_processor.py:136-144 | A step merges variables only when it has executed a task successfully, and into the context of that task's own run and row, even if an exception then keeps the attempt from being recorded |
| Ledger.BatchKeepsSound | backend/worker/result_writer.py:45-76 | Any batch of fitting outcomes, duplicates and stale ones included, keeps the tables sound |
| Ledger.CompletedMeansAllEnded | backend/worker/result_writer.py:87-109 | If no task of the run has been ended twice, the counters do not pass the total, and the run is COMPLETED if and only if all its tasks have ended |
| Ledger.AllEndedMeansCompleted | backend/worker/result_writer.py:87-109 | When all its tasks have ended, the run is COMPLETED, however often they have |
| Ledger.EndedOnceIff | backend/worker/result_writer.py:45-76 | A batch keeps tables in which no task has been ended twice so if and only if its terminal outcomes are for different tasks, none already ended |
| Ledger.NumberedIff | backend/worker/result_writer.py:55-56 | A batch leaves recorded attempts 1 to k for every task if and only if they were so before and its outcomes continue them |
| Ledger.TerminalRowReopensIff | backend/worker/result_writer.py:61-73 | A batch takes a terminal row out of its terminal status if and only if its last outcome for that task is RETRYING |
| Ledger.CountersExactIff | backend/worker/result_writer.py:79-98 | The two counters of a run add up to the number of its tasks that have ended if and only if none of them has been ended twice |
| Ledger.CompletionIsForever | backend/worker/result_writer.py:99-109 | No batch takes a run out of COMPLETED |
| Ledger.BatchHistory | backend/worker/result_writer.py:55-56 | What a batch adds to a task's recorded attempts and terminal outcomes |
| ResultWriter.Session.WriteBatch | backend/worker/result_writer.py:45-148 | The batch is written as a whole or not at all, and fails exactly when it references a missing row. Result and log number i carry what outcome i says: status code, latency, headers, verdict, error, worker, the beginning of its response body; level and message by its status. Each task row takes the last outcome for it, and each run counts its own |
| ResultWriter.WrittenTells | backend/worker/result_writer.py:45-148 | The same of the specification, row by row, for every batch |
| ResultWriter.UpdateRunProgress | backend/worker/result_writer.py:78-109 | The grouped increments advance each run by its own numbers of COMPLETED and FAILED outcomes and touch no other run |
| ResultWriter.GroupDeltas | backend/worker/result_writer.py:79-85 | The dictionary has exactly the runs with a finished outcome, with their two counts |
| ResultWriter.BatchIsSequential | backend/worker/result_writer.py:45-109 | A batch xs + ys leaves the same tables as a batch xs and then a batch ys, and fails exactly when one of them would |
| ResultWriter.RunsIgnoreOrder | backend/worker/result_writer.py:78-109 | Counters and run status are the same for every permutation of a batch |
| ResultWriter.LastOutcomeWins | backend/worker/result_writer.py:61-73 | The last outcome for a task decides its row, whatever status the row had; other rows stay |
| ResultWriter.Snippet | backend/worker/result_writer.py:111-115 | The stored body is the longest prefix of at most 4096 characters |
| SingleReference.ExactlyOnce | backend/worker/task_processor.py:136-171 | In clean runs a task's recorded attempts are exactly 1 to k with k <= max_retries + 1, and a terminal outcome is committed once, exactly if the row is terminal |
| SingleReference.TerminalIsAbsorbing | backend/worker/result_writer.py:61-75 | In clean runs no step changes a terminal row |
| SingleReference.CompletedIsExact | backend/worker/result_writer.py:87-109 | In clean runs a run is COMPLETED if and only if all its tasks are terminal, and the counters never pass the total |
| SingleReference.StepStaysInPlace | backend/worker/main.py:154-233 | In clean runs every task is in exactly one place, and each step moves it along as described |
| Termination.EveryStepIsCloser | backend/scheduler/retry_sweeper.py:38-63 | In clean runs every progressing step that changes anything lowers the measure: attempts left, then stage, summed over the tasks, then open worker cycles |
| Termination.TaskExecutionsAreBounded | backend/worker/task_processor.py:136-155 | In every clean run, with other runs being created at any time and any number of deferrals, a task is executed at most max_retries + 1 times |
| Termination.AllExecutionsAreBounded | backend/worker/task_processor.py:136-155 | In every clean run, any tasks together are executed at most as often as the sum of their max_retries + 1 |
| Draining.SomethingHelps | backend/worker/main.py:154-233 | In clean runs, while a task is open some progressing step is enabled |
| Draining.EveryRunCanComplete | backend/worker/result_writer.py:99-109 | From any clean state with no run under creation, some sequence of progressing steps leads to a state in which all tasks are terminal and all runs COMPLETED |
| Draining.HelpfulRunsAreBounded | backend/scheduler/retry_sweeper.py:38-63 | From such a state there is a bound on the length of every sequence of progressing steps |
| Draining.StuckMeansCompleted | backend/worker/result_writer.py:99-109 | However the progressing steps are chosen, when none is left all tasks are terminal and all runs COMPLETED |
| Backoff.BackoffIsKept | backend/worker/task_processor.py:145-152 | With one shared clock, in clean runs, the attempt that follows n failures starts no earlier than the first failure plus the sum of the n delays |
| RetryQueue.BackoffIsMonotoneAndCapped | backend/app/queue/retry_queue.py:17-19 | Delays never fall, lie between 2 and 60, and are 60 exactly from the fifth retry on |
| RetryQueue.CumulativeBackoffClosedForm | backend/app/queue/retry_queue.py:17-19 | The delays before the attempt after n failures add up to 2^(n+1) - 2 for n <= 5 and to 62 + 60(n - 5) beyond |
| RetryQueue.RangeIsLowestDue | backend/app/queue/retry_queue.py:43-45 | The range read gives distinct due members in score order: all of them, or the `limit` lowest |
| RetryQueue.RetryZset.PopDue | backend/app/queue/retry_queue.py:33-49 | Even with ZADDs between the read and the removal, every member removed is returned, and the rest stay |
| RetrySweeper.Sweeper.SweepOnce | backend/scheduler/retry_sweeper.py:38-63 | What a sweep leaves on the stream and in the set, and what it returns, for every pattern of failures |
| RetrySweeper.NothingLostIff | backend/scheduler/retry_sweeper.py:45-63 | No popped id is missing from both the stream and the set after the sweep if and only if every id was enqueued or rescheduled, or only the last one was not and its enqueue took effect with its reply lost |
| RetrySweeper.LostIds | backend/scheduler/retry_sweeper.py:51-63 | The popped ids that are lost are exactly those from the one whose reschedule failed on, or from the next one on if its enqueue took effect |
| RetrySweeper.SweepConserves | backend/scheduler/retry_sweeper.py:45-63 | If no reschedule fails, the popped ids divide into the enqueued and the rescheduled, and the set loses exactly the enqueued ones |
| RetrySweeper.SweepCounts | backend/scheduler/retry_sweeper.py:44-63 | The number returned is the number of ids enqueued |
| RetrySweeper.EnqueuedAreAdded | backend/scheduler/retry_sweeper.py:47-49 | Every id counted as enqueued is on the stream |
| RetrySweeper.SweepIsARun | backend/scheduler/retry_sweeper.py:38-63 | A sweep, with anything that the other processes do between its read and its removal, is a run of the protocol with the same stream and set at the end |
| RetrySweeper.SweepsDrain | backend/scheduler/retry_sweeper.py:42-63 | n due tasks are drained by k clean sweeps if and only if n <= k * limit, and no other task is touched |
| ReclaimSweeper.Sweeper.SweepOnce | backend/scheduler/reclaim_sweeper.py:61-90 | What is claimed, and stream, pending list and result after a sweep, for every pattern of failures; the number returned is that of the entries whose enqueue and ack were both answered |
| ReclaimSweeper.AckedMeansEnqueued | backend/scheduler/reclaim_sweeper.py:70-79 | A claimed entry leaves the pending list exactly when its own enqueue is answered and its own ack takes effect, and then its task is on the stream again |
| ReclaimSweeper.ClaimingIsAStep | backend/app/queue/stream_client.py:77-90 | The claim is a step of the protocol |
| ReclaimSweeper.SweepIsARun | backend/scheduler/reclaim_sweeper.py:69-86 | The sweep of the claimed entries is a run of the protocol with the same stream at the end |
| Reclaim.EntriesAreProcessedOnce | backend/app/queue/stream_client.py:51-90 | In every run no stream entry is given to process_task twice: re-execution happens only by a fresh entry |
| Reclaim.NoHeldEntryIsReclaimed | backend/scheduler/reclaim_sweeper.py:20-31 | If every worker's cycle is shorter than min_idle_ms, the reclaim sweeper never holds an entry that a worker still works on |
| Streams.EntryIsKeptUntilAcked | backend/app/queue/stream_client.py:44-66 | An entry keeps its new id and its task through any commands of any consumers until an acknowledgement names it |
| Streams.AckedIsGoneForGood | backend/app/queue/stream_client.py:68-70 | An acknowledged entry never comes back, and its id is not given out again |
| Streams.ReadsAreInOrder | backend/app/queue/stream_client.py:51-66 | Successive reads give the entries in the order in which they were added, none twice and none skipped |
| Streams.StaleIffUntouched | backend/app/queue/stream_client.py:77-90 | An entry can be claimed as stale if and only if no read or claim has touched it for minIdle |
| Streams.StreamQueue.Consume | backend/app/queue/stream_client.py:51-66 | Moves the oldest undelivered entries into the pending list under this consumer |
| Streams.StreamQueue.ClaimStale | backend/app/queue/stream_client.py:77-90 | Takes at most `count` distinct stale entries over, with their tasks, and resets their idle time |
| RunContext.ContextKeyInjective | backend/app/queue/run_context.py:24-27 | Two contexts share a hash only if they belong to the same row of the same run |
| RunContext.MergeKeepsIsolated | backend/app/queue/run_context.py:33-44 | Merging extends the overlay of that run and row and no other |
| RunContext.ContextStore.MergeInto | backend/app/queue/run_context.py:33-44 | Afterwards that context is overlaid by the variables and every other context is unchanged |
| WorkerProcess.Process.ConsumeOnce | backend/worker/main.py:154-233 | One turn of the loop is this run of the protocol: fetch, one result per entry, each as process_task promises for the stores as they are then, write, and acknowledge if the write went through |
| WorkerProcess.Process.ProcessEntry | backend/worker/main.py:235-260 | The entry gets the progress of a result that process_task promises: missing and deferred tasks are done without an outcome, outcomes are kept, any other exception leaves the entry pending |
| WorkerProcess.Process.ProcessAll | backend/worker/main.py:174-177 | Every entry of the batch gets the progress of its own result of process_task, and stores and protocol state are those after these results |
| WorkerProcess.Process.Collect | backend/worker/main.py:180-193 | The ack list and the outcomes are those of the protocol's write step |
| WorkerProcess.CollectedInOrder | backend/worker/main.py:180-193 | What each result gives stands between what those before and those after it give |
| WorkerProcess.Process.WriteAndAck | backend/worker/main.py:195-233 | Entries are acknowledged only after a write that went through, and then all of them |
| TaskProcessor.Processor.ProcessTask | backend/worker/task_processor.py:74-171 | How an attempt ends for every answer of the outside world, what it leaves in the stores, and what it sends; the rows of Attempts say what that means |
| Attempts.Visible | backend/worker/task_processor.py:93-99 | Under a name an attempt sees the task's own data if it has the name, or else what the last successful attempt of its row of its run to save it has saved, or else the environment's value |
| Attempts.AttemptSends | backend/worker/executor.py:48-73 | Whatever was merged before: an attempt is deferred if and only if its URL, rendered from what it sees, has a host without a token left. Otherwise it sends one request, with URL, headers, parameters and body each rendered from what it sees; or none if a name cannot be seen, and its error names the leftmost in the first such template |
| Attempts.AttemptAsks | backend/worker/task_processor.py:186-198 | It asks for one token, of the bucket of that URL's host, and of no other |
| Attempts.AttemptIsJudged | backend/worker/task_processor.py:115-134 | The verdict is that every assertion passed; the reasons are the missing response, or else the number and the details of exactly the failed assertions in their order, and the error of the extraction from the body with what the task's data and the merges hold |
| Attempts.AttemptConcludes | backend/worker/task_processor.py:136-171 | COMPLETED if and only if there was a response, every assertion passed and every variable was extracted; otherwise RETRYING if and only if attempts are left, after min(2^attempt, 60) seconds; the outcome carries the response, the verdict, the reasons and the worker |
| Attempts.AttemptMerges | backend/worker/task_processor.py:139-144 | The variables of a completed attempt are the next merge into the context of its own run and row; no other attempt merges anything |
| Attempts.AttemptSchedules | backend/worker/task_processor.py:145-155 | A deferred attempt is scheduled a second later, a retried one for its next_retry_at, and no other is |
| Attempts.AttemptRaisesIff | backend/worker/task_processor.py:101-134 | An attempt that is not deferred raises what nobody expects if and only if its request, as rendered, has no result, or extracting from the response raises it |
| TaskProcessor.Processor.CheckRateLimit | backend/worker/task_processor.py:173-207 | At most one token is drawn, from the bucket of the resolved host; a denied attempt is rescheduled one second later, and no other |
| Throttling.RequestsAreGranted | backend/worker/task_processor.py:101-113 | Over any sequence of attempts that share a limiter, by any workers, a host receives at most as many requests as its bucket granted tokens in that span, and exactly as many if all templates resolve |
| Throttling.ResolvableIff | backend/worker/task_processor.py:93-113 | There, all templates of an attempt resolve if and only if each name in them is one that it sees |
| Throttling.RequestsAreBoundedIff | backend/app/queue/rate_limiter.py:44-65 | Every host that can be reached receives, over every such sequence and with any clock, at most the capacity plus the refill for the clock's forward movement, if and only if a bucket refills within its time to live |
| WorkerProcess.BatchMakesItsCalls | backend/worker/main.py:174-177 | A turn of the loop asks the limiter and sends as such a sequence, one attempt for each entry |
| TaskProcessor.Processor.Judge | backend/worker/task_processor.py:115-134 | The report on a response: reasons, assertion verdict and extracted variables |
| TaskProcessor.Processor.Settle | backend/worker/task_processor.py:136-171 | The retry state machine with its effects on the retry set and the chain context |
| TaskProcessor.SucceedsIff | backend/worker/task_processor.py:115-136 | An attempt succeeds if and only if there was a response, every assertion passed and every variable was extracted |
| TaskProcessor.UnexpectedIff | backend/worker/task_processor.py:101-134 | For a task whose rows are there, process_task raises what the worker does not expect if and only if the attempt is not deferred and the HTTP client raises something else than its own errors or the extraction something else than an extraction error |
| VariableExtractor.ExtractVariables | backend/worker/variable_extractor.py:18-76 | The outcome is that of each rule in turn: a json_path rule gives the first match of its own path in the body; a jwt_claim rule its claim of the token under its source variable, in the chain context overlaid by the earlier saves; a name has the value of the last rule to save it. The first rule without a value decides, and for each error its exact condition on body, matches, source, token and claim is stated |
| VariableExtractor.ExtractsIff | backend/worker/variable_extractor.py:18-76 | For all rules, bodies, contexts and libraries, that description holds of an outcome if and only if evaluating the rules in order gives it |
| VariableExtractor.MessageTellsError | backend/worker/variable_extractor.py:31-75 | The message of an error tells which error it is and what it names |
| VariableExtractor.ExtractionIsUnique | backend/worker/variable_extractor.py:18-40 | There is only one outcome that fits that description |
| VariableExtractor.LastSaveWins | backend/worker/variable_extractor.py:37-38 | A name has a value if and only if that is the value of the last rule that saves the name |
| Templates.MatchIff | backend/worker/template_resolver.py:9-9 | The scanner matches at a place if and only if a placeholder stands there, and then only one does |
| Templates.TokenizesIff | backend/worker/template_resolver.py:24-37 | Every template splits into leftmost placeholders and the literals between them in exactly one way |
| Templates.ResolvingFillsTokens | backend/worker/template_resolver.py:24-37 | Resolving gives literals and values, inserted text is not scanned again, and it fails exactly when a name is unbound, naming the leftmost |
| Templates.OneMapWouldDo | backend/worker/task_processor.py:93-99 | Data row over chain context over environment is the same as one overlaid map |
| Templates.MappingResolvesEachValue | backend/worker/template_resolver.py:40-47 | Every value is resolved under its own key, or the first one that cannot be resolved fails |
| RateLimiter.GrantedIffWithinEveryWindow | backend/app/queue/rate_limiter.py:44-65 | With any clock, a request is granted if and only if it fits every window that opens at an earlier attempt or at itself, refilled for the clock's forward movement since |
| RateLimiter.LevelIsLeastRoom | backend/app/queue/rate_limiter.py:48-54 | The level of the bucket is the least of what those windows leave |
| RateLimiter.TokensStayInRange | backend/app/queue/rate_limiter.py:53-62 | Tokens stay between 0 and the capacity, with any clock |
| RateLimiter.GrantsAreBoundedIff | backend/app/queue/rate_limiter.py:48-62 | On all traces and with any clock, what a span of attempts is granted is at most the capacity plus the refill for the clock's forward movement, if and only if the bucket refills within its time to live |
| RateLimiter.ExpiryUnobservableIff | backend/app/queue/rate_limiter.py:32-63 | The bucket with expiry answers as the bucket without, on every trace and with any clock, if and only if it refills within its time to live |
| RateLimiter.HourRefills | backend/app/queue/rate_limiter.py:32-32 | For the limiter's buckets that condition is that an hour fills them |
| RateLimiter.ExpiredIsFull | backend/app/queue/rate_limiter.py:44-63 | A key counts for as long as it lives; after that the bucket reads as full |
| RateLimiter.SlowBucketShowsExpiry | backend/app/queue/rate_limiter.py:32-63 | Otherwise, a trace of two attempts that shows the expiry |
| RateLimiter.DenialsUnobservableIff | backend/app/queue/rate_limiter.py:56-62 | On all traces whose clock does not step back, a denied attempt changes no later answer, if and only if the bucket refills within its time to live |
| RateLimiter.Limiter.CheckRefillConsume | backend/app/queue/rate_limiter.py:44-62 | The script computes the level, the decision and the bucket written |
| RateLimiter.Limiter.TryAcquire | backend/app/queue/rate_limiter.py:84-94 | The answer is that of the bucket of this host's own attempts, which is the window specification if the bucket refills within its time to live; other hosts' buckets stay |
| TestRunService.BuildTasks | backend/app/services/test_run_service.py:116-139 | Given data rows, there are |data| * |requests| tasks, and task r * |requests| + q is an untried one for request q with the index and the data of row r; without data there are |requests| tasks with neither |
| TestRunService.EveryPairHasATask | backend/app/services/test_run_service.py:129-139 | Every pair of a data row and a request has a task |
| TestRunService.PairsAreDistinct | backend/app/services/test_run_service.py:129-139 | No pair has two tasks |
| TestRunService.Service.CreateRun | backend/app/services/test_run_service.py:98-146 | Total, tasks with each row's own data, and what is on the stream, for every pattern of enqueue failures |
| TestRunService.ProductCanBeStaged | backend/app/services/test_run_service.py:118-139 | The tasks of the product, with new primary keys, are what the protocol stages |
| TestRunService.CreationIsARun | backend/app/services/test_run_service.py:118-146 | Creating a run of the product is a run of the protocol; a failed enqueue rolls a manual run back and leaves a scheduled one to be committed |
| TestRunService.CompletedIffEveryPairEnded | backend/app/services/test_run_service.py:116-140 | A run is committed with all its tasks enqueued, or by the cron sweep after a failed enqueue. After any further run in which none of its tasks was ended twice, it is COMPLETED if and only if the task of every pair of a data row and a request has ended |
| Cron.ScheduledIffActive | backend/app/services/schedule_service.py:86-123 | Over all histories of whole operations, next_run_at is set if and only if the schedule is active |
| Cron.DeletedUntilCreated | backend/app/services/schedule_service.py:125-127 | After any history, a deleted schedule stays away until one is created in its place, which has not run yet |
| Cron.FiringIsInjective | backend/scheduler/cron_scheduler.py:45-95 | The firings of an unedited schedule are for different occurrences, none in the future |
| Cron.MissedOccurrencesCoalesce | backend/scheduler/cron_scheduler.py:87-93 | Occurrences missed until the schedule advances share one firing, and no later one is skipped |
| Cron.AdvancesIffClockReached | backend/app/services/cron.py:12-15 | A schedule moves past the occurrence it fired for if and only if the clock had reached that occurrence |
| ScheduleInterleaving.AlwaysAgreeIff | backend/app/services/schedule_service.py:110-123 | Over all interleavings of edits and sweeps, split into their reads and writes, with unchanged columns left out of the UPDATE: next_run_at is set exactly for the active schedules all the time if and only if every write changes is_active, leaves next_run_at as read, or has decided on the is_active that is in the row |
| ScheduleInterleaving.MoveAgreesIff | backend/app/repositories/schedule_repository.py:48-53 | If next_run_at and is_active agree in all rows, and in those that the sessions have read, a write leaves that so if and only if it is one of those writes |
| ScheduleInterleaving.SaveIsCurrentIff | backend/app/services/schedule_service.py:115-123 | For an edit that comes down to: it has no fields, changes is_active, wants the is_active of the row, wants it off, or comes to the next_run_at that it has read |
| ScheduleInterleaving.AdvanceIsCurrentIff | backend/scheduler/cron_scheduler.py:90-93 | For a sweep: the row is still active, or the occurrence it advances to is the one that it was listed for |
| ScheduleInterleaving.LoadThenSaveIsUpdate | backend/app/services/schedule_service.py:110-123 | With nothing in between, reading a schedule and writing its changed columns is the update of the histories of whole operations |
| ScheduleInterleaving.InsertIsCreate | backend/app/repositories/schedule_repository.py:41-56 | Inserting and removing a row are the creation and the deletion of those histories |
| ScheduleInterleaving.ListThenAdvancesIsSweep | backend/scheduler/cron_scheduler.py:45-95 | With nothing in between, listing what is due and advancing each schedule listed is their sweep |
| ScheduleInterleaving.ColumnsAgreeIff | backend/app/repositories/schedule_repository.py:48-53 | Whatever columns are written from a decision that agrees into a row that agrees, the row agrees if and only if both columns are written, or neither, or the decision was on the is_active in the row |
| ScheduleInterleaving.DeactivatedDuringSweep | backend/scheduler/cron_scheduler.py:90-93 | A deactivation during a sweep that moves the schedule on leaves next_run_at set on an inactive schedule, which is not listed again |
| ScheduleInterleaving.DeactivatedDuringEdit | backend/app/services/schedule_service.py:110-123 | A deactivation during an edit of the cron expression alone that changes next_run_at does so, too |
| ScheduleInterleaving.ResentIsActiveIsLeftOut | backend/app/repositories/schedule_repository.py:48-53 | And so it does if the edit sends is_active = true along, which the session has read and the UPDATE leaves out |
| Cron.ScheduleService.CreateSchedule | backend/app/services/schedule_service.py:86-95 | The new row is that of the history, with the first occurrence after now if it is active; no other row changes |
| Cron.ScheduleService.UpdateSchedule | backend/app/services/schedule_service.py:110-123 | Each field is the one given or else the old one; any of the three recomputes next_run_at from the fields as they are then, and none leaves the row alone |
| Cron.CronScheduler.SweepOnce | backend/scheduler/cron_scheduler.py:45-99 | As many active due schedules as the limit allows are listed, and none left out is earlier; just those advance, triggered or not, each to its first occurrence after its own clock reading; the number returned is that of the triggered ones |
| Cron.ListingIsEarliest | backend/app/repositories/schedule_repository.py:28-39 | The listing has min(limit, number due) distinct active due schedules, earliest first, and none left out is earlier |
| CronSweeps.SweepFiresAllIff | backend/scheduler/cron_scheduler.py:51-95 | A sweep fires every active schedule that is due if and only if there are no more than the limit |
| CronSweeps.SweepsDrainSchedules | backend/scheduler/cron_scheduler.py:45-95 | k sweeps leave n - k * limit of n due schedules, and none if and only if n <= k * limit |
| CronSweeps.SweepsFireOnce | backend/scheduler/cron_scheduler.py:71-95 | Each of those that were due is still due and untouched, or it was fired exactly once by one of the sweeps, for the occurrence it was due for; no other schedule is touched |

## Left out

- ConsumeOnce: no other process acts within the method (interleavings are those of the protocol's small steps, where every theorem about runs applies), and the request and run of every task exist, as the foreign keys demand.
- RequestsAreBoundedIff: a request counts for the host of the URL that is sent; redirects and connection retries inside the HTTP client are not modelled.
- GrantedIffWithinEveryWindow: real arithmetic; the rounding of floats and of Lua's tostring is not modelled, and the refill rate is not negative.
- NoTaskIsLost: the state stands for one consumer group and one scheduler process, as the retry queue's own documentation demands.
- CompletedIffEveryPairEnded: the premise that no task of the run is ended twice is not checked by any code; Soundness.EndedOnceIffGuarded gives the exact condition on the batches, and it holds in clean runs (SingleReference.ExactlyOnce).
- PremisesAreExact: exactness is about states in which each open task has one reference; where a task has several, breaking a premise need not lose it.
- SweepsDrainSchedules: the sweeps are for one moment; what becomes due between them is not counted.
- FiringIsInjective: croniter is any function that gives the first occurrence strictly after its argument; expressions without a next occurrence are not modelled.
- A Redis command other than an enqueue or an ack either takes effect and is answered, or fails without effect; the lost reply of a ZADD or an HSET, and a failing EXPIRE, are exceptions of process_task in the protocol (not in the method ProcessTask, whose stores always answer); that of ZREM is not modelled.
- XAUTOCLAIM may take any of the stale entries up to its count; its scan limit and any fairness of reclaiming are not modelled.
- HTTP, timeouts, JSON, JSONPath, JWT and URL parsing, and the assertion engine's checks: parameters of the model.
- Time stamps of rows other than next_retry_at, the time to live of chain contexts, and deletion of runs, collections and workers.
- Order within asyncio.gather: processing within one batch may interleave freely in the protocol, and is one after another in the worker's method.
- Routers, schemas, authorization, exports, heartbeats and migrations.
