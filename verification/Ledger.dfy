// What the four tables say together, whatever batches were written to them.
module Ledger {
  import opened Wrappers
  import opened Records
  import opened Sequences
  import opened ResultWriter

  function LogCount(logs: seq<ExecutionLog>, run: RunId, level: LogLevel): nat {
    if logs == [] then 0
    else
      var last := logs[|logs| - 1];
      LogCount(logs[..|logs| - 1], run, level) + if last.runId == run && last.level == level then 1 else 0
  }

  // The number of terminal outcomes ever committed for a task.
  function TerminalCount(logs: seq<ExecutionLog>, task: TaskId): nat {
    if logs == [] then 0
    else
      var last := logs[|logs| - 1];
      TerminalCount(logs[..|logs| - 1], task) + if last.taskId == task && EndsTask(last.level) then 1 else 0
  }

  predicate EndsTask(level: LogLevel) {
    level == Info || level == LogLevel.Error
  }

  predicate Ended(db: Tables, task: TaskId) {
    TerminalCount(db.logs, task) > 0
  }

  function TasksOf(db: Tables, run: RunId): set<TaskId> {
    set task | task in db.tasks && db.tasks[task].runId == run
  }

  // ---------------------------------------------------------------- invariants of the tables

  predicate TalliedRun(db: Tables, run: RunId)
    requires run in db.runs
  {
    var row := db.runs[run];
    && row.completedTasks == LogCount(db.logs, run, Info)
    && row.failedTasks == LogCount(db.logs, run, LogLevel.Error)
    && row.status == if row.completedTasks + row.failedTasks >= row.totalTasks then RunCompleted else RunRunning
  }

  // A result and a log tell of the same attempt: its number and its status code or its error. Just
  // those that fail have an error.
  predicate SameAttempt(result: RequestResult, log: ExecutionLog) {
    && result.taskId == log.taskId
    && (result.errorMessage.None? <==> log.level == Info)
    && match log.level
       case Info => log.message == TaskCompleted(result.attempt, result.statusCode)
       case Warning => log.message == RetryPlanned(result.attempt, result.errorMessage)
       case Error => log.message == FailedPermanently(result.attempt, result.errorMessage)
       case Debug => false
  }

  predicate Paired(db: Tables) {
    && |db.results| == |db.logs|
    && forall i :: 0 <= i < |db.logs| ==> SameAttempt(db.results[i], db.logs[i])
  }

  predicate RowOk(row: TaskRow) {
    && (row.nextRetryAt.Some? <==> row.status == Retrying)
    && (row.status == Retrying ==> 1 <= row.retryCount <= row.maxRetries)
    && (row.status == Failed ==> row.retryCount > row.maxRetries)
  }

  predicate TasksOk(db: Tables) {
    forall task | task in db.tasks :: RowOk(db.tasks[task]) && db.tasks[task].runId in db.runs
  }

  predicate LogsOk(db: Tables) {
    forall i :: 0 <= i < |db.logs| ==>
      db.logs[i].taskId in db.tasks && db.tasks[db.logs[i].taskId].runId == db.logs[i].runId
  }

  predicate RunsOk(db: Tables) {
    forall run | run in db.runs :: TalliedRun(db, run) && db.runs[run].totalTasks == |TasksOf(db, run)|
  }

  predicate Sound(db: Tables) {
    TasksOk(db) && LogsOk(db) && Paired(db) && RunsOk(db)
  }

  // What process_task promises about an outcome: it belongs to the task's own run, has one of the
  // three concluding statuses, and an error unless it is a success, and writing it gives a row that
  // keeps the row invariant.
  predicate Fits(db: Tables, o: TaskOutcome) {
    && o.taskId in db.tasks
    && o.runId == db.tasks[o.taskId].runId
    && o.newStatus in {Completed, Failed, Retrying}
    && (o.errorMessage.None? <==> o.newStatus == Completed)
    && RowOk(Overwrite(db.tasks[o.taskId], o))
  }

  predicate AllFit(db: Tables, outcomes: seq<TaskOutcome>) {
    forall o | o in outcomes :: Fits(db, o)
  }

  // ---------------------------------------------------------------- counting lemmas

  lemma {:induction false} LogCountAppend(xs: seq<ExecutionLog>, ys: seq<ExecutionLog>, run: RunId, level: LogLevel)
    ensures LogCount(xs + ys, run, level) == LogCount(xs, run, level) + LogCount(ys, run, level)
    decreases |ys|
  {
    if ys == [] {
      assert xs + ys == xs;
    } else {
      assert (xs + ys)[..|xs + ys| - 1] == xs + ys[..|ys| - 1];
      LogCountAppend(xs, ys[..|ys| - 1], run, level);
    }
  }

  lemma {:induction false} TerminalCountAppend(xs: seq<ExecutionLog>, ys: seq<ExecutionLog>, task: TaskId)
    ensures TerminalCount(xs + ys, task) == TerminalCount(xs, task) + TerminalCount(ys, task)
    decreases |ys|
  {
    if ys == [] {
      assert xs + ys == xs;
    } else {
      assert (xs + ys)[..|xs + ys| - 1] == xs + ys[..|ys| - 1];
      TerminalCountAppend(xs, ys[..|ys| - 1], task);
    }
  }

  // The log of a batch counts what the batch counted.
  lemma {:induction false} LogsCountOutcomes(outcomes: seq<TaskOutcome>, run: RunId)
    requires forall o | o in outcomes :: o.newStatus in {Completed, Failed, Retrying}
    ensures LogCount(Map(BuildLog, outcomes), run, Info) == Count(outcomes, run, Completed)
    ensures LogCount(Map(BuildLog, outcomes), run, LogLevel.Error) == Count(outcomes, run, Failed)
    decreases |outcomes|
  {
    if outcomes != [] {
      var n := |outcomes| - 1;
      assert outcomes[n] in outcomes;
      LogsCountOutcomes(outcomes[..n], run);
      assert Map(BuildLog, outcomes)[..n] == Map(BuildLog, outcomes[..n]);
    }
  }

  // ---------------------------------------------------------------- every batch keeps the tables sound

  lemma BatchKeepsTally(db: Tables, outcomes: seq<TaskOutcome>, run: RunId)
    requires Referenced(db, outcomes) && run in db.runs && TalliedRun(db, run)
    requires forall o | o in outcomes :: o.newStatus in {Completed, Failed, Retrying}
    ensures TalliedRun(Written(db, outcomes), run)
  {
    var batch := Map(BuildLog, outcomes);
    LogsCountOutcomes(outcomes, run);
    LogCountAppend(db.logs, batch, run, Info);
    LogCountAppend(db.logs, batch, run, LogLevel.Error);
  }

  lemma BatchKeepsTasks(db: Tables, outcomes: seq<TaskOutcome>)
    requires Referenced(db, outcomes) && AllFit(db, outcomes) && TasksOk(db)
    ensures TasksOk(Written(db, outcomes)) && SameTasks(db, Written(db, outcomes))
  {
    forall task | task in db.tasks
      ensures RowOk(Written(db, outcomes).tasks[task])
      ensures SameTask(db.tasks[task], Written(db, outcomes).tasks[task])
    {
      LastOutcomeWins(db.tasks, outcomes, task);
    }
  }

  // What no write changes about a task.
  predicate SameTask(row: TaskRow, row': TaskRow) {
    && row'.runId == row.runId && row'.requestId == row.requestId && row'.maxRetries == row.maxRetries
    && row'.dataRow == row.dataRow && row'.dataContext == row.dataContext
  }

  predicate SameTasks(db: Tables, db': Tables) {
    db'.tasks.Keys == db.tasks.Keys && forall task | task in db.tasks :: SameTask(db.tasks[task], db'.tasks[task])
  }

  lemma BatchKeepsRuns(db: Tables, outcomes: seq<TaskOutcome>)
    requires Referenced(db, outcomes) && AllFit(db, outcomes) && RunsOk(db)
    requires SameTasks(db, Written(db, outcomes))
    ensures RunsOk(Written(db, outcomes))
  {
    forall run | run in db.runs
      ensures TalliedRun(Written(db, outcomes), run)
      ensures Written(db, outcomes).runs[run].totalTasks == |TasksOf(Written(db, outcomes), run)|
    {
      BatchKeepsTally(db, outcomes, run);
      assert TasksOf(Written(db, outcomes), run) == TasksOf(db, run);
    }
  }

  lemma BatchKeepsLogs(db: Tables, outcomes: seq<TaskOutcome>)
    requires Referenced(db, outcomes) && AllFit(db, outcomes) && LogsOk(db) && Paired(db)
    requires SameTasks(db, Written(db, outcomes))
    ensures LogsOk(Written(db, outcomes)) && Paired(Written(db, outcomes))
  {
    var after := Written(db, outcomes);
    forall i | 0 <= i < |after.logs|
      ensures after.logs[i].taskId in after.tasks
      ensures after.tasks[after.logs[i].taskId].runId == after.logs[i].runId
      ensures SameAttempt(after.results[i], after.logs[i])
    {
      if i >= |db.logs| {
        var o := outcomes[i - |db.logs|];
        assert o in outcomes && after.logs[i] == BuildLog(o) && after.results[i] == BuildResult(o);
      } else {
        assert after.logs[i] == db.logs[i] && after.results[i] == db.results[i];
      }
    }
  }

  // Every batch of fitting outcomes, duplicates and stale ones included, keeps the tables sound.
  lemma BatchKeepsSound(db: Tables, outcomes: seq<TaskOutcome>)
    requires Sound(db) && AllFit(db, outcomes)
    ensures Referenced(db, outcomes) && Sound(Written(db, outcomes)) && SameTasks(db, Written(db, outcomes))
  {
    assert Referenced(db, outcomes);
    BatchKeepsTasks(db, outcomes);
    BatchKeepsRuns(db, outcomes);
    BatchKeepsLogs(db, outcomes);
  }

  // A completed run stays completed and an ended task stays ended, whatever is written.
  lemma CompletionIsForever(db: Tables, outcomes: seq<TaskOutcome>)
    requires Referenced(db, outcomes)
    ensures forall run | run in db.runs && db.runs[run].status == RunCompleted ::
              Written(db, outcomes).runs[run].status == RunCompleted
    ensures forall task: TaskId | Ended(db, task) :: Ended(Written(db, outcomes), task)
  {
    forall task: TaskId | Ended(db, task) ensures Ended(Written(db, outcomes), task) {
      TerminalCountAppend(db.logs, Map(BuildLog, outcomes), task);
    }
  }

  // A terminal outcome in a batch ends its task.
  lemma {:induction false} TerminalOutcomeEnds(outcomes: seq<TaskOutcome>, o: TaskOutcome)
    requires o in outcomes && IsTerminal(o.newStatus)
    ensures TerminalCount(Map(BuildLog, outcomes), o.taskId) > 0
    decreases |outcomes|
  {
    var n := |outcomes| - 1;
    assert Map(BuildLog, outcomes)[..n] == Map(BuildLog, outcomes[..n]);
    if outcomes[n] != o {
      TerminalOutcomeEnds(outcomes[..n], o);
    }
  }

  // ---------------------------------------------------------------- completion means all done

  // The tasks of a run that some terminal log names.
  function EndedOf(logs: seq<ExecutionLog>, run: RunId): set<TaskId> {
    if logs == [] then {}
    else
      var last := logs[|logs| - 1];
      EndedOf(logs[..|logs| - 1], run) + if last.runId == run && EndsTask(last.level) then {last.taskId} else {}
  }

  lemma {:induction false} EndedOfIsLogged(logs: seq<ExecutionLog>, run: RunId, task: TaskId)
    requires task in EndedOf(logs, run)
    ensures exists i :: 0 <= i < |logs| && logs[i].taskId == task && logs[i].runId == run
    decreases |logs|
  {
    var n := |logs| - 1;
    if task in EndedOf(logs[..n], run) {
      EndedOfIsLogged(logs[..n], run, task);
      var i :| 0 <= i < n && logs[..n][i].taskId == task && logs[..n][i].runId == run;
      assert logs[i] == logs[..n][i];
    } else {
      assert logs[n].taskId == task && logs[n].runId == run;
    }
  }

  // How often a run's log ends a task.
  function EndingsIn(logs: seq<ExecutionLog>, run: RunId, task: TaskId): nat {
    if logs == [] then 0
    else
      var last := logs[|logs| - 1];
      EndingsIn(logs[..|logs| - 1], run, task) +
      if last.runId == run && last.taskId == task && EndsTask(last.level) then 1 else 0
  }

  lemma {:induction false} EndingsMakeMembers(logs: seq<ExecutionLog>, run: RunId, task: TaskId)
    ensures EndingsIn(logs, run, task) > 0 <==> task in EndedOf(logs, run)
    decreases |logs|
  {
    if logs != [] {
      EndingsMakeMembers(logs[..|logs| - 1], run, task);
    }
  }

  predicate EndsIn(log: ExecutionLog, run: RunId) {
    log.runId == run && EndsTask(log.level)
  }

  ghost predicate NoneTwice(logs: seq<ExecutionLog>, run: RunId) {
    forall task: TaskId :: EndingsIn(logs, run, task) <= 1
  }

  lemma OneMoreEnding(logs: seq<ExecutionLog>, run: RunId)
    requires logs != []
    ensures var (front, last) := (logs[..|logs| - 1], logs[|logs| - 1]);
            NoneTwice(logs, run) <==>
            NoneTwice(front, run) && (EndsIn(last, run) ==> last.taskId !in EndedOf(front, run))
  {
    var (front, last) := (logs[..|logs| - 1], logs[|logs| - 1]);
    EndingsMakeMembers(front, run, last.taskId);
    if NoneTwice(logs, run) {
      forall task: TaskId ensures EndingsIn(front, run, task) <= 1 {
        assert EndingsIn(logs, run, task) <= 1;
      }
      assert EndingsIn(logs, run, last.taskId) <= 1;
    }
    if NoneTwice(front, run) && (EndsIn(last, run) ==> last.taskId !in EndedOf(front, run)) {
      forall task: TaskId ensures EndingsIn(logs, run, task) <= 1 {
        assert EndingsIn(front, run, task) <= 1;
      }
    }
  }

  // The counters are at least the number of distinct ended tasks, and equal to it if and only if
  // no task of the run was ended twice.
  lemma {:induction false} CountersAreDistinctTasks(logs: seq<ExecutionLog>, run: RunId)
    ensures var counted := LogCount(logs, run, Info) + LogCount(logs, run, LogLevel.Error);
            counted >= |EndedOf(logs, run)| && (counted == |EndedOf(logs, run)| <==> NoneTwice(logs, run))
    decreases |logs|
  {
    if logs != [] {
      CountersAreDistinctTasks(logs[..|logs| - 1], run);
      OneMoreEnding(logs, run);
    }
  }

  lemma SubsetSize<T>(a: set<T>, b: set<T>)
    requires a <= b
    ensures |a| <= |b| && (|a| == |b| <==> a == b)
  {
    assert b == a + (b - a);
  }

  function EndedTasks(db: Tables, run: RunId): set<TaskId> {
    set task | task in TasksOf(db, run) && Ended(db, task)
  }

  lemma {:induction false} EndingsOfTask(logs: seq<ExecutionLog>, run: RunId, task: TaskId)
    requires forall i :: 0 <= i < |logs| && logs[i].taskId == task ==> logs[i].runId == run
    ensures EndingsIn(logs, run, task) == TerminalCount(logs, task)
    decreases |logs|
  {
    if logs != [] {
      EndingsOfTask(logs[..|logs| - 1], run, task);
    }
  }

  lemma EndingsAreTerminal(db: Tables, run: RunId, task: TaskId)
    requires LogsOk(db)
    ensures task in TasksOf(db, run) ==> EndingsIn(db.logs, run, task) == TerminalCount(db.logs, task)
    ensures task !in TasksOf(db, run) ==> EndingsIn(db.logs, run, task) == 0
  {
    if task in TasksOf(db, run) {
      EndingsOfTask(db.logs, run, task);
    } else {
      EndingsMakeMembers(db.logs, run, task);
      if task in EndedOf(db.logs, run) { EndedOfIsLogged(db.logs, run, task); }
    }
  }

  lemma EndedOfIsEndedTasks(db: Tables, run: RunId)
    requires LogsOk(db)
    ensures EndedOf(db.logs, run) == EndedTasks(db, run)
  {
    forall task: TaskId ensures task in EndedOf(db.logs, run) <==> task in EndedTasks(db, run) {
      EndingsAreTerminal(db, run, task);
      EndingsMakeMembers(db.logs, run, task);
    }
  }

  // The counters are never less than the number of ended tasks, and count them exactly if and
  // only if no task of the run has two terminal outcomes.
  lemma CountersExactIff(db: Tables, run: RunId)
    requires Sound(db) && run in db.runs
    ensures var counted := db.runs[run].completedTasks + db.runs[run].failedTasks;
            && counted >= |EndedTasks(db, run)|
            && (counted == |EndedTasks(db, run)| <==>
                forall task | task in TasksOf(db, run) :: TerminalCount(db.logs, task) <= 1)
  {
    assert TalliedRun(db, run);
    CountersAreDistinctTasks(db.logs, run);
    EndedOfIsEndedTasks(db, run);
    if NoneTwice(db.logs, run) {
      forall task | task in TasksOf(db, run) ensures TerminalCount(db.logs, task) <= 1 {
        EndingsAreTerminal(db, run, task);
        assert EndingsIn(db.logs, run, task) <= 1;
      }
    }
    if forall task | task in TasksOf(db, run) :: TerminalCount(db.logs, task) <= 1 {
      forall task: TaskId ensures EndingsIn(db.logs, run, task) <= 1 {
        EndingsAreTerminal(db, run, task);
      }
    }
  }

  // When all its tasks have ended, a run is completed, however often they have.
  lemma AllEndedMeansCompleted(db: Tables, run: RunId)
    requires Sound(db) && run in db.runs && forall task | task in TasksOf(db, run) :: Ended(db, task)
    ensures db.runs[run].status == RunCompleted
  {
    CountersExactIff(db, run);
    assert EndedTasks(db, run) == TasksOf(db, run) && TalliedRun(db, run);
  }

  // With at most one terminal outcome per task, the counters never pass the total, and the run is
  // completed only when every one of its tasks has ended, too.
  lemma CompletedMeansAllEnded(db: Tables, run: RunId)
    requires Sound(db) && run in db.runs
    requires forall task | task in TasksOf(db, run) :: TerminalCount(db.logs, task) <= 1
    ensures db.runs[run].completedTasks + db.runs[run].failedTasks <= db.runs[run].totalTasks
    ensures db.runs[run].status == RunCompleted <==> forall task | task in TasksOf(db, run) :: Ended(db, task)
  {
    var (ended, all) := (EndedTasks(db, run), TasksOf(db, run));
    CountersExactIff(db, run);
    assert TalliedRun(db, run) && ended <= all;
    SubsetSize(ended, all);
    if forall task | task in all :: Ended(db, task) {
      assert ended == all;
    } else {
      var task :| task in all && !Ended(db, task);
      assert task !in ended;
    }
  }

  // ---------------------------------------------------------------- when a task is ended twice

  predicate EndedOnce(db: Tables) {
    forall task | task in db.tasks :: TerminalCount(db.logs, task) <= 1
  }

  // What a guard in front of the write would have to check: no terminal outcome is for a task
  // that has ended, and no two are for the same task.
  predicate EndsFreshTasks(db: Tables, outcomes: seq<TaskOutcome>) {
    && (forall o | o in outcomes && IsTerminal(o.newStatus) :: !Ended(db, o.taskId))
    && (forall i, j ::
          0 <= i < j < |outcomes| && IsTerminal(outcomes[i].newStatus) && IsTerminal(outcomes[j].newStatus) ==>
          outcomes[i].taskId != outcomes[j].taskId)
  }

  predicate Ends(o: TaskOutcome, task: TaskId) {
    o.taskId == task && IsTerminal(o.newStatus)
  }

  function EndingsOf(outcomes: seq<TaskOutcome>, task: TaskId): nat {
    if outcomes == [] then 0
    else EndingsOf(outcomes[..|outcomes| - 1], task) + if Ends(outcomes[|outcomes| - 1], task) then 1 else 0
  }

  lemma {:induction false} LogsEnd(outcomes: seq<TaskOutcome>, task: TaskId)
    requires forall o | o in outcomes :: o.newStatus in {Completed, Failed, Retrying}
    ensures TerminalCount(Map(BuildLog, outcomes), task) == EndingsOf(outcomes, task)
    decreases |outcomes|
  {
    if outcomes != [] {
      var n := |outcomes| - 1;
      assert outcomes[n] in outcomes;
      assert Map(BuildLog, outcomes)[..n] == Map(BuildLog, outcomes[..n]);
      LogsEnd(outcomes[..n], task);
    }
  }

  lemma {:induction false} SomeEndsIff(outcomes: seq<TaskOutcome>, task: TaskId)
    ensures EndingsOf(outcomes, task) > 0 <==> exists i :: 0 <= i < |outcomes| && Ends(outcomes[i], task)
    decreases |outcomes|
  {
    if outcomes != [] {
      var n := |outcomes| - 1;
      SomeEndsIff(outcomes[..n], task);
      if EndingsOf(outcomes[..n], task) > 0 {
        var i :| 0 <= i < n && Ends(outcomes[..n][i], task);
        assert Ends(outcomes[i], task);
      }
      forall i | 0 <= i < n && Ends(outcomes[i], task) ensures EndingsOf(outcomes[..n], task) > 0 {
        assert Ends(outcomes[..n][i], task);
      }
    }
  }

  predicate TwoEnd(outcomes: seq<TaskOutcome>, task: TaskId) {
    exists i, j :: 0 <= i < j < |outcomes| && Ends(outcomes[i], task) && Ends(outcomes[j], task)
  }

  lemma {:induction false} TwoEndIff(outcomes: seq<TaskOutcome>, task: TaskId)
    ensures EndingsOf(outcomes, task) > 1 <==> TwoEnd(outcomes, task)
    decreases |outcomes|
  {
    if outcomes != [] {
      var (n, front) := (|outcomes| - 1, outcomes[..|outcomes| - 1]);
      TwoEndIff(front, task);
      SomeEndsIff(front, task);
      if TwoEnd(front, task) {
        var i, j :| 0 <= i < j < n && Ends(front[i], task) && Ends(front[j], task);
        assert Ends(outcomes[i], task) && Ends(outcomes[j], task);
      }
      if EndingsOf(front, task) > 0 && Ends(outcomes[n], task) {
        var i :| 0 <= i < n && Ends(front[i], task);
        assert Ends(outcomes[i], task) && Ends(outcomes[n], task);
      }
      if TwoEnd(outcomes, task) {
        var i, j :| 0 <= i < j < |outcomes| && Ends(outcomes[i], task) && Ends(outcomes[j], task);
        assert Ends(front[i], task) && (j < n ==> Ends(front[j], task));
      }
    }
  }

  lemma EndsOnceMore(db: Tables, outcomes: seq<TaskOutcome>, task: TaskId)
    requires AllFit(db, outcomes) && Referenced(db, outcomes)
    ensures TerminalCount(Written(db, outcomes).logs, task) == TerminalCount(db.logs, task) + EndingsOf(outcomes, task)
  {
    TerminalCountAppend(db.logs, Map(BuildLog, outcomes), task);
    LogsEnd(outcomes, task);
  }

  // A batch leaves every task with at most one terminal outcome if and only if its terminal
  // outcomes are for different tasks, none of which had ended: the check that neither process_task
  // nor write_batch makes.
  lemma EndedOnceIff(db: Tables, outcomes: seq<TaskOutcome>)
    requires AllFit(db, outcomes) && Referenced(db, outcomes) && EndedOnce(db)
    ensures EndedOnce(Written(db, outcomes)) <==> EndsFreshTasks(db, outcomes)
  {
    var db' := Written(db, outcomes);
    if EndsFreshTasks(db, outcomes) {
      forall task | task in db'.tasks ensures TerminalCount(db'.logs, task) <= 1 {
        EndsOnceMore(db, outcomes, task);
        SomeEndsIff(outcomes, task);
        TwoEndIff(outcomes, task);
      }
    }
    if EndedOnce(db') {
      forall i | 0 <= i < |outcomes| && IsTerminal(outcomes[i].newStatus)
        ensures !Ended(db, outcomes[i].taskId) && !TwoEnd(outcomes, outcomes[i].taskId)
      {
        var task := outcomes[i].taskId;
        assert outcomes[i] in outcomes && Ends(outcomes[i], task);
        EndsOnceMore(db, outcomes, task);
        SomeEndsIff(outcomes, task);
        TwoEndIff(outcomes, task);
      }
      forall i, j | 0 <= i < j < |outcomes| && IsTerminal(outcomes[i].newStatus) && IsTerminal(outcomes[j].newStatus)
        ensures outcomes[i].taskId != outcomes[j].taskId
      {
        assert !TwoEnd(outcomes, outcomes[i].taskId) && Ends(outcomes[i], outcomes[i].taskId);
      }
    }
  }

  // A terminal row leaves its terminal status if and only if the last outcome for it is RETRYING.
  lemma TerminalRowReopensIff(db: Tables, outcomes: seq<TaskOutcome>, task: TaskId)
    requires AllFit(db, outcomes) && Referenced(db, outcomes)
    requires task in db.tasks && IsTerminal(db.tasks[task].status)
    ensures var last := LastFor(outcomes, task);
            !IsTerminal(Written(db, outcomes).tasks[task].status) <==> last.Some? && last.value.newStatus == Retrying
  {
    LastOutcomeWins(db.tasks, outcomes, task);
  }

  // ---------------------------------------------------------------- the attempts of one task

  // The attempt numbers recorded for a task, in the order they were committed.
  function AttemptsOf(results: seq<RequestResult>, task: TaskId): seq<nat> {
    if results == [] then []
    else
      var last := results[|results| - 1];
      AttemptsOf(results[..|results| - 1], task) + if last.taskId == task then [last.attempt] else []
  }

  lemma {:induction false} AttemptsAppend(xs: seq<RequestResult>, ys: seq<RequestResult>, task: TaskId)
    ensures AttemptsOf(xs + ys, task) == AttemptsOf(xs, task) + AttemptsOf(ys, task)
    decreases |ys|
  {
    if ys == [] {
      assert xs + ys == xs;
    } else {
      assert (xs + ys)[..|xs + ys| - 1] == xs + ys[..|ys| - 1];
      AttemptsAppend(xs, ys[..|ys| - 1], task);
    }
  }

  predicate OnePerTask(outcomes: seq<TaskOutcome>) {
    forall i, j :: 0 <= i < j < |outcomes| ==> outcomes[i].taskId != outcomes[j].taskId
  }

  lemma {:induction false} BatchAttempts(outcomes: seq<TaskOutcome>, task: TaskId)
    requires OnePerTask(outcomes)
    ensures var last := LastFor(outcomes, task);
            AttemptsOf(Map(BuildResult, outcomes), task) == if last.Some? then [last.value.attempt] else []
    decreases |outcomes|
  {
    if outcomes != [] {
      var n := |outcomes| - 1;
      BatchAttempts(outcomes[..n], task);
      assert Map(BuildResult, outcomes)[..n] == Map(BuildResult, outcomes[..n]);
    }
  }

  lemma {:induction false} BatchEndings(outcomes: seq<TaskOutcome>, task: TaskId)
    requires OnePerTask(outcomes)
    ensures var last := LastFor(outcomes, task);
            EndingsOf(outcomes, task) == if last.Some? && IsTerminal(last.value.newStatus) then 1 else 0
    decreases |outcomes|
  {
    if outcomes != [] {
      BatchEndings(outcomes[..|outcomes| - 1], task);
    }
  }

  // What a batch with at most one outcome per task adds to the history of a task.
  lemma BatchHistory(outcomes: seq<TaskOutcome>, task: TaskId)
    requires OnePerTask(outcomes) && forall o | o in outcomes :: o.newStatus in {Completed, Failed, Retrying}
    ensures var last := LastFor(outcomes, task);
            && AttemptsOf(Map(BuildResult, outcomes), task) == (if last.Some? then [last.value.attempt] else [])
            && TerminalCount(Map(BuildLog, outcomes), task) ==
               (if last.Some? && IsTerminal(last.value.newStatus) then 1 else 0)
  {
    BatchAttempts(outcomes, task);
    BatchEndings(outcomes, task);
    LogsEnd(outcomes, task);
  }

  lemma {:induction false} NoHistory(db: Tables, task: TaskId, n: nat)
    requires LogsOk(db) && Paired(db) && task !in db.tasks && n <= |db.logs|
    ensures AttemptsOf(db.results[..n], task) == [] && TerminalCount(db.logs[..n], task) == 0
  {
    if n > 0 {
      NoHistory(db, task, n - 1);
      assert SameAttempt(db.results[n - 1], db.logs[n - 1]);
      assert db.results[..n][..n - 1] == db.results[..n - 1] && db.logs[..n][..n - 1] == db.logs[..n - 1];
    }
  }

  // ---------------------------------------------------------------- attempts without gap or repeat

  function OneTo(k: nat): seq<nat> {
    seq(k, i => i + 1)
  }

  predicate CountsUp(attempts: seq<nat>) {
    attempts == OneTo(|attempts|)
  }

  // The recorded attempts of every task are 1 to k.
  predicate Numbered(db: Tables) {
    forall task | task in db.tasks :: CountsUp(AttemptsOf(db.results, task))
  }

  function OutcomesFor(outcomes: seq<TaskOutcome>, task: TaskId): nat {
    if outcomes == [] then 0
    else OutcomesFor(outcomes[..|outcomes| - 1], task) + if outcomes[|outcomes| - 1].taskId == task then 1 else 0
  }

  // What a guard in front of the write would have to check: every outcome is of the attempt that
  // follows those recorded for its task and those before it in the batch.
  predicate ContinuesNumbering(db: Tables, outcomes: seq<TaskOutcome>) {
    forall i | 0 <= i < |outcomes| ::
      Continues(outcomes, i, |AttemptsOf(db.results, outcomes[i].taskId)|)
  }

  predicate Continues(outcomes: seq<TaskOutcome>, i: nat, recorded: nat)
    requires i < |outcomes|
  {
    outcomes[i].attempt == recorded + OutcomesFor(outcomes[..i], outcomes[i].taskId) + 1
  }

  predicate ContinuesFor(outcomes: seq<TaskOutcome>, task: TaskId, recorded: nat) {
    forall i | 0 <= i < |outcomes| && outcomes[i].taskId == task :: Continues(outcomes, i, recorded)
  }

  lemma CountsUpOneMore(attempts: seq<nat>, attempt: nat)
    ensures CountsUp(attempts + [attempt]) <==> CountsUp(attempts) && attempt == |attempts| + 1
  {
    var more := attempts + [attempt];
    assert OneTo(|more|) == OneTo(|attempts|) + [|attempts| + 1];
    if CountsUp(more) {
      assert attempts == more[..|attempts|] == OneTo(|attempts|);
      assert more[|attempts|] == attempt;
    }
  }

  lemma ContinuesOneMore(front: seq<TaskOutcome>, last: TaskOutcome, task: TaskId, recorded: nat)
    ensures ContinuesFor(front + [last], task, recorded) <==>
            ContinuesFor(front, task, recorded) &&
            (last.taskId == task ==> last.attempt == recorded + OutcomesFor(front, task) + 1)
  {
    var outcomes := front + [last];
    assert outcomes[..|front|] == front;
    forall i | 0 <= i < |front| ensures Continues(outcomes, i, recorded) <==> Continues(front, i, recorded) {
      assert outcomes[..i] == front[..i];
    }
    assert Continues(outcomes, |front|, recorded) <==>
           last.attempt == recorded + OutcomesFor(front, last.taskId) + 1;
  }

  lemma AttemptsOneMore(front: seq<TaskOutcome>, last: TaskOutcome, task: TaskId)
    ensures var added := AttemptsOf(Map(BuildResult, front), task);
            AttemptsOf(Map(BuildResult, front + [last]), task) ==
              if last.taskId == task then added + [last.attempt] else added
    ensures OutcomesFor(front + [last], task) == OutcomesFor(front, task) + if last.taskId == task then 1 else 0
  {
    var outcomes := front + [last];
    assert outcomes[..|front|] == front;
    assert Map(BuildResult, outcomes)[..|front|] == Map(BuildResult, front);
  }

  // The attempts that a batch adds to a task's are counted on if and only if its outcomes for the
  // task continue them.
  lemma {:induction false} CountsOnIff(outcomes: seq<TaskOutcome>, task: TaskId, attempts: seq<nat>)
    requires CountsUp(attempts)
    ensures var added := AttemptsOf(Map(BuildResult, outcomes), task);
            && |added| == OutcomesFor(outcomes, task)
            && (CountsUp(attempts + added) <==> ContinuesFor(outcomes, task, |attempts|))
    decreases |outcomes|
  {
    if outcomes == [] {
      assert attempts + [] == attempts;
    } else {
      var (front, last) := (outcomes[..|outcomes| - 1], outcomes[|outcomes| - 1]);
      assert outcomes == front + [last];
      CountsOnIff(front, task, attempts);
      AttemptsOneMore(front, last, task);
      ContinuesOneMore(front, last, task, |attempts|);
      if last.taskId == task { CountsOnOneMore(attempts, AttemptsOf(Map(BuildResult, front), task), last.attempt); }
    }
  }

  lemma CountsOnOneMore(attempts: seq<nat>, added: seq<nat>, attempt: nat)
    ensures CountsUp(attempts + (added + [attempt])) <==>
            CountsUp(attempts + added) && attempt == |attempts| + |added| + 1
  {
    assert attempts + (added + [attempt]) == attempts + added + [attempt];
    CountsUpOneMore(attempts + added, attempt);
  }

  lemma CountsUpBefore(attempts: seq<nat>, added: seq<nat>)
    requires CountsUp(attempts + added)
    ensures CountsUp(attempts)
  {
    assert attempts == (attempts + added)[..|attempts|];
    assert OneTo(|attempts + added|)[..|attempts|] == OneTo(|attempts|);
  }

  // A batch leaves every task's attempts 1 to k if and only if they were before and its outcomes
  // continue them: the check that neither process_task nor write_batch makes.
  lemma NumberedIff(db: Tables, outcomes: seq<TaskOutcome>)
    requires AllFit(db, outcomes) && Referenced(db, outcomes)
    ensures Numbered(Written(db, outcomes)) <==> Numbered(db) && ContinuesNumbering(db, outcomes)
  {
    var db' := Written(db, outcomes);
    forall task | task in db.tasks
      ensures CountsUp(AttemptsOf(db'.results, task)) <==>
              CountsUp(AttemptsOf(db.results, task)) &&
              ContinuesFor(outcomes, task, |AttemptsOf(db.results, task)|)
    {
      AttemptsAppend(db.results, Map(BuildResult, outcomes), task);
      if CountsUp(AttemptsOf(db.results, task)) {
        CountsOnIff(outcomes, task, AttemptsOf(db.results, task));
      } else if CountsUp(AttemptsOf(db'.results, task)) {
        CountsUpBefore(AttemptsOf(db.results, task), AttemptsOf(Map(BuildResult, outcomes), task));
      }
    }
    assert db'.tasks.Keys == db.tasks.Keys;
    forall i | 0 <= i < |outcomes| ensures outcomes[i].taskId in db.tasks {
      assert outcomes[i] in outcomes;
    }
    assert ContinuesNumbering(db, outcomes) <==>
           forall task | task in db.tasks :: ContinuesFor(outcomes, task, |AttemptsOf(db.results, task)|);
  }
}
