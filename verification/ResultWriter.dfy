// The batched writer: one commit per batch of outcomes, counters grouped by run.
module ResultWriter {
  import opened Wrappers
  import opened Records
  import opened Sequences

  const SNIPPET_MAX_CHARS: nat := 4096

  // ---------------------------------------------------------------- rows built from an outcome

  function BuildResult(o: TaskOutcome): RequestResult {
    RequestResult(o.taskId, o.attempt, o.response.statusCode, o.response.latencyMs, o.response.headers,
                  Snippet(o.response.body), o.assertionsPassed, o.errorMessage, o.workerId)
  }

  // The longest beginning of the body that the column takes.
  function Snippet(body: Option<string>): (snippet: Option<string>)
    ensures snippet.Some? <==> body.Some?
    ensures body.Some? ==> snippet.value <= body.value && |snippet.value| <= SNIPPET_MAX_CHARS
    ensures body.Some? && snippet != body ==> |snippet.value| == SNIPPET_MAX_CHARS
  {
    match body
    case None => None
    case Some(text) => Some(if |text| > SNIPPET_MAX_CHARS then text[..SNIPPET_MAX_CHARS] else text)
  }

  function LevelOf(status: TaskStatus): LogLevel {
    match status
    case Completed => Info
    case Retrying => Warning
    case _ => LogLevel.Error
  }

  function BuildLog(o: TaskOutcome): ExecutionLog {
    var level := LevelOf(o.newStatus);
    var message :=
      match level
      case Info => TaskCompleted(o.attempt, o.response.statusCode)
      case Warning => RetryPlanned(o.attempt, o.errorMessage)
      case _ => FailedPermanently(o.attempt, o.errorMessage);
    ExecutionLog(o.runId, o.taskId, level, message)
  }

  // ---------------------------------------------------------------- what a batch write means

  function Overwrite(row: TaskRow, o: TaskOutcome): TaskRow {
    row.(status := o.newStatus, retryCount := o.retryCount, nextRetryAt := o.nextRetryAt,
         assignedWorker := Some(o.workerId))
  }

  // The bulk UPDATE: unconditional, one row per outcome, in order.
  function UpdateTasks(tasks: map<TaskId, TaskRow>, outcomes: seq<TaskOutcome>): (r: map<TaskId, TaskRow>)
    requires forall o | o in outcomes :: o.taskId in tasks
    ensures r.Keys == tasks.Keys
    decreases |outcomes|
  {
    if outcomes == [] then tasks
    else
      var (front, last) := (outcomes[..|outcomes| - 1], outcomes[|outcomes| - 1]);
      var before := UpdateTasks(tasks, front);
      before[last.taskId := Overwrite(before[last.taskId], last)]
  }

  function Count(outcomes: seq<TaskOutcome>, run: RunId, status: TaskStatus): nat {
    if outcomes == [] then 0
    else
      var last := outcomes[|outcomes| - 1];
      Count(outcomes[..|outcomes| - 1], run, status) +
      if last.runId == run && last.newStatus == status then 1 else 0
  }

  function Advance(row: RunRow, completed: nat, failed: nat): RunRow {
    var counted := row.(completedTasks := row.completedTasks + completed, failedTasks := row.failedTasks + failed);
    if counted.completedTasks + counted.failedTasks >= counted.totalTasks && counted.status == RunRunning
    then counted.(status := RunCompleted)
    else counted
  }

  // A run without a finished task in the batch is not even looked at.
  function Progress(row: RunRow, run: RunId, outcomes: seq<TaskOutcome>): RunRow {
    var (completed, failed) := (Count(outcomes, run, Completed), Count(outcomes, run, Failed));
    if completed + failed == 0 then row else Advance(row, completed, failed)
  }

  function UpdateRuns(runs: map<RunId, RunRow>, outcomes: seq<TaskOutcome>): map<RunId, RunRow> {
    map run | run in runs :: Progress(runs[run], run, outcomes)
  }

  // The foreign keys of request_results and execution_logs.
  predicate Referenced(db: Tables, outcomes: seq<TaskOutcome>) {
    forall o | o in outcomes :: o.taskId in db.tasks && o.runId in db.runs
  }

  datatype WriteError = ForeignKeyViolation

  function Written(db: Tables, outcomes: seq<TaskOutcome>): Tables
    requires Referenced(db, outcomes)
  {
    Tables(UpdateTasks(db.tasks, outcomes), UpdateRuns(db.runs, outcomes),
           db.results + Map(BuildResult, outcomes), db.logs + Map(BuildLog, outcomes))
  }

  function WriteOutcome(db: Tables, outcomes: seq<TaskOutcome>): Result<Tables, WriteError> {
    if Referenced(db, outcomes) then Ok(Written(db, outcomes)) else Err(ForeignKeyViolation)
  }

  // ---------------------------------------------------------------- what it leaves, said of the outcomes alone

  predicate ResultTells(result: RequestResult, o: TaskOutcome) {
    && result.taskId == o.taskId && result.attempt == o.attempt && result.workerId == o.workerId
    && result.statusCode == o.response.statusCode && result.latencyMs == o.response.latencyMs
    && result.headers == o.response.headers
    && result.assertionsPassed == o.assertionsPassed && result.errorMessage == o.errorMessage
    && (result.bodySnippet.Some? <==> o.response.body.Some?)
    && (result.bodySnippet.Some? ==>
          && result.bodySnippet.value <= o.response.body.value
          && |result.bodySnippet.value| == if |o.response.body.value| < 4096 then |o.response.body.value| else 4096)
  }

  predicate LogTells(log: ExecutionLog, o: TaskOutcome) {
    && log.runId == o.runId && log.taskId == o.taskId
    && match o.newStatus
       case Completed => log.level == Info && log.message == TaskCompleted(o.attempt, o.response.statusCode)
       case Retrying => log.level == Warning && log.message == RetryPlanned(o.attempt, o.errorMessage)
       case _ => log.level == LogLevel.Error && log.message == FailedPermanently(o.attempt, o.errorMessage)
  }

  predicate LastAt(outcomes: seq<TaskOutcome>, task: TaskId, k: nat) {
    k < |outcomes| && outcomes[k].taskId == task && forall i | k < i < |outcomes| :: outcomes[i].taskId != task
  }

  predicate RowTakes(row: TaskRow, o: TaskOutcome, row': TaskRow) {
    && (row'.runId, row'.requestId, row'.dataRow) == (row.runId, row.requestId, row.dataRow)
    && (row'.dataContext, row'.maxRetries) == (row.dataContext, row.maxRetries)
    && (row'.status, row'.retryCount, row'.nextRetryAt) == (o.newStatus, o.retryCount, o.nextRetryAt)
    && row'.assignedWorker == Some(o.workerId)
  }

  // The last outcome for a task says what its row becomes; without one the row stays.
  predicate RowTells(row: TaskRow, task: TaskId, outcomes: seq<TaskOutcome>, row': TaskRow) {
    || (row' == row && forall i :: 0 <= i < |outcomes| ==> outcomes[i].taskId != task)
    || exists k: nat | k < |outcomes| :: LastAt(outcomes, task, k) && RowTakes(row, outcomes[k], row')
  }

  // Where the outcomes of a run have a status.
  function PlacesOf(outcomes: seq<TaskOutcome>, run: RunId, status: TaskStatus): set<nat> {
    set i: nat | i < |outcomes| && outcomes[i].runId == run && outcomes[i].newStatus == status
  }

  // Its completed and failed outcomes are counted, and end a running run that they bring to its total.
  predicate RunTells(row: RunRow, run: RunId, outcomes: seq<TaskOutcome>, row': RunRow) {
    var (completed, failed) := (|PlacesOf(outcomes, run, Completed)|, |PlacesOf(outcomes, run, Failed)|);
    && row'.totalTasks == row.totalTasks && row'.environment == row.environment
    && row'.completedTasks == row.completedTasks + completed && row'.failedTasks == row.failedTasks + failed
    && row'.status == if && completed + failed > 0 && row.status == RunRunning
                         && row'.completedTasks + row'.failedTasks >= row.totalTasks
                      then RunCompleted else row.status
  }

  predicate AppendTells<R(==)>(rows: seq<R>, outcomes: seq<TaskOutcome>, tells: (R, TaskOutcome) -> bool,
                               rows': seq<R>)
  {
    && |rows'| == |rows| + |outcomes| && rows <= rows'
    && forall i :: 0 <= i < |outcomes| ==> tells(rows'[|rows| + i], outcomes[i])
  }

  predicate Tells(db: Tables, outcomes: seq<TaskOutcome>, db': Tables) {
    && AppendTells(db.results, outcomes, ResultTells, db'.results)
    && AppendTells(db.logs, outcomes, LogTells, db'.logs)
    && db'.tasks.Keys == db.tasks.Keys && db'.runs.Keys == db.runs.Keys
    && (forall task | task in db.tasks :: RowTells(db.tasks[task], task, outcomes, db'.tasks[task]))
    && forall run | run in db.runs :: RunTells(db.runs[run], run, outcomes, db'.runs[run])
  }

  lemma OneMorePlace(outcomes: seq<TaskOutcome>, o: TaskOutcome, run: RunId, status: TaskStatus)
    ensures PlacesOf(outcomes + [o], run, status) ==
            PlacesOf(outcomes, run, status) + if o.runId == run && o.newStatus == status then {|outcomes|} else {}
  {
    var more := outcomes + [o];
    forall i: nat | i < |outcomes| ensures more[i] == outcomes[i] { }
  }

  lemma {:induction false} CountIsSize(outcomes: seq<TaskOutcome>, run: RunId, status: TaskStatus)
    ensures Count(outcomes, run, status) == |PlacesOf(outcomes, run, status)|
    decreases |outcomes|
  {
    if outcomes != [] {
      var (front, last) := (outcomes[..|outcomes| - 1], outcomes[|outcomes| - 1]);
      CountIsSize(front, run, status);
      assert front + [last] == outcomes;
      OneMorePlace(front, last, run, status);
    }
  }

  lemma {:induction false} LastForIsLast(outcomes: seq<TaskOutcome>, task: TaskId) returns (k: nat)
    requires LastFor(outcomes, task).Some?
    ensures LastAt(outcomes, task, k) && LastFor(outcomes, task) == Some(outcomes[k])
    decreases |outcomes|
  {
    k := |outcomes| - 1;
    if outcomes[k].taskId != task { k := LastForIsLast(outcomes[..k], task); }
  }

  lemma UpdatedRowTells(tasks: map<TaskId, TaskRow>, outcomes: seq<TaskOutcome>, task: TaskId)
    requires task in tasks && forall o | o in outcomes :: o.taskId in tasks
    ensures RowTells(tasks[task], task, outcomes, UpdateTasks(tasks, outcomes)[task])
  {
    LastOutcomeWins(tasks, outcomes, task);
    if LastFor(outcomes, task).Some? {
      var k := LastForIsLast(outcomes, task);
    }
  }

  lemma BuiltTells(results: seq<RequestResult>, logs: seq<ExecutionLog>, outcomes: seq<TaskOutcome>)
    ensures AppendTells(results, outcomes, ResultTells, results + Map(BuildResult, outcomes))
    ensures AppendTells(logs, outcomes, LogTells, logs + Map(BuildLog, outcomes))
  {
  }

  lemma ProgressTells(row: RunRow, run: RunId, outcomes: seq<TaskOutcome>)
    ensures RunTells(row, run, outcomes, Progress(row, run, outcomes))
  {
    CountIsSize(outcomes, run, Completed);
    CountIsSize(outcomes, run, Failed);
  }

  // Row by row, what a batch leaves is what its outcomes say.
  lemma WrittenTells(db: Tables, outcomes: seq<TaskOutcome>)
    requires Referenced(db, outcomes)
    ensures Tells(db, outcomes, Written(db, outcomes))
  {
    BuiltTells(db.results, db.logs, outcomes);
    var tasks := UpdateTasks(db.tasks, outcomes);
    forall task | task in db.tasks ensures RowTells(db.tasks[task], task, outcomes, tasks[task]) {
      UpdatedRowTells(db.tasks, outcomes, task);
    }
    forall run | run in db.runs ensures RunTells(db.runs[run], run, outcomes, UpdateRuns(db.runs, outcomes)[run]) {
      ProgressTells(db.runs[run], run, outcomes);
    }
  }

  // ---------------------------------------------------------------- the writer itself

  datatype Delta = Delta(completed: nat, failed: nat)

  class Session {
    var tables: Tables

    constructor (initial: Tables)
      ensures tables == initial
    {
      tables := initial;
    }

    // Nothing is visible outside the transaction until the commit at the end.
    method WriteBatch(outcomes: seq<TaskOutcome>) returns (r: Result<(), WriteError>)
      modifies this
      ensures r.Ok? <==> Referenced(old(tables), outcomes)
      ensures tables == if r.Ok? then Written(old(tables), outcomes) else old(tables)
      ensures r.Ok? ==> Tells(old(tables), outcomes, tables)
    {
      if Referenced(tables, outcomes) { WrittenTells(tables, outcomes); }
      if |outcomes| == 0 {
        assert outcomes == [];
        WritingNothing(tables);
        return Ok(());
      }
      if !Referenced(tables, outcomes) {
        return Err(ForeignKeyViolation);
      }
      var tasks, results, logs := WriteRows(tables, outcomes);
      var runs := UpdateRunProgress(tables.runs, outcomes);
      tables := Tables(tasks, runs, results, logs);
      r := Ok(());
    }
  }

  // A result, a log and an updated task for every outcome, in order.
  method WriteRows(db: Tables, outcomes: seq<TaskOutcome>)
    returns (tasks: map<TaskId, TaskRow>, results: seq<RequestResult>, logs: seq<ExecutionLog>)
    requires forall o | o in outcomes :: o.taskId in db.tasks
    ensures tasks == UpdateTasks(db.tasks, outcomes)
    ensures results == db.results + Map(BuildResult, outcomes)
    ensures logs == db.logs + Map(BuildLog, outcomes)
  {
    results, logs, tasks := db.results, db.logs, db.tasks;
    for i := 0 to |outcomes|
      invariant forall o | o in outcomes[..i] :: o in outcomes
      invariant results == db.results + Map(BuildResult, outcomes[..i])
      invariant logs == db.logs + Map(BuildLog, outcomes[..i])
      invariant tasks == UpdateTasks(db.tasks, outcomes[..i])
    {
      var o := outcomes[i];
      WritingOneMore(db.tasks, outcomes, i);
      results := results + [BuildResult(o)];
      logs := logs + [BuildLog(o)];
      tasks := tasks[o.taskId := Overwrite(tasks[o.taskId], o)];
    }
    assert outcomes[..|outcomes|] == outcomes;
  }

  method UpdateRunProgress(runs: map<RunId, RunRow>, outcomes: seq<TaskOutcome>) returns (updated: map<RunId, RunRow>)
    requires forall o | o in outcomes :: o.runId in runs
    ensures updated == UpdateRuns(runs, outcomes)
  {
    var deltas := GroupDeltas(outcomes);
    forall run | run in deltas ensures run in runs {
      assert Grouped(deltas, outcomes, run);
      CountedIsPresent(outcomes, run);
    }
    updated := runs;
    var remaining := deltas.Keys;
    while remaining != {}
      invariant remaining <= deltas.Keys
      invariant updated.Keys == runs.Keys
      invariant forall run <- runs ::
        updated[run] == if run in remaining || run !in deltas then runs[run] else Progress(runs[run], run, outcomes)
    {
      var run :| run in remaining;
      assert Grouped(deltas, outcomes, run);
      var delta := deltas[run];
      var row := updated[run];
      row := row.(completedTasks := row.completedTasks + delta.completed,
                  failedTasks := row.failedTasks + delta.failed);
      var isNowFinished := row.completedTasks + row.failedTasks >= row.totalTasks;
      if isNowFinished && row.status == RunRunning {
        row := row.(status := RunCompleted);
      }
      updated := updated[run := row];
      remaining := remaining - {run};
    }
    forall run | run in runs ensures updated[run] == Progress(runs[run], run, outcomes) {
      assert Grouped(deltas, outcomes, run);
    }
  }

  // What the dictionary of deltas holds for a run.
  predicate Grouped(deltas: map<RunId, Delta>, outcomes: seq<TaskOutcome>, run: RunId) {
    var (completed, failed) := (Count(outcomes, run, Completed), Count(outcomes, run, Failed));
    && (run in deltas <==> completed + failed > 0)
    && (run in deltas ==> deltas[run] == Delta(completed, failed))
  }

  method GroupDeltas(outcomes: seq<TaskOutcome>) returns (deltas: map<RunId, Delta>)
    ensures forall run: RunId :: Grouped(deltas, outcomes, run)
  {
    deltas := map[];
    for i := 0 to |outcomes|
      invariant forall run: RunId :: Grouped(deltas, outcomes[..i], run)
    {
      var o := outcomes[i];
      ghost var before := deltas;
      if o.newStatus == Completed || o.newStatus == Failed {
        var delta := if o.runId in deltas then deltas[o.runId] else Delta(0, 0);
        delta := if o.newStatus == Completed then delta.(completed := delta.completed + 1)
                 else delta.(failed := delta.failed + 1);
        deltas := deltas[o.runId := delta];
      }
      forall run: RunId {:trigger Grouped(deltas, outcomes[..i + 1], run)}
        ensures Grouped(deltas, outcomes[..i + 1], run)
      {
        assert Grouped(before, outcomes[..i], run);
        CountingOneMore(outcomes, i, run, Completed);
        CountingOneMore(outcomes, i, run, Failed);
      }
    }
    assert outcomes[..|outcomes|] == outcomes;
  }

  lemma {:induction false} CountedIsPresent(outcomes: seq<TaskOutcome>, run: RunId)
    requires Count(outcomes, run, Completed) + Count(outcomes, run, Failed) > 0
    ensures exists o <- outcomes :: o.runId == run
    decreases |outcomes|
  {
    var front, last := outcomes[..|outcomes| - 1], outcomes[|outcomes| - 1];
    if last.runId == run {
      assert last in outcomes;
    } else {
      CountedIsPresent(front, run);
      var o :| o in front && o.runId == run;
      assert o in outcomes;
    }
  }

  lemma WritingOneMore(tasks: map<TaskId, TaskRow>, outcomes: seq<TaskOutcome>, i: nat)
    requires i < |outcomes| && forall o | o in outcomes :: o.taskId in tasks
    ensures Map(BuildResult, outcomes[..i + 1]) == Map(BuildResult, outcomes[..i]) + [BuildResult(outcomes[i])]
    ensures Map(BuildLog, outcomes[..i + 1]) == Map(BuildLog, outcomes[..i]) + [BuildLog(outcomes[i])]
    ensures var before := UpdateTasks(tasks, outcomes[..i]);
            UpdateTasks(tasks, outcomes[..i + 1]) ==
            before[outcomes[i].taskId := Overwrite(before[outcomes[i].taskId], outcomes[i])]
  {
    assert outcomes[..i + 1][..i] == outcomes[..i];
    MapOneMore(BuildResult, outcomes, i);
    MapOneMore(BuildLog, outcomes, i);
  }

  lemma CountingOneMore(outcomes: seq<TaskOutcome>, i: nat, run: RunId, status: TaskStatus)
    requires i < |outcomes|
    ensures Count(outcomes[..i + 1], run, status) ==
            Count(outcomes[..i], run, status) +
            if outcomes[i].runId == run && outcomes[i].newStatus == status then 1 else 0
  {
    assert outcomes[..i + 1][..i] == outcomes[..i];
  }

  lemma WritingNothing(db: Tables)
    ensures Written(db, []) == db
  {
    assert UpdateRuns(db.runs, []) == db.runs;
  }

  // ---------------------------------------------------------------- batching refines one write after another

  lemma {:induction false} CountAppend(xs: seq<TaskOutcome>, ys: seq<TaskOutcome>, run: RunId, status: TaskStatus)
    ensures Count(xs + ys, run, status) == Count(xs, run, status) + Count(ys, run, status)
    decreases |ys|
  {
    if ys == [] {
      assert xs + ys == xs;
    } else {
      assert (xs + ys)[..|xs + ys| - 1] == xs + ys[..|ys| - 1];
      CountAppend(xs, ys[..|ys| - 1], run, status);
    }
  }

  lemma {:induction false} UpdateTasksAppend(tasks: map<TaskId, TaskRow>, xs: seq<TaskOutcome>, ys: seq<TaskOutcome>)
    requires forall o | o in xs + ys :: o.taskId in tasks
    ensures forall o | o in xs :: o.taskId in tasks
    ensures forall o | o in ys :: o.taskId in tasks
    ensures UpdateTasks(tasks, xs + ys) == UpdateTasks(UpdateTasks(tasks, xs), ys)
    decreases |ys|
  {
    assert forall o | o in xs :: o in xs + ys;
    assert forall o | o in ys :: o in xs + ys;
    if ys == [] {
      assert xs + ys == xs;
    } else {
      assert (xs + ys)[..|xs + ys| - 1] == xs + ys[..|ys| - 1];
      UpdateTasksAppend(tasks, xs, ys[..|ys| - 1]);
    }
  }

  lemma ProgressAppend(row: RunRow, run: RunId, xs: seq<TaskOutcome>, ys: seq<TaskOutcome>)
    ensures Progress(row, run, xs + ys) == Progress(Progress(row, run, xs), run, ys)
  {
    CountAppend(xs, ys, run, Completed);
    CountAppend(xs, ys, run, Failed);
  }

  lemma UpdateRunsAppend(runs: map<RunId, RunRow>, xs: seq<TaskOutcome>, ys: seq<TaskOutcome>)
    ensures UpdateRuns(runs, xs + ys) == UpdateRuns(UpdateRuns(runs, xs), ys)
  {
    forall run | run in runs
      ensures UpdateRuns(runs, xs + ys)[run] == UpdateRuns(UpdateRuns(runs, xs), ys)[run]
    {
      ProgressAppend(runs[run], run, xs, ys);
    }
  }

  lemma ReferencedAppend(db: Tables, xs: seq<TaskOutcome>, ys: seq<TaskOutcome>)
    ensures Referenced(db, xs + ys) <==> Referenced(db, xs) && Referenced(db, ys)
  {
    assert forall o | o in xs :: o in xs + ys;
    assert forall o | o in ys :: o in xs + ys;
  }

  lemma AppendTo<B>(build: TaskOutcome -> B, rows: seq<B>, xs: seq<TaskOutcome>, ys: seq<TaskOutcome>)
    ensures rows + Map(build, xs + ys) == rows + Map(build, xs) + Map(build, ys)
  {
    MapAppend(build, xs, ys);
  }

  lemma WrittenKeepsReferences(db: Tables, xs: seq<TaskOutcome>, ys: seq<TaskOutcome>)
    requires Referenced(db, xs) && Referenced(db, ys)
    ensures Referenced(Written(db, xs), ys)
  {
  }

  lemma WrittenAppend(db: Tables, xs: seq<TaskOutcome>, ys: seq<TaskOutcome>)
    requires Referenced(db, xs) && Referenced(db, ys)
    requires Referenced(db, xs + ys) && Referenced(Written(db, xs), ys)
    ensures Written(db, xs + ys) == Written(Written(db, xs), ys)
  {
    UpdateTasksAppend(db.tasks, xs, ys);
    UpdateRunsAppend(db.runs, xs, ys);
    AppendTo(BuildResult, db.results, xs, ys);
    AppendTo(BuildLog, db.logs, xs, ys);
  }

  // One batch of xs + ys leaves exactly the tables that a batch of xs and then one of ys leave,
  // and fails exactly when one of the two would have.
  lemma BatchIsSequential(db: Tables, xs: seq<TaskOutcome>, ys: seq<TaskOutcome>)
    ensures WriteOutcome(db, xs + ys) ==
            match WriteOutcome(db, xs)
            case Ok(middle) => WriteOutcome(middle, ys)
            case Err(e) => Err(e)
  {
    ReferencedAppend(db, xs, ys);
    if Referenced(db, xs) && Referenced(db, ys) {
      WrittenKeepsReferences(db, xs, ys);
      WrittenAppend(db, xs, ys);
    }
  }

  // ---------------------------------------------------------------- the order of a batch

  lemma {:induction false} CountPermuted(xs: seq<TaskOutcome>, ys: seq<TaskOutcome>, run: RunId, status: TaskStatus)
    requires multiset(xs) == multiset(ys)
    ensures Count(xs, run, status) == Count(ys, run, status)
    decreases |xs|
  {
    if xs == [] {
      assert |multiset(ys)| == 0;
    } else {
      var j := LastElsewhere(xs, ys);
      assert ys == ys[..j] + [ys[j]] + ys[j + 1..];
      CountPermuted(xs[..|xs| - 1], ys[..j] + ys[j + 1..], run, status);
      CountAppend(ys[..j], ys[j + 1..], run, status);
      CountAppend(ys[..j] + [ys[j]], ys[j + 1..], run, status);
      CountAppend(ys[..j], [ys[j]], run, status);
    }
  }

  // Counters and run status do not depend on the order of the outcomes in a batch.
  lemma RunsIgnoreOrder(runs: map<RunId, RunRow>, xs: seq<TaskOutcome>, ys: seq<TaskOutcome>)
    requires multiset(xs) == multiset(ys)
    ensures UpdateRuns(runs, xs) == UpdateRuns(runs, ys)
  {
    forall run | run in runs ensures Progress(runs[run], run, xs) == Progress(runs[run], run, ys) {
      CountPermuted(xs, ys, run, Completed);
      CountPermuted(xs, ys, run, Failed);
    }
  }

  // The outcome that a batch leaves in a task's row.
  function LastFor(outcomes: seq<TaskOutcome>, task: TaskId): (r: Option<TaskOutcome>)
    ensures r.Some? ==> r.value in outcomes && r.value.taskId == task
    ensures r.None? ==> forall o | o in outcomes :: o.taskId != task
    decreases |outcomes|
  {
    if outcomes == [] then None
    else
      var last := outcomes[|outcomes| - 1];
      if last.taskId == task then Some(last) else LastFor(outcomes[..|outcomes| - 1], task)
  }

  // A row that the batch does not mention is left alone; otherwise its last outcome decides it,
  // whatever status the row had before.
  lemma {:induction false} LastOutcomeWins(tasks: map<TaskId, TaskRow>, outcomes: seq<TaskOutcome>, task: TaskId)
    requires task in tasks && forall o | o in outcomes :: o.taskId in tasks
    ensures UpdateTasks(tasks, outcomes)[task] ==
            match LastFor(outcomes, task)
            case None => tasks[task]
            case Some(o) => Overwrite(tasks[task], o)
    decreases |outcomes|
  {
    if outcomes != [] {
      LastOutcomeWins(tasks, outcomes[..|outcomes| - 1], task);
    }
  }
}
