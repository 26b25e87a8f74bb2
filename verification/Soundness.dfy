// What every run of the protocol keeps, with no premise at all.
module Soundness {
  import opened Wrappers
  import opened Records
  import opened Sequences
  import opened ResultWriter
  import opened Ledger
  import opened RetryQueue
  import opened RunContext
  import opened Streams
  import opened TaskProcessor
  import opened Protocol

  // ---------------------------------------------------------------- the invariant

  predicate CreationOk(s: State, run: RunId)
    requires run in s.staged
  {
    var c := s.staged[run];
    && run !in s.db.runs
    && c.run.status == RunRunning && c.run.totalTasks == |c.ids|
    && c.run.completedTasks == 0 && c.run.failedTasks == 0
    && |c.ids| == |c.rows| > 0 && Distinct(c.ids) && c.enqueued <= |c.ids|
    && (forall id | id in c.ids :: id in s.used && id !in s.db.tasks)
    && forall row | row in c.rows :: FreshRow(row, run)
  }

  predicate Staging(s: State) {
    && (forall run | run in s.staged :: CreationOk(s, run))
    && (forall run, run', id | run in s.staged && run' in s.staged &&
                               id in s.staged[run].ids && id in s.staged[run'].ids ::
          run == run')
    && s.db.tasks.Keys <= s.used
  }

  predicate SlotOk(db: Tables, slot: Slot) {
    match slot.progress
    case Loaded(row) =>
      slot.entry.task in db.tasks && SameTask(row, db.tasks[slot.entry.task]) && RowOk(row)
    case Done(Some(o)) => o.taskId == slot.entry.task && Fits(db, o)
    case _ => true
  }

  predicate SlotsOk(s: State) {
    forall w | w in s.workers && s.workers[w].Gathering? ::
      forall slot | slot in s.workers[w].slots :: SlotOk(s.db, slot)
  }

  predicate Wellformed(s: State) {
    Sound(s.db) && Staging(s) && SlotsOk(s)
  }

  // ---------------------------------------------------------------- outcomes

  // The retry state machine keeps the row invariant, however stale the row it decided from.
  lemma ConcludeFits(db: Tables, task: TaskId, row: TaskRow, worker: WorkerId, report: Report, at: Time)
    requires task in db.tasks && SameTask(row, db.tasks[task])
    ensures Fits(db, Conclude(task, row, worker, report, at))
  {
  }

  lemma SlotOkStays(db: Tables, db': Tables, slot: Slot)
    requires SlotOk(db, slot)
    requires forall task | task in db.tasks :: task in db'.tasks && SameTask(db.tasks[task], db'.tasks[task])
    ensures SlotOk(db', slot)
  {
  }

  lemma {:induction false} OutcomesFromSlots(slots: seq<Slot>)
    ensures forall o | o in Outcomes(slots) :: exists slot | slot in slots :: slot.progress == Done(Some(o))
    ensures forall slot | slot in slots && slot.progress.Done? && slot.progress.outcome.Some? ::
              slot.progress.outcome.value in Outcomes(slots)
    decreases |slots|
  {
    if slots != [] {
      var front, last := slots[..|slots| - 1], slots[|slots| - 1];
      OutcomesFromSlots(front);
      forall o | o in Outcomes(slots) ensures exists slot | slot in slots :: slot.progress == Done(Some(o)) {
        if o in Outcomes(front) {
          var slot :| slot in front && slot.progress == Done(Some(o));
          assert slot in slots;
        } else {
          assert last in slots && last.progress == Done(Some(o));
        }
      }
      forall slot | slot in slots && slot.progress.Done? && slot.progress.outcome.Some?
        ensures slot.progress.outcome.value in Outcomes(slots)
      {
        assert slot in front || slot == last;
      }
    }
  }

  // ---------------------------------------------------------------- the tables

  lemma SlotsFitTheirBatch(s: State, w: WorkerId)
    requires SlotsOk(s) && PhaseOf(s, w).Gathering?
    ensures AllFit(s.db, Outcomes(PhaseOf(s, w).slots))
  {
    var slots := PhaseOf(s, w).slots;
    OutcomesFromSlots(slots);
    forall o | o in Outcomes(slots) ensures Fits(s.db, o) {
      var slot :| slot in slots && slot.progress == Done(Some(o));
      assert SlotOk(s.db, slot);
    }
  }

  // A worker's step writes its batch to the tables or leaves them alone.
  lemma WorkersWriteBatches(s: State, w: WorkerId, a: WorkerAction)
    ensures var db := StepWorker(s, w, a).db;
            || db == s.db
            || (PhaseOf(s, w).Gathering? && Referenced(s.db, Outcomes(PhaseOf(s, w).slots)) &&
                db == Written(s.db, Outcomes(PhaseOf(s, w).slots)))
  {
  }

  lemma SameTasksRefl(db: Tables)
    ensures SameTasks(db, db)
  {
  }

  lemma {:induction false} WorkerKeepsTables(s: State, w: WorkerId, a: WorkerAction)
    requires Sound(s.db) && SlotsOk(s)
    ensures Sound(StepWorker(s, w, a).db) && SameTasks(s.db, StepWorker(s, w, a).db)
    ensures StepWorker(s, w, a).db.runs.Keys == s.db.runs.Keys
  {
    WorkersWriteBatches(s, w, a);
    SameTasksRefl(s.db);
    if PhaseOf(s, w).Gathering? {
      SlotsFitTheirBatch(s, w);
      BatchKeepsSound(s.db, Outcomes(PhaseOf(s, w).slots));
    }
  }

  lemma {:induction false} NoLogsNoCount(logs: seq<ExecutionLog>, run: RunId, level: LogLevel)
    requires forall i :: 0 <= i < |logs| ==> logs[i].runId != run
    ensures LogCount(logs, run, level) == 0
    decreases |logs|
  {
    if logs != [] {
      NoLogsNoCount(logs[..|logs| - 1], run, level);
    }
  }

  lemma NewRowsFresh(s: State, run: RunId)
    requires run in s.staged && CreationOk(s, run)
    ensures var rows := NewRows(s.staged[run]);
            rows.Keys == Members(s.staged[run].ids) && forall id | id in rows :: FreshRow(rows[id], run)
  {
    var c := s.staged[run];
    var rows := NewRows(c);
    forall id | id in c.ids ensures id in rows {
      var i :| 0 <= i < |c.ids| && c.ids[i] == id;
      assert c.ids[i] !in c.ids[..i];
    }
    forall id | id in rows ensures FreshRow(rows[id], run) {
      var i :| 0 <= i < |c.ids| && c.ids[i] == id && c.ids[i] !in c.ids[..i] && rows[id] == c.rows[i];
      assert c.rows[i] in c.rows;
    }
  }

  function Committed(db: Tables, c: Creation, run: RunId): Tables {
    db.(tasks := db.tasks + NewRows(c), runs := db.runs[run := c.run])
  }

  predicate Extends(db: Tables, db': Tables) {
    forall task | task in db.tasks :: task in db'.tasks && SameTask(db.tasks[task], db'.tasks[task])
  }

  lemma {:induction false} CommitKeepsTasks(s: State, run: RunId)
    requires TasksOk(s.db) && LogsOk(s.db) && run in s.staged && CreationOk(s, run)
    ensures var db' := Committed(s.db, s.staged[run], run);
            TasksOk(db') && LogsOk(db') && Extends(s.db, db')
  {
    NewRowsFresh(s, run);
  }

  lemma CommitKeepsOtherRun(s: State, run: RunId, other: RunId)
    requires run in s.staged && CreationOk(s, run) && other in s.db.runs && TalliedRun(s.db, other)
    ensures var db' := Committed(s.db, s.staged[run], run);
            TalliedRun(db', other) && TasksOf(db', other) == TasksOf(s.db, other)
  {
    NewRowsFresh(s, run);
  }

  lemma NewRunHasNoLogs(s: State, run: RunId)
    requires run in s.staged && CreationOk(s, run) && TasksOk(s.db) && LogsOk(s.db)
    ensures LogCount(s.db.logs, run, Info) == 0 && LogCount(s.db.logs, run, LogLevel.Error) == 0
  {
    forall i | 0 <= i < |s.db.logs| ensures s.db.logs[i].runId != run { }
    NoLogsNoCount(s.db.logs, run, Info);
    NoLogsNoCount(s.db.logs, run, LogLevel.Error);
  }

  lemma TasksOfNewRun(db: Tables, db': Tables, rows: map<TaskId, TaskRow>, run: RunId)
    requires forall task | task in db.tasks :: db.tasks[task].runId != run
    requires forall task | task in rows :: rows[task].runId == run
    requires db'.tasks == db.tasks + rows
    ensures TasksOf(db', run) == rows.Keys
  {
  }

  lemma NewRunHasItsTasks(s: State, run: RunId)
    requires run in s.staged && CreationOk(s, run) && TasksOk(s.db)
    ensures |TasksOf(Committed(s.db, s.staged[run], run), run)| == |s.staged[run].ids|
  {
    NewRowsFresh(s, run);
    DistinctSize(s.staged[run].ids);
    TasksOfNewRun(s.db, Committed(s.db, s.staged[run], run), NewRows(s.staged[run]), run);
  }

  // Committing a new run leaves the tables sound: its tasks are exactly its total.
  lemma CommitKeepsSound(s: State, run: RunId)
    requires Sound(s.db) && run in s.staged && CreationOk(s, run)
    ensures Sound(Committed(s.db, s.staged[run], run))
  {
    var db' := Committed(s.db, s.staged[run], run);
    CommitKeepsTasks(s, run);
    NewRunHasNoLogs(s, run);
    NewRunHasItsTasks(s, run);
    forall other | other in s.db.runs
      ensures TalliedRun(db', other) && db'.runs[other].totalTasks == |TasksOf(db', other)|
    {
      CommitKeepsOtherRun(s, run, other);
    }
  }

  lemma CreatorsCommit(s: State, run: RunId, a: CreatorAction)
    ensures var db := StepCreator(s, run, a).db;
            db == s.db || (run in s.staged && db == Committed(s.db, s.staged[run], run))
  {
  }

  lemma {:induction false} CreatorKeepsTables(s: State, run: RunId, a: CreatorAction)
    requires Sound(s.db) && Staging(s)
    ensures Sound(StepCreator(s, run, a).db) && Extends(s.db, StepCreator(s, run, a).db)
  {
    CreatorsCommit(s, run, a);
    SameTasksRefl(s.db);
    if run in s.staged {
      CommitKeepsSound(s, run);
      CommitKeepsTasks(s, run);
    }
  }

  // ---------------------------------------------------------------- run creation

  lemma StageKeeps(s: State, run: RunId, ids: seq<TaskId>, rows: seq<TaskRow>,
                   environment: Variables, scheduled: bool)
    requires Staging(s)
    ensures Staging(StepStage(s, run, ids, rows, environment, scheduled))
  {
    var s' := StepStage(s, run, ids, rows, environment, scheduled);
    if CanStage(s, run, ids, rows) {
      forall other | other in s.staged
        ensures other != run && CreationOk(s', other) && forall id | id in s.staged[other].ids :: id !in ids
      {
        assert CreationOk(s, other);
      }
      assert CreationOk(s', run);
    }
  }

  lemma CommitKeepsStaging(s: State, run: RunId)
    requires Staging(s)
    ensures Staging(StepCommit(s, run))
  {
    var s' := StepCommit(s, run);
    if s' != s {
      assert CreationOk(s, run);
      NewRowsFresh(s, run);
      forall other | other in s'.staged ensures CreationOk(s', other) {
        assert CreationOk(s, other);
      }
    }
  }

  lemma CreatorKeepsStaging(s: State, run: RunId, a: CreatorAction)
    requires Staging(s)
    ensures Staging(StepCreator(s, run, a))
  {
    match a
    case Stage(ids, rows, environment, scheduled) => StageKeeps(s, run, ids, rows, environment, scheduled);
    case Commit => CommitKeepsStaging(s, run);
    case EnqueueStaged(reply) => EnqueueKeepsStaging(s, run, reply);
    case Abandon => AbandonKeepsStaging(s, run);
  }

  lemma EnqueueKeepsStaging(s: State, run: RunId, reply: Reply)
    requires Staging(s)
    ensures Staging(StepEnqueueStaged(s, run, reply))
  {
    var s' := StepEnqueueStaged(s, run, reply);
    forall other | other in s'.staged ensures CreationOk(s', other) {
      assert CreationOk(s, other);
    }
  }

  lemma AbandonKeepsStaging(s: State, run: RunId)
    requires Staging(s)
    ensures Staging(s.(staged := s.staged - {run}))
  {
    var s' := s.(staged := s.staged - {run});
    forall other | other in s'.staged ensures CreationOk(s', other) {
      assert CreationOk(s, other);
    }
  }

  lemma StagingStays(s: State, s': State)
    requires Staging(s) && s'.staged == s.staged && s'.used == s.used
    requires s'.db.tasks.Keys == s.db.tasks.Keys && s'.db.runs.Keys == s.db.runs.Keys
    ensures Staging(s')
  {
    forall run | run in s'.staged ensures CreationOk(s', run) {
      assert CreationOk(s, run);
    }
  }

  // ---------------------------------------------------------------- the workers' slots

  lemma SlotUpdateKeeps(s: State, w: WorkerId, i: nat, progress: Progress)
    requires SlotsOk(s) && HasSlot(s, w, i)
    requires SlotOk(s.db, SlotAt(s, w, i).(progress := progress))
    ensures SlotsOk(SetSlot(s, w, i, progress))
  {
    var s' := SetSlot(s, w, i, progress);
    forall w', slot | w' in s'.workers && s'.workers[w'].Gathering? && slot in s'.workers[w'].slots
      ensures SlotOk(s'.db, slot)
    {
      if w' == w {
        var j :| 0 <= j < |s'.workers[w].slots| && s'.workers[w].slots[j] == slot;
        assert j != i ==> s.workers[w].slots[j] in s.workers[w].slots;
      }
    }
  }

  lemma SlotsStay(s: State, s': State)
    requires SlotsOk(s) && Extends(s.db, s'.db)
    requires forall w | w in s'.workers && s'.workers[w].Gathering? :: w in s.workers && s'.workers[w] == s.workers[w]
    ensures SlotsOk(s')
  {
    forall w, slot | w in s'.workers && s'.workers[w].Gathering? && slot in s'.workers[w].slots
      ensures SlotOk(s'.db, slot)
    {
      SlotOkStays(s.db, s'.db, slot);
    }
  }

  lemma ExecuteKeepsSlots(s: State, w: WorkerId, i: nat, report: Report, at: Time)
    requires SlotsOk(s)
    ensures SlotsOk(StepExecute(s, w, i, report, at))
  {
    if HasLoaded(s, w, i) {
      var slot := SlotAt(s, w, i);
      assert slot in s.workers[w].slots && SlotOk(s.db, slot);
      var outcome := Conclude(slot.entry.task, slot.progress.row, w, report, at);
      ConcludeFits(s.db, slot.entry.task, slot.progress.row, w, report, at);
      SlotUpdateKeeps(s, w, i, Done(Some(outcome)));
      assert StepExecute(s, w, i, report, at).workers == SetSlot(s, w, i, Done(Some(outcome))).workers;
    }
  }

  lemma LoadKeepsSlots(s: State, w: WorkerId, i: nat)
    requires SlotsOk(s) && TasksOk(s.db)
    ensures SlotsOk(StepLoad(s, w, i))
  {
    if HasSlot(s, w, i) && SlotAt(s, w, i).progress.Delivered? {
      var task := SlotAt(s, w, i).entry.task;
      SlotUpdateKeeps(s, w, i, if task in s.db.tasks then Loaded(s.db.tasks[task]) else Done(None));
    }
  }

  lemma ConsumeKeepsSlots(s: State, w: WorkerId, count: nat)
    requires SlotsOk(s)
    ensures SlotsOk(StepConsume(s, w, count))
  {
  }

  lemma DeferKeepsSlots(s: State, w: WorkerId, i: nat, at: Time)
    requires SlotsOk(s)
    ensures SlotsOk(StepDefer(s, w, i, at))
  {
    if HasLoaded(s, w, i) { SlotUpdateKeeps(s, w, i, Done(None)); }
  }

  lemma RaiseKeepsSlots(s: State, w: WorkerId, i: nat, left: Residue)
    requires SlotsOk(s)
    ensures SlotsOk(StepRaise(s, w, i, left))
  {
    if HasSlot(s, w, i) { SlotUpdateKeeps(s, w, i, Raised); }
  }

  lemma EndKeepsSlots(s: State, w: WorkerId, a: WorkerAction)
    requires a.Write? || a.AckBatch? || a.Crash?
    requires SlotsOk(s) && Extends(s.db, StepWorker(s, w, a).db)
    ensures SlotsOk(StepWorker(s, w, a))
  {
    SlotsStay(s, StepWorker(s, w, a));
  }

  lemma WorkerKeepsSlots(s: State, w: WorkerId, a: WorkerAction)
    requires SlotsOk(s) && TasksOk(s.db) && Extends(s.db, StepWorker(s, w, a).db)
    ensures SlotsOk(StepWorker(s, w, a))
  {
    match a
    case Consume(count) => ConsumeKeepsSlots(s, w, count);
    case Load(i) => LoadKeepsSlots(s, w, i);
    case Execute(i, report, at) => ExecuteKeepsSlots(s, w, i, report, at);
    case Defer(i, at) => DeferKeepsSlots(s, w, i, at);
    case Raise(i, left) => RaiseKeepsSlots(s, w, i, left);
    case _ => EndKeepsSlots(s, w, a);
  }

  // ---------------------------------------------------------------- every step, every run

  lemma WorkerFrame(s: State, w: WorkerId, a: WorkerAction)
    ensures StepWorker(s, w, a).staged == s.staged && StepWorker(s, w, a).used == s.used
  {
  }

  lemma CreatorFrame(s: State, run: RunId, a: CreatorAction)
    ensures StepCreator(s, run, a).workers == s.workers
  {
  }

  lemma SweeperFrame(s: State, a: SweepAction)
    ensures var s' := StepSweeper(s, a);
            s'.db == s.db && s'.staged == s.staged && s'.used == s.used && s'.workers == s.workers
  {
  }

  lemma ReclaimerFrame(s: State, a: ReclaimAction)
    ensures var s' := StepReclaimer(s, a);
            s'.db == s.db && s'.staged == s.staged && s'.used == s.used && s'.workers == s.workers
  {
  }

  lemma {:induction false} StepKeepsWellformed(s: State, a: Action)
    requires Wellformed(s)
    ensures Wellformed(Step(s, a)) && Extends(s.db, Step(s, a).db)
  {
    var s' := Step(s, a);
    match a
    case Create(run, creating) =>
      CreatorKeepsTables(s, run, creating);
      CreatorKeepsStaging(s, run, creating);
      CreatorFrame(s, run, creating);
      SlotsStay(s, s');
    case Work(w, working) =>
      WorkerKeepsTables(s, w, working);
      WorkerFrame(s, w, working);
      WorkerKeepsSlots(s, w, working);
      StagingStays(s, s');
    case Sweep(sweeping) =>
      SweeperFrame(s, sweeping);
      SlotsStay(s, s');
      StagingStays(s, s');
    case Reclaim(reclaiming) =>
      ReclaimerFrame(s, reclaiming);
      SlotsStay(s, s');
      StagingStays(s, s');
    case _ =>
      SlotsStay(s, s');
      assert a.Tick? ==> Staging(s') by {
        if a.Tick? { StagingStays(s, s'); }
      }
  }

  lemma {:induction false} RunsAreWellformed(actions: seq<Action>)
    ensures Wellformed(Run(INITIAL, actions))
    decreases |actions|
  {
    if actions != [] {
      RunsAreWellformed(actions[..|actions| - 1]);
      StepKeepsWellformed(Run(INITIAL, actions[..|actions| - 1]), actions[|actions| - 1]);
    }
  }

  // Counter conservation: in every run the counters are the numbers of committed terminal
  // outcomes, a run is completed exactly when they reach its total, which is the number of its
  // tasks, and results and logs pair up.
  lemma {:induction false} CountersAreConserved(actions: seq<Action>, run: RunId)
    requires run in Run(INITIAL, actions).db.runs
    ensures var db := Run(INITIAL, actions).db;
            var row := db.runs[run];
            && row.completedTasks == LogCount(db.logs, run, Info)
            && row.failedTasks == LogCount(db.logs, run, LogLevel.Error)
            && (row.status == RunCompleted <==> row.completedTasks + row.failedTasks >= row.totalTasks)
            && row.totalTasks == |TasksOf(db, run)|
            && |db.results| == |db.logs|
            && forall i :: 0 <= i < |db.logs| ==> SameAttempt(db.results[i], db.logs[i])
  {
    RunsAreWellformed(actions);
    assert TalliedRun(Run(INITIAL, actions).db, run);
  }

  // In every run each result has its log, of the same attempt. It has an error if and only if that
  // log is not INFO, and then the same one; otherwise the log has its status code.
  lemma {:induction false} ResultsMatchLogs(actions: seq<Action>, i: nat)
    requires i < |Run(INITIAL, actions).db.results|
    ensures var db := Run(INITIAL, actions).db;
            && |db.logs| == |db.results|
            && var (result, log) := (db.results[i], db.logs[i]);
               (&& log.taskId == result.taskId
                && (result.errorMessage.Some? <==> log.level != Info)
                && (log.level == Info <==> log.message == TaskCompleted(result.attempt, result.statusCode))
                && (log.level == Warning <==> log.message == RetryPlanned(result.attempt, result.errorMessage))
                && (log.level == LogLevel.Error <==>
                    log.message == FailedPermanently(result.attempt, result.errorMessage)))
  {
    RunsAreWellformed(actions);
    var db := Run(INITIAL, actions).db;
    assert SameAttempt(db.results[i], db.logs[i]);
  }

  // The row invariant holds of every committed row, and of the row that any outcome still in a
  // worker's hands would write.
  lemma {:induction false} RowsKeepTheirShape(actions: seq<Action>)
    ensures var s := Run(INITIAL, actions);
            && (forall task | task in s.db.tasks :: RowOk(s.db.tasks[task]))
            && forall w, slot, o | w in s.workers && s.workers[w].Gathering? && slot in s.workers[w].slots
                 && slot.progress == Done(Some(o)) ::
                   o.taskId in s.db.tasks && RowOk(Overwrite(s.db.tasks[o.taskId], o))
  {
    RunsAreWellformed(actions);
    var s := Run(INITIAL, actions);
    forall w, slot, o | w in s.workers && s.workers[w].Gathering? && slot in s.workers[w].slots
        && slot.progress == Done(Some(o))
      ensures o.taskId in s.db.tasks && RowOk(Overwrite(s.db.tasks[o.taskId], o))
    {
      assert SlotOk(s.db, slot);
    }
  }

  // Whatever happens next, a completed run stays completed and an ended task stays ended.
  lemma CompletedIsNeverLeft(actions: seq<Action>, a: Action)
    ensures var (db, db') := (Run(INITIAL, actions).db, Step(Run(INITIAL, actions), a).db);
            && (forall run | run in db.runs && db.runs[run].status == RunCompleted ::
                  run in db'.runs && db'.runs[run].status == RunCompleted)
            && forall task: TaskId | Ended(db, task) :: Ended(db', task)
  {
    var s := Run(INITIAL, actions);
    RunsAreWellformed(actions);
    match a
    case Create(run, creating) =>
      CreatorsCommit(s, run, creating);
      assert run in s.staged ==> CreationOk(s, run);
    case Work(w, working) =>
      WorkersWriteBatches(s, w, working);
      if StepWorker(s, w, working).db != s.db {
        CompletionIsForever(s.db, Outcomes(PhaseOf(s, w).slots));
      }
    case Sweep(sweeping) => SweeperFrame(s, sweeping);
    case Reclaim(reclaiming) => ReclaimerFrame(s, reclaiming);
    case _ =>
  }

  // ---------------------------------------------------------------- when a task is ended twice

  // The batch that a write step commits, if it commits one.
  predicate Commits(s: State, w: WorkerId, reply: Reply) {
    PhaseOf(s, w).Gathering? && AllResolved(PhaseOf(s, w).slots) && Took(reply)
  }

  // The guard that the writer does not have.
  predicate Guarded(s: State, a: Action) {
    match a
    case Work(w, Write(reply)) => Commits(s, w, reply) ==> EndsFreshTasks(s.db, Outcomes(PhaseOf(s, w).slots))
    case _ => true
  }

  predicate GuardedRun(actions: seq<Action>)
    decreases |actions|
  {
    actions == [] ||
    (var front := actions[..|actions| - 1];
     GuardedRun(front) && Guarded(Run(INITIAL, front), actions[|actions| - 1]))
  }

  lemma WriteCommits(s: State, w: WorkerId, reply: Reply)
    requires Sound(s.db) && SlotsOk(s)
    ensures Commits(s, w, reply) ==>
              var outcomes := Outcomes(PhaseOf(s, w).slots);
              && AllFit(s.db, outcomes) && Referenced(s.db, outcomes)
              && StepWrite(s, w, reply).db == Written(s.db, outcomes)
    ensures !Commits(s, w, reply) ==> StepWrite(s, w, reply).db == s.db
  {
    if Commits(s, w, reply) {
      SlotsFitTheirBatch(s, w);
      BatchKeepsSound(s.db, Outcomes(PhaseOf(s, w).slots));
      WritingNothing(s.db);
    }
  }

  lemma OtherWorkLeavesTables(s: State, w: WorkerId, a: WorkerAction)
    requires !a.Write?
    ensures StepWorker(s, w, a).db == s.db
  {
  }

  lemma OnceEndedTwice(db: Tables, outcomes: seq<TaskOutcome>)
    requires AllFit(db, outcomes) && Referenced(db, outcomes) && !EndedOnce(db)
    ensures !EndedOnce(Written(db, outcomes))
  {
    var task :| task in db.tasks && TerminalCount(db.logs, task) > 1;
    EndsOnceMore(db, outcomes, task);
  }

  lemma WorkEndsOnceIff(s: State, w: WorkerId, a: WorkerAction)
    requires Sound(s.db) && SlotsOk(s)
    ensures EndedOnce(StepWorker(s, w, a).db) <==> EndedOnce(s.db) && Guarded(s, Work(w, a))
  {
    if a.Write? {
      WriteCommits(s, w, a.reply);
      if Commits(s, w, a.reply) {
        var outcomes := Outcomes(PhaseOf(s, w).slots);
        if EndedOnce(s.db) { EndedOnceIff(s.db, outcomes); } else { OnceEndedTwice(s.db, outcomes); }
      }
    } else {
      OtherWorkLeavesTables(s, w, a);
    }
  }

  lemma CommitEndsNothing(s: State, run: RunId)
    requires LogsOk(s.db) && Paired(s.db) && run in s.staged && CreationOk(s, run)
    ensures EndedOnce(Committed(s.db, s.staged[run], run)) <==> EndedOnce(s.db)
  {
    var db' := Committed(s.db, s.staged[run], run);
    NewRowsFresh(s, run);
    forall task | task in db'.tasks && task !in s.db.tasks ensures TerminalCount(s.db.logs, task) == 0 {
      NoHistory(s.db, task, |s.db.logs|);
      assert s.db.logs[..|s.db.logs|] == s.db.logs;
    }
  }

  lemma StepEndsOnceIff(s: State, a: Action)
    requires Wellformed(s)
    ensures EndedOnce(Step(s, a).db) <==> EndedOnce(s.db) && Guarded(s, a)
  {
    match a
    case Create(run, creating) =>
      CreatorsCommit(s, run, creating);
      if run in s.staged { CommitEndsNothing(s, run); }
    case Work(w, working) => WorkEndsOnceIff(s, w, working);
    case Sweep(sweeping) => SweeperFrame(s, sweeping);
    case Reclaim(reclaiming) => ReclaimerFrame(s, reclaiming);
    case _ =>
  }

  // In every run: no task has two terminal outcomes if and only if every batch that was committed
  // ended different tasks that had not ended before.
  lemma {:induction false} EndedOnceIffGuarded(actions: seq<Action>)
    ensures EndedOnce(Run(INITIAL, actions).db) <==> GuardedRun(actions)
    decreases |actions|
  {
    if actions != [] {
      var front := actions[..|actions| - 1];
      EndedOnceIffGuarded(front);
      RunsAreWellformed(front);
      StepEndsOnceIff(Run(INITIAL, front), actions[|actions| - 1]);
    }
  }

  // ---------------------------------------------------------------- when attempts are numbered right

  predicate Continued(s: State, a: Action) {
    match a
    case Work(w, Write(reply)) => Commits(s, w, reply) ==> ContinuesNumbering(s.db, Outcomes(PhaseOf(s, w).slots))
    case _ => true
  }

  predicate ContinuedRun(actions: seq<Action>)
    decreases |actions|
  {
    actions == [] ||
    (var front := actions[..|actions| - 1];
     ContinuedRun(front) && Continued(Run(INITIAL, front), actions[|actions| - 1]))
  }

  lemma WorkNumbersIff(s: State, w: WorkerId, a: WorkerAction)
    requires Sound(s.db) && SlotsOk(s)
    ensures Numbered(StepWorker(s, w, a).db) <==> Numbered(s.db) && Continued(s, Work(w, a))
  {
    if a.Write? {
      WriteCommits(s, w, a.reply);
      if Commits(s, w, a.reply) { NumberedIff(s.db, Outcomes(PhaseOf(s, w).slots)); }
    } else {
      OtherWorkLeavesTables(s, w, a);
    }
  }

  lemma CommitRecordsNothing(s: State, run: RunId)
    requires LogsOk(s.db) && Paired(s.db) && run in s.staged && CreationOk(s, run)
    ensures Numbered(Committed(s.db, s.staged[run], run)) <==> Numbered(s.db)
  {
    var db' := Committed(s.db, s.staged[run], run);
    NewRowsFresh(s, run);
    forall task | task in db'.tasks && task !in s.db.tasks ensures AttemptsOf(s.db.results, task) == [] {
      NoHistory(s.db, task, |s.db.logs|);
      assert s.db.results[..|s.db.logs|] == s.db.results;
    }
    assert CountsUp([]);
  }

  lemma StepNumbersIff(s: State, a: Action)
    requires Wellformed(s)
    ensures Numbered(Step(s, a).db) <==> Numbered(s.db) && Continued(s, a)
  {
    match a
    case Create(run, creating) =>
      CreatorsCommit(s, run, creating);
      if run in s.staged { CommitRecordsNothing(s, run); }
    case Work(w, working) => WorkNumbersIff(s, w, working);
    case Sweep(sweeping) => SweeperFrame(s, sweeping);
    case Reclaim(reclaiming) => ReclaimerFrame(s, reclaiming);
    case _ =>
  }

  // In every run: the recorded attempts of every task are 1 to k if and only if every batch that
  // was committed continued the numbering of its tasks.
  lemma {:induction false} NumberedIffContinued(actions: seq<Action>)
    ensures Numbered(Run(INITIAL, actions).db) <==> ContinuedRun(actions)
    decreases |actions|
  {
    if actions != [] {
      var front := actions[..|actions| - 1];
      NumberedIffContinued(front);
      RunsAreWellformed(front);
      StepNumbersIff(Run(INITIAL, front), actions[|actions| - 1]);
    }
  }

  // ---------------------------------------------------------------- the chain contexts

  lemma CreatorLeavesContexts(s: State, run: RunId, a: CreatorAction)
    ensures StepCreator(s, run, a).contexts == s.contexts && StepCreator(s, run, a).merges == s.merges
  {
  }

  lemma SweepersLeaveContexts(s: State, a: SweepAction, b: ReclaimAction)
    ensures StepSweeper(s, a).contexts == s.contexts && StepSweeper(s, a).merges == s.merges
    ensures StepReclaimer(s, b).contexts == s.contexts && StepReclaimer(s, b).merges == s.merges
  {
  }

  // The report of an attempt that a worker's step brings to an end, or to an exception.
  function ReportOf(a: WorkerAction): Option<Report> {
    match a
    case Execute(_, report, _) => Some(report)
    case Raise(_, Merged(report)) => Some(report)
    case _ => None
  }

  // A worker's step merges into a context only when it has executed a task successfully, and then
  // exactly that attempt's variables into the context of that task's run and row. An exception
  // after that keeps the attempt from being recorded.
  predicate MergesSuccess(s: State, s': State, w: WorkerId, a: WorkerAction) {
    && ReportOf(a).Some? && ReportOf(a).value.reasons == [] && HasLoaded(s, w, a.i)
    && var (row, variables) := (SlotAt(s, w, a.i).progress.row, ReportOf(a).value.variables);
       && s'.merges == s.merges + [MergeEvent(row.runId, row.dataRow, variables)]
       && s'.contexts == Merge(s.contexts, row.runId, row.dataRow, variables)
  }

  lemma WorkersMergeSuccesses(s: State, w: WorkerId, a: WorkerAction)
    ensures var s' := StepWorker(s, w, a);
            (s'.contexts == s.contexts && s'.merges == s.merges) || MergesSuccess(s, s', w, a)
  {
  }

  lemma {:induction false} StepKeepsContexts(s: State, a: Action)
    requires Isolated(s.contexts, s.merges)
    ensures Isolated(Step(s, a).contexts, Step(s, a).merges)
  {
    match a
    case Create(run, creating) => CreatorLeavesContexts(s, run, creating);
    case Work(w, working) =>
      WorkersMergeSuccesses(s, w, working);
      if MergesSuccess(s, Step(s, a), w, working) {
        var row := SlotAt(s, w, working.i).progress.row;
        MergeKeepsIsolated(s.contexts, s.merges, row.runId, row.dataRow, ReportOf(working).value.variables);
      }
    case Sweep(sweeping) => SweepersLeaveContexts(s, sweeping, ClaimStale([], 0));
    case Reclaim(reclaiming) => SweepersLeaveContexts(s, RemoveDue(false), reclaiming);
    case _ =>
  }

  // In every run, the context of a run and row is the overlay, in merge order, of the variables
  // of the successful attempts of that run and row, and of nothing else.
  lemma {:induction false} ContextsAreIsolated(actions: seq<Action>)
    ensures Isolated(Run(INITIAL, actions).contexts, Run(INITIAL, actions).merges)
    decreases |actions|
  {
    if actions != [] {
      ContextsAreIsolated(actions[..|actions| - 1]);
      StepKeepsContexts(Run(INITIAL, actions[..|actions| - 1]), actions[|actions| - 1]);
    }
  }

  // Every merge belongs to the run and row of a task of the tables.
  lemma {:induction false} MergesComeFromSuccesses(actions: seq<Action>, w: WorkerId, a: WorkerAction)
    ensures var s := Run(INITIAL, actions);
            var s' := Step(s, Work(w, a));
            s'.merges == s.merges ||
            (MergesSuccess(s, s', w, a) &&
             var (task, event) := (SlotAt(s, w, a.i).entry.task, s'.merges[|s.merges|]);
             task in s.db.tasks && event.run == s.db.tasks[task].runId && event.row == s.db.tasks[task].dataRow)
  {
    var s := Run(INITIAL, actions);
    RunsAreWellformed(actions);
    WorkersMergeSuccesses(s, w, a);
    if MergesSuccess(s, Step(s, Work(w, a)), w, a) {
      assert SlotOk(s.db, SlotAt(s, w, a.i));
    }
  }
}
