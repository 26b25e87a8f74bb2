// The exactly-once fragment: runs without failures or reclaims in which a retry is not swept
// before the attempt that scheduled it is committed. There every task is in exactly one place: in
// the stream, in a worker's hands, in the retry set, in the sweeper's list, or finished. A step
// takes a task from one place to the next, and what the tables say of the task follows from its
// place.
module SingleReference {
  import opened Wrappers
  import opened Records
  import opened Sequences
  import opened ResultWriter
  import opened Ledger
  import opened RetryQueue
  import opened Streams
  import opened TaskProcessor
  import opened Protocol
  import opened Soundness
  import opened NoTaskLost

  // ---------------------------------------------------------------- the fragment

  // A worker holds an outcome of the task that is not committed yet.
  predicate Uncommitted(s: State, task: TaskId) {
    exists w | w in s.workers && s.workers[w].Gathering? ::
      exists slot | slot in s.workers[w].slots ::
        slot.entry.task == task && slot.progress.Done? && slot.progress.outcome.Some?
  }

  predicate Clean(s: State, a: Action) {
    match a
    case Create(_, EnqueueStaged(reply)) => reply.Replies?
    case Create(_, Abandon) => false
    case Create(_, _) => true
    case Work(w, Load(i)) => CanLoad(s, w, i) ==> !IsStaged(s.staged, SlotAt(s, w, i).entry.task)
    case Work(_, Raise(_, _)) => false
    case Work(_, Write(reply)) => reply.Replies?
    case Work(_, AckBatch(reply)) => reply.Replies?
    case Work(_, Crash) => false
    case Work(_, _) => true
    case Sweep(RemoveDue(ok)) =>
      s.sweep.Reading? && ok ==> forall task | task in s.sweep.ids :: !Uncommitted(s, task)
    case Sweep(Reenqueue(reply, _, _)) => reply.Replies?
    case Sweep(_) => true
    case Reclaim(_) => false
    case RestartBackend => false
    case Tick(_) => true
  }

  predicate CleanRun(actions: seq<Action>)
    decreases |actions|
  {
    actions == [] ||
    (CleanRun(actions[..|actions| - 1]) && Clean(Run(INITIAL, actions[..|actions| - 1]), actions[|actions| - 1]))
  }

  // ---------------------------------------------------------------- the one place of a task

  datatype Place =
    | InStream(id: EntryId)
    | Fetched(w: WorkerId, i: nat)     // in a slot, not executed yet
    | Executed(w: WorkerId, i: nat)    // in a slot, its outcome not committed yet
    | Waiting                          // in the retry set
    | Moved                            // popped by the retry sweeper
    | Finished

  type Places = map<TaskId, Place>

  type Workers = map<WorkerId, Phase>

  function SlotIn(workers: Workers, w: WorkerId, i: nat): Option<Slot> {
    if w in workers && workers[w].Gathering? && i < |workers[w].slots| then Some(workers[w].slots[i]) else None
  }

  predicate Sits(stream: Stream, at: Places, k: nat)
    requires k < |stream.queue|
  {
    stream.queue[k] in at && at[stream.queue[k]] == InStream(stream.next + k)
  }

  predicate Queues(stream: Stream, id: EntryId, task: TaskId) {
    stream.next <= id < stream.next + |stream.queue| && stream.queue[id - stream.next] == task
  }

  predicate QueueAt(stream: Stream, at: Places) {
    && (forall k :: 0 <= k < |stream.queue| ==> Sits(stream, at, k))
    && (forall task {:trigger Queues(stream, at[task].id, task)} | task in at && at[task].InStream? ::
          Queues(stream, at[task].id, task))
  }

  // The outcome that the retry state machine reaches from the committed row.
  predicate Follows(row: TaskRow, o: TaskOutcome) {
    && o.attempt == row.retryCount + 1
    && match o.newStatus
       case Completed => o.retryCount == row.retryCount
       case Retrying => o.retryCount == row.retryCount + 1 <= row.maxRetries
       case Failed => o.retryCount == row.retryCount + 1 > row.maxRetries
       case _ => false
  }

  predicate SlotAtPlace(tasks: map<TaskId, TaskRow>, at: Places, w: WorkerId, i: nat, slot: Slot) {
    var task := slot.entry.task;
    match slot.progress
    case Delivered => task in at && at[task] == Fetched(w, i)
    case Loaded(row) => task in at && at[task] == Fetched(w, i) && task in tasks && row == tasks[task]
    case Raised => false
    case Done(None) => true
    case Done(Some(o)) =>
      task in at && at[task] == Executed(w, i) && o.taskId == task && task in tasks && Follows(tasks[task], o)
  }

  predicate HoldsOpen(slot: Option<Slot>, task: TaskId) {
    slot.Some? && slot.value.entry.task == task && !Resolved(slot.value)
  }

  predicate HoldsOutcome(slot: Option<Slot>, task: TaskId) {
    slot.Some? && slot.value.entry.task == task && slot.value.progress.Done? && slot.value.progress.outcome.Some?
  }

  ghost predicate HandsAt(workers: Workers, tasks: map<TaskId, TaskRow>, at: Places) {
    && (forall w, i: nat :: SlotIn(workers, w, i).Some? ==> SlotAtPlace(tasks, at, w, i, SlotIn(workers, w, i).value))
    && (forall task | task in at && at[task].Fetched? :: HoldsOpen(SlotIn(workers, at[task].w, at[task].i), task))
    && (forall task | task in at && at[task].Executed? :: HoldsOutcome(SlotIn(workers, at[task].w, at[task].i), task))
  }

  // Executed, and to be retried: the retry is scheduled although the outcome is not committed.
  predicate WillRetry(workers: Workers, place: Place) {
    place.Executed? &&
    match SlotIn(workers, place.w, place.i)
    case Some(Slot(_, Done(Some(o)))) => o.newStatus == Retrying
    case _ => false
  }

  predicate RetryAt(retry: Scores, workers: Workers, at: Places) {
    && (forall task | task in retry :: task in at && (at[task].Waiting? || WillRetry(workers, at[task])))
    && (forall task | task in at && (at[task].Waiting? || WillRetry(workers, at[task])) :: task in retry)
  }

  predicate SweepAt(sweep: SweepPhase, retry: Scores, at: Places) {
    && (!sweep.Resting? ==> sweep.ids != [] && Distinct(sweep.ids))
    && (sweep.Reading? ==> forall task | task in sweep.ids :: task in retry)
    && (sweep.Moving? ==> forall task | task in sweep.ids :: task in at && at[task].Moved?)
    && (forall task | task in at && at[task].Moved? :: sweep.Moving? && task in sweep.ids)
  }

  function Max0(n: int): nat {
    if n < 0 then 0 else n
  }

  // The number of attempts that a committed row stands for.
  function Recorded(row: TaskRow): nat {
    if row.status == Completed then row.retryCount + 1 else row.retryCount
  }

  predicate RowAt(db: Tables, task: TaskId, place: Place)
    requires task in db.tasks
  {
    var row := db.tasks[task];
    && (IsTerminal(row.status) <==> place.Finished?)
    && row.retryCount <= Max0(row.maxRetries) + (if row.status == Failed then 1 else 0)
    && AttemptsOf(db.results, task) == OneTo(Recorded(row))
    && TerminalCount(db.logs, task) == if place.Finished? then 1 else 0
  }

  predicate RowsAt(db: Tables, at: Places) {
    && (forall task | task in db.tasks :: task in at && RowAt(db, task, at[task]))
    && (forall task | task in at && task !in db.tasks :: at[task].InStream? || at[task].Fetched?)
  }

  predicate CreationAt(c: Creation, at: Places) {
    !c.broken && forall k | 0 <= k < |c.ids| :: c.ids[k] in at <==> k < c.enqueued
  }

  predicate StagedAt(staged: map<RunId, Creation>, tasks: map<TaskId, TaskRow>, at: Places) {
    && (forall task | task in at :: task in tasks || IsStaged(staged, task))
    && (forall run | run in staged :: CreationAt(staged[run], at))
  }

  ghost predicate InPlace(s: State, at: Places) {
    && QueueAt(s.stream, at)
    && HandsAt(s.workers, s.db.tasks, at)
    && RetryAt(s.retry, s.workers, at)
    && SweepAt(s.sweep, s.retry, at)
    && RowsAt(s.db, at)
    && StagedAt(s.staged, s.db.tasks, at)
    && s.claimed == []
  }

  // ---------------------------------------------------------------- run creation

  lemma {:induction false} StageStaysInPlace(s: State, at: Places, run: RunId, ids: seq<TaskId>, rows: seq<TaskRow>,
                          environment: Variables, scheduled: bool)
    requires InPlace(s, at) && Staging(s)
    ensures InPlace(StepStage(s, run, ids, rows, environment, scheduled), at)
  {
    var s' := StepStage(s, run, ids, rows, environment, scheduled);
    if CanStage(s, run, ids, rows) {
      StagedGrows(s, at, run, s'.staged[run]);
    }
  }

  lemma StagedGrows(s: State, at: Places, run: RunId, c: Creation)
    requires StagedAt(s.staged, s.db.tasks, at) && Staging(s) && run !in s.staged
    requires !c.broken && c.enqueued == 0 && forall id | id in c.ids :: id !in s.used
    ensures StagedAt(s.staged[run := c], s.db.tasks, at)
  {
    var staged' := s.staged[run := c];
    forall task | task in at && task !in s.db.tasks ensures IsStaged(staged', task) {
      var other :| other in s.staged && task in s.staged[other].ids;
      assert task in staged'[other].ids;
    }
    forall task | task in at ensures task !in c.ids {
      PlacedIsUsed(s, at, task);
    }
  }

  lemma PlacedIsUsed(s: State, at: Places, task: TaskId)
    requires StagedAt(s.staged, s.db.tasks, at) && Staging(s) && task in at
    ensures task in s.used
  {
    if task !in s.db.tasks {
      var run :| run in s.staged && task in s.staged[run].ids;
      assert CreationOk(s, run);
    }
  }

  function OneMore(staged: map<RunId, Creation>, run: RunId): map<RunId, Creation>
    requires run in staged
  {
    staged[run := staged[run].(enqueued := staged[run].enqueued + 1)]
  }

  lemma OnlyThisTask(s: State, run: RunId, other: RunId, k: nat)
    requires Staging(s) && run in s.staged && s.staged[run].enqueued < |s.staged[run].ids|
    requires other in s.staged && k < |s.staged[other].ids|
    requires s.staged[other].ids[k] == s.staged[run].ids[s.staged[run].enqueued]
    ensures other == run && k == s.staged[run].enqueued
  {
    var task := s.staged[other].ids[k];
    assert task in s.staged[other].ids && task in s.staged[run].ids && CreationOk(s, run);
  }

  lemma CreationsAdvance(s: State, at: Places, at': Places, run: RunId, other: RunId)
    requires StagedAt(s.staged, s.db.tasks, at) && Staging(s) && run in s.staged && other in s.staged
    requires s.staged[run].enqueued < |s.staged[run].ids|
    requires at'.Keys == at.Keys + {s.staged[run].ids[s.staged[run].enqueued]}
    ensures CreationAt(OneMore(s.staged, run)[other], at')
  {
    assert CreationAt(s.staged[other], at);
    var task := s.staged[run].ids[s.staged[run].enqueued];
    forall k | 0 <= k < |s.staged[other].ids| && s.staged[other].ids[k] == task
      ensures other == run && k == s.staged[run].enqueued
    {
      OnlyThisTask(s, run, other, k);
    }
  }

  lemma StagedAdvances(s: State, at: Places, at': Places, run: RunId)
    requires StagedAt(s.staged, s.db.tasks, at) && Staging(s) && run in s.staged
    requires s.staged[run].enqueued < |s.staged[run].ids|
    requires at'.Keys == at.Keys + {s.staged[run].ids[s.staged[run].enqueued]}
    ensures StagedAt(OneMore(s.staged, run), s.db.tasks, at')
  {
    var staged' := OneMore(s.staged, run);
    forall t | t in at' && t !in s.db.tasks ensures IsStaged(staged', t) {
      if t in at {
        var other :| other in s.staged && t in s.staged[other].ids;
        assert t in staged'[other].ids;
      } else {
        assert t in staged'[run].ids;
      }
    }
    forall other | other in staged' ensures CreationAt(staged'[other], at') {
      CreationsAdvance(s, at, at', run, other);
    }
  }

  // A task that no queue entry and no slot holds enters the stream.
  predicate Outside(at: Places, task: TaskId) {
    task in at ==> at[task].Moved?
  }

  lemma EnterQueue(stream: Stream, at: Places, task: TaskId)
    requires QueueAt(stream, at) && Outside(at, task)
    ensures QueueAt(stream.Add(task), at[task := InStream(stream.next + |stream.queue|)])
  {
    var (stream', at') := (stream.Add(task), at[task := InStream(stream.next + |stream.queue|)]);
    forall k | 0 <= k < |stream'.queue| ensures Sits(stream', at', k) {
      assert k < |stream.queue| ==> Sits(stream, at, k);
    }
    forall t | t in at' && at'[t].InStream? ensures Queues(stream', at'[t].id, t) {
      assert t != task ==> Queues(stream, at[t].id, t);
    }
  }

  lemma EnterHands(workers: Workers, tasks: map<TaskId, TaskRow>, at: Places, task: TaskId, place: Place)
    requires HandsAt(workers, tasks, at) && Outside(at, task) && place.InStream?
    ensures HandsAt(workers, tasks, at[task := place])
  {
    forall w, i: nat | SlotIn(workers, w, i).Some?
      ensures SlotAtPlace(tasks, at[task := place], w, i, SlotIn(workers, w, i).value)
    {
      assert SlotAtPlace(tasks, at, w, i, SlotIn(workers, w, i).value);
    }
  }

  lemma EnterElsewhere(s: State, at: Places, task: TaskId, place: Place)
    requires RetryAt(s.retry, s.workers, at) && SweepAt(s.sweep, s.retry, at) && RowsAt(s.db, at)
    requires task !in at && task !in s.db.tasks && place.InStream?
    ensures var at' := at[task := place];
            RetryAt(s.retry, s.workers, at') && SweepAt(s.sweep, s.retry, at') && RowsAt(s.db, at')
  {
  }

  // The places after the next task of a creation is enqueued.
  function Enter(s: State, at: Places, task: TaskId): Places {
    at[task := InStream(s.stream.next + |s.stream.queue|)]
  }

  lemma EnqueuedTask(s: State, at: Places, run: RunId)
    requires StagedAt(s.staged, s.db.tasks, at) && Staging(s)
    requires run in s.staged && s.staged[run].enqueued < |s.staged[run].ids|
    ensures var task := s.staged[run].ids[s.staged[run].enqueued]; task !in at && task !in s.db.tasks
  {
    assert CreationAt(s.staged[run], at) && CreationOk(s, run);
    assert s.staged[run].ids[s.staged[run].enqueued] in s.staged[run].ids;
  }

  lemma {:induction false} EnteredInPlace(s: State, s': State, at: Places, task: TaskId)
    requires InPlace(s, at) && task !in at && task !in s.db.tasks
    requires s' == s.(stream := s.stream.Add(task), staged := s'.staged)
    requires StagedAt(s'.staged, s.db.tasks, Enter(s, at, task))
    ensures InPlace(s', Enter(s, at, task))
  {
    var at' := Enter(s, at, task);
    EnterQueue(s.stream, at, task);
    EnterHands(s.workers, s.db.tasks, at, task, at'[task]);
    EnterElsewhere(s, at, task, at'[task]);
  }

  function AfterEnqueue(s: State, at: Places, run: RunId): Places {
    if CanEnqueue(s, run) then Enter(s, at, s.staged[run].ids[s.staged[run].enqueued]) else at
  }

  lemma EnqueueIs(s: State, run: RunId, task: TaskId)
    requires CanEnqueue(s, run) && task == s.staged[run].ids[s.staged[run].enqueued]
    ensures StepEnqueueStaged(s, run, Replies) == s.(stream := s.stream.Add(task), staged := OneMore(s.staged, run))
  {
  }

  lemma EnqueueStaysInPlace(s: State, at: Places, run: RunId) returns (at': Places)
    requires InPlace(s, at) && Staging(s)
    ensures InPlace(StepEnqueueStaged(s, run, Replies), at') && at' == AfterEnqueue(s, at, run)
  {
    at' := at;
    if CanEnqueue(s, run) {
      var task := s.staged[run].ids[s.staged[run].enqueued];
      at' := Enter(s, at, task);
      EnqueuedTask(s, at, run);
      StagedAdvances(s, at, at', run);
      EnqueueIs(s, run, task);
      EnteredInPlace(s, s.(stream := s.stream.Add(task), staged := OneMore(s.staged, run)), at, task);
    }
  }

  lemma {:induction false} CommitStaysInPlace(s: State, at: Places, run: RunId)
    requires InPlace(s, at) && Wellformed(s)
    ensures InPlace(StepCommit(s, run), at)
  {
    var s' := StepCommit(s, run);
    if s' != s {
      assert CreationOk(s, run) && CreationAt(s.staged[run], at);
      CommittedRowsAt(s, at, run);
      CommittedHandsAt(s, at, run);
      StagedShrinks(s, at, run);
      assert s'.db == Committed(s.db, s.staged[run], run);
    }
  }

  lemma CommittedHandsAt(s: State, at: Places, run: RunId)
    requires HandsAt(s.workers, s.db.tasks, at) && run in s.staged && CreationOk(s, run)
    ensures HandsAt(s.workers, s.db.tasks + NewRows(s.staged[run]), at)
  {
    NewRowsFresh(s, run);
  }

  lemma RowStays(db: Tables, db': Tables, task: TaskId, place: Place)
    requires task in db.tasks && task in db'.tasks && db'.tasks[task] == db.tasks[task]
    requires db'.results == db.results && db'.logs == db.logs && RowAt(db, task, place)
    ensures RowAt(db', task, place)
  {
  }

  lemma NewRowAt(db: Tables, db': Tables, task: TaskId, run: RunId, place: Place)
    requires LogsOk(db) && Paired(db) && task !in db.tasks && !place.Finished?
    requires task in db'.tasks && FreshRow(db'.tasks[task], run) && db'.results == db.results && db'.logs == db.logs
    ensures RowAt(db', task, place)
  {
    NoHistory(db, task, |db.logs|);
    assert db.results[..|db.logs|] == db.results && db.logs[..|db.logs|] == db.logs;
    assert OneTo(0) == [];
  }

  lemma {:induction false} CommittedRowsAt(s: State, at: Places, run: RunId)
    requires RowsAt(s.db, at) && LogsOk(s.db) && Paired(s.db)
    requires run in s.staged && CreationOk(s, run) && CreationAt(s.staged[run], at)
    requires s.staged[run].enqueued == |s.staged[run].ids|
    ensures RowsAt(Committed(s.db, s.staged[run], run), at)
  {
    var db' := Committed(s.db, s.staged[run], run);
    NewRowsFresh(s, run);
    forall task | task in db'.tasks ensures task in at && RowAt(db', task, at[task]) {
      if task in s.staged[run].ids {
        NewRowAt(s.db, db', task, run, at[task]);
      } else {
        RowStays(s.db, db', task, at[task]);
      }
    }
  }

  lemma StagedShrinks(s: State, at: Places, run: RunId)
    requires StagedAt(s.staged, s.db.tasks, at) && run in s.staged && CreationOk(s, run)
    ensures StagedAt(s.staged - {run}, s.db.tasks + NewRows(s.staged[run]), at)
  {
    NewRowsFresh(s, run);
    var staged' := s.staged - {run};
    forall task | task in at && task !in s.db.tasks + NewRows(s.staged[run]) ensures IsStaged(staged', task) {
      var other :| other in s.staged && task in s.staged[other].ids;
      assert other != run && task in staged'[other].ids;
    }
  }

  // ---------------------------------------------------------------- a worker's cycle

  function Fetch(at: Places, w: WorkerId, next: EntryId, n: nat): Places {
    map task | task in at ::
      if at[task].InStream? && next <= at[task].id < next + n then Fetched(w, at[task].id - next) else at[task]
  }

  lemma FetchQueue(stream: Stream, at: Places, w: WorkerId, count: nat, now: nat)
    requires QueueAt(stream, at)
    ensures QueueAt(stream.ReadGroup(Worker(w), count, now), Fetch(at, w, stream.next, stream.Batch(count)))
  {
    var n := stream.Batch(count);
    var stream' := stream.ReadGroup(Worker(w), count, now);
    var at' := Fetch(at, w, stream.next, n);
    forall k | 0 <= k < |stream'.queue| ensures Sits(stream', at', k) {
      assert Sits(stream, at, k + n);
    }
    forall task | task in at' && at'[task].InStream? ensures Queues(stream', at'[task].id, task) {
      assert Queues(stream, at[task].id, task);
    }
  }

  lemma FetchHands(s: State, at: Places, w: WorkerId, count: nat)
    requires QueueAt(s.stream, at) && HandsAt(s.workers, s.db.tasks, at) && StepConsume(s, w, count) != s
    ensures HandsAt(StepConsume(s, w, count).workers, s.db.tasks, Fetch(at, w, s.stream.next, s.stream.Batch(count)))
  {
    var workers' := StepConsume(s, w, count).workers;
    var at' := Fetch(at, w, s.stream.next, s.stream.Batch(count));
    forall u, i: nat | SlotIn(workers', u, i).Some?
      ensures SlotAtPlace(s.db.tasks, at', u, i, SlotIn(workers', u, i).value)
    {
      if u == w {
        assert Sits(s.stream, at, i);
        assert SlotIn(workers', u, i).value == Slot(StreamEntry(s.stream.next + i, s.stream.queue[i]), Delivered);
      } else {
        assert SlotIn(workers', u, i) == SlotIn(s.workers, u, i);
      }
    }
    forall task | task in at' && at'[task].Fetched?
      ensures HoldsOpen(SlotIn(workers', at'[task].w, at'[task].i), task)
    {
      if at[task].Fetched? {
        assert HoldsOpen(SlotIn(s.workers, at[task].w, at[task].i), task);
        assert at[task].w != w;
      } else {
        var i := at[task].id - s.stream.next;
        assert Queues(s.stream, at[task].id, task);
        assert SlotIn(workers', w, i).value == Slot(StreamEntry(s.stream.next + i, task), Delivered);
      }
    }
    forall task | task in at' && at'[task].Executed?
      ensures HoldsOutcome(SlotIn(workers', at'[task].w, at'[task].i), task)
    {
      assert HoldsOutcome(SlotIn(s.workers, at[task].w, at[task].i), task);
      assert at[task].w != w;
    }
  }

  // Places that keep all but where a task is fetched from.
  predicate Refetched(at: Places, at': Places) {
    && at'.Keys == at.Keys
    && forall task | task in at ::
        at'[task] == at[task] ||
        ((at[task].InStream? || at[task].Fetched?) && (at'[task].InStream? || at'[task].Fetched?))
  }

  // Rows only care which tasks have finished.
  lemma RowsStay(db: Tables, at: Places, at': Places)
    requires RowsAt(db, at) && at'.Keys == at.Keys
    requires forall task | task in at ::
               (at'[task].Finished? <==> at[task].Finished?) &&
               (task !in db.tasks ==> at'[task].InStream? || at'[task].Fetched?)
    ensures RowsAt(db, at')
  {
    forall task | task in db.tasks ensures RowAt(db, task, at'[task]) {
      assert RowAt(db, task, at[task]);
    }
  }

  lemma StagedStays(staged: map<RunId, Creation>, tasks: map<TaskId, TaskRow>, at: Places, at': Places)
    requires StagedAt(staged, tasks, at) && at'.Keys == at.Keys
    ensures StagedAt(staged, tasks, at')
  {
    forall run | run in staged ensures CreationAt(staged[run], at') {
      assert CreationAt(staged[run], at);
    }
  }

  lemma RefetchedRetry(retry: Scores, workers: Workers, workers': Workers, at: Places, at': Places)
    requires RetryAt(retry, workers, at) && Refetched(at, at')
    requires forall task | task in at && at[task].Executed? ::
               WillRetry(workers', at[task]) == WillRetry(workers, at[task])
    ensures RetryAt(retry, workers', at')
  {
  }

  lemma RefetchedSweep(sweep: SweepPhase, retry: Scores, at: Places, at': Places)
    requires SweepAt(sweep, retry, at) && Refetched(at, at')
    ensures SweepAt(sweep, retry, at')
  {
  }

  lemma OtherSlotsSame(s: State, at: Places, w: WorkerId, workers': Workers)
    requires HandsAt(s.workers, s.db.tasks, at) && PhaseOf(s, w).Idle?
    requires workers'.Keys == s.workers.Keys + {w} && forall u | u in s.workers && u != w :: workers'[u] == s.workers[u]
    ensures forall task | task in at && at[task].Executed? ::
              WillRetry(workers', at[task]) == WillRetry(s.workers, at[task])
  {
    forall task | task in at && at[task].Executed?
      ensures WillRetry(workers', at[task]) == WillRetry(s.workers, at[task])
    {
      assert HoldsOutcome(SlotIn(s.workers, at[task].w, at[task].i), task);
    }
  }

  function AfterConsume(s: State, at: Places, w: WorkerId, count: nat): Places {
    if StepConsume(s, w, count) == s then at else Fetch(at, w, s.stream.next, s.stream.Batch(count))
  }

  lemma ConsumedRetry(s: State, at: Places, w: WorkerId, count: nat, at': Places)
    requires HandsAt(s.workers, s.db.tasks, at) && RetryAt(s.retry, s.workers, at)
    requires StepConsume(s, w, count) != s && Refetched(at, at')
    ensures RetryAt(s.retry, StepConsume(s, w, count).workers, at')
  {
    var workers' := StepConsume(s, w, count).workers;
    OtherSlotsSame(s, at, w, workers');
    RefetchedRetry(s.retry, s.workers, workers', at, at');
  }

  lemma RefetchedTables(s: State, at: Places, at': Places)
    requires RowsAt(s.db, at) && StagedAt(s.staged, s.db.tasks, at) && Refetched(at, at')
    ensures RowsAt(s.db, at') && StagedAt(s.staged, s.db.tasks, at')
  {
    RowsStay(s.db, at, at');
    StagedStays(s.staged, s.db.tasks, at, at');
  }

  lemma ConsumeStaysInPlace(s: State, at: Places, w: WorkerId, count: nat) returns (at': Places)
    requires InPlace(s, at)
    ensures InPlace(StepConsume(s, w, count), at') && at' == AfterConsume(s, at, w, count)
  {
    var s' := StepConsume(s, w, count);
    at' := at;
    if s' != s {
      at' := Fetch(at, w, s.stream.next, s.stream.Batch(count));
      FetchQueue(s.stream, at, w, count, s.now);
      FetchHands(s, at, w, count);
      ConsumedRetry(s, at, w, count, at');
      RefetchedSweep(s.sweep, s.retry, at, at');
      RefetchedTables(s, at, at');
    }
  }

  // One slot changes its progress and its task its place.
  lemma SlotInSet(s: State, w: WorkerId, i: nat, progress: Progress, u: WorkerId, j: nat)
    requires HasSlot(s, w, i)
    ensures SlotIn(SetSlot(s, w, i, progress).workers, u, j) ==
            if u == w && j == i then Some(SlotAt(s, w, i).(progress := progress)) else SlotIn(s.workers, u, j)
  {
  }

  lemma SlotMoves(s: State, at: Places, w: WorkerId, i: nat, progress: Progress, place: Place)
    requires HandsAt(s.workers, s.db.tasks, at) && HasSlot(s, w, i) && !Resolved(SlotAt(s, w, i))
    requires var task := SlotAt(s, w, i).entry.task;
             var slot := SlotAt(s, w, i).(progress := progress);
             && SlotAtPlace(s.db.tasks, at[task := place], w, i, slot)
             && (place.Fetched? ==> place == Fetched(w, i) && HoldsOpen(Some(slot), task))
             && (place.Executed? ==> place == Executed(w, i) && HoldsOutcome(Some(slot), task))
    ensures HandsAt(SetSlot(s, w, i, progress).workers, s.db.tasks, at[SlotAt(s, w, i).entry.task := place])
  {
    var task := SlotAt(s, w, i).entry.task;
    var (workers', at') := (SetSlot(s, w, i, progress).workers, at[task := place]);
    assert SlotAtPlace(s.db.tasks, at, w, i, SlotIn(s.workers, w, i).value);
    forall u, j: nat | SlotIn(workers', u, j).Some?
      ensures SlotAtPlace(s.db.tasks, at', u, j, SlotIn(workers', u, j).value)
    {
      SlotInSet(s, w, i, progress, u, j);
      if u != w || j != i {
        assert SlotAtPlace(s.db.tasks, at, u, j, SlotIn(s.workers, u, j).value);
      }
    }
    forall t | t in at' && at'[t].Fetched? ensures HoldsOpen(SlotIn(workers', at'[t].w, at'[t].i), t) {
      SlotInSet(s, w, i, progress, at'[t].w, at'[t].i);
      assert t != task ==> HoldsOpen(SlotIn(s.workers, at[t].w, at[t].i), t);
    }
    forall t | t in at' && at'[t].Executed? ensures HoldsOutcome(SlotIn(workers', at'[t].w, at'[t].i), t) {
      SlotInSet(s, w, i, progress, at'[t].w, at'[t].i);
      assert t != task ==> HoldsOutcome(SlotIn(s.workers, at[t].w, at[t].i), t);
    }
  }

  // The retries already scheduled are those of the other tasks.
  lemma OtherRetries(s: State, at: Places, w: WorkerId, i: nat, progress: Progress)
    requires HandsAt(s.workers, s.db.tasks, at) && HasSlot(s, w, i) && !Resolved(SlotAt(s, w, i))
    ensures SlotAt(s, w, i).entry.task in at && at[SlotAt(s, w, i).entry.task] == Fetched(w, i)
    ensures forall t | t in at && at[t].Executed? ::
              WillRetry(SetSlot(s, w, i, progress).workers, at[t]) == WillRetry(s.workers, at[t])
  {
    assert SlotAtPlace(s.db.tasks, at, w, i, SlotIn(s.workers, w, i).value);
    forall t | t in at && at[t].Executed?
      ensures WillRetry(SetSlot(s, w, i, progress).workers, at[t]) == WillRetry(s.workers, at[t])
    {
      assert HoldsOutcome(SlotIn(s.workers, at[t].w, at[t].i), t);
      SlotInSet(s, w, i, progress, at[t].w, at[t].i);
    }
  }

  lemma LoadStaysInPlace(s: State, at: Places, w: WorkerId, i: nat)
    requires InPlace(s, at) && Clean(s, Work(w, Load(i)))
    ensures InPlace(StepLoad(s, w, i), at)
  {
    var s' := StepLoad(s, w, i);
    if s' != s {
      var task := SlotAt(s, w, i).entry.task;
      assert SlotAtPlace(s.db.tasks, at, w, i, SlotIn(s.workers, w, i).value);
      assert task in s.db.tasks;
      var progress := Loaded(s.db.tasks[task]);
      SlotMoves(s, at, w, i, progress, Fetched(w, i));
      assert at[task := Fetched(w, i)] == at;
      OtherRetries(s, at, w, i, progress);
      RefetchedRetry(s.retry, s.workers, s'.workers, at, at);
    }
  }

  lemma ScheduledRetry(retry: Scores, workers: Workers, workers': Workers, at: Places, task: TaskId, place: Place,
                       score: Time)
    requires RetryAt(retry, workers, at) && task in at && at[task].Fetched?
    requires forall t | t in at && at[t].Executed? :: WillRetry(workers', at[t]) == WillRetry(workers, at[t])
    ensures place.Waiting? || WillRetry(workers', place) ==> RetryAt(retry[task := score], workers', at[task := place])
    ensures !place.Waiting? && !WillRetry(workers', place) ==> RetryAt(retry, workers', at[task := place])
  {
  }

  // Only the undelivered entries matter to the tasks in the stream.
  lemma QueueStays(stream: Stream, stream': Stream, at: Places, at': Places)
    requires QueueAt(stream, at) && stream'.queue == stream.queue && stream'.next == stream.next
    requires forall task | task in at && at[task].InStream? :: task in at' && at'[task] == at[task]
    requires forall task | task in at' && at'[task].InStream? :: task in at && at'[task] == at[task]
    ensures QueueAt(stream', at')
  {
    forall k | 0 <= k < |stream'.queue| ensures Sits(stream', at', k) {
      assert Sits(stream, at, k);
    }
    forall task | task in at' && at'[task].InStream? ensures Queues(stream', at'[task].id, task) {
      assert Queues(stream, at[task].id, task);
    }
  }

  // A fetched task is executed or deferred.
  predicate Resolves(at: Places, at': Places, task: TaskId) {
    && task in at && at[task].Fetched?
    && task in at' && at' == at[task := at'[task]] && (at'[task].Executed? || at'[task].Waiting?)
  }

  lemma ResolvedElsewhere(s: State, at: Places, at': Places, task: TaskId, retry': Scores)
    requires SweepAt(s.sweep, s.retry, at) && RowsAt(s.db, at) && StagedAt(s.staged, s.db.tasks, at)
    requires Resolves(at, at', task) && task in s.db.tasks && s.retry.Keys <= retry'.Keys
    ensures SweepAt(s.sweep, retry', at') && RowsAt(s.db, at') && StagedAt(s.staged, s.db.tasks, at')
  {
    RowsStay(s.db, at, at');
    StagedStays(s.staged, s.db.tasks, at, at');
  }

  function AfterProcessing(s: State, at: Places, w: WorkerId, i: nat, place: Place): Places {
    if HasLoaded(s, w, i) then at[SlotAt(s, w, i).entry.task := place] else at
  }

  // The slot of an attempt that has been executed or deferred.
  lemma ProcessedHands(s: State, at: Places, w: WorkerId, i: nat, progress: Progress, place: Place)
    requires HandsAt(s.workers, s.db.tasks, at) && HasLoaded(s, w, i)
    requires var slot := SlotAt(s, w, i).(progress := progress);
             SlotAtPlace(s.db.tasks, at[slot.entry.task := place], w, i, slot)
    requires place.Waiting? || (place == Executed(w, i) && HasOutcome(SlotAt(s, w, i).(progress := progress)))
    ensures SlotAt(s, w, i).entry.task in at && at[SlotAt(s, w, i).entry.task] == Fetched(w, i)
    ensures SlotAt(s, w, i).entry.task in s.db.tasks
    ensures HandsAt(SetSlot(s, w, i, progress).workers, s.db.tasks, at[SlotAt(s, w, i).entry.task := place])
  {
    assert SlotAtPlace(s.db.tasks, at, w, i, SlotIn(s.workers, w, i).value);
    SlotMoves(s, at, w, i, progress, place);
  }

  lemma ProcessedRetry(s: State, at: Places, w: WorkerId, i: nat, progress: Progress, place: Place, score: Time)
    requires HandsAt(s.workers, s.db.tasks, at) && RetryAt(s.retry, s.workers, at) && HasLoaded(s, w, i)
    ensures var (task, workers') := (SlotAt(s, w, i).entry.task, SetSlot(s, w, i, progress).workers);
            && (place.Waiting? || WillRetry(workers', place) ==>
                  RetryAt(s.retry[task := score], workers', at[task := place]))
            && (!place.Waiting? && !WillRetry(workers', place) ==> RetryAt(s.retry, workers', at[task := place]))
  {
    OtherRetries(s, at, w, i, progress);
    ScheduledRetry(s.retry, s.workers, SetSlot(s, w, i, progress).workers, at, SlotAt(s, w, i).entry.task,
                   place, score);
  }

  lemma ExecutedHands(s: State, at: Places, w: WorkerId, i: nat, report: Report, now: Time)
    requires HandsAt(s.workers, s.db.tasks, at) && HasLoaded(s, w, i)
    ensures var (s', at') := (StepExecute(s, w, i, report, now), AfterProcessing(s, at, w, i, Executed(w, i)));
            HandsAt(s'.workers, s.db.tasks, at') && SlotAt(s, w, i).entry.task in s.db.tasks
  {
    var slot := SlotAt(s, w, i);
    assert SlotAtPlace(s.db.tasks, at, w, i, SlotIn(s.workers, w, i).value);
    ProcessedHands(s, at, w, i, Done(Some(Conclude(slot.entry.task, slot.progress.row, w, report, now))),
                   Executed(w, i));
  }

  lemma ExecutedRetry(s: State, at: Places, w: WorkerId, i: nat, report: Report, now: Time)
    requires HandsAt(s.workers, s.db.tasks, at) && RetryAt(s.retry, s.workers, at) && HasLoaded(s, w, i)
    ensures var (s', at') := (StepExecute(s, w, i, report, now), AfterProcessing(s, at, w, i, Executed(w, i)));
            RetryAt(s'.retry, s'.workers, at')
  {
    var slot := SlotAt(s, w, i);
    var outcome := Conclude(slot.entry.task, slot.progress.row, w, report, now);
    SlotInSet(s, w, i, Done(Some(outcome)), w, i);
    ProcessedRetry(s, at, w, i, Done(Some(outcome)), Executed(w, i),
                   if outcome.newStatus == Retrying then outcome.nextRetryAt.value else now);
  }

  lemma ProcessedElsewhere(s: State, at: Places, w: WorkerId, i: nat, place: Place, retry': Scores)
    requires HandsAt(s.workers, s.db.tasks, at) && QueueAt(s.stream, at) && HasLoaded(s, w, i)
    requires SweepAt(s.sweep, s.retry, at) && RowsAt(s.db, at) && StagedAt(s.staged, s.db.tasks, at)
    requires s.retry.Keys <= retry'.Keys && (place.Executed? || place.Waiting?)
    ensures var at' := at[SlotAt(s, w, i).entry.task := place];
            && QueueAt(s.stream, at') && SweepAt(s.sweep, retry', at') && RowsAt(s.db, at')
            && StagedAt(s.staged, s.db.tasks, at')
  {
    var task := SlotAt(s, w, i).entry.task;
    assert SlotAtPlace(s.db.tasks, at, w, i, SlotIn(s.workers, w, i).value);
    QueueStays(s.stream, s.stream, at, at[task := place]);
    ResolvedElsewhere(s, at, at[task := place], task, retry');
  }

  lemma ExecuteStaysInPlace(s: State, at: Places, w: WorkerId, i: nat, report: Report, now: Time) returns (at': Places)
    requires InPlace(s, at)
    ensures InPlace(StepExecute(s, w, i, report, now), at') && at' == AfterProcessing(s, at, w, i, Executed(w, i))
  {
    at' := at;
    if HasLoaded(s, w, i) {
      at' := at[SlotAt(s, w, i).entry.task := Executed(w, i)];
      ExecutedHands(s, at, w, i, report, now);
      ExecutedRetry(s, at, w, i, report, now);
      ProcessedElsewhere(s, at, w, i, Executed(w, i), StepExecute(s, w, i, report, now).retry);
    }
  }

  lemma DeferStaysInPlace(s: State, at: Places, w: WorkerId, i: nat, now: Time) returns (at': Places)
    requires InPlace(s, at)
    ensures InPlace(StepDefer(s, w, i, now), at') && at' == AfterProcessing(s, at, w, i, Waiting)
  {
    at' := at;
    if HasLoaded(s, w, i) {
      at' := at[SlotAt(s, w, i).entry.task := Waiting];
      ProcessedHands(s, at, w, i, Done(None), Waiting);
      ProcessedRetry(s, at, w, i, Done(None), Waiting, now + RATE_LIMITED_DELAY);
      ProcessedElsewhere(s, at, w, i, Waiting, StepDefer(s, w, i, now).retry);
    }
  }

  // ---------------------------------------------------------------- writing a batch

  lemma {:induction false} OutcomesAreDistinct(slots: seq<Slot>)
    requires forall i, j :: 0 <= i < j < |slots| && HasOutcome(slots[i]) && HasOutcome(slots[j]) ==>
               slots[i].progress.outcome.value.taskId != slots[j].progress.outcome.value.taskId
    ensures OnePerTask(Outcomes(slots))
    decreases |slots|
  {
    if slots != [] {
      var n := |slots| - 1;
      OutcomesAreDistinct(slots[..n]);
      if HasOutcome(slots[n]) {
        OutcomesFromSlots(slots[..n]);
        forall o | o in Outcomes(slots[..n]) ensures o.taskId != slots[n].progress.outcome.value.taskId {
          var slot :| slot in slots[..n] && slot.progress == Done(Some(o));
          var k :| 0 <= k < n && slots[..n][k] == slot;
          assert HasOutcome(slots[k]);
        }
      }
    }
  }

  predicate HasOutcome(slot: Slot) {
    slot.progress.Done? && slot.progress.outcome.Some?
  }

  predicate HeldBy(place: Place, w: WorkerId) {
    place.Executed? && place.w == w
  }

  // The outcomes of a batch are those of the tasks whose place is a slot of the worker.
  lemma BatchMatchesPlaces(s: State, at: Places, w: WorkerId, task: TaskId)
    requires HandsAt(s.workers, s.db.tasks, at) && PhaseOf(s, w).Gathering? && task in at
    ensures OnePerTask(Outcomes(PhaseOf(s, w).slots))
    ensures var last := LastFor(Outcomes(PhaseOf(s, w).slots), task);
            && (last.Some? <==> HeldBy(at[task], w))
            && (last.Some? ==> task in s.db.tasks && Follows(s.db.tasks[task], last.value))
            && (last.Some? ==> (last.value.newStatus == Retrying <==> WillRetry(s.workers, at[task])))
  {
    var slots := PhaseOf(s, w).slots;
    forall i, j | 0 <= i < j < |slots| && HasOutcome(slots[i]) && HasOutcome(slots[j])
      ensures slots[i].progress.outcome.value.taskId != slots[j].progress.outcome.value.taskId
    {
      assert SlotAtPlace(s.db.tasks, at, w, i, SlotIn(s.workers, w, i).value);
      assert SlotAtPlace(s.db.tasks, at, w, j, SlotIn(s.workers, w, j).value);
    }
    OutcomesAreDistinct(slots);
    OutcomesFromSlots(slots);
    var last := LastFor(Outcomes(slots), task);
    if HeldBy(at[task], w) {
      var slot := SlotIn(s.workers, w, at[task].i);
      assert HoldsOutcome(slot, task) && slot.value in slots;
      assert SlotAtPlace(s.db.tasks, at, w, at[task].i, slot.value);
      assert slot.value.progress.outcome.value in Outcomes(slots);
    }
    if last.Some? {
      var slot :| slot in slots && slot.progress == Done(Some(last.value));
      var k :| 0 <= k < |slots| && slots[k] == slot;
      assert SlotAtPlace(s.db.tasks, at, w, k, SlotIn(s.workers, w, k).value);
    }
  }

  function Settle(workers: Workers, w: WorkerId, at: Places): Places {
    map task | task in at ::
      if !HeldBy(at[task], w) then at[task] else if WillRetry(workers, at[task]) then Waiting else Finished
  }

  // The row and the history of one task after a batch with one outcome per task.
  lemma AfterBatch(db: Tables, outcomes: seq<TaskOutcome>, task: TaskId)
    requires Referenced(db, outcomes) && AllFit(db, outcomes) && OnePerTask(outcomes) && task in db.tasks
    ensures var db' := Written(db, outcomes);
            match LastFor(outcomes, task)
            case None =>
              && db'.tasks[task] == db.tasks[task]
              && AttemptsOf(db'.results, task) == AttemptsOf(db.results, task)
              && TerminalCount(db'.logs, task) == TerminalCount(db.logs, task)
            case Some(o) =>
              && db'.tasks[task] == Overwrite(db.tasks[task], o)
              && AttemptsOf(db'.results, task) == AttemptsOf(db.results, task) + [o.attempt]
              && TerminalCount(db'.logs, task) ==
                 TerminalCount(db.logs, task) + if IsTerminal(o.newStatus) then 1 else 0
  {
    BatchHistory(outcomes, task);
    LastOutcomeWins(db.tasks, outcomes, task);
    AttemptsAppend(db.results, Map(BuildResult, outcomes), task);
    TerminalCountAppend(db.logs, Map(BuildLog, outcomes), task);
  }

  lemma FollowedRowAt(db: Tables, db': Tables, task: TaskId, o: TaskOutcome, place: Place, place': Place)
    requires task in db.tasks && task in db'.tasks && RowAt(db, task, place) && !place.Finished?
    requires Follows(db.tasks[task], o) && db'.tasks[task] == Overwrite(db.tasks[task], o)
    requires AttemptsOf(db'.results, task) == AttemptsOf(db.results, task) + [o.attempt]
    requires TerminalCount(db'.logs, task) == TerminalCount(db.logs, task) + if IsTerminal(o.newStatus) then 1 else 0
    requires place'.Finished? <==> IsTerminal(o.newStatus)
    ensures RowAt(db', task, place')
  {
    var row := db.tasks[task];
    assert OneTo(row.retryCount) + [row.retryCount + 1] == OneTo(row.retryCount + 1);
  }

  lemma WrittenRowAt(s: State, at: Places, w: WorkerId, task: TaskId)
    requires HandsAt(s.workers, s.db.tasks, at) && RowsAt(s.db, at) && PhaseOf(s, w).Gathering? && task in s.db.tasks
    requires Referenced(s.db, Outcomes(PhaseOf(s, w).slots)) && AllFit(s.db, Outcomes(PhaseOf(s, w).slots))
    ensures RowAt(Written(s.db, Outcomes(PhaseOf(s, w).slots)), task, Settle(s.workers, w, at)[task])
  {
    var outcomes := Outcomes(PhaseOf(s, w).slots);
    var db' := Written(s.db, outcomes);
    assert RowAt(s.db, task, at[task]);
    BatchMatchesPlaces(s, at, w, task);
    AfterBatch(s.db, outcomes, task);
    var last := LastFor(outcomes, task);
    if last.Some? {
      FollowedRowAt(s.db, db', task, last.value, at[task], Settle(s.workers, w, at)[task]);
    }
  }

  lemma WrittenHands(s: State, at: Places, w: WorkerId, phase: Phase)
    requires HandsAt(s.workers, s.db.tasks, at) && PhaseOf(s, w).Gathering? && !phase.Gathering?
    requires Referenced(s.db, Outcomes(PhaseOf(s, w).slots))
    requires AllResolved(PhaseOf(s, w).slots)
    ensures HandsAt(s.workers[w := phase], UpdateTasks(s.db.tasks, Outcomes(PhaseOf(s, w).slots)),
                    Settle(s.workers, w, at))
  {
    var outcomes := Outcomes(PhaseOf(s, w).slots);
    var (workers', tasks', at') := (s.workers[w := phase], UpdateTasks(s.db.tasks, outcomes), Settle(s.workers, w, at));
    forall u, j: nat | SlotIn(workers', u, j).Some?
      ensures SlotAtPlace(tasks', at', u, j, SlotIn(workers', u, j).value)
    {
      var slot := SlotIn(s.workers, u, j).value;
      assert u != w && SlotAtPlace(s.db.tasks, at, u, j, slot);
      if slot.entry.task in at {
        BatchMatchesPlaces(s, at, w, slot.entry.task);
        if slot.entry.task in s.db.tasks { LastOutcomeWins(s.db.tasks, outcomes, slot.entry.task); }
      }
    }
    forall t | t in at' && at'[t].Fetched? ensures HoldsOpen(SlotIn(workers', at'[t].w, at'[t].i), t) {
      var held := SlotIn(s.workers, at[t].w, at[t].i);
      assert HoldsOpen(held, t);
      assert held.value in s.workers[at[t].w].slots;
    }
    forall t | t in at' && at'[t].Executed? ensures HoldsOutcome(SlotIn(workers', at'[t].w, at'[t].i), t) {
      assert HoldsOutcome(SlotIn(s.workers, at[t].w, at[t].i), t);
    }
  }

  lemma WrittenElsewhere(s: State, at: Places, w: WorkerId, phase: Phase)
    requires HandsAt(s.workers, s.db.tasks, at) && RetryAt(s.retry, s.workers, at)
    requires SweepAt(s.sweep, s.retry, at) && PhaseOf(s, w).Gathering? && !phase.Gathering?
    ensures var at' := Settle(s.workers, w, at);
            RetryAt(s.retry, s.workers[w := phase], at') && SweepAt(s.sweep, s.retry, at')
  {
    var at' := Settle(s.workers, w, at);
    forall t | t in at && at[t].Executed?
      ensures at[t].w != w ==> WillRetry(s.workers[w := phase], at[t]) == WillRetry(s.workers, at[t])
    {
      assert HoldsOutcome(SlotIn(s.workers, at[t].w, at[t].i), t);
    }
  }

  lemma BatchIsWritten(s: State, w: WorkerId)
    requires Sound(s.db) && SlotsOk(s) && PhaseOf(s, w).Gathering? && AllResolved(PhaseOf(s, w).slots)
    ensures var outcomes := Outcomes(PhaseOf(s, w).slots);
            && Referenced(s.db, outcomes) && AllFit(s.db, outcomes)
            && StepWrite(s, w, Replies) ==
               SetPhase(s, w, StepWrite(s, w, Replies).workers[w]).(db := Written(s.db, outcomes))
            && !StepWrite(s, w, Replies).workers[w].Gathering?
  {
    SlotsFitTheirBatch(s, w);
    BatchKeepsSound(s.db, Outcomes(PhaseOf(s, w).slots));
    WritingNothing(s.db);
  }

  lemma WrittenRows(s: State, at: Places, w: WorkerId)
    requires HandsAt(s.workers, s.db.tasks, at) && RowsAt(s.db, at) && PhaseOf(s, w).Gathering?
    requires Referenced(s.db, Outcomes(PhaseOf(s, w).slots)) && AllFit(s.db, Outcomes(PhaseOf(s, w).slots))
    ensures RowsAt(Written(s.db, Outcomes(PhaseOf(s, w).slots)), Settle(s.workers, w, at))
  {
    var (db', at') := (Written(s.db, Outcomes(PhaseOf(s, w).slots)), Settle(s.workers, w, at));
    forall task | task in db'.tasks ensures task in at' && RowAt(db', task, at'[task]) {
      WrittenRowAt(s, at, w, task);
    }
  }

  lemma WrittenKeepsRest(s: State, at: Places, w: WorkerId)
    requires QueueAt(s.stream, at) && StagedAt(s.staged, s.db.tasks, at) && PhaseOf(s, w).Gathering?
    requires Referenced(s.db, Outcomes(PhaseOf(s, w).slots))
    ensures var at' := Settle(s.workers, w, at);
            QueueAt(s.stream, at') && StagedAt(s.staged, Written(s.db, Outcomes(PhaseOf(s, w).slots)).tasks, at')
  {
    var at' := Settle(s.workers, w, at);
    QueueStays(s.stream, s.stream, at, at');
    StagedStays(s.staged, s.db.tasks, at, at');
    StagedSameKeys(s.staged, s.db.tasks, UpdateTasks(s.db.tasks, Outcomes(PhaseOf(s, w).slots)), at');
  }

  lemma WrittenInPlace(s: State, at: Places, w: WorkerId, phase: Phase)
    requires QueueAt(s.stream, at) && HandsAt(s.workers, s.db.tasks, at) && RetryAt(s.retry, s.workers, at)
    requires SweepAt(s.sweep, s.retry, at) && RowsAt(s.db, at) && StagedAt(s.staged, s.db.tasks, at) && s.claimed == []
    requires PhaseOf(s, w).Gathering? && AllResolved(PhaseOf(s, w).slots) && !phase.Gathering?
    requires Referenced(s.db, Outcomes(PhaseOf(s, w).slots)) && AllFit(s.db, Outcomes(PhaseOf(s, w).slots))
    ensures InPlace(SetPhase(s, w, phase).(db := Written(s.db, Outcomes(PhaseOf(s, w).slots))),
                    Settle(s.workers, w, at))
  {
    WrittenRows(s, at, w);
    WrittenHands(s, at, w, phase);
    WrittenElsewhere(s, at, w, phase);
    WrittenKeepsRest(s, at, w);
  }

  function AfterWrite(s: State, at: Places, w: WorkerId): Places {
    if PhaseOf(s, w).Gathering? && AllResolved(PhaseOf(s, w).slots) then Settle(s.workers, w, at) else at
  }

  lemma WriteStaysInPlace(s: State, at: Places, w: WorkerId)
    requires InPlace(s, at) && Sound(s.db) && SlotsOk(s)
    ensures InPlace(StepWrite(s, w, Replies), AfterWrite(s, at, w))
  {
    if PhaseOf(s, w).Gathering? && AllResolved(PhaseOf(s, w).slots) {
      BatchIsWritten(s, w);
      WrittenInPlace(s, at, w, StepWrite(s, w, Replies).workers[w]);
    }
  }

  lemma StagedSameKeys(staged: map<RunId, Creation>, tasks: map<TaskId, TaskRow>, tasks': map<TaskId, TaskRow>,
                       at: Places)
    requires StagedAt(staged, tasks, at) && tasks'.Keys == tasks.Keys
    ensures StagedAt(staged, tasks', at)
  {
  }

  // ---------------------------------------------------------------- ending a cycle

  lemma SameSlots(workers: Workers, workers': Workers, tasks: map<TaskId, TaskRow>, retry: Scores, at: Places)
    requires HandsAt(workers, tasks, at) && RetryAt(retry, workers, at)
    requires forall u, i: nat :: SlotIn(workers', u, i) == SlotIn(workers, u, i)
    ensures HandsAt(workers', tasks, at) && RetryAt(retry, workers', at)
  {
    forall u, i: nat | SlotIn(workers', u, i).Some?
      ensures SlotAtPlace(tasks, at, u, i, SlotIn(workers', u, i).value)
    {
      assert SlotAtPlace(tasks, at, u, i, SlotIn(workers, u, i).value);
    }
    assert forall task | task in at :: WillRetry(workers', at[task]) == WillRetry(workers, at[task]);
  }

  lemma AckStaysInPlace(s: State, at: Places, w: WorkerId)
    requires InPlace(s, at)
    ensures InPlace(StepAckBatch(s, w, Replies), at)
  {
    if PhaseOf(s, w).Acking? {
      QueueStays(s.stream, s.stream.Ack(Ids(PhaseOf(s, w).entries)), at, at);
      SameSlots(s.workers, s.workers[w := Idle], s.db.tasks, s.retry, at);
    }
  }

  // ---------------------------------------------------------------- the retry sweeper

  lemma ReadDueStaysInPlace(s: State, at: Places, now: Time, limit: nat, ids: seq<TaskId>)
    requires InPlace(s, at)
    ensures InPlace(StepReadDue(s, now, limit, ids), at)
  {
    assert forall task | task in ids :: task in Members(ids);
  }

  function Pop(at: Places, ids: seq<TaskId>): Places {
    map task | task in at :: if task in ids then Moved else at[task]
  }

  lemma ExecutedIsUncommitted(s: State, at: Places, task: TaskId)
    requires HandsAt(s.workers, s.db.tasks, at) && task in at
    ensures at[task].Executed? ==> Uncommitted(s, task)
  {
    if at[task].Executed? {
      var slot := SlotIn(s.workers, at[task].w, at[task].i);
      assert HoldsOutcome(slot, task) && slot.value in s.workers[at[task].w].slots;
    }
  }

  // What the sweeper reads is waiting, unless its attempt is not committed yet.
  lemma DueIsWaiting(s: State, at: Places, task: TaskId)
    requires HandsAt(s.workers, s.db.tasks, at) && RetryAt(s.retry, s.workers, at)
    requires task in s.retry && !Uncommitted(s, task)
    ensures task in at && at[task].Waiting?
  {
    ExecutedIsUncommitted(s, at, task);
  }

  lemma PopHands(workers: Workers, tasks: map<TaskId, TaskRow>, at: Places, ids: seq<TaskId>)
    requires HandsAt(workers, tasks, at) && forall task | task in ids :: task in at && at[task].Waiting?
    ensures HandsAt(workers, tasks, Pop(at, ids))
  {
    forall u, i: nat | SlotIn(workers, u, i).Some?
      ensures SlotAtPlace(tasks, Pop(at, ids), u, i, SlotIn(workers, u, i).value)
    {
      assert SlotAtPlace(tasks, at, u, i, SlotIn(workers, u, i).value);
    }
  }

  lemma PopElsewhere(s: State, at: Places, ids: seq<TaskId>)
    requires RetryAt(s.retry, s.workers, at) && RowsAt(s.db, at) && StagedAt(s.staged, s.db.tasks, at)
    requires forall task | task in ids :: task in at && at[task].Waiting?
    ensures RetryAt(Remove(s.retry, ids), s.workers, Pop(at, ids))
    ensures RowsAt(s.db, Pop(at, ids)) && StagedAt(s.staged, s.db.tasks, Pop(at, ids))
  {
    RowsStay(s.db, at, Pop(at, ids));
    StagedStays(s.staged, s.db.tasks, at, Pop(at, ids));
  }

  function AfterRemove(s: State, at: Places, ok: bool): Places {
    if s.sweep.Reading? && ok then Pop(at, s.sweep.ids) else at
  }

  lemma RemoveDueStaysInPlace(s: State, at: Places, ok: bool) returns (at': Places)
    requires InPlace(s, at) && Clean(s, Sweep(RemoveDue(ok)))
    ensures InPlace(StepRemoveDue(s, ok), at') && at' == AfterRemove(s, at, ok)
  {
    at' := at;
    if s.sweep.Reading? && ok {
      var ids := s.sweep.ids;
      at' := Pop(at, ids);
      forall task | task in ids ensures task in at && at[task].Waiting? {
        DueIsWaiting(s, at, task);
      }
      QueueStays(s.stream, s.stream, at, at');
      PopHands(s.workers, s.db.tasks, at, ids);
      PopElsewhere(s, at, ids);
      assert SweepAt(Moving(ids), Remove(s.retry, ids), at');
    }
  }

  lemma ReenqueuedSweep(ids: seq<TaskId>, retry: Scores, at: Places, place: Place)
    requires SweepAt(Moving(ids), retry, at) && ids != [] && place.InStream?
    ensures SweepAt(Onward(ids), retry, at[ids[0] := place])
  {
    assert ids[0] in ids && forall task | task in ids :: task == ids[0] || task in ids[1..];
    assert forall task | task in ids[1..] :: task in ids && task != ids[0];
  }

  lemma ReenqueuedRetry(retry: Scores, workers: Workers, at: Places, task: TaskId, place: Place)
    requires RetryAt(retry, workers, at) && task in at && at[task].Moved? && place.InStream?
    ensures RetryAt(retry, workers, at[task := place])
  {
  }

  lemma ReenqueuedStream(s: State, at: Places, task: TaskId)
    requires QueueAt(s.stream, at) && HandsAt(s.workers, s.db.tasks, at) && task in at && at[task].Moved?
    ensures QueueAt(s.stream.Add(task), Enter(s, at, task)) && HandsAt(s.workers, s.db.tasks, Enter(s, at, task))
  {
    EnterQueue(s.stream, at, task);
    EnterHands(s.workers, s.db.tasks, at, task, Enter(s, at, task)[task]);
  }

  lemma ReenqueuedTables(s: State, at: Places, task: TaskId, place: Place)
    requires RowsAt(s.db, at) && StagedAt(s.staged, s.db.tasks, at) && task in at && at[task].Moved? && place.InStream?
    ensures RowsAt(s.db, at[task := place]) && StagedAt(s.staged, s.db.tasks, at[task := place])
  {
    RowsStay(s.db, at, at[task := place]);
    StagedStays(s.staged, s.db.tasks, at, at[task := place]);
  }

  lemma ReenqueuedInPlace(s: State, at: Places)
    requires InPlace(s, at) && s.sweep.Moving? && s.sweep.ids != []
    ensures InPlace(s.(stream := s.stream.Add(s.sweep.ids[0]), sweep := Onward(s.sweep.ids)),
                    Enter(s, at, s.sweep.ids[0]))
  {
    var task := s.sweep.ids[0];
    assert task in s.sweep.ids && task in at && at[task].Moved?;
    var at' := Enter(s, at, task);
    ReenqueuedStream(s, at, task);
    ReenqueuedSweep(s.sweep.ids, s.retry, at, at'[task]);
    ReenqueuedRetry(s.retry, s.workers, at, task, at'[task]);
    ReenqueuedTables(s, at, task, at'[task]);
  }

  function AfterReenqueue(s: State, at: Places): Places {
    if s.sweep.Moving? && s.sweep.ids != [] then Enter(s, at, s.sweep.ids[0]) else at
  }

  lemma ReenqueueStaysInPlace(s: State, at: Places, now: Time, rescheduled: bool) returns (at': Places)
    requires InPlace(s, at)
    ensures InPlace(StepReenqueue(s, Replies, now, rescheduled), at') && at' == AfterReenqueue(s, at)
  {
    at' := at;
    if s.sweep.Moving? && s.sweep.ids != [] {
      at' := Enter(s, at, s.sweep.ids[0]);
      ReenqueuedInPlace(s, at);
    }
  }

  // ---------------------------------------------------------------- every clean run

  function PlacesAfterWork(s: State, at: Places, w: WorkerId, a: WorkerAction): Places {
    match a
    case Consume(count) => AfterConsume(s, at, w, count)
    case Execute(i, _, _) => AfterProcessing(s, at, w, i, Executed(w, i))
    case Defer(i, _) => AfterProcessing(s, at, w, i, Waiting)
    case Write(_) => AfterWrite(s, at, w)
    case _ => at
  }

  function PlacesAfterSweep(s: State, at: Places, a: SweepAction): Places {
    match a
    case RemoveDue(ok) => AfterRemove(s, at, ok)
    case Reenqueue(_, _, _) => AfterReenqueue(s, at)
    case _ => at
  }

  // Where each task is after a step.
  function PlacesAfter(s: State, at: Places, a: Action): Places {
    match a
    case Create(run, EnqueueStaged(_)) => AfterEnqueue(s, at, run)
    case Work(w, working) => PlacesAfterWork(s, at, w, working)
    case Sweep(sweeping) => PlacesAfterSweep(s, at, sweeping)
    case _ => at
  }

  lemma WorkerStaysInPlace(s: State, at: Places, w: WorkerId, a: WorkerAction) returns (at': Places)
    requires InPlace(s, at) && Wellformed(s) && Clean(s, Work(w, a))
    ensures InPlace(StepWorker(s, w, a), at') && at' == PlacesAfterWork(s, at, w, a)
  {
    at' := at;
    match a
    case Consume(count) => at' := ConsumeStaysInPlace(s, at, w, count);
    case Load(i) => LoadStaysInPlace(s, at, w, i);
    case Execute(i, report, now) => at' := ExecuteStaysInPlace(s, at, w, i, report, now);
    case Defer(i, now) => at' := DeferStaysInPlace(s, at, w, i, now);
    case Write(_) => WriteStaysInPlace(s, at, w); at' := AfterWrite(s, at, w);
    case AckBatch(_) => AckStaysInPlace(s, at, w);
  }

  lemma SweeperStaysInPlace(s: State, at: Places, a: SweepAction) returns (at': Places)
    requires InPlace(s, at) && Clean(s, Sweep(a))
    ensures InPlace(StepSweeper(s, a), at') && at' == PlacesAfterSweep(s, at, a)
  {
    at' := at;
    match a
    case ReadDue(now, limit, ids) => ReadDueStaysInPlace(s, at, now, limit, ids);
    case RemoveDue(ok) => at' := RemoveDueStaysInPlace(s, at, ok);
    case Reenqueue(_, now, rescheduled) => at' := ReenqueueStaysInPlace(s, at, now, rescheduled);
  }

  lemma CreatorStaysInPlace(s: State, at: Places, run: RunId, a: CreatorAction) returns (at': Places)
    requires InPlace(s, at) && Wellformed(s) && Clean(s, Create(run, a))
    ensures InPlace(StepCreator(s, run, a), at') && at' == PlacesAfter(s, at, Create(run, a))
  {
    at' := at;
    match a
    case Stage(ids, rows, environment, scheduled) =>
      StageStaysInPlace(s, at, run, ids, rows, environment, scheduled);
    case EnqueueStaged(_) => at' := EnqueueStaysInPlace(s, at, run);
    case Commit => CommitStaysInPlace(s, at, run);
  }

  lemma StepStaysInPlace(s: State, at: Places, a: Action) returns (at': Places)
    requires InPlace(s, at) && Wellformed(s) && Clean(s, a)
    ensures InPlace(Step(s, a), at') && at' == PlacesAfter(s, at, a)
  {
    at' := at;
    match a
    case Create(run, creating) => at' := CreatorStaysInPlace(s, at, run, creating);
    case Work(w, working) => at' := WorkerStaysInPlace(s, at, w, working);
    case Sweep(sweeping) => at' := SweeperStaysInPlace(s, at, sweeping);
    case Tick(_) =>
  }

  lemma {:induction false} CleanRunsAreInPlace(actions: seq<Action>) returns (at: Places)
    requires CleanRun(actions)
    ensures InPlace(Run(INITIAL, actions), at) && Wellformed(Run(INITIAL, actions))
    decreases |actions|
  {
    RunsAreWellformed(actions);
    at := map[];
    if actions != [] {
      var front := actions[..|actions| - 1];
      at := CleanRunsAreInPlace(front);
      at := StepStaysInPlace(Run(INITIAL, front), at, actions[|actions| - 1]);
    }
  }

  // Attempts are numbered 1 to k without gap or repeat, k is at most one more than the retries
  // allowed, and the one terminal outcome is committed exactly when the row says so.
  lemma {:induction false} ExactlyOnce(actions: seq<Action>, task: TaskId)
    requires CleanRun(actions) && task in Run(INITIAL, actions).db.tasks
    ensures var db := Run(INITIAL, actions).db;
            && (var attempts := AttemptsOf(db.results, task);
                attempts == OneTo(|attempts|) && |attempts| <= Max0(db.tasks[task].maxRetries) + 1)
            && TerminalCount(db.logs, task) == if IsTerminal(db.tasks[task].status) then 1 else 0
  {
    var at := CleanRunsAreInPlace(actions);
    var db := Run(INITIAL, actions).db;
    assert RowAt(db, task, at[task]) && RowOk(db.tasks[task]);
  }

  lemma CommitsLeaveRows(s: State, run: RunId, a: CreatorAction, task: TaskId)
    requires Staging(s) && task in s.db.tasks
    ensures task in StepCreator(s, run, a).db.tasks && StepCreator(s, run, a).db.tasks[task] == s.db.tasks[task]
  {
    CreatorsCommit(s, run, a);
    if run in s.staged {
      assert CreationOk(s, run);
      NewRowsFresh(s, run);
    }
  }

  lemma WritesLeaveFinished(s: State, at: Places, w: WorkerId, a: WorkerAction, task: TaskId)
    requires HandsAt(s.workers, s.db.tasks, at) && task in s.db.tasks && task in at && at[task].Finished?
    ensures task in StepWorker(s, w, a).db.tasks && StepWorker(s, w, a).db.tasks[task] == s.db.tasks[task]
  {
    WorkersWriteBatches(s, w, a);
    if StepWorker(s, w, a).db != s.db {
      BatchMatchesPlaces(s, at, w, task);
      LastOutcomeWins(s.db.tasks, Outcomes(PhaseOf(s, w).slots), task);
    }
  }

  // A terminal row is never written again.
  lemma {:induction false} TerminalIsAbsorbing(actions: seq<Action>, a: Action, task: TaskId)
    requires CleanRun(actions) && Clean(Run(INITIAL, actions), a)
    requires var db := Run(INITIAL, actions).db; task in db.tasks && IsTerminal(db.tasks[task].status)
    ensures var s := Run(INITIAL, actions);
            task in Step(s, a).db.tasks && Step(s, a).db.tasks[task] == s.db.tasks[task]
  {
    var s := Run(INITIAL, actions);
    var at := CleanRunsAreInPlace(actions);
    assert RowAt(s.db, task, at[task]);
    match a
    case Create(run, creating) => CommitsLeaveRows(s, run, creating, task);
    case Work(w, working) => WritesLeaveFinished(s, at, w, working, task);
    case Sweep(sweeping) => SweeperFrame(s, sweeping);
    case Tick(_) =>
  }

  lemma AtMostOneTerminal(db: Tables, at: Places)
    requires RowsAt(db, at) && LogsOk(db) && Paired(db)
    ensures forall task: TaskId :: TerminalCount(db.logs, task) <= 1
  {
    forall task: TaskId ensures TerminalCount(db.logs, task) <= 1 {
      if task in db.tasks {
        assert RowAt(db, task, at[task]);
      } else {
        NoHistory(db, task, |db.logs|);
        assert db.logs[..|db.logs|] == db.logs;
      }
    }
  }

  // The run row tells the truth: it is completed if and only if all its tasks are terminal.
  lemma CompletedIsExact(actions: seq<Action>, run: RunId)
    requires CleanRun(actions) && run in Run(INITIAL, actions).db.runs
    ensures var db := Run(INITIAL, actions).db;
            && db.runs[run].completedTasks + db.runs[run].failedTasks <= db.runs[run].totalTasks
            && (db.runs[run].status == RunCompleted <==>
                forall task | task in TasksOf(db, run) :: IsTerminal(db.tasks[task].status))
  {
    var at := CleanRunsAreInPlace(actions);
    var db := Run(INITIAL, actions).db;
    AtMostOneTerminal(db, at);
    CompletedMeansAllEnded(db, run);
    forall task | task in TasksOf(db, run) ensures Ended(db, task) <==> IsTerminal(db.tasks[task].status) {
      assert RowAt(db, task, at[task]);
    }
  }
}
