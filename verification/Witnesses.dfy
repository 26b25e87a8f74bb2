// Runs that show what at-least-once delivery does allow: each breaks a premise of a theorem.
module Witnesses {
  import opened Wrappers
  import opened Records
  import opened Sequences
  import opened ResultWriter
  import opened Ledger
  import opened RetryQueue
  import opened RunContext
  import opened Streams
  import opened TaskProcessor
  import opened Protocol
  import opened NoTaskLost
  import ReclaimSweeper

  const RESPONSE := ExecutionResult(Some(200), 1, None, None, None)
  const SUCCESS := Report(RESPONSE, Some(true), [], map[])
  const FAILURE := Report(RESPONSE, Some(false), ["failed"], map[])
  const W: WorkerId := 0
  const V: WorkerId := 1

  function Row(run: RunId): TaskRow {
    TaskRow(run, 0, None, map[], Pending, 0, 3, None, None)
  }

  function OneTask(run: RunId): Tables {
    Tables(map[0 := Row(run)], map[run := RunRow(RunRunning, 1, 0, 0, map[])], [], [])
  }

  lemma Then(actions: seq<Action>, a: Action) returns (actions': seq<Action>)
    ensures actions' == actions + [a]
    ensures Run(INITIAL, actions') == Step(Run(INITIAL, actions), a)
  {
    actions' := actions + [a];
    assert actions'[..|actions'| - 1] == actions;
  }

  // ---------------------------------------------------------------- single steps, with one task about

  lemma Fetch(s: State, w: WorkerId)
    requires s.stream.queue != [] && PhaseOf(s, w).Idle?
    ensures var (id, task) := (s.stream.next, s.stream.queue[0]);
            StepConsume(s, w, 1) ==
            s.(workers := s.workers[w := Gathering([Slot(StreamEntry(id, task), Delivered)], s.now)],
               stream := Stream(s.stream.queue[1..], id + 1, s.stream.pending[id := Delivery(task, Worker(w), s.now)]))
  {
    var (id, task) := (s.stream.next, s.stream.queue[0]);
    var e := StreamEntry(id, task);
    assert s.stream.Entries(1) == [e];
    assert Map((e: StreamEntry) => Slot(e, Delivered), [e]) == [Slot(e, Delivered)];
    assert s.stream.ReadGroup(Worker(w), 1, s.now) ==
           Stream(s.stream.queue[1..], id + 1, s.stream.pending[id := Delivery(task, Worker(w), s.now)]);
  }

  predicate Holding(s: State, w: WorkerId, id: EntryId, progress: Progress) {
    PhaseOf(s, w).Gathering? && PhaseOf(s, w).slots == [Slot(StreamEntry(id, 0), progress)]
  }

  predicate Moves(s: State, s': State, w: WorkerId, id: EntryId, progress: Progress) {
    Holding(s', w, id, progress) && s'.workers == s.workers[w := s'.workers[w]] && s'.stream == s.stream &&
    s'.db == s.db && s'.staged == s.staged && s'.sweep == s.sweep && s'.claimed == s.claimed && s'.now == s.now
  }

  lemma Read(s: State, w: WorkerId, id: EntryId)
    requires Holding(s, w, id, Delivered)
    ensures Moves(s, StepLoad(s, w, 0), w, id, if 0 in s.db.tasks then Loaded(s.db.tasks[0]) else Done(None))
    ensures StepLoad(s, w, 0).retry == s.retry && StepLoad(s, w, 0).processed == s.processed + [id]
  {
  }

  lemma Finish(s: State, w: WorkerId, id: EntryId, row: TaskRow, report: Report)
    requires Holding(s, w, id, Loaded(row))
    ensures var (s', o) := (StepExecute(s, w, 0, report, 0.0), Conclude(0, row, w, report, 0.0));
            && Moves(s, s', w, id, Done(Some(o)))
            && s'.retry == if o.newStatus == Retrying then s.retry[0 := o.nextRetryAt.value] else s.retry
  {
  }

  // The worker's batch is that one slot, and it writes and acknowledges it.
  lemma WriteOne(s: State, w: WorkerId, id: EntryId, outcome: Option<TaskOutcome>)
    requires Holding(s, w, id, Done(outcome)) && (outcome.Some? ==> Referenced(s.db, [outcome.value]))
    ensures var s' := StepWrite(s, w, Replies);
            && s'.db == (if outcome.Some? then Written(s.db, [outcome.value]) else s.db)
            && s' == s.(db := s'.db, workers := s.workers[w := Acking([StreamEntry(id, 0)], s.workers[w].since)])
  {
    var slots := s.workers[w].slots;
    assert slots[..0] == [] && Outcomes([]) == [] && ToAck([]) == [];
    assert ToAck(slots) == [StreamEntry(id, 0)];
    assert Outcomes(slots) == if outcome.Some? then [outcome.value] else [];
  }

  lemma AckOne(s: State, w: WorkerId, id: EntryId)
    requires PhaseOf(s, w).Acking? && PhaseOf(s, w).entries == [StreamEntry(id, 0)]
    ensures StepAckBatch(s, w, Replies) == s.(workers := s.workers[w := Idle], stream := s.stream.Ack({id}))
  {
    assert Ids([StreamEntry(id, 0)]) == {id};
  }

  lemma CommitOne(s: State, run: RunId, scheduled: bool, enqueued: nat, broken: bool)
    requires enqueued == 1 || broken
    requires s.db == EMPTY_TABLES
    requires s.staged == map[run := Creation(OneTask(run).runs[run], [0], [Row(run)], scheduled, enqueued, broken)]
    ensures StepCommit(s, run) == s.(staged := map[], db := OneTask(run))
  {
    OneNewRow(s.staged[run], run);
    assert s.staged - {run} == map[];
  }

  lemma OneNewRow(c: Creation, run: RunId)
    requires c.ids == [0] && c.rows == [Row(run)]
    ensures NewRows(c) == map[0 := Row(run)]
  {
    assert c.ids[0] !in c.ids[..0];
  }

  // ---------------------------------------------------------------- one task, staged or committed

  // A world in which nothing has happened apart from the creation of the run.
  predicate Quiet(s: State) {
    && s.retry == map[] && s.workers == map[] && s.now == 0 && s.sweep == Resting && s.claimed == []
    && s.processed == []
  }

  predicate StagedOne(s: State, run: RunId, scheduled: bool, enqueued: nat) {
    && s.staged == map[run := Creation(OneTask(run).runs[run], [0], [Row(run)], scheduled, enqueued, false)]
    && s.db == EMPTY_TABLES && Quiet(s)
  }

  lemma StageOne(run: RunId, scheduled: bool) returns (actions: seq<Action>)
    ensures StagedOne(Run(INITIAL, actions), run, scheduled, 0) && Run(INITIAL, actions).stream == EMPTY_STREAM
  {
    assert CanStage(INITIAL, run, [0], [Row(run)]);
    actions := Then([], Create(run, Stage([0], [Row(run)], map[], scheduled)));
  }

  lemma EnqueueOne(run: RunId) returns (actions: seq<Action>)
    ensures StagedOne(Run(INITIAL, actions), run, false, 1) && Run(INITIAL, actions).stream == Stream([0], 0, map[])
  {
    actions := StageOne(run, false);
    actions := Then(actions, Create(run, EnqueueStaged(Replies)));
  }

  predicate CreatedOne(s: State, run: RunId) {
    s.db == OneTask(run) && s.staged == map[] && s.stream == Stream([0], 0, map[]) && Quiet(s)
  }

  lemma CreateOne(run: RunId) returns (actions: seq<Action>)
    ensures CreatedOne(Run(INITIAL, actions), run)
  {
    actions := EnqueueOne(run);
    CommitOne(Run(INITIAL, actions), run, false, 1, false);
    actions := Then(actions, Create(run, Commit));
  }

  // ---------------------------------------------------------------- losing a task

  predicate Gone(s: State, task: TaskId) {
    task in s.db.tasks && !Ended(s.db, task) && !Live(s, task)
  }

  lemma IsGone(s: State, run: RunId)
    requires s.db == OneTask(run) && s.stream.queue == [] && s.stream.pending == map[] && s.retry == map[]
    requires s.sweep == Resting
    ensures Gone(s, 0)
  {
  }

  lemma FetchOne(s: State, w: WorkerId) returns (s': State)
    requires s.stream.queue == [0] && PhaseOf(s, w).Idle?
    ensures s' == Step(Step(s, Work(w, Consume(1))), Work(w, Load(0)))
    ensures var id := s.stream.next;
            && s'.stream == Stream([], id + 1, s.stream.pending[id := Delivery(0, Worker(w), s.now)])
            && Moves(s.(stream := s'.stream), s', w, id, if 0 in s.db.tasks then Loaded(s.db.tasks[0]) else Done(None))
            && s'.retry == s.retry && s'.processed == s.processed + [id]
  {
    Fetch(s, w);
    assert s.stream.queue[1..] == [];
    s' := Step(s, Work(w, Consume(1)));
    Read(s', w, s.stream.next);
    s' := Step(s', Work(w, Load(0)));
  }

  lemma SettleOne(s: State, w: WorkerId, id: EntryId, outcome: Option<TaskOutcome>) returns (s': State)
    requires Holding(s, w, id, Done(outcome)) && (outcome.Some? ==> Referenced(s.db, [outcome.value]))
    ensures s' == Step(Step(s, Work(w, Write(Replies))), Work(w, AckBatch(Replies)))
    ensures s' == s.(db := if outcome.Some? then Written(s.db, [outcome.value]) else s.db,
                     workers := s.workers[w := Idle], stream := s.stream.Ack({id}))
  {
    WriteOne(s, w, id, outcome);
    s' := StepWrite(s, w, Replies);
    AckOne(s', w, id);
    s' := StepAckBatch(s', w, Replies);
    assert s.workers[w := Idle] == s'.workers;
  }

  lemma {:induction false} Twice(actions: seq<Action>, a: Action, b: Action) returns (actions': seq<Action>)
    ensures Run(INITIAL, actions') == Step(Step(Run(INITIAL, actions), a), b)
  {
    actions' := Then(actions, a);
    actions' := Then(actions', b);
  }

  // Runs are enqueued before they are committed. A worker that is faster than the commit finds
  // no row, acknowledges the entry, and the task is never processed.
  lemma {:induction false} EarlyReadLosesTask(run: RunId) returns (actions: seq<Action>)
    ensures Gone(Run(INITIAL, actions), 0)
  {
    actions := EnqueueOne(run);
    var s := Run(INITIAL, actions);
    s := FetchOne(s, W);
    actions := Twice(actions, Work(W, Consume(1)), Work(W, Load(0)));
    s := SettleOne(s, W, 0, None);
    actions := Twice(actions, Work(W, Write(Replies)), Work(W, AckBatch(Replies)));
    CommitOne(s, run, false, 1, false);
    actions := Then(actions, Create(run, Commit));
    s := Step(s, Create(run, Commit));
    IsGone(s, run);
  }

  // The cron sweep catches a failed enqueue and still commits the run: its task exists, counts
  // towards the total, and was never enqueued.
  lemma {:induction false} ScheduledEnqueueFailureLosesTask(run: RunId) returns (actions: seq<Action>)
    ensures Gone(Run(INITIAL, actions), 0)
  {
    actions := StageOne(run, true);
    actions := Then(actions, Create(run, EnqueueStaged(Lost(false))));
    CommitOne(Run(INITIAL, actions), run, true, 0, true);
    actions := Then(actions, Create(run, Commit));
  }

  // ---------------------------------------------------------------- losing a retried task

  lemma ProcessOne(s: State, w: WorkerId, report: Report) returns (s': State)
    requires s.stream.queue == [0] && PhaseOf(s, w).Idle? && 0 in s.db.tasks
    ensures s' == Step(Step(Step(s, Work(w, Consume(1))), Work(w, Load(0))), Work(w, Execute(0, report, 0.0)))
    ensures var (id, o) := (s.stream.next, Conclude(0, s.db.tasks[0], w, report, 0.0));
            && s'.stream == Stream([], id + 1, s.stream.pending[id := Delivery(0, Worker(w), s.now)])
            && Moves(s.(stream := s'.stream), s', w, id, Done(Some(o)))
            && s'.retry == if o.newStatus == Retrying then s.retry[0 := o.nextRetryAt.value] else s.retry
  {
    s' := FetchOne(s, w);
    Finish(s', w, s.stream.next, s.db.tasks[0], report);
    s' := Step(s', Work(w, Execute(0, report, 0.0)));
  }

  function Outcome(run: RunId, w: WorkerId, report: Report): TaskOutcome {
    Conclude(0, Row(run), w, report, 0.0)
  }

  lemma RetryingIsOpen(run: RunId, w: WorkerId)
    ensures var db := Written(OneTask(run), [Outcome(run, w, FAILURE)]); 0 in db.tasks && !Ended(db, 0)
  {
    var o := Outcome(run, w, FAILURE);
    assert Map(BuildLog, [o]) == [BuildLog(o)];
    assert TerminalCount([BuildLog(o)][..0], 0) == 0;
  }

  // The first attempt has failed, its retry has been scheduled and popped.
  predicate Popped(s: State, run: RunId) {
    && s.db == Written(OneTask(run), [Outcome(run, W, FAILURE)])
    && s.stream == Stream([], 1, map[]) && s.retry == map[] && s.sweep == Moving([0])
  }

  lemma PopOne(s: State, score: Time)
    requires s.retry == map[0 := score] && s.sweep.Resting?
    ensures Step(Step(s, Sweep(ReadDue(score, 1, [0]))), Sweep(RemoveDue(true))) ==
            s.(retry := map[], sweep := Moving([0]))
  {
    assert Due(s.retry, score) == {0} && Members([0]) == {0};
    assert LowestDue(s.retry, score, 1, [0]);
    assert Remove(s.retry, [0]) == map[];
  }

  // The first attempt has failed and its retry is scheduled; the outcome is not committed yet.
  predicate FailedOnce(s: State, run: RunId) {
    && s.db == OneTask(run) && s.stream == Stream([], 1, map[0 := Delivery(0, Worker(W), 0)])
    && s.retry == map[0 := 2.0] && s.sweep.Resting? && PhaseOf(s, V).Idle?
    && Holding(s, W, 0, Done(Some(Outcome(run, W, FAILURE))))
  }

  lemma {:induction false} FailOnce(run: RunId) returns (actions: seq<Action>)
    ensures FailedOnce(Run(INITIAL, actions), run)
  {
    actions := CreateOne(run);
    var s := ProcessOne(Run(INITIAL, actions), W, FAILURE);
    actions := Twice(actions, Work(W, Consume(1)), Work(W, Load(0)));
    actions := Then(actions, Work(W, Execute(0, FAILURE, 0.0)));
  }

  lemma {:induction false} PopRetry(run: RunId) returns (actions: seq<Action>)
    ensures Popped(Run(INITIAL, actions), run)
  {
    actions := FailOnce(run);
    var s := SettleOne(Run(INITIAL, actions), W, 0, Some(Outcome(run, W, FAILURE)));
    actions := Twice(actions, Work(W, Write(Replies)), Work(W, AckBatch(Replies)));
    PopOne(s, 2.0);
    actions := Twice(actions, Sweep(ReadDue(2.0, 1, [0])), Sweep(RemoveDue(true)));
  }

  lemma PoppedIsGone(s: State, run: RunId, s': State)
    requires Popped(s, run) && s'.db == s.db && s'.stream == s.stream && s'.retry == s.retry && s'.sweep == Resting
    ensures Gone(s', 0)
  {
    RetryingIsOpen(run, W);
  }

  // The sweeper's enqueue fails, and so does the reschedule that should make up for it.
  lemma {:induction false} FailedRescheduleLosesTask(run: RunId) returns (actions: seq<Action>)
    ensures Gone(Run(INITIAL, actions), 0)
  {
    actions := PopRetry(run);
    var s := Run(INITIAL, actions);
    actions := Then(actions, Sweep(Reenqueue(Lost(false), 3.0, false)));
    PoppedIsGone(s, run, StepReenqueue(s, Lost(false), 3.0, false));
  }

  // The backend dies between ZREM and XADD.
  lemma {:induction false} RestartLosesPoppedTask(run: RunId) returns (actions: seq<Action>)
    ensures Gone(Run(INITIAL, actions), 0)
  {
    actions := PopRetry(run);
    var s := Run(INITIAL, actions);
    actions := Then(actions, RestartBackend);
    PoppedIsGone(s, run, s.(staged := map[], sweep := Resting, claimed := []));
  }

  // ---------------------------------------------------------------- one task in two hands

  const STALE := ReclaimSweeper.DEFAULT_MIN_IDLE_MS

  // The entry has been pending for long enough.
  predicate IsStale(s: State, id: EntryId) {
    s.stream.Stale(id, STALE, s.now) && s.stream.pending[id].task == 0 && s.claimed == []
  }

  lemma ClaimOne(s: State, id: EntryId)
    requires IsStale(s, id)
    ensures Step(s, Reclaim(ClaimStale([id], STALE))) ==
            s.(stream := s.stream.Claim({id}, Reclaimer, s.now), claimed := [ClaimedEntry(StreamEntry(id, 0), false)])
  {
    assert Map((e: EntryId) => ClaimedEntry(StreamEntry(e, TaskOf(s.stream, e)), false), [id]) ==
           [ClaimedEntry(StreamEntry(id, 0), false)];
    assert (set e | e in [id]) == {id};
  }

  lemma ReclaimOne(s: State, id: EntryId)
    requires IsStale(s, id) && s.stream.queue == []
    ensures var s1 := Step(s, Reclaim(ClaimStale([id], STALE)));
            Step(Step(s1, Reclaim(ReclaimEnqueue(Replies))), Reclaim(ReclaimAck(Replies))) ==
            s.(stream := Stream([0], s.stream.next, s.stream.pending - {id}), covered := s.covered + {id})
  {
    ClaimOne(s, id);
    var s1 := Step(s, Reclaim(ClaimStale([id], STALE)));
    var s2 := StepReclaimEnqueue(s1, Replies);
    assert s2.claimed == [ClaimedEntry(StreamEntry(id, 0), true)] && s2.stream.queue == [0];
    assert s2.stream.pending - {id} == s.stream.pending - {id};
  }

  type Pending = map<EntryId, Delivery>

  // The stream has one undelivered entry, for task 0; other entries may be pending.
  predicate Offers(s: State, n: EntryId, others: Pending) {
    && s.stream == Stream([0], n, others) && n !in others && 0 in s.db.tasks
    && s.now == 0 && s.claimed == [] && PhaseOf(s, W).Idle? && PhaseOf(s, V).Idle?
  }

  predicate HeldTwice(s: State, db: Tables, n: EntryId) {
    && s.db == db && 0 in db.tasks
    && Holding(s, W, n, Loaded(db.tasks[0])) && Holding(s, V, n + 1, Loaded(db.tasks[0]))
  }

  // The reclaim sweeper puts a task back that a worker has been holding for too long.
  lemma {:induction false} Reoffer(start: seq<Action>, n: EntryId) returns (actions: seq<Action>)
    requires var s := Run(INITIAL, start);
             && s.stream.queue == [] && s.claimed == []
             && n in s.stream.pending && s.stream.pending[n] == Delivery(0, Worker(W), s.now)
    ensures var s := Run(INITIAL, start);
            Run(INITIAL, actions) ==
            s.(now := s.now + STALE, stream := Stream([0], s.stream.next, s.stream.pending - {n}),
               covered := s.covered + {n})
  {
    actions := Then(start, Tick(STALE));
    ReclaimOne(Run(INITIAL, actions), n);
    actions := Twice(actions, Reclaim(ClaimStale([n], STALE)), Reclaim(ReclaimEnqueue(Replies)));
    actions := Then(actions, Reclaim(ReclaimAck(Replies)));
  }

  // The first worker has read the row, and the entry is on offer again.
  lemma {:induction false} HoldOnce(start: seq<Action>, n: EntryId, others: Pending) returns (actions: seq<Action>)
    requires Offers(Run(INITIAL, start), n, others)
    ensures var (s, db) := (Run(INITIAL, actions), Run(INITIAL, start).db);
            && s.db == db && s.stream == Stream([0], n + 1, others) && PhaseOf(s, V).Idle?
            && Holding(s, W, n, Loaded(db.tasks[0]))
  {
    var s := FetchOne(Run(INITIAL, start), W);
    actions := Twice(start, Work(W, Consume(1)), Work(W, Load(0)));
    actions := Reoffer(actions, n);
    assert s.stream.pending - {n} == others;
  }

  // A worker takes longer than min_idle_ms; its entry is re-enqueued, and another worker reads
  // the same row.
  lemma {:induction false} HoldTwice(start: seq<Action>, n: EntryId, others: Pending) returns (actions: seq<Action>)
    requires Offers(Run(INITIAL, start), n, others)
    ensures HeldTwice(Run(INITIAL, actions), Run(INITIAL, start).db, n)
  {
    actions := HoldOnce(start, n, others);
    var s := FetchOne(Run(INITIAL, actions), V);
    actions := Twice(actions, Work(V, Consume(1)), Work(V, Load(0)));
  }

  lemma {:induction false} ConcludeOne(actions: seq<Action>, run: RunId, w: WorkerId, id: EntryId, report: Report)
    returns (actions': seq<Action>)
    requires var s := Run(INITIAL, actions);
             Holding(s, w, id, Loaded(Row(run))) && 0 in s.db.tasks && run in s.db.runs
    ensures var (s, s') := (Run(INITIAL, actions), Run(INITIAL, actions'));
            && Referenced(s.db, [Outcome(run, w, report)])
            && s'.db == Written(s.db, [Outcome(run, w, report)])
            && s'.workers == s.workers[w := Idle]
  {
    var s := Run(INITIAL, actions);
    Finish(s, w, id, Row(run), report);
    actions' := Then(actions, Work(w, Execute(0, report, 0.0)));
    s := Step(s, Work(w, Execute(0, report, 0.0)));
    s := SettleOne(s, w, id, Some(Outcome(run, w, report)));
    actions' := Twice(actions', Work(w, Write(Replies)), Work(w, AckBatch(Replies)));
  }

  // The tables after both workers have written what they made of the row.
  function BothWritten(db: Tables, run: RunId, report: Report): Tables
    requires 0 in db.tasks && run in db.runs
  {
    Written(db, [Outcome(run, W, SUCCESS), Outcome(run, V, report)])
  }

  lemma TwoOutcomes(db: Tables, run: RunId, report: Report)
    requires 0 in db.tasks && run in db.runs
    ensures var (o, o') := (Outcome(run, W, SUCCESS), Outcome(run, V, report));
            && Referenced(db, [o]) && Referenced(Written(db, [o]), [o'])
            && Written(Written(db, [o]), [o']) == BothWritten(db, run, report)
  {
    var (o, o') := (Outcome(run, W, SUCCESS), Outcome(run, V, report));
    assert [o] + [o'] == [o, o'];
    BatchIsSequential(db, [o], [o']);
  }

  lemma {:induction false} ConcludeTwice(start: seq<Action>, db: Tables, run: RunId, n: EntryId, others: Pending,
                                         report: Report)
    returns (actions: seq<Action>)
    requires Offers(Run(INITIAL, start), n, others) && Run(INITIAL, start).db == db
    requires db.tasks[0] == Row(run) && run in db.runs
    ensures Run(INITIAL, actions).db == BothWritten(db, run, report)
  {
    actions := HoldTwice(start, n, others);
    actions := ConcludeOne(actions, run, W, n, SUCCESS);
    TwoOutcomes(db, run, report);
    actions := ConcludeOne(actions, run, V, n + 1, report);
  }

  // Both workers succeed: the one task of the run is counted twice.
  lemma SlowWorkerOvercounts(run: RunId) returns (actions: seq<Action>)
    ensures var db := Run(INITIAL, actions).db;
            && run in db.runs && db.runs[run].completedTasks == 2 && db.runs[run].totalTasks == 1
            && TerminalCount(db.logs, 0) == 2
  {
    actions := CreateOne(run);
    actions := ConcludeTwice(actions, OneTask(run), run, 0, map[], SUCCESS);
    var (o, o') := (Outcome(run, W, SUCCESS), Outcome(run, V, SUCCESS));
    CountedTwice(o, o');
    assert OneTask(run).logs + Map(BuildLog, [o, o']) == Map(BuildLog, [o, o']);
  }

  // ---------------------------------------------------------------- a run of two tasks

  const X: WorkerId := 2

  function TwoTasks(run: RunId): Tables {
    Tables(map[0 := Row(run), 1 := Row(run)], map[run := RunRow(RunRunning, 2, 0, 0, map[])], [], [])
  }

  function TwoTaskCreation(run: RunId, enqueued: nat): Creation {
    Creation(TwoTasks(run).runs[run], [1, 0], [Row(run), Row(run)], false, enqueued, false)
  }

  predicate StagedTwo(s: State, run: RunId, enqueued: nat, queue: seq<TaskId>) {
    && s.staged == map[run := TwoTaskCreation(run, enqueued)]
    && s.db == EMPTY_TABLES && Quiet(s) && s.stream == Stream(queue, 0, map[])
  }

  lemma EnqueueTwo(run: RunId) returns (actions: seq<Action>)
    ensures StagedTwo(Run(INITIAL, actions), run, 2, [1, 0])
  {
    assert CanStage(INITIAL, run, [1, 0], [Row(run), Row(run)]);
    actions := Then([], Create(run, Stage([1, 0], [Row(run), Row(run)], map[], false)));
    assert StagedTwo(Run(INITIAL, actions), run, 0, []);
    actions := Then(actions, Create(run, EnqueueStaged(Replies)));
    assert StagedTwo(Run(INITIAL, actions), run, 1, [1]);
    actions := Then(actions, Create(run, EnqueueStaged(Replies)));
  }

  lemma CommitTwo(s: State, run: RunId)
    requires s.db == EMPTY_TABLES && s.staged == map[run := TwoTaskCreation(run, 2)]
    ensures StepCommit(s, run) == s.(staged := map[], db := TwoTasks(run))
  {
    var c := s.staged[run];
    assert c.ids[0] !in c.ids[..0] && c.ids[1] !in c.ids[..1];
    assert NewRows(c) == map[0 := Row(run), 1 := Row(run)];
    assert s.staged - {run} == map[];
  }

  // Task 1 is in the hands of worker X, and task 0 is still to be delivered.
  lemma OfferSecond(run: RunId) returns (actions: seq<Action>)
    ensures var s := Run(INITIAL, actions);
            Offers(s, 1, map[0 := Delivery(1, Worker(X), 0)]) && s.db == TwoTasks(run)
  {
    actions := EnqueueTwo(run);
    CommitTwo(Run(INITIAL, actions), run);
    actions := Then(actions, Create(run, Commit));
    Fetch(Run(INITIAL, actions), X);
    actions := Then(actions, Work(X, Consume(1)));
    assert [1, 0][1..] == [0];
  }

  lemma CountedTwice(o: TaskOutcome, o': TaskOutcome)
    requires o.newStatus == Completed && o'.newStatus == Completed && o'.runId == o.runId && o'.taskId == o.taskId
    ensures Count([o, o'], o.runId, Completed) == 2 && Count([o, o'], o.runId, Failed) == 0
    ensures forall task: TaskId | task != o.taskId :: TerminalCount(Map(BuildLog, [o, o']), task) == 0
    ensures TerminalCount(Map(BuildLog, [o, o']), o.taskId) == 2
  {
    var logs := Map(BuildLog, [o, o']);
    assert [o, o'][..1] == [o] && [o][..0] == [] && Count([o], o.runId, Completed) == 1 &&
           Count([o], o.runId, Failed) == 0;
    assert logs[..1] == [BuildLog(o)] && [BuildLog(o)][..0] == [];
    assert TerminalCount([BuildLog(o)], o.taskId) == 1;
    assert forall task: TaskId | task != o.taskId :: TerminalCount([BuildLog(o)], task) == 0;
  }

  // Counted twice, one task is enough to complete a run of two: it is COMPLETED although the
  // other task, which a worker has not even read yet, has not ended.
  lemma {:induction false} DuplicateCompletesEarly(run: RunId) returns (actions: seq<Action>)
    ensures var db := Run(INITIAL, actions).db;
            && run in db.runs && db.runs[run].status == RunCompleted
            && 1 in TasksOf(db, run) && !Ended(db, 1)
  {
    actions := OfferSecond(run);
    actions := ConcludeTwice(actions, TwoTasks(run), run, 1, map[0 := Delivery(1, Worker(X), 0)], SUCCESS);
    var (o, o') := (Outcome(run, W, SUCCESS), Outcome(run, V, SUCCESS));
    CountedTwice(o, o');
    LastOutcomeWins(TwoTasks(run).tasks, [o, o'], 1);
    assert TwoTasks(run).logs + Map(BuildLog, [o, o']) == Map(BuildLog, [o, o']);
  }

  // The second worker fails: the row of the completed task goes back to RETRYING, although the
  // run stays COMPLETED.
  lemma {:induction false} SlowWorkerReopensTask(run: RunId) returns (actions: seq<Action>)
    ensures var db := Run(INITIAL, actions).db;
            && run in db.runs && db.runs[run].status == RunCompleted
            && 0 in db.tasks && db.tasks[0].status == Retrying && Ended(db, 0)
  {
    actions := CreateOne(run);
    actions := ConcludeTwice(actions, OneTask(run), run, 0, map[], FAILURE);
    var os := [Outcome(run, W, SUCCESS), Outcome(run, V, FAILURE)];
    assert os[..1] == [os[0]] && os[..1][..0] == [];
    assert Count(os[..1], run, Completed) == 1;
    assert Count(os, run, Completed) == 1;
    LastOutcomeWins(OneTask(run).tasks, os, 0);
    assert os[0] in os;
    TerminalOutcomeEnds(os, os[0]);
  }

  // ---------------------------------------------------------------- one attempt, recorded twice

  lemma {:induction false} SweptEarly(run: RunId) returns (actions: seq<Action>)
    ensures var s := Run(INITIAL, actions);
            && s.db == OneTask(run) && s.stream.queue == [0] && s.stream.next == 1
            && Holding(s, W, 0, Done(Some(Outcome(run, W, FAILURE)))) && PhaseOf(s, V).Idle?
  {
    actions := FailOnce(run);
    PopOne(Run(INITIAL, actions), 2.0);
    actions := Twice(actions, Sweep(ReadDue(2.0, 1, [0])), Sweep(RemoveDue(true)));
    actions := Then(actions, Sweep(Reenqueue(Replies, 2.0, true)));
  }

  lemma ExecutedTwice(run: RunId) returns (actions: seq<Action>)
    ensures var s := Run(INITIAL, actions);
            && s.db == OneTask(run)
            && Holding(s, W, 0, Done(Some(Outcome(run, W, FAILURE))))
            && Holding(s, V, 1, Done(Some(Outcome(run, V, FAILURE))))
  {
    actions := SweptEarly(run);
    var s := Run(INITIAL, actions);
    s := ProcessOne(s, V, FAILURE);
    actions := Twice(actions, Work(V, Consume(1)), Work(V, Load(0)));
    actions := Then(actions, Work(V, Execute(0, FAILURE, 0.0)));
  }

  lemma {:induction false} SettleNext(actions: seq<Action>, w: WorkerId, id: EntryId, o: TaskOutcome)
    returns (actions': seq<Action>)
    requires Holding(Run(INITIAL, actions), w, id, Done(Some(o))) && Referenced(Run(INITIAL, actions).db, [o])
    ensures var (s, s') := (Run(INITIAL, actions), Run(INITIAL, actions'));
            s'.db == Written(s.db, [o]) && s'.workers == s.workers[w := Idle]
  {
    var s := SettleOne(Run(INITIAL, actions), w, id, Some(o));
    actions' := Twice(actions, Work(w, Write(Replies)), Work(w, AckBatch(Replies)));
  }

  // The retry is due, popped and executed before the outcome that scheduled it is committed:
  // the second attempt still reads retry_count 0.
  lemma {:induction false} EarlySweepRepeatsAttempt(run: RunId) returns (actions: seq<Action>)
    ensures var db := Run(INITIAL, actions).db; AttemptsOf(db.results, 0) == [1, 1]
  {
    var (o, o') := (Outcome(run, W, FAILURE), Outcome(run, V, FAILURE));
    actions := ExecutedTwice(run);
    actions := SettleNext(actions, W, 0, o);
    actions := SettleNext(actions, V, 1, o');
    assert Run(INITIAL, actions).db.results == [BuildResult(o), BuildResult(o')];
    SameAttemptTwice(BuildResult(o), BuildResult(o'));
  }

  lemma SameAttemptTwice(x: RequestResult, y: RequestResult)
    requires x.taskId == y.taskId == 0 && x.attempt == y.attempt == 1
    ensures AttemptsOf([x, y], 0) == [1, 1]
  {
    var results := [x, y];
    assert results[..1] == [x] && [x][..0] == [];
    assert AttemptsOf([x], 0) == [1];
  }

  // ---------------------------------------------------------------- an exception that comes back for ever

  // The worker leaves the entry as it is, and has nothing to write or to acknowledge.
  lemma RaiseOne(s: State, w: WorkerId, id: EntryId, row: TaskRow) returns (s': State)
    requires Holding(s, w, id, Loaded(row))
    ensures s' == Step(Step(s, Work(w, Raise(0, Nothing))), Work(w, Write(Replies)))
    ensures s' == s.(workers := s.workers[w := Idle])
  {
    var raised := StepRaise(s, w, 0, Nothing);
    assert Holding(raised, w, id, Raised);
    var slots := raised.workers[w].slots;
    assert slots[..0] == [] && Outcomes([]) == [] && ToAck([]) == [];
    assert Outcomes(slots) == [] && ToAck(slots) == [];
    s' := StepWrite(raised, w, Replies);
    assert s'.workers == s.workers[w := Idle];
  }

  // The task has been given to process_task n times, and nothing has come of it.
  predicate Looping(s: State, run: RunId, n: nat) {
    && s.db == OneTask(run) && s.stream.queue == [0] && s.stream.pending == map[] && s.claimed == []
    && PhaseOf(s, W).Idle? && |s.processed| == n
  }

  lemma {:induction false} RaiseAgain(start: seq<Action>, run: RunId, n: nat) returns (actions: seq<Action>)
    requires Looping(Run(INITIAL, start), run, n)
    ensures Looping(Run(INITIAL, actions), run, n + 1)
  {
    var s := Run(INITIAL, start);
    var id := s.stream.next;
    s := FetchOne(s, W);
    actions := Twice(start, Work(W, Consume(1)), Work(W, Load(0)));
    s := RaiseOne(s, W, id, Row(run));
    actions := Twice(actions, Work(W, Raise(0, Nothing)), Work(W, Write(Replies)));
    actions := Reoffer(actions, id);
    assert s.stream.pending - {id} == map[];
  }

  // An exception that process_task does not catch is met again at every reclaim, for ever: no
  // number of rounds records an attempt or uses up a retry.
  lemma {:induction false} RaisesForEver(run: RunId, n: nat) returns (actions: seq<Action>)
    ensures var s := Run(INITIAL, actions); |s.processed| == n && s.db == OneTask(run)
    ensures Looping(Run(INITIAL, actions), run, n)
  {
    if n == 0 {
      actions := CreateOne(run);
    } else {
      actions := RaisesForEver(run, n - 1);
      actions := RaiseAgain(actions, run, n - 1);
    }
  }

  lemma MergeThenRaise(s: State, w: WorkerId, id: EntryId, row: TaskRow, variables: Variables)
    requires Holding(s, w, id, Loaded(row))
    ensures var s' := StepRaise(s, w, 0, Merged(Report(RESPONSE, Some(true), [], variables)));
            && s'.db == s.db
            && GetAll(s'.contexts, row.runId, row.dataRow) == GetAll(s.contexts, row.runId, row.dataRow) + variables
  {
  }

  // An attempt succeeds, its variables are merged, and then refreshing the time to live raises: later
  // tasks of the run see variables of an attempt that is not recorded.
  lemma {:induction false} MergedButNotRecorded(run: RunId, variables: Variables) returns (actions: seq<Action>)
    ensures var s := Run(INITIAL, actions);
            && s.db == OneTask(run)
            && forall name | name in variables ::
                 name in GetAll(s.contexts, run, None) && GetAll(s.contexts, run, None)[name] == variables[name]
  {
    var start := CreateOne(run);
    var s := FetchOne(Run(INITIAL, start), W);
    actions := Twice(start, Work(W, Consume(1)), Work(W, Load(0)));
    MergeThenRaise(s, W, Run(INITIAL, start).stream.next, Row(run), variables);
    actions := Then(actions, Work(W, Raise(0, Merged(Report(RESPONSE, Some(true), [], variables)))));
  }

  lemma ScheduleThenRaise(s: State, w: WorkerId, id: EntryId, row: TaskRow, at: Time)
    requires Holding(s, w, id, Loaded(row))
    ensures var s' := StepRaise(s, w, 0, Scheduled(at));
            s'.db == s.db && s'.stream == s.stream && s'.retry == s.retry[0 := at]
  {
  }

  // An attempt fails, its retry is scheduled, and then scheduling it raises all the same: the task
  // waits in the retry set, and its entry is left pending, to be reclaimed as well.
  lemma {:induction false} ScheduledAndPending(run: RunId, at: Time) returns (actions: seq<Action>)
    ensures var s := Run(INITIAL, actions);
            && s.db == OneTask(run) && 0 in s.retry && s.retry[0] == at
            && exists id | id in s.stream.pending :: s.stream.pending[id].task == 0
  {
    var start := CreateOne(run);
    var s := FetchOne(Run(INITIAL, start), W);
    actions := Twice(start, Work(W, Consume(1)), Work(W, Load(0)));
    ScheduleThenRaise(s, W, Run(INITIAL, start).stream.next, Row(run), at);
    actions := Then(actions, Work(W, Raise(0, Scheduled(at))));
    assert s.stream.pending[Run(INITIAL, start).stream.next].task == 0;
  }
}
