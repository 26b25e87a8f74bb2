// In the exactly-once fragment every step that does something brings the run closer to its end.
// The measure is lexicographic: first the sum over the tasks of a rank, which counts the
// executions that a task has left and, below that, how far it is from the next one; then the
// worker cycles that are still open.
module Termination {
  import opened Wrappers
  import opened Records
  import opened Sequences
  import opened ResultWriter
  import opened Ledger
  import opened RetryQueue
  import opened Streams
  import opened TaskProcessor
  import opened Protocol
  import opened Soundness
  import opened NoTaskLost
  import opened SingleReference

  // ---------------------------------------------------------------- the rank of a task

  // The executions a task still has before it.
  function Left(db: Tables, task: TaskId, place: Place): nat {
    if place.Finished? || task !in db.tasks then 0
    else
      var row := db.tasks[task];
      Max0(Max0(row.maxRetries) + 1 - row.retryCount - if place.Executed? then 1 else 0)
  }

  predicate BeingRead(sweep: SweepPhase, task: TaskId) {
    sweep.Reading? && task in sweep.ids
  }

  // How far a task is from its next execution, or from its end after the last one.
  function Stage(s: State, task: TaskId, place: Place): nat {
    match place
    case Finished => 0
    case Fetched(w, i) =>
      (match SlotIn(s.workers, w, i)
       case Some(Slot(_, Loaded(_))) => 1
       case _ => 2)
    case InStream(_) => 3
    case Moved => 4
    case Waiting => if BeingRead(s.sweep, task) then 5 else 6
    case Executed(_, _) => if BeingRead(s.sweep, task) then 7 else 8
  }

  function Rank(s: State, task: TaskId, place: Place): nat {
    16 * Left(s.db, task, place) + Stage(s, task, place)
  }

  type Ranks = map<TaskId, nat>

  function RanksOf(s: State, at: Places): Ranks {
    map task | task in at :: Rank(s, task, at[task])
  }

  // The sum of the ranks of the listed tasks.
  function Total(ranks: Ranks, ids: seq<TaskId>): nat {
    if ids == [] then 0
    else (if ids[0] in ranks then ranks[ids[0]] else 0) + Total(ranks, ids[1..])
  }

  lemma {:induction false} TotalFalls(ranks: Ranks, ranks': Ranks, ids: seq<TaskId>)
    requires ranks'.Keys == ranks.Keys && forall task | task in ranks :: ranks'[task] <= ranks[task]
    ensures Total(ranks', ids) <= Total(ranks, ids)
    ensures (exists task | task in ids :: task in ranks && ranks'[task] < ranks[task]) ==>
            Total(ranks', ids) < Total(ranks, ids)
  {
    if ids != [] {
      TotalFalls(ranks, ranks', ids[1..]);
      assert forall task | task in ids :: task == ids[0] || task in ids[1..];
    }
  }

  // ---------------------------------------------------------------- the measure

  function Busy(workers: Workers): set<WorkerId> {
    set w | w in workers && !workers[w].Idle?
  }

  function Gatherers(workers: Workers): set<WorkerId> {
    set w | w in workers && workers[w].Gathering?
  }

  function Cycles(workers: Workers): nat {
    |Busy(workers)| + |Gatherers(workers)|
  }

  // The steps that make progress: not run creation, not a deferral, not a failed ZREM, not time.
  predicate Progressing(a: Action) {
    match a
    case Work(_, Defer(_, _)) => false
    case Work(_, _) => true
    case Sweep(RemoveDue(ok)) => ok
    case Sweep(_) => true
    case _ => false
  }

  // No rank rises, and some rank falls.
  ghost predicate Falls(s: State, s': State, at: Places, at': Places) {
    && at'.Keys == at.Keys
    && (forall task | task in at :: Rank(s', task, at'[task]) <= Rank(s, task, at[task]))
    && exists task | task in at :: Rank(s', task, at'[task]) < Rank(s, task, at[task])
  }

  ghost predicate NoneRises(s: State, s': State, at: Places, at': Places) {
    at'.Keys == at.Keys && forall task | task in at :: Rank(s', task, at'[task]) <= Rank(s, task, at[task])
  }

  // ---------------------------------------------------------------- each step

  lemma FetchedRank(s: State, at: Places, w: WorkerId, count: nat, task: TaskId)
    requires HandsAt(s.workers, s.db.tasks, at) && StepConsume(s, w, count) != s && task in at
    ensures var s' := StepConsume(s, w, count);
            Rank(s', task, AfterConsume(s, at, w, count)[task]) <= Rank(s, task, at[task])
  {
    if at[task].Fetched? {
      assert HoldsOpen(SlotIn(s.workers, at[task].w, at[task].i), task);
    }
  }

  lemma FirstFetchedRank(s: State, at: Places, w: WorkerId, count: nat)
    requires QueueAt(s.stream, at) && StepConsume(s, w, count) != s
    ensures var s' := StepConsume(s, w, count);
            var first := s.stream.queue[0];
            first in at && Rank(s', first, AfterConsume(s, at, w, count)[first]) < Rank(s, first, at[first])
  {
    var s' := StepConsume(s, w, count);
    assert Sits(s.stream, at, 0);
    assert AfterConsume(s, at, w, count)[s.stream.queue[0]] == Fetched(w, 0);
    assert SlotIn(s'.workers, w, 0).value.progress == Delivered;
  }

  lemma ConsumeFalls(s: State, at: Places, w: WorkerId, count: nat)
    requires QueueAt(s.stream, at) && HandsAt(s.workers, s.db.tasks, at) && StepConsume(s, w, count) != s
    ensures Falls(s, StepConsume(s, w, count), at, AfterConsume(s, at, w, count))
  {
    FirstFetchedRank(s, at, w, count);
    forall task | task in at
      ensures Rank(StepConsume(s, w, count), task, AfterConsume(s, at, w, count)[task]) <= Rank(s, task, at[task])
    {
      FetchedRank(s, at, w, count, task);
    }
  }

  lemma OtherRanks(s: State, s': State, at: Places, at': Places, w: WorkerId, i: nat, progress: Progress, task: TaskId)
    requires HandsAt(s.workers, s.db.tasks, at) && HasSlot(s, w, i) && !Resolved(SlotAt(s, w, i))
    requires s'.workers == SetSlot(s, w, i, progress).workers && s'.db == s.db && s'.sweep == s.sweep
    requires task in at && task in at' && task != SlotAt(s, w, i).entry.task && at'[task] == at[task]
    ensures Rank(s', task, at'[task]) == Rank(s, task, at[task])
  {
    if at[task].Fetched? {
      assert HoldsOpen(SlotIn(s.workers, at[task].w, at[task].i), task);
      SlotInSet(s, w, i, progress, at[task].w, at[task].i);
    }
  }

  lemma LoadFalls(s: State, at: Places, w: WorkerId, i: nat)
    requires HandsAt(s.workers, s.db.tasks, at) && StagedAt(s.staged, s.db.tasks, at)
    requires Clean(s, Work(w, Load(i))) && StepLoad(s, w, i) != s
    ensures Falls(s, StepLoad(s, w, i), at, at)
  {
    var s' := StepLoad(s, w, i);
    var slot := SlotAt(s, w, i);
    assert SlotAtPlace(s.db.tasks, at, w, i, SlotIn(s.workers, w, i).value);
    var task := slot.entry.task;
    assert task in s.db.tasks;
    forall t | t in at && t != task ensures Rank(s', t, at[t]) == Rank(s, t, at[t]) {
      OtherRanks(s, s', at, at, w, i, Loaded(s.db.tasks[task]), t);
    }
    SlotInSet(s, w, i, Loaded(s.db.tasks[task]), w, i);
    assert Rank(s', task, at[task]) < Rank(s, task, at[task]);
  }

  lemma ExecuteFalls(s: State, at: Places, w: WorkerId, i: nat, report: Report, now: Time)
    requires HandsAt(s.workers, s.db.tasks, at) && RowsAt(s.db, at) && HasLoaded(s, w, i)
    ensures Falls(s, StepExecute(s, w, i, report, now), at, AfterProcessing(s, at, w, i, Executed(w, i)))
  {
    var s' := StepExecute(s, w, i, report, now);
    var at' := AfterProcessing(s, at, w, i, Executed(w, i));
    var slot := SlotAt(s, w, i);
    var task := slot.entry.task;
    assert SlotAtPlace(s.db.tasks, at, w, i, SlotIn(s.workers, w, i).value);
    assert RowAt(s.db, task, at[task]);
    var progress := SlotAt(s', w, i).progress;
    forall t | t in at && t != task ensures Rank(s', t, at'[t]) == Rank(s, t, at[t]) {
      OtherRanks(s, s', at, at', w, i, progress, t);
    }
    assert Rank(s', task, at'[task]) < Rank(s, task, at[task]);
  }

  // ---------------------------------------------------------------- writing and acknowledging

  lemma {:induction false} WrittenRow(s: State, at: Places, w: WorkerId, task: TaskId)
    requires HandsAt(s.workers, s.db.tasks, at) && RowsAt(s.db, at) && Sound(s.db) && SlotsOk(s) && task in at
    requires PhaseOf(s, w).Gathering? && AllResolved(PhaseOf(s, w).slots)
    ensures var tasks' := StepWrite(s, w, Replies).db.tasks;
            && tasks'.Keys == s.db.tasks.Keys
            && (!HeldBy(at[task], w) && task in s.db.tasks ==> tasks'[task] == s.db.tasks[task])
            && (HeldBy(at[task], w) ==>
                task in s.db.tasks && tasks'[task].maxRetries == s.db.tasks[task].maxRetries &&
                (WillRetry(s.workers, at[task]) ==> tasks'[task].retryCount == s.db.tasks[task].retryCount + 1))
  {
    BatchIsWritten(s, w);
    BatchMatchesPlaces(s, at, w, task);
    if task in s.db.tasks {
      LastOutcomeWins(s.db.tasks, Outcomes(PhaseOf(s, w).slots), task);
    }
  }

  lemma SettledRank(s: State, s': State, task: TaskId, place: Place, place': Place)
    requires place.Executed? && task in s.db.tasks && task in s'.db.tasks && s'.sweep == s.sweep
    requires place'.Finished? ||
             (place'.Waiting? && s'.db.tasks[task].maxRetries == s.db.tasks[task].maxRetries &&
              s'.db.tasks[task].retryCount == s.db.tasks[task].retryCount + 1)
    ensures Rank(s', task, place') <= Rank(s, task, place)
  {
  }

  lemma SameRank(s: State, s': State, task: TaskId, place: Place)
    requires s'.db.tasks.Keys == s.db.tasks.Keys && s'.sweep == s.sweep
    requires task in s.db.tasks ==> s'.db.tasks[task] == s.db.tasks[task]
    requires place.Fetched? ==> SlotIn(s'.workers, place.w, place.i) == SlotIn(s.workers, place.w, place.i)
    ensures Rank(s', task, place) == Rank(s, task, place)
  {
  }

  lemma {:induction false} WrittenRank(s: State, at: Places, w: WorkerId, task: TaskId)
    requires HandsAt(s.workers, s.db.tasks, at) && RowsAt(s.db, at) && Sound(s.db) && SlotsOk(s) && task in at
    requires PhaseOf(s, w).Gathering? && AllResolved(PhaseOf(s, w).slots)
    ensures Rank(StepWrite(s, w, Replies), task, Settle(s.workers, w, at)[task]) <= Rank(s, task, at[task])
  {
    var s' := StepWrite(s, w, Replies);
    WrittenRow(s, at, w, task);
    if HeldBy(at[task], w) {
      SettledRank(s, s', task, at[task], Settle(s.workers, w, at)[task]);
    } else {
      if at[task].Fetched? { OpenElsewhere(s, at, w, task); }
      SameRank(s, s', task, at[task]);
    }
  }

  // A worker with nothing left to process holds no fetched task.
  lemma OpenElsewhere(s: State, at: Places, w: WorkerId, task: TaskId)
    requires HandsAt(s.workers, s.db.tasks, at) && task in at && at[task].Fetched?
    requires PhaseOf(s, w).Gathering? && AllResolved(PhaseOf(s, w).slots)
    ensures at[task].w != w
    ensures SlotIn(StepWrite(s, w, Replies).workers, at[task].w, at[task].i) ==
            SlotIn(s.workers, at[task].w, at[task].i)
  {
    var held := SlotIn(s.workers, at[task].w, at[task].i);
    assert HoldsOpen(held, task) && held.value in s.workers[at[task].w].slots;
  }

  lemma CyclesFall(workers: Workers, w: WorkerId, phase: Phase)
    requires w in workers && !phase.Gathering?
    requires workers[w].Gathering? || (workers[w].Acking? && phase.Idle?)
    ensures Cycles(workers[w := phase]) < Cycles(workers)
  {
    var workers' := workers[w := phase];
    var (busy, gatherers) := (Busy(workers), Gatherers(workers));
    assert Gatherers(workers') == gatherers - {w};
    assert Busy(workers') == if phase.Idle? then busy - {w} else busy;
  }

  lemma WriteFalls(s: State, at: Places, w: WorkerId)
    requires HandsAt(s.workers, s.db.tasks, at) && RowsAt(s.db, at) && Sound(s.db) && SlotsOk(s)
    requires PhaseOf(s, w).Gathering? && AllResolved(PhaseOf(s, w).slots)
    ensures NoneRises(s, StepWrite(s, w, Replies), at, AfterWrite(s, at, w))
    ensures Cycles(StepWrite(s, w, Replies).workers) < Cycles(s.workers)
  {
    forall task | task in at
      ensures Rank(StepWrite(s, w, Replies), task, AfterWrite(s, at, w)[task]) <= Rank(s, task, at[task])
    {
      WrittenRank(s, at, w, task);
    }
    BatchIsWritten(s, w);
    CyclesFall(s.workers, w, StepWrite(s, w, Replies).workers[w]);
  }

  lemma AckFalls(s: State, at: Places, w: WorkerId)
    requires HandsAt(s.workers, s.db.tasks, at) && PhaseOf(s, w).Acking?
    ensures NoneRises(s, StepAckBatch(s, w, Replies), at, at)
    ensures Cycles(StepAckBatch(s, w, Replies).workers) < Cycles(s.workers)
  {
    var s' := StepAckBatch(s, w, Replies);
    CyclesFall(s.workers, w, Idle);
    forall task | task in at ensures Rank(s', task, at[task]) == Rank(s, task, at[task]) {
      if at[task].Fetched? {
        assert HoldsOpen(SlotIn(s.workers, at[task].w, at[task].i), task);
        assert SlotIn(s'.workers, at[task].w, at[task].i) == SlotIn(s.workers, at[task].w, at[task].i);
      }
    }
  }

  // ---------------------------------------------------------------- the retry sweeper

  lemma ReadDueFalls(s: State, at: Places, now: Time, limit: nat, ids: seq<TaskId>)
    requires RetryAt(s.retry, s.workers, at) && StepReadDue(s, now, limit, ids) != s
    ensures Falls(s, StepReadDue(s, now, limit, ids), at, at)
  {
    var s' := StepReadDue(s, now, limit, ids);
    assert ids[0] in Members(ids) && ids[0] in s.retry;
    assert Rank(s', ids[0], at[ids[0]]) < Rank(s, ids[0], at[ids[0]]);
  }

  lemma RemoveDueFalls(s: State, at: Places)
    requires s.sweep.Reading? && s.sweep.ids != []
    requires forall task | task in s.sweep.ids :: task in at && at[task].Waiting?
    ensures Falls(s, StepRemoveDue(s, true), at, Pop(at, s.sweep.ids))
  {
    var first := s.sweep.ids[0];
    assert first in s.sweep.ids;
    assert Rank(StepRemoveDue(s, true), first, Pop(at, s.sweep.ids)[first]) < Rank(s, first, at[first]);
  }

  lemma ReenqueueFalls(s: State, at: Places, now: Time, rescheduled: bool)
    requires SweepAt(s.sweep, s.retry, at) && s.sweep.Moving? && s.sweep.ids != []
    ensures Falls(s, StepReenqueue(s, Replies, now, rescheduled), at, AfterReenqueue(s, at))
  {
    var first := s.sweep.ids[0];
    assert first in s.sweep.ids;
    assert Rank(StepReenqueue(s, Replies, now, rescheduled), first, AfterReenqueue(s, at)[first]) <
           Rank(s, first, at[first]);
  }

  // ---------------------------------------------------------------- every step

  predicate Lists(ids: seq<TaskId>, at: Places) {
    forall task | task in at :: task in ids
  }

  // Each of these steps lowers the sum of the ranks, or keeps it and ends part of a cycle.
  ghost predicate Closer(s: State, s': State, at: Places, at': Places, ids: seq<TaskId>) {
    var (before, after) := (Total(RanksOf(s, at), ids), Total(RanksOf(s', at'), ids));
    after < before || (after == before && Cycles(s'.workers) < Cycles(s.workers))
  }

  lemma FallsIsCloser(s: State, s': State, at: Places, at': Places, ids: seq<TaskId>)
    requires Lists(ids, at)
    requires Falls(s, s', at, at') || (NoneRises(s, s', at, at') && Cycles(s'.workers) < Cycles(s.workers))
    ensures Closer(s, s', at, at', ids)
  {
    TotalFalls(RanksOf(s, at), RanksOf(s', at'), ids);
  }

  lemma ConsumeIsCloser(s: State, at: Places, w: WorkerId, count: nat, ids: seq<TaskId>)
    requires QueueAt(s.stream, at) && HandsAt(s.workers, s.db.tasks, at) && StepConsume(s, w, count) != s &&
             Lists(ids, at)
    ensures Closer(s, StepConsume(s, w, count), at, AfterConsume(s, at, w, count), ids)
  {
    ConsumeFalls(s, at, w, count);
    FallsIsCloser(s, StepConsume(s, w, count), at, AfterConsume(s, at, w, count), ids);
  }

  lemma LoadIsCloser(s: State, at: Places, w: WorkerId, i: nat, ids: seq<TaskId>)
    requires InPlace(s, at) && Clean(s, Work(w, Load(i))) && StepLoad(s, w, i) != s && Lists(ids, at)
    ensures Closer(s, StepLoad(s, w, i), at, at, ids)
  {
    LoadFalls(s, at, w, i);
    FallsIsCloser(s, StepLoad(s, w, i), at, at, ids);
  }

  lemma ExecuteIsCloser(s: State, at: Places, w: WorkerId, i: nat, report: Report, now: Time, ids: seq<TaskId>)
    requires InPlace(s, at) && HasLoaded(s, w, i) && Lists(ids, at)
    ensures Closer(s, StepExecute(s, w, i, report, now), at, AfterProcessing(s, at, w, i, Executed(w, i)), ids)
  {
    ExecuteFalls(s, at, w, i, report, now);
    FallsIsCloser(s, StepExecute(s, w, i, report, now), at, AfterProcessing(s, at, w, i, Executed(w, i)), ids);
  }

  lemma WriteIsCloser(s: State, at: Places, w: WorkerId, ids: seq<TaskId>)
    requires HandsAt(s.workers, s.db.tasks, at) && RowsAt(s.db, at) && Sound(s.db) && SlotsOk(s) && Lists(ids, at)
    requires PhaseOf(s, w).Gathering? && AllResolved(PhaseOf(s, w).slots)
    ensures Closer(s, StepWrite(s, w, Replies), at, AfterWrite(s, at, w), ids)
  {
    WriteFalls(s, at, w);
    FallsIsCloser(s, StepWrite(s, w, Replies), at, AfterWrite(s, at, w), ids);
  }

  lemma AckIsCloser(s: State, at: Places, w: WorkerId, ids: seq<TaskId>)
    requires HandsAt(s.workers, s.db.tasks, at) && PhaseOf(s, w).Acking? && Lists(ids, at)
    ensures Closer(s, StepAckBatch(s, w, Replies), at, at, ids)
  {
    AckFalls(s, at, w);
    FallsIsCloser(s, StepAckBatch(s, w, Replies), at, at, ids);
  }

  lemma WorkerIsCloser(s: State, at: Places, w: WorkerId, a: WorkerAction, ids: seq<TaskId>)
    requires InPlace(s, at) && Sound(s.db) && SlotsOk(s) && Lists(ids, at)
    requires Clean(s, Work(w, a)) && Progressing(Work(w, a)) && StepWorker(s, w, a) != s
    ensures Closer(s, StepWorker(s, w, a), at, PlacesAfterWork(s, at, w, a), ids)
  {
    match a
    case Consume(count) => ConsumeIsCloser(s, at, w, count, ids);
    case Load(i) => LoadIsCloser(s, at, w, i, ids);
    case Execute(i, report, now) => ExecuteIsCloser(s, at, w, i, report, now, ids);
    case Write(reply) => WriteIsCloser(s, at, w, ids);
    case AckBatch(reply) => AckIsCloser(s, at, w, ids);
  }

  lemma RemoveDueIsCloser(s: State, at: Places, ids: seq<TaskId>)
    requires InPlace(s, at) && Clean(s, Sweep(RemoveDue(true))) && Lists(ids, at)
    requires s.sweep.Reading? && s.sweep.ids != []
    ensures Closer(s, StepRemoveDue(s, true), at, AfterRemove(s, at, true), ids)
  {
    forall task | task in s.sweep.ids ensures task in at && at[task].Waiting? {
      DueIsWaiting(s, at, task);
    }
    RemoveDueFalls(s, at);
    FallsIsCloser(s, StepRemoveDue(s, true), at, AfterRemove(s, at, true), ids);
  }

  lemma ReadDueIsCloser(s: State, at: Places, now: Time, limit: nat, due: seq<TaskId>, ids: seq<TaskId>)
    requires RetryAt(s.retry, s.workers, at) && StepReadDue(s, now, limit, due) != s && Lists(ids, at)
    ensures Closer(s, StepReadDue(s, now, limit, due), at, at, ids)
  {
    ReadDueFalls(s, at, now, limit, due);
    FallsIsCloser(s, StepReadDue(s, now, limit, due), at, at, ids);
  }

  lemma ReenqueueIsCloser(s: State, at: Places, now: Time, rescheduled: bool, ids: seq<TaskId>)
    requires SweepAt(s.sweep, s.retry, at) && s.sweep.Moving? && s.sweep.ids != [] && Lists(ids, at)
    ensures Closer(s, StepReenqueue(s, Replies, now, rescheduled), at, AfterReenqueue(s, at), ids)
  {
    ReenqueueFalls(s, at, now, rescheduled);
    FallsIsCloser(s, StepReenqueue(s, Replies, now, rescheduled), at, AfterReenqueue(s, at), ids);
  }

  lemma SweeperIsCloser(s: State, at: Places, a: SweepAction, ids: seq<TaskId>)
    requires InPlace(s, at) && Clean(s, Sweep(a)) && Progressing(Sweep(a)) && Lists(ids, at) && StepSweeper(s, a) != s
    ensures Closer(s, StepSweeper(s, a), at, PlacesAfterSweep(s, at, a), ids)
  {
    match a
    case ReadDue(now, limit, due) => ReadDueIsCloser(s, at, now, limit, due, ids);
    case RemoveDue(_) => RemoveDueIsCloser(s, at, ids);
    case Reenqueue(_, now, rescheduled) => ReenqueueIsCloser(s, at, now, rescheduled, ids);
  }

  // Every step of the fragment that changes anything comes closer to the end.
  lemma EveryStepIsCloser(s: State, at: Places, a: Action, ids: seq<TaskId>)
    requires InPlace(s, at) && Wellformed(s) && Lists(ids, at)
    requires Clean(s, a) && Progressing(a) && Step(s, a) != s
    ensures InPlace(Step(s, a), PlacesAfter(s, at, a)) && Wellformed(Step(s, a))
    ensures Closer(s, Step(s, a), at, PlacesAfter(s, at, a), ids)
  {
    StepKeepsWellformed(s, a);
    var at' := StepStaysInPlace(s, at, a);
    match a
    case Work(w, working) => WorkerIsCloser(s, at, w, working, ids);
    case Sweep(sweeping) => SweeperIsCloser(s, at, sweeping, ids);
  }

  // ---------------------------------------------------------------- executions left

  predicate LeftNeverRises(db: Tables, db': Tables, at: Places, at': Places) {
    at'.Keys == at.Keys && forall task | task in at :: Left(db', task, at'[task]) <= Left(db, task, at[task])
  }

  lemma WrittenLeft(s: State, at: Places, w: WorkerId, task: TaskId)
    requires HandsAt(s.workers, s.db.tasks, at) && RowsAt(s.db, at) && Sound(s.db) && SlotsOk(s) && task in at
    requires PhaseOf(s, w).Gathering? && AllResolved(PhaseOf(s, w).slots)
    ensures Left(StepWrite(s, w, Replies).db, task, Settle(s.workers, w, at)[task]) <= Left(s.db, task, at[task])
  {
    WrittenRow(s, at, w, task);
  }

  lemma WriteLeavesLeft(s: State, at: Places, w: WorkerId)
    requires HandsAt(s.workers, s.db.tasks, at) && RowsAt(s.db, at) && Sound(s.db) && SlotsOk(s)
    ensures LeftNeverRises(s.db, StepWrite(s, w, Replies).db, at, AfterWrite(s, at, w))
  {
    if PhaseOf(s, w).Gathering? && AllResolved(PhaseOf(s, w).slots) {
      forall task | task in at
        ensures Left(StepWrite(s, w, Replies).db, task, AfterWrite(s, at, w)[task]) <= Left(s.db, task, at[task])
      {
        WrittenLeft(s, at, w, task);
      }
    }
  }

  lemma ProcessingLeavesLeft(s: State, at: Places, w: WorkerId, i: nat, place: Place)
    requires HandsAt(s.workers, s.db.tasks, at) && RowsAt(s.db, at) && (place.Executed? || place.Waiting?)
    ensures LeftNeverRises(s.db, s.db, at, AfterProcessing(s, at, w, i, place))
    ensures HasLoaded(s, w, i) && place.Executed? ==>
              var task := SlotAt(s, w, i).entry.task;
              task in at && Left(s.db, task, place) < Left(s.db, task, at[task])
  {
    if HasLoaded(s, w, i) {
      assert SlotAtPlace(s.db.tasks, at, w, i, SlotIn(s.workers, w, i).value);
      assert RowAt(s.db, SlotAt(s, w, i).entry.task, Fetched(w, i));
    }
  }

  lemma WorkLeavesLeft(s: State, at: Places, w: WorkerId, a: WorkerAction)
    requires HandsAt(s.workers, s.db.tasks, at) && RowsAt(s.db, at) && Sound(s.db) && SlotsOk(s)
    requires a.Write? ==> a.reply.Replies?
    ensures LeftNeverRises(s.db, StepWorker(s, w, a).db, at, PlacesAfterWork(s, at, w, a))
  {
    if a.Write? {
      WriteLeavesLeft(s, at, w);
    } else {
      OtherWorkLeavesTables(s, w, a);
      LeftInHand(s, s.db, at, w, a);
    }
  }

  lemma LeftInHand(s: State, db: Tables, at: Places, w: WorkerId, a: WorkerAction)
    requires HandsAt(s.workers, s.db.tasks, at) && RowsAt(s.db, at) && !a.Write? && db == s.db
    ensures LeftNeverRises(db, db, at, PlacesAfterWork(s, at, w, a))
  {
    match a
    case Execute(i, _, _) => ProcessingLeavesLeft(s, at, w, i, Executed(w, i));
    case Defer(i, _) => ProcessingLeavesLeft(s, at, w, i, Waiting);
    case _ =>
  }

  lemma RemoveLeavesLeft(s: State, at: Places, ok: bool)
    requires HandsAt(s.workers, s.db.tasks, at) && RetryAt(s.retry, s.workers, at) && SweepAt(s.sweep, s.retry, at)
    requires Clean(s, Sweep(RemoveDue(ok)))
    ensures LeftNeverRises(s.db, s.db, at, AfterRemove(s, at, ok))
  {
    if s.sweep.Reading? && ok {
      forall task | task in s.sweep.ids ensures task in at && at[task].Waiting? {
        DueIsWaiting(s, at, task);
      }
    }
  }

  lemma ReenqueueLeavesLeft(s: State, at: Places)
    requires SweepAt(s.sweep, s.retry, at)
    ensures LeftNeverRises(s.db, s.db, at, AfterReenqueue(s, at))
  {
    if s.sweep.Moving? && s.sweep.ids != [] {
      assert s.sweep.ids[0] in s.sweep.ids;
    }
  }

  lemma SweepLeavesLeft(s: State, at: Places, a: SweepAction)
    requires HandsAt(s.workers, s.db.tasks, at) && RetryAt(s.retry, s.workers, at) && SweepAt(s.sweep, s.retry, at)
    requires Clean(s, Sweep(a))
    ensures StepSweeper(s, a).db == s.db && LeftNeverRises(s.db, s.db, at, PlacesAfterSweep(s, at, a))
  {
    SweeperFrame(s, a);
    match a
    case ReadDue(_, _, _) =>
    case RemoveDue(ok) => RemoveLeavesLeft(s, at, ok);
    case Reenqueue(_, _, _) => ReenqueueLeavesLeft(s, at);
  }

  lemma WorkKeepsKeys(s: State, at: Places, w: WorkerId, a: WorkerAction)
    requires HandsAt(s.workers, s.db.tasks, at)
    ensures PlacesAfterWork(s, at, w, a).Keys == at.Keys
  {
    if (a.Execute? || a.Defer?) && HasLoaded(s, w, a.i) {
      assert SlotAtPlace(s.db.tasks, at, w, a.i, SlotIn(s.workers, w, a.i).value);
    }
  }

  lemma SameKeys(s: State, at: Places, a: Action)
    requires HandsAt(s.workers, s.db.tasks, at) && RetryAt(s.retry, s.workers, at) && SweepAt(s.sweep, s.retry, at)
    requires Clean(s, a) && !a.Create?
    ensures PlacesAfter(s, at, a).Keys == at.Keys
  {
    match a
    case Work(w, working) => WorkKeepsKeys(s, at, w, working);
    case Sweep(sweeping) => SweepLeavesLeft(s, at, sweeping);
    case Tick(_) =>
  }

  // ---------------------------------------------------------------- the executions of one task, over whole runs

  predicate ExecutesTask(s: State, a: Action, task: TaskId) {
    match a
    case Work(w, Execute(i, _, _)) => HasLoaded(s, w, i) && SlotAt(s, w, i).entry.task == task
    case _ => false
  }

  // How often a run executes a task.
  function ExecutionsOf(actions: seq<Action>, task: TaskId): nat {
    if actions == [] then 0
    else
      var front := actions[..|actions| - 1];
      ExecutionsOf(front, task) + if ExecutesTask(Run(INITIAL, front), actions[|actions| - 1], task) then 1 else 0
  }

  // The executions a task has before it is processed at all.
  function Allowance(db: Tables, task: TaskId): nat
    requires task in db.tasks
  {
    Max0(db.tasks[task].maxRetries) + 1
  }

  function LeftOrNone(db: Tables, at: Places, task: TaskId): nat {
    if task in db.tasks && task in at then Left(db, task, at[task]) else 0
  }

  // What an action does to a task that is committed: it has one execution less to go, if it is
  // executed, and never more.
  lemma WorkSpendsTask(s: State, at: Places, w: WorkerId, a: WorkerAction, task: TaskId)
    requires HandsAt(s.workers, s.db.tasks, at) && RowsAt(s.db, at) && Sound(s.db) && SlotsOk(s)
    requires (a.Write? ==> a.reply.Replies?) && task in at
    ensures var (db', at') := (StepWorker(s, w, a).db, PlacesAfterWork(s, at, w, a));
            task in at' &&
            Left(db', task, at'[task]) + (if ExecutesTask(s, Work(w, a), task) then 1 else 0) <=
            Left(s.db, task, at[task])
  {
    WorkLeavesLeft(s, at, w, a);
    if ExecutesTask(s, Work(w, a), task) {
      OtherWorkLeavesTables(s, w, a);
      ProcessingLeavesLeft(s, at, w, a.i, Executed(w, a.i));
    }
  }

  lemma CreateLeavesLeft(s: State, at: Places, run: RunId, a: CreatorAction, task: TaskId)
    requires Staging(s) && StagedAt(s.staged, s.db.tasks, at) && task in s.db.tasks && task in at
    ensures var (db', at') := (StepCreator(s, run, a).db, PlacesAfter(s, at, Create(run, a)));
            task in db'.tasks && task in at' && db'.tasks[task] == s.db.tasks[task] && at'[task] == at[task]
  {
    CreatorsCommit(s, run, a);
    if run in s.staged {
      assert CreationOk(s, run);
      NewRowsFresh(s, run);
    }
    if CanEnqueue(s, run) { EnqueuedTask(s, at, run); }
  }

  lemma StepKeepsAllowance(s: State, a: Action, task: TaskId)
    requires Wellformed(s) && task in s.db.tasks
    ensures task in Step(s, a).db.tasks && Allowance(Step(s, a).db, task) == Allowance(s.db, task)
  {
    StepKeepsWellformed(s, a);
  }

  lemma StepSpendsTask(s: State, at: Places, a: Action, task: TaskId)
    requires InPlace(s, at) && Wellformed(s) && Clean(s, a) && task in s.db.tasks && task in at
    ensures var (db', at') := (Step(s, a).db, PlacesAfter(s, at, a));
            LeftOrNone(db', at', task) + (if ExecutesTask(s, a, task) then 1 else 0) <= LeftOrNone(s.db, at, task)
  {
    match a
    case Create(run, creating) => CreateLeavesTask(s, at, run, creating, task);
    case Work(w, working) => WorkLeavesTask(s, at, w, working, task);
    case Sweep(sweeping) => SweepLeavesTask(s, at, sweeping, task);
    case Tick(_) =>
  }

  lemma CreateLeavesTask(s: State, at: Places, run: RunId, a: CreatorAction, task: TaskId)
    requires Staging(s) && StagedAt(s.staged, s.db.tasks, at) && task in s.db.tasks && task in at
    ensures LeftOrNone(StepCreator(s, run, a).db, PlacesAfter(s, at, Create(run, a)), task) ==
            LeftOrNone(s.db, at, task)
  {
    CreateLeavesLeft(s, at, run, a, task);
  }

  lemma WorkLeavesTask(s: State, at: Places, w: WorkerId, a: WorkerAction, task: TaskId)
    requires HandsAt(s.workers, s.db.tasks, at) && RowsAt(s.db, at) && Sound(s.db) && SlotsOk(s)
    requires Clean(s, Work(w, a)) && task in s.db.tasks && task in at
    ensures LeftOrNone(StepWorker(s, w, a).db, PlacesAfterWork(s, at, w, a), task) +
            (if ExecutesTask(s, Work(w, a), task) then 1 else 0) <= LeftOrNone(s.db, at, task)
  {
    WorkSpendsTask(s, at, w, a, task);
  }

  lemma SweepLeavesTask(s: State, at: Places, a: SweepAction, task: TaskId)
    requires HandsAt(s.workers, s.db.tasks, at) && RetryAt(s.retry, s.workers, at) && SweepAt(s.sweep, s.retry, at)
    requires Clean(s, Sweep(a)) && task in s.db.tasks && task in at
    ensures LeftOrNone(StepSweeper(s, a).db, PlacesAfterSweep(s, at, a), task) <= LeftOrNone(s.db, at, task)
  {
    SweepLeavesLeft(s, at, a);
  }

  lemma ExecutedIsCommitted(s: State, at: Places, a: Action, task: TaskId)
    requires HandsAt(s.workers, s.db.tasks, at)
    ensures ExecutesTask(s, a, task) ==> task in s.db.tasks
  {
    if ExecutesTask(s, a, task) {
      assert SlotAtPlace(s.db.tasks, at, a.w, a.working.i, SlotIn(s.workers, a.w, a.working.i).value);
    }
  }

  lemma LeftIsAllowed(db: Tables, at: Places, task: TaskId)
    requires task in db.tasks
    ensures LeftOrNone(db, at, task) <= Allowance(db, task)
  {
  }

  lemma {:induction false} TaskSpends(actions: seq<Action>, task: TaskId) returns (at: Places)
    requires CleanRun(actions)
    ensures InPlace(Run(INITIAL, actions), at) && Wellformed(Run(INITIAL, actions))
    ensures var db := Run(INITIAL, actions).db;
            if task in db.tasks then ExecutionsOf(actions, task) + LeftOrNone(db, at, task) <= Allowance(db, task)
            else ExecutionsOf(actions, task) == 0
    decreases |actions|
  {
    RunsAreWellformed(actions);
    at := map[];
    if actions != [] {
      var (front, last) := (actions[..|actions| - 1], actions[|actions| - 1]);
      at := TaskSpends(front, task);
      var s := Run(INITIAL, front);
      var at' := StepStaysInPlace(s, at, last);
      if task in s.db.tasks {
        assert RowAt(s.db, task, at[task]);
        StepKeepsAllowance(s, last, task);
        StepSpendsTask(s, at, last, task);
      } else {
        ExecutedIsCommitted(s, at, last, task);
        if task in Step(s, last).db.tasks { LeftIsAllowed(Step(s, last).db, at', task); }
      }
      at := at';
    }
  }

  // In every clean run, with runs being created at any time, a task is executed at most once more
  // than its retries allow.
  lemma TaskExecutionsAreBounded(actions: seq<Action>, task: TaskId)
    requires CleanRun(actions) && task in Run(INITIAL, actions).db.tasks
    ensures ExecutionsOf(actions, task) <= Max0(Run(INITIAL, actions).db.tasks[task].maxRetries) + 1
  {
    var at := TaskSpends(actions, task);
  }

  function ExecutionsOfAll(actions: seq<Action>, ids: seq<TaskId>): nat {
    if ids == [] then 0 else ExecutionsOf(actions, ids[0]) + ExecutionsOfAll(actions, ids[1..])
  }

  function Allowances(db: Tables, ids: seq<TaskId>): nat
    requires forall task | task in ids :: task in db.tasks
  {
    if ids == [] then 0 else Allowance(db, ids[0]) + Allowances(db, ids[1..])
  }

  // So the tasks of a run, or any others, are executed at most as often as the sum of their
  // max_retries + 1.
  lemma {:induction false} AllExecutionsAreBounded(actions: seq<Action>, ids: seq<TaskId>)
    requires CleanRun(actions) && forall task | task in ids :: task in Run(INITIAL, actions).db.tasks
    ensures ExecutionsOfAll(actions, ids) <= Allowances(Run(INITIAL, actions).db, ids)
    decreases |ids|
  {
    if ids != [] {
      TaskExecutionsAreBounded(actions, ids[0]);
      AllExecutionsAreBounded(actions, ids[1..]);
    }
  }
}
