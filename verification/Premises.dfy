// The premises of NoTaskLost are exact: a step that breaks one loses a task.
module Premises {
  import opened Wrappers
  import opened Records
  import opened Sequences
  import opened ResultWriter
  import opened Ledger
  import opened RetryQueue
  import opened Streams
  import opened TaskProcessor
  import opened Protocol
  import opened Soundness
  import opened NoTaskLost
  import opened SingleReference

  // Where each open task has one reference, a step that breaks a premise loses a task there and
  // then, or makes a worker about to acknowledge one away.

  // ---------------------------------------------------------------- pending entries have one holder

  // Entry `id` is the one that keeps a task of this place from being lost.
  predicate StandsFor(workers: Workers, place: Place, id: EntryId) {
    && (place.Fetched? || (place.Executed? && !WillRetry(workers, place)))
    && SlotIn(workers, place.w, place.i).Some?
    && SlotIn(workers, place.w, place.i).value.entry.id == id
  }

  predicate PendingAt(stream: Stream, covered: set<EntryId>, workers: Workers, at: Places) {
    forall id | id in stream.pending && id !in covered ::
      stream.pending[id].task in at &&
      (at[stream.pending[id].task].Finished? || StandsFor(workers, at[stream.pending[id].task], id))
  }

  predicate Holds(stream: Stream, covered: set<EntryId>, entry: StreamEntry) {
    entry.id in stream.pending && entry.id !in covered && stream.pending[entry.id].task == entry.task
  }

  predicate Unresolved(slot: Option<Slot>) {
    slot.Some? && !Resolved(slot.value)
  }

  ghost predicate HeldAt(stream: Stream, covered: set<EntryId>, workers: Workers) {
    forall w, i: nat :: Unresolved(SlotIn(workers, w, i)) ==> Holds(stream, covered, SlotIn(workers, w, i).value.entry)
  }

  ghost predicate Accounted(s: State, at: Places) {
    PendingAt(s.stream, s.covered, s.workers, at) && HeldAt(s.stream, s.covered, s.workers)
  }

  // ---------------------------------------------------------------- every clean step keeps that

  lemma OthersKeepAccounts(s: State, s': State, at: Places, at': Places)
    requires Accounted(s, at)
    requires s'.stream.pending == s.stream.pending && s'.covered == s.covered && s'.workers == s.workers
    requires forall task | task in at ::
               task in at' &&
               (at[task].Finished? || at[task].Fetched? || at[task].Executed? ==> at'[task] == at[task])
    ensures Accounted(s', at')
  {
    forall w, i: nat | Unresolved(SlotIn(s'.workers, w, i))
      ensures Holds(s'.stream, s'.covered, SlotIn(s'.workers, w, i).value.entry)
    {
      assert Holds(s.stream, s.covered, SlotIn(s.workers, w, i).value.entry);
    }
  }

  lemma ConsumeKeepsPending(s: State, at: Places, w: WorkerId, count: nat)
    requires QueueAt(s.stream, at) && HandsAt(s.workers, s.db.tasks, at) && Accounted(s, at)
    requires StepConsume(s, w, count) != s
    ensures var s' := StepConsume(s, w, count);
            PendingAt(s'.stream, s'.covered, s'.workers, AfterConsume(s, at, w, count))
  {
    var (s', at') := (StepConsume(s, w, count), AfterConsume(s, at, w, count));
    forall id | id in s'.stream.pending && id !in s'.covered
      ensures var task := s'.stream.pending[id].task;
              task in at' && (at'[task].Finished? || StandsFor(s'.workers, at'[task], id))
    {
      var n := s.stream.Batch(count);
      var task := s'.stream.pending[id].task;
      if s.stream.next <= id < s.stream.next + n {
        assert Sits(s.stream, at, id - s.stream.next);
      } else {
        assert task in at && (at[task].Finished? || StandsFor(s.workers, at[task], id));
      }
    }
  }

  lemma ConsumeKeepsHeld(s: State, w: WorkerId, count: nat)
    requires HeldAt(s.stream, s.covered, s.workers) && IdsOk(s) && StepConsume(s, w, count) != s
    ensures var s' := StepConsume(s, w, count); HeldAt(s'.stream, s'.covered, s'.workers)
  {
    var s' := StepConsume(s, w, count);
    forall u, i: nat | Unresolved(SlotIn(s'.workers, u, i))
      ensures Holds(s'.stream, s'.covered, SlotIn(s'.workers, u, i).value.entry)
    {
      if u == w {
        assert SlotIn(s'.workers, u, i).value == Slot(StreamEntry(s.stream.next + i, s.stream.queue[i]), Delivered);
      } else {
        assert Holds(s.stream, s.covered, SlotIn(s.workers, u, i).value.entry);
      }
    }
  }

  // A slot's entry is the only uncovered one of its task.
  lemma OneEntry(s: State, at: Places, w: WorkerId, i: nat, id: EntryId)
    requires HandsAt(s.workers, s.db.tasks, at) && Accounted(s, at)
    requires HasSlot(s, w, i) && !Resolved(SlotAt(s, w, i))
    requires id in s.stream.pending && id !in s.covered
    ensures s.stream.pending[id].task == SlotAt(s, w, i).entry.task <==> id == SlotAt(s, w, i).entry.id
  {
    assert SlotAtPlace(s.db.tasks, at, w, i, SlotIn(s.workers, w, i).value);
    assert Holds(s.stream, s.covered, SlotIn(s.workers, w, i).value.entry);
  }

  lemma LoadKeepsAccounts(s: State, at: Places, w: WorkerId, i: nat)
    requires HandsAt(s.workers, s.db.tasks, at) && Accounted(s, at)
    ensures Accounted(StepLoad(s, w, i), at)
  {
    var s' := StepLoad(s, w, i);
    if s' != s {
      var progress := SlotAt(s', w, i).progress;
      forall u, j: nat ensures SlotIn(s'.workers, u, j) ==
                               if u == w && j == i then Some(SlotAt(s, w, i).(progress := progress))
                               else SlotIn(s.workers, u, j)
      {
        SlotInSet(s, w, i, progress, u, j);
      }
      OtherRetries(s, at, w, i, progress);
      forall u, j: nat | Unresolved(SlotIn(s'.workers, u, j))
        ensures Holds(s'.stream, s'.covered, SlotIn(s'.workers, u, j).value.entry)
      {
        assert Holds(s.stream, s.covered, SlotIn(s.workers, u, j).value.entry);
      }
    }
  }

  // An attempt that is executed or deferred keeps its entry uncovered or schedules a retry.
  lemma ProcessingKeepsPending(s: State, at: Places, w: WorkerId, i: nat, s': State, progress: Progress, place: Place)
    requires HandsAt(s.workers, s.db.tasks, at) && Accounted(s, at) && HasLoaded(s, w, i)
    requires s'.stream == s.stream && s'.workers == SetSlot(s, w, i, progress).workers
    requires place.Waiting? || place == Executed(w, i)
    requires s'.covered == if place.Waiting? || WillRetry(s'.workers, place) then s.covered + {SlotAt(s, w, i).entry.id}
                           else s.covered
    ensures PendingAt(s'.stream, s'.covered, s'.workers, at[SlotAt(s, w, i).entry.task := place])
  {
    var (entry, at') := (SlotAt(s, w, i).entry, at[SlotAt(s, w, i).entry.task := place]);
    OtherRetries(s, at, w, i, progress);
    forall id | id in s'.stream.pending && id !in s'.covered
      ensures var task := s'.stream.pending[id].task;
              task in at' && (at'[task].Finished? || StandsFor(s'.workers, at'[task], id))
    {
      var task := s'.stream.pending[id].task;
      OneEntry(s, at, w, i, id);
      assert at[task].Finished? || StandsFor(s.workers, at[task], id);
      if !at'[task].Finished? { SlotInSet(s, w, i, progress, at'[task].w, at'[task].i); }
    }
  }

  lemma ProcessingKeepsHeld(s: State, at: Places, w: WorkerId, i: nat, s': State, progress: Progress)
    requires HandsAt(s.workers, s.db.tasks, at) && Accounted(s, at) && HasLoaded(s, w, i) && progress.Done?
    requires s'.stream == s.stream && s'.workers == SetSlot(s, w, i, progress).workers
    requires s'.covered <= s.covered + {SlotAt(s, w, i).entry.id}
    ensures HeldAt(s'.stream, s'.covered, s'.workers)
  {
    forall u, j: nat | Unresolved(SlotIn(s'.workers, u, j))
      ensures Holds(s'.stream, s'.covered, SlotIn(s'.workers, u, j).value.entry)
    {
      SlotInSet(s, w, i, progress, u, j);
      assert Holds(s.stream, s.covered, SlotIn(s.workers, u, j).value.entry);
      assert SlotAtPlace(s.db.tasks, at, u, j, SlotIn(s.workers, u, j).value);
      OneEntry(s, at, w, i, SlotIn(s.workers, u, j).value.entry.id);
      assert SlotAtPlace(s.db.tasks, at, w, i, SlotIn(s.workers, w, i).value);
    }
  }

  lemma ExecuteKeepsAccounts(s: State, at: Places, w: WorkerId, i: nat, report: Report, now: Time)
    requires HandsAt(s.workers, s.db.tasks, at) && Accounted(s, at)
    ensures Accounted(StepExecute(s, w, i, report, now), AfterProcessing(s, at, w, i, Executed(w, i)))
  {
    if HasLoaded(s, w, i) {
      var s' := StepExecute(s, w, i, report, now);
      var progress := Done(Some(Conclude(SlotAt(s, w, i).entry.task, SlotAt(s, w, i).progress.row, w, report, now)));
      assert s'.workers == SetSlot(s, w, i, progress).workers;
      SlotInSet(s, w, i, progress, w, i);
      ProcessingKeepsPending(s, at, w, i, s', progress, Executed(w, i));
      ProcessingKeepsHeld(s, at, w, i, s', progress);
    }
  }

  lemma DeferKeepsAccounts(s: State, at: Places, w: WorkerId, i: nat, now: Time)
    requires HandsAt(s.workers, s.db.tasks, at) && Accounted(s, at)
    ensures Accounted(StepDefer(s, w, i, now), AfterProcessing(s, at, w, i, Waiting))
  {
    if HasLoaded(s, w, i) {
      ProcessingKeepsPending(s, at, w, i, StepDefer(s, w, i, now), Done(None), Waiting);
      ProcessingKeepsHeld(s, at, w, i, StepDefer(s, w, i, now), Done(None));
    }
  }

  lemma WriteKeepsAccounts(s: State, at: Places, w: WorkerId)
    requires HandsAt(s.workers, s.db.tasks, at) && Accounted(s, at) && Sound(s.db) && SlotsOk(s)
    ensures Accounted(StepWrite(s, w, Replies), AfterWrite(s, at, w))
  {
    var (s', at') := (StepWrite(s, w, Replies), AfterWrite(s, at, w));
    if PhaseOf(s, w).Gathering? && AllResolved(PhaseOf(s, w).slots) {
      BatchIsWritten(s, w);
      forall u, j: nat ensures SlotIn(s'.workers, u, j) == if u == w then None else SlotIn(s.workers, u, j) { }
      forall id | id in s'.stream.pending && id !in s'.covered
        ensures var task := s'.stream.pending[id].task;
                task in at' && (at'[task].Finished? || StandsFor(s'.workers, at'[task], id))
      {
        var task := s.stream.pending[id].task;
        assert at[task].Finished? || StandsFor(s.workers, at[task], id);
        if at[task].Fetched? { assert HoldsOpen(SlotIn(s.workers, at[task].w, at[task].i), task); }
      }
      forall u, j: nat | Unresolved(SlotIn(s'.workers, u, j))
        ensures Holds(s'.stream, s'.covered, SlotIn(s'.workers, u, j).value.entry)
      {
        assert Holds(s.stream, s.covered, SlotIn(s.workers, u, j).value.entry);
      }
    }
  }

  // What a worker acknowledges is none of the entries that are still being worked on.
  lemma OpenIsNotAcked(s: State, at: Places, e: StreamEntry, u: WorkerId, j: nat)
    requires HandsAt(s.workers, s.db.tasks, at) && RowsAt(s.db, at) && StagedAt(s.staged, s.db.tasks, at)
    requires LogsOk(s.db) && Paired(s.db) && HeldAt(s.stream, s.covered, s.workers)
    requires EntryOk(s, e) && (Settled(s, e) || Ended(s.db, e.task)) && Unresolved(SlotIn(s.workers, u, j))
    ensures e.id != SlotIn(s.workers, u, j).value.entry.id
  {
    var entry := SlotIn(s.workers, u, j).value.entry;
    assert SlotAtPlace(s.db.tasks, at, u, j, SlotIn(s.workers, u, j).value);
    assert Holds(s.stream, s.covered, entry);
    OpenHasNotEnded(s, at, entry.task);
  }

  lemma OpenHasNotEnded(s: State, at: Places, task: TaskId)
    requires RowsAt(s.db, at) && LogsOk(s.db) && Paired(s.db) && (task in at ==> !at[task].Finished?)
    ensures !Ended(s.db, task)
  {
    if task in s.db.tasks {
      assert RowAt(s.db, task, at[task]);
    } else {
      NoHistory(s.db, task, |s.db.logs|);
      assert s.db.logs[..|s.db.logs|] == s.db.logs;
    }
  }

  lemma AckKeepsAccounts(s: State, at: Places, w: WorkerId)
    requires InPlace(s, at) && Accounted(s, at) && LogsOk(s.db) && Paired(s.db) && HandsOk(s)
    ensures Accounted(StepAckBatch(s, w, Replies), at)
  {
    var s' := StepAckBatch(s, w, Replies);
    if PhaseOf(s, w).Acking? {
      forall u, j: nat ensures SlotIn(s'.workers, u, j) == SlotIn(s.workers, u, j) { }
      assert PhaseOk(s, s.workers[w]);
      forall u, j: nat | Unresolved(SlotIn(s'.workers, u, j))
        ensures Holds(s'.stream, s'.covered, SlotIn(s'.workers, u, j).value.entry)
      {
        var entry := SlotIn(s.workers, u, j).value.entry;
        assert Holds(s.stream, s.covered, entry);
        forall e | e in PhaseOf(s, w).entries ensures e.id != entry.id {
          OpenIsNotAcked(s, at, e, u, j);
        }
      }
    }
  }

  lemma WorkKeepsAccounts(s: State, at: Places, w: WorkerId, a: WorkerAction)
    requires InPlace(s, at) && Wellformed(s) && Kept(s) && Accounted(s, at) && Clean(s, Work(w, a))
    ensures Accounted(StepWorker(s, w, a), PlacesAfterWork(s, at, w, a))
  {
    match a
    case Consume(count) =>
      if StepConsume(s, w, count) != s {
        ConsumeKeepsPending(s, at, w, count);
        ConsumeKeepsHeld(s, w, count);
      }
    case Load(i) => LoadKeepsAccounts(s, at, w, i);
    case Execute(i, report, now) => ExecuteKeepsAccounts(s, at, w, i, report, now);
    case Defer(i, now) => DeferKeepsAccounts(s, at, w, i, now);
    case Write(_) => WriteKeepsAccounts(s, at, w);
    case AckBatch(_) => AckKeepsAccounts(s, at, w);
  }

  lemma EnqueueKeepsAccounts(s: State, at: Places, run: RunId)
    requires StagedAt(s.staged, s.db.tasks, at) && Staging(s) && Accounted(s, at)
    ensures Accounted(StepEnqueueStaged(s, run, Replies), AfterEnqueue(s, at, run))
  {
    if CanEnqueue(s, run) { EnqueuedTask(s, at, run); }
    OthersKeepAccounts(s, StepEnqueueStaged(s, run, Replies), at, AfterEnqueue(s, at, run));
  }

  lemma CreatorKeepsAccounts(s: State, at: Places, run: RunId, a: CreatorAction)
    requires InPlace(s, at) && Staging(s) && Accounted(s, at) && Clean(s, Create(run, a))
    ensures Accounted(StepCreator(s, run, a), PlacesAfter(s, at, Create(run, a)))
  {
    CreatorFrame(s, run, a);
    if a.EnqueueStaged? {
      EnqueueKeepsAccounts(s, at, run);
    } else {
      OthersKeepAccounts(s, StepCreator(s, run, a), at, at);
    }
  }

  lemma RemoveKeepsAccounts(s: State, at: Places, ok: bool)
    requires HandsAt(s.workers, s.db.tasks, at) && RetryAt(s.retry, s.workers, at) && SweepAt(s.sweep, s.retry, at)
    requires Accounted(s, at) && Clean(s, Sweep(RemoveDue(ok)))
    ensures Accounted(StepRemoveDue(s, ok), AfterRemove(s, at, ok))
  {
    if s.sweep.Reading? && ok {
      forall task | task in s.sweep.ids ensures task in at && at[task].Waiting? {
        DueIsWaiting(s, at, task);
      }
    }
    OthersKeepAccounts(s, StepRemoveDue(s, ok), at, AfterRemove(s, at, ok));
  }

  lemma ReenqueueKeepsAccounts(s: State, at: Places, now: Time, rescheduled: bool)
    requires SweepAt(s.sweep, s.retry, at) && Accounted(s, at)
    ensures Accounted(StepReenqueue(s, Replies, now, rescheduled), AfterReenqueue(s, at))
  {
    if HoldsPopped(s) {
      assert s.sweep.ids[0] in s.sweep.ids;
    }
    OthersKeepAccounts(s, StepReenqueue(s, Replies, now, rescheduled), at, AfterReenqueue(s, at));
  }

  lemma SweeperKeepsAccounts(s: State, at: Places, a: SweepAction)
    requires InPlace(s, at) && Accounted(s, at) && Clean(s, Sweep(a))
    ensures Accounted(StepSweeper(s, a), PlacesAfterSweep(s, at, a))
  {
    match a
    case ReadDue(now, limit, ids) => OthersKeepAccounts(s, StepReadDue(s, now, limit, ids), at, at);
    case RemoveDue(ok) => RemoveKeepsAccounts(s, at, ok);
    case Reenqueue(reply, now, rescheduled) => ReenqueueKeepsAccounts(s, at, now, rescheduled);
  }

  lemma StepKeepsAccounts(s: State, at: Places, a: Action)
    requires InPlace(s, at) && Wellformed(s) && Kept(s) && Accounted(s, at) && Clean(s, a)
    ensures Accounted(Step(s, a), PlacesAfter(s, at, a))
  {
    match a
    case Create(run, creating) => CreatorKeepsAccounts(s, at, run, creating);
    case Work(w, working) => WorkKeepsAccounts(s, at, w, working);
    case Sweep(sweeping) => SweeperKeepsAccounts(s, at, sweeping);
    case Tick(_) => OthersKeepAccounts(s, Step(s, a), at, at);
  }

  lemma CleanIsSafe(s: State, a: Action)
    requires Clean(s, a)
    ensures Safe(s, a)
  {
  }

  lemma {:induction false} CleanRunsAreAccounted(actions: seq<Action>) returns (at: Places)
    requires CleanRun(actions)
    ensures SafeRun(actions)
    ensures var s := Run(INITIAL, actions); InPlace(s, at) && Wellformed(s) && Kept(s) && Accounted(s, at)
    decreases |actions|
  {
    RunsAreWellformed(actions);
    at := map[];
    if actions != [] {
      var (front, a) := (actions[..|actions| - 1], actions[|actions| - 1]);
      at := CleanRunsAreAccounted(front);
      var s := Run(INITIAL, front);
      CleanIsSafe(s, a);
      StepKeepsTasks(s, a);
      StepKeepsAccounts(s, at, a);
      at := StepStaysInPlace(s, at, a);
    }
  }

  // ---------------------------------------------------------------- breaking a premise loses a task

  // Neither the stream nor the retry set nor a worker refers to the task, and it has not ended.
  predicate Nowhere(s: State, task: TaskId) {
    task !in s.stream.queue && !InHand(s, task) && task !in s.retry && !Ended(s.db, task)
  }

  // A task that only the sweeper holds, or none of whose entries exist yet, has no other reference.
  lemma NowhereElse(s: State, at: Places, task: TaskId)
    requires QueueAt(s.stream, at) && RetryAt(s.retry, s.workers, at) && RowsAt(s.db, at)
    requires PendingAt(s.stream, s.covered, s.workers, at) && LogsOk(s.db) && Paired(s.db)
    requires task in at ==> at[task].Moved?
    ensures Nowhere(s, task) && (task in at ==> task in s.db.tasks)
  {
    forall k | 0 <= k < |s.stream.queue| ensures s.stream.queue[k] != task {
      assert Sits(s.stream, at, k);
    }
    OpenHasNotEnded(s, at, task);
  }

  lemma LostNow(s: State, s': State, task: TaskId)
    requires Nowhere(s, task) && Known(s', task) && task !in s'.stream.queue && !InSweep(s', task)
    requires s'.db == s.db && s'.stream.pending == s.stream.pending && s'.covered == s.covered && s'.retry == s.retry
    ensures !NothingLost(s')
  {
    assert !InHand(s', task) by {
      if id :| id in s'.stream.pending && s'.stream.pending[id].task == task && id !in s'.covered {
        assert InHand(s, task);
      }
    }
  }

  lemma UnsafeReenqueueLoses(s: State, at: Places, reply: Reply, now: Time, rescheduled: bool)
    requires InPlace(s, at) && Accounted(s, at) && LogsOk(s.db) && Paired(s.db)
    requires !Safe(s, Sweep(Reenqueue(reply, now, rescheduled)))
    ensures !NothingLost(StepReenqueue(s, reply, now, rescheduled))
  {
    var lost := if Took(reply) then s.sweep.ids[1] else s.sweep.ids[0];
    assert lost in s.sweep.ids;
    NowhereElse(s, at, lost);
    LostNow(s, StepReenqueue(s, reply, now, rescheduled), lost);
  }

  lemma UnsafeRestartLoses(s: State, at: Places)
    requires InPlace(s, at) && Accounted(s, at) && LogsOk(s.db) && Paired(s.db) && !Safe(s, RestartBackend)
    ensures !NothingLost(Step(s, RestartBackend))
  {
    assert s.sweep.ids[0] in s.sweep.ids;
    NowhereElse(s, at, s.sweep.ids[0]);
    LostNow(s, Step(s, RestartBackend), s.sweep.ids[0]);
  }

  lemma UnsafeEnqueueLoses(s: State, at: Places, run: RunId, reply: Reply)
    requires InPlace(s, at) && Accounted(s, at) && Staging(s) && LogsOk(s.db) && Paired(s.db)
    requires !Safe(s, Create(run, EnqueueStaged(reply)))
    ensures !NothingLost(StepEnqueueStaged(s, run, reply))
  {
    var (s', c) := (StepEnqueueStaged(s, run, reply), s.staged[run]);
    var k := if Took(reply) then c.enqueued + 1 else c.enqueued;
    assert CreationAt(c, at) && CreationOk(s, run);
    assert c.ids[k] in Promised(s'.staged[run]);
    NowhereElse(s, at, c.ids[k]);
    LostNow(s, s', c.ids[k]);
  }

  // After a premature read the entry is about to be acknowledged, and it is the only reference.
  lemma UnsafeLoadIsNotKept(s: State, at: Places, w: WorkerId, i: nat)
    requires Accounted(s, at) && !Safe(s, Work(w, Load(i)))
    requires Staging(s)
    ensures !Kept(StepLoad(s, w, i))
  {
    var (s', entry) := (StepLoad(s, w, i), SlotAt(s, w, i).entry);
    var run :| run in s.staged && entry.task in s.staged[run].ids;
    assert CreationOk(s, run);
    assert Holds(s.stream, s.covered, SlotIn(s.workers, w, i).value.entry);
    assert SlotAt(s', w, i) == Slot(entry, Done(None)) && SlotAt(s', w, i) in s'.workers[w].slots;
    assert !Settled(s', entry);
    assert !PhaseOk(s', s'.workers[w]);
  }

  // After a clean run, a step keeps the invariant of the safe runs if and only if it keeps the
  // premises; and any step but a read loses a task at once if it does not.
  lemma {:induction false} PremisesAreExact(before: seq<Action>, a: Action)
    requires CleanRun(before)
    ensures var s := Run(INITIAL, before);
            && Kept(s)
            && (Kept(Step(s, a)) <==> Safe(s, a))
            && (!(a.Work? && a.working.Load?) ==> (NothingLost(Step(s, a)) <==> Safe(s, a)))
  {
    var s := Run(INITIAL, before);
    var at := CleanRunsAreAccounted(before);
    if Safe(s, a) {
      StepKeepsTasks(s, a);
    } else {
      match a
      case Create(run, creating) => UnsafeEnqueueLoses(s, at, run, creating.reply);
      case Work(w, working) => UnsafeLoadIsNotKept(s, at, w, working.i);
      case Sweep(sweeping) => UnsafeReenqueueLoses(s, at, sweeping.reply, sweeping.at, sweeping.rescheduled);
      case RestartBackend => UnsafeRestartLoses(s, at);
    }
  }

  // ---------------------------------------------------------------- a premature read ends badly

  // The worker gives up on its first n entries that are not resolved yet.
  function GiveUp(w: WorkerId, n: nat): seq<Action> {
    if n == 0 then [] else GiveUp(w, n - 1) + [Work(w, Raise(n - 1, Nothing))]
  }

  function GivenUp(slots: seq<Slot>, n: nat): seq<Slot> {
    seq(|slots|, k requires 0 <= k < |slots| =>
      if k < n && !Resolved(slots[k]) then slots[k].(progress := Raised) else slots[k])
  }

  function GivenUpTo(s: State, w: WorkerId, n: nat): State {
    var phase := PhaseOf(s, w);
    SetPhase(s, w, if phase.Gathering? then phase.(slots := GivenUp(phase.slots, n)) else phase)
  }

  lemma GivingUpOne(s: State, w: WorkerId, n: nat)
    requires PhaseOf(s, w).Gathering? && n < |PhaseOf(s, w).slots|
    ensures StepRaise(GivenUpTo(s, w, n), w, n, Nothing) == GivenUpTo(s, w, n + 1)
  {
    var slots := PhaseOf(s, w).slots;
    if Resolved(slots[n]) {
      assert GivenUp(slots, n + 1) == GivenUp(slots, n);
    } else {
      assert GivenUp(slots, n + 1) == GivenUp(slots, n)[n := slots[n].(progress := Raised)];
    }
  }

  lemma NothingGivenUp(s: State, w: WorkerId)
    requires PhaseOf(s, w).Gathering?
    ensures GivenUpTo(s, w, 0) == s
  {
    assert GivenUp(PhaseOf(s, w).slots, 0) == PhaseOf(s, w).slots;
    assert s.workers[w := s.workers[w]] == s.workers;
  }

  lemma {:induction false} GivingUp(s: State, w: WorkerId, n: nat)
    requires PhaseOf(s, w).Gathering? && n <= |PhaseOf(s, w).slots|
    ensures Run(s, GiveUp(w, n)) == GivenUpTo(s, w, n)
  {
    if n == 0 {
      NothingGivenUp(s, w);
    } else {
      GivingUp(s, w, n - 1);
      GivingUpOne(s, w, n - 1);
      RunOneMore(s, GiveUp(w, n - 1), Work(w, Raise(n - 1, Nothing)));
    }
  }

  lemma {:induction false} GiveUpLength(w: WorkerId, n: nat)
    ensures |GiveUp(w, n)| == n && forall a | a in GiveUp(w, n) :: a.Work? && a.w == w && a.working.Raise?
  {
    if n > 0 { GiveUpLength(w, n - 1); }
  }

  lemma {:induction false} DoneIsAcked(slots: seq<Slot>, slot: Slot)
    requires slot in slots && slot.progress.Done?
    ensures slot.entry in ToAck(slots)
    decreases |slots|
  {
    if slot != slots[|slots| - 1] { DoneIsAcked(slots[..|slots| - 1], slot); }
  }

  predicate SameReferences(s: State, s': State) {
    && s'.staged == s.staged && s'.retry == s.retry && s'.sweep == s.sweep && s'.covered == s.covered
    && s'.db.tasks.Keys == s.db.tasks.Keys
  }

  lemma WritingDone(s: State, w: WorkerId, slot: Slot)
    requires Sound(s.db) && SlotsOk(s) && PhaseOf(s, w).Gathering? && AllResolved(PhaseOf(s, w).slots)
    requires slot in PhaseOf(s, w).slots && slot.progress.Done?
    ensures var s' := StepWrite(s, w, Replies);
            && Sound(s'.db) && SameReferences(s, s') && s'.stream == s.stream
            && PhaseOf(s', w).Acking? && PhaseOf(s', w).entries == ToAck(PhaseOf(s, w).slots)
  {
    DoneIsAcked(PhaseOf(s, w).slots, slot);
    BatchIsWritten(s, w);
    BatchKeepsSound(s.db, Outcomes(PhaseOf(s, w).slots));
  }

  lemma AckingDone(s: State, w: WorkerId)
    requires PhaseOf(s, w).Acking?
    ensures var s' := StepAckBatch(s, w, Replies);
            s'.db == s.db && SameReferences(s, s') && s'.stream == s.stream.Ack(Ids(PhaseOf(s, w).entries))
  {
  }

  // The write and the acknowledgement of a batch in which every slot is resolved.
  lemma WriteThenAck(s: State, w: WorkerId, slot: Slot)
    requires Sound(s.db) && SlotsOk(s) && PhaseOf(s, w).Gathering? && AllResolved(PhaseOf(s, w).slots)
    requires slot in PhaseOf(s, w).slots && slot.progress.Done?
    ensures var s' := Step(Step(s, Work(w, Write(Replies))), Work(w, AckBatch(Replies)));
            && Sound(s'.db) && SameReferences(s, s')
            && s'.stream == s.stream.Ack(Ids(ToAck(PhaseOf(s, w).slots)))
            && slot.entry.id in Ids(ToAck(PhaseOf(s, w).slots))
  {
    DoneIsAcked(PhaseOf(s, w).slots, slot);
    WritingDone(s, w, slot);
    AckingDone(StepWrite(s, w, Replies), w);
  }

  // The pending entry `id` is the only reference to the task.
  predicate OnlyPending(s: State, task: TaskId, id: EntryId) {
    && task !in s.stream.queue && task !in s.retry && !InSweep(s, task)
    && forall other | other in s.stream.pending && other !in s.covered && s.stream.pending[other].task == task ::
         other == id
  }

  lemma HeldOnly(s: State, at: Places, w: WorkerId, i: nat)
    requires InPlace(s, at) && Accounted(s, at) && HasSlot(s, w, i) && !Resolved(SlotAt(s, w, i))
    ensures SlotAt(s, w, i).entry.task in at
    ensures OnlyPending(s, SlotAt(s, w, i).entry.task, SlotAt(s, w, i).entry.id)
  {
    var entry := SlotAt(s, w, i).entry;
    assert SlotAtPlace(s.db.tasks, at, w, i, SlotIn(s.workers, w, i).value);
    forall k | 0 <= k < |s.stream.queue| ensures s.stream.queue[k] != entry.task {
      assert Sits(s.stream, at, k);
    }
    forall id | id in s.stream.pending && id !in s.covered && s.stream.pending[id].task == entry.task
      ensures id == entry.id
    {
      OneEntry(s, at, w, i, id);
    }
  }

  lemma StagedIsPromised(s: State, at: Places, task: TaskId)
    requires StagedAt(s.staged, s.db.tasks, at) && Staging(s) && IsStaged(s.staged, task) && task in at
    ensures Known(s, task) && task !in s.db.tasks
  {
    var run :| run in s.staged && task in s.staged[run].ids;
    assert CreationOk(s, run) && CreationAt(s.staged[run], at);
    assert task in Promised(s.staged[run]);
  }

  lemma LostByAck(s: State, s': State, task: TaskId, id: EntryId, ids: set<EntryId>)
    requires OnlyPending(s, task, id) && Known(s, task) && task !in s.db.tasks && id in ids
    requires s'.stream == s.stream.Ack(ids) && Sound(s'.db) && SameReferences(s, s')
    ensures !NothingLost(s')
  {
    NoHistory(s'.db, task, |s'.db.logs|);
    assert s'.db.logs[..|s'.db.logs|] == s'.db.logs;
    assert Known(s', task) && !Ended(s'.db, task) && !Live(s', task);
  }

  // The worker gives its other entries up, commits what it has, and acknowledges.
  function LetGo(w: WorkerId, n: nat): seq<Action> {
    GiveUp(w, n) + [Work(w, Write(Replies))] + [Work(w, AckBatch(Replies))]
  }

  lemma LettingGoSteps(s: State, w: WorkerId)
    requires PhaseOf(s, w).Gathering?
    ensures var n := |PhaseOf(s, w).slots|;
            Run(s, LetGo(w, n)) == Step(Step(GivenUpTo(s, w, n), Work(w, Write(Replies))), Work(w, AckBatch(Replies)))
  {
    var n := |PhaseOf(s, w).slots|;
    GivingUp(s, w, n);
    RunOneMore(s, GiveUp(w, n), Work(w, Write(Replies)));
    RunOneMore(s, GiveUp(w, n) + [Work(w, Write(Replies))], Work(w, AckBatch(Replies)));
  }

  lemma LettingGo(s: State, w: WorkerId, slot: Slot) returns (ids: set<EntryId>)
    requires Sound(s.db) && SlotsOk(s) && PhaseOf(s, w).Gathering?
    requires slot in PhaseOf(s, w).slots && slot.progress.Done?
    ensures var s' := Run(s, LetGo(w, |PhaseOf(s, w).slots|));
            && Sound(s'.db) && SameReferences(s, s')
            && s'.stream == s.stream.Ack(ids) && slot.entry.id in ids
  {
    var slots := PhaseOf(s, w).slots;
    var n := |slots|;
    LettingGoSteps(s, w);
    GivingUpFits(s, w);
    DoneIsKept(slots, slot);
    WriteThenAck(GivenUpTo(s, w, n), w, slot);
    ids := Ids(ToAck(GivenUp(slots, n)));
  }

  lemma ReadTooEarly(s: State, w: WorkerId, i: nat)
    requires Staging(s) && CanLoad(s, w, i) && IsStaged(s.staged, SlotAt(s, w, i).entry.task)
    ensures var read := StepLoad(s, w, i);
            && PhaseOf(read, w).Gathering? && Slot(SlotAt(s, w, i).entry, Done(None)) in PhaseOf(read, w).slots
            && SameReferences(s, read) && read.stream == s.stream && read.db == s.db
  {
    var run :| run in s.staged && SlotAt(s, w, i).entry.task in s.staged[run].ids;
    assert CreationOk(s, run);
    assert SlotAt(StepLoad(s, w, i), w, i) == Slot(SlotAt(s, w, i).entry, Done(None));
  }

  lemma {:induction false} PrematureRead(s: State, w: WorkerId, i: nat) returns (rest: seq<Action>)
    requires Wellformed(s) && CanLoad(s, w, i) && IsStaged(s.staged, SlotAt(s, w, i).entry.task)
    requires var entry := SlotAt(s, w, i).entry;
             OnlyPending(s, entry.task, entry.id) && Known(s, entry.task) && entry.task !in s.db.tasks
    ensures forall a | a in rest :: a.Work? && a.w == w && !a.working.Load?
    ensures !NothingLost(Run(StepLoad(s, w, i), rest))
  {
    var (read, entry) := (StepLoad(s, w, i), SlotAt(s, w, i).entry);
    ReadTooEarly(s, w, i);
    LoadKeepsSlots(s, w, i);
    rest := LetGo(w, |PhaseOf(read, w).slots|);
    var ids := LettingGo(read, w, Slot(entry, Done(None)));
    LostByAck(s, Run(read, rest), entry.task, entry.id, ids);
    GiveUpLength(w, |PhaseOf(read, w).slots|);
  }

  // A worker that reads a task too early loses it without another premise being broken: nobody
  // else need act, and nothing else need fail.
  lemma {:induction false} PrematureReadLoses(before: seq<Action>, w: WorkerId, i: nat) returns (rest: seq<Action>)
    requires CleanRun(before) && !Safe(Run(INITIAL, before), Work(w, Load(i)))
    ensures forall a | a in rest :: a.Work? && a.w == w && !a.working.Load?
    ensures !NothingLost(Run(Step(Run(INITIAL, before), Work(w, Load(i))), rest))
  {
    var s := Run(INITIAL, before);
    var at := CleanRunsAreAccounted(before);
    HeldOnly(s, at, w, i);
    StagedIsPromised(s, at, SlotAt(s, w, i).entry.task);
    rest := PrematureRead(s, w, i);
  }

  lemma DoneIsKept(slots: seq<Slot>, slot: Slot)
    requires slot in slots && slot.progress.Done?
    ensures slot in GivenUp(slots, |slots|)
  {
    var k :| 0 <= k < |slots| && slots[k] == slot;
    assert GivenUp(slots, |slots|)[k] == slot;
  }

  lemma GivingUpFits(s: State, w: WorkerId)
    requires SlotsOk(s) && PhaseOf(s, w).Gathering?
    ensures var slots := PhaseOf(s, w).slots;
            SlotsOk(GivenUpTo(s, w, |slots|)) && AllResolved(GivenUp(slots, |slots|))
  {
    var slots := PhaseOf(s, w).slots;
    forall slot | slot in GivenUp(slots, |slots|) ensures SlotOk(s.db, slot) && Resolved(slot) {
      var k :| 0 <= k < |slots| && GivenUp(slots, |slots|)[k] == slot;
      assert slots[k] in slots;
    }
  }
}
