// With one shared clock, the exactly-once fragment keeps the backoff: no attempt of a task starts
// earlier than its first failure plus all the delays since. The proof follows the time of the
// first failure of each task through the places that the task goes through.
module Backoff {
  import opened Wrappers
  import opened Records
  import opened ResultWriter
  import opened Ledger
  import opened RetryQueue
  import opened Streams
  import opened TaskProcessor
  import opened Protocol
  import opened Soundness
  import opened NoTaskLost
  import opened SingleReference
  import opened Termination

  // ---------------------------------------------------------------- one clock

  function TimeOf(a: Action): Option<Time> {
    match a
    case Work(_, Execute(_, _, now)) => Some(now)
    case Work(_, Defer(_, now)) => Some(now)
    case Sweep(ReadDue(now, _, _)) => Some(now)
    case _ => None
  }

  function ClockAfter(clock: Time, a: Action): Time {
    if TimeOf(a).Some? then TimeOf(a).value else clock
  }

  function Clock(start: Time, actions: seq<Action>): Time {
    if actions == [] then start else ClockAfter(Clock(start, actions[..|actions| - 1]), actions[|actions| - 1])
  }

  // Every process reads the same clock, and it does not step back.
  predicate OneClock(start: Time, actions: seq<Action>) {
    actions == [] ||
    (var front := actions[..|actions| - 1];
     OneClock(start, front) && Clock(start, front) <= Clock(start, actions))
  }

  // ---------------------------------------------------------------- first failures

  type Firsts = map<TaskId, Time>

  function Fail(s: State, firsts: Firsts, a: Action): Firsts {
    match a
    case Work(w, Execute(i, report, now)) =>
      if HasLoaded(s, w, i) && report.reasons != [] && SlotAt(s, w, i).entry.task !in firsts
      then firsts[SlotAt(s, w, i).entry.task := now]
      else firsts
    case _ => firsts
  }

  // When each task failed for the first time.
  function FirstFailures(actions: seq<Action>): Firsts {
    if actions == [] then map[]
    else
      var front := actions[..|actions| - 1];
      Fail(Run(INITIAL, front), FirstFailures(front), actions[|actions| - 1])
  }

  // ---------------------------------------------------------------- the invariant

  // The failures so far of a task that is not over.
  function Failures(db: Tables, workers: Workers, task: TaskId, place: Place): nat {
    (if task in db.tasks then db.tasks[task].retryCount else 0) + if WillRetry(workers, place) then 1 else 0
  }

  predicate IsScheduled(workers: Workers, place: Place) {
    place.Waiting? || WillRetry(workers, place)
  }

  predicate IsOver(workers: Workers, place: Place) {
    place.Finished? || (place.Executed? && !WillRetry(workers, place))
  }

  function Floor(firsts: Firsts, task: TaskId, n: nat): Time
    requires task in firsts
  {
    firsts[task] + CumulativeBackoff(n) as real
  }

  // A scheduled retry is not scheduled too early, and a task on its way was not popped too early.
  predicate OnTime(s: State, task: TaskId, place: Place, firsts: Firsts, clock: Time) {
    var n := Failures(s.db, s.workers, task, place);
    n > 0 && !IsOver(s.workers, place) ==>
      task in firsts &&
      if IsScheduled(s.workers, place) then task in s.retry && Floor(firsts, task, n) <= s.retry[task]
      else Floor(firsts, task, n) <= clock
  }

  // What the sweeper has read was due when it read it.
  predicate ReadIsDue(s: State, clock: Time) {
    s.sweep.Reading? ==> forall task | task in s.sweep.ids :: task in s.retry && s.retry[task] <= clock
  }

  predicate HavePassed(firsts: Firsts, clock: Time) {
    forall task | task in firsts :: firsts[task] <= clock
  }

  ghost predicate AllOnTime(s: State, at: Places, firsts: Firsts, clock: Time) {
    && ReadIsDue(s, clock) && HavePassed(firsts, clock)
    && forall task | task in at :: OnTime(s, task, at[task], firsts, clock)
  }

  // ---------------------------------------------------------------- steps that leave a task where it is

  lemma StaysOnTime(s: State, s': State, task: TaskId, place: Place, place': Place, firsts: Firsts, clock: Time,
                    clock': Time)
    requires OnTime(s, task, place, firsts, clock) && clock <= clock'
    requires Failures(s'.db, s'.workers, task, place') == Failures(s.db, s.workers, task, place)
    requires IsOver(s.workers, place) ==> IsOver(s'.workers, place')
    requires IsScheduled(s'.workers, place') == IsScheduled(s.workers, place)
    requires IsScheduled(s.workers, place) && task in s.retry ==> task in s'.retry && s'.retry[task] == s.retry[task]
    ensures OnTime(s', task, place', firsts, clock')
  {
  }

  lemma ConsumeOnTime(s: State, at: Places, w: WorkerId, count: nat, firsts: Firsts, clock: Time)
    requires HandsAt(s.workers, s.db.tasks, at) && AllOnTime(s, at, firsts, clock)
    ensures AllOnTime(StepConsume(s, w, count), AfterConsume(s, at, w, count), firsts, clock)
  {
    var s' := StepConsume(s, w, count);
    if s' != s {
      OtherSlotsSame(s, at, w, s'.workers);
      forall task | task in at ensures OnTime(s', task, AfterConsume(s, at, w, count)[task], firsts, clock) {
        StaysOnTime(s, s', task, at[task], AfterConsume(s, at, w, count)[task], firsts, clock, clock);
      }
    }
  }

  lemma LoadOnTime(s: State, at: Places, w: WorkerId, i: nat, firsts: Firsts, clock: Time)
    requires HandsAt(s.workers, s.db.tasks, at) && AllOnTime(s, at, firsts, clock)
    ensures AllOnTime(StepLoad(s, w, i), at, firsts, clock)
  {
    var s' := StepLoad(s, w, i);
    if s' != s {
      OtherRetries(s, at, w, i, s'.workers[w].slots[i].progress);
      assert s'.workers == SetSlot(s, w, i, s'.workers[w].slots[i].progress).workers;
      forall task | task in at ensures OnTime(s', task, at[task], firsts, clock) {
        StaysOnTime(s, s', task, at[task], at[task], firsts, clock, clock);
      }
    }
  }

  // ---------------------------------------------------------------- executing and deferring

  lemma OthersOnTime(s: State, s': State, at: Places, at': Places, w: WorkerId, i: nat, progress: Progress,
                     firsts: Firsts, firsts': Firsts, clock: Time, clock': Time)
    requires HandsAt(s.workers, s.db.tasks, at) && RetryAt(s.retry, s.workers, at) && AllOnTime(s, at, firsts, clock)
    requires HasLoaded(s, w, i) && clock <= clock'
    requires s'.workers == SetSlot(s, w, i, progress).workers && s'.db == s.db && s'.sweep == s.sweep
    requires var task := SlotAt(s, w, i).entry.task;
             && task in at' && at' == at[task := at'[task]]
             && (s'.retry == s.retry || (task in s'.retry && s'.retry == s.retry[task := s'.retry[task]]))
             && (firsts' == firsts || (task !in firsts && task in firsts' && firsts' == firsts[task := firsts'[task]]))
    ensures ReadIsDue(s', clock')
    ensures forall task | task in at && task != SlotAt(s, w, i).entry.task ::
            OnTime(s', task, at'[task], firsts', clock')
  {
    var task := SlotAt(s, w, i).entry.task;
    OtherRetries(s, at, w, i, progress);
    assert task !in s.retry;
    forall t | t in at && t != task ensures OnTime(s', t, at'[t], firsts', clock') {
      StaysOnTime(s, s', t, at[t], at'[t], firsts, clock, clock');
    }
  }

  lemma OneMoreFailure(firsts: Firsts, task: TaskId, n: nat)
    requires task in firsts
    ensures Floor(firsts, task, n + 1) == Floor(firsts, task, n) + ComputeBackoffSeconds(n) as real
  {
  }

  lemma ExecutedOnTime(s: State, at: Places, w: WorkerId, i: nat, report: Report, now: Time, firsts: Firsts,
                       clock: Time)
    requires HandsAt(s.workers, s.db.tasks, at) && AllOnTime(s, at, firsts, clock) && HasLoaded(s, w, i) && clock <= now
    ensures var s' := StepExecute(s, w, i, report, now);
            OnTime(s', SlotAt(s, w, i).entry.task, Executed(w, i),
                   Fail(s, firsts, Work(w, Execute(i, report, now))), now)
  {
    var s' := StepExecute(s, w, i, report, now);
    var task := SlotAt(s, w, i).entry.task;
    var firsts' := Fail(s, firsts, Work(w, Execute(i, report, now)));
    assert SlotAtPlace(s.db.tasks, at, w, i, SlotIn(s.workers, w, i).value);
    assert OnTime(s, task, at[task], firsts, clock);
    var row := s.db.tasks[task];
    var o := Conclude(task, row, w, report, now);
    assert SlotIn(s'.workers, w, i).value.progress == Done(Some(o));
    assert WillRetry(s'.workers, Executed(w, i)) <==> o.newStatus == Retrying;
    if o.newStatus == Retrying {
      OneMoreFailure(firsts', task, row.retryCount);
    }
  }

  lemma ExecuteOnTime(s: State, at: Places, w: WorkerId, i: nat, report: Report, now: Time, firsts: Firsts, clock: Time)
    requires HandsAt(s.workers, s.db.tasks, at) && RetryAt(s.retry, s.workers, at)
    requires AllOnTime(s, at, firsts, clock) && clock <= now
    ensures AllOnTime(StepExecute(s, w, i, report, now), AfterProcessing(s, at, w, i, Executed(w, i)),
                      Fail(s, firsts, Work(w, Execute(i, report, now))), now)
  {
    var s' := StepExecute(s, w, i, report, now);
    if HasLoaded(s, w, i) {
      ExecutedOnTime(s, at, w, i, report, now, firsts, clock);
      OthersOnTime(s, s', at, AfterProcessing(s, at, w, i, Executed(w, i)), w, i, s'.workers[w].slots[i].progress,
                   firsts, Fail(s, firsts, Work(w, Execute(i, report, now))), clock, now);
    } else {
      forall task | task in at ensures OnTime(s, task, at[task], firsts, now) {
        StaysOnTime(s, s, task, at[task], at[task], firsts, clock, now);
      }
    }
  }

  lemma DeferOnTime(s: State, at: Places, w: WorkerId, i: nat, now: Time, firsts: Firsts, clock: Time)
    requires HandsAt(s.workers, s.db.tasks, at) && RetryAt(s.retry, s.workers, at)
    requires AllOnTime(s, at, firsts, clock) && clock <= now
    ensures AllOnTime(StepDefer(s, w, i, now), AfterProcessing(s, at, w, i, Waiting), firsts, now)
  {
    var s' := StepDefer(s, w, i, now);
    if HasLoaded(s, w, i) {
      var task := SlotAt(s, w, i).entry.task;
      assert SlotAtPlace(s.db.tasks, at, w, i, SlotIn(s.workers, w, i).value);
      assert OnTime(s, task, at[task], firsts, clock);
      OthersOnTime(s, s', at, AfterProcessing(s, at, w, i, Waiting), w, i, Done(None), firsts, firsts, clock, now);
    } else {
      forall task | task in at ensures OnTime(s, task, at[task], firsts, now) {
        StaysOnTime(s, s, task, at[task], at[task], firsts, clock, now);
      }
    }
  }

  // ---------------------------------------------------------------- writing and acknowledging

  lemma WriteFrame(s: State, w: WorkerId)
    requires Sound(s.db) && SlotsOk(s) && PhaseOf(s, w).Gathering? && AllResolved(PhaseOf(s, w).slots)
    ensures var s' := StepWrite(s, w, Replies);
            && s'.retry == s.retry && s'.sweep == s.sweep
            && w in s'.workers && !s'.workers[w].Gathering? && s'.workers == s.workers[w := s'.workers[w]]
  {
    BatchIsWritten(s, w);
  }

  lemma SettledOnTime(s: State, s': State, at: Places, w: WorkerId, task: TaskId, firsts: Firsts, clock: Time)
    requires HandsAt(s.workers, s.db.tasks, at) && RowsAt(s.db, at)
    requires task in at && OnTime(s, task, at[task], firsts, clock) && s'.retry == s.retry
    requires w in s'.workers && !s'.workers[w].Gathering? && s'.workers == s.workers[w := s'.workers[w]]
    requires task in s'.db.tasks <==> task in s.db.tasks
    requires !HeldBy(at[task], w) && task in s.db.tasks ==> s'.db.tasks[task] == s.db.tasks[task]
    requires HeldBy(at[task], w) && WillRetry(s.workers, at[task]) ==>
               task in s.db.tasks && s'.db.tasks[task].retryCount == s.db.tasks[task].retryCount + 1
    ensures OnTime(s', task, Settle(s.workers, w, at)[task], firsts, clock)
  {
    if HeldBy(at[task], w) {
      if WillRetry(s.workers, at[task]) {
        StaysOnTime(s, s', task, at[task], Waiting, firsts, clock, clock);
      }
    } else {
      StaysOnTime(s, s', task, at[task], at[task], firsts, clock, clock);
    }
  }

  lemma {:induction false} WriteOnTime(s: State, at: Places, w: WorkerId, firsts: Firsts, clock: Time)
    requires HandsAt(s.workers, s.db.tasks, at) && RowsAt(s.db, at) && Sound(s.db) && SlotsOk(s)
    requires AllOnTime(s, at, firsts, clock)
    ensures AllOnTime(StepWrite(s, w, Replies), AfterWrite(s, at, w), firsts, clock)
  {
    if PhaseOf(s, w).Gathering? && AllResolved(PhaseOf(s, w).slots) {
      WriteFrame(s, w);
      forall task | task in at
        ensures OnTime(StepWrite(s, w, Replies), task, AfterWrite(s, at, w)[task], firsts, clock)
      {
        WrittenRow(s, at, w, task);
        SettledOnTime(s, StepWrite(s, w, Replies), at, w, task, firsts, clock);
      }
    }
  }

  lemma AckOnTime(s: State, at: Places, w: WorkerId, firsts: Firsts, clock: Time)
    requires HandsAt(s.workers, s.db.tasks, at) && AllOnTime(s, at, firsts, clock)
    ensures AllOnTime(StepAckBatch(s, w, Replies), at, firsts, clock)
  {
    var s' := StepAckBatch(s, w, Replies);
    forall task | task in at ensures OnTime(s', task, at[task], firsts, clock) {
      assert at[task].Executed? ==> HoldsOutcome(SlotIn(s.workers, at[task].w, at[task].i), task);
      StaysOnTime(s, s', task, at[task], at[task], firsts, clock, clock);
    }
  }

  // ---------------------------------------------------------------- the sweeper and the creators

  lemma ReadDueOnTime(s: State, at: Places, now: Time, limit: nat, ids: seq<TaskId>, firsts: Firsts, clock: Time)
    requires AllOnTime(s, at, firsts, clock) && clock <= now
    ensures AllOnTime(StepReadDue(s, now, limit, ids), at, firsts, now)
  {
    var s' := StepReadDue(s, now, limit, ids);
    forall task | task in at ensures OnTime(s', task, at[task], firsts, now) {
      StaysOnTime(s, s', task, at[task], at[task], firsts, clock, now);
    }
    if s' != s {
      forall task | task in ids ensures task in s'.retry && s'.retry[task] <= now {
        assert task in Members(ids);
      }
    }
  }

  lemma RemoveDueOnTime(s: State, at: Places, ok: bool, firsts: Firsts, clock: Time)
    requires HandsAt(s.workers, s.db.tasks, at) && RetryAt(s.retry, s.workers, at)
    requires Clean(s, Sweep(RemoveDue(ok))) && AllOnTime(s, at, firsts, clock)
    ensures AllOnTime(StepRemoveDue(s, ok), AfterRemove(s, at, ok), firsts, clock)
  {
    var s' := StepRemoveDue(s, ok);
    forall task | task in at ensures OnTime(s', task, AfterRemove(s, at, ok)[task], firsts, clock) {
      assert OnTime(s, task, at[task], firsts, clock);
      if s.sweep.Reading? && ok {
        if task in s.sweep.ids {
          DueIsWaiting(s, at, task);
        } else {
          StaysOnTime(s, s', task, at[task], at[task], firsts, clock, clock);
        }
      }
    }
  }

  lemma ReenqueueOnTime(s: State, at: Places, now: Time, rescheduled: bool, firsts: Firsts, clock: Time)
    requires SweepAt(s.sweep, s.retry, at) && AllOnTime(s, at, firsts, clock)
    ensures AllOnTime(StepReenqueue(s, Replies, now, rescheduled), AfterReenqueue(s, at), firsts, clock)
  {
    var s' := StepReenqueue(s, Replies, now, rescheduled);
    if s.sweep.Moving? && s.sweep.ids != [] {
      assert s.sweep.ids[0] in s.sweep.ids;
      forall task | task in at ensures OnTime(s', task, AfterReenqueue(s, at)[task], firsts, clock) {
        StaysOnTime(s, s', task, at[task], AfterReenqueue(s, at)[task], firsts, clock, clock);
      }
    }
  }

  lemma EnqueueOnTime(s: State, at: Places, run: RunId, firsts: Firsts, clock: Time)
    requires StagedAt(s.staged, s.db.tasks, at) && Staging(s) && AllOnTime(s, at, firsts, clock)
    ensures AllOnTime(StepEnqueueStaged(s, run, Replies), AfterEnqueue(s, at, run), firsts, clock)
  {
    var (s', at') := (StepEnqueueStaged(s, run, Replies), AfterEnqueue(s, at, run));
    if CanEnqueue(s, run) { EnqueuedTask(s, at, run); }
    forall task | task in at' ensures OnTime(s', task, at'[task], firsts, clock) {
      if task in at {
        StaysOnTime(s, s', task, at[task], at'[task], firsts, clock, clock);
      }
    }
  }

  lemma CommitOnTime(s: State, at: Places, run: RunId, firsts: Firsts, clock: Time)
    requires Staging(s) && AllOnTime(s, at, firsts, clock)
    ensures AllOnTime(StepCommit(s, run), at, firsts, clock)
  {
    var s' := StepCommit(s, run);
    if s' != s {
      assert CreationOk(s, run);
      NewRowsFresh(s, run);
      forall task | task in at ensures OnTime(s', task, at[task], firsts, clock) {
        StaysOnTime(s, s', task, at[task], at[task], firsts, clock, clock);
      }
    }
  }

  lemma StageOnTime(s: State, at: Places, run: RunId, ids: seq<TaskId>, rows: seq<TaskRow>, environment: Variables,
                    scheduled: bool, firsts: Firsts, clock: Time)
    requires AllOnTime(s, at, firsts, clock)
    ensures AllOnTime(StepStage(s, run, ids, rows, environment, scheduled), at, firsts, clock)
  {
    var s' := StepStage(s, run, ids, rows, environment, scheduled);
    forall task | task in at ensures OnTime(s', task, at[task], firsts, clock) {
      StaysOnTime(s, s', task, at[task], at[task], firsts, clock, clock);
    }
  }

  // ---------------------------------------------------------------- every clean run with one clock

  lemma {:induction false} WorkOnTime(s: State, at: Places, w: WorkerId, a: WorkerAction, firsts: Firsts, clock: Time)
    requires InPlace(s, at) && Wellformed(s) && Clean(s, Work(w, a)) && AllOnTime(s, at, firsts, clock)
    requires clock <= ClockAfter(clock, Work(w, a))
    ensures AllOnTime(StepWorker(s, w, a), PlacesAfterWork(s, at, w, a),
                      Fail(s, firsts, Work(w, a)), ClockAfter(clock, Work(w, a)))
  {
    match a
    case Consume(count) => ConsumeOnTime(s, at, w, count, firsts, clock);
    case Load(i) => LoadOnTime(s, at, w, i, firsts, clock);
    case Execute(i, report, now) => ExecuteOnTime(s, at, w, i, report, now, firsts, clock);
    case Defer(i, now) => DeferOnTime(s, at, w, i, now, firsts, clock);
    case Write(_) => WriteOnTime(s, at, w, firsts, clock);
    case AckBatch(_) => AckOnTime(s, at, w, firsts, clock);
  }

  lemma {:induction false} SweepOnTime(s: State, at: Places, a: SweepAction, firsts: Firsts, clock: Time)
    requires InPlace(s, at) && Clean(s, Sweep(a)) && AllOnTime(s, at, firsts, clock)
    requires clock <= ClockAfter(clock, Sweep(a))
    ensures AllOnTime(StepSweeper(s, a), PlacesAfterSweep(s, at, a), firsts, ClockAfter(clock, Sweep(a)))
  {
    match a
    case ReadDue(now, limit, ids) => ReadDueOnTime(s, at, now, limit, ids, firsts, clock);
    case RemoveDue(ok) => RemoveDueOnTime(s, at, ok, firsts, clock);
    case Reenqueue(_, now, rescheduled) => ReenqueueOnTime(s, at, now, rescheduled, firsts, clock);
  }

  lemma {:induction false} CreateOnTime(s: State, at: Places, run: RunId, a: CreatorAction, firsts: Firsts, clock: Time)
    requires InPlace(s, at) && Wellformed(s) && Clean(s, Create(run, a)) && AllOnTime(s, at, firsts, clock)
    ensures AllOnTime(StepCreator(s, run, a), PlacesAfter(s, at, Create(run, a)), firsts, clock)
  {
    match a
    case Stage(ids, rows, environment, scheduled) =>
      StageOnTime(s, at, run, ids, rows, environment, scheduled, firsts, clock);
    case EnqueueStaged(_) => EnqueueOnTime(s, at, run, firsts, clock);
    case Commit => CommitOnTime(s, at, run, firsts, clock);
  }

  lemma {:induction false} StepOnTime(s: State, at: Places, a: Action, firsts: Firsts, clock: Time)
    requires InPlace(s, at) && Wellformed(s) && Clean(s, a) && AllOnTime(s, at, firsts, clock)
    requires clock <= ClockAfter(clock, a)
    ensures AllOnTime(Step(s, a), PlacesAfter(s, at, a), Fail(s, firsts, a), ClockAfter(clock, a))
  {
    match a
    case Create(run, creating) => CreateOnTime(s, at, run, creating, firsts, clock);
    case Work(w, working) => WorkOnTime(s, at, w, working, firsts, clock);
    case Sweep(sweeping) => SweepOnTime(s, at, sweeping, firsts, clock);
    case Tick(_) =>
      forall task | task in at ensures OnTime(Step(s, a), task, at[task], firsts, clock) {
        StaysOnTime(s, Step(s, a), task, at[task], at[task], firsts, clock, clock);
      }
  }

  lemma {:induction false} RunsAreOnTime(start: Time, actions: seq<Action>) returns (at: Places)
    requires CleanRun(actions) && OneClock(start, actions)
    ensures InPlace(Run(INITIAL, actions), at) && Wellformed(Run(INITIAL, actions))
    ensures AllOnTime(Run(INITIAL, actions), at, FirstFailures(actions), Clock(start, actions))
    decreases |actions|
  {
    RunsAreWellformed(actions);
    at := map[];
    if actions != [] {
      var (front, last) := (actions[..|actions| - 1], actions[|actions| - 1]);
      at := RunsAreOnTime(start, front);
      StepOnTime(Run(INITIAL, front), at, last, FirstFailures(front), Clock(start, front));
      at := StepStaysInPlace(Run(INITIAL, front), at, last);
    }
  }

  // The attempt that follows n failures starts no earlier than the first failure plus the sum of
  // the n delays: rate-limit deferrals, batching and sweeping only add to it.
  lemma {:induction false} BackoffIsKept(start: Time, actions: seq<Action>, w: WorkerId, i: nat, now: Time)
    requires CleanRun(actions) && OneClock(start, actions) && Clock(start, actions) <= now
    requires HasLoaded(Run(INITIAL, actions), w, i)
    ensures var slot := SlotAt(Run(INITIAL, actions), w, i);
            var (task, n) := (slot.entry.task, slot.progress.row.retryCount);
            n > 0 ==>
              task in FirstFailures(actions) && FirstFailures(actions)[task] + CumulativeBackoff(n) as real <= now
  {
    var at := RunsAreOnTime(start, actions);
    var s := Run(INITIAL, actions);
    assert SlotAtPlace(s.db.tasks, at, w, i, SlotIn(s.workers, w, i).value);
    assert OnTime(s, SlotAt(s, w, i).entry.task, Place.Fetched(w, i), FirstFailures(actions), Clock(start, actions));
  }
}
