// No task is lost: in every safe run, a task that has not ended has a live reference.
module NoTaskLost {
  import opened Wrappers
  import opened Records
  import opened Sequences
  import opened ResultWriter
  import opened Ledger
  import opened RetryQueue
  import opened Streams
  import opened TaskProcessor
  import opened Protocol
  import opened Soundness

  // ---------------------------------------------------------------- live references

  predicate InHand(s: State, task: TaskId) {
    exists id | id in s.stream.pending :: s.stream.pending[id].task == task && id !in s.covered
  }

  predicate InSweep(s: State, task: TaskId) {
    s.sweep.Moving? && task in s.sweep.ids
  }

  // An undelivered entry, a pending entry not yet handed on, a scheduled retry, or a place in
  // the list that the retry sweeper is re-enqueueing.
  predicate Live(s: State, task: TaskId) {
    task in s.stream.queue || InHand(s, task) || task in s.retry || InSweep(s, task)
  }

  // The tasks that a creation has enqueued; all its tasks once the cron sweep has caught a failed
  // enqueue, because it will commit them all the same.
  function Promised(c: Creation): seq<TaskId> {
    if !c.broken && c.enqueued <= |c.ids| then c.ids[..c.enqueued] else c.ids
  }

  // A committed task, or one promised by a run under creation.
  predicate Known(s: State, task: TaskId) {
    task in s.db.tasks || exists run | run in s.staged :: task in Promised(s.staged[run])
  }

  ghost predicate NothingLost(s: State) {
    forall task | Known(s, task) :: Ended(s.db, task) || Live(s, task)
  }

  // ---------------------------------------------------------------- the premises

  predicate IsStaged(staged: map<RunId, Creation>, task: TaskId) {
    exists run | run in staged :: task in staged[run].ids
  }

  predicate CanEnqueue(s: State, run: RunId) {
    run in s.staged && !s.staged[run].broken && s.staged[run].enqueued < |s.staged[run].ids|
  }

  predicate HoldsPopped(s: State) {
    s.sweep.Moving? && s.sweep.ids != []
  }

  predicate CanLoad(s: State, w: WorkerId, i: nat) {
    HasSlot(s, w, i) && SlotAt(s, w, i).progress.Delivered?
  }

  // What the platform relies on. No worker reads a task before its run is committed; enqueueing a
  // scheduled run's tasks does not fail, nor does enqueueing a popped task when the fallback
  // reschedule fails too, except that the reply to the last one may be lost; the backend does not
  // die holding popped ids.
  predicate Safe(s: State, a: Action) {
    match a
    case Create(run, EnqueueStaged(reply)) =>
      CanEnqueue(s, run) && s.staged[run].scheduled ==>
        reply.Replies? || (Took(reply) && s.staged[run].enqueued + 1 == |s.staged[run].ids|)
    case Work(w, Load(i)) =>
      CanLoad(s, w, i) ==> !IsStaged(s.staged, SlotAt(s, w, i).entry.task)
    case Sweep(Reenqueue(reply, _, rescheduled)) =>
      HoldsPopped(s) ==> reply.Replies? || rescheduled || (Took(reply) && |s.sweep.ids| == 1)
    case RestartBackend => !HoldsPopped(s)
    case _ => true
  }

  predicate SafeRun(actions: seq<Action>)
    decreases |actions|
  {
    actions == [] ||
    (SafeRun(actions[..|actions| - 1]) && Safe(Run(INITIAL, actions[..|actions| - 1]), actions[|actions| - 1]))
  }

  // ---------------------------------------------------------------- the invariant

  predicate EntryOk(s: State, e: StreamEntry) {
    && e.id < s.stream.next
    && e.task in s.used
    && (e.id in s.stream.pending ==> s.stream.pending[e.id].task == e.task)
  }

  // A task that was created once and whose creation was rolled back.
  predicate Dead(s: State, task: TaskId) {
    task in s.used && task !in s.db.tasks && !IsStaged(s.staged, task)
  }

  // Acknowledging such an entry takes no live reference away.
  predicate Settled(s: State, e: StreamEntry) {
    e.id !in s.stream.pending || e.id in s.covered || Dead(s, e.task)
  }

  predicate Spent(progress: Progress) {
    match progress
    case Done(None) => true
    case Done(Some(o)) => o.newStatus == Retrying
    case _ => false
  }

  predicate PhaseOk(s: State, phase: Phase) {
    match phase
    case Idle => true
    case Gathering(slots, _) =>
      forall slot | slot in slots ::
        EntryOk(s, slot.entry) && (Spent(slot.progress) ==> Settled(s, slot.entry))
    case Acking(entries, _) =>
      forall e | e in entries :: EntryOk(s, e) && (Settled(s, e) || Ended(s.db, e.task))
  }

  predicate HandsOk(s: State) {
    forall w | w in s.workers :: PhaseOk(s, s.workers[w])
  }

  predicate ClaimsOk(s: State) {
    forall c | c in s.claimed :: EntryOk(s, c.entry) && (c.enqueued ==> c.entry.id in s.covered)
  }

  predicate IdsOk(s: State) {
    && (forall id | id in s.stream.pending :: id < s.stream.next && s.stream.pending[id].task in s.used)
    && (forall id | id in s.covered :: id < s.stream.next)
    && (forall task | task in s.stream.queue :: task in s.used)
    && (forall task | task in s.retry :: task in s.used)
    && (!s.sweep.Resting? ==> s.sweep.ids != [] && forall task | task in s.sweep.ids :: task in s.used)
  }

  ghost predicate Kept(s: State) {
    IdsOk(s) && HandsOk(s) && ClaimsOk(s) && NothingLost(s)
  }

  // ---------------------------------------------------------------- what only moves forward

  ghost predicate Forward(s: State, s': State) {
    && s.stream.next <= s'.stream.next
    && s.covered <= s'.covered
    && s.used <= s'.used
    && (forall id | id in s'.stream.pending && id < s.stream.next ::
          id in s.stream.pending && s'.stream.pending[id].task == s.stream.pending[id].task)
    && (forall task | Ended(s.db, task) :: Ended(s'.db, task))
    && (forall task | Dead(s, task) :: Dead(s', task))
  }

  lemma PhaseStays(s: State, s': State, phase: Phase)
    requires Forward(s, s') && PhaseOk(s, phase)
    ensures PhaseOk(s', phase)
  {
    match phase
    case Idle =>
    case Gathering(slots, _) =>
      forall slot | slot in slots
        ensures EntryOk(s', slot.entry) && (Spent(slot.progress) ==> Settled(s', slot.entry))
      {
        assert EntryOk(s, slot.entry);
      }
    case Acking(entries, _) =>
      forall e | e in entries ensures EntryOk(s', e) && (Settled(s', e) || Ended(s'.db, e.task)) {
        assert EntryOk(s, e);
      }
  }

  lemma HandsStay(s: State, s': State)
    requires Forward(s, s') && HandsOk(s) && s'.workers == s.workers
    ensures HandsOk(s')
  {
    forall w | w in s'.workers ensures PhaseOk(s', s'.workers[w]) {
      PhaseStays(s, s', s.workers[w]);
    }
  }

  lemma ClaimsStay(s: State, s': State)
    requires Forward(s, s') && ClaimsOk(s) && forall c | c in s'.claimed :: c in s.claimed
    ensures ClaimsOk(s')
  {
    forall c | c in s'.claimed ensures EntryOk(s', c.entry) && (c.enqueued ==> c.entry.id in s'.covered) {
      assert EntryOk(s, c.entry);
    }
  }

  // ---------------------------------------------------------------- run creation

  lemma StageKeepsTasks(s: State, run: RunId, ids: seq<TaskId>, rows: seq<TaskRow>,
                        environment: Variables, scheduled: bool)
    requires Kept(s)
    ensures Kept(StepStage(s, run, ids, rows, environment, scheduled))
  {
    var s' := StepStage(s, run, ids, rows, environment, scheduled);
    if CanStage(s, run, ids, rows) {
      assert forall other | other in s.staged :: s'.staged[other] == s.staged[other];
      forall task | Dead(s, task) ensures Dead(s', task) { }
      HandsStay(s, s');
      ClaimsStay(s, s');
      forall task | Known(s', task) ensures Ended(s'.db, task) || Live(s', task) {
        assert Promised(s'.staged[run]) == [];
        assert Known(s, task);
        assert Live(s, task) ==> Live(s', task);
      }
    }
  }

  lemma EnqueueMovesForward(s: State, run: RunId, reply: Reply)
    requires IdsOk(s) && Staging(s)
    ensures Forward(s, StepEnqueueStaged(s, run, reply)) && IdsOk(StepEnqueueStaged(s, run, reply))
  {
    var s' := StepEnqueueStaged(s, run, reply);
    if CanEnqueue(s, run) {
      assert CreationOk(s, run) && s.staged[run].ids[s.staged[run].enqueued] in s.staged[run].ids;
      forall task | IsStaged(s'.staged, task) ensures IsStaged(s.staged, task) {
        var other :| other in s'.staged && task in s'.staged[other].ids;
        assert task in s.staged[other].ids;
      }
    }
  }

  // A task that the enqueue makes known is on the stream.
  lemma EnqueuedIsLive(s: State, run: RunId, reply: Reply, task: TaskId)
    requires CanEnqueue(s, run) && Safe(s, Create(run, EnqueueStaged(reply)))
    requires Known(StepEnqueueStaged(s, run, reply), task) && !Known(s, task)
    ensures Live(StepEnqueueStaged(s, run, reply), task)
  {
    var s' := StepEnqueueStaged(s, run, reply);
    var (c, next) := (s.staged[run], s.staged[run].ids[s.staged[run].enqueued]);
    var other :| other in s'.staged && task in Promised(s'.staged[other]);
    assert other == run && Took(reply);
    assert Promised(s'.staged[run]) == Promised(c) + [next];
    assert task == next;
  }

  lemma EnqueueKeepsLive(s: State, run: RunId, reply: Reply, task: TaskId)
    requires Live(s, task)
    ensures Live(StepEnqueueStaged(s, run, reply), task)
  {
    var s' := StepEnqueueStaged(s, run, reply);
    assert InHand(s, task) ==> InHand(s', task);
  }

  lemma EnqueueKeepsTasks(s: State, run: RunId, reply: Reply)
    requires Kept(s) && Staging(s) && Safe(s, Create(run, EnqueueStaged(reply)))
    ensures Kept(StepEnqueueStaged(s, run, reply))
  {
    var s' := StepEnqueueStaged(s, run, reply);
    if CanEnqueue(s, run) {
      EnqueueMovesForward(s, run, reply);
      HandsStay(s, s');
      ClaimsStay(s, s');
      forall task | Known(s', task) ensures Ended(s'.db, task) || Live(s', task) {
        if !Known(s, task) {
          EnqueuedIsLive(s, run, reply, task);
        } else if Live(s, task) {
          EnqueueKeepsLive(s, run, reply, task);
        }
      }
    }
  }

  lemma CommitMovesForward(s: State, run: RunId)
    requires IdsOk(s) && Staging(s)
    ensures Forward(s, StepCommit(s, run)) && IdsOk(StepCommit(s, run))
  {
    var s' := StepCommit(s, run);
    if s' != s {
      assert CreationOk(s, run);
      NewRowsFresh(s, run);
      forall task | Dead(s, task) ensures Dead(s', task) {
        assert task !in s.staged[run].ids;
      }
    }
  }

  lemma CommitKnowsNothingNew(s: State, run: RunId, task: TaskId)
    requires Staging(s) && Known(StepCommit(s, run), task)
    ensures Known(s, task)
  {
    if StepCommit(s, run) != s && task !in s.db.tasks {
      assert CreationOk(s, run);
      NewRowsFresh(s, run);
      var c := s.staged[run];
      assert task in c.ids ==> task in Promised(c);
    }
  }

  lemma CommitKeepsTasks(s: State, run: RunId)
    requires Kept(s) && Staging(s)
    ensures Kept(StepCommit(s, run))
  {
    var s' := StepCommit(s, run);
    CommitMovesForward(s, run);
    HandsStay(s, s');
    ClaimsStay(s, s');
    forall task | Known(s', task) ensures Ended(s'.db, task) || Live(s', task) {
      CommitKnowsNothingNew(s, run, task);
      assert InHand(s, task) ==> InHand(s', task);
    }
  }

  lemma AbandonKeepsTasks(s: State, run: RunId)
    requires Kept(s)
    ensures Kept(StepCreator(s, run, Abandon))
  {
    var s' := StepCreator(s, run, Abandon);
    HandsStay(s, s');
    ClaimsStay(s, s');
    forall task | Known(s', task) ensures Ended(s'.db, task) || Live(s', task) {
      assert Known(s, task);
      assert Live(s, task) ==> Live(s', task);
    }
  }

  // ---------------------------------------------------------------- a worker's cycle

  lemma OneHandMoves(s: State, s': State, w: WorkerId, phase: Phase)
    requires Forward(s, s') && HandsOk(s) && s'.workers == s.workers[w := phase] && PhaseOk(s', phase)
    ensures HandsOk(s')
  {
    forall other | other in s'.workers && other != w ensures PhaseOk(s', s'.workers[other]) {
      PhaseStays(s, s', s.workers[other]);
    }
  }

  lemma DeliveredEntriesOk(s: State, w: WorkerId, count: nat)
    requires IdsOk(s)
    ensures var stream := s.stream.ReadGroup(Worker(w), count, s.now);
            forall e | e in s.stream.Entries(count) ::
              e.id < stream.next && e.task in s.used && e.id in stream.pending && stream.pending[e.id].task == e.task
  {
  }

  lemma ConsumeMovesForward(s: State, w: WorkerId, count: nat)
    requires IdsOk(s)
    ensures Forward(s, StepConsume(s, w, count)) && IdsOk(StepConsume(s, w, count))
  {
    var s' := StepConsume(s, w, count);
    forall task | task in s'.stream.queue ensures task in s'.used {
      assert task in s.stream.queue;
    }
  }

  lemma DeliveryKeepsLive(s: State, s': State, w: WorkerId, count: nat, task: TaskId)
    requires IdsOk(s) && s'.stream == s.stream.ReadGroup(Worker(w), count, s.now)
    requires s'.covered == s.covered && s'.retry == s.retry && s'.sweep == s.sweep
    requires Live(s, task)
    ensures Live(s', task)
  {
    var n := s.stream.Batch(count);
    if task in s.stream.queue {
      var i :| 0 <= i < |s.stream.queue| && s.stream.queue[i] == task;
      if i < n {
        assert s.stream.next + i in s'.stream.pending;
      } else {
        assert s'.stream.queue[i - n] == task;
      }
    } else if InHand(s, task) {
      var id :| id in s.stream.pending && s.stream.pending[id].task == task && id !in s.covered;
      assert id in s'.stream.pending && s'.stream.pending[id] == s.stream.pending[id];
    }
  }

  lemma ConsumeKeepsTasks(s: State, w: WorkerId, count: nat)
    requires Kept(s)
    ensures Kept(StepConsume(s, w, count))
  {
    var s' := StepConsume(s, w, count);
    if s' != s {
      ConsumeMovesForward(s, w, count);
      DeliveredEntriesOk(s, w, count);
      OneHandMoves(s, s', w, s'.workers[w]);
      ClaimsStay(s, s');
      forall task | Known(s', task) ensures Ended(s'.db, task) || Live(s', task) {
        assert Known(s, task);
        if Live(s, task) { DeliveryKeepsLive(s, s', w, count, task); }
      }
    }
  }

  // A slot's progress changes; the stream does not.
  lemma SlotKeepsHands(s: State, s': State, w: WorkerId, i: nat, progress: Progress)
    requires HandsOk(s) && Forward(s, s') && HasSlot(s, w, i)
    requires s'.workers == SetSlot(s, w, i, progress).workers
    requires Spent(progress) ==> Settled(s', SlotAt(s, w, i).entry)
    ensures HandsOk(s')
  {
    var phase := s'.workers[w];
    PhaseStays(s, s', s.workers[w]);
    forall slot | slot in phase.slots
      ensures EntryOk(s', slot.entry) && (Spent(slot.progress) ==> Settled(s', slot.entry))
    {
      var j :| 0 <= j < |phase.slots| && phase.slots[j] == slot;
      assert s.workers[w].slots[j] in s.workers[w].slots;
    }
    OneHandMoves(s, s', w, phase);
  }

  lemma HeldEntryOk(s: State, w: WorkerId, i: nat)
    requires HandsOk(s) && HasSlot(s, w, i)
    ensures EntryOk(s, SlotAt(s, w, i).entry)
  {
    assert PhaseOk(s, s.workers[w]);
  }

  // The step hands a task on to the retry set, or does nothing to the references.
  lemma LiveByRetry(s: State, s': State, id: EntryId, task: TaskId)
    requires s'.stream == s.stream && s'.sweep == s.sweep
    requires s.retry.Keys <= s'.retry.Keys
    requires s'.covered == s.covered ||
             (s'.covered == s.covered + {id} && (id in s.stream.pending ==> s.stream.pending[id].task in s'.retry))
    requires Live(s, task)
    ensures Live(s', task)
  {
    if task !in s'.retry && InHand(s, task) {
      var other :| other in s.stream.pending && s.stream.pending[other].task == task && other !in s.covered;
      assert other !in s'.covered;
    }
  }

  lemma LoadKeepsTasks(s: State, w: WorkerId, i: nat)
    requires Kept(s) && Safe(s, Work(w, Load(i)))
    ensures Kept(StepLoad(s, w, i))
  {
    var s' := StepLoad(s, w, i);
    if s' != s {
      var entry := SlotAt(s, w, i).entry;
      HeldEntryOk(s, w, i);
      assert entry.task !in s.db.tasks ==> Dead(s', entry.task);
      SlotKeepsHands(s, s', w, i, s'.workers[w].slots[i].progress);
      ClaimsStay(s, s');
      forall task | Known(s', task) ensures Ended(s'.db, task) || Live(s', task) {
        assert Known(s, task);
        if Live(s, task) { LiveByRetry(s, s', entry.id, task); }
      }
    }
  }

  lemma ExecuteKeepsTasks(s: State, w: WorkerId, i: nat, report: Report, at: Time)
    requires Kept(s)
    ensures Kept(StepExecute(s, w, i, report, at))
  {
    var s' := StepExecute(s, w, i, report, at);
    if HasLoaded(s, w, i) {
      var entry := SlotAt(s, w, i).entry;
      HeldEntryOk(s, w, i);
      SlotKeepsHands(s, s', w, i, s'.workers[w].slots[i].progress);
      ClaimsStay(s, s');
      forall task | Known(s', task) ensures Ended(s'.db, task) || Live(s', task) {
        assert Known(s, task);
        if Live(s, task) { LiveByRetry(s, s', entry.id, task); }
      }
    }
  }

  lemma DeferKeepsTasks(s: State, w: WorkerId, i: nat, at: Time)
    requires Kept(s)
    ensures Kept(StepDefer(s, w, i, at))
  {
    var s' := StepDefer(s, w, i, at);
    if HasLoaded(s, w, i) {
      var entry := SlotAt(s, w, i).entry;
      HeldEntryOk(s, w, i);
      SlotKeepsHands(s, s', w, i, Done(None));
      ClaimsStay(s, s');
      forall task | Known(s', task) ensures Ended(s'.db, task) || Live(s', task) {
        assert Known(s, task);
        if Live(s, task) { LiveByRetry(s, s', entry.id, task); }
      }
    }
  }

  lemma RaiseKeepsTasks(s: State, w: WorkerId, i: nat, left: Residue)
    requires Kept(s)
    ensures Kept(StepRaise(s, w, i, left))
  {
    var s' := StepRaise(s, w, i, left);
    if s' != s {
      HeldEntryOk(s, w, i);
      SlotKeepsHands(s, s', w, i, Raised);
      ClaimsStay(s, s');
      forall task | Known(s', task) ensures Ended(s'.db, task) || Live(s', task) {
        assert Known(s, task);
        if Live(s, task) { LiveByRetry(s, s', 0, task); }
      }
    }
  }

  lemma {:induction false} ToAckFromSlots(slots: seq<Slot>)
    ensures forall e | e in ToAck(slots) :: exists slot | slot in slots :: slot.entry == e && slot.progress.Done?
    decreases |slots|
  {
    if slots != [] {
      var front, last := slots[..|slots| - 1], slots[|slots| - 1];
      ToAckFromSlots(front);
      forall e | e in ToAck(slots) ensures exists slot | slot in slots :: slot.entry == e && slot.progress.Done? {
        if e in ToAck(front) {
          var slot :| slot in front && slot.entry == e && slot.progress.Done?;
          assert slot in slots;
        } else {
          assert last in slots && last.entry == e;
        }
      }
    }
  }

  // After a commit every entry to be acknowledged is settled or its task has ended.
  lemma CommittedEntriesAreDone(s: State, s': State, slots: seq<Slot>, since: nat)
    requires Forward(s, s') && PhaseOk(s, Gathering(slots, since))
    requires forall slot | slot in slots :: SlotOk(s.db, slot)
    requires Outcomes(slots) == [] || (Referenced(s.db, Outcomes(slots)) && s'.db == Written(s.db, Outcomes(slots)))
    ensures PhaseOk(s', Acking(ToAck(slots), since))
  {
    ToAckFromSlots(slots);
    OutcomesFromSlots(slots);
    forall e | e in ToAck(slots) ensures EntryOk(s', e) && (Settled(s', e) || Ended(s'.db, e.task)) {
      var slot :| slot in slots && slot.entry == e && slot.progress.Done?;
      PhaseStays(s, s', Gathering(slots, since));
      if !Spent(slot.progress) {
        var o := slot.progress.outcome.value;
        TerminalOutcomeEnds(Outcomes(slots), o);
        TerminalCountAppend(s.db.logs, Map(BuildLog, Outcomes(slots)), o.taskId);
      }
    }
  }

  lemma WriteMovesForward(s: State, w: WorkerId, reply: Reply)
    requires Wellformed(s)
    ensures Forward(s, StepWrite(s, w, reply))
  {
    WorkersWriteBatches(s, w, Write(reply));
    WorkerKeepsTables(s, w, Write(reply));
    var db := StepWrite(s, w, reply).db;
    assert db.tasks.Keys == s.db.tasks.Keys;
    if db != s.db {
      CompletionIsForever(s.db, Outcomes(PhaseOf(s, w).slots));
    }
  }

  lemma WriteKeepsTasks(s: State, w: WorkerId, reply: Reply)
    requires Kept(s) && Wellformed(s)
    ensures Kept(StepWrite(s, w, reply))
  {
    var s' := StepWrite(s, w, reply);
    if s' != s {
      var phase := PhaseOf(s, w);
      WriteMovesForward(s, w, reply);
      WorkerKeepsTables(s, w, Write(reply));
      assert PhaseOk(s, phase);
      if s'.workers[w].Acking? {
        CommittedEntriesAreDone(s, s', phase.slots, phase.since);
      }
      OneHandMoves(s, s', w, s'.workers[w]);
      ClaimsStay(s, s');
      forall task | Known(s', task) ensures Ended(s'.db, task) || Live(s', task) {
        assert Known(s, task);
        if Live(s, task) { LiveByRetry(s, s', 0, task); }
      }
    }
  }

  // Acknowledging done entries takes no live reference of an open task away.
  lemma AckKeepsLive(s: State, s': State, entries: seq<StreamEntry>, task: TaskId)
    requires PhaseOk(s, Acking(entries, 0)) && Known(s, task) && !Ended(s.db, task) && Live(s, task)
    requires s'.stream == s.stream.Ack(Ids(entries))
    requires s'.covered == s.covered && s'.retry == s.retry && s'.sweep == s.sweep
    ensures Live(s', task)
  {
    if InHand(s, task) && task !in s.stream.queue && task !in s.retry && !InSweep(s, task) {
      var id :| id in s.stream.pending && s.stream.pending[id].task == task && id !in s.covered;
      if id in Ids(entries) {
        var e :| e in entries && e.id == id;
        assert EntryOk(s, e) && (Settled(s, e) || Ended(s.db, e.task));
        KnownIsNotDead(s, task);
      }
      assert id in s'.stream.pending;
    }
  }

  lemma KnownIsNotDead(s: State, task: TaskId)
    requires Known(s, task)
    ensures !Dead(s, task)
  {
    if run :| run in s.staged && task in Promised(s.staged[run]) {
      assert task in s.staged[run].ids;
    }
  }

  lemma AckBatchKeepsTasks(s: State, w: WorkerId, reply: Reply)
    requires Kept(s)
    ensures Kept(StepAckBatch(s, w, reply))
  {
    var s' := StepAckBatch(s, w, reply);
    if s' != s {
      var entries := PhaseOf(s, w).entries;
      assert PhaseOk(s, s.workers[w]);
      OneHandMoves(s, s', w, Idle);
      ClaimsStay(s, s');
      forall task | Known(s', task) ensures Ended(s'.db, task) || Live(s', task) {
        assert Known(s, task);
        if !Ended(s.db, task) {
          if Took(reply) { AckKeepsLive(s, s', entries, task); } else { LiveByRetry(s, s', 0, task); }
        }
      }
    }
  }

  // A worker may die at any moment.
  lemma CrashKeepsTasks(s: State, w: WorkerId)
    requires Kept(s)
    ensures Kept(SetPhase(s, w, Idle))
  {
    var s' := SetPhase(s, w, Idle);
    OneHandMoves(s, s', w, Idle);
    ClaimsStay(s, s');
    forall task | Known(s', task) ensures Ended(s'.db, task) || Live(s', task) {
      assert Known(s, task);
      if Live(s, task) { LiveByRetry(s, s', 0, task); }
    }
  }

  // ---------------------------------------------------------------- the retry sweeper

  lemma SweeperKeepsTasks(s: State, a: SweepAction)
    requires Kept(s) && Safe(s, Sweep(a))
    ensures Kept(StepSweeper(s, a))
  {
    match a
    case ReadDue(at, limit, ids) => ReadDueKeepsTasks(s, at, limit, ids);
    case RemoveDue(ok) => RemoveDueKeepsTasks(s, ok);
    case Reenqueue(reply, at, rescheduled) => ReenqueueKeepsTasks(s, reply, at, rescheduled);
  }

  lemma ReadDueKeepsTasks(s: State, at: Time, limit: nat, ids: seq<TaskId>)
    requires Kept(s)
    ensures Kept(StepReadDue(s, at, limit, ids))
  {
    var s' := StepReadDue(s, at, limit, ids);
    if s' != s {
      assert forall task | task in ids :: task in Members(ids);
      HandsStay(s, s');
      ClaimsStay(s, s');
      forall task | Known(s', task) ensures Ended(s'.db, task) || Live(s', task) {
        assert Known(s, task);
        assert Live(s, task) ==> Live(s', task);
      }
    }
  }

  lemma RemoveDueKeepsTasks(s: State, ok: bool)
    requires Kept(s)
    ensures Kept(StepRemoveDue(s, ok))
  {
    var s' := StepRemoveDue(s, ok);
    if s' != s {
      HandsStay(s, s');
      ClaimsStay(s, s');
      forall task | Known(s', task) ensures Ended(s'.db, task) || Live(s', task) {
        assert Known(s, task);
        assert Live(s, task) ==> Live(s', task);
      }
    }
  }

  lemma ReenqueueKeepsTasks(s: State, reply: Reply, at: Time, rescheduled: bool)
    requires Kept(s) && Safe(s, Sweep(Reenqueue(reply, at, rescheduled)))
    ensures Kept(StepReenqueue(s, reply, at, rescheduled))
  {
    var s' := StepReenqueue(s, reply, at, rescheduled);
    if s' != s {
      var ids := s.sweep.ids;
      assert ids[0] in ids;
      assert forall task | task in ids :: task == ids[0] || task in ids[1..];
      HandsStay(s, s');
      ClaimsStay(s, s');
      forall task | Known(s', task) ensures Ended(s'.db, task) || Live(s', task) {
        assert Known(s, task);
        assert Live(s, task) ==> Live(s', task);
      }
    }
  }

  // ---------------------------------------------------------------- the reclaim sweeper

  lemma ReclaimerKeepsTasks(s: State, a: ReclaimAction)
    requires Kept(s)
    ensures Kept(StepReclaimer(s, a))
  {
    match a
    case ClaimStale(ids, minIdle) => ClaimKeepsTasks(s, ids, minIdle);
    case ReclaimEnqueue(reply) => ReclaimEnqueueKeepsTasks(s, reply);
    case ReclaimAck(reply) => ReclaimAckKeepsTasks(s, reply);
  }

  lemma ClaimKeepsTasks(s: State, ids: seq<EntryId>, minIdle: nat)
    requires Kept(s)
    ensures Kept(StepClaimStale(s, ids, minIdle))
  {
    var s' := StepClaimStale(s, ids, minIdle);
    if s' != s {
      HandsStay(s, s');
      forall c | c in s'.claimed ensures EntryOk(s', c.entry) && !c.enqueued {
        assert s.stream.Stale(c.entry.id, minIdle, s.now);
      }
      forall task | Known(s', task) ensures Ended(s'.db, task) || Live(s', task) {
        assert Known(s, task);
        if InHand(s, task) {
          var id :| id in s.stream.pending && s.stream.pending[id].task == task && id !in s.covered;
          assert id in s'.stream.pending && s'.stream.pending[id].task == task;
        }
      }
    }
  }

  // The fresh entry exists before the old one stops counting.
  lemma ReclaimEnqueueKeepsTasks(s: State, reply: Reply)
    requires Kept(s)
    ensures Kept(StepReclaimEnqueue(s, reply))
  {
    var s' := StepReclaimEnqueue(s, reply);
    if s' != s {
      var entry := s.claimed[0].entry;
      assert s.claimed[0] in s.claimed;
      HandsStay(s, s');
      forall c | c in s'.claimed ensures EntryOk(s', c.entry) && (c.enqueued ==> c.entry.id in s'.covered) {
        assert c in s.claimed || c == ClaimedEntry(entry, true);
      }
      forall task | Known(s', task) ensures Ended(s'.db, task) || Live(s', task) {
        assert Known(s, task);
        if InHand(s, task) && task != entry.task {
          var id :| id in s.stream.pending && s.stream.pending[id].task == task && id !in s.covered;
          assert id != entry.id;
        }
      }
    }
  }

  lemma ReclaimAckKeepsTasks(s: State, reply: Reply)
    requires Kept(s)
    ensures Kept(StepReclaimAck(s, reply))
  {
    var s' := StepReclaimAck(s, reply);
    if s' != s {
      assert s.claimed[0] in s.claimed;
      HandsStay(s, s');
      ClaimsStay(s, s');
      forall task | Known(s', task) ensures Ended(s'.db, task) || Live(s', task) {
        assert Known(s, task);
        if InHand(s, task) {
          var id :| id in s.stream.pending && s.stream.pending[id].task == task && id !in s.covered;
          assert id in s'.stream.pending;
        }
      }
    }
  }

  // ---------------------------------------------------------------- every safe run

  lemma RestartKeepsTasks(s: State)
    requires Kept(s) && Safe(s, RestartBackend)
    ensures Kept(Step(s, RestartBackend))
  {
    var s' := Step(s, RestartBackend);
    HandsStay(s, s');
    ClaimsStay(s, s');
    forall task | Known(s', task) ensures Ended(s'.db, task) || Live(s', task) {
      assert Known(s, task);
      assert InHand(s, task) ==> InHand(s', task);
    }
  }

  lemma TickKeepsTasks(s: State, ms: nat)
    requires Kept(s)
    ensures Kept(Step(s, Tick(ms)))
  {
    var s' := Step(s, Tick(ms));
    HandsStay(s, s');
    ClaimsStay(s, s');
    forall task | Known(s', task) ensures Ended(s'.db, task) || Live(s', task) {
      assert Known(s, task);
      assert InHand(s, task) ==> InHand(s', task);
    }
  }

  lemma {:induction false} WorkerKeepsTasks(s: State, w: WorkerId, a: WorkerAction)
    requires Kept(s) && Wellformed(s) && Safe(s, Work(w, a))
    ensures Kept(StepWorker(s, w, a))
  {
    match a
    case Consume(count) => ConsumeKeepsTasks(s, w, count);
    case Load(i) => LoadKeepsTasks(s, w, i);
    case Execute(i, report, at) => ExecuteKeepsTasks(s, w, i, report, at);
    case Defer(i, at) => DeferKeepsTasks(s, w, i, at);
    case Raise(i, left) => RaiseKeepsTasks(s, w, i, left);
    case Write(reply) => WriteKeepsTasks(s, w, reply);
    case AckBatch(reply) => AckBatchKeepsTasks(s, w, reply);
    case Crash => CrashKeepsTasks(s, w);
  }

  lemma CreatorKeepsTasks(s: State, run: RunId, a: CreatorAction)
    requires Kept(s) && Wellformed(s) && Safe(s, Create(run, a))
    ensures Kept(StepCreator(s, run, a))
  {
    match a
    case Stage(ids, rows, environment, scheduled) => StageKeepsTasks(s, run, ids, rows, environment, scheduled);
    case EnqueueStaged(reply) => EnqueueKeepsTasks(s, run, reply);
    case Commit => CommitKeepsTasks(s, run);
    case Abandon => AbandonKeepsTasks(s, run);
  }

  lemma {:induction false} StepKeepsTasks(s: State, a: Action)
    requires Kept(s) && Wellformed(s) && Safe(s, a)
    ensures Kept(Step(s, a))
  {
    match a
    case Create(run, creating) => CreatorKeepsTasks(s, run, creating);
    case Work(w, working) => WorkerKeepsTasks(s, w, working);
    case Sweep(sweeping) => SweeperKeepsTasks(s, sweeping);
    case Reclaim(reclaiming) => ReclaimerKeepsTasks(s, reclaiming);
    case RestartBackend => RestartKeepsTasks(s);
    case Tick(ms) => TickKeepsTasks(s, ms);
  }

  lemma {:induction false} SafeRunsAreKept(actions: seq<Action>)
    requires SafeRun(actions)
    ensures Kept(Run(INITIAL, actions))
    decreases |actions|
  {
    if actions != [] {
      var front := actions[..|actions| - 1];
      SafeRunsAreKept(front);
      RunsAreWellformed(front);
      StepKeepsTasks(Run(INITIAL, front), actions[|actions| - 1]);
    }
  }

  // In every safe run, every committed task has ended or can still be brought to a worker.
  lemma {:induction false} NoTaskIsLost(actions: seq<Action>, task: TaskId)
    requires SafeRun(actions)
    requires task in Run(INITIAL, actions).db.tasks
    ensures var s := Run(INITIAL, actions); Ended(s.db, task) || Live(s, task)
  {
    SafeRunsAreKept(actions);
    assert Known(Run(INITIAL, actions), task);
  }
}
