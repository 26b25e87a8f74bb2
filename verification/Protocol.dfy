// The at-least-once task protocol as one state machine.
module Protocol {
  import opened Wrappers
  import opened Records
  import opened Sequences
  import opened ResultWriter
  import opened RetryQueue
  import opened RunContext
  import opened Streams
  import opened TaskProcessor

  // Workers, the two sweepers and run creation take turns in any order; every step is one Redis
  // command, one transaction, or the death of a process. A step that is not enabled changes
  // nothing, so every sequence of actions is a run.

  // ---------------------------------------------------------------- state

  datatype Progress =
    | Delivered
    | Loaded(row: TaskRow)                  // process_task has read its row
    | Raised                                // an unexpected exception: to be left unacknowledged
    | Done(outcome: Option<TaskOutcome>)    // to be acknowledged

  datatype Slot = Slot(entry: StreamEntry, progress: Progress)

  // One cycle of the consume loop, begun at `since`.
  datatype Phase =
    | Idle
    | Gathering(slots: seq<Slot>, since: nat)
    | Acking(entries: seq<StreamEntry>, since: nat)

  datatype SweepPhase = Resting | Reading(ids: seq<TaskId>) | Moving(ids: seq<TaskId>)

  datatype ClaimedEntry = ClaimedEntry(entry: StreamEntry, enqueued: bool)

  // A run whose rows are flushed but not committed, with the number of its tasks enqueued. An
  // exception while enqueueing rolls back a manual run; the cron sweep catches it and still
  // commits its session at the end (`broken`).
  datatype Creation = Creation(
    run: RunRow, ids: seq<TaskId>, rows: seq<TaskRow>, scheduled: bool, enqueued: nat, broken: bool)

  datatype State = State(
    db: Tables,
    staged: map<RunId, Creation>,
    stream: Stream,
    retry: Scores,
    contexts: Hashes,
    workers: map<WorkerId, Phase>,
    sweep: SweepPhase,
    claimed: seq<ClaimedEntry>,
    now: nat,
    // Bookkeeping for the proofs; no action depends on it, except that a new task id is new.
    covered: set<EntryId>,        // entries whose task has been handed on to a later reference
    used: set<TaskId>,            // every task id ever created
    merges: seq<MergeEvent>,      // the context merges so far
    processed: seq<EntryId>)      // the entries given to process_task so far

  const INITIAL := State(EMPTY_TABLES, map[], EMPTY_STREAM, map[], map[], map[], Resting, [], 0, {}, {}, [], [])

  function PhaseOf(s: State, w: WorkerId): Phase {
    if w in s.workers then s.workers[w] else Idle
  }

  // ---------------------------------------------------------------- actions

  datatype CreatorAction =
    | Stage(ids: seq<TaskId>, rows: seq<TaskRow>, environment: Variables, scheduled: bool)
    | EnqueueStaged(reply: Reply)
    | Commit
    | Abandon

  // What an attempt has done in Redis before an exception: nothing, the ZADD of its retry, or the
  // HSET of its variables.
  datatype Residue =
    | Nothing
    | Scheduled(at: Time)
    | Merged(report: Report)

  datatype WorkerAction =
    | Consume(count: nat)
    | Load(i: nat)
    | Execute(i: nat, report: Report, at: Time)
    | Defer(i: nat, at: Time)
    | Raise(i: nat, left: Residue)
    | Write(reply: Reply)
    | AckBatch(reply: Reply)
    | Crash

  datatype SweepAction =
    | ReadDue(at: Time, limit: nat, ids: seq<TaskId>)
    | RemoveDue(ok: bool)
    | Reenqueue(reply: Reply, at: Time, rescheduled: bool)

  datatype ReclaimAction =
    | ClaimStale(ids: seq<EntryId>, minIdle: nat)
    | ReclaimEnqueue(reply: Reply)
    | ReclaimAck(reply: Reply)

  datatype Action =
    | Create(run: RunId, creating: CreatorAction)
    | Work(w: WorkerId, working: WorkerAction)
    | Sweep(sweeping: SweepAction)
    | Reclaim(reclaiming: ReclaimAction)
    | RestartBackend
    | Tick(ms: nat)

  // ---------------------------------------------------------------- run creation

  predicate FreshRow(row: TaskRow, run: RunId) {
    row.runId == run && row.status == Pending && row.retryCount == 0 && row.nextRetryAt == None
  }

  predicate CanStage(s: State, run: RunId, ids: seq<TaskId>, rows: seq<TaskRow>) {
    && run !in s.db.runs && run !in s.staged
    && |ids| == |rows| > 0 && Distinct(ids)
    && (forall id | id in ids :: id !in s.used)
    && forall row | row in rows :: FreshRow(row, run)
  }

  function StepStage(s: State, run: RunId, ids: seq<TaskId>, rows: seq<TaskRow>,
                        environment: Variables, scheduled: bool): State
  {
    if !CanStage(s, run, ids, rows) then s
    else
      var row := RunRow(RunRunning, |ids|, 0, 0, environment);
      s.(staged := s.staged[run := Creation(row, ids, rows, scheduled, 0, false)], used := s.used + Members(ids))
  }

  function StepEnqueueStaged(s: State, run: RunId, reply: Reply): State {
    if run !in s.staged || s.staged[run].broken || s.staged[run].enqueued >= |s.staged[run].ids| then s
    else
      var c := s.staged[run];
      s.(stream := if Took(reply) then s.stream.Add(c.ids[c.enqueued]) else s.stream,
         staged := if reply.Replies? then s.staged[run := c.(enqueued := c.enqueued + 1)]
                   else if c.scheduled then s.staged[run := c.(broken := true)]
                   else s.staged - {run})
  }

  function NewRows(c: Creation): map<TaskId, TaskRow> {
    map i | 0 <= i < |c.ids| && i < |c.rows| && c.ids[i] !in c.ids[..i] :: c.ids[i] := c.rows[i]
  }

  // All tasks are enqueued, or the cron sweep has caught the exception of the one that was not.
  predicate CanCommit(c: Creation) {
    c.enqueued >= |c.ids| || c.broken
  }

  function StepCommit(s: State, run: RunId): State {
    if run !in s.staged || !CanCommit(s.staged[run]) then s
    else
      var c := s.staged[run];
      s.(staged := s.staged - {run},
         db := s.db.(tasks := s.db.tasks + NewRows(c), runs := s.db.runs[run := c.run]))
  }

  // ---------------------------------------------------------------- a worker's cycle

  function SetPhase(s: State, w: WorkerId, phase: Phase): State {
    s.(workers := s.workers[w := phase])
  }

  function StepConsume(s: State, w: WorkerId, count: nat): State {
    var entries := s.stream.Entries(count);
    if !PhaseOf(s, w).Idle? || entries == [] then s
    else
      var slots := Map((e: StreamEntry) => Slot(e, Delivered), entries);
      SetPhase(s, w, Gathering(slots, s.now)).(stream := s.stream.ReadGroup(Worker(w), count, s.now))
  }

  predicate HasSlot(s: State, w: WorkerId, i: nat) {
    PhaseOf(s, w).Gathering? && i < |PhaseOf(s, w).slots|
  }

  function SlotAt(s: State, w: WorkerId, i: nat): Slot
    requires HasSlot(s, w, i)
  {
    PhaseOf(s, w).slots[i]
  }

  function SetSlot(s: State, w: WorkerId, i: nat, progress: Progress): State
    requires HasSlot(s, w, i)
  {
    var phase := PhaseOf(s, w);
    SetPhase(s, w, phase.(slots := phase.slots[i := phase.slots[i].(progress := progress)]))
  }

  // A task whose row cannot be seen is acknowledged without an outcome.
  function StepLoad(s: State, w: WorkerId, i: nat): State {
    if !HasSlot(s, w, i) || !SlotAt(s, w, i).progress.Delivered? then s
    else
      var entry := SlotAt(s, w, i).entry;
      var progress := if entry.task in s.db.tasks then Loaded(s.db.tasks[entry.task]) else Done(None);
      SetSlot(s, w, i, progress).(processed := s.processed + [entry.id])
  }

  predicate HasLoaded(s: State, w: WorkerId, i: nat) {
    HasSlot(s, w, i) && SlotAt(s, w, i).progress.Loaded?
  }

  function StepExecute(s: State, w: WorkerId, i: nat, report: Report, at: Time): State {
    if !HasLoaded(s, w, i) then s
    else
      var slot := SlotAt(s, w, i);
      var row := slot.progress.row;
      var outcome := Conclude(slot.entry.task, row, w, report, at);
      SetSlot(s, w, i, Done(Some(outcome))).(
        retry := if outcome.newStatus == Retrying
                 then s.retry[slot.entry.task := outcome.nextRetryAt.value] else s.retry,
        covered := if outcome.newStatus == Retrying then s.covered + {slot.entry.id} else s.covered,
        contexts := if outcome.newStatus == Completed
                    then Merge(s.contexts, row.runId, row.dataRow, report.variables) else s.contexts,
        merges := if outcome.newStatus == Completed
                  then s.merges + [MergeEvent(row.runId, row.dataRow, report.variables)] else s.merges)
  }

  function StepDefer(s: State, w: WorkerId, i: nat, at: Time): State {
    if !HasLoaded(s, w, i) then s
    else
      var entry := SlotAt(s, w, i).entry;
      SetSlot(s, w, i, Done(None)).(retry := s.retry[entry.task := at + RATE_LIMITED_DELAY],
                                    covered := s.covered + {entry.id})
  }

  // Any other exception, before or after the row was read. It may come after the retry of a failed
  // attempt was scheduled, or after the variables of a successful one were merged.
  function StepRaise(s: State, w: WorkerId, i: nat, left: Residue): State {
    if !HasSlot(s, w, i) || Resolved(SlotAt(s, w, i)) then s
    else
      var (entry, progress) := (SlotAt(s, w, i).entry, SlotAt(s, w, i).progress);
      SetSlot(s, w, i, Raised).(
        retry := if left.Scheduled? && progress.Loaded? then s.retry[entry.task := left.at] else s.retry,
        contexts := if MergesThenRaises(progress, left)
                    then Merge(s.contexts, progress.row.runId, progress.row.dataRow, left.report.variables)
                    else s.contexts,
        merges := if MergesThenRaises(progress, left)
                  then s.merges + [MergeEvent(progress.row.runId, progress.row.dataRow, left.report.variables)]
                  else s.merges)
  }

  predicate MergesThenRaises(progress: Progress, left: Residue) {
    progress.Loaded? && left.Merged? && left.report.reasons == []
  }

  predicate Resolved(slot: Slot) {
    slot.progress.Raised? || slot.progress.Done?
  }

  predicate AllResolved(slots: seq<Slot>) {
    forall slot | slot in slots :: Resolved(slot)
  }

  function Outcomes(slots: seq<Slot>): seq<TaskOutcome> {
    if slots == [] then []
    else
      var last := slots[|slots| - 1];
      Outcomes(slots[..|slots| - 1]) +
      if last.progress.Done? && last.progress.outcome.Some? then [last.progress.outcome.value] else []
  }

  function ToAck(slots: seq<Slot>): seq<StreamEntry> {
    if slots == [] then []
    else
      var last := slots[|slots| - 1];
      ToAck(slots[..|slots| - 1]) + if last.progress.Done? then [last.entry] else []
  }

  function StepWrite(s: State, w: WorkerId, reply: Reply): State {
    var phase := PhaseOf(s, w);
    if !phase.Gathering? || !AllResolved(phase.slots) then s
    else
      var (outcomes, entries) := (Outcomes(phase.slots), ToAck(phase.slots));
      var toAck := if entries == [] then Idle else Acking(entries, phase.since);
      var written := WriteOutcome(s.db, outcomes);
      SetPhase(s, w, if outcomes == [] || (written.Ok? && reply.Replies?) then toAck else Idle).(
        db := if outcomes != [] && written.Ok? && Took(reply) then written.value else s.db)
  }

  function StepAckBatch(s: State, w: WorkerId, reply: Reply): State {
    var phase := PhaseOf(s, w);
    if !phase.Acking? then s
    else
      SetPhase(s, w, Idle).(stream := if Took(reply) then s.stream.Ack(Ids(phase.entries)) else s.stream)
  }

  // ---------------------------------------------------------------- the retry sweeper

  // `ids` is the answer to ZRANGEBYSCORE.
  function StepReadDue(s: State, at: Time, limit: nat, ids: seq<TaskId>): State {
    if !s.sweep.Resting? || ids == [] || !LowestDue(s.retry, at, limit, ids) then s else s.(sweep := Reading(ids))
  }

  function StepRemoveDue(s: State, ok: bool): State {
    if !s.sweep.Reading? then s
    else
      s.(sweep := if ok then Moving(s.sweep.ids) else Resting,
         retry := if ok then Remove(s.retry, s.sweep.ids) else s.retry)
  }

  function Onward(ids: seq<TaskId>): SweepPhase {
    if |ids| <= 1 then Resting else Moving(ids[1..])
  }

  function StepReenqueue(s: State, reply: Reply, at: Time, rescheduled: bool): State {
    if !s.sweep.Moving? || s.sweep.ids == [] then s
    else
      var task := s.sweep.ids[0];
      s.(stream := if Took(reply) then s.stream.Add(task) else s.stream,
         sweep := if reply.Replies? || rescheduled then Onward(s.sweep.ids) else Resting,
         retry := if reply.Lost? && rescheduled then s.retry[task := at] else s.retry)
  }

  // ---------------------------------------------------------------- the reclaim sweeper

  // XAUTOCLAIM may stop its scan early, so any stale entries may be the ones it takes.
  function StepClaimStale(s: State, ids: seq<EntryId>, minIdle: nat): State {
    if s.claimed != [] || !Distinct(ids) || exists id | id in ids :: !s.stream.Stale(id, minIdle, s.now) then s
    else
      var entries := Map((id: EntryId) => ClaimedEntry(StreamEntry(id, TaskOf(s.stream, id)), false), ids);
      s.(stream := s.stream.Claim((set id | id in ids), Reclaimer, s.now), claimed := entries)
  }

  function TaskOf(stream: Stream, id: EntryId): TaskId {
    if id in stream.pending then stream.pending[id].task else 0
  }

  function StepReclaimEnqueue(s: State, reply: Reply): State {
    if s.claimed == [] || s.claimed[0].enqueued then s
    else
      var entry := s.claimed[0].entry;
      s.(stream := if Took(reply) then s.stream.Add(entry.task) else s.stream,
         covered := if Took(reply) then s.covered + {entry.id} else s.covered,
         claimed := if reply.Replies? then s.claimed[0 := ClaimedEntry(entry, true)] else s.claimed[1..])
  }

  function StepReclaimAck(s: State, reply: Reply): State {
    if s.claimed == [] || !s.claimed[0].enqueued then s
    else
      s.(stream := if Took(reply) then s.stream.Ack({s.claimed[0].entry.id}) else s.stream,
         claimed := s.claimed[1..])
  }

  // ---------------------------------------------------------------- steps and runs

  function StepCreator(s: State, run: RunId, a: CreatorAction): State {
    match a
    case Stage(ids, rows, environment, scheduled) => StepStage(s, run, ids, rows, environment, scheduled)
    case EnqueueStaged(reply) => StepEnqueueStaged(s, run, reply)
    case Commit => StepCommit(s, run)
    case Abandon => s.(staged := s.staged - {run})
  }

  function StepWorker(s: State, w: WorkerId, a: WorkerAction): State {
    match a
    case Consume(count) => StepConsume(s, w, count)
    case Load(i) => StepLoad(s, w, i)
    case Execute(i, report, at) => StepExecute(s, w, i, report, at)
    case Defer(i, at) => StepDefer(s, w, i, at)
    case Raise(i, left) => StepRaise(s, w, i, left)
    case Write(reply) => StepWrite(s, w, reply)
    case AckBatch(reply) => StepAckBatch(s, w, reply)
    case Crash => SetPhase(s, w, Idle)
  }

  function StepSweeper(s: State, a: SweepAction): State {
    match a
    case ReadDue(at, limit, ids) => StepReadDue(s, at, limit, ids)
    case RemoveDue(ok) => StepRemoveDue(s, ok)
    case Reenqueue(reply, at, rescheduled) => StepReenqueue(s, reply, at, rescheduled)
  }

  function StepReclaimer(s: State, a: ReclaimAction): State {
    match a
    case ClaimStale(ids, minIdle) => StepClaimStale(s, ids, minIdle)
    case ReclaimEnqueue(reply) => StepReclaimEnqueue(s, reply)
    case ReclaimAck(reply) => StepReclaimAck(s, reply)
  }

  function Step(s: State, a: Action): State {
    match a
    case Create(run, creating) => StepCreator(s, run, creating)
    case Work(w, working) => StepWorker(s, w, working)
    case Sweep(sweeping) => StepSweeper(s, sweeping)
    case Reclaim(reclaiming) => StepReclaimer(s, reclaiming)
    case RestartBackend => s.(staged := map[], sweep := Resting, claimed := [])
    case Tick(ms) => s.(now := s.now + ms)
  }

  function Run(s: State, actions: seq<Action>): State
    decreases |actions|
  {
    if actions == [] then s else Step(Run(s, actions[..|actions| - 1]), actions[|actions| - 1])
  }

  lemma RunOneMore(s: State, actions: seq<Action>, a: Action)
    ensures Run(s, actions + [a]) == Step(Run(s, actions), a)
  {
    assert (actions + [a])[..|actions|] == actions;
  }

  lemma {:induction false} RunAppend(s: State, xs: seq<Action>, ys: seq<Action>)
    ensures Run(s, xs + ys) == Run(Run(s, xs), ys)
    decreases |ys|
  {
    if ys == [] {
      assert xs + ys == xs;
    } else {
      assert (xs + ys)[..|xs + ys| - 1] == xs + ys[..|ys| - 1];
      RunAppend(s, xs, ys[..|ys| - 1]);
    }
  }

  // There is always a worker id that is not taken.
  lemma {:induction false} UnusedWorker(ws: set<WorkerId>) returns (w: WorkerId)
    ensures forall u | u in ws :: u < w
    decreases |ws|
  {
    w := 0;
    if ws != {} {
      var u :| u in ws;
      w := UnusedWorker(ws - {u});
      assert forall v | v in ws :: v == u || v in ws - {u};
      w := if u < w then w else u + 1;
    }
  }
}
