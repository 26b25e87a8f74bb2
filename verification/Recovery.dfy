// After any safe run, if nothing fails any more, every task and every run can be finished.
module Recovery {
  import opened Wrappers
  import opened Records
  import opened Sequences
  import opened ResultWriter
  import opened Ledger
  import opened RetryQueue
  import opened Streams
  import opened TaskProcessor
  import opened Protocol
  import opened Soundness
  import opened NoTaskLost

  // ---------------------------------------------------------------- going on without failures

  // The batch limit of the retry sweeper and the idle time after which entries are reclaimed.
  datatype Settings = Settings(limit: nat, minIdle: nat)

  // Workers, sweepers and time go on as they are set, and every command is answered.
  predicate Smooth(p: Settings, a: Action) {
    match a
    case Create(_, _) => false
    case Work(_, working) =>
      (match working
       case Raise(_, _) => false
       case Write(reply) => reply.Replies?
       case AckBatch(reply) => reply.Replies?
       case Crash => false
       case _ => true)
    case Sweep(sweeping) =>
      (match sweeping
       case ReadDue(_, limit, _) => limit == p.limit
       case RemoveDue(ok) => ok
       case Reenqueue(reply, _, _) => reply.Replies?)
    case Reclaim(reclaiming) =>
      (match reclaiming
       case ClaimStale(_, minIdle) => minIdle == p.minIdle
       case ReclaimEnqueue(reply) => reply.Replies?
       case ReclaimAck(reply) => reply.Replies?)
    case RestartBackend => false
    case Tick(_) => true
  }

  predicate SmoothRun(p: Settings, s: State, actions: seq<Action>)
    decreases |actions|
  {
    actions == [] ||
    (var front := actions[..|actions| - 1];
     SmoothRun(p, s, front) && Smooth(p, actions[|actions| - 1]) && Safe(Run(s, front), actions[|actions| - 1]))
  }

  ghost predicate Reaches(p: Settings, s: State, s': State) {
    exists actions :: SmoothRun(p, s, actions) && Run(s, actions) == s'
  }

  lemma ReachesItself(p: Settings, s: State)
    ensures Reaches(p, s, s)
  {
    assert SmoothRun(p, s, []) && Run(s, []) == s;
  }

  lemma ReachStep(p: Settings, s: State, s': State, a: Action)
    requires Reaches(p, s, s') && Smooth(p, a) && Safe(s', a)
    ensures Reaches(p, s, Step(s', a))
  {
    var actions :| SmoothRun(p, s, actions) && Run(s, actions) == s';
    assert (actions + [a])[..|actions|] == actions;
    assert SmoothRun(p, s, actions + [a]) && Run(s, actions + [a]) == Step(s', a);
  }

  lemma {:induction false} SmoothAppend(p: Settings, s: State, xs: seq<Action>, ys: seq<Action>)
    requires SmoothRun(p, s, xs) && SmoothRun(p, Run(s, xs), ys)
    ensures SmoothRun(p, s, xs + ys)
    decreases |ys|
  {
    if ys == [] {
      assert xs + ys == xs;
    } else {
      var front := ys[..|ys| - 1];
      assert (xs + ys)[..|xs + ys| - 1] == xs + front;
      SmoothAppend(p, s, xs, front);
      RunAppend(s, xs, front);
    }
  }

  lemma ReachesOn(p: Settings, s: State, s': State, s'': State)
    requires Reaches(p, s, s') && Reaches(p, s', s'')
    ensures Reaches(p, s, s'')
  {
    var xs :| SmoothRun(p, s, xs) && Run(s, xs) == s';
    var ys :| SmoothRun(p, s', ys) && Run(s', ys) == s'';
    SmoothAppend(p, s, xs, ys);
    RunAppend(s, xs, ys);
  }

  // ---------------------------------------------------------------- what it keeps

  // No task comes or goes, and what has ended stays ended.
  predicate SameOrMoreEnded(db: Tables, db': Tables) {
    && db'.tasks.Keys == db.tasks.Keys && db'.runs.Keys == db.runs.Keys
    && forall task | task in db.tasks && Ended(db, task) :: Ended(db', task)
  }

  lemma SmoothStepGrows(p: Settings, s: State, a: Action)
    requires Wellformed(s) && Smooth(p, a)
    ensures Wellformed(Step(s, a)) && SameOrMoreEnded(s.db, Step(s, a).db)
  {
    StepKeepsWellformed(s, a);
    match a
    case Work(w, working) =>
      WorkerKeepsTables(s, w, working);
      if working.Write? {
        WriteMovesForward(s, w, Replies);
      } else {
        OtherWorkLeavesTables(s, w, working);
      }
    case Sweep(sweeping) => SweeperFrame(s, sweeping);
    case Reclaim(reclaiming) => ReclaimerFrame(s, reclaiming);
    case Tick(_) =>
  }

  lemma {:induction false} SmoothRunGrows(p: Settings, s: State, actions: seq<Action>)
    requires Wellformed(s) && SmoothRun(p, s, actions)
    ensures Wellformed(Run(s, actions)) && SameOrMoreEnded(s.db, Run(s, actions).db)
    decreases |actions|
  {
    if actions != [] {
      SmoothRunGrows(p, s, actions[..|actions| - 1]);
      SmoothStepGrows(p, Run(s, actions[..|actions| - 1]), actions[|actions| - 1]);
    }
  }

  lemma {:induction false} SmoothRunKeeps(p: Settings, s: State, actions: seq<Action>)
    requires Kept(s) && Wellformed(s) && SmoothRun(p, s, actions)
    ensures Kept(Run(s, actions))
    decreases |actions|
  {
    if actions != [] {
      var front := actions[..|actions| - 1];
      SmoothRunKeeps(p, s, front);
      SmoothRunGrows(p, s, front);
      StepKeepsTasks(Run(s, front), actions[|actions| - 1]);
    }
  }

  lemma ReachingGrows(p: Settings, s: State, s': State)
    requires Wellformed(s) && Reaches(p, s, s')
    ensures Wellformed(s') && SameOrMoreEnded(s.db, s'.db)
  {
    var actions :| SmoothRun(p, s, actions) && Run(s, actions) == s';
    SmoothRunGrows(p, s, actions);
  }

  lemma ReachingKeeps(p: Settings, s: State, s': State)
    requires Kept(s) && Wellformed(s) && Reaches(p, s, s')
    ensures Kept(s')
  {
    var actions :| SmoothRun(p, s, actions) && Run(s, actions) == s';
    SmoothRunKeeps(p, s, actions);
  }

  // ---------------------------------------------------------------- a queued task

  const SUCCESS := Report(ExecutionResult(None, 0, None, None, None), None, [], map[])

  // A worker that has not been heard of yet fetches the oldest entry.
  lemma FetchFirst(p: Settings, s: State) returns (w: WorkerId, s': State)
    requires s.stream.queue != []
    ensures Reaches(p, s, s') && s'.stream.queue == s.stream.queue[1..]
    ensures PhaseOf(s', w) == Gathering([Slot(StreamEntry(s.stream.next, s.stream.queue[0]), Delivered)], s.now)
  {
    w := UnusedWorker(s.workers.Keys);
    s' := StepConsume(s, w, 1);
    ReachesItself(p, s);
    ReachStep(p, s, s, Work(w, Consume(1)));
    assert s.stream.Entries(1) == [StreamEntry(s.stream.next, s.stream.queue[0])];
    assert PhaseOf(s', w).slots == [Slot(StreamEntry(s.stream.next, s.stream.queue[0]), Delivered)];
  }

  // It loads the task and executes it successfully.
  lemma FetchedExecutes(p: Settings, s: State, w: WorkerId, entry: StreamEntry, since: nat)
    returns (s': State, o: TaskOutcome)
    requires Staging(s) && entry.task in s.db.tasks
    requires PhaseOf(s, w) == Gathering([Slot(entry, Delivered)], since)
    ensures Reaches(p, s, s') && PhaseOf(s', w) == Gathering([Slot(entry, Done(Some(o)))], since)
    ensures o.taskId == entry.task && o.newStatus == Completed
  {
    CommittedIsNotStaged(s, entry.task);
    var s1 := StepLoad(s, w, 0);
    ReachesItself(p, s);
    ReachStep(p, s, s, Work(w, Load(0)));
    assert PhaseOf(s1, w).slots == [Slot(entry, Loaded(s.db.tasks[entry.task]))];
    s' := StepExecute(s1, w, 0, SUCCESS, 0.0);
    ReachStep(p, s, s1, Work(w, Execute(0, SUCCESS, 0.0)));
    o := Conclude(entry.task, s.db.tasks[entry.task], w, SUCCESS, 0.0);
    assert PhaseOf(s', w).slots == [Slot(entry, Done(Some(o)))];
  }

  // And it commits.
  lemma FetchedEnds(p: Settings, s: State, w: WorkerId, entry: StreamEntry, since: nat) returns (s': State)
    requires Wellformed(s) && entry.task in s.db.tasks
    requires PhaseOf(s, w) == Gathering([Slot(entry, Delivered)], since)
    ensures Reaches(p, s, s') && Ended(s'.db, entry.task)
  {
    var s1, o := FetchedExecutes(p, s, w, entry, since);
    ReachingGrows(p, s, s1);
    s' := StepWrite(s1, w, Replies);
    ReachStep(p, s, s1, Work(w, Write(Replies)));
    SuccessEnds(s1, w, entry, o);
  }

  lemma CommittedIsNotStaged(s: State, task: TaskId)
    requires Staging(s) && task in s.db.tasks
    ensures !IsStaged(s.staged, task)
  {
    forall run | run in s.staged ensures task !in s.staged[run].ids {
      assert CreationOk(s, run);
    }
  }

  lemma OneSuccess(db: Tables, o: TaskOutcome)
    requires Sound(db) && AllFit(db, [o]) && o.newStatus == Completed
    ensures Referenced(db, [o]) && Ended(Written(db, [o]), o.taskId)
  {
    BatchKeepsSound(db, [o]);
    TerminalOutcomeEnds([o], o);
    TerminalCountAppend(db.logs, Map(BuildLog, [o]), o.taskId);
  }

  lemma OneOutcome(entry: StreamEntry, o: TaskOutcome)
    ensures Outcomes([Slot(entry, Done(Some(o)))]) == [o]
  {
    var slots := [Slot(entry, Done(Some(o)))];
    assert slots[..0] == [] && Outcomes(slots[..0]) == [];
  }

  lemma SuccessEnds(s: State, w: WorkerId, entry: StreamEntry, o: TaskOutcome)
    requires Sound(s.db) && SlotsOk(s) && PhaseOf(s, w).Gathering?
    requires PhaseOf(s, w).slots == [Slot(entry, Done(Some(o)))]
    requires o.taskId == entry.task && o.newStatus == Completed
    ensures Ended(StepWrite(s, w, Replies).db, entry.task)
  {
    WriteCommits(s, w, Replies);
    OneOutcome(entry, o);
    OneSuccess(s.db, o);
  }

  lemma FirstEnds(p: Settings, s: State) returns (s': State)
    requires Wellformed(s) && s.stream.queue != [] && s.stream.queue[0] in s.db.tasks
    ensures Reaches(p, s, s') && Ended(s'.db, s.stream.queue[0])
  {
    var w, s1 := FetchFirst(p, s);
    ReachingGrows(p, s, s1);
    s' := FetchedEnds(p, s1, w, StreamEntry(s.stream.next, s.stream.queue[0]), s.now);
    ReachesOn(p, s, s1, s');
  }

  // Earlier entries are fetched by other workers.
  lemma {:induction false} EarlierFetched(p: Settings, s: State, k: nat) returns (s': State)
    requires k <= |s.stream.queue|
    ensures Reaches(p, s, s') && s'.stream.queue == s.stream.queue[k..]
    decreases k
  {
    s' := s;
    ReachesItself(p, s);
    if k > 0 {
      var _, s1 := FetchFirst(p, s);
      s' := EarlierFetched(p, s1, k - 1);
      ReachesOn(p, s, s1, s');
    }
  }

  lemma QueuedEnds(p: Settings, s: State, task: TaskId, k: nat) returns (s': State)
    requires Wellformed(s) && task in s.db.tasks && k < |s.stream.queue| && s.stream.queue[k] == task
    ensures Reaches(p, s, s') && Ended(s'.db, task)
  {
    var s1 := EarlierFetched(p, s, k);
    ReachingGrows(p, s, s1);
    s' := FirstEnds(p, s1);
    ReachesOn(p, s, s1, s');
  }

  // ---------------------------------------------------------------- a popped or waiting task

  lemma ReenqueueFirst(p: Settings, s: State) returns (s': State)
    requires HoldsPopped(s)
    ensures Reaches(p, s, s') && s' == s.(stream := s.stream.Add(s.sweep.ids[0]), sweep := Onward(s.sweep.ids))
  {
    s' := StepReenqueue(s, Replies, 0.0, true);
    ReachesItself(p, s);
    ReachStep(p, s, s, Sweep(Reenqueue(Replies, 0.0, true)));
  }

  lemma {:induction false} PoppedIsQueued(p: Settings, s: State, task: TaskId) returns (s': State)
    requires InSweep(s, task)
    ensures Reaches(p, s, s') && task in s'.stream.queue
    decreases |s.sweep.ids|
  {
    s' := ReenqueueFirst(p, s);
    if task == s.sweep.ids[0] {
      assert s'.stream.queue[|s.stream.queue|] == task;
    } else {
      assert task in s.sweep.ids[1..];
      var s1 := s';
      s' := PoppedIsQueued(p, s1, task);
      ReachesOn(p, s, s1, s');
    }
  }

  // The sweeper finishes the list that it has popped.
  lemma {:induction false} SweepFinishes(p: Settings, s: State) returns (s': State)
    requires HoldsPopped(s)
    ensures Reaches(p, s, s') && s'.sweep.Resting? && s'.retry == s.retry
    decreases |s.sweep.ids|
  {
    s' := ReenqueueFirst(p, s);
    if |s.sweep.ids| > 1 {
      var s1 := s';
      s' := SweepFinishes(p, s1);
      ReachesOn(p, s, s1, s');
    }
  }

  lemma SweepPops(p: Settings, s: State) returns (s': State)
    requires s.sweep.Reading?
    ensures Reaches(p, s, s') && s' == s.(sweep := Moving(s.sweep.ids), retry := Remove(s.retry, s.sweep.ids))
  {
    s' := StepRemoveDue(s, true);
    ReachesItself(p, s);
    ReachStep(p, s, s, Sweep(RemoveDue(true)));
  }

  // A sweep at the time the task is due reads at least one id.
  lemma SweepReads(p: Settings, s: State, task: TaskId) returns (s': State)
    requires s.sweep.Resting? && task in s.retry && p.limit > 0
    ensures Reaches(p, s, s') && s'.sweep.Reading? && s' == s.(sweep := s'.sweep)
    ensures s'.sweep.ids != [] && forall id | id in s'.sweep.ids :: id in s.retry
  {
    var ids := RangeByScore(s.retry, s.retry[task], p.limit);
    RangeIsLowestDue(s.retry, s.retry[task], p.limit);
    assert task in Due(s.retry, s.retry[task]);
    forall id | id in ids ensures id in s.retry {
      assert id in Members(ids);
    }
    s' := StepReadDue(s, s.retry[task], p.limit, ids);
    ReachesItself(p, s);
    ReachStep(p, s, s, Sweep(ReadDue(s.retry[task], p.limit, ids)));
  }

  lemma FewerLeft(z: Scores, ids: seq<TaskId>)
    requires ids != [] && forall id | id in ids :: id in z
    ensures |Remove(z, ids)| < |z|
  {
    var z' := Remove(z, ids);
    assert z'.Keys <= z.Keys - {ids[0]} && ids[0] in ids;
    SubsetSize(z'.Keys, z.Keys - {ids[0]});
  }

  // However many retries are due earlier, sweeping goes on until the task's turn comes.
  lemma {:induction false} WaitingIsQueued(p: Settings, s: State, task: TaskId) returns (s': State)
    requires s.sweep.Resting? && task in s.retry && p.limit > 0
    ensures Reaches(p, s, s') && task in s'.stream.queue
    decreases |s.retry|
  {
    var s1 := SweepReads(p, s, task);
    var s2 := SweepPops(p, s1);
    ReachesOn(p, s, s1, s2);
    if task in s2.sweep.ids {
      s' := PoppedIsQueued(p, s2, task);
    } else {
      FewerLeft(s.retry, s1.sweep.ids);
      var s3 := SweepFinishes(p, s2);
      ReachesOn(p, s, s2, s3);
      s' := WaitingIsQueued(p, s3, task);
      ReachesOn(p, s2, s3, s');
    }
    ReachesOn(p, s, s2, s');
  }

  // ---------------------------------------------------------------- a pending entry

  lemma FirstClaimGoes(p: Settings, s: State) returns (s': State)
    requires s.claimed != []
    ensures Reaches(p, s, s') && s'.claimed == s.claimed[1..] && s'.sweep == s.sweep
  {
    var s1 := s;
    ReachesItself(p, s);
    if !s.claimed[0].enqueued {
      s1 := StepReclaimEnqueue(s, Replies);
      ReachStep(p, s, s, Reclaim(ReclaimEnqueue(Replies)));
    }
    s' := StepReclaimAck(s1, Replies);
    ReachStep(p, s, s1, Reclaim(ReclaimAck(Replies)));
  }

  // The reclaim sweeper finishes the entries that it has claimed.
  lemma {:induction false} ClaimsFinish(p: Settings, s: State) returns (s': State)
    ensures Reaches(p, s, s') && s'.claimed == [] && s'.sweep == s.sweep
    decreases |s.claimed|
  {
    s' := s;
    ReachesItself(p, s);
    if s.claimed != [] {
      var s1 := FirstClaimGoes(p, s);
      s' := ClaimsFinish(p, s1);
      ReachesOn(p, s, s1, s');
    }
  }

  // Whoever holds the entry, it is stale after a while, and its task goes back to the stream.
  lemma HeldIsQueued(p: Settings, s: State, id: EntryId) returns (s': State)
    requires s.claimed == [] && id in s.stream.pending
    ensures Reaches(p, s, s') && s.stream.pending[id].task in s'.stream.queue
  {
    var wait := s.stream.pending[id].deliveredAt + p.minIdle;
    var s1 := s.(now := s.now + wait);
    ReachesItself(p, s);
    ReachStep(p, s, s, Tick(wait));
    var s2 := StepClaimStale(s1, [id], p.minIdle);
    ReachStep(p, s, s1, Reclaim(ClaimStale([id], p.minIdle)));
    assert s2.claimed == [ClaimedEntry(StreamEntry(id, s.stream.pending[id].task), false)];
    s' := StepReclaimEnqueue(s2, Replies);
    ReachStep(p, s, s2, Reclaim(ReclaimEnqueue(Replies)));
    assert s'.stream.queue[|s2.stream.queue|] == s.stream.pending[id].task;
  }

  // ---------------------------------------------------------------- every task

  lemma SweepRests(p: Settings, s: State) returns (s': State)
    requires IdsOk(s)
    ensures Reaches(p, s, s') && s'.sweep.Resting?
  {
    s' := s;
    ReachesItself(p, s);
    if s.sweep.Reading? { s' := SweepPops(p, s); }
    if s'.sweep.Moving? {
      var s1 := s';
      s' := SweepFinishes(p, s1);
      ReachesOn(p, s, s1, s');
    }
  }

  lemma BothRest(p: Settings, s: State) returns (s': State)
    requires IdsOk(s)
    ensures Reaches(p, s, s') && s'.sweep.Resting? && s'.claimed == []
  {
    var s1 := SweepRests(p, s);
    s' := ClaimsFinish(p, s1);
    ReachesOn(p, s, s1, s');
  }

  lemma LiveIsQueued(p: Settings, s: State, task: TaskId) returns (s': State)
    requires s.sweep.Resting? && s.claimed == [] && Live(s, task) && p.limit > 0
    ensures Reaches(p, s, s') && task in s'.stream.queue
  {
    if task in s.stream.queue {
      s' := s;
      ReachesItself(p, s);
    } else if task in s.retry {
      s' := WaitingIsQueued(p, s, task);
    } else {
      var id :| id in s.stream.pending && s.stream.pending[id].task == task && id !in s.covered;
      s' := HeldIsQueued(p, s, id);
    }
  }

  lemma {:induction false} TaskEnds(p: Settings, s: State, task: TaskId) returns (s': State)
    requires Kept(s) && Wellformed(s) && task in s.db.tasks && p.limit > 0
    ensures Reaches(p, s, s') && Ended(s'.db, task)
  {
    s' := BothRest(p, s);
    ReachingKeeps(p, s, s');
    ReachingGrows(p, s, s');
    assert Known(s', task);
    if !Ended(s'.db, task) {
      var s1 := s';
      var s2 := LiveIsQueued(p, s1, task);
      ReachingGrows(p, s1, s2);
      var k :| 0 <= k < |s2.stream.queue| && s2.stream.queue[k] == task;
      s' := QueuedEnds(p, s2, task, k);
      ReachesOn(p, s1, s2, s');
      ReachesOn(p, s, s1, s');
    }
  }

  function OpenTasks(db: Tables): set<TaskId> {
    set task | task in db.tasks && !Ended(db, task)
  }

  lemma FewerOpen(db: Tables, db': Tables, task: TaskId)
    requires SameOrMoreEnded(db, db') && task in OpenTasks(db) && Ended(db', task)
    ensures |OpenTasks(db')| < |OpenTasks(db)|
  {
    assert OpenTasks(db') <= OpenTasks(db) - {task};
    SubsetSize(OpenTasks(db'), OpenTasks(db) - {task});
  }

  lemma {:induction false} AllEnd(p: Settings, s: State) returns (s': State)
    requires Kept(s) && Wellformed(s) && p.limit > 0
    ensures Reaches(p, s, s') && OpenTasks(s'.db) == {}
    decreases |OpenTasks(s.db)|
  {
    s' := s;
    ReachesItself(p, s);
    if task :| task in OpenTasks(s.db) {
      var s1 := TaskEnds(p, s, task);
      ReachingKeeps(p, s, s1);
      ReachingGrows(p, s, s1);
      FewerOpen(s.db, s1.db, task);
      s' := AllEnd(p, s1);
      ReachesOn(p, s, s1, s');
    }
  }

  // After any safe run, however many failures it had, going on without failures can end every
  // task and complete every run that was committed.
  lemma {:induction false} EveryRunCanRecover(p: Settings, before: seq<Action>) returns (actions: seq<Action>)
    requires SafeRun(before) && p.limit > 0
    ensures SmoothRun(p, Run(INITIAL, before), actions)
    ensures var (db, db') := (Run(INITIAL, before).db, Run(Run(INITIAL, before), actions).db);
            && db'.tasks.Keys == db.tasks.Keys && db'.runs.Keys == db.runs.Keys
            && (forall task | task in db'.tasks :: Ended(db', task))
            && forall run | run in db'.runs :: db'.runs[run].status == RunCompleted
  {
    var s := Run(INITIAL, before);
    SafeRunsAreKept(before);
    RunsAreWellformed(before);
    var s' := AllEnd(p, s);
    ReachingGrows(p, s, s');
    actions :| SmoothRun(p, s, actions) && Run(s, actions) == s';
    forall task | task in s'.db.tasks ensures Ended(s'.db, task) {
      assert task !in OpenTasks(s'.db);
    }
    forall run | run in s'.db.runs ensures s'.db.runs[run].status == RunCompleted {
      AllEndedMeansCompleted(s'.db, run);
    }
  }
}
