// The exactly-once fragment cannot get stuck, and going on finishes every task and every run.
module Draining {
  import opened Wrappers
  import opened Records
  import opened Sequences
  import opened ResultWriter
  import opened Ledger
  import opened RetryQueue
  import opened Streams
  import opened TaskProcessor
  import opened Protocol
  import opened Soundness
  import opened SingleReference
  import opened Termination

  // A step of the fragment that makes progress from s.
  predicate Helps(s: State, a: Action) {
    Clean(s, a) && Progressing(a) && Step(s, a) != s
  }

  const SOME_REPORT := Report(ExecutionResult(None, 0, None, None, None), None, [], map[])

  lemma ConsumeHelps(s: State) returns (a: Action)
    requires s.stream.queue != []
    ensures Helps(s, a)
  {
    var w := UnusedWorker(s.workers.Keys);
    a := Work(w, Consume(1));
    assert w in Step(s, a).workers;
  }

  // An unresolved slot can be loaded or executed.
  lemma SlotHelps(s: State, at: Places, w: WorkerId, i: nat) returns (a: Action)
    requires HandsAt(s.workers, s.db.tasks, at) && StagedAt(s.staged, s.db.tasks, at) && s.staged == map[]
    requires HasSlot(s, w, i) && !Resolved(SlotAt(s, w, i))
    ensures Helps(s, a)
  {
    assert SlotAtPlace(s.db.tasks, at, w, i, SlotIn(s.workers, w, i).value);
    a := Work(w, if SlotAt(s, w, i).progress.Delivered? then Load(i) else Execute(i, SOME_REPORT, 0.0));
    assert SlotAt(Step(s, a), w, i) != SlotAt(s, w, i);
  }

  // A worker with an uncommitted outcome has a slot to process or a batch to write.
  lemma GathererHelps(s: State, at: Places, w: WorkerId) returns (a: Action)
    requires HandsAt(s.workers, s.db.tasks, at) && StagedAt(s.staged, s.db.tasks, at) && s.staged == map[]
    requires Sound(s.db) && SlotsOk(s) && PhaseOf(s, w).Gathering?
    ensures Helps(s, a)
  {
    var slots := PhaseOf(s, w).slots;
    if AllResolved(slots) {
      a := Work(w, Write(Replies));
      BatchIsWritten(s, w);
    } else {
      var slot :| slot in slots && !Resolved(slot);
      var i :| 0 <= i < |slots| && slots[i] == slot;
      a := SlotHelps(s, at, w, i);
    }
  }

  lemma DueIsReadable(z: Scores, task: TaskId)
    requires task in z
    ensures RangeByScore(z, z[task], 1) != []
  {
    RangeIsLowestDue(z, z[task], 1);
    assert task in Due(z, z[task]);
  }

  lemma ReadingHelps(s: State, task: TaskId) returns (a: Action)
    requires task in s.retry && s.sweep.Resting?
    ensures Helps(s, a)
  {
    DueIsReadable(s.retry, task);
    RangeIsLowestDue(s.retry, s.retry[task], 1);
    a := Sweep(ReadDue(s.retry[task], 1, RangeByScore(s.retry, s.retry[task], 1)));
  }

  lemma RemovingHelps(s: State, at: Places) returns (a: Action)
    requires HandsAt(s.workers, s.db.tasks, at) && StagedAt(s.staged, s.db.tasks, at) && s.staged == map[]
    requires Sound(s.db) && SlotsOk(s) && s.sweep.Reading?
    ensures Helps(s, a)
  {
    a := Sweep(RemoveDue(true));
    if task :| task in s.sweep.ids && Uncommitted(s, task) {
      var w :| w in s.workers && s.workers[w].Gathering? && exists slot | slot in s.workers[w].slots ::
          slot.entry.task == task && slot.progress.Done? && slot.progress.outcome.Some?;
      a := GathererHelps(s, at, w);
    }
  }

  lemma SweepHelps(s: State, at: Places, task: TaskId) returns (a: Action)
    requires HandsAt(s.workers, s.db.tasks, at) && StagedAt(s.staged, s.db.tasks, at) && s.staged == map[]
    requires SweepAt(s.sweep, s.retry, at) && Sound(s.db) && SlotsOk(s)
    requires task in s.retry || !s.sweep.Resting?
    ensures Helps(s, a)
  {
    if s.sweep.Resting? {
      a := ReadingHelps(s, task);
    } else if s.sweep.Reading? {
      a := RemovingHelps(s, at);
    } else {
      a := Sweep(Reenqueue(Replies, 0.0, true));
      assert |Step(s, a).stream.queue| == |s.stream.queue| + 1;
    }
  }

  // While a task is open, something can be done.
  lemma {:induction false} SomethingHelps(s: State, at: Places, task: TaskId) returns (a: Action)
    requires QueueAt(s.stream, at) && HandsAt(s.workers, s.db.tasks, at) && RetryAt(s.retry, s.workers, at)
    requires SweepAt(s.sweep, s.retry, at) && StagedAt(s.staged, s.db.tasks, at) && s.staged == map[]
    requires Sound(s.db) && SlotsOk(s) && task in at && !at[task].Finished?
    ensures Helps(s, a)
  {
    match at[task]
    case InStream(id) =>
      assert Queues(s.stream, id, task);
      a := ConsumeHelps(s);
    case Fetched(w, i) =>
      assert HoldsOpen(SlotIn(s.workers, w, i), task);
      a := SlotHelps(s, at, w, i);
    case Executed(w, i) =>
      assert HoldsOutcome(SlotIn(s.workers, w, i), task);
      a := GathererHelps(s, at, w);
    case Waiting => a := SweepHelps(s, at, task);
    case Moved => a := SweepHelps(s, at, task);
  }

  ghost predicate AllFinished(s: State, at: Places) {
    InPlace(s, at) && forall task | task in at :: at[task].Finished?
  }

  lemma ProgressKeepsStaged(s: State, a: Action)
    requires Progressing(a)
    ensures Step(s, a).staged == s.staged
  {
    match a
    case Work(w, working) => WorkerFrame(s, w, working);
    case Sweep(sweeping) => SweeperFrame(s, sweeping);
  }

  predicate AllHelp(s: State, actions: seq<Action>)
    decreases |actions|
  {
    actions == [] || (Helps(s, actions[0]) && AllHelp(Step(s, actions[0]), actions[1..]))
  }

  lemma RunFirst(s: State, a: Action, actions: seq<Action>)
    ensures Run(s, [a] + actions) == Run(Step(s, a), actions)
  {
    assert [a][..0] == [];
    RunAppend(s, [a], actions);
  }

  lemma HelpGoesOn(s: State, at: Places, a: Action, ids: seq<TaskId>)
    requires InPlace(s, at) && Wellformed(s) && s.staged == map[] && Lists(ids, at) && Helps(s, a)
    ensures var (s', at') := (Step(s, a), PlacesAfter(s, at, a));
            InPlace(s', at') && Wellformed(s') && s'.staged == map[] && Lists(ids, at') && Closer(s, s', at, at', ids)
  {
    EveryStepIsCloser(s, at, a, ids);
    ProgressKeepsStaged(s, a);
    SameKeys(s, at, a);
  }

  // Some way of choosing helpful steps ends with every task finished.
  lemma {:induction false} EveryTaskFinishes(s: State, at: Places, ids: seq<TaskId>)
    returns (actions: seq<Action>, at': Places)
    requires InPlace(s, at) && Wellformed(s) && s.staged == map[] && Lists(ids, at)
    ensures AllHelp(s, actions) && AllFinished(Run(s, actions), at') && Wellformed(Run(s, actions))
    decreases Total(RanksOf(s, at), ids), Cycles(s.workers)
  {
    if forall task | task in at :: at[task].Finished? {
      actions, at' := [], at;
    } else {
      var task :| task in at && !at[task].Finished?;
      var a := SomethingHelps(s, at, task);
      HelpGoesOn(s, at, a, ids);
      var rest;
      rest, at' := EveryTaskFinishes(Step(s, a), PlacesAfter(s, at, a), ids);
      RunFirst(s, a, rest);
      actions := [a] + rest;
      assert actions[1..] == rest;
    }
  }

  // When every task has finished, every run is completed.
  lemma FinishedMeansCompleted(s: State, at: Places)
    requires AllFinished(s, at) && Wellformed(s)
    ensures forall task | task in s.db.tasks :: IsTerminal(s.db.tasks[task].status)
    ensures forall run | run in s.db.runs :: s.db.runs[run].status == RunCompleted
  {
    AtMostOneTerminal(s.db, at);
    forall task | task in s.db.tasks ensures IsTerminal(s.db.tasks[task].status) && Ended(s.db, task) {
      assert RowAt(s.db, task, at[task]);
    }
    forall run | run in s.db.runs ensures s.db.runs[run].status == RunCompleted {
      CompletedMeansAllEnded(s.db, run);
    }
  }

  lemma SetAsSeq(s: set<TaskId>) returns (ids: seq<TaskId>)
    ensures forall task | task in s :: task in ids
    decreases |s|
  {
    ids := [];
    if s != {} {
      var t :| t in s;
      ids := SetAsSeq(s - {t});
      ids := [t] + ids;
    }
  }

  // From every state that a clean run reaches with no run half created, the platform can
  // finish all its runs without leaving the fragment.
  lemma EveryRunCanComplete(before: seq<Action>) returns (actions: seq<Action>)
    requires CleanRun(before) && Run(INITIAL, before).staged == map[]
    ensures AllHelp(Run(INITIAL, before), actions)
    ensures var db := Run(Run(INITIAL, before), actions).db;
            && (forall task | task in db.tasks :: IsTerminal(db.tasks[task].status))
            && forall run | run in db.runs :: db.runs[run].status == RunCompleted
  {
    var s := Run(INITIAL, before);
    var at := CleanRunsAreInPlace(before);
    var ids := SetAsSeq(at.Keys);
    var at';
    actions, at' := EveryTaskFinishes(s, at, ids);
    FinishedMeansCompleted(Run(s, actions), at');
  }

  // ---------------------------------------------------------------- every way of going on

  // One number for the lexicographic measure: a step that lowers the ranks begins at most one
  // cycle, which counts twice.
  function Measure(s: State, at: Places, ids: seq<TaskId>): nat {
    3 * Total(RanksOf(s, at), ids) + Cycles(s.workers)
  }

  lemma WorkChangesOneWorker(s: State, w: WorkerId, a: WorkerAction)
    ensures var workers := StepWorker(s, w, a).workers;
            workers == s.workers || (w in workers && workers == s.workers[w := workers[w]])
  {
  }

  lemma OneMoreBusy(workers: Workers, w: WorkerId, phase: Phase)
    ensures Cycles(workers[w := phase]) <= Cycles(workers) + 2
  {
    var workers' := workers[w := phase];
    assert Busy(workers') <= Busy(workers) + {w} && Gatherers(workers') <= Gatherers(workers) + {w};
    SubsetSize(Busy(workers'), Busy(workers) + {w});
    SubsetSize(Gatherers(workers'), Gatherers(workers) + {w});
  }

  lemma CyclesRiseLittle(s: State, a: Action)
    requires Progressing(a)
    ensures Cycles(Step(s, a).workers) <= Cycles(s.workers) + 2
  {
    match a
    case Work(w, working) =>
      WorkChangesOneWorker(s, w, working);
      if w in StepWorker(s, w, working).workers { OneMoreBusy(s.workers, w, StepWorker(s, w, working).workers[w]); }
    case Sweep(sweeping) => SweeperFrame(s, sweeping);
  }

  lemma HelpLowersMeasure(s: State, at: Places, a: Action, ids: seq<TaskId>)
    requires Progressing(a) && Closer(s, Step(s, a), at, PlacesAfter(s, at, a), ids)
    ensures Measure(Step(s, a), PlacesAfter(s, at, a), ids) < Measure(s, at, ids)
  {
    CyclesRiseLittle(s, a);
  }

  lemma {:induction false} HelpfulRunsAreShort(s: State, at: Places, ids: seq<TaskId>, actions: seq<Action>)
    requires InPlace(s, at) && Wellformed(s) && s.staged == map[] && Lists(ids, at) && AllHelp(s, actions)
    ensures |actions| <= Measure(s, at, ids)
    decreases |actions|
  {
    if actions != [] {
      HelpGoesOn(s, at, actions[0], ids);
      HelpLowersMeasure(s, at, actions[0], ids);
      HelpfulRunsAreShort(Step(s, actions[0]), PlacesAfter(s, at, actions[0]), ids, actions[1..]);
    }
  }

  lemma {:induction false} LastHelps(s: State, actions: seq<Action>)
    requires AllHelp(s, actions) && actions != []
    ensures var front := actions[..|actions| - 1]; AllHelp(s, front) && Helps(Run(s, front), actions[|actions| - 1])
    decreases |actions|
  {
    if |actions| > 1 {
      var (a, rest) := (actions[0], actions[1..]);
      var (front, last) := (actions[..|actions| - 1], actions[|actions| - 1]);
      var middle := rest[..|rest| - 1];
      LastHelps(Step(s, a), rest);
      assert front == [a] + middle && front[1..] == middle && last == rest[|rest| - 1];
      RunFirst(s, a, middle);
    }
  }

  lemma {:induction false} HelpfulRunsStayInPlace(s: State, at: Places, ids: seq<TaskId>, actions: seq<Action>)
    returns (at': Places)
    requires InPlace(s, at) && Wellformed(s) && s.staged == map[] && Lists(ids, at) && AllHelp(s, actions)
    ensures var s' := Run(s, actions); InPlace(s', at') && Wellformed(s') && s'.staged == map[] && Lists(ids, at')
    decreases |actions|
  {
    at' := at;
    if actions != [] {
      var (front, last) := (actions[..|actions| - 1], actions[|actions| - 1]);
      LastHelps(s, actions);
      at' := HelpfulRunsStayInPlace(s, at, ids, front);
      HelpGoesOn(Run(s, front), at', last, ids);
      at' := PlacesAfter(Run(s, front), at', last);
    }
  }

  // However helpful steps are chosen, there are only so many of them.
  lemma HelpfulRunsAreBounded(before: seq<Action>) returns (bound: nat)
    requires CleanRun(before) && Run(INITIAL, before).staged == map[]
    ensures forall actions | AllHelp(Run(INITIAL, before), actions) :: |actions| <= bound
  {
    var s := Run(INITIAL, before);
    var at := CleanRunsAreInPlace(before);
    var ids := SetAsSeq(at.Keys);
    bound := Measure(s, at, ids);
    forall actions | AllHelp(s, actions) ensures |actions| <= bound {
      HelpfulRunsAreShort(s, at, ids, actions);
    }
  }

  // And when no helpful step is left, every task is terminal and every run is completed.
  lemma StuckMeansCompleted(before: seq<Action>, actions: seq<Action>)
    requires CleanRun(before) && Run(INITIAL, before).staged == map[]
    requires var s := Run(INITIAL, before); AllHelp(s, actions) && forall a :: !Helps(Run(s, actions), a)
    ensures var db := Run(Run(INITIAL, before), actions).db;
            && (forall task | task in db.tasks :: IsTerminal(db.tasks[task].status))
            && forall run | run in db.runs :: db.runs[run].status == RunCompleted
  {
    var s := Run(INITIAL, before);
    var at := CleanRunsAreInPlace(before);
    var ids := SetAsSeq(at.Keys);
    var at' := HelpfulRunsStayInPlace(s, at, ids, actions);
    forall task | task in at' ensures at'[task].Finished? {
      if !at'[task].Finished? {
        var a := SomethingHelps(Run(s, actions), at', task);
        assert false;
      }
    }
    FinishedMeansCompleted(Run(s, actions), at');
  }
}
