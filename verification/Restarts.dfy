// What dies with a process: nothing of what it had begun goes on.
module Restarts {
  import opened Wrappers
  import opened Records
  import opened Streams
  import opened Protocol

  // A worker, the creation of one run, or the backend with all its creations and its sweepers.
  datatype Process = OfWorker(w: WorkerId) | OfCreation(run: RunId) | OfBackend

  function Death(p: Process): Action {
    match p
    case OfWorker(w) => Work(w, Crash)
    case OfCreation(run) => Create(run, Abandon)
    case OfBackend => RestartBackend
  }

  predicate IsOf(a: Action, p: Process) {
    match p
    case OfWorker(w) => a.Work? && a.w == w
    case OfCreation(run) => a.Create? && a.run == run
    case OfBackend => a.Create? || a.Sweep? || a.Reclaim? || a.RestartBackend?
  }

  // The actions with which a process begins something: all others go on with it.
  predicate Begins(a: Action) {
    match a
    case Work(_, working) => working.Consume?
    case Create(_, creating) => creating.Stage?
    case Sweep(sweeping) => sweeping.ReadDue?
    case Reclaim(reclaiming) => reclaiming.ClaimStale?
    case _ => false
  }

  predicate HasNothing(s: State, p: Process) {
    match p
    case OfWorker(w) => w in s.workers && s.workers[w] == Idle
    case OfCreation(run) => run !in s.staged
    case OfBackend => s.staged == map[] && s.sweep == Resting && s.claimed == []
  }

  function OfOthers(actions: seq<Action>, p: Process): seq<Action> {
    if actions == [] then []
    else
      var last := actions[|actions| - 1];
      OfOthers(actions[..|actions| - 1], p) + if IsOf(last, p) then [] else [last]
  }

  lemma GoingOnDoesNothing(s: State, p: Process, a: Action)
    requires HasNothing(s, p) && IsOf(a, p) && !Begins(a)
    ensures Step(s, a) == s
  {
    match a
    case Work(w, _) => assert s.workers[w := Idle] == s.workers;
    case Create(run, _) => assert s.staged - {run} == s.staged;
    case _ =>
  }

  lemma WorkersKeepToThemselves(s: State, w: WorkerId, a: WorkerAction)
    ensures var s' := StepWorker(s, w, a);
            && (s'.staged, s'.sweep, s'.claimed) == (s.staged, s.sweep, s.claimed)
            && forall u | u != w && u in s.workers :: u in s'.workers && s'.workers[u] == s.workers[u]
  {
  }

  lemma CreatorsKeepToThemselves(s: State, run: RunId, a: CreatorAction)
    ensures var s' := StepCreator(s, run, a);
            s'.workers == s.workers && forall other | other != run && other !in s.staged :: other !in s'.staged
  {
  }

  lemma SweepersKeepToThemselves(s: State, a: SweepAction, b: ReclaimAction)
    ensures var (s1, s2) := (StepSweeper(s, a), StepReclaimer(s, b));
            (s1.workers, s1.staged) == (s2.workers, s2.staged) == (s.workers, s.staged)
  {
  }

  lemma OthersGiveNothing(s: State, p: Process, a: Action)
    requires HasNothing(s, p) && !IsOf(a, p)
    ensures HasNothing(Step(s, a), p)
  {
    match a
    case Work(w, working) => WorkersKeepToThemselves(s, w, working);
    case Create(run, creating) => CreatorsKeepToThemselves(s, run, creating);
    case Sweep(sweeping) => SweepersKeepToThemselves(s, sweeping, ReclaimEnqueue(Replies));
    case Reclaim(reclaiming) => SweepersKeepToThemselves(s, RemoveDue(true), reclaiming);
    case _ =>
  }

  // When a process has died, nothing that it had begun goes on: until it begins something new, the
  // state is as if it had done nothing more. So its death loses every uncommitted creation, what the
  // sweepers had taken, and what a worker had not written or acknowledged yet.
  lemma {:induction false} WhatDiesIsForgotten(s: State, p: Process, more: seq<Action>)
    requires forall a | a in more && IsOf(a, p) :: !Begins(a)
    ensures var dead := Step(s, Death(p));
            HasNothing(Run(dead, more), p) && Run(dead, more) == Run(dead, OfOthers(more, p))
    decreases |more|
  {
    var dead := Step(s, Death(p));
    if more != [] {
      var (front, last) := (more[..|more| - 1], more[|more| - 1]);
      assert last in more && forall a | a in front :: a in more;
      WhatDiesIsForgotten(s, p, front);
      if IsOf(last, p) {
        GoingOnDoesNothing(Run(dead, front), p, last);
        assert OfOthers(more, p) == OfOthers(front, p);
      } else {
        OthersGiveNothing(Run(dead, front), p, last);
        RunOneMore(dead, OfOthers(front, p), last);
      }
    }
  }
}
