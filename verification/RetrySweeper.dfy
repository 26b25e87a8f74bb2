// Moving due retries back onto the stream.
module RetrySweeper {
  import opened Wrappers
  import opened Records
  import opened RetryQueue
  import opened Streams
  import opened Protocol

  // What happens to one popped id: the reply to its enqueue and, if that is lost, the time of the
  // fallback reschedule and whether it succeeds.
  datatype Turn = Turn(reply: Reply, at: Time, rescheduled: bool)

  type Turns = nat -> Turn

  predicate Enqueues(turn: Turn) {
    turn.reply.Replies?
  }

  // The sweep goes on after this turn; otherwise the exception of the reschedule ends it.
  predicate GoesOn(turn: Turn) {
    Enqueues(turn) || turn.rescheduled
  }

  // ---------------------------------------------------------------- what the first n turns do

  datatype Effect = Enqueued | Rescheduled | Added

  predicate Has(turn: Turn, effect: Effect) {
    match effect
    case Enqueued => Enqueues(turn)
    case Rescheduled => !Enqueues(turn) && turn.rescheduled
    case Added => Took(turn.reply)
  }

  // The ids whose turns have an effect, in order.
  function Select(ids: seq<TaskId>, turns: Turns, n: nat, effect: Effect): seq<TaskId>
    requires n <= |ids|
  {
    if n == 0 then [] else Select(ids, turns, n - 1, effect) + if Has(turns(n - 1), effect) then [ids[n - 1]] else []
  }

  function Rescheduling(scores: Scores, ids: seq<TaskId>, turns: Turns, n: nat): Scores
    requires n <= |ids|
  {
    if n == 0 then scores
    else
      var (before, turn) := (Rescheduling(scores, ids, turns, n - 1), turns(n - 1));
      if Has(turn, Rescheduled) then before[ids[n - 1] := turn.at] else before
  }

  // How many turns there are: all of them, or as many as it takes to come to a failed reschedule.
  function TurnsTaken(ids: seq<TaskId>, turns: Turns, n: nat): (k: nat)
    requires n <= |ids|
    ensures n <= k <= |ids|
    decreases |ids| - n
  {
    if n == |ids| then n
    else if GoesOn(turns(n)) then TurnsTaken(ids, turns, n + 1)
    else n + 1
  }

  // ---------------------------------------------------------------- the sweep

  function SweptStream(stream: Stream, ids: seq<TaskId>, turns: Turns, n: nat): Stream
    requires n <= |ids|
  {
    stream.(queue := stream.queue + Select(ids, turns, n, Added))
  }

  predicate AllGoOn(turns: Turns, n: nat) {
    forall k :: 0 <= k < n ==> GoesOn(turns(k))
  }

  // What the sweep returns: the number of ids enqueued, unless an exception ended it.
  function Counted(ids: seq<TaskId>, turns: Turns): Option<nat> {
    if AllGoOn(turns, |ids|) then Some(|Select(ids, turns, |ids|, Enqueued)|) else None
  }

  class Sweeper {
    const retryQueue: RetryZset
    const streamQueue: StreamQueue
    const batchSize: nat

    constructor (retryQueue: RetryZset, streamQueue: StreamQueue, batchSize: nat)
      ensures this.retryQueue == retryQueue && this.streamQueue == streamQueue && this.batchSize == batchSize
    {
      this.retryQueue, this.streamQueue, this.batchSize := retryQueue, streamQueue, batchSize;
    }

    // The number of ids enqueued, or None if a failing reschedule ended the sweep.
    method SweepOnce(now: Time, arrivals: Scores, turns: Turns) returns (enqueuedCount: Option<nat>)
      modifies retryQueue, streamQueue
      ensures var ids := RangeByScore(old(retryQueue.scores), now, batchSize);
              var taken := TurnsTaken(ids, turns, 0);
              && streamQueue.stream == SweptStream(old(streamQueue.stream), ids, turns, taken)
              && retryQueue.scores == Rescheduling(Remove(old(retryQueue.scores) + arrivals, ids), ids, turns, taken)
              && enqueuedCount == Counted(ids, turns)
    {
      var dueTaskIds := retryQueue.PopDue(now, batchSize, arrivals);
      enqueuedCount := MoveAll(dueTaskIds, turns);
    }

    method MoveAll(ids: seq<TaskId>, turns: Turns) returns (enqueuedCount: Option<nat>)
      modifies retryQueue, streamQueue
      ensures var taken := TurnsTaken(ids, turns, 0);
              && streamQueue.stream == SweptStream(old(streamQueue.stream), ids, turns, taken)
              && retryQueue.scores == Rescheduling(old(retryQueue.scores), ids, turns, taken)
      ensures enqueuedCount == Counted(ids, turns)
    {
      ghost var (scores, stream) := (retryQueue.scores, streamQueue.stream);
      var (r, q) := (retryQueue, streamQueue);
      var count := 0;
      for i := 0 to |ids|
        invariant r.scores == Rescheduling(scores, ids, turns, i)
        invariant q.stream == SweptStream(stream, ids, turns, i)
        invariant count == |Select(ids, turns, i, Enqueued)|
        invariant TurnsTaken(ids, turns, 0) == TurnsTaken(ids, turns, i)
        invariant AllGoOn(turns, i)
      {
        var turn := turns(i);
        var id := q.Enqueue(ids[i], turn.reply);
        if id.Some? {
          count := count + 1;
        } else if turn.rescheduled {
          r.ScheduleRetry(ids[i], turn.at);
        } else {
          return None;
        }
      }
      enqueuedCount := Some(count);
    }
  }

  // ---------------------------------------------------------------- conservation

  // The same ids as a set.
  function Chosen(ids: seq<TaskId>, turns: Turns, n: nat, effect: Effect): set<TaskId>
    requires n <= |ids|
  {
    if n == 0 then {}
    else if Has(turns(n - 1), effect) then Chosen(ids, turns, n - 1, effect) + {ids[n - 1]}
    else Chosen(ids, turns, n - 1, effect)
  }

  // What counts as enqueued is on the stream.
  lemma {:induction false} EnqueuedAreAdded(stream: Stream, ids: seq<TaskId>, turns: Turns, n: nat)
    requires n <= |ids|
    ensures forall task | task in Chosen(ids, turns, n, Enqueued) :: task in SweptStream(stream, ids, turns, n).queue
  {
    if n > 0 {
      EnqueuedAreAdded(stream, ids, turns, n - 1);
      assert forall task | task in Select(ids, turns, n - 1, Added) :: task in Select(ids, turns, n, Added);
    }
  }

  lemma OneMoreElement(s: set<TaskId>, task: TaskId)
    requires task !in s
    ensures |s + {task}| == |s| + 1
  {
  }

  lemma {:induction false} ChosenAreEarlier(ids: seq<TaskId>, turns: Turns, n: nat, effect: Effect)
    requires n <= |ids| && Distinct(ids)
    ensures forall k | n <= k < |ids| :: ids[k] !in Chosen(ids, turns, n, effect)
  {
    if n > 0 {
      ChosenAreEarlier(ids, turns, n - 1, effect);
    }
  }

  lemma {:induction false} ChosenAreAsMany(ids: seq<TaskId>, turns: Turns, n: nat, effect: Effect)
    requires n <= |ids| && Distinct(ids)
    ensures |Chosen(ids, turns, n, effect)| == |Select(ids, turns, n, effect)|
  {
    if n > 0 {
      ChosenAreAsMany(ids, turns, n - 1, effect);
      ChosenAreEarlier(ids, turns, n - 1, effect);
      OneMoreElement(Chosen(ids, turns, n - 1, effect), ids[n - 1]);
    }
  }

  // The first n ids are divided into the enqueued and the rescheduled.
  lemma {:induction false} TurnsDivide(ids: seq<TaskId>, turns: Turns, n: nat)
    requires n <= |ids| && Distinct(ids) && AllGoOn(turns, n)
    ensures var (moved, back) := (Chosen(ids, turns, n, Enqueued), Chosen(ids, turns, n, Rescheduled));
            && moved !! back
            && (forall task: TaskId :: task in ids[..n] <==> task in moved || task in back)
  {
    if n > 0 {
      TurnsDivide(ids, turns, n - 1);
      assert GoesOn(turns(n - 1));
      assert ids[..n] == ids[..n - 1] + [ids[n - 1]];
      assert ids[n - 1] !in ids[..n - 1];
    }
  }

  lemma {:induction false} ReschedulingKeys(scores: Scores, ids: seq<TaskId>, turns: Turns, n: nat)
    requires n <= |ids|
    ensures Rescheduling(scores, ids, turns, n).Keys == scores.Keys + Chosen(ids, turns, n, Rescheduled)
  {
    if n > 0 {
      ReschedulingKeys(scores, ids, turns, n - 1);
    }
  }

  lemma OnlyMovedLeave(all: set<TaskId>, ids: set<TaskId>, moved: set<TaskId>, back: set<TaskId>)
    requires ids <= all && moved !! back && moved + back == ids
    ensures (all - ids) + back == all - moved
  {
  }

  // Whatever enqueues fail, every popped id is either enqueued or rescheduled, and not both, as
  // long as the fallback reschedules succeed; the set loses the enqueued ids and no others.
  lemma SweepConserves(scores: Scores, now: Time, limit: nat, turns: Turns)
    requires AllGoOn(turns, |RangeByScore(scores, now, limit)|)
    ensures var ids := RangeByScore(scores, now, limit);
            var (moved, back) := (Chosen(ids, turns, |ids|, Enqueued), Chosen(ids, turns, |ids|, Rescheduled));
            && moved !! back && moved + back == Members(ids)
            && Rescheduling(Remove(scores, ids), ids, turns, |ids|).Keys == scores.Keys - moved
  {
    var ids := RangeByScore(scores, now, limit);
    RangeIsLowestDue(scores, now, limit);
    TurnsDivide(ids, turns, |ids|);
    assert ids[..|ids|] == ids;
    ReschedulingKeys(Remove(scores, ids), ids, turns, |ids|);
    OnlyMovedLeave(scores.Keys, Members(ids), Chosen(ids, turns, |ids|, Enqueued),
                   Chosen(ids, turns, |ids|, Rescheduled));
  }

  // ---------------------------------------------------------------- what a failing reschedule loses

  lemma {:induction false} TakenGoOn(ids: seq<TaskId>, turns: Turns, n: nat, k: nat)
    requires n <= |ids| && n <= k < TurnsTaken(ids, turns, n) - 1
    ensures GoesOn(turns(k))
    decreases |ids| - n
  {
    if n < k {
      TakenGoOn(ids, turns, n + 1, k);
    }
  }

  lemma {:induction false} TakenEnds(ids: seq<TaskId>, turns: Turns, n: nat)
    requires n <= |ids| && ids != [] && (n > 0 ==> GoesOn(turns(n - 1)))
    ensures var taken := TurnsTaken(ids, turns, n); taken == |ids| || (taken > 0 && !GoesOn(turns(taken - 1)))
    decreases |ids| - n
  {
    if n < |ids| && GoesOn(turns(n)) {
      TakenEnds(ids, turns, n + 1);
    }
  }

  lemma {:induction false} SelectedIff(ids: seq<TaskId>, turns: Turns, n: nat, effect: Effect, k: nat)
    requires n <= |ids| && k < |ids| && Distinct(ids)
    ensures ids[k] in Select(ids, turns, n, effect) <==> k < n && Has(turns(k), effect)
  {
    if n > 0 {
      SelectedIff(ids, turns, n - 1, effect, k);
    }
  }

  lemma {:induction false} RescheduledIff(scores: Scores, ids: seq<TaskId>, turns: Turns, n: nat, k: nat)
    requires n <= |ids| && k < |ids| && Distinct(ids) && ids[k] !in scores
    ensures ids[k] in Rescheduling(scores, ids, turns, n) <==> k < n && Has(turns(k), Rescheduled)
  {
    if n > 0 {
      RescheduledIff(scores, ids, turns, n - 1, k);
    }
  }

  // After the sweep the task is on the stream or in the set.
  predicate Kept(stream: Stream, scores: Scores, ids: seq<TaskId>, turns: Turns, task: TaskId) {
    var taken := TurnsTaken(ids, turns, 0);
    task in SweptStream(stream, ids, turns, taken).queue || task in Rescheduling(scores, ids, turns, taken)
  }

  // The popped ids are nowhere else.
  predicate OnlyPopped(stream: Stream, scores: Scores, ids: seq<TaskId>) {
    Distinct(ids) && forall task | task in ids :: task !in stream.queue && task !in scores
  }

  // The ids from the failed turn on: without the failed one if its enqueue took effect.
  function LostFrom(ids: seq<TaskId>, turns: Turns): (k: nat)
    ensures k <= |ids|
  {
    var taken := TurnsTaken(ids, turns, 0);
    if taken > 0 && !GoesOn(turns(taken - 1)) && !Took(turns(taken - 1).reply) then taken - 1 else taken
  }

  // A failing reschedule loses exactly the ids from there on.
  lemma LostIds(stream: Stream, scores: Scores, ids: seq<TaskId>, turns: Turns, k: nat)
    requires OnlyPopped(stream, scores, ids) && k < |ids|
    ensures Kept(stream, scores, ids, turns, ids[k]) <==> k < LostFrom(ids, turns)
  {
    var taken := TurnsTaken(ids, turns, 0);
    assert ids[k] in ids;
    SelectedIff(ids, turns, taken, Added, k);
    RescheduledIff(scores, ids, turns, taken, k);
    if k < taken - 1 { TakenGoOn(ids, turns, 0, k); }
  }

  // No popped id is lost if and only if every turn goes on, or only the last one does not and its
  // enqueue took effect all the same.
  lemma NothingLostIff(stream: Stream, scores: Scores, ids: seq<TaskId>, turns: Turns)
    requires OnlyPopped(stream, scores, ids)
    ensures (forall task | task in ids :: Kept(stream, scores, ids, turns, task)) <==>
            AllGoOn(turns, |ids|) || (TurnsTaken(ids, turns, 0) == |ids| && Took(turns(|ids| - 1).reply))
  {
    var taken := TurnsTaken(ids, turns, 0);
    if ids != [] {
      TakenEnds(ids, turns, 0);
      forall k | 0 <= k < taken - 1 ensures GoesOn(turns(k)) {
        TakenGoOn(ids, turns, 0, k);
      }
      forall k | 0 <= k < |ids| ensures Kept(stream, scores, ids, turns, ids[k]) <==> k < LostFrom(ids, turns) {
        LostIds(stream, scores, ids, turns, k);
      }
      if LostFrom(ids, turns) < |ids| {
        assert !Kept(stream, scores, ids, turns, ids[LostFrom(ids, turns)]);
      }
    }
  }

  // The number that the sweep returns is the number of ids enqueued.
  lemma SweepCounts(scores: Scores, now: Time, limit: nat, turns: Turns)
    requires AllGoOn(turns, |RangeByScore(scores, now, limit)|)
    ensures var ids := RangeByScore(scores, now, limit);
            Counted(ids, turns) == Some(|Chosen(ids, turns, |ids|, Enqueued)|)
  {
    var ids := RangeByScore(scores, now, limit);
    RangeIsLowestDue(scores, now, limit);
    ChosenAreAsMany(ids, turns, |ids|, Enqueued);
  }

  // ---------------------------------------------------------------- the sweep as a run of the protocol

  function Moves(turns: Turns, n: nat): (actions: seq<Action>)
    ensures |actions| == n
  {
    if n == 0 then [] else Moves(turns, n - 1) + [Move(turns(n - 1))]
  }

  function Move(turn: Turn): Action {
    Sweep(Reenqueue(turn.reply, turn.at, turn.rescheduled))
  }

  function Moved(s: State, ids: seq<TaskId>, turns: Turns, n: nat): State
    requires n <= |ids|
  {
    s.(stream := SweptStream(s.stream, ids, turns, n),
       retry := Rescheduling(s.retry, ids, turns, n),
       sweep := if n == |ids| || (n > 0 && !GoesOn(turns(n - 1))) then Resting else Moving(ids[n..]))
  }

  lemma OneMove(s: State, ids: seq<TaskId>, turns: Turns, n: nat)
    requires n < |ids| && AllGoOn(turns, n)
    ensures Step(Moved(s, ids, turns, n), Move(turns(n))) == Moved(s, ids, turns, n + 1)
  {
    assert n > 0 ==> GoesOn(turns(n - 1));
    assert ids[n..][0] == ids[n] && ids[n..][1..] == ids[n + 1..];
    var queue := s.stream.queue;
    assert queue + Select(ids, turns, n, Added) + [ids[n]] == queue + (Select(ids, turns, n, Added) + [ids[n]]);
  }

  lemma {:induction false} MovesAreARun(s: State, ids: seq<TaskId>, turns: Turns, n: nat)
    requires s.sweep == Moving(ids) && ids != [] && n <= |ids| && AllGoOn(turns, if n == 0 then 0 else n - 1)
    ensures Run(s, Moves(turns, n)) == Moved(s, ids, turns, n)
  {
    if n == 0 {
      assert ids[0..] == ids && s.stream.queue + [] == s.stream.queue;
    } else {
      MovesAreARun(s, ids, turns, n - 1);
      OneMove(s, ids, turns, n - 1);
      assert Moves(turns, n)[..n - 1] == Moves(turns, n - 1);
    }
  }

  // Actions of the other processes.
  predicate Elsewhere(actions: seq<Action>) {
    forall a | a in actions :: !a.Sweep? && !a.RestartBackend?
  }

  lemma WorkersOnlyAddRetries(s: State, w: WorkerId, a: WorkerAction)
    ensures StepWorker(s, w, a).sweep == s.sweep && s.retry.Keys <= StepWorker(s, w, a).retry.Keys
  {
  }

  lemma CreatorsLeaveRetries(s: State, run: RunId, a: CreatorAction)
    ensures StepCreator(s, run, a).sweep == s.sweep && StepCreator(s, run, a).retry == s.retry
  {
  }

  lemma ReclaimersLeaveRetries(s: State, a: ReclaimAction)
    ensures StepReclaimer(s, a).sweep == s.sweep && StepReclaimer(s, a).retry == s.retry
  {
  }

  // Meanwhile the other processes can only schedule retries.
  lemma {:induction false} MeanwhileOnlyArrivals(s: State, between: seq<Action>)
    requires Elsewhere(between)
    ensures Run(s, between).sweep == s.sweep && s.retry.Keys <= Run(s, between).retry.Keys
    decreases |between|
  {
    if between != [] {
      var (front, last) := (between[..|between| - 1], between[|between| - 1]);
      assert last in between && forall a | a in front :: a in between;
      MeanwhileOnlyArrivals(s, front);
      var m := Run(s, front);
      match last
      case Work(w, working) => WorkersOnlyAddRetries(m, w, working);
      case Create(run, creating) => CreatorsLeaveRetries(m, run, creating);
      case Reclaim(reclaiming) => ReclaimersLeaveRetries(m, reclaiming);
      case Tick(_) =>
    }
  }

  lemma ReadingIsAStep(s: State, now: Time, limit: nat)
    requires s.sweep.Resting? && RangeByScore(s.retry, now, limit) != []
    ensures var ids := RangeByScore(s.retry, now, limit);
            Run(s, [Sweep(ReadDue(now, limit, ids))]) == s.(sweep := Reading(ids))
  {
    var ids := RangeByScore(s.retry, now, limit);
    RangeIsLowestDue(s.retry, now, limit);
    assert [Sweep(ReadDue(now, limit, ids))][..0] == [];
  }

  lemma MovingIsARun(m: State, ids: seq<TaskId>, turns: Turns)
    requires m.sweep == Reading(ids) && ids != []
    ensures var taken := TurnsTaken(ids, turns, 0);
            Run(m, [Sweep(RemoveDue(true))] + Moves(turns, taken)) ==
            m.(stream := SweptStream(m.stream, ids, turns, taken),
               retry := Rescheduling(Remove(m.retry, ids), ids, turns, taken),
               sweep := Resting)
  {
    var taken := TurnsTaken(ids, turns, 0);
    assert [Sweep(RemoveDue(true))][..0] == [];
    RunAppend(m, [Sweep(RemoveDue(true))], Moves(turns, taken));
    forall k | 0 <= k < taken - 1 ensures GoesOn(turns(k)) {
      TakenGoOn(ids, turns, 0, k);
    }
    MovesAreARun(m.(retry := Remove(m.retry, ids), sweep := Moving(ids)), ids, turns, taken);
    TakenEnds(ids, turns, 0);
  }

  // The sweeper's actions for a sweep that finds something due, with what the other processes do
  // between the read and the removal.
  function Script(now: Time, limit: nat, ids: seq<TaskId>, between: seq<Action>, turns: Turns): seq<Action> {
    [Sweep(ReadDue(now, limit, ids))] + (between + ([Sweep(RemoveDue(true))] + Moves(turns, TurnsTaken(ids, turns, 0))))
  }

  // A sweep is a run of the protocol. Between its read and its removal other processes may do
  // anything; what that adds to the set are the arrivals of SweepOnce, and the sweep ends in the
  // stream and the set that SweepOnce ends in.
  lemma SweepIsARun(s: State, now: Time, limit: nat, between: seq<Action>, turns: Turns)
    requires s.sweep.Resting? && RangeByScore(s.retry, now, limit) != [] && Elsewhere(between)
    ensures var ids := RangeByScore(s.retry, now, limit);
            var taken := TurnsTaken(ids, turns, 0);
            var meanwhile := Run(s.(sweep := Reading(ids)), between);
            Run(s, Script(now, limit, ids, between, turns)) ==
            meanwhile.(stream := SweptStream(meanwhile.stream, ids, turns, taken),
                       retry := Rescheduling(Remove(s.retry + meanwhile.retry, ids), ids, turns, taken),
                       sweep := Resting)
  {
    var ids := RangeByScore(s.retry, now, limit);
    var reading := s.(sweep := Reading(ids));
    var meanwhile := Run(reading, between);
    var moving := [Sweep(RemoveDue(true))] + Moves(turns, TurnsTaken(ids, turns, 0));
    ReadingIsAStep(s, now, limit);
    RunAppend(s, [Sweep(ReadDue(now, limit, ids))], between + moving);
    RunAppend(reading, between, moving);
    MeanwhileOnlyArrivals(reading, between);
    assert s.retry + meanwhile.retry == meanwhile.retry;
    MovingIsARun(meanwhile, ids, turns);
  }

  // ---------------------------------------------------------------- draining

  // What k clean sweeps at the same time leave.
  function AfterSweeps(scores: Scores, now: Time, limit: nat, k: nat): Scores {
    if k == 0 then scores
    else
      var before := AfterSweeps(scores, now, limit, k - 1);
      Remove(before, RangeByScore(before, now, limit))
  }

  lemma OneSweepDrains(scores: Scores, now: Time, limit: nat)
    ensures var (due, left) := (Due(scores, now), Remove(scores, RangeByScore(scores, now, limit)));
            && |Due(left, now)| == (if |due| <= limit then 0 else |due| - limit)
            && left.Keys - Due(left, now) == scores.Keys - due
  {
    var ids := RangeByScore(scores, now, limit);
    var left := Remove(scores, ids);
    RangeIsLowestDue(scores, now, limit);
    DistinctSize(ids);
    assert Due(left, now) == Due(scores, now) - Members(ids);
    assert Due(scores, now) == Due(left, now) + Members(ids);
    assert left.Keys - Due(left, now) == scores.Keys - Due(scores, now);
  }

  // k clean sweeps take k times the limit off the due members, and touch no other: n due members
  // are gone after the k-th sweep if and only if n <= k * limit.
  lemma {:induction false} SweepsDrain(scores: Scores, now: Time, limit: nat, k: nat)
    ensures var (n, left) := (|Due(scores, now)|, AfterSweeps(scores, now, limit, k));
            && |Due(left, now)| == (if n <= k * limit then 0 else n - k * limit)
            && (Due(left, now) == {} <==> n <= k * limit)
            && left.Keys - Due(left, now) == scores.Keys - Due(scores, now)
  {
    if k > 0 {
      SweepsDrain(scores, now, limit, k - 1);
      OneSweepDrains(AfterSweeps(scores, now, limit, k - 1), now, limit);
      assert k * limit == (k - 1) * limit + limit;
    }
  }
}
