// Which schedules a sweep fires, and how a backlog drains.
module CronSweeps {
  import opened Wrappers
  import opened Records
  import opened RetryQueue
  import opened Cron

  // A sweep has fired the schedule for its occurrence and moved it on.
  predicate Fired(b: Book, b': Book, id: ScheduleId, now: Time, clock: Time)
    requires b.firings.Keys == b.schedules.Keys && b'.firings.Keys == b'.schedules.Keys
  {
    && id in b.schedules && b.schedules[id].nextRunAt.Some? && id in b'.schedules
    && b'.firings[id] == b.firings[id] + [Firing(b.schedules[id].nextRunAt.value, now, clock)]
    && b'.schedules[id].lastRunAt == Some(clock)
  }

  predicate Untouched(b: Book, b': Book, id: ScheduleId)
    requires b.firings.Keys == b.schedules.Keys && b'.firings.Keys == b'.schedules.Keys
  {
    && id in b.schedules && id in b'.schedules
    && b'.schedules[id] == b.schedules[id] && b'.firings[id] == b.firings[id]
  }

  lemma UntouchedIsNotFired(b: Book, b': Book, id: ScheduleId, now: Time, clock: Time)
    requires b.firings.Keys == b.schedules.Keys && b'.firings.Keys == b'.schedules.Keys && Untouched(b, b', id)
    ensures !Fired(b, b', id, now, clock)
  {
    assert |b'.firings[id]| == |b.firings[id]|;
  }

  lemma SweepFires(next: Next, b: Book, now: Time, limit: nat, clocks: ScheduleId -> Time, id: ScheduleId)
    requires b.firings.Keys == b.schedules.Keys && id in b.schedules
    ensures var b' := Apply(next, b, Sweep(now, limit, clocks));
            if id in ListDue(b.schedules, now, limit) then Fired(b, b', id, now, clocks(id)) else Untouched(b, b', id)
  {
  }

  lemma ListedAll(schedules: Schedules, now: Time, limit: nat)
    ensures var (due, listed) := (DueNow(schedules, now), Members(ListDue(schedules, now, limit)));
            && listed <= due && |listed| == (if |due| <= limit then |due| else limit)
            && (listed == due <==> |due| <= limit)
  {
    var (ids, due) := (ListDue(schedules, now, limit), DueNow(schedules, now));
    ListingIsEarliest(schedules, now, limit);
    DistinctSize(ids);
    assert due == Members(ids) + (due - Members(ids));
  }

  // A sweep fires every active schedule that is due if and only if there are no more than the limit.
  lemma SweepFiresAllIff(next: Next, b: Book, now: Time, limit: nat, clocks: ScheduleId -> Time)
    requires b.firings.Keys == b.schedules.Keys
    ensures var (due, b') := (DueNow(b.schedules, now), Apply(next, b, Sweep(now, limit, clocks)));
            (forall id | id in due :: Fired(b, b', id, now, clocks(id))) <==> |due| <= limit
  {
    var (due, b') := (DueNow(b.schedules, now), Apply(next, b, Sweep(now, limit, clocks)));
    var ids := ListDue(b.schedules, now, limit);
    ListedAll(b.schedules, now, limit);
    forall id | id in due ensures Fired(b, b', id, now, clocks(id)) <==> id in Members(ids) {
      SweepFires(next, b, now, limit, clocks, id);
      if id !in ids { UntouchedIsNotFired(b, b', id, now, clocks(id)); }
    }
    if forall id | id in due :: Fired(b, b', id, now, clocks(id)) {
      assert due <= Members(ids);
    }
  }

  // ---------------------------------------------------------------- draining a backlog

  // The clock has not stepped back behind the moment of the sweep.
  ghost predicate GoesOn(now: Time, clocks: ScheduleId -> Time) {
    forall id: ScheduleId :: now <= clocks(id)
  }

  lemma StillDueIff(occurs: Occurs, next: Next, b: Book, now: Time, limit: nat, clocks: ScheduleId -> Time,
                    id: ScheduleId)
    requires FirstAfter(occurs, next) && b.firings.Keys == b.schedules.Keys && GoesOn(now, clocks)
    ensures var b' := Apply(next, b, Sweep(now, limit, clocks));
            id in DueNow(b'.schedules, now) <==>
            id in DueNow(b.schedules, now) && id !in ListDue(b.schedules, now, limit)
  {
    if id in b.schedules {
      assert IsNext(occurs, b.schedules[id].spec, clocks(id), next(b.schedules[id].spec, clocks(id)));
    }
  }

  // Due schedules are left when a sweep has taken as many as it may.
  predicate TakesLimit(due: set<ScheduleId>, left: set<ScheduleId>, limit: nat) {
    left <= due && |left| == if |due| <= limit then 0 else |due| - limit
  }

  lemma TakenAway(due: set<ScheduleId>, listed: set<ScheduleId>, left: set<ScheduleId>, limit: nat)
    requires listed <= due && |listed| == if |due| <= limit then |due| else limit
    requires forall id: ScheduleId :: id in left <==> id in due && id !in listed
    ensures TakesLimit(due, left, limit)
  {
    assert left == due - listed;
    assert due == left + listed;
  }

  lemma OneSweepDrains(occurs: Occurs, next: Next, b: Book, now: Time, limit: nat, clocks: ScheduleId -> Time)
    requires FirstAfter(occurs, next) && b.firings.Keys == b.schedules.Keys && GoesOn(now, clocks)
    ensures TakesLimit(DueNow(b.schedules, now),
                       DueNow(Apply(next, b, Sweep(now, limit, clocks)).schedules, now), limit)
  {
    var due := DueNow(b.schedules, now);
    var left := DueNow(Apply(next, b, Sweep(now, limit, clocks)).schedules, now);
    var listed := Members(ListDue(b.schedules, now, limit));
    forall id: ScheduleId ensures id in left <==> id in due && id !in listed {
      StillDueIff(occurs, next, b, now, limit, clocks, id);
    }
    ListedAll(b.schedules, now, limit);
    TakenAway(due, listed, left, limit);
  }

  // Sweeps one after another, all for the same moment, each with its own clock readings.
  function AfterSweeps(next: Next, b: Book, now: Time, limit: nat, sweeps: seq<ScheduleId -> Time>): (b': Book)
    requires b.firings.Keys == b.schedules.Keys
    ensures b'.firings.Keys == b'.schedules.Keys
    decreases |sweeps|
  {
    if sweeps == [] then b
    else
      var n := |sweeps| - 1;
      Apply(next, AfterSweeps(next, b, now, limit, sweeps[..n]), Sweep(now, limit, sweeps[n]))
  }

  ghost predicate AllGoOn(now: Time, sweeps: seq<ScheduleId -> Time>) {
    forall i :: 0 <= i < |sweeps| ==> GoesOn(now, sweeps[i])
  }

  // n less k times the limit, but not less than nothing.
  function Remaining(n: nat, limit: nat, k: nat): nat {
    if k == 0 then n
    else
      var before := Remaining(n, limit, k - 1);
      if before <= limit then 0 else before - limit
  }

  lemma {:induction false} RemainingClosedForm(n: nat, limit: nat, k: nat)
    ensures Remaining(n, limit, k) == if n <= k * limit then 0 else n - k * limit
  {
    if k > 0 {
      RemainingClosedForm(n, limit, k - 1);
      assert k * limit == (k - 1) * limit + limit;
    }
  }

  predicate Leaves(due: set<ScheduleId>, left: set<ScheduleId>, limit: nat, k: nat) {
    left <= due && |left| == Remaining(|due|, limit, k)
  }

  lemma LeavesLess(due: set<ScheduleId>, left: set<ScheduleId>, left': set<ScheduleId>, limit: nat, k: nat)
    requires Leaves(due, left, limit, k) && TakesLimit(left, left', limit)
    ensures Leaves(due, left', limit, k + 1)
  {
  }

  lemma {:induction false} SweepsLeave(occurs: Occurs, next: Next, b: Book, now: Time, limit: nat,
                                       sweeps: seq<ScheduleId -> Time>)
    requires FirstAfter(occurs, next) && b.firings.Keys == b.schedules.Keys && AllGoOn(now, sweeps)
    ensures Leaves(DueNow(b.schedules, now), DueNow(AfterSweeps(next, b, now, limit, sweeps).schedules, now),
                   limit, |sweeps|)
    decreases |sweeps|
  {
    if sweeps != [] {
      var n := |sweeps| - 1;
      var m := AfterSweeps(next, b, now, limit, sweeps[..n]);
      SweepsLeave(occurs, next, b, now, limit, sweeps[..n]);
      OneSweepDrains(occurs, next, m, now, limit, sweeps[n]);
      LeavesLess(DueNow(b.schedules, now), DueNow(m.schedules, now),
                 DueNow(Apply(next, m, Sweep(now, limit, sweeps[n])).schedules, now), limit, n);
    }
  }

  // n schedules are due. After k sweeps n - k * limit of them are left, so none is if and only if
  // n <= k * limit.
  lemma SweepsDrainSchedules(occurs: Occurs, next: Next, b: Book, now: Time, limit: nat,
                             sweeps: seq<ScheduleId -> Time>)
    requires FirstAfter(occurs, next) && b.firings.Keys == b.schedules.Keys && AllGoOn(now, sweeps)
    ensures var (n, k) := (|DueNow(b.schedules, now)|, |sweeps|);
            var left := DueNow(AfterSweeps(next, b, now, limit, sweeps).schedules, now);
            && left <= DueNow(b.schedules, now)
            && |left| == (if n <= k * limit then 0 else n - k * limit)
            && (left == {} <==> n <= k * limit)
  {
    SweepsLeave(occurs, next, b, now, limit, sweeps);
    RemainingClosedForm(|DueNow(b.schedules, now)|, limit, |sweeps|);
  }

  // Of those that were due, each is still due and untouched, or it was fired once by one of the
  // sweeps; and no other schedule is touched.
  predicate FiredOnceOrLeft(b: Book, b': Book, id: ScheduleId, now: Time, sweeps: seq<ScheduleId -> Time>)
    requires b.firings.Keys == b.schedules.Keys && b'.firings.Keys == b'.schedules.Keys
  {
    if id in DueNow(b.schedules, now) && id !in DueNow(b'.schedules, now)
    then exists i :: 0 <= i < |sweeps| && Fired(b, b', id, now, sweeps[i](id))
    else Untouched(b, b', id)
  }

  lemma OnceMore(b: Book, m: Book, b': Book, id: ScheduleId, now: Time, sweeps: seq<ScheduleId -> Time>,
                 last: ScheduleId -> Time)
    requires b.firings.Keys == b.schedules.Keys && m.firings.Keys == m.schedules.Keys
    requires b'.firings.Keys == b'.schedules.Keys && id in b.schedules && FiredOnceOrLeft(b, m, id, now, sweeps)
    requires id in DueNow(m.schedules, now) ==> id in DueNow(b.schedules, now)
    requires if id in DueNow(m.schedules, now) && id !in DueNow(b'.schedules, now)
             then Fired(m, b', id, now, last(id)) else Untouched(m, b', id)
    ensures FiredOnceOrLeft(b, b', id, now, sweeps + [last])
  {
    var all := sweeps + [last];
    if id in DueNow(m.schedules, now) {
      assert id !in DueNow(b'.schedules, now) ==> Fired(b, b', id, now, all[|sweeps|](id));
    } else if id in DueNow(b.schedules, now) {
      var i :| 0 <= i < |sweeps| && Fired(b, m, id, now, sweeps[i](id));
      assert Fired(b, b', id, now, all[i](id));
    }
  }

  lemma {:induction false} SweepsFireOnce(occurs: Occurs, next: Next, b: Book, now: Time, limit: nat,
                                          sweeps: seq<ScheduleId -> Time>, id: ScheduleId)
    requires FirstAfter(occurs, next) && b.firings.Keys == b.schedules.Keys && AllGoOn(now, sweeps)
    requires id in b.schedules
    ensures FiredOnceOrLeft(b, AfterSweeps(next, b, now, limit, sweeps), id, now, sweeps)
    decreases |sweeps|
  {
    if sweeps != [] {
      var (front, last) := (sweeps[..|sweeps| - 1], sweeps[|sweeps| - 1]);
      assert sweeps == front + [last];
      var m := AfterSweeps(next, b, now, limit, front);
      SweepsFireOnce(occurs, next, b, now, limit, front, id);
      SweepsLeave(occurs, next, b, now, limit, front);
      StillDueIff(occurs, next, m, now, limit, last, id);
      SweepFires(next, m, now, limit, last, id);
      OnceMore(b, m, Apply(next, m, Sweep(now, limit, last)), id, now, front, last);
    }
  }
}
