// The delayed-retry sorted set: backoff, and reading what is due.
module RetryQueue {
  import opened Records

  // ---------------------------------------------------------------- backoff

  function Pow2(n: nat): (p: nat)
    ensures p >= 1
  {
    if n == 0 then 1 else 2 * Pow2(n - 1)
  }

  const BACKOFF_CAP: nat := 60

  function ComputeBackoffSeconds(retryCount: nat): nat {
    var delay := 2 * Pow2(retryCount);
    if delay <= BACKOFF_CAP then delay else BACKOFF_CAP
  }

  // The total delay before the attempt that follows n failures.
  function CumulativeBackoff(n: nat): nat {
    if n == 0 then 0 else CumulativeBackoff(n - 1) + ComputeBackoffSeconds(n - 1)
  }

  lemma {:induction false} Pow2Monotone(m: nat, n: nat)
    requires m <= n
    ensures Pow2(m) <= Pow2(n)
    decreases n
  {
    if m < n {
      Pow2Monotone(m, n - 1);
    }
  }

  lemma BackoffIsMonotoneAndCapped(m: nat, n: nat)
    requires m <= n
    ensures 2 <= ComputeBackoffSeconds(m) <= ComputeBackoffSeconds(n) <= BACKOFF_CAP
    ensures ComputeBackoffSeconds(n) == BACKOFF_CAP <==> n >= 5
  {
    Pow2Monotone(m, n);
    assert Pow2(5) == 32 && Pow2(4) == 16 by { assert Pow2(1) == 2; assert Pow2(3) == 8; }
    if n >= 5 { Pow2Monotone(5, n); } else { Pow2Monotone(n, 4); }
  }

  lemma {:induction false} CumulativeBackoffClosedForm(n: nat)
    ensures n <= 5 ==> CumulativeBackoff(n) == Pow2(n + 1) - 2
    ensures n >= 5 ==> CumulativeBackoff(n) == 62 + 60 * (n - 5)
  {
    if n > 0 {
      CumulativeBackoffClosedForm(n - 1);
      BackoffIsMonotoneAndCapped(n - 1, n - 1);
      assert Pow2(6) == 64 by { assert Pow2(1) == 2; assert Pow2(3) == 8; assert Pow2(5) == 32; }
    }
  }

  // ---------------------------------------------------------------- the sorted set

  type Scores = map<TaskId, Time>

  // Redis orders members by score, and members of equal score by name.
  predicate Before(z: Scores, t: TaskId, u: TaskId) {
    t in z && u in z && (z[t] < z[u] || (z[t] == z[u] && t <= u))
  }

  predicate InOrder(z: Scores, ids: seq<TaskId>) {
    forall i, j :: 0 <= i < j < |ids| ==> Before(z, ids[i], ids[j])
  }

  function Due(z: Scores, now: Time): set<TaskId> {
    set t | t in z && z[t] <= now
  }

  lemma {:induction false} FirstExists(z: Scores, s: set<TaskId>)
    requires s != {} && s <= z.Keys
    ensures exists t | t in s :: forall u | u in s :: Before(z, t, u)
    decreases |s|
  {
    var x :| x in s;
    var rest := s - {x};
    if rest == {} {
      assert s == {x};
    } else {
      FirstExists(z, rest);
      var t :| t in rest && forall u | u in rest :: Before(z, t, u);
      var first := if Before(z, x, t) then x else t;
      assert forall u | u in s :: u == x || u in rest;
      assert forall u | u in s :: Before(z, first, u);
    }
  }

  function First(z: Scores, s: set<TaskId>): (t: TaskId)
    requires s != {} && s <= z.Keys
    ensures t in s && forall u | u in s :: Before(z, t, u)
  {
    FirstExists(z, s);
    var t :| t in s && forall u | u in s :: Before(z, t, u);
    t
  }

  function Sorted(z: Scores, s: set<TaskId>): seq<TaskId>
    requires s <= z.Keys
    decreases |s|
  {
    if s == {} then [] else
      var t := First(z, s);
      [t] + Sorted(z, s - {t})
  }

  // ZRANGEBYSCORE -inf now LIMIT 0 limit
  function RangeByScore(z: Scores, now: Time, limit: nat): seq<TaskId> {
    var all := Sorted(z, Due(z, now));
    if |all| <= limit then all else all[..limit]
  }

  function Members(ids: seq<TaskId>): set<TaskId> {
    set t | t in ids
  }

  function Remove(z: Scores, ids: seq<TaskId>): Scores {
    z - Members(ids)
  }

  predicate Distinct(ids: seq<TaskId>) {
    forall i, j :: 0 <= i < j < |ids| ==> ids[i] != ids[j]
  }

  lemma {:induction false} DistinctSize(ids: seq<TaskId>)
    requires Distinct(ids)
    ensures |Members(ids)| == |ids|
    decreases |ids|
  {
    if ids == [] {
      assert Members(ids) == {};
    } else {
      var n := |ids| - 1;
      DistinctSize(ids[..n]);
      assert ids == ids[..n] + [ids[n]];
      assert Members(ids) == Members(ids[..n]) + {ids[n]};
    }
  }

  lemma {:induction false} SortedHasMembers(z: Scores, s: set<TaskId>)
    requires s <= z.Keys
    ensures Members(Sorted(z, s)) == s && |Sorted(z, s)| == |s|
    decreases |s|
  {
    if s != {} {
      var t := First(z, s);
      var rest := Sorted(z, s - {t});
      SortedHasMembers(z, s - {t});
      assert Members([t] + rest) == {t} + Members(rest);
    }
  }

  lemma {:induction false} SortedIsSorted(z: Scores, s: set<TaskId>)
    requires s <= z.Keys
    ensures Distinct(Sorted(z, s)) && InOrder(z, Sorted(z, s))
    decreases |s|
  {
    if s != {} {
      var t := First(z, s);
      var rest := Sorted(z, s - {t});
      SortedIsSorted(z, s - {t});
      SortedHasMembers(z, s - {t});
      assert forall i :: 0 <= i < |rest| ==> rest[i] in Members(rest);
    }
  }

  // Distinct due members in order: every due member unless the limit cuts the list, and then
  // those that come before all the due members left behind.
  predicate LowestDue(z: Scores, now: Time, limit: nat, ids: seq<TaskId>) {
    && Distinct(ids)
    && InOrder(z, ids)
    && Members(ids) <= Due(z, now)
    && |ids| == (if |Due(z, now)| <= limit then |Due(z, now)| else limit)
    && forall t, u | t in ids && u in Due(z, now) - Members(ids) :: Before(z, t, u)
  }

  lemma RangeIsLowestDue(z: Scores, now: Time, limit: nat)
    ensures LowestDue(z, now, limit, RangeByScore(z, now, limit))
  {
    var all, ids := Sorted(z, Due(z, now)), RangeByScore(z, now, limit);
    SortedHasMembers(z, Due(z, now));
    SortedIsSorted(z, Due(z, now));
    assert forall t | t in ids :: t in Members(all);
    forall t, u | t in ids && u in Due(z, now) - Members(ids) ensures Before(z, t, u) {
      assert u in Members(all);
      var i :| 0 <= i < |ids| && ids[i] == t;
      var j :| 0 <= j < |all| && all[j] == u;
      assert j >= |ids| && all[i] == t;
    }
  }

  // ---------------------------------------------------------------- the queue

  class RetryZset {
    var scores: Scores

    constructor ()
      ensures scores == map[]
    {
      scores := map[];
    }

    method ScheduleRetry(task: TaskId, nextAttemptAt: Time)
      modifies this
      ensures scores == old(scores)[task := nextAttemptAt]
    {
      scores := scores[task := nextAttemptAt];
    }

    // Read, then remove: two commands, between which other processes may schedule `arrivals`. A
    // due member that is rescheduled in between is removed all the same, but then it is also
    // returned: nothing leaves the set without being returned.
    method PopDue(now: Time, limit: nat, arrivals: Scores) returns (ids: seq<TaskId>)
      modifies this
      ensures ids == RangeByScore(old(scores), now, limit) && LowestDue(old(scores), now, limit, ids)
      ensures scores == Remove(old(scores) + arrivals, ids)
      ensures scores.Keys + Members(ids) == old(scores).Keys + arrivals.Keys && scores.Keys !! Members(ids)
    {
      RangeIsLowestDue(scores, now, limit);
      var due := RangeByScore(scores, now, limit);
      scores := scores + arrivals;
      if |due| == 0 {
        assert Members(due) == {};
        return [];
      }
      scores := Remove(scores, due);
      ids := due;
      assert Members(ids) <= old(scores).Keys;
    }
  }
}
