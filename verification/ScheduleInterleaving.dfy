// Concurrent edits and sweeps of schedules: each reads a row in one step and writes it in another.
module ScheduleInterleaving {
  import opened Wrappers
  import opened Records
  import opened RetryQueue
  import opened Cron

  // A database session: a request that edits a schedule, or a sweep.
  type Session = nat

  datatype Move =
    | Insert(id: ScheduleId, spec: Spec, isActive: bool, now: Time)
    | Remove(id: ScheduleId)
    | Load(session: Session, id: ScheduleId)
    | Save(session: Session, id: ScheduleId, fields: Fields, now: Time)
    | List(session: Session, now: Time, limit: nat)
    | Advance(session: Session, id: ScheduleId, clock: Time)

  // The rows as they are, and as the sessions have read them: to edit one, or because it is due.
  datatype World = World(
    rows: Schedules,
    loaded: map<(Session, ScheduleId), Schedule>,
    listed: map<(Session, ScheduleId), Schedule>)

  const EMPTY_WORLD := World(map[], map[], map[])

  // The UPDATE of a session that has read one row and decided on another: the ORM writes the
  // columns that the two do not share, into the row as it is now, and leaves out all others.
  function Patched(row: Schedule, read: Schedule, decided: Schedule): Schedule {
    Schedule(Spec(Changed(row.spec.cronExpression, read.spec.cronExpression, decided.spec.cronExpression),
                  Changed(row.spec.timezone, read.spec.timezone, decided.spec.timezone)),
             Changed(row.isActive, read.isActive, decided.isActive),
             Changed(row.nextRunAt, read.nextRunAt, decided.nextRunAt),
             Changed(row.lastRunAt, read.lastRunAt, decided.lastRunAt))
  }

  function Changed<T(==)>(now: T, read: T, decided: T): T {
    if decided == read then now else decided
  }

  // Into the row that was read, the changed columns write just what was decided.
  lemma NothingInBetween(read: Schedule, decided: Schedule)
    ensures Patched(read, read, decided) == decided
  {
  }

  predicate CanSave(w: World, m: Move) {
    m.Save? && (m.session, m.id) in w.loaded && m.id in w.rows
  }

  predicate CanAdvance(w: World, m: Move) {
    m.Advance? && (m.session, m.id) in w.listed && m.id in w.rows
  }

  function Listing(w: World, session: Session, ids: seq<ScheduleId>): map<(Session, ScheduleId), Schedule> {
    map id | id in ids && id in w.rows :: (session, id) := w.rows[id]
  }

  // The row that the writer has read.
  function Basis(w: World, m: Move): Schedule
    requires CanSave(w, m) || CanAdvance(w, m)
  {
    if m.Save? then w.loaded[(m.session, m.id)] else w.listed[(m.session, m.id)]
  }

  // What it makes of that row.
  function Decided(next: Next, w: World, m: Move): Schedule
    requires CanSave(w, m) || CanAdvance(w, m)
  {
    match m
    case Save(_, _, fields, now) => Edited(next, Basis(w, m), fields, now)
    case Advance(_, _, clock) => Advanced(next, Basis(w, m), clock)
  }

  // An edit refreshes the row that it has written; a sweep is done with it.
  function Play(next: Next, w: World, m: Move): World {
    match m
    case Insert(id, spec, isActive, now) =>
      if id in w.rows then w
      else w.(rows := w.rows[id := Schedule(spec, isActive, NextRun(next, spec, isActive, now), None)])
    case Remove(id) => w.(rows := w.rows - {id})
    case Load(session, id) =>
      if id in w.rows then w.(loaded := w.loaded[(session, id) := w.rows[id]]) else w
    case Save(session, id, fields, now) =>
      if !CanSave(w, m) then w
      else
        var row := Patched(w.rows[id], w.loaded[(session, id)], Decided(next, w, m));
        w.(rows := w.rows[id := row], loaded := w.loaded[(session, id) := row])
    case List(session, now, limit) => w.(listed := w.listed + Listing(w, session, ListDue(w.rows, now, limit)))
    case Advance(session, id, clock) =>
      if !CanAdvance(w, m) then w
      else
        var row := Patched(w.rows[id], w.listed[(session, id)], Decided(next, w, m));
        w.(rows := w.rows[id := row], listed := w.listed - {(session, id)})
  }

  function PlayAll(next: Next, moves: seq<Move>): World {
    if moves == [] then EMPTY_WORLD else Play(next, PlayAll(next, moves[..|moves| - 1]), moves[|moves| - 1])
  }

  // ---------------------------------------------------------------- operations with nothing in between

  // Reading a schedule and saving it at once is the whole update.
  lemma LoadThenSaveIsUpdate(next: Next, w: World, session: Session, id: ScheduleId, fields: Fields, now: Time, b: Book)
    requires b.schedules == w.rows && b.firings.Keys == b.schedules.Keys
    ensures Play(next, Play(next, w, Load(session, id)), Save(session, id, fields, now)).rows ==
            Apply(next, b, Update(id, fields, now)).schedules
  {
    if id in w.rows { NothingInBetween(w.rows[id], Edited(next, w.rows[id], fields, now)); }
  }

  // Inserting and removing are one step each.
  lemma InsertIsCreate(next: Next, w: World, id: ScheduleId, spec: Spec, isActive: bool, now: Time, b: Book)
    requires b.schedules == w.rows && b.firings.Keys == b.schedules.Keys
    ensures Play(next, w, Insert(id, spec, isActive, now)).rows ==
            Apply(next, b, Create(id, spec, isActive, now)).schedules
    ensures Play(next, w, Remove(id)).rows == Apply(next, b, Delete(id)).schedules
  {
  }

  function AfterAdvances(next: Next, w: World, session: Session, ids: seq<ScheduleId>, clocks: ScheduleId -> Time,
                         n: nat): World
    requires n <= |ids|
  {
    if n == 0 then w
    else
      Play(next, AfterAdvances(next, w, session, ids, clocks, n - 1), Advance(session, ids[n - 1], clocks(ids[n - 1])))
  }

  predicate ListedFrom(rows: Schedules, w: World, session: Session, ids: seq<ScheduleId>, n: nat) {
    forall k | n <= k < |ids| ::
      ids[k] in rows && (session, ids[k]) in w.listed && w.listed[(session, ids[k])] == rows[ids[k]]
  }

  lemma {:induction false} AdvancesAreSwept(next: Next, w: World, session: Session, ids: seq<ScheduleId>,
                                            clocks: ScheduleId -> Time, n: nat)
    requires n <= |ids| && Distinct(ids) && ListedFrom(w.rows, w, session, ids, 0)
    ensures var after := AfterAdvances(next, w, session, ids, clocks, n);
            after.rows == Swept(next, w.rows, ids[..n], clocks) && ListedFrom(w.rows, after, session, ids, n)
  {
    if n > 0 {
      var before := AfterAdvances(next, w, session, ids, clocks, n - 1);
      var id := ids[n - 1];
      AdvancesAreSwept(next, w, session, ids, clocks, n - 1);
      assert id !in ids[..n - 1] && before.rows[id] == w.rows[id];
      NothingInBetween(w.rows[id], Advanced(next, w.rows[id], clocks(id)));
      assert ids[..n] == ids[..n - 1] + [id];
    }
  }

  lemma {:induction false} AdvancesUnlist(next: Next, w: World, session: Session, ids: seq<ScheduleId>,
                                          clocks: ScheduleId -> Time, n: nat)
    requires n <= |ids| && forall id | id in ids :: id in w.rows
    ensures var after := AfterAdvances(next, w, session, ids, clocks, n);
            after.rows.Keys == w.rows.Keys && forall k | 0 <= k < n :: (session, ids[k]) !in after.listed
  {
    if n > 0 {
      AdvancesUnlist(next, w, session, ids, clocks, n - 1);
      assert ids[n - 1] in ids;
    }
  }

  // Listing the due schedules and advancing each of them at once is the whole sweep.
  lemma ListThenAdvancesIsSweep(next: Next, w: World, session: Session, now: Time, limit: nat,
                                clocks: ScheduleId -> Time, b: Book)
    requires b.schedules == w.rows && b.firings.Keys == b.schedules.Keys
    ensures var ids := ListDue(w.rows, now, limit);
            var after := AfterAdvances(next, Play(next, w, List(session, now, limit)), session, ids, clocks, |ids|);
            && after.rows == Apply(next, b, Sweep(now, limit, clocks)).schedules
            && forall id | id in ids :: (session, id) !in after.listed
  {
    var (ids, listed) := (ListDue(w.rows, now, limit), Play(next, w, List(session, now, limit)));
    ListingIsListed(w, session, ids);
    AdvancesAreSwept(next, listed, session, ids, clocks, |ids|);
    AdvancesUnlist(next, listed, session, ids, clocks, |ids|);
    assert ids[..|ids|] == ids;
  }

  lemma ListingIsListed(w: World, session: Session, ids: seq<ScheduleId>)
    requires forall id | id in ids :: id in w.rows
    ensures ListedFrom(w.rows, w.(listed := w.listed + Listing(w, session, ids)), session, ids, 0)
  {
    forall k | 0 <= k < |ids| ensures (session, ids[k]) in Listing(w, session, ids) {
      assert ids[k] in ids;
    }
  }

  // ---------------------------------------------------------------- when next_run_at and is_active agree

  predicate Agrees(row: Schedule) {
    row.nextRunAt.Some? <==> row.isActive
  }

  predicate AllAgree(w: World) {
    forall id | id in w.rows :: Agrees(w.rows[id])
  }

  predicate ReadsAgree(w: World) {
    && (forall key | key in w.loaded :: Agrees(w.loaded[key]))
    && (forall key | key in w.listed :: Agrees(w.listed[key]) && w.listed[key].isActive)
  }

  // A write is current if it changes the is_active that its session has read, or leaves
  // next_run_at as read, or has decided on the is_active that is in the row.
  predicate Current(next: Next, w: World, m: Move) {
    CanSave(w, m) || CanAdvance(w, m) ==>
      var (read, decided) := (Basis(w, m), Decided(next, w, m));
      || decided.isActive != read.isActive
      || decided.nextRunAt == read.nextRunAt
      || decided.isActive == w.rows[m.id].isActive
  }

  // For a sweep that comes down to: the row is still active, or the clock has not reached the
  // occurrence that the schedule was listed for.
  lemma AdvanceIsCurrentIff(next: Next, w: World, m: Move)
    requires ReadsAgree(w) && CanAdvance(w, m)
    ensures Current(next, w, m) <==>
            w.rows[m.id].isActive || Some(next(Basis(w, m).spec, m.clock)) == Basis(w, m).nextRunAt
  {
  }

  // For an edit: it has no fields, it changes is_active, its is_active is that of the row, or it
  // comes to the next_run_at that it has read.
  lemma SaveIsCurrentIff(next: Next, w: World, m: Move)
    requires ReadsAgree(w) && CanSave(w, m)
    ensures var (read, fields) := (Basis(w, m), m.fields);
            var wanted := if fields.isActive.Some? then fields.isActive.value else read.isActive;
            Current(next, w, m) <==>
              || fields == Fields(None, None, None)
              || wanted != read.isActive
              || wanted == w.rows[m.id].isActive
              || !wanted
              || Decided(next, w, m).nextRunAt == read.nextRunAt
  {
  }

  // From rows that agree, the row written agrees if and only if both columns are written, or
  // neither, or the is_active decided on is the one in the row.
  lemma ColumnsAgreeIff(row: Schedule, decided: Schedule, writesActive: bool, writesNext: bool)
    requires Agrees(row) && Agrees(decided)
    ensures var written := row.(isActive := if writesActive then decided.isActive else row.isActive,
                                nextRunAt := if writesNext then decided.nextRunAt else row.nextRunAt);
            Agrees(written) <==> writesActive == writesNext || decided.isActive == row.isActive
  {
  }

  lemma DecisionsAgree(next: Next, w: World, m: Move)
    requires ReadsAgree(w) && (CanSave(w, m) || CanAdvance(w, m))
    ensures Agrees(Basis(w, m)) && Agrees(Decided(next, w, m))
  {
  }

  lemma MoveAgreesIff(next: Next, w: World, m: Move)
    requires AllAgree(w) && ReadsAgree(w)
    ensures AllAgree(Play(next, w, m)) <==> Current(next, w, m)
  {
    var w' := Play(next, w, m);
    if CanSave(w, m) || CanAdvance(w, m) {
      var (row, read, decided) := (w.rows[m.id], Basis(w, m), Decided(next, w, m));
      DecisionsAgree(next, w, m);
      ColumnsAgreeIff(row, decided, decided.isActive != read.isActive, decided.nextRunAt != read.nextRunAt);
      assert Agrees(w'.rows[m.id]) <==> Current(next, w, m);
      assert forall id | id in w.rows && id != m.id :: w'.rows[id] == w.rows[id];
    }
  }

  lemma MoveReadsAgree(next: Next, w: World, m: Move)
    requires AllAgree(w) && ReadsAgree(w) && AllAgree(Play(next, w, m))
    ensures ReadsAgree(Play(next, w, m))
  {
    if m.List? {
      ListingAgrees(w, m.session, m.now, m.limit);
    } else if CanSave(w, m) {
      assert Agrees(Play(next, w, m).rows[m.id]);
    }
  }

  lemma ListingAgrees(w: World, session: Session, now: Time, limit: nat)
    requires AllAgree(w)
    ensures var listing := Listing(w, session, ListDue(w.rows, now, limit));
            forall key | key in listing :: Agrees(listing[key]) && listing[key].isActive
  {
  }

  predicate AllCurrent(next: Next, moves: seq<Move>)
    decreases |moves|
  {
    moves == [] ||
    (var front := moves[..|moves| - 1];
     AllCurrent(next, front) && Current(next, PlayAll(next, front), moves[|moves| - 1]))
  }

  predicate AlwaysAgree(next: Next, moves: seq<Move>)
    decreases |moves|
  {
    AllAgree(PlayAll(next, moves)) && (moves == [] || AlwaysAgree(next, moves[..|moves| - 1]))
  }

  lemma {:induction false} AllReadsAgree(next: Next, moves: seq<Move>)
    requires AlwaysAgree(next, moves)
    ensures ReadsAgree(PlayAll(next, moves))
    decreases |moves|
  {
    if moves != [] {
      var front := moves[..|moves| - 1];
      AllReadsAgree(next, front);
      MoveReadsAgree(next, PlayAll(next, front), moves[|moves| - 1]);
    }
  }

  // Over every interleaving of edits and sweeps: next_run_at is set exactly for the active
  // schedules all the time if and only if every write is current.
  lemma {:induction false} AlwaysAgreeIff(next: Next, moves: seq<Move>)
    ensures AlwaysAgree(next, moves) <==> AllCurrent(next, moves)
    decreases |moves|
  {
    if moves != [] {
      var front := moves[..|moves| - 1];
      AlwaysAgreeIff(next, front);
      if AlwaysAgree(next, front) {
        AllReadsAgree(next, front);
        MoveAgreesIff(next, PlayAll(next, front), moves[|moves| - 1]);
      }
    }
  }

  // ---------------------------------------------------------------- three interleavings that fail

  lemma PlayOneMore(next: Next, moves: seq<Move>, m: Move)
    ensures PlayAll(next, moves + [m]) == Play(next, PlayAll(next, moves), m)
  {
    assert (moves + [m])[..|moves + [m]| - 1] == moves;
  }

  const DEACTIVATE := Fields(None, None, Some(false))

  // A new active schedule that session 2 has read to deactivate it.
  lemma AboutToDeactivate(next: Next, spec: Spec, now: Time) returns (moves: seq<Move>)
    ensures var row := Schedule(spec, true, Some(next(spec, now)), None);
            PlayAll(next, moves) == World(map[0 := row], map[(2, 0) := row], map[])
  {
    PlayOneMore(next, [], Insert(0, spec, true, now));
    PlayOneMore(next, [] + [Insert(0, spec, true, now)], Load(2, 0));
    moves := [] + [Insert(0, spec, true, now)] + [Load(2, 0)];
  }

  // A sweep that lists the schedule when it is due.
  lemma ListedWhenDue(rows: map<ScheduleId, Schedule>, row: Schedule, due: Time)
    requires rows == map[0 := row] && row.isActive && row.nextRunAt == Some(due)
    ensures 0 in ListDue(rows, due, 1)
  {
    assert DueTimes(rows) == map[0 := due];
    assert Due(DueTimes(rows), due) == {0};
    RangeIsLowestDue(DueTimes(rows), due, 1);
    var ids := ListDue(rows, due, 1);
    assert |ids| == 1 && ids[0] in ids;
  }

  lemma ListingIt(w: World, row: Schedule, due: Time)
    requires w.rows == map[0 := row] && 0 in ListDue(w.rows, due, 1)
    ensures Listing(w, 1, ListDue(w.rows, due, 1)) == map[(1, 0) := row]
  {
  }

  lemma InactiveIsNotListed(rows: Schedules, id: ScheduleId)
    requires id in rows && !rows[id].isActive
    ensures forall later: Time, limit: nat :: id !in ListDue(rows, later, limit)
  {
  }

  lemma ListedOnce(next: Next, spec: Spec, now: Time) returns (moves: seq<Move>)
    ensures var row := Schedule(spec, true, Some(next(spec, now)), None);
            PlayAll(next, moves) == World(map[0 := row], map[(2, 0) := row], map[(1, 0) := row])
  {
    var row := Schedule(spec, true, Some(next(spec, now)), None);
    moves := AboutToDeactivate(next, spec, now);
    ListedWhenDue(map[0 := row], row, next(spec, now));
    ListingIt(PlayAll(next, moves), row, next(spec, now));
    PlayOneMore(next, moves, List(1, next(spec, now), 1));
    moves := moves + [List(1, next(spec, now), 1)];
  }

  // A sweep has listed the schedule, and then it is deactivated.
  lemma ListedThenDeactivated(next: Next, spec: Spec, now: Time) returns (moves: seq<Move>)
    ensures var row := Schedule(spec, true, Some(next(spec, now)), None);
            var after := row.(isActive := false, nextRunAt := None);
            PlayAll(next, moves) == World(map[0 := after], map[(2, 0) := after], map[(1, 0) := row])
  {
    moves := ListedOnce(next, spec, now);
    PlayOneMore(next, moves, Save(2, 0, DEACTIVATE, now));
    moves := moves + [Save(2, 0, DEACTIVATE, now)];
  }

  // A sweep lists the schedule, it is deactivated, and the sweep advances it.
  lemma {:induction false} DeactivatedDuringSweep(next: Next, spec: Spec, now: Time, clock: Time)
    returns (moves: seq<Move>)
    requires next(spec, clock) != next(spec, now)
    ensures var w := PlayAll(next, moves);
            && 0 in w.rows && w.rows[0].nextRunAt.Some? && !w.rows[0].isActive
            && forall later: Time, limit: nat :: 0 !in ListDue(w.rows, later, limit)
  {
    moves := ListedThenDeactivated(next, spec, now);
    PlayOneMore(next, moves, Advance(1, 0, clock));
    moves := moves + [Advance(1, 0, clock)];
    InactiveIsNotListed(PlayAll(next, moves).rows, 0);
  }

  // One session deactivates the schedule; another, which has read it before, changes its cron
  // expression.
  lemma DeactivatedBeforeSave(next: Next, spec: Spec, now: Time, fields: Fields) returns (moves: seq<Move>)
    requires fields.isActive != Some(false)
    requires var read := Schedule(spec, true, Some(next(spec, now)), None);
             Edited(next, read, fields, now).nextRunAt != read.nextRunAt
    ensures var w := PlayAll(next, moves); 0 in w.rows && w.rows[0].nextRunAt.Some? && !w.rows[0].isActive
  {
    moves := AboutToDeactivate(next, spec, now);
    PlayOneMore(next, moves, Load(3, 0));
    moves := moves + [Load(3, 0)];
    PlayOneMore(next, moves, Save(2, 0, DEACTIVATE, now));
    moves := moves + [Save(2, 0, DEACTIVATE, now)];
    PlayOneMore(next, moves, Save(3, 0, fields, now));
    moves := moves + [Save(3, 0, fields, now)];
  }

  lemma {:induction false} DeactivatedDuringEdit(next: Next, spec: Spec, now: Time, cronExpression: string)
    returns (moves: seq<Move>)
    requires next(Spec(cronExpression, spec.timezone), now) != next(spec, now)
    ensures var w := PlayAll(next, moves); 0 in w.rows && w.rows[0].nextRunAt.Some? && !w.rows[0].isActive
  {
    moves := DeactivatedBeforeSave(next, spec, now, Fields(Some(cronExpression), None, None));
  }

  // Sending is_active = true along with it does not help: that is what the session has read, so
  // the column is left out.
  lemma {:induction false} ResentIsActiveIsLeftOut(next: Next, spec: Spec, now: Time, cronExpression: string)
    returns (moves: seq<Move>)
    requires next(Spec(cronExpression, spec.timezone), now) != next(spec, now)
    ensures var w := PlayAll(next, moves); 0 in w.rows && w.rows[0].nextRunAt.Some? && !w.rows[0].isActive
  {
    moves := DeactivatedBeforeSave(next, spec, now, Fields(Some(cronExpression), None, Some(true)));
  }
}
