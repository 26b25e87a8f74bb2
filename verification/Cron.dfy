// Schedules: keeping next_run_at, and triggering what is due.
module Cron {
  import opened Wrappers
  import opened Records
  import opened RetryQueue

  type ScheduleId = nat

  datatype Spec = Spec(cronExpression: string, timezone: string)

  datatype Schedule = Schedule(spec: Spec, isActive: bool, nextRunAt: Option<Time>, lastRunAt: Option<Time>)

  type Schedules = map<ScheduleId, Schedule>

  // The fields of an update that are present.
  datatype Fields = Fields(cronExpression: Option<string>, timezone: Option<string>, isActive: Option<bool>)

  // ---------------------------------------------------------------- croniter

  type Occurs = (Spec, Time) -> bool
  type Next = (Spec, Time) -> Time

  // All that is assumed of croniter: it gives the first occurrence strictly after its argument.
  ghost predicate FirstAfter(occurs: Occurs, next: Next) {
    forall spec, t :: IsNext(occurs, spec, t, next(spec, t))
  }

  ghost predicate IsNext(occurs: Occurs, spec: Spec, t: Time, u: Time) {
    t < u && occurs(spec, u) && forall v | t < v < u :: !occurs(spec, v)
  }

  // ---------------------------------------------------------------- editing

  function NextRun(next: Next, spec: Spec, isActive: bool, now: Time): Option<Time> {
    if isActive then Some(next(spec, now)) else None
  }

  function Edited(next: Next, schedule: Schedule, fields: Fields, now: Time): Schedule {
    var spec := Spec(if fields.cronExpression.Some? then fields.cronExpression.value else schedule.spec.cronExpression,
                     if fields.timezone.Some? then fields.timezone.value else schedule.spec.timezone);
    var isActive := if fields.isActive.Some? then fields.isActive.value else schedule.isActive;
    if fields == Fields(None, None, None) then schedule
    else schedule.(spec := spec, isActive := isActive, nextRunAt := NextRun(next, spec, isActive, now))
  }

  // Each field is the given one, or else that of the schedule; if any is given, the next run is
  // computed from what the fields are now.
  predicate EditTells(next: Next, schedule: Schedule, fields: Fields, now: Time, edited: Schedule) {
    && edited.spec.cronExpression == Given(fields.cronExpression, schedule.spec.cronExpression)
    && edited.spec.timezone == Given(fields.timezone, schedule.spec.timezone)
    && edited.isActive == Given(fields.isActive, schedule.isActive)
    && edited.lastRunAt == schedule.lastRunAt
    && edited.nextRunAt == if fields.cronExpression.None? && fields.timezone.None? && fields.isActive.None?
                           then schedule.nextRunAt
                           else if edited.isActive then Some(next(edited.spec, now))
                           else None
  }

  function Given<T>(field: Option<T>, otherwise: T): T {
    match field
    case None => otherwise
    case Some(value) => value
  }

  // ---------------------------------------------------------------- sweeping

  function DueTimes(schedules: Schedules): Scores {
    map id | id in schedules && schedules[id].isActive && schedules[id].nextRunAt.Some? :: schedules[id].nextRunAt.value
  }

  predicate IsDue(schedule: Schedule, now: Time) {
    schedule.isActive && schedule.nextRunAt.Some? && schedule.nextRunAt.value <= now
  }

  function DueNow(schedules: Schedules, now: Time): set<ScheduleId> {
    set id | id in schedules && IsDue(schedules[id], now)
  }

  // As many active schedules whose next_run_at has passed as the limit allows, earliest first; none
  // of those left out is earlier.
  predicate ListsEarliest(schedules: Schedules, now: Time, limit: nat, ids: seq<ScheduleId>) {
    var due := DueNow(schedules, now);
    && Distinct(ids) && Members(ids) <= due
    && |ids| == (if |due| <= limit then |due| else limit)
    && (forall i, j | 0 <= i < j < |ids| :: NotLater(schedules, ids[i], ids[j]))
    && forall id, later | id in ids && later in due - Members(ids) :: NotLater(schedules, id, later)
  }

  predicate NotLater(schedules: Schedules, id: ScheduleId, later: ScheduleId) {
    && id in schedules && schedules[id].nextRunAt.Some? && later in schedules && schedules[later].nextRunAt.Some?
    && schedules[id].nextRunAt.value <= schedules[later].nextRunAt.value
  }

  function ListDue(schedules: Schedules, now: Time, limit: nat): (ids: seq<ScheduleId>)
    ensures Distinct(ids)
    ensures forall id | id in ids :: id in schedules && IsDue(schedules[id], now)
  {
    RangeIsLowestDue(DueTimes(schedules), now, limit);
    var ids := RangeByScore(DueTimes(schedules), now, limit);
    assert forall id | id in ids :: id in Members(ids);
    ids
  }

  lemma ListingIsEarliest(schedules: Schedules, now: Time, limit: nat)
    ensures ListsEarliest(schedules, now, limit, ListDue(schedules, now, limit))
  {
    var z := DueTimes(schedules);
    RangeIsLowestDue(z, now, limit);
    assert Due(z, now) == DueNow(schedules, now);
    forall id, later | Before(z, id, later) ensures NotLater(schedules, id, later) { }
  }

  // Triggered or not, a due schedule advances to its first occurrence after the clock reading.
  function Advanced(next: Next, schedule: Schedule, clock: Time): Schedule {
    schedule.(lastRunAt := Some(clock), nextRunAt := Some(next(schedule.spec, clock)))
  }

  // ---------------------------------------------------------------- histories

  // One sweep reads the clock when it lists what is due, and again when it advances each schedule.
  datatype Event =
    | Create(id: ScheduleId, spec: Spec, isActive: bool, now: Time)
    | Update(id: ScheduleId, fields: Fields, now: Time)
    | Delete(id: ScheduleId)
    | Sweep(now: Time, limit: nat, clocks: ScheduleId -> Time)

  // A run triggered for an occurrence, or at least attempted.
  datatype Firing = Firing(occurrence: Time, sweptAt: Time, advancedAt: Time)

  // The schedules, and the firings of each since it was last edited.
  datatype Book = Book(schedules: Schedules, firings: map<ScheduleId, seq<Firing>>)

  function Swept(next: Next, schedules: Schedules, ids: seq<ScheduleId>, clocks: ScheduleId -> Time): Schedules {
    map id | id in schedules :: if id in ids then Advanced(next, schedules[id], clocks(id)) else schedules[id]
  }

  function Fire(b: Book, ids: seq<ScheduleId>, now: Time, clocks: ScheduleId -> Time): map<ScheduleId, seq<Firing>>
    requires b.firings.Keys == b.schedules.Keys
    requires forall id | id in ids :: id in b.schedules && b.schedules[id].nextRunAt.Some?
  {
    map id | id in b.schedules ::
      if id in ids then b.firings[id] + [Firing(b.schedules[id].nextRunAt.value, now, clocks(id))] else b.firings[id]
  }

  function Apply(next: Next, b: Book, e: Event): (b': Book)
    requires b.firings.Keys == b.schedules.Keys
    ensures b'.firings.Keys == b'.schedules.Keys
  {
    match e
    case Create(id, spec, isActive, now) =>
      if id in b.schedules then b
      else
        Book(b.schedules[id := Schedule(spec, isActive, NextRun(next, spec, isActive, now), None)], b.firings[id := []])
    case Update(id, fields, now) =>
      if id !in b.schedules then b
      else Book(b.schedules[id := Edited(next, b.schedules[id], fields, now)],
                if fields == Fields(None, None, None) then b.firings else b.firings[id := []])
    case Delete(id) => Book(b.schedules - {id}, b.firings - {id})
    case Sweep(now, limit, clocks) =>
      var ids := ListDue(b.schedules, now, limit);
      Book(Swept(next, b.schedules, ids, clocks), Fire(b, ids, now, clocks))
  }

  function History(next: Next, events: seq<Event>): (b: Book)
    ensures b.firings.Keys == b.schedules.Keys
    decreases |events|
  {
    if events == [] then Book(map[], map[])
    else Apply(next, History(next, events[..|events| - 1]), events[|events| - 1])
  }

  lemma HistoryAppend(next: Next, events: seq<Event>, e: Event)
    ensures History(next, events + [e]) == Apply(next, History(next, events), e)
  {
    assert (events + [e])[..|events|] == events;
  }

  // A deleted schedule is gone, and is neither listed nor fired, until one is created in its place:
  // that has not run yet.
  lemma {:induction false} DeletedUntilCreated(next: Next, before: seq<Event>, id: ScheduleId, after: seq<Event>)
    requires forall e | e in after :: !(e.Create? && e.id == id)
    ensures var deleted := before + [Delete(id)];
            && id !in History(next, deleted + after).schedules
            && forall spec, isActive, now ::
                 var b := History(next, deleted + after + [Create(id, spec, isActive, now)]);
                 id in b.schedules && b.schedules[id].lastRunAt == None && b.firings[id] == []
    decreases |after|
  {
    var deleted := before + [Delete(id)];
    if after == [] {
      HistoryAppend(next, before, Delete(id));
      assert deleted + after == deleted;
    } else {
      var (front, last) := (after[..|after| - 1], after[|after| - 1]);
      DeletedUntilCreated(next, before, id, front);
      HistoryAppend(next, deleted + front, last);
      assert deleted + after == deleted + front + [last] && last in after;
    }
    forall spec, isActive, now
      ensures var b := History(next, deleted + after + [Create(id, spec, isActive, now)]);
              id in b.schedules && b.schedules[id].lastRunAt == None && b.firings[id] == []
    {
      HistoryAppend(next, deleted + after, Create(id, spec, isActive, now));
    }
  }

  // next_run_at is set if and only if the schedule is active.
  lemma {:induction false} ScheduledIffActive(next: Next, events: seq<Event>)
    ensures forall id, schedule | id in History(next, events).schedules &&
            schedule == History(next, events).schedules[id] ::
              schedule.nextRunAt.Some? <==> schedule.isActive
    decreases |events|
  {
    if events != [] {
      ScheduledIffActive(next, events[..|events| - 1]);
    }
  }

  // ---------------------------------------------------------------- firing is injective

  // The clock does not step back between listing the due schedules and advancing them.
  ghost predicate Steady(events: seq<Event>) {
    forall e | e in events && e.Sweep? :: forall id :: e.now <= e.clocks(id)
  }

  // Every firing is for an occurrence that has passed, and the next one is for the first
  // occurrence after the schedule advanced.
  ghost predicate Chained(occurs: Occurs, spec: Spec, firings: seq<Firing>) {
    && (forall k | 0 <= k < |firings| ::
          occurs(spec, firings[k].occurrence) && firings[k].occurrence <= firings[k].sweptAt <= firings[k].advancedAt)
    && (forall k | 0 < k < |firings| :: IsNext(occurs, spec, firings[k - 1].advancedAt, firings[k].occurrence))
  }

  ghost predicate Ready(occurs: Occurs, schedule: Schedule, firings: seq<Firing>) {
    && Chained(occurs, schedule.spec, firings)
    && (schedule.nextRunAt.Some? ==>
          occurs(schedule.spec, schedule.nextRunAt.value) &&
          (firings != [] ==>
             IsNext(occurs, schedule.spec, firings[|firings| - 1].advancedAt, schedule.nextRunAt.value)))
  }

  lemma FiringStaysReady(occurs: Occurs, next: Next, schedule: Schedule, firings: seq<Firing>, now: Time, clock: Time)
    requires FirstAfter(occurs, next) && Ready(occurs, schedule, firings)
    requires schedule.nextRunAt.Some? && schedule.nextRunAt.value <= now <= clock
    ensures Ready(occurs, Advanced(next, schedule, clock), firings + [Firing(schedule.nextRunAt.value, now, clock)])
  {
    assert IsNext(occurs, schedule.spec, clock, next(schedule.spec, clock));
  }

  lemma StepStaysReady(occurs: Occurs, next: Next, b: Book, e: Event, id: ScheduleId)
    requires FirstAfter(occurs, next) && b.firings.Keys == b.schedules.Keys && (e.Sweep? ==> e.now <= e.clocks(id))
    requires id in b.schedules ==> Ready(occurs, b.schedules[id], b.firings[id])
    ensures var b' := Apply(next, b, e); id in b'.schedules ==> Ready(occurs, b'.schedules[id], b'.firings[id])
  {
    match e
    case Create(_, spec, _, now) => assert IsNext(occurs, spec, now, next(spec, now));
    case Update(i, fields, now) =>
      if i in b.schedules {
        var spec := Edited(next, b.schedules[i], fields, now).spec;
        assert IsNext(occurs, spec, now, next(spec, now));
      }
    case Delete(_) =>
    case Sweep(now, limit, clocks) =>
      if id in ListDue(b.schedules, now, limit) {
        FiringStaysReady(occurs, next, b.schedules[id], b.firings[id], now, clocks(id));
      }
  }

  lemma {:induction false} HistoryIsReady(occurs: Occurs, next: Next, events: seq<Event>, id: ScheduleId)
    requires FirstAfter(occurs, next) && Steady(events)
    ensures var b := History(next, events); id in b.schedules ==> Ready(occurs, b.schedules[id], b.firings[id])
    decreases |events|
  {
    if events != [] {
      var (front, last) := (events[..|events| - 1], events[|events| - 1]);
      assert last in events && forall e | e in front :: e in events;
      HistoryIsReady(occurs, next, front, id);
      StepStaysReady(occurs, next, History(next, front), last, id);
    }
  }

  lemma {:induction false} OccurrencesRise(occurs: Occurs, spec: Spec, firings: seq<Firing>, i: nat, j: nat)
    requires Chained(occurs, spec, firings) && i < j < |firings|
    ensures firings[i].advancedAt < firings[j].occurrence
    decreases j
  {
    assert IsNext(occurs, spec, firings[j - 1].advancedAt, firings[j].occurrence);
    if i < j - 1 {
      OccurrencesRise(occurs, spec, firings, i, j - 1);
    }
  }

  // Over any history, as long as a schedule is not edited, its firings are for different
  // occurrences of its cron expression, none of them in the future.
  lemma FiringIsInjective(occurs: Occurs, next: Next, events: seq<Event>, id: ScheduleId)
    requires FirstAfter(occurs, next) && Steady(events) && id in History(next, events).schedules
    ensures var (spec, firings) := (History(next, events).schedules[id].spec, History(next, events).firings[id]);
            && (forall k | 0 <= k < |firings| ::
                  occurs(spec, firings[k].occurrence) && firings[k].occurrence <= firings[k].sweptAt)
            && forall i, j | 0 <= i < j < |firings| :: firings[i].occurrence < firings[j].occurrence
  {
    HistoryIsReady(occurs, next, events, id);
    var (spec, firings) := (History(next, events).schedules[id].spec, History(next, events).firings[id]);
    forall i, j | 0 <= i < j < |firings| ensures firings[i].occurrence < firings[j].occurrence {
      OccurrencesRise(occurs, spec, firings, i, j);
    }
  }

  // The occurrences that pass until a schedule is advanced are all answered by that one firing,
  // and no later one is skipped.
  lemma MissedOccurrencesCoalesce(occurs: Occurs, next: Next, events: seq<Event>, id: ScheduleId, k: nat, t: Time)
    requires FirstAfter(occurs, next) && Steady(events) && id in History(next, events).schedules
    requires k + 1 < |History(next, events).firings[id]|
    ensures var (spec, firings) := (History(next, events).schedules[id].spec, History(next, events).firings[id]);
            occurs(spec, t) && firings[k].occurrence < t < firings[k + 1].occurrence ==>
              t <= firings[k].advancedAt && forall f | f in firings :: f.occurrence != t
  {
    HistoryIsReady(occurs, next, events, id);
    var (spec, firings) := (History(next, events).schedules[id].spec, History(next, events).firings[id]);
    assert IsNext(occurs, spec, firings[k].advancedAt, firings[k + 1].occurrence);
    forall f | f in firings && firings[k].occurrence < t < firings[k + 1].occurrence ensures f.occurrence != t {
      var i :| 0 <= i < |firings| && firings[i] == f;
      if i < k { OccurrencesRise(occurs, spec, firings, i, k); }
      if k + 1 < i { OccurrencesRise(occurs, spec, firings, k + 1, i); }
    }
  }

  // The clock premise is exact: a schedule moves past the occurrence that it has fired for if and
  // only if its clock had reached that occurrence.
  lemma AdvancesIffClockReached(occurs: Occurs, next: Next, schedule: Schedule, clock: Time)
    requires FirstAfter(occurs, next) && schedule.nextRunAt.Some? && occurs(schedule.spec, schedule.nextRunAt.value)
    ensures Advanced(next, schedule, clock).nextRunAt.value > schedule.nextRunAt.value <==>
            clock >= schedule.nextRunAt.value
  {
    assert IsNext(occurs, schedule.spec, clock, next(schedule.spec, clock));
  }

  // ---------------------------------------------------------------- the service and the scheduler

  class ScheduleTable {
    var schedules: Schedules

    constructor ()
      ensures schedules == map[]
    {
      schedules := map[];
    }
  }

  class ScheduleService {
    const table: ScheduleTable
    const next: Next

    constructor (table: ScheduleTable, next: Next)
      ensures this.table == table && this.next == next
    {
      this.table, this.next := table, next;
    }

    // `id` is the new row's primary key.
    method CreateSchedule(id: ScheduleId, spec: Spec, isActive: bool, now: Time, ghost b: Book)
      requires id !in table.schedules && b.schedules == table.schedules && b.firings.Keys == b.schedules.Keys
      modifies table
      ensures table.schedules == Apply(next, b, Create(id, spec, isActive, now)).schedules
      ensures table.schedules ==
              old(table.schedules)[id := Schedule(spec, isActive,
                                                  if isActive then Some(next(spec, now)) else None, None)]
    {
      var nextRunAt := None;
      if isActive {
        nextRunAt := Some(next(spec, now));
      }
      table.schedules := table.schedules[id := Schedule(spec, isActive, nextRunAt, None)];
    }

    // Whatever subset of the fields is given, next_run_at is computed anew if any of them is.
    method UpdateSchedule(id: ScheduleId, fields: Fields, now: Time, ghost b: Book) returns (found: bool)
      requires b.schedules == table.schedules && b.firings.Keys == b.schedules.Keys
      modifies table
      ensures found <==> id in old(table.schedules)
      ensures table.schedules == Apply(next, b, Update(id, fields, now)).schedules
      ensures if !found then table.schedules == old(table.schedules)
              else
                && table.schedules == old(table.schedules)[id := table.schedules[id]]
                && EditTells(next, old(table.schedules)[id], fields, now, table.schedules[id])
    {
      if id !in table.schedules {
        return false;
      }
      var schedule := table.schedules[id];
      var (cronExpression, timezone, isActive) :=
        (schedule.spec.cronExpression, schedule.spec.timezone, schedule.isActive);
      if fields.cronExpression.Some? {
        cronExpression := fields.cronExpression.value;
      }
      if fields.timezone.Some? {
        timezone := fields.timezone.value;
      }
      if fields.isActive.Some? {
        isActive := fields.isActive.value;
      }
      if fields.cronExpression.Some? || fields.timezone.Some? || fields.isActive.Some? {
        var spec := Spec(cronExpression, timezone);
        var nextRunAt := None;
        if isActive {
          nextRunAt := Some(next(spec, now));
        }
        table.schedules := table.schedules[id := schedule.(spec := spec, isActive := isActive, nextRunAt := nextRunAt)];
      }
      assert b.schedules[id := schedule] == b.schedules;
      found := true;
    }
  }

  // How often triggering succeeds for these schedules.
  function Triggered(ids: seq<ScheduleId>, triggers: ScheduleId -> bool): nat {
    if ids == [] then 0
    else Triggered(ids[..|ids| - 1], triggers) + if triggers(ids[|ids| - 1]) then 1 else 0
  }

  lemma SweptOneMore(next: Next, schedules: Schedules, ids: seq<ScheduleId>, i: nat, clocks: ScheduleId -> Time,
                     triggers: ScheduleId -> bool)
    requires Distinct(ids) && i < |ids| && ids[i] in schedules
    ensures var before := Swept(next, schedules, ids[..i], clocks);
            && before.Keys == schedules.Keys && before[ids[i]] == schedules[ids[i]]
            && Swept(next, schedules, ids[..i + 1], clocks) ==
               before[ids[i] := Advanced(next, schedules[ids[i]], clocks(ids[i]))]
    ensures Triggered(ids[..i + 1], triggers) == Triggered(ids[..i], triggers) + if triggers(ids[i]) then 1 else 0
  {
    assert ids[..i + 1] == ids[..i] + [ids[i]] && ids[..i + 1][..i] == ids[..i] && ids[i] !in ids[..i];
  }

  // Just the schedules listed move on, each to its first occurrence after its own clock reading.
  predicate SweepTells(next: Next, before: Schedules, ids: seq<ScheduleId>, clocks: ScheduleId -> Time,
                       after: Schedules)
  {
    && after.Keys == before.Keys
    && forall id | id in before ::
         && after[id].spec == before[id].spec && after[id].isActive == before[id].isActive
         && (after[id].lastRunAt, after[id].nextRunAt) ==
            if id in ids then (Some(clocks(id)), Some(next(before[id].spec, clocks(id))))
            else (before[id].lastRunAt, before[id].nextRunAt)
  }

  lemma {:induction false} TriggeredIsSize(ids: seq<ScheduleId>, triggers: ScheduleId -> bool)
    requires Distinct(ids)
    ensures Triggered(ids, triggers) == |set id | id in ids && triggers(id)|
    decreases |ids|
  {
    if ids != [] {
      var (front, last) := (ids[..|ids| - 1], ids[|ids| - 1]);
      TriggeredIsSize(front, triggers);
      assert ids == front + [last] && last !in front;
      assert (set id | id in ids && triggers(id)) ==
             (set id | id in front && triggers(id)) + if triggers(last) then {last} else {};
    }
  }

  class CronScheduler {
    const table: ScheduleTable
    const next: Next
    const batchSize: nat

    constructor (table: ScheduleTable, next: Next, batchSize: nat)
      ensures this.table == table && this.next == next && this.batchSize == batchSize
    {
      this.table, this.next, this.batchSize := table, next, batchSize;
    }

    // `triggers` says for which schedules creating the run raises no exception.
    method SweepOnce(now: Time, clocks: ScheduleId -> Time, triggers: ScheduleId -> bool, ghost b: Book)
      returns (triggeredCount: nat)
      requires b.schedules == table.schedules && b.firings.Keys == b.schedules.Keys
      modifies table
      ensures table.schedules == Apply(next, b, Sweep(now, batchSize, clocks)).schedules
      ensures var before := old(table.schedules);
              exists ids ::
                && ListsEarliest(before, now, batchSize, ids) && SweepTells(next, before, ids, clocks, table.schedules)
                && triggeredCount == |set id | id in ids && triggers(id)|
    {
      var dueSchedules := ListDue(table.schedules, now, batchSize);
      ghost var before := table.schedules;
      triggeredCount := 0;
      assert table.schedules == Swept(next, before, dueSchedules[..0], clocks);
      for i := 0 to |dueSchedules|
        invariant table.schedules == Swept(next, before, dueSchedules[..i], clocks)
        invariant triggeredCount == Triggered(dueSchedules[..i], triggers)
      {
        var id := dueSchedules[i];
        SweptOneMore(next, before, dueSchedules, i, clocks, triggers);
        if triggers(id) {
          triggeredCount := triggeredCount + 1;
        }
        var schedule := table.schedules[id];
        table.schedules := table.schedules[id := schedule.(lastRunAt := Some(clocks(id)),
                                                           nextRunAt := Some(next(schedule.spec, clocks(id))))];
      }
      assert dueSchedules[..|dueSchedules|] == dueSchedules;
      TriggeredIsSize(dueSchedules, triggers);
      ListingIsEarliest(before, now, batchSize);
    }
  }
}
