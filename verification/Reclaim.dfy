// When an entry may be processed again: never itself, and never while a prompt worker holds it.
module Reclaim {
  import opened Wrappers
  import opened Records
  import opened Sequences
  import opened RetryQueue
  import opened Streams
  import opened TaskProcessor
  import opened Protocol
  import opened NoTaskLost
  import opened SingleReference

  // ---------------------------------------------------------------- each entry is processed at most once

  predicate SlotOnce(s: State, slot: Slot) {
    slot.entry.id < s.stream.next && (slot.progress.Delivered? ==> slot.entry.id !in s.processed)
  }

  ghost predicate Once(s: State) {
    && Distinct(s.processed)
    && (forall id | id in s.processed :: id < s.stream.next)
    && (forall w, i: nat | SlotIn(s.workers, w, i).Some? :: SlotOnce(s, SlotIn(s.workers, w, i).value))
    && (forall w, i: nat, u, j: nat | SlotIn(s.workers, w, i).Some? && SlotIn(s.workers, u, j).Some? ::
          SlotIn(s.workers, w, i).value.entry.id == SlotIn(s.workers, u, j).value.entry.id ==> w == u && i == j)
  }

  // A step that delivers and loads nothing, and at most ends cycles or resolves slots.
  ghost predicate KeepsSlots(s: State, s': State) {
    && s'.processed == s.processed && s'.stream.next == s.stream.next
    && forall w, i: nat | SlotIn(s'.workers, w, i).Some? ::
        SlotIn(s.workers, w, i).Some? && SlotIn(s.workers, w, i).value.entry == SlotIn(s'.workers, w, i).value.entry &&
        (SlotIn(s'.workers, w, i).value.progress.Delivered? ==> SlotIn(s.workers, w, i).value.progress.Delivered?)
  }

  lemma KeptSlotsOnce(s: State, s': State)
    requires Once(s) && KeepsSlots(s, s')
    ensures Once(s')
  {
    forall w, i: nat | SlotIn(s'.workers, w, i).Some? ensures SlotOnce(s', SlotIn(s'.workers, w, i).value) {
      assert SlotOnce(s, SlotIn(s.workers, w, i).value);
    }
  }

  lemma ConsumeOnce(s: State, w: WorkerId, count: nat)
    requires Once(s)
    ensures Once(StepConsume(s, w, count))
  {
    var s' := StepConsume(s, w, count);
    if s' != s {
      forall u, i: nat | SlotIn(s'.workers, u, i).Some?
        ensures SlotOnce(s', SlotIn(s'.workers, u, i).value)
        ensures u != w ==>
                  SlotIn(s'.workers, u, i) == SlotIn(s.workers, u, i) &&
                  SlotIn(s.workers, u, i).value.entry.id < s.stream.next
        ensures u == w ==> SlotIn(s'.workers, u, i).value.entry.id == s.stream.next + i
      {
        if u != w { assert SlotOnce(s, SlotIn(s.workers, u, i).value); }
      }
    }
  }

  lemma LoadOnce(s: State, w: WorkerId, i: nat)
    requires Once(s)
    ensures Once(StepLoad(s, w, i))
  {
    var s' := StepLoad(s, w, i);
    if s' != s {
      var id := SlotAt(s, w, i).entry.id;
      assert SlotOnce(s, SlotIn(s.workers, w, i).value);
      forall u, j: nat | SlotIn(s'.workers, u, j).Some?
        ensures SlotIn(s.workers, u, j).Some?
        ensures SlotIn(s'.workers, u, j).value.entry == SlotIn(s.workers, u, j).value.entry
        ensures SlotOnce(s', SlotIn(s'.workers, u, j).value)
      {
        SlotInSet(s, w, i, s'.workers[w].slots[i].progress, u, j);
        assert SlotOnce(s, SlotIn(s.workers, u, j).value);
        assert SlotIn(s.workers, u, j).value.entry.id == id ==> u == w && j == i;
      }
    }
  }

  lemma ResolveKeepsSlots(s: State, s': State, w: WorkerId, i: nat, progress: Progress)
    requires HasSlot(s, w, i) && !progress.Delivered? && s'.workers == SetSlot(s, w, i, progress).workers
    requires s'.processed == s.processed && s'.stream == s.stream
    ensures KeepsSlots(s, s')
  {
    forall u, j: nat | SlotIn(s'.workers, u, j).Some? ensures SlotIn(s.workers, u, j).Some? {
      SlotInSet(s, w, i, progress, u, j);
    }
  }

  lemma ResolveOnce(s: State, s': State, w: WorkerId, i: nat, progress: Progress)
    requires Once(s) && HasSlot(s, w, i) && !progress.Delivered? && s'.workers == SetSlot(s, w, i, progress).workers
    requires s'.processed == s.processed && s'.stream == s.stream
    ensures Once(s')
  {
    ResolveKeepsSlots(s, s', w, i, progress);
    KeptSlotsOnce(s, s');
  }

  lemma ResolvingOnce(s: State, w: WorkerId, a: WorkerAction)
    requires Once(s) && (a.Execute? || a.Defer? || a.Raise?)
    ensures Once(StepWorker(s, w, a))
  {
    var s' := StepWorker(s, w, a);
    if s' != s { ResolveOnce(s, s', w, a.i, s'.workers[w].slots[a.i].progress); }
  }

  lemma EndingOnce(s: State, w: WorkerId, a: WorkerAction)
    requires Once(s) && (a.Write? || a.AckBatch? || a.Crash?)
    ensures Once(StepWorker(s, w, a))
  {
    KeptSlotsOnce(s, StepWorker(s, w, a));
  }

  lemma WorkerOnce(s: State, w: WorkerId, a: WorkerAction)
    requires Once(s)
    ensures Once(StepWorker(s, w, a))
  {
    match a
    case Consume(count) => ConsumeOnce(s, w, count);
    case Load(i) => LoadOnce(s, w, i);
    case Execute(_, _, _) => ResolvingOnce(s, w, a);
    case Defer(_, _) => ResolvingOnce(s, w, a);
    case Raise(_, _) => ResolvingOnce(s, w, a);
    case _ => EndingOnce(s, w, a);
  }

  lemma StillOnce(s: State, s': State)
    requires Once(s) && s'.workers == s.workers && s'.processed == s.processed && s'.stream.next == s.stream.next
    ensures Once(s')
  {
    KeptSlotsOnce(s, s');
  }

  lemma CreatorsWait(s: State, run: RunId, a: CreatorAction)
    ensures var s' := StepCreator(s, run, a);
            s'.workers == s.workers && s'.processed == s.processed && s'.stream.next == s.stream.next
  {
  }

  lemma SweepersWait(s: State, a: SweepAction)
    ensures var s' := StepSweeper(s, a);
            s'.workers == s.workers && s'.processed == s.processed && s'.stream.next == s.stream.next
  {
  }

  lemma ReclaimersWait(s: State, a: ReclaimAction)
    ensures var s' := StepReclaimer(s, a);
            s'.workers == s.workers && s'.processed == s.processed && s'.stream.next == s.stream.next
  {
  }

  lemma {:induction false} StepOnce(s: State, a: Action)
    requires Once(s)
    ensures Once(Step(s, a))
  {
    match a
    case Work(w, working) => WorkerOnce(s, w, working);
    case Create(run, creating) => CreatorsWait(s, run, creating); StillOnce(s, Step(s, a));
    case Sweep(sweeping) => SweepersWait(s, sweeping); StillOnce(s, Step(s, a));
    case Reclaim(reclaiming) => ReclaimersWait(s, reclaiming); StillOnce(s, Step(s, a));
    case _ => StillOnce(s, Step(s, a));
  }

  // In every run, whatever fails, no stream entry is given to process_task twice: a task is
  // executed again only by way of a fresh entry.
  lemma {:induction false} EntriesAreProcessedOnce(actions: seq<Action>)
    ensures Once(Run(INITIAL, actions)) && Distinct(Run(INITIAL, actions).processed)
    decreases |actions|
  {
    if actions != [] {
      EntriesAreProcessedOnce(actions[..|actions| - 1]);
      StepOnce(Run(INITIAL, actions[..|actions| - 1]), actions[|actions| - 1]);
    }
  }

  // ---------------------------------------------------------------- prompt workers keep their entries

  // The worker still works on the entry: it has not finished the cycle that fetched it.
  predicate Holds(phase: Phase, e: StreamEntry) {
    match phase
    case Idle => false
    case Gathering(slots, _) => exists slot | slot in slots :: slot.entry == e
    case Acking(entries, _) => e in entries
  }

  // Every busy worker began its cycle less than minIdle ago.
  predicate Prompt(s: State, minIdle: nat) {
    forall w | w in s.workers && !s.workers[w].Idle? :: s.now < s.workers[w].since + minIdle
  }

  predicate PromptRun(actions: seq<Action>, minIdle: nat)
    decreases |actions|
  {
    Prompt(Run(INITIAL, actions), minIdle) &&
    (actions == [] ||
     (PromptRun(actions[..|actions| - 1], minIdle) && ReclaimsAfter(actions[|actions| - 1], minIdle)))
  }

  predicate ReclaimsAfter(a: Action, minIdle: nat) {
    match a
    case Reclaim(ClaimStale(_, idle)) => idle >= minIdle
    case _ => true
  }

  predicate Owned(s: State, w: WorkerId, e: StreamEntry)
    requires w in s.workers && !s.workers[w].Idle?
  {
    e.id in s.stream.pending && s.stream.pending[e.id] == Delivery(e.task, Worker(w), s.workers[w].since)
  }

  ghost predicate HoldersOwn(s: State) {
    forall w, e: StreamEntry | w in s.workers && Holds(s.workers[w], e) :: Owned(s, w, e)
  }

  predicate ReclaimerOwns(s: State) {
    && (forall id | id in s.stream.pending :: id < s.stream.next)
    && forall c | c in s.claimed ::
        c.entry.id < s.stream.next &&
        (c.entry.id in s.stream.pending ==> s.stream.pending[c.entry.id].owner == Reclaimer)
  }

  ghost predicate Separate(s: State) {
    HoldersOwn(s) && ReclaimerOwns(s)
  }

  lemma ConsumeStaysSeparate(s: State, w: WorkerId, count: nat)
    requires Separate(s)
    ensures Separate(StepConsume(s, w, count))
  {
    var s' := StepConsume(s, w, count);
    if s' != s {
      forall u, e: StreamEntry | u in s'.workers && Holds(s'.workers[u], e) ensures Owned(s', u, e) {
        if u == w {
          var slot :| slot in s'.workers[w].slots && slot.entry == e;
        } else {
          assert Owned(s, u, e);
        }
      }
    }
  }

  // The worker holds at most the entries it held, since the same time.
  lemma HoldingLess(s: State, s': State, w: WorkerId)
    requires Separate(s) && s'.stream == s.stream && s'.claimed == s.claimed && w in s'.workers
    requires forall u | u in s'.workers && u != w :: u in s.workers && s'.workers[u] == s.workers[u]
    requires forall e: StreamEntry | Holds(s'.workers[w], e) ::
               w in s.workers && Holds(s.workers[w], e) && s'.workers[w].since == s.workers[w].since
    ensures Separate(s')
  {
    forall u, e: StreamEntry | u in s'.workers && Holds(s'.workers[u], e) ensures Owned(s', u, e) {
      assert Owned(s, u, e);
    }
  }

  lemma SlotHoldsSame(s: State, w: WorkerId, i: nat, progress: Progress, e: StreamEntry)
    requires HasSlot(s, w, i) && Holds(SetSlot(s, w, i, progress).workers[w], e)
    ensures Holds(s.workers[w], e) && SetSlot(s, w, i, progress).workers[w].since == s.workers[w].since
  {
    var slots' := SetSlot(s, w, i, progress).workers[w].slots;
    var slot :| slot in slots' && slot.entry == e;
    var j :| 0 <= j < |slots'| && slots'[j] == slot;
    assert s.workers[w].slots[j] in s.workers[w].slots && s.workers[w].slots[j].entry == e;
  }

  lemma ProcessingStaysSeparate(s: State, s': State, w: WorkerId, i: nat, progress: Progress)
    requires Separate(s) && HasSlot(s, w, i) && s'.workers == SetSlot(s, w, i, progress).workers
    requires s'.stream == s.stream && s'.claimed == s.claimed
    ensures Separate(s')
  {
    forall e: StreamEntry | Holds(s'.workers[w], e)
      ensures Holds(s.workers[w], e) && s'.workers[w].since == s.workers[w].since
    {
      SlotHoldsSame(s, w, i, progress, e);
    }
    HoldingLess(s, s', w);
  }

  lemma WriteStaysSeparate(s: State, w: WorkerId, reply: Reply)
    requires Separate(s)
    ensures Separate(StepWrite(s, w, reply))
  {
    var s' := StepWrite(s, w, reply);
    if s' != s {
      ToAckFromSlots(PhaseOf(s, w).slots);
      HoldingLess(s, s', w);
    }
  }

  lemma AckStaysSeparate(s: State, w: WorkerId, reply: Reply)
    requires Separate(s)
    ensures Separate(StepAckBatch(s, w, reply))
  {
    var s' := StepAckBatch(s, w, reply);
    if s' != s {
      forall u, e: StreamEntry | u in s'.workers && Holds(s'.workers[u], e) ensures Owned(s', u, e) {
        assert u != w && Owned(s, u, e);
        forall other | other in s.workers[w].entries ensures other.id != e.id {
          assert Holds(s.workers[w], other) && Owned(s, w, other);
        }
      }
    }
  }

  lemma SlotWorkStaysSeparate(s: State, w: WorkerId, a: WorkerAction)
    requires Separate(s) && (a.Load? || a.Execute? || a.Defer? || a.Raise?)
    ensures Separate(StepWorker(s, w, a))
  {
    var s' := StepWorker(s, w, a);
    if s' != s { ProcessingStaysSeparate(s, s', w, a.i, s'.workers[w].slots[a.i].progress); }
  }

  lemma WorkerStaysSeparate(s: State, w: WorkerId, a: WorkerAction)
    requires Separate(s)
    ensures Separate(StepWorker(s, w, a))
  {
    var s' := StepWorker(s, w, a);
    match a
    case Consume(count) => ConsumeStaysSeparate(s, w, count);
    case Write(reply) => WriteStaysSeparate(s, w, reply);
    case AckBatch(reply) => AckStaysSeparate(s, w, reply);
    case Crash => HoldingLess(s, s', w);
    case _ => SlotWorkStaysSeparate(s, w, a);
  }

  lemma ClaimStaysSeparate(s: State, ids: seq<EntryId>, idle: nat, minIdle: nat)
    requires Separate(s) && Prompt(s, minIdle) && minIdle <= idle
    ensures Separate(StepClaimStale(s, ids, idle))
  {
    var s' := StepClaimStale(s, ids, idle);
    if s' != s {
      forall w, e: StreamEntry | w in s'.workers && Holds(s'.workers[w], e) ensures Owned(s', w, e) {
        assert Owned(s, w, e) && !s.stream.Stale(e.id, idle, s.now);
      }
      forall c | c in s'.claimed
        ensures c.entry.id < s'.stream.next && c.entry.id in s'.stream.pending
        ensures s'.stream.pending[c.entry.id].owner == Reclaimer
      {
        assert s.stream.Stale(c.entry.id, idle, s.now);
      }
    }
  }

  lemma ReclaimEnqueueStaysSeparate(s: State, reply: Reply)
    requires Separate(s)
    ensures Separate(StepReclaimEnqueue(s, reply))
  {
    var s' := StepReclaimEnqueue(s, reply);
    if s' != s {
      assert s.claimed[0] in s.claimed;
      forall w, e: StreamEntry | w in s'.workers && Holds(s'.workers[w], e) ensures Owned(s', w, e) {
        assert Owned(s, w, e);
      }
      forall c | c in s'.claimed ensures c in s.claimed || c.entry == s.claimed[0].entry { }
    }
  }

  lemma ReclaimAckStaysSeparate(s: State, reply: Reply)
    requires Separate(s)
    ensures Separate(StepReclaimAck(s, reply))
  {
    var s' := StepReclaimAck(s, reply);
    if s' != s {
      assert s.claimed[0] in s.claimed;
      forall w, e: StreamEntry | w in s'.workers && Holds(s'.workers[w], e) ensures Owned(s', w, e) {
        assert Owned(s, w, e);
      }
    }
  }

  lemma ReclaimerStaysSeparate(s: State, a: ReclaimAction, minIdle: nat)
    requires Separate(s) && Prompt(s, minIdle) && ReclaimsAfter(Reclaim(a), minIdle)
    ensures Separate(StepReclaimer(s, a))
  {
    match a
    case ClaimStale(ids, idle) => ClaimStaysSeparate(s, ids, idle, minIdle);
    case ReclaimEnqueue(reply) => ReclaimEnqueueStaysSeparate(s, reply);
    case ReclaimAck(reply) => ReclaimAckStaysSeparate(s, reply);
  }

  lemma OthersStaySeparate(s: State, s': State)
    requires Separate(s) && s'.workers == s.workers
    requires s'.stream.pending == s.stream.pending && s'.stream.next == s.stream.next
    requires forall c | c in s'.claimed :: c in s.claimed
    ensures Separate(s')
  {
    forall w, e: StreamEntry | w in s'.workers && Holds(s'.workers[w], e) ensures Owned(s', w, e) {
      assert Owned(s, w, e);
    }
  }

  lemma CreatorsLeavePending(s: State, run: RunId, a: CreatorAction)
    ensures var s' := StepCreator(s, run, a); s'.stream.pending == s.stream.pending && s'.claimed == s.claimed
  {
  }

  lemma SweepersLeavePending(s: State, a: SweepAction)
    ensures var s' := StepSweeper(s, a); s'.stream.pending == s.stream.pending && s'.claimed == s.claimed
  {
  }

  lemma {:induction false} StepStaysSeparate(s: State, a: Action, minIdle: nat)
    requires Separate(s) && Prompt(s, minIdle) && ReclaimsAfter(a, minIdle)
    ensures Separate(Step(s, a))
  {
    match a
    case Work(w, working) => WorkerStaysSeparate(s, w, working);
    case Reclaim(reclaiming) => ReclaimerStaysSeparate(s, reclaiming, minIdle);
    case Create(run, creating) =>
      CreatorsWait(s, run, creating);
      CreatorsLeavePending(s, run, creating);
      OthersStaySeparate(s, Step(s, a));
    case Sweep(sweeping) =>
      SweepersWait(s, sweeping);
      SweepersLeavePending(s, sweeping);
      OthersStaySeparate(s, Step(s, a));
    case _ => OthersStaySeparate(s, Step(s, a));
  }

  lemma {:induction false} PromptRunsAreSeparate(actions: seq<Action>, minIdle: nat)
    requires PromptRun(actions, minIdle)
    ensures Separate(Run(INITIAL, actions))
    decreases |actions|
  {
    if actions != [] {
      var front := actions[..|actions| - 1];
      PromptRunsAreSeparate(front, minIdle);
      assert Prompt(Run(INITIAL, front), minIdle);
      StepStaysSeparate(Run(INITIAL, front), actions[|actions| - 1], minIdle);
    }
  }

  // If every cycle is shorter than min_idle_ms, the reclaim sweeper never has in its hands an
  // entry that a live worker still works on, so it never re-enqueues one.
  lemma NoHeldEntryIsReclaimed(actions: seq<Action>, minIdle: nat, w: WorkerId, e: StreamEntry, c: ClaimedEntry)
    requires PromptRun(actions, minIdle)
    requires var s := Run(INITIAL, actions); w in s.workers && Holds(s.workers[w], e) && c in s.claimed
    ensures c.entry.id != e.id
  {
    PromptRunsAreSeparate(actions, minIdle);
    assert Owned(Run(INITIAL, actions), w, e);
  }
}
