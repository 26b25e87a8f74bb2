// A worker's consume loop: fetch, process, write, and only then acknowledge.
module WorkerProcess {
  import opened Wrappers
  import opened Records
  import opened Sequences
  import opened ResultWriter
  import opened RetryQueue
  import opened RunContext
  import opened Streams
  import opened TaskProcessor
  import opened Protocol
  import Throttling

  // ---------------------------------------------------------------- one entry

  // A missing task and a deferred one are acknowledged without an outcome; an entry whose
  // processing raised anything else is left pending.
  function ProgressOf(r: Processed): Progress {
    match r
    case Missing => Done(None)
    case Deferred(_) => Done(None)
    case Concluded(_, outcome) => Done(Some(outcome))
    case Unexpected => Raised
  }

  function EntryActions(w: WorkerId, i: nat, r: Processed, now: Time): seq<Action> {
    [Work(w, Load(i))] +
    match r
    case Missing => []
    case Deferred(_) => [Work(w, Defer(i, now))]
    case Concluded(report, _) => [Work(w, Execute(i, report, now))]
    case Unexpected => [Work(w, Raise(i, Nothing))]
  }

  lemma ProcessedEntry(r: Processed, db: Tables, requests: Requests, stores: Stores, task: TaskId, w: WorkerId,
                       world: World)
    requires Processes(r, db, requests, stores, task, w, world)
    requires task in db.tasks ==> Complete(db, requests, task)
    ensures r.Missing? <==> task !in db.tasks
    ensures r.Deferred? ==> r.retryAt == world.now + RATE_LIMITED_DELAY
    ensures r.Concluded? ==> r.outcome == Conclude(task, db.tasks[task], w, r.report, world.now)
  {
  }

  // ---------------------------------------------------------------- the entries of a batch

  // A fetched batch, the rows that it is about, and what the world answers to each entry.
  datatype Batch = Batch(db: Tables, requests: Requests, entries: seq<StreamEntry>, worlds: nat -> World)

  // The stores after the results so far.
  function StoresThen(b: Batch, stores: Stores, rs: seq<Processed>): Stores
    requires |rs| <= |b.entries|
    decreases |rs|
  {
    if rs == [] then stores
    else
      var n := |rs| - 1;
      StoresAfter(b.db, b.requests, StoresThen(b, stores, rs[..n]), b.entries[n].task, b.worlds(n), rs[n])
  }

  // Each result is what process_task promises for its entry and for the stores as they are then.
  ghost predicate ProcessesInTurn(b: Batch, stores: Stores, w: WorkerId, rs: seq<Processed>)
    requires |rs| <= |b.entries|
    decreases |rs|
  {
    rs == [] ||
    (var n := |rs| - 1;
     && ProcessesInTurn(b, stores, w, rs[..n])
     && Processes(rs[n], b.db, b.requests, StoresThen(b, stores, rs[..n]), b.entries[n].task, w, b.worlds(n)))
  }

  // The slots of a batch when its first entries have been processed with these results.
  function ResultsOf(entries: seq<StreamEntry>, rs: seq<Processed>): seq<Slot> {
    seq(|entries|, k requires 0 <= k < |entries| =>
      Slot(entries[k], if k < |rs| then ProgressOf(rs[k]) else Delivered))
  }

  function BatchActions(w: WorkerId, worlds: nat -> World, rs: seq<Processed>): seq<Action>
    decreases |rs|
  {
    if rs == [] then []
    else
      var n := |rs| - 1;
      BatchActions(w, worlds, rs[..n]) + EntryActions(w, n, rs[n], worlds(n).now)
  }

  lemma OneMoreInTurn(b: Batch, stores: Stores, w: WorkerId, rs: seq<Processed>, r: Processed)
    requires |rs| < |b.entries| && ProcessesInTurn(b, stores, w, rs)
    requires Processes(r, b.db, b.requests, StoresThen(b, stores, rs), b.entries[|rs|].task, w, b.worlds(|rs|))
    ensures ProcessesInTurn(b, stores, w, rs + [r])
  {
    assert (rs + [r])[..|rs|] == rs;
  }

  lemma OneMoreStores(b: Batch, stores: Stores, rs: seq<Processed>, r: Processed)
    requires |rs| < |b.entries|
    ensures StoresThen(b, stores, rs + [r]) ==
            StoresAfter(b.db, b.requests, StoresThen(b, stores, rs), b.entries[|rs|].task, b.worlds(|rs|), r)
  {
    assert (rs + [r])[..|rs|] == rs;
  }

  lemma OneMoreEntry(b: Batch, w: WorkerId, rs: seq<Processed>, r: Processed)
    requires |rs| < |b.entries|
    ensures BatchActions(w, b.worlds, rs + [r]) ==
            BatchActions(w, b.worlds, rs) + EntryActions(w, |rs|, r, b.worlds(|rs|).now)
    ensures ResultsOf(b.entries, rs + [r]) ==
            ResultsOf(b.entries, rs)[|rs| := Slot(b.entries[|rs|], ProgressOf(r))]
  {
    assert (rs + [r])[..|rs|] == rs;
  }

  // The call for entry k of a batch, with some chain contexts.
  ghost predicate Visits(b: Batch, k: nat, v: Throttling.Visit)
    requires k < |b.entries|
  {
    v == Throttling.Visit(b.db, b.requests, v.hashes, b.entries[k].task, b.worlds(k))
  }

  // What a batch asks of the limiter and sends is what a sequence of calls does, one for each of
  // its entries, so every host's budget holds over any turns of any workers.
  lemma {:induction false} BatchMakesItsCalls(b: Batch, stores: Stores, rs: seq<Processed>)
    returns (visits: seq<Throttling.Visit>)
    requires |rs| <= |b.entries| && stores.throttle.Some?
    ensures |visits| == |rs| && forall k :: 0 <= k < |visits| ==> Visits(b, k, visits[k])
    ensures Throttling.Follows(stores.throttle.value, stores.sent, visits, StoresThen(b, stores, rs))
    decreases |rs|
  {
    visits := [];
    if rs == [] {
      assert stores.sent + [] == stores.sent;
    } else {
      var n := |rs| - 1;
      var front := BatchMakesItsCalls(b, stores, rs[..n]);
      var before := StoresThen(b, stores, rs[..n]);
      var visit := Throttling.Visit(b.db, b.requests, before.hashes, b.entries[n].task, b.worlds(n));
      visits := front + [visit];
      Throttling.CallFollows(stores.throttle.value, stores.sent, front, visit, before, rs[n]);
    }
  }

  predicate SameButWork(s: State, s': State) {
    s'.db == s.db && s'.stream == s.stream && s'.now == s.now
  }

  lemma RunTwo(s: State, a: Action, b: Action)
    ensures Run(s, [a]) == Step(s, a) && Run(s, [a] + [b]) == Step(Step(s, a), b)
  {
    assert [a][..0] == [] && ([a] + [b])[..1] == [a];
  }

  lemma SlotSetTwice(s: State, w: WorkerId, i: nat, p: Progress, q: Progress)
    requires HasSlot(s, w, i)
    ensures var s1 := SetSlot(s, w, i, p);
            HasSlot(s1, w, i) && SlotAt(s1, w, i) == Slot(SlotAt(s, w, i).entry, p) &&
            SetSlot(s1, w, i, q).workers == SetSlot(s, w, i, q).workers
  {
    var slots := s.workers[w].slots;
    assert slots[i := Slot(slots[i].entry, p)][i := Slot(slots[i].entry, q)] == slots[i := Slot(slots[i].entry, q)];
    assert s.workers[w := SetSlot(s, w, i, p).workers[w]][w := SetSlot(s, w, i, q).workers[w]] ==
           SetSlot(s, w, i, q).workers;
  }

  // After the row has been read.
  lemma ResolvesLoaded(s: State, w: WorkerId, i: nat, r: Processed, now: Time)
    requires HasLoaded(s, w, i) && !r.Missing?
    requires var (task, row) := (SlotAt(s, w, i).entry.task, SlotAt(s, w, i).progress.row);
             && (r.Deferred? ==> r.retryAt == now + RATE_LIMITED_DELAY)
             && (r.Concluded? ==> r.outcome == Conclude(task, row, w, r.report, now))
    ensures var (s', task) := (Step(s, EntryActions(w, i, r, now)[1]), SlotAt(s, w, i).entry.task);
            && s'.workers == SetSlot(s, w, i, ProgressOf(r)).workers && SameButWork(s, s')
            && s'.retry == ScoresAfter(s.retry, task, r)
            && s'.contexts == HashesAfter(s.contexts, r, SlotAt(s, w, i).progress.row)
  {
  }

  lemma Resolves(s: State, w: WorkerId, i: nat, r: Processed, now: Time)
    requires HasSlot(s, w, i) && SlotAt(s, w, i).progress.Delivered?
    requires var task := SlotAt(s, w, i).entry.task;
             && (r.Missing? <==> task !in s.db.tasks)
             && (r.Deferred? ==> r.retryAt == now + RATE_LIMITED_DELAY)
             && (r.Concluded? ==> r.outcome == Conclude(task, s.db.tasks[task], w, r.report, now))
    ensures var (s', task) := (Run(s, EntryActions(w, i, r, now)), SlotAt(s, w, i).entry.task);
            && s'.workers == SetSlot(s, w, i, ProgressOf(r)).workers && SameButWork(s, s')
            && s'.retry == ScoresAfter(s.retry, task, r)
            && s'.contexts == if r.Missing? then s.contexts else HashesAfter(s.contexts, r, s.db.tasks[task])
  {
    var s1 := StepLoad(s, w, i);
    var actions := EntryActions(w, i, r, now);
    if r.Missing? {
      assert actions == [Work(w, Load(i))];
      RunTwo(s, Work(w, Load(i)), Work(w, Load(i)));
    } else {
      var row := s.db.tasks[SlotAt(s, w, i).entry.task];
      SlotSetTwice(s, w, i, Loaded(row), ProgressOf(r));
      assert s1.workers == SetSlot(s, w, i, Loaded(row)).workers;
      ResolvesLoaded(s1, w, i, r, now);
      RunTwo(s, Work(w, Load(i)), actions[1]);
      assert actions == [Work(w, Load(i))] + [actions[1]];
    }
  }

  // ---------------------------------------------------------------- the cycle

  function Fetched(entries: seq<StreamEntry>): seq<Slot> {
    Map((e: StreamEntry) => Slot(e, Delivered), entries)
  }

  // The commands of one cycle whose replies may be lost: the commit of the batch, and the ack.
  datatype Luck = Luck(write: Reply, ack: Reply)

  lemma ConsumeIsAStep(s: State, w: WorkerId, count: nat)
    requires PhaseOf(s, w).Idle? && s.stream.Entries(count) != []
    ensures var s' := Run(s, [Work(w, Consume(count))]);
            && s'.stream == s.stream.ReadGroup(Worker(w), count, s.now)
            && s'.db == s.db && s'.retry == s.retry && s'.contexts == s.contexts
            && PhaseOf(s', w) == Gathering(Fetched(s.stream.Entries(count)), s.now)
  {
    RunTwo(s, Work(w, Consume(count)), Work(w, Consume(count)));
  }

  lemma NothingToConsume(s: State, owner: Consumer, count: nat)
    requires s.stream.Entries(count) == []
    ensures s.stream.ReadGroup(owner, count, s.now) == s.stream
  {
  }

  predicate WriteGoesThrough(db: Tables, outcomes: seq<TaskOutcome>, reply: Reply) {
    outcomes == [] || (Referenced(db, outcomes) && reply.Replies?)
  }

  function TablesAfter(db: Tables, outcomes: seq<TaskOutcome>, reply: Reply): Tables {
    if outcomes != [] && Referenced(db, outcomes) && Took(reply) then Written(db, outcomes) else db
  }

  lemma WriteIsAStep(s: State, w: WorkerId, reply: Reply)
    requires PhaseOf(s, w).Gathering? && AllResolved(PhaseOf(s, w).slots)
    ensures var (acks, outcomes) := (ToAck(PhaseOf(s, w).slots), Outcomes(PhaseOf(s, w).slots));
            var s' := Run(s, [Work(w, Write(reply))]);
            && s'.db == TablesAfter(s.db, outcomes, reply)
            && s'.stream == s.stream && s'.retry == s.retry && s'.contexts == s.contexts
            && PhaseOf(s', w) == if acks != [] && WriteGoesThrough(s.db, outcomes, reply)
                                 then Acking(acks, PhaseOf(s, w).since) else Idle
  {
    RunTwo(s, Work(w, Write(reply)), Work(w, Write(reply)));
  }

  lemma AckIsAStep(s: State, w: WorkerId, reply: Reply)
    requires PhaseOf(s, w).Acking?
    ensures var s' := Step(s, Work(w, AckBatch(reply)));
            && s'.stream == (if Took(reply) then s.stream.Ack(Ids(PhaseOf(s, w).entries)) else s.stream)
            && s'.db == s.db && s'.retry == s.retry && s'.contexts == s.contexts && PhaseOf(s', w).Idle?
  {
  }

  lemma AllAreResolved(entries: seq<StreamEntry>, rs: seq<Processed>)
    requires |rs| == |entries|
    ensures AllResolved(ResultsOf(entries, rs))
  {
    var results := ResultsOf(entries, rs);
    forall slot | slot in results ensures Resolved(slot) {
      var k :| 0 <= k < |results| && results[k] == slot;
      assert slot.progress == ProgressOf(rs[k]);
    }
  }

  lemma {:induction false} CollectedAppend(xs: seq<Slot>, ys: seq<Slot>)
    ensures ToAck(xs + ys) == ToAck(xs) + ToAck(ys) && Outcomes(xs + ys) == Outcomes(xs) + Outcomes(ys)
    decreases |ys|
  {
    if ys == [] {
      assert xs + ys == xs;
    } else {
      assert (xs + ys)[..|xs + ys| - 1] == xs + ys[..|ys| - 1];
      CollectedAppend(xs, ys[..|ys| - 1]);
    }
  }

  // Wherever a result stands among the others, what it gives stands between what those before and
  // those after it give.
  lemma CollectedInOrder(xs: seq<Slot>, slot: Slot, ys: seq<Slot>)
    ensures ToAck(xs + [slot] + ys) ==
            ToAck(xs) + (if slot.progress.Done? then [slot.entry] else []) + ToAck(ys)
    ensures Outcomes(xs + [slot] + ys) ==
            Outcomes(xs) +
            (if slot.progress.Done? && slot.progress.outcome.Some? then [slot.progress.outcome.value] else []) +
            Outcomes(ys)
  {
    CollectedAppend(xs + [slot], ys);
    assert (xs + [slot])[..|xs|] == xs;
  }

  class Process {
    const workerId: WorkerId
    const capacity: nat
    const streamQueue: StreamQueue
    const processor: Processor
    const session: Session

    constructor (workerId: WorkerId, capacity: nat, streamQueue: StreamQueue, processor: Processor, session: Session)
      ensures this.workerId == workerId && this.capacity == capacity && this.streamQueue == streamQueue
      ensures this.processor == processor && this.session == session
    {
      this.workerId, this.capacity, this.streamQueue := workerId, capacity, streamQueue;
      this.processor, this.session := processor, session;
    }

    // The stores that the worker shares with the other processes are those of a protocol state.
    ghost predicate Shows(s: State)
      reads streamQueue, processor.retryQueue, processor.contexts, session
    {
      && s.stream == streamQueue.stream && s.db == session.tables
      && s.retry == processor.retryQueue.scores && s.contexts == processor.contexts.hashes
    }

    // Sorting the results of the batch into what to acknowledge and what to write.
    method Collect(results: seq<Slot>) returns (entriesToAck: seq<StreamEntry>, outcomes: seq<TaskOutcome>)
      requires AllResolved(results)
      ensures entriesToAck == ToAck(results) && outcomes == Outcomes(results)
    {
      entriesToAck, outcomes := [], [];
      for i := 0 to |results|
        invariant entriesToAck == ToAck(results[..i]) && outcomes == Outcomes(results[..i])
      {
        assert results[..i + 1][..i] == results[..i] && results[..i + 1][i] == results[i];
        assert results[i] in results;
        match results[i].progress {
          case Raised =>
          case Done(outcome) =>
            entriesToAck := entriesToAck + [results[i].entry];
            if outcome.Some? {
              outcomes := outcomes + [outcome.value];
            }
        }
      }
      assert results[..|results|] == results;
    }

    // Which exceptions acknowledge an entry, and which leave it pending.
    method ProcessEntry(entry: StreamEntry, requests: Requests, world: World, ghost s: State, ghost i: nat)
      returns (progress: Progress, ghost r: Processed)
      requires processor.Valid() && Shows(s)
      requires HasSlot(s, workerId, i) && SlotAt(s, workerId, i) == Slot(entry, Delivered)
      requires forall task | task in s.db.tasks :: Complete(s.db, requests, task)
      modifies processor.retryQueue, processor.contexts, processor.executor, processor.limiter
      ensures processor.Valid() && progress == ProgressOf(r)
      ensures Processes(r, s.db, requests, old(processor.View()), entry.task, workerId, world)
      ensures processor.View() == StoresAfter(s.db, requests, old(processor.View()), entry.task, world, r)
      ensures var s' := Run(s, EntryActions(workerId, i, r, world.now));
              Shows(s') && SameButWork(s, s') && s'.workers == SetSlot(s, workerId, i, progress).workers
    {
      var processed := processor.ProcessTask(session.tables, requests, entry.task, workerId, world);
      ProcessedEntry(processed, s.db, requests, old(processor.View()), entry.task, workerId, world);
      Resolves(s, workerId, i, processed, world.now);
      r := processed;
      progress := ProgressOf(processed);
    }

    // One after the other; any other interleaving is a run of the protocol just the same.
    method ProcessAll(entries: seq<StreamEntry>, requests: Requests, worlds: nat -> World, ghost s: State)
      returns (results: seq<Slot>, ghost rs: seq<Processed>)
      requires processor.Valid() && Shows(s)
      requires PhaseOf(s, workerId).Gathering? && PhaseOf(s, workerId).slots == Fetched(entries)
      requires forall task | task in s.db.tasks :: Complete(s.db, requests, task)
      modifies processor.retryQueue, processor.contexts, processor.executor, processor.limiter
      ensures processor.Valid() && |rs| == |entries| && results == ResultsOf(entries, rs)
      ensures var (b, stores) := (Batch(s.db, requests, entries, worlds), old(processor.View()));
              ProcessesInTurn(b, stores, workerId, rs) && processor.View() == StoresThen(b, stores, rs)
      ensures var s' := Run(s, BatchActions(workerId, worlds, rs));
              Shows(s') && SameButWork(s, s') && PhaseOf(s', workerId) == PhaseOf(s, workerId).(slots := results)
    {
      results, rs := Fetched(entries), [];
      ghost var (b, stores) := (Batch(s.db, requests, entries, worlds), processor.View());
      assert results == ResultsOf(entries, rs);
      for i := 0 to |entries|
        invariant processor.Valid() && |rs| == i && results == ResultsOf(entries, rs)
        invariant ProcessesInTurn(b, stores, workerId, rs) && processor.View() == StoresThen(b, stores, rs)
        invariant Reached(s, Run(s, BatchActions(workerId, worlds, rs)), results)
      {
        ghost var s1 := Run(s, BatchActions(workerId, worlds, rs));
        var progress, r := ProcessEntry(entries[i], requests, worlds(i), s1, i);
        OneMoreInTurn(b, stores, workerId, rs, r);
        OneMoreStores(b, stores, rs, r);
        OneMoreEntry(b, workerId, rs, r);
        RunAppend(s, BatchActions(workerId, worlds, rs), EntryActions(workerId, i, r, worlds(i).now));
        results := results[i := Slot(entries[i], progress)];
        rs := rs + [r];
      }
    }

    ghost predicate Reached(s: State, s': State, results: seq<Slot>)
      reads streamQueue, processor.retryQueue, processor.contexts, session
    {
      && Shows(s') && SameButWork(s, s')
      && PhaseOf(s, workerId).Gathering? && PhaseOf(s', workerId) == PhaseOf(s, workerId).(slots := results)
    }

    method WriteOutcomes(outcomes: seq<TaskOutcome>, reply: Reply) returns (written: bool)
      modifies session
      ensures written == WriteGoesThrough(old(session.tables), outcomes, reply)
      ensures session.tables == TablesAfter(old(session.tables), outcomes, reply)
    {
      written := true;
      if |outcomes| > 0 {
        written := false;
        if Took(reply) {
          var r := session.WriteBatch(outcomes);
          written := r.Ok? && reply.Replies?;
        }
      }
    }

    // The write, and the acknowledgement if there is anything to acknowledge after it.
    ghost function FinishActions(results: seq<Slot>, db: Tables, luck: Luck): seq<Action> {
      if ToAck(results) != [] && WriteGoesThrough(db, Outcomes(results), luck.write)
      then [Work(workerId, Write(luck.write)), Work(workerId, AckBatch(luck.ack))]
      else [Work(workerId, Write(luck.write))]
    }

    // Acknowledging comes after the batch is durably written; a failed write acknowledges nothing.
    method WriteAndAck(results: seq<Slot>, luck: Luck, ghost s: State)
      requires Shows(s) && AllResolved(results)
      requires PhaseOf(s, workerId).Gathering? && PhaseOf(s, workerId).slots == results
      modifies streamQueue, session
      ensures var s' := Run(s, FinishActions(results, s.db, luck)); Shows(s') && PhaseOf(s', workerId).Idle?
      ensures streamQueue.stream ==
              if WriteGoesThrough(old(session.tables), Outcomes(results), luck.write) && Took(luck.ack)
              then old(streamQueue.stream).Ack(Ids(ToAck(results))) else old(streamQueue.stream)
    {
      var entriesToAck, outcomes := Collect(results);
      var written := WriteOutcomes(outcomes, luck.write);
      if !written {
        entriesToAck := [];
      }
      WriteIsAStep(s, workerId, luck.write);
      ghost var s1 := Run(s, [Work(workerId, Write(luck.write))]);
      if |entriesToAck| > 0 {
        var acknowledged := streamQueue.Ack(Ids(entriesToAck), luck.ack);
        AckIsAStep(s1, workerId, luck.ack);
        RunTwo(s, Work(workerId, Write(luck.write)), Work(workerId, AckBatch(luck.ack)));
        assert FinishActions(results, s.db, luck) ==
               [Work(workerId, Write(luck.write))] + [Work(workerId, AckBatch(luck.ack))];
      } else {
        assert written ==> Ids(ToAck(results)) == {};
        assert streamQueue.stream.Ack({}) == streamQueue.stream;
      }
    }

    // The commands after a fetch whose entries had these results.
    ghost function BatchCommands(rs: seq<Processed>, b: Batch, luck: Luck): seq<Action> {
      BatchActions(workerId, b.worlds, rs) + FinishActions(ResultsOf(b.entries, rs), b.db, luck)
    }

    // A fetched batch is processed, written and acknowledged.
    method HandleBatch(entries: seq<StreamEntry>, requests: Requests, worlds: nat -> World, luck: Luck, ghost s: State)
      returns (ghost rs: seq<Processed>)
      requires processor.Valid() && Shows(s)
      requires PhaseOf(s, workerId).Gathering? && PhaseOf(s, workerId).slots == Fetched(entries)
      requires forall task | task in s.db.tasks :: Complete(s.db, requests, task)
      modifies streamQueue, session, processor.retryQueue, processor.contexts, processor.executor, processor.limiter
      ensures processor.Valid() && |rs| == |entries|
      ensures var (b, stores) := (Batch(s.db, requests, entries, worlds), old(processor.View()));
              ProcessesInTurn(b, stores, workerId, rs) && processor.View() == StoresThen(b, stores, rs)
      ensures var s' := Run(s, BatchCommands(rs, Batch(s.db, requests, entries, worlds), luck));
              Shows(s') && PhaseOf(s', workerId).Idle?
    {
      var results;
      results, rs := ProcessAll(entries, requests, worlds, s);
      ghost var after := processor.View();
      AllAreResolved(entries, rs);
      WriteAndAck(results, luck, Run(s, BatchActions(workerId, worlds, rs)));
      assert processor.View() == after;
      RunAppend(s, BatchActions(workerId, worlds, rs), FinishActions(results, s.db, luck));
    }

    // One turn of the consume loop, when no other process comes in between, is this run of the
    // protocol: it fetches a batch, processes every entry of it, writes, and acknowledges.
    method ConsumeOnce(requests: Requests, worlds: nat -> World, luck: Luck, now: nat, ghost s: State)
      returns (ghost rs: seq<Processed>)
      requires processor.Valid() && Shows(s) && PhaseOf(s, workerId).Idle? && s.now == now
      requires forall task | task in s.db.tasks :: Complete(s.db, requests, task)
      modifies streamQueue, session, processor.retryQueue, processor.contexts, processor.executor, processor.limiter
      ensures processor.Valid() && |rs| == s.stream.Batch(capacity)
      ensures var (b, stores) := (Batch(s.db, requests, s.stream.Entries(capacity), worlds), old(processor.View()));
              && ProcessesInTurn(b, stores, workerId, rs) && processor.View() == StoresThen(b, stores, rs)
              && (var turn := if rs == [] then []
                              else [Work(workerId, Consume(capacity))] + BatchCommands(rs, b, luck);
                  Shows(Run(s, turn)) && PhaseOf(Run(s, turn), workerId).Idle?)
    {
      rs := [];
      var entries := streamQueue.Consume(Worker(workerId), capacity, now);
      if |entries| == 0 {
        NothingToConsume(s, Worker(workerId), capacity);
        return;
      }
      ConsumeIsAStep(s, workerId, capacity);
      ghost var fetch := [Work(workerId, Consume(capacity))];
      assert processor.View() == old(processor.View()) && Shows(Run(s, fetch));
      rs := HandleBatch(entries, requests, worlds, luck, Run(s, fetch));
      RunAppend(s, fetch, BatchCommands(rs, Batch(s.db, requests, entries, worlds), luck));
    }
  }
}
