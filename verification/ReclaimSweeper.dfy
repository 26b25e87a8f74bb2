// Re-enqueueing the entries that a dead or slow consumer has left pending.
module ReclaimSweeper {
  import opened Wrappers
  import opened Records
  import opened Sequences
  import opened RetryQueue
  import opened Streams
  import opened Protocol

  const DEFAULT_MIN_IDLE_MS: nat := 360000

  // The replies to the enqueue and, if that goes through, to the ack of one claimed entry.
  datatype Turn = Turn(enqueue: Reply, ack: Reply)

  type Turns = nat -> Turn

  // ---------------------------------------------------------------- what the first n turns do

  function AfterTurn(stream: Stream, e: StreamEntry, turn: Turn): Stream {
    var added := if Took(turn.enqueue) then stream.Add(e.task) else stream;
    if turn.enqueue.Replies? && Took(turn.ack) then added.Ack({e.id}) else added
  }

  function AfterTurns(stream: Stream, entries: seq<StreamEntry>, turns: Turns, n: nat): Stream
    requires n <= |entries|
  {
    if n == 0 then stream else AfterTurn(AfterTurns(stream, entries, turns, n - 1), entries[n - 1], turns(n - 1))
  }

  predicate Reclaims(turn: Turn) {
    turn.enqueue.Replies? && turn.ack.Replies?
  }

  function Count(turns: Turns, n: nat): nat {
    if n == 0 then 0 else Count(turns, n - 1) + if Reclaims(turns(n - 1)) then 1 else 0
  }

  // The number of entries enqueued again and acknowledged, as the sweeper knows.
  lemma {:induction false} ReclaimsCounted(turns: Turns, n: nat)
    ensures Count(turns, n) == |set i: nat | i < n && turns(i).enqueue.Replies? && turns(i).ack.Replies?|
  {
    if n > 0 {
      ReclaimsCounted(turns, n - 1);
      assert (set i: nat | i < n && turns(i).enqueue.Replies? && turns(i).ack.Replies?) ==
             (set i: nat | i < n - 1 && turns(i).enqueue.Replies? && turns(i).ack.Replies?) +
             if turns(n - 1).enqueue.Replies? && turns(n - 1).ack.Replies? then {n - 1} else {};
    }
  }

  // ---------------------------------------------------------------- the sweep

  class Sweeper {
    const streamQueue: StreamQueue
    const minIdleMs: nat
    const batchSize: nat

    constructor (streamQueue: StreamQueue, minIdleMs: nat, batchSize: nat)
      ensures this.streamQueue == streamQueue && this.minIdleMs == minIdleMs && this.batchSize == batchSize
    {
      this.streamQueue, this.minIdleMs, this.batchSize := streamQueue, minIdleMs, batchSize;
    }

    // A failure leaves its entry claimed, to go stale again, and the sweep goes on with the next.
    method SweepOnce(now: nat, turns: Turns) returns (reclaimedCount: nat, ghost staleEntries: seq<StreamEntry>)
      modifies streamQueue
      ensures |staleEntries| <= batchSize && |Ids(staleEntries)| == |staleEntries|
      ensures forall e | e in staleEntries ::
                old(streamQueue.stream).Stale(e.id, minIdleMs, now) &&
                old(streamQueue.stream).pending[e.id].task == e.task
      ensures var claimed := old(streamQueue.stream).Claim(Ids(staleEntries), Reclaimer, now);
              streamQueue.stream == AfterTurns(claimed, staleEntries, turns, |staleEntries|)
      ensures reclaimedCount == |set i: nat | i < |staleEntries| && turns(i).enqueue.Replies? && turns(i).ack.Replies?|
    {
      var entries := streamQueue.ClaimStale(Reclaimer, minIdleMs, batchSize, now);
      staleEntries := entries;
      ghost var claimed := streamQueue.stream;
      reclaimedCount := 0;
      for i := 0 to |entries|
        invariant streamQueue.stream == AfterTurns(claimed, entries, turns, i)
        invariant reclaimedCount == Count(turns, i)
      {
        var turn := turns(i);
        var id := streamQueue.Enqueue(entries[i].task, turn.enqueue);
        if id.Some? {
          var acknowledged := streamQueue.Ack({entries[i].id}, turn.ack);
          if acknowledged.Some? {
            reclaimedCount := reclaimedCount + 1;
          }
        }
      }
      ReclaimsCounted(turns, |entries|);
    }
  }

  // ---------------------------------------------------------------- acknowledged means enqueued again

  lemma {:induction false} QueueGrows(stream: Stream, entries: seq<StreamEntry>, turns: Turns, m: nat, n: nat)
    requires m <= n <= |entries|
    ensures AfterTurns(stream, entries, turns, m).queue <= AfterTurns(stream, entries, turns, n).queue
    ensures AfterTurns(stream, entries, turns, n).pending.Keys <= AfterTurns(stream, entries, turns, m).pending.Keys
    decreases n
  {
    if m < n {
      QueueGrows(stream, entries, turns, m, n - 1);
    }
  }

  lemma {:induction false} OthersStayPending(stream: Stream, entries: seq<StreamEntry>, turns: Turns, n: nat,
                                             id: EntryId)
    requires n <= |entries| && id in stream.pending && forall i | 0 <= i < n :: entries[i].id != id
    ensures var after := AfterTurns(stream, entries, turns, n);
            id in after.pending && after.pending[id] == stream.pending[id]
  {
    if n > 0 {
      OthersStayPending(stream, entries, turns, n - 1, id);
    }
  }

  // The entry is acknowledged exactly when its own two commands say so, whatever happened to the
  // entries before it, and then a fresh entry for its task is on the stream.
  lemma AckedMeansEnqueued(stream: Stream, entries: seq<StreamEntry>, turns: Turns, i: nat)
    requires |Ids(entries)| == |entries| && i < |entries|
    requires forall e | e in entries :: e.id in stream.pending
    ensures var (after, e, turn) := (AfterTurns(stream, entries, turns, |entries|), entries[i], turns(i));
            && (e.id !in after.pending <==> turn.enqueue.Replies? && Took(turn.ack))
            && (e.id !in after.pending ==> e.task in after.queue)
  {
    var (e, turn) := (entries[i], turns(i));
    DistinctIds(entries);
    OthersStayPending(stream, entries, turns, i, e.id);
    QueueGrows(stream, entries, turns, i + 1, |entries|);
    if turn.enqueue.Replies? && Took(turn.ack) {
      var here := AfterTurns(stream, entries, turns, i + 1);
      assert here.queue[|here.queue| - 1] == e.task;
    } else {
      StaysPending(stream, entries, turns, i + 1, |entries|, e.id);
    }
  }

  lemma {:induction false} StaysPending(stream: Stream, entries: seq<StreamEntry>, turns: Turns, m: nat, n: nat,
                                        id: EntryId)
    requires m <= n <= |entries| && id in AfterTurns(stream, entries, turns, m).pending
    requires forall i | m <= i < n :: entries[i].id != id
    ensures id in AfterTurns(stream, entries, turns, n).pending
    decreases n
  {
    if m < n {
      StaysPending(stream, entries, turns, m, n - 1, id);
    }
  }

  lemma {:induction false} AtMostAsMany(entries: seq<StreamEntry>)
    ensures |Ids(entries)| <= |entries|
    decreases |entries|
  {
    if entries == [] {
      assert Ids(entries) == {};
    } else {
      var n := |entries| - 1;
      AtMostAsMany(entries[..n]);
      assert entries == entries[..n] + [entries[n]];
      assert Ids(entries) == Ids(entries[..n]) + {entries[n].id};
    }
  }

  lemma {:induction false} DistinctIds(entries: seq<StreamEntry>)
    requires |Ids(entries)| == |entries|
    ensures forall i, j :: 0 <= i < j < |entries| ==> entries[i].id != entries[j].id
    decreases |entries|
  {
    if entries != [] {
      var n := |entries| - 1;
      assert entries == entries[..n] + [entries[n]];
      assert Ids(entries) == Ids(entries[..n]) + {entries[n].id};
      AtMostAsMany(entries[..n]);
      DistinctIds(entries[..n]);
    }
  }

  // ---------------------------------------------------------------- the sweep as a run of the protocol

  function TurnActions(turn: Turn): seq<Action> {
    [Reclaim(ReclaimEnqueue(turn.enqueue))] + if turn.enqueue.Replies? then [Reclaim(ReclaimAck(turn.ack))] else []
  }

  function Script(turns: Turns, n: nat): seq<Action> {
    if n == 0 then [] else Script(turns, n - 1) + TurnActions(turns(n - 1))
  }

  // Every entry whose fresh copy is on the stream has been handed on.
  function CoveredAfter(covered: set<EntryId>, entries: seq<StreamEntry>, turns: Turns, n: nat): set<EntryId>
    requires n <= |entries|
  {
    if n == 0 then covered
    else if Took(turns(n - 1).enqueue) then CoveredAfter(covered, entries, turns, n - 1) + {entries[n - 1].id}
    else CoveredAfter(covered, entries, turns, n - 1)
  }

  function Claims(entries: seq<StreamEntry>): seq<ClaimedEntry> {
    Map((e: StreamEntry) => ClaimedEntry(e, false), entries)
  }

  function Reclaimed(s: State, entries: seq<StreamEntry>, turns: Turns, n: nat): State
    requires n <= |entries|
  {
    s.(stream := AfterTurns(s.stream, entries, turns, n),
       covered := CoveredAfter(s.covered, entries, turns, n),
       claimed := Claims(entries[n..]))
  }

  lemma TurnEnqueues(s: State, e: StreamEntry, rest: seq<ClaimedEntry>, reply: Reply)
    requires s.claimed == [ClaimedEntry(e, false)] + rest
    ensures StepReclaimEnqueue(s, reply) ==
            s.(stream := if Took(reply) then s.stream.Add(e.task) else s.stream,
               claimed := if reply.Replies? then [ClaimedEntry(e, true)] + rest else rest,
               covered := if Took(reply) then s.covered + {e.id} else s.covered)
  {
    assert s.claimed[1..] == rest;
    assert s.claimed[0 := ClaimedEntry(e, true)] == [ClaimedEntry(e, true)] + rest;
  }

  lemma TurnAcks(s: State, e: StreamEntry, rest: seq<ClaimedEntry>, reply: Reply)
    requires s.claimed == [ClaimedEntry(e, true)] + rest
    ensures StepReclaimAck(s, reply) ==
            s.(stream := if Took(reply) then s.stream.Ack({e.id}) else s.stream, claimed := rest)
  {
    assert s.claimed[1..] == rest;
  }

  lemma OneTurn(s: State, e: StreamEntry, rest: seq<ClaimedEntry>, turn: Turn)
    requires s.claimed == [ClaimedEntry(e, false)] + rest
    ensures Run(s, TurnActions(turn)) ==
            s.(stream := AfterTurn(s.stream, e, turn), claimed := rest,
               covered := if Took(turn.enqueue) then s.covered + {e.id} else s.covered)
  {
    var actions := TurnActions(turn);
    RunOneMore(s, [], actions[0]);
    TurnEnqueues(s, e, rest, turn.enqueue);
    if turn.enqueue.Replies? {
      RunOneMore(s, [] + [actions[0]], actions[1]);
      TurnAcks(StepReclaimEnqueue(s, turn.enqueue), e, rest, turn.ack);
      assert actions == [] + [actions[0]] + [actions[1]];
    } else {
      assert actions == [] + [actions[0]];
    }
  }

  lemma ClaimsFrom(entries: seq<StreamEntry>, n: nat)
    requires n < |entries|
    ensures Claims(entries[n..]) == [ClaimedEntry(entries[n], false)] + Claims(entries[n + 1..])
  {
  }

  // The sweep of the claimed entries is a run of the protocol that ends in the same stream.
  lemma {:induction false} SweepIsARun(s: State, entries: seq<StreamEntry>, turns: Turns, n: nat)
    requires s.claimed == Claims(entries) && n <= |entries|
    ensures Run(s, Script(turns, n)) == Reclaimed(s, entries, turns, n)
  {
    if n == 0 {
      assert entries[0..] == entries;
    } else {
      SweepIsARun(s, entries, turns, n - 1);
      RunAppend(s, Script(turns, n - 1), TurnActions(turns(n - 1)));
      ClaimsFrom(entries, n - 1);
      OneTurn(Reclaimed(s, entries, turns, n - 1), entries[n - 1], Claims(entries[n..]), turns(n - 1));
    }
  }

  lemma SameIds(entries: seq<StreamEntry>, ids: seq<EntryId>)
    requires |ids| == |entries| && forall i :: 0 <= i < |ids| ==> ids[i] == entries[i].id
    ensures (set id | id in ids) == Ids(entries)
  {
    forall e | e in entries ensures e.id in ids {
      var i :| 0 <= i < |entries| && entries[i] == e;
      assert ids[i] == e.id;
    }
  }

  // So is the claim before it: XAUTOCLAIM takes any stale entries.
  lemma ClaimingIsAStep(s: State, entries: seq<StreamEntry>, minIdle: nat)
    requires s.claimed == [] && |Ids(entries)| == |entries|
    requires forall e | e in entries :: s.stream.Stale(e.id, minIdle, s.now) && s.stream.pending[e.id].task == e.task
    ensures var ids := Map((e: StreamEntry) => e.id, entries);
            Step(s, Reclaim(ClaimStale(ids, minIdle))) ==
            s.(stream := s.stream.Claim(Ids(entries), Reclaimer, s.now), claimed := Claims(entries))
  {
    var ids := Map((e: StreamEntry) => e.id, entries);
    DistinctIds(entries);
    forall id | id in ids ensures s.stream.Stale(id, minIdle, s.now) {
      var i :| 0 <= i < |ids| && ids[i] == id;
      assert entries[i] in entries;
    }
    forall i | 0 <= i < |entries| ensures StreamEntry(ids[i], TaskOf(s.stream, ids[i])) == entries[i] {
      assert entries[i] in entries;
    }
    assert Map((id: EntryId) => ClaimedEntry(StreamEntry(id, TaskOf(s.stream, id)), false), ids) == Claims(entries);
    SameIds(entries, ids);
  }
}
