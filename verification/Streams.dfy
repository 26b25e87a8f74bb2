// The Redis stream with its consumer group: undelivered entries and the pending list.
module Streams {
  import opened Wrappers
  import opened Records

  // Entry ids grow with every XADD, so an entry is named by its arrival number.
  type EntryId = nat

  datatype StreamEntry = StreamEntry(id: EntryId, task: TaskId)

  datatype Consumer = Worker(id: WorkerId) | Reclaimer

  datatype Delivery = Delivery(task: TaskId, owner: Consumer, deliveredAt: nat)

  // `queue` holds the undelivered entries: the first has id `next`, the others follow.
  datatype Stream = Stream(queue: seq<TaskId>, next: EntryId, pending: map<EntryId, Delivery>) {

    function Add(task: TaskId): Stream {
      this.(queue := queue + [task])
    }

    function Batch(count: nat): nat {
      if count <= |queue| then count else |queue|
    }

    function Entries(count: nat): seq<StreamEntry> {
      seq(Batch(count), i requires 0 <= i < |queue| => StreamEntry(next + i, queue[i]))
    }

    // XREADGROUP ">" COUNT count
    function ReadGroup(owner: Consumer, count: nat, now: nat): Stream {
      var n := Batch(count);
      Stream(queue[n..], next + n,
             pending + map id: EntryId | next <= id < next + n :: Handed(id, owner, now))
    }

    function Handed(id: EntryId, owner: Consumer, now: nat): Delivery
      requires next <= id < next + |queue|
    {
      Delivery(queue[id - next], owner, now)
    }

    function Ack(ids: set<EntryId>): Stream {
      this.(pending := pending - ids)
    }

    predicate Stale(id: EntryId, minIdle: nat, now: nat) {
      id in pending && now >= pending[id].deliveredAt + minIdle
    }

    function Claim(ids: set<EntryId>, owner: Consumer, now: nat): Stream {
      this.(pending := map id | id in pending ::
        if id in ids then Delivery(pending[id].task, owner, now) else pending[id])
    }
  }

  const EMPTY_STREAM := Stream([], 0, map[])

  // ---------------------------------------------------------------- the queue

  // The reply to a command may be lost, whether or not the command took effect.
  datatype Reply = Replies | Lost(applied: bool)

  predicate Took(reply: Reply) {
    reply.Replies? || reply.applied
  }

  function Ids(entries: seq<StreamEntry>): set<EntryId> {
    set e | e in entries :: e.id
  }

  // ---------------------------------------------------------------- what becomes of an entry

  // The id that the next entry will have.
  function NextId(stream: Stream): EntryId {
    stream.next + |stream.queue|
  }

  // Entry `id` is still to be delivered, or delivered and pending, and refers to the task.
  predicate Refers(stream: Stream, id: EntryId, task: TaskId) {
    if id < stream.next then id in stream.pending && stream.pending[id].task == task
    else id < NextId(stream) && stream.queue[id - stream.next] == task
  }

  predicate OnlyDelivered(stream: Stream) {
    forall id | id in stream.pending :: id < stream.next
  }

  datatype Command =
    | XAdd(task: TaskId)
    | XReadGroup(owner: Consumer, count: nat, now: nat)
    | XAck(ids: set<EntryId>)
    | XClaim(ids: set<EntryId>, owner: Consumer, now: nat)

  function Perform(stream: Stream, c: Command): Stream {
    match c
    case XAdd(task) => stream.Add(task)
    case XReadGroup(owner, count, now) => stream.ReadGroup(owner, count, now)
    case XAck(ids) => stream.Ack(ids)
    case XClaim(ids, owner, now) => stream.Claim(ids, owner, now)
  }

  function PerformAll(stream: Stream, commands: seq<Command>): Stream {
    if commands == [] then stream
    else Perform(PerformAll(stream, commands[..|commands| - 1]), commands[|commands| - 1])
  }

  lemma CommandKeepsEntries(stream: Stream, c: Command, id: EntryId, task: TaskId)
    requires OnlyDelivered(stream)
    ensures OnlyDelivered(Perform(stream, c))
    ensures NextId(stream) <= NextId(Perform(stream, c)) && stream.next <= Perform(stream, c).next
    ensures Refers(stream, id, task) && (c.XAck? && id < stream.next ==> id !in c.ids) ==>
              Refers(Perform(stream, c), id, task)
    ensures id < stream.next && id !in stream.pending ==> id !in Perform(stream, c).pending
  {
  }

  predicate Acknowledges(commands: seq<Command>, id: EntryId) {
    exists c | c in commands :: c.XAck? && id in c.ids
  }

  // An entry that was added keeps its id and its task, through any commands of any consumers,
  // until an acknowledgement names it.
  lemma {:induction false} EntryIsKeptUntilAcked(stream: Stream, task: TaskId, commands: seq<Command>)
    requires OnlyDelivered(stream)
    ensures var after := PerformAll(stream.Add(task), commands);
            && OnlyDelivered(after)
            && (!Acknowledges(commands, NextId(stream)) ==> Refers(after, NextId(stream), task))
    decreases |commands|
  {
    if commands != [] {
      var (front, last) := (commands[..|commands| - 1], commands[|commands| - 1]);
      EntryIsKeptUntilAcked(stream, task, front);
      CommandKeepsEntries(PerformAll(stream.Add(task), front), last, NextId(stream), task);
      assert last in commands && forall c | c in front :: c in commands;
    }
  }

  // An acknowledged entry never comes back: its id is not given out again.
  lemma {:induction false} AckedIsGoneForGood(stream: Stream, id: EntryId, ids: set<EntryId>, commands: seq<Command>)
    requires OnlyDelivered(stream) && id < stream.next && id in ids
    ensures var after := PerformAll(stream.Ack(ids), commands);
            OnlyDelivered(after) && id < after.next && id !in after.pending
    decreases |commands|
  {
    if commands != [] {
      var front := commands[..|commands| - 1];
      AckedIsGoneForGood(stream, id, ids, front);
      CommandKeepsEntries(PerformAll(stream.Ack(ids), front), commands[|commands| - 1], id, 0);
    }
  }

  // Reading m entries and then n, by any consumers, gives the first m + n in the order in which
  // they were added: none is skipped and none is given twice.
  lemma ReadsAreInOrder(stream: Stream, m: nat, n: nat, owner: Consumer, now: nat)
    ensures stream.Entries(m) + stream.ReadGroup(owner, m, now).Entries(n) == stream.Entries(m + n)
  {
  }

  // What touches an entry: a read that delivers it, and a claim that names it.
  predicate Touches(stream: Stream, c: Command, id: EntryId) {
    || (c.XReadGroup? && stream.next <= id < stream.next + stream.Batch(c.count))
    || (c.XClaim? && id in c.ids)
  }

  // An entry can be claimed as stale if and only if nothing has touched it for minIdle: whoever
  // reads or claims it has it to himself for that long.
  lemma StaleIffUntouched(stream: Stream, c: Command, id: EntryId, minIdle: nat, later: nat)
    requires OnlyDelivered(stream) && id in Perform(stream, c).pending
    ensures Perform(stream, c).Stale(id, minIdle, later) <==>
            if Touches(stream, c, id) then later >= c.now + minIdle else stream.Stale(id, minIdle, later)
    ensures Perform(stream, c).pending[id].owner ==
            if Touches(stream, c, id) then c.owner else stream.pending[id].owner
  {
  }

  // ---------------------------------------------------------------- the queue's methods

  predicate AllStale(stream: Stream, ids: set<EntryId>, minIdle: nat, now: nat) {
    forall id | id in ids :: stream.Stale(id, minIdle, now)
  }

  class StreamQueue {
    var stream: Stream

    constructor ()
      ensures stream == EMPTY_STREAM
    {
      stream := EMPTY_STREAM;
    }

    // XADD. The id of the new entry, or the exception that stands for a lost reply.
    method Enqueue(task: TaskId, reply: Reply) returns (id: Option<EntryId>)
      modifies this
      ensures stream == if Took(reply) then old(stream).Add(task) else old(stream)
      ensures id == if reply.Replies? then Some(NextId(old(stream))) else None
      ensures id.Some? ==> Refers(stream, id.value, task) && forall t: TaskId :: !Refers(old(stream), id.value, t)
    {
      id := if reply.Replies? then Some(stream.next + |stream.queue|) else None;
      if Took(reply) {
        stream := stream.Add(task);
      }
    }

    method Consume(owner: Consumer, count: nat, now: nat) returns (entries: seq<StreamEntry>)
      modifies this
      ensures entries == old(stream).Entries(count) && stream == old(stream).ReadGroup(owner, count, now)
      ensures Ids(entries) <= stream.pending.Keys
      ensures forall e | e in entries :: stream.pending[e.id] == Delivery(e.task, owner, now)
    {
      entries := stream.Entries(count);
      stream := stream.ReadGroup(owner, count, now);
    }

    // XACK. Acknowledging twice, or what was never delivered, is no error.
    method Ack(ids: set<EntryId>, reply: Reply) returns (acknowledged: Option<nat>)
      modifies this
      ensures stream == if Took(reply) then old(stream).Ack(ids) else old(stream)
      ensures acknowledged == if reply.Replies? then Some(|ids * old(stream.pending.Keys)|) else None
      ensures Took(reply) ==> var before := old(stream);
                forall id: EntryId, task: TaskId ::
                  Refers(stream, id, task) <==> Refers(before, id, task) && !(id < before.next && id in ids)
    {
      acknowledged := if reply.Replies? then Some(|ids * stream.pending.Keys|) else None;
      if Took(reply) {
        stream := stream.Ack(ids);
      }
    }

    // XAUTOCLAIM: some of the entries that nobody has touched for minIdle, at most `count`.
    method ClaimStale(owner: Consumer, minIdle: nat, count: nat, now: nat) returns (entries: seq<StreamEntry>)
      modifies this
      ensures |entries| <= count && |Ids(entries)| == |entries|
      ensures forall e | e in entries ::
                old(stream).Stale(e.id, minIdle, now) && old(stream).pending[e.id].task == e.task
      ensures stream == old(stream).Claim(Ids(entries), owner, now)
    {
      var chosen: set<EntryId> := *;
      var ids := if |chosen| <= count && AllStale(stream, chosen, minIdle, now) then chosen else {};
      entries := [];
      var rest := ids;
      while rest != {}
        invariant rest <= ids && rest !! Ids(entries) && rest + Ids(entries) == ids
        invariant |entries| + |rest| == |ids| && |Ids(entries)| == |entries|
        invariant forall e | e in entries :: e.id in ids && stream.pending[e.id].task == e.task
      {
        var id :| id in rest;
        var entry := StreamEntry(id, stream.pending[id].task);
        assert Ids(entries + [entry]) == Ids(entries) + {id};
        entries := entries + [entry];
        rest := rest - {id};
      }
      stream := stream.Claim(ids, owner, now);
    }
  }
}
