// Creating a run: one task for every data row and request, enqueued in order.
module TestRunService {
  import opened Wrappers
  import opened Records
  import opened Ledger
  import opened RetryQueue
  import opened Streams
  import opened Protocol
  import opened Soundness

  // The requests of a collection, in its order.
  type RequestIds = seq<nat>

  type DataRows = Option<seq<Variables>>

  const MAX_RETRIES: nat := 3

  // No data, and empty data, both mean one pass through the requests.
  function RowsOf(data: DataRows): (rows: seq<Option<Variables>>)
    ensures rows != []
  {
    if data.None? || data.value == [] then [None]
    else seq(|data.value|, i requires 0 <= i < |data.value| => Some(data.value[i]))
  }

  function NewTask(run: RunId, request: nat, rows: seq<Option<Variables>>, r: nat): TaskRow
    requires r < |rows|
  {
    var (index, context) := if rows[r].None? then (None, map[]) else (Some(r), rows[r].value);
    TaskRow(run, request, index, context, Pending, 0, MAX_RETRIES, None, None)
  }

  // ---------------------------------------------------------------- the product

  predicate HasData(data: DataRows) {
    data.Some? && |data.value| > 0
  }

  // How often the requests are run through.
  function Passes(data: DataRows): (n: nat)
    ensures n > 0
  {
    if HasData(data) then |data.value| else 1
  }

  // Task k is one for this request with this data, and it has not been tried yet.
  predicate HasTask(tasks: seq<TaskRow>, k: int, run: RunId, request: nat, dataRow: Option<nat>, data: Variables) {
    && 0 <= k < |tasks|
    && tasks[k].runId == run && tasks[k].requestId == request
    && tasks[k].dataRow == dataRow && tasks[k].dataContext == data
    && tasks[k].status == Pending && tasks[k].retryCount == 0 && tasks[k].maxRetries == 3
    && tasks[k].nextRetryAt == None && tasks[k].assignedWorker == None
  }

  // The tasks run through the requests for the first data row, then for the second, and so on, and
  // each has its own row's data; or, without data, once and with none.
  predicate IsProduct(tasks: seq<TaskRow>, run: RunId, requests: RequestIds, data: DataRows) {
    if HasData(data) then
      && |tasks| == |data.value| * |requests|
      && forall r, q | 0 <= r < |data.value| && 0 <= q < |requests| ::
           HasTask(tasks, r * |requests| + q, run, requests[q], Some(r), data.value[r])
    else
      && |tasks| == |requests|
      && forall q | 0 <= q < |requests| :: HasTask(tasks, q, run, requests[q], None, map[])
  }

  function At(tasks: seq<TaskRow>, k: int): Option<TaskRow> {
    if 0 <= k < |tasks| then Some(tasks[k]) else None
  }

  // The same, pass by pass.
  predicate InPasses(tasks: seq<TaskRow>, run: RunId, requests: RequestIds, rows: seq<Option<Variables>>, n: nat)
    requires n <= |rows|
  {
    forall r, q | 0 <= r < n && 0 <= q < |requests| ::
      At(tasks, r * |requests| + q) == Some(NewTask(run, requests[q], rows, r))
  }

  method BuildTasks(run: RunId, requests: RequestIds, data: DataRows) returns (tasks: seq<TaskRow>)
    ensures IsProduct(tasks, run, requests, data)
  {
    var rows := RowsOf(data);
    tasks := [];
    var n := |requests|;
    for r := 0 to |rows|
      invariant |tasks| == r * n
      invariant InPasses(tasks, run, requests, rows, r)
    {
      for q := 0 to n
        invariant |tasks| == r * n + q
        invariant InPasses(tasks, run, requests, rows, r)
        invariant forall q' | 0 <= q' < q :: At(tasks, r * n + q') == Some(NewTask(run, requests[q'], rows, r))
      {
        tasks := tasks + [NewTask(run, requests[q], rows, r)];
      }
    }
    PassesAreProduct(tasks, run, requests, data);
  }

  lemma PassesAreProduct(tasks: seq<TaskRow>, run: RunId, requests: RequestIds, data: DataRows)
    requires var rows := RowsOf(data);
             |tasks| == |rows| * |requests| && InPasses(tasks, run, requests, rows, |rows|)
    ensures IsProduct(tasks, run, requests, data)
  {
    var rows := RowsOf(data);
    forall r, q | 0 <= r < |rows| && 0 <= q < |requests|
      ensures HasTask(tasks, r * |requests| + q, run, requests[q], if rows[r].None? then None else Some(r),
                      if rows[r].None? then map[] else rows[r].value)
    {
      assert At(tasks, r * |requests| + q) == Some(NewTask(run, requests[q], rows, r));
    }
    if !HasData(data) {
      forall q | 0 <= q < |requests| ensures HasTask(tasks, q, run, requests[q], None, map[]) {
        assert rows[0].None? && 0 * |requests| + q == q;
      }
    }
  }

  // The index that a row has in its tasks.
  function RowIndex(data: DataRows, r: nat): Option<nat> {
    if HasData(data) then Some(r) else None
  }

  function RowData(data: DataRows, r: nat): Variables
    requires r < Passes(data)
  {
    if HasData(data) then data.value[r] else map[]
  }

  lemma TaskOfPair(tasks: seq<TaskRow>, run: RunId, requests: RequestIds, data: DataRows, r: nat, q: nat)
    requires IsProduct(tasks, run, requests, data) && r < Passes(data) && q < |requests|
    ensures |tasks| == Passes(data) * |requests|
    ensures HasTask(tasks, r * |requests| + q, run, requests[q], RowIndex(data, r), RowData(data, r))
  {
    if HasData(data) {
      assert HasTask(tasks, r * |requests| + q, run, requests[q], Some(r), data.value[r]);
    } else {
      assert r == 0 && HasTask(tasks, 0 * |requests| + q, run, requests[q], None, map[]);
    }
  }

  // What tells a task of a run from its others.
  function PairOf(task: TaskRow): (Option<nat>, nat) {
    (task.dataRow, task.requestId)
  }

  lemma IndexIsInProduct(k: nat, m: nat, n: nat) returns (r: nat, q: nat)
    requires k < m * n
    ensures r < m && q < n && k == r * n + q
  {
    r, q := k / n, k % n;
    assert r >= m ==> r * n >= m * n;
  }

  // Every pair of a data row and a request has its task ...
  lemma EveryPairHasATask(tasks: seq<TaskRow>, run: RunId, requests: RequestIds, data: DataRows, r: nat, q: nat)
    returns (k: nat)
    requires IsProduct(tasks, run, requests, data) && r < Passes(data) && q < |requests|
    ensures k < |tasks| && PairOf(tasks[k]) == (RowIndex(data, r), requests[q])
  {
    k := r * |requests| + q;
    TaskOfPair(tasks, run, requests, data, r, q);
  }

  // ... and only one.
  lemma PairsAreDistinct(tasks: seq<TaskRow>, run: RunId, requests: RequestIds, data: DataRows, i: nat, j: nat)
    requires IsProduct(tasks, run, requests, data) && Distinct(requests)
    requires i < |tasks| && j < |tasks| && PairOf(tasks[i]) == PairOf(tasks[j])
    ensures i == j
  {
    var (m, n) := (Passes(data), |requests|);
    var r, q := IndexIsInProduct(i, m, n);
    var r', q' := IndexIsInProduct(j, m, n);
    TaskOfPair(tasks, run, requests, data, r, q);
    TaskOfPair(tasks, run, requests, data, r', q');
    assert r == r';
    assert q == q';
  }

  // ---------------------------------------------------------------- enqueueing

  datatype CreateError = CollectionHasNoRequests | EnqueueFailed

  type Replies = nat -> Reply

  // How many enqueues are answered before the first that is not.
  function Answered(replies: Replies, n: nat, m: nat): (k: nat)
    requires n <= m
    ensures n <= k <= m
    ensures forall i | n <= i < k :: replies(i).Replies?
    ensures k < m ==> replies(k).Lost?
    decreases m - n
  {
    if n < m && replies(n).Replies? then Answered(replies, n + 1, m) else n
  }

  // The tasks on the stream when the enqueues stop: an unanswered one may have gone through.
  function Sent(ids: seq<TaskId>, replies: Replies): seq<TaskId> {
    var k := Answered(replies, 0, |ids|);
    if k < |ids| && Took(replies(k)) then ids[..k + 1] else ids[..k]
  }

  class Service {
    const streamQueue: StreamQueue

    constructor (streamQueue: StreamQueue)
      ensures this.streamQueue == streamQueue
    {
      this.streamQueue := streamQueue;
    }

    // The rows are flushed in the caller's session; `ids` are the primary keys that they get.
    method CreateRun(run: RunId, requests: RequestIds, data: DataRows, environment: Variables,
                     ids: seq<TaskId>, replies: Replies)
      returns (r: Result<RunRow, CreateError>, tasks: seq<TaskRow>)
      requires |ids| == Passes(data) * |requests|
      modifies streamQueue
      ensures r == Err(CollectionHasNoRequests) <==> requests == []
      ensures r == Err(EnqueueFailed) <==> requests != [] && Answered(replies, 0, |ids|) < |ids|
      ensures r.Ok? ==> r.value == RunRow(RunRunning, |ids|, 0, 0, environment)
      ensures requests != [] ==> IsProduct(tasks, run, requests, data)
      ensures streamQueue.stream ==
              if requests == [] then old(streamQueue.stream)
              else old(streamQueue.stream).(queue := old(streamQueue.stream).queue + Sent(ids, replies))
    {
      tasks := [];
      if |requests| == 0 {
        return Err(CollectionHasNoRequests), tasks;
      }
      var rows := RowsOf(data);
      var totalTasks := |requests| * |rows|;
      var row := RunRow(RunRunning, totalTasks, 0, 0, environment);
      tasks := BuildTasks(run, requests, data);
      var all := EnqueueAll(ids, replies);
      r := if all then Ok(row) else Err(EnqueueFailed);
    }

    // The first enqueue that is not answered ends it.
    method EnqueueAll(ids: seq<TaskId>, replies: Replies) returns (all: bool)
      modifies streamQueue
      ensures all <==> Answered(replies, 0, |ids|) == |ids|
      ensures streamQueue.stream ==
              old(streamQueue.stream).(queue := old(streamQueue.stream).queue + Sent(ids, replies))
    {
      ghost var before := streamQueue.stream;
      for i := 0 to |ids|
        invariant streamQueue.stream == before.(queue := before.queue + ids[..i])
        invariant Answered(replies, 0, |ids|) == Answered(replies, i, |ids|)
      {
        var id := streamQueue.Enqueue(ids[i], replies(i));
        assert before.queue + ids[..i + 1] == before.queue + ids[..i] + [ids[i]];
        if id.None? {
          return false;
        }
      }
      assert ids[..|ids|] == ids;
      all := true;
    }
  }

  // ---------------------------------------------------------------- the creation as a run of the protocol

  function Enqueues(run: RunId, replies: Replies, n: nat): (actions: seq<Action>)
    ensures |actions| == n
  {
    if n == 0 then [] else Enqueues(run, replies, n - 1) + [Create(run, EnqueueStaged(replies(n - 1)))]
  }

  // What the first n enqueues have done, if all of them were answered.
  predicate SentSoFar(s: State, run: RunId, c: Creation, n: nat, s': State)
    requires n <= |c.ids|
  {
    && s'.staged == s.staged[run := c.(enqueued := n)]
    && s'.stream == s.stream.(queue := s.stream.queue + c.ids[..n])
    && s'.db == s.db
  }

  function AfterEnqueues(s: State, run: RunId, replies: Replies, n: nat): State {
    if n == 0 then s else StepEnqueueStaged(AfterEnqueues(s, run, replies, n - 1), run, replies(n - 1))
  }

  lemma {:induction false} EnqueuesRun(s: State, run: RunId, replies: Replies, n: nat)
    ensures Run(s, Enqueues(run, replies, n)) == AfterEnqueues(s, run, replies, n)
  {
    if n > 0 {
      EnqueuesRun(s, run, replies, n - 1);
      RunOneMore(s, Enqueues(run, replies, n - 1), Create(run, EnqueueStaged(replies(n - 1))));
    }
  }

  lemma OneMoreSent(s: State, run: RunId, c: Creation, n: nat, s': State, reply: Reply)
    requires n < |c.ids| && !c.broken && reply.Replies? && SentSoFar(s, run, c, n, s')
    ensures SentSoFar(s, run, c, n + 1, StepEnqueueStaged(s', run, reply))
  {
    assert s.stream.queue + c.ids[..n] + [c.ids[n]] == s.stream.queue + c.ids[..n + 1];
  }

  lemma {:induction false} AnsweredEnqueues(s: State, run: RunId, c: Creation, replies: Replies, n: nat)
    requires run in s.staged && s.staged[run] == c && c.enqueued == 0 && !c.broken
    requires n <= |c.ids| && forall i | 0 <= i < n :: replies(i).Replies?
    ensures SentSoFar(s, run, c, n, AfterEnqueues(s, run, replies, n))
  {
    if n == 0 {
      assert s.stream.queue + c.ids[..0] == s.stream.queue && s.staged[run := c] == s.staged;
    } else {
      AnsweredEnqueues(s, run, c, replies, n - 1);
      OneMoreSent(s, run, c, n - 1, AfterEnqueues(s, run, replies, n - 1), replies(n - 1));
    }
  }

  // The enqueues up to the first unanswered one, that one included.
  function AllEnqueues(run: RunId, replies: Replies, n: nat): seq<Action> {
    var k := Answered(replies, 0, n);
    Enqueues(run, replies, if k < n then k + 1 else k)
  }

  lemma LastSent(s: State, run: RunId, c: Creation, n: nat, s': State, reply: Reply)
    requires n < |c.ids| && !c.broken && reply.Lost? && SentSoFar(s, run, c, n, s')
    ensures var last := StepEnqueueStaged(s', run, reply);
            && last.stream == s.stream.(queue := s.stream.queue + if Took(reply) then c.ids[..n + 1] else c.ids[..n])
            && (run in last.staged <==> c.scheduled)
            && (c.scheduled ==> last.staged[run] == c.(enqueued := n, broken := true))
            && last.db == s.db
  {
    assert s.stream.queue + c.ids[..n] + [c.ids[n]] == s.stream.queue + c.ids[..n + 1];
  }

  // The state after all the enqueues that are made.
  predicate AllSent(s: State, run: RunId, c: Creation, replies: Replies, s': State) {
    var k := Answered(replies, 0, |c.ids|);
    && s'.stream == s.stream.(queue := s.stream.queue + Sent(c.ids, replies))
    && (run in s'.staged <==> k == |c.ids| || c.scheduled)
    && (run in s'.staged ==> s'.staged[run] == c.(enqueued := k, broken := k < |c.ids|))
    && s'.db == s.db
  }

  lemma LastIsSent(s: State, run: RunId, c: Creation, replies: Replies, s': State)
    requires !c.broken && SentSoFar(s, run, c, Answered(replies, 0, |c.ids|), s')
    ensures var k := Answered(replies, 0, |c.ids|);
            AllSent(s, run, c, replies, if k < |c.ids| then StepEnqueueStaged(s', run, replies(k)) else s')
  {
    var k := Answered(replies, 0, |c.ids|);
    if k < |c.ids| {
      LastSent(s, run, c, k, s', replies(k));
    }
  }

  lemma EnqueuesAreARun(s: State, run: RunId, c: Creation, replies: Replies)
    requires run in s.staged && s.staged[run] == c && c.enqueued == 0 && !c.broken
    ensures AllSent(s, run, c, replies, Run(s, AllEnqueues(run, replies, |c.ids|)))
  {
    var k := Answered(replies, 0, |c.ids|);
    AnsweredEnqueues(s, run, c, replies, k);
    LastIsSent(s, run, c, replies, AfterEnqueues(s, run, replies, k));
    EnqueuesRun(s, run, replies, if k < |c.ids| then k + 1 else k);
  }

  lemma ProductIsFresh(tasks: seq<TaskRow>, run: RunId, requests: RequestIds, data: DataRows)
    requires IsProduct(tasks, run, requests, data)
    ensures forall row | row in tasks :: FreshRow(row, run)
  {
    forall row | row in tasks ensures FreshRow(row, run) {
      var k :| 0 <= k < |tasks| && tasks[k] == row;
      var r, q := IndexIsInProduct(k, Passes(data), |requests|);
      TaskOfPair(tasks, run, requests, data, r, q);
    }
  }

  // Neither the run nor its tasks exist yet: their primary keys are new.
  predicate NewKeys(s: State, run: RunId, ids: seq<TaskId>) {
    run !in s.db.runs && run !in s.staged && Distinct(ids) && forall id | id in ids :: id !in s.used
  }

  lemma ProductCanBeStaged(s: State, run: RunId, ids: seq<TaskId>, tasks: seq<TaskRow>,
                           requests: RequestIds, data: DataRows)
    requires NewKeys(s, run, ids) && |ids| == |tasks| && requests != []
    requires IsProduct(tasks, run, requests, data)
    ensures CanStage(s, run, ids, tasks)
  {
    ProductIsFresh(tasks, run, requests, data);
    TaskOfPair(tasks, run, requests, data, 0, 0);
  }

  // Creating a run is a run of the protocol that ends with the same tasks on the stream. When an
  // enqueue fails, a manual run is rolled back, and a scheduled one stays, to be committed all
  // the same.
  lemma {:induction false} CreationIsARun(s: State, run: RunId, ids: seq<TaskId>, tasks: seq<TaskRow>,
                                          requests: RequestIds, data: DataRows, environment: Variables,
                                          scheduled: bool, replies: Replies)
    requires NewKeys(s, run, ids) && |ids| == |tasks| && requests != []
    requires IsProduct(tasks, run, requests, data)
    ensures var k := Answered(replies, 0, |ids|);
            var s' := Run(s, [Create(run, Stage(ids, tasks, environment, scheduled))] +
                             AllEnqueues(run, replies, |ids|));
            && s'.stream == s.stream.(queue := s.stream.queue + Sent(ids, replies))
            && (run in s'.staged <==> k == |ids| || scheduled)
            && (run in s'.staged ==>
                  s'.staged[run] == Creation(RunRow(RunRunning, |ids|, 0, 0, environment), ids, tasks, scheduled,
                                             k, k < |ids|))
            && s'.db == s.db
  {
    var stage := Create(run, Stage(ids, tasks, environment, scheduled));
    ProductCanBeStaged(s, run, ids, tasks, requests, data);
    assert Run(s, [stage]) == Step(s, stage) by { assert [stage][..0] == []; }
    RunAppend(s, [stage], AllEnqueues(run, replies, |ids|));
    EnqueuesAreARun(Step(s, stage), run, Step(s, stage).staged[run], replies);
  }

  // ---------------------------------------------------------------- completion means that every pair has ended

  lemma WritingKeepsTotals(s: State, w: WorkerId, a: WorkerAction, run: RunId)
    requires run in s.db.runs
    ensures var db := StepWorker(s, w, a).db; run in db.runs && db.runs[run].totalTasks == s.db.runs[run].totalTasks
  {
    WorkersWriteBatches(s, w, a);
  }

  lemma {:induction false} TotalsStay(s: State, a: Action, run: RunId)
    requires Wellformed(s) && run in s.db.runs
    ensures run in Step(s, a).db.runs && Step(s, a).db.runs[run].totalTasks == s.db.runs[run].totalTasks
  {
    match a
    case Create(other, creating) =>
      CreatorsCommit(s, other, creating);
      assert other in s.staged ==> CreationOk(s, other);
    case Work(w, working) => WritingKeepsTotals(s, w, working, run);
    case Sweep(sweeping) => SweeperFrame(s, sweeping);
    case Reclaim(reclaiming) => ReclaimerFrame(s, reclaiming);
    case _ =>
  }

  // A committed run has the tasks that it was created with, whatever happens afterwards.
  predicate Has(db: Tables, run: RunId, ids: seq<TaskId>, rows: seq<TaskRow>) {
    && |ids| == |rows| && run in db.runs && db.runs[run].totalTasks == |ids|
    && forall k | 0 <= k < |ids| :: ids[k] in db.tasks && SameTask(rows[k], db.tasks[ids[k]])
  }

  lemma CommittedHas(s: State, run: RunId)
    requires run in s.staged && CreationOk(s, run)
    ensures Has(Committed(s.db, s.staged[run], run), run, s.staged[run].ids, s.staged[run].rows)
  {
    var c := s.staged[run];
    var db := Committed(s.db, c, run);
    forall k | 0 <= k < |c.ids| ensures c.ids[k] in db.tasks && SameTask(c.rows[k], db.tasks[c.ids[k]]) {
      assert c.ids[k] !in c.ids[..k];
      assert NewRows(c)[c.ids[k]] == c.rows[k];
    }
  }

  lemma {:induction false} StillHas(s: State, run: RunId, ids: seq<TaskId>, rows: seq<TaskRow>, more: seq<Action>)
    requires Wellformed(s) && Has(s.db, run, ids, rows)
    ensures Wellformed(Run(s, more)) && Has(Run(s, more).db, run, ids, rows)
    decreases |more|
  {
    if more != [] {
      var (front, last) := (more[..|more| - 1], more[|more| - 1]);
      StillHas(s, run, ids, rows, front);
      StepKeepsWellformed(Run(s, front), last);
      TotalsStay(Run(s, front), last, run);
      var (db, db') := (Run(s, front).db, Run(s, more).db);
      forall k | 0 <= k < |ids| ensures ids[k] in db'.tasks && SameTask(rows[k], db'.tasks[ids[k]]) {
        assert ids[k] in db.tasks;
      }
    }
  }

  lemma OnlyThoseTasks(db: Tables, run: RunId, ids: seq<TaskId>, rows: seq<TaskRow>)
    requires Sound(db) && Has(db, run, ids, rows) && Distinct(ids) && forall row | row in rows :: row.runId == run
    ensures TasksOf(db, run) == Members(ids)
  {
    forall id | id in ids ensures id in TasksOf(db, run) {
      var k :| 0 <= k < |ids| && ids[k] == id;
      assert rows[k] in rows;
    }
    DistinctSize(ids);
    SubsetSize(Members(ids), TasksOf(db, run));
  }

  lemma TaskOfPairs(tasks: seq<TaskRow>, run: RunId, requests: RequestIds, data: DataRows)
    requires IsProduct(tasks, run, requests, data)
    ensures |tasks| == Passes(data) * |requests|
  {
    if |tasks| > 0 && requests != [] { TaskOfPair(tasks, run, requests, data, 0, 0); }
  }

  // The task of a pair has ended.
  predicate PairEnded(db: Tables, run: RunId, pair: (Option<nat>, nat)) {
    exists task | task in TasksOf(db, run) :: PairOf(db.tasks[task]) == pair && Ended(db, task)
  }

  lemma AllEndedIffEveryPair(db: Tables, run: RunId, ids: seq<TaskId>, tasks: seq<TaskRow>, requests: RequestIds,
                             data: DataRows)
    requires Has(db, run, ids, tasks) && TasksOf(db, run) == Members(ids)
    requires IsProduct(tasks, run, requests, data) && Distinct(requests)
    ensures (forall task | task in TasksOf(db, run) :: Ended(db, task)) <==>
            forall r: nat, q: nat | r < Passes(data) && q < |requests| ::
              PairEnded(db, run, (RowIndex(data, r), requests[q]))
  {
    if forall task | task in TasksOf(db, run) :: Ended(db, task) {
      forall r: nat, q: nat | r < Passes(data) && q < |requests|
        ensures PairEnded(db, run, (RowIndex(data, r), requests[q]))
      {
        var k := EveryPairHasATask(tasks, run, requests, data, r, q);
        assert ids[k] in TasksOf(db, run);
      }
    }
    if forall r: nat, q: nat | r < Passes(data) && q < |requests| ::
         PairEnded(db, run, (RowIndex(data, r), requests[q]))
    {
      forall task | task in TasksOf(db, run) ensures Ended(db, task) {
        var k :| 0 <= k < |ids| && ids[k] == task;
        PairOfTaskEnded(db, run, ids, tasks, requests, data, k);
      }
    }
  }

  lemma PairOfTaskEnded(db: Tables, run: RunId, ids: seq<TaskId>, tasks: seq<TaskRow>, requests: RequestIds,
                        data: DataRows, k: nat)
    requires Has(db, run, ids, tasks) && TasksOf(db, run) == Members(ids)
    requires IsProduct(tasks, run, requests, data) && Distinct(requests) && k < |ids|
    requires forall r: nat, q: nat | r < Passes(data) && q < |requests| ::
               PairEnded(db, run, (RowIndex(data, r), requests[q]))
    ensures Ended(db, ids[k])
  {
    var r, q := IndexIsInProduct(k, Passes(data), |requests|);
    var pair := (RowIndex(data, r), requests[q]);
    TaskOfPair(tasks, run, requests, data, r, q);
    assert PairOf(tasks[k]) == pair && PairEnded(db, run, pair);
    var task :| task in TasksOf(db, run) && PairOf(db.tasks[task]) == pair && Ended(db, task);
    var j :| 0 <= j < |ids| && ids[j] == task;
    PairsAreDistinct(tasks, run, requests, data, j, k);
  }

  // Whatever happens after its commit, a run has the tasks that it was created with and no others.
  lemma CommittedRunHas(before: seq<Action>, run: RunId, more: seq<Action>)
    requires var s := Run(INITIAL, before); run in s.staged && CanCommit(s.staged[run])
    requires forall row | row in Run(INITIAL, before).staged[run].rows :: row.runId == run
    ensures var (c, db) := (Run(INITIAL, before).staged[run], Run(INITIAL, before + [Create(run, Commit)] + more).db);
            Sound(db) && Has(db, run, c.ids, c.rows) && TasksOf(db, run) == Members(c.ids)
  {
    var s := Run(INITIAL, before);
    var (c, commit) := (s.staged[run], Create(run, Commit));
    RunsAreWellformed(before);
    assert CreationOk(s, run);
    CommittedHas(s, run);
    StepKeepsWellformed(s, commit);
    RunOneMore(INITIAL, before, commit);
    RunAppend(INITIAL, before + [commit], more);
    StillHas(Step(s, commit), run, c.ids, c.rows, more);
    OnlyThoseTasks(Run(Step(s, commit), more).db, run, c.ids, c.rows);
  }

  // A run that was committed with a task for every pair is COMPLETED if and only if every pair of
  // a data row and a request has ended, as long as none of its tasks was ended twice; and then the
  // counters never pass the number of pairs.
  lemma {:induction false} CompletedIffEveryPairEnded(before: seq<Action>, run: RunId, requests: RequestIds,
                                                      data: DataRows, more: seq<Action>)
    requires var s := Run(INITIAL, before);
             run in s.staged && CanCommit(s.staged[run]) &&
             IsProduct(s.staged[run].rows, run, requests, data) && Distinct(requests)
    requires var db := Run(INITIAL, before + [Create(run, Commit)] + more).db;
             forall task | task in TasksOf(db, run) :: TerminalCount(db.logs, task) <= 1
    ensures var db := Run(INITIAL, before + [Create(run, Commit)] + more).db;
            && run in db.runs && db.runs[run].totalTasks == Passes(data) * |requests|
            && db.runs[run].completedTasks + db.runs[run].failedTasks <= db.runs[run].totalTasks
            && (db.runs[run].status == RunCompleted <==>
                forall r: nat, q: nat | r < Passes(data) && q < |requests| ::
                  PairEnded(db, run, (RowIndex(data, r), requests[q])))
  {
    var c := Run(INITIAL, before).staged[run];
    var db := Run(INITIAL, before + [Create(run, Commit)] + more).db;
    ProductIsFresh(c.rows, run, requests, data);
    CommittedRunHas(before, run, more);
    TaskOfPairs(c.rows, run, requests, data);
    CompletedMeansAllEnded(db, run);
    AllEndedIffEveryPair(db, run, c.ids, c.rows, requests, data);
  }
}
