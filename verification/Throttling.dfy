// What a host has to bear from all calls of process_task that share a rate limiter.
module Throttling {
  import opened Wrappers
  import opened Records
  import opened RunContext
  import opened Templates
  import opened RateLimiter
  import opened TaskProcessor
  import Attempts

  // Whichever workers make the calls, and whatever tables, contexts and clocks they see, a host
  // receives no more requests than its bucket granted.

  // The inputs of one call, apart from what the limiter has been asked before.
  datatype Visit = Visit(db: Tables, requests: Requests, hashes: Hashes, task: TaskId, world: World)

  function CallAt(t: Throttle, v: Visit): Call {
    CallOf(v.db, v.requests, Stores(map[], v.hashes, Some(t), []), v.task, v.world)
  }

  function ThrottleThen(t: Throttle, visits: seq<Visit>): Throttle
    decreases |visits|
  {
    if visits == [] then t
    else
      var before := ThrottleThen(t, visits[..|visits| - 1]);
      var call := CallAt(before, visits[|visits| - 1]);
      ThrottleAfter(Some(before), call.host, call.at).value
  }

  // The requests that the calls send.
  function SentBy(t: Throttle, visits: seq<Visit>): seq<Prepared>
    decreases |visits|
  {
    if visits == [] then []
    else
      var front := visits[..|visits| - 1];
      SentBy(t, front) + CallAt(ThrottleThen(t, front), visits[|visits| - 1]).sent
  }

  lemma OneMoreVisit(t: Throttle, visits: seq<Visit>, v: Visit)
    ensures var (before, call) := (ThrottleThen(t, visits), CallAt(ThrottleThen(t, visits), v));
            && ThrottleThen(t, visits + [v]) == ThrottleAfter(Some(before), call.host, call.at).value
            && SentBy(t, visits + [v]) == SentBy(t, visits) + call.sent
  {
    assert (visits + [v])[..|visits|] == visits;
  }

  // What process_task does to the limiter and the network depends on nothing else.
  lemma CallIsAVisit(db: Tables, requests: Requests, stores: Stores, task: TaskId, world: World)
    requires stores.throttle.Some?
    ensures CallAt(stores.throttle.value, Visit(db, requests, stores.hashes, task, world)) ==
            CallOf(db, requests, stores, task, world)
  {
  }

  // Between two states of the stores, the limiter and the network have seen just these calls.
  ghost predicate Follows(t: Throttle, sent: seq<Prepared>, visits: seq<Visit>, stores: Stores) {
    stores.throttle == Some(ThrottleThen(t, visits)) && stores.sent == sent + SentBy(t, visits)
  }

  lemma CallFollows(t: Throttle, sent: seq<Prepared>, visits: seq<Visit>, v: Visit, stores: Stores, r: Processed)
    requires Follows(t, sent, visits, stores) && v.hashes == stores.hashes
    ensures Follows(t, sent, visits + [v], StoresAfter(v.db, v.requests, stores, v.task, v.world, r))
  {
    OneMoreVisit(t, visits, v);
    CallIsAVisit(v.db, v.requests, stores, v.task, v.world);
  }

  function SentTo(hostForUrl: string -> Option<string>, sent: seq<Prepared>, host: string): nat {
    if sent == [] then 0
    else
      SentTo(hostForUrl, sent[..|sent| - 1], host) +
      if hostForUrl(sent[|sent| - 1].url) == Some(host) then 1 else 0
  }

  lemma OneMoreSent(hostForUrl: string -> Option<string>, sent: seq<Prepared>, more: seq<Prepared>, host: string)
    requires |more| <= 1
    ensures SentTo(hostForUrl, sent + more, host) == SentTo(hostForUrl, sent, host) + SentTo(hostForUrl, more, host)
  {
    if more == [] {
      assert sent + more == sent;
    } else {
      assert (sent + more)[..|sent|] == sent && more[..0] == [];
    }
  }

  // A call sends at most one request, to the host that it asked for, and only if it was granted.
  lemma CallIsThrottled(t: Throttle, v: Visit)
    ensures var call := CallAt(t, v);
            && |call.sent| <= 1
            && forall p | p in call.sent ::
                 t.hostForUrl(p.url) == call.host && (call.host.Some? ==> Grants(t, call.host.value, call.at))
  {
  }

  // The requests of the call could be prepared, so that a granted token is not wasted.
  predicate Resolvable(v: Visit) {
    Complete(v.db, v.requests, v.task) ==>
      var row := v.db.tasks[v.task];
      Prepare(v.requests[row.requestId], ChainContext(v.hashes, row), v.db.runs[row.runId].environment).Ok?
  }

  // That is, every name in its templates can be seen.
  lemma ResolvableIff(v: Visit, merges: seq<MergeEvent>)
    requires Complete(v.db, v.requests, v.task) && Isolated(v.hashes, merges)
    ensures var row := v.db.tasks[v.task];
            Resolvable(v) <==>
            Attempts.AllBound(Attempts.TemplatesOf(v.requests[row.requestId]),
                              Attempts.Visible(row, merges, v.db.runs[row.runId].environment))
  {
    var row := v.db.tasks[v.task];
    var (request, environment) := (v.requests[row.requestId], v.db.runs[row.runId].environment);
    var context := ChainContext(v.hashes, row);
    Attempts.ContextIsChain(v.hashes, merges, row);
    assert Attempts.Visible(row, merges, environment) == environment + context;
    match Prepare(request, context, environment)
    case Ok(p) => Attempts.PreparedIsRendered(request, context, environment, p);
    case Err(e) =>
      Attempts.UnpreparedIsUnseen(request, context, environment, e);
      Attempts.UnseenIsNotBound(Attempts.TemplatesOf(request), environment + context, e.name);
  }

  lemma ResolvableIsSent(t: Throttle, v: Visit)
    requires Resolvable(v)
    ensures var call := CallAt(t, v);
            call.host.Some? && Grants(t, call.host.value, call.at) ==> |call.sent| == 1
  {
  }

  // A later attempt does not change what the earlier ones were granted.
  lemma {:induction false} EarlierGrants(l: Limits, ttl: Ttl, trace: Trace, a: Attempt, i: nat, n: nat)
    requires n <= |trace|
    ensures Granted(l, ttl, trace + [a], i, n) == Granted(l, ttl, trace, i, n)
  {
    if i < n {
      EarlierGrants(l, ttl, trace, a, i, n - 1);
      assert (trace + [a])[..n - 1] == trace[..n - 1];
      AfterPrefix(l, ttl, trace + [a], trace, n - 1);
    }
  }

  // The tokens that a host's bucket grants during the calls.
  function GrantedDuring(t: Throttle, visits: seq<Visit>, host: string): real {
    var trace := TraceIn(ThrottleThen(t, visits).history, host);
    Granted(t.limits, BUCKET_TTL, trace, |TraceIn(t.history, host)|, |trace|)
  }

  lemma {:induction false} SameThrottle(t: Throttle, visits: seq<Visit>, host: string)
    ensures var t' := ThrottleThen(t, visits);
            && t'.limits == t.limits && t'.hostForUrl == t.hostForUrl
            && TraceIn(t.history, host) <= TraceIn(t'.history, host)
    decreases |visits|
  {
    if visits != [] {
      SameThrottle(t, visits[..|visits| - 1], host);
    }
  }

  lemma OneCallMore(t: Throttle, visits: seq<Visit>, v: Visit, host: string)
    ensures var (before, call) := (ThrottleThen(t, visits), CallAt(ThrottleThen(t, visits), v));
            GrantedDuring(t, visits + [v], host) == GrantedDuring(t, visits, host) +
              if call.host == Some(host) && Grants(before, host, call.at) then 1.0 else 0.0
  {
    var before := ThrottleThen(t, visits);
    var call := CallAt(before, v);
    var (trace, i) := (TraceIn(before.history, host), |TraceIn(t.history, host)|);
    assert (visits + [v])[..|visits|] == visits;
    SameThrottle(t, visits, host);
    if call.host == Some(host) {
      EarlierGrants(t.limits, BUCKET_TTL, trace, Attempt(call.at, 1), i, |trace|);
    }
  }

  // A host receives at most as many requests as its bucket granted tokens, and exactly as many if
  // all templates can be resolved.
  lemma {:induction false} RequestsAreGranted(t: Throttle, visits: seq<Visit>, host: string)
    ensures SentTo(t.hostForUrl, SentBy(t, visits), host) as real <= GrantedDuring(t, visits, host)
    ensures (forall v | v in visits :: Resolvable(v)) ==>
              SentTo(t.hostForUrl, SentBy(t, visits), host) as real == GrantedDuring(t, visits, host)
    decreases |visits|
  {
    if visits == [] {
      assert SentTo(t.hostForUrl, [], host) == 0;
    } else {
      var (front, v) := (visits[..|visits| - 1], visits[|visits| - 1]);
      assert visits == front + [v];
      var before := ThrottleThen(t, front);
      var call := CallAt(before, v);
      RequestsAreGranted(t, front, host);
      SameThrottle(t, front, host);
      CallIsThrottled(before, v);
      if Resolvable(v) { ResolvableIsSent(before, v); }
      OneCallMore(t, front, v, host);
      OneMoreSent(t.hostForUrl, SentBy(t, front), call.sent, host);
      if call.sent != [] { assert call.sent[..0] == [] && call.sent[0] in call.sent; }
    }
  }

  // What a host receives is at most the capacity of its bucket plus the refill for the forward
  // movement of the server's clock between the attempts.
  predicate WithinBudget(t: Throttle, visits: seq<Visit>, host: string) {
    var (trace, i) := (TraceIn(ThrottleThen(t, visits).history, host), |TraceIn(t.history, host)|);
    i <= |trace| &&
    SentTo(t.hostForUrl, SentBy(t, visits), host) as real
    <= t.limits.capacity as real + Refill(t.limits, Forward(trace, i, |trace|))
  }

  lemma RequestsAreBounded(t: Throttle, visits: seq<Visit>, host: string)
    requires RefillsBeforeExpiry(t.limits, BUCKET_TTL)
    ensures WithinBudget(t, visits, host)
  {
    var (trace, i) := (TraceIn(ThrottleThen(t, visits).history, host), |TraceIn(t.history, host)|);
    SameThrottle(t, visits, host);
    RequestsAreGranted(t, visits, host);
    if i < |trace| {
      GrantsWithinBound(t.limits, BUCKET_TTL, trace, i, |trace|);
    } else {
      assert Forward(trace, i, |trace|) == 0.0;
    }
  }

  // ---------------------------------------------------------------- slow buckets

  function BurstTime(l: Limits, pause: real, k: nat): Time {
    if k < l.capacity then 0.0 else pause
  }

  // All tokens of a slow bucket, one by one, and all again just after its key has expired.
  function Burst(l: Limits, pause: real, n: nat): Trace {
    seq(n, k requires 0 <= k => Attempt(BurstTime(l, pause, k), 1))
  }

  function BurstVisits(l: Limits, pause: real, v: Visit, n: nat): seq<Visit> {
    seq(n, k requires 0 <= k => v.(world := v.world.(serverTime := BurstTime(l, pause, k))))
  }

  function BurstBucket(l: Limits, pause: real, k: nat): Option<Bucket> {
    if k == 0 then None
    else if k <= l.capacity then Some(Bucket((l.capacity - k) as real, 0.0))
    else Some(Bucket((2 * l.capacity - k) as real, pause))
  }

  lemma {:induction false} BurstIsGranted(l: Limits, ttl: Positive, pause: real, n: nat, k: nat)
    requires ttl < pause && k <= n <= 2 * l.capacity
    ensures RateLimiter.After(l, Some(ttl), Burst(l, pause, n), k) == BurstBucket(l, pause, k)
    ensures Granted(l, Some(ttl), Burst(l, pause, n), 0, k) == k as real
    ensures Forward(Burst(l, pause, n), 0, k) == if k > l.capacity then pause else 0.0
  {
    if k > 0 {
      BurstIsGranted(l, ttl, pause, n, k - 1);
      assert Refill(l, 0.0) == 0.0;
    }
  }

  lemma {:induction false} BurstIsAsked(t: Throttle, pause: real, v: Visit, host: string, n: nat)
    requires t.history == map[] && CallAt(t, v).host == Some(host)
    ensures TraceIn(ThrottleThen(t, BurstVisits(t.limits, pause, v, n)).history, host) == Burst(t.limits, pause, n)
  {
    var visits := BurstVisits(t.limits, pause, v, n);
    if n > 0 {
      BurstIsAsked(t, pause, v, host, n - 1);
      assert visits[..n - 1] == BurstVisits(t.limits, pause, v, n - 1);
      assert Burst(t.limits, pause, n) ==
             Burst(t.limits, pause, n - 1) + [Attempt(BurstTime(t.limits, pause, n - 1), 1)];
      SameThrottle(t, visits[..n - 1], host);
    }
  }

  lemma BurstOverspends(t: Throttle, pause: real, v: Visit, host: string)
    requires t.history == map[] && CallAt(t, v).host == Some(host) && Resolvable(v)
    requires BUCKET_TTL.value < pause && Refill(t.limits, pause) < t.limits.capacity as real
    ensures !WithinBudget(t, BurstVisits(t.limits, pause, v, 2 * t.limits.capacity), host)
  {
    var n := 2 * t.limits.capacity;
    var visits := BurstVisits(t.limits, pause, v, n);
    LongerRefillsMore(t.limits, 0.0, pause);
    BurstIsAsked(t, pause, v, host, n);
    BurstIsGranted(t.limits, BUCKET_TTL.value, pause, n, n);
    forall u | u in visits ensures Resolvable(u) { }
    RequestsAreGranted(t, visits, host);
  }

  ghost predicate AlwaysWithinBudget(l: Limits, hostForUrl: string -> Option<string>, host: string) {
    forall t: Throttle, visits: seq<Visit> | t.limits == l && t.hostForUrl == hostForUrl ::
      WithinBudget(t, visits, host)
  }

  // With any clocks, every host that can be reached at all stays within its budget if and only if
  // a bucket refills before its key expires.
  lemma RequestsAreBoundedIff(l: Limits, hostForUrl: string -> Option<string>, v: Visit, host: string)
    requires CallAt(Throttle(l, map[], hostForUrl), v).host == Some(host) && Resolvable(v)
    ensures AlwaysWithinBudget(l, hostForUrl, host) <==> RefillsBeforeExpiry(l, BUCKET_TTL)
  {
    if RefillsBeforeExpiry(l, BUCKET_TTL) {
      forall t: Throttle, visits: seq<Visit> | t.limits == l && t.hostForUrl == hostForUrl
        ensures WithinBudget(t, visits, host)
      {
        RequestsAreBounded(t, visits, host);
      }
    } else {
      var t := Throttle(l, map[], hostForUrl);
      var pause := PauseTooShortToRefill(l, BUCKET_TTL.value);
      BurstOverspends(t, pause, v, host);
    }
  }
}
