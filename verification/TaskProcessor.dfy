// One execution attempt: load, limit, execute, judge, conclude.
module TaskProcessor {
  import opened Wrappers
  import opened Records
  import opened RetryQueue
  import opened RunContext
  import opened Templates
  import opened VariableExtractor
  import opened RateLimiter

  // What executing, asserting and extracting produced.
  datatype Report = Report(
    response: ExecutionResult,
    assertionsPassed: Option<bool>,
    reasons: seq<string>,
    variables: Variables)

  function Join(texts: seq<string>): string {
    if texts == [] then ""
    else if |texts| == 1 then texts[0]
    else texts[0] + "; " + Join(texts[1..])
  }

  // The retry state machine, from a row as it was read before the execution.
  function Conclude(task: TaskId, row: TaskRow, worker: WorkerId, report: Report, now: Time): TaskOutcome {
    var attempt := row.retryCount + 1;
    var (status, retryCount, nextRetryAt) :=
      if report.reasons == [] then (Completed, row.retryCount, None)
      else if attempt <= row.maxRetries then
        (Retrying, attempt, Some(now + ComputeBackoffSeconds(row.retryCount) as real))
      else (Failed, attempt, None);
    TaskOutcome(task, row.runId, attempt, status, report.response, report.assertionsPassed,
                if report.reasons == [] then None else Some(Join(report.reasons)),
                worker, retryCount, nextRetryAt)
  }

  // ---------------------------------------------------------------- requests

  datatype ApiRequest = ApiRequest(
    httpMethod: string,
    url: string,
    headers: Mapping,
    queryParams: Mapping,
    body: Option<string>,
    timeoutMs: nat,
    rules: seq<Rule>)

  // What the HTTP client is given.
  datatype Prepared = Prepared(
    httpMethod: string,
    url: string,
    headers: Mapping,
    queryParams: Mapping,
    body: Option<string>,
    timeoutMs: nat)

  // The first template that cannot be resolved, in the order url, headers, parameters, body.
  function Prepare(r: ApiRequest, chainContext: Variables, environment: Variables): Result<Prepared,
                   UndefinedVariable> {
    match ResolveTemplate(r.url, chainContext, environment)
    case Err(e) => Err(e)
    case Ok(url) =>
    match ResolveMapping(r.headers, chainContext, environment)
    case Err(e) => Err(e)
    case Ok(headers) =>
    match ResolveMapping(r.queryParams, chainContext, environment)
    case Err(e) => Err(e)
    case Ok(queryParams) =>
    if r.body.None? || r.body.value == "" then
      Ok(Prepared(r.httpMethod, url, headers, queryParams, None, r.timeoutMs))
    else
      match ResolveTemplate(r.body.value, chainContext, environment)
      case Err(e) => Err(e)
      case Ok(body) => Ok(Prepared(r.httpMethod, url, headers, queryParams, Some(body), r.timeoutMs))
  }

  datatype AssertionOutcome = AssertionOutcome(passed: bool, detail: string)

  // What the outside world answers: the HTTP client (None is an exception that is no HTTPError),
  // the assertion engine, the libraries, the clocks of this worker and of the Redis server.
  datatype World = World(
    send: Prepared -> Option<ExecutionResult>,
    assertions: ExecutionResult -> seq<AssertionOutcome>,
    libraries: Libraries,
    now: Time,
    serverTime: Time)

  function ResponseTo(r: ApiRequest, chainContext: Variables, environment: Variables, world: World)
    : Option<ExecutionResult>
  {
    match Prepare(r, chainContext, environment)
    case Err(e) => Some(ExecutionResult(None, 0, None, None, Some("Undefined variable: " + e.name)))
    case Ok(prepared) => world.send(prepared)
  }

  // The requests that executing sends: none if a template cannot be resolved, otherwise one.
  function Sends(r: ApiRequest, chainContext: Variables, environment: Variables): seq<Prepared> {
    match Prepare(r, chainContext, environment)
    case Err(_) => []
    case Ok(prepared) => [prepared]
  }

  // Whoever sends the requests; `sent` is what has left the worker so far.
  class Executor {
    ghost var sent: seq<Prepared>

    constructor ()
      ensures sent == []
    {
      sent := [];
    }

    method Execute(r: ApiRequest, chainContext: Variables, environment: Variables, world: World)
      returns (response: Option<ExecutionResult>)
      modifies this
      ensures response == ResponseTo(r, chainContext, environment, world)
      ensures sent == old(sent) + Sends(r, chainContext, environment)
    {
      match Prepare(r, chainContext, environment) {
        case Err(e) =>
          response := Some(ExecutionResult(None, 0, None, None, Some("Undefined variable: " + e.name)));
        case Ok(prepared) =>
          response := world.send(prepared);
          sent := sent + [prepared];
      }
    }
  }

  // ---------------------------------------------------------------- throttling

  // A rate limiter as a value: its limits, what it has been asked for each host, and how it reads
  // the host off a URL.
  datatype Throttle = Throttle(limits: Limits, history: History, hostForUrl: string -> Option<string>)

  // One call of process_task, as the limiter and the network see it.
  datatype Call = Call(host: Option<string>, at: Time, sent: seq<Prepared>)

  // The host whose bucket the request has to draw from, if there is one.
  function TargetHost(t: Option<Throttle>, r: ApiRequest, chainContext: Variables, environment: Variables)
    : Option<string>
  {
    match t
    case None => None
    case Some(throttle) =>
      match ResolveTemplate(r.url, chainContext, environment)
      case Err(_) => None
      case Ok(url) => throttle.hostForUrl(url)
  }

  // The attempts for a host, with one more for one token.
  function Asked(history: History, host: string, at: Time): Trace {
    TraceIn(history, host) + [Attempt(at, 1)]
  }

  predicate Grants(t: Throttle, host: string, at: Time) {
    Allowed(t.limits, BUCKET_TTL, Asked(t.history, host, at), |TraceIn(t.history, host)|)
  }

  predicate Denied(t: Option<Throttle>, host: Option<string>, at: Time) {
    t.Some? && host.Some? && !Grants(t.value, host.value, at)
  }

  function ThrottleAfter(t: Option<Throttle>, host: Option<string>, at: Time): Option<Throttle> {
    if t.None? || host.None? then t
    else Some(t.value.(history := t.value.history[host.value := Asked(t.value.history, host.value, at)]))
  }

  // ---------------------------------------------------------------- judging

  function Failures(outcomes: seq<AssertionOutcome>): seq<string> {
    if outcomes == [] then []
    else (if outcomes[0].passed then [] else [outcomes[0].detail]) + Failures(outcomes[1..])
  }

  predicate AllPassed(outcomes: seq<AssertionOutcome>) {
    forall o | o in outcomes :: o.passed
  }

  const NO_DETAIL := "Request failed with no error detail."

  // Why an attempt fails: a missing response, or else failed assertions, a failed extraction, or both.
  function ReasonsFor(response: ExecutionResult, outcomes: seq<AssertionOutcome>,
                      extraction: Result<Variables, ExtractionError>): seq<string>
  {
    match response.errorMessage
    case Some(text) => [if text == "" then NO_DETAIL else text]
    case None =>
      (if AllPassed(outcomes) then []
       else [Decimal(|Failures(outcomes)|) + " assertion(s) failed: " + Join(Failures(outcomes))]) +
      match extraction
      case Ok(_) => []
      case Err(e) => ["Variable extraction failed: " + Message(e)]
  }

  // The report on a response. Without one, nothing is asserted or extracted.
  ghost predicate Judges(report: Report, job: Job, world: World) {
    exists extraction :: JudgesWith(report, job, world, extraction)
  }

  ghost predicate JudgesWith(report: Report, job: Job, world: World, extraction: Result<Variables, ExtractionError>) {
    var outcomes := world.assertions(report.response);
    && report.reasons == ReasonsFor(report.response, outcomes, extraction)
    && (if report.response.errorMessage.Some? then report.assertionsPassed == None && report.variables == map[]
        else
          && report.assertionsPassed == Some(AllPassed(outcomes))
          && Extracts(job, match extraction { case Ok(variables) => Ok(variables) case Err(e) => Err(Caught(e)) })
          && report.variables == if extraction.Ok? then extraction.value else map[])
  }

  // An attempt succeeds if and only if there was a response, every assertion passed and every
  // variable was extracted, and then it contributes exactly those variables.
  lemma {:induction false} SucceedsIff(report: Report, job: Job, world: World)
    requires Judges(report, job, world)
    ensures report.reasons == [] <==>
            report.response.errorMessage.None? && AllPassed(world.assertions(report.response)) &&
            Extracts(job, Ok(report.variables))
  {
    var extraction :| JudgesWith(report, job, world, extraction);
    if extraction.Err? && report.response.errorMessage.None? && Extracts(job, Ok(report.variables)) {
      ExtractionIsUnique(job, Ok(report.variables), Err(Caught(extraction.error)));
    }
  }

  // ---------------------------------------------------------------- the processor

  // How one call of process_task ends: with TaskProcessingError, with RateLimitedError, with an
  // outcome, or with an exception that nobody expects.
  datatype Processed =
    | Missing
    | Deferred(retryAt: Time)
    | Concluded(report: Report, outcome: TaskOutcome)
    | Unexpected

  const RATE_LIMITED_DELAY: Time := 1.0

  type Requests = map<nat, ApiRequest>

  predicate Complete(db: Tables, requests: Requests, task: TaskId) {
    task in db.tasks && db.tasks[task].requestId in requests && db.tasks[task].runId in db.runs
  }

  // The values of a task's own data row hide what is shared.
  function ChainContext(hashes: Hashes, row: TaskRow): Variables {
    GetAll(hashes, row.runId, row.dataRow) + row.dataContext
  }

  function ScoresAfter(scores: Scores, task: TaskId, r: Processed): Scores {
    match r
    case Deferred(retryAt) => scores[task := retryAt]
    case Concluded(_, o) => if o.nextRetryAt.Some? then scores[task := o.nextRetryAt.value] else scores
    case _ => scores
  }

  function HashesAfter(hashes: Hashes, r: Processed, row: TaskRow): Hashes {
    match r
    case Concluded(report, o) =>
      if o.newStatus == Completed then Merge(hashes, row.runId, row.dataRow, report.variables) else hashes
    case _ => hashes
  }

  // The stores that process_task changes, and the requests that have been sent.
  datatype Stores = Stores(scores: Scores, hashes: Hashes, throttle: Option<Throttle>, sent: seq<Prepared>)

  // Whom process_task asks for a token, and what it sends: nothing if the token is denied.
  function CallOf(db: Tables, requests: Requests, stores: Stores, task: TaskId, world: World): Call {
    if !Complete(db, requests, task) then Call(None, world.serverTime, [])
    else
      var row := db.tasks[task];
      var (request, environment) := (requests[row.requestId], db.runs[row.runId].environment);
      var context := ChainContext(stores.hashes, row);
      var host := TargetHost(stores.throttle, request, context, environment);
      Call(host, world.serverTime,
           if Denied(stores.throttle, host, world.serverTime) then [] else Sends(request, context, environment))
  }

  function StoresAfter(db: Tables, requests: Requests, stores: Stores, task: TaskId, world: World, r: Processed)
    : Stores
  {
    var call := CallOf(db, requests, stores, task, world);
    Stores(ScoresAfter(stores.scores, task, r),
           if task in db.tasks then HashesAfter(stores.hashes, r, db.tasks[task]) else stores.hashes,
           ThrottleAfter(stores.throttle, call.host, call.at),
           stores.sent + call.sent)
  }

  // What process_task promises. It is deferred exactly when there is a limiter, the URL resolves
  // to one with a host, and that host's bucket has no token left.
  ghost predicate Processes(r: Processed, db: Tables, requests: Requests, stores: Stores, task: TaskId,
                            worker: WorkerId, world: World)
  {
    if !Complete(db, requests, task) then r.Missing?
    else
      var row := db.tasks[task];
      var (request, environment) := (requests[row.requestId], db.runs[row.runId].environment);
      var context := ChainContext(stores.hashes, row);
      var host := TargetHost(stores.throttle, request, context, environment);
      var response := ResponseTo(request, context, environment, world);
      (r.Deferred? <==> Denied(stores.throttle, host, world.serverTime)) &&
      match r
      case Missing => false
      case Deferred(retryAt) => retryAt == world.now + RATE_LIMITED_DELAY
      case Concluded(report, o) =>
        && Some(report.response) == response
        && Judges(report, JobOf(request, context, report.response, world), world)
        && o == Conclude(task, row, worker, report, world.now)
      case Unexpected => response.None? || Escapes(request, context, response.value, world)
  }

  // The extraction from a response.
  function JobOf(request: ApiRequest, context: Variables, response: ExecutionResult, world: World): Job {
    Job(world.libraries, TryParseJson(world.libraries, response.body), context, request.rules)
  }

  // Extracting raises something that process_task does not catch.
  ghost predicate Escapes(request: ApiRequest, context: Variables, response: ExecutionResult, world: World) {
    response.errorMessage.None? && Extracts(JobOf(request, context, response, world), Err(Escaped))
  }

  // The exception that nobody expects is raised if and only if the attempt is made and there is no
  // result of its request, or extracting from its response raises one.
  lemma {:induction false} UnexpectedIff(r: Processed, db: Tables, requests: Requests, stores: Stores, task: TaskId,
                                         worker: WorkerId, world: World)
    requires Processes(r, db, requests, stores, task, worker, world) && Complete(db, requests, task)
    ensures var row := db.tasks[task];
            var (request, environment) := (requests[row.requestId], db.runs[row.runId].environment);
            var context := ChainContext(stores.hashes, row);
            var response := ResponseTo(request, context, environment, world);
            r.Unexpected? <==>
              && !Denied(stores.throttle, TargetHost(stores.throttle, request, context, environment), world.serverTime)
              && (response.None? || Escapes(request, context, response.value, world))
  {
    if r.Concluded? {
      var row := db.tasks[task];
      JudgedDoesNotEscape(r.report, requests[row.requestId], ChainContext(stores.hashes, row), world);
    }
  }

  lemma {:induction false} JudgedDoesNotEscape(report: Report, request: ApiRequest, context: Variables, world: World)
    requires Judges(report, JobOf(request, context, report.response, world), world)
    ensures !Escapes(request, context, report.response, world)
  {
    var job := JobOf(request, context, report.response, world);
    var extraction :| JudgesWith(report, job, world, extraction);
    if Escapes(request, context, report.response, world) {
      ExtractionIsUnique(job, Err(Escaped), match extraction { case Ok(variables) => Ok(variables)
                                                               case Err(e) => Err(Caught(e)) });
    }
  }

  class Processor {
    const retryQueue: RetryZset
    const contexts: ContextStore
    const executor: Executor
    const limiter: Limiter?

    constructor (retryQueue: RetryZset, contexts: ContextStore, executor: Executor, limiter: Limiter?)
      ensures this.retryQueue == retryQueue && this.contexts == contexts
      ensures this.executor == executor && this.limiter == limiter
    {
      this.retryQueue, this.contexts, this.executor, this.limiter := retryQueue, contexts, executor, limiter;
    }

    ghost predicate Valid()
      reads this, limiter
    {
      limiter == null || limiter.Valid()
    }

    ghost function View(): Stores
      reads retryQueue, contexts, executor, limiter
    {
      Stores(retryQueue.scores, contexts.hashes,
             if limiter == null then None else Some(Throttle(limiter.limits, limiter.history, limiter.hostForUrl)),
             executor.sent)
    }

    // An attempt whose target host has no token left is rescheduled. At most one token is taken,
    // and none if there is no limiter or no host to limit.
    method CheckRateLimit(task: TaskId, request: ApiRequest, context: Variables, environment: Variables, world: World)
      returns (retryAt: Option<Time>)
      requires Valid()
      modifies retryQueue, limiter
      ensures Valid()
      ensures var t := old(View().throttle);
              var host := TargetHost(t, request, context, environment);
              && View().throttle == ThrottleAfter(t, host, world.serverTime)
              && retryAt == (if Denied(t, host, world.serverTime) then Some(world.now + RATE_LIMITED_DELAY) else None)
              && retryQueue.scores == if retryAt.Some? then old(retryQueue.scores)[task := retryAt.value]
                                      else old(retryQueue.scores)
    {
      retryAt := None;
      if limiter != null {
        var resolvedUrl := ResolveTemplate(request.url, context, environment);
        if resolvedUrl.Ok? {
          var host := limiter.hostForUrl(resolvedUrl.value);
          if host.Some? {
            var allowed := limiter.TryAcquire(host.value, world.serverTime, 1);
            if !allowed {
              var nextAttempt := world.now + RATE_LIMITED_DELAY;
              retryQueue.ScheduleRetry(task, nextAttempt);
              retryAt := Some(nextAttempt);
            }
          }
        }
      }
    }

    method Judge(request: ApiRequest, context: Variables, response: ExecutionResult, world: World)
      returns (report: Option<Report>)
      ensures match report
              case Some(judged) =>
                judged.response == response && Judges(judged, JobOf(request, context, response, world), world)
              case None => Escapes(request, context, response, world)
    {
      ghost var job := JobOf(request, context, response, world);
      var assertionsPassed := None;
      var extracted: Variables := map[];
      var reasons: seq<string> := [];
      ghost var extraction: Result<Variables, ExtractionError> := Ok(map[]);
      match response.errorMessage {
        case Some(text) =>
          reasons := reasons + [if text == "" then NO_DETAIL else text];
        case None =>
          var outcomes := world.assertions(response);
          assertionsPassed := Some(AllPassed(outcomes));
          if !AllPassed(outcomes) {
            var details := Failures(outcomes);
            reasons := reasons + [Decimal(|details|) + " assertion(s) failed: " + Join(details)];
          }
          var r := ExtractVariables(world.libraries, request.rules, response.body, context);
          match r {
            case Ok(variables) =>
              extracted, extraction := variables, Ok(variables);
            case Err(Caught(e)) =>
              reasons, extraction := reasons + ["Variable extraction failed: " + Message(e)], Err(e);
            case Err(Escaped) =>
              return None;
          }
      }
      report := Some(Report(response, assertionsPassed, reasons, extracted));
      assert JudgesWith(report.value, job, world, extraction);
    }

    // The retry state machine with its effects: merging the variables of a success at once, and
    // scheduling the retry of a failure.
    method Settle(task: TaskId, row: TaskRow, worker: WorkerId, report: Report, now: Time)
      returns (outcome: TaskOutcome)
      modifies retryQueue, contexts
      ensures outcome == Conclude(task, row, worker, report, now)
      ensures retryQueue.scores == ScoresAfter(old(retryQueue.scores), task, Concluded(report, outcome))
      ensures contexts.hashes == HashesAfter(old(contexts.hashes), Concluded(report, outcome), row)
    {
      var succeeded := report.reasons == [];
      var attemptNumber := row.retryCount + 1;
      var newStatus, newRetryCount, nextRetryAt := Completed, row.retryCount, None;
      if succeeded {
        contexts.MergeInto(row.runId, report.variables, row.dataRow);
      } else {
        newRetryCount := attemptNumber;
        if newRetryCount <= row.maxRetries {
          newStatus := Retrying;
          var nextAttempt := now + ComputeBackoffSeconds(row.retryCount) as real;
          retryQueue.ScheduleRetry(task, nextAttempt);
          nextRetryAt := Some(nextAttempt);
        } else {
          newStatus := Failed;
        }
      }
      outcome := TaskOutcome(task, row.runId, attemptNumber, newStatus, report.response, report.assertionsPassed,
                             if succeeded then None else Some(Join(report.reasons)),
                             worker, newRetryCount, nextRetryAt);
    }

    method ProcessTask(db: Tables, requests: Requests, task: TaskId, worker: WorkerId, world: World)
      returns (r: Processed)
      requires Valid()
      modifies retryQueue, contexts, executor, limiter
      ensures Valid()
      ensures Processes(r, db, requests, old(View()), task, worker, world)
      ensures View() == StoresAfter(db, requests, old(View()), task, world, r)
    {
      if task !in db.tasks {
        return Missing;
      }
      var row := db.tasks[task];
      if row.requestId !in requests {
        return Missing;
      }
      var request := requests[row.requestId];
      if row.runId !in db.runs {
        return Missing;
      }
      var environment := db.runs[row.runId].environment;
      var context := GetAll(contexts.hashes, row.runId, row.dataRow);
      context := context + row.dataContext;

      var retryAt := CheckRateLimit(task, request, context, environment, world);
      if retryAt.Some? {
        return Deferred(retryAt.value);
      }

      var response := executor.Execute(request, context, environment, world);
      if response.None? {
        return Unexpected;
      }
      var judged := Judge(request, context, response.value, world);
      if judged.None? {
        return Unexpected;
      }
      var report := judged.value;

      var outcome := Settle(task, row, worker, report, world.now);
      r := Concluded(report, outcome);
    }
  }
}
