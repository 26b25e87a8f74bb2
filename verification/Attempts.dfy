// What one attempt sees, sends, judges and concludes.
module Attempts {
  import opened Wrappers
  import opened Records
  import opened RetryQueue
  import opened RunContext
  import opened Templates
  import opened VariableExtractor
  import opened RateLimiter
  import opened TaskProcessor

  // ---------------------------------------------------------------- what an attempt sees

  predicate Saves(e: MergeEvent, row: TaskRow, name: string) {
    e.run == row.runId && e.row == row.dataRow && name in e.variables
  }

  predicate SavesNow(merges: seq<MergeEvent>, row: TaskRow, name: string, k: nat, value: string) {
    k < |merges| && Saves(merges[k], row, name) && value == merges[k].variables[name]
  }

  predicate NotSavedSince(merges: seq<MergeEvent>, row: TaskRow, name: string, k: nat) {
    forall i | k <= i < |merges| :: !Saves(merges[i], row, name)
  }

  // The last merge for this row of this run that has the name gives it this value.
  ghost predicate MergedLast(merges: seq<MergeEvent>, row: TaskRow, name: string, value: string) {
    exists k: nat :: SavesNow(merges, row, name, k, value) && NotSavedSince(merges, row, name, k + 1)
  }

  // What a rule for extraction can find: the task's own data, or else what earlier steps have saved.
  ghost predicate Chained(row: TaskRow, merges: seq<MergeEvent>, name: string, value: string) {
    Holds(row.dataContext, name, value) || (name !in row.dataContext && MergedLast(merges, row, name, value))
  }

  // What a template can name: those, or else a variable of the environment.
  ghost predicate Sees(row: TaskRow, merges: seq<MergeEvent>, environment: Variables, name: string, value: string) {
    || Chained(row, merges, name, value)
    || (name !in row.dataContext && NotSavedSince(merges, row, name, 0) && Holds(environment, name, value))
  }

  lemma OneMergeMore(front: seq<MergeEvent>, last: MergeEvent, row: TaskRow, name: string, value: string)
    ensures var merges := front + [last];
            && (MergedLast(merges, row, name, value) <==>
                if Saves(last, row, name) then value == last.variables[name] else MergedLast(front, row, name, value))
            && (NotSavedSince(merges, row, name, 0) <==>
                !Saves(last, row, name) && NotSavedSince(front, row, name, 0))
  {
    var (merges, n) := (front + [last], |front|);
    assert merges[n] == last && forall i | 0 <= i < n :: merges[i] == front[i];
    if Saves(last, row, name) {
      assert value == last.variables[name] ==> SavesNow(merges, row, name, n, value);
      assert NotSavedSince(merges, row, name, n + 1);
    } else {
      forall k: nat | k < n
        ensures NotSavedSince(merges, row, name, k + 1) <==> NotSavedSince(front, row, name, k + 1)
        ensures SavesNow(merges, row, name, k, value) <==> SavesNow(front, row, name, k, value)
      {
      }
    }
  }

  lemma {:induction false} OverlayHoldsIff(merges: seq<MergeEvent>, row: TaskRow, name: string, value: string)
    ensures Holds(Overlay(merges, row.runId, row.dataRow), name, value) <==> MergedLast(merges, row, name, value)
    ensures name !in Overlay(merges, row.runId, row.dataRow) <==> NotSavedSince(merges, row, name, 0)
    decreases |merges|
  {
    if merges != [] {
      var (front, last) := (merges[..|merges| - 1], merges[|merges| - 1]);
      OverlayHoldsIff(front, row, name, value);
      assert merges == front + [last];
      OneMergeMore(front, last, row, name, value);
    }
  }

  lemma ChainIsSeen(row: TaskRow, merges: seq<MergeEvent>)
    ensures forall name, value ::
              Holds(Overlay(merges, row.runId, row.dataRow) + row.dataContext, name, value) <==>
              Chained(row, merges, name, value)
  {
    forall name, value
      ensures Holds(Overlay(merges, row.runId, row.dataRow) + row.dataContext, name, value) <==>
              Chained(row, merges, name, value)
    {
      OverlayHoldsIff(merges, row, name, value);
    }
  }

  // All that extraction can find, as one map.
  function Chain(row: TaskRow, merges: seq<MergeEvent>): (chain: Variables)
    ensures forall name, value :: Holds(chain, name, value) <==> Chained(row, merges, name, value)
  {
    ChainIsSeen(row, merges);
    Overlay(merges, row.runId, row.dataRow) + row.dataContext
  }

  lemma AllIsSeen(row: TaskRow, merges: seq<MergeEvent>, environment: Variables)
    ensures forall name, value ::
              Holds(environment + Chain(row, merges), name, value) <==> Sees(row, merges, environment, name, value)
  {
    forall name, value
      ensures Holds(environment + Chain(row, merges), name, value) <==> Sees(row, merges, environment, name, value)
    {
      OverlayHoldsIff(merges, row, name, value);
      assert Holds(Chain(row, merges), name, value) <==> Chained(row, merges, name, value);
    }
  }

  // All that a template can name, as one map: the task's own data row hides what earlier steps of
  // that row have saved, and the last of those hides the others and the environment.
  function Visible(row: TaskRow, merges: seq<MergeEvent>, environment: Variables): (visible: Variables)
    ensures forall name, value :: Holds(visible, name, value) <==> Sees(row, merges, environment, name, value)
  {
    AllIsSeen(row, merges, environment);
    environment + Chain(row, merges)
  }

  lemma ContextIsChain(hashes: Hashes, merges: seq<MergeEvent>, row: TaskRow)
    requires Isolated(hashes, merges)
    ensures ChainContext(hashes, row) == Chain(row, merges)
  {
    assert GetAll(hashes, row.runId, row.dataRow) == Overlay(merges, row.runId, row.dataRow);
  }

  // ---------------------------------------------------------------- rendering

  ghost predicate Gets(template: string, seen: Variables, r: Resolution) {
    exists tokens :: Tokenizes(template, tokens) && ResolvesTo(tokens, seen, r)
  }

  // Every placeholder of the template, and nothing else, is replaced by what is seen under its name.
  ghost predicate Renders(template: string, seen: Variables, text: string) {
    Gets(template, seen, Ok(text))
  }

  // Everything that the template names can be seen.
  ghost predicate Bound(template: string, seen: Variables) {
    exists tokens :: Tokenizes(template, tokens) && forall name | name in Names(tokens) :: name in seen
  }

  ghost predicate RendersEach(mapping: Mapping, seen: Variables, rendered: Mapping) {
    && |rendered| == |mapping|
    && forall i :: 0 <= i < |mapping| ==>
         rendered[i].0 == mapping[i].0 && Renders(mapping[i].1, seen, rendered[i].1)
  }

  predicate HasBody(request: ApiRequest) {
    request.body.Some? && request.body.value != ""
  }

  ghost predicate IsRendering(request: ApiRequest, seen: Variables, p: Prepared) {
    && p.httpMethod == request.httpMethod && p.timeoutMs == request.timeoutMs
    && Renders(request.url, seen, p.url)
    && RendersEach(request.headers, seen, p.headers)
    && RendersEach(request.queryParams, seen, p.queryParams)
    && (p.body.Some? <==> HasBody(request))
    && (p.body.Some? ==> Renders(request.body.value, seen, p.body.value))
  }

  function Values(mapping: Mapping): (values: seq<string>)
    ensures |values| == |mapping| && forall i :: 0 <= i < |mapping| ==> values[i] == mapping[i].1
  {
    seq(|mapping|, i requires 0 <= i < |mapping| => mapping[i].1)
  }

  // In the order in which they are resolved.
  function TemplatesOf(request: ApiRequest): seq<string> {
    [request.url] + Values(request.headers) + Values(request.queryParams) +
    if HasBody(request) then [request.body.value] else []
  }

  ghost predicate AllBound(templates: seq<string>, seen: Variables) {
    forall t | t in templates :: Bound(t, seen)
  }

  // The leftmost unseen name of the first template that has one.
  ghost predicate FirstUnseen(templates: seq<string>, seen: Variables, name: string) {
    exists k: nat :: UnseenAt(templates, seen, name, k)
  }

  ghost predicate UnseenAt(templates: seq<string>, seen: Variables, name: string, k: nat) {
    && k < |templates| && Gets(templates[k], seen, Err(UndefinedVariable(name)))
    && forall i | 0 <= i < k :: Bound(templates[i], seen)
  }

  lemma OneResolution(tokens: Tokens, seen: Variables, r: Resolution, r': Resolution)
    requires ResolvesTo(tokens, seen, r) && ResolvesTo(tokens, seen, r')
    ensures r == r'
  {
    var names := Names(tokens);
    if r.Err? && r'.Err? {
      var k :| 0 <= k < |names| && names[k] == r.error.name && names[k] !in seen &&
               forall i | 0 <= i < k :: names[i] in seen;
      var k' :| 0 <= k' < |names| && names[k'] == r'.error.name && names[k'] !in seen &&
                forall i | 0 <= i < k' :: names[i] in seen;
      assert k == k';
    }
  }

  lemma GetsIff(template: string, chainContext: Variables, environment: Variables, r: Resolution)
    ensures Gets(template, environment + chainContext, r) <==>
            ResolveTemplate(template, chainContext, environment) == r
  {
    var (seen, resolved) := (environment + chainContext, ResolveTemplate(template, chainContext, environment));
    var tokens := Tokenize(template);
    TokenizesIff(template, tokens);
    ResolvingFillsTokens(template, tokens, chainContext, environment);
    if Gets(template, seen, r) {
      var tokens' :| Tokenizes(template, tokens') && ResolvesTo(tokens', seen, r);
      TokenizesIff(template, tokens');
      OneResolution(tokens, seen, r, resolved);
    }
  }

  lemma BoundIff(template: string, chainContext: Variables, environment: Variables)
    ensures Bound(template, environment + chainContext) <==> ResolveTemplate(template, chainContext, environment).Ok?
  {
    var tokens := Tokenize(template);
    TokenizesIff(template, tokens);
    ResolvingFillsTokens(template, tokens, chainContext, environment);
    var seen := environment + chainContext;
    if Bound(template, seen) {
      var tokens' :| Tokenizes(template, tokens') && forall name | name in Names(tokens') :: name in seen;
      TokenizesIff(template, tokens');
    }
  }

  lemma UnseenIsNotBound(templates: seq<string>, seen: Variables, name: string)
    requires FirstUnseen(templates, seen, name)
    ensures !AllBound(templates, seen)
  {
    var k: nat :| UnseenAt(templates, seen, name, k);
    var t := templates[k];
    var r := Err(UndefinedVariable(name));
    var tokens :| Tokenizes(t, tokens) && ResolvesTo(tokens, seen, r);
    if Bound(t, seen) {
      var tokens' :| Tokenizes(t, tokens') && forall name | name in Names(tokens') :: name in seen;
      TokenizesIff(t, tokens);
      TokenizesIff(t, tokens');
    }
  }

  lemma UnseenLater(xs: seq<string>, ys: seq<string>, zs: seq<string>, seen: Variables, name: string)
    requires AllBound(xs, seen) && FirstUnseen(ys, seen, name)
    ensures FirstUnseen(xs + ys + zs, seen, name)
  {
    var k: nat :| UnseenAt(ys, seen, name, k);
    assert UnseenAt(xs + ys + zs, seen, name, |xs| + k);
  }

  lemma MappingIsRendered(mapping: Mapping, chainContext: Variables, environment: Variables)
    ensures var seen := environment + chainContext;
            match ResolveMapping(mapping, chainContext, environment)
            case Ok(rendered) => RendersEach(mapping, seen, rendered) && AllBound(Values(mapping), seen)
            case Err(e) => FirstUnseen(Values(mapping), seen, e.name)
  {
    var seen := environment + chainContext;
    MappingResolvesEachValue(mapping, chainContext, environment);
    match ResolveMapping(mapping, chainContext, environment)
    case Ok(rendered) =>
      forall i | 0 <= i < |mapping| ensures Renders(mapping[i].1, seen, rendered[i].1) && Bound(mapping[i].1, seen) {
        GetsIff(mapping[i].1, chainContext, environment, Ok(rendered[i].1));
        BoundIff(mapping[i].1, chainContext, environment);
      }
    case Err(e) =>
      var i :| 0 <= i < |mapping| && ResolveTemplate(mapping[i].1, chainContext, environment) == Err(e) &&
               forall j | 0 <= j < i :: ResolveTemplate(mapping[j].1, chainContext, environment).Ok?;
      GetsIff(mapping[i].1, chainContext, environment, Err(e));
      forall j | 0 <= j < i ensures Bound(mapping[j].1, seen) {
        BoundIff(mapping[j].1, chainContext, environment);
      }
      assert UnseenAt(Values(mapping), seen, e.name, i);
  }

  lemma PreparedIsRendered(request: ApiRequest, chainContext: Variables, environment: Variables, p: Prepared)
    requires Prepare(request, chainContext, environment) == Ok(p)
    ensures IsRendering(request, environment + chainContext, p)
    ensures AllBound(TemplatesOf(request), environment + chainContext)
  {
    GetsIff(request.url, chainContext, environment, Ok(p.url));
    BoundIff(request.url, chainContext, environment);
    MappingIsRendered(request.headers, chainContext, environment);
    MappingIsRendered(request.queryParams, chainContext, environment);
    if HasBody(request) {
      GetsIff(request.body.value, chainContext, environment, Ok(p.body.value));
      BoundIff(request.body.value, chainContext, environment);
    }
  }

  lemma UnpreparedIsUnseen(request: ApiRequest, chainContext: Variables, environment: Variables,
                           e: UndefinedVariable)
    requires Prepare(request, chainContext, environment) == Err(e)
    ensures FirstUnseen(TemplatesOf(request), environment + chainContext, e.name)
  {
    var seen := environment + chainContext;
    var (url, headers, params) := ([request.url], Values(request.headers), Values(request.queryParams));
    var body := if HasBody(request) then [request.body.value] else [];
    assert TemplatesOf(request) == url + headers + params + body;
    BoundIff(request.url, chainContext, environment);
    MappingIsRendered(request.headers, chainContext, environment);
    MappingIsRendered(request.queryParams, chainContext, environment);
    if ResolveTemplate(request.url, chainContext, environment).Err? {
      GetsIff(request.url, chainContext, environment, Err(e));
      assert UnseenAt(TemplatesOf(request), seen, e.name, 0);
    } else if ResolveMapping(request.headers, chainContext, environment).Err? {
      UnseenLater(url, headers, params + body, seen, e.name);
      assert url + headers + (params + body) == TemplatesOf(request);
    } else if ResolveMapping(request.queryParams, chainContext, environment).Err? {
      UnseenLater(url + headers, params, body, seen, e.name);
    } else {
      GetsIff(request.body.value, chainContext, environment, Err(e));
      assert UnseenAt(body, seen, e.name, 0);
      UnseenLater(url + headers + params, body, [], seen, e.name);
      assert url + headers + params + body + [] == TemplatesOf(request);
    }
  }

  // ---------------------------------------------------------------- what an attempt sends

  // There is a limiter, and the bucket of the host of this URL has no token left.
  predicate Refuses(t: Option<Throttle>, url: string, at: Time) {
    t.Some? && t.value.hostForUrl(url).Some? && !Grants(t.value, t.value.hostForUrl(url).value, at)
  }

  lemma DeferredIffRefused(t: Option<Throttle>, request: ApiRequest, chainContext: Variables, environment: Variables,
                           at: Time)
    ensures Denied(t, TargetHost(t, request, chainContext, environment), at) <==>
            exists url :: Renders(request.url, environment + chainContext, url) && Refuses(t, url, at)
  {
    forall url
      ensures Renders(request.url, environment + chainContext, url) <==>
              ResolveTemplate(request.url, chainContext, environment) == Ok(url)
    {
      GetsIff(request.url, chainContext, environment, Ok(url));
    }
  }

  // Whoever makes an attempt and whatever was merged before it: it is deferred if and only if its
  // URL, rendered from what it sees, has a host without a token left. Otherwise it sends one
  // request, with everything rendered from what it sees; or none, if a name cannot be seen, and
  // then the first such name is its error.
  lemma {:induction false} AttemptSends(r: Processed, db: Tables, requests: Requests, stores: Stores,
                                        merges: seq<MergeEvent>, task: TaskId, worker: WorkerId, world: World)
    requires Processes(r, db, requests, stores, task, worker, world) && Complete(db, requests, task)
    requires Isolated(stores.hashes, merges)
    ensures var row := db.tasks[task];
            var (request, seen) := (requests[row.requestId], Visible(row, merges, db.runs[row.runId].environment));
            var sent := StoresAfter(db, requests, stores, task, world, r).sent;
            && (r.Deferred? <==>
                exists url :: Renders(request.url, seen, url) && Refuses(stores.throttle, url, world.serverTime))
            && (if r.Deferred? then sent == stores.sent
                else if AllBound(TemplatesOf(request), seen) then
                  exists p ::
                    && IsRendering(request, seen, p) && sent == stores.sent + [p]
                    && (r.Concluded? ==> world.send(p) == Some(r.report.response))
                else
                  && sent == stores.sent && r.Concluded?
                  && exists name ::
                       FirstUnseen(TemplatesOf(request), seen, name) && r.report.response ==
                       ExecutionResult(None, 0, None, None, Some("Undefined variable: " + name)))
  {
    var row := db.tasks[task];
    var (request, environment) := (requests[row.requestId], db.runs[row.runId].environment);
    var context := ChainContext(stores.hashes, row);
    ContextIsChain(stores.hashes, merges, row);
    var seen := Visible(row, merges, environment);
    assert seen == environment + context;
    DeferredIffRefused(stores.throttle, request, context, environment, world.serverTime);
    match Prepare(request, context, environment)
    case Ok(p) => PreparedIsRendered(request, context, environment, p);
    case Err(e) =>
      UnpreparedIsUnseen(request, context, environment, e);
      UnseenIsNotBound(TemplatesOf(request), seen, e.name);
  }

  // It asks for one token, of that host's bucket and of no other.
  lemma {:induction false} AttemptAsks(r: Processed, db: Tables, requests: Requests, stores: Stores,
                                       merges: seq<MergeEvent>, task: TaskId, world: World)
    requires Complete(db, requests, task) && Isolated(stores.hashes, merges) && stores.throttle.Some?
    ensures var row := db.tasks[task];
            var (request, seen) := (requests[row.requestId], Visible(row, merges, db.runs[row.runId].environment));
            var (t, after) := (stores.throttle.value, StoresAfter(db, requests, stores, task, world, r).throttle);
            && after.Some? && after.value.limits == t.limits && after.value.hostForUrl == t.hostForUrl
            && forall host ::
                 TraceIn(after.value.history, host) == TraceIn(t.history, host) +
                   if exists url :: Renders(request.url, seen, url) && t.hostForUrl(url) == Some(host)
                   then [Attempt(world.serverTime, 1)] else []
  {
    var row := db.tasks[task];
    var (request, environment) := (requests[row.requestId], db.runs[row.runId].environment);
    var context := ChainContext(stores.hashes, row);
    ContextIsChain(stores.hashes, merges, row);
    forall url
      ensures Renders(request.url, environment + context, url) <==>
              ResolveTemplate(request.url, context, environment) == Ok(url)
    {
      GetsIff(request.url, context, environment, Ok(url));
    }
  }

  // ---------------------------------------------------------------- what an attempt is judged by

  // The places of the failed assertions, in order.
  predicate AreFailed(places: seq<nat>, outcomes: seq<AssertionOutcome>) {
    && (forall i, j :: 0 <= i < j < |places| ==> places[i] < places[j])
    && (forall i :: 0 <= i < |places| ==> places[i] < |outcomes| && !outcomes[places[i]].passed)
    && forall k: nat :: k < |outcomes| && !outcomes[k].passed ==> k in places
  }

  function DetailsAt(places: seq<nat>, outcomes: seq<AssertionOutcome>): seq<string>
    requires forall i :: 0 <= i < |places| ==> places[i] < |outcomes|
  {
    seq(|places|, i requires 0 <= i < |places| => outcomes[places[i]].detail)
  }

  // Joining from the other end.
  function JoinedUp(texts: seq<string>): string {
    if texts == [] then ""
    else if |texts| == 1 then texts[0]
    else JoinedUp(texts[..|texts| - 1]) + "; " + texts[|texts| - 1]
  }

  lemma {:induction false} JoinIsJoinedUp(texts: seq<string>)
    ensures Join(texts) == JoinedUp(texts)
    decreases |texts|
  {
    if |texts| > 1 {
      var (rest, front, last) := (texts[1..], texts[..|texts| - 1], texts[|texts| - 1]);
      JoinIsJoinedUp(rest);
      JoinIsJoinedUp(front);
      if |texts| > 2 {
        assert front[1..] == rest[..|rest| - 1];
        JoinIsJoinedUp(front[1..]);
        var middle := JoinedUp(front[1..]);
        assert texts[0] + "; " + (middle + "; " + last) == texts[0] + "; " + middle + "; " + last;
      }
    }
  }

  lemma {:induction false} FailuresFromEnd(outcomes: seq<AssertionOutcome>)
    requires outcomes != []
    ensures var (front, last) := (outcomes[..|outcomes| - 1], outcomes[|outcomes| - 1]);
            Failures(outcomes) == Failures(front) + if last.passed then [] else [last.detail]
    decreases |outcomes|
  {
    if |outcomes| > 1 {
      var front := outcomes[..|outcomes| - 1];
      FailuresFromEnd(outcomes[1..]);
      assert outcomes[1..][..|outcomes| - 2] == front[1..];
    }
  }

  lemma OneMoreFailed(places: seq<nat>, outcomes: seq<AssertionOutcome>, last: AssertionOutcome)
    requires AreFailed(places, outcomes)
    ensures var places' := places + if last.passed then [] else [|outcomes|];
            && AreFailed(places', outcomes + [last])
            && DetailsAt(places', outcomes + [last]) ==
               DetailsAt(places, outcomes) + if last.passed then [] else [last.detail]
  {
    var places' := places + if last.passed then [] else [|outcomes|];
    var more := outcomes + [last];
    forall k: nat | k < |more| && !more[k].passed ensures k in places' {
      assert k < |outcomes| ==> more[k] == outcomes[k];
    }
  }

  lemma {:induction false} FailuresAreFailed(outcomes: seq<AssertionOutcome>) returns (places: seq<nat>)
    ensures AreFailed(places, outcomes) && Failures(outcomes) == DetailsAt(places, outcomes)
    decreases |outcomes|
  {
    places := [];
    if outcomes != [] {
      var (front, last) := (outcomes[..|outcomes| - 1], outcomes[|outcomes| - 1]);
      assert outcomes == front + [last];
      var failed := FailuresAreFailed(front);
      OneMoreFailed(failed, front, last);
      FailuresFromEnd(outcomes);
      places := failed + if last.passed then [] else [|front|];
    }
  }

  // What the failed assertions, and the extraction if it fails, are reported as.
  ghost predicate AreReasons(reasons: seq<string>, outcomes: seq<AssertionOutcome>,
                             extraction: Result<Variables, Raised>)
  {
    exists places ::
      AreFailed(places, outcomes) && reasons ==
      (if places == [] then []
       else [Decimal(|places|) + " assertion(s) failed: " + JoinedUp(DetailsAt(places, outcomes))]) +
      (if extraction.Err? && extraction.error.Caught?
       then ["Variable extraction failed: " + Message(extraction.error.error)] else [])
  }

  // What extracting from a response gives, given the rows and the merges before.
  ghost predicate ExtractionGives(request: ApiRequest, row: TaskRow, merges: seq<MergeEvent>, response: ExecutionResult,
                                  world: World, extraction: Result<Variables, Raised>)
  {
    IsOutcome(world.libraries, request.rules, response.body, Chain(row, merges), extraction)
  }

  lemma ExtractionIs(request: ApiRequest, hashes: Hashes, row: TaskRow, merges: seq<MergeEvent>,
                     response: ExecutionResult, world: World, extraction: Result<Variables, Raised>)
    requires Isolated(hashes, merges)
    ensures ExtractionGives(request, row, merges, response, world, extraction) <==>
            Extracts(JobOf(request, ChainContext(hashes, row), response, world), extraction)
  {
    ContextIsChain(hashes, merges, row);
    ExtractsIff(world.libraries, request.rules, response.body, Chain(row, merges), extraction);
  }

  lemma ReasonsAreReasons(response: ExecutionResult, outcomes: seq<AssertionOutcome>,
                          extraction: Result<Variables, ExtractionError>)
    requires response.errorMessage.None?
    ensures AreReasons(ReasonsFor(response, outcomes, extraction), outcomes,
                       match extraction { case Ok(variables) => Ok(variables) case Err(e) => Err(Caught(e)) })
  {
    var places := FailuresAreFailed(outcomes);
    JoinIsJoinedUp(Failures(outcomes));
    if AllPassed(outcomes) {
      assert places == [];
    } else {
      var o :| o in outcomes && !o.passed;
      var k: nat :| k < |outcomes| && outcomes[k] == o;
      assert k in places;
    }
  }

  // An attempt without a response has that as its only reason to fail, and nothing is asserted or
  // extracted. Otherwise the verdict is that every assertion passed, and the reasons are the
  // failed assertions, by number and details, and the failure of the extraction.
  ghost predicate IsJudged(report: Report, request: ApiRequest, row: TaskRow, merges: seq<MergeEvent>, world: World) {
    match report.response.errorMessage
    case Some(text) =>
      && report.reasons == [if text == "" then "Request failed with no error detail." else text]
      && report.assertionsPassed == None && report.variables == map[]
    case None =>
      && report.assertionsPassed == Some(forall o | o in world.assertions(report.response) :: o.passed)
      && exists extraction :: Explains(report, request, row, merges, world, extraction)
  }

  ghost predicate Explains(report: Report, request: ApiRequest, row: TaskRow, merges: seq<MergeEvent>, world: World,
                           extraction: Result<Variables, Raised>)
  {
    && ExtractionGives(request, row, merges, report.response, world, extraction) && extraction != Err(Escaped)
    && AreReasons(report.reasons, world.assertions(report.response), extraction)
    && report.variables == if extraction.Ok? then extraction.value else map[]
  }

  lemma JudgedIsJudged(report: Report, request: ApiRequest, hashes: Hashes, row: TaskRow, merges: seq<MergeEvent>,
                       world: World)
    requires Isolated(hashes, merges)
    requires Judges(report, JobOf(request, ChainContext(hashes, row), report.response, world), world)
    ensures IsJudged(report, request, row, merges, world)
  {
    var job := JobOf(request, ChainContext(hashes, row), report.response, world);
    var extraction :| JudgesWith(report, job, world, extraction);
    if report.response.errorMessage.None? {
      var raised: Result<Variables, Raised> := match extraction { case Ok(variables) => Ok(variables)
                                                                  case Err(e) => Err(Caught(e)) };
      ExtractionIs(request, hashes, row, merges, report.response, world, raised);
      ReasonsAreReasons(report.response, world.assertions(report.response), extraction);
      assert Explains(report, request, row, merges, world, raised);
    }
  }

  // Every attempt that comes to an outcome is judged so.
  lemma {:induction false} AttemptIsJudged(r: Processed, db: Tables, requests: Requests, stores: Stores,
                                           merges: seq<MergeEvent>, task: TaskId, worker: WorkerId, world: World)
    requires Processes(r, db, requests, stores, task, worker, world) && r.Concluded?
    requires Isolated(stores.hashes, merges)
    ensures Complete(db, requests, task)
    ensures IsJudged(r.report, requests[db.tasks[task].requestId], db.tasks[task], merges, world)
  {
    var row := db.tasks[task];
    JudgedIsJudged(r.report, requests[row.requestId], stores.hashes, row, merges, world);
  }

  // ---------------------------------------------------------------- what an attempt concludes

  // An attempt completes its task if and only if there was a response, every assertion passed and
  // every variable was extracted. Otherwise it is retried if and only if attempts are left, after
  // the delay for its number. The outcome carries the response, the verdict and the reasons.
  lemma {:induction false} AttemptConcludes(r: Processed, db: Tables, requests: Requests, stores: Stores,
                                            merges: seq<MergeEvent>, task: TaskId, worker: WorkerId, world: World)
    requires Processes(r, db, requests, stores, task, worker, world) && r.Concluded?
    requires Isolated(stores.hashes, merges)
    ensures Complete(db, requests, task)
    ensures var (row, report, o) := (db.tasks[task], r.report, r.outcome);
            && (o.newStatus == Completed <==>
                && report.response.errorMessage.None?
                && (forall a | a in world.assertions(report.response) :: a.passed)
                && ExtractionGives(requests[row.requestId], row, merges, report.response, world, Ok(report.variables)))
            && (o.newStatus == Retrying <==> o.newStatus != Completed && row.retryCount < row.maxRetries)
            && o.newStatus in {Completed, Retrying, Failed}
            && o.attempt == row.retryCount + 1
            && o.retryCount == (if o.newStatus == Completed then row.retryCount else o.attempt)
            && o.nextRetryAt == (if o.newStatus != Retrying then None
                                 else if o.attempt <= 5 then Some(world.now + Pow2(o.attempt) as real)
                                 else Some(world.now + 60.0))
            && o.errorMessage == (if o.newStatus == Completed then None else Some(JoinedUp(report.reasons)))
            && (o.response, o.assertionsPassed) == (report.response, report.assertionsPassed)
            && (o.taskId, o.runId, o.workerId) == (task, row.runId, worker)
  {
    var row := db.tasks[task];
    var (request, report) := (requests[row.requestId], r.report);
    var job := JobOf(request, ChainContext(stores.hashes, row), report.response, world);
    SucceedsIff(report, job, world);
    ExtractionIs(request, stores.hashes, row, merges, report.response, world, Ok(report.variables));
    JoinIsJoinedUp(report.reasons);
    BackoffIsMonotoneAndCapped(row.retryCount, row.retryCount);
  }

  // A completed attempt is the next merge, and no other attempt is one.
  lemma AttemptMerges(r: Processed, db: Tables, requests: Requests, stores: Stores, merges: seq<MergeEvent>,
                      task: TaskId, worker: WorkerId, world: World)
    requires Processes(r, db, requests, stores, task, worker, world) && Isolated(stores.hashes, merges)
    ensures r.Concluded? ==> task in db.tasks
    ensures Isolated(StoresAfter(db, requests, stores, task, world, r).hashes,
                     if r.Concluded? && r.outcome.newStatus == Completed
                     then merges + [MergeEvent(db.tasks[task].runId, db.tasks[task].dataRow, r.report.variables)]
                     else merges)
  {
    if task in db.tasks { HashesStayIsolated(stores.hashes, merges, r, db.tasks[task]); }
  }

  lemma HashesStayIsolated(hashes: Hashes, merges: seq<MergeEvent>, r: Processed, row: TaskRow)
    requires Isolated(hashes, merges)
    ensures Isolated(HashesAfter(hashes, r, row),
                     if r.Concluded? && r.outcome.newStatus == Completed
                     then merges + [MergeEvent(row.runId, row.dataRow, r.report.variables)] else merges)
  {
    if r.Concluded? {
      MergeKeepsIsolated(hashes, merges, row.runId, row.dataRow, r.report.variables);
    }
  }

  // A deferred attempt is scheduled a second later and a retried one for its next_retry_at, and no
  // other is.
  lemma AttemptSchedules(r: Processed, db: Tables, requests: Requests, stores: Stores, task: TaskId, worker: WorkerId,
                         world: World)
    requires Processes(r, db, requests, stores, task, worker, world)
    ensures StoresAfter(db, requests, stores, task, world, r).scores ==
            match r
            case Deferred(_) => stores.scores[task := world.now + 1.0]
            case Concluded(_, o) =>
              if o.newStatus == Retrying then stores.scores[task := o.nextRetryAt.value] else stores.scores
            case _ => stores.scores
  {
  }

  lemma RenderingIsPrepared(request: ApiRequest, chainContext: Variables, environment: Variables, p: Prepared)
    requires IsRendering(request, environment + chainContext, p)
    ensures Prepare(request, chainContext, environment) == Ok(p)
  {
    GetsIff(request.url, chainContext, environment, Ok(p.url));
    RenderedMapping(request.headers, chainContext, environment, p.headers);
    RenderedMapping(request.queryParams, chainContext, environment, p.queryParams);
    if HasBody(request) { GetsIff(request.body.value, chainContext, environment, Ok(p.body.value)); }
  }

  lemma RenderedMapping(mapping: Mapping, chainContext: Variables, environment: Variables, rendered: Mapping)
    requires RendersEach(mapping, environment + chainContext, rendered)
    ensures ResolveMapping(mapping, chainContext, environment) == Ok(rendered)
  {
    MappingResolvesEachValue(mapping, chainContext, environment);
    forall i | 0 <= i < |mapping|
      ensures rendered[i].0 == mapping[i].0
      ensures ResolveTemplate(mapping[i].1, chainContext, environment) == Ok(rendered[i].1)
    {
      GetsIff(mapping[i].1, chainContext, environment, Ok(rendered[i].1));
    }
    var resolved := ResolveMapping(mapping, chainContext, environment);
    if resolved.Ok? {
      assert forall i | 0 <= i < |mapping| :: resolved.value[i] == rendered[i];
      assert resolved.value == rendered;
    }
  }

  // An attempt that is not deferred ends with an exception that nobody expects if and only if its
  // request, as rendered, has no result, or extracting from the response raises one.
  lemma {:induction false} AttemptRaisesIff(r: Processed, db: Tables, requests: Requests, stores: Stores,
                                            merges: seq<MergeEvent>, task: TaskId, worker: WorkerId, world: World)
    requires Processes(r, db, requests, stores, task, worker, world) && Complete(db, requests, task)
    requires Isolated(stores.hashes, merges) && !r.Deferred?
    ensures var row := db.tasks[task];
            var (request, seen) := (requests[row.requestId], Visible(row, merges, db.runs[row.runId].environment));
            r.Unexpected? <==>
            exists p ::
              && IsRendering(request, seen, p)
              && (|| world.send(p).None?
                  || (&& world.send(p).value.errorMessage.None?
                      && ExtractionGives(request, row, merges, world.send(p).value, world, Err(Escaped))))
  {
    var row := db.tasks[task];
    var (request, environment) := (requests[row.requestId], db.runs[row.runId].environment);
    var context := ChainContext(stores.hashes, row);
    ContextIsChain(stores.hashes, merges, row);
    var seen := Visible(row, merges, environment);
    assert seen == environment + context;
    UnexpectedIff(r, db, requests, stores, task, worker, world);
    forall p ensures IsRendering(request, seen, p) <==> Prepare(request, context, environment) == Ok(p) {
      if IsRendering(request, seen, p) { RenderingIsPrepared(request, context, environment, p); }
      if Prepare(request, context, environment) == Ok(p) { PreparedIsRendered(request, context, environment, p); }
    }
    forall p | world.send(p).Some?
      ensures ExtractionGives(request, row, merges, world.send(p).value, world, Err(Escaped)) <==>
              Extracts(JobOf(request, context, world.send(p).value, world), Err(Escaped))
    {
      ExtractionIs(request, stores.hashes, row, merges, world.send(p).value, world, Err(Escaped));
    }
  }
}
