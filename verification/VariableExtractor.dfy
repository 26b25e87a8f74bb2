// Extracting chain variables from a response.
module VariableExtractor {
  import opened Wrappers
  import opened Records

  datatype Rule =
    | JsonPath(path: string, saveAs: string)
    | JwtClaim(sourceVar: string, claim: string, saveAs: string)
    | UnknownRule(kind: string, saveAs: string)

  datatype ExtractionError =
    | BodyIsNotJson(path: string)
    | MatchedNothing(path: string)
    | UndefinedSource(sourceVar: string)
    | NotAJwt(sourceVar: string, detail: string)
    | MissingClaim(claim: string)
    | UnknownRuleType(kind: string)

  function Message(e: ExtractionError): string {
    match e
    case BodyIsNotJson(path) => "Cannot extract '" + path + "': response body is not valid JSON."
    case MatchedNothing(path) => "Path '" + path + "' matched nothing in the response."
    case UndefinedSource(sourceVar) => "jwt_claim rule references " + "undefined variable '" + sourceVar + "'."
    case NotAJwt(sourceVar, detail) => "'" + sourceVar + "' is not a decodable JWT: " + detail
    case MissingClaim(claim) => "Claim '" + claim + "' not present in the JWT."
    case UnknownRuleType(kind) => "Unknown extraction rule type: " + kind
  }

  lemma SameMiddle(before: string, a: string, b: string, after: string)
    requires before + a + after == before + b + after
    ensures a == b
  {
    assert |before + a + after| == |before| + |a| + |after| && |before + b + after| == |before| + |b| + |after|;
    assert (before + a + after)[|before|..|before| + |a|] == a;
    assert (before + b + after)[|before|..|before| + |b|] == b;
  }

  // The first two characters tell the kind of an error.
  lemma MessageBegins(e: ExtractionError)
    ensures var m := Message(e);
            && |m| >= 2
            && match e
               case BodyIsNotJson(_) => m[0] == 'C' && m[1] == 'a'
               case MatchedNothing(_) => m[0] == 'P'
               case UndefinedSource(_) => m[0] == 'j'
               case NotAJwt(_, _) => m[0] == '\''
               case MissingClaim(_) => m[0] == 'C' && m[1] == 'l'
               case UnknownRuleType(_) => m[0] == 'U'
  {
  }

  // A message tells the error, but for where the name ends in the message on a token.
  lemma MessageTellsError(e: ExtractionError, e': ExtractionError)
    requires Message(e) == Message(e')
    ensures e == e' || (e.NotAJwt? && e'.NotAJwt?)
  {
    MessageBegins(e);
    MessageBegins(e');
    match e
    case BodyIsNotJson(path) => SameMiddle("Cannot extract '", path, e'.path, "': response body is not valid JSON.");
    case MatchedNothing(path) => SameMiddle("Path '", path, e'.path, "' matched nothing in the response.");
    case UndefinedSource(sourceVar) =>
      SameMiddle("jwt_claim rule references " + "undefined variable '", sourceVar, e'.sourceVar, "'.");
    case NotAJwt(_, _) =>
    case MissingClaim(claim) => SameMiddle("Claim '", claim, e'.claim, "' not present in the JWT.");
    case UnknownRuleType(kind) =>
      assert Message(e) == "Unknown extraction rule type: " + kind + "";
      assert Message(e') == "Unknown extraction rule type: " + e'.kind + "";
      SameMiddle("Unknown extraction rule type: ", kind, e'.kind, "");
  }

  // process_task catches an ExtractionError; anything else that a library raises passes it.
  datatype Raised = Caught(error: ExtractionError) | Escaped

  // What searching a path gives: the texts of the matches, unless the path does not parse.
  datatype Search = InvalidPath | Matches(texts: seq<string>)

  // The JSON, JSONPath and JWT libraries, as functions of the texts that they are given.
  datatype Libraries = Libraries(
    isJson: string -> bool,
    findPath: (string, string) -> Search,
    decodeJwt: string -> Result<Variables, string>)

  // An empty body, and one that is no JSON, are the same.
  function TryParseJson(lib: Libraries, body: Option<string>): Option<string> {
    if body.Some? && body.value != "" && lib.isJson(body.value) then body else None
  }

  function ExtractJsonPath(lib: Libraries, parsed: Option<string>, path: string): Result<string, Raised> {
    if parsed.None? then Err(Caught(BodyIsNotJson(path)))
    else
      match lib.findPath(path, parsed.value)
      case InvalidPath => Err(Escaped)
      case Matches(texts) => if texts == [] then Err(Caught(MatchedNothing(path))) else Ok(texts[0])
  }

  function ExtractJwtClaim(lib: Libraries, available: Variables, sourceVar: string, claim: string): Result<string,
                           Raised> {
    if sourceVar !in available then Err(Caught(UndefinedSource(sourceVar)))
    else
      match lib.decodeJwt(available[sourceVar])
      case Err(detail) => Err(Caught(NotAJwt(sourceVar, detail)))
      case Ok(claims) => if claim in claims then Ok(claims[claim]) else Err(Caught(MissingClaim(claim)))
  }

  function Evaluate(lib: Libraries, parsed: Option<string>, available: Variables, rule: Rule): Result<string, Raised> {
    match rule
    case JsonPath(path, _) => ExtractJsonPath(lib, parsed, path)
    case JwtClaim(sourceVar, claim, _) => ExtractJwtClaim(lib, available, sourceVar, claim)
    case UnknownRule(kind, _) => Err(Caught(UnknownRuleType(kind)))
  }

  // ---------------------------------------------------------------- what extraction means

  datatype Job = Job(lib: Libraries, parsed: Option<string>, chainContext: Variables, rules: seq<Rule>)

  // What the first rules have saved, when they evaluate to these values.
  function Saved(rules: seq<Rule>, values: seq<string>): Variables
    requires |values| <= |rules|
    decreases |values|
  {
    if values == [] then map[]
    else
      var n := |values| - 1;
      Saved(rules, values[..n])[rules[n].saveAs := values[n]]
  }

  // The next rule, in the chain context overlaid by what the rules before it saved.
  function EvaluateNext(job: Job, values: seq<string>): Result<string, Raised>
    requires |values| < |job.rules|
  {
    Evaluate(job.lib, job.parsed, job.chainContext + Saved(job.rules, values), job.rules[|values|])
  }

  predicate Evaluates(job: Job, values: seq<string>)
    decreases |values|
  {
    values == [] ||
    (var n := |values| - 1;
     n < |job.rules| && Evaluates(job, values[..n]) && EvaluateNext(job, values[..n]) == Ok(values[n]))
  }

  predicate EndsWith(job: Job, values: seq<string>, r: Result<Variables, Raised>) {
    && Evaluates(job, values)
    && |values| <= |job.rules|
    && match r
       case Ok(extracted) => |values| == |job.rules| && extracted == Saved(job.rules, values)
       case Err(e) => |values| < |job.rules| && EvaluateNext(job, values) == Err(e)
  }

  // Every rule has its value and everything is saved, or the first rule without one decides.
  ghost predicate Extracts(job: Job, r: Result<Variables, Raised>) {
    exists values :: EndsWith(job, values, r)
  }

  // ---------------------------------------------------------------- what the rules give

  // Rule k is the last of the first n rules that saves a name.
  predicate LastToSave(rules: seq<Rule>, n: nat, name: string, k: nat)
    requires n <= |rules|
  {
    k < n && rules[k].saveAs == name && forall i | k < i < n :: rules[i].saveAs != name
  }

  // The last of the rules with these values that saves the name has this value.
  ghost predicate SavedLast(rules: seq<Rule>, values: seq<string>, name: string, value: string)
    requires |values| <= |rules|
  {
    exists k: nat | k < |values| :: LastToSave(rules, |values|, name, k) && value == values[k]
  }

  predicate Holds(variables: Variables, name: string, value: string) {
    name in variables && variables[name] == value
  }

  // What the rule after these values finds under a name: what the last earlier rule to save it has
  // saved, or else the chain context's own value.
  ghost predicate Finds(rules: seq<Rule>, chainContext: Variables, values: seq<string>, name: string, value: string)
    requires |values| <= |rules|
  {
    || SavedLast(rules, values, name, value)
    || ((forall i | 0 <= i < |values| :: rules[i].saveAs != name) && Holds(chainContext, name, value))
  }

  predicate BodyIsJson(lib: Libraries, body: Option<string>) {
    body.Some? && body.value != "" && lib.isJson(body.value)
  }

  // The rule after these values has this value: the first match of its own path in the body, or its
  // claim of the token that it finds under its source variable.
  ghost predicate Gives(lib: Libraries, rules: seq<Rule>, body: Option<string>, chainContext: Variables,
                        values: seq<string>, value: string)
    requires |values| < |rules|
  {
    match rules[|values|]
    case JsonPath(path, _) =>
      BodyIsJson(lib, body) && exists more :: lib.findPath(path, body.value) == Matches([value] + more)
    case JwtClaim(sourceVar, claim, _) =>
      exists token, claims ::
        && Finds(rules, chainContext, values, sourceVar, token) && lib.decodeJwt(token) == Ok(claims)
        && claim in claims && value == claims[claim]
    case UnknownRule(_, _) => false
  }

  // It raises this.
  ghost predicate Fails(lib: Libraries, rules: seq<Rule>, body: Option<string>, chainContext: Variables,
                        values: seq<string>, raised: Raised)
    requires |values| < |rules|
  {
    match rules[|values|]
    case JsonPath(path, _) =>
      if !BodyIsJson(lib, body) then raised == Caught(BodyIsNotJson(path))
      else
        || (lib.findPath(path, body.value) == InvalidPath && raised == Escaped)
        || (lib.findPath(path, body.value) == Matches([]) && raised == Caught(MatchedNothing(path)))
    case JwtClaim(sourceVar, claim, _) =>
      || ((forall token :: !Finds(rules, chainContext, values, sourceVar, token)) &&
          raised == Caught(UndefinedSource(sourceVar)))
      || (exists token ::
            Finds(rules, chainContext, values, sourceVar, token) &&
            match lib.decodeJwt(token)
            case Err(detail) => raised == Caught(NotAJwt(sourceVar, detail))
            case Ok(claims) => claim !in claims && raised == Caught(MissingClaim(claim)))
    case UnknownRule(kind, _) => raised == Caught(UnknownRuleType(kind))
  }

  // Each of the first rules has its value.
  ghost predicate GivesEach(lib: Libraries, rules: seq<Rule>, body: Option<string>, chainContext: Variables,
                            values: seq<string>)
    requires |values| <= |rules|
  {
    forall n: nat | n < |values| :: GivesAt(lib, rules, body, chainContext, values, n)
  }

  ghost predicate GivesAt(lib: Libraries, rules: seq<Rule>, body: Option<string>, chainContext: Variables,
                          values: seq<string>, n: nat)
    requires n < |values| <= |rules|
  {
    Gives(lib, rules, body, chainContext, values[..n], values[n])
  }

  // Each rule has its value and each name that of the last rule to save it, or else the first rule
  // without a value raises what it raises.
  ghost predicate Yields(lib: Libraries, rules: seq<Rule>, body: Option<string>, chainContext: Variables,
                         values: seq<string>, r: Result<Variables, Raised>)
  {
    && |values| <= |rules| && GivesEach(lib, rules, body, chainContext, values)
    && match r
       case Ok(extracted) =>
         && |values| == |rules|
         && forall name, value :: Holds(extracted, name, value) <==> SavedLast(rules, values, name, value)
       case Err(raised) => |values| < |rules| && Fails(lib, rules, body, chainContext, values, raised)
  }

  ghost predicate IsOutcome(lib: Libraries, rules: seq<Rule>, body: Option<string>, chainContext: Variables,
                            r: Result<Variables, Raised>)
  {
    exists values :: Yields(lib, rules, body, chainContext, values, r)
  }

  lemma {:induction false} OneSaves(rules: seq<Rule>, n: nat, name: string)
    requires n <= |rules|
    ensures (exists k: nat :: LastToSave(rules, n, name, k)) || forall i | 0 <= i < n :: rules[i].saveAs != name
  {
    if n > 0 {
      var last := n - 1;
      OneSaves(rules, last, name);
      if rules[last].saveAs == name {
        assert LastToSave(rules, n, name, last);
      } else if k: nat :| LastToSave(rules, last, name, k) {
        assert LastToSave(rules, n, name, k);
      }
    }
  }

  // A name has the value of the last rule that saved it.
  lemma {:induction false} LastSaveWins(rules: seq<Rule>, values: seq<string>, name: string, value: string)
    requires |values| <= |rules|
    ensures Holds(Saved(rules, values), name, value) <==> SavedLast(rules, values, name, value)
    decreases |values|
  {
    if values != [] {
      var n := |values| - 1;
      var front := values[..n];
      LastSaveWins(rules, front, name, value);
      if rules[n].saveAs == name {
        assert LastToSave(rules, n + 1, name, n);
      } else {
        if k: nat :| k < n && LastToSave(rules, n, name, k) && value == front[k] {
          assert LastToSave(rules, n + 1, name, k) && values[k] == value;
        }
        if k: nat :| k < n + 1 && LastToSave(rules, n + 1, name, k) && value == values[k] {
          assert LastToSave(rules, n, name, k) && front[k] == value;
        }
      }
    }
  }

  lemma FindsIff(rules: seq<Rule>, chainContext: Variables, values: seq<string>, name: string, value: string)
    requires |values| <= |rules|
    ensures Finds(rules, chainContext, values, name, value) <==>
            Holds(chainContext + Saved(rules, values), name, value)
  {
    var saved := Saved(rules, values);
    LastSaveWins(rules, values, name, value);
    OneSaves(rules, |values|, name);
    if name in saved {
      LastSaveWins(rules, values, name, saved[name]);
    } else if k: nat :| LastToSave(rules, |values|, name, k) {
      LastSaveWins(rules, values, name, values[k]);
    }
  }

  lemma GivesIff(lib: Libraries, rules: seq<Rule>, body: Option<string>, chainContext: Variables,
                 values: seq<string>, value: string)
    requires |values| < |rules|
    ensures Gives(lib, rules, body, chainContext, values, value) <==>
            EvaluateNext(Job(lib, TryParseJson(lib, body), chainContext, rules), values) == Ok(value)
  {
    match rules[|values|]
    case JsonPath(path, _) =>
      if BodyIsJson(lib, body) && lib.findPath(path, body.value).Matches? {
        var texts := lib.findPath(path, body.value).texts;
        if texts != [] { assert texts == [texts[0]] + texts[1..]; }
      }
    case JwtClaim(sourceVar, _, _) =>
      forall token
        ensures Finds(rules, chainContext, values, sourceVar, token) <==>
                Holds(chainContext + Saved(rules, values), sourceVar, token)
      {
        FindsIff(rules, chainContext, values, sourceVar, token);
      }
    case UnknownRule(_, _) =>
  }

  lemma FailsIff(lib: Libraries, rules: seq<Rule>, body: Option<string>, chainContext: Variables,
                 values: seq<string>, raised: Raised)
    requires |values| < |rules|
    ensures Fails(lib, rules, body, chainContext, values, raised) <==>
            EvaluateNext(Job(lib, TryParseJson(lib, body), chainContext, rules), values) == Err(raised)
  {
    if rules[|values|].JwtClaim? {
      var (sourceVar, available) := (rules[|values|].sourceVar, chainContext + Saved(rules, values));
      forall token
        ensures Finds(rules, chainContext, values, sourceVar, token) <==> Holds(available, sourceVar, token)
      {
        FindsIff(rules, chainContext, values, sourceVar, token);
      }
      if sourceVar in available { assert Holds(available, sourceVar, available[sourceVar]); }
    }
  }

  lemma OneMoreValue(job: Job, values: seq<string>, value: string)
    requires Evaluates(job, values) && |values| < |job.rules| && EvaluateNext(job, values) == Ok(value)
    ensures Evaluates(job, values + [value])
    ensures var (saved, name) := (Saved(job.rules, values), job.rules[|values|].saveAs);
            && Saved(job.rules, values + [value]) == saved[name := value]
            && job.chainContext + saved[name := value] == (job.chainContext + saved)[name := value]
  {
    assert (values + [value])[..|values|] == values;
  }

  lemma EndingIsOutcome(lib: Libraries, rules: seq<Rule>, body: Option<string>, chainContext: Variables,
                        values: seq<string>, r: Result<Variables, Raised>)
    requires EndsWith(Job(lib, TryParseJson(lib, body), chainContext, rules), values, r)
    ensures Extracts(Job(lib, TryParseJson(lib, body), chainContext, rules), r)
    ensures IsOutcome(lib, rules, body, chainContext, r)
  {
    YieldsIff(lib, rules, body, chainContext, values, r);
  }

  method ExtractVariables(lib: Libraries, rules: seq<Rule>, body: Option<string>, chainContext: Variables)
    returns (r: Result<Variables, Raised>)
    ensures Extracts(Job(lib, TryParseJson(lib, body), chainContext, rules), r)
    ensures IsOutcome(lib, rules, body, chainContext, r)
  {
    var parsed := TryParseJson(lib, body);
    var extracted: Variables := map[];
    var available := chainContext + extracted;
    ghost var job := Job(lib, parsed, chainContext, rules);
    ghost var values: seq<string> := [];
    for i := 0 to |rules|
      invariant |values| == i && Evaluates(job, values)
      invariant extracted == Saved(rules, values) && available == chainContext + extracted
    {
      var rule := rules[i];
      var value := Evaluate(lib, parsed, available, rule);
      if value.Err? {
        EndingIsOutcome(lib, rules, body, chainContext, values, Err(value.error));
        return Err(value.error);
      }
      OneMoreValue(job, values, value.value);
      values := values + [value.value];
      extracted := extracted[rule.saveAs := value.value];
      available := available[rule.saveAs := value.value];
    }
    r := Ok(extracted);
    EndingIsOutcome(lib, rules, body, chainContext, values, r);
  }

  lemma {:induction false} FrontEvaluates(job: Job, values: seq<string>, n: nat)
    requires Evaluates(job, values) && n < |values|
    ensures n < |job.rules| && Evaluates(job, values[..n]) && EvaluateNext(job, values[..n]) == Ok(values[n])
    decreases |values|
  {
    var last := |values| - 1;
    if n < last {
      FrontEvaluates(job, values[..last], n);
      assert values[..last][..n] == values[..n];
    }
  }

  lemma {:induction false} ValuesAgree(job: Job, values: seq<string>, values': seq<string>, n: nat)
    requires Evaluates(job, values) && Evaluates(job, values') && n <= |values| && n <= |values'|
    ensures values[..n] == values'[..n]
  {
    if n > 0 {
      ValuesAgree(job, values, values', n - 1);
      FrontEvaluates(job, values, n - 1);
      FrontEvaluates(job, values', n - 1);
      assert values[..n] == values[..n - 1] + [values[n - 1]];
      assert values'[..n] == values'[..n - 1] + [values'[n - 1]];
    }
  }

  lemma OneEnding(job: Job, values: seq<string>, values': seq<string>, r: Result<Variables, Raised>,
                  r': Result<Variables, Raised>)
    requires EndsWith(job, values, r) && EndsWith(job, values', r') && |values| <= |values'|
    ensures r == r'
  {
    var n := |values|;
    ValuesAgree(job, values, values', n);
    assert values[..n] == values;
    if n < |values'| {
      FrontEvaluates(job, values', n);
    } else {
      assert values'[..n] == values';
    }
  }

  // There is one outcome: a list of rules cannot be read in two ways.
  lemma ExtractionIsUnique(job: Job, r: Result<Variables, Raised>, r': Result<Variables, Raised>)
    requires Extracts(job, r) && Extracts(job, r')
    ensures r == r'
  {
    var values :| EndsWith(job, values, r);
    var values' :| EndsWith(job, values', r');
    if |values| <= |values'| {
      OneEnding(job, values, values', r, r');
    } else {
      OneEnding(job, values', values, r', r);
    }
  }

  lemma {:induction false} EvaluatesIff(lib: Libraries, rules: seq<Rule>, body: Option<string>, chainContext: Variables,
                                        values: seq<string>)
    requires |values| <= |rules|
    ensures Evaluates(Job(lib, TryParseJson(lib, body), chainContext, rules), values) <==>
            GivesEach(lib, rules, body, chainContext, values)
    decreases |values|
  {
    if values != [] {
      var last := |values| - 1;
      var front := values[..last];
      EvaluatesIff(lib, rules, body, chainContext, front);
      GivesIff(lib, rules, body, chainContext, front, values[last]);
      GivesOneMore(lib, rules, body, chainContext, values);
    }
  }

  lemma GivesOneMore(lib: Libraries, rules: seq<Rule>, body: Option<string>, chainContext: Variables,
                     values: seq<string>)
    requires 0 < |values| <= |rules|
    ensures var front := values[..|values| - 1];
            GivesEach(lib, rules, body, chainContext, values) <==>
            GivesEach(lib, rules, body, chainContext, front) &&
            Gives(lib, rules, body, chainContext, front, values[|values| - 1])
  {
    var front := values[..|values| - 1];
    forall n: nat | n < |front|
      ensures GivesAt(lib, rules, body, chainContext, values, n) <==> GivesAt(lib, rules, body, chainContext, front, n)
    {
      assert front[..n] == values[..n] && front[n] == values[n];
    }
    assert GivesAt(lib, rules, body, chainContext, values, |front|) <==>
           Gives(lib, rules, body, chainContext, front, values[|front|]);
  }

  lemma YieldsIff(lib: Libraries, rules: seq<Rule>, body: Option<string>, chainContext: Variables,
                  values: seq<string>, r: Result<Variables, Raised>)
    ensures Yields(lib, rules, body, chainContext, values, r) <==>
            EndsWith(Job(lib, TryParseJson(lib, body), chainContext, rules), values, r)
  {
    if |values| <= |rules| {
      EvaluatesIff(lib, rules, body, chainContext, values);
      if r.Err? {
        if |values| < |rules| { FailsIff(lib, rules, body, chainContext, values, r.error); }
      } else {
        SavesIff(rules, values, r.value);
      }
    }
  }

  // What extraction means, said of the rules, the body and the chain context alone.
  lemma ExtractsIff(lib: Libraries, rules: seq<Rule>, body: Option<string>, chainContext: Variables,
                    r: Result<Variables, Raised>)
    ensures Extracts(Job(lib, TryParseJson(lib, body), chainContext, rules), r) <==>
            IsOutcome(lib, rules, body, chainContext, r)
  {
    var job := Job(lib, TryParseJson(lib, body), chainContext, rules);
    forall values ensures Yields(lib, rules, body, chainContext, values, r) <==> EndsWith(job, values, r) {
      YieldsIff(lib, rules, body, chainContext, values, r);
    }
  }

  lemma SavesIff(rules: seq<Rule>, values: seq<string>, extracted: Variables)
    requires |values| <= |rules|
    ensures extracted == Saved(rules, values) <==>
            forall name, value :: Holds(extracted, name, value) <==> SavedLast(rules, values, name, value)
  {
    var saved := Saved(rules, values);
    forall name, value ensures Holds(saved, name, value) <==> SavedLast(rules, values, name, value) {
      LastSaveWins(rules, values, name, value);
    }
    if forall name, value :: Holds(extracted, name, value) <==> SavedLast(rules, values, name, value) {
      SameEntries(extracted, saved);
    }
  }

  lemma SameEntries(a: Variables, b: Variables)
    requires forall name, value :: Holds(a, name, value) <==> Holds(b, name, value)
    ensures a == b
  {
    forall name | name in a ensures name in b && b[name] == a[name] { assert Holds(a, name, a[name]); }
    forall name | name in b ensures name in a { assert Holds(b, name, b[name]); }
  }
}
