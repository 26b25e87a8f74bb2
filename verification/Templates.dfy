// Replacing {{name}} placeholders by a leftmost scan.
module Templates {
  import opened Wrappers
  import opened Records

  // ---------------------------------------------------------------- the pattern

  // What \s matches in a Python str pattern.
  predicate IsSpace(c: char) {
    || '\t' <= c <= '\r' || '\U{1c}' <= c <= ' ' || c == '\U{85}' || c == '\U{a0}' || c == '\U{1680}'
    || '\U{2000}' <= c <= '\U{200a}' || c == '\U{2028}' || c == '\U{2029}' || c == '\U{202f}'
    || c == '\U{205f}' || c == '\U{3000}'
  }

  predicate IsNameStart(c: char) {
    'A' <= c <= 'Z' || 'a' <= c <= 'z' || c == '_'
  }

  predicate IsNameChar(c: char) {
    IsNameStart(c) || '0' <= c <= '9'
  }

  predicate AllSpace(s: string) {
    forall c | c in s :: IsSpace(c)
  }

  predicate IsName(s: string) {
    s != "" && IsNameStart(s[0]) && forall c | c in s :: IsNameChar(c)
  }

  // The pattern, read as a description of strings.
  ghost predicate IsPlaceholder(s: string, name: string) {
    IsName(name) && exists before, after | AllSpace(before) && AllSpace(after) :: s == Spelled(before, name, after)
  }

  function Spelled(before: string, name: string, after: string): string {
    "{{" + (before + (name + (after + "}}")))
  }

  lemma Associative(a: string, b: string, c: string)
    ensures (a + b) + c == a + (b + c)
  {
  }

  lemma SpelledAppend(before: string, name: string, after: string, rest: string)
    ensures Spelled(before, name, after) + rest == "{{" + (before + (name + (after + ("}}" + rest))))
  {
    Associative("{{", before + (name + (after + "}}")), rest);
    Associative(before, name + (after + "}}"), rest);
    Associative(name, after + "}}", rest);
    Associative(after, "}}", rest);
  }

  lemma Dropped(a: string, b: string)
    ensures (a + b)[..|a|] == a && (a + b)[|a|..] == b
  {
  }

  lemma Divided(t: string, n: nat)
    requires n <= |t|
    ensures t == t[..n] + t[n..]
  {
  }

  // ---------------------------------------------------------------- matching the pattern

  datatype Found = Found(size: nat, name: string)

  // The next thing that the pattern expects: a brace, or what begins with a space or a name.
  datatype Stage = Open | Opened | Before | Name | After | Close

  function Longer(m: Option<Found>): Option<Found> {
    match m
    case None => None
    case Some(found) => Some(Found(found.size + 1, found.name))
  }

  function Named(c: char, m: Option<Found>): Option<Found> {
    match m
    case None => None
    case Some(found) => Some(Found(found.size + 1, [c] + found.name))
  }

  // Greedy repetition never has to give back a character: a space, a name character and a brace
  // are different things, so one character decides how to go on.
  function MatchFrom(stage: Stage, t: string): (m: Option<Found>)
    ensures m.Some? ==> 0 < m.value.size <= |t|
    decreases |t|
  {
    if t == "" then None
    else
      var c := t[0];
      match stage
      case Open => if c == '{' then Longer(MatchFrom(Opened, t[1..])) else None
      case Opened => if c == '{' then Longer(MatchFrom(Before, t[1..])) else None
      case Before =>
        if IsSpace(c) then Longer(MatchFrom(Before, t[1..]))
        else if IsNameStart(c) then Named(c, MatchFrom(Name, t[1..]))
        else None
      case Name =>
        if IsNameChar(c) then Named(c, MatchFrom(Name, t[1..]))
        else if IsSpace(c) then Longer(MatchFrom(After, t[1..]))
        else if c == '}' then Longer(MatchFrom(Close, t[1..]))
        else None
      case After =>
        if IsSpace(c) then Longer(MatchFrom(After, t[1..]))
        else if c == '}' then Longer(MatchFrom(Close, t[1..]))
        else None
      case Close => if c == '}' then Some(Found(1, "")) else None
  }

  // Matching the pattern at the beginning of a text.
  function Match(t: string): Option<Found> {
    MatchFrom(Open, t)
  }

  // ---------------------------------------------------------------- what is spelled is matched

  lemma OneLess(a: string, t: string)
    requires a != ""
    ensures (a + t)[0] == a[0] && (a + t)[1..] == a[1..] + t
  {
  }

  lemma ClosingIsMatched(rest: string)
    ensures MatchFrom(After, "}}" + rest) == Some(Found(2, ""))
  {
    var t := "}" + rest;
    assert ("}}" + rest)[1..] == t && t[0] == '}';
    assert MatchFrom(Close, t) == Some(Found(1, ""));
  }

  lemma {:induction false} AfterIsMatched(after: string, rest: string)
    requires AllSpace(after)
    ensures MatchFrom(After, after + ("}}" + rest)) == Some(Found(|after| + 2, ""))
  {
    if after == "" {
      ClosingIsMatched(rest);
      assert after + ("}}" + rest) == "}}" + rest && |after| == 0;
    } else {
      OneLess(after, "}}" + rest);
      AfterIsMatched(after[1..], rest);
    }
  }

  lemma NameEnds(t: string)
    requires t != "" && !IsNameChar(t[0])
    ensures MatchFrom(Name, t) == MatchFrom(After, t)
  {
  }

  lemma {:induction false} NameIsMatched(name: string, after: string, rest: string)
    requires (forall c | c in name :: IsNameChar(c)) && AllSpace(after)
    ensures MatchFrom(Name, name + (after + ("}}" + rest))) == Some(Found(|name| + |after| + 2, name))
  {
    var t := after + ("}}" + rest);
    if name == "" {
      assert name + t == t && |name| == 0;
      assert t[0] == '}' || t[0] in after;
      NameEnds(t);
      AfterIsMatched(after, rest);
    } else {
      OneLess(name, t);
      NameIsMatched(name[1..], after, rest);
      assert [name[0]] + name[1..] == name;
    }
  }

  lemma {:induction false} BeforeIsMatched(before: string, name: string, after: string, rest: string)
    requires AllSpace(before) && IsName(name) && AllSpace(after)
    ensures MatchFrom(Before, before + (name + (after + ("}}" + rest)))) ==
            Some(Found(|before| + |name| + |after| + 2, name))
  {
    var t := name + (after + ("}}" + rest));
    if before == "" {
      assert before + t == t;
      OneLess(name, after + ("}}" + rest));
      NameIsMatched(name[1..], after, rest);
      assert [name[0]] + name[1..] == name;
      assert |before| == 0;
    } else {
      OneLess(before, t);
      BeforeIsMatched(before[1..], name, after, rest);
    }
  }

  lemma PlaceholderIsMatched(s: string, name: string, rest: string)
    requires IsPlaceholder(s, name)
    ensures Match(s + rest) == Some(Found(|s|, name))
  {
    var before, after :| AllSpace(before) && AllSpace(after) && s == Spelled(before, name, after);
    SpelledAppend(before, name, after, rest);
    var t := before + (name + (after + ("}}" + rest)));
    BeforeIsMatched(before, name, after, rest);
    assert (s + rest)[1..] == "{" + t && ("{" + t)[1..] == t;
    assert MatchFrom(Opened, "{" + t) == Longer(MatchFrom(Before, t));
    assert |s| == |before| + |name| + |after| + 4;
  }

  // ---------------------------------------------------------------- what is matched is spelled

  lemma OneMore(t: string, n: nat)
    requires n < |t|
    ensures t[..n + 1] == [t[0]] + t[1..][..n]
  {
  }

  lemma {:induction false} MatchedAfter(t: string) returns (after: string)
    requires MatchFrom(After, t).Some?
    ensures var m := MatchFrom(After, t).value; AllSpace(after) && t[..m.size] == after + "}}" && m.name == ""
  {
    OneMore(t, MatchFrom(After, t).value.size - 1);
    if IsSpace(t[0]) {
      after := MatchedAfter(t[1..]);
      Associative([t[0]], after, "}}");
      after := [t[0]] + after;
    } else {
      after := "";
    }
  }

  lemma {:induction false} MatchedName(t: string) returns (after: string)
    requires MatchFrom(Name, t).Some?
    ensures var m := MatchFrom(Name, t).value;
            AllSpace(after) && (forall c | c in m.name :: IsNameChar(c)) && t[..m.size] == m.name + (after + "}}")
  {
    var m := MatchFrom(Name, t).value;
    OneMore(t, m.size - 1);
    if IsNameChar(t[0]) {
      after := MatchedName(t[1..]);
      Associative([t[0]], MatchFrom(Name, t[1..]).value.name, after + "}}");
    } else {
      NameEnds(t);
      after := MatchedAfter(t);
    }
  }

  lemma {:induction false} MatchedBefore(t: string) returns (before: string, after: string)
    requires MatchFrom(Before, t).Some?
    ensures var m := MatchFrom(Before, t).value;
            AllSpace(before) && AllSpace(after) && IsName(m.name) && t[..m.size] == before + (m.name + (after + "}}"))
  {
    var m := MatchFrom(Before, t).value;
    OneMore(t, m.size - 1);
    if IsSpace(t[0]) {
      before, after := MatchedBefore(t[1..]);
      Associative([t[0]], before, m.name + (after + "}}"));
      before := [t[0]] + before;
    } else {
      before := "";
      after := MatchedName(t[1..]);
      Associative([t[0]], MatchFrom(Name, t[1..]).value.name, after + "}}");
    }
  }

  lemma MatchIsPlaceholder(t: string)
    requires Match(t).Some?
    ensures var m := Match(t).value; IsPlaceholder(t[..m.size], m.name)
  {
    assert MatchFrom(Opened, t[1..]).Some?;
    var m := MatchFrom(Before, t[1..][1..]).value;
    var before, after := MatchedBefore(t[1..][1..]);
    OneMore(t, m.size + 1);
    OneMore(t[1..], m.size);
    assert ['{'] + (['{'] + (before + (m.name + (after + "}}")))) == Spelled(before, m.name, after);
  }

  // A text is matched if and only if a placeholder stands at its beginning, and then there is
  // only one.
  lemma MatchIff(t: string, n: nat, name: string)
    requires n <= |t|
    ensures IsPlaceholder(t[..n], name) <==> Match(t) == Some(Found(n, name))
  {
    if IsPlaceholder(t[..n], name) {
      PlaceholderIsMatched(t[..n], name, t[n..]);
      assert t == t[..n] + t[n..];
    } else if Match(t).Some? {
      MatchIsPlaceholder(t);
    }
  }

  // ---------------------------------------------------------------- tokenizations

  // A literal, a placeholder, a literal, and so on to a last literal.
  datatype Tokens =
    | Last(literal: string)
    | More(literal: string, placeholder: string, name: string, rest: Tokens)

  function Text(tokens: Tokens): string {
    match tokens
    case Last(literal) => literal
    case More(literal, placeholder, _, rest) => literal + (placeholder + Text(rest))
  }

  ghost predicate Begins(t: string) {
    exists n: nat, name | n <= |t| :: IsPlaceholder(t[..n], name)
  }

  // The tokens spell the template, their placeholders are placeholders, and none of them could
  // have begun earlier, inside the literal before it.
  ghost predicate Tokenizes(t: string, tokens: Tokens)
    decreases tokens
  {
    && t == Text(tokens)
    && (forall k | 0 <= k < |tokens.literal| :: !Begins(t[k..]))
    && (tokens.More? ==> IsPlaceholder(tokens.placeholder, tokens.name) && Tokenizes(Text(tokens.rest), tokens.rest))
  }

  // The length of the literal at the beginning of a text.
  function Scan(t: string): (n: nat)
    ensures n <= |t| && (n < |t| ==> Match(t[n..]).Some?)
  {
    if t == "" || Match(t).Some? then 0
    else
      assert t[1 + Scan(t[1..])..] == t[1..][Scan(t[1..])..];
      1 + Scan(t[1..])
  }

  function Tokenize(t: string): Tokens
    decreases |t|
  {
    var n := Scan(t);
    if n == |t| then Last(t)
    else
      var m := Match(t[n..]).value;
      More(t[..n], t[n..][..m.size], m.name, Tokenize(t[n..][m.size..]))
  }

  lemma BeginsIff(t: string)
    ensures Begins(t) <==> Match(t).Some?
  {
    if Match(t).Some? {
      MatchIsPlaceholder(t);
    } else if Begins(t) {
      var n: nat, name :| n <= |t| && IsPlaceholder(t[..n], name);
      MatchIff(t, n, name);
    }
  }

  lemma {:induction false} ScanPasses(t: string, k: nat)
    requires k < Scan(t)
    ensures !Begins(t[k..])
  {
    if k == 0 {
      BeginsIff(t);
      assert t[0..] == t;
    } else {
      ScanPasses(t[1..], k - 1);
      assert t[k..] == t[1..][k - 1..];
    }
  }

  lemma {:induction false} ScanStops(literal: string, t: string)
    requires (t != "" ==> Begins(t)) && forall k | 0 <= k < |literal| :: !Begins((literal + t)[k..])
    ensures Scan(literal + t) == |literal|
  {
    var u := literal + t;
    BeginsIff(u);
    assert u[0..] == u;
    if literal == "" {
      assert u == t;
    } else {
      assert u[1..] == literal[1..] + t;
      forall k | 0 <= k < |literal[1..]| ensures !Begins((literal[1..] + t)[k..]) {
        assert (literal[1..] + t)[k..] == u[k + 1..];
      }
      ScanStops(literal[1..], t);
    }
  }

  lemma {:induction false} TokenizeTokenizes(t: string)
    ensures Tokenizes(t, Tokenize(t))
    decreases |t|
  {
    var n := Scan(t);
    forall k | 0 <= k < n ensures !Begins(t[k..]) {
      ScanPasses(t, k);
    }
    if n < |t| {
      var u := t[n..];
      var size := Match(u).value.size;
      MatchIsPlaceholder(u);
      TokenizeTokenizes(u[size..]);
      Divided(t, n);
      Divided(u, size);
    }
  }

  lemma {:induction false} TokenizationIsUnique(t: string, tokens: Tokens)
    requires Tokenizes(t, tokens)
    ensures tokens == Tokenize(t)
    decreases tokens
  {
    var n := |tokens.literal|;
    match tokens
    case Last(literal) =>
      assert t == literal + "";
      ScanStops(literal, "");
    case More(literal, placeholder, name, rest) =>
      var u := placeholder + Text(rest);
      Dropped(literal, u);
      Dropped(placeholder, Text(rest));
      PlaceholderIsMatched(placeholder, name, Text(rest));
      BeginsIff(u);
      ScanStops(literal, u);
      TokenizationIsUnique(Text(rest), rest);
  }

  // Every template splits into placeholders and the literals between them in exactly one way.
  lemma TokenizesIff(t: string, tokens: Tokens)
    ensures Tokenizes(t, tokens) <==> tokens == Tokenize(t)
  {
    TokenizeTokenizes(t);
    if Tokenizes(t, tokens) { TokenizationIsUnique(t, tokens); }
  }

  // ---------------------------------------------------------------- resolving

  datatype UndefinedVariable = UndefinedVariable(name: string)

  type Resolution = Result<string, UndefinedVariable>

  function Lookup(name: string, chainContext: Variables, environment: Variables): Option<string> {
    if name in chainContext then Some(chainContext[name])
    else if name in environment then Some(environment[name])
    else None
  }

  function Prepend(text: string, rest: Resolution): Resolution {
    match rest
    case Ok(value) => Ok(text + value)
    case Err(e) => Err(e)
  }

  // What a placeholder is replaced with is not looked at again.
  function ResolveTemplate(t: string, chainContext: Variables, environment: Variables): Resolution {
    if t == "" then Ok("")
    else
      match Match(t)
      case None => Prepend([t[0]], ResolveTemplate(t[1..], chainContext, environment))
      case Some(m) =>
        match Lookup(m.name, chainContext, environment)
        case None => Err(UndefinedVariable(m.name))
        case Some(value) => Prepend(value, ResolveTemplate(t[m.size..], chainContext, environment))
  }

  // ---------------------------------------------------------------- resolving is filling in the tokens

  function Names(tokens: Tokens): seq<string> {
    match tokens
    case Last(_) => []
    case More(_, _, name, rest) => [name] + Names(rest)
  }

  function Filled(tokens: Tokens, variables: Variables): string
    requires forall name | name in Names(tokens) :: name in variables
  {
    match tokens
    case Last(literal) => literal
    case More(literal, _, name, rest) => literal + (variables[name] + Filled(rest, variables))
  }

  // The leftmost placeholder that has no value.
  predicate FirstUnbound(tokens: Tokens, variables: Variables, name: string) {
    exists k :: 0 <= k < |Names(tokens)| && Names(tokens)[k] == name && name !in variables &&
      forall i | 0 <= i < k :: Names(tokens)[i] in variables
  }

  predicate ResolvesTo(tokens: Tokens, variables: Variables, r: Resolution) {
    match r
    case Ok(text) => (forall name | name in Names(tokens) :: name in variables) && text == Filled(tokens, variables)
    case Err(e) => FirstUnbound(tokens, variables, e.name)
  }

  lemma PrependTwice(a: string, b: string, rest: Resolution)
    ensures Prepend(a, Prepend(b, rest)) == Prepend(a + b, rest)
    ensures Prepend("", rest) == rest
  {
    if rest.Ok? {
      assert a + (b + rest.value) == a + b + rest.value;
      assert "" + rest.value == rest.value;
    }
  }

  lemma {:induction false} LiteralIsCopied(literal: string, t: string, chainContext: Variables, environment: Variables)
    requires forall k | 0 <= k < |literal| :: !Begins((literal + t)[k..])
    ensures ResolveTemplate(literal + t, chainContext, environment) ==
            Prepend(literal, ResolveTemplate(t, chainContext, environment))
  {
    if literal == "" {
      assert literal + t == t;
      PrependTwice("", "", ResolveTemplate(t, chainContext, environment));
    } else {
      var u := literal + t;
      assert u[0..] == u && u[1..] == literal[1..] + t;
      BeginsIff(u);
      forall k | 0 <= k < |literal[1..]| ensures !Begins((literal[1..] + t)[k..]) {
        assert (literal[1..] + t)[k..] == u[k + 1..];
      }
      LiteralIsCopied(literal[1..], t, chainContext, environment);
      PrependTwice([u[0]], literal[1..], ResolveTemplate(t, chainContext, environment));
      assert [u[0]] + literal[1..] == literal;
    }
  }

  lemma LookupIsOverlay(name: string, chainContext: Variables, environment: Variables)
    ensures Lookup(name, chainContext, environment) ==
            var all := environment + chainContext;
            if name in all then Some(all[name]) else None
  {
  }

  lemma RestResolves(tokens: Tokens, variables: Variables, r: Resolution)
    requires tokens.More? && tokens.name in variables && ResolvesTo(tokens.rest, variables, r)
    ensures ResolvesTo(tokens, variables, Prepend(tokens.literal, Prepend(variables[tokens.name], r)))
  {
    var names := Names(tokens);
    match r
    case Ok(text) => assert forall name | name in names :: name == tokens.name || name in Names(tokens.rest);
    case Err(e) =>
      var k :| 0 <= k < |Names(tokens.rest)| && Names(tokens.rest)[k] == e.name &&
               forall i | 0 <= i < k :: Names(tokens.rest)[i] in variables;
      assert names[k + 1] == e.name;
      assert forall i | 0 <= i < k + 1 :: i > 0 ==> names[i] == Names(tokens.rest)[i - 1];
  }

  lemma PlaceholderIsReplaced(s: string, name: string, t: string, chainContext: Variables, environment: Variables)
    requires IsPlaceholder(s, name)
    ensures var variables := environment + chainContext;
            ResolveTemplate(s + t, chainContext, environment) ==
            if name in variables then Prepend(variables[name], ResolveTemplate(t, chainContext, environment))
            else Err(UndefinedVariable(name))
  {
    PlaceholderIsMatched(s, name, t);
    LookupIsOverlay(name, chainContext, environment);
    assert (s + t)[|s|..] == t;
  }

  // Whatever way a template is split leftmost into literals and placeholders (and there is only
  // one), resolving it gives the literals and the values in their places, unless a name has no
  // value: then it fails, and names the leftmost such placeholder. The chain context hides the
  // environment.
  lemma {:induction false} ResolvingFillsTokens(t: string, tokens: Tokens, chainContext: Variables,
                                                environment: Variables)
    requires Tokenizes(t, tokens)
    ensures ResolvesTo(tokens, environment + chainContext, ResolveTemplate(t, chainContext, environment))
    decreases tokens
  {
    match tokens
    case Last(literal) =>
      assert t == literal + "";
      LiteralIsCopied(literal, "", chainContext, environment);
      assert literal + "" == literal;
    case More(literal, placeholder, name, rest) =>
      var r := ResolveTemplate(Text(rest), chainContext, environment);
      LiteralIsCopied(literal, placeholder + Text(rest), chainContext, environment);
      PlaceholderIsReplaced(placeholder, name, Text(rest), chainContext, environment);
      ResolvingFillsTokens(Text(rest), rest, chainContext, environment);
      if name in environment + chainContext {
        RestResolves(tokens, environment + chainContext, r);
      } else {
        assert Names(tokens)[0] == name;
      }
  }

  lemma {:induction false} SameLookups(t: string, chainContext: Variables, environment: Variables,
                                       chainContext': Variables, environment': Variables)
    requires forall name :: Lookup(name, chainContext, environment) == Lookup(name, chainContext', environment')
    ensures ResolveTemplate(t, chainContext, environment) == ResolveTemplate(t, chainContext', environment')
    decreases |t|
  {
    if t != "" {
      match Match(t)
      case None => SameLookups(t[1..], chainContext, environment, chainContext', environment');
      case Some(m) =>
        assert Lookup(m.name, chainContext, environment) == Lookup(m.name, chainContext', environment');
        SameLookups(t[m.size..], chainContext, environment, chainContext', environment');
    }
  }

  // A task's data row hides the chain context, which hides the environment: one map would do.
  lemma {:induction false} OneMapWouldDo(t: string, environment: Variables, chainContext: Variables, dataRow: Variables)
    ensures ResolveTemplate(t, chainContext + dataRow, environment) ==
            ResolveTemplate(t, environment + chainContext + dataRow, map[])
  {
    SameLookups(t, chainContext + dataRow, environment, environment + chainContext + dataRow, map[]);
  }

  // ---------------------------------------------------------------- headers and query parameters

  // A dictionary keeps the order in which its keys were inserted.
  type Mapping = seq<(string, string)>

  function ResolveMapping(mapping: Mapping, chainContext: Variables, environment: Variables): Result<Mapping,
                          UndefinedVariable> {
    if mapping == [] then Ok([])
    else
      match ResolveTemplate(mapping[0].1, chainContext, environment)
      case Err(e) => Err(e)
      case Ok(value) =>
        match ResolveMapping(mapping[1..], chainContext, environment)
        case Err(e) => Err(e)
        case Ok(rest) => Ok([(mapping[0].0, value)] + rest)
  }

  // Every value is resolved under its own key, or the first value that cannot be resolved fails
  // the whole mapping.
  lemma {:induction false} MappingResolvesEachValue(mapping: Mapping, chainContext: Variables, environment: Variables)
    ensures match ResolveMapping(mapping, chainContext, environment)
            case Ok(resolved) =>
              && |resolved| == |mapping|
              && (forall i :: 0 <= i < |mapping| ==>
                    resolved[i].0 == mapping[i].0 &&
                    ResolveTemplate(mapping[i].1, chainContext, environment) == Ok(resolved[i].1))
            case Err(e) =>
              exists i :: 0 <= i < |mapping| &&
                ResolveTemplate(mapping[i].1, chainContext, environment) == Err(e) &&
                forall j | 0 <= j < i :: ResolveTemplate(mapping[j].1, chainContext, environment).Ok?
  {
    if mapping != [] {
      MappingResolvesEachValue(mapping[1..], chainContext, environment);
      var rest := ResolveMapping(mapping[1..], chainContext, environment);
      if ResolveTemplate(mapping[0].1, chainContext, environment).Ok? && rest.Err? {
        var i :| 0 <= i < |mapping[1..]| &&
                 ResolveTemplate(mapping[1..][i].1, chainContext, environment) == Err(rest.error) &&
                 forall j | 0 <= j < i :: ResolveTemplate(mapping[1..][j].1, chainContext, environment).Ok?;
        assert mapping[i + 1] == mapping[1..][i];
        assert forall j | 0 <= j < i + 1 :: j > 0 ==> mapping[j] == mapping[1..][j - 1];
      }
    }
  }
}
