/**
 What a dispatcher answers, told by the templates and the path alone: where the variables of a
 template are, what each of them is given, and when there is no route for a request.
 */
module RouterAnswers {
  import opened Wrappers
  import opened UriTemplate
  import opened UriTemplateProofs
  import opened Router
  import opened RouterProofs

  // ------------------------------------------------------------------
  // Variables
  // ------------------------------------------------------------------

  /** `text[start..end]` is a brace, a name without closing braces, and a closing brace. */
  predicate VarAt(text: string, start: nat, end: nat) {
    start + 2 < end <= |text| && text[start] == '{' && text[end - 1] == '}' && '}' !in text[start + 1..end - 1]
  }

  lemma {:induction false} CloseIs(text: string, from: nat, end: nat)
    requires from < end <= |text| && text[end - 1] == '}' && '}' !in text[from..end - 1]
    ensures CloseAt(text, from) == Some(end - 1)
    decreases end - from
  {
    if from < end - 1 {
      assert text[from] == text[from..end - 1][0];
      assert text[from + 1..end - 1] == text[from..end - 1][1..];
      CloseIs(text, from + 1, end);
    }
  }

  /** The search finds the first variable at or after a position, and none exactly when there is none. */
  lemma {:induction false} FindsTheFirst(text: string, from: nat)
    requires from <= |text|
    ensures var r := FindVar(text, from);
      && (r.Some? ==> from <= r.value.0 && VarAt(text, r.value.0, r.value.1))
      && forall start: nat, end: nat | from <= start && VarAt(text, start, end) ::
           r.Some? && r.value.0 <= start && (r.value.0 == start ==> r.value.1 == end)
    decreases |text| - from
  {
    if from < |text| {
      FindsTheFirst(text, from + 1);
      forall end: nat | VarAt(text, from, end)
        ensures FindVar(text, from) == Some((from, end))
      {
        CloseIs(text, from + 1, end);
      }
    }
  }

  /** The names of the variables, in order. */
  function VarNames(tokens: seq<Token>): (r: seq<string>)
    ensures |r| == VarCount(tokens)
  {
    if tokens == [] then []
    else (if tokens[0].Var? then [tokens[0].name] else []) + VarNames(tokens[1..])
  }

  predicate DistinctNames(tokens: seq<Token>) {
    forall i, j | 0 <= i < j < |VarNames(tokens)| :: VarNames(tokens)[i] != VarNames(tokens)[j]
  }

  /** The template with each variable replaced by what it is given. */
  function Filled(tokens: seq<Token>, args: map<string, string>): string
    requires forall name <- VarNames(tokens) :: name in args
  {
    if tokens == [] then ""
    else if tokens[0].Lit? then [tokens[0].c] + Filled(tokens[1..], args)
    else
      assert tokens[0].name == VarNames(tokens)[0];
      assert forall name <- VarNames(tokens[1..]) :: name in VarNames(tokens);
      args[tokens[0].name] + Filled(tokens[1..], args)
  }

  lemma {:induction false} BoundNames(tokens: seq<Token>, values: seq<string>)
    requires |values| == VarCount(tokens)
    ensures forall name :: name in Bindings(tokens, values) <==> name in VarNames(tokens)
  {
    if tokens != [] {
      if tokens[0].Lit? {
        assert VarNames(tokens) == VarNames(tokens[1..]);
        BoundNames(tokens[1..], values);
      } else {
        BoundNames(tokens[1..], values[1..]);
        assert VarNames(tokens) == [tokens[0].name] + VarNames(tokens[1..]);
      }
    }
  }

  /** Each variable is given the value that stands in its place. */
  lemma {:induction false} BoundInPlace(tokens: seq<Token>, values: seq<string>, k: nat)
    requires |values| == VarCount(tokens) && DistinctNames(tokens) && k < |values|
    ensures VarNames(tokens)[k] in Bindings(tokens, values)
    ensures Bindings(tokens, values)[VarNames(tokens)[k]] == values[k]
  {
    BoundNames(tokens, values);
    var names, rest := VarNames(tokens), VarNames(tokens[1..]);
    assert names[k] in names;
    if tokens[0].Lit? {
      assert names == rest;
      BoundInPlace(tokens[1..], values, k);
    } else {
      assert names == [tokens[0].name] + rest;
      assert forall i | 0 <= i < |rest| :: rest[i] == names[i + 1];
      if k > 0 {
        BoundInPlace(tokens[1..], values[1..], k - 1);
        assert names[k] != names[0];
      }
    }
  }

  lemma {:induction false} FilledIsExpanded(tokens: seq<Token>, values: seq<string>, args: map<string, string>)
    requires |values| == VarCount(tokens) && forall name <- VarNames(tokens) :: name in args
    requires forall k | 0 <= k < |values| :: args[VarNames(tokens)[k]] == values[k]
    ensures Filled(tokens, args) == Expand(tokens, values)
  {
    if tokens != [] {
      var names, rest := VarNames(tokens), VarNames(tokens[1..]);
      if tokens[0].Lit? {
        assert names == rest;
        FilledIsExpanded(tokens[1..], values, args);
      } else {
        assert names == [tokens[0].name] + rest;
        assert forall i | 0 <= i < |rest| :: rest[i] == names[i + 1];
        assert args[names[0]] == values[0];
        assert forall name <- rest :: name in names;
        FilledIsExpanded(tokens[1..], values[1..], args);
      }
    }
  }

  /** Arguments for a template and a path: one for each variable, no other, and they spell the path. */
  ghost predicate ArgumentsFor(tokens: seq<Token>, path: string, args: map<string, string>) {
    && (forall name :: name in args <==> name in VarNames(tokens))
    && (forall name <- args :: ValidValue(args[name]))
    && Filled(tokens, args) == path
  }

  /** A match gives each variable what stands in its place in the path. */
  lemma ArgumentsSpellPath(tokens: seq<Token>, path: string)
    requires Match(tokens, path).Some? && DistinctNames(tokens)
    ensures ArgumentsFor(tokens, path, Bindings(tokens, Match(tokens, path).value))
  {
    MatchExpands(tokens, path);
    var values := Match(tokens, path).value;
    var args, names := Bindings(tokens, values), VarNames(tokens);
    BoundNames(tokens, values);
    forall k | 0 <= k < |values|
      ensures names[k] in args && args[names[k]] == values[k]
    {
      BoundInPlace(tokens, values, k);
    }
    FilledIsExpanded(tokens, values, args);
    forall name | name in args
      ensures ValidValue(args[name])
    {
      var k :| 0 <= k < |names| && names[k] == name;
      assert values[k] in values;
    }
  }

  // ------------------------------------------------------------------
  // Answers
  // ------------------------------------------------------------------

  /** The path is what the template says, with something without slashes for each variable. */
  ghost predicate IsOf(path: string, e: Entry) {
    exists values :: Binds(Tokens(e.text, 0), values) && Expand(Tokens(e.text, 0), values) == path
  }

  ghost predicate Takes(e: Entry, path: string, m: Option<Method>) {
    IsOf(path, e) && m.Some? && m.value in e.methods
  }

  /** A template with the handler, and arguments that spell the path unless two variables share a name. */
  ghost predicate IsRight(routes: seq<Entry>, path: string, m: Option<Method>, a: Answer) {
    a.Found? && exists e <- routes ::
      && Takes(e, path, m) && a.text == e.text && a.m == m.value && a.handler == e.methods[a.m]
      && (DistinctNames(Tokens(e.text, 0)) ==> ArgumentsFor(Tokens(e.text, 0), path, a.args))
  }

  ghost predicate AllowsExactly(routes: seq<Entry>, path: string, a: Answer) {
    a.NotAllowed? && exists ms: set<Method> ::
      && (forall m :: m in ms <==> exists e <- routes :: IsOf(path, e) && m in e.methods)
      && a.allow == AllowHeader(ms)
  }

  lemma TakesIs(e: Entry, path: string, m: Option<Method>)
    ensures Matches(e, path) <==> IsOf(path, e)
    ensures Serves(e, path, m) <==> Takes(e, path, m)
  {
    MatchIffExpansion(Tokens(e.text, 0), path);
  }

  /**
   A scan finds a route exactly when some template takes the request, and then the arguments are
   those of that template; it answers 405 exactly when templates match but none has the method, and
   names the methods of those; it answers 404 exactly when no template matches.
   */
  lemma AnswerExactlyWhen(routes: seq<Entry>, path: string, m: Option<Method>)
    ensures var a := Scan(routes, path, m);
      && (a.Found? <==> exists e <- routes :: Takes(e, path, m))
      && (a.Found? ==> IsRight(routes, path, m, a))
      && (a.NotFound? <==> forall e <- routes :: !IsOf(path, e))
      && (a.NotAllowed? <==> (exists e <- routes :: IsOf(path, e)) && forall e <- routes :: !Takes(e, path, m))
      && (a.NotAllowed? ==> AllowsExactly(routes, path, a))
  {
    hide IsOf, Takes, Matches, Serves, AllowHeader;
    var a, i := Scan(routes, path, m), FirstServing(routes, path, m);
    forall e | e in routes
      ensures Matches(e, path) <==> IsOf(path, e)
      ensures Serves(e, path, m) <==> Takes(e, path, m)
    {
      TakesIs(e, path, m);
    }
    CountsMatches(routes, path);
    ServesMatches(routes, path, m);
    if i < |routes| {
      assert routes[i] in routes;
      ServedIsRight(routes, path, m, routes[i]);
    } else {
      AllowedAre(routes, path);
    }
  }

  lemma ServesMatches(routes: seq<Entry>, path: string, m: Option<Method>)
    ensures forall e <- routes :: Serves(e, path, m) ==> Matches(e, path)
  {
  }

  lemma ServedIsRight(routes: seq<Entry>, path: string, m: Option<Method>, e: Entry)
    requires e in routes && Serves(e, path, m)
    ensures IsRight(routes, path, m, Served(e, path, m.value))
  {
    TakesIs(e, path, m);
    if DistinctNames(Tokens(e.text, 0)) {
      ArgumentsSpellPath(Tokens(e.text, 0), path);
    }
    hide Match, Tokens, Takes, ArgumentsFor, DistinctNames, Bindings;
  }

  lemma AllowedAre(routes: seq<Entry>, path: string)
    ensures AllowsExactly(routes, path, NotAllowed(AllowHeader(Allowed(routes, path))))
  {
    hide IsOf, Matches, AllowHeader, Allowed;
    var ms := Allowed(routes, path);
    forall m
      ensures m in ms <==> exists e <- routes :: IsOf(path, e) && m in e.methods
    {
      AllowedIsUnion(routes, path, m);
      forall e | e in routes
        ensures Matches(e, path) <==> IsOf(path, e)
      {
        TakesIs(e, path, Some(m));
      }
    }
  }
}
