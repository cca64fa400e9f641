/**
 The router of `http/router.py` and the plain-scan dispatcher of `openapi/aio/app.py`.
 */
module Router {
  import opened Wrappers
  import opened UriTemplate
  import Decimal

  datatype Method = CONNECT | DELETE | GET | HEAD | OPTIONS | PATCH | POST | PUT | TRACE

  /** Every method, in the order of their names. */
  const METHODS: seq<Method> := [CONNECT, DELETE, GET, HEAD, OPTIONS, PATCH, POST, PUT, TRACE]

  function Name(m: Method): string {
    match m
    case CONNECT => "CONNECT" case DELETE => "DELETE" case GET => "GET" case HEAD => "HEAD" case OPTIONS => "OPTIONS"
    case PATCH => "PATCH" case POST => "POST" case PUT => "PUT" case TRACE => "TRACE"
  }

  type Handler = nat

  /** One template with its method table. */
  datatype Entry = Entry(text: string, methods: map<Method, Handler>)

  predicate Matches(e: Entry, path: string) {
    Match(Tokens(e.text, 0), path).Some?
  }

  predicate Serves(e: Entry, path: string, m: Option<Method>) {
    Matches(e, path) && m.Some? && m.value in e.methods
  }

  // ------------------------------------------------------------------
  // Registration
  // ------------------------------------------------------------------

  function Find(paths: seq<Entry>, text: string): (i: nat)
    ensures i <= |paths| && (i < |paths| ==> paths[i].text == text)
    ensures forall j | 0 <= j < i :: paths[j].text != text
  {
    if paths == [] || paths[0].text == text then 0 else Find(paths[1..], text) + 1
  }

  /** The handler a table holds for a template and a method. */
  function Registered(paths: seq<Entry>, text: string, m: Method): Option<Handler> {
    var i := Find(paths, text);
    if i < |paths| && m in paths[i].methods then Some(paths[i].methods[m]) else None
  }

  predicate DistinctTexts(paths: seq<Entry>) {
    forall i, j | 0 <= i < j < |paths| :: paths[i].text != paths[j].text
  }

  /** The route builder. */
  class Routes {
    var paths: seq<Entry>

    constructor ()
      ensures paths == []
    {
      paths := [];
    }

    /** `add`: a template met before gets one method more, or a new handler for it. */
    method Add(m: Method, text: string, handler: Handler)
      modifies this
      ensures paths == Added(old(paths), m, text, handler)
    {
      var i := 0;
      while i < |paths| && paths[i].text != text
        invariant 0 <= i <= |paths| && forall j | 0 <= j < i :: paths[j].text != text
      {
        i := i + 1;
      }
      FindIs(paths, text, i);
      if i < |paths| {
        paths := paths[i := Entry(text, paths[i].methods[m := handler])];
      } else {
        paths := paths + [Entry(text, map[m := handler])];
      }
    }
  }

  function Added(paths: seq<Entry>, m: Method, text: string, handler: Handler): seq<Entry> {
    var i := Find(paths, text);
    if i < |paths| then paths[i := Entry(text, paths[i].methods[m := handler])]
    else paths + [Entry(text, map[m := handler])]
  }

  lemma FindIs(paths: seq<Entry>, text: string, i: nat)
    requires i <= |paths| && (i < |paths| ==> paths[i].text == text)
    requires forall j | 0 <= j < i :: paths[j].text != text
    ensures Find(paths, text) == i
  {
  }

  // ------------------------------------------------------------------
  // Compilation
  // ------------------------------------------------------------------

  function Prefix(e: Entry): nat {
    LiteralPrefixLen(e.text)
  }

  /** Puts an entry before everything its key is at least as large as. */
  function Insert(e: Entry, sorted: seq<Entry>): seq<Entry> {
    if sorted == [] || Prefix(sorted[0]) <= Prefix(e) then [e] + sorted
    else [sorted[0]] + Insert(e, sorted[1..])
  }

  /** `sorted(…, key=_literal_prefix_len, reverse=True)`: longest first, stable on ties. */
  function Sort(paths: seq<Entry>): seq<Entry> {
    if paths == [] then [] else Insert(paths[0], Sort(paths[1..]))
  }

  function GroupPrefix(i: nat): string {
    "r" + Decimal.Str(i)
  }

  /** `_reprefixed_regex_source`: the same regex, its groups renamed. */
  function Reprefixed(tokens: seq<Token>, prefix: string): seq<Token> {
    if tokens == [] then []
    else [if tokens[0].Var? then Var(prefix + "_" + tokens[0].name) else tokens[0]] + Reprefixed(tokens[1..], prefix)
  }

  /** The alternatives of the combined regex; without any, a regex that matches nothing. */
  predicate CombinedMatch(alternatives: seq<seq<Token>>, path: string) {
    alternatives != [] && (Match(alternatives[0], path).Some? || CombinedMatch(alternatives[1..], path))
  }

  datatype Compiled = Compiled(routes: seq<Entry>, alternatives: seq<seq<Token>>)

  ghost predicate WellBuilt(r: Compiled) {
    && |r.alternatives| == |r.routes|
    && forall i | 0 <= i < |r.routes| ::
         r.alternatives[i] == Reprefixed(Tokens(r.routes[i].text, 0), GroupPrefix(i))
  }

  /** `from_routes`: duplicates are refused, the rest is sorted and compiled. */
  method FromRoutes(paths: seq<Entry>) returns (r: Option<Compiled>)
    ensures r.None? <==> !DistinctTexts(paths)
    ensures r.Some? ==> r.value.routes == Sort(paths) && WellBuilt(r.value)
  {
    var seen: set<string> := {};
    for i := 0 to |paths|
      invariant DistinctTexts(paths[..i])
      invariant forall t :: t in seen <==> exists j | 0 <= j < i :: paths[j].text == t
    {
      if paths[i].text in seen {
        return None;
      }
      seen := seen + {paths[i].text};
    }
    assert paths[..|paths|] == paths;
    var ordered := Sort(paths);
    var alternatives: seq<seq<Token>> := [];
    for i := 0 to |ordered|
      invariant |alternatives| == i
      invariant forall j | 0 <= j < i ::
        alternatives[j] == Reprefixed(Tokens(ordered[j].text, 0), GroupPrefix(j))
    {
      alternatives := alternatives + [Reprefixed(Tokens(ordered[i].text, 0), GroupPrefix(i))];
    }
    r := Some(Compiled(ordered, alternatives));
  }

  // ------------------------------------------------------------------
  // Dispatch
  // ------------------------------------------------------------------

  datatype Answer =
    | Found(handler: Handler, m: Method, text: string, args: map<string, string>)
    | NotFound
    | NotAllowed(allow: string)
    | Unreachable                    // the assertion at the end of `_match` fails

  function Join(names: seq<string>): string {
    if names == [] then ""
    else if |names| == 1 then names[0]
    else names[0] + ", " + Join(names[1..])
  }

  /** The methods of a set, in the order of their names. */
  function InOrder(ms: set<Method>, order: seq<Method>): seq<Method> {
    if order == [] then []
    else if order[0] in ms then [order[0]] + InOrder(ms, order[1..])
    else InOrder(ms, order[1..])
  }

  function Names(ms: seq<Method>): seq<string> {
    if ms == [] then [] else [Name(ms[0])] + Names(ms[1..])
  }

  /** `_format_allow_header` */
  function AllowHeader(ms: set<Method>): string {
    Join(Names(InOrder(ms, METHODS)))
  }

  /** The methods registered for a path. */
  function Allowed(routes: seq<Entry>, path: string): set<Method> {
    if routes == [] then {}
    else (if Matches(routes[0], path) then routes[0].methods.Keys else {}) + Allowed(routes[1..], path)
  }

  function MatchCount(routes: seq<Entry>, path: string): nat {
    if routes == [] then 0
    else (if Matches(routes[0], path) then 1 else 0) + MatchCount(routes[1..], path)
  }

  function Served(e: Entry, path: string, m: Method): Answer
    requires Serves(e, path, Some(m))
  {
    Found(e.methods[m], m, e.text, Bindings(Tokens(e.text, 0), Match(Tokens(e.text, 0), path).value))
  }

  /** The first entry that serves the path and the method; past the end when there is none. */
  function FirstServing(routes: seq<Entry>, path: string, m: Option<Method>): (i: nat)
    ensures i <= |routes| && (i < |routes| ==> Serves(routes[i], path, m))
    ensures forall j | 0 <= j < i :: !Serves(routes[j], path, m)
  {
    if routes == [] || Serves(routes[0], path, m) then 0 else FirstServing(routes[1..], path, m) + 1
  }

  /** What a scan of a route table answers: the first route that serves, else 405, else 404. */
  function Scan(routes: seq<Entry>, path: string, m: Option<Method>): Answer {
    var i := FirstServing(routes, path, m);
    if i < |routes| then Served(routes[i], path, m.value)
    else if MatchCount(routes, path) == 0 then NotFound
    else NotAllowed(AllowHeader(Allowed(routes, path)))
  }

  /** Several templates match, and the method tables of all of them are empty. */
  predicate Stuck(routes: seq<Entry>, path: string) {
    MatchCount(routes, path) > 1 && Allowed(routes, path) == {}
  }

  /** `Router._match` */
  method SyncMatch(r: Compiled, path: string, m: Option<Method>) returns (answer: Answer)
    requires WellBuilt(r)
    ensures answer == if Stuck(r.routes, path) then Unreachable else Scan(r.routes, path, m)
  {
    hide Match, Tokens, Bindings, AllowHeader, CombinedMatch, WellBuilt, FirstServing;
    CombinedMatchesSome(r, path);
    CountsMatches(r.routes, path);
    if !CombinedMatch(r.alternatives, path) {
      return NotFound;
    }
    var allowed: set<Method> := {};
    var matched := 0;
    var single := None;
    for i := 0 to |r.routes|
      invariant forall j | 0 <= j < i :: !Serves(r.routes[j], path, m)
      invariant allowed + Allowed(r.routes[i..], path) == Allowed(r.routes, path)
      invariant matched + MatchCount(r.routes[i..], path) == MatchCount(r.routes, path)
      invariant matched == 0 ==> allowed == {} && single == None
      invariant matched == 1 ==> single == Some(AllowHeader(allowed))
    {
      assert r.routes[i..][1..] == r.routes[i + 1..];
      var route := r.routes[i];
      var args := Match(Tokens(route.text, 0), path);
      if args.None? {
        continue;
      }
      matched := matched + 1;
      allowed := allowed + route.methods.Keys;
      single := Some(AllowHeader(route.methods.Keys));
      assert matched == 1 ==> allowed == route.methods.Keys;
      if m.None? || m.value !in route.methods {
        continue;
      }
      FirstServingIs(r.routes, path, m, i);
      return Found(route.methods[m.value], m.value, route.text, Bindings(Tokens(route.text, 0), args.value));
    }
    assert r.routes[|r.routes|..] == [];
    FirstServingIs(r.routes, path, m, |r.routes|);
    if matched == 1 {
      return NotAllowed(single.value);
    }
    if allowed != {} {
      return NotAllowed(AllowHeader(allowed));
    }
    return Unreachable;
  }

  /** `_match` of the async app. */
  method AsyncMatch(entries: seq<Entry>, path: string, m: Option<Method>) returns (answer: Answer)
    ensures answer == Scan(entries, path, m)
  {
    hide Match, Tokens, Bindings, AllowHeader, FirstServing;
    CountsMatches(entries, path);
    var any := false;
    var allow: set<Method> := {};
    for i := 0 to |entries|
      invariant forall j | 0 <= j < i :: !Serves(entries[j], path, m)
      invariant any <==> exists j | 0 <= j < i :: Matches(entries[j], path)
      invariant allow + Allowed(entries[i..], path) == Allowed(entries, path)
    {
      assert entries[i..][1..] == entries[i + 1..];
      var args := Match(Tokens(entries[i].text, 0), path);
      if args.None? {
        continue;
      }
      any := true;
      allow := allow + entries[i].methods.Keys;
      if m.None? || m.value !in entries[i].methods {
        continue;
      }
      FirstServingIs(entries, path, m, i);
      return Found(entries[i].methods[m.value], m.value, entries[i].text,
                   Bindings(Tokens(entries[i].text, 0), args.value));
    }
    assert entries[|entries|..] == [];
    FirstServingIs(entries, path, m, |entries|);
    answer := if any then NotAllowed(AllowHeader(allow)) else NotFound;
  }

  lemma FirstServingIs(routes: seq<Entry>, path: string, m: Option<Method>, i: nat)
    requires i <= |routes| && (i < |routes| ==> Serves(routes[i], path, m))
    requires forall j | 0 <= j < i :: !Serves(routes[j], path, m)
    ensures FirstServing(routes, path, m) == i
  {
  }

  lemma {:induction false} CountsMatches(routes: seq<Entry>, path: string)
    ensures MatchCount(routes, path) > 0 <==> exists e <- routes :: Matches(e, path)
    ensures MatchCount(routes, path) == 0 ==> Allowed(routes, path) == {}
  {
    if routes != [] {
      CountsMatches(routes[1..], path);
      assert forall e :: e in routes <==> e == routes[0] || e in routes[1..];
    }
  }

  // ------------------------------------------------------------------
  // The combined regex
  // ------------------------------------------------------------------

  /** Renaming groups changes neither what matches nor what is captured. */
  lemma {:induction false} RenamingIsHarmless(tokens: seq<Token>, prefix: string, path: string)
    ensures Match(Reprefixed(tokens, prefix), path) == Match(tokens, path)
    decreases |tokens|, 0
  {
    if tokens != [] {
      assert Reprefixed(tokens, prefix)[1..] == Reprefixed(tokens[1..], prefix);
      if tokens[0].Lit? {
        if path != "" {
          RenamingIsHarmless(tokens[1..], prefix, path[1..]);
        }
      } else {
        RenamingInGroup(tokens, prefix, path, Run(path));
      }
    }
  }

  lemma {:induction false} RenamingInGroup(tokens: seq<Token>, prefix: string, path: string, n: nat)
    requires tokens != [] && n <= |path|
    ensures TryGroup(Reprefixed(tokens, prefix), path, n) == TryGroup(tokens, path, n)
    decreases |tokens| - 1, n + 1
  {
    if n > 0 {
      assert Reprefixed(tokens, prefix)[1..] == Reprefixed(tokens[1..], prefix);
      RenamingIsHarmless(tokens[1..], prefix, path[n..]);
      RenamingInGroup(tokens, prefix, path, n - 1);
    }
  }

  lemma {:induction false} CombinedIsUnion(alternatives: seq<seq<Token>>, path: string)
    ensures CombinedMatch(alternatives, path) <==> exists a <- alternatives :: Match(a, path).Some?
  {
    if alternatives != [] {
      CombinedIsUnion(alternatives[1..], path);
      assert alternatives[0] in alternatives;
      if a :| a in alternatives[1..] && Match(a, path).Some? {
        assert a in alternatives;
      }
      if a :| a in alternatives && Match(a, path).Some? {
        assert a == alternatives[0] || a in alternatives[1..];
      }
    }
  }

  /** The combined regex accepts a path exactly when some template does. */
  lemma CombinedMatchesSome(r: Compiled, path: string)
    requires WellBuilt(r)
    ensures CombinedMatch(r.alternatives, path) <==> exists e <- r.routes :: Matches(e, path)
  {
    CombinedIsUnion(r.alternatives, path);
    forall i | 0 <= i < |r.routes|
      ensures Match(r.alternatives[i], path).Some? <==> Matches(r.routes[i], path)
    {
      RenamingIsHarmless(Tokens(r.routes[i].text, 0), GroupPrefix(i), path);
    }
    if e :| e in r.routes && Matches(e, path) {
      var i :| 0 <= i < |r.routes| && r.routes[i] == e;
      assert r.alternatives[i] in r.alternatives;
    }
    if a :| a in r.alternatives && Match(a, path).Some? {
      var i :| 0 <= i < |r.alternatives| && r.alternatives[i] == a;
      assert r.routes[i] in r.routes;
    }
  }
}
