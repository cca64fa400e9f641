/** What registration, compilation and dispatch guarantee together. */
module RouterProofs {
  import opened Wrappers
  import opened UriTemplate
  import opened UriTemplateProofs
  import opened Router
  import opened Strings
  import Decimal

  // ------------------------------------------------------------------
  // Registration
  // ------------------------------------------------------------------

  lemma AddedKeepsTexts(paths: seq<Entry>, m: Method, text: string, handler: Handler)
    requires DistinctTexts(paths)
    ensures DistinctTexts(Added(paths, m, text, handler))
  {
  }

  lemma AddedRegisters(paths: seq<Entry>, m: Method, text: string, handler: Handler, t: string, n: Method)
    ensures Registered(Added(paths, m, text, handler), t, n)
         == if t == text && n == m then Some(handler) else Registered(paths, t, n)
  {
    hide Find;
    var added, i := Added(paths, m, text, handler), Find(paths, t);
    if i == |paths| && t == text {
      FindIs(added, t, |paths|);
    } else if i == |paths| {
      FindIs(added, t, |added|);
    } else {
      FindIs(added, t, i);
    }
  }

  /** `add` registers its handler, changes no other one, and keeps the templates distinct. */
  lemma AddRegisters(paths: seq<Entry>, m: Method, text: string, handler: Handler)
    requires DistinctTexts(paths)
    ensures DistinctTexts(Added(paths, m, text, handler))
    ensures forall t, n :: Registered(Added(paths, m, text, handler), t, n)
                        == if t == text && n == m then Some(handler) else Registered(paths, t, n)
  {
    hide Added, Registered, DistinctTexts;
    AddedKeepsTexts(paths, m, text, handler);
    forall t, n
      ensures Registered(Added(paths, m, text, handler), t, n)
           == if t == text && n == m then Some(handler) else Registered(paths, t, n)
    {
      AddedRegisters(paths, m, text, handler, t, n);
    }
  }

  // ------------------------------------------------------------------
  // The order of the routes
  // ------------------------------------------------------------------

  predicate LongestFirst(routes: seq<Entry>) {
    forall i, j | 0 <= i < j < |routes| :: Prefix(routes[i]) >= Prefix(routes[j])
  }

  function WithPrefix(routes: seq<Entry>, n: nat): seq<Entry> {
    if routes == [] then []
    else if Prefix(routes[0]) == n then [routes[0]] + WithPrefix(routes[1..], n)
    else WithPrefix(routes[1..], n)
  }

  lemma {:induction false} InsertAdds(e: Entry, sorted: seq<Entry>)
    ensures multiset(Insert(e, sorted)) == multiset(sorted) + multiset{e}
    ensures forall o :: o in Insert(e, sorted) <==> o in sorted || o == e
  {
    hide Prefix;
    if sorted != [] {
      assert sorted == [sorted[0]] + sorted[1..];
      InsertAdds(e, sorted[1..]);
    }
  }

  lemma {:induction false} InsertOrders(e: Entry, sorted: seq<Entry>)
    requires LongestFirst(sorted)
    ensures LongestFirst(Insert(e, sorted))
  {
    hide Prefix;
    if sorted != [] && Prefix(sorted[0]) > Prefix(e) {
      var rest := Insert(e, sorted[1..]);
      InsertOrders(e, sorted[1..]);
      InsertAdds(e, sorted[1..]);
      forall i | 0 <= i < |rest|
        ensures Prefix(rest[i]) <= Prefix(sorted[0])
      {
        assert rest[i] in rest;
      }
    }
  }

  lemma {:induction false} InsertIsStable(e: Entry, sorted: seq<Entry>, n: nat)
    requires LongestFirst(sorted)
    ensures WithPrefix(Insert(e, sorted), n) == WithPrefix([e] + sorted, n)
  {
    assert ([e] + sorted)[1..] == sorted;
    if sorted != [] && Prefix(sorted[0]) > Prefix(e) {
      InsertIsStable(e, sorted[1..], n);
      assert ([e] + sorted[1..])[1..] == sorted[1..];
      var inserted := Insert(e, sorted);
      assert inserted[1..] == Insert(e, sorted[1..]);
    }
  }

  /** `sorted`: a permutation by non-increasing prefix that keeps the order among equal prefixes. */
  lemma {:induction false} SortIsStable(paths: seq<Entry>)
    ensures multiset(Sort(paths)) == multiset(paths) && LongestFirst(Sort(paths))
    ensures forall n: nat :: WithPrefix(Sort(paths), n) == WithPrefix(paths, n)
  {
    hide LiteralPrefixLen;
    if paths != [] {
      SortIsStable(paths[1..]);
      InsertOrders(paths[0], Sort(paths[1..]));
      InsertAdds(paths[0], Sort(paths[1..]));
      assert paths == [paths[0]] + paths[1..];
      forall n: nat
        ensures WithPrefix(Sort(paths), n) == WithPrefix(paths, n)
      {
        InsertIsStable(paths[0], Sort(paths[1..]), n);
        assert ([paths[0]] + Sort(paths[1..]))[1..] == Sort(paths[1..]);
      }
    }
  }

  // ------------------------------------------------------------------
  // The chosen route
  // ------------------------------------------------------------------

  function Chosen(routes: seq<Entry>, path: string, m: Option<Method>): Option<Entry> {
    var i := FirstServing(routes, path, m);
    if i < |routes| then Some(routes[i]) else None
  }

  lemma ChosenUnfolds(routes: seq<Entry>, path: string, m: Option<Method>)
    ensures routes == [] ==> Chosen(routes, path, m).None?
    ensures routes != [] ==>
              Chosen(routes, path, m) ==
                if Serves(routes[0], path, m) then Some(routes[0]) else Chosen(routes[1..], path, m)
  {
    hide Serves;
  }

  lemma {:induction false} ChosenAmong(routes: seq<Entry>, path: string, m: Option<Method>)
    requires Chosen(routes, path, m).Some?
    ensures Chosen(WithPrefix(routes, Prefix(Chosen(routes, path, m).value)), path, m) == Chosen(routes, path, m)
  {
    ChosenUnfolds(routes, path, m);
    hide Chosen, Serves, Prefix;
    var n := Prefix(Chosen(routes, path, m).value);
    var among := WithPrefix(routes, n);
    if Prefix(routes[0]) == n {
      ChosenUnfolds(among, path, m);
      assert among[1..] == WithPrefix(routes[1..], n);
    }
    if !Serves(routes[0], path, m) {
      ChosenAmong(routes[1..], path, m);
    }
  }

  /** The route chosen has the longest literal prefix, and was registered first among those. */
  lemma ChosenIsEarliestLongest(paths: seq<Entry>, path: string, m: Option<Method>)
    ensures var c := Chosen(Sort(paths), path, m);
      && (c.None? <==> forall o <- paths :: !Serves(o, path, m))
      && (c.Some? ==> c.value in paths && Serves(c.value, path, m))
      && (c.Some? ==> forall o <- paths :: Serves(o, path, m) ==> Prefix(o) <= Prefix(c.value))
      && (c.Some? ==> Chosen(WithPrefix(paths, Prefix(c.value)), path, m) == c)
  {
    hide Sort, Prefix, WithPrefix, Serves;
    var routes := Sort(paths);
    SortIsStable(paths);
    var i := FirstServing(routes, path, m);
    SameMembers(routes, paths);
    forall o | o in paths && Serves(o, path, m)
      ensures i < |routes| && Prefix(o) <= Prefix(routes[i])
    {
      var j :| 0 <= j < |routes| && routes[j] == o;
    }
    if i < |routes| {
      assert routes[i] in routes;
      ChosenAmong(routes, path, m);
    }
  }

  lemma SameMembers(a: seq<Entry>, b: seq<Entry>)
    requires multiset(a) == multiset(b)
    ensures forall e :: e in a <==> e in b
  {
    forall e
      ensures e in a <==> e in b
    {
      assert e in a <==> e in multiset(a);
      assert e in b <==> e in multiset(b);
    }
  }

  /** A template without variables that spells the path beats every template with variables. */
  lemma LiteralRoutesWin(paths: seq<Entry>, e: Entry, m: Method)
    requires DistinctTexts(paths) && e in paths && m in e.methods && VarFree(Tokens(e.text, 0))
    ensures Chosen(Sort(paths), e.text, Some(m)) == Some(e)
  {
    LiteralMatchesItself(e.text, e.text);
    ChosenIsEarliestLongest(paths, e.text, Some(m));
    var c := Chosen(Sort(paths), e.text, Some(m)).value;
    PrefixOfTokens(e.text);
    if !VarFree(Tokens(c.text, 0)) {
      ParameterisedIsShort(c.text, e.text);
      assert false;
    }
    LiteralMatchesItself(c.text, e.text);
    var i, j :| 0 <= i < |paths| && 0 <= j < |paths| && paths[i] == c && paths[j] == e;
  }

  // ------------------------------------------------------------------
  // The methods that are allowed
  // ------------------------------------------------------------------

  lemma {:induction false} AllowedIsUnion(routes: seq<Entry>, path: string, m: Method)
    ensures m in Allowed(routes, path) <==> exists e <- routes :: Matches(e, path) && m in e.methods
  {
    if routes != [] {
      AllowedIsUnion(routes[1..], path, m);
      assert forall e :: e in routes <==> e == routes[0] || e in routes[1..];
    }
  }

  /** Without empty method tables, the assertion at the end of `_match` is unreachable. */
  lemma NeverStuck(routes: seq<Entry>, path: string)
    requires forall e <- routes :: e.methods.Keys != {}
    ensures !Stuck(routes, path)
  {
    CountsMatches(routes, path);
    if e :| e in routes && Matches(e, path) {
      var m :| m in e.methods.Keys;
      AllowedIsUnion(routes, path, m);
    }
  }

  // ------------------------------------------------------------------
  // The two dispatchers
  // ------------------------------------------------------------------

  function Status(a: Answer): nat {
    match a
    case Found(_, _, _, _) => 200
    case NotFound => 404
    case NotAllowed(_) => 405
    case Unreachable => 500
  }

  /** Whatever the order of a table, a scan gives the same status and the same Allow value. */
  lemma ScansAgree(a: seq<Entry>, b: seq<Entry>, path: string, m: Option<Method>)
    requires multiset(a) == multiset(b)
    ensures Status(Scan(a, path, m)) == Status(Scan(b, path, m))
    ensures Scan(a, path, m).NotAllowed? ==> Scan(a, path, m) == Scan(b, path, m)
  {
    SameMembers(a, b);
    CountsMatches(a, path);
    CountsMatches(b, path);
    assert Allowed(a, path) == Allowed(b, path) by {
      forall n
        ensures n in Allowed(a, path) <==> n in Allowed(b, path)
      {
        AllowedIsUnion(a, path, n);
        AllowedIsUnion(b, path, n);
      }
    }
    var i, j := FirstServing(a, path, m), FirstServing(b, path, m);
    if i < |a| {
      assert a[i] in b;
    }
    if j < |b| {
      assert b[j] in a;
    }
  }

  /** The compiled router and the plain scan of the same table agree on status and Allow value. */
  lemma DispatchersAgree(paths: seq<Entry>, path: string, m: Option<Method>)
    requires forall e <- paths :: e.methods.Keys != {}
    ensures !Stuck(Sort(paths), path)
    ensures Status(Scan(Sort(paths), path, m)) == Status(Scan(paths, path, m))
    ensures Scan(paths, path, m).NotAllowed? ==> Scan(Sort(paths), path, m) == Scan(paths, path, m)
  {
    SortIsStable(paths);
    SameMembers(Sort(paths), paths);
    NeverStuck(Sort(paths), path);
    ScansAgree(paths, Sort(paths), path, m);
  }

  lemma ChosenServes(routes: seq<Entry>, path: string, m: Option<Method>)
    requires Chosen(routes, path, m).Some?
    ensures Chosen(routes, path, m).value in routes && Serves(Chosen(routes, path, m).value, path, m)
  {
  }

  /**
   They choose the same route exactly when no route that serves the request has a longer literal
   prefix than the one registered first.
   */
  lemma SameRouteExactlyWhen(paths: seq<Entry>, path: string, m: Option<Method>)
    requires Chosen(paths, path, m).Some?
    ensures Chosen(Sort(paths), path, m) == Chosen(paths, path, m) <==>
              forall o <- paths :: Serves(o, path, m) ==> Prefix(o) <= Prefix(Chosen(paths, path, m).value)
  {
    hide FirstServing, Serves, Prefix, Sort, WithPrefix, Chosen;
    ChosenServes(paths, path, m);
    ChosenIsEarliestLongest(paths, path, m);
    ChosenAmong(paths, path, m);
  }

  const SLASH_X: Entry := Entry("/{x}", map[GET := 1])
  const SLASH_A: Entry := Entry("/a", map[GET := 2])

  lemma ParametersMatch()
    ensures Tokens("/{x}", 0) == [Lit('/'), Var("x")] && Match(Tokens("/{x}", 0), "/a") == Some(["a"])
    ensures Prefix(SLASH_X) == 1
  {
    var text, tokens := "/{x}", [Lit('/'), Var("x")];
    assert CloseAt(text, 2) == Some(3);
    assert FindVar(text, 0) == FindVar(text, 1) == Some((1, 4));
    assert text[0..1] == "/" && text[2..3] == "x" && text[4..] == "";
    assert Tokens(text, 4) == [];
    ExpandsTo("a");
    ExpansionMatches(tokens, ["a"]);
    MatchExpands(tokens, "/a");
    var values := Match(tokens, "/a").value;
    ExpandsTo(values[0]);
    assert values == [values[0]];
    assert "/a"[1..] == "a" && ("/" + values[0])[1..] == values[0];
  }

  lemma ExpandsTo(v: string)
    ensures VarCount([Lit('/'), Var("x")]) == 1 && Expand([Lit('/'), Var("x")], [v]) == "/" + v
  {
    assert [Lit('/'), Var("x")][1..] == [Var("x")] && [Var("x")][1..] == [];
    assert Expand([Var("x")], [v]) == v + "";
  }

  lemma LiteralMatches()
    ensures Tokens("/a", 0) == [Lit('/'), Lit('a')] && Match(Tokens("/a", 0), "/a") == Some([])
    ensures Prefix(SLASH_A) == 2
  {
    var tokens := [Lit('/'), Lit('a')];
    assert FindVar("/a", 0).None?;
    assert tokens[1..] == [Lit('a')] && tokens[1..][1..] == [] && "/a"[1..] == "a" && "a"[1..] == "";
  }

  /** A parameterised template registered before a literal one: only the router prefers the latter. */
  lemma ScanIgnoresPriority()
    ensures Scan(Sort([SLASH_X, SLASH_A]), "/a", Some(GET)) == Found(2, GET, "/a", map[])
    ensures Scan([SLASH_X, SLASH_A], "/a", Some(GET)) == Found(1, GET, "/{x}", map["x" := "a"])
  {
    ParametersMatch();
    LiteralMatches();
    assert [Lit('/'), Var("x")][1..] == [Var("x")];
    assert Bindings([Lit('/'), Var("x")], ["a"]) == Bindings([Var("x")], ["a"]) == map["x" := "a"];
    hide Match, Tokens, LiteralPrefixLen, Bindings;
    assert [SLASH_X, SLASH_A][1..] == [SLASH_A] && [SLASH_A][1..] == [];
    assert Sort([SLASH_A]) == Insert(SLASH_A, []) == [SLASH_A];
    assert Insert(SLASH_X, [SLASH_A]) == [SLASH_A] + Insert(SLASH_X, []);
    assert Sort([SLASH_X, SLASH_A]) == [SLASH_A, SLASH_X];
    FirstServingIs([SLASH_A, SLASH_X], "/a", Some(GET), 0);
    FirstServingIs([SLASH_X, SLASH_A], "/a", Some(GET), 0);
  }

  // ------------------------------------------------------------------
  // The Allow value
  // ------------------------------------------------------------------

  /** Before, in the order of code points. */
  predicate Before(a: string, b: string) {
    b != "" && (a == "" || a[0] < b[0] || (a[0] == b[0] && Before(a[1..], b[1..])))
  }

  lemma EveryMethod(m: Method)
    ensures m in METHODS
  {
    match m
    case CONNECT => assert METHODS[0] == m;
    case DELETE => assert METHODS[1] == m;
    case GET => assert METHODS[2] == m;
    case HEAD => assert METHODS[3] == m;
    case OPTIONS => assert METHODS[4] == m;
    case PATCH => assert METHODS[5] == m;
    case POST => assert METHODS[6] == m;
    case PUT => assert METHODS[7] == m;
    case TRACE => assert METHODS[8] == m;
  }

  lemma NamesIncrease(i: nat, j: nat)
    requires i < j < |METHODS|
    ensures Before(Name(METHODS[i]), Name(METHODS[j]))
  {
    var a, b := Name(METHODS[i]), Name(METHODS[j]);
    if a[0] == b[0] {
      assert a[0] == 'P' && a[1] < b[1];
      assert a[1..][0] == a[1] && b[1..][0] == b[1];
    }
  }

  predicate Increasing(ms: seq<Method>) {
    forall i, j | 0 <= i < j < |ms| :: Before(Name(ms[i]), Name(ms[j]))
  }

  lemma {:induction false} InOrderLists(ms: set<Method>, order: seq<Method>)
    requires Increasing(order)
    ensures forall m :: m in InOrder(ms, order) <==> m in ms && m in order
    ensures Increasing(InOrder(ms, order))
  {
    if order != [] {
      InOrderLists(ms, order[1..]);
      var rest := InOrder(ms, order[1..]);
      forall i | 0 <= i < |rest|
        ensures Before(Name(order[0]), Name(rest[i]))
      {
        assert rest[i] in order[1..];
        var k :| 0 <= k < |order[1..]| && order[1..][k] == rest[i];
        assert order[k + 1] == rest[i];
      }
    }
  }

  /** The text up to the first ", " is one name, and so on. */
  function Parts(text: string): seq<string> {
    var n := Position(text, ',');
    if n + 2 > |text| then [text] else [text[..n]] + Parts(text[n + 2..])
  }

  lemma {:induction false} JoinSplits(names: seq<string>)
    requires names != [] && forall name <- names :: ',' !in name
    ensures Parts(Join(names)) == names
  {
    var text, first := Join(names), names[0];
    assert first in names;
    if |names| == 1 {
      PositionIs(text, ',', |first|);
    } else {
      assert text[..|first|] == first && text[|first|] == ',' && text[|first| + 2..] == Join(names[1..]);
      PositionIs(text, ',', |first|);
      JoinSplits(names[1..]);
    }
  }

  lemma {:induction false} NamesHaveNoComma(ms: seq<Method>)
    ensures |Names(ms)| == |ms| && forall i | 0 <= i < |ms| :: Names(ms)[i] == Name(ms[i]) && ',' !in Names(ms)[i]
  {
    if ms != [] {
      NamesHaveNoComma(ms[1..]);
    }
  }

  /** The Allow value names exactly the methods of the set, each once, in alphabetical order. */
  lemma AllowNamesExactly(ms: set<Method>)
    requires ms != {}
    ensures exists order ::
              Increasing(order) && (forall m :: m in order <==> m in ms) && Parts(AllowHeader(ms)) == Names(order)
  {
    forall i, j | 0 <= i < j < |METHODS|
      ensures Before(Name(METHODS[i]), Name(METHODS[j]))
    {
      NamesIncrease(i, j);
    }
    InOrderLists(ms, METHODS);
    forall m: Method
      ensures m in METHODS
    {
      EveryMethod(m);
    }
    var order := InOrder(ms, METHODS);
    var m :| m in ms;
    assert m in order;
    NamesHaveNoComma(order);
    JoinSplits(Names(order));
  }

  // ------------------------------------------------------------------
  // The combined regex
  // ------------------------------------------------------------------

  lemma PrefixIsPlain(i: nat)
    ensures '_' !in GroupPrefix(i)
  {
    hide Decimal.Digits;
    assert '_' !in Decimal.DIGITS[..10];
  }

  lemma PrefixesDiffer(i: nat, j: nat)
    ensures GroupPrefix(i) == GroupPrefix(j) <==> i == j
  {
    hide Decimal.Digits, Decimal.Number;
    if GroupPrefix(i) == GroupPrefix(j) {
      assert Decimal.Str(i) == GroupPrefix(i)[1..] && Decimal.Str(j) == GroupPrefix(j)[1..];
      Decimal.NumberRoundTrip(i, 10);
      Decimal.NumberRoundTrip(j, 10);
    }
  }

  /** The part before the first underscore is unique. */
  lemma FirstPart(p: string, q: string, a: string, b: string)
    requires '_' !in p && '_' !in q
    ensures p + "_" + a == q + "_" + b <==> p == q && a == b
    ensures p != q + "_" + b
  {
    var s, t := p + "_" + a, q + "_" + b;
    assert s[..|p|] == p && t[..|q|] == q && s[|p| + 1..] == a && t[|q| + 1..] == b;
    PositionIs(s, '_', |p|);
    PositionIs(t, '_', |q|);
    PositionIs(p, '_', |p|);
    hide Position;
  }

  /** No two groups of the combined regex share a name: `re.compile` would refuse them. */
  lemma GroupNamesAreDistinct(i: nat, j: nat, a: string, b: string)
    ensures GroupPrefix(i) + "_" + a == GroupPrefix(j) + "_" + b <==> i == j && a == b
    ensures GroupPrefix(i) != GroupPrefix(j) + "_" + b
    ensures GroupPrefix(i) == GroupPrefix(j) <==> i == j
  {
    hide GroupPrefix;
    PrefixIsPlain(i);
    PrefixIsPlain(j);
    PrefixesDiffer(i, j);
    FirstPart(GroupPrefix(i), GroupPrefix(j), a, b);
  }
}
