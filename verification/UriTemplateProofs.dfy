/** What a template matches, and what its text says about that. */
module UriTemplateProofs {
  import opened Wrappers
  import opened UriTemplate

  /** A match binds every variable to a non-empty slash-free value, and expands to the path. */
  lemma {:induction false} MatchExpands(tokens: seq<Token>, path: string)
    requires Match(tokens, path).Some?
    ensures Binds(tokens, Match(tokens, path).value) && Expand(tokens, Match(tokens, path).value) == path
    decreases |tokens|, 0
  {
    if tokens != [] {
      if tokens[0].Lit? {
        MatchExpands(tokens[1..], path[1..]);
      } else {
        GroupExpands(tokens, path, Run(path));
      }
    }
  }

  lemma {:induction false} GroupExpands(tokens: seq<Token>, path: string, n: nat)
    requires tokens != [] && tokens[0].Var? && n <= Run(path) && TryGroup(tokens, path, n).Some?
    ensures Binds(tokens, TryGroup(tokens, path, n).value) && Expand(tokens, TryGroup(tokens, path, n).value) == path
    decreases |tokens| - 1, n + 1
  {
    var rest := Match(tokens[1..], path[n..]);
    if rest.Some? {
      MatchExpands(tokens[1..], path[n..]);
      assert ValidValue(path[..n]) by {
        assert path[..n] == path[..Run(path)][..n];
      }
      assert path[..n] + path[n..] == path;
    } else {
      GroupExpands(tokens, path, n - 1);
    }
  }

  /** Every expansion of a template matches it. */
  lemma {:induction false} ExpansionMatches(tokens: seq<Token>, values: seq<string>)
    requires Binds(tokens, values)
    ensures Match(tokens, Expand(tokens, values)).Some?
    decreases |tokens|, 0
  {
    var path := Expand(tokens, values);
    if tokens != [] {
      if tokens[0].Lit? {
        assert path[1..] == Expand(tokens[1..], values);
        ExpansionMatches(tokens[1..], values);
      } else {
        var n := |values[0]|;
        assert path[..n] == values[0] && path[n..] == Expand(tokens[1..], values[1..]);
        assert values[0] in values;
        SlashFree(path, n);
        ExpansionMatches(tokens[1..], values[1..]);
        GroupFinds(tokens, path, n, Run(path));
      }
    }
  }

  lemma SlashFree(path: string, n: nat)
    requires n <= |path| && '/' !in path[..n]
    ensures n <= Run(path)
  {
  }

  lemma {:induction false} GroupFinds(tokens: seq<Token>, path: string, n: nat, m: nat)
    requires tokens != [] && 0 < n <= m <= |path| && Match(tokens[1..], path[n..]).Some?
    ensures TryGroup(tokens, path, m).Some?
    decreases m
  {
    if n < m {
      GroupFinds(tokens, path, n, m - 1);
    }
  }

  /** A template matches exactly the paths it expands to. */
  lemma MatchIffExpansion(tokens: seq<Token>, path: string)
    ensures Match(tokens, path).Some? <==> exists values :: Binds(tokens, values) && Expand(tokens, values) == path
  {
    if Match(tokens, path).Some? {
      MatchExpands(tokens, path);
    }
    if values :| Binds(tokens, values) && Expand(tokens, values) == path {
      ExpansionMatches(tokens, values);
    }
  }

  /** Of all ways to read a path, the match takes the one whose first values are longest. */
  predicate LongestFirst(a: seq<string>, b: seq<string>)
    requires |a| == |b|
  {
    a == b || (|a[0]| > |b[0]| || (|a[0]| == |b[0]| && LongestFirst(a[1..], b[1..])))
  }

  lemma {:induction false} MatchIsGreedy(tokens: seq<Token>, path: string, values: seq<string>)
    requires Match(tokens, path).Some? && Binds(tokens, values) && Expand(tokens, values) == path
    ensures |Match(tokens, path).value| == |values| && LongestFirst(Match(tokens, path).value, values)
    decreases |tokens|, 0
  {
    MatchExpands(tokens, path);
    if tokens != [] {
      if tokens[0].Lit? {
        assert path[1..] == Expand(tokens[1..], values);
        MatchIsGreedy(tokens[1..], path[1..], values);
      } else {
        var n := |values[0]|;
        assert path[..n] == values[0] && path[n..] == Expand(tokens[1..], values[1..]);
        assert values[0] in values;
        SlashFree(path, n);
        GroupIsGreedy(tokens, path, values, Run(path));
      }
    }
  }

  lemma {:induction false} GroupIsGreedy(tokens: seq<Token>, path: string, values: seq<string>, m: nat)
    requires tokens != [] && tokens[0].Var? && Binds(tokens, values) && Expand(tokens, values) == path
    requires |values[0]| <= m <= Run(path) && TryGroup(tokens, path, m).Some?
    ensures |TryGroup(tokens, path, m).value| == |values| && LongestFirst(TryGroup(tokens, path, m).value, values)
    decreases |tokens| - 1, m + 1
  {
    var n := |values[0]|;
    GroupExpands(tokens, path, m);
    assert path[..n] == values[0] && path[n..] == Expand(tokens[1..], values[1..]);
    ExpansionMatches(tokens[1..], values[1..]);
    var rest := Match(tokens[1..], path[m..]);
    if rest.Some? {
      if m == n {
        MatchIsGreedy(tokens[1..], path[n..], values[1..]);
      }
    } else {
      GroupIsGreedy(tokens, path, values, m - 1);
    }
  }

  // ------------------------------------------------------------------
  // The text of a template
  // ------------------------------------------------------------------

  function Text(tokens: seq<Token>): string {
    if tokens == [] then ""
    else (if tokens[0].Lit? then [tokens[0].c] else "{" + tokens[0].name + "}") + Text(tokens[1..])
  }

  lemma {:induction false} TextConcat(a: seq<Token>, b: seq<Token>)
    ensures Text(a + b) == Text(a) + Text(b)
  {
    if a == [] {
      assert a + b == b;
    } else {
      assert (a + b)[1..] == a[1..] + b;
      TextConcat(a[1..], b);
    }
  }

  lemma {:induction false} TextLits(text: string)
    ensures Text(Lits(text)) == text
  {
    if text != [] {
      TextLits(text[1..]);
    }
  }

  lemma Bracketed(text: string, start: nat, end: nat)
    requires start + 2 < end <= |text| && text[start] == '{' && text[end - 1] == '}'
    ensures text[start..end] == "{" + text[start + 1..end - 1] + "}"
  {
  }

  lemma FoundVar(text: string, from: nat)
    requires from <= |text| && FindVar(text, from).Some?
    ensures var (start, end) := FindVar(text, from).value;
      text[start..end] == "{" + text[start + 1..end - 1] + "}"
    decreases |text| - from
  {
    hide CloseAt;
    if text[from] == '{' && CloseAt(text, from + 1).Some? && CloseAt(text, from + 1).value > from + 1 {
      Bracketed(text, from, CloseAt(text, from + 1).value + 1);
    } else {
      FoundVar(text, from + 1);
    }
  }

  lemma Cut(text: string, from: nat, start: nat, end: nat)
    requires from <= start <= end <= |text|
    ensures text[from..] == text[from..start] + text[start..end] + text[end..]
  {
  }

  lemma TextOfVar(text: string, from: nat)
    requires from <= |text| && FindVar(text, from).Some?
    ensures var (start, end) := FindVar(text, from).value;
      Text([Var(text[start + 1..end - 1])]) == text[start..end]
  {
    var (start, end) := FindVar(text, from).value;
    FoundVar(text, from);
    hide FindVar, CloseAt;
    var v := Var(text[start + 1..end - 1]);
    assert Text([v]) == "{" + v.name + "}" + "";
  }

  lemma TokensUnfold(text: string, from: nat)
    requires from <= |text| && FindVar(text, from).Some?
    ensures var (start, end) := FindVar(text, from).value;
      Tokens(text, from) == Lits(text[from..start]) + [Var(text[start + 1..end - 1])] + Tokens(text, end)
  {
    hide FindVar;
  }

  /** Parsing loses nothing: the tokens spell the template. */
  lemma {:induction false} TokensSpellText(text: string, from: nat)
    requires from <= |text|
    ensures Text(Tokens(text, from)) == text[from..]
    decreases |text| - from
  {
    hide *;
    var found := FindVar(text, from);
    if found.None? {
      NoVariable(text, from);
      TextLits(text[from..]);
    } else {
      var (start, end) := found.value;
      var v := Var(text[start + 1..end - 1]);
      TokensUnfold(text, from);
      TokensSpellText(text, end);
      TextConcat(Lits(text[from..start]) + [v], Tokens(text, end));
      TextConcat(Lits(text[from..start]), [v]);
      TextLits(text[from..start]);
      TextOfVar(text, from);
      Cut(text, from, start, end);
    }
  }

  predicate VarFree(tokens: seq<Token>) {
    forall t <- tokens :: t.Lit?
  }

  /** The literal prefix is the text before the first variable. */
  lemma PrefixOfTokens(text: string)
    ensures var tokens, n := Tokens(text, 0), LiteralPrefixLen(text);
      && n <= |tokens| && n <= |text|
      && tokens[..n] == Lits(text[..n])
      && (n < |tokens| ==> tokens[n].Var?)
      && (VarFree(tokens) <==> n == |text| && n == |tokens|)
  {
    var tokens, n := Tokens(text, 0), LiteralPrefixLen(text);
    if FindVar(text, 0).Some? {
      var (start, end) := FindVar(text, 0).value;
      assert tokens[start] == Var(text[start + 1..end - 1]);
      assert tokens[start] in tokens;
    }
  }

  lemma {:induction false} ExpandLits(text: string, rest: seq<Token>, values: seq<string>)
    ensures Expand(Lits(text) + rest, values) == text + Expand(rest, values)
  {
    if text == [] {
      assert Lits(text) + rest == rest;
    } else {
      assert (Lits(text) + rest)[1..] == Lits(text[1..]) + rest;
      ExpandLits(text[1..], rest, values);
    }
  }

  /** A path matched by a template with variables is longer than its literal prefix. */
  lemma ParameterisedIsShort(text: string, path: string)
    requires Match(Tokens(text, 0), path).Some? && !VarFree(Tokens(text, 0))
    ensures LiteralPrefixLen(text) < |path|
  {
    var tokens, n := Tokens(text, 0), LiteralPrefixLen(text);
    PrefixOfTokens(text);
    MatchExpands(tokens, path);
    var values := Match(tokens, path).value;
    assert tokens == Lits(text[..n]) + tokens[n..];
    ExpandLits(text[..n], tokens[n..], values);
    VarCountLits(text[..n], tokens[n..]);
    assert ValidValue(values[0]);
  }

  lemma {:induction false} VarCountLits(text: string, rest: seq<Token>)
    ensures VarCount(Lits(text) + rest) == VarCount(rest)
  {
    if text == [] {
      assert Lits(text) + rest == rest;
    } else {
      assert (Lits(text) + rest)[1..] == Lits(text[1..]) + rest;
      VarCountLits(text[1..], rest);
    }
  }

  /** A template without variables matches its own text and nothing else. */
  lemma LiteralMatchesItself(text: string, path: string)
    requires VarFree(Tokens(text, 0))
    ensures Match(Tokens(text, 0), path).Some? <==> path == text
  {
    PrefixOfTokens(text);
    assert text[..|text|] == text;
    assert Tokens(text, 0) == Lits(text) by {
      assert Tokens(text, 0)[..|text|] == Tokens(text, 0);
    }
    hide *;
    LitsMatch(text, path);
  }

  lemma LitsMatch(text: string, path: string)
    ensures Match(Lits(text), path).Some? <==> path == text
  {
    assert Lits(text) + [] == Lits(text);
    VarCountLits(text, []);
    ExpandLits(text, [], []);
    if Match(Lits(text), path).Some? {
      MatchExpands(Lits(text), path);
    }
    assert Binds(Lits(text), []);
    hide Match;
    ExpansionMatches(Lits(text), []);
    assert text + "" == text;
  }
}
