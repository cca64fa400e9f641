/**
 URI templates of `http/router.py`: parsing, the literal prefix, and matching a path.  Paths hold
 no newline, so `$` means the end of the path.
 */
module UriTemplate {
  import opened Wrappers

  /** One piece of the regex of a template: an escaped character or a named group `[^/]+`. */
  datatype Token = Lit(c: char) | Var(name: string)

  // ------------------------------------------------------------------
  // Parsing
  // ------------------------------------------------------------------

  /** The first closing brace at or after `from`. */
  function CloseAt(text: string, from: nat): (r: Option<nat>)
    ensures r.Some? ==> from <= r.value < |text| && text[r.value] == '}' && '}' !in text[from..r.value]
    ensures r.None? && from <= |text| ==> '}' !in text[from..]
    decreases |text| - from
  {
    if from >= |text| then None
    else if text[from] == '}' then Some(from)
    else CloseAt(text, from + 1)
  }

  /** `_VAR_PATTERN.search` from `from`: an opening brace, something, a closing brace. */
  function FindVar(text: string, from: nat): (r: Option<(nat, nat)>)
    ensures r.Some? ==> from <= r.value.0 && r.value.0 + 2 < r.value.1 <= |text|
    decreases |text| - from
  {
    if from >= |text| then None
    else if text[from] == '{' && CloseAt(text, from + 1).Some? && CloseAt(text, from + 1).value > from + 1 then
      Some((from, CloseAt(text, from + 1).value + 1))
    else FindVar(text, from + 1)
  }

  function Lits(text: string): (r: seq<Token>)
    ensures |r| == |text| && forall i | 0 <= i < |text| :: r[i] == Lit(text[i])
  {
    if text == [] then [] else [Lit(text[0])] + Lits(text[1..])
  }

  /** The regex built by `parse` from position `from` on. */
  function Tokens(text: string, from: nat): seq<Token>
    requires from <= |text|
    decreases |text| - from
  {
    var found := FindVar(text, from);
    if found.None? then Lits(text[from..])
    else
      var (start, end) := found.value;
      Lits(text[from..start]) + [Var(text[start + 1..end - 1])] + Tokens(text, end)
  }

  /** One variable more of the loop of `parse`. */
  lemma OneVariable(done: seq<Token>, text: string, from: nat)
    requires from <= |text| && FindVar(text, from).Some?
    ensures var (start, end) := FindVar(text, from).value;
      done + Lits(text[from..start]) + [Var(text[start + 1..end - 1])] + Tokens(text, end) == done + Tokens(text, from)
  {
  }

  /** `parse`: the loop over the variables of the template. */
  method Parse(text: string) returns (tokens: seq<Token>)
    ensures tokens == Tokens(text, 0)
  {
    hide *;
    tokens := [];
    var lastEnd := 0;
    var found := FindVar(text, 0);
    ghost var rest := Tokens(text, 0);
    while found.Some?
      invariant lastEnd <= |text| && found == FindVar(text, lastEnd) && rest == Tokens(text, lastEnd)
      invariant tokens + rest == Tokens(text, 0)
      decreases |text| - lastEnd
    {
      OneVariable(tokens, text, lastEnd);
      var (start, end) := found.value;
      tokens := tokens + Lits(text[lastEnd..start]) + [Var(text[start + 1..end - 1])];
      lastEnd, rest := end, Tokens(text, end);
      found := FindVar(text, lastEnd);
    }
    NoVariable(text, lastEnd);
    tokens := tokens + Lits(text[lastEnd..]);
  }

  lemma NoVariable(text: string, from: nat)
    requires from <= |text| && FindVar(text, from).None?
    ensures Tokens(text, from) == Lits(text[from..])
  {
  }

  /** `_literal_prefix_len` */
  function LiteralPrefixLen(text: string): nat {
    if FindVar(text, 0).None? then |text| else FindVar(text, 0).value.0
  }

  // ------------------------------------------------------------------
  // Matching
  // ------------------------------------------------------------------

  /** What `[^/]+` accepts. */
  predicate ValidValue(v: string) {
    v != "" && '/' !in v
  }

  function VarCount(tokens: seq<Token>): nat {
    if tokens == [] then 0 else (if tokens[0].Var? then 1 else 0) + VarCount(tokens[1..])
  }

  /** The template with values in the place of its variables. */
  function Expand(tokens: seq<Token>, values: seq<string>): string {
    if tokens == [] then ""
    else if tokens[0].Lit? then [tokens[0].c] + Expand(tokens[1..], values)
    else if values == [] then ""
    else values[0] + Expand(tokens[1..], values[1..])
  }

  predicate Binds(tokens: seq<Token>, values: seq<string>) {
    |values| == VarCount(tokens) && forall v <- values :: ValidValue(v)
  }

  /** The length of the longest slash-free prefix. */
  function Run(path: string): (n: nat)
    ensures n <= |path| && '/' !in path[..n]
    ensures n < |path| ==> path[n] == '/'
  {
    if path == "" || path[0] == '/' then 0
    else
      assert path[..Run(path[1..]) + 1] == [path[0]] + path[1..][..Run(path[1..])];
      Run(path[1..]) + 1
  }

  /** Anchored regex matching: groups take as much as they can and give back on failure. */
  function Match(tokens: seq<Token>, path: string): Option<seq<string>>
    decreases |tokens|, 0
  {
    if tokens == [] then if path == "" then Some([]) else None
    else if tokens[0].Lit? then
      if path != "" && path[0] == tokens[0].c then Match(tokens[1..], path[1..]) else None
    else TryGroup(tokens, path, Run(path))
  }

  /** Lengths `n`, `n - 1`, ..., 1 for the group in front. */
  function TryGroup(tokens: seq<Token>, path: string, n: nat): Option<seq<string>>
    requires tokens != [] && n <= |path|
    decreases |tokens| - 1, n + 1
  {
    if n == 0 then None
    else
      var rest := Match(tokens[1..], path[n..]);
      if rest.Some? then Some([path[..n]] + rest.value) else TryGroup(tokens, path, n - 1)
  }

  /** `groupdict` */
  function Bindings(tokens: seq<Token>, values: seq<string>): map<string, string> {
    if tokens == [] || values == [] then map[]
    else if tokens[0].Lit? then Bindings(tokens[1..], values)
    else Bindings(tokens[1..], values[1..])[tokens[0].name := values[0]]
  }
}
