/** Where a character first occurs; shared by the readers of text. */
module Strings {
  /** The position of the first `c`, past the end when there is none. */
  function Position(s: string, c: char): (n: nat)
    ensures n <= |s| && c !in s[..n] && (n < |s| ==> s[n] == c)
  {
    if s == "" || s[0] == c then 0
    else
      assert s[..Position(s[1..], c) + 1] == [s[0]] + s[1..][..Position(s[1..], c)];
      Position(s[1..], c) + 1
  }

  lemma Within(s: string, i: nat, n: nat)
    ensures i < n <= |s| ==> s[i] in s[..n]
  {
    if i < n <= |s| {
      assert s[..n][i] == s[i];
    }
  }

  lemma PositionIs(s: string, c: char, n: nat)
    requires n <= |s| && c !in s[..n] && (n < |s| ==> s[n] == c)
    ensures Position(s, c) == n
  {
    Within(s, Position(s, c), n);
    Within(s, n, Position(s, c));
  }
}
