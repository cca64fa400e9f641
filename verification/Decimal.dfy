/** Numbers in print: `str(n)` for naturals, and `f"{n:x}"`. */
module Decimal {
  import opened Wrappers

  const DIGITS: string := "0123456789abcdef"

  /** The digits of `n` to a base up to sixteen, most significant first. */
  function Digits(n: nat, base: nat): (s: string)
    requires 2 <= base <= 16
    ensures s != "" && forall c <- s :: c in DIGITS[..base]
  {
    if n < base then
      assert DIGITS[n] == DIGITS[..base][n];
      [DIGITS[n]]
    else
      assert DIGITS[n % base] == DIGITS[..base][n % base];
      Smaller(n, base);
      Digits(n / base, base) + [DIGITS[n % base]]
  }

  lemma Smaller(n: nat, base: nat)
    requires 2 <= base <= n
    ensures 0 <= n / base < n
  {
  }

  function Str(n: nat): string {
    Digits(n, 10)
  }

  function Hex(n: nat): string {
    Digits(n, 16)
  }

  lemma LengthOf(n: nat, base: nat)
    requires 2 <= base <= 16
    ensures |Digits(n, base)| == if n < base then 1 else |Digits(n / base, base)| + 1
  {
    if n >= base {
      Smaller(n, base);
    }
  }

  function DigitValue(c: char): Option<nat> {
    if '0' <= c <= '9' then Some(c as nat - '0' as nat)
    else if 'a' <= c <= 'f' then Some(c as nat - 'a' as nat + 10)
    else if 'A' <= c <= 'F' then Some(c as nat - 'A' as nat + 10)
    else None
  }

  /** Reads a number; `None` when the text is empty or holds anything but digits of the base. */
  function Number(s: string, base: nat): Option<nat>
    requires 2 <= base <= 16
    decreases |s|
  {
    if s == "" then None
    else
      var d := DigitValue(s[|s| - 1]);
      if d.None? || d.value >= base then None
      else if |s| == 1 then d
      else
        var front := Number(s[..|s| - 1], base);
        if front.None? then None else Some(front.value * base + d.value)
  }

  lemma DigitRoundTrip(d: nat)
    requires d < 16
    ensures DigitValue(DIGITS[d]) == Some(d)
  {
  }

  lemma DivMod(n: nat, base: nat)
    requires base > 0
    ensures n / base * base + n % base == n && n % base < base
  {
  }

  lemma NumberUnfolds(front: string, c: char, base: nat)
    requires 2 <= base <= 16 && front != "" && DigitValue(c).Some? && DigitValue(c).value < base
    requires Number(front, base).Some?
    ensures Number(front + [c], base) == Some(Number(front, base).value * base + DigitValue(c).value)
  {
    var s := front + [c];
    assert s[..|s| - 1] == front && s[|s| - 1] == c;
  }

  /** Printing and reading back is the identity. */
  lemma {:induction false} NumberRoundTrip(n: nat, base: nat)
    requires 2 <= base <= 16
    ensures Number(Digits(n, base), base) == Some(n)
  {
    if n < base {
      DigitRoundTrip(n);
    } else {
      Smaller(n, base);
      DivMod(n, base);
      NumberRoundTrip(n / base, base);
      DigitRoundTrip(n % base);
      hide Number, DigitValue;
      NumberUnfolds(Digits(n / base, base), DIGITS[n % base], base);
    }
  }
}
