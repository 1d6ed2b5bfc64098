/** Decimal numerals, and text cut at a separator. */
module Numerals {

  const DIGITS := "0123456789"

  predicate Digits(k: string) {
    forall i | 0 <= i < |k| :: '0' <= k[i] <= '9'
  }

  predicate IsDecimal(k: string) {
    && |k| > 0
    && Digits(k)
    && (k[0] == '0' ==> |k| == 1)
  }

  function DecimalValue(k: string): nat
    requires Digits(k)
  {
    if k == "" then 0
    else DecimalValue(k[..|k| - 1]) * 10 + (k[|k| - 1] - '0') as nat
  }

  /** The numeral `String(n)` gives. */
  function Decimal(n: nat): (k: string)
    ensures k != "" && Digits(k) && DecimalValue(k) == n
  {
    if n < 10 then [DIGITS[n]]
    else
      var rest, k := Decimal(n / 10), Decimal(n / 10) + [DIGITS[n % 10]];
      assert k[..|k| - 1] == rest;
      k
  }

  lemma DecimalInjective(m: nat, n: nat)
    requires Decimal(m) == Decimal(n)
    ensures m == n
  {
  }

  /** What follows the last `c`, or the whole text. */
  function AfterLast(c: char, s: string): string {
    if s == "" || s[|s| - 1] == c then "" else AfterLast(c, s[..|s| - 1]) + [s[|s| - 1]]
  }

  lemma {:induction false} AfterLastOf(c: char, a: string, x: string)
    requires c !in x
    ensures AfterLast(c, a + [c] + x) == x
  {
    var s := a + [c] + x;
    if x == "" {
      assert s[|s| - 1] == c;
    } else {
      assert s[..|s| - 1] == a + [c] + x[..|x| - 1];
      AfterLastOf(c, a, x[..|x| - 1]);
    }
  }

  lemma FirstCut(c: char, a: string, x: string, b: string, y: string)
    requires a + [c] + x == b + [c] + y && c !in a && c !in b
    ensures a == b && x == y
  {
    var s, t := a + [c] + x, b + [c] + y;
    assert s[|a|] == c && t[|b|] == c;
    assert forall i | 0 <= i < |a| :: s[i] == a[i] && a[i] in a;
    assert forall i | 0 <= i < |b| :: t[i] == b[i] && b[i] in b;
    assert a == s[..|a|] && b == s[..|b|];
    assert x == s[|a| + 1..] && y == s[|b| + 1..];
  }
}
