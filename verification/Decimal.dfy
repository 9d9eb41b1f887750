/**
 Decimal text, as Python's `str(int)` prints it: the ledger spells hold seconds, owner pids and
 redispatch suffixes this way, and two of its arguments need that spelling to be injective.
 */
module Decimal {
  function Digit(d: nat): (c: char)
    requires d < 10
    ensures '0' <= c <= '9'
  {
    '0' + d as char
  }

  predicate IsDigit(c: char) { '0' <= c <= '9' }

  predicate AllDigits(s: string) { forall i | 0 <= i < |s| :: IsDigit(s[i]) }

  /** `str(n)`. */
  function Print(n: nat): (s: string)
    ensures |s| > 0 && AllDigits(s)
    ensures n > 0 ==> s[0] != '0'
  {
    if n < 10 then [Digit(n)] else Print(n / 10) + [Digit(n % 10)]
  }

  /** `int(s)` on a run of digits. */
  function Parse(s: string): nat
    requires AllDigits(s)
  {
    if s == [] then 0 else 10 * Parse(s[..|s| - 1]) + (s[|s| - 1] - '0') as nat
  }

  lemma {:induction false} ParsePrint(n: nat)
    ensures Parse(Print(n)) == n
  {
    if n >= 10 {
      var s := Print(n);
      assert s[..|s| - 1] == Print(n / 10);
      ParsePrint(n / 10);
    }
  }

  lemma PrintInjective(a: nat, b: nat)
    requires Print(a) == Print(b)
    ensures a == b
  {
    ParsePrint(a);
    ParsePrint(b);
  }
}
