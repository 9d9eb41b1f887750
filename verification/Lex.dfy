/** Strings in the order Python compares them: by the first differing character, a prefix before its extensions. */
module Lex {
  predicate Less(a: string, b: string) {
    b != [] && (a == [] || a[0] < b[0] || (a[0] == b[0] && Less(a[1..], b[1..])))
  }

  lemma {:induction false} Total(a: string, b: string)
    ensures a == b || Less(a, b) || Less(b, a)
    ensures !(Less(a, b) && Less(b, a)) && !Less(a, a)
  {
    if a != [] && b != [] && a[0] == b[0] {
      Total(a[1..], b[1..]);
      assert a == [a[0]] + a[1..] && b == [b[0]] + b[1..];
    }
    if a != [] { Total(a[1..], a[1..]); }
  }

  /** `k` is where they first differ, or where the first one ends. */
  predicate DecidesAt(a: string, b: string, k: nat) {
    k <= |a| && k < |b| && a[..k] == b[..k] && (k == |a| || (a[k] as int) < b[k] as int)
  }

  lemma {:induction false} FirstDifference(a: string, b: string)
    ensures Less(a, b) <==> exists k: nat :: DecidesAt(a, b, k)
  {
    if a == [] || b == [] || a[0] != b[0] {
      if b != [] && (a == [] || a[0] < b[0]) { assert DecidesAt(a, b, 0); }
    } else {
      FirstDifference(a[1..], b[1..]);
      if k: nat :| DecidesAt(a[1..], b[1..], k) { assert a[..k + 1] == [a[0]] + a[1..][..k] && b[..k + 1] == [b[0]] + b[1..][..k] && DecidesAt(a, b, k + 1); }
      if k: nat :| DecidesAt(a, b, k) {
        assert k > 0 && a[1..][..k - 1] == a[..k][1..] && b[1..][..k - 1] == b[..k][1..] && DecidesAt(a[1..], b[1..], k - 1);
      }
    }
  }

  lemma {:induction false} Transitive(a: string, b: string, c: string)
    requires Less(a, b) && Less(b, c)
    ensures Less(a, c)
  {
    if a != [] && a[0] == b[0] && b[0] == c[0] { Transitive(a[1..], b[1..], c[1..]); }
  }
}
