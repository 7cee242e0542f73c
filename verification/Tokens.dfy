/** Token strings: the longest common prefix and the facts about prefixes that the
    radix tree is built on.  `a <= b` is Dafny's "a is a prefix of b". */
module Tokens {
  type Token = int
  type Word = seq<Token>

  /** Length of the longest common prefix of two token strings. */
  function Lcp(a: Word, b: Word): (n: nat)
    ensures n <= |a| && n <= |b|
    ensures a[..n] == b[..n]
    ensures n < |a| && n < |b| ==> a[n] != b[n]
  {
    if a == [] || b == [] || a[0] != b[0] then 0
    else
      var m := Lcp(a[1..], b[1..]);
      assert a[..m + 1] == [a[0]] + a[1..][..m];
      assert b[..m + 1] == [b[0]] + b[1..][..m];
      m + 1
  }

  /** Any common prefix is no longer than the longest one. */
  lemma CommonIsShorter(a: Word, b: Word, n: nat)
    requires n <= |a| && n <= |b| && a[..n] == b[..n]
    ensures n <= Lcp(a, b)
  {
    assert forall i | 0 <= i < n :: a[..n][i] == a[i];
    assert forall i | 0 <= i < n :: b[..n][i] == b[i];
  }

  lemma PrefixTrans(a: Word, b: Word, c: Word)
    requires a <= b && b <= c
    ensures a <= c
  {
  }

  /** Two prefixes of the same string are ordered by their lengths. */
  lemma PrefixesOrdered(a: Word, b: Word, c: Word)
    requires a <= c && b <= c && |a| <= |b|
    ensures a <= b
  {
    assert a == c[..|a|] && b == c[..|b|];
  }

  /** A common prefix that cannot be continued is the longest one. */
  lemma LcpIs(a: Word, b: Word, n: nat)
    requires n <= |a| && n <= |b| && a[..n] == b[..n]
    requires n < |a| && n < |b| ==> a[n] != b[n]
    ensures Lcp(a, b) == n
  {
    CommonIsShorter(a, b, n);
    var l := Lcp(a, b);
    assert forall i | 0 <= i < l :: a[..l][i] == a[i] && b[..l][i] == b[i];
  }
}
