/** Facts about sequences, stated once for any element type (at a concrete element
    type the solver reasons about them at a much higher cost). */
module Seqs {

  lemma SplitAround<T>(s: seq<T>, j: nat)
    requires j < |s|
    ensures s == s[..j] + [s[j]] + s[j + 1..]
  {
  }

  lemma ConcatAssoc<T>(a: seq<T>, b: seq<T>, c: seq<T>)
    ensures a <= a + b + c && a + b + c == a + (b + c)
  {
  }

  lemma ConcatAssoc4<T>(h: seq<T>, a: seq<T>, b: seq<T>, c: seq<T>)
    ensures h + (a + b + c) == h + a + b + c
  {
  }

  lemma AppendCongruence<T>(x: seq<T>, a: seq<T>, b: seq<T>, c: seq<T>, d: seq<T>)
    requires x == a + b && a == c && b == d
    ensures x == c + d
  {
  }

  lemma PrefixOfPrefix<T>(s: seq<T>, n: nat, j: nat)
    requires j <= n <= |s|
    ensures s[..n][..j] == s[..j]
    ensures j < n ==> s[..n][j] == s[j]
  {
  }

  lemma SnocParts<T>(s: seq<T>, x: T)
    ensures (s + [x])[..|s|] == s && (s + [x])[|s|] == x && |s + [x]| == |s| + 1
  {
  }

  lemma SnocTwice<T>(s: seq<T>, x: T, y: T)
    ensures s <= s + [x] && s + [x] + [y] == s + [x, y]
  {
  }

  lemma TailOfAppend<T>(a: seq<T>, b: seq<T>)
    requires a != []
    ensures (a + b)[1..] == a[1..] + b
  {
  }

  lemma AppendEmpty<T>(a: seq<T>, b: seq<T>)
    ensures a == [] ==> a + b == b
    ensures b == [] ==> a + b == a
  {
  }

  lemma Slice3<T>(s: seq<T>, a: nat, b: nat, c: nat)
    requires a <= b <= c <= |s|
    ensures s[a..] == s[a..b] + s[b..c] + s[c..]
  {
  }

  lemma SliceParts3<T>(s: seq<T>, i: nat, k: nat, p: nat)
    requires i <= k <= p < |s|
    ensures s[i..p + 1] == s[i..k] + s[k..p] + [s[p]]
  {
  }

  lemma SliceParts5<T>(s: seq<T>, i: nat, k: nat, p: nat, q: nat)
    requires i <= k <= p < q < |s|
    ensures s[i..q + 1] == s[i..k] + s[k..p] + [s[p]] + s[p + 1..q] + [s[q]]
  {
  }
}
