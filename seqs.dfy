/** Small facts about sequences, proved once and away from any large terms. */
module Seqs {
  lemma AppendEmpty<T>(s: seq<T>)
    ensures s + [] == s
  {
  }

  lemma AppendAssoc<T>(a: seq<T>, b: seq<T>, c: seq<T>)
    ensures (a + b) + c == a + (b + c)
  {
  }

  lemma TakeAll<T>(s: seq<T>)
    ensures s[..|s|] == s
  {
  }

  lemma TakeOneMore<T>(s: seq<T>, i: nat)
    requires i < |s|
    ensures |s[..i + 1]| == i + 1
    ensures s[..i + 1][..i] == s[..i]
    ensures s[..i + 1][i] == s[i]
  {
  }

  lemma SplitAt<T>(s: seq<T>, i: nat)
    requires i <= |s|
    ensures s[..i] + s[i..] == s
  {
  }

  lemma AppendAssoc4<T>(h: seq<T>, a: seq<T>, b: seq<T>, c: seq<T>)
    ensures h + ((a + b) + c) == ((h + a) + b) + c
  {
  }

  lemma AppendPair<T>(s: seq<T>, a: T, b: T)
    ensures (s + [a]) + [b] == s + [a, b]
  {
  }

  lemma SuffixOf<T>(p: seq<T>, s: seq<T>)
    ensures (p + s)[|p + s| - |s|..] == s
  {
  }

  lemma SuffixExtend<T>(p: seq<T>, d: seq<T>, s: seq<T>)
    requires |s| <= |d| && d[|d| - |s|..] == s
    ensures (p + d)[|p + d| - |s|..] == s
  {
    assert (p + d)[|p + d| - |s|..] == d[|d| - |s|..];
  }
}
