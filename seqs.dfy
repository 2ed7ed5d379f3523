/** Facts about sequence slicing and concatenation, each proved on its own so
    that larger proofs can cite them without unfolding sequence equality. */
module Seqs {
  lemma SliceSnoc<T>(s: seq<T>, lo: int, hi: int)
    requires 0 <= lo < hi <= |s|
    ensures s[lo..hi] == s[lo..hi - 1] + [s[hi - 1]]
  {
  }

  lemma PrefixSnoc<T>(s: seq<T>, i: int)
    requires 0 < i <= |s|
    ensures s[..i] == s[..i - 1] + [s[i - 1]]
  {
  }

  lemma DropLast<T>(s: seq<T>)
    requires |s| > 0
    ensures s == s[..|s| - 1] + [s[|s| - 1]]
  {
  }

  lemma DropLastAppend<T>(a: seq<T>, b: seq<T>)
    requires |b| > 0
    ensures (a + b)[..|a + b| - 1] == a + b[..|b| - 1]
  {
  }

  lemma PrefixOfAppend<T>(a: seq<T>, b: seq<T>)
    ensures (a + b)[..|a|] == a && (a + b)[|a|..] == b
  {
  }

  lemma PrefixOfPrefix<T>(s: seq<T>, n: int, i: int)
    requires 0 <= i <= n <= |s|
    ensures s[..n][..i] == s[..i]
  {
  }

  lemma TakeAll<T>(s: seq<T>)
    ensures s[..|s|] == s
  {
  }

  lemma PrefixTwo<T>(s: seq<T>)
    requires |s| >= 2
    ensures s[..2] == [s[0]] + [s[1]]
  {
  }

  lemma SliceToEnd<T>(s: seq<T>, lo: int)
    requires 0 <= lo <= |s|
    ensures s[lo..|s|] == s[lo..]
  {
  }

  lemma SplitAt<T>(s: seq<T>, k: int)
    requires 0 <= k <= |s|
    ensures s[..k] + s[k..] == s
  {
  }

  lemma AppendAssoc<T>(x: seq<T>, y: seq<T>, z: seq<T>)
    ensures x + y + z == x + (y + z)
  {
  }
}
