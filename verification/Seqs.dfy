/**
  * Facts about slices and concatenations of sequences, kept in a module of their own so that they stay cheap to
  * use: each is proved once, over arbitrary element types, and called where two sequences have to be equal.
  */
module Seqs {

  lemma Rejoin<T>(s: seq<T>, n: nat, a: seq<T>, b: seq<T>)
    requires n <= |s| && a == s[..n] && b == s[n..]
    ensures a + b == s
  {
  }

  lemma Associate<T>(a: seq<T>, b: seq<T>, c: seq<T>)
    ensures (a + b) + c == a + (b + c)
  {
  }

  lemma Unjoin<T>(a: seq<T>, b: seq<T>)
    ensures (a + b)[..|a|] == a && (a + b)[|a|..] == b
    ensures a != [] ==> (a + b)[0] == a[0]
  {
  }
}
