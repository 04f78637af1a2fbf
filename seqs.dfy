/** Facts about sequences that the proofs about rows and batches share. */
module Seqs {
  lemma TakeDrop<T>(s: seq<T>, n: nat)
    requires n <= |s|
    ensures s[..n] + s[n..] == s
  {
  }

  lemma AppendAssoc<T>(a: seq<T>, b: seq<T>, c: seq<T>)
    ensures (a + b) + c == a + (b + c)
  {
  }

  /** `s` cut around its element `i`. */
  lemma Around<T>(s: seq<T>, i: nat)
    requires i < |s|
    ensures s == s[..i] + ([s[i]] + s[i + 1..])
  {
  }

  /** The middle part of `a + (m + b)`. */
  lemma Middle<T>(a: seq<T>, m: seq<T>, b: seq<T>)
    ensures (a + (m + b))[|a|..|a| + |m|] == m
  {
  }
}
