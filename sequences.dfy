/** Facts about sequences and maps used by the folds and in-place updates of
    the other modules. */
module Sequences {
  /** The last element of a concatenation with a non-empty right part, and
      what precedes it; the step of every fold over a concatenation. */
  lemma ConcatInitLast<T>(a: seq<T>, b: seq<T>)
    requires |b| > 0
    ensures (a + b)[..|a + b| - 1] == a + b[..|b| - 1]
    ensures (a + b)[|a + b| - 1] == b[|b| - 1]
  {
    assert (a + b)[..|a + b| - 1] == a + b[..|b| - 1];
  }

  /** Extending a prefix of a sequence by one element. */
  lemma PrefixStep<T>(xs: seq<T>, i: nat)
    requires i < |xs|
    ensures xs[..i + 1] == xs[..i] + [xs[i]]
  {
  }

  /** A map that differs from another only at one existing key is the
      update at that key; the step of every in-place update of one record in
      a table of records. */
  lemma UpdateOneKey<K, V>(m0: map<K, V>, m1: map<K, V>, k: K, v: V)
    requires m1.Keys == m0.Keys && k in m0 && m1[k] == v
    requires forall s :: s in m0 && s != k ==> m1[s] == m0[s]
    ensures m1 == m0[k := v]
  {
  }

  /** A non-empty sequence is its prefix followed by its last element. */
  lemma SplitLast<T>(xs: seq<T>)
    requires |xs| > 0
    ensures xs[..|xs| - 1] + [xs[|xs| - 1]] == xs
  {
  }
}
