/** What the readers and writers of texts share. */
module Texts {
  datatype Option<T> = None | Some(value: T)

  predicate IsAlpha(c: char) { 'a' <= c <= 'z' || 'A' <= c <= 'Z' }

  /** The text t is written at position i. */
  predicate Reads(s: string, i: nat, t: string) { i + |t| <= |s| && forall k :: 0 <= k < |t| ==> s[i + k] == t[k] }

  lemma {:induction false} ReadsParts(s: string, i: nat, a: string, b: string)
    requires Reads(s, i, a + b)
    ensures Reads(s, i, a) && Reads(s, i + |a|, b)
  {
    forall k | 0 <= k < |a|
      ensures s[i + k] == a[k]
    {
      assert (a + b)[k] == a[k];
    }
    forall k | 0 <= k < |b|
      ensures s[i + |a| + k] == b[k]
    {
      assert (a + b)[|a| + k] == b[k];
    }
  }

  lemma {:induction false} ReadsAt(s: string, i: nat, t: string, k: nat)
    requires Reads(s, i, t) && k < |t|
    ensures s[i + k] == t[k]
  {
  }
}
