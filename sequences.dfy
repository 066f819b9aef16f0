/** Facts about sequences that the services' proofs share. */
module Sequences {

  /** Two appends in a row add both elements in order. */
  lemma AppendTwice<T>(s: seq<T>, a: T, b: T)
    ensures s + [a] + [b] == s + [a, b]
  {
  }

  /** Extending a prefix by one takes the next element. */
  lemma PrefixSnoc<T>(s: seq<T>, k: nat)
    requires k < |s|
    ensures s[..k + 1] == s[..k] + [s[k]]
  {
  }

  /** Sequences that differ stay different behind a common prefix. */
  lemma PrefixCancel<T>(p: seq<T>, a: seq<T>, b: seq<T>)
    requires a != b
    ensures p + a != p + b
  {
    assert (p + a)[|p|..] == a;
    assert (p + b)[|p|..] == b;
  }
}
