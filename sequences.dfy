/** Facts about sequences that the trace proofs use as hints. */
module Sequences {

  /** Concatenation regroups freely; stated once so proofs can name the regrouping they need. */
  lemma AppendAssoc<T>(a: seq<T>, b: seq<T>, c: seq<T>)
    ensures a + b + c == a + (b + c)
  {
  }
}
