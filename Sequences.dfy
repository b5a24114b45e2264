/** Facts about sequences in general, shared by the text and matching modules. */
module Sequences {

  /** Concatenation regrouped; used to keep proofs about long sequences to
      matching terms. */
  lemma Regroup<T>(a: seq<T>, b: seq<T>, c: seq<T>)
    ensures a + b + c == a + (b + c)
  {
  }
}
