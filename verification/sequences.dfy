/** Rearrangements of concatenations and slices, stated once over any
    element type so that proofs about histories, events and strings can
    cite them instead of re-deriving them among their own facts. */
module Sequences {

  lemma AppendAssoc<T>(a: seq<T>, b: seq<T>, c: seq<T>)
    ensures a + (b + c) == a + b + c
  {
  }

  lemma AppendThree<T>(a: seq<T>, b: seq<T>, c: seq<T>, d: seq<T>)
    ensures a + b + c + d == a + b + (c + d)
  {
  }

  /** A sequence is its head, a middle slice and the rest. */
  lemma SplitThree<T>(h: seq<T>, n: nat)
    requires 1 <= n <= |h|
    ensures h == [h[0]] + h[1..n] + h[n..]
  {
  }

  /** The head and tail of a concatenation with a non-empty front. */
  lemma ConsAppend<T>(x: seq<T>, rest: seq<T>)
    requires x != []
    ensures (x + rest)[0] == x[0] && (x + rest)[1..] == x[1..] + rest
    ensures [x[0]] + x[1..] == x
  {
  }

  /** Dropping a prefix of the front part of a concatenation. */
  lemma DropAppend<T>(h: seq<T>, t: seq<T>, n: nat)
    requires n <= |h|
    ensures (h + t)[n..] == h[n..] + t
  {
  }
}
