/** `Array.prototype.filter` over a sequence, with what it guarantees: every
    kept element passes the callback and sits at a recorded position of the
    input, positions increase, nothing that passes is dropped, and
    filtering commutes with concatenation. */
module Filtering {

  /** The elements that pass `keep`, in their order. */
  function Filter<T>(s: seq<T>, keep: T -> bool): (r: seq<T>)
    ensures |r| <= |s|
  {
    if s == [] then []
    else (if keep(s[0]) then [s[0]] else []) + Filter(s[1..], keep)
  }

  /** The positions of the elements that pass `keep`. */
  function FilterIndices<T>(s: seq<T>, keep: T -> bool): (idx: seq<nat>)
    ensures |idx| == |Filter(s, keep)|
  {
    if s == [] then []
    else
      var shifted := Shift(FilterIndices(s[1..], keep));
      if keep(s[0]) then [0] + shifted else shifted
  }

  function Shift(idx: seq<nat>): (r: seq<nat>)
    ensures |r| == |idx| && forall k :: 0 <= k < |idx| ==> r[k] == idx[k] + 1
  {
    seq(|idx|, k requires 0 <= k < |idx| => idx[k] + 1)
  }

  /** Each kept element passes `keep` and is the element at its recorded
      position. */
  lemma {:induction false} FilterPositions<T>(s: seq<T>, keep: T -> bool)
    ensures forall k :: 0 <= k < |FilterIndices(s, keep)| ==>
              FilterIndices(s, keep)[k] < |s| && keep(s[FilterIndices(s, keep)[k]])
              && Filter(s, keep)[k] == s[FilterIndices(s, keep)[k]]
  {
    if s != [] {
      var tail := s[1..];
      FilterPositions(tail, keep);
      var rest := FilterIndices(tail, keep);
      var idx := FilterIndices(s, keep);
      var d := if keep(s[0]) then 1 else 0;
      assert idx == (if keep(s[0]) then [0] else []) + Shift(rest);
      assert Filter(s, keep) == (if keep(s[0]) then [s[0]] else []) + Filter(tail, keep);
      forall k | 0 <= k < |idx|
        ensures idx[k] < |s| && keep(s[idx[k]]) && Filter(s, keep)[k] == s[idx[k]]
      {
        if k >= d {
          assert idx[k] == rest[k - d] + 1;
          assert s[idx[k]] == tail[rest[k - d]];
          assert Filter(s, keep)[k] == Filter(tail, keep)[k - d];
        }
      }
    }
  }

  /** The recorded positions strictly increase: order is preserved. */
  lemma {:induction false} FilterIncreasing<T>(s: seq<T>, keep: T -> bool)
    ensures forall k, l :: 0 <= k < l < |FilterIndices(s, keep)| ==>
              FilterIndices(s, keep)[k] < FilterIndices(s, keep)[l]
  {
    if s != [] {
      FilterIncreasing(s[1..], keep);
    }
  }

  /** No element that passes `keep` is dropped. */
  lemma {:induction false} FilterComplete<T>(s: seq<T>, keep: T -> bool)
    ensures forall i :: 0 <= i < |s| && keep(s[i]) ==> i in FilterIndices(s, keep)
  {
    if s != [] {
      var tail := s[1..];
      FilterComplete(tail, keep);
      var rest := FilterIndices(tail, keep);
      var shifted := Shift(rest);
      forall i | 1 <= i < |s| && keep(s[i]) ensures i in shifted {
        assert tail[i - 1] == s[i];
        var k :| 0 <= k < |rest| && rest[k] == i - 1;
        assert shifted[k] == i;
      }
    }
  }

  /** When every element passes, the filter keeps them all. */
  lemma {:induction false} FilterAll<T>(s: seq<T>, keep: T -> bool)
    requires forall k :: 0 <= k < |s| ==> keep(s[k])
    ensures Filter(s, keep) == s
  {
    if s != [] {
      FilterAll(s[1..], keep);
      assert [s[0]] + s[1..] == s;
    }
  }

  /** Filtering commutes with concatenation. */
  lemma {:induction false} FilterConcat<T>(a: seq<T>, b: seq<T>, keep: T -> bool)
    ensures Filter(a + b, keep) == Filter(a, keep) + Filter(b, keep)
  {
    if a == [] {
      assert a + b == b;
    } else {
      var head := if keep(a[0]) then [a[0]] else [];
      assert (a + b)[0] == a[0] && (a + b)[1..] == a[1..] + b;
      FilterConcat(a[1..], b, keep);
      calc {
        Filter(a + b, keep);
        head + Filter(a[1..] + b, keep);
        head + (Filter(a[1..], keep) + Filter(b, keep));
        (head + Filter(a[1..], keep)) + Filter(b, keep);
        Filter(a, keep) + Filter(b, keep);
      }
    }
  }
}
