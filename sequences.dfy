/** `Stream.filter` over a sequence, and what it keeps. */
module Sequences {

  /** The elements of `s` that satisfy `p`, in their original order. */
  function Filter<T>(s: seq<T>, p: T -> bool): (r: seq<T>)
    ensures |r| <= |s|
    ensures forall x :: x in r ==> x in s && p(x)
  {
    if s == [] then []
    else (if p(s[0]) then [s[0]] else []) + Filter(s[1..], p)
  }

  /** The conjunction of two predicates: two filters in a row. */
  function And<T>(p: T -> bool, q: T -> bool): (both: T -> bool)
  {
    x => p(x) && q(x)
  }

  /** The positions in `s[from..]` whose element satisfies `p`, ascending. */
  function IndicesFrom<T>(s: seq<T>, p: T -> bool, from: nat): (r: seq<nat>)
    requires from <= |s|
    ensures |r| <= |s| - from
    ensures forall k :: 0 <= k < |r| ==> from <= r[k] < |s|
    decreases |s| - from
  {
    if from == |s| then []
    else (if p(s[from]) then [from] else []) + IndicesFrom(s, p, from + 1)
  }

  /** The positions in `s` whose element satisfies `p`, ascending. */
  function SelectedIndices<T>(s: seq<T>, p: T -> bool): (idx: seq<nat>)
  {
    IndicesFrom(s, p, 0)
  }

  /** An element is kept exactly when it occurs in the input and satisfies the predicate. */
  lemma {:induction false} FilterMembership<T>(s: seq<T>, p: T -> bool, x: T)
    ensures x in Filter(s, p) <==> x in s && p(x)
  {
    if s != [] {
      FilterMembership(s[1..], p, x);
      assert s == [s[0]] + s[1..];
    }
  }

  /** Filtering distributes over concatenation. */
  lemma {:induction false} FilterConcat<T>(a: seq<T>, b: seq<T>, p: T -> bool)
    ensures Filter(a + b, p) == Filter(a, p) + Filter(b, p)
  {
    if a == [] {
      assert a + b == b;
    } else {
      assert (a + b)[0] == a[0];
      assert (a + b)[1..] == a[1..] + b;
      FilterConcat(a[1..], b, p);
    }
  }

  /** Filtering with two predicates that agree on every element gives the same result. */
  lemma {:induction false} FilterCongruent<T>(s: seq<T>, p: T -> bool, q: T -> bool)
    requires forall i :: 0 <= i < |s| ==> p(s[i]) == q(s[i])
    ensures Filter(s, p) == Filter(s, q)
  {
    if s != [] {
      FilterCongruent(s[1..], p, q);
    }
  }

  /** Two filters in a row keep what one filter by the conjunction keeps. */
  lemma {:induction false} FilterFilter<T>(s: seq<T>, p: T -> bool, q: T -> bool)
    ensures Filter(Filter(s, p), q) == Filter(s, And(p, q))
  {
    if s != [] {
      var head := if p(s[0]) then [s[0]] else [];
      FilterConcat(head, Filter(s[1..], p), q);
      FilterFilter(s[1..], p, q);
    }
  }

  /** The order in which two filters are applied does not matter. */
  lemma FilterCommutes<T>(s: seq<T>, p: T -> bool, q: T -> bool)
    ensures Filter(Filter(s, p), q) == Filter(Filter(s, q), p)
  {
    FilterFilter(s, p, q);
    FilterFilter(s, q, p);
    FilterCongruent(s, And(p, q), And(q, p));
  }

  /** Filtering a sequence whose every element passes returns it unchanged. */
  lemma {:induction false} FilterKeepsAll<T>(s: seq<T>, p: T -> bool)
    requires forall i :: 0 <= i < |s| ==> p(s[i])
    ensures Filter(s, p) == s
  {
    if s != [] {
      FilterKeepsAll(s[1..], p);
    }
  }

  /** Every kept element satisfies `q` exactly when every element of the input
      that satisfies `p` does. */
  lemma {:induction false} FilterAll<T>(s: seq<T>, p: T -> bool, q: T -> bool)
    ensures (forall k :: 0 <= k < |Filter(s, p)| ==> q(Filter(s, p)[k])) <==>
            (forall i :: 0 <= i < |s| && p(s[i]) ==> q(s[i]))
  {
    if s != [] {
      FilterAll(s[1..], p, q);
      var out, head, rest := Filter(s, p), if p(s[0]) then [s[0]] else [], Filter(s[1..], p);
      assert out == head + rest;
      if forall k :: 0 <= k < |out| ==> q(out[k]) {
        forall k | 0 <= k < |rest| ensures q(rest[k]) {
          assert rest[k] == out[k + |head|];
        }
        forall i | 0 <= i < |s| && p(s[i]) ensures q(s[i]) {
          if i == 0 {
            assert out[0] == s[0];
          } else {
            assert s[1..][i - 1] == s[i];
          }
        }
      }
      if forall i :: 0 <= i < |s| && p(s[i]) ==> q(s[i]) {
        forall i | 0 <= i < |s[1..]| && p(s[1..][i]) ensures q(s[1..][i]) {
          assert s[1..][i] == s[i + 1];
        }
        forall k | 0 <= k < |out| ensures q(out[k]) {
          if k >= |head| {
            assert out[k] == rest[k - |head|];
          } else {
            assert out[k] == s[0] && p(s[0]);
          }
        }
      }
    }
  }

  /** The positions are strictly increasing and include every position from
      `from` on whose element satisfies `p`. */
  lemma {:induction false} IndicesFromOrdered<T>(s: seq<T>, p: T -> bool, from: nat)
    requires from <= |s|
    ensures forall k, l :: 0 <= k < l < |IndicesFrom(s, p, from)| ==>
              IndicesFrom(s, p, from)[k] < IndicesFrom(s, p, from)[l]
    ensures forall i :: from <= i < |s| && p(s[i]) ==> i in IndicesFrom(s, p, from)
    decreases |s| - from
  {
    if from < |s| {
      IndicesFromOrdered(s, p, from + 1);
    }
  }

  /** Filtering a suffix: its first element, if kept, then the filtered rest. */
  lemma FilterFrom<T>(s: seq<T>, p: T -> bool, from: nat)
    requires from < |s|
    ensures Filter(s[from..], p) == (if p(s[from]) then [s[from]] else []) + Filter(s[from + 1..], p)
  {
    assert s[from..][0] == s[from];
    assert s[from..][1..] == s[from + 1..];
  }

  /** The element of the filter's output at position k is the input element at
      the k-th selected position. */
  lemma {:induction false} IndicesFromSelect<T>(s: seq<T>, p: T -> bool, from: nat)
    requires from <= |s|
    ensures |IndicesFrom(s, p, from)| == |Filter(s[from..], p)|
    ensures forall k :: 0 <= k < |IndicesFrom(s, p, from)| ==>
              Filter(s[from..], p)[k] == s[IndicesFrom(s, p, from)[k]]
    decreases |s| - from
  {
    if from < |s| {
      IndicesFromSelect(s, p, from + 1);
      FilterFrom(s, p, from);
      var idx, rest := IndicesFrom(s, p, from), IndicesFrom(s, p, from + 1);
      var out, kept := Filter(s[from..], p), Filter(s[from + 1..], p);
      if p(s[from]) {
        assert idx == [from] + rest && out == [s[from]] + kept;
        forall k | 1 <= k < |idx|
          ensures out[k] == s[idx[k]]
        {
          assert idx[k] == rest[k - 1] && out[k] == kept[k - 1];
        }
      }
    }
  }

  /** The filter's output is a subsequence of its input: the kept elements sit at
      strictly increasing positions of the input, every one of them satisfies the
      predicate, and every position whose element satisfies it is among them. */
  lemma FilterSelects<T>(s: seq<T>, p: T -> bool)
    ensures |SelectedIndices(s, p)| == |Filter(s, p)|
    ensures forall k :: 0 <= k < |SelectedIndices(s, p)| ==>
              SelectedIndices(s, p)[k] < |s| &&
              Filter(s, p)[k] == s[SelectedIndices(s, p)[k]] &&
              p(s[SelectedIndices(s, p)[k]])
    ensures forall k, l :: 0 <= k < l < |SelectedIndices(s, p)| ==>
              SelectedIndices(s, p)[k] < SelectedIndices(s, p)[l]
    ensures forall i :: 0 <= i < |s| && p(s[i]) ==> i in SelectedIndices(s, p)
  {
    IndicesFromOrdered(s, p, 0);
    IndicesFromSelect(s, p, 0);
    assert s[0..] == s;
    var idx := SelectedIndices(s, p);
    forall k | 0 <= k < |idx|
      ensures p(s[idx[k]])
    {
      assert Filter(s, p)[k] in Filter(s, p);
    }
  }
}
