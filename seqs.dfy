/** Sequence helpers: the `reduce((a, b) => a + b, 0)` sum, the mean of a
    window, Math.min/Math.max over a non-empty list, `slice(0, n)` and
    `filter`, with the facts about them that the indicator and payload
    models rely on. */
module Seqs {

  /** Left fold of `+` starting from 0, as `Array.prototype.reduce` does it. */
  function Sum(s: seq<real>): real
  {
    if |s| == 0 then 0.0 else Sum(s[..|s| - 1]) + s[|s| - 1]
  }

  lemma {:induction false} SumAppend(a: seq<real>, b: seq<real>)
    ensures Sum(a + b) == Sum(a) + Sum(b)
  {
    if |b| == 0 {
      assert a + b == a;
    } else {
      assert (a + b)[..|a + b| - 1] == a + b[..|b| - 1];
      SumAppend(a, b[..|b| - 1]);
    }
  }

  /** A sum of |s| terms lies between |s| times a lower and |s| times an upper bound. */
  lemma {:induction false} SumBounds(s: seq<real>, lo: real, hi: real)
    requires forall i :: 0 <= i < |s| ==> lo <= s[i] <= hi
    ensures |s| as real * lo <= Sum(s) <= |s| as real * hi
  {
    if |s| > 0 {
      SumBounds(s[..|s| - 1], lo, hi);
    }
  }

  lemma {:induction false} SumNonNegative(s: seq<real>)
    requires forall i :: 0 <= i < |s| ==> 0.0 <= s[i]
    ensures 0.0 <= Sum(s)
  {
    if |s| > 0 {
      SumNonNegative(s[..|s| - 1]);
    }
  }

  /** Arithmetic mean: the window sum divided by the window length. */
  function Mean(s: seq<real>): real
    requires |s| > 0
  {
    Sum(s) / |s| as real
  }

  /** The mean of a window lies between any lower and upper bound of its elements. */
  lemma MeanBetween(s: seq<real>, lo: real, hi: real)
    requires |s| > 0
    requires forall i :: 0 <= i < |s| ==> lo <= s[i] <= hi
    ensures lo <= Mean(s) <= hi
  {
    SumBounds(s, lo, hi);
    var n := |s| as real;
    assert Sum(s) / n >= lo by {
      assert Sum(s) >= n * lo;
      DivideLowerBound(Sum(s), n, lo);
    }
    assert Sum(s) / n <= hi by {
      assert Sum(s) <= n * hi;
      DivideUpperBound(Sum(s), n, hi);
    }
  }

  lemma DivideLowerBound(x: real, n: real, lo: real)
    requires n > 0.0 && x >= n * lo
    ensures x / n >= lo
  {
    assert x / n * n == x;
  }

  lemma DivideUpperBound(x: real, n: real, hi: real)
    requires n > 0.0 && x <= n * hi
    ensures x / n <= hi
  {
    assert x / n * n == x;
  }

  /** Math.min over a non-empty list. */
  function MinOf(s: seq<real>): (m: real)
    requires |s| > 0
    ensures forall i :: 0 <= i < |s| ==> m <= s[i]
    ensures exists i :: 0 <= i < |s| && m == s[i]
  {
    if |s| == 1 then s[0]
    else
      var rest := MinOf(s[1..]);
      assert forall i :: 1 <= i < |s| ==> s[i] == s[1..][i - 1];
      if s[0] <= rest then s[0] else rest
  }

  /** Math.max over a non-empty list. */
  function MaxOf(s: seq<real>): (m: real)
    requires |s| > 0
    ensures forall i :: 0 <= i < |s| ==> s[i] <= m
    ensures exists i :: 0 <= i < |s| && m == s[i]
  {
    if |s| == 1 then s[0]
    else
      var rest := MaxOf(s[1..]);
      assert forall i :: 1 <= i < |s| ==> s[i] == s[1..][i - 1];
      if s[0] >= rest then s[0] else rest
  }

  /** `s.slice(0, n)`: the first n elements, or all of them when there are fewer. */
  function Take<T>(s: seq<T>, n: nat): (r: seq<T>)
    ensures |r| == if |s| < n then |s| else n
    ensures r <= s
  {
    if |s| <= n then s else s[..n]
  }

  /** `s.filter(keep)`: the kept elements, in their original order. */
  function Filter<T>(s: seq<T>, keep: T -> bool): (r: seq<T>)
    ensures |r| <= |s|
    ensures forall k :: 0 <= k < |r| ==> keep(r[k]) && r[k] in s
  {
    if |s| == 0 then []
    else Filter(s[..|s| - 1], keep) + (if keep(s[|s| - 1]) then [s[|s| - 1]] else [])
  }

  /** The positions of s that `filter` keeps, in increasing order. */
  function KeptIndices<T>(s: seq<T>, keep: T -> bool): (ix: seq<nat>)
    ensures forall k :: 0 <= k < |ix| ==> ix[k] < |s| && keep(s[ix[k]])
    ensures forall k, m :: 0 <= k < m < |ix| ==> ix[k] < ix[m]
  {
    if |s| == 0 then []
    else KeptIndices(s[..|s| - 1], keep) + (if keep(s[|s| - 1]) then [|s| - 1] else [])
  }

  /** Filtering keeps order: the k-th kept element is the element at the k-th kept
      position, the positions increase, and every position whose element passes
      the test is among them. */
  lemma {:induction false} FilterKeepsOrder<T>(s: seq<T>, keep: T -> bool)
    ensures |Filter(s, keep)| == |KeptIndices(s, keep)|
    ensures forall k :: 0 <= k < |Filter(s, keep)| ==> Filter(s, keep)[k] == s[KeptIndices(s, keep)[k]]
    ensures forall i :: 0 <= i < |s| && keep(s[i]) ==> i in KeptIndices(s, keep)
  {
    if |s| > 0 {
      var init, last := s[..|s| - 1], s[|s| - 1];
      FilterKeepsOrder(init, keep);
      assert forall i :: 0 <= i < |init| ==> init[i] == s[i];
      if keep(last) {
        assert Filter(s, keep) == Filter(init, keep) + [last];
        assert KeptIndices(s, keep) == KeptIndices(init, keep) + [|s| - 1];
      } else {
        assert Filter(s, keep) == Filter(init, keep);
        assert KeptIndices(s, keep) == KeptIndices(init, keep);
      }
    }
  }

  /** When every element passes, filtering changes nothing. */
  lemma {:induction false} FilterAllKept<T>(s: seq<T>, keep: T -> bool)
    requires forall i :: 0 <= i < |s| ==> keep(s[i])
    ensures Filter(s, keep) == s
  {
    if |s| > 0 {
      FilterAllKept(s[..|s| - 1], keep);
      assert s[..|s| - 1] + [s[|s| - 1]] == s;
    }
  }
}
