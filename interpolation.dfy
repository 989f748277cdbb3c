/** One-dimensional piecewise-linear interpolation over a table of
    breakpoints, with the behaviour of `numpy.interp` under its default
    arguments: linear between neighbouring breakpoints, the first value
    left of the table and the last value right of it. */
module Interpolation {

  /** Every element is smaller than the one after it. */
  predicate Increasing(s: seq<real>) {
    forall i :: 0 < i < |s| ==> s[i - 1] < s[i]
  }

  /** Every element is larger than the one after it. */
  predicate Decreasing(s: seq<real>) {
    forall i :: 0 < i < |s| ==> s[i - 1] > s[i]
  }

  /** Neighbour-wise increase gives increase between any two positions. */
  lemma {:induction false} IncreasingPairwise(s: seq<real>, i: nat, j: nat)
    requires Increasing(s)
    requires i < j < |s|
    ensures s[i] < s[j]
  {
    if i + 1 < j {
      IncreasingPairwise(s, i, j - 1);
    }
  }

  /** Neighbour-wise decrease gives decrease between any two positions. */
  lemma {:induction false} DecreasingPairwise(s: seq<real>, i: nat, j: nat)
    requires Decreasing(s)
    requires i < j < |s|
    ensures s[i] > s[j]
  {
    if i + 1 < j {
      DecreasingPairwise(s, i, j - 1);
    }
  }

  /** The straight line through `(x0, y0)` and `(x1, y1)`, evaluated at `x`. */
  function Lerp(x: real, x0: real, x1: real, y0: real, y1: real): real
    requires x0 < x1
  {
    y0 + (x - x0) * (y1 - y0) / (x1 - x0)
  }

  /** On its segment the line stays between its two end values, strictly
      inside when `x` is strictly inside and the end values differ. */
  lemma LerpBetween(x: real, x0: real, x1: real, y0: real, y1: real)
    requires x0 <= x <= x1 && x0 < x1
    ensures x == x0 ==> Lerp(x, x0, x1, y0, y1) == y0
    ensures x == x1 ==> Lerp(x, x0, x1, y0, y1) == y1
    ensures y0 <= y1 ==> y0 <= Lerp(x, x0, x1, y0, y1) <= y1
    ensures y1 <= y0 ==> y1 <= Lerp(x, x0, x1, y0, y1) <= y0
    ensures x0 < x < x1 && y0 < y1 ==> y0 < Lerp(x, x0, x1, y0, y1) < y1
    ensures x0 < x < x1 && y1 < y0 ==> y1 < Lerp(x, x0, x1, y0, y1) < y0
  {
    var d := x1 - x0;
    var t := (x - x0) / d;
    assert t * d == x - x0;
    if t < 0.0 { assert t * d < 0.0; }
    if t > 1.0 { assert t * d > 1.0 * d; }
    if x < x1 && t == 1.0 { assert t * d == d; }
    assert (x - x0) * (y1 - y0) / d == t * (y1 - y0);
  }

  /** `numpy.interp(x, xs, ys)` for an increasing table `xs` of breakpoints
      and the values `ys` tabulated at them. */
  function Interp(x: real, xs: seq<real>, ys: seq<real>): (r: real)
    requires 1 <= |xs| == |ys|
    requires Increasing(xs)
    ensures x <= xs[0] ==> r == ys[0]
    ensures x >= xs[|xs| - 1] ==> r == ys[|ys| - 1]
    decreases |xs|
  {
    if |xs| == 1 || x <= xs[0] then
      if |xs| > 1 then IncreasingPairwise(xs, 0, |xs| - 1); ys[0] else ys[0]
    else if x <= xs[1] then
      LerpBetween(x, xs[0], xs[1], ys[0], ys[1]);
      if |xs| > 2 then IncreasingPairwise(xs, 1, |xs| - 1); Lerp(x, xs[0], xs[1], ys[0], ys[1])
      else Lerp(x, xs[0], xs[1], ys[0], ys[1])
    else
      Interp(x, xs[1..], ys[1..])
  }

  /** Between two neighbouring breakpoints the interpolant is the straight
      line through the two tabulated points. */
  lemma {:induction false} InterpOnSegment(x: real, xs: seq<real>, ys: seq<real>, k: nat)
    requires 1 <= |xs| == |ys|
    requires Increasing(xs)
    requires k + 1 < |xs|
    requires xs[k] <= x <= xs[k + 1]
    ensures Interp(x, xs, ys) == Lerp(x, xs[k], xs[k + 1], ys[k], ys[k + 1])
  {
    LerpBetween(x, xs[k], xs[k + 1], ys[k], ys[k + 1]);
    if k > 0 {
      IncreasingPairwise(xs, 0, k);
      if k > 1 { IncreasingPairwise(xs, 1, k); }
      if x == xs[1] {
        LerpBetween(x, xs[0], xs[1], ys[0], ys[1]);
      } else {
        InterpOnSegment(x, xs[1..], ys[1..], k - 1);
      }
    }
  }

  /** At a breakpoint the interpolant is the tabulated value, exactly. */
  lemma InterpAtBreakpoint(xs: seq<real>, ys: seq<real>, k: nat)
    requires 1 <= |xs| == |ys|
    requires Increasing(xs)
    requires k < |xs|
    ensures Interp(xs[k], xs, ys) == ys[k]
  {
    if k + 1 < |xs| {
      InterpOnSegment(xs[k], xs, ys, k);
      LerpBetween(xs[k], xs[k], xs[k + 1], ys[k], ys[k + 1]);
    }
  }

  /** Strictly between two neighbouring breakpoints the interpolant lies
      strictly between the two tabulated values (or equals them when they
      coincide). */
  lemma InterpBrackets(x: real, xs: seq<real>, ys: seq<real>, k: nat)
    requires 1 <= |xs| == |ys|
    requires Increasing(xs)
    requires k + 1 < |xs|
    requires xs[k] < x < xs[k + 1]
    ensures ys[k] < ys[k + 1] ==> ys[k] < Interp(x, xs, ys) < ys[k + 1]
    ensures ys[k + 1] < ys[k] ==> ys[k + 1] < Interp(x, xs, ys) < ys[k]
    ensures ys[k] == ys[k + 1] ==> Interp(x, xs, ys) == ys[k]
  {
    InterpOnSegment(x, xs, ys, k);
    LerpBetween(x, xs[k], xs[k + 1], ys[k], ys[k + 1]);
  }

  /** The interpolant never leaves a range that holds every tabulated value. */
  lemma {:induction false} InterpWithin(x: real, xs: seq<real>, ys: seq<real>, lo: real, hi: real)
    requires 1 <= |xs| == |ys|
    requires Increasing(xs)
    requires forall k :: 0 <= k < |ys| ==> lo <= ys[k] <= hi
    ensures lo <= Interp(x, xs, ys) <= hi
  {
    if |xs| > 1 && x > xs[0] {
      if x <= xs[1] {
        LerpBetween(x, xs[0], xs[1], ys[0], ys[1]);
      } else {
        InterpWithin(x, xs[1..], ys[1..], lo, hi);
      }
    }
  }

  /** An increasing sequence lies between its first and its last element. */
  lemma IncreasingBetweenEnds(s: seq<real>)
    requires 1 <= |s| && Increasing(s)
    ensures forall k :: 0 <= k < |s| ==> s[0] <= s[k] <= s[|s| - 1]
  {
    forall k | 0 < k < |s| ensures s[0] < s[k] {
      IncreasingPairwise(s, 0, k);
    }
    forall k | 0 <= k < |s| - 1 ensures s[k] < s[|s| - 1] {
      IncreasingPairwise(s, k, |s| - 1);
    }
  }

  /** A decreasing sequence lies between its last and its first element. */
  lemma DecreasingBetweenEnds(s: seq<real>)
    requires 1 <= |s| && Decreasing(s)
    ensures forall k :: 0 <= k < |s| ==> s[|s| - 1] <= s[k] <= s[0]
  {
    forall k | 0 < k < |s| ensures s[0] > s[k] {
      DecreasingPairwise(s, 0, k);
    }
    forall k | 0 <= k < |s| - 1 ensures s[k] > s[|s| - 1] {
      DecreasingPairwise(s, k, |s| - 1);
    }
  }
}
