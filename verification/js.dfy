/** JavaScript built-in semantics that the frontend helpers rely on. */
module Js {

  /**
   * How `Array.prototype.slice` and `String.prototype.slice` turn an index
   * argument into a position: a negative index counts from the end, and the
   * result is clamped to `0..len`.
   */
  function SliceIndex(n: int, len: nat): (r: nat)
    ensures r <= len
    ensures 0 <= n <= len ==> r == n
    ensures n > len ==> r == len
    ensures n < 0 ==> r == if len + n < 0 then 0 else len + n
  {
    if n < 0 then (if len + n < 0 then 0 else len + n)
    else if n > len then len
    else n
  }

  /** `xs.slice(0, end)`. */
  function SliceTo<T>(xs: seq<T>, end: int): (r: seq<T>)
    ensures |r| == SliceIndex(end, |xs|)
    ensures r == xs[..SliceIndex(end, |xs|)]
  {
    xs[..SliceIndex(end, |xs|)]
  }

  /** `xs.slice(start)`. */
  function SliceFrom<T>(xs: seq<T>, start: int): (r: seq<T>)
    ensures r == xs[SliceIndex(start, |xs|)..]
  {
    xs[SliceIndex(start, |xs|)..]
  }

  /** `xs.slice(0, n)` and `xs.slice(n)` split the array at one position. */
  lemma SliceSplit<T>(xs: seq<T>, n: int)
    ensures SliceTo(xs, n) + SliceFrom(xs, n) == xs
  {
  }

  /** `xs.filter(keep)`: the elements `keep` accepts, in their original order. */
  function Filter<T>(xs: seq<T>, keep: T -> bool): (r: seq<T>)
    ensures |r| <= |xs|
    ensures forall i :: 0 <= i < |r| ==> r[i] in xs && keep(r[i])
    ensures forall i :: 0 <= i < |xs| && keep(xs[i]) ==> xs[i] in r
    decreases |xs|
  {
    if |xs| == 0 then []
    else
      var init := Filter(xs[..|xs| - 1], keep);
      assert xs[..|xs| - 1] + [xs[|xs| - 1]] == xs;
      if keep(xs[|xs| - 1]) then init + [xs[|xs| - 1]] else init
  }

  /** Filtering distributes over concatenation, which is what keeping the order means. */
  lemma {:induction false} FilterAppend<T>(xs: seq<T>, ys: seq<T>, keep: T -> bool)
    ensures Filter(xs + ys, keep) == Filter(xs, keep) + Filter(ys, keep)
    decreases |ys|
  {
    if |ys| == 0 {
      assert xs + ys == xs;
    } else {
      var init := ys[..|ys| - 1];
      assert (xs + ys)[..|xs + ys| - 1] == xs + init;
      FilterAppend(xs, init, keep);
    }
  }

  /** Filtering keeps everything exactly when `keep` accepts every element. */
  lemma {:induction false} FilterKeepsAll<T>(xs: seq<T>, keep: T -> bool)
    requires forall i :: 0 <= i < |xs| ==> keep(xs[i])
    ensures Filter(xs, keep) == xs
    decreases |xs|
  {
    if |xs| > 0 {
      FilterKeepsAll(xs[..|xs| - 1], keep);
      assert xs[..|xs| - 1] + [xs[|xs| - 1]] == xs;
    }
  }

  /** Filtering keeps nothing when `keep` rejects every element. */
  lemma {:induction false} FilterKeepsNone<T>(xs: seq<T>, keep: T -> bool)
    requires forall i :: 0 <= i < |xs| ==> !keep(xs[i])
    ensures Filter(xs, keep) == []
    decreases |xs|
  {
    if |xs| > 0 {
      FilterKeepsNone(xs[..|xs| - 1], keep);
    }
  }
}
