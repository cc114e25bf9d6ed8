/**
 * The NumPy reductions the components use, over idealised reals:
 * max, np.convolve in "full" mode, the running mean built from it, and np.median.
 */
module Numerics {

  // ---------------------------------------------------------------------------
  // Built-in max and min of a non-empty sequence

  function Max(s: seq<real>): (m: real)
    requires |s| > 0
    ensures m in s
    ensures forall x :: x in s ==> x <= m
  {
    if |s| == 1 then s[0]
    else
      var t := Max(s[1..]);
      assert forall x :: x in s ==> x == s[0] || x in s[1..];
      if s[0] >= t then s[0] else t
  }

  function Min(s: seq<real>): (m: real)
    requires |s| > 0
    ensures m in s
    ensures forall x :: x in s ==> m <= x
  {
    if |s| == 1 then s[0]
    else
      var t := Min(s[1..]);
      assert forall x :: x in s ==> x == s[0] || x in s[1..];
      if s[0] <= t then s[0] else t
  }

  // ---------------------------------------------------------------------------
  // np.convolve(a, v), mode "full"

  /** The term a[j] * v[m - j] of entry m, zero where m - j falls outside v. */
  function ConvolveTerm(a: seq<real>, v: seq<real>, m: int, j: nat): real
    requires j < |a|
  {
    if 0 <= m - j < |v| then a[j] * v[m - j] else 0.0
  }

  /** The sum of the terms of entry m over the first n samples of a. */
  function ConvolveAt(a: seq<real>, v: seq<real>, m: int, n: nat): real
    requires n <= |a|
  {
    if n == 0 then 0.0 else ConvolveAt(a, v, m, n - 1) + ConvolveTerm(a, v, m, n - 1)
  }

  /** The full discrete linear convolution: |a| + |v| - 1 entries. */
  function Convolve(a: seq<real>, v: seq<real>): (c: seq<real>)
    requires |a| > 0 && |v| > 0
    ensures |c| == |a| + |v| - 1
  {
    seq(|a| + |v| - 1, m => ConvolveAt(a, v, m, |a|))
  }

  /** np.ones((n,)) / n */
  function Boxcar(n: nat): (w: seq<real>)
    requires n > 0
  {
    seq(n, _ => 1.0 / n as real)
  }

  /**
   * runningMeanFast(x, n) = np.convolve(x, np.ones((n,))/n)[(n-1):].
   * NumPy raises on an empty input, so the input is non-empty here; the
   * callers model that exception.
   */
  function RunningMeanFast(x: seq<real>, n: nat): (r: seq<real>)
    requires |x| > 0 && n > 0
    ensures |r| == |x|
  {
    Convolve(x, Boxcar(n))[n - 1..]
  }

  // ---------------------------------------------------------------------------
  // The running mean as a forward window, zero-padded at the tail

  /** x[i], or 0 past the end of x. */
  function Padded(x: seq<real>, i: nat): real
  {
    if i < |x| then x[i] else 0.0
  }

  /** x[k] + x[k+1] + ... + x[k+w-1], indices past the end counting as 0. */
  function WindowSum(x: seq<real>, k: nat, w: nat): real
  {
    if w == 0 then 0.0 else WindowSum(x, k, w - 1) + Padded(x, k + w - 1)
  }

  /** The sum of x[j] over the first n indices j with lo <= j <= hi. */
  function RangeSum(x: seq<real>, lo: int, hi: int, n: nat): real
    requires n <= |x|
  {
    if n == 0 then 0.0
    else RangeSum(x, lo, hi, n - 1) + (if lo <= n - 1 <= hi then x[n - 1] else 0.0)
  }

  lemma {:induction false} RangeSumEmpty(x: seq<real>, lo: int, hi: int, n: nat)
    requires n <= |x| && hi < lo
    ensures RangeSum(x, lo, hi, n) == 0.0
  {
    if n > 0 {
      RangeSumEmpty(x, lo, hi, n - 1);
    }
  }

  lemma {:induction false} RangeSumExtend(x: seq<real>, lo: int, hi: int, n: nat)
    requires n <= |x|
    ensures RangeSum(x, lo, hi + 1, n)
         == RangeSum(x, lo, hi, n) + (if lo <= hi + 1 && 0 <= hi + 1 < n then x[hi + 1] else 0.0)
  {
    if n > 0 {
      RangeSumExtend(x, lo, hi, n - 1);
    }
  }

  lemma {:induction false} WindowSumIsRangeSum(x: seq<real>, k: nat, w: nat)
    ensures WindowSum(x, k, w) == RangeSum(x, k, k + w - 1, |x|)
  {
    if w == 0 {
      RangeSumEmpty(x, k, k - 1, |x|);
    } else {
      WindowSumIsRangeSum(x, k, w - 1);
      RangeSumExtend(x, k, k + w - 2, |x|);
    }
  }

  /** Convolving with a constant kernel scales the windowed sum. */
  lemma {:induction false} ConvolveConstantKernel(x: seq<real>, v: seq<real>, c: real, m: int, n: nat)
    requires n <= |x| && |v| > 0
    requires forall i :: 0 <= i < |v| ==> v[i] == c
    ensures ConvolveAt(x, v, m, n) == c * RangeSum(x, m - |v| + 1, m, n)
  {
    if n > 0 {
      ConvolveConstantKernel(x, v, c, m, n - 1);
      var j := n - 1;
      if 0 <= m - j < |v| {
        assert ConvolveTerm(x, v, m, j) == c * x[j];
      }
    }
  }

  /**
   * Entry k of the running mean is the mean of the window x[k..k+n-1],
   * with the samples past the end of x counted as 0.
   */
  lemma RunningMeanWindow(x: seq<real>, n: nat, k: nat)
    requires |x| > 0 && n > 0 && k < |x|
    ensures RunningMeanFast(x, n)[k] == WindowSum(x, k, n) / n as real
  {
    RunningMeanAsRangeSum(x, n, k);
    WindowSumIsRangeSum(x, k, n);
  }

  lemma RunningMeanAsRangeSum(x: seq<real>, n: nat, k: nat)
    requires |x| > 0 && n > 0 && k < |x|
    ensures RunningMeanFast(x, n)[k] == RangeSum(x, k, k + n - 1, |x|) / n as real
  {
    var w := Boxcar(n);
    var m := k + n - 1;
    assert RunningMeanFast(x, n)[k] == ConvolveAt(x, w, m, |x|);
    ConvolveConstantKernel(x, w, 1.0 / n as real, m, |x|);
    ScaleByReciprocal(RangeSum(x, k, m, |x|), n as real);
  }

  lemma ScaleByReciprocal(s: real, d: real)
    requires d > 0.0
    ensures 1.0 / d * s == s / d
  {
  }

  // ---------------------------------------------------------------------------
  // np.median

  predicate Sorted(s: seq<real>)
  {
    forall i, j :: 0 <= i < j < |s| ==> s[i] <= s[j]
  }

  lemma SortedCons(a: real, t: seq<real>)
    requires Sorted(t) && (t != [] ==> a <= t[0])
    ensures Sorted([a] + t)
  {
  }

  function Insert(x: real, s: seq<real>): seq<real>
  {
    if s == [] || x <= s[0] then [x] + s else [s[0]] + Insert(x, s[1..])
  }

  function SortReals(s: seq<real>): seq<real>
  {
    if s == [] then [] else Insert(s[0], SortReals(s[1..]))
  }

  lemma {:induction false} InsertSorted(x: real, s: seq<real>)
    requires Sorted(s)
    ensures Sorted(Insert(x, s))
    ensures multiset(Insert(x, s)) == multiset(s) + multiset{x}
  {
    InsertPermutation(x, s);
    if s != [] && x > s[0] {
      var t := Insert(x, s[1..]);
      InsertSorted(x, s[1..]);
      InsertHead(x, s[1..]);
      SortedCons(s[0], t);
    }
  }

  /** Inserting adds x and keeps every other element. */
  lemma {:induction false} InsertPermutation(x: real, s: seq<real>)
    ensures multiset(Insert(x, s)) == multiset(s) + multiset{x}
  {
    if s != [] && x > s[0] {
      InsertPermutation(x, s[1..]);
      assert s == [s[0]] + s[1..];
    }
  }

  /** The first element after inserting is x or the old first element. */
  lemma InsertHead(x: real, s: seq<real>)
    ensures |Insert(x, s)| > 0
    ensures Insert(x, s)[0] == x || (s != [] && Insert(x, s)[0] == s[0])
  {
  }

  /** Sorting yields an ordered permutation of its input. */
  lemma {:induction false} SortRealsSorted(s: seq<real>)
    ensures Sorted(SortReals(s))
    ensures multiset(SortReals(s)) == multiset(s)
  {
    if s != [] {
      SortRealsSorted(s[1..]);
      InsertSorted(s[0], SortReals(s[1..]));
      assert s == [s[0]] + s[1..];
    }
  }

  /** An input that is already in order is returned unchanged. */
  lemma {:induction false} SortRealsOfSorted(s: seq<real>)
    requires Sorted(s)
    ensures SortReals(s) == s
  {
    if s != [] {
      SortRealsOfSorted(s[1..]);
      assert s == [s[0]] + s[1..];
    }
  }

  /** The middle element of an ordered sequence, or the mean of the two middle ones. */
  function Middle(t: seq<real>): real
    requires |t| > 0
  {
    var n := |t|;
    if n % 2 == 1 then t[n / 2] else (t[n / 2 - 1] + t[n / 2]) / 2.0
  }

  /** np.median of a non-empty sequence: the middle of the sorted samples, between the smallest and the largest. */
  function Median(s: seq<real>): (m: real)
    requires |s| > 0
    ensures Min(s) <= m <= Max(s)
  {
    MiddleOfSortWithinRange(s);
    Middle(SortReals(s))
  }

  /** The middle of the sorted samples lies between the smallest and the largest sample. */
  lemma MiddleOfSortWithinRange(s: seq<real>)
    requires |s| > 0
    ensures |SortReals(s)| == |s|
    ensures Min(s) <= Middle(SortReals(s)) <= Max(s)
  {
    var t := SortReals(s);
    SortRealsSorted(s);
    var n := |t|;
    assert |t| == |s| by {
      assert |multiset(t)| == |multiset(s)|;
    }
    forall i | 0 <= i < n ensures Min(s) <= t[i] <= Max(s) {
      assert t[i] in multiset(t);
      assert t[i] in s;
    }
    if n % 2 == 0 {
      assert Min(s) <= t[n / 2 - 1] <= Max(s);
      assert Min(s) <= t[n / 2] <= Max(s);
    }
  }

  /** On an ordered grid (a spectrum's wavelength axis) the median is its middle. */
  lemma MedianOfSorted(s: seq<real>)
    requires |s| > 0 && Sorted(s)
    ensures Median(s) == Middle(s)
  {
    SortRealsOfSorted(s);
  }
}
