/** Sums, means and extrema of real sequences, as `statistics.mean`, `min` and `max` see them. */
module Stats {

  /** The sum of `xs`, accumulated left to right. */
  function Sum(xs: seq<real>): real {
    if |xs| == 0 then 0.0 else Sum(xs[..|xs| - 1]) + xs[|xs| - 1]
  }

  /** The arithmetic mean of a non-empty sequence. */
  function Mean(xs: seq<real>): real
    requires |xs| > 0
  {
    Sum(xs) / |xs| as real
  }

  /** The least element of a non-empty sequence. */
  function Min(xs: seq<real>): (m: real)
    requires |xs| > 0
    ensures forall k :: 0 <= k < |xs| ==> m <= xs[k]
    ensures exists k :: 0 <= k < |xs| && m == xs[k]
  {
    if |xs| == 1 then xs[0]
    else
      var m := Min(xs[..|xs| - 1]);
      if xs[|xs| - 1] < m then xs[|xs| - 1] else m
  }

  /** The greatest element of a non-empty sequence. */
  function Max(xs: seq<real>): (m: real)
    requires |xs| > 0
    ensures forall k :: 0 <= k < |xs| ==> xs[k] <= m
    ensures exists k :: 0 <= k < |xs| && m == xs[k]
  {
    if |xs| == 1 then xs[0]
    else
      var m := Max(xs[..|xs| - 1]);
      if xs[|xs| - 1] > m then xs[|xs| - 1] else m
  }

  /** A sum of elements all at least `lo` and at most `hi` lies between `n * lo` and `n * hi`. */
  lemma {:induction false} SumBounds(xs: seq<real>, lo: real, hi: real)
    requires forall k :: 0 <= k < |xs| ==> lo <= xs[k] <= hi
    ensures |xs| as real * lo <= Sum(xs) <= |xs| as real * hi
  {
    if |xs| > 0 {
      var init := xs[..|xs| - 1];
      assert forall k :: 0 <= k < |init| ==> init[k] == xs[k];
      SumBounds(init, lo, hi);
      assert |xs| as real * lo == |init| as real * lo + lo;
      assert |xs| as real * hi == |init| as real * hi + hi;
    }
  }

  /** Dividing by a positive count keeps a total between `n * lo` and `n * hi` within `[lo, hi]`. */
  lemma DivideBounds(total: real, n: real, lo: real, hi: real)
    requires n > 0.0 && n * lo <= total <= n * hi
    ensures lo <= total / n <= hi
  {
    var m := total / n;
    assert m * n == total;
    assert (m - lo) * n == total - n * lo;
    assert (hi - m) * n == n * hi - total;
  }

  /** The mean of elements that all lie in `[lo, hi]` lies in `[lo, hi]`. */
  lemma MeanWithin(xs: seq<real>, lo: real, hi: real)
    requires |xs| > 0
    requires forall k :: 0 <= k < |xs| ==> lo <= xs[k] <= hi
    ensures lo <= Mean(xs) <= hi
  {
    SumBounds(xs, lo, hi);
    DivideBounds(Sum(xs), |xs| as real, lo, hi);
  }

  /** The mean lies between the least and the greatest element. */
  lemma MeanBounds(xs: seq<real>)
    requires |xs| > 0
    ensures Min(xs) <= Mean(xs) <= Max(xs)
  {
    MeanWithin(xs, Min(xs), Max(xs));
  }

  /** Prices given in minor currency units (cents), converted to major units. */
  function Scaled(cents: seq<int>): (r: seq<real>)
    ensures |r| == |cents|
    ensures forall k :: 0 <= k < |cents| ==> r[k] == cents[k] as real / 100.0
  {
    seq(|cents|, k requires 0 <= k < |cents| => cents[k] as real / 100.0)
  }

  /** The integer sum of `xs`, as JavaScript's `reduce((s, x) => s + x, 0)` computes it. */
  function ReduceSum(xs: seq<int>): int {
    if |xs| == 0 then 0 else ReduceSum(xs[..|xs| - 1]) + xs[|xs| - 1]
  }

  /** Summing the converted prices is converting the summed cents. */
  lemma {:induction false} SumScaled(cents: seq<int>)
    ensures Sum(Scaled(cents)) == ReduceSum(cents) as real / 100.0
  {
    if |cents| > 0 {
      var init := cents[..|cents| - 1];
      assert Scaled(cents)[..|cents| - 1] == Scaled(init);
      SumScaled(init);
    }
  }
}
