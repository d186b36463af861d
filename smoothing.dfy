/**
 * The running average of one series: `np.convolve(series, weights, 'valid')`
 * with `window` uniform weights `1/window`. Values are exact reals here; the
 * source computes in floating point.
 */
module Smoothing {
  import opened Builtins

  /** `x` clamped into `[0, n]`. */
  function Clamp(x: int, n: nat): nat {
    if x < 0 then 0 else if x > n then n else x
  }

  function Sum(s: seq<real>): real {
    if s == [] then 0.0 else Sum(s[..|s| - 1]) + s[|s| - 1]
  }

  /** `np.repeat(1.0, window) / window`. */
  function UniformWeights(window: nat): seq<real>
    requires window > 0
  {
    seq(window, _ => 1.0 / window as real)
  }

  /**
   * Entry `k` of the full discrete convolution of `a` and `v`, that is the
   * sum of `a[i] * v[k - i]` over the first `n` samples `i` of `a` for which
   * `k - i` indexes `v`.
   */
  function ConvolveAt(a: seq<real>, v: seq<real>, k: int, n: nat): real
    requires n <= |a|
  {
    if n == 0 then 0.0
    else ConvolveAt(a, v, k, n - 1) + (if 0 <= k - (n - 1) < |v| then a[n - 1] * v[k - (n - 1)] else 0.0)
  }

  /**
   * `np.convolve(a, v, 'valid')`: the entries of the full convolution where
   * the shorter input overlaps the longer one completely. NumPy swaps the
   * inputs when `v` is the longer one, so there are `|longer| - |shorter| + 1`
   * of them in either case; convolution is symmetric, so the swap does not
   * change the values.
   */
  function ConvolveValid(a: seq<real>, v: seq<real>): (c: seq<real>)
    requires |a| > 0 && |v| > 0
    ensures |c| == Max(|a|, |v|) - Min(|a|, |v|) + 1
  {
    var shorter := Min(|a|, |v|);
    seq(Max(|a|, |v|) - shorter + 1, j => ConvolveAt(a, v, j + shorter - 1, |a|))
  }

  /** The smoothed series `running_average` computes for one input series. */
  function RunningMean(series: seq<real>, window: nat): seq<real>
    requires |series| > 0 && window > 0
  {
    ConvolveValid(series, UniformWeights(window))
  }

  /**
   * Against weights that are all `w`, a partial convolution sum is `w` times
   * the sum of the samples that fall inside the window ending at `k`.
   */
  lemma {:induction false} ConstantConvolveAt(a: seq<real>, v: seq<real>, w: real, k: int, n: nat)
    requires n <= |a|
    requires forall i :: 0 <= i < |v| ==> v[i] == w
    ensures Clamp(k - |v| + 1, n) <= Clamp(k + 1, n)
    ensures ConvolveAt(a, v, k, n) == Sum(a[Clamp(k - |v| + 1, n)..Clamp(k + 1, n)]) * w
  {
    if n > 0 {
      ConstantConvolveAt(a, v, w, k, n - 1);
      var lo := Clamp(k - |v| + 1, n);
      if k - |v| + 1 <= n - 1 <= k {
        WindowGrows(a, lo, n, w);
      } else {
        assert Clamp(k + 1, n) == Clamp(k + 1, n - 1) || Clamp(k + 1, n) == lo;
      }
    }
  }

  /** One more sample inside the window adds its weighted value. */
  lemma WindowGrows(a: seq<real>, lo: nat, n: nat, w: real)
    requires lo < n <= |a|
    ensures Sum(a[lo..n]) * w == Sum(a[lo..n - 1]) * w + a[n - 1] * w
  {
    assert a[lo..n][..n - 1 - lo] == a[lo..n - 1];
    SumSnoc(a[lo..n]);
    Distribute(Sum(a[lo..n - 1]), a[n - 1], w);
  }

  /** The same, for the weights `running_average` uses. */
  lemma UniformConvolveAt(a: seq<real>, window: nat, k: int, n: nat)
    requires window > 0 && n <= |a|
    ensures Clamp(k - window + 1, n) <= Clamp(k + 1, n)
    ensures ConvolveAt(a, UniformWeights(window), k, n)
         == Sum(a[Clamp(k - window + 1, n)..Clamp(k + 1, n)]) * (1.0 / window as real)
  {
    ConstantConvolveAt(a, UniformWeights(window), 1.0 / window as real, k, n);
  }

  lemma SumSnoc(s: seq<real>)
    requires s != []
    ensures Sum(s) == Sum(s[..|s| - 1]) + s[|s| - 1]
  {
  }

  lemma Distribute(x: real, y: real, w: real)
    ensures (x + y) * w == x * w + y * w
  {
  }

  /**
   * When the window fits in the series, the smoothed series has
   * `|series| - window + 1` values and value `j` is the mean of
   * `series[j..j + window]`.
   */
  lemma WindowMean(series: seq<real>, window: nat, j: nat)
    requires 0 < window <= |series| && j <= |series| - window
    ensures |RunningMean(series, window)| == |series| - window + 1
    ensures RunningMean(series, window)[j] == Sum(series[j..j + window]) / window as real
  {
    UniformConvolveAt(series, window, j + window - 1, |series|);
  }

  /**
   * When the window is longer than the series, NumPy convolves the other
   * way round: `window - |series| + 1` values, each the series' total over
   * `window`.
   */
  lemma OversizedWindowMean(series: seq<real>, window: nat, j: nat)
    requires 0 < |series| < window && j <= window - |series|
    ensures |RunningMean(series, window)| == window - |series| + 1
    ensures RunningMean(series, window)[j] == Sum(series) / window as real
  {
    UniformConvolveAt(series, window, j + |series| - 1, |series|);
    assert series[0..|series|] == series;
  }

  /** A window of one leaves the series as it is. */
  lemma UnitWindowKeepsSeries(series: seq<real>)
    requires |series| > 0
    ensures RunningMean(series, 1) == series
  {
    forall j | 0 <= j < |series| ensures RunningMean(series, 1)[j] == series[j] {
      WindowMean(series, 1, j);
      assert series[j..j + 1] == [series[j]];
      assert series[j..j + 1][..0] == [];
    }
  }

  /** The series 1, 2, 3, 4, 5 smoothed over a window of 2. */
  lemma SmoothingExample()
    ensures RunningMean([1.0, 2.0, 3.0, 4.0, 5.0], 2) == [1.5, 2.5, 3.5, 4.5]
  {
    var s := [1.0, 2.0, 3.0, 4.0, 5.0];
    var expected := [1.5, 2.5, 3.5, 4.5];
    forall j | 0 <= j < 4 ensures RunningMean(s, 2)[j] == expected[j] {
      WindowMean(s, 2, j);
      var pair := s[j..j + 2];
      SumSnoc(pair);
      SumSnoc(pair[..1]);
      assert pair[..1][..0] == [];
      assert Sum(pair) == s[j] + s[j + 1];
      assert s[j] + 0.5 == expected[j];
    }
  }
}
