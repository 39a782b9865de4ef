/**
 Feature standardization of the mileage column and the inverse mapping of
 fitted coefficients back to raw units (train.go `standardize` and the
 unscale step at the end of `train`; main.go carries the same code).
 */
module Standardizer {
  import opened Sums
  import opened LinearModel

  /** The trainer's derived state: mean and population standard deviation of
      the raw mileages, the z-scored mileages and the (unchanged) prices. */
  datatype Standardized = Standardized(
    mean: real,
    stddev: real,
    mileages: seq<real>,
    prices: seq<real>)

  /** `s` is the standardization of `raw`: its mean times n is the sum, its
      stddev is a positive root of the population variance, and every z-score
      is `(x - mean) / stddev`, index for index. */
  predicate Standardizes(raw: seq<real>, s: Standardized)
  {
    var n := |raw| as real;
    && |raw| > 0
    && s.mean * n == Sum(raw)
    && s.stddev > 0.0
    && s.stddev * s.stddev * n == SquaredDeviations(raw, s.mean)
    && |s.mileages| == |raw|
    && forall i :: 0 <= i < |raw| ==> s.mileages[i] == (raw[i] - s.mean) / s.stddev
  }

  /** Second pass: `variance += diff * diff` with `diff = m - mean`. */
  method SquaredDeviationsLoop(xs: seq<real>, mean: real) returns (variance: real)
    ensures variance == SquaredDeviations(xs, mean)
  {
    ghost var devs := Squares(Shift(xs, mean));
    variance := 0.0;
    var i := 0;
    while i < |xs|
      invariant 0 <= i <= |xs|
      invariant variance == Sum(devs[..i])
    {
      SumStep(devs, i);
      var diff := xs[i] - mean;
      variance := variance + diff * diff;
      i := i + 1;
    }
    assert devs[..i] == devs;
  }

  /** Third pass: append `(m - mean) / stddev` for every raw mileage, in order. */
  method ZScoresLoop(xs: seq<real>, mean: real, stddev: real) returns (zs: seq<real>)
    requires stddev != 0.0
    ensures |zs| == |xs|
    ensures forall k :: 0 <= k < |xs| ==> zs[k] == (xs[k] - mean) / stddev
  {
    zs := [];
    var i := 0;
    while i < |xs|
      invariant 0 <= i <= |xs|
      invariant |zs| == i
      invariant forall k :: 0 <= k < i ==> zs[k] == (xs[k] - mean) / stddev
    {
      var scaled := (xs[i] - mean) / stddev;
      zs := zs + [scaled];
      i := i + 1;
    }
  }

  /** `standardize`: the three passes in order, then the prices are carried
      over unchanged. `sqrt` stands for `math.Sqrt`; only its value at the
      population variance matters. */
  method Standardize(rawMileages: seq<real>, rawPrices: seq<real>, sqrt: real -> real)
    returns (s: Standardized)
    requires |rawMileages| > 0
    requires sqrt(Variance(rawMileages)) > 0.0
    requires sqrt(Variance(rawMileages)) * sqrt(Variance(rawMileages)) == Variance(rawMileages)
    ensures Standardizes(rawMileages, s)
    ensures s.stddev == sqrt(Variance(rawMileages))
    ensures s.prices == rawPrices
  {
    var n := |rawMileages| as real;
    var sum := SumInOrder(rawMileages);
    var mean := sum / n;
    assert mean == Mean(rawMileages);
    var variance := SquaredDeviationsLoop(rawMileages, mean);
    assert variance / n == Variance(rawMileages);
    var stddev := sqrt(variance / n);
    DivMulCancel(variance, n);
    assert stddev * stddev * n == variance;
    var mileages := ZScoresLoop(rawMileages, mean, stddev);
    s := Standardized(mean, stddev, mileages, rawPrices);
  }

  /** Multiplying the z-scores back by `stddev` gives the deviations from the mean. */
  lemma {:induction false} ZScoresTimesStddev(raw: seq<real>, s: Standardized)
    requires Standardizes(raw, s)
    ensures Scale(s.mileages, s.stddev) == Shift(raw, s.mean)
  {
    forall i | 0 <= i < |raw|
      ensures Scale(s.mileages, s.stddev)[i] == Shift(raw, s.mean)[i]
    {
      DivMulCancel(raw[i] - s.mean, s.stddev);
    }
  }

  /** The z-scores sum to zero. */
  lemma {:induction false} ZScoresSumToZero(raw: seq<real>, s: Standardized)
    requires Standardizes(raw, s)
    ensures Sum(s.mileages) == 0.0
  {
    ZScoresTimesStddev(raw, s);
    SumScale(s.mileages, s.stddev);
    SumShift(raw, s.mean);
    assert s.stddev * Sum(s.mileages) == s.stddev * 0.0;
    CancelPositive(s.stddev, Sum(s.mileages), 0.0);
  }

  /** The squared z-scores sum to n. */
  lemma {:induction false} ZScoresSquaresSumToCount(raw: seq<real>, s: Standardized)
    requires Standardizes(raw, s)
    ensures Sum(Squares(s.mileages)) == |raw| as real
  {
    ZScoresTimesStddev(raw, s);
    SumSquaresScale(s.mileages, s.stddev);
    calc {
      s.stddev * s.stddev * Sum(Squares(s.mileages));
      Sum(Squares(Scale(s.mileages, s.stddev)));
      SquaredDeviations(raw, s.mean);
      s.stddev * s.stddev * (|raw| as real);
    }
    CancelSquare(s.stddev, Sum(Squares(s.mileages)), |raw| as real);
  }

  /** Standardized mileages have mean 0 and population variance 1. */
  lemma {:induction false} StandardizedMoments(raw: seq<real>, s: Standardized)
    requires Standardizes(raw, s)
    ensures Mean(s.mileages) == 0.0
    ensures Variance(s.mileages) == 1.0
  {
    var zs := s.mileages;
    var n := |zs| as real;
    ZScoresSumToZero(raw, s);
    assert Mean(zs) == 0.0;
    ZScoresSquaresSumToCount(raw, s);
    ShiftZero(zs);
    assert SquaredDeviations(zs, 0.0) == n;
    assert Variance(zs) == n / n;
    DivSelf(n);
  }

  /** The unscale step: `theta1 /= stddev` and then `theta0 -= theta1 * mean`
      (with the already divided `theta1`). */
  function Unscale(m: Model, mean: real, stddev: real): (r: Model)
    requires stddev > 0.0
    ensures forall x :: Predict(r, x) == Predict(m, (x - mean) / stddev)
  {
    var theta1 := m.theta1 / stddev;
    Model(m.theta0 - theta1 * mean, theta1)
  }

  /** Reference inverse of `Unscale`: express a raw-space model against
      z-scored input. */
  function Rescale(r: Model, mean: real, stddev: real): (m: Model)
    ensures forall z :: Predict(m, z) == Predict(r, mean + stddev * z)
  {
    Model(r.theta0 + r.theta1 * mean, r.theta1 * stddev)
  }

  /** `Unscale` and `Rescale` are mutually inverse. */
  lemma {:induction false} UnscaleRescaleInverse(m: Model, r: Model, mean: real, stddev: real)
    requires stddev > 0.0
    ensures Rescale(Unscale(m, mean, stddev), mean, stddev) == m
    ensures Unscale(Rescale(r, mean, stddev), mean, stddev) == r
  {
    var u := Unscale(m, mean, stddev);
    assert u.theta1 * stddev == m.theta1;
    var v := Rescale(r, mean, stddev);
    assert v.theta1 / stddev == r.theta1;
  }

  /** `Unscale` is the only raw-space model that agrees with the standardized
      model at the two points `x = mean` and `x = mean + stddev`. */
  lemma {:induction false} UnscaleUnique(m: Model, r: Model, mean: real, stddev: real)
    requires stddev > 0.0
    requires Predict(r, mean) == Predict(m, 0.0)
    requires Predict(r, mean + stddev) == Predict(m, 1.0)
    ensures r == Unscale(m, mean, stddev)
  {
    assert r.theta1 * stddev == m.theta1;
    assert r.theta1 == m.theta1 / stddev;
  }
}
