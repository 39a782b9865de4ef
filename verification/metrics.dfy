/**
 Goodness-of-fit figures reported after training (train.go
 `calculatePrecision`), computed against the raw samples with the raw-space
 model.
 */
module Metrics {
  import opened Sums
  import opened LinearModel

  /** Everything `calculatePrecision` computes except the square root. */
  datatype Precision = Precision(
    meanPrice: real,
    ssRes: real,
    ssTot: real,
    mae: real,
    mse: real,
    r2: real)

  /** Residuals in the reporting direction: `price - prediction`. */
  function PriceResiduals(m: Model, xs: seq<real>, ps: seq<real>): (rs: seq<real>)
    requires |xs| == |ps|
    ensures |rs| == |xs|
  {
    seq(|xs|, i requires 0 <= i < |xs| => ps[i] - Predict(m, xs[i]))
  }

  /** The model reproduces every price exactly. */
  predicate PerfectFit(m: Model, xs: seq<real>, ps: seq<real>)
    requires |xs| == |ps|
  {
    forall i :: 0 <= i < |xs| ==> ps[i] == Predict(m, xs[i])
  }

  /** The residual sum of squares vanishes exactly on a perfect fit. */
  lemma {:induction false} ZeroResidualsIffPerfectFit(m: Model, xs: seq<real>, ps: seq<real>)
    requires |xs| == |ps|
    ensures Sum(Squares(PriceResiduals(m, xs, ps))) == 0.0 <==> PerfectFit(m, xs, ps)
  {
    var rs := PriceResiduals(m, xs, ps);
    SumSquaresZero(rs);
    assert forall i :: 0 <= i < |xs| ==> (rs[i] == 0.0 <==> ps[i] == Predict(m, xs[i]));
  }

  /** `1 - a / b` equals 1 exactly when `a` is 0, and is at most 1 when
      `a >= 0` and `b > 0`. */
  lemma {:induction false} OneMinusRatio(a: real, b: real)
    requires b > 0.0
    ensures 1.0 - a / b == 1.0 <==> a == 0.0
    ensures a >= 0.0 ==> 1.0 - a / b <= 1.0
  {
    DivMulCancel(a, b);
  }

  /** The accumulation loop of `calculatePrecision`, in index order. */
  method AccumulateFit(m: Model, rawMileages: seq<real>, rawPrices: seq<real>, meanPrice: real)
    returns (ssRes: real, ssTot: real, mae: real, mse: real)
    requires |rawMileages| == |rawPrices|
    ensures ssRes == Sum(Squares(PriceResiduals(m, rawMileages, rawPrices)))
    ensures ssTot == SquaredDeviations(rawPrices, meanPrice)
    ensures mae == Sum(Abss(PriceResiduals(m, rawMileages, rawPrices)))
    ensures mse == ssRes
  {
    ghost var rs := PriceResiduals(m, rawMileages, rawPrices);
    ghost var sqr := Squares(rs);
    ghost var devs := Squares(Shift(rawPrices, meanPrice));
    ghost var abss := Abss(rs);
    ssRes, ssTot, mae, mse := 0.0, 0.0, 0.0, 0.0;
    var i := 0;
    while i < |rawMileages|
      invariant 0 <= i <= |rawMileages|
      invariant ssRes == Sum(sqr[..i]) && mse == Sum(sqr[..i])
      invariant ssTot == Sum(devs[..i])
      invariant mae == Sum(abss[..i])
    {
      // `Predict` is the source's `theta0 + theta1 * x`.
      var prediction := Predict(m, rawMileages[i]);
      var residual := rawPrices[i] - prediction;
      var diff := rawPrices[i] - meanPrice;
      SquareCongruence(diff, Shift(rawPrices, meanPrice)[i]);
      SumStep(sqr, i);
      SumStep(devs, i);
      SumStep(abss, i);
      ssRes := ssRes + residual * residual;
      ssTot := ssTot + diff * diff;
      mae := mae + Abs(residual);
      mse := mse + residual * residual;
      i := i + 1;
    }
    assert sqr[..i] == sqr && devs[..i] == devs && abss[..i] == abss;
  }

  /** `calculatePrecision`: the mean price, one accumulation pass, MAE and MSE
      divided by the number of prices, and `R² = 1 - ssRes / ssTot`. */
  method CalculatePrecision(m: Model, rawMileages: seq<real>, rawPrices: seq<real>)
    returns (p: Precision)
    requires |rawMileages| == |rawPrices| > 0
    requires SquaredDeviations(rawPrices, Mean(rawPrices)) != 0.0
    ensures p.meanPrice == Mean(rawPrices)
    ensures p.ssRes == Sum(Squares(PriceResiduals(m, rawMileages, rawPrices)))
    ensures p.ssTot == SquaredDeviations(rawPrices, p.meanPrice)
    ensures p.ssTot > 0.0
    ensures p.mae == Sum(Abss(PriceResiduals(m, rawMileages, rawPrices))) / (|rawPrices| as real)
    ensures p.mae >= 0.0 && p.mse >= 0.0
    ensures p.mse * (|rawPrices| as real) == p.ssRes
    ensures p.r2 == 1.0 - p.ssRes / p.ssTot
    ensures p.r2 <= 1.0
    ensures p.r2 == 1.0 <==> PerfectFit(m, rawMileages, rawPrices)
  {
    var sum := SumInOrder(rawPrices);
    var meanPrice := sum / (|rawPrices| as real);
    assert meanPrice == Mean(rawPrices);
    var ssRes, ssTot, mae, mse := AccumulateFit(m, rawMileages, rawPrices, meanPrice);
    SquaresNonNegative(PriceResiduals(m, rawMileages, rawPrices));
    AbssNonNegative(PriceResiduals(m, rawMileages, rawPrices));
    SquaresNonNegative(Shift(rawPrices, meanPrice));
    DivMulCancel(mse, |rawPrices| as real);
    ZeroResidualsIffPerfectFit(m, rawMileages, rawPrices);
    OneMinusRatio(ssRes, ssTot);
    p := Precision(meanPrice, ssRes, ssTot, mae / (|rawPrices| as real), mse / (|rawPrices| as real), 1.0 - ssRes / ssTot);
  }
}
