/**
 One pass over the standardized samples accumulating the two gradient sums
 and the mean absolute residual (train.go and main.go `calculateError`).
 */
module Gradient {
  import opened Sums
  import opened LinearModel

  /** The triple `calculateError` returns: `t0error`, `t1error` and the loss. */
  datatype Errors = Errors(t0: real, t1: real, loss: real)

  /** Signed residuals `prediction - price`, index-aligned with the samples. */
  function Residuals(m: Model, zs: seq<real>, ps: seq<real>): (rs: seq<real>)
    requires |zs| == |ps|
    ensures |rs| == |zs|
  {
    seq(|zs|, i requires 0 <= i < |zs| => Predict(m, zs[i]) - ps[i])
  }

  /** Reference definition of `calculateError`'s loop: the three running
      sums after the first `n` samples. */
  function Accumulate(m: Model, zs: seq<real>, ps: seq<real>, n: nat): (a: Errors)
    requires |zs| == |ps| && n <= |zs|
    ensures a.loss >= 0.0
  {
    if n == 0 then Errors(0.0, 0.0, 0.0)
    else
      var a := Accumulate(m, zs, ps, n - 1);
      var r := Predict(m, zs[n - 1]) - ps[n - 1];
      Errors(a.t0 + r, a.t1 + r * zs[n - 1], a.loss + Abs(r))
  }

  /** What `calculateError` returns: the two gradient sums over all samples
      and the absolute-residual total divided by the sample count. */
  function ErrorsOf(m: Model, zs: seq<real>, ps: seq<real>): (e: Errors)
    requires |zs| == |ps| > 0
    ensures e.loss >= 0.0
  {
    var a := Accumulate(m, zs, ps, |zs|);
    Errors(a.t0, a.t1, a.loss / (|zs| as real))
  }

  /** After `n` samples the running sums are the sums of the first `n`
      residuals, residuals times inputs, and absolute residuals. */
  lemma {:induction false} AccumulateSums(m: Model, zs: seq<real>, ps: seq<real>, n: nat)
    requires |zs| == |ps| && n <= |zs|
    ensures Accumulate(m, zs, ps, n).t0 == Sum(Residuals(m, zs, ps)[..n])
    ensures Accumulate(m, zs, ps, n).t1 == Sum(Mul(Residuals(m, zs, ps), zs)[..n])
    ensures Accumulate(m, zs, ps, n).loss == Sum(Abss(Residuals(m, zs, ps))[..n])
  {
    AccumulateT0(m, zs, ps, n);
    AccumulateT1(m, zs, ps, n);
    AccumulateLoss(m, zs, ps, n);
  }

  lemma {:induction false} AccumulateT0(m: Model, zs: seq<real>, ps: seq<real>, n: nat)
    requires |zs| == |ps| && n <= |zs|
    ensures Accumulate(m, zs, ps, n).t0 == Sum(Residuals(m, zs, ps)[..n])
    decreases n
  {
    var rs := Residuals(m, zs, ps);
    if n == 0 {
      assert rs[..0] == [];
    } else {
      AccumulateT0(m, zs, ps, n - 1);
      AccumulateStep(m, zs, ps, n);
      SumStep(rs, n - 1);
    }
  }

  lemma {:induction false} AccumulateT1(m: Model, zs: seq<real>, ps: seq<real>, n: nat)
    requires |zs| == |ps| && n <= |zs|
    ensures Accumulate(m, zs, ps, n).t1 == Sum(Mul(Residuals(m, zs, ps), zs)[..n])
    decreases n
  {
    var ws := Mul(Residuals(m, zs, ps), zs);
    if n == 0 {
      assert ws[..0] == [];
    } else {
      AccumulateT1(m, zs, ps, n - 1);
      AccumulateStep(m, zs, ps, n);
      SumStep(ws, n - 1);
    }
  }

  lemma {:induction false} AccumulateLoss(m: Model, zs: seq<real>, ps: seq<real>, n: nat)
    requires |zs| == |ps| && n <= |zs|
    ensures Accumulate(m, zs, ps, n).loss == Sum(Abss(Residuals(m, zs, ps))[..n])
    decreases n
  {
    var bs := Abss(Residuals(m, zs, ps));
    if n == 0 {
      assert bs[..0] == [];
    } else {
      AccumulateLoss(m, zs, ps, n - 1);
      AccumulateStep(m, zs, ps, n);
      SumStep(bs, n - 1);
    }
  }

  /** One more sample adds its residual, weighted residual and absolute
      residual to the running sums. */
  lemma {:induction false} AccumulateStep(m: Model, zs: seq<real>, ps: seq<real>, n: nat)
    requires |zs| == |ps| && 0 < n <= |zs|
    ensures var a := Accumulate(m, zs, ps, n - 1);
            var r := Residuals(m, zs, ps)[n - 1];
            Accumulate(m, zs, ps, n) == Errors(a.t0 + r, a.t1 + r * zs[n - 1], a.loss + Abs(r))
  {
  }

  /** The errors of a model as sums over its residual sequence:
      `t0 = Σ r`, `t1 = Σ r·z`, `loss = Σ|r| / n`. */
  lemma {:induction false} ErrorsOfSums(m: Model, zs: seq<real>, ps: seq<real>)
    requires |zs| == |ps| > 0
    ensures ErrorsOf(m, zs, ps).t0 == Sum(Residuals(m, zs, ps))
    ensures ErrorsOf(m, zs, ps).t1 == Sum(Mul(Residuals(m, zs, ps), zs))
    ensures ErrorsOf(m, zs, ps).loss == Sum(Abss(Residuals(m, zs, ps))) / (|zs| as real)
  {
    var rs := Residuals(m, zs, ps);
    AccumulateSums(m, zs, ps, |zs|);
    assert rs[..|zs|] == rs;
    assert Mul(rs, zs)[..|zs|] == Mul(rs, zs);
    assert Abss(rs)[..|zs|] == Abss(rs);
  }

  /** `calculateError`: a single loop accumulating the three sums, then the
      absolute-residual total divided by the sample count. */
  method CalculateError(m: Model, zs: seq<real>, ps: seq<real>) returns (e: Errors)
    requires |zs| == |ps| > 0
    ensures e == ErrorsOf(m, zs, ps)
    ensures e.t0 == Sum(Residuals(m, zs, ps))
    ensures e.t1 == Sum(Mul(Residuals(m, zs, ps), zs))
    ensures e.loss == Sum(Abss(Residuals(m, zs, ps))) / (|zs| as real)
    ensures e.loss >= 0.0
  {
    var t0error, t1error, totalLoss := 0.0, 0.0, 0.0;
    var i := 0;
    while i < |zs|
      invariant 0 <= i <= |zs|
      invariant Errors(t0error, t1error, totalLoss) == Accumulate(m, zs, ps, i)
    {
      // `Predict` is the source's `theta0 + theta1 * x`.
      var prediction := Predict(m, zs[i]);
      var err := prediction - ps[i];
      t0error := t0error + err;
      t1error := t1error + err * zs[i];
      totalLoss := totalLoss + Abs(err);
      i := i + 1;
    }
    totalLoss := totalLoss / (|zs| as real);
    e := Errors(t0error, t1error, totalLoss);
    ErrorsOfSums(m, zs, ps);
  }

  /** The residuals as a combination of point-wise maps: `θ1·z − (p − θ0)`. */
  lemma {:induction false} ResidualsDecomposed(m: Model, zs: seq<real>, ps: seq<real>)
    requires |zs| == |ps|
    ensures Residuals(m, zs, ps) == Sub(Scale(zs, m.theta1), Shift(ps, m.theta0))
  {
    var lhs := Residuals(m, zs, ps);
    var rhs := Sub(Scale(zs, m.theta1), Shift(ps, m.theta0));
    forall i | 0 <= i < |zs|
      ensures lhs[i] == rhs[i]
    {
      assert Scale(zs, m.theta1)[i] == m.theta1 * zs[i];
    }
  }

  /** The residuals times the inputs as point-wise maps: `θ0·z + θ1·z² − p·z`. */
  lemma {:induction false} WeightedResidualsDecomposed(m: Model, zs: seq<real>, ps: seq<real>)
    requires |zs| == |ps|
    ensures Mul(Residuals(m, zs, ps), zs)
         == Sub(Add(Scale(zs, m.theta0), Scale(Squares(zs), m.theta1)), Mul(ps, zs))
  {
    var rs := Residuals(m, zs, ps);
    var lhs := Mul(rs, zs);
    var rhs := Sub(Add(Scale(zs, m.theta0), Scale(Squares(zs), m.theta1)), Mul(ps, zs));
    forall i | 0 <= i < |zs|
      ensures lhs[i] == rhs[i]
    {
      MulCongruence(rs[i], m.theta0 + m.theta1 * zs[i] - ps[i], zs[i]);
      SlopeTerm(m.theta0, m.theta1, zs[i], ps[i]);
    }
  }

  lemma {:induction false} SlopeTerm(theta0: real, theta1: real, z: real, p: real)
    ensures (theta0 + theta1 * z - p) * z == theta0 * z + theta1 * (z * z) - p * z
  {
  }

  /** The intercept gradient as the scaled inputs less the shifted prices. */
  lemma {:induction false} InterceptGradientSplit(m: Model, zs: seq<real>, ps: seq<real>)
    requires |zs| == |ps|
    ensures Sum(Residuals(m, zs, ps)) == Sum(Scale(zs, m.theta1)) - Sum(Shift(ps, m.theta0))
  {
    ResidualsDecomposed(m, zs, ps);
    SumSub(Scale(zs, m.theta1), Shift(ps, m.theta0));
  }

  /** The intercept gradient in closed form: `Σ r = n·θ0 + θ1·Σz − Σp`. */
  lemma {:induction false} InterceptGradientClosedForm(m: Model, zs: seq<real>, ps: seq<real>)
    requires |zs| == |ps|
    ensures Sum(Residuals(m, zs, ps)) == (|zs| as real) * m.theta0 + m.theta1 * Sum(zs) - Sum(ps)
  {
    InterceptGradientSplit(m, zs, ps);
    SumScale(zs, m.theta1);
    SumShift(ps, m.theta0);
  }

  /** The slope gradient in closed form: `Σ r·z = θ0·Σz + θ1·Σz² − Σ p·z`. */
  lemma {:induction false} SlopeGradientClosedForm(m: Model, zs: seq<real>, ps: seq<real>)
    requires |zs| == |ps|
    ensures Sum(Mul(Residuals(m, zs, ps), zs))
         == m.theta0 * Sum(zs) + m.theta1 * Sum(Squares(zs)) - Sum(Mul(ps, zs))
  {
    WeightedResidualsDecomposed(m, zs, ps);
    SumSub(Add(Scale(zs, m.theta0), Scale(Squares(zs), m.theta1)), Mul(ps, zs));
    SumAdd(Scale(zs, m.theta0), Scale(Squares(zs), m.theta1));
    SumScale(zs, m.theta0);
    SumScale(Squares(zs), m.theta1);
  }

  /** On standardized samples (Σz = 0, Σz² = n) the gradients reduce to
      `t0 = n·θ0 − Σp` and `t1 = n·θ1 − Σ p·z`. */
  lemma {:induction false} StandardizedGradients(m: Model, zs: seq<real>, ps: seq<real>)
    requires |zs| == |ps| > 0
    requires Sum(zs) == 0.0
    requires Sum(Squares(zs)) == |zs| as real
    ensures Sum(Residuals(m, zs, ps)) == (|zs| as real) * m.theta0 - Sum(ps)
    ensures Sum(Mul(Residuals(m, zs, ps), zs)) == (|zs| as real) * m.theta1 - Sum(Mul(ps, zs))
  {
    StandardizedInterceptGradient(m, zs, ps);
    StandardizedSlopeGradient(m, zs, ps);
  }

  lemma {:induction false} StandardizedInterceptGradient(m: Model, zs: seq<real>, ps: seq<real>)
    requires |zs| == |ps|
    requires Sum(zs) == 0.0
    ensures Sum(Residuals(m, zs, ps)) == (|zs| as real) * m.theta0 - Sum(ps)
  {
    InterceptGradientClosedForm(m, zs, ps);
  }

  lemma {:induction false} StandardizedSlopeGradient(m: Model, zs: seq<real>, ps: seq<real>)
    requires |zs| == |ps|
    requires Sum(zs) == 0.0
    requires Sum(Squares(zs)) == |zs| as real
    ensures Sum(Mul(Residuals(m, zs, ps), zs)) == (|zs| as real) * m.theta1 - Sum(Mul(ps, zs))
  {
    SlopeGradientClosedForm(m, zs, ps);
    MulCongruence(Sum(Squares(zs)), |zs| as real, m.theta1);
  }

  /** On standardized samples both gradients vanish exactly when the model
      solves the least-squares normal equations `n·θ0 = Σp` and
      `n·θ1 = Σ p·z`, i.e. at `θ0 = Σp / n`, `θ1 = Σ p·z / n` only. */
  lemma {:induction false} GradientVanishesAtLeastSquares(m: Model, zs: seq<real>, ps: seq<real>)
    requires |zs| == |ps| > 0
    requires Sum(zs) == 0.0
    requires Sum(Squares(zs)) == |zs| as real
    ensures Sum(Residuals(m, zs, ps)) == 0.0 && Sum(Mul(Residuals(m, zs, ps), zs)) == 0.0
        <==> (|zs| as real) * m.theta0 == Sum(ps) && (|zs| as real) * m.theta1 == Sum(Mul(ps, zs))
  {
    StandardizedGradients(m, zs, ps);
  }
}
