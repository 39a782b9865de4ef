/**
 The gradient-descent loop of `train` (train.go and main.go): one update per
 epoch, an append-only loss history, the tolerance test on the last two
 losses, the hard epoch cap, and the unscale step that ends training.
 */
module Training {
  import opened Sums
  import opened LinearModel
  import opened Gradient
  import opened Standardizer

  /** `learningRate`, set when the regression is created. */
  const LearningRate: real := 0.001
  /** `maxEpoch`: the loop never runs more epochs than this. */
  const MaxEpoch: nat := 1000
  /** `tolerance`: two consecutive losses closer than this stop training. */
  const Tolerance: real := 0.0000001

  /** Running is the state inside the loop; the other two are terminal. */
  datatype Status = Running | Converged | MaxEpochReached

  /** The state `train` leaves behind: the model in standardized space, the
      loss of every executed epoch, and how the loop ended. */
  datatype Trained = Trained(model: Model, losses: seq<real>, status: Status)

  /** One gradient step: `theta -= error * learningRate` for both coefficients. */
  function Update(m: Model, e: Errors): Model
  {
    Model(m.theta0 - e.t0 * LearningRate, m.theta1 - e.t1 * LearningRate)
  }

  /** An epoch leaves the model where it is exactly when both gradient sums
      are zero. */
  lemma {:induction false} UpdateFixedPoint(m: Model, e: Errors)
    ensures Update(m, e) == m <==> e.t0 == 0.0 && e.t1 == 0.0
  {
  }

  /** On standardized samples an epoch leaves the model unchanged exactly
      when the model solves the least-squares normal equations
      `n·θ0 = Σp` and `n·θ1 = Σ p·z`. */
  lemma {:induction false} EpochFixedPoint(m: Model, zs: seq<real>, ps: seq<real>)
    requires |zs| == |ps| > 0
    requires Sum(zs) == 0.0
    requires Sum(Squares(zs)) == |zs| as real
    ensures Update(m, ErrorsOf(m, zs, ps)) == m
        <==> (|zs| as real) * m.theta0 == Sum(ps) && (|zs| as real) * m.theta1 == Sum(Mul(ps, zs))
  {
    UpdateFixedPoint(m, ErrorsOf(m, zs, ps));
    ErrorsOfSums(m, zs, ps);
    GradientVanishesAtLeastSquares(m, zs, ps);
  }

  /** The model after `k` epochs, each computing its errors from the model
      before the update. */
  function ModelAt(zs: seq<real>, ps: seq<real>, k: nat): Model
    requires |zs| == |ps| > 0
  {
    if k == 0 then Initial
    else
      var prev := ModelAt(zs, ps, k - 1);
      Update(prev, ErrorsOf(prev, zs, ps))
  }

  /** The loss recorded by epoch `k`: that of the model before its update. */
  function LossAt(zs: seq<real>, ps: seq<real>, k: nat): real
    requires |zs| == |ps| > 0
  {
    ErrorsOf(ModelAt(zs, ps, k), zs, ps).loss
  }

  /** Reference loss history after `k` epochs, built by appending. */
  function History(zs: seq<real>, ps: seq<real>, k: nat): (h: seq<real>)
    requires |zs| == |ps| > 0
    ensures |h| == k
  {
    if k == 0 then [] else History(zs, ps, k - 1) + [LossAt(zs, ps, k - 1)]
  }

  /** Entry `i` of the history is the loss of the model before update `i`,
      and no loss is negative. */
  lemma {:induction false} HistoryEntries(zs: seq<real>, ps: seq<real>, k: nat)
    requires |zs| == |ps| > 0
    ensures forall i :: 0 <= i < k ==> History(zs, ps, k)[i] == LossAt(zs, ps, i)
    ensures forall i :: 0 <= i < k ==> History(zs, ps, k)[i] >= 0.0
  {
    if k > 0 {
      HistoryEntries(zs, ps, k - 1);
      var h := History(zs, ps, k);
      assert forall i :: 0 <= i < k - 1 ==> h[i] == History(zs, ps, k - 1)[i];
    }
  }

  /** The tolerance test on one pair of consecutive losses. */
  predicate Close(prev: real, curr: real)
  {
    Abs(curr - prev) < Tolerance
  }

  /** The early-exit condition: at least two losses and the last two close. */
  predicate ConvergedAt(losses: seq<real>)
  {
    |losses| > 1 && Close(losses[|losses| - 2], losses[|losses| - 1])
  }

  /** One epoch of the loop: compute the errors of the current model and
      update it; the loss recorded is that of the model before the update. */
  method Epoch(zs: seq<real>, ps: seq<real>, k: nat, m: Model) returns (next: Model, loss: real)
    requires |zs| == |ps| > 0
    requires m == ModelAt(zs, ps, k)
    ensures next == ModelAt(zs, ps, k + 1)
    ensures loss == LossAt(zs, ps, k)
    ensures loss >= 0.0
  {
    var e := CalculateError(m, zs, ps);
    next := Update(m, e);
    loss := e.loss;
  }

  /** What `train`'s loop leaves behind on standardized samples `zs`, `ps`:
      between 1 and `MaxEpoch` losses equal to the reference history, the model
      after that many epochs, and a stop at the first epoch whose loss is close
      to the previous one, or at the cap when no adjacent pair ever was. */
  predicate TrainedOn(zs: seq<real>, ps: seq<real>, t: Trained)
    requires |zs| == |ps| > 0
  {
    && 1 <= |t.losses| <= MaxEpoch
    && t.losses == History(zs, ps, |t.losses|)
    && t.model == ModelAt(zs, ps, |t.losses|)
    && t.status != Running
    && (t.status == Converged <==> ConvergedAt(t.losses))
    && (t.status == MaxEpochReached ==> |t.losses| == MaxEpoch)
    && (forall k :: 1 <= k < |t.losses| - 1 ==> !Close(t.losses[k - 1], t.losses[k]))
  }

  /** `train`'s loop up to (not including) the unscale step. */
  method Train(zs: seq<real>, ps: seq<real>) returns (t: Trained)
    requires |zs| == |ps| > 0
    ensures TrainedOn(zs, ps, t)
  {
    var m := Initial;
    var lossAcc: seq<real> := [];
    var status := Running;
    var epoch := 0;
    while epoch < MaxEpoch
      invariant 0 <= epoch <= MaxEpoch
      invariant |lossAcc| == epoch
      invariant lossAcc == History(zs, ps, epoch)
      invariant m == ModelAt(zs, ps, epoch)
      invariant forall k :: 1 <= k < epoch ==> !Close(lossAcc[k - 1], lossAcc[k])
    {
      var next, loss := Epoch(zs, ps, epoch, m);
      m := next;
      lossAcc := lossAcc + [loss];
      if |lossAcc| > 1 {
        var prev := lossAcc[|lossAcc| - 2];
        var curr := lossAcc[|lossAcc| - 1];
        if Abs(curr - prev) < Tolerance {
          status := Converged;
          break;
        }
      }
      epoch := epoch + 1;
    }
    if status == Running {
      status := MaxEpochReached;
    }
    t := Trained(m, lossAcc, status);
  }

  /** A history is only ever extended: the first `j` losses after `k` epochs
      are exactly the losses after `j` epochs. */
  lemma {:induction false} HistoryAppendOnly(zs: seq<real>, ps: seq<real>, j: nat, k: nat)
    requires |zs| == |ps| > 0
    requires j <= k
    ensures History(zs, ps, k)[..j] == History(zs, ps, j)
  {
    var hk := History(zs, ps, k);
    var hj := History(zs, ps, j);
    HistoryEntries(zs, ps, k);
    HistoryEntries(zs, ps, j);
    assert forall i :: 0 <= i < j ==> hk[..j][i] == hj[i];
  }

  /** The early exit can never fire on the first epoch. */
  lemma {:induction false} NoConvergenceAtFirstEpoch(loss: real)
    ensures !ConvergedAt([loss])
  {
  }

  /** `train` followed by its unscale step: the raw-space model predicts, at
      every raw mileage, what the standardized model predicts at its z-score. */
  method TrainAndUnscale(s: Standardized) returns (raw: Model, t: Trained)
    requires |s.mileages| == |s.prices| > 0
    requires s.stddev > 0.0
    ensures TrainedOn(s.mileages, s.prices, t)
    ensures raw == Unscale(t.model, s.mean, s.stddev)
    ensures forall x :: Predict(raw, x) == Predict(t.model, (x - s.mean) / s.stddev)
  {
    t := Train(s.mileages, s.prices);
    raw := Unscale(t.model, s.mean, s.stddev);
  }

  /** `createLinearRegression` followed by `train`: standardize the raw
      samples, run the loop, unscale. */
  method Fit(rawMileages: seq<real>, rawPrices: seq<real>, sqrt: real -> real)
    returns (raw: Model, s: Standardized, t: Trained)
    requires |rawMileages| == |rawPrices| > 0
    requires sqrt(Variance(rawMileages)) > 0.0
    requires sqrt(Variance(rawMileages)) * sqrt(Variance(rawMileages)) == Variance(rawMileages)
    ensures Standardizes(rawMileages, s)
    ensures s.prices == rawPrices
    ensures TrainedOn(s.mileages, rawPrices, t)
    ensures forall x :: Predict(raw, x) == Predict(t.model, (x - s.mean) / s.stddev)
  {
    s := Standardize(rawMileages, rawPrices, sqrt);
    raw, t := TrainAndUnscale(s);
  }
}
