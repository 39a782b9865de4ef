/**
 Finite sums over sequences of reals, accumulated left to right exactly as the
 `x += …` loops of the trainer do, together with the point-wise maps the
 trainer and the metrics sum over and the algebra that relates them.
 */
module Sums {

  /** Left-to-right sum: ((0 + xs[0]) + xs[1]) + … */
  function Sum(xs: seq<real>): real
    decreases |xs|
  {
    if |xs| == 0 then 0.0 else Sum(xs[..|xs| - 1]) + xs[|xs| - 1]
  }

  function Abs(x: real): (r: real)
    ensures r >= 0.0
    ensures r == x || r == -x
  {
    if x < 0.0 then -x else x
  }

  /** Arithmetic mean; the trainer divides the sum by the length. */
  function Mean(xs: seq<real>): (m: real)
    requires |xs| > 0
    ensures m * (|xs| as real) == Sum(xs)
  {
    Sum(xs) / (|xs| as real)
  }

  /** Point-wise `x - c`. */
  function Shift(xs: seq<real>, c: real): (ys: seq<real>)
    ensures |ys| == |xs|
  {
    seq(|xs|, i requires 0 <= i < |xs| => xs[i] - c)
  }

  /** Point-wise `k * x`. */
  function Scale(xs: seq<real>, k: real): (ys: seq<real>)
    ensures |ys| == |xs|
  {
    seq(|xs|, i requires 0 <= i < |xs| => k * xs[i])
  }

  /** Point-wise `x * x`. */
  function Squares(xs: seq<real>): (ys: seq<real>)
    ensures |ys| == |xs|
  {
    seq(|xs|, i requires 0 <= i < |xs| => xs[i] * xs[i])
  }

  /** Point-wise absolute value. */
  function Abss(xs: seq<real>): (ys: seq<real>)
    ensures |ys| == |xs|
  {
    seq(|xs|, i requires 0 <= i < |xs| => Abs(xs[i]))
  }

  /** Point-wise product of two index-aligned sequences. */
  function Mul(xs: seq<real>, ys: seq<real>): (zs: seq<real>)
    requires |xs| == |ys|
    ensures |zs| == |xs|
  {
    seq(|xs|, i requires 0 <= i < |xs| => xs[i] * ys[i])
  }

  /** Point-wise sum of two index-aligned sequences. */
  function Add(xs: seq<real>, ys: seq<real>): (zs: seq<real>)
    requires |xs| == |ys|
    ensures |zs| == |xs|
  {
    seq(|xs|, i requires 0 <= i < |xs| => xs[i] + ys[i])
  }

  /** Point-wise difference of two index-aligned sequences. */
  function Sub(xs: seq<real>, ys: seq<real>): (zs: seq<real>)
    requires |xs| == |ys|
    ensures |zs| == |xs|
  {
    seq(|xs|, i requires 0 <= i < |xs| => xs[i] - ys[i])
  }

  /** Sum of squared deviations from `c`: the numerator of a variance. */
  function SquaredDeviations(xs: seq<real>, c: real): real
  {
    Sum(Squares(Shift(xs, c)))
  }

  /** Population variance: squared deviations from the mean, divided by n. */
  function Variance(xs: seq<real>): real
    requires |xs| > 0
  {
    SquaredDeviations(xs, Mean(xs)) / (|xs| as real)
  }

  /** Extending a prefix by one element adds that element to the sum. */
  lemma {:induction false} SumStep(xs: seq<real>, i: nat)
    requires i < |xs|
    ensures Sum(xs[..i + 1]) == Sum(xs[..i]) + xs[i]
  {
    assert xs[..i + 1][..i] == xs[..i];
  }

  /** The `sum += x` loop over a slice, in index order. */
  method SumInOrder(xs: seq<real>) returns (sum: real)
    ensures sum == Sum(xs)
  {
    sum := 0.0;
    var i := 0;
    while i < |xs|
      invariant 0 <= i <= |xs|
      invariant sum == Sum(xs[..i])
    {
      SumStep(xs, i);
      sum := sum + xs[i];
      i := i + 1;
    }
    assert xs[..i] == xs;
  }

  /** A sum of non-negative terms is non-negative. */
  lemma {:induction false} SumNonNegative(xs: seq<real>)
    requires forall i :: 0 <= i < |xs| ==> xs[i] >= 0.0
    ensures Sum(xs) >= 0.0
  {
    if |xs| > 0 {
      SumNonNegative(xs[..|xs| - 1]);
    }
  }

  /** A sum of non-negative terms is zero exactly when every term is zero. */
  lemma {:induction false} SumNonNegativeZero(xs: seq<real>)
    requires forall i :: 0 <= i < |xs| ==> xs[i] >= 0.0
    ensures Sum(xs) == 0.0 <==> forall i :: 0 <= i < |xs| ==> xs[i] == 0.0
  {
    if |xs| > 0 {
      var init := xs[..|xs| - 1];
      SumNonNegativeZero(init);
      SumNonNegative(init);
      if Sum(xs) == 0.0 {
        assert forall i :: 0 <= i < |xs| ==> xs[i] == 0.0 by {
          forall i | 0 <= i < |xs|
            ensures xs[i] == 0.0
          {
            if i < |xs| - 1 {
              assert init[i] == xs[i];
            }
          }
        }
      } else {
        assert forall i :: 0 <= i < |init| ==> init[i] == xs[i];
      }
    }
  }

  lemma {:induction false} ShiftPrefix(xs: seq<real>, c: real, k: nat)
    requires k <= |xs|
    ensures Shift(xs, c)[..k] == Shift(xs[..k], c)
  {
    assert forall i :: 0 <= i < k ==> Shift(xs, c)[..k][i] == Shift(xs[..k], c)[i];
  }

  lemma {:induction false} ScalePrefix(xs: seq<real>, c: real, k: nat)
    requires k <= |xs|
    ensures Scale(xs, c)[..k] == Scale(xs[..k], c)
  {
    assert forall i :: 0 <= i < k ==> Scale(xs, c)[..k][i] == Scale(xs[..k], c)[i];
  }

  lemma {:induction false} AddPrefix(xs: seq<real>, ys: seq<real>, k: nat)
    requires |xs| == |ys| && k <= |xs|
    ensures Add(xs, ys)[..k] == Add(xs[..k], ys[..k])
  {
    assert forall i :: 0 <= i < k ==> Add(xs, ys)[..k][i] == Add(xs[..k], ys[..k])[i];
  }

  lemma {:induction false} SubPrefix(xs: seq<real>, ys: seq<real>, k: nat)
    requires |xs| == |ys| && k <= |xs|
    ensures Sub(xs, ys)[..k] == Sub(xs[..k], ys[..k])
  {
    assert forall i :: 0 <= i < k ==> Sub(xs, ys)[..k][i] == Sub(xs[..k], ys[..k])[i];
  }

  /** Sum is additive over point-wise sums. */
  lemma {:induction false} SumAdd(xs: seq<real>, ys: seq<real>)
    requires |xs| == |ys|
    ensures Sum(Add(xs, ys)) == Sum(xs) + Sum(ys)
  {
    if |xs| > 0 {
      var n := |xs| - 1;
      AddPrefix(xs, ys, n);
      SumAdd(xs[..n], ys[..n]);
    }
  }

  /** Sum is additive over point-wise differences. */
  lemma {:induction false} SumSub(xs: seq<real>, ys: seq<real>)
    requires |xs| == |ys|
    ensures Sum(Sub(xs, ys)) == Sum(xs) - Sum(ys)
  {
    if |xs| > 0 {
      var n := |xs| - 1;
      SubPrefix(xs, ys, n);
      SumSub(xs[..n], ys[..n]);
    }
  }

  /** Sum is linear in a constant factor. */
  lemma {:induction false} SumScale(xs: seq<real>, k: real)
    ensures Sum(Scale(xs, k)) == k * Sum(xs)
  {
    if |xs| > 0 {
      var n := |xs| - 1;
      ScalePrefix(xs, k, n);
      SumScale(xs[..n], k);
    }
  }

  /** Shifting every term by `c` shifts the sum by `n * c`. */
  lemma {:induction false} SumShift(xs: seq<real>, c: real)
    ensures Sum(Shift(xs, c)) == Sum(xs) - (|xs| as real) * c
  {
    if |xs| > 0 {
      var n := |xs| - 1;
      ShiftPrefix(xs, c, n);
      SumShift(xs[..n], c);
    }
  }

  /** Shifting by zero changes nothing. */
  lemma {:induction false} ShiftZero(xs: seq<real>)
    ensures Shift(xs, 0.0) == xs
  {
    assert forall i :: 0 <= i < |xs| ==> Shift(xs, 0.0)[i] == xs[i];
  }

  /** Deviations from the mean sum to zero. */
  lemma {:induction false} DeviationsFromMeanSumToZero(xs: seq<real>)
    requires |xs| > 0
    ensures Sum(Shift(xs, Mean(xs))) == 0.0
  {
    SumShift(xs, Mean(xs));
  }

  /** Dividing by a positive count and multiplying back is the identity. */
  lemma {:induction false} DivMulCancel(a: real, n: real)
    requires n > 0.0
    ensures (a / n) * n == a
  {
  }

  lemma {:induction false} DivSelf(n: real)
    requires n > 0.0
    ensures n / n == 1.0
  {
  }

  /** A positive common factor cancels. */
  lemma {:induction false} CancelPositive(a: real, x: real, y: real)
    requires a > 0.0
    requires a * x == a * y
    ensures x == y
  {
  }

  /** A positive square cancels. */
  lemma {:induction false} CancelSquare(d: real, x: real, y: real)
    requires d > 0.0
    requires d * d * x == d * d * y
    ensures x == y
  {
    CancelPositive(d, d * x, d * y);
    CancelPositive(d, x, y);
  }

  lemma {:induction false} MulCongruence(a: real, b: real, c: real)
    requires a == b
    ensures a * c == b * c
  {
  }

  lemma {:induction false} SquareCongruence(a: real, b: real)
    requires a == b
    ensures a * a == b * b
  {
  }

  /** A product is zero only when a factor is. */
  lemma {:induction false} ZeroProduct(a: real, b: real)
    requires a * b == 0.0
    ensures a == 0.0 || b == 0.0
  {
  }

  /** Every square is non-negative, and a square is zero exactly at zero. */
  lemma {:induction false} SquaresElement(xs: seq<real>, i: nat)
    requires i < |xs|
    ensures Squares(xs)[i] >= 0.0
    ensures Squares(xs)[i] == 0.0 <==> xs[i] == 0.0
  {
    if Squares(xs)[i] == 0.0 {
      ZeroProduct(xs[i], xs[i]);
    }
  }

  /** A sum of squares vanishes exactly when every term does. */
  lemma {:induction false} SumSquaresZero(xs: seq<real>)
    ensures Sum(Squares(xs)) == 0.0 <==> forall i :: 0 <= i < |xs| ==> xs[i] == 0.0
  {
    var sq := Squares(xs);
    forall i | 0 <= i < |xs|
      ensures sq[i] >= 0.0
      ensures sq[i] == 0.0 <==> xs[i] == 0.0
    {
      SquaresElement(xs, i);
    }
    SumNonNegativeZero(sq);
  }

  lemma {:induction false} SquareOfProduct(k: real, x: real)
    ensures (k * x) * (k * x) == (k * k) * (x * x)
  {
  }

  /** Squaring a scaled sequence is scaling the squares by `k * k`. */
  lemma {:induction false} SquaresScale(xs: seq<real>, k: real)
    ensures Squares(Scale(xs, k)) == Scale(Squares(xs), k * k)
  {
    var lhs := Squares(Scale(xs, k));
    var rhs := Scale(Squares(xs), k * k);
    forall i | 0 <= i < |xs|
      ensures lhs[i] == rhs[i]
    {
      SquareOfProduct(k, xs[i]);
    }
  }

  /** Squaring a scaled sequence scales the sum of squares by `k * k`. */
  lemma {:induction false} SumSquaresScale(xs: seq<real>, k: real)
    ensures Sum(Squares(Scale(xs, k))) == k * k * Sum(Squares(xs))
  {
    SquaresScale(xs, k);
    SumScale(Squares(xs), k * k);
  }

  /** A sum of squares is non-negative. */
  lemma {:induction false} SquaresNonNegative(xs: seq<real>)
    ensures Sum(Squares(xs)) >= 0.0
  {
    SumNonNegative(Squares(xs));
  }

  /** A sum of absolute values is non-negative. */
  lemma {:induction false} AbssNonNegative(xs: seq<real>)
    ensures Sum(Abss(xs)) >= 0.0
  {
    SumNonNegative(Abss(xs));
  }

  /** A population variance is never negative. */
  lemma {:induction false} VarianceNonNegative(xs: seq<real>)
    requires |xs| > 0
    ensures Variance(xs) >= 0.0
  {
    SquaresNonNegative(Shift(xs, Mean(xs)));
  }
}
