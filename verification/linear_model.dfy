/**
 The two-parameter model shared by the trainer and the predictor: an intercept
 `theta0` and a slope `theta1`. The same record is used in standardized space
 (against z-scored mileage) and in raw space (against mileage in km); which
 one a value is in is fixed by where it comes from, never by its type.
 */
module LinearModel {

  datatype Model = Model(theta0: real, theta1: real)

  /** Both trainers start from the zero model. */
  const Initial: Model := Model(0.0, 0.0)

  /** The line `theta0 + theta1 * x`: the trainer's prediction and `estimatePrice`. */
  function Predict(m: Model, x: real): real
  {
    m.theta0 + m.theta1 * x
  }

  /** A prediction is the line with intercept `theta0` and constant slope `theta1`. */
  lemma {:induction false} PredictIsLine(m: Model)
    ensures Predict(m, 0.0) == m.theta0
    ensures forall a: real, b: real :: Predict(m, b) - Predict(m, a) == m.theta1 * (b - a)
  {
  }
}
