/** Training loss after an iteration: half the sum of squared residuals over
    the stored cells with a positive rating, accumulated twice (`errs` and
    `loss`). */
module Loss {
  import opened Matrices
  import opened Ratings

  /** The base recommender's prediction for (u, j) from the current factors. */
  type Predictor = (Matrix, Matrix, nat, nat) -> real

  function Residual(c: Cell, P: Matrix, Q: Matrix, predict: Predictor): real
  {
    c.value - predict(P, Q, c.row, c.col)
  }

  /** Sum of squared residuals over the cells with a positive rating. */
  function SquaredError(cells: seq<Cell>, P: Matrix, Q: Matrix, predict: Predictor): real
  {
    if |cells| == 0 then 0.0
    else
      var c := cells[|cells| - 1];
      var e := Residual(c, P, Q, predict);
      SquaredError(cells[..|cells| - 1], P, Q, predict) + (if c.value > 0.0 then e * e else 0.0)
  }

  lemma {:induction false} SquaredErrorNonNegative(cells: seq<Cell>, P: Matrix, Q: Matrix, predict: Predictor)
    ensures SquaredError(cells, P, Q, predict) >= 0.0
  {
    if |cells| > 0 {
      SquaredErrorNonNegative(cells[..|cells| - 1], P, Q, predict);
      var e := Residual(cells[|cells| - 1], P, Q, predict);
      assert e * e >= 0.0;
    }
  }

  /** Each positive cell's squared residual is at most the whole sum. */
  lemma {:induction false} SquaredErrorBoundsEachTerm(cells: seq<Cell>, P: Matrix, Q: Matrix, predict: Predictor, k: nat)
    requires k < |cells| && cells[k].value > 0.0
    ensures Residual(cells[k], P, Q, predict) * Residual(cells[k], P, Q, predict) <= SquaredError(cells, P, Q, predict)
  {
    var init := cells[..|cells| - 1];
    var e := Residual(cells[|cells| - 1], P, Q, predict);
    assert e * e >= 0.0;
    if k < |cells| - 1 {
      assert init[k] == cells[k];
      SquaredErrorBoundsEachTerm(init, P, Q, predict, k);
    } else {
      SquaredErrorNonNegative(init, P, Q, predict);
    }
  }

  /** A product of reals vanishes only when a factor does. */
  lemma ZeroProduct(a: real, b: real)
    requires a * b == 0.0
    ensures a == 0.0 || b == 0.0
  {
  }

  /** Exact predictions on every positive rating leave no error. */
  lemma {:induction false} ExactMeansZero(cells: seq<Cell>, P: Matrix, Q: Matrix, predict: Predictor)
    requires forall k :: 0 <= k < |cells| && cells[k].value > 0.0 ==> predict(P, Q, cells[k].row, cells[k].col) == cells[k].value
    ensures SquaredError(cells, P, Q, predict) == 0.0
  {
    if |cells| > 0 {
      var init := cells[..|cells| - 1];
      assert forall k :: 0 <= k < |init| ==> init[k] == cells[k];
      ExactMeansZero(init, P, Q, predict);
    }
  }

  /** The squared error is zero exactly when every positive rating is
      predicted exactly. */
  lemma {:induction false} SquaredErrorZeroIffExact(cells: seq<Cell>, P: Matrix, Q: Matrix, predict: Predictor)
    ensures SquaredError(cells, P, Q, predict) == 0.0 <==>
            forall k :: 0 <= k < |cells| && cells[k].value > 0.0 ==> predict(P, Q, cells[k].row, cells[k].col) == cells[k].value
  {
    if SquaredError(cells, P, Q, predict) == 0.0 {
      forall k | 0 <= k < |cells| && cells[k].value > 0.0
        ensures predict(P, Q, cells[k].row, cells[k].col) == cells[k].value
      {
        var e := Residual(cells[k], P, Q, predict);
        SquaredErrorBoundsEachTerm(cells, P, Q, predict, k);
        assert e * e >= 0.0;
        ZeroProduct(e, e);
      }
    } else if forall k :: 0 <= k < |cells| && cells[k].value > 0.0 ==> predict(P, Q, cells[k].row, cells[k].col) == cells[k].value {
      ExactMeansZero(cells, P, Q, predict);
    }
  }

  /** Recomputes errs and loss from scratch over the stored cells, in
      iteration order. */
  method Evaluate(R: Ratings, P: Matrix, Q: Matrix, predict: Predictor) returns (errs: real, loss: real)
    ensures errs == loss
    ensures loss == 0.5 * SquaredError(R.cells, P, Q, predict)
    ensures loss >= 0.0
  {
    errs := 0.0;
    loss := 0.0;
    var t := 0;
    while t < |R.cells|
      invariant 0 <= t <= |R.cells|
      invariant errs == loss == SquaredError(R.cells[..t], P, Q, predict)
    {
      var c := R.cells[t];
      if c.value > 0.0 {
        var pred := predict(P, Q, c.row, c.col);
        var e := c.value - pred;
        errs := errs + e * e;
        loss := loss + e * e;
      }
      assert R.cells[..t + 1][..t] == R.cells[..t];
      t := t + 1;
    }
    assert R.cells[..t] == R.cells;
    SquaredErrorNonNegative(R.cells, P, Q, predict);
    errs := errs * 0.5;
    loss := loss * 0.5;
  }
}
