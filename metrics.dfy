/** The error metrics: mean absolute percentage error and the coefficient
    of determination R², over equal-length sequences of true values and
    predictions, in exact real arithmetic. */
module Metrics {
  import opened Sums

  /** Entrywise differences `a - b`. */
  function Residuals(a: seq<real>, b: seq<real>): seq<real>
    requires |a| == |b|
  {
    seq(|a|, i requires 0 <= i < |a| => a[i] - b[i])
  }

  /** Each entry's difference from the scalar `c`. */
  function Deviations(s: seq<real>, c: real): seq<real>
  {
    seq(|s|, i requires 0 <= i < |s| => s[i] - c)
  }

  /** Entrywise squares. */
  function Squares(s: seq<real>): (r: seq<real>)
    ensures |r| == |s| && NonNegative(r)
  {
    seq(|s|, i requires 0 <= i < |s| => s[i] * s[i])
  }

  /** The product of two positive numbers is positive. */
  lemma ProductPositive(a: real, b: real)
    requires a > 0.0 && b > 0.0
    ensures a * b > 0.0
  {
  }

  /** The square of a non-zero number is positive. */
  lemma SquarePositive(x: real)
    requires x != 0.0
    ensures x * x > 0.0
  {
    if x > 0.0 { ProductPositive(x, x); } else { ProductPositive(-x, -x); }
  }

  /** A non-zero number divided by itself is one. */
  lemma DivSelf(x: real)
    requires x != 0.0
    ensures x / x == 1.0
  {
  }

  /** An entry of `Squares(s)` is zero exactly where the entry of `s` is. */
  lemma SquareZeroAt(s: seq<real>, i: nat)
    requires i < |s|
    ensures Squares(s)[i] == 0.0 <==> s[i] == 0.0
  {
    if s[i] != 0.0 {
      calc {
        Squares(s)[i];
        s[i] * s[i];
      > { SquarePositive(s[i]); }
        0.0;
      }
    }
  }

  /** No true value is zero, so every relative error is defined. */
  predicate NonZero(s: seq<real>)
  {
    forall i :: 0 <= i < |s| ==> s[i] != 0.0
  }

  /** The absolute relative error of each prediction. */
  function RelativeErrors(t: seq<real>, p: seq<real>): (r: seq<real>)
    requires |t| == |p| && NonZero(t)
    ensures |r| == |t| && NonNegative(r)
  {
    seq(|t|, i requires 0 <= i < |t| => Abs((t[i] - p[i]) / t[i]))
  }

  /** `mean_absolute_percentage_error`: the mean absolute relative error,
      as a percentage. */
  function MeanAbsolutePercentageError(t: seq<real>, p: seq<real>): (r: real)
    requires |t| == |p| && |t| > 0 && NonZero(t)
    ensures r >= 0.0
  {
    SumNonNegative(RelativeErrors(t, p));
    Mean(RelativeErrors(t, p)) * 100.0
  }

  /** The residual sum of squares; a sum of squares is never negative. */
  function ResidualSumOfSquares(t: seq<real>, p: seq<real>): (r: real)
    requires |t| == |p|
    ensures r >= 0.0
  {
    SumNonNegative(Squares(Residuals(t, p)));
    Sum(Squares(Residuals(t, p)))
  }

  /** The total sum of squares: squared deviations from the mean; never
      negative. */
  function TotalSumOfSquares(t: seq<real>): (r: real)
    requires |t| > 0
    ensures r >= 0.0
  {
    SumNonNegative(Squares(Deviations(t, Mean(t))));
    Sum(Squares(Deviations(t, Mean(t))))
  }

  /** The residual sum of squares is never negative, and it is zero
      exactly when every prediction equals its true value. */
  lemma ResidualSumOfSquaresZeroIff(t: seq<real>, p: seq<real>)
    requires |t| == |p|
    ensures ResidualSumOfSquares(t, p) >= 0.0
    ensures ResidualSumOfSquares(t, p) == 0.0 <==> p == t
  {
    var sq := Squares(Residuals(t, p));
    SumNonNegative(sq);
    if ResidualSumOfSquares(t, p) == 0.0 {
      forall i | 0 <= i < |t| ensures p[i] == t[i] {
        SquareZeroAt(Residuals(t, p), i);
      }
    }
  }

  /** The total sum of squares is never negative; it is zero exactly when
      every true value equals the mean, that is, when all true values are
      equal. */
  lemma TotalSumOfSquaresZeroIff(t: seq<real>)
    requires |t| > 0
    ensures TotalSumOfSquares(t) >= 0.0
    ensures TotalSumOfSquares(t) == 0.0 <==> forall i :: 0 <= i < |t| ==> t[i] == Mean(t)
    ensures TotalSumOfSquares(t) == 0.0 <==> AllEqual(t)
  {
    var mean := Mean(t);
    var sq := Squares(Deviations(t, mean));
    SumNonNegative(sq);
    if TotalSumOfSquares(t) == 0.0 {
      forall i | 0 <= i < |t| ensures t[i] == mean {
        SquareZeroAt(Deviations(t, mean), i);
      }
    }
    if AllEqual(t) {
      MeanOfConstant(t, t[0]);
      assert forall i :: 0 <= i < |sq| ==> sq[i] == 0.0;
    }
  }

  /** `r2`: one minus the residual sum of squares over the total sum of
      squares. It is undefined when all true values are equal. It never
      exceeds one. */
  function R2(t: seq<real>, p: seq<real>): (r: real)
    requires |t| == |p| && !AllEqual(t)
    ensures r <= 1.0
  {
    TotalSumOfSquaresZeroIff(t);
    ResidualSumOfSquaresZeroIff(t, p);
    1.0 - ResidualSumOfSquares(t, p) / TotalSumOfSquares(t)
  }

  /** The percentage error is zero exactly when every prediction is
      exact. */
  lemma MeanAbsolutePercentageErrorZeroIff(t: seq<real>, p: seq<real>)
    requires |t| == |p| && |t| > 0 && NonZero(t)
    ensures MeanAbsolutePercentageError(t, p) == 0.0 <==> p == t
  {
    var errs := RelativeErrors(t, p);
    SumNonNegative(errs);
    if MeanAbsolutePercentageError(t, p) == 0.0 {
      assert Sum(errs) == 0.0;
      forall i | 0 <= i < |t| ensures p[i] == t[i] {
        assert errs[i] == 0.0;
      }
    }
    if p == t {
      assert forall i :: 0 <= i < |errs| ==> errs[i] == 0.0;
    }
  }

  /** R² is one exactly when every prediction equals its true value. */
  lemma R2OneIff(t: seq<real>, p: seq<real>)
    requires |t| == |p| && !AllEqual(t)
    ensures R2(t, p) == 1.0 <==> p == t
  {
    TotalSumOfSquaresZeroIff(t);
    ResidualSumOfSquaresZeroIff(t, p);
  }

  /** Predicting the mean for every sample scores an R² of zero. */
  lemma R2OfMeanIsZero(t: seq<real>, p: seq<real>)
    requires |t| == |p| && !AllEqual(t)
    requires forall i :: 0 <= i < |p| ==> p[i] == Mean(t)
    ensures R2(t, p) == 0.0
  {
    TotalSumOfSquaresZeroIff(t);
    assert Residuals(t, p) == Deviations(t, Mean(t));
    var ss := TotalSumOfSquares(t);
    assert ResidualSumOfSquares(t, p) == ss;
    assert ss != 0.0;
    DivSelf(ss);
  }

  /** The unit test's case: true values 1, 1, 2, 2 against predictions
      2, 2, 1, 1 give a percentage error of 75. */
  lemma MeanAbsolutePercentageErrorExample()
    ensures MeanAbsolutePercentageError([1.0, 1.0, 2.0, 2.0], [2.0, 2.0, 1.0, 1.0]) == 75.0
  {
    var errs := RelativeErrors([1.0, 1.0, 2.0, 2.0], [2.0, 2.0, 1.0, 1.0]);
    assert errs == [1.0, 1.0, 0.5, 0.5];
    assert Sum(errs) == 3.0;
  }

  /** The unit test's case: the same values give an R² of -3. */
  lemma R2Example()
    // `t[0] != t[2]` shows the true values are not all equal, as `R2` requires.
    ensures var t, p := [1.0, 1.0, 2.0, 2.0], [2.0, 2.0, 1.0, 1.0];
      t[0] != t[2] && R2(t, p) == -3.0
  {
    var t, p := [1.0, 1.0, 2.0, 2.0], [2.0, 2.0, 1.0, 1.0];
    assert Sum(t) == 6.0;
    assert Squares(Deviations(t, 1.5)) == [0.25, 0.25, 0.25, 0.25];
    assert Sum([0.25, 0.25, 0.25, 0.25]) == 1.0;
    assert Squares(Residuals(t, p)) == [1.0, 1.0, 1.0, 1.0];
    assert Sum([1.0, 1.0, 1.0, 1.0]) == 4.0;
  }
}
