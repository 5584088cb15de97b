/** The unit tests of the regression core and its edge cases, each stated as
    a lemma about concrete samples. */
module RegressionTests {
  import opened Sums
  import opened LinearRegression
  import opened LeastSquares

  /** Fitting y = 2x at x = 1, 2, 3, 4 gives slope 2 and intercept 0, and the
      fitted line predicts 10 at x = 5. */
  lemma FitOfDoubledLine()
    ensures FitXY([1.0, 2.0, 3.0, 4.0], [2.0, 4.0, 6.0, 8.0]) == Ok(Model(2.0, 0.0))
    ensures Predict(FitXY([1.0, 2.0, 3.0, 4.0], [2.0, 4.0, 6.0, 8.0]).value, 5.0) == 10.0
  {
    var x, m := [1.0, 2.0, 3.0, 4.0], Model(2.0, 0.0);
    assert PredictMany(m, x) == [2.0, 4.0, 6.0, 8.0];
    assert Sum(x) == 10.0;
    assert Products(x, x) == [1.0, 4.0, 9.0, 16.0];
    assert Dot(x, x) == 30.0;
    assert Spread(x) == 20.0;
    FitXYRecoversLine(x, m);
  }

  /** The fitted line of the test above scores a zero mean squared error. */
  lemma MseOfDoubledLine()
    ensures MseXY(Model(2.0, 0.0), [1.0, 2.0, 3.0, 4.0], [2.0, 4.0, 6.0, 8.0]) == Ok(0.0)
  {
    assert PerfectFit(Model(2.0, 0.0), [1.0, 2.0, 3.0, 4.0], [2.0, 4.0, 6.0, 8.0]);
  }

  /** The fitted line of the test above has a coefficient of determination of exactly 1. */
  lemma R2OfDoubledLine()
    ensures R2XY(Model(2.0, 0.0), [1.0, 2.0, 3.0, 4.0], [2.0, 4.0, 6.0, 8.0]) == Ok(1.0)
  {
    var x, y, m := [1.0, 2.0, 3.0, 4.0], [2.0, 4.0, 6.0, 8.0], Model(2.0, 0.0);
    assert PerfectFit(m, x, y);
    SpreadOfDoubledSamples();
  }

  lemma SpreadOfDoubledSamples()
    ensures Spread([2.0, 4.0, 6.0, 8.0]) == 80.0
  {
    var y := [2.0, 4.0, 6.0, 8.0];
    assert Sum(y) == 20.0;
    assert Products(y, y) == [4.0, 16.0, 36.0, 64.0];
    assert Dot(y, y) == 120.0;
  }

  /** Forecasting two steps of the series 1, 2, 3 continues it with 4, 5. */
  lemma ForecastOfCountingSeries()
    ensures ForecastFromSeries([1.0, 2.0, 3.0], 2) == Ok([4.0, 5.0])
  {
    var m := Model(1.0, 1.0);
    assert PredictMany(m, Indices(3)) == [1.0, 2.0, 3.0];
    assert PredictMany(m, Indices(5))[3..] == [4.0, 5.0];
    ForecastContinuesLine(m, 3, 2);
  }

  /** Equal x values leave no slope to fit. */
  lemma ConstantXHasNoFit()
    ensures FitXY([5.0, 5.0, 5.0], [1.0, 2.0, 3.0]) == Err(ZeroXVariance)
  {
    FitXYConstantXFails([5.0, 5.0, 5.0], [1.0, 2.0, 3.0]);
  }

  /** Equal y values leave R² undefined, whatever the line. */
  lemma ConstantYHasNoR2(m: Model)
    ensures R2XY(m, [1.0, 2.0, 3.0], [3.0, 3.0, 3.0]) == Err(ZeroYVariance)
  {
    SpreadZeroIffConstant([3.0, 3.0, 3.0]);
  }

  /** Samples of different lengths and empty samples are refused, in that order. */
  lemma MalformedSamples(m: Model)
    ensures FitXY([], [1.0]) == Err(LengthMismatch)
    ensures FitXY([], []) == Err(EmptyInput)
    ensures MseXY(m, [1.0], []) == Err(LengthMismatch)
    ensures R2XY(m, [], []) == Err(EmptyInput)
    ensures FitSeries([]) == Err(EmptyInput)
    ensures FitSeries([7.0]) == Err(ZeroXVariance)
    ensures ForecastFromSeries([7.0], 3) == Err(ZeroXVariance)
  {
  }

  /** A line far from the samples does worse than their mean: R² is negative. */
  lemma NegativeR2()
    ensures R2XY(Model(0.0, 10.0), [0.0, 1.0], [0.0, 1.0]) == Ok(-361.0)
  {
    var m, x, y := Model(0.0, 10.0), [0.0, 1.0], [0.0, 1.0];
    assert Residuals(m, x, y) == [-10.0, -9.0];
    assert ResidualSumOfSquares(m, x, y) == 181.0;
    assert TotalSumOfSquares(y) == 0.5;
  }
}
