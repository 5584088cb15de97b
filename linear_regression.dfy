/** An ordinary least-squares line y ≈ slope·x + intercept: fitting it to
    paired samples or to a series, evaluating it, scoring it by mean squared
    error and by the coefficient of determination, and forecasting a series.
    Every quantity is an exact real; every operation is total and reports
    invalid input as an `Error` value. */
module LinearRegression {
  import opened Sums

  /** One constructor per distinct failure the operations report. */
  datatype Error =
    | LengthMismatch   // x and y have different lengths
    | EmptyInput       // no samples at all
    | ZeroXVariance    // all x (numerically) equal: no slope can be fitted
    | ZeroYVariance    // all y (numerically) equal: R² is undefined

  datatype Result<T> = Ok(value: T) | Err(error: Error)

  /** The fitted line. */
  datatype Model = Model(slope: real, intercept: real)

  /** The threshold below which a variance-like quantity counts as zero. */
  const Epsilon: real := 1.0e-12

  function Abs(a: real): real
  {
    if a < 0.0 then -a else a
  }

  /** a / d: multiplying it back by d gives a. */
  function Quotient(a: real, d: real): (q: real)
    requires d != 0.0
    ensures q * d == a
  {
    a / d
  }

  function Mean(s: seq<real>): real
    requires |s| > 0
  {
    Quotient(Sum(s), |s| as real)
  }

  /** The value of the line at x. */
  function Predict(m: Model, x: real): real
  {
    m.slope * x + m.intercept
  }

  /** The line evaluated at every x, in order. */
  function PredictMany(m: Model, xs: seq<real>): (r: seq<real>)
    ensures |r| == |xs|
    ensures forall i :: 0 <= i < |xs| ==> r[i] == Predict(m, xs[i])
  {
    seq(|xs|, i requires 0 <= i < |xs| => Predict(m, xs[i]))
  }

  /** The residuals y[i] − Predict(m, x[i]). */
  function Residuals(m: Model, x: seq<real>, y: seq<real>): (e: seq<real>)
    requires |x| == |y|
    ensures |e| == |x|
  {
    seq(|x|, i requires 0 <= i < |x| => y[i] - Predict(m, x[i]))
  }

  /** Σ (y[i] − Predict(m, x[i]))². */
  function ResidualSumOfSquares(m: Model, x: seq<real>, y: seq<real>): real
    requires |x| == |y|
  {
    var e := Residuals(m, x, y);
    Dot(e, e)
  }

  /** Every sample lies on the line. */
  predicate PerfectFit(m: Model, x: seq<real>, y: seq<real>)
    requires |x| == |y|
  {
    forall i :: 0 <= i < |x| ==> y[i] == Predict(m, x[i])
  }

  /** The residual sum of squares is non-negative and zero exactly for a perfect fit. */
  lemma ResidualSumOfSquaresZero(m: Model, x: seq<real>, y: seq<real>)
    requires |x| == |y|
    ensures ResidualSumOfSquares(m, x, y) >= 0.0
    ensures ResidualSumOfSquares(m, x, y) == 0.0 <==> PerfectFit(m, x, y)
  {
    var e := Residuals(m, x, y);
    SumOfSquaresNonNegative(e);
    SumOfSquaresZero(e);
    assert forall i :: 0 <= i < |x| ==> (e[i] == 0.0 <==> y[i] == Predict(m, x[i]));
  }

  /** Σ (y[i] − mean(y))², the total sum of squares; n times it is the spread of y. */
  function TotalSumOfSquares(y: seq<real>): (t: real)
    requires |y| > 0
    ensures t >= 0.0
    ensures |y| as real * t == Spread(y)
  {
    var d := Deviations(y, Mean(y));
    SumOfSquaresNonNegative(d);
    SpreadAsDeviationsFromMean(y, Mean(y));
    Dot(d, d)
  }

  /** The closed-form least-squares line, for samples whose x values are not all equal:
      slope = (nΣxy − ΣxΣy) / (nΣx² − (Σx)²) and intercept = (Σy − slope·Σx) / n.
      The slope solves the normal equation and the line passes through the mean point. */
  function LeastSquaresLine(x: seq<real>, y: seq<real>): (m: Model)
    requires |x| == |y| > 0 && Spread(x) != 0.0
    ensures m.slope * Spread(x) == |x| as real * Dot(x, y) - Sum(x) * Sum(y)
    ensures |x| as real * m.intercept + m.slope * Sum(x) == Sum(y)
  {
    var n := |x| as real;
    var sumX, sumY := Sum(x), Sum(y);
    var sumXY := Dot(x, y);
    var slope := Quotient(n * sumXY - sumX * sumY, Spread(x));
    var intercept := Quotient(sumY - slope * sumX, n);
    Model(slope, intercept)
  }

  /** Least-squares fit of y against x. The checks fire in order: lengths,
      emptiness, then the x-variance threshold on Spread(x) = nΣx² − (Σx)². */
  function FitXY(x: seq<real>, y: seq<real>): (r: Result<Model>)
    ensures r == Err(LengthMismatch) <==> |x| != |y|
    ensures r == Err(EmptyInput) <==> |x| == |y| == 0
    ensures r == Err(ZeroXVariance) <==> |x| == |y| > 0 && Spread(x) < Epsilon
    ensures r.Ok? <==> |x| == |y| > 0 && Spread(x) >= Epsilon
    ensures r.Ok? ==> r.value == LeastSquaresLine(x, y)
  {
    if |x| != |y| then Err(LengthMismatch)
    else if |x| == 0 then Err(EmptyInput)
    else
      SpreadNonNegative(x);
      if Abs(Spread(x)) < Epsilon then Err(ZeroXVariance)
      else Ok(LeastSquaresLine(x, y))
  }

  /** Fit of y against the positions 0, 1, …, n − 1. The emptiness guard
      agrees with the one inside FitXY, so the result is always that fit; a
      single point has zero x-variance and two or more always fit. */
  function FitSeries(y: seq<real>): (r: Result<Model>)
    ensures r == FitXY(Indices(|y|), y)
    ensures r == Err(EmptyInput) <==> |y| == 0
    ensures r == Err(ZeroXVariance) <==> |y| == 1
    ensures r.Ok? <==> |y| >= 2
  {
    SpreadOfIndices(|y|);
    if |y| == 0 then Err(EmptyInput)
    else FitXY(Indices(|y|), y)
  }

  /** Σ (y[i] − Predict(m, x[i]))² / n: n times it is the residual sum of
      squares; it is non-negative, and zero exactly when every sample lies
      on the line. */
  function MeanSquaredError(m: Model, x: seq<real>, y: seq<real>): (mse: real)
    requires |x| == |y| > 0
    ensures |x| as real * mse == ResidualSumOfSquares(m, x, y)
    ensures mse >= 0.0 && (mse == 0.0 <==> PerfectFit(m, x, y))
  {
    var n := |x| as real;
    var rss := ResidualSumOfSquares(m, x, y);
    ResidualSumOfSquaresZero(m, x, y);
    QuotientSign(rss, n);
    Quotient(rss, n)
  }

  /** Mean squared error of m on the samples, after the length and emptiness checks. */
  function MseXY(m: Model, x: seq<real>, y: seq<real>): (r: Result<real>)
    ensures r == Err(LengthMismatch) <==> |x| != |y|
    ensures r == Err(EmptyInput) <==> |x| == |y| == 0
    ensures r.Ok? <==> |x| == |y| > 0
    ensures r.Ok? ==> |x| as real * r.value == ResidualSumOfSquares(m, x, y)
    ensures r.Ok? ==> r.value >= 0.0 && (r.value == 0.0 <==> PerfectFit(m, x, y))
  {
    if |x| != |y| then Err(LengthMismatch)
    else if |x| == 0 then Err(EmptyInput)
    else Ok(MeanSquaredError(m, x, y))
  }

  /** Coefficient of determination 1 − ss_res/ss_tot of m on the samples.
      It is undefined exactly when the spread of y falls below n·Epsilon,
      whatever x and m are; otherwise it is at most 1, and 1 exactly for a
      perfect fit. */
  function R2XY(m: Model, x: seq<real>, y: seq<real>): (r: Result<real>)
    ensures r == Err(LengthMismatch) <==> |x| != |y|
    ensures r == Err(EmptyInput) <==> |x| == |y| == 0
    ensures r == Err(ZeroYVariance) <==> |x| == |y| > 0 && Spread(y) < |y| as real * Epsilon
    ensures r.Ok? <==> |x| == |y| > 0 && Spread(y) >= |y| as real * Epsilon
    ensures r.Ok? ==> (1.0 - r.value) * TotalSumOfSquares(y) == ResidualSumOfSquares(m, x, y)
    ensures r.Ok? ==> r.value <= 1.0 && (r.value == 1.0 <==> PerfectFit(m, x, y))
  {
    if |x| != |y| then Err(LengthMismatch)
    else if |x| == 0 then Err(EmptyInput)
    else
      var ssTot := TotalSumOfSquares(y);
      ScaledBelow(|y| as real, ssTot, Epsilon, Spread(y));
      if Abs(ssTot) < Epsilon then Err(ZeroYVariance)
      else
        var ssRes := ResidualSumOfSquares(m, x, y);
        ResidualSumOfSquaresZero(m, x, y);
        QuotientSign(ssRes, ssTot);
        Ok(1.0 - Quotient(ssRes, ssTot))
  }

  /** The next k values of the series: the line fitted by FitSeries, evaluated
      at positions |y|, |y| + 1, …, |y| + k − 1. A failed fit is passed on
      unchanged. */
  function ForecastFromSeries(y: seq<real>, k: nat): (r: Result<seq<real>>)
    ensures FitSeries(y).Err? ==> r == Err(FitSeries(y).error)
    ensures r == Err(EmptyInput) <==> |y| == 0
    ensures r == Err(ZeroXVariance) <==> |y| == 1
    ensures r.Ok? <==> |y| >= 2
    ensures r.Ok? ==> |r.value| == k
    ensures r.Ok? ==> forall i :: 0 <= i < k ==>
              r.value[i] == Predict(FitSeries(y).value, |y| as real + i as real)
  {
    match FitSeries(y)
    case Err(e) => Err(e)
    case Ok(m) =>
      var start := |y| as real;
      Ok(seq(k, i requires 0 <= i < k => Predict(m, start + i as real)))
  }

  // Facts over plain reals used by the operations above.

  /** A non-negative quotient by a positive real, zero exactly with its numerator. */
  lemma QuotientSign(a: real, d: real)
    requires a >= 0.0 && d > 0.0
    ensures Quotient(a, d) >= 0.0
    ensures Quotient(a, d) == 0.0 <==> a == 0.0
  {
  }

  /** Multiplying both sides by a positive factor keeps a strict bound, both ways. */
  lemma ScaledBelow(n: real, t: real, e: real, s: real)
    requires n > 0.0 && t >= 0.0 && n * t == s
    ensures Abs(t) < e <==> s < n * e
  {
    if t < e {
      assert n * t < n * e;
    } else {
      assert n * t >= n * e;
    }
  }
}
