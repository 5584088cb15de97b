/** What the least-squares fit guarantees: the residuals satisfy the normal
    equations, the fitted line is the unique minimiser of the squared error,
    a line is recovered exactly from its own points, and a forecast of such a
    series continues the line. */
module LeastSquares {
  import opened Sums
  import opened LinearRegression

  /** The normal equations of least squares on samples whose x values are not
      all equal: the equation for the slope, and passage through the mean point. */
  predicate SolvesNormalEquations(x: seq<real>, y: seq<real>, m: Model)
  {
    |x| == |y| > 0 && Spread(x) > 0.0 &&
    m.slope * Spread(x) == |x| as real * Dot(x, y) - Sum(x) * Sum(y) &&
    |x| as real * m.intercept + m.slope * Sum(x) == Sum(y)
  }

  lemma FitXYSolvesNormalEquations(x: seq<real>, y: seq<real>)
    requires FitXY(x, y).Ok?
    ensures SolvesNormalEquations(x, y, FitXY(x, y).value)
  {
  }

  /** The fitted line passes through the mean point (mean(x), mean(y)). */
  lemma FitXYThroughMeans(x: seq<real>, y: seq<real>)
    requires FitXY(x, y).Ok?
    ensures Predict(FitXY(x, y).value, Mean(x)) == Mean(y)
  {
    var m := FitXY(x, y).value;
    FitXYSolvesNormalEquations(x, y);
    LineThroughMeans(x, y, m);
  }

  /** The intercept equation alone puts the line through the mean point. */
  lemma LineThroughMeans(x: seq<real>, y: seq<real>, m: Model)
    requires |x| == |y| > 0
    requires |x| as real * m.intercept + m.slope * Sum(x) == Sum(y)
    ensures Predict(m, Mean(x)) == Mean(y)
  {
    var n := |x| as real;
    ThroughMeansAlgebra(n, Sum(x), Sum(y), m.slope, m.intercept, Mean(x), Mean(y));
  }

  /** The residuals of the fit sum to zero and are orthogonal to x. */
  lemma FitXYNormalEquations(x: seq<real>, y: seq<real>)
    requires FitXY(x, y).Ok?
    ensures Sum(Residuals(FitXY(x, y).value, x, y)) == 0.0
    ensures Dot(x, Residuals(FitXY(x, y).value, x, y)) == 0.0
  {
    FitXYSolvesNormalEquations(x, y);
    ResidualsOrthogonal(x, y, FitXY(x, y).value);
  }

  lemma ResidualsOrthogonal(x: seq<real>, y: seq<real>, m: Model)
    requires SolvesNormalEquations(x, y, m)
    ensures Sum(Residuals(m, x, y)) == 0.0
    ensures Dot(x, Residuals(m, x, y)) == 0.0
  {
    ResidualsSumToZero(x, y, m);
    ResidualsOrthogonalToX(x, y, m);
  }

  /** The intercept equation alone makes the residuals sum to zero. */
  lemma ResidualsSumToZero(x: seq<real>, y: seq<real>, m: Model)
    requires |x| == |y| > 0
    requires |x| as real * m.intercept + m.slope * Sum(x) == Sum(y)
    ensures Sum(Residuals(m, x, y)) == 0.0
  {
    var e, p := Residuals(m, x, y), PredictMany(m, x);
    PredictionsAffine(m, x);
    SumSub(y, p, e);
    SumAffine(x, p, m.slope, m.intercept);
    MeanPointAlgebra(|x| as real, Sum(x), Sum(y), m.slope, m.intercept, Sum(p), Sum(e));
  }

  lemma ResidualsOrthogonalToX(x: seq<real>, y: seq<real>, m: Model)
    requires SolvesNormalEquations(x, y, m)
    ensures Dot(x, Residuals(m, x, y)) == 0.0
  {
    var e, p := Residuals(m, x, y), PredictMany(m, x);
    DotSub(x, y, p, e);
    PredictionsMatchCrossProducts(x, y, m);
  }

  /** Under the normal equations, Σ x·prediction equals Σ x·y. */
  lemma PredictionsMatchCrossProducts(x: seq<real>, y: seq<real>, m: Model)
    requires SolvesNormalEquations(x, y, m)
    ensures Dot(x, PredictMany(m, x)) == Dot(x, y)
  {
    PredictionsAffine(m, x);
    DotAffine(x, x, PredictMany(m, x), m.slope, m.intercept);
    PredictionsMatchAlgebra(x, y, m);
  }

  lemma PredictionsMatchAlgebra(x: seq<real>, y: seq<real>, m: Model)
    requires SolvesNormalEquations(x, y, m)
    requires Dot(x, PredictMany(m, x)) == m.slope * Dot(x, x) + m.intercept * Sum(x)
    ensures Dot(x, PredictMany(m, x)) == Dot(x, y)
  {
    SlopeAlgebra(|x| as real, Sum(x), Sum(y), Dot(x, y), Dot(x, x), Spread(x), m.slope, m.intercept,
                 Dot(x, PredictMany(m, x)));
  }

  /** The predictions of a line, written out as an affine image of x. */
  lemma PredictionsAffine(m: Model, x: seq<real>)
    ensures forall i :: 0 <= i < |x| ==> PredictMany(m, x)[i] == Affine(m.slope, m.intercept, x[i])
  {
  }

  /** The values at the sample points of the difference between two lines. */
  function Gap(x: seq<real>, m: Model, other: Model): (q: seq<real>)
    ensures |q| == |x|
  {
    seq(|x|, i requires 0 <= i < |x| => Predict(m, x[i]) - Predict(other, x[i]))
  }

  /** Moving from a line whose residuals satisfy the normal equations to any
      other line adds the sum of squares of the gap between the two lines. */
  lemma ResidualSumOfSquaresShift(x: seq<real>, y: seq<real>, m: Model, other: Model)
    requires |x| == |y|
    requires Sum(Residuals(m, x, y)) == 0.0 && Dot(x, Residuals(m, x, y)) == 0.0
    ensures ResidualSumOfSquares(other, x, y) == ResidualSumOfSquares(m, x, y) + Dot(Gap(x, m, other), Gap(x, m, other))
  {
    var q := Gap(x, m, other);
    var e, f := Residuals(m, x, y), Residuals(other, x, y);
    var da, db := m.slope - other.slope, m.intercept - other.intercept;
    assert forall i :: 0 <= i < |x| ==> q[i] == Affine(da, db, x[i]);
    DotAffine(e, x, q, da, db);
    DotSymmetric(e, x);
    DotSub(e, f, q, e);
    DotSub(f, f, q, e);
    DotSub(q, f, q, e);
    DotSymmetric(f, e);
    DotSymmetric(f, q);
    DotSymmetric(q, e);
  }

  /** The fitted line has the least residual sum of squares of all lines, and
      any other line has strictly more. */
  lemma FitXYMinimizesSquaredError(x: seq<real>, y: seq<real>, other: Model)
    requires FitXY(x, y).Ok?
    ensures ResidualSumOfSquares(FitXY(x, y).value, x, y) <= ResidualSumOfSquares(other, x, y)
    ensures ResidualSumOfSquares(FitXY(x, y).value, x, y) == ResidualSumOfSquares(other, x, y) <==> other == FitXY(x, y).value
  {
    FitXYSolvesNormalEquations(x, y);
    UniqueMinimizer(x, y, FitXY(x, y).value, other);
  }

  lemma UniqueMinimizer(x: seq<real>, y: seq<real>, m: Model, other: Model)
    requires SolvesNormalEquations(x, y, m)
    ensures ResidualSumOfSquares(m, x, y) <= ResidualSumOfSquares(other, x, y)
    ensures ResidualSumOfSquares(m, x, y) == ResidualSumOfSquares(other, x, y) <==> other == m
  {
    var q := Gap(x, m, other);
    ResidualsOrthogonal(x, y, m);
    ResidualSumOfSquaresShift(x, y, m, other);
    SumOfSquaresNonNegative(q);
    if ResidualSumOfSquares(m, x, y) == ResidualSumOfSquares(other, x, y) {
      SumOfSquaresZero(q);
      GapZero(x, m, other);
    }
  }

  /** Two lines that agree at every sample point of an x with positive spread are equal. */
  lemma GapZero(x: seq<real>, m: Model, other: Model)
    requires |x| > 0 && Spread(x) > 0.0
    requires forall i :: 0 <= i < |x| ==> Gap(x, m, other)[i] == 0.0
    ensures m == other
  {
    var q := Gap(x, m, other);
    var da, db := m.slope - other.slope, m.intercept - other.intercept;
    assert forall i :: 0 <= i < |x| ==> q[i] == Affine(da, db, x[i]);
    if da != 0.0 {
      forall i | 0 <= i < |x| ensures x[i] == x[0] {
        CancelFactor(da, x[i], x[0], db);
      }
      SpreadZeroIffConstant(x);
      assert false;
    }
    assert q[0] == db;
  }

  /** The same holds for the mean squared error. */
  lemma FitXYMinimizesMse(x: seq<real>, y: seq<real>, other: Model)
    requires FitXY(x, y).Ok?
    ensures MseXY(FitXY(x, y).value, x, y).value <= MseXY(other, x, y).value
    ensures MseXY(FitXY(x, y).value, x, y).value == MseXY(other, x, y).value <==> other == FitXY(x, y).value
  {
    FitXYSolvesNormalEquations(x, y);
    MinimizesMse(x, y, FitXY(x, y).value, other);
  }

  lemma MinimizesMse(x: seq<real>, y: seq<real>, m: Model, other: Model)
    requires SolvesNormalEquations(x, y, m)
    ensures MseXY(m, x, y).value <= MseXY(other, x, y).value
    ensures MseXY(m, x, y).value == MseXY(other, x, y).value <==> other == m
  {
    UniqueMinimizer(x, y, m, other);
    MseMonotone(x, y, m, other);
  }

  /** The mean squared error orders lines as the residual sum of squares does,
      and ties exactly where it ties. */
  lemma MseMonotone(x: seq<real>, y: seq<real>, m: Model, other: Model)
    requires |x| == |y| > 0
    requires ResidualSumOfSquares(m, x, y) <= ResidualSumOfSquares(other, x, y)
    ensures MseXY(m, x, y).value <= MseXY(other, x, y).value
    ensures MseXY(m, x, y).value == MseXY(other, x, y).value <==>
            ResidualSumOfSquares(m, x, y) == ResidualSumOfSquares(other, x, y)
  {
    ScaledAtMost(|x| as real, MeanSquaredError(m, x, y), MeanSquaredError(other, x, y),
                 ResidualSumOfSquares(m, x, y), ResidualSumOfSquares(other, x, y));
    MseTie(x, y, m, other);
  }

  lemma MseTie(x: seq<real>, y: seq<real>, m: Model, other: Model)
    requires |x| == |y| > 0
    ensures MeanSquaredError(m, x, y) == MeanSquaredError(other, x, y) <==>
            ResidualSumOfSquares(m, x, y) == ResidualSumOfSquares(other, x, y)
  {
    if ResidualSumOfSquares(m, x, y) == ResidualSumOfSquares(other, x, y) {
      CancelFactor(|x| as real, MeanSquaredError(m, x, y), MeanSquaredError(other, x, y), 0.0);
    }
  }

  /** Fitting the points of a line recovers that line, provided the x
      values pass the variance threshold. */
  lemma FitXYRecoversLine(x: seq<real>, m: Model)
    requires |x| > 0 && Spread(x) >= Epsilon
    ensures FitXY(x, PredictMany(m, x)) == Ok(m)
  {
    var y := PredictMany(m, x);
    var f := FitXY(x, y).value;
    ResidualSumOfSquaresZero(m, x, y);
    ResidualSumOfSquaresZero(f, x, y);
    FitXYMinimizesSquaredError(x, y, m);
  }

  /** Constant x values never fit. */
  lemma FitXYConstantXFails(x: seq<real>, y: seq<real>)
    requires |x| == |y| > 0 && Constant(x)
    ensures FitXY(x, y) == Err(ZeroXVariance)
  {
    SpreadZeroIffConstant(x);
  }

  /** Fitting a series sampled from a line at 0, 1, …, n − 1 recovers the line. */
  lemma FitSeriesRecoversLine(m: Model, n: nat)
    requires n >= 2
    ensures FitSeries(PredictMany(m, Indices(n))) == Ok(m)
  {
    SpreadOfIndices(n);
    FitXYRecoversLine(Indices(n), m);
  }

  /** Forecasting a series sampled from a line continues the same line. */
  lemma ForecastContinuesLine(m: Model, n: nat, k: nat)
    requires n >= 2
    ensures ForecastFromSeries(PredictMany(m, Indices(n)), k) == Ok(PredictMany(m, Indices(n + k))[n..])
  {
    var y := PredictMany(m, Indices(n));
    FitSeriesRecoversLine(m, n);
    var r := ForecastFromSeries(y, k).value;
    var s := PredictMany(m, Indices(n + k))[n..];
    assert |y| == n;
    forall i | 0 <= i < k ensures r[i] == s[i] {
      assert Indices(n + k)[n + i] == n as real + i as real;
    }
    assert r == s;
  }

  /** Predicting a concatenation is concatenating the predictions. */
  lemma PredictManyAppend(m: Model, a: seq<real>, b: seq<real>)
    ensures PredictMany(m, a + b) == PredictMany(m, a) + PredictMany(m, b)
  {
    assert forall i :: 0 <= i < |a| + |b| ==> (a + b)[i] == if i < |a| then a[i] else b[i - |a|];
  }

  /** The fitted line scores an R² of at least 0: it does no worse than the
      horizontal line at mean(y). */
  lemma FitXYR2NonNegative(x: seq<real>, y: seq<real>)
    requires FitXY(x, y).Ok? && R2XY(FitXY(x, y).value, x, y).Ok?
    ensures R2XY(FitXY(x, y).value, x, y).value >= 0.0
  {
    var m := FitXY(x, y).value;
    var flat := Model(0.0, Mean(y));
    var d := Deviations(y, Mean(y));
    assert Residuals(flat, x, y) == d;
    FitXYMinimizesSquaredError(x, y, flat);
    ResidualSumOfSquaresZero(m, x, y);
    RatioAtMostOne(ResidualSumOfSquares(m, x, y), TotalSumOfSquares(y));
  }

  // Identities over plain reals, one per arithmetic step of the lemmas above.
  // Each takes the quantities its caller has in hand as separate parameters, so
  // that the nonlinear reasoning happens here, in a context holding only these
  // few products, rather than beside the sums and sequences of the caller.

  lemma ThroughMeansAlgebra(n: real, sx: real, sy: real, a: real, b: real, mx: real, my: real)
    requires n != 0.0 && n * mx == sx && n * my == sy && n * b + a * sx == sy
    ensures a * mx + b == my
  {
    assert n * (a * mx + b) == n * my;
    CancelFactor(n, a * mx + b, my, 0.0);
  }

  lemma MeanPointAlgebra(n: real, sx: real, sy: real, a: real, b: real, sp: real, se: real)
    requires n * b + a * sx == sy
    requires sp == a * sx + n * b && se == sy - sp
    ensures se == 0.0
  {
  }

  lemma SlopeAlgebra(n: real, sx: real, sy: real, sxy: real, sx2: real, sp: real,
                     a: real, b: real, dxp: real)
    requires sp == n * sx2 - sx * sx
    requires a * sp == n * sxy - sx * sy
    requires n * b + a * sx == sy
    requires dxp == a * sx2 + b * sx
    requires n != 0.0
    ensures dxp == sxy
  {
    var dxe := sxy - dxp;
    assert n * dxe == n * sxy - a * (n * sx2) - (n * b) * sx;
    assert n * dxe == 0.0;
    ProductZero(n, dxe);
  }

  /** A non-zero factor cancels from d·a + c = 0 = d·b + c. */
  lemma CancelFactor(d: real, a: real, b: real, c: real)
    requires d != 0.0 && d * a + c == d * b + c
    ensures a == b
  {
    assert d * (a - b) == 0.0;
    ProductZero(d, a - b);
  }

  lemma ScaledAtMost(n: real, a: real, b: real, na: real, nb: real)
    requires n > 0.0 && n * a == na && n * b == nb && na <= nb
    ensures a <= b
  {
  }

  lemma RatioAtMostOne(a: real, d: real)
    requires 0.0 <= a <= d && d > 0.0
    ensures 1.0 - Quotient(a, d) >= 0.0
  {
    ScaledAtMost(d, Quotient(a, d), 1.0, a, d);
  }
}
