# Linear regression, modelled in Dafny

This project models the `LinearRegression` value type of `src/linear_regression.rs`. The type is an
ordinary least-squares line `{slope, intercept}`. It comes with seven operations:

- `fit_xy` fits the line to paired samples;
- `fit_series` fits it to a series against the positions `0 … n−1`;
- `predict` and `predict_many` evaluate the line;
- `mse_xy` scores it by mean squared error;
- `r2_xy` scores it by the coefficient of determination;
- `forecast_from_series` extends a series by `k` fitted values.

The source is pure: guards that return early, plus iterator sums over read-only slices. The model
follows that form:

- a `Model` datatype;
- an `Error` datatype with one constructor per distinct failure (length mismatch, empty input, zero
  x-variance, zero y-variance), carried in a `Result`;
- one function per operation, with the guards in the same order as the source;
- exact `real` arithmetic in place of `f64`;
- the source's two `< 1e-12` thresholds, kept exactly as `Epsilon`.

Files:

- `sums.dfy` (module `Sums`) has the iterator sums and their algebra:
  - `Sum` is a left fold, like `Iterator::sum`;
  - `Dot` is a sum of products;
  - `Deviations` subtracts a constant from each element;
  - `Spread(s) = n·Σs² − (Σs)²` is the fit's denominator;
  - `Indices(n)` is the x sequence that `fit_series` builds.
- `linear_regression.dfy` (module `LinearRegression`) has the datatypes and the seven operations.
  `FitXY`, `MseXY` and `R2XY` are stated as exact if-and-only-if conditions for each error and for
  success. Their success values are described by contract, not by formula.
- `least_squares.dfy` (module `LeastSquares`) has the properties that relate several operations:
  - the normal equations, taken on samples whose x values are not all equal (`SolvesNormalEquations`);
  - the line through the mean point;
  - least squares as the unique minimiser of the residual sum of squares and of the MSE;
  - recovery of an exact line;
  - `fit_series` and the forecast on exact lines;
  - R² of the fitted line never being negative.
- `regression_tests.dfy` (module `RegressionTests`) has the source's three unit tests and the edge
  cases, as lemmas about concrete samples.

`Predict` is the formula of line 46 itself. It has no contract of its own; what it means is stated
through `PredictMany` and the lemmas that use it.

## Model

| member | source | states |
|---|---|---|
| `LinearRegression.PredictMany` | src/linear_regression.rs:50-52 | one prediction per input, same length and order: element i is `slope·xs[i] + intercept` |
| `LinearRegression.LeastSquaresLine` | src/linear_regression.rs:29-31 | the closed-form slope solves `slope·denom = nΣxy − ΣxΣy`, and the intercept solves `n·intercept + slope·Σx = Σy` |
| `LinearRegression.FitXY` | src/linear_regression.rs:9-32 | length mismatch exactly when the lengths differ; empty input exactly when both are empty; zero x-variance exactly when `nΣx² − (Σx)² < 1e-12` on non-empty equal-length input; otherwise Ok with the closed-form line |
| `LinearRegression.FitSeries` | src/linear_regression.rs:35-42 | always equals `FitXY([0, 1, …, n−1], y)`; empty input exactly for n = 0, zero x-variance exactly for n = 1, success exactly for n ≥ 2 |
| `LinearRegression.ResidualSumOfSquaresZero` | src/linear_regression.rs:87-93 | `Σ(y − predict(x))²` is non-negative, and zero exactly when every sample lies on the line |
| `LinearRegression.MeanSquaredError` | src/linear_regression.rs:63-69 | n·mse is the residual sum of squares; mse ≥ 0, and mse = 0 exactly for a perfect fit |
| `LinearRegression.MseXY` | src/linear_regression.rs:55-71 | length mismatch is checked before emptiness (each exactly when it applies); otherwise Ok with a value whose n-fold is the residual sum of squares, non-negative and 0 exactly for a perfect fit |
| `LinearRegression.TotalSumOfSquares` | src/linear_regression.rs:82-83 | `Σ(y − mean y)²` is non-negative, and n times it is `nΣy² − (Σy)²` |
| `LinearRegression.R2XY` | src/linear_regression.rs:74-95 | length and empty checks in that order; zero y-variance exactly when ss_tot falls below 1e-12, whatever x and the line are; success exactly on equal-length non-empty samples whose ss_tot reaches 1e-12, and then `(1 − value)·ss_tot = ss_res`, the value is at most 1, and exactly 1 for a perfect fit |
| `LinearRegression.ForecastFromSeries` | src/linear_regression.rs:98-105 | a `FitSeries` error is passed on unchanged (empty for n = 0, zero x-variance for n = 1); otherwise exactly k values, value i being the fitted line at `|y| + i` |
| `Sums.SpreadNonNegative` | src/linear_regression.rs:24 | the fit denominator `nΣx² − (Σx)²` is never negative |
| `Sums.SpreadZeroIffConstant` | src/linear_regression.rs:24-27 | the denominator is zero exactly when all x are equal |
| `Sums.SpreadAsDeviationsFromMean` | src/linear_regression.rs:82-83 | n times the sum of squared deviations from the mean equals `nΣs² − (Σs)²` |
| `Sums.SpreadOfIndices` | src/linear_regression.rs:40-41 | for positions `0 … n−1` the denominator is 0 when n ≤ 1 and at least 1 when n ≥ 2 |
| `LeastSquares.FitXYSolvesNormalEquations` | src/linear_regression.rs:18-31 | a successful fit satisfies both normal equations |
| `LeastSquares.FitXYThroughMeans` | src/linear_regression.rs:29-30 | the fitted line passes through (mean x, mean y) |
| `LeastSquares.LineThroughMeans` | src/linear_regression.rs:30 | any line meeting the intercept equation passes through the mean point |
| `LeastSquares.FitXYNormalEquations` | src/linear_regression.rs:18-31 | the residuals of the fit sum to zero and are orthogonal to x |
| `LeastSquares.ResidualsOrthogonal` | src/linear_regression.rs:29-30 | a line solving the normal equations has residuals summing to zero and orthogonal to x |
| `LeastSquares.ResidualsSumToZero` | src/linear_regression.rs:30 | the intercept equation makes the residuals sum to zero |
| `LeastSquares.ResidualsOrthogonalToX` | src/linear_regression.rs:29-30 | the two normal equations together make the residuals orthogonal to x |
| `LeastSquares.PredictionsMatchCrossProducts` | src/linear_regression.rs:29-30 | under the normal equations, Σ x·prediction equals Σ x·y |
| `LeastSquares.ResidualSumOfSquaresShift` | src/linear_regression.rs:87-93 | moving from a line with such residuals to any other line adds exactly the squared gap between the two lines |
| `LeastSquares.FitXYMinimizesSquaredError` | src/linear_regression.rs:9-32 | the fitted line has the least residual sum of squares of all lines, and every other line has strictly more |
| `LeastSquares.UniqueMinimizer` | src/linear_regression.rs:29-31 | a line solving the normal equations is the unique minimiser of the residual sum of squares |
| `LeastSquares.FitXYMinimizesMse` | src/linear_regression.rs:55-71 | no line has a smaller `mse_xy` on the samples than the fitted one, and only the fitted line itself has an equal one |
| `LeastSquares.MinimizesMse` | src/linear_regression.rs:63-69 | a line solving the normal equations has the least MSE, and every other line has strictly more |
| `LeastSquares.MseMonotone` | src/linear_regression.rs:63-69 | MSE orders lines as the residual sum of squares does, with equal MSE exactly when the sums are equal |
| `LeastSquares.FitXYRecoversLine` | src/linear_regression.rs:24-31 | when every y equals `a·x + b` and the denominator passes the threshold, the fit returns exactly slope a and intercept b |
| `LeastSquares.FitXYConstantXFails` | src/linear_regression.rs:24-27 | equal x values always give zero x-variance |
| `LeastSquares.FitSeriesRecoversLine` | src/linear_regression.rs:35-42 | a series of n ≥ 2 points on a line is fitted with exactly that line |
| `LeastSquares.ForecastContinuesLine` | src/linear_regression.rs:98-105 | the forecast of a series on a line is the next k points of that line |
| `LeastSquares.PredictManyAppend` | src/linear_regression.rs:50-52 | predicting a concatenation is concatenating the predictions |
| `LeastSquares.FitXYR2NonNegative` | src/linear_regression.rs:74-95 | R² of the fitted line on its own samples is never negative, since the fit beats the flat line at mean y |
| `RegressionTests.FitOfDoubledLine` | src/linear_regression.rs:120-127 | x = [1,2,3,4], y = [2,4,6,8] fits slope 2 and intercept 0, and the line predicts 10 at 5 |
| `RegressionTests.MseOfDoubledLine` | src/linear_regression.rs:130-134 | that line has MSE exactly 0 on those samples |
| `RegressionTests.R2OfDoubledLine` | src/linear_regression.rs:130-135 | that line has R² exactly 1 on those samples |
| `RegressionTests.ForecastOfCountingSeries` | src/linear_regression.rs:139-144 | forecasting 2 steps of [1,2,3] gives [4,5] |
| `RegressionTests.ConstantXHasNoFit` | src/linear_regression.rs:24-27 | x = [5,5,5] is refused with zero x-variance |
| `RegressionTests.ConstantYHasNoR2` | src/linear_regression.rs:83-86 | y = [3,3,3] makes R² fail with zero y-variance for every line |
| `RegressionTests.MalformedSamples` | src/linear_regression.rs:10-16 | `[]` against `[1]` is a length mismatch, not empty input; two empty inputs are empty input; a one-point series has zero x-variance and its forecast passes that on |
| `RegressionTests.NegativeR2` | src/linear_regression.rs:94 | the line y = 10 on samples (0,0), (1,1) has R² = −361 |

## Left out

- IEEE-754 `f64` behaviour is not modelled. Every quantity is an exact real, so rounding, NaN and infinities do not arise.
- The order of summation is not modelled. Sums are left folds like `Iterator::sum`, but with exact reals the order cannot change a result.
- The error messages are Portuguese strings in the source. They are modelled as the four `Error` constructors, without text.
- The `Debug`, `Clone` and `PartialEq` derives and the `#[cfg(test)]` harness are not modelled. The three unit tests are lemmas in `RegressionTests`.
- The test helper `quase_igual` (src/linear_regression.rs:115-117) is not modelled. With exact reals the tests' `< 1e-12` tolerances become exact equalities.
- The zero-y-variance condition of `R2XY` is stated as `Spread(y) < n·1e-12`. `TotalSumOfSquares` states `n·ss_tot = Spread(y)`, so this is the same as the source's `|ss_tot| < 1e-12`.
- `usize` and the `n as f64` conversions are modelled as `nat` and exact reals, so very long inputs lose no precision.
