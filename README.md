# Linear-regression demo utilities in Dafny

This project models the two utility modules of a small linear-regression
demonstration. The data module holds the synthetic-data generator and the
train/test splitter, which shuffles rows and cuts them. The metrics module
holds the two error measures the demo reports: mean absolute percentage
error (MAPE) and the coefficient of determination (R²).

- `sums.dfy` (module `Sums`): sum, mean and dot product over `seq<real>`.
  These are the array reductions the utilities rely on.
- `permutation.dfy` (module `Permutations`): row-index permutations. It
  reorders a sequence of rows by one (`X[indices]`) and proves that
  reordering neither drops nor duplicates a row.
- `data_gen.dfy` (module `DataGen`): `generate_linear_data` is an imperative
  method. It fills an array `y` and updates it in place twice: with the bias,
  then with the noise. `split_dataset` is a function over sequences. It returns a `Result`
  carrying the seed error of reseeding or the index error of `y[indices]`.
- `metrics.dfy` (module `Metrics`): `mean_absolute_percentage_error` and `r2`
  as functions over `seq<real>`, with their bounds, identity cases and the
  values from the unit tests.

The random generator is an input. `generate_linear_data` takes
`seeded: int -> Rng`, the generator each seed selects, and `global: Rng`,
the process-wide generator. An `Rng` holds the stream of unit draws that `uniform` scales
(`low + (high - low) * u`, filled row by row) and the Gaussian draws of
`normal`. The coefficient draws continue the unit stream after the
`n_samples * n_features` feature draws. A given `seed` selects
`seeded(seed)`; otherwise the call uses the process-wide generator
`global`. `split_dataset` takes `shuffle(seed, n)`, the permutation that the
reseeded generator draws for `n` rows. Its one precondition is that, for a
valid seed, this is a permutation of `0 .. n-1`. `SplitDataset` is a function of
`(X, y, test_size, seed)` and the shuffle, so equal inputs give equal splits.

The splitter follows the code in three places that are easy to misread:
- `y` is reindexed by the permutation of `len(X)` rows. So a `y` with fewer
  rows than `X` fails with an index error. A `y` with more rows loses its
  extra rows.
- The split point of `y` is computed after reindexing, so it always equals
  that of `X`.
- The cut uses Python's `int()`, which truncates toward zero, and Python's
  slice rules. A test fraction above one therefore gives a negative cut,
  which counts back from the end.

Reseeding accepts only seeds in [0, 2^32 - 1]. Any other seed fails before
anything is drawn: in `generate_linear_data` when a seed is given, and in
`split_dataset` always, since it always reseeds. The model returns
`Err(BadSeed)` in both cases.

Defaults in the source: 100 samples, 1 feature, features on [-5, 5),
coefficients on [-10, 10), noise strength 1, bias 10, no seed
(`DataGen.DefaultSamples` … `DataGen.DefaultBias`, used by
`DataGen.GenerateDefaultLinearData`). The splitter's defaults are
`test_size = 0.2` and `seed = 0` (`DataGen.DefaultTestSize`,
`DataGen.DefaultSeed`, used by `DataGen.DefaultSplitSizes`).

## Model

| member | source | states |
|---|---|---|
| `DataGen.GenerateLinearData` | utils/data_gen.py:4-23 | The call fails exactly when a seed is given outside [0, 2^32 - 1] (a seed error, checked first) or a sample or feature count is negative (a dimension error). `X` has `n_samples` rows of `n_features` entries, and `y` has `n_samples` rows of one entry. `X` is the uniform feature draws taken from the generator the seed selects. Each `y[i][0]` equals the dot product of row `i` with the coefficients, plus `bias`, plus `noise[i] * noise_strength`. This holds for every bias, so the `bias != 0` guard is unobservable. |
| `DataGen.GenerateDefaultLinearData` | utils/data_gen.py:4-23 | With every default the call succeeds with 100 rows of one feature, each feature in [-5, 5] and the coefficient in [-10, 10] when the unit draws lie in [0, 1). Every target is `x * m + 10` plus its Gaussian draw. |
| `DataGen.GenerateIsReproducible` | utils/data_gen.py:9-23 | Two calls with the same arguments and the same seed return identical results, data or error, whatever state the process-wide generator is in before each. |
| `DataGen.SingleFeatureTarget` | utils/data_gen.py:15-21 | With one feature, the target is `x * m + bias + noise * noise_strength`. |
| `Sums.DotOfOne` | utils/data_gen.py:15 | The dot product of a one-feature row with a one-entry coefficient vector is their product. |
| `DataGen.Uniform` | utils/data_gen.py:13-14 | A unit draw in [0, 1) scaled onto [low, high) stays within [low, high], and strictly below `high` when `low < high`. |
| `DataGen.Features` | utils/data_gen.py:13 | The feature matrix has `n` rows of `f` entries. |
| `DataGen.FeaturesWithinRange` | utils/data_gen.py:13 | With unit draws in [0, 1) and `x_min <= x_max`, every feature lies in [x_min, x_max]. |
| `DataGen.Coefficients` | utils/data_gen.py:14 | There is one coefficient per feature. |
| `DataGen.CoefficientsWithinRange` | utils/data_gen.py:14 | With unit draws in [0, 1) and `m_min <= m_max`, every coefficient lies in [m_min, m_max]. |
| `DataGen.Column` | utils/data_gen.py:15 | Reshaping a vector to `(n, 1)` gives `n` rows of one entry each, and entry `i` is `v[i]`. |
| `DataGen.Trunc` | utils/data_gen.py:37 | `int()` truncates toward zero: the result is less than 1 away from the argument and no larger in magnitude. |
| `DataGen.SliceBound` | utils/data_gen.py:39-40 | A slice bound within [0, n] is used as is. A negative bound counts back from the end. A bound past either end is clamped to 0 or n. |
| `DataGen.SplitPoint` | utils/data_gen.py:37-38 | For `test_size <= 1` the cut is `floor(n * (1 - test_size))`. For a non-negative `test_size` it is at most n. From `test_size = 1` on it is zero or negative. |
| `DataGen.SplitByPermutation` | utils/data_gen.py:26-42 | The split fails with an index error exactly when `y` has fewer rows than `X`. Otherwise the train and test parts of `X` add up to `len(X)` rows, so do those of `y`, and both training parts have the same length. |
| `DataGen.SplitDataset` | utils/data_gen.py:26-42 | The split fails exactly when the seed lies outside [0, 2^32 - 1] (a seed error, checked first) or `y` is shorter than `X` (an index error). Otherwise, with the permutation the seed selects, the training and test rows of `X` are the rows of `X` as a multiset, and likewise for `y` when it has as many rows. |
| `DataGen.DefaultSplitSizes` | utils/data_gen.py:26-40 | With the default `test_size = 0.2` and `seed = 0`, 100 rows split into 80 training and 20 test rows. |
| `DataGen.SplitFailsIffIndexPastY` | utils/data_gen.py:32-34 | The split fails exactly when some shuffled row index has no row in `y`. |
| `DataGen.SplitIsShuffledRows` | utils/data_gen.py:32-40 | `X_train + X_test` is `X` reordered by the permutation, and `y_train + y_test` is `y` reordered by the same permutation. |
| `DataGen.SplitPreservesRows` | utils/data_gen.py:32-40 | No row is dropped or duplicated. The multiset of `X_train + X_test` is that of `X`, and likewise for `y` when it has as many rows as `X`. |
| `DataGen.SplitKeepsPairs` | utils/data_gen.py:33-40 | `X_train[k]` and `y_train[k]` are both row `perm[k]` of the input. `X_test[k]` and `y_test[k]` are both row `perm[len(X_train) + k]`. |
| `DataGen.SplitPartitionsRows` | utils/data_gen.py:32-40 | The original rows behind the training part and those behind the test part are disjoint, and together they are exactly the rows `0 .. len(X)-1`. |
| `DataGen.TrainSizeIsFloor` | utils/data_gen.py:37-40 | For `0 <= test_size <= 1`, the training parts have exactly `floor(len(X) * (1 - test_size))` rows, a count within [0, len(X)]. `test_size = 0` leaves the test parts empty and `test_size = 1` leaves the training parts empty. |
| `DataGen.OversizedTestFractionWraps` | utils/data_gen.py:37-39 | With 10 rows and `test_size = 1.5` the cut is -5, so the training part keeps 5 rows and the test part 5. |
| `Permutations.Permute` | utils/data_gen.py:33-34 | `X[indices]` has one row per index, and each is a row of `X`. |
| `Permutations.PermutePreservesRows` | utils/data_gen.py:32-33 | Reordering rows by a permutation of their indices keeps the multiset of rows. |
| `Permutations.CutPartitionsIndices` | utils/data_gen.py:39 | Cutting a permutation at any point splits the row indices into two disjoint sets whose union is all indices. |
| `Metrics.Squares` | utils/metrics.py:11-12 | Squaring keeps the length and gives non-negative entries. |
| `Metrics.SquareZeroAt` | utils/metrics.py:11-12 | A squared entry is zero exactly where the entry is zero. |
| `Metrics.ResidualSumOfSquares` | utils/metrics.py:12 | `ss_res` is never negative. |
| `Metrics.TotalSumOfSquares` | utils/metrics.py:10-11 | `ss_tot` is never negative. |
| `Metrics.RelativeErrors` | utils/metrics.py:6 | Each absolute relative error `abs((t - p) / t)` is non-negative, one per sample. |
| `Metrics.MeanAbsolutePercentageError` | utils/metrics.py:4-6 | MAPE is never negative. |
| `Metrics.MeanAbsolutePercentageErrorZeroIff` | utils/metrics.py:6 | With no true value zero, MAPE is 0 exactly when the predictions equal the true values. |
| `Metrics.ResidualSumOfSquaresZeroIff` | utils/metrics.py:12 | `ss_res` is non-negative, and zero exactly when the predictions equal the true values. |
| `Metrics.TotalSumOfSquaresZeroIff` | utils/metrics.py:10-11 | `ss_tot` is non-negative. It is zero exactly when every true value equals the mean, that is, exactly when all true values are equal. This is the case the division of `r2` cannot handle. |
| `Metrics.R2` | utils/metrics.py:9-14 | When the true values are not all equal, R² is defined and at most 1. |
| `Metrics.R2OneIff` | utils/metrics.py:12-13 | R² is 1 exactly when the predictions equal the true values. |
| `Metrics.R2OfMeanIsZero` | utils/metrics.py:10-13 | Predicting the mean of the true values for every sample gives R² = 0. |
| `Metrics.MeanAbsolutePercentageErrorExample` | utils/metrics_test.py:5-9 | MAPE of true `[1, 1, 2, 2]` against predictions `[2, 2, 1, 1]` is exactly 75. |
| `Metrics.R2Example` | utils/metrics_test.py:12-16 | R² of true `[1, 1, 2, 2]` against predictions `[2, 2, 1, 1]` is exactly -3. |
| `Sums.SumNonNegative` | utils/metrics.py:6 | A sum of non-negative values is non-negative, and zero exactly when every value is zero. |
| `Sums.SumIsLeftFold` | utils/metrics.py:11-12 | In exact arithmetic the order of summation does not matter: the recursive sum equals the first-to-last running total. |
| `Sums.MeanBetween` | utils/metrics.py:10 | `np.mean` of values that all lie in [lo, hi] lies in [lo, hi]. |
| `Sums.MeanOfConstant` | utils/metrics.py:10 | The mean of values that all equal `c` is `c`. |

## Left out

- The random distributions themselves are not modelled. The draws are
  inputs, and the permutation is assumed to be one. How NumPy's legacy
  generator derives Gaussian draws from the same underlying stream is not
  modelled; the Gaussian draws are a separate input sequence.
- The process-wide generator state is not modelled. Reseeding it is a
  choice between `seeded(seed)` and `global`, and consuming draws does not
  advance any state passed on to later calls.
- IEEE floating point is not modelled: all arithmetic is exact `real`.
  Rounding of `len(X) * (1 - test_size)` before `int()` is not reproduced,
  and neither is rounding in the metrics.
- Dividing by zero is excluded by preconditions instead of producing NaN or
  infinity. MAPE requires a non-empty input with no zero true value. R²
  requires true values that are not all equal, which also excludes the
  empty input.
- NumPy broadcasting of differently shaped operands is not modelled. For
  example, `(n, 1) - (n,)` in `r2` yields an n×n array. The metrics take
  flat sequences of equal length.
- Seeds are integers. NumPy also accepts arrays of integers as seeds; that
  form is not modelled.
- A matrix is a sequence of rows, so one with zero rows has no column
  count: `HasShape(X, 0, f)` holds for every `f`. NumPy keeps the shape
  `(0, n_features)` of an empty `X`; the model does not.
- `n_samples` and `n_features` are integers. Float or other non-integer
  shapes, which NumPy would reject or convert, are not modelled.
- first_app/app.py (the `Model` wrapper) and second_app/app.py (`main`) are
  not part of this model. Their `fit` and `predict` call an external
  least-squares solver, and the rest is import-path setup and printing.
