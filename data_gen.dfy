/** The synthetic-data utilities: `generate_linear_data`, which draws a
    feature matrix and builds noisy linear targets from it, and
    `split_dataset`, which shuffles the rows and cuts them into a training
    and a test part. The random generator is passed in as values: the
    stream of unit draws behind `uniform`, the Gaussian draws behind
    `normal`, and the index permutation that the shuffle produces from a
    seed and a row count. */
module DataGen {
  import opened Sums
  import opened Permutations

  datatype Option<T> = None | Some(value: T)

  /** The failures the array library raises on these paths. */
  datatype Error =
    | BadSeed             // a seed outside [0, 2^32 - 1]
    | NegativeDimensions  // a negative sample or feature count
    | IndexOutOfBounds    // a shuffled row index past the end of `y`

  datatype Result<T> = Ok(value: T) | Err(error: Error)

  /** A matrix as its rows. */
  type Matrix = seq<seq<real>>

  /** `a` has `rows` rows of `cols` entries each. */
  predicate HasShape(a: Matrix, rows: nat, cols: nat)
  {
    |a| == rows && forall i :: 0 <= i < |a| ==> |a[i]| == cols
  }

  /** The generator state as the data generator sees it: `unit(k)` is the
      k-th draw in [0, 1) that `uniform` scales, `gauss(k)` the k-th draw
      of `normal`. */
  datatype Rng = Rng(unit: nat -> real, gauss: nat -> real)

  /** Every unit draw lies in [0, 1). */
  ghost predicate UnitDraws(rng: Rng)
  {
    forall k: nat :: 0.0 <= rng.unit(k) < 1.0
  }

  /** Scaling a non-negative width by a fraction in [0, 1] stays within
      the width, strictly below it when the fraction is below one. */
  lemma ScaleWithin(d: real, u: real)
    ensures d >= 0.0 && 0.0 <= u <= 1.0 ==> 0.0 <= d * u <= d
    ensures d > 0.0 && 0.0 <= u < 1.0 ==> d * u < d
  {
  }

  /** Scaling a non-negative width by a non-positive factor gives a
      non-positive result. */
  lemma ScaleBelowZero(d: real, u: real)
    ensures d >= 0.0 && u <= 0.0 ==> d * u <= 0.0
  {
  }

  /** A uniform draw on [low, high) obtained from the unit draw `u`. */
  function Uniform(low: real, high: real, u: real): (x: real)
    ensures 0.0 <= u < 1.0 && low <= high ==> low <= x <= high
    ensures 0.0 <= u < 1.0 && low < high ==> x < high
  {
    var d := high - low;
    ScaleWithin(d, u);
    low + d * u
  }

  /** Reseeding accepts exactly the unsigned 32-bit integers. */
  const SeedLimit: int := 0x1_0000_0000

  predicate ValidSeed(seed: int)
  {
    0 <= seed < SeedLimit
  }

  /** The generator used by a call: reseeded from `seed` when one is given,
      otherwise the process-wide generator as it stands. */
  function Source(seed: Option<int>, seeded: int -> Rng, global: Rng): Rng
  {
    if seed.Some? then seeded(seed.value) else global
  }

  /** The feature matrix `X`: `n` rows of `f` uniform draws on
      [xMin, xMax), filled row by row from the start of the stream. */
  function Features(rng: Rng, n: nat, f: nat, xMin: real, xMax: real): (X: Matrix)
    ensures HasShape(X, n, f)
  {
    seq(n, i requires 0 <= i < n =>
      seq(f, j requires 0 <= j < f => Uniform(xMin, xMax, rng.unit(i * f + j))))
  }

  /** With unit draws in [0, 1), every feature lies in [xMin, xMax]. */
  lemma FeaturesWithinRange(rng: Rng, n: nat, f: nat, xMin: real, xMax: real)
    requires UnitDraws(rng) && xMin <= xMax
    ensures var X := Features(rng, n, f, xMin, xMax);
      forall i, j :: 0 <= i < n && 0 <= j < f ==> xMin <= X[i][j] <= xMax
  {
    forall i, j | 0 <= i < n && 0 <= j < f
      ensures xMin <= Features(rng, n, f, xMin, xMax)[i][j] <= xMax
    {
      var k: nat := i * f + j;
      assert 0.0 <= rng.unit(k) < 1.0;
    }
  }

  /** The coefficient vector `m`: `f` uniform draws on [mMin, mMax) taken
      from the stream right after the `n * f` draws of the features. */
  function Coefficients(rng: Rng, n: nat, f: nat, mMin: real, mMax: real): (m: seq<real>)
    ensures |m| == f
  {
    seq(f, j requires 0 <= j < f => Uniform(mMin, mMax, rng.unit(n * f + j)))
  }

  /** With unit draws in [0, 1), every coefficient lies in [mMin, mMax]. */
  lemma CoefficientsWithinRange(rng: Rng, n: nat, f: nat, mMin: real, mMax: real)
    requires UnitDraws(rng) && mMin <= mMax
    ensures var m := Coefficients(rng, n, f, mMin, mMax);
      forall j :: 0 <= j < f ==> mMin <= m[j] <= mMax
  {
    forall j | 0 <= j < f ensures mMin <= Coefficients(rng, n, f, mMin, mMax)[j] <= mMax {
      var k: nat := n * f + j;
      assert 0.0 <= rng.unit(k) < 1.0;
    }
  }

  /** The target of one sample: its features weighted by the coefficients,
      plus the bias, plus the noise draw scaled by the noise strength. */
  function Target(row: seq<real>, m: seq<real>, bias: real, noise: real, noiseStrength: real): real
    requires |row| == |m|
  {
    Dot(row, m) + bias + noise * noiseStrength
  }

  /** With a single feature the target is a straight line in that
      feature: `x * m + bias + noise * noiseStrength`. */
  lemma SingleFeatureTarget(row: seq<real>, m: seq<real>, bias: real, noise: real, noiseStrength: real)
    requires |row| == |m| == 1
    ensures Target(row, m, bias, noise, noiseStrength) == row[0] * m[0] + bias + noise * noiseStrength
  {
    DotOfOne(row, m);
  }

  datatype Dataset = Dataset(X: Matrix, y: Matrix)

  /** A vector reshaped into a single-column matrix. */
  function Column(v: seq<real>): (c: Matrix)
    ensures HasShape(c, |v|, 1)
    ensures forall i :: 0 <= i < |v| ==> c[i][0] == v[i]
  {
    seq(|v|, i requires 0 <= i < |v| => [v[i]])
  }

  /** Draws an `nSamples` by `nFeatures` feature matrix on [xMin, xMax) in
      row-major order and one coefficient per feature on [mMin, mMax); then
      sets `y` to the products of the rows with the coefficients, adds the
      bias when it is non-zero, and adds the scaled Gaussian noise. */
  method GenerateLinearData(nSamples: int, nFeatures: int, xMin: real, xMax: real,
                            mMin: real, mMax: real, noiseStrength: real,
                            seed: Option<int>, bias: real,
                            seeded: int -> Rng, global: Rng)
    returns (r: Result<Dataset>)
    ensures r.Err? <==> (seed.Some? && !ValidSeed(seed.value)) || nSamples < 0 || nFeatures < 0
    ensures r.Err? ==>
      r.error == if seed.Some? && !ValidSeed(seed.value) then BadSeed else NegativeDimensions
    ensures r.Ok? ==> HasShape(r.value.X, nSamples, nFeatures) && HasShape(r.value.y, nSamples, 1)
    ensures r.Ok? ==>
      r.value.X == Features(Source(seed, seeded, global), nSamples, nFeatures, xMin, xMax)
    ensures r.Ok? ==>
      var rng := Source(seed, seeded, global);
      var m := Coefficients(rng, nSamples, nFeatures, mMin, mMax);
      forall i :: 0 <= i < nSamples ==>
        r.value.y[i][0] == Target(r.value.X[i], m, bias, rng.gauss(i), noiseStrength)
  {
    if seed.Some? && !ValidSeed(seed.value) {
      return Err(BadSeed);
    }
    if nSamples < 0 || nFeatures < 0 {
      return Err(NegativeDimensions);
    }
    var rng := Source(seed, seeded, global);
    var n, f := nSamples as nat, nFeatures as nat;
    var X := Features(rng, n, f, xMin, xMax);
    var m := Coefficients(rng, n, f, mMin, mMax);
    var y := new real[n];
    forall i | 0 <= i < n {
      y[i] := Dot(X[i], m);
    }
    if bias != 0.0 {
      forall i | 0 <= i < n {
        y[i] := y[i] + bias;
      }
    }
    assert forall i :: 0 <= i < n ==> y[i] == Dot(X[i], m) + bias;
    forall i | 0 <= i < n {
      y[i] := y[i] + rng.gauss(i) * noiseStrength;
    }
    assert forall i :: 0 <= i < n ==> y[i] == Target(X[i], m, bias, rng.gauss(i), noiseStrength);
    r := Ok(Dataset(X, Column(y[..])));
  }

  /** Generation with a seed is reproducible: two calls with the same
      arguments and the same seed return the same data, or the same error,
      whatever state the process-wide generator is in before each. */
  method GenerateIsReproducible(nSamples: int, nFeatures: int, xMin: real, xMax: real,
                                mMin: real, mMax: real, noiseStrength: real,
                                seed: int, bias: real,
                                seeded: int -> Rng, before: Rng, after: Rng)
    returns (r1: Result<Dataset>, r2: Result<Dataset>)
    ensures r1 == r2
  {
    r1 := GenerateLinearData(nSamples, nFeatures, xMin, xMax, mMin, mMax, noiseStrength,
                             Some(seed), bias, seeded, before);
    r2 := GenerateLinearData(nSamples, nFeatures, xMin, xMax, mMin, mMax, noiseStrength,
                             Some(seed), bias, seeded, after);
    if r1.Ok? {
      var y1, y2 := r1.value.y, r2.value.y;
      forall i | 0 <= i < |y1| ensures y1[i] == y2[i] {
        assert |y1[i]| == |y2[i]| == 1;
      }
      assert y1 == y2;
    }
  }

  /** The generator's default arguments. */
  const DefaultSamples: nat := 100
  const DefaultFeatures: nat := 1
  const DefaultXMin: real := -5.0
  const DefaultXMax: real := 5.0
  const DefaultMMin: real := -10.0
  const DefaultMMax: real := 10.0
  const DefaultNoiseStrength: real := 1.0
  const DefaultBias: real := 10.0

  /** `generate_linear_data()` with every default: 100 samples of one
      feature on [-5, 5], drawn from the process-wide generator, each target
      on the line `x * m + 10` plus its Gaussian draw, with `m` on
      [-10, 10]. */
  method GenerateDefaultLinearData(seeded: int -> Rng, global: Rng) returns (r: Result<Dataset>)
    ensures r.Ok?
    ensures HasShape(r.value.X, DefaultSamples, 1) && HasShape(r.value.y, DefaultSamples, 1)
    ensures UnitDraws(global) ==>
      forall i :: 0 <= i < DefaultSamples ==> DefaultXMin <= r.value.X[i][0] <= DefaultXMax
    ensures var m := Coefficients(global, DefaultSamples, 1, DefaultMMin, DefaultMMax);
      && (UnitDraws(global) ==> DefaultMMin <= m[0] <= DefaultMMax)
      && forall i :: 0 <= i < DefaultSamples ==>
           r.value.y[i][0] == r.value.X[i][0] * m[0] + DefaultBias + global.gauss(i)
  {
    r := GenerateLinearData(DefaultSamples, DefaultFeatures, DefaultXMin, DefaultXMax,
                            DefaultMMin, DefaultMMax, DefaultNoiseStrength, None, DefaultBias,
                            seeded, global);
    var m := Coefficients(global, DefaultSamples, 1, DefaultMMin, DefaultMMax);
    if UnitDraws(global) {
      FeaturesWithinRange(global, DefaultSamples, 1, DefaultXMin, DefaultXMax);
      CoefficientsWithinRange(global, DefaultSamples, 1, DefaultMMin, DefaultMMax);
    }
    forall i | 0 <= i < DefaultSamples
      ensures r.value.y[i][0] == r.value.X[i][0] * m[0] + DefaultBias + global.gauss(i)
    {
      SingleFeatureTarget(r.value.X[i], m, DefaultBias, global.gauss(i), DefaultNoiseStrength);
    }
  }

  /** Python's `int()` on a number: truncation toward zero. */
  function Trunc(x: real): (k: int)
    ensures Abs(x - k as real) < 1.0 && Abs(k as real) <= Abs(x)
  {
    if x >= 0.0 then x.Floor else -((-x).Floor)
  }

  /** A slice bound `k` resolved against a length `n` as Python does:
      a negative bound counts back from the end, and the result is clamped
      to [0, n]. */
  function SliceBound(k: int, n: nat): (b: nat)
    ensures b <= n
    ensures 0 <= k <= n ==> b == k
    ensures k < 0 && 0 <= n + k ==> b == n + k
    ensures k > n ==> b == n
    ensures n + k < 0 ==> b == 0
  {
    if k < 0 then (if n + k < 0 then 0 else n + k)
    else if k > n then n
    else k
  }

  /** Where rows are cut: the row count scaled by the training fraction
      and truncated. For a test fraction up to one that is the floor; it
      never exceeds the row count for a non-negative fraction, and it is
      zero or negative from a fraction of one on. */
  function SplitPoint(n: nat, testSize: real): (p: int)
    ensures testSize <= 1.0 ==> p == (n as real * (1.0 - testSize)).Floor
    ensures 0.0 <= testSize ==> p <= n
    ensures 1.0 <= testSize ==> p <= 0
  {
    var x := n as real * (1.0 - testSize);
    TrainingShare(n as real, testSize);
    Trunc(x)
  }

  /** The training share `n * (1 - t)` of `n` rows: not negative for a
      test fraction up to one, at most `n` for a non-negative one, and not
      positive from one on. */
  lemma TrainingShare(n: real, t: real)
    requires n >= 0.0
    ensures t <= 1.0 ==> 0.0 <= n * (1.0 - t)
    ensures 0.0 <= t ==> n * (1.0 - t) <= n
    ensures 1.0 <= t ==> n * (1.0 - t) <= 0.0
  {
    ScaleWithin(n, 1.0 - t);
    ScaleBelowZero(n, 1.0 - t);
    if 0.0 <= t && 1.0 < t {
      assert n * (1.0 - t) <= 0.0 <= n;
    }
  }

  /** The splitter's default arguments. */
  const DefaultTestSize: real := 0.2
  const DefaultSeed: int := 0

  datatype Split<A, B> = Split(xTrain: seq<A>, xTest: seq<A>, yTrain: seq<B>, yTest: seq<B>)

  /** Reorders the rows of `X` and `y` by `perm`, then cuts each at its
      split point; `y` is reindexed before its split point is computed, so
      both use the row count of `X`. */
  function SplitByPermutation<A, B>(X: seq<A>, y: seq<B>, testSize: real, perm: seq<nat>)
    : (r: Result<Split<A, B>>)
    requires IsPermutation(perm, |X|)
    ensures r.Err? <==> |y| < |X|
    ensures r.Err? ==> r.error == IndexOutOfBounds
    ensures r.Ok? ==>
      && |r.value.xTrain| + |r.value.xTest| == |X|
      && |r.value.yTrain| + |r.value.yTest| == |X|
      && |r.value.xTrain| == |r.value.yTrain|
  {
    if |y| < |X| then Err(IndexOutOfBounds)
    else
      var xs := Permute(X, perm);
      var ys := Permute(y, perm);
      var xCut := SliceBound(SplitPoint(|xs|, testSize), |xs|);
      var yCut := SliceBound(SplitPoint(|ys|, testSize), |ys|);
      Ok(Split(xs[..xCut], xs[xCut..], ys[..yCut], ys[yCut..]))
  }

  /** `split_dataset`: the permutation is the one the generator, reseeded
      with `seed`, draws for `|X|` rows, so the result is a function of the
      inputs and the seed alone. */
  function SplitDataset<A, B>(X: seq<A>, y: seq<B>, testSize: real, seed: int,
                              shuffle: (int, nat) -> seq<nat>)
    : (r: Result<Split<A, B>>)
    requires ValidSeed(seed) ==> IsPermutation(shuffle(seed, |X|), |X|)
    ensures r.Err? <==> !ValidSeed(seed) || |y| < |X|
    ensures r.Err? ==> r.error == if !ValidSeed(seed) then BadSeed else IndexOutOfBounds
    ensures r.Ok? ==> multiset(r.value.xTrain + r.value.xTest) == multiset(X)
    ensures r.Ok? && |y| == |X| ==> multiset(r.value.yTrain + r.value.yTest) == multiset(y)
  {
    if !ValidSeed(seed) then Err(BadSeed)
    else
      var r := SplitByPermutation(X, y, testSize, shuffle(seed, |X|));
      SplitPreservesRows(X, y, testSize, shuffle(seed, |X|));
      r
  }

  /** With the default test fraction and seed, 100 rows (the generator's
      default sample count) split into 80 training and 20 test rows. */
  lemma DefaultSplitSizes<A, B>(X: seq<A>, y: seq<B>, shuffle: (int, nat) -> seq<nat>)
    requires |X| == |y| == DefaultSamples
    requires IsPermutation(shuffle(DefaultSeed, |X|), |X|)
    ensures var r := SplitDataset(X, y, DefaultTestSize, DefaultSeed, shuffle);
      && r.Ok?
      && |r.value.xTrain| == |r.value.yTrain| == 80
      && |r.value.xTest| == |r.value.yTest| == 20
  {
    assert SplitPoint(100, 0.2) == 80;
  }

  /** The shuffle fails exactly when some drawn row index has no row in
      `y`. */
  lemma SplitFailsIffIndexPastY<A, B>(X: seq<A>, y: seq<B>, testSize: real, perm: seq<nat>)
    requires IsPermutation(perm, |X|)
    ensures SplitByPermutation(X, y, testSize, perm).Err? <==>
            exists i :: 0 <= i < |perm| && perm[i] >= |y|
  {
    if |y| < |X| {
      assert |X| - 1 in perm;
    }
  }

  /** The training and test rows together are the rows of `X` in shuffled
      order, and likewise for `y`. */
  lemma SplitIsShuffledRows<A, B>(X: seq<A>, y: seq<B>, testSize: real, perm: seq<nat>)
    requires IsPermutation(perm, |X|)
    ensures var r := SplitByPermutation(X, y, testSize, perm);
      r.Ok? ==>
        && r.value.xTrain + r.value.xTest == Permute(X, perm)
        && r.value.yTrain + r.value.yTest == Permute(y, perm)
  {
  }

  /** No row is dropped or duplicated: the training and test parts hold the
      rows of `X` (and of `y`, when it has as many rows) as a multiset. */
  lemma SplitPreservesRows<A, B>(X: seq<A>, y: seq<B>, testSize: real, perm: seq<nat>)
    requires IsPermutation(perm, |X|)
    ensures var r := SplitByPermutation(X, y, testSize, perm);
      r.Ok? ==> multiset(r.value.xTrain + r.value.xTest) == multiset(X)
    ensures var r := SplitByPermutation(X, y, testSize, perm);
      r.Ok? && |y| == |X| ==> multiset(r.value.yTrain + r.value.yTest) == multiset(y)
  {
    var r := SplitByPermutation(X, y, testSize, perm);
    if r.Ok? {
      SplitIsShuffledRows(X, y, testSize, perm);
      PermutePreservesRows(X, perm);
      if |y| == |X| {
        PermutePreservesRows(y, perm);
      }
    }
  }

  /** Features and targets stay paired: the k-th training row and the k-th
      training target come from the same original row `perm[k]`, and the
      k-th test row and target from row `perm[|xTrain| + k]`. */
  lemma SplitKeepsPairs<A, B>(X: seq<A>, y: seq<B>, testSize: real, perm: seq<nat>)
    requires IsPermutation(perm, |X|)
    ensures var r := SplitByPermutation(X, y, testSize, perm);
      r.Ok? ==>
        && (forall k :: 0 <= k < |r.value.xTrain| ==>
              r.value.xTrain[k] == X[perm[k]] && r.value.yTrain[k] == y[perm[k]])
        && (forall k :: 0 <= k < |r.value.xTest| ==>
              var i := perm[|r.value.xTrain| + k];
              r.value.xTest[k] == X[i] && r.value.yTest[k] == y[i])
  {
  }

  /** The original rows behind the training part and those behind the test
      part do not overlap, and together they are all rows of `X`. */
  lemma SplitPartitionsRows<A, B>(X: seq<A>, y: seq<B>, testSize: real, perm: seq<nat>)
    requires IsPermutation(perm, |X|)
    ensures var r := SplitByPermutation(X, y, testSize, perm);
      r.Ok? ==>
        var cut := |r.value.xTrain|;
        && IndexSet(perm, 0, cut) !! IndexSet(perm, cut, |X|)
        && forall v: nat :: v in IndexSet(perm, 0, cut) + IndexSet(perm, cut, |X|) <==> v < |X|
  {
    var r := SplitByPermutation(X, y, testSize, perm);
    if r.Ok? {
      CutPartitionsIndices(perm, |X|, |r.value.xTrain|);
    }
  }

  /** For a test fraction in [0, 1] the training part has exactly
      floor(n * (1 - testSize)) rows, a count within [0, n]; a zero test
      fraction leaves the test part empty, a test fraction of one the
      training part. */
  lemma TrainSizeIsFloor<A, B>(X: seq<A>, y: seq<B>, testSize: real, perm: seq<nat>)
    requires IsPermutation(perm, |X|) && |y| >= |X|
    requires 0.0 <= testSize <= 1.0
    ensures var r := SplitByPermutation(X, y, testSize, perm);
      var size := (|X| as real * (1.0 - testSize)).Floor;
      && 0 <= size <= |X|
      && |r.value.xTrain| == |r.value.yTrain| == size
      && (testSize == 0.0 ==> r.value.xTest == [] && r.value.yTest == [])
      && (testSize == 1.0 ==> r.value.xTrain == [] && r.value.yTrain == [])
  {
  }

  /** A test fraction above one gives a negative cut, which Python reads
      as counting back from the end: with 10 rows and a fraction of 1.5
      the training part keeps the first 5 shuffled rows. */
  lemma OversizedTestFractionWraps<A, B>(X: seq<A>, y: seq<B>, perm: seq<nat>)
    requires |X| == 10 && |y| == 10 && IsPermutation(perm, 10)
    ensures var r := SplitByPermutation(X, y, 1.5, perm);
      |r.value.xTrain| == 5 && |r.value.xTest| == 5
  {
    assert SplitPoint(10, 1.5) == -5;
  }
}
