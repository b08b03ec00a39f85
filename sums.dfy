/** Sums, means and dot products over sequences of reals: the reductions
    (`sum`, `mean`, `dot`) that the array library supplies to the data
    generator and the error metrics. */
module Sums {

  /** The absolute value. */
  function Abs(x: real): real
  {
    if x < 0.0 then -x else x
  }

  /** The sum of all entries: the first entry plus the sum of the rest. */
  function Sum(s: seq<real>): real
  {
    if |s| == 0 then 0.0 else s[0] + Sum(s[1..])
  }

  /** The arithmetic mean; the mean of no values is undefined. */
  function Mean(s: seq<real>): real
    requires |s| > 0
  {
    Sum(s) / |s| as real
  }

  /** The dot product of a feature row with a coefficient vector. */
  function Dot(row: seq<real>, m: seq<real>): real
    requires |row| == |m|
  {
    Sum(seq(|row|, j requires 0 <= j < |row| => row[j] * m[j]))
  }

  /** True when every entry is at least zero. */
  predicate NonNegative(s: seq<real>)
  {
    forall i :: 0 <= i < |s| ==> s[i] >= 0.0
  }

  /** True when every entry equals every other entry. */
  predicate AllEqual(s: seq<real>)
  {
    forall i, j :: 0 <= i < |s| && 0 <= j < |s| ==> s[i] == s[j]
  }

  /** A sum of non-negative entries is non-negative, and it is zero exactly
      when every entry is zero. */
  lemma {:induction false} SumNonNegative(s: seq<real>)
    requires NonNegative(s)
    ensures Sum(s) >= 0.0
    ensures Sum(s) == 0.0 <==> forall i :: 0 <= i < |s| ==> s[i] == 0.0
  {
    if |s| > 0 {
      assert NonNegative(s[1..]) by {
        forall i | 0 <= i < |s[1..]| ensures s[1..][i] >= 0.0 {
          assert s[1..][i] == s[i + 1];
        }
      }
      SumNonNegative(s[1..]);
      if Sum(s) == 0.0 {
        forall i | 0 <= i < |s| ensures s[i] == 0.0 {
          if i > 0 { assert s[i] == s[1..][i - 1]; }
        }
      }
      if forall i :: 0 <= i < |s| ==> s[i] == 0.0 {
        assert forall i :: 0 <= i < |s[1..]| ==> s[1..][i] == 0.0 by {
          forall i | 0 <= i < |s[1..]| ensures s[1..][i] == 0.0 {
            assert s[1..][i] == s[i + 1];
          }
        }
      }
    }
  }

  /** Summing `n` copies of the same value multiplies it by `n`. */
  lemma {:induction false} SumOfConstant(s: seq<real>, c: real)
    requires forall i :: 0 <= i < |s| ==> s[i] == c
    ensures Sum(s) == |s| as real * c
  {
    if |s| > 0 {
      assert forall i :: 0 <= i < |s[1..]| ==> s[1..][i] == c by {
        forall i | 0 <= i < |s[1..]| ensures s[1..][i] == c {
          assert s[1..][i] == s[i + 1];
        }
      }
      SumOfConstant(s[1..], c);
    }
  }

  /** The sum accumulated from the first entry to the last, the order in
      which a running total visits the entries. */
  function SumLeft(s: seq<real>): real
  {
    if |s| == 0 then 0.0 else SumLeft(s[..|s| - 1]) + s[|s| - 1]
  }

  /** Appending an entry adds it to the sum. */
  lemma {:induction false} SumAppend(s: seq<real>, x: real)
    ensures Sum(s + [x]) == Sum(s) + x
  {
    if |s| > 0 {
      assert (s + [x])[1..] == s[1..] + [x];
      SumAppend(s[1..], x);
    }
  }

  /** Adding entries from the front and adding them from the back give the
      same total. */
  lemma {:induction false} SumIsLeftFold(s: seq<real>)
    ensures Sum(s) == SumLeft(s)
  {
    if |s| > 0 {
      SumIsLeftFold(s[..|s| - 1]);
      SumAppend(s[..|s| - 1], s[|s| - 1]);
      assert s[..|s| - 1] + [s[|s| - 1]] == s;
    }
  }

  /** One more copy of `c` adds `c`. */
  lemma OneMore(m: real, c: real)
    ensures (m + 1.0) * c == m * c + c
  {
  }

  /** Entries bounded by `lo` and `hi` sum to between `|s|` copies of
      each. */
  lemma {:induction false} SumBetween(s: seq<real>, lo: real, hi: real)
    requires forall i :: 0 <= i < |s| ==> lo <= s[i] <= hi
    ensures |s| as real * lo <= Sum(s) <= |s| as real * hi
  {
    if |s| > 0 {
      assert forall i :: 0 <= i < |s[1..]| ==> lo <= s[1..][i] <= hi by {
        forall i | 0 <= i < |s[1..]| ensures lo <= s[1..][i] <= hi {
          assert s[1..][i] == s[i + 1];
        }
      }
      var rest := s[1..];
      SumBetween(rest, lo, hi);
      var m := |rest| as real;
      assert |s| as real == m + 1.0;
      OneMore(m, lo);
      OneMore(m, hi);
      assert Sum(s) == s[0] + Sum(rest);
      assert lo <= s[0] <= hi;
    }
  }

  /** The mean of entries bounded by `lo` and `hi` lies between them. */
  lemma MeanBetween(s: seq<real>, lo: real, hi: real)
    requires |s| > 0
    requires forall i :: 0 <= i < |s| ==> lo <= s[i] <= hi
    ensures lo <= Mean(s) <= hi
  {
    SumBetween(s, lo, hi);
    var n := |s| as real;
    assert Sum(s) / n >= lo by {
      assert Sum(s) >= n * lo;
    }
    assert Sum(s) / n <= hi by {
      assert Sum(s) <= n * hi;
    }
  }

  /** With a single feature the dot product is the one product. */
  lemma DotOfOne(row: seq<real>, m: seq<real>)
    requires |row| == |m| == 1
    ensures Dot(row, m) == row[0] * m[0]
  {
    var prods := seq(|row|, j requires 0 <= j < |row| => row[j] * m[j]);
    assert prods[0] == row[0] * m[0];
    assert prods[1..] == [];
    assert Sum(prods) == prods[0] + Sum(prods[1..]);
  }

  /** The mean of values that all equal `c` is `c`. */
  lemma MeanOfConstant(s: seq<real>, c: real)
    requires |s| > 0
    requires forall i :: 0 <= i < |s| ==> s[i] == c
    ensures Mean(s) == c
  {
    SumOfConstant(s, c);
  }
}
