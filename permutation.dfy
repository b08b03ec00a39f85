/** Row-index permutations and reordering a sequence of rows by one, as
    fancy indexing `X[indices]` does with the indices drawn by the shuffle. */
module Permutations {

  /** Every index listed in `p` names one of `n` rows. */
  predicate IndicesIn(p: seq<nat>, n: nat)
  {
    forall i :: 0 <= i < |p| ==> p[i] < n
  }

  /** `p` lists each row index `0 .. n-1` exactly once. */
  predicate IsPermutation(p: seq<nat>, n: nat)
  {
    && |p| == n
    && IndicesIn(p, n)
    && (forall i, j :: 0 <= i < j < |p| ==> p[i] != p[j])
    && (forall v :: 0 <= v < n ==> v in p)
  }

  /** The rows of `s` taken in the order the indices `p` list them: one
      result row per index, each of them a row of `s`. */
  function Permute<T>(s: seq<T>, p: seq<nat>): (r: seq<T>)
    requires IndicesIn(p, |s|)
    ensures |r| == |p|
    ensures forall k :: 0 <= k < |r| ==> r[k] in s
  {
    seq(|p|, k requires 0 <= k < |p| => s[p[k]])
  }

  /** Removing the position holding the largest index `n-1` from a
      permutation of `0 .. n-1` leaves a permutation of `0 .. n-2`. */
  lemma DropLargest(p: seq<nat>, n: nat, j: nat)
    requires n > 0 && IsPermutation(p, n)
    requires j < |p| && p[j] == n - 1
    ensures IsPermutation(p[..j] + p[j + 1..], n - 1)
  {
    var q := p[..j] + p[j + 1..];
    assert |q| == n - 1;
    assert forall i :: 0 <= i < |q| ==> q[i] == if i < j then p[i] else p[i + 1];
    forall v | 0 <= v < n - 1 ensures v in q {
      assert v in p;
      var i :| 0 <= i < |p| && p[i] == v;
      if i < j { assert q[i] == v; } else { assert q[i - 1] == v; }
    }
  }

  /** Taking out the position `j` that selects the last row: the other
      positions reorder the rows before it. */
  lemma PermuteWithoutLast<T>(s: seq<T>, p: seq<nat>, j: nat)
    requires |s| > 0 && IndicesIn(p, |s|)
    requires j < |p| && p[j] == |s| - 1
    requires IndicesIn(p[..j] + p[j + 1..], |s| - 1)
    ensures multiset(Permute(s, p)) ==
            multiset(Permute(s[..|s| - 1], p[..j] + p[j + 1..])) + multiset{s[|s| - 1]}
  {
    var a := Permute(s, p);
    var q := p[..j] + p[j + 1..];
    var b := Permute(s[..|s| - 1], q);
    assert a == a[..j] + [a[j]] + a[j + 1..];
    assert b == a[..j] + a[j + 1..] by {
      forall k | 0 <= k < |b| ensures b[k] == (a[..j] + a[j + 1..])[k] {
        if k < j { assert q[k] == p[k]; } else { assert q[k] == p[k + 1]; }
      }
    }
    calc {
      multiset(a);
      multiset(a[..j]) + multiset{a[j]} + multiset(a[j + 1..]);
      multiset(b) + multiset{s[|s| - 1]};
    }
  }

  /** Reordering by a permutation neither drops nor duplicates a row: the
      rows after reordering are the rows before, as a multiset. */
  lemma {:induction false} PermutePreservesRows<T>(s: seq<T>, p: seq<nat>)
    requires IsPermutation(p, |s|)
    ensures multiset(Permute(s, p)) == multiset(s)
    decreases |s|
  {
    if |s| > 0 {
      var n := |s|;
      assert n - 1 in p;
      var j :| 0 <= j < |p| && p[j] == n - 1;
      DropLargest(p, n, j);
      PermutePreservesRows(s[..n - 1], p[..j] + p[j + 1..]);
      PermuteWithoutLast(s, p, j);
      assert s == s[..n - 1] + [s[n - 1]];
    }
  }

  /** The row indices listed by `p` from position `lo` up to `hi`. */
  function IndexSet(p: seq<nat>, lo: nat, hi: nat): set<nat>
    requires lo <= hi <= |p|
  {
    set k | lo <= k < hi :: p[k]
  }

  /** Cutting a permutation at any position partitions the row indices:
      the two parts share no index and together name every row. */
  lemma CutPartitionsIndices(p: seq<nat>, n: nat, cut: nat)
    requires IsPermutation(p, n) && cut <= n
    ensures IndexSet(p, 0, cut) !! IndexSet(p, cut, n)
    ensures forall v: nat :: v in IndexSet(p, 0, cut) + IndexSet(p, cut, n) <==> v < n
  {
    forall v: nat | v < n ensures v in IndexSet(p, 0, cut) + IndexSet(p, cut, n) {
      assert v in p;
      var k :| 0 <= k < |p| && p[k] == v;
      if k < cut { assert v in IndexSet(p, 0, cut); } else { assert v in IndexSet(p, cut, n); }
    }
  }
}
