/**
 * Exact-rational counterparts of the numpy reductions the router scripts use:
 * `sum`, `np.mean`, `np.std` (as the population variance under the root),
 * `np.diff` and Python's `sorted`.
 */
module Stats {

  // ---------------------------------------------------------------- sums and means

  function SumInt(s: seq<int>): int {
    if |s| == 0 then 0 else SumInt(s[..|s| - 1]) + s[|s| - 1]
  }

  function SumReal(s: seq<real>): real {
    if |s| == 0 then 0.0 else SumReal(s[..|s| - 1]) + s[|s| - 1]
  }

  lemma {:induction false} SumIntAppend(s: seq<int>, x: int)
    ensures SumInt(s + [x]) == SumInt(s) + x
  {
    assert (s + [x])[..|s|] == s;
  }

  lemma {:induction false} SumRealAppend(s: seq<real>, x: real)
    ensures SumReal(s + [x]) == SumReal(s) + x
  {
    assert (s + [x])[..|s|] == s;
  }

  /** `np.mean` of a non-empty list of integers. */
  function MeanInt(s: seq<int>): real
    requires |s| > 0
  {
    SumInt(s) as real / |s| as real
  }

  /** `np.mean` of a non-empty list. */
  function Mean(s: seq<real>): real
    requires |s| > 0
  {
    SumReal(s) / |s| as real
  }

  lemma {:induction false} MeanFromSum(s: seq<real>, total: real, n: int)
    requires |s| == n > 0 && SumReal(s) == total
    ensures Mean(s) == total / n as real
  {
  }

  function Min(s: seq<real>): (m: real)
    requires |s| > 0
    ensures m in s
    ensures forall i :: 0 <= i < |s| ==> m <= s[i]
  {
    if |s| == 1 then s[0]
    else
      var m := Min(s[..|s| - 1]);
      assert s == s[..|s| - 1] + [s[|s| - 1]];
      if s[|s| - 1] < m then s[|s| - 1] else m
  }

  function Max(s: seq<real>): (m: real)
    requires |s| > 0
    ensures m in s
    ensures forall i :: 0 <= i < |s| ==> s[i] <= m
  {
    if |s| == 1 then s[0]
    else
      var m := Max(s[..|s| - 1]);
      assert s == s[..|s| - 1] + [s[|s| - 1]];
      if s[|s| - 1] > m then s[|s| - 1] else m
  }

  /** Every element lies between the least and the greatest one, and so does the mean. */
  lemma {:induction false} MeanWithinRange(s: seq<real>)
    requires |s| > 0
    ensures Min(s) <= Mean(s) <= Max(s)
  {
    SumWithinRange(s, Min(s), Max(s));
    DivideBounds(Min(s), SumReal(s), Max(s), |s|);
  }

  lemma {:induction false} DivideBounds(lo: real, total: real, hi: real, n: int)
    requires n > 0 && n as real * lo <= total <= n as real * hi
    ensures lo <= total / n as real <= hi
  {
    assert n as real * lo / n as real == lo && n as real * hi / n as real == hi;
  }

  lemma {:induction false} SumWithinRange(s: seq<real>, lo: real, hi: real)
    requires forall i :: 0 <= i < |s| ==> lo <= s[i] <= hi
    ensures |s| as real * lo <= SumReal(s) <= |s| as real * hi
  {
    if |s| > 0 {
      SumWithinRange(s[..|s| - 1], lo, hi);
    }
  }

  // ---------------------------------------------------------------- variance

  function SquaredDeviations(s: seq<real>, m: real): (r: seq<real>)
    ensures |r| == |s|
    ensures forall i :: 0 <= i < |r| ==> r[i] == (s[i] - m) * (s[i] - m)
  {
    if |s| == 0 then [] else SquaredDeviations(s[..|s| - 1], m) + [(s[|s| - 1] - m) * (s[|s| - 1] - m)]
  }

  /** The population variance (`np.std` squared, ddof = 0). */
  function Variance(s: seq<real>): real
    requires |s| > 0
  {
    Mean(SquaredDeviations(s, Mean(s)))
  }

  lemma {:induction false} SumNonNegative(s: seq<real>)
    requires forall i :: 0 <= i < |s| ==> s[i] >= 0.0
    ensures SumReal(s) >= 0.0
  {
    if |s| > 0 {
      SumNonNegative(s[..|s| - 1]);
    }
  }

  /** The variance is never negative, so its square root (the standard deviation) exists. */
  lemma {:induction false} VarianceNonNegative(s: seq<real>)
    requires |s| > 0
    ensures Variance(s) >= 0.0
  {
    var d := SquaredDeviations(s, Mean(s));
    forall i | 0 <= i < |d| ensures d[i] >= 0.0 {
      SquareNonNegative(s[i] - Mean(s));
    }
    SumNonNegative(d);
    NonNegativeQuotient(SumReal(d), |d|);
  }

  lemma {:induction false} SquareNonNegative(x: real)
    ensures x * x >= 0.0
  {
    if x < 0.0 {
      assert x * x == (-x) * (-x);
    }
  }

  /** The variance of a constant list is 0. */
  lemma {:induction false} VarianceOfConstant(s: seq<real>, c: real)
    requires |s| > 0
    requires forall i :: 0 <= i < |s| ==> s[i] == c
    ensures Variance(s) == 0.0
  {
    MeanOfConstant(s, c);
    SquaredDeviationsOfConstant(s, c);
    MeanOfConstant(SquaredDeviations(s, c), 0.0);
  }

  lemma {:induction false} MeanOfConstant(s: seq<real>, c: real)
    requires |s| > 0
    requires forall i :: 0 <= i < |s| ==> s[i] == c
    ensures Mean(s) == c
  {
    SumWithinRange(s, c, c);
    DivideBounds(c, SumReal(s), c, |s|);
  }

  lemma {:induction false} SquaredDeviationsOfConstant(s: seq<real>, c: real)
    requires forall i :: 0 <= i < |s| ==> s[i] == c
    ensures forall i :: 0 <= i < |s| ==> SquaredDeviations(s, c)[i] == 0.0
  {
    forall i | 0 <= i < |s|
      ensures SquaredDeviations(s, c)[i] == 0.0
    {
      ZeroSquare(s[i] - c);
    }
  }

  lemma {:induction false} ZeroSquare(x: real)
    requires x == 0.0
    ensures x * x == 0.0
  {
  }

  // ---------------------------------------------------------------- gaps

  /** `np.diff(s)`: the consecutive differences s[i+1] - s[i]. */
  function Gaps(s: seq<real>): (r: seq<real>)
    ensures |r| == if |s| == 0 then 0 else |s| - 1
  {
    if |s| <= 1 then [] else Gaps(s[..|s| - 1]) + [s[|s| - 1] - s[|s| - 2]]
  }

  /** Element i of `np.diff(s)` is s[i+1] - s[i]. */
  lemma {:induction false} GapsAt(s: seq<real>, i: nat)
    requires i + 1 < |s|
    ensures Gaps(s)[i] == s[i + 1] - s[i]
  {
    var p := s[..|s| - 1];
    if i + 1 < |p| {
      GapsAt(p, i);
    }
  }

  /** The sum of the gaps telescopes to last minus first. */
  lemma {:induction false} SumGaps(s: seq<real>)
    requires |s| > 0
    ensures SumReal(Gaps(s)) == s[|s| - 1] - s[0]
  {
    if |s| > 1 {
      SumGaps(s[..|s| - 1]);
      GapsSplit(s);
    }
  }

  /** One step of the telescoping sum: the last gap and the gaps of the prefix. */
  lemma {:induction false} GapsSplit(s: seq<real>)
    requires |s| > 1
    ensures SumReal(Gaps(s)) == SumReal(Gaps(s[..|s| - 1])) + (s[|s| - 1] - s[|s| - 2])
    ensures s[..|s| - 1][|s[..|s| - 1]| - 1] == s[|s| - 2] && s[..|s| - 1][0] == s[0]
  {
    SumRealAppend(Gaps(s[..|s| - 1]), s[|s| - 1] - s[|s| - 2]);
  }

  /** So the mean gap of n > 1 values is (last - first) / (n - 1), whatever lies between. */
  lemma {:induction false} MeanGap(s: seq<real>)
    requires |s| > 1
    ensures Mean(Gaps(s)) == (s[|s| - 1] - s[0]) / (|s| - 1) as real
  {
    SumGaps(s);
    MeanFromSum(Gaps(s), s[|s| - 1] - s[0], |s| - 1);
  }

  // ---------------------------------------------------------------- sorting

  /** Element i is at most element j; sortedness is stated, and used, one such pair at a time. */
  predicate InOrder(s: seq<real>, i: int, j: int)
    requires 0 <= i < |s| && 0 <= j < |s|
  {
    s[i] <= s[j]
  }

  predicate IsSorted(s: seq<real>) {
    forall i, j :: 0 <= i < j < |s| ==> InOrder(s, i, j)
  }

  /** The tail of a sorted list is sorted. */
  lemma {:induction false} TailSorted(s: seq<real>)
    requires IsSorted(s) && |s| > 0
    ensures IsSorted(s[1..])
  {
    forall i, j | 0 <= i < j < |s| - 1 ensures InOrder(s[1..], i, j) {
      assert InOrder(s, i + 1, j + 1);
    }
  }

  /** A value no greater than the head of a sorted list can go in front of it. */
  lemma {:induction false} PrependSorted(x: real, s: seq<real>)
    requires IsSorted(s) && (|s| == 0 || x <= s[0])
    ensures IsSorted([x] + s)
  {
    var r := [x] + s;
    forall i, j | 0 <= i < j < |r| ensures InOrder(r, i, j) {
      if i > 0 {
        assert InOrder(s, i - 1, j - 1);
      } else if j > 1 {
        assert InOrder(s, 0, j - 1);
      }
    }
  }

  function Insert(x: real, s: seq<real>): (r: seq<real>)
    requires IsSorted(s)
    ensures IsSorted(r)
    ensures multiset(r) == multiset(s) + multiset{x}
  {
    if |s| == 0 then [x]
    else if x <= s[0] then
      PrependSorted(x, s);
      [x] + s
    else
      TailSorted(s);
      var t := Insert(x, s[1..]);
      InsertBehindHead(x, s, t);
      [s[0]] + t
  }

  /** Putting the head of s in front of a sorted permutation of s[1..] + [x], for x above the head. */
  lemma {:induction false} InsertBehindHead(x: real, s: seq<real>, t: seq<real>)
    requires IsSorted(s) && |s| > 0 && s[0] < x
    requires IsSorted(t) && multiset(t) == multiset(s[1..]) + multiset{x}
    ensures IsSorted([s[0]] + t)
    ensures multiset([s[0]] + t) == multiset(s) + multiset{x}
  {
    assert s == [s[0]] + s[1..];
    if |t| > 0 {
      assert t[0] in multiset(t);
      assert t[0] == x || t[0] in multiset(s[1..]);
      if t[0] != x {
        var m :| 0 <= m < |s| - 1 && s[1..][m] == t[0];
        assert InOrder(s, 0, m + 1);
      }
    }
    PrependSorted(s[0], t);
  }

  /** Python's `sorted`: a sorted permutation of the input. */
  function Sort(s: seq<real>): (r: seq<real>)
    ensures IsSorted(r)
    ensures multiset(r) == multiset(s)
    ensures |r| == |s|
  {
    if |s| == 0 then []
    else
      assert s == [s[0]] + s[1..];
      Insert(s[0], Sort(s[1..]))
  }

  /** The first and last elements of a sorted permutation are the least and the greatest of the input. */
  lemma {:induction false} SortedEnds(s: seq<real>, r: seq<real>)
    requires |s| > 0 && IsSorted(r) && multiset(r) == multiset(s)
    ensures |r| == |s| && r[0] == Min(s) && r[|r| - 1] == Max(s)
    ensures Min(s) <= Max(s)
  {
    assert |r| == |multiset(r)| == |s|;
    assert r[0] in multiset(r) && r[|r| - 1] in multiset(r);
    assert r[0] in s && r[|r| - 1] in s;
    assert Min(s) in multiset(s) && Max(s) in multiset(s);
    assert Min(s) in r && Max(s) in r;
    var lo :| 0 <= lo < |r| && r[lo] == Min(s);
    var hi :| 0 <= hi < |r| && r[hi] == Max(s);
    if lo > 0 {
      assert InOrder(r, 0, lo);
    }
    if hi < |r| - 1 {
      assert InOrder(r, hi, |r| - 1);
    }
  }

  /**
   * The mean gap of the sorted values (the detector's `iat_mean`) is the spread
   * of the values divided by n - 1, and is never negative.
   */
  lemma {:induction false} SortedMeanGap(s: seq<real>)
    requires |s| > 1
    ensures Mean(Gaps(Sort(s))) == (Max(s) - Min(s)) / (|s| - 1) as real
    ensures Mean(Gaps(Sort(s))) >= 0.0
  {
    SortedPermutationMeanGap(s, Sort(s));
  }

  lemma {:induction false} SortedPermutationMeanGap(s: seq<real>, r: seq<real>)
    requires |s| > 1 && IsSorted(r) && multiset(r) == multiset(s)
    ensures |r| == |s|
    ensures Mean(Gaps(r)) == (Max(s) - Min(s)) / (|s| - 1) as real
    ensures Mean(Gaps(r)) >= 0.0
  {
    SortedEnds(s, r);
    MeanGap(r);
    NonNegativeQuotient(Max(s) - Min(s), |s| - 1);
  }

  lemma {:induction false} NonNegativeQuotient(a: real, n: int)
    requires a >= 0.0 && n > 0
    ensures a / n as real >= 0.0
  {
  }
}
