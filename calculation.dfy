/**
 * The progress calculator: a key result's progress is the clamped linear
 * position of its current value between start and target; an objective's
 * progress is the unweighted mean of its key results' progress, and a
 * sheet's the unweighted mean of its objectives'. Doubles are modelled as reals.
 */
module Calculation {
  import opened Domain
  import Lists

  /** Below this distance between target and start the range counts as empty. */
  const Epsilon: real := 0.0001

  function Abs(x: real): (r: real)
    ensures r >= 0.0 && (r == x || r == -x)
  {
    if x < 0.0 then -x else x
  }

  function Min(a: real, b: real): real { if a <= b then a else b }

  function Max(a: real, b: real): real { if a >= b then a else b }

  /** calculateKrProgress. */
  function KrProgress(start: real, target: real, current: real): (p: real)
    ensures 0.0 <= p <= 1.0
  {
    if Abs(target - start) < Epsilon then
      (if current >= target then 1.0 else 0.0)
    else
      Max(0.0, Min(1.0, (current - start) / (target - start)))
  }

  /** On an empty range progress is all or nothing: 1.0 exactly when the target is reached. */
  lemma DegenerateRange(start: real, target: real, current: real)
    requires Abs(target - start) < Epsilon
    ensures KrProgress(start, target, current) == 1.0 <==> current >= target
    ensures KrProgress(start, target, current) == 0.0 <==> current < target
  {
  }

  lemma DivMonotonic(a: real, b: real, n: real)
    requires n > 0.0 && a <= b
    ensures a / n <= b / n
  {
    assert b / n - a / n == (b - a) / n;
  }

  lemma DivBounds(a: real, n: real, lo: real, hi: real)
    requires n > 0.0 && lo * n <= a <= hi * n
    ensures lo <= a / n <= hi
  {
    DivMonotonic(lo * n, a, n);
    DivMonotonic(a, hi * n, n);
  }

  /** Between start and target (in either direction) progress is the plain ratio, unclamped. */
  lemma KrProgressInterpolates(start: real, target: real, current: real)
    requires Abs(target - start) >= Epsilon
    requires start <= current <= target || target <= current <= start
    ensures KrProgress(start, target, current) == (current - start) / (target - start)
  {
    if target > start {
      DivBounds(current - start, target - start, 0.0, 1.0);
    } else {
      assert (current - start) / (target - start) == (start - current) / (start - target);
      DivBounds(start - current, start - target, 0.0, 1.0);
    }
  }

  lemma ZeroOver(d: real)
    requires d != 0.0
    ensures 0.0 / d == 0.0
  {
    assert (0.0 / d) * d == 0.0;
  }

  lemma SelfOver(d: real)
    requires d != 0.0
    ensures d / d == 1.0
  {
    var q := d / d;
    assert q * d == d;
    assert (q - 1.0) * d == 0.0;
  }

  /** The start value gives 0 and the target value gives 1. */
  lemma KrProgressEndpoints(start: real, target: real)
    requires Abs(target - start) >= Epsilon
    ensures KrProgress(start, target, start) == 0.0
    ensures KrProgress(start, target, target) == 1.0
  {
    KrProgressInterpolates(start, target, start);
    KrProgressInterpolates(start, target, target);
    ZeroOver(target - start);
    SelfOver(target - start);
  }

  /** For an ascending range, more current value never means less progress. */
  lemma KrProgressMonotonic(start: real, target: real, c1: real, c2: real)
    requires target > start && c1 <= c2
    ensures KrProgress(start, target, c1) <= KrProgress(start, target, c2)
  {
    if Abs(target - start) >= Epsilon {
      DivMonotonic(c1 - start, c2 - start, target - start);
    }
  }

  /** A value of a list of rows, read through `f`, in list order. */
  function Project<T>(s: seq<T>, f: T -> real): (r: seq<real>)
    ensures |r| == |s| && forall i :: 0 <= i < |s| ==> r[i] == f(s[i])
  {
    seq(|s|, i requires 0 <= i < |s| => f(s[i]))
  }

  function Sum(xs: seq<real>): real {
    if xs == [] then 0.0 else xs[0] + Sum(xs[1..])
  }

  lemma {:induction false} SumBounds(xs: seq<real>, lo: real, hi: real)
    requires forall i :: 0 <= i < |xs| ==> lo <= xs[i] <= hi
    ensures lo * |xs| as real <= Sum(xs) <= hi * |xs| as real
  {
    if xs != [] {
      SumBounds(xs[1..], lo, hi);
    }
  }

  /** The unweighted mean, 0.0 for an empty list. */
  function Mean(xs: seq<real>): (m: real)
    ensures xs == [] ==> m == 0.0
    ensures xs != [] ==> m * |xs| as real == Sum(xs)
  {
    if xs == [] then 0.0 else Sum(xs) / |xs| as real
  }

  /** A mean never leaves the range its values lie in. */
  lemma MeanBounds(xs: seq<real>, lo: real, hi: real)
    requires lo <= hi
    requires forall i :: 0 <= i < |xs| ==> lo <= xs[i] <= hi
    ensures lo <= Mean(xs) <= hi || (xs == [] && Mean(xs) == 0.0)
    ensures xs != [] ==> lo <= Mean(xs) <= hi
  {
    if xs != [] {
      SumBounds(xs, lo, hi);
      DivBounds(Sum(xs), |xs| as real, lo, hi);
    }
  }

  function KrProgressOf(kr: KeyResult): real { kr.computedProgress }

  function ObjectiveProgressOf(o: Objective): real { o.computedProgress }

  function KrSortKey(kr: KeyResult): int { kr.sortOrder }

  function ObjectiveSortKey(o: Objective): int { o.sortOrder }

  /** calculateObjectiveProgress: the mean of the key results' computed progress. */
  function CalculateObjectiveProgress(krs: seq<KeyResult>): (p: real)
    ensures krs == [] ==> p == 0.0
    ensures krs != [] ==> p * |krs| as real == Sum(Project(krs, KrProgressOf))
    ensures (forall i :: 0 <= i < |krs| ==> 0.0 <= krs[i].computedProgress <= 1.0) ==> 0.0 <= p <= 1.0
  {
    var ps := Project(krs, KrProgressOf);
    if forall i :: 0 <= i < |ps| ==> 0.0 <= ps[i] <= 1.0 then
      MeanBounds(ps, 0.0, 1.0);
      Mean(ps)
    else
      Mean(ps)
  }

  /** calculateSheetProgress: the mean of the objectives' computed progress. */
  function CalculateSheetProgress(objs: seq<Objective>): (p: real)
    ensures objs == [] ==> p == 0.0
    ensures objs != [] ==> p * |objs| as real == Sum(Project(objs, ObjectiveProgressOf))
    ensures (forall i :: 0 <= i < |objs| ==> 0.0 <= objs[i].computedProgress <= 1.0) ==> 0.0 <= p <= 1.0
  {
    var ps := Project(objs, ObjectiveProgressOf);
    if forall i :: 0 <= i < |ps| ==> 0.0 <= ps[i] <= 1.0 then
      MeanBounds(ps, 0.0, 1.0);
      Mean(ps)
    else
      Mean(ps)
  }

  /**
   * Aggregation reads nothing but computedProgress: key-result lists that
   * agree on it (whatever their weights, values or titles) give the same result.
   */
  lemma ObjectiveProgressReadsOnlyProgress(a: seq<KeyResult>, b: seq<KeyResult>)
    requires |a| == |b| && forall i :: 0 <= i < |a| ==> a[i].computedProgress == b[i].computedProgress
    ensures CalculateObjectiveProgress(a) == CalculateObjectiveProgress(b)
  {
    assert Project(a, KrProgressOf) == Project(b, KrProgressOf);
  }

  lemma SheetProgressReadsOnlyProgress(a: seq<Objective>, b: seq<Objective>)
    requires |a| == |b| && forall i :: 0 <= i < |a| ==> a[i].computedProgress == b[i].computedProgress
    ensures CalculateSheetProgress(a) == CalculateSheetProgress(b)
  {
    assert Project(a, ObjectiveProgressOf) == Project(b, ObjectiveProgressOf);
  }

  lemma {:induction false} InsertKeepsSum<T>(x: T, s: seq<T>, key: T -> int, f: T -> real)
    ensures Sum(Project(Lists.Insert(x, s, key), f)) == f(x) + Sum(Project(s, f))
  {
    var r := Lists.Insert(x, s, key);
    if s == [] || key(x) <= key(s[0]) {
      assert Project(r, f)[1..] == Project(s, f);
    } else {
      var rest := Lists.Insert(x, s[1..], key);
      InsertKeepsSum(x, s[1..], key, f);
      assert Project(r, f)[1..] == Project(rest, f);
      assert Project(s, f)[1..] == Project(s[1..], f);
    }
  }

  /** Sorting a list of rows does not change the sum of any value read from them. */
  lemma {:induction false} SortKeepsSum<T>(s: seq<T>, key: T -> int, f: T -> real)
    ensures Sum(Project(Lists.SortOn(s, key), f)) == Sum(Project(s, f))
  {
    if s != [] {
      SortKeepsSum(s[1..], key, f);
      InsertKeepsSum(s[0], Lists.SortOn(s[1..], key), key, f);
      assert Project(s, f)[1..] == Project(s[1..], f);
    }
  }

  /** The objective mean does not depend on the order the key results are listed in. */
  lemma ObjectiveProgressIgnoresOrder(krs: seq<KeyResult>)
    ensures CalculateObjectiveProgress(Lists.SortOn(krs, KrSortKey)) == CalculateObjectiveProgress(krs)
  {
    SortKeepsSum(krs, KrSortKey, KrProgressOf);
  }

  /** The sheet mean does not depend on the order the objectives are listed in. */
  lemma SheetProgressIgnoresOrder(objs: seq<Objective>)
    ensures CalculateSheetProgress(Lists.SortOn(objs, ObjectiveSortKey)) == CalculateSheetProgress(objs)
  {
    SortKeepsSum(objs, ObjectiveSortKey, ObjectiveProgressOf);
  }
}
