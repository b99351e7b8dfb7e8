/** The Gini coefficient of the evaluation report (edge-server/eval.go). */
module Gini {
  import opened RealSeqs

  // Products are named so that the inductions below can hide them from the solver.
  function Times(c: real, x: real): real { c * x }

  lemma TimesAdd(c: real, a: real, b: real)
    ensures Times(c, a + b) == Times(c, a) + Times(c, b)
  {
  }

  // ---- the textbook definition: mean absolute difference over all ordered pairs ----

  /** Sum over v in s of |x - v|. */
  function Deviation(x: real, s: seq<real>): real {
    if s == [] then 0.0 else Deviation(x, s[..|s| - 1]) + Abs(x - s[|s| - 1])
  }

  /** Sum over u in a and v in b of |u - v|. */
  function CrossDeviation(a: seq<real>, b: seq<real>): real {
    if a == [] then 0.0 else CrossDeviation(a[..|a| - 1], b) + Deviation(a[|a| - 1], b)
  }

  function PairDeviation(s: seq<real>): real { CrossDeviation(s, s) }

  function Quotient(p: real, n: nat, sum: real): real
    requires n > 0 && sum != 0.0
  {
    p / (2.0 * n as real * sum)
  }

  /** Pairwise Gini; 0 for an empty list and for a zero total, as in the source. */
  function GiniOf(s: seq<real>): real {
    if s == [] || Sum(s) == 0.0 then 0.0 else Quotient(PairDeviation(s), |s|, Sum(s))
  }

  /** The accumulator of the one-pass form: sum of (i+1)·s[i]. */
  function RankedSum(s: seq<real>): real {
    if s == [] then 0.0 else RankedSum(s[..|s| - 1]) + Times(|s| as real, s[|s| - 1])
  }

  // ---- insertion keeps sums and deviations, so sorting does ----

  lemma {:induction false} InsertSum(x: real, s: seq<real>)
    ensures Sum(Insert(x, s)) == Sum(s) + x
  {
    hide Insert, Sum;
    InsertCases(x, s);
    SumAppend(s, x);
    if s == [] {
      assert s + [x] == [x];
    } else if x < s[|s| - 1] {
      var t, l := s[..|s| - 1], s[|s| - 1];
      InsertSum(x, t);
      SumAppend(t, l);
      SumAppend(Insert(x, t), l);
      assert s == t + [l];
    }
  }

  lemma DeviationAppend(y: real, s: seq<real>, x: real)
    ensures Deviation(y, s + [x]) == Deviation(y, s) + Abs(y - x)
  {
    assert (s + [x])[..|s|] == s;
  }

  lemma {:induction false} InsertDeviation(y: real, x: real, s: seq<real>)
    ensures Deviation(y, Insert(x, s)) == Deviation(y, s) + Abs(y - x)
  {
    hide Insert, Deviation;
    InsertCases(x, s);
    DeviationAppend(y, s, x);
    if s == [] {
      assert s + [x] == [x];
    } else if x < s[|s| - 1] {
      var t, l := s[..|s| - 1], s[|s| - 1];
      InsertDeviation(y, x, t);
      DeviationAppend(y, t, l);
      DeviationAppend(y, Insert(x, t), l);
      assert s == t + [l];
    }
  }

  lemma {:induction false} CrossInsertRight(a: seq<real>, x: real, b: seq<real>)
    ensures CrossDeviation(a, Insert(x, b)) == CrossDeviation(a, b) + Deviation(x, a)
  {
    if a != [] {
      CrossInsertRight(a[..|a| - 1], x, b);
      InsertDeviation(a[|a| - 1], x, b);
    }
  }

  lemma CrossAppendLeft(a: seq<real>, x: real, b: seq<real>)
    ensures CrossDeviation(a + [x], b) == CrossDeviation(a, b) + Deviation(x, b)
  {
    assert (a + [x])[..|a|] == a;
  }

  lemma {:induction false} CrossInsertLeft(x: real, a: seq<real>, b: seq<real>)
    ensures CrossDeviation(Insert(x, a), b) == CrossDeviation(a, b) + Deviation(x, b)
  {
    hide Insert, CrossDeviation, Deviation;
    InsertCases(x, a);
    CrossAppendLeft(a, x, b);
    if a == [] {
      assert a + [x] == [x];
    } else if x < a[|a| - 1] {
      var t, l := a[..|a| - 1], a[|a| - 1];
      CrossInsertLeft(x, t, b);
      CrossAppendLeft(t, l, b);
      CrossAppendLeft(Insert(x, t), l, b);
      assert a == t + [l];
    }
  }

  lemma InsertPairDeviation(x: real, s: seq<real>)
    ensures PairDeviation(Insert(x, s)) == PairDeviation(s) + 2.0 * Deviation(x, s)
  {
    CrossInsertLeft(x, s, Insert(x, s));
    CrossInsertRight(s, x, s);
    InsertDeviation(x, x, s);
  }

  lemma {:induction false} CrossAppend(a: seq<real>, b: seq<real>, x: real)
    ensures CrossDeviation(a, b + [x]) == CrossDeviation(a, b) + Deviation(x, a)
  {
    if a != [] {
      CrossAppend(a[..|a| - 1], b, x);
      assert (b + [x])[..|b|] == b;
    }
  }

  lemma AppendPairDeviation(s: seq<real>, x: real)
    ensures PairDeviation(s + [x]) == PairDeviation(s) + 2.0 * Deviation(x, s)
  {
    assert (s + [x])[..|s|] == s;
    CrossAppend(s, s, x);
  }

  lemma {:induction false} SortKeeps(s: seq<real>, x: real)
    ensures Sum(Sort(s)) == Sum(s)
    ensures Deviation(x, Sort(s)) == Deviation(x, s)
  {
    if s != [] {
      var t, l := s[..|s| - 1], s[|s| - 1];
      SortKeeps(t, x);
      InsertSum(l, Sort(t));
      InsertDeviation(x, l, Sort(t));
    }
  }

  lemma {:induction false} SortKeepsPairDeviation(s: seq<real>)
    ensures PairDeviation(Sort(s)) == PairDeviation(s)
  {
    if s != [] {
      var t, l := s[..|s| - 1], s[|s| - 1];
      SortKeepsPairDeviation(t);
      SortKeeps(t, l);
      InsertPairDeviation(l, Sort(t));
      AppendPairDeviation(t, l);
      assert s == t + [l];
    }
  }

  // ---- the sorted one-pass form ----

  lemma {:induction false} DeviationFromLargest(x: real, s: seq<real>)
    requires forall i :: 0 <= i < |s| ==> s[i] <= x
    ensures Deviation(x, s) == Times(|s| as real, x) - Sum(s)
  {
    if s != [] {
      DeviationFromLargest(x, s[..|s| - 1]);
    }
  }

  /** 4·num - 2·(n+1)·sum: the pair deviation of a sorted list from its two accumulators. */
  function Numerator(num: real, n: nat, sum: real): real { 4.0 * num - 2.0 * (n as real + 1.0) * sum }

  lemma NumeratorStep(num: real, n: nat, sum: real, l: real)
    ensures Numerator(num, n, sum) + 2.0 * (Times(n as real, l) - sum)
      == Numerator(num + Times((n + 1) as real, l), n + 1, sum + l)
  {
    var r := n as real;
    assert (n + 1) as real == r + 1.0;
    assert 2.0 * (r + 2.0) * (sum + l) == 2.0 * (r + 1.0) * sum + 2.0 * sum + 2.0 * (r * l) + 4.0 * l;
    assert (r + 1.0) * l == r * l + l;
  }

  lemma {:induction false} SortedPairDeviation(s: seq<real>)
    requires Sorted(s)
    ensures PairDeviation(s) == Numerator(RankedSum(s), |s|, Sum(s))
  {
    if s != [] {
      hide Numerator, Times, PairDeviation, Deviation;
      var t, l := s[..|s| - 1], s[|s| - 1];
      SortedPairDeviation(t);
      AppendPairDeviation(t, l);
      DeviationFromLargest(l, t);
      assert s == t + [l];
      NumeratorStep(RankedSum(t), |t|, Sum(t), l);
    }
  }

  /** The source's expression over the accumulators `num` and `sum`. */
  function OnePass(num: real, n: nat, sum: real): real
    requires n > 0 && sum != 0.0
  {
    (2.0 * num) / (n as real * sum) - (n as real + 1.0) / n as real
  }

  lemma OnePassQuotient(num: real, n: nat, sum: real)
    requires n > 0 && sum != 0.0
    ensures OnePass(num, n, sum) == Quotient(Numerator(num, n, sum), n, sum)
  {
    var r := n as real;
    var d, k := r * sum, r + 1.0;
    assert k / r == (k * sum) / d;
    assert (4.0 * num - 2.0 * k * sum) / (2.0 * d) == (2.0 * num - k * sum) / d;
    assert 2.0 * r * sum == 2.0 * d;
  }

  /** The sorted one-pass form is the pairwise definition. */
  lemma OnePassIsPairwise(given: seq<real>)
    requires given != [] && Sum(given) != 0.0
    ensures Sum(Sort(given)) == Sum(given)
    ensures OnePass(RankedSum(Sort(given)), |given|, Sum(given)) == GiniOf(given)
  {
    hide OnePass, Quotient, RankedSum, PairDeviation, Sum, Sort, Numerator, Times;
    SortSorted(given);
    SortKeeps(given, 0.0);
    SortKeepsPairDeviation(given);
    SortedPairDeviation(Sort(given));
    OnePassQuotient(RankedSum(Sort(given)), |given|, Sum(given));
  }

  lemma RankedSumUpTo(s: seq<real>, i: nat)
    requires i < |s|
    ensures RankedSum(s[..i + 1]) == RankedSum(s[..i]) + Times((i + 1) as real, s[i])
  {
    assert s[..i + 1][..i] == s[..i];
  }

  lemma EmptySums()
    ensures Sum([]) == 0.0 && RankedSum([]) == 0.0 && Sort([]) == []
  {
  }

  /** `sort.Float64s`: a library call, so only its effect is modelled. */
  method SortInPlace(a: array<real>)
    modifies a
    ensures a[..] == Sort(old(a[..]))
  {
    var s := Sort(a[..]);
    SortSorted(a[..]);
    for i := 0 to a.Length
      invariant |s| == a.Length && a[..i] == s[..i]
    {
      a[i] := s[i];
    }
    assert a[..] == a[..a.Length] == s;
  }

  /** `gini`: sorts its argument and accumulates once over the sorted values. The result is the
      pairwise Gini of the values as they were given. */
  method Gini(vals: array<real>) returns (g: real)
    modifies vals
    ensures vals[..] == Sort(old(vals[..]))
    ensures g == GiniOf(old(vals[..]))
  {
    var n := vals.Length;
    ghost var given := vals[..];
    EmptySums();
    hide OnePass, Quotient, RankedSum, PairDeviation, Sum, Sort, Numerator, Times;
    if n == 0 {
      return 0.0;
    }
    SortInPlace(vals);
    ghost var sorted := vals[..];
    SortKeeps(given, 0.0);
    var sum := 0.0;
    assert sorted[..0] == [];
    for i := 0 to n
      invariant vals[..] == sorted && sum == Sum(sorted[..i])
    {
      SumUpTo(sorted, i);
      sum := sum + vals[i];
    }
    assert sorted[..n] == sorted;
    if sum == 0.0 {
      return 0.0;
    }
    var num := 0.0;
    for i := 0 to n
      invariant vals[..] == sorted && num == RankedSum(sorted[..i])
    {
      RankedSumUpTo(sorted, i);
      num := num + Times((i + 1) as real, vals[i]);
    }
    OnePassIsPairwise(given);
    g := OnePass(num, n, sum);
  }

  // ---- what the number means ----

  lemma {:induction false} DeviationBounds(x: real, s: seq<real>)
    requires x >= 0.0 && NonNegative(s)
    ensures 0.0 <= Deviation(x, s) <= Times(|s| as real, x) + Sum(s)
  {
    if s != [] {
      DeviationBounds(x, s[..|s| - 1]);
    }
  }

  ghost predicate AllAre(s: seq<real>, x: real) { forall i :: 0 <= i < |s| ==> s[i] == x }

  lemma AllAreAppend(t: seq<real>, l: real, x: real)
    ensures AllAre(t + [l], x) <==> AllAre(t, x) && l == x
  {
    var s := t + [l];
    assert s[|t|] == l;
    assert forall i :: 0 <= i < |t| ==> s[i] == t[i];
  }

  lemma {:induction false} DeviationZero(x: real, s: seq<real>)
    ensures Deviation(x, s) >= 0.0
    ensures Deviation(x, s) == 0.0 <==> AllAre(s, x)
  {
    if s != [] {
      var t := s[..|s| - 1];
      DeviationZero(x, t);
      AllAreAppend(t, s[|s| - 1], x);
      assert s == t + [s[|s| - 1]];
    }
  }

  ghost predicate AllEqual(s: seq<real>) { forall i, j :: 0 <= i < |s| && 0 <= j < |s| ==> s[i] == s[j] }

  function Ceiling(n: real, sum: real): real { 2.0 * (n - 1.0) * sum }

  lemma CeilingStep(n: nat, sum: real, l: real)
    ensures Ceiling(n as real, sum) + 2.0 * (Times(n as real, l) + sum) == Ceiling((n + 1) as real, sum + l)
  {
    var r := n as real;
    assert (n + 1) as real - 1.0 == r;
    assert 2.0 * r * (sum + l) == 2.0 * (r - 1.0) * sum + 2.0 * sum + 2.0 * (r * l);
  }

  lemma {:induction false} PairDeviationBounds(s: seq<real>)
    requires NonNegative(s)
    ensures PairDeviation(s) <= Ceiling(|s| as real, Sum(s))
  {
    if s != [] {
      hide Ceiling, Times, PairDeviation, Deviation;
      var t, l := s[..|s| - 1], s[|s| - 1];
      assert s == t + [l];
      PairDeviationBounds(t);
      AppendPairDeviation(t, l);
      DeviationBounds(l, t);
      CeilingStep(|t|, Sum(t), l);
    }
  }

  lemma {:induction false} PairDeviationZero(s: seq<real>)
    ensures PairDeviation(s) >= 0.0
    ensures PairDeviation(s) == 0.0 <==> AllEqual(s)
  {
    if s != [] {
      var t, l := s[..|s| - 1], s[|s| - 1];
      assert s == t + [l];
      PairDeviationZero(t);
      AppendPairDeviation(t, l);
      DeviationZero(l, t);
      AllEqualAppend(t, l);
    }
  }

  lemma AllEqualAppend(t: seq<real>, l: real)
    ensures AllEqual(t + [l]) <==> AllEqual(t) && AllAre(t, l)
  {
    var s := t + [l];
    assert s[|t|] == l;
    assert forall i :: 0 <= i < |t| ==> s[i] == t[i];
  }

  lemma QuotientBounds(p: real, n: nat, sum: real)
    requires 0.0 <= p <= Ceiling(n as real, sum) && n > 0 && sum > 0.0
    ensures 0.0 <= Quotient(p, n, sum) <= (n as real - 1.0) / n as real
    ensures Quotient(p, n, sum) == 0.0 <==> p == 0.0
  {
    var d := 2.0 * n as real * sum;
    assert d > 0.0;
    var q, r := p / d, (n as real - 1.0) / n as real;
    assert r * d == Ceiling(n as real, sum);
    assert q * d == p;
    assert (r - q) * d >= 0.0;
  }

  /** For non-negative values the Gini lies in [0, (n-1)/n]; it is 0 exactly when all are equal. */
  lemma GiniRange(s: seq<real>)
    requires NonNegative(s) && s != []
    ensures 0.0 <= GiniOf(s) <= (|s| as real - 1.0) / |s| as real
    ensures GiniOf(s) == 0.0 <==> AllEqual(s)
  {
    SumNonNegative(s);
    PairDeviationBounds(s);
    PairDeviationZero(s);
    if Sum(s) != 0.0 {
      QuotientBounds(PairDeviation(s), |s|, Sum(s));
    }
  }

  lemma SortKeepsGini(s: seq<real>)
    ensures GiniOf(Sort(s)) == GiniOf(s)
  {
    SortSorted(s);
    SortKeeps(s, 0.0);
    SortKeepsPairDeviation(s);
  }

  /** The report does not depend on the order in which a map's values are visited. */
  lemma GiniPermutation(a: seq<real>, b: seq<real>)
    requires multiset(a) == multiset(b)
    ensures GiniOf(a) == GiniOf(b)
  {
    SortIsPermutationInvariant(a, b);
    SortKeepsGini(a);
    SortKeepsGini(b);
  }

  lemma AbsTimes(c: real, x: real, l: real)
    requires c > 0.0
    ensures Abs(Times(c, x) - Times(c, l)) == Times(c, Abs(x - l))
  {
    var d := x - l;
    assert c * x - c * l == c * d;
    if d < 0.0 {
      assert c * d < 0.0;
    } else {
      assert c * d >= 0.0;
    }
  }

  ghost predicate Scaled(c: real, s: seq<real>, r: seq<real>) {
    |r| == |s| && forall i :: 0 <= i < |s| ==> r[i] == Times(c, s[i])
  }

  lemma {:induction false} DeviationScale(c: real, x: real, s: seq<real>, r: seq<real>)
    requires c > 0.0 && Scaled(c, s, r)
    ensures Deviation(Times(c, x), r) == Times(c, Deviation(x, s))
  {
    if s != [] {
      hide Times;
      var t, l := s[..|s| - 1], s[|s| - 1];
      DeviationScale(c, x, t, r[..|s| - 1]);
      AbsTimes(c, x, l);
      TimesAdd(c, Deviation(x, t), Abs(x - l));
    }
  }

  lemma {:induction false} CrossScale(c: real, a: seq<real>, b: seq<real>, p: seq<real>, q: seq<real>)
    requires c > 0.0 && Scaled(c, a, p) && Scaled(c, b, q)
    ensures CrossDeviation(p, q) == Times(c, CrossDeviation(a, b))
  {
    if a != [] {
      hide Times;
      var t, l := a[..|a| - 1], a[|a| - 1];
      CrossScale(c, t, b, p[..|a| - 1], q);
      DeviationScale(c, l, b, q);
      TimesAdd(c, CrossDeviation(t, b), Deviation(l, b));
    }
  }

  lemma PairDeviationScale(c: real, s: seq<real>)
    requires c > 0.0
    ensures PairDeviation(Scale(c, s)) == Times(c, PairDeviation(s))
  {
    hide CrossDeviation;
    CrossScale(c, s, s, Scale(c, s), Scale(c, s));
  }

  lemma SumTimes(c: real, s: seq<real>)
    requires c > 0.0
    ensures Sum(Scale(c, s)) == Times(c, Sum(s))
    ensures Times(c, Sum(s)) == 0.0 <==> Sum(s) == 0.0
  {
    hide Sum;
    SumScale(c, s);
  }

  lemma QuotientScale(c: real, p: real, n: nat, sum: real)
    requires c > 0.0 && n > 0 && sum != 0.0 && Times(c, sum) != 0.0
    ensures Quotient(Times(c, p), n, Times(c, sum)) == Quotient(p, n, sum)
  {
    var d := 2.0 * n as real * sum;
    assert 2.0 * n as real * (c * sum) == c * d;
    var q := p / d;
    assert p == q * d;
    assert c * p == q * (c * d);
  }

  /** Gini is unchanged when every value is multiplied by the same positive factor. */
  lemma GiniScale(c: real, s: seq<real>)
    requires c > 0.0
    ensures GiniOf(Scale(c, s)) == GiniOf(s)
  {
    hide PairDeviation, Quotient, Sum, Times;
    SumTimes(c, s);
    PairDeviationScale(c, s);
    if s != [] && Sum(s) != 0.0 {
      QuotientScale(c, PairDeviation(s), |s|, Sum(s));
    }
  }
}
