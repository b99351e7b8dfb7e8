/** How the scheduler measures the load of its workers: usage bias, load variance and load bias, read
    off its maps in whatever order Go visits them (edge-server/scheduler.go). */
module Loads {
  import opened RealSeqs
  import opened Shared
  import opened MapSums

  /** `totalAssigned` */
  method TotalAssigned(m: map<NodeId, int>) returns (total: int)
    ensures total == Total(m)
  {
    total := 0;
    var rest := m;
    while rest != map[]
      invariant total + Total(rest) == Total(m)
      decreases rest.Keys
    {
      var k :| k in rest;
      TotalSplit(rest, k);
      total := total + rest[k];
      rest := rest - {k};
    }
  }

  // ---- antiBias ----

  /** The factor for a worker that got this share of all assignments. */
  function BiasFactor(prop: real): real
    requires prop >= 0.0
  {
    if prop > 0.3 then 1.0 / (1.0 + (prop - 0.3) * 4.0) else 1.0 + (0.3 - prop) * 1.5
  }

  function Proportion(part: int, total: int): real
    requires total != 0
  {
    part as real / total as real
  }

  ghost predicate Counts(m: map<NodeId, int>) { forall w :: w in m ==> m[w] >= 0 }

  lemma ShareRange(m: map<NodeId, int>, w: NodeId)
    requires Counts(m)
    ensures Total(m) >= 0 && 0 <= At(m, w) <= Total(m)
    ensures Total(m) != 0 ==> 0.0 <= Proportion(At(m, w), Total(m)) <= 1.0
  {
    TotalNonNegative(m);
    if Total(m) != 0 {
      ProportionOrder(0, At(m, w), Total(m));
      ProportionOrder(At(m, w), Total(m), Total(m));
    }
  }

  lemma ProportionOrder(a: int, b: int, total: int)
    requires a <= b && total > 0
    ensures Proportion(a, total) <= Proportion(b, total)
    ensures Proportion(0, total) == 0.0 && Proportion(total, total) == 1.0
  {
    var t := total as real;
    assert Proportion(b, total) - Proportion(a, total) == (b - a) as real / t;
    QuotientNonNegative((b - a) as real, t);
  }

  lemma QuotientNonNegative(x: real, y: real)
    requires x >= 0.0 && y > 0.0
    ensures x / y >= 0.0
  {
  }

  ghost function AntiBias(m: map<NodeId, int>, w: NodeId): real
    requires Counts(m)
  {
    ShareRange(m, w);
    if Total(m) == 0 then 1.0 else BiasFactor(Proportion(At(m, w), Total(m)))
  }

  /** `antiBias` */
  method ComputeAntiBias(m: map<NodeId, int>, w: NodeId) returns (r: real)
    requires Counts(m)
    ensures r == AntiBias(m, w)
  {
    hide BiasFactor, Proportion;
    ShareRange(m, w);
    var total := TotalAssigned(m);
    if total == 0 {
      return 1.0;
    }
    r := BiasFactor(Proportion(At(m, w), total));
  }

  lemma ReciprocalOrder(x: real, y: real)
    requires 0.0 < x <= y
    ensures 1.0 / y <= 1.0 / x
  {
    assert 1.0 / x - 1.0 / y == (y - x) / (x * y);
    QuotientNonNegative(y - x, x * y);
  }

  /** On [0, 1] the factor falls from 1.45 to 1/3.8. */
  lemma BiasFactorFalls(p: real, q: real)
    requires 0.0 <= p <= q <= 1.0
    ensures 1.0 / 3.8 <= BiasFactor(q) <= BiasFactor(p) <= 1.45
  {
    if q > 0.3 {
      ReciprocalOrder(1.0 + (q - 0.3) * 4.0, 3.8);
      ReciprocalOrder(1.0, 1.0 + (q - 0.3) * 4.0);
      if p > 0.3 {
        ReciprocalOrder(1.0 + (p - 0.3) * 4.0, 1.0 + (q - 0.3) * 4.0);
        ReciprocalOrder(1.0, 1.0 + (p - 0.3) * 4.0);
      }
    }
  }

  /** The factor lies in [1/3.8, 1.45], and a worker with more assignments never gets a larger one. */
  lemma AntiBiasRange(m: map<NodeId, int>, w: NodeId, v: NodeId)
    requires Counts(m)
    ensures 1.0 / 3.8 <= AntiBias(m, w) <= 1.45
    ensures At(m, v) <= At(m, w) ==> AntiBias(m, w) <= AntiBias(m, v)
  {
    hide BiasFactor, Proportion;
    ShareRange(m, w);
    ShareRange(m, v);
    if Total(m) != 0 {
      var p, q := Proportion(At(m, v), Total(m)), Proportion(At(m, w), Total(m));
      BiasFactorFalls(q, q);
      if At(m, v) <= At(m, w) {
        ProportionOrder(At(m, v), At(m, w), Total(m));
        BiasFactorFalls(p, q);
      }
    } else {
      assert 1.0 / 3.8 <= 1.0 <= 1.45;
    }
  }

  /** The factor in terms of the share of all assignments: it falls in a straight line until the share is 0.3,
      and is a reciprocal from there on. */
  lemma AntiBiasIs(m: map<NodeId, int>, w: NodeId)
    requires Counts(m)
    ensures Total(m) == 0 ==> AntiBias(m, w) == 1.0
    ensures Total(m) != 0 ==>
      var share := At(m, w) as real / Total(m) as real;
      if share <= 0.3 then AntiBias(m, w) == 1.45 - 1.5 * share else AntiBias(m, w) * (4.0 * share - 0.2) == 1.0
  {
    ShareRange(m, w);
    if Total(m) != 0 {
      BiasFactorIs(At(m, w) as real / Total(m) as real);
    }
  }

  lemma BiasFactorIs(share: real)
    requires share >= 0.0
    ensures if share <= 0.3 then BiasFactor(share) == 1.45 - 1.5 * share
      else BiasFactor(share) * (4.0 * share - 0.2) == 1.0
  {
  }

  // ---- loadVariance ----

  /** Sum of f over the values of a map. */
  ghost function TotalBy(m: map<NodeId, int>, f: int -> real): real
    decreases m.Keys
  {
    if m == map[] then 0.0
    else
      var k :| k in m;
      f(m[k]) + TotalBy(m - {k}, f)
  }

  lemma {:induction false} TotalBySplit(m: map<NodeId, int>, f: int -> real, k: NodeId)
    requires k in m
    ensures TotalBy(m, f) == f(m[k]) + TotalBy(m - {k}, f)
    decreases m.Keys
  {
    var c :| c in m && TotalBy(m, f) == f(m[c]) + TotalBy(m - {c}, f);
    if c != k {
      TotalBySplit(m - {c}, f, k);
      TotalBySplit(m - {k}, f, c);
      assert m - {c} - {k} == m - {k} - {c};
    }
  }

  lemma {:induction false} TotalByNonNegative(m: map<NodeId, int>, f: int -> real)
    requires forall x :: f(x) >= 0.0
    ensures TotalBy(m, f) >= 0.0
    decreases m.Keys
  {
    if m != map[] {
      var k :| k in m;
      TotalBySplit(m, f, k);
      TotalByNonNegative(m - {k}, f);
    }
  }

  ghost function Mean(m: map<NodeId, int>): real
    requires |m| > 0
  {
    TotalBy(m, ToReal) / |m| as real
  }

  function ToReal(x: int): real { x as real }

  function Square(x: real): (r: real)
    ensures r >= 0.0
  {
    x * x
  }

  /** The squared distance from the mean, of any load. */
  function SquaredFrom(mean: real): int -> real { x => Square(x as real - mean) }

  /** The sample variance of the loads, 0 for fewer than two. */
  ghost function Variance(m: map<NodeId, int>): real {
    if |m| < 2 then 0.0 else
      var mean := Mean(m);
      TotalBy(m, SquaredFrom(mean)) / (|m| - 1) as real
  }

  /** Of two workers it is half the square of the difference of their loads. */
  lemma VarianceOfTwo(m: map<NodeId, int>, v: NodeId, w: NodeId)
    requires v != w && m.Keys == {v, w}
    ensures Variance(m) == Square(m[v] as real - m[w] as real) / 2.0
  {
    hide Square, Variance, Mean, TotalBy;
    assert |m| == |m.Keys| == 2;
    MeanOfTwo(m);
    TotalByOfTwo(m, v, w, ToReal);
    TotalByOfTwo(m, v, w, SquaredFrom(Mean(m)));
    HalfWay(m[v] as real, m[w] as real);
  }

  lemma MeanOfTwo(m: map<NodeId, int>)
    requires |m| == 2
    ensures Mean(m) == TotalBy(m, ToReal) / 2.0 && Variance(m) == TotalBy(m, SquaredFrom(Mean(m)))
  {
    hide TotalBy, SquaredFrom;
  }

  lemma HalfWay(a: real, b: real)
    ensures Square(a - (a + b) / 2.0) + Square(b - (a + b) / 2.0) == Square(a - b) / 2.0
  {
    var d := (a - b) / 2.0;
    assert a - (a + b) / 2.0 == d && b - (a + b) / 2.0 == -d && a - b == 2.0 * d;
    assert Square(2.0 * d) == 4.0 * (d * d);
  }

  lemma TotalByOfTwo(m: map<NodeId, int>, v: NodeId, w: NodeId, f: int -> real)
    requires v != w && m.Keys == {v, w}
    ensures TotalBy(m, f) == f(m[v]) + f(m[w])
  {
    TotalBySplit(m, f, v);
    TotalBySplit(m - {v}, f, w);
    assert m - {v} - {w} == map[];
  }

  method SumBy(m: map<NodeId, int>, f: int -> real) returns (sum: real)
    ensures sum == TotalBy(m, f)
  {
    sum := 0.0;
    var rest := m;
    while rest != map[]
      invariant sum + TotalBy(rest, f) == TotalBy(m, f)
      decreases rest.Keys
    {
      var k :| k in rest;
      TotalBySplit(rest, f, k);
      sum := sum + f(rest[k]);
      rest := rest - {k};
    }
  }

  lemma SquaresNonNegative(m: map<NodeId, int>, mean: real)
    ensures TotalBy(m, SquaredFrom(mean)) >= 0.0
  {
    TotalByNonNegative(m, SquaredFrom(mean));
  }

  /** `loadVariance`: never negative, and independent of the order in which the map is visited. */
  method LoadVariance(m: map<NodeId, int>) returns (v: real)
    ensures v == Variance(m) && v >= 0.0
  {
    hide TotalBy, SquaredFrom;
    if |m| < 2 {
      return 0.0;
    }
    var sum := SumBy(m, ToReal);
    var mean := sum / |m| as real;
    var squares := SumBy(m, SquaredFrom(mean));
    SquaresNonNegative(m, mean);
    QuotientNonNegative(squares, (|m| - 1) as real);
    v := squares / (|m| - 1) as real;
  }

  // ---- biasRatio ----

  /** hi is the larger of 0 and the largest load, lo the smaller of the largest float and the smallest load. */
  ghost predicate AreExtremes(m: map<NodeId, int>, hi: real, lo: real) {
    && hi >= 0.0 && (forall w :: w in m ==> m[w] as real <= hi)
      && (hi == 0.0 || exists w :: w in m && hi == m[w] as real)
    && lo <= MAX_FLOAT64 && (forall w :: w in m ==> lo <= m[w] as real)
      && (lo == MAX_FLOAT64 || exists w :: w in m && lo == m[w] as real)
  }

  /** `biasRatio` */
  method BiasRatio(m: map<NodeId, int>) returns (r: real, ghost hi: real, ghost lo: real)
    requires Counts(m)
    ensures AreExtremes(m, hi, lo) && lo >= 0.0
    ensures r == (if lo == 0.0 then MAX_FLOAT64 else hi / lo) && r >= 0.0
  {
    var maxL, minL := 0.0, MAX_FLOAT64;
    var rest := m;
    while rest != map[]
      invariant rest.Keys <= m.Keys && forall w :: w in rest ==> rest[w] == m[w]
      invariant AreExtremes(m - rest.Keys, maxL, minL) && minL >= 0.0
      decreases rest.Keys
    {
      var k :| k in rest;
      var fl := rest[k] as real;
      ExtremesStep(m, rest.Keys, k, maxL, minL);
      if fl > maxL {
        maxL := fl;
      }
      if fl < minL {
        minL := fl;
      }
      rest := rest - {k};
    }
    assert m - rest.Keys == m;
    hi, lo := maxL, minL;
    if minL == 0.0 {
      return MAX_FLOAT64, hi, lo;
    }
    QuotientNonNegative(maxL, minL);
    r := maxL / minL;
  }

  lemma ExtremesStep(m: map<NodeId, int>, keys: set<NodeId>, k: NodeId, hi: real, lo: real)
    requires k in m && k in keys && AreExtremes(m - keys, hi, lo)
    ensures AreExtremes(m - (keys - {k}), Max(hi, m[k] as real), Min(lo, m[k] as real))
  {
    var before, after := m - keys, m - (keys - {k});
    assert forall w :: w in after <==> w in before || w == k;
    if hi != 0.0 {
      var w :| w in before && hi == before[w] as real;
      assert w in after && after[w] == before[w];
    }
    if lo != MAX_FLOAT64 {
      var w :| w in before && lo == before[w] as real;
      assert w in after && after[w] == before[w];
    }
    assert k in after && after[k] == m[k];
  }
}
