/** The interpolated percentile of the evaluation report (edge-server/eval.go). */
module Percentile {
  import opened RealSeqs

  function Ceil(x: real): int { -(-x).Floor }

  function Position(n: nat, p: real): real { p * (n as real - 1.0) }

  /** `percentile`: 0 for an empty list, clamped outside (0,1), linear between two neighbours. */
  function Percentile(sorted: seq<real>, p: real): real {
    if sorted == [] then 0.0
    else if p <= 0.0 then sorted[0]
    else if p >= 1.0 then sorted[|sorted| - 1]
    else
      var pos := Position(|sorted|, p);
      PositionInRange(|sorted|, p);
      var i, j := pos.Floor, Ceil(pos);
      if i == j then sorted[i] else Blend(pos - i as real, sorted[j], sorted[i])
  }

  lemma PositionBounds(n: nat, p: real)
    requires n > 0 && 0.0 <= p <= 1.0
    ensures 0.0 <= Position(n, p) <= (n - 1) as real
  {
    var m := n as real - 1.0;
    ProductNonNegative(p, m);
    ProductNonNegative(1.0 - p, m);
    assert (1.0 - p) * m == m - p * m;
  }

  lemma PositionInRange(n: nat, p: real)
    requires n > 0 && 0.0 < p < 1.0
    ensures var pos := Position(n, p); 0 <= pos.Floor <= Ceil(pos) < n && Ceil(pos) <= pos.Floor + 1
    ensures var pos := Position(n, p); pos.Floor < Ceil(pos) ==> Ceil(pos) == pos.Floor + 1
  {
    PositionBounds(n, p);
    hide Position;
    CeilLaws(Position(n, p));
  }

  lemma CeilLaws(x: real)
    ensures x <= Ceil(x) as real < x + 1.0
    ensures Ceil(x) == x.Floor || Ceil(x) == x.Floor + 1
    ensures Ceil(x) == x.Floor <==> x == x.Floor as real
  {
  }

  lemma BlendMonotone(x: real, y: real, f: real, g: real)
    requires x <= y && f <= g
    ensures Blend(f, y, x) <= Blend(g, y, x)
  {
    ProductNonNegative(y - x, g - f);
    assert Blend(g, y, x) - Blend(f, y, x) == (y - x) * (g - f);
  }

  /** The result lies between the two neighbouring entries, hence between the extremes. */
  lemma PercentileBetween(s: seq<real>, p: real)
    requires Sorted(s) && s != []
    ensures s[0] <= Percentile(s, p) <= s[|s| - 1]
    ensures 0.0 < p < 1.0 ==>
      var pos := Position(|s|, p);
      0 <= pos.Floor <= Ceil(pos) < |s| && s[pos.Floor] <= Percentile(s, p) <= s[Ceil(pos)]
  {
    if 0.0 < p < 1.0 {
      var pos := Position(|s|, p);
      PositionInRange(|s|, p);
      BlendBetween(pos - pos.Floor as real, s[Ceil(pos)], s[pos.Floor]);
    }
  }

  lemma PositionMonotone(n: nat, p: real, q: real)
    requires n > 0 && p <= q
    ensures Position(n, p) <= Position(n, q)
  {
    ProductNonNegative(q - p, n as real - 1.0);
    assert Position(n, q) - Position(n, p) == (q - p) * (n as real - 1.0);
  }

  /** A larger rank never gives a smaller percentile, across all branches. */
  lemma PercentileMonotone(s: seq<real>, p: real, q: real)
    requires Sorted(s) && p <= q
    ensures Percentile(s, p) <= Percentile(s, q)
  {
    if s != [] {
      PercentileBetween(s, p);
      PercentileBetween(s, q);
      if 0.0 < p && q < 1.0 {
        var a, b := Position(|s|, p), Position(|s|, q);
        PositionInRange(|s|, p);
        PositionInRange(|s|, q);
        PositionMonotone(|s|, p, q);
        CeilLaws(a);
        CeilLaws(b);
        if a.Floor == b.Floor && a.Floor < Ceil(a) {
          BlendMonotone(s[a.Floor], s[a.Floor + 1], a - a.Floor as real, b - b.Floor as real);
        } else {
          assert s[Ceil(a)] <= s[b.Floor];
        }
      }
    }
  }

  lemma TimesOrder(x: real, y: real, m: real, u: real, v: real)
    requires m > 0.0 && u == x * m && v == y * m
    ensures x < y <==> u < v
  {
    assert v - u == (y - x) * m;
    if x < y {
      assert (y - x) * m > 0.0;
    } else {
      ProductNonNegative(x - y, m);
      assert (x - y) * m == u - v;
    }
  }

  lemma QuotientLaws(x: real, m: real)
    requires 0.0 <= x < m
    ensures var p := x / m; p * m == x && 0.0 <= p < 1.0 && (p == 0.0 <==> x == 0.0)
  {
    var p := x / m;
    assert p * m == x;
    TimesOrder(p, 0.0, m, x, 0.0);
    TimesOrder(0.0, p, m, 0.0, x);
    TimesOrder(p, 1.0, m, x, m);
  }

  lemma RankPosition(n: nat, k: nat, f: real)
    requires k + 1 < n && 0.0 <= f < 1.0
    ensures var p := (k as real + f) / (n as real - 1.0);
      Position(n, p) == k as real + f && 0.0 <= p < 1.0 && (p == 0.0 <==> k == 0 && f == 0.0)
  {
    var x, m := k as real + f, n as real - 1.0;
    assert 0.0 <= x < m && (x == 0.0 <==> k == 0 && f == 0.0);
    QuotientLaws(x, m);
    assert Position(n, x / m) == x / m * m;
  }

  lemma BlendIsLinear(x: real, y: real, f: real)
    ensures Blend(f, y, x) == x + f * (y - x)
  {
  }

  lemma RankFloor(k: nat, f: real)
    requires 0.0 <= f < 1.0
    ensures (k as real + f).Floor == k && Ceil(k as real + f) == if f == 0.0 then k else k + 1
  {
    CeilLaws(k as real + f);
  }

  lemma BlendOfNothing(x: real, y: real)
    ensures Blend(0.0, y, x) == x
  {
  }

  lemma PercentileIsBlend(s: seq<real>, k: nat, f: real, p: real)
    requires k + 1 < |s| && 0.0 <= f < 1.0 && p == (k as real + f) / (|s| as real - 1.0)
    ensures Percentile(s, p) == Blend(f, s[k + 1], s[k])
  {
    RankPosition(|s|, k, f);
    RankFloor(k, f);
    BlendOfNothing(s[k], s[k + 1]);
    hide Position, Blend, Ceil;
    PercentileAt(s, k, f, p);
  }

  /** The branches of the source at position k + f. */
  lemma PercentileAt(s: seq<real>, k: nat, f: real, p: real)
    requires k + 1 < |s| && 0.0 <= f < 1.0 && 0.0 <= p < 1.0 && Position(|s|, p) == k as real + f
    requires p == 0.0 <==> k == 0 && f == 0.0
    requires (k as real + f).Floor == k && Ceil(k as real + f) == if f == 0.0 then k else k + 1
    ensures Percentile(s, p) == if f == 0.0 then s[k] else Blend(f, s[k + 1], s[k])
  {
    hide Position, Blend, Ceil;
    if p > 0.0 {
      PositionInRange(|s|, p);
    }
  }

  /** The percentile is the piecewise linear curve through the points (k/(n-1), sorted[k]). */
  lemma PercentileInterpolates(s: seq<real>, k: nat, f: real, p: real)
    requires k + 1 < |s| && 0.0 <= f < 1.0 && p == (k as real + f) / (|s| as real - 1.0)
    ensures Percentile(s, p) == s[k] + f * (s[k + 1] - s[k])
  {
    hide Percentile, Blend;
    PercentileIsBlend(s, k, f, p);
    BlendIsLinear(s[k], s[k + 1], f);
  }

  /** The two figures of every report: the latencies are sorted first, so P50 <= P95. */
  method LatencyPercentiles(latencies: seq<real>) returns (p50: real, p95: real)
    ensures p50 == Percentile(Sort(latencies), 0.50) && p95 == Percentile(Sort(latencies), 0.95)
    ensures p50 <= p95
  {
    var sorted := Sort(latencies);
    SortSorted(latencies);
    p50 := Percentile(sorted, 0.50);
    p95 := Percentile(sorted, 0.95);
    PercentileMonotone(sorted, 0.50, 0.95);
  }
}
