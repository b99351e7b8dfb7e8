/** Sequences of real numbers: sums, first maxima, sorting. Go's float64 is modelled as `real`. */
module RealSeqs {
  import opened Sorting

  /** `math.MaxFloat64`, to 17 digits. */
  const MAX_FLOAT64 := 179769313486231570000000000000000000000000000000000000000000000000000000000000000000000000000000000000000000000000000000000000000000000000000000000000000000000000000000000000000000000000000000000000000000000000000000000000000000000000000000000000000000000000000000000000000000000000000000000000000000000000000.0

  function Abs(x: real): real { if x < 0.0 then -x else x }

  function Min(x: real, y: real): real { if x <= y then x else y }

  function Max(x: real, y: real): real { if x >= y then x else y }

  /** `math.Max(lo, math.Min(hi, x))`. */
  function Clamp(lo: real, hi: real, x: real): real { Max(lo, Min(hi, x)) }

  lemma ProductNonNegative(a: real, b: real)
    requires a >= 0.0 && b >= 0.0
    ensures a * b >= 0.0
  {
  }

  function Sum(s: seq<real>): real {
    if s == [] then 0.0 else Sum(s[..|s| - 1]) + s[|s| - 1]
  }

  ghost predicate NonNegative(s: seq<real>) { forall i :: 0 <= i < |s| ==> s[i] >= 0.0 }

  ghost predicate Positive(s: seq<real>) { forall i :: 0 <= i < |s| ==> s[i] > 0.0 }

  ghost predicate AllIn(s: seq<real>, lo: real, hi: real) { forall i :: 0 <= i < |s| ==> lo <= s[i] <= hi }

  lemma {:induction false} SumUpTo(s: seq<real>, i: nat)
    requires i < |s|
    ensures Sum(s[..i + 1]) == Sum(s[..i]) + s[i]
  {
    assert s[..i + 1][..i] == s[..i];
  }

  lemma {:induction false} SumNonNegative(s: seq<real>)
    requires NonNegative(s)
    ensures Sum(s) >= 0.0
    ensures forall i :: 0 <= i < |s| ==> s[i] <= Sum(s)
  {
    if s != [] {
      SumNonNegative(s[..|s| - 1]);
      assert forall i :: 0 <= i < |s| - 1 ==> s[i] == s[..|s| - 1][i];
    }
  }

  /** Changing one entry changes the sum by the same amount. */
  lemma {:induction false} SumUpdate(s: seq<real>, k: nat, v: real)
    requires k < |s|
    ensures Sum(s[k := v]) == Sum(s) - s[k] + v
  {
    var n := |s| - 1;
    if k == n {
      assert s[k := v][..n] == s[..n];
    } else {
      assert s[k := v][..n] == s[..n][k := v];
      SumUpdate(s[..n], k, v);
    }
  }

  function Scale(c: real, s: seq<real>): (r: seq<real>)
    ensures |r| == |s|
    ensures forall i :: 0 <= i < |s| ==> r[i] == c * s[i]
  {
    seq(|s|, i requires 0 <= i < |s| => c * s[i])
  }

  lemma ScaleDropLast(c: real, s: seq<real>)
    requires s != []
    ensures Scale(c, s)[..|s| - 1] == Scale(c, s[..|s| - 1])
  {
    var r, t := Scale(c, s), s[..|s| - 1];
    forall i | 0 <= i < |t| ensures r[..|t|][i] == Scale(c, t)[i] {
      assert r[i] == c * s[i];
    }
  }

  lemma {:induction false} SumScale(c: real, s: seq<real>)
    ensures Sum(Scale(c, s)) == c * Sum(s)
  {
    if s != [] {
      ScaleDropLast(c, s);
      SumScale(c, s[..|s| - 1]);
    }
  }

  ghost predicate IsFirstMax(s: seq<real>, k: int) {
    && 0 <= k < |s|
    && (forall j :: 0 <= j < |s| ==> s[j] <= s[k])
    && (forall j :: 0 <= j < k ==> s[j] < s[k])
  }

  /** `argmax`: the first position of the largest value, -1 for an empty list. */
  method Argmax(vals: seq<real>) returns (idx: int)
    ensures vals == [] ==> idx == -1
    ensures vals != [] ==> IsFirstMax(vals, idx)
  {
    if vals == [] {
      return -1;
    }
    var max := vals[0];
    idx := 0;
    for i := 0 to |vals|
      invariant 0 <= idx < |vals| && max == vals[idx]
      invariant forall j :: 0 <= j < i ==> vals[j] <= max
      invariant forall j :: 0 <= j < idx ==> vals[j] < max
    {
      if vals[i] > max {
        max := vals[i];
        idx := i;
      }
    }
  }

  /** `maxFloat64`: the largest value, 0 for an empty list. */
  method MaxFloat64(vals: seq<real>) returns (max: real)
    ensures vals == [] ==> max == 0.0
    ensures vals != [] ==> max in vals && forall j :: 0 <= j < |vals| ==> vals[j] <= max
  {
    if vals == [] {
      return 0.0;
    }
    max := vals[0];
    for i := 0 to |vals|
      invariant max in vals
      invariant forall j :: 0 <= j < i ==> vals[j] <= max
    {
      if vals[i] > max {
        max := vals[i];
      }
    }
  }

  /** b of x and the rest of y. */
  function Blend(b: real, x: real, y: real): real { b * x + (1.0 - b) * y }

  /** A blend lies between its two values, and the two blends of one draw keep their sum. */
  lemma BlendBetween(b: real, x: real, y: real)
    requires 0.0 <= b <= 1.0
    ensures Min(x, y) <= Blend(b, x, y) <= Max(x, y)
    ensures Blend(b, x, y) + Blend(b, y, x) == x + y
  {
    assert Blend(b, x, y) == y + b * (x - y);
    assert Blend(b, x, y) == x + (1.0 - b) * (y - x);
    if x >= y {
      ProductNonNegative(b, x - y);
      ProductNonNegative(1.0 - b, x - y);
      assert (1.0 - b) * (x - y) == -((1.0 - b) * (y - x));
    } else {
      ProductNonNegative(b, y - x);
      ProductNonNegative(1.0 - b, y - x);
      assert b * (y - x) == -(b * (x - y));
    }
  }

  // ---- sorting ----

  ghost predicate Sorted(s: seq<real>) {
    forall i, j :: 0 <= i <= j < |s| ==> s[i] <= s[j]
  }

  predicate Below(x: real, y: real) { x < y }

  function Insert(x: real, s: seq<real>): seq<real> { InsertBy(Below, x, s) }

  /** What `sort.Float64s` leaves in its argument. */
  function Sort(s: seq<real>): seq<real> { SortBy(Below, s) }

  /** Where x goes. */
  lemma InsertCases(x: real, s: seq<real>)
    ensures s == [] ==> Insert(x, s) == [x]
    ensures s != [] && s[|s| - 1] <= x ==> Insert(x, s) == s + [x]
    ensures s != [] && x < s[|s| - 1] ==> Insert(x, s) == Insert(x, s[..|s| - 1]) + [s[|s| - 1]]
  {
  }

  lemma SumAppend(s: seq<real>, x: real)
    ensures Sum(s + [x]) == Sum(s) + x
  {
    assert (s + [x])[..|s|] == s;
  }

  lemma {:induction false} InsertMultiset(x: real, s: seq<real>)
    ensures multiset(Insert(x, s)) == multiset(s) + multiset{x} && |Insert(x, s)| == |s| + 1
  {
    if s != [] {
      var t, l := s[..|s| - 1], s[|s| - 1];
      assert s == t + [l];
      if l <= x {
      } else {
        InsertMultiset(x, t);
      }
    }
  }

  lemma {:induction false} InsertBound(x: real, s: seq<real>, b: real)
    requires x <= b && forall i :: 0 <= i < |s| ==> s[i] <= b
    ensures forall i :: 0 <= i < |Insert(x, s)| ==> Insert(x, s)[i] <= b
  {
    if s != [] && x < s[|s| - 1] {
      InsertBound(x, s[..|s| - 1], b);
      assert Insert(x, s) == Insert(x, s[..|s| - 1]) + [s[|s| - 1]];
    }
  }

  lemma {:induction false} InsertSorted(x: real, s: seq<real>)
    requires Sorted(s)
    ensures Sorted(Insert(x, s))
  {
    if s != [] && x < s[|s| - 1] {
      var t, l := s[..|s| - 1], s[|s| - 1];
      InsertSorted(x, t);
      InsertBound(x, t, l);
    }
  }

  lemma {:induction false} SortSorted(s: seq<real>)
    ensures Sorted(Sort(s)) && multiset(Sort(s)) == multiset(s) && |Sort(s)| == |s|
  {
    if s != [] {
      var t, l := s[..|s| - 1], s[|s| - 1];
      SortSorted(t);
      InsertSorted(l, Sort(t));
      InsertMultiset(l, Sort(t));
      assert s == t + [l];
    }
  }

  lemma DropLastMultiset(a: seq<real>)
    requires a != []
    ensures multiset(a[..|a| - 1]) == multiset(a) - multiset{a[|a| - 1]}
  {
    assert a == a[..|a| - 1] + [a[|a| - 1]];
  }

  lemma LastInOther(a: seq<real>, b: seq<real>)
    requires Sorted(a) && multiset(a) == multiset(b) && b != []
    ensures a != [] && b[|b| - 1] <= a[|a| - 1]
  {
    assert b[|b| - 1] in multiset(b);
    assert b[|b| - 1] in a;
  }

  lemma {:induction false} SortedUnique(a: seq<real>, b: seq<real>)
    requires Sorted(a) && Sorted(b) && multiset(a) == multiset(b)
    ensures a == b
  {
    if a == [] {
      assert multiset(b) == multiset{};
    } else {
      LastInOther(b, a);
      LastInOther(a, b);
      DropLastMultiset(a);
      DropLastMultiset(b);
      SortedUnique(a[..|a| - 1], b[..|b| - 1]);
      assert a == a[..|a| - 1] + [a[|a| - 1]];
      assert b == b[..|b| - 1] + [b[|b| - 1]];
    }
  }

  lemma SortIsPermutationInvariant(a: seq<real>, b: seq<real>)
    requires multiset(a) == multiset(b)
    ensures Sort(a) == Sort(b)
  {
    SortSorted(a);
    SortSorted(b);
    SortedUnique(Sort(a), Sort(b));
  }
}
