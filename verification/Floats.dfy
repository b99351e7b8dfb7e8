/** Go's float64 where NaN matters: IEEE values without rounding and without overflow. */
module Floats {

  datatype Float = NaN | Inf(positive: bool) | Num(value: real)

  const ZERO := Num(0.0)

  function Plus(a: Float, b: Float): Float {
    match (a, b)
    case (NaN, _) => NaN
    case (_, NaN) => NaN
    case (Num(x), Num(y)) => Num(x + y)
    case (Inf(s), Inf(t)) => if s == t then Inf(s) else NaN
    case (Inf(s), Num(_)) => Inf(s)
    case (Num(_), Inf(t)) => Inf(t)
  }

  function Times(a: Float, b: Float): Float {
    match (a, b)
    case (NaN, _) => NaN
    case (_, NaN) => NaN
    case (Num(x), Num(y)) => Num(x * y)
    case (Num(x), Inf(s)) => if x == 0.0 then NaN else Inf(s == (x > 0.0))
    case (Inf(s), Num(y)) => if y == 0.0 then NaN else Inf(s == (y > 0.0))
    case (Inf(s), Inf(t)) => Inf(s == t)
  }

  function Over(a: Float, b: Float): Float {
    match (a, b)
    case (NaN, _) => NaN
    case (_, NaN) => NaN
    case (Num(x), Num(y)) => if y != 0.0 then Num(x / y) else if x == 0.0 then NaN else Inf(x > 0.0)
    case (Num(_), Inf(_)) => ZERO
    case (Inf(s), Num(y)) => Inf(s == (y >= 0.0))
    case (Inf(_), Inf(_)) => NaN
  }

  /** Go's `>`: false as soon as a NaN is involved. */
  predicate Greater(a: Float, b: Float) {
    match (a, b)
    case (NaN, _) => false
    case (_, NaN) => false
    case (Num(x), Num(y)) => x > y
    case (Inf(s), Inf(t)) => s && !t
    case (Inf(s), Num(_)) => s
    case (Num(_), Inf(t)) => !t
  }

  /** Go's `<=`, likewise. */
  predicate AtMost(a: Float, b: Float) { a != NaN && b != NaN && !Greater(a, b) }

  /** `math.Max`: an infinity above all wins before a NaN does. */
  function GoMax(a: Float, b: Float): Float {
    if a == Inf(true) || b == Inf(true) then Inf(true)
    else if a == NaN || b == NaN then NaN
    else if Greater(b, a) then b else a
  }

  // ---- math.Pow ----

  type Power = (real, real) -> real

  /** All that is known of `math.Pow` on numbers: signs, and powers of 0. */
  ghost predicate PowerLaws(pow: Power) {
    forall x, y ::
      && (x >= 0.0 ==> pow(x, y) >= 0.0)
      && (x > 0.0 ==> pow(x, y) > 0.0)
      && (x == 0.0 && y > 0.0 ==> pow(x, y) == 0.0)
  }

  predicate Whole(e: real) { e.Floor as real == e }

  /** `math.Pow(x, e)` for a positive e. */
  function PowerOf(pow: Power, x: Float, e: real): Float {
    match x
    case NaN => NaN
    case Inf(s) => if s || !Whole(e) || e.Floor % 2 == 0 then Inf(true) else Inf(false)
    case Num(v) => if v < 0.0 && !Whole(e) then NaN else Num(pow(v, e))
  }

  // ---- lists ----

  /** Real numbers as floats. */
  function Nums(s: seq<real>): (r: seq<Float>)
    ensures |r| == |s| && forall i :: 0 <= i < |s| ==> r[i] == Num(s[i])
  {
    seq(|s|, i requires 0 <= i < |s| => Num(s[i]))
  }

  function Total(s: seq<Float>): Float {
    if s == [] then ZERO else Plus(Total(s[..|s| - 1]), s[|s| - 1])
  }

  lemma {:induction false} TotalUpTo(s: seq<Float>, i: nat)
    requires i < |s|
    ensures Total(s[..i + 1]) == Plus(Total(s[..i]), s[i])
  {
    assert s[..i + 1][..i] == s[..i];
  }

  /** The position at which Go's `argmax` and `maxFloat64` loops end: a later value wins only if it is
      greater than the one held, and nothing is greater than NaN. */
  function ArgmaxFrom(vals: seq<Float>, held: nat, i: nat): (k: nat)
    requires held < |vals| && i <= |vals|
    ensures k < |vals|
    decreases |vals| - i
  {
    if i == |vals| then held
    else ArgmaxFrom(vals, if Greater(vals[i], vals[held]) then i else held, i + 1)
  }

  function BestIndex(vals: seq<Float>): (k: nat)
    requires vals != []
    ensures k < |vals|
  {
    ArgmaxFrom(vals, 0, 0)
  }

  /** `argmax` with NaN taken into account. */
  method FloatArgmax(vals: seq<Float>) returns (idx: int)
    ensures idx == if vals == [] then -1 else BestIndex(vals)
  {
    if vals == [] {
      return -1;
    }
    var max := vals[0];
    idx := 0;
    var i := 0;
    while i < |vals|
      invariant i <= |vals| && 0 <= idx < |vals| && max == vals[idx]
      invariant ArgmaxFrom(vals, 0, 0) == ArgmaxFrom(vals, idx, i)
    {
      if Greater(vals[i], max) {
        max := vals[i];
        idx := i;
      }
      i := i + 1;
    }
  }

  /** `maxFloat64` with NaN taken into account. */
  method FloatMax(vals: seq<Float>) returns (max: Float)
    ensures max == if vals == [] then ZERO else vals[BestIndex(vals)]
  {
    if vals == [] {
      return ZERO;
    }
    max := vals[0];
    ghost var held: nat := 0;
    var i := 0;
    while i < |vals|
      invariant i <= |vals| && held < |vals| && max == vals[held]
      invariant ArgmaxFrom(vals, 0, 0) == ArgmaxFrom(vals, held, i)
    {
      if Greater(vals[i], max) {
        max := vals[i];
        held := i;
      }
      i := i + 1;
    }
  }

  // ---- values that are 0 or NaN ----

  predicate Dull(x: Float) { x == NaN || x == ZERO }

  ghost predicate AllDull(s: seq<Float>) { forall i :: 0 <= i < |s| ==> Dull(s[i]) }

  lemma {:induction false} DullArgmax(vals: seq<Float>, i: nat)
    requires vals != [] && i <= |vals| && AllDull(vals)
    ensures ArgmaxFrom(vals, 0, i) == 0
    decreases |vals| - i
  {
    if i < |vals| {
      DullArgmax(vals, i + 1);
    }
  }

  lemma DullPlus(a: Float, b: Float)
    requires Dull(a) && Dull(b)
    ensures Dull(Plus(a, b)) && (Plus(a, b) == NaN <==> a == NaN || b == NaN)
  {
  }

  /** A sum of such values is NaN exactly when one of them is. */
  lemma {:induction false} DullTotal(s: seq<Float>)
    requires AllDull(s)
    ensures Dull(Total(s)) && (Total(s) == NaN <==> NaN in s)
  {
    hide Plus, Dull;
    if s == [] {
      NothingIsDull();
    } else {
      var t, x := s[..|s| - 1], s[|s| - 1];
      DullTotal(t);
      DullPlus(Total(t), x);
      assert s == t + [x];
    }
  }

  lemma NothingIsDull()
    ensures Dull(Total([])) && Total([]) != NaN
  {
  }
}
