/** Ant colony search: roulette selection, pheromone deposits and evaporation
    (edge-server/scheduler.go, `acoPick` and `scheduleACO`). `math.Pow` is a parameter of which only
    the sign is known. */
module Colony {
  import opened RealSeqs
  import opened Floats

  // ---- roulette ----

  function Cum(w: seq<real>, i: nat): real
    requires i <= |w|
  {
    Sum(w[..i])
  }

  lemma CumStep(w: seq<real>, i: nat)
    requires i < |w|
    ensures Cum(w, i + 1) == Cum(w, i) + w[i] && Cum(w, 0) == 0.0 && Cum(w, |w|) == Sum(w)
  {
    SumUpTo(w, i);
    assert w[..|w|] == w;
  }

  lemma {:induction false} CumMonotone(w: seq<real>, i: nat, j: nat)
    requires NonNegative(w) && i <= j <= |w|
    ensures Cum(w, i) <= Cum(w, j)
    decreases j
  {
    if i < j {
      CumMonotone(w, i, j - 1);
      CumStep(w, j - 1);
    }
  }

  /** The first index from i on at which the running total reaches r; 0 when the loop falls through. */
  function Landing(w: seq<real>, r: real, i: nat): (k: nat)
    requires i <= |w|
    ensures w != [] ==> k < |w|
    decreases |w| - i
  {
    if i == |w| then 0
    else if r <= Cum(w, i + 1) then i
    else Landing(w, r, i + 1)
  }

  function Roulette(w: seq<real>, r: real): nat { Landing(w, r, 0) }

  lemma {:induction false} LandingIsFirst(w: seq<real>, r: real, i: nat, k: nat)
    requires i <= k < |w| && r <= Cum(w, k + 1)
    requires forall j :: i < j <= k ==> Cum(w, j) < r
    ensures Landing(w, r, i) == k
    decreases k - i
  {
    if i < k {
      assert Cum(w, i + 1) < r;
      LandingIsFirst(w, r, i + 1, k);
    }
  }

  /** The wheel never falls through: some index is reached. */
  lemma {:induction false} LandingReaches(w: seq<real>, r: real, i: nat)
    requires i < |w| && NonNegative(w) && r <= Sum(w)
    requires Cum(w, i) < r || i == 0
    ensures var k := Landing(w, r, i);
      && i <= k < |w|
      && r <= Cum(w, k + 1)
      && (Cum(w, k) < r || k == 0)
    decreases |w| - i
  {
    if Cum(w, i + 1) < r {
      CumStep(w, i);
      LandingReaches(w, r, i + 1);
    }
  }

  /** Index k is chosen exactly by the numbers in the half-open interval of length w[k] that ends at
      the k-th running total, so the choice is proportional to the weights and never falls through. */
  lemma RouletteIsProportional(w: seq<real>, r: real, k: nat)
    requires NonNegative(w) && k < |w| && 0.0 < r <= Sum(w)
    ensures Roulette(w, r) == k <==> Cum(w, k) < r <= Cum(w, k) + w[k]
  {
    CumStep(w, k);
    LandingReaches(w, r, 0);
    if Cum(w, k) < r <= Cum(w, k + 1) {
      forall j | 0 < j <= k ensures Cum(w, j) < r {
        CumMonotone(w, j, k);
      }
      LandingIsFirst(w, r, 0, k);
    }
  }

  /** The chosen index has a positive weight, except that the draw 0 takes index 0 as it is. */
  lemma RouletteLandsOnWeight(w: seq<real>, r: real)
    requires NonNegative(w) && w != [] && 0.0 <= r <= Sum(w)
    ensures var k := Roulette(w, r);
      && k < |w| && r <= Cum(w, k + 1)
      && (w[k] > 0.0 <==> r > 0.0 || w[0] > 0.0)
  {
    hide Cum, Landing;
    CumStep(w, 0);
    LandingReaches(w, r, 0);
    var k := Roulette(w, r);
    CumStep(w, k);
    if r == 0.0 {
      DrawZero(w);
    }
  }

  lemma DrawZero(w: seq<real>)
    requires NonNegative(w) && w != []
    ensures Landing(w, 0.0, 0) == 0
  {
    CumStep(w, 0);
  }

  /** Spinning with normalised weights is spinning with the weights and a scaled draw. */
  lemma RouletteScale(c: real, w: seq<real>, r: real)
    requires c > 0.0
    ensures Roulette(Scale(c, w), c * r) == Roulette(w, r)
  {
    LandingScale(c, w, r, 0);
  }

  lemma CumScale(c: real, w: seq<real>, i: nat)
    requires i <= |w|
    ensures Cum(Scale(c, w), i) == Kept(c, Cum(w, i))
  {
    var head := w[..i];
    forall j | 0 <= j < i ensures Scale(c, w)[..i][j] == Scale(c, head)[j] {
      assert Scale(c, w)[j] == c * w[j] && head[j] == w[j];
    }
    assert Scale(c, w)[..i] == Scale(c, head);
    SumScale(c, head);
  }

  lemma {:induction false} LandingScale(c: real, w: seq<real>, r: real, i: nat)
    requires c > 0.0 && i <= |w|
    ensures Landing(Scale(c, w), Kept(c, r), i) == Landing(w, r, i)
    decreases |w| - i
  {
    hide Kept, Cum;
    if i < |w| {
      CumScale(c, w, i + 1);
      ScaledOrder(c, r, Cum(w, i + 1));
      LandingScale(c, w, r, i + 1);
    }
  }

  lemma ScaledOrder(c: real, x: real, y: real)
    requires c > 0.0
    ensures Kept(c, x) <= Kept(c, y) <==> x <= y
  {
    if x < y {
      assert c * (y - x) > 0.0;
    } else if y < x {
      assert c * (x - y) > 0.0;
    }
  }

  // ---- the colony ----

  /** What stays fixed during a search: the exponent of the pheromone, the score part of each
      weight, the deposit an ant leaves on each index, and the share that evaporation keeps. */
  datatype Colony = Colony(pow: Power, alpha: real, attraction: seq<real>, deposit: seq<real>, keep: real)

  ghost predicate ValidColony(c: Colony) {
    && PowerLaws(c.pow)
    && c.attraction != [] && |c.deposit| == |c.attraction|
    && NonNegative(c.attraction) && NonNegative(c.deposit)
    && 0.0 <= c.keep <= 1.0
  }

  ghost predicate Fits(c: Colony, u: seq<real>) { |u| == |c.attraction| && NonNegative(u) }

  function Weight(c: Colony, i: nat, x: real): real
    requires i < |c.attraction|
  {
    c.pow(x, c.alpha) * c.attraction[i]
  }

  function Weights(c: Colony, u: seq<real>): (w: seq<real>)
    requires |u| == |c.attraction|
    ensures |w| == |u|
    ensures forall i :: 0 <= i < |u| ==> w[i] == Weight(c, i, u[i])
  {
    seq(|u|, i requires 0 <= i < |u| => Weight(c, i, u[i]))
  }

  function Uniform(n: nat): (w: seq<real>)
    requires n > 0
    ensures |w| == n && forall i :: 0 <= i < n ==> w[i] == 1.0 / n as real
  {
    seq(n, i => 1.0 / n as real)
  }

  /** The weights divided by their total, or the uniform distribution when they add up to 0. */
  function Probabilities(c: Colony, u: seq<real>): (p: seq<real>)
    requires |u| == |c.attraction| > 0
    ensures |p| == |u|
  {
    var w := Weights(c, u);
    if Sum(w) == 0.0 then Uniform(|u|) else Scale(1.0 / Sum(w), w)
  }

  /** The index one ant takes with draw r. */
  function Choice(c: Colony, u: seq<real>, r: real): (k: nat)
    requires |u| == |c.attraction| > 0
    ensures k < |u|
  {
    Roulette(Probabilities(c, u), r)
  }

  /** One ant: the pheromone of its choice grows by the deposit. */
  function Step(c: Colony, u: seq<real>, r: real): (v: seq<real>)
    requires |u| == |c.attraction| == |c.deposit| > 0
    ensures |v| == |u|
  {
    var k := Choice(c, u, r);
    u[k := u[k] + c.deposit[k]]
  }

  function Walk(c: Colony, u: seq<real>, draws: seq<real>): (v: seq<real>)
    requires |u| == |c.attraction| == |c.deposit| > 0
    ensures |v| == |u|
  {
    if draws == [] then u else Step(c, Walk(c, u, draws[..|draws| - 1]), draws[|draws| - 1])
  }

  function Kept(q: real, x: real): real { q * x }

  function Evaporated(q: real, u: seq<real>): (v: seq<real>)
    ensures |v| == |u|
    ensures forall i :: 0 <= i < |u| ==> v[i] == Kept(q, u[i])
  {
    seq(|u|, i requires 0 <= i < |u| => Kept(q, u[i]))
  }

  /** Rounds of ants, each followed by evaporation. */
  function Rounds(c: Colony, u: seq<real>, rounds: seq<seq<real>>): (v: seq<real>)
    requires |u| == |c.attraction| == |c.deposit| > 0
    ensures |v| == |u|
  {
    if rounds == [] then u
    else Evaporated(c.keep, Walk(c, Rounds(c, u, rounds[..|rounds| - 1]), rounds[|rounds| - 1]))
  }

  lemma WalkStep(c: Colony, u: seq<real>, draws: seq<real>, r: real)
    requires |u| == |c.attraction| == |c.deposit| > 0
    ensures Walk(c, u, draws + [r]) == Step(c, Walk(c, u, draws), r)
  {
    assert (draws + [r])[..|draws|] == draws;
  }

  lemma RoundsStep(c: Colony, u: seq<real>, rounds: seq<seq<real>>, round: seq<real>)
    requires |u| == |c.attraction| == |c.deposit| > 0
    ensures Rounds(c, u, rounds + [round]) == Evaporated(c.keep, Walk(c, Rounds(c, u, rounds), round))
  {
    assert (rounds + [round])[..|rounds|] == rounds;
  }

  /** The indices taken by the ants of one round, in order. */
  function WalkChoices(c: Colony, u: seq<real>, draws: seq<real>): (v: seq<nat>)
    requires |u| == |c.attraction| == |c.deposit| > 0
    ensures forall i :: 0 <= i < |v| ==> v[i] < |u|
  {
    if draws == [] then []
    else WalkChoices(c, u, draws[..|draws| - 1]) + [Choice(c, Walk(c, u, draws[..|draws| - 1]), draws[|draws| - 1])]
  }

  function AllChoices(c: Colony, u: seq<real>, rounds: seq<seq<real>>): (v: seq<nat>)
    requires |u| == |c.attraction| == |c.deposit| > 0
    ensures forall i :: 0 <= i < |v| ==> v[i] < |u|
  {
    if rounds == [] then []
    else
      var before, last := rounds[..|rounds| - 1], rounds[|rounds| - 1];
      AllChoices(c, u, before) + WalkChoices(c, Rounds(c, u, before), last)
  }

  lemma WalkChoicesStep(c: Colony, u: seq<real>, draws: seq<real>, r: real)
    requires |u| == |c.attraction| == |c.deposit| > 0
    ensures WalkChoices(c, u, draws + [r]) == WalkChoices(c, u, draws) + [Choice(c, Walk(c, u, draws), r)]
  {
    assert (draws + [r])[..|draws|] == draws;
  }

  lemma AllChoicesStep(c: Colony, u: seq<real>, rounds: seq<seq<real>>, round: seq<real>)
    requires |u| == |c.attraction| == |c.deposit| > 0
    ensures AllChoices(c, u, rounds + [round]) == AllChoices(c, u, rounds) + WalkChoices(c, Rounds(c, u, rounds), round)
  {
    assert (rounds + [round])[..|rounds|] == rounds;
  }

  /** What ants that took these indices left altogether. */
  function LeftBy(c: Colony, choices: seq<nat>): real
    requires forall i :: 0 <= i < |choices| ==> choices[i] < |c.deposit|
  {
    if choices == [] then 0.0 else LeftBy(c, choices[..|choices| - 1]) + c.deposit[choices[|choices| - 1]]
  }

  /** An ant changes the entry it chooses and no other. */
  lemma AntAdds(c: Colony, u: seq<real>, r: real)
    requires |u| == |c.attraction| == |c.deposit| > 0
    ensures var k, v := Choice(c, u, r), Step(c, u, r);
      && v[k] == u[k] + c.deposit[k]
      && (forall i :: 0 <= i < |u| && i != k ==> v[i] == u[i])
      && Sum(v) == Sum(u) + c.deposit[k]
  {
    hide Choice, Sum;
    var k := Choice(c, u, r);
    SumUpdate(u, k, u[k] + c.deposit[k]);
  }

  /** Pheromone is conserved: the total of a round is what was there and what its ants left. */
  lemma {:induction false} WalkConserves(c: Colony, u: seq<real>, draws: seq<real>)
    requires |u| == |c.attraction| == |c.deposit| > 0
    ensures Sum(Walk(c, u, draws)) == Sum(u) + LeftBy(c, WalkChoices(c, u, draws))
  {
    hide Choice, Sum, Step, Walk, WalkChoices, LeftBy;
    if draws == [] {
      NothingWalked(c, u);
    } else {
      var n := |draws| - 1;
      WalkConserves(c, u, draws[..n]);
      AntConserves(c, u, draws[..n], draws[n]);
      assert draws[..n] + [draws[n]] == draws;
    }
  }

  lemma AntConserves(c: Colony, u: seq<real>, draws: seq<real>, r: real)
    requires |u| == |c.attraction| == |c.deposit| > 0
    requires Sum(Walk(c, u, draws)) == Sum(u) + LeftBy(c, WalkChoices(c, u, draws))
    ensures Sum(Walk(c, u, draws + [r])) == Sum(u) + LeftBy(c, WalkChoices(c, u, draws + [r]))
  {
    hide Choice, Sum, Step, Walk, WalkChoices, LeftBy;
    WalkStep(c, u, draws, r);
    WalkChoicesStep(c, u, draws, r);
    AntAdds(c, Walk(c, u, draws), r);
    LeftByStep(c, WalkChoices(c, u, draws), Choice(c, Walk(c, u, draws), r));
  }

  lemma NothingWalked(c: Colony, u: seq<real>)
    requires |u| == |c.attraction| == |c.deposit| > 0
    ensures Walk(c, u, []) == u && WalkChoices(c, u, []) == [] && LeftBy(c, []) == 0.0
  {
  }

  lemma LeftByStep(c: Colony, choices: seq<nat>, k: nat)
    requires k < |c.deposit| && forall i :: 0 <= i < |choices| ==> choices[i] < |c.deposit|
    ensures LeftBy(c, choices + [k]) == LeftBy(c, choices) + c.deposit[k]
  {
    assert (choices + [k])[..|choices|] == choices;
  }

  /** And evaporation keeps its share of that total. */
  lemma RoundConserves(c: Colony, u: seq<real>, draws: seq<real>)
    requires |u| == |c.attraction| == |c.deposit| > 0
    ensures Sum(Evaporated(c.keep, Walk(c, u, draws))) == c.keep * (Sum(u) + LeftBy(c, WalkChoices(c, u, draws)))
  {
    hide Walk, WalkChoices, Sum, LeftBy;
    var w := Walk(c, u, draws);
    WalkConserves(c, u, draws);
    SumScale(c.keep, w);
    assert Evaporated(c.keep, w) == Scale(c.keep, w);
  }

  // ---- what a search keeps ----

  lemma WeightsNonNegative(c: Colony, u: seq<real>)
    requires ValidColony(c) && Fits(c, u)
    ensures NonNegative(Weights(c, u)) && Sum(Weights(c, u)) >= 0.0
  {
    var w := Weights(c, u);
    forall i | 0 <= i < |w| ensures w[i] >= 0.0 {
      ProductNonNegative(c.pow(u[i], c.alpha), c.attraction[i]);
    }
    SumNonNegative(w);
  }

  lemma {:induction false} SumConstant(s: seq<real>, x: real)
    requires forall i :: 0 <= i < |s| ==> s[i] == x
    ensures Sum(s) == |s| as real * x
  {
    if s != [] {
      SumConstant(s[..|s| - 1], x);
    }
  }

  lemma UniformSum(n: nat)
    requires n > 0
    ensures Sum(Uniform(n)) == 1.0 && NonNegative(Uniform(n))
  {
    SumConstant(Uniform(n), 1.0 / n as real);
  }

  lemma InverseProduct(x: real, y: real)
    requires x > 0.0
    ensures 1.0 / x > 0.0 && 1.0 / x * (y * x) == y && 1.0 / x * x == 1.0
  {
    calc {
      1.0 / x * (y * x);
      (1.0 / x * x) * y;
      y;
    }
  }

  lemma ProbabilitiesSum(c: Colony, u: seq<real>)
    requires ValidColony(c) && Fits(c, u)
    ensures var p := Probabilities(c, u);
      NonNegative(p) && Sum(p) == 1.0
  {
    hide Sum, Weights;
    WeightsNonNegative(c, u);
    var w := Weights(c, u);
    if Sum(w) == 0.0 {
      UniformSum(|u|);
    } else {
      InverseProduct(Sum(w), 1.0);
      SumScale(1.0 / Sum(w), w);
      forall i | 0 <= i < |u| ensures Probabilities(c, u)[i] >= 0.0 {
        ProductNonNegative(1.0 / Sum(w), w[i]);
      }
    }
  }

  /** An ant's roulette never falls through, and lands on an index of positive probability unless
      the draw is exactly 0 and index 0 has none. */
  lemma ChoiceHasProbability(c: Colony, u: seq<real>, r: real)
    requires ValidColony(c) && Fits(c, u) && 0.0 <= r < 1.0
    ensures var p, k := Probabilities(c, u), Choice(c, u, r);
      && r <= Cum(p, k + 1)
      && (p[k] > 0.0 <==> r > 0.0 || p[0] > 0.0)
  {
    hide Roulette, Cum, Probabilities, Sum;
    ProbabilitiesSum(c, u);
    RouletteLandsOnWeight(Probabilities(c, u), r);
  }

  lemma ScaledDraw(c: real, w: seq<real>, x: real, r: real)
    requires c > 0.0 && c * x == r
    ensures Roulette(Scale(c, w), r) == Roulette(w, x)
  {
    hide Roulette;
    RouletteScale(c, w, x);
  }

  /** Spinning the raw weights with the draw stretched to their total makes the same choice. */
  lemma ChoiceByWeights(c: Colony, u: seq<real>, r: real, x: real)
    requires |u| == |c.attraction| > 0 && Sum(Weights(c, u)) > 0.0
    requires x == r * Sum(Weights(c, u))
    ensures Choice(c, u, r) == Roulette(Weights(c, u), x)
  {
    hide Roulette, Sum, Weights;
    InverseProduct(Sum(Weights(c, u)), r);
    ScaledDraw(1.0 / Sum(Weights(c, u)), Weights(c, u), x, r);
  }

  /** n deposits of at most b. */
  function Deposits(n: nat, b: real): real { if n == 0 then 0.0 else Deposits(n - 1, b) + b }

  /** One ant adds the deposit of its choice to the total and lowers nothing. */
  lemma StepBounds(c: Colony, u: seq<real>, r: real, b: real)
    requires |u| == |c.attraction| == |c.deposit| > 0 && NonNegative(c.deposit)
    requires forall i :: 0 <= i < |c.deposit| ==> c.deposit[i] <= b
    ensures var v := Step(c, u, r);
      && (forall i :: 0 <= i < |u| ==> v[i] >= u[i])
      && Sum(u) <= Sum(v) <= Sum(u) + b
  {
    hide Choice, Sum;
    var k := Choice(c, u, r);
    SumUpdate(u, k, u[k] + c.deposit[k]);
  }

  lemma StepKeepsSign(c: Colony, u: seq<real>, r: real)
    requires |u| == |c.attraction| == |c.deposit| > 0 && NonNegative(c.deposit) && NonNegative(u)
    ensures NonNegative(Step(c, u, r))
  {
    hide Choice;
  }

  lemma {:induction false} WalkBounds(c: Colony, u: seq<real>, draws: seq<real>, b: real)
    requires |u| == |c.attraction| == |c.deposit| > 0 && NonNegative(c.deposit)
    requires forall i :: 0 <= i < |c.deposit| ==> c.deposit[i] <= b
    ensures var v := Walk(c, u, draws);
      && (forall i :: 0 <= i < |u| ==> v[i] >= u[i])
      && Sum(v) <= Sum(u) + Deposits(|draws|, b)
  {
    if draws != [] {
      hide Step, Sum;
      var before := draws[..|draws| - 1];
      WalkBounds(c, u, before, b);
      StepBounds(c, Walk(c, u, before), draws[|draws| - 1], b);
    }
  }

  lemma {:induction false} SumEvaporated(q: real, u: seq<real>)
    ensures Sum(Evaporated(q, u)) == Kept(q, Sum(u))
  {
    if u != [] {
      var t := u[..|u| - 1];
      assert Evaporated(q, u)[..|t|] == Evaporated(q, t);
      SumEvaporated(q, t);
    }
  }

  lemma KeptOrder(q: real, x: real, y: real)
    requires q >= 0.0 && x <= y
    ensures Kept(q, x) <= Kept(q, y) && (x >= 0.0 ==> Kept(q, x) >= 0.0) && (q > 0.0 && x > 0.0 ==> Kept(q, x) > 0.0)
  {
    ProductNonNegative(q, y - x);
    assert q * (y - x) == q * y - q * x;
  }

  /** A round keeps at least the kept share of every entry, and its ants add at most b each. */
  lemma RoundBounds(c: Colony, u: seq<real>, draws: seq<real>, b: real)
    requires |u| == |c.attraction| == |c.deposit| > 0 && NonNegative(c.deposit) && NonNegative(u) && c.keep >= 0.0
    requires forall i :: 0 <= i < |c.deposit| ==> c.deposit[i] <= b
    ensures var v := Evaporated(c.keep, Walk(c, u, draws));
      && NonNegative(v)
      && (forall i :: 0 <= i < |u| ==> v[i] >= Kept(c.keep, u[i]))
      && Sum(v) <= Kept(c.keep, Sum(u) + Deposits(|draws|, b))
  {
    hide Walk, Sum, Kept;
    WalkBounds(c, u, draws, b);
    var t := Walk(c, u, draws);
    SumEvaporated(c.keep, t);
    KeptOrder(c.keep, Sum(t), Sum(u) + Deposits(|draws|, b));
    forall i | 0 <= i < |u| ensures Kept(c.keep, t[i]) >= Kept(c.keep, u[i]) >= 0.0 {
      KeptOrder(c.keep, u[i], t[i]);
    }
  }

  // ---- acoPick ----

  const ANTS := 6
  const ACO_ROUNDS := 3

  /** `scores[selected] / math.Max(1e-6, maxFloat64(scores))` */
  function RelativeScore(x: real, max: real): real { x / Max(0.000001, max) }

  function Deposit(x: real, max: real, bonus: real): real { RelativeScore(x, max) * bonus }

  ghost predicate IsMax(s: seq<real>, m: real) { m in s && forall i :: 0 <= i < |s| ==> s[i] <= m }

  lemma ProductPositive(a: real, b: real)
    requires a > 0.0 && b > 0.0
    ensures a * b > 0.0
  {
  }

  lemma QuotientRange(x: real, y: real)
    requires 0.0 <= x <= y && y > 0.0
    ensures 0.0 <= x / y <= 1.0
  {
    var q := x / y;
    assert q * y == x;
    if q < 0.0 {
      ProductNonNegative(-q, y);
    } else if q > 1.0 {
      ProductPositive(q - 1.0, y);
    }
  }

  /** With non-negative scores and a batching bonus of at most 80 percent, an ant leaves between 0 and 1.8. */
  lemma DepositRange(scores: seq<real>, max: real, bonus: real, i: nat)
    requires NonNegative(scores) && IsMax(scores, max) && i < |scores| && 1.0 <= bonus <= 1.8
    ensures 0.0 <= Deposit(scores[i], max, bonus) <= 1.8
  {
    QuotientRange(scores[i], Max(0.000001, max));
    var q := RelativeScore(scores[i], max);
    ProductNonNegative(q, bonus);
    ProductNonNegative(1.0 - q, bonus);
    assert (1.0 - q) * bonus == bonus - q * bonus;
  }

  function Powers(pow: Power, s: seq<real>, e: real): (r: seq<real>)
    ensures |r| == |s| && forall i :: 0 <= i < |s| ==> r[i] == pow(s[i], e)
  {
    seq(|s|, i requires 0 <= i < |s| => pow(s[i], e))
  }

  function DepositList(scores: seq<real>, max: real, bonuses: seq<real>): (d: seq<real>)
    requires |bonuses| == |scores|
    ensures |d| == |scores| && forall i :: 0 <= i < |d| ==> d[i] == Deposit(scores[i], max, bonuses[i])
  {
    seq(|scores|, i requires 0 <= i < |scores| => Deposit(scores[i], max, bonuses[i]))
  }

  /** The colony of `acoPick` for a scheduler with these parameters. */
  function PickColony(pow: Power, alpha: real, beta: real, rho: real, scores: seq<real>, max: real,
      bonuses: seq<real>): (c: Colony)
    requires |bonuses| == |scores|
    ensures |c.attraction| == |c.deposit| == |scores|
  {
    Colony(pow, alpha, Powers(pow, scores, beta), DepositList(scores, max, bonuses), 1.0 - rho)
  }

  ghost predicate BonusesOk(bonuses: seq<real>) { forall i :: 0 <= i < |bonuses| ==> 1.0 <= bonuses[i] <= 1.8 }

  lemma PickColonyValid(pow: Power, alpha: real, beta: real, rho: real, scores: seq<real>, max: real,
      bonuses: seq<real>)
    requires PowerLaws(pow) && 0.0 <= rho <= 1.0 && NonNegative(scores) && IsMax(scores, max)
    requires |bonuses| == |scores| && BonusesOk(bonuses)
    ensures var c := PickColony(pow, alpha, beta, rho, scores, max, bonuses);
      ValidColony(c) && forall i :: 0 <= i < |c.deposit| ==> c.deposit[i] <= 1.8
  {
    hide Deposit;
    forall i | 0 <= i < |scores| ensures 0.0 <= Deposit(scores[i], max, bonuses[i]) <= 1.8 {
      DepositRange(scores, max, bonuses[i], i);
    }
  }

  /** An ant on index i leaves its bonus, in proportion to the index's score and the best score. */
  lemma PickColonyIs(pow: Power, alpha: real, beta: real, rho: real, scores: seq<real>, max: real,
      bonuses: seq<real>, i: nat)
    requires |bonuses| == |scores| && i < |scores|
    ensures var c := PickColony(pow, alpha, beta, rho, scores, max, bonuses);
      && c.deposit[i] == scores[i] / Max(0.000001, max) * bonuses[i]
      && (max >= 0.000001 && scores[i] == max ==> c.deposit[i] == bonuses[i])
      && (forall x :: Weight(c, i, x) == pow(x, alpha) * pow(scores[i], beta)) && c.keep == 1.0 - rho
  {
  }

  lemma KeptSum(q: real, x: real, y: real)
    ensures Kept(q, x + y) == Kept(q, x) + Kept(q, y)
  {
  }

  /** After the three rounds of six ants, every entry keeps at least (1-rho)^3 of its start, and the
      total is at most (1-rho)^3 of the initial total plus 10.8 ((1-rho) + (1-rho)^2 + (1-rho)^3). */
  lemma AcoPickBounds(c: Colony, u: seq<real>, rounds: seq<seq<real>>)
    requires ValidColony(c) && Fits(c, u)
    requires forall i :: 0 <= i < |c.deposit| ==> c.deposit[i] <= 1.8
    requires |rounds| == ACO_ROUNDS && forall i :: 0 <= i < |rounds| ==> |rounds[i]| == ANTS
    ensures var q, v := c.keep, Rounds(c, u, rounds);
      && (forall i :: 0 <= i < |u| ==> v[i] >= Kept(q, Kept(q, Kept(q, u[i]))))
      && Sum(v) <= Kept(q, Kept(q, Kept(q, Sum(u))))
        + (Kept(q, 10.8) + Kept(q, Kept(q, 10.8)) + Kept(q, Kept(q, Kept(q, 10.8))))
  {
    hide Walk, Sum, Kept;
    var q := c.keep;
    assert rounds[..2][..1] == rounds[..1] && rounds[..1][..0] == [];
    var u1 := Evaporated(q, Walk(c, u, rounds[0]));
    var u2 := Evaporated(q, Walk(c, u1, rounds[1]));
    var u3 := Evaporated(q, Walk(c, u2, rounds[2]));
    assert Rounds(c, u, rounds) == u3 by {
      assert Rounds(c, u, rounds[..0]) == u;
      assert Rounds(c, u, rounds[..1]) == u1;
      assert Rounds(c, u, rounds[..2]) == u2;
    }
    SixDeposits();
    RoundBounds(c, u, rounds[0], 1.8);
    RoundBounds(c, u1, rounds[1], 1.8);
    RoundBounds(c, u2, rounds[2], 1.8);
    ThreeRoundsTotal(q, Sum(u), Sum(u1), Sum(u2), Sum(u3));
    forall i | 0 <= i < |u| ensures u3[i] >= Kept(q, Kept(q, Kept(q, u[i]))) {
      KeptOrder(q, Kept(q, u[i]), u1[i]);
      KeptOrder(q, Kept(q, Kept(q, u[i])), u2[i]);
    }
  }

  /** The same for `acoPick` as it is called: any non-negative scores, any start, any draws. */
  lemma AcoPickKeeps(pow: Power, alpha: real, beta: real, rho: real, scores: seq<real>, max: real, bonuses: seq<real>,
                     u: seq<real>, rounds: seq<seq<real>>)
    requires PowerLaws(pow) && 0.0 <= rho <= 1.0 && NonNegative(scores) && IsMax(scores, max)
    requires |bonuses| == |u| == |scores| && BonusesOk(bonuses) && NonNegative(u)
    requires |rounds| == ACO_ROUNDS && forall i :: 0 <= i < |rounds| ==> |rounds[i]| == ANTS
    ensures var q, v := 1.0 - rho, Rounds(PickColony(pow, alpha, beta, rho, scores, max, bonuses), u, rounds);
      && (forall i :: 0 <= i < |u| ==> v[i] >= Cube(q) * u[i])
      && Sum(v) <= Cube(q) * Sum(u) + 10.8 * (q + q * q + Cube(q))
  {
    hide Rounds, Sum, DepositList, Powers, Deposit;
    PickColonyValid(pow, alpha, beta, rho, scores, max, bonuses);
    var c := PickColony(pow, alpha, beta, rho, scores, max, bonuses);
    AcoPickBounds(c, u, rounds);
    KeptThrice(c.keep, Sum(u));
    KeptThrice(c.keep, 10.8);
    forall i | 0 <= i < |u| ensures Rounds(c, u, rounds)[i] >= Cube(c.keep) * u[i] {
      KeptThrice(c.keep, u[i]);
    }
  }

  function Cube(q: real): real { q * q * q }

  lemma KeptThrice(q: real, x: real)
    ensures Kept(q, Kept(q, Kept(q, x))) == Cube(q) * x
    ensures Kept(q, Kept(q, x)) == q * q * x && Kept(q, x) == q * x
  {
  }

  lemma SixDeposits()
    ensures Deposits(ANTS, 1.8) == 10.8
  {
    assert Deposits(3, 1.8) == 5.4;
  }

  lemma ThreeRoundsTotal(q: real, t0: real, t1: real, t2: real, t3: real)
    requires q >= 0.0
    requires t1 <= Kept(q, t0 + 10.8) && t2 <= Kept(q, t1 + 10.8) && t3 <= Kept(q, t2 + 10.8)
    ensures t3 <= Kept(q, Kept(q, Kept(q, t0)))
      + (Kept(q, 10.8) + Kept(q, Kept(q, 10.8)) + Kept(q, Kept(q, Kept(q, 10.8))))
  {
    hide Kept;
    KeptSum(q, t0, 10.8);
    KeptOrder(q, t1, Kept(q, t0) + Kept(q, 10.8));
    KeptSum(q, t1, 10.8);
    KeptSum(q, Kept(q, t0), Kept(q, 10.8));
    var b := Kept(q, Kept(q, t0)) + Kept(q, Kept(q, 10.8));
    KeptOrder(q, t2, b + Kept(q, 10.8));
    KeptSum(q, t2, 10.8);
    KeptSum(q, b, Kept(q, 10.8));
    KeptSum(q, Kept(q, Kept(q, t0)), Kept(q, Kept(q, 10.8)));
  }

  // ---- scheduleACO ----

  /** What `scheduleACO` stores is kept within these bounds. */
  const MIN_TRAIL := 0.1
  const MAX_TRAIL := 10.0

  const SEARCH_ANTS := 30
  const SEARCH_ROUNDS := 200

  function Ones(n: nat): (s: seq<real>)
    ensures |s| == n && forall i :: 0 <= i < n ==> s[i] == 1.0
  {
    seq(n, i => 1.0)
  }

  function Quotients(scores: seq<real>, max: real): (d: seq<real>)
    requires max > 0.0
    ensures |d| == |scores| && forall i :: 0 <= i < |d| ==> d[i] == scores[i] / max
  {
    seq(|scores|, i requires 0 <= i < |scores| => scores[i] / max)
  }

  /** The colony of `scheduleACO`: pheromone alone attracts, an ant leaves its score relative to the best. */
  function SearchColony(pow: Power, scores: seq<real>, max: real): (c: Colony)
    requires max > 0.0
    ensures |c.attraction| == |c.deposit| == |scores|
  {
    Colony(pow, 1.0, Ones(|scores|), Quotients(scores, max), 0.9)
  }

  ghost predicate SearchOk(c: Colony) { ValidColony(c) && c.keep == 0.9 && c.attraction == Ones(|c.attraction|) }

  /** The best candidate is left 1, one of half its score a half. */
  lemma SearchColonyIs(pow: Power, scores: seq<real>, max: real, i: nat)
    requires max > 0.0 && i < |scores|
    ensures var c := SearchColony(pow, scores, max);
      && c.deposit[i] * max == scores[i] && c.keep == 0.9
      && forall x :: Weight(c, i, x) == pow(x, 1.0)
  {
  }

  lemma SearchColonyOk(pow: Power, scores: seq<real>, max: real)
    requires PowerLaws(pow) && Positive(scores) && IsMax(scores, max)
    ensures max > 0.0 && SearchOk(SearchColony(pow, scores, max))
  {
    var c := SearchColony(pow, scores, max);
    forall i | 0 <= i < |scores| ensures c.deposit[i] >= 0.0 {
      QuotientRange(scores[i], max);
    }
  }

  /** A trail that is positive everywhere stays so, and its weights never add up to 0. */
  lemma PositiveTrail(c: Colony, u: seq<real>)
    requires SearchOk(c) && |u| == |c.attraction| && Positive(u)
    ensures NonNegative(Weights(c, u)) && Sum(Weights(c, u)) > 0.0
  {
    var w := Weights(c, u);
    assert forall i :: 0 <= i < |u| ==> w[i] == c.pow(u[i], 1.0 * c.alpha) * 1.0 && w[i] > 0.0;
    SumNonNegative(w);
    assert w[0] <= Sum(w);
  }
}
