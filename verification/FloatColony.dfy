/** `acoPick` over IEEE values (edge-server/scheduler.go): the same as the colony of module Colony on
    numbers, and what becomes of it on the scores that the hybrid modes really give it. */
module FloatColony {
  import opened RealSeqs
  import opened Floats
  import C = Colony

  /** What stays fixed during one `acoPick`. */
  datatype Pick = Pick(pow: Power, alpha: real, beta: real, rho: real, scores: seq<Float>, bonuses: seq<real>)

  function Weight(p: Pick, x: Float, score: Float): Float {
    Times(PowerOf(p.pow, x, p.alpha), PowerOf(p.pow, score, p.beta))
  }

  function Weights(p: Pick, u: seq<Float>): (w: seq<Float>)
    requires |u| == |p.scores|
    ensures |w| == |u| && forall i :: 0 <= i < |u| ==> w[i] == Weight(p, u[i], p.scores[i])
  {
    seq(|u|, i requires 0 <= i < |u| => Weight(p, u[i], p.scores[i]))
  }

  /** Every weight over the total, or all the same when the total is 0. */
  function Normalised(w: seq<Float>, total: Float): (r: seq<Float>)
    requires w != []
    ensures |r| == |w|
    ensures forall i :: 0 <= i < |w| ==> r[i] == if total == ZERO then Num(1.0 / |w| as real) else Over(w[i], total)
  {
    seq(|w|, i requires 0 <= i < |w| => if total == ZERO then Num(1.0 / |w| as real) else Over(w[i], total))
  }

  function Landing(w: seq<Float>, r: real, i: nat): (k: nat)
    requires i <= |w|
    ensures w != [] ==> k < |w|
    decreases |w| - i
  {
    if i == |w| then 0
    else if AtMost(Num(r), Total(w[..i + 1])) then i
    else Landing(w, r, i + 1)
  }

  function Choice(p: Pick, u: seq<Float>, r: real): (k: nat)
    requires |u| == |p.scores| > 0
    ensures k < |u|
  {
    var w := Weights(p, u);
    Landing(Normalised(w, Total(w)), r, 0)
  }

  /** What an ant leaves on index k. */
  function Deposit(p: Pick, k: nat): Float
    requires k < |p.scores| == |p.bonuses|
  {
    Times(Over(p.scores[k], GoMax(Num(0.000001), p.scores[BestIndex(p.scores)])), Num(p.bonuses[k]))
  }

  function Step(p: Pick, u: seq<Float>, r: real): (v: seq<Float>)
    requires |u| == |p.scores| == |p.bonuses| > 0
    ensures |v| == |u|
  {
    var k := Choice(p, u, r);
    u[k := Plus(u[k], Deposit(p, k))]
  }

  function Walk(p: Pick, u: seq<Float>, draws: seq<real>): (v: seq<Float>)
    requires |u| == |p.scores| == |p.bonuses| > 0
    ensures |v| == |u|
  {
    if draws == [] then u else Step(p, Walk(p, u, draws[..|draws| - 1]), draws[|draws| - 1])
  }

  function Kept(rho: real, x: Float): Float { Times(x, Num(1.0 - rho)) }

  function Evaporated(rho: real, u: seq<Float>): (v: seq<Float>)
    ensures |v| == |u| && forall i :: 0 <= i < |u| ==> v[i] == Kept(rho, u[i])
  {
    seq(|u|, i requires 0 <= i < |u| => Kept(rho, u[i]))
  }

  function Rounds(p: Pick, u: seq<Float>, rounds: seq<seq<real>>): (v: seq<Float>)
    requires |u| == |p.scores| == |p.bonuses| > 0
    ensures |v| == |u|
  {
    if rounds == [] then u
    else Evaporated(p.rho, Walk(p, Rounds(p, u, rounds[..|rounds| - 1]), rounds[|rounds| - 1]))
  }

  lemma WalkStep(p: Pick, u: seq<Float>, draws: seq<real>, r: real)
    requires |u| == |p.scores| == |p.bonuses| > 0
    ensures Walk(p, u, draws + [r]) == Step(p, Walk(p, u, draws), r)
  {
    assert (draws + [r])[..|draws|] == draws;
  }

  lemma RoundsStep(p: Pick, u: seq<Float>, rounds: seq<seq<real>>, round: seq<real>)
    requires |u| == |p.scores| == |p.bonuses| > 0
    ensures Rounds(p, u, rounds + [round]) == Evaporated(p.rho, Walk(p, Rounds(p, u, rounds), round))
  {
    assert (rounds + [round])[..|rounds|] == rounds;
  }

  // ---- on numbers: the colony over the reals ----

  ghost predicate OnNumbers(p: Pick, scores: seq<real>, max: real) {
    && PowerLaws(p.pow) && p.alpha > 0.0 && p.beta > 0.0
    && NonNegative(scores) && p.scores == Nums(scores) && |p.bonuses| == |scores| > 0
    && C.IsMax(scores, max)
  }

  /** The same colony over the reals. */
  function RealColony(p: Pick, scores: seq<real>, max: real): (c: C.Colony)
    requires |p.bonuses| == |scores|
    ensures |c.attraction| == |c.deposit| == |scores|
  {
    C.PickColony(p.pow, p.alpha, p.beta, p.rho, scores, max, p.bonuses)
  }

  lemma {:induction false} ArgmaxOfNumbers(s: seq<real>, held: nat, i: nat)
    requires held < |s| && i <= |s|
    requires forall j :: 0 <= j < i ==> s[j] <= s[held]
    requires forall j :: 0 <= j < held ==> s[j] < s[held]
    ensures IsFirstMax(s, ArgmaxFrom(Nums(s), held, i))
    decreases |s| - i
  {
    if i < |s| {
      ArgmaxOfNumbers(s, if s[i] > s[held] then i else held, i + 1);
    }
  }

  /** On numbers the argmax loop finds the first maximum. */
  lemma BestIndexOfNumbers(s: seq<real>)
    requires s != []
    ensures IsFirstMax(s, BestIndex(Nums(s)))
  {
    ArgmaxOfNumbers(s, 0, 0);
  }

  lemma {:induction false} TotalOfNumbers(s: seq<real>)
    ensures Total(Nums(s)) == Num(Sum(s))
  {
    if s != [] {
      var n := |s| - 1;
      assert Nums(s)[..n] == Nums(s[..n]);
      TotalOfNumbers(s[..n]);
    }
  }

  lemma WeightOfNumbers(p: Pick, scores: seq<real>, max: real, u: seq<real>, i: nat)
    requires OnNumbers(p, scores, max) && NonNegative(u) && i < |u| == |scores|
    ensures Weight(p, Num(u[i]), Num(scores[i])) == Num(C.Weight(RealColony(p, scores, max), i, u[i]))
  {
    hide C.DepositList;
  }

  lemma WeightsOfNumbers(p: Pick, scores: seq<real>, max: real, u: seq<real>)
    requires OnNumbers(p, scores, max) && NonNegative(u) && |u| == |scores|
    ensures Weights(p, Nums(u)) == Nums(C.Weights(RealColony(p, scores, max), u))
  {
    hide OnNumbers, Weight, C.Weight, RealColony;
    SameLengths(p, scores, max);
    forall i | 0 <= i < |u| ensures Weights(p, Nums(u))[i] == Num(C.Weights(RealColony(p, scores, max), u)[i]) {
      WeightOfNumbers(p, scores, max, u, i);
    }
  }

  lemma SameLengths(p: Pick, scores: seq<real>, max: real)
    requires OnNumbers(p, scores, max)
    ensures |p.scores| == |p.bonuses| == |scores| > 0 && p.scores == Nums(scores)
  {
  }

  lemma OverOfNumbers(x: real, y: real)
    requires y != 0.0
    ensures Over(Num(x), Num(y)) == Num(1.0 / y * x)
  {
  }

  lemma NormalisedOfNumbers(w: seq<real>)
    requires w != []
    ensures Normalised(Nums(w), Num(Sum(w))) ==
            Nums(if Sum(w) == 0.0 then C.Uniform(|w|) else Scale(1.0 / Sum(w), w))
  {
    hide Sum;
    var probs := if Sum(w) == 0.0 then C.Uniform(|w|) else Scale(1.0 / Sum(w), w);
    forall i | 0 <= i < |w| ensures Normalised(Nums(w), Num(Sum(w)))[i] == Num(probs[i]) {
      if Sum(w) != 0.0 {
        OverOfNumbers(w[i], Sum(w));
      }
    }
  }

  lemma {:induction false} LandingOfNumbers(w: seq<real>, r: real, i: nat)
    requires i <= |w|
    ensures Landing(Nums(w), r, i) == C.Landing(w, r, i)
    decreases |w| - i
  {
    if i < |w| {
      assert Nums(w)[..i + 1] == Nums(w[..i + 1]);
      TotalOfNumbers(w[..i + 1]);
      LandingOfNumbers(w, r, i + 1);
    }
  }

  lemma ChoiceOfNumbers(p: Pick, scores: seq<real>, max: real, u: seq<real>, r: real)
    requires OnNumbers(p, scores, max) && NonNegative(u) && |u| == |scores|
    ensures |p.scores| == |u| && Choice(p, Nums(u), r) == C.Choice(RealColony(p, scores, max), u, r)
  {
    hide OnNumbers, Landing, C.Landing, Weight, C.Weight, RealColony, Sum, Total;
    SameLengths(p, scores, max);
    WeightsOfNumbers(p, scores, max, u);
    var w := C.Weights(RealColony(p, scores, max), u);
    TotalOfNumbers(w);
    NormalisedOfNumbers(w);
    LandingOfNumbers(C.Probabilities(RealColony(p, scores, max), u), r, 0);
  }

  lemma DepositOfNumbers(p: Pick, scores: seq<real>, max: real, k: nat)
    requires OnNumbers(p, scores, max) && k < |scores|
    ensures Deposit(p, k) == Num(C.Deposit(scores[k], max, p.bonuses[k]))
  {
    BestIndexOfNumbers(scores);
    var best := BestIndex(Nums(scores));
    assert scores[best] == max;
    assert GoMax(Num(0.000001), Num(max)) == Num(Max(0.000001, max));
  }

  lemma StepOfNumbers(p: Pick, scores: seq<real>, max: real, u: seq<real>, r: real)
    requires OnNumbers(p, scores, max) && NonNegative(u) && |u| == |scores|
    ensures |p.scores| == |p.bonuses| == |u| && Step(p, Nums(u), r) == Nums(C.Step(RealColony(p, scores, max), u, r))
  {
    hide OnNumbers, Choice, C.Choice, Deposit, C.Deposit;
    SameLengths(p, scores, max);
    ChoiceOfNumbers(p, scores, max, u, r);
    var c := RealColony(p, scores, max);
    var k := C.Choice(c, u, r);
    DepositOfNumbers(p, scores, max, k);
    assert c.deposit[k] == C.Deposit(scores[k], max, p.bonuses[k]);
  }

  lemma {:induction false} WalkOfNumbers(p: Pick, scores: seq<real>, max: real, u: seq<real>, draws: seq<real>)
    requires OnNumbers(p, scores, max) && NonNegative(u) && |u| == |scores|
    requires NonNegative(RealColony(p, scores, max).deposit)
    ensures |p.scores| == |p.bonuses| == |u|
      && Walk(p, Nums(u), draws) == Nums(C.Walk(RealColony(p, scores, max), u, draws))
    ensures NonNegative(C.Walk(RealColony(p, scores, max), u, draws))
  {
    hide OnNumbers, Step, C.Step, RealColony;
    SameLengths(p, scores, max);
    if draws != [] {
      var before, c := draws[..|draws| - 1], RealColony(p, scores, max);
      WalkOfNumbers(p, scores, max, u, before);
      var v := C.Walk(c, u, before);
      StepOfNumbers(p, scores, max, v, draws[|draws| - 1]);
      C.StepKeepsSign(c, v, draws[|draws| - 1]);
    }
  }

  lemma EvaporatedOfNumbers(rho: real, u: seq<real>)
    ensures Evaporated(rho, Nums(u)) == Nums(C.Evaporated(1.0 - rho, u))
  {
    hide Kept, C.Kept;
    forall i | 0 <= i < |u| ensures Kept(rho, Num(u[i])) == Num(C.Kept(1.0 - rho, u[i])) {
      KeptOfNumber(rho, u[i]);
    }
  }

  lemma KeptOfNumber(rho: real, x: real)
    ensures Kept(rho, Num(x)) == Num(C.Kept(1.0 - rho, x))
  {
  }

  lemma RoundOfNumbers(p: Pick, scores: seq<real>, max: real, u: seq<real>, draws: seq<real>)
    requires OnNumbers(p, scores, max) && NonNegative(u) && |u| == |scores| && p.rho <= 1.0
    requires NonNegative(RealColony(p, scores, max).deposit)
    ensures |p.scores| == |p.bonuses| == |u|
    ensures var c := RealColony(p, scores, max);
      var v := C.Evaporated(c.keep, C.Walk(c, u, draws));
      Evaporated(p.rho, Walk(p, Nums(u), draws)) == Nums(v) && NonNegative(v)
  {
    var c := RealColony(p, scores, max);
    assert c.keep == 1.0 - p.rho;
    hide OnNumbers, Walk, C.Walk, RealColony, Kept, C.Kept, Evaporated;
    SameLengths(p, scores, max);
    WalkOfNumbers(p, scores, max, u, draws);
    var w := C.Walk(c, u, draws);
    EvaporatedOfNumbers(p.rho, w);
    forall i | 0 <= i < |w| ensures C.Kept(c.keep, w[i]) >= 0.0 {
      C.KeptOrder(c.keep, w[i], w[i]);
    }
  }

  /** On non-negative numbers `acoPick` over floats is the colony over the reals, draw by draw. */
  lemma {:induction false} RoundsOfNumbers(p: Pick, scores: seq<real>, max: real, u: seq<real>, rounds: seq<seq<real>>)
    requires OnNumbers(p, scores, max) && NonNegative(u) && |u| == |scores| && p.rho <= 1.0
    requires NonNegative(RealColony(p, scores, max).deposit)
    ensures |p.scores| == |p.bonuses| == |u|
    ensures Rounds(p, Nums(u), rounds) == Nums(C.Rounds(RealColony(p, scores, max), u, rounds))
    ensures NonNegative(C.Rounds(RealColony(p, scores, max), u, rounds))
  {
    hide OnNumbers, Walk, C.Walk, RealColony, Evaporated, C.Evaporated;
    SameLengths(p, scores, max);
    if rounds != [] {
      var before := rounds[..|rounds| - 1];
      RoundsOfNumbers(p, scores, max, u, before);
      RoundOfNumbers(p, scores, max, C.Rounds(RealColony(p, scores, max), u, before), rounds[|rounds| - 1]);
    }
  }

  /** `acoPick` on any non-negative scores and trails, for any draws: the index is the first maximum of the
      scores; every trail ends at least (1-rho)^3 of its start, and the total at most (1-rho)^3 of its start
      plus 10.8 (q + q^2 + q^3) with q = 1-rho. */
  lemma AcoPickOnNumbers(p: Pick, scores: seq<real>, max: real, u: seq<real>, rounds: seq<seq<real>>)
    returns (v: seq<real>)
    requires OnNumbers(p, scores, max) && NonNegative(u) && |u| == |scores| && 0.0 <= p.rho <= 1.0
    requires C.BonusesOk(p.bonuses)
    requires |rounds| == C.ACO_ROUNDS && forall i :: 0 <= i < |rounds| ==> |rounds[i]| == C.ANTS
    ensures |p.scores| == |p.bonuses| == |u| && Rounds(p, Nums(u), rounds) == Nums(v)
    ensures IsFirstMax(scores, BestIndex(p.scores))
    ensures var q := 1.0 - p.rho;
      && |v| == |u| && (forall i :: 0 <= i < |u| ==> v[i] >= C.Cube(q) * u[i])
      && Sum(v) <= C.Cube(q) * Sum(u) + 10.8 * (q + q * q + C.Cube(q))
  {
    hide Rounds, C.Rounds, RealColony, C.BonusesOk, IsFirstMax, OnNumbers, NonNegative, ArgmaxFrom;
    SameLengths(p, scores, max);
    BestIndexOfNumbers(scores);
    RealDeposits(p, scores, max);
    RoundsOfNumbers(p, scores, max, u, rounds);
    v := C.Rounds(RealColony(p, scores, max), u, rounds);
    RealBounds(p, scores, max, u, rounds);
  }

  lemma RealDeposits(p: Pick, scores: seq<real>, max: real)
    requires OnNumbers(p, scores, max) && 0.0 <= p.rho <= 1.0 && C.BonusesOk(p.bonuses)
    ensures NonNegative(RealColony(p, scores, max).deposit)
  {
    C.PickColonyValid(p.pow, p.alpha, p.beta, p.rho, scores, max, p.bonuses);
  }

  lemma RealBounds(p: Pick, scores: seq<real>, max: real, u: seq<real>, rounds: seq<seq<real>>)
    requires OnNumbers(p, scores, max) && NonNegative(u) && |u| == |scores| && 0.0 <= p.rho <= 1.0
    requires C.BonusesOk(p.bonuses)
    requires |rounds| == C.ACO_ROUNDS && forall i :: 0 <= i < |rounds| ==> |rounds[i]| == C.ANTS
    ensures var q, v := 1.0 - p.rho, C.Rounds(RealColony(p, scores, max), u, rounds);
      && (forall i :: 0 <= i < |u| ==> v[i] >= C.Cube(q) * u[i])
      && Sum(v) <= C.Cube(q) * Sum(u) + 10.8 * (q + q * q + C.Cube(q))
  {
    hide C.Rounds, Sum, C.Cube, C.PickColony, C.BonusesOk;
    C.AcoPickKeeps(p.pow, p.alpha, p.beta, p.rho, scores, max, p.bonuses, u, rounds);
  }

  // ---- on the scores of the hybrid modes ----

  /** Trails as they are found: positive numbers, or NaN. */
  ghost predicate Sound(u: seq<Float>) {
    forall i :: 0 <= i < |u| ==> u[i] == NaN || (u[i].Num? && u[i].value > 0.0)
  }

  ghost predicate OnDull(p: Pick) {
    PowerLaws(p.pow) && p.alpha > 0.0 && p.beta > 0.0 && p.rho < 1.0 && AllDull(p.scores)
      && |p.bonuses| == |p.scores| > 0
  }

  lemma DullWeight(p: Pick, x: Float, score: Float)
    requires PowerLaws(p.pow) && p.alpha > 0.0 && p.beta > 0.0 && Dull(score)
    requires x == NaN || (x.Num? && x.value > 0.0)
    ensures Dull(Weight(p, x, score)) && (Weight(p, x, score) == NaN <==> x == NaN || score == NaN)
  {
    assert PowerOf(p.pow, ZERO, p.beta) == ZERO;
  }

  /** A wheel of NaNs never stops: index 0 is taken. */
  lemma {:induction false} LandingOnNaN(w: seq<Float>, r: real, i: nat)
    requires i <= |w| && forall k :: 0 <= k < |w| ==> w[k] == NaN
    ensures Landing(w, r, i) == 0
    decreases |w| - i
  {
    if i < |w| {
      assert w[..i + 1][i] == NaN;
      LandingOnNaN(w, r, i + 1);
    }
  }

  lemma DullDeposit(p: Pick, k: nat)
    requires OnDull(p) && k < |p.scores|
    ensures Deposit(p, k) == if p.scores[k] == NaN || p.scores[0] == NaN then NaN else ZERO
  {
    DullArgmax(p.scores, 0);
  }

  /** An ant takes index 0 as soon as one score is NaN, and it leaves nothing, unless the score it is
      compared with is NaN. */
  lemma DullStep(p: Pick, u: seq<Float>, r: real)
    requires OnDull(p) && Sound(u) && |u| == |p.scores|
    ensures Step(p, u, r) == if p.scores[0] == NaN then u[0 := NaN] else u
  {
    hide Landing, Weight, Deposit, Total;
    var w, k := Weights(p, u), Choice(p, u, r);
    forall i | 0 <= i < |w| ensures Dull(w[i]) && (w[i] == NaN <==> u[i] == NaN || p.scores[i] == NaN) {
      DullWeight(p, u[i], p.scores[i]);
    }
    DullTotal(w);
    DullDeposit(p, k);
    if Total(w) == NaN {
      LandingOnNaN(Normalised(w, Total(w)), r, 0);
      assert k == 0;
    } else {
      assert forall i :: 0 <= i < |w| ==> w[i] != NaN;
      assert p.scores[k] == ZERO && p.scores[0] == ZERO;
    }
    assert Plus(u[k], ZERO) == u[k];
  }

  /** The first trail is spoilt when the first score is NaN. */
  function Spoilt(p: Pick, u: seq<Float>): (v: seq<Float>)
    requires |u| == |p.scores| > 0
    ensures |v| == |u|
  {
    if p.scores[0] == NaN then u[0 := NaN] else u
  }

  lemma {:induction false} DullWalk(p: Pick, u: seq<Float>, draws: seq<real>)
    requires OnDull(p) && Sound(u) && |u| == |p.scores| && draws != []
    ensures Walk(p, u, draws) == Spoilt(p, u) && Sound(Spoilt(p, u))
  {
    hide Step, OnDull;
    assert |p.scores| == |p.bonuses| > 0 by {
      DullLengths(p);
    }
    var before := draws[..|draws| - 1];
    if before != [] {
      DullWalk(p, u, before);
    }
    DullStep(p, Walk(p, u, before), draws[|draws| - 1]);
  }

  lemma DullLengths(p: Pick)
    requires OnDull(p)
    ensures |p.scores| == |p.bonuses| > 0 && p.rho < 1.0
  {
  }

  /** Evaporation n times. */
  function KeptFor(rho: real, x: Float, n: nat): Float { if n == 0 then x else Kept(rho, KeptFor(rho, x, n - 1)) }

  lemma {:induction false} KeptForNaN(rho: real, x: Float, n: nat)
    requires rho < 1.0 && (x == NaN || (x.Num? && x.value > 0.0))
    ensures var y := KeptFor(rho, x, n);
      (y == NaN <==> x == NaN) && (y != NaN ==> y.Num? && y.value > 0.0)
  {
    hide Kept;
    if n > 0 {
      KeptForNaN(rho, x, n - 1);
      KeptSound(rho, KeptFor(rho, x, n - 1));
    }
  }

  /** What a search leaves on index i: its trail, evaporated once per round, or NaN. */
  function Left(p: Pick, u: seq<Float>, i: nat, n: nat): Float
    requires i < |u| == |p.scores|
  {
    if i == 0 && p.scores[0] == NaN && n > 0 then NaN else KeptFor(p.rho, u[i], n)
  }

  /** On scores that are 0 or NaN no ant ever leaves anything: whatever is drawn, every trail just
      evaporates, except that the first becomes NaN when the first score is. */
  lemma {:induction false} DullRounds(p: Pick, u: seq<Float>, rounds: seq<seq<real>>, i: nat)
    requires OnDull(p) && Sound(u) && |u| == |p.scores| == |p.bonuses| && i < |u|
    requires forall k :: 0 <= k < |rounds| ==> rounds[k] != []
    ensures Rounds(p, u, rounds)[i] == Left(p, u, i, |rounds|)
    ensures Sound(Rounds(p, u, rounds))
  {
    hide OnDull, Walk, Evaporated, Sound, Kept;
    DullLengths(p);
    if rounds != [] {
      var before := rounds[..|rounds| - 1];
      DullRounds(p, u, before, i);
      DullRound(p, Rounds(p, u, before), rounds[|rounds| - 1], i);
    }
  }

  lemma DullRound(p: Pick, u: seq<Float>, draws: seq<real>, i: nat)
    requires OnDull(p) && Sound(u) && |u| == |p.scores| == |p.bonuses| && i < |u| && draws != []
    ensures var v := Evaporated(p.rho, Walk(p, u, draws));
      Sound(v) && v[i] == if i == 0 && p.scores[0] == NaN then NaN else Kept(p.rho, u[i])
  {
    DullLengths(p);
    DullWalk(p, u, draws);
    hide OnDull, Walk, Kept;
    var v := Spoilt(p, u);
    forall k | 0 <= k < |v|
      ensures Kept(p.rho, v[k]) == NaN || (Kept(p.rho, v[k]).Num? && Kept(p.rho, v[k]).value > 0.0)
    {
      KeptSound(p.rho, v[k]);
    }
    KeptSound(p.rho, NaN);
  }

  lemma KeptSound(rho: real, x: Float)
    requires rho < 1.0 && (x == NaN || (x.Num? && x.value > 0.0))
    ensures Kept(rho, x) == NaN <==> x == NaN
    ensures x != NaN ==> Kept(rho, x).Num? && Kept(rho, x).value > 0.0
  {
    if x.Num? {
      C.ProductPositive(x.value, 1.0 - rho);
    }
  }
}
