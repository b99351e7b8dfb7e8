/** The loops of `acoPick` and of the search in `scheduleACO` (edge-server/scheduler.go), tied to the
    colony of module Colony. */
module AntSearch {
  import opened RealSeqs
  import opened Randomness
  import opened Floats
  import opened Colony
  import F = FloatColony
  import opened Visits

  lemma NothingWeighs()
    ensures Sum([]) == 0.0
  {
  }

  method Weigh(c: Colony, u: seq<real>) returns (w: seq<real>, sumP: real)
    requires |u| == |c.attraction| > 0
    ensures w == Weights(c, u) && sumP == Sum(w)
  {
    hide Weight, Weights, Sum;
    ghost var all := Weights(c, u);
    w := [];
    sumP := 0.0;
    NothingWeighs();
    assert all[..0] == [];
    for i := 0 to |u|
      invariant w == all[..i] && sumP == Sum(all[..i])
    {
      SumUpTo(all, i);
      w := w + [Weight(c, i, u[i])];
      sumP := sumP + w[i];
    }
    assert all[..|u|] == all;
  }

  /** The cumulative loop: the first index whose running total reaches r, 0 when none does. */
  method Spin(w: seq<real>, r: real) returns (selected: nat)
    ensures selected == Roulette(w, r)
    ensures w != [] ==> selected < |w|
  {
    var cum := 0.0;
    selected := 0;
    var i := 0;
    while i < |w|
      invariant i <= |w| && cum == Cum(w, i)
      invariant Roulette(w, r) == Landing(w, r, i)
    {
      CumStep(w, i);
      cum := cum + w[i];
      if r <= cum {
        return i;
      }
      i := i + 1;
    }
  }

  lemma MaxUnique(s: seq<real>, m: real, n: real)
    requires IsMax(s, m) && IsMax(s, n)
    ensures m == n
  {
  }

  /** The evaporation loop. */
  method Evaporate(keep: real, u: seq<real>) returns (v: seq<real>)
    ensures v == Evaporated(keep, u)
  {
    v := u;
    for i := 0 to |u|
      invariant |v| == |u|
      invariant forall j :: 0 <= j < i ==> v[j] == Kept(keep, u[j])
      invariant forall j :: i <= j < |u| ==> v[j] == u[j]
    {
      v := v[i := Kept(keep, v[i])];
    }
  }

  ghost predicate AreRounds(rounds: seq<seq<real>>, count: nat, ants: nat) {
    |rounds| == count && forall i :: 0 <= i < count ==> |rounds[i]| == ants && UnitDraws(rounds[i])
  }

  lemma RoundAdded(rounds: seq<seq<real>>, round: seq<real>, ants: nat)
    requires AreRounds(rounds, |rounds|, ants) && |round| == ants && UnitDraws(round)
    ensures AreRounds(rounds + [round], |rounds| + 1, ants)
  {
  }

  // ---- acoPick, over floats ----

  method WeighFloats(p: F.Pick, u: seq<Float>) returns (w: seq<Float>, sumP: Float)
    requires |u| == |p.scores|
    ensures w == F.Weights(p, u) && sumP == Total(w)
  {
    hide F.Weight, Plus;
    ghost var all := F.Weights(p, u);
    w, sumP := [], ZERO;
    for i := 0 to |u|
      invariant w == all[..i] && sumP == Total(all[..i])
    {
      TotalUpTo(all, i);
      w := w + [F.Weight(p, u[i], p.scores[i])];
      sumP := Plus(sumP, w[i]);
    }
    assert all[..|u|] == all;
  }

  /** Divide by the total; when everything weighs 0 all indices are equally likely. */
  method Normalise(w: seq<Float>, sumP: Float) returns (probs: seq<Float>)
    requires w != []
    ensures probs == F.Normalised(w, sumP)
  {
    hide Over;
    probs := w;
    if sumP == ZERO {
      for i := 0 to |w|
        invariant |probs| == |w|
        invariant forall j :: 0 <= j < i ==> probs[j] == Num(1.0 / |w| as real)
      {
        probs := probs[i := Num(1.0 / |w| as real)];
      }
    } else {
      for i := 0 to |w|
        invariant |probs| == |w|
        invariant forall j :: 0 <= j < i ==> probs[j] == Over(w[j], sumP)
        invariant forall j :: i <= j < |w| ==> probs[j] == w[j]
      {
        probs := probs[i := Over(probs[i], sumP)];
      }
    }
  }

  /** The cumulative loop over floats: a NaN is never reached by any draw. */
  method SpinFloats(w: seq<Float>, r: real) returns (selected: nat)
    ensures selected == F.Landing(w, r, 0)
    ensures w != [] ==> selected < |w|
  {
    hide Plus, AtMost;
    var cum := ZERO;
    selected := 0;
    var i := 0;
    while i < |w|
      invariant i <= |w| && cum == Total(w[..i])
      invariant F.Landing(w, r, 0) == F.Landing(w, r, i)
    {
      TotalUpTo(w, i);
      cum := Plus(cum, w[i]);
      if AtMost(Num(r), cum) {
        return i;
      }
      i := i + 1;
    }
  }

  /** One ant of `acoPick`. */
  method SendAnt(rng: Rng, p: F.Pick, u: seq<Float>) returns (v: seq<Float>, ghost r: real)
    requires |u| == |p.scores| == |p.bonuses| > 0
    modifies rng
    ensures 0.0 <= r < 1.0 && rng.log == old(rng.log) + [r]
    ensures v == F.Step(p, u, r)
  {
    hide F.Weight, F.Landing, Times, Over, Plus, GoMax;
    var w, sumP := WeighFloats(p, u);
    var probs := Normalise(w, sumP);
    var draw := rng.Float64();
    r := draw;
    var selected := SpinFloats(probs, draw);
    var max := FloatMax(p.scores);
    var delta := Times(Over(p.scores[selected], GoMax(Num(0.000001), max)), Num(p.bonuses[selected]));
    v := u[selected := Plus(u[selected], delta)];
  }

  /** The six ants of one round of `acoPick`. */
  method SendAnts(rng: Rng, p: F.Pick, u: seq<Float>) returns (v: seq<Float>, ghost round: seq<real>)
    requires |u| == |p.scores| == |p.bonuses| > 0
    modifies rng
    ensures |round| == ANTS && UnitDraws(round) && rng.log == old(rng.log) + round
    ensures v == F.Walk(p, u, round)
  {
    hide F.Step;
    v := u;
    round := [];
    for ant := 0 to ANTS
      invariant |round| == ant && UnitDraws(round) && rng.log == old(rng.log) + round
      invariant v == F.Walk(p, u, round)
    {
      ghost var r;
      v, r := SendAnt(rng, p, v);
      F.WalkStep(p, u, round, r);
      round := round + [r];
    }
  }

  method EvaporateFloats(rho: real, u: seq<Float>) returns (v: seq<Float>)
    ensures v == F.Evaporated(rho, u)
  {
    hide F.Kept;
    v := u;
    for i := 0 to |u|
      invariant |v| == |u|
      invariant forall j :: 0 <= j < i ==> v[j] == F.Kept(rho, u[j])
      invariant forall j :: i <= j < |u| ==> v[j] == u[j]
    {
      v := v[i := F.Kept(rho, v[i])];
    }
  }

  lemma NoFloatRounds(p: F.Pick, u: seq<Float>)
    requires |u| == |p.scores| == |p.bonuses| > 0
    ensures F.Rounds(p, u, []) == u && Flat([]) == [] && AreRounds([], 0, ANTS)
  {
  }

  /** `acoPick`: three rounds of six ants over a copy of the pheromone. The trail returned is that of
      the eighteen draws; the index is that of the argmax loop over the scores, whatever was drawn. */
  method AcoPick(rng: Rng, p: F.Pick, initial: seq<Float>)
    returns (best: int, updated: seq<Float>, ghost rounds: seq<seq<real>>)
    requires |initial| == |p.scores| == |p.bonuses|
    modifies rng
    ensures p.scores == [] ==> best == -1 && updated == [] && rng.log == old(rng.log)
    ensures p.scores != [] ==> best == BestIndex(p.scores)
    ensures p.scores != [] ==> AreRounds(rounds, ACO_ROUNDS, ANTS) && rng.log == old(rng.log) + Flat(rounds)
    ensures p.scores != [] ==> updated == F.Rounds(p, initial, rounds)
    ensures p.scores != [] ==> |rounds| == 3 && forall i :: 0 <= i < 3 ==> |rounds[i]| == 6
  {
    hide F.Walk, Flat, F.Rounds, ArgmaxFrom;
    rounds := [];
    if p.scores == [] {
      return -1, [], [];
    }
    updated := initial;
    NoFloatRounds(p, initial);
    for iter := 0 to ACO_ROUNDS
      invariant |rounds| == iter && AreRounds(rounds, iter, ANTS) && rng.log == old(rng.log) + Flat(rounds)
      invariant |updated| == |p.scores| && updated == F.Rounds(p, initial, rounds)
    {
      ghost var round;
      updated, round := SendAnts(rng, p, updated);
      updated := EvaporateFloats(p.rho, updated);
      FlatStep(rounds, round);
      RoundAdded(rounds, round, ANTS);
      F.RoundsStep(p, initial, rounds, round);
      rounds := rounds + [round];
    }
    best := FloatArgmax(p.scores);
  }

  // ---- scheduleACO, over the reals ----

  /** Raw weights and the draw stretched to their total, as `scheduleACO` spins. */
  method SpinWeights(rng: Rng, c: Colony, u: seq<real>) returns (selected: nat, ghost r: real)
    requires SearchOk(c) && |u| == |c.attraction| && Positive(u)
    modifies rng
    ensures 0.0 <= r < 1.0 && rng.log == old(rng.log) + [r]
    ensures selected < |u| && selected == Choice(c, u, r)
  {
    var w, sumP := Weigh(c, u);
    PositiveTrail(c, u);
    // the source draws uniformly when sumP is 0, which this excludes
    assert sumP > 0.0;
    var draw := rng.Float64();
    r := draw;
    var stretched := draw * sumP;
    selected := Spin(w, stretched);
    ChoiceByWeights(c, u, r, stretched);
  }

  lemma DepositKeepsPositive(u: seq<real>, k: nat, d: real)
    requires Positive(u) && k < |u| && d >= 0.0
    ensures Positive(u[k := u[k] + d])
  {
  }

  /** The ants of one round of `scheduleACO`, remembering the best index met. */
  method SendScouts(rng: Rng, c: Colony, scores: seq<real>, u: seq<real>, best0: nat, bestScore0: real,
      ghost visits0: seq<nat>)
    returns (v: seq<real>, best: nat, bestScore: real, ghost round: seq<real>)
    requires SearchOk(c) && |u| == |c.attraction| == |c.deposit| == |scores| > 0
    requires NonNegative(c.deposit) && Positive(u) && Positive(scores)
    requires BestSoFar(scores, visits0, best0, bestScore0)
    modifies rng
    ensures |round| == SEARCH_ANTS && UnitDraws(round) && rng.log == old(rng.log) + round
    ensures v == Walk(c, u, round) && Positive(v)
    ensures BestSoFar(scores, visits0 + WalkChoices(c, u, round), best, bestScore)
  {
    hide BestSoFar, Choice, SearchOk, Positive;
    v, best, bestScore, round := u, best0, bestScore0, [];
    assert visits0 + WalkChoices(c, u, []) == visits0;
    for ant := 0 to SEARCH_ANTS
      invariant |round| == ant && UnitDraws(round) && rng.log == old(rng.log) + round
      invariant v == Walk(c, u, round) && Positive(v)
      invariant BestSoFar(scores, visits0 + WalkChoices(c, u, round), best, bestScore)
    {
      var selected, r := SpinWeights(rng, c, v);
      BestSoFarStep(scores, visits0 + WalkChoices(c, u, round), best, bestScore, selected);
      var score := scores[selected];
      if score > bestScore {
        bestScore, best := score, selected;
      }
      DepositKeepsPositive(v, selected, c.deposit[selected]);
      v := v[selected := v[selected] + c.deposit[selected]];
      WalkStep(c, u, round, r);
      WalkChoicesStep(c, u, round, r);
      assert visits0 + WalkChoices(c, u, round) + [selected] == visits0 + WalkChoices(c, u, round + [r]);
      round := round + [r];
    }
  }

  lemma EvaporationKeepsPositive(keep: real, u: seq<real>)
    requires keep > 0.0 && Positive(u)
    ensures Positive(Evaporated(keep, u))
  {
    forall i | 0 <= i < |u| ensures Kept(keep, u[i]) > 0.0 {
      KeptOrder(keep, u[i], u[i]);
    }
  }

  /** The double loop of `scheduleACO`. */
  method Explore(rng: Rng, c: Colony, scores: seq<real>)
    returns (pher: seq<real>, best: nat, bestScore: real, ghost rounds: seq<seq<real>>)
    requires SearchOk(c) && c.keep > 0.0 && |c.attraction| == |c.deposit| == |scores| > 0
    requires NonNegative(c.deposit) && Positive(scores)
    modifies rng
    ensures AreRounds(rounds, SEARCH_ROUNDS, SEARCH_ANTS) && rng.log == old(rng.log) + Flat(rounds)
    ensures pher == Rounds(c, Ones(|scores|), rounds) && Positive(pher)
    ensures BestSoFar(scores, AllChoices(c, Ones(|scores|), rounds), best, bestScore)
  {
    hide BestSoFar, SearchOk, Positive, Walk, AreRounds, Flat, Rounds, AllChoices;
    ghost var start := Ones(|scores|);
    rounds, best, bestScore := [], 0, -MAX_FLOAT64;
    pher := Ones(|scores|);
    ExploreStart(c, scores);
    for t := 0 to SEARCH_ROUNDS
      invariant |rounds| == t && AreRounds(rounds, t, SEARCH_ANTS) && rng.log == old(rng.log) + Flat(rounds)
      invariant |pher| == |scores| && pher == Rounds(c, start, rounds) && Positive(pher)
      invariant BestSoFar(scores, AllChoices(c, start, rounds), best, bestScore)
    {
      ghost var round;
      pher, best, bestScore, round := SendScouts(rng, c, scores, pher, best, bestScore, AllChoices(c, start, rounds));
      EvaporationKeepsPositive(c.keep, pher);
      pher := Evaporate(c.keep, pher);
      FlatStep(rounds, round);
      RoundAdded(rounds, round, SEARCH_ANTS);
      RoundsStep(c, start, rounds, round);
      AllChoicesStep(c, start, rounds, round);
      rounds := rounds + [round];
    }
  }

  lemma ExploreStart(c: Colony, scores: seq<real>)
    requires |c.attraction| == |c.deposit| == |scores| > 0
    ensures var u := Ones(|scores|);
      Rounds(c, u, []) == u && AllChoices(c, u, []) == [] && Positive(u)
    ensures Flat([]) == [] && AreRounds([], 0, SEARCH_ANTS) && BestSoFar(scores, [], 0, -MAX_FLOAT64)
  {
  }

  /** The two tests made before a trail is stored. */
  method ClampTrail(pher: seq<real>) returns (stored: seq<real>)
    ensures |stored| == |pher|
    ensures forall i :: 0 <= i < |pher| ==> stored[i] == Clamp(MIN_TRAIL, MAX_TRAIL, pher[i])
  {
    stored := pher;
    for i := 0 to |pher|
      invariant |stored| == |pher|
      invariant forall j :: 0 <= j < i ==> stored[j] == Clamp(MIN_TRAIL, MAX_TRAIL, pher[j])
      invariant forall j :: i <= j < |pher| ==> stored[j] == pher[j]
    {
      if stored[i] > 10.0 {
        stored := stored[i := 10.0];
      }
      if stored[i] < 0.1 {
        stored := stored[i := 0.1];
      }
    }
  }

  /** The outcome of a search with these draws. */
  ghost predicate IsSearchResult(c: Colony, scores: seq<real>, rounds: seq<seq<real>>, best: nat, stored: seq<real>)
    requires |c.attraction| == |c.deposit| == |scores| == |stored| > 0
  {
    var start := Ones(|scores|);
    && IsFirstBest(scores, AllChoices(c, start, rounds), best)
    && forall i :: 0 <= i < |scores| ==> stored[i] == Clamp(MIN_TRAIL, MAX_TRAIL, Rounds(c, start, rounds)[i])
  }

  /** `scheduleACO` up to storing the trail: the index returned is the first visit of an ant that
      reached the best score of all 6000 visits. */
  method AcoSearch(rng: Rng, pow: Power, scores: seq<real>)
    returns (best: nat, stored: seq<real>, ghost rounds: seq<seq<real>>)
    requires PowerLaws(pow) && Positive(scores) && scores != []
    modifies rng
    ensures best < |scores| == |stored|
    ensures AreRounds(rounds, SEARCH_ROUNDS, SEARCH_ANTS) && rng.log == old(rng.log) + Flat(rounds)
    ensures |rounds| == 200 && forall i :: 0 <= i < 200 ==> |rounds[i]| == 30
    ensures forall max :: IsMax(scores, max) ==> max > 0.0
    ensures forall max :: IsMax(scores, max) ==>
      IsSearchResult(SearchColony(pow, scores, max), scores, rounds, best, stored)
  {
    hide AllChoices, Rounds, IsFirstBest, AreRounds, Flat, SearchOk;
    var max := MaxFloat64(scores);
    assert IsMax(scores, max);
    SearchColonyOk(pow, scores, max);
    var maxScore := if max <= 0.0 then 1.0 else max;
    forall m | IsMax(scores, m) ensures m == max {
      MaxUnique(scores, m, max);
    }
    var c := SearchColony(pow, scores, maxScore);
    ColonyDeposits(c);
    var pher, bestScore;
    pher, best, bestScore, rounds := Explore(rng, c, scores);
    SomethingVisited(c, scores, rounds, best, bestScore);
    stored := ClampTrail(pher);
    RoundSizes(rounds, SEARCH_ROUNDS, SEARCH_ANTS);
  }

  lemma RoundSizes(rounds: seq<seq<real>>, count: nat, ants: nat)
    requires AreRounds(rounds, count, ants)
    ensures |rounds| == count && forall i :: 0 <= i < count ==> |rounds[i]| == ants
  {
  }

  lemma ColonyDeposits(c: Colony)
    requires SearchOk(c)
    ensures NonNegative(c.deposit) && c.keep == 0.9
  {
  }

  lemma SomethingVisited(c: Colony, scores: seq<real>, rounds: seq<seq<real>>, best: nat, bestScore: real)
    requires |c.attraction| == |c.deposit| == |scores| > 0 && Positive(scores)
    requires AreRounds(rounds, SEARCH_ROUNDS, SEARCH_ANTS)
    requires BestSoFar(scores, AllChoices(c, Ones(|scores|), rounds), best, bestScore)
    ensures IsFirstBest(scores, AllChoices(c, Ones(|scores|), rounds), best) && best < |scores|
  {
    hide Rounds, Choice, Walk;
    assert |rounds[|rounds| - 1]| == SEARCH_ANTS;
    var visits := AllChoices(c, Ones(|scores|), rounds);
    assert visits != [] && scores[visits[0]] > -MAX_FLOAT64;
  }
}
