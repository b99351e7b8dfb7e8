/** The score of the hybrid modes and what one of their calls leaves of the trails
    (edge-server/scheduler.go, `PSOACOGAScore`, `acoPick`, `updatePheromones`). The score raises
    1 - load to the power 2.42, and the load is never below 1. */
module HybridScore {
  import opened RealSeqs
  import opened Floats
  import C = Colony
  import F = FloatColony

  /** The factors of the score other than 1 - load and the trail, in the order in which Go applies them. */
  datatype Factors = Factors(
    affinity: Float, memRatio: Float, batching: Float, antiBias: Float,
    complexity: Float, fitness: Float, loadPenalty: Float,
    usageDecay: Float, timeDivisor: Float, energyDivisor: Float)

  function Specialization(f: Factors, trail: Float): Float {
    Times(Times(Times(Times(f.complexity, trail), f.fitness), f.loadPenalty), Num(1.15))
  }

  /** The power of 1 - load. */
  function Idleness(pow: Power, load: real): Float { PowerOf(pow, Num(1.0 - load), 2.42) }

  /** `PSOACOGAScore` of a candidate with this load and stored trail. */
  function Score(pow: Power, f: Factors, load: real, trail: Float): Float {
    var product := Times(Times(Times(Times(Times(Times(
      f.affinity, Idleness(pow, load)), f.memRatio), f.batching), f.antiBias), Specialization(f, trail)), f.usageDecay);
    Over(Over(product, f.timeDivisor), f.energyDivisor)
  }

  lemma DullTimes(a: Float, b: Float)
    requires Dull(a) || Dull(b)
    ensures Dull(Times(a, b))
    ensures a == NaN || b == NaN ==> Times(a, b) == NaN
    ensures a.Num? && b.Num? ==> Times(a, b) == ZERO
  {
  }

  lemma DullOver(a: Float, b: Float)
    requires Dull(a)
    ensures Dull(Over(a, b))
    ensures a == NaN || b == NaN ==> Over(a, b) == NaN
    ensures a == ZERO && b.Num? && b.value != 0.0 ==> Over(a, b) == ZERO
  {
  }

  lemma IdlenessIsDull(pow: Power, load: real)
    requires PowerLaws(pow) && load >= 1.0
    ensures Idleness(pow, load) == if load == 1.0 then ZERO else NaN
  {
    assert !Whole(2.42);
  }

  /** Whatever the other factors are, the score of a candidate is 0 or NaN, and NaN when it has
      anything in flight. */
  lemma ScoreIsDull(pow: Power, f: Factors, load: real, trail: Float)
    requires PowerLaws(pow) && load >= 1.0
    ensures Dull(Score(pow, f, load, trail))
    ensures load > 1.0 || trail == NaN ==> Score(pow, f, load, trail) == NaN
    ensures load == 1.0 && trail.Num? && FiniteFactors(f) ==> Score(pow, f, load, trail) == ZERO
  {
    SpecializationOf(f, trail);
    IdlenessIsDull(pow, load);
    hide Times, Over, Idleness, Specialization, Dull;
    DullZero();
    var idle, spec := Idleness(pow, load), Specialization(f, trail);
    var p1 := Times(f.affinity, idle);
    var p2 := Times(p1, f.memRatio);
    var p3 := Times(p2, f.batching);
    var p4 := Times(p3, f.antiBias);
    var p5 := Times(p4, spec);
    var p6 := Times(p5, f.usageDecay);
    DullTimes(f.affinity, idle);
    DullTimes(p1, f.memRatio);
    DullTimes(p2, f.batching);
    DullTimes(p3, f.antiBias);
    DullTimes(p4, spec);
    DullTimes(p5, f.usageDecay);
    DullOver(p6, f.timeDivisor);
    DullOver(Over(p6, f.timeDivisor), f.energyDivisor);
  }

  lemma DullZero()
    ensures Dull(ZERO) && Dull(NaN)
  {
  }

  lemma SpecializationOf(f: Factors, trail: Float)
    ensures trail == NaN ==> Specialization(f, trail) == NaN
    ensures trail.Num? && FiniteFactors(f) ==> Specialization(f, trail).Num?
  {
  }

  /** All factors are numbers and neither divisor is 0. */
  predicate FiniteFactors(f: Factors) {
    && f.affinity.Num? && f.memRatio.Num? && f.batching.Num? && f.antiBias.Num?
    && f.complexity.Num? && f.fitness.Num? && f.loadPenalty.Num? && f.usageDecay.Num?
    && f.timeDivisor.Num? && f.timeDivisor.value != 0.0
    && f.energyDivisor.Num? && f.energyDivisor.value != 0.0
  }

  /** The score, when the other factors are finite: 0 for a candidate with nothing in flight and a trail
      that is a number, NaN for any other. */
  lemma ScoreIsNaNIff(pow: Power, f: Factors, load: real, trail: Float)
    requires PowerLaws(pow) && load >= 1.0 && FiniteFactors(f) && (trail == NaN || trail.Num?)
    ensures Score(pow, f, load, trail) == NaN <==> load > 1.0 || trail == NaN
  {
    hide Score, FiniteFactors;
    ScoreIsDull(pow, f, load, trail);
  }

  // ---- the choice ----

  /** In every hybrid mode the candidate chosen is the first one, whatever trails, loads, affinities and
      parameters the scheduler has learned. */
  lemma {:induction false} HybridTakesFirst(pow: Power, factors: seq<Factors>, loads: seq<real>, trails: seq<Float>,
      scores: seq<Float>)
    requires PowerLaws(pow) && |factors| == |loads| == |trails| == |scores| > 0
    requires forall i :: 0 <= i < |scores| ==>
      loads[i] >= 1.0 && scores[i] == Score(pow, factors[i], loads[i], trails[i])
    ensures AllDull(scores) && BestIndex(scores) == 0
  {
    hide Score;
    forall i | 0 <= i < |scores| ensures Dull(scores[i]) {
      ScoreIsDull(pow, factors[i], loads[i], trails[i]);
    }
    DullArgmax(scores, 0);
  }

  // ---- the swarm's prior ----

  /** The score as far as `psoPrior` can tell: its comparisons start at the least float, and no comparison
      with NaN holds, so a NaN is to it what the least float is. */
  function PriorScore(x: Float): real { if x.Num? then x.value else -MAX_FLOAT64 }

  function PriorScores(scores: seq<Float>): (r: seq<real>) {
    seq(|scores|, i requires 0 <= i < |scores| => PriorScore(scores[i]))
  }

  lemma PriorComparison(x: Float, best: real)
    requires Dull(x) && best >= -MAX_FLOAT64
    ensures Greater(x, Num(best)) <==> PriorScore(x) > best
  {
  }

  // ---- the trails that are stored ----

  const MIN_STORED := 0.1
  const MAX_STORED := 8.0

  /** The two tests of `updatePheromones`. */
  function Bounded(v: Float): Float {
    var capped := if Greater(v, Num(MAX_STORED)) then Num(MAX_STORED) else v;
    if Greater(Num(MIN_STORED), capped) then Num(MIN_STORED) else capped
  }

  predicate Stored(v: Float) { v.Num? && MIN_STORED <= v.value <= MAX_STORED }

  /** The two tests let NaN through, and nothing else that is out of range. */
  lemma BoundedInRange(v: Float)
    ensures Stored(Bounded(v)) <==> v != NaN
    ensures Bounded(v) == NaN <==> v == NaN
  {
  }

  /** A trail of x after three evaporations, damped and put within the bounds. */
  function StoredNumber(x: real, keep: real, bias: real): real {
    Clamp(MIN_STORED, MAX_STORED, x * keep * keep * keep * bias)
  }

  lemma ThriceKept(rho: real, x: real, bias: real)
    ensures Bounded(Times(F.KeptFor(rho, Num(x), C.ACO_ROUNDS), Num(bias))) == Num(StoredNumber(x, 1.0 - rho, bias))
  {
    var keep := 1.0 - rho;
    assert F.KeptFor(rho, Num(x), 1) == Num(x * keep);
    assert F.KeptFor(rho, Num(x), 2) == Num(x * keep * keep);
    assert F.KeptFor(rho, Num(x), 3) == Num(x * keep * keep * keep);
  }

  /** The value a hybrid call stores for candidate i: its start, evaporated three times and damped by a
      positive bias, within the bounds; NaN if the start was, or if it is the first and has a NaN score. */
  lemma StoredValue(p: F.Pick, u: seq<Float>, rounds: seq<seq<real>>, i: nat, bias: real)
    requires F.OnDull(p) && F.Sound(u) && |u| == |p.scores| == |p.bonuses| && i < |u|
    requires |rounds| == C.ACO_ROUNDS && forall k :: 0 <= k < |rounds| ==> rounds[k] != []
    ensures var v := Bounded(Times(F.Rounds(p, u, rounds)[i], Num(bias)));
      var spoilt := u[i] == NaN || (i == 0 && p.scores[0] == NaN);
      && (v == NaN <==> spoilt)
      && (Stored(v) <==> !spoilt)
      && (!spoilt ==> v == Bounded(Times(F.KeptFor(p.rho, u[i], C.ACO_ROUNDS), Num(bias))))
  {
    F.DullLengths(p);
    F.DullRounds(p, u, rounds, i);
    F.KeptForNaN(p.rho, u[i], C.ACO_ROUNDS);
    hide F.OnDull, F.Rounds, F.KeptFor, Bounded, Stored, StoredNumber;
    var x := F.Rounds(p, u, rounds)[i];
    BoundedInRange(Times(x, Num(bias)));
    assert Times(x, Num(bias)) == NaN <==> x == NaN;
  }

  /** In numbers: what is stored of a start that is not spoilt. */
  lemma StoredIs(p: F.Pick, u: seq<Float>, rounds: seq<seq<real>>, i: nat, bias: real)
    requires F.OnDull(p) && F.Sound(u) && |u| == |p.scores| == |p.bonuses| && i < |u|
    requires |rounds| == C.ACO_ROUNDS && forall k :: 0 <= k < |rounds| ==> rounds[k] != []
    requires u[i] != NaN && (i == 0 ==> p.scores[0] != NaN)
    ensures u[i].Num?
    ensures Bounded(Times(F.Rounds(p, u, rounds)[i], Num(bias))) == Num(StoredNumber(u[i].value, 1.0 - p.rho, bias))
  {
    hide F.OnDull, F.Rounds, F.KeptFor, Bounded, Stored, StoredNumber, Times;
    StoredValue(p, u, rounds, i, bias);
    ThriceKept(p.rho, u[i].value, bias);
  }
}
