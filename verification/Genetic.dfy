/** The genetic operators and the parameter search of the scheduler (edge-server/scheduler.go,
    `crossover`, `mutate`, `tournamentSelect`, `UpdateParams`). */
module Genetic {
  import opened RealSeqs
  import opened Randomness

  /** `[3]float64`: alpha, beta and rho. */
  type Genes = s: seq<real> | |s| == 3 witness [0.0, 0.0, 0.0]

  const ZERO_GENES: Genes := [0.0, 0.0, 0.0]

  // ---- crossover ----

  function Blended(b: seq<real>, p: Genes, q: Genes): Genes
    requires |b| == 3
  {
    [Blend(b[0], p[0], q[0]), Blend(b[1], p[1], q[1]), Blend(b[2], p[2], q[2])]
  }

  function Unblended(b: seq<real>, p: Genes, q: Genes): Genes
    requires |b| == 3
  {
    [Blend(b[0], q[0], p[0]), Blend(b[1], q[1], p[1]), Blend(b[2], q[2], p[2])]
  }

  /** `crossover`: the parents themselves, or two blends of them. */
  method Crossover(rng: Rng, p: Genes, q: Genes) returns (c: Genes, d: Genes, ghost gate: real, ghost b: seq<real>)
    modifies rng
    ensures 0.0 <= gate < 1.0 && UnitDraws(b)
    ensures gate > 0.8 ==> c == p && d == q && rng.log == old(rng.log) + [gate]
    ensures gate <= 0.8 ==>
      |b| == 3 && c == Blended(b, p, q) && d == Unblended(b, p, q) && rng.log == old(rng.log) + [gate] + b
  {
    hide Blend;
    var first := rng.Float64();
    gate, b := first, [];
    if first > 0.8 {
      return p, q, gate, b;
    }
    var left: seq<real>, right: seq<real> := [], [];
    for i := 0 to 3
      invariant |b| == |left| == |right| == i && UnitDraws(b) && rng.log == old(rng.log) + [gate] + b
      invariant forall j :: 0 <= j < i ==> left[j] == Blend(b[j], p[j], q[j]) && right[j] == Blend(b[j], q[j], p[j])
    {
      var blend := rng.Float64();
      left, right := left + [Blend(blend, p[i], q[i])], right + [Blend(blend, q[i], p[i])];
      b := b + [blend];
    }
    c, d := left, right;
  }

  // ---- mutation ----

  function Lowest(i: nat): real { if i == 0 then 0.5 else if i == 1 then 1.0 else 0.05 }

  function Highest(i: nat): real { if i == 0 then 2.5 else if i == 1 then 4.0 else 0.25 }

  /** One gene: mutated when its trial is below the rate. */
  function MutatedGene(i: nat, x: real, rate: real, trial: real, noise: real): real {
    if trial < rate then Clamp(Lowest(i), Highest(i), x + noise * 0.1) else x
  }

  function Mutated(c: Genes, rate: real, trials: seq<real>, noise: seq<real>): Genes
    requires |trials| == |noise| == 3
  {
    [MutatedGene(0, c[0], rate, trials[0], noise[0]),
     MutatedGene(1, c[1], rate, trials[1], noise[1]),
     MutatedGene(2, c[2], rate, trials[2], noise[2])]
  }

  function MutationRate(decay: real): real { 0.1 * (1.0 - decay) }

  /** What `mutate` draws: noise is drawn only for a gene whose trial is below the rate. */
  ghost function TrialLog(trials: seq<real>, noise: seq<real>, rate: real): seq<real>
    requires |trials| == |noise|
  {
    if trials == [] then []
    else
      var n := |trials| - 1;
      TrialLog(trials[..n], noise[..n], rate) + [trials[n]] + if trials[n] < rate then [noise[n]] else []
  }

  lemma NoTrials(rate: real)
    ensures TrialLog([], [], rate) == []
  {
  }

  lemma TrialLogStep(trials: seq<real>, noise: seq<real>, rate: real, trial: real, z: real)
    requires |trials| == |noise|
    ensures TrialLog(trials + [trial], noise + [z], rate) ==
            TrialLog(trials, noise, rate) + [trial] + if trial < rate then [z] else []
  {
    assert (trials + [trial])[..|trials|] == trials && (noise + [z])[..|noise|] == noise;
  }

  /** `mutate` */
  method Mutate(rng: Rng, c: Genes, decay: real) returns (m: Genes, ghost trials: seq<real>, ghost noise: seq<real>)
    modifies rng
    ensures |trials| == |noise| == 3 && UnitDraws(trials)
    ensures m == Mutated(c, MutationRate(decay), trials, noise)
    ensures rng.log == old(rng.log) + TrialLog(trials, noise, MutationRate(decay))
    ensures MutationRate(decay) == 0.1 * (1.0 - decay)
  {
    hide TrialLog;
    var mutRate := MutationRate(decay);
    m, trials, noise := c, [], [];
    NoTrials(mutRate);
    for i := 0 to 3
      invariant |trials| == |noise| == i && UnitDraws(trials)
      invariant rng.log == old(rng.log) + TrialLog(trials, noise, mutRate)
      invariant forall j :: 0 <= j < i ==> m[j] == MutatedGene(j, c[j], mutRate, trials[j], noise[j])
      invariant forall j :: i <= j < 3 ==> m[j] == c[j]
    {
      var trial := rng.Float64();
      var z := 0.0;
      if trial < mutRate {
        z := rng.NormFloat64();
        m := m[i := Clamp(Lowest(i), Highest(i), m[i] + z * 0.1)];
      }
      TrialLogStep(trials, noise, mutRate, trial, z);
      trials, noise := trials + [trial], noise + [z];
    }
  }

  // ---- selection ----

  function Fitter(pop: seq<Genes>, fitness: seq<real>, i: nat, j: nat): Genes
    requires i < |pop| == |fitness| && j < |pop|
  {
    if fitness[j] > fitness[i] then pop[j] else pop[i]
  }

  ghost function IndexLog(drawn: seq<nat>): (l: seq<real>)
    ensures |l| == |drawn| && forall i :: 0 <= i < |l| ==> l[i] == drawn[i] as real
  {
    seq(|drawn|, i requires 0 <= i < |drawn| => drawn[i] as real)
  }

  /** `tournamentSelect`: of two drawn members the fitter, the first drawn on a tie; twice. */
  method TournamentSelect(rng: Rng, pop: seq<Genes>, fitness: seq<real>)
    returns (p1: Genes, p2: Genes, ghost drawn: seq<nat>)
    requires |pop| == |fitness| > 0
    modifies rng
    ensures |drawn| == 4 && forall i :: 0 <= i < 4 ==> drawn[i] < |pop|
    ensures p1 == Fitter(pop, fitness, drawn[0], drawn[1]) && p2 == Fitter(pop, fitness, drawn[2], drawn[3])
    ensures rng.log == old(rng.log) + IndexLog(drawn)
  {
    var i1 := rng.Intn(|pop|);
    var i2 := rng.Intn(|pop|);
    p1 := pop[i1];
    if fitness[i2] > fitness[i1] {
      p1 := pop[i2];
    }
    var i3 := rng.Intn(|pop|);
    var i4 := rng.Intn(|pop|);
    p2 := pop[i3];
    if fitness[i4] > fitness[i3] {
      p2 := pop[i4];
    }
    drawn := [i1, i2, i3, i4];
    assert rng.log == old(rng.log) + [i1 as real, i2 as real, i3 as real, i4 as real];
    assert IndexLog(drawn) == [i1 as real, i2 as real, i3 as real, i4 as real];
  }

  // ---- ranges ----

  ghost predicate InRange(g: Genes) {
    forall i :: 0 <= i < 3 ==> Lowest(i) <= g[i] <= Highest(i)
  }

  ghost predicate AllInRange(pop: seq<Genes>) { forall i :: 0 <= i < |pop| ==> InRange(pop[i]) }

  lemma BlendedInRange(b: seq<real>, p: Genes, q: Genes)
    requires |b| == 3 && UnitDraws(b) && InRange(p) && InRange(q)
    ensures InRange(Blended(b, p, q)) && InRange(Unblended(b, p, q))
  {
    hide Blend;
    forall i | 0 <= i < 3
      ensures Lowest(i) <= Blended(b, p, q)[i] <= Highest(i) && Lowest(i) <= Unblended(b, p, q)[i] <= Highest(i)
    {
      BlendBetween(b[i], p[i], q[i]);
      BlendBetween(b[i], q[i], p[i]);
    }
  }

  lemma MutatedInRange(c: Genes, rate: real, trials: seq<real>, noise: seq<real>)
    requires |trials| == |noise| == 3 && InRange(c)
    ensures InRange(Mutated(c, rate, trials, noise))
  {
    forall i | 0 <= i < 3
      ensures Lowest(i) <= Mutated(c, rate, trials, noise)[i] <= Highest(i)
    {
      assert Lowest(i) <= c[i] <= Highest(i);
    }
  }

  // ---- fitness ----

  /** `calculateFitness`, given the mean recent duration, the load variance and the load bias.
      The individual is not looked at. */
  function Fitness(params: Genes, avgScore: real, variance: real, bias: real): real {
    avgScore * Penalty(variance, bias)
  }

  function Penalty(variance: real, bias: real): real {
    var penalized := (1.0 - 1.5 * Min(variance, 0.666)) * (1.0 - 0.5 * bias);
    if penalized < 0.01 then 0.01 else penalized
  }

  lemma FactorRange(x: real, p: real)
    requires x >= 0.0 && 0.01 <= p <= 1.0
    ensures 0.01 * x <= x * p <= x
  {
    ProductNonNegative(x, p - 0.01);
    ProductNonNegative(x, 1.0 - p);
    assert x * (p - 0.01) == x * p - x * 0.01;
    assert x * (1.0 - p) == x - x * p;
  }

  /** Fitness never becomes negative, and imbalance can only lower it. */
  lemma FitnessRange(params: Genes, avgScore: real, variance: real, bias: real)
    requires avgScore >= 0.0 && variance >= 0.0 && bias >= 0.0
    ensures 0.01 * avgScore <= Fitness(params, avgScore, variance, bias) <= avgScore
  {
    PenaltyRange(variance, bias);
    FactorRange(avgScore, Penalty(variance, bias));
  }

  /** Even loads are not penalised at all; with a bias of 2, or of the largest float, as much as possible. */
  lemma PenaltyEnds(variance: real, bias: real)
    requires variance >= 0.0
    ensures variance == 0.0 && bias == 0.0 ==> Penalty(variance, bias) == 1.0
    ensures bias >= 2.0 ==> Penalty(variance, bias) == 0.01
    ensures bias == 0.0 && variance <= 0.6 ==> Penalty(variance, bias) == 1.0 - 1.5 * variance
  {
    if bias >= 2.0 {
      ProductNonNegative(1.0 - 1.5 * Min(variance, 0.666), 0.5 * bias - 1.0);
      assert (1.0 - 1.5 * Min(variance, 0.666)) * (1.0 - 0.5 * bias) <= 0.0;
    }
  }

  lemma PenaltyRange(variance: real, bias: real)
    requires variance >= 0.0 && bias >= 0.0
    ensures 0.01 <= Penalty(variance, bias) <= 1.0
  {
    var a := 1.0 - 1.5 * Min(variance, 0.666);
    assert 0.0 < a <= 1.0;
    ProductNonNegative(a, 0.5 * bias);
    assert a * (1.0 - 0.5 * bias) == a - a * (0.5 * bias);
  }

  // ---- the parameter search ----

  const POP_SIZE := 13
  const GENERATIONS := 18

  /** The generation that these draws, three per individual, bring about. */
  ghost function Seeded(seeds: seq<real>): (pop: seq<Genes>)
    requires |seeds| == 3 * POP_SIZE
    ensures |pop| == POP_SIZE
  {
    seq(POP_SIZE, i requires 0 <= i < POP_SIZE =>
      [0.5 + seeds[3 * i] * 2.0, 1.0 + seeds[3 * i + 1] * 3.0, 0.05 + seeds[3 * i + 2] * 0.2])
  }

  lemma SeededInRange(seeds: seq<real>)
    requires |seeds| == 3 * POP_SIZE && UnitDraws(seeds)
    ensures AllInRange(Seeded(seeds))
  {
    var pop := Seeded(seeds);
    forall i | 0 <= i < |pop| ensures InRange(pop[i]) {
      assert pop[i] == [0.5 + seeds[3 * i] * 2.0, 1.0 + seeds[3 * i + 1] * 3.0, 0.05 + seeds[3 * i + 2] * 0.2];
    }
  }

  method FirstGeneration(rng: Rng) returns (pop: seq<Genes>, ghost seeds: seq<real>)
    modifies rng
    ensures |seeds| == 3 * POP_SIZE && UnitDraws(seeds) && rng.log == old(rng.log) + seeds
    ensures pop == Seeded(seeds) && AllInRange(pop)
  {
    pop, seeds := [], [];
    for i := 0 to POP_SIZE
      invariant |pop| == i && |seeds| == 3 * i && UnitDraws(seeds) && rng.log == old(rng.log) + seeds
      invariant forall j :: 0 <= j < i ==>
        pop[j] == [0.5 + seeds[3 * j] * 2.0, 1.0 + seeds[3 * j + 1] * 3.0, 0.05 + seeds[3 * j + 2] * 0.2]
    {
      var a := rng.Float64();
      var b := rng.Float64();
      var r := rng.Float64();
      pop, seeds := pop + [[0.5 + a * 2.0, 1.0 + b * 3.0, 0.05 + r * 0.2]], seeds + [a, b, r];
    }
    SeededInRange(seeds);
  }

  method Evaluate(pop: seq<Genes>, avgScore: real, variance: real, bias: real) returns (fitness: seq<real>)
    ensures |fitness| == |pop|
    ensures forall i :: 0 <= i < |pop| ==> fitness[i] == Fitness(pop[i], avgScore, variance, bias)
  {
    fitness := [];
    for i := 0 to |pop|
      invariant |fitness| == i
      invariant forall j :: 0 <= j < i ==> fitness[j] == Fitness(pop[j], avgScore, variance, bias)
    {
      fitness := fitness + [Fitness(pop[i], avgScore, variance, bias)];
    }
  }

  /** Everything drawn while breeding one pair. */
  datatype Breeding = Breeding(
    drawn: seq<nat>, gate: real, blends: seq<real>,
    trials1: seq<real>, noise1: seq<real>, trials2: seq<real>, noise2: seq<real>)

  ghost predicate ValidBreeding(h: Breeding, size: nat) {
    && |h.drawn| == 4 && (forall i :: 0 <= i < 4 ==> h.drawn[i] < size)
    && |h.blends| == (if h.gate > 0.8 then 0 else 3) && UnitDraws(h.blends)
    && |h.trials1| == |h.noise1| == |h.trials2| == |h.noise2| == 3
  }

  /** All of that, in order. */
  ghost function BreedLog(h: Breeding, rate: real): seq<real>
    requires |h.trials1| == |h.noise1| && |h.trials2| == |h.noise2|
  {
    IndexLog(h.drawn) + [h.gate] + h.blends + TrialLog(h.trials1, h.noise1, rate) + TrialLog(h.trials2, h.noise2, rate)
  }

  /** One of the two children: a mutated blend of two tournament winners, or a mutated winner. */
  ghost function Child(pop: seq<Genes>, fitness: seq<real>, rate: real, h: Breeding, first: bool): Genes
    requires |pop| == |fitness| && ValidBreeding(h, |pop|)
  {
    var p1 := Fitter(pop, fitness, h.drawn[0], h.drawn[1]);
    var p2 := Fitter(pop, fitness, h.drawn[2], h.drawn[3]);
    if first then Mutated(if h.gate > 0.8 then p1 else Blended(h.blends, p1, p2), rate, h.trials1, h.noise1)
    else Mutated(if h.gate > 0.8 then p2 else Unblended(h.blends, p1, p2), rate, h.trials2, h.noise2)
  }

  /** Children of parents in range are in range, whatever is drawn. */
  lemma ChildInRange(pop: seq<Genes>, fitness: seq<real>, rate: real, h: Breeding, first: bool)
    requires |pop| == |fitness| && ValidBreeding(h, |pop|) && AllInRange(pop)
    ensures InRange(Child(pop, fitness, rate, h, first))
  {
    hide Mutated, Blended, Unblended, InRange, UnitDraws;
    var p1 := Fitter(pop, fitness, h.drawn[0], h.drawn[1]);
    var p2 := Fitter(pop, fitness, h.drawn[2], h.drawn[3]);
    if h.gate <= 0.8 {
      BlendedInRange(h.blends, p1, p2);
    }
    MutatedInRange(if h.gate > 0.8 then p1 else Blended(h.blends, p1, p2), rate, h.trials1, h.noise1);
    MutatedInRange(if h.gate > 0.8 then p2 else Unblended(h.blends, p1, p2), rate, h.trials2, h.noise2);
  }

  /** Two parents, two mutated children. */
  method Breed(rng: Rng, pop: seq<Genes>, fitness: seq<real>, decay: real)
    returns (c1: Genes, c2: Genes, ghost h: Breeding)
    requires |pop| == |fitness| > 0
    modifies rng
    ensures ValidBreeding(h, |pop|)
    ensures c1 == Child(pop, fitness, MutationRate(decay), h, true)
      && c2 == Child(pop, fitness, MutationRate(decay), h, false)
    ensures rng.log == old(rng.log) + BreedLog(h, MutationRate(decay))
  {
    hide Mutated, Blended, Unblended, MutationRate, TrialLog, IndexLog;
    var p1, p2, drawn := TournamentSelect(rng, pop, fitness);
    var b1, b2, gate, b := Crossover(rng, p1, p2);
    ghost var t1, n1, t2, n2;
    c1, t1, n1 := Mutate(rng, b1, decay);
    c2, t2, n2 := Mutate(rng, b2, decay);
    h := Breeding(drawn, gate, if gate > 0.8 then [] else b, t1, n1, t2, n2);
  }

  ghost predicate ValidPairs(hows: seq<Breeding>, size: nat) {
    forall k :: 0 <= k < |hows| ==> ValidBreeding(hows[k], size)
  }

  ghost function PairLogs(hows: seq<Breeding>, rate: real, size: nat): seq<real>
    requires ValidPairs(hows, size)
  {
    if hows == [] then []
    else PairLogs(hows[..|hows| - 1], rate, size) + BreedLog(hows[|hows| - 1], rate)
  }

  lemma PairLogsStep(hows: seq<Breeding>, rate: real, size: nat, h: Breeding)
    requires ValidPairs(hows, size) && ValidBreeding(h, size)
    ensures ValidPairs(hows + [h], size)
    ensures PairLogs(hows + [h], rate, size) == PairLogs(hows, rate, size) + BreedLog(h, rate)
  {
    hide ValidBreeding;
    assert (hows + [h])[..|hows|] == hows;
  }

  lemma NoPairs(rate: real, size: nat)
    ensures PairLogs([], rate, size) == []
  {
  }

  const PAIRS := 7  // of thirteen slots, the last pair fills one

  /** The next generation: two children of each pair, one of the last. */
  ghost function Bred(pop: seq<Genes>, fitness: seq<real>, rate: real, hows: seq<Breeding>): (next: seq<Genes>)
    requires |pop| == |fitness| == POP_SIZE && |hows| == PAIRS && ValidPairs(hows, POP_SIZE)
    ensures |next| == POP_SIZE
    ensures forall i :: 0 <= i < POP_SIZE ==> next[i] == Child(pop, fitness, rate, hows[i / 2], i % 2 == 0)
  {
    seq(POP_SIZE, i requires 0 <= i < POP_SIZE => Child(pop, fitness, rate, hows[i / 2], i % 2 == 0))
  }

  lemma BredInRange(pop: seq<Genes>, fitness: seq<real>, rate: real, hows: seq<Breeding>)
    requires |pop| == |fitness| == POP_SIZE && |hows| == PAIRS && ValidPairs(hows, POP_SIZE) && AllInRange(pop)
    ensures AllInRange(Bred(pop, fitness, rate, hows))
  {
    hide Child, ValidBreeding, InRange;
    var next := Bred(pop, fitness, rate, hows);
    forall i | 0 <= i < |next| ensures InRange(next[i]) {
      ChildInRange(pop, fitness, rate, hows[i / 2], i % 2 == 0);
    }
  }

  /** The next generation is filled in pairs; its size is odd, so the last pair has room for one child
      only, and every slot is overwritten. */
  method NextGeneration(rng: Rng, pop: seq<Genes>, fitness: seq<real>, decay: real)
    returns (newPop: seq<Genes>, ghost hows: seq<Breeding>)
    requires |pop| == |fitness| == POP_SIZE
    modifies rng
    ensures |hows| == PAIRS && ValidPairs(hows, POP_SIZE) && newPop == Bred(pop, fitness, MutationRate(decay), hows)
    ensures rng.log == old(rng.log) + PairLogs(hows, MutationRate(decay), POP_SIZE)
  {
    hide Child, ValidBreeding, MutationRate, PairLogs, BreedLog;
    newPop := seq(POP_SIZE, _ => ZERO_GENES);
    hows := [];
    NoPairs(MutationRate(decay), POP_SIZE);
    var i := 0;
    while i < POP_SIZE
      invariant 0 <= i <= POP_SIZE + 1 && i % 2 == 0 && |newPop| == POP_SIZE && |hows| == i / 2
      invariant ValidPairs(hows, POP_SIZE)
      invariant rng.log == old(rng.log) + PairLogs(hows, MutationRate(decay), POP_SIZE)
      invariant forall j :: 0 <= j < i && j < POP_SIZE ==>
        newPop[j] == Child(pop, fitness, MutationRate(decay), hows[j / 2], j % 2 == 0)
    {
      var c1, c2, h := Breed(rng, pop, fitness, decay);
      newPop := newPop[i := c1];
      if i + 1 < POP_SIZE {
        newPop := newPop[i + 1 := c2];
      }
      PairLogsStep(hows, MutationRate(decay), POP_SIZE, h);
      hows := hows + [h];
      i := i + 2;
    }
  }

  function RhoAfter(rho: real, variance: real): real {
    if variance > 0.5 then Min(0.4, rho + 0.05) else rho
  }

  ghost predicate ParamsOk(alpha: real, beta: real, rho: real) {
    0.5 <= alpha <= 2.5 && 1.0 <= beta <= 4.0 && 0.05 <= rho <= 0.30
  }

  function Decay(gen: nat): real { gen as real / GENERATIONS as real }

  ghost predicate ValidHistory(hist: seq<seq<Breeding>>) {
    forall g :: 0 <= g < |hist| ==> |hist[g]| == PAIRS && ValidPairs(hist[g], POP_SIZE)
  }

  /** The draws of the first generation, and those of all that follow. */
  ghost predicate IsHistory(seeds: seq<real>, hist: seq<seq<Breeding>>) {
    |seeds| == 3 * POP_SIZE && UnitDraws(seeds) && |hist| == GENERATIONS && ValidHistory(hist)
  }

  ghost function SameFitness(phi: real): (f: seq<real>)
    ensures |f| == POP_SIZE && forall i :: 0 <= i < |f| ==> f[i] == phi
  {
    seq(POP_SIZE, i => phi)
  }

  /** The population after these generations. All fitnesses of a generation being equal, any will do. */
  ghost function Evolved(pop: seq<Genes>, hist: seq<seq<Breeding>>): (last: seq<Genes>)
    requires |pop| == POP_SIZE && ValidHistory(hist)
    ensures |last| == POP_SIZE
  {
    if hist == [] then pop
    else
      var g := |hist| - 1;
      Bred(Evolved(pop, hist[..g]), SameFitness(0.0), MutationRate(Decay(g)), hist[g])
  }

  ghost function HistoryLog(hist: seq<seq<Breeding>>): seq<real>
    requires ValidHistory(hist)
  {
    if hist == [] then []
    else
      var g := |hist| - 1;
      HistoryLog(hist[..g]) + PairLogs(hist[g], MutationRate(Decay(g)), POP_SIZE)
  }

  lemma HistoryStep(pop: seq<Genes>, hist: seq<seq<Breeding>>, hows: seq<Breeding>)
    requires |pop| == POP_SIZE && ValidHistory(hist) && |hows| == PAIRS && ValidPairs(hows, POP_SIZE)
    ensures ValidHistory(hist + [hows])
    ensures var rate := MutationRate(Decay(|hist|));
      && Evolved(pop, hist + [hows]) == Bred(Evolved(pop, hist), SameFitness(0.0), rate, hows)
      && HistoryLog(hist + [hows]) == HistoryLog(hist) + PairLogs(hows, rate, POP_SIZE)
  {
    hide ValidPairs, PairLogs, MutationRate, Decay, Bred;
    assert (hist + [hows])[..|hist|] == hist;
  }

  lemma NoHistory(pop: seq<Genes>)
    requires |pop| == POP_SIZE
    ensures ValidHistory([]) && Evolved(pop, []) == pop && HistoryLog([]) == []
  {
  }

  /** Fitness ignores the individual, so a tournament is won by whoever was drawn first: the next generation
      does not depend on fitness at all. */
  lemma BlindSelection(pop: seq<Genes>, fitness: seq<real>, rate: real, h: Breeding, first: bool, phi: real)
    requires |pop| == |fitness| && ValidBreeding(h, |pop|)
    requires forall i :: 0 <= i < |fitness| ==> fitness[i] == phi
    ensures Fitter(pop, fitness, h.drawn[0], h.drawn[1]) == pop[h.drawn[0]]
    ensures Fitter(pop, fitness, h.drawn[2], h.drawn[3]) == pop[h.drawn[2]]
  {
  }

  /** Gene k of a child, in numbers. */
  lemma ChildGene(pop: seq<Genes>, phi: real, rate: real, h: Breeding, first: bool, k: nat)
    requires |pop| == POP_SIZE && ValidBreeding(h, POP_SIZE) && k < 3
    ensures var p, q := pop[h.drawn[if first then 0 else 2]][k], pop[h.drawn[if first then 2 else 0]][k];
      var base := if h.gate > 0.8 then p else Blend(h.blends[k], p, q);
      var trial, noise := if first then h.trials1[k] else h.trials2[k], if first then h.noise1[k] else h.noise2[k];
      var lo := if k == 0 then 0.5 else if k == 1 then 1.0 else 0.05;
      var hi := if k == 0 then 2.5 else if k == 1 then 4.0 else 0.25;
      Child(pop, SameFitness(phi), rate, h, first)[k] ==
        if trial < rate then Clamp(lo, hi, base + noise * 0.1) else base
  {
    hide Blend;
    BlindSelection(pop, SameFitness(phi), rate, h, first, phi);
    assert k == 0 || k == 1 || k == 2;
  }

  lemma BredAlike(pop: seq<Genes>, fitness: seq<real>, rate: real, hows: seq<Breeding>, phi: real)
    requires |pop| == |fitness| == POP_SIZE && |hows| == PAIRS && ValidPairs(hows, POP_SIZE)
    requires forall i :: 0 <= i < |fitness| ==> fitness[i] == phi
    ensures Bred(pop, fitness, rate, hows) == Bred(pop, SameFitness(0.0), rate, hows)
  {
    hide Mutated, Blended, Unblended, Fitter;
    forall i | 0 <= i < POP_SIZE
      ensures Child(pop, fitness, rate, hows[i / 2], i % 2 == 0) ==
              Child(pop, SameFitness(0.0), rate, hows[i / 2], i % 2 == 0)
    {
      BlindSelection(pop, fitness, rate, hows[i / 2], i % 2 == 0, phi);
      BlindSelection(pop, SameFitness(0.0), rate, hows[i / 2], i % 2 == 0, 0.0);
    }
  }

  lemma FitnessSame(pop: seq<Genes>, fitness: seq<real>, avgScore: real, variance: real, bias: real)
    requires |fitness| == |pop|
    requires forall i :: 0 <= i < |pop| ==> fitness[i] == Fitness(pop[i], avgScore, variance, bias)
    ensures forall i :: 0 <= i < |pop| ==> fitness[i] == Fitness(ZERO_GENES, avgScore, variance, bias)
  {
  }

  /** `UpdateParams`: eighteen generations keep every individual in range, so the parameters taken
      from the last one are too. All fitnesses being equal, it is always the first individual, and each
      parent is the first drawn: the outcome is a function of the draws alone. */
  method UpdateParams(rng: Rng, avgScore: real, variance: real, bias: real)
    returns (alpha: real, beta: real, rho: real, ghost seeds: seq<real>, ghost hist: seq<seq<Breeding>>)
    modifies rng
    ensures ParamsOk(alpha, beta, rho)
    ensures IsHistory(seeds, hist) && rng.log == old(rng.log) + seeds + HistoryLog(hist)
    ensures |seeds| == 39 && |hist| == 18
    ensures var best := Evolved(Seeded(seeds), hist)[0];
      alpha == best[0] && beta == best[1] && rho == if variance > 0.5 then Min(0.4, best[2] + 0.05) else best[2]
  {
    hide Fitness, InRange, ValidHistory, Evolved, HistoryLog, Bred, PairLogs, MutationRate, ValidPairs, Seeded,
      AllInRange, UnitDraws;
    var pop;
    pop, seeds := FirstGeneration(rng);
    hist := [];
    NoHistory(pop);
    for gen := 0 to GENERATIONS
      invariant |pop| == POP_SIZE && AllInRange(pop) && |hist| == gen && ValidHistory(hist)
      invariant pop == Evolved(Seeded(seeds), hist) && rng.log == old(rng.log) + seeds + HistoryLog(hist)
    {
      var fitness := Evaluate(pop, avgScore, variance, bias);
      var decay := gen as real / GENERATIONS as real;
      var newPop, hows := NextGeneration(rng, pop, fitness, decay);
      BredInRange(pop, fitness, MutationRate(decay), hows);
      FitnessSame(pop, fitness, avgScore, variance, bias);
      BredAlike(pop, fitness, MutationRate(decay), hows, Fitness(ZERO_GENES, avgScore, variance, bias));
      HistoryStep(Seeded(seeds), hist, hows);
      pop, hist := newPop, hist + [hows];
    }
    var fitness := Evaluate(pop, avgScore, variance, bias);
    var bestIdx := Argmax(fitness);
    FirstIsBest(pop, fitness, avgScore, variance, bias, bestIdx);
    alpha, beta, rho := pop[bestIdx][0], pop[bestIdx][1], pop[bestIdx][2];
    if variance > 0.5 {
      rho := Min(0.4, rho + 0.05);
    }
    TakenParamsOk(pop, variance);
  }

  lemma TakenParamsOk(pop: seq<Genes>, variance: real)
    requires pop != [] && AllInRange(pop)
    ensures ParamsOk(pop[0][0], pop[0][1], RhoAfter(pop[0][2], variance))
  {
    assert InRange(pop[0]);
    var g := pop[0];
    assert Lowest(0) <= g[0] <= Highest(0) && Lowest(1) <= g[1] <= Highest(1) && Lowest(2) <= g[2] <= Highest(2);
  }

  /** Fitness does not depend on the individual, so the search never prefers one to another. */
  lemma FirstIsBest(pop: seq<Genes>, fitness: seq<real>, avgScore: real, variance: real, bias: real, best: int)
    requires |fitness| == |pop| && IsFirstMax(fitness, best)
    requires forall i :: 0 <= i < |pop| ==> fitness[i] == Fitness(pop[i], avgScore, variance, bias)
    ensures best == 0
  {
    assert fitness[best] == Fitness(pop[best], avgScore, variance, bias) == Fitness(pop[0], avgScore, variance, bias);
    assert fitness[0] == Fitness(pop[0], avgScore, variance, bias);
  }
}
