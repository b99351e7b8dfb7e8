/** Particle swarms of the scheduler (edge-server/scheduler.go): the prior of `psoPrior`. */
module Swarm {
  import opened RealSeqs
  import opened Randomness
  import opened Genetic
  import opened Shared

  // ---- psoPrior ----

  const INERTIA := 0.5
  const PULL := 2.0  // both c1 and c2

  /** `int(math.Max(5, math.Min(10, n/5)))`: a fifth of the candidates, from 5 to 10. */
  function SwarmSize(n: nat): (k: nat)
    ensures k == if n < 25 then 5 else if n < 50 then n / 5 else 10
  {
    FifthFloor(n);
    Max(5.0, Min(10.0, n as real / 5.0)).Floor
  }

  /** `int(math.Max(4, math.Min(10, n/10)))`: a tenth of the candidates, from 4 to 10. */
  function Iterations(n: nat): (k: nat)
    ensures k == if n < 40 then 4 else if n < 100 then n / 10 else 10
  {
    TenthFloor(n);
    Max(4.0, Min(10.0, n as real / 10.0)).Floor
  }

  lemma FifthFloor(n: nat)
    ensures (n as real / 5.0).Floor == n / 5
  {
    assert n == n / 5 * 5 + n % 5;
  }

  lemma TenthFloor(n: nat)
    ensures (n as real / 10.0).Floor == n / 10
  {
    assert n == n / 10 * 10 + n % 10;
  }

  /** `int(math.Floor(x*float64(n-1))) % n` for a particle that is not negative: the candidate at x times the
      last index, counted from the first again beyond the last. */
  function ParticleIndex(x: real, n: nat): (k: nat)
    requires x >= 0.0 && n > 0
    ensures k < n
    ensures var y := x * (n - 1) as real;
      x <= 2.0 ==>
        if y < n as real then k as real <= y < k as real + 1.0 else k as real <= y - n as real < k as real + 1.0
  {
    ProductNonNegative(x, (n - 1) as real);
    AtMostTwice(x, n);
    FloorWraps(x * (n - 1) as real, n);
    (x * (n - 1) as real).Floor % n
  }

  lemma AtMostTwice(x: real, n: nat)
    requires n > 0
    ensures x <= 2.0 ==> x * (n - 1) as real < 2.0 * n as real
  {
    if x <= 2.0 {
      ProductNonNegative(2.0 - x, (n - 1) as real);
      assert (2.0 - x) * (n - 1) as real == 2.0 * (n - 1) as real - x * (n - 1) as real;
    }
  }

  lemma FloorWraps(y: real, n: nat)
    requires n > 0 && y >= 0.0
    ensures var k := y.Floor % n;
      y < 2.0 * n as real ==>
        if y < n as real then k as real <= y < k as real + 1.0 else k as real <= y - n as real < k as real + 1.0
  {
    if n as real <= y < 2.0 * n as real {
      assert y.Floor == n + (y.Floor - n) && 0 <= y.Floor - n < n;
    }
  }

  // ---- flying ----

  /** The swarm between two flights: positions, velocities, personal bests, and the best of all. */
  datatype Flock = Flock(particles: seq<real>, velocities: seq<real>, pBest: seq<real>, gBest: real)

  ghost predicate FlockOk(f: Flock, size: nat) {
    |f.particles| == |f.velocities| == |f.pBest| == size && AllIn(f.particles, 0.0, 2.0)
  }

  /** The swarm hatched from these draws, two per particle. */
  ghost function Hatched(hatch: seq<real>, size: nat): Flock
    requires |hatch| == 2 * size
  {
    Flock(seq(size, i requires 0 <= i < size => hatch[2 * i] * 2.0),
          seq(size, i requires 0 <= i < size => hatch[2 * i + 1] * 0.5 - 0.25),
          seq(size, i => -MAX_FLOAT64), -MAX_FLOAT64)
  }

  /** The scores at the particles' indices. */
  ghost function Seen(scores: seq<real>, particles: seq<real>): (s: seq<real>)
    requires scores != [] && AllIn(particles, 0.0, 2.0)
    ensures |s| == |particles|
    ensures forall i :: 0 <= i < |s| ==> s[i] == scores[ParticleIndex(particles[i], |scores|)]
  {
    seq(|particles|, i requires 0 <= i < |particles| => scores[ParticleIndex(particles[i], |scores|)])
  }

  /** The larger of g and the largest of these. */
  ghost function Top(g: real, s: seq<real>): (t: real)
    ensures t >= g && forall i :: 0 <= i < |s| ==> t >= s[i]
    ensures t == g || t in s
  {
    if s == [] then g
    else
      var t := Top(g, s[..|s| - 1]);
      assert forall i :: 0 <= i < |s| - 1 ==> s[i] == s[..|s| - 1][i];
      Max(t, s[|s| - 1])
  }

  function Velocity(v: real, x: real, p: real, g: real, r1: real, r2: real): real {
    INERTIA * v + PULL * r1 * (p - x) + PULL * r2 * (g - x)
  }

  /** One iteration: the bests take in the current positions, then every particle moves, drawing two numbers,
      and is kept inside [0, 2]. */
  ghost function Flown(scores: seq<real>, f: Flock, draws: seq<real>): (g: Flock)
    requires scores != [] && FlockOk(f, |f.particles|) && |draws| == 2 * |f.particles|
    ensures FlockOk(g, |f.particles|)
  {
    var n, seen := |f.particles|, Seen(scores, f.particles);
    var p, top := seq(n, i requires 0 <= i < n => Max(f.pBest[i], seen[i])), Top(f.gBest, seen);
    var v := seq(n, i requires 0 <= i < n =>
      Velocity(f.velocities[i], f.particles[i], p[i], top, draws[2 * i], draws[2 * i + 1]));
    Flock(seq(n, i requires 0 <= i < n => Clamp(0.0, 2.0, f.particles[i] + v[i])), v, p, top)
  }

  ghost predicate FlightsOk(flights: seq<seq<real>>, size: nat) {
    forall t :: 0 <= t < |flights| ==> |flights[t]| == 2 * size && UnitDraws(flights[t])
  }

  lemma HatchedOk(hatch: seq<real>, size: nat)
    requires |hatch| == 2 * size && UnitDraws(hatch)
    ensures FlockOk(Hatched(hatch, size), size)
  {
  }

  /** The swarm after all of these flights. */
  ghost function FlockAfter(scores: seq<real>, hatch: seq<real>, size: nat, flights: seq<seq<real>>): (f: Flock)
    requires scores != [] && |hatch| == 2 * size && UnitDraws(hatch) && FlightsOk(flights, size)
    ensures FlockOk(f, size)
  {
    HatchedOk(hatch, size);
    var n := |flights| - 1;
    if flights == [] then Hatched(hatch, size)
    else Flown(scores, FlockAfter(scores, hatch, size, flights[..n]), flights[n])
  }

  lemma FlockStep(scores: seq<real>, hatch: seq<real>, size: nat, flights: seq<seq<real>>, draws: seq<real>)
    requires scores != [] && |hatch| == 2 * size && UnitDraws(hatch) && FlightsOk(flights, size)
    requires |draws| == 2 * size && UnitDraws(draws)
    ensures FlightsOk(flights + [draws], size)
    ensures FlockAfter(scores, hatch, size, flights + [draws]) ==
            Flown(scores, FlockAfter(scores, hatch, size, flights), draws)
  {
    assert (flights + [draws])[..|flights|] == flights;
  }

  // The whole trajectory, particle by particle: where particle i hatches, and what flight t does to it.

  lemma ParticleHatches(scores: seq<real>, hatch: seq<real>, size: nat, i: nat)
    requires scores != [] && |hatch| == 2 * size && UnitDraws(hatch) && i < size
    ensures var f := FlockAfter(scores, hatch, size, []);
      && f.particles[i] == hatch[2 * i] * 2.0 && f.velocities[i] == hatch[2 * i + 1] * 0.5 - 0.25
      && f.pBest[i] == f.gBest == -MAX_FLOAT64
  {
  }

  /** Flight t first shows particle i the score at its index, and the whole swarm the best of all these. */
  lemma ParticleSees(scores: seq<real>, hatch: seq<real>, size: nat, flights: seq<seq<real>>, i: nat, t: nat)
    requires scores != [] && |hatch| == 2 * size && UnitDraws(hatch) && FlightsOk(flights, size)
    requires i < size && t < |flights|
    ensures var f := FlockAfter(scores, hatch, size, flights[..t]);
      var g := FlockAfter(scores, hatch, size, flights[..t + 1]);
      var seen := scores[ParticleIndex(f.particles[i], |scores|)];
      && g.pBest[i] == (if seen > f.pBest[i] then seen else f.pBest[i])
      && g.gBest >= f.gBest && g.gBest >= seen
      && (g.gBest == f.gBest || exists z :: z in f.particles && g.gBest == scores[ParticleIndex(z, |scores|)])
  {
    hide Flown, FlockAfter, Velocity, UnitDraws, ParticleIndex;
    AsFlown(scores, hatch, size, flights, t);
    FlownParticle(scores, FlockAfter(scores, hatch, size, flights[..t]), flights[t], i);
  }

  /** It then takes its new velocity and moves by it, within [0, 2]. */
  lemma ParticleMoves(scores: seq<real>, hatch: seq<real>, size: nat, flights: seq<seq<real>>, i: nat, t: nat)
    requires scores != [] && |hatch| == 2 * size && UnitDraws(hatch) && FlightsOk(flights, size)
    requires i < size && t < |flights|
    ensures var f := FlockAfter(scores, hatch, size, flights[..t]);
      var g := FlockAfter(scores, hatch, size, flights[..t + 1]);
      var x, r1, r2 := f.particles[i], flights[t][2 * i], flights[t][2 * i + 1];
      && g.velocities[i] == 0.5 * f.velocities[i] + 2.0 * r1 * (g.pBest[i] - x) + 2.0 * r2 * (g.gBest - x)
      && var y := x + g.velocities[i];
        g.particles[i] == if y < 0.0 then 0.0 else if y > 2.0 then 2.0 else y
  {
    hide Flown, FlockAfter, ParticleIndex, UnitDraws;
    AsFlown(scores, hatch, size, flights, t);
    FlownParticle(scores, FlockAfter(scores, hatch, size, flights[..t]), flights[t], i);
  }

  lemma AsFlown(scores: seq<real>, hatch: seq<real>, size: nat, flights: seq<seq<real>>, t: nat)
    requires scores != [] && |hatch| == 2 * size && UnitDraws(hatch) && FlightsOk(flights, size) && t < |flights|
    ensures var f := FlockAfter(scores, hatch, size, flights[..t]);
      FlockAfter(scores, hatch, size, flights[..t + 1]) == Flown(scores, f, flights[t])
  {
    hide Flown, UnitDraws, FlockAfter;
    assert flights[..t + 1] == flights[..t] + [flights[t]];
    FlockStep(scores, hatch, size, flights[..t], flights[t]);
  }

  lemma FlownParticle(scores: seq<real>, f: Flock, draws: seq<real>, i: nat)
    requires scores != [] && FlockOk(f, |f.particles|) && |draws| == 2 * |f.particles| && i < |f.particles|
    ensures var g := Flown(scores, f, draws);
      var x, seen := f.particles[i], scores[ParticleIndex(f.particles[i], |scores|)];
      && g.pBest[i] == (if seen > f.pBest[i] then seen else f.pBest[i])
      && g.gBest >= f.gBest && g.gBest >= seen
      && (g.gBest == f.gBest || exists z :: z in f.particles && g.gBest == scores[ParticleIndex(z, |scores|)])
      && g.velocities[i] == Velocity(f.velocities[i], x, g.pBest[i], g.gBest, draws[2 * i], draws[2 * i + 1])
      && g.particles[i] == Clamp(0.0, 2.0, x + g.velocities[i])
  {
    hide Velocity, ParticleIndex;
    var seen, g := Seen(scores, f.particles), Flown(scores, f, draws);
    if g.gBest != f.gBest {
      var k :| 0 <= k < |seen| && seen[k] == g.gBest;
      assert f.particles[k] in f.particles;
    }
  }

  lemma NotNegative(s: seq<real>, i: nat)
    requires AllIn(s, 0.0, 2.0) && i < |s|
    ensures s[i] >= 0.0
  {
  }

  /** First half of an iteration: personal bests and the global best take in the current positions. */
  method LookAround(scores: seq<real>, particles: seq<real>, pBest: seq<real>, gBest: real)
    returns (pBest': seq<real>, gBest': real)
    requires scores != [] && |particles| == |pBest| && AllIn(particles, 0.0, 2.0)
    ensures |pBest'| == |pBest|
    ensures forall i :: 0 <= i < |particles| ==>
      pBest'[i] == Max(pBest[i], scores[ParticleIndex(particles[i], |scores|)])
    ensures gBest' == Top(gBest, Seen(scores, particles))
  {
    hide ParticleIndex, AllIn, Top;
    ghost var seen := Seen(scores, particles);
    pBest', gBest' := pBest, gBest;
    TopOfNone(gBest, seen);
    for i := 0 to |particles|
      invariant |pBest'| == |pBest| && gBest' == Top(gBest, seen[..i])
      invariant forall j :: 0 <= j < i ==> pBest'[j] == Max(pBest[j], seen[j])
      invariant forall j :: i <= j < |pBest| ==> pBest'[j] == pBest[j]
    {
      NotNegative(particles, i);
      var index := ParticleIndex(particles[i], |scores|);
      var fit := scores[index];
      if fit > pBest'[i] {
        pBest' := pBest'[i := fit];
      }
      TopStep(gBest, seen, i);
      if fit > gBest' {
        gBest' := fit;
      }
    }
    assert seen[..|particles|] == seen;
  }

  lemma TopOfNone(g: real, s: seq<real>)
    ensures Top(g, s[..0]) == g
  {
  }

  lemma TopStep(g: real, s: seq<real>, i: nat)
    requires i < |s|
    ensures Top(g, s[..i + 1]) == Max(Top(g, s[..i]), s[i])
  {
    assert s[..i + 1][..i] == s[..i];
  }

  /** Second half of an iteration: every particle moves and is kept inside [0, 2]. */
  method Fly(rng: Rng, particles: seq<real>, velocities: seq<real>, pBest: seq<real>, gBest: real)
    returns (particles': seq<real>, velocities': seq<real>, ghost draws: seq<real>)
    requires |particles| == |velocities| == |pBest|
    modifies rng
    ensures |particles'| == |velocities'| == |particles| && |draws| == 2 * |particles| && UnitDraws(draws)
    ensures rng.log == old(rng.log) + draws && AllIn(particles', 0.0, 2.0)
    ensures forall i :: 0 <= i < |particles| ==>
      && velocities'[i] == Velocity(velocities[i], particles[i], pBest[i], gBest, draws[2 * i], draws[2 * i + 1])
      && particles'[i] == Clamp(0.0, 2.0, particles[i] + velocities'[i])
  {
    hide Velocity;
    particles', velocities', draws := [], [], [];
    for i := 0 to |particles|
      invariant |particles'| == |velocities'| == i && |draws| == 2 * i && UnitDraws(draws)
      invariant rng.log == old(rng.log) + draws && AllIn(particles', 0.0, 2.0)
      invariant forall j :: 0 <= j < i ==>
        && velocities'[j] == Velocity(velocities[j], particles[j], pBest[j], gBest, draws[2 * j], draws[2 * j + 1])
        && particles'[j] == Clamp(0.0, 2.0, particles[j] + velocities'[j])
    {
      var r1 := rng.Float64();
      var r2 := rng.Float64();
      var v := Velocity(velocities[i], particles[i], pBest[i], gBest, r1, r2);
      var x := particles[i] + v;
      if x < 0.0 {
        x := 0.0;
      } else if x > 2.0 {
        x := 2.0;
      }
      particles', velocities', draws := particles' + [x], velocities' + [v], draws + [r1, r2];
    }
  }

  lemma FlownIs(scores: seq<real>, f: Flock, draws: seq<real>, g: Flock)
    requires scores != [] && FlockOk(f, |f.particles|) && |draws| == 2 * |f.particles|
    requires |g.particles| == |g.velocities| == |g.pBest| == |f.particles|
    requires g.gBest == Top(f.gBest, Seen(scores, f.particles))
    requires forall i :: 0 <= i < |f.particles| ==>
      && g.pBest[i] == Max(f.pBest[i], scores[ParticleIndex(f.particles[i], |scores|)])
      && g.velocities[i] ==
         Velocity(f.velocities[i], f.particles[i], g.pBest[i], g.gBest, draws[2 * i], draws[2 * i + 1])
      && g.particles[i] == Clamp(0.0, 2.0, f.particles[i] + g.velocities[i])
    ensures g == Flown(scores, f, draws)
  {
    hide Velocity, ParticleIndex, Top;
    var h := Flown(scores, f, draws);
    assert g.pBest == h.pBest;
    assert g.velocities == h.velocities;
    assert g.particles == h.particles;
  }

  method Hatch(rng: Rng, numP: nat)
    returns (particles: seq<real>, velocities: seq<real>, pBest: seq<real>, ghost hatch: seq<real>)
    modifies rng
    ensures |hatch| == 2 * numP && UnitDraws(hatch) && rng.log == old(rng.log) + hatch
    ensures Flock(particles, velocities, pBest, -MAX_FLOAT64) == Hatched(hatch, numP)
  {
    particles, velocities, pBest, hatch := [], [], [], [];
    for i := 0 to numP
      invariant |particles| == |velocities| == |pBest| == i && |hatch| == 2 * i && UnitDraws(hatch)
      invariant rng.log == old(rng.log) + hatch
      invariant forall j :: 0 <= j < i ==>
        && particles[j] == hatch[2 * j] * 2.0 && velocities[j] == hatch[2 * j + 1] * 0.5 - 0.25
        && pBest[j] == -MAX_FLOAT64
    {
      var a := rng.Float64();
      var b := rng.Float64();
      particles, velocities, pBest := particles + [a * 2.0], velocities + [b * 0.5 - 0.25], pBest + [-MAX_FLOAT64];
      hatch := hatch + [a, b];
    }
  }

  /** Hatching and all the flights. */
  method Swarming(rng: Rng, scores: seq<real>)
    returns (particles: seq<real>, ghost hatch: seq<real>, ghost flights: seq<seq<real>>)
    requires scores != []
    modifies rng
    ensures var size := SwarmSize(|scores|);
      && |hatch| == 2 * size && UnitDraws(hatch) && FlightsOk(flights, size) && |flights| == Iterations(|scores|)
      && particles == FlockAfter(scores, hatch, size, flights).particles
    ensures rng.log == old(rng.log) + hatch + Flat(flights)
  {
    hide ParticleIndex, Velocity, Flown, FlockAfter, Hatched, Top, UnitDraws, Flat;
    var n := |scores|;
    var numP := SwarmSize(n);
    var velocities, pBest;
    particles, velocities, pBest, hatch := Hatch(rng, numP);
    var gBest := -MAX_FLOAT64;
    flights := [];
    NoFlights(scores, hatch, numP);
    for iter := 0 to Iterations(n)
      invariant |flights| == iter && FlightsOk(flights, numP) && rng.log == old(rng.log) + hatch + Flat(flights)
      invariant Flock(particles, velocities, pBest, gBest) == FlockAfter(scores, hatch, numP, flights)
    {
      ghost var f := Flock(particles, velocities, pBest, gBest);
      pBest, gBest := LookAround(scores, particles, pBest, gBest);
      ghost var draws;
      particles, velocities, draws := Fly(rng, particles, velocities, pBest, gBest);
      FlownIs(scores, f, draws, Flock(particles, velocities, pBest, gBest));
      FlockStep(scores, hatch, numP, flights, draws);
      FlatStep(flights, draws);
      flights := flights + [draws];
    }
  }

  lemma NoFlights(scores: seq<real>, hatch: seq<real>, size: nat)
    requires scores != [] && |hatch| == 2 * size && UnitDraws(hatch)
    ensures FlockAfter(scores, hatch, size, []) == Hatched(hatch, size) && Flat([]) == []
  {
  }

  // ---- crossing ----

  /** What is drawn while one pair goes through `crossover` and `mutate`. */
  datatype Cross = Cross(gate: real, blends: seq<real>, trials1: seq<real>, noise1: seq<real>, trials2: seq<real>,
      noise2: seq<real>)

  ghost predicate ValidCross(h: Cross) {
    && 0.0 <= h.gate < 1.0
    && |h.blends| == (if h.gate > 0.8 then 0 else 3) && UnitDraws(h.blends)
    && |h.trials1| == |h.noise1| == |h.trials2| == |h.noise2| == 3
  }

  ghost function CrossLog(h: Cross): seq<real>
    requires ValidCross(h)
  {
    [h.gate] + h.blends + TrialLog(h.trials1, h.noise1, MutationRate(0.5))
      + TrialLog(h.trials2, h.noise2, MutationRate(0.5))
  }

  ghost predicate ValidCrosses(how: seq<Cross>) { forall k :: 0 <= k < |how| ==> ValidCross(how[k]) }

  ghost function CrossLogs(how: seq<Cross>): seq<real>
    requires ValidCrosses(how)
  {
    if how == [] then [] else CrossLogs(how[..|how| - 1]) + CrossLog(how[|how| - 1])
  }

  lemma CrossLogsStep(how: seq<Cross>, h: Cross)
    requires ValidCrosses(how) && ValidCross(h)
    ensures ValidCrosses(how + [h]) && CrossLogs(how + [h]) == CrossLogs(how) + CrossLog(h)
  {
    assert (how + [h])[..|how|] == how;
  }

  ghost function LeftChild(h: Cross, x: real, y: real): real
    requires ValidCross(h)
  {
    MutatedGene(0, if h.gate > 0.8 then x else Blend(h.blends[0], x, y), MutationRate(0.5), h.trials1[0], h.noise1[0])
  }

  ghost function RightChild(h: Cross, x: real, y: real): real
    requires ValidCross(h)
  {
    MutatedGene(0, if h.gate > 0.8 then y else Blend(h.blends[0], y, x), MutationRate(0.5), h.trials2[0], h.noise2[0])
  }

  /** Two particles of [0, 2] have children in [0, 2.5]. */
  lemma ChildrenRange(h: Cross, x: real, y: real)
    requires ValidCross(h) && 0.0 <= x <= 2.0 && 0.0 <= y <= 2.0
    ensures 0.0 <= LeftChild(h, x, y) <= 2.5 && 0.0 <= RightChild(h, x, y) <= 2.5
  {
    hide Blend, MutationRate;
    if h.gate <= 0.8 {
      BlendBetween(h.blends[0], x, y);
      BlendBetween(h.blends[0], y, x);
    }
  }

  /** With a gate above 0.8 the two stay as they are, otherwise they are blended, each its own way; a trial below
      0.05 then moves a child by a tenth of its noise, within [0.5, 2.5]. */
  lemma ChildrenAre(h: Cross, x: real, y: real)
    requires ValidCross(h)
    ensures var left := if h.gate > 0.8 then x else h.blends[0] * x + (1.0 - h.blends[0]) * y;
      && (h.trials1[0] >= 0.05 ==> LeftChild(h, x, y) == left)
      && (h.trials1[0] < 0.05 ==> LeftChild(h, x, y) == Clamp(0.5, 2.5, left + h.noise1[0] * 0.1))
    ensures var right := if h.gate > 0.8 then y else h.blends[0] * y + (1.0 - h.blends[0]) * x;
      && (h.trials2[0] >= 0.05 ==> RightChild(h, x, y) == right)
      && (h.trials2[0] < 0.05 ==> RightChild(h, x, y) == Clamp(0.5, 2.5, right + h.noise2[0] * 0.1))
  {
  }

  method CrossPair(rng: Rng, x: real, y: real) returns (x': real, y': real, ghost h: Cross)
    modifies rng
    ensures ValidCross(h) && x' == LeftChild(h, x, y) && y' == RightChild(h, x, y)
    ensures rng.log == old(rng.log) + CrossLog(h)
  {
    hide Blend, MutationRate, MutatedGene, TrialLog;
    var c1, c2, gate, b := Crossover(rng, [x, 0.0, 0.0], [y, 0.0, 0.0]);
    ghost var t1, n1, t2, n2;
    c1, t1, n1 := Mutate(rng, c1, 0.5);
    c2, t2, n2 := Mutate(rng, c2, 0.5);
    x', y' := c1[0], c2[0];
    h := Cross(gate, if gate > 0.8 then [] else b, t1, n1, t2, n2);
  }

  /** Where particle i ends up: crossed with its neighbour, or left alone as the odd one out. */
  ghost function Crossed(particles: seq<real>, how: seq<Cross>, i: nat): real
    requires i < |particles| && ValidCrosses(how) && (i % 2 == 1 || i + 1 < |particles| ==> i / 2 < |how|)
  {
    if i % 2 == 1 then RightChild(how[i / 2], particles[i - 1], particles[i])
    else if i + 1 < |particles| then LeftChild(how[i / 2], particles[i], particles[i + 1])
    else particles[i]
  }

  method CrossAll(rng: Rng, particles: seq<real>) returns (crossed: seq<real>, ghost how: seq<Cross>)
    modifies rng
    ensures |crossed| == |particles| && |how| == |particles| / 2 && ValidCrosses(how)
    ensures forall i :: 0 <= i < |particles| ==> crossed[i] == Crossed(particles, how, i)
    ensures rng.log == old(rng.log) + CrossLogs(how)
  {
    hide LeftChild, RightChild, CrossLog, ValidCross;
    crossed, how := particles, [];
    var i := 0;
    while i < |particles|
      invariant 0 <= i <= |particles| + 1 && i % 2 == 0 && |crossed| == |particles|
      invariant |how| == (if i <= |particles| then i / 2 else |particles| / 2)
      invariant ValidCrosses(how) && rng.log == old(rng.log) + CrossLogs(how)
      invariant forall j :: 0 <= j < i && j < |particles| ==> crossed[j] == Crossed(particles, how, j)
      invariant forall j :: i <= j < |particles| ==> crossed[j] == particles[j]
    {
      if i + 1 < |particles| {
        var x, y, h := CrossPair(rng, crossed[i], crossed[i + 1]);
        CrossLogsStep(how, h);
        forall j | 0 <= j < i ensures Crossed(particles, how + [h], j) == Crossed(particles, how, j) {
          assert (how + [h])[j / 2] == how[j / 2];
        }
        crossed := crossed[i := x][i + 1 := y];
        how := how + [h];
        assert Crossed(particles, how, i) == x && Crossed(particles, how, i + 1) == y;
      }
      i := i + 2;
    }
  }

  /** Neighbours are crossed with each other, and an odd particle at the end with none. */
  lemma CrossedAre(particles: seq<real>, how: seq<Cross>, k: nat)
    requires k < |how| == |particles| / 2 && ValidCrosses(how)
    ensures Crossed(particles, how, 2 * k) == LeftChild(how[k], particles[2 * k], particles[2 * k + 1])
    ensures Crossed(particles, how, 2 * k + 1) == RightChild(how[k], particles[2 * k], particles[2 * k + 1])
    ensures |particles| % 2 == 1 ==> Crossed(particles, how, |particles| - 1) == particles[|particles| - 1]
  {
    hide LeftChild, RightChild;
  }

  lemma CrossedRange(particles: seq<real>, how: seq<Cross>, i: nat)
    requires i < |particles| && |how| == |particles| / 2 && AllIn(particles, 0.0, 2.0) && ValidCrosses(how)
    ensures 0.0 <= Crossed(particles, how, i) <= 2.5
  {
    hide LeftChild, RightChild;
    if i % 2 == 1 {
      ChildrenRange(how[i / 2], particles[i - 1], particles[i]);
    } else if i + 1 < |particles| {
      ChildrenRange(how[i / 2], particles[i], particles[i + 1]);
    }
  }

  // ---- boosts ----

  const BOOST_GATE := 0.18

  /** The boost a particle gives: mutated when its gate is below 0.18. */
  function BoostOf(x: real, gate: real, share: real): real {
    if gate < BOOST_GATE then x * 0.52 * (0.68 + share * 0.64) else x * 0.52
  }

  /** A particle of [0, 2.5] gives a boost between 0 and 1.716; of 0 only if the particle is at 0. */
  lemma BoostRange(x: real, gate: real, share: real)
    requires 0.0 <= x <= 2.5 && 0.0 <= share < 1.0
    ensures 0.0 <= BoostOf(x, gate, share) <= 1.716
    ensures BoostOf(x, gate, share) == 0.0 <==> x == 0.0
    ensures 0.68 * (x * 0.52) <= BoostOf(x, gate, share) <= 1.32 * (x * 0.52)
  {
    var y, g := x * 0.52, 0.68 + share * 0.64;
    ProductNonNegative(y, g - 0.68);
    ProductNonNegative(y, 1.32 - g);
    assert y * (g - 0.68) == y * g - y * 0.68;
    assert y * (1.32 - g) == y * 1.32 - y * g;
  }

  method Boosts(rng: Rng, particles: seq<real>, n: nat)
    returns (boost: seq<real>, ghost gates: seq<real>, ghost shares: seq<real>)
    requires particles != []
    modifies rng
    ensures |boost| == |gates| == |shares| == n && UnitDraws(gates) && UnitDraws(shares)
    ensures forall i :: 0 <= i < n ==> boost[i] == BoostOf(particles[i % |particles|], gates[i], shares[i])
    ensures rng.log == old(rng.log) + TrialLog(gates, shares, BOOST_GATE)
  {
    hide TrialLog;
    boost, gates, shares := [], [], [];
    NoTrials(BOOST_GATE);
    for i := 0 to n
      invariant |boost| == |gates| == |shares| == i && UnitDraws(gates) && UnitDraws(shares)
      invariant rng.log == old(rng.log) + TrialLog(gates, shares, BOOST_GATE)
      invariant forall j :: 0 <= j < i ==> boost[j] == BoostOf(particles[j % |particles|], gates[j], shares[j])
    {
      var b := particles[i % |particles|] * 0.52;
      var gate := rng.Float64();
      ghost var share := 0.0;
      if gate < 0.18 {
        var f := rng.Float64();
        b := b * (0.68 + f * 0.64);
        share := f;
      }
      TrialLogStep(gates, shares, BOOST_GATE, gate, share);
      boost, gates, shares := boost + [b], gates + [gate], shares + [share];
    }
  }

  // ---- psoPrior ----

  /** Everything drawn in one call, part by part. */
  datatype Draws = Draws(hatch: seq<real>, flights: seq<seq<real>>, how: seq<Cross>, gates: seq<real>,
      shares: seq<real>)

  ghost predicate DrawsOk(n: nat, d: Draws) {
    var size := SwarmSize(n);
    && |d.hatch| == 2 * size && UnitDraws(d.hatch)
    && |d.flights| == Iterations(n) && FlightsOk(d.flights, size)
    && |d.how| == size / 2 && ValidCrosses(d.how)
    && |d.gates| == |d.shares| == n && UnitDraws(d.gates) && UnitDraws(d.shares)
  }

  /** The same, one after the other. */
  ghost function DrawLog(n: nat, d: Draws): seq<real>
    requires DrawsOk(n, d)
  {
    d.hatch + Flat(d.flights) + CrossLogs(d.how) + TrialLog(d.gates, d.shares, BOOST_GATE)
  }

  /** The particles after the last flight. */
  ghost function Landed(scores: seq<real>, d: Draws): (p: seq<real>)
    requires scores != [] && DrawsOk(|scores|, d)
    ensures |p| == SwarmSize(|scores|) && AllIn(p, 0.0, 2.0)
  {
    FlockAfter(scores, d.hatch, SwarmSize(|scores|), d.flights).particles
  }

  /** What `psoPrior` returns for these scores and draws. */
  ghost function Prior(scores: seq<real>, d: Draws): (boost: seq<real>)
    requires scores != [] && DrawsOk(|scores|, d)
    ensures |boost| == |scores| && AllIn(boost, 0.0, 1.716)
    ensures forall i :: 0 <= i < |boost| ==>
      var b := Crossed(Landed(scores, d), d.how, i % SwarmSize(|scores|)) * 0.52;
      if d.gates[i] < 0.18 then boost[i] == b * (0.68 + d.shares[i] * 0.64) else boost[i] == b
  {
    var p, size := Landed(scores, d), SwarmSize(|scores|);
    BoostsInRange(p, d, |scores|);
    seq(|scores|, i requires 0 <= i < |scores| => BoostOf(Crossed(p, d.how, i % size), d.gates[i], d.shares[i]))
  }

  lemma BoostsInRange(p: seq<real>, d: Draws, n: nat)
    requires DrawsOk(n, d) && |p| == SwarmSize(n) && AllIn(p, 0.0, 2.0)
    ensures forall i :: 0 <= i < n ==>
      0.0 <= BoostOf(Crossed(p, d.how, i % SwarmSize(n)), d.gates[i], d.shares[i]) <= 1.716
  {
    hide BoostOf, Crossed;
    forall i | 0 <= i < n
      ensures 0.0 <= BoostOf(Crossed(p, d.how, i % SwarmSize(n)), d.gates[i], d.shares[i]) <= 1.716
    {
      CrossedRange(p, d.how, i % SwarmSize(n));
      BoostRange(Crossed(p, d.how, i % SwarmSize(n)), d.gates[i], d.shares[i]);
    }
  }

  /** `psoPrior`: any scores, any draws. */
  method PsoPrior(rng: Rng, scores: seq<real>) returns (boost: seq<real>, ghost d: Draws)
    modifies rng
    ensures scores == [] ==> boost == [] && rng.log == old(rng.log)
    ensures scores != [] ==>
      && DrawsOk(|scores|, d) && boost == Prior(scores, d)
      && rng.log == old(rng.log) + DrawLog(|scores|, d)
  {
    hide BoostOf, Crossed, FlockAfter, UnitDraws, TrialLog, CrossLogs, Flat;
    d := Draws([], [], [], [], []);
    if scores == [] {
      return [], d;
    }
    ghost var hatch, flights, how, gates, shares;
    var particles;
    particles, hatch, flights := Swarming(rng, scores);
    particles, how := CrossAll(rng, particles);
    boost, gates, shares := Boosts(rng, particles, |scores|);
    d := Draws(hatch, flights, how, gates, shares);
    assert boost == Prior(scores, d);
  }

  // ---- what follows for a swarm that nothing pulls ----

  /** v halved t times. */
  ghost function Halved(v: real, t: nat): real { if t == 0 then v else 0.5 * Halved(v, t - 1) }

  lemma {:induction false} HalvedSmall(v: real, t: nat)
    requires -0.25 <= v <= 0.25
    ensures -0.25 <= Halved(v, t) <= 0.25
  {
    if t > 0 {
      HalvedSmall(v, t - 1);
    }
  }

  ghost predicate Unpulled(flights: seq<seq<real>>) {
    forall t, k :: 0 <= t < |flights| && 0 <= k < |flights[t]| ==> flights[t][k] == 0.0
  }

  /** Without pulls a particle hatched away from the rims only drifts: each flight halves its velocity. */
  lemma {:induction false} Drift(scores: seq<real>, hatch: seq<real>, size: nat, flights: seq<seq<real>>, i: nat)
    requires scores != [] && |hatch| == 2 * size && UnitDraws(hatch) && FlightsOk(flights, size) && i < size
    requires Unpulled(flights) && 0.25 <= hatch[2 * i] <= 0.75
    ensures var f, v := FlockAfter(scores, hatch, size, flights), hatch[2 * i + 1] * 0.5 - 0.25;
      && f.velocities[i] == Halved(v, |flights|)
      && f.particles[i] == hatch[2 * i] * 2.0 + v - Halved(v, |flights|)
  {
    hide Flown, FlockAfter;
    var n := |flights| - 1;
    if flights == [] {
      ParticleHatches(scores, hatch, size, i);
    } else {
      Drift(scores, hatch, size, flights[..n], i);
      assert flights[..n + 1] == flights;
      ParticleMoves(scores, hatch, size, flights, i, n);
      HalvedSmall(hatch[2 * i + 1] * 0.5 - 0.25, n);
      assert flights[n][2 * i] == 0.0 && flights[n][2 * i + 1] == 0.0;
    }
  }

  /** Such a particle, if it is neither crossed nor mutated, boosts the trails of its candidates by 0.52 of where
      it hatched plus nearly all of its first velocity. */
  lemma PriorOfDrift(scores: seq<real>, d: Draws, i: nat)
    requires i < |scores| && DrawsOk(|scores|, d) && Unpulled(d.flights)
    requires var k := i % SwarmSize(|scores|);
      && 0.25 <= d.hatch[2 * k] <= 0.75
      && (k / 2 < |d.how| ==>
          d.how[k / 2].gate > 0.8 && d.how[k / 2].trials1[0] >= 0.05 && d.how[k / 2].trials2[0] >= 0.05)
    ensures var k := i % SwarmSize(|scores|);
      var v := d.hatch[2 * k + 1] * 0.5 - 0.25;
      var b := (d.hatch[2 * k] * 2.0 + v - Halved(v, Iterations(|scores|))) * 0.52;
      Prior(scores, d)[i] == if d.gates[i] < 0.18 then b * (0.68 + d.shares[i] * 0.64) else b
  {
    hide FlockAfter, LeftChild, RightChild, Crossed, BoostOf, UnitDraws;
    var size := SwarmSize(|scores|);
    var k, p := i % size, Landed(scores, d);
    Drift(scores, d.hatch, size, d.flights, k);
    Uncrossed(p, d.how, k);
  }

  lemma Uncrossed(particles: seq<real>, how: seq<Cross>, k: nat)
    requires k < |particles| && |how| == |particles| / 2 && ValidCrosses(how)
    requires k / 2 < |how| ==> how[k / 2].gate > 0.8 && how[k / 2].trials1[0] >= 0.05 && how[k / 2].trials2[0] >= 0.05
    ensures Crossed(particles, how, k) == particles[k]
  {
    hide LeftChild, RightChild, MutationRate;
    if k / 2 < |how| {
      var a := k / 2 * 2;
      ChildrenAre(how[k / 2], particles[a], particles[a + 1]);
    }
  }
}
