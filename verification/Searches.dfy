/** The searches of `schedulePSO`, `scheduleGA` and `scheduleEcoTaskOpt` over a list of scores
    (edge-server/scheduler.go). */
module Searches {
  import opened RealSeqs
  import opened Randomness
  import opened Shared
  import opened Visits

  // ---- schedulePSO ----

  const SWARM := 30
  const FLIGHTS := 200

  datatype Particle = Particle(pos: real, vel: real, best: real, score: real)

  /** `int(math.Abs(pos)) % n`: the candidate whose unit interval the distance from 0 falls into, starting over
      beyond the last. */
  function Landed(pos: real, n: nat): (k: nat)
    requires n > 0
    ensures k < n
    ensures Abs(pos) < n as real ==> k as real <= Abs(pos) < k as real + 1.0
  {
    Abs(pos).Floor % n
  }

  lemma LandedWraps(pos: real, n: nat)
    requires n > 0 && pos >= 0.0
    ensures Landed(pos + n as real, n) == Landed(pos, n) == Landed(-pos, n)
  {
    assert (pos + n as real).Floor == pos.Floor + n;
    RemainderStep(pos.Floor, n);
  }

  lemma RemainderStep(a: nat, n: nat)
    requires n > 0
    ensures (a + n) % n == a % n
  {
    var k := (a + n) / n - a / n - 1;
    assert k * n == a % n - (a + n) % n;
    MultipleIsLarge(k, n);
  }

  lemma MultipleIsLarge(k: int, n: nat)
    ensures k >= 1 ==> k * n >= n
    ensures k <= -1 ==> k * n + n <= 0
  {
  }

  function Pulled(p: Particle, gbest: real, r1: real, r2: real): real {
    0.7 * p.vel + 1.4 * r1 * (p.best - p.pos) + 1.4 * r2 * (gbest - p.pos)
  }

  /** The two draws of one particle. */
  datatype Pair = Pair(first: real, second: real)

  ghost predicate PairOk(d: Pair) { 0.0 <= d.first < 1.0 && 0.0 <= d.second < 1.0 }

  ghost predicate PairsOk(draws: seq<Pair>) { forall k :: 0 <= k < |draws| ==> PairOk(draws[k]) }

  ghost function PairLog(draws: seq<Pair>): seq<real> {
    if draws == [] then [] else PairLog(draws[..|draws| - 1]) + [draws[|draws| - 1].first, draws[|draws| - 1].second]
  }

  lemma PairLogStep(draws: seq<Pair>, d: Pair)
    ensures PairLog(draws + [d]) == PairLog(draws) + [d.first, d.second]
  {
    assert (draws + [d])[..|draws|] == draws;
  }

  /** The search between two flights: its particles, the best position met with its score, and all candidates
      visited so far. */
  datatype Flight = Flight(particles: seq<Particle>, gbest: real, gbestScore: real, visits: seq<nat>)

  /** A candidate is visited at this position: a better score than all before makes it the best. */
  ghost function Visited(scores: seq<real>, f: Flight, pos: real): (g: Flight)
    requires scores != []
    ensures g.particles == f.particles && g.visits == f.visits + [Landed(pos, |scores|)]
    ensures var score := scores[Landed(pos, |scores|)];
      && (score > f.gbestScore ==> g.gbest == pos && g.gbestScore == score)
      && (score <= f.gbestScore ==> g.gbest == f.gbest && g.gbestScore == f.gbestScore)
  {
    var k := Landed(pos, |scores|);
    var visits := f.visits + [k];
    if scores[k] > f.gbestScore then f.(gbest := pos, gbestScore := scores[k], visits := visits)
    else f.(visits := visits)
  }

  ghost function Launched(scores: seq<real>, draws: seq<Pair>): (f: Flight)
    requires scores != []
    ensures |f.particles| == |draws|
    ensures draws != [] ==> f.particles[|draws| - 1].pos == draws[|draws| - 1].first * |scores| as real
  {
    if draws == [] then Flight([], 0.0, -MAX_FLOAT64, [])
    else
      var f, d := Launched(scores, draws[..|draws| - 1]), draws[|draws| - 1];
      var pos := Share(d.first, |scores| as real);
      var p := Particle(pos, d.second, pos, scores[Landed(pos, |scores|)]);
      Visited(scores, f.(particles := f.particles + [p]), pos)
  }

  lemma LaunchedStep(scores: seq<real>, draws: seq<Pair>, d: Pair)
    requires scores != []
    ensures var f, pos := Launched(scores, draws), Share(d.first, |scores| as real);
      var p := Particle(pos, d.second, pos, scores[Landed(pos, |scores|)]);
      Launched(scores, draws + [d]) == Visited(scores, f.(particles := f.particles + [p]), pos)
  {
    hide Landed, Visited, Share;
    assert (draws + [d])[..|draws|] == draws;
  }

  /** Where one flight takes a particle. */
  ghost function Moved(scores: seq<real>, p: Particle, gbest: real, d: Pair): (q: Particle)
    requires scores != []
    ensures q.vel == 0.7 * p.vel + 1.4 * d.first * (p.best - p.pos) + 1.4 * d.second * (gbest - p.pos)
    ensures q.pos == p.pos + q.vel
    ensures var score := scores[Landed(q.pos, |scores|)];
      if score > p.score then q.score == score && q.best == q.pos else q.score == p.score && q.best == p.best
  {
    var vel := Pulled(p, gbest, d.first, d.second);
    var pos := p.pos + vel;
    var score := scores[Landed(pos, |scores|)];
    if score > p.score then Particle(pos, vel, pos, score) else Particle(pos, vel, p.best, p.score)
  }

  /** After these flights, the particles taking turns. */
  ghost function Flown(scores: seq<real>, f: Flight, draws: seq<Pair>): (g: Flight)
    requires scores != [] && |f.particles| == SWARM
    ensures |g.particles| == SWARM
  {
    if draws == [] then f
    else
      var n := |draws| - 1;
      var g, i := Flown(scores, f, draws[..n]), n % SWARM;
      var q := Moved(scores, g.particles[i], g.gbest, draws[n]);
      Visited(scores, g.(particles := g.particles[i := q]), q.pos)
  }

  /** One flight: particle k modulo 30 moves, and the candidate where it lands is visited. */
  lemma FlownStep(scores: seq<real>, f: Flight, draws: seq<Pair>, d: Pair)
    requires scores != [] && |f.particles| == SWARM
    ensures var g, i := Flown(scores, f, draws), |draws| % SWARM;
      var q := Moved(scores, g.particles[i], g.gbest, d);
      Flown(scores, f, draws + [d]) == Visited(scores, g.(particles := g.particles[i := q]), q.pos)
  {
    hide Landed, Visited, Moved;
    assert (draws + [d])[..|draws|] == draws;
  }

  ghost predicate BestVisited(scores: seq<real>, f: Flight)
    requires scores != []
  {
    BestSoFar(scores, f.visits, Landed(f.gbest, |scores|), f.gbestScore)
  }

  lemma VisitedBest(scores: seq<real>, f: Flight, particles: seq<Particle>, pos: real)
    requires scores != [] && BestVisited(scores, f)
    ensures BestVisited(scores, Visited(scores, f.(particles := particles), pos))
  {
    hide BestSoFar, Landed;
    BestSoFarStep(scores, f.visits, Landed(f.gbest, |scores|), f.gbestScore, Landed(pos, |scores|));
  }

  /** Particles may leave the candidate range; the index they stand for never does. */
  method Launch(rng: Rng, scores: seq<real>)
    returns (particles: seq<Particle>, gbest: real, gbestScore: real, ghost visits: seq<nat>, ghost draws: seq<Pair>)
    requires scores != []
    modifies rng
    ensures |draws| == SWARM && PairsOk(draws) && rng.log == old(rng.log) + PairLog(draws)
    ensures Flight(particles, gbest, gbestScore, visits) == Launched(scores, draws)
    ensures |visits| == SWARM && BestVisited(scores, Flight(particles, gbest, gbestScore, visits))
  {
    hide BestSoFar, Landed, PairLog, Launched, PairOk, Share;
    var n := |scores|;
    particles, gbest, gbestScore, visits, draws := [], 0.0, -MAX_FLOAT64, [], [];
    NothingVisited(scores);
    NothingLaunched(scores);
    for i := 0 to SWARM
      invariant |particles| == |visits| == |draws| == i && PairsOk(draws)
      invariant rng.log == old(rng.log) + PairLog(draws)
      invariant Flight(particles, gbest, gbestScore, visits) == Launched(scores, draws)
      invariant BestVisited(scores, Flight(particles, gbest, gbestScore, visits))
    {
      var f := rng.Float64();
      var pos := Share(f, n as real);
      var vel := rng.Float64();
      var idx := Landed(pos, n);
      var score := scores[idx];
      ghost var d := UnitPair(f, vel);
      LaunchedStep(scores, draws, d);
      PairLogStep(draws, d);
      ghost var before := Flight(particles, gbest, gbestScore, visits);
      particles := particles + [Particle(pos, vel, pos, score)];
      VisitedBest(scores, before, particles, pos);
      if score > gbestScore {
        gbestScore, gbest := score, pos;
      }
      visits, draws := visits + [idx], draws + [d];
    }
  }

  ghost function UnitPair(r1: real, r2: real): (d: Pair)
    requires 0.0 <= r1 < 1.0 && 0.0 <= r2 < 1.0
    ensures PairOk(d) && d.first == r1 && d.second == r2
  {
    Pair(r1, r2)
  }

  lemma NothingLaunched(scores: seq<real>)
    requires scores != []
    ensures Launched(scores, []) == Flight([], 0.0, -MAX_FLOAT64, []) && PairLog([]) == []
  {
  }

  lemma NothingVisited(scores: seq<real>)
    requires scores != []
    ensures BestVisited(scores, Flight([], 0.0, -MAX_FLOAT64, []))
  {
  }

  /** One particle flies on; its own best and the swarm's follow. */
  method FlyOn(rng: Rng, scores: seq<real>, p: Particle, gbest0: real, gbestScore0: real)
    returns (q: Particle, gbest: real, gbestScore: real, ghost d: Pair)
    requires scores != []
    modifies rng
    ensures PairOk(d) && rng.log == old(rng.log) + [d.first, d.second]
    ensures q == Moved(scores, p, gbest0, d)
    ensures var score := scores[Landed(q.pos, |scores|)];
      gbestScore == Max(gbestScore0, score) && (if score > gbestScore0 then gbest == q.pos else gbest == gbest0)
  {
    hide Pulled, Landed;
    gbest, gbestScore := gbest0, gbestScore0;
    var r1 := rng.Float64();
    var r2 := rng.Float64();
    d := Pair(r1, r2);
    var vel := Pulled(p, gbest, r1, r2);
    q := p.(vel := vel, pos := p.pos + vel);
    var idx := Landed(q.pos, |scores|);
    var score := scores[idx];
    if score > q.score {
      q := q.(score := score, best := q.pos);
    }
    if score > gbestScore {
      gbestScore, gbest := score, q.pos;
    }
  }

  ghost predicate IsBestVisit(scores: seq<real>, visits: seq<nat>, best: nat) {
    exists bestScore :: BestSoFar(scores, visits, best, bestScore)
  }

  /** Everything the search of `schedulePSO` visits with these draws. */
  ghost function Explored(scores: seq<real>, starts: seq<Pair>, pulls: seq<Pair>): seq<nat>
    requires scores != [] && |starts| == SWARM
  {
    Flown(scores, Launched(scores, starts), pulls).visits
  }

  lemma NotFlown(scores: seq<real>, f: Flight)
    requires scores != [] && |f.particles| == SWARM
    ensures Flown(scores, f, []) == f && PairLog([]) == [] && PairsOk([])
  {
  }

  /** One round of flights: every particle flies once. */
  method FlyAll(rng: Rng, scores: seq<real>, particles0: seq<Particle>, gbest0: real, gbestScore0: real,
      ghost visits0: seq<nat>, ghost f: Flight, ghost pulls0: seq<Pair>)
    returns (particles: seq<Particle>, gbest: real, gbestScore: real, ghost visits: seq<nat>, ghost pulls: seq<Pair>)
    requires scores != [] && |f.particles| == |particles0| == SWARM && |pulls0| % SWARM == 0 && PairsOk(pulls0)
    requires Flight(particles0, gbest0, gbestScore0, visits0) == Flown(scores, f, pulls0)
    requires BestVisited(scores, Flight(particles0, gbest0, gbestScore0, visits0))
    modifies rng
    ensures |particles| == SWARM && |visits| == |visits0| + SWARM && |pulls| == |pulls0| + SWARM && PairsOk(pulls)
    ensures Flight(particles, gbest, gbestScore, visits) == Flown(scores, f, pulls)
    ensures BestVisited(scores, Flight(particles, gbest, gbestScore, visits))
    ensures pulls0 <= pulls && rng.log == old(rng.log) + PairLog(pulls[|pulls0|..])
    ensures PairLog(pulls) == PairLog(pulls0) + PairLog(pulls[|pulls0|..])
  {
    hide BestVisited, Landed, PairLog, Flown, Moved, PairOk, Visited;
    particles, gbest, gbestScore, visits, pulls := particles0, gbest0, gbestScore0, visits0, pulls0;
    NotFlown(scores, f);
    assert pulls0[|pulls0|..] == [];
    for i := 0 to SWARM
      invariant |particles| == SWARM && |visits| == |visits0| + i && |pulls| == |pulls0| + i && PairsOk(pulls)
      invariant pulls0 <= pulls && rng.log == old(rng.log) + PairLog(pulls[|pulls0|..])
      invariant PairLog(pulls) == PairLog(pulls0) + PairLog(pulls[|pulls0|..])
      invariant Flight(particles, gbest, gbestScore, visits) == Flown(scores, f, pulls)
      invariant BestVisited(scores, Flight(particles, gbest, gbestScore, visits))
    {
      ghost var d, before := Pair(0.0, 0.0), Flight(particles, gbest, gbestScore, visits);
      var q;
      q, gbest, gbestScore, d := FlyOn(rng, scores, particles[i], gbest, gbestScore);
      assert |pulls| % SWARM == i;
      FlownStep(scores, f, pulls, d);
      PairLogStep(pulls, d);
      PairLogStep(pulls[|pulls0|..], d);
      assert (pulls + [d])[|pulls0|..] == pulls[|pulls0|..] + [d];
      particles := particles[i := q];
      VisitedBest(scores, before, particles, q.pos);
      visits, pulls := visits + [Landed(q.pos, |scores|)], pulls + [d];
    }
  }

  /** The search of `schedulePSO`: the index returned is the first visit to reach the best score of
      all 6030, or 0 when no visit scored above the least float; the visits are those of its draws. */
  method PsoSearch(rng: Rng, scores: seq<real>)
    returns (best: nat, ghost visits: seq<nat>, ghost starts: seq<Pair>, ghost pulls: seq<Pair>)
    requires scores != []
    modifies rng
    ensures best < |scores| && |visits| == SWARM + SWARM * FLIGHTS == 6030
    ensures IsBestVisit(scores, visits, best)
    ensures |starts| == SWARM && |pulls| == SWARM * FLIGHTS && PairsOk(starts) && PairsOk(pulls)
    ensures visits == Explored(scores, starts, pulls)
    ensures rng.log == old(rng.log) + PairLog(starts) + PairLog(pulls)
  {
    hide BestVisited, BestSoFar, Landed, PairLog, Launched, Flown, PairsOk;
    var particles, gbest, gbestScore;
    particles, gbest, gbestScore, visits, starts := Launch(rng, scores);
    ghost var f := Flight(particles, gbest, gbestScore, visits);
    pulls := [];
    NotFlown(scores, f);
    for t := 0 to FLIGHTS
      invariant |particles| == SWARM && |visits| == SWARM + SWARM * t && |pulls| == SWARM * t && PairsOk(pulls)
      invariant rng.log == old(rng.log) + PairLog(starts) + PairLog(pulls)
      invariant Flight(particles, gbest, gbestScore, visits) == Flown(scores, f, pulls)
      invariant BestVisited(scores, Flight(particles, gbest, gbestScore, visits))
    {
      particles, gbest, gbestScore, visits, pulls :=
        FlyAll(rng, scores, particles, gbest, gbestScore, visits, f, pulls);
    }
    BestIsVisit(scores, Flight(particles, gbest, gbestScore, visits));
    best := Landed(gbest, |scores|);
  }

  lemma BestIsVisit(scores: seq<real>, f: Flight)
    requires scores != [] && BestVisited(scores, f)
    ensures IsBestVisit(scores, f.visits, Landed(f.gbest, |scores|))
  {
    hide BestSoFar, Landed;
  }

  // ---- scheduleGA ----

  const GA_POP := 40
  const GA_GENERATIONS := 200

  ghost predicate AllBelow(pop: seq<nat>, n: nat) { forall i :: 0 <= i < |pop| ==> pop[i] < n }

  /** What is drawn for one child; a fresh index only when it mutates. */
  datatype Birth = Birth(a: nat, b: nat, half: real, mutation: real, newcomer: nat)

  ghost predicate BirthOk(h: Birth, n: nat) { h.a < GA_POP && h.b < GA_POP && h.newcomer < n }

  ghost predicate BirthsOk(births: seq<Birth>, n: nat) { forall k :: 0 <= k < |births| ==> BirthOk(births[k], n) }

  ghost function BirthLog(h: Birth): seq<real> {
    [h.a as real, h.b as real, h.half, h.mutation] + if h.mutation < 0.1 then [h.newcomer as real] else []
  }

  ghost function BirthLogs(births: seq<Birth>): seq<real> {
    if births == [] then [] else BirthLogs(births[..|births| - 1]) + BirthLog(births[|births| - 1])
  }

  /** The child: one of two drawn parents, or a fresh draw. */
  ghost function ChildOf(pop: seq<nat>, h: Birth): (child: nat)
    requires |pop| == GA_POP && h.a < GA_POP && h.b < GA_POP
    ensures child == h.newcomer || child == pop[h.a] || child == pop[h.b]
    ensures child != h.newcomer ==> h.mutation >= 0.1
  {
    if h.mutation < 0.1 then h.newcomer else if h.half < 0.5 then pop[h.a] else pop[h.b]
  }

  /** The children of one generation. */
  ghost function Brood(pop: seq<nat>, births: seq<Birth>, n: nat): (next: seq<nat>)
    requires |pop| == GA_POP && BirthsOk(births, n)
    ensures |next| == |births|
    ensures forall k :: 0 <= k < |next| ==>
      var h := births[k];
      next[k] == if h.mutation < 0.1 then h.newcomer else if h.half < 0.5 then pop[h.a] else pop[h.b]
  {
    seq(|births|, k requires 0 <= k < |births| => ChildOf(pop, births[k]))
  }

  ghost predicate GenerationsOk(gens: seq<seq<Birth>>, n: nat) {
    forall g :: 0 <= g < |gens| ==> |gens[g]| == GA_POP && BirthsOk(gens[g], n)
  }

  /** The population after these generations. */
  ghost function PopulationAfter(first: seq<nat>, gens: seq<seq<Birth>>, n: nat): (pop: seq<nat>)
    requires |first| == GA_POP && GenerationsOk(gens, n)
    ensures |pop| == GA_POP
  {
    if gens == [] then first
    else Brood(PopulationAfter(first, gens[..|gens| - 1], n), gens[|gens| - 1], n)
  }

  /** Whose scores are looked at: the first individual, and then all children. */
  ghost function Scored(first: seq<nat>, gens: seq<seq<Birth>>, n: nat): seq<nat>
    requires |first| == GA_POP && GenerationsOk(gens, n)
  {
    if gens == [] then [first[0]]
    else Scored(first, gens[..|gens| - 1], n) + PopulationAfter(first, gens, n)
  }

  ghost function GenerationLog(gens: seq<seq<Birth>>): seq<real> {
    if gens == [] then [] else GenerationLog(gens[..|gens| - 1]) + BirthLogs(gens[|gens| - 1])
  }

  lemma GenerationStep(first: seq<nat>, gens: seq<seq<Birth>>, births: seq<Birth>, n: nat)
    requires |first| == GA_POP && GenerationsOk(gens, n) && |births| == GA_POP && BirthsOk(births, n)
    ensures GenerationsOk(gens + [births], n)
    ensures var next := Brood(PopulationAfter(first, gens, n), births, n);
      && PopulationAfter(first, gens + [births], n) == next
      && Scored(first, gens + [births], n) == Scored(first, gens, n) + next
    ensures GenerationLog(gens + [births]) == GenerationLog(gens) + BirthLogs(births)
  {
    hide Brood, BirthsOk, BirthLogs;
    assert (gens + [births])[..|gens|] == gens;
  }

  lemma BirthLogsStep(births: seq<Birth>, h: Birth)
    ensures BirthLogs(births + [h]) == BirthLogs(births) + BirthLog(h)
  {
    hide BirthLog;
    assert (births + [h])[..|births|] == births;
  }

  lemma NothingBorn(first: seq<nat>, n: nat)
    requires |first| == GA_POP
    ensures BirthLogs([]) == [] && GenerationLog([]) == []
    ensures GenerationsOk([], n) && PopulationAfter(first, [], n) == first && Scored(first, [], n) == [first[0]]
  {
  }

  method Conceive(rng: Rng, pop: seq<nat>, n: nat) returns (child: nat, ghost h: Birth)
    requires n > 0 && |pop| == GA_POP && AllBelow(pop, n)
    modifies rng
    ensures BirthOk(h, n) && child == ChildOf(pop, h) && child < n
    ensures rng.log == old(rng.log) + BirthLog(h)
  {
    var a := rng.Intn(GA_POP);
    var b := rng.Intn(GA_POP);
    child := pop[b];
    var half := rng.Float64();
    if half < 0.5 {
      child := pop[a];
    }
    var mutation := rng.Float64();
    ghost var newcomer := 0;
    if mutation < 0.1 {
      var k := rng.Intn(n);
      child, newcomer := k, k;
    }
    h := Birth(a, b, half, mutation, newcomer);
  }

  /** One generation of candidate indices: each child is one of two drawn parents, or a fresh draw. */
  method Generation(rng: Rng, scores: seq<real>, pop: seq<nat>, best0: nat, ghost visits: seq<nat>)
    returns (newPop: seq<nat>, best: nat, ghost births: seq<Birth>)
    requires scores != [] && |pop| == GA_POP && AllBelow(pop, |scores|)
    requires IsFirstBest(scores, visits, best0)
    modifies rng
    ensures |births| == |newPop| == GA_POP && AllBelow(newPop, |scores|) && BirthsOk(births, |scores|)
    ensures newPop == Brood(pop, births, |scores|) && rng.log == old(rng.log) + BirthLogs(births)
    ensures IsFirstBest(scores, visits + newPop, best)
  {
    hide IsFirstBest, BirthLogs, BirthLog, ChildOf, BirthOk;
    newPop, best, births := [], best0, [];
    assert visits + newPop == visits;
    IndexInRange(scores, visits, best);
    NothingBorn(pop, |scores|);
    while |newPop| < GA_POP
      invariant |births| == |newPop| <= GA_POP && AllBelow(newPop, |scores|) && best < |scores|
      invariant BirthsOk(births, |scores|) && rng.log == old(rng.log) + BirthLogs(births)
      invariant newPop == Brood(pop, births, |scores|)
      invariant IsFirstBest(scores, visits + newPop, best)
    {
      var child, h := Conceive(rng, pop, |scores|);
      FirstBestStep(scores, visits + newPop, best, child);
      if scores[child] > scores[best] {
        best := child;
      }
      assert visits + newPop + [child] == visits + (newPop + [child]);
      BirthLogsStep(births, h);
      newPop, births := newPop + [child], births + [h];
      assert newPop == Brood(pop, births, |scores|);
    }
  }

  lemma IndexInRange(scores: seq<real>, visits: seq<nat>, best: nat)
    requires IsFirstBest(scores, visits, best)
    ensures best < |scores|
  {
  }

  method FirstIndices(rng: Rng, n: nat) returns (pop: seq<nat>)
    requires n > 0
    modifies rng
    ensures |pop| == GA_POP && AllBelow(pop, n) && rng.log == old(rng.log) + Reals(pop)
  {
    pop := [];
    for i := 0 to GA_POP
      invariant |pop| == i && AllBelow(pop, n) && rng.log == old(rng.log) + Reals(pop)
    {
      var k := rng.Intn(n);
      assert Reals(pop + [k]) == Reals(pop) + [k as real];
      pop := pop + [k];
    }
  }

  ghost function Reals(s: seq<nat>): (r: seq<real>)
    ensures |r| == |s| && forall i :: 0 <= i < |r| ==> r[i] == s[i] as real
  {
    seq(|s|, i requires 0 <= i < |s| => s[i] as real)
  }

  /** The search of `scheduleGA`: the first index to reach the best score among the first individual
      and all 8000 children, each as drawn. The other 39 initial individuals are never scored. */
  method GaSearch(rng: Rng, scores: seq<real>)
    returns (best: nat, ghost visits: seq<nat>, ghost first: seq<nat>, ghost gens: seq<seq<Birth>>)
    requires scores != []
    modifies rng
    ensures best < |scores| && |visits| == 1 + GA_POP * GA_GENERATIONS == 8001
    ensures IsFirstBest(scores, visits, best)
    ensures |first| == GA_POP && |gens| == GA_GENERATIONS && GenerationsOk(gens, |scores|)
    ensures visits == Scored(first, gens, |scores|)
    ensures rng.log == old(rng.log) + Reals(first) + GenerationLog(gens)
  {
    hide BirthsOk, BirthLogs, Scored, PopulationAfter, GenerationLog, Reals, Brood, GenerationsOk;
    var pop := FirstIndices(rng, |scores|);
    first, gens := pop, [];
    best, visits := pop[0], [pop[0]];
    NothingBorn(first, |scores|);
    assert visits[0] == best;
    hide IsFirstBest;
    for g := 0 to GA_GENERATIONS
      invariant |pop| == GA_POP && AllBelow(pop, |scores|) && |visits| == 1 + GA_POP * g
      invariant |gens| == g && GenerationsOk(gens, |scores|)
      invariant pop == PopulationAfter(first, gens, |scores|) && visits == Scored(first, gens, |scores|)
      invariant rng.log == old(rng.log) + Reals(first) + GenerationLog(gens)
      invariant IsFirstBest(scores, visits, best)
    {
      ghost var births;
      pop, best, births := Generation(rng, scores, pop, best, visits);
      GenerationStep(first, gens, births, |scores|);
      visits, gens := visits + pop, gens + [births];
    }
    IndexInRange(scores, visits, best);
  }

  // ---- scheduleEcoTaskOpt ----

  const ECO_SWARM := 15
  const ECO_FLIGHTS := 100

  type Exponential = real -> real

  ghost predicate ExpLaws(exp: Exponential) {
    forall x :: exp(x) > 0.0 && (x <= 0.0 ==> exp(x) <= 1.0)
  }

  function Sigmoid(exp: Exponential, x: real): real
    requires 1.0 + exp(-x) != 0.0
  {
    1.0 / (1.0 + exp(-x))
  }

  /** From 0 on, the sigmoid rounds to 1. */
  lemma SigmoidRounds(exp: Exponential, x: real)
    requires ExpLaws(exp) && x >= 0.0
    ensures 1.0 + exp(-x) != 0.0 && RoundPositive(Sigmoid(exp, x)) == 1
  {
    var d := 1.0 + exp(-x);
    assert 1.0 < d <= 2.0;
    ReciprocalRange(d);
  }

  lemma ReciprocalRange(d: real)
    requires 1.0 < d <= 2.0
    ensures 0.5 <= 1.0 / d < 1.0
  {
    assert 1.0 / d * d == 1.0;
  }

  /** `int(math.Floor(x)) % n` for a particle that is not negative. */
  function Cell(x: real, n: nat): (k: nat)
    requires x >= 0.0 && n > 0
    ensures k < n
  {
    x.Floor % n
  }

  function EcoVelocity(w: real, v: real, c1: real, r1: real, c2: real, r2: real, x: real, p: real, g: real): real {
    w * v + c1 * r1 * (p - x) + c2 * r2 * (g - x)
  }

  /** The swarm of `scheduleEcoTaskOpt` at some moment; the best score is absent before any was seen. */
  datatype EcoSwarm = EcoSwarm(particles: seq<real>, velocities: seq<real>, pBest: seq<real>, pBestFit: seq<real>,
      gBest: real, seen: bool, gBestFit: real)

  ghost predicate SwarmOk(e: EcoSwarm, top: real) {
    && |e.particles| == |e.velocities| == |e.pBest| == |e.pBestFit| == ECO_SWARM
    && AllIn(e.particles, 0.0, top) && 0.0 <= e.gBest <= top
  }

  method EcoLaunch(rng: Rng, scores: seq<real>) returns (e: EcoSwarm)
    requires scores != []
    modifies rng
    ensures SwarmOk(e, (|scores| - 1) as real)
  {
    hide Cell, Share;
    var n, top := |scores|, (|scores| - 1) as real;
    e := EcoSwarm([], [], [], [], 0.0, false, 0.0);
    for i := 0 to ECO_SWARM
      invariant |e.particles| == |e.velocities| == |e.pBest| == |e.pBestFit| == i
      invariant AllIn(e.particles, 0.0, top) && 0.0 <= e.gBest <= top
    {
      var f := rng.Float64();
      var g := rng.Float64();
      var x := Share(f, top);
      ShareOf(f, top);
      var fit := scores[Cell(x, n)];
      e := e.(particles := e.particles + [x], velocities := e.velocities + [Share(g, top) - top / 2.0],
              pBest := e.pBest + [x], pBestFit := e.pBestFit + [fit]);
      if !e.seen || fit < e.gBestFit {
        e := e.(seen := true, gBestFit := fit, gBest := x);
      }
    }
  }

  function Share(f: real, top: real): real { f * top }

  lemma ShareOf(f: real, top: real)
    requires 0.0 <= f <= 1.0 && top >= 0.0
    ensures 0.0 <= Share(f, top) <= top
  {
    ProductNonNegative(f, top);
    ProductNonNegative(1.0 - f, top);
    assert (1.0 - f) * top == top - f * top;
  }

  /** The best positions take in the current ones: here a smaller score is better. */
  method EcoLook(scores: seq<real>, e0: EcoSwarm) returns (e: EcoSwarm)
    requires scores != [] && SwarmOk(e0, (|scores| - 1) as real)
    ensures SwarmOk(e, (|scores| - 1) as real)
  {
    hide Cell;
    e := e0;
    for i := 0 to ECO_SWARM
      invariant SwarmOk(e, (|scores| - 1) as real)
    {
      var fit := scores[Cell(e.particles[i], |scores|)];
      if fit < e.pBestFit[i] {
        e := e.(pBestFit := e.pBestFit[i := fit], pBest := e.pBest[i := e.particles[i]]);
      }
      if !e.seen || fit < e.gBestFit {
        e := e.(seen := true, gBestFit := fit, gBest := e.particles[i]);
      }
    }
  }

  method EcoFly(rng: Rng, e0: EcoSwarm, top: real, w: real, c1: real, c2: real) returns (e: EcoSwarm)
    requires top >= 0.0 && SwarmOk(e0, top)
    modifies rng
    ensures SwarmOk(e, top) && e.gBest == e0.gBest
  {
    hide EcoVelocity;
    e := e0;
    for i := 0 to ECO_SWARM
      invariant SwarmOk(e, top) && e.gBest == e0.gBest
    {
      var r1 := rng.Float64();
      var r2 := rng.Float64();
      var v := EcoVelocity(w, e.velocities[i], c1, r1, c2, r2, e.particles[i], e.pBest[i], e.gBest);
      var x := e.particles[i] + v;
      if x < 0.0 {
        x := 0.0;
      }
      if x > top {
        x := top;
      }
      e := e.(velocities := e.velocities[i := v], particles := e.particles[i := x]);
    }
  }

  /** The index of `scheduleEcoTaskOpt`: the best position is never negative, so its sigmoid rounds to
      1 whatever the scores and the draws, and the second candidate is taken whenever there is one. */
  method EcoSearch(rng: Rng, exp: Exponential, scores: seq<real>) returns (best: nat)
    requires ExpLaws(exp) && scores != []
    modifies rng
    ensures best == 1 % |scores|
  {
    hide SwarmOk;
    var top := (|scores| - 1) as real;
    var e := EcoLaunch(rng, scores);
    for it := 0 to ECO_FLIGHTS
      invariant SwarmOk(e, top)
    {
      var x := it as real / ECO_FLIGHTS as real;
      var w := 0.4 + 0.5 * exp(-0.5 * x);
      e := EcoLook(scores, e);
      e := EcoFly(rng, e, top, w, 1.5 - 0.5 * x, 1.0 + 0.5 * x);
    }
    BestNotNegative(e, top);
    SigmoidRounds(exp, e.gBest);
    best := RoundPositive(Sigmoid(exp, e.gBest)) % |scores|;
  }

  lemma BestNotNegative(e: EcoSwarm, top: real)
    requires SwarmOk(e, top)
    ensures e.gBest >= 0.0
  {
  }
}
