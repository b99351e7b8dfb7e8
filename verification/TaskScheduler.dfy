/** The `TaskScheduler` object: its counters, trails and parameters, and the choice of a worker in every
    mode (edge-server/scheduler.go). */
module TaskScheduling {
  import opened RealSeqs
  import opened Shared
  import opened SchedulerCounters
  import opened Randomness
  import opened Visits
  import opened Floats
  import opened Loads
  import MapSums
  import opened Trails
  import opened Candidates
  import opened HybridScore
  import C = Colony
  import F = FloatColony
  import A = AntSearch
  import G = Genetic
  import P = Swarm
  import S = Searches

  /** `assigned` and `inflight` have the same keys, nothing is negative, and a window holds at most ten types. */
  ghost predicate CountersOk(c: Counters) {
    && c.assignments.Keys == c.inflight.Keys
    && (forall w :: w in c.inflight ==> 0 <= c.inflight[w] <= c.assignments[w])
    && (forall w :: w in c.recent ==> |c.recent[w]| <= RECENT_WINDOW)
  }

  lemma CountersStayOk(mode: SchedulerMode, c: Counters, call: Call)
    requires CountersOk(c)
    ensures CountersOk(Apply(mode, c, call))
  {
  }

  lemma EnsuredHas(c: Counters, w: NodeId)
    ensures w in Ensured(c, w).inflight
  {
  }

  lemma ReleasedOk(c: Counters, w: NodeId)
    requires CountersOk(c)
    ensures CountersOk(Released(c, w))
  {
    CountersStayOk(PsoAcoGa, c, Complete(w));
  }

  lemma ChargedOk(mode: SchedulerMode, c: Counters, w: NodeId, t: TaskType)
    requires CountersOk(c)
    ensures CountersOk(Charged(mode, c, w, t))
  {
    CountersStayOk(mode, c, Assign(w, 0, t, 0));
  }

  function OccurrencesOf(t: TaskType, types: seq<TaskType>): nat { multiset(types)[t] }

  /** A quarter per recent task of the same type, at most 0.8. */
  function Bonus(t: TaskType, types: seq<TaskType>): real { Min(0.8, OccurrencesOf(t, types) as real / 4.0) }

  predicate Hybrid(mode: SchedulerMode) {
    mode == PsoAcoGa || mode == PsoAcoGaNoPso || mode == PsoAcoGaNoBatching || mode == PsoAcoGaNoGa
  }

  function NamesOf(cands: seq<Cand>): (names: seq<NodeId>)
    ensures |names| == |cands| && forall i :: 0 <= i < |cands| ==> names[i] == cands[i].member.name
  {
    seq(|cands|, i requires 0 <= i < |cands| => cands[i].member.name)
  }

  function SlidePerf(s: seq<real>, d: real): seq<real> {
    if |s + [d]| > 20 then (s + [d])[1..] else s + [d]
  }

  /** The factor by which an ant's deposit on each candidate is raised. */
  function BonusList(c: Counters, t: TaskType, cands: seq<Cand>): (b: seq<real>)
    ensures |b| == |cands|
    ensures forall i :: 0 <= i < |b| ==> b[i] == 1.0 + Bonus(t, Recent(c, cands[i].member.name))
  {
    seq(|cands|, i requires 0 <= i < |cands| => 1.0 + Bonus(t, Recent(c, cands[i].member.name)))
  }

  /** The scores of the hybrid modes, given the stored trails. */
  ghost predicate ScoredFor(pow: Power, scores: seq<Float>, cands: seq<Cand>, factors: Cand -> Factors, t: TaskType,
                            before: TrailMap) {
    && |scores| == |cands|
    && forall i :: 0 <= i < |cands| ==>
        scores[i] == Score(pow, factors(cands[i]), cands[i].projected, TrailAt(before, t, cands[i].member.name))
  }

  ghost function ScoreList(pow: Power, cands: seq<Cand>, factors: Cand -> Factors, t: TaskType, before: TrailMap):
      (scores: seq<Float>)
    ensures ScoredFor(pow, scores, cands, factors, t, before)
  {
    seq(|cands|, i requires 0 <= i < |cands| =>
      Score(pow, factors(cands[i]), cands[i].projected, TrailAt(before, t, cands[i].member.name)))
  }

  lemma ScoresAreList(pow: Power, scores: seq<Float>, cands: seq<Cand>, factors: Cand -> Factors, t: TaskType,
                      before: TrailMap)
    requires ScoredFor(pow, scores, cands, factors, t, before)
    ensures scores == ScoreList(pow, cands, factors, t, before)
  {
    hide Score, TrailAt;
  }

  /** The boosts are the prior that the swarm computes from these scores and draws. */
  ghost predicate BoostsFrom(pow: Power, cands: seq<Cand>, factors: Cand -> Factors, t: TaskType, before: TrailMap,
                             boost: seq<real>, d: P.Draws) {
    && cands != [] && P.DrawsOk(|cands|, d)
    && boost == P.Prior(PriorScores(ScoreList(pow, cands, factors, t, before)), d)
  }

  /** A stored trail lifted by 1.25 times its boost, or 2 when the swarm is not used. */
  function Warmed(usesPso: bool, trail: Float, boost: real): Float {
    if usesPso then Plus(trail, Num(boost * 1.25)) else Num(2.0)
  }

  ghost predicate WarmedFor(usesPso: bool, boost: seq<real>, start: seq<Float>, cands: seq<Cand>, t: TaskType,
                            before: TrailMap) {
    && |start| == |boost| == |cands| && AllIn(boost, 0.0, 1.716)
    && forall i :: 0 <= i < |cands| ==>
        start[i] == Warmed(usesPso, TrailAt(before, t, cands[i].member.name), boost[i])
  }

  /** Whether the i-th worker's trail is NaN after a hybrid call: it was, and the call starts from it; or it is
      the first candidate's (and no later candidate bears its name), and that candidate's score is NaN. */
  ghost predicate TrailLost(usesPso: bool, names: seq<NodeId>, t: TaskType, before: TrailMap, spoilt: bool, i: nat)
    requires i < |names|
  {
    || (usesPso && TrailAt(before, t, names[i]) == NaN)
    || (names[i] == names[0] && LastFor(names, 0) && spoilt)
  }

  function FirstScore(pow: Power, cands: seq<Cand>, factors: Cand -> Factors, t: TaskType, before: TrailMap): Float
    requires cands != []
  {
    Score(pow, factors(cands[0]), cands[0].projected, TrailAt(before, t, cands[0].member.name))
  }

  /** What a hybrid call leaves of the trails, whatever is drawn: a candidate's trail is NaN exactly when it is
      lost, and within [0.1, 8] otherwise; all other trails are as before. The first candidate's score is NaN
      when it is not idle or its own trail is NaN, and, its other factors being finite, only then. */
  ghost predicate TrailsLeft(pow: Power, cands: seq<Cand>, factors: Cand -> Factors, t: TaskType, usesPso: bool,
                             before: TrailMap, after: TrailMap, idle: bool)
    requires cands != []
  {
    var names, spoilt := NamesOf(cands), FirstScore(pow, cands, factors, t, before) == NaN;
    && (!idle || TrailAt(before, t, names[0]) == NaN ==> spoilt)
    && (FiniteFactors(factors(cands[0])) && idle && TrailAt(before, t, names[0]) != NaN ==> !spoilt)
    && (forall i :: 0 <= i < |names| ==>
        (TrailAt(after, t, names[i]) == NaN <==> TrailLost(usesPso, names, t, before, spoilt, i)))
    && (forall i :: 0 <= i < |names| ==>
        (Stored(TrailAt(after, t, names[i])) <==> !TrailLost(usesPso, names, t, before, spoilt, i)))
    && (forall s, w :: s != t || w !in names ==> TrailAt(after, s, w) == TrailAt(before, s, w))
  }

  /** What a hybrid call makes of each trail it does not lose: lifted by 1.25 times its boost, or taken to be 2
      without the swarm, then evaporated three times, damped by the worker's usage and put within [0.1, 8]. */
  ghost predicate TrailsWorth(cands: seq<Cand>, t: TaskType, usesPso: bool, boost: seq<real>, keep: real,
                              m: map<NodeId, int>, spoilt: bool, before: TrailMap, after: TrailMap)
    requires |boost| == |cands| && Counts(m)
  {
    var names := NamesOf(cands);
    forall i :: 0 <= i < |names| && LastFor(names, i) && !TrailLost(usesPso, names, t, before, spoilt, i) ==>
      WorthIs(TrailAt(before, t, names[i]), usesPso, boost[i], keep, AntiBias(m, names[i]), TrailAt(after, t, names[i]))
  }

  ghost predicate WorthIs(trail: Float, usesPso: bool, boost: real, keep: real, bias: real, after: Float) {
    && (usesPso ==> trail.Num?)
    && after == Num(StoredNumber(if usesPso then trail.value + 1.25 * boost else 2.0, keep, bias))
  }

  /** What a call of a hybrid mode makes of the trails, the boosts being those of the swarm for its draws d. */
  ghost predicate HybridMakes(pow: Power, cands: seq<Cand>, factors: Cand -> Factors, t: TaskType, usesPso: bool,
                              boost: seq<real>, d: P.Draws, keep: real, m: map<NodeId, int>, before: TrailMap,
                              after: TrailMap) {
    && |boost| == |cands| > 0 && Counts(m)
    && (usesPso ==> BoostsFrom(pow, cands, factors, t, before, boost, d))
    && TrailsWorth(cands, t, usesPso, boost, keep, m, FirstScore(pow, cands, factors, t, before) == NaN, before, after)
  }

  lemma TrailsWorthAlike(cands: seq<Cand>, t: TaskType, usesPso: bool, boost: seq<real>, keep: real,
                         m: map<NodeId, int>, spoilt: bool, before: TrailMap, q: TrailMap, r: TrailMap)
    requires |boost| == |cands| && Counts(m) && SameTrails(r, q)
    requires TrailsWorth(cands, t, usesPso, boost, keep, m, spoilt, before, q)
    ensures TrailsWorth(cands, t, usesPso, boost, keep, m, spoilt, before, r)
  {
    hide TrailAt, WorthIs, AntiBias, LastFor, TrailLost, Counts;
  }

  /** The exact condition, in terms a caller can check before the call: the first candidate's other factors being
      finite, every candidate's trail ends within [0.1, 8] if and only if none that the call starts from is NaN
      and the first candidate is idle with a trail that is a number (or a later one bears its name). */
  lemma TrailsInRangeIff(pow: Power, cands: seq<Cand>, factors: Cand -> Factors, t: TaskType, usesPso: bool,
                         before: TrailMap, after: TrailMap, idle: bool)
    requires cands != [] && TrailsLeft(pow, cands, factors, t, usesPso, before, after, idle)
    requires FiniteFactors(factors(cands[0]))
    ensures var names := NamesOf(cands);
      (forall i :: 0 <= i < |names| ==> Stored(TrailAt(after, t, names[i]))) <==>
        && (usesPso ==> forall i :: 0 <= i < |names| ==> TrailAt(before, t, names[i]) != NaN)
        && ((idle && TrailAt(before, t, names[0]) != NaN) || !LastFor(names, 0))
  {
    hide TrailAt, FiniteFactors, Stored, LastFor, FirstScore;
    var names, spoilt := NamesOf(cands), FirstScore(pow, cands, factors, t, before) == NaN;
    if forall i :: 0 <= i < |names| ==> Stored(TrailAt(after, t, names[i])) {
      assert !TrailLost(usesPso, names, t, before, spoilt, 0);
      forall i | 0 <= i < |names| && usesPso ensures TrailAt(before, t, names[i]) != NaN {
        assert !TrailLost(usesPso, names, t, before, spoilt, i);
      }
    }
  }

  /** A NaN trail, whoever's it is: a call that starts from the stored trails leaves it NaN; one that starts
      every trail at 2 gives every candidate but the first a number within [0.1, 8] back. */
  lemma SpoiltTrail(pow: Power, cands: seq<Cand>, factors: Cand -> Factors, t: TaskType, usesPso: bool,
                    before: TrailMap, after: TrailMap, idle: bool, w: NodeId)
    requires cands != [] && TrailsLeft(pow, cands, factors, t, usesPso, before, after, idle)
    requires TrailAt(before, t, w) == NaN
    ensures usesPso || w !in NamesOf(cands) ==> TrailAt(after, t, w) == NaN
    ensures !usesPso && w in NamesOf(cands) && w != cands[0].member.name ==> Stored(TrailAt(after, t, w))
  {
    hide TrailAt, Stored, LastFor, FirstScore;
    var names, spoilt := NamesOf(cands), FirstScore(pow, cands, factors, t, before) == NaN;
    if w in names {
      var i :| 0 <= i < |names| && names[i] == w;
      assert TrailLost(usesPso, names, t, before, spoilt, i) <==> TrailAt(after, t, w) == NaN;
    }
  }

  lemma TrailsLeftAlike(pow: Power, cands: seq<Cand>, factors: Cand -> Factors, t: TaskType, usesPso: bool,
                        before: TrailMap, q: TrailMap, r: TrailMap, idle: bool)
    requires cands != [] && TrailsLeft(pow, cands, factors, t, usesPso, before, q, idle) && SameTrails(r, q)
    ensures TrailsLeft(pow, cands, factors, t, usesPso, before, r, idle)
  {
    hide TrailAt, FiniteFactors, Stored, TrailLost, FirstScore;
    forall s, w ensures TrailAt(r, s, w) == TrailAt(q, s, w) {
    }
  }

  lemma DampedIsOk(m: map<NodeId, int>, w: NodeId, v: Float)
    requires Counts(m)
    ensures TrailOk(Damped(m, w, v))
    ensures Stored(Damped(m, w, v)) <==> Times(v, Num(AntiBias(m, w))) != NaN
    ensures Damped(m, w, v) == NaN <==> Times(v, Num(AntiBias(m, w))) == NaN
  {
    hide AntiBias, Counts, Times;
    BoundedInRange(Times(v, Num(AntiBias(m, w))));
  }

  /** The scores of a hybrid call are dull and its starting trails sound. */
  lemma HybridPick(p: F.Pick, cands: seq<Cand>, factors: Cand -> Factors, t: TaskType, before: TrailMap, usesPso: bool,
                   boost: seq<real>, start: seq<Float>)
    requires PowerLaws(p.pow) && G.ParamsOk(p.alpha, p.beta, p.rho) && CandsOk(cands) && cands != []
    requires |p.bonuses| == |cands| && TrailsOk(before)
    requires ScoredFor(p.pow, p.scores, cands, factors, t, before)
    requires WarmedFor(usesPso, boost, start, cands, t, before)
    ensures F.OnDull(p) && F.Sound(start) && BestIndex(p.scores) == 0
    ensures |start| == |p.scores| == |cands|
  {
    hide Score, TrailAt, TrailOk, Warmed, TrailsOk;
    forall i | 0 <= i < |cands|
      ensures Dull(p.scores[i]) && (start[i] == NaN || (start[i].Num? && start[i].value > 0.0))
    {
      var trail := TrailAt(before, t, cands[i].member.name);
      ScoreIsDull(p.pow, factors(cands[i]), cands[i].projected, trail);
      TrailAtOk(before, t, cands[i].member.name);
      WarmedIsSound(usesPso, trail, boost[i]);
    }
    DullArgmax(p.scores, 0);
  }

  lemma WarmedIsSound(usesPso: bool, trail: Float, boost: real)
    requires TrailOk(trail) && boost >= 0.0
    ensures var start := Warmed(usesPso, trail, boost);
      && (start == NaN || (start.Num? && start.value > 0.0))
      && (start == NaN <==> usesPso && trail == NaN)
  {
  }

  /** The value a hybrid call stores for the i-th candidate. */
  lemma HybridValue(p: F.Pick, cands: seq<Cand>, factors: Cand -> Factors, t: TaskType, before: TrailMap,
                    usesPso: bool, boost: seq<real>, start: seq<Float>, rounds: seq<seq<real>>, m: map<NodeId, int>,
                    i: nat)
    requires i < |cands| && Counts(m) && TrailsOk(before) && A.AreRounds(rounds, C.ACO_ROUNDS, C.ANTS)
    requires F.OnDull(p) && F.Sound(start) && |start| == |p.scores| == |p.bonuses| == |cands|
    requires ScoredFor(p.pow, p.scores, cands, factors, t, before)
    requires WarmedFor(usesPso, boost, start, cands, t, before)
    ensures var v := Damped(m, cands[i].member.name, F.Rounds(p, start, rounds)[i]);
      var lost := (usesPso && TrailAt(before, t, cands[i].member.name) == NaN)
        || (i == 0 && FirstScore(p.pow, cands, factors, t, before) == NaN);
      (v == NaN <==> lost) && (Stored(v) <==> !lost)
      && (!lost ==>
          start[i].Num? && v == Num(StoredNumber(start[i].value, 1.0 - p.rho, AntiBias(m, cands[i].member.name))))
  {
    hide Score, TrailAt, TrailsOk, F.Rounds, AntiBias, Bounded, Stored, F.OnDull, F.Sound, Counts, Warmed, StoredNumber;
    var trail := TrailAt(before, t, cands[i].member.name);
    TrailAtOk(before, t, cands[i].member.name);
    WarmedIsSound(usesPso, trail, boost[i]);
    assert forall k :: 0 <= k < |rounds| ==> |rounds[k]| == C.ANTS;
    StoredValue(p, start, rounds, i, AntiBias(m, cands[i].member.name));
    if start[i] != NaN && (i == 0 ==> p.scores[0] != NaN) {
      StoredIs(p, start, rounds, i, AntiBias(m, cands[i].member.name));
    }
  }

  lemma FirstScoreIs(pow: Power, cands: seq<Cand>, factors: Cand -> Factors, t: TaskType, before: TrailMap)
    requires PowerLaws(pow) && CandsOk(cands) && cands != [] && TrailsOk(before)
    ensures var trail := TrailAt(before, t, cands[0].member.name);
      var spoilt := FirstScore(pow, cands, factors, t, before) == NaN;
      && (cands[0].projected != 1.0 || trail == NaN ==> spoilt)
      && (FiniteFactors(factors(cands[0])) && cands[0].projected == 1.0 && trail != NaN ==> !spoilt)
  {
    hide Score, TrailAt, FiniteFactors, TrailsOk;
    TrailAtOk(before, t, cands[0].member.name);
    ScoreIsDull(pow, factors(cands[0]), cands[0].projected, TrailAt(before, t, cands[0].member.name));
  }

  lemma HybridLeaves(p: F.Pick, cands: seq<Cand>, factors: Cand -> Factors, t: TaskType, before: TrailMap,
                     usesPso: bool, boost: seq<real>, start: seq<Float>, rounds: seq<seq<real>>, m: map<NodeId, int>)
    requires PowerLaws(p.pow) && CandsOk(cands) && cands != [] && Counts(m)
    requires F.OnDull(p) && F.Sound(start) && |start| == |p.scores| == |p.bonuses| == |cands|
    requires TrailsOk(before) && A.AreRounds(rounds, C.ACO_ROUNDS, C.ANTS)
    requires ScoredFor(p.pow, p.scores, cands, factors, t, before)
    requires WarmedFor(usesPso, boost, start, cands, t, before)
    ensures TrailsLeft(p.pow, cands, factors, t, usesPso, before,
      TrailsStored(before, t, NamesOf(cands), DampedList(m, NamesOf(cands), F.Rounds(p, start, rounds))),
      cands[0].projected == 1.0)
  {
    hide ScoredFor, WarmedFor, A.AreRounds, F.Rounds, TrailsStored, TrailAt, TrailsOk, Damped, Stored, FiniteFactors,
      F.OnDull, F.Sound, Counts, CandsOk, FirstScore, StoredNumber, AntiBias;
    var names := NamesOf(cands);
    var values := DampedList(m, names, F.Rounds(p, start, rounds));
    var after, spoilt := TrailsStored(before, t, names, values), FirstScore(p.pow, cands, factors, t, before) == NaN;
    FirstScoreIs(p.pow, cands, factors, t, before);
    forall i | 0 <= i < |names|
      ensures TrailAt(after, t, names[i]) == NaN <==> TrailLost(usesPso, names, t, before, spoilt, i)
      ensures Stored(TrailAt(after, t, names[i])) <==> !TrailLost(usesPso, names, t, before, spoilt, i)
    {
      var j := LastExists(names, i);
      StoredLast(before, t, names, values, j);
      assert names[j] == cands[j].member.name;
      HybridValue(p, cands, factors, t, before, usesPso, boost, start, rounds, m, j);
      LastOfFirst(names, i, j);
    }
    forall s, w | s != t || w !in names ensures TrailAt(after, s, w) == TrailAt(before, s, w) {
      StoredElsewhere(before, t, names, values, s, w);
    }
  }

  lemma HybridWorth(p: F.Pick, cands: seq<Cand>, factors: Cand -> Factors, t: TaskType, before: TrailMap,
                    usesPso: bool, boost: seq<real>, start: seq<Float>, rounds: seq<seq<real>>, m: map<NodeId, int>)
    requires cands != [] && Counts(m) && |boost| == |cands|
    requires F.OnDull(p) && F.Sound(start) && |start| == |p.scores| == |p.bonuses| == |cands|
    requires TrailsOk(before) && A.AreRounds(rounds, C.ACO_ROUNDS, C.ANTS)
    requires ScoredFor(p.pow, p.scores, cands, factors, t, before)
    requires WarmedFor(usesPso, boost, start, cands, t, before)
    ensures TrailsWorth(cands, t, usesPso, boost, 1.0 - p.rho, m, FirstScore(p.pow, cands, factors, t, before) == NaN,
      before, TrailsStored(before, t, NamesOf(cands), DampedList(m, NamesOf(cands), F.Rounds(p, start, rounds))))
  {
    hide ScoredFor, WarmedFor, A.AreRounds, F.Rounds, TrailsStored, TrailAt, TrailsOk, Damped, Stored, F.OnDull,
      F.Sound, Counts, FirstScore, StoredNumber, AntiBias;
    var names := NamesOf(cands);
    var values := DampedList(m, names, F.Rounds(p, start, rounds));
    var after, spoilt := TrailsStored(before, t, names, values), FirstScore(p.pow, cands, factors, t, before) == NaN;
    forall i | 0 <= i < |names| && LastFor(names, i) && !TrailLost(usesPso, names, t, before, spoilt, i)
      ensures WorthIs(TrailAt(before, t, names[i]), usesPso, boost[i], 1.0 - p.rho, AntiBias(m, names[i]),
        TrailAt(after, t, names[i]))
    {
      StoredLast(before, t, names, values, i);
      assert names[i] == cands[i].member.name;
      HybridValue(p, cands, factors, t, before, usesPso, boost, start, rounds, m, i);
      StartOf(cands, t, before, usesPso, boost, start, i);
    }
  }

  lemma StartOf(cands: seq<Cand>, t: TaskType, before: TrailMap, usesPso: bool, boost: seq<real>, start: seq<Float>,
                i: nat)
    requires WarmedFor(usesPso, boost, start, cands, t, before) && TrailsOk(before) && i < |cands|
    ensures |start| == |boost| == |cands|
    ensures var trail := TrailAt(before, t, cands[i].member.name);
      start[i] == if !usesPso then Num(2.0) else if trail.Num? then Num(trail.value + 1.25 * boost[i]) else NaN
  {
    hide TrailAt, TrailsOk;
    TrailAtOk(before, t, cands[i].member.name);
  }

  // ---- the plain searches ----

  /** What was drawn by the search of one of the modes PSO, GA and ACO. */
  datatype Search =
    | NoSearch
    | Flights(starts: seq<S.Pair>, pulls: seq<S.Pair>)
    | Births(first: seq<nat>, gens: seq<seq<S.Birth>>)
    | Walks(rounds: seq<seq<real>>)

  ghost function SearchLog(how: Search): seq<real> {
    match how
    case NoSearch => []
    case Flights(starts, pulls) => S.PairLog(starts) + S.PairLog(pulls)
    case Births(first, gens) => S.Reals(first) + S.GenerationLog(gens)
    case Walks(rounds) => Flat(rounds)
  }

  ghost function PsoScores(estimated: real, cands: seq<Cand>): (s: seq<real>)
    requires CandsOk(cands)
    ensures |s| == |cands| && forall i :: 0 <= i < |s| ==> s[i] == PsoScore(estimated, cands[i])
  {
    seq(|cands|, i requires 0 <= i < |cands| => PsoScore(estimated, cands[i]))
  }

  ghost function GaScores(estimated: real, cands: seq<Cand>): (s: seq<real>)
    requires CandsOk(cands)
    ensures |s| == |cands| && forall i :: 0 <= i < |s| ==> s[i] == GaScore(estimated, cands[i])
  {
    seq(|cands|, i requires 0 <= i < |cands| => GaScore(estimated, cands[i]))
  }

  ghost function AcoScores(estimated: real, cands: seq<Cand>): (s: seq<real>)
    requires CandsOk(cands)
    ensures |s| == |cands| && forall i :: 0 <= i < |s| ==> s[i] == AcoScore(estimated, cands[i])
  {
    seq(|cands|, i requires 0 <= i < |cands| => AcoScore(estimated, cands[i]))
  }

  /** In the modes PSO, GA and ACO the index is that of the search with these draws. */
  ghost predicate FoundBy(mode: SchedulerMode, pow: Power, estimated: real, cands: seq<Cand>, how: Search, k: nat)
    requires CandsOk(cands) && cands != []
  {
    match mode
    case Pso =>
      && how.Flights? && |how.starts| == S.SWARM && |how.pulls| == S.SWARM * S.FLIGHTS
      && var scores := PsoScores(estimated, cands);
        S.IsBestVisit(scores, S.Explored(scores, how.starts, how.pulls), k)
    case Ga =>
      && how.Births? && |how.first| == S.GA_POP && |how.gens| == S.GA_GENERATIONS
      && S.GenerationsOk(how.gens, |cands|)
      && IsFirstBest(GaScores(estimated, cands), S.Scored(how.first, how.gens, |cands|), k)
    case Aco =>
      && how.Walks? && A.AreRounds(how.rounds, C.SEARCH_ROUNDS, C.SEARCH_ANTS)
      && var scores := AcoScores(estimated, cands);
        forall max :: C.IsMax(scores, max) ==>
          && max > 0.0
          && IsFirstBest(scores, C.AllChoices(C.SearchColony(pow, scores, max), C.Ones(|scores|), how.rounds), k)
    case _ => true
  }

  ghost predicate FoundIn(mode: SchedulerMode, pow: Power, estimated: real, cands: seq<Cand>, how: Search, k: nat) {
    CandsOk(cands) && cands != [] && FoundBy(mode, pow, estimated, cands, how, k)
  }

  lemma PsoFound(pow: Power, estimated: real, cands: seq<Cand>, scores: seq<real>, visits: seq<nat>,
                 starts: seq<S.Pair>, pulls: seq<S.Pair>, k: nat)
    requires CandsOk(cands) && cands != [] && |scores| == |cands|
    requires forall i :: 0 <= i < |cands| ==> scores[i] == PsoScore(estimated, cands[i])
    requires |starts| == S.SWARM && |pulls| == S.SWARM * S.FLIGHTS && visits == S.Explored(scores, starts, pulls)
    requires S.IsBestVisit(scores, visits, k)
    ensures FoundBy(Pso, pow, estimated, cands, Flights(starts, pulls), k)
    ensures SearchLog(Flights(starts, pulls)) == S.PairLog(starts) + S.PairLog(pulls)
  {
    hide PsoScore, S.IsBestVisit, S.Explored;
    assert scores == PsoScores(estimated, cands);
  }

  lemma GaFound(pow: Power, estimated: real, cands: seq<Cand>, scores: seq<real>, visits: seq<nat>,
                first: seq<nat>, gens: seq<seq<S.Birth>>, k: nat)
    requires CandsOk(cands) && cands != [] && |scores| == |cands|
    requires forall i :: 0 <= i < |cands| ==> scores[i] == GaScore(estimated, cands[i])
    requires |first| == S.GA_POP && |gens| == S.GA_GENERATIONS && S.GenerationsOk(gens, |cands|)
    requires visits == S.Scored(first, gens, |cands|) && IsFirstBest(scores, visits, k)
    ensures FoundBy(Ga, pow, estimated, cands, Births(first, gens), k)
    ensures SearchLog(Births(first, gens)) == S.Reals(first) + S.GenerationLog(gens)
  {
    hide GaScore, IsFirstBest, S.GenerationsOk, S.Scored;
    assert scores == GaScores(estimated, cands);
  }

  lemma AcoFound(pow: Power, estimated: real, cands: seq<Cand>, scores: seq<real>, rounds: seq<seq<real>>,
                 stored: seq<real>, k: nat)
    requires CandsOk(cands) && cands != [] && |scores| == |stored| == |cands|
    requires forall i :: 0 <= i < |cands| ==> scores[i] == AcoScore(estimated, cands[i])
    requires A.AreRounds(rounds, C.SEARCH_ROUNDS, C.SEARCH_ANTS)
    requires forall max :: C.IsMax(scores, max) ==>
      max > 0.0 && A.IsSearchResult(C.SearchColony(pow, scores, max), scores, rounds, k, stored)
    ensures FoundBy(Aco, pow, estimated, cands, Walks(rounds), k) && SearchLog(Walks(rounds)) == Flat(rounds)
  {
    hide AcoScore, IsFirstBest, A.AreRounds, C.AllChoices, C.SearchColony, C.IsMax, C.Rounds;
    assert scores == AcoScores(estimated, cands);
  }

  lemma NotSearched(mode: SchedulerMode, pow: Power, estimated: real, cands: seq<Cand>, how: Search, k: nat)
    requires CandsOk(cands) && cands != [] && mode != Pso && mode != Ga && mode != Aco
    ensures FoundBy(mode, pow, estimated, cands, how, k)
  {
  }

  lemma LastOfFirst(names: seq<NodeId>, i: nat, j: nat)
    requires i <= j && LastFor(names, j) && names[j] == names[i]
    ensures j == 0 <==> names[i] == names[0] && LastFor(names, 0)
  {
  }

  class TaskScheduler {
    const mode: SchedulerMode
    const rng: Rng
    const pow: Power
    const exp: S.Exponential
    const speed: Speeds
    const ablatePso: bool  // ABLATION=NO_PSO

    var assignments: map<NodeId, int>
    var inflight: map<NodeId, int>
    var recent: map<NodeId, seq<TaskType>>
    var batching: map<NodeId, int>
    var pheromone: TrailMap
    var recentPerf: seq<real>
    var alpha: real
    var beta: real
    var rho: real

    ghost function State(): Counters
      reads this
    {
      Counters(assignments, inflight, recent, batching)
    }

    ghost predicate LawsOk() { PowerLaws(pow) && S.ExpLaws(exp) && SpeedsOk(speed) }

    /** What every call keeps: counters add up, every trail is a number within [0.1, 10] or NaN, and the
        parameters stay in range in every mode but EcoTaskOpt. */
    ghost predicate Valid()
      reads this
    {
      && LawsOk()
      && CountersOk(State())
      && TrailsOk(pheromone)
      && (mode != EcoTaskOpt ==> G.ParamsOk(alpha, beta, rho))
    }

    constructor (mode: SchedulerMode, pow: Power, exp: S.Exponential, speed: Speeds, ablatePso: bool)
      requires PowerLaws(pow) && S.ExpLaws(exp) && SpeedsOk(speed)
      ensures Valid() && fresh(rng) && State() == NoCounters && pheromone == map[]
      ensures this.mode == mode && this.pow == pow && this.speed == speed && recentPerf == []
      ensures alpha == 1.0 && beta == 2.0 && rho == 0.2
    {
      this.mode, this.pow, this.exp, this.speed, this.ablatePso := mode, pow, exp, speed, ablatePso;
      rng := new Rng();
      assignments, inflight, recent, batching := map[], map[], map[], map[];
      pheromone, recentPerf := map[], [];
      alpha, beta, rho := 1.0, 2.0, 0.2;
    }

    // ---- bookkeeping ----

    method EnsureNode(w: NodeId)
      requires Valid()
      modifies `assignments, `inflight, `recent
      ensures Valid() && State() == Ensured(old(State()), w)
      ensures assignments == old(assignments)[w := At(old(assignments), w)]
      ensures inflight == old(inflight)[w := At(old(inflight), w)]
      ensures recent == old(recent)[w := if w in old(recent) then old(recent)[w] else []]
    {
      hide CountersOk, TrailsOk, LawsOk, G.ParamsOk;
      if w !in assignments {
        assignments := assignments[w := 0];
      }
      if w !in inflight {
        inflight := inflight[w := 0];
      }
      if w !in recent {
        recent := recent[w := []];
      }
      assert State() == Ensured(old(State()), w);
      CountersStayOk(mode, old(State()), Join(w));
    }

    method RemoveNode(w: NodeId)
      requires Valid()
      modifies `assignments, `inflight, `recent, `pheromone
      ensures Valid() && State() == Forgotten(old(State()), w) && pheromone == TrailsWithout(old(pheromone), w)
      ensures assignments == old(assignments) - {w} && inflight == old(inflight) - {w} && recent == old(recent) - {w}
      ensures pheromone.Keys == old(pheromone).Keys && forall t :: t in pheromone ==>
        pheromone[t] == old(pheromone)[t] - {w}
    {
      hide CountersOk, TrailsOk, LawsOk, G.ParamsOk;
      assignments := assignments - {w};
      inflight := inflight - {w};
      recent := recent - {w};
      CountersStayOk(mode, old(State()), Leave(w));
      TrailsWithoutOk(pheromone, w);
      pheromone := DropWorker(pheromone, w);
    }

    method OnAssigned(w: NodeId, t: TaskType)
      requires Valid()
      modifies `assignments, `inflight, `recent, `batching
      ensures Valid() && State() == Charged(mode, old(State()), w, t)
      ensures assignments == old(assignments)[w := At(old(assignments), w) + 1]
      ensures inflight == old(inflight)[w := At(old(inflight), w) + 1]
      ensures mode != PsoAcoGa ==> recent == old(recent) && batching == old(batching)
      ensures mode == PsoAcoGa ==>
        var rec := if w in old(recent) then old(recent)[w] else [];
        && recent == old(recent)[w := if |rec| < 10 then rec + [t] else rec[1..] + [t]]
        && batching ==
           if rec != [] && rec[|rec| - 1] == t then old(batching)[w := At(old(batching), w) + 1] else old(batching)
    {
      hide CountersOk, TrailsOk, LawsOk, G.ParamsOk, Slide, LastIs;
      assignments := assignments[w := At(assignments, w) + 1];
      inflight := inflight[w := At(inflight, w) + 1];
      if mode == PsoAcoGa {
        SlideWindow(w, t);
      }
      ChargedOk(mode, old(State()), w, t);
    }

    /** The window of recent types slides, and an equal neighbour counts. */
    method SlideWindow(w: NodeId, t: TaskType)
      modifies `recent, `batching
      ensures var rec := Recent(old(State()), w);
        && recent == old(recent)[w := Slide(rec, t)]
        && batching == (if LastIs(rec, t) then old(batching)[w := At(old(batching), w) + 1] else old(batching))
        && Slide(rec, t) == (if |rec| < 10 then rec + [t] else rec[1..] + [t])
        && (LastIs(rec, t) <==> rec != [] && rec[|rec| - 1] == t)
    {
      var rec := if w in recent then recent[w] else [];
      if |rec| > 0 && rec[|rec| - 1] == t {
        batching := batching[w := At(batching, w) + 1];
      }
      rec := rec + [t];
      if |rec| > 10 {
        rec := rec[1..];
      }
      recent := recent[w := rec];
    }

    method OnCompleted(w: NodeId, durationSec: real)
      requires Valid()
      modifies `assignments, `inflight, `recent, `recentPerf
      ensures Valid() && State() == Released(old(State()), w)
      ensures inflight == old(inflight)[w := if At(old(inflight), w) > 1 then At(old(inflight), w) - 1 else 0]
      ensures assignments == old(assignments)[w := At(old(assignments), w)] && batching == old(batching)
      ensures recentPerf == if mode == Greedy then old(recentPerf) else SlidePerf(old(recentPerf), durationSec)
      ensures mode != Greedy ==>
        recentPerf == (if |old(recentPerf)| < 20 then old(recentPerf) else old(recentPerf)[1..]) + [durationSec]
    {
      hide CountersOk, TrailsOk, LawsOk, G.ParamsOk, Ensured;
      ghost var before := State();
      EnsureNode(w);
      assert State() == Ensured(before, w);
      EnsuredHas(before, w);
      ReleasedOk(before, w);
      ReleasedCounts(before, w);
      var left := inflight[w] - 1;
      if left <= 0 {
        left := 0;
      }
      inflight := inflight[w := left];
      assert State() == Released(before, w);
      RecordPerf(durationSec);
    }

    method RecordPerf(durationSec: real)
      modifies `recentPerf
      ensures recentPerf == if mode == Greedy then old(recentPerf) else SlidePerf(old(recentPerf), durationSec)
      ensures mode != Greedy ==>
        recentPerf == (if |old(recentPerf)| < 20 then old(recentPerf) else old(recentPerf)[1..]) + [durationSec]
    {
      if mode != Greedy {
        recentPerf := recentPerf + [durationSec];
        if |recentPerf| > 20 {
          recentPerf := recentPerf[1..];
        }
      }
    }

    // ---- trails ----

    method GetPheromone(t: TaskType, w: NodeId) returns (v: Float)
      requires Valid()
      modifies `pheromone
      ensures Valid() && v == TrailAt(old(pheromone), t, w) && TrailOk(v)
      ensures pheromone == TrailSet(old(pheromone), t, w, v)
    {
      hide CountersOk, LawsOk, G.ParamsOk, TrailsOk, TrailOk;
      TrailAtOk(pheromone, t, w);
      TrailSetOk(pheromone, t, w, TrailAt(pheromone, t, w));
      if t !in pheromone {
        pheromone := pheromone[t := map[]];
      }
      if w in pheromone[t] {
        v := pheromone[t][w];
        SameTrail(pheromone, t, w);
        return;
      }
      var trail: map<NodeId, Float> := pheromone[t];
      trail := trail[w := Num(1.0)];
      pheromone := pheromone[t := trail];
      v := Num(1.0);
      assert pheromone == TrailSet(old(pheromone), t, w, Num(1.0));
    }

    /** Any value is stored as it is. */
    method SetPheromone(t: TaskType, w: NodeId, v: Float)
      modifies `pheromone
      ensures pheromone == TrailSet(old(pheromone), t, w, v)
      ensures old(Valid()) && TrailOk(v) ==> Valid()
    {
      hide CountersOk, LawsOk, G.ParamsOk, TrailsOk, TrailOk;
      if TrailsOk(pheromone) && TrailOk(v) {
        TrailSetOk(pheromone, t, w, v);
      }
      if t !in pheromone {
        pheromone := pheromone[t := map[]];
      }
      var trail: map<NodeId, Float> := pheromone[t];
      trail := trail[w := v];
      pheromone := pheromone[t := trail];
      assert pheromone == TrailSet(old(pheromone), t, w, v);
    }

    method Damp(w: NodeId, updated: Float) returns (v: Float)
      requires Counts(assignments)
      ensures v == Damped(assignments, w, updated)
    {
      hide AntiBias, Counts, Times, Greater;
      var factor := ComputeAntiBias(assignments, w);
      v := Times(updated, Num(factor));
      if Greater(v, Num(8.0)) {
        v := Num(8.0);
      }
      if Greater(Num(0.1), v) {
        v := Num(0.1);
      }
    }

    /** `updatePheromones`: each trail is damped for busy workers, put through the two tests and stored. A
        stored value is NaN exactly when the value damped is, and within [0.1, 8] exactly when it is not. */
    method UpdatePheromones(t: TaskType, cands: seq<Cand>, updated: seq<Float>)
      requires Valid() && |updated| == |cands| && Counts(assignments)
      modifies `pheromone
      ensures Valid()
      ensures pheromone ==
              TrailsStored(old(pheromone), t, NamesOf(cands), DampedList(assignments, NamesOf(cands), updated))
      ensures forall i :: 0 <= i < |cands| ==>
        var w := cands[i].member.name;
        && (Stored(Damped(assignments, w, updated[i])) <==> Times(updated[i], Num(AntiBias(assignments, w))) != NaN)
        && (Damped(assignments, w, updated[i]) == NaN <==> Times(updated[i], Num(AntiBias(assignments, w))) == NaN)
    {
      hide CountersOk, LawsOk, G.ParamsOk, TrailsOk, TrailOk, Damped, Counts, TrailSet, Stored, AntiBias;
      ghost var names := NamesOf(cands);
      ghost var values := DampedList(assignments, names, updated);
      for i := 0 to |cands|
        invariant Valid() && pheromone == TrailsStored(old(pheromone), t, names[..i], values[..i])
      {
        var v := Damp(cands[i].member.name, updated[i]);
        DampedIsOk(assignments, cands[i].member.name, updated[i]);
        SetPheromone(t, cands[i].member.name, v);
        TrailsStoredStep(old(pheromone), t, names, values, i);
        assert names[i] == cands[i].member.name && values[i] == v;
      }
      assert names[..|names|] == names && values[..|names|] == values;
      forall i | 0 <= i < |cands|
        ensures var w := cands[i].member.name;
          && (Stored(Damped(assignments, w, updated[i])) <==> Times(updated[i], Num(AntiBias(assignments, w))) != NaN)
          && (Damped(assignments, w, updated[i]) == NaN <==> Times(updated[i], Num(AntiBias(assignments, w))) == NaN)
      {
        DampedIsOk(assignments, cands[i].member.name, updated[i]);
      }
    }

    // ---- small measures ----

    /** `batchingBonus` */
    method BatchingBonus(t: TaskType, w: NodeId) returns (bonus: real)
      requires Valid()
      ensures bonus == Bonus(t, Recent(State(), w)) && 0.0 <= bonus <= 0.8
      ensures var alike := if w in recent then multiset(recent[w])[t] else 0;
        bonus == if alike <= 3 then 0.25 * alike as real else 0.8
    {
      hide CountersOk, LawsOk, G.ParamsOk, TrailsOk;
      var rec := if w in recent then recent[w] else [];
      if |rec| == 0 {
        return 0.0;
      }
      var count := 0;
      for i := 0 to |rec|
        invariant 0 <= count == OccurrencesOf(t, rec[..i])
      {
        assert rec[..i + 1] == rec[..i] + [rec[i]];
        if rec[i] == t {
          count := count + 1;
        }
      }
      assert rec[..|rec|] == rec;
      bonus := count as real / 4.0;
      if bonus > 0.8 {
        bonus := 0.8;
      }
    }

    /** `UpdateParams`: the parameters are those of the first individual of the last of eighteen generations. */
    method UpdateParams() returns (ghost seeds: seq<real>, ghost hist: seq<seq<G.Breeding>>)
      requires Valid()
      modifies `alpha, `beta, `rho, rng
      ensures Valid() && G.ParamsOk(alpha, beta, rho)
      ensures G.IsHistory(seeds, hist) && rng.log == old(rng.log) + seeds + G.HistoryLog(hist)
      ensures var best := G.Evolved(G.Seeded(seeds), hist)[0];
        && alpha == best[0] && beta == best[1]
        && rho == if Variance(inflight) > 0.5 then Min(0.4, best[2] + 0.05) else best[2]
    {
      hide CountersOk, LawsOk, TrailsOk, G.Evolved, G.Seeded, G.HistoryLog, G.IsHistory;
      InflightCounts(State());
      var variance := LoadVariance(inflight);
      var bias, hi, lo := BiasRatio(inflight);
      var avgScore := 1.0;
      if |recentPerf| > 0 {
        var sum := 0.0;
        for i := 0 to |recentPerf| {
          sum := sum + recentPerf[i];
        }
        avgScore := sum / |recentPerf| as real;
      }
      alpha, beta, rho, seeds, hist := G.UpdateParams(rng, avgScore, variance, bias);
    }

    // ---- one schedule per mode; each returns a position in the list of candidates ----

    method ScheduleGreedy(estimated: real, cands: seq<Cand>) returns (best: nat, ghost scores: seq<real>)
      requires cands != [] && CandsOk(cands)
      ensures |scores| == |cands| && IsFirstMax(scores, best)
      ensures best < |cands|
      ensures forall k :: 0 <= k < |cands| ==>
        var x := Max(0.000001, estimated / cands[best].speed) * cands[best].projected;
        var y := Max(0.000001, estimated / cands[k].speed) * cands[k].projected;
        if k < best then x < y else x <= y
      ensures forall k :: 0 <= k < |cands| ==> scores[k] == GreedyScore(estimated, cands[k])
    {
      hide GreedyScore, Max;
      var values: seq<real> := [];
      for i := 0 to |cands|
        invariant |values| == i && forall k :: 0 <= k < i ==> values[k] == GreedyScore(estimated, cands[k])
      {
        values := values + [GreedyScore(estimated, cands[i])];
      }
      best := Argmax(values);
      scores := values;
      forall k | 0 <= k < |cands|
        ensures var x := Max(0.000001, estimated / cands[best].speed) * cands[best].projected;
          var y := Max(0.000001, estimated / cands[k].speed) * cands[k].projected;
          if k < best then x < y else x <= y
      {
        GreedyBeats(estimated, cands, values, best, k);
      }
    }

    method SchedulePso(estimated: real, cands: seq<Cand>)
      returns (best: nat, ghost scores: seq<real>, ghost visits: seq<nat>, ghost starts: seq<S.Pair>,
               ghost pulls: seq<S.Pair>)
      requires cands != [] && CandsOk(cands)
      modifies rng
      ensures best < |cands| == |scores| && forall k :: 0 <= k < |cands| ==> scores[k] == PsoScore(estimated, cands[k])
      ensures S.IsBestVisit(scores, visits, best)
      ensures |starts| == S.SWARM && |pulls| == S.SWARM * S.FLIGHTS && visits == S.Explored(scores, starts, pulls)
      ensures rng.log == old(rng.log) + S.PairLog(starts) + S.PairLog(pulls)
    {
      hide PsoScore, S.IsBestVisit, S.Explored, S.PairLog, S.PairsOk;
      var values: seq<real> := [];
      for i := 0 to |cands|
        invariant |values| == i && forall k :: 0 <= k < i ==> values[k] == PsoScore(estimated, cands[k])
      {
        values := values + [PsoScore(estimated, cands[i])];
      }
      scores := values;
      best, visits, starts, pulls := S.PsoSearch(rng, values);
    }

    method ScheduleGa(estimated: real, cands: seq<Cand>)
      returns (best: nat, ghost scores: seq<real>, ghost visits: seq<nat>, ghost first: seq<nat>,
               ghost gens: seq<seq<S.Birth>>)
      requires cands != [] && CandsOk(cands)
      modifies rng
      ensures best < |cands| == |scores| && forall k :: 0 <= k < |cands| ==> scores[k] == GaScore(estimated, cands[k])
      ensures IsFirstBest(scores, visits, best)
      ensures |first| == S.GA_POP && |gens| == S.GA_GENERATIONS && S.GenerationsOk(gens, |cands|)
      ensures visits == S.Scored(first, gens, |cands|)
      ensures rng.log == old(rng.log) + S.Reals(first) + S.GenerationLog(gens)
    {
      hide GaScore, IsFirstBest, S.GenerationsOk, S.Scored, S.Reals, S.GenerationLog;
      var values: seq<real> := [];
      for i := 0 to |cands|
        invariant |values| == i && forall k :: 0 <= k < i ==> values[k] == GaScore(estimated, cands[k])
      {
        values := values + [GaScore(estimated, cands[i])];
      }
      scores := values;
      best, visits, first, gens := S.GaSearch(rng, values);
    }

    /** Stores one trail per candidate. */
    method StoreTrails(t: TaskType, cands: seq<Cand>, stored: seq<real>)
      requires Valid() && |stored| == |cands| && AllIn(stored, C.MIN_TRAIL, C.MAX_TRAIL)
      modifies `pheromone
      ensures Valid() && pheromone == TrailsStored(old(pheromone), t, NamesOf(cands), Nums(stored))
    {
      hide CountersOk, LawsOk, G.ParamsOk, TrailsOk, TrailSet;
      ghost var names, values := NamesOf(cands), Nums(stored);
      for i := 0 to |cands|
        invariant Valid() && pheromone == TrailsStored(old(pheromone), t, names[..i], values[..i])
      {
        SetPheromone(t, cands[i].member.name, Num(stored[i]));
        TrailsStoredStep(old(pheromone), t, names, values, i);
        assert names[i] == cands[i].member.name && values[i] == Num(stored[i]);
      }
      assert names[..|names|] == names && values[..|names|] == values;
    }

    /** `scheduleACO` */
    method ScheduleAco(t: TaskType, estimated: real, cands: seq<Cand>)
    returns (best: nat, ghost scores: seq<real>, ghost rounds: seq<seq<real>>, ghost stored: seq<real>)
      requires Valid() && cands != [] && CandsOk(cands)
      modifies `pheromone, rng
      ensures Valid() && best < |cands| == |scores| == |stored|
      ensures forall k :: 0 <= k < |cands| ==> scores[k] == AcoScore(estimated, cands[k])
      ensures A.AreRounds(rounds, C.SEARCH_ROUNDS, C.SEARCH_ANTS)
      ensures forall max :: C.IsMax(scores, max) ==>
        max > 0.0 && A.IsSearchResult(C.SearchColony(pow, scores, max), scores, rounds, best, stored)
      ensures pheromone == TrailsStored(old(pheromone), t, NamesOf(cands), Nums(stored))
      ensures rng.log == old(rng.log) + Flat(rounds)
    {
      hide Flat;
      hide CountersOk, G.ParamsOk, TrailsOk, AcoScore, A.AreRounds, A.IsSearchResult, TrailsStored;
      var values: seq<real> := [];
      for i := 0 to |cands|
        invariant |values| == i && Positive(values) && forall k :: 0 <= k < i ==>
          values[k] == AcoScore(estimated, cands[k])
        invariant Valid() && pheromone == old(pheromone) && rng.log == old(rng.log)
      {
        AcoScorePositive(estimated, cands[i]);
        values := values + [AcoScore(estimated, cands[i])];
      }
      var trail;
      best, trail, rounds := A.AcoSearch(rng, pow, values);
      scores, stored := values, trail;
      ClampedTrail(pow, values, rounds, best, trail);
      StoreTrails(t, cands, trail);
    }

    /** `scheduleEcoTaskOpt`: the second candidate whenever there is one, and parameters that drift. Its
        ants only feed a local trail that is never read again, and are left out. */
    method ScheduleEco(estimated: real, cands: seq<Cand>) returns (best: nat)
      requires Valid() && cands != [] && CandsOk(cands)
      modifies `alpha, `beta, rng
      ensures best == 1 % |cands|
      ensures alpha == old(alpha) * (1.0 + 0.12 * (1.0 - Variance(inflight)))
      ensures beta == old(beta) * (1.0 + 0.08 * (1.0 - Variance(inflight)))
    {
      hide CountersOk, TrailsOk, Variance, Predicted;
      var variance := LoadVariance(inflight);
      var scores: seq<real> := [];
      for i := 0 to |cands|
        invariant |scores| == i
      {
        var predicted := Predicted(estimated, cands[i]);
        var energy := predicted * 0.9 + predicted * 0.4;
        var makespan := predicted + At(inflight, cands[i].member.name) as real;
        scores := scores + [0.5 * energy + 0.3 * makespan + 0.2 * variance];
      }
      best := S.EcoSearch(rng, exp, scores);
      var deltaF := 1.0 - variance;
      alpha := alpha * (1.0 + 0.12 * deltaF);
      beta := beta * (1.0 + 0.08 * deltaF);
    }

    // ---- the hybrid modes ----

    predicate UsesPso() { mode != PsoAcoGaNoPso && !ablatePso }

    /** The stored trails of the candidates; reading one that was never laid lays it at 1. */
    method ReadTrails(t: TaskType, cands: seq<Cand>) returns (pher: seq<Float>)
      requires Valid()
      modifies `pheromone
      ensures Valid() && SameTrails(pheromone, old(pheromone)) && |pher| == |cands|
      ensures forall i :: 0 <= i < |cands| ==>
        pher[i] == TrailAt(old(pheromone), t, cands[i].member.name) && TrailOk(pher[i])
    {
      hide CountersOk, LawsOk, G.ParamsOk, TrailsOk, TrailSet, TrailAt, TrailOk;
      pher := [];
      for i := 0 to |cands|
        invariant Valid() && SameTrails(pheromone, old(pheromone)) && |pher| == i
        invariant forall k :: 0 <= k < i ==>
          pher[k] == TrailAt(old(pheromone), t, cands[k].member.name) && TrailOk(pher[k])
      {
        TouchedTrail(pheromone, t, cands[i].member.name);
        var v := GetPheromone(t, cands[i].member.name);
        pher := pher + [v];
      }
    }

    /** The trails the ants start from: the stored ones lifted by the swarm's prior, or 2 without it. */
    method WarmStart(pher: seq<Float>, scores: seq<Float>)
      returns (start: seq<Float>, ghost boost: seq<real>, ghost d: P.Draws)
      requires |pher| == |scores| > 0 && forall i :: 0 <= i < |pher| ==> TrailOk(pher[i])
      modifies rng
      ensures |start| == |boost| == |pher| && AllIn(boost, 0.0, 1.716)
      ensures forall i :: 0 <= i < |pher| ==> start[i] == Warmed(UsesPso(), pher[i], boost[i])
      ensures UsesPso() ==> P.DrawsOk(|scores|, d) && boost == P.Prior(PriorScores(scores), d)
      ensures rng.log == old(rng.log) + if UsesPso() then P.DrawLog(|scores|, d) else []
    {
      hide P.DrawsOk, P.DrawLog;
      start := pher;
      if UsesPso() {
        var lift;
        lift, d := P.PsoPrior(rng, PriorScores(scores));
        boost := lift;
        for i := 0 to |pher|
          invariant |start| == |pher|
          invariant forall k :: 0 <= k < i ==> start[k] == Warmed(true, pher[k], boost[k])
          invariant forall k :: i <= k < |pher| ==> start[k] == pher[k]
        {
          start := start[i := Plus(start[i], Num(lift[i] * 1.25))];
        }
      } else {
        boost, d := seq(|pher|, _ => 0.0), P.Draws([], [], [], [], []);
        for i := 0 to |pher|
          invariant |start| == |pher| && forall k :: 0 <= k < i ==> start[k] == Num(2.0)
        {
          start := start[i := Num(2.0)];
        }
      }
    }

    method Bonuses(t: TaskType, cands: seq<Cand>) returns (bonuses: seq<real>)
      requires Valid()
      ensures bonuses == BonusList(State(), t, cands) && C.BonusesOk(bonuses)
    {
      hide Valid, Bonus;
      bonuses := [];
      for i := 0 to |cands|
        invariant |bonuses| == i && C.BonusesOk(bonuses)
        invariant forall k :: 0 <= k < i ==> bonuses[k] == 1.0 + Bonus(t, Recent(State(), cands[k].member.name))
      {
        var b := BatchingBonus(t, cands[i].member.name);
        bonuses := bonuses + [1.0 + b];
      }
    }

    /** First part of `schedulePSOACOGA`: scores and warm trails. */
    method PrepareHybrid(t: TaskType, cands: seq<Cand>, factors: Cand -> Factors)
    returns (scores: seq<Float>, start: seq<Float>, ghost boost: seq<real>, ghost d: P.Draws)
      requires Valid() && cands != []
      modifies `pheromone, rng
      ensures Valid() && SameTrails(pheromone, old(pheromone)) && |scores| == |start| == |cands|
      ensures ScoredFor(pow, scores, cands, factors, t, old(pheromone))
      ensures WarmedFor(UsesPso(), boost, start, cands, t, old(pheromone))
      ensures UsesPso() ==> P.DrawsOk(|cands|, d) && boost == P.Prior(PriorScores(scores), d)
      ensures rng.log == old(rng.log) + if UsesPso() then P.DrawLog(|cands|, d) else []
    {
      hide CountersOk, LawsOk, G.ParamsOk, TrailsOk, TrailAt, SameTrails, TrailOk, Warmed, Score;
      hide P.DrawsOk, P.DrawLog, P.Prior;
      var pher := ReadTrails(t, cands);
      scores := [];
      for i := 0 to |cands|
        invariant |scores| == i
        invariant forall k :: 0 <= k < i ==> scores[k] == Score(pow, factors(cands[k]), cands[k].projected, pher[k])
      {
        scores := scores + [Score(pow, factors(cands[i]), cands[i].projected, pher[i])];
      }
      start, boost, d := WarmStart(pher, scores);
    }

    /** Last part of `schedulePSOACOGA`: the trails are stored, and the parameters retuned every fifth
        assignment. */
    method FinishHybrid(t: TaskType, cands: seq<Cand>, updated: seq<Float>)
      returns (ghost seeds: seq<real>, ghost hist: seq<seq<G.Breeding>>)
      requires Valid() && mode != EcoTaskOpt && Counts(assignments) && |updated| == |cands|
      modifies `pheromone, `alpha, `beta, `rho, rng
      ensures Valid()
      ensures pheromone ==
              TrailsStored(old(pheromone), t, NamesOf(cands), DampedList(assignments, NamesOf(cands), updated))
      ensures mode == PsoAcoGaNoGa || MapSums.Total(assignments) % 5 != 0 ==>
        alpha == old(alpha) && beta == old(beta) && rho == old(rho) && rng.log == old(rng.log)
      ensures mode != PsoAcoGaNoGa && MapSums.Total(assignments) % 5 == 0 ==>
        && G.IsHistory(seeds, hist) && rng.log == old(rng.log) + seeds + G.HistoryLog(hist)
        && var best := G.Evolved(G.Seeded(seeds), hist)[0];
          && alpha == best[0] && beta == best[1]
          && rho == if Variance(inflight) > 0.5 then Min(0.4, best[2] + 0.05) else best[2]
    {
      hide CountersOk, LawsOk, G.ParamsOk, TrailsOk, TrailsStored, Damped, G.Evolved, G.Seeded, G.HistoryLog,
        G.IsHistory, Variance;
      seeds, hist := [], [];
      UpdatePheromones(t, cands, updated);
      var total := TotalAssigned(assignments);
      if mode != PsoAcoGaNoGa && total % 5 == 0 {
        seeds, hist := UpdateParams();
      }
    }

    /** `schedulePSOACOGA`, given the finite or infinite other factors of the score: whatever is drawn and
        learned, the first candidate is chosen. The trails it leaves are exactly those of the ants, damped;
        TrailsLeft says which of them are in range. */
    method ScheduleHybrid(t: TaskType, cands: seq<Cand>, factors: Cand -> Factors)
    returns (best: nat, ghost scores: seq<Float>, ghost start: seq<Float>, ghost updated: seq<Float>,
               ghost rounds: seq<seq<real>>, ghost boost: seq<real>, ghost d: P.Draws,
               ghost seeds: seq<real>, ghost hist: seq<seq<G.Breeding>>)
      requires Valid() && mode != EcoTaskOpt && cands != [] && CandsOk(cands) && Counts(assignments)
      modifies `pheromone, `alpha, `beta, `rho, rng
      ensures Valid() && best == 0
      ensures |scores| == |start| == |updated| == |cands| && ScoredFor(pow, scores, cands, factors, t, old(pheromone))
      ensures UsesPso() ==> BoostsFrom(pow, cands, factors, t, old(pheromone), boost, d)
      ensures var retuned := mode != PsoAcoGaNoGa && MapSums.Total(assignments) % 5 == 0;
        && (retuned ==> G.IsHistory(seeds, hist))
        && rng.log == old(rng.log) + (if UsesPso() then P.DrawLog(|cands|, d) else []) + Flat(rounds)
          + if retuned then seeds + G.HistoryLog(hist) else []
      ensures |boost| == |cands| && forall i :: 0 <= i < |cands| ==>
        var trail := TrailAt(old(pheromone), t, cands[i].member.name);
        start[i] ==
          if !UsesPso() then Num(2.0) else if trail.Num? then Num(trail.value + 1.25 * boost[i]) else NaN
      ensures TrailsWorth(cands, t, UsesPso(), boost, 1.0 - old(rho), assignments,
        FirstScore(pow, cands, factors, t, old(pheromone)) == NaN, old(pheromone), pheromone)
      ensures A.AreRounds(rounds, C.ACO_ROUNDS, C.ANTS)
      ensures updated == F.Rounds(
        F.Pick(pow, old(alpha), old(beta), old(rho), scores, BonusList(old(State()), t, cands)), start, rounds)
      ensures SameTrails(pheromone,
        TrailsStored(old(pheromone), t, NamesOf(cands), DampedList(assignments, NamesOf(cands), updated)))
      ensures TrailsLeft(pow, cands, factors, t, UsesPso(), old(pheromone), pheromone, cands[0].projected == 1.0)
      ensures mode == PsoAcoGaNoGa || MapSums.Total(assignments) % 5 != 0 ==>
        alpha == old(alpha) && beta == old(beta) && rho == old(rho)
      ensures mode != PsoAcoGaNoGa && MapSums.Total(assignments) % 5 == 0 ==>
        var best := G.Evolved(G.Seeded(seeds), hist)[0];
        && alpha == best[0] && beta == best[1]
        && rho == if Variance(inflight) > 0.5 then Min(0.4, best[2] + 0.05) else best[2]
    {
      hide G.Evolved, G.Seeded, G.HistoryLog, G.IsHistory, Variance, Flat, BoostsFrom;
      hide Valid, TrailAt, TrailSet, TrailsStored, A.AreRounds, F.Rounds, SameTrails, Damped, DampedList, Bonus, Counts,
        ScoredFor, WarmedFor, CandsOk, TrailsLeft, BestIndex, TrailsWorth, FirstScore, P.DrawsOk, P.DrawLog, P.Prior;
      var index, trail;
      index, trail, scores, start, rounds, boost, d := RunAnts(t, cands, factors);
      best, updated := index, trail;
      ghost var names := NamesOf(cands);
      ghost var values := DampedList(assignments, names, trail);
      StoredAlike(pheromone, old(pheromone), t, names, values);
      seeds, hist := FinishHybrid(t, cands, trail);
      TrailsLeftAlike(pow, cands, factors, t, UsesPso(), old(pheromone), TrailsStored(old(pheromone), t, names, values),
        pheromone, cands[0].projected == 1.0);
      TrailsWorthAlike(cands, t, UsesPso(), boost, 1.0 - old(rho), assignments,
        FirstScore(pow, cands, factors, t, old(pheromone)) == NaN, old(pheromone),
        TrailsStored(old(pheromone), t, names, values), pheromone);
    }

    /** Scores, warm trails and the ants: everything but storing what they leave. */
    method RunAnts(t: TaskType, cands: seq<Cand>, factors: Cand -> Factors)
    returns (best: nat, updated: seq<Float>, ghost scores: seq<Float>, ghost start: seq<Float>,
               ghost rounds: seq<seq<real>>, ghost boost: seq<real>, ghost d: P.Draws)
      requires Valid() && mode != EcoTaskOpt && cands != [] && CandsOk(cands) && Counts(assignments)
      modifies `pheromone, rng
      ensures Valid() && best == 0 && SameTrails(pheromone, old(pheromone))
      ensures |scores| == |start| == |updated| == |cands| && ScoredFor(pow, scores, cands, factors, t, old(pheromone))
      ensures UsesPso() ==> BoostsFrom(pow, cands, factors, t, old(pheromone), boost, d)
      ensures rng.log == old(rng.log) + (if UsesPso() then P.DrawLog(|cands|, d) else []) + Flat(rounds)
      ensures |boost| == |cands| && forall i :: 0 <= i < |cands| ==>
        var trail := TrailAt(old(pheromone), t, cands[i].member.name);
        start[i] ==
          if !UsesPso() then Num(2.0) else if trail.Num? then Num(trail.value + 1.25 * boost[i]) else NaN
      ensures A.AreRounds(rounds, C.ACO_ROUNDS, C.ANTS)
      ensures updated == F.Rounds(F.Pick(pow, alpha, beta, rho, scores, BonusList(State(), t, cands)), start, rounds)
      ensures var after := TrailsStored(old(pheromone), t, NamesOf(cands),
          DampedList(assignments, NamesOf(cands), updated));
        && TrailsLeft(pow, cands, factors, t, UsesPso(), old(pheromone), after, cands[0].projected == 1.0)
        && TrailsWorth(cands, t, UsesPso(), boost, 1.0 - rho, assignments,
          FirstScore(pow, cands, factors, t, old(pheromone)) == NaN, old(pheromone), after)
    {
      hide Valid, TrailAt, TrailSet, TrailsStored, A.AreRounds, F.Rounds, SameTrails, Damped, DampedList, Bonus, Counts,
        ScoredFor, WarmedFor, CandsOk, TrailsLeft, BestIndex, TrailsWorth, FirstScore, P.DrawsOk, P.DrawLog, P.Prior,
        Flat;
      ValidParts();
      var values, warm;
      values, warm, boost, d := PrepareHybrid(t, cands, factors);
      StartsAt(UsesPso(), boost, warm, cands, t, old(pheromone));
      ScoresAreList(pow, values, cands, factors, t, old(pheromone));
      var bonuses := Bonuses(t, cands);
      ghost var p := F.Pick(pow, alpha, beta, rho, values, bonuses);
      var index;
      index, updated, rounds := A.AcoPick(rng, F.Pick(pow, alpha, beta, rho, values, bonuses), warm);
      HybridPick(p, cands, factors, t, old(pheromone), UsesPso(), boost, warm);
      HybridLeaves(p, cands, factors, t, old(pheromone), UsesPso(), boost, warm, rounds, assignments);
      HybridWorth(p, cands, factors, t, old(pheromone), UsesPso(), boost, warm, rounds, assignments);
      best, scores, start := index, values, warm;
    }

    lemma ValidParts()
      requires Valid() && mode != EcoTaskOpt
      ensures PowerLaws(pow) && G.ParamsOk(alpha, beta, rho) && TrailsOk(pheromone)
    {
    }

    // ---- the entry point ----

    /** `BestWorkerForTaskLocked`: nobody exactly when no member is alive, of type milkv, not busy and with
        enough free memory, otherwise such a member, and in every mode the counters stay as they are. The
        position k counts the eligible members in order: Greedy takes the first of least predicted time times
        load, the hybrid modes the first of all, EcoTaskOpt the second if there is one. */
    method BestWorkerForTaskLocked(task: Task, members: seq<Member>, factors: Cand -> Factors)
      returns (best: Option<Member>, ghost k: nat, ghost boost: seq<real>, ghost d: P.Draws,
               ghost how: Search)
      requires Valid()
      modifies `pheromone, `alpha, `beta, `rho, rng
      ensures Valid() && State() == old(State())
      ensures best.Some? <==>
        exists m :: m in members && m.alive && m.tags.isMilkv && m.tags.status != Some("busy") &&
          m.tags.freeMemory.Number? && m.tags.freeMemory.value >= task.memoryUsage
      ensures var p := Positions(members, task.memoryUsage);
        best.Some? ==> k < |p| && best == Some(members[p[k]]) && Eligible(best.value, task.memoryUsage)
      ensures best.Some? ==>
        ChosenWell(mode, members, task.memoryUsage, task.estimatedProcessTime, inflight, speed, k)
      ensures best.Some? && mode == Greedy ==>
        var i := Positions(members, task.memoryUsage)[k];
        forall j :: 0 <= j < |members| && Eligible(members[j], task.memoryUsage) ==>
          var v, w := members[i].name, members[j].name;
          var x := Max(0.000001, task.estimatedProcessTime / speed(v)) * (At(inflight, v) + 1) as real;
          var y := Max(0.000001, task.estimatedProcessTime / speed(w)) * (At(inflight, w) + 1) as real;
          if j < i then x < y else x <= y
      ensures best.Some? && Hybrid(mode) ==> TrailsLeft(
        pow, CandList(members, task.memoryUsage, inflight, speed), factors, task.taskType, UsesPso(),
        old(pheromone), pheromone,
        At(inflight, members[Positions(members, task.memoryUsage)[0]].name) == 0)
      ensures best.Some? && Hybrid(mode) ==> HybridMakes(
        pow, CandList(members, task.memoryUsage, inflight, speed), factors, task.taskType, UsesPso(), boost, d,
        1.0 - old(rho), assignments, old(pheromone), pheromone)
      ensures best.Some? ==> FoundIn(
        mode, pow, task.estimatedProcessTime, CandList(members, task.memoryUsage, inflight, speed), how, k)
      ensures best.Some? && (mode == Pso || mode == Ga || mode == Aco) ==> rng.log == old(rng.log) + SearchLog(how)
    {
      hide CountersOk, TrailsOk, G.ParamsOk, SpeedsOk, ChosenWell, TrailsLeft, Max, At, Eligible, Positions,
        HybridMakes, FoundIn, SearchLog;
      best, k, boost, d, how := Decide(task, members, factors);
      NobodyEligible(members, task.memoryUsage);
      if best.Some? && mode == Greedy {
        GreedyOverMembers(members, task.memoryUsage, task.estimatedProcessTime, inflight, speed, k);
      }
    }

    /** The candidates are collected, and one of them is taken. */
    method Decide(task: Task, members: seq<Member>, factors: Cand -> Factors)
        returns (best: Option<Member>, ghost k: nat, ghost boost: seq<real>, ghost d: P.Draws,
               ghost how: Search)
      requires Valid()
      modifies `pheromone, `alpha, `beta, `rho, rng
      ensures Valid() && State() == old(State())
      ensures best.None? <==> Positions(members, task.memoryUsage) == []
      ensures var p := Positions(members, task.memoryUsage);
        best.Some? ==> k < |p| && best == Some(members[p[k]]) && Eligible(best.value, task.memoryUsage)
      ensures best.Some? ==>
        ChosenWell(mode, members, task.memoryUsage, task.estimatedProcessTime, inflight, speed, k)
      ensures best.Some? && Hybrid(mode) ==> TrailsLeft(
        pow, CandList(members, task.memoryUsage, inflight, speed), factors, task.taskType, UsesPso(),
        old(pheromone), pheromone,
        At(inflight, members[Positions(members, task.memoryUsage)[0]].name) == 0)
      ensures best.Some? && Hybrid(mode) ==> HybridMakes(
        pow, CandList(members, task.memoryUsage, inflight, speed), factors, task.taskType, UsesPso(), boost, d,
        1.0 - old(rho), assignments, old(pheromone), pheromone)
      ensures best.Some? ==> FoundIn(
        mode, pow, task.estimatedProcessTime, CandList(members, task.memoryUsage, inflight, speed), how, k)
      ensures best.Some? && (mode == Pso || mode == Ga || mode == Aco) ==> rng.log == old(rng.log) + SearchLog(how)
    {
      hide CountersOk, TrailsOk, G.ParamsOk, SpeedsOk, AreCandidates, CandsOk, ChosenWell, CandOf, IsFirstMax,
        TrailsStored, SameTrails, TrailsLeft, HybridMakes, FoundBy, SearchLog;
      InflightCounts(State());
      var cands := CollectCandidates(task.memoryUsage, members, inflight, speed);
      CandidatesOk(cands, members, task.memoryUsage, inflight, speed);
      CandidatesMatch(cands, members, task.memoryUsage, inflight, speed);
      CandidatesAreList(cands, members, task.memoryUsage, inflight, speed);
      if |cands| == 0 {
        return None, 0, [], P.Draws([], [], [], [], []), NoSearch;
      }
      var index;
      index, boost, d, how := Dispatch(task, members, cands, factors);
      k := index;
      best := Some(cands[index].member);
    }

    /** The switch over the mode. */
    method Dispatch(task: Task, ghost members: seq<Member>, cands: seq<Cand>, factors: Cand -> Factors)
      returns (k: nat, ghost boost: seq<real>, ghost d: P.Draws, ghost how: Search)
      requires Valid() && Counts(assignments) && Counts(inflight) && SpeedsOk(speed) && cands != []
      requires AreCandidates(cands, members, task.memoryUsage, inflight, speed) && CandsOk(cands)
      modifies `pheromone, `alpha, `beta, `rho, rng
      ensures Valid() && k < |cands|
      ensures ChosenWell(mode, members, task.memoryUsage, task.estimatedProcessTime, inflight, speed, k)
      ensures Hybrid(mode) ==>
        TrailsLeft(pow, cands, factors, task.taskType, UsesPso(), old(pheromone), pheromone, cands[0].projected == 1.0)
      ensures Hybrid(mode) ==>
        HybridMakes(pow, cands, factors, task.taskType, UsesPso(), boost, d, 1.0 - old(rho), assignments,
          old(pheromone), pheromone)
      ensures FoundBy(mode, pow, task.estimatedProcessTime, cands, how, k)
      ensures mode == Pso || mode == Ga || mode == Aco ==> rng.log == old(rng.log) + SearchLog(how)
    {
      hide CountersOk, TrailsOk, G.ParamsOk, LawsOk, SpeedsOk, CandsOk, AreCandidates, ChosenWell, IsFirstMax,
        GreedyScore, Variance, IsGreedyChoice, FoundBy, SearchLog;
      hide TrailsStored, SameTrails, TrailsLeft, ScoredFor, F.Rounds, TrailsWorth, BoostsFrom, FirstScore, A.AreRounds,
        G.IsHistory, G.Evolved, G.Seeded, G.HistoryLog, P.DrawsOk, P.DrawLog, NamesOf, DampedList, Flat;
      ghost var scores, rounds, start, floats, updated, seeds, hist;
      boost, d, how := [], P.Draws([], [], [], [], []), NoSearch;
      match mode {
        case Greedy =>
          k, scores := ScheduleGreedy(task.estimatedProcessTime, cands);
          FirstMaxIndex(scores, k);
          CandidatesMatch(cands, members, task.memoryUsage, inflight, speed);
          GreedyMinimises(members, task.memoryUsage, task.estimatedProcessTime, inflight, speed, cands, scores, k);
          GreedyChosen(members, task.memoryUsage, task.estimatedProcessTime, inflight, speed, k);
          NotSearched(mode, pow, task.estimatedProcessTime, cands, how, k);
        case EcoTaskOpt =>
          k := ScheduleEco(task.estimatedProcessTime, cands);
          EcoChosen(cands, members, task.memoryUsage, task.estimatedProcessTime, inflight, speed, k);
          NotSearched(mode, pow, task.estimatedProcessTime, cands, how, k);
        case Pso =>
          k, how := DispatchSearch(task, cands);
          OtherChosen(mode, members, task.memoryUsage, task.estimatedProcessTime, inflight, speed, k);
        case Aco =>
          k, how := DispatchSearch(task, cands);
          OtherChosen(mode, members, task.memoryUsage, task.estimatedProcessTime, inflight, speed, k);
        case Ga =>
          k, how := DispatchSearch(task, cands);
          OtherChosen(mode, members, task.memoryUsage, task.estimatedProcessTime, inflight, speed, k);
        case _ =>
          k, floats, start, updated, rounds, boost, d, seeds, hist := ScheduleHybrid(task.taskType, cands, factors);
          HybridChosen(mode, members, task.memoryUsage, task.estimatedProcessTime, inflight, speed);
          NotSearched(mode, pow, task.estimatedProcessTime, cands, how, k);
      }
    }

    /** The three plain searches among them. */
    method DispatchSearch(task: Task, cands: seq<Cand>) returns (k: nat, ghost how: Search)
      requires Valid() && cands != [] && CandsOk(cands) && (mode == Pso || mode == Aco || mode == Ga)
      modifies `pheromone, rng
      ensures Valid() && k < |cands|
      ensures FoundBy(mode, pow, task.estimatedProcessTime, cands, how, k)
      ensures rng.log == old(rng.log) + SearchLog(how)
    {
      hide CountersOk, TrailsOk, G.ParamsOk, LawsOk, CandsOk, A.IsSearchResult, A.AreRounds, C.IsMax, C.SearchColony,
        TrailsStored, IsFirstBest, S.IsBestVisit, PsoScore, GaScore, AcoScore, S.Explored, S.PairLog, S.GenerationsOk,
        S.Scored, S.Reals, S.GenerationLog, NamesOf, Nums, Flat, FoundBy, SearchLog;
      ghost var scores, visits, rounds, stored, starts, pulls, first, gens;
      if mode == Pso {
        k, scores, visits, starts, pulls := SchedulePso(task.estimatedProcessTime, cands);
        how := Flights(starts, pulls);
        PsoFound(pow, task.estimatedProcessTime, cands, scores, visits, starts, pulls, k);
      } else if mode == Aco {
        k, scores, rounds, stored := ScheduleAco(task.taskType, task.estimatedProcessTime, cands);
        how := Walks(rounds);
        AcoFound(pow, task.estimatedProcessTime, cands, scores, rounds, stored, k);
      } else {
        k, scores, visits, first, gens := ScheduleGa(task.estimatedProcessTime, cands);
        how := Births(first, gens);
        GaFound(pow, task.estimatedProcessTime, cands, scores, visits, first, gens, k);
      }
    }
  }

  /** Where the ants start, in numbers. */
  lemma StartsAt(usesPso: bool, boost: seq<real>, start: seq<Float>, cands: seq<Cand>, t: TaskType, before: TrailMap)
    requires WarmedFor(usesPso, boost, start, cands, t, before) && TrailsOk(before)
    ensures |start| == |boost| == |cands| && forall i :: 0 <= i < |cands| ==>
      var trail := TrailAt(before, t, cands[i].member.name);
      start[i] == if !usesPso then Num(2.0) else if trail.Num? then Num(trail.value + 1.25 * boost[i]) else NaN
  {
    hide TrailAt, TrailsOk;
    forall i | 0 <= i < |cands|
      ensures var trail := TrailAt(before, t, cands[i].member.name);
        start[i] == if !usesPso then Num(2.0) else if trail.Num? then Num(trail.value + 1.25 * boost[i]) else NaN
    {
      StartOf(cands, t, before, usesPso, boost, start, i);
    }
  }

  lemma InflightCounts(c: Counters)
    requires CountersOk(c)
    ensures Counts(c.inflight) && Counts(c.assignments)
  {
  }

  lemma AcoScorePositive(estimated: real, c: Cand)
    requires GoodCand(c)
    ensures AcoScore(estimated, c) > 0.0
  {
  }

  lemma ClampedTrail(pow: Power, scores: seq<real>, rounds: seq<seq<real>>, best: nat, stored: seq<real>)
    requires scores != [] && |stored| == |scores|
    requires forall max :: C.IsMax(scores, max) ==> max > 0.0
    requires forall max :: C.IsMax(scores, max) ==>
      A.IsSearchResult(C.SearchColony(pow, scores, max), scores, rounds, best, stored)
    ensures AllIn(stored, C.MIN_TRAIL, C.MAX_TRAIL)
  {
    hide IsFirstBest, C.Rounds, C.AllChoices;
    var max := MaximumOf(scores);
    assert A.IsSearchResult(C.SearchColony(pow, scores, max), scores, rounds, best, stored);
  }

  /** Every non-empty list has a maximum. */
  lemma {:induction false} MaximumOf(s: seq<real>) returns (m: real)
    requires s != []
    ensures C.IsMax(s, m)
    decreases |s|
  {
    var n := |s| - 1;
    m := s[n];
    if n > 0 {
      var k := MaximumOf(s[..n]);
      assert k in s;
      if k > m {
        m := k;
      }
      forall i | 0 <= i < |s| ensures s[i] <= m {
        if i < n {
          assert s[i] == s[..n][i];
        }
      }
    }
  }

  lemma FirstMaxIndex(s: seq<real>, k: int)
    requires IsFirstMax(s, k)
    ensures 0 <= k < |s|
  {
  }

  /** What is promised of the k-th eligible member in each mode. */
  ghost predicate ChosenWell(mode: SchedulerMode, members: seq<Member>, need: int, estimated: real,
                             inflight: map<NodeId, int>, speed: Speeds, k: nat) {
    var p := Positions(members, need);
    k < |p| ==>
      && (mode == Greedy ==>
        SpeedsOk(speed) && Counts(inflight) && IsGreedyChoice(members, need, estimated, inflight, speed, p[k]))
      && (mode == EcoTaskOpt ==> k == 1 % |p|)
      && (Hybrid(mode) ==> k == 0)
  }

  lemma GreedyChosen(members: seq<Member>, need: int, estimated: real, inflight: map<NodeId, int>, speed: Speeds,
      k: nat)
    requires SpeedsOk(speed) && Counts(inflight) && k < |Positions(members, need)|
    requires IsGreedyChoice(members, need, estimated, inflight, speed, Positions(members, need)[k])
    ensures ChosenWell(Greedy, members, need, estimated, inflight, speed, k)
  {
    hide IsGreedyChoice, SpeedsOk, Counts, Positions;
  }

  /** Greedy's choice, written out over tags, counters and speeds. */
  lemma GreedyOverMembers(members: seq<Member>, need: int, estimated: real, inflight: map<NodeId, int>,
                          speed: Speeds, k: nat)
    requires SpeedsOk(speed) && k < |Positions(members, need)|
    requires ChosenWell(Greedy, members, need, estimated, inflight, speed, k)
    ensures var i := Positions(members, need)[k];
      forall j :: 0 <= j < |members| && Eligible(members[j], need) ==>
        var v, w := members[i].name, members[j].name;
        var x := Max(0.000001, estimated / speed(v)) * (At(inflight, v) + 1) as real;
        var y := Max(0.000001, estimated / speed(w)) * (At(inflight, w) + 1) as real;
        if j < i then x < y else x <= y
  {
    hide IsGreedyChoice, Positions, Max, At;
    var i := Positions(members, need)[k];
    forall j | 0 <= j < |members| && Eligible(members[j], need)
      ensures var v, w := members[i].name, members[j].name;
        var x := Max(0.000001, estimated / speed(v)) * (At(inflight, v) + 1) as real;
        var y := Max(0.000001, estimated / speed(w)) * (At(inflight, w) + 1) as real;
        if j < i then x < y else x <= y
    {
      GreedyChoiceMeans(members, need, estimated, inflight, speed, i, j);
    }
  }

  lemma EcoChosen(cands: seq<Cand>, members: seq<Member>, need: int, estimated: real, inflight: map<NodeId, int>,
      speed: Speeds, k: nat)
    requires AreCandidates(cands, members, need, inflight, speed) && cands != [] && k == 1 % |cands|
    ensures ChosenWell(EcoTaskOpt, members, need, estimated, inflight, speed, k)
  {
    hide Positions;
  }

  lemma OtherChosen(mode: SchedulerMode, members: seq<Member>, need: int, estimated: real, inflight: map<NodeId, int>,
      speed: Speeds, k: nat)
    requires mode == Pso || mode == Aco || mode == Ga
    ensures ChosenWell(mode, members, need, estimated, inflight, speed, k)
  {
  }

  lemma HybridChosen(mode: SchedulerMode, members: seq<Member>, need: int, estimated: real,
                     inflight: map<NodeId, int>, speed: Speeds)
    requires Hybrid(mode)
    ensures ChosenWell(mode, members, need, estimated, inflight, speed, 0)
  {
  }

  /** The candidates of these members, as a list. */
  function CandList(members: seq<Member>, need: int, inflight: map<NodeId, int>, speed: Speeds): seq<Cand> {
    var p := Positions(members, need);
    seq(|p|, k requires 0 <= k < |p| => CandOf(members[p[k]], inflight, speed))
  }

  lemma CandidatesAreList(cands: seq<Cand>, members: seq<Member>, need: int, inflight: map<NodeId, int>, speed: Speeds)
    requires AreCandidates(cands, members, need, inflight, speed)
    ensures cands == CandList(members, need, inflight, speed)
    ensures var p := Positions(members, need);
      p != [] ==> (cands[0].projected == 1.0 <==> At(inflight, members[p[0]].name) == 0)
  {
    hide Positions;
  }

  lemma NobodyEligible(members: seq<Member>, need: int)
    ensures Positions(members, need) != [] <==>
      exists m :: m in members && m.alive && m.tags.isMilkv && m.tags.status != Some("busy") &&
        m.tags.freeMemory.Number? && m.tags.freeMemory.value >= need
  {
    var p := Positions(members, need);
    if p != [] {
      assert Eligible(members[p[0]], need);
      assert members[p[0]] in members;
    }
    if m :| m in members && Eligible(m, need) {
      var i :| 0 <= i < |members| && members[i] == m;
      assert i in p;
    }
  }

  lemma CandidatesMatch(cands: seq<Cand>, members: seq<Member>, need: int, inflight: map<NodeId, int>, speed: Speeds)
    requires AreCandidates(cands, members, need, inflight, speed)
    ensures var p := Positions(members, need);
      |cands| == |p| && forall k :: 0 <= k < |p| ==> cands[k].member == members[p[k]]
  {
    hide Positions;
  }
}
