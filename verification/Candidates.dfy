/** Which members may be given a task, and the plain scores of the schedulers
    (edge-server/scheduler.go, `collectCandidates`, `ComputeBaseComponents` and the `...Score` functions). */
module Candidates {
  import opened RealSeqs
  import opened Shared
  import opened Loads

  datatype Cand = Cand(member: Member, freeMem: int, speed: real, projected: real)

  /** The fixed processing power of each worker. */
  type Speeds = NodeId -> real

  ghost predicate SpeedsOk(speed: Speeds) { forall w :: speed(w) > 0.0 }

  /** The tests of `collectCandidates`. Unlike `claimJob`, it takes a missing memory tag for an error. */
  predicate Eligible(m: Member, need: int) {
    && m.alive
    && m.tags.isMilkv
    && m.tags.status != Some("busy")
    && m.tags.freeMemory.Number? && m.tags.freeMemory.value >= need
  }

  function CandOf(m: Member, inflight: map<NodeId, int>, speed: Speeds): Cand
    requires m.tags.freeMemory.Number?
  {
    Cand(m, m.tags.freeMemory.value, speed(m.name), (At(inflight, m.name) + 1) as real)
  }

  /** Positions of the eligible members, in order. */
  function Positions(members: seq<Member>, need: int): (p: seq<nat>)
    ensures forall k :: 0 <= k < |p| ==> p[k] < |members| && Eligible(members[p[k]], need)
    ensures forall k, l :: 0 <= k < l < |p| ==> p[k] < p[l]
    ensures forall i :: 0 <= i < |members| && Eligible(members[i], need) ==> i in p
  {
    if members == [] then []
    else
      var n := |members| - 1;
      var p := Positions(members[..n], need);
      assert forall i :: 0 <= i < n ==> members[..n][i] == members[i];
      if Eligible(members[n], need) then p + [n] else p
  }

  /** `collectCandidates` */
  method CollectCandidates(need: int, members: seq<Member>, inflight: map<NodeId, int>, speed: Speeds)
    returns (cands: seq<Cand>)
    ensures AreCandidates(cands, members, need, inflight, speed)
    ensures var p := Positions(members, need);
      |cands| == |p| && forall k :: 0 <= k < |p| ==>
        var c, m := cands[k], members[p[k]];
        && c.member == m && m.tags.freeMemory == Number(c.freeMem) && c.freeMem >= need
        && c.speed == speed(m.name)
        && c.projected == (if m.name in inflight then inflight[m.name] + 1 else 1) as real
  {
    cands := [];
    assert members[..0] == [];
    for i := 0 to |members|
      invariant var p := Positions(members[..i], need);
        && |cands| == |p|
        && forall k :: 0 <= k < |p| ==> cands[k] == CandOf(members[p[k]], inflight, speed)
    {
      var m := members[i];
      PositionsStep(members, need, i);
      if Eligible(m, need) {
        cands := cands + [CandOf(m, inflight, speed)];
      }
    }
    assert members[..|members|] == members;
  }

  lemma PositionsStep(members: seq<Member>, need: int, i: nat)
    requires i < |members|
    ensures Positions(members[..i + 1], need) ==
            Positions(members[..i], need) + if Eligible(members[i], need) then [i] else []
  {
    assert members[..i + 1][..i] == members[..i];
  }

  // ---- scores ----

  predicate GoodCand(c: Cand) { c.speed > 0.0 && c.projected >= 1.0 }

  function Predicted(estimated: real, c: Cand): (p: real)
    requires GoodCand(c)
    ensures p >= 0.000001
  {
    Max(0.000001, estimated / c.speed)
  }

  /** Predicted time times load: what Greedy minimises. */
  function Cost(estimated: real, c: Cand): (r: real)
    requires GoodCand(c)
    ensures r > 0.0
  {
    Predicted(estimated, c) * c.projected
  }

  function GreedyScore(estimated: real, c: Cand): real
    requires GoodCand(c)
  {
    1.0 / Cost(estimated, c)
  }

  function PsoScore(estimated: real, c: Cand): real
    requires GoodCand(c)
  {
    var predicted := Predicted(estimated, c);
    c.speed / predicted * (1.0 / (1.0 + c.projected)) * 0.7 + (1.0 - predicted * 0.9 / 100.0) * 0.3
  }

  function AcoScore(estimated: real, c: Cand): real
    requires GoodCand(c)
  {
    1.0 / (Predicted(estimated, c) + c.projected * 0.5)
  }

  function GaScore(estimated: real, c: Cand): real
    requires GoodCand(c)
  {
    var predicted := Predicted(estimated, c);
    1.0 / (0.5 * predicted + 0.3 * (predicted * 0.9) + 0.2 * c.projected)
  }

  /** The predicted time never counts for less than a microsecond. */
  lemma PredictedIs(estimated: real, c: Cand)
    requires GoodCand(c)
    ensures estimated >= 0.000001 * c.speed ==> Predicted(estimated, c) * c.speed == estimated
    ensures estimated < 0.000001 * c.speed ==> Predicted(estimated, c) == 0.000001
  {
    assert estimated / c.speed * c.speed == estimated;
    FactorOrder(c.speed, 0.000001, estimated / c.speed);
  }

  /** The scores over predicted time and load, turned round to be free of fractions. */
  lemma ScoresAre(estimated: real, c: Cand)
    requires GoodCand(c)
    ensures var p := Predicted(estimated, c);
      && GreedyScore(estimated, c) * (p * c.projected) == 1.0
      && AcoScore(estimated, c) * (p + 0.5 * c.projected) == 1.0
      && GaScore(estimated, c) * (0.77 * p + 0.2 * c.projected) == 1.0
  {
    hide Predicted;
  }

  lemma PsoScoreIs(estimated: real, c: Cand)
    requires GoodCand(c)
    ensures var p := Predicted(estimated, c);
      PsoScore(estimated, c) == 0.7 * (c.speed / p * (1.0 / (1.0 + c.projected))) + 0.3 - 0.0027 * p
  {
    hide Predicted;
  }

  /** Of two equally fast candidates every score prefers the less loaded. */
  lemma ScoresPreferIdle(estimated: real, c: Cand, d: Cand)
    requires GoodCand(c) && GoodCand(d) && c.speed == d.speed && c.projected < d.projected
    ensures AcoScore(estimated, c) > AcoScore(estimated, d) && GaScore(estimated, c) > GaScore(estimated, d)
    ensures PsoScore(estimated, c) > PsoScore(estimated, d)
  {
    hide Predicted;
    var p := Predicted(estimated, c);
    SamePrediction(estimated, c, d);
    ReciprocalReverses(p + d.projected * 0.5, p + c.projected * 0.5);
    ReciprocalReverses(0.5 * p + 0.3 * (p * 0.9) + 0.2 * d.projected, 0.5 * p + 0.3 * (p * 0.9) + 0.2 * c.projected);
    PsoPrefersIdle(estimated, c, d);
  }

  lemma PsoPrefersIdle(estimated: real, c: Cand, d: Cand)
    requires GoodCand(c) && GoodCand(d) && c.speed == d.speed && c.projected < d.projected
    ensures PsoScore(estimated, c) > PsoScore(estimated, d)
  {
    hide Predicted;
    SamePrediction(estimated, c, d);
    var q := c.speed / Predicted(estimated, c);
    ReciprocalReverses(1.0 + d.projected, 1.0 + c.projected);
    QuotientSign(c.speed, Predicted(estimated, c));
    FactorOrder(q, 1.0 / (1.0 + c.projected), 1.0 / (1.0 + d.projected));
    PsoScoreIs(estimated, c);
    PsoScoreIs(estimated, d);
    hide PsoScore;
  }

  lemma SamePrediction(estimated: real, c: Cand, d: Cand)
    requires GoodCand(c) && GoodCand(d) && c.speed == d.speed
    ensures Predicted(estimated, c) == Predicted(estimated, d)
  {
  }

  ghost predicate CandsOk(cands: seq<Cand>) { forall i :: 0 <= i < |cands| ==> GoodCand(cands[i]) }

  lemma ReciprocalReverses(x: real, y: real)
    requires x > 0.0 && y > 0.0
    ensures 1.0 / x < 1.0 / y <==> y < x
  {
    assert 1.0 / y - 1.0 / x == (x - y) / (x * y);
    assert x * y > 0.0;
    QuotientSign(x - y, x * y);
  }

  lemma QuotientSign(x: real, y: real)
    requires y > 0.0
    ensures x / y > 0.0 <==> x > 0.0
  {
    assert x / y * y == x;
  }

  ghost predicate Beats(x: real, y: real, earlier: bool) { x <= y && (earlier ==> x < y) }

  /** Where the score is the reciprocal of the cost, the first maximum has the first least cost. */
  lemma ReciprocalArgmax(costs: seq<real>, scores: seq<real>, best: int, k: nat)
    requires |costs| == |scores| && Positive(costs) && IsFirstMax(scores, best) && k < |costs|
    requires forall i :: 0 <= i < |costs| ==> scores[i] == 1.0 / costs[i]
    ensures Beats(costs[best], costs[k], k < best)
  {
    ReciprocalReverses(costs[best], costs[k]);
    ReciprocalReverses(costs[k], costs[best]);
    assert scores[k] <= scores[best];
  }

  /** How long worker w would take for this job and all it has in flight, if they were alike. */
  function WorkAt(w: NodeId, estimated: real, inflight: map<NodeId, int>, speed: Speeds): real
    requires speed(w) > 0.0
  {
    Max(0.000001, estimated / speed(w)) * (At(inflight, w) + 1) as real
  }

  /** Member i is the first eligible one with the least predicted time times load. */
  ghost predicate IsGreedyChoice(members: seq<Member>, need: int, estimated: real, inflight: map<NodeId, int>,
      speed: Speeds, i: nat)
    requires SpeedsOk(speed)
  {
    && i < |members| && Eligible(members[i], need)
    && forall j :: 0 <= j < |members| && Eligible(members[j], need) ==>
        var x := WorkAt(members[i].name, estimated, inflight, speed);
        var y := WorkAt(members[j].name, estimated, inflight, speed);
        if j < i then x < y else x <= y
  }

  /** The same for one other member, written out over tags, counters and speeds. */
  lemma GreedyChoiceMeans(members: seq<Member>, need: int, estimated: real, inflight: map<NodeId, int>, speed: Speeds,
                          i: nat, j: nat)
    requires SpeedsOk(speed) && IsGreedyChoice(members, need, estimated, inflight, speed, i) && j < |members|
    requires members[j].alive && members[j].tags.isMilkv && members[j].tags.status != Some("busy")
    requires members[j].tags.freeMemory.Number? && members[j].tags.freeMemory.value >= need
    ensures var v, w := members[i].name, members[j].name;
      var x := Max(0.000001, estimated / speed(v)) * (At(inflight, v) + 1) as real;
      var y := Max(0.000001, estimated / speed(w)) * (At(inflight, w) + 1) as real;
      if j < i then x < y else x <= y
  {
  }

  /** Among equally fast workers Greedy takes the first with the least in flight. */
  lemma LeastLoadedWins(members: seq<Member>, need: int, estimated: real, inflight: map<NodeId, int>, speed: Speeds,
                        i: nat, j: nat)
    requires SpeedsOk(speed) && Counts(inflight) && IsGreedyChoice(members, need, estimated, inflight, speed, i)
    requires j < |members| && Eligible(members[j], need) && speed(members[j].name) == speed(members[i].name)
    ensures At(inflight, members[i].name) <= At(inflight, members[j].name)
    ensures j < i ==> At(inflight, members[i].name) < At(inflight, members[j].name)
  {
    var v, w := members[i].name, members[j].name;
    FactorOrder(Max(0.000001, estimated / speed(v)), (At(inflight, v) + 1) as real, (At(inflight, w) + 1) as real);
  }

  /** Among equally loaded workers it takes the first of the fastest, unless the job is so short that the floor
      of a microsecond hides the difference. */
  lemma FastestWins(members: seq<Member>, need: int, estimated: real, inflight: map<NodeId, int>, speed: Speeds,
                    i: nat, j: nat)
    requires SpeedsOk(speed) && Counts(inflight) && IsGreedyChoice(members, need, estimated, inflight, speed, i)
    requires j < |members| && Eligible(members[j], need)
    requires At(inflight, members[j].name) == At(inflight, members[i].name)
    requires estimated >= 0.000001 * speed(members[i].name) && estimated >= 0.000001 * speed(members[j].name)
    ensures speed(members[j].name) <= speed(members[i].name)
    ensures j < i ==> speed(members[j].name) < speed(members[i].name)
  {
    var v, w := members[i].name, members[j].name;
    AboveFloor(estimated, speed(v));
    AboveFloor(estimated, speed(w));
    FactorOrder((At(inflight, v) + 1) as real, estimated / speed(v), estimated / speed(w));
    SlowerTakesLonger(estimated, speed(v), speed(w));
    FactorOrder((At(inflight, v) + 1) as real, estimated / speed(w), estimated / speed(v));
    SlowerTakesLonger(estimated, speed(w), speed(v));
  }

  lemma FactorOrder(c: real, x: real, y: real)
    requires c > 0.0
    ensures c * x <= c * y <==> x <= y
  {
    if x < y {
      assert c * (y - x) > 0.0;
    } else if y < x {
      assert c * (x - y) > 0.0;
    }
  }

  lemma AboveFloor(estimated: real, speed: real)
    requires speed > 0.0 && estimated >= 0.000001 * speed
    ensures Max(0.000001, estimated / speed) == estimated / speed
  {
    assert estimated / speed * speed == estimated;
    FactorOrder(speed, 0.000001, estimated / speed);
  }

  lemma SlowerTakesLonger(estimated: real, v: real, w: real)
    requires estimated > 0.0 && v > 0.0 && w > 0.0
    ensures estimated / v <= estimated / w <==> w <= v
  {
    var x, y := estimated / v, estimated / w;
    assert v * x == w * y == estimated;
    FactorOrder(w, x, y);
    FactorOrder(x, w, v);
  }

  /** The candidates of these members. */
  ghost predicate AreCandidates(cands: seq<Cand>, members: seq<Member>, need: int, inflight: map<NodeId, int>,
      speed: Speeds) {
    var p := Positions(members, need);
    && |cands| == |p|
    && forall k :: 0 <= k < |p| ==> cands[k] == CandOf(members[p[k]], inflight, speed)
  }

  lemma CandidatesOk(cands: seq<Cand>, members: seq<Member>, need: int, inflight: map<NodeId, int>, speed: Speeds)
    requires AreCandidates(cands, members, need, inflight, speed) && SpeedsOk(speed) && Counts(inflight)
    ensures CandsOk(cands)
  {
  }

  lemma GreedyBeats(estimated: real, cands: seq<Cand>, scores: seq<real>, best: int, k: nat)
    requires CandsOk(cands) && |scores| == |cands| && k < |cands| && IsFirstMax(scores, best)
    requires forall i :: 0 <= i < |cands| ==> scores[i] == GreedyScore(estimated, cands[i])
    ensures Beats(Cost(estimated, cands[best]), Cost(estimated, cands[k]), k < best)
  {
    hide Predicted, Beats;
    var costs := seq(|cands|, i requires 0 <= i < |cands| => Cost(estimated, cands[i]));
    ReciprocalArgmax(costs, scores, best, k);
  }

  /** The first maximum of the Greedy scores is that member. */
  lemma GreedyMinimises(members: seq<Member>, need: int, estimated: real, inflight: map<NodeId, int>, speed: Speeds,
                        cands: seq<Cand>, scores: seq<real>, best: nat)
    requires SpeedsOk(speed) && Counts(inflight) && best < |scores|
    requires AreCandidates(cands, members, need, inflight, speed) && CandsOk(cands) && |scores| == |cands|
    requires forall k :: 0 <= k < |cands| ==> scores[k] == GreedyScore(estimated, cands[k])
    requires IsFirstMax(scores, best)
    ensures IsGreedyChoice(members, need, estimated, inflight, speed, Positions(members, need)[best])
  {
    hide IsFirstMax, GreedyScore, Positions, AreCandidates, CandsOk, Eligible, WorkAt;
    var p := Positions(members, need);
    PositionsMatch(cands, members, need, inflight, speed);
    forall j | 0 <= j < |members| && Eligible(members[j], need)
      ensures
        var x := WorkAt(members[p[best]].name, estimated, inflight, speed);
        var y := WorkAt(members[j].name, estimated, inflight, speed);
        if j < p[best] then x < y else x <= y
    {
      assert j in p;
      var k :| 0 <= k < |p| && p[k] == j;
      GreedyBeatsMember(members, need, estimated, inflight, speed, cands, scores, best, k);
      assert j < p[best] <==> k < best;
    }
  }

  lemma PositionsMatch(cands: seq<Cand>, members: seq<Member>, need: int, inflight: map<NodeId, int>, speed: Speeds)
    requires AreCandidates(cands, members, need, inflight, speed)
    ensures |Positions(members, need)| == |cands|
  {
  }

  lemma GreedyBeatsMember(members: seq<Member>, need: int, estimated: real, inflight: map<NodeId, int>,
                          speed: Speeds, cands: seq<Cand>, scores: seq<real>, best: nat, k: nat)
    requires SpeedsOk(speed) && Counts(inflight) && best < |scores| && k < |cands|
    requires AreCandidates(cands, members, need, inflight, speed) && CandsOk(cands) && |scores| == |cands|
    requires forall k :: 0 <= k < |cands| ==> scores[k] == GreedyScore(estimated, cands[k])
    requires IsFirstMax(scores, best)
    ensures var p := Positions(members, need);
      var x := WorkAt(members[p[best]].name, estimated, inflight, speed);
      var y := WorkAt(members[p[k]].name, estimated, inflight, speed);
      if k < best then x < y else x <= y
  {
    hide Cost, IsFirstMax, GreedyScore, Positions, WorkAt;
    var p := Positions(members, need);
    GreedyBeats(estimated, cands, scores, best, k);
    CostIs(estimated, members[p[best]], inflight, speed);
    CostIs(estimated, members[p[k]], inflight, speed);
  }

  lemma CostIs(estimated: real, m: Member, inflight: map<NodeId, int>, speed: Speeds)
    requires m.tags.freeMemory.Number? && SpeedsOk(speed) && Counts(inflight)
    ensures Cost(estimated, CandOf(m, inflight, speed)) == WorkAt(m.name, estimated, inflight, speed)
  {
  }
}
