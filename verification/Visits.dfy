/** Remembering the best index met while a search visits candidates. */
module Visits {
  import opened RealSeqs

  /** k is the first visit that reached the best score of all visits. */
  ghost predicate IsFirstBest(scores: seq<real>, visits: seq<nat>, k: nat) {
    && k < |scores|
    && (forall i :: 0 <= i < |visits| ==> visits[i] < |scores| && scores[visits[i]] <= scores[k])
    && exists p :: 0 <= p < |visits| && visits[p] == k && forall i :: 0 <= i < p ==> scores[visits[i]] < scores[k]
  }

  lemma FirstBestStep(scores: seq<real>, visits: seq<nat>, k: nat, v: nat)
    requires v < |scores| && IsFirstBest(scores, visits, k)
    ensures IsFirstBest(scores, visits + [v], if scores[v] > scores[k] then v else k)
  {
    var all := visits + [v];
    if scores[v] > scores[k] {
      assert all[|visits|] == v;
    } else {
      var p :| 0 <= p < |visits| && visits[p] == k && forall i :: 0 <= i < p ==> scores[visits[i]] < scores[k];
      assert all[p] == k;
    }
  }

  /** The running best starts at index 0 with `-math.MaxFloat64`, and only a larger score replaces it. */
  ghost predicate BestSoFar(scores: seq<real>, visits: seq<nat>, best: nat, bestScore: real) {
    if NothingCounts(scores, visits) then best == 0 && bestScore == -MAX_FLOAT64
    else IsFirstBest(scores, visits, best) && bestScore == scores[best] && bestScore > -MAX_FLOAT64
  }

  ghost predicate NothingCounts(scores: seq<real>, visits: seq<nat>) {
    forall i :: 0 <= i < |visits| ==> visits[i] < |scores| && scores[visits[i]] <= -MAX_FLOAT64
  }

  lemma BestSoFarStep(scores: seq<real>, visits: seq<nat>, best: nat, bestScore: real, v: nat)
    requires BestSoFar(scores, visits, best, bestScore) && v < |scores|
    ensures if scores[v] > bestScore then BestSoFar(scores, visits + [v], v, scores[v])
      else BestSoFar(scores, visits + [v], best, bestScore)
  {
    var all := visits + [v];
    assert all[|visits|] == v;
    if NothingCounts(scores, visits) {
      if scores[v] > bestScore {
        assert forall i :: 0 <= i < |visits| ==> all[i] == visits[i];
        assert IsFirstBest(scores, all, v);
      }
    } else {
      var i :| 0 <= i < |visits| && !(visits[i] < |scores| && scores[visits[i]] <= -MAX_FLOAT64);
      assert all[i] == visits[i];
      FirstBestStep(scores, visits, best, v);
    }
  }
}
