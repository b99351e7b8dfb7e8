/** The stored pheromone trails, per task type and worker (edge-server/scheduler.go). */
module Trails {
  import opened Shared
  import opened Loads
  import opened Floats
  import opened HybridScore
  import C = Colony

  type TrailMap = map<TaskType, map<NodeId, Float>>

  /** A trail that was never laid counts as 1. */
  function TrailAt(p: TrailMap, t: TaskType, w: NodeId): Float {
    if t in p && w in p[t] then p[t][w] else Num(1.0)
  }

  function TrailSet(p: TrailMap, t: TaskType, w: NodeId, v: Float): TrailMap {
    p[t := (if t in p then p[t] else map[])[w := v]]
  }

  /** The trails after worker w was removed. */
  function TrailsWithout(p: TrailMap, w: NodeId): TrailMap {
    map t | t in p :: p[t] - {w}
  }

  /** The loop of `RemoveNode` over all task types. */
  method DropWorker(p: TrailMap, w: NodeId) returns (q: TrailMap)
    ensures q == TrailsWithout(p, w)
  {
    q := p;
    var types := p.Keys;
    while exists t :: t in types
      invariant types <= p.Keys == q.Keys
      invariant forall t :: t in p ==> q[t] == if t in types then p[t] else p[t] - {w}
      decreases types
    {
      var t :| t in types;
      q := q[t := q[t] - {w}];
      types := types - {t};
    }
    forall t | t in p ensures q[t] == TrailsWithout(p, w)[t] {
      assert t !in types;
    }
  }

  /** The removed worker's trails are forgotten, so they count as 1 again; all others are as before. */
  lemma WithoutForgets(p: TrailMap, w: NodeId, t: TaskType, v: NodeId)
    ensures TrailAt(TrailsWithout(p, w), t, v) == if v == w then Num(1.0) else TrailAt(p, t, v)
  {
  }

  /** A trail reads as it was last set, and setting it changes no other. */
  lemma SetReads(p: TrailMap, t: TaskType, w: NodeId, x: Float, s: TaskType, v: NodeId)
    ensures TrailAt(TrailSet(p, t, w, x), s, v) == if s == t && v == w then x else TrailAt(p, s, v)
  {
  }

  /** A stored trail is NaN, or a number within [0.1, 10]. */
  predicate TrailOk(v: Float) { v == NaN || (v.Num? && C.MIN_TRAIL <= v.value <= C.MAX_TRAIL) }

  ghost predicate TrailsOk(p: TrailMap) { forall t, w :: t in p && w in p[t] ==> TrailOk(p[t][w]) }

  lemma TrailsWithoutOk(p: TrailMap, w: NodeId)
    requires TrailsOk(p)
    ensures TrailsOk(TrailsWithout(p, w))
  {
  }

  lemma TrailSetOk(p: TrailMap, t: TaskType, w: NodeId, v: Float)
    requires TrailsOk(p) && TrailOk(v)
    ensures TrailsOk(TrailSet(p, t, w, v))
  {
  }

  lemma SameTrail(p: TrailMap, t: TaskType, w: NodeId)
    requires t in p && w in p[t]
    ensures TrailSet(p, t, w, p[t][w]) == p
  {
    assert p[t][w := p[t][w]] == p[t];
  }

  lemma TrailAtOk(p: TrailMap, t: TaskType, w: NodeId)
    requires TrailsOk(p)
    ensures TrailOk(TrailAt(p, t, w))
  {
  }

  /** The trails after values were stored for these workers, one after the other. */
  function TrailsStored(p: TrailMap, t: TaskType, names: seq<NodeId>, values: seq<Float>): TrailMap
    requires |names| == |values|
  {
    if names == [] then p
    else
      var n := |names| - 1;
      TrailSet(TrailsStored(p, t, names[..n], values[..n]), t, names[n], values[n])
  }

  lemma {:induction false} TrailsStoredOk(p: TrailMap, t: TaskType, names: seq<NodeId>, values: seq<Float>)
    requires |names| == |values| && TrailsOk(p)
    requires forall i :: 0 <= i < |values| ==> TrailOk(values[i])
    ensures TrailsOk(TrailsStored(p, t, names, values))
  {
    if names != [] {
      var n := |names| - 1;
      TrailsStoredOk(p, t, names[..n], values[..n]);
    }
  }

  lemma TrailsStoredStep(p: TrailMap, t: TaskType, names: seq<NodeId>, values: seq<Float>, i: nat)
    requires |names| == |values| && i < |names|
    ensures TrailsStored(p, t, names[..i + 1], values[..i + 1]) ==
            TrailSet(TrailsStored(p, t, names[..i], values[..i]), t, names[i], values[i])
  {
    assert names[..i + 1][..i] == names[..i] && values[..i + 1][..i] == values[..i];
  }

  /** What `updatePheromones` stores for one worker. */
  ghost function Damped(m: map<NodeId, int>, w: NodeId, v: Float): Float
    requires Counts(m)
  {
    Bounded(Times(v, Num(AntiBias(m, w))))
  }

  ghost function DampedList(m: map<NodeId, int>, names: seq<NodeId>, updated: seq<Float>): (d: seq<Float>)
    requires Counts(m) && |names| == |updated|
    ensures |d| == |names|
    ensures forall i :: 0 <= i < |d| ==> d[i] == Damped(m, names[i], updated[i])
  {
    seq(|names|, i requires 0 <= i < |names| => Damped(m, names[i], updated[i]))
  }

  /** No later value is stored for the same worker. */
  predicate LastFor(names: seq<NodeId>, i: nat) {
    i < |names| && forall j :: i < j < |names| ==> names[j] != names[i]
  }

  /** The value stored last for a worker is its trail. */
  lemma {:induction false} StoredLast(p: TrailMap, t: TaskType, names: seq<NodeId>, values: seq<Float>, i: nat)
    requires |names| == |values| && LastFor(names, i)
    ensures TrailAt(TrailsStored(p, t, names, values), t, names[i]) == values[i]
  {
    var n := |names| - 1;
    if i < n {
      assert names[..n][i] == names[i] && values[..n][i] == values[i];
      StoredLast(p, t, names[..n], values[..n], i);
      assert names[n] != names[i];
    }
  }

  lemma {:induction false} LastExists(names: seq<NodeId>, i: nat) returns (j: nat)
    requires i < |names|
    ensures i <= j && LastFor(names, j) && names[j] == names[i]
    decreases |names| - i
  {
    if LastFor(names, i) {
      j := i;
    } else {
      var k :| i < k < |names| && names[k] == names[i];
      j := LastExists(names, k);
    }
  }

  /** Trails of other workers and of other task types are left alone. */
  lemma {:induction false} StoredElsewhere(p: TrailMap, t: TaskType, names: seq<NodeId>, values: seq<Float>,
                                           s: TaskType, w: NodeId)
    requires |names| == |values| && (s != t || w !in names)
    ensures TrailAt(TrailsStored(p, t, names, values), s, w) == TrailAt(p, s, w)
  {
    if names != [] {
      var n := |names| - 1;
      StoredElsewhere(p, t, names[..n], values[..n], s, w);
      assert names[n] in names;
    }
  }

  /** The two maps give every trail the same value; one may leave out trails that were never laid. */
  ghost predicate SameTrails(p: TrailMap, q: TrailMap) { forall t, w :: TrailAt(p, t, w) == TrailAt(q, t, w) }

  lemma TouchedTrail(p: TrailMap, t: TaskType, w: NodeId)
    ensures SameTrails(TrailSet(p, t, w, TrailAt(p, t, w)), p)
  {
  }

  lemma {:induction false} StoredAlike(p: TrailMap, q: TrailMap, t: TaskType, names: seq<NodeId>, values: seq<Float>)
    requires SameTrails(p, q) && |names| == |values|
    ensures SameTrails(TrailsStored(p, t, names, values), TrailsStored(q, t, names, values))
  {
    if names != [] {
      var n := |names| - 1;
      StoredAlike(p, q, t, names[..n], values[..n]);
      SetAlike(TrailsStored(p, t, names[..n], values[..n]), TrailsStored(q, t, names[..n], values[..n]), t, names[n],
        values[n]);
    }
  }

  lemma SetAlike(p: TrailMap, q: TrailMap, t: TaskType, w: NodeId, v: Float)
    requires SameTrails(p, q)
    ensures SameTrails(TrailSet(p, t, w, v), TrailSet(q, t, w, v))
  {
    forall s, x ensures TrailAt(TrailSet(p, t, w, v), s, x) == TrailAt(TrailSet(q, t, w, v), s, x) {
      assert TrailAt(p, s, x) == TrailAt(q, s, x);
    }
  }
}
