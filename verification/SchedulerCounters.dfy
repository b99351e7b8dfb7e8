/** The scheduler's bookkeeping maps as values, and what they hold after any trace of calls
    (edge-server/scheduler.go). */
module SchedulerCounters {
  import opened Shared

  datatype SchedulerMode =
    | PsoAcoGa | Greedy | EcoTaskOpt | Pso | Aco | Ga
    | PsoAcoGaNoPso | PsoAcoGaNoBatching | PsoAcoGaNoGa

  datatype Counters = Counters(
    assignments: map<NodeId, int>,
    inflight: map<NodeId, int>,
    recent: map<NodeId, seq<TaskType>>,
    batching: map<NodeId, int>)

  const NoCounters := Counters(map[], map[], map[], map[])

  const RECENT_WINDOW := 10

  function Recent(c: Counters, w: NodeId): seq<TaskType> {
    if w in c.recent then c.recent[w] else []
  }

  /** `EnsureNode` */
  function Ensured(c: Counters, w: NodeId): Counters {
    c.(assignments := c.assignments[w := At(c.assignments, w)],
       inflight := c.inflight[w := At(c.inflight, w)],
       recent := c.recent[w := Recent(c, w)])
  }

  /** `RemoveNode`; the batching counter is kept. */
  function Forgotten(c: Counters, w: NodeId): Counters {
    c.(assignments := c.assignments - {w}, inflight := c.inflight - {w}, recent := c.recent - {w})
  }

  /** The sliding window of recent types: append, then drop the oldest beyond ten. */
  function Slide(window: seq<TaskType>, t: TaskType): seq<TaskType> {
    if |window + [t]| > RECENT_WINDOW then (window + [t])[1..] else window + [t]
  }

  function LastIs(types: seq<TaskType>, t: TaskType): bool { types != [] && types[|types| - 1] == t }

  /** `OnAssigned` */
  function Charged(mode: SchedulerMode, c: Counters, w: NodeId, t: TaskType): Counters {
    var d := c.(assignments := c.assignments[w := At(c.assignments, w) + 1],
                inflight := c.inflight[w := At(c.inflight, w) + 1]);
    if mode != PsoAcoGa then d
    else d.(recent := c.recent[w := Slide(Recent(c, w), t)],
            batching := if LastIs(Recent(c, w), t) then c.batching[w := At(c.batching, w) + 1] else c.batching)
  }

  lemma ChargedCounts(mode: SchedulerMode, c: Counters, w: NodeId, t: TaskType)
    ensures var d := Charged(mode, c, w, t);
      && d.assignments == c.assignments[w := At(c.assignments, w) + 1]
      && d.inflight == c.inflight[w := At(c.inflight, w) + 1]
  {
  }

  /** `OnCompleted`: one less in flight, never below zero. */
  function Released(c: Counters, w: NodeId): Counters {
    var d := Ensured(c, w);
    var left := d.inflight[w] - 1;
    d.(inflight := d.inflight[w := if left <= 0 then 0 else left])
  }

  lemma ReleasedCounts(c: Counters, w: NodeId)
    ensures var d := Released(c, w);
      && d.assignments == c.assignments[w := At(c.assignments, w)] && d.batching == c.batching
      && d.inflight == c.inflight[w := if At(c.inflight, w) > 1 then At(c.inflight, w) - 1 else 0]
  {
  }

  // ---- traces of scheduler calls ----

  datatype Call =
    | Join(node: NodeId)
    | Leave(node: NodeId)
    | Assign(node: NodeId, job: JobId, taskType: TaskType, at: Time)
    | Complete(node: NodeId)

  function Apply(mode: SchedulerMode, c: Counters, call: Call): Counters {
    match call
    case Join(w) => Ensured(c, w)
    case Leave(w) => Forgotten(c, w)
    case Assign(w, _, t, _) => Charged(mode, c, w, t)
    case Complete(w) => Released(c, w)
  }

  function Replay(mode: SchedulerMode, trace: seq<Call>): Counters {
    if trace == [] then NoCounters
    else Apply(mode, Replay(mode, trace[..|trace| - 1]), trace[|trace| - 1])
  }

  lemma ReplayStep(mode: SchedulerMode, trace: seq<Call>, call: Call)
    ensures Replay(mode, trace + [call]) == Apply(mode, Replay(mode, trace), call)
  {
    assert (trace + [call])[..|trace|] == trace;
  }

  /** What one call does to the two counters of any node w. */
  lemma ApplyCounters(mode: SchedulerMode, c: Counters, call: Call, w: NodeId)
    requires 0 <= At(c.inflight, w) <= At(c.assignments, w)
    ensures var d := Apply(mode, c, call);
      && At(d.inflight, w) == (if call == Leave(w) then 0 else AtLeastZero(At(c.inflight, w) + Weight(call, w)))
      && At(d.assignments, w) ==
         (if call == Leave(w) then 0 else At(c.assignments, w) + if call.Assign? && call.node == w then 1 else 0)
  {
  }

  lemma ApplyKeys(mode: SchedulerMode, c: Counters, call: Call)
    requires c.assignments.Keys == c.inflight.Keys
    ensures Apply(mode, c, call).assignments.Keys == Apply(mode, c, call).inflight.Keys
  {
  }

  // ---- closed form of the clamped load counter ----

  /** +1 for an assignment to w, -1 for a completion by w. */
  function Weight(call: Call, w: NodeId): int {
    if call.node != w then 0 else if call.Assign? then 1 else if call.Complete? then -1 else 0
  }

  /** Assignments minus completions of w from position k on. */
  function Net(trace: seq<Call>, k: nat, w: NodeId): int
    requires k <= |trace|
  {
    if k == |trace| then 0
    else Net(trace[..|trace| - 1], k, w) + Weight(trace[|trace| - 1], w)
  }

  /** Position just after the last removal of w, 0 if there is none. */
  function LastCut(trace: seq<Call>, w: NodeId): (k: nat)
    ensures k <= |trace|
    ensures forall i :: k <= i < |trace| ==> trace[i] != Leave(w)
    ensures k > 0 ==> trace[k - 1] == Leave(w)
  {
    if trace == [] then 0
    else if trace[|trace| - 1] == Leave(w) then |trace|
    else LastCut(trace[..|trace| - 1], w)
  }

  /** v is the largest Net over the suffixes that start after the last removal of w. */
  ghost predicate IsLargestSuffix(trace: seq<Call>, w: NodeId, v: int) {
    && (exists k :: LastCut(trace, w) <= k <= |trace| && Net(trace, k, w) == v)
    && (forall k :: LastCut(trace, w) <= k <= |trace| ==> Net(trace, k, w) <= v)
  }

  lemma NetStep(trace: seq<Call>, call: Call, k: nat, w: NodeId)
    requires k <= |trace|
    ensures Net(trace + [call], k, w) == Net(trace, k, w) + Weight(call, w)
    ensures Net(trace + [call], |trace| + 1, w) == 0
  {
    assert (trace + [call])[..|trace|] == trace;
  }

  /** Appending a call that is no removal shifts every suffix and adds the empty one. */
  lemma LargestSuffixStep(trace: seq<Call>, call: Call, w: NodeId, v: int)
    requires IsLargestSuffix(trace, w, v) && call != Leave(w)
    ensures IsLargestSuffix(trace + [call], w, AtLeastZero(v + Weight(call, w)))
  {
    var next := trace + [call];
    assert next[..|trace|] == trace;
    var cut := LastCut(trace, w);
    assert LastCut(next, w) == cut;
    var k0 :| cut <= k0 <= |trace| && Net(trace, k0, w) == v;
    NetStep(trace, call, k0, w);
    forall k | cut <= k <= |next|
      ensures Net(next, k, w) <= AtLeastZero(v + Weight(call, w))
    {
      if k <= |trace| {
        NetStep(trace, call, k, w);
      }
    }
    assert Net(next, |next|, w) == 0;
  }

  /** Over every trace of calls, `inflight[w]` is the largest surplus of assignments over
      completions among the suffixes since w was last removed. */
  lemma {:induction false} InflightClosedForm(mode: SchedulerMode, trace: seq<Call>, w: NodeId)
    ensures IsLargestSuffix(trace, w, At(Replay(mode, trace).inflight, w))
  {
    if trace == [] {
      assert Net(trace, 0, w) == 0;
    } else {
      var t, call := trace[..|trace| - 1], trace[|trace| - 1];
      InflightClosedForm(mode, t, w);
      InflightNonNegative(mode, t, w);
      ApplyCounters(mode, Replay(mode, t), call, w);
      assert trace == t + [call];
      if call == Leave(w) {
        assert Net(trace, |trace|, w) == 0;
      } else {
        hide Apply, Weight, IsLargestSuffix;
        LargestSuffixStep(t, call, w, At(Replay(mode, t).inflight, w));
      }
    }
  }

  /** `assigned` and `inflight` have the same keys, and 0 <= inflight <= assigned. */
  lemma {:induction false} InflightNonNegative(mode: SchedulerMode, trace: seq<Call>, w: NodeId)
    ensures var c := Replay(mode, trace);
      && c.assignments.Keys == c.inflight.Keys
      && 0 <= At(c.inflight, w) <= At(c.assignments, w)
  {
    if trace != [] {
      hide Apply;
      var t, call := trace[..|trace| - 1], trace[|trace| - 1];
      InflightNonNegative(mode, t, w);
      ApplyCounters(mode, Replay(mode, t), call, w);
      ApplyKeys(mode, Replay(mode, t), call);
    }
  }

  /** When no completion outruns its assignment, nothing is clamped and the counter is exact. */
  lemma {:induction false} InflightExact(mode: SchedulerMode, trace: seq<Call>, w: NodeId)
    requires Leave(w) !in trace
    requires forall i :: 0 <= i <= |trace| ==> Net(trace[..i], 0, w) >= 0
    ensures At(Replay(mode, trace).inflight, w) == Net(trace, 0, w)
  {
    if trace != [] {
      var t := trace[..|trace| - 1];
      assert forall i :: 0 <= i <= |t| ==> t[..i] == trace[..i];
      InflightExact(mode, t, w);
      assert trace[..|trace|] == trace;
      hide Apply;
      InflightNonNegative(mode, t, w);
      ApplyCounters(mode, Replay(mode, t), trace[|trace| - 1], w);
    }
  }

  // ---- the online batching counter ----

  /** Types assigned to w, in order. */
  function TypesOf(trace: seq<Call>, w: NodeId): seq<TaskType> {
    if trace == [] then []
    else
      var rest, call := TypesOf(trace[..|trace| - 1], w), trace[|trace| - 1];
      if call.Assign? && call.node == w then rest + [call.taskType] else rest
  }

  /** Number of positions holding the same type as the one before. */
  function EqualPairs(types: seq<TaskType>): nat {
    if |types| < 2 then 0
    else EqualPairs(types[..|types| - 1]) + if types[|types| - 1] == types[|types| - 2] then 1 else 0
  }

  function Tail(types: seq<TaskType>): seq<TaskType> {
    if |types| <= RECENT_WINDOW then types else types[|types| - RECENT_WINDOW..]
  }

  lemma TailStep(types: seq<TaskType>, t: TaskType)
    ensures Tail(types + [t]) == Slide(Tail(types), t)
    ensures LastIs(Tail(types), t) <==> LastIs(types, t)
    ensures EqualPairs(types + [t]) == EqualPairs(types) + if LastIs(types, t) then 1 else 0
  {
    assert (types + [t])[..|types|] == types;
  }

  /** A window of ten is enough: while w is never removed, the counter holds the number of equal
      neighbours in everything ever assigned to w. */
  lemma {:induction false} BatchingCountsEqualPairs(trace: seq<Call>, w: NodeId)
    requires Leave(w) !in trace
    ensures var c := Replay(PsoAcoGa, trace);
      && Recent(c, w) == Tail(TypesOf(trace, w))
      && At(c.batching, w) == EqualPairs(TypesOf(trace, w))
  {
    if trace != [] {
      var t, call := trace[..|trace| - 1], trace[|trace| - 1];
      BatchingCountsEqualPairs(t, w);
      if call.Assign? && call.node == w {
        TailStep(TypesOf(t, w), call.taskType);
      }
    }
  }
}
