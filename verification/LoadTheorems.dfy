/** What the scheduler's load counter says about the jobs that are really out with a worker. */
module LoadTheorems {
  import opened Shared
  import opened SchedulerCounters
  import opened Protocol
  import opened ProtocolInvariant
  import opened ProtocolTheorems

  /** Jobs whose claim by w was accepted. */
  function ClaimedBy(h: History, w: NodeId): set<JobId> { set j | j in h && h[j].assignedTo == Some(w) }

  /** Those recorded as completed. */
  function CompletedBy(h: History, w: NodeId): set<JobId> { set j | j in ClaimedBy(h, w) && h[j].status == Completed }

  /** Those recorded as running. */
  function RunningAt(h: History, w: NodeId): set<JobId> { set j | j in ClaimedBy(h, w) && h[j].status == Running }

  /** Those recorded as failed or stopped. */
  function BrokenOff(h: History, w: NodeId): set<JobId> {
    set j | j in ClaimedBy(h, w) && (h[j].status == Failed || h[j].status == Stopped)
  }

  /** Jobs in a worker's hands or in an answer on the way to it. */
  function OutWith(s: System, w: NodeId): set<JobId> {
    set j | j in s.place
      && (s.place[j] == Held(w)
        || (s.place[j].InReply? && s.place[j].req in s.claims && s.claims[s.place[j].req].node == w))
  }

  /** Tracked: never forgotten by the scheduler, and no success event of w handled twice. */
  predicate Tracked(s: System, w: NodeId) { w !in s.removed + s.replayed }

  /** For a tracked worker the counter is the number of accepted claims minus the number of recorded
      successes, plus one while the event loop stands between its two locked blocks. */
  lemma InflightCountsClaims(b: seq<System>, i: nat, w: NodeId)
    requires IsRun(b) && i < |b| && Tracked(b[i], w)
    ensures var h := b[i].edge.history;
      At(b[i].edge.counters.inflight, w) == |ClaimedBy(h, w)| - |CompletedBy(h, w)| + Unlearned(b[i].learning, w)
  {
    RunKeeps(b, i);
    TrackedLoad(b[i], w);
    OwedIsDifference(b[i].edge.history, w);
  }

  lemma TrackedLoad(s: System, w: NodeId)
    requires Inv(s) && Tracked(s, w)
    ensures At(s.edge.counters.inflight, w) == |Owed(s.edge.history, w)| + Unlearned(s.learning, w)
  {
  }

  lemma OwedIsDifference(h: History, w: NodeId)
    ensures |Owed(h, w)| == |ClaimedBy(h, w)| - |CompletedBy(h, w)|
  {
    assert Owed(h, w) == ClaimedBy(h, w) - CompletedBy(h, w);
    assert CompletedBy(h, w) <= ClaimedBy(h, w);
  }

  /** The counter never undercounts the jobs really out with the worker. */
  lemma InflightCoversJobsOut(b: seq<System>, i: nat, w: NodeId)
    requires IsRun(b) && i < |b| && Tracked(b[i], w)
    ensures At(b[i].edge.counters.inflight, w) >= |OutWith(b[i], w)|
  {
    RunKeeps(b, i);
    TrackedLoad(b[i], w);
    JobsOutAreOwed(b[i], w);
    SubsetSize(OutWith(b[i], w), Owed(b[i].edge.history, w));
  }

  lemma SubsetSize(a: set<JobId>, b: set<JobId>)
    requires a <= b
    ensures |a| <= |b|
  {
    assert b == a + (b - a);
  }

  lemma JobsOutAreOwed(s: System, w: NodeId)
    requires Inv(s)
    ensures OutWith(s, w) <= Owed(s.edge.history, w)
  {
    forall j | j in OutWith(s, w) ensures j in Owed(s.edge.history, w) {
      PendingRecord(s, j);
    }
  }

  /** When the scheduler learns of a success of a tracked worker the counter is positive: the clamp
      at zero never fires. */
  lemma ClampNeverFires(b: seq<System>, i: nat)
    requires IsRun(b) && i < |b| && b[i].learning.Some? && Tracked(b[i], b[i].learning.value.node)
    ensures var w := b[i].learning.value.node;
      At(b[i].edge.counters.inflight, w) >= 1
      && At(DoLearn(b[i]).edge.counters.inflight, w) == At(b[i].edge.counters.inflight, w) - 1
  {
    RunKeeps(b, i);
    TrackedLoad(b[i], b[i].learning.value.node);
  }

  /** Failed and stopped tasks are never taken off the counter, so between events it equals the
      number of running records exactly when the worker has no failed or stopped record. */
  lemma InflightIsRunningIff(b: seq<System>, i: nat, w: NodeId)
    requires IsRun(b) && i < |b| && Tracked(b[i], w) && b[i].learning == None
    ensures At(b[i].edge.counters.inflight, w) == |RunningAt(b[i].edge.history, w)| + |BrokenOff(b[i].edge.history, w)|
    ensures At(b[i].edge.counters.inflight, w) == |RunningAt(b[i].edge.history, w)| <==>
      NothingBrokenOff(b[i].edge.history, w)
  {
    hide IsRun, Inv, ClaimedBy, RunningAt, BrokenOff, Owed, NothingBrokenOff;
    RunKeeps(b, i);
    var h := b[i].edge.history;
    TrackedLoad(b[i], w);
    ClaimedIsNotPending(b[i], w);
    OwedSplits(h, w);
    NoneBrokenOff(h, w);
  }

  lemma OwedSplits(h: History, w: NodeId)
    requires forall j :: j in ClaimedBy(h, w) ==> j in h && h[j].status != Pending
    ensures |Owed(h, w)| == |RunningAt(h, w)| + |BrokenOff(h, w)|
  {
    forall j | j in Owed(h, w) ensures j in RunningAt(h, w) + BrokenOff(h, w) {
      assert j in ClaimedBy(h, w);
    }
    assert Owed(h, w) == RunningAt(h, w) + BrokenOff(h, w);
  }

  ghost predicate NothingBrokenOff(h: History, w: NodeId) {
    forall j :: j in h && h[j].assignedTo == Some(w) ==> h[j].status != Failed && h[j].status != Stopped
  }

  lemma NoneBrokenOff(h: History, w: NodeId)
    ensures |BrokenOff(h, w)| == 0 <==> NothingBrokenOff(h, w)
  {
    if j :| j in h && h[j].assignedTo == Some(w) && (h[j].status == Failed || h[j].status == Stopped) {
      assert j in BrokenOff(h, w);
    } else {
      assert BrokenOff(h, w) == {};
    }
  }

  lemma ClaimedIsNotPending(s: System, w: NodeId)
    requires Inv(s)
    ensures forall j :: j in ClaimedBy(s.edge.history, w) ==>
      j in s.edge.history && s.edge.history[j].status != Pending
  {
  }

  /** For every worker, tracked or not, the counter is the largest surplus of claims over successes
      since the scheduler last forgot it, and 0 <= inflight <= assigned. */
  lemma InflightOfAnyWorker(b: seq<System>, i: nat, w: NodeId)
    requires IsRun(b) && i < |b|
    ensures IsLargestSuffix(b[i].trace, w, At(b[i].edge.counters.inflight, w))
    ensures 0 <= At(b[i].edge.counters.inflight, w) <= At(b[i].edge.counters.assignments, w)
    ensures b[i].edge.counters.assignments.Keys == b[i].edge.counters.inflight.Keys
  {
    RunKeeps(b, i);
    ReplayedCounters(b[i]);
    hide IsRun, Inv, IsLargestSuffix;
    InflightClosedForm(b[i].mode, b[i].trace, w);
    InflightNonNegative(b[i].mode, b[i].trace, w);
  }

  lemma ReplayedCounters(s: System)
    requires Inv(s)
    ensures s.edge.counters == Replay(s.mode, s.trace)
  {
  }
}
