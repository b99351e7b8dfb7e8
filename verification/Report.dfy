/** The job counts of the evaluation report (edge-server/api.go). */
module Report {
  import opened Shared
  import opened SchedulerCounters
  import opened Batching
  import opened Protocol
  import opened ProtocolInvariant
  import opened ProtocolTheorems
  import LoadTheorems
  import BatchingTheorems

  datatype JobCounts = JobCounts(created: nat, completed: nat, failed: nat, stopped: nat, pending: nat)

  function Tally(records: seq<Entry>, status: TaskStatus): nat {
    if records == [] then 0
    else Tally(records[..|records| - 1], status) + if records[|records| - 1].record.status == status then 1 else 0
  }

  function TallyNode(records: seq<Entry>, w: NodeId): nat {
    if records == [] then 0
    else TallyNode(records[..|records| - 1], w) + if records[|records| - 1].record.assignedTo == Some(w) then 1 else 0
  }

  /** The counting loop of `getEvalReport`: everything that is not terminal counts as pending. */
  method CountJobs(records: seq<Entry>) returns (c: JobCounts, byNode: map<NodeId, int>)
    ensures c.created == |records| == c.completed + c.failed + c.stopped + c.pending
    ensures c.completed == Tally(records, Completed) && c.failed == Tally(records, Failed)
      && c.stopped == Tally(records, Stopped)
    ensures c.pending == Tally(records, Pending) + Tally(records, Running)
    ensures forall w :: At(byNode, w) == TallyNode(records, w)
    ensures forall w :: w in byNode ==> byNode[w] > 0
  {
    c, byNode := JobCounts(0, 0, 0, 0, 0), map[];
    for i := 0 to |records|
      invariant c.created == i == c.completed + c.failed + c.stopped + c.pending
      invariant c.completed == Tally(records[..i], Completed) && c.failed == Tally(records[..i], Failed)
        && c.stopped == Tally(records[..i], Stopped)
      invariant c.pending == Tally(records[..i], Pending) + Tally(records[..i], Running)
      invariant forall w :: At(byNode, w) == TallyNode(records[..i], w)
      invariant forall w :: w in byNode ==> byNode[w] > 0
    {
      assert records[..i + 1][..i] == records[..i];
      var rec := records[i].record;
      c := c.(created := c.created + 1);
      if rec.assignedTo.Some? {
        byNode := byNode[rec.assignedTo.value := At(byNode, rec.assignedTo.value) + 1];
      }
      match rec.status
      case Completed => c := c.(completed := c.completed + 1);
      case Failed => c := c.(failed := c.failed + 1);
      case Stopped => c := c.(stopped := c.stopped + 1);
      case _ => c := c.(pending := c.pending + 1);
    }
    assert records[..|records|] == records;
  }

  // ---- the counts are sizes of sets of jobs ----

  function WithStatus(h: History, status: TaskStatus): set<JobId> { set j | j in h && h[j].status == status }

  function NamesWith(records: seq<Entry>, status: TaskStatus): set<JobId> {
    set e | e in records && e.record.status == status :: e.id
  }

  function NamesAt(records: seq<Entry>, w: NodeId): set<JobId> {
    set e | e in records && e.record.assignedTo == Some(w) :: e.id
  }

  lemma NamesAppend(t: seq<Entry>, l: Entry, status: TaskStatus, w: NodeId)
    ensures NamesWith(t + [l], status) ==
            if l.record.status == status then NamesWith(t, status) + {l.id} else NamesWith(t, status)
    ensures NamesAt(t + [l], w) == if l.record.assignedTo == Some(w) then NamesAt(t, w) + {l.id} else NamesAt(t, w)
  {
  }

  /** Counting records with distinct names is counting names. */
  lemma {:induction false} TalliesAreSizes(records: seq<Entry>, status: TaskStatus, w: NodeId)
    requires BatchingTheorems.DistinctNames(records)
    ensures Tally(records, status) == |NamesWith(records, status)|
    ensures TallyNode(records, w) == |NamesAt(records, w)|
  {
    if records != [] {
      var t, l := records[..|records| - 1], records[|records| - 1];
      assert records == t + [l];
      TalliesAreSizes(t, status, w);
      NamesAppend(t, l, status, w);
      NameIsNew(records);
      assert l.id !in NamesWith(t, status) && l.id !in NamesAt(t, w);
      hide NamesWith, NamesAt;
    }
  }

  lemma NameIsNew(records: seq<Entry>)
    requires BatchingTheorems.DistinctNames(records) && records != []
    ensures forall e :: e in records[..|records| - 1] ==> e.id != records[|records| - 1].id
  {
  }

  lemma ListedSets(records: seq<Entry>, h: History, status: TaskStatus, w: NodeId)
    requires BatchingTheorems.Lists(records, h)
    ensures NamesWith(records, status) == WithStatus(h, status)
    ensures NamesAt(records, w) == LoadTheorems.ClaimedBy(h, w)
  {
    forall j | j in WithStatus(h, status) ensures j in NamesWith(records, status) {
      assert Entry(j, h[j]) in records;
    }
    forall j | j in LoadTheorems.ClaimedBy(h, w) ensures j in NamesAt(records, w) {
      assert Entry(j, h[j]) in records;
    }
  }

  lemma ListedTallies(records: seq<Entry>, h: History, status: TaskStatus, w: NodeId)
    requires BatchingTheorems.Lists(records, h)
    ensures Tally(records, status) == |WithStatus(h, status)|
    ensures TallyNode(records, w) == |LoadTheorems.ClaimedBy(h, w)|
  {
    TalliesAreSizes(records, status, w);
    ListedSets(records, h, status, w);
  }

  // ---- conservation on every run ----

  function QueueNames(q: seq<Task>): set<JobId> { set t | t in q :: t.id }

  lemma {:induction false} QueueSize(q: seq<Task>)
    requires forall i, k :: 0 <= i < k < |q| ==> q[i].id != q[k].id
    ensures |QueueNames(q)| == |q|
  {
    if q != [] {
      var t, l := q[..|q| - 1], q[|q| - 1];
      QueueSize(t);
      assert q == t + [l];
      assert QueueNames(q) == QueueNames(t) + {l.id};
    }
  }

  /** The queue is the set of pending records. */
  lemma QueueIsPending(s: System)
    requires Inv(s)
    ensures |WithStatus(s.edge.history, Pending)| == |s.edge.queue|
  {
    var q, h := s.edge.queue, s.edge.history;
    QueueDistinct(s);
    QueueSize(q);
    forall j ensures j in WithStatus(h, Pending) <==> j in QueueNames(q) {
      if j in h {
        PlacesExact(s, j);
        PendingRecord(s, j);
      }
    }
    assert WithStatus(h, Pending) == QueueNames(q);
  }

  /** Report figures of a reachable state. `pending` is the queue plus the jobs claimed and not yet
      reported back, so everything is done exactly when nothing is queued and nothing outstanding. */
  lemma ReportConserves(b: seq<System>, i: nat, records: seq<Entry>)
    requires IsRun(b) && i < |b| && BatchingTheorems.Lists(records, b[i].edge.history)
    ensures var h := b[i].edge.history;
      && Tally(records, Pending) + Tally(records, Running) == |b[i].edge.queue| + |WithStatus(h, Running)|
      && Tally(records, Completed) == |WithStatus(h, Completed)|
      && Tally(records, Failed) == |WithStatus(h, Failed)|
      && Tally(records, Stopped) == |WithStatus(h, Stopped)|
    ensures Tally(records, Pending) + Tally(records, Running) == 0
      <==> b[i].edge.queue == [] && forall j :: j in b[i].edge.history ==> b[i].edge.history[j].status != Running
  {
    RunKeeps(b, i);
    var s := b[i];
    hide IsRun;
    QueueIsPending(s);
    hide Inv;
    var h := s.edge.history;
    ListedTallies(records, h, Pending, 0);
    ListedTallies(records, h, Running, 0);
    ListedTallies(records, h, Completed, 0);
    ListedTallies(records, h, Failed, 0);
    ListedTallies(records, h, Stopped, 0);
    NoneRunning(h);
  }

  lemma NoneRunning(h: History)
    ensures |WithStatus(h, Running)| == 0 <==> forall j :: j in h ==> h[j].status != Running
  {
    if j :| j in h && h[j].status == Running {
      assert j in WithStatus(h, Running);
    } else {
      assert WithStatus(h, Running) == {};
    }
  }

  /** One lost job, and no later report is ever complete. */
  lemma LostNeverDone(b: seq<System>, i: nat, k: nat, j: JobId, records: seq<Entry>)
    requires IsRun(b) && i <= k < |b| && j in b[i].place && b[i].place[j].Lost?
    requires BatchingTheorems.Lists(records, b[k].edge.history)
    ensures Tally(records, Pending) + Tally(records, Running) > 0
  {
    LostForever(b, i, k, j);
    ReportConserves(b, k, records);
  }

  // ---- assignments per node ----

  lemma {:induction false} AssignmentsCounted(mode: SchedulerMode, trace: seq<Call>, w: NodeId)
    requires Leave(w) !in trace
    ensures At(Replay(mode, trace).assignments, w) == |TypesOf(trace, w)|
  {
    if trace != [] {
      var t, call := trace[..|trace| - 1], trace[|trace| - 1];
      AssignmentsCounted(mode, t, w);
      InflightNonNegative(mode, t, w);
      ApplyCounters(mode, Replay(mode, t), call, w);
      hide Apply;
    }
  }

  function Names(s: seq<Entry>): set<JobId> { set e | e in s :: e.id }

  lemma {:induction false} OrderedSize(s: seq<Entry>, h: History)
    requires BatchingTheorems.Ordered(s) && forall e :: e in s ==> e.id in h && e.record == h[e.id]
    ensures |Names(s)| == |s|
  {
    if s != [] {
      var t, l := s[..|s| - 1], s[|s| - 1];
      assert s == t + [l];
      OrderedSize(t, h);
      forall e | e in t ensures e.id != l.id {
        var i :| 0 <= i < |t| && t[i] == e;
        assert s[i].record.assignedAt.value < s[|t|].record.assignedAt.value;
      }
      assert Names(s) == Names(t) + {l.id};
    }
  }

  /** For a worker never forgotten, the scheduler's `assigned` and the report's assignments per node,
      counted independently, agree. */
  lemma AssignmentsAgree(b: seq<System>, i: nat, w: NodeId, records: seq<Entry>)
    requires IsRun(b) && i < |b| && w !in b[i].removed && BatchingTheorems.Lists(records, b[i].edge.history)
    ensures At(b[i].edge.counters.assignments, w) == TallyNode(records, w)
  {
    RunKeeps(b, i);
    var s := b[i];
    hide IsRun;
    BatchingTheorems.NeverForgotten(s, w);
    AlongIsClaimed(s, w);
    hide Inv;
    AssignmentsCounted(s.mode, s.trace, w);
    ListedTallies(records, s.edge.history, Pending, w);
  }

  lemma AlongIsClaimed(s: System, w: NodeId)
    requires Inv(s)
    ensures |TypesOf(s.trace, w)| == |LoadTheorems.ClaimedBy(s.edge.history, w)|
  {
    var h := s.edge.history;
    var a := BatchingTheorems.Along(s.trace, w, h);
    BatchingTheorems.AlongTypes(s.trace, w, h, s.edge.clock, s.removed);
    BatchingTheorems.AlongMembers(s.trace, w, h, s.edge.clock, s.removed);
    BatchingTheorems.AlongOrdered(s.trace, w, h, s.edge.clock, s.removed);
    TypesInLength(a);
    OrderedSize(a, h);
    AlongNames(s, w);
  }

  lemma AlongNames(s: System, w: NodeId)
    requires Inv(s)
    ensures Names(BatchingTheorems.Along(s.trace, w, s.edge.history)) == LoadTheorems.ClaimedBy(s.edge.history, w)
  {
    var h, a := s.edge.history, BatchingTheorems.Along(s.trace, w, s.edge.history);
    BatchingTheorems.AlongMembers(s.trace, w, h, s.edge.clock, s.removed);
    forall j | j in LoadTheorems.ClaimedBy(h, w) ensures j in Names(a) {
      BatchingTheorems.AssignedTime(s, j, w);
      assert Entry(j, h[j]) in a;
    }
    forall e | e in a ensures e.id in LoadTheorems.ClaimedBy(h, w) {
      var i :| 0 <= i < |s.trace| && s.trace[i].Assign? && s.trace[i].node == w && s.trace[i].job == e.id;
      assert CallOk(s.trace[i], h, s.edge.clock, s.removed);
    }
  }
}
