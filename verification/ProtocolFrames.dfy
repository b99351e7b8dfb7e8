/** What the parts of the protocol invariant do not depend on. */
module ProtocolFrames {
  import opened Shared
  import opened SchedulerCounters
  import opened EdgeState
  import opened Protocol
  import opened ProtocolInvariant
  import W = WorkerState

  predicate Settled(p: Place) { p.Held? || p.Done? || p.Lost? }

  /** The two place maps agree on every job that has reached a worker. */
  ghost predicate SameSettled(p: Places, q: Places) {
    && (forall j :: j in p && Settled(p[j]) ==> j in q && q[j] == p[j])
    && (forall j :: j in q && Settled(q[j]) ==> j in p && p[j] == q[j])
  }

  ghost predicate MoreClaims(c: Claims, d: Claims) { forall r :: r in c ==> r in d && d[r] == c[r] }

  lemma WorkersFrame(workers: Workers, c: Claims, d: Claims, h: History, k: History, p: Places, q: Places)
    requires WorkersOk(workers, c, h, p) && HeldOk(workers, p)
    requires MoreClaims(c, d) && Extends(h, k) && SameSettled(p, q)
    ensures WorkersOk(workers, d, k, q) && HeldOk(workers, q)
  {
    forall w | w in workers ensures WorkerOk(w, workers[w], d, k, q) {
      WorkerFrame(w, workers[w], c, d, h, k, p, q);
    }
  }

  lemma WorkerFrame(w: NodeId, x: W.Worker, c: Claims, d: Claims, h: History, k: History, p: Places, q: Places)
    requires WorkerOk(w, x, c, h, p)
    requires MoreClaims(c, d) && Extends(h, k)
    requires forall j :: j in p && (p[j] == Held(w) || p[j].Done?) ==> j in q && q[j] == p[j]
    ensures WorkerOk(w, x, d, k, q)
  {
  }

  lemma EventsFrame(events: set<CompletionEvent>, learning: Option<CompletionEvent>, h: History, k: History, p: Places,
      q: Places)
    requires EventsOk(events, learning, h, p) && Extends(h, k) && SameSettled(p, q)
    ensures EventsOk(events, learning, k, q)
  {
  }

  lemma RunsFrame(runs: seq<Run>, workers: Workers, p: Places, q: Places)
    requires RunsOk(runs, workers, p) && SameSettled(p, q)
    ensures RunsOk(runs, workers, q)
  {
    forall i | 0 <= i < |runs| ensures RunOk(runs[i], workers, q) {
      assert RunOk(runs[i], workers, p);
    }
  }

  /** A claim answer survives a change of another job's place. */
  lemma RepliesFrame(replies: map<W.RequestId, ClaimReply>, c: Claims, pending: set<W.RequestId>, h: History,
      k: History, p: Places, q: Places)
    requires RepliesOk(replies, c, pending, h, p) && Extends(h, k)
    requires forall j :: j in p && p[j].InReply? ==> j in q && q[j] == p[j]
    requires forall j :: j in q && q[j].InReply? ==> j in p && p[j] == q[j]
    ensures RepliesOk(replies, c, pending, k, q)
  {
  }

  lemma QueueNamesDistinct(q: seq<Task>, h: History, p: Places, i: nat, n: nat)
    requires QueueOk(q, h, p) && i < |q| && n < |q| && q[i].id == q[n].id
    ensures i == n
  {
    assert q[i].createdAt == q[n].createdAt;
  }

  lemma WithoutAt<T>(s: seq<T>, i: nat, n: nat)
    requires i < |s| && n < |s| && n != i
    ensures var m := if n < i then n else n - 1; m < |Without(s, i)| && Without(s, i)[m] == s[n]
  {
  }

  lemma WithoutFrom<T>(s: seq<T>, i: nat, m: nat)
    requires i < |s| && m < |Without(s, i)|
    ensures var n := if m < i then m else m + 1; n < |s| && n != i && Without(s, i)[m] == s[n]
  {
  }

  /** Taking one job out of the queue keeps the others, in order. */
  lemma QueueRemoval(q: seq<Task>, h: History, k: History, p: Places, i: nat, to: Place)
    requires QueueOk(q, h, p) && i < |q| && Extends(h, k) && to != Queued
    ensures QueueOk(Without(q, i), k, p[q[i].id := to])
  {
    hide Without;
    var r, id := Without(q, i), q[i].id;
    var p' := p[id := to];
    forall m | 0 <= m < |r|
      ensures r[m].status == Pending && Matches(k, r[m]) && r[m].id in p' && p'[r[m].id] == Queued
    {
      WithoutFrom(q, i, m);
      var n := if m < i then m else m + 1;
      if q[n].id == id {
        QueueNamesDistinct(q, h, p, i, n);
      }
    }
    forall m, m' | 0 <= m < m' < |r| ensures r[m].createdAt < r[m'].createdAt {
      WithoutFrom(q, i, m);
      WithoutFrom(q, i, m');
    }
    forall j | j in p' && p'[j] == Queued ensures exists m :: 0 <= m < |r| && r[m].id == j {
      var n :| 0 <= n < |q| && q[n].id == j;
      WithoutAt(q, i, n);
    }
  }

  /** Nothing queued moves when a job that is not queued changes place. */
  lemma QueueFrame(q: seq<Task>, h: History, k: History, p: Places, j: JobId, to: Place)
    requires QueueOk(q, h, p) && Extends(h, k) && to != Queued
    requires j in p ==> p[j] != Queued
    ensures QueueOk(q, k, p[j := to])
  {
  }

  /** A new job joins the end of the queue with the latest creation time. */
  lemma QueueAppend(q: seq<Task>, h: History, k: History, p: Places, t: Task, clock: Time)
    requires QueueOk(q, h, p) && RecordsOk(h, clock) && Extends(h, k)
    requires t.id !in p && Matches(k, t) && t.status == Pending && t.createdAt > clock
    ensures QueueOk(q + [t], k, p[t.id := Queued])
  {
    var r := q + [t];
    assert r[|q|] == t;
    forall j | j in p && p[j] == Queued ensures exists n :: 0 <= n < |r| && r[n].id == j {
      var n :| 0 <= n < |q| && q[n].id == j;
      assert r[n].id == j;
    }
  }

  // ---- records ----

  /** One record and one place change together. */
  lemma StatusMove(h: History, p: Places, delivered: set<JobId>, claims: Claims, j: JobId, r: JobRecord, to: Place)
    requires StatusOk(h, p, delivered, claims) && (j in delivered ==> to.Done?) && (to.Done? ==> to.outcome.Terminal())
    requires r.status == StatusAt(to, j in delivered) && r.assignedTo == ClaimantAt(to, claims)
    ensures StatusOk(h[j := r], p[j := to], delivered, claims)
  {
    var k, q := h[j := r], p[j := to];
    forall i | i in q
      ensures k[i].status == StatusAt(q[i], i in delivered) && k[i].assignedTo == ClaimantAt(q[i], claims) {
    }
  }

  lemma RecordUpdate(h: History, clock: Time, now: Time, j: JobId, r: JobRecord)
    requires RecordsOk(h, clock) && clock <= now
    requires 1 <= r.taskType <= 10 && r.createdAt <= now && (r.assignedAt.Some? ==> r.assignedAt.value <= now)
    requires r.assignedTo.Some? <==> r.assignedAt.Some?
    ensures RecordsOk(h[j := r], now)
  {
  }

  lemma RecordExtends(h: History, j: JobId, r: JobRecord)
    requires j in h ==>
      r.taskType == h[j].taskType && r.memoryUsage == h[j].memoryUsage && r.createdAt == h[j].createdAt
    ensures Extends(h, h[j := r])
  {
  }

  // ---- load ----

  /** A record that w does not owe before or after leaves every debt alone. */
  lemma LoadFrame(c: Counters, d: Counters, h: History, learning: Option<CompletionEvent>, excused: set<NodeId>,
      j: JobId, r: JobRecord)
    requires LoadOk(c, h, learning, excused)
    requires forall w :: w !in excused ==> At(d.inflight, w) == At(c.inflight, w)
    requires j in h && h[j].assignedTo.Some? && h[j].status != Completed ==>
      r.assignedTo == h[j].assignedTo && r.status != Completed
    requires r.assignedTo.Some? && r.status != Completed ==>
      j in h && h[j].assignedTo == r.assignedTo && h[j].status != Completed
    ensures LoadOk(d, h[j := r], learning, excused)
  {
    forall w ensures Owed(h[j := r], w) == Owed(h, w) {
    }
  }

  lemma OwedCharged(h: History, j: JobId, r: JobRecord, node: NodeId, w: NodeId)
    requires j in h && h[j].assignedTo == None && r.assignedTo == Some(node) && r.status != Completed
    ensures Owed(h[j := r], w) == if w == node then Owed(h, w) + {j} else Owed(h, w)
    ensures j !in Owed(h, w)
  {
  }

  /** An unassigned job is charged to one worker. */
  lemma LoadCharged(c: Counters, d: Counters, h: History, learning: Option<CompletionEvent>, excused: set<NodeId>,
      j: JobId, r: JobRecord, node: NodeId)
    requires LoadOk(c, h, learning, excused)
    requires forall w :: At(d.inflight, w) == At(c.inflight, w) + if w == node then 1 else 0
    requires j in h && h[j].assignedTo == None && r.assignedTo == Some(node) && r.status != Completed
    ensures LoadOk(d, h[j := r], learning, excused)
  {
    hide Owed;
    forall w | w !in excused ensures At(d.inflight, w) == |Owed(h[j := r], w)| + Unlearned(learning, w) {
      OwedCharged(h, j, r, node, w);
    }
  }

  /** A first success event moves one unit from the debts to the event loop. */
  lemma LoadSettled(c: Counters, h: History, event: CompletionEvent, excused: set<NodeId>, r: JobRecord)
    requires LoadOk(c, h, None, excused)
    requires event.job in h && h[event.job].assignedTo == Some(event.node) && h[event.job].status != Completed
    requires r.assignedTo == Some(event.node) && r.status == Completed
    ensures LoadOk(c, h[event.job := r], Some(event), excused)
  {
    var k, j := h[event.job := r], event.job;
    forall w ensures Owed(k, w) == if w == event.node then Owed(h, w) - {j} else Owed(h, w) {
    }
    assert j in Owed(h, event.node);
  }

  /** Excusing a worker, and an event of an excused worker. */
  lemma LoadExcused(c: Counters, h: History, learning: Option<CompletionEvent>, excused: set<NodeId>,
      event: CompletionEvent)
    requires LoadOk(c, h, None, excused) && learning == Some(event)
    ensures LoadOk(c, h, learning, excused + {event.node})
  {
  }

  // ---- the trace of scheduler calls ----

  ghost predicate SameAssignments(h: History, k: History) {
    && (forall j :: j in h && h[j].assignedTo.Some? ==>
        j in k && k[j].assignedTo == h[j].assignedTo && k[j].assignedAt == h[j].assignedAt
          && k[j].taskType == h[j].taskType)
    && (forall j :: j in k && k[j].assignedTo.Some? ==> j in h && h[j].assignedTo == k[j].assignedTo)
  }

  lemma TraceFrame(mode: SchedulerMode, c: Counters, trace: seq<Call>, h: History, k: History, clock: Time, now: Time,
      removed: set<NodeId>)
    requires TraceOk(mode, c, trace, h, clock, removed) && SameAssignments(h, k) && clock <= now
    ensures TraceOk(mode, c, trace, k, now, removed)
  {
    forall i | 0 <= i < |trace| ensures CallOk(trace[i], k, now, removed) {
      assert CallOk(trace[i], h, clock, removed);
    }
  }

  lemma TraceCall(mode: SchedulerMode, c: Counters, trace: seq<Call>, h: History, clock: Time, removed: set<NodeId>,
      gone: set<NodeId>, call: Call)
    requires TraceOk(mode, c, trace, h, clock, removed) && removed <= gone
    requires !call.Assign? && (call.Leave? ==> call.node in gone)
    ensures TraceOk(mode, Apply(mode, c, call), trace + [call], h, clock, gone)
  {
    ReplayStep(mode, trace, call);
    hide Replay, Apply;
    var next := trace + [call];
    forall i | 0 <= i < |next| ensures CallOk(next[i], h, clock, gone) {
      if i < |trace| {
        assert CallOk(trace[i], h, clock, removed);
      }
    }
  }

  lemma AssignKeepsCalls(mode: SchedulerMode, c: Counters, trace: seq<Call>, h: History, clock: Time,
      removed: set<NodeId>, j: JobId, r: JobRecord, i: nat)
    requires TraceOk(mode, c, trace, h, clock, removed)
    requires j in h && h[j].assignedTo == None && i < |trace|
    ensures CallOk(trace[i], h[j := r], clock + 1, removed)
    ensures trace[i].Assign? ==> trace[i].at < clock + 1
  {
    assert CallOk(trace[i], h, clock, removed);
  }

  lemma AssignKeepsRecords(mode: SchedulerMode, c: Counters, trace: seq<Call>, h: History, clock: Time,
      removed: set<NodeId>, i: JobId)
    requires TraceOk(mode, c, trace, h, clock, removed)
    requires i in h && h[i].assignedTo.Some? && h[i].assignedAt.Some?
    ensures Assign(h[i].assignedTo.value, i, h[i].taskType, h[i].assignedAt.value) in trace
  {
  }

  /** A record other than the one just assigned is still traced. */
  lemma AssignTraced(mode: SchedulerMode, c: Counters, trace: seq<Call>, h: History, clock: Time, removed: set<NodeId>,
      call: Call, j: JobId, r: JobRecord, i: JobId)
    requires TraceOk(mode, c, trace, h, clock, removed)
    requires r.assignedTo.Some? && r.assignedAt.Some?
      && call == Assign(r.assignedTo.value, j, r.taskType, r.assignedAt.value)
    requires var k := h[j := r]; i in k && k[i].assignedTo.Some? && k[i].assignedAt.Some?
    ensures var k := h[j := r];
      Assign(k[i].assignedTo.value, i, k[i].taskType, k[i].assignedAt.value) in trace + [call]
  {
    if i == j {
      assert (trace + [call])[|trace|] == call;
    } else {
      AssignKeepsRecords(mode, c, trace, h, clock, removed, i);
    }
  }

  lemma AssignOrder(mode: SchedulerMode, c: Counters, trace: seq<Call>, h: History, clock: Time, removed: set<NodeId>,
      call: Call)
    requires TraceOk(mode, c, trace, h, clock, removed) && call.Assign? && call.at == clock + 1
    ensures var next := trace + [call];
      forall i, k :: 0 <= i < k < |next| && next[i].Assign? && next[k].Assign? ==> next[i].at < next[k].at
  {
    hide Replay;
    forall i | 0 <= i < |trace| && trace[i].Assign? ensures trace[i].at < clock + 1 {
      assert CallOk(trace[i], h, clock, removed);
    }
  }

  lemma TraceAssign(mode: SchedulerMode, c: Counters, trace: seq<Call>, h: History, clock: Time, removed: set<NodeId>,
      node: NodeId, j: JobId, r: JobRecord)
    requires TraceOk(mode, c, trace, h, clock, removed)
    requires j in h && h[j].assignedTo == None
    requires r.assignedTo == Some(node) && r.assignedAt == Some(clock + 1) && r.taskType == h[j].taskType
    ensures var call := Assign(node, j, r.taskType, clock + 1);
      TraceOk(mode, Apply(mode, c, call), trace + [call], h[j := r], clock + 1, removed)
  {
    hide Replay, Apply, CallOk;
    var call, k := Assign(node, j, r.taskType, clock + 1), h[j := r];
    var next := trace + [call];
    ReplayStep(mode, trace, call);
    AssignOrder(mode, c, trace, h, clock, removed, call);
    NewCallOk(call, k, clock + 1, removed);
    forall i | 0 <= i < |next| ensures CallOk(next[i], k, clock + 1, removed) {
      if i < |trace| {
        AssignKeepsCalls(mode, c, trace, h, clock, removed, j, r, i);
      }
    }
    forall i | i in k && k[i].assignedTo.Some? && k[i].assignedAt.Some?
      ensures Assign(k[i].assignedTo.value, i, k[i].taskType, k[i].assignedAt.value) in next
    {
      AssignTraced(mode, c, trace, h, clock, removed, call, j, r, i);
    }
  }

  lemma NewCallOk(call: Call, h: History, clock: Time, removed: set<NodeId>)
    requires call.Assign? && call.at == clock && call.job in h
    requires h[call.job].assignedTo == Some(call.node) && h[call.job].assignedAt == Some(clock)
      && h[call.job].taskType == call.taskType
    ensures CallOk(call, h, clock, removed)
  {
  }
}
