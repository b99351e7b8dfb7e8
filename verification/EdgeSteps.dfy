/** Every step of the edge server keeps the protocol invariant. */
module EdgeSteps {
  import opened Shared
  import opened SchedulerCounters
  import opened EdgeState
  import opened Protocol
  import opened ProtocolInvariant
  import opened ProtocolFrames
  import W = WorkerState

  // ---- job creation ----

  lemma FreshName(s: System, id: JobId)
    requires StatusOk(s.edge.history, s.place, s.delivered, s.claims) && id !in s.edge.history
    ensures id !in s.place && id !in s.delivered
  {
  }

  lemma CreateKeepsJobs(s: System, r: JobRequest, id: JobId)
    requires Inv(s) && ValidRequest(r) && id !in s.edge.history
    ensures var t := DoCreate(s, r, id);
      && RecordsOk(t.edge.history, t.edge.clock)
      && QueueOk(t.edge.queue, t.edge.history, t.place)
      && StatusOk(t.edge.history, t.place, t.delivered, t.claims)
      && RepliesOk(t.replies, t.claims, t.pending, t.edge.history, t.place)
  {
    hide RecordsOk, QueueOk, StatusOk, RepliesOk, WorkersOk, HeldOk, EventsOk, StopsOk, RunsOk, NodesOk, LoadOk,
      TraceOk, MemoryNeed;
    var t := DoCreate(s, r, id);
    var h, k := s.edge.history, t.edge.history;
    var task := NewTask(r, id, s.edge.clock + 1);
    FreshName(s, id);
    RecordExtends(h, id, NewRecord(task));
    RecordUpdate(h, s.edge.clock, s.edge.clock + 1, id, NewRecord(task));
    QueueAppend(s.edge.queue, h, k, s.place, task, s.edge.clock);
    StatusMove(h, s.place, s.delivered, s.claims, id, NewRecord(task), Queued);
    RepliesFrame(s.replies, s.claims, s.pending, h, k, s.place, t.place);
  }

  lemma CreateKeepsWorkers(s: System, r: JobRequest, id: JobId)
    requires Inv(s) && ValidRequest(r) && id !in s.edge.history
    ensures var t := DoCreate(s, r, id);
      && WorkersOk(t.workers, t.claims, t.edge.history, t.place) && HeldOk(t.workers, t.place)
      && EventsOk(t.events, t.learning, t.edge.history, t.place)
      && StopsOk(t.stops, t.cancels, t.workers, t.place)
      && RunsOk(t.runs, t.workers, t.place)
  {
    hide RecordsOk, QueueOk, StatusOk, RepliesOk, WorkersOk, HeldOk, EventsOk, StopsOk, RunsOk, NodesOk, LoadOk,
      TraceOk, MemoryNeed;
    var t := DoCreate(s, r, id);
    var h, k := s.edge.history, t.edge.history;
    FreshName(s, id);
    RecordExtends(h, id, k[id]);
    WorkersFrame(s.workers, s.claims, s.claims, h, k, s.place, t.place);
    EventsFrame(s.events, s.learning, h, k, s.place, t.place);
    StopsMove(s, t, id, Queued);
    RunsFrame(s.runs, s.workers, s.place, t.place);
  }

  lemma CreateKeeps(s: System, r: JobRequest, id: JobId)
    requires Inv(s) && ValidRequest(r) && id !in s.edge.history
    ensures Inv(DoCreate(s, r, id))
  {
    hide RecordsOk, QueueOk, StatusOk, RepliesOk, WorkersOk, HeldOk, EventsOk, StopsOk, RunsOk, NodesOk, LoadOk,
      TraceOk, MemoryNeed;
    var t := DoCreate(s, r, id);
    var h, k := s.edge.history, t.edge.history;
    CreateKeepsJobs(s, r, id);
    CreateKeepsWorkers(s, r, id);
    LoadFrame(s.edge.counters, s.edge.counters, h, s.learning, s.removed + s.replayed, id, k[id]);
    TraceFrame(s.mode, s.edge.counters, s.trace, h, k, s.edge.clock, s.edge.clock + 1, s.removed);
  }

  /** A place change is harmless for stop requests unless it reads as stopped. */
  lemma StopsMove(s: System, t: System, j: JobId, to: Place)
    requires StopsOk(s.stops, s.cancels, s.workers, s.place)
    requires t.workers == s.workers && t.cancels == s.cancels && s.stops <= t.stops && t.place == s.place[j := to]
    requires to == Withdrawn || (to.Done? && to.outcome == Stopped) ==> j in t.stops
    ensures StopsOk(t.stops, t.cancels, t.workers, t.place)
  {
    forall w | w in t.workers ensures CancelOk(t.workers[w], t.stops) {
      assert CancelOk(s.workers[w], s.stops);
    }
  }

  // ---- claims ----

  /** An accepted claim takes a queued job whose record is still unassigned. */
  lemma AcceptedTask(s: System, req: W.RequestId, members: seq<Member>, best: Option<NodeId>)
    requires QueueOk(s.edge.queue, s.edge.history, s.place)
    requires StatusOk(s.edge.history, s.place, s.delivered, s.claims)
    requires RepliesOk(s.replies, s.claims, s.pending, s.edge.history, s.place)
    requires req in s.claims && req in s.pending && ReplyTo(s, req, members, best).Accepted?
    ensures var t, j := ReplyTo(s, req, members, best).task, s.claims[req].job;
      var i := FindPending(s.edge.queue, j);
      && i < |s.edge.queue| && s.edge.queue[i] == t && t.id == j
      && Matches(s.edge.history, t)
      && j in s.place && s.place[j] == Queued && j !in s.delivered
      && s.edge.history[j].assignedTo == None && s.edge.history[j].status == Pending
      && req !in s.replies
  {
  }

  lemma RepliesAdd(s: System, req: W.RequestId, t: Task, k: History)
    requires RepliesOk(s.replies, s.claims, s.pending, s.edge.history, s.place) && Extends(s.edge.history, k)
    requires req in s.pending && req in s.claims && req !in s.replies && t.id == s.claims[req].job
    requires Matches(k, t) && t.id in s.place && !s.place[t.id].InReply?
    ensures RepliesOk(s.replies[req := Accepted(t)], s.claims, s.pending - {req}, k, s.place[t.id := InReply(req)])
  {
  }

  lemma ChargedInflight(mode: SchedulerMode, c: Counters, node: NodeId, t: TaskType)
    ensures forall w :: At(Charged(mode, c, node, t).inflight, w) == At(c.inflight, w) + if w == node then 1 else 0
  {
  }

  lemma AcceptKeeps(s: System, req: W.RequestId, members: seq<Member>, best: Option<NodeId>)
    requires Inv(s) && req in s.pending && req in s.claims
    requires ReplyTo(s, req, members, best).Accepted?
    ensures Inv(DoClaim(s, req, members, best))
  {
    hide RecordsOk, QueueOk, StatusOk, RepliesOk, WorkersOk, HeldOk, EventsOk, StopsOk, RunsOk, NodesOk, LoadOk,
      TraceOk, Charged, ClaimDecision, Without, FindPending;
    AcceptedTask(s, req, members, best);
    var t := DoClaim(s, req, members, best);
    var h, k := s.edge.history, t.edge.history;
    var node, j := s.claims[req].node, s.claims[req].job;
    var task := ReplyTo(s, req, members, best).task;
    AssignedType(h, s.edge.clock, j);
    var r := h[j].(assignedTo := Some(node), assignedAt := Some(s.edge.clock + 1), status := Running);
    RecordExtends(h, j, r);
    RecordUpdate(h, s.edge.clock, s.edge.clock + 1, j, r);
    QueueRemoval(s.edge.queue, h, k, s.place, FindPending(s.edge.queue, j), InReply(req));
    StatusMove(h, s.place, s.delivered, s.claims, j, r, InReply(req));
    RepliesAdd(s, req, task, k);
    WorkersFrame(s.workers, s.claims, s.claims, h, k, s.place, t.place);
    EventsFrame(s.events, s.learning, h, k, s.place, t.place);
    StopsMove(s, t, j, InReply(req));
    RunsFrame(s.runs, s.workers, s.place, t.place);
    ChargedInflight(s.mode, s.edge.counters, node, task.taskType);
    LoadCharged(s.edge.counters, t.edge.counters, h, s.learning, s.removed + s.replayed, j, r, node);
    TraceAssign(s.mode, s.edge.counters, s.trace, h, s.edge.clock, s.removed, node, j, r);
  }

  lemma AssignedType(h: History, clock: Time, j: JobId)
    requires RecordsOk(h, clock) && j in h
    ensures 1 <= h[j].taskType <= 10 && h[j].createdAt <= clock
    ensures h[j].assignedTo.Some? <==> h[j].assignedAt.Some?
    ensures h[j].assignedAt.Some? ==> h[j].assignedAt.value <= clock
  {
  }

  lemma RepliesReject(s: System, req: W.RequestId, reply: ClaimReply)
    requires RepliesOk(s.replies, s.claims, s.pending, s.edge.history, s.place)
    requires req in s.pending && !reply.Accepted?
    ensures RepliesOk(s.replies[req := reply], s.claims, s.pending - {req}, s.edge.history, s.place)
  {
  }

  lemma RejectKeeps(s: System, req: W.RequestId, members: seq<Member>, best: Option<NodeId>)
    requires Inv(s) && req in s.pending && req in s.claims
    requires !ReplyTo(s, req, members, best).Accepted?
    ensures Inv(DoClaim(s, req, members, best))
  {
    hide RecordsOk, QueueOk, StatusOk, RepliesOk, WorkersOk, HeldOk, EventsOk, StopsOk, RunsOk, NodesOk, LoadOk,
      TraceOk, ClaimDecision;
    RepliesReject(s, req, ReplyTo(s, req, members, best));
  }

  // ---- stop requests ----

  lemma WithdrawnTask(s: System, j: JobId)
    requires QueueOk(s.edge.queue, s.edge.history, s.place)
    requires StatusOk(s.edge.history, s.place, s.delivered, s.claims)
    requires FindPending(s.edge.queue, j) < |s.edge.queue|
    ensures s.edge.queue[FindPending(s.edge.queue, j)].id == j
    ensures j in s.place && s.place[j] == Queued && j in s.edge.history && j !in s.delivered
    ensures s.edge.history[j].assignedTo == None
  {
  }

  lemma WithdrawKeeps(s: System, j: JobId, members: seq<Member>)
    requires Inv(s) && FindPending(s.edge.queue, j) < |s.edge.queue|
    ensures Inv(DoStop(s, j, members))
  {
    hide RecordsOk, QueueOk, StatusOk, RepliesOk, WorkersOk, HeldOk, EventsOk, StopsOk, RunsOk, NodesOk, LoadOk,
      TraceOk, Without, FindPending;
    WithdrawnTask(s, j);
    var t := DoStop(s, j, members);
    var h, k, i := s.edge.history, t.edge.history, FindPending(s.edge.queue, j);
    AssignedType(h, s.edge.clock, j);
    var r := k[j];
    RecordExtends(h, j, r);
    RecordUpdate(h, s.edge.clock, s.edge.clock + 1, j, r);
    QueueRemoval(s.edge.queue, h, k, s.place, i, Withdrawn);
    StatusMove(h, s.place, s.delivered, s.claims, j, r, Withdrawn);
    RepliesFrame(s.replies, s.claims, s.pending, h, k, s.place, t.place);
    WorkersFrame(s.workers, s.claims, s.claims, h, k, s.place, t.place);
    EventsFrame(s.events, s.learning, h, k, s.place, t.place);
    StopsMove(s, t, j, Withdrawn);
    RunsFrame(s.runs, s.workers, s.place, t.place);
    LoadFrame(s.edge.counters, s.edge.counters, h, s.learning, s.removed + s.replayed, j, r);
    TraceFrame(s.mode, s.edge.counters, s.trace, h, k, s.edge.clock, s.edge.clock + 1, s.removed);
  }

  lemma StopsSignal(s: System, t: System, j: JobId)
    requires StopsOk(s.stops, s.cancels, s.workers, s.place)
    requires t.workers == s.workers && t.place == s.place && t.stops == s.stops + {j}
    requires forall c :: c in t.cancels ==> c in s.cancels || c.job == j
    ensures StopsOk(t.stops, t.cancels, t.workers, t.place)
  {
    forall w | w in t.workers ensures CancelOk(t.workers[w], t.stops) {
      assert CancelOk(s.workers[w], s.stops);
    }
  }

  lemma StopKeeps(s: System, j: JobId, members: seq<Member>)
    requires Inv(s)
    ensures Inv(DoStop(s, j, members))
  {
    hide RecordsOk, QueueOk, StatusOk, RepliesOk, WorkersOk, HeldOk, EventsOk, StopsOk, RunsOk, NodesOk, LoadOk,
      TraceOk, RunningNode, FindPending;
    if FindPending(s.edge.queue, j) < |s.edge.queue| {
      WithdrawKeeps(s, j, members);
    } else {
      StopsSignal(s, DoStop(s, j, members), j);
    }
  }

  // ---- completion events ----

  /** What a delivered event says about the record it overwrites. */
  lemma DeliveredRecord(s: System, c: CompletionEvent)
    requires RecordsOk(s.edge.history, s.edge.clock)
    requires StatusOk(s.edge.history, s.place, s.delivered, s.claims)
    requires EventsOk(s.events, s.learning, s.edge.history, s.place) && c in s.events
    ensures var h := s.edge.history;
      && c.job in h && h[c.job].assignedTo == Some(c.node)
      && c.job in s.place && s.place[c.job] == Done(c.node, c.status)
      && h[c.job].status == (if c.job in s.delivered then c.status else Running)
      && (Teaches(c) <==> c.status == Completed)
      && c.status.Terminal()
  {
  }

  lemma CompleteKeepsLoad(s: System, c: CompletionEvent)
    requires Inv(s) && c in s.events && s.learning == None
    ensures var t := DoComplete(s, c);
      LoadOk(t.edge.counters, t.edge.history, t.learning, t.removed + t.replayed)
  {
    hide RecordsOk, QueueOk, StatusOk, RepliesOk, WorkersOk, HeldOk, EventsOk, StopsOk, RunsOk, NodesOk, LoadOk,
      TraceOk;
    DeliveredRecord(s, c);
    var t := DoComplete(s, c);
    var h, k, excused := s.edge.history, t.edge.history, s.removed + s.replayed;
    var r := k[c.job];
    if c.status != Completed || c.job in s.delivered {
      LoadFrame(s.edge.counters, s.edge.counters, h, None, excused, c.job, r);
      if c.status == Completed {
        LoadExcused(s.edge.counters, k, t.learning, excused, c);
        assert s.removed + (s.replayed + {c.node}) == excused + {c.node};
      }
    } else {
      LoadSettled(s.edge.counters, h, c, excused, r);
    }
  }

  lemma StatusDelivered(s: System, c: CompletionEvent, r: JobRecord)
    requires StatusOk(s.edge.history, s.place, s.delivered, s.claims)
    requires c.job in s.place && s.place[c.job] == Done(c.node, c.status) && r.status == c.status
      && r.assignedTo == Some(c.node)
    ensures StatusOk(s.edge.history[c.job := r], s.place, s.delivered + {c.job}, s.claims)
  {
  }

  lemma EventsLearning(events: set<CompletionEvent>, l: Option<CompletionEvent>, m: Option<CompletionEvent>, h: History,
      k: History, p: Places)
    requires EventsOk(events, l, h, p) && Extends(h, k) && (m.Some? ==> Teaches(m.value))
    ensures EventsOk(events, m, k, p)
  {
  }

  lemma QueueUntouched(q: seq<Task>, h: History, k: History, p: Places)
    requires QueueOk(q, h, p) && Extends(h, k)
    ensures QueueOk(q, k, p)
  {
  }

  lemma CompleteKeepsJobs(s: System, c: CompletionEvent)
    requires Inv(s) && c in s.events && s.learning == None
    ensures var t := DoComplete(s, c);
      && Extends(s.edge.history, t.edge.history)
      && RecordsOk(t.edge.history, t.edge.clock)
      && QueueOk(t.edge.queue, t.edge.history, t.place)
      && StatusOk(t.edge.history, t.place, t.delivered, t.claims)
      && TraceOk(t.mode, t.edge.counters, t.trace, t.edge.history, t.edge.clock, t.removed)
  {
    hide RecordsOk, QueueOk, StatusOk, RepliesOk, WorkersOk, HeldOk, EventsOk, StopsOk, RunsOk, NodesOk, LoadOk,
      TraceOk;
    DeliveredRecord(s, c);
    var h, k := s.edge.history, DoComplete(s, c).edge.history;
    var r := k[c.job];
    AssignedType(h, s.edge.clock, c.job);
    RecordExtends(h, c.job, r);
    RecordUpdate(h, s.edge.clock, s.edge.clock + 1, c.job, r);
    QueueUntouched(s.edge.queue, h, k, s.place);
    StatusDelivered(s, c, r);
    TraceFrame(s.mode, s.edge.counters, s.trace, h, k, s.edge.clock, s.edge.clock + 1, s.removed);
  }

  lemma CompleteKeeps(s: System, c: CompletionEvent)
    requires Inv(s) && c in s.events && s.learning == None
    ensures Inv(DoComplete(s, c))
  {
    hide RecordsOk, QueueOk, StatusOk, RepliesOk, WorkersOk, HeldOk, EventsOk, StopsOk, RunsOk, NodesOk, LoadOk,
      TraceOk;
    CompleteKeepsJobs(s, c);
    CompleteKeepsLoad(s, c);
    var t := DoComplete(s, c);
    var h, k := s.edge.history, t.edge.history;
    RepliesFrame(s.replies, s.claims, s.pending, h, k, s.place, s.place);
    WorkersFrame(s.workers, s.claims, s.claims, h, k, s.place, s.place);
    EventsLearning(s.events, s.learning, t.learning, h, k, s.place);
  }

  /** While its load is tracked, a node that is about to be released has something in flight. */
  lemma LoadReleased(c: Counters, h: History, event: CompletionEvent, excused: set<NodeId>)
    requires LoadOk(c, h, Some(event), excused)
    ensures LoadOk(Released(c, event.node), h, None, excused)
    ensures event.node !in excused ==> At(c.inflight, event.node) >= 1
  {
    forall w | w !in excused ensures At(Released(c, event.node).inflight, w) == |Owed(h, w)| + Unlearned(None, w) {
      assert At(c.inflight, w) == |Owed(h, w)| + Unlearned(Some(event), w);
    }
  }

  lemma LearnKeeps(s: System)
    requires Inv(s) && s.learning.Some?
    ensures Inv(DoLearn(s))
  {
    hide RecordsOk, QueueOk, StatusOk, RepliesOk, WorkersOk, HeldOk, EventsOk, StopsOk, RunsOk, NodesOk, LoadOk,
      TraceOk, Released;
    var c := s.learning.value;
    EventsLearning(s.events, s.learning, None, s.edge.history, s.edge.history, s.place);
    LoadReleased(s.edge.counters, s.edge.history, c, s.removed + s.replayed);
    TraceCall(s.mode, s.edge.counters, s.trace, s.edge.history, s.edge.clock, s.removed, s.removed, Complete(c.node));
  }

  // ---- membership ----

  lemma LoadMembership(c: Counters, d: Counters, h: History, learning: Option<CompletionEvent>, excused: set<NodeId>,
      more: set<NodeId>)
    requires LoadOk(c, h, learning, excused) && excused <= more
    requires forall w :: w !in more ==> At(d.inflight, w) == At(c.inflight, w)
    ensures LoadOk(d, h, learning, more)
  {
  }

  lemma AddKeeps(s: System, w: NodeId)
    requires Inv(s)
    ensures Inv(DoAdd(s, w))
  {
    var t := DoAdd(s, w);
    assert NodesOk(t.edge.nodes);
    assert forall v :: At(t.edge.counters.inflight, v) == At(s.edge.counters.inflight, v);
    hide RecordsOk, QueueOk, StatusOk, RepliesOk, WorkersOk, HeldOk, EventsOk, StopsOk, RunsOk, NodesOk, LoadOk,
      TraceOk, Ensured;
    LoadMembership(s.edge.counters, t.edge.counters, s.edge.history, s.learning, s.removed + s.replayed,
      s.removed + s.replayed);
    TraceCall(s.mode, s.edge.counters, s.trace, s.edge.history, s.edge.clock, s.removed, s.removed, Join(w));
  }

  /** `removeNode` is written to requeue work, but the records it reads never hold any. */
  lemma RemoveRequeuesNothing(e: Edge, w: NodeId)
    requires NodesOk(e.nodes)
    ensures NodeRemoved(e, w).queue == e.queue && NodesOk(NodeRemoved(e, w).nodes)
    ensures forall v :: v != w ==> At(NodeRemoved(e, w).counters.inflight, v) == At(e.counters.inflight, v)
  {
    if w in e.nodes {
      assert e.queue + [] + [] == e.queue;
    }
  }

  lemma RemoveKeeps(s: System, w: NodeId)
    requires Inv(s)
    ensures Inv(DoRemove(s, w))
  {
    hide RecordsOk, QueueOk, StatusOk, RepliesOk, WorkersOk, HeldOk, EventsOk, StopsOk, RunsOk, NodesOk, LoadOk,
      TraceOk, Forgotten;
    if w in s.edge.nodes {
      var t := DoRemove(s, w);
      RemoveRequeuesNothing(s.edge, w);
      LoadMembership(s.edge.counters, t.edge.counters, s.edge.history, s.learning, s.removed + s.replayed,
        t.removed + t.replayed);
      TraceCall(s.mode, s.edge.counters, s.trace, s.edge.history, s.edge.clock, s.removed, t.removed, Leave(w));
    }
  }
}
