/** Every step of a worker, and every loss of a message, keeps the protocol invariant. */
module WorkerSteps {
  import opened Shared
  import opened EdgeState
  import opened Protocol
  import opened ProtocolInvariant
  import opened ProtocolFrames
  import W = WorkerState

  // ---- steps that leave the current task where it is ----

  /** Replacing one worker by a state with the same current task that is busy only if it was. */
  lemma WorkerReplaced(workers: Workers, claims: Claims, h: History, p: Places, w: NodeId, x: W.Worker)
    requires WorkersOk(workers, claims, h, p) && HeldOk(workers, p) && w in workers
    requires WorkerOk(w, x, claims, h, p) && x.current == workers[w].current
    ensures WorkersOk(workers[w := x], claims, h, p) && HeldOk(workers[w := x], p)
  {
    forall v | v in workers ensures WorkerOk(v, workers[w := x][v], claims, h, p) {
      assert WorkerOk(v, workers[v], claims, h, p);
    }
  }

  lemma RunsReplaced(runs: seq<Run>, workers: Workers, p: Places, w: NodeId, x: W.Worker)
    requires RunsOk(runs, workers, p) && w in workers
    requires x.current == workers[w].current && (Busy(x) <==> Busy(workers[w]))
    ensures RunsOk(runs, workers[w := x], p)
  {
    forall i | 0 <= i < |runs| ensures RunOk(runs[i], workers[w := x], p) {
      assert RunOk(runs[i], workers, p);
    }
  }

  lemma StopsReplaced(stops: set<JobId>, cancels: set<CancelEvent>, workers: Workers, p: Places, w: NodeId, x: W.Worker)
    requires StopsOk(stops, cancels, workers, p) && w in workers && CancelOk(x, stops)
    ensures StopsOk(stops, cancels, workers[w := x], p)
  {
    forall v | v in workers ensures CancelOk(workers[w := x][v], stops) {
      assert CancelOk(workers[v], stops);
    }
  }

  /** A worker may take any step of its own that meets its local conditions. */
  lemma LocalStep(s: System, w: NodeId, x: W.Worker)
    requires Inv(s) && w in s.workers
    requires WorkerOk(w, x, s.claims, s.edge.history, s.place) && CancelOk(x, s.stops)
    requires x.current == s.workers[w].current && (Busy(x) <==> Busy(s.workers[w]))
    ensures Inv(s.(workers := s.workers[w := x]))
  {
    hide RecordsOk, QueueOk, StatusOk, RepliesOk, WorkersOk, HeldOk, EventsOk, StopsOk, RunsOk, NodesOk, LoadOk,
      TraceOk, WorkerOk, CancelOk, Busy;
    WorkerReplaced(s.workers, s.claims, s.edge.history, s.place, w, x);
    RunsReplaced(s.runs, s.workers, s.place, w, x);
    StopsReplaced(s.stops, s.cancels, s.workers, s.place, w, x);
  }

  lemma WorkerFacts(s: System, w: NodeId)
    requires Inv(s) && w in s.workers
    ensures WorkerOk(w, s.workers[w], s.claims, s.edge.history, s.place) && CancelOk(s.workers[w], s.stops)
  {
  }

  lemma {:induction false} AllPending(q: seq<Task>)
    requires forall i :: 0 <= i < |q| ==> q[i].status == Pending
    ensures PendingJobs(q) == q
  {
    if q != [] {
      AllPending(q[..|q| - 1]);
      assert q == q[..|q| - 1] + [q[|q| - 1]];
    }
  }

  /** The listing is the whole queue. */
  lemma ListedJobsMatch(q: seq<Task>, h: History, p: Places)
    requires QueueOk(q, h, p)
    ensures PendingJobs(q) == q && AllMatch(h, q)
  {
    AllPending(q);
  }

  lemma AskLocal(w: NodeId, x: W.Worker, c: Claims, h: History, p: Places)
    requires WorkerOk(w, x, c, h, p)
    ensures WorkerOk(w, W.Asked(x), c, h, p)
  {
  }

  lemma ReceiveListingLocal(w: NodeId, x: W.Worker, c: Claims, h: History, p: Places)
    requires WorkerOk(w, x, c, h, p) && x.poll.Listed?
    ensures WorkerOk(w, W.ListingReceived(x), c, h, p)
  {
  }

  lemma GiveUpLocal(w: NodeId, x: W.Worker, c: Claims, h: History, p: Places)
    requires WorkerOk(w, x, c, h, p)
    ensures WorkerOk(w, W.GaveUp(x), c, h, p)
  {
  }

  lemma PollKeeps(s: System, w: NodeId, x: W.Worker)
    requires Inv(s) && w in s.workers
    requires x == s.workers[w].(poll := x.poll) && PollOk(w, x, s.claims, s.edge.history)
    ensures Inv(s.(workers := s.workers[w := x]))
  {
    hide RecordsOk, QueueOk, StatusOk, RepliesOk, WorkersOk, HeldOk, EventsOk, StopsOk, RunsOk, NodesOk, LoadOk,
      TraceOk, PollOk;
    WorkerFacts(s, w);
    LocalStep(s, w, x);
  }

  lemma AskKeeps(s: System, w: NodeId)
    requires Inv(s) && w in s.workers
    ensures Inv(s.(workers := s.workers[w := W.Asked(s.workers[w])]))
  {
    hide Inv;
    WorkerFacts(s, w);
    AskLocal(w, s.workers[w], s.claims, s.edge.history, s.place);
    PollKeeps(s, w, W.Asked(s.workers[w]));
  }

  lemma AnswerListingKeeps(s: System, w: NodeId)
    requires Inv(s) && w in s.workers && s.workers[w].poll.Listing?
    ensures Inv(s.(workers := s.workers[w := s.workers[w].(poll := W.Listed(PendingJobs(s.edge.queue)))]))
  {
    WorkerFacts(s, w);
    assert QueueOk(s.edge.queue, s.edge.history, s.place);
    hide Inv, QueueOk;
    ListedJobsMatch(s.edge.queue, s.edge.history, s.place);
    PollKeeps(s, w, s.workers[w].(poll := W.Listed(PendingJobs(s.edge.queue))));
  }

  lemma ReceiveListingKeeps(s: System, w: NodeId)
    requires Inv(s) && w in s.workers && s.workers[w].poll.Listed?
    ensures Inv(s.(workers := s.workers[w := W.ListingReceived(s.workers[w])]))
  {
    hide Inv;
    WorkerFacts(s, w);
    ReceiveListingLocal(w, s.workers[w], s.claims, s.edge.history, s.place);
    PollKeeps(s, w, W.ListingReceived(s.workers[w]));
  }

  lemma GiveUpKeeps(s: System, w: NodeId)
    requires Inv(s) && w in s.workers
    ensures Inv(s.(workers := s.workers[w := W.GaveUp(s.workers[w])]))
  {
    hide Inv;
    WorkerFacts(s, w);
    GiveUpLocal(w, s.workers[w], s.claims, s.edge.history, s.place);
    PollKeeps(s, w, W.GaveUp(s.workers[w]));
  }

  // ---- claim requests ----

  lemma StatusMoreClaims(s: System, d: Claims)
    requires StatusOk(s.edge.history, s.place, s.delivered, s.claims) && MoreClaims(s.claims, d)
    requires RepliesOk(s.replies, s.claims, s.pending, s.edge.history, s.place)
    ensures StatusOk(s.edge.history, s.place, s.delivered, d)
  {
    forall j | j in s.place && s.place[j].InReply? ensures s.place[j].req in s.claims {
    }
  }

  lemma RepliesMoreClaims(s: System, req: W.RequestId, r: ClaimRequest)
    requires RepliesOk(s.replies, s.claims, s.pending, s.edge.history, s.place) && req !in s.claims
    ensures RepliesOk(s.replies, s.claims[req := r], s.pending + {req}, s.edge.history, s.place)
  {
  }

  /** Sending a request under an unused number changes nothing else. */
  lemma RequestSent(s: System, req: W.RequestId, r: ClaimRequest)
    requires Inv(s) && req !in s.claims
    ensures Inv(s.(claims := s.claims[req := r], pending := s.pending + {req}))
  {
    hide RecordsOk, QueueOk, StatusOk, RepliesOk, WorkersOk, HeldOk, EventsOk, StopsOk, RunsOk, NodesOk, LoadOk,
      TraceOk;
    StatusMoreClaims(s, s.claims[req := r]);
    RepliesMoreClaims(s, req, r);
    WorkersFrame(s.workers, s.claims, s.claims[req := r], s.edge.history, s.edge.history, s.place, s.place);
  }

  lemma ChooseLocal(w: NodeId, x: W.Worker, c: Claims, h: History, p: Places, req: W.RequestId)
    requires WorkerOk(w, x, c, h, p) && x.poll.Choosing?
    requires W.Fits(x) ==> req in c && c[req] == ClaimRequest(w, x.poll.jobs[0].id)
    ensures WorkerOk(w, W.NextChosen(x, req), c, h, p)
  {
  }

  lemma ChooseKeeps(s: System, w: NodeId, req: W.RequestId)
    requires Inv(s) && w in s.workers && s.workers[w].poll.Choosing? && req !in s.claims
    ensures Inv(DoChoose(s, w, req))
  {
    hide Inv;
    var x := s.workers[w];
    if W.Fits(x) {
      RequestSent(s, req, ClaimRequest(w, x.poll.jobs[0].id));
      var m := s.(claims := s.claims[req := ClaimRequest(w, x.poll.jobs[0].id)], pending := s.pending + {req});
      WorkerFacts(m, w);
      ChooseLocal(w, x, m.claims, m.edge.history, m.place, req);
      PollKeeps(m, w, W.NextChosen(x, req));
    } else {
      WorkerFacts(s, w);
      ChooseLocal(w, x, s.claims, s.edge.history, s.place, req);
      PollKeeps(s, w, W.NextChosen(x, req));
    }
  }

  // ---- the processor and the cancel handle ----

  lemma RegisterLocal(w: NodeId, x: W.Worker, c: Claims, h: History, p: Places, stops: set<JobId>)
    requires WorkerOk(w, x, c, h, p) && x.processor.Preparing?
    ensures WorkerOk(w, W.Registered(x), c, h, p) && CancelOk(W.Registered(x), stops)
  {
  }

  lemma ReportLocal(w: NodeId, x: W.Worker, c: Claims, h: History, p: Places, stops: set<JobId>)
    requires WorkerOk(w, x, c, h, p) && x.processor.Reporting?
    ensures WorkerOk(w, W.Reported(x), c, h, p) && CancelOk(W.Reported(x), stops)
  {
  }

  lemma ReleaseLocal(w: NodeId, x: W.Worker, c: Claims, h: History, p: Places, stops: set<JobId>)
    requires WorkerOk(w, x, c, h, p) && x.processor.Releasing?
    ensures WorkerOk(w, W.Released(x), c, h, p) && CancelOk(W.Released(x), stops)
  {
  }

  lemma CancelLocal(w: NodeId, x: W.Worker, c: Claims, h: History, p: Places, stops: set<JobId>, j: JobId)
    requires WorkerOk(w, x, c, h, p) && CancelOk(x, stops) && j in stops
    ensures WorkerOk(w, W.CancelRequested(x, j), c, h, p) && CancelOk(W.CancelRequested(x, j), stops)
  {
  }

  lemma RegisterKeeps(s: System, w: NodeId)
    requires Inv(s) && w in s.workers && s.workers[w].processor.Preparing?
    ensures Inv(s.(workers := s.workers[w := W.Registered(s.workers[w])]))
  {
    hide Inv, WorkerOk, CancelOk;
    WorkerFacts(s, w);
    RegisterLocal(w, s.workers[w], s.claims, s.edge.history, s.place, s.stops);
    LocalStep(s, w, W.Registered(s.workers[w]));
  }

  lemma ReleaseKeeps(s: System, w: NodeId)
    requires Inv(s) && w in s.workers && s.workers[w].processor.Releasing?
    ensures Inv(s.(workers := s.workers[w := W.Released(s.workers[w])]))
  {
    hide Inv, WorkerOk, CancelOk;
    WorkerFacts(s, w);
    ReleaseLocal(w, s.workers[w], s.claims, s.edge.history, s.place, s.stops);
    LocalStep(s, w, W.Released(s.workers[w]));
  }

  lemma CancelKeeps(s: System, w: NodeId, j: JobId)
    requires Inv(s) && w in s.workers && CancelEvent(w, j) in s.cancels
    ensures Inv(s.(workers := s.workers[w := W.CancelRequested(s.workers[w], j)]))
  {
    WorkerFacts(s, w);
    assert j in s.stops;
    hide Inv, WorkerOk, CancelOk;
    CancelLocal(w, s.workers[w], s.claims, s.edge.history, s.place, s.stops, j);
    LocalStep(s, w, W.CancelRequested(s.workers[w], j));
  }

  lemma EventSent(s: System, c: CompletionEvent)
    requires Inv(s)
    requires c.job in s.edge.history && c.job in s.place && s.place[c.job] == Done(c.node, c.status)
    requires c.taskType == s.edge.history[c.job].taskType
    ensures Inv(s.(events := s.events + {c}))
  {
    hide RecordsOk, QueueOk, StatusOk, RepliesOk, WorkersOk, HeldOk, StopsOk, RunsOk, NodesOk, LoadOk, TraceOk;
  }

  lemma ReportKeeps(s: System, w: NodeId, duration: real)
    requires Inv(s) && w in s.workers && s.workers[w].processor.Reporting?
    ensures Inv(DoReport(s, w, duration))
  {
    hide Inv, CancelOk;
    WorkerFacts(s, w);
    var c := W.CompletionOf(w, s.workers[w], duration);
    EventSent(s, c);
    var m := s.(events := s.events + {c});
    WorkerFacts(m, w);
    ReportLocal(w, s.workers[w], s.claims, s.edge.history, s.place, s.stops);
    LocalStep(m, w, W.Reported(s.workers[w]));
  }

  lemma BeginRuns(runs: seq<Run>, workers: Workers, h: History, p: Places, w: NodeId)
    requires RunsOk(runs, workers, p) && w in workers && workers[w].current.Some? && workers[w].processor.Resting?
    requires CurrentOk(w, workers[w], h, p)
    ensures RunsOk(runs + [Run(w, workers[w].current.value.id)], workers[w := W.Begun(workers[w])], p)
  {
    var j, next := workers[w].current.value.id, runs + [Run(w, workers[w].current.value.id)];
    var after := workers[w := W.Begun(workers[w])];
    forall i | 0 <= i < |runs| ensures runs[i].job != j && RunOk(next[i], after, p) {
      assert RunOk(runs[i], workers, p);
    }
    assert next[|runs|] == Run(w, j) && RunOk(Run(w, j), after, p);
    assert forall r :: r in runs ==> r in next;
  }

  lemma BeginLocal(w: NodeId, x: W.Worker, c: Claims, h: History, p: Places, stops: set<JobId>)
    requires WorkerOk(w, x, c, h, p)
    ensures WorkerOk(w, W.Begun(x), c, h, p) && (CancelOk(x, stops) ==> CancelOk(W.Begun(x), stops))
  {
  }

  lemma BeginKeeps(s: System, w: NodeId)
    requires Inv(s) && w in s.workers && s.workers[w].current.Some? && s.workers[w].processor.Resting?
    ensures Inv(DoBegin(s, w))
  {
    hide RecordsOk, QueueOk, StatusOk, RepliesOk, WorkersOk, HeldOk, EventsOk, StopsOk, RunsOk, NodesOk, LoadOk,
      TraceOk, CancelOk;
    WorkerFacts(s, w);
    var x := W.Begun(s.workers[w]);
    BeginLocal(w, s.workers[w], s.claims, s.edge.history, s.place, s.stops);
    WorkerReplaced(s.workers, s.claims, s.edge.history, s.place, w, x);
    BeginRuns(s.runs, s.workers, s.edge.history, s.place, w);
    StopsReplaced(s.stops, s.cancels, s.workers, s.place, w, x);
  }

  // ---- a claim answer arrives ----

  lemma RepliesTaken(s: System, req: W.RequestId, to: Place)
    requires RepliesOk(s.replies, s.claims, s.pending, s.edge.history, s.place)
    requires req in s.replies && s.replies[req].Accepted? && !to.InReply?
    ensures RepliesOk(s.replies - {req}, s.claims, s.pending, s.edge.history, s.place[s.replies[req].task.id := to])
  {
  }

  lemma RepliesDropped(s: System, req: W.RequestId)
    requires RepliesOk(s.replies, s.claims, s.pending, s.edge.history, s.place)
    requires req in s.replies && !s.replies[req].Accepted?
    ensures RepliesOk(s.replies - {req}, s.claims, s.pending, s.edge.history, s.place)
  {
  }

  /** What an accepted answer says about its job. */
  lemma AnswerFacts(s: System, req: W.RequestId)
    requires RepliesOk(s.replies, s.claims, s.pending, s.edge.history, s.place)
    requires StatusOk(s.edge.history, s.place, s.delivered, s.claims)
    requires req in s.replies && s.replies[req].Accepted?
    ensures var t := s.replies[req].task;
      && req in s.claims && t.id == s.claims[req].job && Matches(s.edge.history, t)
      && t.id in s.place && s.place[t.id] == InReply(req) && t.id !in s.delivered
      && s.edge.history[t.id].status == Running && s.edge.history[t.id].assignedTo == Some(s.claims[req].node)
  {
  }

  /** The record stays as it is when a running job moves between claimant places of the same node. */
  lemma StatusRelocated(h: History, p: Places, delivered: set<JobId>, claims: Claims, j: JobId, to: Place)
    requires StatusOk(h, p, delivered, claims) && j in p && j !in delivered && (to.Done? ==> to.outcome.Terminal())
    requires h[j].status == Running && StatusAt(to, false) == Running && ClaimantAt(to, claims) == h[j].assignedTo
    ensures StatusOk(h, p[j := to], delivered, claims)
  {
    StatusMove(h, p, delivered, claims, j, h[j], to);
    assert h[j := h[j]] == h;
  }

  lemma ReceiveWorkers(workers: Workers, claims: Claims, h: History, p: Places, w: NodeId, reply: ClaimReply)
    requires WorkersOk(workers, claims, h, p) && HeldOk(workers, p) && w in workers && workers[w].poll.Claiming?
    requires reply.Accepted? && Matches(h, reply.task) && reply.task.id == workers[w].poll.job
    requires reply.task.id in p && p[reply.task.id].InReply?
    ensures WorkersOk(workers[w := W.ReplyReceived(workers[w], reply)], claims, h, p[reply.task.id := Held(w)])
    ensures HeldOk(workers[w := W.ReplyReceived(workers[w], reply)], p[reply.task.id := Held(w)])
  {
    var x, q := W.ReplyReceived(workers[w], reply), p[reply.task.id := Held(w)];
    forall v | v in workers ensures WorkerOk(v, workers[w := x][v], claims, h, q) {
      assert WorkerOk(v, workers[v], claims, h, p);
      if v != w {
        WorkerFrame(v, workers[v], claims, claims, h, h, p, q);
      }
    }
  }

  lemma ReceiveRuns(runs: seq<Run>, workers: Workers, p: Places, w: NodeId, x: W.Worker, j: JobId)
    requires RunsOk(runs, workers, p) && HeldOk(workers, p) && w in workers && workers[w].current == None
    requires j in p && p[j].InReply? && !Busy(x)
    ensures RunsOk(runs, workers[w := x], p[j := Held(w)])
  {
    forall i | 0 <= i < |runs| ensures RunOk(runs[i], workers[w := x], p[j := Held(w)]) {
      assert RunOk(runs[i], workers, p);
    }
  }

  lemma StopsPlace(stops: set<JobId>, cancels: set<CancelEvent>, workers: Workers, p: Places, w: NodeId, x: W.Worker,
      j: JobId, to: Place)
    requires StopsOk(stops, cancels, workers, p) && w in workers && CancelOk(x, stops)
    requires to == Withdrawn || (to.Done? && to.outcome == Stopped) ==> j in stops
    ensures StopsOk(stops, cancels, workers[w := x], p[j := to])
  {
    forall v | v in workers ensures CancelOk(workers[w := x][v], stops) {
      assert CancelOk(workers[v], stops);
    }
  }

  lemma EventsPlace(s: System, j: JobId, to: Place)
    requires EventsOk(s.events, s.learning, s.edge.history, s.place) && (j in s.place ==> !s.place[j].Done?)
    ensures EventsOk(s.events, s.learning, s.edge.history, s.place[j := to])
  {
  }

  /** A worker waiting for an answer holds no task and is not working. */
  lemma ClaimingWorker(s: System, w: NodeId)
    requires WorkersOk(s.workers, s.claims, s.edge.history, s.place) && w in s.workers && s.workers[w].poll.Claiming?
    ensures s.workers[w].current == None && !Busy(s.workers[w])
    ensures s.workers[w].poll.req in s.claims
      && s.claims[s.workers[w].poll.req] == ClaimRequest(w, s.workers[w].poll.job)
  {
    assert WorkerOk(w, s.workers[w], s.claims, s.edge.history, s.place);
  }

  lemma ReceiveAccepted(s: System, w: NodeId)
    requires Inv(s) && w in s.workers && s.workers[w].poll.Claiming?
    requires s.workers[w].poll.req in s.replies && s.replies[s.workers[w].poll.req].Accepted?
    ensures Inv(DoReceive(s, w))
  {
    hide RecordsOk, QueueOk, StatusOk, RepliesOk, WorkersOk, HeldOk, EventsOk, StopsOk, RunsOk, NodesOk, LoadOk,
      TraceOk;
    var x, req := s.workers[w], s.workers[w].poll.req;
    var reply := s.replies[req];
    var j := reply.task.id;
    AnswerFacts(s, req);
    ClaimingWorker(s, w);
    QueueFrame(s.edge.queue, s.edge.history, s.edge.history, s.place, j, Held(w));
    StatusRelocated(s.edge.history, s.place, s.delivered, s.claims, j, Held(w));
    RepliesTaken(s, req, Held(w));
    ReceiveWorkers(s.workers, s.claims, s.edge.history, s.place, w, reply);
    EventsPlace(s, j, Held(w));
    StopsPlace(s.stops, s.cancels, s.workers, s.place, w, W.ReplyReceived(x, reply), j, Held(w));
    ReceiveRuns(s.runs, s.workers, s.place, w, W.ReplyReceived(x, reply), j);
  }

  lemma RejectLocal(w: NodeId, x: W.Worker, c: Claims, h: History, p: Places, reply: ClaimReply)
    requires WorkerOk(w, x, c, h, p) && x.poll.Claiming? && !reply.Accepted?
    ensures WorkerOk(w, W.ReplyReceived(x, reply), c, h, p)
  {
  }

  lemma AnswerGone(s: System, req: W.RequestId)
    requires Inv(s) && req in s.replies && !s.replies[req].Accepted?
    ensures Inv(s.(replies := s.replies - {req}))
  {
    hide RecordsOk, QueueOk, StatusOk, RepliesOk, WorkersOk, HeldOk, EventsOk, StopsOk, RunsOk, NodesOk, LoadOk,
      TraceOk;
    RepliesDropped(s, req);
  }

  lemma ReceiveKeeps(s: System, w: NodeId)
    requires Inv(s) && w in s.workers && s.workers[w].poll.Claiming? && s.workers[w].poll.req in s.replies
    ensures Inv(DoReceive(s, w))
  {
    hide Inv;
    var x, req := s.workers[w], s.workers[w].poll.req;
    if s.replies[req].Accepted? {
      ReceiveAccepted(s, w);
    } else {
      AnswerGone(s, req);
      var m := s.(replies := s.replies - {req});
      WorkerFacts(m, w);
      RejectLocal(w, x, s.claims, s.edge.history, s.place, s.replies[req]);
      PollKeeps(m, w, W.ReplyReceived(x, s.replies[req]));
    }
  }

  // ---- a worker's task ends, or the worker dies ----

  /** A worker gives up its current task, which moves to a place outside every worker. */
  lemma TaskLeaves(workers: Workers, claims: Claims, h: History, p: Places, w: NodeId, x: W.Worker, to: Place)
    requires WorkersOk(workers, claims, h, p) && HeldOk(workers, p) && w in workers && workers[w].current.Some?
    requires !to.Held? && x.current == None
    requires WorkerOk(w, x, claims, h, p[workers[w].current.value.id := to])
    ensures WorkersOk(workers[w := x], claims, h, p[workers[w].current.value.id := to])
    ensures HeldOk(workers[w := x], p[workers[w].current.value.id := to])
  {
    var j := workers[w].current.value.id;
    var q := p[j := to];
    assert WorkerOk(w, workers[w], claims, h, p);
    forall v | v in workers ensures WorkerOk(v, workers[w := x][v], claims, h, q) {
      assert WorkerOk(v, workers[v], claims, h, p);
      if v != w {
        WorkerFrame(v, workers[v], claims, claims, h, h, p, q);
      }
    }
    forall i | i in q && q[i].Held?
      ensures var v := q[i].node;
        v in workers && workers[w := x][v].current.Some? && workers[w := x][v].current.value.id == i
    {
      assert p[i] == q[i];
    }
  }

  lemma RunsLeave(runs: seq<Run>, workers: Workers, h: History, p: Places, w: NodeId, x: W.Worker, to: Place)
    requires RunsOk(runs, workers, p) && HeldOk(workers, p) && w in workers && workers[w].current.Some?
    requires CurrentOk(w, workers[w], h, p) && x.current == None
    requires to == Lost(w) || (to.Done? && to.node == w && Busy(workers[w]))
    ensures RunsOk(runs, workers[w := x], p[workers[w].current.value.id := to])
  {
    var j := workers[w].current.value.id;
    forall i | 0 <= i < |runs| ensures RunOk(runs[i], workers[w := x], p[j := to]) {
      assert RunOk(runs[i], workers, p);
    }
  }

  /** What the invariant says about a worker's current task. */
  lemma CurrentFacts(s: System, w: NodeId)
    requires WorkersOk(s.workers, s.claims, s.edge.history, s.place)
    requires StatusOk(s.edge.history, s.place, s.delivered, s.claims)
    requires w in s.workers && s.workers[w].current.Some?
    ensures var j := s.workers[w].current.value.id;
      && CurrentOk(w, s.workers[w], s.edge.history, s.place) && Matches(s.edge.history, s.workers[w].current.value)
      && j in s.place && s.place[j] == Held(w) && j !in s.delivered
      && s.edge.history[j].status == Running && s.edge.history[j].assignedTo == Some(w)
  {
    assert WorkerOk(w, s.workers[w], s.claims, s.edge.history, s.place);
  }

  lemma LeaveKeeps(s: System, w: NodeId, x: W.Worker, to: Place)
    requires Inv(s) && w in s.workers && s.workers[w].current.Some?
    requires x.current == None && !Busy(x)
    requires to == Lost(w) || (to.Done? && to.node == w && to.outcome.Terminal() && Busy(s.workers[w]))
    requires to.Done? && to.outcome == Stopped ==> s.workers[w].current.value.id in s.stops
    requires WorkerOk(w, x, s.claims, s.edge.history, s.place[s.workers[w].current.value.id := to])
    ensures Inv(s.(workers := s.workers[w := x], place := s.place[s.workers[w].current.value.id := to]))
  {
    hide RecordsOk, QueueOk, StatusOk, RepliesOk, WorkersOk, HeldOk, EventsOk, StopsOk, RunsOk, NodesOk, LoadOk,
      TraceOk, WorkerOk, CurrentOk;
    var j := s.workers[w].current.value.id;
    CurrentFacts(s, w);
    QueueFrame(s.edge.queue, s.edge.history, s.edge.history, s.place, j, to);
    StatusRelocated(s.edge.history, s.place, s.delivered, s.claims, j, to);
    RepliesFrame(s.replies, s.claims, s.pending, s.edge.history, s.edge.history, s.place, s.place[j := to]);
    TaskLeaves(s.workers, s.claims, s.edge.history, s.place, w, x, to);
    EventsPlace(s, j, to);
    StopsPlace(s.stops, s.cancels, s.workers, s.place, w, x, j, to);
    RunsLeave(s.runs, s.workers, s.edge.history, s.place, w, x, to);
  }

  lemma FinishLocal(w: NodeId, x: W.Worker, c: Claims, h: History, p: Places, task: Task, outcome: TaskStatus,
      registered: bool)
    requires WorkerOk(w, x, c, h, p) && Busy(x) && x.processor.task == task
    ensures x.current == Some(task)
    ensures WorkerOk(w, x.(current := None, processor := W.Reporting(task, outcome, registered)), c, h,
      p[task.id := Done(w, outcome)])
  {
  }

  lemma FailPreparationKeeps(s: System, w: NodeId)
    requires Inv(s) && w in s.workers && s.workers[w].processor.Preparing?
    ensures Inv(DoFinish(s, w, W.PreparationFailed(s.workers[w]), s.workers[w].processor.task, Failed))
  {
    hide Inv, WorkerOk;
    WorkerFacts(s, w);
    FinishLocal(w, s.workers[w], s.claims, s.edge.history, s.place, s.workers[w].processor.task, Failed, false);
    LeaveKeeps(s, w, W.PreparationFailed(s.workers[w]), Done(w, Failed));
  }

  lemma EndKeeps(s: System, w: NodeId, outcome: TaskStatus)
    requires Inv(s) && w in s.workers && W.CanEnd(s.workers[w], outcome)
    ensures Inv(DoFinish(s, w, W.Ended(s.workers[w], outcome), s.workers[w].processor.task, outcome))
  {
    hide Inv, WorkerOk;
    WorkerFacts(s, w);
    FinishLocal(w, s.workers[w], s.claims, s.edge.history, s.place, s.workers[w].processor.task, outcome, true);
    LeaveKeeps(s, w, W.Ended(s.workers[w], outcome), Done(w, outcome));
  }

  lemma IdleLocal(w: NodeId, limit: int, c: Claims, h: History, p: Places, stops: set<JobId>)
    ensures WorkerOk(w, W.Idle(limit), c, h, p) && CancelOk(W.Idle(limit), stops)
  {
  }

  lemma NotBusyWithoutTask(s: System, w: NodeId)
    requires WorkersOk(s.workers, s.claims, s.edge.history, s.place) && w in s.workers && s.workers[w].current == None
    ensures !Busy(s.workers[w])
  {
    assert WorkerOk(w, s.workers[w], s.claims, s.edge.history, s.place);
  }

  lemma CrashKeeps(s: System, w: NodeId)
    requires Inv(s) && w in s.workers
    ensures Inv(DoCrash(s, w))
  {
    var x := s.workers[w];
    if x.current == None {
      NotBusyWithoutTask(s, w);
    }
    hide Inv, WorkerOk, CancelOk;
    if x.current.Some? {
      IdleLocal(w, x.limit, s.claims, s.edge.history, s.place[x.current.value.id := Lost(w)], s.stops);
      LeaveKeeps(s, w, W.Idle(x.limit), Lost(w));
    } else {
      IdleLocal(w, x.limit, s.claims, s.edge.history, s.place, s.stops);
      LocalStep(s, w, W.Idle(x.limit));
    }
  }

  // ---- lost messages ----

  lemma DropRequestKeeps(s: System, req: W.RequestId)
    requires Inv(s)
    ensures Inv(s.(pending := s.pending - {req}))
  {
    assert RepliesOk(s.replies, s.claims, s.pending - {req}, s.edge.history, s.place);
    hide RecordsOk, QueueOk, StatusOk, RepliesOk, WorkersOk, HeldOk, EventsOk, StopsOk, RunsOk, NodesOk, LoadOk,
      TraceOk;
  }

  lemma RunsLost(runs: seq<Run>, workers: Workers, p: Places, j: JobId, w: NodeId)
    requires RunsOk(runs, workers, p) && j in p && p[j].InReply?
    ensures RunsOk(runs, workers, p[j := Lost(w)])
  {
    forall i | 0 <= i < |runs| ensures RunOk(runs[i], workers, p[j := Lost(w)]) {
      assert RunOk(runs[i], workers, p);
    }
  }

  lemma WorkersLost(workers: Workers, claims: Claims, h: History, p: Places, j: JobId, w: NodeId)
    requires WorkersOk(workers, claims, h, p) && HeldOk(workers, p) && j in p && p[j].InReply?
    ensures WorkersOk(workers, claims, h, p[j := Lost(w)]) && HeldOk(workers, p[j := Lost(w)])
  {
    forall v | v in workers ensures WorkerOk(v, workers[v], claims, h, p[j := Lost(w)]) {
      WorkerFrame(v, workers[v], claims, claims, h, h, p, p[j := Lost(w)]);
    }
  }

  lemma StopsLost(s: System, j: JobId, w: NodeId)
    requires StopsOk(s.stops, s.cancels, s.workers, s.place)
    ensures StopsOk(s.stops, s.cancels, s.workers, s.place[j := Lost(w)])
  {
  }

  lemma DropReplyKeeps(s: System, req: W.RequestId)
    requires Inv(s) && req in s.replies
    ensures Inv(DoDropReply(s, req))
  {
    if !s.replies[req].Accepted? {
      hide Inv;
      AnswerGone(s, req);
    } else {
      LoseAnswer(s, req);
    }
  }

  lemma LoseAnswer(s: System, req: W.RequestId)
    requires Inv(s) && req in s.replies && s.replies[req].Accepted?
    ensures Inv(DoDropReply(s, req))
  {
    hide RecordsOk, QueueOk, StatusOk, RepliesOk, WorkersOk, HeldOk, EventsOk, StopsOk, RunsOk, NodesOk, LoadOk,
      TraceOk;
    AnswerFacts(s, req);
    var j, w := s.replies[req].task.id, s.claims[req].node;
    QueueFrame(s.edge.queue, s.edge.history, s.edge.history, s.place, j, Lost(w));
    StatusRelocated(s.edge.history, s.place, s.delivered, s.claims, j, Lost(w));
    RepliesTaken(s, req, Lost(w));
    WorkersLost(s.workers, s.claims, s.edge.history, s.place, j, w);
    EventsPlace(s, j, Lost(w));
    StopsLost(s, j, w);
    RunsLost(s.runs, s.workers, s.place, j, w);
  }
}
