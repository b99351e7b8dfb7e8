/** The job-claim protocol as a state machine: one edge server, any number of workers, and messages
    that may be delayed, reordered or lost. Every block under the edge server's lock, and every
    access of a worker to its shared fields, is one step. */
module Protocol {
  import opened Shared
  import opened SchedulerCounters
  import opened EdgeState
  import W = WorkerState

  datatype ClaimRequest = ClaimRequest(node: NodeId, job: JobId)

  datatype CancelEvent = CancelEvent(node: NodeId, job: JobId)

  datatype Run = Run(node: NodeId, job: JobId)

  /** Where a created job is. */
  datatype Place =
    | Queued
    | Withdrawn                                  // stopped while queued
    | InReply(req: W.RequestId)                  // claimed, the answer is under way
    | Held(node: NodeId)                         // a worker's current task
    | Done(node: NodeId, outcome: TaskStatus)    // a worker has finished it
    | Lost(node: NodeId)                         // the answer never arrived, or its worker died

  datatype System = System(
    mode: SchedulerMode,
    edge: Edge,
    learning: Option<CompletionEvent>,           // the Serf loop between its two locked blocks
    workers: map<NodeId, W.Worker>,
    claims: map<W.RequestId, ClaimRequest>,      // every claim request ever sent
    pending: set<W.RequestId>,                   // not yet handled by the edge server
    replies: map<W.RequestId, ClaimReply>,       // answers under way
    cancels: set<CancelEvent>,                   // cancel events sent
    events: set<CompletionEvent>,                // completion events sent
    // history variables: they record the run and are never read by a step
    place: map<JobId, Place>,
    delivered: set<JobId>,                       // jobs whose completion event was handled
    stops: set<JobId>,                           // jobs named by a stop request
    runs: seq<Run>,                              // executions started
    trace: seq<Call>,                            // calls of the scheduler's counters
    removed: set<NodeId>,                        // workers the scheduler has forgotten at least once
    replayed: set<NodeId>)                       // workers with a success event handled twice

  datatype Step =
    // edge server
    | CreateJob(request: JobRequest, id: JobId)
    | HandleClaim(req: W.RequestId, members: seq<Member>, best: Option<NodeId>)
    | StopJob(job: JobId, members: seq<Member>)
    | HandleCompletion(event: CompletionEvent)
    | Learn
    | AddNode(joined: NodeId)
    | RemoveNode(left: NodeId)
    // worker: job scheduler loop
    | Ask(node: NodeId)
    | AnswerListing(node: NodeId)
    | ReceiveListing(node: NodeId)
    | Choose(node: NodeId, unused: W.RequestId)
    | ReceiveReply(node: NodeId)
    | GiveUp(node: NodeId)
    // worker: task processor loop
    | Begin(node: NodeId)
    | FailPreparation(node: NodeId)
    | Register(node: NodeId)
    | End(node: NodeId, outcome: TaskStatus)
    | Report(node: NodeId, duration: real)
    | Release(node: NodeId)
    // worker: Serf handler; failures
    | Cancel(node: NodeId, named: JobId)
    | Crash(node: NodeId)
    | DropRequest(req: W.RequestId)
    | DropReply(req: W.RequestId)

  predicate IsEdgeStep(step: Step) {
    step.CreateJob? || step.HandleClaim? || step.StopJob? || step.HandleCompletion? || step.Learn? || step.AddNode?
      || step.RemoveNode?
  }

  predicate IsWorkerStep(step: Step) {
    step.Ask? || step.AnswerListing? || step.ReceiveListing? || step.Choose? || step.ReceiveReply? || step.GiveUp?
    || step.Begin? || step.FailPreparation? || step.Register? || step.End? || step.Report? || step.Release?
    || step.Cancel? || step.Crash?
  }

  predicate Enabled(s: System, step: Step) {
    (IsWorkerStep(step) ==> step.node in s.workers) &&
    match step
    case CreateJob(r, id) => ValidRequest(r) && id !in s.edge.history    // job names are fresh
    case HandleClaim(req, _, _) => req in s.pending && req in s.claims
    case StopJob(_, _) => true
    case HandleCompletion(c) => c in s.events && s.learning == None
    case Learn => s.learning.Some?
    case AddNode(_) => s.learning == None
    case RemoveNode(_) => s.learning == None
    case Ask(w) => s.workers[w].poll.Waiting?
    case AnswerListing(w) => s.workers[w].poll.Listing?
    case ReceiveListing(w) => s.workers[w].poll.Listed?
    case Choose(w, req) => s.workers[w].poll.Choosing? && req !in s.claims
    case ReceiveReply(w) => s.workers[w].poll.Claiming? && s.workers[w].poll.req in s.replies
    case GiveUp(w) => s.workers[w].poll.Listing? || s.workers[w].poll.Listed? || s.workers[w].poll.Claiming?
    case Begin(w) => s.workers[w].processor.Resting? && s.workers[w].current.Some?
    case FailPreparation(w) => s.workers[w].processor.Preparing? && s.workers[w].processor.task.inputMode == File
    case Register(w) => s.workers[w].processor.Preparing?
    case End(w, outcome) => W.CanEnd(s.workers[w], outcome)
    case Report(w, _) => s.workers[w].processor.Reporting?
    case Release(w) => s.workers[w].processor.Releasing?
    case Cancel(w, j) => CancelEvent(w, j) in s.cancels
    case Crash(_) => true
    case DropRequest(req) => req in s.pending
    case DropReply(req) => req in s.replies
  }

  // ---- the steps of the edge server ----

  function DoCreate(s: System, r: JobRequest, id: JobId): System {
    s.(edge := JobAdded(s.edge, r, id), place := s.place[id := Queued])
  }

  function ReplyTo(s: System, req: W.RequestId, members: seq<Member>, best: Option<NodeId>): ClaimReply
    requires req in s.claims
  {
    ClaimDecision(s.edge, s.claims[req].node, s.claims[req].job, members, best)
  }

  function DoClaim(s: System, req: W.RequestId, members: seq<Member>, best: Option<NodeId>): System
    requires req in s.claims
  {
    var w, j := s.claims[req].node, s.claims[req].job;
    var reply := ReplyTo(s, req, members, best);
    var t := s.(
      edge := ClaimApplied(s.mode, s.edge, w, j, reply),
      pending := s.pending - {req},
      replies := s.replies[req := reply]);
    if reply.Accepted? then
      t.(place := s.place[reply.task.id := InReply(req)],
         trace := s.trace + [Assign(w, reply.task.id, reply.task.taskType, s.edge.clock + 1)])
    else t
  }

  function DoStop(s: System, j: JobId, members: seq<Member>): System {
    var t := s.(stops := s.stops + {j});
    if FindPending(s.edge.queue, j) < |s.edge.queue| then
      t.(edge := JobWithdrawn(s.edge, j), place := s.place[j := Withdrawn])
    else
      var node := RunningNode(members, j);
      if node == None then t else t.(cancels := s.cancels + {CancelEvent(node.value, j)})
  }

  function DoComplete(s: System, c: CompletionEvent): System {
    s.(edge := CompletionRecorded(s.edge, c),
       delivered := s.delivered + {c.job},
       learning := if Teaches(c) then Some(c) else None,
       replayed := if Teaches(c) && c.job in s.delivered then s.replayed + {c.node} else s.replayed)
  }

  function DoLearn(s: System): System
    requires s.learning.Some?
  {
    s.(edge := CompletionLearned(s.edge, s.learning.value),
       trace := s.trace + [Complete(s.learning.value.node)],
       learning := None)
  }

  function DoAdd(s: System, w: NodeId): System {
    s.(edge := NodeAdded(s.edge, w), trace := s.trace + [Join(w)])
  }

  function DoRemove(s: System, w: NodeId): System {
    if w !in s.edge.nodes then s
    else s.(edge := NodeRemoved(s.edge, w), trace := s.trace + [Leave(w)], removed := s.removed + {w})
  }

  // ---- the steps of a worker ----

  function DoReceive(s: System, w: NodeId): System
    requires w in s.workers && s.workers[w].poll.Claiming? && s.workers[w].poll.req in s.replies
  {
    var req := s.workers[w].poll.req;
    var reply := s.replies[req];
    s.(workers := s.workers[w := W.ReplyReceived(s.workers[w], reply)],
       replies := s.replies - {req},
       place := if reply.Accepted? then s.place[reply.task.id := Held(w)] else s.place)
  }

  function DoChoose(s: System, w: NodeId, req: W.RequestId): System
    requires w in s.workers && s.workers[w].poll.Choosing?
  {
    var x := s.workers[w];
    var t := s.(workers := s.workers[w := W.NextChosen(x, req)]);
    if W.Fits(x) then
      t.(claims := s.claims[req := ClaimRequest(w, x.poll.jobs[0].id)], pending := s.pending + {req})
    else t
  }

  function DoBegin(s: System, w: NodeId): System
    requires w in s.workers && s.workers[w].current.Some?
  {
    s.(workers := s.workers[w := W.Begun(s.workers[w])],
       runs := s.runs + [Run(w, s.workers[w].current.value.id)])
  }

  /** The worker leaves its task in the given state. */
  function DoFinish(s: System, w: NodeId, x: W.Worker, task: Task, outcome: TaskStatus): System {
    s.(workers := s.workers[w := x], place := s.place[task.id := Done(w, outcome)])
  }

  function DoReport(s: System, w: NodeId, duration: real): System
    requires w in s.workers && s.workers[w].processor.Reporting?
  {
    s.(workers := s.workers[w := W.Reported(s.workers[w])],
       events := s.events + {W.CompletionOf(w, s.workers[w], duration)})
  }

  /** The process dies and restarts with nothing. */
  function DoCrash(s: System, w: NodeId): System
    requires w in s.workers
  {
    var x := s.workers[w];
    s.(workers := s.workers[w := W.Idle(x.limit)],
       place := if x.current.Some? then s.place[x.current.value.id := Lost(w)] else s.place)
  }

  function DoDropReply(s: System, req: W.RequestId): System
    requires req in s.replies
  {
    var reply := s.replies[req];
    s.(replies := s.replies - {req},
       place := if reply.Accepted? && req in s.claims then s.place[reply.task.id := Lost(s.claims[req].node)]
                else s.place)
  }

  function Do(s: System, step: Step): System
    requires Enabled(s, step)
  {
    match step
    case CreateJob(r, id) => DoCreate(s, r, id)
    case HandleClaim(req, members, best) => DoClaim(s, req, members, best)
    case StopJob(j, members) => DoStop(s, j, members)
    case HandleCompletion(c) => DoComplete(s, c)
    case Learn => DoLearn(s)
    case AddNode(w) => DoAdd(s, w)
    case RemoveNode(w) => DoRemove(s, w)
    case Ask(w) => s.(workers := s.workers[w := W.Asked(s.workers[w])])
    case AnswerListing(w) =>
      s.(workers := s.workers[w := s.workers[w].(poll := W.Listed(PendingJobs(s.edge.queue)))])
    case ReceiveListing(w) => s.(workers := s.workers[w := W.ListingReceived(s.workers[w])])
    case Choose(w, req) => DoChoose(s, w, req)
    case ReceiveReply(w) => DoReceive(s, w)
    case GiveUp(w) => s.(workers := s.workers[w := W.GaveUp(s.workers[w])])
    case Begin(w) => DoBegin(s, w)
    case FailPreparation(w) =>
      DoFinish(s, w, W.PreparationFailed(s.workers[w]), s.workers[w].processor.task, Failed)
    case Register(w) => s.(workers := s.workers[w := W.Registered(s.workers[w])])
    case End(w, outcome) => DoFinish(s, w, W.Ended(s.workers[w], outcome), s.workers[w].processor.task, outcome)
    case Report(w, duration) => DoReport(s, w, duration)
    case Release(w) => s.(workers := s.workers[w := W.Released(s.workers[w])])
    case Cancel(w, j) => s.(workers := s.workers[w := W.CancelRequested(s.workers[w], j)])
    case Crash(w) => DoCrash(s, w)
    case DropRequest(req) => s.(pending := s.pending - {req})
    case DropReply(req) => DoDropReply(s, req)
  }

  ghost predicate Next(s: System, t: System) {
    exists step :: Enabled(s, step) && t == Do(s, step)
  }

  ghost predicate Init(s: System) {
    && s.edge == Edge([], map[], map[], NoCounters, 0)
    && s.learning == None
    && (forall w :: w in s.workers ==> s.workers[w] == W.Idle(s.workers[w].limit))
    && s.claims == map[] && s.pending == {} && s.replies == map[] && s.cancels == {} && s.events == {}
    && s.place == map[] && s.delivered == {} && s.stops == {} && s.runs == [] && s.trace == []
    && s.removed == {} && s.replayed == {}
  }

  /** A finite run of the protocol. */
  ghost predicate IsRun(b: seq<System>) {
    && b != []
    && Init(b[0])
    && forall i :: 0 <= i < |b| - 1 ==> Next(b[i], b[i + 1])
  }
}
