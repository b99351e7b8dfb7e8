/** The inductive invariant of the job-claim protocol, part by part. */
module ProtocolInvariant {
  import opened Shared
  import opened SchedulerCounters
  import opened EdgeState
  import opened Protocol
  import W = WorkerState

  type History = map<JobId, JobRecord>
  type Places = map<JobId, Place>
  type Claims = map<W.RequestId, ClaimRequest>
  type Workers = map<NodeId, W.Worker>

  /** A task copy found anywhere agrees with the job's record. */
  predicate Matches(h: History, t: Task) {
    && t.id in h
    && h[t.id].taskType == t.taskType
    && h[t.id].memoryUsage == t.memoryUsage
    && h[t.id].createdAt == t.createdAt
  }

  /** Records are never removed and their fixed fields never change. */
  ghost predicate Extends(h: History, k: History) {
    forall j :: j in h ==>
      && j in k
      && k[j].taskType == h[j].taskType
      && k[j].memoryUsage == h[j].memoryUsage
      && k[j].createdAt == h[j].createdAt
  }

  ghost predicate RecordsOk(h: History, clock: Time) {
    forall j :: j in h ==>
      && 1 <= h[j].taskType <= 10
      && h[j].createdAt <= clock
      && (h[j].assignedAt.Some? ==> h[j].assignedAt.value <= clock)
      && (h[j].assignedTo.Some? <==> h[j].assignedAt.Some?)
  }

  ghost predicate QueueOk(q: seq<Task>, h: History, place: Places) {
    && (forall i :: 0 <= i < |q| ==>
      q[i].status == Pending && Matches(h, q[i]) && q[i].id in place && place[q[i].id] == Queued)
    && (forall i, k :: 0 <= i < k < |q| ==> q[i].createdAt < q[k].createdAt)
    && (forall j :: j in place && place[j] == Queued ==> exists i :: 0 <= i < |q| && q[i].id == j)
  }

  function StatusAt(p: Place, delivered: bool): TaskStatus {
    match p
    case Queued => Pending
    case Withdrawn => Stopped
    case Done(_, outcome) => if delivered then outcome else Running
    case _ => Running
  }

  function ClaimantAt(p: Place, claims: Claims): Option<NodeId> {
    match p
    case Queued => None
    case Withdrawn => None
    case InReply(req) => if req in claims then Some(claims[req].node) else None
    case Held(w) => Some(w)
    case Done(w, _) => Some(w)
    case Lost(w) => Some(w)
  }

  /** The record of a job is determined by where the job is. */
  ghost predicate StatusOk(h: History, place: Places, delivered: set<JobId>, claims: Claims) {
    && h.Keys == place.Keys
    && (forall j :: j in place ==>
        h[j].status == StatusAt(place[j], j in delivered) && h[j].assignedTo == ClaimantAt(place[j], claims))
    && (forall j :: j in delivered ==> j in place && place[j].Done?)
    && (forall j :: j in place && place[j].Done? ==> place[j].outcome.Terminal())
  }

  ghost predicate RepliesOk(replies: map<W.RequestId, ClaimReply>, claims: Claims, pending: set<W.RequestId>,
      h: History, place: Places) {
    && pending <= claims.Keys && replies.Keys <= claims.Keys && pending !! replies.Keys
    && (forall r :: r in replies && replies[r].Accepted? ==>
        && Matches(h, replies[r].task)
        && replies[r].task.id == claims[r].job
        && replies[r].task.id in place && place[replies[r].task.id] == InReply(r))
    && (forall j :: j in place && place[j].InReply? ==>
        place[j].req in replies && replies[place[j].req].Accepted? && replies[place[j].req].task.id == j)
  }

  ghost predicate AllMatch(h: History, jobs: seq<Task>) { forall i :: 0 <= i < |jobs| ==> Matches(h, jobs[i]) }

  /** The job scheduler loop: it never acts while a task is current, and claims only what fits. */
  ghost predicate PollOk(w: NodeId, x: W.Worker, claims: Claims, h: History) {
    && (!x.poll.Waiting? ==> x.current == None)
    && (x.poll.Listed? ==> AllMatch(h, x.poll.jobs))
    && (x.poll.Choosing? ==> AllMatch(h, x.poll.jobs) && x.poll.room == x.limit)
    && (x.poll.Claiming? ==>
        && AllMatch(h, x.poll.jobs) && x.poll.room == x.limit
        && x.poll.req in claims && claims[x.poll.req] == ClaimRequest(w, x.poll.job)
        && x.poll.job in h && h[x.poll.job].memoryUsage <= x.limit)
  }

  ghost predicate CurrentOk(w: NodeId, x: W.Worker, h: History, place: Places) {
    x.current.Some? ==>
      var t := x.current.value;
      Matches(h, t) && t.memoryUsage <= x.limit && t.id in place && place[t.id] == Held(w)
  }

  /** The task processor loop works on the current task until it has cleared it. */
  ghost predicate ProcessorOk(w: NodeId, x: W.Worker, h: History, place: Places) {
    match x.processor
    case Resting => true
    case Preparing(t) => x.current == Some(t)
    case Executing(t) => x.current == Some(t) && x.cancelTask == Some(t.id)
    case Reporting(t, outcome, _) => Matches(h, t) && t.id in place && place[t.id] == Done(w, outcome)
    case Releasing(t) => t.id in place && place[t.id].Done?
  }

  ghost predicate WorkerOk(w: NodeId, x: W.Worker, claims: Claims, h: History, place: Places) {
    PollOk(w, x, claims, h) && CurrentOk(w, x, h, place) && ProcessorOk(w, x, h, place)
  }

  ghost predicate WorkersOk(workers: Workers, claims: Claims, h: History, place: Places) {
    forall w :: w in workers ==> WorkerOk(w, workers[w], claims, h, place)
  }

  ghost predicate HeldOk(workers: Workers, place: Places) {
    forall j :: j in place && place[j].Held? ==>
      var w := place[j].node;
      w in workers && workers[w].current.Some? && workers[w].current.value.id == j
  }

  ghost predicate EventsOk(events: set<CompletionEvent>, learning: Option<CompletionEvent>, h: History, place: Places) {
    && (forall c :: c in events ==>
      c.job in h && c.job in place && place[c.job] == Done(c.node, c.status) && c.taskType == h[c.job].taskType)
    && (learning.Some? ==> Teaches(learning.value))
  }

  /** A task ends as stopped only when a stop request named it. */
  ghost predicate StopsOk(stops: set<JobId>, cancels: set<CancelEvent>, workers: Workers, place: Places) {
    && (forall c :: c in cancels ==> c.job in stops)
    && (forall w :: w in workers ==> CancelOk(workers[w], stops))
    && (forall j :: j in place && (place[j] == Withdrawn || (place[j].Done? && place[j].outcome == Stopped)) ==>
      j in stops)
  }

  ghost predicate CancelOk(x: W.Worker, stops: set<JobId>) {
    x.processor.Executing? && x.cancelled ==> x.processor.task.id in stops
  }

  predicate Busy(x: W.Worker) { x.processor.Preparing? || x.processor.Executing? }

  /** Executions: one per job; a job a worker holds has been started only if the worker is at it now. */
  ghost predicate RunsOk(runs: seq<Run>, workers: Workers, place: Places) {
    && (forall i, k :: 0 <= i < k < |runs| ==> runs[i].job != runs[k].job)
    && (forall i :: 0 <= i < |runs| ==> RunOk(runs[i], workers, place))
    && (forall j :: j in place && place[j].Done? ==> Run(place[j].node, j) in runs)
    && (forall w :: w in workers && workers[w].current.Some? && Busy(workers[w]) ==>
      Run(w, workers[w].current.value.id) in runs)
  }

  ghost predicate RunOk(r: Run, workers: Workers, place: Places) {
    && r.job in place
    && match place[r.job]
       case Held(w) => w == r.node && w in workers && Busy(workers[w])
       case Done(w, _) => w == r.node
       case Lost(w) => w == r.node
       case _ => false
  }

  ghost predicate NodesOk(nodes: map<NodeId, NodeRecord>) {
    forall w :: w in nodes ==> nodes[w] == NodeRecord(None, [])
  }

  /** Jobs charged to w and not recorded as completed. */
  function Owed(h: History, w: NodeId): set<JobId> {
    set j | j in h && h[j].assignedTo == Some(w) && h[j].status != Completed
  }

  function Unlearned(learning: Option<CompletionEvent>, w: NodeId): nat {
    if learning.Some? && learning.value.node == w then 1 else 0
  }

  ghost predicate LoadOk(c: Counters, h: History, learning: Option<CompletionEvent>, excused: set<NodeId>) {
    forall w :: w !in excused ==> At(c.inflight, w) == |Owed(h, w)| + Unlearned(learning, w)
  }

  /** The counters are those of the recorded calls, and the calls are those in the records. */
  ghost predicate TraceOk(mode: SchedulerMode, c: Counters, trace: seq<Call>, h: History, clock: Time,
      removed: set<NodeId>) {
    && c == Replay(mode, trace)
    && (forall i :: 0 <= i < |trace| ==> CallOk(trace[i], h, clock, removed))
    && (forall i, k :: 0 <= i < k < |trace| && trace[i].Assign? && trace[k].Assign? ==> trace[i].at < trace[k].at)
    && (forall j :: j in h && h[j].assignedTo.Some? && h[j].assignedAt.Some? ==>
        Assign(h[j].assignedTo.value, j, h[j].taskType, h[j].assignedAt.value) in trace)
  }

  ghost predicate CallOk(call: Call, h: History, clock: Time, removed: set<NodeId>) {
    match call
    case Assign(w, j, t, at) =>
      at <= clock && j in h && h[j].assignedTo == Some(w) && h[j].assignedAt == Some(at) && h[j].taskType == t
    case Leave(w) => w in removed
    case _ => true
  }

  ghost predicate Inv(s: System) {
    && RecordsOk(s.edge.history, s.edge.clock)
    && QueueOk(s.edge.queue, s.edge.history, s.place)
    && StatusOk(s.edge.history, s.place, s.delivered, s.claims)
    && RepliesOk(s.replies, s.claims, s.pending, s.edge.history, s.place)
    && WorkersOk(s.workers, s.claims, s.edge.history, s.place)
    && HeldOk(s.workers, s.place)
    && EventsOk(s.events, s.learning, s.edge.history, s.place)
    && StopsOk(s.stops, s.cancels, s.workers, s.place)
    && RunsOk(s.runs, s.workers, s.place)
    && NodesOk(s.edge.nodes)
    && LoadOk(s.edge.counters, s.edge.history, s.learning, s.removed + s.replayed)
    && TraceOk(s.mode, s.edge.counters, s.trace, s.edge.history, s.edge.clock, s.removed)
  }
}
