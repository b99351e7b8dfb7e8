/** The edge server's shared state as a value, and what each block under the cluster lock does to it
    (edge-server/api.go, edge-server/main.go). */
module EdgeState {
  import opened Shared
  import opened SchedulerCounters

  /** `JobRecord`: `None` stands for an empty name or a zero time. */
  datatype JobRecord = JobRecord(
    taskType: TaskType,
    memoryUsage: int,
    createdAt: Time,
    assignedTo: Option<NodeId>,
    assignedAt: Option<Time>,
    completedAt: Option<Time>,
    status: TaskStatus,
    durationSec: real)

  /** The part of `shared.Node` that `removeNode` reads. */
  datatype NodeRecord = NodeRecord(currentTask: Option<Task>, taskQueue: seq<Task>)

  datatype Edge = Edge(
    queue: seq<Task>,
    history: map<JobId, JobRecord>,
    nodes: map<NodeId, NodeRecord>,
    counters: Counters,
    clock: Time)

  datatype JobRequest = JobRequest(taskType: TaskType, duration: int, inputMode: InputMode, memReq: real,
      estimated: real)

  datatype ClaimReply = Accepted(task: Task) | NotFound | Conflict

  /** A `task-completion` user event. */
  datatype CompletionEvent = CompletionEvent(node: NodeId, job: JobId, status: TaskStatus, taskType: TaskType,
      duration: real)

  // ---- job creation ----

  /** The checks of `createJob`. */
  predicate ValidRequest(r: JobRequest) { 1 <= r.taskType <= 10 && r.duration > 0 }

  function NewTask(r: JobRequest, id: JobId, now: Time): Task {
    Task(id, r.taskType, MemoryNeed(r.taskType, r.memReq), r.duration, r.inputMode, Pending, now, r.estimated)
  }

  function NewRecord(t: Task): JobRecord {
    JobRecord(t.taskType, t.memoryUsage, t.createdAt, None, None, None, t.status, 0.0)
  }

  /** `addJob` */
  function JobAdded(e: Edge, r: JobRequest, id: JobId): Edge {
    var now := e.clock + 1;
    var t := NewTask(r, id, now);
    e.(queue := e.queue + [t], history := e.history[id := NewRecord(t)], clock := now)
  }

  // ---- listing and claiming ----

  predicate IsPending(t: Task, j: JobId) { t.id == j && t.status == Pending }

  /** Position of the first pending task with this name, |queue| if there is none. */
  function FindPending(queue: seq<Task>, j: JobId): (k: nat)
    ensures k <= |queue|
    ensures k < |queue| ==> IsPending(queue[k], j)
    ensures forall i :: 0 <= i < k ==> !IsPending(queue[i], j)
  {
    if queue == [] then 0
    else if IsPending(queue[0], j) then 0
    else
      var k := FindPending(queue[1..], j);
      assert forall i :: 1 <= i < k + 1 ==> queue[i] == queue[1..][i - 1];
      k + 1
  }

  function Without<T>(s: seq<T>, k: nat): seq<T>
    requires k < |s|
  {
    s[..k] + s[k + 1..]
  }

  /** `getAvailableJobs` */
  function PendingJobs(queue: seq<Task>): seq<Task> {
    if queue == [] then []
    else PendingJobs(queue[..|queue| - 1]) + if queue[|queue| - 1].status == Pending then [queue[|queue| - 1]] else []
  }

  /** Position of the first alive member with this name, |members| if there is none. */
  function FindAlive(members: seq<Member>, node: NodeId): (k: nat)
    ensures k <= |members|
    ensures k < |members| ==> members[k].name == node && members[k].alive
    ensures forall i :: 0 <= i < k ==> !(members[i].name == node && members[i].alive)
  {
    if members == [] then 0
    else if members[0].name == node && members[0].alive then 0
    else
      var k := FindAlive(members[1..], node);
      assert forall i :: 1 <= i < k + 1 ==> members[i] == members[1..][i - 1];
      k + 1
  }

  /** Free memory as `claimJob` reads it: the limit stands in for a missing tag, 0 for a bad one. */
  function ClaimMemory(tags: Tags): int {
    match tags.freeMemory
    case Number(v) => v
    case Garbled => 0
    case Missing => if tags.memoryLimit.Number? then tags.memoryLimit.value else 0
  }

  /** The checks made before the lock is taken: alive, and not tagged busy. */
  function MemberCheck(members: seq<Member>, node: NodeId): Option<ClaimReply> {
    var k := FindAlive(members, node);
    if k == |members| then Some(NotFound)
    else if members[k].tags.status == Some("busy") then Some(Conflict)
    else None
  }

  /** The reply of `claimJob`, given the worker the scheduler proposes for this job. */
  function ClaimDecision(e: Edge, node: NodeId, j: JobId, members: seq<Member>, best: Option<NodeId>): ClaimReply {
    if MemberCheck(members, node).Some? then MemberCheck(members, node).value
    else
      var i := FindPending(e.queue, j);
      if i == |e.queue| then NotFound
      else
        var free := ClaimMemory(members[FindAlive(members, node)].tags);
        if free > 0 && free < e.queue[i].memoryUsage then Conflict
        else if best.Some? && best.value != node then Conflict
        else Accepted(e.queue[i])
  }

  /** The reply, written out over the tags: which claims are granted, and which are not found. All others are in
      conflict. The memory shown is the free memory, the limit where that tag is missing, and 0 where the tag
      that counts is no number; a worker that shows none at all is not refused. */
  lemma ClaimReplies(e: Edge, node: NodeId, j: JobId, members: seq<Member>, best: Option<NodeId>)
    ensures var m, i := FindAlive(members, node), FindPending(e.queue, j);
      var reply := ClaimDecision(e, node, j, members, best);
      && (reply == NotFound <==>
          m == |members| || (members[m].tags.status != Some("busy") && i == |e.queue|))
      && (reply.Accepted? <==>
          && m < |members| && members[m].tags.status != Some("busy") && i < |e.queue|
          && (best == None || best == Some(node))
          && var tags := members[m].tags;
          var shown :=
            if tags.freeMemory.Number? then tags.freeMemory.value
            else if tags.freeMemory.Missing? && tags.memoryLimit.Number? then tags.memoryLimit.value
            else 0;
          shown <= 0 || shown >= e.queue[i].memoryUsage)
      && (reply.Accepted? ==> reply.task == e.queue[i])
  {
    hide FindAlive, FindPending;
  }

  /** The state after `claimJob`: a rejected claim changes nothing. */
  function ClaimApplied(mode: SchedulerMode, e: Edge, node: NodeId, j: JobId, reply: ClaimReply): Edge
    requires reply.Accepted? ==> FindPending(e.queue, j) < |e.queue|
  {
    if !reply.Accepted? then e
    else
      var i := FindPending(e.queue, j);
      var t := e.queue[i];
      var now := e.clock + 1;
      e.(queue := Without(e.queue, i),
         counters := Charged(mode, e.counters, node, t.taskType),
         history := if t.id in e.history
           then e.history[t.id := e.history[t.id].(assignedTo := Some(node), assignedAt := Some(now),
             status := Running)]
           else e.history,
         clock := now)
  }

  lemma ClaimGranted(mode: SchedulerMode, e: Edge, node: NodeId, j: JobId)
    requires FindPending(e.queue, j) < |e.queue|
    ensures var i := FindPending(e.queue, j);
      var f := ClaimApplied(mode, e, node, j, Accepted(e.queue[i]));
      && f.queue == e.queue[..i] + e.queue[i + 1..] && f.clock == e.clock + 1 && f.nodes == e.nodes
      && f.history == (if j !in e.history then e.history else
          e.history[j := e.history[j].(assignedTo := Some(node), assignedAt := Some(f.clock), status := Running)])
      && f.counters.assignments == e.counters.assignments[node := At(e.counters.assignments, node) + 1]
      && f.counters.inflight == e.counters.inflight[node := At(e.counters.inflight, node) + 1]
  {
    hide FindPending;
  }

  // ---- stopping ----

  /** The locked half of `stopJob`: withdraw a queued job. */
  function JobWithdrawn(e: Edge, j: JobId): Edge {
    var i := FindPending(e.queue, j);
    if i == |e.queue| then e
    else
      var now := e.clock + 1;
      e.(queue := Without(e.queue, i),
         history := if j in e.history then e.history[j := e.history[j].(status := Stopped, completedAt := Some(now))]
           else e.history,
         clock := now)
  }

  /** The node `stopJob` signals when the job was not queued: the first alive member that advertises it. */
  function RunningNode(members: seq<Member>, j: JobId): Option<NodeId> {
    if members == [] then None
    else if members[0].alive && members[0].name != EDGE_SERVER && members[0].tags.currentTask == Some(j) then
      Some(members[0].name)
    else RunningNode(members[1..], j)
  }

  /** Written out over the members: nobody exactly when no alive member other than the edge server advertises the
      job, and otherwise the first of these. */
  lemma {:induction false} RunningNodeIs(members: seq<Member>, j: JobId)
    ensures RunningNode(members, j) == None <==>
      forall m :: m in members ==> !(m.alive && m.name != EDGE_SERVER && m.tags.currentTask == Some(j))
    ensures RunningNode(members, j).Some? ==>
      exists i :: 0 <= i < |members| && members[i].name == RunningNode(members, j).value
        && members[i].alive && members[i].name != EDGE_SERVER && members[i].tags.currentTask == Some(j)
        && forall k :: 0 <= k < i ==>
          !(members[k].alive && members[k].name != EDGE_SERVER && members[k].tags.currentTask == Some(j))
  {
    if members != [] {
      RunningNodeIs(members[1..], j);
      assert forall i :: 1 <= i < |members| ==> members[i] == members[1..][i - 1];
      assert members[0] in members;
    }
  }

  // ---- completion events ----

  /** First locked block of the task-completion handler: the record is overwritten. */
  function CompletionRecorded(e: Edge, c: CompletionEvent): Edge {
    if c.job !in e.history then e
    else
      var now := e.clock + 1;
      var r := e.history[c.job];
      e.(history := e.history[c.job := r.(
           status := c.status, completedAt := Some(now), durationSec := c.duration,
           assignedTo := if r.assignedTo == None then Some(c.node) else r.assignedTo)],
         clock := now)
  }

  /** Whether the handler goes on to its second locked block. */
  predicate Teaches(c: CompletionEvent) { c.status == Completed && c.taskType != 0 }

  /** Second locked block: the scheduler learns of a success. */
  function CompletionLearned(e: Edge, c: CompletionEvent): Edge {
    e.(counters := Released(e.counters, c.node))
  }

  // ---- membership ----

  /** `addNode` */
  function NodeAdded(e: Edge, w: NodeId): Edge {
    e.(nodes := e.nodes[w := NodeRecord(None, [])], counters := Ensured(e.counters, w))
  }

  /** `removeNode`: requeues what the node record holds, then forgets the node. */
  function NodeRemoved(e: Edge, w: NodeId): Edge {
    if w !in e.nodes then e
    else
      var r := e.nodes[w];
      e.(queue := e.queue + (if r.currentTask.Some? then [r.currentTask.value] else []) + r.taskQueue,
         nodes := e.nodes - {w},
         counters := Forgotten(e.counters, w))
  }
}
