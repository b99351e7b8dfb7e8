/** The edge server's `ClusterManager` object: each method is one block under the cluster lock, tied to
    the value-level steps of module EdgeState (edge-server/main.go, edge-server/api.go). */
module ClusterManagement {
  import opened Shared
  import opened SchedulerCounters
  import opened EdgeState
  import opened TaskScheduling
  import opened Candidates
  import opened HybridScore

  /** What the scheduler proposes for a job: nobody, or a member it may be given to. */
  ghost predicate IsProposal(best: Option<NodeId>, members: seq<Member>, need: int) {
    match best
    case None => !SomeEligible(members, need)
    case Some(w) => EligibleAs(members, w, need)
  }

  ghost predicate SomeEligible(members: seq<Member>, need: int) {
    exists i :: 0 <= i < |members| && Eligible(members[i], need)
  }

  ghost predicate EligibleAs(members: seq<Member>, node: NodeId, need: int) {
    exists i :: 0 <= i < |members| && members[i].name == node && Eligible(members[i], need)
  }

  /** `claimJob` and the scheduler test a member differently, and without a proposal any alive claimant that
      is not tagged busy passes. So the worker a job is granted to is one the scheduler could have proposed
      exactly when there is any such member at all. */
  lemma GrantedToEligibleIff(e: Edge, node: NodeId, j: JobId, members: seq<Member>, best: Option<NodeId>)
    requires ClaimDecision(e, node, j, members, best).Accepted?
    requires IsProposal(best, members, e.queue[FindPending(e.queue, j)].memoryUsage)
    ensures var need := e.queue[FindPending(e.queue, j)].memoryUsage;
      EligibleAs(members, node, need) <==> SomeEligible(members, need)
  {
    var need := e.queue[FindPending(e.queue, j)].memoryUsage;
    if best.Some? {
      assert best.value == node;
    }
    if EligibleAs(members, node, need) {
      var i :| 0 <= i < |members| && members[i].name == node && Eligible(members[i], need);
      assert SomeEligible(members, need);
    }
  }

  /** A member that is no worker, one without a free-memory tag, and one that has no memory left. */
  predicate Unfit(tags: Tags) {
    || tags == Tags(false, Some("online"), Number(256), Number(256), None)
    || tags == Tags(true, Some("online"), Missing, Missing, None)
    || tags == Tags(true, Some("online"), Number(0), Number(256), None)
  }

  /** Each of them, alone in the cluster, is granted the job although the scheduler would never propose it. */
  lemma UnfitIsGranted(t: Task, node: NodeId, tags: Tags)
    requires t.status == Pending && 1 <= t.memoryUsage <= 256 && Unfit(tags)
    ensures var e, members := Edge([t], map[], map[], NoCounters, 0), [Member(node, true, tags)];
      && IsProposal(None, members, t.memoryUsage)
      && ClaimDecision(e, node, t.id, members, None) == Accepted(t)
      && !EligibleAs(members, node, t.memoryUsage)
  {
    assert FindPending([t], t.id) == 0 && FindAlive([Member(node, true, tags)], node) == 0;
  }

  class ClusterManager {
    const scheduler: TaskScheduler

    var jobQueue: seq<Task>
    var jobHistory: map<JobId, JobRecord>
    var nodes: map<NodeId, NodeRecord>
    var clock: Time  // the last reading of the clock

    ghost predicate Valid()
      reads this, scheduler
    {
      scheduler.Valid()
    }

    ghost function State(): Edge
      reads this, scheduler
    {
      Edge(jobQueue, jobHistory, nodes, scheduler.State(), clock)
    }

    constructor (scheduler: TaskScheduler)
      requires scheduler.Valid()
      ensures Valid() && this.scheduler == scheduler
      ensures State() == Edge([], map[], map[], scheduler.State(), 0)
    {
      this.scheduler := scheduler;
      jobQueue, jobHistory, nodes, clock := [], map[], map[], 0;
    }

    method Now() returns (now: Time)
      modifies `clock
      ensures now == clock == old(clock) + 1
    {
      clock := clock + 1;
      now := clock;
    }

    /** `addJob`; the name comes from the clock. */
    method AddJob(r: JobRequest, id: JobId) returns (name: JobId)
      requires Valid()
      modifies `jobQueue, `jobHistory, `clock
      ensures Valid() && name == id && State() == JobAdded(old(State()), r, id)
      ensures var need := MemoryNeed(r.taskType, r.memReq);
        && clock == old(clock) + 1
        && jobQueue == old(jobQueue)
          + [Task(id, r.taskType, need, r.duration, r.inputMode, Pending, clock, r.estimated)]
        && jobHistory == old(jobHistory)[
            id := JobRecord(r.taskType, need, clock, None, None, None, Pending, 0.0)]
    {
      var now := Now();
      var memoryUsage := DefaultMemory(r.taskType);
      if r.memReq > 0.0 {
        memoryUsage := RoundPositive(r.memReq);
        if memoryUsage <= 0 {
          memoryUsage := 1;
        }
      }
      var task := Task(id, r.taskType, memoryUsage, r.duration, r.inputMode, Pending, now, r.estimated);
      jobQueue := jobQueue + [task];
      jobHistory := jobHistory[id := JobRecord(task.taskType, task.memoryUsage, task.createdAt, None, None, None,
        task.status, 0.0)];
      name := id;
    }

    /** `getAvailableJobs` */
    method GetAvailableJobs() returns (jobs: seq<Task>, ghost at: seq<nat>)
      ensures jobs == PendingJobs(jobQueue)
      ensures |at| == |jobs| && forall k :: 0 <= k < |at| ==>
        at[k] < |jobQueue| && jobs[k] == jobQueue[at[k]] && jobs[k].status == Pending
      ensures forall k, l :: 0 <= k < l < |at| ==> at[k] < at[l]
      ensures forall i :: 0 <= i < |jobQueue| && jobQueue[i].status == Pending ==> i in at
    {
      jobs, at := [], [];
      for i := 0 to |jobQueue|
        invariant jobs == PendingJobs(jobQueue[..i])
        invariant |at| == |jobs| && forall k :: 0 <= k < |at| ==>
          at[k] < i && jobs[k] == jobQueue[at[k]] && jobs[k].status == Pending
        invariant forall k, l :: 0 <= k < l < |at| ==> at[k] < at[l]
        invariant forall k :: 0 <= k < i && jobQueue[k].status == Pending ==> k in at
      {
        assert jobQueue[..i + 1][..i] == jobQueue[..i];
        if jobQueue[i].status == Pending {
          jobs, at := jobs + [jobQueue[i]], at + [i];
          assert at[|at| - 1] == i;
        }
      }
      assert jobQueue[..|jobQueue|] == jobQueue;
    }

    /** The search loop over the queue: the first pending job of that name. */
    method Find(j: JobId) returns (k: nat)
      ensures k == FindPending(jobQueue, j)
    {
      k := 0;
      while k < |jobQueue|
        invariant k <= |jobQueue| && FindPending(jobQueue, j) == k + FindPending(jobQueue[k..], j)
      {
        if IsPending(jobQueue[k], j) {
          return;
        }
        assert jobQueue[k..][1..] == jobQueue[k + 1..];
        k := k + 1;
      }
    }

    /** The search loop over the members. */
    static method FindMember(members: seq<Member>, node: NodeId) returns (k: nat)
      ensures k == FindAlive(members, node)
    {
      k := 0;
      while k < |members|
        invariant k <= |members| && FindAlive(members, node) == k + FindAlive(members[k..], node)
      {
        if members[k].name == node && members[k].alive {
          return;
        }
        assert members[k..][1..] == members[k + 1..];
        k := k + 1;
      }
    }

    method Propose(job: Task, members: seq<Member>, factors: Cand -> Factors)
      returns (best: Option<NodeId>, ghost k: nat)
      requires Valid()
      modifies scheduler, scheduler.rng
      ensures Valid() && State() == old(State())
      ensures IsProposal(best, members, job.memoryUsage)
      ensures best.Some? ==>
        var p := Positions(members, job.memoryUsage);
        && k < |p| && best.value == members[p[k]].name
        && ChosenWell(scheduler.mode, members, job.memoryUsage, job.estimatedProcessTime, scheduler.inflight,
          scheduler.speed, k)
    {
      hide ChosenWell;
      var worker, at, boost, d, how := scheduler.BestWorkerForTaskLocked(job, members, factors);
      best, k := None, 0;
      if worker.Some? {
        assert members[Positions(members, job.memoryUsage)[at]] == worker.value;
        best, k := Some(worker.value.name), at;
      }
    }

    /** The last part of `claimJob`: the job at position i leaves the queue and is charged to the node. */
    method Grant(node: NodeId, j: JobId, i: nat)
      requires Valid() && i == FindPending(jobQueue, j) < |jobQueue|
      modifies `jobQueue, `jobHistory, `clock, scheduler
      ensures Valid()
      ensures State() == ClaimApplied(scheduler.mode, old(State()), node, j, Accepted(old(jobQueue)[i]))
    {
      hide Charged, CountersOk, FindPending;
      var job := jobQueue[i];
      var assignedAt := Now();
      jobQueue := jobQueue[..i] + jobQueue[i + 1..];
      scheduler.OnAssigned(node, job.taskType);
      if job.id in jobHistory {
        jobHistory := jobHistory[job.id := jobHistory[job.id].(assignedTo := Some(node), assignedAt := Some(assignedAt),
          status := Running)];
      }
    }

    /** `claimJob`. The members are a snapshot of Serf's tags, which may be stale. A claim that is refused
        leaves queue, history, nodes and all scheduler counters as they were; one that is granted takes
        exactly that job out of the queue. */
    method ClaimJob(node: NodeId, j: JobId, members: seq<Member>, factors: Cand -> Factors)
    returns (reply: ClaimReply, ghost best: Option<NodeId>, ghost k: nat)
      requires Valid()
      modifies `jobQueue, `jobHistory, `clock, scheduler, scheduler.rng
      ensures Valid()
      ensures reply == ClaimDecision(old(State()), node, j, members, best)
      ensures reply.Accepted? ==> FindPending(old(jobQueue), j) < |old(jobQueue)|
      ensures State() == ClaimApplied(scheduler.mode, old(State()), node, j, reply)
      ensures var m, i := FindAlive(members, node), FindPending(old(jobQueue), j);
        && (reply == NotFound <==>
            m == |members| || (members[m].tags.status != Some("busy") && i == |old(jobQueue)|))
        && (reply.Accepted? <==>
            && m < |members| && members[m].tags.status != Some("busy") && i < |old(jobQueue)|
            && (best == None || best == Some(node))
            && var tags := members[m].tags;
            var shown :=
              if tags.freeMemory.Number? then tags.freeMemory.value
              else if tags.freeMemory.Missing? && tags.memoryLimit.Number? then tags.memoryLimit.value
              else 0;
            shown <= 0 || shown >= old(jobQueue)[i].memoryUsage)
      ensures !reply.Accepted? ==>
        jobQueue == old(jobQueue) && jobHistory == old(jobHistory) && clock == old(clock)
        && scheduler.State() == old(scheduler.State())
      ensures reply.Accepted? ==>
        var i, t := FindPending(old(jobQueue), j), old(jobQueue)[FindPending(old(jobQueue), j)];
        && reply.task == t && t.id == j && t.status == Pending
        && jobQueue == old(jobQueue)[..i] + old(jobQueue)[i + 1..] && clock == old(clock) + 1
        && jobHistory == (
          if j !in old(jobHistory) then old(jobHistory)
          else old(jobHistory)[
            j := old(jobHistory)[j].(assignedTo := Some(node), assignedAt := Some(clock), status := Running)])
        && scheduler.assignments == old(scheduler.assignments)[node := At(old(scheduler.assignments), node) + 1]
        && scheduler.inflight == old(scheduler.inflight)[node := At(old(scheduler.inflight), node) + 1]
      ensures best.Some? ==> FindPending(old(jobQueue), j) < |old(jobQueue)|
      ensures best.Some? ==>
        var t := old(jobQueue)[FindPending(old(jobQueue), j)];
        var p := Positions(members, t.memoryUsage);
        && k < |p| && best.value == members[p[k]].name
        && ChosenWell(scheduler.mode, members, t.memoryUsage, t.estimatedProcessTime, old(scheduler.inflight),
          scheduler.speed, k)
      ensures reply.Accepted? || best.Some? ==>
        IsProposal(best, members, old(jobQueue)[FindPending(old(jobQueue), j)].memoryUsage)
      ensures reply.Accepted? ==>
        var need := old(jobQueue)[FindPending(old(jobQueue), j)].memoryUsage;
        EligibleAs(members, node, need) <==> SomeEligible(members, need)
    {
      hide IsProposal, FindPending, FindAlive, Charged, SomeEligible, EligibleAs, ClaimDecision, ClaimMemory,
        ChosenWell, Positions;
      best, k := None, 0;
      ghost var before := State();
      var m := FindMember(members, node);
      ClaimReplies(before, node, j, members, best);
      if m == |members| {
        return NotFound, best, k;
      }
      if members[m].tags.status == Some("busy") {
        return Conflict, best, k;
      }
      var i := Find(j);
      if i == |jobQueue| {
        return NotFound, best, k;
      }
      var job := jobQueue[i];
      var tags := members[m].tags;
      var freeMemory := 0;
      if tags.freeMemory != Missing {
        if tags.freeMemory.Number? {
          freeMemory := tags.freeMemory.value;
        }
      } else if tags.memoryLimit.Number? {
        freeMemory := tags.memoryLimit.value;
      }
      if freeMemory > 0 && freeMemory < job.memoryUsage {
        return Conflict, best, k;
      }
      var worker, at := Propose(job, members, factors);
      best, k := worker, at;
      ClaimReplies(before, node, j, members, best);
      if worker.Some? && worker.value != node {
        return Conflict, best, k;
      }
      GrantedToEligibleIff(before, node, j, members, best);
      ClaimGranted(scheduler.mode, before, node, j);
      hide ClaimApplied;
      Grant(node, j, i);
      reply := Accepted(job);
    }

    /** `stopJob`: a queued job is withdrawn; otherwise the node that advertises it is named. */
    method StopJob(j: JobId, members: seq<Member>) returns (removed: bool, node: Option<NodeId>)
      requires Valid()
      modifies `jobQueue, `jobHistory, `clock
      ensures Valid() && State() == JobWithdrawn(old(State()), j)
      ensures removed <==> FindPending(old(jobQueue), j) < |old(jobQueue)|
      ensures removed ==>
        var i := FindPending(old(jobQueue), j);
        && jobQueue == old(jobQueue)[..i] + old(jobQueue)[i + 1..] && clock == old(clock) + 1
        && jobHistory == if j !in old(jobHistory) then old(jobHistory) else
            old(jobHistory)[j := old(jobHistory)[j].(status := Stopped, completedAt := Some(clock))]
      ensures !removed ==> jobQueue == old(jobQueue) && jobHistory == old(jobHistory) && clock == old(clock)
      ensures node == if removed then None else RunningNode(members, j)
      ensures node.Some? ==>
        exists i :: 0 <= i < |members| && members[i].name == node.value
          && members[i].alive && members[i].name != EDGE_SERVER && members[i].tags.currentTask == Some(j)
          && forall k :: 0 <= k < i ==>
            !(members[k].alive && members[k].name != EDGE_SERVER && members[k].tags.currentTask == Some(j))
      ensures !removed && node == None ==>
        forall m :: m in members ==> !(m.alive && m.name != EDGE_SERVER && m.tags.currentTask == Some(j))
    {
      removed, node := false, None;
      var i := Find(j);
      if i < |jobQueue| {
        jobQueue := jobQueue[..i] + jobQueue[i + 1..];
        removed := true;
        var now := Now();
        if j in jobHistory {
          jobHistory := jobHistory[j := jobHistory[j].(status := Stopped, completedAt := Some(now))];
        }
        return;
      }
      node := FindRunning(members, j);
      RunningNodeIs(members, j);
    }

    static method FindRunning(members: seq<Member>, j: JobId) returns (node: Option<NodeId>)
      ensures node == RunningNode(members, j)
    {
      var k := 0;
      while k < |members|
        invariant k <= |members| && RunningNode(members, j) == RunningNode(members[k..], j)
      {
        var m := members[k];
        if m.alive && m.name != EDGE_SERVER && m.tags.currentTask == Some(j) {
          return Some(m.name);
        }
        assert members[k..][1..] == members[k + 1..];
        k := k + 1;
      }
      node := None;
    }

    /** First locked block of the task-completion handler. */
    method RecordCompletion(c: CompletionEvent)
      requires Valid()
      modifies `jobHistory, `clock
      ensures Valid() && State() == CompletionRecorded(old(State()), c)
      ensures c.job !in old(jobHistory) ==> jobHistory == old(jobHistory) && clock == old(clock)
      ensures c.job in old(jobHistory) ==>
        var r := old(jobHistory)[c.job];
        && clock == old(clock) + 1
        && jobHistory == old(jobHistory)[c.job := r.(
            status := c.status, completedAt := Some(clock), durationSec := c.duration,
            assignedTo := if r.assignedTo.Some? then r.assignedTo else Some(c.node))]
    {
      if c.job in jobHistory {
        var now := Now();
        var rec := jobHistory[c.job];
        rec := rec.(status := c.status, completedAt := Some(now), durationSec := c.duration);
        if rec.assignedTo == None {
          rec := rec.(assignedTo := Some(c.node));
        }
        jobHistory := jobHistory[c.job := rec];
      }
    }

    /** Second locked block of the task-completion handler. */
    method LearnCompletion(c: CompletionEvent)
      requires Valid() && c.status == Completed && c.taskType != 0
      modifies scheduler
      ensures Valid() && State() == CompletionLearned(old(State()), c)
      ensures scheduler.inflight == old(scheduler.inflight)[
        c.node := if At(old(scheduler.inflight), c.node) > 1 then At(old(scheduler.inflight), c.node) - 1 else 0]
    {
      scheduler.OnCompleted(c.node, c.duration);
    }

    /** `addNode` */
    method AddNode(w: NodeId)
      requires Valid()
      modifies `nodes, scheduler
      ensures Valid() && State() == NodeAdded(old(State()), w)
      ensures nodes == old(nodes)[w := NodeRecord(None, [])]
      ensures scheduler.inflight == old(scheduler.inflight)[w := At(old(scheduler.inflight), w)]
    {
      nodes := nodes[w := NodeRecord(None, [])];
      scheduler.EnsureNode(w);
    }

    /** `removeNode` */
    method RemoveNode(w: NodeId)
      requires Valid()
      modifies `jobQueue, `nodes, scheduler
      ensures Valid() && State() == NodeRemoved(old(State()), w)
      ensures w !in old(nodes) ==>
        && jobQueue == old(jobQueue) && nodes == old(nodes)
        && scheduler.State() == old(scheduler.State()) && scheduler.pheromone == old(scheduler.pheromone)
      ensures w in old(nodes) ==>
        var r := old(nodes)[w];
        && jobQueue == old(jobQueue) + (if r.currentTask.Some? then [r.currentTask.value] else []) + r.taskQueue
        && nodes == old(nodes) - {w} && w !in scheduler.inflight && w !in scheduler.assignments
    {
      if w in nodes {
        var node := nodes[w];
        if node.currentTask.Some? {
          jobQueue := jobQueue + [node.currentTask.value];
        }
        for i := 0 to |node.taskQueue|
          modifies `jobQueue
          invariant jobQueue == old(jobQueue) + (if node.currentTask.Some? then [node.currentTask.value] else [])
            + node.taskQueue[..i]
        {
          jobQueue := jobQueue + [node.taskQueue[i]];
        }
        assert node.taskQueue[..|node.taskQueue|] == node.taskQueue;
        nodes := nodes - {w};
        scheduler.RemoveNode(w);
      }
    }
  }
}
