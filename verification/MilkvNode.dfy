/** The worker object `MilkvNode`: each method is one atomic access of one of its loops to the shared
    fields, tied to the value-level steps of module WorkerState (milkv-node/main.go). */
module MilkvNodes {
  import opened Shared
  import opened EdgeState
  import W = WorkerState

  class MilkvNode {
    const nodeID: NodeId
    const memoryLimit: int

    var currentTask: Option<Task>
    var currentCancelTask: Option<JobId>  // set while a cancel handle is registered
    var contextDone: bool                 // the context behind the handle was cancelled
    var jobLoop: W.Poll                   // where the job scheduler loop stands
    var taskLoop: W.Processor             // where the task processor loop stands

    ghost function State(): W.Worker
      reads this
    {
      W.Worker(memoryLimit, currentTask, jobLoop, taskLoop, currentCancelTask, contextDone)
    }

    /** What the loops keep between them: the job scheduler loop is at rest while a task is current and has
        all of the memory to give while it is not; a current task fits; and the task processor works on the
        current task, with its cancel handle registered while the workload runs. */
    ghost predicate Valid()
      reads this
    {
      && (currentTask.Some? ==> jobLoop.Waiting? && currentTask.value.memoryUsage <= memoryLimit)
      && (jobLoop.Choosing? ==> jobLoop.room == memoryLimit)
      && (jobLoop.Claiming? ==> jobLoop.room == memoryLimit)
      && (taskLoop.Preparing? ==> currentTask == Some(taskLoop.task))
      && (taskLoop.Executing? ==> currentTask == Some(taskLoop.task) && currentCancelTask == Some(taskLoop.task.id))
    }

    constructor (nodeID: NodeId, memoryLimit: int)
      ensures Valid() && State() == W.Idle(memoryLimit) && this.nodeID == nodeID
    {
      this.nodeID, this.memoryLimit := nodeID, memoryLimit;
      currentTask, currentCancelTask, contextDone := None, None, false;
      jobLoop, taskLoop := W.Waiting, W.Resting;
    }

    method SetCurrentTask(t: Option<Task>)
      modifies `currentTask
      ensures currentTask == t
    {
      currentTask := t;
    }

    // ---- job scheduler loop ----

    /** `checkForAvailableJobs` up to the request for the listing. */
    method CheckForAvailableJobs() returns (asked: bool)
      requires Valid() && jobLoop.Waiting?
      modifies `jobLoop
      ensures Valid() && State() == W.Asked(old(State())) && (asked <==> currentTask.None?)
      ensures jobLoop == if asked then W.Listing else W.Waiting
    {
      if currentTask.Some? {
        return false;
      }
      jobLoop := W.Listing;
      asked := true;
    }

    /** The answer is decoded and the free memory computed. No task can have become current since it was
        asked for, so all of the limit is free. */
    method ReceiveListing(availableJobs: seq<Task>)
      requires Valid() && jobLoop.Listing?
      modifies `jobLoop
      ensures Valid() && State() == W.ListingReceived(old(State()).(poll := W.Listed(availableJobs)))
      ensures jobLoop == W.Choosing(memoryLimit, availableJobs)
    {
      var used := MemoryInUse();
      jobLoop := W.Choosing(memoryLimit - used, availableJobs);
    }

    method MemoryInUse() returns (used: int)
      ensures used == if currentTask.Some? then currentTask.value.memoryUsage else 0
    {
      used := if currentTask.Some? then currentTask.value.memoryUsage else 0;
    }

    /** The loop over the listing: jobs that do not fit are skipped until one is claimed or none is left. */
    method ClaimNext(req: W.RequestId) returns (claimed: Option<JobId>, ghost skipped: nat)
      requires Valid() && jobLoop.Choosing?
      modifies `jobLoop
      ensures Valid() && skipped <= |old(jobLoop).jobs|
      ensures forall i :: 0 <= i < skipped ==> old(jobLoop).jobs[i].memoryUsage > memoryLimit
      ensures State() ==
              W.NextChosen(old(State()).(poll := W.Choosing(memoryLimit, old(jobLoop).jobs[skipped..])), req)
      ensures match claimed
        case None => jobLoop.Waiting? && skipped == |old(jobLoop).jobs|
        case Some(j) =>
          skipped < |old(jobLoop).jobs| && j == old(jobLoop).jobs[skipped].id
          && old(jobLoop).jobs[skipped].memoryUsage <= memoryLimit
    {
      var room, jobs := jobLoop.room, jobLoop.jobs;
      var i := 0;
      while i < |jobs|
        invariant i <= |jobs| && jobLoop == old(jobLoop)
        invariant forall k :: 0 <= k < i ==> jobs[k].memoryUsage > room
      {
        if jobs[i].memoryUsage <= room {
          claimed, skipped := Some(jobs[i].id), i;
          jobLoop := W.Claiming(req, jobs[i].id, room, jobs[i + 1..]);
          return;
        }
        i := i + 1;
      }
      claimed, skipped := None, i;
      jobLoop := W.Waiting;
    }

    /** `claimJob` gets its answer: a granted task becomes the current one as it comes, and no task was
        current, so none is overwritten. It fits if its need is that of the job chosen from the listing. */
    method ReceiveClaim(reply: ClaimReply) returns (won: bool)
      requires Valid() && jobLoop.Claiming?
      modifies `jobLoop, `currentTask
      ensures !reply.Accepted? || reply.task.memoryUsage <= memoryLimit ==> Valid()
      ensures State() == W.ReplyReceived(old(State()), reply) && (won <==> reply.Accepted?)
      ensures reply.Accepted? ==> currentTask == Some(reply.task) && jobLoop.Waiting?
      ensures !reply.Accepted? ==>
        currentTask == old(currentTask) && jobLoop == W.Choosing(memoryLimit, old(jobLoop).jobs)
      ensures old(currentTask) == None && !old(taskLoop.Preparing?) && !old(taskLoop.Executing?)
    {
      if reply.Accepted? {
        SetCurrentTask(Some(reply.task));
        jobLoop := W.Waiting;
        return true;
      }
      jobLoop := W.Choosing(jobLoop.room, jobLoop.jobs);
      won := false;
    }

    /** The request failed or its answer could not be decoded. */
    method GiveUp()
      requires Valid()
      modifies `jobLoop
      ensures Valid() && State() == W.GaveUp(old(State()))
      ensures old(jobLoop).Claiming? ==> jobLoop == W.Choosing(memoryLimit, old(jobLoop).jobs)
      ensures old(jobLoop).Listing? || old(jobLoop).Listed? ==> jobLoop == W.Waiting
    {
      match jobLoop {
        case Claiming(_, _, room, jobs) => jobLoop := W.Choosing(room, jobs);
        case Listing => jobLoop := W.Waiting;
        case Listed(_) => jobLoop := W.Waiting;
        case _ =>
      }
    }

    // ---- task processor loop ----

    /** `startTaskProcessor` finds a task and enters `processTask`. */
    method BeginTask() returns (started: bool)
      requires Valid() && taskLoop.Resting?
      modifies `taskLoop
      ensures Valid() && State() == W.Begun(old(State())) && (started <==> currentTask.Some?)
      ensures taskLoop == if currentTask.Some? then W.Preparing(currentTask.value) else W.Resting
    {
      if currentTask.None? {
        return false;
      }
      taskLoop := W.Preparing(currentTask.value);
      started := true;
    }

    /** The input file could not be prepared: `finalizeTaskFailure` without a cancel handle. The task that
        is cleared is the one that was worked on. */
    method FailPreparation()
      requires Valid() && taskLoop.Preparing?
      modifies `taskLoop, `currentTask
      ensures Valid() && State() == W.PreparationFailed(old(State())) && old(currentTask) == Some(taskLoop.task)
      ensures currentTask == None && taskLoop == W.Reporting(old(taskLoop).task, Failed, false)
    {
      SetCurrentTask(None);
      taskLoop := W.Reporting(taskLoop.task, Failed, false);
    }

    method RegisterCancel()
      requires Valid() && taskLoop.Preparing?
      modifies `taskLoop, `currentCancelTask, `contextDone
      ensures Valid() && State() == W.Registered(old(State()))
      ensures currentCancelTask == Some(old(taskLoop).task.id) && !contextDone
      ensures taskLoop == W.Executing(old(taskLoop).task)
    {
      contextDone := false;
      currentCancelTask := Some(taskLoop.task.id);
      taskLoop := W.Executing(taskLoop.task);
    }

    /** The workload returns: `finalizeTaskSuccess`, `finalizeTaskFailure` or `finalizeTaskStopped` up to
        clearing the current task, which is the one that was worked on. Only a cancelled context lets it
        return as stopped. */
    method FinalizeTask(outcome: TaskStatus)
      requires Valid() && taskLoop.Executing? && outcome.Terminal() && (outcome == Stopped ==> contextDone)
      modifies `taskLoop, `currentTask
      ensures Valid() && State() == W.Ended(old(State()), outcome) && old(currentTask) == Some(taskLoop.task)
      ensures currentTask == None && taskLoop == W.Reporting(old(taskLoop).task, outcome, true)
    {
      SetCurrentTask(None);
      taskLoop := W.Reporting(taskLoop.task, outcome, true);
    }

    /** `sendTaskCompletion` */
    method SendTaskCompletion(duration: real) returns (c: CompletionEvent)
      requires Valid() && taskLoop.Reporting?
      modifies `taskLoop
      ensures Valid() && c == W.CompletionOf(nodeID, old(State()), duration)
      ensures var t := old(taskLoop).task;
        c == CompletionEvent(nodeID, t.id, old(taskLoop).outcome, t.taskType, duration)
        && taskLoop == if old(taskLoop).registered then W.Releasing(t) else W.Resting
      ensures State() == W.Reported(old(State()))
    {
      c := CompletionEvent(nodeID, taskLoop.task.id, taskLoop.outcome, taskLoop.task.taskType, duration);
      taskLoop := if taskLoop.registered then W.Releasing(taskLoop.task) else W.Resting;
    }

    /** The deferred clean-up of `processTask`. */
    method ReleaseCancel()
      requires Valid() && taskLoop.Releasing?
      modifies `taskLoop, `currentCancelTask
      ensures Valid() && State() == W.Released(old(State())) && taskLoop.Resting?
      ensures currentCancelTask ==
        if old(currentCancelTask) == Some(old(taskLoop).task.id) then None else old(currentCancelTask)
    {
      if currentCancelTask == Some(taskLoop.task.id) {
        currentCancelTask := None;
      }
      taskLoop := W.Resting;
    }

    // ---- Serf handler and metrics loop ----

    /** `handleSerfEvents` and `requestCancel`: events for other nodes and for other tasks do nothing;
        an event that names no node is for everyone. While a workload runs, only an event that names its
        task cancels it. */
    method HandleCancel(node: Option<NodeId>, j: JobId)
      requires Valid()
      modifies `contextDone
      ensures Valid()
      ensures State() ==
        if node == None || node == Some(nodeID) then W.CancelRequested(old(State()), j) else old(State())
      ensures contextDone <==>
        old(contextDone) || ((node == None || node == Some(nodeID)) && currentCancelTask == Some(j))
      ensures taskLoop.Executing? ==>
        (contextDone <==> old(contextDone) || ((node == None || node == Some(nodeID)) && taskLoop.task.id == j))
    {
      if node.Some? && node.value != nodeID {
        return;
      }
      if currentCancelTask.Some? && currentCancelTask.value == j {
        contextDone := true;
      }
    }

    /** `updateMemoryTags`; the machine's own memory counts only when no limit is configured. */
    method UpdateMemoryTags(host: W.HostMemory) returns (tags: Tags)
      requires Valid()
      ensures tags == W.Advertised(State(), host)
      ensures tags.isMilkv && tags.status == Some(if currentTask.Some? then "busy" else "online")
      ensures tags.currentTask == if currentTask.Some? then Some(currentTask.value.id) else None
      ensures tags.memoryLimit == Number(if memoryLimit > 0 then memoryLimit else host.total)
      ensures memoryLimit > 0 ==>
        tags.freeMemory == Number(memoryLimit - if currentTask.Some? then currentTask.value.memoryUsage else 0)
      ensures memoryLimit <= 0 && !(currentTask.Some? && host.total > 0 && host.available == host.total) ==>
        tags.freeMemory == Number(host.available)
      ensures memoryLimit <= 0 && currentTask.Some? && host.total > 0 && host.available == host.total ==>
        tags.freeMemory == Number(if host.total > currentTask.value.memoryUsage then
          host.total - currentTask.value.memoryUsage else 0)
    {
      var total, avail := host.total, host.available;
      if memoryLimit > 0 {
        total, avail := memoryLimit, memoryLimit;
        if currentTask.Some? {
          avail := total - currentTask.value.memoryUsage;
          if avail < 0 {
            avail := 0;
          }
        }
      } else if currentTask.Some? && total > 0 && avail == total {
        avail := total - currentTask.value.memoryUsage;
        if avail < 0 {
          avail := 0;
        }
      }
      var status := "online";
      if currentTask.Some? {
        status := "busy";
      }
      tags := Tags(true, Some(status), Number(avail), Number(total),
                   if currentTask.Some? then Some(currentTask.value.id) else None);
    }
  }
}
