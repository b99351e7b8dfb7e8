/** A worker's state as a value, and what each atomic block of its loops does to it (milkv-node/main.go). */
module WorkerState {
  import opened Shared
  import opened EdgeState

  type RequestId = nat

  /** Where the job scheduler loop stands inside `checkForAvailableJobs`. */
  datatype Poll =
    | Waiting
    | Listing                                     // GET sent
    | Listed(jobs: seq<Task>)                     // answer under way
    | Choosing(room: int, jobs: seq<Task>)        // iterating over the answer
    | Claiming(req: RequestId, job: JobId, room: int, jobs: seq<Task>)  // POST sent

  /** Where the task processor loop stands inside `processTask`. */
  datatype Processor =
    | Resting
    | Preparing(task: Task)
    | Executing(task: Task)
    | Reporting(task: Task, outcome: TaskStatus, registered: bool)  // current task cleared, event not sent
    | Releasing(task: Task)                       // deferred clean-up of the cancel handle

  datatype Worker = Worker(
    limit: int,
    current: Option<Task>,
    poll: Poll,
    processor: Processor,
    cancelTask: Option<JobId>,    // currentCancel / currentCancelTask
    cancelled: bool)              // the context behind currentCancel is done

  function Idle(limit: int): Worker { Worker(limit, None, Waiting, Resting, None, false) }

  // ---- job scheduler loop ----

  /** First lines of `checkForAvailableJobs`: only an idle worker asks. */
  function Asked(x: Worker): Worker {
    if x.current.Some? then x else x.(poll := Listing)
  }

  /** The listing arrives; the room for a new job is computed from the current task. */
  function ListingReceived(x: Worker): Worker
    requires x.poll.Listed?
  {
    var room := x.limit - if x.current.Some? then x.current.value.memoryUsage else 0;
    x.(poll := Choosing(room, x.poll.jobs))
  }

  predicate Fits(x: Worker) {
    x.poll.Choosing? && x.poll.jobs != [] && x.poll.jobs[0].memoryUsage <= x.poll.room
  }

  /** One turn of the loop over the listing: claim the job if it fits, else skip it. */
  function NextChosen(x: Worker, req: RequestId): Worker
    requires x.poll.Choosing?
  {
    if x.poll.jobs == [] then x.(poll := Waiting)
    else if Fits(x) then x.(poll := Claiming(req, x.poll.jobs[0].id, x.poll.room, x.poll.jobs[1..]))
    else x.(poll := Choosing(x.poll.room, x.poll.jobs[1..]))
  }

  /** `claimJob` returns: on success the task becomes current and the loop ends. */
  function ReplyReceived(x: Worker, reply: ClaimReply): Worker
    requires x.poll.Claiming?
  {
    if reply.Accepted? then x.(current := Some(reply.task), poll := Waiting)
    else x.(poll := Choosing(x.poll.room, x.poll.jobs))
  }

  /** The request timed out or its answer could not be read: try the next job. */
  function GaveUp(x: Worker): Worker {
    match x.poll
    case Claiming(_, _, room, jobs) => x.(poll := Choosing(room, jobs))
    case Listing => x.(poll := Waiting)
    case Listed(_) => x.(poll := Waiting)
    case _ => x
  }

  // ---- task processor loop ----

  function Begun(x: Worker): Worker {
    if x.current.None? || !x.processor.Resting? then x else x.(processor := Preparing(x.current.value))
  }

  /** Input preparation failed: the task ends before a cancel handle exists. */
  function PreparationFailed(x: Worker): Worker
    requires x.processor.Preparing?
  {
    x.(current := None, processor := Reporting(x.processor.task, Failed, false))
  }

  function Registered(x: Worker): Worker
    requires x.processor.Preparing?
  {
    x.(processor := Executing(x.processor.task), cancelTask := Some(x.processor.task.id), cancelled := false)
  }

  /** The workload may end as stopped only if its context was cancelled. */
  predicate CanEnd(x: Worker, outcome: TaskStatus) {
    x.processor.Executing? && outcome.Terminal() && (outcome == Stopped ==> x.cancelled)
  }

  /** `finalizeTask...` up to clearing the current task. */
  function Ended(x: Worker, outcome: TaskStatus): Worker
    requires x.processor.Executing?
  {
    x.(current := None, processor := Reporting(x.processor.task, outcome, true))
  }

  function CompletionOf(node: NodeId, x: Worker, duration: real): CompletionEvent
    requires x.processor.Reporting?
  {
    CompletionEvent(node, x.processor.task.id, x.processor.outcome, x.processor.task.taskType, duration)
  }

  function Reported(x: Worker): Worker
    requires x.processor.Reporting?
  {
    x.(processor := if x.processor.registered then Releasing(x.processor.task) else Resting)
  }

  function Released(x: Worker): Worker
    requires x.processor.Releasing?
  {
    x.(processor := Resting, cancelTask := if x.cancelTask == Some(x.processor.task.id) then None else x.cancelTask)
  }

  // ---- Serf handler and metrics loop ----

  /** `requestCancel` */
  function CancelRequested(x: Worker, j: JobId): Worker {
    if x.cancelTask == Some(j) then x.(cancelled := true) else x
  }

  /** Total and free memory of the machine, as `getSystemMemoryMB` reads them. */
  datatype HostMemory = HostMemory(total: int, available: int)

  /** Total and free memory to advertise: the configured limit less what the current task needs, or, without
      a limit, what the machine reports, less the task when that does not show in it. */
  function MemoryShown(x: Worker, host: HostMemory): HostMemory {
    if x.limit > 0 then
      HostMemory(x.limit, if x.current.Some? then AtLeastZero(x.limit - x.current.value.memoryUsage) else x.limit)
    else if x.current.Some? && host.total > 0 && host.available == host.total then
      HostMemory(host.total, AtLeastZero(host.total - x.current.value.memoryUsage))
    else host
  }

  /** `updateMemoryTags` */
  function Advertised(x: Worker, host: HostMemory): Tags {
    var shown := MemoryShown(x, host);
    Tags(true, Some(if x.current.Some? then "busy" else "online"), Number(shown.available), Number(shown.total),
         if x.current.Some? then Some(x.current.value.id) else None)
  }
}
