/** Values exchanged by the edge server and the workers (shared/types.go). */
module Shared {

  datatype Option<+T> = None | Some(value: T)

  /** The number in a job name `task-<number>`. */
  type JobId = nat

  /** Node names are only compared, so they are modelled as numbers; `None` stands for "". */
  type NodeId = nat

  /** The edge server's own Serf name. */
  const EDGE_SERVER: NodeId := 0

  type TaskType = int

  /** Readings of the edge server's clock, taken under its lock. */
  type Time = nat

  datatype TaskStatus = Pending | Running | Completed | Failed | Stopped {
    predicate Terminal() { Completed? || Failed? || Stopped? }
  }

  datatype InputMode = Camera | File

  datatype Task = Task(
    id: JobId,
    taskType: TaskType,
    memoryUsage: int,
    duration: int,
    inputMode: InputMode,
    status: TaskStatus,
    createdAt: Time,
    estimatedProcessTime: real)

  /** `GetTaskInfo`: the default memory need of a task type, in MB. */
  function DefaultMemory(t: TaskType): int {
    if t == 1 then 58 else if t == 2 then 65 else if t == 3 then 62 else if t == 4 then 70
    else if t == 5 then 75 else if t == 6 then 68 else if t == 7 then 72 else if t == 8 then 80
    else if t == 9 then 74 else if t == 10 then 78 else 50
  }

  /** `math.Round` on a positive number: halves away from zero. */
  function RoundPositive(x: real): int { (x + 0.5).Floor }

  /** The memory need `addJob` records: a positive request overrides the default and is at least 1. */
  function MemoryNeed(t: TaskType, requested: real): (m: int)
    ensures m >= 1
    ensures requested > 0.0 ==> m as real > requested - 0.5 && (m > 1 ==> m as real <= requested + 0.5)
    ensures requested <= 0.0 ==> m == DefaultMemory(t)
  {
    if requested > 0.0 then
      var m := RoundPositive(requested);
      if m <= 0 then 1 else m
    else DefaultMemory(t)
  }

  /** What Go reads from an int map: 0 when the key is absent. */
  function At<K>(m: map<K, int>, k: K): int { if k in m then m[k] else 0 }

  function AtLeastZero(x: int): nat { if x >= 0 then x else 0 }

  // ---- Serf members, as the edge server sees them ----

  /** A tag parsed with `strconv.Atoi`: absent, present but not a number, or a number. */
  datatype NumberTag = Missing | Garbled | Number(value: int)

  datatype Tags = Tags(isMilkv: bool, status: Option<string>, freeMemory: NumberTag, memoryLimit: NumberTag,
      currentTask: Option<JobId>)

  datatype Member = Member(name: NodeId, alive: bool, tags: Tags)
}
