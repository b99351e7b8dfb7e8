/** Short runs of the protocol: a job is completed, lost, or fails; and what a failure does to the trails. */
module Scenarios {
  import opened Shared
  import opened SchedulerCounters
  import opened EdgeState
  import opened Protocol
  import opened Floats
  import opened HybridScore
  import opened Trails
  import opened Candidates
  import opened TaskScheduling
  import W = WorkerState

  const WORKER: NodeId := 1
  const JOB: JobId := 7
  const REQUEST: W.RequestId := 0
  const ORDER := JobRequest(3, 10, Camera, 0.0, 2.0)
  const START := System(PsoAcoGa, Edge([], map[], map[], NoCounters, 0), None, map[WORKER := W.Idle(256)],
                        map[], {}, map[], {}, {}, map[], {}, {}, [], [], {}, {})
  const MEMBERS := [Member(WORKER, true, Tags(true, Some("online"), Number(256), Number(256), None))]
  const TASK := Task(JOB, 3, 62, 10, Camera, Pending, 1, 2.0)

  lemma Started()
    ensures IsRun([START])
  {
  }

  /** A run is extended by any enabled step. */
  lemma Extend(b: seq<System>, step: Step)
    requires IsRun(b) && Enabled(b[|b| - 1], step)
    ensures IsRun(b + [Do(b[|b| - 1], step)])
  {
    hide Do, Enabled, Init;
    var c := b + [Do(b[|b| - 1], step)];
    forall i | 0 <= i < |c| - 1 ensures Next(c[i], c[i + 1]) {
      if i == |b| - 1 {
        assert c[i] == b[i];
      } else {
        assert Next(b[i], b[i + 1]) && c[i] == b[i] && c[i + 1] == b[i + 1];
      }
    }
  }

  ghost predicate Reachable(s: System) { exists b :: b != [] && IsRun(b) && b[|b| - 1] == s }

  lemma Reach(s: System, step: Step)
    requires Reachable(s) && Enabled(s, step)
    ensures Reachable(Do(s, step))
  {
    hide Do, Enabled, IsRun;
    var b :| b != [] && IsRun(b) && b[|b| - 1] == s;
    Extend(b, step);
    var c := b + [Do(s, step)];
    assert c[|c| - 1] == Do(s, step);
  }

  const CREATED := START.(edge := Edge([TASK], map[JOB := NewRecord(TASK)], map[], NoCounters, 1),
    place := map[JOB := Queued])

  function Alone(s: System, x: W.Worker): System { s.(workers := map[WORKER := x]) }

  const LISTED := Alone(CREATED, W.Idle(256).(poll := W.Listed([TASK])))

  /** The claim request is under way. */
  const CLAIMING := Alone(CREATED,
    W.Idle(256).(poll := W.Claiming(REQUEST, JOB, 256, []))).(claims := map[REQUEST := ClaimRequest(WORKER, JOB)],
      pending := {REQUEST})

  lemma ReachCreated()
    ensures Reachable(CREATED)
  {
    hide Reachable, Init;
    assert Reachable(START) by {
      Started();
      Last(START);
    }
    Reach(START, CreateJob(ORDER, JOB));
    assert CREATED == Do(START, CreateJob(ORDER, JOB));
  }

  lemma Last(s: System)
    requires IsRun([s])
    ensures Reachable(s)
  {
    assert [s][|[s]| - 1] == s;
  }

  lemma ReachListed()
    ensures Reachable(LISTED)
  {
    hide Reachable;
    ReachCreated();
    var asked := Alone(CREATED, W.Idle(256).(poll := W.Listing));
    Reach(CREATED, Ask(WORKER));
    assert asked == Do(CREATED, Ask(WORKER));
    Reach(asked, AnswerListing(WORKER));
    assert PendingJobs([TASK]) == [TASK] by {
      assert [TASK][..0] == [];
    }
    assert LISTED == Do(asked, AnswerListing(WORKER));
  }

  lemma ReachClaiming()
    ensures Reachable(CLAIMING)
  {
    hide Reachable;
    ReachListed();
    var choosing := Alone(CREATED, W.Idle(256).(poll := W.Choosing(256, [TASK])));
    Reach(LISTED, ReceiveListing(WORKER));
    assert choosing == Do(LISTED, ReceiveListing(WORKER));
    Reach(choosing, Choose(WORKER, REQUEST));
    assert [TASK][1..] == [];
    assert CLAIMING == Do(choosing, Choose(WORKER, REQUEST));
  }

  const RUNNING := NewRecord(TASK).(assignedTo := Some(WORKER), assignedAt := Some(2), status := Running)

  /** The job is granted and the answer under way. */
  const GRANTED := CLAIMING.(
    edge := Edge([], map[JOB := RUNNING], map[], Charged(PsoAcoGa, NoCounters, WORKER, 3), 2),
    pending := {}, replies := map[REQUEST := Accepted(TASK)],
    place := map[JOB := InReply(REQUEST)], trace := [Assign(WORKER, JOB, 3, 2)])

  lemma ReachGranted()
    ensures Reachable(GRANTED)
  {
    hide Reachable, Charged;
    ReachClaiming();
    assert FindPending([TASK], JOB) == 0 && FindAlive(MEMBERS, WORKER) == 0;
    assert Without([TASK], 0) == [];
    Reach(CLAIMING, HandleClaim(REQUEST, MEMBERS, Some(WORKER)));
    assert GRANTED == Do(CLAIMING, HandleClaim(REQUEST, MEMBERS, Some(WORKER)));
  }

  /** A job is lost when the answer to its claim is: its record says running, and no worker has it. */
  lemma LossHappens() returns (s: System)
    ensures Reachable(s)
    ensures s.place == map[JOB := Lost(WORKER)] && s.edge.history == map[JOB := RUNNING] && s.edge.queue == []
    ensures s.workers.Keys == {WORKER} && s.workers[WORKER].current == None && s.replies == map[]
  {
    hide Reachable, Charged;
    ReachGranted();
    Reach(GRANTED, DropReply(REQUEST));
    s := Do(GRANTED, DropReply(REQUEST));
  }

  lemma CrashStep(s: System)
    requires Stage(s, Executing())
    ensures Enabled(s, Crash(WORKER))
    ensures var t := Do(s, Crash(WORKER));
      && t.edge == s.edge && t.workers == map[WORKER := W.Idle(256)]
      && JOB in t.place && t.place[JOB] == Lost(WORKER)
  {
  }

  /** The same happens when the worker dies while it works on the job. */
  lemma CrashHappens() returns (s: System)
    ensures Reachable(s)
    ensures JOB in s.place && s.place[JOB] == Lost(WORKER) && s.edge.history == map[JOB := RUNNING]
    ensures s.edge.queue == [] && s.workers.Keys == {WORKER} && s.workers[WORKER].current == None
  {
    hide Reachable, Do, Enabled;
    var r := ReachExecuting();
    CrashStep(r);
    Reach(r, Crash(WORKER));
    s := Do(r, Crash(WORKER));
  }

  /** The worker is in this state, and the edge server as it was when it granted the job. */
  ghost predicate Stage(s: System, x: W.Worker) {
    s.workers == map[WORKER := x] && s.edge == GRANTED.edge && s.learning == None && s.mode == PsoAcoGa
  }

  const HOLDING := W.Idle(256).(current := Some(TASK))

  function Executing(): W.Worker { HOLDING.(processor := W.Executing(TASK), cancelTask := Some(JOB)) }

  function Reporting(outcome: TaskStatus): W.Worker {
    W.Idle(256).(processor := W.Reporting(TASK, outcome, true), cancelTask := Some(JOB))
  }

  function Report5(outcome: TaskStatus): CompletionEvent { CompletionEvent(WORKER, JOB, outcome, 3, 5.0) }

  lemma HoldingStep()
    ensures Enabled(GRANTED, ReceiveReply(WORKER)) && Stage(Do(GRANTED, ReceiveReply(WORKER)), HOLDING)
  {
  }

  lemma PreparingStep(s: System)
    requires Stage(s, HOLDING)
    ensures Enabled(s, Begin(WORKER)) && Stage(Do(s, Begin(WORKER)), HOLDING.(processor := W.Preparing(TASK)))
  {
  }

  lemma ExecutingStep(s: System)
    requires Stage(s, HOLDING.(processor := W.Preparing(TASK)))
    ensures Enabled(s, Register(WORKER)) && Stage(Do(s, Register(WORKER)), Executing())
  {
  }

  lemma EndedStep(s: System, outcome: TaskStatus)
    requires Stage(s, Executing()) && (outcome == Completed || outcome == Failed)
    ensures Enabled(s, End(WORKER, outcome)) && Stage(Do(s, End(WORKER, outcome)), Reporting(outcome))
  {
  }

  lemma ReportedStep(s: System, outcome: TaskStatus)
    requires Stage(s, Reporting(outcome))
    ensures Enabled(s, Report(WORKER, 5.0))
    ensures var t := Do(s, Report(WORKER, 5.0));
      t.edge == s.edge && t.learning == None && t.mode == s.mode && Report5(outcome) in t.events
  {
  }

  /** The worker can come to work on the task. */
  lemma ReachExecuting() returns (s: System)
    ensures Reachable(s) && Stage(s, Executing())
  {
    hide Reachable, Do, Enabled, Stage;
    ReachGranted();
    HoldingStep();
    Reach(GRANTED, ReceiveReply(WORKER));
    var s1 := Do(GRANTED, ReceiveReply(WORKER));
    PreparingStep(s1);
    Reach(s1, Begin(WORKER));
    var s2 := Do(s1, Begin(WORKER));
    ExecutingStep(s2);
    Reach(s2, Register(WORKER));
    s := Do(s2, Register(WORKER));
  }

  /** The task can end with this outcome, and the event that says so be under way. */
  lemma ReachReported(outcome: TaskStatus) returns (s: System)
    requires outcome == Completed || outcome == Failed
    ensures Reachable(s) && s.edge == GRANTED.edge && s.learning == None && s.mode == PsoAcoGa
    ensures Report5(outcome) in s.events
  {
    hide Reachable, Do, Enabled, Stage;
    var r := ReachExecuting();
    EndedStep(r, outcome);
    Reach(r, End(WORKER, outcome));
    var t := Do(r, End(WORKER, outcome));
    ReportedStep(t, outcome);
    Reach(t, Report(WORKER, 5.0));
    s := Do(t, Report(WORKER, 5.0));
    StageEdge(t, Reporting(outcome));
  }

  lemma StageEdge(s: System, x: W.Worker)
    requires Stage(s, x)
    ensures s.edge == GRANTED.edge && s.mode == PsoAcoGa
  {
  }

  function RecordAfter(outcome: TaskStatus): JobRecord {
    RUNNING.(status := outcome, completedAt := Some(3), durationSec := 5.0)
  }

  lemma HandledStep(s: System, outcome: TaskStatus)
    requires s.edge == GRANTED.edge && s.learning == None && Report5(outcome) in s.events
    ensures Enabled(s, HandleCompletion(Report5(outcome)))
    ensures var t := Do(s, HandleCompletion(Report5(outcome)));
      && t.mode == s.mode && t.edge == GRANTED.edge.(history := map[JOB := RecordAfter(outcome)], clock := 3)
      && t.learning == (if outcome == Completed then Some(Report5(outcome)) else None)
  {
    hide Charged;
  }

  lemma LearnStep(t: System)
    requires t.edge.history == map[JOB := RecordAfter(Completed)]
    requires t.edge.counters == Charged(PsoAcoGa, NoCounters, WORKER, 3)
    requires t.learning == Some(Report5(Completed))
    ensures Enabled(t, Learn)
    ensures var s := Do(t, Learn);
      s.edge.history == t.edge.history && s.edge.counters.inflight == map[WORKER := 0]
  {
  }

  /** A job can be completed, and its completion brings the load counter back to 0. */
  lemma CompletionHappens() returns (s: System)
    ensures Reachable(s)
    ensures s.edge.history == map[JOB := RecordAfter(Completed)] && s.edge.counters.inflight == map[WORKER := 0]
  {
    hide Reachable, Do, Enabled, Charged;
    var r := ReachReported(Completed);
    HandledStep(r, Completed);
    Reach(r, HandleCompletion(Report5(Completed)));
    var t := Do(r, HandleCompletion(Report5(Completed)));
    LearnStep(t);
    Reach(t, Learn);
    s := Do(t, Learn);
  }

  /** The cluster as it looks once the worker has advertised what it is doing. */
  const BUSY_MEMBERS := [Member(WORKER, true, W.Advertised(Executing(), W.HostMemory(512, 512)))]

  const CANCELLED := Executing().(cancelled := true)

  const STOPPING := Reporting(Stopped).(cancelled := true)

  /** The stop request finds the job on the worker and sends it a cancel event. */
  lemma StopStep(s: System)
    requires Stage(s, Executing())
    ensures Enabled(s, StopJob(JOB, BUSY_MEMBERS))
    ensures var t := Do(s, StopJob(JOB, BUSY_MEMBERS));
      Stage(t, Executing()) && CancelEvent(WORKER, JOB) in t.cancels && JOB in t.stops
  {
    var m := BUSY_MEMBERS[0];
    assert m.alive && m.name != EDGE_SERVER && m.tags.currentTask == Some(JOB);
    assert RunningNode(BUSY_MEMBERS, JOB) == Some(WORKER);
    assert FindPending(s.edge.queue, JOB) == 0;
  }

  lemma CancelStep(s: System)
    requires Stage(s, Executing()) && CancelEvent(WORKER, JOB) in s.cancels
    ensures Enabled(s, Cancel(WORKER, JOB)) && Stage(Do(s, Cancel(WORKER, JOB)), CANCELLED)
  {
  }

  lemma StoppedStep(s: System)
    requires Stage(s, CANCELLED)
    ensures Enabled(s, End(WORKER, Stopped))
    ensures var t := Do(s, End(WORKER, Stopped));
      Stage(t, STOPPING) && JOB in t.place && t.place[JOB] == Done(WORKER, Stopped)
  {
  }

  lemma StoppedReportedStep(s: System)
    requires Stage(s, STOPPING)
    ensures Enabled(s, Report(WORKER, 5.0))
    ensures var t := Do(s, Report(WORKER, 5.0));
      && t.edge == GRANTED.edge && t.learning == None && t.mode == s.mode && t.place == s.place
      && Report5(Stopped) in t.events
  {
  }

  lemma HandlingKeepsPlaces(s: System, c: CompletionEvent)
    requires Enabled(s, HandleCompletion(c))
    ensures Do(s, HandleCompletion(c)).place == s.place
  {
  }

  /** A job that is running can be stopped: from a state in which a worker works on it, a stop request names that
      worker, the cancel event reaches it, the workload ends as stopped, and the record reads so. */
  lemma StopHappens() returns (running: System, s: System)
    ensures Reachable(running) && Reachable(s)
    ensures running.workers.Keys == {WORKER} && running.workers[WORKER].processor == W.Executing(TASK)
    ensures running.edge.history == map[JOB := RUNNING]
    ensures s.edge.history == map[JOB := RecordAfter(Stopped)] && s.learning == None
    ensures JOB in s.place && s.place[JOB] == Done(WORKER, Stopped)
    ensures s.edge.counters.inflight == map[WORKER := 1]
  {
    hide Reachable, Do, Enabled, RunningNode, W.Advertised;
    running := ReachExecuting();
    StopStep(running);
    Reach(running, StopJob(JOB, BUSY_MEMBERS));
    var s1 := Do(running, StopJob(JOB, BUSY_MEMBERS));
    CancelStep(s1);
    Reach(s1, Cancel(WORKER, JOB));
    var s2 := Do(s1, Cancel(WORKER, JOB));
    StoppedStep(s2);
    Reach(s2, End(WORKER, Stopped));
    var s3 := Do(s2, End(WORKER, Stopped));
    StoppedReportedStep(s3);
    Reach(s3, Report(WORKER, 5.0));
    var s4 := Do(s3, Report(WORKER, 5.0));
    HandledStep(s4, Stopped);
    HandlingKeepsPlaces(s4, Report5(Stopped));
    Reach(s4, HandleCompletion(Report5(Stopped)));
    s := Do(s4, HandleCompletion(Report5(Stopped)));
  }

  /** A job that fails stays in the load counter: nothing is running, and the counter says 1. */
  lemma FailureKeepsLoad() returns (s: System)
    ensures Reachable(s)
    ensures s.edge.history == map[JOB := RecordAfter(Failed)] && s.learning == None && s.mode == PsoAcoGa
    ensures s.edge.counters.inflight == map[WORKER := 1] && s.edge.counters.assignments == map[WORKER := 1]
  {
    hide Reachable, Do, Enabled;
    var r := ReachReported(Failed);
    HandledStep(r, Failed);
    Reach(r, HandleCompletion(Report5(Failed)));
    s := Do(r, HandleCompletion(Report5(Failed)));
  }

  /** After one failed job the default mode can no longer keep trails in range: the worker is eligible for
      another job of that size, and any hybrid call in which it is the first eligible member, whoever the others
      are, whatever the factors of the scores, the trails before and the draws, leaves NaN as its trail. */
  lemma FailureSpoilsTrail(pow: Power, factors: Cand -> Factors, speed: Speeds, usesPso: bool, before: TrailMap,
                           members: seq<Member>) returns (s: System)
    requires var p := Positions(members, TASK.memoryUsage);
      && p != [] && members[p[0]] == MEMBERS[0]
      && forall k :: 0 < k < |p| ==> members[p[k]].name != WORKER
    ensures Reachable(s) && s.mode == PsoAcoGa && s.edge.history == map[JOB := RecordAfter(Failed)]
    ensures Eligible(MEMBERS[0], TASK.memoryUsage) && MEMBERS[0].name == WORKER
    ensures var inflight := s.edge.counters.inflight;
      var cands := CandList(members, TASK.memoryUsage, inflight, speed);
      cands != [] && forall after ::
        TrailsLeft(pow, cands, factors, TASK.taskType, usesPso, before, after, At(inflight, WORKER) == 0) ==>
          TrailAt(after, TASK.taskType, WORKER) == NaN
  {
    hide Reachable, FirstScore, TrailAt, Stored, Positions;
    s := FailureKeepsLoad();
    var cands := CandList(members, TASK.memoryUsage, s.edge.counters.inflight, speed);
    var names := NamesOf(cands);
    assert names[0] == WORKER && LastFor(names, 0);
    forall after | TrailsLeft(pow, cands, factors, TASK.taskType, usesPso, before, after, false)
      ensures TrailAt(after, TASK.taskType, WORKER) == NaN
    {
      assert TrailLost(usesPso, names, TASK.taskType, before, true, 0);
    }
  }
}
