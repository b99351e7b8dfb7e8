/** What holds in every state of every run of the job-claim protocol. */
module ProtocolTheorems {
  import opened Shared
  import opened SchedulerCounters
  import opened EdgeState
  import opened Protocol
  import opened ProtocolInvariant
  import W = WorkerState
  import EdgeSteps
  import WorkerSteps

  // ---- the invariant holds on every run ----

  lemma StepKeeps(s: System, step: Step)
    requires Inv(s) && Enabled(s, step)
    ensures Inv(Do(s, step))
  {
    hide Inv;
    match step
    case CreateJob(r, id) => EdgeSteps.CreateKeeps(s, r, id);
    case HandleClaim(req, members, best) =>
      if ReplyTo(s, req, members, best).Accepted? {
        EdgeSteps.AcceptKeeps(s, req, members, best);
      } else {
        EdgeSteps.RejectKeeps(s, req, members, best);
      }
    case StopJob(j, members) => EdgeSteps.StopKeeps(s, j, members);
    case HandleCompletion(c) => EdgeSteps.CompleteKeeps(s, c);
    case Learn => EdgeSteps.LearnKeeps(s);
    case AddNode(w) => EdgeSteps.AddKeeps(s, w);
    case RemoveNode(w) => EdgeSteps.RemoveKeeps(s, w);
    case Ask(w) => WorkerSteps.AskKeeps(s, w);
    case AnswerListing(w) => WorkerSteps.AnswerListingKeeps(s, w);
    case ReceiveListing(w) => WorkerSteps.ReceiveListingKeeps(s, w);
    case Choose(w, req) => WorkerSteps.ChooseKeeps(s, w, req);
    case ReceiveReply(w) => WorkerSteps.ReceiveKeeps(s, w);
    case GiveUp(w) => WorkerSteps.GiveUpKeeps(s, w);
    case Begin(w) => WorkerSteps.BeginKeeps(s, w);
    case FailPreparation(w) => WorkerSteps.FailPreparationKeeps(s, w);
    case Register(w) => WorkerSteps.RegisterKeeps(s, w);
    case End(w, outcome) => WorkerSteps.EndKeeps(s, w, outcome);
    case Report(w, duration) => WorkerSteps.ReportKeeps(s, w, duration);
    case Release(w) => WorkerSteps.ReleaseKeeps(s, w);
    case Cancel(w, j) => WorkerSteps.CancelKeeps(s, w, j);
    case Crash(w) => WorkerSteps.CrashKeeps(s, w);
    case DropRequest(req) => WorkerSteps.DropRequestKeeps(s, req);
    case DropReply(req) => WorkerSteps.DropReplyKeeps(s, req);
  }

  lemma InitKeeps(s: System)
    requires Init(s)
    ensures Inv(s)
  {
    assert forall w :: Owed(s.edge.history, w) == {};
  }

  lemma {:induction false} RunKeeps(b: seq<System>, i: nat)
    requires IsRun(b) && i < |b|
    ensures Inv(b[i])
  {
    hide Inv, Init, Enabled, Do;
    if i == 0 {
      InitKeeps(b[0]);
    } else {
      RunKeeps(b, i - 1);
      assert Next(b[i - 1], b[i - 1 + 1]);
      var step :| Enabled(b[i - 1], step) && b[i] == Do(b[i - 1], step);
      StepKeeps(b[i - 1], step);
    }
  }

  // ---- who touches what ----

  lemma OnlyEdgeStepsTouchTheEdge(s: System, step: Step)
    requires Enabled(s, step) && !IsEdgeStep(step)
    ensures Do(s, step).edge == s.edge
  {
    hide W.Asked, W.ListingReceived, W.NextChosen, W.ReplyReceived, W.GaveUp, W.Begun, W.PreparationFailed,
      W.Registered, W.Ended, W.Reported, W.Released, W.CancelRequested, W.CanEnd, W.CompletionOf, PendingJobs;
  }

  lemma OnlyWorkerStepsTouchWorkers(s: System, step: Step)
    requires Enabled(s, step) && !IsWorkerStep(step)
    ensures Do(s, step).workers == s.workers
  {
    hide JobAdded, ClaimApplied, JobWithdrawn, CompletionRecorded, CompletionLearned, NodeAdded, NodeRemoved, ReplyTo,
      RunningNode, FindPending;
  }

  // ---- every job is in exactly one place ----

  ghost predicate InQueue(s: System, j: JobId) { exists i :: 0 <= i < |s.edge.queue| && s.edge.queue[i].id == j }

  predicate InAnswer(s: System, j: JobId, req: W.RequestId) {
    req in s.replies && s.replies[req].Accepted? && s.replies[req].task.id == j
  }

  predicate HeldBy(s: System, j: JobId, w: NodeId) {
    w in s.workers && s.workers[w].current.Some? && s.workers[w].current.value.id == j
  }

  /** Every created job is queued once, or in one claim answer, or the current task of one worker,
      or finished, or lost, and never two of these. */
  lemma ExactlyOnePlace(b: seq<System>, i: nat, j: JobId)
    requires IsRun(b) && i < |b| && j in b[i].edge.history
    ensures var s := b[i];
      && j in s.place
      && (InQueue(s, j) <==> s.place[j] == Queued)
      && (forall req :: InAnswer(s, j, req) <==> s.place[j] == InReply(req))
      && (forall w :: HeldBy(s, j, w) <==> s.place[j] == Held(w))
      && (forall m, n ::
        0 <= m < |s.edge.queue| && 0 <= n < |s.edge.queue| && s.edge.queue[m].id == s.edge.queue[n].id ==> m == n)
  {
    RunKeeps(b, i);
    var s := b[i];
    hide IsRun;
    PlacesExact(s, j);
  }

  lemma PlacesExact(s: System, j: JobId)
    requires Inv(s) && j in s.edge.history
    ensures j in s.place
    ensures InQueue(s, j) <==> s.place[j] == Queued
    ensures forall req :: InAnswer(s, j, req) <==> s.place[j] == InReply(req)
    ensures forall w :: HeldBy(s, j, w) <==> s.place[j] == Held(w)
    ensures forall m, n ::
      0 <= m < |s.edge.queue| && 0 <= n < |s.edge.queue| && s.edge.queue[m].id == s.edge.queue[n].id ==> m == n
  {
    QueueDistinct(s);
    forall w | HeldBy(s, j, w) ensures s.place[j] == Held(w) {
      assert WorkerOk(w, s.workers[w], s.claims, s.edge.history, s.place);
    }
  }

  lemma QueueDistinct(s: System)
    requires Inv(s)
    ensures forall m, n :: 0 <= m < n < |s.edge.queue| ==> s.edge.queue[m].id != s.edge.queue[n].id
  {
    forall m, n | 0 <= m < n < |s.edge.queue| ensures s.edge.queue[m].id != s.edge.queue[n].id {
      assert s.edge.queue[m].createdAt != s.edge.queue[n].createdAt;
    }
  }

  /** No job is executed twice or by two workers, and the executing worker is the one on record. */
  lemma NeverRunTwice(b: seq<System>, i: nat, m: nat, n: nat)
    requires IsRun(b) && i < |b| && m < |b[i].runs| && n < |b[i].runs|
    requires b[i].runs[m].job == b[i].runs[n].job
    ensures m == n
    ensures var r := b[i].runs[m]; r.job in b[i].edge.history && b[i].edge.history[r.job].assignedTo == Some(r.node)
  {
    RunKeeps(b, i);
    var s := b[i];
    assert RunOk(s.runs[m], s.workers, s.place);
  }

  /** A worker that executes a task, or has finished one, has that start in the log of executions. */
  lemma EveryExecutionIsLogged(b: seq<System>, i: nat)
    requires IsRun(b) && i < |b|
    ensures forall w :: w in b[i].workers && Busy(b[i].workers[w]) ==>
      Run(w, b[i].workers[w].processor.task.id) in b[i].runs
    ensures forall j :: j in b[i].place && b[i].place[j].Done? ==> Run(b[i].place[j].node, j) in b[i].runs
  {
    RunKeeps(b, i);
    var s := b[i];
    forall w | w in s.workers && Busy(s.workers[w]) ensures Run(w, s.workers[w].processor.task.id) in s.runs {
      assert WorkerOk(w, s.workers[w], s.claims, s.edge.history, s.place);
    }
  }

  // ---- a worker's current task ----

  /** In every interleaving a worker's task is only ever cleared, never replaced by another. */
  lemma CurrentNeverOverwritten(b: seq<System>, i: nat, w: NodeId)
    requires IsRun(b) && i + 1 < |b| && w in b[i].workers && b[i].workers[w].current.Some?
    ensures w in b[i + 1].workers
    ensures b[i + 1].workers[w].current == b[i].workers[w].current || b[i + 1].workers[w].current == None
  {
    RunKeeps(b, i);
    assert Next(b[i], b[i + 1]);
    hide Inv, Init;
    var step :| Enabled(b[i], step) && b[i + 1] == Do(b[i], step);
    CurrentStep(b[i], step, w);
  }

  lemma CurrentStep(s: System, step: Step, w: NodeId)
    requires Inv(s) && Enabled(s, step) && w in s.workers && s.workers[w].current.Some?
    ensures var t := Do(s, step);
      w in t.workers && (t.workers[w].current == s.workers[w].current || t.workers[w].current == None)
  {
    hide Inv;
    if !IsWorkerStep(step) {
      hide Do, Enabled;
      OnlyWorkerStepsTouchWorkers(s, step);
    } else {
      IdlePoll(s, w);
      CurrentWorkerStep(s, step, w);
    }
  }

  lemma IdlePoll(s: System, w: NodeId)
    requires Inv(s) && w in s.workers && s.workers[w].current.Some?
    ensures s.workers[w].poll.Waiting?
  {
    WorkerSteps.WorkerFacts(s, w);
  }

  predicate IsJobLoopStep(step: Step) {
    step.Ask? || step.AnswerListing? || step.ReceiveListing? || step.Choose? || step.ReceiveReply? || step.GiveUp?
  }

  lemma CurrentWorkerStep(s: System, step: Step, w: NodeId)
    requires Enabled(s, step) && IsWorkerStep(step) && w in s.workers && s.workers[w].current.Some?
    requires !s.workers[w].poll.Claiming?
    ensures var t := Do(s, step);
      w in t.workers && (t.workers[w].current == s.workers[w].current || t.workers[w].current == None)
  {
    hide Do, Enabled;
    if IsJobLoopStep(step) {
      CurrentJobLoopStep(s, step, w);
    } else {
      CurrentOtherStep(s, step, w);
    }
  }

  lemma CurrentJobLoopStep(s: System, step: Step, w: NodeId)
    requires Enabled(s, step) && IsJobLoopStep(step) && w in s.workers && s.workers[w].current.Some?
    requires !s.workers[w].poll.Claiming?
    ensures var t := Do(s, step); w in t.workers && t.workers[w].current == s.workers[w].current
  {
    hide PendingJobs, W.Begun, W.PreparationFailed, W.Registered, W.Ended, W.Reported, W.Released, W.CancelRequested,
      W.CompletionOf, W.CanEnd, W.Fits, W.Idle;
  }

  lemma CurrentOtherStep(s: System, step: Step, w: NodeId)
    requires Enabled(s, step) && IsWorkerStep(step) && !IsJobLoopStep(step)
    requires w in s.workers && s.workers[w].current.Some?
    ensures var t := Do(s, step);
      w in t.workers && (t.workers[w].current == s.workers[w].current || t.workers[w].current == None)
  {
    hide W.CanEnd, W.CompletionOf;
  }

  /** A worker's task fits its memory limit, whatever tags the edge server has read. */
  lemma CurrentFits(b: seq<System>, i: nat, w: NodeId)
    requires IsRun(b) && i < |b| && w in b[i].workers && b[i].workers[w].current.Some?
    ensures var x, t := b[i].workers[w], b[i].workers[w].current.value;
      && t.memoryUsage <= x.limit && x.poll.Waiting?
      && t.id in b[i].edge.history && b[i].edge.history[t.id].memoryUsage == t.memoryUsage
  {
    RunKeeps(b, i);
    WorkerSteps.WorkerFacts(b[i], w);
  }

  // ---- the status of a job ----

  predicate Leads(a: TaskStatus, b: TaskStatus) {
    a == b || (a == Pending && (b == Running || b == Stopped)) || (a == Running && b.Terminal())
  }

  lemma PendingRecord(s: System, j: JobId)
    requires Inv(s) && j in s.place
    ensures j in s.edge.history && s.edge.history[j].status == StatusAt(s.place[j], j in s.delivered)
  {
  }

  lemma ClaimStatus(s: System, req: W.RequestId, members: seq<Member>, best: Option<NodeId>, j: JobId)
    requires Inv(s) && req in s.pending && req in s.claims && j in s.edge.history
    ensures var t := DoClaim(s, req, members, best);
      j in t.edge.history && Leads(s.edge.history[j].status, t.edge.history[j].status)
  {
    hide Inv, ClaimDecision, FindPending, Without, Charged;
    if ReplyTo(s, req, members, best).Accepted? {
      AcceptedWasQueued(s, req, members, best);
    }
  }

  lemma StopStatus(s: System, i: JobId, members: seq<Member>, j: JobId)
    requires Inv(s) && j in s.edge.history
    ensures var t := DoStop(s, i, members);
      j in t.edge.history && Leads(s.edge.history[j].status, t.edge.history[j].status)
  {
    hide Inv, FindPending, RunningNode, Without;
    if FindPending(s.edge.queue, i) < |s.edge.queue| {
      WithdrawnWasQueued(s, i);
    }
  }

  lemma CompleteStatus(s: System, c: CompletionEvent, j: JobId)
    requires Inv(s) && c in s.events && s.learning == None && j in s.edge.history
    ensures var t := DoComplete(s, c); j in t.edge.history && Leads(s.edge.history[j].status, t.edge.history[j].status)
  {
    EdgeSteps.DeliveredRecord(s, c);
    hide Inv;
  }

  lemma StatusStep(s: System, step: Step, j: JobId)
    requires Inv(s) && Enabled(s, step) && j in s.edge.history
    ensures var t := Do(s, step); j in t.edge.history && Leads(s.edge.history[j].status, t.edge.history[j].status)
  {
    hide Inv, Leads, DoClaim, DoStop, DoComplete;
    match step
    case HandleClaim(req, members, best) => ClaimStatus(s, req, members, best, j);
    case StopJob(i, members) => StopStatus(s, i, members, j);
    case HandleCompletion(c) => CompleteStatus(s, c, j);
    case _ => OtherStatus(s, step, j);
  }

  lemma OtherStatus(s: System, step: Step, j: JobId)
    requires Enabled(s, step) && j in s.edge.history && !step.HandleClaim? && !step.StopJob? && !step.HandleCompletion?
    ensures var t := Do(s, step); j in t.edge.history && Leads(s.edge.history[j].status, t.edge.history[j].status)
  {
    if !IsEdgeStep(step) {
      OnlyEdgeStepsTouchTheEdge(s, step);
      hide Do, Enabled;
    }
  }

  predicate Reaches(a: TaskStatus, b: TaskStatus) { a == b || a == Pending || (a == Running && b.Terminal()) }

  /** Status is a one-way machine over whole runs; a terminal status never changes, even when a
      completion event is delivered again. */
  lemma {:induction false} StatusIsOneWay(b: seq<System>, i: nat, k: nat, j: JobId)
    requires IsRun(b) && i <= k < |b| && j in b[i].edge.history
    ensures j in b[k].edge.history && Reaches(b[i].edge.history[j].status, b[k].edge.history[j].status)
    ensures b[i].edge.history[j].status.Terminal() ==> b[k].edge.history[j].status == b[i].edge.history[j].status
    decreases k
  {
    hide Inv, Init, Enabled, Do;
    if i < k {
      StatusIsOneWay(b, i, k - 1, j);
      RunKeeps(b, k - 1);
      assert Next(b[k - 1], b[k - 1 + 1]);
      var step :| Enabled(b[k - 1], step) && b[k] == Do(b[k - 1], step);
      StatusStep(b[k - 1], step, j);
    }
  }

  /** A record is pending exactly when its job is queued, and stopped only if a stop request named it. */
  lemma StatusMeaning(b: seq<System>, i: nat, j: JobId)
    requires IsRun(b) && i < |b| && j in b[i].edge.history
    ensures b[i].edge.history[j].status == Pending <==> InQueue(b[i], j)
    ensures b[i].edge.history[j].status == Stopped ==> j in b[i].stops
  {
    RunKeeps(b, i);
    hide IsRun, Inv;
    PlacesExact(b[i], j);
    PendingRecord(b[i], j);
    if b[i].edge.history[j].status == Stopped {
      StoppedWasNamed(b[i], j);
    }
  }

  lemma StoppedWasNamed(s: System, j: JobId)
    requires Inv(s) && j in s.place && s.edge.history[j].status == Stopped
    ensures j in s.stops
  {
  }

  // ---- order ----

  ghost predicate QueueMoves(e: Edge, f: Edge) {
    || f.queue == e.queue
    || (exists i :: 0 <= i < |e.queue| && f.queue == Without(e.queue, i))
    || (exists t: Task :: f.queue == e.queue + [t] && t.createdAt == f.clock)
  }

  lemma ClaimQueue(s: System, req: W.RequestId, members: seq<Member>, best: Option<NodeId>)
    requires req in s.claims
    ensures QueueMoves(s.edge, DoClaim(s, req, members, best).edge)
  {
    hide Without, Charged, FindPending;
  }

  lemma StopQueue(s: System, j: JobId, members: seq<Member>)
    ensures QueueMoves(s.edge, DoStop(s, j, members).edge)
  {
    hide Without, RunningNode;
  }

  lemma CreateQueue(e: Edge, r: JobRequest, id: JobId)
    ensures QueueMoves(e, JobAdded(e, r, id))
  {
    assert NewTask(r, id, e.clock + 1).createdAt == JobAdded(e, r, id).clock;
  }

  /** A step leaves the queue alone, takes one job out, or adds one at the end. */
  lemma QueueStep(s: System, step: Step)
    requires Inv(s) && Enabled(s, step)
    ensures QueueMoves(s.edge, Do(s, step).edge)
  {
    hide Inv, QueueMoves, Do, Enabled;
    if !IsEdgeStep(step) {
      OnlyEdgeStepsTouchTheEdge(s, step);
      SameQueue(s.edge);
    } else {
      EdgeQueueStep(s, step);
    }
  }

  lemma SameQueue(e: Edge)
    ensures QueueMoves(e, e)
  {
  }

  lemma EdgeQueueStep(s: System, step: Step)
    requires Inv(s) && Enabled(s, step) && IsEdgeStep(step)
    ensures QueueMoves(s.edge, Do(s, step).edge)
  {
    hide DoReceive, DoChoose, DoBegin, DoFinish, DoReport, DoCrash, DoDropReply, W.Asked, W.ListingReceived, W.GaveUp,
      W.Registered, W.Released, W.CancelRequested;
    match step
    case CreateJob(r, id) => CreateQueue(s.edge, r, id);
    case HandleClaim(req, members, best) => ClaimQueue(s, req, members, best);
    case StopJob(j, members) => StopQueue(s, j, members);
    case RemoveNode(w) => EdgeSteps.RemoveRequeuesNothing(s.edge, w);
    case _ =>
  }

  /** The pending list is always in order of submission. */
  lemma QueueIsFifo(b: seq<System>, i: nat, m: nat, n: nat)
    requires IsRun(b) && i < |b| && m < n < |b[i].edge.queue|
    ensures b[i].edge.queue[m].createdAt < b[i].edge.queue[n].createdAt
    ensures PendingJobs(b[i].edge.queue) == b[i].edge.queue
  {
    RunKeeps(b, i);
    WorkerSteps.ListedJobsMatch(b[i].edge.queue, b[i].edge.history, b[i].place);
  }

  /** A lost job stays lost: its record reads Running for ever. */
  lemma LostForever(b: seq<System>, i: nat, k: nat, j: JobId)
    requires IsRun(b) && i <= k < |b| && j in b[i].place && b[i].place[j].Lost?
    ensures j in b[k].place && b[k].place[j] == b[i].place[j]
    ensures j in b[k].edge.history && b[k].edge.history[j].status == Running
  {
    hide IsRun, Inv;
    LostPlace(b, i, k, j);
    RunKeeps(b, k);
    PendingRecord(b[k], j);
  }

  lemma {:induction false} LostPlace(b: seq<System>, i: nat, k: nat, j: JobId)
    requires IsRun(b) && i <= k < |b| && j in b[i].place && b[i].place[j].Lost?
    ensures j in b[k].place && b[k].place[j] == b[i].place[j]
    decreases k
  {
    hide Inv, Init, Enabled, Do;
    if i < k {
      LostPlace(b, i, k - 1, j);
      RunKeeps(b, k - 1);
      assert Next(b[k - 1], b[k - 1 + 1]);
      var step :| Enabled(b[k - 1], step) && b[k] == Do(b[k - 1], step);
      LostStep(b[k - 1], step, j);
    }
  }

  lemma LostStep(s: System, step: Step, j: JobId)
    requires Inv(s) && Enabled(s, step) && j in s.place && s.place[j].Lost?
    ensures j in Do(s, step).place && Do(s, step).place[j] == s.place[j]
  {
    hide Inv;
    if IsEdgeStep(step) {
      LostEdgeStep(s, step, j);
    } else if IsWorkerStep(step) {
      WorkerTask(s, step.node, j);
      LostWorkerStep(s, step, j);
    } else {
      AnswerNotLost(s, j);
    }
  }

  lemma AnswerNotLost(s: System, j: JobId)
    requires Inv(s) && j in s.place && s.place[j].Lost?
    ensures forall req :: req in s.replies && s.replies[req].Accepted? ==> s.replies[req].task.id != j
  {
  }

  lemma WorkerTask(s: System, w: NodeId, j: JobId)
    requires Inv(s) && w in s.workers && j in s.place && s.place[j].Lost?
    ensures Busy(s.workers[w]) ==> s.workers[w].current == Some(s.workers[w].processor.task)
    ensures s.workers[w].current.Some? ==> s.workers[w].current.value.id != j
    ensures forall req :: req in s.replies && s.replies[req].Accepted? ==> s.replies[req].task.id != j
  {
    WorkerSteps.WorkerFacts(s, w);
  }

  lemma LostWorkerStep(s: System, step: Step, j: JobId)
    requires Enabled(s, step) && IsWorkerStep(step) && j in s.place
    requires var x := s.workers[step.node];
      && (Busy(x) ==> x.current == Some(x.processor.task))
      && (x.current.Some? ==> x.current.value.id != j)
    requires forall req :: req in s.replies && s.replies[req].Accepted? ==> s.replies[req].task.id != j
    ensures j in Do(s, step).place && Do(s, step).place[j] == s.place[j]
  {
    hide PendingJobs, W.Asked, W.ListingReceived, W.NextChosen, W.ReplyReceived, W.GaveUp, W.Begun, W.PreparationFailed,
      W.Registered, W.Ended, W.Reported, W.Released, W.CancelRequested, W.CompletionOf, W.Idle, DoCreate, DoClaim,
      DoStop, DoComplete, DoLearn, DoAdd, DoRemove, DoDropReply;
  }

  lemma AcceptedWasQueued(s: System, req: W.RequestId, members: seq<Member>, best: Option<NodeId>)
    requires Inv(s) && req in s.claims && req in s.pending && ReplyTo(s, req, members, best).Accepted?
    ensures var t := ReplyTo(s, req, members, best).task;
      && t.id in s.place && s.place[t.id] == Queued
      && t.id in s.edge.history && s.edge.history[t.id].status == Pending
      && FindPending(s.edge.queue, s.claims[req].job) < |s.edge.queue|
      && s.edge.queue[FindPending(s.edge.queue, s.claims[req].job)] == t
  {
    EdgeSteps.AcceptedTask(s, req, members, best);
  }

  lemma WithdrawnWasQueued(s: System, j: JobId)
    requires Inv(s) && FindPending(s.edge.queue, j) < |s.edge.queue|
    ensures j in s.place && s.place[j] == Queued
    ensures j in s.edge.history && s.edge.history[j].status == Pending
  {
    EdgeSteps.WithdrawnTask(s, j);
    PendingRecord(s, j);
  }

  lemma LostClaim(s: System, req: W.RequestId, members: seq<Member>, best: Option<NodeId>, j: JobId)
    requires Inv(s) && req in s.pending && req in s.claims && j in s.place && s.place[j].Lost?
    ensures var t := DoClaim(s, req, members, best); j in t.place && t.place[j] == s.place[j]
  {
    hide Inv, ClaimApplied, ClaimDecision;
    if ReplyTo(s, req, members, best).Accepted? {
      AcceptedWasQueued(s, req, members, best);
    }
  }

  lemma LostStop(s: System, i: JobId, members: seq<Member>, j: JobId)
    requires Inv(s) && j in s.place && s.place[j].Lost?
    ensures var t := DoStop(s, i, members); j in t.place && t.place[j] == s.place[j]
  {
    hide Inv, JobWithdrawn, RunningNode, FindPending;
    if FindPending(s.edge.queue, i) < |s.edge.queue| {
      WithdrawnWasQueued(s, i);
    }
  }

  lemma LostEdgeStep(s: System, step: Step, j: JobId)
    requires Inv(s) && Enabled(s, step) && IsEdgeStep(step) && j in s.place && s.place[j].Lost?
    ensures j in Do(s, step).place && Do(s, step).place[j] == s.place[j]
  {
    hide Inv, DoClaim, DoStop, JobAdded, CompletionRecorded, CompletionLearned, NodeAdded, NodeRemoved;
    match step
    case HandleClaim(req, members, best) => LostClaim(s, req, members, best, j);
    case StopJob(i, members) => LostStop(s, i, members, j);
    case CreateJob(_, _) => PendingRecord(s, j);
    case _ =>
  }
}
