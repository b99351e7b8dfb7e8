# A cluster of video workers, modelled and proved

An edge server keeps a queue of jobs. Workers poll the list of available jobs, claim one over HTTP, run
it, and report its end with a Serf user event. The edge server accepts a claim only from the worker its
`TaskScheduler` proposes, by one of nine policies built from ant colonies, particle swarms and genetic
search, and finally prints an evaluation report. This project models the default build (without the
`mqtt` tag) in Dafny and proves what the pieces keep, alone and together.

## How it is laid out

| files | what they hold |
|---|---|
| Shared, EdgeState, WorkerState | tasks, records, tags; each block under the cluster lock, and each atomic access of a worker's loops, as a function of the old state |
| Protocol, ProtocolInvariant, ProtocolFrames, EdgeSteps, WorkerSteps | the claim protocol as a state machine of 23 kinds of step over one edge server, any number of workers and messages that are delayed, reordered or lost; its inductive invariant, part by part |
| ProtocolTheorems, LoadTheorems, BatchingTheorems, Report | safety over every run; the scheduler's counters against what the run really did; online counting against the offline recount; conservation in the report |
| Scenarios | short concrete runs: a job completed, stopped, lost, failed |
| ClusterManager, MilkvNode | the two objects whose methods update their fields; every method is tied to the function of EdgeState or WorkerState that the protocol is made of |
| SchedulerCounters, MapSums, Loads, Trails, Candidates, TaskScheduler | the `TaskScheduler` object: bookkeeping maps, trails, parameters, and the choice of a worker in every mode |
| Randomness, Visits, Colony, AntSearch, Genetic, Swarm, Searches | the random source, which may return anything in range, and the searches that use it |
| Floats, FloatColony, HybridScore | float64 with NaN and infinities; `acoPick` over it, equal to the colony over the reals on numbers; the score of the hybrid modes and what their calls leave of the trails |
| Sorting, RealSeqs, Gini, Percentile, Batching | the arithmetic of the evaluation |

A method that changes an object states the whole new state as a function of the old one, and again field by
field; what is promised about that function is then proved by lemmas over all runs, traces, lists or draws.
What is drawn in a call is a ghost result of it, tied to the log of the random source, and what the call returns
is stated as a function of those draws (but for `EcoTaskOpt`, whose choice does not depend on them).

## What the model takes for granted

- Job names are fresh. The code takes the clock modulo 10^8 (edge-server/main.go:854), so two jobs
  created exactly a multiple of 0.1 s apart would collide.
- Claims and creations read a strictly increasing clock under the lock (edge-server/api.go:488).
- The members list of a claim or a stop request is arbitrary: Serf tags may be stale in any way.
- Completion events may be delivered again at any time; only the exact value of a load counter is
  stated for workers none of whose success events was handled twice.
- `float64` is `real`, except in the hybrid modes, whose scores and trails are IEEE values with NaN and
  infinities. Neither rounds nor overflows. `math.Pow` and `math.Exp` are parameters of which only signs,
  powers of 0 and, for `Exp`, the bound by 1 on negative arguments are known.
- Random draws are arbitrary values of their range; every statement about a search holds for all of them.
- The factors of the hybrid score other than 1 - load and the trail are a parameter of a claim, and may
  be any floats; they are assumed finite only where a statement says so.

## What came out that the code does not say

- Inflight and failures: the load counter goes down on successes only (edge-server/main.go:291-298).
  LoadTheorems.InflightIsRunningIff gives the exact condition under which it still equals the jobs
  running, and Scenarios.FailureKeepsLoad a run in which it does not.
- The doc comment of `removeNode` says that it requeues the node's tasks. In the default build nothing
  ever fills a node record's tasks, so it requeues nothing (EdgeSteps.RemoveRequeuesNothing); a job of a
  dead worker, or one whose granted answer is lost, stays Running for ever and keeps every later report
  from showing everything done (ProtocolTheorems.LostForever, Report.LostNeverDone).
- The four hybrid modes always take the first candidate: their score multiplies a fractional power of
  1 - load, the load is at least 1, so the score is 0 or NaN, and `argmax` never leaves index 0
  (HybridScore.HybridTakesFirst, and the contract of BestWorkerForTaskLocked). No ant ever deposits
  anything (FloatColony.DullRounds).
- Stored trails are within bounds in the hybrid modes exactly under a condition that can be checked before
  the call: the first candidate's other factors being finite, all candidates' trails end within [0.1, 8] if
  and only if none that the call starts from is NaN and the first candidate has nothing in flight and a
  trail that is a number (TaskScheduling.TrailsInRangeIff; where two candidates bear one name, which Serf
  does not allow, the later one's value is kept). What becomes of each single trail is TaskScheduling.TrailsLeft,
  promised by ScheduleHybrid and BestWorkerForTaskLocked. A worker with one failed job is such a first
  candidate in the default mode, for any draws (Scenarios.FailureSpoilsTrail).
- A NaN trail makes its worker's score NaN. While the swarm is used, hybrid calls leave it NaN until the worker
  is removed; without the swarm every search starts from 2, and the worker gets a number back from the next
  call in which it is a candidate but not the first (TaskScheduling.SpoiltTrail).
- `EcoTaskOpt` always takes candidate 1 modulo the number of candidates (Searches.EcoSearch).
- `calculateFitness` ignores the individual it is given, so a tournament is won by whoever was drawn first, and
  the parameter search always takes the first individual of its last generation: fitness has no influence on
  the outcome (Genetic.BlindSelection, Genetic.FirstIsBest, Genetic.UpdateParams).
- The roulette of `acoPick` can land on an index of probability 0: exactly when the draw is 0 and index
  0 has probability 0 (Colony.RouletteLandsOnWeight).
- `claimJob` and the scheduler disagree about who may take a job. Without a proposal any alive claimant
  not tagged busy passes: one that is no worker, one without a free-memory tag, one with no memory left
  (ClusterManagement.UnfitIsGranted). The node granted a job is one the scheduler could have proposed
  exactly when there is any such member (ClusterManagement.GrantedToEligibleIff).

## Model

| member | source | states |
|---|---|---|
| ProtocolTheorems.StepKeeps | edge-server/api.go:439-518 | the invariant of the whole protocol is kept by every step of the edge server, of every loop of every worker, and by lost messages and crashes |
| ProtocolTheorems.InitKeeps | edge-server/main.go:58-70 | the invariant holds when the edge server and the workers start with nothing |
| ProtocolTheorems.RunKeeps | edge-server/api.go:439-518 | hence it holds at every moment of every run, whatever the interleaving |
| ProtocolTheorems.ExactlyOnePlace | edge-server/api.go:490-516 | at every moment each created job is in exactly one of: the queue, one granted answer under way, one worker's current task, finished, withdrawn, lost |
| ProtocolTheorems.PlacesExact | edge-server/api.go:490-516 | the recorded place is the physical one, in both directions: queue entry, answer and current task exist exactly when the place says so |
| ProtocolTheorems.QueueDistinct | edge-server/main.go:875-877 | no job name occurs twice in the queue |
| ProtocolTheorems.NeverRunTwice | milkv-node/main.go:421-537 | two executions started in one run never concern the same job, on one worker or on two |
| ProtocolTheorems.EveryExecutionIsLogged | milkv-node/main.go:433-537 | every task a processor loop is working on, and every task a worker has finished, is in the log of executions with that worker |
| ProtocolTheorems.CurrentNeverOverwritten | milkv-node/main.go:916-999 | a worker's current task is replaced only by nothing, never by another task, whichever of its loops moves |
| ProtocolTheorems.CurrentFits | milkv-node/main.go:942-953 | a current task always fits the worker's memory limit and its record shows that same memory need, even with stale tags at the edge |
| ProtocolTheorems.StatusIsOneWay | edge-server/main.go:273-289 | over any stretch of a run a status only moves pending, running, terminal; a terminal one never changes, redelivered events included |
| ProtocolTheorems.StatusMeaning | edge-server/api.go:499-516 | a record is Pending exactly when its job is queued, and Stopped only if a stop request named that job |
| ProtocolTheorems.StatusStep | edge-server/api.go:560-576 | one step moves a status along an edge of the status graph or not at all |
| ProtocolTheorems.QueueStep | edge-server/api.go:490-516 | a step leaves the queue, appends one job, or takes one job out with the rest in order |
| ProtocolTheorems.QueueIsFifo | edge-server/api.go:385-397 | the pending list is the whole queue, in the order in which the jobs were created |
| ProtocolTheorems.LostForever | edge-server/main.go:594-609 | a lost job stays lost and its record reads Running for ever: nothing requeues it |
| EdgeSteps.AcceptedTask | edge-server/api.go:441-453 | a granted claim takes a queued, unassigned, undelivered job of the name the worker asked for |
| EdgeSteps.RemoveRequeuesNothing | edge-server/main.go:594-609 | in a reachable state `removeNode` requeues no task, as node records never hold one |
| Scenarios.LossHappens | milkv-node/main.go:957-999 | a run in which the answer to a granted claim is dropped: the job is lost |
| Scenarios.CrashHappens | edge-server/main.go:594-609 | a run in which the worker dies while it works on the job: the job is lost, its record still reads running |
| Scenarios.CompletionHappens | edge-server/main.go:268-298 | a run in which a job is claimed, executed, reported and learned: Completed, load back to 0 |
| Scenarios.StopHappens | edge-server/api.go:578-610 | a run in which a job is stopped while it is executed: the request names the worker, the event cancels its context, the workload ends as stopped and the record reads so |
| Scenarios.FailureKeepsLoad | edge-server/main.go:291-298 | a run of the default mode in which a job fails: nothing is running and the load counter still reads 1 |
| SchedulerCounters.InflightClosedForm | edge-server/scheduler.go:153-207 | over every trace of calls `inflight[w]` is the largest surplus of assignments over completions among all suffixes since w was last removed |
| SchedulerCounters.InflightNonNegative | edge-server/scheduler.go:153-207 | `assigned` and `inflight` always have the same keys and 0 <= inflight <= assigned |
| SchedulerCounters.InflightExact | edge-server/scheduler.go:199-207 | when no completion outruns its assignment the clamp does nothing and the counter is the exact difference |
| LoadTheorems.InflightCountsClaims | edge-server/api.go:499-504 | in every run `inflight[w]` is the number of jobs claimed by w minus those completed and learned, for a worker never removed and with no success event handled twice |
| LoadTheorems.InflightCoversJobsOut | edge-server/api.go:499-504 | the counter is at least the number of unfinished jobs on the way to w or held by it |
| LoadTheorems.ClampNeverFires | edge-server/scheduler.go:202-207 | when a completion is learned the counter is at least 1, so the clamp at 0 never fires |
| LoadTheorems.InflightIsRunningIff | edge-server/main.go:291-298 | the counter equals the jobs recorded as running exactly when no job of w failed or was stopped after its claim; otherwise it exceeds it by their number |
| LoadTheorems.InflightOfAnyWorker | edge-server/scheduler.go:153-207 | for any worker at all, removed or not, the closed form describes the counter of a run |
| SchedulerCounters.BatchingCountsEqualPairs | edge-server/scheduler.go:185-195 | a window of ten types suffices: the online counter is the number of equal neighbours in everything ever assigned to w |
| Batching.CalculateBatchingSavings | edge-server/eval.go:117-165 | per worker the completed records sorted by assignment time, the number of equal valid neighbours, and 0.4 per pair as savings |
| Batching.CountPairs | edge-server/eval.go:148-161 | the pair loop counts exactly the neighbours of equal, valid type |
| Batching.PairsAreCounted | edge-server/eval.go:148-161 | their number is the number of positions whose type is valid and that of the position before |
| Batching.GroupByWorker | edge-server/eval.go:118-126 | every completed, assigned record is in its worker's list, the lists hold nothing else and keep the order |
| BatchingTheorems.SortOrdered | edge-server/eval.go:133-138 | the sort leaves the same records in assignment order |
| BatchingTheorems.SortByCompletion | edge-server/eval.go:133-138 | where no assignment time is known the sort goes by completion |
| BatchingTheorems.OrderedUnique | edge-server/eval.go:133-138 | two lists with the same members in strict assignment order are the same list, so the order of the history does not matter |
| BatchingTheorems.CompletedAreAssigned | edge-server/eval.go:120-146 | once all jobs of w are completed, sorting its records gives back its claims in the order they were granted |
| BatchingTheorems.OnlineEqualsOffline | edge-server/eval.go:117-165 | in mode PSO_ACO_GA, for a worker never removed all of whose jobs completed, the online counter equals the offline recount, in every run and for every order of the history |
| Report.CountJobs | edge-server/api.go:657-687 | the counting loop: created is the number of records and the sum of the four counts, each count is the tally of its status |
| Report.ReportConserves | edge-server/api.go:657-687 | in every reachable state pending counts the queue plus the jobs recorded as running, and is 0 exactly when both are empty |
| Report.LostNeverDone | edge-server/api.go:665-686 | after a job was lost no later report shows everything done |
| Report.AssignmentsAgree | edge-server/api.go:662-664 | the report's assignments of a worker never removed equal the scheduler's `assigned` counter |
| Report.QueueIsPending | edge-server/api.go:684-686 | the queue has one entry per record that is Pending |
| Gini.OnePassIsPairwise | edge-server/eval.go:101-113 | the sorted one-pass formula equals the sum of all pairwise distances divided by 2 n times the sum |
| Gini.Gini | edge-server/eval.go:96-114 | sorts its argument in place and returns the pairwise Gini coefficient of what it held |
| Gini.GiniRange | edge-server/eval.go:96-114 | for non-negative values it lies in [0, (n-1)/n] and is 0 exactly when all values are equal |
| Gini.GiniPermutation | edge-server/api.go:711-753 | it does not depend on the order of the values, hence not on Go's map order |
| Gini.GiniScale | edge-server/eval.go:96-114 | it does not change when all values are multiplied by a positive number |
| Percentile.PercentileBetween | edge-server/eval.go:76-94 | the result lies between minimum and maximum and between its two neighbours in the sorted list |
| Percentile.PercentileMonotone | edge-server/eval.go:76-94 | it never falls as p grows, across all branches |
| Percentile.PercentileInterpolates | edge-server/eval.go:86-93 | a fraction f of the way from rank k to rank k+1 it is that fraction of the way between the values |
| Percentile.LatencyPercentiles | edge-server/api.go:700-709 | the reported P50 never exceeds P95 |
| TaskScheduling.TaskScheduler.constructor | edge-server/scheduler.go:121-143 | a new scheduler has empty counters and trails, alpha 1, beta 2 and rho 0.2 |
| TaskScheduling.TaskScheduler.EnsureNode | edge-server/scheduler.go:153-169 | adds missing entries only |
| TaskScheduling.TaskScheduler.RemoveNode | edge-server/scheduler.go:171-180 | forgets the node in the three counters and in every trail, field by field, and keeps the batching counter |
| TaskScheduling.TaskScheduler.OnAssigned | edge-server/scheduler.go:182-196 | one more assigned and in flight; in the full hybrid mode the window of ten slides and an equal neighbour counts, in the eight other modes window and batching counter stay |
| TaskScheduling.TaskScheduler.OnCompleted | edge-server/scheduler.go:199-232 | one less in flight, never below 0; the last twenty durations slide in every mode but Greedy |
| TaskScheduling.CountersStayOk | edge-server/scheduler.go:153-207 | every call keeps the counters non-negative, with equal keys and windows of at most ten |
| TaskScheduling.TaskScheduler.GetPheromone | edge-server/scheduler.go:234-245 | an unknown trail is laid at 1, a known one returned as it is; a trail is a number within [0.1, 10] or NaN |
| TaskScheduling.TaskScheduler.SetPheromone | edge-server/scheduler.go:247-254 | stores any value as it is and changes exactly that trail; trails stay as they must if the value is NaN or within [0.1, 10] |
| TaskScheduling.TaskScheduler.UpdatePheromones | edge-server/scheduler.go:805-817 | stores each trail damped by the worker's usage and touches no other; a stored value is within [0.1, 8] exactly when the damped one is not NaN, and NaN otherwise |
| TaskScheduling.TaskScheduler.BatchingBonus | edge-server/scheduler.go:315-334 | a quarter per recent task of the same type up to three of them, 0.8 from four on |
| TaskScheduling.TaskScheduler.UpdateParams | edge-server/scheduler.go:489-528 | the parameters are those of the first individual of the last generation bred from its draws, with rho raised by 0.05 when the variance of the loads exceeds 0.5; they end in range from any state, and all else stays |
| TaskScheduling.TaskScheduler.ScheduleGreedy | edge-server/scheduler.go:859-866 | the first candidate with the least max(1e-6, estimate / speed) times load, written out over the candidates' fields |
| TaskScheduling.TaskScheduler.ScheduleHybrid | edge-server/scheduler.go:868-905 | the first candidate, whatever the factors, trails and draws; the ants start at exactly each trail plus 1.25 times its boost (2 without the swarm), the boosts being the swarm's for the draws made; each trail that is not lost ends as that start times (1-rho)^3 and the anti-bias, within [0.1, 8]; parameters are retuned exactly when the total assigned is a multiple of 5 and the mode has its genetic part; all draws are accounted for |
| TaskScheduling.TaskScheduler.ScheduleEco | edge-server/scheduler.go:910-1039 | always candidate 1 modulo their number; alpha and beta drift by the load variance |
| TaskScheduling.TaskScheduler.SchedulePso | edge-server/scheduler.go:1042-1092 | a candidate, the first visited of best score, the visits being those of the 12060 draws made |
| TaskScheduling.TaskScheduler.ScheduleAco | edge-server/scheduler.go:1095-1165 | a candidate, the first visited of best score; the stored trails are those of the ants within [0.1, 10] |
| TaskScheduling.TaskScheduler.ScheduleGa | edge-server/scheduler.go:1168-1207 | a candidate, the first scored of best score, among the individuals bred from the draws made |
| TaskScheduling.TaskScheduler.BestWorkerForTaskLocked | edge-server/scheduler.go:820-855 | in all nine modes and for any draws: somebody exactly when some member is alive, of type milkv, not busy and with enough free memory, and then such a member; counters unchanged; Greedy: the first of least max(1e-6, estimate / speed) times (inflight + 1), written out over members, counters and speeds; hybrid modes: the first eligible member, for every trail whether it ends NaN or in range, and what it is worth, from the swarm's boost on; PSO, GA and ACO: the best met by the search with the draws made |
| Candidates.Positions | edge-server/scheduler.go:635-662 | exactly the positions of the eligible members, in order |
| Candidates.CollectCandidates | edge-server/scheduler.go:635-662 | one candidate per eligible member, in order, with its free memory, the speed of its name, and inflight + 1 as its load, field by field |
| Candidates.GreedyMinimises | edge-server/scheduler.go:679-682 | maximising the reciprocal score is minimising max(1e-6, estimate / speed) times (inflight + 1) over all eligible members, first on ties |
| Candidates.GreedyChoiceMeans | edge-server/scheduler.go:653-682 | for Greedy's choice and any other member that is alive, of type milkv, not busy and with enough memory: the inequality itself, over tags, counters and speeds |
| Candidates.LeastLoadedWins | edge-server/scheduler.go:679-682 | among equally fast workers Greedy takes the first with the least in flight |
| Candidates.FastestWins | edge-server/scheduler.go:671-682 | among equally loaded workers Greedy takes the first of the fastest, unless the job is shorter than the floor of a microsecond |
| Candidates.ScoresPreferIdle | edge-server/scheduler.go:697-711 | of two equally fast candidates the PSO, ACO and GA scores all prefer the less loaded one |
| TaskScheduling.GreedyOverMembers | edge-server/scheduler.go:859-866 | Greedy's choice against all eligible members at once, in numbers |
| Loads.AntiBiasRange | edge-server/scheduler.go:336-349 | the factor lies in [1/3.8, 1.45] and a worker with more assignments never gets a larger one, for every map of counts |
| Loads.AntiBiasIs | edge-server/scheduler.go:336-349 | 1 when nothing was assigned; 1.45 - 1.5 times the share of all assignments up to a share of 0.3; the reciprocal of 4 times the share minus 0.2 beyond |
| Loads.ComputeAntiBias | edge-server/scheduler.go:336-349 | the loop over the map computes that factor in whatever order the map is visited |
| Loads.LoadVariance | edge-server/scheduler.go:554-572 | the sample variance of the loads, independent of map order and never negative |
| Loads.VarianceOfTwo | edge-server/scheduler.go:554-572 | of two workers it is half the squared difference of their loads |
| Loads.BiasRatio | edge-server/scheduler.go:574-589 | largest over smallest load, or the largest float when the smallest is 0 |
| MapSums.TotalUpdate | edge-server/scheduler.go:337-340 | changing one entry of a map changes its total by the same amount |
| Trails.TrailsStoredOk | edge-server/scheduler.go:247-254 | storing values that are NaN or in range keeps all trails so |
| Trails.StoredLast | edge-server/scheduler.go:805-817 | the value stored last under a worker's name is its trail |
| Trails.StoredElsewhere | edge-server/scheduler.go:805-817 | storing leaves the trails of other workers and other task types alone |
| TaskScheduling.TrailsInRangeIff | edge-server/scheduler.go:868-905 | the first candidate's other factors being finite, all candidates' trails end within [0.1, 8] if and only if none the call starts from is NaN and the first candidate is idle with a trail that is a number (or a later one bears its name) |
| TaskScheduling.SpoiltTrail | edge-server/scheduler.go:883-899 | a NaN trail stays NaN through a call that starts from the stored trails, and through any call without that candidate; a call that starts at 2 gives every candidate but the first a number in range back |
| TaskScheduling.HybridLeaves | edge-server/scheduler.go:868-905 | for any draws: a candidate's trail ends NaN exactly when it was NaN and the swarm is used, or it is the first candidate's and that score is NaN; it ends within [0.1, 8] otherwise; no other trail changes |
| Trails.DropWorker | edge-server/scheduler.go:177-179 | the loop over all task types removes exactly that worker's trails |
| Trails.WithoutForgets | edge-server/scheduler.go:177-179 | a removed worker's trails count as 1 again, and all others are as before |
| TaskScheduling.HybridWorth | edge-server/scheduler.go:868-905 | what a hybrid call makes of each trail it does not lose, in numbers: lifted by 1.25 times its boost or taken to be 2, evaporated three times, damped, and put within [0.1, 8] |
| Colony.RouletteIsProportional | edge-server/scheduler.go:438-447 | index k is chosen exactly by the draws of a half-open interval as long as its weight: selection is proportional and never falls through |
| Colony.RouletteLandsOnWeight | edge-server/scheduler.go:438-447 | the chosen index has positive weight, except for the draw 0 when index 0 has none |
| Colony.ChoiceHasProbability | edge-server/scheduler.go:422-447 | the same for the normalised probabilities of an ant, including the uniform fallback |
| Colony.ChoiceByWeights | edge-server/scheduler.go:1134-1143 | spinning raw weights with a stretched draw chooses what the normalised wheel chooses |
| Colony.AcoPickBounds | edge-server/scheduler.go:417-455 | three rounds of six ants keep (1-rho)^3 of every entry and bound the total |
| Colony.AcoPickKeeps | edge-server/scheduler.go:412-458 | over the reals, for any non-negative scores and start and any draws: each entry ends at least (1-rho)^3 of its start, the total at most (1-rho)^3 of its start plus 10.8 (q + q^2 + q^3) with q = 1-rho |
| Colony.WalkConserves | edge-server/scheduler.go:448-450 | pheromone is conserved: after any number of ants the total is what was there and what the chosen indices were left |
| Colony.RoundConserves | edge-server/scheduler.go:452-454 | evaporation keeps its share of that total |
| Colony.PickColonyIs | edge-server/scheduler.go:423-450 | an ant on index i leaves its bonus in proportion to the index's score over the best score; it is attracted by trail^alpha times score^beta |
| Colony.SearchColonyIs | edge-server/scheduler.go:1104-1153 | in `scheduleACO` an ant leaves the score over the best score, and only pheromone attracts |
| FloatColony.RoundsOfNumbers | edge-server/scheduler.go:417-455 | on non-negative numbers the search over floats is the colony over the reals, draw by draw |
| FloatColony.AcoPickOnNumbers | edge-server/scheduler.go:412-458 | so on non-negative scores and trails `acoPick` returns the first maximum of the scores and meets those two bounds, for any draws |
| FloatColony.DullRounds | edge-server/scheduler.go:417-455 | on scores that are 0 or NaN no ant leaves anything: every trail only evaporates, except that the first becomes NaN when the first score is NaN |
| FloatColony.DullStep | edge-server/scheduler.go:421-450 | as soon as a weight is NaN every ant takes index 0, and what it leaves is 0, or NaN when the first score is |
| Colony.PickColonyValid | edge-server/scheduler.go:448-450 | deposits lie in [0, 1.8] for non-negative scores |
| AntSearch.AcoPick | edge-server/scheduler.go:412-458 | over floats: returns the index of the argmax loop over the scores whatever is drawn, and exactly the trail of the eighteen draws it consumed |
| AntSearch.SpinFloats | edge-server/scheduler.go:438-447 | the cumulative loop over floats: the first index whose running total is at least the draw, 0 when it falls through |
| AntSearch.Spin | edge-server/scheduler.go:1135-1143 | the cumulative loop over the reals |
| AntSearch.Normalise | edge-server/scheduler.go:428-437 | weights divided by their total, or all equal when the total is 0 |
| AntSearch.AcoSearch | edge-server/scheduler.go:1104-1161 | 6000 draws: the first visit of best score, and the trail of those draws within [0.1, 10] |
| RealSeqs.Argmax | edge-server/scheduler.go:473-486 | the first position of the largest value, -1 for an empty list |
| RealSeqs.MaxFloat64 | edge-server/scheduler.go:460-471 | the largest value, 0 for an empty list |
| Genetic.Crossover | edge-server/scheduler.go:605-616 | the parents, or two blends of them gene by gene |
| RealSeqs.BlendBetween | edge-server/scheduler.go:610-614 | a blend lies between its values and the two blends keep their sum |
| Genetic.Mutate | edge-server/scheduler.go:618-632 | a gene is changed only when its trial is below 0.1 times what is left of the search, and is then clamped to its range; noise is drawn only for those |
| Genetic.TournamentSelect | edge-server/scheduler.go:591-603 | of two drawn members the fitter, the first drawn on a tie |
| Genetic.ChildInRange | edge-server/scheduler.go:505-513 | children of parents in range are in range, whatever is drawn |
| Genetic.NextGeneration | edge-server/scheduler.go:503-514 | every one of the thirteen slots is overwritten by a child of the current generation, and each child by the draws made for it |
| Genetic.FirstIsBest | edge-server/scheduler.go:530-552 | as fitness ignores the individual, the best of any population is the first |
| Genetic.BlindSelection | edge-server/scheduler.go:591-603 | hence a tournament is won by whoever was drawn first, and fitness has no influence on any generation |
| Genetic.ChildGene | edge-server/scheduler.go:605-632 | each gene of a child in numbers: the first drawn parents' genes, or their blend, moved by a tenth of its noise when its trial is below the rate |
| Genetic.BredAlike | edge-server/scheduler.go:500-515 | two searches with the same draws breed the same generation whatever the fitness values, as these are all equal |
| Genetic.FitnessRange | edge-server/scheduler.go:530-552 | fitness is between 1 and 100 percent of the mean recent duration |
| Genetic.PenaltyEnds | edge-server/scheduler.go:540-552 | even loads are not penalised, a bias of 2 or more as much as possible |
| Genetic.UpdateParams | edge-server/scheduler.go:489-528 | exactly the first individual of the eighteenth generation bred from the draws made, rho raised by 0.05 to at most 0.4 when the variance exceeds 0.5; alpha in [0.5, 2.5], beta in [1, 4], rho in [0.05, 0.30] |
| Swarm.PsoPrior | edge-server/scheduler.go:352-409 | for any scores and draws the boosts are exactly those of a swarm hatched, flown, crossed and mutated by these draws, and the draws are all that was taken from the random source; every index is valid and every boost in [0, 1.716] |
| Swarm.Prior | edge-server/scheduler.go:400-408 | each boost is 0.52 times a particle, times 0.68 plus 0.64 times a second draw when its gate is below 0.18 |
| Swarm.ParticleHatches | edge-server/scheduler.go:362-366 | a particle starts at twice its first draw, with half its second draw minus 0.25 as velocity, and the least float as bests |
| Swarm.ParticleSees | edge-server/scheduler.go:368-377 | each of the 4 to 10 flights first takes in the score at the particle's index: in its own best, and in the swarm's, which is one of the scores seen |
| Swarm.ParticleMoves | edge-server/scheduler.go:378-387 | it then takes half its velocity plus twice each draw times the distance to the two bests, and moves by it within [0, 2] |
| Swarm.ParticleIndex | edge-server/scheduler.go:369 | the candidate at x times the last index, counted from the first again beyond the last |
| Swarm.ChildrenAre | edge-server/scheduler.go:605-632 | a pair stays as it is when its gate is above 0.8 and is blended otherwise; a trial below 0.05 moves a child by a tenth of its noise, within [0.5, 2.5] |
| Swarm.CrossedAre | edge-server/scheduler.go:389-399 | neighbours are crossed with each other, and an odd particle at the end with none |
| Swarm.Drift | edge-server/scheduler.go:378-387 | a particle that nothing pulls halves its velocity in each flight |
| Swarm.PriorOfDrift | edge-server/scheduler.go:352-409 | and, neither crossed nor mutated, boosts its candidates by 0.52 of where it hatched plus what is left of its first velocity |
| Swarm.LookAround | edge-server/scheduler.go:368-377 | each personal best is the larger of itself and the score seen, and the global best the largest of itself and all scores seen |
| Swarm.Fly | edge-server/scheduler.go:378-387 | every particle moves by its new velocity, for which two numbers are drawn, and is kept within [0, 2] |
| Swarm.CrossAll | edge-server/scheduler.go:389-399 | pairs are crossed and mutated, an odd one out is left alone |
| Swarm.ChildrenRange | edge-server/scheduler.go:391-397 | two particles of [0, 2] have children in [0, 2.5] |
| Swarm.BoostRange | edge-server/scheduler.go:402-406 | a particle of [0, 2.5] gives a boost in [0, 1.716], between 0.68 and 1.32 times 0.52 of the particle, and 0 only if the particle is at 0 |
| Searches.PsoSearch | edge-server/scheduler.go:1055-1090 | 6030 visits: the first index of best score, 0 if none scored above the least float; the visits are exactly those of the draws made |
| Searches.FlownStep | edge-server/scheduler.go:1073-1087 | the particles take turns, each moves on and has the candidate where it lands visited |
| Searches.Moved | edge-server/scheduler.go:1074-1084 | the new velocity is 0.7 of the old plus 1.4 times each draw times the distance to the two bests, and the own best follows |
| Searches.LandedWraps | edge-server/scheduler.go:1064 | positions a whole list apart, or mirrored at 0, stand for the same candidate |
| Searches.FlyOn | edge-server/scheduler.go:1074-1087 | one particle takes its new velocity from two draws and moves by it; its best and the swarm's best follow exactly |
| Searches.GaSearch | edge-server/scheduler.go:1177-1206 | the first index of best score among the first individual and all 8000 children, each of which is the parent or the fresh index that was drawn for it |
| Searches.Brood | edge-server/scheduler.go:1186-1197 | a child is a fresh index when its mutation draw is below 0.1, else the first parent when its coin is below 0.5, else the second |
| Searches.GenerationStep | edge-server/scheduler.go:1185-1205 | the children of one generation are the parents of the next, and all of them are scored |
| Searches.EcoSearch | edge-server/scheduler.go:972-1036 | the index is 1 modulo the number of candidates for any scores and draws |
| Searches.SigmoidRounds | edge-server/scheduler.go:1035-1036 | from 0 on, the sigmoid rounds to 1 |
| Visits.BestSoFarStep | edge-server/scheduler.go:1083-1086 | a later visit replaces the best only if strictly better |
| HybridScore.ScoreIsDull | edge-server/scheduler.go:756-802 | the hybrid score of a candidate is 0 or NaN whatever its other factors, and NaN when it has anything in flight or a NaN trail |
| HybridScore.ScoreIsNaNIff | edge-server/scheduler.go:756-802 | with finite other factors it is NaN exactly when the candidate has something in flight or its trail is NaN |
| HybridScore.HybridTakesFirst | edge-server/scheduler.go:868-905 | hence every hybrid mode takes the first candidate |
| Floats.FloatArgmax | edge-server/scheduler.go:473-486 | the argmax loop when values may be NaN |
| Floats.FloatMax | edge-server/scheduler.go:460-471 | `maxFloat64` when values may be NaN: the value at the index of the argmax loop |
| HybridScore.StoredValue | edge-server/scheduler.go:805-817 | the value a hybrid call stores for a candidate: its start evaporated three times, damped and within [0.1, 8], exactly when that start is not NaN and it is not the first candidate with a NaN score; NaN otherwise |
| HybridScore.StoredIs | edge-server/scheduler.go:805-817 | in numbers: the start times (1-rho)^3 times the anti-bias, within [0.1, 8] |
| HybridScore.BoundedInRange | edge-server/scheduler.go:809-815 | the two tests let NaN through, and nothing else that is out of range |
| HybridScore.PriorComparison | edge-server/scheduler.go:368-377 | to the comparisons of `psoPrior` a NaN score is what the least float is |
| Scenarios.FailureSpoilsTrail | edge-server/scheduler.go:868-905 | a reachable state of the default mode, after one failed job, in which the worker is eligible for another and any hybrid call whose first eligible member it is leaves NaN as its trail, whoever the other members are |
| ClusterManagement.ClusterManager.AddJob | edge-server/main.go:835-900 | appends one pending job and its record, field by field; a positive memory request overrides the default |
| Shared.MemoryNeed | edge-server/main.go:846-852 | the recorded need is at least 1 and a positive request rounded half up, or else the default |
| ClusterManagement.ClusterManager.GetAvailableJobs | edge-server/api.go:385-397 | the pending jobs of the queue and no others, in order |
| ClusterManagement.ClusterManager.ClaimJob | edge-server/api.go:400-518 | granted if and only if the first alive member of that name is not tagged busy, a pending job of that name is queued, the memory shown (free memory, the limit where that tag is missing, 0 where it is no number) is not positive or covers the need, and the proposal is nobody or the claimant; not found exactly when there is no such member, or it is not busy and there is no such job; else a conflict. A refused claim changes no queue entry, record or counter; a granted one removes exactly that job, charges the node and marks the record running; the proposal is what the scheduler chose for its mode, or nobody |
| EdgeState.ClaimReplies | edge-server/api.go:418-487 | the same conditions for the reply as the protocol uses it |
| EdgeState.ClaimGranted | edge-server/api.go:488-516 | what a granted claim does to queue, record, clock and load counters, field by field |
| ClusterManagement.GrantedToEligibleIff | edge-server/api.go:462-487 | for every granted claim: the claimant is a member the scheduler could have proposed if and only if there is such a member at all |
| ClusterManagement.UnfitIsGranted | edge-server/api.go:418-487 | a member that is no worker, one without a free-memory tag and one with no free memory, each alone in the cluster, is granted a job the scheduler would never propose it |
| ClusterManagement.ClusterManager.StopJob | edge-server/api.go:545-610 | withdraws a queued job, or else names the first member that is alive, not the edge server and advertises the job; nobody exactly when there is none |
| EdgeState.RunningNodeIs | edge-server/api.go:597-605 | the first alive member other than the edge server that advertises the job, none exactly when there is none |
| ClusterManagement.ClusterManager.RecordCompletion | edge-server/main.go:273-289 | the record takes status, time and duration of the report; an unassigned record, and no other, takes the reporter; an unknown job changes nothing |
| ClusterManagement.ClusterManager.LearnCompletion | edge-server/main.go:291-298 | only a success teaches the scheduler, and takes one off the node's load unless that is 0 |
| ClusterManagement.ClusterManager.AddNode | edge-server/main.go:572-591 | a fresh node record; the scheduler's counters get missing entries only |
| ClusterManagement.ClusterManager.RemoveNode | edge-server/main.go:594-609 | requeues what the node record holds and forgets the node |
| EdgeState.FindPending | edge-server/api.go:443-450 | the first pending job of that name |
| EdgeState.FindAlive | edge-server/api.go:418-425 | the first alive member of that name |
| MilkvNodes.MilkvNode.CheckForAvailableJobs | milkv-node/main.go:916-938 | only an idle worker asks for the listing |
| MilkvNodes.MilkvNode.ReceiveListing | milkv-node/main.go:936-945 | takes the decoded jobs; the room is the limit less what the current task needs, which is all of the limit, as no task can be current |
| MilkvNodes.MilkvNode.ClaimNext | milkv-node/main.go:947-953 | skips exactly the jobs that do not fit and claims the first that does |
| MilkvNodes.MilkvNode.ReceiveClaim | milkv-node/main.go:976-999 | a granted task becomes current as it comes and overwrites none; a refusal goes on with the listing |
| MilkvNodes.MilkvNode.GiveUp | milkv-node/main.go:969-975 | a failed request abandons the listing or the claim and changes nothing else |
| MilkvNodes.MilkvNode.BeginTask | milkv-node/main.go:421-437 | starts exactly when there is a current task |
| MilkvNodes.MilkvNode.FailPreparation | milkv-node/main.go:449-460 | the task worked on ends as failed before a cancel handle exists, and it is the one cleared |
| MilkvNodes.MilkvNode.RegisterCancel | milkv-node/main.go:478-487 | registers a fresh cancel handle for the task, and the workload starts |
| MilkvNodes.MilkvNode.FinalizeTask | milkv-node/main.go:783-838 | clears the current task, which is the one worked on, before anything is reported; stopped only after a cancel |
| MilkvNodes.MilkvNode.SendTaskCompletion | milkv-node/main.go:876-903 | reports the task it worked on, not what is current now |
| MilkvNodes.MilkvNode.ReleaseCancel | milkv-node/main.go:486-493 | drops the handle only if it is still its own |
| MilkvNodes.MilkvNode.HandleCancel | milkv-node/main.go:280-312 | the context is cancelled if and only if it already was, or the event names this node or none and the task whose cancel handle is registered; while a workload runs, exactly by an event that names its task |
| MilkvNodes.MilkvNode.UpdateMemoryTags | milkv-node/main.go:1079-1147 | busy exactly while a task is current; the limit less its need when a limit is configured, else what the machine reports, less the need when that does not show in it |

## Left out

- MQTT (edge-server/mqtt.go, milkv-node/mqtt.go) is not in the default build and is not part of this model.
- HTTP, JSON, WebSocket, mDNS, Serf itself, the go2rtc proxy and the dashboard: only the messages they carry are modelled, and `getClusterState`, which only feeds the dashboard, is not.
- Files, external binaries, cgroup and /proc parsing, log rotation: a workload just ends as completed, failed or, after a cancel, stopped. File preparation can only fail or not.
- Fields that no modelled decision reads: names, paths, complexity, scheduler score, node speed of a record, `StartedAt`, `IdleSince`, decision latencies, `perf` averages and `affinity`, which only feed scores.
- The tuned formulas of `EcoTaskOptScore`, `GPTORScore`, `ACOGAScore`: nothing calls them or promises anything of them.
- Quality of what PSO, ACO or GA find, fairness and timing: the code guarantees none.
- `getEvalReport` in eval.go and the metrics snapshots repeat the aggregation of the API version.
- The report reads shared records after releasing the lock; the model counts one consistent snapshot.
- Makespan, throughput and energy sums of the report: plain sums with no stated property.
- Node names are numbers and task types integers; parsing of `SCHEDULER_MODE` and of worker labels is left out, and the fixed speed of a worker is a positive function of its name.
- Reading cgroup and /proc: what a worker without a configured limit reads of its machine is a parameter of `UpdateMemoryTags`.
- TaskScheduling.TaskScheduler.ScheduleEco: leaves out the ant phase, whose trail is local and never read again.
- TaskScheduling.TaskScheduler.ScheduleAco: its uniform fallback for an empty trail is not written out, because the trail is proved never to be empty.
- TaskScheduling.TaskScheduler.UpdateParams: computes load variance and bias once, as nothing changes them during the search.
- TaskScheduling.TaskScheduler.BestWorkerForTaskLocked: an unknown mode cannot occur in the model's mode type.
- TaskScheduling.TaskScheduler.GetPheromone: promises a number in range or NaN, because the code can store NaN; when it does is stated by ScheduleHybrid.
- Swarm.PsoPrior: takes real scores, a NaN being replaced by the least float as HybridScore.PriorComparison justifies, and does not overflow; the global random source it uses besides its own is the same one here.
- Searches.EcoSearch: takes the best score seen so far as absent instead of positive infinity.
- Searches.PsoSearch: positions are unbounded reals, so the overflow of Go's conversion to int is not modelled.
- Batching.CalculateBatchingSavings: lists records instead of the printed identifiers, and sorts stably where `sort.Slice` may reorder ties; assignment times never tie.
- ClusterManagement.ClusterManager.ClaimJob: the request body is already decoded, and the name of the best worker is reported as a ghost result.
- Local slices of the searches are sequences that the loops reassign; the in-place sort of Gini is on an array.
