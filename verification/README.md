# Verification of the bulk-action pipeline

The bulk-action library is a work-queue protocol that any number of instances run against one Redis store. Jobs
belong to groups. A fair queue orders the groups of three priority levels; a fetcher takes jobs from it and admits
them, under a rate limit, to a bounded ready queue or to a delayed queue; dispatchers move delayed jobs on; workers
take jobs from the ready queue into an in-flight set with deadlines, execute them, record a result and acknowledge;
jobs that fail are retried or dead-lettered; orphan recovery takes overdue jobs out of flight. When the last job of
a group is acknowledged its results are aggregated and a small state machine, driven by compare-and-set and guarded
by a lock with a time to live, completes the group. A watcher picks up what was left behind.

This project models that library in Dafny and proves what the design relies on.

* `Pipeline.dfy` is the protocol as a state machine: one store, any number of actors, one step per store command,
  crashes at any point. `Programs.dfy` holds the services' own code, command by command; every await may be used by
  any other actor, and each program is shown to be a path of the machine.
* `PipelineResults`, `PipelinePlaces`, `PipelineRetries`, `PipelineOnce`, `PipelineTermination`, `PipelineDrain`,
  `PipelineBounds`, `PipelineCongestion` and `PipelineReports` prove properties of all its runs. `PipelineFair`
  adds that fair runs come to an end, `PipelineTight` that the bound on executions is exact. `PipelineStale`,
  `PipelineSerial`, `PipelineZeroLimit` and `PipelineCounterexamples` show how far the hypotheses are needed: which
  pops are harmful, which workers cannot do harm, and which configurations are safe.
* `FairQueue`, `ReliableQueue`, `RateLimiter`, `Backoff`, `Lock`, `Aggregation`, `Watcher`, `DeadLetter` and
  `CongestionStats` hold the scripts and services as classes and methods, each proved against a specification, and
  what follows from the specification. `FairRuns` and `Lifecycle` are state machines over all runs of the fair queue
  and of a group's lifecycle; `LifecycleProgress` adds that nothing leaves a group stuck. `StateMachine`, `Priority`,
  `Results`, `SortedSet` and `Base` are shared.

A few words recur. A run is *punctual* when every executing worker sends each heartbeat, or settles its job, within a
bounded delay of the heartbeat's moment, and settles it within the job timeout plus a settlement time. A pop stores
metadata that was read before, possibly for another job; it is *sparing* when a stored retry count below the orphan
limit goes with a job that has retries left, and *tagged* when a stored retry count at the orphan limit goes with the
job's own group. A *place* is where a job is: pending, in an actor's hand, ready, delayed, in flight, dead-lettered,
finished, rejected or lost with a crashed actor.

Some promises of the design depend on conditions. The conditions are proved, and where it says "if and only if" or
"exactly" they are proved exact:

* Jobs keep to one place in all punctual runs if and only if the time limits are in time: the job timeout plus the
  settlement time is below the ack timeout, or a heartbeat's interval plus delay is, and the job timeout plus the
  settlement time is below the last heartbeat plus the ack timeout (`OnePlaceExactly`). The shipped defaults, 30 s and
  40 s with a heartbeat after 18 s, leave a little under 22 s of delay
  and 28 s to settle.
* Peek and pop are separate commands, so metadata can be stale. With room for a ready job and
  orphan batches of at least one, the bound on executions and the bound on steps hold in all punctual runs if and only
  if the orphan limit is zero (`BoundedExactly`, `TerminatesExactly`); with any other limit a job can be executed any
  number of times (`NoBoundWhenStale`). Pop by pop, exactly the sparing pops keep
  the bound (`SparingExactly`).
* Under every configuration a group can be completed by another group's job (`WrongJobCompletes`). Pop by pop,
  exactly the tagged pops keep the results in order (`TaggedExactly`).
* Both promises hold in every punctual run in which dequeues do not overlap, so with a single worker (`SerialIsRight`,
  `SoleWorker`).
* A finalizer that closes within its time to live loses exactly when a holder past its own time to live has swapped
  the status away under it (`ClosingSwap`, `LateHolderWins`).
* The report a finalizer closes on covers every job counted by the last acknowledgement that completed the group, if
  every event between its reading of the status and its closing is harmless: counts no job beyond what it has read or
  stored, and replaces no stored report by one that falls short (`ReportCovers`). Event by event, exactly the harmless
  ones keep it so (`CoversExactly`). A job added meanwhile is enough for a completed group without that job in its
  report (`LateJobUncovered`).

Smaller ones: a group called "global" shares a rate-limit counter with all groups and gets half the rate (`GlobalIsSum`,
`GlobalNameHalvesShare`); after a reset of a group's statistics the average lacks the part of the earlier samples
(`AverageNearMean`); and a retention below one second keeps every snapshot instead of none (`SnapshotCongestion`).

`dafny verify dfyconfig.toml` checks the whole project.

## Model

| member | source | states |
|---|---|---|
| `Priority.ScoreBound` | libs/bulk-action/src/fair-queue/PriorityCalculator.ts:11-22 | whatever alpha's sign, no score exceeds minus the time plus the largest base plus the largest boost |
| `Priority.ProgressMovesScore` | libs/bulk-action/src/fair-queue/PriorityCalculator.ts:11-22 | among groups equal otherwise, progress raises the score for positive alpha and lowers it for negative alpha |
| `Priority.ScoreMeans` | libs/bulk-action/src/fair-queue/PriorityCalculator.ts:11-22 | a group with no job done scores base minus time; the boost times the jobs that remain is alpha times the jobs done, and alpha times all jobs but one when one or none remains |
| `FairQueue.FairQueueService.Enqueue` | libs/bulk-action/src/lua/enqueue.lua:28-54 | the enqueue script on scores, lists and group hashes leaves exactly the specified new state |
| `FairQueue.FairQueueService.Top` | libs/bulk-action/src/lua/dequeue.lua:14-19 | the head of a level is its highest score, ties by id; none exactly for an empty level |
| `FairQueue.FairQueueService.Scan` | libs/bulk-action/src/lua/dequeue.lua:13-61 | throws away job-less groups from the head of one level, and nothing else, until a group with a job heads it |
| `FairQueue.FairQueueService.DequeueLevel` | libs/bulk-action/src/lua/dequeue.lua:11-62 | one level of the scan: the job the queue must serve, or an emptied level and untouched lower levels |
| `FairQueue.FairQueueService.Dequeue` | libs/bulk-action/src/lua/dequeue.lua:8-64 | serves the top-scoring group that has a job, its oldest job: NORMAL only when no HIGH entry has a job, LOW only when no HIGH and no NORMAL entry has one, ties by id; answers null only when no listed group has one; discards exactly the groups read before |
| `FairQueue.FairQueueService.Take` | libs/bulk-action/src/lua/dequeue.lua:25-51 | takes the head of the list and re-scores the group, or removes it with its last job |
| `FairQueue.FairQueueService.Ack` | libs/bulk-action/src/lua/ack.lua:7-17 | counts one more job done and answers complete exactly if the new done count has reached the total in the hash |
| `FairQueue.ScanServes` | libs/bulk-action/src/lua/dequeue.lua:11-61 | a scan that stops at a group with a job has stopped at the group the queue must serve, with exactly the skipped entries gone |
| `FairQueue.ServesHighestFirst` | libs/bulk-action/src/lua/dequeue.lua:8-19 | the entry that must be served, by levels, scores and ids alone: HIGH before NORMAL before LOW, then the highest score, then the highest id |
| `FairRuns.DequeuedIsPrefix` | libs/bulk-action/src/fair-queue/FairQueueService.ts:71-95 | in every reachable state a group's dequeued jobs are a prefix of its enqueued jobs and the rest is pending |
| `FairRuns.DequeueComplete` | libs/bulk-action/src/fair-queue/FairQueueService.ts:71-95 | in every reachable state dequeue answers null if and only if every group's list is empty; otherwise there is a group to serve |
| `FairRuns.ServesUnique` | libs/bulk-action/src/lua/dequeue.lua:8-16 | what a dequeue serves is determined by the state |
| `FairRuns.HighestLevelFirst` | libs/bulk-action/src/fair-queue/FairQueueService.ts:71-95 | in every reachable state a job is answered at a level only if no group with a pending job is listed in a higher one; a HIGH entry with a job forces HIGH |
| `FairRuns.LastAckCompletes` | libs/bulk-action/src/lua/ack.lua:7-17 | over all runs, counted from the first enqueue of a group: the hash holds the numbers of enqueues and acknowledgements, and an acknowledgement is told complete exactly if it makes them at least as many as the enqueues |
| `FairRuns.TurnOvertakesOnce` | libs/bulk-action/src/lua/dequeue.lua:39-51 | a turn given to another group takes that group out of those ahead of an overdue waiting group, for good |
| `FairRuns.BoundedOvertaking` | libs/bulk-action/src/fair-queue/PriorityCalculator.ts:11-22 | once the clock has passed base bound plus boost bound minus score, a waiting group without new enqueues is served before its level has had as many turns as groups, for alpha of either sign |
| `SortedSet.RangeByScore` | libs/bulk-action/src/lua/move-to-ready.lua:9-13 | the due members by ascending score, ties by id, cut off at the limit; every due member left out scores at least as high as every one taken |
| `SortedSet.DueMeans` | libs/bulk-action/src/lua/recover-orphans.lua:11-12 | a due batch in terms of scores and ids alone: ascending, nothing earlier left out, cut short only when nothing due is left |
| `SortedSet.DueUnique` | libs/bulk-action/src/lua/recover-orphans.lua:11-12 | set, time and limit determine the batch, so the scripts that take one are deterministic |
| `SortedSet.DueExists` | libs/bulk-action/src/lua/recover-orphans.lua:11-12 | every sorted set has a due batch |
| `ReliableQueue.RecoverFrame` | libs/bulk-action/src/lua/recover-orphans.lua:22-79 | a batch treats every orphan by what its entry said before the batch, counts a retry for exactly those put back, and touches nothing else in flight |
| `ReliableQueue.RecoverSplits` | libs/bulk-action/src/lua/recover-orphans.lua:22-87 | every orphan goes to exactly one of ready list and dead-letter list, in order; the reported pairs are the dead-lettered ones |
| `ReliableQueue.ReliableQueueService.Pop` | libs/bulk-action/src/lua/reliable-dequeue.lua:11-37 | moves the head of the ready list into flight with deadline and the given metadata; nothing on an empty list |
| `ReliableQueue.ReliableQueueService.Dequeue` | libs/bulk-action/src/reliable-queue/ReliableQueueService.ts:28-76 | undisturbed, peek and pop store the popped job's own retry count and group |
| `ReliableQueue.ReliableQueueService.Ack` | libs/bulk-action/src/lua/reliable-ack.lua:6-14 | removes entry and metadata; answers whether the entry was there |
| `ReliableQueue.ReliableQueueService.ExtendDeadline` | libs/bulk-action/src/lua/extend-deadline.lua:7-25 | moves the deadline of an entry still in flight and of no other |
| `ReliableQueue.ReliableQueueService.RecoverEntry` | libs/bulk-action/src/lua/recover-orphans.lua:22-79 | one orphan: dead-lettered if its metadata, else its job hash, shows the retry limit, put back otherwise |
| `ReliableQueue.ReliableQueueService.RecoverOrphans` | libs/bulk-action/src/lua/recover-orphans.lua:11-87 | takes exactly the due batch, earliest deadline first and none overdue passed over for a later one, leaves the specified queues, and reports counts and pairs that agree |
| `Results.RecordCounts` | libs/bulk-action/src/lua/record-job-result.lua:8-16 | recording keeps success plus failure count equal to the list length and the failure count equal to the number of failed entries |
| `Results.FailedAt` | libs/bulk-action/src/lua/record-job-result.lua:8-16 | the failed ids are the list read at exactly the positions of its failures, in order |
| `PipelineResults.ResultsBeforeCompletion` | libs/bulk-action/src/worker-pool/WorkerPoolService.ts:126-155 | in every reachable state, crashes and late recoveries included: done count <= success + failed count = length of the result list, for every group |
| `PipelineResults.CompleteMeansAllRecorded` | libs/bulk-action/src/reliable-queue/OrphanRecoveryService.ts:120-140 | whoever is about to be told that a group is complete finds at least as many results as the group has jobs |
| `PipelineResults.SettledIsRecorded` | libs/bulk-action/src/worker-pool/WorkerPoolService.ts:126-155 | a settled job's result is the job, whether the processor succeeded and how long it took, appended under the job's own group and no other, whatever happens in between |
| `PipelineResults.ExhaustedIsRecorded` | libs/bulk-action/src/worker-pool/WorkerPoolService.ts:186-217 | a job at the retry limit gets a dead-letter entry with its group, retry count and the time, then a failed result |
| `PipelineResults.OrphanIsRecorded` | libs/bulk-action/src/reliable-queue/OrphanRecoveryService.ts:120-140 | a reported orphan gets a failed result under the reported group |
| `PipelineReports.ReportAgrees` | libs/bulk-action/src/aggregator/AggregatorService.ts:82-146 | a report over the counters of a reachable state and the list of a later one covers every job counted done; its counters count the whole list but what was recorded between the two, its failed count all listed ids but the failures among that |
| `PipelineReports.AggregateDuring` | libs/bulk-action/src/aggregator/AggregatorService.ts:82-127 | an aggregation whose page queries are spread over a run reports the counters of its beginning and the list of the state at its last query |
| `PipelineReports.RunRecords` | libs/bulk-action/src/aggregator/AggregatorService.ts:48-80 | a run appends to a group's result list exactly what it records in the group |
| `PipelineReports.ReportListsOwnJobsOnce` | libs/bulk-action/src/aggregator/DefaultAggregator.ts:34-57 | after tagged pops no failed id is listed twice and none belongs to another group, wherever the counters are from |
| `PipelinePlaces.ExactlyOnePlace` | libs/bulk-action/src/worker-pool/Worker.ts:81-143 | in every reachable state of a punctual run with limits in time, heartbeats counted, a job is submitted if and only if it occupies a position, and it occupies only one |
| `PipelinePlaces.LiveWorkersKeepJobs` | libs/bulk-action/src/reliable-queue/OrphanRecoveryService.ts:74-114 | recovery never takes a job that a live worker executes, be its deadline kept ahead by heartbeats; what a worker executes is in flight and executed by nobody else |
| `Pipeline.BeatMeans` | libs/bulk-action/src/worker-pool/Worker.ts:145-166 | the heartbeat interval is six tenths of the job timeout in whole milliseconds, and at least one |
| `PipelinePlaces.StepKeeps` | libs/bulk-action/src/worker-pool/WorkerPoolService.ts:157-217 | every step of every actor keeps the agreement of all queues, hands and final places with one ledger |
| `PipelinePlaces.DispatchHoused` | libs/bulk-action/src/lua/move-to-ready.lua:9-34 | a dispatched batch moves each member from the non-ready queue to the ready list and nothing else |
| `PipelinePlaces.RecoverHoused` | libs/bulk-action/src/lua/recover-orphans.lua:22-79 | a recovered batch moves each member from flight to the ready list or the dead-letter list and nothing else |
| `PipelineCounterexamples.OnePlaceExactly` | libs/bulk-action/src/config/BulkActionConfig.ts:98-130 | jobs keep to one place in all punctual runs if and only if the limits are in time, without heartbeats or with them |
| `PipelineCounterexamples.TwoPlacesWhenLate` | libs/bulk-action/src/worker-pool/Worker.ts:145-166 | otherwise there is a run in which a worker beats when due, recovery still takes its job, and the job is in two places |
| `PipelineRetries.ExecutionBound` | libs/bulk-action/src/worker-pool/WorkerPoolService.ts:157-184 | after sparing pops no job is handed to a worker more often than the larger of worker limit and orphan limit, plus one, whatever else metadata gets wrong |
| `PipelineTight.ExecutedExactly` | libs/bulk-action/src/worker-pool/WorkerPoolService.ts:157-184 | and the bound is exact: a run of right metadata that executes a job n times exists if and only if n is at most that |
| `PipelineRetries.StepCounted` | libs/bulk-action/src/lua/recover-orphans.lua:30-78 | every step keeps: a job not yet handed out has run as often as its counted retries, one in flight once more; retries stay within the larger limit; entries in flight stay sparing |
| `PipelineStale.SparingExactly` | libs/bulk-action/src/reliable-queue/ReliableQueueService.ts:37-63 | what a pop stores is sparing if and only if, whatever sparing pops follow, the job keeps the execution bound |
| `PipelineStale.OnceMore` | libs/bulk-action/src/lua/recover-orphans.lua:30-78 | from every state a job in flight whose entry is below the orphan limit can be executed once more, with right metadata from then on |
| `PipelineCounterexamples.NoBoundWhenStale` | libs/bulk-action/src/reliable-queue/ReliableQueueService.ts:37-63 | with an orphan limit above zero there is no bound: for every n some punctual run executes its only job n times |
| `PipelineCounterexamples.BoundedExactly` | libs/bulk-action/src/config/BulkActionConfig.ts:98-130 | the execution bound holds in all punctual runs if and only if the orphan limit is zero, in time or not |
| `PipelineCounterexamples.TerminatesExactly` | libs/bulk-action/src/config/BulkActionConfig.ts:98-130 | the bound on the steps that move jobs holds in all punctual runs if and only if the orphan limit is zero, in time or not |
| `PipelineZeroLimit.ZeroLimitBound` | libs/bulk-action/src/lua/recover-orphans.lua:30-78 | with an orphan limit of zero no job is executed more often than the limits allow, even where recovery takes jobs from under their workers |
| `PipelineZeroLimit.ZeroLimitTerminates` | libs/bulk-action/src/lua/recover-orphans.lua:30-78 | and the steps that move jobs, recoveries counted, are at most 12 (retry limit + 1) for each job |
| `PipelineOnce.OneResultPerJob` | libs/bulk-action/src/worker-pool/WorkerPoolService.ts:126-155 | after tagged pops whoever is told that a group is complete finds exactly one result for each of its jobs and no other |
| `PipelineOnce.ReachedBooks` | libs/bulk-action/src/aggregator/AggregatorService.ts:48-80 | in every state of a tagged run a group's results are about distinct jobs of the group, and its total counts its jobs |
| `PipelineOnce.StepOnce` | libs/bulk-action/src/reliable-queue/OrphanRecoveryService.ts:120-140 | every step keeps: results are about own jobs, at most one each, and nobody is about to record a second one |
| `PipelineStale.TaggedExactly` | libs/bulk-action/src/reliable-queue/ReliableQueueService.ts:37-63 | what a pop stores is tagged if and only if, whatever tagged pops follow, every group's results are about distinct jobs of its own |
| `PipelineCounterexamples.WrongJobCompletes` | libs/bulk-action/src/reliable-queue/ReliableQueueService.ts:37-63 | under every configuration some punctual run reports a group complete on another group's job alone, its own job having no result |
| `PipelineSerial.SerialIsRight` | libs/bulk-action/src/reliable-queue/ReliableQueueService.ts:28-76 | in runs with limits in time whose dequeues do not overlap, every pop stores the popped job's own current metadata |
| `PipelineSerial.SoleWorker` | libs/bulk-action/src/reliable-queue/ReliableQueueService.ts:28-76 | with a single worker the execution bound and the order of results hold in every punctual run |
| `PipelineTermination.MeasureFalls` | libs/bulk-action/src/worker-pool/WorkerPoolService.ts:157-184 | the measure over all jobs, remaining retries first and stage second, never rises without a submission and falls with every step that moves a job |
| `PipelineTermination.PipelineTerminates` | libs/bulk-action/src/worker-pool/WorkerPoolService.ts:157-184 | from any reachable state on, with sparing pops, at most 12 (retry limit + 1) steps for each job submitted so far or later move jobs |
| `PipelineTermination.RecoverWeight` | libs/bulk-action/src/lua/recover-orphans.lua:52-78 | recovery takes weight off every job of its batch |
| `PipelineDrain.SomeJobMoves` | libs/bulk-action/src/worker-pool/Worker.ts:81-143 | never stuck: while some job is outside the final places, some sparing run without new jobs and crashes moves a job |
| `PipelineDrain.PipelineDrains` | libs/bulk-action/src/worker-pool/WorkerPoolService.ts:126-217 | from every reachable state of a sparing run some run without new jobs and crashes takes every submitted job to a final place |
| `PipelineFair.FairRunsDrain` | libs/bulk-action/src/worker-pool/WorkerPoolService.ts:126-217 | every fair run drains: without new jobs, if each round moves a job when one can be served and otherwise waits for one, all jobs are in final places after a number of rounds set by the jobs and the retry limits |
| `PipelineFair.FairRoundExists` | libs/bulk-action/src/worker-pool/Worker.ts:81-143 | every reachable state of a sparing run has a fair round, without new jobs or crashes |
| `PipelineDrain.StepListed` | libs/bulk-action/src/lua/dequeue.lua:25-60 | every step keeps every group with pending jobs listed in some level |
| `PipelineBounds.ReadyQueueBound` | libs/bulk-action/src/backpressure/DispatcherService.ts:90-142 | size + dispatchers past their check x batch <= maximum + dispatchers x batch + orphans put back, in every reachable state under any interleaving |
| `PipelineBounds.ActionSize` | libs/bulk-action/src/backpressure/ReadyQueueService.ts:19-35 | how each command changes the ready queue's size: only a checked batch and recovery may exceed the maximum |
| `PipelineCongestion.CounterAgrees` | libs/bulk-action/src/congestion/CongestionControlService.ts:38-107 | wherever jobs are added to the non-ready queue only while absent from it, a group's counter is at most the number of its jobs there, and equal to it in runs without fallback, reset and release |
| `PipelineCongestion.PunctualCounterAgrees` | libs/bulk-action/src/congestion/CongestionControlService.ts:38-107 | so it is in every reachable state of a punctual run with limits in time |
| `PipelineCongestion.CounterSteps` | libs/bulk-action/src/congestion/CongestionControlService.ts:38-163 | every event's effect on a group's counter: one more for its own delayed job, the batch's and the release's numbers off but not below zero, zero after a reset of the group, nothing else |
| `PipelineCongestion.MoveCounts` | libs/bulk-action/src/lua/move-to-ready.lua:15-31 | a batch takes off one for each of its jobs of the group, at most down to zero |
| `PipelineCongestion.ClampNeverFires` | libs/bulk-action/src/lua/move-to-ready.lua:15-31 | in such runs every decrement of a moved batch finds its counter above zero |
| `PipelineCongestion.MoveAgrees` | libs/bulk-action/src/lua/move-to-ready.lua:15-31 | moving a batch keeps counter and queue in agreement |
| `Backoff.ClassifyMeans` | libs/bulk-action/src/congestion/BackoffCalculator.ts:26-50 | the levels are the ranges up to one, below three, ten and thirty times the base delay |
| `Backoff.SpeedMeans` | libs/bulk-action/src/lua/congestion-backoff.lua:12-31 | a group's share of the rate without its division: as many shares as active groups fit into the rate, one more each does not, and never less than one |
| `Backoff.DelayMeans` | libs/bulk-action/src/lua/congestion-backoff.lua:12-31 | the delay is the base plus a second for every full share of waiting jobs, and never above the cap |
| `Backoff.MoreMeansWorse` | libs/bulk-action/src/congestion/BackoffCalculator.ts:8-50 | a longer queue never means a shorter delay or a lower level |
| `Backoff.ReportedIsScheduled` | libs/bulk-action/src/congestion/BackoffCalculator.ts:8-24 | the delay the calculator reports is the delay the script scheduled |
| `Backoff.BackoffSpreads` | libs/bulk-action/src/lua/congestion-backoff.lua:12-31 | jobs of one group delayed at one instant fall due in arrival order, and below the cap at most one share of them in any second |
| `Backoff.CongestionControlService.AddToNonReady` | libs/bulk-action/src/congestion/CongestionControlService.ts:38-86 | queue and counter after the script or the fixed fallback; the reported delay is the scheduled one |
| `Backoff.CongestionControlService.ReleaseFromNonReady` | libs/bulk-action/src/lua/congestion-release.lua:4-15 | lowers the counter by the count, not below zero |
| `RateLimiter.WindowBound` | libs/bulk-action/src/backpressure/RateLimiterService.ts:27-58 | in every reachable state admissions of a window <= its global counter <= global rate |
| `RateLimiter.SpanBound` | libs/bulk-action/src/backpressure/RateLimiterService.ts:98-102 | any span of one window length admits at most twice the global rate, wherever it begins |
| `RateLimiter.WindowMeans` | libs/bulk-action/src/backpressure/RateLimiterService.ts:98-102 | a reading lies in its window and in no other: w windowMs <= now < (w + 1) windowMs |
| `RateLimiter.WindowsPass` | libs/bulk-action/src/backpressure/RateLimiterService.ts:98-102 | readings a window length apart never share a window |
| `RateLimiter.ActiveMeans` | libs/bulk-action/src/backpressure/RateLimiterService.ts:27-96 | a group shares the rate exactly if it made a request that no deactivation followed |
| `RateLimiter.FreshAdmits` | libs/bulk-action/src/backpressure/RateLimiterService.ts:27-58 | over all runs, in times: when every admission lies a window length back or more, a request is admitted at any rate of at least one; one of a group called "global" exactly if its share is at least two |
| `RateLimiter.GlobalIsSum` | libs/bulk-action/src/lua/rate-limit-check.lua:12-40 | the global counter is the sum of the group counters exactly if no request of a group called "global" was admitted in the window; each puts them apart by two |
| `RateLimiter.GuaranteedShare` | libs/bulk-action/src/lua/rate-limit-check.lua:23-40 | while k <= rate groups stay active, a request is admitted if and only if its group has used fewer than floor(rate / k) of the window |
| `RateLimiter.GlobalNameHalvesShare` | libs/bulk-action/src/key/RedisKeyBuilder.ts:49-55 | alone, a group called "global" gets n of n requests of a window through, or half the rate if that is less, at every rate |
| `RateLimiter.AnswerShows` | libs/bulk-action/src/lua/rate-limit-check.lua:23-40 | after an answer the counters keep to both limits and show an admitted request; a refused one would be refused again |
| `RateLimiter.RateLimiterService.CheckRateLimit` | libs/bulk-action/src/lua/rate-limit-check.lua:9-40 | counting first and taking back admits exactly as specified, in the window floor(now / windowMs), and leaves exactly the specified counters |
| `StateMachine.TableMeans` | libs/bulk-action/src/watcher/StateMachine.ts:9-62 | a transition is valid if and only if it leaves a state that is not terminal for FAILED or for the next state of the main line |
| `StateMachine.TableEdges` | libs/bulk-action/src/watcher/StateMachine.ts:9-62 | the valid transitions are exactly these eight edges |
| `StateMachine.LockMeans` | libs/bulk-action/src/watcher/StateMachine.ts:64-68 | the lock is required for exactly the valid edges into and out of AGGREGATING |
| `StateMachine.NextStatesAreValid` | libs/bulk-action/src/watcher/StateMachine.ts:70-78 | next states are exactly the valid targets, and exactly the terminal states have none |
| `Lock.LockExcludes` | libs/bulk-action/src/lock/DistributedLockService.ts:53-72 | of two overlapping callbacks the earlier has outlived its time to live; at most one is in time, the key is its own, and no other release takes it away |
| `Lock.LockReturns` | libs/bulk-action/src/lock/DistributedLockService.ts:18-72 | in every reachable state an attempt succeeds once a time to live has passed without an acquisition, or once the holder in time has released |
| `Lock.StaleReleaseHarmless` | libs/bulk-action/src/lua/release-lock.lua:4-13 | a release by anyone else leaves the lock of a holder in time where it is |
| `Lock.DistributedLockService.Acquire` | libs/bulk-action/src/lock/DistributedLockService.ts:18-41 | at most lockRetryCount + 1 attempts; the first that finds the key absent takes it, and failed ones change nothing |
| `Lock.DistributedLockService.TrySet` | libs/bulk-action/src/lua/acquire-lock.lua:5-12 | sets the key only if absent |
| `Lock.DistributedLockService.Release` | libs/bulk-action/src/lua/release-lock.lua:4-13 | deletes the key if and only if the token is its owner's |
| `Lifecycle.FinalizationSafety` | libs/bulk-action/src/watcher/WatcherService.ts:244-318 | in every reachable state, stale readings and expired locks included: COMPLETED implies a stored report, every actor's step changes the status along a table edge if at all, and none leaves a terminal state |
| `Lifecycle.FinalizedOnce` | libs/bulk-action/src/aggregator/AggregatorService.ts:148-211 | closings plus failings = revivals by late acknowledgements + (terminal now ? 1 : 0); true answers never exceed closings, so at most one without revivals |
| `Lifecycle.ClosingSwap` | libs/bulk-action/src/aggregator/AggregatorService.ts:149-174 | a finalizer that found AGGREGATING and closes within its time to live succeeds if and only if no holder past its own time to live swapped the status away meanwhile |
| `Lifecycle.ClosingCannotLose` | libs/bulk-action/src/watcher/WatcherService.ts:280-306 | so it always succeeds where every holder swaps in time |
| `Lifecycle.LateHolderWins` | libs/bulk-action/src/aggregator/AggregatorService.ts:157-174 | a run in which the closing swap of a holder in time loses to a late holder, for every time to live |
| `Lifecycle.ReportCovers` | libs/bulk-action/src/aggregator/AggregatorService.ts:148-174 | the report a finalizer closes on covers every job counted by the last completing acknowledgement, if only harmless events come between its reading of the status and its closing |
| `Lifecycle.CoversExactly` | libs/bulk-action/src/aggregator/AggregatorService.ts:82-174 | and exactly the harmless events keep it so: an event is harmless if and only if, whatever harmless events follow, the finalizer closes on a report that covers the jobs counted |
| `Lifecycle.LateJobUncovered` | libs/bulk-action/src/lua/ack.lua:7-17 | a second completing acknowledgement, for a job added meanwhile, and the group is completed without that job in its report, by a finalizer in time and alone |
| `Lifecycle.OutsideMoves` | libs/bulk-action/src/lua/ack.lua:7-17 | beside the programs only the first enqueue, which creates, and a completing acknowledgement, which makes it AGGREGATING from any status, move the status |
| `LifecycleProgress.CompletionReachable` | libs/bulk-action/src/aggregator/AggregatorService.ts:148-211 | from every state that is not terminal, whatever locks and callers are left behind, one actor can bring the group to COMPLETED with a report of all its results and the answer true |
| `LifecycleProgress.FailureReachable` | libs/bulk-action/src/watcher/WatcherService.ts:263-318 | and to FAILED, by one swap that counts as a failure and makes nobody answer true |
| `Aggregation.Collect` | libs/bulk-action/src/aggregator/AggregatorService.ts:99-125 | the paged loop maps once and in order every entry of the list as it stands at the last query made, appends notwithstanding |
| `Aggregation.Reduce` | libs/bulk-action/src/aggregator/DefaultAggregator.ts:34-57 | failed ids in order, floor of the mean duration, zero for none, counts from the context |
| `Aggregation.AggregateAmid` | libs/bulk-action/src/aggregator/AggregatorService.ts:82-127 | the report is over the counters read first and the list as the last query sees it |
| `Aggregation.Aggregate` | libs/bulk-action/src/aggregator/AggregatorService.ts:82-146 | on a group at rest: its counters, its failed ids in order, and the floored mean of the durations recorded in the list itself, zero for none |
| `Aggregation.ReportUnique` | libs/bulk-action/src/aggregator/DefaultAggregator.ts:34-57 | a tally leaves no choice of report |
| `Aggregation.FailedMapped` | libs/bulk-action/src/aggregator/DefaultAggregator.ts:25-32 | mapping loses no failure and keeps the order of failed ids |
| `Aggregation.DurationMapped` | libs/bulk-action/src/aggregator/DefaultAggregator.ts:25-32 | mapping loses no time: the mapped durations add up to the recorded ones |
| `Aggregation.MeanWithin` | libs/bulk-action/src/aggregator/DefaultAggregator.ts:34-57 | a report's mean lies between the shortest and the longest recorded duration |
| `Watcher.WatcherService.Swap` | libs/bulk-action/src/lua/transition-status.lua:7-26 | compare-and-set with the aggregation start written on the way into AGGREGATING |
| `Watcher.WatcherService.FinalizeGroup` | libs/bulk-action/src/aggregator/AggregatorService.ts:148-211 | without the lock, or in another state than RUNNING and AGGREGATING, nothing; otherwise the report of the whole list is stored and the group completed; answers true in exactly that case |
| `Watcher.WatcherService.CheckRunning` | libs/bulk-action/src/watcher/WatcherService.ts:175-198 | a running group is finalized if and only if all results are recorded and both locks are free |
| `Watcher.WatcherService.CheckAggregating` | libs/bulk-action/src/watcher/WatcherService.ts:200-222 | an aggregating group is finalized if and only if its aggregation is unstarted or stale and the lock free |
| `Watcher.WatcherService.ForceFail` | libs/bulk-action/src/watcher/WatcherService.ts:263-318 | a timed-out group is failed, out of AGGREGATING only with the lock |
| `Watcher.WatcherService.CheckGroup` | libs/bulk-action/src/watcher/WatcherService.ts:103-142 | one look takes the group to the specified status, drops it if terminal, and touches no other group |
| `Watcher.WatcherService.WatchCycle` | libs/bulk-action/src/watcher/WatcherService.ts:91-101 | every watched group is looked at exactly once, in any order; exactly the terminal ones are dropped |
| `Watcher.TargetMeans` | libs/bulk-action/src/watcher/WatcherService.ts:103-222 | where a look takes a group, status by status, in terms of the fields, the locks and the clock alone: timeouts, counts, start times and staleness |
| `Watcher.WatcherCompletes` | libs/bulk-action/src/watcher/WatcherService.ts:91-222 | three cycles complete any fully recorded group without timeout and store a report with its counters, total and failed ids; one in AGGREGATING needs the first cycle that finds it unstarted or stale |
| `Watcher.RescueInTwoCycles` | libs/bulk-action/src/watcher/WatcherService.ts:200-222 | a group left in AGGREGATING is completed with its report by one cycle and dropped by the next |
| `DeadLetter.WithoutCopies` | libs/bulk-action/src/reliable-queue/DeadLetterService.ts:151-167 | the rewrite keeps every copy of what it keeps and none of what it drops |
| `DeadLetter.WithoutOrder` | libs/bulk-action/src/reliable-queue/DeadLetterService.ts:151-167 | the rewrite keeps the order |
| `DeadLetter.WithoutTwice` | libs/bulk-action/src/reliable-queue/DeadLetterService.ts:126-149 | two rewrites are one filter |
| `DeadLetter.DeadLetterService.RemoveFromDLQ` | libs/bulk-action/src/reliable-queue/DeadLetterService.ts:151-167 | deleting and rewriting is one filter |
| `DeadLetter.DeadLetterService.Retry` | libs/bulk-action/src/reliable-queue/DeadLetterService.ts:41-74 | injects the job of its first entry with retries reset and drops that entry's copies; false exactly if there is none |
| `DeadLetter.DeadLetterService.RetryAll` | libs/bulk-action/src/reliable-queue/DeadLetterService.ts:76-107 | injects every entry's job in list order and empties the list |
| `DeadLetter.DeadLetterService.Purge` | libs/bulk-action/src/reliable-queue/DeadLetterService.ts:109-124 | drops the copies of the first entry for the job; false exactly if there is none |
| `DeadLetter.CleanedCopies` | libs/bulk-action/src/reliable-queue/DeadLetterService.ts:126-149 | of every entry all copies go if it failed before the cutoff, and all stay if not |
| `DeadLetter.DeadLetterService.Cleanup` | libs/bulk-action/src/reliable-queue/DeadLetterService.ts:126-149 | comes to one order-preserving filter by failure time; the count is the difference in length, duplicates included |
| `CongestionStats.AverageNearMean` | libs/bulk-action/src/congestion/CongestionStatsService.ts:24-47 | the stored average is within 0.0025 (n + 1) of the exact mean of all n samples, less the part that samples before the last reset contribute to it |
| `CongestionStats.AverageWithinSamples` | libs/bulk-action/src/congestion/CongestionStatsService.ts:24-47 | it never exceeds the largest sample since the reset, and without a reset is not below the smallest |
| `CongestionStats.CongestionStatsService.ResetGroupStats` | libs/bulk-action/src/congestion/CongestionControlService.ts:158-163 | a reset turns all samples into earlier ones and keeps the count they are averaged over |
| `CongestionStats.CongestionStatsService.RecordJobCompletion` | libs/bulk-action/src/congestion/CongestionStatsService.ts:24-47 | keeps the stored average the rounded running mean of the samples since the reset, over the count of all |
| `CongestionStats.CongestionStatsService.SnapshotCongestion` | libs/bulk-action/src/congestion/CongestionStatsService.ts:49-57 | the history is the end of all snapshots ever taken, as many as the maximum allows; a maximum of zero keeps all |
| `Programs.Node.DequeueFair` | libs/bulk-action/src/fair-queue/FairQueueService.ts:71-95 | one fetch of the machine, or its poll when nothing is pending |
| `Programs.Node.HasCapacity` | libs/bulk-action/src/backpressure/ReadyQueueService.ts:52-58 | the admission's first check: the answer, and rejection without room |
| `Programs.Node.CheckRateLimit` | libs/bulk-action/src/backpressure/BackpressureService.ts:23 | asks the limiter for the job's group and goes on as allowed or throttled; the limiter's counters show the answer |
| `Programs.Node.PushReady` | libs/bulk-action/src/lua/ready-queue-push.lua:7-12 | appends the job if and only if there is room, else it is rejected |
| `Programs.Node.AddToNonReady` | libs/bulk-action/src/congestion/CongestionControlService.ts:38-86 | the job is due after the reported delay, dynamic or fixed |
| `Programs.Node.MoveAll` | libs/bulk-action/src/lua/move-to-ready.lua:15-31 | the loop comes to the specified move of the whole batch |
| `Programs.Node.MoveBatch` | libs/bulk-action/src/lua/move-to-ready.lua:9-34 | takes the jobs that fell due first, none passed over for one that fell due later, and appends them to the ready list in this order |
| `Programs.Node.MoveToReady` | libs/bulk-action/src/lua/move-to-ready.lua:9-34 | one dispatch of the machine; answers the size of the batch |
| `Programs.Node.ReadJobMeta` | libs/bulk-action/src/reliable-queue/ReliableQueueService.ts:37-49 | reads the metadata of whatever the earlier peek saw |
| `Programs.Node.PopReliable` | libs/bulk-action/src/lua/reliable-dequeue.lua:11-37 | takes whatever heads the list now, with the metadata read before |
| `Programs.Node.LoadJob` | libs/bulk-action/src/worker-pool/Worker.ts:93-101 | a job with a hash is run with its stored retry count, one without is taken off flight, entry and metadata |
| `Programs.Node.ReliableAck` | libs/bulk-action/src/worker-pool/Worker.ts:122-139 | off flight in every case; the verdict decides what follows |
| `Programs.Node.RecordJobResult` | libs/bulk-action/src/aggregator/AggregatorService.ts:48-80 | the record script under the job's group, or the reported one for an orphan |
| `Programs.Node.AckFair` | libs/bulk-action/src/fair-queue/FairQueueService.ts:97-108 | the ack script; only a completing worker goes on to reset the statistics |
| `Programs.Node.IncrementRetries` | libs/bulk-action/src/worker-pool/WorkerPoolService.ts:159-164 | counts one retry of a job below the limit |
| `Programs.Node.AppendDead` | libs/bulk-action/src/worker-pool/WorkerPoolService.ts:187-194 | dead-letters a job at the limit |
| `Programs.Node.RecoverOrphans` | libs/bulk-action/src/reliable-queue/OrphanRecoveryService.ts:74-94 | one recovery of the machine; the pairs are what is left to record |
| `Programs.Node.FetchOne` | libs/bulk-action/src/worker-pool/FetcherService.ts:92-127 | one round of the fetch loop and its counters |
| `Programs.Node.Process` | libs/bulk-action/src/worker-pool/Worker.ts:116-139 | extensions, then off flight, then the handling of the verdict |
| `Programs.Stats.Fetched` | libs/bulk-action/src/worker-pool/FetcherService.ts:112-123 | one more in all and one more under where the job went |
| `Programs.Node.Admit` | libs/bulk-action/src/backpressure/BackpressureService.ts:16-41 | under any interference: a path of the machine that ends with the job on the ready list, in the non-ready queue, or rejected, as answered |
| `Programs.Node.FetchCycle` | libs/bulk-action/src/worker-pool/FetcherService.ts:88-139 | at most a batch is accepted, every job taken is counted once under where it went, and at most one rejection or empty poll ends the cycle |
| `Programs.Node.DispatchOnce` | libs/bulk-action/src/backpressure/DispatcherService.ts:90-142 | check then move, skipped when full and void while another dispatch runs; counters agree with what was moved |
| `Programs.Node.HandleJobComplete` | libs/bulk-action/src/worker-pool/WorkerPoolService.ts:126-155 | records first and acknowledges second, then resets the statistics of a completed group |
| `Programs.Node.HandleJobFailed` | libs/bulk-action/src/worker-pool/WorkerPoolService.ts:157-184 | below the limit a counted retry and a delay, at the limit the dead-letter path |
| `Programs.Node.HandleDeadLetter` | libs/bulk-action/src/worker-pool/WorkerPoolService.ts:186-217 | dead-letters, records the failure, acknowledges, in this order |
| `Programs.Node.ReliableDequeue` | libs/bulk-action/src/reliable-queue/ReliableQueueService.ts:28-76 | length, peek, metadata and pop as four separate steps |
| `Programs.Node.Tick` | libs/bulk-action/src/worker-pool/Worker.ts:81-143 | every tick is one of four paths; an execution leaves flight before its result is handled |
| `Programs.Node.ExecuteWithHeartbeat` | libs/bulk-action/src/worker-pool/Worker.ts:145-166 | the processor's run is deadline extensions only, no more than one for each 0.6 of the job timeout passed, and none overdue at the end |
| `Programs.Node.RunOnce` | libs/bulk-action/src/reliable-queue/OrphanRecoveryService.ts:74-114 | one recovery, then record and acknowledge for each dead-lettered job; counters agree |
| `Programs.Node.HandleDeadLetteredOrphans` | libs/bulk-action/src/reliable-queue/OrphanRecoveryService.ts:120-140 | record then acknowledge, pair by pair |

## Left out

- The `status` field of job hashes and the `priorityLevel` field of group hashes: no decision reads them.
- Encoding and failures: JSON, Redis errors in the middle of a script, reconnection, and key expiry other than the lock's and the rate counters' windows, which are taken to outlive their window.
- Identifiers are numbers whose order stands for Redis's byte order; job ids are submitted once, as the callers generate them.
- Scores, averages and ratios are exact reals or integers: floating-point rounding is not modelled.
- Pipeline: whether the rate limiter admits a request is left open in the machine, so that its theorems hold for every limiter; `Programs` asks the limiter of module `RateLimiter`.
- Pipeline: the finalize call that follows a completing acknowledgement is not a step of this machine; module `Lifecycle` is about it. A job hash's group is read where it is used; the source reads it with the job, and it never changes.
- Pipeline: the group status that the first enqueue and a completing acknowledgement write is in `Lifecycle`, as two of its outside events.
- PipelineFair.FairRunsDrain: fairness is that of the pipeline as a whole, some job of those that can be served moves in each round; it is not derived from timers of the single services. That such rounds exist needs room for at least one ready job and batches of at least one.
- Pipeline: reading the length of the ready queue before a fetch changes nothing and is no step. A job without data is taken off flight in the step that finds it missing.
- Dead-letter retries inject jobs that were acknowledged before; they are specified in module `DeadLetter` and are no step of the machine, whose theorems are about runs without them.
- Programs.Node.Await: the contract lets all other actors act; the body, which stands for them, does nothing.
- Programs.Node.Tick: the worker's start, stop and loop around it, and what a processor does after its time is up, are not modelled.
- Programs.Node.ExecuteWithHeartbeat: a heartbeat is awaited where the source lets it run beside the processor; one that fails counts as not sent. Timer intervals are taken as given, but for the minimum of one.
- Programs.Node.HandleJobComplete, HandleDeadLetter, RunOnce and HandleDeadLetteredOrphans: without the finalize call after a completing acknowledgement.
- Programs.Node.RunOnce: see HandleJobComplete.
- Programs.Node.HandleDeadLetteredOrphans: see HandleJobComplete.
- FairQueue.FairQueueService.Ack: without the status write of the script, which is the event LastAck of `Lifecycle`.
- ReliableQueue.ReliableQueueService.Dequeue: without other clients in between; `Programs.Node.ReliableDequeue` is the program with them.
- Watcher: a cycle runs by itself with the clock standing still, so an attempt to lock succeeds at once or not at all; interleavings and expiring locks are in `Lifecycle`.
- Lifecycle: one group; that a completing acknowledgement finds all jobs it counts among the results is the guard of its event, and the theorem `CompleteMeansAllRecorded` of the pipeline; the lock on watcher transitions only limits who starts a finalizer, and the machine lets anybody start one at any time.
- Lock.DistributedLockService.Acquire: nobody else touches the key between the attempts; the clock readings of the attempts are a parameter.
- Aggregation.Collect: what each page query sees is a parameter, any growing part of a final list; the map is that of the default aggregator on recorded entries, without their error texts.
- DeadLetter and CongestionStats: run sequentially; their unguarded read-modify-write cycles can race.
- PipelineTermination.PipelineTerminates: counts the steps that move jobs; polls, heartbeats and the bookkeeping after a dead letter are not counted.
- Statistics getters, group progress, congestion summaries, `parseJobFromRedis`, module wiring, controllers, telemetry and the processors themselves: they would only add easy members.
- NonReadyQueueService: its operations bypass the congestion counter and are not on the pipeline's path.
