# Verified model of the parallel runtime

Dafny 4.11 models of the parts of the repository that coordinate work, with the properties they
are meant to have, proved for every input and every interleaving. `dafny verify dfyconfig.toml`
checks everything.

## What is modelled

**The scheduler.** `JobTable` holds the durable `jobs` table, one function per SQL statement with
the same WHERE clause and the same assigned columns. `JobHistories` proves what every sequence of
those statements keeps. `ReadyQueue` is the dispatcher's ready map and cyclic tenant order;
`Dispatcher` and `JobStore` are the two classes with their fields, methods and loops, each method
proved against those functions. `Scheduler` is the whole durable object as a state machine: one step
per stretch of code between two awaits, the dispatch loop with a program counter of its own, calls,
continuations, run ends, retry timers, alarms and crashes in any order. `SchedulerFrames` says what
each step leaves alone, `SchedulerContinuations` what cancellations do and how alarms
and runs end, `SchedulerShape` holds the structural invariant. `SchedulerHistory` shows that every
step changes the table only by a history of guarded statements, and `SchedulerRuns` lifts
that to whole runs: what `JobHistories` proves of histories holds of every run.
`SchedulerDurability`, `SchedulerRecovery`, `SchedulerProgress` and `SchedulerStall` prove
durability, recovery after crashes, bounds and wakeups; `SchedulerOverlap`, `SchedulerLeases`,
`SchedulerCopies` and `SchedulerExcess` find out when the limits bound the runs that are really in
progress; `SchedulerReachable` states all of it from the first state on. `FairQueueing` is about the
order in which tenants are served. `Collections` and `Powers` hold facts about sequences, sets and
powers of two.

**Topology and tree dispatch.** `Topology` selects and builds plans. `TreeDispatch` carries them
out: root coordinator, recursive sub-coordinators, leaves, slicing, global slots, retries, error
fill-in and flattening, with every RPC and every run decided by an environment that is quantified
over. `TreeSoundness` proves that the distributed fan-out means a sequential map, `TreeMeaning` that
its results are those given by rules that mention no dispatcher, and `TreeRetries` that the bound on
runs is exact. `TreeRoutes` reads the way of every job off the paths of the
events and `TreePartition` compares it with the plan; `TreeWidths` counts leaf calls in the
events, and `LeafNames` shows that two runs share a leaf exactly if they run the same job.

**Combinators.** `Tournament` (three implementations of `reduce`, chunking for `scatter` and
`pmap`), `FanOut` (the shared-cursor worker pool and the answer for each `onError` mode),
`FanOutOrder` (when that answer depends on the order in which runs end), `Streams` (`mapStream` and
`drain`) and `LoaderSemaphore` (direct hand-off of permits).

**Encoders.** `WireErrors` and `WireRecords` (library errors to wire records and back), `CanonicalContext`,
`ContextKeys`, `CanonicalText` and `NumberText` (which contexts are accepted, and their canonical
text), `SourceHash` (the 32-bit hash). `JsonReader` is a reader after RFC 8259; `JsonRoundTrip` and
`ContextRoundTrip` prove that it reads the printed texts back, and `WellFormedText` says what the
texts look like where the grammar leaves a choice.

## What the proofs found

- The "linear" backoff does not grow: the factor is 1 for every curve but the exponential one,
  while `src/api/options.ts:335` says it adds. `RetryDelayNeverShrinks` states the real shape.
- A wakeup can be lost in exactly one way: an enqueue runs the first rebuild after a restart and
  is then rejected (`StepKeepsWakeupIff`), because the queue is full or because it carries the empty
  idempotency key and some row has it already: the UNIQUE column keeps that key like any other,
  but the test after a violation takes it for none (`do-storage.ts:134-143`). Whatever the depth
  of the queue, a run without such a rejection loses none (`WakeupsAreKept`), and with the default
  unbounded queue there is none unless somebody enqueues under the empty key
  (`UnboundedQueueKeepsWakeups`). `RestartKeepsWakeupIff` has the exact condition after a
  restart. If the queue is full (`RestartStallsIff`), the scheduler then stands still until an
  alarm or a cancellation (`EnqueuesCannotUnstall`).
- A rebuild finds every queued job if and only if there are at most 10,000
  (`RebuildFindsEveryJobIff`).
- A job with a deadline that is not positive is neither failed nor claimed
  (`ChosenJobIsHandledIff`).
- A retry without delay starts while its predecessor has not settled, so the running map can lose
  the entry of a live run (`ImmediateRetryHidesALiveRun`). The in-flight limit bounds live runs in
  all runs from the start if and only if there is one slot at most, in all or for each tenant, or
  nothing is ever admitted (`LimitHoldsIff`); so does the cap of each tenant
  (`TenantLimitHoldsIff`). In every other configuration there is no bound at all: job after job of
  one tenant can be hidden in this way (`ExcessIsUnbounded`, `SomeBoundHoldsIff`). For every
  configuration the limits do bound them as long as no lease expires under its run and no job is
  claimed before its last run has settled (`LiveRunsStayBounded`); `ClaimOverlapsIff` gives the
  condition for one claim, and `DelayedRetryWaits` says what keeps a job from being claimed too
  early.
- The fan-out cap "each tier under maxFanOut" (`README.md:55`) is kept, when nothing fails,
  exactly up to `branchingFactor * maxFanOut` jobs; beyond that some bottom sub-coordinator
  calls more leaves, up to `branchingFactor * maxFanOut` (`WithinMaxFanOutIff`). The tree path
  runs every job without `freshIsolate` (`FanOutIsSound`).
- `errorToWire` then `wireToError` turns a `QueueFullError` and a bare `ParallelError` into an
  `ExecutionError`, and a `CancelledError` without a reason into one cancelled for "Cancelled";
  `TripIsIdentityIff` and `TripKeepsMessageIff` give the exact conditions. A cause without a
  stack acquires one on its second trip (`SecondTripIsIdentityIff`).
- `canonicalizeContext` rejects an object that is shared, not only a circular one, because `seen`
  never shrinks, and it looks at the names of the outermost keys only (`AcceptedIff`). Every value
  of a context that it accepts can also be embedded by itself (`AcceptedContextsEmbed`).
- Under `throw-fast` the answer depends on the order in which runs end, unless there is one
  worker, or every worker fails at its first index, or no index is left to be claimed once the
  lowest failure can have ended, or nothing fails (`AnswerIsFixedIff`).

## Model

| member | source | states |
|---|---|---|
| `JobHistories.TerminalRowsAreFinal` | src/scheduler/stores/do-storage.ts:207-291 | after any history a terminal row is unchanged or was swept after its result TTL; no claim, ack, fail or second ending of it is ever accepted |
| `JobHistories.JobsEndAtMostOnce` | src/scheduler/stores/do-storage.ts:207-291 | over any history a job ends at most once and at most one ack is accepted |
| `JobHistories.AckedResultIsServed` | src/scheduler/stores/do-storage.ts:300-333 | an accepted ack's value is what `result` returns until its expiry, whatever is tried meanwhile |
| `JobHistories.LeaseExcludesOtherClaims` | src/scheduler/stores/do-storage.ts:147-205 | before a lease expires no other claim returns the job unless its owner's fail re-queued it |
| `JobHistories.StaleOwnersChangeNothing` | src/scheduler/stores/do-storage.ts:207-256 | acks and fails of a worker that does not hold the lease can be removed from any history without changing the table |
| `JobHistories.LiveRowsHaveAttemptsLeft` | src/scheduler/stores/do-storage.ts:232-256 | every live row has attempts left after any history |
| `JobHistories.RetriesAreBounded` | src/scheduler/stores/do-storage.ts:232-256 | at most max(1, retryMax) accepted fails and one fewer re-queue per job, and the counter of a live row counts them exactly |
| `JobHistories.KeysStayDifferent` | src/scheduler/stores/do-storage.ts:59-145 | over any history no two rows have the same idempotency key |
| `JobHistories.RowsStayConsistent` | src/scheduler/stores/do-storage.ts:106-365 | over any history a queued row has no lease and a leased row has one, a done row has its value and its expiry, a failed row its error, and no other row has a value |
| `JobHistories.AnswersAreWhole` | src/scheduler/stores/do-storage.ts:300-333 | so `result` never answers a value or an error that is not there |
| `JobHistories.AckedResultIsRefused` | src/scheduler/stores/do-storage.ts:300-333 | after its expiry, unless that is zero, an acked value is never answered again, whatever is tried |
| `JobTable.CancelAllRows` | src/scheduler/scheduler-do.ts:109-118 | cancelling a list of ids in order cancels exactly the cancellable ones among them |
| `JobTable.RetryDelayNeverShrinks` | src/scheduler/dispatcher.ts:262-264 | delays never decrease with the retry count and stay under the cap; only the exponential curve grows |
| `JobTable.RetryDelayDoubles` | src/scheduler/dispatcher.ts:262-264 | the first delay is the base, each further one twice the one before up to 60 seconds, or the same for every curve but the exponential one |
| `JobTable.ResultIsServedIff` | src/scheduler/stores/do-storage.ts:300-333 | a done row answers its value, or that it is gone exactly when an expiry other than zero is set and has passed |
| `JobStore.DoStorageJobStore.Insert` | src/scheduler/stores/do-storage.ts:106-145 | inserts exactly when the id is new and no row has the key; a collision is swallowed exactly when the job has a key that is not the empty text, and is thrown otherwise; the inserted row is queued, nothing else changes |
| `JobStore.DoStorageJobStore.Lease` | src/scheduler/stores/do-storage.ts:147-205 | claims by id exactly when queued or lease expired and before the deadline, or without an id the first `max` claimable rows, queued ones first and each group oldest first; leases those rows and no others |
| `JobStore.SelectionIsInLine` | src/scheduler/stores/do-storage.ts:164-175 | the order of claims without an id said of any two rows: queued before leased, and older before younger of the same status |
| `JobStore.DoStorageJobStore.Acknowledge` | src/scheduler/stores/do-storage.ts:207-230 | accepted only from the lease holder; then the row is done, `result` answers the value up to its expiry, and no other row changes; refused, nothing changes |
| `JobStore.DoStorageJobStore.ReportFailure` | src/scheduler/stores/do-storage.ts:232-256 | accepted only from the lease holder; counts the retry, frees the lease, re-queues while retries are left and otherwise fails with the error; returns the new status, or `leased` and no change |
| `JobStore.DoStorageJobStore.FailBeforeClaim` | src/scheduler/stores/do-storage.ts:258-277 | fails a row with the error exactly when it is queued, and changes no other |
| `JobStore.DoStorageJobStore.CancelJob` | src/scheduler/stores/do-storage.ts:279-291 | cancels a row exactly when it is queued or leased, and changes no other |
| `JobStore.DoStorageJobStore.Sweep` | src/scheduler/stores/do-storage.ts:344-352 | deletes exactly the done rows past their TTL and counts them |
| `JobStore.DoStorageJobStore.Reclaim` | src/scheduler/stores/do-storage.ts:354-365 | re-queues exactly the rows with an expired lease and returns their number |
| `JobStore.DoStorageJobStore.Peek` | src/scheduler/stores/do-storage.ts:335-342 | the oldest queued rows, of one tenant if asked for, up to the limit, each once |
| `JobStore.DoStorageJobStore.ListActiveByTenant` | src/scheduler/stores/do-storage.ts:367-375 | lists exactly the queued and leased jobs of a tenant, each once, oldest first |
| `JobStore.SchedulerObject.CancelOne` | src/scheduler/scheduler-do.ts:103-107 | cancels the row and drops the job from the ready set exactly when the row was cancelled |
| `JobStore.SchedulerObject.CancelByTenant` | src/scheduler/scheduler-do.ts:109-118 | cancels and counts every active job of the tenant, changes no other row, drops its bucket |
| `DispatcherClass.Dispatcher.TotalReady` | src/scheduler/dispatcher.ts:158-162 | the number of jobs in all buckets |
| `DispatcherClass.Dispatcher.HasRoom` | src/scheduler/dispatcher.ts:118-122 | false exactly when the ready set has reached `maxQueueDepth` |
| `DispatcherClass.Dispatcher.EnqueueReady` | src/scheduler/dispatcher.ts:291-299 | appends to the tenant's bucket, and the tenant to the order if it had none |
| `DispatcherClass.Dispatcher.RemoveTenantEntry` | src/scheduler/dispatcher.ts:330-334 | takes the bucket and the place in the order away together |
| `DispatcherClass.Dispatcher.ClearTenant` | src/scheduler/dispatcher.ts:146-148 | drops one bucket and nothing else |
| `DispatcherClass.Dispatcher.DropFromReady` | src/scheduler/dispatcher.ts:134-143 | removes one entry of the job, and an emptied tenant with it |
| `DispatcherClass.Dispatcher.TakeNextReady` | src/scheduler/dispatcher.ts:306-328 | the rotate-and-splice loop returns the head of the first tenant under its cap and rotates the order past it |
| `DispatcherClass.Dispatcher.DispatchStretch` | src/scheduler/dispatcher.ts:191-219 | one stretch of the loop: stop, or take a job and expire or claim it |
| `DispatcherClass.Dispatcher.Kick` | src/scheduler/dispatcher.ts:129-131 | starts the loop unless it runs |
| `DispatcherClass.Dispatcher.SettleRun` | src/scheduler/dispatcher.ts:225-231 | removes the run and re-enters the loop when there is work and a slot |
| `ReadyQueue.TakeWf` | src/scheduler/dispatcher.ts:306-328 | the order stays a duplicate-free listing of exactly the tenants with jobs, and what is taken comes from a tenant under its cap |
| `ReadyQueue.DropWf` | src/scheduler/dispatcher.ts:134-143 | dropping keeps that listing exact |
| `ReadyQueue.PushAllWf` | src/scheduler/dispatcher.ts:151-156 | so does the rebuild loop |
| `FairQueueing.BypassIsBounded` | src/scheduler/dispatcher.ts:306-328 | a tenant that stays ready and under its cap is overtaken at most as often as its position in the order, whatever is enqueued, dropped or cleared meanwhile |
| `FairQueueing.BucketsAreFifo` | src/scheduler/dispatcher.ts:291-328 | a tenant's jobs leave in the order they came, none lost, none twice |
| `SchedulerHistory.StepIsHistory` | src/scheduler/dispatcher.ts:191-289 | every step of the machine changes the table by a history of guarded statements |
| `SchedulerRuns.RunIsHistory` | src/scheduler/dispatcher.ts:191-289 | so does every run: its final table is what the history of its steps makes of the first |
| `SchedulerRuns.EveryJobHasOneLife` | src/scheduler/stores/do-storage.ts:207-291 | in every run, crashes included, a job ends at most once, has at most one result accepted, fails at most max(1, retryMax) times and is re-queued once less |
| `SchedulerRuns.ReturnedValueIsServed` | src/scheduler/dispatcher.ts:249-252 | a run that returns while its job is leased has its value served for `resultTtlMs`, whatever happens meanwhile |
| `SchedulerRuns.RetriesAreLimited` | src/scheduler/dispatcher.ts:256-286 | at most max(1, retryMax) - 1 retries are ever scheduled for a job, at once or by timer |
| `SchedulerRuns.RunsKeepKeysDifferent` | src/scheduler/stores/do-storage.ts:134-143 | in every run, crashes included, no two rows have the same idempotency key |
| `SchedulerReachable.ReachableRowsAreConsistent` | src/scheduler/stores/do-storage.ts:106-365 | in every reachable table each row holds what its status says |
| `SchedulerContinuations.TenantIsCancelled` | src/scheduler/scheduler-do.ts:109-118 | cancelling a tenant cancels exactly its live rows and takes all its jobs out of the ready set; other rows, buckets and the order of the other tenants' jobs stay |
| `SchedulerContinuations.CancelledJobIsDropped` | src/scheduler/scheduler-do.ts:103-107 | the continuation of a cancellation takes one entry of the job out of the ready set, if there is one, and nothing else |
| `SchedulerContinuations.BackstopRebuildsIff` | src/scheduler/scheduler-do.ts:192-203 | an alarm rebuilds once more exactly as long as fewer jobs are ready or running than there are slots, and otherwise only starts the loop |
| `SchedulerContinuations.SettlingKicksIff` | src/scheduler/dispatcher.ts:225-231 | a settled run leaves the running map and starts the loop exactly if it is down, some job is ready and a slot is free |
| `SchedulerShape.StepKeepsShape` | src/scheduler/dispatcher.ts:118-289 | every copy of a job anywhere agrees with what was submitted, the ready set stays well formed, and nothing happens in memory before the first rebuild |
| `SchedulerDurability.NoJobIsStranded` | src/scheduler/dispatcher.ts:118-289 | over every run with complete peeks, each queued row is in the ready set or in the hands of the loop or of a pending continuation |
| `SchedulerDurability.StepKeepsDurable` | src/scheduler/dispatcher.ts:118-289 | one step of that, in every interleaving, crashes included |
| `SchedulerDurability.PeekIsCompleteIff` | src/scheduler/dispatcher.ts:154 | a peek finds every queued row exactly when there are no more than 10,000 |
| `SchedulerRecovery.CrashRecovery` | src/scheduler/scheduler-do.ts:179-207 | after a crash at any point, with anything called in any order: once an alarm reclaims leases after the last lease of before the crash has run out, every job has ended, is queued and remembered, or is leased by a run that executes, and this stays so |
| `SchedulerRecovery.ReclaimRemembers` | src/scheduler/scheduler-do.ts:185-188 | in any interleaving, the stretch of an alarm that reclaims leases queues every job whose lease has expired and leaves it remembered |
| `SchedulerRecovery.StepMakesNoOrphan` | src/scheduler/dispatcher.ts:207-255 | crashes aside, no step leaves a job leased without a run of it |
| `SchedulerRecovery.OneAlarmSuffices` | src/scheduler/scheduler-do.ts:179-207 | if nothing else is called after the crash, one alarm leaves every job that had not ended queued, ready and the loop started |
| `SchedulerRecovery.AlarmRecovers` | src/scheduler/scheduler-do.ts:179-207 | the invariant between the stretches of that alarm |
| `SchedulerRecovery.RebuildFindsEveryJobIff` | src/scheduler/dispatcher.ts:151-156 | a rebuild holds every queued job exactly when there are no more than 10,000 |
| `SchedulerProgress.RunningStaysBounded` | src/scheduler/dispatcher.ts:195-229 | in every run the running map stays within `inFlightLimit` and, per tenant, `fairCapacityPerTenant` |
| `SchedulerProgress.StepKeepsBounded` | src/scheduler/dispatcher.ts:195-229 | one step of that, although the check is before the await and the insertion after it |
| `SchedulerProgress.StepKeepsWakeupIff` | src/scheduler/dispatcher.ts:191-235 | one step keeps "the loop is down only if nothing can start or someone will kick" unless it rejects an enqueue that has just rebuilt the ready set, with work to start and no other kick under way |
| `SchedulerStall.WakeupsAreKept` | src/scheduler/dispatcher.ts:118-132 | for any `maxQueueDepth`: every run in which no enqueue is rejected that has just run the first rebuild keeps that property |
| `SchedulerStall.UnboundedQueueKeepsWakeups` | src/scheduler/dispatcher.ts:118-132 | with the default unbounded queue no run loses a wakeup in which nobody enqueues under the empty key |
| `SchedulerStall.RestartStallsIff` | src/scheduler/dispatcher.ts:118-127 | the first enqueue after a restart stalls the scheduler exactly if there are slots, the rebuild finds a job, and it finds at least `maxQueueDepth` |
| `SchedulerStall.RestartKeepsWakeupIff` | src/scheduler/dispatcher.ts:118-127 | the first enqueue after a restart loses the wakeup exactly if there are slots, the rebuild finds a job, and either it finds at least `maxQueueDepth` or the enqueue has the empty key and a row has it already |
| `SchedulerStall.EnqueuesCannotUnstall` | src/scheduler/dispatcher.ts:118-127 | no number of further enqueues moves a stalled scheduler |
| `SchedulerLeases.LiveRunsStayBounded` | src/scheduler/dispatcher.ts:195-229 | in every run in which no lease expires under its run and no job is claimed before its last run has settled, live runs obey `inFlightLimit` and, per tenant, `fairCapacityPerTenant` |
| `SchedulerLeases.PromptRunsStayBounded` | src/scheduler/dispatcher.ts:223-255 | it is enough that leases outlive runs and the loop pauses while an ended run is settled |
| `SchedulerLeases.ClaimOverlapsIff` | src/scheduler/stores/do-storage.ts:147-205 | a claim is accepted while a run of the job is in progress exactly if the deadline is ahead and the lease of the executing run has expired, or the run has ended without having settled and the row can be claimed |
| `SchedulerOverlap.StepStaysFaithful` | src/scheduler/dispatcher.ts:218-229 | as long as no start overlaps a live run of its job, the running map lists exactly the live runs |
| `SchedulerCopies.DelayedRetryWaits` | src/scheduler/dispatcher.ts:262-286 | a job that failed with no copy of it left, and is retried with a delay if at all, is not claimed before its run has settled, unless a rebuild peeks meanwhile |
| `SchedulerExcess.LimitHoldsIff` | src/scheduler/dispatcher.ts:195-229 | `inFlightLimit` bounds live runs in every run from the start exactly if there is at most one slot, in all or for each tenant, or the queue admits nothing |
| `SchedulerExcess.TenantLimitHoldsIff` | src/scheduler/dispatcher.ts:306-328 | under the same condition, and no other, `fairCapacityPerTenant` bounds the live runs of every tenant in every run from the start |
| `SchedulerExcess.ExcessIsUnbounded` | src/scheduler/dispatcher.ts:195-286 | with two slots, two for each tenant and a queue that admits jobs, for every number there is a run from the start that ends with that many live runs, all of one tenant and none in the running map |
| `SchedulerExcess.SomeBoundHoldsIff` | src/scheduler/dispatcher.ts:195-286 | so live runs have any bound at all, whatever number it is, exactly for the configurations of `LimitHoldsIff` |
| `SchedulerExcess.ImmediateRetryHidesALiveRun` | src/scheduler/dispatcher.ts:275-284 | a retry without delay ends with a live run that the running map does not list |
| `SchedulerReachable.ReachableStatesAreSound` | src/scheduler/dispatcher.ts:118-289 | every state that can be reached from the first one keeps the structural invariant, both limits on the running map, fresh ids of pending enqueues and attempts left for live rows |
| `SchedulerReachable.ReachableStatesAreDurable` | src/scheduler/dispatcher.ts:118-289 | no queued job is stranded in a reachable state, if the peeks on the way saw all rows |
| `SchedulerReachable.ReachableStatesAreAwake` | src/scheduler/dispatcher.ts:118-235 | no wakeup is lost on the way to a reachable state without a rejected rebuilder |
| `SchedulerReachable.ReachableRunsAreBounded` | src/scheduler/dispatcher.ts:195-229 | live runs obey both limits in every state reached with leases that outlive runs and runs that settle before their job is claimed |
| `SchedulerReachable.ReachableJobsHaveOneLife` | src/scheduler/dispatcher.ts:249-289 | from the start every job has one life and at most max(1, retryMax) - 1 retries |
| `SchedulerReachable.ReachableStatesRecover` | src/scheduler/scheduler-do.ts:179-207 | from a crash in any reachable state every job is accounted for once an alarm has reclaimed the old leases |
| `Topology.BalancedFill` | src/topology/plan.ts:85-105 | the even split, its range error exactly when the slots cannot hold the size, and the second check never fires |
| `Topology.FillSum` | src/topology/plan.ts:91-97 | the slots add up to the size |
| `Topology.LeastDepthIsExact` | src/topology/selector.ts:156-157 | a depth suffices exactly from the computed one on |
| `Topology.TreeIsBalanced` | src/topology/selector.ts:146-176 | a deep enough tree has, at every node, positive even children that add up, one child a branch, and no truncated leaf tier |
| `Topology.PlanIsLosslessIff` | src/topology/selector.ts:146-176 | the leaves of a tree of any depth are the smaller of its size and its capacity, so it is lossless exactly when the depth suffices |
| `Topology.SelectedPlanIsLossless` | src/topology/selector.ts:62-94 | every selected plan carries exactly the jobs it was asked for, trees at the least depth |
| `Topology.SelectionByCases` | src/topology/selector.ts:62-129 | which kind of plan every request gets: a pinned kind is that kind, one job is run in place, up to the threshold there is one tier of leaves, and above it a tree of the branching factor asked for |
| `Topology.RefusedIff` | src/topology/selector.ts:62-125 | the selector throws exactly for a negative size, a factor outside 4 to 16, a cap outside 1 to 256, or a pinned kind that cannot hold the size, and the first of these is what it names |
| `Topology.PlanFanOutPerLevel` | src/coordinator/coordinator.ts:657-671 | the cursor loop reports the widths along the leftmost branch |
| `Topology.ReportedWidthsAreMaxima` | src/coordinator/coordinator.ts:646-671 | those widths are the largest of their tiers, and each is reached |
| `TreeDispatch.CarveSlices` | src/coordinator/sub-coordinator.ts:130-140 | the cursor loop gives child i the jobs from its offset on, and its global slot base |
| `TreeDispatch.InvokeWithRetry` | src/coordinator/coordinator.ts:710-736 | the attempt loop returns what the attempt-by-attempt definition says, events included; `TreeMeaning.CallEnds` says which attempt that is |
| `TreeDispatch.DispatchOnEnv` | src/coordinator/sub-coordinator.ts:116-208 | a sub-coordinator's answer is its slices' answers in plan order |
| `TreeDispatch.DispatchHybridLeaf` | src/coordinator/sub-coordinator.ts:210-305 | one leaf call per job, answers in order |
| `TreeDispatch.DispatchHybrid` | src/coordinator/coordinator.ts:374-431 | the root's leaf calls, errors filled in per slice |
| `TreeDispatch.DispatchTree` | src/coordinator/coordinator.ts:433-529 | the root's sub-coordinator calls, errors filled in per slice |
| `TreeDispatch.RunManyOnCoordinator` | src/coordinator/coordinator.ts:251-328 | selection and dispatch of a whole fan-out |
| `TreeSoundness.FanOutIsSound` | src/coordinator/coordinator.ts:251-529 | for every size, selector and behaviour of RPCs and jobs: one result per job in order, each from a run of that job at its slot or from an RPC that carried it; nothing else runs, and no job more than 5^hops times |
| `TreeSoundness.FanOutIsMap` | src/coordinator/sub-coordinator.ts:116-305 | if jobs compute a function, each result is that function's value or the error of an RPC that carried the slot |
| `TreeSoundness.CalmRunsOnce` | src/coordinator/sub-coordinator.ts:116-305 | with no failures every job runs exactly once |
| `TreeSoundness.ServeSound` | src/coordinator/sub-coordinator.ts:116-208 | the same for a sub-coordinator of any depth and its slice |
| `TreeSoundness.InvokeSound` | src/coordinator/sub-coordinator.ts:168-194 | a retried call multiplies the runs by at most five and never runs out of its loop |
| `TreeSoundness.RunBatchSound` | src/coordinator/worker-do.ts:100-186 | a leaf gives one result per job, run once each at consecutive slots |
| `TreeSoundness.LastAttemptDecides` | src/coordinator/coordinator.ts:710-736 | the caller gets the last attempt's ending; the "exhausted" tail is never reached |
| `TreeSoundness.OtherErrorsAreNotRetried` | src/coordinator/coordinator.ts:729-732 | a thrown error that is not transient ends the attempts at once |
| `TreeRetries.RunBoundIsReached` | src/coordinator/sub-coordinator.ts:168-194 | the bound of five to the number of hops is met by every job when every call is lost after doing its work |
| `TreeRetries.RetriesMultiply` | src/coordinator/coordinator.ts:710-736 | in that environment a retried call costs exactly five times its callee |
| `TreeMeaning.FanOutFollowsRules` | src/coordinator/coordinator.ts:251-529 | the results of a fan-out are exactly those that rules on RPCs, runs and transient errors alone allow: which attempt ends a call, returned and thrown failures mixed, and what each call then gives at every place of the tree |
| `TreeMeaning.BatchEnds` | src/coordinator/coordinator.ts:710-736 | a batch ends as its first attempt, of five, that is neither lost to a transient error nor has a run that failed with one, or else as the fifth |
| `TreeMeaning.CallEnds` | src/coordinator/sub-coordinator.ts:168-194 | the same for every call, a sub-coordinator's too, by its replies |
| `TreeMeaning.PlanServesOnce` | src/coordinator/coordinator.ts:374-529 | those rules leave one outcome |
| `TreeRoutes.ServeSlicesFollow` | src/coordinator/sub-coordinator.ts:130-208 | whatever fails, the path of every run below a sub-coordinator of any depth extends its own by the route of the job through the splits |
| `TreeRoutes.RoutesDiffer` | src/coordinator/sub-coordinator.ts:130-167 | different jobs take different routes through the splits |
| `TreeRoutes.RouteIsPlanned` | src/coordinator/sub-coordinator.ts:164-167 | the re-computed splits lead every job where the plan has it |
| `TreePartition.PlannedPartitionIsVisited` | src/coordinator/sub-coordinator.ts:164-167 | with two tiers or more every run in the log of a fan-out took the slices that the plan has for its job |
| `TreePartition.VisitedRoutes` | src/coordinator/sub-coordinator.ts:116-208 | the places where jobs ran are among the planned routes, and all of them if nothing fails |
| `TreePartition.SingleTierVisits` | src/coordinator/sub-coordinator.ts:145-163 | with one tier every run in the log is in the planned hybrid, its job being a slice of its own |
| `TreeWidths.TreeWithinIff` | src/coordinator/sub-coordinator.ts:145-163 | no bottom sub-coordinator makes more than `bound` distinct leaf calls, counted in the log, if the tree can be carried with that bound, and when nothing fails only then |
| `TreeWidths.WithinMaxFanOutIff` | src/coordinator/sub-coordinator.ts:28 | when nothing fails they stay within `maxFanOut` exactly up to `branchingFactor * maxFanOut` jobs, and always within `branchingFactor * maxFanOut` |
| `LeafNames.OneJobPerLeaf` | src/coordinator/sub-coordinator.ts:224-230 | in the log of a tree fan-out two runs are in the same leaf worker exactly if they are runs of the same job |
| `LeafNames.OneJobPerRootLeaf` | src/coordinator/coordinator.ts:408 | the same for a hybrid fan-out |
| `LeafNames.LeavesAreDistinct` | src/coordinator/sub-coordinator.ts:168-228 | the names at the ends of different routes, or under different sub-coordinators of a tier, never coincide |
| `Tournament.PoolReduce` | src/api/pool.ts:774-809 | the tournament over seed and items, with one call per item and the stated rounds |
| `Tournament.LoaderOnlyReduce` | src/api/loader-only-pool.ts:168-195 | the same tournament |
| `Tournament.FakeReduce` | src/api/testing.ts:157-175 | the same tournament |
| `Tournament.TournamentIsFold` | src/api/pool.ts:764-773 | for an associative reducer it is the left fold |
| `Tournament.TournamentUsesItemsInOrder` | src/api/pool.ts:774-809 | for any reducer the result is its value on a combination tree that does not depend on it and holds each item exactly once, in input order |
| `Tournament.RoundsIsCeilLog` | src/api/pool.ts:780-807 | the rounds are the rounded-up binary logarithm |
| `Tournament.Chunk` | src/api/loader-only-pool.ts:197-209 | batches in order, full but for the last, no more than asked for, nothing lost |
| `Tournament.ChunkCountIff` | src/api/loader-only-pool.ts:204 | as many batches as asked for exactly when one fewer would not hold the items |
| `Tournament.PmapIsMap` | src/api/loader-only-pool.ts:224-238 | an elementwise `pmap` is a map, however it is chunked |
| `FanOut.FanOutIsSafe` | src/api/fan-out.ts:47-85 | in every order: at most the clamped concurrency in flight, distinct indices, no index run twice |
| `FanOut.FinishedIsAnswered` | src/api/fan-out.ts:47-85 | when all workers have returned every slot is settled, by its run or, under `throw-fast`, cut off behind an earlier failure |
| `FanOut.AnswerIsScheduleFree` | src/api/fan-out.ts:47-134 | in every order the answer is that of the runs, unless `throw-fast` meets a failing run; then it throws in every order, and the error of lowest index is that of the lowest failing run and never the synthetic one |
| `FanOutOrder.AnswerIsFixedIff` | src/api/fan-out.ts:47-134 | all orders of completion give the same answer exactly if the mode is not `throw-fast`, or there is one worker, or all workers fail at their first index, or no index is left to be claimed once the lowest failure can have ended |
| `FanOut.FanOutEnds` | src/api/fan-out.ts:65-85 | no schedule exceeds two steps an item and one a worker, and some worker can always move until all have returned |
| `FanOut.BuildAnswer` | src/api/fan-out.ts:87-134 | index by index, for each mode: nulls or records in place of failures, exactly the values in order, or an error thrown by itself when nothing else is lost with it and otherwise with every error and every value by index |
| `FanOut.WorkerPool.ClaimNext` | src/api/fan-out.ts:70-81 | one claim on the shared cursor takes the next index, cuts it off after a failure, or ends the worker, and is the step of the machine |
| `FanOut.WorkerPool.SettleRun` | src/api/fan-out.ts:55-62 | one settled run fills its slot and stops the claims if it fails under `throw-fast`, and is the step of the machine |
| `Streams.MapStream` | src/api/pool.ts:914-949 | whoever wins each race, every index is yielded once and never ahead of the window, until one fails and its error ends the stream; a window below one yields nothing |
| `Streams.DrainCounter.Drain` | src/api/pool.ts:1046-1050 | resolved at once exactly when nothing is in flight, otherwise the one barrier all waiters share |
| `Streams.DrainCounter.Dec` | src/api/pool.ts:1056-1063 | releases the barrier exactly when the counter returns to zero |
| `LoaderSemaphore.LoaderSemaphore.Acquire` | src/loader/loader-budget.ts:114-122 | takes a free permit and resolves at once, or joins the end of the queue |
| `LoaderSemaphore.LoaderSemaphore.Release` | src/loader/loader-budget.ts:124-132 | hands the permit to the oldest waiter or frees it |
| `LoaderSemaphore.NewSemaphore` | src/loader/loader-budget.ts:81-86 | refuses caps that are not finite or below one and rounds the others down |
| `LoaderSemaphore.SemaphoreIsFair` | src/loader/loader-budget.ts:76-133 | over every run: permits are granted in order of arrival, never more than the cap, and nobody waits while one is free |
| `LoaderSemaphore.WaiterIsServed` | src/loader/loader-budget.ts:114-132 | the waiter at position i has its permit once i + 1 holders have left |
| `WireErrors.TripIsNormal` | src/errors/index.ts:86-603 | a trip over the wire makes a directly defined normal form of every error tree |
| `WireErrors.TripIsIdentityIff` | src/errors/index.ts:86-603 | a trip changes nothing exactly for the trees whose classes, reasons, names, stacks and causes survive |
| `WireErrors.TripIsIdempotent` | src/errors/index.ts:86-603 | remote stacks apart, a second trip changes nothing, for every error tree |
| `WireErrors.SecondTripIsIdentityIff` | src/errors/index.ts:104-123 | a second trip changes nothing at all exactly when no foreign cause lacks a stack |
| `WireErrors.TripKeepsMessageIff` | src/errors/index.ts:541-542 | the message survives exactly when it does not come from a cancellation without a reason |
| `WireRecords.ThrownArrives` | src/errors/index.ts:537-619 | whatever is thrown arrives: a library error in its normal form, anything else as an execution error with the message, the name and the stack it had |
| `WireRecords.StatusClasses` | src/errors/index.ts:86-488 | which classes are behind each HTTP status |
| `WireRecords.MissingExtras` | src/errors/index.ts:537-601 | what is restored from a record without extra fields, class by class |
| `WireRecords.OtherCodes` | src/errors/index.ts:537-601 | exactly three codes come back as executions, every other class comes back as itself |
| `NumberText.NumeralIsRead` | src/loader/serialize.ts:156 | different finite numbers print differently, in whole, split, fractional and exponent notation |
| `NumberText.NumberPrefix` | src/loader/serialize.ts:156 | a printed number determines the number and where it ends |
| `NumberText.NotationIff` | src/loader/serialize.ts:156 | an exponent is written exactly from 1e21 on and below 1e-6, otherwise a point exactly if the number is not whole |
| `CanonicalText.ShowPrefix` | src/loader/serialize.ts:152-190 | a printed value determines the value and where it ends |
| `CanonicalText.ShowIsInjective` | src/loader/serialize.ts:152-190 | printing is injective |
| `JsonRoundTrip.ShowIsRead` | src/loader/serialize.ts:152-190 | a reader of JSON written after RFC 8259 alone reads every printed value back |
| `JsonRoundTrip.NumberIsRead` | src/loader/serialize.ts:156 | a printed number has, by the grammar of JSON, the decimal value it was printed from |
| `WellFormedText.TextIsPaired` | src/loader/serialize.ts:157 | a printed text is well-formed UTF-16 whatever its strings hold |
| `WellFormedText.PlainStringsAreVerbatim` | src/loader/serialize.ts:157 | a well-formed string without control characters, quotes and backslashes is printed as it is |
| `WellFormedText.TextIsCompact` | src/loader/serialize.ts:152-190 | the only white space in a text is the spaces of its strings |
| `CanonicalContext.AcceptedIff` | src/loader/serialize.ts:83-192 | a context is accepted exactly when its own keys are identifiers, not reserved words and without the `Cfp` or `cfp` prefix, its values at any depth are supported, and no object is reached in two ways |
| `CanonicalContext.PrintedIff` | src/loader/serialize.ts:151-191 | below its own keys a value is printed exactly when it holds supported values only and no object is reached in two ways |
| `CanonicalContext.IndexedContextsAreEmpty` | src/loader/serialize.ts:150 | an array or a string passes as a context exactly when it is empty, because its keys are numbers |
| `CanonicalContext.PrimitiveContextsIff` | src/loader/serialize.ts:149-166 | undefined, null and texts that are not empty are no contexts, other supported primitive values are |
| `ContextKeys.ValidKeyIff` | src/loader/serialize.ts:88-143 | a key is valid exactly if it is an identifier of ASCII letters, digits, underscores and dollars, none of the 41 reserved words, and without the prefix |
| `CanonicalContext.SameTextIff` | src/loader/serialize.ts:149-192 | two accepted contexts print the same text exactly when they denote the same value up to key order, undefined, null and not-finite, and the sign of zero |
| `ContextRoundTrip.CanonicalTells` | src/loader/serialize.ts:149-192 | what that reader makes of a canonical text is what the context denotes |
| `ContextRoundTrip.SliceTells` | src/loader/codegen.ts:56 | and what it makes of the embedded slice is what the value denotes |
| `CanonicalContext.KeyOrderIsImmaterial` | src/loader/serialize.ts:186-187 | the order of keys at any depth makes no difference |
| `CanonicalContext.BeforeIff` | src/loader/serialize.ts:186 | keys are ordered by the first code unit in which they differ, and a prefix comes first |
| `CanonicalContext.SliceIsTheValue` | src/loader/codegen.ts:56 | `slice(5, -1)` of the text of `{ v: value }` is exactly what the inner `stringify` makes of the value, and wrapping throws when that does |
| `CanonicalContext.AcceptedContextsEmbed` | src/loader/codegen.ts:50-57 | every value of an accepted context can be embedded by itself |
| `SourceHash.HashSource` | src/loader/serialize.ts:75-81 | the 32-bit loop computes a polynomial in 33 modulo 2^32, printed in base 36 |
| `SourceHash.SameHashIff` | src/loader/serialize.ts:75-81 | two sources share a hash exactly when their polynomials agree modulo 2^32 |

## Left out

- Durable-object stubs, RPC sessions, prewarm calls, stub caches and location hints: an RPC is an outcome chosen by the environment, with all of its work done, none or any part.
- Cancel tokens, deadlines inside runs, observability events and backoff waits: they decide outcomes the environment already decides.
- Missing worker or sub-coordinator bindings, which make a dispatch throw before it starts.
- `Math.log` in the depth of a tree: the depth is the least that suffices in whole numbers; `Topology.TreeIsBalanced` and `Topology.PlanIsLosslessIff` hold for any depth, so also where rounding picks one more.
- `LeafNames.OneJobPerLeaf`: takes ids as an injective function of names into texts without a dash, as hashes in hexadecimal are meant to be; `LeafNames.NamingsExist` exhibits one.
- SQL storage (schema, encoding, the events log, `startedAt`, jitter): rows keep status, lease, retries, deadline, result and keys.
- `status`, `stats`, `configure` and the re-arming of alarms: nothing in the modelled properties depends on them; the configuration is fixed throughout a run.
- `Scheduler`: `cancelByTenant` is one step, because a job enqueued in the middle of it can be stranded; the loop reads the clock once between its deadline test and the claim; ids are never reused; store operations do not throw, apart from a UNIQUE violation.
- `Scheduler`: a retry timer becomes due only after its run has settled, as the microtask of the one precedes the macrotask of the other.
- `DispatcherClass.Dispatcher.DropFromReady`: buckets are searched in tenant order; the order of the source's map differs only for a job with entries under two tenants, which a fixed catalog excludes.
- `SchedulerRecovery.CrashRecovery`: says what holds once an alarm has come to its reclaiming stretch late enough; that an alarm comes is up to the platform.
- The D1 and queue stores, which the public scheduler cannot reach.
- `FanOut`: runs throw library errors already; the wrapping of other values around them is not modelled.
- Reducers and batch functions that throw: `reduce` then rejects, whichever round it is in.
- `mapOrdered` and `pipe`: the worker loop of the one is that of `FanOut`, the other is sequential.
- `CanonicalContext`: sparse arrays; a finite number is taken as its shortest decimal, so which decimals are shortest for a double is not modelled.
- `WireErrors`: messages computed by constructors are terms over their parts instead of strings, and wire extras have the right types if present; a deadline no date can hold makes its constructor throw.
- String patterns of the transport (`error-marshal.ts`, `isTransientLeafError`): whether an error is transient is a predicate of the environment.
- Actor state, HTTP handlers, the loader runtime and generated code apart from the embedded context.
