/** Leases and live runs. A job is claimed while a run of it is in progress only if the
    lease of that run has expired or the run has failed and not settled yet; in every run
    without such a claim the limits bound the runs that are really in progress. */
module SchedulerLeases {
  import opened Options
  import opened JobTable
  import opened JobHistories
  import opened ReadyQueue
  import opened Scheduler
  import opened SchedulerFrames
  import opened SchedulerHistory
  import opened SchedulerShape
  import opened SchedulerProgress
  import opened SchedulerStall
  import opened SchedulerRuns
  import opened SchedulerOverlap

  // ---- what an executing job's row looks like ------------------------------------------------

  ghost predicate Executes(s: State, id: JobId) {
    exists k :: k in s.tasks && s.tasks[k].Executing? && s.tasks[k].job.id == id
  }

  /** A run of the job has ended and its `finally` is still to come. */
  ghost predicate Unsettled(s: State, id: JobId) {
    exists k :: k in s.tasks && (s.tasks[k].FailReturned? || s.tasks[k].Settling?) && s.tasks[k].job.id == id
  }

  /** The loop has claimed the job and is about to run it. */
  predicate Starts(s: State, id: JobId) {
    s.loop.Claimed? && s.loop.got.Some? && s.loop.got.value.id == id
  }

  /** The row is gone, has ended, or is leased. */
  predicate NotQueued(rows: Table, id: JobId) {
    id in rows ==> rows[id].status != Queued
  }

  predicate Expired(rows: Table, id: JobId, now: int) {
    id in rows && Reclaimable(rows[id], now)
  }

  /** No executing job, nor one about to be, is queued; one about to run is not running. */
  ghost predicate Guarded(s: State) {
    && Shape(s) && FreshEnqueues(s) && Faithful(s) && RunningKnown(s)
    && (forall id :: Executes(s, id) || Starts(s, id) ==> Submitted(s, id) && NotQueued(s.rows, id))
    && (forall id :: Starts(s, id) ==> !Executes(s, id) && !Unsettled(s, id))
  }

  // ---- the steps that can break it ------------------------------------------------------------

  /** The step finds the lease of a job expired that is executing or about to. */
  ghost predicate LeaseLapses(s: State, step: Step) {
    || (step.LoopStep? && s.loop.Claiming? && Executes(s, s.loop.job.id) && Expired(s.rows, s.loop.job.id, s.loop.at))
    || (step.Resume? && step.key in s.tasks && s.tasks[step.key].AlarmDue? &&
        exists id :: (Executes(s, id) || Starts(s, id)) && Expired(s.rows, id, s.now))
  }

  /** The step claims a job whose last run has not settled. */
  ghost predicate ClaimsUnsettled(s: State, step: Step) {
    step.LoopStep? && s.loop.Claiming? && Claimable(s.rows, s.loop.job.id, s.loop.at) && Unsettled(s, s.loop.job.id)
  }

  lemma InProgressIff(s: State, id: JobId)
    ensures (exists k :: RunJob(s, k) == Some(id)) <==> Executes(s, id) || Unsettled(s, id)
  {
    if k :| RunJob(s, k) == Some(id) {
      assert k in s.tasks;
    }
    if Executes(s, id) {
      var k :| k in s.tasks && s.tasks[k].Executing? && s.tasks[k].job.id == id;
      assert RunJob(s, k) == Some(id);
    } else if Unsettled(s, id) {
      var k :| k in s.tasks && (s.tasks[k].FailReturned? || s.tasks[k].Settling?) && s.tasks[k].job.id == id;
      assert RunJob(s, k) == Some(id);
    }
  }

  /** The exact condition, for one claim: it is accepted while a run of the job is in
      progress if and only if the deadline has not passed and either that run executes
      under an expired lease, or it has ended without having settled and the row can be
      claimed again. */
  lemma ClaimOverlapsIff(cfg: Config, s: State, key: nat)
    requires Guarded(s) && s.loop.Claiming? && Enabled(cfg, s, LoopStep(key))
    ensures var id, at := s.loop.job.id, s.loop.at;
            (LoopClaim(cfg, s).loop.got.Some? && exists k :: RunJob(s, k) == Some(id)) <==>
            (id in s.rows && s.rows[id].spec.deadlineMs > at && LeaseLapses(s, LoopStep(key)))
            || ClaimsUnsettled(s, LoopStep(key))
  {
    InProgressIff(s, s.loop.job.id);
  }

  /** A start overlaps a run in progress only if the claim before it did. */
  lemma GuardedStartsAlone(s: State, step: Step)
    requires Guarded(s)
    ensures !Overlaps(s, step)
  {
    if Overlaps(s, step) {
      var id := s.loop.got.value.id;
      InProgressIff(s, id);
      assert Starts(s, id);
    }
  }

  // ---- rows of executing jobs ---------------------------------------------------------------------

  lemma OpKeepsNotQueued(rows: Table, op: Op, id: JobId)
    requires NotQueued(rows, id)
    requires op.EnqueueOp? ==> op.id != id
    requires op.FailOp? ==> op.id != id
    requires op.ReclaimOp? ==> !Expired(rows, id, op.now)
    ensures NotQueued(Apply(rows, op), id)
  {
  }

  lemma {:induction false} CancelsKeepNotQueued(rows: Table, ids: seq<JobId>, id: JobId)
    requires NotQueued(rows, id)
    ensures NotQueued(Run(rows, Cancels(ids)), id)
    decreases |ids|
  {
    if ids != [] {
      assert Cancels(ids)[1..] == Cancels(ids[1..]);
      CancelsKeepNotQueued(Cancel(rows, ids[0]), ids[1..], id);
    }
  }

  lemma AnyOpKeepsNotQueued(rows: Table, op: Option<Op>, id: JobId)
    requires NotQueued(rows, id)
    requires op.Some? && (op.value.EnqueueOp? || op.value.FailOp?) ==> op.value.id != id
    requires op.Some? && op.value.ReclaimOp? ==> !Expired(rows, id, op.value.now)
    ensures NotQueued(Run(rows, Ops(op)), id)
  {
    AnyOp(rows, op);
    if op.Some? {
      OpKeepsNotQueued(rows, op.value, id);
    }
  }

  lemma ResumeKeepsNotQueued(cfg: Config, s: State, key: nat, peeked: seq<Job>, id: JobId)
    requires Shape(s) && Enabled(cfg, s, Resume(key, peeked)) && Submitted(s, id) && NotQueued(s.rows, id)
    requires s.tasks[key].AlarmDue? ==> !Expired(s.rows, id, s.now)
    ensures NotQueued(OnResume(cfg, s, key, peeked).rows, id)
  {
    StepIsHistory(cfg, s, Resume(key, peeked));
    AnyOpKeepsNotQueued(s.rows, AwaitOp(cfg, s, s.tasks[key]), id);
  }

  lemma StepKeepsNotQueued(cfg: Config, s: State, step: Step, id: JobId)
    requires Shape(s) && Enabled(cfg, s, step) && Submitted(s, id) && NotQueued(s.rows, id)
    requires step.RunEnds? ==> s.tasks[step.key].job.id != id
    requires step.Resume? && s.tasks[step.key].AlarmDue? ==> !Expired(s.rows, id, s.now)
    ensures NotQueued(Do(cfg, s, step).rows, id)
  {
    match step
    case Resume(key, peeked) => ResumeKeepsNotQueued(cfg, s, key, peeked, id);
    case LoopStep(key) =>
      LoopRows(cfg, s, key);
      AnyOp(s.rows, LoopOp(cfg, s));
      AnyOpKeepsNotQueued(s.rows, LoopOp(cfg, s), id);
    case RunEnds(key, end) =>
      StepIsHistory(cfg, s, step);
      AnyOpKeepsNotQueued(s.rows, Some(RunEndOp(cfg, s, s.tasks[key].job, end)), id);
    case CancelTenantCall(_, active) =>
      StepIsHistory(cfg, s, step);
      CancelsKeepNotQueued(s.rows, active, id);
    case _ =>
  }

  // ---- who executes after a step ---------------------------------------------------------------------

  lemma RunJobsAfterResume(cfg: Config, s: State, key: nat, peeked: seq<Job>, id: JobId)
    requires Wf(s.ready) && Enabled(cfg, s, Resume(key, peeked))
    ensures var s' := OnResume(cfg, s, key, peeked);
            && (Executes(s', id) ==> Executes(s, id)) && (Unsettled(s', id) ==> Unsettled(s, id))
            && (Starts(s', id) ==> Starts(s, id))
  {
    var task := s.tasks[key];
    var o := AfterAwait(cfg, s, task, peeked);
    AwaitKeepsTasks(cfg, s, task, peeked);
    LeaveKeepsTasks(o, key);
    AwaitStartsNothing(cfg, s, task, peeked);
    var s' := Leave(o, key);
    if Executes(s', id) {
      var k :| k in s'.tasks && s'.tasks[k].Executing? && s'.tasks[k].job.id == id;
      assert k in s.tasks && s.tasks[k] == s'.tasks[k];
    }
    if Unsettled(s', id) {
      var k :| k in s'.tasks && (s'.tasks[k].FailReturned? || s'.tasks[k].Settling?) && s'.tasks[k].job.id == id;
      if k == key {
        assert (task.FailReturned? || task.Settling?) && task.job.id == id;
      } else {
        assert k in s.tasks && s.tasks[k] == s'.tasks[k];
      }
    }
  }

  lemma AwaitStartsNothing(cfg: Config, s: State, task: Task, peeked: seq<Job>)
    requires !task.Executing? && Wf(s.ready)
    ensures var o := AfterAwait(cfg, s, task, peeked);
            && (o.state.loop.Claimed? ==> o.state.loop == s.loop)
            && (o.next.Some? && InProgress(o.next.value) ==>
                  !o.next.value.Executing? && task.FailReturned? && o.next.value.job.id == task.job.id)
  {
    if task.Settling? {
      assert AfterSettle(cfg, s, task.job, task.retry).next.Some? ==>
               AfterSettle(cfg, s, task.job, task.retry).next.value.RetryTimer?;
    } else {
      AwaitKeepsRuns(cfg, s, task, peeked);
      AwaitKeepsRunKind(cfg, s, task, peeked);
      if task.FailReturned? {
        assert AfterFail(s, task.job, task.next).next.value.Settling?;
      }
    }
  }

  lemma RunJobsAfterLoop(cfg: Config, s: State, key: nat, id: JobId)
    requires Shape(s) && Enabled(cfg, s, LoopStep(key))
    ensures var s' := Do(cfg, s, LoopStep(key));
            && (Executes(s', id) ==> Executes(s, id) || Starts(s, id)) && (Unsettled(s', id) ==> Unsettled(s, id))
            && (Starts(s', id) ==> s.loop.Claiming? && s.loop.job.id == id && Claimable(s.rows, id, s.loop.at))
  {
    var s' := Do(cfg, s, LoopStep(key));
    LoopTasks(cfg, s, key);
    if Executes(s', id) {
      var k :| k in s'.tasks && s'.tasks[k].Executing? && s'.tasks[k].job.id == id;
      assert k == key || (k in s.tasks && s.tasks[k] == s'.tasks[k]);
    }
    if Unsettled(s', id) {
      var k :| k in s'.tasks && (s'.tasks[k].FailReturned? || s'.tasks[k].Settling?) && s'.tasks[k].job.id == id;
      assert k in s.tasks && s.tasks[k] == s'.tasks[k];
    }
  }

  lemma LoopTasks(cfg: Config, s: State, key: nat)
    requires Wf(s.ready) && Enabled(cfg, s, LoopStep(key))
    ensures var s' := Do(cfg, s, LoopStep(key));
            && s'.tasks == (if s.loop.Claimed? && s.loop.got.Some?
                            then s.tasks[key := Executing(s.loop.got.value)] else s.tasks)
            && (s'.loop.Claimed? ==> s.loop.Claiming? && s'.loop == LoopClaim(cfg, s).loop)
  {
    LoopFrame(cfg, s, key);
  }

  lemma RunJobsAfterEnd(cfg: Config, s: State, key: nat, end: RunEnd, id: JobId)
    requires Faithful(s) && Wf(s.ready) && Enabled(cfg, s, RunEnds(key, end))
    ensures var s' := OnRunEnds(cfg, s, key, end);
            && (Executes(s', id) ==> Executes(s, id) && s.tasks[key].job.id != id)
            && (Unsettled(s', id) ==> Unsettled(s, id) || s.tasks[key].job.id == id)
            && (Starts(s', id) <==> Starts(s, id))
  {
    var s' := OnRunEnds(cfg, s, key, end);
    RunEndFrame(cfg, s, key, end);
    if Executes(s', id) {
      var k :| k in s'.tasks && s'.tasks[k].Executing? && s'.tasks[k].job.id == id;
      assert RunJob(s, k) == Some(id) && RunJob(s, key) == Some(s.tasks[key].job.id);
    }
    if Unsettled(s', id) {
      var k :| k in s'.tasks && (s'.tasks[k].FailReturned? || s'.tasks[k].Settling?) && s'.tasks[k].job.id == id;
      assert k == key || (k in s.tasks && s.tasks[k] == s'.tasks[k]);
    }
  }

  lemma SameRunJobs(s: State, s': State, id: JobId)
    requires s'.loop == s.loop || s'.loop.Down?
    requires forall k :: k in s'.tasks && InProgress(s'.tasks[k]) ==> k in s.tasks && s.tasks[k] == s'.tasks[k]
    ensures (Executes(s', id) ==> Executes(s, id)) && (Unsettled(s', id) ==> Unsettled(s, id))
    ensures Starts(s', id) ==> Starts(s, id)
  {
  }

  lemma RunJobsAfterCall(cfg: Config, s: State, step: Step, id: JobId)
    requires Shape(s) && Enabled(cfg, s, step) && !step.Resume? && !step.LoopStep? && !step.RunEnds?
    ensures var s' := Do(cfg, s, step);
            && (Executes(s', id) ==> Executes(s, id)) && (Unsettled(s', id) ==> Unsettled(s, id))
            && (Starts(s', id) ==> Starts(s, id))
  {
    if Calls(step) {
      CallFrame(cfg, s, step);
    }
    SameRunJobs(s, Do(cfg, s, step), id);
  }

  // ---- every step ---------------------------------------------------------------------------------------

  lemma EndsOwnRun(s: State, key: nat, id: JobId)
    requires Guarded(s) && key in s.tasks && s.tasks[key].Executing? && Starts(s, id)
    ensures s.tasks[key].job.id != id
  {
  }

  lemma LoopKeepsGuardedRow(cfg: Config, s: State, key: nat, id: JobId)
    requires Guarded(s) && Enabled(cfg, s, LoopStep(key)) && !LeaseLapses(s, LoopStep(key))
    requires Executes(Do(cfg, s, LoopStep(key)), id) || Starts(Do(cfg, s, LoopStep(key)), id)
    ensures Submitted(s, id) && NotQueued(Do(cfg, s, LoopStep(key)).rows, id)
  {
    RunJobsAfterLoop(cfg, s, key, id);
    if Executes(s, id) || Starts(s, id) {
      StepKeepsNotQueued(cfg, s, LoopStep(key), id);
    } else {
      RowsAreSubmitted(s, id);
      ClaimedRow(cfg, s, id);
    }
  }

  lemma ClaimedRow(cfg: Config, s: State, id: JobId)
    requires s.loop.Claiming? && s.loop.job.id == id && Claimable(s.rows, id, s.loop.at)
    ensures NotQueued(LoopClaim(cfg, s).rows, id)
  {
  }

  lemma EndKeepsGuardedRow(cfg: Config, s: State, key: nat, end: RunEnd, id: JobId)
    requires Guarded(s) && Enabled(cfg, s, RunEnds(key, end))
    requires Executes(OnRunEnds(cfg, s, key, end), id) || Starts(OnRunEnds(cfg, s, key, end), id)
    ensures Submitted(s, id) && NotQueued(OnRunEnds(cfg, s, key, end).rows, id)
  {
    RunJobsAfterEnd(cfg, s, key, end, id);
    if Starts(s, id) {
      EndsOwnRun(s, key, id);
    }
    StepKeepsNotQueued(cfg, s, RunEnds(key, end), id);
  }

  lemma ResumeKeepsGuardedRow(cfg: Config, s: State, key: nat, peeked: seq<Job>, id: JobId)
    requires Guarded(s) && Enabled(cfg, s, Resume(key, peeked)) && !LeaseLapses(s, Resume(key, peeked))
    requires Executes(OnResume(cfg, s, key, peeked), id) || Starts(OnResume(cfg, s, key, peeked), id)
    ensures Submitted(s, id) && NotQueued(OnResume(cfg, s, key, peeked).rows, id)
  {
    RunJobsAfterResume(cfg, s, key, peeked, id);
    ResumeKeepsNotQueued(cfg, s, key, peeked, id);
  }

  lemma CallKeepsGuardedRow(cfg: Config, s: State, step: Step, id: JobId)
    requires Guarded(s) && Enabled(cfg, s, step) && !step.Resume? && !step.LoopStep? && !step.RunEnds?
    requires Executes(Do(cfg, s, step), id) || Starts(Do(cfg, s, step), id)
    ensures Submitted(s, id) && NotQueued(Do(cfg, s, step).rows, id)
  {
    RunJobsAfterCall(cfg, s, step, id);
    StepKeepsNotQueued(cfg, s, step, id);
  }

  /** Whoever executes or starts after a step is not queued. */
  lemma StepKeepsGuardedRow(cfg: Config, s: State, step: Step, id: JobId)
    requires Guarded(s) && Enabled(cfg, s, step) && !LeaseLapses(s, step)
    requires Executes(Do(cfg, s, step), id) || Starts(Do(cfg, s, step), id)
    ensures Submitted(Do(cfg, s, step), id) && NotQueued(Do(cfg, s, step).rows, id)
  {
    match step {
      case LoopStep(key) => LoopKeepsGuardedRow(cfg, s, key, id);
      case Resume(key, peeked) => ResumeKeepsGuardedRow(cfg, s, key, peeked, id);
      case RunEnds(key, end) => EndKeepsGuardedRow(cfg, s, key, end, id);
      case _ => CallKeepsGuardedRow(cfg, s, step, id);
    }
    StepKeepsSubmitted(cfg, s, step, id);
  }

  lemma StepKeepsStartAlone(cfg: Config, s: State, step: Step, id: JobId)
    requires Guarded(s) && Enabled(cfg, s, step) && !LeaseLapses(s, step) && !ClaimsUnsettled(s, step)
    requires Starts(Do(cfg, s, step), id)
    ensures !Executes(Do(cfg, s, step), id) && !Unsettled(Do(cfg, s, step), id)
  {
    match step
    case LoopStep(key) =>
      RunJobsAfterLoop(cfg, s, key, id);
      LoopTasks(cfg, s, key);
    case Resume(key, peeked) => RunJobsAfterResume(cfg, s, key, peeked, id);
    case RunEnds(key, end) =>
      RunJobsAfterEnd(cfg, s, key, end, id);
      EndsOwnRun(s, key, id);
    case _ => RunJobsAfterCall(cfg, s, step, id);
  }

  lemma StepKeepsGuarded(cfg: Config, s: State, step: Step)
    requires Guarded(s) && Enabled(cfg, s, step) && !LeaseLapses(s, step) && !ClaimsUnsettled(s, step)
    ensures Guarded(Do(cfg, s, step))
  {
    GuardedStartsAlone(s, step);
    StepKeepsShape(cfg, s, step);
    StepKeepsFresh(cfg, s, step);
    StepStaysFaithful(cfg, s, step);
    StepKeepsRunningKnown(cfg, s, step);
    var s' := Do(cfg, s, step);
    forall id | Executes(s', id) || Starts(s', id) ensures Submitted(s', id) && NotQueued(s'.rows, id) {
      StepKeepsGuardedRow(cfg, s, step, id);
    }
    forall id | Starts(s', id) ensures !Executes(s', id) && !Unsettled(s', id) {
      StepKeepsStartAlone(cfg, s, step, id);
    }
  }

  // ---- every run -----------------------------------------------------------------------------------------

  /** No lease expires under a run that executes, as far as claims and reclaims notice. */
  ghost predicate LeasesOutliveRuns(cfg: Config, s: State, steps: seq<Step>)
    requires Runs(cfg, s, steps)
    decreases |steps|
  {
    steps != [] ==> !LeaseLapses(s, steps[0]) && LeasesOutliveRuns(cfg, Do(cfg, s, steps[0]), steps[1..])
  }

  /** No job is claimed again before its last run has settled. */
  ghost predicate SettledBeforeClaims(cfg: Config, s: State, steps: seq<Step>)
    requires Runs(cfg, s, steps)
    decreases |steps|
  {
    steps != [] ==> !ClaimsUnsettled(s, steps[0]) && SettledBeforeClaims(cfg, Do(cfg, s, steps[0]), steps[1..])
  }

  /** In every run in which leases outlive runs and runs settle before their job is claimed
      again, at most `inFlightLimit` runs, and at most `fairCapacityPerTenant` of one
      tenant, are in progress at once. */
  lemma {:induction false} LiveRunsStayBounded(cfg: Config, s: State, steps: seq<Step>)
    requires Guarded(s) && Bounded(cfg, s) && Runs(cfg, s, steps)
    requires LeasesOutliveRuns(cfg, s, steps) && SettledBeforeClaims(cfg, s, steps)
    ensures WithinLimits(cfg, End(cfg, s, steps))
    decreases |steps|
  {
    if steps == [] {
      FaithfulBoundsLiveRuns(cfg, s);
    } else {
      StepKeepsBounded(cfg, s, steps[0]);
      StepKeepsGuarded(cfg, s, steps[0]);
      LiveRunsStayBounded(cfg, Do(cfg, s, steps[0]), steps[1..]);
    }
  }

  ghost predicate AllSettled(s: State) {
    forall k :: k in s.tasks ==> !s.tasks[k].FailReturned? && !s.tasks[k].Settling?
  }

  /** The loop pauses while a run that has ended is being settled. */
  ghost predicate SettlesAtOnce(cfg: Config, s: State, steps: seq<Step>)
    requires Runs(cfg, s, steps)
    decreases |steps|
  {
    steps != [] ==>
      (steps[0].LoopStep? ==> AllSettled(s)) && SettlesAtOnce(cfg, Do(cfg, s, steps[0]), steps[1..])
  }

  lemma {:induction false} SettlingAtOnceSuffices(cfg: Config, s: State, steps: seq<Step>)
    requires Runs(cfg, s, steps) && SettlesAtOnce(cfg, s, steps)
    ensures SettledBeforeClaims(cfg, s, steps)
    decreases |steps|
  {
    if steps != [] {
      SettlingAtOnceSuffices(cfg, Do(cfg, s, steps[0]), steps[1..]);
    }
  }

  /** So it is enough that leases outlive runs and that the stretches in which a run ends
      are not interleaved with the loop. */
  lemma PromptRunsStayBounded(cfg: Config, s: State, steps: seq<Step>)
    requires Guarded(s) && Bounded(cfg, s) && Runs(cfg, s, steps)
    requires LeasesOutliveRuns(cfg, s, steps) && SettlesAtOnce(cfg, s, steps)
    ensures WithinLimits(cfg, End(cfg, s, steps))
  {
    SettlingAtOnceSuffices(cfg, s, steps);
    LiveRunsStayBounded(cfg, s, steps);
  }
}
