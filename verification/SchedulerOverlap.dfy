/** The running map and the runs that are really in progress: as long as no job is started
    again while its previous run is in progress, the map lists exactly those runs, and the
    limits on its entries bound them. */
module SchedulerOverlap {
  import opened Options
  import opened JobTable
  import opened ReadyQueue
  import opened Scheduler
  import opened SchedulerFrames
  import opened SchedulerShape
  import opened SchedulerProgress
  import opened SchedulerRuns

  /** A run is in progress until its `finally` has been executed. */
  predicate InProgress(task: Task) {
    task.Executing? || task.FailReturned? || task.Settling?
  }

  function LiveRuns(s: State): set<nat> {
    set k | k in s.tasks && InProgress(s.tasks[k])
  }

  /** The job that task `k` runs, if it is a run in progress. */
  function RunJob(s: State, k: nat): Option<JobId> {
    if k in s.tasks && InProgress(s.tasks[k]) then Some(s.tasks[k].job.id) else None
  }

  /** Every run in progress has its own entry in the running map, and no entry is left over. */
  ghost predicate Faithful(s: State) {
    && (forall k, l :: RunJob(s, k).Some? && RunJob(s, l).Some? && k != l ==> RunJob(s, k) != RunJob(s, l))
    && (forall k :: RunJob(s, k).Some? ==> RunJob(s, k).value in s.running)
    && (forall id :: id in s.running ==> exists k :: RunJob(s, k) == Some(id))
  }

  /** The step starts a run of a job whose previous run is still in progress. */
  ghost predicate Overlaps(s: State, step: Step) {
    step.LoopStep? && s.loop.Claimed? && s.loop.got.Some? && s.loop.got.value.id in s.running
  }

  lemma {:induction false} DistinctRunsCount(s: State, runs: set<nat>, ids: set<JobId>)
    requires forall k :: k in runs ==> RunJob(s, k).Some? && RunJob(s, k).value in ids
    requires forall k, l :: k in runs && l in runs && k != l ==> RunJob(s, k) != RunJob(s, l)
    ensures |runs| <= |ids|
    decreases |runs|
  {
    if runs != {} {
      var k :| k in runs;
      DistinctRunsCount(s, runs - {k}, ids - {RunJob(s, k).value});
    }
  }

  /** The runs in progress of one tenant. */
  function LiveRunsOf(s: State, t: TenantId): set<nat> {
    set k | k in s.tasks && InProgress(s.tasks[k]) && s.tasks[k].job.spec.tenantId == t
  }

  ghost predicate RunningKnown(s: State) {
    forall id :: id in s.running ==> id in s.catalog && s.running[id] == s.catalog[id].tenantId
  }

  ghost predicate WithinLimits(cfg: Config, s: State) {
    |LiveRuns(s)| <= cfg.inFlightLimit && forall t :: |LiveRunsOf(s, t)| <= cfg.fairCapacityPerTenant
  }

  lemma LiveRunsOfTenant(s: State, t: TenantId)
    requires Shape(s) && Faithful(s) && RunningKnown(s)
    ensures |LiveRunsOf(s, t)| <= InFlight(s.running, t)
  {
    forall k | k in LiveRunsOf(s, t)
      ensures RunJob(s, k).Some? && RunJob(s, k).value in RunningOf(s.running, t)
    {
      assert TaskKnown(s.catalog, s.tasks[k]) && RunJob(s, k).Some?;
    }
    DistinctRunsCount(s, LiveRunsOf(s, t), RunningOf(s.running, t));
  }

  /** While the map is faithful, the limits bound the runs in progress. */
  lemma FaithfulBoundsLiveRuns(cfg: Config, s: State)
    requires Shape(s) && Faithful(s) && RunningKnown(s) && Bounded(cfg, s)
    ensures WithinLimits(cfg, s)
  {
    assert forall k :: k in LiveRuns(s) ==> RunJob(s, k).Some?;
    DistinctRunsCount(s, LiveRuns(s), s.running.Keys);
    forall t ensures |LiveRunsOf(s, t)| <= cfg.fairCapacityPerTenant {
      LiveRunsOfTenant(s, t);
      assert InFlight(s.running, t) <= cfg.fairCapacityPerTenant;
    }
  }

  ghost predicate SameRuns(s: State, s': State) {
    s'.running == s.running && forall k :: RunJob(s', k) == RunJob(s, k)
  }

  lemma SameRunsStayFaithful(s: State, s': State)
    requires Faithful(s) && SameRuns(s, s')
    ensures Faithful(s')
  {
    forall id | id in s'.running
      ensures exists k :: RunJob(s', k) == Some(id)
    {
      var k :| RunJob(s, k) == Some(id);
      assert RunJob(s', k) == Some(id);
    }
  }

  lemma StartStaysFaithful(s: State, s': State, key: nat, id: JobId, t: TenantId)
    requires Faithful(s) && RunJob(s, key).None? && id !in s.running
    requires s'.running == s.running[id := t] && RunJob(s', key) == Some(id)
    requires forall k :: k != key ==> RunJob(s', k) == RunJob(s, k)
    ensures Faithful(s')
  {
    forall other | other in s'.running
      ensures exists k :: RunJob(s', k) == Some(other)
    {
      if other != id {
        var k :| RunJob(s, k) == Some(other);
        assert RunJob(s', k) == Some(other);
      }
    }
  }

  lemma StopStaysFaithful(s: State, s': State, key: nat, id: JobId)
    requires Faithful(s) && RunJob(s, key) == Some(id) && s'.running == s.running - {id}
    requires RunJob(s', key).None? && forall k :: k != key ==> RunJob(s', k) == RunJob(s, k)
    ensures Faithful(s')
  {
    forall other | other in s'.running
      ensures exists k :: RunJob(s', k) == Some(other)
    {
      var k :| RunJob(s, k) == Some(other);
      assert RunJob(s', k) == Some(other);
    }
  }

  lemma SettledStaysFaithful(s: State, key: nat, s': State)
    requires Faithful(s) && key in s.tasks && s.tasks[key].Settling? && SettledFramed(s, key, s')
    ensures Faithful(s')
  {
    StopStaysFaithful(s, s', key, s.tasks[key].job.id);
  }

  lemma SettleStaysFaithful(cfg: Config, s: State, key: nat, peeked: seq<Job>)
    requires Faithful(s) && Wf(s.ready) && key in s.tasks && s.tasks[key].Settling?
    ensures Faithful(OnResume(cfg, s, key, peeked))
  {
    SettleFrame(cfg, s, key, peeked);
    SettledStaysFaithful(s, key, OnResume(cfg, s, key, peeked));
  }

  lemma AwaitKeepsRunKind(cfg: Config, s: State, task: Task, peeked: seq<Job>)
    requires !task.Executing? && !task.Settling? && Wf(s.ready)
    ensures var next := AfterAwait(cfg, s, task, peeked).next;
            if InProgress(task) then next.Some? && InProgress(next.value) && next.value.job.id == task.job.id
            else next.Some? ==> !InProgress(next.value)
  {
    match task
    case FailReturned(job, next) => assert AfterFail(s, job, next).next.value.job == job;
    case EnqueueReady(job, _) =>
    case EnqueueInit(_, _) =>
    case EnqueueStored(_) =>
    case CancelStored(_) =>
    case RetryTimer(_) =>
    case AlarmInit(_) =>
    case AlarmDue =>
    case AlarmReclaimed(_, _) =>
    case AlarmRebuild(_, _) =>
    case AlarmSwept =>
    case AlarmBackstop(_) =>
  }

  lemma ResumeStaysFaithful(cfg: Config, s: State, key: nat, peeked: seq<Job>)
    requires Shape(s) && Faithful(s) && Enabled(cfg, s, Resume(key, peeked)) && !s.tasks[key].Settling?
    ensures Faithful(OnResume(cfg, s, key, peeked))
  {
    var task := s.tasks[key];
    var o := AfterAwait(cfg, s, task, peeked);
    AwaitKeepsRunKind(cfg, s, task, peeked);
    AwaitKeepsTasks(cfg, s, task, peeked);
    AwaitKeepsRuns(cfg, s, task, peeked);
    LeaveKeepsTasks(o, key);
    SameRunsStayFaithful(s, Leave(o, key));
  }

  lemma RunEndsStaysFaithful(cfg: Config, s: State, key: nat, end: RunEnd)
    requires Shape(s) && Faithful(s) && Enabled(cfg, s, RunEnds(key, end))
    ensures Faithful(OnRunEnds(cfg, s, key, end))
  {
    var s' := OnRunEnds(cfg, s, key, end);
    assert s'.tasks == s.tasks[key := s'.tasks[key]];
    SameRunsStayFaithful(s, s');
  }

  lemma CallKeepsRunJobs(s: State, s': State)
    requires CallFramed(s, s')
    ensures SameRuns(s, s')
  {
  }

  lemma CallStaysFaithful(cfg: Config, s: State, step: Step)
    requires Wf(s.ready) && Faithful(s) && Enabled(cfg, s, step) && Calls(step)
    ensures Faithful(Do(cfg, s, step))
  {
    CallFrame(cfg, s, step);
    CallKeepsRunJobs(s, Do(cfg, s, step));
    SameRunsStayFaithful(s, Do(cfg, s, step));
  }

  lemma LoopStaysFaithful(cfg: Config, s: State, key: nat)
    requires Shape(s) && Faithful(s) && Enabled(cfg, s, LoopStep(key)) && !Overlaps(s, LoopStep(key))
    ensures Faithful(Do(cfg, s, LoopStep(key)))
  {
    match s.loop
    case AtHead => SameRunsStayFaithful(s, LoopHead(cfg, s));
    case Claiming(_, _) => SameRunsStayFaithful(s, LoopClaim(cfg, s));
    case Expiring(_) => SameRunsStayFaithful(s, LoopExpire(s));
    case Claimed(_) => StartFaithful(s, key);
  }

  lemma StartFaithful(s: State, key: nat)
    requires Faithful(s) && s.loop.Claimed? && key !in s.tasks && !Overlaps(s, LoopStep(key))
    ensures Faithful(LoopStart(s, key))
  {
    var s' := LoopStart(s, key);
    if s.loop.got.Some? {
      StartStaysFaithful(s, s', key, s.loop.got.value.id, s.loop.got.value.spec.tenantId);
    } else {
      SameRunsStayFaithful(s, s');
    }
  }

  /** As long as no job is started again while its previous run is in progress, the
      running map lists exactly the runs in progress. */
  lemma StepStaysFaithful(cfg: Config, s: State, step: Step)
    requires Shape(s) && Faithful(s) && Enabled(cfg, s, step) && !Overlaps(s, step)
    ensures Faithful(Do(cfg, s, step))
  {
    match step
    case Crash => assert forall k :: RunJob(OnCrash(s), k).None?;
    case Resume(key, peeked) =>
      if s.tasks[key].Settling? {
        SettleStaysFaithful(cfg, s, key, peeked);
      } else {
        ResumeStaysFaithful(cfg, s, key, peeked);
      }
    case LoopStep(key) => LoopStaysFaithful(cfg, s, key);
    case RunEnds(key, end) => RunEndsStaysFaithful(cfg, s, key, end);
    case _ => CallStaysFaithful(cfg, s, step);
  }

  lemma ResumeKeepsRunningKnown(cfg: Config, s: State, key: nat, peeked: seq<Job>)
    requires Wf(s.ready) && RunningKnown(s) && Enabled(cfg, s, Resume(key, peeked))
    ensures RunningKnown(OnResume(cfg, s, key, peeked))
  {
    var task := s.tasks[key];
    var o := AfterAwait(cfg, s, task, peeked);
    AwaitKeepsFrame(cfg, s, task, peeked);
    LeaveKeepsTasks(o, key);
    if task.Settling? {
      assert o.state.running == s.running - {task.job.id};
    } else {
      AwaitKeepsRuns(cfg, s, task, peeked);
    }
  }

  lemma FramedKeepsRunningKnown(s: State, key: nat, s': State)
    requires Shape(s) && RunningKnown(s) && LoopFramed(s, key, s')
    ensures RunningKnown(s')
  {
  }

  lemma LoopKeepsRunningKnown(cfg: Config, s: State, key: nat)
    requires Shape(s) && RunningKnown(s) && Enabled(cfg, s, LoopStep(key))
    ensures RunningKnown(Do(cfg, s, LoopStep(key)))
  {
    LoopFrame(cfg, s, key);
    FramedKeepsRunningKnown(s, key, Do(cfg, s, LoopStep(key)));
  }

  lemma StepKeepsRunningKnown(cfg: Config, s: State, step: Step)
    requires Shape(s) && RunningKnown(s) && Enabled(cfg, s, step)
    ensures RunningKnown(Do(cfg, s, step))
  {
    match step
    case Resume(key, peeked) => ResumeKeepsRunningKnown(cfg, s, key, peeked);
    case LoopStep(key) => LoopKeepsRunningKnown(cfg, s, key);
    case _ =>
  }
}
