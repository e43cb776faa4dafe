/** Retry delays and leftover copies. A job whose run has failed can be claimed again before
    that run has settled only through a copy of the job that is still around: one left over,
    one that a rebuild has just peeked, or the one a retry without delay puts back at once. */
module SchedulerCopies {
  import opened Options
  import opened JobTable
  import opened ReadyQueue
  import opened Scheduler
  import opened SchedulerFrames
  import opened SchedulerShape
  import opened SchedulerDurability
  import opened SchedulerProgress
  import opened SchedulerRuns
  import opened SchedulerLeases

  /** The continuation holds a copy of the job. */
  ghost predicate Carries(task: Task, id: JobId) {
    match task
    case EnqueueInit(job, snapshot) => job.id == id || Among(snapshot, id)
    case EnqueueReady(job, _) => job.id == id
    case EnqueueStored(job) => job.id == id
    case AlarmInit(snapshot) => Among(snapshot, id)
    case AlarmDue => false
    case AlarmReclaimed(_, _) => false
    case AlarmRebuild(snapshot, _) => Among(snapshot, id)
    case AlarmSwept => false
    case AlarmBackstop(snapshot) => Among(snapshot, id)
    case CancelStored(_) => false
    case Executing(job) => job.id == id
    case FailReturned(job, _) => job.id == id
    case Settling(job, retry) => job.id == id || (retry.Some? && retry.value.id == id)
    case RetryTimer(job) => job.id == id
  }

  ghost predicate LoopCarries(loop: Loop, id: JobId) {
    match loop
    case Claiming(job, _) => job.id == id
    case Claimed(got) => got.Some? && got.value.id == id
    case Expiring(job) => job.id == id
    case _ => false
  }

  /** Somebody other than the run `key` holds a copy of the job. */
  ghost predicate Copied(s: State, id: JobId, key: nat) {
    || Holds(s.ready, id) || LoopCarries(s.loop, id)
    || exists k :: k in s.tasks && k != key && Carries(s.tasks[k], id)
  }

  /** The run of the job has ended, has not settled, and retries with a delay if at all. */
  predicate RetriesLater(task: Task, id: JobId) {
    match task
    case FailReturned(job, next) =>
      job.id == id && (next == Queued ==> RetryDelay(job.spec.retry, job.retryCount) > 0)
    case Settling(job, _) => job.id == id
    case _ => false
  }

  // ---- the ready set gains no copy ------------------------------------------------------------

  lemma PushHolds(r: Ready, job: Job, id: JobId)
    requires Wf(r) && !Holds(r, id) && job.id != id
    ensures !Holds(Push(r, job), id)
  {
    PushWf(r, job);
    forall j | Contains(Push(r, job), j) ensures j.id != id {
      assert Contains(r, j) || j == job;
    }
  }

  lemma PushAllHolds(r: Ready, jobs: seq<Job>, id: JobId)
    requires Wf(r) && !Holds(r, id) && !Among(jobs, id)
    ensures !Holds(PushAll(r, jobs), id)
  {
    PushAllWf(r, jobs);
  }

  lemma TakeHolds(r: Ready, running: Running, cap: int, id: JobId)
    requires Wf(r) && !Holds(r, id)
    ensures var (rest, taken) := Take(r, running, cap);
            !Holds(rest, id) && (taken.Some? ==> taken.value.id != id)
  {
    TakeContains(r, running, cap);
    var (rest, taken) := Take(r, running, cap);
    if taken.Some? {
      assert Contains(r, taken.value);
    }
  }

  // ---- a continuation makes no copy -------------------------------------------------------------

  /** What a continuation leaves behind has no copy of the job. */
  ghost predicate Clean(s: State, o: Outcome, id: JobId) {
    && !Holds(o.state.ready, id) && !LoopCarries(o.state.loop, id)
    && (o.next.Some? ==> !Carries(o.next.value, id))
  }

  lemma EnqueueIsClean(cfg: Config, s: State, task: Task, id: JobId)
    requires Shape(s) && !Holds(s.ready, id) && !LoopCarries(s.loop, id) && !Carries(task, id)
    requires task.EnqueueInit? || task.EnqueueStored? || task.RetryTimer? || task.CancelStored?
    ensures Clean(s, AfterAwait(cfg, s, task, []), id)
  {
    match task
    case EnqueueInit(_, snapshot) => PushAllHolds(s.ready, snapshot, id);
    case EnqueueStored(job) => PushHolds(s.ready, job, id);
    case RetryTimer(job) => PushHolds(s.ready, job, id);
    case CancelStored(cancelled) => DropWf(s.ready, cancelled);
  }

  lemma ReadyIsClean(cfg: Config, s: State, job: Job, id: JobId)
    requires Shape(s) && !Holds(s.ready, id) && !LoopCarries(s.loop, id) && job.id != id
    ensures Clean(s, AfterReady(cfg, s, job), id)
  {
  }

  lemma AlarmIsClean(cfg: Config, s: State, task: Task, peeked: seq<Job>, id: JobId)
    requires Shape(s) && !Holds(s.ready, id) && !LoopCarries(s.loop, id) && !Carries(task, id)
    requires task.AlarmInit? || task.AlarmRebuild? || task.AlarmBackstop?
    ensures Clean(s, AfterAwait(cfg, s, task, peeked), id)
  {
    PushAllHolds(s.ready, task.snapshot, id);
  }

  lemma QuietAlarmIsClean(cfg: Config, s: State, task: Task, peeked: seq<Job>, id: JobId)
    requires Shape(s) && !Holds(s.ready, id) && !LoopCarries(s.loop, id)
    requires task.AlarmDue? || (task.AlarmReclaimed? && !task.any) || (task.AlarmSwept? && Saturated(cfg, s))
    ensures Clean(s, AfterAwait(cfg, s, task, peeked), id)
  {
  }

  lemma FailIsClean(s: State, job: Job, next: Status, id: JobId)
    requires Shape(s) && !Holds(s.ready, id) && !LoopCarries(s.loop, id) && job.id != id
    ensures Clean(s, AfterFail(s, job, next), id)
  {
    PushHolds(s.ready, job.(retryCount := job.retryCount + 1), id);
  }

  lemma SettleIsClean(cfg: Config, s: State, job: Job, retry: Option<Job>, id: JobId)
    requires Shape(s) && !Holds(s.ready, id) && !LoopCarries(s.loop, id)
    requires retry.Some? ==> retry.value.id != id
    ensures Clean(s, AfterSettle(cfg, s, job, retry), id)
  {
  }

  lemma AwaitIsClean(cfg: Config, s: State, key: nat, peeked: seq<Job>, id: JobId)
    requires Shape(s) && !Holds(s.ready, id) && !LoopCarries(s.loop, id)
    requires Enabled(cfg, s, Resume(key, peeked)) && !Peeks(cfg, s, Resume(key, peeked)) && !Carries(s.tasks[key], id)
    ensures Clean(s, AfterAwait(cfg, s, s.tasks[key], peeked), id)
  {
    var task := s.tasks[key];
    match task
    case EnqueueInit(_, _) => EnqueueIsClean(cfg, s, task, id);
    case EnqueueStored(_) => EnqueueIsClean(cfg, s, task, id);
    case RetryTimer(_) => EnqueueIsClean(cfg, s, task, id);
    case CancelStored(_) => EnqueueIsClean(cfg, s, task, id);
    case EnqueueReady(job, _) => ReadyIsClean(cfg, s, job, id);
    case AlarmInit(_) => AlarmIsClean(cfg, s, task, peeked, id);
    case AlarmRebuild(_, _) => AlarmIsClean(cfg, s, task, peeked, id);
    case AlarmBackstop(_) => AlarmIsClean(cfg, s, task, peeked, id);
    case AlarmDue => QuietAlarmIsClean(cfg, s, task, peeked, id);
    case AlarmReclaimed(_, _) => QuietAlarmIsClean(cfg, s, task, peeked, id);
    case AlarmSwept => QuietAlarmIsClean(cfg, s, task, peeked, id);
    case FailReturned(job, next) => FailIsClean(s, job, next, id);
    case Settling(job, retry) => SettleIsClean(cfg, s, job, retry, id);
  }

  // ---- a step makes no copy -------------------------------------------------------------------------

  lemma OthersCarryNot(s: State, s': State, id: JobId, key: nat)
    requires !Copied(s, id, key) && !Holds(s'.ready, id) && !LoopCarries(s'.loop, id)
    requires forall k :: k in s'.tasks && k != key ==>
               (k in s.tasks && s.tasks[k] == s'.tasks[k]) || !Carries(s'.tasks[k], id)
    ensures !Copied(s', id, key)
  {
  }

  lemma OtherResumeAddsNoCopy(cfg: Config, s: State, other: nat, peeked: seq<Job>, id: JobId, key: nat)
    requires Shape(s) && !Copied(s, id, key) && other != key
    requires Enabled(cfg, s, Resume(other, peeked)) && !Peeks(cfg, s, Resume(other, peeked))
    ensures !Copied(OnResume(cfg, s, other, peeked), id, key)
    ensures key in s.tasks ==>
              key in OnResume(cfg, s, other, peeked).tasks && OnResume(cfg, s, other, peeked).tasks[key] == s.tasks[key]
  {
    var o := AfterAwait(cfg, s, s.tasks[other], peeked);
    AwaitIsClean(cfg, s, other, peeked, id);
    AwaitKeepsTasks(cfg, s, s.tasks[other], peeked);
    LeaveKeepsTasks(o, other);
    OthersCarryNot(s, Leave(o, other), id, key);
  }

  lemma FailWaits(cfg: Config, s: State, key: nat, peeked: seq<Job>, id: JobId)
    requires Shape(s) && !Copied(s, id, key) && Enabled(cfg, s, Resume(key, peeked))
    requires s.tasks[key].FailReturned? && RetriesLater(s.tasks[key], id)
    ensures var s' := OnResume(cfg, s, key, peeked);
            !Copied(s', id, key) && key in s'.tasks && RetriesLater(s'.tasks[key], id)
  {
    var job, next := s.tasks[key].job, s.tasks[key].next;
    var o := AfterFail(s, job, next);
    assert o.state == s && o.next.value.Settling? && o.next.value.job == job;
    LeaveKeepsTasks(o, key);
    OthersCarryNot(s, Leave(o, key), id, key);
  }

  lemma LoopHeadIsClean(cfg: Config, s: State, id: JobId)
    requires Wf(s.ready) && s.loop.AtHead? && !Holds(s.ready, id)
    ensures !Holds(LoopHead(cfg, s).ready, id) && !LoopCarries(LoopHead(cfg, s).loop, id)
  {
    TakeHolds(s.ready, s.running, cfg.fairCapacityPerTenant, id);
  }

  lemma ClaimIsClean(cfg: Config, s: State, id: JobId)
    requires s.loop.Claiming? && !Holds(s.ready, id) && s.loop.job.id != id
    ensures !Holds(LoopClaim(cfg, s).ready, id) && !LoopCarries(LoopClaim(cfg, s).loop, id)
  {
  }

  lemma LoopIsClean(cfg: Config, s: State, newKey: nat, id: JobId)
    requires Wf(s.ready) && Enabled(cfg, s, LoopStep(newKey)) && !Holds(s.ready, id) && !LoopCarries(s.loop, id)
    ensures var s' := Do(cfg, s, LoopStep(newKey)); !Holds(s'.ready, id) && !LoopCarries(s'.loop, id)
  {
    match s.loop
    case AtHead => LoopHeadIsClean(cfg, s, id);
    case Claiming(_, _) => ClaimIsClean(cfg, s, id);
    case Claimed(_) => assert LoopStart(s, newKey).loop == AtHead && LoopStart(s, newKey).ready == s.ready;
    case Expiring(_) => assert LoopExpire(s).loop == AtHead && LoopExpire(s).ready == s.ready;
  }

  lemma LoopAddsNoCopy(cfg: Config, s: State, newKey: nat, id: JobId, key: nat)
    requires Shape(s) && !Copied(s, id, key) && Enabled(cfg, s, LoopStep(newKey))
    ensures !Copied(Do(cfg, s, LoopStep(newKey)), id, key)
  {
    LoopTasks(cfg, s, newKey);
    LoopIsClean(cfg, s, newKey, id);
    OthersCarryNot(s, Do(cfg, s, LoopStep(newKey)), id, key);
  }

  lemma EndAddsNoCopy(cfg: Config, s: State, other: nat, end: RunEnd, id: JobId, key: nat)
    requires Shape(s) && !Copied(s, id, key) && other != key && Enabled(cfg, s, RunEnds(other, end))
    ensures !Copied(OnRunEnds(cfg, s, other, end), id, key)
  {
    assert !Carries(s.tasks[other], id);
    RunEndFrame(cfg, s, other, end);
    assert !Carries(AfterEnd(s, s.tasks[other].job, end), id);
    OthersCarryNot(s, OnRunEnds(cfg, s, other, end), id, key);
  }

  lemma CancelTenantAddsNoCopy(s: State, t: TenantId, active: seq<JobId>, id: JobId, key: nat)
    requires Shape(s) && !Copied(s, id, key)
    ensures !Copied(OnCancelTenant(s, t, active), id, key)
  {
    RemoveTenantWf(s.ready, t);
    forall j | Contains(RemoveTenant(s.ready, t), j) ensures j.id != id {
      assert Contains(s.ready, j);
    }
    OthersCarryNot(s, OnCancelTenant(s, t, active), id, key);
  }

  lemma NewTaskAddsNoCopy(s: State, s': State, newKey: nat, task: Task, id: JobId, key: nat)
    requires !Copied(s, id, key) && !Carries(task, id)
    requires s'.ready == s.ready && s'.loop == s.loop && s'.tasks == s.tasks[newKey := task]
    ensures !Copied(s', id, key)
  {
    OthersCarryNot(s, s', id, key);
  }

  lemma EnqueueAddsNoCopy(s: State, newKey: nat, newId: JobId, spec: Spec, peeked: seq<Job>, id: JobId, key: nat)
    requires !Copied(s, id, key) && s.initialized && newId != id
    ensures !Copied(OnEnqueue(s, newKey, newId, spec, peeked), id, key)
  {
    NewTaskAddsNoCopy(s, OnEnqueue(s, newKey, newId, spec, peeked), newKey, EnqueueReady(Job(newId, spec, 0), false),
                      id, key);
  }

  lemma CancelAddsNoCopy(s: State, newKey: nat, other: JobId, id: JobId, key: nat)
    requires !Copied(s, id, key)
    ensures !Copied(OnCancel(s, newKey, other), id, key)
  {
    if Cancellable(s.rows, other) {
      NewTaskAddsNoCopy(s, OnCancel(s, newKey, other), newKey, CancelStored(other), id, key);
    }
  }

  lemma CallAddsNoCopy(cfg: Config, s: State, step: Step, id: JobId, key: nat)
    requires Shape(s) && !Copied(s, id, key) && id in s.catalog && Enabled(cfg, s, step) && !Peeks(cfg, s, step)
    requires Calls(step)
    ensures !Copied(Do(cfg, s, step), id, key)
  {
    match step
    case Tick(_) =>
    case EnqueueCall(newKey, newId, spec, peeked) => EnqueueAddsNoCopy(s, newKey, newId, spec, peeked, id, key);
    case AlarmCall(newKey, peeked) =>
      NewTaskAddsNoCopy(s, OnAlarm(s, newKey, peeked), newKey, AlarmDue, id, key);
    case CancelCall(newKey, other) => CancelAddsNoCopy(s, newKey, other, id, key);
    case CancelTenantCall(t, active) => CancelTenantAddsNoCopy(s, t, active, id, key);
  }

  /** The run has ended, waits for its `finally`, and nobody else has a copy of its job. */
  ghost predicate WaitsAlone(s: State, id: JobId, key: nat) {
    && Shape(s) && id in s.catalog && key in s.tasks && RetriesLater(s.tasks[key], id) && !Copied(s, id, key)
  }

  lemma ResumeAddsNoCopy(cfg: Config, s: State, other: nat, peeked: seq<Job>, id: JobId, key: nat)
    requires WaitsAlone(s, id, key) && Enabled(cfg, s, Resume(other, peeked)) && !Peeks(cfg, s, Resume(other, peeked))
    requires InProgressAt(OnResume(cfg, s, other, peeked), key)
    ensures !Copied(OnResume(cfg, s, other, peeked), id, key)
    ensures RetriesLater(OnResume(cfg, s, other, peeked).tasks[key], id)
  {
    if other != key {
      OtherResumeAddsNoCopy(cfg, s, other, peeked, id, key);
    } else if s.tasks[key].FailReturned? {
      FailWaits(cfg, s, key, peeked, id);
    } else {
      SettlingEnds(cfg, s, key, peeked);
    }
  }

  lemma LoopKeepsWaiting(cfg: Config, s: State, newKey: nat, id: JobId, key: nat)
    requires WaitsAlone(s, id, key) && Enabled(cfg, s, LoopStep(newKey))
    ensures var s' := Do(cfg, s, LoopStep(newKey));
            !Copied(s', id, key) && key in s'.tasks && s'.tasks[key] == s.tasks[key]
  {
    LoopAddsNoCopy(cfg, s, newKey, id, key);
    LoopFrame(cfg, s, newKey);
  }

  lemma EndKeepsWaiting(cfg: Config, s: State, other: nat, end: RunEnd, id: JobId, key: nat)
    requires WaitsAlone(s, id, key) && Enabled(cfg, s, RunEnds(other, end))
    ensures var s' := OnRunEnds(cfg, s, other, end);
            !Copied(s', id, key) && key in s'.tasks && s'.tasks[key] == s.tasks[key]
  {
    EndAddsNoCopy(cfg, s, other, end, id, key);
    RunEndFrame(cfg, s, other, end);
  }

  lemma CallKeepsWaiting(cfg: Config, s: State, step: Step, id: JobId, key: nat)
    requires WaitsAlone(s, id, key) && Enabled(cfg, s, step) && !Peeks(cfg, s, step) && Calls(step)
    ensures var s' := Do(cfg, s, step);
            !Copied(s', id, key) && key in s'.tasks && s'.tasks[key] == s.tasks[key]
  {
    CallAddsNoCopy(cfg, s, step, id, key);
    CallFrame(cfg, s, step);
  }

  lemma StepAddsNoCopy(cfg: Config, s: State, step: Step, id: JobId, key: nat)
    requires WaitsAlone(s, id, key) && Enabled(cfg, s, step) && !Peeks(cfg, s, step)
    requires InProgressAt(Do(cfg, s, step), key)
    ensures !Copied(Do(cfg, s, step), id, key) && RetriesLater(Do(cfg, s, step).tasks[key], id)
  {
    match step
    case Resume(other, peeked) => ResumeAddsNoCopy(cfg, s, other, peeked, id, key);
    case LoopStep(newKey) => LoopKeepsWaiting(cfg, s, newKey, id, key);
    case RunEnds(other, end) => EndKeepsWaiting(cfg, s, other, end, id, key);
    case Crash =>
    case _ => CallKeepsWaiting(cfg, s, step, id, key);
  }

  predicate InProgressAt(s: State, key: nat) {
    key in s.tasks && (s.tasks[key].FailReturned? || s.tasks[key].Settling?)
  }

  lemma SettlingEnds(cfg: Config, s: State, key: nat, peeked: seq<Job>)
    requires Wf(s.ready) && Enabled(cfg, s, Resume(key, peeked)) && s.tasks[key].Settling?
    ensures !InProgressAt(OnResume(cfg, s, key, peeked), key)
  {
    SettleFrame(cfg, s, key, peeked);
  }

  lemma StepKeepsWaiting(cfg: Config, s: State, step: Step, id: JobId, key: nat)
    requires WaitsAlone(s, id, key) && Enabled(cfg, s, step) && !Peeks(cfg, s, step)
    requires InProgressAt(Do(cfg, s, step), key)
    ensures WaitsAlone(Do(cfg, s, step), id, key)
  {
    StepAddsNoCopy(cfg, s, step, id, key);
    StepKeepsShape(cfg, s, step);
    if !step.EnqueueCall? {
      StepAddsNoEnqueue(cfg, s, step);
    }
  }

  /** The run does not settle along these steps, and nobody starts a rebuild. */
  ghost predicate StaysUnsettled(cfg: Config, s: State, steps: seq<Step>, key: nat)
    requires Runs(cfg, s, steps)
    decreases |steps|
  {
    steps != [] ==>
      && !Peeks(cfg, s, steps[0]) && InProgressAt(Do(cfg, s, steps[0]), key)
      && StaysUnsettled(cfg, Do(cfg, s, steps[0]), steps[1..], key)
  }

  /** A job that fails with no copy of it left over, and is to be retried with a delay, is
      not claimed again before its run has settled, unless a rebuild peeks meanwhile. */
  lemma {:induction false} DelayedRetryWaits(cfg: Config, s: State, steps: seq<Step>, id: JobId, key: nat)
    requires WaitsAlone(s, id, key) && Runs(cfg, s, steps) && StaysUnsettled(cfg, s, steps, key)
    ensures WaitsAlone(End(cfg, s, steps), id, key)
    ensures var end := End(cfg, s, steps); end.loop.Claiming? ==> end.loop.job.id != id
    decreases |steps|
  {
    if steps != [] {
      StepKeepsWaiting(cfg, s, steps[0], id, key);
      DelayedRetryWaits(cfg, Do(cfg, s, steps[0]), steps[1..], id, key);
    }
  }
}
