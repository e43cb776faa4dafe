/** What the steps of the scheduler leave alone. */
module SchedulerFrames {
  import opened Options
  import opened JobTable
  import opened ReadyQueue
  import opened Scheduler

  // ---- a step of the loop ----------------------------------------------------------------

  /** The job that the next step of the loop starts. */
  function Starting(s: State): Option<Job> {
    if s.loop.Claimed? then s.loop.got else None
  }

  /** Only a claimed job gets a task and an entry in the running map, and only the head of
      the loop reads the clock. */
  ghost predicate LoopFramed(s: State, key: nat, s': State) {
    && s' == s.(ready := s'.ready, rows := s'.rows, loop := s'.loop, tasks := s'.tasks, running := s'.running)
    && s'.tasks == (if Starting(s).Some? then s.tasks[key := Executing(Starting(s).value)] else s.tasks)
    && s'.running == (if Starting(s).Some? then s.running[Starting(s).value.id := Starting(s).value.spec.tenantId]
                      else s.running)
    && (s'.loop.Claiming? ==> s'.loop.at == s.now)
    && (s'.loop.Claimed? ==> s.loop.Claiming?)
  }

  lemma DecideReadsClock(cfg: Config, r: Ready, running: Running, now: int)
    requires Wf(r)
    ensures var (_, loop) := Decide(cfg, r, running, now);
            !loop.Claimed? && (loop.Claiming? ==> loop.at == now)
  {
  }

  lemma DecisionFramed(s: State, key: nat, ready: Ready, loop: Loop)
    requires s.loop.AtHead? && !loop.Claimed? && (loop.Claiming? ==> loop.at == s.now)
    ensures LoopFramed(s, key, s.(ready := ready, loop := loop))
  {
  }

  lemma HeadFramed(cfg: Config, s: State, key: nat)
    requires Wf(s.ready) && s.loop.AtHead?
    ensures LoopFramed(s, key, LoopHead(cfg, s))
  {
    DecideReadsClock(cfg, s.ready, s.running, s.now);
    DecisionFramed(s, key, LoopHead(cfg, s).ready, LoopHead(cfg, s).loop);
  }

  lemma ClaimFramed(cfg: Config, s: State, key: nat)
    requires s.loop.Claiming?
    ensures LoopFramed(s, key, LoopClaim(cfg, s))
  {
  }

  lemma StartFramed(s: State, key: nat)
    requires s.loop.Claimed?
    ensures LoopFramed(s, key, LoopStart(s, key))
  {
  }

  lemma ExpireFramed(s: State, key: nat)
    requires s.loop.Expiring?
    ensures LoopFramed(s, key, LoopExpire(s))
  {
  }

  lemma LoopFrame(cfg: Config, s: State, key: nat)
    requires Wf(s.ready) && Enabled(cfg, s, LoopStep(key))
    ensures LoopFramed(s, key, Do(cfg, s, LoopStep(key)))
  {
    match s.loop
    case AtHead => HeadFramed(cfg, s, key);
    case Claiming(_, _) => ClaimFramed(cfg, s, key);
    case Claimed(_) => StartFramed(s, key);
    case Expiring(_) => ExpireFramed(s, key);
  }

  // ---- a call from outside -----------------------------------------------------------------

  /** The first continuation of a call. */
  predicate IsCall(task: Task) {
    task.EnqueueInit? || task.EnqueueReady? || task.AlarmInit? || task.AlarmDue? || task.CancelStored?
  }

  ghost predicate CallFramed(s: State, s': State) {
    && s'.running == s.running && s'.loop == s.loop && s'.now >= s.now
    && (forall k :: k in s.tasks ==> k in s'.tasks && s'.tasks[k] == s.tasks[k])
    && (forall k :: k in s'.tasks ==> (k in s.tasks && s'.tasks[k] == s.tasks[k]) || IsCall(s'.tasks[k]))
  }

  lemma AddedTaskFramed(s: State, s': State, key: nat, task: Task)
    requires key !in s.tasks && IsCall(task) && s'.tasks == s.tasks[key := task]
    requires s'.running == s.running && s'.loop == s.loop && s'.now == s.now
    ensures CallFramed(s, s')
  {
  }

  lemma EnqueueFramed(s: State, key: nat, id: JobId, spec: Spec, peeked: seq<Job>)
    requires key !in s.tasks
    ensures CallFramed(s, OnEnqueue(s, key, id, spec, peeked))
  {
    AddedTaskFramed(s, OnEnqueue(s, key, id, spec, peeked), key,
                    if s.initialized then EnqueueReady(Job(id, spec, 0), false)
                    else EnqueueInit(Job(id, spec, 0), peeked));
  }

  lemma AlarmFramed(s: State, key: nat, peeked: seq<Job>)
    requires key !in s.tasks
    ensures CallFramed(s, OnAlarm(s, key, peeked))
  {
    AddedTaskFramed(s, OnAlarm(s, key, peeked), key, if s.initialized then AlarmDue else AlarmInit(peeked));
  }

  lemma CancelFramed(s: State, key: nat, id: JobId)
    requires key !in s.tasks
    ensures CallFramed(s, OnCancel(s, key, id))
  {
    if Cancellable(s.rows, id) {
      AddedTaskFramed(s, OnCancel(s, key, id), key, CancelStored(id));
    }
  }

  predicate Calls(step: Step) {
    step.Tick? || step.EnqueueCall? || step.AlarmCall? || step.CancelCall? || step.CancelTenantCall?
  }

  lemma CallFrame(cfg: Config, s: State, step: Step)
    requires Wf(s.ready) && Enabled(cfg, s, step) && Calls(step)
    ensures CallFramed(s, Do(cfg, s, step))
  {
    match step
    case EnqueueCall(key, id, spec, peeked) => EnqueueFramed(s, key, id, spec, peeked);
    case AlarmCall(key, peeked) => AlarmFramed(s, key, peeked);
    case CancelCall(key, id) => CancelFramed(s, key, id);
    case _ =>
  }

  // ---- the end of a run ----------------------------------------------------------------------

  /** The next continuation of a run that has ended. */
  function AfterEnd(s: State, job: Job, end: RunEnd): Task {
    match end
    case Returns(_) => Settling(job, None)
    case Throws(_) => FailReturned(job, FailStatus(s.rows, job.id, OWNER))
  }

  lemma RunEndFrame(cfg: Config, s: State, key: nat, end: RunEnd)
    requires key in s.tasks && s.tasks[key].Executing?
    ensures var s' := OnRunEnds(cfg, s, key, end);
            s' == s.(rows := s'.rows, tasks := s.tasks[key := AfterEnd(s, s.tasks[key].job, end)])
  {
  }

  // ---- a continuation ---------------------------------------------------------------------------

  /** A continuation does not touch the tasks, its own aside, the catalog or the clock. */
  ghost predicate AwaitFramed(s: State, o: Outcome) {
    o.state == s.(rows := o.state.rows, ready := o.state.ready, running := o.state.running, loop := o.state.loop)
  }

  lemma AlarmStartFramed(cfg: Config, s: State, task: Task, peeked: seq<Job>)
    requires Wf(s.ready) && (task.AlarmInit? || task.AlarmDue? || task.AlarmReclaimed?)
    ensures AwaitFramed(s, AfterAwait(cfg, s, task, peeked))
  {
  }

  lemma AlarmEndFramed(cfg: Config, s: State, task: Task, peeked: seq<Job>)
    requires Wf(s.ready) && (task.AlarmRebuild? || task.AlarmBackstop?)
    ensures AwaitFramed(s, AfterAwait(cfg, s, task, peeked))
  {
  }

  lemma SweptFramed(cfg: Config, s: State, peeked: seq<Job>)
    requires Wf(s.ready)
    ensures AwaitFramed(s, AfterAwait(cfg, s, AlarmSwept, peeked))
  {
  }

  lemma JobFramed(cfg: Config, s: State, task: Task, peeked: seq<Job>)
    requires Wf(s.ready) && (task.EnqueueInit? || task.EnqueueStored? || task.CancelStored? || task.RetryTimer?)
    ensures AwaitFramed(s, AfterAwait(cfg, s, task, peeked))
  {
  }

  lemma ReadyFramed(cfg: Config, s: State, job: Job)
    requires Wf(s.ready)
    ensures AwaitFramed(s, AfterReady(cfg, s, job))
  {
  }

  lemma FailFramed(s: State, job: Job, next: Status)
    ensures AwaitFramed(s, AfterFail(s, job, next))
  {
  }

  lemma SettleFramed(cfg: Config, s: State, job: Job, retry: Option<Job>)
    ensures AwaitFramed(s, AfterSettle(cfg, s, job, retry))
  {
  }

  lemma AwaitFrame(cfg: Config, s: State, task: Task, peeked: seq<Job>)
    requires !task.Executing? && Wf(s.ready)
    ensures AwaitFramed(s, AfterAwait(cfg, s, task, peeked))
  {
    match task
    case EnqueueReady(job, _) => ReadyFramed(cfg, s, job);
    case FailReturned(job, next) => FailFramed(s, job, next);
    case Settling(job, retry) => SettleFramed(cfg, s, job, retry);
    case EnqueueInit(_, _) => JobFramed(cfg, s, task, peeked);
    case EnqueueStored(_) => JobFramed(cfg, s, task, peeked);
    case CancelStored(_) => JobFramed(cfg, s, task, peeked);
    case RetryTimer(_) => JobFramed(cfg, s, task, peeked);
    case AlarmInit(_) => AlarmStartFramed(cfg, s, task, peeked);
    case AlarmDue => AlarmStartFramed(cfg, s, task, peeked);
    case AlarmReclaimed(_, _) => AlarmStartFramed(cfg, s, task, peeked);
    case AlarmRebuild(_, _) => AlarmEndFramed(cfg, s, task, peeked);
    case AlarmSwept => SweptFramed(cfg, s, peeked);
    case AlarmBackstop(_) => AlarmEndFramed(cfg, s, task, peeked);
  }

  /** What is left when a run has settled: at most the timer of its retry. */
  ghost predicate SettledFramed(s: State, key: nat, s': State)
    requires key in s.tasks && s.tasks[key].Settling?
  {
    && s'.running == s.running - {s.tasks[key].job.id} && (key in s'.tasks ==> s'.tasks[key].RetryTimer?)
    && (forall k :: k in s.tasks && k != key ==> k in s'.tasks && s'.tasks[k] == s.tasks[k])
    && (forall k :: k in s'.tasks && k != key ==> k in s.tasks)
  }

  lemma SettleLeaves(s: State, key: nat, o: Outcome)
    requires key in s.tasks && s.tasks[key].Settling? && o.state.tasks == s.tasks
    requires o.state.running == s.running - {s.tasks[key].job.id} && (o.next.Some? ==> o.next.value.RetryTimer?)
    ensures SettledFramed(s, key, Leave(o, key))
  {
  }

  lemma SettleStops(cfg: Config, s: State, task: Task, peeked: seq<Job>)
    requires Wf(s.ready) && task.Settling?
    ensures var o := AfterAwait(cfg, s, task, peeked);
            o.state.tasks == s.tasks && o.state.running == s.running - {task.job.id}
            && (o.next.Some? ==> o.next.value.RetryTimer?)
  {
    assert AfterAwait(cfg, s, task, peeked) == AfterSettle(cfg, s, task.job, task.retry);
  }

  lemma SettleFrame(cfg: Config, s: State, key: nat, peeked: seq<Job>)
    requires Wf(s.ready) && key in s.tasks && s.tasks[key].Settling?
    ensures SettledFramed(s, key, OnResume(cfg, s, key, peeked))
  {
    SettleStops(cfg, s, s.tasks[key], peeked);
    SettleLeaves(s, key, AfterAwait(cfg, s, s.tasks[key], peeked));
  }
}
