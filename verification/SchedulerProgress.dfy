/** Concurrency bounds and wakeups of the dispatch loop, in every interleaving. */
module SchedulerProgress {
  import opened Collections
  import opened Options
  import opened JobTable
  import opened ReadyQueue
  import opened Scheduler
  import opened SchedulerFrames
  import opened SchedulerShape

  // ---- concurrency bounds ------------------------------------------------------------

  /** The job the loop is about to run: it was chosen before an await, and enters the
      running map after it. */
  function Chosen(loop: Loop): Option<Job> {
    match loop
    case Claiming(job, _) => Some(job)
    case Claimed(got) => got
    case _ => None
  }

  ghost predicate Bounded(cfg: Config, s: State) {
    && |s.running| <= cfg.inFlightLimit
    && (forall t :: InFlight(s.running, t) <= cfg.fairCapacityPerTenant)
    && (Chosen(s.loop).Some? ==>
          && |s.running| < cfg.inFlightLimit
          && UnderCap(s.running, cfg.fairCapacityPerTenant, Chosen(s.loop).value.spec.tenantId))
  }

  lemma StartCounts(running: Running, id: JobId, t: TenantId)
    ensures |running[id := t]| <= |running| + 1
    ensures forall u :: InFlight(running[id := t], u) <= InFlight(running, u) + (if u == t then 1 else 0)
  {
    assert running[id := t].Keys == running.Keys + {id};
    forall u
      ensures InFlight(running[id := t], u) <= InFlight(running, u) + (if u == t then 1 else 0)
    {
      var before := RunningOf(running, u);
      SubsetCardinality(RunningOf(running[id := t], u), if u == t then before + {id} else before);
    }
  }

  lemma StopCounts(running: Running, id: JobId)
    ensures |running - {id}| <= |running|
    ensures forall u :: InFlight(running - {id}, u) <= InFlight(running, u)
  {
    var rest := running - {id};
    SubsetCardinality(rest.Keys, running.Keys);
    forall u
      ensures InFlight(rest, u) <= InFlight(running, u)
    {
      SubsetCardinality(RunningOf(rest, u), RunningOf(running, u));
    }
  }

  lemma LoopHeadBounded(cfg: Config, s: State)
    requires Wf(s.ready) && Bounded(cfg, s) && s.loop.AtHead?
    ensures Bounded(cfg, LoopHead(cfg, s))
  {
    TakeWf(s.ready, s.running, cfg.fairCapacityPerTenant);
  }

  lemma LoopClaimBounded(cfg: Config, s: State)
    requires Shape(s) && Bounded(cfg, s) && s.loop.Claiming?
    ensures Bounded(cfg, LoopClaim(cfg, s))
  {
    var chosen := Chosen(LoopClaim(cfg, s).loop);
    assert chosen.Some? ==> chosen.value.spec == s.loop.job.spec;
  }

  lemma LoopStartBounded(cfg: Config, s: State, key: nat)
    requires Bounded(cfg, s) && s.loop.Claimed?
    ensures Bounded(cfg, LoopStart(s, key))
  {
    if s.loop.got.Some? {
      var job := s.loop.got.value;
      StartCounts(s.running, job.id, job.spec.tenantId);
      var running := s.running[job.id := job.spec.tenantId];
      assert LoopStart(s, key).running == running;
      forall t
        ensures InFlight(running, t) <= cfg.fairCapacityPerTenant
      {
        assert InFlight(s.running, t) <= cfg.fairCapacityPerTenant;
      }
    }
  }

  lemma LoopKeepsBounded(cfg: Config, s: State, key: nat)
    requires Shape(s) && Bounded(cfg, s) && Enabled(cfg, s, LoopStep(key))
    ensures Bounded(cfg, Do(cfg, s, LoopStep(key)))
  {
    match s.loop
    case AtHead => LoopHeadBounded(cfg, s);
    case Claiming(_, _) => LoopClaimBounded(cfg, s);
    case Claimed(_) => LoopStartBounded(cfg, s, key);
    case Expiring(_) =>
  }

  /** A continuation never starts a run, and only the loop changes what it has chosen. */
  ghost predicate KeepsRuns(s: State, s': State) {
    s'.running == s.running && (s'.loop == s.loop || (s.loop.Down? && s'.loop.AtHead?))
  }

  lemma AlarmStartKeepsRuns(cfg: Config, s: State, task: Task, peeked: seq<Job>)
    requires Wf(s.ready) && (task.AlarmInit? || task.AlarmDue? || task.AlarmReclaimed?)
    ensures KeepsRuns(s, AfterAwait(cfg, s, task, peeked).state)
  {
  }

  lemma AlarmEndKeepsRuns(cfg: Config, s: State, task: Task, peeked: seq<Job>)
    requires Wf(s.ready) && (task.AlarmRebuild? || task.AlarmSwept? || task.AlarmBackstop?)
    ensures KeepsRuns(s, AfterAwait(cfg, s, task, peeked).state)
  {
  }

  lemma JobKeepsRuns(cfg: Config, s: State, task: Task, peeked: seq<Job>)
    requires Wf(s.ready) && (task.EnqueueInit? || task.EnqueueStored? || task.CancelStored? || task.RetryTimer?)
    ensures KeepsRuns(s, AfterAwait(cfg, s, task, peeked).state)
  {
  }

  lemma AwaitKeepsRuns(cfg: Config, s: State, task: Task, peeked: seq<Job>)
    requires !task.Executing? && !task.Settling? && Wf(s.ready)
    ensures KeepsRuns(s, AfterAwait(cfg, s, task, peeked).state)
  {
    match task
    case EnqueueReady(job, _) => assert KeepsRuns(s, AfterReady(cfg, s, job).state);
    case FailReturned(job, next) => assert KeepsRuns(s, AfterFail(s, job, next).state);
    case EnqueueInit(_, _) => JobKeepsRuns(cfg, s, task, peeked);
    case EnqueueStored(_) => JobKeepsRuns(cfg, s, task, peeked);
    case CancelStored(_) => JobKeepsRuns(cfg, s, task, peeked);
    case RetryTimer(_) => JobKeepsRuns(cfg, s, task, peeked);
    case AlarmInit(_) => AlarmStartKeepsRuns(cfg, s, task, peeked);
    case AlarmDue => AlarmStartKeepsRuns(cfg, s, task, peeked);
    case AlarmReclaimed(_, _) => AlarmStartKeepsRuns(cfg, s, task, peeked);
    case AlarmRebuild(_, _) => AlarmEndKeepsRuns(cfg, s, task, peeked);
    case AlarmSwept => AlarmEndKeepsRuns(cfg, s, task, peeked);
    case AlarmBackstop(_) => AlarmEndKeepsRuns(cfg, s, task, peeked);
  }

  lemma SameRunsStayBounded(cfg: Config, s: State, s': State)
    requires Bounded(cfg, s) && KeepsRuns(s, s')
    ensures Bounded(cfg, s')
  {
  }

  lemma AwaitKeepsBounded(cfg: Config, s: State, task: Task, peeked: seq<Job>)
    requires !task.Executing? && Wf(s.ready) && Bounded(cfg, s)
    ensures Bounded(cfg, AfterAwait(cfg, s, task, peeked).state)
  {
    if task.Settling? {
      SettleKeepsBounded(cfg, s, task.job, task.retry);
    } else {
      AwaitKeepsRuns(cfg, s, task, peeked);
      SameRunsStayBounded(cfg, s, AfterAwait(cfg, s, task, peeked).state);
    }
  }

  lemma ResumeKeepsBounded(cfg: Config, s: State, key: nat, peeked: seq<Job>)
    requires Shape(s) && Bounded(cfg, s) && Enabled(cfg, s, Resume(key, peeked))
    ensures Bounded(cfg, OnResume(cfg, s, key, peeked))
  {
    var o := AfterAwait(cfg, s, s.tasks[key], peeked);
    AwaitKeepsBounded(cfg, s, s.tasks[key], peeked);
    LeaveKeepsTasks(o, key);
    SameRunsStayBounded(cfg, o.state, Leave(o, key));
  }

  lemma SettleStops(cfg: Config, s: State, job: Job, retry: Option<Job>)
    ensures var s' := AfterSettle(cfg, s, job, retry).state;
            && s'.running == s.running - {job.id} && Chosen(s'.loop) == Chosen(s.loop)
  {
  }

  lemma FewerRunsStayBounded(cfg: Config, s: State, s': State, id: JobId)
    requires Bounded(cfg, s) && s'.running == s.running - {id} && Chosen(s'.loop) == Chosen(s.loop)
    ensures Bounded(cfg, s')
  {
    StopCounts(s.running, id);
  }

  lemma SettleKeepsBounded(cfg: Config, s: State, job: Job, retry: Option<Job>)
    requires Bounded(cfg, s)
    ensures Bounded(cfg, AfterSettle(cfg, s, job, retry).state)
  {
    SettleStops(cfg, s, job, retry);
    FewerRunsStayBounded(cfg, s, AfterSettle(cfg, s, job, retry).state, job.id);
  }

  lemma OtherStepKeepsRuns(cfg: Config, s: State, step: Step)
    requires Wf(s.ready) && Enabled(cfg, s, step) && (Calls(step) || step.RunEnds?)
    ensures Do(cfg, s, step).running == s.running && Do(cfg, s, step).loop == s.loop
  {
    if Calls(step) {
      CallFrame(cfg, s, step);
    } else {
      RunEndFrame(cfg, s, step.key, step.end);
    }
  }

  lemma CrashStaysBounded(cfg: Config, s: State)
    requires Bounded(cfg, s)
    ensures Bounded(cfg, OnCrash(s))
  {
    assert forall t :: RunningOf(OnCrash(s).running, t) == {};
  }

  /** In every interleaving the running map stays within both limits, although the
      test precedes the await on the claim and the insertion follows it. */
  lemma StepKeepsBounded(cfg: Config, s: State, step: Step)
    requires Shape(s) && Bounded(cfg, s) && Enabled(cfg, s, step)
    ensures Bounded(cfg, Do(cfg, s, step))
  {
    match step
    case LoopStep(key) => LoopKeepsBounded(cfg, s, key);
    case Resume(key, peeked) => ResumeKeepsBounded(cfg, s, key, peeked);
    case Crash => CrashStaysBounded(cfg, s);
    case _ =>
      OtherStepKeepsRuns(cfg, s, step);
      SameRunsStayBounded(cfg, s, Do(cfg, s, step));
  }

  lemma {:induction false} RunningStaysBounded(cfg: Config, s: State, steps: seq<Step>)
    requires Shape(s) && Bounded(cfg, s) && Runs(cfg, s, steps)
    ensures Bounded(cfg, End(cfg, s, steps))
    decreases |steps|
  {
    if steps != [] {
      StepKeepsShape(cfg, s, steps[0]);
      StepKeepsBounded(cfg, s, steps[0]);
      RunningStaysBounded(cfg, Do(cfg, s, steps[0]), steps[1..]);
    }
  }

  // ---- wakeups ---------------------------------------------------------------------------

  /** Nothing can be started: no job is ready, or no slot is free, or every tenant
      with a ready job is at its cap. */
  ghost predicate Blocked(cfg: Config, ready: Ready, running: Running) {
    || ready.order == []
    || |running| >= cfg.inFlightLimit
    || forall t :: t in ready.order ==> !UnderCap(running, cfg.fairCapacityPerTenant, t)
  }

  /** Continuations that end in a kick of the loop. An enqueue that did not rebuild
      need not: it has added nothing yet. */
  predicate WillKick(task: Task) {
    match task
    case EnqueueInit(_, _) => true
    case EnqueueReady(_, ranInit) => ranInit
    case EnqueueStored(_) => true
    case AlarmInit(_) => true
    case AlarmDue => true
    case AlarmReclaimed(_, _) => true
    case AlarmRebuild(_, _) => true
    case AlarmSwept => true
    case AlarmBackstop(_) => true
    case _ => false
  }

  ghost predicate KickPending(tasks: map<nat, Task>) {
    exists k :: k in tasks && WillKick(tasks[k])
  }

  ghost predicate KickPendingElsewhere(tasks: map<nat, Task>, key: nat) {
    exists k :: k in tasks && k != key && WillKick(tasks[k])
  }

  /** A stopped loop has a reason, or somebody is about to start it. */
  ghost predicate NoWakeupLost(cfg: Config, s: State) {
    s.loop.Down? ==> Blocked(cfg, s.ready, s.running) || KickPending(s.tasks)
  }

  /** The one way to lose a wakeup: an enqueue fills the ready set by running the
      first rebuild and is then rejected, before it would have kicked the loop. */
  ghost predicate RejectedAfterRebuild(cfg: Config, s: State, step: Step)
    requires Wf(s.ready)
  {
    && step.Resume? && step.key in s.tasks && s.tasks[step.key].EnqueueReady?
    && s.tasks[step.key].ranInit && EnqueueRejected(cfg, s, s.tasks[step.key].job)
    && s.loop.Down? && !Blocked(cfg, s.ready, s.running)
    && !KickPendingElsewhere(s.tasks, step.key)
  }

  lemma FewerTenantsStayBlocked(cfg: Config, r: Ready, smaller: Ready, running: Running)
    requires Blocked(cfg, r, running) && forall t :: t in smaller.order ==> t in r.order
    ensures Blocked(cfg, smaller, running)
  {
    if smaller.order != [] {
      var t := smaller.order[0];
      assert t in smaller.order && t in r.order;
    }
  }

  /** The loop only stops when it cannot start anything. */
  lemma LoopStopsWhenBlocked(cfg: Config, s: State)
    requires Wf(s.ready) && s.loop.AtHead? && LoopHead(cfg, s).loop.Down?
    ensures Blocked(cfg, s.ready, s.running) && LoopHead(cfg, s) == s.(loop := Down)
  {
    TakeWf(s.ready, s.running, cfg.fairCapacityPerTenant);
  }

  lemma LoopKeepsWakeup(cfg: Config, s: State, key: nat)
    requires Shape(s) && Enabled(cfg, s, LoopStep(key))
    ensures NoWakeupLost(cfg, Do(cfg, s, LoopStep(key)))
  {
    match s.loop
    case AtHead =>
      if LoopHead(cfg, s).loop.Down? {
        LoopStopsWhenBlocked(cfg, s);
      }
    case Claiming(_, _) => assert LoopClaim(cfg, s).loop.Claimed?;
    case Claimed(_) => assert LoopStart(s, key).loop.AtHead?;
    case Expiring(_) => assert LoopExpire(s).loop.AtHead?;
  }

  lemma CancelTenantKeepsWakeup(cfg: Config, s: State, t: TenantId, active: seq<JobId>)
    requires Wf(s.ready) && NoWakeupLost(cfg, s)
    ensures NoWakeupLost(cfg, OnCancelTenant(s, t, active))
  {
    SpliceRemoves(s.ready.order, t);
    if s.loop.Down? && Blocked(cfg, s.ready, s.running) {
      FewerTenantsStayBlocked(cfg, s.ready, RemoveTenant(s.ready, t), s.running);
    }
  }

  /** A first call clears the ready set, and its own task kicks later. */
  lemma CallAddsTasks(cfg: Config, s: State, step: Step)
    requires Wf(s.ready) && Enabled(cfg, s, step)
    requires step.EnqueueCall? || step.AlarmCall? || step.CancelCall?
    ensures var s' := Do(cfg, s, step);
            && s'.loop == s.loop && s'.running == s.running && (s'.ready == s.ready || s'.ready == EMPTY)
            && forall k :: k in s.tasks ==> k in s'.tasks && s'.tasks[k] == s.tasks[k]
  {
  }

  lemma CallKeepsWakeup(cfg: Config, s: State, step: Step)
    requires Shape(s) && NoWakeupLost(cfg, s) && Enabled(cfg, s, step)
    requires step.EnqueueCall? || step.AlarmCall? || step.CancelCall? || step.CancelTenantCall?
    ensures NoWakeupLost(cfg, Do(cfg, s, step))
  {
    if step.CancelTenantCall? {
      CancelTenantKeepsWakeup(cfg, s, step.tenant, step.active);
    } else {
      CallAddsTasks(cfg, s, step);
      if k :| k in s.tasks && WillKick(s.tasks[k]) {
        assert k in Do(cfg, s, step).tasks && WillKick(Do(cfg, s, step).tasks[k]);
      }
    }
  }

  lemma RunEndsKeepsWakeup(cfg: Config, s: State, key: nat, end: RunEnd)
    requires NoWakeupLost(cfg, s) && key in s.tasks && s.tasks[key].Executing?
    ensures NoWakeupLost(cfg, OnRunEnds(cfg, s, key, end))
  {
    RunEndFrame(cfg, s, key, end);
    if k :| k in s.tasks && WillKick(s.tasks[k]) {
      assert k in OnRunEnds(cfg, s, key, end).tasks && WillKick(OnRunEnds(cfg, s, key, end).tasks[k]);
    }
  }

  /** What a continuation does for the loop: starts it, leaves a later kick, or
      leaves it with a reason to stay down if it had one. */
  ghost predicate HandsOnKick(cfg: Config, s: State, task: Task, o: Outcome) {
    || !o.state.loop.Down?
    || (o.next.Some? && WillKick(o.next.value))
    || (!WillKick(task) && (Blocked(cfg, s.ready, s.running) ==> Blocked(cfg, o.state.ready, o.state.running)))
    || Blocked(cfg, o.state.ready, o.state.running)
  }

  lemma SettleHandsOnKick(cfg: Config, s: State, job: Job, retry: Option<Job>)
    ensures HandsOnKick(cfg, s, Settling(job, retry), AfterSettle(cfg, s, job, retry))
  {
  }

  /** The loop runs, or the continuation left behind will kick it. */
  predicate Kicks(o: Outcome) {
    !o.state.loop.Down? || (o.next.Some? && WillKick(o.next.value))
  }

  lemma AlarmStartKicks(cfg: Config, s: State, task: Task, peeked: seq<Job>)
    requires Wf(s.ready) && (task.AlarmInit? || task.AlarmDue? || task.AlarmReclaimed?)
    ensures Kicks(AfterAwait(cfg, s, task, peeked))
  {
  }

  lemma AlarmEndKicks(cfg: Config, s: State, task: Task, peeked: seq<Job>)
    requires Wf(s.ready) && (task.AlarmRebuild? || task.AlarmSwept? || task.AlarmBackstop?)
    ensures Kicks(AfterAwait(cfg, s, task, peeked))
  {
  }

  lemma EnqueueKicks(cfg: Config, s: State, task: Task, peeked: seq<Job>)
    requires Wf(s.ready) && (task.EnqueueInit? || task.EnqueueStored? || task.RetryTimer?)
    ensures Kicks(AfterAwait(cfg, s, task, peeked))
  {
  }

  lemma ReadyHandsOnKick(cfg: Config, s: State, task: Task, peeked: seq<Job>)
    requires Wf(s.ready) && task.EnqueueReady? && (task.ranInit ==> !EnqueueRejected(cfg, s, task.job))
    ensures HandsOnKick(cfg, s, task, AfterAwait(cfg, s, task, peeked))
  {
    if EnqueueRejected(cfg, s, task.job) {
      assert AfterAwait(cfg, s, task, peeked) == Outcome(s, None);
    } else {
      assert Kicks(AfterAwait(cfg, s, task, peeked));
    }
  }

  lemma CancelHandsOnKick(cfg: Config, s: State, task: Task, peeked: seq<Job>)
    requires Wf(s.ready) && task.CancelStored?
    ensures HandsOnKick(cfg, s, task, AfterAwait(cfg, s, task, peeked))
  {
    DropWf(s.ready, task.id);
    if Blocked(cfg, s.ready, s.running) {
      FewerTenantsStayBlocked(cfg, s.ready, Drop(s.ready, task.id), s.running);
    }
  }

  lemma FailHandsOnKick(cfg: Config, s: State, task: Task, peeked: seq<Job>)
    requires Wf(s.ready) && task.FailReturned?
    ensures HandsOnKick(cfg, s, task, AfterAwait(cfg, s, task, peeked))
  {
    assert AfterFail(s, task.job, task.next).state.loop.Down? ==> AfterFail(s, task.job, task.next).state == s;
  }

  lemma AwaitHandsOnKick(cfg: Config, s: State, task: Task, peeked: seq<Job>)
    requires Wf(s.ready) && !task.Executing?
    requires task.EnqueueReady? && task.ranInit ==> !EnqueueRejected(cfg, s, task.job)
    ensures HandsOnKick(cfg, s, task, AfterAwait(cfg, s, task, peeked))
  {
    match task
    case CancelStored(_) => CancelHandsOnKick(cfg, s, task, peeked);
    case Settling(job, retry) => SettleHandsOnKick(cfg, s, job, retry);
    case FailReturned(_, _) => FailHandsOnKick(cfg, s, task, peeked);
    case EnqueueReady(_, _) => ReadyHandsOnKick(cfg, s, task, peeked);
    case EnqueueInit(_, _) => EnqueueKicks(cfg, s, task, peeked);
    case EnqueueStored(_) => EnqueueKicks(cfg, s, task, peeked);
    case RetryTimer(_) => EnqueueKicks(cfg, s, task, peeked);
    case AlarmInit(_) => AlarmStartKicks(cfg, s, task, peeked);
    case AlarmDue => AlarmStartKicks(cfg, s, task, peeked);
    case AlarmReclaimed(_, _) => AlarmStartKicks(cfg, s, task, peeked);
    case AlarmRebuild(_, _) => AlarmEndKicks(cfg, s, task, peeked);
    case AlarmSwept => AlarmEndKicks(cfg, s, task, peeked);
    case AlarmBackstop(_) => AlarmEndKicks(cfg, s, task, peeked);
  }

  lemma LeaveKeepsTasks(o: Outcome, key: nat)
    ensures var s' := Leave(o, key);
            && s'.loop == o.state.loop && s'.ready == o.state.ready && s'.running == o.state.running
            && (forall k :: k in o.state.tasks && k != key ==> k in s'.tasks && s'.tasks[k] == o.state.tasks[k])
            && (forall k :: k in s'.tasks && k != key ==> k in o.state.tasks && s'.tasks[k] == o.state.tasks[k])
            && (key in s'.tasks <==> o.next.Some?) && (key in s'.tasks ==> s'.tasks[key] == o.next.value)
  {
  }

  lemma AwaitKeepsTasks(cfg: Config, s: State, task: Task, peeked: seq<Job>)
    requires !task.Executing? && Wf(s.ready)
    ensures AfterAwait(cfg, s, task, peeked).state.tasks == s.tasks
  {
    AwaitFrame(cfg, s, task, peeked);
  }

  lemma ResumeKeepsWakeup(cfg: Config, s: State, key: nat, peeked: seq<Job>)
    requires Shape(s) && NoWakeupLost(cfg, s) && Enabled(cfg, s, Resume(key, peeked))
    requires s.tasks[key].EnqueueReady? && s.tasks[key].ranInit ==> !EnqueueRejected(cfg, s, s.tasks[key].job)
    ensures NoWakeupLost(cfg, OnResume(cfg, s, key, peeked))
  {
    var task := s.tasks[key];
    var o := AfterAwait(cfg, s, task, peeked);
    var s' := Leave(o, key);
    AwaitHandsOnKick(cfg, s, task, peeked);
    AwaitKeepsTasks(cfg, s, task, peeked);
    if !task.Settling? {
      AwaitKeepsRuns(cfg, s, task, peeked);
    }
    LeaveKeepsTasks(o, key);
    if k :| k in s.tasks && k != key && WillKick(s.tasks[k]) {
      assert k in s'.tasks && WillKick(s'.tasks[k]);
    } else if o.next.Some? && WillKick(o.next.value) {
      assert key in s'.tasks && WillKick(s'.tasks[key]);
    }
  }

  lemma RejectionKeepsWakeupIff(cfg: Config, s: State, key: nat, peeked: seq<Job>)
    requires Shape(s) && NoWakeupLost(cfg, s) && Enabled(cfg, s, Resume(key, peeked))
    requires s.tasks[key].EnqueueReady? && s.tasks[key].ranInit && EnqueueRejected(cfg, s, s.tasks[key].job)
    ensures NoWakeupLost(cfg, OnResume(cfg, s, key, peeked)) <==> !RejectedAfterRebuild(cfg, s, Resume(key, peeked))
  {
    var s' := OnResume(cfg, s, key, peeked);
    assert s' == Finish(s, key);
    if k :| k in s.tasks && k != key && WillKick(s.tasks[k]) {
      assert k in s'.tasks && WillKick(s'.tasks[k]);
    }
  }

  /** A step loses a wakeup if and only if it rejects the enqueue that rebuilt the
      ready set, with the loop down, work to start and nobody else about to kick. */
  lemma StepKeepsWakeupIff(cfg: Config, s: State, step: Step)
    requires Shape(s) && NoWakeupLost(cfg, s) && Enabled(cfg, s, step)
    ensures NoWakeupLost(cfg, Do(cfg, s, step)) <==> !RejectedAfterRebuild(cfg, s, step)
  {
    match step
    case LoopStep(key) => LoopKeepsWakeup(cfg, s, key);
    case Resume(key, peeked) =>
      var task := s.tasks[key];
      if task.EnqueueReady? && task.ranInit && EnqueueRejected(cfg, s, task.job) {
        RejectionKeepsWakeupIff(cfg, s, key, peeked);
      } else {
        ResumeKeepsWakeup(cfg, s, key, peeked);
      }
    case RunEnds(key, end) => RunEndsKeepsWakeup(cfg, s, key, end);
    case EnqueueCall(_, _, _, _) => CallKeepsWakeup(cfg, s, step);
    case AlarmCall(_, _) => CallKeepsWakeup(cfg, s, step);
    case CancelCall(_, _) => CallKeepsWakeup(cfg, s, step);
    case CancelTenantCall(_, _) => CallKeepsWakeup(cfg, s, step);
    case Tick(_) =>
    case Crash =>
  }
}
