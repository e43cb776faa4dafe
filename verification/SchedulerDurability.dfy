/** No queued job is stranded: something in memory always remembers it, and after
    a crash the first alarm finds every job again. */
module SchedulerDurability {
  import opened Collections
  import opened Options
  import opened JobTable
  import opened JobHistories
  import opened ReadyQueue
  import opened Scheduler
  import opened SchedulerFrames
  import opened SchedulerShape
  import opened SchedulerHistory

  ghost predicate Among(jobs: seq<Job>, id: JobId) {
    exists j :: j in jobs && j.id == id
  }

  /** The loop between choosing a job and updating its row. */
  predicate LoopHolds(loop: Loop, id: JobId) {
    (loop.Claiming? || loop.Expiring?) && loop.job.id == id
  }

  /** A continuation that will put the job into the ready set. An alarm that has
      reclaimed leases is about to peek, so it accounts for every queued row. */
  ghost predicate TaskHolds(task: Task, id: JobId) {
    match task
    case EnqueueInit(_, snapshot) => Among(snapshot, id)
    case EnqueueReady(_, _) => false
    case EnqueueStored(job) => job.id == id
    case AlarmInit(snapshot) => Among(snapshot, id)
    case AlarmDue => false
    case AlarmReclaimed(any, _) => any
    case AlarmRebuild(snapshot, _) => Among(snapshot, id)
    case AlarmSwept => false
    case AlarmBackstop(snapshot) => Among(snapshot, id)
    case CancelStored(_) => false
    case Executing(_) => false
    case FailReturned(job, next) => next == Queued && job.id == id
    case Settling(_, retry) => retry.Some? && retry.value.id == id
    case RetryTimer(job) => job.id == id
  }

  ghost predicate Pending(tasks: map<nat, Task>, id: JobId) {
    exists k :: k in tasks && TaskHolds(tasks[k], id)
  }

  ghost predicate AtHand(s: State, id: JobId) {
    Holds(s.ready, id) || LoopHolds(s.loop, id)
  }

  ghost predicate Remembered(s: State, id: JobId) {
    AtHand(s, id) || Pending(s.tasks, id)
  }

  ghost predicate NothingStranded(s: State) {
    s.initialized ==> forall id :: id in QueuedIds(s.rows) ==> Remembered(s, id)
  }

  /** The only limit of the design: a peek must not meet more rows than it returns. */
  ghost predicate PeekSeesAll(cfg: Config, s: State, step: Step)
    requires Wf(s.ready)
  {
    Peeks(cfg, s, step) ==> |QueuedIds(s.rows)| <= PEEK_LIMIT
  }

  // ---- peeks --------------------------------------------------------------------------

  function Ids(jobs: seq<Job>): set<JobId> {
    set j | j in jobs :: j.id
  }

  lemma {:induction false} DistinctIdsCount(jobs: seq<Job>)
    requires forall i, k :: 0 <= i < k < |jobs| ==> jobs[i].id != jobs[k].id
    ensures |Ids(jobs)| == |jobs|
  {
    if jobs != [] {
      var last := jobs[|jobs| - 1];
      var rest := jobs[..|jobs| - 1];
      DistinctIdsCount(rest);
      assert jobs == rest + [last];
      assert Ids(jobs) == Ids(rest) + {last.id};
      assert last.id !in Ids(rest);
    }
  }

  /** A peek finds every queued row exactly when there are no more than 10,000. */
  lemma PeekIsCompleteIff(rows: Table, peeked: seq<Job>)
    requires IsPeek(rows, peeked)
    ensures |QueuedIds(rows)| <= 10_000 <==> (forall id :: id in QueuedIds(rows) ==> Among(peeked, id))
  {
    DistinctIdsCount(peeked);
    assert Ids(peeked) <= QueuedIds(rows);
    if |QueuedIds(rows)| <= PEEK_LIMIT {
      SubsetOfSameSize(Ids(peeked), QueuedIds(rows));
    } else if QueuedIds(rows) <= Ids(peeked) {
      SubsetCardinality(QueuedIds(rows), Ids(peeked));
      assert false;
    } else {
      var id :| id in QueuedIds(rows) && id !in Ids(peeked);
      assert !Among(peeked, id);
    }
  }

  // ---- remembering, one component at a time -----------------------------------------

  lemma ContinueRemembers(s: State, key: nat, task: Task, id: JobId)
    requires Remembered(s, id) || TaskHolds(task, id)
    requires key in s.tasks && TaskHolds(s.tasks[key], id) ==> TaskHolds(task, id) || AtHand(s, id)
    ensures Remembered(Continue(s, key, task), id)
  {
    var s' := Continue(s, key, task);
    if TaskHolds(task, id) {
      assert key in s'.tasks && TaskHolds(s'.tasks[key], id);
    } else if Pending(s.tasks, id) {
      var k :| k in s.tasks && TaskHolds(s.tasks[k], id);
      if k != key {
        assert k in s'.tasks && TaskHolds(s'.tasks[k], id);
      }
    }
  }

  lemma PushRemembers(r: Ready, job: Job, id: JobId)
    requires Wf(r) && (Holds(r, id) || job.id == id)
    ensures Holds(Push(r, job), id)
  {
    PushWf(r, job);
    var j :| (Contains(r, j) || j == job) && j.id == id;
    assert Contains(Push(r, job), j);
  }

  lemma PushAllRemembers(r: Ready, jobs: seq<Job>, id: JobId)
    requires Wf(r) && (Holds(r, id) || Among(jobs, id))
    ensures Holds(PushAll(r, jobs), id)
  {
    PushAllWf(r, jobs);
    var j :| (Contains(r, j) || j in jobs) && j.id == id;
    assert Contains(PushAll(r, jobs), j);
  }

  lemma DropRemembers(r: Ready, dropped: JobId, id: JobId)
    requires Wf(r) && Holds(r, id) && id != dropped
    ensures Holds(Drop(r, dropped), id)
  {
    DropWf(r, dropped);
    var j :| Contains(r, j) && j.id == id;
    assert Contains(Drop(r, dropped), j);
  }

  lemma TakeRemembers(r: Ready, running: Running, cap: int, id: JobId)
    requires Wf(r) && Holds(r, id)
    ensures var (rest, taken) := Take(r, running, cap);
            Holds(rest, id) || (taken.Some? && taken.value.id == id)
  {
    TakeContains(r, running, cap);
    var (rest, taken) := Take(r, running, cap);
    var j :| Contains(r, j) && j.id == id;
    assert Contains(rest, j) || taken == Some(j);
  }

  // ---- the loop and the calls ----------------------------------------------------------

  lemma LoopHeadRemembers(cfg: Config, s: State, id: JobId)
    requires Shape(s) && s.loop.AtHead? && AtHand(s, id)
    ensures AtHand(LoopHead(cfg, s), id)
  {
    TakeRemembers(s.ready, s.running, cfg.fairCapacityPerTenant, id);
  }

  lemma ClaimRemembers(cfg: Config, s: State, id: JobId)
    requires Shape(s) && s.loop.Claiming? && (id in QueuedIds(s.rows) ==> Remembered(s, id))
    requires id in QueuedIds(LoopClaim(cfg, s).rows)
    ensures Remembered(LoopClaim(cfg, s), id)
  {
    assert id != s.loop.job.id;
  }

  lemma ExpireRemembers(s: State, id: JobId)
    requires s.loop.Expiring? && (id in QueuedIds(s.rows) ==> Remembered(s, id))
    requires id in QueuedIds(LoopExpire(s).rows)
    ensures Remembered(LoopExpire(s), id)
  {
    assert id != s.loop.job.id;
  }

  lemma LoopStepRemembers(cfg: Config, s: State, key: nat, id: JobId)
    requires Shape(s) && Enabled(cfg, s, LoopStep(key)) && (id in QueuedIds(s.rows) ==> Remembered(s, id))
    requires id in QueuedIds(Do(cfg, s, LoopStep(key)).rows)
    ensures Remembered(Do(cfg, s, LoopStep(key)), id)
  {
    match s.loop
    case AtHead =>
      if AtHand(s, id) {
        LoopHeadRemembers(cfg, s, id);
      }
    case Claiming(_, _) => ClaimRemembers(cfg, s, id);
    case Claimed(_) => StartRemembers(s, key, id);
    case Expiring(_) => ExpireRemembers(s, id);
  }

  lemma StartRemembers(s: State, key: nat, id: JobId)
    requires s.loop.Claimed? && key !in s.tasks && Remembered(s, id)
    ensures Remembered(LoopStart(s, key), id)
  {
    assert Remembered(s.(loop := AtHead), id);
    if s.loop.got.Some? {
      ContinueRemembers(s.(loop := AtHead), key, Executing(s.loop.got.value), id);
    }
  }

  lemma ClearedTenantHadNoQueuedRow(s: State, t: TenantId, active: seq<JobId>, id: JobId)
    requires Shape(s) && (id in QueuedIds(s.rows) ==> Remembered(s, id))
    requires ListsActive(s.rows, t, active) && id in QueuedIds(OnCancelTenant(s, t, active).rows)
    ensures Remembered(OnCancelTenant(s, t, active), id)
  {
    CancelAllRows(s.rows, active);
    RemoveTenantWf(s.ready, t);
    if Holds(s.ready, id) {
      var j :| Contains(s.ready, j) && j.id == id;
      assert Known(s.catalog, j) && j.spec.tenantId != t;
      assert Contains(RemoveTenant(s.ready, t), j);
    }
  }

  lemma RebuildRemembers(cfg: Config, s: State, step: Step, id: JobId)
    requires Wf(s.ready) && Enabled(cfg, s, step) && PeekSeesAll(cfg, s, step) && Peeks(cfg, s, step)
    requires (step.EnqueueCall? || step.AlarmCall?) && id in QueuedIds(s.rows)
    ensures Remembered(Do(cfg, s, step), id)
  {
    PeekIsCompleteIff(s.rows, step.peeked);
    var s' := Do(cfg, s, step);
    assert step.key in s'.tasks && TaskHolds(s'.tasks[step.key], id);
  }

  lemma EnqueueRemembers(s: State, key: nat, newId: JobId, spec: Spec, peeked: seq<Job>, id: JobId)
    requires key !in s.tasks && s.initialized && Remembered(s, id)
    ensures Remembered(OnEnqueue(s, key, newId, spec, peeked), id)
  {
    ContinueRemembers(s, key, EnqueueReady(Job(newId, spec, 0), false), id);
  }

  lemma CancelRemembers(s: State, key: nat, other: JobId, id: JobId)
    requires key !in s.tasks && Remembered(s, id)
    ensures Remembered(OnCancel(s, key, other), id)
  {
    if Cancellable(s.rows, other) {
      ContinueRemembers(s, key, CancelStored(other), id);
    }
  }

  lemma CallRemembers(cfg: Config, s: State, step: Step, id: JobId)
    requires Shape(s) && NothingStranded(s) && Enabled(cfg, s, step) && PeekSeesAll(cfg, s, step)
    requires step.EnqueueCall? || step.AlarmCall? || step.CancelCall? || step.CancelTenantCall?
    requires Do(cfg, s, step).initialized && id in QueuedIds(Do(cfg, s, step).rows)
    ensures Remembered(Do(cfg, s, step), id)
  {
    if Peeks(cfg, s, step) {
      RebuildRemembers(cfg, s, step, id);
    } else {
      match step
      case EnqueueCall(key, newId, spec, peeked) => EnqueueRemembers(s, key, newId, spec, peeked, id);
      case AlarmCall(key, _) => ContinueRemembers(s, key, AlarmDue, id);
      case CancelCall(key, other) => CancelRemembers(s, key, other, id);
      case CancelTenantCall(t, active) => ClearedTenantHadNoQueuedRow(s, t, active, id);
    }
  }

  lemma ReturnRemembers(cfg: Config, s: State, key: nat, value: Value, id: JobId)
    requires Shape(s) && key in s.tasks && s.tasks[key].Executing?
    requires id in QueuedIds(s.rows) ==> Remembered(s, id)
    requires id in QueuedIds(OnRunEnds(cfg, s, key, Returns(value)).rows)
    ensures Remembered(OnRunEnds(cfg, s, key, Returns(value)), id)
  {
    ContinueRemembers(s, key, Settling(s.tasks[key].job, None), id);
  }

  lemma ThrowRemembers(cfg: Config, s: State, key: nat, error: Failure, id: JobId)
    requires Shape(s) && key in s.tasks && s.tasks[key].Executing?
    requires id in QueuedIds(s.rows) ==> Remembered(s, id)
    requires id in QueuedIds(OnRunEnds(cfg, s, key, Throws(error)).rows)
    ensures Remembered(OnRunEnds(cfg, s, key, Throws(error)), id)
  {
    var job := s.tasks[key].job;
    ContinueRemembers(s, key, FailReturned(job, FailStatus(s.rows, job.id, OWNER)), id);
  }

  lemma RunEndsRemembers(cfg: Config, s: State, key: nat, end: RunEnd, id: JobId)
    requires Shape(s) && Enabled(cfg, s, RunEnds(key, end))
    requires id in QueuedIds(s.rows) ==> Remembered(s, id)
    requires id in QueuedIds(OnRunEnds(cfg, s, key, end).rows)
    ensures Remembered(OnRunEnds(cfg, s, key, end), id)
  {
    match end
    case Returns(value) => ReturnRemembers(cfg, s, key, value, id);
    case Throws(error) => ThrowRemembers(cfg, s, key, error, id);
  }

  // ---- the continuations ------------------------------------------------------------------

  /** A queued job that this task accounts for, or that is at hand, still is afterwards. */
  ghost predicate HandsOn(s: State, task: Task, o: Outcome, id: JobId) {
    id in QueuedIds(o.state.rows) && (id in QueuedIds(s.rows) ==> AtHand(s, id) || TaskHolds(task, id)) ==>
      AtHand(o.state, id) || (o.next.Some? && TaskHolds(o.next.value, id))
  }

  lemma InitHandsOn(cfg: Config, s: State, job: Job, snapshot: seq<Job>, id: JobId)
    requires Shape(s)
    ensures HandsOn(s, EnqueueInit(job, snapshot), AfterAwait(cfg, s, EnqueueInit(job, snapshot), []), id)
  {
    if Holds(s.ready, id) || Among(snapshot, id) {
      PushAllRemembers(s.ready, snapshot, id);
    }
  }

  lemma ReadyHandsOn(cfg: Config, s: State, job: Job, ranInit: bool, id: JobId)
    requires Shape(s)
    ensures HandsOn(s, EnqueueReady(job, ranInit), AfterReady(cfg, s, job), id)
  {
  }

  lemma PushHandsOn(s: State, task: Task, job: Job, id: JobId)
    requires Wf(s.ready) && (TaskHolds(task, id) ==> job.id == id)
    ensures HandsOn(s, task, Outcome(PushAndKick(s, job), None), id)
  {
    if Holds(s.ready, id) || job.id == id {
      PushRemembers(s.ready, job, id);
    }
  }

  lemma FailHandsOn(s: State, job: Job, next: Status, id: JobId)
    requires Wf(s.ready)
    ensures HandsOn(s, FailReturned(job, next), AfterFail(s, job, next), id)
  {
    var retry := job.(retryCount := job.retryCount + 1);
    if next == Queued && RetryDelay(job.spec.retry, job.retryCount) <= 0 {
      PushHandsOn(s, FailReturned(job, next), retry, id);
      assert AfterFail(s, job, next).state == PushAndKick(s, retry);
    } else {
      assert AfterFail(s, job, next).state == s;
    }
  }

  lemma SettleHandsOn(cfg: Config, s: State, job: Job, retry: Option<Job>, id: JobId)
    requires Shape(s)
    ensures HandsOn(s, Settling(job, retry), AfterSettle(cfg, s, job, retry), id)
  {
  }

  /** What such a stretch of the alarm pushes it had at hand, and it queues no row. */
  lemma AlarmPushes(cfg: Config, s: State, task: Task, peeked: seq<Job>)
    requires Wf(s.ready) && (task.AlarmInit? || task.AlarmRebuild? || task.AlarmBackstop?)
    ensures var o := AfterAwait(cfg, s, task, peeked);
            && o.state.ready == PushAll(s.ready, task.snapshot)
            && (o.state.loop == s.loop || s.loop.Down?)
            && (o.state.rows == s.rows || exists at :: o.state.rows == SweepExpired(s.rows, at))
  {
  }

  lemma PushedHandsOn(s: State, task: Task, o: Outcome, id: JobId)
    requires Wf(s.ready) && (task.AlarmInit? || task.AlarmRebuild? || task.AlarmBackstop?)
    requires o.state.ready == PushAll(s.ready, task.snapshot) && (o.state.loop == s.loop || s.loop.Down?)
    requires o.state.rows == s.rows || exists at :: o.state.rows == SweepExpired(s.rows, at)
    ensures HandsOn(s, task, o, id)
  {
    if Holds(s.ready, id) || Among(task.snapshot, id) {
      PushAllRemembers(s.ready, task.snapshot, id);
    }
  }

  lemma AlarmHandsOn(cfg: Config, s: State, task: Task, peeked: seq<Job>, id: JobId)
    requires Wf(s.ready) && (task.AlarmInit? || task.AlarmRebuild? || task.AlarmBackstop?)
    ensures HandsOn(s, task, AfterAwait(cfg, s, task, peeked), id)
  {
    AlarmPushes(cfg, s, task, peeked);
    PushedHandsOn(s, task, AfterAwait(cfg, s, task, peeked), id);
  }

  lemma ReclaimHandsOn(cfg: Config, s: State, id: JobId)
    requires Shape(s)
    ensures HandsOn(s, AlarmDue, AfterAwait(cfg, s, AlarmDue, []), id)
  {
    if id in s.rows && Reclaimable(s.rows[id], s.now) {
      assert AfterAwait(cfg, s, AlarmDue, []).next.value.any;
    }
  }

  lemma PeekHandsOn(cfg: Config, s: State, task: Task, peeked: seq<Job>, id: JobId)
    requires Shape(s) && (task.AlarmReclaimed? || task.AlarmSwept?)
    requires (if task.AlarmReclaimed? then task.any else !Saturated(cfg, s)) ==>
               IsPeek(s.rows, peeked) && |QueuedIds(s.rows)| <= PEEK_LIMIT
    ensures HandsOn(s, task, AfterAwait(cfg, s, task, peeked), id)
    ensures (if task.AlarmReclaimed? then task.any else !Saturated(cfg, s)) && id in QueuedIds(s.rows) ==>
              AfterAwait(cfg, s, task, peeked).next.Some? && TaskHolds(AfterAwait(cfg, s, task, peeked).next.value, id)
  {
    if if task.AlarmReclaimed? then task.any else !Saturated(cfg, s) {
      PeekIsCompleteIff(s.rows, peeked);
    }
  }

  lemma CancelHandsOn(cfg: Config, s: State, cancelled: JobId, id: JobId)
    requires Wf(s.ready) && cancelled in s.rows && s.rows[cancelled].status == Cancelled
    ensures HandsOn(s, CancelStored(cancelled), AfterAwait(cfg, s, CancelStored(cancelled), []), id)
  {
    if Holds(s.ready, id) && id != cancelled {
      DropRemembers(s.ready, cancelled, id);
    }
  }

  lemma AlarmAwaitHandsOn(cfg: Config, s: State, key: nat, peeked: seq<Job>, id: JobId)
    requires Shape(s) && Enabled(cfg, s, Resume(key, peeked)) && PeekSeesAll(cfg, s, Resume(key, peeked))
    requires var task := s.tasks[key];
             task.AlarmInit? || task.AlarmDue? || task.AlarmReclaimed? || task.AlarmRebuild?
             || task.AlarmSwept? || task.AlarmBackstop?
    ensures HandsOn(s, s.tasks[key], AfterAwait(cfg, s, s.tasks[key], peeked), id)
  {
    var task := s.tasks[key];
    if task.AlarmDue? {
      ReclaimHandsOn(cfg, s, id);
    } else if task.AlarmReclaimed? || task.AlarmSwept? {
      PeekHandsOn(cfg, s, task, peeked, id);
    } else {
      AlarmHandsOn(cfg, s, task, peeked, id);
    }
  }

  lemma JobHandsOn(cfg: Config, s: State, task: Task, peeked: seq<Job>, id: JobId)
    requires Shape(s) && (task.CancelStored? ==> task.id in s.rows && s.rows[task.id].status == Cancelled)
    requires task.EnqueueInit? || task.EnqueueReady? || task.EnqueueStored? || task.CancelStored?
             || task.FailReturned? || task.Settling? || task.RetryTimer?
    ensures HandsOn(s, task, AfterAwait(cfg, s, task, peeked), id)
  {
    match task
    case EnqueueInit(job, snapshot) => InitHandsOn(cfg, s, job, snapshot, id);
    case EnqueueReady(job, ranInit) => ReadyHandsOn(cfg, s, job, ranInit, id);
    case EnqueueStored(job) => PushHandsOn(s, task, job, id);
    case RetryTimer(job) => PushHandsOn(s, task, job, id);
    case FailReturned(job, next) => FailHandsOn(s, job, next, id);
    case Settling(job, retry) => SettleHandsOn(cfg, s, job, retry, id);
    case CancelStored(cancelled) => CancelHandsOn(cfg, s, cancelled, id);
  }

  lemma AwaitHandsOn(cfg: Config, s: State, key: nat, peeked: seq<Job>, id: JobId)
    requires Shape(s) && CancelsDone(s) && Enabled(cfg, s, Resume(key, peeked))
    requires PeekSeesAll(cfg, s, Resume(key, peeked))
    ensures HandsOn(s, s.tasks[key], AfterAwait(cfg, s, s.tasks[key], peeked), id)
  {
    var task := s.tasks[key];
    if task.AlarmInit? || task.AlarmDue? || task.AlarmReclaimed? || task.AlarmRebuild?
       || task.AlarmSwept? || task.AlarmBackstop? {
      AlarmAwaitHandsOn(cfg, s, key, peeked, id);
    } else {
      JobHandsOn(cfg, s, task, peeked, id);
    }
  }

  ghost predicate PendingElsewhere(tasks: map<nat, Task>, key: nat, id: JobId) {
    exists k :: k in tasks && k != key && TaskHolds(tasks[k], id)
  }

  lemma LeaveRemembers(o: Outcome, key: nat, id: JobId)
    requires || AtHand(o.state, id) || PendingElsewhere(o.state.tasks, key, id)
             || (o.next.Some? && TaskHolds(o.next.value, id))
    ensures Remembered(Leave(o, key), id)
  {
    var s' := Leave(o, key);
    if PendingElsewhere(o.state.tasks, key, id) {
      var k :| k in o.state.tasks && k != key && TaskHolds(o.state.tasks[k], id);
      assert k in s'.tasks && TaskHolds(s'.tasks[k], id);
    } else if o.next.Some? && TaskHolds(o.next.value, id) {
      assert key in s'.tasks && TaskHolds(s'.tasks[key], id);
    }
  }

  lemma ResumeRemembers(cfg: Config, s: State, key: nat, peeked: seq<Job>, id: JobId)
    requires Durable(s) && Enabled(cfg, s, Resume(key, peeked)) && PeekSeesAll(cfg, s, Resume(key, peeked))
    requires s.initialized && id in QueuedIds(OnResume(cfg, s, key, peeked).rows)
    ensures Remembered(OnResume(cfg, s, key, peeked), id)
  {
    var o := AfterAwait(cfg, s, s.tasks[key], peeked);
    AwaitHandsOn(cfg, s, key, peeked, id);
    AwaitAddsNoCancel(cfg, s, s.tasks[key], peeked);
    if !PendingElsewhere(s.tasks, key, id) && id in QueuedIds(s.rows) && !AtHand(s, id) {
      var k :| k in s.tasks && TaskHolds(s.tasks[k], id);
      assert k == key;
    }
    LeaveRemembers(o, key, id);
  }

  // ---- cancelled rows stay cancelled ------------------------------------------------

  ghost predicate StaysCancelled(rows: Table, rows': Table) {
    forall id :: id in rows && rows[id].status == Cancelled ==> id in rows' && rows'[id].status == Cancelled
  }

  /** The continuation of a cancellation finds the row cancelled. */
  ghost predicate CancelsDone(s: State) {
    forall k :: k in s.tasks && s.tasks[k].CancelStored? ==>
      s.tasks[k].id in s.rows && s.rows[s.tasks[k].id].status == Cancelled
  }

  lemma OpKeepsCancelled(rows: Table, op: Op)
    ensures StaysCancelled(rows, Apply(rows, op))
  {
  }

  lemma {:induction false} OpsKeepCancelled(rows: Table, ops: seq<Op>)
    ensures StaysCancelled(rows, Run(rows, ops))
    decreases |ops|
  {
    if ops != [] {
      OpKeepsCancelled(rows, ops[0]);
      OpsKeepCancelled(Apply(rows, ops[0]), ops[1..]);
    }
  }

  lemma AlarmAddsNoCancel(cfg: Config, s: State, task: Task, peeked: seq<Job>)
    requires Wf(s.ready)
    requires task.AlarmInit? || task.AlarmDue? || task.AlarmReclaimed? || task.AlarmRebuild?
             || task.AlarmSwept? || task.AlarmBackstop?
    ensures var o := AfterAwait(cfg, s, task, peeked); o.next.Some? ==> !o.next.value.CancelStored?
  {
  }

  lemma JobAddsNoCancel(cfg: Config, s: State, task: Task)
    requires Wf(s.ready)
    requires task.EnqueueInit? || task.EnqueueReady? || task.EnqueueStored? || task.CancelStored?
             || task.FailReturned? || task.Settling? || task.RetryTimer?
    ensures var o := AfterAwait(cfg, s, task, []); o.next.Some? ==> !o.next.value.CancelStored?
  {
  }

  /** Only the call itself creates a cancellation's continuation. */
  lemma AwaitAddsNoCancel(cfg: Config, s: State, task: Task, peeked: seq<Job>)
    requires !task.Executing? && Wf(s.ready)
    ensures var o := AfterAwait(cfg, s, task, peeked);
            o.state.tasks == s.tasks && (o.next.Some? ==> !o.next.value.CancelStored?)
  {
    AwaitFrame(cfg, s, task, peeked);
    if task.AlarmInit? || task.AlarmDue? || task.AlarmReclaimed? || task.AlarmRebuild?
       || task.AlarmSwept? || task.AlarmBackstop? {
      AlarmAddsNoCancel(cfg, s, task, peeked);
    } else {
      JobAddsNoCancel(cfg, s, task);
    }
  }

  lemma ResumeAddsNoCancel(cfg: Config, s: State, key: nat, peeked: seq<Job>, k: nat)
    requires Wf(s.ready) && Enabled(cfg, s, Resume(key, peeked))
    requires k in OnResume(cfg, s, key, peeked).tasks && OnResume(cfg, s, key, peeked).tasks[k].CancelStored?
    ensures k in s.tasks && s.tasks[k] == OnResume(cfg, s, key, peeked).tasks[k]
  {
    AwaitAddsNoCancel(cfg, s, s.tasks[key], peeked);
    var o := AfterAwait(cfg, s, s.tasks[key], peeked);
    assert Leave(o, key).tasks == if o.next.Some? then s.tasks[key := o.next.value] else s.tasks - {key};
  }

  lemma StepAddsNoCancel(cfg: Config, s: State, step: Step, k: nat)
    requires Wf(s.ready) && Enabled(cfg, s, step) && !step.CancelCall?
    requires k in Do(cfg, s, step).tasks && Do(cfg, s, step).tasks[k].CancelStored?
    ensures k in s.tasks && s.tasks[k] == Do(cfg, s, step).tasks[k]
  {
    match step
    case Resume(key, peeked) => ResumeAddsNoCancel(cfg, s, key, peeked, k);
    case LoopStep(key) => LoopFrame(cfg, s, key);
    case RunEnds(key, end) => RunEndFrame(cfg, s, key, end);
    case Tick(_) =>
    case Crash =>
    case EnqueueCall(_, _, _, _) =>
    case AlarmCall(_, _) =>
    case CancelTenantCall(_, _) =>
  }

  lemma StepKeepsCancelsDone(cfg: Config, s: State, step: Step)
    requires Shape(s) && Enabled(cfg, s, step) && CancelsDone(s)
    ensures CancelsDone(Do(cfg, s, step))
  {
    StepIsHistory(cfg, s, step);
    OpsKeepCancelled(s.rows, RowOps(cfg, s, step));
    var s' := Do(cfg, s, step);
    forall k | k in s'.tasks && s'.tasks[k].CancelStored?
      ensures s'.tasks[k].id in s'.rows && s'.rows[s'.tasks[k].id].status == Cancelled
    {
      if !step.CancelCall? {
        StepAddsNoCancel(cfg, s, step, k);
      }
    }
  }

  // ---- all steps ----------------------------------------------------------------------

  ghost predicate Durable(s: State) {
    Shape(s) && CancelsDone(s) && NothingStranded(s)
  }

  /** Every step of every interleaving leaves every queued job remembered, unless it
      peeks at more queued rows than a peek returns. */
  lemma StepKeepsDurable(cfg: Config, s: State, step: Step)
    requires Durable(s) && Enabled(cfg, s, step) && PeekSeesAll(cfg, s, step)
    ensures Durable(Do(cfg, s, step))
  {
    StepKeepsShape(cfg, s, step);
    StepKeepsCancelsDone(cfg, s, step);
    var s' := Do(cfg, s, step);
    if s'.initialized {
      forall id | id in QueuedIds(s'.rows)
        ensures Remembered(s', id)
      {
        StepRemembers(cfg, s, step, id);
      }
    }
  }

  lemma WorkRemembers(cfg: Config, s: State, step: Step, id: JobId)
    requires Durable(s) && Enabled(cfg, s, step) && PeekSeesAll(cfg, s, step) && s.initialized
    requires step.LoopStep? || step.RunEnds? || step.Resume?
    requires id in QueuedIds(Do(cfg, s, step).rows)
    ensures Remembered(Do(cfg, s, step), id)
  {
    match step
    case LoopStep(key) => LoopStepRemembers(cfg, s, key, id);
    case RunEnds(key, end) => RunEndsRemembers(cfg, s, key, end, id);
    case Resume(key, peeked) => ResumeRemembers(cfg, s, key, peeked, id);
  }

  lemma StepRemembers(cfg: Config, s: State, step: Step, id: JobId)
    requires Durable(s) && Enabled(cfg, s, step) && PeekSeesAll(cfg, s, step)
    requires Do(cfg, s, step).initialized && id in QueuedIds(Do(cfg, s, step).rows)
    ensures Remembered(Do(cfg, s, step), id)
  {
    match step
    case Tick(_) => assert Remembered(s, id);
    case Crash =>
    case LoopStep(key) =>
      LoopFrame(cfg, s, key);
      WorkRemembers(cfg, s, step, id);
    case RunEnds(_, _) => WorkRemembers(cfg, s, step, id);
    case Resume(key, peeked) =>
      AwaitFrame(cfg, s, s.tasks[key], peeked);
      WorkRemembers(cfg, s, step, id);
    case _ => CallRemembers(cfg, s, step, id);
  }

  /** No peek of the run meets more queued rows than it returns. */
  ghost predicate PeeksSeeAll(cfg: Config, s: State, steps: seq<Step>)
    requires Runs(cfg, s, steps)
    decreases |steps|
  {
    steps != [] ==> PeekSeesAll(cfg, s, steps[0]) && PeeksSeeAll(cfg, Do(cfg, s, steps[0]), steps[1..])
  }

  /** In every reachable state every queued job is remembered. */
  lemma {:induction false} NoJobIsStranded(cfg: Config, s: State, steps: seq<Step>)
    requires Durable(s) && Runs(cfg, s, steps) && PeeksSeeAll(cfg, s, steps)
    ensures Durable(End(cfg, s, steps))
    decreases |steps|
  {
    if steps != [] {
      StepKeepsDurable(cfg, s, steps[0]);
      NoJobIsStranded(cfg, Do(cfg, s, steps[0]), steps[1..]);
    }
  }

  lemma InitialIsDurable(now: int)
    ensures Durable(Initial(now))
  {
  }
}
