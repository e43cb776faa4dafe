/** When wakeups can be lost at all: never with the default unbounded queue, and
    for good after a restart that finds a bounded queue full. */
module SchedulerStall {
  import opened Collections
  import opened Options
  import opened JobTable
  import opened JobHistories
  import opened ReadyQueue
  import opened Scheduler
  import opened SchedulerFrames
  import opened SchedulerHistory
  import opened SchedulerShape
  import opened SchedulerProgress

  // ---- fresh ids are inserted ----------------------------------------------------------

  predicate Unstored(task: Task) {
    task.EnqueueInit? || task.EnqueueReady?
  }

  /** A pending enqueue carries an id that no row and no other pending enqueue has. */
  ghost predicate FreshEnqueues(s: State) {
    && (forall k :: k in s.tasks && Unstored(s.tasks[k]) ==> s.tasks[k].job.id !in s.rows)
    && (forall k, l :: k in s.tasks && l in s.tasks && k != l && Unstored(s.tasks[k]) && Unstored(s.tasks[l]) ==>
          s.tasks[k].job.id != s.tasks[l].job.id)
  }

  lemma OpKeepsKeys(rows: Table, op: Op)
    ensures Apply(rows, op).Keys <= rows.Keys + (if op.EnqueueOp? then {op.id} else {})
  {
  }

  lemma {:induction false} OpsKeepKeys(rows: Table, ops: seq<Op>)
    requires forall op :: op in ops ==> !op.EnqueueOp?
    ensures Run(rows, ops).Keys <= rows.Keys
    decreases |ops|
  {
    if ops != [] {
      assert ops[0] in ops && forall op :: op in ops[1..] ==> op in ops;
      OpKeepsKeys(rows, ops[0]);
      OpsKeepKeys(Apply(rows, ops[0]), ops[1..]);
    }
  }

  /** No step but the storing one turns a task into, or moves, a pending enqueue. */
  ghost predicate NoNewEnqueue(s: State, s': State) {
    forall k :: k in s'.tasks && Unstored(s'.tasks[k]) ==>
      k in s.tasks && Unstored(s.tasks[k]) && s.tasks[k].job == s'.tasks[k].job
  }

  lemma SubsetStaysFresh(s: State, s': State)
    requires FreshEnqueues(s) && NoNewEnqueue(s, s') && s'.rows.Keys <= s.rows.Keys
    ensures FreshEnqueues(s')
  {
  }

  lemma AwaitAddsNoEnqueue(cfg: Config, s: State, task: Task, peeked: seq<Job>)
    requires !task.Executing? && Wf(s.ready)
    ensures var next := AfterAwait(cfg, s, task, peeked).next;
            next.Some? && Unstored(next.value) ==> Unstored(task) && next.value.job == task.job
  {
    match task
    case EnqueueInit(_, _) =>
    case EnqueueReady(job, _) =>
      assert AfterReady(cfg, s, job).next.Some? ==> AfterReady(cfg, s, job).next.value.EnqueueStored?;
    case FailReturned(job, next) => assert AfterFail(s, job, next).next.value.Settling?;
    case Settling(_, _) =>
    case EnqueueStored(_) =>
    case CancelStored(_) =>
    case RetryTimer(_) =>
    case AlarmInit(_) =>
    case AlarmDue =>
    case AlarmReclaimed(_, _) =>
    case AlarmRebuild(_, _) =>
    case AlarmSwept =>
    case AlarmBackstop(_) =>
  }

  lemma ResumeKeepsFresh(cfg: Config, s: State, key: nat, peeked: seq<Job>)
    requires Shape(s) && FreshEnqueues(s) && Enabled(cfg, s, Resume(key, peeked))
    ensures FreshEnqueues(OnResume(cfg, s, key, peeked))
  {
    var task := s.tasks[key];
    var o := AfterAwait(cfg, s, task, peeked);
    AwaitAddsNoEnqueue(cfg, s, task, peeked);
    AwaitKeepsTasks(cfg, s, task, peeked);
    AwaitKeepsKeys(cfg, s, task, peeked);
    StoredTaskIsGone(cfg, s, task, peeked);
    LeaveKeepsFresh(s, key, o);
  }

  lemma AwaitKeepsKeys(cfg: Config, s: State, task: Task, peeked: seq<Job>)
    requires !task.Executing? && Wf(s.ready)
    ensures AfterAwait(cfg, s, task, peeked).state.rows.Keys <=
            s.rows.Keys + (if task.EnqueueReady? then {task.job.id} else {})
  {
    AwaitRows(cfg, s, task, peeked);
    var op := AwaitOp(cfg, s, task);
    if op.Some? {
      OpKeepsKeys(s.rows, op.value);
    }
  }

  lemma StoredTaskIsGone(cfg: Config, s: State, task: Task, peeked: seq<Job>)
    requires Wf(s.ready) && !task.Executing?
    ensures var next := AfterAwait(cfg, s, task, peeked).next;
            task.EnqueueReady? && next.Some? ==> !Unstored(next.value)
  {
    if task.EnqueueReady? {
      assert AfterReady(cfg, s, task.job).next.Some? ==> AfterReady(cfg, s, task.job).next.value.EnqueueStored?;
    }
  }

  /** The row that a continuation adds is that of its own enqueue, which is over. */
  lemma LeaveKeepsFresh(s: State, key: nat, o: Outcome)
    requires FreshEnqueues(s) && key in s.tasks && o.state.tasks == s.tasks
    requires o.next.Some? && Unstored(o.next.value) ==> Unstored(s.tasks[key]) && o.next.value.job == s.tasks[key].job
    requires s.tasks[key].EnqueueReady? && o.next.Some? ==> !Unstored(o.next.value)
    requires o.state.rows.Keys <= s.rows.Keys + (if s.tasks[key].EnqueueReady? then {s.tasks[key].job.id} else {})
    ensures FreshEnqueues(Leave(o, key))
  {
    LeaveKeepsTasks(o, key);
    var s' := Leave(o, key);
    assert s'.rows == o.state.rows;
    assert NoNewEnqueue(s, s');
    forall k | k in s'.tasks && Unstored(s'.tasks[k]) ensures s'.tasks[k].job.id !in s'.rows {
      assert Unstored(s.tasks[k]) && s.tasks[k].job.id !in s.rows;
      if s.tasks[key].EnqueueReady? {
        assert k != key;
      }
    }
  }

  lemma EnqueueCallKeepsFresh(cfg: Config, s: State, key: nat, id: JobId, spec: Spec, peeked: seq<Job>)
    requires Shape(s) && FreshEnqueues(s) && Enabled(cfg, s, EnqueueCall(key, id, spec, peeked))
    ensures FreshEnqueues(OnEnqueue(s, key, id, spec, peeked))
  {
    forall k | k in s.tasks && Unstored(s.tasks[k])
      ensures s.tasks[k].job.id != id
    {
      assert TaskKnown(s.catalog, s.tasks[k]);
    }
  }

  lemma LoopAddsNoEnqueue(cfg: Config, s: State, key: nat)
    requires Wf(s.ready) && Enabled(cfg, s, LoopStep(key))
    ensures NoNewEnqueue(s, Do(cfg, s, LoopStep(key)))
  {
    LoopFrame(cfg, s, key);
  }

  lemma UpdateAddsNoEnqueue(cfg: Config, s: State, step: Step)
    requires Shape(s) && Enabled(cfg, s, step)
    requires step.LoopStep? || step.CancelCall? || step.CancelTenantCall? || step.RunEnds?
    ensures NoNewEnqueue(s, Do(cfg, s, step))
  {
    match step
    case LoopStep(key) => LoopAddsNoEnqueue(cfg, s, key);
    case RunEnds(key, end) => RunEndFrame(cfg, s, key, end);
    case CancelCall(_, _) =>
    case CancelTenantCall(_, _) =>
  }

  lemma UpdateKeepsKeys(cfg: Config, s: State, step: Step)
    requires Shape(s) && Enabled(cfg, s, step)
    requires step.LoopStep? || step.CancelCall? || step.CancelTenantCall? || step.RunEnds?
    ensures Do(cfg, s, step).rows.Keys <= s.rows.Keys
  {
    StepIsHistory(cfg, s, step);
    OpsKeepKeys(s.rows, RowOps(cfg, s, step));
  }

  lemma UpdateKeepsFresh(cfg: Config, s: State, step: Step)
    requires Shape(s) && FreshEnqueues(s) && Enabled(cfg, s, step)
    requires step.LoopStep? || step.CancelCall? || step.CancelTenantCall? || step.RunEnds?
    ensures FreshEnqueues(Do(cfg, s, step))
  {
    UpdateAddsNoEnqueue(cfg, s, step);
    UpdateKeepsKeys(cfg, s, step);
    SubsetStaysFresh(s, Do(cfg, s, step));
  }

  lemma StepKeepsFresh(cfg: Config, s: State, step: Step)
    requires Shape(s) && FreshEnqueues(s) && Enabled(cfg, s, step)
    ensures FreshEnqueues(Do(cfg, s, step))
  {
    match step
    case EnqueueCall(key, id, spec, peeked) => EnqueueCallKeepsFresh(cfg, s, key, id, spec, peeked);
    case Resume(key, peeked) => ResumeKeepsFresh(cfg, s, key, peeked);
    case Tick(_) =>
    case Crash =>
    case AlarmCall(_, _) => SubsetStaysFresh(s, Do(cfg, s, step));
    case LoopStep(_) => UpdateKeepsFresh(cfg, s, step);
    case CancelCall(_, _) => UpdateKeepsFresh(cfg, s, step);
    case CancelTenantCall(_, _) => UpdateKeepsFresh(cfg, s, step);
    case RunEnds(_, _) => UpdateKeepsFresh(cfg, s, step);
  }

  /** The job has the empty text for a key, and so has some row. */
  predicate EmptyKeyTaken(rows: Table, spec: Spec) {
    spec.idempotencyKey == Some(EMPTY_KEY) && exists id :: id in rows && rows[id].spec.idempotencyKey == Some(EMPTY_KEY)
  }

  /** With a fresh id an enqueue is rejected only by a full queue, or for an empty key that is
      taken. */
  lemma RejectedIff(cfg: Config, s: State, job: Job)
    requires Wf(s.ready) && job.id !in s.rows
    ensures EnqueueRejected(cfg, s, job) <==> QueueFull(cfg, s) || EmptyKeyTaken(s.rows, job.spec)
  {
  }

  /** The step rejects an enqueue that has run the first rebuild. */
  predicate RejectsRebuilder(cfg: Config, s: State, step: Step)
    requires Wf(s.ready)
  {
    && step.Resume? && step.key in s.tasks && s.tasks[step.key].EnqueueReady?
    && s.tasks[step.key].ranInit && EnqueueRejected(cfg, s, s.tasks[step.key].job)
  }

  ghost predicate RebuildersGetIn(cfg: Config, s: State, steps: seq<Step>)
    requires Runs(cfg, s, steps)
    decreases |steps|
  {
    steps != [] ==> !RejectsRebuilder(cfg, s, steps[0]) && RebuildersGetIn(cfg, Do(cfg, s, steps[0]), steps[1..])
  }

  /** Whatever the depth of the queue, a run in which no enqueue is rejected that has just
      rebuilt the ready set loses no wakeup. */
  lemma {:induction false} WakeupsAreKept(cfg: Config, s: State, steps: seq<Step>)
    requires Shape(s) && NoWakeupLost(cfg, s)
    requires Runs(cfg, s, steps) && RebuildersGetIn(cfg, s, steps)
    ensures NoWakeupLost(cfg, End(cfg, s, steps))
    decreases |steps|
  {
    if steps != [] {
      StepKeepsShape(cfg, s, steps[0]);
      StepKeepsWakeupIff(cfg, s, steps[0]);
      WakeupsAreKept(cfg, Do(cfg, s, steps[0]), steps[1..]);
    }
  }

  // ---- empty keys ----------------------------------------------------------------------------

  /** No pending enqueue has the empty text for a key. */
  ghost predicate KeysAreProper(s: State) {
    forall k :: k in s.tasks && Unstored(s.tasks[k]) ==> s.tasks[k].job.spec.idempotencyKey != Some(EMPTY_KEY)
  }

  ghost predicate ProperCalls(steps: seq<Step>) {
    forall step :: step in steps && step.EnqueueCall? ==> step.spec.idempotencyKey != Some(EMPTY_KEY)
  }

  lemma SubsetStaysProper(s: State, s': State)
    requires KeysAreProper(s) && NoNewEnqueue(s, s')
    ensures KeysAreProper(s')
  {
  }

  lemma ResumeKeepsProper(cfg: Config, s: State, key: nat, peeked: seq<Job>)
    requires Wf(s.ready) && KeysAreProper(s) && Enabled(cfg, s, Resume(key, peeked))
    ensures KeysAreProper(OnResume(cfg, s, key, peeked))
  {
    var o := AfterAwait(cfg, s, s.tasks[key], peeked);
    AwaitAddsNoEnqueue(cfg, s, s.tasks[key], peeked);
    AwaitKeepsTasks(cfg, s, s.tasks[key], peeked);
    LeaveKeepsTasks(o, key);
    SubsetStaysProper(s, Leave(o, key));
  }

  lemma CallKeepsProper(cfg: Config, s: State, step: Step)
    requires Wf(s.ready) && KeysAreProper(s) && Enabled(cfg, s, step)
    requires step.EnqueueCall? || step.AlarmCall?
    requires step.EnqueueCall? ==> step.spec.idempotencyKey != Some(EMPTY_KEY)
    ensures KeysAreProper(Do(cfg, s, step))
  {
  }

  lemma StepKeepsProper(cfg: Config, s: State, step: Step)
    requires Shape(s) && KeysAreProper(s) && Enabled(cfg, s, step) && ProperCalls([step])
    ensures KeysAreProper(Do(cfg, s, step))
  {
    match step
    case Tick(_) =>
    case Crash =>
    case Resume(key, peeked) => ResumeKeepsProper(cfg, s, key, peeked);
    case EnqueueCall(_, _, _, _) =>
      assert step in [step];
      CallKeepsProper(cfg, s, step);
    case AlarmCall(_, _) => CallKeepsProper(cfg, s, step);
    case _ =>
      UpdateAddsNoEnqueue(cfg, s, step);
      SubsetStaysProper(s, Do(cfg, s, step));
  }

  lemma {:induction false} UnboundedQueuesLetIn(cfg: Config, s: State, steps: seq<Step>)
    requires cfg.maxQueueDepth.None? && Shape(s) && FreshEnqueues(s) && KeysAreProper(s)
    requires Runs(cfg, s, steps) && ProperCalls(steps)
    ensures RebuildersGetIn(cfg, s, steps)
    decreases |steps|
  {
    if steps != [] {
      var step := steps[0];
      assert step in steps && forall later :: later in steps[1..] ==> later in steps;
      if step.Resume? && s.tasks[step.key].EnqueueReady? {
        RejectedIff(cfg, s, s.tasks[step.key].job);
      }
      StepKeepsShape(cfg, s, step);
      StepKeepsFresh(cfg, s, step);
      StepKeepsProper(cfg, s, step);
      UnboundedQueuesLetIn(cfg, Do(cfg, s, step), steps[1..]);
    }
  }

  /** With the default unbounded queue no run loses a wakeup, if nobody enqueues with an
      empty key. */
  lemma UnboundedQueueKeepsWakeups(cfg: Config, s: State, steps: seq<Step>)
    requires cfg.maxQueueDepth.None? && KeysAreProper(s) && ProperCalls(steps)
    requires Shape(s) && FreshEnqueues(s) && NoWakeupLost(cfg, s) && Runs(cfg, s, steps)
    ensures NoWakeupLost(cfg, End(cfg, s, steps))
  {
    UnboundedQueuesLetIn(cfg, s, steps);
    WakeupsAreKept(cfg, s, steps);
  }

  // ---- a full queue after a restart ------------------------------------------------------

  /** Jobs are ready and slots are free, but the loop is down and every pending
      continuation is an enqueue that the full queue is going to reject. */
  ghost predicate Stalled(cfg: Config, s: State) {
    && Wf(s.ready) && s.initialized && s.loop == Down && s.running == map[]
    && !Blocked(cfg, s.ready, s.running)
    && QueueFull(cfg, s)
    && forall k :: k in s.tasks ==> s.tasks[k].EnqueueReady? && !s.tasks[k].ranInit
  }

  lemma {:induction false} TotalIgnores(queues: map<TenantId, seq<Job>>, order: seq<TenantId>, t: TenantId, q: seq<Job>)
    requires (forall u :: u in order ==> u in queues) && t !in order
    ensures Total(queues[t := q], order) == Total(queues, order)
  {
    if order != [] {
      TotalIgnores(queues, order[1..], t, q);
    }
  }

  lemma {:induction false} TotalUpdates(queues: map<TenantId, seq<Job>>, order: seq<TenantId>, t: TenantId, q: seq<Job>)
    requires (forall u :: u in order ==> u in queues) && Distinct(order) && t in order
    ensures Total(queues[t := q], order) == Total(queues, order) - |queues[t]| + |q|
  {
    if order[0] == t {
      TotalIgnores(queues, order[1..], t, q);
    } else {
      TotalUpdates(queues, order[1..], t, q);
    }
  }

  lemma {:induction false} TotalAppends(queues: map<TenantId, seq<Job>>, order: seq<TenantId>, t: TenantId)
    requires (forall u :: u in order ==> u in queues) && t in queues
    ensures Total(queues, order + [t]) == Total(queues, order) + |queues[t]|
  {
    if order == [] {
      assert Total(queues, [t]) == |queues[t]| + Total(queues, []);
    } else {
      assert (order + [t])[1..] == order[1..] + [t];
      TotalAppends(queues, order[1..], t);
    }
  }

  lemma PushAddsOne(r: Ready, job: Job)
    requires Wf(r)
    ensures Wf(Push(r, job))
    ensures Total(Push(r, job).queues, Push(r, job).order) == Total(r.queues, r.order) + 1
  {
    PushWf(r, job);
    var t := job.spec.tenantId;
    if t in r.queues {
      TotalUpdates(r.queues, r.order, t, r.queues[t] + [job]);
    } else {
      TotalIgnores(r.queues, r.order, t, [job]);
      TotalAppends(r.queues[t := [job]], r.order, t);
    }
  }

  lemma {:induction false} PushAllAddsAll(r: Ready, jobs: seq<Job>)
    requires Wf(r)
    ensures Wf(PushAll(r, jobs))
    ensures Total(PushAll(r, jobs).queues, PushAll(r, jobs).order) == Total(r.queues, r.order) + |jobs|
    decreases |jobs|
  {
    if jobs != [] {
      PushAddsOne(r, jobs[0]);
      PushAllAddsAll(Push(r, jobs[0]), jobs[1..]);
    }
  }

  /** After the first enqueue of a restarted scheduler has rebuilt the ready set. */
  lemma RebuiltByEnqueue(cfg: Config, s: State, key: nat, id: JobId, spec: Spec, peeked: seq<Job>)
    requires Shape(s) && Enabled(cfg, OnCrash(s), EnqueueCall(key, id, spec, peeked))
    ensures var rebuilt := OnResume(cfg, OnEnqueue(OnCrash(s), key, id, spec, peeked), key, []);
            && rebuilt.ready == PushAll(EMPTY, peeked)
            && rebuilt.tasks == map[key := EnqueueReady(Job(id, spec, 0), true)]
            && rebuilt.loop == Down && rebuilt.running == map[] && rebuilt.rows == s.rows && rebuilt.initialized
  {
    var called := OnEnqueue(OnCrash(s), key, id, spec, peeked);
    assert called.tasks == map[key := EnqueueInit(Job(id, spec, 0), peeked)];
    var next := EnqueueReady(Job(id, spec, 0), true);
    assert called.tasks[key := next] == map[key := next];
  }

  /** How many queued jobs a rebuild finds. */
  function Found(rows: Table): nat {
    if |QueuedIds(rows)| <= PEEK_LIMIT then |QueuedIds(rows)| else PEEK_LIMIT
  }

  /** The scheduler has slots to give. */
  predicate HasSlots(cfg: Config) {
    cfg.inFlightLimit >= 1 && cfg.fairCapacityPerTenant >= 1
  }

  lemma RebuiltIsFullIff(cfg: Config, rows: Table, peeked: seq<Job>, s: State)
    requires IsPeek(rows, peeked) && s.ready == PushAll(EMPTY, peeked)
    ensures Wf(s.ready) && (s.ready.order != [] <==> Found(rows) >= 1)
    ensures QueueFull(cfg, s) <==> cfg.maxQueueDepth.Some? && Found(rows) >= cfg.maxQueueDepth.value
  {
    PushAllAddsAll(EMPTY, peeked);
    TotalIsPositive(s.ready);
  }

  lemma FreeSlotsBlockNothing(cfg: Config, r: Ready)
    ensures Blocked(cfg, r, map[]) <==> r.order == [] || !HasSlots(cfg)
  {
    var none: Running := map[];
    assert forall t :: RunningOf(none, t) == {};
    if r.order != [] && HasSlots(cfg) {
      assert r.order[0] in r.order && UnderCap(none, cfg.fairCapacityPerTenant, r.order[0]);
    }
  }

  lemma RejectedRebuilderLeaves(cfg: Config, s: State, key: nat, job: Job)
    requires Wf(s.ready) && s.tasks == map[key := EnqueueReady(job, true)] && job.id !in s.rows
    ensures EnqueueRejected(cfg, s, job) ==> OnResume(cfg, s, key, []) == s.(tasks := map[])
    ensures !EnqueueRejected(cfg, s, job) ==>
              OnResume(cfg, s, key, []).tasks == map[key := EnqueueStored(job)]
              && OnResume(cfg, s, key, []).loop == s.loop
  {
    assert s.tasks - {key} == map[];
    assert s.tasks[key := EnqueueStored(job)] == map[key := EnqueueStored(job)];
  }

  /** The enqueue that has just rebuilt the ready set. */
  lemma RebuilderStallsIff(cfg: Config, s: State, key: nat, job: Job, rows: Table, peeked: seq<Job>)
    requires IsPeek(rows, peeked) && s.ready == PushAll(EMPTY, peeked) && s.initialized
    requires s.loop == Down && s.running == map[] && s.tasks == map[key := EnqueueReady(job, true)]
    requires s.rows == rows && job.id !in rows
    ensures Wf(s.ready)
    ensures Stalled(cfg, OnResume(cfg, s, key, [])) <==>
              && HasSlots(cfg) && Found(rows) >= 1
              && cfg.maxQueueDepth.Some? && Found(rows) >= cfg.maxQueueDepth.value
    ensures Stalled(cfg, OnResume(cfg, s, key, [])) ==> OnResume(cfg, s, key, []).rows == s.rows
    ensures NoWakeupLost(cfg, OnResume(cfg, s, key, [])) <==>
              !(HasSlots(cfg) && Found(rows) >= 1 &&
                (EmptyKeyTaken(rows, job.spec) || (cfg.maxQueueDepth.Some? && Found(rows) >= cfg.maxQueueDepth.value)))
  {
    RebuiltIsFullIff(cfg, rows, peeked, s);
    FreeSlotsBlockNothing(cfg, s.ready);
    RejectedIff(cfg, s, job);
    RejectedRebuilderLeaves(cfg, s, key, job);
    if !EnqueueRejected(cfg, s, job) {
      assert OnResume(cfg, s, key, []).tasks[key].EnqueueStored?;
    }
  }

  /** The first enqueue after a restart rebuilds the ready set, is rejected, and leaves the
      scheduler stalled exactly if the rebuild has found some job and at least `maxQueueDepth`
      of them, and there are slots to give. */
  lemma RestartStallsIff(cfg: Config, s: State, key: nat, id: JobId, spec: Spec, peeked: seq<Job>)
    requires Shape(s) && Enabled(cfg, OnCrash(s), EnqueueCall(key, id, spec, peeked))
    ensures var called := OnEnqueue(OnCrash(s), key, id, spec, peeked);
            var rebuilt := OnResume(cfg, called, key, []);
            && key in rebuilt.tasks && rebuilt.tasks[key].EnqueueReady? && Wf(rebuilt.ready)
            && (Stalled(cfg, OnResume(cfg, rebuilt, key, [])) <==>
                  && HasSlots(cfg) && Found(s.rows) >= 1
                  && cfg.maxQueueDepth.Some? && Found(s.rows) >= cfg.maxQueueDepth.value)
            && (Stalled(cfg, OnResume(cfg, rebuilt, key, [])) ==> OnResume(cfg, rebuilt, key, []).rows == s.rows)
  {
    RebuiltByEnqueue(cfg, s, key, id, spec, peeked);
    var rebuilt := OnResume(cfg, OnEnqueue(OnCrash(s), key, id, spec, peeked), key, []);
    RebuilderStallsIff(cfg, rebuilt, key, Job(id, spec, 0), s.rows, peeked);
  }

  /** And exactly when it loses the wakeup that the rebuild has called for. */
  lemma RestartKeepsWakeupIff(cfg: Config, s: State, key: nat, id: JobId, spec: Spec, peeked: seq<Job>)
    requires Shape(s) && Enabled(cfg, OnCrash(s), EnqueueCall(key, id, spec, peeked))
    ensures var called := OnEnqueue(OnCrash(s), key, id, spec, peeked);
            var rebuilt := OnResume(cfg, called, key, []);
            && key in rebuilt.tasks && rebuilt.tasks[key].EnqueueReady? && Wf(rebuilt.ready)
            && (NoWakeupLost(cfg, OnResume(cfg, rebuilt, key, [])) <==>
                  !(HasSlots(cfg) && Found(s.rows) >= 1 &&
                    (EmptyKeyTaken(s.rows, spec)
                     || (cfg.maxQueueDepth.Some? && Found(s.rows) >= cfg.maxQueueDepth.value))))
  {
    RebuiltByEnqueue(cfg, s, key, id, spec, peeked);
    var rebuilt := OnResume(cfg, OnEnqueue(OnCrash(s), key, id, spec, peeked), key, []);
    RebuilderStallsIff(cfg, rebuilt, key, Job(id, spec, 0), s.rows, peeked);
  }

  ghost predicate OnlyEnqueues(steps: seq<Step>) {
    forall step :: step in steps ==> step.EnqueueCall? || step.Resume? || step.Tick?
  }

  lemma RejectionStaysStalled(cfg: Config, s: State, key: nat, peeked: seq<Job>)
    requires Stalled(cfg, s) && key in s.tasks
    ensures Stalled(cfg, OnResume(cfg, s, key, peeked)) && OnResume(cfg, s, key, peeked).rows == s.rows
  {
    assert OnResume(cfg, s, key, peeked) == Finish(s, key);
  }

  lemma StepStaysStalled(cfg: Config, s: State, step: Step)
    requires Stalled(cfg, s) && Enabled(cfg, s, step) && (step.EnqueueCall? || step.Resume? || step.Tick?)
    ensures Stalled(cfg, Do(cfg, s, step)) && Do(cfg, s, step).rows == s.rows
  {
    if step.Resume? {
      RejectionStaysStalled(cfg, s, step.key, step.peeked);
    }
  }

  /** A stalled scheduler stays stalled, and no job moves, however many enqueues
      follow: only an alarm or a cancellation can help. */
  lemma {:induction false} EnqueuesCannotUnstall(cfg: Config, s: State, steps: seq<Step>)
    requires Stalled(cfg, s) && Runs(cfg, s, steps) && OnlyEnqueues(steps)
    ensures Stalled(cfg, End(cfg, s, steps)) && End(cfg, s, steps).rows == s.rows
    decreases |steps|
  {
    if steps != [] {
      assert steps[0] in steps && forall step :: step in steps[1..] ==> step in steps;
      StepStaysStalled(cfg, s, steps[0]);
      EnqueuesCannotUnstall(cfg, Do(cfg, s, steps[0]), steps[1..]);
    }
  }
}
