/** The structural invariant of the scheduler: every copy of a job anywhere agrees
    with what was submitted under its id. */
module SchedulerShape {
  import opened Options
  import opened JobTable
  import opened ReadyQueue
  import opened Scheduler

  predicate Known(catalog: map<JobId, Spec>, j: Job) {
    j.id in catalog && catalog[j.id] == j.spec
  }

  ghost predicate AllKnown(catalog: map<JobId, Spec>, jobs: seq<Job>) {
    forall j :: j in jobs ==> Known(catalog, j)
  }

  predicate LoopKnown(catalog: map<JobId, Spec>, loop: Loop) {
    match loop
    case Down => true
    case AtHead => true
    case Claiming(job, at) => Known(catalog, job) && job.spec.deadlineMs > at
    case Claimed(got) => got.Some? ==> Known(catalog, got.value)
    case Expiring(job) => Known(catalog, job)
  }

  ghost predicate TaskKnown(catalog: map<JobId, Spec>, task: Task) {
    match task
    case EnqueueInit(job, snapshot) => Known(catalog, job) && AllKnown(catalog, snapshot)
    case EnqueueReady(job, _) => Known(catalog, job)
    case EnqueueStored(job) => Known(catalog, job)
    case AlarmInit(snapshot) => AllKnown(catalog, snapshot)
    case AlarmDue => true
    case AlarmReclaimed(_, _) => true
    case AlarmRebuild(snapshot, _) => AllKnown(catalog, snapshot)
    case AlarmSwept => true
    case AlarmBackstop(snapshot) => AllKnown(catalog, snapshot)
    case CancelStored(_) => true
    case Executing(job) => Known(catalog, job)
    case FailReturned(job, _) => Known(catalog, job)
    case Settling(job, retry) => Known(catalog, job) && (retry.Some? ==> Known(catalog, retry.value))
    case RetryTimer(job) => Known(catalog, job)
  }

  ghost predicate RowsKnown(catalog: map<JobId, Spec>, rows: Table) {
    forall id :: id in rows ==> id in catalog && rows[id].spec == catalog[id]
  }

  ghost predicate ReadyKnown(catalog: map<JobId, Spec>, r: Ready) {
    forall j :: Contains(r, j) ==> Known(catalog, j)
  }

  ghost predicate TasksKnown(catalog: map<JobId, Spec>, tasks: map<nat, Task>) {
    forall k :: k in tasks ==> TaskKnown(catalog, tasks[k])
  }

  /** Before the first rebuild the object is idle: only cancellations can be pending. */
  ghost predicate IdleUntilInit(s: State) {
    !s.initialized ==>
      && s.ready == EMPTY && s.running == map[] && s.loop == Down
      && forall k :: k in s.tasks ==> s.tasks[k].CancelStored?
  }

  ghost predicate Shape(s: State) {
    && Wf(s.ready)
    && RowsKnown(s.catalog, s.rows)
    && ReadyKnown(s.catalog, s.ready)
    && LoopKnown(s.catalog, s.loop)
    && TasksKnown(s.catalog, s.tasks)
    && (forall id :: id in s.catalog ==> s.catalog[id].deadlineMs > 0)
    && IdleUntilInit(s)
  }

  lemma InitialShape(now: int)
    ensures Shape(Initial(now))
  {
  }

  // ---- one component at a time ---------------------------------------------------

  lemma ContinueShape(s: State, key: nat, task: Task)
    requires Shape(s) && TaskKnown(s.catalog, task) && (s.initialized || task.CancelStored?)
    ensures Shape(Continue(s, key, task))
  {
  }

  lemma FinishShape(s: State, key: nat)
    requires Shape(s)
    ensures Shape(Finish(s, key))
  {
  }

  lemma RowsShape(s: State, rows: Table)
    requires Shape(s) && RowsKnown(s.catalog, rows)
    ensures Shape(s.(rows := rows))
  {
  }

  lemma ReadyShape(s: State, r: Ready)
    requires Shape(s) && Wf(r) && ReadyKnown(s.catalog, r) && (s.initialized || r == EMPTY)
    ensures Shape(s.(ready := r))
  {
  }

  lemma LoopAtShape(s: State, loop: Loop)
    requires Shape(s) && LoopKnown(s.catalog, loop) && (s.initialized || loop == Down)
    ensures Shape(s.(loop := loop))
  {
  }

  lemma KickShape(s: State)
    requires Shape(s) && s.initialized
    ensures Shape(Kick(s))
  {
  }

  lemma PushAllShape(s: State, jobs: seq<Job>)
    requires Shape(s) && s.initialized && AllKnown(s.catalog, jobs)
    ensures Shape(s.(ready := PushAll(s.ready, jobs)))
  {
    PushAllWf(s.ready, jobs);
    ReadyShape(s, PushAll(s.ready, jobs));
  }

  lemma PushAndKickShape(s: State, job: Job)
    requires Shape(s) && s.initialized && Known(s.catalog, job)
    ensures Shape(PushAndKick(s, job))
  {
    PushWf(s.ready, job);
    ReadyShape(s, Push(s.ready, job));
    KickShape(s.(ready := Push(s.ready, job)));
  }

  lemma EmptyReadyShape(s: State)
    requires Shape(s)
    ensures Shape(s.(ready := EMPTY))
  {
    ReadyShape(s, EMPTY);
  }

  lemma ClaimKnown(catalog: map<JobId, Spec>, rows: Table, id: JobId, leaseMs: int, at: int)
    requires RowsKnown(catalog, rows)
    ensures RowsKnown(catalog, Claim(rows, id, OWNER, leaseMs, at))
  {
  }

  // ---- the steps --------------------------------------------------------------------

  /** What the loop takes was ready, so it is known; what it leaves was ready too. */
  lemma DecideKnown(cfg: Config, catalog: map<JobId, Spec>, r: Ready, running: Running, now: int)
    requires Wf(r) && ReadyKnown(catalog, r) && forall id :: id in catalog ==> catalog[id].deadlineMs > 0
    ensures var (rest, loop) := Decide(cfg, r, running, now);
            && Wf(rest) && ReadyKnown(catalog, rest) && LoopKnown(catalog, loop)
            && (r == EMPTY ==> rest == EMPTY && loop == Down)
  {
    var (rest, taken) := Take(r, running, cfg.fairCapacityPerTenant);
    TakeWf(r, running, cfg.fairCapacityPerTenant);
    TakeContains(r, running, cfg.fairCapacityPerTenant);
    if taken.Some? {
      assert Contains(r, taken.value);
    }
  }

  lemma LoopHeadShape(cfg: Config, s: State)
    requires Shape(s) && s.loop.AtHead?
    ensures Shape(LoopHead(cfg, s))
  {
    var (rest, loop) := Decide(cfg, s.ready, s.running, s.now);
    DecideKnown(cfg, s.catalog, s.ready, s.running, s.now);
    ReadyShape(s, rest);
    LoopAtShape(s.(ready := rest), loop);
  }

  lemma LoopClaimShape(cfg: Config, s: State)
    requires Shape(s) && s.loop.Claiming?
    ensures Shape(LoopClaim(cfg, s))
  {
    ClaimKnown(s.catalog, s.rows, s.loop.job.id, cfg.defaultLeaseMs, s.loop.at);
    RowsShape(s, Claim(s.rows, s.loop.job.id, OWNER, cfg.defaultLeaseMs, s.loop.at));
  }

  lemma LoopShape(cfg: Config, s: State, key: nat)
    requires Shape(s) && Enabled(cfg, s, LoopStep(key))
    ensures Shape(Do(cfg, s, LoopStep(key)))
  {
    match s.loop
    case AtHead => LoopHeadShape(cfg, s);
    case Claiming(_, _) => LoopClaimShape(cfg, s);
    case Claimed(_) => LoopAtShape(s, AtHead);
    case Expiring(job) => RowsShape(s, FailQueued(s.rows, job.id, DeadlineExceeded(job.spec.deadlineMs)));
  }

  lemma PeekKnown(s: State, peeked: seq<Job>)
    requires Shape(s) && IsPeek(s.rows, peeked)
    ensures AllKnown(s.catalog, peeked)
  {
  }

  lemma EnqueueCallShape(cfg: Config, s: State, key: nat, id: JobId, spec: Spec, peeked: seq<Job>)
    requires Shape(s) && Enabled(cfg, s, EnqueueCall(key, id, spec, peeked))
    ensures Shape(OnEnqueue(s, key, id, spec, peeked))
  {
    var s1 := s.(catalog := s.catalog[id := spec]);
    NewIdShape(s, id, spec);
    if s.initialized {
      ContinueShape(s1, key, EnqueueReady(Job(id, spec, 0), false));
    } else {
      PeekKnown(s1, peeked);
      ContinueShape(s1.(initialized := true), key, EnqueueInit(Job(id, spec, 0), peeked));
    }
  }

  lemma NewIdShape(s: State, id: JobId, spec: Spec)
    requires Shape(s) && id !in s.catalog && spec.deadlineMs > 0
    ensures Shape(s.(catalog := s.catalog[id := spec]))
  {
    var bigger := s.catalog[id := spec];
    assert forall j :: Known(s.catalog, j) ==> Known(bigger, j);
    forall k | k in s.tasks
      ensures TaskKnown(bigger, s.tasks[k])
    {
      assert TaskKnown(s.catalog, s.tasks[k]);
    }
  }

  lemma AlarmCallShape(cfg: Config, s: State, key: nat, peeked: seq<Job>)
    requires Shape(s) && Enabled(cfg, s, AlarmCall(key, peeked))
    ensures Shape(OnAlarm(s, key, peeked))
  {
    if s.initialized {
      ContinueShape(s, key, AlarmDue);
    } else {
      PeekKnown(s, peeked);
      ContinueShape(s.(initialized := true), key, AlarmInit(peeked));
    }
  }

  lemma CancelCallShape(s: State, key: nat, id: JobId)
    requires Shape(s)
    ensures Shape(OnCancel(s, key, id))
  {
    RowsShape(s, Cancel(s.rows, id));
    ContinueShape(s.(rows := Cancel(s.rows, id)), key, CancelStored(id));
  }

  lemma CancelTenantShape(s: State, t: TenantId, active: seq<JobId>)
    requires Shape(s)
    ensures Shape(OnCancelTenant(s, t, active))
  {
    RemoveTenantWf(s.ready, t);
    ReadyShape(s, RemoveTenant(s.ready, t));
    CancelAllRows(s.rows, active);
    RowsShape(s.(ready := RemoveTenant(s.ready, t)), CancelAll(s.rows, active));
  }

  lemma ReturnShape(cfg: Config, s: State, key: nat, job: Job, value: Value)
    requires Shape(s) && key in s.tasks && s.tasks[key] == Executing(job)
    ensures Shape(OnRunEnds(cfg, s, key, Returns(value)))
  {
    assert TaskKnown(s.catalog, s.tasks[key]);
    var rows := Ack(s.rows, job.id, OWNER, value, s.now + cfg.resultTtlMs);
    RowsShape(s, rows);
    ContinueShape(s.(rows := rows), key, Settling(job, None));
  }

  lemma ThrowShape(cfg: Config, s: State, key: nat, job: Job, error: Failure)
    requires Shape(s) && key in s.tasks && s.tasks[key] == Executing(job)
    ensures Shape(OnRunEnds(cfg, s, key, Throws(error)))
  {
    assert TaskKnown(s.catalog, s.tasks[key]);
    var rows := Fail(s.rows, job.id, OWNER, error);
    RowsShape(s, rows);
    ContinueShape(s.(rows := rows), key, FailReturned(job, FailStatus(s.rows, job.id, OWNER)));
  }

  lemma RunEndsShape(cfg: Config, s: State, key: nat, end: RunEnd)
    requires Shape(s) && Enabled(cfg, s, RunEnds(key, end))
    ensures Shape(OnRunEnds(cfg, s, key, end))
  {
    match end
    case Returns(value) => ReturnShape(cfg, s, key, s.tasks[key].job, value);
    case Throws(error) => ThrowShape(cfg, s, key, s.tasks[key].job, error);
  }

  /** The shape of what a continuation leaves, before its own task is replaced. */
  ghost predicate OutcomeShape(o: Outcome) {
    Shape(o.state) && (o.next.Some? ==> TaskKnown(o.state.catalog, o.next.value) && o.state.initialized)
  }

  lemma FailShape(s: State, job: Job, next: Status)
    requires Shape(s) && s.initialized && Known(s.catalog, job)
    ensures OutcomeShape(AfterFail(s, job, next))
  {
    var retry := job.(retryCount := job.retryCount + 1);
    var o := AfterFail(s, job, next);
    assert Known(s.catalog, retry);
    PushAndKickShape(s, retry);
    assert o.state == s || o.state == PushAndKick(s, retry);
    assert o.next.value.Settling? && o.next.value.job == job;
    assert o.next.value.retry in {None, Some(retry)};
  }

  lemma SettleShape(cfg: Config, s: State, job: Job, retry: Option<Job>)
    requires Shape(s) && s.initialized && (retry.Some? ==> Known(s.catalog, retry.value))
    ensures OutcomeShape(AfterSettle(cfg, s, job, retry))
  {
    KickShape(s.(running := s.running - {job.id}));
  }

  lemma EnqueueShape(cfg: Config, s: State, task: Task)
    requires Shape(s) && s.initialized && TaskKnown(s.catalog, task)
    requires task.EnqueueInit? || task.EnqueueReady? || task.EnqueueStored? || task.RetryTimer?
    ensures OutcomeShape(AfterAwait(cfg, s, task, []))
  {
    match task
    case EnqueueInit(job, snapshot) => PushAllShape(s, snapshot);
    case EnqueueReady(job, _) => RowsShape(s, Enqueue(s.rows, job.id, job.spec));
    case EnqueueStored(job) => PushAndKickShape(s, job);
    case RetryTimer(job) => PushAndKickShape(s, job);
  }

  lemma ReclaimShape(cfg: Config, s: State, task: Task, peeked: seq<Job>)
    requires Shape(s) && s.initialized && AllKnown(s.catalog, peeked)
    requires task.AlarmDue? || task.AlarmReclaimed?
    ensures OutcomeShape(AfterAwait(cfg, s, task, peeked))
  {
    if task.AlarmDue? {
      RowsShape(s, ReclaimExpiredLeases(s.rows, s.now));
    } else {
      RowsShape(s, SweepExpired(s.rows, task.at));
      EmptyReadyShape(s);
    }
  }

  lemma AlarmShape(cfg: Config, s: State, task: Task, peeked: seq<Job>)
    requires Shape(s) && s.initialized && TaskKnown(s.catalog, task) && AllKnown(s.catalog, peeked)
    requires task.AlarmInit? || task.AlarmRebuild? || task.AlarmSwept? || task.AlarmBackstop?
    ensures OutcomeShape(AfterAwait(cfg, s, task, peeked))
  {
    match task
    case AlarmInit(snapshot) => PushAllShape(s, snapshot);
    case AlarmRebuild(snapshot, at) =>
      PushAllShape(s, snapshot);
      RowsShape(s.(ready := PushAll(s.ready, snapshot)), SweepExpired(s.rows, at));
    case AlarmSwept =>
      KickShape(s);
      EmptyReadyShape(s);
    case AlarmBackstop(snapshot) =>
      PushAllShape(s, snapshot);
      KickShape(s.(ready := PushAll(s.ready, snapshot)));
  }

  lemma AwaitShape(cfg: Config, s: State, task: Task, peeked: seq<Job>)
    requires Shape(s) && !task.Executing? && TaskKnown(s.catalog, task) && AllKnown(s.catalog, peeked)
    requires s.initialized || task.CancelStored?
    ensures OutcomeShape(AfterAwait(cfg, s, task, peeked))
  {
    match task
    case EnqueueInit(_, _) => EnqueueShape(cfg, s, task);
    case EnqueueReady(_, _) => EnqueueShape(cfg, s, task);
    case EnqueueStored(_) => EnqueueShape(cfg, s, task);
    case RetryTimer(_) => EnqueueShape(cfg, s, task);
    case AlarmDue => ReclaimShape(cfg, s, task, peeked);
    case AlarmReclaimed(_, _) => ReclaimShape(cfg, s, task, peeked);
    case AlarmInit(_) => AlarmShape(cfg, s, task, peeked);
    case AlarmRebuild(_, _) => AlarmShape(cfg, s, task, peeked);
    case AlarmSwept => AlarmShape(cfg, s, task, peeked);
    case AlarmBackstop(_) => AlarmShape(cfg, s, task, peeked);
    case CancelStored(id) =>
      DropWf(s.ready, id);
      ReadyShape(s, Drop(s.ready, id));
    case FailReturned(job, next) => FailShape(s, job, next);
    case Settling(job, retry) => SettleShape(cfg, s, job, retry);
  }

  lemma ResumeShape(cfg: Config, s: State, key: nat, peeked: seq<Job>)
    requires Shape(s) && Enabled(cfg, s, Resume(key, peeked))
    ensures Shape(OnResume(cfg, s, key, peeked))
  {
    var task := s.tasks[key];
    var used := if Peeks(cfg, s, Resume(key, peeked)) then peeked else [];
    if Peeks(cfg, s, Resume(key, peeked)) {
      PeekKnown(s, peeked);
    }
    assert TaskKnown(s.catalog, task);
    AwaitShape(cfg, s, task, used);
    var o := AfterAwait(cfg, s, task, used);
    assert o == AfterAwait(cfg, s, task, peeked);
    FinishShape(o.state, key);
    if o.next.Some? {
      ContinueShape(o.state, key, o.next.value);
    }
  }

  /** Every step of every interleaving keeps the shape. */
  lemma StepKeepsShape(cfg: Config, s: State, step: Step)
    requires Shape(s) && Enabled(cfg, s, step)
    ensures Shape(Do(cfg, s, step))
  {
    match step
    case Tick(_) =>
    case Crash =>
    case LoopStep(key) => LoopShape(cfg, s, key);
    case EnqueueCall(key, id, spec, peeked) => EnqueueCallShape(cfg, s, key, id, spec, peeked);
    case AlarmCall(key, peeked) => AlarmCallShape(cfg, s, key, peeked);
    case CancelCall(key, id) => CancelCallShape(s, key, id);
    case CancelTenantCall(t, active) => CancelTenantShape(s, t, active);
    case RunEnds(key, end) => RunEndsShape(cfg, s, key, end);
    case Resume(key, peeked) => ResumeShape(cfg, s, key, peeked);
  }
}
