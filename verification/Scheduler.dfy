/** The scheduler as a state machine over every interleaving.

    A state holds the durable table and everything the durable object keeps in
    memory. Each step is a stretch of code that runs without interruption; an
    `await` ends it, and any other task may run before the continuation. The
    dispatch loop is one more task with its own program counter, and its stretches
    are cut finer than in the code, which only adds interleavings. */
module Scheduler {
  import opened Options
  import opened JobTable
  import opened ReadyQueue

  /** The tunables; `None` is the unbounded default of `maxQueueDepth`. */
  datatype Config = Config(
    inFlightLimit: nat,
    maxQueueDepth: Option<nat>,
    resultTtlMs: int,
    fairCapacityPerTenant: nat,
    defaultLeaseMs: int)

  /** Every run of one scheduler object leases under the same owner id. */
  const OWNER: WorkerId := 0

  const PEEK_LIMIT := 10_000

  /** The program counter of the dispatch loop. `#loopRunning` is `!Down?`. */
  datatype Loop =
    | Down
    | AtHead
    | Claiming(job: Job, at: int)
    | Claimed(got: Option<Job>)
    | Expiring(job: Job)

  /** A pending continuation. `snapshot` is what an unfinished rebuild has peeked. */
  datatype Task =
    | EnqueueInit(job: Job, snapshot: seq<Job>)
    | EnqueueReady(job: Job, ranInit: bool)
    | EnqueueStored(job: Job)
    | AlarmInit(snapshot: seq<Job>)
    | AlarmDue
    | AlarmReclaimed(any: bool, at: int)
    | AlarmRebuild(snapshot: seq<Job>, at: int)
    | AlarmSwept
    | AlarmBackstop(snapshot: seq<Job>)
    | CancelStored(id: JobId)
    | Executing(job: Job)
    | FailReturned(job: Job, next: Status)
    | Settling(job: Job, retry: Option<Job>)
    | RetryTimer(job: Job)

  datatype State = State(
    rows: Table,
    catalog: map<JobId, Spec>,     // every id ever submitted: ids are never reused
    ready: Ready,
    running: Running,
    loop: Loop,
    tasks: map<nat, Task>,
    initialized: bool,
    now: int)

  /** How user code, called by a run, ends. */
  datatype RunEnd = Returns(value: Value) | Throws(error: Failure)

  datatype Step =
    | Tick(now: int)
    | Crash
    | LoopStep(key: nat)
    | EnqueueCall(key: nat, id: JobId, spec: Spec, peeked: seq<Job>)
    | AlarmCall(key: nat, peeked: seq<Job>)
    | CancelCall(key: nat, id: JobId)
    | CancelTenantCall(tenant: TenantId, active: seq<JobId>)
    | RunEnds(key: nat, end: RunEnd)
    | Resume(key: nat, peeked: seq<Job>)

  function Initial(now: int): State {
    State(map[], map[], EMPTY, map[], Down, map[], false, now)
  }

  // ---- the pieces of the steps ------------------------------------------------------

  function Snapshot(rows: Table, id: JobId): Job
    requires id in rows
  {
    Job(id, rows[id].spec, rows[id].retryCount)
  }

  /** What a peek with a limit may return: the oldest queued rows, each once. */
  ghost predicate IsPeekOf(rows: Table, limit: nat, peeked: seq<Job>) {
    && (forall j :: j in peeked ==> j.id in QueuedIds(rows) && j == Snapshot(rows, j.id))
    && (forall i, k :: 0 <= i < k < |peeked| ==>
          peeked[i].id != peeked[k].id && peeked[i].spec.createdAt <= peeked[k].spec.createdAt)
    && |peeked| == (if |QueuedIds(rows)| <= limit then |QueuedIds(rows)| else limit)
    && (forall id, j :: id in QueuedIds(rows) && j in peeked && Snapshot(rows, id) !in peeked ==>
          j.spec.createdAt <= rows[id].spec.createdAt)
  }

  ghost predicate IsPeek(rows: Table, peeked: seq<Job>) {
    IsPeekOf(rows, PEEK_LIMIT, peeked)
  }

  function Kick(s: State): State {
    if s.loop.Down? then s.(loop := AtHead) else s
  }

  function PushAndKick(s: State, job: Job): State {
    Kick(s.(ready := Push(s.ready, job)))
  }

  function Continue(s: State, key: nat, task: Task): State {
    s.(tasks := s.tasks[key := task])
  }

  function Finish(s: State, key: nat): State {
    s.(tasks := s.tasks - {key})
  }

  predicate Saturated(cfg: Config, s: State)
    requires forall t :: t in s.ready.order ==> t in s.ready.queues
  {
    Total(s.ready.queues, s.ready.order) + |s.running| >= cfg.inFlightLimit
  }

  predicate QueueFull(cfg: Config, s: State)
    requires forall t :: t in s.ready.order ==> t in s.ready.queues
  {
    cfg.maxQueueDepth.Some? && Total(s.ready.queues, s.ready.order) >= cfg.maxQueueDepth.value
  }

  // ---- the dispatch loop -------------------------------------------------------------

  /** The loop condition, the pull and the pre-claim deadline test. */
  function Decide(cfg: Config, ready: Ready, running: Running, now: int): (Ready, Loop)
    requires Wf(ready)
  {
    if ready.order == [] || |running| >= cfg.inFlightLimit then (ready, Down)
    else
      var (rest, taken) := Take(ready, running, cfg.fairCapacityPerTenant);
      match taken
      case None => (rest, Down)
      case Some(job) =>
        (rest, if job.spec.deadlineMs > 0 && now >= job.spec.deadlineMs then Expiring(job) else Claiming(job, now))
  }

  function LoopHead(cfg: Config, s: State): (s': State)
    requires Wf(s.ready) && s.loop.AtHead?
    ensures s' == s.(ready := s'.ready, loop := s'.loop)
  {
    var (rest, loop) := Decide(cfg, s.ready, s.running, s.now);
    s.(ready := rest, loop := loop)
  }

  function LoopClaim(cfg: Config, s: State): State
    requires s.loop.Claiming?
  {
    var id, at := s.loop.job.id, s.loop.at;
    s.(rows := Claim(s.rows, id, OWNER, cfg.defaultLeaseMs, at),
       loop := Claimed(if Claimable(s.rows, id, at) then Some(Snapshot(s.rows, id)) else None))
  }

  function LoopStart(s: State, key: nat): State
    requires s.loop.Claimed?
  {
    match s.loop.got
    case None => s.(loop := AtHead)
    case Some(job) =>
      Continue(s.(running := s.running[job.id := job.spec.tenantId], loop := AtHead), key, Executing(job))
  }

  function LoopExpire(s: State): State
    requires s.loop.Expiring?
  {
    s.(rows := FailQueued(s.rows, s.loop.job.id, DeadlineExceeded(s.loop.job.spec.deadlineMs)), loop := AtHead)
  }

  // ---- calls from outside ----------------------------------------------------------

  function OnEnqueue(s: State, key: nat, id: JobId, spec: Spec, peeked: seq<Job>): State {
    var s1 := s.(catalog := s.catalog[id := spec]);
    var job := Job(id, spec, 0);
    if s.initialized then Continue(s1, key, EnqueueReady(job, false))
    else Continue(s1.(initialized := true, ready := EMPTY), key, EnqueueInit(job, peeked))
  }

  function OnAlarm(s: State, key: nat, peeked: seq<Job>): State {
    if s.initialized then Continue(s, key, AlarmDue)
    else Continue(s.(initialized := true, ready := EMPTY), key, AlarmInit(peeked))
  }

  function OnCancel(s: State, key: nat, id: JobId): State {
    if Cancellable(s.rows, id) then Continue(s.(rows := Cancel(s.rows, id)), key, CancelStored(id)) else s
  }

  function OnCancelTenant(s: State, t: TenantId, active: seq<JobId>): State {
    s.(rows := CancelAll(s.rows, active), ready := RemoveTenant(s.ready, t))
  }

  function OnCrash(s: State): State {
    s.(ready := EMPTY, running := map[], loop := Down, tasks := map[], initialized := false)
  }

  // ---- continuations ------------------------------------------------------------------

  function OnRunEnds(cfg: Config, s: State, key: nat, end: RunEnd): State
    requires key in s.tasks && s.tasks[key].Executing?
  {
    var job := s.tasks[key].job;
    match end
    case Returns(value) =>
      Continue(s.(rows := Ack(s.rows, job.id, OWNER, value, s.now + cfg.resultTtlMs)), key, Settling(job, None))
    case Throws(error) =>
      Continue(s.(rows := Fail(s.rows, job.id, OWNER, error)), key,
               FailReturned(job, FailStatus(s.rows, job.id, OWNER)))
  }

  /** What a continuation does: the state it leaves, its own task aside, and the
      continuation it leaves behind. */
  datatype Outcome = Outcome(state: State, next: Option<Task>)

  function Leave(o: Outcome, key: nat): State {
    match o.next
    case None => Finish(o.state, key)
    case Some(task) => Continue(o.state, key, task)
  }

  function AfterFail(s: State, job: Job, next: Status): (o: Outcome)
    ensures o.state.tasks == s.tasks && o.state.rows == s.rows && o.state.running == s.running
    ensures o.next.Some? && o.next.value.Settling?
    ensures o.state.loop == s.loop || (s.loop == Down && o.state.loop == AtHead)
  {
    var retry := job.(retryCount := job.retryCount + 1);
    if next != Queued then Outcome(s, Some(Settling(job, None)))
    else if RetryDelay(job.spec.retry, job.retryCount) <= 0
    then Outcome(PushAndKick(s, retry), Some(Settling(job, None)))
    else Outcome(s, Some(Settling(job, Some(retry))))
  }

  /** The `finally` of a run. A retry timer is a later event, so it exists only from here. */
  function AfterSettle(cfg: Config, s: State, job: Job, retry: Option<Job>): (o: Outcome)
    ensures o.state.tasks == s.tasks && o.state.rows == s.rows && o.state.ready == s.ready
    ensures o.next.Some? ==> o.next.value.RetryTimer?
  {
    var running := s.running - {job.id};
    var kicks := s.loop.Down? && s.ready.order != [] && |running| < cfg.inFlightLimit;
    Outcome(s.(running := running, loop := if kicks then AtHead else s.loop),
            if retry.Some? then Some(RetryTimer(retry.value)) else None)
  }

  /** The enqueue throws: the queue is full, or a UNIQUE column already has the value
      and the job has no idempotency key. */
  predicate EnqueueRejected(cfg: Config, s: State, job: Job)
    requires Wf(s.ready)
  {
    QueueFull(cfg, s) || InsertOutcome(s.rows, job.id, job.spec) == UniqueViolation
  }

  function AfterReady(cfg: Config, s: State, job: Job): (o: Outcome)
    requires Wf(s.ready)
    ensures o.state.tasks == s.tasks && (o.next.Some? ==> o.next.value.EnqueueStored?)
  {
    if EnqueueRejected(cfg, s, job) then Outcome(s, None)
    else Outcome(s.(rows := Enqueue(s.rows, job.id, job.spec)), Some(EnqueueStored(job)))
  }

  function AfterAwait(cfg: Config, s: State, task: Task, peeked: seq<Job>): Outcome
    requires !task.Executing? && Wf(s.ready)
  {
    match task
    case EnqueueInit(job, snapshot) =>
      Outcome(s.(ready := PushAll(s.ready, snapshot)), Some(EnqueueReady(job, true)))
    case EnqueueReady(job, _) => AfterReady(cfg, s, job)
    case EnqueueStored(job) => Outcome(PushAndKick(s, job), None)
    case AlarmInit(snapshot) => Outcome(s.(ready := PushAll(s.ready, snapshot)), Some(AlarmDue))
    case AlarmDue =>
      Outcome(s.(rows := ReclaimExpiredLeases(s.rows, s.now)),
              Some(AlarmReclaimed(exists id :: id in s.rows && Reclaimable(s.rows[id], s.now), s.now)))
    case AlarmReclaimed(any, at) =>
      if any then Outcome(s.(ready := EMPTY), Some(AlarmRebuild(peeked, at)))
      else Outcome(s.(rows := SweepExpired(s.rows, at)), Some(AlarmSwept))
    case AlarmRebuild(snapshot, at) =>
      Outcome(s.(ready := PushAll(s.ready, snapshot), rows := SweepExpired(s.rows, at)), Some(AlarmSwept))
    case AlarmSwept =>
      if Saturated(cfg, s) then Outcome(Kick(s), None)
      else Outcome(s.(ready := EMPTY), Some(AlarmBackstop(peeked)))
    case AlarmBackstop(snapshot) => Outcome(Kick(s.(ready := PushAll(s.ready, snapshot))), None)
    case CancelStored(id) => Outcome(s.(ready := Drop(s.ready, id)), None)
    case FailReturned(job, next) => AfterFail(s, job, next)
    case Settling(job, retry) => AfterSettle(cfg, s, job, retry)
    case RetryTimer(job) => Outcome(PushAndKick(s, job), None)
  }

  function OnResume(cfg: Config, s: State, key: nat, peeked: seq<Job>): State
    requires key in s.tasks && !s.tasks[key].Executing? && Wf(s.ready)
  {
    Leave(AfterAwait(cfg, s, s.tasks[key], peeked), key)
  }

  // ---- steps and runs ------------------------------------------------------------------

  /** Whether the step starts a rebuild, that is, clears the ready set and peeks. */
  ghost predicate Peeks(cfg: Config, s: State, step: Step)
    requires Wf(s.ready)
  {
    || ((step.EnqueueCall? || step.AlarmCall?) && !s.initialized)
    || (step.Resume? && step.key in s.tasks &&
        ((s.tasks[step.key] == AlarmSwept && !Saturated(cfg, s))
         || (s.tasks[step.key].AlarmReclaimed? && s.tasks[step.key].any)))
  }

  /** New tasks get unused keys, new jobs get unused ids and positive deadlines. */
  ghost predicate Enabled(cfg: Config, s: State, step: Step)
    requires Wf(s.ready)
  {
    && (Peeks(cfg, s, step) ==> IsPeek(s.rows, step.peeked))
    && match step
       case Tick(now) => s.now <= now
       case Crash => true
       case LoopStep(key) => !s.loop.Down? && key !in s.tasks
       case EnqueueCall(key, id, spec, _) => key !in s.tasks && id !in s.catalog && spec.deadlineMs > 0
       case AlarmCall(key, _) => key !in s.tasks
       case CancelCall(key, _) => key !in s.tasks
       case CancelTenantCall(t, active) => ListsActive(s.rows, t, active)
       case RunEnds(key, _) => key in s.tasks && s.tasks[key].Executing?
       case Resume(key, _) => key in s.tasks && !s.tasks[key].Executing?
  }

  ghost function Do(cfg: Config, s: State, step: Step): State
    requires Wf(s.ready) && Enabled(cfg, s, step)
  {
    match step
    case Tick(now) => s.(now := now)
    case Crash => OnCrash(s)
    case LoopStep(key) =>
      (match s.loop
       case AtHead => LoopHead(cfg, s)
       case Claiming(_, _) => LoopClaim(cfg, s)
       case Claimed(_) => LoopStart(s, key)
       case Expiring(_) => LoopExpire(s))
    case EnqueueCall(key, id, spec, peeked) => OnEnqueue(s, key, id, spec, peeked)
    case AlarmCall(key, peeked) => OnAlarm(s, key, peeked)
    case CancelCall(key, id) => OnCancel(s, key, id)
    case CancelTenantCall(t, active) => OnCancelTenant(s, t, active)
    case RunEnds(key, end) => OnRunEnds(cfg, s, key, end)
    case Resume(key, peeked) => OnResume(cfg, s, key, peeked)
  }

  /** `steps` can be taken one after the other from `s`. */
  ghost predicate Runs(cfg: Config, s: State, steps: seq<Step>)
    decreases |steps|
  {
    steps != [] ==> Wf(s.ready) && Enabled(cfg, s, steps[0]) && Runs(cfg, Do(cfg, s, steps[0]), steps[1..])
  }

  ghost function End(cfg: Config, s: State, steps: seq<Step>): State
    requires Runs(cfg, s, steps)
    decreases |steps|
  {
    if steps == [] then s else End(cfg, Do(cfg, s, steps[0]), steps[1..])
  }
}
