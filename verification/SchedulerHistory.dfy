/** The scheduler only ever changes the table through guarded updates, so whatever
    holds of every history of updates holds in every interleaving. */
module SchedulerHistory {
  import opened Options
  import opened JobTable
  import opened JobHistories
  import opened ReadyQueue
  import opened Scheduler

  function Cancels(ids: seq<JobId>): seq<Op> {
    seq(|ids|, i requires 0 <= i < |ids| => CancelOp(ids[i]))
  }

  /** The update a loop step performs, if any. */
  function LoopOp(cfg: Config, s: State): Option<Op> {
    match s.loop
    case Claiming(job, at) => Some(ClaimOp(job.id, OWNER, cfg.defaultLeaseMs, at))
    case Expiring(job) => Some(FailQueuedOp(job.id, DeadlineExceeded(job.spec.deadlineMs)))
    case _ => None
  }

  /** The update a continuation performs, if any. */
  function AwaitOp(cfg: Config, s: State, task: Task): Option<Op>
    requires Wf(s.ready)
  {
    match task
    case EnqueueReady(job, _) => if EnqueueRejected(cfg, s, job) then None else Some(EnqueueOp(job.id, job.spec))
    case AlarmDue => Some(ReclaimOp(s.now))
    case AlarmReclaimed(any, at) => if any then None else Some(SweepOp(at))
    case AlarmRebuild(_, at) => Some(SweepOp(at))
    case _ => None
  }

  function RunEndOp(cfg: Config, s: State, job: Job, end: RunEnd): Op {
    match end
    case Returns(value) => AckOp(job.id, OWNER, value, s.now + cfg.resultTtlMs)
    case Throws(error) => FailOp(job.id, OWNER, error)
  }

  function Ops(op: Option<Op>): seq<Op> {
    if op.Some? then [op.value] else []
  }

  /** The updates a step performs, in order. */
  function RowOps(cfg: Config, s: State, step: Step): seq<Op>
    requires Wf(s.ready) && Enabled(cfg, s, step)
  {
    match step
    case LoopStep(_) => Ops(LoopOp(cfg, s))
    case CancelCall(_, id) => [CancelOp(id)]
    case CancelTenantCall(_, active) => Cancels(active)
    case RunEnds(key, end) => [RunEndOp(cfg, s, s.tasks[key].job, end)]
    case Resume(key, _) => Ops(AwaitOp(cfg, s, s.tasks[key]))
    case _ => []
  }

  function ApplyAny(rows: Table, op: Option<Op>): Table {
    if op.Some? then Apply(rows, op.value) else rows
  }

  lemma AnyOp(rows: Table, op: Option<Op>)
    ensures Run(rows, Ops(op)) == ApplyAny(rows, op)
  {
    if op.Some? {
      assert [op.value][1..] == [];
    }
  }

  lemma {:induction false} CancelAllIsHistory(rows: Table, ids: seq<JobId>)
    ensures Run(rows, Cancels(ids)) == CancelAll(rows, ids)
    decreases |ids|
  {
    if ids != [] {
      assert Cancels(ids)[1..] == Cancels(ids[1..]);
      CancelAllIsHistory(Cancel(rows, ids[0]), ids[1..]);
    }
  }

  lemma ReclaimRows(cfg: Config, s: State, peeked: seq<Job>)
    requires Wf(s.ready)
    ensures AfterAwait(cfg, s, AlarmDue, peeked).state.rows == ApplyAny(s.rows, AwaitOp(cfg, s, AlarmDue))
  {
  }

  lemma SweepRows(cfg: Config, s: State, any: bool, at: int, peeked: seq<Job>)
    requires Wf(s.ready)
    ensures AfterAwait(cfg, s, AlarmReclaimed(any, at), peeked).state.rows ==
            ApplyAny(s.rows, AwaitOp(cfg, s, AlarmReclaimed(any, at)))
  {
  }

  lemma RebuildSweepRows(cfg: Config, s: State, snapshot: seq<Job>, at: int, peeked: seq<Job>)
    requires Wf(s.ready)
    ensures AfterAwait(cfg, s, AlarmRebuild(snapshot, at), peeked).state.rows ==
            ApplyAny(s.rows, AwaitOp(cfg, s, AlarmRebuild(snapshot, at)))
  {
  }

  lemma QuietAlarmRows(cfg: Config, s: State, task: Task, peeked: seq<Job>)
    requires Wf(s.ready) && (task.AlarmInit? || task.AlarmSwept? || task.AlarmBackstop?)
    ensures AfterAwait(cfg, s, task, peeked).state.rows == s.rows
  {
  }

  lemma JobRows(cfg: Config, s: State, task: Task, peeked: seq<Job>)
    requires Wf(s.ready)
    requires task.EnqueueInit? || task.EnqueueStored? || task.CancelStored? || task.RetryTimer?
             || task.FailReturned? || task.Settling?
    ensures AfterAwait(cfg, s, task, peeked).state.rows == s.rows
  {
  }

  lemma AwaitRows(cfg: Config, s: State, task: Task, peeked: seq<Job>)
    requires !task.Executing? && Wf(s.ready)
    ensures AfterAwait(cfg, s, task, peeked).state.rows == ApplyAny(s.rows, AwaitOp(cfg, s, task))
  {
    if task.EnqueueReady? {
      ReadyRows(cfg, s, task.job);
    } else if task.AlarmDue? {
      ReclaimRows(cfg, s, peeked);
    } else if task.AlarmReclaimed? {
      SweepRows(cfg, s, task.any, task.at, peeked);
    } else if task.AlarmRebuild? {
      RebuildSweepRows(cfg, s, task.snapshot, task.at, peeked);
    } else if task.AlarmInit? || task.AlarmSwept? || task.AlarmBackstop? {
      QuietAlarmRows(cfg, s, task, peeked);
    } else {
      JobRows(cfg, s, task, peeked);
    }
  }

  lemma ReadyRows(cfg: Config, s: State, job: Job)
    requires Wf(s.ready)
    ensures AfterReady(cfg, s, job).state.rows ==
            if EnqueueRejected(cfg, s, job) then s.rows else Apply(s.rows, EnqueueOp(job.id, job.spec))
  {
  }

  lemma ClaimRows(cfg: Config, s: State)
    requires s.loop.Claiming?
    ensures LoopClaim(cfg, s).rows == ApplyAny(s.rows, LoopOp(cfg, s))
  {
  }

  lemma ExpireRows(cfg: Config, s: State)
    requires s.loop.Expiring?
    ensures LoopExpire(s).rows == ApplyAny(s.rows, LoopOp(cfg, s))
  {
  }

  lemma LoopRows(cfg: Config, s: State, key: nat)
    requires Wf(s.ready) && Enabled(cfg, s, LoopStep(key))
    ensures Do(cfg, s, LoopStep(key)).rows == ApplyAny(s.rows, LoopOp(cfg, s))
  {
    match s.loop
    case AtHead => assert LoopHead(cfg, s).rows == s.rows;
    case Claiming(_, _) => ClaimRows(cfg, s);
    case Claimed(_) => assert LoopStart(s, key).rows == s.rows;
    case Expiring(_) => ExpireRows(cfg, s);
  }

  lemma StepIsHistory(cfg: Config, s: State, step: Step)
    requires Wf(s.ready) && Enabled(cfg, s, step)
    ensures Do(cfg, s, step).rows == Run(s.rows, RowOps(cfg, s, step))
  {
    match step
    case LoopStep(key) => LoopRows(cfg, s, key); AnyOp(s.rows, LoopOp(cfg, s));
    case CancelCall(_, id) => AnyOp(s.rows, Some(CancelOp(id)));
    case CancelTenantCall(_, active) => CancelAllIsHistory(s.rows, active);
    case RunEnds(key, end) => AnyOp(s.rows, Some(RunEndOp(cfg, s, s.tasks[key].job, end)));
    case Resume(key, peeked) =>
      AwaitRows(cfg, s, s.tasks[key], peeked);
      AnyOp(s.rows, AwaitOp(cfg, s, s.tasks[key]));
    case Tick(_) =>
    case Crash =>
    case EnqueueCall(_, _, _, _) =>
    case AlarmCall(_, _) =>
  }
}
