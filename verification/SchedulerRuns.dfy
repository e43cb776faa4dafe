/** Whole runs of the scheduler are histories of guarded updates, so what holds of every
    history holds of every run: a job ends at most once, its result is served, and its
    retries are counted. */
module SchedulerRuns {
  import opened Collections
  import opened Options
  import opened JobTable
  import opened JobHistories
  import opened ReadyQueue
  import opened Scheduler
  import opened SchedulerFrames
  import opened SchedulerHistory
  import opened SchedulerShape
  import opened SchedulerProgress
  import opened SchedulerStall

  // ---- a run as one history ----------------------------------------------------------------

  /** The updates of all steps of a run, in order. */
  ghost function Updates(cfg: Config, s: State, steps: seq<Step>): seq<Op>
    requires Runs(cfg, s, steps)
    decreases |steps|
  {
    if steps == [] then [] else RowOps(cfg, s, steps[0]) + Updates(cfg, Do(cfg, s, steps[0]), steps[1..])
  }

  lemma {:induction false} RunJoins(jobs: Table, a: seq<Op>, b: seq<Op>)
    ensures Run(jobs, a + b) == Run(Run(jobs, a), b)
    decreases |a|
  {
    if a == [] {
      assert a + b == b;
    } else {
      assert (a + b)[0] == a[0] && (a + b)[1..] == a[1..] + b;
      RunJoins(Apply(jobs, a[0]), a[1..], b);
    }
  }

  lemma {:induction false} CountJoins(jobs: Table, a: seq<Op>, b: seq<Op>, counts: (Table, Op) -> bool)
    ensures Count(jobs, a + b, counts) == Count(jobs, a, counts) + Count(Run(jobs, a), b, counts)
    decreases |a|
  {
    if a == [] {
      assert a + b == b;
    } else {
      assert (a + b)[0] == a[0] && (a + b)[1..] == a[1..] + b;
      CountJoins(Apply(jobs, a[0]), a[1..], b, counts);
    }
  }

  /** The table at the end of a run is what its updates make of the table. */
  lemma {:induction false} RunIsHistory(cfg: Config, s: State, steps: seq<Step>)
    requires Runs(cfg, s, steps)
    ensures End(cfg, s, steps).rows == Run(s.rows, Updates(cfg, s, steps))
    decreases |steps|
  {
    if steps != [] {
      StepIsHistory(cfg, s, steps[0]);
      RunIsHistory(cfg, Do(cfg, s, steps[0]), steps[1..]);
      RunJoins(s.rows, RowOps(cfg, s, steps[0]), Updates(cfg, Do(cfg, s, steps[0]), steps[1..]));
    }
  }

  // ---- no job is enqueued twice ----------------------------------------------------------------

  /** The id has been used, and no pending enqueue carries it. */
  ghost predicate Submitted(s: State, id: JobId) {
    && id in s.catalog
    && forall k :: k in s.tasks && Unstored(s.tasks[k]) ==> s.tasks[k].job.id != id
  }

  lemma RowsAreSubmitted(s: State, id: JobId)
    requires Shape(s) && FreshEnqueues(s) && id in s.rows
    ensures Submitted(s, id)
  {
  }

  /** A continuation leaves catalog and clock alone, and reads the clock, keeps an earlier
      reading, or needs none. */
  ghost predicate KeepsFrame(s: State, task: Task, o: Outcome) {
    && o.state.catalog == s.catalog && o.state.now == s.now && (o.state.loop.Claiming? ==> o.state.loop == s.loop)
    && (o.next.Some? && (o.next.value.AlarmReclaimed? || o.next.value.AlarmRebuild?) ==>
          o.next.value.at == s.now || ((task.AlarmReclaimed? || task.AlarmRebuild?) && o.next.value.at == task.at))
  }

  lemma ReclaimKeepsFrame(cfg: Config, s: State, task: Task, peeked: seq<Job>)
    requires Wf(s.ready) && (task.AlarmDue? || task.AlarmReclaimed?)
    ensures KeepsFrame(s, task, AfterAwait(cfg, s, task, peeked))
  {
  }

  lemma AlarmKeepsFrame(cfg: Config, s: State, task: Task, peeked: seq<Job>)
    requires Wf(s.ready) && (task.AlarmInit? || task.AlarmRebuild? || task.AlarmSwept? || task.AlarmBackstop?)
    ensures KeepsFrame(s, task, AfterAwait(cfg, s, task, peeked))
  {
    AwaitFrame(cfg, s, task, peeked);
    AwaitKeepsRuns(cfg, s, task, peeked);
    AlarmReadsNoClock(cfg, s, task, peeked);
  }

  lemma AlarmReadsNoClock(cfg: Config, s: State, task: Task, peeked: seq<Job>)
    requires Wf(s.ready) && (task.AlarmInit? || task.AlarmRebuild? || task.AlarmSwept? || task.AlarmBackstop?)
    ensures var next := AfterAwait(cfg, s, task, peeked).next;
            next.Some? ==> !next.value.AlarmReclaimed? && !next.value.AlarmRebuild?
  {
  }

  lemma FailKeepsFrame(s: State, job: Job, next: Status)
    ensures KeepsFrame(s, FailReturned(job, next), AfterFail(s, job, next))
  {
  }

  lemma SettleKeepsFrame(cfg: Config, s: State, job: Job, retry: Option<Job>)
    ensures KeepsFrame(s, Settling(job, retry), AfterSettle(cfg, s, job, retry))
  {
  }

  lemma JobKeepsFrame(cfg: Config, s: State, task: Task)
    requires Wf(s.ready)
    requires task.EnqueueInit? || task.EnqueueReady? || task.EnqueueStored? || task.CancelStored? || task.RetryTimer?
    ensures KeepsFrame(s, task, AfterAwait(cfg, s, task, []))
  {
  }

  lemma AwaitKeepsFrame(cfg: Config, s: State, task: Task, peeked: seq<Job>)
    requires !task.Executing? && Wf(s.ready)
    ensures KeepsFrame(s, task, AfterAwait(cfg, s, task, peeked))
  {
    if task.AlarmDue? || task.AlarmReclaimed? {
      ReclaimKeepsFrame(cfg, s, task, peeked);
    } else if task.AlarmInit? || task.AlarmRebuild? || task.AlarmSwept? || task.AlarmBackstop? {
      AlarmKeepsFrame(cfg, s, task, peeked);
    } else if task.FailReturned? {
      FailKeepsFrame(s, task.job, task.next);
    } else if task.Settling? {
      SettleKeepsFrame(cfg, s, task.job, task.retry);
    } else {
      JobKeepsFrame(cfg, s, task);
    }
  }

  lemma ResumeAddsNoEnqueue(cfg: Config, s: State, key: nat, peeked: seq<Job>)
    requires Wf(s.ready) && Enabled(cfg, s, Resume(key, peeked))
    ensures NoNewEnqueue(s, OnResume(cfg, s, key, peeked)) && OnResume(cfg, s, key, peeked).catalog == s.catalog
  {
    AwaitAddsNoEnqueue(cfg, s, s.tasks[key], peeked);
    AwaitKeepsTasks(cfg, s, s.tasks[key], peeked);
    AwaitKeepsFrame(cfg, s, s.tasks[key], peeked);
    LeaveKeepsTasks(AfterAwait(cfg, s, s.tasks[key], peeked), key);
  }

  lemma OtherAddsNoEnqueue(cfg: Config, s: State, step: Step)
    requires Wf(s.ready) && Enabled(cfg, s, step) && !step.EnqueueCall? && !step.Resume? && !step.LoopStep?
    ensures NoNewEnqueue(s, Do(cfg, s, step)) && Do(cfg, s, step).catalog == s.catalog
  {
    match step
    case RunEnds(key, end) => RunEndFrame(cfg, s, key, end);
    case AlarmCall(key, peeked) => AlarmCallAddsNoEnqueue(s, key, peeked);
    case _ =>
  }

  lemma AlarmCallAddsNoEnqueue(s: State, key: nat, peeked: seq<Job>)
    ensures NoNewEnqueue(s, OnAlarm(s, key, peeked)) && OnAlarm(s, key, peeked).catalog == s.catalog
  {
  }

  /** Enqueue calls aside, no step adds a pending enqueue; ids stay used for ever. */
  lemma StepAddsNoEnqueue(cfg: Config, s: State, step: Step)
    requires Shape(s) && Enabled(cfg, s, step) && !step.EnqueueCall?
    ensures NoNewEnqueue(s, Do(cfg, s, step)) && Do(cfg, s, step).catalog == s.catalog
  {
    match step
    case Resume(key, peeked) => ResumeAddsNoEnqueue(cfg, s, key, peeked);
    case LoopStep(key) =>
      LoopAddsNoEnqueue(cfg, s, key);
      LoopFrame(cfg, s, key);
    case _ => OtherAddsNoEnqueue(cfg, s, step);
  }

  lemma StepKeepsSubmitted(cfg: Config, s: State, step: Step, id: JobId)
    requires Shape(s) && Enabled(cfg, s, step) && Submitted(s, id)
    ensures Submitted(Do(cfg, s, step), id)
  {
    if step.EnqueueCall? {
      assert Do(cfg, s, step).tasks == s.tasks[step.key := Do(cfg, s, step).tasks[step.key]];
    } else {
      StepAddsNoEnqueue(cfg, s, step);
    }
  }

  lemma StepEnqueuesPending(cfg: Config, s: State, step: Step, id: JobId)
    requires Shape(s) && Enabled(cfg, s, step) && Submitted(s, id)
    ensures NeverEnqueues(RowOps(cfg, s, step), id)
  {
    if step.Resume? && s.tasks[step.key].EnqueueReady? {
      assert Unstored(s.tasks[step.key]);
    }
  }

  /** The history of a run never enqueues a job that has been submitted. */
  lemma {:induction false} NeverEnqueuedAgain(cfg: Config, s: State, steps: seq<Step>, id: JobId)
    requires Shape(s) && Submitted(s, id) && Runs(cfg, s, steps)
    ensures NeverEnqueues(Updates(cfg, s, steps), id)
    decreases |steps|
  {
    if steps != [] {
      StepEnqueuesPending(cfg, s, steps[0], id);
      StepKeepsShape(cfg, s, steps[0]);
      StepKeepsSubmitted(cfg, s, steps[0], id);
      NeverEnqueuedAgain(cfg, Do(cfg, s, steps[0]), steps[1..], id);
    }
  }

  // ---- one life per job ------------------------------------------------------------------------

  /** What a table holds and what a history of it counts for a job, within the limits of
      one life. */
  ghost predicate OneLife(rows: Table, ops: seq<Op>, id: JobId, attempts: int) {
    && Count(rows, ops, Termination(id)) <= 1
    && Count(rows, ops, AcceptedAck(id)) <= 1
    && Count(rows, ops, AcceptedFail(id)) <= attempts
    && Count(rows, ops, Requeue(id)) < attempts
  }

  ghost predicate LiveRowsRetry(rows: Table) {
    forall id :: id in rows && !Terminal(rows[id].status) ==> AttemptsLeft(rows[id])
  }

  lemma StoredJobHasOneLife(rows: Table, ops: seq<Op>, id: JobId)
    requires id in rows && NeverEnqueues(ops, id) && LiveRowsRetry(rows)
    ensures OneLife(rows, ops, id, MaxAttempts(rows[id].spec.retry))
  {
    JobsEndAtMostOnce(rows, ops, id);
    if Terminal(rows[id].status) {
      NoRequeueOnceDone(rows, ops, id);
    } else {
      RetriesAreBounded(rows, ops, id);
    }
  }

  lemma AbsentJobHasNoLife(rows: Table, ops: seq<Op>, id: JobId)
    requires id !in rows && (NeverEnqueues(ops, id) || (|ops| == 1 && ops[0].EnqueueOp?))
    ensures Count(rows, ops, Termination(id)) == 0 && Count(rows, ops, AcceptedAck(id)) == 0
    ensures Count(rows, ops, AcceptedFail(id)) == 0 && Count(rows, ops, Requeue(id)) == 0
  {
    if NeverEnqueues(ops, id) {
      AbsentRowsStayAbsent(rows, ops, id);
      NoRequeueOnceDone(rows, ops, id);
    } else {
      assert ops[1..] == [];
    }
  }

  lemma StepEnqueuesAlone(cfg: Config, s: State, step: Step, id: JobId)
    requires Wf(s.ready) && Enabled(cfg, s, step)
    ensures var ops := RowOps(cfg, s, step); NeverEnqueues(ops, id) || (|ops| == 1 && ops[0].EnqueueOp?)
  {
  }

  lemma OneLifeAfter(rows: Table, first: seq<Op>, rest: seq<Op>, id: JobId, attempts: int)
    requires id !in rows && (NeverEnqueues(first, id) || (|first| == 1 && first[0].EnqueueOp?))
    requires OneLife(Run(rows, first), rest, id, attempts)
    ensures OneLife(rows, first + rest, id, attempts)
  {
    AbsentJobHasNoLife(rows, first, id);
    CountJoins(rows, first, rest, Termination(id));
    CountJoins(rows, first, rest, AcceptedAck(id));
    CountJoins(rows, first, rest, AcceptedFail(id));
    CountJoins(rows, first, rest, Requeue(id));
  }

  lemma StepKeepsLiveRowsRetry(cfg: Config, s: State, step: Step)
    requires Wf(s.ready) && Enabled(cfg, s, step) && LiveRowsRetry(s.rows)
    ensures LiveRowsRetry(Do(cfg, s, step).rows)
  {
    StepIsHistory(cfg, s, step);
    LiveRowsHaveAttemptsLeft(s.rows, RowOps(cfg, s, step));
  }

  lemma {:induction false} CatalogGrows(cfg: Config, s: State, steps: seq<Step>, id: JobId)
    requires Shape(s) && Runs(cfg, s, steps) && id in s.catalog
    ensures id in End(cfg, s, steps).catalog && End(cfg, s, steps).catalog[id] == s.catalog[id]
    decreases |steps|
  {
    if steps != [] {
      StepKeepsShape(cfg, s, steps[0]);
      if !steps[0].EnqueueCall? {
        StepAddsNoEnqueue(cfg, s, steps[0]);
      }
      CatalogGrows(cfg, Do(cfg, s, steps[0]), steps[1..], id);
    }
  }

  /** In every run, crashes and all, each job ends at most once, has at most one result
      accepted, fails at most `max(1, retry.max)` times and is re-queued once less. */
  lemma {:induction false} EveryJobHasOneLife(cfg: Config, s: State, steps: seq<Step>, id: JobId)
    requires Shape(s) && FreshEnqueues(s) && LiveRowsRetry(s.rows) && Runs(cfg, s, steps)
    requires id in End(cfg, s, steps).catalog
    ensures OneLife(s.rows, Updates(cfg, s, steps), id, MaxAttempts(End(cfg, s, steps).catalog[id].retry))
    decreases |steps|
  {
    if id in s.rows {
      RowsAreSubmitted(s, id);
      NeverEnqueuedAgain(cfg, s, steps, id);
      CatalogGrows(cfg, s, steps, id);
      StoredJobHasOneLife(s.rows, Updates(cfg, s, steps), id);
    } else if steps != [] {
      var s' := Do(cfg, s, steps[0]);
      StepKeepsShape(cfg, s, steps[0]);
      StepKeepsFresh(cfg, s, steps[0]);
      StepKeepsLiveRowsRetry(cfg, s, steps[0]);
      EveryJobHasOneLife(cfg, s', steps[1..], id);
      StepIsHistory(cfg, s, steps[0]);
      StepEnqueuesAlone(cfg, s, steps[0], id);
      OneLifeAfter(s.rows, RowOps(cfg, s, steps[0]), Updates(cfg, s', steps[1..]), id,
                   MaxAttempts(End(cfg, s, steps).catalog[id].retry));
    }
  }

  // ---- results ------------------------------------------------------------------------------------

  /** Clock readings that are kept across an await lie in the past. */
  ghost predicate ClocksBehind(s: State) {
    && (s.loop.Claiming? ==> s.loop.at <= s.now)
    && (forall k :: k in s.tasks && (s.tasks[k].AlarmReclaimed? || s.tasks[k].AlarmRebuild?) ==> s.tasks[k].at <= s.now)
  }

  lemma AwaitKeepsClock(cfg: Config, s: State, task: Task, peeked: seq<Job>)
    requires !task.Executing? && Wf(s.ready)
    requires task.AlarmReclaimed? || task.AlarmRebuild? ==> task.at <= s.now
    ensures var o := AfterAwait(cfg, s, task, peeked);
            && o.state.now == s.now && (o.state.loop.Claiming? ==> o.state.loop == s.loop)
            && (o.next.Some? && (o.next.value.AlarmReclaimed? || o.next.value.AlarmRebuild?) ==>
                  o.next.value.at <= s.now)
  {
    AwaitKeepsFrame(cfg, s, task, peeked);
  }

  lemma ResumeKeepsClocks(cfg: Config, s: State, key: nat, peeked: seq<Job>)
    requires Wf(s.ready) && Enabled(cfg, s, Resume(key, peeked)) && ClocksBehind(s)
    ensures ClocksBehind(OnResume(cfg, s, key, peeked)) && OnResume(cfg, s, key, peeked).now == s.now
  {
    AwaitKeepsClock(cfg, s, s.tasks[key], peeked);
    AwaitKeepsTasks(cfg, s, s.tasks[key], peeked);
    LeaveKeepsTasks(AfterAwait(cfg, s, s.tasks[key], peeked), key);
  }

  lemma LoopKeepsClocks(cfg: Config, s: State, key: nat)
    requires Wf(s.ready) && Enabled(cfg, s, LoopStep(key)) && ClocksBehind(s)
    ensures ClocksBehind(Do(cfg, s, LoopStep(key))) && Do(cfg, s, LoopStep(key)).now == s.now
  {
    LoopFrame(cfg, s, key);
    FramedKeepsClocks(s, key, Do(cfg, s, LoopStep(key)));
  }

  lemma FramedKeepsClocks(s: State, key: nat, s': State)
    requires LoopFramed(s, key, s') && ClocksBehind(s)
    ensures ClocksBehind(s')
  {
  }

  lemma OtherKeepsClocks(cfg: Config, s: State, step: Step)
    requires Wf(s.ready) && Enabled(cfg, s, step) && ClocksBehind(s) && !step.Resume? && !step.LoopStep?
    ensures ClocksBehind(Do(cfg, s, step)) && Do(cfg, s, step).now >= s.now
  {
    if Calls(step) {
      CallFrame(cfg, s, step);
      CallKeepsClocks(s, Do(cfg, s, step));
    } else if step.RunEnds? {
      RunEndFrame(cfg, s, step.key, step.end);
    }
  }

  lemma CallKeepsClocks(s: State, s': State)
    requires CallFramed(s, s') && ClocksBehind(s)
    ensures ClocksBehind(s')
  {
  }

  lemma StepKeepsClocks(cfg: Config, s: State, step: Step)
    requires Wf(s.ready) && Enabled(cfg, s, step) && ClocksBehind(s)
    ensures ClocksBehind(Do(cfg, s, step)) && Do(cfg, s, step).now >= s.now
  {
    match step
    case Resume(key, peeked) => ResumeKeepsClocks(cfg, s, key, peeked);
    case LoopStep(key) => LoopKeepsClocks(cfg, s, key);
    case _ => OtherKeepsClocks(cfg, s, step);
  }

  lemma StepReadsClock(cfg: Config, s: State, step: Step)
    requires Wf(s.ready) && Enabled(cfg, s, step) && ClocksBehind(s)
    ensures NothingAfter(RowOps(cfg, s, step), s.now)
  {
  }

  lemma {:induction false} UpdatesAreOnTime(cfg: Config, s: State, steps: seq<Step>, limit: int)
    requires ClocksBehind(s) && Runs(cfg, s, steps) && End(cfg, s, steps).now <= limit
    ensures NothingAfter(Updates(cfg, s, steps), limit) && s.now <= End(cfg, s, steps).now
    decreases |steps|
  {
    if steps != [] {
      StepKeepsClocks(cfg, s, steps[0]);
      UpdatesAreOnTime(cfg, Do(cfg, s, steps[0]), steps[1..], limit);
      StepReadsClock(cfg, s, steps[0]);
    }
  }

  /** What a run keeps: see the lemmas above. */
  ghost predicate InOrder(s: State) {
    Shape(s) && FreshEnqueues(s) && ClocksBehind(s)
  }

  lemma StepStaysInOrder(cfg: Config, s: State, step: Step)
    requires InOrder(s) && Enabled(cfg, s, step)
    ensures InOrder(Do(cfg, s, step))
  {
    StepKeepsShape(cfg, s, step);
    StepKeepsFresh(cfg, s, step);
    StepKeepsClocks(cfg, s, step);
  }

  lemma AckedValueIsServed(cfg: Config, rows: Table, id: JobId, value: Value, expires: int, s: State, steps: seq<Step>)
    requires InOrder(s) && Runs(cfg, s, steps)
    requires Ackable(rows, id, OWNER) && s.rows == Ack(rows, id, OWNER, value, expires)
    requires End(cfg, s, steps).now <= expires
    ensures Result(End(cfg, s, steps).rows, id, End(cfg, s, steps).now) == Returned(Some(value))
  {
    RowsAreSubmitted(s, id);
    RunIsHistory(cfg, s, steps);
    NeverEnqueuedAgain(cfg, s, steps, id);
    UpdatesAreOnTime(cfg, s, steps, expires);
    AckedResultIsServed(rows, id, OWNER, value, expires, Updates(cfg, s, steps), End(cfg, s, steps).now);
  }

  lemma StoredValueIsServed(cfg: Config, s: State, id: JobId, value: Value, s': State, steps: seq<Step>)
    requires Ackable(s.rows, id, OWNER) && s'.rows == Ack(s.rows, id, OWNER, value, s.now + cfg.resultTtlMs)
    requires InOrder(s') && Runs(cfg, s', steps) && End(cfg, s', steps).now <= s.now + cfg.resultTtlMs
    ensures Result(End(cfg, s', steps).rows, id, End(cfg, s', steps).now) == Returned(Some(value))
  {
    AckedValueIsServed(cfg, s.rows, id, value, s.now + cfg.resultTtlMs, s', steps);
  }

  lemma ReturnIsStored(cfg: Config, s: State, key: nat, value: Value)
    requires key in s.tasks && s.tasks[key].Executing?
    ensures OnRunEnds(cfg, s, key, Returns(value)).rows ==
            Ack(s.rows, s.tasks[key].job.id, OWNER, value, s.now + cfg.resultTtlMs)
  {
  }

  lemma ReturnStaysInOrder(cfg: Config, s: State, key: nat, value: Value, s': State)
    requires InOrder(s) && Enabled(cfg, s, RunEnds(key, Returns(value)))
    requires s' == OnRunEnds(cfg, s, key, Returns(value))
    ensures InOrder(s')
  {
    StepStaysInOrder(cfg, s, RunEnds(key, Returns(value)));
  }

  /** A run that returns while its job is leased has its value served for `resultTtlMs`
      from then on, whatever happens meanwhile, crashes included. */
  lemma ReturnedValueIsServed(cfg: Config, s: State, key: nat, value: Value, s': State, steps: seq<Step>)
    requires InOrder(s) && Enabled(cfg, s, RunEnds(key, Returns(value)))
    requires Ackable(s.rows, s.tasks[key].job.id, OWNER)
    requires s' == OnRunEnds(cfg, s, key, Returns(value)) && Runs(cfg, s', steps)
    requires End(cfg, s', steps).now <= s.now + cfg.resultTtlMs
    ensures Result(End(cfg, s', steps).rows, s.tasks[key].job.id, End(cfg, s', steps).now) == Returned(Some(value))
  {
    ReturnIsStored(cfg, s, key, value);
    ReturnStaysInOrder(cfg, s, key, value, s');
    StoredValueIsServed(cfg, s, s.tasks[key].job.id, value, s', steps);
  }

  // ---- retries --------------------------------------------------------------------------------------

  predicate RetryDue(task: Task, id: JobId) {
    task.FailReturned? && task.next == Queued && task.job.id == id
  }

  function RetriesDue(s: State, id: JobId): set<nat> {
    set k | k in s.tasks && RetryDue(s.tasks[k], id)
  }

  /** The step schedules a retry: at once, or with a timer once the run has settled. */
  predicate SchedulesRetry(s: State, step: Step, id: JobId) {
    step.Resume? && step.key in s.tasks && RetryDue(s.tasks[step.key], id)
  }

  ghost function RetriesScheduled(cfg: Config, s: State, steps: seq<Step>, id: JobId): nat
    requires Runs(cfg, s, steps)
    decreases |steps|
  {
    if steps == [] then 0
    else (if SchedulesRetry(s, steps[0], id) then 1 else 0)
         + RetriesScheduled(cfg, Do(cfg, s, steps[0]), steps[1..], id)
  }

  lemma AwaitAddsNoRetry(cfg: Config, s: State, task: Task, peeked: seq<Job>)
    requires !task.Executing? && Wf(s.ready)
    ensures AfterAwait(cfg, s, task, peeked).next.Some? ==> !AfterAwait(cfg, s, task, peeked).next.value.FailReturned?
  {
  }

  lemma NewRetryDue(s: State, s': State, key: nat, task: Task, id: JobId)
    requires s'.tasks == s.tasks[key := task] && key in s.tasks && s.tasks[key].Executing?
    ensures RetriesDue(s', id) == RetriesDue(s, id) + (if RetryDue(task, id) then {key} else {})
  {
  }

  lemma RunEndAddsRetry(cfg: Config, s: State, key: nat, end: RunEnd, id: JobId)
    requires Wf(s.ready) && Enabled(cfg, s, RunEnds(key, end))
    ensures |RetriesDue(OnRunEnds(cfg, s, key, end), id)| <=
            |RetriesDue(s, id)| + Count(s.rows, RowOps(cfg, s, RunEnds(key, end)), Requeue(id))
  {
    var op := RunEndOp(cfg, s, s.tasks[key].job, end);
    RunEndFrame(cfg, s, key, end);
    NewRetryDue(s, OnRunEnds(cfg, s, key, end), key, AfterEnd(s, s.tasks[key].job, end), id);
    assert [op][1..] == [];
    if RetryDue(AfterEnd(s, s.tasks[key].job, end), id) {
      assert Requeue(id)(s.rows, op);
    }
  }

  lemma ResumeSpendsRetry(cfg: Config, s: State, key: nat, peeked: seq<Job>, id: JobId)
    requires Wf(s.ready) && Enabled(cfg, s, Resume(key, peeked))
    ensures RetriesDue(OnResume(cfg, s, key, peeked), id) == RetriesDue(s, id) - {key}
  {
    AwaitAddsNoRetry(cfg, s, s.tasks[key], peeked);
    AwaitKeepsTasks(cfg, s, s.tasks[key], peeked);
    LeaveKeepsTasks(AfterAwait(cfg, s, s.tasks[key], peeked), key);
  }

  lemma OtherStepAddsNoRetry(cfg: Config, s: State, step: Step, id: JobId)
    requires Wf(s.ready) && Enabled(cfg, s, step) && !step.RunEnds? && !step.Resume?
    ensures RetriesDue(Do(cfg, s, step), id) <= RetriesDue(s, id)
  {
    if Calls(step) {
      CallFrame(cfg, s, step);
      CallAddsNoRetry(s, Do(cfg, s, step), id);
    } else if step.LoopStep? {
      LoopFrame(cfg, s, step.key);
      LoopAddsNoRetry(s, step.key, Do(cfg, s, step), id);
    }
  }

  lemma CallAddsNoRetry(s: State, s': State, id: JobId)
    requires CallFramed(s, s')
    ensures RetriesDue(s', id) <= RetriesDue(s, id)
  {
  }

  lemma LoopAddsNoRetry(s: State, key: nat, s': State, id: JobId)
    requires LoopFramed(s, key, s')
    ensures RetriesDue(s', id) <= RetriesDue(s, id)
  {
  }

  lemma StepSpendsRetries(cfg: Config, s: State, step: Step, id: JobId)
    requires Wf(s.ready) && Enabled(cfg, s, step)
    ensures (if SchedulesRetry(s, step, id) then 1 else 0) + |RetriesDue(Do(cfg, s, step), id)| <=
            |RetriesDue(s, id)| + Count(s.rows, RowOps(cfg, s, step), Requeue(id))
  {
    match step
    case RunEnds(key, end) => RunEndAddsRetry(cfg, s, key, end, id);
    case Resume(key, peeked) => ResumeSpendsRetry(cfg, s, key, peeked, id);
    case _ =>
      OtherStepAddsNoRetry(cfg, s, step, id);
      SubsetCardinality(RetriesDue(Do(cfg, s, step), id), RetriesDue(s, id));
  }

  lemma {:induction false} RetriesFollowFails(cfg: Config, s: State, steps: seq<Step>, id: JobId)
    requires Runs(cfg, s, steps)
    ensures RetriesScheduled(cfg, s, steps, id) + |RetriesDue(End(cfg, s, steps), id)| <=
            |RetriesDue(s, id)| + Count(s.rows, Updates(cfg, s, steps), Requeue(id))
    decreases |steps|
  {
    if steps != [] {
      var s' := Do(cfg, s, steps[0]);
      StepSpendsRetries(cfg, s, steps[0], id);
      RetriesFollowFails(cfg, s', steps[1..], id);
      StepIsHistory(cfg, s, steps[0]);
      CountJoins(s.rows, RowOps(cfg, s, steps[0]), Updates(cfg, s', steps[1..]), Requeue(id));
    }
  }

  /** At most `max(1, retry.max) - 1` retries are ever scheduled for a job, each because a
      failure of it was accepted and re-queued it. */
  lemma RetriesAreLimited(cfg: Config, s: State, steps: seq<Step>, id: JobId)
    requires Shape(s) && FreshEnqueues(s) && LiveRowsRetry(s.rows) && Runs(cfg, s, steps)
    requires RetriesDue(s, id) == {} && id in End(cfg, s, steps).catalog
    ensures RetriesScheduled(cfg, s, steps, id) < MaxAttempts(End(cfg, s, steps).catalog[id].retry)
  {
    RetriesFollowFails(cfg, s, steps, id);
    EveryJobHasOneLife(cfg, s, steps, id);
  }

  // ---- idempotency keys -----------------------------------------------------------------------------

  /** In no run do two rows ever share an idempotency key. */
  lemma RunsKeepKeysDifferent(cfg: Config, s: State, steps: seq<Step>)
    requires KeysDiffer(s.rows) && Runs(cfg, s, steps)
    ensures KeysDiffer(End(cfg, s, steps).rows)
  {
    RunIsHistory(cfg, s, steps);
    KeysStayDifferent(s.rows, Updates(cfg, s, steps));
  }

  /** In every run every row holds what its status says. */
  lemma RunsKeepRowsConsistent(cfg: Config, s: State, steps: seq<Step>)
    requires RowsConsistent(s.rows) && Runs(cfg, s, steps)
    ensures RowsConsistent(End(cfg, s, steps).rows)
  {
    RunIsHistory(cfg, s, steps);
    RowsStayConsistent(s.rows, Updates(cfg, s, steps));
  }
}
