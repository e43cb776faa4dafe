/** How jobs come back after a crash, whatever is called meanwhile, what one undisturbed
    alarm does, and what a peek's limit costs. */
module SchedulerRecovery {
  import opened Collections
  import opened Options
  import opened JobTable
  import opened ReadyQueue
  import opened Scheduler
  import opened JobHistories
  import opened SchedulerDurability
  import opened SchedulerFrames
  import opened SchedulerHistory
  import opened SchedulerProgress
  import opened SchedulerLeases

  ghost predicate Live(rows: Table, id: JobId) {
    id in rows && !Terminal(rows[id].status)
  }

  function LiveIds(rows: Table): set<JobId> {
    set id | id in rows && !Terminal(rows[id].status)
  }

  // ---- leases without a run ------------------------------------------------------------------

  /** A run of the job executes, or the loop is about to start one. */
  ghost predicate InHand(s: State, id: JobId) {
    Executes(s, id) || Starts(s, id)
  }

  /** The job is leased, but the run that took the lease is gone. */
  ghost predicate Orphan(s: State, id: JobId) {
    id in s.rows && s.rows[id].status == Leased && !InHand(s, id)
  }

  /** Every lease was taken by this scheduler and has an end. */
  ghost predicate OwnLeases(rows: Table) {
    forall id :: id in rows && rows[id].status == Leased ==>
      rows[id].leaseOwner == Some(OWNER) && rows[id].leaseExpiresMs.Some?
  }

  lemma OpKeepsOwnLeases(rows: Table, op: Op)
    requires OwnLeases(rows) && (op.ClaimOp? ==> op.worker == OWNER)
    ensures OwnLeases(Apply(rows, op))
  {
  }

  lemma {:induction false} OpsKeepOwnLeases(rows: Table, ops: seq<Op>)
    requires OwnLeases(rows) && forall op :: op in ops && op.ClaimOp? ==> op.worker == OWNER
    ensures OwnLeases(Run(rows, ops))
    decreases |ops|
  {
    if ops != [] {
      assert ops[0] in ops && forall op :: op in ops[1..] ==> op in ops;
      OpKeepsOwnLeases(rows, ops[0]);
      OpsKeepOwnLeases(Apply(rows, ops[0]), ops[1..]);
    }
  }

  lemma StepKeepsOwnLeases(cfg: Config, s: State, step: Step)
    requires Wf(s.ready) && Enabled(cfg, s, step) && OwnLeases(s.rows)
    ensures OwnLeases(Do(cfg, s, step).rows)
  {
    StepIsHistory(cfg, s, step);
    OpsKeepOwnLeases(s.rows, RowOps(cfg, s, step));
  }

  // ---- no step orphans a job, crashes aside ----------------------------------------------------

  ghost predicate SameLease(rows: Table, rows': Table, id: JobId) {
    id in rows' && rows'[id].status == Leased ==> id in rows && rows[id] == rows'[id]
  }

  lemma OpLeasesOnlyByClaim(rows: Table, op: Op, id: JobId)
    requires op.ClaimOp? ==> op.id != id || !Claimable(rows, id, op.now)
    ensures SameLease(rows, Apply(rows, op), id)
  {
  }

  lemma {:induction false} OpsLeaseOnlyByClaim(rows: Table, ops: seq<Op>, id: JobId)
    requires forall op :: op in ops && op.ClaimOp? ==> op.id != id
    ensures SameLease(rows, Run(rows, ops), id)
    decreases |ops|
  {
    if ops != [] {
      assert ops[0] in ops && forall op :: op in ops[1..] ==> op in ops;
      OpLeasesOnlyByClaim(rows, ops[0], id);
      OpsLeaseOnlyByClaim(Apply(rows, ops[0]), ops[1..], id);
    }
  }

  lemma LoopLeasesWhatItStarts(cfg: Config, s: State, key: nat, id: JobId)
    requires Wf(s.ready) && Enabled(cfg, s, LoopStep(key)) && !Starts(Do(cfg, s, LoopStep(key)), id)
    ensures SameLease(s.rows, Do(cfg, s, LoopStep(key)).rows, id)
  {
    LoopRows(cfg, s, key);
    if s.loop.Claiming? {
      ClaimStarts(cfg, s, key);
    }
    if LoopOp(cfg, s).Some? {
      OpLeasesOnlyByClaim(s.rows, LoopOp(cfg, s).value, id);
    }
  }

  lemma ClaimStarts(cfg: Config, s: State, key: nat)
    requires Wf(s.ready) && Enabled(cfg, s, LoopStep(key)) && s.loop.Claiming?
    ensures Starts(Do(cfg, s, LoopStep(key)), s.loop.job.id) <==> Claimable(s.rows, s.loop.job.id, s.loop.at)
  {
  }

  lemma StepLeasesWhatItStarts(cfg: Config, s: State, step: Step, id: JobId)
    requires Wf(s.ready) && Enabled(cfg, s, step) && !Starts(Do(cfg, s, step), id)
    ensures SameLease(s.rows, Do(cfg, s, step).rows, id)
  {
    if step.LoopStep? {
      LoopLeasesWhatItStarts(cfg, s, step.key, id);
    } else {
      StepIsHistory(cfg, s, step);
      OpsLeaseOnlyByClaim(s.rows, RowOps(cfg, s, step), id);
    }
  }

  lemma ResumeKeepsInHand(cfg: Config, s: State, key: nat, peeked: seq<Job>, id: JobId)
    requires Wf(s.ready) && Enabled(cfg, s, Resume(key, peeked)) && InHand(s, id)
    ensures InHand(OnResume(cfg, s, key, peeked), id)
  {
    var o := AfterAwait(cfg, s, s.tasks[key], peeked);
    AwaitKeepsTasks(cfg, s, s.tasks[key], peeked);
    LeaveKeepsTasks(o, key);
    if Executes(s, id) {
      var k :| k in s.tasks && s.tasks[k].Executing? && s.tasks[k].job.id == id;
      assert k in Leave(o, key).tasks && Leave(o, key).tasks[k] == s.tasks[k];
    } else {
      AwaitKeepsLoop(cfg, s, s.tasks[key], peeked);
    }
  }

  lemma AwaitKeepsLoop(cfg: Config, s: State, task: Task, peeked: seq<Job>)
    requires !task.Executing? && Wf(s.ready) && !s.loop.Down?
    ensures AfterAwait(cfg, s, task, peeked).state.loop == s.loop
  {
    if task.Settling? {
      SettleKeepsLoop(cfg, s, task.job, task.retry);
    } else {
      AwaitKeepsRuns(cfg, s, task, peeked);
    }
  }

  lemma SettleKeepsLoop(cfg: Config, s: State, job: Job, retry: Option<Job>)
    requires !s.loop.Down?
    ensures AfterSettle(cfg, s, job, retry).state.loop == s.loop
  {
  }

  lemma LoopKeepsInHand(cfg: Config, s: State, key: nat, id: JobId)
    requires Wf(s.ready) && Enabled(cfg, s, LoopStep(key)) && InHand(s, id)
    ensures InHand(Do(cfg, s, LoopStep(key)), id)
  {
    var s' := Do(cfg, s, LoopStep(key));
    LoopTasks(cfg, s, key);
    if Starts(s, id) {
      assert s'.tasks[key].Executing? && s'.tasks[key].job.id == id;
    } else {
      var k :| k in s.tasks && s.tasks[k].Executing? && s.tasks[k].job.id == id;
      assert k in s'.tasks && s'.tasks[k] == s.tasks[k];
    }
  }

  lemma CallKeepsInHand(cfg: Config, s: State, step: Step, id: JobId)
    requires Wf(s.ready) && Enabled(cfg, s, step) && InHand(s, id)
    requires !step.Crash? && !step.Resume? && !step.LoopStep?
    requires step.RunEnds? ==> s.tasks[step.key].job.id != id
    ensures InHand(Do(cfg, s, step), id)
  {
    var s' := Do(cfg, s, step);
    if Executes(s, id) {
      var k :| k in s.tasks && s.tasks[k].Executing? && s.tasks[k].job.id == id;
      assert k in s'.tasks && s'.tasks[k] == s.tasks[k];
    }
  }

  /** A run that ends takes its lease along. */
  lemma EndedRunHoldsNoLease(cfg: Config, s: State, key: nat, end: RunEnd)
    requires Wf(s.ready) && Enabled(cfg, s, RunEnds(key, end)) && OwnLeases(s.rows)
    ensures var s', id := OnRunEnds(cfg, s, key, end), s.tasks[key].job.id;
            id in s'.rows ==> s'.rows[id].status != Leased
  {
  }

  /** Crashes aside, no step makes an orphan: those there are keep the row they had. */
  lemma StepMakesNoOrphan(cfg: Config, s: State, step: Step, id: JobId)
    requires Wf(s.ready) && Enabled(cfg, s, step) && OwnLeases(s.rows) && !step.Crash?
    requires Orphan(Do(cfg, s, step), id)
    ensures Orphan(s, id) && s.rows[id] == Do(cfg, s, step).rows[id]
  {
    StepLeasesWhatItStarts(cfg, s, step, id);
    if InHand(s, id) {
      match step {
        case Resume(key, peeked) => ResumeKeepsInHand(cfg, s, key, peeked, id);
        case LoopStep(key) => LoopKeepsInHand(cfg, s, key, id);
        case RunEnds(key, end) =>
          if s.tasks[key].job.id == id {
            EndedRunHoldsNoLease(cfg, s, key, end);
          } else {
            CallKeepsInHand(cfg, s, step, id);
          }
        case _ => CallKeepsInHand(cfg, s, step, id);
      }
    }
  }

  // ---- reclaiming ----------------------------------------------------------------------------------

  /** In any interleaving: the stretch of an alarm that reclaims leases queues every job
      whose lease has expired, and afterwards somebody remembers it. */
  lemma ReclaimRemembers(cfg: Config, s: State, key: nat, peeked: seq<Job>, id: JobId)
    requires Durable(s) && Enabled(cfg, s, Resume(key, peeked)) && s.tasks[key].AlarmDue?
    requires Expired(s.rows, id, s.now)
    ensures var s' := OnResume(cfg, s, key, peeked);
            id in s'.rows && s'.rows[id].status == Queued && Remembered(s', id)
  {
    StepKeepsDurable(cfg, s, Resume(key, peeked));
    assert id in QueuedIds(OnResume(cfg, s, key, peeked).rows);
  }

  /** Leases without a run end by `limit`. */
  ghost predicate OrphansEndBy(s: State, limit: int) {
    forall id :: Orphan(s, id) && s.rows[id].leaseExpiresMs.Some? ==> s.rows[id].leaseExpiresMs.value <= limit
  }

  ghost predicate NoOrphans(s: State) {
    forall id :: !Orphan(s, id)
  }

  /** Once all leases that were orphaned have run out, that stretch leaves no orphan. */
  lemma ReclaimAdoptsOrphans(cfg: Config, s: State, key: nat, peeked: seq<Job>, limit: int)
    requires Wf(s.ready) && OwnLeases(s.rows) && OrphansEndBy(s, limit) && s.now > limit
    requires Enabled(cfg, s, Resume(key, peeked)) && s.tasks[key].AlarmDue?
    ensures NoOrphans(OnResume(cfg, s, key, peeked))
  {
    var s' := OnResume(cfg, s, key, peeked);
    assert s'.rows == ReclaimExpiredLeases(s.rows, s.now);
    forall id ensures !Orphan(s', id) {
      if Orphan(s', id) {
        StepMakesNoOrphan(cfg, s, Resume(key, peeked), id);
      }
    }
  }

  // ---- after a crash ------------------------------------------------------------------------------------

  ghost predicate NoCrash(steps: seq<Step>) {
    forall step :: step in steps ==> !step.Crash?
  }

  ghost predicate LeasesEndBy(rows: Table, limit: int) {
    forall id :: id in rows && rows[id].status == Leased && rows[id].leaseExpiresMs.Some? ==>
      rows[id].leaseExpiresMs.value <= limit
  }

  lemma StepKeepsOrphansOld(cfg: Config, s: State, step: Step, limit: int)
    requires Wf(s.ready) && Enabled(cfg, s, step) && OwnLeases(s.rows) && !step.Crash?
    ensures OrphansEndBy(s, limit) ==> OrphansEndBy(Do(cfg, s, step), limit)
    ensures NoOrphans(s) ==> NoOrphans(Do(cfg, s, step))
  {
    forall id | Orphan(Do(cfg, s, step), id)
      ensures Orphan(s, id) && s.rows[id] == Do(cfg, s, step).rows[id]
    {
      StepMakesNoOrphan(cfg, s, step, id);
    }
  }

  lemma {:induction false} OrphansStayOld(cfg: Config, s: State, steps: seq<Step>, limit: int)
    requires Runs(cfg, s, steps) && OwnLeases(s.rows) && NoCrash(steps)
    ensures OwnLeases(End(cfg, s, steps).rows)
    ensures OrphansEndBy(s, limit) ==> OrphansEndBy(End(cfg, s, steps), limit)
    ensures NoOrphans(s) ==> NoOrphans(End(cfg, s, steps))
    decreases |steps|
  {
    if steps != [] {
      assert steps[0] in steps && forall step :: step in steps[1..] ==> step in steps;
      StepKeepsOwnLeases(cfg, s, steps[0]);
      StepKeepsOrphansOld(cfg, s, steps[0], limit);
      OrphansStayOld(cfg, Do(cfg, s, steps[0]), steps[1..], limit);
    }
  }

  /** Every job of the table has ended, or is queued and remembered, or is leased by a run
      that executes or is about to. */
  ghost predicate Accounted(s: State) {
    forall id :: id in s.rows ==>
      || Terminal(s.rows[id].status)
      || (s.rows[id].status == Queued && Remembered(s, id))
      || (s.rows[id].status == Leased && InHand(s, id))
  }

  lemma AccountedFor(s: State)
    requires Durable(s) && s.initialized && NoOrphans(s)
    ensures Accounted(s)
  {
    forall id | id in s.rows
      ensures || Terminal(s.rows[id].status)
              || (s.rows[id].status == Queued && Remembered(s, id))
              || (s.rows[id].status == Leased && InHand(s, id))
    {
      assert !Orphan(s, id);
      assert s.rows[id].status == Queued ==> id in QueuedIds(s.rows);
    }
  }

  lemma AwaitKeepsInitialized(cfg: Config, s: State, task: Task, peeked: seq<Job>)
    requires !task.Executing? && Wf(s.ready)
    ensures AfterAwait(cfg, s, task, peeked).state.initialized == s.initialized
  {
    AwaitFrame(cfg, s, task, peeked);
  }

  lemma {:induction false} StaysInitialized(cfg: Config, s: State, steps: seq<Step>)
    requires Runs(cfg, s, steps) && NoCrash(steps) && s.initialized
    ensures End(cfg, s, steps).initialized
    decreases |steps|
  {
    if steps != [] {
      assert steps[0] in steps && forall step :: step in steps[1..] ==> step in steps;
      StepStaysInitialized(cfg, s, steps[0]);
      StaysInitialized(cfg, Do(cfg, s, steps[0]), steps[1..]);
    }
  }

  lemma StepStaysInitialized(cfg: Config, s: State, step: Step)
    requires Wf(s.ready) && Enabled(cfg, s, step) && !step.Crash? && s.initialized
    ensures Do(cfg, s, step).initialized
  {
    if step.Resume? {
      AwaitKeepsInitialized(cfg, s, s.tasks[step.key], step.peeked);
    }
  }

  lemma CrashOrphansAll(s: State, limit: int)
    requires LeasesEndBy(s.rows, limit)
    ensures OrphansEndBy(OnCrash(s), limit)
  {
  }

  /** Crash anywhere and let anything be called in any order. Once an alarm reclaims leases
      after the last lease of before the crash has run out, every job is accounted for, and
      stays so: none is left behind, leased by a run that the crash has killed. */
  lemma CrashRecovery(cfg: Config, s: State, before: seq<Step>, key: nat, peeked: seq<Job>, after: seq<Step>,
                      limit: int)
    requires Durable(s) && OwnLeases(s.rows) && LeasesEndBy(s.rows, limit)
    requires Runs(cfg, OnCrash(s), before) && NoCrash(before) && PeeksSeeAll(cfg, OnCrash(s), before)
    requires var s1 := End(cfg, OnCrash(s), before);
             && Wf(s1.ready) && Enabled(cfg, s1, Resume(key, peeked)) && s1.tasks[key].AlarmDue? && s1.now > limit
             && var s2 := OnResume(cfg, s1, key, peeked);
                Runs(cfg, s2, after) && NoCrash(after) && PeeksSeeAll(cfg, s2, after)
    ensures Accounted(End(cfg, OnResume(cfg, End(cfg, OnCrash(s), before), key, peeked), after))
  {
    var s1 := End(cfg, OnCrash(s), before);
    StepKeepsDurable(cfg, s, Crash);
    NoJobIsStranded(cfg, OnCrash(s), before);
    CrashOrphansAll(s, limit);
    OrphansStayOld(cfg, OnCrash(s), before, limit);
    ReclaimedIsAccounted(cfg, s1, key, peeked, OnResume(cfg, s1, key, peeked), after, limit);
  }

  lemma ReclaimedIsAccounted(cfg: Config, s1: State, key: nat, peeked: seq<Job>, s2: State, after: seq<Step>,
                             limit: int)
    requires Durable(s1) && OwnLeases(s1.rows) && OrphansEndBy(s1, limit) && s1.now > limit
    requires Enabled(cfg, s1, Resume(key, peeked)) && s1.tasks[key].AlarmDue? && s2 == Do(cfg, s1, Resume(key, peeked))
    requires Runs(cfg, s2, after) && NoCrash(after) && PeeksSeeAll(cfg, s2, after)
    ensures Accounted(End(cfg, s2, after))
  {
    ReclaimAdoptsOrphans(cfg, s1, key, peeked, limit);
    StepKeepsDurable(cfg, s1, Resume(key, peeked));
    StepKeepsOwnLeases(cfg, s1, Resume(key, peeked));
    StepStaysInitialized(cfg, s1, Resume(key, peeked));
    NoJobIsStranded(cfg, s2, after);
    OrphansStayOld(cfg, s2, after, limit);
    StaysInitialized(cfg, s2, after);
    AccountedFor(End(cfg, s2, after));
  }

  // ---- one alarm, undisturbed --------------------------------------------------------------------------

  /** No reclaim has run yet: the leases left by the crash have all expired. */
  ghost predicate LeasesExpired(s: State) {
    forall id :: Live(s.rows, id) && s.rows[id].status == Leased ==> LeaseExpired(s.rows[id], s.now)
  }

  ghost predicate AllQueued(rows: Table) {
    forall id :: Live(rows, id) ==> rows[id].status == Queued
  }

  /** Where an undisturbed alarm stands between two of its stretches. */
  ghost predicate AlarmStage(s: State, task: Task) {
    match task
    case AlarmInit(_) => LeasesExpired(s)
    case AlarmDue => LeasesExpired(s)
    case AlarmReclaimed(_, _) => AllQueued(s.rows)
    case AlarmRebuild(_, _) => AllQueued(s.rows)
    case AlarmSwept => AllQueued(s.rows)
    case AlarmBackstop(_) => AllQueued(s.rows)
    case _ => false
  }

  ghost predicate Recovering(live: set<JobId>, s: State, key: nat) {
    Durable(s) && AtStage(live, s, key)
  }

  ghost predicate AtStage(live: set<JobId>, s: State, key: nat) {
    && s.initialized && s.tasks.Keys <= {key}
    && LiveIds(s.rows) == live
    && (key !in s.tasks ==> s.loop == AtHead && AllQueued(s.rows))
    && (key in s.tasks ==> s.loop == Down && AlarmStage(s, s.tasks[key]))
  }

  lemma ReclaimQueuesAll(s: State)
    requires LeasesExpired(s)
    ensures AllQueued(ReclaimExpiredLeases(s.rows, s.now))
    ensures LiveIds(ReclaimExpiredLeases(s.rows, s.now)) == LiveIds(s.rows)
  {
  }

  lemma SweepKeepsLive(rows: Table, now: int)
    ensures LiveIds(SweepExpired(rows, now)) == LiveIds(rows)
    ensures AllQueued(rows) ==> AllQueued(SweepExpired(rows, now))
  {
  }

  lemma ReclaimAdvances(cfg: Config, live: set<JobId>, s: State, key: nat, peeked: seq<Job>)
    requires AtStage(live, s, key) && Wf(s.ready) && key in s.tasks && s.tasks[key].AlarmDue?
    ensures AtStage(live, OnResume(cfg, s, key, peeked), key)
  {
    ReclaimQueuesAll(s);
  }

  lemma SweepAdvances(cfg: Config, live: set<JobId>, s: State, key: nat, peeked: seq<Job>)
    requires AtStage(live, s, key) && Wf(s.ready) && key in s.tasks
    requires s.tasks[key].AlarmReclaimed? || s.tasks[key].AlarmRebuild?
    ensures AtStage(live, OnResume(cfg, s, key, peeked), key)
  {
    SweepKeepsLive(s.rows, s.tasks[key].at);
  }

  lemma AlarmAdvances(cfg: Config, live: set<JobId>, s: State, key: nat, peeked: seq<Job>)
    requires AtStage(live, s, key) && Wf(s.ready)
    requires key in s.tasks && Enabled(cfg, s, Resume(key, peeked))
    ensures AtStage(live, OnResume(cfg, s, key, peeked), key)
  {
    match s.tasks[key]
    case AlarmDue => ReclaimAdvances(cfg, live, s, key, peeked);
    case AlarmReclaimed(_, _) => SweepAdvances(cfg, live, s, key, peeked);
    case AlarmRebuild(_, _) => SweepAdvances(cfg, live, s, key, peeked);
    case AlarmInit(_) =>
    case AlarmSwept =>
    case AlarmBackstop(_) =>
  }

  lemma AlarmStretch(cfg: Config, live: set<JobId>, s: State, key: nat, peeked: seq<Job>)
    requires Recovering(live, s, key) && |live| <= PEEK_LIMIT
    requires key in s.tasks && Enabled(cfg, s, Resume(key, peeked))
    ensures Recovering(live, OnResume(cfg, s, key, peeked), key)
  {
    SubsetCardinality(QueuedIds(s.rows), LiveIds(s.rows));
    StepKeepsDurable(cfg, s, Resume(key, peeked));
    AlarmAdvances(cfg, live, s, key, peeked);
  }

  /** `steps` are all stretches of the alarm `key`. */
  ghost predicate Undisturbed(steps: seq<Step>, key: nat) {
    forall step :: step in steps ==> step.Resume? && step.key == key
  }

  lemma {:induction false} AlarmRecovers(cfg: Config, live: set<JobId>, s: State, key: nat, steps: seq<Step>)
    requires Recovering(live, s, key) && |live| <= PEEK_LIMIT
    requires Runs(cfg, s, steps) && Undisturbed(steps, key)
    ensures Recovering(live, End(cfg, s, steps), key)
    decreases |steps|
  {
    if steps != [] {
      assert steps[0] in steps && forall step :: step in steps[1..] ==> step in steps;
      AlarmStretch(cfg, live, s, key, steps[0].peeked);
      AlarmRecovers(cfg, live, Do(cfg, s, steps[0]), key, steps[1..]);
    }
  }

  lemma CallStartsRecovery(cfg: Config, s: State, key: nat, peeked: seq<Job>)
    requires Durable(s) && |LiveIds(s.rows)| <= PEEK_LIMIT && LeasesExpired(s)
    requires Enabled(cfg, OnCrash(s), AlarmCall(key, peeked))
    ensures Recovering(LiveIds(s.rows), OnAlarm(OnCrash(s), key, peeked), key)
  {
    StepKeepsDurable(cfg, s, Crash);
    SubsetCardinality(QueuedIds(s.rows), LiveIds(s.rows));
    StepKeepsDurable(cfg, OnCrash(s), AlarmCall(key, peeked));
  }

  lemma RecoveredJobsAreReady(live: set<JobId>, s: State, key: nat)
    requires Recovering(live, s, key) && key !in s.tasks
    ensures forall id :: id in live ==> id in s.rows && s.rows[id].status == Queued && Holds(s.ready, id)
  {
    forall id | id in live
      ensures id in s.rows && s.rows[id].status == Queued && Holds(s.ready, id)
    {
      assert id in LiveIds(s.rows);
      assert Remembered(s, id);
    }
  }

  /** If nothing else is called, one alarm is all it takes: after a crash anywhere and once
      the leases have expired, every job that had not ended is queued again, is in the ready
      set, and the loop has been started. */
  lemma OneAlarmSuffices(cfg: Config, s: State, key: nat, peeked: seq<Job>, steps: seq<Step>)
    requires Durable(s) && |LiveIds(s.rows)| <= 10_000 && LeasesExpired(s)
    requires Enabled(cfg, OnCrash(s), AlarmCall(key, peeked))
    requires var called := OnAlarm(OnCrash(s), key, peeked);
             Runs(cfg, called, steps) && Undisturbed(steps, key) && key !in End(cfg, called, steps).tasks
    ensures var end := End(cfg, OnAlarm(OnCrash(s), key, peeked), steps);
            && LiveIds(end.rows) == LiveIds(s.rows)
            && end.loop == AtHead
            && forall id :: Live(s.rows, id) ==> id in end.rows && end.rows[id].status == Queued && Holds(end.ready, id)
  {
    CallStartsRecovery(cfg, s, key, peeked);
    var called := OnAlarm(OnCrash(s), key, peeked);
    AlarmRecovers(cfg, LiveIds(s.rows), called, key, steps);
    RecoveredJobsAreReady(LiveIds(s.rows), End(cfg, called, steps), key);
  }

  // ---- the limit of a peek ----------------------------------------------------------------------------

  /** The limit of a peek is exact: a rebuild with nothing else in flight finds every
      queued job if and only if there are no more than 10,000 of them. */
  lemma RebuildFindsEveryJobIff(rows: Table, peeked: seq<Job>)
    requires IsPeek(rows, peeked)
    ensures (forall id :: id in QueuedIds(rows) ==> Holds(PushAll(EMPTY, peeked), id)) <==>
            |QueuedIds(rows)| <= 10_000
  {
    PeekIsCompleteIff(rows, peeked);
    PushAllWf(EMPTY, peeked);
    forall id
      ensures Holds(PushAll(EMPTY, peeked), id) <==> Among(peeked, id)
    {
      if Among(peeked, id) {
        PushAllRemembers(EMPTY, peeked, id);
      }
    }
  }

  /** Why deadlines must be positive. Undisturbed, the two stretches that handle a
      chosen queued job leave it queued, and so forgotten, exactly when its deadline
      is not positive: the loop then skips its own test and the claim rejects the row. */
  lemma ChosenJobIsHandledIff(cfg: Config, s: State, job: Job)
    requires s.now > 0
    requires job.id in s.rows && s.rows[job.id].status == Queued && s.rows[job.id].spec == job.spec
    ensures var expired := job.spec.deadlineMs > 0 && s.now >= job.spec.deadlineMs;
            var s' := if expired then LoopExpire(s.(loop := Expiring(job)))
                      else LoopClaim(cfg, s.(loop := Claiming(job, s.now)));
            s'.rows[job.id].status != Queued <==> job.spec.deadlineMs > 0
  {
  }
}
