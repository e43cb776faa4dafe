/** For which configurations the in-flight limit bounds the runs really in progress. A retry
    without delay is started while its predecessor is still to be settled, and then the
    `finally` of the one removes the map entry of the other; the loop then starts runs beside
    one that it does not see, and it can be made blind to any number of them. */
module SchedulerExcess {
  import opened Collections
  import opened Options
  import opened JobTable
  import opened ReadyQueue
  import opened Scheduler
  import opened SchedulerHistory
  import opened SchedulerShape
  import opened SchedulerProgress
  import opened SchedulerStall
  import opened SchedulerOverlap
  import opened SchedulerLeases

  // ---- putting runs together -----------------------------------------------------------------

  /** `steps` can be taken from `s` and lead to `end`. */
  ghost predicate Leads(cfg: Config, s: State, steps: seq<Step>, end: State) {
    Runs(cfg, s, steps) && End(cfg, s, steps) == end
  }

  lemma StepLeads(cfg: Config, s: State, step: Step)
    requires Wf(s.ready) && Enabled(cfg, s, step)
    ensures Leads(cfg, s, [step], Do(cfg, s, step))
  {
    assert [step][0] == step && [step][1..] == [];
  }

  /** A continuation that starts no rebuild runs. */
  lemma ResumeLeads(cfg: Config, s: State, key: nat, task: Task, o: Outcome)
    requires Wf(s.ready) && key in s.tasks && s.tasks[key] == task && !task.Executing?
    requires task != AlarmSwept && !task.AlarmReclaimed? && AfterAwait(cfg, s, task, []) == o
    ensures Leads(cfg, s, [Resume(key, [])], Leave(o, key))
  {
    StepLeads(cfg, s, Resume(key, []));
  }

  lemma {:induction false} LeadsJoin(cfg: Config, s: State, a: seq<Step>, mid: State, b: seq<Step>, end: State)
    requires Leads(cfg, s, a, mid) && Leads(cfg, mid, b, end)
    ensures Leads(cfg, s, a + b, end)
    decreases |a|
  {
    if a == [] {
      assert a + b == b;
    } else {
      assert (a + b)[0] == a[0] && (a + b)[1..] == a[1..] + b;
      LeadsJoin(cfg, Do(cfg, s, a[0]), a[1..], mid, b, end);
    }
  }

  // ---- the loop starts the only ready job ------------------------------------------------------

  predicate HasRoomFor(cfg: Config, running: Running, t: TenantId) {
    |running| < cfg.inFlightLimit && UnderCap(running, cfg.fairCapacityPerTenant, t)
  }

  lemma TakeTheOnlyJob(running: Running, cap: int, job: Job)
    requires UnderCap(running, cap, job.spec.tenantId)
    ensures Wf(Push(EMPTY, job)) && Take(Push(EMPTY, job), running, cap) == (EMPTY, Some(job))
  {
    PushWf(EMPTY, job);
    var t := job.spec.tenantId;
    var r := Push(EMPTY, job);
    assert r.order == [t] && r.queues == map[t := [job]];
    assert FirstUnderCap([t], running, cap) == 0;
    assert Rotate(r, 1).order == [t];
    assert r.queues - {t} == map[];
  }

  lemma HeadTakes(cfg: Config, s: State, key: nat, job: Job)
    requires s.ready == Push(EMPTY, job) && s.loop.AtHead? && key !in s.tasks
    requires HasRoomFor(cfg, s.running, job.spec.tenantId) && s.now < job.spec.deadlineMs
    ensures Leads(cfg, s, [LoopStep(key)], s.(ready := EMPTY, loop := Claiming(job, s.now)))
  {
    TakeTheOnlyJob(s.running, cfg.fairCapacityPerTenant, job);
    assert s.ready.order != [];
    StepLeads(cfg, s, LoopStep(key));
  }

  lemma ClaimTakes(cfg: Config, s: State, key: nat, job: Job, at: int)
    requires Wf(s.ready) && s.loop == Claiming(job, at) && key !in s.tasks && Claimable(s.rows, job.id, at)
    ensures Leads(cfg, s, [LoopStep(key)],
                  s.(rows := Claim(s.rows, job.id, OWNER, cfg.defaultLeaseMs, at),
                     loop := Claimed(Some(Snapshot(s.rows, job.id)))))
  {
    StepLeads(cfg, s, LoopStep(key));
  }

  lemma StartTakes(cfg: Config, s: State, key: nat, job: Job)
    requires Wf(s.ready) && s.loop == Claimed(Some(job)) && key !in s.tasks
    ensures Leads(cfg, s, [LoopStep(key)],
                  s.(running := s.running[job.id := job.spec.tenantId], loop := AtHead,
                     tasks := s.tasks[key := Executing(job)]))
  {
    StepLeads(cfg, s, LoopStep(key));
  }

  function LoopSteps(key: nat): seq<Step> {
    [LoopStep(key)] + ([LoopStep(key)] + [LoopStep(key)])
  }

  /** The state after the only ready job has been taken, claimed and started. */
  function Started(cfg: Config, s: State, key: nat, id: JobId): State
    requires id in s.rows
  {
    s.(ready := EMPTY, rows := Claim(s.rows, id, OWNER, cfg.defaultLeaseMs, s.now), loop := AtHead,
       running := s.running[id := s.rows[id].spec.tenantId],
       tasks := s.tasks[key := Executing(Snapshot(s.rows, id))])
  }

  lemma ReadyJobStarts(cfg: Config, s: State, key: nat, job: Job)
    requires s.ready == Push(EMPTY, job) && s.loop.AtHead? && key !in s.tasks
    requires HasRoomFor(cfg, s.running, job.spec.tenantId) && s.now < job.spec.deadlineMs
    requires job.id in s.rows && s.rows[job.id].status == Queued && s.rows[job.id].spec == job.spec
    ensures Leads(cfg, s, LoopSteps(key), Started(cfg, s, key, job.id))
  {
    var chosen := s.(ready := EMPTY, loop := Claiming(job, s.now));
    var claimed := chosen.(rows := Claim(s.rows, job.id, OWNER, cfg.defaultLeaseMs, s.now),
                           loop := Claimed(Some(Snapshot(s.rows, job.id))));
    HeadTakes(cfg, s, key, job);
    ClaimTakes(cfg, chosen, key, job, s.now);
    StartTakes(cfg, claimed, key, Snapshot(s.rows, job.id));
    LeadsJoin(cfg, chosen, [LoopStep(key)], claimed, [LoopStep(key)], Started(cfg, s, key, job.id));
    LeadsJoin(cfg, s, [LoopStep(key)], chosen, [LoopStep(key)] + [LoopStep(key)], Started(cfg, s, key, job.id));
  }

  // ---- an enqueued job is stored and started -----------------------------------------------------

  predicate Idle(s: State) {
    s.initialized && s.ready == EMPTY && (s.loop.Down? || s.loop.AtHead?)
  }

  /** The configuration admits jobs at all. */
  predicate Admits(cfg: Config) {
    cfg.maxQueueDepth != Some(0)
  }

  ghost predicate CanStore(cfg: Config, s: State, key: nat, job: Job) {
    && Idle(s) && Admits(cfg)
    && key in s.tasks && s.tasks[key].EnqueueReady? && s.tasks[key].job == job
    && job.retryCount == 0 && job.id !in s.rows && job.spec.idempotencyKey.None? && s.now < job.spec.deadlineMs
    && HasRoomFor(cfg, s.running, job.spec.tenantId)
  }

  lemma ReadyStores(cfg: Config, s: State, job: Job)
    requires Idle(s) && Admits(cfg) && job.id !in s.rows && job.spec.idempotencyKey.None?
    ensures AfterReady(cfg, s, job) ==
            Outcome(s.(rows := s.rows[job.id := FreshRow(job.spec)]), Some(EnqueueStored(job)))
  {
    assert !EnqueueRejected(cfg, s, job);
  }

  lemma StoreTakes(cfg: Config, s: State, key: nat, job: Job)
    requires CanStore(cfg, s, key, job)
    ensures Leads(cfg, s, [Resume(key, [])], Stored(s, key, job))
  {
    ReadyStores(cfg, s, job);
    ResumeLeads(cfg, s, key, EnqueueReady(job, s.tasks[key].ranInit),
                Outcome(s.(rows := s.rows[job.id := FreshRow(job.spec)]), Some(EnqueueStored(job))));
  }

  lemma PushTakes(cfg: Config, s: State, key: nat, job: Job)
    requires Idle(s) && key in s.tasks && s.tasks[key] == EnqueueStored(job)
    ensures Leads(cfg, s, [Resume(key, [])],
                  s.(ready := Push(EMPTY, job), loop := AtHead, tasks := s.tasks - {key}))
  {
    StepLeads(cfg, s, Resume(key, []));
  }

  function StoreSteps(key: nat): seq<Step> {
    [Resume(key, [])] + ([Resume(key, [])] + LoopSteps(key))
  }

  /** The state after a stored job has been started. */
  function StoredAndStarted(cfg: Config, s: State, key: nat, job: Job): State {
    s.(ready := EMPTY, loop := AtHead,
       rows := Claim(s.rows[job.id := FreshRow(job.spec)], job.id, OWNER, cfg.defaultLeaseMs, s.now),
       running := s.running[job.id := job.spec.tenantId],
       tasks := s.tasks[key := Executing(job)])
  }

  /** The job stored, and then pushed. */
  function Stored(s: State, key: nat, job: Job): State {
    s.(rows := s.rows[job.id := FreshRow(job.spec)], tasks := s.tasks[key := EnqueueStored(job)])
  }

  function Pushed(s: State, key: nat, job: Job): State {
    Stored(s, key, job).(ready := Push(EMPTY, job), loop := AtHead, tasks := s.tasks[key := EnqueueStored(job)] - {key})
  }

  lemma PushedIsStarted(cfg: Config, s: State, key: nat, job: Job)
    requires job.retryCount == 0
    ensures Started(cfg, Pushed(s, key, job), key, job.id) == StoredAndStarted(cfg, s, key, job)
  {
    assert (s.tasks[key := EnqueueStored(job)] - {key})[key := Executing(job)] == s.tasks[key := Executing(job)];
  }

  lemma PushedJobStarts(cfg: Config, s: State, key: nat, job: Job)
    requires CanStore(cfg, s, key, job)
    ensures Leads(cfg, Pushed(s, key, job), LoopSteps(key), StoredAndStarted(cfg, s, key, job))
  {
    ReadyJobStarts(cfg, Pushed(s, key, job), key, job);
    PushedIsStarted(cfg, s, key, job);
  }

  lemma StoredJobStarts(cfg: Config, s: State, key: nat, job: Job)
    requires CanStore(cfg, s, key, job)
    ensures Leads(cfg, s, StoreSteps(key), StoredAndStarted(cfg, s, key, job))
  {
    var stored, pushed, end := Stored(s, key, job), Pushed(s, key, job), StoredAndStarted(cfg, s, key, job);
    StoreTakes(cfg, s, key, job);
    PushTakes(cfg, stored, key, job);
    PushedJobStarts(cfg, s, key, job);
    ThreeLead(cfg, s, [Resume(key, [])], stored, [Resume(key, [])], pushed, LoopSteps(key), end);
  }

  lemma ThreeLead(cfg: Config, s: State, a: seq<Step>, s1: State, b: seq<Step>, s2: State, c: seq<Step>, end: State)
    requires Leads(cfg, s, a, s1) && Leads(cfg, s1, b, s2) && Leads(cfg, s2, c, end)
    ensures Leads(cfg, s, a + (b + c), end)
  {
    LeadsJoin(cfg, s1, b, s2, c, end);
    LeadsJoin(cfg, s, a, s1, b + c, end);
  }

  // ---- a retry without delay -----------------------------------------------------------------------

  /** A run has failed with attempts left and no retry delay, nothing else is ready, and a
      slot is free beside its own. */
  ghost predicate FailedWithoutDelay(cfg: Config, s: State, key: nat) {
    && Idle(s) && key in s.tasks && s.tasks[key].FailReturned? && s.tasks[key].next == Queued
    && var job := s.tasks[key].job;
       && RetryDelay(job.spec.retry, job.retryCount) <= 0
       && job.id in s.rows && s.rows[job.id].status == Queued && s.rows[job.id].spec == job.spec
       && s.now < job.spec.deadlineMs && HasRoomFor(cfg, s.running, job.spec.tenantId)
  }

  /** The state after the failed run has put its job back. */
  function PutBack(s: State, key: nat, job: Job): State {
    s.(ready := Push(EMPTY, job.(retryCount := job.retryCount + 1)), loop := AtHead,
       tasks := s.tasks[key := Settling(job, None)])
  }

  lemma RetryPushes(s: State, job: Job)
    requires Idle(s) && RetryDelay(job.spec.retry, job.retryCount) <= 0
    ensures AfterFail(s, job, Queued) ==
            Outcome(s.(ready := Push(EMPTY, job.(retryCount := job.retryCount + 1)), loop := AtHead),
                    Some(Settling(job, None)))
  {
  }

  lemma RetryTakes(cfg: Config, s: State, key: nat, job: Job)
    requires FailedWithoutDelay(cfg, s, key) && job == s.tasks[key].job
    ensures Leads(cfg, s, [Resume(key, [])], PutBack(s, key, job))
  {
    RetryPushes(s, job);
    ResumeLeads(cfg, s, key, FailReturned(job, Queued), AfterFail(s, job, Queued));
  }

  lemma SettleTakes(cfg: Config, s: State, key: nat, job: Job)
    requires Idle(s) && key in s.tasks && s.tasks[key] == Settling(job, None)
    ensures Leads(cfg, s, [Resume(key, [])], s.(running := s.running - {job.id}, tasks := s.tasks - {key}))
  {
    StepLeads(cfg, s, Resume(key, []));
  }

  /** The failed run puts its job back and kicks; the loop takes it, claims it and starts
      it; and then the failed run is settled. */
  function RestartSteps(key: nat, newKey: nat): seq<Step> {
    [Resume(key, [])] + (LoopSteps(newKey) + [Resume(key, [])])
  }

  function Restarted(cfg: Config, s: State, key: nat, newKey: nat, id: JobId): State
    requires id in s.rows
  {
    s.(rows := Claim(s.rows, id, OWNER, cfg.defaultLeaseMs, s.now), loop := AtHead, running := s.running - {id},
       tasks := (s.tasks - {key})[newKey := Executing(Snapshot(s.rows, id))])
  }

  /** The state after the retry has been started, and after the failed run has settled. */
  function Doubled(cfg: Config, s: State, key: nat, newKey: nat, job: Job): State
    requires job.id in s.rows
  {
    Started(cfg, PutBack(s, key, job), newKey, job.id)
  }

  lemma DoubledSettles(cfg: Config, s: State, key: nat, newKey: nat, job: Job)
    requires job.id in s.rows && newKey != key && s.ready == EMPTY
    ensures var d := Doubled(cfg, s, key, newKey, job);
            d.(running := d.running - {job.id}, tasks := d.tasks - {key}) == Restarted(cfg, s, key, newKey, job.id)
  {
    var d := Doubled(cfg, s, key, newKey, job);
    assert d.running - {job.id} == s.running - {job.id};
    assert d.tasks - {key} == (s.tasks - {key})[newKey := Executing(Snapshot(s.rows, job.id))];
  }

  lemma PutBackStarts(cfg: Config, s: State, key: nat, newKey: nat, job: Job)
    requires FailedWithoutDelay(cfg, s, key) && newKey !in s.tasks && job == s.tasks[key].job
    ensures Leads(cfg, PutBack(s, key, job), LoopSteps(newKey), Doubled(cfg, s, key, newKey, job))
  {
    ReadyJobStarts(cfg, PutBack(s, key, job), newKey, job.(retryCount := job.retryCount + 1));
  }

  lemma DoubledLeads(cfg: Config, s: State, key: nat, newKey: nat, job: Job)
    requires FailedWithoutDelay(cfg, s, key) && newKey !in s.tasks && job == s.tasks[key].job
    ensures Leads(cfg, Doubled(cfg, s, key, newKey, job), [Resume(key, [])], Restarted(cfg, s, key, newKey, job.id))
  {
    DoubledSettles(cfg, s, key, newKey, job);
    SettleTakes(cfg, Doubled(cfg, s, key, newKey, job), key, job);
  }

  lemma RestartLeads(cfg: Config, s: State, key: nat, newKey: nat, job: Job)
    requires FailedWithoutDelay(cfg, s, key) && newKey !in s.tasks && job == s.tasks[key].job
    ensures Leads(cfg, s, RestartSteps(key, newKey), Restarted(cfg, s, key, newKey, job.id))
  {
    RetryTakes(cfg, s, key, job);
    PutBackStarts(cfg, s, key, newKey, job);
    DoubledLeads(cfg, s, key, newKey, job);
    ThreeLead(cfg, s, [Resume(key, [])], PutBack(s, key, job), LoopSteps(newKey), Doubled(cfg, s, key, newKey, job),
              [Resume(key, [])], Restarted(cfg, s, key, newKey, job.id));
  }

  lemma RestartsInto(cfg: Config, s: State, key: nat, newKey: nat, job: Job, end: State)
    requires FailedWithoutDelay(cfg, s, key) && newKey !in s.tasks && job == s.tasks[key].job
    requires Restarted(cfg, s, key, newKey, job.id) == end
    ensures Leads(cfg, s, RestartSteps(key, newKey), end)
  {
    RestartLeads(cfg, s, key, newKey, job);
  }

  /** A retry without delay makes the running map lose a run in progress: its entry is the
      one that the `finally` of the failed run removes. */
  lemma ImmediateRetryHidesALiveRun(cfg: Config, s: State, key: nat, newKey: nat)
    requires FailedWithoutDelay(cfg, s, key) && newKey !in s.tasks
    ensures Runs(cfg, s, RestartSteps(key, newKey))
    ensures var end := End(cfg, s, RestartSteps(key, newKey));
            && newKey in LiveRuns(end) && end.tasks[newKey].job.id == s.tasks[key].job.id
            && s.tasks[key].job.id !in end.running
  {
    RestartLeads(cfg, s, key, newKey, s.tasks[key].job);
  }

  // ---- a run that nothing lists -----------------------------------------------------------------------

  /** A job that may fail once and is then retried at once. */
  function Impatient(t: TenantId, now: int): Spec {
    Spec(t, now, (if now < 0 then 0 else now) + 1, RetryPolicy(2, Constant, 0), None)
  }

  /** `m` runs of one tenant are executing and the running map lists none of them; nothing
      uses `n` or a larger number yet. */
  ghost predicate Hidden(s: State, n: nat, m: nat) {
    && Idle(s) && s.running == map[] && |s.tasks| == m
    && (forall k :: k in s.tasks ==> k < n && s.tasks[k].Executing? && s.tasks[k].job.spec.tenantId == 0)
    && (forall id :: id in s.catalog ==> id < n)
    && (forall id :: id in s.rows ==> id < n)
  }

  /** Beside them one more job of the tenant is being enqueued. */
  ghost predicate Called(s: State, n: nat, m: nat, job: Job) {
    && job == Job(n, Impatient(0, s.now), 0) && n in s.tasks && s.tasks[n].EnqueueReady? && s.tasks[n].job == job
    && Idle(s) && s.running == map[] && |s.tasks| == m + 1
    && (forall k :: k in s.tasks && k != n ==> k < n && s.tasks[k].Executing? && s.tasks[k].job.spec.tenantId == 0)
    && (forall id :: id in s.catalog ==> id <= n)
    && (forall id :: id in s.rows ==> id < n)
  }

  ghost predicate TwoSlots(cfg: Config) {
    cfg.inFlightLimit >= 2 && cfg.fairCapacityPerTenant >= 2 && Admits(cfg)
  }

  lemma FewRunning(cfg: Config, running: Running, id: JobId, t: TenantId)
    requires TwoSlots(cfg) && running.Keys <= {id}
    ensures HasRoomFor(cfg, running, t)
  {
    SubsetCardinality(running.Keys, {id});
    SubsetCardinality(RunningOf(running, t), {id});
  }

  lemma FailTakes(cfg: Config, s: State, key: nat, job: Job, error: Failure)
    requires Wf(s.ready) && key in s.tasks && s.tasks[key] == Executing(job)
    requires job.id in s.rows && HeldBy(s.rows[job.id], OWNER)
    requires s.rows[job.id].retryCount + 1 < s.rows[job.id].spec.retry.max
    ensures Leads(cfg, s, [RunEnds(key, Throws(error))],
                  s.(rows := s.rows[job.id := FailedRow(s.rows[job.id], error)],
                     tasks := s.tasks[key := FailReturned(job, Queued)]))
  {
    StepLeads(cfg, s, RunEnds(key, Throws(error)));
  }

  lemma CalledJobStarts(cfg: Config, s: State, n: nat, m: nat, job: Job)
    requires TwoSlots(cfg) && Called(s, n, m, job)
    ensures Leads(cfg, s, StoreSteps(n), StoredAndStarted(cfg, s, n, job))
  {
    FewRunning(cfg, s.running, n, 0);
    StoredJobStarts(cfg, s, n, job);
  }

  /** The called job has been stored and started, and then its run has failed. */
  function Broken(cfg: Config, s: State, n: nat, job: Job): State {
    var row := LeaseRow(FreshRow(job.spec), OWNER, s.now + cfg.defaultLeaseMs);
    s.(ready := EMPTY, loop := AtHead, rows := s.rows[n := FailedRow(row, RunFailure(""))],
       running := map[n := 0], tasks := s.tasks[n := FailReturned(job, Queued)])
  }

  lemma StartedRow(cfg: Config, s: State, n: nat, m: nat, job: Job)
    requires Called(s, n, m, job)
    ensures var started := StoredAndStarted(cfg, s, n, job);
            && n in started.rows
            && started.rows[n] == LeaseRow(FreshRow(job.spec), OWNER, s.now + cfg.defaultLeaseMs)
            && started.rows[n := FailedRow(started.rows[n], RunFailure(""))] == Broken(cfg, s, n, job).rows
            && started.tasks[n := FailReturned(job, Queued)] == Broken(cfg, s, n, job).tasks
            && started.running == map[n := 0]
  {
  }

  lemma CalledJobFails(cfg: Config, s: State, n: nat, m: nat, job: Job)
    requires Called(s, n, m, job)
    ensures Leads(cfg, StoredAndStarted(cfg, s, n, job), [RunEnds(n, Throws(RunFailure("")))], Broken(cfg, s, n, job))
  {
    StartedRow(cfg, s, n, m, job);
    FailTakes(cfg, StoredAndStarted(cfg, s, n, job), n, job, RunFailure(""));
  }

  lemma BrokenIsRetried(cfg: Config, s: State, n: nat, m: nat, job: Job)
    requires TwoSlots(cfg) && Called(s, n, m, job)
    ensures var broken := Broken(cfg, s, n, job);
            FailedWithoutDelay(cfg, broken, n) && n + 1 !in broken.tasks && broken.tasks[n].job == job
  {
    FewRunning(cfg, Broken(cfg, s, n, job).running, n, 0);
  }

  /** The state after the retry has been started and the failed run settled. */
  function HiddenOnce(cfg: Config, s: State, n: nat, job: Job): State {
    var row := FailedRow(LeaseRow(FreshRow(job.spec), OWNER, s.now + cfg.defaultLeaseMs), RunFailure(""));
    s.(ready := EMPTY, loop := AtHead,
       rows := s.rows[n := LeaseRow(row, OWNER, s.now + cfg.defaultLeaseMs)], running := map[],
       tasks := (s.tasks - {n})[n + 1 := Executing(Job(n, job.spec, 1))])
  }

  lemma BrokenClaims(cfg: Config, s: State, n: nat, m: nat, job: Job)
    requires Called(s, n, m, job)
    ensures Claim(Broken(cfg, s, n, job).rows, n, OWNER, cfg.defaultLeaseMs, s.now) == HiddenOnce(cfg, s, n, job).rows
  {
  }

  lemma RestartedIsHidden(cfg: Config, s: State, n: nat, m: nat, job: Job)
    requires Called(s, n, m, job)
    ensures Restarted(cfg, Broken(cfg, s, n, job), n, n + 1, n) == HiddenOnce(cfg, s, n, job)
  {
    BrokenClaims(cfg, s, n, m, job);
    assert s.tasks[n := FailReturned(job, Queued)] - {n} == s.tasks - {n};
    assert map[n := 0] - {n} == map[];
  }

  lemma BrokenRestarts(cfg: Config, s: State, n: nat, m: nat, job: Job)
    requires TwoSlots(cfg) && Called(s, n, m, job)
    ensures Leads(cfg, Broken(cfg, s, n, job), RestartSteps(n, n + 1), HiddenOnce(cfg, s, n, job))
  {
    BrokenIsRetried(cfg, s, n, m, job);
    RestartedIsHidden(cfg, s, n, m, job);
    RestartsInto(cfg, Broken(cfg, s, n, job), n, n + 1, job, HiddenOnce(cfg, s, n, job));
  }

  lemma OneMoreIsHidden(cfg: Config, s: State, n: nat, m: nat, job: Job)
    requires Called(s, n, m, job)
    ensures Hidden(HiddenOnce(cfg, s, n, job), n + 2, m + 1)
  {
    var end := HiddenOnce(cfg, s, n, job);
    assert end.tasks.Keys == s.tasks.Keys - {n} + {n + 1};
    assert |s.tasks.Keys - {n}| == m;
  }

  function HideSteps(n: nat): seq<Step> {
    StoreSteps(n) + ([RunEnds(n, Throws(RunFailure("")))] + RestartSteps(n, n + 1))
  }

  /** The called job is started, fails, is started again, and then its failed run is settled:
      one more run is hidden. */
  lemma CalledJobHides(cfg: Config, s: State, n: nat, m: nat, job: Job)
    requires TwoSlots(cfg) && Called(s, n, m, job)
    ensures Leads(cfg, s, HideSteps(n), HiddenOnce(cfg, s, n, job))
  {
    CalledJobStarts(cfg, s, n, m, job);
    CalledJobFails(cfg, s, n, m, job);
    BrokenRestarts(cfg, s, n, m, job);
    ThreeLead(cfg, s, StoreSteps(n), StoredAndStarted(cfg, s, n, job), [RunEnds(n, Throws(RunFailure("")))],
              Broken(cfg, s, n, job), RestartSteps(n, n + 1), HiddenOnce(cfg, s, n, job));
  }

  // ---- from the start -----------------------------------------------------------------------------------

  lemma NothingToPeek()
    ensures IsPeek(map[], [])
  {
    assert QueuedIds(map[]) == {};
  }

  /** The first enqueue of all, up to the end of its rebuild. */
  lemma FirstCallTakes(cfg: Config, now: int, job: Job)
    requires job.spec.deadlineMs > 0 && job.retryCount == 0 && job.id == 0
    ensures Leads(cfg, Initial(now), [EnqueueCall(0, 0, job.spec, [])] + [Resume(0, [])], FirstCalled(now, job))
  {
    var s, call := Initial(now), EnqueueCall(0, 0, job.spec, []);
    var called := s.(initialized := true, catalog := map[0 := job.spec], tasks := map[0 := EnqueueInit(job, [])]);
    NothingToPeek();
    StepLeads(cfg, s, call);
    assert Do(cfg, s, call) == called;
    StepLeads(cfg, called, Resume(0, []));
    var end := called.(tasks := map[0 := EnqueueReady(job, true)]);
    assert called.tasks[0 := EnqueueReady(job, true)] == end.tasks;
    assert Do(cfg, called, Resume(0, [])) == end;
    LeadsJoin(cfg, s, [call], called, [Resume(0, [])], end);
  }

  function FirstCalled(now: int, job: Job): State {
    Initial(now).(initialized := true, catalog := map[0 := job.spec], tasks := map[0 := EnqueueReady(job, true)])
  }

  lemma CallTakes(cfg: Config, s: State, key: nat, job: Job)
    requires s.initialized && Wf(s.ready) && key !in s.tasks && job.id !in s.catalog && job.spec.deadlineMs > 0
    requires job.retryCount == 0
    ensures Leads(cfg, s, [EnqueueCall(key, job.id, job.spec, [])],
                  s.(catalog := s.catalog[job.id := job.spec], tasks := s.tasks[key := EnqueueReady(job, false)]))
  {
    StepLeads(cfg, s, EnqueueCall(key, job.id, job.spec, []));
  }

  lemma AddedKey<K, V>(m: map<K, V>, k: K, v: V)
    requires k !in m
    ensures |m[k := v]| == |m| + 1
  {
    assert m[k := v].Keys == m.Keys + {k};
  }

  /** The next job of the tenant is enqueued. */
  lemma HiddenIsCalled(s: State, n: nat, m: nat, job: Job)
    requires Hidden(s, n, m) && job == Job(n, Impatient(0, s.now), 0)
    ensures Called(s.(catalog := s.catalog[n := job.spec], tasks := s.tasks[n := EnqueueReady(job, false)]), n, m, job)
  {
    AddedKey(s.tasks, n, EnqueueReady(job, false));
  }

  lemma HideOneMore(cfg: Config, s: State, n: nat, m: nat) returns (steps: seq<Step>, end: State)
    requires TwoSlots(cfg) && Hidden(s, n, m)
    ensures Leads(cfg, s, steps, end) && Hidden(end, n + 2, m + 1)
  {
    var job := Job(n, Impatient(0, s.now), 0);
    var called := s.(catalog := s.catalog[n := job.spec], tasks := s.tasks[n := EnqueueReady(job, false)]);
    CallTakes(cfg, s, n, job);
    HiddenIsCalled(s, n, m, job);
    CalledJobHides(cfg, called, n, m, job);
    OneMoreIsHidden(cfg, called, n, m, job);
    end := HiddenOnce(cfg, called, n, job);
    steps := [EnqueueCall(n, n, job.spec, [])] + HideSteps(n);
    LeadsJoin(cfg, s, [EnqueueCall(n, n, job.spec, [])], called, HideSteps(n), end);
  }

  lemma FirstIsCalled(now: int, job: Job)
    requires job == Job(0, Impatient(0, now), 0)
    ensures Called(FirstCalled(now, job), 0, 0, job) && job.spec.deadlineMs > 0
  {
    assert FirstCalled(now, job).tasks.Keys == {0};
  }

  lemma HideFirst(cfg: Config, now: int) returns (steps: seq<Step>, end: State)
    requires TwoSlots(cfg)
    ensures Leads(cfg, Initial(now), steps, end) && Hidden(end, 2, 1)
  {
    var job := Job(0, Impatient(0, now), 0);
    var call := [EnqueueCall(0, 0, job.spec, [])] + [Resume(0, [])];
    var called := FirstCalled(now, job);
    FirstIsCalled(now, job);
    FirstCallTakes(cfg, now, job);
    CalledJobHides(cfg, called, 0, 0, job);
    OneMoreIsHidden(cfg, called, 0, 0, job);
    end := HiddenOnce(cfg, called, 0, job);
    steps := call + HideSteps(0);
    LeadsJoin(cfg, Initial(now), call, called, HideSteps(0), end);
  }

  lemma {:induction false} HideMany(cfg: Config, now: int, m: nat) returns (steps: seq<Step>, end: State)
    requires TwoSlots(cfg) && m >= 1
    ensures Leads(cfg, Initial(now), steps, end) && Hidden(end, 2 * m, m)
    decreases m
  {
    if m == 1 {
      steps, end := HideFirst(cfg, now);
    } else {
      var before, mid := HideMany(cfg, now, m - 1);
      var last;
      last, end := HideOneMore(cfg, mid, 2 * m - 2, m - 1);
      LeadsJoin(cfg, Initial(now), before, mid, last, end);
      steps := before + last;
    }
  }

  /** With two slots, two per tenant and a queue that admits jobs, there is no bound at all:
      every number of runs is in progress at the end of some run, all of one tenant and none
      of them in the running map. */
  lemma ExcessIsUnbounded(cfg: Config, now: int, m: nat) returns (steps: seq<Step>)
    requires TwoSlots(cfg)
    ensures Runs(cfg, Initial(now), steps) && End(cfg, Initial(now), steps).running == map[]
    ensures |LiveRuns(End(cfg, Initial(now), steps))| == |LiveRunsOf(End(cfg, Initial(now), steps), 0)| == m
  {
    if m == 0 {
      steps := [];
      assert LiveRuns(Initial(now)) == LiveRunsOf(Initial(now), 0) == {};
    } else {
      var end;
      steps, end := HideMany(cfg, now, m);
      assert LiveRuns(end) == LiveRunsOf(end, 0) == end.tasks.Keys;
    }
  }

  // ---- when it never happens ----------------------------------------------------------------------------------

  /** With one slot, or one slot a tenant, a job cannot be started beside its own run. */
  predicate SingleSlot(cfg: Config) {
    cfg.inFlightLimit <= 1 || cfg.fairCapacityPerTenant <= 1
  }

  lemma RunningTakesSlots(running: Running, id: JobId)
    requires id in running
    ensures |running| >= 1 && InFlight(running, running[id]) >= 1
  {
    assert id in running.Keys && id in RunningOf(running, running[id]);
  }

  lemma SingleSlotNeverOverlaps(cfg: Config, s: State, step: Step)
    requires SingleSlot(cfg) && Shape(s) && Bounded(cfg, s) && RunningKnown(s)
    ensures !Overlaps(s, step)
  {
    if Overlaps(s, step) {
      RunningTakesSlots(s.running, s.loop.got.value.id);
    }
  }

  /** A queue of depth zero never stores a job, so nothing ever runs. */
  ghost predicate NothingStored(s: State) {
    s.rows == map[] && (s.loop.Claimed? ==> s.loop.got.None?)
  }

  lemma NothingIsStored(cfg: Config, s: State, step: Step)
    requires !Admits(cfg) && Shape(s) && NothingStored(s) && Enabled(cfg, s, step)
    ensures NothingStored(Do(cfg, s, step))
  {
    StepIsHistory(cfg, s, step);
    assert forall op :: op in RowOps(cfg, s, step) ==> !op.EnqueueOp?;
    OpsKeepKeys(s.rows, RowOps(cfg, s, step));
    assert Do(cfg, s, step).rows == map[];
    ClaimsNothing(cfg, s, step);
  }

  lemma ResumeClaimsNothing(cfg: Config, s: State, key: nat, peeked: seq<Job>)
    requires Wf(s.ready) && Enabled(cfg, s, Resume(key, peeked))
    ensures var loop := OnResume(cfg, s, key, peeked).loop; loop.Claimed? ==> loop == s.loop
  {
    AwaitStartsNothing(cfg, s, s.tasks[key], peeked);
    LeaveKeepsTasks(AfterAwait(cfg, s, s.tasks[key], peeked), key);
  }

  lemma ClaimsNothing(cfg: Config, s: State, step: Step)
    requires Wf(s.ready) && NothingStored(s) && Enabled(cfg, s, step)
    ensures Do(cfg, s, step).loop.Claimed? ==> Do(cfg, s, step).loop.got.None?
  {
    match step
    case Resume(key, peeked) => ResumeClaimsNothing(cfg, s, key, peeked);
    case LoopStep(key) => LoopTasks(cfg, s, key);
    case _ =>
  }

  ghost predicate NeverTwice(cfg: Config, s: State) {
    && Shape(s) && Bounded(cfg, s) && Faithful(s) && RunningKnown(s)
    && (SingleSlot(cfg) || (!Admits(cfg) && NothingStored(s)))
  }

  lemma StepKeepsNeverTwice(cfg: Config, s: State, step: Step)
    requires NeverTwice(cfg, s) && Enabled(cfg, s, step)
    ensures NeverTwice(cfg, Do(cfg, s, step))
  {
    if SingleSlot(cfg) {
      SingleSlotNeverOverlaps(cfg, s, step);
    } else {
      NothingIsStored(cfg, s, step);
    }
    StepKeepsShape(cfg, s, step);
    StepKeepsBounded(cfg, s, step);
    StepStaysFaithful(cfg, s, step);
    StepKeepsRunningKnown(cfg, s, step);
  }

  lemma {:induction false} RunsNeverTwice(cfg: Config, s: State, steps: seq<Step>)
    requires NeverTwice(cfg, s) && Runs(cfg, s, steps)
    ensures WithinLimits(cfg, End(cfg, s, steps))
    decreases |steps|
  {
    if steps == [] {
      FaithfulBoundsLiveRuns(cfg, s);
    } else {
      StepKeepsNeverTwice(cfg, s, steps[0]);
      RunsNeverTwice(cfg, Do(cfg, s, steps[0]), steps[1..]);
    }
  }

  lemma InitialNeverTwice(cfg: Config, now: int)
    requires SingleSlot(cfg) || !Admits(cfg)
    ensures NeverTwice(cfg, Initial(now))
  {
    InitialShape(now);
    var none: Running := map[];
    assert forall t :: RunningOf(none, t) == {};
    assert forall k :: RunJob(Initial(now), k).None?;
  }

  lemma LimitsHold(cfg: Config, now: int, steps: seq<Step>)
    requires (SingleSlot(cfg) || !Admits(cfg)) && Runs(cfg, Initial(now), steps)
    ensures WithinLimits(cfg, End(cfg, Initial(now), steps))
  {
    InitialNeverTwice(cfg, now);
    RunsNeverTwice(cfg, Initial(now), steps);
  }

  /** Every run from the start keeps the runs in progress within `inFlightLimit` if and only
      if there is one slot at most, in all or for each tenant, or no job is ever admitted. */
  lemma LimitHoldsIff(cfg: Config, now: int)
    ensures (forall steps :: Runs(cfg, Initial(now), steps) ==>
               |LiveRuns(End(cfg, Initial(now), steps))| <= cfg.inFlightLimit)
            <==> SingleSlot(cfg) || !Admits(cfg)
  {
    if SingleSlot(cfg) || !Admits(cfg) {
      forall steps | Runs(cfg, Initial(now), steps)
        ensures |LiveRuns(End(cfg, Initial(now), steps))| <= cfg.inFlightLimit
      {
        LimitsHold(cfg, now, steps);
      }
    } else {
      var steps := ExcessIsUnbounded(cfg, now, cfg.inFlightLimit + 1);
      assert Runs(cfg, Initial(now), steps) && |LiveRuns(End(cfg, Initial(now), steps))| > cfg.inFlightLimit;
    }
  }

  /** And the runs of every tenant within `fairCapacityPerTenant` under the same condition. */
  lemma TenantLimitHoldsIff(cfg: Config, now: int)
    ensures (forall steps, t :: Runs(cfg, Initial(now), steps) ==>
               |LiveRunsOf(End(cfg, Initial(now), steps), t)| <= cfg.fairCapacityPerTenant)
            <==> SingleSlot(cfg) || !Admits(cfg)
  {
    if SingleSlot(cfg) || !Admits(cfg) {
      forall steps, t | Runs(cfg, Initial(now), steps)
        ensures |LiveRunsOf(End(cfg, Initial(now), steps), t)| <= cfg.fairCapacityPerTenant
      {
        LimitsHold(cfg, now, steps);
      }
    } else {
      var steps := ExcessIsUnbounded(cfg, now, cfg.fairCapacityPerTenant + 1);
      assert Runs(cfg, Initial(now), steps)
             && |LiveRunsOf(End(cfg, Initial(now), steps), 0)| > cfg.fairCapacityPerTenant;
    }
  }

  ghost predicate BoundsLiveRuns(cfg: Config, now: int, bound: nat) {
    forall steps :: Runs(cfg, Initial(now), steps) ==> |LiveRuns(End(cfg, Initial(now), steps))| <= bound
  }

  /** In any other configuration the excess has no bound. */
  lemma SomeBoundHoldsIff(cfg: Config, now: int)
    ensures (exists bound: nat :: BoundsLiveRuns(cfg, now, bound)) <==> SingleSlot(cfg) || !Admits(cfg)
  {
    LimitHoldsIff(cfg, now);
    if SingleSlot(cfg) || !Admits(cfg) {
      assert BoundsLiveRuns(cfg, now, cfg.inFlightLimit);
    } else {
      forall bound: nat ensures !BoundsLiveRuns(cfg, now, bound) {
        var steps := ExcessIsUnbounded(cfg, now, bound + 1);
        assert Runs(cfg, Initial(now), steps) && |LiveRuns(End(cfg, Initial(now), steps))| > bound;
      }
    }
  }
}
