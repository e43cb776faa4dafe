/** What holds from the start: the invariants of the other modules are true of a scheduler
    object that has just been created, and so of every state it can reach. */
module SchedulerReachable {
  import opened JobTable
  import opened JobHistories
  import opened ReadyQueue
  import opened Scheduler
  import opened SchedulerShape
  import opened SchedulerDurability
  import opened SchedulerProgress
  import opened SchedulerStall
  import opened SchedulerRuns
  import opened SchedulerOverlap
  import opened SchedulerLeases
  import opened SchedulerRecovery

  /** The invariants that every step keeps without conditions. */
  ghost predicate Sound(cfg: Config, s: State) {
    && Shape(s) && FreshEnqueues(s) && Bounded(cfg, s) && RunningKnown(s)
    && ClocksBehind(s) && LiveRowsRetry(s.rows) && OwnLeases(s.rows)
  }

  lemma StepKeepsSound(cfg: Config, s: State, step: Step)
    requires Sound(cfg, s) && Enabled(cfg, s, step)
    ensures Sound(cfg, Do(cfg, s, step))
  {
    StepKeepsShape(cfg, s, step);
    StepKeepsFresh(cfg, s, step);
    StepKeepsBounded(cfg, s, step);
    StepKeepsRunningKnown(cfg, s, step);
    StepKeepsClocks(cfg, s, step);
    StepKeepsLiveRowsRetry(cfg, s, step);
    StepKeepsOwnLeases(cfg, s, step);
  }

  lemma {:induction false} RunKeepsSound(cfg: Config, s: State, steps: seq<Step>)
    requires Sound(cfg, s) && Runs(cfg, s, steps)
    ensures Sound(cfg, End(cfg, s, steps))
    decreases |steps|
  {
    if steps != [] {
      StepKeepsSound(cfg, s, steps[0]);
      RunKeepsSound(cfg, Do(cfg, s, steps[0]), steps[1..]);
    }
  }

  lemma InitialIsSound(cfg: Config, now: int)
    ensures Sound(cfg, Initial(now))
  {
    InitialShape(now);
    var none: Running := map[];
    assert forall t :: RunningOf(none, t) == {};
  }

  lemma InitialIsGuarded(cfg: Config, now: int)
    ensures Guarded(Initial(now))
  {
    InitialShape(now);
    assert forall k :: RunJob(Initial(now), k).None?;
  }

  /** Every reachable state is sound: both limits bound the running map, pending enqueues
      carry fresh ids, and live rows have attempts left. */
  lemma ReachableStatesAreSound(cfg: Config, now: int, steps: seq<Step>)
    requires Runs(cfg, Initial(now), steps)
    ensures Sound(cfg, End(cfg, Initial(now), steps))
  {
    InitialIsSound(cfg, now);
    RunKeepsSound(cfg, Initial(now), steps);
  }

  /** No queued job is stranded in any reachable state, if the peeks on the way saw all. */
  lemma ReachableStatesAreDurable(cfg: Config, now: int, steps: seq<Step>)
    requires Runs(cfg, Initial(now), steps) && PeeksSeeAll(cfg, Initial(now), steps)
    ensures Durable(End(cfg, Initial(now), steps))
  {
    InitialIsDurable(now);
    NoJobIsStranded(cfg, Initial(now), steps);
  }

  /** No wakeup is lost on the way to any reachable state, if no enqueue was rejected that had
      just rebuilt the ready set. */
  lemma ReachableStatesAreAwake(cfg: Config, now: int, steps: seq<Step>)
    requires Runs(cfg, Initial(now), steps) && RebuildersGetIn(cfg, Initial(now), steps)
    ensures NoWakeupLost(cfg, End(cfg, Initial(now), steps))
  {
    InitialIsSound(cfg, now);
    WakeupsAreKept(cfg, Initial(now), steps);
  }

  /** Runs in progress obey both limits in every reachable state, if on the way leases
      outlived runs and runs had settled before their job was claimed again. */
  lemma ReachableRunsAreBounded(cfg: Config, now: int, steps: seq<Step>)
    requires Runs(cfg, Initial(now), steps)
    requires LeasesOutliveRuns(cfg, Initial(now), steps) && SettledBeforeClaims(cfg, Initial(now), steps)
    ensures WithinLimits(cfg, End(cfg, Initial(now), steps))
  {
    InitialIsSound(cfg, now);
    InitialIsGuarded(cfg, now);
    LiveRunsStayBounded(cfg, Initial(now), steps);
  }

  /** From the start, every job has one life and is retried at most once less than it has
      attempts. */
  lemma ReachableJobsHaveOneLife(cfg: Config, now: int, steps: seq<Step>, id: JobId)
    requires Runs(cfg, Initial(now), steps) && id in End(cfg, Initial(now), steps).catalog
    ensures var attempts := MaxAttempts(End(cfg, Initial(now), steps).catalog[id].retry);
            && OneLife(map[], Updates(cfg, Initial(now), steps), id, attempts)
            && RetriesScheduled(cfg, Initial(now), steps, id) < attempts
  {
    InitialIsSound(cfg, now);
    assert RetriesDue(Initial(now), id) == {};
    EveryJobHasOneLife(cfg, Initial(now), steps, id);
    RetriesAreLimited(cfg, Initial(now), steps, id);
  }

  /** From a crash in any reachable state, with anything called in any order, every job is
      accounted for once an alarm has reclaimed the leases of before the crash. */
  lemma ReachableStatesRecover(cfg: Config, now: int, steps: seq<Step>, s: State,
                               before: seq<Step>, key: nat, peeked: seq<Job>, after: seq<Step>, limit: int)
    requires Runs(cfg, Initial(now), steps) && PeeksSeeAll(cfg, Initial(now), steps)
    requires s == End(cfg, Initial(now), steps) && LeasesEndBy(s.rows, limit)
    requires Runs(cfg, OnCrash(s), before) && NoCrash(before) && PeeksSeeAll(cfg, OnCrash(s), before)
    requires var s1 := End(cfg, OnCrash(s), before);
             && Wf(s1.ready) && Enabled(cfg, s1, Resume(key, peeked)) && s1.tasks[key].AlarmDue? && s1.now > limit
             && var s2 := OnResume(cfg, s1, key, peeked);
                Runs(cfg, s2, after) && NoCrash(after) && PeeksSeeAll(cfg, s2, after)
    ensures Accounted(End(cfg, OnResume(cfg, End(cfg, OnCrash(s), before), key, peeked), after))
  {
    ReachableStatesAreDurable(cfg, now, steps);
    ReachableStatesAreSound(cfg, now, steps);
    CrashRecovery(cfg, s, before, key, peeked, after, limit);
  }

  /** No reachable table has two rows with the same idempotency key. */
  lemma ReachableKeysDiffer(cfg: Config, now: int, steps: seq<Step>)
    requires Runs(cfg, Initial(now), steps)
    ensures KeysDiffer(End(cfg, Initial(now), steps).rows)
  {
    RunsKeepKeysDifferent(cfg, Initial(now), steps);
  }

  /** In every reachable table each row holds what its status says. */
  lemma ReachableRowsAreConsistent(cfg: Config, now: int, steps: seq<Step>)
    requires Runs(cfg, Initial(now), steps)
    ensures RowsConsistent(End(cfg, Initial(now), steps).rows)
  {
    RunsKeepRowsConsistent(cfg, Initial(now), steps);
  }
}
