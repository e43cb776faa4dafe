/** What a cancellation does to the table and to the ready set, what the last stretch of an
    alarm does, and when a run that has settled starts the loop. */
module SchedulerContinuations {
  import opened JobTable
  import opened Options
  import opened ReadyQueue
  import opened Scheduler

  predicate IsLive(rows: Table, id: JobId) {
    id in rows && !Terminal(rows[id].status)
  }

  /** Cancelling a tenant leaves it neither live rows nor ready jobs, and leaves everything of
      the other tenants alone. */
  lemma TenantIsCancelled(cfg: Config, s: State, t: TenantId, active: seq<JobId>)
    requires Wf(s.ready) && Enabled(cfg, s, CancelTenantCall(t, active))
    ensures var s' := Do(cfg, s, CancelTenantCall(t, active));
            && s'.rows.Keys == s.rows.Keys
            && (forall id :: id in s.rows ==>
                  s'.rows[id] == if IsLive(s.rows, id) && s.rows[id].spec.tenantId == t
                                 then s.rows[id].(status := Cancelled) else s.rows[id])
            && t !in s'.ready.order && Queue(s'.ready, t) == []
            && forall u :: u != t ==> Queue(s'.ready, u) == Queue(s.ready, u)
  {
    CancelAllRows(s.rows, active);
    RemoveTenantWf(s.ready, t);
  }

  /** Cancelling one job: a live row is cancelled and its continuation is on the way, and
      anything else is left alone. */
  lemma JobIsCancelled(cfg: Config, s: State, key: nat, id: JobId)
    requires Wf(s.ready) && Enabled(cfg, s, CancelCall(key, id))
    ensures Do(cfg, s, CancelCall(key, id)) ==
            if IsLive(s.rows, id)
            then s.(rows := s.rows[id := s.rows[id].(status := Cancelled)], tasks := s.tasks[key := CancelStored(id)])
            else s
  {
  }

  /** `after` lacks one entry of the job, at position `i` of the bucket of `t`. */
  predicate OneEntryLess(before: Ready, after: Ready, id: JobId, t: TenantId, i: nat) {
    && i < |Queue(before, t)| && Queue(before, t)[i].id == id
    && Queue(after, t) == Queue(before, t)[..i] + Queue(before, t)[i + 1..]
  }

  ghost predicate OtherBucketsStay(before: Ready, after: Ready, t: TenantId) {
    forall u :: u != t ==> Queue(after, u) == Queue(before, u)
  }

  ghost predicate LosesOneEntry(before: Ready, after: Ready, id: JobId) {
    exists t, i: nat :: OneEntryLess(before, after, id, t, i) && OtherBucketsStay(before, after, t)
  }

  lemma NothingToDrop(r: Ready, id: JobId)
    requires Wf(r) && Holder(r.queues, r.order, id).None?
    ensures !Holds(r, id) && Drop(r, id) == r
  {
    forall j | Contains(r, j) ensures j.id != id {
      var t := j.spec.tenantId;
      assert t in r.order && IndexOf(r.queues[t], id) == |r.queues[t]|;
    }
  }

  lemma OneIsDropped(r: Ready, id: JobId, t: TenantId)
    requires Wf(r) && Holder(r.queues, r.order, id) == Some(t)
    ensures Holds(r, id) && LosesOneEntry(r, Drop(r, id), id)
  {
    var q := r.queues[t];
    var i := IndexOf(q, id);
    assert q[i] in q && Contains(r, q[i]);
    forall j | j in RemoveAt(q, i) ensures j.spec.tenantId == t {
      assert j in q;
    }
    SetQueueWf(r, t, RemoveAt(q, i));
    assert OneEntryLess(r, Drop(r, id), id, t, i) && OtherBucketsStay(r, Drop(r, id), t);
  }

  /** That continuation takes one entry of the job out of the ready set, if there is one. */
  lemma CancelledJobIsDropped(cfg: Config, s: State, key: nat, id: JobId, peeked: seq<Job>)
    requires Wf(s.ready) && key in s.tasks && s.tasks[key] == CancelStored(id)
    ensures var s' := OnResume(cfg, s, key, peeked);
            && s' == s.(ready := s'.ready, tasks := s.tasks - {key})
            && if Holds(s.ready, id) then LosesOneEntry(s.ready, s'.ready, id) else s'.ready == s.ready
  {
    match Holder(s.ready.queues, s.ready.order, id)
    case None => NothingToDrop(s.ready, id);
    case Some(t) => OneIsDropped(s.ready, id, t);
  }

  /** An alarm ends with another rebuild exactly as long as fewer jobs are ready or running
      than there are slots; otherwise it only starts the loop. */
  lemma BackstopRebuildsIff(cfg: Config, s: State, key: nat, peeked: seq<Job>)
    requires Wf(s.ready) && key in s.tasks && s.tasks[key] == AlarmSwept
    ensures var s' := OnResume(cfg, s, key, peeked);
            if Total(s.ready.queues, s.ready.order) + |s.running| < cfg.inFlightLimit
            then s' == s.(ready := EMPTY, tasks := s.tasks[key := AlarmBackstop(peeked)])
            else !s'.loop.Down? && s' == s.(loop := s'.loop, tasks := s.tasks - {key})
  {
    assert AfterAwait(cfg, s, AlarmSwept, peeked) ==
           if Saturated(cfg, s) then Outcome(Kick(s), None)
           else Outcome(s.(ready := EMPTY), Some(AlarmBackstop(peeked)));
  }

  /** A run that has settled leaves the running map, and it starts the loop exactly if the loop
      is down, some job is ready and a slot is free without it. */
  lemma SettlingKicksIff(cfg: Config, s: State, key: nat, job: Job, retry: Option<Job>, peeked: seq<Job>)
    requires Wf(s.ready) && key in s.tasks && s.tasks[key] == Settling(job, retry)
    ensures var s' := OnResume(cfg, s, key, peeked);
            && s'.running == s.running - {job.id} && s'.rows == s.rows && s'.ready == s.ready
            && (s'.loop != s.loop <==> s.loop == Down && s.ready.order != [] && |s'.running| < cfg.inFlightLimit)
            && (s'.loop != s.loop ==> s'.loop == AtHead)
            && s'.tasks == if retry.Some? then s.tasks[key := RetryTimer(retry.value)] else s.tasks - {key}
  {
    var o := AfterSettle(cfg, s, job, retry);
    assert AfterAwait(cfg, s, Settling(job, retry), peeked) == o;
  }
}
