/** The storage object and the scheduler's entry points that loop over it. */
module JobStore {
  import opened Collections
  import opened Options
  import opened JobTable
  import opened ReadyQueue
  import opened Scheduler
  import opened DispatcherClass

  // ---- what queries select -----------------------------------------------------------------

  /** `ORDER BY created_at ASC`. */
  predicate Older(a: Row, b: Row) {
    a.spec.createdAt <= b.spec.createdAt
  }

  /** `ORDER BY status DESC, created_at ASC`: queued rows come before leased ones. */
  predicate ClaimedBefore(a: Row, b: Row) {
    if (a.status == Queued) == (b.status == Queued) then Older(a, b) else a.status == Queued
  }

  ghost predicate Orders(before: (Row, Row) -> bool) {
    && (forall a, b :: before(a, b) || before(b, a))
    && (forall a, b, c :: before(a, b) && before(b, c) ==> before(a, c))
  }

  lemma OrdersOrder()
    ensures Orders(Older) && Orders(ClaimedBefore)
  {
  }

  /** The first `limit` rows of some in an order, each once. */
  ghost predicate Selects(rows: Table, ids: set<JobId>, before: (Row, Row) -> bool, limit: nat, chosen: seq<JobId>)
    requires ids <= rows.Keys
  {
    && (forall id :: id in chosen ==> id in ids)
    && (forall i, k :: 0 <= i < k < |chosen| ==>
          chosen[i] != chosen[k] && before(rows[chosen[i]], rows[chosen[k]]))
    && |chosen| == (if |ids| <= limit then |ids| else limit)
    && (forall id, c :: id in ids && id !in chosen && c in chosen ==> before(rows[c], rows[id]))
  }

  ghost predicate OldestFirst(rows: Table, ids: seq<JobId>) {
    forall i, k :: 0 <= i < k < |ids| ==>
      ids[i] in rows && ids[k] in rows && rows[ids[i]].spec.createdAt <= rows[ids[k]].spec.createdAt
  }

  /** Queued rows come first, and older ones before younger ones of the same status. */
  predicate Precedes(a: Row, b: Row) {
    && (a.status == Leased ==> b.status == Leased)
    && (a.status == b.status ==> a.spec.createdAt <= b.spec.createdAt)
  }

  /** The chosen rows are in that order, and precede all the others. */
  ghost predicate InLine(rows: Table, ids: set<JobId>, chosen: seq<JobId>)
    requires ids <= rows.Keys
  {
    && (forall id :: id in chosen ==> id in ids)
    && (forall i, k :: 0 <= i < k < |chosen| ==> Precedes(rows[chosen[i]], rows[chosen[k]]))
    && (forall id, c :: id in ids && id !in chosen && c in chosen ==> Precedes(rows[c], rows[id]))
  }

  /** Which rows may be claimed: queued ones and ones whose lease has expired, before their
      deadline. */
  lemma ClaimableIff(rows: Table, now: int, id: JobId)
    ensures id in ClaimableIds(rows, now) <==> Claimable(rows, id, now)
    ensures Claimable(rows, id, now) <==>
              && id in rows && now < rows[id].spec.deadlineMs
              && (rows[id].status == Queued
                  || (rows[id].status == Leased && rows[id].leaseExpiresMs.Some?
                      && rows[id].leaseExpiresMs.value < now))
  {
  }

  /** A claim without an id takes the rows that may be claimed in that order. */
  lemma SelectionIsInLine(rows: Table, now: int, limit: nat, chosen: seq<JobId>)
    requires Selects(rows, ClaimableIds(rows, now), ClaimedBefore, limit, chosen)
    ensures InLine(rows, ClaimableIds(rows, now), chosen)
  {
  }

  function QueuedOf(rows: Table, tenant: Option<TenantId>): set<JobId> {
    set id | id in rows && rows[id].status == Queued && (tenant.Some? ==> rows[id].spec.tenantId == tenant.value)
  }

  function ClaimableIds(rows: Table, now: int): set<JobId> {
    set id | id in rows && Claimable(rows, id, now)
  }

  function ActiveOf(rows: Table, t: TenantId): set<JobId> {
    set id | id in rows && Cancellable(rows, id) && rows[id].spec.tenantId == t
  }

  function Snapshots(rows: Table, ids: seq<JobId>): (jobs: seq<Job>)
    requires forall id :: id in ids ==> id in rows
    ensures |jobs| == |ids| && forall i :: 0 <= i < |ids| ==> jobs[i] == Snapshot(rows, ids[i])
  {
    seq(|ids|, i requires 0 <= i < |ids| => Snapshot(rows, ids[i]))
  }

  // ---- the store ----------------------------------------------------------------------------

  /** The same rows, and all but one of them unchanged. */
  ghost predicate OnlyRowChanged(before: Table, rows: Table, id: JobId) {
    rows.Keys == before.Keys && forall other :: other in rows && other != id ==> rows[other] == before[other]
  }

  /** Some row has the idempotency key of the job. */
  predicate TakesKey(rows: Table, spec: Spec) {
    exists id :: id in rows && rows[id].spec.idempotencyKey.Some? && rows[id].spec.idempotencyKey == spec.idempotencyKey
  }

  class DoStorageJobStore {
    var jobs: Table

    constructor ()
      ensures jobs == map[]
    {
      jobs := map[];
    }

    method Insert(id: JobId, spec: Spec) returns (outcome: Insertion)
      modifies this
      ensures outcome == InsertOutcome(old(jobs), id, spec) && jobs == Enqueue(old(jobs), id, spec)
      ensures outcome == Inserted ==>
                && id !in old(jobs) && jobs.Keys == old(jobs).Keys + {id}
                && jobs[id].status == Queued && jobs[id].spec == spec && jobs[id].retryCount == 0
                && forall other :: other in old(jobs) ==> jobs[other] == old(jobs)[other]
      ensures outcome != Inserted ==> jobs == old(jobs)
      ensures outcome == Inserted <==> id !in old(jobs) && !TakesKey(old(jobs), spec)
      ensures outcome == AlreadyPresent <==>
                (id in old(jobs) || TakesKey(old(jobs), spec)) && spec.idempotencyKey !in {None, Some(EMPTY_KEY)}
      ensures outcome == UniqueViolation <==>
                (id in old(jobs) || TakesKey(old(jobs), spec)) && spec.idempotencyKey in {None, Some(EMPTY_KEY)}
    {
      outcome := InsertOutcome(jobs, id, spec);
      if outcome == Inserted {
        jobs := jobs[id := FreshRow(spec)];
      }
    }

    /** The first of some rows in an order. */
    method First(ids: set<JobId>, before: (Row, Row) -> bool) returns (first: JobId)
      requires ids != {} && ids <= jobs.Keys && Orders(before)
      ensures first in ids && forall id :: id in ids ==> before(jobs[first], jobs[id])
    {
      first :| first in ids;
      var rest := ids - {first};
      while rest != {}
        invariant rest <= ids && first in ids
        invariant forall id :: id in ids - rest ==> before(jobs[first], jobs[id])
        decreases rest
      {
        var id :| id in rest;
        rest := rest - {id};
        if !before(jobs[first], jobs[id]) {
          first := id;
        }
      }
    }

    /** `SELECT id FROM jobs WHERE ... ORDER BY ... LIMIT ...`. */
    method Select(ids: set<JobId>, before: (Row, Row) -> bool, limit: nat) returns (chosen: seq<JobId>)
      requires ids <= jobs.Keys && Orders(before)
      ensures Selects(jobs, ids, before, limit, chosen)
    {
      var rest := ids;
      chosen := [];
      while |chosen| < limit && rest != {}
        invariant rest <= ids && |chosen| + |rest| == |ids| && |chosen| <= limit
        invariant forall id :: id in ids <==> id in rest || id in chosen
        invariant forall c :: c in chosen ==> c !in rest
        invariant forall i, k :: 0 <= i < k < |chosen| ==>
          chosen[i] != chosen[k] && before(jobs[chosen[i]], jobs[chosen[k]])
        invariant forall id, c :: id in rest && c in chosen ==> before(jobs[c], jobs[id])
        decreases |rest|
      {
        var id := First(rest, before);
        rest := rest - {id};
        chosen := chosen + [id];
      }
    }

    /** Select the candidates, by id or the first in order, then update each under its own
        guard. */
    method Lease(jobId: Option<JobId>, max: nat, worker: WorkerId, leaseMs: int, now: int)
      returns (claimed: seq<Job>, ghost ids: seq<JobId>)
      modifies this
      ensures forall id :: id in ids ==> id in old(jobs) && Claimable(old(jobs), id, now)
      ensures claimed == Snapshots(old(jobs), ids)
      ensures jobId.Some? ==> ids == if Claimable(old(jobs), jobId.value, now) then [jobId.value] else []
      ensures jobId.None? ==> Selects(old(jobs), ClaimableIds(old(jobs), now), ClaimedBefore, max, ids)
      ensures jobs.Keys == old(jobs).Keys
      ensures forall id :: id in jobs ==>
        jobs[id] == if id in ids then LeaseRow(old(jobs)[id], worker, now + leaseMs) else old(jobs)[id]
      ensures forall id :: id in ids ==>
        && jobs[id].status == Leased && jobs[id].leaseOwner == Some(worker)
        && jobs[id].leaseExpiresMs == Some(now + leaseMs)
        && jobs[id].spec == old(jobs)[id].spec && jobs[id].retryCount == old(jobs)[id].retryCount
    {
      ghost var before := jobs;
      var candidates;
      if jobId.Some? {
        candidates := if Claimable(jobs, jobId.value, now) then [jobId.value] else [];
      } else {
        OrdersOrder();
        candidates := Select(ClaimableIds(jobs, now), ClaimedBefore, max);
      }
      ids, claimed := candidates, [];
      for i := 0 to |candidates|
        invariant jobs.Keys == before.Keys && claimed == Snapshots(before, candidates[..i])
        invariant forall id :: id in jobs ==>
          jobs[id] == if id in candidates[..i] then LeaseRow(before[id], worker, now + leaseMs) else before[id]
      {
        var row := candidates[i];
        assert row !in candidates[..i];
        assert candidates[..i + 1] == candidates[..i] + [row];
        if jobs[row].status == Queued || (jobs[row].status == Leased && LeaseExpired(jobs[row], now)) {
          claimed := claimed + [Snapshot(jobs, row)];
          jobs := jobs[row := LeaseRow(jobs[row], worker, now + leaseMs)];
        }
      }
      assert candidates[..|candidates|] == candidates;
    }

    method Acknowledge(id: JobId, worker: WorkerId, value: Value, expires: int) returns (ok: bool)
      modifies this
      ensures jobs == Ack(old(jobs), id, worker, value, expires) && ok == Ackable(old(jobs), id, worker)
      ensures ok ==> OnlyRowChanged(old(jobs), jobs, id) && jobs[id].status == Done
      ensures ok ==> forall now :: now <= expires ==> Result(jobs, id, now) == Returned(Some(value))
      ensures !ok ==> jobs == old(jobs)
    {
      ok := Ackable(jobs, id, worker);
      if ok {
        jobs := jobs[id := jobs[id].(status := Done, result := Some(value), resultExpiresMs := Some(expires))];
      }
    }

    method ReportFailure(id: JobId, worker: WorkerId, error: Failure) returns (next: Status)
      modifies this
      ensures jobs == Fail(old(jobs), id, worker, error) && next == FailStatus(old(jobs), id, worker)
      ensures next == Leased ==> jobs == old(jobs) && !Ackable(old(jobs), id, worker)
      ensures next != Leased ==>
                && OnlyRowChanged(old(jobs), jobs, id) && jobs[id].status == next
                && jobs[id].retryCount == old(jobs)[id].retryCount + 1
                && jobs[id].leaseOwner == None && jobs[id].leaseExpiresMs == None
                && (next == Queued <==> jobs[id].retryCount < jobs[id].spec.retry.max)
                && (next == Failed ==> forall now :: Result(jobs, id, now) == Errored(Some(error)))
    {
      if !Ackable(jobs, id, worker) {
        return Leased;
      }
      jobs := jobs[id := FailedRow(jobs[id], error)];
      next := jobs[id].status;
    }

    method FailBeforeClaim(id: JobId, error: Failure) returns (ok: bool)
      modifies this
      ensures jobs == FailQueued(old(jobs), id, error) && ok == (id in QueuedIds(old(jobs)))
      ensures ok ==> OnlyRowChanged(old(jobs), jobs, id) && jobs[id].status == Failed
      ensures ok ==> forall now :: Result(jobs, id, now) == Errored(Some(error))
      ensures !ok ==> jobs == old(jobs)
    {
      ok := id in jobs && jobs[id].status == Queued;
      if ok {
        jobs := jobs[id := jobs[id].(status := Failed, error := Some(error), retryCount := jobs[id].spec.retry.max)];
      }
    }

    method CancelJob(id: JobId) returns (ok: bool)
      modifies this
      ensures jobs == Cancel(old(jobs), id) && (ok <==> id in old(jobs) && !Terminal(old(jobs)[id].status))
      ensures ok ==> OnlyRowChanged(old(jobs), jobs, id) && jobs[id].status == Cancelled
      ensures !ok ==> jobs == old(jobs)
    {
      ok := Cancellable(jobs, id);
      if ok {
        jobs := jobs[id := jobs[id].(status := Cancelled)];
      }
    }

    method Sweep(now: int) returns (swept: nat)
      modifies this
      ensures jobs == SweepExpired(old(jobs), now) && swept + |jobs| == |old(jobs)|
      ensures forall id :: id in old(jobs) && id !in jobs <==> id in old(jobs) && ResultExpired(old(jobs)[id], now)
    {
      var kept := SweepExpired(jobs, now);
      var gone := jobs.Keys - kept.Keys;
      assert kept.Keys + gone == jobs.Keys;
      swept := |gone|;
      jobs := kept;
    }

    method Reclaim(now: int) returns (reclaimed: nat)
      modifies this
      ensures jobs == ReclaimExpiredLeases(old(jobs), now)
      ensures reclaimed == |set id | id in old(jobs) && Reclaimable(old(jobs)[id], now)|
      ensures reclaimed == 0 <==> jobs == old(jobs)
      ensures jobs.Keys == old(jobs).Keys
      ensures forall id :: id in jobs ==>
        jobs[id] == if old(jobs)[id].status == Leased && LeaseExpired(old(jobs)[id], now)
                    then old(jobs)[id].(status := Queued, leaseOwner := None, leaseExpiresMs := None) else old(jobs)[id]
    {
      var expired := set id | id in jobs && Reclaimable(jobs[id], now);
      reclaimed := |expired|;
      assert forall id :: id in jobs && Reclaimable(jobs[id], now) ==> id in expired;
      ghost var before := jobs;
      jobs := ReclaimExpiredLeases(jobs, now);
      if reclaimed == 0 {
        assert jobs == before;
      } else {
        var id :| id in expired;
        assert jobs[id] != before[id];
      }
    }

    method Peek(tenant: Option<TenantId>, limit: nat) returns (peeked: seq<Job>, ghost ids: seq<JobId>)
      ensures Selects(jobs, QueuedOf(jobs, tenant), Older, limit, ids) && peeked == Snapshots(jobs, ids)
      ensures OldestFirst(jobs, ids)
      ensures forall id :: id in ids ==> jobs[id].status == Queued && tenant in {None, Some(jobs[id].spec.tenantId)}
      ensures tenant.None? ==> IsPeekOf(jobs, limit, peeked)
    {
      OrdersOrder();
      var chosen := Select(QueuedOf(jobs, tenant), Older, limit);
      ids, peeked := chosen, Snapshots(jobs, chosen);
      if tenant.None? {
        assert QueuedOf(jobs, tenant) == QueuedIds(jobs);
        SelectionIsPeek(jobs, limit, chosen);
      }
    }

    method ListActiveByTenant(t: TenantId) returns (ids: seq<JobId>)
      ensures ListsActive(jobs, t, ids) && OldestFirst(jobs, ids)
      ensures forall id :: id in ids <==> id in jobs && !Terminal(jobs[id].status) && jobs[id].spec.tenantId == t
    {
      OrdersOrder();
      ids := Select(ActiveOf(jobs, t), Older, |ActiveOf(jobs, t)|);
      DistinctCount(ids);
      SubsetOfSameSize(Elements(ids), ActiveOf(jobs, t));
      assert forall id :: id in ids <==> id in Elements(ids);
    }
  }

  lemma SelectionIsPeek(rows: Table, limit: nat, chosen: seq<JobId>)
    requires Selects(rows, QueuedIds(rows), Older, limit, chosen)
    ensures IsPeekOf(rows, limit, Snapshots(rows, chosen))
  {
    var peeked := Snapshots(rows, chosen);
    forall j | j in peeked ensures j.id in chosen && j == Snapshot(rows, j.id) {
    }
    forall id | id in chosen ensures Snapshot(rows, id) in peeked {
      var i :| 0 <= i < |chosen| && chosen[i] == id;
      assert peeked[i] == Snapshot(rows, id);
    }
  }

  class SchedulerObject {
    const store: DoStorageJobStore
    const dispatcher: Dispatcher

    constructor (store: DoStorageJobStore, dispatcher: Dispatcher)
      ensures this.store == store && this.dispatcher == dispatcher
    {
      this.store := store;
      this.dispatcher := dispatcher;
    }

    method CancelOne(id: JobId) returns (ok: bool)
      requires dispatcher.Valid()
      modifies store, dispatcher`ready, dispatcher`tenantOrder
      ensures dispatcher.Valid() && store.jobs == Cancel(old(store.jobs), id)
      ensures ok <==> id in old(store.jobs) && !Terminal(old(store.jobs)[id].status)
      ensures dispatcher.Queues() == if ok then Drop(old(dispatcher.Queues()), id) else old(dispatcher.Queues())
    {
      ok := store.CancelJob(id);
      if ok {
        dispatcher.DropFromReady(id);
      }
    }

    /** Every active job of the tenant is cancelled and counted once, every other row
        is untouched, and the tenant's bucket is dropped. */
    method CancelByTenant(t: TenantId) returns (count: nat)
      requires dispatcher.Valid()
      modifies store, dispatcher`ready, dispatcher`tenantOrder
      ensures dispatcher.Valid() && dispatcher.Queues() == RemoveTenant(old(dispatcher.Queues()), t)
      ensures count == |ActiveOf(old(store.jobs), t)|
      ensures store.jobs.Keys == old(store.jobs).Keys
      ensures forall id :: id in old(store.jobs) ==>
        store.jobs[id] ==
        if old(store.jobs)[id].spec.tenantId == t && !Terminal(old(store.jobs)[id].status)
        then old(store.jobs)[id].(status := Cancelled) else old(store.jobs)[id]
    {
      ghost var before := store.jobs;
      var active := store.ListActiveByTenant(t);
      count := 0;
      for i := 0 to |active|
        invariant count == i && dispatcher.Queues() == old(dispatcher.Queues()) && dispatcher.Valid()
        invariant CancelAll(store.jobs, active[i..]) == CancelAll(before, active)
        invariant forall k :: i <= k < |active| ==> Cancellable(store.jobs, active[k])
      {
        assert active[i..][0] == active[i] && active[i..][1..] == active[i + 1..];
        var ok := store.CancelJob(active[i]);
        if ok {
          count := count + 1;
        }
      }
      CancelAllRows(before, active);
      DistinctCount(active);
      assert Elements(active) == ActiveOf(before, t);
      dispatcher.ClearTenant(t);
    }
  }
}
