/** The scheduler's `jobs` table and its guarded updates.

    Every SQL statement of `DoStorageJobStore` is a function on the table, with
    the same WHERE clause and the same assigned columns. Ids, owners, values and
    keys are only ever compared for equality, so natural numbers stand for them.
    SQL's NULL is `None`, and a comparison with NULL is never true. */
module JobTable {
  import opened Options
  import opened Powers

  type JobId = nat
  type TenantId = nat
  type WorkerId = nat
  type Value = nat

  datatype Status = Queued | Leased | Done | Failed | Cancelled

  datatype Backoff = Exponential | Linear | Constant

  datatype RetryPolicy = RetryPolicy(max: nat, backoff: Backoff, baseMs: int)

  datatype Failure = DeadlineExceeded(deadlineMs: int) | RunFailure(message: string)

  /** The columns a job carries from `enqueue` to the end of its life. */
  datatype Spec = Spec(
    tenantId: TenantId,
    createdAt: int,
    deadlineMs: int,
    retry: RetryPolicy,
    idempotencyKey: Option<nat>)

  datatype Row = Row(
    spec: Spec,
    retryCount: nat,
    status: Status,
    leaseOwner: Option<WorkerId>,
    leaseExpiresMs: Option<int>,
    result: Option<Value>,
    resultExpiresMs: Option<int>,
    error: Option<Failure>)

  type Table = map<JobId, Row>

  predicate Terminal(status: Status) {
    status == Done || status == Failed || status == Cancelled
  }

  predicate LeaseExpired(row: Row, now: int) {
    row.leaseExpiresMs.Some? && row.leaseExpiresMs.value < now
  }

  predicate HeldBy(row: Row, worker: WorkerId) {
    row.status == Leased && row.leaseOwner == Some(worker)
  }

  // ---- the statements ----------------------------------------------------

  function FreshRow(spec: Spec): Row {
    Row(spec, 0, Queued, None, None, None, None, None)
  }

  datatype Insertion = Inserted | AlreadyPresent | UniqueViolation

  /** The empty text: the UNIQUE column keeps it like any other key, but the test after a
      violation takes it for none. */
  const EMPTY_KEY := 0

  /** What the INSERT does: the primary key and the idempotency key are both
      UNIQUE, and a violation is swallowed when the job carries a key. */
  function InsertOutcome(jobs: Table, id: JobId, spec: Spec): Insertion {
    if id in jobs || (spec.idempotencyKey.Some? &&
                      exists other :: other in jobs && jobs[other].spec.idempotencyKey == spec.idempotencyKey)
    then if spec.idempotencyKey.Some? && spec.idempotencyKey.value != EMPTY_KEY then AlreadyPresent else UniqueViolation
    else Inserted
  }

  function Enqueue(jobs: Table, id: JobId, spec: Spec): Table {
    if InsertOutcome(jobs, id, spec) == Inserted then jobs[id := FreshRow(spec)] else jobs
  }

  predicate Claimable(jobs: Table, id: JobId, now: int) {
    && id in jobs
    && (jobs[id].status == Queued || (jobs[id].status == Leased && LeaseExpired(jobs[id], now)))
    && jobs[id].spec.deadlineMs > now
  }

  function LeaseRow(row: Row, worker: WorkerId, expires: int): Row {
    row.(status := Leased, leaseOwner := Some(worker), leaseExpiresMs := Some(expires))
  }

  function Claim(jobs: Table, id: JobId, worker: WorkerId, leaseMs: int, now: int): Table {
    if Claimable(jobs, id, now) then jobs[id := LeaseRow(jobs[id], worker, now + leaseMs)] else jobs
  }

  predicate Ackable(jobs: Table, id: JobId, worker: WorkerId) {
    id in jobs && HeldBy(jobs[id], worker)
  }

  function Ack(jobs: Table, id: JobId, worker: WorkerId, value: Value, expires: int): Table {
    if Ackable(jobs, id, worker)
    then jobs[id := jobs[id].(status := Done, result := Some(value), resultExpiresMs := Some(expires))]
    else jobs
  }

  function FailedRow(row: Row, error: Failure): Row {
    row.(status := if row.retryCount + 1 >= row.spec.retry.max then Failed else Queued,
         retryCount := row.retryCount + 1,
         leaseOwner := None,
         leaseExpiresMs := None,
         error := Some(error))
  }

  function Fail(jobs: Table, id: JobId, worker: WorkerId, error: Failure): Table {
    if Ackable(jobs, id, worker) then jobs[id := FailedRow(jobs[id], error)] else jobs
  }

  /** The status `fail` reports; `Leased` stands for "the lease was lost". */
  function FailStatus(jobs: Table, id: JobId, worker: WorkerId): Status {
    if !Ackable(jobs, id, worker) then Leased
    else if jobs[id].retryCount + 1 >= jobs[id].spec.retry.max then Failed
    else Queued
  }

  function FailQueued(jobs: Table, id: JobId, error: Failure): Table {
    if id in jobs && jobs[id].status == Queued
    then jobs[id := jobs[id].(status := Failed, error := Some(error), retryCount := jobs[id].spec.retry.max)]
    else jobs
  }

  predicate Cancellable(jobs: Table, id: JobId) {
    id in jobs && jobs[id].status in {Queued, Leased}
  }

  function Cancel(jobs: Table, id: JobId): Table {
    if Cancellable(jobs, id) then jobs[id := jobs[id].(status := Cancelled)] else jobs
  }

  /** `cancelByTenant`: one cancellation after the other. */
  function CancelAll(jobs: Table, ids: seq<JobId>): Table
    decreases |ids|
  {
    if ids == [] then jobs else CancelAll(Cancel(jobs, ids[0]), ids[1..])
  }

  /** The active jobs of a tenant, each listed once. */
  ghost predicate ListsActive(jobs: Table, t: TenantId, ids: seq<JobId>) {
    && (forall i, k :: 0 <= i < k < |ids| ==> ids[i] != ids[k])
    && (forall id :: id in ids <==> Cancellable(jobs, id) && jobs[id].spec.tenantId == t)
  }

  predicate ResultExpired(row: Row, now: int) {
    row.status == Done && row.resultExpiresMs.Some? && row.resultExpiresMs.value < now
  }

  function SweepExpired(jobs: Table, now: int): Table {
    map id | id in jobs && !ResultExpired(jobs[id], now) :: jobs[id]
  }

  predicate Reclaimable(row: Row, now: int) {
    row.status == Leased && LeaseExpired(row, now)
  }

  function ReclaimExpiredLeases(jobs: Table, now: int): Table {
    map id | id in jobs ::
      if Reclaimable(jobs[id], now)
      then jobs[id].(status := Queued, leaseOwner := None, leaseExpiresMs := None)
      else jobs[id]
  }

  function QueuedIds(jobs: Table): set<JobId> {
    set id | id in jobs && jobs[id].status == Queued
  }

  lemma {:induction false} CancelAllRows(jobs: Table, ids: seq<JobId>)
    ensures CancelAll(jobs, ids) ==
            map id | id in jobs :: if id in ids then Cancel(jobs, id)[id] else jobs[id]
    decreases |ids|
  {
    if ids == [] {
      assert jobs == map id | id in jobs :: jobs[id];
    } else {
      CancelAllRows(Cancel(jobs, ids[0]), ids[1..]);
      assert forall id :: id in ids <==> id == ids[0] || id in ids[1..];
      var next := Cancel(jobs, ids[0]);
      assert forall id :: id in jobs ==>
        (if id in ids[1..] then Cancel(next, id)[id] else next[id]) ==
        (if id in ids then Cancel(jobs, id)[id] else jobs[id]);
    }
  }

  // ---- what callers see ----------------------------------------------------

  datatype Answer =
    | NotFound
    | Pending(status: Status)
    | ResultGone
    | Returned(value: Option<Value>)
    | Errored(error: Option<Failure>)

  /** What `result` answers: a result is served until its time to live is over. */
  function Result(jobs: Table, id: JobId, now: int): Answer {
    if id !in jobs then NotFound
    else
      match jobs[id].status
      case Done =>
        if jobs[id].resultExpiresMs.Some? && jobs[id].resultExpiresMs.value != 0 && jobs[id].resultExpiresMs.value < now
        then ResultGone else Returned(jobs[id].result)
      case Failed => Errored(jobs[id].error)
      case other => Pending(other)
  }

  /** A done job's value is answered, or refused for good once its time to live is over. */
  lemma ResultIsServedIff(jobs: Table, id: JobId, now: int)
    requires id in jobs && jobs[id].status == Done
    ensures Result(jobs, id, now) == ResultGone <==>
              jobs[id].resultExpiresMs !in {None, Some(0)} && jobs[id].resultExpiresMs.value < now
    ensures Result(jobs, id, now) != ResultGone ==> Result(jobs, id, now) == Returned(jobs[id].result)
  {
  }

  // ---- retry delay ---------------------------------------------------------

  const RETRY_MAX_DELAY_MS := 60_000

  /** The wait before attempt `retryCount + 1`. Only `Exponential` grows: the code
      gives `Linear` the same factor as `Constant`. */
  function RetryDelay(retry: RetryPolicy, retryCount: nat): int {
    var factor := if retry.backoff == Exponential then Pow2(retryCount) else 1;
    if retry.baseMs * factor < RETRY_MAX_DELAY_MS then retry.baseMs * factor else RETRY_MAX_DELAY_MS
  }

  lemma {:induction false} RetryDelayNeverShrinks(retry: RetryPolicy, m: nat, n: nat)
    requires retry.baseMs >= 0 && m <= n
    ensures 0 <= RetryDelay(retry, m) <= RetryDelay(retry, n) <= RETRY_MAX_DELAY_MS
    ensures retry.backoff != Exponential ==> RetryDelay(retry, m) == RetryDelay(retry, n)
    decreases n - m
  {
    Pow2Scales(retry.baseMs, m);
    if m < n {
      RetryDelayNeverShrinks(retry, m + 1, n);
    }
  }

  function AtMost(ms: int, limit: int): int {
    if ms < limit then ms else limit
  }

  /** The first wait is the base, and each further one twice the one before, up to 60 seconds;
      with any curve but the exponential one all waits are the first. */
  lemma RetryDelayDoubles(retry: RetryPolicy, n: nat)
    ensures RetryDelay(retry, 0) == AtMost(retry.baseMs, 60_000)
    ensures RetryDelay(retry, n + 1) ==
            if retry.backoff == Exponential then AtMost(2 * RetryDelay(retry, n), 60_000) else RetryDelay(retry, 0)
  {
    assert Pow2(0) == 1 && Pow2(n + 1) == 2 * Pow2(n);
    assert retry.baseMs * Pow2(n + 1) == 2 * (retry.baseMs * Pow2(n));
  }

  lemma Pow2Scales(base: int, n: nat)
    requires base >= 0
    ensures 0 <= base * Pow2(n) <= base * Pow2(n + 1)
  {
    assert base * Pow2(n + 1) == 2 * (base * Pow2(n));
    assert Pow2(n) >= 0;
  }
}
