/** What every history of table updates keeps, whoever issues them and in
    whatever order: terminal rows are final, a lease excludes other claims, a
    lost lease makes its owner harmless, and retries are accounted for. */
module JobHistories {
  import opened Options
  import opened JobTable

  datatype Op =
    | EnqueueOp(id: JobId, spec: Spec)
    | ClaimOp(id: JobId, worker: WorkerId, leaseMs: int, now: int)
    | AckOp(id: JobId, worker: WorkerId, value: Value, expires: int)
    | FailOp(id: JobId, worker: WorkerId, error: Failure)
    | FailQueuedOp(id: JobId, error: Failure)
    | CancelOp(id: JobId)
    | SweepOp(now: int)
    | ReclaimOp(now: int)

  function Apply(jobs: Table, op: Op): Table {
    match op
    case EnqueueOp(id, spec) => Enqueue(jobs, id, spec)
    case ClaimOp(id, worker, leaseMs, now) => Claim(jobs, id, worker, leaseMs, now)
    case AckOp(id, worker, value, expires) => Ack(jobs, id, worker, value, expires)
    case FailOp(id, worker, error) => Fail(jobs, id, worker, error)
    case FailQueuedOp(id, error) => FailQueued(jobs, id, error)
    case CancelOp(id) => Cancel(jobs, id)
    case SweepOp(now) => SweepExpired(jobs, now)
    case ReclaimOp(now) => ReclaimExpiredLeases(jobs, now)
  }

  function Run(jobs: Table, ops: seq<Op>): Table
    decreases |ops|
  {
    if ops == [] then jobs else Run(Apply(jobs, ops[0]), ops[1..])
  }

  /** How many updates of a history satisfy `counts` in the state they meet. */
  function Count(jobs: Table, ops: seq<Op>, counts: (Table, Op) -> bool): nat
    decreases |ops|
  {
    if ops == [] then 0
    else (if counts(jobs, ops[0]) then 1 else 0) + Count(Apply(jobs, ops[0]), ops[1..], counts)
  }

  /** Ids are never reused, so a history that follows a job never enqueues it. */
  ghost predicate NeverEnqueues(ops: seq<Op>, id: JobId) {
    forall op :: op in ops && op.EnqueueOp? ==> op.id != id
  }

  // ---- the guards, as counters ----------------------------------------------

  function AcceptedClaim(id: JobId): (Table, Op) -> bool {
    (jobs: Table, op: Op) => op.ClaimOp? && op.id == id && Claimable(jobs, id, op.now)
  }

  function AcceptedAck(id: JobId): (Table, Op) -> bool {
    (jobs: Table, op: Op) => op.AckOp? && op.id == id && Ackable(jobs, id, op.worker)
  }

  function AcceptedFail(id: JobId): (Table, Op) -> bool {
    (jobs: Table, op: Op) => op.FailOp? && op.id == id && Ackable(jobs, id, op.worker)
  }

  /** A fail that re-queues: the only one after which a retry timer is set. */
  function Requeue(id: JobId): (Table, Op) -> bool {
    (jobs: Table, op: Op) => op.FailOp? && op.id == id && FailStatus(jobs, id, op.worker) == Queued
  }

  /** An update that moves the row from a live status to a terminal one. */
  function Termination(id: JobId): (Table, Op) -> bool {
    (jobs: Table, op: Op) =>
      && id in jobs && !Terminal(jobs[id].status)
      && id in Apply(jobs, op) && Terminal(Apply(jobs, op)[id].status)
  }

  // ---- terminal rows ---------------------------------------------------------

  /** Some sweep of the history ran after the row's result TTL. */
  ghost predicate SweptAfterTtl(row: Row, ops: seq<Op>) {
    exists op :: op in ops && op.SweepOp? && ResultExpired(row, op.now)
  }

  /** A terminal row is never written again, and only a sweep past the TTL of a
      done row removes it. */
  lemma {:induction false} TerminalRowsAreFinal(jobs: Table, ops: seq<Op>, id: JobId)
    requires id in jobs && Terminal(jobs[id].status)
    requires NeverEnqueues(ops, id)
    ensures id in Run(jobs, ops) ==> Run(jobs, ops)[id] == jobs[id]
    ensures id !in Run(jobs, ops) ==> SweptAfterTtl(jobs[id], ops)
    ensures Count(jobs, ops, AcceptedClaim(id)) == 0
    ensures Count(jobs, ops, AcceptedAck(id)) == 0
    ensures Count(jobs, ops, AcceptedFail(id)) == 0
    ensures Count(jobs, ops, Termination(id)) == 0
    decreases |ops|
  {
    if ops != [] {
      assert ops[0] in ops;
      assert forall op :: op in ops[1..] ==> op in ops;
      if id in Apply(jobs, ops[0]) {
        TerminalRowsAreFinal(Apply(jobs, ops[0]), ops[1..], id);
      } else {
        AbsentRowsStayAbsent(Apply(jobs, ops[0]), ops[1..], id);
      }
    }
  }

  lemma {:induction false} AbsentRowsStayAbsent(jobs: Table, ops: seq<Op>, id: JobId)
    requires id !in jobs && NeverEnqueues(ops, id)
    ensures id !in Run(jobs, ops)
    ensures Count(jobs, ops, AcceptedClaim(id)) == 0
    ensures Count(jobs, ops, AcceptedAck(id)) == 0
    ensures Count(jobs, ops, AcceptedFail(id)) == 0
    ensures Count(jobs, ops, Termination(id)) == 0
    decreases |ops|
  {
    if ops != [] {
      assert ops[0] in ops;
      assert forall op :: op in ops[1..] ==> op in ops;
      AbsentRowsStayAbsent(Apply(jobs, ops[0]), ops[1..], id);
    }
  }

  /** Over a whole life a job ends at most once, and at most one ack is accepted. */
  lemma {:induction false} JobsEndAtMostOnce(jobs: Table, ops: seq<Op>, id: JobId)
    requires id in jobs && NeverEnqueues(ops, id)
    ensures Count(jobs, ops, Termination(id)) <= 1
    ensures Count(jobs, ops, AcceptedAck(id)) <= Count(jobs, ops, Termination(id)) || Terminal(jobs[id].status)
    ensures Count(jobs, ops, AcceptedAck(id)) <= 1
    decreases |ops|
  {
    if ops != [] {
      assert ops[0] in ops;
      assert forall op :: op in ops[1..] ==> op in ops;
      var next := Apply(jobs, ops[0]);
      if id !in next {
        AbsentRowsStayAbsent(next, ops[1..], id);
      } else if Terminal(next[id].status) {
        TerminalRowsAreFinal(next, ops[1..], id);
      } else {
        JobsEndAtMostOnce(next, ops[1..], id);
      }
    }
  }

  /** Once an ack is accepted, its value is what every caller gets until the time to
      live is over, whatever is tried on the job meanwhile. */
  lemma AckedResultIsServed(
    jobs: Table, id: JobId, worker: WorkerId, value: Value, expires: int, ops: seq<Op>, now: int)
    requires Ackable(jobs, id, worker)
    requires NeverEnqueues(ops, id) && NothingAfter(ops, expires) && now <= expires
    ensures Result(Run(Ack(jobs, id, worker, value, expires), ops), id, now) == Returned(Some(value))
  {
    TerminalRowsAreFinal(Ack(jobs, id, worker, value, expires), ops, id);
  }

  // ---- leases ------------------------------------------------------------------

  /** No clock reading of the history is later than `limit`. */
  ghost predicate NothingAfter(ops: seq<Op>, limit: int) {
    forall op :: op in ops && (op.ClaimOp? || op.SweepOp? || op.ReclaimOp?) ==> op.now <= limit
  }

  ghost predicate OwnerNeverFails(ops: seq<Op>, id: JobId, worker: WorkerId) {
    forall op :: op in ops && op.FailOp? && op.id == id ==> op.worker != worker
  }

  /** Until its lease expires, and unless its owner reports a failure, a claimed
      job cannot be claimed by anyone: the row keeps the owner and the expiry, or
      ends. */
  lemma {:induction false} LeaseExcludesOtherClaims(
    jobs: Table, ops: seq<Op>, id: JobId, worker: WorkerId, expires: int)
    requires id in jobs
    requires Terminal(jobs[id].status) || (HeldBy(jobs[id], worker) && jobs[id].leaseExpiresMs == Some(expires))
    requires NothingAfter(ops, expires) && OwnerNeverFails(ops, id, worker) && NeverEnqueues(ops, id)
    ensures Count(jobs, ops, AcceptedClaim(id)) == 0
    ensures id in Run(jobs, ops) ==>
              var row := Run(jobs, ops)[id];
              Terminal(row.status) || (HeldBy(row, worker) && row.leaseExpiresMs == Some(expires))
    decreases |ops|
  {
    if ops != [] {
      assert ops[0] in ops;
      assert forall op :: op in ops[1..] ==> op in ops;
      if id in Apply(jobs, ops[0]) {
        LeaseExcludesOtherClaims(Apply(jobs, ops[0]), ops[1..], id, worker, expires);
      } else {
        AbsentRowsStayAbsent(Apply(jobs, ops[0]), ops[1..], id);
      }
    }
  }

  /** `ops` without the acks and fails that `worker` issues for `id`. */
  function Without(ops: seq<Op>, id: JobId, worker: WorkerId): seq<Op> {
    if ops == [] then []
    else if (ops[0].AckOp? || ops[0].FailOp?) && ops[0].id == id && ops[0].worker == worker
    then Without(ops[1..], id, worker)
    else [ops[0]] + Without(ops[1..], id, worker)
  }

  /** A worker that no longer holds the lease is harmless: every ack and fail it
      still issues can be erased from the history without changing the outcome. */
  lemma {:induction false} StaleOwnersChangeNothing(jobs: Table, ops: seq<Op>, id: JobId, worker: WorkerId)
    requires id in jobs ==> !HeldBy(jobs[id], worker)
    requires forall op :: op in ops && op.ClaimOp? && op.id == id ==> op.worker != worker
    ensures Run(jobs, ops) == Run(jobs, Without(ops, id, worker))
    decreases |ops|
  {
    if ops != [] {
      assert ops[0] in ops;
      assert forall op :: op in ops[1..] ==> op in ops;
      StaleOwnersChangeNothing(Apply(jobs, ops[0]), ops[1..], id, worker);
    }
  }

  // ---- retries ------------------------------------------------------------------

  function MaxAttempts(retry: RetryPolicy): int {
    if retry.max < 1 then 1 else retry.max
  }

  /** A live row has attempts left, and its counter never exceeds them. */
  ghost predicate AttemptsLeft(row: Row) {
    row.retryCount < MaxAttempts(row.spec.retry)
  }

  lemma {:induction false} LiveRowsHaveAttemptsLeft(jobs: Table, ops: seq<Op>)
    requires forall id :: id in jobs && !Terminal(jobs[id].status) ==> AttemptsLeft(jobs[id])
    ensures forall id :: id in Run(jobs, ops) && !Terminal(Run(jobs, ops)[id].status) ==>
              AttemptsLeft(Run(jobs, ops)[id])
    decreases |ops|
  {
    if ops != [] {
      LiveRowsHaveAttemptsLeft(Apply(jobs, ops[0]), ops[1..]);
    }
  }

  /** A job fails at most `max(1, retry.max)` times and is re-queued at most once
      less; while it lives, its counter is exactly the number of failures. */
  lemma {:induction false} RetriesAreBounded(jobs: Table, ops: seq<Op>, id: JobId)
    requires id in jobs && !Terminal(jobs[id].status) && AttemptsLeft(jobs[id])
    requires NeverEnqueues(ops, id)
    ensures jobs[id].retryCount + Count(jobs, ops, AcceptedFail(id)) <= MaxAttempts(jobs[id].spec.retry)
    ensures jobs[id].retryCount + Count(jobs, ops, Requeue(id)) < MaxAttempts(jobs[id].spec.retry)
    ensures id in Run(jobs, ops) && !Terminal(Run(jobs, ops)[id].status) ==>
              && Run(jobs, ops)[id].retryCount == jobs[id].retryCount + Count(jobs, ops, AcceptedFail(id))
              && Count(jobs, ops, Requeue(id)) == Count(jobs, ops, AcceptedFail(id))
    decreases |ops|
  {
    if ops != [] {
      assert ops[0] in ops;
      assert forall op :: op in ops[1..] ==> op in ops;
      var next := Apply(jobs, ops[0]);
      if id in next && !Terminal(next[id].status) {
        RetriesAreBounded(next, ops[1..], id);
      } else {
        NoRequeueOnceDone(next, ops[1..], id);
      }
    }
  }

  lemma {:induction false} NoRequeueOnceDone(jobs: Table, ops: seq<Op>, id: JobId)
    requires id !in jobs || Terminal(jobs[id].status)
    requires NeverEnqueues(ops, id)
    ensures Count(jobs, ops, AcceptedFail(id)) == 0 && Count(jobs, ops, Requeue(id)) == 0
    ensures id in Run(jobs, ops) ==> Terminal(Run(jobs, ops)[id].status)
    decreases |ops|
  {
    if ops != [] {
      assert ops[0] in ops;
      assert forall op :: op in ops[1..] ==> op in ops;
      NoRequeueOnceDone(Apply(jobs, ops[0]), ops[1..], id);
    }
  }

  // ---- idempotency keys ------------------------------------------------------------

  /** No two rows share a key. */
  ghost predicate KeysDiffer(jobs: Table) {
    forall a, b :: a in jobs && b in jobs && a != b && jobs[a].spec.idempotencyKey.Some? ==>
      jobs[a].spec.idempotencyKey != jobs[b].spec.idempotencyKey
  }

  lemma OpKeepsSpecs(jobs: Table, op: Op)
    requires !op.EnqueueOp?
    ensures forall id :: id in Apply(jobs, op) ==> id in jobs && Apply(jobs, op)[id].spec == jobs[id].spec
  {
  }

  lemma OpKeepsKeysDifferent(jobs: Table, op: Op)
    requires KeysDiffer(jobs)
    ensures KeysDiffer(Apply(jobs, op))
  {
    if op.EnqueueOp? {
      assert Apply(jobs, op) == jobs ||
             (Apply(jobs, op) == jobs[op.id := FreshRow(op.spec)] &&
              forall id :: id in jobs && op.spec.idempotencyKey.Some? ==>
                jobs[id].spec.idempotencyKey != op.spec.idempotencyKey);
    } else {
      OpKeepsSpecs(jobs, op);
    }
  }

  /** Whatever is enqueued, in whatever order, no two rows ever share an idempotency key. */
  lemma {:induction false} KeysStayDifferent(jobs: Table, ops: seq<Op>)
    requires KeysDiffer(jobs)
    ensures KeysDiffer(Run(jobs, ops))
    decreases |ops|
  {
    if ops != [] {
      OpKeepsKeysDifferent(jobs, ops[0]);
      KeysStayDifferent(Apply(jobs, ops[0]), ops[1..]);
    }
  }

  // ---- what a row holds in each status -----------------------------------------------------

  /** A queued row has no lease and a leased one has; a done row has a value until a known
      time, a failed one an error, and no other row has a value. */
  predicate Consistent(row: Row) {
    match row.status
    case Queued => row.leaseOwner.None? && row.leaseExpiresMs.None? && row.result.None?
    case Leased => row.leaseOwner.Some? && row.leaseExpiresMs.Some? && row.result.None?
    case Done => row.result.Some? && row.resultExpiresMs.Some?
    case Failed => row.error.Some? && row.result.None?
    case Cancelled => row.result.None?
  }

  ghost predicate RowsConsistent(jobs: Table) {
    forall id :: id in jobs ==> Consistent(jobs[id])
  }

  lemma OpKeepsRowsConsistent(jobs: Table, op: Op)
    requires RowsConsistent(jobs)
    ensures RowsConsistent(Apply(jobs, op))
  {
  }

  lemma {:induction false} RowsStayConsistent(jobs: Table, ops: seq<Op>)
    requires RowsConsistent(jobs)
    ensures RowsConsistent(Run(jobs, ops))
    decreases |ops|
  {
    if ops != [] {
      OpKeepsRowsConsistent(jobs, ops[0]);
      RowsStayConsistent(Apply(jobs, ops[0]), ops[1..]);
    }
  }

  /** So an answer always has the value or the error it announces. */
  lemma AnswersAreWhole(jobs: Table, ops: seq<Op>, id: JobId, now: int)
    requires RowsConsistent(jobs)
    ensures Result(Run(jobs, ops), id, now) !in {Returned(None), Errored(None)}
  {
    RowsStayConsistent(jobs, ops);
  }

  // ---- expired results ---------------------------------------------------------------------

  /** The other half of `AckedResultIsServed`: past its expiry a stored value is refused, or
      its row has been swept. */
  lemma AckedResultIsRefused(jobs: Table, id: JobId, worker: WorkerId, value: Value, expires: int, ops: seq<Op>,
                             now: int)
    requires Ackable(jobs, id, worker) && NeverEnqueues(ops, id)
    requires expires != 0 && expires < now
    ensures Result(Run(Ack(jobs, id, worker, value, expires), ops), id, now) in {ResultGone, NotFound}
  {
    TerminalRowsAreFinal(Ack(jobs, id, worker, value, expires), ops, id);
  }
}
