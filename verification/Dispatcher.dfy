/** The dispatcher object: its fields are updated in place, one stretch of code
    between two awaits per method, and each method is tied to the step function the
    state machine takes. */
module DispatcherClass {
  import opened Options
  import opened JobTable
  import opened ReadyQueue
  import opened Scheduler

  lemma InFlightWithout(running: Running, id: JobId)
    requires id in running
    ensures forall t :: InFlight(running, t) == InFlight(running - {id}, t) + (if running[id] == t then 1 else 0)
  {
    forall t
      ensures InFlight(running, t) == InFlight(running - {id}, t) + (if running[id] == t then 1 else 0)
    {
      if running[id] == t {
        assert RunningOf(running, t) == RunningOf(running - {id}, t) + {id};
      } else {
        assert RunningOf(running, t) == RunningOf(running - {id}, t);
      }
    }
  }

  /** How many jobs of each tenant are running; absent tenants have none. */
  method CountInFlight(running: Running) returns (counts: map<TenantId, nat>)
    ensures forall t :: (if t in counts then counts[t] else 0) == InFlight(running, t)
  {
    counts := map[];
    var rest := running;
    while rest.Keys != {}
      invariant rest.Keys <= running.Keys
      invariant forall t :: (if t in counts then counts[t] else 0) + InFlight(rest, t) == InFlight(running, t)
      decreases |rest.Keys|
    {
      var id :| id in rest.Keys;
      var t := rest[id];
      InFlightWithout(rest, id);
      counts := counts[t := (if t in counts then counts[t] else 0) + 1];
      var smaller := rest - {id};
      assert smaller.Keys == rest.Keys - {id};
      rest := smaller;
    }
    assert rest == map[];
    assert forall t :: RunningOf(rest, t) == {};
  }

  /** The position of `id` in a bucket, or its length. */
  method FindJob(q: seq<Job>, id: JobId) returns (i: nat)
    ensures i == IndexOf(q, id)
  {
    i := 0;
    while i < |q| && q[i].id != id
      invariant i <= |q|
      invariant IndexOf(q, id) == i + IndexOf(q[i..], id)
    {
      assert q[i..][1..] == q[i + 1..];
      i := i + 1;
    }
    if i == |q| {
      assert q[i..] == [];
    }
  }

  lemma {:induction false} SpliceAt(order: seq<TenantId>, i: nat)
    requires i < |order| && forall k :: 0 <= k < i ==> order[k] != order[i]
    ensures Splice(order, order[i]) == order[..i] + order[i + 1..]
  {
    if i > 0 {
      SpliceAt(order[1..], i - 1);
      assert order[1..][..i - 1] == order[1..i] && order[1..][i..] == order[i + 1..];
      assert order[..i] == [order[0]] + order[1..i];
    }
  }

  lemma SpliceAbsent(order: seq<TenantId>, t: TenantId)
    requires t !in order
    ensures Splice(order, t) == order
  {
    if order != [] {
      SpliceAbsent(order[1..], t);
    }
  }

  /** The pull, once the tenants before position `i` are known to be at their cap. */
  lemma TakeAt(r: Ready, running: Running, cap: int, i: nat)
    requires Wf(r) && i < |r.order| && r.order[i] in r.queues && r.queues[r.order[i]] != []
    requires UnderCap(running, cap, r.order[i])
    requires forall k :: 0 <= k < i ==> !UnderCap(running, cap, r.order[k])
    ensures var q := r.queues[r.order[i]];
            Take(r, running, cap) == (SetQueue(Rotate(r, i + 1), r.order[i], q[1..]), Some(q[0]))
  {
    assert FirstUnderCap(r.order, running, cap) == i;
  }

  lemma TakeIsWf(r: Ready, running: Running, cap: int)
    requires Wf(r)
    ensures Wf(Take(r, running, cap).0)
  {
    TakeWf(r, running, cap);
  }

  /** The first tenant moves to the end. */
  function Next(r: Ready): Ready
    requires r.order != []
  {
    r.(order := r.order[1..] + [r.order[0]])
  }

  /** `i` tenants have moved to the end, one after the other. */
  function Rotated(r: Ready, i: nat): (rotated: Ready)
    requires r.order != []
    ensures |rotated.order| == |r.order|
  {
    if i == 0 then r else Next(Rotated(r, i - 1))
  }

  lemma RotateOnce(order: seq<TenantId>, i: nat)
    requires i < |order|
    ensures (order[i..] + order[..i])[0] == order[i]
    ensures (order[i..] + order[..i])[1..] + [order[i]] == order[i + 1..] + order[..i + 1]
  {
  }

  lemma {:induction false} RotatedIs(r: Ready, i: nat)
    requires i <= |r.order| && r.order != []
    ensures Rotated(r, i) == Rotate(r, i)
    ensures i < |r.order| ==> Rotated(r, i).order[0] == r.order[i]
  {
    if i == 0 {
      assert r.order[0..] + r.order[..0] == r.order;
    } else {
      RotatedIs(r, i - 1);
      RotateOnce(r.order, i - 1);
    }
    if i < |r.order| {
      RotateOnce(r.order, i);
    }
  }

  lemma RotatedHead(r: Ready, i: nat)
    requires i < |r.order|
    ensures Rotated(r, i).order[0] == r.order[i]
  {
    RotatedIs(r, i);
  }

  lemma RotatedAll(r: Ready)
    requires r.order != []
    ensures Rotated(r, |r.order|) == r
  {
    RotatedIs(r, |r.order|);
    assert r.order[|r.order|..] + r.order[..|r.order|] == r.order;
  }

  /** The first bucket, in tenant order, that has the job is the one it is dropped from. */
  lemma DropAt(r: Ready, id: JobId, i: nat, k: nat)
    requires Wf(r) && i < |r.order| && r.order[i] in r.queues
    requires var q := r.queues[r.order[i]]; k == IndexOf(q, id) < |q|
    requires Holder(r.queues, r.order, id) == Holder(r.queues, r.order[i..], id)
    ensures var q := r.queues[r.order[i]];
            Drop(r, id) == SetQueue(r, r.order[i], q[..k] + q[k + 1..])
  {
    HolderIsFirst(r.queues, r.order[i..], id);
  }

  lemma HolderIsFirst(queues: map<TenantId, seq<Job>>, order: seq<TenantId>, id: JobId)
    requires forall t :: t in order ==> t in queues
    requires order != [] && IndexOf(queues[order[0]], id) < |queues[order[0]]|
    ensures Holder(queues, order, id) == Some(order[0])
  {
  }

  /** The first `i` tenants of an order are at their cap. */
  predicate AtCap(order: seq<TenantId>, running: Running, cap: int, i: nat)
    requires i <= |order|
  {
    i == 0 || (AtCap(order, running, cap, i - 1) && !UnderCap(running, cap, order[i - 1]))
  }

  lemma {:induction false} AllAtCap(order: seq<TenantId>, running: Running, cap: int, i: nat)
    requires i <= |order| && AtCap(order, running, cap, i)
    ensures forall k :: 0 <= k < i ==> !UnderCap(running, cap, order[k])
  {
    if i > 0 {
      AllAtCap(order, running, cap, i - 1);
    }
  }

  lemma TakeNothing(r: Ready, running: Running, cap: int)
    requires Wf(r) && AtCap(r.order, running, cap, |r.order|)
    ensures Take(r, running, cap) == (r, None) && (r.order != [] ==> Rotated(r, |r.order|) == r)
  {
    AllAtCap(r.order, running, cap, |r.order|);
    if r.order != [] {
      RotatedAll(r);
    }
  }

  class Dispatcher {
    var ready: map<TenantId, seq<Job>>
    var tenantOrder: seq<TenantId>
    var running: Running
    var config: Config
    var loopRunning: bool

    function Queues(): Ready
      reads this
    {
      Ready(ready, tenantOrder)
    }

    ghost predicate Valid()
      reads this
    {
      Wf(Queues())
    }

    constructor (config: Config)
      ensures Valid() && Queues() == EMPTY && running == map[] && !loopRunning && this.config == config
    {
      this.config := config;
      ready, tenantOrder, running, loopRunning := map[], [], map[], false;
    }

    method TotalReady() returns (n: nat)
      requires Valid()
      ensures n == Total(ready, tenantOrder)
    {
      n := 0;
      var i := 0;
      while i < |tenantOrder|
        invariant i <= |tenantOrder|
        invariant Total(ready, tenantOrder) == n + Total(ready, tenantOrder[i..])
      {
        assert tenantOrder[i] in tenantOrder && tenantOrder[i..][1..] == tenantOrder[i + 1..];
        n := n + |ready[tenantOrder[i]]|;
        i := i + 1;
      }
    }

    /** The admission test of `enqueue`. */
    method HasRoom() returns (room: bool)
      requires Valid()
      ensures room <==> config.maxQueueDepth.None? || Total(ready, tenantOrder) < config.maxQueueDepth.value
    {
      var depth := TotalReady();
      room := config.maxQueueDepth.None? || depth < config.maxQueueDepth.value;
    }

    method EnqueueReady(job: Job)
      requires Valid()
      modifies this`ready, this`tenantOrder
      ensures Valid() && Queues() == Push(old(Queues()), job)
    {
      PushWf(Queues(), job);
      var t := job.spec.tenantId;
      var q := [];
      if t in ready {
        q := ready[t];
      } else {
        tenantOrder := tenantOrder + [t];
        assert q + [job] == [job];
      }
      ready := ready[t := q + [job]];
    }

    method RemoveTenantEntry(t: TenantId)
      modifies this`ready, this`tenantOrder
      ensures Queues() == RemoveTenant(old(Queues()), t)
    {
      ready := ready - {t};
      var i := 0;
      while i < |tenantOrder| && tenantOrder[i] != t
        invariant i <= |tenantOrder|
        invariant forall k :: 0 <= k < i ==> tenantOrder[k] != t
      {
        i := i + 1;
      }
      if i < |tenantOrder| {
        SpliceAt(tenantOrder, i);
        tenantOrder := tenantOrder[..i] + tenantOrder[i + 1..];
      } else {
        SpliceAbsent(tenantOrder, t);
      }
    }

    method ClearTenant(t: TenantId)
      requires Valid()
      modifies this`ready, this`tenantOrder
      ensures Valid() && Queues() == RemoveTenant(old(Queues()), t)
    {
      RemoveTenantWf(Queues(), t);
      RemoveTenantEntry(t);
    }

    /** `q` becomes the bucket of `t`, which is forgotten when `q` is empty. */
    method StoreQueue(t: TenantId, q: seq<Job>)
      modifies this`ready, this`tenantOrder
      ensures Queues() == SetQueue(old(Queues()), t, q)
    {
      if |q| == 0 {
        RemoveTenantEntry(t);
      } else {
        ready := ready[t := q];
      }
    }

    /** The buckets are searched in the order of the tenants; a job id occurs in one
        bucket only, so the order of the search does not matter. */
    method DropFromReady(id: JobId)
      requires Valid()
      modifies this`ready, this`tenantOrder
      ensures Valid() && Queues() == Drop(old(Queues()), id)
    {
      DropWf(Queues(), id);
      var i := 0;
      while i < |tenantOrder|
        invariant i <= |tenantOrder| && Queues() == old(Queues())
        invariant Holder(ready, tenantOrder, id) == Holder(ready, tenantOrder[i..], id)
      {
        var t := tenantOrder[i];
        assert t in tenantOrder && tenantOrder[i..][0] == t && tenantOrder[i..][1..] == tenantOrder[i + 1..];
        var q := ready[t];
        var k := FindJob(q, id);
        if k < |q| {
          DropAt(Queues(), id, i, k);
          StoreQueue(t, q[..k] + q[k + 1..]);
          return;
        }
        i := i + 1;
      }
    }

    /** The synchronous halves of a rebuild, before and after the peek. */
    method ClearReady()
      modifies this`ready, this`tenantOrder
      ensures Valid() && Queues() == EMPTY
    {
      ready, tenantOrder := map[], [];
    }

    method AddAll(queued: seq<Job>)
      requires Valid()
      modifies this`ready, this`tenantOrder
      ensures Valid() && Queues() == PushAll(old(Queues()), queued)
    {
      PushAllWf(Queues(), queued);
      var i := 0;
      while i < |queued|
        invariant i <= |queued| && Valid()
        invariant PushAll(old(Queues()), queued) == PushAll(Queues(), queued[i..])
      {
        assert queued[i..][1..] == queued[i + 1..];
        EnqueueReady(queued[i]);
        i := i + 1;
      }
    }

    /** The first tenant, which moves to the end. */
    method NextTenant() returns (t: TenantId)
      requires tenantOrder != []
      modifies this`tenantOrder
      ensures t == old(tenantOrder[0]) && Queues() == Next(old(Queues()))
    {
      t := tenantOrder[0];
      tenantOrder := tenantOrder[1..] + [t];
    }

    /** The head of the bucket that the tenants rotated past are not allowed to touch. */
    method TakeHead(ghost r: Ready, ghost i: nat, t: TenantId) returns (taken: Option<Job>)
      requires Wf(r) && i < |r.order| && t == r.order[i] && Queues() == Rotated(r, i + 1)
      requires UnderCap(running, config.fairCapacityPerTenant, t)
      requires AtCap(r.order, running, config.fairCapacityPerTenant, i)
      modifies this`ready, this`tenantOrder
      ensures (Queues(), taken) == Take(r, running, config.fairCapacityPerTenant)
    {
      assert t in r.order;
      RotatedIs(r, i + 1);
      AllAtCap(r.order, running, config.fairCapacityPerTenant, i);
      TakeAt(r, running, config.fairCapacityPerTenant, i);
      taken := Some(ready[t][0]);
      StoreQueue(t, ready[t][1..]);
    }

    /** Rotate until a tenant has come up that may run another job, or all have had a turn. */
    method RotateToEligible(ghost r: Ready) returns (eligible: Option<TenantId>, ghost i: nat)
      requires Queues() == r
      modifies this`tenantOrder
      ensures i <= |r.order| && AtCap(r.order, running, config.fairCapacityPerTenant, i)
      ensures eligible.None? ==> i == |r.order| && (Queues() == if i == 0 then r else Rotated(r, i))
      ensures eligible.Some? ==>
                && i < |r.order| && eligible.value == r.order[i] && Queues() == Rotated(r, i + 1)
                && UnderCap(running, config.fairCapacityPerTenant, r.order[i])
    {
      var counts := CountInFlight(running);
      var n := 0;
      while n < |tenantOrder|
        invariant n <= |tenantOrder| == |r.order| && (Queues() == if n == 0 then r else Rotated(r, n))
        invariant AtCap(r.order, running, config.fairCapacityPerTenant, n)
      {
        RotatedHead(r, n);
        var t := NextTenant();
        var inFlight := if t in counts then counts[t] else 0;
        if inFlight < config.fairCapacityPerTenant {
          return Some(t), n;
        }
        n := n + 1;
      }
      return None, n;
    }

    method TakeNextReady() returns (taken: Option<Job>)
      requires Valid()
      modifies this`ready, this`tenantOrder
      ensures Valid()
      ensures (Queues(), taken) == Take(old(Queues()), running, config.fairCapacityPerTenant)
    {
      ghost var r := Queues();
      TakeIsWf(r, running, config.fairCapacityPerTenant);
      var eligible, i := RotateToEligible(r);
      match eligible {
        case None =>
          TakeNothing(r, running, config.fairCapacityPerTenant);
          taken := None;
        case Some(t) => taken := TakeHead(r, i, t);
      }
    }

    /** From the loop condition to the next await, or to the end of the loop. */
    method DispatchStretch(now: int) returns (next: Loop)
      requires Valid() && loopRunning
      modifies this`ready, this`tenantOrder, this`loopRunning
      ensures Valid() && loopRunning == !next.Down?
      ensures (Queues(), next) == Decide(config, old(Queues()), running, now)
    {
      var total := TotalReady();
      TotalIsPositive(Queues());
      if total == 0 || |running| >= config.inFlightLimit {
        loopRunning := false;
        return Down;
      }
      var taken := TakeNextReady();
      match taken
      case None =>
        loopRunning := false;
        next := Down;
      case Some(job) =>
        next := if job.spec.deadlineMs > 0 && now >= job.spec.deadlineMs then Expiring(job) else Claiming(job, now);
    }

    /** The single-flight guard: a kick starts the loop only if it is down. */
    method Kick() returns (started: bool)
      modifies this`loopRunning
      ensures loopRunning && started == !old(loopRunning)
    {
      started := !loopRunning;
      loopRunning := true;
    }

    method StartRun(target: Job)
      modifies this`running
      ensures running == old(running)[target.id := target.spec.tenantId]
    {
      running := running[target.id := target.spec.tenantId];
    }

    /** The `finally` of a run, with its reactive re-entry. */
    method SettleRun(id: JobId) returns (kicked: bool)
      requires Valid()
      modifies this`running, this`loopRunning
      ensures running == old(running) - {id}
      ensures kicked <==> tenantOrder != [] && |running| < config.inFlightLimit
      ensures loopRunning == (old(loopRunning) || kicked)
    {
      running := running - {id};
      var total := TotalReady();
      TotalIsPositive(Queues());
      kicked := total > 0 && |running| < config.inFlightLimit;
      if kicked {
        var _ := Kick();
      }
    }
  }
}
