/** The dispatcher's in-memory ready set: one FIFO bucket per tenant and a cyclic
    order of the tenants, as values. */
module ReadyQueue {
  import opened Collections
  import opened Options
  import opened JobTable

  /** The snapshot of a job the dispatcher carries around. */
  datatype Job = Job(id: JobId, spec: Spec, retryCount: nat)

  datatype Ready = Ready(queues: map<TenantId, seq<Job>>, order: seq<TenantId>)

  /** The tenant of each running job, by job id. */
  type Running = map<JobId, TenantId>

  const EMPTY := Ready(map[], [])

  /** `order` lists exactly the tenants with ready jobs, each once. */
  ghost predicate Wf(r: Ready) {
    && Distinct(r.order)
    && (forall t :: t in r.order <==> t in r.queues)
    && (forall t :: t in r.queues ==> r.queues[t] != [])
    && (forall t, j :: t in r.queues && j in r.queues[t] ==> j.spec.tenantId == t)
  }

  function Queue(r: Ready, t: TenantId): seq<Job> {
    if t in r.queues then r.queues[t] else []
  }

  /** The job is in its tenant's bucket; in a well-formed ready set it is nowhere else. */
  predicate Contains(r: Ready, j: Job) {
    j in Queue(r, j.spec.tenantId)
  }

  ghost predicate Holds(r: Ready, id: JobId) {
    exists j :: Contains(r, j) && j.id == id
  }

  function RunningOf(running: Running, t: TenantId): set<JobId> {
    set id | id in running && running[id] == t
  }

  function InFlight(running: Running, t: TenantId): nat {
    |RunningOf(running, t)|
  }

  predicate UnderCap(running: Running, cap: int, t: TenantId) {
    InFlight(running, t) < cap
  }

  function Total(queues: map<TenantId, seq<Job>>, order: seq<TenantId>): nat
    requires forall t :: t in order ==> t in queues
  {
    if order == [] then 0 else |queues[order[0]]| + Total(queues, order[1..])
  }

  // ---- operations ----------------------------------------------------------

  function Push(r: Ready, job: Job): Ready {
    var t := job.spec.tenantId;
    if t in r.queues then r.(queues := r.queues[t := r.queues[t] + [job]])
    else Ready(r.queues[t := [job]], r.order + [t])
  }

  function PushAll(r: Ready, jobs: seq<Job>): Ready
    decreases |jobs|
  {
    if jobs == [] then r else PushAll(Push(r, jobs[0]), jobs[1..])
  }

  /** `order` without the first occurrence of `t`. */
  function Splice<T(==)>(order: seq<T>, t: T): seq<T> {
    if order == [] then []
    else if order[0] == t then order[1..]
    else [order[0]] + Splice(order[1..], t)
  }

  function RemoveTenant(r: Ready, t: TenantId): Ready {
    Ready(r.queues - {t}, Splice(r.order, t))
  }

  /** Replace a tenant's bucket, and forget the tenant when nothing is left. */
  function SetQueue(r: Ready, t: TenantId, q: seq<Job>): Ready {
    if q == [] then RemoveTenant(r, t) else r.(queues := r.queues[t := q])
  }

  /** The position of the first tenant that may run another job. */
  function FirstUnderCap(order: seq<TenantId>, running: Running, cap: int): (i: nat)
    ensures i <= |order|
    ensures i < |order| ==> UnderCap(running, cap, order[i])
    ensures forall k :: 0 <= k < i ==> !UnderCap(running, cap, order[k])
  {
    if order == [] || UnderCap(running, cap, order[0]) then 0
    else 1 + FirstUnderCap(order[1..], running, cap)
  }

  /** The first `i` tenants move to the end of the order. */
  function Rotate(r: Ready, i: nat): Ready
    requires i <= |r.order|
  {
    r.(order := r.order[i..] + r.order[..i])
  }

  /** Rotate past position `i` of the order and take the head of that bucket. */
  function TakeFrom(r: Ready, i: nat): (Ready, Job)
    requires Wf(r) && i < |r.order|
  {
    var t := r.order[i];
    (SetQueue(Rotate(r, i + 1), t, r.queues[t][1..]), r.queues[t][0])
  }

  /** Round-robin pull: the first tenant below its cap gives its oldest job. */
  function Take(r: Ready, running: Running, cap: int): (Ready, Option<Job>)
    requires Wf(r)
  {
    var i := FirstUnderCap(r.order, running, cap);
    if i == |r.order| then (r, None)
    else var (rest, job) := TakeFrom(r, i); (rest, Some(job))
  }

  function IndexOf(q: seq<Job>, id: JobId): (i: nat)
    ensures i <= |q|
    ensures i < |q| ==> q[i].id == id
    ensures forall k :: 0 <= k < i ==> q[k].id != id
  {
    if q == [] || q[0].id == id then 0 else 1 + IndexOf(q[1..], id)
  }

  /** The first tenant in `order` whose bucket holds `id`. */
  function Holder(queues: map<TenantId, seq<Job>>, order: seq<TenantId>, id: JobId): (h: Option<TenantId>)
    requires forall t :: t in order ==> t in queues
    ensures h.Some? ==> h.value in order && IndexOf(queues[h.value], id) < |queues[h.value]|
    ensures h.None? ==> forall t :: t in order ==> IndexOf(queues[t], id) == |queues[t]|
  {
    if order == [] then None
    else if IndexOf(queues[order[0]], id) < |queues[order[0]]| then Some(order[0])
    else Holder(queues, order[1..], id)
  }

  function RemoveAt(q: seq<Job>, i: nat): seq<Job>
    requires i < |q|
  {
    q[..i] + q[i + 1..]
  }

  /** Remove one copy of a job; further copies stay behind. */
  function Drop(r: Ready, id: JobId): Ready
    requires Wf(r)
  {
    match Holder(r.queues, r.order, id)
    case None => r
    case Some(t) => SetQueue(r, t, RemoveAt(r.queues[t], IndexOf(r.queues[t], id)))
  }

  // ---- well-formedness is kept ------------------------------------------------

  lemma {:induction false} SpliceRemoves<T>(order: seq<T>, t: T)
    requires Distinct(order)
    ensures Distinct(Splice(order, t))
    ensures forall x :: x in Splice(order, t) <==> x in order && x != t
    ensures t !in order ==> Splice(order, t) == order
  {
    if order != [] {
      assert forall x :: x in order <==> x == order[0] || x in order[1..];
      assert order[0] !in order[1..];
      if order[0] != t {
        SpliceRemoves(order[1..], t);
        var rest := Splice(order[1..], t);
        assert forall x :: x in [order[0]] + rest <==> x == order[0] || x in rest;
        assert order[0] !in rest;
      }
    }
  }

  lemma PushWf(r: Ready, job: Job)
    requires Wf(r)
    ensures Wf(Push(r, job))
    ensures forall t :: Queue(Push(r, job), t) == if t == job.spec.tenantId then Queue(r, t) + [job] else Queue(r, t)
  {
  }

  lemma {:induction false} PushAllWf(r: Ready, jobs: seq<Job>)
    requires Wf(r)
    ensures Wf(PushAll(r, jobs))
    ensures forall j :: Contains(PushAll(r, jobs), j) <==> Contains(r, j) || j in jobs
    decreases |jobs|
  {
    if jobs != [] {
      PushWf(r, jobs[0]);
      PushAllWf(Push(r, jobs[0]), jobs[1..]);
      assert forall j :: j in jobs <==> j == jobs[0] || j in jobs[1..];
      assert forall j :: Contains(Push(r, jobs[0]), j) <==> Contains(r, j) || j == jobs[0];
    }
  }

  lemma RemoveTenantWf(r: Ready, t: TenantId)
    requires Wf(r)
    ensures Wf(RemoveTenant(r, t))
    ensures forall u :: Queue(RemoveTenant(r, t), u) == if u == t then [] else Queue(r, u)
  {
    SpliceRemoves(r.order, t);
  }

  lemma SetQueueWf(r: Ready, t: TenantId, q: seq<Job>)
    requires Wf(r) && t in r.queues
    requires forall j :: j in q ==> j.spec.tenantId == t
    ensures Wf(SetQueue(r, t, q))
    ensures forall u :: Queue(SetQueue(r, t, q), u) == if u == t then q else Queue(r, u)
  {
    if q == [] {
      RemoveTenantWf(r, t);
    }
  }

  lemma RotateWf(r: Ready, i: nat)
    requires Wf(r) && i <= |r.order|
    ensures Wf(Rotate(r, i)) && Rotate(r, i).queues == r.queues
  {
    var o := Rotate(r, i).order;
    assert forall k :: 0 <= k < |o| ==> o[k] == r.order[if k < |r.order| - i then k + i else k - (|r.order| - i)];
    forall t
      ensures t in o <==> t in r.order
    {
      assert r.order == r.order[..i] + r.order[i..];
    }
  }

  lemma TakeFromWf(r: Ready, i: nat)
    requires Wf(r) && i < |r.order|
    ensures var (rest, job) := TakeFrom(r, i);
            && Wf(rest)
            && job.spec.tenantId == r.order[i]
            && Queue(r, r.order[i]) == [job] + Queue(rest, r.order[i])
            && forall t :: t != r.order[i] ==> Queue(rest, t) == Queue(r, t)
  {
    RotateWf(r, i + 1);
    assert r.order[i] in r.order;
    PopRotated(r, Rotate(r, i + 1), r.order[i]);
  }

  lemma PopRotated(r: Ready, rotated: Ready, t: TenantId)
    requires Wf(rotated) && rotated.queues == r.queues && t in r.queues
    ensures var rest := SetQueue(rotated, t, r.queues[t][1..]);
            && Wf(rest)
            && r.queues[t][0].spec.tenantId == t
            && Queue(r, t) == [r.queues[t][0]] + Queue(rest, t)
            && forall u :: u != t ==> Queue(rest, u) == Queue(r, u)
  {
    PopWf(rotated, t);
  }

  lemma PopWf(r: Ready, t: TenantId)
    requires Wf(r) && t in r.queues
    ensures Wf(SetQueue(r, t, r.queues[t][1..]))
    ensures r.queues[t][0].spec.tenantId == t
    ensures r.queues[t] == [r.queues[t][0]] + Queue(SetQueue(r, t, r.queues[t][1..]), t)
    ensures forall u :: u != t ==> Queue(SetQueue(r, t, r.queues[t][1..]), u) == Queue(r, u)
  {
    TailKeepsTenant(r, t);
    SetQueueWf(r, t, r.queues[t][1..]);
  }

  lemma TailKeepsTenant(r: Ready, t: TenantId)
    requires Wf(r) && t in r.queues
    ensures r.queues[t] == [r.queues[t][0]] + r.queues[t][1..]
    ensures r.queues[t][0].spec.tenantId == t
    ensures forall j :: j in r.queues[t][1..] ==> j.spec.tenantId == t
  {
    assert r.queues[t][0] in r.queues[t];
  }

  lemma TakeWf(r: Ready, running: Running, cap: int)
    requires Wf(r)
    ensures var (rest, taken) := Take(r, running, cap);
            && Wf(rest)
            && (taken.None? ==> rest == r && forall t :: t in r.order ==> !UnderCap(running, cap, t))
            && (taken.Some? ==>
                  && UnderCap(running, cap, taken.value.spec.tenantId)
                  && Queue(r, taken.value.spec.tenantId) == [taken.value] + Queue(rest, taken.value.spec.tenantId)
                  && forall t :: t != taken.value.spec.tenantId ==> Queue(rest, t) == Queue(r, t))
  {
    var i := FirstUnderCap(r.order, running, cap);
    if i < |r.order| {
      TakeFromWf(r, i);
    }
  }

  /** A pull moves one copy of a job out of the ready set and leaves the rest. */
  lemma TakeContains(r: Ready, running: Running, cap: int)
    requires Wf(r)
    ensures var (rest, taken) := Take(r, running, cap);
            forall j :: Contains(r, j) <==> Contains(rest, j) || taken == Some(j)
  {
    TakeWf(r, running, cap);
  }

  /** A drop removes copies of `id` only, and no tenant becomes ready by it. */
  lemma DropWf(r: Ready, id: JobId)
    requires Wf(r)
    ensures Wf(Drop(r, id))
    ensures forall t :: t in Drop(r, id).order ==> t in r.order
    ensures forall j :: Contains(Drop(r, id), j) ==> Contains(r, j)
    ensures forall j :: Contains(r, j) && j.id != id ==> Contains(Drop(r, id), j)
  {
    match Holder(r.queues, r.order, id)
    case None =>
    case Some(t) =>
      var q := r.queues[t];
      var i := IndexOf(q, id);
      var q' := RemoveAt(q, i);
      assert q == q[..i] + [q[i]] + q[i + 1..];
      assert forall j :: j in q <==> j in q' || j == q[i];
      SetQueueWf(r, t, q');
      assert forall u :: u in Drop(r, id).order ==> Queue(Drop(r, id), u) != [] && Queue(r, u) != [];
  }

  lemma {:induction false} TotalIsPositive(r: Ready)
    requires Wf(r)
    ensures Total(r.queues, r.order) > 0 <==> r.order != []
  {
    if r.order != [] {
      assert r.order[0] in r.queues;
    }
  }
}
