/** Fairness of the round-robin over whole histories of the ready set. */
module FairQueueing {
  import opened Options
  import opened JobTable
  import opened ReadyQueue

  datatype Event =
    | Pushed(job: Job)
    | Picked(running: Running, cap: int)
    | Dropped(id: JobId)
    | Cleared(tenant: TenantId)

  ghost function Step(r: Ready, e: Event): (r': Ready)
    requires Wf(r)
    ensures Wf(r')
  {
    match e
    case Pushed(job) => PushWf(r, job); Push(r, job)
    case Picked(running, cap) => TakeWf(r, running, cap); Take(r, running, cap).0
    case Dropped(id) => DropWf(r, id); Drop(r, id)
    case Cleared(t) => RemoveTenantWf(r, t); RemoveTenant(r, t)
  }

  ghost predicate Picks(r: Ready, e: Event, t: TenantId)
    requires Wf(r)
  {
    e.Picked? && Take(r, e.running, e.cap).1.Some? && Take(r, e.running, e.cap).1.value.spec.tenantId == t
  }

  // ---- bounded bypass -----------------------------------------------------------

  function Position(order: seq<TenantId>, t: TenantId): (p: nat)
    ensures p <= |order|
    ensures p < |order| ==> order[p] == t
    ensures forall k :: 0 <= k < p ==> order[k] != t
  {
    if order == [] || order[0] == t then 0 else 1 + Position(order[1..], t)
  }

  /** Until `t` is picked it always has a ready job, and whenever a pick happens
      it is below its cap. */
  ghost predicate StaysEligible(r: Ready, events: seq<Event>, t: TenantId)
    requires Wf(r)
    decreases |events|
  {
    && t in r.order
    && (events != [] ==>
          && (events[0].Picked? ==> UnderCap(events[0].running, events[0].cap, t))
          && (Picks(r, events[0], t) || StaysEligible(Step(r, events[0]), events[1..], t)))
  }

  /** The picks that happen before the first pick of `t`. */
  ghost function PicksBefore(r: Ready, events: seq<Event>, t: TenantId): nat
    requires Wf(r)
    decreases |events|
  {
    if events == [] || Picks(r, events[0], t) then 0
    else (if events[0].Picked? then 1 else 0) + PicksBefore(Step(r, events[0]), events[1..], t)
  }

  /** No matter what is enqueued, dropped or cleared meanwhile, a tenant that stays
      eligible is overtaken at most as often as there are tenants in front of it. */
  lemma {:induction false} BypassIsBounded(r: Ready, events: seq<Event>, t: TenantId)
    requires Wf(r) && StaysEligible(r, events, t)
    ensures PicksBefore(r, events, t) <= Position(r.order, t)
    decreases |events|
  {
    if events != [] && !Picks(r, events[0], t) {
      BypassIsBounded(Step(r, events[0]), events[1..], t);
      match events[0]
      case Pushed(job) => PositionOfPrefix(r.order, Step(r, events[0]).order, t);
      case Picked(running, cap) => PickAdvances(r, running, cap, t);
      case Dropped(id) =>
        if Step(r, events[0]).order != r.order {
          SpliceRemoves(r.order, Holder(r.queues, r.order, id).value);
          SplicePosition(r.order, Holder(r.queues, r.order, id).value, t);
        }
      case Cleared(u) => SpliceRemoves(r.order, u); SplicePosition(r.order, u, t);
    }
  }

  lemma PositionIs(order: seq<TenantId>, p: nat, t: TenantId)
    requires p < |order| && order[p] == t
    requires forall k :: 0 <= k < p ==> order[k] != t
    ensures Position(order, t) == p
  {
  }

  lemma PositionOfPrefix(order: seq<TenantId>, longer: seq<TenantId>, t: TenantId)
    requires order <= longer && t in order
    ensures Position(longer, t) == Position(order, t)
  {
    PositionIs(longer, Position(order, t), t);
  }

  lemma {:induction false} SplicePosition(order: seq<TenantId>, u: TenantId, t: TenantId)
    requires t in order && u != t
    ensures t in Splice(order, u) && Position(Splice(order, u), t) <= Position(order, t)
  {
    if order[0] == u {
      assert t in order[1..];
    } else if order[0] != t {
      SplicePosition(order[1..], u, t);
      assert Splice(order, u)[1..] == Splice(order[1..], u);
    }
  }

  /** A pick that overtakes `t` moves it strictly forward. */
  lemma PickAdvances(r: Ready, running: Running, cap: int, t: TenantId)
    requires Wf(r) && t in r.order && UnderCap(running, cap, t)
    requires !Picks(r, Picked(running, cap), t)
    ensures t in Take(r, running, cap).0.order
    ensures Position(Take(r, running, cap).0.order, t) < Position(r.order, t)
  {
    var i := FirstUnderCap(r.order, running, cap);
    assert i <= Position(r.order, t);
    assert Take(r, running, cap) == (TakeFrom(r, i).0, Some(TakeFrom(r, i).1));
    TakeFromWf(r, i);
    TakeFromAdvances(r, i, t);
  }

  lemma TakeFromAdvances(r: Ready, i: nat, t: TenantId)
    requires Wf(r) && t in r.order && i < Position(r.order, t)
    ensures t in TakeFrom(r, i).0.order
    ensures Position(TakeFrom(r, i).0.order, t) < Position(r.order, t)
  {
    RotateAdvances(r.order, i, t);
    SplicePosition(Rotate(r, i + 1).order, r.order[i], t);
  }

  lemma RotateAdvances(order: seq<TenantId>, i: nat, t: TenantId)
    requires t in order && i < Position(order, t)
    ensures t in order[i + 1..] + order[..i + 1]
    ensures Position(order[i + 1..] + order[..i + 1], t) == Position(order, t) - i - 1
  {
    var o, p := order[i + 1..] + order[..i + 1], Position(order, t) - i - 1;
    assert o[p] == order[Position(order, t)];
    PositionIs(o, p, t);
  }

  // ---- FIFO ------------------------------------------------------------------------

  /** No event of the history removes jobs of `t` other than by picking them. */
  ghost predicate OnlyPicksRemove(r: Ready, events: seq<Event>, t: TenantId)
    requires Wf(r)
    decreases |events|
  {
    events != [] ==>
      && (events[0].Cleared? ==> events[0].tenant != t)
      && (events[0].Dropped? ==> Holder(r.queues, r.order, events[0].id) != Some(t))
      && OnlyPicksRemove(Step(r, events[0]), events[1..], t)
  }

  ghost function PickedNow(r: Ready, e: Event, t: TenantId): seq<Job>
    requires Wf(r)
  {
    if Picks(r, e, t) then [Take(r, e.running, e.cap).1.value] else []
  }

  ghost function PickedJobs(r: Ready, events: seq<Event>, t: TenantId): seq<Job>
    requires Wf(r)
    decreases |events|
  {
    if events == [] then []
    else PickedNow(r, events[0], t) + PickedJobs(Step(r, events[0]), events[1..], t)
  }

  function PushedNow(e: Event, t: TenantId): seq<Job> {
    if e.Pushed? && e.job.spec.tenantId == t then [e.job] else []
  }

  function PushedJobs(events: seq<Event>, t: TenantId): seq<Job> {
    if events == [] then [] else PushedNow(events[0], t) + PushedJobs(events[1..], t)
  }

  ghost function Play(r: Ready, events: seq<Event>): (r': Ready)
    requires Wf(r)
    ensures Wf(r')
    decreases |events|
  {
    if events == [] then r else Play(Step(r, events[0]), events[1..])
  }

  /** A tenant's jobs leave exactly in the order they came, none lost and none
      twice: what was picked followed by what is left is what was there followed by
      what was pushed. */
  lemma {:induction false} BucketsAreFifo(r: Ready, events: seq<Event>, t: TenantId)
    requires Wf(r) && OnlyPicksRemove(r, events, t)
    ensures PickedJobs(r, events, t) + Queue(Play(r, events), t) == Queue(r, t) + PushedJobs(events, t)
    decreases |events|
  {
    if events != [] {
      var next := Step(r, events[0]);
      BucketsAreFifo(next, events[1..], t);
      StepIsFifo(r, events[0], t);
      Chain(PickedNow(r, events[0], t), Queue(next, t), Queue(r, t), PushedNow(events[0], t),
            PickedJobs(next, events[1..], t), Queue(Play(next, events[1..]), t), PushedJobs(events[1..], t));
    }
  }

  lemma Chain<T>(a: seq<T>, mid: seq<T>, start: seq<T>, b: seq<T>, picked: seq<T>, end: seq<T>, c: seq<T>)
    requires a + mid == start + b && picked + end == mid + c
    ensures (a + picked) + end == start + (b + c)
  {
    assert (a + picked) + end == a + (picked + end);
    assert a + (mid + c) == (a + mid) + c;
  }

  lemma StepIsFifo(r: Ready, e: Event, t: TenantId)
    requires Wf(r) && OnlyPicksRemove(r, [e], t)
    ensures PickedNow(r, e, t) + Queue(Step(r, e), t) == Queue(r, t) + PushedNow(e, t)
  {
    assert [e][0] == e;
    match e
    case Pushed(job) => PushWf(r, job);
    case Picked(running, cap) => TakeWf(r, running, cap);
    case Dropped(id) => DropKeepsOthers(r, id, t);
    case Cleared(u) => RemoveTenantWf(r, u);
  }

  lemma DropKeepsOthers(r: Ready, id: JobId, t: TenantId)
    requires Wf(r) && Holder(r.queues, r.order, id) != Some(t)
    ensures Queue(Drop(r, id), t) == Queue(r, t)
  {
    match Holder(r.queues, r.order, id)
    case None =>
    case Some(u) =>
      var q := RemoveAt(r.queues[u], IndexOf(r.queues[u], id));
      assert forall j :: j in q ==> j in r.queues[u];
      SetQueueWf(r, u, q);
  }
}
