/** The per-isolate loader semaphore: a permit is handed straight to the oldest waiter. */
module LoaderSemaphore {
  import opened Options

  type TaskId = nat

  datatype Sem = Sem(cap: nat, inFlight: int, waiters: seq<TaskId>)

  function Acquired(s: Sem, task: TaskId): Sem {
    if s.inFlight < s.cap then s.(inFlight := s.inFlight + 1) else s.(waiters := s.waiters + [task])
  }

  function Released(s: Sem): Sem {
    if s.waiters != [] then s.(waiters := s.waiters[1..]) else s.(inFlight := s.inFlight - 1)
  }

  class LoaderSemaphore {
    var cap: nat
    var inFlight: int
    var waiters: seq<TaskId>
    // Whose promise was resolved, in order.
    var resolved: seq<TaskId>

    function Now(): Sem
      reads this
    {
      Sem(cap, inFlight, waiters)
    }

    constructor (cap: nat)
      ensures Now() == Sem(cap, 0, []) && resolved == []
    {
      this.cap, inFlight, waiters, resolved := cap, 0, [], [];
    }

    method Acquire(task: TaskId)
      modifies this
      ensures Now() == Acquired(old(Now()), task)
      ensures resolved == old(resolved) + if old(inFlight) < old(cap) then [task] else []
      ensures old(inFlight) < old(cap) ==> inFlight == old(inFlight) + 1 && waiters == old(waiters)
      ensures old(inFlight) >= old(cap) ==> inFlight == old(inFlight) && waiters == old(waiters) + [task]
    {
      if inFlight < cap {
        inFlight := inFlight + 1;
        resolved := resolved + [task];
        return;
      }
      waiters := waiters + [task];
    }

    method Release()
      modifies this
      ensures Now() == Released(old(Now()))
      ensures resolved == old(resolved) + if old(waiters) != [] then [old(waiters)[0]] else []
      ensures old(waiters) != [] ==> inFlight == old(inFlight) && [old(waiters)[0]] + waiters == old(waiters)
      ensures old(waiters) == [] ==> inFlight == old(inFlight) - 1 && waiters == []
    {
      if |waiters| > 0 {
        var next := waiters[0];
        waiters := waiters[1..];
        resolved := resolved + [next];
      } else {
        inFlight := inFlight - 1;
      }
    }
  }

  /** A number of the language: the constructor tests for the finite ones. */
  datatype Number = Finite(value: real) | NotANumber | Infinite(negative: bool)

  /** The constructor's range check and rounding. */
  method NewSemaphore(cap: Number) returns (s: Option<LoaderSemaphore>)
    ensures s.Some? <==> cap.Finite? && cap.value >= 1.0
    ensures s.Some? ==> fresh(s.value) && s.value.Now() == Initial(cap.value.Floor).sem && s.value.resolved == []
    ensures s.Some? ==> 1 <= s.value.cap && s.value.cap as real <= cap.value < s.value.cap as real + 1.0
  {
    if !cap.Finite? || cap.value < 1.0 {
      return None;
    }
    var sem := new LoaderSemaphore(cap.value.Floor);
    return Some(sem);
  }

  // ---- runs -----------------------------------------------------------------------------------

  /** The semaphore with everything that happened to it. */
  datatype State = State(sem: Sem, arrived: seq<TaskId>, granted: seq<TaskId>, left: nat)

  datatype Event = Arrive(task: TaskId) | Leave

  function Grants(s: Sem, e: Event): seq<TaskId> {
    match e
    case Arrive(task) => if s.inFlight < s.cap then [task] else []
    case Leave => if s.waiters != [] then [s.waiters[0]] else []
  }

  /** Only a task that holds a permit leaves. */
  predicate Enabled(s: State, e: Event) {
    e.Leave? ==> s.left < |s.granted|
  }

  function Do(s: State, e: Event): State {
    match e
    case Arrive(task) => State(Acquired(s.sem, task), s.arrived + [task], s.granted + Grants(s.sem, e), s.left)
    case Leave => State(Released(s.sem), s.arrived, s.granted + Grants(s.sem, e), s.left + 1)
  }

  predicate Runs(s: State, es: seq<Event>)
    decreases |es|
  {
    es != [] ==> Enabled(s, es[0]) && Runs(Do(s, es[0]), es[1..])
  }

  function End(s: State, es: seq<Event>): State
    decreases |es|
  {
    if es == [] then s else End(Do(s, es[0]), es[1..])
  }

  function Initial(cap: nat): State {
    State(Sem(cap, 0, []), [], [], 0)
  }

  /** First come, first served; the permits out are exactly those inside; nobody
      waits while a permit is free. */
  ghost predicate Inv(s: State) {
    && s.arrived == s.granted + s.sem.waiters
    && s.left <= |s.granted| && s.sem.inFlight == |s.granted| - s.left
    && s.sem.inFlight <= s.sem.cap
    && (s.sem.waiters != [] ==> s.sem.inFlight == s.sem.cap)
  }

  lemma StepKeepsInv(s: State, e: Event)
    requires Inv(s) && Enabled(s, e)
    ensures Inv(Do(s, e)) && Do(s, e).sem.cap == s.sem.cap
  {
    match e
    case Arrive(task) =>
      assert (s.granted + s.sem.waiters) + [task] == s.granted + (s.sem.waiters + [task]);
    case Leave =>
      if s.sem.waiters != [] {
        assert s.granted + s.sem.waiters == (s.granted + [s.sem.waiters[0]]) + s.sem.waiters[1..];
      }
  }

  lemma {:induction false} SemaphoreIsFair(cap: nat, s: State, es: seq<Event>)
    requires Inv(s) && s.sem.cap == cap && Runs(s, es)
    ensures Inv(End(s, es)) && End(s, es).sem.cap == cap
    decreases |es|
  {
    if es != [] {
      StepKeepsInv(s, es[0]);
      SemaphoreIsFair(cap, Do(s, es[0]), es[1..]);
    }
  }

  lemma InitialInv(cap: nat)
    ensures Inv(Initial(cap))
  {
  }

  function Leaves(es: seq<Event>): nat {
    if es == [] then 0 else (if es[0].Leave? then 1 else 0) + Leaves(es[1..])
  }

  lemma {:induction false} GrantedOnlyGrows(s: State, es: seq<Event>)
    ensures |s.granted| <= |End(s, es).granted| && End(s, es).granted[..|s.granted|] == s.granted
    decreases |es|
  {
    if es != [] {
      GrantedOnlyGrows(Do(s, es[0]), es[1..]);
      assert End(s, es).granted[..|s.granted|] == End(s, es).granted[..|Do(s, es[0]).granted|][..|s.granted|];
    }
  }

  /** The waiter at position `i` holds a permit after `i + 1` tasks have left, whatever
      arrives meanwhile. */
  lemma {:induction false} WaiterIsServed(s: State, es: seq<Event>, i: nat)
    requires Inv(s) && Runs(s, es) && i < |s.sem.waiters| && Leaves(es) > i
    ensures |End(s, es).granted| > |s.granted| + i && End(s, es).granted[|s.granted| + i] == s.sem.waiters[i]
    decreases |es|
  {
    var next := Do(s, es[0]);
    StepKeepsInv(s, es[0]);
    if es[0].Arrive? {
      WaiterIsServed(next, es[1..], i);
    } else if i > 0 {
      WaiterIsServed(next, es[1..], i - 1);
    } else {
      GrantedOnlyGrows(next, es[1..]);
      assert End(s, es).granted[|s.granted|] == End(s, es).granted[..|next.granted|][|s.granted|];
    }
  }
}
