/** Carrying a plan out: the root coordinator, the recursive sub-coordinators and the
    leaf workers. An RPC is a call whose fate the environment decides; the environment
    is a `World`, asked by the path of the call, so every pattern of failures is one
    `World`. The functions say what each dispatcher returns and which events it caused;
    the methods below run the loops of the program and are proved equal to them. */
module TreeDispatch {
  import opened Topology

  const MAX_TRANSIENT_RETRIES := 4

  type Args = string
  type Error = string
  type Path = seq<nat>

  datatype RunResult = Ok(value: string) | Failed(error: Error)

  /** A call that throws may have done its work, none of it, or any part: `happened` says
      which of the events of the full work took place before it was lost. */
  datatype Fate = Delivered | Threw(error: Error, happened: nat -> bool)

  datatype World = World(
    transient: Error -> bool,
    rpc: Path -> Fate,
    run: (Path, Args, nat, bool) -> RunResult)

  datatype Event =
    | Ran(path: Path, slot: nat, args: Args, freshIsolate: bool, result: RunResult)
    | RpcThrew(path: Path, base: nat, count: nat, error: Error)

  datatype Reply = Reply(results: seq<RunResult>, log: seq<Event>)

  const NOTHING := Reply([], [])

  function Join(a: Reply, b: Reply): Reply {
    Reply(a.results + b.results, a.log + b.log)
  }

  /** What one RPC asks for. */
  datatype Call =
    | LeafBatch(freshIsolate: bool)
    | SubCoord(depth: nat, childSizes: seq<nat>, branchingFactor: nat)

  /** How an invocation with retries ends. */
  datatype Ending = Returned(results: seq<RunResult>) | Thrown(error: Error) | Exhausted

  datatype Answer = Answer(ending: Ending, log: seq<Event>)

  function Rank(call: Call): nat {
    if call.LeafBatch? then 0 else call.depth + 1
  }

  function HasTransientRunFailure(w: World, results: seq<RunResult>): bool {
    exists i :: 0 <= i < |results| && results[i].Failed? && w.transient(results[i].error)
  }

  function Retryable(w: World, ending: Ending, attempt: nat): bool {
    attempt < MAX_TRANSIENT_RETRIES &&
    match ending
    case Returned(results) => HasTransientRunFailure(w, results)
    case Thrown(error) => w.transient(error)
    case Exhausted => false
  }

  /** Those of the first `n` events that took place. */
  function Part(log: seq<Event>, happened: nat -> bool, n: nat): seq<Event>
    requires n <= |log|
  {
    if n == 0 then []
    else Part(log, happened, n - 1) + if happened(n - 1) then [log[n - 1]] else []
  }

  /** `runBatchOnEnv`: one run per job, at consecutive slots. */
  function RunBatch(w: World, path: Path, args: seq<Args>, base: nat, isolate: bool): Reply {
    Reply(
      seq(|args|, i requires 0 <= i < |args| => w.run(path + [i], args[i], base + i, isolate)),
      seq(|args|, i requires 0 <= i < |args| =>
        Ran(path + [i], base + i, args[i], isolate, w.run(path + [i], args[i], base + i, isolate))))
  }

  /** `slice(cursor, cursor + size)`, which stops at the end of the array. */
  function SliceOf(args: seq<Args>, sizes: seq<nat>, i: nat): seq<Args>
    requires i < |sizes|
  {
    OffsetGrows(sizes, i, i + 1);
    args[Min(|args|, Offset(sizes, i))..Min(|args|, Offset(sizes, i + 1))]
  }

  function Refill(size: nat, f: nat): seq<nat> {
    if f == 0 then [] else Fill(size, f)
  }

  /** A failed invocation becomes one failed result per job of its slice. */
  function FillIn(answer: Answer, count: nat, exhausted: Error): Reply {
    match answer.ending
    case Returned(results) => Reply(results, answer.log)
    case Thrown(error) => Reply(seq(count, i => Failed(error)), answer.log)
    case Exhausted => Reply(seq(count, i => Failed(exhausted)), answer.log)
  }

  function Attempt(w: World, path: Path, call: Call, args: seq<Args>, base: nat): Answer
    decreases Rank(call), 2, 0, |path|
  {
    match w.rpc(path)
    case Delivered =>
      var r := Serve(w, path, call, args, base);
      Answer(Returned(r.results), r.log)
    case Threw(error, happened) =>
      var log := Serve(w, path, call, args, base).log;
      var done := Part(log, happened, |log|);
      Answer(Thrown(error), done + [RpcThrew(path, base, |args|, error)])
  }

  /** The attempt loop, from attempt `k` on. */
  function Invoke(w: World, path: Path, call: Call, args: seq<Args>, base: nat, k: nat): Answer
    decreases Rank(call), 3, if k > MAX_TRANSIENT_RETRIES then 0 else MAX_TRANSIENT_RETRIES + 1 - k, |path|
  {
    if k > MAX_TRANSIENT_RETRIES then Answer(Exhausted, [])
    else
      var a := Attempt(w, path + [k], call, args, base);
      if Retryable(w, a.ending, k) then
        var later := Invoke(w, path, call, args, base, k + 1);
        Answer(later.ending, a.log + later.log)
      else a
  }

  function Serve(w: World, path: Path, call: Call, args: seq<Args>, base: nat): Reply
    decreases Rank(call), 1, 0, |path|
  {
    match call
    case LeafBatch(isolate) => RunBatch(w, path, args, base, isolate)
    case SubCoord(depth, sizes, f) => ServeSlices(w, path, depth, sizes, f, args, base, |sizes|)
  }

  /** The first `n` slices of a sub-coordinator, in plan order. */
  function ServeSlices(w: World, path: Path, depth: nat, sizes: seq<nat>, f: nat,
                       args: seq<Args>, base: nat, n: nat): Reply
    requires n <= |sizes|
    decreases depth + 1, 0, n + 2, |path|
  {
    if n == 0 then NOTHING
    else Join(ServeSlices(w, path, depth, sizes, f, args, base, n - 1),
              ServeNth(w, path, depth, sizes, f, args, base, n - 1))
  }

  function ServeNth(w: World, path: Path, depth: nat, sizes: seq<nat>, f: nat, args: seq<Args>, base: nat,
                    i: nat): Reply
    requires i < |sizes|
    decreases depth + 1, 0, 1, |path|
  {
    ServeSlice(w, path + [i], depth, f, SliceOf(args, sizes, i), base + Offset(sizes, i))
  }

  function ServeSlice(w: World, path: Path, depth: nat, f: nat, slice: seq<Args>, base: nat): Reply
    decreases depth + 1, 0, 0, |path|
  {
    if slice == [] then NOTHING
    else if depth <= 1 then HybridLeaf(w, path, slice, base, |slice|)
    else FillIn(Invoke(w, path, SubCoord(depth - 1, Refill(|slice|, f), f), slice, base, 0),
                |slice|, "sub-coord retry exhausted")
  }

  /** One leaf per job; the caller's `freshIsolate` is not passed on. */
  function HybridLeaf(w: World, path: Path, slice: seq<Args>, base: nat, n: nat): Reply
    requires n <= |slice|
    decreases 0, 4, n, |path|
  {
    if n == 0 then NOTHING
    else Join(HybridLeaf(w, path, slice, base, n - 1), JobLeaf(w, path + [n - 1], slice[n - 1], base + (n - 1)))
  }

  function JobLeaf(w: World, path: Path, job: Args, base: nat): Reply
    decreases 0, 3, MAX_TRANSIENT_RETRIES + 2, |path|
  {
    FillIn(Invoke(w, path, LeafBatch(false), [job], base, 0), 1, "leaf retry exhausted")
  }

  // ---- the root ---------------------------------------------------------------------

  /** The call for one slice of the root, retried and filled in. */
  function RootChild(w: World, i: nat, call: Call, slice: seq<Args>, base: nat, exhausted: Error): Reply {
    if slice == [] then NOTHING
    else FillIn(Invoke(w, [i], call, slice, base, 0), |slice|, exhausted)
  }

  function RootLeaves(w: World, shape: seq<nat>, args: seq<Args>, isolate: bool, n: nat): Reply
    requires n <= |shape|
  {
    if n == 0 then NOTHING
    else Join(RootLeaves(w, shape, args, isolate, n - 1), RootLeaf(w, shape, args, isolate, n - 1))
  }

  function RootLeaf(w: World, shape: seq<nat>, args: seq<Args>, isolate: bool, i: nat): Reply
    requires i < |shape|
  {
    RootChild(w, i, LeafBatch(isolate), SliceOf(args, shape, i), Offset(shape, i),
              "invokeLeafBatchWithRetry: exhausted retries")
  }

  /** The children of a tree plan are hybrids and trees only. */
  function PlanSliceChildSizes(child: Plan): seq<nat> {
    match child
    case InDo(_) => []
    case Hybrid(_, shape) => shape
    case Tree(_, _, _, _) => ChildSizes(child)
  }

  function RootCall(p: Plan, i: nat): Call
    requires p.Tree? && i < |p.children|
  {
    SubCoord(if p.depth == 0 then 0 else p.depth - 1, PlanSliceChildSizes(p.children[i]), p.branchingFactor)
  }

  function RootSubs(w: World, p: Plan, args: seq<Args>, n: nat): Reply
    requires p.Tree? && n <= |p.children|
  {
    if n == 0 then NOTHING
    else Join(RootSubs(w, p, args, n - 1), RootSub(w, p, args, n - 1))
  }

  function RootSub(w: World, p: Plan, args: seq<Args>, i: nat): Reply
    requires p.Tree? && i < |p.children|
  {
    RootChild(w, i, RootCall(p, i), SliceOf(args, ChildSizes(p), i), Offset(ChildSizes(p), i),
              "sub-coord retry exhausted")
  }

  datatype Outcome = Rejected(why: Refusal) | Bug | Done(plan: Plan, reply: Reply)

  function DispatchPlan(w: World, p: Plan, args: seq<Args>, isolate: bool): Outcome
    requires p.InDo? && p.size == 1 ==> args != []
  {
    match p
    case InDo(size) =>
      if size == 0 then Done(p, NOTHING)
      else if size > 1 then Bug
      else Done(p, RunBatch(w, [], [args[0]], 0, isolate))
    case Hybrid(_, shape) => Done(p, RootLeaves(w, shape, args, isolate, |shape|))
    case Tree(_, _, _, children) => Done(p, RootSubs(w, p, args, |children|))
  }

  function RunMany(w: World, args: seq<Args>, opts: Selector, isolate: bool): Outcome {
    if args == [] then Done(InDo(0), NOTHING)
    else
      match SelectTopology(|args|, opts)
      case Refused(why) => Rejected(why)
      case Selected(p) =>
        DispatchPlan(w, p, args, isolate)
  }

  // ---- the loops of the program -------------------------------------------------------

  datatype Slice = Slice(args: seq<Args>, slotBase: nat)

  /** What the cursor loop pushes for child `i`. */
  function NthSlice(args: seq<Args>, sizes: seq<nat>, slotBase: nat, i: nat): Slice
    requires i < |sizes|
  {
    Slice(SliceOf(args, sizes, i), slotBase + Offset(sizes, i))
  }

  /** The cursor loop that carves the arguments up. */
  method CarveSlices(args: seq<Args>, sizes: seq<nat>, slotBase: nat) returns (slices: seq<Slice>)
    ensures |slices| == |sizes|
    ensures forall i :: 0 <= i < |sizes| ==> slices[i] == NthSlice(args, sizes, slotBase, i)
  {
    var cursor := 0;
    slices := [];
    for i := 0 to |sizes|
      invariant cursor == Offset(sizes, i) && |slices| == i
      invariant forall k :: 0 <= k < i ==> slices[k] == NthSlice(args, sizes, slotBase, k)
    {
      var next := cursor + sizes[i];
      var slice := Slice(args[Min(|args|, cursor)..Min(|args|, next)], slotBase + cursor);
      assert slice == NthSlice(args, sizes, slotBase, i);
      slices := slices + [slice];
      cursor := next;
    }
  }

  /** The attempt loop of every RPC of the tree, and of `invokeLeafBatchWithRetry`. */
  method InvokeWithRetry(w: World, path: Path, call: Call, args: seq<Args>, base: nat) returns (answer: Answer)
    ensures answer == Invoke(w, path, call, args, base, 0)
    decreases Rank(call), 3, 0
  {
    var log := [];
    ghost var whole := Invoke(w, path, call, args, base, 0);
    var attempt := 0;
    while attempt <= MAX_TRANSIENT_RETRIES
      invariant attempt <= MAX_TRANSIENT_RETRIES + 1
      invariant whole == After(log, Invoke(w, path, call, args, base, attempt))
      decreases MAX_TRANSIENT_RETRIES + 1 - attempt
    {
      var a := AttemptRpc(w, path + [attempt], call, args, base);
      AttemptDecides(w, path, call, args, base, attempt, log);
      log := log + a.log;
      match a.ending {
        case Returned(results) =>
          if !(HasTransientRunFailure(w, results) && attempt < MAX_TRANSIENT_RETRIES) {
            return Answer(a.ending, log);
          }
        case Thrown(error) =>
          if !w.transient(error) || attempt == MAX_TRANSIENT_RETRIES {
            return Answer(a.ending, log);
          }
      }
      attempt := attempt + 1;
    }
    return Answer(Exhausted, log);
  }

  function After(log: seq<Event>, answer: Answer): Answer {
    Answer(answer.ending, log + answer.log)
  }

  lemma AttemptDecides(w: World, path: Path, call: Call, args: seq<Args>, base: nat, k: nat, log: seq<Event>)
    requires k <= MAX_TRANSIENT_RETRIES
    ensures var a := Attempt(w, path + [k], call, args, base);
            After(log, Invoke(w, path, call, args, base, k)) ==
            if Retryable(w, a.ending, k) then After(log + a.log, Invoke(w, path, call, args, base, k + 1))
            else Answer(a.ending, log + a.log)
  {
    Regroup(log, Attempt(w, path + [k], call, args, base).log, Invoke(w, path, call, args, base, k + 1).log);
  }

  method AttemptRpc(w: World, path: Path, call: Call, args: seq<Args>, base: nat) returns (a: Answer)
    ensures a == Attempt(w, path, call, args, base) && !a.ending.Exhausted?
    decreases Rank(call), 2, 0
  {
    match w.rpc(path) {
      case Delivered =>
        var r := Handle(w, path, call, args, base);
        a := Answer(Returned(r.results), r.log);
      case Threw(error, happened) =>
        var r := Handle(w, path, call, args, base);
        var done := Part(r.log, happened, |r.log|);
        a := Answer(Thrown(error), done + [RpcThrew(path, base, |args|, error)]);
    }
  }

  lemma Regroup<T>(a: seq<T>, b: seq<T>, c: seq<T>)
    ensures (a + b) + c == a + (b + c)
  {
  }

  method Handle(w: World, path: Path, call: Call, args: seq<Args>, base: nat) returns (r: Reply)
    ensures r == Serve(w, path, call, args, base)
    decreases Rank(call), 1, 0
  {
    match call {
      case LeafBatch(isolate) =>
        r := RunBatch(w, path, args, base, isolate);
      case SubCoord(depth, sizes, f) =>
        r := DispatchOnEnv(w, path, depth, sizes, f, args, base);
    }
  }

  method DispatchOnEnv(w: World, path: Path, depth: nat, sizes: seq<nat>, f: nat, args: seq<Args>, parentSlotBase: nat)
    returns (r: Reply)
    ensures r == ServeSlices(w, path, depth, sizes, f, args, parentSlotBase, |sizes|)
    decreases depth + 1, 0, 2
  {
    var slices := CarveSlices(args, sizes, parentSlotBase);
    r := NOTHING;
    for i := 0 to |slices|
      invariant r == ServeSlices(w, path, depth, sizes, f, args, parentSlotBase, i)
    {
      var child := DispatchNth(w, path, depth, sizes, f, args, parentSlotBase, i, slices[i]);
      r := Join(r, child);
    }
  }

  method DispatchNth(w: World, path: Path, depth: nat, ghost sizes: seq<nat>, f: nat, ghost args: seq<Args>,
                     ghost base: nat, i: nat, slice: Slice) returns (r: Reply)
    requires i < |sizes| && slice == Slice(SliceOf(args, sizes, i), base + Offset(sizes, i))
    ensures r == ServeNth(w, path, depth, sizes, f, args, base, i)
    decreases depth + 1, 0, 1
  {
    r := DispatchSlice(w, path + [i], depth, f, slice);
  }

  method DispatchSlice(w: World, path: Path, depth: nat, f: nat, slice: Slice) returns (r: Reply)
    ensures r == ServeSlice(w, path, depth, f, slice.args, slice.slotBase)
    decreases depth + 1, 0, 0
  {
    if |slice.args| == 0 {
      return NOTHING;
    }
    if depth <= 1 {
      r := DispatchHybridLeaf(w, path, slice.args, slice.slotBase);
    } else {
      var nextChildSizes := Refill(|slice.args|, f);
      var answer := InvokeWithRetry(w, path, SubCoord(depth - 1, nextChildSizes, f), slice.args, slice.slotBase);
      r := FillIn(answer, |slice.args|, "sub-coord retry exhausted");
    }
  }

  method DispatchHybridLeaf(w: World, path: Path, slice: seq<Args>, sliceSlotBase: nat) returns (r: Reply)
    ensures r == HybridLeaf(w, path, slice, sliceSlotBase, |slice|)
    decreases 0, 4, 1
  {
    r := NOTHING;
    for i := 0 to |slice|
      invariant r == HybridLeaf(w, path, slice, sliceSlotBase, i)
    {
      var leaf := DispatchJob(w, path + [i], slice[i], sliceSlotBase + i);
      r := Join(r, leaf);
    }
  }

  method DispatchJob(w: World, path: Path, job: Args, slotBase: nat) returns (r: Reply)
    ensures r == JobLeaf(w, path, job, slotBase)
    decreases 0, 4, 0
  {
    var answer := InvokeWithRetry(w, path, LeafBatch(false), [job], slotBase);
    r := FillIn(answer, 1, "leaf retry exhausted");
  }

  method DispatchHybrid(w: World, shape: seq<nat>, args: seq<Args>, isolate: bool) returns (r: Reply)
    ensures r == RootLeaves(w, shape, args, isolate, |shape|)
  {
    var slices := CarveSlices(args, shape, 0);
    r := NOTHING;
    for i := 0 to |slices|
      invariant r == RootLeaves(w, shape, args, isolate, i)
    {
      var leaf := InvokeRoot(w, i, LeafBatch(isolate), slices[i], "invokeLeafBatchWithRetry: exhausted retries");
      r := Join(r, leaf);
    }
  }

  method DispatchTree(w: World, p: Plan, args: seq<Args>) returns (r: Reply)
    requires p.Tree?
    ensures r == RootSubs(w, p, args, |p.children|)
  {
    var slices := CarveSlices(args, ChildSizes(p), 0);
    r := NOTHING;
    for i := 0 to |slices|
      invariant r == RootSubs(w, p, args, i)
    {
      var sub := InvokeRoot(w, i, RootCall(p, i), slices[i], "sub-coord retry exhausted");
      r := Join(r, sub);
    }
  }

  method InvokeRoot(w: World, i: nat, call: Call, slice: Slice, exhausted: Error) returns (r: Reply)
    ensures r == RootChild(w, i, call, slice.args, slice.slotBase, exhausted)
  {
    if |slice.args| == 0 {
      return NOTHING;
    }
    var answer := InvokeWithRetry(w, [i], call, slice.args, slice.slotBase);
    r := FillIn(answer, |slice.args|, exhausted);
  }

  method RunManyOnCoordinator(w: World, args: seq<Args>, opts: Selector, isolate: bool) returns (o: Outcome)
    ensures o == RunMany(w, args, opts, isolate)
  {
    if |args| == 0 {
      return Done(InDo(0), NOTHING);
    }
    match SelectTopology(|args|, opts) {
      case Refused(why) =>
        return Rejected(why);
      case Selected(p) =>
        match p {
          case InDo(_) =>
            o := DispatchPlan(w, p, args, isolate);
          case Hybrid(_, shape) =>
            var r := DispatchHybrid(w, shape, args, isolate);
            o := Done(p, r);
          case Tree(_, _, _, _) =>
            var r := DispatchTree(w, p, args);
            o := Done(p, r);
        }
    }
  }
}
