/** What a fan-out guarantees, whatever the RPCs and the jobs do. */
module TreeSoundness {
  import opened Topology
  import opened TreeDispatch

  // ---- events -------------------------------------------------------------------------

  /** The event is a run of the right job at the right slot, or a real RPC failure, and
      concerns only the slice `args` placed at `base`. */
  predicate Fits(w: World, e: Event, args: seq<Args>, base: nat, isolate: bool) {
    match e
    case Ran(path, slot, job, flag, result) =>
      && base <= slot < base + |args| && job == args[slot - base]
      && flag == isolate && result == w.run(path, job, slot, flag)
    case RpcThrew(path, from, count, error) =>
      base <= from && from + count <= base + |args| && w.rpc(path).Threw? && w.rpc(path).error == error
  }

  /** The event accounts for `r` as the result of `slot`. */
  predicate Explains(e: Event, slot: nat, r: RunResult) {
    match e
    case Ran(_, at, _, _, result) => at == slot && result == r
    case RpcThrew(_, from, count, error) => from <= slot < from + count && r == Failed(error)
  }

  predicate Explained(log: seq<Event>, slot: nat, r: RunResult) {
    exists i :: 0 <= i < |log| && Explains(log[i], slot, r)
  }

  ghost predicate AllExplained(log: seq<Event>, base: nat, results: seq<RunResult>) {
    forall i :: 0 <= i < |results| ==> Explained(log, base + i, results[i])
  }

  function AllFailed(error: Error, n: nat): (results: seq<RunResult>)
    ensures |results| == n && forall i :: 0 <= i < n ==> results[i] == Failed(error)
  {
    seq(n, i => Failed(error))
  }

  function RunsAt(log: seq<Event>, slot: nat): nat {
    if log == [] then 0
    else RunsAt(log[..|log| - 1], slot) + if log[|log| - 1].Ran? && log[|log| - 1].slot == slot then 1 else 0
  }

  lemma {:induction false} RunsAtJoin(a: seq<Event>, b: seq<Event>, slot: nat)
    ensures RunsAt(a + b, slot) == RunsAt(a, slot) + RunsAt(b, slot)
  {
    if b == [] {
      assert a + b == a;
    } else {
      assert (a + b)[..|a + b| - 1] == a + b[..|b| - 1];
      RunsAtJoin(a, b[..|b| - 1], slot);
    }
  }

  ghost predicate LogFits(w: World, log: seq<Event>, args: seq<Args>, base: nat, isolate: bool) {
    forall i :: 0 <= i < |log| ==> Fits(w, log[i], args, base, isolate)
  }

  ghost predicate RunsBounded(log: seq<Event>, bound: nat) {
    forall slot :: RunsAt(log, slot) <= bound
  }

  lemma {:induction false} NoRunsOutside(w: World, log: seq<Event>, args: seq<Args>, base: nat, isolate: bool,
                                         slot: nat)
    requires LogFits(w, log, args, base, isolate) && !(base <= slot < base + |args|)
    ensures RunsAt(log, slot) == 0
  {
    if log != [] {
      assert Fits(w, log[|log| - 1], args, base, isolate);
      NoRunsOutside(w, log[..|log| - 1], args, base, isolate, slot);
    }
  }

  // ---- replies ------------------------------------------------------------------------

  /** One explained result per job, in order; only these jobs run, each at its slot and
      at most `bound` times. */
  ghost predicate Sound(w: World, r: Reply, args: seq<Args>, base: nat, isolate: bool, bound: nat) {
    && |r.results| == |args|
    && LogFits(w, r.log, args, base, isolate)
    && RunsBounded(r.log, bound)
    && AllExplained(r.log, base, r.results)
  }

  lemma ExplainedInJoin(a: seq<Event>, b: seq<Event>, slot: nat, r: RunResult)
    requires Explained(a, slot, r) || Explained(b, slot, r)
    ensures Explained(a + b, slot, r)
  {
    if Explained(a, slot, r) {
      var i :| 0 <= i < |a| && Explains(a[i], slot, r);
      assert (a + b)[i] == a[i];
    } else {
      var i :| 0 <= i < |b| && Explains(b[i], slot, r);
      assert (a + b)[|a| + i] == b[i];
    }
  }

  lemma FitsInLarger(w: World, e: Event, args: seq<Args>, base: nat, all: seq<Args>, start: nat, isolate: bool)
    requires Fits(w, e, args, base, isolate)
    requires start <= base && base - start + |args| <= |all| && args == all[base - start..base - start + |args|]
    ensures Fits(w, e, all, start, isolate)
  {
  }

  lemma LogFitsInLarger(w: World, log: seq<Event>, args: seq<Args>, base: nat, all: seq<Args>, start: nat,
                        isolate: bool)
    requires LogFits(w, log, args, base, isolate)
    requires start <= base && base - start + |args| <= |all| && args == all[base - start..base - start + |args|]
    ensures LogFits(w, log, all, start, isolate)
  {
    forall i | 0 <= i < |log| ensures Fits(w, log[i], all, start, isolate) {
      FitsInLarger(w, log[i], args, base, all, start, isolate);
    }
  }

  lemma LogFitsJoin(w: World, a: seq<Event>, b: seq<Event>, args: seq<Args>, base: nat, isolate: bool)
    requires LogFits(w, a, args, base, isolate) && LogFits(w, b, args, base, isolate)
    ensures LogFits(w, a + b, args, base, isolate)
  {
  }

  lemma JoinFits(w: World, a: Reply, argsA: seq<Args>, b: Reply, argsB: seq<Args>, base: nat, isolate: bool, bound: nat)
    requires Sound(w, a, argsA, base, isolate, bound) && Sound(w, b, argsB, base + |argsA|, isolate, bound)
    ensures LogFits(w, Join(a, b).log, argsA + argsB, base, isolate)
    ensures RunsBounded(Join(a, b).log, bound)
  {
    var all := argsA + argsB;
    LogFitsInLarger(w, a.log, argsA, base, all, base, isolate);
    LogFitsInLarger(w, b.log, argsB, base + |argsA|, all, base, isolate);
    LogFitsJoin(w, a.log, b.log, all, base, isolate);
    forall slot: nat ensures RunsAt(a.log + b.log, slot) <= bound {
      RunsAtJoin(a.log, b.log, slot);
      if base <= slot < base + |argsA| {
        NoRunsOutside(w, b.log, argsB, base + |argsA|, isolate, slot);
      } else {
        NoRunsOutside(w, a.log, argsA, base, isolate, slot);
      }
    }
  }

  /** Neighbouring slices compose. */
  lemma JoinSound(w: World, a: Reply, argsA: seq<Args>, b: Reply, argsB: seq<Args>, base: nat, isolate: bool,
                  bound: nat)
    requires Sound(w, a, argsA, base, isolate, bound) && Sound(w, b, argsB, base + |argsA|, isolate, bound)
    ensures Sound(w, Join(a, b), argsA + argsB, base, isolate, bound)
  {
    JoinFits(w, a, argsA, b, argsB, base, isolate, bound);
    var r := Join(a, b);
    forall i | 0 <= i < |argsA + argsB| ensures Explained(r.log, base + i, r.results[i]) {
      if i < |argsA| {
        assert Explained(a.log, base + i, a.results[i]);
      } else {
        assert Explained(b.log, base + |argsA| + (i - |argsA|), b.results[i - |argsA|]);
      }
      ExplainedInJoin(a.log, b.log, base + i, r.results[i]);
    }
  }

  lemma NothingSound(w: World, base: nat, isolate: bool, bound: nat)
    ensures Sound(w, NOTHING, [], base, isolate, bound)
  {
  }

  // ---- the tree ------------------------------------------------------------------------

  function Pow5(n: nat): (p: nat)
    ensures p >= 1
  {
    if n == 0 then 1 else 5 * Pow5(n - 1)
  }

  /** No RPC throws and no job fails in a way that looks transient. */
  ghost predicate Calm(w: World) {
    && (forall path :: w.rpc(path).Delivered?)
    && (forall path, job, slot, flag :: w.run(path, job, slot, flag).Failed? ==>
          !w.transient(w.run(path, job, slot, flag).error))
  }

  /** How often one job may run below `hops` RPC hops. */
  ghost function MaxRuns(w: World, hops: nat): (n: nat)
    ensures n >= 1
  {
    if Calm(w) then 1 else Pow5(hops)
  }

  /** RPC hops below the callee. */
  function Hops(call: Call): nat {
    match call
    case LeafBatch(_) => 0
    case SubCoord(depth, _, _) => if depth <= 1 then 1 else depth
  }

  function Isolate(call: Call): bool {
    call.LeafBatch? && call.freshIsolate
  }

  predicate CallFits(call: Call, args: seq<Args>) {
    call.SubCoord? ==> call.branchingFactor > 0 && Sum(call.childSizes) == |args|
  }

  /** What an invocation returns: results of all jobs, or an error one of its RPCs threw. */
  ghost predicate EndingExplained(ending: Ending, log: seq<Event>, args: seq<Args>, base: nat) {
    match ending
    case Returned(results) => |results| == |args| && AllExplained(log, base, results)
    case Thrown(error) => AllExplained(log, base, AllFailed(error, |args|))
    case Exhausted => false
  }

  ghost predicate AnswerSound(w: World, a: Answer, args: seq<Args>, base: nat, isolate: bool, bound: nat) {
    && LogFits(w, a.log, args, base, isolate)
    && RunsBounded(a.log, bound)
    && EndingExplained(a.ending, a.log, args, base)
  }

  lemma FillInSound(w: World, a: Answer, args: seq<Args>, base: nat, isolate: bool, bound: nat, exhausted: Error)
    requires AnswerSound(w, a, args, base, isolate, bound)
    ensures Sound(w, FillIn(a, |args|, exhausted), args, base, isolate, bound)
  {
    match a.ending
    case Returned(_) =>
    case Thrown(error) => assert FillIn(a, |args|, exhausted).results == AllFailed(error, |args|);
  }

  lemma {:induction false} RunBatchSound(w: World, path: Path, args: seq<Args>, base: nat, isolate: bool)
    ensures Sound(w, RunBatch(w, path, args, base, isolate), args, base, isolate, 1)
  {
    var r := RunBatch(w, path, args, base, isolate);
    forall i | 0 <= i < |args| ensures Explained(r.log, base + i, r.results[i]) {
      assert Explains(r.log[i], base + i, r.results[i]);
    }
    forall slot: nat ensures RunsAt(r.log, slot) <= 1 {
      BatchRunsOnce(r.log, base, slot);
    }
  }

  lemma {:induction false} BatchRunsOnce(log: seq<Event>, base: nat, slot: nat)
    requires forall i :: 0 <= i < |log| ==> log[i].Ran? && log[i].slot == base + i
    ensures RunsAt(log, slot) == if base <= slot < base + |log| then 1 else 0
  {
    if log != [] {
      BatchRunsOnce(log[..|log| - 1], base, slot);
    }
  }

  lemma {:induction false} PartFits(w: World, log: seq<Event>, happened: nat -> bool, n: nat, args: seq<Args>,
                                    base: nat, isolate: bool)
    requires LogFits(w, log, args, base, isolate) && n <= |log|
    ensures LogFits(w, Part(log, happened, n), args, base, isolate)
  {
    if n > 0 {
      PartFits(w, log, happened, n - 1, args, base, isolate);
    }
  }

  lemma RunsAtNext(log: seq<Event>, e: Event, slot: nat)
    ensures RunsAt(log + [e], slot) == RunsAt(log, slot) + if e.Ran? && e.slot == slot then 1 else 0
  {
    assert (log + [e])[..|log|] == log;
  }

  /** A lost call leaves exactly those of its events behind that took place. */
  lemma {:induction false} PartIsWhatHappened(log: seq<Event>, happened: nat -> bool, n: nat, e: Event)
    requires n <= |log|
    ensures e in Part(log, happened, n) <==> exists i: nat :: i < n && happened(i) && log[i] == e
  {
    if n > 0 {
      PartIsWhatHappened(log, happened, n - 1, e);
    }
  }

  lemma {:induction false} PartRunsLess(log: seq<Event>, happened: nat -> bool, n: nat, slot: nat)
    requires n <= |log|
    ensures RunsAt(Part(log, happened, n), slot) <= RunsAt(log[..n], slot)
  {
    if n > 0 {
      PartRunsLess(log, happened, n - 1, slot);
      var before, last := Part(log, happened, n - 1), log[n - 1];
      assert log[..n] == log[..n - 1] + [last];
      RunsAtNext(log[..n - 1], last, slot);
      if happened(n - 1) {
        RunsAtNext(before, last, slot);
      } else {
        assert before + [] == before;
      }
    }
  }

  lemma ThrowLog(w: World, path: Path, done: seq<Event>, args: seq<Args>, base: nat, isolate: bool, bound: nat,
                 error: Error)
    requires LogFits(w, done, args, base, isolate) && RunsBounded(done, bound)
    requires w.rpc(path).Threw? && w.rpc(path).error == error
    ensures AnswerSound(w, Answer(Thrown(error), done + [RpcThrew(path, base, |args|, error)]), args, base, isolate,
                        bound)
  {
    var threw := RpcThrew(path, base, |args|, error);
    LogFitsJoin(w, done, [threw], args, base, isolate);
    forall slot: nat ensures RunsAt(done + [threw], slot) <= bound {
      RunsAtJoin(done, [threw], slot);
    }
    var failed := AllFailed(error, |args|);
    forall i | 0 <= i < |failed| ensures Explained(done + [threw], base + i, failed[i]) {
      assert Explains((done + [threw])[|done|], base + i, failed[i]);
    }
  }

  lemma {:induction false} AttemptSound(w: World, path: Path, call: Call, args: seq<Args>, base: nat)
    requires CallFits(call, args)
    ensures AnswerSound(w, Attempt(w, path, call, args, base), args, base, Isolate(call), MaxRuns(w, Hops(call)))
    decreases Rank(call), 2, 0
  {
    ServeSound(w, path, call, args, base);
    match w.rpc(path)
    case Delivered =>
    case Threw(error, happened) =>
      var log := Serve(w, path, call, args, base).log;
      var done := Part(log, happened, |log|);
      PartFits(w, log, happened, |log|, args, base, Isolate(call));
      forall slot: nat ensures RunsAt(done, slot) <= MaxRuns(w, Hops(call)) {
        PartRunsLess(log, happened, |log|, slot);
        assert log[..|log|] == log;
      }
      ThrowLog(w, path, done, args, base, Isolate(call), MaxRuns(w, Hops(call)), error);
  }

  /** What is left of the retry budget at attempt `k`. */
  function Budget(bound: nat, k: nat): nat
    decreases if k > MAX_TRANSIENT_RETRIES then 0 else MAX_TRANSIENT_RETRIES + 1 - k
  {
    if k > MAX_TRANSIENT_RETRIES then 0 else bound + Budget(bound, k + 1)
  }

  lemma FullBudget(bound: nat)
    ensures Budget(bound, 0) == 5 * bound
  {
    assert Budget(bound, 3) == bound + bound;
    assert Budget(bound, 1) == bound + bound + Budget(bound, 3);
  }

  lemma EndingInLongerLog(ending: Ending, earlier: seq<Event>, log: seq<Event>, args: seq<Args>, base: nat)
    requires EndingExplained(ending, log, args, base)
    ensures EndingExplained(ending, earlier + log, args, base)
  {
    var results := if ending.Returned? then ending.results else AllFailed(ending.error, |args|);
    forall i | 0 <= i < |results| ensures Explained(earlier + log, base + i, results[i]) {
      ExplainedInJoin(earlier, log, base + i, results[i]);
    }
  }

  lemma RetrySound(w: World, a: Answer, later: Answer, args: seq<Args>, base: nat, isolate: bool, bound: nat, rest: nat)
    requires AnswerSound(w, a, args, base, isolate, bound) && AnswerSound(w, later, args, base, isolate, rest)
    ensures AnswerSound(w, Answer(later.ending, a.log + later.log), args, base, isolate, bound + rest)
  {
    LogFitsJoin(w, a.log, later.log, args, base, isolate);
    EndingInLongerLog(later.ending, a.log, later.log, args, base);
    forall slot: nat ensures RunsAt(a.log + later.log, slot) <= bound + rest {
      RunsAtJoin(a.log, later.log, slot);
    }
  }

  /** What looks retryable is either a throw or a transient failure, so it is not calm. */
  lemma CalmNeverRetries(w: World, a: Answer, args: seq<Args>, base: nat, isolate: bool, bound: nat, k: nat)
    requires Calm(w) && AnswerSound(w, a, args, base, isolate, bound) && args != []
    ensures !Retryable(w, a.ending, k)
  {
    var results := if a.ending.Returned? then a.ending.results else AllFailed(a.ending.error, |args|);
    forall i | 0 <= i < |results|
      ensures !(results[i].Failed? && w.transient(results[i].error))
    {
      assert Explained(a.log, base + i, results[i]);
      var j :| 0 <= j < |a.log| && Explains(a.log[j], base + i, results[i]);
      assert Fits(w, a.log[j], args, base, isolate);
    }
    assert |results| > 0 && !(results[0].Failed? && w.transient(results[0].error));
  }

  ghost function MaxRunsFrom(w: World, hops: nat, k: nat): nat {
    if Calm(w) then 1 else Budget(Pow5(hops), k)
  }

  /** The retries multiply the runs by at most five, and the loop always ends inside. */
  lemma {:induction false} InvokeSound(w: World, path: Path, call: Call, args: seq<Args>, base: nat, k: nat)
    requires CallFits(call, args) && k <= MAX_TRANSIENT_RETRIES && args != []
    ensures AnswerSound(w, Invoke(w, path, call, args, base, k), args, base, Isolate(call),
                        MaxRunsFrom(w, Hops(call), k))
    decreases Rank(call), 3, MAX_TRANSIENT_RETRIES + 1 - k
  {
    var a := Attempt(w, path + [k], call, args, base);
    AttemptSound(w, path + [k], call, args, base);
    if Calm(w) {
      CalmNeverRetries(w, a, args, base, Isolate(call), MaxRuns(w, Hops(call)), k);
    } else if Retryable(w, a.ending, k) {
      InvokeSound(w, path, call, args, base, k + 1);
      RetrySound(w, a, Invoke(w, path, call, args, base, k + 1), args, base, Isolate(call),
                 Pow5(Hops(call)), Budget(Pow5(Hops(call)), k + 1));
    } else {
      var bound := Pow5(Hops(call));
      assert Budget(bound, k) == bound + Budget(bound, k + 1);
    }
  }

  /** An invocation, filled in: five times the bound of its callee. */
  lemma InvocationSound(w: World, path: Path, call: Call, args: seq<Args>, base: nat, exhausted: Error)
    requires CallFits(call, args) && args != []
    ensures Sound(w, FillIn(Invoke(w, path, call, args, base, 0), |args|, exhausted), args, base, Isolate(call),
                  MaxRuns(w, Hops(call) + 1))
    decreases Rank(call), 3, MAX_TRANSIENT_RETRIES + 2
  {
    InvokeSound(w, path, call, args, base, 0);
    FullBudget(MaxRuns(w, Hops(call)));
    FillInSound(w, Invoke(w, path, call, args, base, 0), args, base, Isolate(call), MaxRuns(w, Hops(call) + 1),
                exhausted);
  }

  lemma {:induction false} ServeSound(w: World, path: Path, call: Call, args: seq<Args>, base: nat)
    requires CallFits(call, args)
    ensures Sound(w, Serve(w, path, call, args, base), args, base, Isolate(call), MaxRuns(w, Hops(call)))
    decreases Rank(call), 1, 0
  {
    match call
    case LeafBatch(isolate) => RunBatchSound(w, path, args, base, isolate);
    case SubCoord(depth, sizes, f) =>
      ServeSlicesSound(w, path, depth, sizes, f, args, base, |sizes|);
      assert args[..|args|] == args;
  }

  function SliceHops(depth: nat): nat {
    if depth <= 1 then 1 else depth
  }

  lemma {:induction false} ServeSlicesSound(w: World, path: Path, depth: nat, sizes: seq<nat>, f: nat,
                                           args: seq<Args>, base: nat, n: nat)
    requires f > 0 && n <= |sizes| && Offset(sizes, n) <= |args|
    ensures Sound(w, ServeSlices(w, path, depth, sizes, f, args, base, n), args[..Offset(sizes, n)], base, false,
                  MaxRuns(w, SliceHops(depth)))
    decreases depth + 1, 0, n + 1
  {
    if n == 0 {
      NothingSound(w, base, false, MaxRuns(w, SliceHops(depth)));
      assert args[..0] == [];
    } else {
      var from, to := Offset(sizes, n - 1), Offset(sizes, n);
      ServeSlicesSound(w, path, depth, sizes, f, args, base, n - 1);
      ServeSliceSound(w, path + [n - 1], depth, f, args[from..to], base + from);
      JoinSound(w, ServeSlices(w, path, depth, sizes, f, args, base, n - 1), args[..from],
                ServeNth(w, path, depth, sizes, f, args, base, n - 1), args[from..to], base, false,
                MaxRuns(w, SliceHops(depth)));
      assert args[..from] + args[from..to] == args[..to];
    }
  }

  lemma {:induction false} ServeSliceSound(w: World, path: Path, depth: nat, f: nat, slice: seq<Args>, base: nat)
    requires f > 0
    ensures Sound(w, ServeSlice(w, path, depth, f, slice, base), slice, base, false, MaxRuns(w, SliceHops(depth)))
    decreases depth + 1, 0, 0
  {
    if slice == [] {
      NothingSound(w, base, false, MaxRuns(w, SliceHops(depth)));
    } else if depth <= 1 {
      HybridLeafSound(w, path, slice, base, |slice|);
      assert slice[..|slice|] == slice;
    } else {
      FillSum(|slice|, f);
      var call := SubCoord(depth - 1, Refill(|slice|, f), f);
      InvocationSound(w, path, call, slice, base, "sub-coord retry exhausted");
      assert Hops(call) + 1 == SliceHops(depth);
    }
  }

  lemma {:induction false} HybridLeafSound(w: World, path: Path, slice: seq<Args>, base: nat, n: nat)
    requires n <= |slice|
    ensures Sound(w, HybridLeaf(w, path, slice, base, n), slice[..n], base, false, MaxRuns(w, 1))
    decreases 0, 4, n
  {
    if n == 0 {
      NothingSound(w, base, false, MaxRuns(w, 1));
      assert slice[..0] == [];
    } else {
      HybridLeafSound(w, path, slice, base, n - 1);
      InvocationSound(w, path + [n - 1], LeafBatch(false), [slice[n - 1]], base + (n - 1), "leaf retry exhausted");
      JoinSound(w, HybridLeaf(w, path, slice, base, n - 1), slice[..n - 1],
                JobLeaf(w, path + [n - 1], slice[n - 1], base + (n - 1)), [slice[n - 1]], base, false, MaxRuns(w, 1));
      assert slice[..n - 1] + [slice[n - 1]] == slice[..n];
    }
  }

  // ---- the root ------------------------------------------------------------------------

  lemma RootChildSound(w: World, i: nat, call: Call, slice: seq<Args>, base: nat, exhausted: Error)
    requires CallFits(call, slice)
    ensures Sound(w, RootChild(w, i, call, slice, base, exhausted), slice, base, Isolate(call),
                  MaxRuns(w, Hops(call) + 1))
  {
    if slice == [] {
      NothingSound(w, base, Isolate(call), MaxRuns(w, Hops(call) + 1));
    } else {
      InvocationSound(w, [i], call, slice, base, exhausted);
    }
  }

  lemma {:induction false} RootLeavesSound(w: World, shape: seq<nat>, args: seq<Args>, isolate: bool, n: nat)
    requires n <= |shape| && Offset(shape, n) <= |args|
    ensures Sound(w, RootLeaves(w, shape, args, isolate, n), args[..Offset(shape, n)], 0, isolate, MaxRuns(w, 1))
  {
    if n == 0 {
      NothingSound(w, 0, isolate, MaxRuns(w, 1));
      assert args[..0] == [];
    } else {
      var from, to := Offset(shape, n - 1), Offset(shape, n);
      RootLeavesSound(w, shape, args, isolate, n - 1);
      RootChildSound(w, n - 1, LeafBatch(isolate), args[from..to], from, "invokeLeafBatchWithRetry: exhausted retries");
      JoinSound(w, RootLeaves(w, shape, args, isolate, n - 1), args[..from], RootLeaf(w, shape, args, isolate, n - 1),
                args[from..to], 0, isolate, MaxRuns(w, 1));
      assert args[..from] + args[from..to] == args[..to];
    }
  }

  /** The sizes sent along with a slice are those of the plan below it. */
  lemma RootCallFits(p: Plan, m: nat, i: nat, slice: seq<Args>)
    requires Balanced(p, m) && p.Tree? && i < |p.children| && |slice| == p.children[i].size
    ensures CallFits(RootCall(p, i), slice)
  {
    var child := p.children[i];
    if child.Hybrid? {
      OnesOffset(child.size, child.size);
    }
  }

  function TreeHops(p: Plan): nat
    requires p.Tree?
  {
    if p.depth <= 2 then 2 else p.depth
  }

  ghost predicate SubSound(w: World, p: Plan, args: seq<Args>, i: nat)
    requires p.Tree? && i < |p.children|
  {
    && Offset(ChildSizes(p), i) <= Offset(ChildSizes(p), i + 1) <= |args|
    && SliceOf(args, ChildSizes(p), i) == args[Offset(ChildSizes(p), i)..Offset(ChildSizes(p), i + 1)]
    && Sound(w, RootSub(w, p, args, i), SliceOf(args, ChildSizes(p), i), Offset(ChildSizes(p), i),
             false, MaxRuns(w, TreeHops(p)))
  }

  lemma RootSubSound(w: World, p: Plan, m: nat, args: seq<Args>, i: nat)
    requires Balanced(p, m) && p.Tree? && i < |p.children| && Offset(ChildSizes(p), i + 1) <= |args|
    ensures SubSound(w, p, args, i)
  {
    var slice := SliceOf(args, ChildSizes(p), i);
    RootCallFits(p, m, i, slice);
    RootChildSound(w, i, RootCall(p, i), slice, Offset(ChildSizes(p), i), "sub-coord retry exhausted");
  }

  lemma {:induction false} RootSubsSound(w: World, p: Plan, args: seq<Args>, n: nat)
    requires p.Tree? && n <= |p.children| && Sum(ChildSizes(p)) == |args|
    requires forall i :: 0 <= i < |p.children| ==> SubSound(w, p, args, i)
    ensures Offset(ChildSizes(p), n) <= |args|
    ensures Sound(w, RootSubs(w, p, args, n), args[..Offset(ChildSizes(p), n)], 0, false, MaxRuns(w, TreeHops(p)))
    decreases n
  {
    var sizes, bound := ChildSizes(p), MaxRuns(w, TreeHops(p));
    if n == 0 {
      NothingSound(w, 0, false, bound);
      assert args[..0] == [];
    } else {
      var from, to := Offset(sizes, n - 1), Offset(sizes, n);
      RootSubsSound(w, p, args, n - 1);
      assert SubSound(w, p, args, n - 1);
      JoinSound(w, RootSubs(w, p, args, n - 1), args[..from], RootSub(w, p, args, n - 1), args[from..to], 0, false,
                bound);
      assert args[..from] + args[from..to] == args[..to];
    }
  }

  lemma TreeSound(w: World, p: Plan, m: nat, args: seq<Args>)
    requires Balanced(p, m) && p.Tree? && p.size == |args|
    ensures Sound(w, RootSubs(w, p, args, |p.children|), args, 0, false, MaxRuns(w, TreeHops(p)))
  {
    forall i | 0 <= i < |p.children|
      ensures SubSound(w, p, args, i)
    {
      OffsetGrows(ChildSizes(p), i + 1, |p.children|);
      RootSubSound(w, p, m, args, i);
    }
    RootSubsSound(w, p, args, |p.children|);
    assert args[..|args|] == args;
  }

  function PlanHops(p: Plan): nat {
    match p
    case InDo(_) => 0
    case Hybrid(_, _) => 1
    case Tree(_, _, _, _) => TreeHops(p)
  }

  lemma DispatchSound(w: World, p: Plan, m: nat, args: seq<Args>, isolate: bool)
    requires p.size == |args| && (p.InDo? ==> |args| <= 1) && (p.Hybrid? ==> p.leafShape == Ones(|args|))
    requires p.Tree? ==> Balanced(p, m) && p.Tree?
    ensures var o := DispatchPlan(w, p, args, isolate);
            o.Done? && o.plan == p && Sound(w, o.reply, args, 0, isolate && !p.Tree?, MaxRuns(w, PlanHops(p)))
  {
    assert args[..|args|] == args;
    match p
    case InDo(size) =>
      if size == 0 {
        NothingSound(w, 0, isolate, MaxRuns(w, 0));
      } else {
        assert [args[0]] == args;
        RunBatchSound(w, [], args, 0, isolate);
      }
    case Hybrid(_, shape) =>
      OnesOffset(|args|, |args|);
      RootLeavesSound(w, shape, args, isolate, |shape|);
    case Tree(_, _, _, _) =>
      TreeSound(w, p, m, args);
  }

  /** The main result. For every number of jobs, every selector that is not refused and
      every behaviour of RPCs and jobs: as many results as jobs, in order, each the
      result of a run of that job at its own slot or the error of an RPC that carried
      it; no job runs anywhere else, and none more often than five times per hop. Trees
      forget `freshIsolate`. */
  lemma FanOutIsSound(w: World, args: seq<Args>, opts: Selector, isolate: bool)
    ensures var o := RunMany(w, args, opts, isolate);
            && !o.Bug?
            && (o.Rejected? <==> args != [] && SelectTopology(|args|, opts).Refused?)
            && (o.Done? ==> Sound(w, o.reply, args, 0, isolate && !o.plan.Tree?, MaxRuns(w, PlanHops(o.plan))))
  {
    if args == [] {
      NothingSound(w, 0, isolate, MaxRuns(w, 0));
    } else if SelectTopology(|args|, opts).Selected? {
      var p := SelectTopology(|args|, opts).plan;
      SelectedPlanIsLossless(|args|, opts);
      DispatchSound(w, p, opts.maxFanOut.UnwrapOr(DEFAULT_MAX_FAN_OUT), args, isolate);
    }
  }

  // ---- what it means --------------------------------------------------------------------

  /** `f` is what running a job at a slot gives, whichever leaf and attempt it is. */
  ghost predicate Computes(w: World, isolate: bool, f: (Args, nat) -> RunResult) {
    forall path, job, slot :: w.run(path, job, slot, isolate) == f(job, slot)
  }

  /** An RPC carrying the slot threw this error. */
  ghost predicate LostInTransit(w: World, log: seq<Event>, slot: nat, error: Error) {
    exists i :: 0 <= i < |log| && log[i].RpcThrew? && log[i].base <= slot < log[i].base + log[i].count
                && log[i].error == error && w.rpc(log[i].path).Threw? && w.rpc(log[i].path).error == error
  }

  /** A distributed fan-out of a function is its sequential map, except where an RPC
      threw. */
  lemma FanOutIsMap(w: World, args: seq<Args>, opts: Selector, isolate: bool, f: (Args, nat) -> RunResult, i: nat)
    requires RunMany(w, args, opts, isolate).Done? && i < |args|
    requires Computes(w, true, f) && Computes(w, false, f)
    ensures var r := RunMany(w, args, opts, isolate).reply;
            && |r.results| == |args|
            && (|| r.results[i] == f(args[i], i)
                || (r.results[i].Failed? && LostInTransit(w, r.log, i, r.results[i].error)))
  {
    FanOutIsSound(w, args, opts, isolate);
    var o := RunMany(w, args, opts, isolate);
    var flag := isolate && !o.plan.Tree?;
    assert Explained(o.reply.log, 0 + i, o.reply.results[i]);
    var j :| 0 <= j < |o.reply.log| && Explains(o.reply.log[j], i, o.reply.results[i]);
    assert Fits(w, o.reply.log[j], args, 0, flag);
  }

  lemma {:induction false} RunIsCounted(log: seq<Event>, i: nat)
    requires i < |log| && log[i].Ran?
    ensures RunsAt(log, log[i].slot) >= 1
  {
    if i < |log| - 1 {
      RunIsCounted(log[..|log| - 1], i);
    }
  }

  /** With no failures every job runs exactly once. */
  lemma CalmRunsOnce(w: World, args: seq<Args>, opts: Selector, isolate: bool, i: nat)
    requires Calm(w) && RunMany(w, args, opts, isolate).Done? && i < |args|
    ensures RunsAt(RunMany(w, args, opts, isolate).reply.log, i) == 1
  {
    FanOutIsSound(w, args, opts, isolate);
    var o := RunMany(w, args, opts, isolate);
    assert Explained(o.reply.log, 0 + i, o.reply.results[i]);
    var j :| 0 <= j < |o.reply.log| && Explains(o.reply.log[j], i, o.reply.results[i]);
    assert Fits(w, o.reply.log[j], args, 0, isolate && !o.plan.Tree?);
    RunIsCounted(o.reply.log, j);
  }

  // ---- attempts -------------------------------------------------------------------------

  /** Attempt `k` is followed by another one. */
  predicate IsRetried(w: World, path: Path, call: Call, args: seq<Args>, base: nat, k: nat) {
    Retryable(w, Attempt(w, path + [k], call, args, base).ending, k)
  }

  /** The attempt that ends the loop: the first that is not retryable. */
  function LastAttempt(w: World, path: Path, call: Call, args: seq<Args>, base: nat, k: nat): nat
    decreases if k > MAX_TRANSIENT_RETRIES then 0 else MAX_TRANSIENT_RETRIES + 1 - k
  {
    if k <= MAX_TRANSIENT_RETRIES && IsRetried(w, path, call, args, base, k)
    then LastAttempt(w, path, call, args, base, k + 1) else k
  }

  lemma RetriedBelow(w: World, path: Path, call: Call, args: seq<Args>, base: nat, k: nat)
    requires IsRetried(w, path, call, args, base, k)
    ensures k < MAX_TRANSIENT_RETRIES
  {
  }

  lemma NotTheLast(w: World, path: Path, call: Call, args: seq<Args>, base: nat, k: nat)
    requires k < LastAttempt(w, path, call, args, base, k)
    ensures k < MAX_TRANSIENT_RETRIES && IsRetried(w, path, call, args, base, k)
    ensures LastAttempt(w, path, call, args, base, k) == LastAttempt(w, path, call, args, base, k + 1)
  {
    RetriedBelow(w, path, call, args, base, k);
  }

  /** Every attempt before the last was retryable. */
  lemma {:induction false} EarlierAttemptsWereRetryable(w: World, path: Path, call: Call, args: seq<Args>, base: nat,
                                                        k: nat, j: nat)
    requires k <= j < LastAttempt(w, path, call, args, base, k)
    ensures j < MAX_TRANSIENT_RETRIES && IsRetried(w, path, call, args, base, j)
    decreases j - k
  {
    NotTheLast(w, path, call, args, base, k);
    if k < j {
      EarlierAttemptsWereRetryable(w, path, call, args, base, k + 1, j);
    }
  }

  /** There are at most five attempts, and the last is not retryable. */
  lemma {:induction false} AttemptsAreBounded(w: World, path: Path, call: Call, args: seq<Args>, base: nat, k: nat)
    requires k <= MAX_TRANSIENT_RETRIES
    ensures var last := LastAttempt(w, path, call, args, base, k);
            k <= last <= MAX_TRANSIENT_RETRIES && !IsRetried(w, path, call, args, base, last)
    decreases MAX_TRANSIENT_RETRIES - k
  {
    if IsRetried(w, path, call, args, base, k) {
      RetriedBelow(w, path, call, args, base, k);
      AttemptsAreBounded(w, path, call, args, base, k + 1);
    }
  }

  lemma InvokeUnfolds(w: World, path: Path, call: Call, args: seq<Args>, base: nat, k: nat)
    requires k <= MAX_TRANSIENT_RETRIES
    ensures Invoke(w, path, call, args, base, k).ending ==
            if IsRetried(w, path, call, args, base, k) then Invoke(w, path, call, args, base, k + 1).ending
            else Attempt(w, path + [k], call, args, base).ending
  {
  }

  lemma FinalAttemptEnds(w: World, path: Path, call: Call, args: seq<Args>, base: nat, k: nat)
    requires k <= MAX_TRANSIENT_RETRIES && !IsRetried(w, path, call, args, base, k)
    ensures !Attempt(w, path + [k], call, args, base).ending.Exhausted?
  {
  }

  /** The caller gets the ending of the last attempt; the exhausted tail is never reached. */
  lemma {:induction false} LastAttemptDecides(w: World, path: Path, call: Call, args: seq<Args>, base: nat, k: nat)
    requires k <= MAX_TRANSIENT_RETRIES
    ensures Invoke(w, path, call, args, base, k).ending ==
            Attempt(w, path + [LastAttempt(w, path, call, args, base, k)], call, args, base).ending
    ensures !Invoke(w, path, call, args, base, k).ending.Exhausted?
    decreases MAX_TRANSIENT_RETRIES - k
  {
    InvokeUnfolds(w, path, call, args, base, k);
    if IsRetried(w, path, call, args, base, k) {
      RetriedBelow(w, path, call, args, base, k);
      LastAttemptDecides(w, path, call, args, base, k + 1);
    } else {
      FinalAttemptEnds(w, path, call, args, base, k);
    }
  }

  /** A thrown error that is not transient is the last thing tried. */
  lemma OtherErrorsAreNotRetried(w: World, path: Path, call: Call, args: seq<Args>, base: nat, k: nat)
    requires k <= LastAttempt(w, path, call, args, base, 0)
    requires w.rpc(path + [k]).Threw? && !w.transient(w.rpc(path + [k]).error)
    ensures k == LastAttempt(w, path, call, args, base, 0)
    ensures Invoke(w, path, call, args, base, 0).ending == Thrown(w.rpc(path + [k]).error)
  {
    LastAttemptDecides(w, path, call, args, base, 0);
    if k < LastAttempt(w, path, call, args, base, 0) {
      EarlierAttemptsWereRetryable(w, path, call, args, base, 0, k);
      assert false;
    }
  }
}
