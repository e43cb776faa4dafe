/** The retries of a tree multiply: the bound on the runs of one job is reached. */
module TreeRetries {
  import opened Topology
  import opened TreeDispatch
  import opened TreeSoundness

  /** Every call does its work and is then lost with a transient error. */
  ghost predicate LosesEverything(w: World) {
    forall path :: w.rpc(path).Threw? && w.transient(w.rpc(path).error) && forall i :: w.rpc(path).happened(i)
  }

  /** Each slot of the slice runs `times` times. */
  ghost predicate RunsEach(log: seq<Event>, base: nat, count: nat, times: nat) {
    forall slot :: base <= slot < base + count ==> RunsAt(log, slot) == times
  }

  /** Neighbouring slices do not run each other's jobs. */
  lemma JoinRunsEach(w: World, a: Reply, argsA: seq<Args>, b: Reply, argsB: seq<Args>, base: nat,
                     isolate: bool, bound: nat, times: nat)
    requires Sound(w, a, argsA, base, isolate, bound) && Sound(w, b, argsB, base + |argsA|, isolate, bound)
    requires RunsEach(a.log, base, |argsA|, times) && RunsEach(b.log, base + |argsA|, |argsB|, times)
    ensures RunsEach(Join(a, b).log, base, |argsA| + |argsB|, times)
  {
    forall slot | base <= slot < base + |argsA| + |argsB| ensures RunsAt(a.log + b.log, slot) == times {
      RunsAtJoin(a.log, b.log, slot);
      if slot < base + |argsA| {
        NoRunsOutside(w, b.log, argsB, base + |argsA|, isolate, slot);
      } else {
        NoRunsOutside(w, a.log, argsA, base, isolate, slot);
      }
    }
  }

  lemma {:induction false} WholePart(log: seq<Event>, happened: nat -> bool, n: nat)
    requires n <= |log| && forall i :: happened(i)
    ensures Part(log, happened, n) == log[..n]
  {
    if n > 0 {
      WholePart(log, happened, n - 1);
      assert log[..n] == log[..n - 1] + [log[n - 1]];
    }
  }

  lemma {:induction false} AttemptRuns(w: World, path: Path, call: Call, args: seq<Args>, base: nat)
    requires LosesEverything(w) && CallFits(call, args)
    ensures RunsEach(Attempt(w, path, call, args, base).log, base, |args|, Pow5(Hops(call)))
    ensures Attempt(w, path, call, args, base).ending == Thrown(w.rpc(path).error)
    decreases Rank(call), 2, 0
  {
    ServeRuns(w, path, call, args, base);
    var full := Serve(w, path, call, args, base).log;
    WholePart(full, w.rpc(path).happened, |full|);
    assert full[..|full|] == full;
    var done, threw := Serve(w, path, call, args, base).log, [RpcThrew(path, base, |args|, w.rpc(path).error)];
    forall slot | base <= slot < base + |args| ensures RunsAt(done + threw, slot) == Pow5(Hops(call)) {
      RunsAtJoin(done, threw, slot);
      assert RunsAt(threw, slot) == RunsAt(threw[..0], slot);
    }
  }

  lemma RunsAddUp(a: seq<Event>, b: seq<Event>, base: nat, count: nat, m: nat, n: nat)
    requires RunsEach(a, base, count, m) && RunsEach(b, base, count, n)
    ensures RunsEach(a + b, base, count, m + n)
  {
    forall slot | base <= slot < base + count ensures RunsAt(a + b, slot) == m + n {
      RunsAtJoin(a, b, slot);
    }
  }

  lemma BudgetStep(bound: nat, k: nat)
    requires k <= MAX_TRANSIENT_RETRIES
    ensures Budget(bound, k) == bound + if k < MAX_TRANSIENT_RETRIES then Budget(bound, k + 1) else 0
  {
  }

  /** One attempt after another, all of them lost. */
  lemma LostAttemptIsRetried(w: World, path: Path, call: Call, args: seq<Args>, base: nat, k: nat)
    requires LosesEverything(w) && CallFits(call, args) && k <= MAX_TRANSIENT_RETRIES
    requires Attempt(w, path + [k], call, args, base).ending == Thrown(w.rpc(path + [k]).error)
    ensures Invoke(w, path, call, args, base, k).log == Attempt(w, path + [k], call, args, base).log +
            if k < MAX_TRANSIENT_RETRIES then Invoke(w, path, call, args, base, k + 1).log else []
  {
  }

  /** A lost attempt adds its runs to those of the attempts after it. */
  lemma InvokeAddsUp(w: World, path: Path, here: Path, call: Call, args: seq<Args>, base: nat, k: nat, bound: nat,
                     later: nat)
    requires LosesEverything(w) && CallFits(call, args) && k <= MAX_TRANSIENT_RETRIES && here == path + [k]
    requires Attempt(w, here, call, args, base).ending == Thrown(w.rpc(here).error)
    requires RunsEach(Attempt(w, here, call, args, base).log, base, |args|, bound)
    requires k < MAX_TRANSIENT_RETRIES ==> RunsEach(Invoke(w, path, call, args, base, k + 1).log, base, |args|, later)
    requires k == MAX_TRANSIENT_RETRIES ==> later == 0
    ensures RunsEach(Invoke(w, path, call, args, base, k).log, base, |args|, bound + later)
  {
    var first := Attempt(w, here, call, args, base).log;
    var rest := if k < MAX_TRANSIENT_RETRIES then Invoke(w, path, call, args, base, k + 1).log else [];
    LostAttemptIsRetried(w, path, call, args, base, k);
    RunsAddUp(first, rest, base, |args|, bound, later);
  }

  lemma {:induction false} InvokeRuns(w: World, path: Path, call: Call, args: seq<Args>, base: nat, k: nat)
    requires LosesEverything(w) && CallFits(call, args) && k <= MAX_TRANSIENT_RETRIES
    ensures RunsEach(Invoke(w, path, call, args, base, k).log, base, |args|, Budget(Pow5(Hops(call)), k))
    decreases Rank(call), 3, MAX_TRANSIENT_RETRIES + 1 - k
  {
    var bound := Pow5(Hops(call));
    var here := path + [k];
    AttemptRuns(w, here, call, args, base);
    BudgetStep(bound, k);
    if k < MAX_TRANSIENT_RETRIES {
      InvokeRuns(w, path, call, args, base, k + 1);
      InvokeAddsUp(w, path, here, call, args, base, k, bound, Budget(bound, k + 1));
    } else {
      InvokeAddsUp(w, path, here, call, args, base, k, bound, 0);
    }
  }

  /** Under such an environment a call costs every job exactly five times what its callee
      costs: the bound of five to the number of hops is met. */
  lemma RetriesMultiply(w: World, path: Path, call: Call, args: seq<Args>, base: nat, exhausted: Error)
    requires LosesEverything(w) && CallFits(call, args)
    ensures RunsEach(FillIn(Invoke(w, path, call, args, base, 0), |args|, exhausted).log, base, |args|,
                     Pow5(Hops(call) + 1))
    decreases Rank(call), 3, MAX_TRANSIENT_RETRIES + 2
  {
    InvokeRuns(w, path, call, args, base, 0);
    FullBudget(Pow5(Hops(call)));
  }

  lemma {:induction false} ServeRuns(w: World, path: Path, call: Call, args: seq<Args>, base: nat)
    requires LosesEverything(w) && CallFits(call, args)
    ensures RunsEach(Serve(w, path, call, args, base).log, base, |args|, Pow5(Hops(call)))
    decreases Rank(call), 1, 0
  {
    match call
    case LeafBatch(isolate) =>
      var log := Serve(w, path, call, args, base).log;
      forall slot | base <= slot < base + |args| ensures RunsAt(log, slot) == 1 {
        BatchRunsOnce(log, base, slot);
      }
    case SubCoord(depth, sizes, f) => ServeSlicesRun(w, path, depth, sizes, f, args, base, |sizes|);
  }

  lemma {:induction false} ServeSlicesRun(w: World, path: Path, depth: nat, sizes: seq<nat>, f: nat,
                                         args: seq<Args>, base: nat, n: nat)
    requires LosesEverything(w) && f > 0 && n <= |sizes| && Offset(sizes, n) <= |args|
    ensures RunsEach(ServeSlices(w, path, depth, sizes, f, args, base, n).log, base, Offset(sizes, n),
                     Pow5(SliceHops(depth)))
    decreases depth + 1, 0, n + 1
  {
    if n > 0 {
      var from, to := Offset(sizes, n - 1), Offset(sizes, n);
      ServeSlicesRun(w, path, depth, sizes, f, args, base, n - 1);
      ServeSlicesSound(w, path, depth, sizes, f, args, base, n - 1);
      ServeSliceRuns(w, path + [n - 1], depth, f, args[from..to], base + from);
      ServeSliceSound(w, path + [n - 1], depth, f, args[from..to], base + from);
      JoinRunsEach(w, ServeSlices(w, path, depth, sizes, f, args, base, n - 1), args[..from],
                   ServeNth(w, path, depth, sizes, f, args, base, n - 1), args[from..to], base, false,
                   MaxRuns(w, SliceHops(depth)), Pow5(SliceHops(depth)));
    }
  }

  lemma {:induction false} ServeSliceRuns(w: World, path: Path, depth: nat, f: nat, slice: seq<Args>, base: nat)
    requires LosesEverything(w) && f > 0
    ensures RunsEach(ServeSlice(w, path, depth, f, slice, base).log, base, |slice|, Pow5(SliceHops(depth)))
    decreases depth + 1, 0, 0
  {
    if slice != [] {
      if depth <= 1 {
        HybridLeafRuns(w, path, slice, base, |slice|);
      } else {
        FillSum(|slice|, f);
        var call := SubCoord(depth - 1, Refill(|slice|, f), f);
        RetriesMultiply(w, path, call, slice, base, "sub-coord retry exhausted");
        assert Hops(call) + 1 == SliceHops(depth);
      }
    }
  }

  lemma {:induction false} HybridLeafRuns(w: World, path: Path, slice: seq<Args>, base: nat, n: nat)
    requires LosesEverything(w) && n <= |slice|
    ensures RunsEach(HybridLeaf(w, path, slice, base, n).log, base, n, Pow5(1))
    decreases 0, 4, n
  {
    if n > 0 {
      HybridLeafRuns(w, path, slice, base, n - 1);
      HybridLeafSound(w, path, slice, base, n - 1);
      RetriesMultiply(w, path + [n - 1], LeafBatch(false), [slice[n - 1]], base + (n - 1), "leaf retry exhausted");
      InvocationSound(w, path + [n - 1], LeafBatch(false), [slice[n - 1]], base + (n - 1), "leaf retry exhausted");
      JoinRunsEach(w, HybridLeaf(w, path, slice, base, n - 1), slice[..n - 1],
                   JobLeaf(w, path + [n - 1], slice[n - 1], base + (n - 1)), [slice[n - 1]], base,
                   false, MaxRuns(w, 1), Pow5(1));
    }
  }

  // ---- the whole fan-out --------------------------------------------------------------------

  lemma RootChildRuns(w: World, i: nat, call: Call, slice: seq<Args>, base: nat, exhausted: Error)
    requires LosesEverything(w) && CallFits(call, slice)
    ensures RunsEach(RootChild(w, i, call, slice, base, exhausted).log, base, |slice|, Pow5(Hops(call) + 1))
  {
    if slice != [] {
      RetriesMultiply(w, [i], call, slice, base, exhausted);
    }
  }

  lemma RootLeafRuns(w: World, shape: seq<nat>, args: seq<Args>, isolate: bool, i: nat)
    requires LosesEverything(w) && i < |shape| && Offset(shape, i + 1) <= |args|
    ensures var from, to := Offset(shape, i), Offset(shape, i + 1);
            && Sound(w, RootLeaf(w, shape, args, isolate, i), args[from..to], from, isolate, MaxRuns(w, 1))
            && RunsEach(RootLeaf(w, shape, args, isolate, i).log, from, to - from, Pow5(1))
  {
    var from, to := Offset(shape, i), Offset(shape, i + 1);
    RootChildRuns(w, i, LeafBatch(isolate), args[from..to], from, "invokeLeafBatchWithRetry: exhausted retries");
    RootChildSound(w, i, LeafBatch(isolate), args[from..to], from, "invokeLeafBatchWithRetry: exhausted retries");
  }

  lemma NextLeafRuns(w: World, shape: seq<nat>, args: seq<Args>, isolate: bool, i: nat, from: nat, end: nat)
    requires LosesEverything(w) && i < |shape| && from == Offset(shape, i) && end == Offset(shape, i + 1) <= |args|
    requires Sound(w, RootLeaves(w, shape, args, isolate, i), args[..from], 0, isolate, MaxRuns(w, 1))
    requires RunsEach(RootLeaves(w, shape, args, isolate, i).log, 0, from, Pow5(1))
    ensures RunsEach(RootLeaves(w, shape, args, isolate, i + 1).log, 0, end, Pow5(1))
  {
    RootLeafRuns(w, shape, args, isolate, i);
    JoinRunsEach(w, RootLeaves(w, shape, args, isolate, i), args[..from], RootLeaf(w, shape, args, isolate, i),
                 args[from..end], 0, isolate, MaxRuns(w, 1), Pow5(1));
  }

  lemma {:induction false} RootLeavesRun(w: World, shape: seq<nat>, args: seq<Args>, isolate: bool, n: nat)
    requires LosesEverything(w) && n <= |shape| && Offset(shape, n) <= |args|
    ensures RunsEach(RootLeaves(w, shape, args, isolate, n).log, 0, Offset(shape, n), Pow5(1))
  {
    if n > 0 {
      RootLeavesRun(w, shape, args, isolate, n - 1);
      RootLeavesSound(w, shape, args, isolate, n - 1);
      NextLeafRuns(w, shape, args, isolate, n - 1, Offset(shape, n - 1), Offset(shape, n));
    }
  }

  ghost predicate SubRuns(w: World, p: Plan, args: seq<Args>, i: nat)
    requires p.Tree? && i < |p.children|
  {
    RunsEach(RootSub(w, p, args, i).log, Offset(ChildSizes(p), i), ChildSizes(p)[i], Pow5(TreeHops(p)))
  }

  lemma RootSubRuns(w: World, p: Plan, m: nat, args: seq<Args>, i: nat)
    requires LosesEverything(w) && Balanced(p, m) && p.Tree? && i < |p.children|
    requires Offset(ChildSizes(p), i + 1) <= |args|
    ensures SubSound(w, p, args, i) && SubRuns(w, p, args, i)
  {
    RootSubSound(w, p, m, args, i);
    var slice := SliceOf(args, ChildSizes(p), i);
    RootCallFits(p, m, i, slice);
    RootChildRuns(w, i, RootCall(p, i), slice, Offset(ChildSizes(p), i), "sub-coord retry exhausted");
  }

  /** The facts about one child, at its place. */
  lemma SubStretch(w: World, p: Plan, args: seq<Args>, i: nat, from: nat, end: nat)
    requires p.Tree? && i < |p.children| && SubRuns(w, p, args, i)
    requires from == Offset(ChildSizes(p), i) && end == Offset(ChildSizes(p), i + 1)
    ensures from <= end && RunsEach(RootSub(w, p, args, i).log, from, end - from, Pow5(TreeHops(p)))
  {
  }

  lemma {:induction false} RootSubsRun(w: World, p: Plan, args: seq<Args>, n: nat)
    requires p.Tree? && n <= |p.children| && Sum(ChildSizes(p)) == |args|
    requires forall i :: 0 <= i < |p.children| ==> SubSound(w, p, args, i)
    requires forall i :: 0 <= i < |p.children| ==> SubRuns(w, p, args, i)
    ensures RunsEach(RootSubs(w, p, args, n).log, 0, Offset(ChildSizes(p), n), Pow5(TreeHops(p)))
    decreases n
  {
    if n > 0 {
      RootSubsRun(w, p, args, n - 1);
      RootSubsSound(w, p, args, n - 1);
      RootSubsSound(w, p, args, n);
      assert SubSound(w, p, args, n - 1) && SubRuns(w, p, args, n - 1);
      NextSubRuns(w, p, args, n - 1, Offset(ChildSizes(p), n - 1), Offset(ChildSizes(p), n));
    }
  }

  lemma NextSubRuns(w: World, p: Plan, args: seq<Args>, i: nat, from: nat, end: nat)
    requires p.Tree? && i < |p.children| && SubRuns(w, p, args, i) && SubSound(w, p, args, i)
    requires from == Offset(ChildSizes(p), i) && end == Offset(ChildSizes(p), i + 1) && from <= |args| && end <= |args|
    requires Sound(w, RootSubs(w, p, args, i), args[..from], 0, false, MaxRuns(w, TreeHops(p)))
    requires RunsEach(RootSubs(w, p, args, i).log, 0, from, Pow5(TreeHops(p)))
    ensures RunsEach(RootSubs(w, p, args, i + 1).log, 0, end, Pow5(TreeHops(p)))
  {
    SubStretch(w, p, args, i, from, end);
    JoinRunsEach(w, RootSubs(w, p, args, i), args[..from], RootSub(w, p, args, i), args[from..end], 0, false,
                 MaxRuns(w, TreeHops(p)), Pow5(TreeHops(p)));
  }

  lemma TreeRuns(w: World, p: Plan, m: nat, args: seq<Args>)
    requires LosesEverything(w) && Balanced(p, m) && p.Tree? && p.size == |args|
    ensures RunsEach(RootSubs(w, p, args, |p.children|).log, 0, |args|, Pow5(TreeHops(p)))
  {
    forall i | 0 <= i < |p.children| ensures SubSound(w, p, args, i) && SubRuns(w, p, args, i) {
      OffsetGrows(ChildSizes(p), i + 1, |p.children|);
      RootSubRuns(w, p, m, args, i);
    }
    RootSubsRun(w, p, args, |p.children|);
  }

  /** The bound of `FanOutIsSound` is the best there is: if every call of a fan-out is
      lost after doing its work, every job runs exactly five to the number of hops. */
  lemma RunBoundIsReached(w: World, args: seq<Args>, opts: Selector, isolate: bool)
    requires LosesEverything(w) && RunMany(w, args, opts, isolate).Done?
    ensures var o := RunMany(w, args, opts, isolate);
            RunsEach(o.reply.log, 0, |args|, Pow5(PlanHops(o.plan)))
  {
    if args != [] {
      SelectedPlanIsLossless(|args|, opts);
      var p, m := SelectTopology(|args|, opts).plan, opts.maxFanOut.UnwrapOr(DEFAULT_MAX_FAN_OUT);
      match p
      case InDo(_) => ServeRuns(w, [], LeafBatch(isolate), [args[0]], 0);
      case Hybrid(_, shape) =>
        OnesOffset(|args|, |args|);
        RootLeavesRun(w, shape, args, isolate, |shape|);
      case Tree(_, _, _, _) => TreeRuns(w, p, m, args);
    }
  }
}
