/** The sub-coordinators split their slices again by themselves. Here: in every run of a
    tree they visit the partition that was planned, and how many leaf calls each of them
    makes, both read off the events of the run. */
module TreePartition {
  import opened Topology
  import opened TreeDispatch
  import opened TreeSoundness
  import opened TreeRoutes

  // ---- the root ----------------------------------------------------------------------------

  /** The sizes a root slice is carved with further down. */
  function RootSizes(p: Plan, i: nat): seq<nat>
    requires p.Tree? && i < |p.children|
  {
    RootCall(p, i).childSizes
  }

  /** The plan and what is sent along with it agree on every slice. */
  ghost predicate Consistent(p: Plan) {
    && p.Tree? && p.depth >= 1 && p.branchingFactor > 0 && Sum(ChildSizes(p)) == p.size
    && forall i :: 0 <= i < |p.children| ==> Sum(RootSizes(p, i)) == ChildSizes(p)[i]
  }

  lemma BalancedIsConsistent(p: Plan, m: nat)
    requires Balanced(p, m) && p.Tree?
    ensures Consistent(p)
  {
    forall i | 0 <= i < |p.children| ensures Sum(RootSizes(p, i)) == ChildSizes(p)[i] {
      assert Balanced(p.children[i], m);
      OnesOffset(p.children[i].size, p.children[i].size);
    }
  }

  /** The route of job `k` through the whole tree, as the splits have it. */
  ghost function RootRoute(p: Plan, k: nat): (route: seq<nat>)
    requires Consistent(p) && k < p.size
    ensures |route| == 1 + if p.depth <= 2 then 2 else p.depth
  {
    var i := SliceAt(ChildSizes(p), k);
    [i] + Route(p.depth - 1, RootSizes(p, i), p.branchingFactor, JobAt(ChildSizes(p), k))
  }

  lemma RootRoutesDiffer(p: Plan, j: nat, k: nat)
    requires Consistent(p) && j < p.size && k < p.size && RootRoute(p, j) == RootRoute(p, k)
    ensures j == k
  {
    var a, b := RootRoute(p, j), RootRoute(p, k);
    var sizes := ChildSizes(p);
    var i := SliceAt(sizes, j);
    assert a[0] == b[0] && a[1..] == b[1..];
    assert a[1..] == Route(p.depth - 1, RootSizes(p, i), p.branchingFactor, JobAt(sizes, j));
    assert b[1..] == Route(p.depth - 1, RootSizes(p, i), p.branchingFactor, JobAt(sizes, k));
    RoutesDiffer(p.depth - 1, RootSizes(p, i), p.branchingFactor, JobAt(sizes, j), JobAt(sizes, k));
  }

  /** A path without its attempts: what is left are the slices and the job. */
  function RootStations(path: Path, depth: nat): (stations: seq<nat>)
    requires depth >= 1 && |path| == 2 + TrailLength(depth - 1)
    ensures |stations| == 1 + if depth <= 2 then 2 else depth
  {
    [path[0]] + Stations(path, 2, depth - 1)
  }

  ghost predicate FollowsRoot(e: Event, p: Plan)
    requires Consistent(p)
  {
    e.Ran? ==>
      && e.slot < p.size && |e.path| == 2 + TrailLength(p.depth - 1)
      && RootStations(e.path, p.depth) == RootRoute(p, e.slot)
  }

  lemma RootUnfolds(p: Plan, k: nat, i: nat, job: nat, inner: seq<nat>)
    requires Consistent(p) && k < p.size && i == SliceAt(ChildSizes(p), k) && job == JobAt(ChildSizes(p), k)
    requires RootCall(p, i) == SubCoord(p.depth - 1, inner, p.branchingFactor)
    ensures Sum(inner) == ChildSizes(p)[i]
    ensures RootRoute(p, k) == [i] + Route(p.depth - 1, inner, p.branchingFactor, job)
  {
  }

  lemma CallUnfolds(e: Event, i: nat, depth: nat, sizes: seq<nat>, f: nat, base: nat)
    requires f > 0 && e.Ran? && FollowsCall(e, [i], depth, sizes, f, base)
    ensures base <= e.slot < base + Sum(sizes) && |e.path| == 2 + TrailLength(depth) && e.path[0] == i
    ensures Stations(e.path, 2, depth) == Route(depth, sizes, f, e.slot - base)
  {
    assert e.path[0] == [i][0];
  }

  lemma CallFollowsRoot(p: Plan, i: nat, e: Event, job: nat)
    requires Consistent(p) && i < |p.children| && e.Ran?
    requires job < ChildSizes(p)[i] && e.slot == Offset(ChildSizes(p), i) + job
    requires |e.path| == 2 + TrailLength(p.depth - 1) && e.path[0] == i
    requires Stations(e.path, 2, p.depth - 1) == Route(p.depth - 1, RootSizes(p, i), p.branchingFactor, job)
    ensures FollowsRoot(e, p)
  {
    SliceIs(ChildSizes(p), e.slot, i);
    RootUnfolds(p, e.slot, i, job, RootSizes(p, i));
  }

  lemma RootSubLog(w: World, p: Plan, args: seq<Args>, i: nat, e: Event)
    requires p.Tree? && i < |p.children| && e in RootSub(w, p, args, i).log
    ensures e in Invoke(w, [i], RootCall(p, i), SliceOf(args, ChildSizes(p), i), Offset(ChildSizes(p), i), 0).log
  {
  }

  lemma InvokedFollows(w: World, i: nat, call: Call, depth: nat, inner: seq<nat>, f: nat, slice: seq<Args>, base: nat,
                       e: Event)
    requires f > 0 && call == SubCoord(depth, inner, f) && |slice| == Sum(inner)
    requires e in Invoke(w, [i], call, slice, base, 0).log
    ensures FollowsCall(e, [i], depth, inner, f, base)
  {
    InvokeFollows(w, [i], depth, inner, f, slice, base, 0);
  }

  lemma RootSliceSize(p: Plan, args: seq<Args>, i: nat)
    requires Consistent(p) && |args| == p.size && i < |p.children|
    ensures |SliceOf(args, ChildSizes(p), i)| == Sum(RootSizes(p, i))
  {
    OffsetGrows(ChildSizes(p), i + 1, |p.children|);
  }

  lemma RootSubFollows(w: World, p: Plan, args: seq<Args>, i: nat, e: Event)
    requires Consistent(p) && |args| == p.size && i < |p.children| && e in RootSub(w, p, args, i).log
    ensures FollowsRoot(e, p)
  {
    var inner, base := RootSizes(p, i), Offset(ChildSizes(p), i);
    RootSubLog(w, p, args, i, e);
    RootSliceSize(p, args, i);
    InvokedFollows(w, i, RootCall(p, i), p.depth - 1, inner, p.branchingFactor,
                   SliceOf(args, ChildSizes(p), i), base, e);
    if e.Ran? {
      CallUnfolds(e, i, p.depth - 1, inner, p.branchingFactor, base);
      CallFollowsRoot(p, i, e, e.slot - base);
    }
  }

  lemma {:induction false} RootSubsFollow(w: World, p: Plan, args: seq<Args>, n: nat)
    requires Consistent(p) && |args| == p.size && n <= |p.children|
    ensures forall e :: e in RootSubs(w, p, args, n).log ==> FollowsRoot(e, p)
  {
    if n > 0 {
      RootSubsFollow(w, p, args, n - 1);
      forall e | e in RootSub(w, p, args, n - 1).log ensures FollowsRoot(e, p) {
        RootSubFollows(w, p, args, n - 1, e);
      }
    }
  }

  ghost predicate RunsTree(w: World, args: seq<Args>, opts: Selector, isolate: bool) {
    RunMany(w, args, opts, isolate).Done? && RunMany(w, args, opts, isolate).plan.Tree?
  }

  /** Whatever fails and however often calls are repeated, a job runs only at the end of
      its own route. */
  lemma RunsFollowRoutes(w: World, args: seq<Args>, opts: Selector, isolate: bool)
    requires RunsTree(w, args, opts, isolate)
    ensures var o := RunMany(w, args, opts, isolate);
            && SelectTopology(|args|, opts) == Selected(o.plan) && Consistent(o.plan) && o.plan.size == |args|
            && forall e :: e in o.reply.log ==> FollowsRoot(e, o.plan)
  {
    SelectedPlanIsLossless(|args|, opts);
    var p := RunMany(w, args, opts, isolate).plan;
    BalancedIsConsistent(p, opts.maxFanOut.UnwrapOr(DEFAULT_MAX_FAN_OUT));
    RootSubsFollow(w, p, args, |p.children|);
  }

  // ---- the plan ----------------------------------------------------------------------------

  function Cap(opts: Selector): int {
    opts.maxFanOut.UnwrapOr(DEFAULT_MAX_FAN_OUT)
  }

  /** A selected tree has the least depth that suffices for its size. */
  lemma SelectedTree(size: nat, opts: Selector)
    requires SelectTopology(size, opts).Selected? && SelectTopology(size, opts).plan.Tree?
    ensures var m, p := Cap(opts), SelectTopology(size, opts).plan;
            && size >= 1 && m >= 1 && p.branchingFactor >= 2 && p.depth >= 1
            && p.depth == LeastDepth(size, m, p.branchingFactor)
            && size <= Capacity(m, p.branchingFactor, p.depth)
            && p == BuildTree(size, p.branchingFactor, m, p.depth)
  {
    var f, m := opts.branchingFactor.UnwrapOr(DEFAULT_BRANCHING_FACTOR), Cap(opts);
    var depth := LeastDepth(size, m, f);
    assert SelectTopology(size, opts).plan == BuildTree(size, f, m, depth);
    DepthFromIsLeast(size, m, f, 1, 1);
    LeastDepthIsExact(size, m, f, depth);
  }

  lemma SingleTierRoute(u: nat, f: nat, job: nat)
    requires f >= 1 && job < u
    ensures Sum(Ones(u)) == u && Route(0, Ones(u), f, job) == [job, 0]
  {
    OnesOffset(u, u);
    OnesOffset(u, job);
    OnesOffset(u, job + 1);
    RouteUnfolds(0, Ones(u), f, job, job);
  }

  lemma SlotRoute(u: nat, f: nat, m: nat, depth: nat, job: nat)
    requires f >= 1 && m >= 1 && depth >= 1 && 1 <= u <= Capacity(m, f, depth - 1) && job < u
    requires AddsUp(SlicePlan(u, f, m, depth))
    ensures Sum(Sent(u, f, depth)) == u
    ensures Route(depth - 1, Sent(u, f, depth), f, job) ==
            PlanRoute(SlicePlan(u, f, m, depth), job) + if depth == 1 then [0] else []
  {
    if depth == 1 {
      SingleTierRoute(u, f, job);
    } else {
      RouteIsPlanned(u, f, m, depth - 1, Positive(Fill(u, f)), job);
    }
  }

  lemma TreeIsConsistent(size: nat, f: nat, m: nat, depth: nat)
    requires size >= 1 && f >= 1 && m >= 1 && depth >= 1 && size <= Capacity(m, f, depth)
    ensures var p := BuildTree(size, f, m, depth);
            Consistent(p) && ChildSizes(p) == Positive(Fill(size, f)) && |p.children| == |Positive(Fill(size, f))|
  {
    TreeIsBalanced(size, f, m, depth);
    BalancedIsConsistent(BuildTree(size, f, m, depth), m);
  }

  lemma RootCallOf(p: Plan, size: nat, f: nat, m: nat, depth: nat, k: nat, i: nat, job: nat, u: nat)
    requires size >= 1 && f >= 1 && m >= 1 && depth >= 1 && size <= Capacity(m, f, depth) && k < size
    requires p == BuildTree(size, f, m, depth) && Consistent(p) && i < |p.children| && i < f && u == Fill(size, f)[i]
    requires i == SliceAt(ChildSizes(p), k) && job == JobAt(ChildSizes(p), k)
    requires Sum(Sent(u, f, depth)) == u && job < u
    ensures RootRoute(p, k) == [i] + Route(depth - 1, Sent(u, f, depth), f, job)
  {
    CallOf(size, f, m, depth, i);
    RootUnfolds(p, k, i, job, Sent(u, f, depth));
  }

  /** The routes are those of the plan; with one tier each job is a slice of its own. */
  lemma RootRouteIsPlanned(size: nat, f: nat, m: nat, depth: nat, k: nat)
    requires size >= 1 && f >= 1 && m >= 1 && depth >= 1 && size <= Capacity(m, f, depth) && k < size
    ensures var p := BuildTree(size, f, m, depth);
            && Consistent(p) && AddsUp(p)
            && RootRoute(p, k) == PlanRoute(p, k) + if depth == 1 then [0] else []
  {
    PlanBelow(size, f, m, depth, k);
    TreeIsConsistent(size, f, m, depth);
    var i, job := SliceAt(Positive(Fill(size, f)), k), JobAt(Positive(Fill(size, f)), k);
    var u := Fill(size, f)[i];
    SlotRoute(u, f, m, depth, job);
    RootCallOf(BuildTree(size, f, m, depth), size, f, m, depth, k, i, job, u);
  }

  lemma FollowsPlan(size: nat, opts: Selector, e: Event)
    requires SelectTopology(size, opts).Selected? && SelectTopology(size, opts).plan.Tree? && e.Ran?
    requires var p := SelectTopology(size, opts).plan; Consistent(p) && p.size == size && FollowsRoot(e, p)
    ensures var p := SelectTopology(size, opts).plan;
            && AddsUp(p) && RootStations(e.path, p.depth) == PlanRoute(p, e.slot) + if p.depth == 1 then [0] else []
  {
    SelectedTree(size, opts);
    var p := SelectTopology(size, opts).plan;
    RootRouteIsPlanned(size, p.branchingFactor, Cap(opts), p.depth, e.slot);
  }

  /** The run of a job took place where the plan has it; with one tier each job is a slice
      of its own. */
  ghost predicate IsPlanned(p: Plan, e: Event)
    requires e.Ran?
  {
    && p.Tree? && AddsUp(p) && p.depth >= 1 && e.slot < p.size && |e.path| == 2 + TrailLength(p.depth - 1)
    && RootStations(e.path, p.depth) == PlanRoute(p, e.slot) + if p.depth == 1 then [0] else []
  }

  lemma RunIsPlanned(w: World, args: seq<Args>, opts: Selector, isolate: bool, e: Event)
    requires RunsTree(w, args, opts, isolate) && e in RunMany(w, args, opts, isolate).reply.log && e.Ran?
    ensures IsPlanned(RunMany(w, args, opts, isolate).plan, e)
  {
    RunsFollowRoutes(w, args, opts, isolate);
    FollowsPlan(|args|, opts, e);
  }

  /** With two tiers or more, every run of a job is where the plan has it. */
  lemma PlannedPartitionIsVisited(w: World, args: seq<Args>, opts: Selector, isolate: bool, e: Event)
    requires RunsTree(w, args, opts, isolate) && RunMany(w, args, opts, isolate).plan.depth >= 2
    requires e in RunMany(w, args, opts, isolate).reply.log && e.Ran?
    ensures var p := RunMany(w, args, opts, isolate).plan;
            && AddsUp(p) && e.slot < p.size && |e.path| == 2 + TrailLength(p.depth - 1)
            && RootStations(e.path, p.depth) == PlanRoute(p, e.slot)
  {
    RunIsPlanned(w, args, opts, isolate, e);
  }

  /** With one tier, each sub-coordinator carries out one planned hybrid, a job a slice. */
  lemma SingleTierVisits(w: World, args: seq<Args>, opts: Selector, isolate: bool, e: Event)
    requires RunsTree(w, args, opts, isolate) && RunMany(w, args, opts, isolate).plan.depth == 1
    requires e in RunMany(w, args, opts, isolate).reply.log && e.Ran?
    ensures var p := RunMany(w, args, opts, isolate).plan;
            && AddsUp(p) && e.slot < p.size && |e.path| == 6
            && [e.path[0], e.path[2]] == PlanRoute(p, e.slot) && e.path[3] == 0
  {
    RunIsPlanned(w, args, opts, isolate, e);
    var p := RunMany(w, args, opts, isolate).plan;
    var stations := RootStations(e.path, 1);
    assert stations == [e.path[0], e.path[2], e.path[3]];
    assert PlanRoute(p, e.slot) == stations[..2];
  }

  /** The places where jobs ran. */
  ghost function Visited(log: seq<Event>, depth: nat): set<seq<nat>>
    requires depth >= 1
  {
    set e | e in log && e.Ran? && |e.path| == 2 + TrailLength(depth - 1) :: RootStations(e.path, depth)
  }

  /** The routes of all jobs, in the order of the jobs. */
  ghost function Routes(p: Plan): (routes: seq<seq<nat>>)
    requires Consistent(p)
  {
    seq(p.size, k requires 0 <= k < p.size => RootRoute(p, k))
  }

  /** All of the planned partition is visited if nothing fails, and nothing else ever. */
  lemma VisitedRoutes(w: World, args: seq<Args>, opts: Selector, isolate: bool)
    requires RunsTree(w, args, opts, isolate)
    ensures var o := RunMany(w, args, opts, isolate);
            && Consistent(o.plan) && o.plan.size == |args|
            && (forall r :: r in Visited(o.reply.log, o.plan.depth) ==> r in Routes(o.plan))
            && (Calm(w) ==> forall r :: r in Routes(o.plan) ==> r in Visited(o.reply.log, o.plan.depth))
  {
    RunsFollowRoutes(w, args, opts, isolate);
    var o := RunMany(w, args, opts, isolate);
    forall e | e in o.reply.log && e.Ran? ensures RootRoute(o.plan, e.slot) in Routes(o.plan) {
      assert Routes(o.plan)[e.slot] == RootRoute(o.plan, e.slot);
    }
    if Calm(w) {
      forall k: nat | k < o.plan.size ensures Routes(o.plan)[k] in Visited(o.reply.log, o.plan.depth) {
        CalmRunsOnce(w, args, opts, isolate, k);
        assert FollowsRoot(SomeRunAt(o.reply.log, k), o.plan);
      }
    }
  }

  ghost function SomeRunAt(log: seq<Event>, slot: nat): (e: Event)
    requires RunsAt(log, slot) >= 1
    ensures e in log && e.Ran? && e.slot == slot
  {
    var last := log[|log| - 1];
    if last.Ran? && last.slot == slot then last else SomeRunAt(log[..|log| - 1], slot)
  }
}
