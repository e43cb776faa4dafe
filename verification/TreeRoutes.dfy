/** The way a job takes through a tree. Every event of a dispatch carries the path of its
    call, attempts included; here its stations are read off, and they are those of the
    plan, whatever fails and however often calls are repeated. */
module TreeRoutes {
  import opened Topology
  import opened TreeDispatch

  // ---- positions ------------------------------------------------------------------------

  /** The slice that holds position `k`. */
  function SliceAt(sizes: seq<nat>, k: nat): (i: nat)
    requires k < Sum(sizes)
    ensures i < |sizes| && Offset(sizes, i) <= k < Offset(sizes, i + 1)
  {
    SliceBelow(sizes, |sizes|, k)
  }

  function SliceBelow(sizes: seq<nat>, n: nat, k: nat): (i: nat)
    requires n <= |sizes| && k < Offset(sizes, n)
    ensures i < n && Offset(sizes, i) <= k < Offset(sizes, i + 1)
  {
    if Offset(sizes, n - 1) <= k then n - 1 else SliceBelow(sizes, n - 1, k)
  }

  function JobAt(sizes: seq<nat>, k: nat): (job: nat)
    requires k < Sum(sizes)
    ensures job < sizes[SliceAt(sizes, k)] && k == Offset(sizes, SliceAt(sizes, k)) + job
  {
    k - Offset(sizes, SliceAt(sizes, k))
  }

  /** There is only one slice that holds it. */
  lemma SliceIs(sizes: seq<nat>, k: nat, i: nat)
    requires i < |sizes| && Offset(sizes, i) <= k < Offset(sizes, i + 1)
    ensures k < Sum(sizes) && SliceAt(sizes, k) == i && JobAt(sizes, k) == k - Offset(sizes, i)
  {
    OffsetGrows(sizes, i + 1, |sizes|);
    var at := SliceAt(sizes, k);
    if at < i {
      OffsetGrows(sizes, at + 1, i);
    } else if i < at {
      OffsetGrows(sizes, i + 1, at);
    }
  }

  // ---- routes ----------------------------------------------------------------------------

  /** How a slice of `u` jobs is carved up by the next sub-coordinator. */
  function Inner(u: nat, f: nat): (sizes: seq<nat>)
    requires f > 0
    ensures Sum(sizes) == u
  {
    FillSum(u, f);
    Refill(u, f)
  }

  /** The slices, tier by tier, and at the bottom the job, that lead to job `k`. */
  function Route(depth: nat, sizes: seq<nat>, f: nat, k: nat): (route: seq<nat>)
    requires f > 0 && k < Sum(sizes)
    ensures |route| == if depth <= 1 then 2 else depth + 1
    decreases depth, 1
  {
    [SliceAt(sizes, k)] + RouteBelow(depth, sizes[SliceAt(sizes, k)], f, JobAt(sizes, k))
  }

  /** The same below a slice of `u` jobs. */
  function RouteBelow(depth: nat, u: nat, f: nat, k: nat): (route: seq<nat>)
    requires f > 0 && k < u
    ensures |route| == if depth <= 1 then 1 else depth
    decreases depth, 0
  {
    if depth <= 1 then [k] else Route(depth - 1, Inner(u, f), f, k)
  }

  lemma RouteStep(depth: nat, sizes: seq<nat>, f: nat, k: nat)
    requires f > 0 && k < Sum(sizes)
    ensures var r := Route(depth, sizes, f, k);
            && r[0] == SliceAt(sizes, k)
            && r[1..] == RouteBelow(depth, sizes[SliceAt(sizes, k)], f, JobAt(sizes, k))
  {
  }

  /** Different jobs take different routes. */
  lemma {:induction false} RoutesDiffer(depth: nat, sizes: seq<nat>, f: nat, k: nat, k': nat)
    requires f > 0 && k < Sum(sizes) && k' < Sum(sizes)
    requires Route(depth, sizes, f, k) == Route(depth, sizes, f, k')
    ensures k == k'
    decreases depth, 1
  {
    RouteStep(depth, sizes, f, k);
    RouteStep(depth, sizes, f, k');
    BelowRoutesDiffer(depth, sizes[SliceAt(sizes, k)], f, JobAt(sizes, k), JobAt(sizes, k'));
  }

  lemma {:induction false} BelowRoutesDiffer(depth: nat, u: nat, f: nat, k: nat, k': nat)
    requires f > 0 && k < u && k' < u && RouteBelow(depth, u, f, k) == RouteBelow(depth, u, f, k')
    ensures k == k'
    decreases depth, 0
  {
    if depth <= 1 {
      assert [k][0] == [k'][0];
    } else {
      RoutesDiffer(depth - 1, Inner(u, f), f, k, k');
    }
  }

  // ---- paths -----------------------------------------------------------------------------

  /** What a run's path adds to that of the call of a sub-coordinator: slice and attempt
      at every tier, then slice, job, attempt and place in the batch. */
  function TrailLength(depth: nat): nat {
    if depth <= 1 then 4 else 2 + TrailLength(depth - 1)
  }

  /** The path from position `at` on, without the attempts. */
  function Stations(path: Path, at: nat, depth: nat): (stations: seq<nat>)
    requires |path| == at + TrailLength(depth)
    ensures |stations| == if depth <= 1 then 2 else depth + 1
    decreases depth, 1
  {
    [path[at]] + StationsBelow(path, at + 1, depth)
  }

  function StationsBelow(path: Path, at: nat, depth: nat): (stations: seq<nat>)
    requires |path| + 1 == at + TrailLength(depth)
    ensures |stations| == if depth <= 1 then 1 else depth
    decreases depth, 0
  {
    if depth <= 1 then [path[at]] else Stations(path, at + 1, depth - 1)
  }

  /** The path of the event extends `path` by a trail along the route of its slot. */
  predicate Follows(e: Event, path: Path, depth: nat, sizes: seq<nat>, f: nat, base: nat)
    requires f > 0
  {
    e.Ran? ==>
      && base <= e.slot < base + Sum(sizes)
      && path <= e.path && |e.path| == |path| + TrailLength(depth)
      && Stations(e.path, |path|, depth) == Route(depth, sizes, f, e.slot - base)
  }

  /** The same below one slice. */
  predicate FollowsBelow(e: Event, path: Path, depth: nat, f: nat, count: nat, base: nat)
    requires f > 0
  {
    e.Ran? ==>
      && base <= e.slot < base + count
      && path <= e.path && |e.path| + 1 == |path| + TrailLength(depth)
      && StationsBelow(e.path, |path|, depth) == RouteBelow(depth, count, f, e.slot - base)
  }

  ghost predicate AllFollow(log: seq<Event>, path: Path, depth: nat, sizes: seq<nat>, f: nat, base: nat)
    requires f > 0
  {
    forall e :: e in log ==> Follows(e, path, depth, sizes, f, base)
  }

  ghost predicate AllFollowBelow(log: seq<Event>, path: Path, depth: nat, f: nat, count: nat, base: nat)
    requires f > 0
  {
    forall e :: e in log ==> FollowsBelow(e, path, depth, f, count, base)
  }

  lemma {:induction false} PartIsPart(log: seq<Event>, happened: nat -> bool, n: nat)
    requires n <= |log|
    ensures forall e :: e in Part(log, happened, n) ==> e in log
  {
    if n > 0 {
      PartIsPart(log, happened, n - 1);
    }
  }

  // ---- one call ----------------------------------------------------------------------------

  lemma {:induction false} AttemptFollows(w: World, path: Path, depth: nat, sizes: seq<nat>, f: nat, args: seq<Args>,
                                          base: nat)
    requires f > 0 && Sum(sizes) == |args|
    ensures AllFollow(Attempt(w, path, SubCoord(depth, sizes, f), args, base).log, path, depth, sizes, f, base)
    decreases depth + 1, 2, 0
  {
    var call := SubCoord(depth, sizes, f);
    ServeSlicesFollow(w, path, depth, sizes, f, args, base, |sizes|);
    var log := Serve(w, path, call, args, base).log;
    if w.rpc(path).Threw? {
      PartIsPart(log, w.rpc(path).happened, |log|);
    }
  }

  /** The attempts of one call add one position to the path. */
  predicate FollowsCall(e: Event, path: Path, depth: nat, sizes: seq<nat>, f: nat, base: nat)
    requires f > 0
  {
    e.Ran? ==>
      && base <= e.slot < base + Sum(sizes)
      && path <= e.path && |e.path| == |path| + 1 + TrailLength(depth)
      && Stations(e.path, |path| + 1, depth) == Route(depth, sizes, f, e.slot - base)
  }

  lemma {:induction false} InvokeFollows(w: World, path: Path, depth: nat, sizes: seq<nat>, f: nat,
                                         args: seq<Args>, base: nat, k: nat)
    requires f > 0 && Sum(sizes) == |args|
    ensures forall e :: e in Invoke(w, path, SubCoord(depth, sizes, f), args, base, k).log ==>
              FollowsCall(e, path, depth, sizes, f, base)
    decreases depth + 1, 3, if k > MAX_TRANSIENT_RETRIES then 0 else MAX_TRANSIENT_RETRIES + 1 - k
  {
    if k <= MAX_TRANSIENT_RETRIES {
      var call, here := SubCoord(depth, sizes, f), path + [k];
      AttemptFollows(w, here, depth, sizes, f, args, base);
      forall e | e in Attempt(w, here, call, args, base).log
        ensures FollowsCall(e, path, depth, sizes, f, base)
      {
        assert Follows(e, here, depth, sizes, f, base);
      }
      InvokeFollows(w, path, depth, sizes, f, args, base, k + 1);
    }
  }

  /** A leaf call runs its one job, whatever the attempt. */
  lemma {:induction false} LeafFollows(w: World, path: Path, isolate: bool, job: Args, base: nat, k: nat)
    ensures forall e :: e in Invoke(w, path, LeafBatch(isolate), [job], base, k).log && e.Ran? ==>
              e.slot == base && |e.path| == |path| + 2 && path <= e.path
    decreases if k > MAX_TRANSIENT_RETRIES then 0 else MAX_TRANSIENT_RETRIES + 1 - k
  {
    if k <= MAX_TRANSIENT_RETRIES {
      var call, here := LeafBatch(isolate), path + [k];
      var log := Serve(w, here, call, [job], base).log;
      assert log == [Ran(here + [0], base, job, isolate, w.run(here + [0], job, base, isolate))];
      if w.rpc(here).Threw? {
        PartIsPart(log, w.rpc(here).happened, |log|);
      }
      LeafFollows(w, path, isolate, job, base, k + 1);
    }
  }

  lemma {:induction false} HybridLeafFollows(w: World, path: Path, slice: seq<Args>, base: nat, f: nat, n: nat)
    requires n <= |slice| && f > 0
    ensures forall e :: e in HybridLeaf(w, path, slice, base, n).log && e.Ran? ==>
              && base <= e.slot < base + n && |e.path| == |path| + 3
              && path <= e.path && e.path[|path|] == e.slot - base
    decreases 0, 4, n
  {
    if n > 0 {
      var here := path + [n - 1];
      HybridLeafFollows(w, path, slice, base, f, n - 1);
      LeafFollows(w, here, false, slice[n - 1], base + (n - 1), 0);
      forall e | e in JobLeaf(w, here, slice[n - 1], base + (n - 1)).log && e.Ran?
        ensures e.slot == base + (n - 1) && |e.path| == |path| + 3 && path <= e.path && e.path[|path|] == n - 1
      {
        assert here <= e.path && e.path[|path|] == here[|path|];
      }
    }
  }

  lemma {:induction false} ServeSliceFollows(w: World, path: Path, depth: nat, f: nat, slice: seq<Args>, base: nat)
    requires f > 0
    ensures AllFollowBelow(ServeSlice(w, path, depth, f, slice, base).log, path, depth, f, |slice|, base)
    decreases depth + 1, 0, 0
  {
    if slice != [] {
      if depth <= 1 {
        HybridLeafFollows(w, path, slice, base, f, |slice|);
      } else {
        InvokeFollows(w, path, depth - 1, Inner(|slice|, f), f, slice, base, 0);
      }
    }
  }

  lemma RouteUnfolds(depth: nat, sizes: seq<nat>, f: nat, k: nat, i: nat)
    requires f > 0 && i < |sizes| && Offset(sizes, i) <= k < Offset(sizes, i + 1)
    ensures k < Sum(sizes)
    ensures Route(depth, sizes, f, k) == [i] + RouteBelow(depth, sizes[i], f, k - Offset(sizes, i))
  {
    SliceIs(sizes, k, i);
  }

  lemma TrailJoins(e: Event, path: Path, depth: nat, f: nat, i: nat, at: nat, count: nat)
    requires f > 0 && e.Ran? && FollowsBelow(e, path + [i], depth, f, count, at)
    ensures path <= e.path && |e.path| == |path| + TrailLength(depth) && at <= e.slot < at + count
    ensures Stations(e.path, |path|, depth) == [i] + RouteBelow(depth, count, f, e.slot - at)
  {
    assert e.path[|path|] == (path + [i])[|path|];
  }

  lemma RouteJoins(e: Event, path: Path, depth: nat, sizes: seq<nat>, f: nat, base: nat, i: nat, k: nat)
    requires f > 0 && i < |sizes| && e.Ran? && e.slot == base + k && Offset(sizes, i) <= k < Offset(sizes, i + 1)
    requires path <= e.path && |e.path| == |path| + TrailLength(depth)
    requires Stations(e.path, |path|, depth) == [i] + RouteBelow(depth, sizes[i], f, k - Offset(sizes, i))
    ensures Follows(e, path, depth, sizes, f, base)
  {
    RouteUnfolds(depth, sizes, f, k, i);
  }

  /** One slice further up: the slice's index joins the route. */
  lemma SliceJoinsRoute(e: Event, path: Path, depth: nat, sizes: seq<nat>, f: nat, base: nat, i: nat, at: nat)
    requires f > 0 && i < |sizes| && at == base + Offset(sizes, i) && e.Ran?
    requires FollowsBelow(e, path + [i], depth, f, sizes[i], at)
    ensures Follows(e, path, depth, sizes, f, base)
  {
    TrailJoins(e, path, depth, f, i, at, sizes[i]);
    RouteJoins(e, path, depth, sizes, f, base, i, e.slot - base);
  }

  lemma NthFollows(log: seq<Event>, path: Path, depth: nat, sizes: seq<nat>, f: nat, base: nat, i: nat)
    requires f > 0 && i < |sizes| && AllFollowBelow(log, path + [i], depth, f, sizes[i], base + Offset(sizes, i))
    ensures AllFollow(log, path, depth, sizes, f, base)
  {
    forall e | e in log ensures Follows(e, path, depth, sizes, f, base) {
      if e.Ran? {
        SliceJoinsRoute(e, path, depth, sizes, f, base, i, base + Offset(sizes, i));
      }
    }
  }

  lemma JoinFollows(a: Reply, b: Reply, path: Path, depth: nat, sizes: seq<nat>, f: nat, base: nat)
    requires f > 0 && AllFollow(a.log, path, depth, sizes, f, base) && AllFollow(b.log, path, depth, sizes, f, base)
    ensures AllFollow(Join(a, b).log, path, depth, sizes, f, base)
  {
  }

  lemma {:induction false} ServeSlicesFollow(w: World, path: Path, depth: nat, sizes: seq<nat>, f: nat,
                                            args: seq<Args>, base: nat, n: nat)
    requires f > 0 && n <= |sizes| && Sum(sizes) == |args|
    ensures AllFollow(ServeSlices(w, path, depth, sizes, f, args, base, n).log, path, depth, sizes, f, base)
    decreases depth + 1, 0, n + 1
  {
    if n > 0 {
      var i: nat := n - 1;
      ServeSlicesFollow(w, path, depth, sizes, f, args, base, i);
      OffsetGrows(sizes, n, |sizes|);
      ServeSliceFollows(w, path + [i], depth, f, SliceOf(args, sizes, i), base + Offset(sizes, i));
      NthFollows(ServeNth(w, path, depth, sizes, f, args, base, i).log, path, depth, sizes, f, base, i);
      JoinFollows(ServeSlices(w, path, depth, sizes, f, args, base, i),
                  ServeNth(w, path, depth, sizes, f, args, base, i),
                  path, depth, sizes, f, base);
    }
  }

  // ---- the plan ------------------------------------------------------------------------------

  /** The children of the plan that lead to job `k`, and its place in the planned leaf tier. */
  function PlanRoute(p: Plan, k: nat): seq<nat>
    requires p.Tree? ==> AddsUp(p) && k < p.size
    decreases p
  {
    if p.Tree? then
      var i := SliceAt(ChildSizes(p), k);
      [i] + PlanRoute(p.children[i], JobAt(ChildSizes(p), k))
    else [k]
  }

  /** Every tree of the plan is the sum of its children. */
  predicate AddsUp(p: Plan) {
    p.Tree? ==> Sum(ChildSizes(p)) == p.size && forall i :: 0 <= i < |p.children| ==> AddsUp(p.children[i])
  }

  lemma {:induction false} BalancedAddsUp(p: Plan, m: nat)
    requires Balanced(p, m)
    ensures AddsUp(p)
    decreases p
  {
    if p.Tree? {
      forall i | 0 <= i < |p.children| ensures AddsUp(p.children[i]) {
        BalancedAddsUp(p.children[i], m);
      }
    }
  }

  lemma PositivePositions(size: nat, f: nat, sizes: seq<nat>, k: nat)
    requires f > 0 && (sizes == Fill(size, f) || sizes == Positive(Fill(size, f))) && k < size
    ensures Sum(sizes) == size == Sum(Positive(Fill(size, f)))
    ensures SliceAt(sizes, k) == SliceAt(Positive(Fill(size, f)), k)
  {
    var fill, used := Fill(size, f), Positive(Fill(size, f));
    FillSum(size, f);
    UsedSlotsSum(size, f);
    UsedSlots(size, f);
    var i := SliceAt(used, k);
    OffsetOfPrefix(used, fill, i);
    OffsetOfPrefix(used, fill, i + 1);
    SliceIs(fill, k, i);
  }

  /** The plan for a slice of `u` jobs on the tier `depth`. */
  function SlicePlan(u: nat, f: nat, m: nat, depth: nat): (p: Plan)
    requires f > 0
    ensures p.size == u
  {
    if depth <= 1 then BuildHybrid(u) else BuildTree(u, f, m, depth - 1)
  }

  lemma PlanUnfolds(p: Plan, k: nat, i: nat, job: nat)
    requires p.Tree? && AddsUp(p) && k < p.size && i == SliceAt(ChildSizes(p), k) && job == JobAt(ChildSizes(p), k)
    ensures PlanRoute(p, k) == [i] + PlanRoute(p.children[i], job)
  {
  }

  lemma PlanBelow(size: nat, f: nat, m: nat, depth: nat, k: nat)
    requires size >= 1 && f >= 1 && m >= 1 && depth >= 1 && size <= Capacity(m, f, depth) && k < size
    ensures AddsUp(BuildTree(size, f, m, depth)) && Sum(Positive(Fill(size, f))) == size
    ensures var i, job := SliceAt(Positive(Fill(size, f)), k), JobAt(Positive(Fill(size, f)), k);
            && i < f && job < Fill(size, f)[i] && 1 <= Fill(size, f)[i] <= Capacity(m, f, depth - 1)
            && AddsUp(SlicePlan(Fill(size, f)[i], f, m, depth))
            && PlanRoute(BuildTree(size, f, m, depth), k) ==
               [i] + PlanRoute(SlicePlan(Fill(size, f)[i], f, m, depth), job)
  {
    var p := BuildTree(size, f, m, depth);
    TreeIsBalanced(size, f, m, depth);
    BalancedAddsUp(p, m);
    UsedSlotsSum(size, f);
    var i, job := SliceAt(ChildSizes(p), k), JobAt(ChildSizes(p), k);
    ChildOf(size, f, m, depth, i);
    PlanUnfolds(p, k, i, job);
  }

  lemma {:induction false} BelowIsPlanned(u: nat, f: nat, m: nat, depth: nat, k: nat)
    requires f >= 1 && m >= 1 && depth >= 1 && 1 <= u <= Capacity(m, f, depth - 1) && k < u
    requires AddsUp(SlicePlan(u, f, m, depth))
    ensures RouteBelow(depth, u, f, k) == PlanRoute(SlicePlan(u, f, m, depth), k)
    decreases depth, 0
  {
    if depth > 1 {
      RouteIsPlanned(u, f, m, depth - 1, Fill(u, f), k);
    }
  }

  /** The splits of the sub-coordinators lead every job where the plan has it. */
  lemma {:induction false} RouteIsPlanned(size: nat, f: nat, m: nat, depth: nat, sizes: seq<nat>, k: nat)
    requires size >= 1 && f >= 1 && m >= 1 && depth >= 1 && size <= Capacity(m, f, depth) && k < size
    requires sizes == Fill(size, f) || sizes == Positive(Fill(size, f))
    requires AddsUp(BuildTree(size, f, m, depth))
    ensures Sum(sizes) == size
    ensures Route(depth, sizes, f, k) == PlanRoute(BuildTree(size, f, m, depth), k)
    decreases depth, 1
  {
    PositivePositions(size, f, sizes, k);
    var i, job := SliceAt(sizes, k), JobAt(sizes, k);
    SameJob(size, f, sizes, k, i);
    PlanBelow(size, f, m, depth, k);
    BelowIsPlanned(Fill(size, f)[i], f, m, depth, job);
    RouteUnfolds(depth, sizes, f, k, i);
  }

  lemma SameJob(size: nat, f: nat, sizes: seq<nat>, k: nat, i: nat)
    requires f > 0 && (sizes == Fill(size, f) || sizes == Positive(Fill(size, f))) && k < size
    requires Sum(sizes) == size == Sum(Positive(Fill(size, f)))
    requires i == SliceAt(sizes, k) == SliceAt(Positive(Fill(size, f)), k)
    ensures i < |sizes| && i < |Positive(Fill(size, f))| && i < f
    ensures sizes[i] == Positive(Fill(size, f))[i] == Fill(size, f)[i]
    ensures JobAt(sizes, k) == JobAt(Positive(Fill(size, f)), k)
  {
    var fill, used := Fill(size, f), Positive(Fill(size, f));
    UsedSlots(size, f);
    OffsetOfPrefix(used, fill, i);
  }

  /** The children of a deep enough tree. */
  lemma ChildOf(size: nat, f: nat, m: nat, depth: nat, i: nat)
    requires size >= 1 && f >= 1 && m >= 1 && depth >= 1 && size <= Capacity(m, f, depth)
    requires i < |BuildTree(size, f, m, depth).children|
    ensures i < Min(size, f) == |BuildTree(size, f, m, depth).children|
    ensures var u := Fill(size, f)[i];
            && 1 <= u <= Capacity(m, f, depth - 1)
            && Positive(Fill(size, f))[i] == u
            && BuildTree(size, f, m, depth).children[i] ==
               if depth == 1 then BuildHybrid(u) else BuildTree(u, f, m, depth - 1)
  {
    UsedSlots(size, f);
    FillBelow(size, f, Capacity(m, f, depth - 1));
  }

  /** What the root sends along with a slice of `u` jobs. */
  function Sent(u: nat, f: nat, depth: nat): seq<nat>
    requires f > 0
  {
    if depth == 1 then Ones(u) else Positive(Fill(u, f))
  }

  lemma CallOf(size: nat, f: nat, m: nat, depth: nat, i: nat)
    requires size >= 1 && f >= 1 && m >= 1 && depth >= 1 && size <= Capacity(m, f, depth)
    requires i < |BuildTree(size, f, m, depth).children|
    ensures i < f
    ensures RootCall(BuildTree(size, f, m, depth), i) == SubCoord(depth - 1, Sent(Fill(size, f)[i], f, depth), f)
  {
    ChildOf(size, f, m, depth, i);
    if depth > 1 {
      TreeIsBalanced(Fill(size, f)[i], f, m, depth - 1);
    }
  }
}
