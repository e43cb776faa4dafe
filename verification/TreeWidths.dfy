/** How many leaf calls the sub-coordinators of a tree make, counted in the events of its
    runs. */
module TreeWidths {
  import opened Collections
  import opened Topology
  import opened TreeDispatch
  import opened TreeSoundness
  import opened TreeRoutes
  import opened TreePartition

  // ---- how wide a sub-coordinator gets ----------------------------------------------------

  lemma {:induction false} PositiveMembers(sizes: seq<nat>, u: nat)
    ensures u in Positive(sizes) <==> u > 0 && u in sizes
  {
    if sizes != [] {
      PositiveMembers(sizes[..|sizes| - 1], u);
      assert sizes == sizes[..|sizes| - 1] + [sizes[|sizes| - 1]];
    }
  }

  /** No sub-coordinator below serves more than `bound` jobs at the bottom. */
  ghost predicate LeafCallsWithin(depth: nat, sizes: seq<nat>, f: nat, bound: nat)
    decreases depth
  {
    if depth <= 1 then Sum(sizes) <= bound
    else forall u :: u in sizes && u > 0 ==> LeafCallsWithin(depth - 1, Refill(u, f), f, bound)
  }

  lemma {:induction false} BoundedSlots(sizes: seq<nat>, n: nat, bound: nat)
    requires n <= |sizes| && forall i :: 0 <= i < n ==> sizes[i] <= bound
    ensures Offset(sizes, n) <= n * bound
  {
    if n > 0 {
      BoundedSlots(sizes, n - 1, bound);
      assert n * bound == (n - 1) * bound + bound;
    }
  }

  /** A slot above the bound, if the slots cannot hold the size under it. */
  lemma SomeSlotIsAbove(size: nat, f: nat, bound: nat)
    requires f >= 1 && size > f * bound
    ensures exists i :: 0 <= i < f && Fill(size, f)[i] > bound
  {
    if forall i :: 0 <= i < f ==> Fill(size, f)[i] <= bound {
      BoundedSlots(Fill(size, f), f, bound);
      FillSum(size, f);
      assert false;
    }
  }

  /** Apart from empty ones, `sizes` are the slots that `size` is split into. */
  ghost predicate AreSlots(sizes: seq<nat>, size: nat, f: nat)
    requires f >= 1
  {
    forall u: nat :: u > 0 ==> (u in sizes <==> u in Fill(size, f))
  }

  lemma {:induction false} LeafCallsWithinIff(size: nat, f: nat, depth: nat, sizes: seq<nat>, bound: nat)
    requires f >= 1 && depth >= 1 && Sum(sizes) == size && AreSlots(sizes, size, f)
    ensures LeafCallsWithin(depth, sizes, f, bound) <==> size <= Capacity(bound, f, depth - 1)
    decreases depth
  {
    if depth > 1 {
      var below := Capacity(bound, f, depth - 2);
      forall u | u in sizes && u > 0
        ensures LeafCallsWithin(depth - 1, Refill(u, f), f, bound) <==> u <= below
      {
        FillSum(u, f);
        LeafCallsWithinIff(u, f, depth - 1, Fill(u, f), bound);
      }
      if size <= f * below {
        FillBelow(size, f, below);
      } else {
        SomeSlotIsAbove(size, f, below);
        var i :| 0 <= i < f && Fill(size, f)[i] > below;
        assert Fill(size, f)[i] in sizes;
      }
    }
  }

  ghost predicate SubCoordWithin(p: Plan, i: nat, bound: nat)
    requires p.Tree? && i < |p.children|
  {
    var call := RootCall(p, i);
    LeafCallsWithin(call.depth, call.childSizes, call.branchingFactor, bound)
  }

  /** The jobs a tree can carry if every bottom sub-coordinator makes at most `bound`
      leaf calls: one tier less than planned once there are two. */
  function CarriedWithin(bound: nat, f: nat, depth: nat): nat {
    if depth <= 1 then f * bound else Capacity(bound, f, depth - 1)
  }

  lemma SubCoordWithinIff(size: nat, f: nat, m: nat, depth: nat, i: nat, bound: nat)
    requires size >= 1 && f >= 1 && m >= 1 && depth >= 1 && size <= Capacity(m, f, depth)
    requires i < |BuildTree(size, f, m, depth).children|
    ensures i < f
    ensures SubCoordWithin(BuildTree(size, f, m, depth), i, bound) <==>
            Fill(size, f)[i] <= if depth == 1 then bound else Capacity(bound, f, depth - 2)
  {
    CallOf(size, f, m, depth, i);
    SlotWithinIff(Fill(size, f)[i], f, depth, bound);
  }

  lemma UsedSlotsAreSlots(u: nat, f: nat)
    requires f >= 1
    ensures AreSlots(Positive(Fill(u, f)), u, f)
  {
    forall v: nat | v > 0 ensures v in Positive(Fill(u, f)) <==> v in Fill(u, f) {
      PositiveMembers(Fill(u, f), v);
    }
  }

  lemma LowerSlotWithinIff(u: nat, f: nat, depth: nat, bound: nat)
    requires f >= 1 && depth >= 2
    ensures LeafCallsWithin(depth - 1, Positive(Fill(u, f)), f, bound) <==> u <= Capacity(bound, f, depth - 2)
  {
    UsedSlotsSum(u, f);
    UsedSlotsAreSlots(u, f);
    LeafCallsWithinIff(u, f, depth - 1, Positive(Fill(u, f)), bound);
  }

  /** The same, for the slice a root child is given. */
  lemma SlotWithinIff(u: nat, f: nat, depth: nat, bound: nat)
    requires f >= 1 && depth >= 1
    ensures LeafCallsWithin(depth - 1, Sent(u, f, depth), f, bound) <==>
            u <= if depth == 1 then bound else Capacity(bound, f, depth - 2)
  {
    if depth == 1 {
      OnesOffset(u, u);
    } else {
      LowerSlotWithinIff(u, f, depth, bound);
    }
  }

  ghost predicate AllWithin(p: Plan, bound: nat)
    requires p.Tree?
  {
    forall i :: 0 <= i < |p.children| ==> SubCoordWithin(p, i, bound)
  }

  lemma PlanWithinIff(size: nat, f: nat, m: nat, depth: nat, bound: nat)
    requires size >= 1 && f >= 1 && m >= 1 && depth >= 1 && size <= Capacity(m, f, depth)
    ensures AllWithin(BuildTree(size, f, m, depth), bound) <==> size <= CarriedWithin(bound, f, depth)
  {
    var p := BuildTree(size, f, m, depth);
    var below := if depth == 1 then bound else Capacity(bound, f, depth - 2);
    UsedSlots(size, f);
    forall i | 0 <= i < |p.children|
      ensures SubCoordWithin(p, i, bound) <==> Fill(size, f)[i] <= below
    {
      SubCoordWithinIff(size, f, m, depth, i, bound);
    }
    if size <= f * below {
      FillBelow(size, f, below);
    } else {
      SomeSlotIsAbove(size, f, below);
      var i :| 0 <= i < f && Fill(size, f)[i] > below;
      DivisionFacts(size, f);
      assert i < |p.children|;
      assert !SubCoordWithin(p, i, bound);
    }
  }

  lemma {:induction false} CapacityShifts(m: nat, f: nat, depth: nat)
    ensures Capacity(f * m, f, depth) == Capacity(m, f, depth + 1)
  {
    if depth > 0 {
      CapacityShifts(m, f, depth - 1);
    }
  }

  lemma OneTierIff(size: nat, f: nat, m: nat)
    requires f >= 2 && m >= 1
    ensures LeastDepth(size, m, f) == 1 <==> size <= f * m
  {
    assert Capacity(m, f, 1) == f * m;
    LeastDepthIsExact(size, m, f, 1);
    DepthFromIsLeast(size, m, f, 1, 1);
  }

  lemma CarriedWithinCap(size: nat, f: nat, m: nat, depth: nat)
    requires f >= 2 && m >= 1 && depth >= 1 && depth == LeastDepth(size, m, f)
    ensures size <= CarriedWithin(m, f, depth) <==> depth == 1
    ensures size <= CarriedWithin(f * m, f, depth)
  {
    LeastDepthIsExact(size, m, f, depth);
    if depth > 1 {
      LeastDepthIsExact(size, m, f, depth - 1);
      CapacityShifts(m, f, depth - 1);
    } else {
      assert Capacity(m, f, 1) == f * m;
      MulMonotone(f * m, 1, f);
    }
  }

  // ---- who is served by whom -----------------------------------------------------------------

  /** The sub-coordinator that calls the leaf at the end of a route. */
  function Caller(route: seq<nat>): seq<nat>
    requires |route| >= 2
  {
    route[..|route| - 2]
  }

  /** The jobs that the bottom sub-coordinator at `c` serves are consecutive: there are
      `Served` of them, from `FirstServed` on. */
  function Served(depth: nat, sizes: seq<nat>, f: nat, c: seq<nat>): nat
    requires f > 0
    decreases depth
  {
    if depth <= 1 then if c == [] then Sum(sizes) else 0
    else if c == [] || c[0] >= |sizes| then 0
    else Served(depth - 1, Inner(sizes[c[0]], f), f, c[1..])
  }

  function FirstServed(depth: nat, sizes: seq<nat>, f: nat, c: seq<nat>): nat
    requires f > 0
    decreases depth
  {
    if depth <= 1 || c == [] || c[0] >= |sizes| then 0
    else Offset(sizes, c[0]) + FirstServed(depth - 1, Inner(sizes[c[0]], f), f, c[1..])
  }

  lemma {:induction false} ServedFit(depth: nat, sizes: seq<nat>, f: nat, c: seq<nat>)
    requires f > 0
    ensures FirstServed(depth, sizes, f, c) + Served(depth, sizes, f, c) <= Sum(sizes)
    decreases depth
  {
    if depth > 1 && c != [] && c[0] < |sizes| {
      ServedFit(depth - 1, Inner(sizes[c[0]], f), f, c[1..]);
      OffsetGrows(sizes, c[0] + 1, |sizes|);
    }
  }

  lemma CallerStep(depth: nat, sizes: seq<nat>, f: nat, k: nat, c: seq<nat>)
    requires f > 0 && depth > 1 && k < Sum(sizes)
    ensures var at := SliceAt(sizes, k);
            Caller(Route(depth, sizes, f, k)) == c <==>
            c != [] && c[0] == at && Caller(Route(depth - 1, Inner(sizes[at], f), f, JobAt(sizes, k))) == c[1..]
  {
    var at := SliceAt(sizes, k);
    RouteUnfolds(depth, sizes, f, k, at);
    CallerOfCons(at, Route(depth - 1, Inner(sizes[at], f), f, JobAt(sizes, k)), c);
  }

  lemma CallerOfCons(i: nat, rest: seq<nat>, c: seq<nat>)
    requires |rest| >= 2
    ensures Caller([i] + rest) == c <==> c != [] && c[0] == i && Caller(rest) == c[1..]
  {
    assert Caller([i] + rest) == [i] + Caller(rest);
    if c != [] {
      assert c == [c[0]] + c[1..];
      assert ([i] + Caller(rest))[0] == i && ([i] + Caller(rest))[1..] == Caller(rest);
    }
  }

  lemma {:induction false} ServedExactly(depth: nat, sizes: seq<nat>, f: nat, c: seq<nat>, k: nat)
    requires f > 0 && k < Sum(sizes)
    ensures var first := FirstServed(depth, sizes, f, c);
            Caller(Route(depth, sizes, f, k)) == c <==> first <= k < first + Served(depth, sizes, f, c)
    decreases depth
  {
    if depth > 1 {
      CallerStep(depth, sizes, f, k, c);
      var at, job := SliceAt(sizes, k), JobAt(sizes, k);
      if c != [] && c[0] < |sizes| {
        var u := sizes[c[0]];
        ServedFit(depth - 1, Inner(u, f), f, c[1..]);
        if c[0] == at {
          ServedExactly(depth - 1, Inner(u, f), f, c[1..], job);
        } else {
          SliceApart(sizes, k, c[0]);
        }
      }
    }
  }

  lemma SliceApart(sizes: seq<nat>, k: nat, i: nat)
    requires k < Sum(sizes) && i < |sizes| && SliceAt(sizes, k) != i
    ensures !(Offset(sizes, i) <= k < Offset(sizes, i) + sizes[i])
  {
    if Offset(sizes, i) <= k < Offset(sizes, i + 1) {
      SliceIs(sizes, k, i);
    }
  }

  lemma {:induction false} ServedWithin(depth: nat, sizes: seq<nat>, f: nat, bound: nat, c: seq<nat>)
    requires f > 0 && LeafCallsWithin(depth, sizes, f, bound)
    ensures Served(depth, sizes, f, c) <= bound
    decreases depth
  {
    if depth > 1 && c != [] && c[0] < |sizes| {
      var u := sizes[c[0]];
      if u > 0 {
        assert u in sizes;
        ServedWithin(depth - 1, Inner(u, f), f, bound, c[1..]);
      } else {
        ServedFit(depth - 1, Inner(u, f), f, c[1..]);
      }
    }
  }

  lemma {:induction false} WidestCaller(depth: nat, sizes: seq<nat>, f: nat, bound: nat) returns (c: seq<nat>)
    requires f > 0 && !LeafCallsWithin(depth, sizes, f, bound)
    ensures Served(depth, sizes, f, c) > bound
    decreases depth
  {
    if depth <= 1 {
      c := [];
    } else {
      var u :| u in sizes && u > 0 && !LeafCallsWithin(depth - 1, Refill(u, f), f, bound);
      var i :| 0 <= i < |sizes| && sizes[i] == u;
      var rest := WidestCaller(depth - 1, Inner(u, f), f, bound);
      c := [i] + rest;
      assert c[1..] == rest;
    }
  }

  // ---- the same for the whole tree ----------------------------------------------------------

  ghost function ServedByTree(p: Plan, c: seq<nat>): nat
    requires Consistent(p)
  {
    if c == [] || c[0] >= |p.children| then 0
    else Served(p.depth - 1, RootSizes(p, c[0]), p.branchingFactor, c[1..])
  }

  ghost function FirstInTree(p: Plan, c: seq<nat>): nat
    requires Consistent(p)
  {
    if c == [] || c[0] >= |p.children| then 0
    else Offset(ChildSizes(p), c[0]) + FirstServed(p.depth - 1, RootSizes(p, c[0]), p.branchingFactor, c[1..])
  }

  lemma TreeServesExactly(p: Plan, c: seq<nat>, k: nat)
    requires Consistent(p) && k < p.size
    ensures Caller(RootRoute(p, k)) == c <==> FirstInTree(p, c) <= k < FirstInTree(p, c) + ServedByTree(p, c)
  {
    var sizes, f := ChildSizes(p), p.branchingFactor;
    var at, job := SliceAt(sizes, k), JobAt(sizes, k);
    CallerOfCons(at, Route(p.depth - 1, RootSizes(p, at), f, job), c);
    if c != [] && c[0] < |sizes| {
      ServedFit(p.depth - 1, RootSizes(p, c[0]), f, c[1..]);
      if c[0] == at {
        ServedExactly(p.depth - 1, RootSizes(p, at), f, c[1..], job);
      } else {
        SliceApart(sizes, k, c[0]);
      }
    }
  }

  lemma ServedFitTree(p: Plan, c: seq<nat>)
    requires Consistent(p)
    ensures FirstInTree(p, c) + ServedByTree(p, c) <= p.size
  {
    if c != [] && c[0] < |p.children| {
      ServedFit(p.depth - 1, RootSizes(p, c[0]), p.branchingFactor, c[1..]);
      OffsetGrows(ChildSizes(p), c[0] + 1, |p.children|);
    }
  }

  lemma TreeServesWithin(p: Plan, bound: nat, c: seq<nat>)
    requires Consistent(p) && AllWithin(p, bound)
    ensures ServedByTree(p, c) <= bound
  {
    if c != [] && c[0] < |p.children| {
      assert SubCoordWithin(p, c[0], bound);
      ServedWithin(p.depth - 1, RootSizes(p, c[0]), p.branchingFactor, bound, c[1..]);
    }
  }

  lemma WidestInTree(p: Plan, bound: nat) returns (c: seq<nat>)
    requires Consistent(p) && !AllWithin(p, bound)
    ensures ServedByTree(p, c) > bound
  {
    var i :| 0 <= i < |p.children| && !SubCoordWithin(p, i, bound);
    var rest := WidestCaller(p.depth - 1, RootSizes(p, i), p.branchingFactor, bound);
    c := [i] + rest;
    assert c[1..] == rest;
  }

  // ---- counted in the log --------------------------------------------------------------------

  ghost function From(visited: set<seq<nat>>, c: seq<nat>): set<seq<nat>> {
    set r | r in visited && |r| >= 2 && Caller(r) == c
  }

  /** The leaves called by the sub-coordinator at `c`. */
  ghost function LeafCalls(log: seq<Event>, depth: nat, c: seq<nat>): set<seq<nat>>
    requires depth >= 1
  {
    From(Visited(log, depth), c)
  }

  ghost predicate CallsWithin(log: seq<Event>, depth: nat, bound: nat)
    requires depth >= 1
  {
    forall c: seq<nat> :: |LeafCalls(log, depth, c)| <= bound
  }

  /** If the routes that end at `c` are a stretch of `n`, at most so many are visited. */
  lemma StretchIsCounted(routes: seq<seq<nat>>, visited: set<seq<nat>>, c: seq<nat>, first: nat, n: nat)
    requires Distinct(routes) && first + n <= |routes| && forall r :: r in routes ==> |r| >= 2
    requires forall k :: 0 <= k < |routes| ==> (Caller(routes[k]) == c <==> first <= k < first + n)
    requires forall r :: r in visited ==> r in routes
    ensures |From(visited, c)| <= n
    ensures (forall r :: r in routes ==> r in visited) ==> |From(visited, c)| == n
  {
    var stretch := routes[first..first + n];
    var elements := Elements(stretch);
    DistinctCount(stretch);
    forall r | r in From(visited, c) ensures r in stretch {
      var k :| 0 <= k < |routes| && routes[k] == r;
      assert stretch[k - first] == r;
    }
    SubsetCardinality(From(visited, c), elements);
    if forall r :: r in routes ==> r in visited {
      forall r | r in stretch ensures r in From(visited, c) {
        var k :| 0 <= k < n && stretch[k] == r;
        assert routes[first + k] == r;
      }
      assert From(visited, c) == elements;
    }
  }

  lemma RoutesAreDistinct(p: Plan)
    requires Consistent(p)
    ensures Distinct(Routes(p)) && forall r :: r in Routes(p) ==> |r| >= 2
  {
    forall i, k | 0 <= i < k < p.size ensures Routes(p)[i] != Routes(p)[k] {
      if RootRoute(p, i) == RootRoute(p, k) {
        RootRoutesDiffer(p, i, k);
      }
    }
  }

  /** The leaf calls in the log of a tree, counted in its plan. */
  lemma CallsAreServed(w: World, args: seq<Args>, opts: Selector, isolate: bool, c: seq<nat>)
    requires RunsTree(w, args, opts, isolate)
    ensures var o := RunMany(w, args, opts, isolate);
            && Consistent(o.plan)
            && |LeafCalls(o.reply.log, o.plan.depth, c)| <= ServedByTree(o.plan, c)
            && (Calm(w) ==> |LeafCalls(o.reply.log, o.plan.depth, c)| == ServedByTree(o.plan, c))
  {
    VisitedRoutes(w, args, opts, isolate);
    var o := RunMany(w, args, opts, isolate);
    CallsAreRoutes(o.plan, Visited(o.reply.log, o.plan.depth), c);
  }

  lemma CallsAreRoutes(p: Plan, visited: set<seq<nat>>, c: seq<nat>)
    requires Consistent(p) && forall r :: r in visited ==> r in Routes(p)
    ensures |From(visited, c)| <= ServedByTree(p, c)
    ensures (forall r :: r in Routes(p) ==> r in visited) ==> |From(visited, c)| == ServedByTree(p, c)
  {
    ServedFitTree(p, c);
    RoutesAreDistinct(p);
    forall k | 0 <= k < p.size
      ensures Caller(Routes(p)[k]) == c <==> FirstInTree(p, c) <= k < FirstInTree(p, c) + ServedByTree(p, c)
    {
      TreeServesExactly(p, c, k);
    }
    StretchIsCounted(Routes(p), visited, c, FirstInTree(p, c), ServedByTree(p, c));
  }

  /** No bottom sub-coordinator of the fan-out makes more than `bound` leaf calls. */
  ghost predicate LeafFanOutWithin(w: World, args: seq<Args>, opts: Selector, isolate: bool, bound: nat)
    requires RunsTree(w, args, opts, isolate)
  {
    var o := RunMany(w, args, opts, isolate);
    o.plan.depth >= 1 && CallsWithin(o.reply.log, o.plan.depth, bound)
  }

  /** Exactly how many leaf calls a bottom sub-coordinator makes at most: never more than
      `bound` if the tree could be carried with it, and if nothing fails only then. */
  lemma TreeWithinIff(w: World, args: seq<Args>, opts: Selector, isolate: bool, bound: nat)
    requires RunsTree(w, args, opts, isolate)
    ensures var p := SelectTopology(|args|, opts).plan;
            var carried := |args| <= CarriedWithin(bound, p.branchingFactor, p.depth);
            && (carried ==> LeafFanOutWithin(w, args, opts, isolate, bound))
            && (Calm(w) ==> (carried <==> LeafFanOutWithin(w, args, opts, isolate, bound)))
  {
    RunsFollowRoutes(w, args, opts, isolate);
    SelectedTree(|args|, opts);
    var o := RunMany(w, args, opts, isolate);
    var p := o.plan;
    PlanWithinIff(|args|, p.branchingFactor, Cap(opts), p.depth, bound);
    if AllWithin(p, bound) {
      forall c: seq<nat> ensures |LeafCalls(o.reply.log, p.depth, c)| <= bound {
        CallsAreServed(w, args, opts, isolate, c);
        TreeServesWithin(p, bound, c);
      }
    } else {
      var c := WidestInTree(p, bound);
      CallsAreServed(w, args, opts, isolate, c);
    }
  }

  /** The size that one tier carries. */
  function OneTier(opts: Selector): int {
    opts.branchingFactor.UnwrapOr(DEFAULT_BRANCHING_FACTOR) * Cap(opts)
  }

  lemma CapsCarry(size: nat, opts: Selector)
    requires SelectTopology(size, opts).Selected? && SelectTopology(size, opts).plan.Tree?
    ensures var p := SelectTopology(size, opts).plan;
            && Cap(opts) >= 0 && OneTier(opts) >= 0
            && (size <= CarriedWithin(Cap(opts), p.branchingFactor, p.depth) <==> size <= OneTier(opts))
            && size <= CarriedWithin(OneTier(opts), p.branchingFactor, p.depth)
  {
    SelectedTree(size, opts);
    var p := SelectTopology(size, opts).plan;
    CarriedWithinCap(size, p.branchingFactor, Cap(opts), p.depth);
    OneTierIff(size, p.branchingFactor, Cap(opts));
  }

  /** The fan-out cap as documented ("each tier under maxFanOut") is kept when nothing
      fails exactly up to `branchingFactor * maxFanOut` jobs, the size one tier carries;
      what always holds is `branchingFactor` times the cap. */
  lemma WithinMaxFanOutIff(w: World, args: seq<Args>, opts: Selector, isolate: bool)
    requires RunsTree(w, args, opts, isolate)
    ensures Cap(opts) >= 0 && OneTier(opts) >= 0
    ensures Calm(w) ==> (LeafFanOutWithin(w, args, opts, isolate, Cap(opts)) <==> |args| <= OneTier(opts))
    ensures LeafFanOutWithin(w, args, opts, isolate, OneTier(opts))
  {
    CapsCarry(|args|, opts);
    TreeWithinIff(w, args, opts, isolate, Cap(opts));
    TreeWithinIff(w, args, opts, isolate, OneTier(opts));
  }
}
