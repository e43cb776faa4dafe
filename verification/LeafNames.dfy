/** One job, one leaf: the names under which a fan-out addresses its leaf workers. A name
    is turned into an id by `idFromName`, a hash written in hexadecimal, and a
    sub-coordinator names its leaves after its own id. All that is asked of ids is that
    they are different for different names and hold no dash. */
module LeafNames {
  import opened Collections
  import opened CodeUnits
  import opened Topology
  import opened TreeDispatch
  import opened TreeRoutes
  import opened TreePartition

  predicate NoDash(s: string) {
    '-' !in s
  }

  /** `idFromName`. */
  ghost predicate IsNaming(id: string -> string) {
    && (forall a, b :: id(a) == id(b) ==> a == b)
    && (forall a :: NoDash(id(a)))
  }

  // ---- such ids exist ------------------------------------------------------------------------

  function Mark(c: char): (mark: string)
    ensures |mark| == 2 && NoDash(mark)
  {
    if c == '-' then ['0', '0'] else ['1', c]
  }

  function Escape(s: string): (escaped: string)
    ensures NoDash(escaped)
  {
    if s == [] then [] else Mark(s[0]) + Escape(s[1..])
  }

  lemma MarkIsInjective(c: char, d: char)
    requires Mark(c) == Mark(d)
    ensures c == d
  {
    assert Mark(c)[0] == Mark(d)[0] && Mark(c)[1] == Mark(d)[1];
  }

  lemma {:induction false} EscapeIsInjective(a: string, b: string)
    requires Escape(a) == Escape(b)
    ensures a == b
  {
    if a == [] || b == [] {
      assert |Escape(a)| == |Escape(b)|;
    } else {
      SplitAt(Mark(a[0]), Escape(a[1..]), Mark(b[0]), Escape(b[1..]));
      MarkIsInjective(a[0], b[0]);
      EscapeIsInjective(a[1..], b[1..]);
      assert a == [a[0]] + a[1..] && b == [b[0]] + b[1..];
    }
  }

  lemma NamingsExist()
    ensures IsNaming(Escape)
  {
    forall a, b | Escape(a) == Escape(b) ensures a == b {
      EscapeIsInjective(a, b);
    }
  }

  // ---- names ------------------------------------------------------------------------------------

  const LEAF := "-r0-leaf-"
  const SUB := "-r0-sub-"
  const ROOT_SUB := "--sub-"
  const ROOT_LEAF := "--leaf-"

  function Pair(a: nat, b: nat): string {
    Decimal(a) + ['-'] + Decimal(b)
  }

  function LeafName(owner: string, slice: nat, job: nat): string {
    owner + (LEAF + Pair(slice, job))
  }

  function SubName(owner: string, slice: nat): string {
    owner + (SUB + Decimal(slice))
  }

  function RootSubName(coordinator: string, slice: nat): string {
    coordinator + (ROOT_SUB + Decimal(slice))
  }

  function RootLeafName(coordinator: string, leaf: nat): string {
    coordinator + (ROOT_LEAF + Decimal(leaf))
  }

  /** How the names are spelled. */
  lemma NamesAreSpelled(owner: string, slice: nat, job: nat)
    ensures LeafName(owner, slice, job) == owner + "-r0-leaf-" + Decimal(slice) + "-" + Decimal(job)
    ensures SubName(owner, slice) == owner + "-r0-sub-" + Decimal(slice)
    ensures RootSubName(owner, slice) == owner + "--sub-" + Decimal(slice)
    ensures RootLeafName(owner, job) == owner + "--leaf-" + Decimal(job)
  {
  }

  // ---- names are read back ------------------------------------------------------------------

  lemma PairIsInjective(a: nat, b: nat, c: nat, d: nat)
    requires Pair(a, b) == Pair(c, d)
    ensures a == c && b == d
  {
    assert Pair(a, b) == Decimal(a) + (['-'] + Decimal(b)) && Pair(c, d) == Decimal(c) + (['-'] + Decimal(d));
    SplitAtFirst('-', Decimal(a), Decimal(b), Decimal(c), Decimal(d));
    DecimalIsInjective(a, c);
    DecimalIsInjective(b, d);
  }

  /** An owner without a dash, a text that starts with one, and a tail. */
  lemma OwnerIsRead(o: string, o': string, middle: string, x: string, y: string)
    requires NoDash(o) && NoDash(o') && middle != [] && middle[0] == '-' && o + (middle + x) == o' + (middle + y)
    ensures o == o' && x == y
  {
    var tail := middle[1..];
    assert middle + x == ['-'] + (tail + x) && middle + y == ['-'] + (tail + y);
    SplitAtFirst('-', o, tail + x, o', tail + y);
    SplitAt(tail, x, tail, y);
  }

  lemma LeafNameIsInjective(o: string, s: nat, j: nat, o': string, s': nat, j': nat)
    requires NoDash(o) && NoDash(o') && LeafName(o, s, j) == LeafName(o', s', j')
    ensures o == o' && s == s' && j == j'
  {
    OwnerIsRead(o, o', LEAF, Pair(s, j), Pair(s', j'));
    PairIsInjective(s, j, s', j');
  }

  lemma SubNameIsInjective(o: string, s: nat, o': string, s': nat)
    requires NoDash(o) && NoDash(o') && SubName(o, s) == SubName(o', s')
    ensures o == o' && s == s'
  {
    OwnerIsRead(o, o', SUB, Decimal(s), Decimal(s'));
    DecimalIsInjective(s, s');
  }

  lemma RootNameIsInjective(c: string, middle: string, s: nat, s': nat)
    requires c + (middle + Decimal(s)) == c + (middle + Decimal(s'))
    ensures s == s'
  {
    SplitAt(c, middle + Decimal(s), c, middle + Decimal(s'));
    SplitAt(middle, Decimal(s), middle, Decimal(s'));
    DecimalIsInjective(s, s');
  }

  // ---- leaves ----------------------------------------------------------------------------------

  /** The leaf at the end of a route below `owner`, named down the tree. */
  function LeafAt(id: string -> string, owner: string, route: seq<nat>): string
    requires |route| >= 2
    decreases |route|
  {
    if |route| == 2 then LeafName(owner, route[0], route[1])
    else LeafAt(id, id(SubName(owner, route[0])), route[1..])
  }

  /** Different routes, or different sub-coordinators of one tier, never share a leaf. */
  lemma {:induction false} LeavesAreDistinct(id: string -> string, o: string, r: seq<nat>, o': string, r': seq<nat>)
    requires IsNaming(id) && NoDash(o) && NoDash(o') && |r| == |r'| >= 2
    requires LeafAt(id, o, r) == LeafAt(id, o', r')
    ensures o == o' && r == r'
    decreases |r|
  {
    assert r == [r[0]] + r[1..] && r' == [r'[0]] + r'[1..];
    if |r| == 2 {
      LeafNameIsInjective(o, r[0], r[1], o', r'[0], r'[1]);
    } else {
      LeavesAreDistinct(id, id(SubName(o, r[0])), r[1..], id(SubName(o', r'[0])), r'[1..]);
      SubNameIsInjective(o, r[0], o', r'[0]);
    }
  }

  /** The leaf worker of a route through a whole tree. */
  function TreeLeaf(id: string -> string, coordinator: string, route: seq<nat>): string
    requires |route| >= 3
  {
    id(LeafAt(id, id(RootSubName(coordinator, route[0])), route[1..]))
  }

  lemma TreeLeavesAreDistinct(id: string -> string, coordinator: string, r: seq<nat>, r': seq<nat>)
    requires IsNaming(id) && |r| == |r'| >= 3 && TreeLeaf(id, coordinator, r) == TreeLeaf(id, coordinator, r')
    ensures r == r'
  {
    LeavesAreDistinct(id, id(RootSubName(coordinator, r[0])), r[1..], id(RootSubName(coordinator, r'[0])), r'[1..]);
    RootNameIsInjective(coordinator, ROOT_SUB, r[0], r'[0]);
    assert r == [r[0]] + r[1..] && r' == [r'[0]] + r'[1..];
  }

  predicate SameLeaf(id: string -> string, coordinator: string, depth: nat, p: Path, q: Path)
    requires depth >= 1 && |p| == |q| == 2 + TrailLength(depth - 1)
  {
    TreeLeaf(id, coordinator, RootStations(p, depth)) == TreeLeaf(id, coordinator, RootStations(q, depth))
  }

  /** The runs `d` and `e` took place in the same leaf worker exactly when they are runs of
      the same job. */
  ghost predicate LeafTellsJob(p: Plan, id: string -> string, coordinator: string, d: Event, e: Event)
    requires d.Ran? && e.Ran?
  {
    && p.Tree? && p.depth >= 1 && |d.path| == |e.path| == 2 + TrailLength(p.depth - 1)
    && (SameLeaf(id, coordinator, p.depth, d.path, e.path) <==> d.slot == e.slot)
  }

  /** In a fan-out over a tree, whatever fails, two runs take place in the same leaf worker
      exactly when they are runs of the same job. */
  lemma OneJobPerLeaf(w: World, args: seq<Args>, opts: Selector, isolate: bool,
                      id: string -> string, coordinator: string, d: Event, e: Event)
    requires RunsTree(w, args, opts, isolate) && IsNaming(id) && d.Ran? && e.Ran?
    requires d in RunMany(w, args, opts, isolate).reply.log && e in RunMany(w, args, opts, isolate).reply.log
    ensures LeafTellsJob(RunMany(w, args, opts, isolate).plan, id, coordinator, d, e)
  {
    RunsFollowRoutes(w, args, opts, isolate);
    SameLeafIff(RunMany(w, args, opts, isolate).plan, id, coordinator, d, e);
  }

  lemma SameRouteIff(p: Plan, id: string -> string, coordinator: string, j: nat, k: nat)
    requires Consistent(p) && IsNaming(id) && j < p.size && k < p.size
    ensures TreeLeaf(id, coordinator, RootRoute(p, j)) == TreeLeaf(id, coordinator, RootRoute(p, k)) <==> j == k
  {
    if TreeLeaf(id, coordinator, RootRoute(p, j)) == TreeLeaf(id, coordinator, RootRoute(p, k)) {
      TreeLeavesAreDistinct(id, coordinator, RootRoute(p, j), RootRoute(p, k));
      RootRoutesDiffer(p, j, k);
    }
  }

  lemma SameLeafIff(p: Plan, id: string -> string, coordinator: string, d: Event, e: Event)
    requires Consistent(p) && IsNaming(id) && d.Ran? && e.Ran? && FollowsRoot(d, p) && FollowsRoot(e, p)
    ensures SameLeaf(id, coordinator, p.depth, d.path, e.path) <==> d.slot == e.slot
  {
    assert RootStations(d.path, p.depth) == RootRoute(p, d.slot);
    assert RootStations(e.path, p.depth) == RootRoute(p, e.slot);
    SameRouteIff(p, id, coordinator, d.slot, e.slot);
  }

  // ---- hybrid fan-outs ---------------------------------------------------------------------------

  lemma RootLeafRuns(w: World, args: seq<Args>, isolate: bool, i: nat, e: Event)
    requires i < |args| && e in RootLeaf(w, Ones(|args|), args, isolate, i).log && e.Ran?
    ensures e.slot == i && |e.path| == 3 && e.path[0] == i
  {
    OnesOffset(|args|, i);
    OnesOffset(|args|, i + 1);
    assert SliceOf(args, Ones(|args|), i) == [args[i]];
    LeafFollows(w, [i], isolate, args[i], i, 0);
    assert e.path[0] == [i][0];
  }

  lemma {:induction false} RootLeavesRun(w: World, args: seq<Args>, isolate: bool, n: nat, e: Event)
    requires n <= |args| && e in RootLeaves(w, Ones(|args|), args, isolate, n).log && e.Ran?
    ensures |e.path| == 3 && e.path[0] == e.slot
  {
    if e in RootLeaves(w, Ones(|args|), args, isolate, n - 1).log {
      RootLeavesRun(w, args, isolate, n - 1, e);
    } else {
      RootLeafRuns(w, args, isolate, n - 1, e);
    }
  }

  /** The same in a hybrid fan-out, whose leaves the coordinator names itself. */
  lemma OneJobPerRootLeaf(w: World, args: seq<Args>, opts: Selector, isolate: bool,
                          id: string -> string, coordinator: string, d: Event, e: Event)
    requires RunMany(w, args, opts, isolate).Done? && RunMany(w, args, opts, isolate).plan.Hybrid?
    requires IsNaming(id) && d.Ran? && e.Ran?
    requires d in RunMany(w, args, opts, isolate).reply.log && e in RunMany(w, args, opts, isolate).reply.log
    ensures |d.path| == |e.path| == 3
    ensures id(RootLeafName(coordinator, d.path[0])) == id(RootLeafName(coordinator, e.path[0])) <==> d.slot == e.slot
  {
    SelectedPlanIsLossless(|args|, opts);
    RootLeavesRun(w, args, isolate, |args|, d);
    RootLeavesRun(w, args, isolate, |args|, e);
    if id(RootLeafName(coordinator, d.path[0])) == id(RootLeafName(coordinator, e.path[0])) {
      RootNameIsInjective(coordinator, ROOT_LEAF, d.path[0], e.path[0]);
    }
  }
}
