/** Choosing how a fan-out of `size` jobs is spread over coordinators, and the tree
    plan: `src/topology/selector.ts` and `src/topology/plan.ts`. */
module Topology {
  import opened Options

  const DEFAULT_MAX_FAN_OUT := 32
  const DEFAULT_BRANCHING_FACTOR := 8

  datatype Plan =
    | InDo(size: nat)
    | Hybrid(size: nat, leafShape: seq<nat>)
    | Tree(size: nat, branchingFactor: nat, depth: nat, children: seq<Plan>)

  datatype Request = Auto | PinInDo | PinHybrid | PinTree

  datatype Selector = Selector(
    topology: Option<Request>,
    maxFanOut: Option<int>,
    branchingFactor: Option<int>,
    treeThreshold: Option<int>)

  datatype Refusal = NegativeSize | BadBranchingFactor | BadMaxFanOut | InDoTooLarge | HybridTooLarge

  datatype Selection = Refused(why: Refusal) | Selected(plan: Plan)

  function Min(a: nat, b: nat): nat {
    if a <= b then a else b
  }

  lemma MulMonotone(n: nat, a: int, b: int)
    ensures a <= b ==> n * a <= n * b
  {
  }

  // ---- sizes --------------------------------------------------------------------

  /** The running cursor after `i` slices. */
  function Offset(sizes: seq<nat>, i: nat): nat
    requires i <= |sizes|
  {
    if i == 0 then 0 else Offset(sizes, i - 1) + sizes[i - 1]
  }

  function Sum(sizes: seq<nat>): nat {
    Offset(sizes, |sizes|)
  }

  lemma {:induction false} OffsetOfPrefix(a: seq<nat>, b: seq<nat>, i: nat)
    requires i <= |a| <= |b| && a == b[..|a|]
    ensures Offset(a, i) == Offset(b, i)
  {
    if i > 0 {
      OffsetOfPrefix(a, b, i - 1);
    }
  }

  lemma {:induction false} OffsetGrows(sizes: seq<nat>, i: nat, k: nat)
    requires i <= k <= |sizes|
    ensures Offset(sizes, i) <= Offset(sizes, k)
  {
    if i < k {
      OffsetGrows(sizes, i, k - 1);
    }
  }

  function Positive(sizes: seq<nat>): seq<nat> {
    if sizes == [] then []
    else
      var rest := Positive(sizes[..|sizes| - 1]);
      if sizes[|sizes| - 1] > 0 then rest + [sizes[|sizes| - 1]] else rest
  }

  /** `size` items over `n` slots, the first `size % n` slots taking one more. */
  function Fill(size: nat, n: nat): (sizes: seq<nat>)
    requires n > 0
    ensures |sizes| == n
  {
    seq(n, i requires 0 <= i < n => size / n + if i < size % n then 1 else 0)
  }

  function Ones(n: nat): (ones: seq<nat>)
    ensures |ones| == n
  {
    seq(n, i requires 0 <= i < n => 1)
  }

  lemma {:induction false} OnesOffset(n: nat, i: nat)
    requires i <= n
    ensures Offset(Ones(n), i) == i
  {
    if i > 0 {
      OnesOffset(n, i - 1);
    }
  }

  lemma {:induction false} FillOffset(size: nat, n: nat, i: nat)
    requires n > 0 && i <= n
    ensures Offset(Fill(size, n), i) == i * (size / n) + Min(i, size % n)
  {
    if i > 0 {
      FillOffset(size, n, i - 1);
      assert i * (size / n) == (i - 1) * (size / n) + size / n;
    }
  }

  /** Nothing is lost: the slots add up to the size. */
  lemma FillSum(size: nat, n: nat)
    requires n > 0
    ensures Sum(Fill(size, n)) == size
  {
    FillOffset(size, n, n);
  }

  /** A bound on the whole gives the bound on every slot, and conversely. */
  lemma FillBelow(size: nat, n: nat, bound: nat)
    requires n > 0 && size <= n * bound
    ensures forall i :: 0 <= i < n ==> Fill(size, n)[i] <= bound
  {
    var base, extras := size / n, size % n;
    assert size == n * base + extras;
    MulMonotone(n, bound, base);
    MulMonotone(n, bound + 1, base);
  }

  lemma FillAbove(size: nat, n: nat, bound: nat)
    requires n > 0 && size >= n * bound
    ensures forall i :: 0 <= i < n ==> Fill(size, n)[i] >= bound
  {
    var base, extras := size / n, size % n;
    assert size == n * base + extras;
    MulMonotone(n, base + 1, bound);
  }

  lemma {:induction false} PositivePrefix(sizes: seq<nat>, used: nat)
    requires used <= |sizes|
    requires forall i :: 0 <= i < |sizes| ==> (sizes[i] > 0 <==> i < used)
    ensures Positive(sizes) == sizes[..used]
  {
    if sizes != [] {
      var rest := sizes[..|sizes| - 1];
      if used == |sizes| {
        PositivePrefix(rest, used - 1);
        assert sizes == rest + [sizes[|sizes| - 1]];
      } else {
        PositivePrefix(rest, used);
        assert rest[..used] == sizes[..used];
      }
    } else {
      assert sizes[..used] == [];
    }
  }

  lemma DivisionFacts(size: nat, n: nat)
    requires n > 0
    ensures size == n * (size / n) + size % n && 0 <= size % n < n
    ensures size < n ==> size / n == 0 && size % n == size
    ensures size >= n ==> size / n >= 1
  {
  }

  /** The non-empty slots are the first `min(size, n)`. */
  lemma UsedSlots(size: nat, n: nat)
    requires n > 0
    ensures Positive(Fill(size, n)) == Fill(size, n)[..Min(size, n)]
    ensures forall i :: 0 <= i < Min(size, n) ==> Fill(size, n)[i] >= 1
  {
    DivisionFacts(size, n);
    PositivePrefix(Fill(size, n), Min(size, n));
  }

  /** They still hold everything. */
  lemma UsedSlotsSum(size: nat, n: nat)
    requires n > 0
    ensures Sum(Positive(Fill(size, n))) == size
  {
    var fill, used := Fill(size, n), Min(size, n);
    UsedSlots(size, n);
    FillOffset(size, n, used);
    OffsetOfPrefix(fill[..used], fill, used);
    DivisionFacts(size, n);
    if size >= n {
      FillSum(size, n);
    }
  }

  datatype Distribution = Slots(sizes: seq<nat>) | RangeError

  /** `balancedFill`: with a per-slot maximum it throws exactly when the slots cannot
      hold the size; the check of every slot afterwards never fires. */
  method BalancedFill(size: int, n: int, maxPerSlot: Option<int>) returns (d: Distribution)
    ensures n <= 0 ==> d == Slots([])
    ensures n > 0 && size <= 0 ==> d == Slots(Fill(0, n))
    ensures n > 0 && size > 0 ==>
      d == if maxPerSlot.Some? && n * maxPerSlot.value < size then RangeError else Slots(Fill(size, n))
    ensures d.Slots? && n > 0 && size > 0 && maxPerSlot.Some? ==>
      forall i :: 0 <= i < n ==> d.sizes[i] <= maxPerSlot.value
  {
    if n <= 0 {
      return Slots([]);
    }
    if size <= 0 {
      return Slots(seq(n, i => 0));
    }
    if maxPerSlot.Some? && n * maxPerSlot.value < size {
      return RangeError;
    }
    var out := new nat[n](i => 0);
    var base, extras := size / n, size % n;
    for i := 0 to n
      invariant forall k :: 0 <= k < i ==> out[k] == base + if k < extras then 1 else 0
    {
      out[i] := base + if i < extras then 1 else 0;
    }
    var sizes := out[..];
    assert sizes == Fill(size, n);
    if maxPerSlot.Some? {
      MulMonotone(n, maxPerSlot.value, 0);
      FillBelow(size, n, maxPerSlot.value);
      for i := 0 to n {
        if sizes[i] > maxPerSlot.value {
          assert false;
        }
      }
    }
    return Slots(sizes);
  }

  // ---- depth --------------------------------------------------------------------

  /** How many jobs a tree of `depth` coordinator tiers can carry. */
  function Capacity(maxFanOut: nat, branchingFactor: nat, depth: nat): nat {
    if depth == 0 then maxFanOut else branchingFactor * Capacity(maxFanOut, branchingFactor, depth - 1)
  }

  lemma {:induction false} CapacityPositive(m: nat, f: nat, depth: nat)
    requires m >= 1 && f >= 1
    ensures Capacity(m, f, depth) >= 1
  {
    if depth > 0 {
      CapacityPositive(m, f, depth - 1);
      MulMonotone(Capacity(m, f, depth - 1), 1, f);
    }
  }

  lemma {:induction false} CapacityGrows(m: nat, f: nat, lo: nat, hi: nat)
    requires m >= 1 && f >= 2 && lo <= hi
    ensures Capacity(m, f, lo) + (hi - lo) <= Capacity(m, f, hi)
    decreases hi
  {
    if lo < hi {
      CapacityGrows(m, f, lo, hi - 1);
      CapacityPositive(m, f, hi - 1);
      MulMonotone(Capacity(m, f, hi - 1), 2, f);
    }
  }

  /** `max(1, ceil(log_F(size / maxFanOut)))` in whole numbers. */
  function LeastDepth(size: nat, m: nat, f: nat): nat
    requires m >= 1 && f >= 2
  {
    DepthFrom(size, m, f, 1)
  }

  function DepthFrom(size: nat, m: nat, f: nat, depth: nat): nat
    requires m >= 1 && f >= 2
    decreases size - Capacity(m, f, depth)
  {
    CapacityGrows(m, f, depth, depth + 1);
    if Capacity(m, f, depth) >= size then depth else DepthFrom(size, m, f, depth + 1)
  }

  lemma {:induction false} DepthFromIsLeast(size: nat, m: nat, f: nat, depth: nat, k: nat)
    requires m >= 1 && f >= 2 && k >= depth
    ensures DepthFrom(size, m, f, depth) >= depth
    ensures DepthFrom(size, m, f, depth) <= k <==> Capacity(m, f, k) >= size
    decreases size - Capacity(m, f, depth)
  {
    CapacityGrows(m, f, depth, depth + 1);
    CapacityGrows(m, f, depth, k);
    if Capacity(m, f, depth) < size {
      DepthFromIsLeast(size, m, f, depth + 1, if k == depth then depth + 1 else k);
    }
  }

  /** A depth suffices exactly from the computed one on. */
  lemma LeastDepthIsExact(size: nat, m: nat, f: nat, k: nat)
    requires m >= 1 && f >= 2 && k >= 1
    ensures LeastDepth(size, m, f) <= k <==> size <= Capacity(m, f, k)
  {
    DepthFromIsLeast(size, m, f, 1, k);
  }

  // ---- plans ----------------------------------------------------------------------

  function BuildHybrid(size: nat): Plan {
    Hybrid(size, Ones(size))
  }

  function BuildTree(size: nat, f: nat, m: nat, depth: nat): Plan
    requires f > 0
    decreases depth
  {
    var used := Positive(Fill(size, f));
    Tree(size, f, depth, seq(|used|, i requires 0 <= i < |used| =>
      if depth <= 1 then BuildHybrid(Min(used[i], m)) else BuildTree(used[i], f, m, depth - 1)))
  }

  function BuildPinned(size: nat, requested: Request, f: nat, m: nat): Selection
    requires f >= 2 && m >= 1
  {
    match requested
    case PinInDo => if size > 1 then Refused(InDoTooLarge) else Selected(InDo(size))
    case PinHybrid => if size > m then Refused(HybridTooLarge) else Selected(BuildHybrid(size))
    case _ => Selected(BuildTree(size, f, m, LeastDepth(size, m, f)))
  }

  function SelectTopology(size: int, opts: Selector): Selection {
    var f := opts.branchingFactor.UnwrapOr(DEFAULT_BRANCHING_FACTOR);
    var m := opts.maxFanOut.UnwrapOr(DEFAULT_MAX_FAN_OUT);
    var requested := opts.topology.UnwrapOr(Auto);
    if size < 0 then Refused(NegativeSize)
    else if f < 4 || f > 16 then Refused(BadBranchingFactor)
    else if m < 1 || m > 256 then Refused(BadMaxFanOut)
    else if size == 0 then Selected(InDo(0))
    else if requested != Auto then BuildPinned(size, requested, f, m)
    else if size == 1 then Selected(InDo(1))
    else if size <= opts.treeThreshold.UnwrapOr(m) then Selected(BuildHybrid(size))
    else Selected(BuildTree(size, f, m, LeastDepth(size, m, f)))
  }

  /** How many jobs reach a leaf if the plan is carried out. */
  function Leaves(p: Plan): nat
    decreases p, if p.Tree? then |p.children| + 1 else 0
  {
    match p
    case InDo(size) => size
    case Hybrid(_, shape) => Sum(shape)
    case Tree(_, _, _, children) => LeavesUpTo(p, |children|)
  }

  function LeavesUpTo(p: Plan, n: nat): nat
    requires p.Tree? && n <= |p.children|
    decreases p, n
  {
    if n == 0 then 0 else LeavesUpTo(p, n - 1) + Leaves(p.children[n - 1])
  }

  function ChildSizes(p: Plan): (sizes: seq<nat>)
    requires p.Tree?
    ensures |sizes| == |p.children|
  {
    seq(|p.children|, i requires 0 <= i < |p.children| => p.children[i].size)
  }

  /** Every tier is split evenly, nothing is lost at any node, and no leaf tier is
      wider than the cap. */
  ghost predicate Balanced(p: Plan, m: nat) {
    match p
    case InDo(_) => false
    case Hybrid(size, shape) => 1 <= size <= m && shape == Ones(size)
    case Tree(size, f, depth, children) =>
      && depth >= 1 && f >= 1 && |children| == Min(size, f)
      && Sum(ChildSizes(p)) == size
      && (forall i, k :: 0 <= i <= k < |children| ==> children[k].size <= children[i].size <= children[k].size + 1)
      && (forall i :: 0 <= i < |children| ==>
           && children[i].size >= 1 && Balanced(children[i], m)
           && if depth == 1 then children[i].Hybrid?
              else children[i].Tree? && children[i].depth == depth - 1 && children[i].branchingFactor == f)
  }

  /** The slots in use, as the children of a node see them. */
  lemma UsedSlotsAreEven(size: nat, f: nat, bound: nat)
    requires size >= 1 && f >= 1 && size <= f * bound
    ensures var used := Positive(Fill(size, f));
            && |used| == Min(size, f) && Sum(used) == size
            && (forall i :: 0 <= i < |used| ==> 1 <= used[i] <= bound)
            && (forall i, k :: 0 <= i <= k < |used| ==> used[k] <= used[i] <= used[k] + 1)
  {
    UsedSlots(size, f);
    UsedSlotsSum(size, f);
    FillBelow(size, f, bound);
  }

  /** A deep enough tree is balanced and truncates nowhere. */
  lemma {:induction false} TreeIsBalanced(size: nat, f: nat, m: nat, depth: nat)
    requires size >= 1 && f >= 1 && m >= 1 && 1 <= depth && size <= Capacity(m, f, depth)
    ensures Balanced(BuildTree(size, f, m, depth), m)
    ensures ChildSizes(BuildTree(size, f, m, depth)) == Positive(Fill(size, f))
    decreases depth
  {
    var p, used := BuildTree(size, f, m, depth), Positive(Fill(size, f));
    UsedSlotsAreEven(size, f, Capacity(m, f, depth - 1));
    forall i | 0 <= i < |used|
      ensures p.children[i].size == used[i] && Balanced(p.children[i], m)
      ensures if depth == 1 then p.children[i].Hybrid?
              else p.children[i].Tree? && p.children[i].depth == depth - 1 && p.children[i].branchingFactor == f
    {
      if depth > 1 {
        TreeIsBalanced(used[i], f, m, depth - 1);
      }
    }
    assert ChildSizes(p) == used;
  }

  lemma {:induction false} BalancedLeaves(p: Plan, m: nat)
    requires Balanced(p, m)
    ensures Leaves(p) == p.size
    decreases p, if p.Tree? then |p.children| + 1 else 0
  {
    if p.Tree? {
      BalancedLeavesUpTo(p, m, |p.children|);
    } else {
      OnesOffset(p.size, p.size);
    }
  }

  lemma {:induction false} BalancedLeavesUpTo(p: Plan, m: nat, n: nat)
    requires Balanced(p, m) && p.Tree? && n <= |p.children|
    ensures LeavesUpTo(p, n) == Offset(ChildSizes(p), n)
    decreases p, n
  {
    if n > 0 {
      BalancedLeavesUpTo(p, m, n - 1);
      BalancedLeaves(p.children[n - 1], m);
    }
  }

  /** Too shallow a tree is full everywhere, and drops the rest. */
  lemma {:induction false} ShallowTreeIsFull(size: nat, f: nat, m: nat, depth: nat)
    requires f >= 1 && m >= 1 && depth >= 1 && size >= Capacity(m, f, depth)
    ensures Leaves(BuildTree(size, f, m, depth)) == Capacity(m, f, depth)
    decreases depth, f + 1
  {
    FillAbove(size, f, Capacity(m, f, depth - 1));
    CapacityPositive(m, f, depth - 1);
    PositivePrefix(Fill(size, f), f);
    assert Fill(size, f)[..f] == Fill(size, f);
    ShallowLeavesUpTo(size, f, m, depth, f);
  }

  lemma OneTimeMore(n: nat, c: nat)
    requires n > 0
    ensures n * c == (n - 1) * c + c
  {
  }

  lemma {:induction false} ShallowLeavesUpTo(size: nat, f: nat, m: nat, depth: nat, n: nat)
    requires f >= 1 && m >= 1 && depth >= 1 && n <= f && Positive(Fill(size, f)) == Fill(size, f)
    requires forall i :: 0 <= i < f ==> Fill(size, f)[i] >= Capacity(m, f, depth - 1)
    ensures LeavesUpTo(BuildTree(size, f, m, depth), n) == n * Capacity(m, f, depth - 1)
    decreases depth, n
  {
    if n > 0 {
      ShallowLeavesUpTo(size, f, m, depth, n - 1);
      ShallowChild(size, f, m, depth, n - 1);
      OneTimeMore(n, Capacity(m, f, depth - 1));
    }
  }

  lemma {:induction false} ShallowChild(size: nat, f: nat, m: nat, depth: nat, i: nat)
    requires f >= 1 && m >= 1 && depth >= 1 && i < f && Positive(Fill(size, f)) == Fill(size, f)
    requires Fill(size, f)[i] >= Capacity(m, f, depth - 1)
    ensures Leaves(BuildTree(size, f, m, depth).children[i]) == Capacity(m, f, depth - 1)
    decreases depth, 0
  {
    if depth > 1 {
      ShallowTreeIsFull(Fill(size, f)[i], f, m, depth - 1);
    } else {
      OnesOffset(m, m);
    }
  }

  /** The plan carries every job exactly when the depth suffices. */
  lemma PlanIsLosslessIff(size: nat, f: nat, m: nat, depth: nat)
    requires size >= 1 && f >= 1 && m >= 1 && depth >= 1
    ensures Leaves(BuildTree(size, f, m, depth)) == size <==> size <= Capacity(m, f, depth)
    ensures Leaves(BuildTree(size, f, m, depth)) == Min(size, Capacity(m, f, depth))
  {
    if size <= Capacity(m, f, depth) {
      TreeIsBalanced(size, f, m, depth);
      BalancedLeaves(BuildTree(size, f, m, depth), m);
    } else {
      ShallowTreeIsFull(size, f, m, depth);
    }
  }

  /** Whatever is selected carries exactly the jobs it was selected for, and a tree is
      balanced and no deeper than it has to be. */
  lemma SelectedPlanIsLossless(size: int, opts: Selector)
    requires SelectTopology(size, opts).Selected?
    ensures var p := SelectTopology(size, opts).plan;
            var m := opts.maxFanOut.UnwrapOr(DEFAULT_MAX_FAN_OUT);
            && p.size == size && Leaves(p) == size
            && (p.InDo? ==> size <= 1)
            && (p.Hybrid? ==> p.leafShape == Ones(size))
            && (p.Tree? ==> Balanced(p, m))
            && (p.Tree? ==> forall k :: 1 <= k < p.depth ==> Capacity(m, p.branchingFactor, k) < size)
  {
    var p := SelectTopology(size, opts).plan;
    var m := opts.maxFanOut.UnwrapOr(DEFAULT_MAX_FAN_OUT);
    match p
    case InDo(_) =>
    case Hybrid(_, _) => OnesOffset(size, size);
    case Tree(_, f, depth, _) =>
      DepthFromIsLeast(size, m, f, 1, 1);
      DepthFromIsLeast(size, m, f, 1, depth);
      TreeIsBalanced(size, f, m, depth);
      BalancedLeaves(p, m);
      forall k | 1 <= k < depth ensures Capacity(m, f, k) < size {
        LeastDepthIsExact(size, m, f, k);
      }
  }

  /** When the selector throws, and what it complains about first. */
  lemma RefusedIff(size: int, opts: Selector)
    ensures var f, m := opts.branchingFactor.UnwrapOr(8), opts.maxFanOut.UnwrapOr(32);
            var asked := opts.topology.UnwrapOr(Auto);
            var answer := SelectTopology(size, opts);
            && (answer.Refused? <==> size < 0 || !(4 <= f <= 16) || !(1 <= m <= 256)
                                     || (asked == PinInDo && size > 1) || (asked == PinHybrid && size > m))
            && (answer.Refused? ==>
                  answer.why == if size < 0 then NegativeSize
                                else if !(4 <= f <= 16) then BadBranchingFactor
                                else if !(1 <= m <= 256) then BadMaxFanOut
                                else if asked == PinInDo then InDoTooLarge else HybridTooLarge)
  {
  }

  /** What each request gets: a pinned kind is that kind; otherwise one job is run in place,
      up to the threshold there is one tier of leaves, and above it a tree of the branching
      factor that was asked for. */
  lemma SelectionByCases(size: int, opts: Selector)
    requires SelectTopology(size, opts).Selected?
    ensures var p, asked := SelectTopology(size, opts).plan, opts.topology.UnwrapOr(Auto);
            && (size == 0 ==> p == InDo(0))
            && (size > 0 && asked == PinInDo ==> p == InDo(1))
            && (size > 0 && asked == PinHybrid ==> p.Hybrid?)
            && (size > 0 && asked == PinTree ==> p.Tree?)
            && (size > 0 && asked == Auto ==>
                  var threshold := opts.treeThreshold.UnwrapOr(opts.maxFanOut.UnwrapOr(32));
                  && (p.InDo? <==> size == 1)
                  && (p.Hybrid? <==> 2 <= size <= threshold)
                  && (p.Tree? <==> size > threshold && size > 1))
            && (p.Tree? ==> p.branchingFactor == opts.branchingFactor.UnwrapOr(8))
  {
  }

  // ---- the reported widths ----------------------------------------------------------

  /** The children of a tree plan are trees or hybrids (of its first child, here). */
  predicate Typed(p: Plan) {
    p.Tree? && p.children != [] ==> !p.children[0].InDo? && Typed(p.children[0])
  }

  function Width(p: Plan): nat {
    match p
    case InDo(size) => size
    case Hybrid(_, shape) => |shape|
    case Tree(_, _, _, children) => |children|
  }

  /** The widths along the leftmost branch. */
  function LeftmostWidths(p: Plan): seq<nat> {
    [Width(p)] + if p.Tree? && p.children != [] then LeftmostWidths(p.children[0]) else []
  }

  function WidthsFrom(cursor: Option<Plan>): seq<nat> {
    if cursor.Some? then LeftmostWidths(cursor.value) else []
  }

  function FirstChild(p: Plan): Option<Plan> {
    if p.Tree? && p.children != [] then Some(p.children[0]) else None
  }

  lemma NextWidth(widths: seq<nat>, p: Plan)
    ensures widths + LeftmostWidths(p) == widths + [Width(p)] + WidthsFrom(FirstChild(p))
    ensures |LeftmostWidths(p)| == 1 + |WidthsFrom(FirstChild(p))|
    ensures p.Hybrid? ==> widths + LeftmostWidths(p) == widths + [Width(p)]
  {
    assert LeftmostWidths(p) == [Width(p)] + WidthsFrom(FirstChild(p));
  }

  method PlanFanOutPerLevel(plan: Plan) returns (widths: seq<nat>)
    requires Typed(plan)
    ensures widths == LeftmostWidths(plan)
  {
    if plan.InDo? {
      return [plan.size];
    }
    if plan.Hybrid? {
      return [|plan.leafShape|];
    }
    NextWidth([], plan);
    widths := [|plan.children|];
    var cursor := FirstChild(plan);
    while cursor.Some?
      invariant cursor.Some? ==> Typed(cursor.value) && !cursor.value.InDo?
      invariant widths + WidthsFrom(cursor) == LeftmostWidths(plan)
      decreases |WidthsFrom(cursor)|
    {
      var p := cursor.value;
      NextWidth(widths, p);
      if p.Hybrid? {
        widths := widths + [|p.leafShape|];
        break;
      }
      widths := widths + [|p.children|];
      cursor := FirstChild(p);
    }
  }

  /** No node of the plan is wider than its tier's entry. */
  ghost predicate NoWiderThan(p: Plan, widths: seq<nat>) {
    && widths != [] && Width(p) <= widths[0]
    && (p.Tree? ==> forall i :: 0 <= i < |p.children| ==> NoWiderThan(p.children[i], widths[1..]))
  }

  lemma QuotientsAreOrdered(f: nat, a: int, r: int, b: int, s: int)
    requires f * a + r <= f * b + s && 0 <= r && s < f
    ensures a < b || (a == b && r <= s)
  {
    MulMonotone(f, b + 1, a);
    assert f * (b + 1) == f * b + f;
  }

  lemma FirstSlotIsLargest(size: nat, larger: nat, f: nat)
    requires f >= 1 && size <= larger
    ensures forall i :: 0 <= i < f ==> Fill(size, f)[i] <= Fill(size, f)[0] <= Fill(larger, f)[0]
  {
    DivisionFacts(size, f);
    DivisionFacts(larger, f);
    QuotientsAreOrdered(f, size / f, size % f, larger / f, larger % f);
  }

  lemma {:induction false} LargerTreeIsWider(size: nat, larger: nat, f: nat, m: nat, depth: nat)
    requires f >= 1 && m >= 1 && 1 <= size <= larger
    ensures NoWiderThan(BuildTree(size, f, m, depth), LeftmostWidths(BuildTree(larger, f, m, depth)))
    decreases depth
  {
    var p, q := BuildTree(size, f, m, depth), BuildTree(larger, f, m, depth);
    UsedSlots(size, f);
    UsedSlots(larger, f);
    FirstSlotIsLargest(size, larger, f);
    var widths := LeftmostWidths(q);
    assert widths[1..] == LeftmostWidths(q.children[0]);
    forall i | 0 <= i < |p.children|
      ensures NoWiderThan(p.children[i], widths[1..])
    {
      if depth > 1 {
        LargerTreeIsWider(Fill(size, f)[i], Fill(larger, f)[0], f, m, depth - 1);
      }
    }
  }

  /** Some node of the tier has that width. */
  ghost predicate HasWidth(p: Plan, tier: nat, width: nat) {
    if tier == 0 then Width(p) == width
    else p.Tree? && exists i :: 0 <= i < |p.children| && HasWidth(p.children[i], tier - 1, width)
  }

  lemma {:induction false} LeftmostIsReached(p: Plan, tier: nat)
    requires tier < |LeftmostWidths(p)|
    ensures HasWidth(p, tier, LeftmostWidths(p)[tier])
    decreases tier
  {
    if tier > 0 {
      LeftmostIsReached(p.children[0], tier - 1);
      assert HasWidth(p.children[0], tier - 1, LeftmostWidths(p)[tier]);
    }
  }

  /** The leftmost branch reports the widest node of every tier. */
  lemma ReportedWidthsAreMaxima(size: nat, f: nat, m: nat, depth: nat)
    requires f >= 1 && m >= 1 && size >= 1
    ensures var p := BuildTree(size, f, m, depth);
            && NoWiderThan(p, LeftmostWidths(p))
            && forall tier :: 0 <= tier < |LeftmostWidths(p)| ==> HasWidth(p, tier, LeftmostWidths(p)[tier])
  {
    LargerTreeIsWider(size, size, f, m, depth);
    var p := BuildTree(size, f, m, depth);
    forall tier | 0 <= tier < |LeftmostWidths(p)| ensures HasWidth(p, tier, LeftmostWidths(p)[tier]) {
      LeftmostIsReached(p, tier);
    }
  }
}
