/** The tournament reduce, which exists three times (the pool, the loader-only pool and
    the test fake), and the chunking of `scatter` and `pmap`. */
module Tournament {
  import opened Options
  import opened Powers

  // ---- what a tournament is -------------------------------------------------------------

  /** Entry `k` of a round: neighbours are combined, an odd last element is carried over. */
  function RoundAt<T>(f: (T, T) -> T, xs: seq<T>, k: nat): T
    requires 2 * k < |xs|
  {
    if 2 * k + 1 < |xs| then f(xs[2 * k], xs[2 * k + 1]) else xs[2 * k]
  }

  function Round<T>(f: (T, T) -> T, xs: seq<T>): (next: seq<T>)
    ensures IsRound(f, xs, next)
  {
    if |xs| < 2 then xs else [f(xs[0], xs[1])] + Round(f, xs[2..])
  }

  ghost predicate IsRound<T>(f: (T, T) -> T, xs: seq<T>, next: seq<T>) {
    |next| == (|xs| + 1) / 2 && RoundSoFar(f, xs, next)
  }

  ghost predicate RoundSoFar<T>(f: (T, T) -> T, xs: seq<T>, next: seq<T>) {
    |next| <= (|xs| + 1) / 2 && forall k :: 0 <= k < |next| ==> next[k] == RoundAt(f, xs, k)
  }

  lemma RoundIs<T>(f: (T, T) -> T, xs: seq<T>, next: seq<T>)
    requires IsRound(f, xs, next)
    ensures next == Round(f, xs)
  {
    var spec := Round(f, xs);
    forall k | 0 <= k < |next| ensures next[k] == spec[k] {
    }
  }

  function Play<T>(f: (T, T) -> T, xs: seq<T>): T
    requires xs != []
    decreases |xs|
  {
    if |xs| == 1 then xs[0] else Play(f, Round(f, xs))
  }

  function Rounds(n: nat): nat {
    if n <= 1 then 0 else 1 + Rounds((n + 1) / 2)
  }

  function Fold<T>(f: (T, T) -> T, first: T, rest: seq<T>): T
    decreases |rest|
  {
    if rest == [] then first else Fold(f, f(first, rest[0]), rest[1..])
  }

  ghost predicate Associative<T(!new)>(f: (T, T) -> T) {
    forall a, b, c :: f(f(a, b), c) == f(a, f(b, c))
  }

  lemma {:induction false} FoldShift<T(!new)>(f: (T, T) -> T, a: T, b: T, rest: seq<T>)
    requires Associative(f)
    ensures Fold(f, f(a, b), rest) == f(a, Fold(f, b, rest))
    decreases |rest|
  {
    if rest != [] {
      FoldShift(f, a, f(b, rest[0]), rest[1..]);
      assert f(f(a, b), rest[0]) == f(a, f(b, rest[0]));
    }
  }

  lemma {:induction false} RoundKeepsFold<T(!new)>(f: (T, T) -> T, xs: seq<T>)
    requires Associative(f) && xs != []
    ensures Fold(f, Round(f, xs)[0], Round(f, xs)[1..]) == Fold(f, xs[0], xs[1..])
    decreases |xs|
  {
    if |xs| >= 2 {
      var ab, rest := f(xs[0], xs[1]), xs[2..];
      assert xs[1..][1..] == rest && xs[1..][0] == xs[1];
      assert Round(f, xs)[1..] == Round(f, rest);
      if rest != [] {
        RoundKeepsFold(f, rest);
        var next := Round(f, rest);
        FoldShift(f, ab, next[0], next[1..]);
        FoldShift(f, ab, rest[0], rest[1..]);
      }
    }
  }

  /** For an associative reducer the tournament is the left fold. */
  lemma {:induction false} TournamentIsFold<T(!new)>(f: (T, T) -> T, xs: seq<T>)
    requires Associative(f) && xs != []
    ensures Play(f, xs) == Fold(f, xs[0], xs[1..])
    decreases |xs|
  {
    if |xs| > 1 {
      RoundKeepsFold(f, xs);
      TournamentIsFold(f, Round(f, xs));
    }
  }

  // ---- the combination tree ---------------------------------------------------------------

  datatype Tree<T> = Leaf(item: T) | Node(left: Tree<T>, right: Tree<T>)

  function Fringe<T>(t: Tree<T>): seq<T> {
    match t
    case Leaf(item) => [item]
    case Node(l, r) => Fringe(l) + Fringe(r)
  }

  function Fringes<T>(ts: seq<Tree<T>>): seq<T> {
    if ts == [] then [] else Fringe(ts[0]) + Fringes(ts[1..])
  }

  function Combine<T>(a: Tree<T>, b: Tree<T>): Tree<T> {
    Node(a, b)
  }

  lemma {:induction false} RoundKeepsFringe<T>(ts: seq<Tree<T>>)
    ensures Fringes(Round(Combine, ts)) == Fringes(ts)
    decreases |ts|
  {
    if |ts| >= 2 {
      RoundKeepsFringe(ts[2..]);
      var next := Round(Combine, ts);
      assert next[0] == Node(ts[0], ts[1]) && next[1..] == Round(Combine, ts[2..]);
      assert ts[1..][1..] == ts[2..] && ts[1..][0] == ts[1];
    }
  }

  lemma {:induction false} TournamentKeepsFringe<T>(ts: seq<Tree<T>>)
    requires ts != []
    ensures Fringe(Play(Combine, ts)) == Fringes(ts)
    decreases |ts|
  {
    if |ts| > 1 {
      RoundKeepsFringe(ts);
      TournamentKeepsFringe(Round(Combine, ts));
    } else {
      assert Fringes(ts) == Fringe(ts[0]) + Fringes(ts[1..]);
    }
  }

  /** What a reducer makes of a combination tree. */
  function Eval<T>(f: (T, T) -> T, t: Tree<T>): T {
    match t
    case Leaf(item) => item
    case Node(l, r) => f(Eval(f, l), Eval(f, r))
  }

  function Evals<T>(f: (T, T) -> T, ts: seq<Tree<T>>): (xs: seq<T>)
    ensures |xs| == |ts| && forall i :: 0 <= i < |ts| ==> xs[i] == Eval(f, ts[i])
  {
    seq(|ts|, i requires 0 <= i < |ts| => Eval(f, ts[i]))
  }

  function Leaves<T>(xs: seq<T>): (ts: seq<Tree<T>>)
    ensures |ts| == |xs| && forall i :: 0 <= i < |xs| ==> ts[i] == Leaf(xs[i])
  {
    seq(|xs|, i requires 0 <= i < |xs| => Leaf(xs[i]))
  }

  lemma {:induction false} LeavesFringe<T>(xs: seq<T>)
    ensures Fringes(Leaves(xs)) == xs
  {
    if xs != [] {
      LeavesFringe(xs[1..]);
      assert Leaves(xs)[1..] == Leaves(xs[1..]);
    }
  }

  lemma EntryEvaluates<T>(f: (T, T) -> T, ts: seq<Tree<T>>, k: nat)
    requires 2 * k < |ts|
    ensures Eval(f, RoundAt(Combine, ts, k)) == RoundAt(f, Evals(f, ts), k)
  {
  }

  lemma RoundEvaluates<T>(f: (T, T) -> T, ts: seq<Tree<T>>)
    ensures Evals(f, Round(Combine, ts)) == Round(f, Evals(f, ts))
  {
    var next := Evals(f, Round(Combine, ts));
    forall k | 0 <= k < |next| ensures next[k] == RoundAt(f, Evals(f, ts), k) {
      EntryEvaluates(f, ts, k);
    }
    RoundIs(f, Evals(f, ts), next);
  }

  lemma {:induction false} PlayEvaluates<T>(f: (T, T) -> T, ts: seq<Tree<T>>)
    requires ts != []
    ensures Play(f, Evals(f, ts)) == Eval(f, Play(Combine, ts))
    decreases |ts|
  {
    if |ts| > 1 {
      RoundEvaluates(f, ts);
      PlayEvaluates(f, Round(Combine, ts));
    }
  }

  /** Whatever the reducer, the result is its value on a tree that does not depend on it and
      holds each item exactly once, in input order. */
  lemma TournamentUsesItemsInOrder<T>(f: (T, T) -> T, xs: seq<T>)
    requires xs != []
    ensures Play(f, xs) == Eval(f, Play(Combine, Leaves(xs)))
    ensures Fringe(Play(Combine, Leaves(xs))) == xs
  {
    TournamentKeepsFringe(Leaves(xs));
    LeavesFringe(xs);
    PlayEvaluates(f, Leaves(xs));
    assert Evals(f, Leaves(xs)) == xs;
  }

  /** The number of rounds is the binary logarithm, rounded up. */
  lemma {:induction false} RoundsIsCeilLog(n: nat)
    requires n >= 2
    ensures Rounds(n) >= 1 && Pow2(Rounds(n) - 1) < n <= Pow2(Rounds(n))
  {
    var half := (n + 1) / 2;
    if half >= 2 {
      RoundsIsCeilLog(half);
      assert Pow2(Rounds(n)) == 2 * Pow2(Rounds(half)) && Pow2(Rounds(n) - 1) == 2 * Pow2(Rounds(half) - 1);
    } else {
      assert Rounds(half) == 0 && Rounds(n) == 1 && Pow2(1) == 2 * Pow2(0);
    }
  }

  // ---- three implementations ----------------------------------------------------------------

  datatype Carry<T> = Carry(idx: nat, value: T)

  function OnlyPairs<T>(pairs: seq<seq<T>>): (valid: seq<seq<T>>)
    ensures forall k :: 0 <= k < |valid| ==> |valid[k]| == 2
  {
    if pairs == [] then []
    else
      var rest := OnlyPairs(pairs[..|pairs| - 1]);
      if |pairs[|pairs| - 1]| == 2 then rest + [pairs[|pairs| - 1]] else rest
  }

  lemma {:induction false} OnlyPairsPrefix<T>(pairs: seq<seq<T>>, valid: nat)
    requires valid <= |pairs| && forall k :: 0 <= k < |pairs| ==> (|pairs[k]| == 2 <==> k < valid)
    ensures OnlyPairs(pairs) == pairs[..valid]
  {
    if pairs != [] {
      var init := pairs[..|pairs| - 1];
      if valid == |pairs| {
        OnlyPairsPrefix(init, valid - 1);
        assert pairs == init + [pairs[|pairs| - 1]];
      } else {
        OnlyPairsPrefix(init, valid);
        assert init[..valid] == pairs[..valid];
      }
    } else {
      assert pairs[..valid] == [];
    }
  }

  function FindCarry<T>(carry: seq<Carry<T>>, idx: nat): Option<T> {
    if carry == [] then None
    else if carry[0].idx == idx then Some(carry[0].value)
    else FindCarry(carry[1..], idx)
  }

  /** The pairs of a round, with a one-element placeholder for an odd last element. */
  ghost predicate ArePairs<T>(current: seq<T>, pairs: seq<seq<T>>, carry: seq<Carry<T>>) {
    && |pairs| == (|current| + 1) / 2
    && (forall k :: 0 <= k < |pairs| ==>
         pairs[k] == if 2 * k + 1 < |current| then [current[2 * k], current[2 * k + 1]] else [current[2 * k]])
    && carry == if |current| % 2 == 1 then [Carry(|current| / 2, current[|current| - 1])] else []
  }

  method MakePairs<T>(current: seq<T>) returns (pairs: seq<seq<T>>, carry: seq<Carry<T>>)
    ensures ArePairs(current, pairs, carry)
  {
    pairs, carry := [], [];
    var i := 0;
    while i < |current|
      invariant i % 2 == 0 && i <= |current| + 1 && |pairs| == (if i <= |current| then i / 2 else (|current| + 1) / 2)
      invariant forall k :: 0 <= k < |pairs| ==>
        pairs[k] == if 2 * k + 1 < |current| then [current[2 * k], current[2 * k + 1]] else [current[2 * k]]
      invariant carry == if i > |current| then [Carry(|current| / 2, current[|current| - 1])] else []
    {
      if i + 1 < |current| {
        pairs := pairs + [[current[i], current[i + 1]]];
      } else {
        carry := carry + [Carry(|pairs|, current[i])];
        pairs := pairs + [[current[i]]];
      }
      i := i + 2;
    }
  }

  /** The fan-out over the valid pairs. */
  method ReducePairs<T>(f: (T, T) -> T, current: seq<T>, pairs: seq<seq<T>>, ghost carry: seq<Carry<T>>)
    returns (reduced: seq<T>)
    requires ArePairs(current, pairs, carry)
    ensures |reduced| == |current| / 2 && RoundSoFar(f, current, reduced)
  {
    OnlyPairsPrefix(pairs, |current| / 2);
    var validPairs := OnlyPairs(pairs);
    reduced := [];
    for k := 0 to |validPairs|
      invariant |reduced| == k && RoundSoFar(f, current, reduced)
    {
      reduced := reduced + [f(validPairs[k][0], validPairs[k][1])];
    }
  }

  /** One round of `Pool.reduce`: pairs, placeholders and a carry list. */
  method PoolRound<T>(f: (T, T) -> T, current: seq<T>) returns (next: seq<T>, calls: nat)
    ensures next == Round(f, current) && calls == |current| / 2
  {
    var pairs, carry := MakePairs(current);
    var reduced := ReducePairs(f, current, pairs, carry);
    calls := |reduced|;
    next := MergeCarry(f, current, pairs, carry, reduced);
    RoundIs(f, current, next);
  }

  lemma CarryIsLast<T>(current: seq<T>, pairs: seq<seq<T>>, carry: seq<Carry<T>>, k: nat)
    requires ArePairs(current, pairs, carry)
    ensures FindCarry(carry, k) ==
            if |current| % 2 == 1 && k == |current| / 2 then Some(current[|current| - 1]) else None
  {
    if carry != [] {
      assert carry[1..] == [];
    }
  }

  method MergeCarry<T>(ghost f: (T, T) -> T, ghost current: seq<T>, pairs: seq<seq<T>>, carry: seq<Carry<T>>,
                       reduced: seq<T>)
    returns (next: seq<T>)
    requires ArePairs(current, pairs, carry) && |reduced| == |current| / 2 && RoundSoFar(f, current, reduced)
    ensures IsRound(f, current, next)
  {
    next := [];
    var reducedIdx := 0;
    for k := 0 to |pairs|
      invariant |next| == k && RoundSoFar(f, current, next)
      invariant reducedIdx == if k <= |reduced| then k else |reduced|
    {
      CarryIsLast(current, pairs, carry, k);
      var c := FindCarry(carry, k);
      if c.Some? {
        next := next + [c.value];
      } else {
        next := next + [reduced[reducedIdx]];
        reducedIdx := reducedIdx + 1;
      }
    }
  }

  /** One round of the loader-only pool: every slot of the round is a promise. */
  method LoaderOnlyRound<T>(f: (T, T) -> T, current: seq<T>) returns (next: seq<T>, calls: nat)
    ensures next == Round(f, current) && calls == |current| / 2
  {
    var round: seq<T> := [];
    var slot := 0;
    var i := 0;
    while i < |current|
      invariant i % 2 == 0 && i <= |current| + 1 && |round| == (if i <= |current| then i / 2 else (|current| + 1) / 2)
      invariant slot == if i <= |current| then i / 2 else |current| / 2
      invariant RoundSoFar(f, current, round)
    {
      if i + 1 < |current| {
        round := round + [f(current[i], current[i + 1])];
        slot := slot + 1;
      } else {
        round := round + [current[i]];
      }
      i := i + 2;
    }
    next := [];
    for k := 0 to |round|
      invariant next == round[..k]
    {
      next := next + [round[k]];
    }
    calls := slot;
    RoundIs(f, current, next);
  }

  /** `Pool.reduce`: the tournament over the seed and the items, one call an item. */
  method PoolReduce<T>(f: (T, T) -> T, items: seq<T>, initial: T) returns (r: T, calls: nat, rounds: nat)
    ensures r == Play(f, [initial] + items)
    ensures calls == |items| && rounds == Rounds(|items| + 1)
  {
    calls, rounds := 0, 0;
    if |items| == 0 {
      return initial, 0, 0;
    }
    var current := [initial] + items;
    while |current| > 1
      invariant current != [] && Play(f, current) == Play(f, [initial] + items)
      invariant calls + |current| == |items| + 1 && rounds + Rounds(|current|) == Rounds(|items| + 1)
      decreases |current|
    {
      var next, made := PoolRound(f, current);
      current, calls, rounds := next, calls + made, rounds + 1;
    }
    r := current[0];
  }

  method LoaderOnlyReduce<T>(f: (T, T) -> T, items: seq<T>, initial: T) returns (r: T, calls: nat, rounds: nat)
    ensures r == Play(f, [initial] + items)
    ensures calls == |items| && rounds == Rounds(|items| + 1)
  {
    calls, rounds := 0, 0;
    if |items| == 0 {
      return initial, 0, 0;
    }
    var current := [initial] + items;
    while |current| > 1
      invariant current != [] && Play(f, current) == Play(f, [initial] + items)
      invariant calls + |current| == |items| + 1 && rounds + Rounds(|current|) == Rounds(|items| + 1)
      decreases |current|
    {
      var next, made := LoaderOnlyRound(f, current);
      current, calls, rounds := next, calls + made, rounds + 1;
    }
    r := current[0];
  }

  method FakeRound<T>(f: (T, T) -> T, cur: seq<T>) returns (next: seq<T>, calls: nat)
    ensures next == Round(f, cur) && calls == |cur| / 2
  {
    next, calls := [], 0;
    var i := 0;
    while i < |cur|
      invariant i % 2 == 0 && i <= |cur| + 1 && |next| == (if i <= |cur| then i / 2 else (|cur| + 1) / 2)
      invariant calls == if i <= |cur| then i / 2 else |cur| / 2
      invariant RoundSoFar(f, cur, next)
    {
      if i + 1 < |cur| {
        next := next + [f(cur[i], cur[i + 1])];
        calls := calls + 1;
      } else {
        next := next + [cur[i]];
      }
      i := i + 2;
    }
    RoundIs(f, cur, next);
  }

  /** `poolFake.reduce`, which combines while it walks and has no case for no items. */
  method FakeReduce<T>(f: (T, T) -> T, items: seq<T>, initial: T) returns (r: T, calls: nat, rounds: nat)
    ensures r == Play(f, [initial] + items)
    ensures calls == |items| && rounds == Rounds(|items| + 1)
  {
    calls, rounds := 0, 0;
    var cur := [initial] + items;
    while |cur| > 1
      invariant cur != [] && Play(f, cur) == Play(f, [initial] + items)
      invariant calls + |cur| == |items| + 1 && rounds + Rounds(|cur|) == Rounds(|items| + 1)
      decreases |cur|
    {
      var next, made := FakeRound(f, cur);
      calls := calls + made;
      cur, rounds := next, rounds + 1;
    }
    r := cur[0];
  }

  // ---- chunks ---------------------------------------------------------------------------------

  function CeilDiv(a: nat, b: nat): nat
    requires b > 0
  {
    (a + b - 1) / b
  }

  function Flatten<T>(xss: seq<seq<T>>): seq<T> {
    if xss == [] then [] else Flatten(xss[..|xss| - 1]) + xss[|xss| - 1]
  }

  lemma CeilDivBounds(a: nat, b: nat)
    requires b > 0
    ensures b * CeilDiv(a, b) >= a && b * CeilDiv(a, b) < a + b
  {
  }

  lemma CeilDivIsLeast(a: nat, b: nat, k: nat)
    requires b > 0
    ensures CeilDiv(a, b) <= k <==> a <= b * k
  {
    CeilDivBounds(a, b);
    if a <= b * k && CeilDiv(a, b) > k {
      Grows(b, k + 1, CeilDiv(a, b));
    }
    if CeilDiv(a, b) <= k {
      Grows(b, CeilDiv(a, b), k);
    }
  }

  lemma Grows(b: nat, lo: nat, hi: nat)
    requires lo <= hi
    ensures b * lo <= b * hi
  {
  }

  /** The first `n` items, in full batches of `size` but for the last. */
  ghost predicate AreBatches<T>(items: seq<T>, n: nat, size: nat, batches: seq<seq<T>>)
    requires n <= |items|
  {
    && Flatten(batches) == items[..n]
    && (forall k :: 0 <= k < |batches| - 1 ==> |batches[k]| == size)
    && (batches != [] ==> 1 <= |batches[|batches| - 1]| <= size)
  }

  lemma NextBatch<T>(items: seq<T>, n: nat, size: nat, batches: seq<seq<T>>, end: nat)
    requires n < end <= |items| && end <= n + size && AreBatches(items, n, size, batches)
    requires batches != [] ==> |batches[|batches| - 1]| == size
    ensures AreBatches(items, end, size, batches + [items[n..end]])
  {
    assert (batches + [items[n..end]])[..|batches|] == batches;
    assert items[..n] + items[n..end] == items[..end];
  }

  lemma OneTimeMore(size: nat, count: nat)
    ensures size * (count + 1) == size * count + size
  {
  }

  /** The slicing loop of `scatter` and `pmap`. */
  method SliceBatches<T>(items: seq<T>, chunkSize: nat) returns (batches: seq<seq<T>>)
    requires chunkSize > 0
    ensures AreBatches(items, |items|, chunkSize, batches) && |batches| == CeilDiv(|items|, chunkSize)
  {
    batches := [];
    var i := 0;
    while i < |items|
      invariant i == chunkSize * |batches| && i < |items| + chunkSize
      invariant AreBatches(items, if i < |items| then i else |items|, chunkSize, batches)
      invariant batches != [] && i <= |items| ==> |batches[|batches| - 1]| == chunkSize
    {
      var end := if i + chunkSize < |items| then i + chunkSize else |items|;
      NextBatch(items, i, chunkSize, batches, end);
      OneTimeMore(chunkSize, |batches|);
      batches := batches + [items[i..end]];
      i := i + chunkSize;
    }
    BatchCount(|items|, chunkSize, |batches|);
  }

  /** Chunking keeps the items in order, makes every batch but the last full, and makes
      no more batches than were asked for. */
  method Chunk<T>(items: seq<T>, chunks: nat) returns (batches: seq<seq<T>>)
    requires chunks > 0
    ensures Flatten(batches) == items && (items == [] ==> batches == [])
    ensures items != [] ==> CeilDiv(|items|, chunks) >= 1
    ensures items != [] ==> |batches| == CeilDiv(|items|, CeilDiv(|items|, chunks)) && 1 <= |batches| <= chunks
    ensures forall k :: 0 <= k < |batches| - 1 ==> |batches[k]| == CeilDiv(|items|, chunks)
    ensures items != [] ==> 1 <= |batches[|batches| - 1]| <= CeilDiv(|items|, chunks)
  {
    if |items| == 0 {
      return [];
    }
    var chunkSize := CeilDiv(|items|, chunks);
    ChunkCountIff(|items|, chunks);
    batches := SliceBatches(items, chunkSize);
    assert items[..|items|] == items;
    CeilDivIsLeast(|items|, chunkSize, 0);
  }

  lemma BatchCount(n: nat, size: nat, count: nat)
    requires size >= 1 && n <= size * count < n + size
    ensures count == CeilDiv(n, size)
  {
    CeilDivBounds(n, size);
    CeilDivIsLeast(n, size, count);
    if CeilDiv(n, size) < count {
      Grows(size, CeilDiv(n, size) + 1, count);
    }
  }

  /** Fewer batches than asked for, exactly when one fewer would have been enough at this
      batch size. */
  lemma ChunkCountIff(n: nat, chunks: nat)
    requires chunks > 0 && n > 0
    ensures CeilDiv(n, chunks) >= 1 && CeilDiv(n, CeilDiv(n, chunks)) <= chunks
    ensures CeilDiv(n, CeilDiv(n, chunks)) == chunks <==> n > CeilDiv(n, chunks) * (chunks - 1)
  {
    CeilDivIsLeast(n, chunks, 0);
    var size := CeilDiv(n, chunks);
    CeilDivBounds(n, chunks);
    CeilDivIsLeast(n, size, chunks);
    CeilDivIsLeast(n, size, chunks - 1);
    assert size * chunks == chunks * size;
  }

  function MapSeq<T, R>(f: T -> R, xs: seq<T>): (r: seq<R>)
    ensures |r| == |xs|
  {
    seq(|xs|, i requires 0 <= i < |xs| => f(xs[i]))
  }

  function MapBatches<T, R>(f: T -> R, batches: seq<seq<T>>): (r: seq<seq<R>>)
    ensures |r| == |batches|
  {
    seq(|batches|, i requires 0 <= i < |batches| => MapSeq(f, batches[i]))
  }

  /** `pmap` with an elementwise batch function is `map`, however it is chunked. */
  lemma {:induction false} PmapIsMap<T, R>(f: T -> R, batches: seq<seq<T>>)
    ensures Flatten(MapBatches(f, batches)) == MapSeq(f, Flatten(batches))
  {
    if batches != [] {
      var init, last := batches[..|batches| - 1], batches[|batches| - 1];
      PmapIsMap(f, init);
      assert MapBatches(f, batches)[..|batches| - 1] == MapBatches(f, init);
      assert MapSeq(f, Flatten(init) + last) == MapSeq(f, Flatten(init)) + MapSeq(f, last);
    }
  }
}
