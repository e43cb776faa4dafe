/** The results of a fan-out by rules of their own: what serving a call gives, and how its
    attempts end, said of `w.rpc`, `w.run` and `w.transient` alone. The rules determine the
    results, and the dispatchers follow them. */
module TreeMeaning {
  import opened Topology
  import opened TreeDispatch
  import opened TreeSoundness

  // ---- the rules ------------------------------------------------------------------------------

  /** Some job has failed with an error that looks transient. */
  ghost predicate Shaky(w: World, rs: seq<RunResult>) {
    exists i :: 0 <= i < |rs| && rs[i].Failed? && w.transient(rs[i].error)
  }

  /** A leaf runs its jobs at consecutive slots; a sub-coordinator has a stretch of results
      from each of its slices. */
  ghost predicate Serves(w: World, path: Path, call: Call, args: seq<Args>, base: nat, rs: seq<RunResult>)
    decreases Rank(call), 0
  {
    match call
    case LeafBatch(isolate) =>
      |rs| == |args| &&
      forall i {:trigger rs[i]} :: 0 <= i < |rs| ==> rs[i] == w.run(path + [i], args[i], base + i, isolate)
    case SubCoord(depth, sizes, f) =>
      && |rs| == |args| == Sum(sizes)
      && forall s :: 0 <= s < |sizes| && sizes[s] > 0 ==> NthServes(w, path, depth, sizes, f, args, base, rs, s)
  }

  /** The stretch of slice `s` comes from there. */
  ghost predicate NthServes(w: World, path: Path, depth: nat, sizes: seq<nat>, f: nat, args: seq<Args>, base: nat,
                            rs: seq<RunResult>, s: nat)
    requires |rs| == |args| == Sum(sizes) && s < |sizes|
    decreases depth, 5
  {
    OffsetFits(sizes, s);
    var from, end := Offset(sizes, s), Offset(sizes, s + 1);
    SliceServes(w, path + [s], depth, f, args[from..end], base + from, rs[from..end])
  }

  /** One leaf for each job at the bottom, and another sub-coordinator above. */
  ghost predicate SliceServes(w: World, path: Path, depth: nat, f: nat, slice: seq<Args>, base: nat, rs: seq<RunResult>)
    decreases depth, 4
  {
    if depth <= 1 then
      && |rs| == |slice|
      && forall k {:trigger rs[k]} :: 0 <= k < |rs| ==>
           Ends(w, path + [k], LeafBatch(false), [slice[k]], base + k, [rs[k]])
    else f > 0 && Ends(w, path, SubCoord(depth - 1, Fill(|slice|, f), f), slice, base, rs)
  }

  /** The attempt asks for another one. */
  ghost predicate AsksAgain(w: World, path: Path, call: Call, args: seq<Args>, base: nat, rs: seq<RunResult>)
    decreases Rank(call), 1
  {
    match w.rpc(path)
    case Threw(error, _) => w.transient(error)
    case Delivered => Serves(w, path, call, args, base, rs) && Shaky(w, rs)
  }

  /** The attempt is the last, because it does not ask for another or because it must not. */
  ghost predicate EndsWith(w: World, path: Path, call: Call, args: seq<Args>, base: nat, rs: seq<RunResult>, k: nat)
    decreases Rank(call), 1
  {
    match w.rpc(path)
    case Threw(error, _) => (k == 4 || !w.transient(error)) && rs == AllFailed(error, |args|)
    case Delivered => (k == 4 || !Shaky(w, rs)) && Serves(w, path, call, args, base, rs)
  }

  /** The attempts that gave `tried` asked for another one, and the one after them ended it. */
  ghost predicate EndsAfter(w: World, path: Path, call: Call, args: seq<Args>, base: nat, tried: seq<seq<RunResult>>,
                            rs: seq<RunResult>)
    decreases Rank(call), 2
  {
    && |tried| <= 4
    && (forall k {:trigger tried[k]} :: 0 <= k < |tried| ==> AsksAgain(w, path + [k], call, args, base, tried[k]))
    && EndsWith(w, path + [|tried|], call, args, base, rs, |tried|)
  }

  ghost predicate Ends(w: World, path: Path, call: Call, args: seq<Args>, base: nat, rs: seq<RunResult>)
    decreases Rank(call), 3
  {
    exists tried :: EndsAfter(w, path, call, args, base, tried, rs)
  }

  lemma OffsetFits(sizes: seq<nat>, s: nat)
    requires s < |sizes|
    ensures Offset(sizes, s) <= Offset(sizes, s + 1) <= Sum(sizes)
  {
    OffsetGrows(sizes, s + 1, |sizes|);
  }

  // ---- the rules determine the results ---------------------------------------------------------

  lemma Attempts(w: World, path: Path, call: Call, args: seq<Args>, base: nat, tried: seq<seq<RunResult>>,
                 rs: seq<RunResult>)
    requires EndsAfter(w, path, call, args, base, tried, rs)
    ensures |tried| <= 4 && EndsWith(w, path + [|tried|], call, args, base, rs, |tried|)
    ensures forall k :: 0 <= k < |tried| ==> AsksAgain(w, path + [k], call, args, base, tried[k])
  {
  }

  /** An attempt that ends a call does not ask for another one. */
  lemma {:induction false} EndsOrAsks(w: World, path: Path, call: Call, args: seq<Args>, base: nat,
                                      rs: seq<RunResult>, k: nat, rs': seq<RunResult>)
    requires EndsWith(w, path, call, args, base, rs, k) && AsksAgain(w, path, call, args, base, rs')
    ensures k == 4
    decreases Rank(call), 1
  {
    if w.rpc(path).Delivered? {
      ServesOnce(w, path, call, args, base, rs, rs');
    }
  }

  lemma {:induction false} EndsWithOnce(w: World, path: Path, call: Call, args: seq<Args>, base: nat,
                                        rs: seq<RunResult>, rs': seq<RunResult>, k: nat)
    requires EndsWith(w, path, call, args, base, rs, k) && EndsWith(w, path, call, args, base, rs', k)
    ensures rs == rs'
    decreases Rank(call), 1
  {
    if w.rpc(path).Delivered? {
      ServesOnce(w, path, call, args, base, rs, rs');
    }
  }

  lemma {:induction false} EndsOnce(w: World, path: Path, call: Call, args: seq<Args>, base: nat,
                                    rs: seq<RunResult>, rs': seq<RunResult>)
    requires Ends(w, path, call, args, base, rs) && Ends(w, path, call, args, base, rs')
    ensures rs == rs'
    decreases Rank(call), 2
  {
    var a :| EndsAfter(w, path, call, args, base, a, rs);
    var b :| EndsAfter(w, path, call, args, base, b, rs');
    Attempts(w, path, call, args, base, a, rs);
    Attempts(w, path, call, args, base, b, rs');
    if |a| < |b| {
      EndsOrAsks(w, path + [|a|], call, args, base, rs, |a|, b[|a|]);
    } else if |b| < |a| {
      EndsOrAsks(w, path + [|b|], call, args, base, rs', |b|, a[|b|]);
    } else {
      EndsWithOnce(w, path + [|a|], call, args, base, rs, rs', |a|);
    }
  }

  lemma {:induction false} SliceServesOnce(w: World, path: Path, depth: nat, f: nat, slice: seq<Args>, base: nat,
                                           rs: seq<RunResult>, rs': seq<RunResult>)
    requires |slice| == |rs| == |rs'|
    requires SliceServes(w, path, depth, f, slice, base, rs) && SliceServes(w, path, depth, f, slice, base, rs')
    ensures rs == rs'
    decreases depth, 3
  {
    if depth <= 1 {
      forall k | 0 <= k < |rs| ensures rs[k] == rs'[k] {
        EndsOnce(w, path + [k], LeafBatch(false), [slice[k]], base + k, [rs[k]], [rs'[k]]);
        assert [rs[k]][0] == [rs'[k]][0];
      }
    } else {
      EndsOnce(w, path, SubCoord(depth - 1, Fill(|slice|, f), f), slice, base, rs, rs');
    }
  }

  predicate SameStretch<T(==)>(sizes: seq<nat>, a: seq<T>, b: seq<T>, s: nat)
    requires |a| == |b| == Sum(sizes) && s < |sizes|
  {
    OffsetFits(sizes, s);
    a[Offset(sizes, s)..Offset(sizes, s + 1)] == b[Offset(sizes, s)..Offset(sizes, s + 1)]
  }

  /** Sequences that agree on all stretches are the same. */
  lemma {:induction false} SameStretches<T>(sizes: seq<nat>, a: seq<T>, b: seq<T>, n: nat)
    requires n <= |sizes| && |a| == |b| == Sum(sizes)
    requires forall s :: 0 <= s < n ==> SameStretch(sizes, a, b, s)
    ensures Offset(sizes, n) <= |a| && a[..Offset(sizes, n)] == b[..Offset(sizes, n)]
  {
    OffsetGrows(sizes, n, |sizes|);
    if n > 0 {
      SameStretches(sizes, a, b, n - 1);
      var from, end := Offset(sizes, n - 1), Offset(sizes, n);
      assert SameStretch(sizes, a, b, n - 1);
      assert a[..end] == a[..from] + a[from..end] && b[..end] == b[..from] + b[from..end];
    }
  }

  lemma EmptyStretch<T>(sizes: seq<nat>, a: seq<T>, b: seq<T>, s: nat)
    requires |a| == |b| == Sum(sizes) && s < |sizes| && sizes[s] == 0
    ensures SameStretch(sizes, a, b, s)
  {
    OffsetFits(sizes, s);
    assert a[Offset(sizes, s)..Offset(sizes, s + 1)] == [] == b[Offset(sizes, s)..Offset(sizes, s + 1)];
  }

  lemma NthIsServed(w: World, path: Path, depth: nat, sizes: seq<nat>, f: nat, args: seq<Args>, base: nat,
                    rs: seq<RunResult>, s: nat)
    requires Serves(w, path, SubCoord(depth, sizes, f), args, base, rs) && s < |sizes| && sizes[s] > 0
    ensures |rs| == |args| == Sum(sizes) && NthServes(w, path, depth, sizes, f, args, base, rs, s)
  {
  }

  /** What serves the slice of a stretch. */
  lemma StretchIsServed(w: World, path: Path, depth: nat, sizes: seq<nat>, f: nat, args: seq<Args>, base: nat,
                        rs: seq<RunResult>, s: nat, slice: seq<Args>, from: nat, part: seq<RunResult>)
    requires |rs| == |args| == Sum(sizes) && s < |sizes| && NthServes(w, path, depth, sizes, f, args, base, rs, s)
    requires from == Offset(sizes, s) <= Offset(sizes, s + 1) <= |rs|
    requires slice == args[from..Offset(sizes, s + 1)] && part == rs[from..Offset(sizes, s + 1)]
    ensures SliceServes(w, path + [s], depth, f, slice, base + from, part)
  {
  }

  lemma {:induction false} StretchServesOnce(w: World, path: Path, depth: nat, sizes: seq<nat>, f: nat,
                                             args: seq<Args>, base: nat, rs: seq<RunResult>, rs': seq<RunResult>,
                                             s: nat, slice: seq<Args>, from: nat, part: seq<RunResult>,
                                             part': seq<RunResult>)
    requires |rs| == |rs'| == |args| == Sum(sizes) && s < |sizes|
    requires NthServes(w, path, depth, sizes, f, args, base, rs, s)
    requires NthServes(w, path, depth, sizes, f, args, base, rs', s)
    requires from == Offset(sizes, s) <= Offset(sizes, s + 1) <= |rs| && slice == args[from..Offset(sizes, s + 1)]
    requires part == rs[from..Offset(sizes, s + 1)] && part' == rs'[from..Offset(sizes, s + 1)]
    ensures part == part'
    decreases depth, 4
  {
    StretchIsServed(w, path, depth, sizes, f, args, base, rs, s, slice, from, part);
    StretchIsServed(w, path, depth, sizes, f, args, base, rs', s, slice, from, part');
    SliceServesOnce(w, path + [s], depth, f, slice, base + from, part, part');
  }

  lemma {:induction false} SubServesOnce(w: World, path: Path, depth: nat, sizes: seq<nat>, f: nat, args: seq<Args>,
                                         base: nat, rs: seq<RunResult>, rs': seq<RunResult>)
    requires Serves(w, path, SubCoord(depth, sizes, f), args, base, rs)
    requires Serves(w, path, SubCoord(depth, sizes, f), args, base, rs')
    ensures rs == rs'
    decreases depth, 5
  {
    forall s | 0 <= s < |sizes| ensures SameStretch(sizes, rs, rs', s) {
      if sizes[s] > 0 {
        OffsetFits(sizes, s);
        NthIsServed(w, path, depth, sizes, f, args, base, rs, s);
        NthIsServed(w, path, depth, sizes, f, args, base, rs', s);
        var from, end := Offset(sizes, s), Offset(sizes, s + 1);
        StretchServesOnce(w, path, depth, sizes, f, args, base, rs, rs', s, args[from..end], from, rs[from..end],
                          rs'[from..end]);
      } else {
        EmptyStretch(sizes, rs, rs', s);
      }
    }
    SameStretches(sizes, rs, rs', |sizes|);
    assert rs[..|rs|] == rs && rs'[..|rs'|] == rs';
  }

  /** Serving a call has one outcome. */
  lemma {:induction false} ServesOnce(w: World, path: Path, call: Call, args: seq<Args>, base: nat,
                                      rs: seq<RunResult>, rs': seq<RunResult>)
    requires Serves(w, path, call, args, base, rs) && Serves(w, path, call, args, base, rs')
    ensures rs == rs'
    decreases Rank(call), 0
  {
    match call
    case LeafBatch(_) =>
    case SubCoord(depth, sizes, f) => SubServesOnce(w, path, depth, sizes, f, args, base, rs, rs');
  }

  // ---- the dispatchers follow them ---------------------------------------------------------------

  lemma LengthOfServed(w: World, path: Path, call: Call, args: seq<Args>, base: nat)
    requires CallFits(call, args)
    ensures |Serve(w, path, call, args, base).results| == |args|
  {
    ServeSound(w, path, call, args, base);
  }

  /** What attempt `k` gave, if it gave anything. */
  function Gave(w: World, path: Path, call: Call, args: seq<Args>, base: nat, k: nat): seq<RunResult> {
    Serve(w, path + [k], call, args, base).results
  }

  lemma RetriedAsksAgain(w: World, path: Path, call: Call, args: seq<Args>, base: nat, k: nat)
    requires IsRetried(w, path, call, args, base, k)
    requires Serves(w, path + [k], call, args, base, Gave(w, path, call, args, base, k))
    ensures AsksAgain(w, path + [k], call, args, base, Gave(w, path, call, args, base, k))
  {
  }

  lemma LastEnds(w: World, path: Path, call: Call, args: seq<Args>, base: nat, k: nat, exhausted: Error)
    requires k <= 4 && !IsRetried(w, path, call, args, base, k) && CallFits(call, args)
    requires Serves(w, path + [k], call, args, base, Gave(w, path, call, args, base, k))
    ensures var a := Attempt(w, path + [k], call, args, base);
            EndsWith(w, path + [k], call, args, base, FillIn(a, |args|, exhausted).results, k)
  {
    match w.rpc(path + [k])
    case Delivered =>
    case Threw(error, _) =>
      var a := Attempt(w, path + [k], call, args, base);
      assert FillIn(a, |args|, exhausted).results == AllFailed(error, |args|);
  }

  lemma FilledIn(a: Answer, b: Answer, count: nat, exhausted: Error)
    requires a.ending == b.ending
    ensures FillIn(a, count, exhausted).results == FillIn(b, count, exhausted).results
  {
  }

  lemma EndsNow(w: World, path: Path, call: Call, args: seq<Args>, base: nat, tried: seq<seq<RunResult>>,
                rs: seq<RunResult>)
    requires |tried| <= 4 && EndsWith(w, path + [|tried|], call, args, base, rs, |tried|)
    requires forall k: nat :: k < |tried| ==> AsksAgain(w, path + [k], call, args, base, tried[k])
    ensures Ends(w, path, call, args, base, rs)
  {
    assert EndsAfter(w, path, call, args, base, tried, rs);
  }

  lemma {:induction false} AttemptAsks(w: World, path: Path, call: Call, args: seq<Args>, base: nat, first: nat, k: nat)
    requires CallFits(call, args) && first <= k < LastAttempt(w, path, call, args, base, first)
    ensures AsksAgain(w, path + [k], call, args, base, Gave(w, path, call, args, base, k))
    decreases Rank(call), 2
  {
    EarlierAttemptsWereRetryable(w, path, call, args, base, first, k);
    ServeFollows(w, path + [k], call, args, base);
    RetriedAsksAgain(w, path, call, args, base, k);
  }

  lemma {:induction false} AttemptEnds(w: World, path: Path, call: Call, args: seq<Args>, base: nat, first: nat,
                                       last: nat, exhausted: Error)
    requires CallFits(call, args) && first <= 4 && last == LastAttempt(w, path, call, args, base, first)
    ensures first <= last <= 4
    ensures EndsWith(w, path + [last], call, args, base,
                     FillIn(Invoke(w, path, call, args, base, first), |args|, exhausted).results, last)
    decreases Rank(call), 2
  {
    AttemptsAreBounded(w, path, call, args, base, first);
    LastAttemptDecides(w, path, call, args, base, first);
    ServeFollows(w, path + [last], call, args, base);
    LastEnds(w, path, call, args, base, last, exhausted);
    FilledIn(Invoke(w, path, call, args, base, first), Attempt(w, path + [last], call, args, base), |args|, exhausted);
  }

  lemma {:induction false} InvokeEnds(w: World, path: Path, call: Call, args: seq<Args>, base: nat, first: nat,
                                      exhausted: Error)
    requires CallFits(call, args) && first == 0
    ensures Ends(w, path, call, args, base, FillIn(Invoke(w, path, call, args, base, first), |args|, exhausted).results)
    decreases Rank(call), 3
  {
    var last := LastAttempt(w, path, call, args, base, first);
    AttemptEnds(w, path, call, args, base, first, last, exhausted);
    var tried := seq(last, k requires 0 <= k < last => Gave(w, path, call, args, base, k));
    forall k: nat | k < last ensures AsksAgain(w, path + [k], call, args, base, tried[k]) {
      AttemptAsks(w, path, call, args, base, first, k);
    }
    EndsNow(w, path, call, args, base, tried,
            FillIn(Invoke(w, path, call, args, base, first), |args|, exhausted).results);
  }

  lemma JobLeafGives(w: World, path: Path, job: Args, base: nat)
    ensures var rs := JobLeaf(w, path, job, base).results;
            |rs| == 1 && Ends(w, path, LeafBatch(false), [job], base, [rs[0]])
    decreases 0, 4, 0
  {
    InvokeEnds(w, path, LeafBatch(false), [job], base, 0, "leaf retry exhausted");
    InvocationSound(w, path, LeafBatch(false), [job], base, "leaf retry exhausted");
    var rs := JobLeaf(w, path, job, base).results;
    assert rs == [rs[0]];
  }

  lemma HybridLeafJoins(w: World, path: Path, slice: seq<Args>, base: nat, n: nat)
    requires 0 < n <= |slice|
    ensures HybridLeaf(w, path, slice, base, n).results ==
            HybridLeaf(w, path, slice, base, n - 1).results
            + JobLeaf(w, path + [n - 1], slice[n - 1], base + (n - 1)).results
    ensures |HybridLeaf(w, path, slice, base, n - 1).results| == n - 1
  {
    HybridLeafSound(w, path, slice, base, n - 1);
  }

  lemma {:induction false} LeafGives(w: World, path: Path, slice: seq<Args>, base: nat, n: nat, k: nat)
    requires k < n <= |slice|
    ensures var rs := HybridLeaf(w, path, slice, base, n).results;
            |rs| == n && Ends(w, path + [k], LeafBatch(false), [slice[k]], base + k, [rs[k]])
    decreases 0, 5, n
  {
    HybridLeafJoins(w, path, slice, base, n);
    JobLeafGives(w, path + [n - 1], slice[n - 1], base + (n - 1));
    var rs, before := HybridLeaf(w, path, slice, base, n).results, HybridLeaf(w, path, slice, base, n - 1).results;
    if k < n - 1 {
      LeafGives(w, path, slice, base, n - 1, k);
      assert rs[k] == before[k];
    }
  }

  lemma {:induction false} SliceFollows(w: World, path: Path, depth: nat, f: nat, slice: seq<Args>, base: nat)
    requires f > 0 && slice != []
    ensures SliceServes(w, path, depth, f, slice, base, ServeSlice(w, path, depth, f, slice, base).results)
    decreases depth, 6
  {
    if depth <= 1 {
      HybridLeafSound(w, path, slice, base, |slice|);
      forall k: nat | k < |slice|
        ensures Ends(w, path + [k], LeafBatch(false), [slice[k]], base + k,
                     [HybridLeaf(w, path, slice, base, |slice|).results[k]])
      {
        LeafGives(w, path, slice, base, |slice|, k);
      }
    } else {
      FillSum(|slice|, f);
      InvokeEnds(w, path, SubCoord(depth - 1, Fill(|slice|, f), f), slice, base, 0, "sub-coord retry exhausted");
    }
  }

  lemma SlicesLength(w: World, path: Path, depth: nat, sizes: seq<nat>, f: nat, args: seq<Args>, base: nat, n: nat)
    requires f > 0 && n <= |sizes| && Sum(sizes) == |args|
    ensures Offset(sizes, n) <= |args|
    ensures |ServeSlices(w, path, depth, sizes, f, args, base, n).results| == Offset(sizes, n)
  {
    OffsetGrows(sizes, n, |sizes|);
    ServeSlicesSound(w, path, depth, sizes, f, args, base, n);
  }

  lemma Stretch<T>(before: seq<T>, next: seq<T>, from: nat, end: nat)
    requires from <= end <= |before|
    ensures (before + next)[from..end] == before[from..end] && (before + next)[|before|..] == next
  {
  }

  /** The stretches of a reply are those of its slices. */
  lemma {:induction false} SliceStretch(w: World, path: Path, depth: nat, sizes: seq<nat>, f: nat, args: seq<Args>,
                                        base: nat, n: nat, s: nat)
    requires f > 0 && s < n <= |sizes| && Sum(sizes) == |args|
    ensures var rs := ServeSlices(w, path, depth, sizes, f, args, base, n).results;
            && Offset(sizes, s) <= Offset(sizes, s + 1) <= |rs|
            && rs[Offset(sizes, s)..Offset(sizes, s + 1)] == ServeNth(w, path, depth, sizes, f, args, base, s).results
    decreases n
  {
    SlicesLength(w, path, depth, sizes, f, args, base, n);
    SlicesLength(w, path, depth, sizes, f, args, base, n - 1);
    OffsetGrows(sizes, s, s + 1);
    OffsetGrows(sizes, s + 1, n);
    var before := ServeSlices(w, path, depth, sizes, f, args, base, n - 1).results;
    var next := ServeNth(w, path, depth, sizes, f, args, base, n - 1).results;
    if s < n - 1 {
      SliceStretch(w, path, depth, sizes, f, args, base, n - 1, s);
      Stretch(before, next, Offset(sizes, s), Offset(sizes, s + 1));
    } else {
      Stretch(before, next, 0, 0);
    }
  }

  lemma NthFollows(w: World, path: Path, depth: nat, sizes: seq<nat>, f: nat, args: seq<Args>, base: nat,
                   rs: seq<RunResult>, s: nat)
    requires f > 0 && |rs| == |args| == Sum(sizes) && s < |sizes| && sizes[s] > 0
    requires rs == ServeSlices(w, path, depth, sizes, f, args, base, |sizes|).results
    ensures NthServes(w, path, depth, sizes, f, args, base, rs, s)
    decreases depth, 7
  {
    OffsetFits(sizes, s);
    var from, end := Offset(sizes, s), Offset(sizes, s + 1);
    SliceStretch(w, path, depth, sizes, f, args, base, |sizes|, s);
    SliceFollows(w, path + [s], depth, f, args[from..end], base + from);
    assert SliceOf(args, sizes, s) == args[from..end];
  }

  /** Serving a call follows the rules. */
  lemma {:induction false} ServeFollows(w: World, path: Path, call: Call, args: seq<Args>, base: nat)
    requires CallFits(call, args)
    ensures Serves(w, path, call, args, base, Serve(w, path, call, args, base).results)
    decreases Rank(call), 1
  {
    match call
    case LeafBatch(isolate) => BatchGives(w, path, isolate, args, base, Serve(w, path, call, args, base).results);
    case SubCoord(depth, sizes, f) =>
      SubFollows(w, path, depth, sizes, f, args, base, Serve(w, path, call, args, base).results);
  }

  lemma {:induction false} SubFollows(w: World, path: Path, depth: nat, sizes: seq<nat>, f: nat, args: seq<Args>,
                                      base: nat, rs: seq<RunResult>)
    requires f > 0 && Sum(sizes) == |args|
    requires rs == ServeSlices(w, path, depth, sizes, f, args, base, |sizes|).results
    ensures Serves(w, path, SubCoord(depth, sizes, f), args, base, rs)
    decreases depth + 1, 0
  {
    SlicesLength(w, path, depth, sizes, f, args, base, |sizes|);
    forall s | 0 <= s < |sizes| && sizes[s] > 0 ensures NthServes(w, path, depth, sizes, f, args, base, rs, s) {
      NthFollows(w, path, depth, sizes, f, args, base, rs, s);
    }
  }

  // ---- whole fan-outs ----------------------------------------------------------------------------

  /** The call for a child of the root. */
  function ChildCall(p: Plan, i: nat): Call
    requires p.Tree? && p.depth >= 1 && i < |p.children| && !p.children[i].InDo?
  {
    SubCoord(p.depth - 1, if p.children[i].Hybrid? then p.children[i].leafShape else ChildSizes(p.children[i]),
             p.branchingFactor)
  }

  /** One job is run in place, a hybrid has a leaf for each job, a tree a sub-coordinator for
      each child. */
  ghost predicate PlanServes(w: World, p: Plan, args: seq<Args>, isolate: bool, rs: seq<RunResult>) {
    && |rs| == |args|
    && match p
       case InDo(_) => Serves(w, [], LeafBatch(isolate), args, 0, rs)
       case Hybrid(_, _) =>
         forall i :: 0 <= i < |rs| ==> Ends(w, [i], LeafBatch(isolate), [args[i]], i, [rs[i]])
       case Tree(_, _, depth, children) =>
         && depth >= 1 && |rs| == Sum(ChildSizes(p))
         && forall i :: 0 <= i < |children| ==>
              !children[i].InDo? && children[i].size > 0 && ChildServes(w, p, args, i, rs)
  }

  ghost predicate ChildServes(w: World, p: Plan, args: seq<Args>, i: nat, rs: seq<RunResult>)
    requires p.Tree? && p.depth >= 1 && i < |p.children| && !p.children[i].InDo?
    requires |rs| == |args| == Sum(ChildSizes(p))
  {
    OffsetFits(ChildSizes(p), i);
    var from, end := Offset(ChildSizes(p), i), Offset(ChildSizes(p), i + 1);
    Ends(w, [i], ChildCall(p, i), args[from..end], from, rs[from..end])
  }

  lemma PlanServesOnce(w: World, p: Plan, args: seq<Args>, isolate: bool, rs: seq<RunResult>, rs': seq<RunResult>)
    requires PlanServes(w, p, args, isolate, rs) && PlanServes(w, p, args, isolate, rs')
    ensures rs == rs'
  {
    match p
    case InDo(_) => ServesOnce(w, [], LeafBatch(isolate), args, 0, rs, rs');
    case Hybrid(_, _) =>
      forall i | 0 <= i < |rs| ensures rs[i] == rs'[i] {
        EndsOnce(w, [i], LeafBatch(isolate), [args[i]], i, [rs[i]], [rs'[i]]);
        assert [rs[i]][0] == [rs'[i]][0];
      }
    case Tree(_, _, _, children) =>
      var sizes := ChildSizes(p);
      forall i | 0 <= i < |sizes| ensures SameStretch(sizes, rs, rs', i) {
        OffsetFits(sizes, i);
        var from, end := Offset(sizes, i), Offset(sizes, i + 1);
        assert ChildServes(w, p, args, i, rs) && ChildServes(w, p, args, i, rs');
        EndsOnce(w, [i], ChildCall(p, i), args[from..end], from, rs[from..end], rs'[from..end]);
      }
      SameStretches(sizes, rs, rs', |sizes|);
      assert rs[..|rs|] == rs && rs'[..|rs'|] == rs';
  }

  lemma RootLeafGives(w: World, args: seq<Args>, isolate: bool, i: nat)
    requires i < |args|
    ensures var rs := RootLeaf(w, Ones(|args|), args, isolate, i).results;
            |rs| == 1 && Ends(w, [i], LeafBatch(isolate), [args[i]], i, [rs[0]])
  {
    OnesOffset(|args|, i);
    OnesOffset(|args|, i + 1);
    assert SliceOf(args, Ones(|args|), i) == [args[i]];
    InvokeEnds(w, [i], LeafBatch(isolate), [args[i]], i, 0, "invokeLeafBatchWithRetry: exhausted retries");
    InvocationSound(w, [i], LeafBatch(isolate), [args[i]], i, "invokeLeafBatchWithRetry: exhausted retries");
    var rs := RootLeaf(w, Ones(|args|), args, isolate, i).results;
    assert rs == [rs[0]];
  }

  lemma RootLeavesJoin(w: World, args: seq<Args>, isolate: bool, n: nat)
    requires 0 < n <= |args|
    ensures |Ones(|args|)| == |args|
    ensures RootLeaves(w, Ones(|args|), args, isolate, n).results ==
            RootLeaves(w, Ones(|args|), args, isolate, n - 1).results
            + RootLeaf(w, Ones(|args|), args, isolate, n - 1).results
    ensures |RootLeaves(w, Ones(|args|), args, isolate, n - 1).results| == n - 1
  {
    OnesOffset(|args|, n - 1);
    RootLeavesSound(w, Ones(|args|), args, isolate, n - 1);
  }

  lemma {:induction false} RootLeavesGive(w: World, args: seq<Args>, isolate: bool, n: nat, i: nat)
    requires i < n <= |args|
    ensures var rs := RootLeaves(w, Ones(|args|), args, isolate, n).results;
            |rs| == n && Ends(w, [i], LeafBatch(isolate), [args[i]], i, [rs[i]])
    decreases n
  {
    RootLeavesJoin(w, args, isolate, n);
    RootLeafGives(w, args, isolate, n - 1);
    if i < n - 1 {
      RootLeavesGive(w, args, isolate, n - 1, i);
    }
  }

  lemma RootSubGives(w: World, p: Plan, m: nat, args: seq<Args>, i: nat, from: nat, end: nat)
    requires Balanced(p, m) && p.Tree? && i < |p.children| && p.children[i].size > 0
    requires from == Offset(ChildSizes(p), i) && end == Offset(ChildSizes(p), i + 1) <= |args|
    ensures |RootSub(w, p, args, i).results| == end - from
    ensures Ends(w, [i], ChildCall(p, i), args[from..end], from, RootSub(w, p, args, i).results)
  {
    RootCallFits(p, m, i, args[from..end]);
    RootChildSound(w, i, RootCall(p, i), args[from..end], from, "sub-coord retry exhausted");
    InvokeEnds(w, [i], RootCall(p, i), args[from..end], from, 0, "sub-coord retry exhausted");
    assert RootCall(p, i) == ChildCall(p, i);
  }

  lemma RootSubsJoin(w: World, p: Plan, args: seq<Args>, n: nat)
    requires p.Tree? && 0 < n <= |p.children|
    ensures RootSubs(w, p, args, n).results == RootSubs(w, p, args, n - 1).results + RootSub(w, p, args, n - 1).results
  {
  }

  /** The first `n` children give as many results as they have jobs. */
  ghost predicate RootSubsFit(w: World, p: Plan, args: seq<Args>, n: nat)
    requires p.Tree? && n <= |p.children|
  {
    |RootSubs(w, p, args, n).results| == Offset(ChildSizes(p), n)
  }

  lemma NextStretch(sizes: seq<nat>, i: nat, n: nat, before: seq<RunResult>, next: seq<RunResult>,
                    stretch: seq<RunResult>)
    requires i < n <= |sizes| && |before| == Offset(sizes, n - 1) && |before + next| == Offset(sizes, n)
    requires if i == n - 1 then stretch == next
             else (OffsetGrows(sizes, i, i + 1); OffsetGrows(sizes, i + 1, n - 1);
                   stretch == before[Offset(sizes, i)..Offset(sizes, i + 1)])
    ensures Offset(sizes, i) <= Offset(sizes, i + 1) <= |before + next|
    ensures (before + next)[Offset(sizes, i)..Offset(sizes, i + 1)] == stretch
  {
    OffsetGrows(sizes, i, i + 1);
    if i < n - 1 {
      OffsetGrows(sizes, i + 1, n - 1);
    }
  }

  lemma {:induction false} RootSubsGive(w: World, p: Plan, args: seq<Args>, n: nat, i: nat)
    requires p.Tree? && i < n <= |p.children|
    requires forall k: nat :: k <= n ==> RootSubsFit(w, p, args, k)
    ensures var rs := RootSubs(w, p, args, n).results;
            && Offset(ChildSizes(p), i) <= Offset(ChildSizes(p), i + 1) <= |rs|
            && rs[Offset(ChildSizes(p), i)..Offset(ChildSizes(p), i + 1)] == RootSub(w, p, args, i).results
    decreases n
  {
    assert RootSubsFit(w, p, args, n) && RootSubsFit(w, p, args, n - 1);
    RootSubsJoin(w, p, args, n);
    if i < n - 1 {
      RootSubsGive(w, p, args, n - 1, i);
    }
    NextStretch(ChildSizes(p), i, n, RootSubs(w, p, args, n - 1).results, RootSub(w, p, args, n - 1).results,
                RootSub(w, p, args, i).results);
  }

  lemma NthSubSound(w: World, p: Plan, m: nat, args: seq<Args>, i: nat)
    requires Balanced(p, m) && p.Tree? && p.size == |args| && i < |p.children|
    ensures SubSound(w, p, args, i)
  {
    assert Sum(ChildSizes(p)) == |args|;
    OffsetFits(ChildSizes(p), i);
    RootSubSound(w, p, m, args, i);
  }

  lemma AllSubsFit(w: World, p: Plan, m: nat, args: seq<Args>)
    requires Balanced(p, m) && p.Tree? && p.size == |args|
    ensures Sum(ChildSizes(p)) == |args| && forall n: nat :: n <= |p.children| ==> RootSubsFit(w, p, args, n)
  {
    forall i | 0 <= i < |p.children| ensures SubSound(w, p, args, i) {
      NthSubSound(w, p, m, args, i);
    }
    forall n: nat | n <= |p.children| ensures RootSubsFit(w, p, args, n) {
      RootSubsSound(w, p, args, n);
    }
  }

  lemma TreeServes(w: World, p: Plan, m: nat, args: seq<Args>, isolate: bool)
    requires Balanced(p, m) && p.Tree? && p.size == |args|
    ensures PlanServes(w, p, args, isolate, RootSubs(w, p, args, |p.children|).results)
  {
    var rs := RootSubs(w, p, args, |p.children|).results;
    AllSubsFit(w, p, m, args);
    assert RootSubsFit(w, p, args, |p.children|);
    forall i | 0 <= i < |p.children|
      ensures !p.children[i].InDo? && p.children[i].size > 0 && ChildServes(w, p, args, i, rs)
    {
      OffsetFits(ChildSizes(p), i);
      RootSubsGive(w, p, args, |p.children|, i);
      RootSubGives(w, p, m, args, i, Offset(ChildSizes(p), i), Offset(ChildSizes(p), i + 1));
    }
  }

  lemma DispatchServes(w: World, p: Plan, m: nat, args: seq<Args>, isolate: bool)
    requires p.size == |args| && (p.InDo? ==> |args| <= 1) && (p.Hybrid? ==> p.leafShape == Ones(|args|))
    requires p.Tree? ==> Balanced(p, m) && p.Tree?
    ensures DispatchPlan(w, p, args, isolate).Done?
    ensures PlanServes(w, p, args, isolate, DispatchPlan(w, p, args, isolate).reply.results)
  {
    match p
    case InDo(size) =>
      if size == 1 {
        assert [args[0]] == args;
      }
    case Hybrid(_, shape) =>
      OnesOffset(|args|, |args|);
      RootLeavesSound(w, shape, args, isolate, |args|);
      forall i: nat | i < |args|
        ensures Ends(w, [i], LeafBatch(isolate), [args[i]], i, [RootLeaves(w, shape, args, isolate, |args|).results[i]])
      {
        RootLeavesGive(w, args, isolate, |args|, i);
      }
    case Tree(_, _, _, _) => TreeServes(w, p, m, args, isolate);
  }

  /** The results of a fan-out are those that the rules give its plan, and no others. */
  lemma FanOutFollowsRules(w: World, args: seq<Args>, opts: Selector, isolate: bool, rs: seq<RunResult>)
    requires RunMany(w, args, opts, isolate).Done?
    ensures var o := RunMany(w, args, opts, isolate);
            rs == o.reply.results <==> PlanServes(w, o.plan, args, isolate, rs)
  {
    var o := RunMany(w, args, opts, isolate);
    if args != [] {
      SelectedPlanIsLossless(|args|, opts);
      DispatchServes(w, o.plan, opts.maxFanOut.UnwrapOr(DEFAULT_MAX_FAN_OUT), args, isolate);
    }
    if PlanServes(w, o.plan, args, isolate, rs) {
      PlanServesOnce(w, o.plan, args, isolate, rs, o.reply.results);
    }
  }

  // ---- one call ------------------------------------------------------------------------------------

  /** The attempt at `path` throws an error that looks transient, or some job of it does. */
  ghost predicate BatchAsksAgain(w: World, path: Path, isolate: bool, args: seq<Args>, base: nat) {
    match w.rpc(path)
    case Threw(error, _) => w.transient(error)
    case Delivered =>
      exists i :: 0 <= i < |args| && w.run(path + [i], args[i], base + i, isolate).Failed?
                  && w.transient(w.run(path + [i], args[i], base + i, isolate).error)
  }

  /** How a batch ends with its attempt at `path`: with the runs of that attempt, job by job,
      or with its error. */
  ghost predicate BatchEndsWith(w: World, path: Path, isolate: bool, args: seq<Args>, base: nat, ending: Ending) {
    match w.rpc(path)
    case Threw(error, _) => ending == Thrown(error)
    case Delivered =>
      && ending.Returned? && |ending.results| == |args|
      && forall i :: 0 <= i < |args| ==> ending.results[i] == w.run(path + [i], args[i], base + i, isolate)
  }

  /** A batch of jobs ends with the first of its five attempts that does not ask for another,
      or with the fifth. */
  lemma BatchEnds(w: World, path: Path, isolate: bool, args: seq<Args>, base: nat, j: nat, first: nat)
    requires j <= 4 && first == 0 && forall k: nat :: k < j ==> BatchAsksAgain(w, path + [k], isolate, args, base)
    requires j == 4 || !BatchAsksAgain(w, path + [j], isolate, args, base)
    ensures BatchEndsWith(w, path + [j], isolate, args, base,
                          Invoke(w, path, LeafBatch(isolate), args, base, first).ending)
  {
    forall k: nat | k < j ensures CallAsksAgain(w, path + [k], LeafBatch(isolate), args, base) {
      BatchAsksAgainIff(w, path + [k], isolate, args, base);
    }
    BatchAsksAgainIff(w, path + [j], isolate, args, base);
    CallEnds(w, path, LeafBatch(isolate), args, base, j, first);
    BatchReturns(w, path + [j], isolate, args, base, Invoke(w, path, LeafBatch(isolate), args, base, first).ending);
  }

  lemma BatchReturns(w: World, path: Path, isolate: bool, args: seq<Args>, base: nat, ending: Ending)
    requires CallEndsWith(w, path, LeafBatch(isolate), args, base, ending)
    ensures BatchEndsWith(w, path, isolate, args, base, ending)
  {
    if w.rpc(path).Delivered? {
      BatchGives(w, path, isolate, args, base, ending.results);
    }
  }

  lemma BatchGives(w: World, path: Path, isolate: bool, args: seq<Args>, base: nat, rs: seq<RunResult>)
    requires rs == Serve(w, path, LeafBatch(isolate), args, base).results
    ensures |rs| == |args| && forall i :: 0 <= i < |rs| ==> rs[i] == w.run(path + [i], args[i], base + i, isolate)
  {
    RunBatchGives(w, path, isolate, args, base);
  }

  lemma RunBatchGives(w: World, path: Path, isolate: bool, args: seq<Args>, base: nat)
    ensures var rs := RunBatch(w, path, args, base, isolate).results;
            |rs| == |args| && forall i :: 0 <= i < |rs| ==> rs[i] == w.run(path + [i], args[i], base + i, isolate)
  {
    var rs := RunBatch(w, path, args, base, isolate).results;
    forall i | 0 <= i < |rs| ensures rs[i] == w.run(path + [i], args[i], base + i, isolate) {
    }
  }

  /** The same for any call, of its replies. */
  ghost predicate CallAsksAgain(w: World, path: Path, call: Call, args: seq<Args>, base: nat) {
    match w.rpc(path)
    case Threw(error, _) => w.transient(error)
    case Delivered =>
      exists i :: 0 <= i < |Serve(w, path, call, args, base).results|
                  && Serve(w, path, call, args, base).results[i].Failed?
                  && w.transient(Serve(w, path, call, args, base).results[i].error)
  }

  lemma BatchAsksAgainIff(w: World, path: Path, isolate: bool, args: seq<Args>, base: nat)
    ensures BatchAsksAgain(w, path, isolate, args, base) <==> CallAsksAgain(w, path, LeafBatch(isolate), args, base)
  {
    BatchGives(w, path, isolate, args, base, Serve(w, path, LeafBatch(isolate), args, base).results);
  }

  /** An attempt that asks for another one is followed by one up to the fourth. */
  lemma AsksAgainIsRetried(w: World, path: Path, call: Call, args: seq<Args>, base: nat, k: nat)
    requires k <= 4
    ensures IsRetried(w, path, call, args, base, k) <==> k < 4 && CallAsksAgain(w, path + [k], call, args, base)
  {
  }

  lemma {:induction false} LastIs(w: World, path: Path, call: Call, args: seq<Args>, base: nat, k: nat, j: nat)
    requires k <= j <= 4 && forall i: nat :: k <= i < j ==> IsRetried(w, path, call, args, base, i)
    requires !IsRetried(w, path, call, args, base, j)
    ensures LastAttempt(w, path, call, args, base, k) == j
    decreases j - k
  {
    if k < j {
      LastIs(w, path, call, args, base, k + 1, j);
    }
  }

  ghost predicate CallEndsWith(w: World, path: Path, call: Call, args: seq<Args>, base: nat, ending: Ending) {
    match w.rpc(path)
    case Threw(error, _) => ending == Thrown(error)
    case Delivered => ending == Returned(Serve(w, path, call, args, base).results)
  }

  lemma CallEnds(w: World, path: Path, call: Call, args: seq<Args>, base: nat, j: nat, first: nat)
    requires j <= 4 && first == 0 && forall k: nat :: k < j ==> CallAsksAgain(w, path + [k], call, args, base)
    requires j == 4 || !CallAsksAgain(w, path + [j], call, args, base)
    ensures CallEndsWith(w, path + [j], call, args, base, Invoke(w, path, call, args, base, first).ending)
  {
    forall k: nat | k < j ensures IsRetried(w, path, call, args, base, k) {
      AsksAgainIsRetried(w, path, call, args, base, k);
    }
    AsksAgainIsRetried(w, path, call, args, base, j);
    LastIs(w, path, call, args, base, first, j);
    LastAttemptDecides(w, path, call, args, base, first);
  }
}
