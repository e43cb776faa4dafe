/** When the answer of a fan-out depends on the order in which its runs end. The workers all
    claim their first index before any run can end; from there on every order is possible. */
module FanOutOrder {
  import opened Options
  import opened FanOut

  const CUT := Err(AbortedBySibling)

  function Lowest(c: Config): (lowest: nat)
    ensures lowest <= |c.runs|
  {
    LowestError(c.runs)
  }

  // ---- schedules -----------------------------------------------------------------------------

  /** Every worker claims an index. */
  function Start(c: Config): (steps: seq<Step>)
    ensures |steps| == PoolSize(c) && forall w :: 0 <= w < PoolSize(c) ==> steps[w] == Claim(w)
  {
    seq(PoolSize(c), w requires 0 <= w < PoolSize(c) => Claim(w))
  }

  /** A whole schedule after the start. */
  ghost predicate Completes(c: Config, rest: seq<Step>) {
    Runs(c, Initial(c), Start(c) + rest) && Finished(End(c, Initial(c), Start(c) + rest))
  }

  ghost function Out(c: Config, rest: seq<Step>): (out: seq<Settled>)
    requires Genuine(c) && Completes(c, rest)
    ensures Answered(c, out)
  {
    FinishedIsAnswered(c, Start(c) + rest);
    Values(End(c, Initial(c), Start(c) + rest).settled)
  }

  ghost function AnswerOf(c: Config, rest: seq<Step>): Outcome
    requires Genuine(c) && Completes(c, rest)
  {
    Assemble(c.mode, Out(c, rest))
  }

  /** The first index that can be claimed after the lowest failure has ended. */
  function FirstLate(c: Config): nat {
    if PoolSize(c) <= Lowest(c) then Lowest(c) + 1 else PoolSize(c)
  }

  predicate AllFailAtFirst(c: Config) {
    PoolSize(c) <= |c.runs| && forall w :: 0 <= w < PoolSize(c) ==> c.runs[w].Err?
  }

  /** Nothing is stopped, nothing is left to be stopped, or nothing can escape. */
  predicate OrderIsImmaterial(c: Config) {
    c.mode != ThrowFast || FirstLate(c) >= |c.runs| || PoolSize(c) == 1 || AllFailAtFirst(c)
  }

  // ---- putting schedules together ------------------------------------------------------------

  lemma {:induction false} RunSplits(c: Config, s: State, a: seq<Step>, b: seq<Step>)
    requires Runs(c, s, a + b)
    ensures Runs(c, s, a) && Runs(c, End(c, s, a), b) && End(c, s, a + b) == End(c, End(c, s, a), b)
    decreases |a|
  {
    if a == [] {
      assert a + b == b;
    } else {
      assert (a + b)[0] == a[0] && (a + b)[1..] == a[1..] + b;
      RunSplits(c, Do(c, s, a[0]), a[1..], b);
    }
  }

  lemma {:induction false} RunJoins(c: Config, s: State, a: seq<Step>, b: seq<Step>)
    requires Runs(c, s, a) && Runs(c, End(c, s, a), b)
    ensures Runs(c, s, a + b) && End(c, s, a + b) == End(c, End(c, s, a), b)
    decreases |a|
  {
    if a == [] {
      assert a + b == b;
    } else {
      assert (a + b)[0] == a[0] && (a + b)[1..] == a[1..] + b;
      RunJoins(c, Do(c, s, a[0]), a[1..], b);
    }
  }

  /** After the first `k` workers have claimed. */
  function Claimed(c: Config, k: nat): State
    requires k <= PoolSize(c)
  {
    State(seq(|c.runs|, i => None), k, false,
          seq(PoolSize(c), w requires 0 <= w < PoolSize(c) => if w < k then Running(w) else Claiming),
          seq(k, i requires 0 <= i < k => i))
  }

  lemma NextClaims(c: Config, k: nat)
    requires c.runs != [] && k < PoolSize(c)
    ensures Enabled(Claimed(c, k), Claim(k)) && OnClaim(Claimed(c, k), k) == Claimed(c, k + 1)
  {
    var s, s' := Claimed(c, k), Claimed(c, k + 1);
    assert s.workers[k := Running(k)] == s'.workers;
    assert s.started + [k] == s'.started;
  }

  lemma {:induction false} AllClaim(c: Config, k: nat)
    requires c.runs != [] && k <= PoolSize(c)
    ensures Runs(c, Claimed(c, k), Start(c)[k..])
    ensures End(c, Claimed(c, k), Start(c)[k..]) == Claimed(c, PoolSize(c))
    decreases PoolSize(c) - k
  {
    if k < PoolSize(c) {
      NextClaims(c, k);
      AllClaim(c, k + 1);
      assert Start(c)[k..][0] == Claim(k) && Start(c)[k..][1..] == Start(c)[k + 1..];
    }
  }

  function Begun(c: Config): State {
    Claimed(c, PoolSize(c))
  }

  lemma StartBegins(c: Config)
    requires c.runs != []
    ensures Runs(c, Initial(c), Start(c)) && End(c, Initial(c), Start(c)) == Begun(c)
  {
    AllClaim(c, 0);
    assert Start(c)[0..] == Start(c);
    assert Claimed(c, 0) == Initial(c);
  }

  lemma RestOf(c: Config, rest: seq<Step>)
    requires c.runs != [] && Completes(c, rest)
    ensures Runs(c, Begun(c), rest) && End(c, Begun(c), rest) == End(c, Initial(c), Start(c) + rest)
  {
    RunSplits(c, Initial(c), Start(c), rest);
    StartBegins(c);
  }

  // ---- when the order is immaterial -----------------------------------------------------------

  /** What must come out if nothing late can be claimed in time. */
  function Expected(c: Config): (out: seq<Settled>)
    ensures |out| == |c.runs|
  {
    seq(|c.runs|, i requires 0 <= i < |c.runs| => if i < FirstLate(c) then c.runs[i] else CUT)
  }

  /** The first indices are not cut off. */
  ghost predicate EarlyRun(c: Config, s: State) {
    && |s.settled| == |c.runs| && s.cursor >= PoolSize(c)
    && forall i :: 0 <= i < PoolSize(c) && i < |s.settled| ==> s.settled[i] in {None, Some(c.runs[i])}
  }

  lemma {:induction false} EarlyIndicesRun(c: Config, s: State, steps: seq<Step>)
    requires EarlyRun(c, s) && Runs(c, s, steps)
    ensures EarlyRun(c, End(c, s, steps))
    decreases |steps|
  {
    if steps != [] {
      EarlyIndicesRun(c, Do(c, s, steps[0]), steps[1..]);
    }
  }

  /** Before the first failure ends, a single worker is at most at the lowest failing index. */
  predicate OneAtATime(c: Config, s: State) {
    && |s.workers| == 1 && s.cursor <= Lowest(c) + 1
    && (s.workers[0] == Claiming ==> s.cursor <= Lowest(c))
    && (s.workers[0] != Claiming ==> s.cursor >= 1 && s.workers[0] == Running(s.cursor - 1))
  }

  /** Or all workers are still at their first index, which fails. */
  predicate AllHeld(c: Config, s: State) {
    AllFailAtFirst(c) && s.cursor == |s.workers| == PoolSize(c)
    && forall w :: 0 <= w < |s.workers| ==> s.workers[w] == Running(w)
  }

  ghost predicate LateCut(c: Config, s: State) {
    && |s.settled| == |c.runs| && Lowest(c) < |c.runs| && c.mode == ThrowFast
    && (!s.aborted ==> (PoolSize(c) == 1 && OneAtATime(c, s)) || AllHeld(c, s))
    && (forall w :: 0 <= w < |s.workers| && s.workers[w].Running? ==> s.workers[w].idx < FirstLate(c))
    && forall i :: FirstLate(c) <= i < |s.settled| ==> s.settled[i] in {None, Some(CUT)}
  }

  lemma StepKeepsLateCut(c: Config, s: State, step: Step)
    requires LateCut(c, s) && Enabled(s, step)
    ensures LateCut(c, Do(c, s, step))
  {
  }

  lemma {:induction false} LateIndicesAreCut(c: Config, s: State, steps: seq<Step>)
    requires LateCut(c, s) && Runs(c, s, steps)
    ensures LateCut(c, End(c, s, steps))
    decreases |steps|
  {
    if steps != [] {
      StepKeepsLateCut(c, s, steps[0]);
      LateIndicesAreCut(c, Do(c, s, steps[0]), steps[1..]);
    }
  }

  lemma BeginsLateCut(c: Config)
    requires c.mode == ThrowFast && Lowest(c) < |c.runs| && (PoolSize(c) == 1 || AllFailAtFirst(c))
    ensures LateCut(c, Begun(c))
  {
  }

  lemma UpToLowest(c: Config, out: seq<Settled>, i: nat)
    requires Answered(c, out) && i <= Lowest(c) && i < |out|
    ensures out[i] == c.runs[i]
  {
  }

  lemma OutFillsSlots(c: Config, rest: seq<Step>)
    requires Genuine(c) && c.runs != [] && Completes(c, rest)
    ensures Runs(c, Begun(c), rest) && |End(c, Begun(c), rest).settled| == |Out(c, rest)|
    ensures forall i :: 0 <= i < |Out(c, rest)| ==> End(c, Begun(c), rest).settled[i] == Some(Out(c, rest)[i])
  {
    RestOf(c, rest);
    FinishedIsAnswered(c, Start(c) + rest);
  }

  /** Then every schedule fills the slots in the same way. */
  lemma OutIsExpected(c: Config, rest: seq<Step>)
    requires Genuine(c) && Completes(c, rest) && c.mode == ThrowFast && Lowest(c) < |c.runs|
    requires FirstLate(c) >= |c.runs| || PoolSize(c) == 1 || AllFailAtFirst(c)
    ensures Out(c, rest) == Expected(c)
  {
    OutFillsSlots(c, rest);
    var out, s := Out(c, rest), End(c, Begun(c), rest);
    EarlyIndicesRun(c, Begun(c), rest);
    if FirstLate(c) < |c.runs| {
      BeginsLateCut(c);
      LateIndicesAreCut(c, Begun(c), rest);
    }
    forall i | 0 <= i < |out| ensures out[i] == Expected(c)[i] {
      assert s.settled[i] == Some(out[i]);
      if i <= Lowest(c) {
        UpToLowest(c, out, i);
      }
    }
  }

  lemma SameAnswer(c: Config, a: seq<Step>, b: seq<Step>)
    requires Genuine(c) && OrderIsImmaterial(c) && Completes(c, a) && Completes(c, b)
    ensures AnswerOf(c, a) == AnswerOf(c, b)
  {
    if c.mode != ThrowFast || Lowest(c) == |c.runs| {
      AnswerIsScheduleFree(c, Start(c) + a);
      AnswerIsScheduleFree(c, Start(c) + b);
    } else {
      OutIsExpected(c, a);
      OutIsExpected(c, b);
    }
  }

  // ---- when it is not ----------------------------------------------------------------------------

  /** From every state the workers can come to an end. */
  lemma {:induction false} CanFinish(c: Config, s: State) returns (steps: seq<Step>)
    requires Inv(c, s) && Genuine(c)
    ensures Runs(c, s, steps) && Finished(End(c, s, steps))
    decreases Work(s)
  {
    if Finished(s) {
      steps := [];
    } else {
      var w :| 0 <= w < |s.workers| && !s.workers[w].Returned?;
      var step := if s.workers[w].Claiming? then Claim(w) else Settle(w);
      StepUsesWork(c, s, step);
      RunKeepsInv(c, s, [step]);
      OneStep(c, s, step);
      var rest := CanFinish(c, Do(c, s, step));
      RunJoins(c, s, [step], rest);
      steps := [step] + rest;
    }
  }

  lemma OneStep(c: Config, s: State, step: Step)
    requires Inv(c, s) && Genuine(c) && Enabled(s, step)
    ensures Runs(c, s, [step]) && End(c, s, [step]) == Do(c, s, step) && Inv(c, Do(c, s, step))
  {
    assert [step][1..] == [];
    match step
    case Claim(w) => ClaimKeepsInv(c, s, w);
    case Settle(w) => SettleKeepsInv(c, s, w);
  }

  /** The index is being run, or its run has filled its slot. */
  ghost predicate Kept(c: Config, s: State, i: nat) {
    i < |s.settled| == |c.runs| && (s.settled[i] == Some(c.runs[i]) || exists w :: HeldBy(s, w, i))
  }

  lemma StepKeepsKept(c: Config, s: State, step: Step, i: nat)
    requires Inv(c, s) && Genuine(c) && Enabled(s, step) && Kept(c, s, i)
    ensures Kept(c, Do(c, s, step), i)
  {
    var s' := Do(c, s, step);
    assert SlotOk(c, s, i);
    if s.settled[i] != Some(c.runs[i]) {
      var w :| HeldBy(s, w, i);
      if step != Settle(w) {
        assert HeldBy(s', w, i);
      }
    }
  }

  lemma {:induction false} KeptToTheEnd(c: Config, s: State, steps: seq<Step>, i: nat)
    requires Inv(c, s) && Genuine(c) && Runs(c, s, steps) && Kept(c, s, i)
    ensures Kept(c, End(c, s, steps), i)
    decreases |steps|
  {
    if steps != [] {
      StepKeepsKept(c, s, steps[0], i);
      OneStep(c, s, steps[0]);
      KeptToTheEnd(c, Do(c, s, steps[0]), steps[1..], i);
    }
  }

  /** The index will be cut off when it is claimed, or has been. */
  ghost predicate Doomed(s: State, i: nat) {
    s.aborted && i < |s.settled| && (s.cursor <= i || s.settled[i] == Some(CUT))
  }

  lemma StepKeepsDoomed(c: Config, s: State, step: Step, i: nat)
    requires Inv(c, s) && Genuine(c) && Enabled(s, step) && Doomed(s, i)
    ensures Doomed(Do(c, s, step), i)
  {
  }

  lemma {:induction false} DoomedToTheEnd(c: Config, s: State, steps: seq<Step>, i: nat)
    requires Inv(c, s) && Genuine(c) && Runs(c, s, steps) && Doomed(s, i)
    ensures Doomed(End(c, s, steps), i)
    decreases |steps|
  {
    if steps != [] {
      StepKeepsDoomed(c, s, steps[0], i);
      OneStep(c, s, steps[0]);
      DoomedToTheEnd(c, Do(c, s, steps[0]), steps[1..], i);
    }
  }

  /** The lowest failure and a success are being run by two workers, and the next index to
      be claimed is the first late one. */
  ghost predicate AtTheFork(c: Config, s: State, l: nat, k: nat, j: nat) {
    && Inv(c, s) && !s.aborted && s.cursor == FirstLate(c) < |c.runs| && Lowest(c) < |c.runs| && c.mode == ThrowFast
    && l != k && HeldBy(s, l, Lowest(c)) && HeldBy(s, k, j) && j < |c.runs| && c.runs[j].Ok?
  }

  /** The first worker goes on, success by success, to the lowest failure. */
  lemma {:induction false} Advance(c: Config, s: State) returns (steps: seq<Step>)
    requires Inv(c, s) && Genuine(c) && !s.aborted && PoolSize(c) >= 2 && Lowest(c) < |c.runs|
    requires s.workers[0].Running? && s.workers[0].idx < Lowest(c) && s.cursor <= Lowest(c) && HeldBy(s, 1, 1)
    ensures Runs(c, s, steps)
    ensures var end := End(c, s, steps);
            && Inv(c, end) && !end.aborted && end.cursor == Lowest(c) + 1
            && HeldBy(end, 0, Lowest(c)) && HeldBy(end, 1, 1)
    decreases Lowest(c) - s.cursor
  {
    OneStep(c, s, Settle(0));
    var s1 := Do(c, s, Settle(0));
    OneStep(c, s1, Claim(0));
    var s2 := Do(c, s1, Claim(0));
    RunJoins(c, s, [Settle(0)], [Claim(0)]);
    steps := [Settle(0)] + [Claim(0)];
    if s.cursor < Lowest(c) {
      var rest := Advance(c, s2);
      RunJoins(c, s, steps, rest);
      steps := steps + rest;
    }
  }

  lemma ComesToTheFork(c: Config) returns (steps: seq<Step>, l: nat, k: nat, j: nat)
    requires Genuine(c) && !OrderIsImmaterial(c)
    ensures Runs(c, Begun(c), steps) && AtTheFork(c, End(c, Begun(c), steps), l, k, j)
  {
    var s := Begun(c);
    BegunInv(c);
    if Lowest(c) < PoolSize(c) {
      steps, l := [], Lowest(c);
      j :| 0 <= j < PoolSize(c) && c.runs[j].Ok?;
      k := j;
    } else {
      steps := Advance(c, s);
      l, k, j := 0, 1, 1;
    }
  }

  lemma BegunInv(c: Config)
    requires Genuine(c) && c.runs != []
    ensures Inv(c, Begun(c))
  {
    StartBegins(c);
    InitialInv(c);
    RunKeepsInv(c, Initial(c), Start(c));
  }

  lemma WholeSchedule(c: Config, a: seq<Step>, b: seq<Step>)
    requires Genuine(c) && c.runs != [] && Runs(c, Begun(c), a)
    requires Runs(c, End(c, Begun(c), a), b) && Finished(End(c, End(c, Begun(c), a), b))
    ensures Completes(c, a + b)
    ensures End(c, Initial(c), Start(c) + (a + b)) == End(c, End(c, Begun(c), a), b)
  {
    RunJoins(c, Begun(c), a, b);
    StartBegins(c);
    RunJoins(c, Initial(c), Start(c), a + b);
  }

  lemma OutOfKept(c: Config, rest: seq<Step>, i: nat)
    requires Genuine(c) && Completes(c, rest) && Kept(c, End(c, Initial(c), Start(c) + rest), i)
    ensures Out(c, rest)[i] == c.runs[i]
  {
    FinishedIsAnswered(c, Start(c) + rest);
  }

  lemma OutOfDoomed(c: Config, rest: seq<Step>, i: nat)
    requires Genuine(c) && Completes(c, rest) && Doomed(End(c, Initial(c), Start(c) + rest), i)
    ensures Out(c, rest)[i] == CUT
  {
    FinishedIsAnswered(c, Start(c) + rest);
    InitialInv(c);
    RunKeepsInv(c, Initial(c), Start(c) + rest);
    assert End(c, Initial(c), Start(c) + rest).workers[0].Returned?;
  }

  /** The failure ends first: the late index is cut off. */
  lemma FailureFirst(c: Config, steps: seq<Step>, l: nat, k: nat, j: nat) returns (rest: seq<Step>)
    requires Genuine(c) && Runs(c, Begun(c), steps) && AtTheFork(c, End(c, Begun(c), steps), l, k, j)
    ensures Completes(c, rest) && Out(c, rest)[j] == c.runs[j] && Out(c, rest)[FirstLate(c)] == CUT
  {
    var s := End(c, Begun(c), steps);
    OneStep(c, s, Settle(l));
    var s1 := Do(c, s, Settle(l));
    assert HeldBy(s1, k, j);
    var tail := CanFinish(c, s1);
    RunJoins(c, s, [Settle(l)], tail);
    KeptToTheEnd(c, s1, tail, j);
    DoomedToTheEnd(c, s1, tail, FirstLate(c));
    WholeSchedule(c, steps, [Settle(l)] + tail);
    rest := steps + ([Settle(l)] + tail);
    OutOfKept(c, rest, j);
    OutOfDoomed(c, rest, FirstLate(c));
  }

  /** The success ends first: its worker runs the late index. */
  lemma SuccessFirst(c: Config, steps: seq<Step>, l: nat, k: nat, j: nat) returns (rest: seq<Step>)
    requires Genuine(c) && Runs(c, Begun(c), steps) && AtTheFork(c, End(c, Begun(c), steps), l, k, j)
    ensures Completes(c, rest) && Out(c, rest)[j] == c.runs[j]
    ensures Out(c, rest)[FirstLate(c)] == c.runs[FirstLate(c)]
  {
    var s := End(c, Begun(c), steps);
    OneStep(c, s, Settle(k));
    var s1 := Do(c, s, Settle(k));
    OneStep(c, s1, Claim(k));
    var s2 := Do(c, s1, Claim(k));
    assert HeldBy(s2, k, FirstLate(c));
    var tail := CanFinish(c, s2);
    RunJoins(c, s1, [Claim(k)], tail);
    RunJoins(c, s, [Settle(k)], [Claim(k)] + tail);
    KeptToTheEnd(c, s2, tail, j);
    KeptToTheEnd(c, s2, tail, FirstLate(c));
    WholeSchedule(c, steps, [Settle(k)] + ([Claim(k)] + tail));
    rest := steps + ([Settle(k)] + ([Claim(k)] + tail));
    OutOfKept(c, rest, j);
    OutOfKept(c, rest, FirstLate(c));
  }

  lemma AnswersDiffer(a: seq<Settled>, b: seq<Settled>, j: nat, u: nat)
    requires |a| == |b| && j < |a| && u < |a| && a[j].Ok? && b[j].Ok? && a[u] == CUT && b[u] != CUT
    requires LowestError(b) < |b|
    ensures Assemble(ThrowFast, a) != Assemble(ThrowFast, b)
  {
    NoErrorsIff(a);
    assert u in Errors(a) && Errors(a)[u] == AbortedBySibling;
    assert j in Partial(a) && j in Partial(b);
    assert u in Errors(b) ==> Errors(b)[u] != AbortedBySibling;
  }

  lemma OrderMatters(c: Config) returns (a: seq<Step>, b: seq<Step>)
    requires Genuine(c) && !OrderIsImmaterial(c)
    ensures Completes(c, a) && Completes(c, b) && AnswerOf(c, a) != AnswerOf(c, b)
  {
    var steps, l, k, j := ComesToTheFork(c);
    a := FailureFirst(c, steps, l, k, j);
    b := SuccessFirst(c, steps, l, k, j);
    LowestErrorIsGenuine(c, Out(c, b));
    AnswersDiffer(Out(c, a), Out(c, b), j, FirstLate(c));
  }

  /** All orders of completion give the same answer if and only if the mode is another than
      `throw-fast`, or there is one worker, or all workers fail at their first index, or no
      index is left to be claimed once the lowest failure can have ended. */
  lemma AnswerIsFixedIff(c: Config)
    requires Genuine(c)
    ensures (forall a, b :: Completes(c, a) && Completes(c, b) ==> AnswerOf(c, a) == AnswerOf(c, b))
            <==> OrderIsImmaterial(c)
  {
    if OrderIsImmaterial(c) {
      forall a, b | Completes(c, a) && Completes(c, b) ensures AnswerOf(c, a) == AnswerOf(c, b) {
        SameAnswer(c, a, b);
      }
    } else {
      var a, b := OrderMatters(c);
      assert Completes(c, a) && Completes(c, b) && AnswerOf(c, a) != AnswerOf(c, b);
    }
  }
}
