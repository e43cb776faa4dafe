/** `runFanOut`: a pool of workers over a shared cursor, and the assembly of the answer
    for each `onError` mode. A run's result is given by `runs`, one per index; what the
    steps leave open is the order in which workers move and runs end. */
module FanOut {
  import opened Options

  datatype Error = RunError(message: string) | AbortedBySibling

  datatype Settled = Ok(value: int) | Err(error: Error)

  datatype Mode = Throw | ThrowFast | NullMode | Skip | SettledMode

  /** A worker is between two claims, awaiting the run of an index, or has returned. */
  datatype Worker = Claiming | Running(idx: nat) | Returned

  datatype Config = Config(runs: seq<Settled>, mode: Mode, concurrency: int)

  /** What a run throws is never the error object made for items that are cut off. */
  predicate Genuine(c: Config) {
    forall i :: 0 <= i < |c.runs| ==> c.runs[i] != Err(AbortedBySibling)
  }

  datatype State = State(
    settled: seq<Option<Settled>>,
    cursor: nat,
    aborted: bool,
    workers: seq<Worker>,
    started: seq<nat>)   // the indices whose run was begun, in order

  /** `max(1, min(concurrency, n))`. */
  function PoolSize(c: Config): (size: nat)
    ensures 1 <= size
  {
    var least := if c.concurrency < |c.runs| then c.concurrency else |c.runs|;
    if least < 1 then 1 else least
  }

  function Initial(c: Config): State {
    State(seq(|c.runs|, i => None), 0, false, seq(PoolSize(c), w => Claiming), [])
  }

  /** A worker claims the next index, or the run of its index settles. */
  datatype Step = Claim(worker: nat) | Settle(worker: nat)

  predicate Enabled(s: State, step: Step) {
    step.worker < |s.workers| &&
    match step
    case Claim(w) => s.workers[w].Claiming?
    case Settle(w) => s.workers[w].Running? && s.workers[w].idx < |s.settled|
  }

  function OnClaim(s: State, w: nat): State
    requires w < |s.workers|
  {
    var idx := s.cursor;
    var claimed := s.(cursor := s.cursor + 1);
    if idx >= |s.settled| then claimed.(workers := s.workers[w := Returned])
    else if s.aborted then claimed.(settled := s.settled[idx := Some(Err(AbortedBySibling))])
    else claimed.(workers := s.workers[w := Running(idx)], started := s.started + [idx])
  }

  function OnSettle(c: Config, s: State, w: nat): State
    requires w < |s.workers| && s.workers[w].Running? && s.workers[w].idx < |s.settled| == |c.runs|
  {
    var idx := s.workers[w].idx;
    s.(settled := s.settled[idx := Some(c.runs[idx])],
       aborted := s.aborted || (c.runs[idx].Err? && c.mode == ThrowFast),
       workers := s.workers[w := Claiming])
  }

  function Do(c: Config, s: State, step: Step): State
    requires Enabled(s, step) && |s.settled| == |c.runs|
  {
    match step
    case Claim(w) => OnClaim(s, w)
    case Settle(w) => OnSettle(c, s, w)
  }

  predicate Runs(c: Config, s: State, steps: seq<Step>)
    decreases |steps|
  {
    |s.settled| == |c.runs| && (steps != [] ==> Enabled(s, steps[0]) && Runs(c, Do(c, s, steps[0]), steps[1..]))
  }

  function End(c: Config, s: State, steps: seq<Step>): State
    requires Runs(c, s, steps)
    decreases |steps|
  {
    if steps == [] then s else End(c, Do(c, s, steps[0]), steps[1..])
  }

  // ---- the invariant ----------------------------------------------------------------------

  ghost predicate HeldBy(s: State, w: nat, idx: nat) {
    w < |s.workers| && s.workers[w] == Running(idx)
  }

  /** An index is settled once it is claimed and no longer being run. */
  ghost predicate SlotOk(c: Config, s: State, i: nat)
    requires i < |s.settled| == |c.runs|
  {
    match s.settled[i]
    case None => i >= s.cursor || exists w :: HeldBy(s, w, i)
    case Some(Err(AbortedBySibling)) => i < s.cursor && exists j :: FailedBefore(c, s, j, i)
    case Some(r) => i < s.cursor && r == c.runs[i]
  }

  /** A sibling with a smaller index has failed, and failing stops the rest. */
  ghost predicate FailedBefore(c: Config, s: State, j: nat, i: nat)
    requires |s.settled| == |c.runs|
  {
    c.mode == ThrowFast && j < i && j < |s.settled| && s.settled[j] == Some(c.runs[j]) && c.runs[j].Err?
  }

  ghost predicate AbortedForCause(c: Config, s: State)
    requires |s.settled| == |c.runs|
  {
    s.aborted ==> exists j :: FailedBefore(c, s, j, s.cursor)
  }

  ghost predicate WorkersOk(s: State) {
    && (forall w :: 0 <= w < |s.workers| && s.workers[w].Running? ==>
         s.workers[w].idx < s.cursor && s.workers[w].idx < |s.settled| && s.settled[s.workers[w].idx].None?)
    && (forall v, w :: 0 <= v < w < |s.workers| && s.workers[v].Running? && s.workers[w].Running? ==>
         s.workers[v].idx != s.workers[w].idx)
    && (forall w :: 0 <= w < |s.workers| && s.workers[w].Returned? ==> s.cursor >= |s.settled|)
  }

  /** Runs are begun in index order, each at most once. */
  ghost predicate StartedOk(s: State) {
    && (forall i :: 0 <= i < |s.started| ==> s.started[i] < s.cursor)
    && (forall i, k :: 0 <= i < k < |s.started| ==> s.started[i] < s.started[k])
  }

  ghost predicate Inv(c: Config, s: State) {
    && |s.settled| == |c.runs| && |s.workers| == PoolSize(c)
    && WorkersOk(s) && StartedOk(s) && AbortedForCause(c, s)
    && forall i :: 0 <= i < |s.settled| ==> SlotOk(c, s, i)
  }

  lemma InitialInv(c: Config)
    ensures Inv(c, Initial(c))
  {
  }

  lemma FailureStays(c: Config, s: State, s': State, j: nat, i: nat, limit: nat)
    requires |s.settled| == |c.runs| == |s'.settled| && FailedBefore(c, s, j, i) && i <= limit
    requires s'.settled[j] == s.settled[j]
    ensures FailedBefore(c, s', j, limit)
  {
  }

  lemma SlotStays(c: Config, s: State, s': State, i: nat)
    requires |s.settled| == |c.runs| == |s'.settled| && i < |s.settled|
    requires SlotOk(c, s, i) && s'.settled[i] == s.settled[i] && s.cursor <= s'.cursor
    requires s.settled[i].None? && i >= s.cursor ==> i >= s'.cursor
    requires forall w :: HeldBy(s, w, i) ==> HeldBy(s', w, i)
    requires forall j :: 0 <= j < |s.settled| && s.settled[j].Some? ==> s'.settled[j] == s.settled[j]
    ensures SlotOk(c, s', i)
  {
    if s.settled[i] == Some(Err(AbortedBySibling)) {
      var j: nat :| FailedBefore(c, s, j, i);
      FailureStays(c, s, s', j, i, i);
    } else if s.settled[i].None? && i < s.cursor {
      var w: nat :| HeldBy(s, w, i);
      assert HeldBy(s', w, i);
    }
  }

  lemma ClaimKeepsInv(c: Config, s: State, w: nat)
    requires Inv(c, s) && Enabled(s, Claim(w))
    ensures Inv(c, OnClaim(s, w))
  {
    var s', idx := OnClaim(s, w), s.cursor;
    assert idx < |s.settled| ==> SlotOk(c, s, idx) && s.settled[idx].None?;
    if s.aborted {
      var j: nat :| FailedBefore(c, s, j, s.cursor);
      FailureStays(c, s, s', j, s.cursor, s'.cursor);
    }
    forall i | 0 <= i < |s'.settled| ensures SlotOk(c, s', i) {
      assert SlotOk(c, s, i);
      if i != idx {
        SlotStays(c, s, s', i);
      } else if s.aborted {
        var j: nat :| FailedBefore(c, s, j, s.cursor);
        FailureStays(c, s, s', j, s.cursor, i);
      } else {
        assert HeldBy(s', w, i);
      }
    }
  }

  lemma SettleKeepsInv(c: Config, s: State, w: nat)
    requires Inv(c, s) && Enabled(s, Settle(w)) && Genuine(c)
    ensures Inv(c, OnSettle(c, s, w))
  {
    var s', idx := OnSettle(c, s, w), s.workers[w].idx;
    if s'.aborted {
      if s.aborted {
        var j: nat :| FailedBefore(c, s, j, s.cursor);
        FailureStays(c, s, s', j, s.cursor, s'.cursor);
      } else {
        assert FailedBefore(c, s', idx, s'.cursor);
      }
    }
    forall i | 0 <= i < |s'.settled| ensures SlotOk(c, s', i) {
      assert SlotOk(c, s, i);
      if i != idx {
        SlotStays(c, s, s', i);
      }
    }
  }

  lemma {:induction false} RunKeepsInv(c: Config, s: State, steps: seq<Step>)
    requires Inv(c, s) && Genuine(c) && Runs(c, s, steps)
    ensures Inv(c, End(c, s, steps))
    decreases |steps|
  {
    if steps != [] {
      match steps[0] {
        case Claim(w) => ClaimKeepsInv(c, s, w);
        case Settle(w) => SettleKeepsInv(c, s, w);
      }
      RunKeepsInv(c, Do(c, s, steps[0]), steps[1..]);
    }
  }

  // ---- every order of completion -----------------------------------------------------------

  predicate Finished(s: State) {
    forall w :: 0 <= w < |s.workers| ==> s.workers[w].Returned?
  }

  function InFlight(s: State): set<nat> {
    set w | 0 <= w < |s.workers| && s.workers[w].Running?
  }

  lemma {:induction false} WorkerCount(n: nat, held: set<nat>)
    requires forall w :: w in held ==> w < n
    ensures |held| <= n
  {
    if n > 0 {
      WorkerCount(n - 1, held - {n - 1});
    } else {
      assert held == {};
    }
  }

  /** In every order: at most the clamped concurrency runs are in flight, distinct
      indices each, and no index is run twice. */
  lemma FanOutIsSafe(c: Config, steps: seq<Step>)
    requires Genuine(c) && Runs(c, Initial(c), steps)
    ensures var s := End(c, Initial(c), steps);
            && |InFlight(s)| <= PoolSize(c)
            && (forall v, w :: v in InFlight(s) && w in InFlight(s) && v != w ==> s.workers[v].idx != s.workers[w].idx)
            && (forall i, k :: 0 <= i < k < |s.started| ==> s.started[i] < s.started[k] < |c.runs|)
  {
    InitialInv(c);
    RunKeepsInv(c, Initial(c), steps);
    StartedInRange(c, Initial(c), steps);
    WorkerCount(PoolSize(c), InFlight(End(c, Initial(c), steps)));
  }

  lemma {:induction false} StartedInRange(c: Config, s: State, steps: seq<Step>)
    requires Runs(c, s, steps) && forall i :: 0 <= i < |s.started| ==> s.started[i] < |c.runs|
    ensures forall i :: 0 <= i < |End(c, s, steps).started| ==> End(c, s, steps).started[i] < |c.runs|
    decreases |steps|
  {
    if steps != [] {
      StartedInRange(c, Do(c, s, steps[0]), steps[1..]);
    }
  }

  /** The slot was cut off behind a run that had failed. */
  ghost predicate CutOff(c: Config, out: seq<Settled>, i: nat)
    requires |out| == |c.runs| && i < |out|
  {
    && c.mode == ThrowFast && out[i] == Err(AbortedBySibling)
    && exists j :: 0 <= j < i && c.runs[j].Err? && out[j] == c.runs[j]
  }

  /** Where the answer is read: a slot is what its run gave, or it was cut off by an
      earlier failure under `throw-fast`. */
  ghost predicate Answered(c: Config, out: seq<Settled>) {
    && |out| == |c.runs|
    && forall i :: 0 <= i < |out| ==>
         out[i] == c.runs[i] || CutOff(c, out, i)
  }

  function Values(settled: seq<Option<Settled>>): seq<Settled>
    requires forall i :: 0 <= i < |settled| ==> settled[i].Some?
  {
    seq(|settled|, i requires 0 <= i < |settled| => settled[i].value)
  }

  /** When all workers have returned, every slot is settled, with a right answer. */
  lemma FinishedIsAnswered(c: Config, steps: seq<Step>)
    requires Genuine(c) && Runs(c, Initial(c), steps) && Finished(End(c, Initial(c), steps))
    ensures var s := End(c, Initial(c), steps);
            (forall i :: 0 <= i < |s.settled| ==> s.settled[i].Some?) && Answered(c, Values(s.settled))
  {
    InitialInv(c);
    RunKeepsInv(c, Initial(c), steps);
    var s := End(c, Initial(c), steps);
    assert s.workers[0].Returned?;
    forall i | 0 <= i < |s.settled| ensures s.settled[i].Some? {
      assert SlotOk(c, s, i);
      assert forall w: nat :: !HeldBy(s, w, i);
    }
    var out := Values(s.settled);
    forall i | 0 <= i < |out|
      ensures out[i] == c.runs[i] || CutOff(c, out, i)
    {
      assert SlotOk(c, s, i);
      if s.settled[i] == Some(Err(AbortedBySibling)) {
        var j: nat :| FailedBefore(c, s, j, i);
        assert out[j] == c.runs[j];
      }
    }
  }

  // ---- it always ends ---------------------------------------------------------------------

  function Weight(w: Worker): nat {
    match w
    case Claiming => 1
    case Running(_) => 2
    case Returned => 0
  }

  function Weights(ws: seq<Worker>): nat {
    if ws == [] then 0 else Weights(ws[..|ws| - 1]) + Weight(ws[|ws| - 1])
  }

  function Work(s: State): nat {
    2 * (if s.cursor < |s.settled| then |s.settled| - s.cursor else 0) + Weights(s.workers)
  }

  lemma {:induction false} WeightsUpdate(ws: seq<Worker>, w: nat, x: Worker)
    requires w < |ws|
    ensures Weights(ws[w := x]) == Weights(ws) - Weight(ws[w]) + Weight(x)
  {
    var init, last := ws[..|ws| - 1], |ws| - 1;
    if w < last {
      WeightsUpdate(init, w, x);
      assert ws[w := x][..last] == init[w := x];
    } else {
      assert ws[w := x][..last] == init;
    }
  }

  lemma {:induction false} InitialWeights(ws: seq<Worker>)
    requires forall w :: 0 <= w < |ws| ==> ws[w] == Claiming
    ensures Weights(ws) == |ws|
  {
    if ws != [] {
      InitialWeights(ws[..|ws| - 1]);
    }
  }

  lemma StepUsesWork(c: Config, s: State, step: Step)
    requires Enabled(s, step) && |s.settled| == |c.runs|
    ensures Work(Do(c, s, step)) < Work(s)
  {
    WeightsUpdate(s.workers, step.worker, Returned);
    WeightsUpdate(s.workers, step.worker, Claiming);
    WeightsUpdate(s.workers, step.worker, Running(s.cursor));
  }

  lemma {:induction false} RunUsesWork(c: Config, s: State, steps: seq<Step>)
    requires Runs(c, s, steps)
    ensures Work(End(c, s, steps)) + |steps| <= Work(s)
    decreases |steps|
  {
    if steps != [] {
      StepUsesWork(c, s, steps[0]);
      RunUsesWork(c, Do(c, s, steps[0]), steps[1..]);
    }
  }

  /** No schedule is longer than two steps an item and one a worker, and until the
      workers have returned one of them can move. */
  lemma FanOutEnds(c: Config, steps: seq<Step>)
    requires Genuine(c) && Runs(c, Initial(c), steps)
    ensures |steps| <= 2 * |c.runs| + PoolSize(c)
    ensures Finished(End(c, Initial(c), steps)) || exists step :: Enabled(End(c, Initial(c), steps), step)
  {
    InitialWeights(Initial(c).workers);
    RunUsesWork(c, Initial(c), steps);
    InitialInv(c);
    RunKeepsInv(c, Initial(c), steps);
    var s := End(c, Initial(c), steps);
    if !Finished(s) {
      var w :| 0 <= w < |s.workers| && !s.workers[w].Returned?;
      assert Enabled(s, if s.workers[w].Claiming? then Claim(w) else Settle(w));
    }
  }

  // ---- the answer ---------------------------------------------------------------------------

  datatype Cell = Value(value: int) | Null | Entry(settled: Settled)

  datatype Failure = Single(error: Error) | Aggregate(errors: map<nat, Error>, partial: map<nat, int>)

  datatype Outcome = Result(cells: seq<Cell>) | Throws(failure: Failure)

  function Errors(out: seq<Settled>): map<nat, Error> {
    map i: nat | i < |out| && out[i].Err? :: out[i].error
  }

  function Partial(out: seq<Settled>): map<nat, int> {
    map i: nat | i < |out| && out[i].Ok? :: out[i].value
  }

  /** The lowest failing index, or the length if none fails. */
  function LowestError(out: seq<Settled>): (lowest: nat)
    ensures lowest <= |out| && (lowest < |out| ==> out[lowest].Err?)
    ensures forall i :: 0 <= i < lowest ==> out[i].Ok?
  {
    if out == [] then 0
    else
      var before := LowestError(out[..|out| - 1]);
      if before < |out| - 1 then before else if out[|out| - 1].Err? then |out| - 1 else |out|
  }

  function Successes(out: seq<Settled>): seq<Cell> {
    if out == [] then []
    else
      var before := Successes(out[..|out| - 1]);
      if out[|out| - 1].Ok? then before + [Value(out[|out| - 1].value)] else before
  }

  function Cells(mode: Mode, out: seq<Settled>): seq<Cell> {
    match mode
    case NullMode => seq(|out|, i requires 0 <= i < |out| => if out[i].Ok? then Value(out[i].value) else Null)
    case Skip => Successes(out)
    case _ => seq(|out|, i requires 0 <= i < |out| => Entry(out[i]))
  }

  /** What the caller gets for a settled array, mode by mode. */
  function Assemble(mode: Mode, out: seq<Settled>): Outcome {
    var lowest := LowestError(out);
    if lowest == |out| then Result(Successes(out))
    else if mode != Throw && mode != ThrowFast then Result(Cells(mode, out))
    else if Partial(out) == map[] && (mode == ThrowFast || |Errors(out)| == 1) then Throws(Single(out[lowest].error))
    else Throws(Aggregate(Errors(out), Partial(out)))
  }

  // ---- the answer, said index by index ---------------------------------------------------------

  predicate Fails(out: seq<Settled>) {
    exists i :: 0 <= i < |out| && out[i].Err?
  }

  /** Exactly the values of the runs that ended well, in the order of their indices. */
  ghost predicate ListsValues(out: seq<Settled>, cells: seq<Cell>, at: seq<nat>) {
    && |at| == |cells|
    && (forall k :: 0 <= k < |at| ==> at[k] < |out| && out[at[k]].Ok? && cells[k] == Value(out[at[k]].value))
    && (forall j, k :: 0 <= j < k < |at| ==> at[j] < at[k])
    && (forall i :: 0 <= i < |out| && out[i].Ok? ==> i in at)
  }

  /** The two maps of an aggregate error hold every index, with its error or its value. */
  ghost predicate HoldsAll(out: seq<Settled>, f: Failure) {
    && f.Aggregate?
    && (forall i: nat :: i in f.errors <==> i < |out| && out[i].Err?)
    && (forall i: nat :: i in f.partial <==> i < |out| && out[i].Ok?)
    && (forall i: nat :: i in f.errors ==> f.errors[i] == out[i].error)
    && (forall i: nat :: i in f.partial ==> f.partial[i] == out[i].value)
  }

  /** What each mode gives. A single error is thrown by itself only if nothing else is lost
      with it: under `throw` if there was one item, under `throw-fast` if no item ended well. */
  ghost predicate IsAnswer(mode: Mode, out: seq<Settled>, o: Outcome) {
    if !Fails(out) then
      o.Result? && |o.cells| == |out| && forall i :: 0 <= i < |out| ==> out[i].Ok? && o.cells[i] == Value(out[i].value)
    else
      match mode
      case Throw => o.Throws? && if |out| == 1 then o.failure == Single(out[0].error) else HoldsAll(out, o.failure)
      case ThrowFast =>
        o.Throws? && if forall i :: 0 <= i < |out| ==> out[i].Err? then o.failure == Single(out[0].error)
                     else HoldsAll(out, o.failure)
      case NullMode =>
        && o.Result? && |o.cells| == |out|
        && forall i :: 0 <= i < |out| ==> o.cells[i] == if out[i].Ok? then Value(out[i].value) else Null
      case Skip => o.Result? && exists at :: ListsValues(out, o.cells, at)
      case SettledMode => o.Result? && |o.cells| == |out| && forall i :: 0 <= i < |out| ==> o.cells[i] == Entry(out[i])
  }

  lemma NextValue(out: seq<Settled>, n: nat, cells: seq<Cell>, at: seq<nat>)
    requires |out| == n + 1 && ListsValues(out[..n], cells, at)
    ensures if out[n].Ok? then ListsValues(out, cells + [Value(out[n].value)], at + [n])
            else ListsValues(out, cells, at)
  {
    forall i | 0 <= i < n && out[i].Ok? ensures i in at {
      assert out[..n][i].Ok?;
    }
    if out[n].Ok? {
      assert (at + [n])[|at|] == n;
      assert forall i :: i in at ==> i in at + [n];
    }
  }

  lemma {:induction false} SuccessesAreValues(out: seq<Settled>) returns (at: seq<nat>)
    ensures ListsValues(out, Successes(out), at)
  {
    if out == [] {
      at := [];
    } else {
      var n := |out| - 1;
      at := SuccessesAreValues(out[..n]);
      NextValue(out, n, Successes(out[..n]), at);
      at := if out[n].Ok? then at + [n] else at;
    }
  }

  lemma {:induction false} AllValues(out: seq<Settled>)
    requires forall i :: 0 <= i < |out| ==> out[i].Ok?
    ensures |Successes(out)| == |out| && forall i :: 0 <= i < |out| ==> Successes(out)[i] == Value(out[i].value)
  {
    if out != [] {
      AllValues(out[..|out| - 1]);
    }
  }

  lemma OneError(out: seq<Settled>)
    requires Fails(out) && Partial(out) == map[]
    ensures forall i :: 0 <= i < |out| ==> out[i].Err?
    ensures |Errors(out)| == |out|
  {
    forall i | 0 <= i < |out| ensures out[i].Err? {
      assert i !in Partial(out);
    }
    Counts(Errors(out).Keys, |out|);
  }

  lemma {:induction false} Counts(s: set<nat>, n: nat)
    requires forall i: nat :: i in s <==> i < n
    ensures |s| == n
  {
    if n == 0 {
      assert s == {};
    } else {
      Counts(s - {n - 1}, n - 1);
    }
  }

  lemma SomeValue(out: seq<Settled>)
    requires Partial(out) != map[]
    ensures exists i :: 0 <= i < |out| && out[i].Ok?
  {
    var i :| i in Partial(out);
  }

  lemma ThrowIsAnswer(mode: Mode, out: seq<Settled>)
    requires Fails(out) && (mode == Throw || mode == ThrowFast)
    ensures IsAnswer(mode, out, Assemble(mode, out))
  {
    assert LowestError(out) < |out|;
    if Partial(out) == map[] {
      OneError(out);
    } else {
      SomeValue(out);
    }
  }

  /** `Assemble` is the answer. */
  lemma AssembleIsAnswer(mode: Mode, out: seq<Settled>)
    ensures IsAnswer(mode, out, Assemble(mode, out))
  {
    if !Fails(out) {
      assert LowestError(out) == |out|;
      AllValues(out);
    } else {
      assert LowestError(out) < |out|;
      match mode
      case Throw => ThrowIsAnswer(mode, out);
      case ThrowFast => ThrowIsAnswer(mode, out);
      case Skip => var at := SuccessesAreValues(out);
      case NullMode =>
      case SettledMode =>
    }
  }

  lemma NoErrorsIff(out: seq<Settled>)
    ensures Errors(out) == map[] <==> LowestError(out) == |out|
    ensures LowestError(out) < |out| ==>
              LowestError(out) in Errors(out) && Errors(out)[LowestError(out)] == out[LowestError(out)].error
  {
    if LowestError(out) < |out| {
      assert LowestError(out) in Errors(out);
    }
  }

  lemma OneMore(out: seq<Settled>, i: nat)
    requires i < |out|
    ensures Errors(out[..i + 1]) == if out[i].Ok? then Errors(out[..i]) else Errors(out[..i])[i := out[i].error]
    ensures Partial(out[..i + 1]) == if out[i].Ok? then Partial(out[..i])[i := out[i].value] else Partial(out[..i])
    ensures Successes(out[..i + 1]) ==
            if out[i].Ok? then Successes(out[..i]) + [Value(out[i].value)] else Successes(out[..i])
  {
    assert out[..i + 1][..i] == out[..i];
  }

  method Tally(out: seq<Settled>) returns (errors: map<nat, Error>, partial: map<nat, int>, values: seq<Cell>)
    ensures errors == Errors(out) && partial == Partial(out) && values == Successes(out)
  {
    errors, partial, values := map[], map[], [];
    for i := 0 to |out|
      invariant errors == Errors(out[..i]) && partial == Partial(out[..i]) && values == Successes(out[..i])
    {
      OneMore(out, i);
      if out[i].Ok? {
        partial := partial[i := out[i].value];
        values := values + [Value(out[i].value)];
      } else {
        errors := errors[i := out[i].error];
      }
    }
    assert out[..|out|] == out;
  }

  /** The maps built from the settled array and the switch after them. */
  method BuildAnswer(mode: Mode, out: seq<Settled>) returns (o: Outcome)
    ensures o == Assemble(mode, out) && IsAnswer(mode, out, o)
  {
    AssembleIsAnswer(mode, out);
    var errors, partial, values := Tally(out);
    NoErrorsIff(out);
    if |errors| == 0 {
      return Result(values);
    }
    var first := LowestError(out);
    match mode {
      case Throw =>
        if |errors| == 1 {
          if |partial| > 0 {
            return Throws(Aggregate(errors, partial));
          }
          return Throws(Single(errors[first]));
        }
        return Throws(Aggregate(errors, partial));
      case ThrowFast =>
        if |partial| > 0 {
          return Throws(Aggregate(errors, partial));
        }
        return Throws(Single(errors[first]));
      case NullMode =>
        return Result(Cells(mode, out));
      case Skip =>
        return Result(values);
      case SettledMode =>
        return Result(Cells(mode, out));
    }
  }

  /** Up to the lowest failing run nothing can have been cut off. */
  lemma LowestErrorIsGenuine(c: Config, out: seq<Settled>)
    requires Answered(c, out)
    ensures LowestError(out) == LowestError(c.runs)
    ensures LowestError(out) < |out| ==> out[LowestError(out)] == c.runs[LowestError(out)]
  {
    forall i | 0 <= i < |out| && i <= LowestError(c.runs) ensures out[i] == c.runs[i] {
    }
  }

  /** For every completion order the answer is that of the sequential runs; under
      `throw-fast` the order can only cut slots off behind the lowest failing run, so
      whether it throws, and the error of lowest index, do not depend on it. */
  lemma AnswerIsScheduleFree(c: Config, steps: seq<Step>)
    requires Genuine(c) && Runs(c, Initial(c), steps) && Finished(End(c, Initial(c), steps))
    ensures forall i :: 0 <= i < |End(c, Initial(c), steps).settled| ==> End(c, Initial(c), steps).settled[i].Some?
    ensures var out := Values(End(c, Initial(c), steps).settled);
            && |out| == |c.runs| && LowestError(out) == LowestError(c.runs)
            && (c.mode != ThrowFast || LowestError(c.runs) == |c.runs| ==>
                 Assemble(c.mode, out) == Assemble(c.mode, c.runs))
            && (c.mode == ThrowFast && LowestError(c.runs) < |c.runs| ==>
                 Assemble(c.mode, out).Throws? && out[LowestError(out)] == c.runs[LowestError(c.runs)]
                 && out[LowestError(out)] != Err(AbortedBySibling))
  {
    FinishedIsAnswered(c, steps);
    var out := Values(End(c, Initial(c), steps).settled);
    LowestErrorIsGenuine(c, out);
    if c.mode != ThrowFast {
      assert out == c.runs;
    } else if LowestError(c.runs) == |c.runs| {
      assert forall i :: 0 <= i < |out| ==> c.runs[i].Ok?;
      assert out == c.runs;
    }
  }

  // ---- the shared variables -----------------------------------------------------------------

  /** The variables the worker loops share; each method is one stretch between awaits. */
  class WorkerPool {
    const runs: seq<Settled>
    const mode: Mode
    const concurrency: int
    var settled: seq<Option<Settled>>
    var cursor: nat
    var aborted: bool
    var workers: seq<Worker>
    var started: seq<nat>

    function Cfg(): Config {
      Config(runs, mode, concurrency)
    }

    function Now(): State
      reads this
    {
      State(settled, cursor, aborted, workers, started)
    }

    constructor (runs: seq<Settled>, mode: Mode, concurrency: int)
      ensures Cfg() == Config(runs, mode, concurrency) && Now() == Initial(Cfg())
    {
      this.runs, this.mode, this.concurrency := runs, mode, concurrency;
      settled := seq(|runs|, i => None);
      cursor, aborted, started := 0, false, [];
      var least := if concurrency < |runs| then concurrency else |runs|;
      workers := seq(if least < 1 then 1 else least, w => Claiming);
    }

    method ClaimNext(w: nat)
      requires Enabled(Now(), Claim(w)) && |settled| == |runs|
      modifies this
      ensures Now() == Do(Cfg(), old(Now()), Claim(w))
      ensures cursor == old(cursor) + 1 && aborted == old(aborted)
      ensures old(cursor) >= |runs| ==> workers == old(workers)[w := Returned] && settled == old(settled)
      ensures old(cursor) < |runs| && aborted ==>
                && workers == old(workers) && settled == old(settled)[old(cursor) := Some(Err(AbortedBySibling))]
      ensures old(cursor) < |runs| && !aborted ==>
                workers == old(workers)[w := Running(old(cursor))] && settled == old(settled)
      ensures started == old(started) + if old(cursor) < |runs| && !aborted then [old(cursor)] else []
    {
      var idx := cursor;
      cursor := cursor + 1;
      if idx >= |settled| {
        workers := workers[w := Returned];
        return;
      }
      if aborted {
        settled := settled[idx := Some(Err(AbortedBySibling))];
        return;
      }
      workers := workers[w := Running(idx)];
      started := started + [idx];
    }

    method SettleRun(w: nat)
      requires Enabled(Now(), Settle(w)) && |settled| == |runs|
      modifies this
      ensures Now() == Do(Cfg(), old(Now()), Settle(w))
      ensures workers == old(workers)[w := Claiming] && cursor == old(cursor) && started == old(started)
      ensures settled == old(settled)[old(workers)[w].idx := Some(runs[old(workers)[w].idx])]
      ensures aborted == (old(aborted) || (mode == ThrowFast && runs[old(workers)[w].idx].Err?))
    {
      var idx := workers[w].idx;
      match runs[idx] {
        case Ok(value) =>
          settled := settled[idx := Some(Ok(value))];
        case Err(error) =>
          settled := settled[idx := Some(Err(error))];
          if mode == ThrowFast {
            aborted := true;
          }
      }
      workers := workers[w := Claiming];
    }
  }
}
