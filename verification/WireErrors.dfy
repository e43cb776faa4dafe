/** Errors crossing an RPC boundary as plain records, and back. */
module WireErrors {
  import opened Options

  // ---- texts ------------------------------------------------------------------------------

  /** A message: given as it is, or put together by a constructor from its parts. */
  datatype Text =
    | Given(s: string)
    | PayloadTooLarge(bytes: int)
    | BudgetTooShort(budgetMs: int, minBudgetMs: int)
    | ExceededTimeout(ms: int)
    | FailedAfter(attempts: int, last: Text)
    | BindingIsMissing(name: string)
    | WasCancelled
    | CancelledFor(reason: Text)
    | DeadlinePassed(epochMs: int)
    | QueueIsFull(depth: int, maxDepth: int)
    | JobHasExpired(job: string)
    | TasksFailed(count: nat, first: Text)
    | Unknown

  /** The name of an error class: of the library, or any other. */
  datatype Name = Named(s: string) | OfClass(code: Code) | PlainError | NonError

  // ---- errors -----------------------------------------------------------------------------

  /** The class of a library error with its own fields. Messages that the constructor
      computes are not fields. */
  datatype Kind =
    | Parallel(message: Text)
    | Serialization(message: Text)
    | ReturnTooLarge(bytes: int)
    | DeadlineTooShort(budgetMs: int, minBudgetMs: int)
    | Execution(message: Text, remoteStack: Option<string>, originalName: Option<Name>)
    | Disconnected(message: Text)
    | OutOfMemory(message: Text)
    | BillingLimit(limit: string, message: Text)
    | Timeout(deadlineMs: int)
    | RetryExhausted(attempts: int)
    | Binding(message: Text)
    | MissingBinding(bindingName: string)
    | Cancelled(reason: Option<Text>)
    | DeadlineExceeded(deadlineEpochMs: int)
    | Backpressure(message: Text, retryAfterMs: int)
    | QueueFull(depth: int, maxDepth: int)
    | ResultExpired(jobId: string)
    | Conflict(message: Text)
    | Topology(message: Text)
    | PolicyRequired(message: Text)
    | Aggregate(errors: seq<Entry>, partial: seq<Part>)

  /** Maps by index, in insertion order. */
  datatype Entry = Entry(index: nat, error: LibError)
  datatype Part = Part(index: nat, value: string)

  datatype LibError = LibError(kind: Kind, cause: Cause)

  /** What can be thrown, and what can be a cause. */
  datatype Cause =
    | NoCause
    | Library(err: LibError)
    | Foreign(name: Name, message: Text, stack: Option<string>)
    | Other(text: Text)

  datatype Code =
    | CFP_PARALLEL | CFP_SERIALIZATION | CFP_RETURN_TOO_LARGE | CFP_DEADLINE_TOO_SHORT | CFP_EXECUTION
    | CFP_DISCONNECTED | CFP_OUT_OF_MEMORY | CFP_BILLING_LIMIT | CFP_TIMEOUT | CFP_RETRY_EXHAUSTED | CFP_BINDING
    | CFP_MISSING_BINDING | CFP_CANCELLED | CFP_DEADLINE_EXCEEDED | CFP_BACKPRESSURE | CFP_QUEUE_FULL
    | CFP_RESULT_EXPIRED | CFP_CONFLICT | CFP_TOPOLOGY | CFP_AGGREGATE_EXECUTION | CFP_POLICY_REQUIRED

  function CodeOf(k: Kind): Code {
    match k
    case Parallel(_) => CFP_PARALLEL
    case Serialization(_) => CFP_SERIALIZATION
    case ReturnTooLarge(_) => CFP_RETURN_TOO_LARGE
    case DeadlineTooShort(_, _) => CFP_DEADLINE_TOO_SHORT
    case Execution(_, _, _) => CFP_EXECUTION
    case Disconnected(_) => CFP_DISCONNECTED
    case OutOfMemory(_) => CFP_OUT_OF_MEMORY
    case BillingLimit(_, _) => CFP_BILLING_LIMIT
    case Timeout(_) => CFP_TIMEOUT
    case RetryExhausted(_) => CFP_RETRY_EXHAUSTED
    case Binding(_) => CFP_BINDING
    case MissingBinding(_) => CFP_MISSING_BINDING
    case Cancelled(_) => CFP_CANCELLED
    case DeadlineExceeded(_) => CFP_DEADLINE_EXCEEDED
    case Backpressure(_, _) => CFP_BACKPRESSURE
    case QueueFull(_, _) => CFP_QUEUE_FULL
    case ResultExpired(_) => CFP_RESULT_EXPIRED
    case Conflict(_) => CFP_CONFLICT
    case Topology(_) => CFP_TOPOLOGY
    case PolicyRequired(_) => CFP_POLICY_REQUIRED
    case Aggregate(_, _) => CFP_AGGREGATE_EXECUTION
  }

  function NameOf(k: Kind): Name {
    OfClass(CodeOf(k))
  }

  function StatusOf(k: Kind): nat {
    match k
    case Serialization(_) => 400
    case ReturnTooLarge(_) => 413
    case DeadlineTooShort(_, _) => 400
    case Disconnected(_) => 502
    case OutOfMemory(_) => 507
    case BillingLimit(_, _) => 402
    case Timeout(_) => 504
    case RetryExhausted(_) => 503
    case Cancelled(_) => 499
    case DeadlineExceeded(_) => 504
    case Backpressure(_, _) => 503
    case QueueFull(_, _) => 429
    case ResultExpired(_) => 410
    case Conflict(_) => 409
    case Topology(_) => 400
    case _ => 500
  }

  /** `e.message`. */
  function Message(e: LibError): Text
    decreases e
  {
    match e.kind
    case ReturnTooLarge(bytes) => PayloadTooLarge(bytes)
    case DeadlineTooShort(budget, min) => BudgetTooShort(budget, min)
    case Timeout(ms) => ExceededTimeout(ms)
    case RetryExhausted(attempts) => FailedAfter(attempts, LastMessage(e.cause))
    case MissingBinding(name) => BindingIsMissing(name)
    case Cancelled(reason) =>
      if reason.UnwrapOr(Given("")) == Given("") then WasCancelled else CancelledFor(reason.value)
    case DeadlineExceeded(ms) => DeadlinePassed(ms)
    case QueueFull(depth, max) => QueueIsFull(depth, max)
    case ResultExpired(job) => JobHasExpired(job)
    case Aggregate(errors, _) => TasksFailed(|errors|, if errors == [] then Unknown else Message(errors[0].error))
    case _ => e.kind.message
  }

  function LastMessage(c: Cause): Text
    decreases c
  {
    match c
    case Library(err) => Message(err)
    case Foreign(_, message, _) => message
    case Other(text) => text
    case NoCause => Unknown
  }

  /** What the constructors make: a retry has an `Error` to show, an aggregate is a map
      by index and takes no cause. */
  ghost predicate WellMade(e: LibError)
    decreases e
  {
    && (e.kind.RetryExhausted? ==> e.cause.Library? || e.cause.Foreign?)
    && (e.cause.Library? ==> WellMade(e.cause.err))
    && (e.kind.Aggregate? ==>
         && e.cause.NoCause?
         && (forall i, k :: 0 <= i < k < |e.kind.errors| ==> e.kind.errors[i].index != e.kind.errors[k].index)
         && (forall i, k :: 0 <= i < k < |e.kind.partial| ==> e.kind.partial[i].index != e.kind.partial[k].index)
         && (forall i :: 0 <= i < |e.kind.errors| ==> WellMade(e.kind.errors[i].error)))
  }

  // ---- the wire ------------------------------------------------------------------------------

  datatype Extra =
    | NoExtra
    | Bytes(bytes: int)
    | Budgets(budgetMs: int, minBudgetMs: int)
    | LimitKind(limit: string)
    | DeadlineMs(deadlineMs: int)
    | Attempts(attempts: int)
    | BindingName(bindingName: string)
    | Reason(reason: Option<Text>)
    | DeadlineEpochMs(deadlineEpochMs: int)
    | RetryAfterMs(retryAfterMs: int)
    | Depths(depth: int, maxDepth: int)
    | JobId(jobId: string)
    | Entries(errorEntries: seq<WireEntry>, partialResultEntries: seq<Part>)

  datatype WireEntry = WireEntry(index: nat, error: Wire)

  datatype Wire = Wire(
    name: Name, code: Code, message: Text, httpStatus: nat, stack: Option<string>,
    originalName: Option<Name>, extra: Extra, cause: Option<Wire>)

  /** `extraJsonFields`, for the classes without nested errors. */
  function ExtraOf(k: Kind): Extra {
    match k
    case ReturnTooLarge(bytes) => Bytes(bytes)
    case DeadlineTooShort(budget, min) => Budgets(budget, min)
    case BillingLimit(limit, _) => LimitKind(limit)
    case Timeout(ms) => DeadlineMs(ms)
    case RetryExhausted(attempts) => Attempts(attempts)
    case MissingBinding(name) => BindingName(name)
    case Cancelled(reason) => Reason(reason)
    case DeadlineExceeded(ms) => DeadlineEpochMs(ms)
    case Backpressure(_, ms) => RetryAfterMs(ms)
    case QueueFull(depth, max) => Depths(depth, max)
    case ResultExpired(job) => JobId(job)
    case _ => NoExtra
  }

  /** `toJSON`; `here` is the stack of an error made in this isolate. */
  function ToJson(e: LibError, here: string): Wire
    decreases e, 2, 0
  {
    var k := e.kind;
    Wire(NameOf(k), CodeOf(k), Message(e), StatusOf(k),
         Some(if k.Execution? then k.remoteStack.UnwrapOr(here) else here),
         if k.Execution? then k.originalName else None,
         if k.Aggregate? then Entries(EntriesToJson(e, here), k.partial) else ExtraOf(k),
         CauseToWire(e.cause, here))
  }

  function EntriesToJson(e: LibError, here: string): (entries: seq<WireEntry>)
    requires e.kind.Aggregate?
    ensures |entries| == |e.kind.errors|
    decreases e, 1, 0
  {
    seq(|e.kind.errors|, i requires 0 <= i < |e.kind.errors| =>
      WireEntry(e.kind.errors[i].index, ToJson(e.kind.errors[i].error, here)))
  }

  function CauseToWire(c: Cause, here: string): Option<Wire>
    decreases c, 2, 0
  {
    match c
    case NoCause => None
    case Library(err) => Some(ToJson(err, here))
    case Foreign(name, message, stack) =>
      Some(Wire(name, CFP_EXECUTION, message, 500, stack, Some(name), NoExtra, None))
    case Other(text) => Some(Wire(NonError, CFP_EXECUTION, text, 500, None, None, NoExtra, None))
  }

  /** `errorToWire`, for anything that was thrown. */
  function ErrorToWire(thrown: Cause, here: string): Wire {
    match thrown
    case Library(err) => ToJson(err, here)
    case Foreign(name, message, stack) =>
      Wire(if name == Named("") then PlainError else name, CFP_EXECUTION, message, 500, stack,
           if name == PlainError then None else Some(name), NoExtra, None)
    case Other(text) => Wire(PlainError, CFP_EXECUTION, text, 500, Some(here), None, NoExtra, None)
    case NoCause => Wire(PlainError, CFP_EXECUTION, Given("undefined"), 500, Some(here), None, NoExtra, None)
  }

  function PutEntry(entries: seq<Entry>, index: nat, error: LibError): seq<Entry> {
    if entries == [] then [Entry(index, error)]
    else if entries[0].index == index then [Entry(index, error)] + entries[1..]
    else [entries[0]] + PutEntry(entries[1..], index, error)
  }

  function PutPart(parts: seq<Part>, index: nat, value: string): seq<Part> {
    if parts == [] then [Part(index, value)]
    else if parts[0].index == index then [Part(index, value)] + parts[1..]
    else [parts[0]] + PutPart(parts[1..], index, value)
  }

  function PutParts(entries: seq<Part>, n: nat): seq<Part>
    requires n <= |entries|
  {
    if n == 0 then [] else PutPart(PutParts(entries, n - 1), entries[n - 1].index, entries[n - 1].value)
  }

  /** The class and fields `wireToError` restores, with the defaults for missing extras;
      a code without a case of its own is an execution. */
  function KindOfWire(w: Wire): Kind {
    var x := w.extra;
    match w.code
    case CFP_CANCELLED => Cancelled(Some(if x.Reason? && x.reason.Some? then x.reason.value else w.message))
    case CFP_DEADLINE_EXCEEDED => DeadlineExceeded(if x.DeadlineEpochMs? then x.deadlineEpochMs else 0)
    case CFP_TIMEOUT => Timeout(if x.DeadlineMs? then x.deadlineMs else 0)
    case CFP_BACKPRESSURE => Backpressure(w.message, if x.RetryAfterMs? then x.retryAfterMs else 100)
    case CFP_DISCONNECTED => Disconnected(w.message)
    case CFP_OUT_OF_MEMORY => OutOfMemory(w.message)
    case CFP_BILLING_LIMIT => BillingLimit(if x.LimitKind? then x.limit else "cpuMs", w.message)
    case CFP_RETURN_TOO_LARGE => ReturnTooLarge(if x.Bytes? then x.bytes else 0)
    case CFP_DEADLINE_TOO_SHORT =>
      if x.Budgets? then DeadlineTooShort(x.budgetMs, x.minBudgetMs) else DeadlineTooShort(0, 1000)
    case CFP_SERIALIZATION => Serialization(w.message)
    case CFP_RESULT_EXPIRED => ResultExpired(if x.JobId? then x.jobId else "")
    case CFP_CONFLICT => Conflict(w.message)
    case CFP_TOPOLOGY => Topology(w.message)
    case CFP_RETRY_EXHAUSTED => RetryExhausted(if x.Attempts? then x.attempts else 1)
    case CFP_BINDING => Binding(w.message)
    case CFP_MISSING_BINDING => MissingBinding(if x.BindingName? then x.bindingName else "unknown")
    case CFP_POLICY_REQUIRED => PolicyRequired(w.message)
    case _ => Execution(w.message, w.stack, Some(w.originalName.UnwrapOr(w.name)))
  }

  function WireToError(w: Wire, here: string): LibError
    decreases w, 2, 0
  {
    var cause := if w.cause.Some? then Library(WireToError(w.cause.value, here)) else NoCause;
    if w.code == CFP_AGGREGATE_EXECUTION then
      if w.extra.Entries? then
        LibError(Aggregate(PutEntries(w, here, |w.extra.errorEntries|),
                           PutParts(w.extra.partialResultEntries, |w.extra.partialResultEntries|)), NoCause)
      else LibError(Aggregate([], []), NoCause)
    else if w.code == CFP_RETRY_EXHAUSTED && cause.NoCause? then
      LibError(KindOfWire(w), Foreign(PlainError, w.message, Some(here)))
    else LibError(KindOfWire(w), cause)
  }

  function PutEntries(w: Wire, here: string, n: nat): seq<Entry>
    requires w.extra.Entries? && n <= |w.extra.errorEntries|
    decreases w, 1, n
  {
    if n == 0 then []
    else PutEntry(PutEntries(w, here, n - 1), w.extra.errorEntries[n - 1].index,
                  WireToError(w.extra.errorEntries[n - 1].error, here))
  }

  function Trip(e: LibError, here: string): LibError {
    WireToError(ToJson(e, here), here)
  }

  // ---- what a trip does to an error ------------------------------------------------------------

  /** The error that arrives, said directly: classes without a case of their own become
      executions, a missing reason becomes the message, foreign causes become executions. */
  function Normal(e: LibError, here: string): LibError
    decreases e, 2, 0
  {
    if e.kind.Aggregate? then LibError(Aggregate(NormalEntries(e, here, |e.kind.errors|), e.kind.partial), NoCause)
    else LibError(NormalKind(e, here), NormalCause(e.cause, here))
  }

  function NormalKind(e: LibError, here: string): Kind {
    match e.kind
    case Parallel(message) => Execution(message, Some(here), Some(OfClass(CFP_PARALLEL)))
    case QueueFull(_, _) => Execution(Message(e), Some(here), Some(OfClass(CFP_QUEUE_FULL)))
    case Execution(message, stack, name) =>
      Execution(message, Some(stack.UnwrapOr(here)), Some(name.UnwrapOr(OfClass(CFP_EXECUTION))))
    case Cancelled(None) => Cancelled(Some(WasCancelled))
    case k => k
  }

  function NormalCause(c: Cause, here: string): Cause
    decreases c, 2, 0
  {
    match c
    case NoCause => NoCause
    case Library(err) => Library(Normal(err, here))
    case Foreign(name, message, stack) => Library(LibError(Execution(message, stack, Some(name)), NoCause))
    case Other(text) => Library(LibError(Execution(text, None, Some(NonError)), NoCause))
  }

  function NormalEntries(e: LibError, here: string, n: nat): (entries: seq<Entry>)
    requires e.kind.Aggregate? && n <= |e.kind.errors|
    ensures |entries| == n
    ensures forall i :: 0 <= i < n ==> entries[i] == Entry(e.kind.errors[i].index, Normal(e.kind.errors[i].error, here))
    decreases e, 1, n
  {
    if n == 0 then []
    else NormalEntries(e, here, n - 1) + [Entry(e.kind.errors[n - 1].index, Normal(e.kind.errors[n - 1].error, here))]
  }

  lemma {:induction false} PutNewEntry(entries: seq<Entry>, index: nat, error: LibError)
    requires forall i :: 0 <= i < |entries| ==> entries[i].index != index
    ensures PutEntry(entries, index, error) == entries + [Entry(index, error)]
  {
    if entries != [] {
      PutNewEntry(entries[1..], index, error);
    }
  }

  lemma {:induction false} PutNewPart(parts: seq<Part>, index: nat, value: string)
    requires forall i :: 0 <= i < |parts| ==> parts[i].index != index
    ensures PutPart(parts, index, value) == parts + [Part(index, value)]
  {
    if parts != [] {
      PutNewPart(parts[1..], index, value);
    }
  }

  lemma {:induction false} PutAllParts(parts: seq<Part>, n: nat)
    requires n <= |parts| && forall i, k :: 0 <= i < k < |parts| ==> parts[i].index != parts[k].index
    ensures PutParts(parts, n) == parts[..n]
  {
    if n > 0 {
      PutAllParts(parts, n - 1);
      PutNewPart(parts[..n - 1], parts[n - 1].index, parts[n - 1].value);
    }
  }

  lemma KindTrips(e: LibError, here: string)
    requires !e.kind.Aggregate?
    ensures KindOfWire(ToJson(e, here)) == NormalKind(e, here)
    ensures ToJson(e, here).code != CFP_AGGREGATE_EXECUTION
    ensures ToJson(e, here).code == CFP_RETRY_EXHAUSTED <==> e.kind.RetryExhausted?
  {
  }

  lemma AggregateJson(e: LibError, here: string)
    requires e.kind.Aggregate?
    ensures ToJson(e, here).code == CFP_AGGREGATE_EXECUTION
    ensures ToJson(e, here).extra == Entries(EntriesToJson(e, here), e.kind.partial)
  {
  }

  lemma PlainJson(e: LibError, here: string)
    requires !e.kind.Aggregate?
    ensures ToJson(e, here).cause == CauseToWire(e.cause, here)
  {
  }

  lemma PlainFromWire(w: Wire, here: string)
    requires w.code != CFP_AGGREGATE_EXECUTION && (w.code == CFP_RETRY_EXHAUSTED ==> w.cause.Some?)
    ensures WireToError(w, here) ==
            LibError(KindOfWire(w), if w.cause.Some? then Library(WireToError(w.cause.value, here)) else NoCause)
  {
  }

  /** A trip over the wire makes exactly the normal form, through causes and aggregates. */
  lemma {:induction false} TripIsNormal(e: LibError, here: string)
    requires WellMade(e)
    ensures Trip(e, here) == Normal(e, here)
    decreases e, 2, 0
  {
    if e.kind.Aggregate? {
      TripOfAggregate(e, here);
    } else {
      TripOfPlain(e, here);
    }
  }

  lemma {:induction false} TripOfAggregate(e: LibError, here: string)
    requires WellMade(e) && e.kind.Aggregate?
    ensures Trip(e, here) == Normal(e, here)
    decreases e, 1, |e.kind.errors| + 1
  {
    AggregateJson(e, here);
    TripOfEntries(e, here, |e.kind.errors|);
    PutAllParts(e.kind.partial, |e.kind.partial|);
    assert e.kind.partial[..|e.kind.partial|] == e.kind.partial;
  }

  lemma {:induction false} TripOfPlain(e: LibError, here: string)
    requires WellMade(e) && !e.kind.Aggregate?
    ensures Trip(e, here) == Normal(e, here)
    decreases e, 1, 1
  {
    KindTrips(e, here);
    TripOfCause(e, here);
    PlainJson(e, here);
    PlainFromWire(ToJson(e, here), here);
  }

  lemma {:induction false} TripOfCause(e: LibError, here: string)
    requires WellMade(e)
    ensures var w := CauseToWire(e.cause, here);
            (if w.Some? then Library(WireToError(w.value, here)) else NoCause) == NormalCause(e.cause, here)
    decreases e, 1, 0
  {
    if e.cause.Library? {
      TripIsNormal(e.cause.err, here);
    }
  }

  lemma {:induction false} TripOfEntries(e: LibError, here: string, n: nat)
    requires WellMade(e) && e.kind.Aggregate? && n <= |e.kind.errors|
    ensures PutEntries(ToJson(e, here), here, n) == NormalEntries(e, here, n)
    decreases e, 1, n
  {
    if n > 0 {
      TripOfEntries(e, here, n - 1);
      TripIsNormal(e.kind.errors[n - 1].error, here);
      PutNewEntry(NormalEntries(e, here, n - 1), e.kind.errors[n - 1].index, Normal(e.kind.errors[n - 1].error, here));
    }
  }

  lemma {:induction false} NormalIsWellMade(e: LibError, here: string)
    requires WellMade(e)
    ensures WellMade(Normal(e, here))
    decreases e
  {
    if e.kind.Aggregate? {
      forall i | 0 <= i < |e.kind.errors| ensures WellMade(Normal(e.kind.errors[i].error, here)) {
        NormalIsWellMade(e.kind.errors[i].error, here);
      }
    } else if e.cause.Library? {
      NormalIsWellMade(e.cause.err, here);
    }
  }

  // ---- when nothing is lost -------------------------------------------------------------------

  /** The class has a case of its own and all its optional fields are there. */
  predicate KindIsFaithful(k: Kind) {
    match k
    case Parallel(_) => false
    case QueueFull(_, _) => false
    case Execution(_, stack, name) => stack.Some? && name.Some?
    case Cancelled(reason) => reason.Some?
    case _ => true
  }

  ghost predicate Faithful(e: LibError)
    decreases e
  {
    && KindIsFaithful(e.kind)
    && (e.cause.NoCause? || (e.cause.Library? && Faithful(e.cause.err)))
    && (e.kind.Aggregate? ==> forall i :: 0 <= i < |e.kind.errors| ==> Faithful(e.kind.errors[i].error))
  }

  lemma {:induction false} NormalIsIdentityIff(e: LibError, here: string)
    requires WellMade(e)
    ensures Normal(e, here) == e <==> Faithful(e)
    decreases e
  {
    if e.kind.Aggregate? {
      var normal := NormalEntries(e, here, |e.kind.errors|);
      forall i | 0 <= i < |e.kind.errors|
        ensures normal[i] == e.kind.errors[i] <==> Faithful(e.kind.errors[i].error)
      {
        NormalIsIdentityIff(e.kind.errors[i].error, here);
      }
      if Faithful(e) {
        assert normal == e.kind.errors;
      }
    } else if e.cause.Library? {
      NormalIsIdentityIff(e.cause.err, here);
    }
  }

  /** A trip changes nothing exactly when, all over the tree, classes have a case of
      their own, executions know their remote stack and name, cancellations have a
      reason, and causes are library errors. */
  lemma TripIsIdentityIff(e: LibError, here: string)
    requires WellMade(e)
    ensures Trip(e, here) == e <==> Faithful(e)
  {
    TripIsNormal(e, here);
    NormalIsIdentityIff(e, here);
  }

  // ---- a second trip ------------------------------------------------------------------------

  /** Every foreign cause brings a stack of its own. */
  ghost predicate Stacked(e: LibError)
    decreases e
  {
    && !e.cause.Other? && (e.cause.Foreign? ==> e.cause.stack.Some?)
    && (e.cause.Library? ==> Stacked(e.cause.err))
    && (e.kind.Aggregate? ==> forall i :: 0 <= i < |e.kind.errors| ==> Stacked(e.kind.errors[i].error))
  }

  lemma {:induction false} NormalIsFaithfulIff(e: LibError, here: string)
    requires WellMade(e)
    ensures Faithful(Normal(e, here)) <==> Stacked(e)
    decreases e
  {
    if e.kind.Aggregate? {
      forall i | 0 <= i < |e.kind.errors|
        ensures Faithful(Normal(e, here).kind.errors[i].error) <==> Stacked(e.kind.errors[i].error)
      {
        NormalIsFaithfulIff(e.kind.errors[i].error, here);
      }
    } else if e.cause.Library? {
      NormalIsFaithfulIff(e.cause.err, here);
    }
  }

  /** A second trip changes nothing at all exactly when no cause lacks a stack: such a
      cause gets the stack of the place it passes second. */
  lemma SecondTripIsIdentityIff(e: LibError, here: string, there: string)
    requires WellMade(e)
    ensures Trip(Trip(e, here), there) == Trip(e, here) <==> Stacked(e)
  {
    TripIsNormal(e, here);
    NormalIsWellMade(e, here);
    TripIsIdentityIff(Normal(e, here), there);
    NormalIsFaithfulIff(e, here);
  }

  /** The error without its remote stacks. */
  function Unstacked(e: LibError): LibError
    decreases e, 1, 0
  {
    match e.kind
    case Execution(message, _, name) => LibError(Execution(message, None, name), UnstackedCause(e.cause))
    case Aggregate(errors, partial) => LibError(Aggregate(UnstackedEntries(e), partial), UnstackedCause(e.cause))
    case k => LibError(k, UnstackedCause(e.cause))
  }

  function UnstackedCause(c: Cause): Cause
    decreases c, 1, 0
  {
    match c
    case Library(err) => Library(Unstacked(err))
    case Foreign(name, message, _) => Foreign(name, message, None)
    case other => other
  }

  function UnstackedEntries(e: LibError): (entries: seq<Entry>)
    requires e.kind.Aggregate?
    ensures |entries| == |e.kind.errors|
    decreases e, 0, 0
  {
    seq(|e.kind.errors|, i requires 0 <= i < |e.kind.errors| =>
      Entry(e.kind.errors[i].index, Unstacked(e.kind.errors[i].error)))
  }

  /** A foreign cause has become an execution after one trip, and stays that one. */
  lemma ForeignCauseTwice(message: Text, stack: Option<string>, name: Name, there: string)
    ensures var x := LibError(Execution(message, stack, Some(name)), NoCause);
            UnstackedCause(NormalCause(Library(x), there)) == UnstackedCause(Library(x))
            && LastMessage(Library(x)) == message
  {
    var x := LibError(Execution(message, stack, Some(name)), NoCause);
    assert Normal(x, there) == LibError(Execution(message, Some(stack.UnwrapOr(there)), Some(name)), NoCause);
    assert Unstacked(Normal(x, there)) == Unstacked(x);
    assert Message(x) == message;
  }

  lemma AggregateTwice(e: LibError, here: string, there: string)
    requires e.kind.Aggregate?
    requires forall i :: 0 <= i < |e.kind.errors| ==>
               var once := Normal(e.kind.errors[i].error, here); Unstacked(Normal(once, there)) == Unstacked(once)
    ensures Unstacked(Normal(Normal(e, here), there)) == Unstacked(Normal(e, here))
  {
    var once := Normal(e, here);
    var a, b := UnstackedEntries(Normal(once, there)), UnstackedEntries(once);
    forall i | 0 <= i < |e.kind.errors| ensures a[i] == b[i] {
    }
    assert a == b;
  }

  lemma KindTwice(e: LibError, once: LibError, here: string, there: string)
    requires !e.kind.Aggregate? && once.kind == NormalKind(e, here)
    ensures NormalKind(once, there) == once.kind && !once.kind.Aggregate?
  {
  }

  lemma CauseTwice(c: Cause, here: string, there: string)
    requires c.Library? ==> Unstacked(Normal(Normal(c.err, here), there)) == Unstacked(Normal(c.err, here))
    ensures UnstackedCause(NormalCause(NormalCause(c, here), there)) == UnstackedCause(NormalCause(c, here))
  {
    match c
    case NoCause =>
    case Library(_) =>
    case Foreign(name, message, stack) => ForeignCauseTwice(message, stack, name, there);
    case Other(text) => ForeignCauseTwice(text, None, NonError, there);
  }

  lemma {:induction false} NormalTwice(e: LibError, here: string, there: string)
    ensures Unstacked(Normal(Normal(e, here), there)) == Unstacked(Normal(e, here))
    decreases e
  {
    if e.kind.Aggregate? {
      forall i | 0 <= i < |e.kind.errors|
        ensures var once := Normal(e.kind.errors[i].error, here); Unstacked(Normal(once, there)) == Unstacked(once)
      {
        NormalTwice(e.kind.errors[i].error, here, there);
      }
      AggregateTwice(e, here, there);
    } else {
      if e.cause.Library? {
        NormalTwice(e.cause.err, here, there);
      }
      CauseTwice(e.cause, here, there);
      KindTwice(e, Normal(e, here), here, there);
    }
  }

  /** Remote stacks apart, one trip is as good as many, for every error tree. */
  lemma TripIsIdempotent(e: LibError, here: string, there: string)
    requires WellMade(e)
    ensures Unstacked(Trip(Trip(e, here), there)) == Unstacked(Trip(e, here))
  {
    TripIsNormal(e, here);
    NormalIsWellMade(e, here);
    TripIsNormal(Normal(e, here), there);
    NormalTwice(e, here, there);
  }

  // ---- messages -------------------------------------------------------------------------------

  /** The message does not come from a cancellation without a reason. */
  predicate KeepsMessage(e: LibError)
    decreases e
  {
    match e.kind
    case Cancelled(reason) => reason.Some?
    case RetryExhausted(_) => e.cause.Library? ==> KeepsMessage(e.cause.err)
    case Aggregate(errors, _) => errors != [] ==> KeepsMessage(errors[0].error)
    case _ => true
  }

  /** A retry shows the message of its cause. */
  lemma RetryKeepsMessageIff(e: LibError, here: string)
    requires WellMade(e) && e.kind.RetryExhausted?
    requires e.cause.Library? ==>
               (Message(Normal(e.cause.err, here)) == Message(e.cause.err) <==> KeepsMessage(e.cause.err))
    ensures Message(Normal(e, here)) == Message(e) <==> KeepsMessage(e)
  {
    if e.cause.Foreign? {
      ForeignCauseTwice(e.cause.message, e.cause.stack, e.cause.name, here);
    }
  }

  /** An aggregate that of its first error. */
  lemma AggregateKeepsMessageIff(e: LibError, here: string)
    requires e.kind.Aggregate?
    requires e.kind.errors != [] ==>
               var first := e.kind.errors[0].error;
               Message(Normal(first, here)) == Message(first) <==> KeepsMessage(first)
    ensures Message(Normal(e, here)) == Message(e) <==> KeepsMessage(e)
  {
  }

  lemma KindKeepsMessageIff(e: LibError, here: string)
    requires !e.kind.RetryExhausted? && !e.kind.Aggregate?
    ensures Message(Normal(e, here)) == Message(e) <==> KeepsMessage(e)
  {
  }

  lemma {:induction false} NormalKeepsMessageIff(e: LibError, here: string)
    requires WellMade(e)
    ensures Message(Normal(e, here)) == Message(e) <==> KeepsMessage(e)
    decreases e
  {
    if e.kind.RetryExhausted? {
      if e.cause.Library? {
        NormalKeepsMessageIff(e.cause.err, here);
      }
      RetryKeepsMessageIff(e, here);
    } else if e.kind.Aggregate? {
      if e.kind.errors != [] {
        NormalKeepsMessageIff(e.kind.errors[0].error, here);
      }
      AggregateKeepsMessageIff(e, here);
    } else {
      KindKeepsMessageIff(e, here);
    }
  }

  /** The message arrives as it was, unless it is that of a cancellation without a
      reason, which comes out as a cancellation for being cancelled. */
  lemma TripKeepsMessageIff(e: LibError, here: string)
    requires WellMade(e)
    ensures Message(Trip(e, here)) == Message(e) <==> KeepsMessage(e)
    ensures e.kind == Cancelled(None) ==> Message(Trip(e, here)) == CancelledFor(WasCancelled)
  {
    TripIsNormal(e, here);
    NormalKeepsMessageIff(e, here);
  }
}
