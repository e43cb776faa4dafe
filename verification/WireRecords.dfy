/** The records that cross the wire, field by field: the status of each class, the parts of
    messages and extras by their names, and what is made of records that lack something. */
module WireRecords {
  import opened Options
  import opened WireErrors

  // ---- statuses -----------------------------------------------------------------------------

  /** The classes behind each HTTP status; all the others are answered with 500. */
  lemma StatusClasses(e: LibError, here: string)
    ensures var w := ToJson(e, here);
            && (w.httpStatus == 400 <==> w.code in {CFP_SERIALIZATION, CFP_DEADLINE_TOO_SHORT, CFP_TOPOLOGY})
            && (w.httpStatus == 402 <==> w.code == CFP_BILLING_LIMIT)
            && (w.httpStatus == 409 <==> w.code == CFP_CONFLICT)
            && (w.httpStatus == 410 <==> w.code == CFP_RESULT_EXPIRED)
            && (w.httpStatus == 413 <==> w.code == CFP_RETURN_TOO_LARGE)
            && (w.httpStatus == 429 <==> w.code == CFP_QUEUE_FULL)
            && (w.httpStatus == 499 <==> w.code == CFP_CANCELLED)
            && (w.httpStatus == 502 <==> w.code == CFP_DISCONNECTED)
            && (w.httpStatus == 503 <==> w.code in {CFP_RETRY_EXHAUSTED, CFP_BACKPRESSURE})
            && (w.httpStatus == 504 <==> w.code in {CFP_TIMEOUT, CFP_DEADLINE_EXCEEDED})
            && (w.httpStatus == 507 <==> w.code == CFP_OUT_OF_MEMORY)
            && (w.httpStatus in {400, 402, 409, 410, 413, 429, 499, 500, 502, 503, 504, 507})
  {
  }

  // ---- messages and extras --------------------------------------------------------------------

  /** A computed message shows the fields of the error under their own names. */
  lemma MessageShowsFields(e: LibError)
    ensures var k, m := e.kind, Message(e);
            && (k.ReturnTooLarge? ==> m.PayloadTooLarge? && m.bytes == k.bytes)
            && (k.DeadlineTooShort? ==> m.BudgetTooShort? && m.budgetMs == k.budgetMs && m.minBudgetMs == k.minBudgetMs)
            && (k.Timeout? ==> m.ExceededTimeout? && m.ms == k.deadlineMs)
            && (k.RetryExhausted? ==> m.FailedAfter? && m.attempts == k.attempts && m.last == LastMessage(e.cause))
            && (k.MissingBinding? ==> m.BindingIsMissing? && m.name == k.bindingName)
            && (k.DeadlineExceeded? ==> m.DeadlinePassed? && m.epochMs == k.deadlineEpochMs)
            && (k.QueueFull? ==> m.QueueIsFull? && m.depth == k.depth && m.maxDepth == k.maxDepth)
            && (k.ResultExpired? ==> m.JobHasExpired? && m.job == k.jobId)
            && (k.Aggregate? ==> m.TasksFailed? && m.count == |k.errors|)
  {
  }

  /** A cancellation shows its reason, unless it has none or an empty one; a retry shows the
      message of the error it ended with, and an aggregate that of its first entry. */
  lemma MessageShowsOthers(e: LibError)
    ensures var k, m := e.kind, Message(e);
            && (k.Cancelled? ==>
                  if k.reason in {None, Some(Given(""))} then m == WasCancelled else m == CancelledFor(k.reason.value))
            && (k.RetryExhausted? && e.cause.Library? ==> m.last == Message(e.cause.err))
            && (k.RetryExhausted? && e.cause.Foreign? ==> m.last == e.cause.message)
            && (k.Aggregate? ==> m.first == if k.errors == [] then Unknown else Message(k.errors[0].error))
  {
  }

  /** So do the extra fields of its record. */
  lemma ExtraShowsFields(e: LibError, here: string)
    ensures var k, x := e.kind, ToJson(e, here).extra;
            && (k.ReturnTooLarge? ==> x.Bytes? && x.bytes == k.bytes)
            && (k.DeadlineTooShort? ==> x.Budgets? && x.budgetMs == k.budgetMs && x.minBudgetMs == k.minBudgetMs)
            && (k.BillingLimit? ==> x.LimitKind? && x.limit == k.limit)
            && (k.Timeout? ==> x.DeadlineMs? && x.deadlineMs == k.deadlineMs)
            && (k.RetryExhausted? ==> x.Attempts? && x.attempts == k.attempts)
            && (k.MissingBinding? ==> x.BindingName? && x.bindingName == k.bindingName)
            && (k.Cancelled? ==> x.Reason? && x.reason == k.reason)
            && (k.DeadlineExceeded? ==> x.DeadlineEpochMs? && x.deadlineEpochMs == k.deadlineEpochMs)
            && (k.Backpressure? ==> x.RetryAfterMs? && x.retryAfterMs == k.retryAfterMs)
            && (k.QueueFull? ==> x.Depths? && x.depth == k.depth && x.maxDepth == k.maxDepth)
            && (k.ResultExpired? ==> x.JobId? && x.jobId == k.jobId)
  {
  }

  // ---- what is thrown arrives ------------------------------------------------------------------

  /** What is to arrive of something thrown: a library error in its normal form, anything else
      as an execution error of the same message, with the name and the stack it had. */
  function Arrived(thrown: Cause, here: string): LibError {
    match thrown
    case Library(err) => Normal(err, here)
    case Foreign(name, message, stack) => LibError(Execution(message, stack, Some(name)), NoCause)
    case Other(text) => LibError(Execution(text, Some(here), Some(PlainError)), NoCause)
    case NoCause => LibError(Execution(Given("undefined"), Some(here), Some(PlainError)), NoCause)
  }

  lemma ThrownArrives(thrown: Cause, here: string)
    requires thrown.Library? ==> WellMade(thrown.err)
    ensures WireToError(ErrorToWire(thrown, here), here) == Arrived(thrown, here)
  {
    if thrown.Library? {
      TripIsNormal(thrown.err, here);
    }
  }

  /** The record of something thrown is never nameless, and any other name is kept. */
  lemma RecordsAreNamed(name: Name, message: Text, stack: Option<string>, here: string)
    ensures ErrorToWire(Foreign(name, message, stack), here).name != Named("")
    ensures name != Named("") ==> ErrorToWire(Foreign(name, message, stack), here).name == name
  {
  }

  /** A foreign cause is recorded under its name, twice. */
  lemma CauseIsRecorded(name: Name, message: Text, stack: Option<string>, here: string)
    ensures var w := CauseToWire(Foreign(name, message, stack), here);
            w.Some? && w.value.name == name && w.value.originalName == Some(name) && w.value.message == message
  {
  }

  // ---- records that lack something ---------------------------------------------------------------

  /** What is restored from a record without extra fields. */
  lemma MissingExtras(w: Wire, here: string)
    requires w.extra.NoExtra?
    ensures var k := WireToError(w, here).kind;
            && (w.code == CFP_CANCELLED ==> k == Cancelled(Some(w.message)))
            && (w.code == CFP_DEADLINE_EXCEEDED ==> k == DeadlineExceeded(0))
            && (w.code == CFP_TIMEOUT ==> k == Timeout(0))
            && (w.code == CFP_BACKPRESSURE ==> k == Backpressure(w.message, 100))
            && (w.code == CFP_BILLING_LIMIT ==> k == BillingLimit("cpuMs", w.message))
            && (w.code == CFP_RETURN_TOO_LARGE ==> k == ReturnTooLarge(0))
            && (w.code == CFP_DEADLINE_TOO_SHORT ==> k == DeadlineTooShort(0, 1000))
            && (w.code == CFP_RESULT_EXPIRED ==> k == ResultExpired(""))
            && (w.code == CFP_RETRY_EXHAUSTED ==> k == RetryExhausted(1))
            && (w.code == CFP_MISSING_BINDING ==> k == MissingBinding("unknown"))
            && (w.code == CFP_AGGREGATE_EXECUTION ==> k == Aggregate([], []))
  {
  }

  /** An aggregate takes no cause, whatever its record says. */
  lemma AggregatesHaveNoCause(w: Wire, here: string)
    requires w.code == CFP_AGGREGATE_EXECUTION
    ensures WireToError(w, here).cause.NoCause?
  {
  }

  /** An index that comes up again keeps its place and takes the later entry, as in a map. */
  lemma {:induction false} LaterEntryWins(entries: seq<Entry>, index: nat, error: LibError, at: nat)
    requires at < |entries| && entries[at].index == index
    requires forall i :: 0 <= i < at ==> entries[i].index != index
    ensures PutEntry(entries, index, error) == entries[at := Entry(index, error)]
  {
    if at > 0 {
      LaterEntryWins(entries[1..], index, error, at - 1);
    }
  }

  lemma {:induction false} LaterPartWins(parts: seq<Part>, index: nat, value: string, at: nat)
    requires at < |parts| && parts[at].index == index
    requires forall i :: 0 <= i < at ==> parts[i].index != index
    ensures PutPart(parts, index, value) == parts[at := Part(index, value)]
  {
    if at > 0 {
      LaterPartWins(parts[1..], index, value, at - 1);
    }
  }

  /** Any other code is not read from the extra fields; those without a class of their own,
      and unknown ones, become executions. */
  lemma OtherCodes(w: Wire, here: string)
    ensures w.code in {CFP_EXECUTION, CFP_PARALLEL, CFP_QUEUE_FULL} <==> WireToError(w, here).kind.Execution?
    ensures w.code !in {CFP_EXECUTION, CFP_PARALLEL, CFP_QUEUE_FULL} ==> CodeOf(WireToError(w, here).kind) == w.code
  {
  }

  /** A retry without a cause gets one made of its message, here. */
  lemma RetryCauseIsMade(w: Wire, here: string)
    requires w.code == CFP_RETRY_EXHAUSTED && w.cause.None?
    ensures WireToError(w, here).cause == Foreign(PlainError, w.message, Some(here))
    ensures Message(WireToError(w, here)).last == w.message
  {
  }
}
