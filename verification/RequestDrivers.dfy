/** What drives a request state: the operation that closes it, span starts, and the SQLAlchemy hooks. */
module RequestDrivers {
  import opened Options
  import opened RequestCalls
  import opened RequestState
  import SpanOwners

  // ---------------------------------------------------------------- operations

  /** `Operation`. `summary` is what its terminal event reports. */
  class Operation {
    var state: State?
    var exited: bool
    var summary: Option<Totals>

    ghost predicate Valid()
      reads this, Owned()
    {
      && (state == null ==> !exited && summary.None?)
      && (!exited ==> summary.None?)
      && (exited ==> state != null && state.closed)
      && (state != null && state.closed ==> state.Totals() == EMPTY)
    }

    ghost function Owned(): set<object>
      reads this
    {
      if state == null then {} else {state}
    }

    constructor ()
      ensures Valid() && state == null && !exited
    {
      state, exited, summary := null, false, None;
    }

    /** `__enter__`: false stands for `RuntimeError`. */
    method Enter() returns (ok: bool)
      requires Valid()
      modifies this
      ensures Valid() && ok == (old(state) == null)
      ensures ok ==> state != null && fresh(state) && !state.closed && state.Totals() == EMPTY
      ensures !ok ==> state == old(state) && exited == old(exited) && summary == old(summary)
    {
      if state != null {
        return false;
      }
      state := new State();
      ok := true;
    }

    /** `record_call`: none stands for an exception, before any change. Closed operations answer false. */
    method RecordCall(kind: Kind, seconds: real, error: Option<string>, valid: bool, overflows: bool)
      returns (admitted: Option<bool>)
      requires Valid()
      modifies Owned()
      ensures Valid() && (admitted.None? <==> state == null || !valid)
      ensures admitted.Some? ==> admitted.value == (!old(state.closed) && !overflows)
      ensures state != null ==>
                && state.closed == old(state.closed)
                && state.Totals() == if admitted == Some(true)
                                     then Record(old(state.Totals()), Call(kind, seconds, None, error, Manual, false))
                                     else old(state.Totals())
    {
      if state == null || !valid {
        return None;
      }
      var ok := state.RecordCall(Call(kind, seconds, None, error, Manual, false), overflows);
      admitted := Some(ok);
    }

    /** `start_call`: null stands for `RuntimeError`; a new call needs an active operation. */
    method StartCall(here: nat, kind: Kind) returns (call: CallHandle?)
      requires Valid()
      modifies Owned()
      ensures Valid() && (call == null <==> state == null || old(state.closed))
      ensures call != null ==>
                && fresh(call) && call.token.Some? && !call.finished && call.owner == state && call.kind == kind
                && call.source == Manual
      ensures state != null ==>
                && state.closed == old(state.closed)
                && state.Totals() == if call == null then old(state.Totals())
                                     else Begin(old(state.Totals()), kind, Manual)
    {
      if state == null || state.closed {
        return null;
      }
      call := new CallHandle(state, here, kind, Manual);
    }

    /**
     `__exit__`. It takes effect once, and only after entry. Whatever raises on the way, the state ends closed and
     empty; unless something raised before the summary, the event reports exactly the totals at that moment.
     */
    method Exit(raisesBeforeSummary: bool)
      requires Valid()
      modifies this, Owned()
      ensures Valid() && state == old(state)
      ensures exited == (old(exited) || old(state) != null)
      ensures old(exited) || state == null ==> summary == old(summary)
      ensures !old(exited) && state != null ==>
                summary == if raisesBeforeSummary then None else Some(old(state.Totals()))
    {
      if state == null || exited {
        return;
      }
      exited := true;
      if !raisesBeforeSummary {
        var snapshot := state.SummarizeCalls(true);
        summary := Some(snapshot);
      }
      if !state.closed {
        state.Release();
      }
    }
  }

  // ---------------------------------------------------------------- spans

  /** What another thread may do to the state between two of its locks. */
  method OthersMayClose(state: State)
    modifies state
    ensures state.droppedSpans == old(state.droppedSpans)
    ensures old(state.closed) ==> state.closed
  {
    if * {
      var _ := state.SummarizeCalls(true);
    }
  }

  /**
   The owner table's part of `on_start` for a client span of the state `id`, with another thread closing that state
   at any moment. A span of a state that was open at the start is captured or counted by the table; the state counts
   it too if and only if it is still open at the end.
   */
  method StartSpan(table: SpanOwners.Owners, here: nat, key: SpanOwners.SpanKey, state: State, id: nat)
    returns (captured: bool)
    modifies table, state
    ensures old(state.closed) ==> state.closed && !captured
    ensures var before := SpanOwners.AfterFork(old(table.Value()), here);
            && table.dropped == before.dropped + (if captured || old(state.closed) then 0 else 1)
            && state.droppedSpans == old(state.droppedSpans) + (if captured || state.closed then 0 else 1)
            && (captured <==> !old(state.closed) && (key in before.owners || |before.owners| < before.limit))
            && (captured ==>
                  var pid := if old(state.tokenPid).Some? then old(state.tokenPid).value else here;
                  table.owners == before.owners[key := SpanOwners.Token(id, pid)])
            && (!captured ==> table.owners == before.owners)
  {
    var token := state.CallOwner(here, None);
    OthersMayClose(state);
    captured := table.CaptureSpan(here, key, if token.None? then None else Some(SpanOwners.Token(id, token.value)));
    OthersMayClose(state);
    if !captured {
      state.DropSpan();
    }
  }

  // ---------------------------------------------------------------- SQLAlchemy

  /** The attribute that the hooks set on an execution context. */
  class ExecutionContext {
    var started: CallHandle?

    constructor ()
      ensures started == null
    {
      started := null;
    }
  }

  /** Executions started and not yet ended. */
  function InFlight(t: Totals): int {
    var s := Executions(t.sql);
    s.attempted - s.succeeded - s.failed
  }

  /** `_before`: an open request has one more attempt in flight. */
  method BeforeExecute(context: ExecutionContext, here: nat, state: State?)
    modifies context, if state == null then {} else {state}
    ensures context.started == null <==> state == null
    ensures state != null ==>
              && fresh(context.started) && context.started.owner == state && !context.started.finished
              && context.started.kind == Db && context.started.source == Sqlalchemy
              && context.started.token.Some? == !old(state.closed) && state.closed == old(state.closed)
              && (context.started.token.Some? ==> state.sql.Some?)
              && InFlight(state.Totals()) == InFlight(old(state.Totals())) + (if state.closed then 0 else 1)
              && state.Totals() == if state.closed then old(state.Totals())
                                   else Begin(old(state.Totals()), Db, Sqlalchemy)
  {
    if state == null {
      context.started := null;
    } else {
      var call := new CallHandle(state, here, Db, Sqlalchemy);
      context.started := call;
    }
  }

  /** One execution less in flight, and which way it ended. */
  lemma ExecutionEnds(t: Totals, call: Call)
    requires call.source.Sqlalchemy? && t.sql.Some?
    ensures var s, s' := Executions(t.sql), Executions(Record(t, call).sql);
            && InFlight(Record(t, call)) == InFlight(t) - 1
            && (if call.error.None? then s'.succeeded == s.succeeded + 1 else s'.failed == s.failed + 1)
  {
    RecordRest(t, call);
  }

  /**
   `_after` (no error) or `_error`: the execution leaves the flight once, as succeeded or failed, however many of
   the two hooks run for it.
   */
  method EndExecution(
    context: ExecutionContext, here: nat, seconds: real, fingerprint: Option<string>, error: Option<string>,
    overflows: bool)
    returns (admitted: bool)
    requires context.started != null ==>
               context.started.source == Sqlalchemy
               && (context.started.token.Some? && !context.started.owner.closed ==> context.started.owner.sql.Some?)
    modifies if context.started == null then {} else {context.started, context.started.owner}
    ensures context.started == null ==> !admitted
    ensures context.started != null ==>
              var h := context.started;
              && admitted == (old(h.OwnerAnswers(here)) && !old(h.finished) && !overflows)
              && (admitted ==> h.finished)
              && InFlight(h.owner.Totals()) == InFlight(old(h.owner.Totals())) - (if admitted then 1 else 0)
              && h.owner.Totals() ==
                 (if admitted
                  then Record(old(h.owner.Totals()), Call(h.kind, seconds, fingerprint, error, h.source, true))
                  else old(h.owner.Totals()))
              && (admitted ==>
                    var s, s' := Executions(old(h.owner.sql)), Executions(h.owner.sql);
                    if error.None? then s'.succeeded == s.succeeded + 1 && s'.failed == s.failed
                    else s'.failed == s.failed + 1 && s'.succeeded == s.succeeded)
  {
    if context.started == null {
      return false;
    }
    var h := context.started;
    ghost var before := h.owner.Totals();
    admitted := h.Finish(here, seconds, fingerprint, error, true, overflows);
    if admitted {
      var call := Call(h.kind, seconds, fingerprint, error, h.source, true);
      ExecutionEnds(before, call);
    }
  }
}
