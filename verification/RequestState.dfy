/** `RequestState` and `CallHandle` as objects; each method runs under the state's lock. */
module RequestState {
  import opened Options
  import opened RequestCalls

  /** `tokenPid` is the process the state's one owner token was made in, if it has one. */
  class State {
    var calls: map<Kind, Group>
    var callErrors: map<Kind, map<string, nat>>
    var statements: map<string, nat>
    var sql: Option<Sql>
    var sources: map<Kind, set<Source>>
    var pending: map<Kind, nat>
    var closed: bool
    var tokenPid: Option<nat>
    var droppedSpans: nat

    function Totals(): Totals
      reads this
    {
      RequestCalls.Totals(calls, callErrors, statements, sql, sources, pending)
    }

    constructor ()
      ensures Totals() == EMPTY && !closed && tokenPid.None? && droppedSpans == 0
    {
      calls, callErrors, statements, sql, sources, pending := map[], map[], map[], None, map[], map[];
      closed, tokenPid, droppedSpans := false, None, 0;
    }

    /**
     `_call_owner`: a closed state hands out nothing; an open one hands out its one token, made by the process
     that first asked, and notes the start of a call, if there is one.
     */
    method CallOwner(here: nat, start: Option<(Kind, Source)>) returns (token: Option<nat>)
      modifies this
      ensures token.None? <==> old(closed)
      ensures closed == old(closed) && droppedSpans == old(droppedSpans)
      ensures token.Some? ==> tokenPid == token == if old(tokenPid).Some? then old(tokenPid) else Some(here)
      ensures token.None? ==> tokenPid == old(tokenPid)
      ensures Totals() == if token.Some? && start.Some? then Begin(old(Totals()), start.value.0, start.value.1)
                          else old(Totals())
    {
      if closed {
        return None;
      }
      if tokenPid.None? {
        tokenPid := Some(here);
      }
      if start.Some? {
        var (kind, source) := start.value;
        sources := sources[kind := Get(sources, kind, {}) + {source}];
        pending := pending[kind := Get(pending, kind, 0) + 1];
        if source == Sqlalchemy {
          var s := Executions(sql);
          sql := Some(s.(attempted := s.attempted + 1));
        }
      }
      token := tokenPid;
    }

    /** `_record_call`; `overflows` says that the new total would not be finite. */
    method RecordCall(call: Call, overflows: bool) returns (admitted: bool)
      modifies this
      ensures admitted == (!old(closed) && !overflows)
      ensures closed == old(closed) && tokenPid == old(tokenPid) && droppedSpans == old(droppedSpans)
      ensures Totals() == if admitted then Record(old(Totals()), call) else old(Totals())
    {
      if closed || overflows {
        return false;
      }
      admitted := true;
      if call.source == Sqlalchemy && sql.Some? && call.error.Some? {
        RecordFailed(call);
      } else {
        RecordCompleted(call);
      }
    }

    method RecordFailed(call: Call)
      requires FailedSql(Totals(), call)
      modifies this`sql, this`sources, this`pending
      ensures Totals() == Record(old(Totals()), call)
    {
      AddFailedExecution(call);
      CompleteCall(call.kind, call.source, call.started);
    }

    method RecordCompleted(call: Call)
      requires !FailedSql(Totals(), call)
      modifies this`calls, this`callErrors, this`statements, this`sql, this`sources, this`pending
      ensures Totals() == Record(old(Totals()), call)
    {
      AddCompleted(call);
      CompleteCall(call.kind, call.source, call.started);
      if call.fingerprint.Some? {
        AddStatement(call.fingerprint.value);
      }
    }

    method AddFailedExecution(call: Call)
      requires sql.Some? && call.error.Some?
      modifies this`sql
      ensures sql == Some(AddExecution(old(sql).value, call))
    {
      var s := sql.value;
      var errors := AddError(s.errors, call.error.value);
      sql := Some(s.(failed := s.failed + 1, failedSeconds := s.failedSeconds + call.seconds, errors := errors));
    }

    /** The call's group, its error category and, for SQLAlchemy, the success. */
    method AddCompleted(call: Call)
      requires !FailedSql(Totals(), call)
      modifies this`calls, this`callErrors, this`sql
      ensures calls == AddCall(old(calls), call)
      ensures callErrors == if call.error.None? then old(callErrors)
                            else AddCallError(old(callErrors), call.kind, call.error.value)
      ensures sql == if call.source.Sqlalchemy? && old(sql).Some? then Some(AddExecution(old(sql).value, call))
                     else old(sql)
    {
      var g := Get(calls, call.kind, Group(0, 0.0));
      calls := calls[call.kind := Group(g.count + 1, g.seconds + call.seconds)];
      if call.error.Some? {
        var errors := AddError(Get(callErrors, call.kind, map[]), call.error.value);
        callErrors := callErrors[call.kind := errors];
      }
      if call.source == Sqlalchemy && sql.Some? {
        sql := Some(sql.value.(succeeded := sql.value.succeeded + 1));
      }
    }

    method AddStatement(f: string)
      modifies this`statements
      ensures statements == CountStatement(old(statements), f)
    {
      if f in statements || |statements| < MAX_REQUEST_STATEMENTS {
        statements := statements[f := Get(statements, f, 0) + 1];
      }
    }

    /** `_complete_call`. */
    method CompleteCall(kind: Kind, source: Source, started: bool)
      modifies this`sources, this`pending
      ensures sources == NoteSource(old(sources), kind, source)
      ensures pending == if started then Settle(old(pending), kind) else old(pending)
    {
      sources := sources[kind := Get(sources, kind, {}) + {source}];
      if started {
        var open := Get(pending, kind, 0);
        pending := pending[kind := if open >= 1 then open - 1 else 0];
      }
    }

    method DropSpan()
      modifies this`droppedSpans
      ensures droppedSpans == old(droppedSpans) + (if closed then 0 else 1)
    {
      if !closed {
        droppedSpans := droppedSpans + 1;
      }
    }

    /** `summarize_calls`: the snapshot and the optional freeze are one step. */
    method SummarizeCalls(close: bool) returns (snapshot: Totals)
      modifies this
      ensures snapshot == old(Totals()) && droppedSpans == old(droppedSpans)
      ensures closed == (old(closed) || close) && tokenPid == if close then None else old(tokenPid)
      ensures Totals() == if close then EMPTY else old(Totals())
    {
      snapshot := Totals();
      if close {
        Release();
      }
    }

    /** `_release`. */
    method Release()
      modifies this
      ensures closed && tokenPid.None? && Totals() == EMPTY && droppedSpans == old(droppedSpans)
    {
      closed := true;
      calls, callErrors, statements := map[], map[], map[];
      tokenPid := None;
      sql := None;
      sources, pending := map[], map[];
    }

    /** `most_repeated_statement`. */
    method MostRepeatedStatement() returns (r: Option<(string, nat)>)
      ensures r.None? <==> statements == map[]
      ensures r.Some? ==> MostRepeated(statements, r.value.0, r.value.1)
    {
      r := None;
      var left := statements.Keys;
      while left != {}
        invariant left <= statements.Keys
        invariant r.None? ==> left == statements.Keys
        invariant r.Some? ==> r.value.0 in statements && statements[r.value.0] == r.value.1
        invariant r.Some? ==> forall g :: g in statements && g !in left ==> statements[g] <= r.value.1
        decreases |left|
      {
        var f :| f in left;
        if r.None? || statements[f] > r.value.1 {
          r := Some((f, statements[f]));
        }
        left := left - {f};
      }
    }
  }

  /** `CallHandle`: attached to the state it started on, and to no other. `token` is that of its owner, if any. */
  class CallHandle {
    const owner: State
    const token: Option<nat>
    const kind: Kind
    const source: Source
    var finished: bool

    /** `token.get()` in process `here`: the owner, if it is open and the token was made here. */
    predicate OwnerAnswers(here: nat)
      reads owner
    {
      token == Some(here) && !owner.closed
    }

    constructor (owner: State, here: nat, kind: Kind, source: Source)
      modifies owner
      ensures this.owner == owner && this.kind == kind && this.source == source && !finished
      ensures owner.closed == old(owner.closed) && owner.droppedSpans == old(owner.droppedSpans)
      ensures token.None? <==> old(owner.closed)
      ensures token.Some? ==> owner.tokenPid == token
      ensures token.Some? ==> token.value == if old(owner.tokenPid).Some? then old(owner.tokenPid).value else here
      ensures owner.Totals() == if token.Some? then Begin(old(owner.Totals()), kind, source) else old(owner.Totals())
    {
      var made := owner.CallOwner(here, Some((kind, source)));
      this.owner, this.kind, this.source := owner, kind, source;
      token := made;
      finished := false;
    }

    /**
     `finish`, called in process `here`. `valid` says the error code and the statement are well formed. It succeeds
     at most once, only in the process that made the token and while its own owner is open, and then adds exactly
     its own completed call; otherwise the totals stay.
     */
    method Finish(
      here: nat, seconds: real, fingerprint: Option<string>, error: Option<string>, valid: bool, overflows: bool)
      returns (admitted: bool)
      modifies this`finished, owner
      ensures admitted == (old(OwnerAnswers(here)) && !old(finished) && valid && !overflows)
      ensures finished == (old(finished) || old(OwnerAnswers(here)))
      ensures owner.closed == old(owner.closed) && owner.tokenPid == old(owner.tokenPid)
      ensures owner.Totals() ==
              if admitted then Record(old(owner.Totals()), Call(kind, seconds, fingerprint, error, source, true))
              else old(owner.Totals())
    {
      if token.None? || token.value != here || owner.closed {
        return false;
      }
      if finished {
        return false;
      }
      finished := true;
      if !valid {
        return false;
      }
      admitted := owner.RecordCall(Call(kind, seconds, fingerprint, error, source, true), overflows);
    }
  }
}
