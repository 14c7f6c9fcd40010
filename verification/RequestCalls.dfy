/** What one request's calls add up to: bounded groups, and their exact relation to what was admitted. */
module RequestCalls {
  import opened Counting
  import opened Options

  datatype Kind = Db | Http

  datatype Source = Manual | Sqlalchemy | Httpx | Httpx2 | Requests | SampledSpan

  datatype Group = Group(count: nat, seconds: real)

  /** `SQLExecutions`. */
  datatype Sql = Sql(attempted: nat, succeeded: nat, failed: nat, failedSeconds: real, errors: map<string, nat>)

  /** The call totals of one `RequestState`. */
  datatype Totals = Totals(
    calls: map<Kind, Group>,
    callErrors: map<Kind, map<string, nat>>,
    statements: map<string, nat>,
    sql: Option<Sql>,
    sources: map<Kind, set<Source>>,
    pending: map<Kind, nat>)

  const EMPTY := Totals(map[], map[], map[], None, map[], map[])
  const MAX_REQUEST_STATEMENTS := 128
  const MAX_ERROR_CATEGORIES := 32
  const OTHER := "other"

  /** A completed call. `fingerprint` is the digest of its statement, if it has a nonempty one. */
  datatype Call = Call(
    kind: Kind, seconds: real, fingerprint: Option<string>, error: Option<string>, source: Source, started: bool)

  // ---------------------------------------------------------------- the locked operations

  function Get<K, V>(m: map<K, V>, k: K, default: V): V {
    if k in m then m[k] else default
  }

  function AddError(errors: map<string, nat>, error: string): map<string, nat> {
    var e := if error !in errors && |errors| >= MAX_ERROR_CATEGORIES then OTHER else error;
    errors[e := Get(errors, e, 0) + 1]
  }

  function NoteSource(sources: map<Kind, set<Source>>, kind: Kind, source: Source): map<Kind, set<Source>> {
    sources[kind := Get(sources, kind, {}) + {source}]
  }

  /** `_call_owner` with a kind and a source, on an open state. */
  function Begin(t: Totals, kind: Kind, source: Source): Totals {
    Totals(t.calls, t.callErrors, t.statements,
           if source.Sqlalchemy? then Some(Attempt(Executions(t.sql))) else t.sql,
           NoteSource(t.sources, kind, source),
           t.pending[kind := Get(t.pending, kind, 0) + 1])
  }

  function Attempt(s: Sql): Sql {
    s.(attempted := s.attempted + 1)
  }

  /** The executions counted so far: none before the first SQLAlchemy call. */
  function Executions(sql: Option<Sql>): Sql {
    match sql
    case None => Sql(0, 0, 0, 0.0, map[])
    case Some(s) => s
  }

  /** The call is a failed SQLAlchemy execution, kept apart from the call groups. */
  predicate FailedSql(t: Totals, call: Call) {
    call.source.Sqlalchemy? && t.sql.Some? && call.error.Some?
  }

  /** The decrement in `_complete_call`, clamped at zero. */
  function Settle(pending: map<Kind, nat>, kind: Kind): map<Kind, nat> {
    var open := Get(pending, kind, 0);
    pending[kind := if open >= 1 then open - 1 else 0]
  }

  function CountStatement(statements: map<string, nat>, fingerprint: string): map<string, nat> {
    if fingerprint in statements || |statements| < MAX_REQUEST_STATEMENTS
    then statements[fingerprint := Get(statements, fingerprint, 0) + 1]
    else statements
  }

  /** `_record_call` on an open state, when the new total is finite. */
  function Record(t: Totals, call: Call): Totals {
    var failed := FailedSql(t, call);
    Totals(
      if failed then t.calls else AddCall(t.calls, call),
      if failed || call.error.None? then t.callErrors else AddCallError(t.callErrors, call.kind, call.error.value),
      if failed || call.fingerprint.None? then t.statements
      else CountStatement(t.statements, call.fingerprint.value),
      if call.source.Sqlalchemy? && t.sql.Some? then Some(AddExecution(t.sql.value, call)) else t.sql,
      NoteSource(t.sources, call.kind, call.source),
      if call.started then Settle(t.pending, call.kind) else t.pending)
  }

  function AddCallError(callErrors: map<Kind, map<string, nat>>, kind: Kind, error: string)
    : map<Kind, map<string, nat>>
  {
    callErrors[kind := AddError(Get(callErrors, kind, map[]), error)]
  }

  function AddCall(calls: map<Kind, Group>, call: Call): map<Kind, Group> {
    var g := Get(calls, call.kind, Group(0, 0.0));
    calls[call.kind := Group(g.count + 1, g.seconds + call.seconds)]
  }

  function AddExecution(s: Sql, call: Call): Sql {
    if call.error.None? then s.(succeeded := s.succeeded + 1)
    else s.(failed := s.failed + 1, failedSeconds := s.failedSeconds + call.seconds,
            errors := AddError(s.errors, call.error.value))
  }

  // ---------------------------------------------------------------- what was admitted

  /** An admitted call, and whether it was counted as a failed SQLAlchemy execution. */
  datatype Admission = Admission(call: Call, failedSql: bool)

  function Counted(kind: Kind): Admission -> bool {
    (a: Admission) => !a.failedSql && a.call.kind == kind
  }

  function Errored(kind: Kind): Admission -> bool {
    (a: Admission) => !a.failedSql && a.call.kind == kind && a.call.error.Some?
  }

  function Failed(): Admission -> bool {
    (a: Admission) => a.failedSql
  }

  /** The statement was seen by `_record_call`: failed executions never reach the fingerprints. */
  function Seen(fingerprint: string): Admission -> bool {
    (a: Admission) => !a.failedSql && a.call.fingerprint == Some(fingerprint)
  }

  ghost function Sum(m: map<string, nat>): nat
    decreases |m|
  {
    if m == map[] then 0
    else
      var k :| k in m;
      m[k] + Sum(m - {k})
  }

  /** Taking out any one key splits the sum. */
  lemma {:induction false} SumSplit(m: map<string, nat>, k: string)
    requires k in m
    ensures Sum(m) == m[k] + Sum(m - {k})
    decreases |m|
  {
    var j :| j in m && Sum(m) == m[j] + Sum(m - {j});
    if j != k {
      SumSplit(m - {j}, k);
      SumSplit(m - {k}, j);
      assert m - {j} - {k} == m - {k} - {j};
    }
  }

  lemma SumSet(m: map<string, nat>, k: string, n: nat)
    ensures Sum(m[k := n]) == Sum(m) - Get(m, k, 0) + n
  {
    SumSplit(m[k := n], k);
    assert m[k := n] - {k} == m - {k};
    if k in m {
      SumSplit(m, k);
    } else {
      assert m - {k} == m;
    }
  }

  /** At most 32 named categories, plus `other`. */
  ghost predicate BoundedErrors(errors: map<string, nat>) {
    |errors.Keys - {OTHER}| <= MAX_ERROR_CATEGORIES
  }

  lemma AddErrorSum(errors: map<string, nat>, error: string)
    ensures Sum(AddError(errors, error)) == Sum(errors) + 1
  {
    var e := if error !in errors && |errors| >= MAX_ERROR_CATEGORIES then OTHER else error;
    var n := Get(errors, e, 0);
    var r := errors[e := n + 1];
    SumSet(errors, e, n + 1);
    assert AddError(errors, error) == r;
  }

  lemma AddErrorBounded(errors: map<string, nat>, error: string)
    requires BoundedErrors(errors)
    ensures BoundedErrors(AddError(errors, error))
  {
    var named := errors.Keys - {OTHER};
    var r := AddError(errors, error);
    if |errors| < MAX_ERROR_CATEGORIES {
      assert r.Keys - {OTHER} <= errors.Keys + {error};
      SubsetSize(r.Keys - {OTHER}, errors.Keys + {error});
    } else {
      assert r.Keys - {OTHER} == named;
    }
  }

  /** Bounded groups have at most 33 keys. */
  lemma BoundedSize(errors: map<string, nat>)
    requires BoundedErrors(errors)
    ensures |errors| <= MAX_ERROR_CATEGORIES + 1
  {
    SubsetSize(errors.Keys, (errors.Keys - {OTHER}) + {OTHER});
  }

  // ---------------------------------------------------------------- totals against admissions

  function GroupOf(t: Totals, kind: Kind): Group {
    Get(t.calls, kind, Group(0, 0.0))
  }

  function ErrorsOf(t: Totals, kind: Kind): map<string, nat> {
    Get(t.callErrors, kind, map[])
  }

  /** The seconds of the admissions that satisfy `p`, added in order. */
  ghost function Seconds(log: seq<Admission>, p: Admission -> bool): real {
    if log == [] then 0.0
    else
      var n := |log| - 1;
      Seconds(log[..n], p) + (if p(log[n]) then log[n].call.seconds else 0.0)
  }

  lemma SecondsAppend(log: seq<Admission>, a: Admission, p: Admission -> bool)
    ensures Seconds(log + [a], p) == Seconds(log, p) + (if p(a) then a.call.seconds else 0.0)
  {
    assert (log + [a])[..|log|] == log;
  }

  ghost predicate GroupMatch(t: Totals, log: seq<Admission>, kind: Kind) {
    GroupOf(t, kind) == Group(Count(log, Counted(kind)), Seconds(log, Counted(kind)))
  }

  ghost predicate ErrorsMatch(t: Totals, log: seq<Admission>, kind: Kind) {
    Sum(ErrorsOf(t, kind)) == Count(log, Errored(kind)) && BoundedErrors(ErrorsOf(t, kind))
  }

  ghost predicate CallsMatch(t: Totals, log: seq<Admission>) {
    && (forall kind :: GroupMatch(t, log, kind))
    && (forall kind :: ErrorsMatch(t, log, kind))
  }

  ghost predicate SqlMatch(t: Totals, log: seq<Admission>) {
    && Executions(t.sql).failed == Count(log, Failed())
    && Executions(t.sql).failedSeconds == Seconds(log, Failed())
    && Sum(Executions(t.sql).errors) == Count(log, Failed())
    && BoundedErrors(Executions(t.sql).errors)
  }

  /** A tracked statement has its exact count; an untracked one was first seen when the budget was spent. */
  ghost predicate Tracks(statements: map<string, nat>, log: seq<Admission>) {
    && |statements| <= MAX_REQUEST_STATEMENTS
    && (forall f :: f in statements ==> statements[f] == Count(log, Seen(f)) > 0)
    && (forall f :: f !in statements && Count(log, Seen(f)) > 0 ==> |statements| == MAX_REQUEST_STATEMENTS)
  }

  ghost predicate Match(t: Totals, log: seq<Admission>) {
    CallsMatch(t, log) && SqlMatch(t, log) && Tracks(t.statements, log)
  }

  lemma EmptyMatch()
    ensures Match(EMPTY, [])
  {
  }

  lemma SameGroups(t: Totals, t': Totals, log: seq<Admission>, kind: Kind)
    requires GroupMatch(t, log, kind) && ErrorsMatch(t, log, kind)
    requires t'.calls == t.calls && t'.callErrors == t.callErrors
    ensures GroupMatch(t', log, kind) && ErrorsMatch(t', log, kind)
  {
  }

  lemma BeginKeeps(t: Totals, log: seq<Admission>, kind: Kind, source: Source)
    requires Match(t, log)
    ensures Match(Begin(t, kind, source), log)
  {
    var t' := Begin(t, kind, source);
    forall k
      ensures GroupMatch(t', log, k) && ErrorsMatch(t', log, k)
    {
      assert GroupMatch(t, log, k) && ErrorsMatch(t, log, k);
      SameGroups(t, t', log, k);
    }
    assert SqlMatch(t', log);
  }

  /** The call goes to the group of this kind. */
  predicate Joins(t: Totals, call: Call, kind: Kind) {
    !FailedSql(t, call) && call.kind == kind
  }

  lemma RecordGroup(t: Totals, call: Call, kind: Kind)
    ensures var g, g' := GroupOf(t, kind), GroupOf(Record(t, call), kind);
            g' == if Joins(t, call, kind) then Group(g.count + 1, g.seconds + call.seconds) else g
  {
  }

  lemma RecordErrors(t: Totals, call: Call, kind: Kind)
    ensures ErrorsOf(Record(t, call), kind) ==
            if Joins(t, call, kind) && call.error.Some? then AddError(ErrorsOf(t, kind), call.error.value)
            else ErrorsOf(t, kind)
  {
  }

  lemma RecordRest(t: Totals, call: Call)
    ensures var t' := Record(t, call);
            var s, s' := Executions(t.sql), Executions(t'.sql);
            if FailedSql(t, call) then
              && t'.statements == t.statements
              && s'.failed == s.failed + 1 && s'.failedSeconds == s.failedSeconds + call.seconds
              && s'.errors == AddError(s.errors, call.error.value)
              && s'.attempted == s.attempted && s'.succeeded == s.succeeded
            else
              && t'.statements == (if call.fingerprint.None? then t.statements
                                   else CountStatement(t.statements, call.fingerprint.value))
              && s'.failed == s.failed && s'.failedSeconds == s.failedSeconds && s'.errors == s.errors
              && s'.attempted == s.attempted
              && s'.succeeded == s.succeeded + (if call.source.Sqlalchemy? && t.sql.Some? then 1 else 0)
  {
  }

  lemma RecordCallsOf(t: Totals, log: seq<Admission>, call: Call, kind: Kind)
    requires GroupMatch(t, log, kind)
    ensures GroupMatch(Record(t, call), log + [Admission(call, FailedSql(t, call))], kind)
  {
    var a := Admission(call, FailedSql(t, call));
    CountAppend(log, a, Counted(kind));
    SecondsAppend(log, a, Counted(kind));
    RecordGroup(t, call, kind);
  }

  lemma RecordErrorsOf(t: Totals, log: seq<Admission>, call: Call, kind: Kind)
    requires ErrorsMatch(t, log, kind)
    ensures ErrorsMatch(Record(t, call), log + [Admission(call, FailedSql(t, call))], kind)
  {
    CountAppend(log, Admission(call, FailedSql(t, call)), Errored(kind));
    RecordErrors(t, call, kind);
    if call.error.Some? {
      AddErrorSum(ErrorsOf(t, kind), call.error.value);
      AddErrorBounded(ErrorsOf(t, kind), call.error.value);
    }
  }

  lemma RecordCalls(t: Totals, log: seq<Admission>, call: Call)
    requires CallsMatch(t, log)
    ensures CallsMatch(Record(t, call), log + [Admission(call, FailedSql(t, call))])
  {
    forall kind {
      RecordCallsOf(t, log, call, kind);
    }
    forall kind {
      RecordErrorsOf(t, log, call, kind);
    }
  }

  lemma RecordSql(t: Totals, log: seq<Admission>, call: Call)
    requires SqlMatch(t, log)
    ensures SqlMatch(Record(t, call), log + [Admission(call, FailedSql(t, call))])
  {
    CountAppend(log, Admission(call, FailedSql(t, call)), Failed());
    SecondsAppend(log, Admission(call, FailedSql(t, call)), Failed());
    RecordRest(t, call);
    if FailedSql(t, call) {
      AddErrorSum(t.sql.value.errors, call.error.value);
      AddErrorBounded(t.sql.value.errors, call.error.value);
    }
  }

  lemma TracksAppend(statements: map<string, nat>, log: seq<Admission>, a: Admission)
    requires Tracks(statements, log)
    ensures Tracks(if a.failedSql || a.call.fingerprint.None? then statements
                   else CountStatement(statements, a.call.fingerprint.value), log + [a])
  {
    forall f {
      CountAppend(log, a, Seen(f));
    }
  }

  lemma RecordStatements(t: Totals, log: seq<Admission>, call: Call)
    requires Tracks(t.statements, log)
    ensures Tracks(Record(t, call).statements, log + [Admission(call, FailedSql(t, call))])
  {
    RecordRest(t, call);
    TracksAppend(t.statements, log, Admission(call, FailedSql(t, call)));
  }

  /** Every admitted call keeps the totals exact. */
  lemma RecordKeeps(t: Totals, log: seq<Admission>, call: Call)
    requires Match(t, log)
    ensures Match(Record(t, call), log + [Admission(call, FailedSql(t, call))])
  {
    RecordCalls(t, log, call);
    RecordSql(t, log, call);
    RecordStatements(t, log, call);
  }

  /** Admissions fall into the two call groups and the failed executions. */
  lemma {:induction false} LogPartition(log: seq<Admission>)
    ensures Count(log, Counted(Db)) + Count(log, Counted(Http)) + Count(log, Failed()) == |log|
  {
    if log != [] {
      LogPartition(log[..|log| - 1]);
    }
  }

  /** The number of admitted calls, read off the totals. */
  function Recorded(t: Totals): nat {
    GroupOf(t, Db).count + GroupOf(t, Http).count + Executions(t.sql).failed
  }

  lemma RecordedIsAdmitted(t: Totals, log: seq<Admission>)
    requires Match(t, log)
    ensures Recorded(t) == |log|
  {
    LogPartition(log);
    assert GroupMatch(t, log, Db) && GroupMatch(t, log, Http);
  }

  // ---------------------------------------------------------------- the most repeated statement

  /** The statements a log mentions. */
  function Fingerprints(log: seq<Admission>): set<string> {
    set i | 0 <= i < |log| && !log[i].failedSql && log[i].call.fingerprint.Some? :: log[i].call.fingerprint.value
  }

  /** `f` with `n` runs is a maximum of `most_repeated_statement`. */
  ghost predicate MostRepeated(statements: map<string, nat>, f: string, n: nat) {
    f in statements && statements[f] == n && forall g :: g in statements ==> statements[g] <= n
  }

  /** It never over-reports, and no admitted statement was run more often while at most 128 distinct ones were seen. */
  lemma MostRepeatedIsMaximum(t: Totals, log: seq<Admission>, f: string, n: nat)
    requires Match(t, log) && MostRepeated(t.statements, f, n)
    ensures n == Count(log, Seen(f))
    ensures |Fingerprints(log)| <= MAX_REQUEST_STATEMENTS ==> forall g :: Count(log, Seen(g)) <= n
  {
    if |Fingerprints(log)| <= MAX_REQUEST_STATEMENTS {
      forall g
        ensures Count(log, Seen(g)) <= n
      {
        AllTracked(t, log, g);
      }
    }
  }

  /** Within the budget every statement seen is tracked. */
  lemma AllTracked(t: Totals, log: seq<Admission>, g: string)
    requires Match(t, log) && |Fingerprints(log)| <= MAX_REQUEST_STATEMENTS
    ensures Count(log, Seen(g)) > 0 ==> g in t.statements
  {
    if Count(log, Seen(g)) > 0 && g !in t.statements {
      forall f | f in t.statements.Keys + {g}
        ensures f in Fingerprints(log)
      {
        CountZero(log, Seen(f));
      }
      SubsetSize(t.statements.Keys + {g}, Fingerprints(log));
      assert false;
    }
  }
}
