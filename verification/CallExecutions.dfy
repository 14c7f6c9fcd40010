/** The SQL execution counts of an open request, each tied to the handles and admissions it stands for. */
module CallExecutions {
  import opened Counting
  import opened Options
  import opened RequestCalls
  import opened CallProtocol
  import opened CallOwnership

  /** A SQLAlchemy execution that was started on owner `k`. */
  function SqlStarted(k: nat): Handle -> bool {
    (h: Handle) => h.bound && h.owner == k && h.source.Sqlalchemy?
  }

  /** An admitted SQLAlchemy execution, with an error or without. */
  function SqlEnded(failed: bool): Admission -> bool {
    (a: Admission) => a.call.source.Sqlalchemy? && a.call.error.Some? == failed
  }

  ghost predicate ExecutionsMatch(s: Sql, k: nat, log: seq<Admission>, handles: seq<Handle>) {
    && s.attempted == Count(handles, SqlStarted(k))
    && s.succeeded == Count(log, SqlEnded(false))
    && s.failed == Count(log, SqlEnded(true))
  }

  ghost predicate CellMatch(w: World, k: nat)
    requires k < |w.cells|
  {
    !w.cells[k].closed ==> ExecutionsMatch(Executions(w.cells[k].totals.sql), k, w.cells[k].log, w.handles)
  }

  ghost predicate AllMatch(w: World) {
    forall k: nat :: k < |w.cells| ==> CellMatch(w, k)
  }

  /** A call whose execution was started finds the execution counts in place. */
  ghost predicate SqlKnown(t: Totals, call: Call) {
    call.source.Sqlalchemy? ==> t.sql.Some?
  }

  lemma RecordMatches(k: nat, cell: Cell, handles: seq<Handle>, call: Call)
    requires ExecutionsMatch(Executions(cell.totals.sql), k, cell.log, handles) && SqlKnown(cell.totals, call)
    ensures var cell' := RecordIn(cell, call);
            ExecutionsMatch(Executions(cell'.totals.sql), k, cell'.log, handles)
  {
    var a := Admission(call, FailedSql(cell.totals, call));
    CountAppend(cell.log, a, SqlEnded(false));
    CountAppend(cell.log, a, SqlEnded(true));
    RecordRest(cell.totals, call);
  }

  /** Steps that start no handle leave the number started as it is. */
  lemma SameStarted(w: World, step: Step, k: nat)
    requires OnceInv(w.handles, w.finishes, |w.cells|) && Enabled(w, step) && !step.StartCall?
    ensures Count(Apply(w, step).handles, SqlStarted(k)) == Count(w.handles, SqlStarted(k))
  {
    if step.Claim? {
      var n := w.finishes[step.finish].handle;
      CountUpdate(w.handles, n, w.handles[n].(claimed := true), SqlStarted(k));
    } else if step.Complete? {
      var n := w.finishes[step.finish].handle;
      CountUpdate(w.handles, n, w.handles[n].(admitted := true), SqlStarted(k));
    }
  }

  lemma StartCallMatches(w: World, j: nat, kind: Kind, source: Source, k: nat)
    requires j < |w.cells| && k < |w.cells| && CellMatch(w, k)
    ensures CellMatch(StartCallNext(w, j, kind, source), k)
  {
    CountAppend(w.handles, StartCallNext(w, j, kind, source).handles[|w.handles|], SqlStarted(k));
  }

  /** The owner of a claimed finish knows of executions if the handle is one. */
  lemma ClaimedKnown(w: World, i: nat)
    requires Inv(w) && i < |w.finishes| && w.finishes[i].pc.Claimed?
    ensures w.finishes[i].handle < |w.handles| && w.handles[w.finishes[i].handle].owner < |w.cells|
    ensures var h := w.handles[w.finishes[i].handle];
            h.source.Sqlalchemy? && !w.cells[h.owner].closed ==> w.cells[h.owner].totals.sql.Some?
  {
    var h := w.handles[w.finishes[i].handle];
    assert OwnerInv(w, h.owner);
  }

  lemma CompleteMatches(w: World, step: Step, k: nat)
    requires OnceInv(w.handles, w.finishes, |w.cells|) && Enabled(w, step) && step.Complete?
    requires k < |w.cells| && CellMatch(w, k)
    requires var h := w.handles[w.finishes[step.finish].handle];
             h.source.Sqlalchemy? && !w.cells[h.owner].closed ==> w.cells[h.owner].totals.sql.Some?
    ensures CellMatch(Apply(w, step), k)
  {
    SameStarted(w, step, k);
    var h := w.handles[w.finishes[step.finish].handle];
    if k != h.owner {
      StepTouchesOne(w, step, k);
    } else if Admits(w.cells[k], step.valid, step.overflows) {
      var call := Call(h.kind, step.seconds, step.fingerprint, step.error, h.source, true);
      RecordMatches(k, w.cells[k], w.handles, call);
    }
  }

  lemma StepMatches(w: World, step: Step, k: nat)
    requires OnceInv(w.handles, w.finishes, |w.cells|) && Enabled(w, step) && !step.Complete?
    requires k < |Apply(w, step).cells| && (k < |w.cells| ==> CellMatch(w, k))
    ensures CellMatch(Apply(w, step), k)
  {
    match step
    case Open =>
      SameStarted(w, step, k);
      CountZero(w.handles, SqlStarted(|w.cells|));
    case StartCall(j, kind, source) => StartCallMatches(w, j, kind, source, k);
    case Direct(j, call, valid, overflows) =>
      SameStarted(w, step, k);
      if k == j && Admits(w.cells[k], valid, overflows) {
        RecordMatches(k, w.cells[k], w.handles, call);
      }
    case _ => SameStarted(w, step, k);
  }

  lemma {:induction false} RunMatches(w: World, steps: seq<Step>, t: World)
    requires Inv(w) && AllMatch(w) && Leads(w, steps, t)
    ensures AllMatch(t)
    decreases |steps|
  {
    if steps != [] {
      var step := steps[0];
      var m := Apply(w, step);
      forall k: nat | k < |m.cells|
        ensures CellMatch(m, k)
      {
        assert k < |w.cells| ==> CellMatch(w, k);
        if step.Complete? {
          ClaimedKnown(w, step.finish);
          CompleteMatches(w, step, k);
        } else {
          StepMatches(w, step, k);
        }
      }
      StepKeeps(w, step);
      RunMatches(m, steps[1..], t);
    }
  }

  /**
   While a state is open, `attempted` is the number of SQLAlchemy executions started on it, `succeeded` the number
   of those admitted without an error and `failed` of those admitted with one.
   */
  lemma ExecutionsExact(w: World, k: nat)
    requires Reachable(w) && k < |w.cells| && !w.cells[k].closed
    ensures ExecutionsMatch(Executions(w.cells[k].totals.sql), k, w.cells[k].log, w.handles)
  {
    var steps :| Leads(START, steps, w);
    RunMatches(START, steps, w);
    assert CellMatch(w, k);
  }
}
