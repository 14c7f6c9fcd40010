/** Which clients a request's calls came from: the coverage its summary reports. */
module CallSources {
  import opened Options
  import opened RequestCalls
  import opened CallProtocol

  /** A call of this kind and source was started on owner `k`. */
  ghost predicate Started(handles: seq<Handle>, k: nat, kind: Kind, source: Source) {
    exists n :: 0 <= n < |handles| && Starts(handles[n], k, kind, source)
  }

  predicate Starts(h: Handle, k: nat, kind: Kind, source: Source) {
    h.bound && h.owner == k && h.kind == kind && h.source == source
  }

  /** A call of this kind and source was admitted. */
  ghost predicate Logged(log: seq<Admission>, kind: Kind, source: Source) {
    exists i :: 0 <= i < |log| && Came(log[i], kind, source)
  }

  predicate Came(a: Admission, kind: Kind, source: Source) {
    a.call.kind == kind && a.call.source == source
  }

  ghost predicate SourceExact(k: nat, cell: Cell, handles: seq<Handle>, kind: Kind, source: Source) {
    source in Get(cell.totals.sources, kind, {}) <==>
    Started(handles, k, kind, source) || Logged(cell.log, kind, source)
  }

  ghost predicate CellExact(k: nat, cell: Cell, handles: seq<Handle>) {
    cell.closed || forall kind, source :: SourceExact(k, cell, handles, kind, source)
  }

  ghost predicate Exact(w: World) {
    forall k: nat :: k < |w.cells| ==> CellExact(k, w.cells[k], w.handles)
  }

  lemma StartedAppend(handles: seq<Handle>, h: Handle, k: nat, kind: Kind, source: Source)
    ensures Started(handles + [h], k, kind, source) <==> Started(handles, k, kind, source) || Starts(h, k, kind, source)
  {
    if Started(handles, k, kind, source) {
      var n :| 0 <= n < |handles| && Starts(handles[n], k, kind, source);
      assert (handles + [h])[n] == handles[n];
    }
    assert (handles + [h])[|handles|] == h;
  }

  /** Claiming or admitting a handle does not change what was started. */
  lemma StartedUpdate(handles: seq<Handle>, n: nat, h': Handle, k: nat, kind: Kind, source: Source)
    requires n < |handles| && h' == handles[n].(claimed := h'.claimed, admitted := h'.admitted)
    ensures Started(handles[n := h'], k, kind, source) <==> Started(handles, k, kind, source)
  {
    var handles' := handles[n := h'];
    assert forall m :: 0 <= m < |handles| ==>
             Starts(handles'[m], k, kind, source) == Starts(handles[m], k, kind, source);
  }

  lemma LoggedAppend(log: seq<Admission>, a: Admission, kind: Kind, source: Source)
    ensures Logged(log + [a], kind, source) <==> Logged(log, kind, source) || Came(a, kind, source)
  {
    if Logged(log, kind, source) {
      var i :| 0 <= i < |log| && Came(log[i], kind, source);
      assert (log + [a])[i] == log[i];
    }
    assert (log + [a])[|log|] == a;
  }

  lemma StartCallExact(w: World, j: nat, kind: Kind, source: Source, k: nat)
    requires Exact(w) && j < |w.cells| && k < |w.cells|
    ensures var w' := StartCallNext(w, j, kind, source); CellExact(k, w'.cells[k], w'.handles)
  {
    var w' := StartCallNext(w, j, kind, source);
    assert CellExact(k, w.cells[k], w.handles);
    var h := w'.handles[|w.handles|];
    if !w'.cells[k].closed {
      forall other, s
        ensures SourceExact(k, w'.cells[k], w'.handles, other, s)
      {
        assert SourceExact(k, w.cells[k], w.handles, other, s);
        StartedAppend(w.handles, h, k, other, s);
      }
    }
  }

  /** Admitting a call notes its source, and no other. */
  lemma RecordExact(k: nat, cell: Cell, handles: seq<Handle>, call: Call, kind: Kind, source: Source)
    requires SourceExact(k, cell, handles, kind, source)
    ensures SourceExact(k, RecordIn(cell, call), handles, kind, source)
  {
    LoggedAppend(cell.log, Admission(call, FailedSql(cell.totals, call)), kind, source);
  }

  lemma RecordCellExact(k: nat, cell: Cell, handles: seq<Handle>, call: Call)
    requires CellExact(k, cell, handles)
    ensures CellExact(k, RecordIn(cell, call), handles)
  {
    if !cell.closed {
      forall kind, source
        ensures SourceExact(k, RecordIn(cell, call), handles, kind, source)
      {
        assert SourceExact(k, cell, handles, kind, source);
        RecordExact(k, cell, handles, call, kind, source);
      }
    }
  }

  lemma FlaggedExact(k: nat, cell: Cell, handles: seq<Handle>, n: nat, h': Handle)
    requires n < |handles| && h' == handles[n].(claimed := h'.claimed, admitted := h'.admitted)
    requires CellExact(k, cell, handles)
    ensures CellExact(k, cell, handles[n := h'])
  {
    var handles' := handles[n := h'];
    if !cell.closed {
      forall kind, source
        ensures SourceExact(k, cell, handles', kind, source)
      {
        assert SourceExact(k, cell, handles, kind, source);
        StartedUpdate(handles, n, h', k, kind, source);
      }
    }
  }

  lemma CompleteExact(
    w: World, i: nat, seconds: real, fingerprint: Option<string>, error: Option<string>, valid: bool, overflows: bool,
    k: nat)
    requires Exact(w) && Enabled(w, Complete(i, seconds, fingerprint, error, valid, overflows)) && k < |w.cells|
    ensures var w' := CompleteNext(w, i, seconds, fingerprint, error, valid, overflows);
            CellExact(k, w'.cells[k], w'.handles)
  {
    var n := w.finishes[i].handle;
    var h := w.handles[n];
    assert CellExact(k, w.cells[k], w.handles);
    FlaggedExact(k, w.cells[k], w.handles, n, h.(admitted := true));
    if k == h.owner {
      var call := Call(h.kind, seconds, fingerprint, error, h.source, true);
      RecordCellExact(k, w.cells[k], w.handles[n := h.(admitted := true)], call);
    }
  }

  lemma CellStep(w: World, step: Step, k: nat)
    requires Inv(w) && Exact(w) && Enabled(w, step) && k < |Apply(w, step).cells|
    ensures CellExact(k, Apply(w, step).cells[k], Apply(w, step).handles)
  {
    if k < |w.cells| {
      assert CellExact(k, w.cells[k], w.handles);
    }
    match step
    case Open =>
    case StartCall(j, kind, source) => StartCallExact(w, j, kind, source, k);
    case Enter(_) =>
    case Claim(i) =>
      var n := w.finishes[i].handle;
      FlaggedExact(k, w.cells[k], w.handles, n, w.handles[n].(claimed := true));
    case Complete(i, seconds, fingerprint, error, valid, overflows) =>
      CompleteExact(w, i, seconds, fingerprint, error, valid, overflows, k);
    case Direct(j, call, _, _) => RecordCellExact(k, w.cells[k], w.handles, call);
    case Close(_) =>
    case Fork =>
  }

  lemma {:induction false} RunExact(w: World, steps: seq<Step>, t: World)
    requires Inv(w) && Exact(w) && Leads(w, steps, t)
    ensures Exact(t)
    decreases |steps|
  {
    if steps != [] {
      var m := Apply(w, steps[0]);
      forall k: nat | k < |m.cells| {
        CellStep(w, steps[0], k);
      }
      StepKeeps(w, steps[0]);
      RunExact(m, steps[1..], t);
    }
  }

  /** An open state reports a source for a kind exactly when such a call was started on it or admitted to it. */
  lemma SourcesExact(w: World, k: nat, kind: Kind, source: Source)
    requires Reachable(w) && k < |w.cells| && !w.cells[k].closed
    ensures source in Get(w.cells[k].totals.sources, kind, {}) <==>
            Started(w.handles, k, kind, source) || Logged(w.cells[k].log, kind, source)
  {
    var steps :| Leads(START, steps, w);
    RunExact(START, steps, w);
    assert CellExact(k, w.cells[k], w.handles);
    assert SourceExact(k, w.cells[k], w.handles, kind, source);
  }
}
