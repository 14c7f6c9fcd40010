/** What call recording promises, over every interleaving of starts, completions, closes and forks. */
module CallTheorems {
  import opened Counting
  import opened Options
  import opened RequestCalls
  import opened CallOwnership
  import opened CallProtocol

  /**
   The closing summary is a linearization point: it counts exactly the calls whose recording returned
   true, however the completions raced with each other and with the close.
   */
  lemma ClosingSummaryExact(w: World, k: nat)
    requires Reachable(w) && k < |w.cells| && w.cells[k].closed
    ensures w.cells[k].snapshot.Some?
    ensures Recorded(w.cells[k].snapshot.value) == Count(w.answers, SaidTrue(k))
    ensures Match(w.cells[k].snapshot.value, w.cells[k].log)
  {
    ReachableInv(w);
    assert OwnerInv(w, k);
    RecordedIsAdmitted(w.cells[k].snapshot.value, w.cells[k].log);
  }

  /** The same while the state is open. */
  lemma OpenTotalsExact(w: World, k: nat)
    requires Reachable(w) && k < |w.cells| && !w.cells[k].closed
    ensures Recorded(w.cells[k].totals) == Count(w.answers, SaidTrue(k)) && Match(w.cells[k].totals, w.cells[k].log)
  {
    ReachableInv(w);
    assert OwnerInv(w, k);
    RecordedIsAdmitted(w.cells[k].totals, w.cells[k].log);
  }

  /** However many threads finish one handle, at most one of them is told it succeeded. */
  lemma FinishAtMostOnce(w: World, i: nat, j: nat)
    requires Reachable(w) && i < j < |w.finishes|
    requires w.finishes[i].handle == w.finishes[j].handle && w.finishes[i].pc == Done(true)
    ensures w.finishes[j].pc != Done(true)
  {
    ReachableInv(w);
    assert Took(w.finishes[i]);
  }

  /** While a state is open its in-flight counts are exactly its unfinished handles. */
  lemma InFlightExact(w: World, k: nat, kind: Kind)
    requires Reachable(w) && k < |w.cells| && !w.cells[k].closed
    ensures Get(w.cells[k].totals.pending, kind, 0) == Count(w.handles, Outstanding(k, kind))
    ensures var s := Executions(w.cells[k].totals.sql);
            s.attempted == s.succeeded + s.failed + Count(w.handles, OutstandingSql(k))
  {
    ReachableInv(w);
    assert OwnerInv(w, k);
  }

  /** The clamp in `_complete_call` never takes effect: a call about to be admitted is still counted as pending. */
  lemma ClampNeverActs(w: World, i: nat)
    requires Reachable(w) && i < |w.finishes| && w.finishes[i].pc.Claimed?
    ensures w.finishes[i].handle < |w.handles| && w.handles[w.finishes[i].handle].owner < |w.cells|
    ensures var h := w.handles[w.finishes[i].handle];
            !w.cells[h.owner].closed ==> Get(w.cells[h.owner].totals.pending, h.kind, 0) >= 1
  {
    ReachableInv(w);
    var n := w.finishes[i].handle;
    var h := w.handles[n];
    assert OwnerInv(w, h.owner);
    CountZero(w.handles, Outstanding(h.owner, h.kind));
    assert Outstanding(h.owner, h.kind)(w.handles[n]);
  }

  // ---------------------------------------------------------------- ownership

  /**
   Over every run, the started calls of a kind and source that a state admitted are as many as the handles of that
   kind and source that were started on it and admitted: none fell back from, or to, another state.
   */
  lemma NoFallback(w: World, k: nat, kind: Kind, source: Source)
    requires Reachable(w) && k < |w.cells|
    ensures Count(w.cells[k].log, StartedAs(kind, source)) == Count(w.handles, AdmittedAs(k, kind, source))
  {
    var steps :| Leads(START, steps, w);
    RunOwned(START, steps, w, kind, source);
    assert Owned(k, w.cells[k], w.handles, kind, source);
  }

  /** A handle's owner, kind, source and process are fixed when it starts. */
  lemma HandlesKeepOwner(w: World, step: Step, n: nat)
    requires Enabled(w, step) && n < |w.handles|
    ensures n < |Apply(w, step).handles|
    ensures var h, h' := w.handles[n], Apply(w, step).handles[n];
            h' == h.(claimed := h'.claimed, admitted := h'.admitted)
            && (h.claimed ==> h'.claimed) && (h.admitted ==> h'.admitted)
  {
  }

  /** Over every run, a handle from before a fork stays as it is in the child: never claimed, never admitted. */
  lemma ParentHandlesRefused(w: World, steps: seq<Step>, t: World, n: nat)
    requires Reachable(w) && Leads(w, steps, t) && n < |w.handles| && w.handles[n].pid != w.pid
    ensures n < |t.handles| && t.handles[n] == w.handles[n] && w.handles[n].pid < t.pid
  {
    ReachablePids(w);
    RunKeepsForeign(w, steps, t, n);
  }

  // ---------------------------------------------------------------- after close

  /** What a close freezes. */
  ghost predicate FrozenAt(w: World, t: World, k: nat)
    requires k < |w.cells|
  {
    k < |t.cells| && t.cells[k] == w.cells[k] && Count(t.answers, SaidTrue(k)) == Count(w.answers, SaidTrue(k))
  }

  lemma StepFrozen(w: World, step: Step, k: nat)
    requires Enabled(w, step) && k < |w.cells| && w.cells[k].closed
    ensures FrozenAt(w, Apply(w, step), k)
  {
    var w' := Apply(w, step);
    if k != Target(w, step) {
      StepTouchesOne(w, step, k);
    }
    if |w'.answers| > |w.answers| {
      var a := w'.answers[|w.answers|];
      assert w'.answers == w.answers + [a];
      AnswerAdded(k, w.answers, a);
    }
  }

  lemma {:induction false} RunFrozen(w: World, steps: seq<Step>, t: World, k: nat)
    requires Leads(w, steps, t) && k < |w.cells| && w.cells[k].closed
    ensures FrozenAt(w, t, k)
    decreases |steps|
  {
    if steps != [] {
      StepFrozen(w, steps[0], k);
      RunFrozen(Apply(w, steps[0]), steps[1..], t, k);
    }
  }

  /** Once a state is closed, no later step of any thread changes it or is told that it succeeded there. */
  lemma CloseIsFinal(w: World, steps: seq<Step>, t: World, k: nat)
    requires Reachable(w) && Leads(w, steps, t) && k < |w.cells| && w.cells[k].closed
    ensures FrozenAt(w, t, k) && t.cells[k].totals == EMPTY
  {
    ReachableInv(w);
    assert OwnerInv(w, k);
    RunFrozen(w, steps, t, k);
  }

  // ---------------------------------------------------------------- bounds

  /** An open state never holds more than 128 fingerprints and 33 error categories per group. */
  lemma GroupsBounded(w: World, k: nat, kind: Kind)
    requires Reachable(w) && k < |w.cells| && !w.cells[k].closed
    ensures var t := w.cells[k].totals;
            && |t.statements| <= MAX_REQUEST_STATEMENTS
            && |ErrorsOf(t, kind)| <= MAX_ERROR_CATEGORIES + 1
            && |Executions(t.sql).errors| <= MAX_ERROR_CATEGORIES + 1
  {
    ReachableInv(w);
    assert OwnerInv(w, k);
    assert ErrorsMatch(w.cells[k].totals, w.cells[k].log, kind);
    BoundedSize(ErrorsOf(w.cells[k].totals, kind));
    BoundedSize(Executions(w.cells[k].totals.sql).errors);
  }

  /** The statement was seen and is not tracked. */
  ghost predicate Untracked(cell: Cell, f: string) {
    f !in cell.totals.statements && Count(cell.log, Seen(f)) > 0
  }

  lemma RecordKeepsUntracked(cell: Cell, call: Call, f: string)
    requires Tracks(cell.totals.statements, cell.log) && Untracked(cell, f)
    ensures Untracked(RecordIn(cell, call), f)
  {
    RecordRest(cell.totals, call);
    CountAppend(cell.log, Admission(call, FailedSql(cell.totals, call)), Seen(f));
  }

  lemma StepKeepsUntracked(w: World, step: Step, k: nat, f: string)
    requires Enabled(w, step) && k < |w.cells| && Tracks(w.cells[k].totals.statements, w.cells[k].log)
    requires Untracked(w.cells[k], f) && !w.cells[k].closed && !Apply(w, step).cells[k].closed
    ensures Untracked(Apply(w, step).cells[k], f)
  {
    if k != Target(w, step) {
      StepTouchesOne(w, step, k);
    } else if step.Direct? {
      RecordKeepsUntracked(w.cells[k], step.call, f);
    } else if step.Complete? {
      var h := w.handles[w.finishes[step.finish].handle];
      var call := Call(h.kind, step.seconds, step.fingerprint, step.error, h.source, true);
      RecordKeepsUntracked(w.cells[k], call, f);
    }
  }

  lemma {:induction false} RunKeepsUntracked(w: World, steps: seq<Step>, t: World, k: nat, f: string)
    requires Inv(w) && Leads(w, steps, t) && k < |w.cells| && k < |t.cells|
    requires Untracked(w.cells[k], f) && !w.cells[k].closed && !t.cells[k].closed
    ensures Untracked(t.cells[k], f)
    decreases |steps|
  {
    if steps != [] {
      var m := Apply(w, steps[0]);
      if m.cells[k].closed {
        RunFrozen(m, steps[1..], t, k);
      }
      assert OwnerInv(w, k);
      StepKeepsUntracked(w, steps[0], k, f);
      StepKeeps(w, steps[0]);
      RunKeepsUntracked(m, steps[1..], t, k, f);
    }
  }

  /** Over any run in which its state stays open, a statement that was seen and is not tracked never comes to be. */
  lemma UntrackedStaysUntracked(w: World, steps: seq<Step>, t: World, k: nat, f: string)
    requires Reachable(w) && Leads(w, steps, t) && k < |w.cells| && k < |t.cells|
    requires Untracked(w.cells[k], f) && !w.cells[k].closed && !t.cells[k].closed
    ensures f !in t.cells[k].totals.statements
  {
    ReachableInv(w);
    RunKeepsUntracked(w, steps, t, k, f);
  }
}
