/** Whose calls a state admits: its own handles', and only those of its own process. */
module CallOwnership {
  import opened Counting
  import opened Options
  import opened RequestCalls
  import opened CallProtocol

  // ---------------------------------------------------------------- admissions and handles

  function StartedAs(kind: Kind, source: Source): Admission -> bool {
    (a: Admission) => a.call.started && a.call.kind == kind && a.call.source == source
  }

  function AdmittedAs(k: nat, kind: Kind, source: Source): Handle -> bool {
    (h: Handle) => h.bound && h.owner == k && h.kind == kind && h.source == source && h.admitted
  }

  ghost predicate Owned(k: nat, cell: Cell, handles: seq<Handle>, kind: Kind, source: Source) {
    Count(cell.log, StartedAs(kind, source)) == Count(handles, AdmittedAs(k, kind, source))
  }

  ghost predicate AllOwned(w: World, kind: Kind, source: Source) {
    forall k: nat :: k < |w.cells| ==> Owned(k, w.cells[k], w.handles, kind, source)
  }

  /** The state a step may touch. */
  function Target(w: World, step: Step): nat
    requires Enabled(w, step)
  {
    match step
    case StartCall(k, _, _) => k
    case Direct(k, _, _, _) => k
    case Close(k) => k
    case Complete(i, _, _, _, _, _) => w.handles[w.finishes[i].handle].owner
    case _ => |w.cells|
  }

  /** A completion can reach only the state its handle started on; no step changes any other. */
  lemma StepTouchesOne(w: World, step: Step, k: nat)
    requires Enabled(w, step) && k < |w.cells| && k != Target(w, step)
    ensures k < |Apply(w, step).cells| && Apply(w, step).cells[k] == w.cells[k]
  {
  }

  lemma CompleteOwned(
    w: World, i: nat, seconds: real, fingerprint: Option<string>, error: Option<string>, valid: bool, overflows: bool,
    kind: Kind, source: Source, k: nat)
    requires OnceInv(w.handles, w.finishes, |w.cells|)
    requires k < |w.cells| && Owned(k, w.cells[k], w.handles, kind, source)
    requires Enabled(w, Complete(i, seconds, fingerprint, error, valid, overflows))
    ensures var t := CompleteNext(w, i, seconds, fingerprint, error, valid, overflows);
            Owned(k, t.cells[k], t.handles, kind, source)
  {
    var n := w.finishes[i].handle;
    var h := w.handles[n];
    CompleteOnce(w.handles, w.finishes, |w.cells|, i);
    CountUpdate(w.handles, n, h.(admitted := true), AdmittedAs(k, kind, source));
    if k == h.owner {
      var call := Call(h.kind, seconds, fingerprint, error, h.source, true);
      var a := Admission(call, FailedSql(w.cells[k].totals, call));
      CountAppend(w.cells[k].log, a, StartedAs(kind, source));
    }
  }

  /** The handles after a step, for a state whose own list of admissions the step leaves alone. */
  lemma OtherOwned(w: World, step: Step, kind: Kind, source: Source, k: nat)
    requires OnceInv(w.handles, w.finishes, |w.cells|) && Enabled(w, step) && !step.Complete?
    ensures Count(Apply(w, step).handles, AdmittedAs(k, kind, source)) ==
            Count(w.handles, AdmittedAs(k, kind, source))
  {
    if step.StartCall? {
      CountAppend(w.handles, Apply(w, step).handles[|w.handles|], AdmittedAs(k, kind, source));
    } else if step.Claim? {
      var n := w.finishes[step.finish].handle;
      CountUpdate(w.handles, n, w.handles[n].(claimed := true), AdmittedAs(k, kind, source));
    }
  }

  lemma StepOwned(w: World, step: Step, kind: Kind, source: Source, k: nat)
    requires OnceInv(w.handles, w.finishes, |w.cells|) && Enabled(w, step) && k < |Apply(w, step).cells|
    requires k < |w.cells| ==> Owned(k, w.cells[k], w.handles, kind, source)
    ensures Owned(k, Apply(w, step).cells[k], Apply(w, step).handles, kind, source)
  {
    match step
    case Complete(i, seconds, fingerprint, error, valid, overflows) =>
      CompleteOwned(w, i, seconds, fingerprint, error, valid, overflows, kind, source, k);
    case Direct(j, call, _, _) =>
      OtherOwned(w, step, kind, source, k);
      CountAppend(w.cells[j].log, Admission(call, FailedSql(w.cells[j].totals, call)), StartedAs(kind, source));
    case Open =>
      OtherOwned(w, step, kind, source, k);
      CountZero(w.handles, AdmittedAs(|w.cells|, kind, source));
    case _ =>
      OtherOwned(w, step, kind, source, k);
  }

  lemma {:induction false} RunOwned(w: World, steps: seq<Step>, t: World, kind: Kind, source: Source)
    requires Inv(w) && AllOwned(w, kind, source) && Leads(w, steps, t)
    ensures AllOwned(t, kind, source)
    decreases |steps|
  {
    if steps != [] {
      var m := Apply(w, steps[0]);
      forall k: nat | k < |m.cells|
        ensures Owned(k, m.cells[k], m.handles, kind, source)
      {
        assert k < |w.cells| ==> Owned(k, w.cells[k], w.handles, kind, source);
        StepOwned(w, steps[0], kind, source, k);
      }
      StepKeeps(w, steps[0]);
      RunOwned(m, steps[1..], t, kind, source);
    }
  }

  // ---------------------------------------------------------------- processes

  /** No token is from a later process, and a thread inside `finish` got past the check in this one. */
  ghost predicate PidInv(w: World) {
    && (forall k :: 0 <= k < |w.cells| && w.cells[k].tokenPid.Some? ==> w.cells[k].tokenPid.value <= w.pid)
    && (forall n :: 0 <= n < |w.handles| ==> w.handles[n].pid <= w.pid)
    && (forall i :: 0 <= i < |w.finishes| && (w.finishes[i].pc.Entered? || w.finishes[i].pc.Claimed?) ==>
          w.finishes[i].handle < |w.handles| && w.handles[w.finishes[i].handle].pid == w.pid)
  }

  lemma StartCallPids(w: World, k: nat, kind: Kind, source: Source)
    requires PidInv(w) && k < |w.cells|
    ensures PidInv(StartCallNext(w, k, kind, source))
  {
    assert TokenPid(w, w.cells[k]) <= w.pid;
  }

  lemma CompletePids(w: World, step: Step)
    requires PidInv(w) && Enabled(w, step) && step.Complete?
    ensures PidInv(Apply(w, step))
  {
  }

  lemma StepPids(w: World, step: Step)
    requires PidInv(w) && Enabled(w, step)
    ensures PidInv(Apply(w, step)) && w.pid <= Apply(w, step).pid
  {
    match step
    case StartCall(k, kind, source) => StartCallPids(w, k, kind, source);
    case Complete(_, _, _, _, _, _) => CompletePids(w, step);
    case _ =>
  }

  lemma {:induction false} RunPids(w: World, steps: seq<Step>, t: World)
    requires PidInv(w) && Leads(w, steps, t)
    ensures PidInv(t)
    decreases |steps|
  {
    if steps != [] {
      StepPids(w, steps[0]);
      RunPids(Apply(w, steps[0]), steps[1..], t);
    }
  }

  lemma ReachablePids(w: World)
    requires Reachable(w)
    ensures PidInv(w)
  {
    var steps :| Leads(START, steps, w);
    RunPids(START, steps, w);
  }

  /** A handle from before a fork cannot complete in the child: entering `finish` answers false. */
  lemma EnterRefused(w: World, n: nat)
    requires n < |w.handles| && w.handles[n].pid != w.pid
    ensures EnterNext(w, n).answers == w.answers + [Answer(w.handles[n].owner, false)]
    ensures EnterNext(w, n).cells == w.cells && EnterNext(w, n).finishes == w.finishes + [Finish(n, Done(false))]
  {
  }

  /** A handle of another process is left alone by every step. */
  lemma StepKeepsForeign(w: World, step: Step, n: nat)
    requires PidInv(w) && Enabled(w, step) && n < |w.handles| && w.handles[n].pid != w.pid
    ensures var t := Apply(w, step); n < |t.handles| && t.handles[n] == w.handles[n] && t.handles[n].pid < t.pid
  {
    if step == Enter(n) {
      EnterRefused(w, n);
    }
  }

  lemma {:induction false} RunKeepsForeign(w: World, steps: seq<Step>, t: World, n: nat)
    requires PidInv(w) && Leads(w, steps, t) && n < |w.handles| && w.handles[n].pid != w.pid
    ensures n < |t.handles| && t.handles[n] == w.handles[n] && t.handles[n].pid < t.pid
    decreases |steps|
  {
    if steps != [] {
      StepPids(w, steps[0]);
      StepKeepsForeign(w, steps[0], n);
      RunKeepsForeign(Apply(w, steps[0]), steps[1..], t, n);
    }
  }
}
