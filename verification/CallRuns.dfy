/** Calls told by the steps of a run alone: whose handle it is, in which process it may end, and what was admitted. */
module CallRuns {
  import opened Counting
  import opened Options
  import opened RequestCalls
  import opened CallProtocol

  /** The process after these steps: a fork continues in the child. */
  function Pid(steps: seq<Step>): nat {
    if steps == [] then 0 else Pid(steps[..|steps| - 1]) + Bit(steps[|steps| - 1].Fork?)
  }

  function Opens(steps: seq<Step>): nat {
    if steps == [] then 0 else Opens(steps[..|steps| - 1]) + Bit(steps[|steps| - 1].Open?)
  }

  /** The process of a state's token: that of the first call started while the state was open. */
  function TokenOf(steps: seq<Step>, k: nat): Option<nat> {
    if steps == [] then None
    else
      var before, last := steps[..|steps| - 1], steps[|steps| - 1];
      var pid := TokenOf(before, k);
      if pid.None? && last.StartCall? && last.owner == k && Close(k) !in before then Some(Pid(before)) else pid
  }

  /** A started call: its state, kind and source, and whether that state was open. */
  datatype Start = Start(owner: nat, kind: Kind, source: Source, bound: bool)

  /** The calls started, in order: a handle is named by its index. */
  function Starts(steps: seq<Step>): seq<Start> {
    if steps == [] then []
    else
      var before, last := steps[..|steps| - 1], steps[|steps| - 1];
      Starts(before)
      + (if last.StartCall? then [Start(last.owner, last.kind, last.source, Close(last.owner) !in before)] else [])
  }

  /** The handles that `finish` was called on, in order: such a call is named by its index. */
  function Enters(steps: seq<Step>): seq<nat> {
    if steps == [] then []
    else
      Enters(steps[..|steps| - 1])
      + (if steps[|steps| - 1].Enter? then [steps[|steps| - 1].handle] else [])
  }

  /** The call that the last step has admitted to state `k`: well formed, finite, and to a state not closed before. */
  function AdmittedBy(before: seq<Step>, last: Step, k: nat): seq<Call> {
    match last
    case Direct(j, call, valid, overflows) =>
      if j == k && valid && !overflows && Close(k) !in before then [call] else []
    case Complete(i, seconds, fingerprint, error, valid, overflows) =>
      if i < |Enters(before)| && Enters(before)[i] < |Starts(before)| then
        var s := Starts(before)[Enters(before)[i]];
        if s.owner == k && valid && !overflows && Close(k) !in before
        then [Call(s.kind, seconds, fingerprint, error, s.source, true)] else []
      else []
    case _ => []
  }

  function AdmittedCalls(steps: seq<Step>, k: nat): seq<Call> {
    if steps == [] then []
    else AdmittedCalls(steps[..|steps| - 1], k) + AdmittedBy(steps[..|steps| - 1], steps[|steps| - 1], k)
  }

  // ---------------------------------------------------------------- the state is what the steps say

  function CallsOf(log: seq<Admission>): seq<Call> {
    if log == [] then [] else CallsOf(log[..|log| - 1]) + [log[|log| - 1].call]
  }

  ghost predicate HandleTie(steps: seq<Step>, h: Handle, s: Start) {
    && h.owner == s.owner && h.kind == s.kind && h.source == s.source && h.bound == s.bound
    && (h.bound ==> TokenOf(steps, h.owner) == Some(h.pid))
  }

  ghost predicate HandlesTie(steps: seq<Step>, w: World) {
    && |w.handles| == |Starts(steps)|
    && forall n :: 0 <= n < |w.handles| ==> HandleTie(steps, w.handles[n], Starts(steps)[n])
  }

  ghost predicate FinishesTie(steps: seq<Step>, w: World) {
    && |w.finishes| == |Enters(steps)|
    && forall i :: 0 <= i < |w.finishes| ==> w.finishes[i].handle == Enters(steps)[i]
  }

  ghost predicate CellTie(steps: seq<Step>, cell: Cell, k: nat) {
    && (cell.closed <==> Close(k) in steps)
    && (!cell.closed ==> cell.tokenPid == TokenOf(steps, k))
    && CallsOf(cell.log) == AdmittedCalls(steps, k)
  }

  /** Nothing was done yet with a state that is not open yet. */
  ghost predicate Untouched(steps: seq<Step>, k: nat) {
    Close(k) !in steps && TokenOf(steps, k).None? && AdmittedCalls(steps, k) == []
  }

  ghost predicate CellsTie(steps: seq<Step>, w: World) {
    && w.pid == Pid(steps)
    && |w.cells| == Opens(steps)
    && (forall k :: 0 <= k < |w.cells| ==> CellTie(steps, w.cells[k], k))
    && (forall k: nat :: k >= |w.cells| ==> Untouched(steps, k))
  }

  ghost predicate Tied(steps: seq<Step>, w: World) {
    HandlesTie(steps, w) && FinishesTie(steps, w) && CellsTie(steps, w)
  }

  lemma {:induction false} LastStep(w: World, steps: seq<Step>, t: World) returns (m: World)
    requires Leads(w, steps, t) && steps != []
    ensures Leads(w, steps[..|steps| - 1], m) && Enabled(m, steps[|steps| - 1])
    ensures t == Apply(m, steps[|steps| - 1])
    decreases |steps|
  {
    if |steps| == 1 {
      m := w;
    } else {
      var n := |steps| - 1;
      m := LastStep(Apply(w, steps[0]), steps[1..], t);
      assert steps[..n][1..] == steps[1..][..n - 1];
    }
  }

  lemma CallsAppend(log: seq<Admission>, a: Admission)
    ensures CallsOf(log + [a]) == CallsOf(log) + [a.call]
  {
    assert (log + [a])[..|log|] == log;
  }

  /** What the functions above say of one more step. */
  lemma {:induction false} MoreSteps(steps: seq<Step>, step: Step, k: nat)
    ensures Pid(steps + [step]) == Pid(steps) + Bit(step.Fork?)
    ensures Opens(steps + [step]) == Opens(steps) + Bit(step.Open?)
    ensures Starts(steps + [step]) ==
            Starts(steps)
            + (if step.StartCall? then [Start(step.owner, step.kind, step.source, Close(step.owner) !in steps)] else [])
    ensures Enters(steps + [step]) == Enters(steps) + (if step.Enter? then [step.handle] else [])
    ensures AdmittedCalls(steps + [step], k) == AdmittedCalls(steps, k) + AdmittedBy(steps, step, k)
    ensures TokenOf(steps + [step], k) ==
            if TokenOf(steps, k).None? && step.StartCall? && step.owner == k && Close(k) !in steps
            then Some(Pid(steps)) else TokenOf(steps, k)
  {
    assert (steps + [step])[..|steps|] == steps;
  }

  lemma HandlesStep(steps: seq<Step>, w: World, step: Step)
    requires Tied(steps, w) && Enabled(w, step)
    ensures HandlesTie(steps + [step], Apply(w, step))
  {
    var t := Apply(w, step);
    MoreSteps(steps, step, 0);
    forall n | 0 <= n < |t.handles|
      ensures HandleTie(steps + [step], t.handles[n], Starts(steps + [step])[n])
    {
      MoreSteps(steps, step, t.handles[n].owner);
      if n < |w.handles| {
        assert HandleTie(steps, w.handles[n], Starts(steps)[n]);
      } else {
        assert CellTie(steps, w.cells[step.owner], step.owner);
      }
    }
  }

  lemma FinishesStep(steps: seq<Step>, w: World, step: Step)
    requires FinishesTie(steps, w) && Enabled(w, step)
    ensures FinishesTie(steps + [step], Apply(w, step))
  {
    MoreSteps(steps, step, 0);
  }

  lemma DirectLog(steps: seq<Step>, w: World, step: Step, k: nat)
    requires k < |w.cells| && CellTie(steps, w.cells[k], k) && Enabled(w, step) && step.Direct?
    ensures CallsOf(Apply(w, step).cells[k].log) == CallsOf(w.cells[k].log) + AdmittedBy(steps, step, k)
  {
    var cell := w.cells[k];
    CallsAppend(cell.log, Admission(step.call, FailedSql(cell.totals, step.call)));
  }

  lemma CompleteLog(steps: seq<Step>, w: World, step: Step, k: nat)
    requires k < |w.cells| && CellTie(steps, w.cells[k], k) && Enabled(w, step) && step.Complete?
    requires step.finish < |Enters(steps)| && Enters(steps)[step.finish] == w.finishes[step.finish].handle
    requires w.finishes[step.finish].handle < |Starts(steps)|
    requires var h := w.handles[w.finishes[step.finish].handle];
             var s := Starts(steps)[w.finishes[step.finish].handle];
             h.owner == s.owner && h.kind == s.kind && h.source == s.source
    ensures CallsOf(Apply(w, step).cells[k].log) == CallsOf(w.cells[k].log) + AdmittedBy(steps, step, k)
  {
    var cell, h := w.cells[k], w.handles[w.finishes[step.finish].handle];
    var call := Call(h.kind, step.seconds, step.fingerprint, step.error, h.source, true);
    CallsAppend(cell.log, Admission(call, FailedSql(cell.totals, call)));
  }

  lemma QuietLog(steps: seq<Step>, w: World, step: Step, k: nat)
    requires k < |w.cells| && Enabled(w, step) && !step.Direct? && !step.Complete?
    ensures Apply(w, step).cells[k].log == w.cells[k].log && AdmittedBy(steps, step, k) == []
  {
  }

  /** The calls a step admits to a state join its log. */
  lemma LogStep(steps: seq<Step>, w: World, step: Step, k: nat)
    requires Tied(steps, w) && Enabled(w, step) && k < |w.cells|
    ensures CallsOf(Apply(w, step).cells[k].log) == CallsOf(w.cells[k].log) + AdmittedBy(steps, step, k)
  {
    assert CellTie(steps, w.cells[k], k);
    if step.Direct? {
      DirectLog(steps, w, step, k);
    } else if step.Complete? {
      var n := w.finishes[step.finish].handle;
      assert HandleTie(steps, w.handles[n], Starts(steps)[n]);
      CompleteLog(steps, w, step, k);
    } else {
      QuietLog(steps, w, step, k);
    }
  }

  /** A state is closed by its own close, for good. */
  lemma GateStep(w: World, step: Step, k: nat)
    requires k < |w.cells| && Enabled(w, step)
    ensures Apply(w, step).cells[k].closed <==> w.cells[k].closed || step == Close(k)
  {
  }

  /** An open state keeps its token, and gets one with the first call started. */
  lemma TokenStep(w: World, step: Step, k: nat)
    requires k < |w.cells| && Enabled(w, step) && !w.cells[k].closed && step != Close(k)
    ensures Apply(w, step).cells[k].tokenPid ==
            if w.cells[k].tokenPid.None? && step.StartCall? && step.owner == k then Some(w.pid)
            else w.cells[k].tokenPid
  {
  }

  lemma CellStep(steps: seq<Step>, w: World, step: Step, k: nat)
    requires Tied(steps, w) && Enabled(w, step) && k < |w.cells|
    ensures CellTie(steps + [step], Apply(w, step).cells[k], k)
  {
    assert CellTie(steps, w.cells[k], k);
    LogStep(steps, w, step, k);
    GateStep(w, step, k);
    if !Apply(w, step).cells[k].closed {
      TokenStep(w, step, k);
    }
    MoreSteps(steps, step, k);
  }

  lemma UntouchedStep(steps: seq<Step>, w: World, step: Step, k: nat)
    requires Tied(steps, w) && Enabled(w, step) && k >= |w.cells|
    ensures Untouched(steps + [step], k)
  {
    assert Untouched(steps, k);
    MoreSteps(steps, step, k);
    if step.Complete? {
      var n := w.finishes[step.finish].handle;
      assert HandleTie(steps, w.handles[n], Starts(steps)[n]);
    }
  }

  lemma CellsStep(steps: seq<Step>, w: World, step: Step)
    requires Tied(steps, w) && Enabled(w, step)
    ensures CellsTie(steps + [step], Apply(w, step))
  {
    var t := Apply(w, step);
    MoreSteps(steps, step, 0);
    forall k | 0 <= k < |t.cells|
      ensures CellTie(steps + [step], t.cells[k], k)
    {
      if k < |w.cells| {
        CellStep(steps, w, step, k);
      } else {
        UntouchedStep(steps, w, step, k);
      }
    }
    forall k: nat | k >= |t.cells|
      ensures Untouched(steps + [step], k)
    {
      UntouchedStep(steps, w, step, k);
    }
  }

  /**
   In every run, a handle is of the state, kind and source that its call was started with, its token of the process in
   which that state was first asked for one while open, and the log of a state has exactly the calls that its steps
   admitted: those well formed, finite and before its close.
   */
  lemma {:induction false} StateFollowsSteps(steps: seq<Step>, w: World)
    requires Leads(START, steps, w)
    ensures Tied(steps, w)
    decreases |steps|
  {
    if steps != [] {
      var n := |steps| - 1;
      var m := LastStep(START, steps, w);
      StateFollowsSteps(steps[..n], m);
      assert steps == steps[..n] + [steps[n]];
      HandlesStep(steps[..n], m, steps[n]);
      FinishesStep(steps[..n], m, steps[n]);
      CellsStep(steps[..n], m, steps[n]);
    }
  }

  // ---------------------------------------------------------------- one finish, alone

  lemma LeadsCons(w: World, step: Step, rest: seq<Step>, t: World)
    requires Enabled(w, step) && Leads(Apply(w, step), rest, t)
    ensures Leads(w, [step] + rest, t)
  {
    assert ([step] + rest)[1..] == rest;
  }

  /** The handle can still be finished here: its state was open at the start, and is, in the process of its token. */
  predicate Finishable(w: World, n: nat) {
    && n < |w.handles| && w.handles[n].bound && !w.handles[n].claimed && w.handles[n].pid == w.pid
    && w.handles[n].owner < |w.cells| && !w.cells[w.handles[n].owner].closed
  }

  /**
   A `finish` with no other thread in between is told True if and only if its handle can still be finished and the call
   is well formed and finite, and then its state has admitted exactly this call.
   */
  lemma FinishAlone(
    w: World, n: nat, seconds: real, fingerprint: Option<string>, error: Option<string>, valid: bool, overflows: bool)
    returns (steps: seq<Step>, t: World)
    requires Reachable(w) && n < |w.handles|
    ensures Leads(w, steps, t) && |t.finishes| == |w.finishes| + 1 && w.handles[n].owner < |w.cells| == |t.cells|
    ensures t.finishes[|w.finishes|] == Finish(n, Done(Finishable(w, n) && valid && !overflows))
    ensures var h := w.handles[n];
            CallsOf(t.cells[h.owner].log) ==
            CallsOf(w.cells[h.owner].log)
            + (if Finishable(w, n) && valid && !overflows
               then [Call(h.kind, seconds, fingerprint, error, h.source, true)] else [])
  {
    ReachableInv(w);
    var i := |w.finishes|;
    var entered := Apply(w, Enter(n));
    if entered.finishes[i].pc.Done? {
      t := entered;
      steps := [Enter(n)] + [];
    } else {
      var claimed := Apply(entered, Claim(i));
      if claimed.finishes[i].pc.Done? {
        t := claimed;
        LeadsCons(entered, Claim(i), [], t);
        steps := [Enter(n)] + ([Claim(i)] + []);
      } else {
        var complete := Complete(i, seconds, fingerprint, error, valid, overflows);
        t := Apply(claimed, complete);
        var h := w.handles[n];
        var cell, call := w.cells[h.owner], Call(h.kind, seconds, fingerprint, error, h.source, true);
        CallsAppend(cell.log, Admission(call, FailedSql(cell.totals, call)));
        LeadsCons(claimed, complete, [], t);
        LeadsCons(entered, Claim(i), [complete] + [], t);
        steps := [Enter(n)] + ([Claim(i)] + ([complete] + []));
      }
    }
    LeadsCons(w, Enter(n), steps[1..], t);
    assert steps == [Enter(n)] + steps[1..];
  }
}
