/** When `flush` answers True: exactly when its marker was handled and no output failed, and that it gets there. */
module LogFlush {
  import opened Counting
  import opened LogItems
  import opened LogPipeline
  import opened LogPipelineSafety
  import opened LogPipelineTheorems

  // ---------------------------------------------------------------- handled markers

  /** The listener took the item admitted at `pos` and is done with it. */
  predicate HandledAt(s: State, pos: nat) {
    pos < |s.ch.departed| && s.ch.departed[pos].fate.Taken? && !NotPast(s.listener.pc, pos)
  }

  /** The callers of handled markers have been told. */
  ghost predicate DoneInv(s: State) {
    forall id :: id in s.flushes && HandledAt(s, s.flushes[id].pos) ==> s.flushes[id].done
  }

  /** One marker, one step of the listener. */
  lemma ListenHandles(c: Config, s: State, l: ListenerStep, id: nat)
    requires QueueInv(c, s.ch) && ListenerInv(c, s.ch.departed, s.listener)
    requires id in s.flushes && FlushInv(c, s.ch, s.listener, id, s.flushes[id])
    requires HandledAt(s, s.flushes[id].pos) ==> s.flushes[id].done
    requires ListenerEnabled(c, s.ch, s.listener, l) && id in Apply(c, s, Listen(l)).flushes
    ensures HandledAt(Apply(c, s, Listen(l)), s.flushes[id].pos) ==> Apply(c, s, Listen(l)).flushes[id].done
  {
    var pos := s.flushes[id].pos;
    if l.Get? {
      assert s.ch.queue[0] == s.ch.admitted[|s.ch.departed|];
    }
    if l.Handled? && s.listener.pc.pos == pos && pos < |s.ch.departed| {
      assert s.ch.departed[pos].item == Marker(id);
    }
  }

  lemma ListenDone(c: Config, s: State, l: ListenerStep)
    requires QueueInv(c, s.ch) && ListenerInv(c, s.ch.departed, s.listener)
    requires FlushesInv(c, s.ch, s.listener, s.flushes) && DoneInv(s) && ListenerEnabled(c, s.ch, s.listener, l)
    ensures DoneInv(Apply(c, s, Listen(l)))
  {
    var t := Apply(c, s, Listen(l));
    forall id | id in t.flushes && HandledAt(t, t.flushes[id].pos)
      ensures t.flushes[id].done
    {
      assert FlushInv(c, s.ch, s.listener, id, s.flushes[id]);
      ListenHandles(c, s, l, id);
    }
  }

  lemma ProduceDone(c: Config, s: State)
    requires DoneInv(s) && s.handler.lock.Producing?
    ensures DoneInv(Apply(c, s, Produce))
  {
    var t := Apply(c, s, Produce);
    ProducerDepartures(c, s.ch, s.handler);
    assert forall pos: nat :: HandledAt(t, pos) ==> HandledAt(s, pos);
  }

  lemma StepDone(c: Config, s: State, step: Step)
    requires QueueInv(c, s.ch) && ListenerInv(c, s.ch.departed, s.listener)
    requires FlushesInv(c, s.ch, s.listener, s.flushes) && DoneInv(s) && Enabled(c, s, step)
    ensures DoneInv(Apply(c, s, step))
  {
    var t := Apply(c, s, step);
    match step
    case Listen(l) => ListenDone(c, s, l);
    case Produce => ProduceDone(c, s);
    case _ => assert forall pos: nat :: HandledAt(t, pos) ==> HandledAt(s, pos);
  }

  lemma {:induction false} RunDone(c: Config, s: State, steps: seq<Step>, t: State)
    requires Inv(c, s) && DoneInv(s) && Leads(c, s, steps, t)
    ensures Inv(c, t) && DoneInv(t)
    decreases |steps|
  {
    if steps != [] {
      StepKeeps(c, s, steps[0]);
      StepDone(c, s, steps[0]);
      RunDone(c, Apply(c, s, steps[0]), steps[1..], t);
    }
  }

  lemma InitDone(c: Config)
    ensures DoneInv(Init(c))
  {
    assert Init(c).flushes == map[];
  }

  lemma ReachableDone(c: Config, s: State)
    requires Reachable(c, s)
    ensures Inv(c, s) && DoneInv(s)
  {
    var steps :| Leads(c, Init(c), steps, s);
    InitInv(c);
    InitDone(c);
    RunDone(c, Init(c), steps, s);
  }

  // ---------------------------------------------------------------- failed outputs

  /** The step is an output's flush for this marker that fails. */
  predicate FailsFor(c: Config, s: State, step: Step, id: nat) {
    && step == Listen(FlushOutput(false)) && Enabled(c, s, step)
    && s.ch.departed[s.listener.pc.pos].item == Marker(id)
  }

  /** Some step of the run is. */
  ghost predicate FailedFor(c: Config, s: State, steps: seq<Step>, t: State, id: nat)
    requires Leads(c, s, steps, t)
    decreases |steps|
  {
    steps != [] && (FailsFor(c, s, steps[0], id) || FailedFor(c, Apply(c, s, steps[0]), steps[1..], t, id))
  }

  /** Nothing fails for a marker that was not put. */
  lemma NoMarkerNoFailure(c: Config, s: State, step: Step, id: nat)
    requires QueueInv(c, s.ch) && FlushesInv(c, s.ch, s.listener, s.flushes) && FailsFor(c, s, step, id)
    ensures id in s.flushes
  {
    assert s.ch.admitted[s.listener.pc.pos] == Marker(id);
  }

  lemma ListenSucceeded(c: Config, s: State, l: ListenerStep, id: nat)
    requires ListenerEnabled(c, s.ch, s.listener, l) && id in s.flushes
    ensures ListenerFlushes(c, s.ch, s.listener, s.flushes, l)[id].succeeded
            <==> s.flushes[id].succeeded && !FailsFor(c, s, Listen(l), id)
  {
  }

  /** A marker is cleared of success by exactly the steps that fail for it, and starts with it. */
  lemma StepSucceeded(c: Config, s: State, step: Step, id: nat)
    requires QueueInv(c, s.ch) && FlushesInv(c, s.ch, s.listener, s.flushes)
    requires Enabled(c, s, step) && id in Apply(c, s, step).flushes
    ensures Apply(c, s, step).flushes[id].succeeded
            <==> (id in s.flushes ==> s.flushes[id].succeeded) && !FailsFor(c, s, step, id)
  {
    if step.Listen? && id in s.flushes {
      ListenSucceeded(c, s, step.listen, id);
    }
  }

  lemma {:induction false} RunSucceeded(c: Config, s: State, steps: seq<Step>, t: State, id: nat)
    requires Inv(c, s) && Leads(c, s, steps, t) && id in t.flushes
    ensures t.flushes[id].succeeded
            <==> (id in s.flushes ==> s.flushes[id].succeeded) && !FailedFor(c, s, steps, t, id)
    decreases |steps|
  {
    if steps != [] {
      var m := Apply(c, s, steps[0]);
      StepKeeps(c, s, steps[0]);
      RunSucceeded(c, m, steps[1..], t, id);
      if id in m.flushes {
        StepSucceeded(c, s, steps[0], id);
      } else if FailsFor(c, s, steps[0], id) {
        NoMarkerNoFailure(c, s, steps[0], id);
      }
    }
  }

  /**
   In every run from before its marker was put, a flush that looks now answers True if and only if the listener took
   the marker and is done with it, and no output failed to flush for it.
   */
  lemma FlushTrueExactly(c: Config, r: State, steps: seq<Step>, s: State, id: nat)
    requires Reachable(c, r) && id !in r.flushes && Leads(c, r, steps, s)
    requires id in s.flushes && s.flushes[id].result.Pending?
    ensures Apply(c, s, Await(id)).flushes[id].result == Returned(true)
            <==> HandledAt(s, s.flushes[id].pos) && !FailedFor(c, r, steps, s, id)
    ensures s.flushes[id].pos < |s.ch.admitted| && s.ch.admitted[s.flushes[id].pos] == Marker(id)
  {
    ReachableDone(c, r);
    RunDone(c, r, steps, s);
    RunSucceeded(c, r, steps, s, id);
    assert FlushInv(c, s.ch, s.listener, id, s.flushes[id]);
  }

  // ---------------------------------------------------------------- progress

  /** The listener works on, and every output it asks to flush does. */
  predicate CleanListening(steps: seq<Step>) {
    forall i :: 0 <= i < |steps| ==>
      steps[i].Listen? && !steps[i].listen.OfferRaises? && steps[i].listen != FlushOutput(false)
  }

  /** A marker ahead of a live listener, with no sentinel anywhere. */
  ghost predicate Flushing(c: Config, s: State, id: nat) {
    && Inv(c, s) && DoneInv(s) && Alive(s.listener) && Count(s.ch.admitted, IsSentinel) == 0
    && id in s.flushes && s.flushes[id].succeeded && s.flushes[id].result.Pending?
    && (s.flushes[id].pos < |s.ch.departed| ==> s.ch.departed[s.flushes[id].pos].fate.Taken?)
  }

  /** Until the marker is handled, the listener has something to do. */
  lemma MarkerAhead(c: Config, s: State, id: nat)
    requires Flushing(c, s, id) && !s.flushes[id].done
    ensures s.listener.pc.Waiting? ==> s.ch.queue != []
  {
    assert FlushInv(c, s.ch, s.listener, id, s.flushes[id]);
    assert !HandledAt(s, s.flushes[id].pos);
  }

  /** What one clean step of the listener leaves of the marker. */
  lemma CleanStep(c: Config, s: State, l: ListenerStep, id: nat)
    requires QueueInv(c, s.ch) && ListenerInv(c, s.ch.departed, s.listener)
    requires ListenerEnabled(c, s.ch, s.listener, l) && !l.OfferRaises? && l != FlushOutput(false)
    requires Alive(s.listener) && Count(s.ch.admitted, IsSentinel) == 0 && id in s.flushes
    ensures var t := Apply(c, s, Listen(l));
            && Alive(t.listener) && t.ch.admitted == s.ch.admitted && id in t.flushes
            && t.flushes[id].succeeded == s.flushes[id].succeeded
            && t.flushes[id].result == s.flushes[id].result && t.flushes[id].pos == s.flushes[id].pos
    ensures var t := Apply(c, s, Listen(l));
            forall pos: nat :: pos < |t.ch.departed| && (pos < |s.ch.departed| ==> s.ch.departed[pos].fate.Taken?) ==>
              t.ch.departed[pos].fate.Taken?
  {
    CountZero(s.ch.admitted, IsSentinel);
    assert forall i :: 0 <= i < |s.ch.departed| ==> s.ch.departed[i].item == s.ch.admitted[i];
  }

  lemma FlushStep(c: Config, s: State, id: nat) returns (l: ListenerStep, m: State)
    requires Flushing(c, s, id) && !s.flushes[id].done
    ensures !l.OfferRaises? && l != FlushOutput(false) && Enabled(c, s, Listen(l)) && m == Apply(c, s, Listen(l))
    ensures Flushing(c, m, id) && Work(c, m.ch, m.listener) < Work(c, s.ch, s.listener)
  {
    MarkerAhead(c, s, id);
    ListenerProgress(c, s.ch, s.listener);
    l := NextListen(c, s.ch, s.listener);
    m := Apply(c, s, Listen(l));
    CleanStep(c, s, l, id);
    StepKeeps(c, s, Listen(l));
    StepDone(c, s, Listen(l));
  }

  lemma CleanCons(l: ListenerStep, rest: seq<Step>)
    requires !l.OfferRaises? && l != FlushOutput(false) && CleanListening(rest)
    ensures CleanListening([Listen(l)] + rest)
  {
  }

  lemma {:induction false} FlushRunsOut(c: Config, s: State, id: nat) returns (steps: seq<Step>, t: State)
    requires Flushing(c, s, id)
    ensures CleanListening(steps) && Leads(c, s, steps, t)
    ensures id in t.flushes && t.flushes[id].done && t.flushes[id].succeeded && t.flushes[id].result.Pending?
    decreases Work(c, s.ch, s.listener)
  {
    if s.flushes[id].done {
      steps, t := [], s;
    } else {
      var l, m := FlushStep(c, s, id);
      var rest;
      rest, t := FlushRunsOut(c, m, id);
      LeadsCons(c, s, Listen(l), rest, t);
      CleanCons(l, rest);
      steps := [Listen(l)] + rest;
    }
  }

  /** The marker is put: nothing has failed for it, and it is ahead. */
  lemma MarkerPut(c: Config, s: State, id: nat)
    requires Inv(c, s) && DoneInv(s) && Alive(s.listener) && Count(s.ch.admitted, IsSentinel) == 0
    requires Enabled(c, s, PutMarker(id))
    ensures Flushing(c, Apply(c, s, PutMarker(id)), id)
  {
    StepKeeps(c, s, PutMarker(id));
    StepDone(c, s, PutMarker(id));
    CountAppend(s.ch.admitted, Marker(id), IsSentinel);
  }

  /**
   A flush succeeds: with room in the queue, no sentinel put and a live listener, the marker, then the listener's own
   steps alone, none of them a raise or a failed flush, lead to a flush that answers True.
   */
  lemma FlushSucceeds(c: Config, s: State, id: nat) returns (steps: seq<Step>, t: State)
    requires Reachable(c, s) && Alive(s.listener) && Sentinel !in s.ch.admitted && Enabled(c, s, PutMarker(id))
    ensures CleanListening(steps) && Leads(c, Apply(c, s, PutMarker(id)), steps, t) && Enabled(c, t, Await(id))
    ensures Apply(c, t, Await(id)).flushes[id].result == Returned(true)
  {
    ReachableDone(c, s);
    CountZero(s.ch.admitted, IsSentinel);
    MarkerPut(c, s, id);
    steps, t := FlushRunsOut(c, Apply(c, s, PutMarker(id)), id);
  }
}
