/** What becomes of one `enqueue` call among other threads, and that a teardown gets to its end. */
module LogProgress {
  import opened Counting
  import opened LogItems
  import opened LogPipeline
  import opened LogPipelineSafety
  import opened LogPipelineTheorems
  import LogQueue

  // ---------------------------------------------------------------- one call among other threads

  /** The lock holder is about to put, or to read, and will act on the length it finds. */
  predicate Looking(pc: ProducerPc) {
    pc.TryPut? || pc.Evict? || pc.PutAgain? || pc.TimedPut?
  }

  /** One producer holds the lock all along. */
  ghost predicate Holds(c: Config, s: State, steps: seq<Step>, t: State)
    requires Leads(c, s, steps, t)
    decreases |steps|
  {
    && s.handler.lock.Producing?
    && (steps != [] ==> Holds(c, Apply(c, s, steps[0]), steps[1..], t))
  }

  /** The lengths its own operations on the queue found, in order. */
  ghost function Looks(c: Config, s: State, steps: seq<Step>, t: State): seq<nat>
    requires Leads(c, s, steps, t)
    decreases |steps|
  {
    if steps == [] then []
    else
      (if steps[0].Produce? && s.handler.lock.Producing? && Looking(s.handler.lock.pc) then [|s.ch.queue|] else [])
      + Looks(c, Apply(c, s, steps[0]), steps[1..], t)
  }

  function AddNewest(totals: Totals, n: nat): Totals {
    totals.(dropped := totals.dropped + n, droppedNewest := totals.droppedNewest + n)
  }

  /** A put that finds this length. */
  function PutFound(c: Config, look: nat, totals: Totals, whenFull: Totals): Totals {
    if look < c.capacity then totals.Enqueued() else whenFull
  }

  /** What the rest of a call adds, by the lengths it is still to find. */
  function RestOfCall(c: Config, pc: ProducerPc, looks: seq<nat>, totals: Totals): Totals {
    match pc
    case Check(_) => FirstPut(c, looks, totals)
    case TryPut(_) => FirstPut(c, looks, totals)
    case CountEnqueued => totals.Enqueued()
    case Evict(_) =>
      if looks == [] then totals
      else SecondPut(c, looks[1..], if looks[0] > 0 then totals.DropOldest() else totals)
    case SettleEvicted(_) => SecondPut(c, looks, totals.DropOldest())
    case CountOldest(_) => SecondPut(c, looks, totals.DropOldest())
    case PutAgain(_) => SecondPut(c, looks, totals)
    case CountBlocked(_) => TimedPutFound(c, looks, totals.Blocked())
    case TimedPut(_) => TimedPutFound(c, looks, totals)
    case CountTimeout => totals.BlockTimeout().DropNewest()
    case CountNewest => totals.DropNewest()
    case Release => totals
  }

  function FirstPut(c: Config, looks: seq<nat>, totals: Totals): Totals {
    if LogQueue.Complete(c.policy, c.capacity, looks) then LogQueue.CallTotals(c.policy, c.capacity, looks, totals)
    else totals
  }

  function SecondPut(c: Config, looks: seq<nat>, totals: Totals): Totals {
    if looks == [] then totals else PutFound(c, looks[0], totals, totals.DropNewest())
  }

  function TimedPutFound(c: Config, looks: seq<nat>, totals: Totals): Totals {
    if looks == [] then totals else PutFound(c, looks[0], totals, totals.BlockTimeout().DropNewest())
  }

  /** How many lengths the rest of a call finds. */
  ghost predicate RestComplete(c: Config, pc: ProducerPc, looks: seq<nat>) {
    match pc
    case Check(_) => LogQueue.Complete(c.policy, c.capacity, looks)
    case TryPut(_) => LogQueue.Complete(c.policy, c.capacity, looks)
    case Evict(_) => |looks| == 2
    case SettleEvicted(_) => |looks| == 1
    case CountOldest(_) => |looks| == 1
    case PutAgain(_) => |looks| == 1
    case CountBlocked(_) => |looks| == 1
    case TimedPut(_) => |looks| == 1
    case _ => looks == []
  }

  /** One operation of the lock holder takes what it finds off the rest. */
  lemma ProduceRest(c: Config, ch: Channel, h: Handler, looks: seq<nat>)
    requires h.lock.Producing? && !h.lock.pc.Release? && (h.lock.pc.Check? ==> h.accepting)
    requires h.lock.pc.Evict? ==> c.policy.DropOldest?
    requires h.lock.pc.CountBlocked? ==> c.policy.Block?
    ensures var h' := ProducerStep(c, ch, h).1;
            var all := if Looking(h.lock.pc) then [|ch.queue|] + looks else looks;
            && h'.lock.Producing?
            && (RestComplete(c, h'.lock.pc, looks) ==>
                  && RestComplete(c, h.lock.pc, all)
                  && RestOfCall(c, h'.lock.pc, looks, h'.totals) == RestOfCall(c, h.lock.pc, all, h.totals))
  {
    if h.lock.pc.Evict? || h.lock.pc.TryPut? {
      assert ([|ch.queue|] + looks)[1..] == looks;
    }
  }

  lemma NewestCommutes(c: Config, pc: ProducerPc, looks: seq<nat>, totals: Totals, n: nat)
    ensures RestOfCall(c, pc, looks, AddNewest(totals, n)) == AddNewest(RestOfCall(c, pc, looks, totals), n)
  {
  }

  /** The lock holder is on the path of its policy, past an open gate, and about this record. */
  predicate OnPath(c: Config, h: Handler, x: Item) {
    && h.lock.Producing?
    && (h.lock.pc.Check? ==> h.accepting)
    && (Evicting(h) ==> c.policy.DropOldest?)
    && (h.lock.pc.CountBlocked? || h.lock.pc.TimedPut? || h.lock.pc.CountTimeout? ==> c.policy.Block?)
    && (h.lock.pc.CountEnqueued? || h.lock.pc.CountTimeout? || h.lock.pc.CountNewest? || h.lock.pc.Release?
        || h.lock.pc.item == x)
  }

  /** Every record put since is this one. */
  ghost predicate OnlyPuts(a: Channel, b: Channel, x: Item) {
    && a.admitted <= b.admitted
    && forall i :: |a.admitted| <= i < |b.admitted| && b.admitted[i].Record? ==> b.admitted[i] == x
  }

  lemma ProducePath(c: Config, ch: Channel, h: Handler, x: Item)
    requires OnPath(c, h, x) && !h.lock.pc.Release?
    ensures OnPath(c, ProducerStep(c, ch, h).1, x) && OnlyPuts(ch, ProducerStep(c, ch, h).0, x)
    ensures ProducerStep(c, ch, h).1.prepareErrors == h.prepareErrors
  {
  }

  lemma OtherPath(c: Config, s: State, step: Step, x: Item)
    requires GateInv(s.handler, s.stopper) && OnPath(c, s.handler, x) && Enabled(c, s, step) && !step.Produce?
    ensures var t := Apply(c, s, step);
            && OnPath(c, t.handler, x) && t.handler.lock == s.handler.lock && OnlyPuts(s.ch, t.ch, x)
            && s.handler.prepareErrors <= t.handler.prepareErrors
            && t.handler.totals == AddNewest(s.handler.totals, t.handler.prepareErrors - s.handler.prepareErrors)
  {
  }

  /** The totals that `looks` will have led to, with the records of others that failed before the queue. */
  ghost predicate Ends(c: Config, s: State, t: State, looks: seq<nat>) {
    && s.handler.lock.Producing? && s.handler.prepareErrors <= t.handler.prepareErrors
    && RestComplete(c, s.handler.lock.pc, looks)
    && t.handler.totals ==
       AddNewest(RestOfCall(c, s.handler.lock.pc, looks, s.handler.totals),
                 t.handler.prepareErrors - s.handler.prepareErrors)
  }

  lemma ProduceEnds(c: Config, s: State, t: State, looks: seq<nat>, x: Item)
    requires OnPath(c, s.handler, x) && !s.handler.lock.pc.Release? && Ends(c, Apply(c, s, Produce), t, looks)
    ensures Ends(c, s, t, if Looking(s.handler.lock.pc) then [|s.ch.queue|] + looks else looks)
  {
    ProducePath(c, s.ch, s.handler, x);
    ProduceRest(c, s.ch, s.handler, looks);
  }

  lemma StepEnds(c: Config, s: State, step: Step, t: State, looks: seq<nat>, x: Item)
    requires GateInv(s.handler, s.stopper) && OnPath(c, s.handler, x) && Enabled(c, s, step)
    requires Apply(c, s, step).handler.lock.Producing? && Ends(c, Apply(c, s, step), t, looks)
    ensures Ends(c, s, t, if step.Produce? && Looking(s.handler.lock.pc) then [|s.ch.queue|] + looks else looks)
  {
    if step.Produce? {
      ProduceEnds(c, s, t, looks, x);
    } else {
      OtherPath(c, s, step, x);
      NewestCommutes(c, s.handler.lock.pc, looks, s.handler.totals,
                     Apply(c, s, step).handler.prepareErrors - s.handler.prepareErrors);
    }
  }

  lemma OnlyPutsThen(a: Channel, b: Channel, c: Channel, x: Item)
    requires OnlyPuts(a, b, x) && OnlyPuts(b, c, x)
    ensures OnlyPuts(a, c, x)
  {
  }

  /** Any step while the call goes on. */
  lemma StepPath(c: Config, s: State, step: Step, x: Item)
    requires GateInv(s.handler, s.stopper) && OnPath(c, s.handler, x) && Enabled(c, s, step)
    requires Apply(c, s, step).handler.lock.Producing?
    ensures OnPath(c, Apply(c, s, step).handler, x) && OnlyPuts(s.ch, Apply(c, s, step).ch, x)
  {
    if step.Produce? {
      ProducePath(c, s.ch, s.handler, x);
    } else {
      OtherPath(c, s, step, x);
    }
  }

  lemma {:induction false} CallRun(c: Config, s: State, steps: seq<Step>, t: State, x: Item)
    requires Inv(c, s) && OnPath(c, s.handler, x) && Leads(c, s, steps, t) && Holds(c, s, steps, t)
    requires t.handler.lock.Producing? && t.handler.lock.pc.Release?
    ensures Ends(c, s, t, Looks(c, s, steps, t)) && OnlyPuts(s.ch, t.ch, x)
    decreases |steps|
  {
    if steps != [] {
      var step, m := steps[0], Apply(c, s, steps[0]);
      assert m.handler.lock.Producing? && Holds(c, m, steps[1..], t);
      StepKeeps(c, s, step);
      StepPath(c, s, step, x);
      CallRun(c, m, steps[1..], t, x);
      OnlyPutsThen(s.ch, m.ch, t.ch, x);
      StepEnds(c, s, step, t, Looks(c, m, steps[1..], t), x);
      assert [] + Looks(c, m, steps[1..], t) == Looks(c, m, steps[1..], t);
    }
  }

  /**
   What one accepted call does, whatever the other threads do meanwhile, is decided by the lengths its own operations on
   the queue found: it is enqueued if and only if one of its puts found room, after an eviction if and only if its read
   found something, and otherwise it is dropped as newest, after its wait under `block`. It puts its own record.
   */
  lemma CallOutcome(c: Config, s: State, steps: seq<Step>, t: State, x: Item)
    requires Reachable(c, s) && s.handler.lock == Producing(Check(x)) && s.handler.accepting
    requires Leads(c, s, steps, t) && Holds(c, s, steps, t) && t.handler.lock == Producing(Release)
    ensures var looks := Looks(c, s, steps, t);
            && LogQueue.Complete(c.policy, c.capacity, looks)
            && s.handler.prepareErrors <= t.handler.prepareErrors
            && t.handler.totals == AddNewest(LogQueue.CallTotals(c.policy, c.capacity, looks, s.handler.totals),
                                             t.handler.prepareErrors - s.handler.prepareErrors)
    ensures OnlyPuts(s.ch, t.ch, x)
  {
    ReachableInv(c, s);
    CallRun(c, s, steps, t, x);
  }

  // ---------------------------------------------------------------- a teardown gets to its end

  /** Only the stopper and the listener act, and no output raises. */
  predicate Stopping(steps: seq<Step>) {
    forall i :: 0 <= i < |steps| ==> steps[i].Stop? || (steps[i].Listen? && !steps[i].listen.OfferRaises?)
  }

  /** The outputs are closed in the end. */
  ghost predicate CanFinish(c: Config, s: State) {
    exists steps, t :: Stopping(steps) && Leads(c, s, steps, t) && t.stopper.outputsClosed
  }

  lemma FinishCons(c: Config, s: State, step: Step)
    requires step.Stop? || (step.Listen? && !step.listen.OfferRaises?)
    requires Enabled(c, s, step) && CanFinish(c, Apply(c, s, step))
    ensures CanFinish(c, s)
  {
    var rest, t :| Stopping(rest) && Leads(c, Apply(c, s, step), rest, t) && t.stopper.outputsClosed;
    LeadsCons(c, s, step, rest, t);
    assert Stopping([step] + rest);
  }

  lemma JoinedFinishes(c: Config, s: State)
    requires s.stopper.pc.Joined?
    ensures CanFinish(c, s)
  {
    var t := Apply(c, s, Stop(CloseOutputs));
    assert Leads(c, t, [], t) && Stopping([]);
    FinishCons(c, s, Stop(CloseOutputs));
  }

  lemma DeadFinishes(c: Config, s: State)
    requires s.stopper.pc.Stopping? && !Alive(s.listener)
    ensures CanFinish(c, s)
  {
    JoinedFinishes(c, Apply(c, s, Stop(Join)));
    FinishCons(c, s, Stop(Join));
  }

  /** The sentinel is in: the listener reads up to it. */
  lemma {:induction false} NotedFinishes(c: Config, s: State)
    requires Inv(c, s) && s.stopper.pc.Stopping? && Count(s.ch.admitted, IsSentinel) == 1
    ensures CanFinish(c, s)
    decreases Work(c, s.ch, s.listener)
  {
    if Alive(s.listener) {
      var l, m := DrainStep(c, s);
      NotedFinishes(c, m);
      FinishCons(c, s, Listen(l));
    } else {
      DeadFinishes(c, s);
    }
  }

  lemma NotingFinishes(c: Config, s: State)
    requires Inv(c, s) && s.stopper.pc.Noting?
    ensures CanFinish(c, s)
  {
    StepKeeps(c, s, Stop(NoteSentinel));
    NotedFinishes(c, Apply(c, s, Stop(NoteSentinel)));
    FinishCons(c, s, Stop(NoteSentinel));
  }

  /** A listener that has something to read reads on, whatever is queued. */
  lemma ReadStep(c: Config, s: State) returns (l: ListenerStep, m: State)
    requires Inv(c, s) && Alive(s.listener) && s.ch.queue != []
    ensures !l.OfferRaises? && Enabled(c, s, Listen(l)) && m == Apply(c, s, Listen(l)) && Inv(c, m)
    ensures Work(c, m.ch, m.listener) < Work(c, s.ch, s.listener)
  {
    ListenerProgress(c, s.ch, s.listener);
    l := NextListen(c, s.ch, s.listener);
    m := Apply(c, s, Listen(l));
    StepKeeps(c, s, Listen(l));
  }

  /** No sentinel yet: it is put as soon as the listener has made room. */
  lemma {:induction false} RoomFinishes(c: Config, s: State)
    requires Inv(c, s) && c.capacity > 0 && s.stopper.pc.Stopping? && !s.stopper.sentinelNoted
    ensures CanFinish(c, s)
    decreases Work(c, s.ch, s.listener)
  {
    if !Alive(s.listener) {
      DeadFinishes(c, s);
    } else if |s.ch.queue| < c.capacity {
      StepKeeps(c, s, Stop(PutSentinel));
      NotingFinishes(c, Apply(c, s, Stop(PutSentinel)));
      FinishCons(c, s, Stop(PutSentinel));
    } else {
      var l, m := ReadStep(c, s);
      RoomFinishes(c, m);
      FinishCons(c, s, Listen(l));
    }
  }

  lemma StoppingFinishes(c: Config, s: State)
    requires Inv(c, s) && c.capacity > 0 && s.stopper.pc.Stopping?
    ensures CanFinish(c, s)
  {
    if s.stopper.sentinelNoted {
      NotedFinishes(c, s);
    } else {
      RoomFinishes(c, s);
    }
  }

  lemma UnlockingFinishes(c: Config, s: State)
    requires Inv(c, s) && c.capacity > 0 && s.stopper.pc.Unlocking?
    ensures CanFinish(c, s)
  {
    StepKeeps(c, s, Stop(CloseRelease));
    StoppingFinishes(c, Apply(c, s, Stop(CloseRelease)));
    FinishCons(c, s, Stop(CloseRelease));
  }

  lemma AtCloseFinishes(c: Config, s: State)
    requires Inv(c, s) && c.capacity > 0 && s.stopper.pc.AtClose?
    ensures CanFinish(c, s)
  {
    StepKeeps(c, s, Stop(CloseSet));
    UnlockingFinishes(c, Apply(c, s, Stop(CloseSet)));
    FinishCons(c, s, Stop(CloseSet));
  }

  lemma ReadyFinishes(c: Config, s: State)
    requires Inv(c, s) && c.capacity > 0 && s.stopper.pc.Ready? && s.handler.lock.Free?
    ensures CanFinish(c, s)
  {
    StepKeeps(c, s, Stop(CloseAcquire));
    AtCloseFinishes(c, Apply(c, s, Stop(CloseAcquire)));
    FinishCons(c, s, Stop(CloseAcquire));
  }

  /** A teardown is over only when it has closed the outputs. */
  lemma {:induction false} OverMeansClosed(c: Config, s: State, steps: seq<Step>, t: State)
    requires (s.stopper.pc.Finished? ==> s.stopper.outputsClosed) && Leads(c, s, steps, t)
    ensures t.stopper.pc.Finished? ==> t.stopper.outputsClosed
    decreases |steps|
  {
    if steps != [] {
      OverMeansClosed(c, Apply(c, s, steps[0]), steps[1..], t);
    }
  }

  /**
   From every moment at which no producer holds the lock, after any number of attempts that gave up, a teardown can get
   to its end by the steps of the stopper and the listener alone: the outputs are closed, as no output raises.
   */
  lemma TeardownFinishes(c: Config, s: State)
    requires Reachable(c, s) && c.capacity > 0 && !s.handler.lock.Producing?
    ensures CanFinish(c, s)
  {
    ReachableInv(c, s);
    var before :| Leads(c, Init(c), before, s);
    OverMeansClosed(c, Init(c), before, s);
    match s.stopper.pc
    case Ready => ReadyFinishes(c, s);
    case AtClose => AtCloseFinishes(c, s);
    case Unlocking => UnlockingFinishes(c, s);
    case Stopping => StoppingFinishes(c, s);
    case Noting => NotingFinishes(c, s);
    case Joined => JoinedFinishes(c, s);
    case Finished => assert Leads(c, s, [], s) && Stopping([]);
  }
}
