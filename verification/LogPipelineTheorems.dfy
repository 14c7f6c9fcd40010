/** What the log pipeline promises, over every run. */
module LogPipelineTheorems {
  import opened Counting
  import opened LogItems
  import opened LogPipeline
  import opened LogPipelineSafety
  import LogQueue

  // ---------------------------------------------------------------- conservation

  lemma {:induction false} KindsPartition(items: seq<Item>)
    ensures Count(items, IsRecord) + Count(items, IsMarker) + Count(items, IsSentinel) == |items|
  {
    if items != [] {
      KindsPartition(items[..|items| - 1]);
    }
  }

  lemma {:induction false} FatesPartition(departed: seq<Departure>)
    ensures Count(departed, WasTaken) + Count(departed, WasEvicted) == |departed|
  {
    if departed != [] {
      FatesPartition(departed[..|departed| - 1]);
    }
  }

  /**
   Whenever no producer holds the handler lock, everything put is accounted for: by the listener,
   by `dropped_oldest_total`, or still queued. The task counter and the totals agree with it.
   */
  lemma Conservation(c: Config, s: State)
    requires Reachable(c, s) && !s.handler.lock.Producing?
    ensures var t := s.handler.totals;
            && t.enqueued + |s.flushes| + Count(s.ch.admitted, IsSentinel)
               == Count(s.ch.departed, WasTaken) + t.droppedOldest + |s.ch.queue|
            && s.ch.unfinished == |s.ch.queue| + Bit(Holding(s.listener))
            && t.dropped == t.droppedOldest + t.droppedNewest
            && t.enqueued + t.droppedNewest == s.handler.calls + s.handler.prepareErrors
            && |s.ch.queue| <= c.capacity
  {
    ReachableInv(c, s);
    KindsPartition(s.ch.admitted);
    FatesPartition(s.ch.departed);
  }

  /**
   At every step what was admitted is what left, in order, followed by what is queued, and the same equation
   holds with the lock holder's uncounted put and eviction written out.
   */
  lemma ConservationMidCall(c: Config, s: State)
    requires Reachable(c, s)
    ensures s.ch.Fifo()
    ensures var t := s.handler.totals;
            t.enqueued + Bit(PutUncounted(s.handler)) + |s.flushes| + Count(s.ch.admitted, IsSentinel)
            == Count(s.ch.departed, WasTaken) + t.droppedOldest + Bit(EvictionUncounted(s.handler)) + |s.ch.queue|
  {
    ReachableInv(c, s);
    KindsPartition(s.ch.admitted);
    FatesPartition(s.ch.departed);
  }

  /** What `dropped_oldest_total`, with the eviction in progress, has too much. */
  ghost function Miscounted(ch: Channel, h: Handler): int {
    h.totals.droppedOldest + Bit(EvictionUncounted(h)) - Count(ch.departed, LogQueue.EvictedRecord)
  }

  /** The lock holder is about to evict, and a flush marker is at the head of the queue. */
  predicate MarkerAtHead(s: State) {
    s.handler.lock.Producing? && s.handler.lock.pc.Evict? && s.ch.queue != [] && s.ch.queue[0].Marker?
  }

  lemma ProducerDepartures(c: Config, ch: Channel, h: Handler)
    requires h.lock.Producing?
    ensures ProducerStep(c, ch, h).0.departed ==
            if h.lock.pc.Evict? && ch.queue != [] then ch.departed + [Departure(ch.queue[0], Evicted)] else ch.departed
  {
  }

  lemma ProducerEvictions(c: Config, ch: Channel, h: Handler)
    requires h.lock.Producing?
    ensures var h' := ProducerStep(c, ch, h).1;
            h'.totals.droppedOldest + Bit(EvictionUncounted(h')) ==
            h.totals.droppedOldest + Bit(EvictionUncounted(h)) + Bit(h.lock.pc.Evict? && ch.queue != [])
  {
  }

  /** A producer's operation miscounts exactly when it evicts something that is no record. */
  lemma ProducerMiscounts(c: Config, ch: Channel, h: Handler)
    requires h.lock.Producing?
    ensures var (ch', h') := ProducerStep(c, ch, h);
            Miscounted(ch', h') ==
            Miscounted(ch, h) + Bit(h.lock.pc.Evict? && ch.queue != [] && !ch.queue[0].Record?)
  {
    ProducerDepartures(c, ch, h);
    ProducerEvictions(c, ch, h);
    if h.lock.pc.Evict? && ch.queue != [] {
      CountAppend(ch.departed, Departure(ch.queue[0], Evicted), LogQueue.EvictedRecord);
    }
  }

  lemma ListenerMiscounts(c: Config, ch: Channel, b: Listener, l: ListenerStep)
    requires ListenerEnabled(c, ch, b, l)
    ensures Count(ListenerChannel(c, ch, b, l).departed, LogQueue.EvictedRecord) ==
            Count(ch.departed, LogQueue.EvictedRecord)
  {
    if l.Get? {
      CountAppend(ch.departed, Departure(ch.queue[0], Taken), LogQueue.EvictedRecord);
    }
  }

  /** No sentinel is at the head of the queue while a producer evicts: admissions stopped before it was put. */
  lemma NoSentinelAtHead(c: Config, s: State)
    requires QueueInv(c, s.ch) && GateInv(s.handler, s.stopper) && SentinelInv(s.ch, s.handler, s.stopper)
    requires s.handler.lock.Producing? && s.handler.lock.pc.Evict? && s.ch.queue != []
    ensures !s.ch.queue[0].Sentinel?
  {
    assert Active(s.handler);
    assert s.ch.queue[0] == s.ch.admitted[|s.ch.departed|];
  }

  /**
   From a state that keeps the invariants, a step of any thread makes the total count one item too many if it is the
   eviction of a flush marker at the head of the queue, and otherwise leaves the difference alone.
   */
  lemma StepMiscounts(c: Config, s: State, step: Step)
    requires QueueInv(c, s.ch) && GateInv(s.handler, s.stopper) && SentinelInv(s.ch, s.handler, s.stopper)
    requires Enabled(c, s, step)
    ensures var t := Apply(c, s, step);
            Miscounted(t.ch, t.handler) == Miscounted(s.ch, s.handler) + Bit(step.Produce? && MarkerAtHead(s))
  {
    match step
    case Produce =>
      ProducerMiscounts(c, s.ch, s.handler);
      if s.handler.lock.pc.Evict? && s.ch.queue != [] {
        NoSentinelAtHead(c, s);
      }
    case Listen(l) => ListenerMiscounts(c, s.ch, s.listener, l);
    case _ =>
  }

  /** The steps of a run that evict while a flush marker is at the head of the queue. */
  ghost function MarkersHit(c: Config, s: State, steps: seq<Step>, t: State): nat
    requires Leads(c, s, steps, t)
    decreases |steps|
  {
    if steps == [] then 0
    else Bit(steps[0].Produce? && MarkerAtHead(s)) + MarkersHit(c, Apply(c, s, steps[0]), steps[1..], t)
  }

  lemma {:induction false} RunMiscounts(c: Config, s: State, steps: seq<Step>, t: State)
    requires Inv(c, s) && Leads(c, s, steps, t)
    ensures Miscounted(t.ch, t.handler) == Miscounted(s.ch, s.handler) + MarkersHit(c, s, steps, t)
    decreases |steps|
  {
    if steps != [] {
      StepMiscounts(c, s, steps[0]);
      StepKeeps(c, s, steps[0]);
      RunMiscounts(c, Apply(c, s, steps[0]), steps[1..], t);
    }
  }

  /** The growth of `dropped_oldest_total` between two states, and of the number of evicted records. */
  ghost function Counted(s: State, t: State): int {
    t.handler.totals.droppedOldest - s.handler.totals.droppedOldest
  }

  ghost function EvictedBetween(s: State, t: State): int {
    Count(t.ch.departed, LogQueue.EvictedRecord) - Count(s.ch.departed, LogQueue.EvictedRecord)
  }

  /**
   Between any two moments of any run, `dropped_oldest_total` grows by the records evicted plus the evictions made
   with a flush marker at the head of the queue: it counts records if and only if that guard was never met.
   */
  lemma DroppedOldestCountsRecords(c: Config, s: State, steps: seq<Step>, t: State)
    requires Reachable(c, s) && Leads(c, s, steps, t)
    requires !s.handler.lock.Producing? && !t.handler.lock.Producing?
    ensures Counted(s, t) == EvictedBetween(s, t) + MarkersHit(c, s, steps, t)
    ensures Counted(s, t) == EvictedBetween(s, t) <==> MarkersHit(c, s, steps, t) == 0
  {
    ReachableInv(c, s);
    RunMiscounts(c, s, steps, t);
  }

  // ---------------------------------------------------------------- delivery

  /** The item at `p` is in the listener's hand, or was when it died, and output `o` was not reached yet. */
  predicate StillOwed(b: Listener, p: nat, o: nat) {
    (b.pc.Handling? || b.pc.Crashed?) && p == b.pc.pos && o >= b.pc.next
  }

  /**
   Every output is given, in admission order and once each, exactly the records the listener took
   whose level it admits; the item in hand is given to the outputs already passed.
   */
  lemma DeliveryExact(c: Config, s: State, o: nat)
    requires Reachable(c, s) && o < |c.levels|
    ensures |s.listener.delivered| == |c.levels|
    ensures var d := s.listener.delivered[o];
            && (forall i, j :: 0 <= i < j < |d| ==> d[i] < d[j])
            && (forall p: nat :: p in d ==> p < |s.ch.departed| && Due(s.ch.departed[p], c.levels[o]))
            && (forall p: nat ::
                  p < |s.ch.departed| && Due(s.ch.departed[p], c.levels[o]) && !StillOwed(s.listener, p, o) ==> p in d)
  {
    ReachableInv(c, s);
    ExpectedMeaning(DoneWith(s.ch.departed, s.listener.pc, o), c.levels[o]);
  }

  /** Without `drop_oldest` nothing that was admitted is ever lost from the queue. */
  lemma OnlyDropOldestEvicts(c: Config, s: State)
    requires Reachable(c, s) && !c.policy.DropOldest?
    ensures forall i :: 0 <= i < |s.ch.departed| ==> s.ch.departed[i].fate.Taken?
  {
    ReachableInv(c, s);
    CountZero(s.ch.departed, WasEvicted);
  }

  // ---------------------------------------------------------------- safe stop

  /** The sentinel is never evicted, is the last item read, and stays the only one over any retries. */
  lemma SentinelTaken(c: Config, s: State)
    requires Reachable(c, s)
    ensures Count(s.ch.admitted, IsSentinel) <= 1
    ensures forall i :: 0 <= i < |s.ch.departed| && s.ch.departed[i].item.Sentinel? ==>
              s.ch.departed[i].fate.Taken? && i == |s.ch.departed| - 1
  {
    ReachableInv(c, s);
    var d := s.ch.departed;
    forall i | 0 <= i < |d| - 1
      ensures NoSentinel(d[..|d| - 1]) ==> !d[i].item.Sentinel?
    {
      assert d[..|d| - 1][i] == d[i];
    }
  }

  /** Outputs are closed only when the listener thread is dead. */
  lemma OutputsOutliveListener(c: Config, s: State)
    requires Reachable(c, s) && s.stopper.outputsClosed
    ensures !Alive(s.listener)
  {
    ReachableInv(c, s);
  }

  /** What `close()` freezes: the records admitted and everything evicted. */
  ghost predicate Frozen(s: State, t: State) {
    && !t.handler.accepting
    && Count(t.ch.admitted, IsRecord) == Count(s.ch.admitted, IsRecord)
    && Count(t.ch.departed, WasEvicted) == Count(s.ch.departed, WasEvicted)
    && t.handler.totals.enqueued == s.handler.totals.enqueued
    && t.handler.totals.droppedOldest == s.handler.totals.droppedOldest
  }

  lemma ListenFrozen(c: Config, s: State, l: ListenerStep)
    requires ListenerEnabled(c, s.ch, s.listener, l)
    ensures ListenerChannel(c, s.ch, s.listener, l).admitted == s.ch.admitted
    ensures Count(ListenerChannel(c, s.ch, s.listener, l).departed, WasEvicted) == Count(s.ch.departed, WasEvicted)
  {
    if l.Get? {
      CountAppend(s.ch.departed, Departure(s.ch.queue[0], Taken), WasEvicted);
    }
  }

  /** A producer that finds the queue closed is at its test or on its way out. */
  lemma ProduceFrozen(c: Config, s: State)
    requires GateInv(s.handler, s.stopper) && !s.handler.accepting && s.handler.lock.Producing?
    ensures var (ch, h) := ProducerStep(c, s.ch, s.handler);
            ch == s.ch && h.totals == s.handler.totals && !h.accepting
  {
    assert !Active(s.handler);
  }

  lemma StepFrozen(c: Config, s: State, step: Step)
    requires QueueInv(c, s.ch) && GateInv(s.handler, s.stopper) && !s.handler.accepting && Enabled(c, s, step)
    ensures Frozen(s, Apply(c, s, step))
  {
    match step
    case Produce => ProduceFrozen(c, s);
    case PutMarker(id) => ControlPut(c, s.ch, Marker(id));
    case Stop(t) => if t.PutSentinel? { ControlPut(c, s.ch, Sentinel); }
    case Listen(l) => ListenFrozen(c, s, l);
    case _ =>
  }

  lemma {:induction false} RunFrozen(c: Config, s: State, steps: seq<Step>, t: State)
    requires Inv(c, s) && !s.handler.accepting && Leads(c, s, steps, t)
    ensures Frozen(s, t)
    decreases |steps|
  {
    if steps != [] {
      var m := Apply(c, s, steps[0]);
      StepFrozen(c, s, steps[0]);
      StepKeeps(c, s, steps[0]);
      RunFrozen(c, m, steps[1..], t);
    }
  }

  /**
   After `close()` returns, and through any later run with any retries, no producer admits or evicts
   anything: the records queued at that moment can leave only to the listener.
   */
  lemma AdmissionsStopForGood(c: Config, s: State, steps: seq<Step>, t: State)
    requires Reachable(c, s) && s.stopper.pc.Stopping? && Leads(c, s, steps, t)
    ensures Frozen(s, t)
  {
    ReachableInv(c, s);
    RunFrozen(c, s, steps, t);
  }

  /** A listener that exits at the sentinel has handled every admitted record that was not evicted. */
  lemma ExitDrains(c: Config, s: State, p: nat)
    requires Reachable(c, s) && s.listener.pc.Exited?
    requires p < |s.ch.admitted| && s.ch.admitted[p].Record?
    ensures p < |s.ch.departed| && s.ch.departed[p].item == s.ch.admitted[p]
    ensures |s.listener.delivered| == |c.levels|
    ensures s.ch.departed[p].fate.Evicted?
            || forall o: nat :: o < |c.levels| ==>
                 (p in s.listener.delivered[o] <==> s.ch.admitted[p].level >= c.levels[o])
  {
    ReachableInv(c, s);
    var last := |s.ch.departed| - 1;
    assert s.ch.admitted[last].Sentinel?;
    forall o: nat | o < |c.levels|
      ensures s.ch.departed[p].fate.Taken? ==>
                (p in s.listener.delivered[o] <==> s.ch.admitted[p].level >= c.levels[o])
    {
      ExpectedMeaning(s.ch.departed, c.levels[o]);
    }
  }

  // ---------------------------------------------------------------- flush barrier

  /**
   If `flush` returned True, every output's flush succeeded, and when it did that output had been given
   every record put before the marker that it admits, unless evicted, and nothing put after it.
   */
  lemma FlushBarrier(c: Config, s: State, id: nat, o: nat)
    requires Reachable(c, s) && id in s.flushes && s.flushes[id].result == Returned(true) && o < |c.levels|
    ensures var f := s.flushes[id];
            && s.ch.Fifo() && f.pos < |s.ch.departed| && s.ch.admitted[f.pos] == Marker(id)
            && |s.listener.delivered| == |c.levels|
            && o in f.flushed && f.flushed[o] <= |s.listener.delivered[o]|
            && var given := s.listener.delivered[o][..f.flushed[o]];
            && (forall p: nat :: p < f.pos && s.ch.admitted[p].Record? ==>
                  s.ch.departed[p].fate.Evicted? || (p in given <==> s.ch.admitted[p].level >= c.levels[o]))
            && (forall p: nat :: p in given ==> p < f.pos)
  {
    ReachableInv(c, s);
    var f := s.flushes[id];
    assert FlushInv(c, s.ch, s.listener, id, f);
    assert FlushedAfter(c, s.ch.departed, s.listener, f, o);
    ExpectedMeaning(s.ch.departed[..f.pos], c.levels[o]);
  }

  /** A flush whose marker was evicted, or was put behind the sentinel, never returns True. */
  lemma LostFlushNeverTrue(c: Config, s: State, id: nat)
    requires Reachable(c, s) && id in s.flushes
    requires var pos := s.flushes[id].pos;
             || (pos < |s.ch.departed| && s.ch.departed[pos].fate.Evicted?)
             || (exists q: nat :: q < pos && q < |s.ch.admitted| && s.ch.admitted[q].Sentinel?)
    ensures s.flushes[id].result != Returned(true)
  {
    ReachableInv(c, s);
    var f := s.flushes[id];
    assert FlushInv(c, s.ch, s.listener, id, f);
    SentinelTaken(c, s);
    assert forall q: nat :: q < f.pos < |s.ch.departed| ==> !s.ch.departed[q].item.Sentinel?;
  }

  // ---------------------------------------------------------------- the listener makes progress

  /** Operations the listener still owes for what is queued and in hand, if nobody else acts. */
  function Work(c: Config, ch: Channel, b: Listener): nat {
    |ch.queue| * (|c.levels| + 3)
    + match b.pc
      case Handling(_, next) => (if next <= |c.levels| then |c.levels| - next else 0) + 2
      case Settling => 1
      case Leaving => 1
      case _ => 0
  }

  /** The listener's next operation when no output raises. */
  function NextListen(c: Config, ch: Channel, b: Listener): ListenerStep
    requires Alive(b) && (b.pc.Waiting? ==> ch.queue != [])
    requires ListenerInv(c, ch.departed, b)
  {
    match b.pc
    case Waiting => Get
    case Handling(pos, next) =>
      if next == |c.levels| then Handled
      else if ch.departed[pos].item.Record? then Offer else FlushOutput(true)
    case _ => TaskDone
  }

  /** A live listener with work can always act, and each operation it performs reduces that work. */
  lemma ListenerProgress(c: Config, ch: Channel, b: Listener)
    requires Alive(b) && (b.pc.Waiting? ==> ch.queue != []) && ListenerInv(c, ch.departed, b)
    ensures var step := NextListen(c, ch, b);
            && ListenerEnabled(c, ch, b, step)
            && Work(c, ListenerChannel(c, ch, b, step), ListenerNext(c, ch, b, step)) < Work(c, ch, b)
  {
    if b.pc.Waiting? {
      var k := |c.levels| + 3;
      assert |ch.queue| * k == (|ch.queue| - 1) * k + k;
    }
  }

  predicate ListenOnly(steps: seq<Step>) {
    forall i :: 0 <= i < |steps| ==> steps[i].Listen? && !steps[i].listen.OfferRaises?
  }

  lemma LeadsCons(c: Config, s: State, step: Step, rest: seq<Step>, t: State)
    requires Enabled(c, s, step) && Leads(c, Apply(c, s, step), rest, t)
    ensures Leads(c, s, [step] + rest, t)
  {
    assert ([step] + rest)[1..] == rest;
  }

  /** A listener on its way to the sentinel. */
  ghost predicate Draining(c: Config, s: State) {
    Inv(c, s) && Count(s.ch.admitted, IsSentinel) == 1 && (Alive(s.listener) || s.listener.pc.Exited?)
  }

  lemma DrainStep(c: Config, s: State) returns (l: ListenerStep, m: State)
    requires Draining(c, s) && Alive(s.listener)
    ensures !l.OfferRaises? && Enabled(c, s, Listen(l)) && m == Apply(c, s, Listen(l))
    ensures Draining(c, m) && Work(c, m.ch, m.listener) < Work(c, s.ch, s.listener)
  {
    SentinelAhead(c, s);
    ListenerProgress(c, s.ch, s.listener);
    l := NextListen(c, s.ch, s.listener);
    m := Apply(c, s, Listen(l));
    StepKeeps(c, s, Listen(l));
    ListenerQueue(c, s.ch, s.listener, l);
  }

  lemma ListenOnlyCons(l: ListenerStep, rest: seq<Step>)
    requires !l.OfferRaises? && ListenOnly(rest)
    ensures ListenOnly([Listen(l)] + rest)
  {
  }

  lemma {:induction false} ListenerRunsOut(c: Config, s: State) returns (steps: seq<Step>, t: State)
    requires Draining(c, s)
    ensures ListenOnly(steps) && Leads(c, s, steps, t) && t.listener.pc.Exited?
    decreases Work(c, s.ch, s.listener)
  {
    if s.listener.pc.Exited? {
      steps, t := [], s;
    } else {
      var l, m := DrainStep(c, s);
      var rest;
      rest, t := ListenerRunsOut(c, m);
      LeadsCons(c, s, Listen(l), rest, t);
      ListenOnlyCons(l, rest);
      steps := [Listen(l)] + rest;
    }
  }

  /**
   Once the sentinel is queued, a live listener whose outputs do not raise reaches its exit by its own
   steps alone: joining it waits for nobody else, whatever is still queued.
   */
  lemma SentinelStopsListener(c: Config, s: State)
    requires Reachable(c, s) && Alive(s.listener) && Sentinel in s.ch.admitted
    ensures exists steps, t :: ListenOnly(steps) && Leads(c, s, steps, t) && t.listener.pc.Exited?
  {
    ReachableInv(c, s);
    CountZero(s.ch.admitted, IsSentinel);
    var steps, t := ListenerRunsOut(c, s);
  }

  /** A waiting listener with a sentinel put and not yet taken has something to read. */
  lemma SentinelAhead(c: Config, s: State)
    requires Inv(c, s) && Count(s.ch.admitted, IsSentinel) == 1
    ensures s.listener.pc.Waiting? ==> s.ch.queue != []
  {
    CountZero(s.ch.admitted, IsSentinel);
    var i :| 0 <= i < |s.ch.admitted| && s.ch.admitted[i].Sentinel?;
    if i < |s.ch.departed| {
      assert s.ch.departed[i].item.Sentinel?;
    }
  }

  // ---------------------------------------------------------------- one producer, alone

  /** What the handler's object does without interference, from each point inside `enqueue`. */
  function Outcome(c: Config, ch: Channel, h: Handler): (Channel, Totals)
    requires h.lock.Producing?
  {
    match h.lock.pc
    case Check(x) =>
      if h.accepting then LogQueue.EnqueueAlone(c.policy, c.capacity, ch, h.totals, x) else (ch, h.totals)
    case TryPut(x) => LogQueue.EnqueueAlone(c.policy, c.capacity, ch, h.totals, x)
    case CountEnqueued => (ch, h.totals.Enqueued())
    case Evict(x) =>
      if ch.queue == [] then Again(c, ch, h.totals, x)
      else Again(c, ch.Remove(Evicted).TaskDone(), h.totals.DropOldest(), x)
    case SettleEvicted(x) => Again(c, ch.TaskDone(), h.totals.DropOldest(), x)
    case CountOldest(x) => Again(c, ch, h.totals.DropOldest(), x)
    case PutAgain(x) => Again(c, ch, h.totals, x)
    case CountBlocked(x) => Timed(c, ch, h.totals.Blocked(), x)
    case TimedPut(x) => Timed(c, ch, h.totals, x)
    case CountTimeout => (ch, h.totals.BlockTimeout().DropNewest())
    case CountNewest => (ch, h.totals.DropNewest())
    case Release => (ch, h.totals)
  }

  function Again(c: Config, ch: Channel, totals: Totals, x: Item): (Channel, Totals) {
    if |ch.queue| < c.capacity then (ch.Put(x), totals.Enqueued()) else (ch, totals.DropNewest())
  }

  function Timed(c: Config, ch: Channel, totals: Totals, x: Item): (Channel, Totals) {
    if |ch.queue| < c.capacity then (ch.Put(x), totals.Enqueued())
    else (ch, totals.BlockTimeout().DropNewest())
  }

  function Rank(pc: ProducerPc): nat {
    match pc
    case Check(_) => 9
    case TryPut(_) => 8
    case CountBlocked(_) => 7
    case Evict(_) => 7
    case SettleEvicted(_) => 6
    case TimedPut(_) => 6
    case CountOldest(_) => 5
    case PutAgain(_) => 4
    case CountTimeout => 3
    case CountNewest => 2
    case CountEnqueued => 2
    case Release => 1
  }

  lemma OutcomeStep(c: Config, ch: Channel, h: Handler)
    requires h.lock.Producing? && c.capacity > 0
    ensures var (ch', h') := ProducerStep(c, ch, h);
            if h.lock.pc.Release? then h'.lock.Free? && (ch', h'.totals) == Outcome(c, ch, h)
            else h'.lock.Producing? && Rank(h'.lock.pc) < Rank(h.lock.pc) && Outcome(c, ch', h') == Outcome(c, ch, h)
  {
  }

  predicate ProduceOnly(steps: seq<Step>) {
    forall i :: 0 <= i < |steps| ==> steps[i].Produce?
  }

  lemma {:induction false} ProducerFinishes(c: Config, s: State) returns (steps: seq<Step>, t: State)
    requires s.handler.lock.Producing? && c.capacity > 0
    ensures ProduceOnly(steps) && Leads(c, s, steps, t) && t.handler.lock.Free?
    ensures (t.ch, t.handler.totals) == Outcome(c, s.ch, s.handler)
    decreases Rank(s.handler.lock.pc)
  {
    OutcomeStep(c, s.ch, s.handler);
    var m := Apply(c, s, Produce);
    var rest := [];
    t := m;
    if !s.handler.lock.pc.Release? {
      rest, t := ProducerFinishes(c, m);
    }
    LeadsCons(c, s, Produce, rest, t);
    steps := [Produce] + rest;
  }

  /**
   The object's `Enqueue` without interference is a run of this protocol: from a free lock, one thread's
   steps alone end with the queue and the totals it computes.
   */
  lemma EnqueueIsARun(c: Config, s: State, id: nat, level: int)
    requires s.handler.lock.Free? && s.handler.accepting && c.capacity > 0
    ensures exists rest, t ::
              && ProduceOnly(rest) && Leads(c, s, [Acquire(id, level)] + rest, t) && t.handler.lock.Free?
              && (t.ch, t.handler.totals)
                 == LogQueue.EnqueueAlone(c.policy, c.capacity, s.ch, s.handler.totals, Record(id, level))
  {
    var rest, t := ProducerFinishes(c, Apply(c, s, Acquire(id, level)));
    LeadsCons(c, s, Acquire(id, level), rest, t);
  }

  /**
   A run that shows `drop_oldest` evicting a flush marker: one eviction in the totals, no record lost,
   and a flush that can no longer succeed.
   */
  lemma MarkerCanBeEvicted(c: Config) returns (steps: seq<Step>, s: State)
    requires c.capacity == 1 && c.policy.DropOldest?
    ensures Leads(c, Init(c), steps, s) && s.handler.lock.Free?
    ensures s.handler.totals.droppedOldest == 1 && Count(s.ch.departed, LogQueue.EvictedRecord) == 0
    ensures 7 in s.flushes && s.ch.departed == [Departure(Marker(7), Evicted)]
  {
    var s1 := Apply(c, Init(c), PutMarker(7));
    var rest;
    rest, s := OneEnqueue(c, s1, Record(1, 0));
    LeadsCons(c, Init(c), PutMarker(7), rest, s);
    steps := [PutMarker(7)] + rest;
    EvictsTheMarker(7, Record(1, 0));
    CountZero(s.ch.departed, LogQueue.EvictedRecord);
  }

  /** One uninterrupted `enqueue`, as a run that leaves the markers alone. */
  lemma OneEnqueue(c: Config, s: State, x: Item) returns (steps: seq<Step>, t: State)
    requires s.handler.lock.Free? && s.handler.accepting && c.capacity > 0 && x.Record?
    ensures Leads(c, s, steps, t) && t.handler.lock.Free? && t.flushes == s.flushes
    ensures (t.ch, t.handler.totals) == LogQueue.EnqueueAlone(c.policy, c.capacity, s.ch, s.handler.totals, x)
  {
    var acquire := Acquire(x.id, x.level);
    var rest;
    rest, t := ProducerFinishes(c, Apply(c, s, acquire));
    LeadsCons(c, s, acquire, rest, t);
    ProduceKeepsFlushes(c, Apply(c, s, acquire), rest, t);
    steps := [acquire] + rest;
  }

  /** A record arriving at a full queue of one marker replaces the marker. */
  lemma EvictsTheMarker(id: nat, x: Item)
    ensures var (ch, totals) := LogQueue.EnqueueAlone(DropOldest, 1, EMPTY.Put(Marker(id)), ZERO, x);
            ch.departed == [Departure(Marker(id), Evicted)] && totals == ZERO.DropOldest().Enqueued()
  {
    var full := EMPTY.Put(Marker(id));
    assert full.queue == [Marker(id)];
    assert full.Remove(Evicted).TaskDone().departed == [Departure(Marker(id), Evicted)];
  }

  lemma {:induction false} ProduceKeepsFlushes(c: Config, s: State, steps: seq<Step>, t: State)
    requires ProduceOnly(steps) && Leads(c, s, steps, t)
    ensures t.flushes == s.flushes
    decreases |steps|
  {
    if steps != [] {
      assert ProduceOnly(steps[1..]);
      ProduceKeepsFlushes(c, Apply(c, s, steps[0]), steps[1..], t);
    }
  }
}
