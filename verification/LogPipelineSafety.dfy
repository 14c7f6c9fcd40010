/** What every step of the log pipeline keeps, for every interleaving. */
module LogPipelineSafety {
  import opened Counting
  import opened LogItems
  import opened LogPipeline

  // ---------------------------------------------------------------- deliveries

  /** The admissions an output of this level must have been given once all of `departed` is handled. */
  ghost function Expected(departed: seq<Departure>, level: int): seq<nat> {
    if departed == [] then []
    else
      var n := |departed| - 1;
      Expected(departed[..n], level) + (if Due(departed[n], level) then [n] else [])
  }

  predicate Due(d: Departure, level: int) {
    d.fate.Taken? && d.item.Record? && d.item.level >= level
  }

  lemma ExpectedAppend(departed: seq<Departure>, d: Departure, level: int)
    ensures Expected(departed + [d], level) ==
            Expected(departed, level) + (if Due(d, level) then [|departed|] else [])
  {
    assert (departed + [d])[..|departed|] == departed;
  }

  /** `Expected` is exactly the due admissions, in order. */
  lemma {:induction false} ExpectedMeaning(departed: seq<Departure>, level: int)
    ensures forall p: nat :: p in Expected(departed, level) <==> p < |departed| && Due(departed[p], level)
    ensures forall i, j :: 0 <= i < j < |Expected(departed, level)| ==>
              Expected(departed, level)[i] < Expected(departed, level)[j]
  {
    if departed != [] {
      var n := |departed| - 1;
      ExpectedMeaning(departed[..n], level);
      var e := Expected(departed[..n], level);
      forall i, j | 0 <= i < j < |Expected(departed, level)|
        ensures Expected(departed, level)[i] < Expected(departed, level)[j]
      {
        assert e[i] in e;
      }
    }
  }

  /** Nothing due at or after `pos`: the expectation is that of the items before it. */
  lemma {:induction false} ExpectedTail(departed: seq<Departure>, pos: nat, level: int)
    requires pos <= |departed|
    requires forall i :: pos <= i < |departed| ==> !Due(departed[i], level)
    ensures Expected(departed, level) == Expected(departed[..pos], level)
    decreases |departed|
  {
    if pos == |departed| {
      assert departed[..pos] == departed;
    } else {
      var n := |departed| - 1;
      ExpectedTail(departed[..n], pos, level);
      assert departed[..n][..pos] == departed[..pos];
    }
  }

  // ---------------------------------------------------------------- invariants

  ghost predicate QueueInv(c: Config, ch: Channel) {
    ch.Fifo() && |ch.queue| <= c.capacity
  }

  /** The record is in the queue but not yet in `enqueued_total`. */
  predicate PutUncounted(h: Handler) { h.lock.Producing? && h.lock.pc.CountEnqueued? }

  /** An item was evicted but its `task_done` is still to come. */
  predicate EvictionUnsettled(h: Handler) { h.lock.Producing? && h.lock.pc.SettleEvicted? }

  /** An item was evicted but is not yet in `dropped_oldest_total`. */
  predicate EvictionUncounted(h: Handler) {
    h.lock.Producing? && (h.lock.pc.SettleEvicted? || h.lock.pc.CountOldest?)
  }

  /** A producer past the `_accepting` test, still to touch the queue or the totals. */
  predicate Active(h: Handler) {
    h.lock.Producing? && !h.lock.pc.Check? && !h.lock.pc.Release?
  }

  /** The lock holder is on the `drop_oldest` path. */
  predicate Evicting(h: Handler) {
    EvictionUncounted(h) || (h.lock.Producing? && (h.lock.pc.Evict? || h.lock.pc.PutAgain?))
  }

  ghost predicate AdmittedInv(ch: Channel, h: Handler, flushes: map<nat, Flush>) {
    && Count(ch.admitted, IsRecord) == h.totals.enqueued + Bit(PutUncounted(h))
    && Count(ch.admitted, IsMarker) == |flushes|
  }

  ghost predicate EvictedInv(c: Config, ch: Channel, h: Handler) {
    && Count(ch.departed, WasEvicted) == h.totals.droppedOldest + Bit(EvictionUncounted(h))
    && (!c.policy.DropOldest? ==> !Evicting(h) && Count(ch.departed, WasEvicted) == 0)
  }

  ghost predicate CallsInv(h: Handler) {
    && h.totals.dropped == h.totals.droppedOldest + h.totals.droppedNewest
    && h.totals.enqueued + h.totals.droppedNewest + Bit(Active(h)) == h.calls + h.prepareErrors
  }

  /** The listener holds an item whose `task_done` is still to come. */
  predicate Holding(b: Listener) {
    b.pc.Handling? || b.pc.Settling? || b.pc.Leaving? || b.pc.Crashed?
  }

  ghost predicate TasksInv(ch: Channel, h: Handler, b: Listener) {
    ch.unfinished == |ch.queue| + Bit(Holding(b)) + Bit(EvictionUnsettled(h))
  }

  /** Admissions stop for good before the stopper reaches the sentinel. */
  ghost predicate GateInv(h: Handler, t: Stopper) {
    && (t.pc.AtClose? || t.pc.Unlocking? <==> h.lock.Closing?)
    && (!t.pc.Ready? && !t.pc.AtClose? ==> !h.accepting)
    && (t.sentinelNoted || t.outputsClosed ==> !h.accepting)
    && (Active(h) ==> h.accepting)
    && (h.lock.Producing? ==> HoldsRecord(h.lock.pc))
  }

  predicate HoldsRecord(pc: ProducerPc) {
    (pc.Check? || pc.TryPut? || pc.Evict? || pc.SettleEvicted? || pc.CountOldest? || pc.PutAgain?
     || pc.CountBlocked? || pc.TimedPut?)
    ==> pc.item.Record?
  }

  /** One sentinel at most, only after admissions stopped; only markers follow it; it is never evicted. */
  ghost predicate SentinelInv(ch: Channel, h: Handler, t: Stopper) {
    && Count(ch.admitted, IsSentinel) == Bit(t.sentinelNoted || t.pc.Noting?)
    && (t.pc.Noting? ==> !t.sentinelNoted)
    && (h.accepting ==> forall i :: 0 <= i < |ch.admitted| ==> !ch.admitted[i].Sentinel?)
    && (forall i, j :: 0 <= i < j < |ch.admitted| && ch.admitted[i].Sentinel? ==> ch.admitted[j].Marker?)
  }

  ghost predicate ClosedInv(b: Listener, t: Stopper) {
    t.outputsClosed || t.pc.Joined? || t.pc.Finished? ==> !Alive(b)
  }

  predicate NoSentinel(departed: seq<Departure>) {
    forall i :: 0 <= i < |departed| ==> !departed[i].item.Sentinel?
  }

  /** The item at `pos` is the last one taken, and outputs before `next` are done with it. */
  predicate InHand(c: Config, departed: seq<Departure>, pos: nat, next: nat) {
    && pos < |departed| && next <= |c.levels|
    && departed[pos].fate.Taken?
    && NoSentinel(departed)
    && forall i :: pos < i < |departed| ==> departed[i].fate.Evicted?
  }

  predicate EndsAtSentinel(departed: seq<Departure>) {
    && departed != []
    && departed[|departed| - 1] == Departure(Sentinel, Taken)
    && NoSentinel(departed[..|departed| - 1])
  }

  /** What the listener is doing, in terms of what has left the queue. */
  predicate ListenerInv(c: Config, departed: seq<Departure>, b: Listener) {
    && |b.delivered| == |c.levels|
    && match b.pc
       case Handling(pos, next) => InHand(c, departed, pos, next)
       case Crashed(pos, next) => InHand(c, departed, pos, next) && departed[pos].item.Record?
       case Leaving => EndsAtSentinel(departed)
       case Exited => EndsAtSentinel(departed)
       case _ => NoSentinel(departed)
  }

  /** The departures output `o` is done with: without the item in hand if `o` is still to come. */
  function DoneWith(departed: seq<Departure>, pc: ListenerPc, o: nat): seq<Departure> {
    if (pc.Handling? || pc.Crashed?) && pc.pos <= |departed| && o >= pc.next then departed[..pc.pos]
    else departed
  }

  /** Each output was given exactly the due records among the departures it is done with, in order. */
  ghost predicate DeliveryInv(c: Config, departed: seq<Departure>, b: Listener) {
    && |b.delivered| == |c.levels|
    && forall o: nat :: o < |c.levels| ==>
         b.delivered[o] == Expected(DoneWith(departed, b.pc, o), c.levels[o])
  }

  /** The listener has not gone past position `pos`. */
  predicate NotPast(pc: ListenerPc, pos: nat) {
    (pc.Handling? || pc.Crashed?) && pc.pos <= pos
  }

  /** A marker's fields against its place in the queue. */
  ghost predicate FlushInv(c: Config, ch: Channel, b: Listener, id: nat, f: Flush) {
    && f.pos < |ch.admitted| && ch.admitted[f.pos] == Marker(id)
    && (f.done ==> f.pos < |ch.departed| && ch.departed[f.pos].fate.Taken? && !NotPast(b.pc, f.pos))
    && (f.done && f.succeeded ==> forall o: nat :: o < |c.levels| ==> o in f.flushed)
    && (b.pc.Handling? && b.pc.pos == f.pos && f.succeeded ==> forall o: nat :: o < b.pc.next ==> o in f.flushed)
    && (f.result == Returned(true) ==> f.done && f.succeeded)
    && (forall o: nat :: o in f.flushed ==> FlushedAfter(c, ch.departed, b, f, o))
  }

  /** When output `o` was flushed for this marker it had been given exactly what was due before the marker. */
  ghost predicate FlushedAfter(c: Config, departed: seq<Departure>, b: Listener, f: Flush, o: nat)
    requires o in f.flushed
  {
    && o < |c.levels| == |b.delivered|
    && f.pos < |departed|
    && f.flushed[o] <= |b.delivered[o]|
    && b.delivered[o][..f.flushed[o]] == Expected(departed[..f.pos], c.levels[o])
  }

  ghost predicate FlushesInv(c: Config, ch: Channel, b: Listener, flushes: map<nat, Flush>) {
    && (forall id :: id in flushes ==> FlushInv(c, ch, b, id, flushes[id]))
    && (forall i: nat :: i < |ch.admitted| && ch.admitted[i].Marker? ==>
          ch.admitted[i].id in flushes && flushes[ch.admitted[i].id].pos == i)
  }

  ghost predicate Inv(c: Config, s: State) {
    && QueueInv(c, s.ch)
    && AdmittedInv(s.ch, s.handler, s.flushes)
    && EvictedInv(c, s.ch, s.handler)
    && CallsInv(s.handler)
    && TasksInv(s.ch, s.handler, s.listener)
    && GateInv(s.handler, s.stopper)
    && SentinelInv(s.ch, s.handler, s.stopper)
    && ClosedInv(s.listener, s.stopper)
    && ListenerInv(c, s.ch.departed, s.listener)
    && DeliveryInv(c, s.ch.departed, s.listener)
    && FlushesInv(c, s.ch, s.listener, s.flushes)
  }

  lemma InitDeliveries(c: Config)
    ensures var s := Init(c);
            DeliveryInv(c, s.ch.departed, s.listener) && FlushesInv(c, s.ch, s.listener, s.flushes)
  {
  }

  lemma InitCounters(c: Config)
    ensures var s := Init(c);
            && QueueInv(c, s.ch) && AdmittedInv(s.ch, s.handler, s.flushes) && EvictedInv(c, s.ch, s.handler)
            && CallsInv(s.handler) && TasksInv(s.ch, s.handler, s.listener)
  {
  }

  lemma InitControl(c: Config)
    ensures var s := Init(c);
            && GateInv(s.handler, s.stopper) && SentinelInv(s.ch, s.handler, s.stopper)
            && ClosedInv(s.listener, s.stopper) && ListenerInv(c, s.ch.departed, s.listener)
  {
  }

  lemma InitInv(c: Config)
    ensures Inv(c, Init(c))
  {
    InitDeliveries(c);
    InitCounters(c);
    InitControl(c);
  }

  // ---------------------------------------------------------------- one producer operation

  lemma ProducerQueue(c: Config, ch: Channel, h: Handler)
    requires QueueInv(c, ch) && h.lock.Producing?
    ensures QueueInv(c, ProducerStep(c, ch, h).0)
  {
  }

  lemma ProducerGate(c: Config, ch: Channel, h: Handler, t: Stopper)
    requires GateInv(h, t) && h.lock.Producing?
    ensures GateInv(ProducerStep(c, ch, h).1, t)
  {
  }

  lemma ProducerCalls(c: Config, ch: Channel, h: Handler)
    requires CallsInv(h) && h.lock.Producing?
    ensures CallsInv(ProducerStep(c, ch, h).1)
  {
  }

  lemma ProducerTasks(c: Config, ch: Channel, h: Handler, b: Listener)
    requires TasksInv(ch, h, b) && h.lock.Producing?
    ensures var (ch', h') := ProducerStep(c, ch, h); TasksInv(ch', h', b)
  {
  }

  ghost predicate AdmitsRecord(ch: Channel, ch': Channel) {
    exists x: Item :: x.Record? && ch'.admitted == ch.admitted + [x]
  }

  ghost predicate Evicts(ch: Channel, ch': Channel) {
    exists x: Item :: ch'.departed == ch.departed + [Departure(x, Evicted)]
  }

  /** A record was put and now waits to be counted, or nothing was put and the count caught up. */
  ghost predicate AdmittedMove(ch: Channel, h: Handler, ch': Channel, h': Handler) {
    || (ch'.admitted == ch.admitted
        && h'.totals.enqueued + Bit(PutUncounted(h')) == h.totals.enqueued + Bit(PutUncounted(h)))
    || (AdmitsRecord(ch, ch')
        && h'.totals.enqueued + Bit(PutUncounted(h')) == h.totals.enqueued + Bit(PutUncounted(h)) + 1)
  }

  lemma AdmittedMoveKeeps(ch: Channel, h: Handler, ch': Channel, h': Handler, flushes: map<nat, Flush>)
    requires AdmittedInv(ch, h, flushes) && AdmittedMove(ch, h, ch', h')
    ensures AdmittedInv(ch', h', flushes)
  {
    if ch'.admitted != ch.admitted {
      var x: Item :| x.Record? && ch'.admitted == ch.admitted + [x];
      CountAppend(ch.admitted, x, IsRecord);
      CountAppend(ch.admitted, x, IsMarker);
    }
  }

  lemma ProducerAdmitted(c: Config, ch: Channel, h: Handler, t: Stopper)
    requires GateInv(h, t) && h.lock.Producing?
    ensures var (ch', h') := ProducerStep(c, ch, h); AdmittedMove(ch, h, ch', h')
  {
    var (ch', h') := ProducerStep(c, ch, h);
    if h.lock.pc.TryPut? || h.lock.pc.PutAgain? || h.lock.pc.TimedPut? {
      assert ch' == ch || ch' == ch.Put(h.lock.pc.item);
    }
  }

  /** An item was evicted and now waits to be counted, or nothing was evicted and the count caught up. */
  ghost predicate EvictedMove(ch: Channel, h: Handler, ch': Channel, h': Handler) {
    || (ch'.departed == ch.departed
        && h'.totals.droppedOldest + Bit(EvictionUncounted(h'))
           == h.totals.droppedOldest + Bit(EvictionUncounted(h)))
    || (Evicts(ch, ch') && Evicting(h)
        && h'.totals.droppedOldest + Bit(EvictionUncounted(h'))
           == h.totals.droppedOldest + Bit(EvictionUncounted(h)) + 1)
  }

  lemma EvictedMoveKeeps(c: Config, ch: Channel, h: Handler, ch': Channel, h': Handler)
    requires EvictedInv(c, ch, h) && EvictedMove(ch, h, ch', h')
    requires !c.policy.DropOldest? ==> !Evicting(h')
    ensures EvictedInv(c, ch', h')
  {
    if ch'.departed != ch.departed {
      var x: Item :| ch'.departed == ch.departed + [Departure(x, Evicted)];
      CountAppend(ch.departed, Departure(x, Evicted), WasEvicted);
    }
  }

  lemma ProducerEvicted(c: Config, ch: Channel, h: Handler)
    requires h.lock.Producing? && (!c.policy.DropOldest? ==> !Evicting(h))
    ensures var (ch', h') := ProducerStep(c, ch, h);
            EvictedMove(ch, h, ch', h') && (!c.policy.DropOldest? ==> !Evicting(h'))
  {
    var (ch', h') := ProducerStep(c, ch, h);
    if h.lock.pc.Evict? && ch.queue != [] {
      assert ch'.departed == ch.departed + [Departure(ch.queue[0], Evicted)];
    }
  }

  /** A producer puts nothing but its record, and only while the gate is open. */
  lemma ProducerPuts(c: Config, ch: Channel, h: Handler, t: Stopper)
    requires GateInv(h, t) && h.lock.Producing?
    ensures var (ch', h') := ProducerStep(c, ch, h);
            && h'.accepting == h.accepting
            && (ch'.admitted != ch.admitted ==>
                  && h.accepting
                  && (h.lock.pc.TryPut? || h.lock.pc.PutAgain? || h.lock.pc.TimedPut?)
                  && h.lock.pc.item.Record?
                  && ch'.admitted == ch.admitted + [h.lock.pc.item])
  {
    assert HoldsRecord(h.lock.pc);
  }

  lemma RecordSentinel(ch: Channel, h: Handler, ch': Channel, h': Handler, t: Stopper, x: Item)
    requires SentinelInv(ch, h, t) && h.accepting && h'.accepting
    requires x.Record? && ch'.admitted == ch.admitted + [x]
    ensures SentinelInv(ch', h', t)
  {
    CountAppend(ch.admitted, x, IsSentinel);
    assert forall i :: 0 <= i < |ch.admitted| ==> ch'.admitted[i] == ch.admitted[i];
    assert ch'.admitted[|ch.admitted|] == x;
  }

  lemma ProducerSentinel(c: Config, ch: Channel, h: Handler, t: Stopper)
    requires SentinelInv(ch, h, t) && GateInv(h, t) && h.lock.Producing?
    ensures var (ch', h') := ProducerStep(c, ch, h); SentinelInv(ch', h', t)
  {
    var (ch', h') := ProducerStep(c, ch, h);
    ProducerPuts(c, ch, h, t);
    if ch'.admitted != ch.admitted {
      RecordSentinel(ch, h, ch', h', t, h.lock.pc.item);
    }
  }

  // ---------------------------------------------------------------- the listener's view

  /** The histories change by nothing, by one admission, or by an eviction while no sentinel has left or leaves. */
  ghost predicate Grows(ch: Channel, ch': Channel) {
    || (ch'.admitted == ch.admitted && ch'.departed == ch.departed)
    || (exists x :: ch'.admitted == ch.admitted + [x] && ch'.departed == ch.departed)
    || (ch'.admitted == ch.admitted && NoSentinel(ch.departed)
        && exists x: Item :: !x.Sentinel? && ch'.departed == ch.departed + [Departure(x, Evicted)])
  }

  /** A producer never evicts the sentinel: it acts only while there is none. */
  lemma ProducerGrows(c: Config, ch: Channel, h: Handler, t: Stopper)
    requires QueueInv(c, ch) && SentinelInv(ch, h, t) && GateInv(h, t) && h.lock.Producing?
    ensures Grows(ch, ProducerStep(c, ch, h).0)
  {
    var ch' := ProducerStep(c, ch, h).0;
    if h.lock.pc.TryPut? || h.lock.pc.PutAgain? || h.lock.pc.TimedPut? {
      assert ch' == ch || ch'.admitted == ch.admitted + [h.lock.pc.item];
    } else if h.lock.pc.Evict? && ch.queue != [] {
      assert ch.queue[0] == ch.admitted[|ch.departed|];
      assert ch'.departed == ch.departed + [Departure(ch.queue[0], Evicted)];
    }
  }

  lemma GrowsListener(c: Config, ch: Channel, ch': Channel, b: Listener)
    requires Grows(ch, ch') && ListenerInv(c, ch.departed, b)
    ensures ListenerInv(c, ch'.departed, b)
  {
  }

  lemma GrowsDelivery(c: Config, ch: Channel, ch': Channel, b: Listener)
    requires Grows(ch, ch') && ListenerInv(c, ch.departed, b) && DeliveryInv(c, ch.departed, b)
    ensures DeliveryInv(c, ch'.departed, b)
  {
    if ch'.departed != ch.departed {
      var d := ch'.departed[|ch.departed|];
      assert ch'.departed == ch.departed + [d];
      forall o: nat | o < |c.levels|
        ensures b.delivered[o] == Expected(DoneWith(ch'.departed, b.pc, o), c.levels[o])
      {
        if DoneWith(ch.departed, b.pc, o) == ch.departed {
          ExpectedAppend(ch.departed, d, c.levels[o]);
        } else {
          assert ch'.departed[..b.pc.pos] == ch.departed[..b.pc.pos];
        }
      }
    }
  }

  lemma GrowsFlush(c: Config, ch: Channel, ch': Channel, b: Listener, id: nat, f: Flush)
    requires Grows(ch, ch') && FlushInv(c, ch, b, id, f)
    ensures FlushInv(c, ch', b, id, f)
  {
    forall o: nat | o in f.flushed
      ensures FlushedAfter(c, ch'.departed, b, f, o)
    {
      assert FlushedAfter(c, ch.departed, b, f, o);
      assert ch'.departed[..f.pos] == ch.departed[..f.pos];
    }
  }

  // ---------------------------------------------------------------- one listener operation

  lemma ListenerQueue(c: Config, ch: Channel, b: Listener, step: ListenerStep)
    requires QueueInv(c, ch) && ListenerEnabled(c, ch, b, step)
    ensures var ch' := ListenerChannel(c, ch, b, step);
            QueueInv(c, ch') && ch'.admitted == ch.admitted && ch.departed <= ch'.departed
    ensures step.Get? ==> ch.queue[0] == ch.admitted[|ch.departed|]
  {
  }

  lemma ListenerTasks(c: Config, ch: Channel, h: Handler, b: Listener, step: ListenerStep)
    requires TasksInv(ch, h, b) && ListenerEnabled(c, ch, b, step)
    ensures TasksInv(ListenerChannel(c, ch, b, step), h, ListenerNext(c, ch, b, step))
  {
  }

  lemma ListenerEvicted(c: Config, ch: Channel, h: Handler, b: Listener, step: ListenerStep)
    requires EvictedInv(c, ch, h) && ListenerEnabled(c, ch, b, step)
    ensures EvictedInv(c, ListenerChannel(c, ch, b, step), h)
  {
    if step.Get? {
      CountAppend(ch.departed, Departure(ch.queue[0], Taken), WasEvicted);
    }
  }

  lemma ListenerKept(c: Config, ch: Channel, b: Listener, step: ListenerStep)
    requires ListenerInv(c, ch.departed, b) && ListenerEnabled(c, ch, b, step)
    ensures ListenerInv(c, ListenerChannel(c, ch, b, step).departed, ListenerNext(c, ch, b, step))
  {
    var ch' := ListenerChannel(c, ch, b, step);
    if step.Get? {
      assert ch'.departed[..|ch.departed|] == ch.departed;
    }
  }

  lemma ListenerDelivery(c: Config, ch: Channel, b: Listener, step: ListenerStep)
    requires ListenerInv(c, ch.departed, b) && DeliveryInv(c, ch.departed, b) && ListenerEnabled(c, ch, b, step)
    ensures DeliveryInv(c, ListenerChannel(c, ch, b, step).departed, ListenerNext(c, ch, b, step))
  {
    var ch' := ListenerChannel(c, ch, b, step);
    var b' := ListenerNext(c, ch, b, step);
    forall o: nat | o < |c.levels|
      ensures b'.delivered[o] == Expected(DoneWith(ch'.departed, b'.pc, o), c.levels[o])
    {
      match step
      case Get => GetDelivers(c, ch, b, o);
      case Offer => PassDelivers(c, ch, b, o);
      case FlushOutput(_) => PassDelivers(c, ch, b, o);
      case _ =>
    }
  }

  /** Taking an item owes nothing to any output yet. */
  lemma GetDelivers(c: Config, ch: Channel, b: Listener, o: nat)
    requires ListenerEnabled(c, ch, b, Get) && o < |c.levels|
    ensures var d := ListenerChannel(c, ch, b, Get).departed;
            Expected(DoneWith(d, ListenerNext(c, ch, b, Get).pc, o), c.levels[o])
            == Expected(ch.departed, c.levels[o])
  {
    var d := ch.Remove(Taken).departed;
    assert d[..|ch.departed|] == ch.departed;
    ExpectedAppend(ch.departed, d[|ch.departed|], c.levels[o]);
  }

  /** Passing an output adds the item in hand to what that output is due, if it is due at all. */
  lemma PassDelivers(c: Config, ch: Channel, b: Listener, o: nat)
    requires ListenerInv(c, ch.departed, b) && AtOutput(c, ch, b) && o < |c.levels|
    ensures Expected(DoneWith(ch.departed, Handling(b.pc.pos, b.pc.next + 1), o), c.levels[o]) ==
            Expected(DoneWith(ch.departed, b.pc, o), c.levels[o])
            + (if o == b.pc.next && Due(ch.departed[b.pc.pos], c.levels[o]) then [b.pc.pos] else [])
  {
    if o == b.pc.next {
      var pos := b.pc.pos;
      ExpectedTail(ch.departed, pos + 1, c.levels[o]);
      assert ch.departed[..pos + 1] == ch.departed[..pos] + [ch.departed[pos]];
      ExpectedAppend(ch.departed[..pos], ch.departed[pos], c.levels[o]);
    }
  }

  /** The listener works on the marker of flush `id` in this step. */
  predicate Answers(ch: Channel, b: Listener, step: ListenerStep, id: nat) {
    (step.FlushOutput? || step.Handled?) && b.pc.Handling? && b.pc.pos < |ch.departed|
    && ch.departed[b.pc.pos].item == Marker(id)
  }

  /** A flush the listener is not answering keeps its invariant, whatever the listener does. */
  lemma OtherFlush(c: Config, ch: Channel, b: Listener, step: ListenerStep, id: nat, f: Flush)
    requires QueueInv(c, ch) && ListenerInv(c, ch.departed, b) && ListenerEnabled(c, ch, b, step)
    requires FlushInv(c, ch, b, id, f) && !Answers(ch, b, step, id)
    ensures FlushInv(c, ListenerChannel(c, ch, b, step), ListenerNext(c, ch, b, step), id, f)
  {
    var ch', b' := ListenerChannel(c, ch, b, step), ListenerNext(c, ch, b, step);
    forall o: nat | o in f.flushed
      ensures FlushedAfter(c, ch'.departed, b', f, o)
    {
      assert FlushedAfter(c, ch.departed, b, f, o);
      assert ch'.departed[..f.pos] == ch.departed[..f.pos];
      assert b'.delivered[o][..f.flushed[o]] == b.delivered[o][..f.flushed[o]];
    }
  }

  /** Flushing an output for a marker records exactly what was due before the marker. */
  lemma AnsweredOutput(c: Config, ch: Channel, b: Listener, step: ListenerStep, id: nat, f: Flush)
    requires ListenerInv(c, ch.departed, b) && DeliveryInv(c, ch.departed, b)
    requires step.FlushOutput? && ListenerEnabled(c, ch, b, step) && Answers(ch, b, step, id)
    requires FlushInv(c, ch, b, id, f) && f.pos == b.pc.pos
    ensures var f' := if step.ok then f.(flushed := f.flushed[b.pc.next := |b.delivered[b.pc.next]|])
                      else f.(succeeded := false);
            FlushInv(c, ch, ListenerNext(c, ch, b, step), id, f')
  {
    var b' := ListenerNext(c, ch, b, step);
    var o' := b.pc.next;
    assert b.delivered[o'][..|b.delivered[o']|] == b.delivered[o'];
    assert b.delivered[o'] == Expected(ch.departed[..f.pos], c.levels[o']);
    var f' := if step.ok then f.(flushed := f.flushed[o' := |b.delivered[o']|]) else f.(succeeded := false);
    forall o: nat | o in f'.flushed
      ensures FlushedAfter(c, ch.departed, b', f', o)
    {
      assert o == o' || FlushedAfter(c, ch.departed, b, f, o);
    }
  }

  lemma AnsweredDone(c: Config, ch: Channel, b: Listener, id: nat, f: Flush)
    requires ListenerInv(c, ch.departed, b) && ListenerEnabled(c, ch, b, Handled)
    requires FlushInv(c, ch, b, id, f) && f.pos == b.pc.pos
    ensures FlushInv(c, ch, ListenerNext(c, ch, b, Handled), id, f.(done := true))
  {
    var b' := ListenerNext(c, ch, b, Handled);
    forall o: nat | o in f.flushed
      ensures FlushedAfter(c, ch.departed, b', f.(done := true), o)
    {
      assert FlushedAfter(c, ch.departed, b, f, o);
    }
  }

  lemma ListenerFlushesKept(c: Config, ch: Channel, b: Listener, flushes: map<nat, Flush>, step: ListenerStep)
    requires QueueInv(c, ch) && ListenerInv(c, ch.departed, b) && DeliveryInv(c, ch.departed, b)
    requires FlushesInv(c, ch, b, flushes) && ListenerEnabled(c, ch, b, step)
    ensures FlushesInv(c, ListenerChannel(c, ch, b, step), ListenerNext(c, ch, b, step),
                       ListenerFlushes(c, ch, b, flushes, step))
    ensures |ListenerFlushes(c, ch, b, flushes, step)| == |flushes|
  {
    var ch', b' := ListenerChannel(c, ch, b, step), ListenerNext(c, ch, b, step);
    var flushes' := ListenerFlushes(c, ch, b, flushes, step);
    assert flushes'.Keys == flushes.Keys;
    forall id | id in flushes'
      ensures FlushInv(c, ch', b', id, flushes'[id]) && flushes'[id].pos == flushes[id].pos
    {
      if !Answers(ch, b, step, id) {
        OtherFlush(c, ch, b, step, id, flushes[id]);
      } else {
        assert ch.admitted[b.pc.pos] == Marker(id);
        if step.Handled? {
          AnsweredDone(c, ch, b, id, flushes[id]);
        } else {
          AnsweredOutput(c, ch, b, step, id, flushes[id]);
        }
      }
    }
    ListenerQueue(c, ch, b, step);
    assert |flushes'.Keys| == |flushes.Keys|;
  }

  // ---------------------------------------------------------------- every step

  lemma ProduceKeeps(c: Config, s: State)
    requires Inv(c, s) && s.handler.lock.Producing?
    ensures Inv(c, Apply(c, s, Produce))
  {
    var (ch', h') := ProducerStep(c, s.ch, s.handler);
    ProducerQueue(c, s.ch, s.handler);
    ProducerGate(c, s.ch, s.handler, s.stopper);
    ProducerCalls(c, s.ch, s.handler);
    ProducerTasks(c, s.ch, s.handler, s.listener);
    ProducerAdmitted(c, s.ch, s.handler, s.stopper);
    AdmittedMoveKeeps(s.ch, s.handler, ch', h', s.flushes);
    ProducerEvicted(c, s.ch, s.handler);
    EvictedMoveKeeps(c, s.ch, s.handler, ch', h');
    ProducerSentinel(c, s.ch, s.handler, s.stopper);
    ProducerGrows(c, s.ch, s.handler, s.stopper);
    GrowsListener(c, s.ch, ch', s.listener);
    GrowsDelivery(c, s.ch, ch', s.listener);
    assert AdmitsRecord(s.ch, ch') || ch'.admitted == s.ch.admitted;
    GrowsFlushes(c, s.ch, ch', s.listener, s.flushes);
  }

  /** A new admission that is no marker leaves every flush as it was. */
  lemma GrowsFlushes(c: Config, ch: Channel, ch': Channel, b: Listener, flushes: map<nat, Flush>)
    requires Grows(ch, ch') && FlushesInv(c, ch, b, flushes)
    requires |ch'.admitted| > |ch.admitted| ==> !ch'.admitted[|ch.admitted|].Marker?
    ensures FlushesInv(c, ch', b, flushes)
  {
    forall id | id in flushes
      ensures FlushInv(c, ch', b, id, flushes[id])
    {
      GrowsFlush(c, ch, ch', b, id, flushes[id]);
    }
  }

  /** What the listener leaves alone, or changes only by ending. */
  lemma ListenerControl(c: Config, s: State, step: ListenerStep)
    requires AdmittedInv(s.ch, s.handler, s.flushes) && SentinelInv(s.ch, s.handler, s.stopper)
    requires ClosedInv(s.listener, s.stopper) && ListenerEnabled(c, s.ch, s.listener, step)
    requires |ListenerFlushes(c, s.ch, s.listener, s.flushes, step)| == |s.flushes|
    ensures var t := Apply(c, s, Listen(step));
            && t.handler == s.handler && t.stopper == s.stopper
            && AdmittedInv(t.ch, t.handler, t.flushes) && SentinelInv(t.ch, t.handler, t.stopper)
            && ClosedInv(t.listener, t.stopper)
  {
    assert ListenerChannel(c, s.ch, s.listener, step).admitted == s.ch.admitted;
  }

  lemma ListenKeeps(c: Config, s: State, step: ListenerStep)
    requires Inv(c, s) && ListenerEnabled(c, s.ch, s.listener, step)
    ensures Inv(c, Apply(c, s, Listen(step)))
  {
    var t := Apply(c, s, Listen(step));
    assert QueueInv(c, t.ch) by {
      ListenerQueue(c, s.ch, s.listener, step);
    }
    assert TasksInv(t.ch, t.handler, t.listener) by {
      ListenerTasks(c, s.ch, s.handler, s.listener, step);
    }
    assert EvictedInv(c, t.ch, t.handler) by {
      ListenerEvicted(c, s.ch, s.handler, s.listener, step);
    }
    assert ListenerInv(c, t.ch.departed, t.listener) by {
      ListenerKept(c, s.ch, s.listener, step);
    }
    assert DeliveryInv(c, t.ch.departed, t.listener) by {
      ListenerDelivery(c, s.ch, s.listener, step);
    }
    ListenerFlushesKept(c, s.ch, s.listener, s.flushes, step);
    ListenerControl(c, s, step);
  }

  /** A put that is no record: what it does to the counts and to the queue. */
  lemma ControlPut(c: Config, ch: Channel, x: Item)
    requires QueueInv(c, ch) && |ch.queue| < c.capacity && !x.Record?
    ensures QueueInv(c, ch.Put(x)) && Grows(ch, ch.Put(x))
    ensures forall h, b :: TasksInv(ch, h, b) ==> TasksInv(ch.Put(x), h, b)
    ensures Count(ch.Put(x).admitted, IsRecord) == Count(ch.admitted, IsRecord)
    ensures Count(ch.Put(x).admitted, IsMarker) == Count(ch.admitted, IsMarker) + Bit(x.Marker?)
    ensures Count(ch.Put(x).admitted, IsSentinel) == Count(ch.admitted, IsSentinel) + Bit(x.Sentinel?)
  {
    CountAppend(ch.admitted, x, IsRecord);
    CountAppend(ch.admitted, x, IsMarker);
    CountAppend(ch.admitted, x, IsSentinel);
  }

  lemma PutMarkerCounts(c: Config, ch: Channel, h: Handler, t: Stopper, flushes: map<nat, Flush>, id: nat, f: Flush)
    requires QueueInv(c, ch) && |ch.queue| < c.capacity && id !in flushes
    requires AdmittedInv(ch, h, flushes) && SentinelInv(ch, h, t)
    ensures QueueInv(c, ch.Put(Marker(id)))
    ensures AdmittedInv(ch.Put(Marker(id)), h, flushes[id := f])
    ensures SentinelInv(ch.Put(Marker(id)), h, t)
  {
    ControlPut(c, ch, Marker(id));
  }

  lemma PutMarkerFlushes(c: Config, s: State, id: nat)
    requires QueueInv(c, s.ch) && ListenerInv(c, s.ch.departed, s.listener)
    requires FlushesInv(c, s.ch, s.listener, s.flushes) && Enabled(c, s, PutMarker(id))
    ensures var s' := Apply(c, s, PutMarker(id)); FlushesInv(c, s'.ch, s'.listener, s'.flushes)
  {
    var s' := Apply(c, s, PutMarker(id));
    forall i | i in s'.flushes
      ensures FlushInv(c, s'.ch, s.listener, i, s'.flushes[i])
    {
      if i != id {
        GrowsFlush(c, s.ch, s'.ch, s.listener, i, s.flushes[i]);
      }
    }
  }

  lemma PutMarkerKeeps(c: Config, s: State, id: nat)
    requires Inv(c, s) && Enabled(c, s, PutMarker(id))
    ensures Inv(c, Apply(c, s, PutMarker(id)))
  {
    PutMarkerCounts(c, s.ch, s.handler, s.stopper, s.flushes, id, Flush(|s.ch.admitted|, false, true, map[], Pending));
    PutMarkerFlushes(c, s, id);
  }

  /** Noting what `flush` returned changes nothing else about the markers. */
  lemma AwaitFlushes(c: Config, s: State, id: nat)
    requires FlushesInv(c, s.ch, s.listener, s.flushes) && Enabled(c, s, Await(id))
    ensures FlushesInv(c, s.ch, s.listener, Apply(c, s, Await(id)).flushes)
  {
    var f := Apply(c, s, Await(id)).flushes[id];
    forall o: nat | o in f.flushed
      ensures FlushedAfter(c, s.ch.departed, s.listener, f, o)
    {
      assert FlushedAfter(c, s.ch.departed, s.listener, s.flushes[id], o);
    }
  }

  lemma AwaitKeeps(c: Config, s: State, id: nat)
    requires Inv(c, s) && Enabled(c, s, Await(id))
    ensures Inv(c, Apply(c, s, Await(id)))
  {
    AwaitFlushes(c, s, id);
    var s' := Apply(c, s, Await(id));
    assert s'.flushes.Keys == s.flushes.Keys;
    assert |s'.flushes.Keys| == |s.flushes.Keys|;
  }

  lemma PutSentinelKeeps(c: Config, s: State)
    requires Inv(c, s) && StopperEnabled(c, s, PutSentinel)
    ensures Inv(c, Apply(c, s, Stop(PutSentinel)))
  {
    CountZero(s.ch.admitted, IsSentinel);
    ControlPut(c, s.ch, Sentinel);
    GrowsFlushes(c, s.ch, s.ch.Put(Sentinel), s.listener, s.flushes);
  }

  lemma StopGate(c: Config, s: State, step: StopperStep)
    requires GateInv(s.handler, s.stopper) && StopperEnabled(c, s, step) && !step.PutSentinel?
    ensures var t := StopperNext(c, s, step);
            GateInv(t.handler, t.stopper) && (t.handler == s.handler || (!Active(s.handler) && !Active(t.handler)))
  {
  }

  lemma StopSentinel(c: Config, s: State, step: StopperStep)
    requires SentinelInv(s.ch, s.handler, s.stopper) && StopperEnabled(c, s, step) && !step.PutSentinel?
    ensures var t := StopperNext(c, s, step); SentinelInv(t.ch, t.handler, t.stopper)
  {
  }

  /** The stopper's other steps move only its own program counter, the lock and the gate. */
  lemma StopKeeps(c: Config, s: State, step: StopperStep)
    requires Inv(c, s) && StopperEnabled(c, s, step) && !step.PutSentinel?
    ensures Inv(c, Apply(c, s, Stop(step)))
  {
    var s' := StopperNext(c, s, step);
    assert s'.ch == s.ch && s'.listener == s.listener && s'.flushes == s.flushes;
    assert s'.handler.totals == s.handler.totals && s'.handler.calls == s.handler.calls;
    StopGate(c, s, step);
    StopSentinel(c, s, step);
  }

  lemma StepKeeps(c: Config, s: State, step: Step)
    requires Inv(c, s) && Enabled(c, s, step)
    ensures Inv(c, Apply(c, s, step))
  {
    match step
    case Acquire(_, _) =>
    case Produce => ProduceKeeps(c, s);
    case PrepareFails =>
    case Listen(l) => ListenKeeps(c, s, l);
    case PutMarker(id) => PutMarkerKeeps(c, s, id);
    case Await(id) => AwaitKeeps(c, s, id);
    case Stop(t) => if t.PutSentinel? { PutSentinelKeeps(c, s); } else { StopKeeps(c, s, t); }
  }

  lemma {:induction false} RunKeeps(c: Config, s: State, steps: seq<Step>, t: State)
    requires Inv(c, s) && Leads(c, s, steps, t)
    ensures Inv(c, t)
    decreases |steps|
  {
    if steps != [] {
      StepKeeps(c, s, steps[0]);
      RunKeeps(c, Apply(c, s, steps[0]), steps[1..], t);
    }
  }

  lemma ReachableInv(c: Config, s: State)
    requires Reachable(c, s)
    ensures Inv(c, s)
  {
    var steps :| Leads(c, Init(c), steps, s);
    InitInv(c);
    RunKeeps(c, Init(c), steps, s);
  }
}
