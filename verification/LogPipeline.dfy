/**
 The log pipeline as a protocol: producers under the handler lock, one listener
 thread, flushers that take no lock, and a stopper that may retry. Every step is
 one operation Python performs without another thread in between.
 */
module LogPipeline {
  import opened LogItems

  // ---------------------------------------------------------------- state

  /** Where the thread inside `OverflowPolicyQueueHandler.enqueue` stands. */
  datatype ProducerPc =
    | Check(item: Item)
    | TryPut(item: Item)
    | CountEnqueued
    | Evict(item: Item)
    | SettleEvicted(item: Item)
    | CountOldest(item: Item)
    | PutAgain(item: Item)
    | CountBlocked(item: Item)
    | TimedPut(item: Item)
    | CountTimeout
    | CountNewest
    | Release

  /** The handler lock and what its holder is doing. */
  datatype Lock = Free | Producing(pc: ProducerPc) | Closing

  /**
   The queue handler. `calls` counts the `enqueue` calls that found it accepting,
   `prepareErrors` the records that failed before `enqueue`.
   */
  datatype Handler = Handler(accepting: bool, lock: Lock, totals: Totals, calls: nat, prepareErrors: nat)

  /** The listener thread. `Handling(pos, next)` works on the item admitted at `pos`, at output `next`. */
  datatype ListenerPc =
    | Waiting
    | Handling(pos: nat, next: nat)
    | Settling
    | Leaving
    | Exited
    | Crashed(pos: nat, next: nat)

  /** The listener and the admissions each output was given, in order. */
  datatype Listener = Listener(pc: ListenerPc, delivered: seq<seq<nat>>)

  datatype StopperPc = Ready | AtClose | Unlocking | Stopping | Noting | Joined | Finished

  /** A teardown: where it stands, `_sentinel_enqueued`, and whether the outputs are closed. */
  datatype Stopper = Stopper(pc: StopperPc, sentinelNoted: bool, outputsClosed: bool)

  datatype FlushResult = Pending | Returned(value: bool)

  /**
   A `_FlushRecord` admitted at `pos`. `flushed[o]` is how many records output `o` had been given
   when its flush for this marker succeeded; `result` is what `flush` returned.
   */
  datatype Flush = Flush(pos: nat, done: bool, succeeded: bool, flushed: map<nat, nat>, result: FlushResult)

  /** Queue bound, overflow policy, and the level of each output. */
  datatype Config = Config(capacity: nat, policy: Policy, levels: seq<int>)

  datatype State = State(
    ch: Channel, handler: Handler, listener: Listener, stopper: Stopper, flushes: map<nat, Flush>)

  function Init(c: Config): State {
    State(EMPTY, Handler(true, Free, ZERO, 0, 0), Listener(Waiting, seq(|c.levels|, _ => [])),
          Stopper(Ready, false, false), map[])
  }

  predicate Alive(b: Listener) { !b.pc.Exited? && !b.pc.Crashed? }

  // ---------------------------------------------------------------- producers

  /** The next operation of the thread holding the handler lock inside `enqueue`. */
  function ProducerStep(c: Config, ch: Channel, h: Handler): (Channel, Handler)
    requires h.lock.Producing?
  {
    match h.lock.pc
    case Check(x) =>
      if h.accepting then (ch, h.(lock := Producing(TryPut(x)), calls := h.calls + 1))
      else (ch, h.(lock := Producing(Release)))
    case TryPut(x) =>
      if |ch.queue| < c.capacity then (ch.Put(x), h.(lock := Producing(CountEnqueued)))
      else (ch, h.(lock := Producing(OnFull(c.policy, x))))
    case CountEnqueued => (ch, h.(totals := h.totals.Enqueued(), lock := Producing(Release)))
    case Evict(x) =>
      if ch.queue == [] then (ch, h.(lock := Producing(PutAgain(x))))
      else (ch.Remove(Evicted), h.(lock := Producing(SettleEvicted(x))))
    case SettleEvicted(x) => (ch.TaskDone(), h.(lock := Producing(CountOldest(x))))
    case CountOldest(x) => (ch, h.(totals := h.totals.DropOldest(), lock := Producing(PutAgain(x))))
    case PutAgain(x) =>
      if |ch.queue| < c.capacity then (ch.Put(x), h.(lock := Producing(CountEnqueued)))
      else (ch, h.(lock := Producing(CountNewest)))
    case CountBlocked(x) => (ch, h.(totals := h.totals.Blocked(), lock := Producing(TimedPut(x))))
    case TimedPut(x) =>
      if |ch.queue| < c.capacity then (ch.Put(x), h.(lock := Producing(CountEnqueued)))
      else (ch, h.(lock := Producing(CountTimeout)))
    case CountTimeout => (ch, h.(totals := h.totals.BlockTimeout(), lock := Producing(CountNewest)))
    case CountNewest => (ch, h.(totals := h.totals.DropNewest(), lock := Producing(Release)))
    case Release => (ch, h.(lock := Free))
  }

  /** What `enqueue` does after `put_nowait` finds the queue full. */
  function OnFull(policy: Policy, x: Item): ProducerPc {
    match policy
    case DropNewest => CountNewest
    case DropOldest => Evict(x)
    case Block => CountBlocked(x)
  }

  // ---------------------------------------------------------------- listener

  datatype ListenerStep = Get | Offer | OfferRaises | FlushOutput(ok: bool) | Handled | TaskDone

  predicate ListenerEnabled(c: Config, ch: Channel, b: Listener, step: ListenerStep) {
    match step
    case Get => b.pc.Waiting? && ch.queue != []
    case Offer => AtOutput(c, ch, b) && ch.departed[b.pc.pos].item.Record?
    case OfferRaises => AtOutput(c, ch, b) && ch.departed[b.pc.pos].item.Record?
    case FlushOutput(_) => AtOutput(c, ch, b) && ch.departed[b.pc.pos].item.Marker?
    case Handled => b.pc.Handling? && b.pc.next == |c.levels|
    case TaskDone => b.pc.Settling? || b.pc.Leaving?
  }

  predicate AtOutput(c: Config, ch: Channel, b: Listener) {
    b.pc.Handling? && b.pc.next < |c.levels| == |b.delivered| && b.pc.pos < |ch.departed|
  }

  function ListenerChannel(c: Config, ch: Channel, b: Listener, step: ListenerStep): Channel
    requires ListenerEnabled(c, ch, b, step)
  {
    match step
    case Get => ch.Remove(Taken)
    case TaskDone => ch.TaskDone()
    case _ => ch
  }

  /** `_monitor` stops at the sentinel; a record is given to each output whose level admits it. */
  function ListenerNext(c: Config, ch: Channel, b: Listener, step: ListenerStep): Listener
    requires ListenerEnabled(c, ch, b, step)
  {
    match step
    case Get => b.(pc := if ch.queue[0].Sentinel? then Leaving else Handling(|ch.departed|, 0))
    case Offer =>
      var Handling(pos, next) := b.pc;
      Listener(Handling(pos, next + 1),
               if ch.departed[pos].item.level >= c.levels[next]
               then b.delivered[next := b.delivered[next] + [pos]] else b.delivered)
    case OfferRaises => b.(pc := Crashed(b.pc.pos, b.pc.next))
    case FlushOutput(_) => b.(pc := Handling(b.pc.pos, b.pc.next + 1))
    case Handled => b.(pc := Settling)
    case TaskDone => b.(pc := if b.pc.Leaving? then Exited else Waiting)
  }

  /** A failed output flush clears `succeeded`; the event is set once every output was tried. */
  function ListenerFlushes(c: Config, ch: Channel, b: Listener, flushes: map<nat, Flush>, step: ListenerStep)
    : map<nat, Flush>
    requires ListenerEnabled(c, ch, b, step)
  {
    if (step.FlushOutput? || step.Handled?) && b.pc.pos < |ch.departed|
       && ch.departed[b.pc.pos].item.Marker? && ch.departed[b.pc.pos].item.id in flushes
    then
      var id := ch.departed[b.pc.pos].item.id;
      var f := flushes[id];
      flushes[id := if step.Handled? then f.(done := true)
                    else if step.ok then f.(flushed := f.flushed[b.pc.next := |b.delivered[b.pc.next]|])
                    else f.(succeeded := false)]
    else flushes
  }

  // ---------------------------------------------------------------- stopper

  datatype StopperStep =
    | CloseAcquire | CloseSet | CloseRelease | PutSentinel | NoteSentinel | Join | GiveUp | CloseOutputs

  predicate StopperEnabled(c: Config, s: State, step: StopperStep) {
    match step
    case CloseAcquire => s.stopper.pc.Ready? && s.handler.lock.Free?
    case CloseSet => s.stopper.pc.AtClose?
    case CloseRelease => s.stopper.pc.Unlocking?
    case PutSentinel => s.stopper.pc.Stopping? && !s.stopper.sentinelNoted && |s.ch.queue| < c.capacity
    case NoteSentinel => s.stopper.pc.Noting?
    case Join => s.stopper.pc.Stopping? && !Alive(s.listener)
    case GiveUp =>
      s.stopper.pc.Stopping? && Alive(s.listener) && (s.stopper.sentinelNoted || |s.ch.queue| >= c.capacity)
    case CloseOutputs => s.stopper.pc.Joined?
  }

  function StopperNext(c: Config, s: State, step: StopperStep): State
    requires StopperEnabled(c, s, step)
  {
    match step
    case CloseAcquire => s.(handler := s.handler.(lock := Closing), stopper := s.stopper.(pc := AtClose))
    case CloseSet => s.(handler := s.handler.(accepting := false), stopper := s.stopper.(pc := Unlocking))
    case CloseRelease => s.(handler := s.handler.(lock := Free), stopper := s.stopper.(pc := Stopping))
    case PutSentinel => s.(ch := s.ch.Put(Sentinel), stopper := s.stopper.(pc := Noting))
    case NoteSentinel => s.(stopper := s.stopper.(pc := Stopping, sentinelNoted := true))
    case Join => s.(stopper := s.stopper.(pc := Joined))
    case GiveUp => s.(stopper := s.stopper.(pc := Ready))
    case CloseOutputs => s.(stopper := s.stopper.(pc := Finished, outputsClosed := true))
  }

  // ---------------------------------------------------------------- the whole system

  datatype Step =
    | Acquire(id: nat, level: int)
    | Produce
    | PrepareFails
    | Listen(listen: ListenerStep)
    | PutMarker(marker: nat)
    | Await(marker: nat)
    | Stop(stop: StopperStep)

  predicate Enabled(c: Config, s: State, step: Step) {
    match step
    case Acquire(_, _) => s.handler.lock.Free?
    case Produce => s.handler.lock.Producing?
    case PrepareFails => true
    case Listen(l) => ListenerEnabled(c, s.ch, s.listener, l)
    case PutMarker(id) => |s.ch.queue| < c.capacity && id !in s.flushes
    case Await(id) => id in s.flushes && s.flushes[id].result.Pending?
    case Stop(t) => StopperEnabled(c, s, t)
  }

  function Apply(c: Config, s: State, step: Step): State
    requires Enabled(c, s, step)
  {
    match step
    case Acquire(id, level) => s.(handler := s.handler.(lock := Producing(Check(Record(id, level)))))
    case Produce =>
      var (ch, h) := ProducerStep(c, s.ch, s.handler);
      s.(ch := ch, handler := h)
    case PrepareFails =>
      s.(handler := s.handler.(totals := s.handler.totals.DropNewest(),
                               prepareErrors := s.handler.prepareErrors + 1))
    case Listen(l) =>
      s.(ch := ListenerChannel(c, s.ch, s.listener, l),
         listener := ListenerNext(c, s.ch, s.listener, l),
         flushes := ListenerFlushes(c, s.ch, s.listener, s.flushes, l))
    case PutMarker(id) =>
      s.(ch := s.ch.Put(Marker(id)),
         flushes := s.flushes[id := Flush(|s.ch.admitted|, false, true, map[], Pending)])
    case Await(id) =>
      var f := s.flushes[id];
      s.(flushes := s.flushes[id := f.(result := Returned(f.done && f.succeeded))])
    case Stop(t) => StopperNext(c, s, t)
  }

  /** The steps lead from `s` to `t`. */
  ghost predicate Leads(c: Config, s: State, steps: seq<Step>, t: State)
    decreases |steps|
  {
    if steps == [] then t == s
    else Enabled(c, s, steps[0]) && Leads(c, Apply(c, s, steps[0]), steps[1..], t)
  }

  ghost predicate Reachable(c: Config, s: State) {
    exists steps: seq<Step> :: Leads(c, Init(c), steps, s)
  }
}
