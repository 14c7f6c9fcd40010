/**
 The queue handler and the listener's `stop`, as objects updated in place while other
 threads use the same queue.
 */
module LogQueue {
  import opened Counting
  import opened LogItems

  // ---------------------------------------------------------------- specification

  /**
   `b` is a later state of the queue `a`, with this many more records admitted and items evicted.
   Anything else that was put or left in between is the listener's, a flusher's or the stopper's.
   */
  ghost predicate Since(a: Channel, b: Channel, records: nat, evictions: nat) {
    && a.admitted <= b.admitted && a.departed <= b.departed
    && Count(b.admitted, IsRecord) == Count(a.admitted, IsRecord) + records
    && Count(b.departed, WasEvicted) == Count(a.departed, WasEvicted) + evictions
  }

  lemma Associative<T>(a: seq<T>, b: seq<T>, c: seq<T>)
    ensures a + b + c == a + (b + c)
  {
  }

  lemma SinceThen(a: Channel, b: Channel, c: Channel, records: nat, evictions: nat, records': nat, evictions': nat)
    requires Since(a, b, records, evictions) && Since(b, c, records', evictions')
    ensures Since(a, c, records + records', evictions + evictions')
  {
  }

  /** Something was put since, and this item last. */
  predicate PutLast(a: Channel, b: Channel, x: Item) {
    |a.admitted| < |b.admitted| && b.admitted[|b.admitted| - 1] == x
  }

  /** One `enqueue` call while no other thread touches the queue. */
  function EnqueueAlone(policy: Policy, maxsize: nat, ch: Channel, totals: Totals, record: Item)
    : (Channel, Totals)
  {
    if |ch.queue| < maxsize then (ch.Put(record), totals.Enqueued())
    else
      match policy
      case DropNewest => (ch, totals.DropNewest())
      case Block => (ch, totals.Blocked().BlockTimeout().DropNewest())
      case DropOldest =>
        if ch.queue == [] then (ch, totals.DropNewest())
        else
          var ch' := ch.Remove(Evicted).TaskDone();
          if |ch'.queue| < maxsize then (ch'.Put(record), totals.DropOldest().Enqueued())
          else (ch', totals.DropOldest().DropNewest())
  }

  /**
   What one accepted `enqueue` call adds to the totals, by the lengths its own operations on the queue found: the first
   put, then, if that found the queue full, the read and the second put of `drop_oldest`, or the timed put of `block`.
   */
  function CallTotals(policy: Policy, maxsize: nat, looks: seq<nat>, totals: Totals): Totals
    requires Complete(policy, maxsize, looks)
  {
    if looks[0] < maxsize then totals.Enqueued()
    else
      match policy
      case DropNewest => totals.DropNewest()
      case Block =>
        if looks[1] < maxsize then totals.Blocked().Enqueued() else totals.Blocked().BlockTimeout().DropNewest()
      case DropOldest =>
        var evicted := if looks[1] > 0 then totals.DropOldest() else totals;
        if looks[2] < maxsize then evicted.Enqueued() else evicted.DropNewest()
  }

  /** These are the looks of a whole call: it tries no more often than that, and no less. */
  predicate Complete(policy: Policy, maxsize: nat, looks: seq<nat>) {
    && looks != []
    && |looks| == if looks[0] < maxsize || policy.DropNewest? then 1 else if policy.Block? then 2 else 3
  }

  /** One call is one more enqueued or one more dropped newest, after at most one eviction. */
  lemma CallSums(policy: Policy, maxsize: nat, looks: seq<nat>, totals: Totals)
    requires Complete(policy, maxsize, looks)
    ensures var after := CallTotals(policy, maxsize, looks, totals);
            && after.enqueued + after.droppedNewest == totals.enqueued + totals.droppedNewest + 1
            && totals.enqueued <= after.enqueued && totals.droppedNewest <= after.droppedNewest
            && totals.droppedOldest <= after.droppedOldest <= totals.droppedOldest + Bit(policy.DropOldest?)
            && after.dropped - totals.dropped ==
               after.droppedOldest - totals.droppedOldest + after.droppedNewest - totals.droppedNewest
  {
  }

  predicate EvictedRecord(d: Departure) { d.fate.Evicted? && d.item.Record? }

  /** A caller can tell beforehand: the policy evicts, the queue is full, and its head is no record. */
  predicate EvictsControlItem(policy: Policy, maxsize: nat, ch: Channel) {
    policy.DropOldest? && |ch.queue| >= maxsize && ch.queue != [] && !ch.queue[0].Record?
  }

  /** One call raises `dropped_oldest_total` by the records it evicts, and by one more under exactly that guard. */
  lemma DroppedOldestOfCall(policy: Policy, maxsize: nat, ch: Channel, totals: Totals, record: Item)
    ensures var (ch', totals') := EnqueueAlone(policy, maxsize, ch, totals, record);
            totals'.droppedOldest - totals.droppedOldest
            == Count(ch'.departed, EvictedRecord) - Count(ch.departed, EvictedRecord)
               + Bit(EvictsControlItem(policy, maxsize, ch))
  {
    if policy.DropOldest? && |ch.queue| >= maxsize && ch.queue != [] {
      CountAppend(ch.departed, Departure(ch.queue[0], Evicted), EvictedRecord);
    }
  }

  function EnqueueAllAlone(policy: Policy, maxsize: nat, ch: Channel, totals: Totals, records: seq<Item>)
    : (Channel, Totals)
    decreases |records|
  {
    if records == [] then (ch, totals)
    else
      var n := |records| - 1;
      var (ch', totals') := EnqueueAllAlone(policy, maxsize, ch, totals, records[..n]);
      EnqueueAlone(policy, maxsize, ch', totals', records[n])
  }

  function Lost(maxsize: nat, n: nat): nat {
    if n <= maxsize then 0 else n - maxsize
  }

  /** The queue holds the newest of `records`, as many as fit, and the totals count the rest as oldest. */
  ghost predicate HoldsNewest(maxsize: nat, ch: Channel, totals: Totals, records: seq<Item>) {
    var lost := Lost(maxsize, |records|);
    && ch.queue == records[lost..]
    && totals == Totals(|records|, lost, lost, 0, 0, 0)
    && ch.unfinished == |ch.queue|
  }

  /** The queue holds the oldest of `records`, as many as fit; under `block` every lost one waited first. */
  ghost predicate HoldsOldest(policy: Policy, maxsize: nat, ch: Channel, totals: Totals, records: seq<Item>) {
    var lost := Lost(maxsize, |records|);
    var waits := if policy.Block? then lost else 0;
    && ch.queue == records[..|records| - lost]
    && totals == Totals(|records| - lost, lost, 0, lost, waits, waits)
    && ch.unfinished == |ch.queue|
  }

  lemma NewestStep(maxsize: nat, ch: Channel, totals: Totals, records: seq<Item>, x: Item)
    requires maxsize > 0 && HoldsNewest(maxsize, ch, totals, records)
    ensures var (ch', totals') := EnqueueAlone(DropOldest, maxsize, ch, totals, x);
            HoldsNewest(maxsize, ch', totals', records + [x])
  {
    var lost := Lost(maxsize, |records|);
    assert (records + [x])[lost..] == records[lost..] + [x];
    if |records| >= maxsize {
      assert (records + [x])[lost + 1..] == records[lost..][1..] + [x];
    }
  }

  lemma OldestStep(policy: Policy, maxsize: nat, ch: Channel, totals: Totals, records: seq<Item>, x: Item)
    requires !policy.DropOldest? && HoldsOldest(policy, maxsize, ch, totals, records)
    ensures var (ch', totals') := EnqueueAlone(policy, maxsize, ch, totals, x);
            HoldsOldest(policy, maxsize, ch', totals', records + [x])
  {
    var kept := |records| - Lost(maxsize, |records|);
    assert (records + [x])[..kept] == records[..kept];
  }

  ghost predicate Keeps(policy: Policy, maxsize: nat, r: (Channel, Totals), records: seq<Item>) {
    if policy.DropOldest? then HoldsNewest(maxsize, r.0, r.1, records)
    else HoldsOldest(policy, maxsize, r.0, r.1, records)
  }

  lemma KeepsStep(policy: Policy, maxsize: nat, r: (Channel, Totals), records: seq<Item>, x: Item)
    requires maxsize > 0 && Keeps(policy, maxsize, r, records)
    ensures Keeps(policy, maxsize, EnqueueAlone(policy, maxsize, r.0, r.1, x), records + [x])
  {
    if policy.DropOldest? {
      NewestStep(maxsize, r.0, r.1, records, x);
    } else {
      OldestStep(policy, maxsize, r.0, r.1, records, x);
    }
  }

  /** Into an idle queue, `drop_oldest` keeps the newest records; the other two policies keep the oldest. */
  lemma {:induction false} OverflowKeeps(policy: Policy, maxsize: nat, records: seq<Item>)
    requires maxsize > 0
    ensures Keeps(policy, maxsize, EnqueueAllAlone(policy, maxsize, EMPTY, ZERO, records), records)
    decreases |records|
  {
    if records != [] {
      var n := |records| - 1;
      OverflowKeeps(policy, maxsize, records[..n]);
      KeepsStep(policy, maxsize, EnqueueAllAlone(policy, maxsize, EMPTY, ZERO, records[..n]), records[..n], records[n]);
      assert records[..n] + [records[n]] == records;
    }
  }

  // ---------------------------------------------------------------- the shared queue

  /**
   `queue.Queue` with a bound. `shared` says whether other threads use it too; `looks` has the lengths that the puts and
   the evicting reads of its users here have found.
   */
  class SharedQueue {
    const maxsize: nat
    const shared: bool
    var ch: Channel
    ghost var looks: seq<nat>

    ghost predicate Valid()
      reads this
    {
      ch.Fifo() && |ch.queue| <= maxsize
    }

    constructor (maxsize: nat, shared: bool)
      ensures Valid() && ch == EMPTY && this.maxsize == maxsize && this.shared == shared
    {
      this.maxsize := maxsize;
      this.shared := shared;
      ch := EMPTY;
      looks := [];
    }

    /** The listener reads an item, if there is one. */
    method ListenerTakes()
      requires Valid()
      modifies `ch
      ensures Valid() && Since(old(ch), ch, 0, 0)
    {
      if ch.queue != [] {
        CountAppend(ch.departed, Departure(ch.queue[0], Taken), WasEvicted);
        ch := ch.Remove(Taken);
      }
    }

    /** A flusher's marker or the stopper's sentinel is put, if there is room. */
    method OtherPuts(x: Item)
      requires Valid() && !x.Record?
      modifies `ch
      ensures Valid() && Since(old(ch), ch, 0, 0)
    {
      if |ch.queue| < maxsize {
        CountAppend(ch.admitted, x, IsRecord);
        ch := ch.Put(x);
      }
    }

    /** What the listener, the flushers and the stopper do between two operations of the caller. */
    method OthersAct()
      requires Valid()
      modifies `ch
      ensures Valid() && Since(old(ch), ch, 0, 0)
      ensures !shared ==> ch == old(ch)
    {
      if !shared {
        return;
      }
      var n: nat :| true;
      while n > 0
        invariant Valid() && Since(old(ch), ch, 0, 0)
      {
        n := n - 1;
        if * {
          ListenerTakes();
        } else if * {
          var id: nat :| true;
          OtherPuts(Marker(id));
        } else if * {
          OtherPuts(Sentinel);
        } else {
          TaskDone();
        }
      }
    }

    /** `put_nowait`: false stands for `queue.Full`. */
    method PutNowait(x: Item) returns (ok: bool)
      requires Valid()
      modifies this
      ensures Valid() && ok == (|old(ch).queue| < maxsize)
      ensures ch == if ok then old(ch).Put(x) else old(ch)
      ensures looks == old(looks) + [|old(ch).queue|]
    {
      looks := looks + [|ch.queue|];
      ok := |ch.queue| < maxsize;
      if ok {
        ch := ch.Put(x);
      }
    }

    /** `get_nowait`: false stands for `queue.Empty`. */
    method EvictNowait() returns (ok: bool)
      requires Valid()
      modifies this
      ensures Valid() && ok == (old(ch).queue != [])
      ensures ch == if ok then old(ch).Remove(Evicted) else old(ch)
      ensures looks == old(looks) + [|old(ch).queue|]
    {
      looks := looks + [|ch.queue|];
      ok := ch.queue != [];
      if ok {
        ch := ch.Remove(Evicted);
      }
    }

    method TaskDone()
      requires Valid()
      modifies `ch
      ensures Valid() && ch == old(ch).TaskDone()
    {
      ch := ch.TaskDone();
    }
  }

  // ---------------------------------------------------------------- the handler

  /** `OverflowPolicyQueueHandler`; its methods run under the handler's lock. */
  class OverflowPolicyQueueHandler {
    const policy: Policy
    const queue: SharedQueue
    var totals: Totals
    var accepting: bool

    ghost predicate Valid()
      reads this, queue
    {
      queue.Valid() && totals.dropped == totals.droppedOldest + totals.droppedNewest
    }

    constructor (policy: Policy, queue: SharedQueue)
      requires queue.Valid()
      ensures Valid() && accepting && totals == ZERO && this.policy == policy && this.queue == queue
    {
      this.policy := policy;
      this.queue := queue;
      totals := ZERO;
      accepting := true;
    }

    method Close()
      requires Valid()
      modifies this`accepting
      ensures Valid() && !accepting
    {
      accepting := false;
    }

    /** `handleError`: a record that failed before it reached the queue counts as a dropped newest one. */
    method HandleError()
      requires Valid()
      modifies this`totals
      ensures Valid() && totals == old(totals).DropNewest()
    {
      totals := totals.DropNewest();
    }

    /**
     Whatever other threads do meanwhile: a closed handler leaves no trace; an accepting one counts the
     record exactly once, as enqueued if and only if it was admitted, and counts each eviction it made; and which of
     these it is, is decided by what its own operations found in the queue.
     */
    method Enqueue(record: Item) returns (ghost looks: seq<nat>)
      requires Valid() && record.Record?
      modifies this`totals, queue
      ensures Valid()
      ensures !old(accepting) ==> totals == old(totals) && queue.ch == old(queue.ch) && looks == []
      ensures queue.looks == old(queue.looks) + looks
      ensures old(accepting) ==>
                && Complete(policy, queue.maxsize, looks)
                && totals == CallTotals(policy, queue.maxsize, looks, old(totals))
      ensures old(totals).enqueued <= totals.enqueued && old(totals).droppedOldest <= totals.droppedOldest
      ensures Since(old(queue.ch), queue.ch, totals.enqueued - old(totals).enqueued,
                    totals.droppedOldest - old(totals).droppedOldest)
      ensures old(accepting) ==>
                totals.enqueued + totals.droppedNewest == old(totals).enqueued + old(totals).droppedNewest + 1
      ensures totals.enqueued > old(totals).enqueued ==>
                && totals.droppedNewest == old(totals).droppedNewest
                && PutLast(old(queue.ch), queue.ch, record)
      ensures totals.droppedOldest <= old(totals).droppedOldest + (if policy.DropOldest? then 1 else 0)
      ensures old(accepting) && !queue.shared ==>
                (queue.ch, totals) == EnqueueAlone(policy, queue.maxsize, old(queue.ch), old(totals), record)
    {
      looks := [];
      if accepting {
        ghost var was := totals;
        looks := EnqueueOpen(record);
        CallSums(policy, queue.maxsize, looks, was);
      }
    }

    /** `enqueue` past its test of `_accepting`. */
    method EnqueueOpen(record: Item) returns (ghost looks: seq<nat>)
      requires Valid() && record.Record?
      modifies this`totals, queue
      ensures Valid() && queue.looks == old(queue.looks) + looks
      ensures Complete(policy, queue.maxsize, looks)
      ensures totals == CallTotals(policy, queue.maxsize, looks, old(totals))
      ensures old(totals).enqueued <= totals.enqueued && old(totals).droppedOldest <= totals.droppedOldest
      ensures Since(old(queue.ch), queue.ch, totals.enqueued - old(totals).enqueued,
                    totals.droppedOldest - old(totals).droppedOldest)
      ensures totals.enqueued > old(totals).enqueued ==> PutLast(old(queue.ch), queue.ch, record)
      ensures !queue.shared ==>
                (queue.ch, totals) == EnqueueAlone(policy, queue.maxsize, old(queue.ch), old(totals), record)
    {
      ghost var before, asked := queue.ch, queue.looks;
      ghost var look;
      var ok;
      ok, look := PutAndCount(record);
      looks := [look];
      if !ok {
        ghost var full, was := queue.ch, totals;
        looks := WhenFull(record, asked);
        SinceThen(before, full, queue.ch, 0, 0,
                  totals.enqueued - was.enqueued, totals.droppedOldest - was.droppedOldest);
      }
    }

    /** The rest of `enqueue` once `put_nowait` has found the queue full. `asked` has the lengths found before that. */
    method WhenFull(record: Item, ghost asked: seq<nat>) returns (ghost looks: seq<nat>)
      requires Valid() && record.Record? && queue.looks == asked + [queue.maxsize]
      modifies this`totals, queue
      ensures Valid() && queue.looks == asked + looks
      ensures Complete(policy, queue.maxsize, looks)
      ensures totals == CallTotals(policy, queue.maxsize, looks, old(totals))
      ensures old(totals).enqueued <= totals.enqueued && old(totals).droppedOldest <= totals.droppedOldest
      ensures Since(old(queue.ch), queue.ch, totals.enqueued - old(totals).enqueued,
                    totals.droppedOldest - old(totals).droppedOldest)
      ensures totals.enqueued > old(totals).enqueued ==> PutLast(old(queue.ch), queue.ch, record)
      ensures !queue.shared && |old(queue.ch).queue| == queue.maxsize ==>
                (queue.ch, totals) == EnqueueAlone(policy, queue.maxsize, old(queue.ch), old(totals), record)
    {
      looks := [queue.maxsize];
      match policy {
        case DropNewest =>
          totals := totals.DropNewest();
        case DropOldest =>
          ghost var first, second := DropOldestThenEnqueue(record);
          looks := [queue.maxsize] + [first] + [second];
          assert queue.looks == asked + looks;
        case Block =>
          ghost var look := BlockThenEnqueue(record);
          looks := [queue.maxsize] + [look];
          Associative(asked, [queue.maxsize], [look]);
      }
    }

    /** A put, however long it waits, and if it succeeded the bump of `enqueued_total`. It found the length `look`. */
    method PutAndCount(record: Item) returns (ok: bool, ghost look: nat)
      requires Valid() && record.Record?
      modifies this`totals, queue
      ensures Valid() && ok == (look < queue.maxsize) && look <= queue.maxsize
      ensures queue.looks == old(queue.looks) + [look]
      ensures totals == if ok then old(totals).Enqueued() else old(totals)
      ensures Since(old(queue.ch), queue.ch, Bit(ok), 0)
      ensures ok ==> PutLast(old(queue.ch), queue.ch, record)
      ensures !ok ==> |queue.ch.queue| == queue.maxsize && |old(queue.ch).admitted| <= |queue.ch.admitted|
      ensures !queue.shared ==>
                look == |old(queue.ch).queue| && queue.ch == if ok then old(queue.ch).Put(record) else old(queue.ch)
    {
      ghost var before := queue.ch;
      queue.OthersAct();
      ghost var found := queue.ch;
      look := |found.queue|;
      CountAppend(found.admitted, record, IsRecord);
      ok := queue.PutNowait(record);
      if ok {
        totals := totals.Enqueued();
        SinceThen(before, found, queue.ch, 0, 0, 1, 0);
      }
    }

    /** `get_nowait` with its `task_done` and its count, unless it found the queue empty. */
    method EvictAndCount() returns (ghost look: nat)
      requires Valid()
      modifies this`totals, queue
      ensures Valid() && queue.looks == old(queue.looks) + [look]
      ensures totals == if look > 0 then old(totals).DropOldest() else old(totals)
      ensures Since(old(queue.ch), queue.ch, 0, Bit(look > 0)) && |old(queue.ch).admitted| <= |queue.ch.admitted|
      ensures !queue.shared ==>
                && look == |old(queue.ch).queue|
                && queue.ch == if look > 0 then old(queue.ch).Remove(Evicted).TaskDone() else old(queue.ch)
    {
      ghost var before := queue.ch;
      queue.OthersAct();
      ghost var found := queue.ch;
      look := |found.queue|;
      var evicted := queue.EvictNowait();
      if evicted {
        CountAppend(found.departed, Departure(found.queue[0], Evicted), WasEvicted);
        queue.TaskDone();
        totals := totals.DropOldest();
        SinceThen(before, found, queue.ch, 0, 0, 0, 1);
      }
    }

    /** `first` and `second` are the lengths that the read and the put found. */
    method DropOldestThenEnqueue(record: Item) returns (ghost first: nat, ghost second: nat)
      requires Valid() && record.Record? && policy.DropOldest?
      modifies this`totals, queue
      ensures Valid() && queue.looks == old(queue.looks) + [first] + [second]
      ensures var evicted := if first > 0 then old(totals).DropOldest() else old(totals);
              totals == if second < queue.maxsize then evicted.Enqueued() else evicted.DropNewest()
      ensures Since(old(queue.ch), queue.ch, Bit(second < queue.maxsize), Bit(first > 0))
      ensures second < queue.maxsize ==> PutLast(old(queue.ch), queue.ch, record)
      ensures !queue.shared && first == queue.maxsize ==>
                queue.ch == EnqueueAlone(policy, queue.maxsize, old(queue.ch), old(totals), record).0
      ensures !queue.shared ==> first == |old(queue.ch).queue| && second == if first > 0 then first - 1 else 0
    {
      ghost var before := queue.ch;
      first := EvictAndCount();
      ghost var freed := queue.ch;
      var ok;
      ok, second := PutAndCount(record);
      SinceThen(before, freed, queue.ch, 0, Bit(first > 0), Bit(ok), 0);
      if !ok {
        totals := totals.DropNewest();
      }
    }

    /** `look` is the length that the timed put found at its end. */
    method BlockThenEnqueue(record: Item) returns (ghost look: nat)
      requires Valid() && record.Record? && policy.Block?
      modifies this`totals, queue
      ensures Valid() && queue.looks == old(queue.looks) + [look]
      ensures var blocked := old(totals).Blocked();
              totals == if look < queue.maxsize then blocked.Enqueued() else blocked.BlockTimeout().DropNewest()
      ensures Since(old(queue.ch), queue.ch, Bit(look < queue.maxsize), 0)
      ensures look < queue.maxsize ==> PutLast(old(queue.ch), queue.ch, record)
      ensures !queue.shared ==> look == |old(queue.ch).queue|
      ensures !queue.shared && look == queue.maxsize ==> queue.ch == old(queue.ch)
    {
      totals := totals.Blocked();
      var ok;
      ok, look := PutAndCount(record);
      if !ok {
        totals := totals.BlockTimeout().DropNewest();
      }
    }
  }

  // ---------------------------------------------------------------- stopping the listener

  /** After `attempts` failed puts: each took its 0.05 seconds unless the budget is spent, the last began within it. */
  ghost predicate Paced(attempts: nat, elapsed: real, budget: real) {
    && (elapsed >= budget || attempts as real * 0.05 <= elapsed)
    && (attempts > 0 ==> (attempts as real - 1.0) * 0.05 < budget)
  }

  lemma PacedStep(attempts: nat, elapsed: real, later: real, budget: real)
    requires Paced(attempts, elapsed, budget) && elapsed < budget
    requires later >= elapsed + (if budget - elapsed > 0.05 then 0.05 else budget - elapsed)
    ensures Paced(attempts + 1, later, budget) && attempts + 1 <= AttemptLimit(budget)
  {
    assert attempts as real < budget * 20.0;
  }

  function AttemptLimit(budget: real): int {
    (budget * 20.0).Floor + 2
  }

  /** The listener thread. Only time ends it: no caller of `stop` does. */
  class ListenerThread {
    var alive: bool

    constructor ()
      ensures alive
    {
      alive := true;
    }

    /** The thread runs on, or dies for good. */
    method Elapse()
      modifies this
      ensures alive ==> old(alive)
    {
      if * {
        alive := false;
      }
    }
  }

  /** `DrainingQueueListener`, as `stop` sees it. `puts` counts the sentinels it ever put. */
  class DrainingQueueListener {
    const queue: SharedQueue
    const thread: ListenerThread
    var attached: bool
    var sentinelEnqueued: bool
    ghost var puts: nat

    /** `attached` says that `_thread` is set; it is only cleared once the thread is dead. */
    ghost predicate Valid()
      reads this, queue, thread
    {
      && queue.Valid() && puts == Bit(sentinelEnqueued) && (thread.alive ==> attached)
      && (sentinelEnqueued ==> Sentinel in queue.ch.admitted)
    }

    constructor (queue: SharedQueue)
      requires queue.Valid()
      ensures Valid() && attached && fresh(thread) && thread.alive && !sentinelEnqueued && this.queue == queue
    {
      this.queue := queue;
      thread := new ListenerThread();
      attached := true;
      sentinelEnqueued := false;
      puts := 0;
    }

    /** Time passes: the other threads act, and the listener thread may die but never comes back. */
    method Wait()
      requires Valid()
      modifies queue, thread
      ensures Valid() && Since(old(queue.ch), queue.ch, 0, 0)
      ensures !queue.shared ==> queue.ch == old(queue.ch)
      ensures thread.alive ==> old(thread.alive)
    {
      queue.OthersAct();
      thread.Elapse();
    }

    /** One `put` of the sentinel, however long it waits: false stands for `queue.Full`, after a full wait. */
    method PutSentinel() returns (ok: bool)
      requires Valid() && !sentinelEnqueued
      modifies `sentinelEnqueued, `puts, queue, thread
      ensures Valid() && ok == sentinelEnqueued && puts == old(puts) + Bit(ok)
      ensures !ok ==> |queue.ch.queue| == queue.maxsize
      ensures !queue.shared ==> ok == (|old(queue.ch).queue| < queue.maxsize)
      ensures thread.alive ==> old(thread.alive)
      ensures Since(old(queue.ch), queue.ch, 0, 0)
    {
      Wait();
      CountAppend(queue.ch.admitted, Sentinel, IsRecord);
      ok := queue.PutNowait(Sentinel);
      if ok {
        puts := puts + 1;
        sentinelEnqueued := true;
        assert queue.ch.admitted[|queue.ch.admitted| - 1] == Sentinel;
      }
    }

    /**
     `stop`: true on return, false for `TimeoutError`. A timed put that fails has waited its timeout;
     nothing else is known about the clock but that it does not run backwards. It succeeds only once the thread
     is dead. Over any number of calls one sentinel is put at most, a call makes at most 1 + timeout/0.05 rounded
     up attempts to put it, and a call that failed leaves its thread attached for a retry: its sentinel is in, or
     it kept trying until its time was up. A live listener with room in its queue gets the sentinel at the first
     attempt. `elapsed` is the time spent on attempts.
     */
    method Stop(timeoutSeconds: real) returns (stopped: bool, attempts: nat, ghost elapsed: real)
      requires Valid()
      modifies this, queue, thread
      ensures Valid() && puts <= 1
      ensures old(sentinelEnqueued) ==> sentinelEnqueued && attempts == 0
      ensures stopped ==> !attached && !thread.alive
      ensures thread.alive ==> old(thread.alive) && !stopped
      ensures !stopped ==> attached && old(attached)
      ensures !stopped ==>
                || (sentinelEnqueued && thread.alive)
                || (!sentinelEnqueued && attempts > 0
                    && elapsed >= (if timeoutSeconds > 0.0 then timeoutSeconds else 0.0))
      ensures old(!thread.alive) ==> stopped
      ensures sentinelEnqueued ==> Sentinel in queue.ch.admitted
      ensures old(attached && thread.alive && !sentinelEnqueued) ==> attempts > 0
      ensures old(attached && thread.alive && !sentinelEnqueued && !queue.shared && |queue.ch.queue| < queue.maxsize)
              ==> attempts == 1 && sentinelEnqueued
      ensures !old(attached) ==> attempts == 0 && queue.ch == old(queue.ch)
      ensures attempts > 1 ==> (attempts as real - 2.0) * 0.05 < timeoutSeconds
      ensures Since(old(queue.ch), queue.ch, 0, 0)
    {
      attempts, elapsed := 0, 0.0;
      if !attached {
        return true, attempts, elapsed;
      }
      var start: real := *;
      var now := start;
      var budget := if timeoutSeconds > 0.0 then timeoutSeconds else 0.0;
      var deadline := start + budget;
      while thread.alive && !sentinelEnqueued
        invariant Valid() && Since(old(queue.ch), queue.ch, 0, 0)
        invariant attached && (thread.alive ==> old(thread.alive))
        invariant old(sentinelEnqueued) ==> sentinelEnqueued && attempts == 0
        invariant !sentinelEnqueued ==> Paced(attempts, now - start, budget)
        invariant attempts > 1 ==> (attempts as real - 2.0) * 0.05 < budget
        invariant attempts == 0 ==> thread.alive == old(thread.alive) && sentinelEnqueued == old(sentinelEnqueued)
        invariant attempts == 0 ==> queue.ch == old(queue.ch)
        invariant attempts > 0 && !sentinelEnqueued ==>
                    !old(!sentinelEnqueued && !queue.shared && |queue.ch.queue| < queue.maxsize)
        invariant old(!sentinelEnqueued && !queue.shared && |queue.ch.queue| < queue.maxsize) ==> attempts <= 1
        decreases !sentinelEnqueued, AttemptLimit(budget) - attempts
      {
        var remaining := deadline - now;
        var wait := if remaining > 0.05 then 0.05 else if remaining > 0.0 then remaining else 0.0;
        attempts := attempts + 1;
        var ok := PutSentinel();
        if !ok {
          if remaining <= 0.0 {
            elapsed := now - start;
            return false, attempts, elapsed;
          }
          var extra: real := *;
          var later := now + wait + (if extra > 0.0 then extra else 0.0);
          PacedStep(attempts - 1, now - start, later - start, budget);
          now := later;
        }
      }
      elapsed := now - start;
      Wait();
      if thread.alive {
        return false, attempts, elapsed;
      }
      attached := false;
      stopped := true;
    }
  }
}
