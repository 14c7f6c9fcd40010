/** What travels through the log queue, and the counters kept about it. */
module LogItems {

  /** A queued log record, a flush marker (`_FlushRecord`) or the stop sentinel. */
  datatype Item = Record(id: nat, level: int) | Marker(id: nat) | Sentinel

  /** How an item left the queue: read by the listener, or evicted by `drop_oldest`. */
  datatype Fate = Taken | Evicted

  datatype Departure = Departure(item: Item, fate: Fate)

  datatype Policy = DropOldest | DropNewest | Block

  /** The six totals of `LogQueueTelemetry`. */
  datatype Totals = Totals(
    enqueued: nat, dropped: nat, droppedOldest: nat, droppedNewest: nat, blocked: nat, blockTimeout: nat)
  {
    function Enqueued(): Totals { this.(enqueued := enqueued + 1) }
    function DropOldest(): Totals { this.(dropped := dropped + 1, droppedOldest := droppedOldest + 1) }
    function DropNewest(): Totals { this.(dropped := dropped + 1, droppedNewest := droppedNewest + 1) }
    function Blocked(): Totals { this.(blocked := blocked + 1) }
    function BlockTimeout(): Totals { this.(blockTimeout := blockTimeout + 1) }
  }

  const ZERO := Totals(0, 0, 0, 0, 0, 0)

  predicate IsRecord(x: Item) { x.Record? }
  predicate IsMarker(x: Item) { x.Marker? }
  predicate IsSentinel(x: Item) { x.Sentinel? }
  predicate WasTaken(d: Departure) { d.fate.Taken? }
  predicate WasEvicted(d: Departure) { d.fate.Evicted? }

  /**
   The standard library's `Queue`: its items, its counter of unfinished tasks, and two histories.
   `admitted` is everything ever put and `departed` everything that left, in order, so an index into
   `admitted` names one admission.
   */
  datatype Channel = Channel(
    queue: seq<Item>, unfinished: int, admitted: seq<Item>, departed: seq<Departure>)
  {
    /** First in, first out: what was admitted is what left, followed by what remains. */
    ghost predicate Fifo() {
      && |admitted| == |departed| + |queue|
      && (forall i :: 0 <= i < |departed| ==> departed[i].item == admitted[i])
      && (forall i :: 0 <= i < |queue| ==> queue[i] == admitted[|departed| + i])
    }

    function Put(x: Item): Channel {
      Channel(queue + [x], unfinished + 1, admitted + [x], departed)
    }

    function Remove(fate: Fate): Channel
      requires queue != []
    {
      Channel(queue[1..], unfinished, admitted, departed + [Departure(queue[0], fate)])
    }

    function TaskDone(): Channel {
      this.(unfinished := unfinished - 1)
    }
  }

  const EMPTY := Channel([], 0, [], [])
}
