/** Tearing the log pipeline down: admissions stop first, outputs close last, and a failed stop can be retried. */
module LogSetup {
  import opened LogItems
  import opened LogOutputs
  import opened LogQueue

  /** The module state of one pipeline. `listening` says that `_QUEUE_LISTENER` is set. */
  class Managed {
    const handler: OverflowPolicyQueueHandler
    const listener: DrainingQueueListener
    var listening: bool
    var outputs: seq<Output>

    ghost predicate Valid()
      reads this, handler, listener, listener.thread, handler.queue
    {
      && listener.queue == handler.queue
      && handler.Valid() && listener.Valid()
      && Distinct(outputs)
      && (!listening ==> !listener.attached && outputs == [])
    }

    constructor (handler: OverflowPolicyQueueHandler, listener: DrainingQueueListener, outputs: seq<Output>)
      requires listener.queue == handler.queue && handler.Valid() && listener.Valid()
      requires Distinct(outputs)
      ensures Valid() && listening && this.outputs == outputs
      ensures this.handler == handler && this.listener == listener
    {
      this.handler, this.listener, this.outputs := handler, listener, outputs;
      listening := true;
    }

    /**
     `_teardown_handlers_locked`. When the listener did not stop in time no output is closed and everything is
     kept for a retry; otherwise its thread is dead, and every output is closed once, even if others raise, and
     forgotten; the ones that raised are answered. It is kept back only by a listener that is alive, or by one that no
     sentinel could be put for in time. Either way the handler no longer accepts, so nothing that was queued is
     evicted, and no second sentinel is ever put.
     */
    method Teardown(timeoutSeconds: real) returns (done: bool, failed: seq<Output>)
      requires Valid()
      modifies this, handler, listener, listener.thread, handler.queue, outputs
      ensures Valid() && !handler.accepting && handler.totals == old(handler.totals)
      ensures Since(old(handler.queue.ch), handler.queue.ch, 0, 0) && listener.puts <= 1
      ensures done <==> !listening
      ensures done ==> outputs == [] && !listener.thread.alive
      ensures done ==> forall o :: o in old(outputs) ==> o.closes == old(o.closes) + 1
      ensures !done ==> outputs == old(outputs) && listener.attached
      ensures old(listening && listener.attached && listener.thread.alive && !listener.sentinelEnqueued
                  && !handler.queue.shared && |handler.queue.ch.queue| < handler.queue.maxsize)
              ==> Sentinel in handler.queue.ch.admitted
      ensures !done ==> forall o :: o in outputs ==> o.closes == old(o.closes)
      ensures old(!listening || !listener.attached || !listener.thread.alive) ==> done
      ensures !done ==> listener.thread.alive || !listener.sentinelEnqueued
      ensures forall o :: o in old(outputs) ==> o.closeErrors == old(o.closeErrors) + (if o in failed then 1 else 0)
      ensures forall o :: o in failed ==> o in old(outputs)
    {
      failed := [];
      handler.Close();
      if listening {
        var stopped, _, _ := listener.Stop(timeoutSeconds);
        if !stopped {
          return false, failed;
        }
      }
      listening := false;
      failed := CloseAll(outputs);
      outputs := [];
      done := true;
    }
  }
}
