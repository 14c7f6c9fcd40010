/** The outputs, as the listener thread uses them: records, flush markers and the final close. */
module LogOutputs {
  import opened LogItems

  /**
   An output handler and what happened to it. `flushes` notes for each flush whether it went well, `closeErrors` counts
   the closes that raised.
   */
  class Output {
    const level: int
    var given: seq<Item>
    var flushes: seq<bool>
    var closes: nat
    var closeErrors: nat

    constructor (level: int)
      ensures this.level == level && given == [] && flushes == [] && closes == 0 && closeErrors == 0
    {
      this.level := level;
      given, flushes, closes, closeErrors := [], [], 0, 0;
    }

    method Give(record: Item)
      modifies this`given
      ensures given == old(given) + [record]
    {
      given := given + [record];
    }

    /** False stands for an exception. */
    method Flush() returns (ok: bool)
      modifies this`flushes
      ensures flushes == old(flushes) + [ok]
    {
      ok := *;
      flushes := flushes + [ok];
    }

    method Close() returns (raised: bool)
      modifies this`closes, this`closeErrors
      ensures closes == old(closes) + 1 && closeErrors == old(closeErrors) + (if raised then 1 else 0)
    {
      closes := closes + 1;
      raised := *;
      if raised {
        closeErrors := closeErrors + 1;
      }
    }
  }

  /** `_FlushRecord`: what the waiting caller looks at. */
  class FlushRecord {
    var done: bool
    var succeeded: bool

    constructor ()
      ensures !done && succeeded
    {
      done, succeeded := false, true;
    }
  }

  ghost predicate Distinct(outputs: seq<Output>) {
    forall i, j :: 0 <= i < j < |outputs| ==> outputs[i] != outputs[j]
  }

  /** `handle` for a log record: every output whose level admits it gets it, and no other, if none raises. */
  method HandleRecord(record: Item, outputs: seq<Output>)
    requires record.Record? && Distinct(outputs)
    modifies outputs
    ensures forall o :: o in outputs ==>
              && o.given == old(o.given) + (if record.level >= o.level then [record] else [])
              && o.flushes == old(o.flushes) && o.closes == old(o.closes)
  {
    for i := 0 to |outputs|
      invariant forall o :: o in outputs ==> o.flushes == old(o.flushes) && o.closes == old(o.closes)
      invariant forall j :: 0 <= j < i ==>
                  outputs[j].given ==
                  old(outputs[j].given) + (if record.level >= outputs[j].level then [record] else [])
      invariant forall j :: i <= j < |outputs| ==> outputs[j].given == old(outputs[j].given)
    {
      if record.level >= outputs[i].level {
        outputs[i].Give(record);
      }
    }
  }

  /** `handle` for a flush marker: every output is flushed even if others fail, then the caller is told. */
  method HandleMarker(marker: FlushRecord, outputs: seq<Output>)
    requires Distinct(outputs)
    modifies marker, outputs
    ensures marker.done
    ensures forall o :: o in outputs ==>
              && |o.flushes| == |old(o.flushes)| + 1 && old(o.flushes) <= o.flushes
              && o.given == old(o.given) && o.closes == old(o.closes)
    ensures marker.succeeded <==> old(marker.succeeded) && forall o :: o in outputs ==> o.flushes[|o.flushes| - 1]
  {
    for i := 0 to |outputs|
      invariant forall o :: o in outputs ==> o.given == old(o.given) && o.closes == old(o.closes)
      invariant forall j :: 0 <= j < i ==>
                  |outputs[j].flushes| == |old(outputs[j].flushes)| + 1 && old(outputs[j].flushes) <= outputs[j].flushes
      invariant forall j :: i <= j < |outputs| ==> outputs[j].flushes == old(outputs[j].flushes)
      invariant marker.succeeded <==>
                old(marker.succeeded) && forall j :: 0 <= j < i ==> outputs[j].flushes[|outputs[j].flushes| - 1]
    {
      var ok := outputs[i].Flush();
      if !ok {
        marker.succeeded := false;
      }
    }
    marker.done := true;
  }

  /** Every output is closed once, even if others raise; the ones that raised are answered, in order. */
  method CloseAll(outputs: seq<Output>) returns (failed: seq<Output>)
    requires Distinct(outputs)
    modifies outputs
    ensures forall o :: o in outputs ==>
              o.closes == old(o.closes) + 1 && o.given == old(o.given) && o.flushes == old(o.flushes)
    ensures forall o :: o in outputs ==> o.closeErrors == old(o.closeErrors) + (if o in failed then 1 else 0)
    ensures Distinct(failed) && forall o :: o in failed ==> o in outputs
  {
    failed := [];
    for i := 0 to |outputs|
      invariant forall o :: o in outputs ==> o.given == old(o.given) && o.flushes == old(o.flushes)
      invariant forall j :: 0 <= j < i ==> outputs[j].closes == old(outputs[j].closes) + 1
      invariant forall j :: i <= j < |outputs| ==>
                  outputs[j].closes == old(outputs[j].closes) && outputs[j].closeErrors == old(outputs[j].closeErrors)
      invariant forall o :: o in failed ==> o in outputs[..i]
      invariant forall j :: 0 <= j < i ==>
                  outputs[j].closeErrors == old(outputs[j].closeErrors) + (if outputs[j] in failed then 1 else 0)
      invariant Distinct(failed)
    {
      assert outputs[i] !in failed;
      var raised := outputs[i].Close();
      if raised {
        failed := failed + [outputs[i]];
      }
    }
  }
}
