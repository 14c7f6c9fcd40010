/**
 The breaker told by its operations alone: when it opens, how long it skips, when it probes and when it closes, each
 if and only if.
 */
module BreakerRuns {
  import opened Counting
  import opened CircuitBreaker

  /** The next operation opens the breaker. */
  predicate OpensNow(l: Limits, before: seq<Op>, op: Op) {
    Step(l, Run(l, before), op).opens > Run(l, before).opens
  }

  /** How many operations there were up to the last opening, that one included; zero without one. */
  function LastOpening(l: Limits, ops: seq<Op>): (k: nat)
    ensures k <= |ops|
  {
    if ops == [] then 0
    else if OpensNow(l, ops[..|ops| - 1], ops[|ops| - 1]) then |ops|
    else LastOpening(l, ops[..|ops| - 1])
  }

  /** The operations since the last opening, or all of them. */
  function Since(l: Limits, ops: seq<Op>): seq<Op> {
    ops[LastOpening(l, ops)..]
  }

  /** The time until which an open breaker skips: a recovery time after the failure that opened it. */
  function Due(l: Limits, ops: seq<Op>): real {
    var k := LastOpening(l, ops);
    if k > 0 && ops[k - 1].Failure? then ops[k - 1].now + l.recovery else 0.0
  }

  predicate IsProbe(op: Op, due: real) {
    op.Attempt? && op.now >= due
  }

  ghost predicate Probed(tail: seq<Op>, due: real) {
    exists m :: 0 <= m < |tail| && IsProbe(tail[m], due)
  }

  /** A probe was let through, and only attempts came after it. */
  ghost predicate Probing(tail: seq<Op>, due: real) {
    exists m :: 0 <= m < |tail| && FirstProbe(tail, m, due) && forall j :: m < j < |tail| ==> tail[j].Attempt?
  }

  predicate FirstProbe(tail: seq<Op>, m: nat, due: real)
    requires m < |tail|
  {
    IsProbe(tail[m], due) && forall j :: 0 <= j < m ==> !IsProbe(tail[j], due)
  }

  /** What phase, time and failure count say of the operations since the last opening, if there was one. */
  ghost predicate PhaseMeaning(b: Breaker, tripped: bool, tail: seq<Op>, due: real) {
    && (b.phase.Open? <==> tripped && !Probed(tail, due))
    && (b.phase.HalfOpen? <==> tripped && Probing(tail, due))
    && (b.phase.Open? ==> b.openedUntil == due)
    && b.consecutive == Streak(tail)
  }

  // ---------------------------------------------------------------- one more operation

  lemma ProbedLast(tail: seq<Op>, op: Op, due: real)
    ensures Probed(tail + [op], due) <==> Probed(tail, due) || IsProbe(op, due)
  {
    var more := tail + [op];
    assert more[|tail|] == op;
    if Probed(tail, due) {
      var m :| 0 <= m < |tail| && IsProbe(tail[m], due);
      assert IsProbe(more[m], due);
    }
  }

  lemma {:induction false} ProbedFirst(tail: seq<Op>, due: real) returns (m: nat)
    requires Probed(tail, due)
    ensures m < |tail| && FirstProbe(tail, m, due)
    decreases |tail|
  {
    var n := |tail| - 1;
    assert tail[..n] + [tail[n]] == tail;
    ProbedLast(tail[..n], tail[n], due);
    if Probed(tail[..n], due) {
      m := ProbedFirst(tail[..n], due);
    } else {
      m := n;
      forall j | 0 <= j < n
        ensures !IsProbe(tail[j], due)
      {
        assert tail[..n][j] == tail[j];
      }
    }
  }

  lemma ProbingLast(tail: seq<Op>, op: Op, due: real)
    ensures Probing(tail + [op], due) <==>
            op.Attempt? && (Probing(tail, due) || (!Probed(tail, due) && IsProbe(op, due)))
  {
    var more := tail + [op];
    assert more[|tail|] == op && forall j :: 0 <= j < |tail| ==> more[j] == tail[j];
    if Probing(more, due) {
      var m :| 0 <= m < |more| && FirstProbe(more, m, due) && forall j :: m < j < |more| ==> more[j].Attempt?;
      assert m < |tail| ==> FirstProbe(tail, m, due) && more[|tail|].Attempt?;
    }
    if op.Attempt? && Probing(tail, due) {
      var m :| 0 <= m < |tail| && FirstProbe(tail, m, due) && forall j :: m < j < |tail| ==> tail[j].Attempt?;
      assert FirstProbe(more, m, due);
    }
    if op.Attempt? && !Probed(tail, due) && IsProbe(op, due) {
      assert FirstProbe(more, |tail|, due);
    }
  }

  lemma ProbingProbed(tail: seq<Op>, due: real)
    requires Probing(tail, due)
    ensures Probed(tail, due)
  {
  }

  lemma LastOpeningLast(l: Limits, ops: seq<Op>, op: Op)
    ensures LastOpening(l, ops + [op]) == if OpensNow(l, ops, op) then |ops| + 1 else LastOpening(l, ops)
  {
    assert (ops + [op])[..|ops|] == ops;
  }

  lemma SinceLast(l: Limits, ops: seq<Op>, op: Op)
    ensures Since(l, ops + [op]) == if OpensNow(l, ops, op) then [] else Since(l, ops) + [op]
    ensures Due(l, ops + [op]) ==
            if !OpensNow(l, ops, op) then Due(l, ops) else if op.Failure? then op.now + l.recovery else 0.0
  {
    var k := LastOpening(l, ops);
    LastOpeningLast(l, ops, op);
    if OpensNow(l, ops, op) {
      assert (ops + [op])[|ops| + 1..] == [];
    } else {
      assert (ops + [op])[k..] == ops[k..] + [op];
    }
  }

  lemma StreakLast(tail: seq<Op>, op: Op)
    ensures Streak(tail + [op]) ==
            match op
            case Success => 0
            case Failure(_) => Streak(tail) + 1
            case Attempt(_) => Streak(tail)
  {
    assert (tail + [op])[..|tail|] == tail;
  }

  lemma QuietStep(l: Limits, b: Breaker, tripped: bool, tail: seq<Op>, due: real, op: Op)
    requires PhaseMeaning(b, tripped, tail, due) && Step(l, b, op).opens <= b.opens
    ensures PhaseMeaning(Step(l, b, op), tripped, tail + [op], due)
  {
    StreakLast(tail, op);
    ProbedLast(tail, op, due);
    ProbingLast(tail, op, due);
    if Probing(tail, due) {
      ProbingProbed(tail, due);
    }
  }

  lemma OpeningStep(l: Limits, b: Breaker, op: Op)
    requires Step(l, b, op).opens > b.opens
    ensures op.Failure? && PhaseMeaning(Step(l, b, op), true, [], op.now + l.recovery)
  {
  }

  /**
   After any operations the breaker is open exactly if no attempt came a recovery time after the failure that opened it
   last, half open exactly if one did and only attempts since, and it counts the failures since the last success or
   opening.
   */
  lemma {:induction false} PhaseExact(l: Limits, ops: seq<Op>)
    ensures PhaseMeaning(Run(l, ops), LastOpening(l, ops) > 0, Since(l, ops), Due(l, ops))
    ensures LastOpening(l, ops) > 0 ==> ops[LastOpening(l, ops) - 1].Failure?
  {
    if ops == [] {
      assert Since(l, ops) == [];
    } else {
      var n := |ops| - 1;
      var before, op := ops[..n], ops[n];
      PhaseExact(l, before);
      assert ops == before + [op];
      LastOpeningLast(l, before, op);
      SinceLast(l, before, op);
      if OpensNow(l, before, op) {
        OpeningStep(l, Run(l, before), op);
      } else {
        QuietStep(l, Run(l, before), LastOpening(l, before) > 0, Since(l, before), Due(l, before), op);
      }
    }
  }

  /** An operation opens the breaker exactly if it is a failed probe, or the failure that completes the threshold. */
  lemma OpensExactly(l: Limits, ops: seq<Op>, op: Op)
    ensures OpensNow(l, ops, op) <==>
            op.Failure? && ((LastOpening(l, ops) > 0 && Probing(Since(l, ops), Due(l, ops)))
                            || Streak(Since(l, ops)) + 1 >= l.threshold)
  {
    PhaseExact(l, ops);
  }

  /** An attempt is skipped exactly if the breaker opened, no probe was let through since and none is due. */
  lemma SkipsExactly(l: Limits, ops: seq<Op>, now: real)
    ensures ShouldSkip(Run(l, ops), now).1 <==>
            LastOpening(l, ops) > 0 && !Probed(Since(l, ops), Due(l, ops)) && now < Due(l, ops)
  {
    PhaseExact(l, ops);
  }

  /** No outage outlasts its failures: an attempt a recovery time after all of them is never skipped. */
  lemma NeverStarved(l: Limits, ops: seq<Op>, now: real)
    requires forall i :: 0 <= i < |ops| && ops[i].Failure? ==> ops[i].now + l.recovery <= now
    ensures !ShouldSkip(Run(l, ops), now).1
  {
    PhaseExact(l, ops);
  }

  // ---------------------------------------------------------------- totals

  /** How often an operation was such an event, given the operations before it. */
  ghost function Tally(ops: seq<Op>, event: (seq<Op>, Op) -> bool): nat {
    if ops == [] then 0
    else Tally(ops[..|ops| - 1], event) + Bit(event(ops[..|ops| - 1], ops[|ops| - 1]))
  }

  ghost predicate Waits(l: Limits, before: seq<Op>) {
    LastOpening(l, before) > 0 && !Probed(Since(l, before), Due(l, before))
  }

  ghost predicate Tries(l: Limits, before: seq<Op>) {
    LastOpening(l, before) > 0 && Probing(Since(l, before), Due(l, before))
  }

  ghost function Opening(l: Limits): (seq<Op>, Op) -> bool {
    (h: seq<Op>, op: Op) => op.Failure? && (Tries(l, h) || Streak(Since(l, h)) + 1 >= l.threshold)
  }

  ghost function Probe(l: Limits): (seq<Op>, Op) -> bool {
    (h: seq<Op>, op: Op) => op.Attempt? && Waits(l, h) && op.now >= Due(l, h)
  }

  ghost function Skipping(l: Limits): (seq<Op>, Op) -> bool {
    (h: seq<Op>, op: Op) => op.Attempt? && Waits(l, h) && op.now < Due(l, h)
  }

  ghost function Closing(l: Limits): (seq<Op>, Op) -> bool {
    (h: seq<Op>, op: Op) => op.Success? && Tries(l, h)
  }

  ghost function Failing(): (seq<Op>, Op) -> bool {
    (h: seq<Op>, op: Op) => op.Failure?
  }

  ghost function Succeeding(): (seq<Op>, Op) -> bool {
    (h: seq<Op>, op: Op) => op.Success?
  }

  /** After any operations every total is the number of the operations it stands for. */
  lemma {:induction false} TotalsExact(l: Limits, ops: seq<Op>)
    ensures var b := Run(l, ops);
            && b.handled == Tally(ops, Succeeding()) && b.failures == Tally(ops, Failing())
            && b.skipped == Tally(ops, Skipping(l)) && b.opens == Tally(ops, Opening(l))
            && b.halfOpens == Tally(ops, Probe(l)) && b.closes == Tally(ops, Closing(l))
  {
    if ops != [] {
      TotalsExact(l, ops[..|ops| - 1]);
      PhaseExact(l, ops[..|ops| - 1]);
    }
  }

  // ---------------------------------------------------------------- recovery

  lemma {:induction false} HealthyStays(l: Limits, b: Breaker, more: seq<Emission>) returns (c: Breaker)
    requires b.phase.Closed? && forall i :: 0 <= i < |more| ==> more[i].outcome.Written?
    ensures c == AfterMore(l, b, more) && c.phase.Closed?
    ensures c.skipped == b.skipped && c.handled == b.handled + |more| && c.failures == b.failures
    decreases |more|
  {
    c := b;
    if more != [] {
      c := HealthyStays(l, AfterEmit(l, b, more[0]), more[1..]);
    }
  }

  /** The breaker after more emissions, one at a time. */
  function AfterMore(l: Limits, b: Breaker, more: seq<Emission>): Breaker
    decreases |more|
  {
    if more == [] then b else AfterMore(l, AfterEmit(l, b, more[0]), more[1..])
  }

  /**
   A sink that works again is used again: the first record a recovery time after all failures reaches it, and if that
   one is written, the breaker is closed and it skips none of the records that are written after it.
   */
  lemma RecoversForGood(l: Limits, emissions: seq<Emission>, e: Emission, more: seq<Emission>)
    requires forall op :: op in EmitAll(l, emissions) && op.Failure? ==> op.now + l.recovery <= e.now
    requires e.outcome.Written? && forall i :: 0 <= i < |more| ==> more[i].outcome.Written?
    ensures var b, c := AfterAll(l, emissions), AfterMore(l, AfterAll(l, emissions), [e] + more);
            && c.phase.Closed? && c.skipped == b.skipped && c.failures == b.failures
            && c.handled == b.handled + 1 + |more|
  {
    var ops, b := EmitAll(l, emissions), AfterAll(l, emissions);
    EmitAllRun(l, emissions);
    NeverStarved(l, ops, e.now);
    assert ([e] + more)[1..] == more;
    var c := HealthyStays(l, AfterEmit(l, b, e), more);
  }
}
