/** The breaker around each output: when it lets a record through, and what its totals add up to. */
module CircuitBreaker {
  import opened Counting

  datatype Phase = Closed | Open | HalfOpen

  /** What `snapshot` reports, and the time until which an open breaker skips. */
  datatype Breaker = Breaker(
    phase: Phase, openedUntil: real, consecutive: nat,
    handled: nat, failures: nat, skipped: nat, opens: nat, halfOpens: nat, closes: nat)

  /** Consecutive failures that open the breaker, and how long it then skips. */
  datatype Limits = Limits(threshold: nat, recovery: real)

  ghost predicate ValidLimits(l: Limits) {
    l.threshold >= 1 && l.recovery > 0.0
  }

  const FRESH := Breaker(Closed, 0.0, 0, 0, 0, 0, 0, 0, 0)

  // ---------------------------------------------------------------- the three locked operations

  /** `_should_skip`: an open breaker whose time has come lets one probe through. */
  function ShouldSkip(b: Breaker, now: real): (Breaker, bool) {
    if !b.phase.Open? then (b, false)
    else if now >= b.openedUntil then (b.(phase := HalfOpen, halfOpens := b.halfOpens + 1), false)
    else (b.(skipped := b.skipped + 1), true)
  }

  /** `_record_failure`: a failed probe, or enough failures in a row, opens the breaker. */
  function RecordFailure(l: Limits, b: Breaker, now: real): Breaker {
    var c := b.(failures := b.failures + 1, consecutive := b.consecutive + 1);
    if b.phase.HalfOpen? || c.consecutive >= l.threshold then
      c.(phase := Open, opens := b.opens + 1, openedUntil := now + l.recovery, consecutive := 0)
    else c
  }

  /** `_record_success`: a successful probe closes the breaker. */
  function RecordSuccess(b: Breaker): Breaker {
    var c := b.(handled := b.handled + 1, consecutive := 0);
    if b.phase.HalfOpen? then c.(phase := Closed, closes := b.closes + 1, openedUntil := 0.0)
    else c
  }

  // ---------------------------------------------------------------- the object

  /** What the delegate does with a record: it writes it, reports a failure itself, or raises. */
  datatype Outcome = Written | Reported | Raised

  class SinkCircuitBreakerHandler {
    const limits: Limits
    var phase: Phase
    var openedUntil: real
    var consecutiveFailures: nat
    var handledTotal: nat
    var failuresTotal: nat
    var skippedTotal: nat
    var opensTotal: nat
    var halfOpenTotal: nat
    var closesTotal: nat
    var delegateFailed: bool

    function Snapshot(): Breaker
      reads this
    {
      Breaker(phase, openedUntil, consecutiveFailures, handledTotal, failuresTotal, skippedTotal,
              opensTotal, halfOpenTotal, closesTotal)
    }

    constructor (failureThreshold: int, recoverySeconds: real)
      ensures Snapshot() == FRESH && ValidLimits(limits)
      ensures limits.threshold as int == if failureThreshold < 1 then 1 else failureThreshold
      ensures limits.recovery == if recoverySeconds < 0.001 then 0.001 else recoverySeconds
    {
      limits := Limits(if failureThreshold < 1 then 1 else failureThreshold,
                       if recoverySeconds < 0.001 then 0.001 else recoverySeconds);
      phase, openedUntil, consecutiveFailures := Closed, 0.0, 0;
      handledTotal, failuresTotal, skippedTotal := 0, 0, 0;
      opensTotal, halfOpenTotal, closesTotal := 0, 0, 0;
      delegateFailed := false;
    }

    method SkipOrProbe(now: real) returns (skip: bool)
      modifies this
      ensures (Snapshot(), skip) == ShouldSkip(old(Snapshot()), now)
    {
      if phase != Open {
        return false;
      }
      if now >= openedUntil {
        phase := HalfOpen;
        halfOpenTotal := halfOpenTotal + 1;
        return false;
      }
      skippedTotal := skippedTotal + 1;
      skip := true;
    }

    method NoteFailure(now: real)
      modifies this
      ensures Snapshot() == RecordFailure(limits, old(Snapshot()), now)
    {
      failuresTotal := failuresTotal + 1;
      consecutiveFailures := consecutiveFailures + 1;
      if phase == HalfOpen || consecutiveFailures >= limits.threshold {
        phase := Open;
        opensTotal := opensTotal + 1;
        openedUntil := now + limits.recovery;
        consecutiveFailures := 0;
      }
    }

    method NoteSuccess()
      modifies this
      ensures Snapshot() == RecordSuccess(old(Snapshot()))
    {
      handledTotal := handledTotal + 1;
      consecutiveFailures := 0;
      if phase == HalfOpen {
        phase := Closed;
        closesTotal := closesTotal + 1;
        openedUntil := 0.0;
      }
    }

    /**
     `emit`, with the delegate's behaviour and the two clock readings given. The delegate is reached exactly
     when the breaker was not open or its time had come, and the record adds one to exactly one total.
     */
    method Emit(now: real, outcome: Outcome, later: real) returns (reached: bool)
      modifies this
      ensures reached <==> !(old(phase) == Open && now < old(openedUntil))
      ensures Snapshot() ==
              (var b := ShouldSkip(old(Snapshot()), now).0;
               if !reached then b else if outcome.Written? then RecordSuccess(b) else RecordFailure(limits, b, later))
      ensures handledTotal == old(handledTotal) + (if reached && outcome.Written? then 1 else 0)
      ensures failuresTotal == old(failuresTotal) + (if reached && !outcome.Written? then 1 else 0)
      ensures skippedTotal == old(skippedTotal) + (if reached then 0 else 1)
    {
      var skip := SkipOrProbe(now);
      if skip {
        return false;
      }
      reached := true;
      delegateFailed := false;
      match outcome {
        case Raised =>
          NoteFailure(later);
          return;
        case Reported =>
          delegateFailed := true;
        case Written =>
      }
      if delegateFailed {
        NoteFailure(later);
      } else {
        NoteSuccess();
      }
    }

    /** `flush`: a delegate that raises counts as a failure, even while the breaker is open. */
    method Flush(raises: bool, now: real)
      modifies this
      ensures Snapshot() == if raises then RecordFailure(limits, old(Snapshot()), now) else old(Snapshot())
    {
      if raises {
        NoteFailure(now);
      }
    }
  }

  // ---------------------------------------------------------------- every run

  /** The locked operations of emits and flushes, in the order they took the lock. */
  datatype Op = Attempt(now: real) | Failure(now: real) | Success

  function Step(l: Limits, b: Breaker, op: Op): Breaker {
    match op
    case Attempt(now) => ShouldSkip(b, now).0
    case Failure(now) => RecordFailure(l, b, now)
    case Success => RecordSuccess(b)
  }

  function Run(l: Limits, ops: seq<Op>): Breaker {
    if ops == [] then FRESH else Step(l, Run(l, ops[..|ops| - 1]), ops[|ops| - 1])
  }

  lemma {:induction false} RunAppend(l: Limits, ops: seq<Op>, op: Op)
    ensures Run(l, ops + [op]) == Step(l, Run(l, ops), op)
  {
    assert (ops + [op])[..|ops|] == ops;
  }

  /** Probes that failed: each put the breaker back to open with a single failure. */
  function FailedProbes(b: Breaker): int {
    b.halfOpens - b.closes - Bit(b.phase.HalfOpen?)
  }

  ghost predicate Accounted(l: Limits, b: Breaker) {
    && b.consecutive < l.threshold
    && b.halfOpens + Bit(b.phase.Open?) <= b.opens
    && b.closes + Bit(b.phase.HalfOpen?) <= b.halfOpens
    && b.failures >= l.threshold * (b.opens - FailedProbes(b)) + FailedProbes(b) + b.consecutive
  }

  lemma StepAccounted(l: Limits, b: Breaker, op: Op)
    requires ValidLimits(l) && Accounted(l, b)
    ensures Accounted(l, Step(l, b, op))
  {
    var b' := Step(l, b, op);
    var k, k' := b.opens - FailedProbes(b), b'.opens - FailedProbes(b');
    assert k' == k || k' == k + 1;
    assert l.threshold * (k + 1) == l.threshold * k + l.threshold;
  }

  /**
   For any interleaving of emits and flushes: every opening but those from failed probes cost a whole
   threshold of failures, and openings, probes and closings nest.
   */
  lemma {:induction false} RunAccounted(l: Limits, ops: seq<Op>)
    requires ValidLimits(l)
    ensures Accounted(l, Run(l, ops))
  {
    if ops == [] {
      assert l.threshold * 0 == 0;
    } else {
      RunAccounted(l, ops[..|ops| - 1]);
      StepAccounted(l, Run(l, ops[..|ops| - 1]), ops[|ops| - 1]);
    }
  }

  /** The failures since the last success. */
  function Streak(ops: seq<Op>): nat {
    if ops == [] then 0
    else
      var n := |ops| - 1;
      match ops[n]
      case Success => 0
      case Failure(_) => Streak(ops[..n]) + 1
      case Attempt(_) => Streak(ops[..n])
  }

  lemma {:induction false} ConsecutiveBounded(l: Limits, ops: seq<Op>)
    ensures Run(l, ops).consecutive <= Streak(ops)
  {
    if ops != [] {
      ConsecutiveBounded(l, ops[..|ops| - 1]);
    }
  }

  /** A breaker opens only on a failed probe, or when a whole threshold of failures came without a success between. */
  lemma {:induction false} OpensOnlyOnStreak(l: Limits, ops: seq<Op>, op: Op)
    requires Run(l, ops + [op]).opens > Run(l, ops).opens
    ensures op.Failure? && Run(l, ops + [op]).phase.Open?
    ensures Run(l, ops).phase.HalfOpen? || Streak(ops + [op]) >= l.threshold
  {
    RunAppend(l, ops, op);
    ConsecutiveBounded(l, ops);
    assert (ops + [op])[..|ops|] == ops;
  }

  // ---------------------------------------------------------------- probe rate

  predicate Timed(op: Op) {
    !op.Success?
  }

  /** Clock readings, taken under the lock, never decrease. */
  predicate Clocked(ops: seq<Op>) {
    forall i, j :: 0 <= i < j < |ops| && Timed(ops[i]) && Timed(ops[j]) ==> ops[i].now <= ops[j].now
  }

  /** `k` recovery times, as a sum. */
  function Times(k: nat, d: real): real {
    if k == 0 then 0.0 else Times(k - 1, d) + d
  }

  lemma {:induction false} TimesProduct(k: nat, d: real)
    ensures Times(k, d) == k as real * d
  {
    if k > 0 {
      TimesProduct(k - 1, d);
      assert k as real * d == (k - 1) as real * d + d;
    }
  }

  /** `first` is when the breaker first opened and `last` a reading no earlier than any so far. */
  ghost predicate Spaced(l: Limits, b: Breaker, first: real, last: real) {
    && first <= last
    && Times(b.halfOpens, l.recovery) <= last - first
    && (b.phase.Open? ==> b.openedUntil >= first + Times(b.halfOpens + 1, l.recovery))
  }

  lemma StepSpaced(l: Limits, b: Breaker, op: Op, first: real, last: real)
    requires ValidLimits(l) && Spaced(l, b, first, last) && (Timed(op) ==> last <= op.now)
    ensures Spaced(l, Step(l, b, op), first, if Timed(op) then op.now else last)
  {
  }

  lemma {:induction false} NeverOpened(l: Limits, ops: seq<Op>)
    requires ValidLimits(l)
    ensures Run(l, ops).opens == 0 ==> Run(l, ops).phase.Closed? && Run(l, ops).halfOpens == 0
  {
    if ops != [] {
      NeverOpened(l, ops[..|ops| - 1]);
    }
  }

  /** The reading at which a run first opened the breaker. */
  function FirstOpening(l: Limits, ops: seq<Op>): real
    requires Run(l, ops).opens > 0
  {
    var n := |ops| - 1;
    if Run(l, ops[..n]).opens > 0 then FirstOpening(l, ops[..n])
    else ops[n].now
  }

  /** The operation that first opens the breaker starts the count of recovery times. */
  lemma FirstSpaced(l: Limits, b: Breaker, op: Op)
    requires ValidLimits(l) && b.opens == 0 && b.phase.Closed? && b.halfOpens == 0 && Step(l, b, op).opens > 0
    ensures op.Failure? && Spaced(l, Step(l, b, op), op.now, op.now)
  {
    assert Times(1, l.recovery) == Times(0, l.recovery) + l.recovery;
  }

  predicate NotAfter(ops: seq<Op>, last: real) {
    forall i :: 0 <= i < |ops| && Timed(ops[i]) ==> ops[i].now <= last
  }

  lemma {:induction false} RunSpaced(l: Limits, ops: seq<Op>, last: real)
    requires ValidLimits(l) && Clocked(ops) && NotAfter(ops, last) && Run(l, ops).opens > 0
    ensures Spaced(l, Run(l, ops), FirstOpening(l, ops), last)
    decreases |ops|
  {
    var n := |ops| - 1;
    var b, op := Run(l, ops[..n]), ops[n];
    if b.opens > 0 {
      var before := if Timed(op) then op.now else last;
      RunSpaced(l, ops[..n], before);
      StepSpaced(l, b, op, FirstOpening(l, ops[..n]), before);
    } else {
      NeverOpened(l, ops[..n]);
      FirstSpaced(l, b, op);
    }
  }

  /** One recovery time per probe fits between the first opening and `last`. */
  ghost predicate ProbesFit(probes: int, recovery: real, elapsed: real) {
    probes as real * recovery <= elapsed
  }

  lemma SpacedProduct(l: Limits, b: Breaker, first: real, last: real)
    requires Spaced(l, b, first, last)
    ensures ProbesFit(b.halfOpens, l.recovery, last - first)
  {
    TimesProduct(b.halfOpens, l.recovery);
  }

  /** Probes are at least a recovery time apart, counted from the first opening. */
  lemma ProbeRate(l: Limits, ops: seq<Op>, last: real)
    requires ValidLimits(l) && Clocked(ops) && NotAfter(ops, last) && Run(l, ops).opens > 0
    ensures ProbesFit(Run(l, ops).halfOpens, l.recovery, last - FirstOpening(l, ops))
  {
    RunSpaced(l, ops, last);
    SpacedProduct(l, Run(l, ops), FirstOpening(l, ops), last);
  }

  // ---------------------------------------------------------------- an outage

  /** One `emit` as a whole, with its two clock readings. */
  datatype Emission = Emission(now: real, outcome: Outcome, later: real)

  function EmitOps(l: Limits, b: Breaker, e: Emission): seq<Op> {
    if ShouldSkip(b, e.now).1 then [Attempt(e.now)]
    else [Attempt(e.now), if e.outcome.Written? then Success else Failure(e.later)]
  }

  function EmitAll(l: Limits, emissions: seq<Emission>): seq<Op> {
    if emissions == [] then []
    else
      var before := EmitAll(l, emissions[..|emissions| - 1]);
      before + EmitOps(l, Run(l, before), emissions[|emissions| - 1])
  }

  /** The state an emission leaves, by what became of it. */
  function AfterEmit(l: Limits, b: Breaker, e: Emission): Breaker {
    var (c, skip) := ShouldSkip(b, e.now);
    if skip then c else if e.outcome.Written? then RecordSuccess(c) else RecordFailure(l, c, e.later)
  }

  lemma {:induction false} EmitRun(l: Limits, ops: seq<Op>, e: Emission)
    ensures Run(l, ops + EmitOps(l, Run(l, ops), e)) == AfterEmit(l, Run(l, ops), e)
  {
    var b := Run(l, ops);
    RunAppend(l, ops, Attempt(e.now));
    if ShouldSkip(b, e.now).1 {
      assert EmitOps(l, b, e) == [Attempt(e.now)];
    } else {
      var op := if e.outcome.Written? then Success else Failure(e.later);
      RunAppend(l, ops + [Attempt(e.now)], op);
      assert ops + EmitOps(l, b, e) == ops + [Attempt(e.now)] + [op];
    }
  }

  /** The breaker after these emissions, one at a time. */
  function AfterAll(l: Limits, emissions: seq<Emission>): Breaker {
    if emissions == [] then FRESH
    else AfterEmit(l, AfterAll(l, emissions[..|emissions| - 1]), emissions[|emissions| - 1])
  }

  lemma {:induction false} EmitAllRun(l: Limits, emissions: seq<Emission>)
    ensures Run(l, EmitAll(l, emissions)) == AfterAll(l, emissions)
  {
    if emissions != [] {
      var n := |emissions| - 1;
      EmitAllRun(l, emissions[..n]);
      EmitRun(l, EmitAll(l, emissions[..n]), emissions[n]);
    }
  }

  lemma {:induction false} AllCounted(l: Limits, emissions: seq<Emission>)
    ensures var b := AfterAll(l, emissions); b.handled + b.failures + b.skipped == |emissions|
    ensures (forall i :: 0 <= i < |emissions| ==> !emissions[i].outcome.Written?) ==>
              AfterAll(l, emissions).handled == 0
  {
    if emissions != [] {
      AllCounted(l, emissions[..|emissions| - 1]);
    }
  }

  /** Every emission ends in exactly one of the three totals. */
  lemma {:induction false} EmissionsCounted(l: Limits, emissions: seq<Emission>)
    ensures var b := Run(l, EmitAll(l, emissions)); b.handled + b.failures + b.skipped == |emissions|
  {
    EmitAllRun(l, emissions);
    AllCounted(l, emissions);
  }

  ghost predicate InOutage(l: Limits, b: Breaker) {
    && b.closes == 0 && !b.phase.HalfOpen?
    && (b.opens == 0 ==> b.phase.Closed? && b.halfOpens == 0 && b.failures == b.consecutive < l.threshold)
    && (b.opens > 0 ==> b.phase.Open? && b.consecutive == 0 && b.failures == l.threshold + b.halfOpens)
  }

  lemma OutageStep(l: Limits, b: Breaker, e: Emission)
    requires ValidLimits(l) && InOutage(l, b) && !e.outcome.Written?
    ensures InOutage(l, AfterEmit(l, b, e))
  {
  }

  lemma {:induction false} OutageState(l: Limits, emissions: seq<Emission>)
    requires ValidLimits(l)
    requires forall i :: 0 <= i < |emissions| ==> !emissions[i].outcome.Written?
    ensures InOutage(l, AfterAll(l, emissions))
  {
    if emissions != [] {
      var n := |emissions| - 1;
      OutageState(l, emissions[..n]);
      OutageStep(l, AfterAll(l, emissions[..n]), emissions[n]);
    }
  }

  /** While a sink keeps failing, it is tried at most `threshold` times and then once per probe. */
  lemma {:induction false} OutageAttempts(l: Limits, emissions: seq<Emission>)
    requires ValidLimits(l)
    requires forall i :: 0 <= i < |emissions| ==> !emissions[i].outcome.Written?
    ensures var b := Run(l, EmitAll(l, emissions));
            && b.failures + b.skipped == |emissions|
            && (if b.opens == 0 then b.failures < l.threshold else b.failures == l.threshold + b.halfOpens)
  {
    EmitAllRun(l, emissions);
    AllCounted(l, emissions);
    OutageState(l, emissions);
  }

  /** Those probes are at least a recovery time apart, however many records arrive; all the others are skipped. */
  lemma {:induction false} OutageCost(l: Limits, emissions: seq<Emission>, last: real)
    requires ValidLimits(l) && Clocked(EmitAll(l, emissions)) && NotAfter(EmitAll(l, emissions), last)
    requires forall i :: 0 <= i < |emissions| ==> !emissions[i].outcome.Written?
    requires Run(l, EmitAll(l, emissions)).opens > 0
    ensures var ops := EmitAll(l, emissions);
            ProbesFit(|emissions| - Run(l, ops).skipped - l.threshold, l.recovery, last - FirstOpening(l, ops))
  {
    OutageAttempts(l, emissions);
    ProbeRate(l, EmitAll(l, emissions), last);
  }
}
