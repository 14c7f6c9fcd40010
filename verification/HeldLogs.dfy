/**
 A request's log records: passed on, held until it ends, or dropped; and the share of requests sampled. The records,
 stamps and keeps of one request are taken one at a time here; `SamplingThreads` and `HoldThreads` interleave them.
 */
module HeldLogs {
  import opened Options

  const MAX_HELD_RECORDS := 200
  const WARNING := 30
  const PATTERNS := 0x1_0000_0000_0000_0000
  const LOW_64_BITS := PATTERNS - 1

  // ---------------------------------------------------------------- sampling arithmetic

  /** Python's `round`: halves go to the even neighbour. */
  function Round(x: real): int {
    var f := x.Floor;
    var d := x - f as real;
    if d < 0.5 then f else if d > 0.5 then f + 1 else if f % 2 == 0 then f else f + 1
  }

  function SampleBound(rate: real): int {
    Round(rate * PATTERNS as real)
  }

  /** The decision for a request with these 64 bits. */
  predicate KeptAt(bound: int, bits: nat) {
    bound > LOW_64_BITS || bits < bound
  }

  lemma RoundNearest(x: real)
    ensures -0.5 <= Round(x) as real - x <= 0.5
  {
  }

  lemma RoundMonotone(x: real, y: real)
    requires x <= y
    ensures Round(x) <= Round(y)
  {
    assert x.Floor <= y.Floor;
  }

  lemma ScaleMonotone(r: real, s: real)
    requires r <= s
    ensures r * PATTERNS as real <= s * PATTERNS as real
  {
  }

  lemma BoundInRange(rate: real)
    requires 0.0 <= rate <= 1.0
    ensures 0 <= SampleBound(rate) <= PATTERNS
  {
    ScaleMonotone(0.0, rate);
    ScaleMonotone(rate, 1.0);
    RoundMonotone(0.0, rate * PATTERNS as real);
    RoundMonotone(rate * PATTERNS as real, PATTERNS as real);
  }

  predicate IsPattern(b: nat) {
    b < PATTERNS
  }

  function Below(n: nat): set<nat> {
    set b: nat | b < n && IsPattern(b)
  }

  lemma {:induction false} BelowSize(n: nat)
    requires n <= PATTERNS
    ensures |Below(n)| == n
  {
    if n > 0 {
      BelowSize(n - 1);
      assert Below(n) == Below(n - 1) + {n - 1};
    } else {
      assert Below(0) == {};
    }
  }

  /** Of the 2^64 bit patterns exactly `sample_bound` are kept, which is the rate to within half a pattern. */
  lemma SampledShare(rate: real)
    requires 0.0 <= rate <= 1.0
    ensures |set b | b in Below(PATTERNS) && KeptAt(SampleBound(rate), b)| == SampleBound(rate)
    ensures -0.5 <= SampleBound(rate) as real - rate * PATTERNS as real <= 0.5
  {
    BoundInRange(rate);
    RoundNearest(rate * PATTERNS as real);
    var kept := set b | b in Below(PATTERNS) && KeptAt(SampleBound(rate), b);
    assert kept == Below(SampleBound(rate));
    BelowSize(SampleBound(rate));
  }

  /** A service that samples more keeps every request a service that samples less keeps. */
  lemma SampledSetsNest(rate: real, higher: real, bits: nat)
    requires 0.0 <= rate <= higher <= 1.0 && KeptAt(SampleBound(rate), bits)
    ensures KeptAt(SampleBound(higher), bits)
  {
    ScaleMonotone(rate, higher);
    RoundMonotone(rate * PATTERNS as real, higher * PATTERNS as real);
  }

  // ---------------------------------------------------------------- the request's filter

  /** A log record. `bits` are the sampling bits of its trace or request id, if it has one. */
  datatype Record = Record(id: nat, level: int, bits: Option<nat>)

  /** `HeldLogFilter`'s settings: the bound is computed once, from the rate. */
  datatype Settings = Settings(level: int, rate: real, bound: int)

  function NewSettings(level: int, rate: real): Settings {
    Settings(level, rate, SampleBound(rate))
  }

  datatype Retention = Failure | Slow

  /** What the filter keeps in the `RequestState`. */
  datatype Logs = Logs(
    sampled: Option<bool>, probability: Option<real>, retention: Option<Retention>, held: seq<Record>)

  const FRESH := Logs(None, None, None, [])

  /** `_sampled`: the first record that needs the decision makes it for the whole request. */
  function Decide(f: Settings, q: Logs, r: Record): (Logs, bool) {
    if f.bound > LOW_64_BITS then (q, true)
    else if q.sampled.Some? then (q, q.sampled.value)
    else
      var keep := r.bits.None? || KeptAt(f.bound, r.bits.value);
      (q.(sampled := Some(keep), probability := Some(if r.bits.None? then 1.0 else f.rate)), keep)
  }

  /** Appending to the bounded deque: the oldest makes room. */
  function Hold(held: seq<Record>, r: Record): seq<Record> {
    LastHeld(held + [r])
  }

  function LastHeld(s: seq<Record>): seq<Record> {
    if |s| <= MAX_HELD_RECORDS then s else s[|s| - MAX_HELD_RECORDS..]
  }

  /** `HeldLogFilter.filter` inside a request. */
  function Filter(f: Settings, q: Logs, r: Record): (Logs, bool) {
    if r.level < f.level then (q.(held := Hold(q.held, r)), false)
    else if r.level >= WARNING then (q, true)
    else
      var (d, keep) := Decide(f, q, r);
      if keep then (d, true) else (d.(held := Hold(d.held, r)), false)
  }

  /** An observer-owned terminal record makes the request's sampling decision if none was made before. */
  predicate StampAsks(f: Settings, q: Logs, r: Record) {
    q.retention.None? && r.level < WARNING && f.rate < 1.0
  }

  /** `LogSamplingFilter.filter` on such a record: the inclusion probability it is stamped with. */
  function Stamp(f: Settings, q: Logs, r: Record): (Logs, real) {
    if !StampAsks(f, q, r) then (q, 1.0)
    else
      var d := Decide(f, q, r).0;
      (d, if d.probability.Some? then d.probability.value else f.rate)
  }

  /** The held records that `keep_request_logs` writes. */
  function Written(f: Settings, held: seq<Record>, failed: bool): (w: seq<Record>)
    ensures |w| <= |held|
  {
    if held == [] then []
    else
      (if failed || held[0].level >= f.level then [held[0]] else []) + Written(f, held[1..], failed)
  }

  function Discarded(f: Settings, held: seq<Record>, failed: bool): seq<Record> {
    if held == [] then []
    else
      (if failed || held[0].level >= f.level then [] else [held[0]]) + Discarded(f, held[1..], failed)
  }

  /** `keep_request_logs`: promotes the request and writes what it held. */
  function Keep(f: Settings, q: Logs, failed: bool): (Logs, seq<Record>) {
    (q.(sampled := Some(true), retention := Some(if failed then Failure else Slow), held := []),
     Written(f, q.held, failed))
  }

  /** The request's part of `RequestState`, updated in place; `out` is what the queue handler was given. */
  class RequestLogs {
    const settings: Settings
    var sampled: Option<bool>
    var probability: Option<real>
    var retention: Option<Retention>
    var held: seq<Record>
    var out: seq<Record>

    function Value(): Logs
      reads this
    {
      Logs(sampled, probability, retention, held)
    }

    constructor (settings: Settings)
      ensures Value() == FRESH && out == [] && this.settings == settings
    {
      this.settings := settings;
      sampled, probability, retention, held, out := None, None, None, [], [];
    }

    method Sampled(r: Record) returns (keep: bool)
      modifies this`sampled, this`probability
      ensures (Value(), keep) == Decide(settings, old(Value()), r)
    {
      if settings.bound > LOW_64_BITS {
        return true;
      }
      if sampled.None? {
        sampled := Some(r.bits.None? || r.bits.value < settings.bound);
        probability := Some(if r.bits.None? then 1.0 else settings.rate);
      }
      keep := sampled.value;
    }

    method StampRecord(r: Record) returns (inclusion: real)
      modifies this`sampled, this`probability
      ensures (Value(), inclusion) == Stamp(settings, old(Value()), r)
    {
      inclusion := 1.0;
      if retention != None {
        return;
      }
      if r.level < WARNING && settings.rate < 1.0 {
        var _ := Sampled(r);
        inclusion := if probability.Some? then probability.value else settings.rate;
      }
    }

    method FilterRecord(r: Record)
      modifies this
      ensures var (q, pass) := Filter(settings, old(Value()), r);
              Value() == q && out == old(out) + (if pass then [r] else [])
    {
      if r.level >= settings.level {
        var pass := r.level >= WARNING;
        if !pass {
          pass := Sampled(r);
        }
        if pass {
          out := out + [r];
          return;
        }
      }
      held := held + [r];
      if |held| > MAX_HELD_RECORDS {
        held := held[|held| - MAX_HELD_RECORDS..];
      }
    }

    method KeepRequestLogs(failed: bool)
      modifies this
      ensures var (q, written) := Keep(settings, old(Value()), failed);
              Value() == q && out == old(out) + written
    {
      sampled := Some(true);
      retention := Some(if failed then Failure else Slow);
      var records := held;
      held := [];
      for i := 0 to |records|
        invariant out + Written(settings, records[i..], failed) == old(out) + Written(settings, records, failed)
        invariant Value() == Logs(Some(true), old(probability), Some(if failed then Failure else Slow), [])
      {
        assert records[i..][1..] == records[i + 1..];
        if failed || records[i].level >= settings.level {
          out := out + [records[i]];
        }
      }
    }
  }

  // ---------------------------------------------------------------- every run

  /** A record reaches the held filter, a terminal record is stamped on its way there, or the request is kept. */
  datatype Event = Logged(record: Record) | Stamped(record: Record) | Kept(failed: bool)

  /** A request so far: its state, what was handed on, what the full deque pushed out, what a keep left behind. */
  datatype Trace = Trace(logs: Logs, out: seq<Record>, pushedOut: seq<Record>, leftBehind: seq<Record>)

  function Next(f: Settings, t: Trace, e: Event): Trace {
    match e
    case Logged(r) =>
      var (q, pass) := Filter(f, t.logs, r);
      if pass then t.(logs := q, out := t.out + [r])
      else t.(logs := q, pushedOut := t.pushedOut + (if |t.logs.held| < MAX_HELD_RECORDS then [] else t.logs.held[..1]))
    case Stamped(r) => t.(logs := Stamp(f, t.logs, r).0)
    case Kept(failed) =>
      var (q, written) := Keep(f, t.logs, failed);
      t.(logs := q, out := t.out + written, leftBehind := t.leftBehind + Discarded(f, t.logs.held, failed))
  }

  function Run(f: Settings, events: seq<Event>): Trace {
    if events == [] then Trace(FRESH, [], [], [])
    else Next(f, Run(f, events[..|events| - 1]), events[|events| - 1])
  }

  /** The records that reached the filter. */
  function Records(events: seq<Event>): seq<Record> {
    if events == [] then []
    else
      var n := |events| - 1;
      Records(events[..n]) + (if events[n].Logged? then [events[n].record] else [])
  }

  lemma {:induction false} WrittenSplits(f: Settings, held: seq<Record>, failed: bool)
    ensures multiset(Written(f, held, failed)) + multiset(Discarded(f, held, failed)) == multiset(held)
  {
    if held != [] {
      var first, rest := [held[0]], held[1..];
      WrittenSplits(f, rest, failed);
      assert held == first + rest;
      var w, d := Written(f, rest, failed), Discarded(f, rest, failed);
      if failed || held[0].level >= f.level {
        assert Written(f, held, failed) == first + w && Discarded(f, held, failed) == d;
      } else {
        assert Written(f, held, failed) == w && Discarded(f, held, failed) == first + d;
      }
    }
  }

  /** A failed request leaves nothing behind; a slow one only what is below the level. */
  lemma {:induction false} DiscardedBelow(f: Settings, held: seq<Record>, failed: bool)
    ensures failed ==> Written(f, held, failed) == held && Discarded(f, held, failed) == []
    ensures forall i :: 0 <= i < |Discarded(f, held, failed)| ==> Discarded(f, held, failed)[i].level < f.level
  {
    if held != [] {
      DiscardedBelow(f, held[1..], failed);
    }
  }

  /** Every record is in exactly one place, as often as it was logged. */
  ghost predicate Conserved(f: Settings, t: Trace, records: seq<Record>) {
    && multiset(records) ==
       multiset(t.out) + multiset(t.logs.held) + multiset(t.pushedOut) + multiset(t.leftBehind)
    && |t.logs.held| <= MAX_HELD_RECORDS
    && (forall i :: 0 <= i < |t.leftBehind| ==> t.leftBehind[i].level < f.level)
  }

  /** Holding a record pushes out the oldest one exactly when 200 are held. */
  lemma HoldKeeps(held: seq<Record>, r: Record)
    requires |held| <= MAX_HELD_RECORDS
    ensures var out := if |held| < MAX_HELD_RECORDS then [] else held[..1];
            out + Hold(held, r) == held + [r]
  {
  }

  /** What is not passed is held, and nothing else changes the deque. */
  lemma FilterHolds(f: Settings, q: Logs, r: Record)
    ensures Filter(f, q, r).0.held == if Filter(f, q, r).1 then q.held else Hold(q.held, r)
  {
  }

  /** Conservation when a held record pushes `out` away. */
  lemma HeldAccounts(all: seq<Record>, passed: seq<Record>, held: seq<Record>, pushed: seq<Record>, left: seq<Record>,
                     r: Record, out: seq<Record>, held': seq<Record>)
    requires multiset(all) == multiset(passed) + multiset(held) + multiset(pushed) + multiset(left)
    requires out + held' == held + [r]
    ensures multiset(all + [r]) == multiset(passed) + multiset(held') + multiset(pushed + out) + multiset(left)
  {
    var a, h, h', o := multiset(all + [r]), multiset(held), multiset(held'), multiset(out);
    assert o + h' == h + multiset([r]) by {
      assert multiset(out + held') == multiset(held + [r]);
    }
    forall x
      ensures a[x] == (multiset(passed) + h' + multiset(pushed + out) + multiset(left))[x]
    {
      assert (o + h')[x] == (h + multiset([r]))[x];
    }
  }

  /** Conservation when a record passes. */
  lemma PassedAccounts(all: seq<Record>, passed: seq<Record>, r: Record, rest: multiset<Record>)
    requires multiset(all) == multiset(passed) + rest
    ensures multiset(all + [r]) == multiset(passed + [r]) + rest
  {
  }

  lemma LoggedConserves(f: Settings, t: Trace, records: seq<Record>, r: Record)
    requires Conserved(f, t, records)
    ensures Conserved(f, Next(f, t, Logged(r)), records + [r])
  {
    var t' := Next(f, t, Logged(r));
    FilterHolds(f, t.logs, r);
    if Filter(f, t.logs, r).1 {
      assert t'.out == t.out + [r] && t'.logs.held == t.logs.held;
      var rest := multiset(t.logs.held) + multiset(t.pushedOut) + multiset(t.leftBehind);
      PassedAccounts(records, t.out, r, rest);
    } else {
      var held, out := t.logs.held, if |t.logs.held| < MAX_HELD_RECORDS then [] else t.logs.held[..1];
      HoldKeeps(held, r);
      assert t'.logs.held == Hold(held, r) && t'.pushedOut == t.pushedOut + out;
      HeldAccounts(records, t.out, held, t.pushedOut, t.leftBehind, r, out, Hold(held, r));
    }
  }

  /** A stamp changes nothing but the decision. */
  lemma StampHolds(f: Settings, q: Logs, r: Record)
    ensures Stamp(f, q, r).0 == q.(sampled := Stamp(f, q, r).0.sampled, probability := Stamp(f, q, r).0.probability)
  {
  }

  lemma KeptConserves(f: Settings, t: Trace, records: seq<Record>, failed: bool)
    requires Conserved(f, t, records)
    ensures Conserved(f, Next(f, t, Kept(failed)), records)
  {
    WrittenSplits(f, t.logs.held, failed);
    DiscardedBelow(f, t.logs.held, failed);
  }

  /**
   For any records, stamps and keeps in any order, no record is handed on more often than it was logged and none
   disappears: it was handed on, is still held, was pushed out by 200 newer held ones, or was below the level
   when a slow request that did not fail was kept.
   */
  lemma {:induction false} RunConserves(f: Settings, events: seq<Event>)
    ensures Conserved(f, Run(f, events), Records(events))
  {
    if events != [] {
      var n := |events| - 1;
      RunConserves(f, events[..n]);
      var t, records := Run(f, events[..n]), Records(events[..n]);
      match events[n]
      case Logged(r) => LoggedConserves(f, t, records, r);
      case Stamped(r) => StampHolds(f, t.logs, r);
      case Kept(failed) => KeptConserves(f, t, records, failed);
    }
  }

  // ---------------------------------------------------------------- a request that is kept at its end

  /** The event needs the request's sampling decision: a record at or above the level, or a stamp. */
  predicate Asks(f: Settings, e: Event) {
    match e
    case Logged(r) => f.level <= r.level < WARNING
    case Stamped(r) => r.level < WARNING && f.rate < 1.0
    case Kept(_) => false
  }

  /** The decision of a request with these events: that of the first one that needs it. */
  function Chosen(f: Settings, events: seq<Event>): bool {
    if f.bound > LOW_64_BITS || events == [] then true
    else if Asks(f, events[0]) then
      events[0].record.bits.None? || KeptAt(f.bound, events[0].record.bits.value)
    else Chosen(f, events[1..])
  }

  predicate Passes(f: Settings, r: Record, chosen: bool) {
    r.level >= f.level && (r.level >= WARNING || chosen)
  }

  /** In order, the logged records that pass (`pass`), or those that are held. */
  function Select(f: Settings, events: seq<Event>, chosen: bool, pass: bool): (s: seq<Record>)
    ensures |s| <= |events|
  {
    if events == [] then []
    else
      var n := |events| - 1;
      Select(f, events[..n], chosen, pass)
      + (if events[n].Logged? && Passes(f, events[n].record, chosen) == pass then [events[n].record] else [])
  }

  ghost predicate NoneAsks(f: Settings, events: seq<Event>) {
    forall i :: 0 <= i < |events| ==> !Asks(f, events[i])
  }

  /** A decision nobody asked for changes nothing. */
  lemma {:induction false} ChoiceIrrelevant(f: Settings, events: seq<Event>, pass: bool)
    requires NoneAsks(f, events)
    ensures Select(f, events, true, pass) == Select(f, events, false, pass)
  {
    if events != [] {
      ChoiceIrrelevant(f, events[..|events| - 1], pass);
    }
  }

  lemma {:induction false} ChosenPrefix(f: Settings, events: seq<Event>, e: Event)
    ensures Chosen(f, events + [e]) == Chosen(f, if NoneAsks(f, events) then [e] else events)
    decreases |events|
  {
    if events == [] {
      assert events + [e] == [e];
    } else {
      var rest := events[1..];
      ChosenPrefix(f, rest, e);
      assert (events + [e])[1..] == rest + [e];
      if !Asks(f, events[0]) {
        assert forall i :: 1 <= i < |events| ==> events[i] == rest[i - 1];
        assert NoneAsks(f, events) <==> NoneAsks(f, rest);
      }
    }
  }

  lemma NoneAsksStep(f: Settings, events: seq<Event>, e: Event)
    ensures NoneAsks(f, events + [e]) <==> NoneAsks(f, events) && !Asks(f, e)
  {
    var all := events + [e];
    assert forall i :: 0 <= i < |events| ==> all[i] == events[i];
    assert all[|events|] == e;
  }

  /** The decision is made when, and only when, an event needed it. */
  ghost predicate Cached(f: Settings, q: Logs, events: seq<Event>) {
    && q.retention.None?
    && (q.sampled.Some? ==> q.sampled.value == Chosen(f, events))
    && (q.sampled.Some? <==> f.bound <= LOW_64_BITS && !NoneAsks(f, events))
  }

  /** The request's state after these events, none of which is a keep. */
  ghost predicate Plain(f: Settings, t: Trace, events: seq<Event>) {
    var chosen := Chosen(f, events);
    && t.out == Select(f, events, chosen, true)
    && t.logs.held == LastHeld(Select(f, events, chosen, false))
    && Cached(f, t.logs, events)
  }

  lemma HoldLast(held: seq<Record>, r: Record)
    ensures Hold(LastHeld(held), r) == LastHeld(held + [r])
  {
  }

  lemma AllChosen(f: Settings, events: seq<Event>)
    requires f.bound > LOW_64_BITS
    ensures Chosen(f, events)
  {
  }

  /** The decision after one more event does not revise what became of the records before. */
  lemma ChosenStep(f: Settings, t: Trace, events: seq<Event>, e: Event)
    requires Plain(f, t, events)
    ensures var chosen := Chosen(f, events + [e]);
            && t.out == Select(f, events, chosen, true)
            && t.logs.held == LastHeld(Select(f, events, chosen, false))
  {
    ChosenPrefix(f, events, e);
    if f.bound > LOW_64_BITS {
      AllChosen(f, events);
      AllChosen(f, events + [e]);
    } else if NoneAsks(f, events) {
      ChoiceIrrelevant(f, events, true);
      ChoiceIrrelevant(f, events, false);
    }
  }

  /** What `_sampled` answers an event that needs it, and what it leaves cached. */
  lemma DecideStep(f: Settings, q: Logs, events: seq<Event>, e: Event)
    requires Cached(f, q, events) && Asks(f, e)
    ensures var (d, keep) := Decide(f, q, e.record); keep == Chosen(f, events + [e]) && Cached(f, d, events + [e])
  {
    ChosenPrefix(f, events, e);
    NoneAsksStep(f, events, e);
    if f.bound > LOW_64_BITS {
      AllChosen(f, events + [e]);
    }
  }

  lemma QuietStep(f: Settings, q: Logs, events: seq<Event>, e: Event)
    requires Cached(f, q, events) && !Asks(f, e)
    ensures Cached(f, q, events + [e])
  {
    ChosenPrefix(f, events, e);
    NoneAsksStep(f, events, e);
  }

  /** One more event joins those that pass or those that are held. */
  lemma SelectStep(f: Settings, events: seq<Event>, e: Event, chosen: bool, pass: bool)
    ensures Select(f, events + [e], chosen, pass) ==
            Select(f, events, chosen, pass)
            + (if e.Logged? && Passes(f, e.record, chosen) == pass then [e.record] else [])
  {
    assert (events + [e])[..|events|] == events;
  }

  /** Where one more record goes. */
  lemma LoggedGoes(f: Settings, t: Trace, events: seq<Event>, r: Record)
    requires Cached(f, t.logs, events)
    ensures var t' := Next(f, t, Logged(r));
            && Cached(f, t'.logs, events + [Logged(r)])
            && (if Passes(f, r, Chosen(f, events + [Logged(r)]))
                then t'.out == t.out + [r] && t'.logs.held == t.logs.held
                else t'.out == t.out && t'.logs.held == Hold(t.logs.held, r))
  {
    FilterHolds(f, t.logs, r);
    if Asks(f, Logged(r)) {
      DecideStep(f, t.logs, events, Logged(r));
    } else {
      QuietStep(f, t.logs, events, Logged(r));
    }
  }

  lemma LoggedPlain(f: Settings, t: Trace, events: seq<Event>, r: Record)
    requires Plain(f, t, events)
    ensures Plain(f, Next(f, t, Logged(r)), events + [Logged(r)])
  {
    var all := events + [Logged(r)];
    var chosen := Chosen(f, all);
    ChosenStep(f, t, events, Logged(r));
    LoggedGoes(f, t, events, r);
    SelectStep(f, events, Logged(r), chosen, true);
    SelectStep(f, events, Logged(r), chosen, false);
    var held := Select(f, events, chosen, false);
    if Passes(f, r, chosen) {
      assert Select(f, all, chosen, false) == held;
    } else {
      HoldLast(held, r);
    }
  }

  lemma StampedPlain(f: Settings, t: Trace, events: seq<Event>, r: Record)
    requires Plain(f, t, events)
    ensures Plain(f, Next(f, t, Stamped(r)), events + [Stamped(r)])
  {
    var chosen := Chosen(f, events + [Stamped(r)]);
    ChosenStep(f, t, events, Stamped(r));
    StampHolds(f, t.logs, r);
    SelectStep(f, events, Stamped(r), chosen, true);
    SelectStep(f, events, Stamped(r), chosen, false);
    if Asks(f, Stamped(r)) {
      DecideStep(f, t.logs, events, Stamped(r));
    } else {
      QuietStep(f, t.logs, events, Stamped(r));
    }
  }

  lemma {:induction false} RunPlain(f: Settings, events: seq<Event>)
    requires forall i :: 0 <= i < |events| ==> !events[i].Kept?
    ensures Plain(f, Run(f, events), events)
  {
    if events != [] {
      var n := |events| - 1;
      RunPlain(f, events[..n]);
      assert events[..n] + [events[n]] == events;
      match events[n]
      case Logged(r) => LoggedPlain(f, Run(f, events[..n]), events[..n], r);
      case Stamped(r) => StampedPlain(f, Run(f, events[..n]), events[..n], r);
    }
  }

  /**
   What a kept request writes after any records and stamps: the records that passed at once, then the last 200 held
   ones in hold order, without those below the level unless it failed.
   */
  lemma KeptRequestWrites(f: Settings, events: seq<Event>, failed: bool)
    requires forall i :: 0 <= i < |events| ==> !events[i].Kept?
    ensures var chosen := Chosen(f, events);
            Run(f, events + [Kept(failed)]).out ==
            Select(f, events, chosen, true) + Written(f, LastHeld(Select(f, events, chosen, false)), failed)
  {
    RunPlain(f, events);
    assert (events + [Kept(failed)])[..|events|] == events;
  }

  lemma {:induction false} SelectSplits(f: Settings, events: seq<Event>, chosen: bool)
    ensures multiset(Select(f, events, chosen, true)) + multiset(Select(f, events, chosen, false))
            == multiset(Records(events))
  {
    if events != [] {
      SelectSplits(f, events[..|events| - 1], chosen);
    }
  }

  /** A failed request that held at most 200 records loses nothing. */
  lemma FailedRequestLosesNothing(f: Settings, events: seq<Event>)
    requires forall i :: 0 <= i < |events| ==> !events[i].Kept?
    requires |Select(f, events, Chosen(f, events), false)| <= MAX_HELD_RECORDS
    ensures multiset(Run(f, events + [Kept(true)]).out) == multiset(Records(events))
  {
    var chosen := Chosen(f, events);
    KeptRequestWrites(f, events, true);
    DiscardedBelow(f, Select(f, events, chosen, false), true);
    SelectSplits(f, events, chosen);
  }

  // ---------------------------------------------------------------- the decision is cached

  /** A decision, once made, changes only from no to yes, and only when the request is kept. */
  lemma DecisionOnlyPromoted(f: Settings, t: Trace, e: Event)
    requires t.logs.sampled.Some?
    ensures var s := Next(f, t, e).logs.sampled;
            s == t.logs.sampled || (t.logs.sampled == Some(false) && s == Some(true) && e.Kept?)
  {
    if t.logs.sampled.value {
      assert t.logs.sampled == Some(true);
    } else {
      assert t.logs.sampled == Some(false);
    }
  }

  // ---------------------------------------------------------------- terminal records

  /** What a request's sampling fields can say about each other. */
  ghost predicate Consistent(f: Settings, q: Logs) {
    && (q.retention.Some? ==> q.sampled == Some(true))
    && (q.probability == Some(1.0) && f.rate < 1.0 ==> q.sampled == Some(true))
  }

  lemma {:induction false} RunConsistent(f: Settings, events: seq<Event>)
    ensures Consistent(f, Run(f, events).logs)
  {
    if events != [] {
      RunConsistent(f, events[..|events| - 1]);
    }
  }

  /** A rate of one keeps every pattern. */
  lemma FullRate()
    ensures SampleBound(1.0) == PATTERNS
  {
  }

  /**
   After any history of records, stamps and keeps, a terminal record said to be included with certainty, at or above
   the level, does pass the held filter.
   */
  lemma CertainRecordsPass(level: int, rate: real, events: seq<Event>, r: Record)
    requires 0.0 <= rate <= 1.0 && r.level >= level
    ensures var f := NewSettings(level, rate);
            var (q, probability) := Stamp(f, Run(f, events).logs, r);
            probability == 1.0 ==> Filter(f, q, r).1
  {
    RunConsistent(NewSettings(level, rate), events);
    FullRate();
  }
}
