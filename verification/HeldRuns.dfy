/** What a request's events alone say of its decision, its probability, its retention and of what it writes. */
module HeldRuns {
  import opened Options
  import opened HeldLogs

  predicate AnyKept(events: seq<Event>) {
    exists i :: 0 <= i < |events| && events[i].Kept?
  }

  lemma AnyKeptLast(events: seq<Event>)
    requires events != []
    ensures AnyKept(events) <==> AnyKept(events[..|events| - 1]) || events[|events| - 1].Kept?
  {
    var n := |events| - 1;
    if AnyKept(events) && !events[n].Kept? {
      var i :| 0 <= i < |events| && events[i].Kept?;
      assert events[..n][i].Kept?;
    }
  }

  /** Why the request was kept, by its last keep. */
  function LastKept(events: seq<Event>): Option<Retention> {
    if events == [] then None
    else
      match events[|events| - 1]
      case Kept(failed) => Some(if failed then Failure else Slow)
      case _ => LastKept(events[..|events| - 1])
  }

  /** The record whose sampling bits decided: that of the first event that needed a decision, if no keep came first. */
  function Decider(f: Settings, events: seq<Event>): Option<Record> {
    if events == [] then None
    else
      var n := |events| - 1;
      var earlier := Decider(f, events[..n]);
      if earlier.None? && !AnyKept(events[..n]) && Asks(f, events[n]) then Some(events[n].record) else earlier
  }

  function Verdict(f: Settings, r: Record): bool {
    r.bits.None? || KeptAt(f.bound, r.bits.value)
  }

  /** The decision, with its probability, after these events. A filter that keeps everything never makes one. */
  ghost predicate DecisionMeaning(f: Settings, q: Logs, events: seq<Event>) {
    var decider := if f.bound > LOW_64_BITS then None else Decider(f, events);
    && q.retention == LastKept(events)
    && (q.retention.Some? <==> AnyKept(events))
    && q.sampled == (if AnyKept(events) then Some(true)
                     else if decider.Some? then Some(Verdict(f, decider.value))
                     else None)
    && q.probability == (if decider.None? then None
                         else Some(if decider.value.bits.None? then 1.0 else f.rate))
  }

  lemma {:induction false} DecisionExact(f: Settings, events: seq<Event>)
    ensures DecisionMeaning(f, Run(f, events).logs, events)
  {
    if events != [] {
      var n := |events| - 1;
      DecisionExact(f, events[..n]);
      AnyKeptLast(events);
    }
  }

  /**
   The inclusion probability stamped on a terminal record: 1.0 in a kept request, at or above WARNING or at the full
   rate; otherwise 1.0 if the record that decided for the request has no sampling bits, and else the rate.
   */
  lemma StampExact(f: Settings, events: seq<Event>, r: Record)
    ensures Stamp(f, Run(f, events).logs, r).1 ==
            if AnyKept(events) || r.level >= WARNING || f.rate >= 1.0 then 1.0
            else if f.bound > LOW_64_BITS then f.rate
            else
              var decider := Decider(f, events + [Stamped(r)]);
              if decider.Some? && decider.value.bits.None? then 1.0 else f.rate
  {
    DecisionExact(f, events);
    assert (events + [Stamped(r)])[..|events|] == events;
  }

  // ---------------------------------------------------------------- what is written

  /** The records at or above the level, in order. */
  function AtLevel(f: Settings, s: seq<Record>): seq<Record> {
    if s == [] then []
    else AtLevel(f, s[..|s| - 1]) + (if s[|s| - 1].level >= f.level then [s[|s| - 1]] else [])
  }

  lemma {:induction false} AtLevelFirst(f: Settings, s: seq<Record>)
    requires s != []
    ensures AtLevel(f, s) == (if s[0].level >= f.level then [s[0]] else []) + AtLevel(f, s[1..])
  {
    if |s| > 1 {
      var n := |s| - 1;
      AtLevelFirst(f, s[..n]);
      assert s[..n][1..] == s[1..][..n - 1];
    }
  }

  lemma {:induction false} WrittenMeaning(f: Settings, held: seq<Record>, failed: bool)
    ensures Written(f, held, failed) == if failed then held else AtLevel(f, held)
  {
    if held != [] {
      WrittenMeaning(f, held[1..], failed);
      AtLevelFirst(f, held);
    }
  }

  /**
   What a kept request has written after any records and stamps, in order: the records that passed at once, then the
   last 200 held ones, all of them if it failed and those at the level if it was slow.
   */
  lemma KeptRequestOrder(f: Settings, events: seq<Event>, failed: bool)
    requires !AnyKept(events)
    ensures var chosen := Chosen(f, events);
            var all := Select(f, events, chosen, false);
            var last := if |all| <= 200 then all else all[|all| - 200..];
            Run(f, events + [Kept(failed)]).out ==
            Select(f, events, chosen, true) + (if failed then last else AtLevel(f, last))
  {
    KeptRequestWrites(f, events, failed);
    WrittenMeaning(f, LastHeld(Select(f, events, Chosen(f, events), false)), failed);
  }

  lemma {:induction false} AtLevelAll(f: Settings, s: seq<Record>)
    ensures forall i :: 0 <= i < |AtLevel(f, s)| ==> AtLevel(f, s)[i].level >= f.level
  {
    if s != [] {
      AtLevelAll(f, s[..|s| - 1]);
    }
  }

  /** Nothing below the level is handed on, ever, unless the request failed. */
  lemma {:induction false} OnlyFailureShowsDetail(f: Settings, events: seq<Event>)
    requires forall i :: 0 <= i < |events| ==> events[i] != Kept(true)
    ensures forall i :: 0 <= i < |Run(f, events).out| ==> Run(f, events).out[i].level >= f.level
  {
    if events != [] {
      var n := |events| - 1;
      var t := Run(f, events[..n]);
      OnlyFailureShowsDetail(f, events[..n]);
      WrittenMeaning(f, t.logs.held, false);
      AtLevelAll(f, t.logs.held);
    }
  }

  /** A record at WARNING or above is handed on at once, whatever was decided. */
  lemma WarningsPass(f: Settings, events: seq<Event>, r: Record)
    requires r.level >= f.level && r.level >= WARNING
    ensures Run(f, events + [Logged(r)]).out == Run(f, events).out + [r]
  {
    assert (events + [Logged(r)])[..|events|] == events;
  }
}
