/** One HTTP request through the logging middleware: its status, its timings and its one observation. */
module RequestMiddleware {
  import opened Options

  /** ASGI send events. `Other` is any other message type. */
  datatype Message =
    | Start(status: int, trailers: bool)
    | Body(nonEmpty: bool, more: bool)
    | Trailers(more: bool)
    | Other

  /** A send that completed or raised, or a receive, with the clock reading after it. */
  datatype Event = Sent(message: Message, ok: bool, now: real) | Received(disconnect: bool, now: real)

  datatype Ending = Returned | Raised | Cancelled

  /** A call of `_observe_response`. */
  datatype Observation = Observation(status: int, duration: real)

  /** The variables `__call__` shares with its wrappers, and the observations made. */
  datatype Exchange = Exchange(
    start: real, status: int, trailers: bool,
    responseStarted: Option<real>, firstBody: Option<real>, responseFinished: Option<real>,
    disconnectedAt: Option<real>, observations: seq<Observation>)

  function Begin(start: real): Exchange {
    Exchange(start, 500, false, None, None, None, None, [])
  }

  // ---------------------------------------------------------------- the wrappers

  /** The message is the first body chunk that carries bytes. */
  predicate FirstChunk(x: Exchange, m: Message) {
    x.firstBody.None? && m.Body? && m.nonEmpty
  }

  /** The message ends the response. */
  predicate Ends(trailers: bool, m: Message) {
    (m.Body? && !m.more && !trailers) || (m.Trailers? && !m.more)
  }

  function Positive(x: real): real {
    if x < 0.0 then 0.0 else x
  }

  /** `send_wrapper`; a send that raises leaves only what was noted before it. */
  function SendNext(x: Exchange, m: Message, ok: bool, now: real): Exchange {
    var y := if m.Start? then x.(status := m.status, trailers := m.trailers) else x;
    if !ok then y
    else
      var z := y.(
        responseStarted := if m.Start? then Some(now) else y.responseStarted,
        firstBody := if FirstChunk(y, m) then Some(now) else y.firstBody);
      if Ends(y.trailers, m) && y.responseFinished.None? then
        z.(responseFinished := Some(now),
           observations := z.observations + [Observation(z.status, Positive(now - z.start))])
      else z
  }

  /** `receive_wrapper`: the first disconnect before the response finished. */
  function ReceiveNext(x: Exchange, disconnect: bool, now: real): Exchange {
    if disconnect && x.disconnectedAt.None? && x.responseFinished.None? then x.(disconnectedAt := Some(now)) else x
  }

  function Next(x: Exchange, e: Event): Exchange {
    match e
    case Sent(m, ok, now) => SendNext(x, m, ok, now)
    case Received(disconnect, now) => ReceiveNext(x, disconnect, now)
  }

  function Run(start: real, events: seq<Event>): Exchange {
    if events == [] then Begin(start) else Next(Run(start, events[..|events| - 1]), events[|events| - 1])
  }

  /** The status after the application ended: what was sent stands, otherwise the ending decides. */
  function EndStatus(x: Exchange, ending: Ending): int {
    if x.responseStarted.Some? then x.status
    else if ending.Raised? then 500
    else if ending.Cancelled? || x.disconnectedAt.Some? then 499
    else x.status
  }

  /** `_finalize_request` observes the request unless it was observed, and unless logging raised first. */
  function Finalize(x: Exchange, ending: Ending, appFinished: real, logRaises: bool): Exchange {
    var y := x.(status := EndStatus(x, ending));
    if logRaises || x.responseFinished.Some? then y
    else y.(observations := y.observations + [Observation(y.status, Positive(appFinished - x.start))])
  }

  /** The middleware's variables, updated in place. */
  class Middleware {
    const start: real
    var status: int
    var trailers: bool
    var responseStarted: Option<real>
    var firstBody: Option<real>
    var responseFinished: Option<real>
    var disconnectedAt: Option<real>
    var observations: seq<Observation>

    function Value(): Exchange
      reads this
    {
      Exchange(start, status, trailers, responseStarted, firstBody, responseFinished, disconnectedAt, observations)
    }

    constructor (start: real)
      ensures Value() == Begin(start)
    {
      this.start := start;
      status, trailers, observations := 500, false, [];
      responseStarted, firstBody, responseFinished, disconnectedAt := None, None, None, None;
    }

    method Receive(disconnect: bool, now: real)
      modifies this
      ensures Value() == ReceiveNext(old(Value()), disconnect, now)
    {
      if disconnect && disconnectedAt == None && responseFinished == None {
        disconnectedAt := Some(now);
      }
    }

    method Send(m: Message, ok: bool, now: real)
      modifies this
      ensures Value() == SendNext(old(Value()), m, ok, now)
    {
      if m.Start? {
        status := m.status;
        trailers := m.trailers;
      }
      if !ok {
        return;
      }
      if m.Start? {
        responseStarted := Some(now);
      }
      if firstBody == None && m.Body? && m.nonEmpty {
        firstBody := Some(now);
      }
      var finished := (m.Body? && !m.more && !trailers) || (m.Trailers? && !m.more);
      if finished && responseFinished == None {
        responseFinished := Some(now);
        observations := observations + [Observation(status, Positive(now - start))];
      }
    }

    /** The `except` and `finally` clauses, and `_finalize_request`. */
    method Finish(ending: Ending, appFinished: real, logRaises: bool)
      modifies this
      ensures Value() == Finalize(old(Value()), ending, appFinished, logRaises)
    {
      match ending {
        case Raised =>
          if responseStarted == None {
            status := 500;
          }
        case Cancelled =>
          if responseStarted == None {
            status := 499;
          }
        case Returned =>
      }
      if disconnectedAt != None && responseStarted == None && ending != Raised {
        status := 499;
      }
      if logRaises {
        return;
      }
      if responseFinished == None {
        observations := observations + [Observation(status, Positive(appFinished - start))];
      }
    }
  }

  // ---------------------------------------------------------------- one observation

  lemma {:induction false} ObservedAtFinish(start: real, events: seq<Event>)
    ensures var x := Run(start, events);
            && x.start == start
            && |x.observations| == (if x.responseFinished.Some? then 1 else 0)
            && (x.responseFinished.Some? ==> x.observations[0].duration == Positive(x.responseFinished.value - start))
  {
    if events != [] {
      ObservedAtFinish(start, events[..|events| - 1]);
    }
  }

  /** Whatever was sent and however it ended: observed at most once, and missed only if logging raised. */
  lemma {:induction false} ObservedOnce(
    start: real, events: seq<Event>, ending: Ending, appFinished: real, logRaises: bool)
    ensures var x := Run(start, events);
            |Finalize(x, ending, appFinished, logRaises).observations| ==
            (if x.responseFinished.None? && logRaises then 0 else 1)
  {
    ObservedAtFinish(start, events);
  }

  /** A body chunk that carries bytes was sent. */
  predicate Chunk(e: Event) {
    e.Sent? && e.ok && e.message.Body? && e.message.nonEmpty
  }

  /** The first-body moment is that of the first chunk with bytes, whatever else was sent. */
  lemma {:induction false} FirstBodyIsFirstChunk(start: real, events: seq<Event>)
    ensures Run(start, events).firstBody.None? <==> forall i :: 0 <= i < |events| ==> !Chunk(events[i])
    ensures forall i :: 0 <= i < |events| && Chunk(events[i]) && (forall j :: 0 <= j < i ==> !Chunk(events[j])) ==>
              Run(start, events).firstBody == Some(events[i].now)
  {
    if events != [] {
      var n := |events| - 1;
      var rest := events[..n];
      FirstBodyIsFirstChunk(start, rest);
      assert forall i :: 0 <= i < n ==> rest[i] == events[i];
      if Run(start, rest).firstBody.Some? {
        var i :| 0 <= i < |rest| && Chunk(rest[i]);
        assert Chunk(events[i]);
      }
    }
  }

  // ---------------------------------------------------------------- legal order

  /**
   Where a response stands in the ASGI send grammar. A send that raised may have reached the server or not, so it may
   be repeated or passed over next: `Attempted` is a start that raised, `MayTrail` a final body chunk that raised when
   trailers were announced.
   */
  datatype Phase =
    | Unsent
    | Attempted(trailers: bool)
    | InBody(trailers: bool)
    | MayTrail
    | InTrailers
    | Complete
    | Broken

  function Advance(p: Phase, m: Message, ok: bool): Phase {
    match m
    case Other => p
    case Start(_, trailers) =>
      if !p.Unsent? && !p.Attempted? then Broken else if ok then InBody(trailers) else Attempted(trailers)
    case Body(_, more) =>
      if p.MayTrail? then (if !ok then p else if more then InBody(true) else InTrailers)
      else if !p.InBody? && !p.Attempted? then Broken
      else if more || (!ok && !p.trailers) then InBody(p.trailers)
      else if !p.trailers then Complete
      else if ok then InTrailers
      else MayTrail
    case Trailers(more) =>
      if !p.InTrailers? && !p.MayTrail? then Broken
      else if !ok then p
      else if more then InTrailers
      else Complete
  }

  function PhaseOf(events: seq<Event>): Phase {
    if events == [] then Unsent
    else
      var n := |events| - 1;
      if events[n].Sent? then Advance(PhaseOf(events[..n]), events[n].message, events[n].ok) else PhaseOf(events[..n])
  }

  ghost predicate Legal(events: seq<Event>) {
    !PhaseOf(events).Broken?
  }

  predicate Clocked(start: real, events: seq<Event>) {
    && (forall i :: 0 <= i < |events| ==> start <= events[i].now)
    && (forall i, j :: 0 <= i < j < |events| ==> events[i].now <= events[j].now)
  }

  predicate IsStart(e: Event) {
    e.Sent? && e.message.Start?
  }

  /** The last status the application tried to send. */
  function LastStatus(events: seq<Event>): Option<int> {
    if events == [] then None
    else
      var n := |events| - 1;
      if IsStart(events[n]) then Some(events[n].message.status) else LastStatus(events[..n])
  }

  /** A response start was sent. */
  ghost predicate Begun(events: seq<Event>) {
    exists i :: 0 <= i < |events| && IsStart(events[i]) && events[i].ok
  }

  /** The event at `i` sent the last message of the response. */
  ghost predicate LastSent(events: seq<Event>, i: nat) {
    i < |events| && PhaseOf(events[..i + 1]).Complete? && !PhaseOf(events[..i]).Complete?
  }

  ghost predicate Delivered(events: seq<Event>) {
    exists i :: LastSent(events, i)
  }

  /** The client left before the response was complete. */
  ghost predicate Left(events: seq<Event>) {
    exists i :: 0 <= i < |events| && LeftAt(events, i)
  }

  ghost predicate LeftAt(events: seq<Event>, i: nat)
    requires i < |events|
  {
    events[i].Received? && events[i].disconnect && !PhaseOf(events[..i]).Complete?
  }

  ghost predicate InOrder(x: Exchange, last: real) {
    && x.start <= last
    && (x.responseStarted.Some? ==> x.start <= x.responseStarted.value <= last)
    && (x.firstBody.Some? ==> x.start <= x.firstBody.value <= last)
    && (x.responseFinished.Some? ==> x.start <= x.responseFinished.value <= last)
    && (x.responseStarted.Some? && x.firstBody.Some? ==> x.responseStarted.value <= x.firstBody.value)
    && (x.firstBody.Some? && x.responseFinished.Some? ==> x.firstBody.value <= x.responseFinished.value)
    && (x.responseStarted.Some? && x.responseFinished.Some? ==>
          x.responseStarted.value <= x.responseFinished.value)
  }

  /** The variables against the phase the response is in. */
  ghost predicate Tracks(x: Exchange, events: seq<Event>) {
    var p, s := PhaseOf(events), LastStatus(events);
    && x.status == (if s.Some? then s.value else 500)
    && (p.Unsent? <==> s.None?)
    && (p.Unsent? || p.Attempted? ==> x.responseStarted.None? && x.firstBody.None?)
    && (p.InBody? || p.Attempted? ==> x.trailers == p.trailers)
    && (p.InTrailers? || p.MayTrail? ==> x.trailers)
    && (x.responseFinished.Some? <==> p.Complete?)
    && (|x.observations| > 0 ==> x.observations[0].status == x.status)
  }

  lemma {:induction false} RunTracks(start: real, events: seq<Event>)
    requires Legal(events)
    ensures Tracks(Run(start, events), events)
  {
    if events != [] {
      var n := |events| - 1;
      assert Legal(events[..n]);
      RunTracks(start, events[..n]);
      ObservedAtFinish(start, events[..n]);
    }
  }

  lemma {:induction false} RunBegun(start: real, events: seq<Event>)
    ensures Run(start, events).responseStarted.Some? <==> Begun(events)
  {
    if events != [] {
      var n := |events| - 1;
      var rest := events[..n];
      RunBegun(start, rest);
      assert forall i :: 0 <= i < n ==> rest[i] == events[i];
      if Begun(rest) {
        var i :| 0 <= i < |rest| && IsStart(rest[i]) && rest[i].ok;
        assert IsStart(events[i]) && events[i].ok;
      }
    }
  }

  lemma {:induction false} RunLeft(start: real, events: seq<Event>)
    requires Legal(events)
    ensures Run(start, events).disconnectedAt.Some? <==> Left(events)
  {
    if events != [] {
      var n := |events| - 1;
      var rest := events[..n];
      assert Legal(rest);
      RunLeft(start, rest);
      RunTracks(start, rest);
      assert forall i :: 0 <= i < n ==> rest[i] == events[i] && rest[..i] == events[..i];
      if Left(rest) {
        var i :| 0 <= i < |rest| && LeftAt(rest, i);
        assert LeftAt(events, i);
      }
      if Left(events) {
        var i :| 0 <= i < |events| && LeftAt(events, i);
        assert i == n || LeftAt(rest, i);
      }
      assert events[n].Received? ==> (LeftAt(events, n) <==> events[n].disconnect && !PhaseOf(rest).Complete?);
    }
  }

  /** What the ending makes of a request for which no start was sent. */
  ghost function UnsentStatus(events: seq<Event>, ending: Ending): int {
    if ending.Raised? then 500
    else if ending.Cancelled? || Left(events) then 499
    else if LastStatus(events).Some? then LastStatus(events).value
    else 500
  }

  /**
   Under legal order, if a start was sent the final status is the last one attempted; if none was, 500 for an
   exception, 499 for a cancellation or a client that left early, and otherwise the last one attempted or 500.
   */
  lemma FinalStatus(start: real, events: seq<Event>, ending: Ending, appFinished: real, logRaises: bool)
    requires Legal(events)
    ensures Finalize(Run(start, events), ending, appFinished, logRaises).status ==
            if Begun(events) && LastStatus(events).Some? then LastStatus(events).value
            else UnsentStatus(events, ending)
  {
    RunTracks(start, events);
    RunBegun(start, events);
    RunLeft(start, events);
    if Begun(events) {
      BegunStatus(events);
    }
  }

  /** Once a start was sent, legal order leaves its status the last one attempted. */
  lemma {:induction false} SentStatusStands(events: seq<Event>, i: nat)
    requires Legal(events) && i < |events| && IsStart(events[i]) && events[i].ok
    ensures LastStatus(events) == Some(events[i].message.status)
    ensures !PhaseOf(events).Unsent? && !PhaseOf(events).Attempted?
    decreases |events|
  {
    var n := |events| - 1;
    if i < n {
      assert Legal(events[..n]);
      SentStatusStands(events[..n], i);
    }
  }

  lemma BegunStatus(events: seq<Event>)
    requires Legal(events) && Begun(events)
    ensures LastStatus(events).Some?
  {
    var i :| 0 <= i < |events| && IsStart(events[i]) && events[i].ok;
    SentStatusStands(events, i);
  }

  /** Whatever happens after it, a status that was sent is the one that is logged. */
  lemma SentStatusLogged(
    start: real, events: seq<Event>, i: nat, ending: Ending, appFinished: real, logRaises: bool)
    requires Legal(events) && i < |events| && IsStart(events[i]) && events[i].ok
    ensures Finalize(Run(start, events), ending, appFinished, logRaises).status == events[i].message.status
  {
    FinalStatus(start, events, ending, appFinished, logRaises);
    SentStatusStands(events, i);
    assert Begun(events);
  }

  /** The ending replaces a status that was attempted and never sent. */
  ghost predicate Replaced(events: seq<Event>, ending: Ending) {
    match ending
    case Raised => LastStatus(events) != Some(500)
    case Cancelled => LastStatus(events) != Some(499)
    case Returned => Left(events) && LastStatus(events) != Some(499)
  }

  /**
   Under legal order the metric and the log line report the same status, if and only if it is not the case that the
   response was delivered, its start never was, and the ending replaces the status attempted.
   */
  lemma MetricMatchesLog(start: real, events: seq<Event>, ending: Ending, appFinished: real, logRaises: bool)
    requires Legal(events)
    ensures var y := Finalize(Run(start, events), ending, appFinished, logRaises);
            (forall i :: 0 <= i < |y.observations| ==> y.observations[i].status == y.status)
            <==> !(Delivered(events) && !Begun(events) && Replaced(events, ending))
  {
    RunTracks(start, events);
    RunBegun(start, events);
    RunLeft(start, events);
    ObservedAtFinish(start, events);
    FinishedIsDelivered(start, events);
    var x := Run(start, events);
    var y := Finalize(x, ending, appFinished, logRaises);
    if x.responseFinished.Some? {
      assert y.observations == x.observations && y.observations[0].status == x.status;
    }
  }

  /** A request that shows it: a start that raised, a body that was sent, and an exception. */
  lemma StatusesCanDiffer(t: real) returns (events: seq<Event>)
    ensures Legal(events) && Delivered(events)
    ensures var y := Finalize(Run(t, events), Raised, t, false);
            |y.observations| == 1 && y.observations[0].status == 200 && y.status == 500
  {
    var attempt, chunk := Sent(Start(200, false), false, t), Sent(Body(true, false), true, t);
    events := [attempt, chunk];
    assert events[..1] == [attempt] && [attempt][..0] == [];
    assert Run(t, [attempt]) == SendNext(Begin(t), attempt.message, false, t);
    assert PhaseOf([attempt]) == Attempted(false);
    assert PhaseOf(events) == Complete;
    assert events[..1 + 1] == events;
    assert LastSent(events, 1);
  }

  /** A legal event read no earlier than all before it keeps the moments in order. */
  lemma NextOrdered(x: Exchange, events: seq<Event>, last: real)
    requires events != [] && Legal(events) && x.start <= events[|events| - 1].now <= last
    requires Tracks(x, events[..|events| - 1]) && InOrder(x, events[|events| - 1].now)
    ensures InOrder(Next(x, events[|events| - 1]), last)
  {
    var n := |events| - 1;
    if IsStart(events[n]) {
      assert PhaseOf(events[..n]).Unsent? || PhaseOf(events[..n]).Attempted?;
    }
  }

  lemma {:induction false} RunOrdered(start: real, events: seq<Event>, last: real)
    requires Legal(events) && Clocked(start, events) && start <= last
    requires forall i :: 0 <= i < |events| ==> events[i].now <= last
    ensures InOrder(Run(start, events), last)
    decreases |events|
  {
    if events != [] {
      var n := |events| - 1;
      assert Legal(events[..n]);
      assert Clocked(start, events[..n]);
      RunOrdered(start, events[..n], events[n].now);
      RunTracks(start, events[..n]);
      ObservedAtFinish(start, events[..n]);
      NextOrdered(Run(start, events[..n]), events, last);
    }
  }

  // ---------------------------------------------------------------- the reported timings

  /** The timing fields of the event, in seconds since the request started. */
  datatype Timings = Timings(
    appDuration: real, duration: real, responseStart: Option<real>, firstBody: Option<real>,
    streamDuration: Option<real>)

  /** As `_finalize_request` builds them, with its shortcut for a response sent in one piece. */
  function Report(x: Exchange, appFinished: real): Timings {
    var app := Positive(appFinished - x.start);
    var total := Positive((if x.responseFinished.Some? then x.responseFinished.value else appFinished) - x.start);
    var begun := if x.responseStarted.Some? then Some(Positive(x.responseStarted.value - x.start)) else None;
    if x.firstBody.None? then Timings(app, total, begun, None, None)
    else if x.firstBody == x.responseFinished then Timings(app, total, begun, Some(total), Some(0.0))
    else Timings(app, total, begun, Some(Positive(x.firstBody.value - x.start)),
                 if x.responseFinished.Some? then Some(Positive(x.responseFinished.value - x.firstBody.value))
                 else None)
  }

  /** The same without the shortcut. */
  function ReportGeneral(x: Exchange, appFinished: real): Timings {
    Timings(
      Positive(appFinished - x.start),
      Positive((if x.responseFinished.Some? then x.responseFinished.value else appFinished) - x.start),
      if x.responseStarted.Some? then Some(Positive(x.responseStarted.value - x.start)) else None,
      if x.firstBody.Some? then Some(Positive(x.firstBody.value - x.start)) else None,
      if x.firstBody.Some? && x.responseFinished.Some?
      then Some(Positive(x.responseFinished.value - x.firstBody.value)) else None)
  }

  lemma ShortcutAgrees(x: Exchange, appFinished: real)
    ensures Report(x, appFinished) == ReportGeneral(x, appFinished)
  {
    if x.firstBody.Some? && x.firstBody == x.responseFinished {
      assert x.responseFinished.value - x.firstBody.value == 0.0;
    }
  }

  /**
   Under legal order with a clock that does not run backwards the reported times nest:
   0 <= response start <= first body <= duration <= application duration, and a stream's duration is what
   lies between its first body and its end.
   */
  lemma {:induction false} TimingsNest(start: real, events: seq<Event>, appFinished: real)
    requires Legal(events) && Clocked(start, events) && start <= appFinished
    requires forall i :: 0 <= i < |events| ==> events[i].now <= appFinished
    ensures var t := Report(Run(start, events), appFinished);
            && 0.0 <= t.duration <= t.appDuration
            && (t.responseStart.Some? ==> 0.0 <= t.responseStart.value <= t.duration)
            && (t.firstBody.Some? ==> 0.0 <= t.firstBody.value <= t.duration)
            && (t.responseStart.Some? && t.firstBody.Some? ==> t.responseStart.value <= t.firstBody.value)
            && (t.streamDuration.Some? ==>
                  t.firstBody.Some? && t.firstBody.value + t.streamDuration.value == t.duration)
  {
    RunOrdered(start, events, appFinished);
    ObservedAtFinish(start, events);
    ShortcutAgrees(Run(start, events), appFinished);
  }

  lemma LastSentPrefix(events: seq<Event>, n: nat, i: nat)
    requires i < n <= |events|
    ensures LastSent(events[..n], i) <==> LastSent(events, i)
  {
    assert events[..n][..i + 1] == events[..i + 1] && events[..n][..i] == events[..i];
  }

  /** A complete response stays complete under legal order, so it was delivered exactly if it is complete. */
  lemma {:induction false} DeliveredMeaning(events: seq<Event>)
    requires Legal(events)
    ensures Delivered(events) <==> PhaseOf(events).Complete?
  {
    if events == [] {
      assert !Delivered(events);
    } else {
      var n := |events| - 1;
      assert Legal(events[..n]);
      DeliveredMeaning(events[..n]);
      assert events[..n + 1] == events;
      if Delivered(events[..n]) {
        var i: nat :| LastSent(events[..n], i);
        LastSentPrefix(events, n, i);
      } else if PhaseOf(events).Complete? {
        assert LastSent(events, n);
      }
      if Delivered(events) {
        var i: nat :| LastSent(events, i);
        if i < n {
          LastSentPrefix(events, n, i);
        }
      }
    }
  }

  /** The response counts as finished exactly when its last legal message was sent, and from that moment. */
  lemma {:induction false} FinishedIsDelivered(start: real, events: seq<Event>)
    requires Legal(events)
    ensures Run(start, events).responseFinished.Some? <==> Delivered(events)
    ensures forall i: nat :: LastSent(events, i) ==> Run(start, events).responseFinished == Some(events[i].now)
  {
    RunTracks(start, events);
    DeliveredMeaning(events);
    if events != [] {
      var n := |events| - 1;
      assert Legal(events[..n]);
      FinishedIsDelivered(start, events[..n]);
      RunTracks(start, events[..n]);
      assert events[..n + 1] == events;
      forall i: nat | LastSent(events, i)
        ensures Run(start, events).responseFinished == Some(events[i].now)
      {
        if i < n {
          LastSentPrefix(events, n, i);
          assert events[..n][i] == events[i];
        }
      }
    }
  }
}
