/** When things happened in a request, by its events: the moments noted, the times reported and what is observed. */
module RequestTimings {
  import opened Options
  import opened RequestMiddleware

  /** A response start was sent at `i`, and none after it. */
  predicate LastStart(events: seq<Event>, i: nat) {
    && i < |events| && IsStart(events[i]) && events[i].ok
    && forall j :: i < j < |events| ==> !(IsStart(events[j]) && events[j].ok)
  }

  /** The client left at `i`, and not before. */
  ghost predicate FirstLeft(events: seq<Event>, i: nat) {
    i < |events| && LeftAt(events, i) && forall j :: 0 <= j < i ==> !LeftAt(events, j)
  }

  predicate FirstChunkAt(events: seq<Event>, i: nat) {
    i < |events| && Chunk(events[i]) && forall j :: 0 <= j < i ==> !Chunk(events[j])
  }

  /** The start is noted when it was sent, in any order of sends. */
  lemma {:induction false} StartMoment(start: real, events: seq<Event>, i: nat)
    requires LastStart(events, i)
    ensures Run(start, events).responseStarted == Some(events[i].now)
    decreases |events|
  {
    var n := |events| - 1;
    if i < n {
      assert LastStart(events[..n], i);
      StartMoment(start, events[..n], i);
    }
  }

  lemma LeftPrefix(events: seq<Event>, n: nat, i: nat)
    requires i < n <= |events|
    ensures LeftAt(events[..n], i) <==> LeftAt(events, i)
  {
    assert events[..n][..i] == events[..i];
  }

  /** The first time the client left is noted. */
  lemma {:induction false} LeftMoment(start: real, events: seq<Event>, i: nat)
    requires Legal(events) && FirstLeft(events, i)
    ensures Run(start, events).disconnectedAt == Some(events[i].now)
    decreases |events|
  {
    var n := |events| - 1;
    var rest := events[..n];
    assert Legal(rest);
    forall j | 0 <= j < n
      ensures LeftAt(rest, j) <==> LeftAt(events, j)
    {
      LeftPrefix(events, n, j);
    }
    if i < n {
      LeftMoment(start, rest, i);
    } else {
      RunTracks(start, rest);
      RunLeft(start, rest);
    }
  }

  /** The seconds between the request's start and an event. */
  function Elapsed(start: real, events: seq<Event>, i: nat): real
    requires i < |events|
  {
    events[i].now - start
  }

  ghost predicate AnyChunk(events: seq<Event>) {
    exists m: nat :: FirstChunkAt(events, m)
  }

  /** The moments noted are those of the start sent, of the first chunk with bytes and of the last message. */
  ghost predicate Noted(x: Exchange, events: seq<Event>, i: nat, j: nat, k: nat) {
    && (x.responseStarted.Some? <==> Begun(events))
    && (LastStart(events, i) ==> x.responseStarted == Some(events[i].now))
    && (x.firstBody.Some? <==> AnyChunk(events))
    && (FirstChunkAt(events, j) ==> x.firstBody == Some(events[j].now))
    && (x.responseFinished.Some? <==> Delivered(events))
    && (LastSent(events, k) ==> x.responseFinished == Some(events[k].now))
  }

  lemma MomentsExact(start: real, events: seq<Event>, i: nat, j: nat, k: nat)
    requires Legal(events)
    ensures Noted(Run(start, events), events, i, j, k)
  {
    FinishedIsDelivered(start, events);
    RunBegun(start, events);
    FirstChunkFound(start, events);
    if LastStart(events, i) {
      StartMoment(start, events, i);
    }
  }

  lemma ReportExact(x: Exchange, appFinished: real)
    requires InOrder(x, appFinished)
    ensures var t := Report(x, appFinished);
            var end := if x.responseFinished.Some? then x.responseFinished.value else appFinished;
            && t.appDuration == appFinished - x.start && t.duration == end - x.start
            && t.responseStart == (if x.responseStarted.Some? then Some(x.responseStarted.value - x.start) else None)
            && t.firstBody == (if x.firstBody.Some? then Some(x.firstBody.value - x.start) else None)
            && t.streamDuration == (if x.firstBody.Some? && x.responseFinished.Some?
                                    then Some(x.responseFinished.value - x.firstBody.value) else None)
  {
    ShortcutAgrees(x, appFinished);
  }

  /** Every reported time is the time of the event it stands for. */
  ghost predicate TimesAre(t: Timings, start: real, events: seq<Event>, appFinished: real, i: nat, j: nat, k: nat) {
    && t.appDuration == appFinished - start
    && (t.responseStart.Some? <==> Begun(events))
    && (LastStart(events, i) ==> t.responseStart == Some(Elapsed(start, events, i)))
    && (t.firstBody.Some? <==> AnyChunk(events))
    && (FirstChunkAt(events, j) ==> t.firstBody == Some(Elapsed(start, events, j)))
    && (!Delivered(events) ==> t.duration == appFinished - start && t.streamDuration.None?)
    && (LastSent(events, k) ==> t.duration == Elapsed(start, events, k))
    && (FirstChunkAt(events, j) && LastSent(events, k) ==> t.streamDuration == Some(events[k].now - events[j].now))
  }

  lemma NotedTimes(x: Exchange, events: seq<Event>, appFinished: real, i: nat, j: nat, k: nat)
    requires Noted(x, events, i, j, k) && InOrder(x, appFinished)
    ensures TimesAre(Report(x, appFinished), x.start, events, appFinished, i, j, k)
  {
    ReportExact(x, appFinished);
  }

  /**
   Under legal order and a clock that does not run backwards the reported times are those of the events they stand for:
   the start that was sent, the first chunk with bytes, the last message, and the end of the application.
   */
  lemma TimingsExact(start: real, events: seq<Event>, appFinished: real, i: nat, j: nat, k: nat)
    requires Legal(events) && Clocked(start, events) && start <= appFinished
    requires forall n :: 0 <= n < |events| ==> events[n].now <= appFinished
    ensures TimesAre(Report(Run(start, events), appFinished), start, events, appFinished, i, j, k)
  {
    MomentsExact(start, events, i, j, k);
    RunOrdered(start, events, appFinished);
    ObservedAtFinish(start, events);
    NotedTimes(Run(start, events), events, appFinished, i, j, k);
  }

  lemma FirstChunkFound(start: real, events: seq<Event>)
    ensures Run(start, events).firstBody.Some? <==> AnyChunk(events)
    ensures forall i: nat :: FirstChunkAt(events, i) ==> Run(start, events).firstBody == Some(events[i].now)
  {
    FirstBodyIsFirstChunk(start, events);
    if Run(start, events).firstBody.Some? {
      var i :| 0 <= i < |events| && Chunk(events[i]);
      var k := EarliestChunk(events, i);
    }
  }

  lemma {:induction false} EarliestChunk(events: seq<Event>, i: nat) returns (k: nat)
    requires i < |events| && Chunk(events[i])
    ensures FirstChunkAt(events, k)
    decreases i
  {
    if j :| 0 <= j < i && Chunk(events[j]) {
      k := EarliestChunk(events, j);
    } else {
      k := i;
    }
  }

  /** Whatever the clock does, no reported time is negative. */
  lemma NeverNegative(x: Exchange, appFinished: real)
    ensures var t := Report(x, appFinished);
            && t.appDuration >= 0.0 && t.duration >= 0.0
            && (t.responseStart.Some? ==> t.responseStart.value >= 0.0)
            && (t.firstBody.Some? ==> t.firstBody.value >= 0.0)
            && (t.streamDuration.Some? ==> t.streamDuration.value >= 0.0)
  {
    ShortcutAgrees(x, appFinished);
  }

  /** A time span, or zero for a clock that ran backwards. */
  function Span(from: real, to: real): real {
    if from <= to then to - from else 0.0
  }

  /** The status observed for a response whose last message was sent at `k`: the last one attempted by then. */
  function StatusBy(events: seq<Event>, k: nat): int
    requires k < |events|
  {
    match LastStatus(events[..k])
    case None => 500
    case Some(status) => status
  }

  /**
   What is observed, exactly: for a delivered response the status attempted by then and the time of its last message,
   otherwise the final status and the time the application took, unless logging raised.
   */
  lemma {:induction false} ObservationExact(
    start: real, events: seq<Event>, ending: Ending, appFinished: real, logRaises: bool)
    requires Legal(events)
    ensures var y := Finalize(Run(start, events), ending, appFinished, logRaises);
            && (!Delivered(events) ==>
                  y.observations ==
                  if logRaises then [] else [Observation(y.status, Span(start, appFinished))])
            && (forall k: nat :: LastSent(events, k) ==>
                  y.observations == [Observation(StatusBy(events, k), Span(start, events[k].now))])
  {
    ObservedAtFinish(start, events);
    FinishedIsDelivered(start, events);
    forall k: nat | LastSent(events, k)
      ensures Run(start, events).observations ==
              [Observation(StatusBy(events, k), Span(start, events[k].now))]
    {
      ObservedStatus(start, events, k);
    }
  }

  lemma {:induction false} ObservedStatus(start: real, events: seq<Event>, k: nat)
    requires Legal(events) && LastSent(events, k)
    ensures Run(start, events).observations ==
            [Observation(StatusBy(events, k), Span(start, events[k].now))]
    decreases |events|
  {
    var n := |events| - 1;
    assert Legal(events[..n]);
    RunTracks(start, events[..n]);
    ObservedAtFinish(start, events[..n]);
    ObservedAtFinish(start, events);
    FinishedIsDelivered(start, events);
    if k < n {
      LastSentPrefix(events, n, k);
      ObservedStatus(start, events[..n], k);
      assert events[..n][..k] == events[..k];
      FinishedIsDelivered(start, events[..n]);
    }
  }
}
