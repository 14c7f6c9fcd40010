/**
 Outbound HTTP calls of one open request, seen twice: by the instrumented client and by its tracing span.
 Each is counted once, whichever of the two wraps the other.
 */
module HttpCalls {
  import opened Counting
  import opened Options

  /**
   A span of the process, named by its index. `captured` says the span table accepted it for this request,
   `http` that its attributes make it an HTTP call. The last two fields are history: it started under an
   active client, and it was the current span when an outermost call began.
   */
  datatype Span = Span(client: bool, captured: bool, http: bool, ended: bool, startedUnder: bool, wasCurrent: bool)

  /** A `_Call`: one outermost instrumented send, and whether its one completion was recorded. */
  datatype Call = Call(done: bool)

  /**
   A task's context: the client in `_ACTIVE_CLIENT`, the current span, and for each send in progress what to
   restore. A re-entrant send restores nothing.
   */
  datatype Context = Context(active: Option<nat>, current: Option<nat>, sends: seq<Send>)

  datatype Send = Outermost(restore: Option<nat>) | Reentrant

  /** `marked` is `http_span_ids`; `http` is the request's count of HTTP calls. */
  datatype World = World(contexts: seq<Context>, spans: seq<Span>, calls: seq<Call>, marked: set<nat>, http: nat)

  const START := World([Context(None, None, [])], [], [], {}, 0)

  datatype Step =
    | Spawn(from: nat)
    | SendBegins(ctx: nat, client: nat)
    | SendReturns(ctx: nat)
    | CallCompletes(call: nat)
    | SpanStarts(ctx: nat, isClient: bool, captured: bool, http: bool)
    | MakeCurrent(ctx: nat, current: Option<nat>)
    | SpanEnds(ended: nat)

  /**
   Only client spans are captured, and a span or call ends once: `CallProtocol` proves the latter of a handle,
   however often `finish` is called.
   */
  predicate Enabled(w: World, step: Step) {
    match step
    case Spawn(from) => from < |w.contexts|
    case SendBegins(x, _) => x < |w.contexts|
    case SendReturns(x) => x < |w.contexts| && w.contexts[x].sends != []
    case CallCompletes(i) => i < |w.calls| && !w.calls[i].done
    case SpanStarts(x, client, captured, _) => x < |w.contexts| && (captured ==> client)
    case MakeCurrent(x, span) => x < |w.contexts| && (span.Some? ==> span.value < |w.spans|)
    case SpanEnds(i) => i < |w.spans| && !w.spans[i].ended
  }

  /** The current span that `_mark_current_span` marks: a recording client span. */
  function Markable(w: World, x: Context): Option<nat> {
    if x.current.Some? && x.current.value < |w.spans| && w.spans[x.current.value].client
       && !w.spans[x.current.value].ended
    then x.current else None
  }

  /** `begin` in `_wrap_send`, and the entry of `send`. */
  function SendBeginsNext(w: World, x: nat, client: nat): World
    requires x < |w.contexts|
  {
    var c := w.contexts[x];
    if c.active == Some(client) then w.(contexts := w.contexts[x := c.(sends := c.sends + [Reentrant])])
    else
      var m := Markable(w, c);
      var contexts := w.contexts[x := c.(active := Some(client), sends := c.sends + [Outermost(c.active)])];
      if m.None? then w.(contexts := contexts, calls := w.calls + [Call(false)])
      else
        w.(contexts := contexts, calls := w.calls + [Call(false)], marked := w.marked + {m.value},
           spans := w.spans[m.value := w.spans[m.value].(wasCurrent := true)])
  }

  function SendReturnsNext(w: World, x: nat): World
    requires x < |w.contexts| && w.contexts[x].sends != []
  {
    var c := w.contexts[x];
    var n := |c.sends| - 1;
    var c' := c.(sends := c.sends[..n], active := if c.sends[n].Outermost? then c.sends[n].restore else c.active);
    w.(contexts := w.contexts[x := c'])
  }

  /** `on_start`, and `mark_native_http_span` for a captured span. */
  function SpanStartsNext(w: World, x: nat, client: bool, captured: bool, http: bool): World
    requires x < |w.contexts|
  {
    var under := w.contexts[x].active.Some?;
    w.(spans := w.spans + [Span(client, captured, http, false, under, false)],
       marked := if captured && under then w.marked + {|w.spans|} else w.marked)
  }

  /** `on_end`: a captured span gives up its mark; an unmarked HTTP one is counted. */
  function SpanEndsNext(w: World, i: nat): World
    requires i < |w.spans|
  {
    var s := w.spans[i];
    var w' := w.(spans := w.spans[i := s.(ended := true)]);
    if !s.captured then w'
    else w'.(marked := w.marked - {i}, http := if s.http && i !in w.marked then w.http + 1 else w.http)
  }

  function Apply(w: World, step: Step): World
    requires Enabled(w, step)
  {
    match step
    case Spawn(from) => w.(contexts := w.contexts + [w.contexts[from].(sends := [])])
    case SendBegins(x, client) => SendBeginsNext(w, x, client)
    case SendReturns(x) => SendReturnsNext(w, x)
    case CallCompletes(i) => w.(calls := w.calls[i := Call(true)], http := w.http + 1)
    case SpanStarts(x, client, captured, http) => SpanStartsNext(w, x, client, captured, http)
    case MakeCurrent(x, span) => w.(contexts := w.contexts[x := w.contexts[x].(current := span)])
    case SpanEnds(i) => SpanEndsNext(w, i)
  }

  ghost predicate Leads(w: World, steps: seq<Step>, t: World)
    decreases |steps|
  {
    if steps == [] then t == w
    else Enabled(w, steps[0]) && Leads(Apply(w, steps[0]), steps[1..], t)
  }

  ghost predicate Reachable(w: World) {
    exists steps :: Leads(START, steps, w)
  }

  // ---------------------------------------------------------------- each call once

  predicate Completed(c: Call) {
    c.done
  }

  /** An HTTP client span that no instrumented call accounts for. */
  predicate Lone(s: Span) {
    s.ended && s.captured && s.http && !s.startedUnder && !s.wasCurrent
  }

  /** Some instrumented call accounts for the span: it is marked until its end, or for good if it is not captured. */
  predicate Marked(s: Span) {
    ((s.captured && s.startedUnder) || s.wasCurrent) && !(s.captured && s.ended)
  }

  ghost predicate MarkInv(w: World) {
    forall i: nat :: i in w.marked <==> i < |w.spans| && Marked(w.spans[i])
  }

  ghost predicate Inv(w: World) {
    MarkInv(w) && w.http == Count(w.calls, Completed) + Count(w.spans, Lone)
  }

  lemma SendBeginsKeeps(w: World, x: nat, client: nat)
    requires Inv(w) && x < |w.contexts|
    ensures Inv(SendBeginsNext(w, x, client))
  {
    var c := w.contexts[x];
    CountAppend(w.calls, Call(false), Completed);
    var m := Markable(w, c);
    if m.Some? {
      CountUpdate(w.spans, m.value, w.spans[m.value].(wasCurrent := true), Lone);
    }
  }

  lemma SpanStartsKeeps(w: World, x: nat, client: bool, captured: bool, http: bool)
    requires Inv(w) && x < |w.contexts|
    ensures Inv(SpanStartsNext(w, x, client, captured, http))
  {
    CountAppend(w.spans, Span(client, captured, http, false, w.contexts[x].active.Some?, false), Lone);
  }

  lemma SpanEndsKeeps(w: World, i: nat)
    requires Inv(w) && i < |w.spans| && !w.spans[i].ended
    ensures Inv(SpanEndsNext(w, i))
  {
    CountUpdate(w.spans, i, w.spans[i].(ended := true), Lone);
  }

  lemma StepKeeps(w: World, step: Step)
    requires Inv(w) && Enabled(w, step)
    ensures Inv(Apply(w, step))
  {
    match step
    case Spawn(_) =>
    case SendBegins(x, client) => SendBeginsKeeps(w, x, client);
    case SendReturns(_) =>
    case CallCompletes(i) => CountUpdate(w.calls, i, Call(true), Completed);
    case SpanStarts(x, client, captured, http) => SpanStartsKeeps(w, x, client, captured, http);
    case MakeCurrent(_, _) =>
    case SpanEnds(i) => SpanEndsKeeps(w, i);
  }

  lemma {:induction false} RunKeeps(w: World, steps: seq<Step>, t: World)
    requires Inv(w) && Leads(w, steps, t)
    ensures Inv(t)
    decreases |steps|
  {
    if steps != [] {
      StepKeeps(w, steps[0]);
      RunKeeps(Apply(w, steps[0]), steps[1..], t);
    }
  }

  /**
   In every run of any number of tasks, the HTTP count is the completed outermost calls plus the ended HTTP
   client spans that neither started under an active client nor were current when an outermost call began.
   */
  lemma EachCallOnce(w: World)
    requires Reachable(w)
    ensures w.http == Count(w.calls, Completed) + Count(w.spans, Lone)
  {
    var steps :| Leads(START, steps, w);
    RunKeeps(START, steps, w);
  }

  /** A send through the client already active adds no call and no mark, and its return restores the context. */
  lemma ReentrantSendAddsNothing(w: World, x: nat, client: nat)
    requires x < |w.contexts| && w.contexts[x].active == Some(client)
    ensures var w' := SendBeginsNext(w, x, client);
            && w'.calls == w.calls && w'.marked == w.marked && w'.http == w.http && w'.spans == w.spans
            && SendReturnsNext(w', x) == w
  {
    var w' := SendBeginsNext(w, x, client);
    var c := w.contexts[x];
    assert (c.sends + [Reentrant])[..|c.sends|] == c.sends;
    assert SendReturnsNext(w', x).contexts == w.contexts;
  }

  /** An outermost send that returns leaves its task's context as it found it. */
  lemma OutermostSendRestores(w: World, x: nat, client: nat)
    requires x < |w.contexts| && w.contexts[x].active != Some(client)
    ensures var w' := SendBeginsNext(w, x, client);
            SendReturnsNext(w', x).contexts == w.contexts && w'.calls == w.calls + [Call(false)]
  {
    var c := w.contexts[x];
    assert (c.sends + [Outermost(c.active)])[..|c.sends|] == c.sends;
  }

  /**
   The request's spans, calls and marks as `_wrap_send` (`Begin`) and the span processor `RequestCallTotals`
   (`OnStart`, `OnEnd`) update them in place. Every
   method keeps the accounting and is one step of the runs above.
   */
  class HttpAccounting {
    var contexts: seq<Context>
    var spans: seq<Span>
    var calls: seq<Call>
    var marked: set<nat>
    var http: nat

    ghost function View(): World
      reads this
    {
      World(contexts, spans, calls, marked, http)
    }

    constructor ()
      ensures View() == START && Inv(View())
    {
      contexts, spans, calls, marked, http := [Context(None, None, [])], [], [], {}, 0;
    }

    /** Answers the call to complete later, or none for a re-entrant send. */
    method Begin(x: nat, client: nat) returns (call: Option<nat>)
      requires x < |contexts| && Inv(View())
      modifies this
      ensures View() == SendBeginsNext(old(View()), x, client) && Inv(View())
      ensures call == if old(contexts[x].active) == Some(client) then None else Some(|old(calls)|)
    {
      ghost var before := View();
      var c := contexts[x];
      if c.active == Some(client) {
        contexts := contexts[x := c.(sends := c.sends + [Reentrant])];
        return None;
      }
      if c.current.Some? && c.current.value < |spans| {
        var s := spans[c.current.value];
        if !s.ended && s.client {
          marked := marked + {c.current.value};
          spans := spans[c.current.value := s.(wasCurrent := true)];
        }
      }
      call := Some(|calls|);
      calls := calls + [Call(false)];
      contexts := contexts[x := c.(active := Some(client), sends := c.sends + [Outermost(c.active)])];
      assert View() == SendBeginsNext(before, x, client);
      SendBeginsKeeps(before, x, client);
    }

    method OnStart(x: nat, client: bool, captured: bool, isHttp: bool)
      requires x < |contexts| && Inv(View())
      modifies this`spans, this`marked
      ensures View() == SpanStartsNext(old(View()), x, client, captured, isHttp) && Inv(View())
    {
      SpanStartsKeeps(View(), x, client, captured, isHttp);
      var under := contexts[x].active.Some?;
      if captured && under {
        marked := marked + {|spans|};
      }
      spans := spans + [Span(client, captured, isHttp, false, under, false)];
    }

    method OnEnd(i: nat)
      requires i < |spans| && !spans[i].ended && Inv(View())
      modifies this`spans, this`marked, this`http
      ensures View() == SpanEndsNext(old(View()), i) && Inv(View())
    {
      SpanEndsKeeps(View(), i);
      var s := spans[i];
      spans := spans[i := s.(ended := true)];
      if !s.captured {
        return;
      }
      var counted := i in marked;
      marked := marked - {i};
      if s.http && !counted {
        http := http + 1;
      }
    }
  }
}
