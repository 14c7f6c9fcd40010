/**
 The counting of HTTP calls told by the steps of a run alone: which client is active in a task, which spans start
 under one or are current when a call begins, and what the count therefore is.
 */
module HttpRuns {
  import opened Counting
  import opened Options
  import opened HttpCalls

  /** What a step is, given the steps before it. */
  type Event = (seq<Step>, Step) -> bool

  /** Some step of the run is such an event. */
  ghost predicate Sometime(steps: seq<Step>, event: Event) {
    exists k :: 0 <= k < |steps| && event(steps[..k], steps[k])
  }

  /** How many steps are. */
  ghost function Times(steps: seq<Step>, event: Event): nat {
    if steps == [] then 0
    else Times(steps[..|steps| - 1], event) + Bit(event(steps[..|steps| - 1], steps[|steps| - 1]))
  }

  lemma SometimeLast(steps: seq<Step>, event: Event)
    requires steps != []
    ensures Sometime(steps, event) <==>
            Sometime(steps[..|steps| - 1], event) || event(steps[..|steps| - 1], steps[|steps| - 1])
  {
    var n := |steps| - 1;
    forall k | 0 <= k < n
      ensures steps[..n][..k] == steps[..k] && steps[..n][k] == steps[k]
    {
    }
  }

  // ---------------------------------------------------------------- tasks

  function Contexts(steps: seq<Step>): nat {
    if steps == [] then 1
    else Contexts(steps[..|steps| - 1]) + Bit(steps[|steps| - 1].Spawn?)
  }

  /** The clients of the sends in progress in task `x`, the innermost last. */
  function Sends(steps: seq<Step>, x: nat): seq<nat> {
    if steps == [] then []
    else
      var sends := Sends(steps[..|steps| - 1], x);
      match steps[|steps| - 1]
      case SendBegins(y, client) => if x == y then sends + [client] else sends
      case SendReturns(y) => if x == y && sends != [] then sends[..|sends| - 1] else sends
      case _ => sends
  }

  function Innermost(sends: seq<nat>, inherited: Option<nat>): Option<nat> {
    if sends == [] then inherited else Some(sends[|sends| - 1])
  }

  /** The client that was active in the parent when task `x` was spawned. */
  function Inherited(steps: seq<Step>, x: nat): Option<nat>
    decreases |steps|, 0
  {
    if steps == [] then None
    else
      var before, last := steps[..|steps| - 1], steps[|steps| - 1];
      if last.Spawn? && x == Contexts(before) then ActiveClient(before, last.from) else Inherited(before, x)
  }

  /** The client of the innermost send in progress in task `x`, or else the inherited one. */
  function ActiveClient(steps: seq<Step>, x: nat): Option<nat>
    decreases |steps|, 1
  {
    Innermost(Sends(steps, x), Inherited(steps, x))
  }

  /** The span last made current in task `x`, or in its parent before the spawn. */
  function CurrentSpan(steps: seq<Step>, x: nat): Option<nat> {
    if steps == [] then None
    else
      var before := steps[..|steps| - 1];
      match steps[|steps| - 1]
      case MakeCurrent(y, span) => if x == y then span else CurrentSpan(before, x)
      case Spawn(from) => if x == Contexts(before) then CurrentSpan(before, from) else CurrentSpan(before, x)
      case _ => CurrentSpan(before, x)
  }

  // ---------------------------------------------------------------- events

  ghost function AnySpan(): Event {
    (h: seq<Step>, s: Step) => s.SpanStarts?
  }

  /** Span `i` starts: the spans are numbered in the order of their starts. */
  ghost predicate Starts(h: seq<Step>, s: Step, i: nat) {
    s.SpanStarts? && Times(h, AnySpan()) == i
  }

  ghost function StartsClient(i: nat): Event {
    (h: seq<Step>, s: Step) => Starts(h, s, i) && s.isClient
  }

  ghost function StartsCaptured(i: nat): Event {
    (h: seq<Step>, s: Step) => Starts(h, s, i) && s.captured
  }

  ghost function StartsHttp(i: nat): Event {
    (h: seq<Step>, s: Step) => Starts(h, s, i) && s.http
  }

  /** Span `i` starts in a task with an active client. */
  ghost function StartsUnder(i: nat): Event {
    (h: seq<Step>, s: Step) => Starts(h, s, i) && ActiveClient(h, s.ctx).Some?
  }

  ghost function Ends(i: nat): Event {
    (h: seq<Step>, s: Step) => s == SpanEnds(i)
  }

  /** An outermost send begins: through a client that is not the active one. */
  predicate BeginsOutermost(h: seq<Step>, s: Step) {
    s.SendBegins? && ActiveClient(h, s.ctx) != Some(s.client)
  }

  ghost function Outermosts(): Event {
    (h: seq<Step>, s: Step) => BeginsOutermost(h, s)
  }

  /** An outermost send begins and finds span `i` current, a client span that has not ended. */
  ghost function FindsCurrent(i: nat): Event {
    (h: seq<Step>, s: Step) =>
      && BeginsOutermost(h, s)
      && CurrentSpan(h, s.ctx) == Some(i)
      && Sometime(h, StartsClient(i)) && !Sometime(h, Ends(i))
  }

  ghost function Completes(): Event {
    (h: seq<Step>, s: Step) => s.CallCompletes?
  }

  /** No instrumented call accounts for span `i`: a captured HTTP span that neither event above happened to. */
  ghost predicate LoneSpan(h: seq<Step>, i: nat) {
    && Sometime(h, StartsCaptured(i)) && Sometime(h, StartsHttp(i))
    && !Sometime(h, StartsUnder(i)) && !Sometime(h, FindsCurrent(i))
  }

  ghost function EndsLone(): Event {
    (h: seq<Step>, s: Step) => s.SpanEnds? && LoneSpan(h, s.ended)
  }

  // ---------------------------------------------------------------- the state is what the steps say

  /** The stack of what to restore is that of the sends in progress. */
  ghost predicate StackTie(c: Context, sends: seq<nat>, inherited: Option<nat>) {
    && |c.sends| == |sends|
    && c.active == Innermost(sends, inherited)
    && forall k :: 0 <= k < |sends| ==>
         Innermost(sends[..k], inherited) == (if c.sends[k].Outermost? then c.sends[k].restore else Some(sends[k]))
  }

  ghost predicate ContextTie(steps: seq<Step>, c: Context, x: nat) {
    StackTie(c, Sends(steps, x), Inherited(steps, x)) && c.current == CurrentSpan(steps, x)
  }

  ghost predicate ContextsTie(steps: seq<Step>, w: World) {
    && |w.contexts| == Contexts(steps)
    && (forall x :: 0 <= x < |w.contexts| ==> ContextTie(steps, w.contexts[x], x))
    && (forall x: nat :: x >= |w.contexts| ==> Sends(steps, x) == [])
  }

  const NO_SPAN := Span(false, false, false, false, false, false)

  function SpanAt(w: World, i: nat): Span {
    if i < |w.spans| then w.spans[i] else NO_SPAN
  }

  ghost predicate SpanTie(steps: seq<Step>, s: Span, i: nat) {
    && s.client == Sometime(steps, StartsClient(i))
    && s.captured == Sometime(steps, StartsCaptured(i))
    && s.http == Sometime(steps, StartsHttp(i))
    && s.ended == Sometime(steps, Ends(i))
    && s.startedUnder == Sometime(steps, StartsUnder(i))
    && s.wasCurrent == Sometime(steps, FindsCurrent(i))
  }

  ghost predicate SpansTie(steps: seq<Step>, w: World) {
    |w.spans| == Times(steps, AnySpan()) && forall i: nat :: SpanTie(steps, SpanAt(w, i), i)
  }

  lemma Pushed(c: Context, sends: seq<nat>, inherited: Option<nat>, client: nat)
    requires StackTie(c, sends, inherited)
    ensures var send := if c.active == Some(client) then Reentrant else Outermost(c.active);
            StackTie(c.(active := Some(client), sends := c.sends + [send]), sends + [client], inherited)
  {
    forall k | 0 <= k <= |sends|
      ensures (sends + [client])[..k] == sends[..k]
    {
    }
    assert sends[..|sends|] == sends;
  }

  lemma Popped(c: Context, sends: seq<nat>, inherited: Option<nat>)
    requires StackTie(c, sends, inherited) && sends != []
    ensures var n := |sends| - 1;
            var active := if c.sends[n].Outermost? then c.sends[n].restore else c.active;
            StackTie(c.(active := active, sends := c.sends[..n]), sends[..n], inherited)
  {
    var n := |sends| - 1;
    forall k | 0 <= k < n
      ensures sends[..n][..k] == sends[..k]
    {
    }
  }

  /** What one more step says of a task that is not spawned by it. */
  lemma TaskStep(steps: seq<Step>, step: Step, x: nat)
    requires !(step.Spawn? && x == Contexts(steps))
    ensures Inherited(steps + [step], x) == Inherited(steps, x)
    ensures CurrentSpan(steps + [step], x) ==
            if step.MakeCurrent? && step.ctx == x then step.current else CurrentSpan(steps, x)
    ensures var sends := Sends(steps, x);
            Sends(steps + [step], x) ==
            if step.SendBegins? && step.ctx == x then sends + [step.client]
            else if step.SendReturns? && step.ctx == x && sends != [] then sends[..|sends| - 1]
            else sends
  {
    assert (steps + [step])[..|steps|] == steps;
  }

  predicate Touches(step: Step, x: nat) {
    (step.SendBegins? || step.SendReturns? || step.MakeCurrent?) && step.ctx == x
  }

  lemma Untouched(w: World, step: Step, x: nat)
    requires Enabled(w, step) && x < |w.contexts| && !Touches(step, x)
    ensures x < |Apply(w, step).contexts| && Apply(w, step).contexts[x] == w.contexts[x]
  {
  }

  lemma ContextStep(steps: seq<Step>, w: World, step: Step, x: nat)
    requires |w.contexts| == Contexts(steps) && Enabled(w, step)
    requires x < |w.contexts| && ContextTie(steps, w.contexts[x], x)
    ensures ContextTie(steps + [step], Apply(w, step).contexts[x], x)
  {
    TaskStep(steps, step, x);
    var c, sends, inherited := w.contexts[x], Sends(steps, x), Inherited(steps, x);
    if !Touches(step, x) {
      Untouched(w, step, x);
    } else if step.SendBegins? {
      Pushed(c, sends, inherited, step.client);
    } else if step.SendReturns? {
      Popped(c, sends, inherited);
    }
  }

  lemma ContextSpawned(steps: seq<Step>, w: World, from: nat)
    requires ContextsTie(steps, w) && from < |w.contexts|
    ensures ContextTie(steps + [Spawn(from)], w.contexts[from].(sends := []), |w.contexts|)
  {
    assert (steps + [Spawn(from)])[..|steps|] == steps;
    assert ContextTie(steps, w.contexts[from], from);
  }

  lemma ContextsStep(steps: seq<Step>, w: World, step: Step)
    requires ContextsTie(steps, w) && Enabled(w, step)
    ensures ContextsTie(steps + [step], Apply(w, step))
  {
    assert (steps + [step])[..|steps|] == steps;
    forall x | 0 <= x < |Apply(w, step).contexts|
      ensures ContextTie(steps + [step], Apply(w, step).contexts[x], x)
    {
      if x < |w.contexts| {
        ContextStep(steps, w, step, x);
      } else {
        ContextSpawned(steps, w, step.from);
      }
    }
  }

  /** What one more step adds to the history of span `i`. */
  ghost function SpanAfter(steps: seq<Step>, step: Step, s: Span, i: nat): Span {
    Span(s.client || StartsClient(i)(steps, step),
         s.captured || StartsCaptured(i)(steps, step),
         s.http || StartsHttp(i)(steps, step),
         s.ended || Ends(i)(steps, step),
         s.startedUnder || StartsUnder(i)(steps, step),
         s.wasCurrent || FindsCurrent(i)(steps, step))
  }

  lemma HistoryStep(steps: seq<Step>, step: Step, s: Span, i: nat)
    requires SpanTie(steps, s, i)
    ensures SpanTie(steps + [step], SpanAfter(steps, step, s, i), i)
  {
    var after := steps + [step];
    assert after[..|steps|] == steps && after[|steps|] == step;
    SometimeLast(after, StartsClient(i));
    SometimeLast(after, StartsCaptured(i));
    SometimeLast(after, StartsHttp(i));
    SometimeLast(after, Ends(i));
    SometimeLast(after, StartsUnder(i));
    SometimeLast(after, FindsCurrent(i));
  }

  lemma SendSpans(steps: seq<Step>, w: World, x: nat, client: nat, i: nat)
    requires x < |w.contexts| && ContextTie(steps, w.contexts[x], x) && SpanTie(steps, SpanAt(w, i), i)
    ensures SpanAt(SendBeginsNext(w, x, client), i) ==
            SpanAfter(steps, SendBegins(x, client), SpanAt(w, i), i)
  {
    var c, step := w.contexts[x], SendBegins(x, client);
    assert BeginsOutermost(steps, step) == (c.active != Some(client));
    assert FindsCurrent(i)(steps, step) == (c.active != Some(client) && Markable(w, c) == Some(i));
    assert !StartsClient(i)(steps, step) && !StartsCaptured(i)(steps, step) && !StartsHttp(i)(steps, step);
    assert !StartsUnder(i)(steps, step) && !Ends(i)(steps, step);
  }

  lemma StartSpans(
    steps: seq<Step>, w: World, x: nat, client: bool, captured: bool, http: bool, i: nat)
    requires x < |w.contexts| && ContextTie(steps, w.contexts[x], x) && |w.spans| == Times(steps, AnySpan())
    ensures SpanAt(SpanStartsNext(w, x, client, captured, http), i) ==
            SpanAfter(steps, SpanStarts(x, client, captured, http), SpanAt(w, i), i)
  {
    var step := SpanStarts(x, client, captured, http);
    assert Starts(steps, step, i) <==> i == |w.spans|;
    assert !Ends(i)(steps, step) && !FindsCurrent(i)(steps, step);
    assert StartsUnder(i)(steps, step) <==> i == |w.spans| && w.contexts[x].active.Some?;
  }

  lemma OtherSpans(steps: seq<Step>, w: World, step: Step, i: nat)
    requires Enabled(w, step) && !step.SendBegins? && !step.SpanStarts?
    ensures SpanAt(Apply(w, step), i) == SpanAfter(steps, step, SpanAt(w, i), i)
  {
    assert !StartsClient(i)(steps, step) && !StartsCaptured(i)(steps, step) && !StartsHttp(i)(steps, step);
    assert !StartsUnder(i)(steps, step) && !FindsCurrent(i)(steps, step);
  }

  lemma SpanStep(steps: seq<Step>, w: World, step: Step, i: nat)
    requires ContextsTie(steps, w) && SpansTie(steps, w) && Enabled(w, step)
    ensures SpanTie(steps + [step], SpanAt(Apply(w, step), i), i)
  {
    assert SpanTie(steps, SpanAt(w, i), i);
    HistoryStep(steps, step, SpanAt(w, i), i);
    match step
    case SendBegins(x, client) =>
      assert ContextTie(steps, w.contexts[x], x);
      SendSpans(steps, w, x, client, i);
    case SpanStarts(x, client, captured, http) =>
      assert ContextTie(steps, w.contexts[x], x);
      StartSpans(steps, w, x, client, captured, http, i);
    case _ => OtherSpans(steps, w, step, i);
  }

  lemma {:induction false} LastStep(w: World, steps: seq<Step>, t: World) returns (m: World)
    requires Leads(w, steps, t) && steps != []
    ensures Leads(w, steps[..|steps| - 1], m) && Enabled(m, steps[|steps| - 1])
    ensures t == Apply(m, steps[|steps| - 1])
    decreases |steps|
  {
    if |steps| == 1 {
      m := w;
    } else {
      var n := |steps| - 1;
      m := LastStep(Apply(w, steps[0]), steps[1..], t);
      assert steps[..n][1..] == steps[1..][..n - 1];
    }
  }

  /**
   In every run the active client of a task is that of its innermost send in progress, or what it inherited, and every
   span has exactly the history its steps give it.
   */
  lemma {:induction false} StateFollowsSteps(steps: seq<Step>, w: World)
    requires Leads(START, steps, w)
    ensures ContextsTie(steps, w) && SpansTie(steps, w)
    decreases |steps|
  {
    if steps != [] {
      var n := |steps| - 1;
      var m := LastStep(START, steps, w);
      StateFollowsSteps(steps[..n], m);
      assert steps == steps[..n] + [steps[n]];
      ContextsStep(steps[..n], m, steps[n]);
      forall i: nat
        ensures SpanTie(steps, SpanAt(w, i), i)
      {
        SpanStep(steps[..n], m, steps[n], i);
      }
    }
  }

  // ---------------------------------------------------------------- what is counted

  /** One more step raises the count by one exactly if it completes a call or ends a span no call accounts for. */
  lemma StepCounts(steps: seq<Step>, w: World, step: Step)
    requires Leads(START, steps, w) && Enabled(w, step)
    ensures Apply(w, step).http == w.http + Bit(Completes()(steps, step) || EndsLone()(steps, step))
    ensures |Apply(w, step).calls| == |w.calls| + Bit(Outermosts()(steps, step))
  {
    StateFollowsSteps(steps, w);
    RunKeeps(START, steps, w);
    match step
    case SpanEnds(i) => assert SpanTie(steps, SpanAt(w, i), i);
    case SendBegins(x, _) => assert ContextTie(steps, w.contexts[x], x);
    case _ =>
  }

  /**
   In every run the HTTP count is the number of completed calls and of ended spans that no call accounts for, and a call
   is begun by the outermost sends alone.
   */
  lemma {:induction false} CountFollowsSteps(steps: seq<Step>, w: World)
    requires Leads(START, steps, w)
    ensures w.http == Times(steps, Completes()) + Times(steps, EndsLone())
    ensures |w.calls| == Times(steps, Outermosts())
    decreases |steps|
  {
    if steps != [] {
      var n := |steps| - 1;
      var m := LastStep(START, steps, w);
      CountFollowsSteps(steps[..n], m);
      StepCounts(steps[..n], m, steps[n]);
    }
  }

  /**
   The end of a span counts exactly if no call accounts for it, whatever happened since its start; and its mark is there
   until then exactly if some call does.
   */
  lemma SpanCountedWhenLone(steps: seq<Step>, w: World, i: nat)
    requires Leads(START, steps, w) && Enabled(w, SpanEnds(i))
    ensures Apply(w, SpanEnds(i)).http == w.http + Bit(LoneSpan(steps, i))
    ensures i in w.marked <==>
            (Sometime(steps, StartsCaptured(i)) && Sometime(steps, StartsUnder(i))) || Sometime(steps, FindsCurrent(i))
  {
    StepCounts(steps, w, SpanEnds(i));
    StateFollowsSteps(steps, w);
    RunKeeps(START, steps, w);
    assert SpanTie(steps, SpanAt(w, i), i);
  }

  /** The marks that are left in a run belong to spans that have not ended, or were never captured. */
  lemma MarksLeft(steps: seq<Step>, w: World, i: nat)
    requires Leads(START, steps, w) && i in w.marked
    ensures !(Sometime(steps, StartsCaptured(i)) && Sometime(steps, Ends(i)))
  {
    StateFollowsSteps(steps, w);
    RunKeeps(START, steps, w);
    assert SpanTie(steps, SpanAt(w, i), i);
  }
}
