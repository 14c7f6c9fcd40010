/**
 Span ownership told by the steps of a history alone: which capture of a key counts, whose state is open, in which
 process a token was made, and so what a `pop` answers and what is counted as dropped.
 */
module SpanRuns {
  import opened Counting
  import opened Options
  import opened SpanOwners

  /** The process after these steps: each fork continues in the child. */
  function Pid(steps: seq<Step>): nat {
    if steps == [] then 0 else Pid(steps[..|steps| - 1]) + Bit(steps[|steps| - 1].Fork?)
  }

  /** The process of the state's token: that of the first request for it while the state was open. */
  function TokenPid(steps: seq<Step>, owner: nat): Option<nat> {
    if steps == [] then None
    else
      var before, last := steps[..|steps| - 1], steps[|steps| - 1];
      var pid := TokenPid(before, owner);
      if pid.None? && last.Ask? && last.owner == owner && Close(owner) !in before then Some(Pid(before)) else pid
  }

  /** The step that made frame `i`. */
  ghost function Born(limit: nat, steps: seq<Step>, i: nat): Option<Step> {
    if steps == [] then None
    else
      var before := steps[..|steps| - 1];
      if i < |Run(limit, before).frames| then Born(limit, before, i)
      else if i < |Run(limit, steps).frames| then Some(steps[|steps| - 1])
      else None
  }

  /** The next step puts an entry for this key, asked for when its frame was made. */
  ghost predicate Puts(limit: nat, steps: seq<Step>, step: Step, key: SpanKey) {
    && step.Put? && CanPut(Run(limit, steps), step.frame)
    && Born(limit, steps, step.frame).Some?
    && Born(limit, steps, step.frame).value.Ask? && Born(limit, steps, step.frame).value.key == key
  }

  /** There is room for the key: it has a live entry, or the live entries are fewer than the limit. */
  ghost predicate Room(limit: nat, steps: seq<Step>, key: SpanKey) {
    key in Entries(Run(limit, steps)) || |Entries(Run(limit, steps))| < limit
  }

  ghost predicate Captures(limit: nat, steps: seq<Step>, step: Step, key: SpanKey) {
    Puts(limit, steps, step, key) && Room(limit, steps, key)
  }

  /** The state of the last accepted capture of this key, since the last fork or `pop` of it. */
  ghost function LastCaptured(limit: nat, steps: seq<Step>, key: SpanKey): Option<nat> {
    if steps == [] then None
    else
      var before, last := steps[..|steps| - 1], steps[|steps| - 1];
      if Captures(limit, before, last, key) then Some(Born(limit, before, last.frame).value.owner)
      else if last.Fork? || last == Take(key) then None
      else LastCaptured(limit, before, key)
  }

  /** How many captures found no room since the last fork. */
  ghost function RefusedHere(limit: nat, steps: seq<Step>): nat {
    if steps == [] then 0
    else
      var before, last := steps[..|steps| - 1], steps[|steps| - 1];
      if last.Fork? then 0
      else RefusedHere(limit, before) + Bit(exists key :: Puts(limit, before, last, key) && !Room(limit, before, key))
  }

  // ---------------------------------------------------------------- the state is what the steps say

  /** A frame is about the key and the state of the step that made it. */
  ghost predicate FrameTie(f: Frame, born: Option<Step>) {
    born.Some? &&
    match born.value
    case Ask(key, owner) => f.key == key && f.owner == owner && !f.pc.Popped? && !f.pc.Finishing?
    case Take(key) => f.key == key && f.pc.Popped?
    case Borrow(owner) => f.owner == owner && f.pc.Finishing?
    case _ => false
  }

  ghost predicate FramesTie(limit: nat, steps: seq<Step>, w: World) {
    forall i :: 0 <= i < |w.frames| ==> FrameTie(w.frames[i], Born(limit, steps, i))
  }

  function Lookup<K, V>(m: map<K, V>, k: K): Option<V> {
    if k in m then Some(m[k]) else None
  }

  ghost predicate StateTie(steps: seq<Step>, w: World) {
    && w.pid == Pid(steps)
    && (forall o :: o in w.closed <==> Close(o) in steps)
    && (forall o :: Lookup(w.tokens, o) == TokenPid(steps, o))
  }

  ghost predicate ReferenceTie(limit: nat, steps: seq<Step>, w: World) {
    && (forall key :: Lookup(w.reference, key) == LastCaptured(limit, steps, key))
    && w.refused == RefusedHere(limit, steps)
  }

  lemma StateStep(limit: nat, steps: seq<Step>, step: Step)
    requires StateTie(steps, Run(limit, steps))
    ensures StateTie(steps + [step], Run(limit, steps + [step]))
  {
    RunStep(limit, steps, step);
    assert (steps + [step])[..|steps|] == steps;
    var w := Run(limit, steps);
    forall o
      ensures Lookup(Apply(w, step).tokens, o) == TokenPid(steps + [step], o)
    {
      assert Lookup(w.tokens, o) == TokenPid(steps, o);
    }
  }

  /** A step leaves the frames there are about what they were. */
  lemma FrameStays(w: World, step: Step, i: nat)
    requires i < |w.frames|
    ensures i < |Apply(w, step).frames|
    ensures var f, g := w.frames[i], Apply(w, step).frames[i];
            && g.key == f.key && g.owner == f.owner
            && g.pc.Popped? == f.pc.Popped? && g.pc.Finishing? == f.pc.Finishing?
            && (f.pc.Popped? ==> g.pc == f.pc)
  {
    match step
    case Put(j) => assert CanPut(w, j) && i != j ==> PutNext(w, j).frames[i] == w.frames[i];
    case Drop(j) => assert CanDrop(w, j) && i != j ==> DropNext(w, j).frames[i] == w.frames[i];
    case Release(j) =>
    case _ =>
  }

  /** It makes at most one, about what the step says. */
  lemma FrameMade(w: World, step: Step)
    ensures var frames := Apply(w, step).frames;
            || |frames| == |w.frames|
            || (|frames| == |w.frames| + 1 && FrameTie(frames[|w.frames|], Some(step)))
  {
  }

  lemma FramesStep(limit: nat, steps: seq<Step>, step: Step)
    requires FramesTie(limit, steps, Run(limit, steps))
    ensures FramesTie(limit, steps + [step], Run(limit, steps + [step]))
  {
    RunStep(limit, steps, step);
    assert (steps + [step])[..|steps|] == steps;
    var w, t := Run(limit, steps), Run(limit, steps + [step]);
    FrameMade(w, step);
    forall i | 0 <= i < |t.frames|
      ensures FrameTie(t.frames[i], Born(limit, steps + [step], i))
    {
      if i < |w.frames| {
        assert FrameTie(w.frames[i], Born(limit, steps, i));
        FrameStays(w, step, i);
      }
    }
  }

  /** Whoever can put was made by a request for its token. */
  lemma PutsMeaning(limit: nat, steps: seq<Step>, step: Step, key: SpanKey)
    requires FramesTie(limit, steps, Run(limit, steps))
    ensures var w := Run(limit, steps);
            Puts(limit, steps, step, key) <==>
            step.Put? && CanPut(w, step.frame) && w.frames[step.frame].key == key
    ensures Puts(limit, steps, step, key) ==>
            Born(limit, steps, step.frame) == Some(Ask(key, Run(limit, steps).frames[step.frame].owner))
  {
    var w := Run(limit, steps);
    if step.Put? && CanPut(w, step.frame) {
      assert FrameTie(w.frames[step.frame], Born(limit, steps, step.frame));
    }
  }

  lemma ReferencePut(limit: nat, steps: seq<Step>, i: nat, key: SpanKey)
    requires Refines(Run(limit, steps)) && Run(limit, steps).table.limit == limit
    requires FramesTie(limit, steps, Run(limit, steps))
    requires CanPut(Run(limit, steps), i)
    ensures var w := Run(limit, steps);
            var t := Apply(w, Put(i));
            Lookup(t.reference, key) ==
            if Captures(limit, steps, Put(i), key) then Some(w.frames[i].owner) else Lookup(w.reference, key)
  {
    PutsMeaning(limit, steps, Put(i), key);
    AcceptsMeaning(Run(limit, steps), i);
  }

  lemma RefusedPut(limit: nat, steps: seq<Step>, i: nat)
    requires Refines(Run(limit, steps)) && Run(limit, steps).table.limit == limit
    requires FramesTie(limit, steps, Run(limit, steps))
    ensures var w := Run(limit, steps);
            Apply(w, Put(i)).refused ==
            w.refused + Bit(exists key :: Puts(limit, steps, Put(i), key) && !Room(limit, steps, key))
  {
    var w := Run(limit, steps);
    if CanPut(w, i) {
      AcceptsMeaning(w, i);
      PutsMeaning(limit, steps, Put(i), w.frames[i].key);
      forall key | Puts(limit, steps, Put(i), key)
        ensures key == w.frames[i].key
      {
        PutsMeaning(limit, steps, Put(i), key);
      }
    }
  }

  lemma ReferenceOther(w: World, step: Step, key: SpanKey)
    requires !step.Put?
    ensures Lookup(Apply(w, step).reference, key) ==
            if step.Fork? || step == Take(key) then None else Lookup(w.reference, key)
    ensures Apply(w, step).refused == if step.Fork? then 0 else w.refused
  {
  }

  lemma ReferenceStep(limit: nat, steps: seq<Step>, step: Step)
    requires Refines(Run(limit, steps)) && Run(limit, steps).table.limit == limit
    requires FramesTie(limit, steps, Run(limit, steps)) && ReferenceTie(limit, steps, Run(limit, steps))
    ensures ReferenceTie(limit, steps + [step], Run(limit, steps + [step]))
  {
    RunStep(limit, steps, step);
    assert (steps + [step])[..|steps|] == steps;
    var w, t := Run(limit, steps), Run(limit, steps + [step]);
    if step.Put? {
      RefusedPut(limit, steps, step.frame);
    } else {
      ReferenceOther(w, step, SpanKey(0, 0));
    }
    forall key
      ensures Lookup(t.reference, key) == LastCaptured(limit, steps + [step], key)
    {
      assert Lookup(w.reference, key) == LastCaptured(limit, steps, key);
      if !step.Put? {
        ReferenceOther(w, step, key);
      } else if CanPut(w, step.frame) {
        ReferencePut(limit, steps, step.frame, key);
        PutsMeaning(limit, steps, step, key);
      }
    }
  }

  /** Processes, tokens, closed states, frames and the plain map are what the steps say. */
  lemma {:induction false} RunTied(limit: nat, steps: seq<Step>)
    ensures var w := Run(limit, steps);
            StateTie(steps, w) && FramesTie(limit, steps, w) && ReferenceTie(limit, steps, w)
  {
    if steps != [] {
      var n := |steps| - 1;
      RunTied(limit, steps[..n]);
      RunRefines(limit, steps[..n]);
      assert steps == steps[..n] + [steps[n]];
      StateStep(limit, steps[..n], steps[n]);
      FramesStep(limit, steps[..n], steps[n]);
      ReferenceStep(limit, steps[..n], steps[n]);
    }
  }

  /**
   At every moment the table has an entry for exactly the keys whose last capture has a token that still exists, and it
   has counted the captures of this process that found no room.
   */
  lemma TableExact(limit: nat, steps: seq<Step>, key: SpanKey)
    ensures var w := Run(limit, steps);
            var t, last := AfterFork(w.table, w.pid), LastCaptured(limit, steps, key);
            && (key in t.owners <==> last.Some? && Alive(w, last.value))
            && (key in t.owners ==> t.owners[key].owner == last.value)
            && t.dropped == RefusedHere(limit, steps)
  {
    RunRefines(limit, steps);
    RunTied(limit, steps);
    assert Lookup(Run(limit, steps).reference, key) == LastCaptured(limit, steps, key);
  }

  // ---------------------------------------------------------------- what a pop answers

  /** The frame that a `pop` makes. */
  lemma TakeMakes(w: World, key: SpanKey)
    ensures var frames := Apply(w, Take(key)).frames;
            && |frames| == |w.frames| + 1 && frames[|w.frames|].pc.Popped?
            && frames[|w.frames|].pc.expected == Lookup(w.reference, key)
  {
  }

  lemma PopMade(limit: nat, before: seq<Step>, key: SpanKey)
    ensures var frames, i := Run(limit, before + [Take(key)]).frames, |Run(limit, before).frames|;
            && i < |frames| && frames[i].pc.Popped?
            && frames[i].pc.expected == LastCaptured(limit, before, key)
  {
    assert Lookup(Run(limit, before).reference, key) == LastCaptured(limit, before, key) by {
      RunTied(limit, before);
    }
    assert Run(limit, before + [Take(key)]) == Apply(Run(limit, before), Take(key)) by {
      RunStep(limit, before, Take(key));
    }
    TakeMakes(Run(limit, before), key);
  }

  /** The frame of the `pop` that was step `k`, any number of steps later. */
  lemma {:induction false} PopFrame(limit: nat, before: seq<Step>, key: SpanKey, more: seq<Step>)
    ensures var i, frames := |Run(limit, before).frames|, Run(limit, before + [Take(key)] + more).frames;
            && i < |frames| && frames[i].pc.Popped?
            && frames[i].pc.expected == LastCaptured(limit, before, key)
    decreases |more|
  {
    if more == [] {
      assert before + [Take(key)] + more == before + [Take(key)];
      PopMade(limit, before, key);
    } else {
      var n := |more| - 1;
      var steps := before + [Take(key)] + more[..n];
      PopFrame(limit, before, key, more[..n]);
      assert before + [Take(key)] + more == steps + [more[n]];
      RunStep(limit, steps, more[n]);
      FrameStays(Run(limit, steps), more[n], |Run(limit, before).frames|);
    }
  }

  /**
   For every history, a `pop` answers, however late it looks, the state of the last accepted capture of its key since
   the last fork and the last `pop` of it, if that state has not been closed and its token was made in this process.
   */
  lemma PopAnswers(limit: nat, steps: seq<Step>, k: nat, key: SpanKey)
    requires k < |steps| && steps[k] == Take(key)
    ensures var i, w := |Run(limit, steps[..k]).frames|, Run(limit, steps);
            && i < |w.frames| && w.frames[i].pc.Popped?
            && Answer(w, w.frames[i].pc) ==
               match LastCaptured(limit, steps[..k], key)
               case None => None
               case Some(owner) =>
                 if Close(owner) !in steps && TokenPid(steps, owner) == Some(Pid(steps)) then Some(owner) else None
  {
    var i, w := |Run(limit, steps[..k]).frames|, Run(limit, steps);
    assert steps == steps[..k] + [Take(key)] + steps[k + 1..];
    PopFrame(limit, steps[..k], key, steps[k + 1..]);
    PopAnswersReference(limit, steps, i);
    RunTied(limit, steps);
    if w.frames[i].pc.expected.Some? {
      assert Lookup(w.tokens, w.frames[i].pc.expected.value) == TokenPid(steps, w.frames[i].pc.expected.value);
    }
  }

  /** Nothing in between takes the key's entry away or replaces it. */
  ghost predicate LeavesKey(limit: nat, before: seq<Step>, between: seq<Step>, key: SpanKey) {
    forall j :: 0 <= j < |between| ==>
      && !between[j].Fork? && between[j] != Take(key)
      && !Captures(limit, before + between[..j], between[j], key)
  }

  lemma {:induction false} StaysCaptured(limit: nat, before: seq<Step>, between: seq<Step>, key: SpanKey)
    requires LeavesKey(limit, before, between, key)
    ensures LastCaptured(limit, before + between, key) == LastCaptured(limit, before, key)
    decreases |between|
  {
    if between == [] {
      assert before + between == before;
    } else {
      var n := |between| - 1;
      var shorter, steps := between[..n], before + between;
      forall j | 0 <= j < n
        ensures shorter[j] == between[j] && shorter[..j] == between[..j]
      {
      }
      StaysCaptured(limit, before, shorter, key);
      assert steps[..|steps| - 1] == before + shorter && steps[|steps| - 1] == between[n];
      assert !Captures(limit, before + between[..n], between[n], key);
    }
  }

  /** A span starts, with nothing in between: its processor asks for the state's token and puts the entry. */
  ghost function Started(limit: nat, before: seq<Step>, key: SpanKey, owner: nat): seq<Step> {
    before + [Ask(key, owner)] + [Put(|Run(limit, before).frames|)]
  }

  /** A span that starts with room for its key and an open state is captured for that state. */
  lemma SpanStartCaptures(limit: nat, before: seq<Step>, key: SpanKey, owner: nat)
    requires Close(owner) !in before && Room(limit, before, key)
    ensures LastCaptured(limit, Started(limit, before, key, owner), key) == Some(owner)
  {
    var n := |Run(limit, before).frames|;
    var asked := before + [Ask(key, owner)];
    var started := asked + [Put(n)];
    assert asked[..|before|] == before && started[..|asked|] == asked;
    RunTied(limit, before);
    RunStep(limit, before, Ask(key, owner));
    EntriesAsked(Run(limit, before), key, owner);
    assert Captures(limit, asked, Put(n), key);
  }

  /** Asking for a token neither adds nor removes an entry. */
  lemma EntriesAsked(w: World, key: SpanKey, owner: nat)
    ensures Entries(AskNext(w, key, owner)) == Entries(w)
  {
    var t := AskNext(w, key, owner);
    forall o
      ensures Alive(t, o) <==> Alive(w, o)
    {
      HeldAppend(w.frames, t.frames[|w.frames|], o);
    }
  }

  /** Without a fork, a token of this process stays one. */
  lemma SameToken(before: seq<Step>, first: Step, second: Step, more: seq<Step>, owner: nat)
    requires TokenPid(before + [first] + [second], owner) == Some(Pid(before))
    requires !first.Fork? && !second.Fork? && forall j :: 0 <= j < |more| ==> !more[j].Fork?
    ensures var steps := before + [first] + [second] + more; TokenPid(steps, owner) == Some(Pid(steps))
  {
    TokenStays(before + [first] + [second], more, owner);
    SameProcess(before, [first] + [second] + more);
    assert before + [first] + [second] + more == before + ([first] + [second] + more);
  }

  /**
   The round trip: a span that starts with room in an open state of this process is given back to that state when it
   ends, if in between its key was not captured again or popped, the process did not fork and the state did not close.
   */
  lemma CaptureThenPop(limit: nat, before: seq<Step>, key: SpanKey, owner: nat, between: seq<Step>)
    requires Room(limit, before, key) && LeavesKey(limit, Started(limit, before, key, owner), between, key)
    requires Close(owner) !in before && Close(owner) !in between
    requires TokenPid(Started(limit, before, key, owner), owner) == Some(Pid(before))
    ensures var ended := Started(limit, before, key, owner) + between;
            var pc := Run(limit, ended + [Take(key)]).frames[|Run(limit, ended).frames|].pc;
            pc.Popped? && Answer(Run(limit, ended + [Take(key)]), pc) == Some(owner)
  {
    var started := Started(limit, before, key, owner);
    var steps := started + between + [Take(key)];
    var k := |steps| - 1;
    assert steps[..k] == started + between;
    assert LastCaptured(limit, steps[..k], key) == Some(owner) by {
      SpanStartCaptures(limit, before, key, owner);
      StaysCaptured(limit, started, between, key);
    }
    SameToken(before, Ask(key, owner), Put(|Run(limit, before).frames|), between + [Take(key)], owner);
    assert steps == started + (between + [Take(key)]);
    PopAnswers(limit, steps, k, key);
  }

  lemma {:induction false} SameProcess(before: seq<Step>, more: seq<Step>)
    requires forall j :: 0 <= j < |more| ==> !more[j].Fork?
    ensures Pid(before + more) == Pid(before)
    decreases |more|
  {
    if more == [] {
      assert before + more == before;
    } else {
      var n := |more| - 1;
      SameProcess(before, more[..n]);
      assert (before + more)[..|before| + n] == before + more[..n];
    }
  }

  lemma {:induction false} TokenStays(before: seq<Step>, more: seq<Step>, owner: nat)
    requires TokenPid(before, owner).Some?
    ensures TokenPid(before + more, owner) == TokenPid(before, owner)
    decreases |more|
  {
    if more == [] {
      assert before + more == before;
    } else {
      var n := |more| - 1;
      TokenStays(before, more[..n], owner);
      assert (before + more)[..|before| + n] == before + more[..n];
    }
  }

  // ---------------------------------------------------------------- what a refused span leaves

  /** Refused, in a process that was forked from before `drop_span`. */
  function LeftBehind(owner: nat): Frame -> bool {
    (f: Frame) => f.owner == owner && f.pc.Refused? && f.gone
  }

  lemma {:induction false} MissedLeftBehind(frames: seq<Frame>, owner: nat)
    requires forall i :: 0 <= i < |frames| && frames[i].pc.Late? ==> frames[i].owner != owner
    ensures Count(frames, Missed(owner)) == Count(frames, LeftBehind(owner))
  {
    if frames != [] {
      MissedLeftBehind(frames[..|frames| - 1], owner);
    }
  }

  /**
   The count of a state that is not closed is that of its refused captures, but for those whose `drop_span` is still to
   come and those a fork left behind.
   */
  lemma OpenDropsExact(limit: nat, steps: seq<Step>, owner: nat)
    requires Close(owner) !in steps
    ensures var w := Run(limit, steps);
            DroppedSpans(w, owner) ==
            Refusals(limit, steps, owner) - Count(w.frames, Waiting(owner)) - Count(w.frames, LeftBehind(owner))
  {
    DroppedSpansExact(limit, steps, owner);
    RunDrops(limit, steps, owner);
    RunTied(limit, steps);
    MissedLeftBehind(Run(limit, steps).frames, owner);
  }

  lemma ClosedStep(w: World, step: Step, owner: nat)
    requires owner in w.closed
    ensures DroppedSpans(Apply(w, step), owner) == DroppedSpans(w, owner)
  {
  }

  /** A closed state counts nothing more. */
  lemma {:induction false} ClosedCountsNothing(limit: nat, steps: seq<Step>, more: seq<Step>, owner: nat)
    requires Close(owner) in steps
    ensures DroppedSpans(Run(limit, steps + more), owner) == DroppedSpans(Run(limit, steps), owner)
    decreases |more|
  {
    if more == [] {
      assert steps + more == steps;
    } else {
      var n := |more| - 1;
      ClosedCountsNothing(limit, steps, more[..n], owner);
      RunTied(limit, steps + more[..n]);
      RunStep(limit, steps + more[..n], more[n]);
      assert steps + more[..n] + [more[n]] == steps + more;
      ClosedStep(Run(limit, steps + more[..n]), more[n], owner);
    }
  }

  /** Once `capture` has returned, the drop of a refused span reaches an open state. */
  lemma RefusedIsDropped(w: World, n: nat)
    requires n < |w.frames| && w.frames[n].pc.Refused? && w.frames[n].holds && !w.frames[n].gone
    requires w.frames[n].owner !in w.closed
    ensures var t := Apply(Apply(w, Release(n)), Drop(n));
            && DroppedSpans(t, w.frames[n].owner) == DroppedSpans(w, w.frames[n].owner) + 1
            && t.table.dropped == w.table.dropped && t.reference == w.reference
  {
    var u := Apply(w, Release(n));
    assert CanRelease(w, n) && u.frames[n] == w.frames[n].(holds := false);
    assert CanDrop(u, n) && u.closed == w.closed && u.droppedSpans == w.droppedSpans;
  }

  lemma AskedThenRefused(limit: nat, before: seq<Step>, key: SpanKey, owner: nat)
    requires Close(owner) !in before && !Room(limit, before, key)
    ensures var w, n := Run(limit, before), |Run(limit, before).frames|;
            var t := Run(limit, Started(limit, before, key, owner));
            && |t.frames| == n + 1 && t.frames[n] == Frame(key, owner, Refused, true, false)
            && t.closed == w.closed && t.droppedSpans == w.droppedSpans && t.reference == w.reference
            && t.table.dropped == AfterFork(w.table, w.pid).dropped + 1
  {
    var n := |Run(limit, before).frames|;
    RunTied(limit, before);
    RunRefines(limit, before);
    RunStep(limit, before, Ask(key, owner));
    RunStep(limit, before + [Ask(key, owner)], Put(n));
    StepRefines(Run(limit, before), Ask(key, owner));
    EntriesAsked(Run(limit, before), key, owner);
    AcceptsMeaning(AskNext(Run(limit, before), key, owner), n);
  }

  /** A span that starts in an open state without room adds one to the dropped spans of the table and of the state. */
  lemma SpanStartRefused(limit: nat, before: seq<Step>, key: SpanKey, owner: nat)
    requires Close(owner) !in before && !Room(limit, before, key)
    ensures var w, n := Run(limit, before), |Run(limit, before).frames|;
            var t := Run(limit, Started(limit, before, key, owner) + [Release(n)] + [Drop(n)]);
            && DroppedSpans(t, owner) == DroppedSpans(w, owner) + 1
            && t.table.dropped == AfterFork(w.table, w.pid).dropped + 1
            && t.reference == w.reference
  {
    var n, started := |Run(limit, before).frames|, Started(limit, before, key, owner);
    assert Run(limit, before).closed == Run(limit, started).closed && owner !in Run(limit, started).closed by {
      AskedThenRefused(limit, before, key, owner);
      RunTied(limit, before);
    }
    AskedThenRefused(limit, before, key, owner);
    RunStep(limit, started, Release(n));
    RunStep(limit, started + [Release(n)], Drop(n));
    RefusedIsDropped(Run(limit, started), n);
  }
}
