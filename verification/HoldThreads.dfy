/**
 The held records of one request among threads. `hold_log` runs under a lock that `keep_request_logs` does not take,
 so its load and its store of `held_logs` can fall anywhere between the operations of a hold. The bound of the deque
 is left to `HeldLogs`, and so is the level: this is a failed request, which writes all it held.
 */
module HoldThreads {
  import opened Options

  /** The thread inside `hold_log`, holding record `h`: before the None test, after it, or bound to a deque. */
  datatype Holding = Free | Entered(h: nat) | Tested(h: nat) | Bound(h: nat, deque: nat)

  /** The one `keep_request_logs` of a request: what it loaded, whether it stored None yet, and wrote. */
  datatype Keeping =
    | NotYet
    | Loaded(found: Option<nat>)
    | Stored(found: Option<nat>)
    | Wrote(found: Option<nat>)

  /** `deques` are all that were ever made, `current` is `held_logs`, `begun` counts the holds so far. */
  datatype World = World(
    current: Option<nat>, deques: seq<seq<nat>>, holding: Holding, begun: nat, keeping: Keeping, written: seq<nat>)

  const START := World(None, [], Free, 0, NotYet, [])

  datatype Step = Enter | Test | Bind | Append | Load | Store | Write

  predicate Enabled(w: World, step: Step) {
    match step
    case Enter => w.holding.Free?
    case Test => w.holding.Entered?
    case Bind => w.holding.Tested?
    case Append => w.holding.Bound? && w.holding.deque < |w.deques|
    case Load => w.keeping.NotYet?
    case Store => w.keeping.Loaded?
    case Write => w.keeping.Stored? && (w.keeping.found.Some? ==> w.keeping.found.value < |w.deques|)
  }

  /** `held_logs` is read a second time for the append; if it is None by then, the hold raises. */
  function Apply(w: World, step: Step): World
    requires Enabled(w, step)
  {
    match step
    case Enter => w.(holding := Entered(w.begun), begun := w.begun + 1)
    case Test =>
      if w.current.Some? then w.(holding := Tested(w.holding.h))
      else w.(holding := Tested(w.holding.h), deques := w.deques + [[]], current := Some(|w.deques|))
    case Bind => w.(holding := if w.current.None? then Free else Bound(w.holding.h, w.current.value))
    case Append =>
      var d := w.holding.deque;
      w.(holding := Free, deques := w.deques[d := w.deques[d] + [w.holding.h]])
    case Load => w.(keeping := Loaded(w.current))
    case Store => w.(keeping := Stored(w.keeping.found), current := None)
    case Write =>
      w.(keeping := Wrote(w.keeping.found),
         written := if w.keeping.found.Some? then w.deques[w.keeping.found.value] else [])
  }

  ghost predicate Leads(w: World, steps: seq<Step>, t: World)
    decreases |steps|
  {
    if steps == [] then t == w
    else Enabled(w, steps[0]) && Leads(Apply(w, steps[0]), steps[1..], t)
  }

  // ---------------------------------------------------------------- where a held record is

  /** The keep is still to come to this deque: as the request's, or as what it loaded and has yet to write. */
  predicate Awaited(w: World, d: nat) {
    || (w.current == Some(d) && (w.keeping.NotYet? || w.keeping.Loaded?))
    || (w.keeping.Stored? && w.keeping.found == Some(d))
  }

  predicate KeptIn(w: World, d: nat, h: nat) {
    d < |w.deques| && h in w.deques[d] && Awaited(w, d)
  }

  /** The record was written, will be with its deque, or its hold is under way. */
  ghost predicate Kept(w: World, h: nat) {
    h in w.written || (exists d :: KeptIn(w, d, h)) || InProgress(w, h)
  }

  predicate InProgress(w: World, h: nat) {
    !w.holding.Free? && w.holding.h == h
  }

  ghost function Lost(w: World): set<nat> {
    set h | 0 <= h < w.begun && !Kept(w, h)
  }

  /**
   What a step loses, as can be told before it: the record of a hold that finds no deque to append to, or appends to
   one that nobody will write, as any append does that starts a new deque after the keep's store; and at a store, what
   was held since a load that found nothing.
   */
  ghost function Loses(w: World, step: Step): set<nat>
    requires Enabled(w, step)
  {
    match step
    case Bind => if w.current.None? then {w.holding.h} else {}
    case Append => if Awaited(w, w.holding.deque) then {} else {w.holding.h}
    case Store =>
      if w.keeping.found.None? && w.current.Some? && w.current.value < |w.deques|
      then set h | h in w.deques[w.current.value] else {}
    case _ => {}
  }

  ghost predicate Inv(w: World) {
    && (w.current.Some? ==> w.current.value < |w.deques|)
    && (w.keeping.Loaded? && w.keeping.found.Some? ==> w.current == w.keeping.found)
    && (w.keeping.Stored? || w.keeping.Wrote? ==>
          w.keeping.found.Some? ==> w.keeping.found.value < |w.deques| && w.current != w.keeping.found)
    && (!w.keeping.Wrote? || w.keeping.found.None? ==> w.written == [])
    && (w.keeping.Wrote? && w.keeping.found.Some? ==> w.written <= w.deques[w.keeping.found.value])
    && (w.holding.Bound? ==> w.holding.deque < |w.deques|)
    && (!w.holding.Free? ==> w.holding.h < w.begun)
    && (forall d, i :: 0 <= d < |w.deques| && 0 <= i < |w.deques[d]| ==>
          w.deques[d][i] < w.begun && !InProgress(w, w.deques[d][i]))
    && (forall d, e, h :: 0 <= d < |w.deques| && 0 <= e < |w.deques| && h in w.deques[d] && h in w.deques[e] ==> d == e)
  }

  lemma StepInv(w: World, step: Step)
    requires Inv(w) && Enabled(w, step)
    ensures Inv(Apply(w, step))
  {
  }

  /** A record in a deque is in that one alone, is not being held, and was written only from there. */
  lemma OnePlace(w: World, d: nat, h: nat)
    requires Inv(w) && d < |w.deques| && h in w.deques[d]
    ensures !InProgress(w, h) && h < w.begun
    ensures forall e :: KeptIn(w, e, h) ==> e == d
    ensures h in w.written ==> w.keeping.Wrote? && w.keeping.found == Some(d)
  {
    var i :| 0 <= i < |w.deques[d]| && w.deques[d][i] == h;
  }

  /** A record being held is nowhere else. */
  lemma HoldingPlace(w: World)
    requires Inv(w) && !w.holding.Free?
    ensures w.holding.h !in w.written && forall d :: 0 <= d < |w.deques| ==> w.holding.h !in w.deques[d]
  {
  }

  lemma AppendKept(w: World, h: nat)
    requires Inv(w) && Enabled(w, Append) && h < w.begun
    ensures Kept(Apply(w, Append), h) <==> Kept(w, h) && h !in Loses(w, Append)
  {
    var t := Apply(w, Append);
    var d := w.holding.deque;
    HoldingPlace(w);
    assert forall e :: 0 <= e < |w.deques| && e != d ==> t.deques[e] == w.deques[e];
    assert t.deques[d] == w.deques[d] + [w.holding.h];
    if h == w.holding.h {
      assert KeptIn(t, d, h) <==> Awaited(w, d);
    } else {
      assert forall e :: KeptIn(t, e, h) <==> KeptIn(w, e, h);
    }
  }

  lemma StoreKept(w: World, h: nat)
    requires Inv(w) && Enabled(w, Store) && h < w.begun
    ensures Kept(Apply(w, Store), h) <==> Kept(w, h) && h !in Loses(w, Store)
  {
    var t := Apply(w, Store);
    if w.keeping.found.Some? {
      assert forall e :: KeptIn(t, e, h) <==> KeptIn(w, e, h);
    } else {
      assert forall e :: !KeptIn(t, e, h);
      if w.current.Some? && h in w.deques[w.current.value] {
        OnePlace(w, w.current.value, h);
        assert KeptIn(w, w.current.value, h);
      }
    }
  }

  lemma WriteKept(w: World, h: nat)
    requires Inv(w) && Enabled(w, Write) && h < w.begun
    ensures Kept(Apply(w, Write), h) <==> Kept(w, h)
  {
    var t := Apply(w, Write);
    if w.keeping.found.Some? && h in w.deques[w.keeping.found.value] {
      assert KeptIn(w, w.keeping.found.value, h) && h in t.written;
    } else {
      assert forall e :: KeptIn(t, e, h) <==> KeptIn(w, e, h);
    }
  }

  lemma OtherKept(w: World, step: Step, h: nat)
    requires Inv(w) && Enabled(w, step) && h < w.begun && (step.Enter? || step.Test? || step.Bind? || step.Load?)
    ensures Kept(Apply(w, step), h) <==> Kept(w, h) && h !in Loses(w, step)
  {
    var t := Apply(w, step);
    assert forall e :: KeptIn(t, e, h) <==> KeptIn(w, e, h);
    if step.Bind? {
      HoldingPlace(w);
    }
  }

  /** A step loses exactly what its guard says, and nothing lost comes back. */
  lemma StepLost(w: World, step: Step)
    requires Inv(w) && Enabled(w, step)
    ensures Lost(Apply(w, step)) == Lost(w) + Loses(w, step)
  {
    var t := Apply(w, step);
    forall h: nat | h < w.begun
      ensures Kept(t, h) <==> Kept(w, h) && h !in Loses(w, step)
    {
      match step
      case Append => AppendKept(w, h);
      case Store => StoreKept(w, h);
      case Write => WriteKept(w, h);
      case _ => OtherKept(w, step, h);
    }
    forall h | h in Loses(w, step)
      ensures 0 <= h < w.begun
    {
      if step.Store? {
        OnePlace(w, w.current.value, h);
      }
    }
  }

  /** Everything the steps of a run lose, by the guards of its states. */
  ghost function RunLoses(w: World, steps: seq<Step>, t: World): set<nat>
    requires Leads(w, steps, t)
    decreases |steps|
  {
    if steps == [] then {} else Loses(w, steps[0]) + RunLoses(Apply(w, steps[0]), steps[1..], t)
  }

  lemma {:induction false} RunLost(w: World, steps: seq<Step>, t: World)
    requires Inv(w) && Leads(w, steps, t)
    ensures Inv(t) && Lost(t) == Lost(w) + RunLoses(w, steps, t)
    decreases |steps|
  {
    if steps != [] {
      StepInv(w, steps[0]);
      StepLost(w, steps[0]);
      RunLost(Apply(w, steps[0]), steps[1..], t);
    }
  }

  /** Over every run, what is neither written nor still to be written is exactly what its steps lost by their guards. */
  lemma LostExactly(steps: seq<Step>, t: World)
    requires Leads(START, steps, t)
    ensures Inv(t) && Lost(t) == RunLoses(START, steps, t)
  {
    RunLost(START, steps, t);
    assert Lost(START) == {};
  }

  /**
   Once the keep is done and no hold is under way, a record is not among those written exactly if some step lost it:
   every record held was written if and only if no guard was met.
   */
  lemma WrittenOrLost(steps: seq<Step>, t: World)
    requires Leads(START, steps, t) && t.keeping.Wrote? && t.holding.Free?
    ensures forall h: nat :: h < t.begun ==> (h !in t.written <==> h in RunLoses(START, steps, t))
    ensures (forall h: nat :: h < t.begun ==> h in t.written) <==> RunLoses(START, steps, t) == {}
  {
    LostExactly(steps, t);
    forall h: nat | h < t.begun
      ensures Kept(t, h) <==> h in t.written
    {
      assert forall d :: !KeptIn(t, d, h);
    }
    if RunLoses(START, steps, t) != {} {
      var h :| h in Lost(t);
      assert h < t.begun && h !in t.written;
    }
  }

  /** What is written stays as it is: nothing lost is ever written later. */
  lemma {:induction false} WrittenStays(w: World, steps: seq<Step>, t: World)
    requires Leads(w, steps, t) && w.keeping.Wrote?
    ensures t.keeping.Wrote? && t.written == w.written
    decreases |steps|
  {
    if steps != [] {
      WrittenStays(Apply(w, steps[0]), steps[1..], t);
    }
  }

  /** In the order of their holds, each once. */
  ghost predicate Ordered(s: seq<nat>) {
    forall i, j :: 0 <= i < j < |s| ==> s[i] < s[j]
  }

  ghost predicate OrderInv(w: World) {
    && (!w.holding.Free? ==> w.holding.h == w.begun - 1)
    && (forall d :: 0 <= d < |w.deques| ==> Ordered(w.deques[d]))
    && Ordered(w.written)
  }

  lemma StepOrdered(w: World, step: Step)
    requires Inv(w) && OrderInv(w) && Enabled(w, step)
    ensures OrderInv(Apply(w, step))
  {
  }

  lemma {:induction false} RunOrdered(w: World, steps: seq<Step>, t: World)
    requires Inv(w) && OrderInv(w) && Leads(w, steps, t)
    ensures OrderInv(t)
    decreases |steps|
  {
    if steps != [] {
      StepInv(w, steps[0]);
      StepOrdered(w, steps[0]);
      RunOrdered(Apply(w, steps[0]), steps[1..], t);
    }
  }

  /** Whatever the threads do, what is written was held in that order, and no record is written twice. */
  lemma WrittenInOrder(steps: seq<Step>, t: World)
    requires Leads(START, steps, t)
    ensures Ordered(t.written)
  {
    RunOrdered(START, steps, t);
  }

  /** A keep that finds the lock free and stores before the next hold begins loses nothing by its swap. */
  lemma QuietSwap(w: World)
    requires Inv(w) && Enabled(w, Load) && w.holding.Free?
    ensures Loses(w, Load) == {} && Loses(Apply(w, Load), Store) == {}
    ensures var t := Apply(Apply(w, Load), Store);
            t.keeping.found == w.current && t.current.None? && Lost(t) == Lost(w)
  {
    StepInv(w, Load);
    StepLost(w, Load);
    StepLost(Apply(w, Load), Store);
  }

  lemma LeadsCons(w: World, step: Step, rest: seq<Step>, t: World)
    requires Enabled(w, step) && Leads(Apply(w, step), rest, t)
    ensures Leads(w, [step] + rest, t)
  {
    assert ([step] + rest)[1..] == rest;
  }

  /** The rest of one hold that finds nothing held yet. */
  lemma FinishHold(w: World, rest: seq<Step>, t: World)
    requires w.holding.Entered? && w.current.None? && w.deques == []
    requires Leads(w.(current := Some(0), deques := [[w.holding.h]], holding := Free), rest, t)
    ensures Leads(w, [Test] + ([Bind] + ([Append] + rest)), t)
  {
    var tested := Apply(w, Test);
    var bound := Apply(tested, Bind);
    assert bound == w.(current := Some(0), deques := [[]], holding := Bound(w.holding.h, 0));
    assert bound.deques[0] + [w.holding.h] == [w.holding.h];
    assert Apply(bound, Append).deques == [[w.holding.h]];
    assert Apply(bound, Append) == w.(current := Some(0), deques := [[w.holding.h]], holding := Free);
    LeadsCons(bound, Append, rest, t);
    LeadsCons(tested, Bind, [Append] + rest, t);
    LeadsCons(w, Test, [Bind] + ([Append] + rest), t);
  }

  /** The whole of a keep that finds nothing held. */
  lemma KeepNothing(w: World, rest: seq<Step>, t: World)
    requires w.keeping.NotYet? && w.current.None? && w.written == []
    requires Leads(w.(keeping := Wrote(None)), rest, t)
    ensures Leads(w, [Load] + ([Store] + ([Write] + rest)), t)
  {
    var loaded := Apply(w, Load);
    var stored := Apply(loaded, Store);
    LeadsCons(stored, Write, rest, t);
    LeadsCons(loaded, Store, [Write] + rest, t);
    LeadsCons(w, Load, [Store] + ([Write] + rest), t);
  }

  /** A run that shows it: the keep finds nothing held, a record is held, and the keep stores None. */
  lemma HeldRecordCanBeLost() returns (steps: seq<Step>, t: World)
    ensures Leads(START, steps, t) && t.keeping.Wrote? && t.holding.Free?
    ensures t.begun == 1 && t.written == [] && Lost(t) == {0}
  {
    var held := World(Some(0), [[0]], Free, 1, Loaded(None), []);
    var stored := Apply(held, Store);
    t := Apply(stored, Write);
    LeadsCons(stored, Write, [], t);
    LeadsCons(held, Store, [Write] + [], t);
    var rest := [Store] + ([Write] + []);
    var loaded := Apply(START, Load);
    FinishHold(Apply(loaded, Enter), rest, t);
    LeadsCons(loaded, Enter, [Test] + ([Bind] + ([Append] + rest)), t);
    steps := [Enter] + ([Test] + ([Bind] + ([Append] + rest)));
    LeadsCons(START, Load, steps, t);
    steps := [Load] + steps;
    assert forall d :: !KeptIn(t, d, 0);
  }

  /**
   Another: the hold was begun before the keep, and its append comes after the keep is done. The record is left in a
   deque that nobody writes.
   */
  lemma LateHoldIsLost() returns (steps: seq<Step>, t: World)
    ensures Leads(START, steps, t) && t.keeping.Wrote? && t.holding.Free? && t.current.Some?
    ensures t.begun == 1 && t.written == [] && Lost(t) == RunLoses(START, steps, t) == {0}
    ensures forall more, u :: Leads(t, more, u) ==> 0 !in u.written
  {
    t := World(Some(0), [[0]], Free, 1, Wrote(None), []);
    var entered := Apply(START, Enter);
    FinishHold(entered.(keeping := Wrote(None)), [], t);
    KeepNothing(entered, [Test] + ([Bind] + ([Append] + [])), t);
    var rest := [Load] + ([Store] + ([Write] + ([Test] + ([Bind] + ([Append] + [])))));
    LeadsCons(START, Enter, rest, t);
    steps := [Enter] + rest;
    LostExactly(steps, t);
    assert forall d :: !KeptIn(t, d, 0);
    forall more, u | Leads(t, more, u)
      ensures 0 !in u.written
    {
      WrittenStays(t, more, u);
    }
  }
}
