/**
 The sampling decision of one request among threads. `_sampled` and `keep_request_logs` take no lock, so another
 thread can act between the test for a decision, its assignment, and the return.
 */
module SamplingThreads {
  import opened Options
  import opened HeldLogs

  /** A thread inside `_sampled`: past the None test, past the assignment, past the whole branch, or back. */
  datatype Pc = Tested | Assigned | Ready | Returned(keep: bool)

  datatype Call = Call(record: Record, pc: Pc)

  /** A thread inside `keep_request_logs`: it promoted the request, and may still have to note why. */
  datatype Keeping = Keeping(failed: bool, noted: bool)

  datatype World = World(
    sampled: Option<bool>, probability: Option<real>, retention: Option<Retention>,
    calls: seq<Call>, keeps: seq<Keeping>)

  const START := World(None, None, None, [], [])

  datatype Step =
    | Enter(record: Record)
    | Assign(call: nat)
    | NoteProbability(call: nat)
    | Return(call: nat)
    | Promote(failed: bool)
    | NoteReason(keep: nat)

  /** The decision this record makes by itself. */
  predicate Verdict(f: Settings, r: Record) {
    r.bits.None? || KeptAt(f.bound, r.bits.value)
  }

  predicate Enabled(w: World, step: Step) {
    match step
    case Enter(_) => true
    case Assign(i) => i < |w.calls| && w.calls[i].pc.Tested?
    case NoteProbability(i) => i < |w.calls| && w.calls[i].pc.Assigned?
    case Return(i) => i < |w.calls| && w.calls[i].pc.Ready?
    case Promote(_) => true
    case NoteReason(k) => k < |w.keeps| && !w.keeps[k].noted
  }

  /** The value `_sampled` returns is read again at its end. */
  function Apply(f: Settings, w: World, step: Step): World
    requires Enabled(w, step)
  {
    match step
    case Enter(r) =>
      var pc := if f.bound > LOW_64_BITS then Returned(true) else if w.sampled.None? then Tested else Ready;
      w.(calls := w.calls + [Call(r, pc)])
    case Assign(i) =>
      w.(sampled := Some(Verdict(f, w.calls[i].record)), calls := w.calls[i := w.calls[i].(pc := Assigned)])
    case NoteProbability(i) =>
      var r := w.calls[i].record;
      w.(probability := Some(if r.bits.None? then 1.0 else f.rate), calls := w.calls[i := Call(r, Ready)])
    case Return(i) =>
      w.(calls := w.calls[i := w.calls[i].(pc := Returned(w.sampled == Some(true)))])
    case Promote(failed) => w.(sampled := Some(true), keeps := w.keeps + [Keeping(failed, false)])
    case NoteReason(k) =>
      w.(retention := Some(if w.keeps[k].failed then Failure else Slow),
         keeps := w.keeps[k := w.keeps[k].(noted := true)])
  }

  ghost predicate Leads(f: Settings, w: World, steps: seq<Step>, t: World)
    decreases |steps|
  {
    if steps == [] then t == w
    else Enabled(w, steps[0]) && Leads(f, Apply(f, w, steps[0]), steps[1..], t)
  }

  ghost predicate Reachable(f: Settings, w: World) {
    exists steps :: Leads(f, START, steps, w)
  }

  /** What the rest of the request sees. */
  function View(w: World): Logs {
    Logs(w.sampled, w.probability, w.retention, [])
  }

  /** The steps of one call without another thread in between are the decision of `HeldLogs`. */
  lemma CallAlone(f: Settings, w: World, r: Record) returns (steps: seq<Step>, t: World)
    ensures Leads(f, w, steps, t) && |t.calls| == |w.calls| + 1
    ensures (View(t), t.calls[|w.calls|].pc) == (Decide(f, View(w), r).0, Returned(Decide(f, View(w), r).1))
  {
    var i := |w.calls|;
    var entered := Apply(f, w, Enter(r));
    if f.bound > LOW_64_BITS {
      steps, t := [Enter(r)], entered;
    } else if w.sampled.Some? {
      t := Apply(f, entered, Return(i));
      steps := [Enter(r), Return(i)];
      LeadsTwo(f, w, Enter(r), Return(i));
    } else {
      var decided := Apply(f, entered, Assign(i));
      var noted := Apply(f, decided, NoteProbability(i));
      t := Apply(f, noted, Return(i));
      LeadsTwo(f, decided, NoteProbability(i), Return(i));
      LeadsCons(f, entered, Assign(i), [NoteProbability(i), Return(i)], t);
      LeadsCons(f, w, Enter(r), [Assign(i)] + [NoteProbability(i), Return(i)], t);
      steps := [Enter(r)] + ([Assign(i)] + [NoteProbability(i), Return(i)]);
    }
  }

  /** The steps of one keep without another thread in between promote the request as that of `HeldLogs` does. */
  lemma KeepAlone(f: Settings, w: World, failed: bool)
    ensures var t := Apply(f, Apply(f, w, Promote(failed)), NoteReason(|w.keeps|));
            && Leads(f, w, [Promote(failed), NoteReason(|w.keeps|)], t)
            && View(t) == Keep(f, View(w), failed).0
  {
    LeadsTwo(f, w, Promote(failed), NoteReason(|w.keeps|));
  }

  lemma LeadsCons(f: Settings, w: World, step: Step, rest: seq<Step>, t: World)
    requires Enabled(w, step) && Leads(f, Apply(f, w, step), rest, t)
    ensures Leads(f, w, [step] + rest, t)
  {
    assert ([step] + rest)[1..] == rest;
  }

  lemma LeadsTwo(f: Settings, w: World, a: Step, b: Step)
    requires Enabled(w, a) && Enabled(Apply(f, w, a), b)
    ensures Leads(f, w, [a, b], Apply(f, Apply(f, w, a), b))
  {
    assert [a, b][1..] == [b] && [b][1..] == [];
  }

  // ---------------------------------------------------------------- what a decision can still become

  /** No thread is between its None test and its assignment with another decision than this one. */
  ghost predicate NoDissent(f: Settings, w: World, decision: bool) {
    forall i :: 0 <= i < |w.calls| && w.calls[i].pc.Tested? ==> Verdict(f, w.calls[i].record) == decision
  }

  ghost predicate NoPromotion(steps: seq<Step>) {
    forall i :: 0 <= i < |steps| ==> !steps[i].Promote?
  }

  ghost predicate Stands(f: Settings, w: World, decision: bool) {
    w.sampled == Some(decision) && NoDissent(f, w, decision)
  }

  lemma StepStands(f: Settings, w: World, step: Step, decision: bool)
    requires Stands(f, w, decision) && Enabled(w, step) && (step.Promote? ==> decision)
    ensures Stands(f, Apply(f, w, step), decision)
  {
  }

  lemma {:induction false} RunStands(f: Settings, w: World, steps: seq<Step>, t: World, decision: bool)
    requires Stands(f, w, decision) && Leads(f, w, steps, t) && (decision || NoPromotion(steps))
    ensures Stands(f, t, decision)
    decreases |steps|
  {
    if steps != [] {
      StepStands(f, w, steps[0], decision);
      RunStands(f, Apply(f, w, steps[0]), steps[1..], t, decision);
    }
  }

  /** A dissenting thread can undo the decision in one step. */
  lemma DissentUndoes(f: Settings, w: World, i: nat)
    requires i < |w.calls| && w.calls[i].pc.Tested?
    ensures Leads(f, w, [Assign(i)], Apply(f, w, Assign(i))) && NoPromotion([Assign(i)])
    ensures Apply(f, w, Assign(i)).sampled == Some(Verdict(f, w.calls[i].record))
  {
    assert [Assign(i)][1..] == [];
  }

  /**
   A decision is kept over every run without a keep, if and only if it was made and no thread is between its None
   test and its assignment with the other one.
   */
  lemma DecisionLasts(f: Settings, w: World, decision: bool)
    ensures (forall steps, t :: Leads(f, w, steps, t) && NoPromotion(steps) ==> t.sampled == Some(decision))
            <==> Stands(f, w, decision)
  {
    if Stands(f, w, decision) {
      forall steps, t | Leads(f, w, steps, t) && NoPromotion(steps)
        ensures t.sampled == Some(decision)
      {
        RunStands(f, w, steps, t, decision);
      }
    } else if w.sampled == Some(decision) {
      var i :| 0 <= i < |w.calls| && w.calls[i].pc.Tested? && Verdict(f, w.calls[i].record) != decision;
      DissentUndoes(f, w, i);
    } else {
      assert Leads(f, w, [], w) && NoPromotion([]);
    }
  }

  /** A yes is kept over every run whatever, keeps included, under the same condition. */
  lemma YesLasts(f: Settings, w: World)
    ensures (forall steps, t :: Leads(f, w, steps, t) ==> t.sampled == Some(true)) <==> Stands(f, w, true)
  {
    if Stands(f, w, true) {
      forall steps, t | Leads(f, w, steps, t)
        ensures t.sampled == Some(true)
      {
        RunStands(f, w, steps, t, true);
      }
    } else {
      DecisionLasts(f, w, true);
    }
  }

  /** A keep lasts if and only if no thread was past the None test with a record that is not kept. */
  lemma KeepLasts(f: Settings, w: World, failed: bool)
    ensures (forall steps, t :: Leads(f, Apply(f, w, Promote(failed)), steps, t) ==> t.sampled == Some(true))
            <==> NoDissent(f, w, true)
  {
    YesLasts(f, Apply(f, w, Promote(failed)));
  }

  /** What the calls answered that returned on the way. */
  ghost predicate AnswersAre(w: World, t: World, decision: bool) {
    && |w.calls| <= |t.calls|
    && forall i :: 0 <= i < |t.calls| && t.calls[i].pc.Returned? ==>
         || (i < |w.calls| && w.calls[i].pc == t.calls[i].pc)
         || t.calls[i].pc.keep == decision
  }

  lemma StepAnswers(f: Settings, w: World, m: World, step: Step, decision: bool)
    requires f.bound <= LOW_64_BITS && Stands(f, m, decision) && Enabled(m, step) && AnswersAre(w, m, decision)
    ensures AnswersAre(w, Apply(f, m, step), decision)
  {
    var t := Apply(f, m, step);
    assert forall i :: 0 <= i < |m.calls| && t.calls[i] != m.calls[i] && t.calls[i].pc.Returned? ==> step == Return(i);
  }

  /**
   Once a decision stands, every call that returns answers it, whenever it entered and whatever its own record says, as
   long as no keep revises a no. (At the full rate no call asks.)
   */
  lemma {:induction false} AnswersAgree(
    f: Settings, w: World, m: World, steps: seq<Step>, t: World, decision: bool)
    requires f.bound <= LOW_64_BITS && Stands(f, m, decision) && AnswersAre(w, m, decision)
    requires Leads(f, m, steps, t) && (decision || NoPromotion(steps))
    ensures AnswersAre(w, t, decision)
    decreases |steps|
  {
    if steps != [] {
      StepAnswers(f, w, m, steps[0], decision);
      StepStands(f, m, steps[0], decision);
      AnswersAgree(f, w, Apply(f, m, steps[0]), steps[1..], t, decision);
    }
  }

  /** The same from the moment the decision stands. */
  lemma StandingAnswer(f: Settings, w: World, steps: seq<Step>, t: World, decision: bool, i: nat)
    requires f.bound <= LOW_64_BITS && Stands(f, w, decision)
    requires Leads(f, w, steps, t) && (decision || NoPromotion(steps))
    requires i < |t.calls| && t.calls[i].pc.Returned? && !(i < |w.calls| && w.calls[i].pc.Returned?)
    ensures t.calls[i].pc.keep == decision
  {
    AnswersAgree(f, w, w, steps, t, decision);
  }

  /** The records of the call and of every call to come make this decision, as those of one trace do. */
  ghost predicate Agreed(f: Settings, steps: seq<Step>, decision: bool) {
    forall i :: 0 <= i < |steps| && steps[i].Enter? ==> Verdict(f, steps[i].record) == decision
  }

  /** Records that agree never undo each other's decision. */
  lemma {:induction false} AgreedDecisionStands(
    f: Settings, w: World, steps: seq<Step>, t: World, decision: bool)
    requires NoDissent(f, w, decision) && (w.sampled.Some? ==> w.sampled == Some(decision))
    requires Leads(f, w, steps, t) && NoPromotion(steps) && Agreed(f, steps, decision)
    ensures NoDissent(f, t, decision) && (t.sampled.Some? ==> t.sampled == Some(decision))
    decreases |steps|
  {
    if steps != [] {
      assert steps[0].Enter? ==> Verdict(f, steps[0].record) == decision;
      AgreedDecisionStands(f, Apply(f, w, steps[0]), steps[1..], t, decision);
    }
  }

  // ---------------------------------------------------------------- terminal records

  /** A promotion comes before its reason, and a decision is never taken back to none. */
  ghost predicate Decided(w: World) {
    w.retention.Some? || w.keeps != [] ==> w.sampled.Some?
  }

  lemma {:induction false} RunDecided(f: Settings, w: World, steps: seq<Step>, t: World)
    requires Decided(w) && Leads(f, w, steps, t)
    ensures Decided(t) && (w.sampled.Some? ==> t.sampled.Some?)
    decreases |steps|
  {
    if steps != [] {
      RunDecided(f, Apply(f, w, steps[0]), steps[1..], t);
    }
  }

  /** A decided request passes a record by its decision, where the level and the rate leave it open. */
  lemma FilterDecided(f: Settings, q: Logs, r: Record)
    requires q.sampled.Some? && f.level <= r.level
    ensures Filter(f, q, r).1 <==> r.level >= WARNING || f.bound > LOW_64_BITS || q.sampled.value
  {
  }

  /**
   A record that finds a decision passes the held filter whenever it gets there, if and only if its level or the rate
   sees to that, or the yes stands.
   */
  lemma RecordPasses(f: Settings, w: World, r: Record)
    requires Decided(w) && w.sampled.Some? && f.level <= r.level
    ensures (forall steps, t :: Leads(f, w, steps, t) ==> Filter(f, View(t), r).1)
            <==> r.level >= WARNING || f.bound > LOW_64_BITS || Stands(f, w, true)
  {
    forall steps, t | Leads(f, w, steps, t)
      ensures Filter(f, View(t), r).1
              <==> r.level >= WARNING || f.bound > LOW_64_BITS || t.sampled == Some(true)
    {
      RunDecided(f, w, steps, t);
      FilterDecided(f, View(t), r);
    }
    YesLasts(f, w);
  }

  /**
   A terminal record of a kept request is stamped with certainty, and it passes the held filter under exactly that
   condition: no thread is then between its None test and its assignment with a record that is not kept.
   */
  lemma CertainPasses(f: Settings, w: World, r: Record)
    requires Reachable(f, w) && w.retention.Some? && f.level <= r.level
    ensures Stamp(f, View(w), r).1 == 1.0
    ensures (forall steps, t :: Leads(f, w, steps, t) ==> Filter(f, View(t), r).1)
            <==> r.level >= WARNING || f.bound > LOW_64_BITS || Stands(f, w, true)
  {
    var before :| Leads(f, START, before, w);
    RunDecided(f, START, before, w);
    RecordPasses(f, w, r);
  }

  /** A stamp says certainty of a decided request if the level or the rate does, it was kept, or a thread noted so. */
  lemma StampMeaning(f: Settings, w: World, r: Record)
    requires w.sampled.Some? && f.bound <= LOW_64_BITS
    ensures Stamp(f, View(w), r).1 == 1.0
            <==> w.retention.Some? || r.level >= WARNING || f.rate >= 1.0 || w.probability == Some(1.0)
  {
  }

  /**
   Whatever made it certain, a keep or not: a terminal record of a decided request that is stamped with certainty
   passes the held filter whenever it gets there, under the condition of every other record.
   */
  lemma StampedPasses(f: Settings, w: World, r: Record)
    requires Reachable(f, w) && w.sampled.Some? && f.level <= r.level && Stamp(f, View(w), r).1 == 1.0
    ensures (forall steps, t :: Leads(f, w, steps, t) ==> Filter(f, View(t), r).1)
            <==> r.level >= WARNING || f.bound > LOW_64_BITS || Stands(f, w, true)
  {
    var before :| Leads(f, START, before, w);
    RunDecided(f, START, before, w);
    RecordPasses(f, w, r);
  }

  /**
   A request that shows it: a thread finds no decision, the slow request is kept, and the thread assigns. The terminal
   record is stamped with certainty and held.
   */
  lemma PromotionCanBeLost() returns (f: Settings, steps: seq<Step>, w: World, terminal: Record)
    ensures f == NewSettings(20, 0.5) && Leads(f, START, steps, w)
    ensures w.retention == Some(Slow) && w.sampled == Some(false)
    ensures Stamp(f, View(w), terminal).1 == 1.0 && terminal.level == f.level && !Filter(f, View(w), terminal).1
  {
    f := NewSettings(20, 0.5);
    RoundNearest(0.5 * PATTERNS as real);
    var r := Record(1, 20, Some(LOW_64_BITS));
    terminal := Record(2, 20, Some(LOW_64_BITS));
    var entered := Apply(f, START, Enter(r));
    var promoted := Apply(f, entered, Promote(false));
    var noted := Apply(f, promoted, NoteReason(0));
    w := Apply(f, noted, Assign(0));
    LeadsTwo(f, promoted, NoteReason(0), Assign(0));
    LeadsCons(f, entered, Promote(false), [NoteReason(0), Assign(0)], w);
    LeadsCons(f, START, Enter(r), [Promote(false)] + [NoteReason(0), Assign(0)], w);
    steps := [Enter(r)] + ([Promote(false)] + [NoteReason(0), Assign(0)]);
  }

  /**
   Another request, without any keep: a record without an identity notes certainty last, a record that is not kept
   assigns last. No thread is left inside, and the terminal record is stamped with certainty and held.
   */
  lemma CertaintyCanBeCrossed() returns (f: Settings, steps: seq<Step>, w: World, terminal: Record)
    ensures f == NewSettings(20, 0.5) && Leads(f, START, steps, w)
    ensures w.keeps == [] && w.retention.None? && NoDissent(f, w, true) && w.sampled == Some(false)
    ensures Stamp(f, View(w), terminal).1 == 1.0 && terminal.level == f.level && !Filter(f, View(w), terminal).1
  {
    f := NewSettings(20, 0.5);
    RoundNearest(0.5 * PATTERNS as real);
    var r, s := Record(1, 20, Some(LOW_64_BITS)), Record(2, 20, None);
    terminal := Record(3, 20, Some(LOW_64_BITS));
    var two := START.(calls := [Call(r, Tested), Call(s, Tested)]);
    var late := World(Some(false), None, None, [Call(r, Assigned), Call(s, Assigned)], []);
    w := World(Some(false), Some(1.0), None, [Call(r, Ready), Call(s, Ready)], []);
    assert Apply(f, Apply(f, START, Enter(r)), Enter(s)) == two;
    assert Apply(f, Apply(f, two, Assign(1)), Assign(0)) == late;
    assert Apply(f, Apply(f, late, NoteProbability(0)), NoteProbability(1)) == w;
    LeadsTwo(f, late, NoteProbability(0), NoteProbability(1));
    assert [NoteProbability(0), NoteProbability(1)] == [NoteProbability(0)] + [NoteProbability(1)];
    var rest := [NoteProbability(0)] + [NoteProbability(1)];
    LeadsCons(f, Apply(f, two, Assign(1)), Assign(0), rest, w);
    LeadsCons(f, two, Assign(1), [Assign(0)] + rest, w);
    LeadsCons(f, Apply(f, START, Enter(r)), Enter(s), [Assign(1)] + ([Assign(0)] + rest), w);
    LeadsCons(f, START, Enter(r), [Enter(s)] + ([Assign(1)] + ([Assign(0)] + rest)), w);
    steps := [Enter(r)] + ([Enter(s)] + ([Assign(1)] + ([Assign(0)] + rest)));
  }
}
