/** Which request a sampled span belongs to: a bounded table of weakly held owners. */
module SpanOwners {
  import opened Counting
  import opened Options

  /** Trace id and span id. */
  datatype SpanKey = SpanKey(traceId: nat, spanId: nat)

  /** An owner token: the state it stands for and the process that made it. */
  datatype Token = Token(owner: nat, pid: nat)

  /** The table of one span processor. */
  datatype Table = Table(limit: nat, dropped: nat, owners: map<SpanKey, Token>, pid: nat)

  // ---------------------------------------------------------------- the table's operations

  /** `_after_fork`: a child process starts with an empty table. */
  function AfterFork(t: Table, pid: nat): Table {
    if pid != t.pid then Table(t.limit, 0, map[], pid) else t
  }

  /** `capture`, given the token `_call_owner` returned. */
  function Capture(t: Table, pid: nat, key: SpanKey, token: Option<Token>): (Table, bool) {
    var u := AfterFork(t, pid);
    if token.None? then (u, false)
    else if key !in u.owners && |u.owners| >= u.limit then (u.(dropped := u.dropped + 1), false)
    else (u.(owners := u.owners[key := token.value]), true)
  }

  /** The entry `pop` takes out. */
  function Pop(t: Table, pid: nat, key: SpanKey): (Table, Option<Token>) {
    var u := AfterFork(t, pid);
    if key in u.owners then (u.(owners := u.owners - {key}), Some(u.owners[key])) else (u, None)
  }

  /** `SpanOwners` as an object. */
  class Owners {
    const limit: nat
    var dropped: nat
    var owners: map<SpanKey, Token>
    var pid: nat

    function Value(): Table
      reads this
    {
      Table(limit, dropped, owners, pid)
    }

    constructor (pid: nat, limit: nat := 4096)
      ensures Value() == Table(limit, 0, map[], pid)
    {
      this.limit, this.pid := limit, pid;
      dropped, owners := 0, map[];
    }

    method ResetAfterFork(here: nat)
      modifies this
      ensures Value() == AfterFork(old(Value()), here)
    {
      if here != pid {
        owners := map[];
        dropped := 0;
        pid := here;
      }
    }

    method CaptureSpan(here: nat, key: SpanKey, token: Option<Token>) returns (accepted: bool)
      modifies this
      ensures (Value(), accepted) == Capture(old(Value()), here, key, token)
    {
      ResetAfterFork(here);
      if token.None? {
        return false;
      }
      if key !in owners && |owners| >= limit {
        dropped := dropped + 1;
        return false;
      }
      owners := owners[key := token.value];
      accepted := true;
    }

    method PopSpan(here: nat, key: SpanKey) returns (token: Option<Token>)
      modifies this
      ensures (Value(), token) == Pop(old(Value()), here, key)
    {
      ResetAfterFork(here);
      token := None;
      if key in owners {
        token := Some(owners[key]);
        owners := owners - {key};
      }
    }
  }

  // ---------------------------------------------------------------- the system

  /**
   Where a thread stands that has a state's token in hand, or had: before the table's lock in `capture` (`Asked`),
   after it (`Captured`, `Refused`, and `Unowned` without a token), past `drop_span` (`Counted`, or `Late` when the
   state was closed by then), past the table's lock in `pop` (`Popped`, with the token it took out and the owner a
   plain map had), or inside `finish` (`Finishing`).
   */
  datatype Pc =
    | Asked
    | Captured
    | Refused
    | Unowned
    | Counted
    | Late
    | Popped(token: Option<nat>, expected: Option<nat>)
    | Finishing

  /**
   A thread's call about the state `owner`. `holds` says it has a strong reference to the token, which keeps the
   weak table's entries alive; `gone` that the thread stayed behind in the parent at a fork, where nothing will
   ever release that reference again.
   */
  datatype Frame = Frame(key: SpanKey, owner: nat, pc: Pc, holds: bool, gone: bool)

  /**
   The table among its states and threads. `tokens` gives the process that made each state's token, `closed` the
   states that ended, and `droppedSpans` what each state counted itself. `reference` is a plain unbounded map:
   the last accepted capture of each key in this process that was not popped. It knows nothing of closing.
   `refused` counts the captures that a full table turned away in this process.
   */
  datatype World = World(
    pid: nat, table: Table, tokens: map<nat, nat>, closed: set<nat>, droppedSpans: map<nat, nat>,
    frames: seq<Frame>, reference: map<SpanKey, nat>, refused: nat)

  datatype Step =
    | Ask(key: SpanKey, owner: nat)
    | Put(frame: nat)
    | Drop(frame: nat)
    | Take(key: SpanKey)
    | Borrow(owner: nat)
    | Release(frame: nat)
    | Close(owner: nat)
    | Fork

  function Init(limit: nat): World {
    World(0, Table(limit, 0, map[], 0), map[], {}, map[], [], map[], 0)
  }

  /** Some thread has a strong reference to the state's token. */
  ghost predicate Held(frames: seq<Frame>, owner: nat) {
    exists i :: 0 <= i < |frames| && frames[i].holds && frames[i].owner == owner
  }

  /** The state's token exists: an open state keeps it, a closed one only through threads. */
  ghost predicate Alive(w: World, owner: nat) {
    owner !in w.closed || Held(w.frames, owner)
  }

  /** The weak table loses the entries whose token is gone. */
  ghost function Sweep(w: World): World {
    w.(table := w.table.(owners :=
      map k | k in w.table.owners && Alive(w, w.table.owners[k].owner) :: w.table.owners[k]))
  }

  /** The thread can act: it exists in this process and stands at a frame like this. */
  predicate Runs(w: World, i: nat) {
    i < |w.frames| && !w.frames[i].gone
  }

  predicate CanPut(w: World, i: nat) {
    Runs(w, i) && w.frames[i].pc.Asked?
  }

  /** `drop_span` is called once `capture` has returned, and with it the reference to the token. */
  predicate CanDrop(w: World, i: nat) {
    Runs(w, i) && (w.frames[i].pc.Refused? || w.frames[i].pc.Unowned?) && !w.frames[i].holds
  }

  predicate CanRelease(w: World, i: nat) {
    Runs(w, i) && !w.frames[i].pc.Asked? && w.frames[i].holds
  }

  /** `token.get()`: the state, if it is open and the token was made in this process. */
  function Resolve(w: World, owner: nat): Option<nat> {
    if owner in w.tokens && w.tokens[owner] == w.pid && owner !in w.closed then Some(owner) else None
  }

  /** `_after_fork` and `_call_owner`: the state's one token, made at first use, or none once closed. */
  function AskNext(w: World, key: SpanKey, owner: nat): World {
    var u := w.(table := AfterFork(w.table, w.pid));
    if owner in w.closed then u.(frames := w.frames + [Frame(key, owner, Unowned, false, false)])
    else
      u.(tokens := if owner in w.tokens then w.tokens else w.tokens[owner := w.pid],
         frames := w.frames + [Frame(key, owner, Asked, true, false)])
  }

  /** The locked part of `capture`. */
  function PutNext(w: World, i: nat): World
    requires CanPut(w, i)
  {
    var f := w.frames[i];
    var token := Token(f.owner, if f.owner in w.tokens then w.tokens[f.owner] else w.pid);
    var (table, accepted) := Capture(w.table, w.pid, f.key, Some(token));
    if accepted then
      w.(table := table, frames := w.frames[i := f.(pc := Captured)], reference := w.reference[f.key := f.owner])
    else w.(table := table, frames := w.frames[i := f.(pc := Refused)], refused := w.refused + 1)
  }

  function DroppedSpans(w: World, owner: nat): nat {
    if owner in w.droppedSpans then w.droppedSpans[owner] else 0
  }

  /** `drop_span`: a closed state counts nothing. */
  function DropNext(w: World, i: nat): World
    requires CanDrop(w, i)
  {
    var f := w.frames[i];
    if f.owner in w.closed then
      w.(frames := w.frames[i := f.(pc := if f.pc.Refused? then Late else f.pc)])
    else
      w.(droppedSpans := w.droppedSpans[f.owner := DroppedSpans(w, f.owner) + 1],
         frames := w.frames[i := f.(pc := Counted)])
  }

  /** The locked part of `pop`. */
  function TakeNext(w: World, key: SpanKey): World {
    var (table, entry) := Pop(w.table, w.pid, key);
    var token := if entry.Some? then Some(entry.value.owner) else None;
    var expected := if key in w.reference then Some(w.reference[key]) else None;
    var owner := if token.Some? then token.value else 0;
    w.(table := table, reference := w.reference - {key},
       frames := w.frames + [Frame(key, owner, Popped(token, expected), token.Some?, false)])
  }

  /** What this `pop` answers if it looks now. */
  function Answer(w: World, pc: Pc): Option<nat>
    requires pc.Popped?
  {
    if pc.token.Some? then Resolve(w, pc.token.value) else None
  }

  /** A step that is not possible does nothing. */
  ghost function Apply(w: World, step: Step): World {
    match step
    case Ask(key, owner) => AskNext(w, key, owner)
    case Put(i) => if CanPut(w, i) then PutNext(w, i) else w
    case Drop(i) => if CanDrop(w, i) then DropNext(w, i) else w
    case Take(key) => TakeNext(w, key)
    case Borrow(owner) =>
      if owner in w.tokens && Alive(w, owner)
      then w.(frames := w.frames + [Frame(SpanKey(0, 0), owner, Finishing, true, false)]) else w
    case Release(i) =>
      if CanRelease(w, i) then Sweep(w.(frames := w.frames[i := w.frames[i].(holds := false)])) else w
    case Close(owner) => Sweep(w.(closed := w.closed + {owner}))
    case Fork =>
      w.(pid := w.pid + 1, reference := map[], refused := 0,
         frames := seq(|w.frames|, i requires 0 <= i < |w.frames| => w.frames[i].(gone := true)))
  }

  ghost function Run(limit: nat, steps: seq<Step>): World {
    if steps == [] then Init(limit) else Apply(Run(limit, steps[..|steps| - 1]), steps[|steps| - 1])
  }

  // ---------------------------------------------------------------- refinement

  /** The plain map, restricted to the states whose token exists, is what the table holds. */
  ghost predicate TableMatches(w: World) {
    var t := AfterFork(w.table, w.pid);
    && (forall k :: k in t.owners <==> k in w.reference && Alive(w, w.reference[k]))
    && (forall k :: k in t.owners ==>
          w.reference[k] in w.tokens && t.owners[k] == Token(w.reference[k], w.tokens[w.reference[k]]))
  }

  ghost predicate CountsMatch(w: World) {
    var t := AfterFork(w.table, w.pid);
    && w.table.pid <= w.pid
    && |t.owners| <= t.limit && t.dropped == w.refused
    && (w.table.pid < w.pid ==> w.reference == map[] && w.refused == 0)
  }

  /** A thread that holds a token, or is about to put one, has one that exists. */
  ghost predicate FramesMatch(w: World) {
    && (forall o :: o in w.tokens ==> w.tokens[o] <= w.pid)
    && (forall i :: 0 <= i < |w.frames| && w.frames[i].holds ==> w.frames[i].owner in w.tokens)
    && (forall i :: 0 <= i < |w.frames| && w.frames[i].pc.Asked? ==> w.frames[i].holds)
    && (forall i :: 0 <= i < |w.frames| && w.frames[i].pc.Asked? && !w.frames[i].gone ==> w.table.pid == w.pid)
  }

  /** What `pop` took out is what the plain map had, unless that state was closed and its token gone. */
  ghost predicate PopMatches(w: World, pc: Pc) {
    pc.Popped? ==>
      if pc.token.Some? then pc.expected == pc.token
      else pc.expected.Some? ==> pc.expected.value in w.closed
  }

  ghost predicate PopsMatch(w: World) {
    forall i :: 0 <= i < |w.frames| ==> PopMatches(w, w.frames[i].pc)
  }

  ghost predicate Refines(w: World) {
    TableMatches(w) && CountsMatch(w) && FramesMatch(w) && PopsMatch(w)
  }

  lemma HeldAppend(frames: seq<Frame>, f: Frame, owner: nat)
    ensures Held(frames + [f], owner) <==> Held(frames, owner) || (f.holds && f.owner == owner)
  {
    if Held(frames, owner) {
      var i :| 0 <= i < |frames| && frames[i].holds && frames[i].owner == owner;
      assert (frames + [f])[i] == frames[i];
    }
    assert (frames + [f])[|frames|] == f;
  }

  /** Frames that differ in their place or process alone hold the same tokens. */
  lemma HeldSame(frames: seq<Frame>, frames': seq<Frame>, owner: nat)
    requires |frames'| == |frames|
    requires forall i :: 0 <= i < |frames| ==>
               frames'[i].holds == frames[i].holds && frames'[i].owner == frames[i].owner
    ensures Held(frames', owner) <==> Held(frames, owner)
  {
  }

  lemma {:induction false} MapSubsetSize<K, V>(a: map<K, V>, b: map<K, V>)
    requires a.Keys <= b.Keys
    ensures |a| <= |b|
    decreases |a|
  {
    assert |a.Keys| == |a| && |b.Keys| == |b|;
    if a.Keys != {} {
      var k :| k in a.Keys;
      MapSubsetSize(a - {k}, b - {k});
      assert (a - {k}).Keys == a.Keys - {k} && (b - {k}).Keys == b.Keys - {k};
      assert |a.Keys - {k}| == |a - {k}| && |b.Keys - {k}| == |b - {k}|;
    }
  }

  /** An accepted capture keeps the table within its limit. */
  lemma CaptureSize(t: Table, pid: nat, key: SpanKey, token: Option<Token>)
    requires |AfterFork(t, pid).owners| <= t.limit
    ensures |Capture(t, pid, key, token).0.owners| <= t.limit
  {
    var u := AfterFork(t, pid);
    if Capture(t, pid, key, token).1 {
      var owners := u.owners[key := token.value];
      assert owners.Keys == u.owners.Keys + {key};
      assert |owners.Keys| == |owners| && |u.owners.Keys| == |u.owners|;
      if key in u.owners {
        assert owners.Keys == u.owners.Keys;
      }
    }
  }

  /** A step that leaves the entries and the reference alone, and no token alive or dead that was not so before. */
  lemma QuietRefines(w: World, t: World)
    requires TableMatches(w) && CountsMatch(w)
    requires t.pid == w.pid && t.reference == w.reference && t.refused == w.refused
    requires t.table == w.table || t.table == AfterFork(w.table, w.pid)
    requires forall o :: o in w.tokens ==> o in t.tokens && t.tokens[o] == w.tokens[o]
    requires forall o :: Alive(t, o) <==> Alive(w, o)
    ensures TableMatches(t) && CountsMatch(t)
  {
    assert AfterFork(t.table, t.pid) == AfterFork(w.table, w.pid);
  }

  lemma AskFrames(w: World, key: SpanKey, owner: nat)
    requires Refines(w)
    ensures FramesMatch(AskNext(w, key, owner)) && PopsMatch(AskNext(w, key, owner))
  {
    var t := AskNext(w, key, owner);
    assert forall i :: 0 <= i < |w.frames| ==> t.frames[i] == w.frames[i];
  }

  lemma AskRefines(w: World, key: SpanKey, owner: nat)
    requires Refines(w)
    ensures Refines(AskNext(w, key, owner))
  {
    var t := AskNext(w, key, owner);
    forall o
      ensures Alive(t, o) <==> Alive(w, o)
    {
      HeldAppend(w.frames, t.frames[|w.frames|], o);
    }
    QuietRefines(w, t);
    AskFrames(w, key, owner);
  }

  /** An accepted put is the same put into the plain map. */
  lemma PutTable(w: World, i: nat)
    requires Refines(w) && CanPut(w, i)
    requires forall o :: Alive(PutNext(w, i), o) <==> Alive(w, o)
    ensures TableMatches(PutNext(w, i)) && CountsMatch(PutNext(w, i))
  {
    var f := w.frames[i];
    assert Alive(w, f.owner) && f.owner in w.tokens;
    CaptureSize(w.table, w.pid, f.key, Some(Token(f.owner, w.tokens[f.owner])));
  }

  lemma PutRefines(w: World, i: nat)
    requires Refines(w) && CanPut(w, i)
    ensures Refines(PutNext(w, i))
  {
    var t := PutNext(w, i);
    forall o
      ensures Alive(t, o) <==> Alive(w, o)
    {
      HeldSame(w.frames, t.frames, o);
    }
    PutTable(w, i);
    assert FramesMatch(t) && PopsMatch(t);
  }

  lemma DropFrames(w: World, i: nat)
    requires FramesMatch(w) && PopsMatch(w) && CanDrop(w, i)
    ensures FramesMatch(DropNext(w, i)) && PopsMatch(DropNext(w, i))
  {
    var t := DropNext(w, i);
    assert forall j :: 0 <= j < |w.frames| && j != i ==> t.frames[j] == w.frames[j];
  }

  lemma DropRefines(w: World, i: nat)
    requires Refines(w) && CanDrop(w, i)
    ensures Refines(DropNext(w, i))
  {
    var t := DropNext(w, i);
    forall o
      ensures Alive(t, o) <==> Alive(w, o)
    {
      HeldSame(w.frames, t.frames, o);
    }
    QuietRefines(w, t);
    DropFrames(w, i);
  }

  lemma TakeRefines(w: World, key: SpanKey)
    requires Refines(w)
    ensures Refines(TakeNext(w, key))
  {
    var t := TakeNext(w, key);
    var f := t.frames[|w.frames|];
    forall o
      ensures Alive(t, o) <==> Alive(w, o)
    {
      HeldAppend(w.frames, f, o);
    }
    MapSubsetSize(t.table.owners, AfterFork(w.table, w.pid).owners);
    assert PopMatches(t, f.pc);
  }

  lemma BorrowRefines(w: World, owner: nat)
    requires Refines(w)
    ensures Refines(Apply(w, Borrow(owner)))
  {
    if owner in w.tokens && Alive(w, owner) {
      var t := Apply(w, Borrow(owner));
      forall o
        ensures Alive(t, o) <==> Alive(w, o)
      {
        HeldAppend(w.frames, t.frames[|w.frames|], o);
      }
    }
  }

  /** The table after a token may have gone. */
  lemma SweepRefines(w: World, t: World)
    requires Refines(w) && FramesMatch(t) && PopsMatch(t)
    requires t == w.(closed := t.closed, frames := t.frames)
    requires forall o :: Alive(t, o) ==> Alive(w, o)
    ensures Refines(Sweep(t))
  {
    var u := Sweep(t);
    assert forall o :: Alive(u, o) == Alive(t, o);
    MapSubsetSize(u.table.owners, w.table.owners);
  }

  lemma ReleaseRefines(w: World, i: nat)
    requires Refines(w)
    ensures Refines(Apply(w, Release(i)))
  {
    if CanRelease(w, i) {
      var t := w.(frames := w.frames[i := w.frames[i].(holds := false)]);
      forall o | Held(t.frames, o)
        ensures Held(w.frames, o)
      {
        var j :| 0 <= j < |t.frames| && t.frames[j].holds && t.frames[j].owner == o;
        assert w.frames[j].holds && w.frames[j].owner == o;
      }
      SweepRefines(w, t);
    }
  }

  lemma CloseRefines(w: World, owner: nat)
    requires Refines(w)
    ensures Refines(Apply(w, Close(owner)))
  {
    SweepRefines(w, w.(closed := w.closed + {owner}));
  }

  lemma ForkRefines(w: World)
    requires Refines(w)
    ensures Refines(Apply(w, Fork))
  {
  }

  lemma StepRefines(w: World, step: Step)
    requires Refines(w)
    ensures Refines(Apply(w, step))
  {
    match step
    case Ask(key, owner) => AskRefines(w, key, owner);
    case Put(i) => if CanPut(w, i) { PutRefines(w, i); }
    case Drop(i) => if CanDrop(w, i) { DropRefines(w, i); }
    case Take(key) => TakeRefines(w, key);
    case Borrow(owner) => BorrowRefines(w, owner);
    case Release(i) => ReleaseRefines(w, i);
    case Close(owner) => CloseRefines(w, owner);
    case Fork => ForkRefines(w);
  }

  lemma LimitKept(w: World, step: Step)
    ensures Apply(w, step).table.limit == w.table.limit
  {
  }

  lemma {:induction false} RunRefines(limit: nat, steps: seq<Step>)
    ensures Refines(Run(limit, steps)) && Run(limit, steps).table.limit == limit
  {
    if steps != [] {
      var n := |steps| - 1;
      RunRefines(limit, steps[..n]);
      StepRefines(Run(limit, steps[..n]), steps[n]);
      LimitKept(Run(limit, steps[..n]), steps[n]);
    }
  }

  // ---------------------------------------------------------------- what follows

  /**
   For every history, and however late it looks, a `pop` answers the owner of the last accepted and not yet popped
   capture of its key, if that state is open and its token was made here; otherwise nothing, and never another state.
   */
  lemma PopAnswersReference(limit: nat, steps: seq<Step>, i: nat)
    requires i < |Run(limit, steps).frames| && Run(limit, steps).frames[i].pc.Popped?
    ensures var w := Run(limit, steps);
            var pc := w.frames[i].pc;
            Answer(w, pc) == if pc.expected.Some? then Resolve(w, pc.expected.value) else None
  {
    RunRefines(limit, steps);
    assert PopMatches(Run(limit, steps), Run(limit, steps).frames[i].pc);
  }

  /** The captures of this process that are not popped and whose token exists. */
  ghost function Entries(w: World): set<SpanKey> {
    set k | k in w.reference && Alive(w, w.reference[k])
  }

  /**
   The table never holds more entries than its limit, none of a closed state whose token no thread still holds, and
   it counts the captures it refused.
   */
  lemma TableBounded(limit: nat, steps: seq<Step>)
    ensures var w := Run(limit, steps);
            var t := AfterFork(w.table, w.pid);
            && t.owners.Keys == Entries(w) && |t.owners| <= limit && t.dropped == w.refused
            && forall k :: k in t.owners ==> Alive(w, t.owners[k].owner)
  {
    RunRefines(limit, steps);
  }

  predicate Accepts(w: World, i: nat)
    requires CanPut(w, i)
  {
    PutNext(w, i).frames[i].pc.Captured?
  }

  /** A state that asked for its token is captured exactly if its key is live or the table is not full of others. */
  lemma AcceptsMeaning(w: World, i: nat)
    requires Refines(w) && CanPut(w, i)
    ensures Accepts(w, i) <==> w.frames[i].key in Entries(w) || |Entries(w)| < w.table.limit
  {
    var t := AfterFork(w.table, w.pid);
    assert t.owners.Keys == Entries(w);
    assert |t.owners.Keys| == |t.owners|;
  }

  /** Closing an owner that no thread holds gives its slots back to whoever is waiting at the lock. */
  lemma ClosingFreesSlots(limit: nat, steps: seq<Step>, owner: nat, i: nat)
    requires var w := Run(limit, steps);
             && CanPut(w, i) && w.frames[i].owner != owner && !Held(w.frames, owner)
             && exists k :: k in Entries(w) && w.reference[k] == owner
    ensures var w := Apply(Run(limit, steps), Close(owner)); CanPut(w, i) && Accepts(w, i)
  {
    var w := Run(limit, steps);
    RunRefines(limit, steps);
    StepRefines(w, Close(owner));
    EntriesShrink(w, owner);
    EntriesSize(w);
    AcceptsMeaning(Apply(w, Close(owner)), i);
  }

  lemma EntriesSize(w: World)
    requires TableMatches(w) && CountsMatch(w)
    ensures |Entries(w)| <= w.table.limit
  {
    var t := AfterFork(w.table, w.pid);
    assert t.owners.Keys == Entries(w) && |t.owners.Keys| == |t.owners|;
  }

  lemma EntriesShrink(w: World, owner: nat)
    requires !Held(w.frames, owner) && exists k :: k in Entries(w) && w.reference[k] == owner
    ensures |Entries(Apply(w, Close(owner)))| < |Entries(w)|
  {
    var k :| k in Entries(w) && w.reference[k] == owner;
    var after := Entries(Apply(w, Close(owner)));
    SubsetSize(after, Entries(w) - {k});
  }

  // ---------------------------------------------------------------- dropped spans

  /** A capture for this state reaches the lock while as many others as there is room for are live. */
  ghost predicate Refuses(limit: nat, w: World, step: Step, owner: nat) {
    && step.Put? && CanPut(w, step.frame) && w.frames[step.frame].owner == owner
    && w.frames[step.frame].key !in Entries(w) && |Entries(w)| >= limit
  }

  ghost function Refusals(limit: nat, steps: seq<Step>, owner: nat): nat {
    if steps == [] then 0
    else
      var n := |steps| - 1;
      Refusals(limit, steps[..n], owner) + Bit(Refuses(limit, Run(limit, steps[..n]), steps[n], owner))
  }

  /** Refused, with `drop_span` still to come. */
  function Waiting(owner: nat): Frame -> bool {
    (f: Frame) => f.owner == owner && f.pc.Refused? && !f.gone
  }

  /** Refused, and never counted by the state: it was closed first, or a fork left the thread behind. */
  function Missed(owner: nat): Frame -> bool {
    (f: Frame) => f.owner == owner && (f.pc.Late? || (f.pc.Refused? && f.gone))
  }

  function Noted(owner: nat): Frame -> bool {
    (f: Frame) => f.owner == owner && f.pc.Counted?
  }

  function TurnedAway(owner: nat): Frame -> bool {
    (f: Frame) => f.owner == owner && (f.pc.Refused? || f.pc.Late? || f.pc.Counted?)
  }

  /** A state without a token to hand out is closed, and so is one that a `drop_span` came too late for. */
  ghost predicate UnownedClosed(w: World) {
    forall i :: 0 <= i < |w.frames| && (w.frames[i].pc.Unowned? || w.frames[i].pc.Late?) ==>
      w.frames[i].owner in w.closed
  }

  ghost predicate DropsMatch(w: World, owner: nat, refusals: nat) {
    && UnownedClosed(w)
    && DroppedSpans(w, owner) == Count(w.frames, Noted(owner))
    && refusals == Count(w.frames, TurnedAway(owner))
  }

  /** A frame that is no refusal counts for nothing. */
  lemma FrameAdded(frames: seq<Frame>, f: Frame, owner: nat)
    requires !f.pc.Refused? && !f.pc.Late? && !f.pc.Counted?
    ensures Count(frames + [f], Noted(owner)) == Count(frames, Noted(owner))
    ensures Count(frames + [f], TurnedAway(owner)) == Count(frames, TurnedAway(owner))
  {
    CountAppend(frames, f, Noted(owner));
    CountAppend(frames, f, TurnedAway(owner));
  }

  lemma FrameChanged(frames: seq<Frame>, i: nat, f: Frame, owner: nat)
    requires i < |frames|
    ensures Count(frames[i := f], Noted(owner)) ==
            Count(frames, Noted(owner)) - Bit(Noted(owner)(frames[i])) + Bit(Noted(owner)(f))
    ensures Count(frames[i := f], TurnedAway(owner)) ==
            Count(frames, TurnedAway(owner)) - Bit(TurnedAway(owner)(frames[i])) + Bit(TurnedAway(owner)(f))
  {
    CountUpdate(frames, i, f, Noted(owner));
    CountUpdate(frames, i, f, TurnedAway(owner));
  }

  /** Frames that differ only in being left behind count the same. */
  lemma {:induction false} FramesGone(frames: seq<Frame>, frames': seq<Frame>, owner: nat)
    requires |frames'| == |frames|
    requires forall i :: 0 <= i < |frames| ==> frames'[i] == frames[i].(gone := frames'[i].gone)
    ensures Count(frames', Noted(owner)) == Count(frames, Noted(owner))
    ensures Count(frames', TurnedAway(owner)) == Count(frames, TurnedAway(owner))
  {
    if frames != [] {
      var n := |frames| - 1;
      FramesGone(frames[..n], frames'[..n], owner);
    }
  }

  lemma PutDrops(w: World, i: nat, owner: nat, refusals: nat)
    requires Refines(w) && CanPut(w, i) && DropsMatch(w, owner, refusals)
    ensures DropsMatch(PutNext(w, i), owner, refusals + Bit(Refuses(w.table.limit, w, Put(i), owner)))
  {
    AcceptsMeaning(w, i);
    FrameChanged(w.frames, i, PutNext(w, i).frames[i], owner);
  }

  lemma DropDrops(w: World, i: nat, owner: nat, refusals: nat)
    requires CanDrop(w, i) && DropsMatch(w, owner, refusals)
    ensures DropsMatch(DropNext(w, i), owner, refusals)
  {
    FrameChanged(w.frames, i, DropNext(w, i).frames[i], owner);
  }

  lemma AddedDrops(w: World, t: World, f: Frame, owner: nat, refusals: nat)
    requires DropsMatch(w, owner, refusals) && t.closed == w.closed && t.droppedSpans == w.droppedSpans
    requires t.frames == w.frames + [f] && !f.pc.Refused? && !f.pc.Late? && !f.pc.Counted?
    requires f.pc.Unowned? ==> f.owner in w.closed
    ensures DropsMatch(t, owner, refusals)
  {
    FrameAdded(w.frames, f, owner);
  }

  lemma BorrowDrops(w: World, o: nat, owner: nat, refusals: nat)
    requires DropsMatch(w, owner, refusals)
    ensures DropsMatch(Apply(w, Borrow(o)), owner, refusals)
  {
    if o in w.tokens && Alive(w, o) {
      AddedDrops(w, Apply(w, Borrow(o)), Frame(SpanKey(0, 0), o, Finishing, true, false), owner, refusals);
    }
  }

  lemma ReleaseDrops(w: World, i: nat, owner: nat, refusals: nat)
    requires DropsMatch(w, owner, refusals)
    ensures DropsMatch(Apply(w, Release(i)), owner, refusals)
  {
    if CanRelease(w, i) {
      FrameChanged(w.frames, i, w.frames[i].(holds := false), owner);
    }
  }

  lemma ForkDrops(w: World, owner: nat, refusals: nat)
    requires DropsMatch(w, owner, refusals)
    ensures DropsMatch(Apply(w, Fork), owner, refusals)
  {
    FramesGone(w.frames, Apply(w, Fork).frames, owner);
  }

  lemma StepDrops(w: World, step: Step, owner: nat, refusals: nat)
    requires Refines(w) && DropsMatch(w, owner, refusals)
    ensures DropsMatch(Apply(w, step), owner, refusals + Bit(Refuses(w.table.limit, w, step, owner)))
  {
    match step
    case Put(i) => if CanPut(w, i) { PutDrops(w, i, owner, refusals); }
    case Drop(i) => if CanDrop(w, i) { DropDrops(w, i, owner, refusals); }
    case Ask(key, o) =>
      var t := AskNext(w, key, o);
      AddedDrops(w, t, t.frames[|w.frames|], owner, refusals);
    case Take(key) =>
      var t := TakeNext(w, key);
      AddedDrops(w, t, t.frames[|w.frames|], owner, refusals);
    case Borrow(o) => BorrowDrops(w, o, owner, refusals);
    case Release(i) => ReleaseDrops(w, i, owner, refusals);
    case Close(_) =>
    case Fork => ForkDrops(w, owner, refusals);
  }

  lemma {:induction false} RunDrops(limit: nat, steps: seq<Step>, owner: nat)
    ensures DropsMatch(Run(limit, steps), owner, Refusals(limit, steps, owner))
  {
    if steps != [] {
      var n := |steps| - 1;
      RunDrops(limit, steps[..n], owner);
      RunRefines(limit, steps[..n]);
      StepDrops(Run(limit, steps[..n]), steps[n], owner, Refusals(limit, steps[..n], owner));
    }
  }

  lemma {:induction false} RefusalsPartition(frames: seq<Frame>, owner: nat)
    ensures Count(frames, TurnedAway(owner)) ==
            Count(frames, Noted(owner)) + Count(frames, Waiting(owner)) + Count(frames, Missed(owner))
  {
    if frames != [] {
      RefusalsPartition(frames[..|frames| - 1], owner);
    }
  }

  /**
   For every history, a state's own count of dropped spans falls short of its refused captures by those whose
   `drop_span` is still to come and those that came after the close or were left behind by a fork: it is exact if
   and only if there are none of either.
   */
  lemma DroppedSpansExact(limit: nat, steps: seq<Step>, owner: nat)
    ensures var w := Run(limit, steps);
            var waiting, missed := Count(w.frames, Waiting(owner)), Count(w.frames, Missed(owner));
            && DroppedSpans(w, owner) + waiting + missed == Refusals(limit, steps, owner)
            && (DroppedSpans(w, owner) == Refusals(limit, steps, owner) <==> waiting == 0 && missed == 0)
  {
    RunDrops(limit, steps, owner);
    RefusalsPartition(Run(limit, steps).frames, owner);
  }

  lemma RunStep(limit: nat, steps: seq<Step>, step: Step)
    ensures Run(limit, steps + [step]) == Apply(Run(limit, steps), step)
  {
    assert (steps + [step])[..|steps|] == steps;
  }

  lemma RefusedState(key: SpanKey, owner: nat)
    ensures Run(0, [Ask(key, owner), Put(0)])
            == World(0, Table(0, 1, map[], 0), map[owner := 0], {}, map[],
                     [Frame(key, owner, Refused, true, false)], map[], 1)
  {
    RunStep(0, [], Ask(key, owner));
    RunStep(0, [Ask(key, owner)], Put(0));
    assert [] + [Ask(key, owner)] == [Ask(key, owner)];
    assert [Ask(key, owner)] + [Put(0)] == [Ask(key, owner), Put(0)];
    assert Run(0, [Ask(key, owner)]).frames == [Frame(key, owner, Asked, true, false)];
  }

  /** The same state after `capture` returned, the close and the late `drop_span`. */
  lemma LateState(key: SpanKey, owner: nat, w: World)
    requires w == World(0, Table(0, 1, map[], 0), map[owner := 0], {}, map[],
                        [Frame(key, owner, Refused, true, false)], map[], 1)
    ensures var t := Apply(Apply(Apply(w, Release(0)), Close(owner)), Drop(0));
            t.frames == [Frame(key, owner, Late, false, false)] && t.droppedSpans == map[] && t.table.dropped == 1
  {
    var released := Apply(w, Release(0));
    assert released.frames == [Frame(key, owner, Refused, false, false)];
  }

  lemma OneMissed(f: Frame)
    requires f.pc.Late?
    ensures Count([f], Missed(f.owner)) == 1 && Count([f], Waiting(f.owner)) == 0
  {
    assert [f][..0] == [];
  }

  /** A history that shows it: between the refusal and `drop_span` another thread closes the state. */
  lemma DropCanComeLate(key: SpanKey, owner: nat) returns (steps: seq<Step>)
    ensures var w := Run(0, steps);
            && w.table.dropped == 1 && Refusals(0, steps, owner) == 1
            && DroppedSpans(w, owner) == 0 && Count(w.frames, Missed(owner)) == 1
  {
    var refused := [Ask(key, owner), Put(0)];
    RefusedState(key, owner);
    LateState(key, owner, Run(0, refused));
    RunStep(0, refused, Release(0));
    RunStep(0, refused + [Release(0)], Close(owner));
    RunStep(0, refused + [Release(0)] + [Close(owner)], Drop(0));
    steps := refused + [Release(0)] + [Close(owner)] + [Drop(0)];
    OneMissed(Frame(key, owner, Late, false, false));
    DroppedSpansExact(0, steps, owner);
  }
}
