/**
 Completions racing with each other and with the close of their owner: many states, many handles, many
 threads inside `finish`, and forks. Every step is one locked region of the source.
 */
module CallProtocol {
  import opened Counting
  import opened Options
  import opened RequestCalls

  /**
   A request state. `tokenPid` is the process its owner token was made in; `log` lists the calls it admitted
   and `snapshot` is what its closing summary copied.
   */
  datatype Cell = Cell(
    closed: bool, totals: Totals, tokenPid: Option<nat>, log: seq<Admission>, snapshot: Option<Totals>)

  /** A `CallHandle`. `bound` says it got a token, `pid` whose process that token is from. */
  datatype Handle = Handle(
    owner: nat, bound: bool, pid: nat, kind: Kind, source: Source, claimed: bool, admitted: bool)

  /** A thread inside `finish`: past the owner check, past the `_finished` test, or back. */
  datatype FinishPc = Entered | Claimed | Done(result: bool) | Vanished

  datatype Finish = Finish(handle: nat, pc: FinishPc)

  /** A value some `finish` or `record_completed_call` returned about this owner. */
  datatype Answer = Answer(owner: nat, value: bool)

  datatype World = World(
    pid: nat, cells: seq<Cell>, handles: seq<Handle>, finishes: seq<Finish>, answers: seq<Answer>)

  const START := World(0, [], [], [], [])
  const NEW_CELL := Cell(false, EMPTY, None, [], None)

  datatype Step =
    | Open
    | StartCall(owner: nat, kind: Kind, source: Source)
    | Enter(handle: nat)
    | Claim(finish: nat)
    | Complete(
        finish: nat, seconds: real, fingerprint: Option<string>, error: Option<string>, valid: bool, overflows: bool)
    | Direct(owner: nat, call: Call, valid: bool, overflows: bool)
    | Close(owner: nat)
    | Fork

  predicate Enabled(w: World, step: Step) {
    match step
    case Open => true
    case StartCall(k, _, _) => k < |w.cells|
    case Enter(h) => h < |w.handles|
    case Claim(i) => i < |w.finishes| && w.finishes[i].pc.Entered? && w.finishes[i].handle < |w.handles|
    case Complete(i, _, _, _, _, _) =>
      i < |w.finishes| && w.finishes[i].pc.Claimed? && w.finishes[i].handle < |w.handles|
      && w.handles[w.finishes[i].handle].owner < |w.cells|
    case Direct(k, call, _, _) => k < |w.cells| && !call.started && !call.source.Sqlalchemy?
    case Close(k) => k < |w.cells| && !w.cells[k].closed
    case Fork => true
  }

  /** `_record_call` on a cell. */
  function RecordIn(cell: Cell, call: Call): Cell {
    cell.(totals := Record(cell.totals, call), log := cell.log + [Admission(call, FailedSql(cell.totals, call))])
  }

  /** The call is admitted: well formed, to an open state, with a finite total. */
  predicate Admits(cell: Cell, valid: bool, overflows: bool) {
    valid && !cell.closed && !overflows
  }

  function TokenPid(w: World, cell: Cell): nat {
    match cell.tokenPid
    case None => w.pid
    case Some(pid) => pid
  }

  function StartCallNext(w: World, k: nat, kind: Kind, source: Source): World
    requires k < |w.cells|
  {
    var cell := w.cells[k];
    var pid := TokenPid(w, cell);
    if cell.closed then w.(handles := w.handles + [Handle(k, false, pid, kind, source, false, false)])
    else
      w.(cells := w.cells[k := cell.(totals := Begin(cell.totals, kind, source), tokenPid := Some(pid))],
         handles := w.handles + [Handle(k, true, pid, kind, source, false, false)])
  }

  /** The owner check before any lock: the token must be from this process and its state open. */
  predicate OwnerAnswers(w: World, h: Handle) {
    h.bound && h.pid == w.pid && h.owner < |w.cells| && !w.cells[h.owner].closed
  }

  function EnterNext(w: World, i: nat): World
    requires i < |w.handles|
  {
    var h := w.handles[i];
    if OwnerAnswers(w, h) then w.(finishes := w.finishes + [Finish(i, Entered)])
    else w.(finishes := w.finishes + [Finish(i, Done(false))], answers := w.answers + [Answer(h.owner, false)])
  }

  function ClaimNext(w: World, i: nat): World
    requires Enabled(w, Claim(i))
  {
    var n := w.finishes[i].handle;
    var h := w.handles[n];
    if h.claimed then
      w.(finishes := w.finishes[i := Finish(n, Done(false))], answers := w.answers + [Answer(h.owner, false)])
    else
      w.(finishes := w.finishes[i := Finish(n, Claimed)], handles := w.handles[n := h.(claimed := true)])
  }

  function CompleteNext(
    w: World, i: nat, seconds: real, fingerprint: Option<string>, error: Option<string>, valid: bool, overflows: bool)
    : World
    requires Enabled(w, Complete(i, seconds, fingerprint, error, valid, overflows))
  {
    var n := w.finishes[i].handle;
    var h := w.handles[n];
    var cell := w.cells[h.owner];
    if Admits(cell, valid, overflows) then
      w.(cells := w.cells[h.owner := RecordIn(cell, Call(h.kind, seconds, fingerprint, error, h.source, true))],
         handles := w.handles[n := h.(admitted := true)],
         finishes := w.finishes[i := Finish(n, Done(true))],
         answers := w.answers + [Answer(h.owner, true)])
    else
      w.(finishes := w.finishes[i := Finish(n, Done(false))], answers := w.answers + [Answer(h.owner, false)])
  }

  function DirectNext(w: World, k: nat, call: Call, valid: bool, overflows: bool): World
    requires k < |w.cells|
  {
    if Admits(w.cells[k], valid, overflows) then
      w.(cells := w.cells[k := RecordIn(w.cells[k], call)], answers := w.answers + [Answer(k, true)])
    else w.(answers := w.answers + [Answer(k, false)])
  }

  /** The closing summary and the release, under one lock. */
  function CloseCell(cell: Cell): Cell {
    Cell(true, EMPTY, None, cell.log, Some(cell.totals))
  }

  /** In the child, threads of the parent are gone. */
  function Survives(f: Finish): Finish {
    if f.pc.Done? then f else f.(pc := Vanished)
  }

  function Apply(w: World, step: Step): World
    requires Enabled(w, step)
  {
    match step
    case Open => w.(cells := w.cells + [NEW_CELL])
    case StartCall(k, kind, source) => StartCallNext(w, k, kind, source)
    case Enter(h) => EnterNext(w, h)
    case Claim(i) => ClaimNext(w, i)
    case Complete(i, seconds, fingerprint, error, valid, overflows) =>
      CompleteNext(w, i, seconds, fingerprint, error, valid, overflows)
    case Direct(k, call, valid, overflows) => DirectNext(w, k, call, valid, overflows)
    case Close(k) => w.(cells := w.cells[k := CloseCell(w.cells[k])])
    case Fork =>
      w.(pid := w.pid + 1, finishes := seq(|w.finishes|, i requires 0 <= i < |w.finishes| => Survives(w.finishes[i])))
  }

  ghost predicate Leads(w: World, steps: seq<Step>, t: World)
    decreases |steps|
  {
    if steps == [] then t == w
    else Enabled(w, steps[0]) && Leads(Apply(w, steps[0]), steps[1..], t)
  }

  ghost predicate Reachable(w: World) {
    exists steps :: Leads(START, steps, w)
  }

  // ---------------------------------------------------------------- invariants

  function Outstanding(k: nat, kind: Kind): Handle -> bool {
    (h: Handle) => h.bound && h.owner == k && h.kind == kind && !h.admitted
  }

  function OutstandingSql(k: nat): Handle -> bool {
    (h: Handle) => h.bound && h.owner == k && h.source.Sqlalchemy? && !h.admitted
  }

  function SaidTrue(k: nat): Answer -> bool {
    (a: Answer) => a.owner == k && a.value
  }

  /** The totals are exact for the admitted calls: live in an open state, frozen in the snapshot of a closed one. */
  ghost predicate CellInv(cell: Cell) {
    if cell.closed then cell.totals == EMPTY && cell.snapshot.Some? && Match(cell.snapshot.value, cell.log)
    else Match(cell.totals, cell.log) && cell.snapshot.None?
  }

  ghost predicate PendingInv(k: nat, cell: Cell, handles: seq<Handle>) {
    !cell.closed ==>
      && Get(cell.totals.pending, Db, 0) == Count(handles, Outstanding(k, Db))
      && Get(cell.totals.pending, Http, 0) == Count(handles, Outstanding(k, Http))
  }

  ghost predicate SqlInv(k: nat, cell: Cell, handles: seq<Handle>) {
    var s := Executions(cell.totals.sql);
    !cell.closed ==>
      && s.attempted == s.succeeded + s.failed + Count(handles, OutstandingSql(k))
      && (cell.totals.sql.None? ==> s.succeeded == s.failed == 0)
      && (cell.totals.sql.None? ==>
            forall i :: 0 <= i < |handles| ==>
              !(handles[i].bound && handles[i].owner == k && handles[i].source.Sqlalchemy?))
  }

  ghost predicate AnswersInv(k: nat, cell: Cell, answers: seq<Answer>) {
    |cell.log| == Count(answers, SaidTrue(k))
  }

  /** This finish took the handle's only chance. */
  predicate Took(f: Finish) {
    f.pc.Claimed? || f.pc == Done(true)
  }

  ghost predicate OnceInv(handles: seq<Handle>, finishes: seq<Finish>, cells: nat) {
    && (forall n :: 0 <= n < |handles| ==> handles[n].owner < cells && (handles[n].admitted ==> handles[n].claimed))
    && (forall i :: 0 <= i < |finishes| ==> finishes[i].handle < |handles|)
    && (forall i :: 0 <= i < |finishes| && !finishes[i].pc.Done? ==> handles[finishes[i].handle].bound)
    && (forall i :: 0 <= i < |finishes| && Took(finishes[i]) ==> handles[finishes[i].handle].claimed)
    && (forall i :: 0 <= i < |finishes| && finishes[i].pc.Claimed? ==> !handles[finishes[i].handle].admitted)
    && (forall i :: 0 <= i < |finishes| && finishes[i].pc == Done(true) ==> handles[finishes[i].handle].admitted)
    && (forall i, j :: 0 <= i < j < |finishes| && finishes[i].handle == finishes[j].handle ==>
          !(Took(finishes[i]) && Took(finishes[j])))
  }

  ghost predicate OwnerInv(w: World, k: nat)
    requires k < |w.cells|
  {
    && CellInv(w.cells[k])
    && PendingInv(k, w.cells[k], w.handles)
    && SqlInv(k, w.cells[k], w.handles)
    && AnswersInv(k, w.cells[k], w.answers)
  }

  ghost predicate Inv(w: World) {
    && OnceInv(w.handles, w.finishes, |w.cells|)
    && (forall a :: 0 <= a < |w.answers| ==> w.answers[a].owner < |w.cells|)
    && forall k: nat :: k < |w.cells| ==> OwnerInv(w, k)
  }

  // ---------------------------------------------------------------- one step

  /** The counts an owner's invariant speaks of. */
  lemma HandleAdded(k: nat, handles: seq<Handle>, h: Handle)
    ensures forall kind :: Count(handles + [h], Outstanding(k, kind)) ==
                           Count(handles, Outstanding(k, kind)) + (if Outstanding(k, kind)(h) then 1 else 0)
    ensures Count(handles + [h], OutstandingSql(k)) ==
            Count(handles, OutstandingSql(k)) + (if OutstandingSql(k)(h) then 1 else 0)
  {
    forall kind {
      CountAppend(handles, h, Outstanding(k, kind));
    }
    CountAppend(handles, h, OutstandingSql(k));
  }

  lemma ForeignHandleAdded(k: nat, cell: Cell, handles: seq<Handle>, h: Handle)
    requires PendingInv(k, cell, handles) && SqlInv(k, cell, handles) && (h.owner != k || !h.bound)
    ensures PendingInv(k, cell, handles + [h]) && SqlInv(k, cell, handles + [h])
  {
    HandleAdded(k, handles, h);
  }

  /** A started call is outstanding, in its kind and, for SQLAlchemy, among the attempts. */
  lemma CallStarted(k: nat, cell: Cell, handles: seq<Handle>, h: Handle)
    requires !cell.closed && h.owner == k && h.bound && !h.admitted
    requires PendingInv(k, cell, handles) && SqlInv(k, cell, handles)
    ensures var cell' := cell.(totals := Begin(cell.totals, h.kind, h.source), tokenPid := Some(h.pid));
            PendingInv(k, cell', handles + [h]) && SqlInv(k, cell', handles + [h])
  {
    HandleAdded(k, handles, h);
  }

  lemma StartCallKeeps(w: World, k: nat, kind: Kind, source: Source)
    requires Inv(w) && k < |w.cells|
    ensures Inv(StartCallNext(w, k, kind, source))
  {
    var w' := StartCallNext(w, k, kind, source);
    var h := w'.handles[|w.handles|];
    forall j: nat | j < |w'.cells|
      ensures OwnerInv(w', j)
    {
      assert OwnerInv(w, j);
      if j == k && !w.cells[k].closed {
        CallStarted(k, w.cells[k], w.handles, h);
        BeginKeeps(w.cells[k].totals, w.cells[k].log, kind, source);
      } else {
        ForeignHandleAdded(j, w.cells[j], w.handles, h);
      }
    }
  }

  /** Admitting a handle's call settles exactly that handle. */
  lemma SettleHandle(k: nat, cell: Cell, handles: seq<Handle>, n: nat, call: Call)
    requires n < |handles| && !cell.closed
    requires handles[n].bound && handles[n].owner == k && !handles[n].admitted
    requires call.kind == handles[n].kind && call.source == handles[n].source && call.started
    requires PendingInv(k, cell, handles) && SqlInv(k, cell, handles)
    ensures var cell', handles' := RecordIn(cell, call), handles[n := handles[n].(admitted := true)];
            PendingInv(k, cell', handles') && SqlInv(k, cell', handles')
    ensures Get(cell.totals.pending, call.kind, 0) >= 1
  {
    var h' := handles[n].(admitted := true);
    CountUpdate(handles, n, h', Outstanding(k, Db));
    CountUpdate(handles, n, h', Outstanding(k, Http));
    CountUpdate(handles, n, h', OutstandingSql(k));
    RecordRest(cell.totals, call);
  }

  /** A call that came with no handle touches no pending count and no SQLAlchemy total. */
  lemma DirectSettles(k: nat, cell: Cell, handles: seq<Handle>, call: Call)
    requires !cell.closed && !call.started && !call.source.Sqlalchemy?
    requires PendingInv(k, cell, handles) && SqlInv(k, cell, handles)
    ensures PendingInv(k, RecordIn(cell, call), handles) && SqlInv(k, RecordIn(cell, call), handles)
  {
    RecordRest(cell.totals, call);
  }

  /** Updating a handle of another owner changes nothing for this one. */
  lemma OtherHandle(k: nat, cell: Cell, handles: seq<Handle>, n: nat, h': Handle)
    requires n < |handles| && handles[n].owner != k && h'.owner == handles[n].owner
    requires PendingInv(k, cell, handles) && SqlInv(k, cell, handles)
    ensures PendingInv(k, cell, handles[n := h']) && SqlInv(k, cell, handles[n := h'])
  {
    CountUpdate(handles, n, h', Outstanding(k, Db));
    CountUpdate(handles, n, h', Outstanding(k, Http));
    CountUpdate(handles, n, h', OutstandingSql(k));
  }

  /** Claiming a handle leaves it outstanding. */
  lemma ClaimHandle(k: nat, cell: Cell, handles: seq<Handle>, n: nat)
    requires n < |handles|
    requires PendingInv(k, cell, handles) && SqlInv(k, cell, handles)
    ensures var handles' := handles[n := handles[n].(claimed := true)];
            PendingInv(k, cell, handles') && SqlInv(k, cell, handles')
  {
    var h' := handles[n].(claimed := true);
    CountUpdate(handles, n, h', Outstanding(k, Db));
    CountUpdate(handles, n, h', Outstanding(k, Http));
    CountUpdate(handles, n, h', OutstandingSql(k));
  }

  lemma AnswerAdded(k: nat, answers: seq<Answer>, a: Answer)
    ensures Count(answers + [a], SaidTrue(k)) ==
            Count(answers, SaidTrue(k)) + (if a.owner == k && a.value then 1 else 0)
  {
    CountAppend(answers, a, SaidTrue(k));
  }

  lemma EnterKeeps(w: World, n: nat)
    requires Inv(w) && n < |w.handles|
    ensures Inv(EnterNext(w, n))
  {
    var w' := EnterNext(w, n);
    forall k: nat | k < |w'.cells|
      ensures OwnerInv(w', k)
    {
      assert OwnerInv(w, k);
      AnswerAdded(k, w.answers, Answer(w.handles[n].owner, false));
    }
  }

  lemma ClaimOnce(handles: seq<Handle>, finishes: seq<Finish>, cells: nat, i: nat)
    requires OnceInv(handles, finishes, cells) && i < |finishes| && finishes[i].pc.Entered?
    ensures var n := finishes[i].handle;
            if handles[n].claimed then OnceInv(handles, finishes[i := Finish(n, Done(false))], cells)
            else OnceInv(handles[n := handles[n].(claimed := true)], finishes[i := Finish(n, Claimed)], cells)
  {
  }

  lemma ClaimKeeps(w: World, i: nat)
    requires Inv(w) && Enabled(w, Claim(i))
    ensures Inv(ClaimNext(w, i))
  {
    var w' := ClaimNext(w, i);
    var n := w.finishes[i].handle;
    ClaimOnce(w.handles, w.finishes, |w.cells|, i);
    forall k: nat | k < |w'.cells|
      ensures OwnerInv(w', k)
    {
      assert OwnerInv(w, k);
      AnswerAdded(k, w.answers, Answer(w.handles[n].owner, false));
      ClaimHandle(k, w.cells[k], w.handles, n);
    }
  }

  lemma CompleteOnce(handles: seq<Handle>, finishes: seq<Finish>, cells: nat, i: nat)
    requires OnceInv(handles, finishes, cells) && i < |finishes| && finishes[i].pc.Claimed?
    ensures var n := finishes[i].handle;
            && handles[n].bound && !handles[n].admitted
            && OnceInv(handles, finishes[i := Finish(n, Done(false))], cells)
            && OnceInv(handles[n := handles[n].(admitted := true)], finishes[i := Finish(n, Done(true))], cells)
  {
  }

  lemma CompleteKeeps(
    w: World, i: nat, seconds: real, fingerprint: Option<string>, error: Option<string>, valid: bool, overflows: bool)
    requires Inv(w) && Enabled(w, Complete(i, seconds, fingerprint, error, valid, overflows))
    ensures Inv(CompleteNext(w, i, seconds, fingerprint, error, valid, overflows))
  {
    var w' := CompleteNext(w, i, seconds, fingerprint, error, valid, overflows);
    var n := w.finishes[i].handle;
    var h := w.handles[n];
    var cell := w.cells[h.owner];
    var call := Call(h.kind, seconds, fingerprint, error, h.source, true);
    CompleteOnce(w.handles, w.finishes, |w.cells|, i);
    forall k: nat | k < |w'.cells|
      ensures OwnerInv(w', k)
    {
      assert OwnerInv(w, k);
      AnswerAdded(k, w.answers, Answer(h.owner, Admits(cell, valid, overflows)));
      if Admits(cell, valid, overflows) {
        if k == h.owner {
          SettleHandle(k, cell, w.handles, n, call);
          RecordKeeps(cell.totals, cell.log, call);
        } else {
          OtherHandle(k, w.cells[k], w.handles, n, h.(admitted := true));
        }
      }
    }
  }

  lemma DirectKeeps(w: World, k: nat, call: Call, valid: bool, overflows: bool)
    requires Inv(w) && Enabled(w, Direct(k, call, valid, overflows))
    ensures Inv(DirectNext(w, k, call, valid, overflows))
  {
    var w' := DirectNext(w, k, call, valid, overflows);
    forall j: nat | j < |w'.cells|
      ensures OwnerInv(w', j)
    {
      assert OwnerInv(w, j);
      AnswerAdded(j, w.answers, Answer(k, Admits(w.cells[k], valid, overflows)));
      if j == k && Admits(w.cells[k], valid, overflows) {
        DirectSettles(k, w.cells[k], w.handles, call);
        RecordKeeps(w.cells[k].totals, w.cells[k].log, call);
      }
    }
  }

  lemma OpenKeeps(w: World)
    requires Inv(w)
    ensures Inv(Apply(w, Open))
  {
    var w' := Apply(w, Open);
    var k := |w.cells|;
    EmptyMatch();
    CountZero(w.handles, Outstanding(k, Db));
    CountZero(w.handles, Outstanding(k, Http));
    CountZero(w.handles, OutstandingSql(k));
    CountZero(w.answers, SaidTrue(k));
    forall j: nat | j < |w'.cells|
      ensures OwnerInv(w', j)
    {
      assert j == k || OwnerInv(w, j);
    }
  }

  lemma CloseKeeps(w: World, k: nat)
    requires Inv(w) && Enabled(w, Close(k))
    ensures Inv(Apply(w, Close(k)))
  {
    var w' := Apply(w, Close(k));
    forall j: nat | j < |w'.cells|
      ensures OwnerInv(w', j)
    {
      assert OwnerInv(w, j);
    }
  }

  lemma ForkKeeps(w: World)
    requires Inv(w)
    ensures Inv(Apply(w, Fork))
  {
    var w' := Apply(w, Fork);
    forall j: nat | j < |w'.cells|
      ensures OwnerInv(w', j)
    {
      assert OwnerInv(w, j);
    }
  }

  lemma StepKeeps(w: World, step: Step)
    requires Inv(w) && Enabled(w, step)
    ensures Inv(Apply(w, step))
  {
    match step
    case Open => OpenKeeps(w);
    case StartCall(k, kind, source) => StartCallKeeps(w, k, kind, source);
    case Enter(h) => EnterKeeps(w, h);
    case Claim(i) => ClaimKeeps(w, i);
    case Complete(i, seconds, fingerprint, error, valid, overflows) =>
      CompleteKeeps(w, i, seconds, fingerprint, error, valid, overflows);
    case Direct(k, call, valid, overflows) => DirectKeeps(w, k, call, valid, overflows);
    case Close(k) => CloseKeeps(w, k);
    case Fork => ForkKeeps(w);
  }

  lemma {:induction false} RunKeeps(w: World, steps: seq<Step>, t: World)
    requires Inv(w) && Leads(w, steps, t)
    ensures Inv(t)
    decreases |steps|
  {
    if steps != [] {
      StepKeeps(w, steps[0]);
      RunKeeps(Apply(w, steps[0]), steps[1..], t);
    }
  }

  lemma ReachableInv(w: World)
    requires Reachable(w)
    ensures Inv(w)
  {
    var steps :| Leads(START, steps, w);
    RunKeeps(START, steps, w);
  }
}
