/**
 The log line of a request copies the call totals without closing the state, which happens later: what lies between
 the two is in the totals and in no line.
 */
module CallLines {
  import opened Counting
  import opened Options
  import opened RequestCalls
  import opened CallProtocol

  /**
   The summary in a log line, with what had happened by then: whether the state was open, how many answers had been
   given, and how many calls the state had admitted.
   */
  datatype Line = Line(owner: nat, totals: Totals, open: bool, answers: nat, admitted: nat)

  datatype System = System(world: World, lines: seq<Line>)

  const QUIET := System(START, [])

  datatype Move = Act(step: Step) | Summarize(owner: nat)

  predicate CanMove(s: System, move: Move) {
    match move
    case Act(step) => Enabled(s.world, step)
    case Summarize(k) => k < |s.world.cells|
  }

  function SummaryOf(w: World, k: nat): Line
    requires k < |w.cells|
  {
    Line(k, w.cells[k].totals, !w.cells[k].closed, |w.answers|, |w.cells[k].log|)
  }

  /** `summarize_calls` without `close` copies the totals and changes nothing. */
  function Next(s: System, move: Move): System
    requires CanMove(s, move)
  {
    match move
    case Act(step) => s.(world := Apply(s.world, step))
    case Summarize(k) => s.(lines := s.lines + [SummaryOf(s.world, k)])
  }

  ghost predicate Moves(s: System, moves: seq<Move>, t: System)
    decreases |moves|
  {
    if moves == [] then t == s
    else CanMove(s, moves[0]) && Moves(Next(s, moves[0]), moves[1..], t)
  }

  /** The line was exact when it was written, for the admissions and answers up to then. */
  ghost predicate LineMatches(w: World, line: Line) {
    && line.owner < |w.cells| && line.answers <= |w.answers| && line.admitted <= |w.cells[line.owner].log|
    && (line.open ==>
          && Recorded(line.totals) == Count(w.answers[..line.answers], SaidTrue(line.owner))
          && Match(line.totals, w.cells[line.owner].log[..line.admitted]))
  }

  ghost predicate LinesMatch(s: System) {
    forall i :: 0 <= i < |s.lines| ==> LineMatches(s.world, s.lines[i])
  }

  /** Answers and admissions are only ever added. */
  lemma StepGrows(w: World, step: Step, k: nat)
    requires Enabled(w, step) && k < |w.cells|
    ensures w.answers <= Apply(w, step).answers
    ensures k < |Apply(w, step).cells| && w.cells[k].log <= Apply(w, step).cells[k].log
  {
  }

  lemma ActMatches(w: World, step: Step, line: Line)
    requires Enabled(w, step) && LineMatches(w, line)
    ensures LineMatches(Apply(w, step), line)
  {
    StepGrows(w, step, line.owner);
    var t := Apply(w, step);
    assert t.answers[..line.answers] == w.answers[..line.answers];
    assert t.cells[line.owner].log[..line.admitted] == w.cells[line.owner].log[..line.admitted];
  }

  lemma SummaryMatches(w: World, k: nat)
    requires Inv(w) && k < |w.cells|
    ensures LineMatches(w, SummaryOf(w, k))
  {
    assert OwnerInv(w, k);
    assert w.answers[..|w.answers|] == w.answers && w.cells[k].log[..|w.cells[k].log|] == w.cells[k].log;
    if !w.cells[k].closed {
      RecordedIsAdmitted(w.cells[k].totals, w.cells[k].log);
    }
  }

  lemma MoveMatches(s: System, move: Move)
    requires Inv(s.world) && LinesMatch(s) && CanMove(s, move)
    ensures Inv(Next(s, move).world) && LinesMatch(Next(s, move))
  {
    match move
    case Act(step) =>
      StepKeeps(s.world, step);
      forall i | 0 <= i < |s.lines|
        ensures LineMatches(Apply(s.world, step), s.lines[i])
      {
        ActMatches(s.world, step, s.lines[i]);
      }
    case Summarize(k) => SummaryMatches(s.world, k);
  }

  lemma {:induction false} MovesMatch(s: System, moves: seq<Move>, t: System)
    requires Inv(s.world) && LinesMatch(s) && Moves(s, moves, t)
    ensures Inv(t.world) && LinesMatch(t)
    decreases |moves|
  {
    if moves != [] {
      MoveMatches(s, moves[0]);
      MovesMatch(Next(s, moves[0]), moves[1..], t);
    }
  }

  /** The calls that were told True about the line's state after the line was written. */
  ghost function ToldLater(w: World, line: Line): nat
    requires line.answers <= |w.answers|
  {
    Count(w.answers[line.answers..], SaidTrue(line.owner))
  }

  /**
   For every interleaving, the line of an open state is exact for the calls admitted before it, and once the state is
   closed it misses of the closing totals exactly the calls told True in between: it reports all of them if and only
   if there were none.
   */
  lemma LineMisses(moves: seq<Move>, s: System, i: nat)
    requires Moves(QUIET, moves, s) && i < |s.lines| && s.lines[i].open
    ensures LineMatches(s.world, s.lines[i])
    ensures var line := s.lines[i];
            var cell := s.world.cells[line.owner];
            cell.closed ==>
              && cell.snapshot.Some?
              && Recorded(cell.snapshot.value) == Recorded(line.totals) + ToldLater(s.world, line)
              && (Recorded(line.totals) == Recorded(cell.snapshot.value) <==> ToldLater(s.world, line) == 0)
  {
    MovesMatch(QUIET, moves, s);
    var line := s.lines[i];
    var cell := s.world.cells[line.owner];
    assert OwnerInv(s.world, line.owner);
    if cell.closed {
      RecordedIsAdmitted(cell.snapshot.value, cell.log);
      CountSplit(s.world.answers, line.answers, SaidTrue(line.owner));
    }
  }

  lemma MovesCons(s: System, move: Move, rest: seq<Move>, t: System)
    requires CanMove(s, move) && Moves(Next(s, move), rest, t)
    ensures Moves(s, [move] + rest, t)
  {
    assert ([move] + rest)[1..] == rest;
  }

  /** A run that shows it: the line is written, a call is recorded and told True, and the state is closed. */
  lemma LineCanMissACall(call: Call) returns (moves: seq<Move>, s: System)
    requires !call.started && !call.source.Sqlalchemy?
    ensures Moves(QUIET, moves, s) && |s.lines| == 1 && s.lines[0].open && s.lines[0].owner == 0
    ensures |s.world.cells| == 1 && s.world.cells[0].closed && s.world.answers == [Answer(0, true)]
    ensures Recorded(s.lines[0].totals) == 0 && s.lines[0].answers == 0 && ToldLater(s.world, s.lines[0]) == 1
  {
    var begun := Next(QUIET, Act(Open));
    var lined := Next(begun, Summarize(0));
    var recorded := Next(lined, Act(Direct(0, call, true, false)));
    s := Next(recorded, Act(Close(0)));
    MovesCons(recorded, Act(Close(0)), [], s);
    MovesCons(lined, Act(Direct(0, call, true, false)), [Act(Close(0))] + [], s);
    MovesCons(begun, Summarize(0), [Act(Direct(0, call, true, false))] + ([Act(Close(0))] + []), s);
    moves := [Summarize(0)] + ([Act(Direct(0, call, true, false))] + ([Act(Close(0))] + []));
    MovesCons(QUIET, Act(Open), moves, s);
    moves := [Act(Open)] + moves;
    assert s.world.answers[0..] == [Answer(0, true)] && [Answer(0, true)][..0] == [];
  }
}
