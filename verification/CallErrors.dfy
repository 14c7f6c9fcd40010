/** The error categories of a request: what each counts, and when a call is counted under `other`. */
module CallErrors {
  import opened Counting
  import opened Options
  import opened RequestCalls
  import opened CallProtocol
  import opened CallOwnership

  /** Where an error is counted: with the calls of a kind, or with the failed SQLAlchemy executions. */
  datatype Book = Calls(kind: Kind) | Executed

  function ErrorsIn(t: Totals, book: Book): map<string, nat> {
    match book
    case Calls(kind) => ErrorsOf(t, kind)
    case Executed => Executions(t.sql).errors
  }

  /** The admitted call has an error that is counted here. */
  predicate Belongs(book: Book, a: Admission) {
    && a.call.error.Some?
    && match book
       case Calls(kind) => !a.failedSql && a.call.kind == kind
       case Executed => a.failedSql
  }

  function ErrorIs(book: Book, category: string): Admission -> bool {
    (a: Admission) => Belongs(book, a) && a.call.error.value == category
  }

  /** The error has no counter of its own among these, or is literally `other`. */
  function Folded(book: Book, tracked: set<string>): Admission -> bool {
    (a: Admission) => Belongs(book, a) && (a.call.error.value == OTHER || a.call.error.value !in tracked)
  }

  /**
   A category that has a counter has its exact count, `other` apart; one that occurred and has none was folded because
   the budget of 32 was spent.
   */
  ghost predicate NamedExact(errors: map<string, nat>, log: seq<Admission>, book: Book, category: string) {
    var n := Count(log, ErrorIs(book, category));
    if category in errors then category == OTHER || errors[category] == n > 0
    else n > 0 ==> |errors| >= MAX_ERROR_CATEGORIES
  }

  /** `other` counts the calls without a counter and those of its name; without such a name it is past the budget. */
  ghost predicate OtherExact(errors: map<string, nat>, log: seq<Admission>, book: Book) {
    && Get(errors, OTHER, 0) == Count(log, Folded(book, errors.Keys))
    && (OTHER in errors && Count(log, ErrorIs(book, OTHER)) == 0 ==> |errors| > MAX_ERROR_CATEGORIES)
  }

  ghost predicate Exact(errors: map<string, nat>, log: seq<Admission>, book: Book) {
    (forall c :: NamedExact(errors, log, book, c)) && OtherExact(errors, log, book)
  }

  lemma ErrorsAfter(t: Totals, call: Call, book: Book)
    ensures var a := Admission(call, FailedSql(t, call));
            ErrorsIn(Record(t, call), book) ==
            if Belongs(book, a) then AddError(ErrorsIn(t, book), call.error.value) else ErrorsIn(t, book)
  {
    match book
    case Calls(kind) => RecordErrors(t, call, kind);
    case Executed => RecordRest(t, call);
  }

  /** A category that never occurred is folded with nothing. */
  lemma {:induction false} FoldedSame(log: seq<Admission>, book: Book, tracked: set<string>, category: string)
    requires Count(log, ErrorIs(book, category)) == 0 || category == OTHER
    ensures Count(log, Folded(book, tracked + {category})) == Count(log, Folded(book, tracked))
  {
    if log != [] {
      FoldedSame(log[..|log| - 1], book, tracked, category);
    }
  }

  lemma OtherAppend(log: seq<Admission>, a: Admission, book: Book, category: string)
    ensures Count(log + [a], ErrorIs(book, category)) ==
            Count(log, ErrorIs(book, category)) + Bit(ErrorIs(book, category)(a))
  {
    CountAppend(log, a, ErrorIs(book, category));
  }

  /** The counter an error goes to. */
  function CounterOf(errors: map<string, nat>, error: string): string {
    if error !in errors && |errors| >= MAX_ERROR_CATEGORIES then OTHER else error
  }

  lemma AddErrorShape(errors: map<string, nat>, error: string)
    ensures var key, after := CounterOf(errors, error), AddError(errors, error);
            && after == errors[key := Get(errors, key, 0) + 1]
            && after.Keys == errors.Keys + {key}
            && |after| == |errors| + Bit(key !in errors)
  {
    var key, after := CounterOf(errors, error), AddError(errors, error);
    assert after.Keys == errors.Keys + {key};
    assert |after| == |after.Keys| && |errors| == |errors.Keys|;
  }

  lemma NamedAfter(errors: map<string, nat>, log: seq<Admission>, a: Admission, book: Book, category: string)
    requires NamedExact(errors, log, book, category) && Belongs(book, a)
    ensures NamedExact(AddError(errors, a.call.error.value), log + [a], book, category)
  {
    AddErrorShape(errors, a.call.error.value);
    OtherAppend(log, a, book, category);
  }

  lemma OtherAfter(errors: map<string, nat>, log: seq<Admission>, a: Admission, book: Book)
    requires OtherExact(errors, log, book) && Belongs(book, a)
    requires NamedExact(errors, log, book, a.call.error.value)
    ensures OtherExact(AddError(errors, a.call.error.value), log + [a], book)
  {
    var key, after := CounterOf(errors, a.call.error.value), AddError(errors, a.call.error.value);
    AddErrorShape(errors, a.call.error.value);
    CountAppend(log, a, Folded(book, after.Keys));
    OtherAppend(log, a, book, OTHER);
    if key in errors {
      assert after.Keys == errors.Keys;
    } else {
      FoldedSame(log, book, errors.Keys, key);
    }
  }

  lemma ElsewhereExact(errors: map<string, nat>, log: seq<Admission>, a: Admission, book: Book)
    requires Exact(errors, log, book) && !Belongs(book, a)
    ensures Exact(errors, log + [a], book)
  {
    forall c
      ensures NamedExact(errors, log + [a], book, c)
    {
      assert NamedExact(errors, log, book, c);
      OtherAppend(log, a, book, c);
    }
    OtherAppend(log, a, book, OTHER);
    CountAppend(log, a, Folded(book, errors.Keys));
  }

  /** Every admitted call keeps the categories exact. */
  lemma RecordExact(t: Totals, log: seq<Admission>, call: Call, book: Book)
    requires Exact(ErrorsIn(t, book), log, book)
    ensures Exact(ErrorsIn(Record(t, call), book), log + [Admission(call, FailedSql(t, call))], book)
  {
    var a := Admission(call, FailedSql(t, call));
    var errors := ErrorsIn(t, book);
    ErrorsAfter(t, call, book);
    if !Belongs(book, a) {
      ElsewhereExact(errors, log, a, book);
    } else {
      assert NamedExact(errors, log, book, call.error.value);
      OtherAfter(errors, log, a, book);
      forall c
        ensures NamedExact(AddError(errors, call.error.value), log + [a], book, c)
      {
        assert NamedExact(errors, log, book, c);
        NamedAfter(errors, log, a, book, c);
      }
    }
  }

  // ---------------------------------------------------------------- over runs

  /** The totals of an open state, and what the closing summary copied of a closed one. */
  function TotalsOf(cell: Cell): Totals {
    if cell.closed && cell.snapshot.Some? then cell.snapshot.value else cell.totals
  }

  ghost predicate CellExact(cell: Cell, book: Book) {
    (cell.closed ==> cell.snapshot.Some?) && Exact(ErrorsIn(TotalsOf(cell), book), cell.log, book)
  }

  ghost predicate AllExact(w: World, book: Book) {
    forall k :: 0 <= k < |w.cells| ==> CellExact(w.cells[k], book)
  }

  lemma BeginSame(t: Totals, kind: Kind, source: Source, book: Book)
    ensures ErrorsIn(Begin(t, kind, source), book) == ErrorsIn(t, book)
  {
  }

  lemma StepExact(w: World, step: Step, book: Book, k: nat)
    requires AllExact(w, book) && Enabled(w, step) && k < |Apply(w, step).cells|
    ensures CellExact(Apply(w, step).cells[k], book)
  {
    if k < |w.cells| {
      assert CellExact(w.cells[k], book);
      if k != Target(w, step) {
        StepTouchesOne(w, step, k);
      } else {
        match step
        case StartCall(_, kind, source) => BeginSame(w.cells[k].totals, kind, source, book);
        case Direct(_, call, _, _) =>
          if !w.cells[k].closed {
            RecordExact(w.cells[k].totals, w.cells[k].log, call, book);
          }
        case Complete(i, seconds, fingerprint, error, _, _) =>
          var h := w.handles[w.finishes[i].handle];
          if !w.cells[k].closed {
            var call := Call(h.kind, seconds, fingerprint, error, h.source, true);
            RecordExact(w.cells[k].totals, w.cells[k].log, call, book);
          }
        case _ =>
      }
    }
  }

  lemma {:induction false} RunExact(w: World, steps: seq<Step>, t: World, book: Book)
    requires AllExact(w, book) && Leads(w, steps, t)
    ensures AllExact(t, book)
    decreases |steps|
  {
    if steps != [] {
      var m := Apply(w, steps[0]);
      forall k | 0 <= k < |m.cells|
        ensures CellExact(m.cells[k], book)
      {
        StepExact(w, steps[0], book, k);
      }
      RunExact(m, steps[1..], t, book);
    }
  }

  /**
   In every reachable world the error categories of a state, open or in its closing summary, are exact: a named counter
   is the number of admitted calls with that error, `other` is the rest, and nothing is folded before 32 are tracked.
   */
  lemma CategoriesExact(w: World, k: nat, book: Book)
    requires Reachable(w) && k < |w.cells|
    ensures Exact(ErrorsIn(TotalsOf(w.cells[k]), book), w.cells[k].log, book)
  {
    var steps :| Leads(START, steps, w);
    RunExact(START, steps, w, book);
    assert CellExact(w.cells[k], book);
  }

  // ---------------------------------------------------------------- few categories

  function Categories(log: seq<Admission>, book: Book): set<string> {
    set i | 0 <= i < |log| && Belongs(book, log[i]) :: log[i].call.error.value
  }

  lemma Occurs(log: seq<Admission>, book: Book, category: string)
    ensures category in Categories(log, book) <==> Count(log, ErrorIs(book, category)) > 0
  {
    CountZero(log, ErrorIs(book, category));
    if category in Categories(log, book) {
      var i :| 0 <= i < |log| && Belongs(book, log[i]) && log[i].call.error.value == category;
      assert ErrorIs(book, category)(log[i]);
    }
  }

  /** The counters that stand for categories that occurred. */
  function Named(errors: map<string, nat>, log: seq<Admission>, book: Book): set<string> {
    errors.Keys * Categories(log, book)
  }

  lemma NamedSize(errors: map<string, nat>, log: seq<Admission>, book: Book)
    requires Exact(errors, log, book)
    ensures |Named(errors, log, book)| >= (if |errors| > MAX_ERROR_CATEGORIES then |errors| - 1 else |errors|)
  {
    assert |errors.Keys| == |errors|;
    Occurs(log, book, OTHER);
    forall c | c in errors && c != OTHER
      ensures c in Categories(log, book)
    {
      assert NamedExact(errors, log, book, c);
      Occurs(log, book, c);
    }
    if OTHER in errors && OTHER !in Categories(log, book) {
      SubsetSize(errors.Keys - {OTHER}, Named(errors, log, book));
    } else {
      assert errors.Keys == Named(errors, log, book);
    }
  }

  /** Within the budget every category that occurred has its counter. */
  lemma FewTracked(errors: map<string, nat>, log: seq<Admission>, book: Book, category: string)
    requires Exact(errors, log, book) && |Categories(log, book)| <= MAX_ERROR_CATEGORIES
    requires category in Categories(log, book)
    ensures category in errors
  {
    assert NamedExact(errors, log, book, category);
    Occurs(log, book, category);
    NamedSize(errors, log, book);
    if category !in errors {
      SubsetSize(Named(errors, log, book) + {category}, Categories(log, book));
      assert false;
    }
  }

  /** While at most 32 categories occurred, every count is exact, that of `other` too. */
  lemma FewCategoriesExact(w: World, k: nat, book: Book, category: string)
    requires Reachable(w) && k < |w.cells| && |Categories(w.cells[k].log, book)| <= MAX_ERROR_CATEGORIES
    ensures Get(ErrorsIn(TotalsOf(w.cells[k]), book), category, 0) == Count(w.cells[k].log, ErrorIs(book, category))
  {
    var errors, log := ErrorsIn(TotalsOf(w.cells[k]), book), w.cells[k].log;
    CategoriesExact(w, k, book);
    assert NamedExact(errors, log, book, category);
    Occurs(log, book, category);
    if category in Categories(log, book) {
      FewTracked(errors, log, book, category);
    }
    if category == OTHER {
      forall c | c in Categories(log, book)
        ensures c in errors
      {
        FewTracked(errors, log, book, c);
      }
      NothingFolded(log, book, errors.Keys);
    }
  }

  lemma {:induction false} NothingFolded(log: seq<Admission>, book: Book, tracked: set<string>)
    requires Categories(log, book) <= tracked
    ensures Count(log, Folded(book, tracked)) == Count(log, ErrorIs(book, OTHER))
  {
    if log != [] {
      var n := |log| - 1;
      forall c | c in Categories(log[..n], book)
        ensures c in tracked
      {
        var i :| 0 <= i < n && Belongs(book, log[..n][i]) && log[..n][i].call.error.value == c;
        assert log[i].call.error.value in Categories(log, book);
      }
      NothingFolded(log[..n], book, tracked);
      assert Belongs(book, log[n]) ==> log[n].call.error.value in Categories(log, book);
    }
  }
}
