/** Request-owned transactions: a borrowed connection whose helpers can neither commit nor roll back
    the request, nested items on savepoints, and callbacks that wait for the commit. */
module GroupTransaction {
  import opened Prelude

  type Db = map<Id, Id>

  /** What a request does inside its transaction.  `Item` is a call of a savepoint-protected function,
      `Guarded` a caller that catches an ordinary exception of its body and goes on. */
  datatype Prog =
    | Finish
    | Put(key: Id, value: Id, rest: Prog)
    | AfterCommit(callback: Id, rest: Prog)
    | HelperCommit(rest: Prog)
    | HelperRollback(rest: Prog)
    | Item(body: Prog, rest: Prog)
    | Guarded(body: Prog, rest: Prog)
    | NestedTransaction(rest: Prog)
    | Raise(fatal: bool)

  /** `Raised` is an exception that handlers catch; `Fatal` one they do not. */
  datatype Outcome = Normal | Raised | Fatal

  datatype View = View(db: Db, callbacks: seq<Id>, failed: bool)

  // ----- what nesting means ---------------------------------------------------------

  /** A helper's rollback undoes the innermost item, or poisons the transaction. */
  function AfterRollback(s: View, base: Option<Db>): View {
    if base.Some? then s.(db := base.value) else s.(failed := true)
  }

  /** The meaning of a program, without savepoints: an item that raises puts back the database and
      callbacks it started from.  `base` is the database at the start of the innermost item. */
  function Meaning(p: Prog, s: View, base: Option<Db>): (r: (View, Outcome))
    ensures s.callbacks <= r.0.callbacks
    ensures s.failed ==> r.0.failed
    ensures base.Some? ==> r.0.failed == s.failed
  {
    match p
    case Finish => (s, Normal)
    case Put(k, v, rest) => Meaning(rest, s.(db := s.db[k := v]), base)
    case AfterCommit(cb, rest) => Meaning(rest, s.(callbacks := s.callbacks + [cb]), base)
    case HelperCommit(rest) => Meaning(rest, s, base)
    case HelperRollback(rest) => Meaning(rest, AfterRollback(s, base), base)
    case Item(body, rest) =>
      var r := Meaning(body, s, Some(s.db));
      if r.1 == Normal then Meaning(rest, r.0, base)
      else if r.1 == Raised then (s, Raised)
      else r
    case Guarded(body, rest) =>
      var r := Meaning(body, s, base);
      if r.1 == Fatal then r else Meaning(rest, r.0, base)
    case NestedTransaction(_) => (s, Raised)
    case Raise(fatal) => (s, if fatal then Fatal else Raised)
  }

  /** An item that raises, caught by its caller, might as well not have been called. */
  lemma FailedItemLeavesNoTrace(body: Prog, rest: Prog, s: View, base: Option<Db>)
    requires Meaning(body, s, Some(s.db)).1 == Raised
    ensures Meaning(Guarded(Item(body, Finish), rest), s, base) == Meaning(rest, s, base)
  {
  }

  /** The program with every item that fails on its way replaced by the bare exception. */
  function Pruned(p: Prog, s: View, base: Option<Db>): Prog {
    match p
    case Finish => p
    case Put(k, v, rest) => Put(k, v, Pruned(rest, s.(db := s.db[k := v]), base))
    case AfterCommit(cb, rest) => AfterCommit(cb, Pruned(rest, s.(callbacks := s.callbacks + [cb]), base))
    case HelperCommit(rest) => HelperCommit(Pruned(rest, s, base))
    case HelperRollback(rest) => HelperRollback(Pruned(rest, AfterRollback(s, base), base))
    case Item(body, rest) =>
      var r := Meaning(body, s, Some(s.db));
      if r.1 == Raised then Raise(false) else Item(Pruned(body, s, Some(s.db)), Pruned(rest, r.0, base))
    case Guarded(body, rest) => Guarded(Pruned(body, s, base), Pruned(rest, Meaning(body, s, base).0, base))
    case NestedTransaction(_) => p
    case Raise(_) => p
  }

  /** No item the execution reaches raises, at any nesting. */
  predicate NoFailedItem(p: Prog, s: View, base: Option<Db>) {
    match p
    case Finish => true
    case Put(k, v, rest) => NoFailedItem(rest, s.(db := s.db[k := v]), base)
    case AfterCommit(cb, rest) => NoFailedItem(rest, s.(callbacks := s.callbacks + [cb]), base)
    case HelperCommit(rest) => NoFailedItem(rest, s, base)
    case HelperRollback(rest) => NoFailedItem(rest, AfterRollback(s, base), base)
    case Item(body, rest) =>
      var r := Meaning(body, s, Some(s.db));
      r.1 != Raised && NoFailedItem(body, s, Some(s.db)) && (r.1 == Normal ==> NoFailedItem(rest, r.0, base))
    case Guarded(body, rest) =>
      var r := Meaning(body, s, base);
      NoFailedItem(body, s, base) && (r.1 != Fatal ==> NoFailedItem(rest, r.0, base))
    case NestedTransaction(_) => true
    case Raise(_) => true
  }

  /** Cutting all failed items, at any nesting, leaves none and does not change what the program does. */
  lemma {:induction false} PruningPreservesMeaning(p: Prog, s: View, base: Option<Db>)
    ensures Meaning(Pruned(p, s, base), s, base) == Meaning(p, s, base)
    ensures NoFailedItem(Pruned(p, s, base), s, base)
    decreases p
  {
    match p
    case Finish =>
    case Put(k, v, rest) => PruningPreservesMeaning(rest, s.(db := s.db[k := v]), base);
    case AfterCommit(cb, rest) => PruningPreservesMeaning(rest, s.(callbacks := s.callbacks + [cb]), base);
    case HelperCommit(rest) => PruningPreservesMeaning(rest, s, base);
    case HelperRollback(rest) => PruningPreservesMeaning(rest, AfterRollback(s, base), base);
    case Item(body, rest) =>
      PruningPreservesMeaning(body, s, Some(s.db));
      PruningPreservesMeaning(rest, Meaning(body, s, Some(s.db)).0, base);
    case Guarded(body, rest) =>
      PruningPreservesMeaning(body, s, base);
      PruningPreservesMeaning(rest, Meaning(body, s, base).0, base);
    case NestedTransaction(_) =>
    case Raise(_) =>
  }

  /** A program none of whose items fails is left as it is: nothing else is ever cut. */
  lemma {:induction false} PruningCutsOnlyFailures(p: Prog, s: View, base: Option<Db>)
    requires NoFailedItem(p, s, base) && Meaning(p, s, base).1 != Fatal
    ensures Pruned(p, s, base) == p
    decreases p
  {
    match p
    case Finish =>
    case Put(k, v, rest) => PruningCutsOnlyFailures(rest, s.(db := s.db[k := v]), base);
    case AfterCommit(cb, rest) => PruningCutsOnlyFailures(rest, s.(callbacks := s.callbacks + [cb]), base);
    case HelperCommit(rest) => PruningCutsOnlyFailures(rest, s, base);
    case HelperRollback(rest) => PruningCutsOnlyFailures(rest, AfterRollback(s, base), base);
    case Item(body, rest) =>
      PruningCutsOnlyFailures(body, s, Some(s.db));
      PruningCutsOnlyFailures(rest, Meaning(body, s, Some(s.db)).0, base);
    case Guarded(body, rest) =>
      PruningCutsOnlyFailures(body, s, base);
      PruningCutsOnlyFailures(rest, Meaning(body, s, base).0, base);
    case NestedTransaction(_) =>
    case Raise(_) =>
  }

  // ----- poison ---------------------------------------------------------------------

  /** The execution reaches a helper's rollback outside every item, however deep in caught bodies. */
  predicate Poisons(p: Prog, s: View) {
    match p
    case Finish => false
    case Put(k, v, rest) => Poisons(rest, s.(db := s.db[k := v]))
    case AfterCommit(cb, rest) => Poisons(rest, s.(callbacks := s.callbacks + [cb]))
    case HelperCommit(rest) => Poisons(rest, s)
    case HelperRollback(rest) => true
    case Item(body, rest) =>
      var r := Meaning(body, s, Some(s.db));
      r.1 == Normal && Poisons(rest, r.0)
    case Guarded(body, rest) =>
      var r := Meaning(body, s, None);
      Poisons(body, s) || (r.1 != Fatal && Poisons(rest, r.0))
    case NestedTransaction(_) => false
    case Raise(_) => false
  }

  /** Outside items the transaction is poisoned exactly by such a rollback. */
  lemma {:induction false} PoisonedExactlyBy(p: Prog, s: View)
    ensures Meaning(p, s, None).0.failed <==> s.failed || Poisons(p, s)
    decreases p
  {
    match p
    case Finish =>
    case Put(k, v, rest) => PoisonedExactlyBy(rest, s.(db := s.db[k := v]));
    case AfterCommit(cb, rest) => PoisonedExactlyBy(rest, s.(callbacks := s.callbacks + [cb]));
    case HelperCommit(rest) => PoisonedExactlyBy(rest, s);
    case HelperRollback(rest) =>
    case Item(body, rest) => PoisonedExactlyBy(rest, Meaning(body, s, Some(s.db)).0);
    case Guarded(body, rest) =>
      PoisonedExactlyBy(body, s);
      PoisonedExactlyBy(rest, Meaning(body, s, None).0);
    case NestedTransaction(_) =>
    case Raise(_) =>
  }

  // ----- the shell around it --------------------------------------------------------

  datatype CallResult = Returns | RaisesError | RaisesFatal

  datatype Result =
    | Committed
    | CommittedWithError(callback: Id)
    | CommittedThenFatal(callback: Id)
    | RolledBack(fatal: bool)

  /** Does the transaction commit? */
  predicate Commits(write: bool, lockRow: bool, p: Prog, start: Db) {
    && (write ==> lockRow)
    && var r := Meaning(p, View(start, [], false), None);
    r.1 == Normal && !r.0.failed
  }

  /** The callbacks that get to run: all of them, unless one fails fatally. */
  function Executed(cbs: seq<Id>, outcome: Id -> CallResult): seq<Id> {
    if cbs == [] then []
    else if outcome(cbs[0]) == RaisesFatal then [cbs[0]]
    else [cbs[0]] + Executed(cbs[1..], outcome)
  }

  /** Callbacks run in order from the first; a suffix is left out exactly when one before it is
      fatal. */
  lemma {:induction false} ExecutedIsPrefix(cbs: seq<Id>, outcome: Id -> CallResult)
    ensures Executed(cbs, outcome) <= cbs
    ensures Executed(cbs, outcome) != cbs <==> exists i :: 0 <= i < |cbs| - 1 && outcome(cbs[i]) == RaisesFatal
    decreases |cbs|
  {
    if cbs != [] {
      var rest := cbs[1..];
      assert cbs == [cbs[0]] + rest;
      assert forall i | 0 <= i < |rest| :: rest[i] == cbs[i + 1];
      if outcome(cbs[0]) != RaisesFatal {
        ExecutedIsPrefix(rest, outcome);
        if i :| 0 <= i < |rest| - 1 && outcome(rest[i]) == RaisesFatal { assert outcome(cbs[i + 1]) == RaisesFatal; }
        if i :| 0 <= i < |cbs| - 1 && outcome(cbs[i]) == RaisesFatal { assert outcome(rest[i - 1]) == RaisesFatal; }
      }
    }
  }

  /** What the request sees of its callbacks: the fatal one, else the first error. */
  function Reported(cbs: seq<Id>, outcome: Id -> CallResult): (r: Result)
    ensures !r.RolledBack?
  {
    if cbs == [] then Committed
    else if outcome(cbs[0]) == RaisesFatal then CommittedThenFatal(cbs[0])
    else
      var rest := Reported(cbs[1..], outcome);
      if outcome(cbs[0]) == RaisesError && !rest.CommittedThenFatal? then CommittedWithError(cbs[0]) else rest
  }

  /** The first callback with this result, none of a worse kind before it. */
  ghost predicate IsFirst(cbs: seq<Id>, outcome: Id -> CallResult, cb: Id, result: CallResult) {
    exists i :: 0 <= i < |cbs| && cbs[i] == cb && outcome(cb) == result
                && forall k | 0 <= k < i :: outcome(cbs[k]) != result && outcome(cbs[k]) != RaisesFatal
  }

  lemma FirstInTail(cbs: seq<Id>, outcome: Id -> CallResult, cb: Id, result: CallResult)
    requires cbs != [] && IsFirst(cbs[1..], outcome, cb, result)
    requires outcome(cbs[0]) != result && outcome(cbs[0]) != RaisesFatal
    ensures IsFirst(cbs, outcome, cb, result)
  {
    var rest := cbs[1..];
    var i :| 0 <= i < |rest| && rest[i] == cb && outcome(cb) == result
             && forall k | 0 <= k < i :: outcome(rest[k]) != result && outcome(rest[k]) != RaisesFatal;
    forall k | 0 <= k < i + 1 ensures outcome(cbs[k]) != result && outcome(cbs[k]) != RaisesFatal {
      assert k > 0 ==> cbs[k] == rest[k - 1];
    }
    assert cbs[i + 1] == cb;
  }

  /** The request succeeds exactly when every callback does; otherwise the fatal callback is reported,
      or the first that failed when none was fatal. */
  lemma {:induction false} ReportedMeans(cbs: seq<Id>, outcome: Id -> CallResult)
    ensures var r := Reported(cbs, outcome);
            && (r == Committed <==> forall cb | cb in cbs :: outcome(cb) == Returns)
            && (r.CommittedThenFatal? <==> exists cb :: cb in cbs && outcome(cb) == RaisesFatal)
            && (r.CommittedThenFatal? ==> IsFirst(cbs, outcome, r.callback, RaisesFatal))
            && (r.CommittedWithError? ==> IsFirst(cbs, outcome, r.callback, RaisesError))
    decreases |cbs|
  {
    if cbs != [] {
      assert cbs == [cbs[0]] + cbs[1..];
      ReportedMeans(cbs[1..], outcome);
      var r := Reported(cbs[1..], outcome);
      if outcome(cbs[0]) != RaisesFatal && r.CommittedThenFatal? {
        FirstInTail(cbs, outcome, r.callback, RaisesFatal);
      }
      if outcome(cbs[0]) == Returns && r.CommittedWithError? {
        FirstInTail(cbs, outcome, r.callback, RaisesError);
      }
    }
  }

  /** The report once some callbacks have run and the first error so far is known. */
  function ReportedAfter(errors: seq<Id>, left: seq<Id>, outcome: Id -> CallResult): Result {
    var r := Reported(left, outcome);
    if errors == [] || r.CommittedThenFatal? then r else CommittedWithError(errors[0])
  }

  /** A helper's rollback reached outside every item discards the whole request, whatever precedes or
      follows it and whoever catches what; nothing else but an exception or a missing lock row does. */
  lemma RollbackOutsideItemsDiscardsAll(p: Prog, write: bool, lockRow: bool, start: Db)
    ensures Poisons(p, View(start, [], false)) ==> !Commits(write, lockRow, p, start)
    ensures Commits(write, lockRow, p, start) <==>
              && (write ==> lockRow) && Meaning(p, View(start, [], false), None).1 == Normal
              && !Poisons(p, View(start, [], false))
  {
    PoisonedExactlyBy(p, View(start, [], false));
  }

  datatype Name = GroupItem(depth: nat)
  datatype Mark = Mark(name: Name, snapshot: Db)

  function IndexOf(marks: seq<Mark>, name: Name): Option<nat> {
    if marks == [] then None
    else if marks[|marks| - 1].name == name then Some(|marks| - 1)
    else IndexOf(marks[..|marks| - 1], name)
  }

  class BorrowedConnection {
    // the connection: what is committed, the transaction's own view, and its savepoints
    var committed: Db
    var db: Db
    var marks: seq<Mark>
    // the request's bookkeeping
    var callbacks: seq<Id>
    var failed: bool
    var savepoints: seq<Name>

    /** Live savepoints carry the distinct names of their depths, on both sides. */
    ghost predicate Valid()
      reads this
    {
      && |marks| == |savepoints|
      && forall i | 0 <= i < |marks| :: marks[i].name == GroupItem(i) && savepoints[i] == GroupItem(i)
    }

    ghost function State(): View
      reads this
    {
      View(db, callbacks, failed)
    }

    ghost function Base(): Option<Db>
      reads this
    {
      if marks == [] then None else Some(marks[|marks| - 1].snapshot)
    }

    constructor (start: Db)
      ensures Valid() && committed == start && db == start && marks == [] && callbacks == [] && !failed
    {
      committed, db, marks, callbacks, failed, savepoints := start, start, [], [], false, [];
    }

    // ----- statements of the database

    /** Replaces an older savepoint of the same name, as the database does. */
    method Savepoint(name: Name)
      modifies this`marks
      ensures IndexOf(old(marks), name).None? ==> marks == old(marks) + [Mark(name, db)]
    {
      var i := IndexOf(marks, name);
      if i.Some? && i.value < |marks| { marks := marks[..i.value] + marks[i.value + 1..]; }
      marks := marks + [Mark(name, db)];
    }

    method RollbackTo(name: Name)
      requires marks != [] && marks[|marks| - 1].name == name
      modifies this`db, this`marks
      ensures marks == old(marks) && db == marks[|marks| - 1].snapshot
    {
      var i := IndexOf(marks, name);
      db := marks[i.value].snapshot;
      marks := marks[..i.value + 1];
    }

    method ReleaseSavepoint(name: Name)
      requires marks != [] && marks[|marks| - 1].name == name
      modifies this`marks
      ensures marks == old(marks)[..|old(marks)| - 1]
    {
      var i := IndexOf(marks, name);
      marks := marks[..i.value];
    }

    // ----- the borrowed connection

    /** A helper's rollback undoes the innermost item, or poisons the transaction. */
    method Rollback()
      requires Valid()
      modifies this`db, this`marks, this`failed
      ensures Valid() && marks == old(marks)
      ensures savepoints != [] ==> Some(db) == Base() && failed == old(failed)
      ensures savepoints == [] ==> db == old(db) && failed
    {
      if savepoints != [] {
        RollbackTo(savepoints[|savepoints| - 1]);
      } else {
        failed := true;
      }
    }

    /** Runs a program inside the transaction; it does exactly what nesting means, and leaves the
        savepoints as it found them. */
    method Execute(p: Prog) returns (o: Outcome)
      requires Valid()
      modifies this
      ensures Valid() && marks == old(marks) && savepoints == old(savepoints) && committed == old(committed)
      ensures (State(), o) == Meaning(p, old(State()), old(Base()))
      decreases p, 0
    {
      match p
      case Finish => o := Normal;
      case Put(k, v, rest) =>
        db := db[k := v];
        o := Execute(rest);
      case AfterCommit(cb, rest) =>
        callbacks := callbacks + [cb];
        o := Execute(rest);
      case HelperCommit(rest) => o := Execute(rest);
      case HelperRollback(rest) =>
        Rollback();
        o := Execute(rest);
      case Item(body, rest) =>
        o := ExecuteItem(body);
        if o == Normal { o := Execute(rest); }
      case Guarded(body, rest) =>
        o := Execute(body);
        if o != Fatal { o := Execute(rest); }
      case NestedTransaction(_) => o := Raised;
      case Raise(fatal) => o := if fatal then Fatal else Raised;
    }

    /** One protected call: its savepoint has a name no live savepoint has. */
    method ExecuteItem(body: Prog) returns (o: Outcome)
      requires Valid()
      modifies this
      ensures Valid() && marks == old(marks) && savepoints == old(savepoints) && committed == old(committed)
      ensures o == Meaning(body, old(State()), Some(old(db))).1
      ensures State() == if o == Raised then old(State()) else Meaning(body, old(State()), Some(old(db))).0
      decreases body, 1
    {
      var name := GroupItem(|savepoints|);
      var count := |callbacks|;
      FreshName(marks, |savepoints|);
      Savepoint(name);
      savepoints := savepoints + [name];
      o := Execute(body);
      if o == Raised {
        RollbackTo(name);
        callbacks := callbacks[..count];
      }
      savepoints := savepoints[..|savepoints| - 1];
      ReleaseSavepoint(name);
    }

    /** The request's transaction: everything or nothing, then the callbacks. */
    method RunTransaction(write: bool, lockRow: bool, p: Prog, outcome: Id -> CallResult)
      returns (r: Result, ran: seq<Id>)
      requires Valid() && marks == [] && callbacks == [] && !failed
      modifies this
      ensures Commits(write, lockRow, p, old(committed)) <==> !r.RolledBack?
      ensures r.RolledBack? ==> committed == old(committed) && ran == []
      ensures !r.RolledBack? ==>
                && var end := Meaning(p, View(old(committed), [], false), None).0;
                && committed == end.db && ran == Executed(end.callbacks, outcome)
                    && r == Reported(end.callbacks, outcome)
      ensures db == committed
    {
      ran := [];
      db := committed;
      if write && !lockRow { return RolledBack(false), ran; }
      var o := Execute(p);
      if o == Normal && failed { o := Raised; }
      if o != Normal {
        db := committed;
        return RolledBack(o == Fatal), ran;
      }
      committed := db;
      r, ran := RunCallbacks(outcome);
    }

    /** After the commit: in order, once each, past ordinary errors; the first error is reported. */
    method RunCallbacks(outcome: Id -> CallResult) returns (r: Result, ran: seq<Id>)
      ensures ran == Executed(callbacks, outcome) && r == Reported(callbacks, outcome)
    {
      ran := [];
      var errors := [];
      for i := 0 to |callbacks|
        invariant ran + Executed(callbacks[i..], outcome) == Executed(callbacks, outcome)
        invariant ReportedAfter(errors, callbacks[i..], outcome) == Reported(callbacks, outcome)
      {
        var cb := callbacks[i];
        assert callbacks[i..][1..] == callbacks[i + 1..] && callbacks[i..][0] == cb;
        if outcome(cb) == RaisesFatal { return CommittedThenFatal(cb), ran + [cb]; }
        ExecutedStep(ran, callbacks[i..], outcome);
        ReportedStep(errors, callbacks[i..], outcome);
        ran := ran + [cb];
        if outcome(cb) == RaisesError { errors := errors + [cb]; }
      }
      r := if errors == [] then Committed else CommittedWithError(errors[0]);
    }
  }

  lemma ExecutedStep(ran: seq<Id>, left: seq<Id>, outcome: Id -> CallResult)
    requires left != [] && outcome(left[0]) != RaisesFatal
    ensures ran + Executed(left, outcome) == ran + [left[0]] + Executed(left[1..], outcome)
  {
    ConcatAssociates(ran, [left[0]], Executed(left[1..], outcome));
  }

  lemma ConcatAssociates(a: seq<Id>, b: seq<Id>, c: seq<Id>)
    ensures a + (b + c) == a + b + c
  {
  }

  lemma ReportedStep(errors: seq<Id>, left: seq<Id>, outcome: Id -> CallResult)
    requires left != [] && outcome(left[0]) != RaisesFatal
    ensures ReportedAfter(errors, left, outcome) ==
              ReportedAfter(if outcome(left[0]) == RaisesError then errors + [left[0]] else errors, left[1..], outcome)
  {
  }

  lemma {:induction false} FreshName(marks: seq<Mark>, depth: nat)
    requires forall i | 0 <= i < |marks| :: marks[i].name != GroupItem(depth)
    ensures IndexOf(marks, GroupItem(depth)).None?
    decreases |marks|
  {
    if marks != [] { FreshName(marks[..|marks| - 1], depth); }
  }
}
