/** What scoped transactions and queries promise, for every program. */
module UnwindingResults {
  import opened Unwinding
  import opened UnwindingAgreement
  import opened Wrappers

  /** No object was constructed under more uncaught exceptions than there are now. */
  ghost predicate Possible(s: State) {
    forall k | 0 <= k < |s.objects| :: s.objects[k].Query? ==> s.objects[k].snapshot <= s.uncaught
  }

  function IdealOf(uncaught: nat, x: Object): IdealObject {
    match x
    case Plain => NoQuery
    case Query(snapshot, executed) => IdealQuery(snapshot < uncaught, executed)
  }

  function Abstract(s: State): IdealState {
    IdealState(s.pending, seq(|s.objects|, k requires 0 <= k < |s.objects| => IdealOf(s.uncaught, s.objects[k])), s.log)
  }

  lemma AbstractMatches(s: State)
    requires Possible(s)
    ensures Matches(s.uncaught, s, Abstract(s))
  {
  }

  /** A program raises the count by one if it ends in an exception and not at all otherwise. */
  lemma {:induction false} CountAfter(p: Stmt, s: State)
    requires Possible(s)
    ensures var (t, o) := Run(p, s); !o.Terminated? ==> t.uncaught == s.uncaught + if o.Thrown? then 1 else 0
  {
    AbstractMatches(s);
    RunIsIdeal(p, s, Abstract(s));
  }

  function Begun(guard: Guard, s: State): State
    requires guard.Transaction?
  {
    Push(Log(s, Started(guard.id)).(pending := 0), Plain)
  }

  /** However many exceptions were unwinding when it was constructed, a transaction is rolled back
      exactly when an exception leaves its own scope. A failing ROLLBACK is not noticed; a failing
      COMMIT throws; neither ends the program. */
  lemma {:induction false} TransactionDecides(guard: Guard, body: Stmt, s: State)
    requires Possible(s) && guard.Transaction? && !guard.startFails
    ensures var (t, left) := Run(body, Begun(guard, s));
            var (after, o) := Run(Scope(guard, body), s);
            if left.Terminated? then (after, o) == (t, left)
            else if left.Thrown? then after.log == t.log + [RolledBack(guard.id)] && o == left
            else after.log == t.log + [Committed(guard.id)] && o == if guard.commitFails then Thrown(SqlError) else left
  {
    assert Possible(Begun(guard, s));
    CountAfter(body, Begun(guard, s));
  }

  /** How the scope of a query ends when its body left it by `left` in state `t` and `u` exceptions
      were uncaught before: the query is checked exactly when it was executed, nothing was thrown
      since it was constructed and no exception leaves the scope. */
  ghost predicate QueryEnded(u: nat, t: State, left: Outcome, r: (State, Outcome)) {
    if left.Terminated? then r == (t, left)
    else
      && t.objects != []
      && var checks := t.objects[|t.objects| - 1] == Query(u, true) && !left.Thrown?;
      && r.0.log == t.log + (if checks then [Checked] else [])
      && r.1 == if checks && t.pending > 0 then Thrown(LogicError) else left
  }

  lemma EndQueryDecides(u: nat, t: State, left: Outcome)
    requires !left.Terminated? ==> t.uncaught == u + if left.Thrown? then 1 else 0
    requires !left.Terminated? ==> t.objects != [] && var x := t.objects[|t.objects| - 1]; x.Query? && x.snapshot <= u
    ensures QueryEnded(u, t, left, EndQuery(t, left))
  {
  }

  lemma {:induction false} BodyDecides(body: Stmt, s: State, x: Object)
    requires Possible(s) && x.Query? && x.snapshot <= s.uncaught
    ensures var (t, left) := Run(body, Push(s, x)); QueryEnded(s.uncaught, t, left, EndQuery(t, left))
    ensures var (t, left) := Run(body, Push(s, x)); !left.Terminated? ==> |t.objects| == |s.objects| + 1
  {
    var inside := Push(s, x);
    assert inside.objects[|s.objects|] == x;
    CountAfter(body, inside);
    ObjectsStay(body, inside);
    var (t, left) := Run(body, inside);
    EndQueryDecides(s.uncaught, t, left);
  }

  lemma {:induction false} NewQueryRuns(body: Stmt, s: State, r: (State, Outcome))
    requires r == Run(body, Push(s, Query(s.uncaught, false)))
    ensures Run(Scope(NewQuery, body), s) == EndQuery(r.0, r.1)
  {
    assert Run(Scope(NewQuery, body), s) == RunScope(NewQuery, body, s);
  }

  lemma {:induction false} MovedQueryRuns(body: Stmt, s: State, source: nat, r: (State, Outcome))
    requires IsQuery(s, source) && r == Run(body, Move(s, source))
    ensures Run(Scope(MovedQuery(source), body), s) == EndQuery(r.0, r.1)
  {
    assert Run(Scope(MovedQuery(source), body), s) == RunScope(MovedQuery(source), body, s);
  }

  /** A query that was executed is checked exactly when no exception leaves its scope; an exception
      of its own only replaces an end without one. */
  lemma {:induction false} QueryDecides(body: Stmt, s: State)
    requires Possible(s)
    ensures var (t, left) := Run(body, Push(s, Query(s.uncaught, false)));
            QueryEnded(s.uncaught, t, left, Run(Scope(NewQuery, body), s))
  {
    NewQueryRuns(body, s, Run(body, Push(s, Query(s.uncaught, false))));
    BodyDecides(body, s, Query(s.uncaught, false));
  }

  /** A query that was moved keeps the count it was constructed with. */
  lemma {:induction false} MovedQueryDecides(body: Stmt, s: State, source: nat)
    requires Possible(s) && IsQuery(s, source)
    ensures var (t, left) := Run(body, Move(s, source));
            QueryEnded(s.uncaught, t, left, Run(Scope(MovedQuery(source), body), s))
  {
    MovedQueryRuns(body, s, source, Run(body, Move(s, source)));
    MovedIsPossible(s, source);
    BodyDecides(body, MoveFrom(s, source), s.objects[source]);
  }

  lemma MovedIsPossible(s: State, source: nat)
    requires Possible(s) && IsQuery(s, source)
    ensures Possible(MoveFrom(s, source))
  {
  }

  /** Once an exception thrown since is uncaught, it is never checked, even if the scope it now lives
      in ends well. */
  lemma {:induction false} MovedQueryGoesUnchecked(body: Stmt, s: State, source: nat)
    requires Possible(s) && IsQuery(s, source) && s.objects[source].snapshot < s.uncaught
    ensures var r := Run(body, Move(s, source));
            var after := Run(Scope(MovedQuery(source), body), s);
            after.0.log == r.0.log && after.1 == r.1
  {
    var x := s.objects[source];
    var inside := Move(s, source);
    assert inside.objects[|s.objects|] == x;
    ObjectsStay(body, inside);
    MovedQueryDecides(body, s, source);
  }

  // ---- moving ----

  predicate Executes(p: Stmt, q: nat) {
    match p
    case Seq(first, second) => Executes(first, q) || Executes(second, q)
    case Try(body, _, handler) => Executes(body, q) || Executes(handler, q)
    case Call(body) => Executes(body, q)
    case Execute(query, _, _) => query == q
    case Scope(guard, body) =>
      || Executes(body, q)
      || (guard.Cleanup? && Executes(guard.code, q))
      || (guard.ReturnedQuery? && Executes(guard.make, q))
    case _ => false
  }

  ghost predicate Idle(s: State, q: nat) {
    IsQuery(s, q) && !s.objects[q].executed
  }

  lemma EndQueryIdle(s: State, left: Outcome, q: nat)
    requires Idle(s, q) && q < |s.objects| - 1
    ensures var (t, o) := EndQuery(s, left); !o.Terminated? ==> Idle(t, q)
  {
  }

  lemma ReturnQueryIdle(s: State, left: Outcome, q: nat)
    requires Idle(s, q) && q < |s.objects| - 1
    ensures var (t, o) := ReturnQuery(s, left); !o.Terminated? ==> Idle(t, q)
    ensures var (t, o) := ReturnQuery(s, left); o.Normal? ==> |t.objects| == |s.objects|
  {
    EndQueryIdle(s, left, q);
    if s.objects[|s.objects| - 1].Query? {
      EndQueryIdle(MoveFrom(s, |s.objects| - 1), Normal, q);
    }
  }

  lemma {:induction false} IdleStays(p: Stmt, s: State, q: nat)
    requires Idle(s, q) && !Executes(p, q)
    ensures var (t, o) := Run(p, s); !o.Terminated? ==> Idle(t, q)
    decreases p, 1
  {
    match p
    case Seq(first, second) =>
      IdleStays(first, s, q);
      if Run(first, s).1.Normal? {
        IdleStays(second, Run(first, s).0, q);
      }
    case Try(body, kinds, handler) =>
      IdleStays(body, s, q);
      if Run(body, s).1.Thrown? {
        IdleStays(handler, Caught(Run(body, s).0), q);
      }
    case Call(body) =>
      IdleStays(body, s, q);
    case Scope(guard, body) =>
      match guard {
        case ReturnedQuery(make) => IdleStaysReturned(make, body, s, q);
        case Cleanup(code, mayThrow) => IdleStaysCleanup(code, mayThrow, body, s, q);
        case _ => IdleStaysIn(guard, body, s, q);
      }
    case _ =>
  }

  /** What is in scope when the body of a scope runs, and the object of that scope. */
  function Inside(guard: Guard, s: State): (State, Object) {
    match guard
    case Transaction(id, _, _, _) => (Log(s, Started(id)).(pending := 0), Plain)
    case NewQuery => (s, Query(s.uncaught, false))
    case MovedQuery(source) => if IsQuery(s, source) then (MoveFrom(s, source), s.objects[source]) else (s, Plain)
    case _ => (s, Plain)
  }

  lemma {:induction false} IdleStaysIn(guard: Guard, body: Stmt, s: State, q: nat)
    requires Idle(s, q) && !Executes(body, q) && !guard.ReturnedQuery? && !guard.Cleanup?
    ensures var (t, o) := RunScope(guard, body, s); !o.Terminated? ==> Idle(t, q)
    decreases Scope(guard, body), 0
  {
    var (inside, x) := Inside(guard, s);
    IdleStays(body, Push(inside, x), q);
    ObjectsStay(body, Push(inside, x));
    var (t, o) := Run(body, Push(inside, x));
    if !o.Terminated? {
      EndQueryIdle(t, o, q);
    }
  }

  lemma {:induction false} IdleStaysCleanup(code: Stmt, mayThrow: bool, body: Stmt, s: State, q: nat)
    requires Idle(s, q) && !Executes(code, q) && !Executes(body, q)
    ensures var (t, o) := RunScope(Cleanup(code, mayThrow), body, s); !o.Terminated? ==> Idle(t, q)
    decreases Scope(Cleanup(code, mayThrow), body), 0
  {
    var inside := Push(s, Plain);
    IdleStays(body, inside, q);
    ObjectsStay(body, inside);
    var r := Run(body, inside);
    if !r.1.Terminated? {
      IdleStays(code, Pop(r.0), q);
      CleanupRuns(code, mayThrow, body, s, r, Run(code, Pop(r.0)));
    }
  }

  lemma {:induction false} IdleStaysReturned(make: Stmt, body: Stmt, s: State, q: nat)
    requires Idle(s, q) && !Executes(make, q) && !Executes(body, q)
    ensures var (t, o) := Run(Scope(ReturnedQuery(make), body), s); !o.Terminated? ==> Idle(t, q)
    decreases Scope(ReturnedQuery(make), body), 0
  {
    var inside := Push(s, Query(s.uncaught, false));
    IdleStays(make, inside, q);
    ObjectsStay(make, inside);
    var made := Run(make, inside);
    var end := ReturnQuery(made.0, made.1);
    var r := if end.1.Normal? then Run(body, end.0) else end;
    ReturnedQueryRuns(make, body, s, made, end, r);
    if !made.1.Terminated? {
      ReturnQueryIdle(made.0, made.1, q);
    }
    if end.1.Normal? {
      IdleStays(body, end.0, q);
      ObjectsStay(body, end.0);
      if !r.1.Terminated? {
        EndQueryIdle(r.0, r.1, q);
      }
    }
  }

  lemma {:induction false} MovedFromIsIdle(body: Stmt, s: State, q: nat)
    requires IsQuery(s, q) && !Executes(body, q)
    ensures var (t, o) := Run(Scope(MovedQuery(q), body), s); !o.Terminated? ==> Idle(t, q)
  {
    var x := s.objects[q];
    var inside := Move(s, q);
    IdleStays(body, inside, q);
    ObjectsStay(body, inside);
    var (t, o) := Run(body, inside);
    if !o.Terminated? {
      EndQueryIdle(t, o, q);
    }
  }

  lemma EndIdleQuery(s: State, left: Outcome)
    requires !left.Terminated? ==> s.objects != [] && Idle(s, |s.objects| - 1)
    ensures EndQuery(s, left).0.log == s.log && EndQuery(s, left).1 == left
  {
  }

  /** Once a query has been moved from, and is not executed again, its own destructor does nothing:
      the only check is the one of the query it was moved to. */
  lemma {:induction false} OnlyTheSurvivorChecks(before: Stmt, body: Stmt, s: State)
    requires Run(before, Push(s, Query(s.uncaught, false))).1.Normal? && !Executes(body, |s.objects|)
    ensures var move := Scope(MovedQuery(|s.objects|), body);
            var (t, left) := Run(move, Run(before, Push(s, Query(s.uncaught, false))).0);
            var (after, o) := Run(Scope(NewQuery, Seq(before, move)), s);
            after.log == t.log && o == left
  {
    var q, x := |s.objects|, Query(s.uncaught, false);
    var inside, move := Push(s, x), Scope(MovedQuery(q), body);
    assert inside.objects[q] == x;
    ObjectsStay(before, inside);
    var moving := Run(before, inside).0;
    MovedFromIsIdle(body, moving, q);
    ObjectsStay(move, moving);
    var (t, left) := Run(move, moving);
    EndIdleQuery(t, left);
    assert Run(Seq(before, move), inside) == (t, left);
  }

  /** Returning a query from a function cannot be told from constructing it in the caller, whether or
      not the compiler leaves out the move: the query returned is checked by the count it was
      constructed with, once, and the function's own object never is. */
  lemma {:induction false} ReturnedQueryIsLocal(make: Stmt, body: Stmt, s: State)
    ensures Run(Scope(ReturnedQuery(make), body), s) == Run(Scope(NewQuery, Seq(Call(make), body)), s)
  {
    var x := Query(s.uncaught, false);
    var inside := Push(s, x);
    ObjectsStay(make, inside);
    var made := Run(make, inside);
    if !made.1.Terminated? {
      LastIsQuery(s.objects, x, made.0.objects);
    }
    ReturnedIsLocal(made.0, made.1);
    var r := if made.1.Thrown? || made.1.Terminated? then made else Run(body, made.0);
    EndedStays(r.0, r.1);
    ReturnedQueryRuns(make, body, s, made, ReturnQuery(made.0, made.1), r);
    CallThen(make, body, inside, made, r);
    NewQueryRuns(Seq(Call(make), body), s, r);
  }

  lemma {:induction false} CallThen(make: Stmt, body: Stmt, s: State, made: (State, Outcome), r: (State, Outcome))
    requires made == Run(make, s) && r == if made.1.Thrown? || made.1.Terminated? then made else Run(body, made.0)
    ensures Run(Seq(Call(make), body), s) == r
  {
    assert Run(Call(make), s) == (made.0, if made.1.Returned? then Normal else made.1);
  }

  // ---- nesting ----

  /** The transactions open after a log, innermost last; a log that ends another than the innermost
      one is none. */
  function Open(open: seq<nat>, log: seq<Event>): Option<seq<nat>>
    decreases log
  {
    if log == [] then Some(open)
    else
      match log[0]
      case Started(id) => Open(open + [id], log[1..])
      case Committed(id) => if open != [] && open[|open| - 1] == id then Open(open[..|open| - 1], log[1..]) else None
      case RolledBack(id) => if open != [] && open[|open| - 1] == id then Open(open[..|open| - 1], log[1..]) else None
      case _ => Open(open, log[1..])
  }

  lemma {:induction false} OpenConcat(open: seq<nat>, a: seq<Event>, b: seq<Event>)
    ensures Open(open, a + b) == match Open(open, a) case None => None case Some(inner) => Open(inner, b)
    decreases a
  {
    if a == [] {
      assert a + b == b;
    } else {
      assert (a + b)[0] == a[0] && (a + b)[1..] == a[1..] + b;
      var open' :=
        match a[0]
        case Started(id) => open + [id]
        case Committed(_) => if open == [] then open else open[..|open| - 1]
        case RolledBack(_) => if open == [] then open else open[..|open| - 1]
        case _ => open;
      OpenConcat(open', a[1..], b);
    }
  }

  /** From `was` to `now`, every transaction that was started has ended, in order. */
  ghost predicate Nested(was: seq<Event>, now: seq<Event>) {
    was <= now && forall open :: Open(open, now[|was|..]) == Some(open)
  }

  lemma NestedSame(log: seq<Event>)
    ensures Nested(log, log)
  {
  }

  lemma NestedTrans(a: seq<Event>, b: seq<Event>, c: seq<Event>)
    requires Nested(a, b) && Nested(b, c)
    ensures Nested(a, c)
  {
    assert c[|a|..] == b[|a|..] + c[|b|..];
    forall open ensures Open(open, c[|a|..]) == Some(open) {
      OpenConcat(open, b[|a|..], c[|b|..]);
    }
  }

  lemma NestedOne(log: seq<Event>, e: Event)
    requires e.Refused? || e.Checked?
    ensures Nested(log, log + [e])
  {
    forall open ensures Open(open, [e]) == Some(open) {
      assert Open(open, [e]) == Open(open, [e][1..]);
    }
    assert (log + [e])[|log|..] == [e];
  }

  lemma NestedTransaction(log: seq<Event>, id: nat, now: seq<Event>, end: Event)
    requires Nested(log + [Started(id)], now) && (end == Committed(id) || end == RolledBack(id))
    ensures Nested(log, now + [end])
  {
    var inner := now[|log| + 1..];
    assert (now + [end])[|log|..] == [Started(id)] + (inner + [end]);
    forall open ensures Open(open, [Started(id)] + (inner + [end])) == Some(open) {
      var all := [Started(id)] + (inner + [end]);
      assert all[0] == Started(id) && all[1..] == inner + [end];
      OpenConcat(open + [id], inner, [end]);
      assert Open(open + [id], [end]) == Open((open + [id])[..|open|], [end][1..]);
      assert (open + [id])[..|open|] == open;
    }
  }

  lemma EndQueryNests(log: seq<Event>, s: State, left: Outcome)
    requires Nested(log, s.log)
    ensures Nested(log, EndQuery(s, left).0.log)
  {
    NestedOne(s.log, Checked);
    NestedTrans(log, s.log, s.log + [Checked]);
  }

  /** Transactions nest: whatever a program throws, catches or destroys, unless it is terminated it
      ends every transaction it starts exactly once, innermost first. */
  lemma {:induction false} TransactionsNest(p: Stmt, s: State)
    ensures var (t, o) := Run(p, s); !o.Terminated? ==> Nested(s.log, t.log)
    decreases p, 1
  {
    NestedSame(s.log);
    match p
    case Seq(first, second) =>
      TransactionsNest(first, s);
      var (t, o) := Run(first, s);
      if o.Normal? {
        TransactionsNest(second, t);
        ThenNests(s, t, Run(second, t));
      }
    case Try(body, kinds, handler) =>
      TransactionsNest(body, s);
      var (t, o) := Run(body, s);
      if o.Thrown? {
        TransactionsNest(handler, Caught(t));
        ThenNests(s, t, Run(handler, Caught(t)));
      }
    case Call(body) =>
      TransactionsNest(body, s);
    case Scope(guard, body) =>
      match guard {
        case Transaction(id, _, _, _) =>
          NestedOne(s.log, Refused(id));
          var inside := Push(Log(s, Started(id)).(pending := 0), Plain);
          TransactionsNest(body, inside);
          var (t, o) := Run(body, inside);
          if !o.Terminated? {
            NestedTransaction(s.log, id, t.log, Committed(id));
            NestedTransaction(s.log, id, t.log, RolledBack(id));
          }
        case NewQuery =>
          QueryScopeNests(body, s, Query(s.uncaught, false));
        case MovedQuery(source) =>
          if IsQuery(s, source) {
            var x := s.objects[source];
            QueryScopeNests(body, MoveFrom(s, source), x);
          }
        case ReturnedQuery(make) =>
          ReturnedQueryNests(make, body, s);
        case Cleanup(code, _) =>
          TransactionsNest(body, Push(s, Plain));
          var (t, o) := Run(body, Push(s, Plain));
          if !o.Terminated? {
            TransactionsNest(code, Pop(t));
            ThenNests(s, t, Run(code, Pop(t)));
          }
      }
    case _ =>
  }

  lemma ThenNests(s: State, t: State, r: (State, Outcome))
    requires Nested(s.log, t.log) && (!r.1.Terminated? ==> Nested(t.log, r.0.log))
    ensures !r.1.Terminated? ==> Nested(s.log, r.0.log)
  {
    if !r.1.Terminated? {
      NestedTrans(s.log, t.log, r.0.log);
    }
  }

  lemma {:induction false} QueryScopeNests(body: Stmt, s: State, x: Object)
    ensures var (t, left) := Run(body, Push(s, x)); var (after, o) := EndQuery(t, left);
            !o.Terminated? ==> Nested(s.log, after.log)
    decreases body, 2
  {
    TransactionsNest(body, Push(s, x));
    var (t, left) := Run(body, Push(s, x));
    if !left.Terminated? {
      EndQueryNests(s.log, t, left);
    }
  }

  lemma {:induction false} ReturnedQueryNests(make: Stmt, body: Stmt, s: State)
    ensures var (t, o) := Run(Scope(ReturnedQuery(make), body), s); !o.Terminated? ==> Nested(s.log, t.log)
    decreases Scope(ReturnedQuery(make), body), 0
  {
    var inside := Push(s, Query(s.uncaught, false));
    TransactionsNest(make, inside);
    var made := Run(make, inside);
    var r := if made.1.Thrown? || made.1.Terminated? then made else Run(body, made.0);
    if !made.1.Thrown? && !made.1.Terminated? {
      TransactionsNest(body, made.0);
      ThenNests(inside, made.0, r);
    }
    CallThen(make, body, inside, made, r);
    ReturnedQueryIsLocal(make, body, s);
    NewQueryRuns(Seq(Call(make), body), s, r);
    if !r.1.Terminated? {
      EndQueryNests(s.log, r.0, r.1);
    }
  }

  // ---- destructors that run because of an exception ----

  /** A local object's destructor runs with the exception counted. */
  lemma {:induction false} CleanupRunsCounted(code: Stmt, kind: Kind, s: State)
    ensures var r := Run(code, s.(uncaught := s.uncaught + 1));
            Run(Scope(Cleanup(code, false), Throw(kind)), s) == (r.0, Leave(Thrown(kind), r.1, false))
  {
    var inside := Push(s, Plain);
    var r := Raise(inside, kind);
    assert Run(Throw(kind), inside) == r;
    assert Pop(r.0) == s.(uncaught := s.uncaught + 1);
    CleanupRuns(code, false, Throw(kind), s, r, Run(code, Pop(r.0)));
  }

  /** There a transaction is committed when its own scope ends well, although an exception is
      uncaught at that time: asking only whether one is would have rolled it back. */
  lemma {:induction false} CommitsWhileUnwinding(s: State, kind: Kind)
    requires Possible(s)
    ensures var (t, o) := Run(Scope(Cleanup(Scope(Transaction(1, false, false, false), Skip), false), Throw(kind)), s);
            t.log == s.log + [Started(1)] + [Committed(1)] && o == Thrown(kind) && t.uncaught == s.uncaught + 1
  {
    var code := Scope(Transaction(1, false, false, false), Skip);
    CleanupRunsCounted(code, kind, s);
    TransactionDecides(code.guard, Skip, s.(uncaught := s.uncaught + 1));
    CountAfter(code, s.(uncaught := s.uncaught + 1));
  }
}
