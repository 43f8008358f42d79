/** Deciding by counts and deciding by how scopes are left agree, for every program. */
module UnwindingAgreement {
  import opened Unwinding

  ghost predicate Like(uncaught: nat, x: Object, y: IdealObject) {
    match x
    case Plain => y.NoQuery?
    case Query(snapshot, executed) =>
      y.IdealQuery? && y.executed == executed && snapshot <= uncaught && (y.shadowed <==> snapshot < uncaught)
  }

  /** `s` is described by `i`, in code that started with the given count. */
  ghost predicate Matches(uncaught: nat, s: State, i: IdealState) {
    && s.pending == i.pending
    && s.log == i.log
    && |s.objects| == |i.objects|
    && forall k | 0 <= k < |s.objects| :: Like(uncaught, s.objects[k], i.objects[k])
  }

  /** The counts an outcome leaves, and what else the two runs have in common. */
  ghost predicate Ends(uncaught: nat, r: (State, Outcome), i: (IdealState, Outcome)) {
    && r.1 == i.1
    && r.0.log == i.0.log
    && (!r.1.Terminated? ==>
          && r.0.uncaught == uncaught + (if r.1.Thrown? then 1 else 0)
          && Matches(uncaught, r.0, i.0))
  }

  lemma TransactionEnds(guard: Guard, u: nat, s: State, i: IdealState, left: Outcome)
    requires guard.Transaction? && Ends(u, (s, left), (i, left))
    ensures Ends(u, EndTransaction(guard, u, s, left), LeaveTransaction(guard, i, left))
  {
  }

  lemma QueryEnds(u: nat, s: State, i: IdealState, left: Outcome)
    requires Ends(u, (s, left), (i, left))
    ensures Ends(u, EndQuery(s, left), LeaveQuery(i, left))
  {
    if !left.Terminated? && s.objects != [] {
      var n := |s.objects| - 1;
      assert Like(u, s.objects[n], i.objects[n]);
    }
  }

  lemma EnterMatches(u: nat, s: State, i: IdealState, x: Object, y: IdealObject)
    requires Matches(u, s, i) && Like(u, x, y)
    ensures Matches(u, Push(s, x), Enter(i, y))
  {
  }

  lemma ExitMatches(u: nat, s: State, i: IdealState)
    requires Matches(u, s, i)
    ensures Matches(u, Pop(s), Exit(i))
  {
  }

  lemma ShadowMatches(u: nat, s: State, i: IdealState)
    requires Matches(u, s, i)
    ensures Matches(u + 1, s, i.(objects := Shadow(i.objects)))
  {
    forall k | 0 <= k < |s.objects|
      ensures Like(u + 1, s.objects[k], Shadow(i.objects)[k])
    {
      assert Like(u, s.objects[k], i.objects[k]);
    }
  }

  /** The same objects, up to queries having been executed or moved from. */
  ghost predicate SameObjects(a: seq<Object>, b: seq<Object>) {
    && |a| == |b|
    && forall k | 0 <= k < |a| :: a[k].Plain? == b[k].Plain? && (a[k].Query? ==> a[k].snapshot == b[k].snapshot)
  }

  lemma PopSame(a: State, b: State, x: Object)
    requires SameObjects(a.objects + [x], b.objects)
    ensures SameObjects(a.objects, Pop(b).objects)
  {
    assert forall k | 0 <= k < |a.objects| :: (a.objects + [x])[k] == a.objects[k] && Pop(b).objects[k] == b.objects[k];
  }

  lemma EndQuerySame(s: State, x: Object, r: (State, Outcome))
    requires x.Query? && (!r.1.Terminated? ==> SameObjects(s.objects + [x], r.0.objects))
    ensures var (t, o) := EndQuery(r.0, r.1); !o.Terminated? ==> SameObjects(s.objects, t.objects)
  {
    if !r.1.Terminated? {
      PopSame(s, r.0, x);
      assert (s.objects + [x])[|s.objects|] == x;
    }
  }

  /** A returned query goes on as the query the function constructed. */
  lemma ReturnedIsLocal(s: State, left: Outcome)
    requires !left.Terminated? ==> s.objects != [] && s.objects[|s.objects| - 1].Query?
    ensures ReturnQuery(s, left) == if left.Thrown? || left.Terminated? then EndQuery(s, left) else (s, Normal)
  {
    if !left.Thrown? && !left.Terminated? {
      var n := |s.objects| - 1;
      assert Pop(MoveFrom(s, n)).objects + [s.objects[n]] == s.objects;
    }
  }

  lemma LastIsQuery(objects: seq<Object>, x: Object, now: seq<Object>)
    requires x.Query? && SameObjects(objects + [x], now)
    ensures now != [] && now[|now| - 1].Query?
  {
    assert (objects + [x])[|objects|] == x;
  }

  lemma SameTrans(a: seq<Object>, b: seq<Object>, c: seq<Object>)
    requires SameObjects(a, b) && SameObjects(b, c)
    ensures SameObjects(a, c)
  {
  }

  /** A program leaves in scope the objects it found, with their snapshots. */
  lemma {:induction false} ObjectsStay(p: Stmt, s: State)
    ensures var (t, o) := Run(p, s); !o.Terminated? ==> SameObjects(s.objects, t.objects)
    decreases p, 1
  {
    match p
    case Skip =>
    case Throw(kind) =>
    case Return =>
    case Seq(first, second) =>
      ObjectsStay(first, s);
      ObjectsStay(second, Run(first, s).0);
    case Try(body, kinds, handler) =>
      ObjectsStay(body, s);
      ObjectsStay(handler, Caught(Run(body, s).0));
    case Call(body) =>
      ObjectsStay(body, s);
    case Execute(query, results, fails) =>
    case NextResult(query) =>
    case Scope(guard, body) =>
      match guard
      case Transaction(id, startFails, _, _) =>
        var inside := Push(Log(s, Started(id)).(pending := 0), Plain);
        ObjectsStay(body, inside);
        if !startFails && !Run(body, inside).1.Terminated? {
          PopSame(s, Run(body, inside).0, Plain);
        }
      case NewQuery =>
        var x := Query(s.uncaught, false);
        ObjectsStay(body, Push(s, x));
        EndQuerySame(s, x, Run(body, Push(s, x)));
      case MovedQuery(source) =>
        if IsQuery(s, source) {
          var x, moved := s.objects[source], MoveFrom(s, source);
          ObjectsStay(body, Push(moved, x));
          EndQuerySame(moved, x, Run(body, Push(moved, x)));
        }
      case ReturnedQuery(make) =>
        ObjectsStayReturned(make, body, s);
      case Cleanup(code, _) =>
        var inside := Push(s, Plain);
        ObjectsStay(body, inside);
        var (t, o) := Run(body, inside);
        if !o.Terminated? {
          PopSame(s, t, Plain);
          ObjectsStay(code, Pop(t));
        }
  }

  lemma {:induction false} ObjectsStayReturned(make: Stmt, body: Stmt, s: State)
    ensures var (t, o) := Run(Scope(ReturnedQuery(make), body), s); !o.Terminated? ==> SameObjects(s.objects, t.objects)
    decreases Scope(ReturnedQuery(make), body), 0
  {
    var x := Query(s.uncaught, false);
    var inside := Push(s, x);
    ObjectsStay(make, inside);
    var made := Run(make, inside);
    EndQuerySame(s, x, made);
    EndedStays(made.0, made.1);
    if !made.1.Terminated? {
      LastIsQuery(s.objects, x, made.0.objects);
    }
    ReturnedIsLocal(made.0, made.1);
    var r := if made.1.Thrown? || made.1.Terminated? then made else Run(body, made.0);
    if !made.1.Thrown? && !made.1.Terminated? {
      ObjectsStay(body, made.0);
      if !r.1.Terminated? {
        SameTrans(inside.objects, made.0.objects, r.0.objects);
      }
      EndQuerySame(s, x, r);
    }
    ReturnedQueryRuns(make, body, s, made, ReturnQuery(made.0, made.1), r);
  }

  lemma UnshadowMatches(u: nat, s: State, i: IdealState, t: State, j: IdealState)
    requires Matches(u, s, i) && Matches(u + 1, t, j) && SameObjects(s.objects, t.objects)
    ensures Matches(u, t, j.(objects := Unshadow(i.objects, j.objects)))
  {
    forall k | 0 <= k < |t.objects|
      ensures Like(u, t.objects[k], Unshadow(i.objects, j.objects)[k])
    {
      assert Like(u, s.objects[k], i.objects[k]) && Like(u + 1, t.objects[k], j.objects[k]);
    }
  }

  // ---- the scopes that run two programs, by what these come to ----

  lemma {:induction false} CleanupRuns(code: Stmt, mayThrow: bool, body: Stmt, s: State,
                                       r: (State, Outcome), q: (State, Outcome))
    requires r == Run(body, Push(s, Plain)) && !r.1.Terminated? && q == Run(code, Pop(r.0))
    ensures Run(Scope(Cleanup(code, mayThrow), body), s) == (q.0, Leave(r.1, q.1, mayThrow))
  {
    assert Run(Scope(Cleanup(code, mayThrow), body), s) == RunScope(Cleanup(code, mayThrow), body, s);
  }

  lemma {:induction false} CleanupIdeal(code: Stmt, mayThrow: bool, body: Stmt, i: IdealState,
                                        r: (IdealState, Outcome), q: (IdealState, Outcome))
    requires r == Ideal(body, Enter(i, NoQuery)) && !r.1.Terminated?
    requires var left := Exit(r.0);
             q == Ideal(code, if r.1.Thrown? then left.(objects := Shadow(left.objects)) else left)
    ensures Ideal(Scope(Cleanup(code, mayThrow), body), i)
         == (if r.1.Thrown? then q.0.(objects := Unshadow(Exit(r.0).objects, q.0.objects)) else q.0,
             Leave(r.1, q.1, mayThrow))
  {
  }

  lemma {:induction false} ReturnedQueryRuns(make: Stmt, body: Stmt, s: State, r: (State, Outcome),
                                             end: (State, Outcome), q: (State, Outcome))
    requires r == Run(make, Push(s, Query(s.uncaught, false))) && end == ReturnQuery(r.0, r.1)
    requires end.1.Normal? ==> q == Run(body, end.0)
    ensures Run(Scope(ReturnedQuery(make), body), s) == if end.1.Normal? then EndQuery(q.0, q.1) else end
  {
    assert Run(Scope(ReturnedQuery(make), body), s) == RunScope(ReturnedQuery(make), body, s);
  }

  lemma {:induction false} ReturnedQueryIdeal(make: Stmt, body: Stmt, i: IdealState,
                                              r: (IdealState, Outcome), q: (IdealState, Outcome))
    requires r == Ideal(make, Enter(i, IdealQuery(false, false)))
    requires !r.1.Thrown? && !r.1.Terminated? ==> q == Ideal(body, r.0)
    ensures Ideal(Scope(ReturnedQuery(make), body), i)
         == if r.1.Thrown? || r.1.Terminated? then LeaveQuery(r.0, r.1) else LeaveQuery(q.0, q.1)
  {
  }

  /** Comparing counts decides what looking at how each scope is left decides. */
  lemma {:induction false} RunIsIdeal(p: Stmt, s: State, i: IdealState)
    requires Matches(s.uncaught, s, i)
    ensures Ends(s.uncaught, Run(p, s), Ideal(p, i))
    decreases p, 1
  {
    match p
    case Skip =>
    case Throw(kind) =>
    case Return =>
    case Seq(first, second) =>
      RunIsIdeal(first, s, i);
      if Run(first, s).1.Normal? {
        RunIsIdeal(second, Run(first, s).0, Ideal(first, i).0);
      }
    case Try(body, kinds, handler) =>
      RunIsIdeal(body, s, i);
      var (t, o) := Run(body, s);
      if o.Thrown? && o.kind in kinds {
        RunIsIdeal(handler, Caught(t), Ideal(body, i).0);
      }
    case Call(body) =>
      RunIsIdeal(body, s, i);
    case Execute(query, results, fails) =>
      assert query < |s.objects| ==> Like(s.uncaught, s.objects[query], i.objects[query]);
    case NextResult(query) =>
      assert query < |s.objects| ==> Like(s.uncaught, s.objects[query], i.objects[query]);
    case Scope(guard, body) =>
      match guard
      case Transaction(id, startFails, _, _) =>
        if !startFails {
          var inside, ideal := Log(s, Started(id)).(pending := 0), Note(i, Started(id)).(pending := 0);
          EnterMatches(s.uncaught, inside, ideal, Plain, NoQuery);
          RunIsIdeal(body, Push(inside, Plain), Enter(ideal, NoQuery));
          var (t, o) := Run(body, Push(inside, Plain));
          TransactionEnds(guard, s.uncaught, t, Ideal(body, Enter(ideal, NoQuery)).0, o);
        }
      case NewQuery =>
        QueryScopeIsIdeal(body, s, i, Query(s.uncaught, false), IdealQuery(false, false));
      case MovedQuery(source) =>
        if source < |s.objects| {
          var x, y := s.objects[source], i.objects[source];
          assert Like(s.uncaught, x, y);
          if x.Query? {
            var moved := i.(objects := i.objects[source := y.(executed := false)]);
            QueryScopeIsIdeal(body, MoveFrom(s, source), moved, x, y);
          }
        }
      case ReturnedQuery(make) =>
        ReturnedQueryIsIdeal(make, body, s, i);
      case Cleanup(code, mayThrow) =>
        CleanupIsIdeal(code, mayThrow, body, s, i);
  }

  lemma {:induction false} QueryScopeIsIdeal(body: Stmt, s: State, i: IdealState, x: Object, y: IdealObject)
    requires Matches(s.uncaught, s, i) && Like(s.uncaught, x, y)
    ensures var (t, o) := Run(body, Push(s, x)); var (j, oi) := Ideal(body, Enter(i, y));
            Ends(s.uncaught, EndQuery(t, o), LeaveQuery(j, oi))
    decreases body, 2
  {
    EnterMatches(s.uncaught, s, i, x, y);
    RunIsIdeal(body, Push(s, x), Enter(i, y));
    var (t, o) := Run(body, Push(s, x));
    QueryEnds(s.uncaught, t, Ideal(body, Enter(i, y)).0, o);
  }

  lemma {:induction false} ReturnedQueryIsIdeal(make: Stmt, body: Stmt, s: State, i: IdealState)
    requires Matches(s.uncaught, s, i)
    ensures Ends(s.uncaught, Run(Scope(ReturnedQuery(make), body), s), Ideal(Scope(ReturnedQuery(make), body), i))
    decreases Scope(ReturnedQuery(make), body), 0
  {
    var u, x, y := s.uncaught, Query(s.uncaught, false), IdealQuery(false, false);
    EnterMatches(u, s, i, x, y);
    RunIsIdeal(make, Push(s, x), Enter(i, y));
    ObjectsStay(make, Push(s, x));
    var made, ideal := Run(make, Push(s, x)), Ideal(make, Enter(i, y));
    if !made.1.Terminated? {
      LastIsQuery(s.objects, x, made.0.objects);
    }
    ReturnedIsLocal(made.0, made.1);
    if made.1.Thrown? || made.1.Terminated? {
      QueryEnds(u, made.0, ideal.0, made.1);
      EndedStays(made.0, made.1);
      ReturnedQueryRuns(make, body, s, made, EndQuery(made.0, made.1), made);
      ReturnedQueryIdeal(make, body, i, ideal, ideal);
    } else {
      RunIsIdeal(body, made.0, ideal.0);
      var r, j := Run(body, made.0), Ideal(body, ideal.0);
      QueryEnds(u, r.0, j.0, r.1);
      ReturnedQueryRuns(make, body, s, made, (made.0, Normal), r);
      ReturnedQueryIdeal(make, body, i, ideal, j);
    }
  }

  lemma EndedStays(s: State, left: Outcome)
    ensures left.Thrown? || left.Terminated? ==> !EndQuery(s, left).1.Normal?
  {
  }

  lemma {:induction false} CleanupIsIdeal(code: Stmt, mayThrow: bool, body: Stmt, s: State, i: IdealState)
    requires Matches(s.uncaught, s, i)
    ensures var p := Scope(Cleanup(code, mayThrow), body); Ends(s.uncaught, Run(p, s), Ideal(p, i))
    decreases Scope(Cleanup(code, mayThrow), body), 0
  {
    EnterMatches(s.uncaught, s, i, Plain, NoQuery);
    RunIsIdeal(body, Push(s, Plain), Enter(i, NoQuery));
    var r, ideal := Run(body, Push(s, Plain)), Ideal(body, Enter(i, NoQuery));
    if r.1.Terminated? {
      assert Run(Scope(Cleanup(code, mayThrow), body), s) == r;
      assert Ideal(Scope(Cleanup(code, mayThrow), body), i) == ideal;
    } else {
      var t, j := Pop(r.0), Exit(ideal.0);
      ExitMatches(s.uncaught, r.0, ideal.0);
      CleanupRuns(code, mayThrow, body, s, r, Run(code, t));
      if r.1.Thrown? {
        ShadowedIsIdeal(code, s.uncaught, t, j);
        CleanupIdeal(code, mayThrow, body, i, ideal, Ideal(code, j.(objects := Shadow(j.objects))));
      } else {
        RunIsIdeal(code, t, j);
        CleanupIdeal(code, mayThrow, body, i, ideal, Ideal(code, j));
      }
    }
  }

  /** A destructor that runs because of an exception. */
  lemma {:induction false} ShadowedIsIdeal(code: Stmt, u: nat, s: State, i: IdealState)
    requires Matches(u, s, i) && s.uncaught == u + 1
    ensures var (t, o) := Run(code, s); var (j, oi) := Ideal(code, i.(objects := Shadow(i.objects)));
            && o == oi && t.log == j.log
            && (!o.Terminated? ==>
                  && t.uncaught == u + 1 + (if o.Thrown? then 1 else 0)
                  && Matches(u, t, j.(objects := Unshadow(i.objects, j.objects))))
    decreases code, 2
  {
    var shadowed := i.(objects := Shadow(i.objects));
    ShadowMatches(u, s, i);
    RunIsIdeal(code, s, shadowed);
    ObjectsStay(code, s);
    var (t, o) := Run(code, s);
    if !o.Terminated? {
      UnshadowMatches(u, s, i, t, Ideal(code, shadowed).0);
    }
  }
}
