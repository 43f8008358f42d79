/**
 * Scoped transactions and queries under exception unwinding.
 *
 * A program is one path through C++ code: throws, returns, handlers, calls, and scopes that each
 * hold one object. `Run` is the implementation: it keeps the run-time count of uncaught exceptions,
 * and destructors compare it with the count saved at construction. `Ideal` has no counts: it looks
 * at how each scope is left.
 */
module Unwinding {

  datatype Kind = SqlError | LogicError | Other(code: nat)

  datatype Stmt =
    | Skip
    | Throw(kind: Kind)
    | Return
    | Seq(first: Stmt, second: Stmt)
    | Try(body: Stmt, kinds: set<Kind>, handler: Stmt)
    | Call(body: Stmt)
    | Execute(query: nat, results: nat, fails: bool)  // `results` counts the result sets after the first
    | NextResult(query: nat)
    | Scope(guard: Guard, body: Stmt)

  /** The object a scope holds; what its database commands will answer is fixed beforehand. */
  datatype Guard =
    | Transaction(id: nat, startFails: bool, commitFails: bool, rollbackFails: bool)
    | NewQuery
    | MovedQuery(source: nat)
    | ReturnedQuery(make: Stmt)  // by a function that constructs it and whose code is `make`
    | Cleanup(code: Stmt, mayThrow: bool)  // any other object, by its destructor

  datatype Outcome = Normal | Returned | Thrown(kind: Kind) | Terminated

  datatype Event = Refused(id: nat) | Started(id: nat) | Committed(id: nat) | RolledBack(id: nat) | Checked

  // ---- the implementation ----

  /** Objects in scope, outermost first; queries are referred to by their position. */
  datatype Object = Plain | Query(snapshot: nat, executed: bool)

  datatype State = State(uncaught: nat, pending: nat, objects: seq<Object>, log: seq<Event>)

  function Log(s: State, e: Event): State {
    s.(log := s.log + [e])
  }

  function Push(s: State, x: Object): State {
    s.(objects := s.objects + [x])
  }

  function Pop(s: State): State {
    if s.objects == [] then s else s.(objects := s.objects[..|s.objects| - 1])
  }

  predicate IsQuery(s: State, q: nat) {
    q < |s.objects| && s.objects[q].Query?
  }

  /** The source of a move will not check. */
  function MoveFrom(s: State, q: nat): State
    requires IsQuery(s, q)
  {
    s.(objects := s.objects[q := s.objects[q].(executed := false)])
  }

  /** A new query is constructed from an old one. */
  function Move(s: State, q: nat): State
    requires IsQuery(s, q)
  {
    Push(MoveFrom(s, q), s.objects[q])
  }

  /** Throwing adds to the count; entering a handler takes away from it. */
  function Raise(s: State, kind: Kind): (State, Outcome) {
    (s.(uncaught := s.uncaught + 1), Thrown(kind))
  }

  function Caught(s: State): State {
    if s.uncaught == 0 then s else s.(uncaught := s.uncaught - 1)
  }

  predicate IsNewUncaughtException(s: State, snapshot: nat) {
    s.uncaught > snapshot
  }

  /** What comes of leaving a scope by `left` when the destructor ends by `ended`. */
  function Leave(left: Outcome, ended: Outcome, mayThrow: bool): Outcome {
    match ended
    case Terminated => Terminated
    case Thrown(_) => if left.Thrown? || !mayThrow then Terminated else ended
    case _ => left
  }

  function DestroyTransaction(guard: Guard, snapshot: nat, s: State): (State, Outcome)
    requires guard.Transaction?
  {
    if IsNewUncaughtException(s, snapshot) then
      var s := Log(s, RolledBack(guard.id));
      (if guard.rollbackFails then Caught(Raise(s, SqlError).0) else s.(pending := 0), Normal)
    else
      var s := Log(s, Committed(guard.id));
      if guard.commitFails then Raise(s, SqlError) else (s.(pending := 0), Normal)
  }

  function DestroyQuery(s: State, snapshot: nat, executed: bool): (State, Outcome) {
    if !IsNewUncaughtException(s, snapshot) && executed then
      var s := Log(s, Checked);
      if s.pending > 0 then Raise(s, LogicError) else (s, Normal)
    else (s, Normal)
  }

  /** The end of the query object's scope; it is the innermost one. */
  function EndQuery(s: State, left: Outcome): (State, Outcome) {
    if left.Terminated? || s.objects == [] || !s.objects[|s.objects| - 1].Query? then (s, left)
    else
      var x := s.objects[|s.objects| - 1];
      var (s, ended) := DestroyQuery(s, x.snapshot, x.executed);
      (Pop(s), Leave(left, ended, true))
  }

  /** The end of a function whose innermost object is the query it returns: unless an exception leaves
      the function, the caller's query is constructed from it, and then it is destroyed. */
  function ReturnQuery(s: State, left: Outcome): (State, Outcome) {
    if left.Thrown? || left.Terminated? || s.objects == [] || !s.objects[|s.objects| - 1].Query? then EndQuery(s, left)
    else
      var n := |s.objects| - 1;
      var (s', ended) := EndQuery(MoveFrom(s, n), Normal);
      (Push(s', s.objects[n]), ended)
  }

  function EndTransaction(guard: Guard, snapshot: nat, s: State, left: Outcome): (State, Outcome)
    requires guard.Transaction?
  {
    if left.Terminated? then (s, left)
    else
      var (s, ended) := DestroyTransaction(guard, snapshot, s);
      (Pop(s), Leave(left, ended, true))
  }

  function ExecuteQuery(s: State, q: nat, results: nat, fails: bool): (State, Outcome) {
    if !IsQuery(s, q) then (s, Normal)
    else if fails then Raise(s, SqlError)
    else (s.(pending := results, objects := s.objects[q := s.objects[q].(executed := true)]), Normal)
  }

  function NextOf(s: State, q: nat): (State, Outcome) {
    if !IsQuery(s, q) then (s, Normal)
    else if !s.objects[q].executed then Raise(s, LogicError)
    else (s.(pending := if s.pending > 0 then s.pending - 1 else 0), Normal)
  }

  function Run(p: Stmt, s: State): (State, Outcome)
    decreases p, 1
  {
    match p
    case Skip => (s, Normal)
    case Throw(kind) => Raise(s, kind)
    case Return => (s, Returned)
    case Seq(first, second) =>
      var (s, o) := Run(first, s);
      if o.Normal? then Run(second, s) else (s, o)
    case Try(body, kinds, handler) =>
      var (s, o) := Run(body, s);
      if o.Thrown? && o.kind in kinds then Run(handler, Caught(s)) else (s, o)
    case Call(body) =>
      var (s, o) := Run(body, s);
      (s, if o.Returned? then Normal else o)
    case Execute(query, results, fails) => ExecuteQuery(s, query, results, fails)
    case NextResult(query) => NextOf(s, query)
    case Scope(guard, body) => RunScope(guard, body, s)
  }

  function RunScope(guard: Guard, body: Stmt, s: State): (State, Outcome)
    decreases Scope(guard, body), 0
  {
    match guard
    case Transaction(id, startFails, _, _) =>
      if startFails then Raise(Log(s, Refused(id)), SqlError)
      else
        var (s', o) := Run(body, Push(Log(s, Started(id)).(pending := 0), Plain));
        EndTransaction(guard, s.uncaught, s', o)
    case NewQuery =>
      var (s, o) := Run(body, Push(s, Query(s.uncaught, false)));
      EndQuery(s, o)
    case MovedQuery(source) =>
      if !IsQuery(s, source) then (s, Normal)
      else
        var (s, o) := Run(body, Move(s, source));
        EndQuery(s, o)
    case ReturnedQuery(make) =>
      var (s, o) := Run(make, Push(s, Query(s.uncaught, false)));
      var (s, o) := ReturnQuery(s, o);
      if o.Normal? then
        var (s, o) := Run(body, s);
        EndQuery(s, o)
      else (s, o)
    case Cleanup(code, mayThrow) =>
      var (s, o) := Run(body, Push(s, Plain));
      if o.Terminated? then (s, o)
      else
        var (s, ended) := Run(code, Pop(s));
        (s, Leave(o, ended, mayThrow))
  }

  // ---- the reference ----

  /** A query is shadowed while a destructor runs because of an exception thrown after the query was
      constructed; a moved query counts from the construction of the one it was moved from. */
  datatype IdealObject = NoQuery | IdealQuery(shadowed: bool, executed: bool)

  datatype IdealState = IdealState(pending: nat, objects: seq<IdealObject>, log: seq<Event>)

  function Note(s: IdealState, e: Event): IdealState {
    s.(log := s.log + [e])
  }

  function Enter(s: IdealState, x: IdealObject): IdealState {
    s.(objects := s.objects + [x])
  }

  function Exit(s: IdealState): IdealState {
    if s.objects == [] then s else s.(objects := s.objects[..|s.objects| - 1])
  }

  predicate HasQuery(s: IdealState, q: nat) {
    q < |s.objects| && s.objects[q].IdealQuery?
  }

  function Shadow(objects: seq<IdealObject>): seq<IdealObject> {
    seq(|objects|, i requires 0 <= i < |objects| =>
      if objects[i].NoQuery? then NoQuery else IdealQuery(true, objects[i].executed))
  }

  /** Takes the shadows from `was` and the rest from `objects`. */
  function Unshadow(was: seq<IdealObject>, objects: seq<IdealObject>): seq<IdealObject> {
    seq(|objects|, i requires 0 <= i < |objects| =>
      if objects[i].NoQuery? || i >= |was| || was[i].NoQuery?
      then NoQuery
      else IdealQuery(was[i].shadowed, objects[i].executed))
  }

  function LeaveQuery(s: IdealState, left: Outcome): (IdealState, Outcome) {
    if left.Terminated? || s.objects == [] || !s.objects[|s.objects| - 1].IdealQuery? then (s, left)
    else
      var x := s.objects[|s.objects| - 1];
      if left.Thrown? || x.shadowed || !x.executed then (Exit(s), left)
      else (Exit(Note(s, Checked)), if s.pending > 0 then Thrown(LogicError) else left)
  }

  function LeaveTransaction(guard: Guard, s: IdealState, left: Outcome): (IdealState, Outcome)
    requires guard.Transaction?
  {
    if left.Terminated? then (s, left)
    else if left.Thrown? then
      var s := Exit(Note(s, RolledBack(guard.id)));
      (if guard.rollbackFails then s else s.(pending := 0), left)
    else
      var s := Exit(Note(s, Committed(guard.id)));
      if guard.commitFails then (s, Thrown(SqlError)) else (s.(pending := 0), left)
  }

  function Ideal(p: Stmt, s: IdealState): (IdealState, Outcome)
    decreases p
  {
    match p
    case Skip => (s, Normal)
    case Throw(kind) => (s, Thrown(kind))
    case Return => (s, Returned)
    case Seq(first, second) =>
      var (s, o) := Ideal(first, s);
      if o.Normal? then Ideal(second, s) else (s, o)
    case Try(body, kinds, handler) =>
      var (s, o) := Ideal(body, s);
      if o.Thrown? && o.kind in kinds then Ideal(handler, s) else (s, o)
    case Call(body) =>
      var (s, o) := Ideal(body, s);
      (s, if o.Returned? then Normal else o)
    case Execute(query, results, fails) =>
      if !HasQuery(s, query) then (s, Normal)
      else if fails then (s, Thrown(SqlError))
      else (s.(pending := results, objects := s.objects[query := s.objects[query].(executed := true)]), Normal)
    case NextResult(query) =>
      if !HasQuery(s, query) then (s, Normal)
      else if !s.objects[query].executed then (s, Thrown(LogicError))
      else (s.(pending := if s.pending > 0 then s.pending - 1 else 0), Normal)
    case Scope(guard, body) =>
      match guard
      case Transaction(id, startFails, _, _) =>
        if startFails then (Note(s, Refused(id)), Thrown(SqlError))
        else
          var (s, o) := Ideal(body, Enter(Note(s, Started(id)).(pending := 0), NoQuery));
          LeaveTransaction(guard, s, o)
      case NewQuery =>
        var (s, o) := Ideal(body, Enter(s, IdealQuery(false, false)));
        LeaveQuery(s, o)
      case MovedQuery(source) =>
        if !HasQuery(s, source) then (s, Normal)
        else
          var x := s.objects[source];
          var (s, o) := Ideal(body, Enter(s.(objects := s.objects[source := x.(executed := false)]), x));
          LeaveQuery(s, o)
      case ReturnedQuery(make) =>  // as if it had been constructed where it is returned to
        var (s, o) := Ideal(make, Enter(s, IdealQuery(false, false)));
        if o.Thrown? || o.Terminated? then LeaveQuery(s, o)
        else
          var (s, o) := Ideal(body, s);
          LeaveQuery(s, o)
      case Cleanup(code, mayThrow) =>
        var (s, o) := Ideal(body, Enter(s, NoQuery));
        if o.Terminated? then (s, o)
        else if o.Thrown? then
          var s := Exit(s);
          var (t, ended) := Ideal(code, s.(objects := Shadow(s.objects)));
          (t.(objects := Unshadow(s.objects, t.objects)), Leave(o, ended, mayThrow))
        else
          var (s, ended) := Ideal(code, Exit(s));
          (s, Leave(o, ended, mayThrow))
  }
}
