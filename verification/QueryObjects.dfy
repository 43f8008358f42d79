/** The query object and the result sets of its connection. */
module QueryObjects {
  import Unwinding
  import opened Wrappers

  datatype Failure = QueryNotExecuted | LogicError | DriverError

  datatype Result<T> = Ok(value: T) | Err(failure: Failure)

  /** The connection as a query sees it: the commands sent, and the result sets of the last one that
      have not been asked for. A result set may itself be an error, which ends the sequence. */
  class Driver {
    var sent: seq<string>
    var results: seq<bool>

    constructor ()
      ensures sent == [] && results == []
    {
      sent, results := [], [];
    }

    /** The server's answer is an error, or the result sets that follow the first one. */
    method Execute(text: string, answer: Result<seq<bool>>) returns (r: Result<()>)
      modifies this
      ensures sent == old(sent) + [text]
      ensures r == if answer.Ok? then Ok(()) else Err(answer.failure)
      ensures results == if answer.Ok? then answer.value else []
    {
      sent := sent + [text];
      match answer {
        case Ok(following) => results, r := following, Ok(());
        case Err(failure) => results, r := [], Err(failure);
      }
    }

    predicate HasMoreResults()
      reads this
    {
      results != []
    }

    method NextResult() returns (r: Result<bool>)
      modifies this`results
      ensures r == if old(results) == [] then Ok(false) else if old(results)[0] then Ok(true) else Err(DriverError)
      ensures results == if r == Ok(true) then old(results)[1..] else []
    {
      if results == [] {
        r := Ok(false);
      } else if results[0] {
        results, r := results[1..], Ok(true);
      } else {
        results, r := [], Err(DriverError);
      }
    }
  }

  class Query {
    const driver: Driver
    const snapshot: nat  // the uncaught exceptions at construction
    var text: string
    var quoteNext: bool
    var escapeNext: bool
    var executed: bool

    constructor (driver: Driver, text: string, uncaught: nat)
      ensures this.driver == driver && snapshot == uncaught
      ensures this.text == text && !quoteNext && !escapeNext && !executed
    {
      this.driver, this.snapshot := driver, uncaught;
      this.text, quoteNext, escapeNext, executed := text, false, false, false;
    }

    /** The new object is what the old one was; the old one will not check for unread results. */
    constructor Move(other: Query)
      modifies other
      ensures driver == other.driver && snapshot == other.snapshot
      ensures text == old(other.text) && quoteNext == old(other.quoteNext) && escapeNext == old(other.escapeNext)
      ensures executed == old(other.executed) && !other.executed
    {
      driver, snapshot := other.driver, other.snapshot;
      text, quoteNext, escapeNext, executed := other.text, other.quoteNext, other.escapeNext, other.executed;
      new;
      other.executed := false;
      other.text := "";
    }

    method Execute(answer: Result<seq<bool>>) returns (r: Result<()>)
      modifies this`executed, driver
      ensures driver.sent == old(driver.sent) + [text]
      ensures r == if answer.Ok? then Ok(()) else Err(answer.failure)
      ensures executed == (old(executed) || answer.Ok?)
      ensures driver.results == if answer.Ok? then answer.value else []
    {
      r := driver.Execute(text, answer);
      if r.Err? {
        return;
      }
      executed := true;
    }

    /** Whether the next request would do more than report the end. */
    function HasMoreResults(): (r: Result<bool>)
      reads this, driver
      ensures !executed ==> r == Err(QueryNotExecuted)
      ensures executed ==> r == Ok(FirstAnswer(driver.results) != Ok(false))
    {
      if !executed then Err(QueryNotExecuted) else Ok(driver.HasMoreResults())
    }

    method NextResult() returns (r: Result<bool>)
      modifies driver`results
      ensures !executed ==> r == Err(QueryNotExecuted) && driver.results == old(driver.results)
      ensures executed ==> r == FirstAnswer(old(driver.results))
      ensures executed ==> driver.results == if r == Ok(true) then old(driver.results)[1..] else []
    {
      if !executed {
        r := Err(QueryNotExecuted);
      } else {
        r := driver.NextResult();
      }
    }

    /** Asking for results until there are no more. */
    method Drain() returns (r: Result<()>)
      requires executed
      modifies driver`results
      ensures driver.results == [] && HasMoreResults() == Ok(false)
      ensures r.Ok? <==> forall k | 0 <= k < |old(driver.results)| :: old(driver.results)[k]
      ensures r.Err? ==> r.failure == DriverError
    {
      ghost var all := driver.results;
      ghost var read := 0;
      var more := NextResult();
      while more == Ok(true)
        invariant read <= |all| && forall k | 0 <= k < read :: all[k]
        invariant more == FirstAnswer(all[read..])
        invariant driver.results == if more == Ok(true) then all[read + 1..] else []
        decreases |all| - read
      {
        read := read + 1;
        more := NextResult();
      }
      r := if more.Ok? then Ok(()) else Err(more.failure);
    }

    /** What the destructor throws, if anything, with the given number of uncaught exceptions. */
    method Destroy(uncaught: nat) returns (r: Result<()>)
      ensures r == if uncaught <= snapshot && executed && driver.results != [] then Err(LogicError) else Ok(())
      ensures var before := Unwinding.State(uncaught, |driver.results|, [], []);
              r.Err? <==> Unwinding.DestroyQuery(before, snapshot, executed).1.Thrown?
    {
      r := Ok(());
      if !(uncaught > snapshot) {
        if executed && HasMoreResults() == Ok(true) {
          r := Err(LogicError);
        }
      }
    }
  }

  function FirstAnswer(results: seq<bool>): Result<bool> {
    if results == [] then Ok(false) else if results[0] then Ok(true) else Err(DriverError)
  }

  // ---- starting a transaction ----

  datatype IsolationLevel = ReadUncommitted | ReadCommitted | RepeatableRead | Serializable

  datatype TransactionCharacteristics = WithConsistentSnapshot | ReadOnly | ReadWrite

  function LevelText(level: IsolationLevel): string {
    match level
    case ReadUncommitted => "READ UNCOMMITTED"
    case ReadCommitted => "READ COMMITTED"
    case RepeatableRead => "REPEATABLE READ"
    case Serializable => "SERIALIZABLE"
  }

  function CharacteristicsText(characteristics: TransactionCharacteristics): string {
    match characteristics
    case WithConsistentSnapshot => "WITH CONSISTENT SNAPSHOT"
    case ReadOnly => "READ ONLY"
    case ReadWrite => "READ WRITE"
  }

  function StartText(level: Option<IsolationLevel>, characteristics: Option<TransactionCharacteristics>): string {
    match (level, characteristics)
    case (None, None) => "START TRANSACTION"
    case (None, Some(c)) => "START TRANSACTION " + CharacteristicsText(c)
    case (Some(l), None) => "SET TRANSACTION ISOLATION LEVEL " + LevelText(l) + "; START TRANSACTION;"
    case (Some(l), Some(c)) =>
      "SET TRANSACTION ISOLATION LEVEL " + LevelText(l) + "; START TRANSACTION " + CharacteristicsText(c) + ";"
  }

  /** The body of a transaction's constructor. With an isolation level the command is two statements,
      so results are drained; the query then dies without complaint, and the constructor fails exactly
      when the server reports an error for either statement. Without one, the command is a single
      statement; were it answered with further result sets, they would be left and reported. */
  method StartTransaction(driver: Driver, level: Option<IsolationLevel>,
                          characteristics: Option<TransactionCharacteristics>,
                          answer: Result<seq<bool>>, uncaught: nat) returns (r: Result<()>)
    modifies driver
    ensures driver.sent == old(driver.sent) + [StartText(level, characteristics)]
    ensures answer.Err? ==> r == Err(answer.failure)
    ensures answer.Ok? && level.Some? ==>
              driver.results == [] && (r.Ok? <==> forall k | 0 <= k < |answer.value| :: answer.value[k])
    ensures answer.Ok? && level.None? ==>
              driver.results == answer.value && r == if answer.value == [] then Ok(()) else Err(LogicError)
  {
    var query := new Query(driver, StartText(level, characteristics), uncaught);
    r := query.Execute(answer);
    if r.Ok? && level.Some? {
      r := query.Drain();
    }
    var ended := query.Destroy(if r.Err? then uncaught + 1 else uncaught);
    if r.Ok? {
      r := ended;
    }
  }
}
