/**
 * The database decorators of python-decorators-0x01/3-retry_on_failure.py:
 * `retry_on_failure` calls the wrapped function until it returns, retrying
 * only on `sqlite3.OperationalError` and at most `retries` times, and
 * `with_db_connection` opens a connection and closes it however the call ends.
 * The outcome of the k-th call (counting from 0) is given as `call(k)`; the
 * delay between attempts is counted rather than slept.
 */
module Retry {
  import opened Wrappers

  /** How one call of the wrapped function ends. */
  datatype Outcome<T> = Returned(value: T) | OperationalError(message: string) | OtherError(message: string)

  /**
   * A reference definition of the retry: the outcome of attempts `k`, `k + 1`,
   * ... with `remaining` attempts left, moving on only past an OperationalError
   * that is not the last attempt's.
   */
  function Attempts<T>(remaining: nat, k: nat, call: nat -> Outcome<T>): Option<Outcome<T>>
    decreases remaining
  {
    if remaining == 0 then None
    else if call(k).OperationalError? && remaining > 1 then Attempts(remaining - 1, k + 1, call)
    else Some(call(k))
  }

  function RetryOutcome<T>(retries: int, call: nat -> Outcome<T>): Option<Outcome<T>>
  {
    if retries <= 0 then None else Attempts(retries, 0, call)
  }

  lemma {:induction false} AttemptsReachSuccess<T>(remaining: nat, first: nat, k: nat, call: nat -> Outcome<T>)
    requires first <= k < first + remaining
    requires forall j | first <= j < k :: call(j).OperationalError?
    requires call(k).Returned?
    ensures Attempts(remaining, first, call) == Some(call(k))
    decreases remaining
  {
    if first < k {
      AttemptsReachSuccess(remaining - 1, first + 1, k, call);
    }
  }

  /**
   * If the first `k` calls fail with OperationalError and call `k` returns,
   * within the allowed attempts, the wrapper returns that value.
   */
  lemma RetryReturnsFirstSuccess<T>(retries: int, call: nat -> Outcome<T>, k: nat)
    requires k < retries
    requires forall j | 0 <= j < k :: call(j).OperationalError?
    requires call(k).Returned?
    ensures RetryOutcome(retries, call) == Some(call(k))
  {
    AttemptsReachSuccess(retries, 0, k, call);
  }

  /**
   * `retry_on_failure(retries)` applied to a function: `result` is the outcome
   * of the last call made (its value returned, or its exception raised), or
   * `None` when no call is made and the wrapper falls through returning None.
   */
  method RetryOnFailure<T>(retries: int, call: nat -> Outcome<T>) returns (result: Option<Outcome<T>>, calls: nat, sleeps: nat)
    ensures result == RetryOutcome(retries, call)
    ensures retries <= 0 ==> result == None && calls == 0 && sleeps == 0
    ensures retries > 0 ==> result.Some? && 1 <= calls <= retries && result.value == call(calls - 1)
    ensures retries > 0 ==> sleeps == calls - 1
    ensures forall k | 0 <= k < calls - 1 :: call(k).OperationalError?
    ensures result.Some? && result.value.OperationalError? ==> calls == retries
  {
    result := None;
    calls := 0;
    sleeps := 0;
    var attempt := 1;
    while attempt <= retries
      invariant 1 <= attempt
      invariant retries > 0 ==> attempt <= retries
      invariant retries <= 0 ==> attempt == 1
      invariant retries > 0 ==> calls < retries && RetryOutcome(retries, call) == Attempts(retries - calls, calls, call)
      invariant calls == attempt - 1
      invariant sleeps == calls
      invariant result == None
      invariant forall k | 0 <= k < calls :: call(k).OperationalError?
      decreases retries - attempt
    {
      var outcome := call(calls);
      calls := calls + 1;
      if !outcome.OperationalError? {
        return Some(outcome), calls, sleeps;
      }
      if attempt == retries {
        return Some(outcome), calls, sleeps;
      }
      sleeps := sleeps + 1;
      attempt := attempt + 1;
    }
  }

  /** An open or closed database connection. */
  class Connection {
    var isOpen: bool

    /** `sqlite3.connect(...)` */
    constructor Open()
      ensures isOpen
    {
      isOpen := true;
    }

    /** `conn.close()` */
    method Close()
      modifies this
      ensures !isOpen
    {
      isOpen := false;
    }
  }

  /**
   * `with_db_connection` around `retry_on_failure` (the decorated
   * `fetch_users_with_retry`): a fresh connection is opened, the retrying call
   * runs, and the connection is closed whether that call returns or raises.
   */
  method FetchWithRetry<T>(retries: int, call: nat -> Outcome<T>) returns (result: Option<Outcome<T>>, conn: Connection)
    ensures fresh(conn) && !conn.isOpen
    ensures result == RetryOutcome(retries, call)
  {
    conn := new Connection.Open();
    var calls, sleeps;
    result, calls, sleeps := RetryOnFailure(retries, call);
    conn.Close();
  }
}
