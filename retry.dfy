/**
  The bounded retry wrapper: call a fallible operation, and on failure call
  it again until the attempt count passes the container's retry budget.
 */
module Retries {
  import opened Types

  /** What a retried call returns, and how many times it invoked the operation. */
  datatype Outcome = Outcome(err: Option<Error>, invocations: nat)

  /** `retry(do, count, lasterror)` with budget `retryCount`. The operation is
      `op`: `op(k)` is what its (k+1)-th invocation returns, `None` for
      success; `done` is how many invocations happened before this call. */
  function Retry(retryCount: int, op: nat -> Option<Error>, count: int, lastError: Option<Error>, done: nat): (r: Outcome)
    decreases if count > retryCount then 0 else retryCount - count + 1
  {
    if count > retryCount then
      Outcome(Some(RetryExceeded(retryCount, lastError)), done)
    else
      match op(done)
      case None => Outcome(None, done + 1)
      case Some(err) =>
        if retryCount == 0 then Outcome(Some(err), done + 1)
        else Retry(retryCount, op, count + 1, Some(err), done + 1)
  }

  /** The operation fails on every invocation numbered lo up to (not including) hi. */
  ghost predicate FailsBetween(op: nat -> Option<Error>, lo: nat, hi: nat) {
    forall i :: lo <= i < hi ==> op(i).Some?
  }

  /** A budget already exceeded (a negative budget at count 0, for one) never
      invokes the operation and reports the error it was handed. */
  lemma ExceededBudgetNeverInvokes(retryCount: int, op: nat -> Option<Error>, count: int, lastError: Option<Error>, done: nat)
    requires count > retryCount
    ensures Retry(retryCount, op, count, lastError, done) == Outcome(Some(RetryExceeded(retryCount, lastError)), done)
  {
  }

  /** With budget 0, a failing operation is invoked once and its own error is
      returned unchanged. */
  lemma ZeroBudgetReturnsRawError(op: nat -> Option<Error>)
    requires op(0).Some?
    ensures Retry(0, op, 0, None, 0) == Outcome(op(0), 1)
  {
  }

  /** A success ends the retry at once: nil, and no further invocation. */
  lemma SuccessStopsRetry(retryCount: int, op: nat -> Option<Error>, count: int, lastError: Option<Error>, done: nat)
    requires count <= retryCount && op(done).None?
    ensures Retry(retryCount, op, count, lastError, done) == Outcome(None, done + 1)
  {
  }

  /** From attempt `j` (with `j` invocations done), an operation that fails up
      to invocation `k` and then succeeds is invoked until `k` and yields nil. */
  lemma {:induction false} EventualSuccessFrom(n: int, op: nat -> Option<Error>, j: nat, lastError: Option<Error>, k: nat)
    requires n > 0 && j <= k <= n
    requires FailsBetween(op, j, k) && op(k).None?
    ensures Retry(n, op, j, lastError, j) == Outcome(None, k + 1)
    decreases k - j
  {
    if j < k {
      assert op(j).Some?;
      EventualSuccessFrom(n, op, j + 1, op(j), k);
    }
  }

  /** Budget N > 0: an operation that fails K <= N times and then succeeds is
      invoked exactly K+1 times and the retry returns nil. */
  lemma EventualSuccess(n: int, op: nat -> Option<Error>, k: nat)
    requires n > 0 && k <= n
    requires FailsBetween(op, 0, k) && op(k).None?
    ensures Retry(n, op, 0, None, 0) == Outcome(None, k + 1)
  {
    EventualSuccessFrom(n, op, 0, None, k);
  }

  lemma {:induction false} ExhaustionFrom(n: int, op: nat -> Option<Error>, j: nat, lastError: Option<Error>)
    requires n > 0 && j <= n
    requires FailsBetween(op, j, n + 1)
    ensures Retry(n, op, j, lastError, j) == Outcome(Some(RetryExceeded(n, op(n))), n + 1)
    decreases n - j
  {
    if j < n {
      ExhaustionFrom(n, op, j + 1, op(j));
    }
  }

  /** Budget N > 0: an operation that always fails is invoked exactly N+1 times,
      and the error carries the budget and the error of the last invocation. */
  lemma Exhaustion(n: int, op: nat -> Option<Error>)
    requires n > 0
    requires FailsBetween(op, 0, n + 1)
    ensures Retry(n, op, 0, None, 0) == Outcome(Some(RetryExceeded(n, op(n))), n + 1)
  {
    ExhaustionFrom(n, op, 0, None);
  }

  /** Whatever the operation does: the retry returns nil exactly when its last
      invocation succeeded, every invocation before that one failed, and it
      never makes more than `retryCount - count + 1` invocations. */
  lemma {:induction false} RetryCharacterization(retryCount: int, op: nat -> Option<Error>, count: int, lastError: Option<Error>, done: nat)
    ensures var r := Retry(retryCount, op, count, lastError, done);
      && done <= r.invocations
      && (count <= retryCount ==> r.invocations <= done + (retryCount - count + 1))
      && (r.invocations > done ==> FailsBetween(op, done, r.invocations - 1))
      && (r.err.None? <==> r.invocations > done && op(r.invocations - 1).None?)
    decreases if count > retryCount then 0 else retryCount - count + 1
  {
    var r := Retry(retryCount, op, count, lastError, done);
    if count <= retryCount && op(done).Some? && retryCount != 0 {
      RetryCharacterization(retryCount, op, count + 1, op(done), done + 1);
    }
  }
}
