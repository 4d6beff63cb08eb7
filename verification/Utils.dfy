/** The attempt loop of utils.go, for any retried function. */
module Utils {

  function Min(a: int, b: int): int { if a <= b then a else b }
  function Max(a: int, b: int): int { if a >= b then a else b }

  /** What one call of the retried function returns: whether it may be called again,
      and whether its error is nil. */
  datatype Verdict = Verdict(again: bool, ok: bool)

  /** Every call before call n failed and asked for another. */
  predicate Failing(fn: nat -> Verdict, n: nat) {
    forall k: nat :: 1 <= k < n ==> fn(k).again && !fn(k).ok
  }

  lemma FailingNext(fn: nat -> Verdict, n: nat)
    requires 1 <= n && Failing(fn, n)
    ensures Failing(fn, 1) && (fn(n).again && !fn(n).ok ==> Failing(fn, n + 1))
  {
  }

  lemma FailingAt(fn: nat -> Verdict, n: nat, k: nat)
    requires Failing(fn, n) && 1 <= k < n
    ensures fn(k).again && !fn(k).ok
  {
  }

  /** The loop called fn(1), ..., fn(calls) and no more: every call before the last
      failed and asked for another, and it stopped short of maxRetries only because
      the last one succeeded or asked for no other.  Its error is nil exactly when
      the last call's is. */
  predicate Attempted(fn: nat -> Verdict, maxRetries: int, calls: nat, ok: bool) {
    && (calls == 0 || calls <= maxRetries)
    && Failing(fn, calls)
    && (calls < maxRetries ==> calls > 0 && (fn(calls).ok || !fn(calls).again))
    && ok == (calls > 0 && fn(calls).ok)
  }

  /** How the loop ends: out of budget, or with the verdict of its last call. */
  lemma OutOfBudget(fn: nat -> Verdict, maxRetries: int, calls: nat)
    requires Failing(fn, calls + 1) && (calls == 0 || calls <= maxRetries) && calls >= maxRetries
    ensures Attempted(fn, maxRetries, calls, false)
  {
  }

  lemma LastCall(fn: nat -> Verdict, maxRetries: int, calls: nat)
    requires Failing(fn, calls) && 1 <= calls <= maxRetries && (fn(calls).ok || !fn(calls).again)
    ensures Attempted(fn, maxRetries, calls, fn(calls).ok)
  {
  }

  method Retry(fn: nat -> Verdict, maxRetries: int) returns (calls: nat, ok: bool)
    ensures Attempted(fn, maxRetries, calls, ok)
  {
    var attempt: nat := 1;
    while true
      invariant 1 <= attempt && (attempt == 1 || attempt - 1 <= maxRetries)
      invariant Failing(fn, attempt)
      decreases maxRetries - attempt
    {
      if attempt > maxRetries {
        return attempt - 1, false;
      }
      var verdict := fn(attempt);
      if !verdict.again || verdict.ok {
        return attempt, verdict.ok;
      }
      attempt := attempt + 1;
    }
  }

  /** The number of calls and the error are determined. */
  lemma AttemptedOnce(fn: nat -> Verdict, maxRetries: int, calls: nat, ok: bool, calls': nat, ok': bool)
    requires Attempted(fn, maxRetries, calls, ok) && Attempted(fn, maxRetries, calls', ok')
    ensures calls == calls' && ok == ok'
  {
    assert calls >= calls';
  }

  /** Retry succeeds exactly when some call within the budget does and every call
      before it asks for another. */
  lemma SucceedsExactlyWhen(fn: nat -> Verdict, maxRetries: int, calls: nat, ok: bool)
    requires Attempted(fn, maxRetries, calls, ok)
    ensures ok <==> exists k: nat :: 1 <= k <= maxRetries && fn(k).ok && forall j: nat :: 1 <= j < k ==> fn(j).again
  {
    if k: nat :| 1 <= k <= maxRetries && fn(k).ok && forall j: nat :: 1 <= j < k ==> fn(j).again {
      assert !ok ==> calls < k;
    }
  }
}
