/**
 * The retry pattern shared by the LLM and search helpers: attempt number `k` (0, 1, ...)
 * either raises or produces a value; the helper returns the value of the first attempt
 * that does not raise, and gives up after `max_retries` attempts.
 * Attempts are an oracle indexed by attempt number, so a retry may answer differently.
 */
module Retry {
  import opened Wrappers

  datatype Attempt<+T> = Failed | Succeeded(value: T)

  /** The value of the first successful attempt among `from`, ..., `n - 1`, if any. */
  function FirstSuccess<T>(attempts: nat -> Attempt<T>, from: nat, n: int): Option<T>
    decreases n - from
  {
    if from >= n then None
    else match attempts(from)
      case Succeeded(v) => Some(v)
      case Failed => FirstSuccess(attempts, from + 1, n)
  }

  /** `FirstSuccess` is empty exactly when every attempt fails, and otherwise is the first success. */
  lemma {:induction false} FirstSuccessSpec<T>(attempts: nat -> Attempt<T>, from: nat, n: int)
    ensures FirstSuccess(attempts, from, n).None? <==> forall k :: from <= k < n ==> attempts(k).Failed?
    ensures forall k ::
      (from <= k < n && attempts(k).Succeeded? && forall j :: from <= j < k ==> attempts(j).Failed?) ==>
        FirstSuccess(attempts, from, n) == Some(attempts(k).value)
    decreases n - from
  {
    if from < n {
      FirstSuccessSpec(attempts, from + 1, n);
      forall k | from <= k < n && attempts(k).Succeeded? &&
        (forall j :: from <= j < k ==> attempts(j).Failed?)
        ensures FirstSuccess(attempts, from, n) == Some(attempts(k).value)
      {
        if k > from {
          assert attempts(from).Failed?;
        }
      }
    }
  }

  /** Only the attempts below `n` matter: at most `n` attempts are ever made. */
  lemma {:induction false} FirstSuccessBounded<T>(a: nat -> Attempt<T>, b: nat -> Attempt<T>, from: nat, n: int)
    requires forall k :: from <= k < n ==> a(k) == b(k)
    ensures FirstSuccess(a, from, n) == FirstSuccess(b, from, n)
    decreases n - from
  {
    if from < n {
      FirstSuccessBounded(a, b, from + 1, n);
    }
  }

  /** Attempts raise independently: a first success found early stays the first success. */
  lemma {:induction false} FirstSuccessStep<T>(attempts: nat -> Attempt<T>, from: nat, k: nat, n: int)
    requires from <= k < n
    requires forall j :: from <= j < k ==> attempts(j).Failed?
    ensures FirstSuccess(attempts, from, n) == FirstSuccess(attempts, k, n)
    decreases k - from
  {
    if from < k {
      FirstSuccessStep(attempts, from + 1, k, n);
    }
  }
}
