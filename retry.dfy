/**
 * `withRetry` from `src/utils/error.ts`: call an operation up to `maxRetries`
 * times, give up at once on a validation error, wait between attempts
 * (doubling the wait when backoff is on), and rethrow the last error.
 *
 * The operation is modelled by what its i-th invocation (0-based) yields, so
 * the whole run is determined by the operation and the options. Instead of
 * sleeping, the method returns the list of delays it would have waited.
 */
module Retry {
  import opened Wrappers
  import opened Errors

  datatype RetryOptions = RetryOptions(maxRetries: int, backoff: bool, initialDelay: int)

  /** `Partial<RetryOptions>`: `None` is a key the caller left out. */
  datatype PartialRetryOptions = PartialRetryOptions(maxRetries: Option<int>, backoff: Option<bool>, initialDelay: Option<int>)

  const DEFAULT_OPTIONS := RetryOptions(3, true, 1000)

  /** `{ ...defaultRetryOptions, ...options }`: each given field wins over its default. */
  function MergeOptions(p: PartialRetryOptions): (o: RetryOptions)
    ensures p.maxRetries.Some? ==> o.maxRetries == p.maxRetries.value
    ensures p.maxRetries.None? ==> o.maxRetries == DEFAULT_OPTIONS.maxRetries
    ensures p.backoff.Some? ==> o.backoff == p.backoff.value
    ensures p.backoff.None? ==> o.backoff == DEFAULT_OPTIONS.backoff
    ensures p.initialDelay.Some? ==> o.initialDelay == p.initialDelay.value
    ensures p.initialDelay.None? ==> o.initialDelay == DEFAULT_OPTIONS.initialDelay
  {
    RetryOptions(
      if p.maxRetries.Some? then p.maxRetries.value else DEFAULT_OPTIONS.maxRetries,
      if p.backoff.Some? then p.backoff.value else DEFAULT_OPTIONS.backoff,
      if p.initialDelay.Some? then p.initialDelay.value else DEFAULT_OPTIONS.initialDelay)
  }

  /** Giving every option explicitly overrides every default. */
  lemma MergeGivenOptions(o: RetryOptions)
    ensures MergeOptions(PartialRetryOptions(Some(o.maxRetries), Some(o.backoff), Some(o.initialDelay))) == o
  {
  }

  /** What one invocation of the operation does: resolve with a value or reject with an error. */
  datatype Outcome<+T> = Succeeded(value: T) | Failed(error: Thrown)

  /** How `withRetry` settles: it returns a value or throws. */
  datatype RetryResult<+T> = Returned(value: T) | Rethrown(error: Thrown)

  /** A whole run: how it settled, how many times the operation was invoked, and the delays waited. */
  datatype Trace<+T> = Trace(result: RetryResult<T>, invocations: nat, delays: seq<int>)

  /** An attempt after which no further attempt is made: a success or a validation error. */
  predicate Stops<T>(o: Outcome<T>)
  {
    o.Succeeded? || IsValidation(o.error)
  }

  /** `Math.pow(2, n)`. */
  function Pow2(n: nat): (r: nat)
    ensures r >= 1
  {
    if n == 0 then 1 else 2 * Pow2(n - 1)
  }

  /** The delay waited after the failed attempt with index `attempt`. */
  function Delay(o: RetryOptions, attempt: nat): int
  {
    if o.backoff then o.initialDelay * Pow2(attempt) else o.initialDelay
  }

  /** The delays waited after the first `n` attempts. */
  function Delays(o: RetryOptions, n: nat): (ds: seq<int>)
    ensures |ds| == n
    ensures forall i :: 0 <= i < n ==> ds[i] == Delay(o, i)
  {
    seq(n, i requires 0 <= i < n => Delay(o, i))
  }

  /** The index of the first attempt in `from..n` that stops the retrying, or `n` if none does. */
  function FirstStop<T>(op: nat -> Outcome<T>, from: nat, n: nat): (k: nat)
    requires from <= n
    ensures from <= k <= n
    ensures k < n ==> Stops(op(k))
    ensures forall i :: from <= i < k ==> !Stops(op(i))
    decreases n - from
  {
    if from == n then n
    else if Stops(op(from)) then from
    else FirstStop(op, from + 1, n)
  }

  /** The first stopping attempt is determined by the two properties that define it. */
  lemma FirstStopUnique<T>(op: nat -> Outcome<T>, n: nat, k: nat)
    requires k <= n
    requires k < n ==> Stops(op(k))
    requires forall i :: 0 <= i < k ==> !Stops(op(i))
    ensures FirstStop(op, 0, n) == k
  {
  }

  /**
   * The run of `withRetry`, stated without a loop: attempts go on until the
   * first one that succeeds or fails with a validation error, or until
   * `maxRetries` attempts were made; a delay follows every attempt after which
   * another is made; with no attempt at all, `undefined` is thrown.
   */
  function RetrySpec<T>(op: nat -> Outcome<T>, o: RetryOptions): Trace<T>
  {
    if o.maxRetries <= 0 then Trace(Rethrown(Undefined), 0, [])
    else
      var n := o.maxRetries as nat;
      var k := FirstStop(op, 0, n);
      if k < n then
        Trace(if op(k).Succeeded? then Returned(op(k).value) else Rethrown(op(k).error), k + 1, Delays(o, k))
      else
        Trace(Rethrown(op(n - 1).error), n, Delays(o, n - 1))
  }

  /** `withRetry(operation, options)`. */
  method WithRetry<T>(op: nat -> Outcome<T>, options: PartialRetryOptions)
    returns (result: RetryResult<T>, invocations: nat, delays: seq<int>)
    ensures Trace(result, invocations, delays) == RetrySpec(op, MergeOptions(options))
  {
    var finalOptions := MergeOptions(options);
    var lastError := Undefined;
    invocations, delays := 0, [];
    var attempt: nat := 0;
    while attempt < finalOptions.maxRetries
      invariant attempt == 0 || attempt < finalOptions.maxRetries
      invariant invocations == attempt
      invariant delays == Delays(finalOptions, attempt)
      invariant forall i :: 0 <= i < attempt ==> !Stops(op(i))
      invariant lastError == if attempt == 0 then Undefined else op(attempt - 1).error
      decreases finalOptions.maxRetries - attempt
    {
      var outcome := op(attempt);
      invocations := invocations + 1;
      if outcome.Succeeded? {
        FirstStopUnique(op, finalOptions.maxRetries as nat, attempt);
        return Returned(outcome.value), invocations, delays;
      }
      lastError := outcome.error;
      if IsValidation(outcome.error) {
        FirstStopUnique(op, finalOptions.maxRetries as nat, attempt);
        return Rethrown(outcome.error), invocations, delays;
      }
      if attempt == finalOptions.maxRetries - 1 {
        FirstStopUnique(op, finalOptions.maxRetries as nat, finalOptions.maxRetries as nat);
        return Rethrown(lastError), invocations, delays;
      }
      var delay := if finalOptions.backoff then finalOptions.initialDelay * Pow2(attempt) else finalOptions.initialDelay;
      delays := delays + [delay];
      attempt := attempt + 1;
    }
    result := Rethrown(lastError);
  }

  /** An operation that always fails with a non-validation error is invoked `maxRetries` times; the last error is rethrown. */
  lemma AlwaysFailing<T>(op: nat -> Outcome<T>, o: RetryOptions)
    requires o.maxRetries >= 1
    requires forall i :: 0 <= i < o.maxRetries ==> op(i).Failed? && !IsValidation(op(i).error)
    ensures RetrySpec(op, o) == Trace(Rethrown(op(o.maxRetries - 1).error), o.maxRetries, Delays(o, o.maxRetries - 1))
  {
    FirstStopUnique(op, o.maxRetries as nat, o.maxRetries as nat);
  }

  /** A validation error at attempt `k` is rethrown at once: `k + 1` invocations and no delay after it. */
  lemma ValidationStopsAtOnce<T>(op: nat -> Outcome<T>, o: RetryOptions, k: nat)
    requires k < o.maxRetries
    requires forall i :: 0 <= i < k ==> op(i).Failed? && !IsValidation(op(i).error)
    requires op(k).Failed? && IsValidation(op(k).error)
    ensures RetrySpec(op, o) == Trace(Rethrown(op(k).error), k + 1, Delays(o, k))
  {
    FirstStopUnique(op, o.maxRetries as nat, k);
  }

  /** A success at attempt `k` is returned and the operation is not invoked again. */
  lemma SuccessIsReturned<T>(op: nat -> Outcome<T>, o: RetryOptions, k: nat)
    requires k < o.maxRetries
    requires forall i :: 0 <= i < k ==> op(i).Failed? && !IsValidation(op(i).error)
    requires op(k).Succeeded?
    ensures RetrySpec(op, o) == Trace(Returned(op(k).value), k + 1, Delays(o, k))
    ensures k + 1 <= o.maxRetries
  {
    FirstStopUnique(op, o.maxRetries as nat, k);
  }

  /** With `maxRetries <= 0` the operation is never invoked and `undefined` is thrown. */
  lemma NoAttempts<T>(op: nat -> Outcome<T>, o: RetryOptions)
    requires o.maxRetries <= 0
    ensures RetrySpec(op, o) == Trace(Rethrown(Undefined), 0, [])
  {
  }

  /**
   * Every run: at most `maxRetries` invocations, one delay fewer than
   * invocations, the i-th delay `initialDelay * 2^i` with backoff and
   * `initialDelay` without, and a rethrown non-validation error only when all
   * attempts were used.
   */
  lemma RunShape<T>(op: nat -> Outcome<T>, o: RetryOptions)
    requires o.maxRetries >= 1
    ensures var t := RetrySpec(op, o);
      && 1 <= t.invocations <= o.maxRetries
      && |t.delays| == t.invocations - 1
      && (forall i :: 0 <= i < |t.delays| ==>
            t.delays[i] == if o.backoff then o.initialDelay * Pow2(i) else o.initialDelay)
      && (t.result.Rethrown? && !IsValidation(t.result.error) ==> t.invocations == o.maxRetries)
      && (t.result.Returned? ==> op(t.invocations - 1) == Succeeded(t.result.value))
  {
  }

  /** With backoff each delay is twice the one before; without it all delays are equal. */
  lemma {:induction false} BackoffDoubles(o: RetryOptions, i: nat)
    ensures o.backoff ==> Delay(o, i + 1) == 2 * Delay(o, i)
    ensures !o.backoff ==> Delay(o, i + 1) == Delay(o, i) == o.initialDelay
  {
  }

  /** With every option left out, three attempts are made and the waits are one and then two seconds. */
  lemma DefaultRun<T>(op: nat -> Outcome<T>)
    requires forall i :: 0 <= i < 3 ==> op(i).Failed? && !IsValidation(op(i).error)
    ensures RetrySpec(op, MergeOptions(PartialRetryOptions(None, None, None)))
            == Trace(Rethrown(op(2).error), 3, [1000, 2000])
  {
    var o := MergeOptions(PartialRetryOptions(None, None, None));
    AlwaysFailing(op, o);
    assert Delays(o, 2) == [1000, 2000];
  }
}
