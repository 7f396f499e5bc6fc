/** What one call of `retry(numRetries, function)` produces, as pure functions.

    A run of the retried operation is described by `run: nat -> Result<T, E>`:
    `run(j)` is what the operation returns on the (j+1)-th invocation made by
    this call of `retry`. The loop makes attempts `run(0) .. run(n-1)` and stops
    at the first `Ok`; if none succeeds, the trailing call `run(n)` is made and
    its result is returned as it is.
 */
module RetrySpec {

  /** The `Result<T, Box<dyn Error>>` an invocation returns; `E` stands for the boxed error. */
  datatype Result<T, E> = Ok(value: T) | Err(error: E)

  /** One diagnostic line `Tried <attempt> times, got error: <error>`. */
  datatype Diagnostic<E> = Diagnostic(attempt: nat, error: E)

  /** The number of loop attempts that fail before the loop returns or ends:
      the index of the first `Ok` among `run(0) .. run(n-1)`, or `n` if there is none. */
  function FailedInLoop<T, E>(run: nat -> Result<T, E>, n: nat): (k: nat)
    ensures k <= n
    ensures forall j :: 0 <= j < k ==> run(j).Err?
    ensures k < n ==> run(k).Ok?
  {
    if n == 0 then 0
    else
      var k := FailedInLoop(run, n - 1);
      if k < n - 1 || run(n - 1).Ok? then k else n
  }

  /** How many times the operation is invoked. */
  function Invocations<T, E>(run: nat -> Result<T, E>, n: nat): nat
  {
    FailedInLoop(run, n) + 1
  }

  /** What `retry` returns: the first loop success, or else the trailing call's result. */
  function Outcome<T, E>(run: nat -> Result<T, E>, n: nat): Result<T, E>
  {
    run(FailedInLoop(run, n))
  }

  /** The diagnostics of the first `k` attempts, all of which failed, in order. */
  function Failures<T, E>(run: nat -> Result<T, E>, k: nat): (d: seq<Diagnostic<E>>)
    requires forall j :: 0 <= j < k ==> run(j).Err?
    ensures |d| == k
    ensures forall j :: 0 <= j < k ==> d[j] == Diagnostic(j + 1, run(j).error)
  {
    if k == 0 then [] else Failures(run, k - 1) + [Diagnostic(k, run(k - 1).error)]
  }

  /** The diagnostics `retry` writes: one per failed loop attempt. */
  function Diagnostics<T, E>(run: nat -> Result<T, E>, n: nat): seq<Diagnostic<E>>
  {
    Failures(run, FailedInLoop(run, n))
  }

  /** The loop stops at the first success and nowhere else: any `k` with the
      three properties of `FailedInLoop` is `FailedInLoop`. */
  lemma FailedInLoopUnique<T, E>(run: nat -> Result<T, E>, n: nat, k: nat)
    requires k <= n
    requires forall j :: 0 <= j < k ==> run(j).Err?
    requires k < n ==> run(k).Ok?
    ensures FailedInLoop(run, n) == k
  {
  }

  /** Success on the first invocation: returned at once, one invocation, no diagnostics. */
  lemma FirstTrySucceeds<T, E>(run: nat -> Result<T, E>, n: nat)
    requires n > 0 && run(0).Ok?
    ensures Outcome(run, n) == run(0)
    ensures Invocations(run, n) == 1
    ensures Diagnostics(run, n) == []
  {
  }

  /** The first `k` invocations fail and invocation `k+1` succeeds, with `k <= n`:
      that success is returned after exactly `k+1` invocations and `k` diagnostics. */
  lemma SucceedsAfterFailures<T, E>(run: nat -> Result<T, E>, n: nat, k: nat)
    requires k <= n
    requires forall j :: 0 <= j < k ==> run(j).Err?
    requires run(k).Ok?
    ensures Outcome(run, n) == run(k)
    ensures Invocations(run, n) == k + 1
    ensures |Diagnostics(run, n)| == k
  {
  }

  /** If every loop attempt fails, the trailing call is made and its result is
      returned unchanged, whether `Ok` or `Err`; there are exactly `n`
      diagnostics, none of them for the trailing call. */
  lemma TrailingCallReturned<T, E>(run: nat -> Result<T, E>, n: nat)
    requires forall j :: 0 <= j < n ==> run(j).Err?
    ensures Outcome(run, n) == run(n)
    ensures Invocations(run, n) == n + 1
    ensures |Diagnostics(run, n)| == n
  {
  }

  /** Every invocation fails: `n + 1` invocations, and the error returned is the
      trailing call's, not any loop attempt's. */
  lemma Exhaustion<T, E>(run: nat -> Result<T, E>, n: nat)
    requires forall j :: 0 <= j <= n ==> run(j).Err?
    ensures Invocations(run, n) == n + 1
    ensures Outcome(run, n) == Err(run(n).error)
  {
  }

  /** With a budget of zero the loop never runs: one invocation, no diagnostics,
      and its result is returned. */
  lemma ZeroRetries<T, E>(run: nat -> Result<T, E>)
    ensures Invocations(run, 0) == 1
    ensures Diagnostics(run, 0) == []
    ensures Outcome(run, 0) == run(0)
  {
  }

  /** The budget bounds the work: between one and `n + 1` invocations, and one
      diagnostic fewer than invocations, so at most `n`. */
  lemma InvocationBounds<T, E>(run: nat -> Result<T, E>, n: nat)
    ensures 1 <= Invocations(run, n) <= n + 1
    ensures |Diagnostics(run, n)| == Invocations(run, n) - 1 <= n
  {
  }

  /** Diagnostics are numbered `1, 2, ...` in invocation order and carry the
      error of the attempt they report. */
  lemma DiagnosticsNumbered<T, E>(run: nat -> Result<T, E>, n: nat)
    ensures forall j :: 0 <= j < |Diagnostics(run, n)| ==>
      Diagnostics(run, n)[j].attempt == j + 1 && run(j).Err? &&
      Diagnostics(run, n)[j].error == run(j).error
    ensures forall i, j :: 0 <= i < j < |Diagnostics(run, n)| ==>
      Diagnostics(run, n)[i].attempt < Diagnostics(run, n)[j].attempt
  {
  }

  /** Nothing after the first success is invoked: if some invocation among the
      first `n + 1` succeeds, the number of invocations is the index of the
      first success plus one. */
  lemma StopsAtFirstSuccess<T, E>(run: nat -> Result<T, E>, n: nat, k: nat)
    requires k <= n && run(k).Ok?
    ensures Invocations(run, n) <= k + 1
    ensures run(Invocations(run, n) - 1).Ok?
    ensures forall j :: 0 <= j < Invocations(run, n) - 1 ==> run(j).Err?
  {
  }

  /** `retry` succeeds if and only if one of the first `n + 1` invocations succeeds. */
  lemma SucceedsIff<T, E>(run: nat -> Result<T, E>, n: nat)
    ensures Outcome(run, n).Ok? <==> exists j :: 0 <= j <= n && run(j).Ok?
  {
  }

  /** A larger budget changes nothing once the loop has returned a success. */
  lemma BudgetMonotone<T, E>(run: nat -> Result<T, E>, n: nat, m: nat)
    requires n <= m
    requires FailedInLoop(run, n) < n
    ensures FailedInLoop(run, m) == FailedInLoop(run, n)
  {
  }
}
