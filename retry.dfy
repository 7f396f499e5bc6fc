/** The `retry` function of src/lib.rs and the state it touches: the retried
    operation, which counts its own invocations (an `FnMut` closure over a
    counter), and standard output, where each failed loop attempt is reported. */
module Resilience {
  import opened RetrySpec

  /** A retried operation. `script(c)` is what the operation returns when it is
      invoked for the (c+1)-th time ever; `calls` counts the invocations so far. */
  class Operation<T, E> {
    const script: nat -> Result<T, E>
    var calls: nat

    constructor (script: nat -> Result<T, E>)
      ensures this.script == script && calls == 0
    {
      this.script := script;
      calls := 0;
    }

    /** The run `retry` sees when it starts now: the results of the coming invocations. */
    function Upcoming(): (run: nat -> Result<T, E>)
      reads this
      ensures forall j: nat :: run(j) == script(calls + j)
    {
      var c := calls;
      (j: nat) => script(c + j)
    }

    /** One invocation of the operation: answers the next scripted result. */
    method Invoke() returns (r: Result<T, E>)
      modifies this
      ensures r == script(old(calls))
      ensures calls == old(calls) + 1
    {
      r := script(calls);
      calls := calls + 1;
    }
  }

  /** Standard output, seen as the list of diagnostic lines written to it. */
  class Console<E> {
    var lines: seq<Diagnostic<E>>

    constructor ()
      ensures lines == []
    {
      lines := [];
    }

    /** `println!("Tried {} times, got error: {:?}", attempt, error)`. */
    method Report(attempt: nat, error: E)
      modifies this
      ensures lines == old(lines) + [Diagnostic(attempt, error)]
    {
      lines := lines + [Diagnostic(attempt, error)];
    }
  }

  /** Invoke `op` up to `numRetries` times in a loop, returning the first `Ok`
      and reporting each failure with its 1-based attempt number; if all loop
      attempts fail, invoke `op` once more and return that result unchanged. */
  method Retry<T, E>(numRetries: nat, op: Operation<T, E>, stdout: Console<E>) returns (r: Result<T, E>)
    modifies op, stdout
    ensures var run := old(op.Upcoming());
      && r == Outcome(run, numRetries)
      && op.calls == old(op.calls) + Invocations(run, numRetries)
      && stdout.lines == old(stdout.lines) + Diagnostics(run, numRetries)
  {
    ghost var run := op.Upcoming();
    ghost var calls0 := op.calls;
    ghost var lines0 := stdout.lines;
    var i := 0;
    while i < numRetries
      invariant 0 <= i <= numRetries
      invariant op.calls == calls0 + i
      invariant forall j :: 0 <= j < i ==> run(j).Err?
      invariant stdout.lines == lines0 + Failures(run, i)
    {
      var res := op.Invoke();
      assert res == run(i);
      match res {
        case Ok(v) =>
          FailedInLoopUnique(run, numRetries, i);
          return Ok(v);
        case Err(e) =>
          stdout.Report(i + 1, e);
      }
      i := i + 1;
    }
    r := op.Invoke();
    assert r == run(numRetries);
    FailedInLoopUnique(run, numRetries, numRetries);
  }
}
