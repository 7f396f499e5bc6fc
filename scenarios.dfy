/** The scenarios of the crate's doctest and unit tests (src/lib.rs:19-33 and
    src/lib.rs:55-102), each run through `Retry` with a fresh operation and a
    fresh console, with what each returns, invokes and reports. */
module Scenarios {
  import opened RetrySpec
  import opened Resilience

  /** The error of `format!("Failed on attempt {}", count).into()`. */
  datatype AttemptError = FailedOnAttempt(count: nat)

  /** A closure over `count` that increments it, fails while `count < limit`
      and otherwise returns `Ok(count)`: invocation `c` (from 0) sees `count == c + 1`. */
  function CountingScript(limit: nat): nat -> Result<nat, AttemptError>
  {
    (c: nat) => if c + 1 < limit then Err(FailedOnAttempt(c + 1)) else Ok(c + 1)
  }

  /** `retry(3, || Ok(count))` with `count == 1` returns `Ok(1)` at once. */
  method SuccessOnFirstTry() returns (r: Result<nat, string>, calls: nat, lines: seq<Diagnostic<string>>)
    ensures r == Ok(1) && calls == 1 && lines == []
  {
    var op := new Operation((c: nat) => Ok(1));
    var stdout := new Console();
    ghost var run := op.Upcoming();
    r := Retry(3, op, stdout);
    FirstTrySucceeds(run, 3);
    calls, lines := op.calls, stdout.lines;
  }

  /** `retry(3, || Err("Always fail"))` returns that error after four
      invocations, reporting the three loop attempts. */
  method AlwaysFail() returns (r: Result<nat, string>, calls: nat, lines: seq<Diagnostic<string>>)
    ensures r == Err("Always fail") && calls == 4
    ensures lines == [Diagnostic(1, "Always fail"), Diagnostic(2, "Always fail"), Diagnostic(3, "Always fail")]
  {
    var op := new Operation((c: nat) => Err("Always fail"));
    var stdout := new Console();
    ghost var run := op.Upcoming();
    r := Retry(3, op, stdout);
    Exhaustion(run, 3);
    DiagnosticsNumbered(run, 3);
    calls, lines := op.calls, stdout.lines;
  }

  /** `retry(5, f)` with `f` failing while `count < 4` returns `Ok(4)` on the
      fourth invocation, after three diagnostics. */
  method SuccessAfterRetries() returns (r: Result<nat, AttemptError>, calls: nat, lines: seq<Diagnostic<AttemptError>>)
    ensures r == Ok(4) && calls == 4
    ensures lines == [Diagnostic(1, FailedOnAttempt(1)), Diagnostic(2, FailedOnAttempt(2)), Diagnostic(3, FailedOnAttempt(3))]
  {
    var op := new Operation(CountingScript(4));
    var stdout := new Console();
    ghost var run := op.Upcoming();
    r := Retry(5, op, stdout);
    SucceedsAfterFailures(run, 5, 3);
    DiagnosticsNumbered(run, 5);
    calls, lines := op.calls, stdout.lines;
  }

  /** The doctest: `retry(5, f)` with `f` failing with `"Failed"` while
      `count < 4` returns `Ok(4)` on the fourth invocation, after three diagnostics. */
  method Doctest() returns (r: Result<nat, string>, calls: nat, lines: seq<Diagnostic<string>>)
    ensures r == Ok(4) && calls == 4
    ensures lines == [Diagnostic(1, "Failed"), Diagnostic(2, "Failed"), Diagnostic(3, "Failed")]
  {
    var op := new Operation((c: nat) => if c + 1 < 4 then Err("Failed") else Ok(c + 1));
    var stdout := new Console();
    ghost var run := op.Upcoming();
    r := Retry(5, op, stdout);
    SucceedsAfterFailures(run, 5, 3);
    DiagnosticsNumbered(run, 5);
    calls, lines := op.calls, stdout.lines;
  }

  /** `retry(5, f)` with `f` failing while `count < 5` returns `Ok(5)` on the
      fifth invocation, still inside the loop, after four diagnostics; the
      trailing call is never made. */
  method BarelySucceeds() returns (r: Result<nat, AttemptError>, calls: nat, lines: seq<Diagnostic<AttemptError>>)
    ensures r == Ok(5) && calls == 5
    ensures lines == [Diagnostic(1, FailedOnAttempt(1)), Diagnostic(2, FailedOnAttempt(2)),
                      Diagnostic(3, FailedOnAttempt(3)), Diagnostic(4, FailedOnAttempt(4))]
  {
    var op := new Operation(CountingScript(5));
    var stdout := new Console();
    ghost var run := op.Upcoming();
    r := Retry(5, op, stdout);
    SucceedsAfterFailures(run, 5, 4);
    DiagnosticsNumbered(run, 5);
    calls, lines := op.calls, stdout.lines;
  }

  /** With one more failure (`count < 6`) the budget of five is used up and the
      trailing sixth invocation's `Ok(6)` is returned, after five diagnostics. */
  method TrailingSuccess() returns (r: Result<nat, AttemptError>, calls: nat, lines: seq<Diagnostic<AttemptError>>)
    ensures r == Ok(6) && calls == 6 && |lines| == 5
  {
    var op := new Operation(CountingScript(6));
    var stdout := new Console();
    ghost var run := op.Upcoming();
    r := Retry(5, op, stdout);
    TrailingCallReturned(run, 5);
    calls, lines := op.calls, stdout.lines;
  }
}
