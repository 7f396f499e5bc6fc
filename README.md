# resilience: a verified model of `retry`

The `resilience` crate has one function, `retry(num_retries, function)`
(src/lib.rs:34-48). It calls a fallible, stateful operation up to
`num_retries` times in a `for` loop and returns the first `Ok` at once. After
each failed loop attempt it prints `Tried <i+1> times, got error: <e>`. If every
loop attempt fails, it calls the operation one more time and returns that
result unchanged, printing nothing for it.

The model has three modules:

- `RetrySpec` (retry_spec.dfy): the `Result` and `Diagnostic` datatypes and pure
  functions that say what one call of `retry` produces for a given run of the
  operation. `run(j)` is the result of the (j+1)-th invocation. `FailedInLoop(run, n)`
  is the number of loop attempts that fail: the index of the first `Ok` among
  `run(0) .. run(n-1)`, or `n` when there is none. From it follow the outcome
  (`run(FailedInLoop)`), the number of invocations (`FailedInLoop + 1`) and
  the diagnostics (one per failed loop attempt). Lemmas prove the behaviour the
  crate promises from these definitions.
- `Resilience` (retry.dfy): the imperative model. `Operation` is the `FnMut`
  closure: a scripted answer per invocation and a call counter that each
  `Invoke` increments, as the counter-capturing closures of the tests do.
  Its abstract value, `Upcoming()`, is the run that a call of `retry` made now
  would see: the script shifted past the calls already made.
  `Console` is standard output, seen as the list of diagnostics printed.
  `Retry` is the `for` loop (a `while` loop with invariants) with its early
  return and trailing call. Its postcondition ties the result, the new call
  counter and the new output to the functions of `RetrySpec`.
- `Scenarios` (scenarios.dfy): the doctest and the four unit tests, each run
  through `Retry` with its own closure and error values, with the exact result,
  invocation count and output proved.

The effective budget is `num_retries + 1` invocations: `num_retries` in the
loop plus the trailing call (src/lib.rs:38 and src/lib.rs:47). The argument's
doc at src/lib.rs:14 (the number of times to *retry*, after a first try)
matches this. The doc comment at src/lib.rs:8 ("Executes a provided function
up to `num_retries` times") does not: the code makes up to `num_retries + 1`
calls. The model reproduces the code exactly (`Exhaustion`, `InvocationBounds`).

In the boundary test `test_barely_succeeds` (src/lib.rs:90-101) the closure
fails while `count < 5`, so the fifth invocation returns `Ok(5)`. That
invocation is loop iteration `i = 4 < 5`, so it comes after four diagnostics,
and the trailing call is never made (`Scenarios.BarelySucceeds`). A
trailing-call success is shown separately (`Scenarios.TrailingSuccess`).

## Model

| member | source | states |
|---|---|---|
| RetrySpec.FailedInLoop | src/lib.rs:38-45 | the loop stops at the first success: the count is at most the budget, every earlier attempt failed, and a count below the budget lands on an `Ok` |
| RetrySpec.Failures | src/lib.rs:41-43 | the diagnostics of `k` failed attempts are exactly `k` lines, line `j` carries attempt number `j+1` and attempt `j`'s error |
| RetrySpec.FailedInLoopUnique | src/lib.rs:38-40 | the stopping point is determined: any index with the first-success properties is the one the loop stops at |
| RetrySpec.FirstTrySucceeds | src/lib.rs:38-40 | a first-invocation success is returned after exactly one invocation and no diagnostics |
| RetrySpec.SucceedsAfterFailures | src/lib.rs:38-47 | if the first `k <= n` invocations fail and the next succeeds, that success is returned after `k+1` invocations and `k` diagnostics |
| RetrySpec.TrailingCallReturned | src/lib.rs:38-47 | when all `n` loop attempts fail, the trailing call's result is returned unchanged (`Ok` or `Err`) after `n+1` invocations and exactly `n` diagnostics |
| RetrySpec.Exhaustion | src/lib.rs:38-47 | when every invocation fails, there are `n+1` invocations and the error returned is the trailing call's |
| RetrySpec.ZeroRetries | src/lib.rs:38-47 | with `num_retries = 0`: one invocation, no diagnostics, its result returned |
| RetrySpec.InvocationBounds | src/lib.rs:38-47 | between 1 and `n+1` invocations; diagnostics are one fewer than invocations, so none for the trailing call and at most `n` |
| RetrySpec.DiagnosticsNumbered | src/lib.rs:38-44 | diagnostics carry the 1-based attempt numbers `1, 2, ...`, strictly increasing, each with the error of a failed attempt |
| RetrySpec.StopsAtFirstSuccess | src/lib.rs:39-40 | if some invocation within the budget succeeds, the last invocation made is the first success and nothing after it is invoked |
| RetrySpec.SucceedsIff | src/lib.rs:38-47 | `retry` returns `Ok` if and only if one of the first `n+1` invocations succeeds |
| RetrySpec.BudgetMonotone | src/lib.rs:38-40 | once the loop returns a success, a larger budget gives the same number of invocations |
| Resilience.Operation.constructor | src/lib.rs:36 | a new operation has made no invocations |
| Resilience.Operation.Invoke | src/lib.rs:39 | one invocation returns the next scripted result and advances the call counter by one |
| Resilience.Console.Report | src/lib.rs:42 | a failed loop attempt appends one diagnostic with its attempt number and error |
| Resilience.Retry | src/lib.rs:34-48 | the result, the operation's new call count and the new output equal the outcome, invocation count and diagnostics of the specification |
| Scenarios.SuccessOnFirstTry | src/lib.rs:56-62 | `retry(3, || Ok(1))` returns `Ok(1)` after one invocation and no output |
| Scenarios.AlwaysFail | src/lib.rs:65-70 | `retry(3, always Err)` returns `Err("Always fail")` after four invocations and three numbered diagnostics |
| Scenarios.SuccessAfterRetries | src/lib.rs:74-86 | failing while `count < 4` with budget 5 returns `Ok(4)` after four invocations and diagnostics `FailedOnAttempt(1)` to `FailedOnAttempt(3)` for attempts 1 to 3 |
| Scenarios.Doctest | src/lib.rs:19-33 | the doctest's closure, failing with `"Failed"` while `count < 4`, with budget 5 returns `Ok(4)` after four invocations and three `"Failed"` diagnostics numbered 1 to 3 |
| Scenarios.BarelySucceeds | src/lib.rs:90-101 | failing while `count < 5` with budget 5 returns `Ok(5)` from the fifth invocation, inside the loop, after diagnostics for attempts 1 to 4 |
| Scenarios.TrailingSuccess | src/lib.rs:38-47 | failing while `count < 6` with budget 5 returns the trailing sixth call's `Ok(6)` after five diagnostics |

## Left out

- The text of each diagnostic line and the `{:?}` formatting of the error (src/lib.rs:42). Printing to stdout is modelled as appending `Diagnostic(attempt, error)` to `Console.lines`.
- `Box<dyn std::error::Error>` and the `.into()` conversions in the tests. The error is a type parameter `E`. The tests' formatted messages are the datatype `FailedOnAttempt(count)`, and `"Always fail"` and the doctest's `"Failed"` are strings.
- General `FnMut` state. An operation is modelled by what it answers on each invocation (`script`) and its call counter. Nothing else about a closure's captured state is modelled.
- `u32` width of `num_retries`. It is a `nat`, and `i + 1` cannot overflow because `i < num_retries`.
- The crate attributes and test-module scaffolding (src/lib.rs:1-4, src/lib.rs:50-53).
- Panics. A panic inside `function()` unwinds through `retry`, and `println!` panics if writing to stdout fails (src/lib.rs:42). The model's invocations and reports always return.
