# Python runtime outcome classification

A model of the execution backend of a "run this snippet" server. The Python
runtime builds the command line `python3 -c <code>`, starts the child process
under the caller's cancellable context, waits for it, and reports three values:
the compiler (launch) exit code, the program exit code and an error. This project
models the command line and the decision that turns what `Start`, `Wait` and
`ctx.Err()` returned into that report, and proves what the report means.

- `exec.dfy` (module `Exec`): the observations, as values — the Go errors the
  runtime sees (`context.DeadlineExceeded`, `context.Canceled`, `*exec.ExitError`
  with its `Exited()` and `ExitCode()`, any other error), the results of `Start`
  and `Wait`, the context state, and the `os/exec` guarantees about those results:
  `WellFormedStart` (a launch error is never an `ExitError`) and `WellFormedWait`
  (a normal exit reported as an `ExitError` has a positive code, which the runtime
  reports unchecked; a killed process has code -1, which the runtime never reads
  but which is part of the error it returns for that process).
- `runtime.dfy` (module `Runtime`): `Command`, `CompileAndRun` written branch for
  branch as the runtime does it, and the outcome taxonomy (`Outcome`: exit,
  timeout, termination, launch failure, other wait failure) with `Classify`,
  its encoding `Encode` into a report and the partial inverse `Decode`.

Three choices of the code stand out against the outcome taxonomy of `Outcome` and
`Classify`, and against the promise of runtime.go:11-12 that the three values
report the compiler's exit code, the program's exit code and any error:

- A failed wait past the deadline, with no normal exit, could be read as a
  timeout. The code does so only when the wait error is an `ExitError`; any other
  wait failure is reported as `(0, -1, err)` even past the deadline
  (`OtherWaitFailureKeepsLaunchCode`).
- A process ended by a plain cancellation of the context is reported as
  terminated, with the wait's own error and not `context.Canceled`
  (`AbnormalExitOtherwiseReportsWaitError`).
- The three values do not always tell the outcome. `Start` returns the context's
  error when the context is already done, so a launch refused after the deadline
  yields `(-1, -1, DeadlineExceeded)`, the same report as a timeout
  (`LateLaunchReadsAsTimeout`). For every other start result `os/exec` can return,
  the report determines the outcome (`ReportDeterminesOutcome`).

## Model

| member | source | states |
|---|---|---|
| Runtime.Command | runtime.go:29 | the child's command line starts with `python3` and carries the snippet verbatim as the single argument of `-c` |
| Runtime.CommandInjective | runtime.go:29 | distinct snippets give distinct command lines, and equal command lines come from equal snippets |
| Runtime.CompileAndRun | runtime.go:28-57 | the compiler code is 0 or -1; an error forces program code -1; compiler code -1 comes with an error; the error is absent exactly when the process started and exited normally, and then the program code is its exit status |
| Runtime.StartFailureReported | runtime.go:31-33 | a failed start gives `(-1, -1, thatError)` whatever the wait or the context |
| Runtime.CleanExitReported | runtime.go:37-56 | a successful wait gives `(0, 0, nil)` in every context state |
| Runtime.NormalExitIsNotAnError | runtime.go:38-43 | an `ExitError` with `Exited()` gives `(0, code, nil)` in every context state, so a normal exit takes precedence over an expired deadline |
| Runtime.AbnormalExitPastDeadlineIsTimeout | runtime.go:43-45 | an `ExitError` without a normal exit, past the deadline, gives `(-1, -1, DeadlineExceeded)` |
| Runtime.AbnormalExitOtherwiseReportsWaitError | runtime.go:43-48 | an `ExitError` without a normal exit, deadline not passed, gives `(-1, -1, theWaitError)`, which under plain cancellation differs from the context's error |
| Runtime.OtherWaitFailureKeepsLaunchCode | runtime.go:50-51 | a wait error that is not an `ExitError` gives `(0, -1, thatError)`, in every context state |
| Runtime.ErrorIffNoExitStatus | runtime.go:31-56 | for waits `os/exec` can return, the error is absent exactly when the program code is non-negative |
| Runtime.PossibleReportIsRange | runtime.go:31-56 | for start and wait results `os/exec` can return, the reports the runtime can produce are exactly: `(0,0,nil)`, `(0,c,nil)` with c > 0, `(-1,-1,e)` for e not an `ExitError` or e the `ExitError` of a killed process, `(0,-1,e)` for e not an `ExitError` |
| Runtime.Classify | runtime.go:31-56 | the outcome in taxonomy order (launch failure, normal exit, timeout, termination, other wait failure) encodes to exactly the runtime's report |
| Runtime.Decode | runtime.go:11-13 | a decoded outcome encodes back to the report, and every report the runtime can produce decodes to some outcome |
| Runtime.DecodeEncode | runtime.go:11-13 | decoding the encoding of an outcome returns that outcome, except for launch failures whose error is the one a timeout or a termination reports |
| Runtime.EncodeInjective | runtime.go:11-13 | outside those launch failures, two outcomes with the same report are the same outcome |
| Runtime.ReportDeterminesOutcome | runtime.go:31-56 | for every start result `os/exec` can return except a launch refused with `DeadlineExceeded`, decoding the report gives back the execution's outcome |
| Runtime.LateLaunchReadsAsTimeout | runtime.go:31-45 | a start refused with `DeadlineExceeded` and a genuine timeout are different outcomes with identical reports |

## Left out

- Spawning and waiting on the process (`exec.CommandContext`, `cmd.Start`, `cmd.Wait`): operating-system I/O; their results are inputs of `CompileAndRun`.
- Deadline and cancellation timing, and the kill of the child when the context is done: concurrency and wall-clock behaviour; only the context state seen after the wait is modelled.
- The zap logging calls: side effects with no bearing on the report.
- The `Runtime` interface, `NewPythonRuntime` and the unused `logger` field: construction and dispatch only.
- Platform-specific exit-versus-signal semantics behind `Exited()` and `ExitCode()`: reduced to a boolean and an integer constrained by `WellFormedWait`.
- The child's standard streams: runtime.go:29 sets none of them, so `os/exec` connects them to the null device and the program's output is discarded; nothing about output is modelled.
