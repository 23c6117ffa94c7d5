/**
  The Python runtime: run a snippet with `python3 -c <code>` under the caller's
  context and report `(compilerExitCode, programExitCode, error)`.

  `CompileAndRun` is the decision the runtime takes once `Start` and `Wait` have
  returned. `Outcome` is the taxonomy of execution results the report stands for
  (clean or non-zero exit, timeout, abnormal termination, launch failure, other
  wait failure); `Classify`, `Encode` and `Decode` relate the two.
 */
module Runtime {

  import opened Exec

  const Interpreter: string := "python3"

  /** The three values `CompileAndRun` returns. */
  datatype Report = Report(compilerExitCode: int, programExitCode: int, err: Option<Error>)

  // ---------------------------------------------------------------------------
  // The command line

  /** The snippet carried by a `<interpreter> -c <snippet>` command line, if it is one. */
  function SourceArgument(argv: seq<string>): Option<string>
  {
    if |argv| == 3 && argv[0] == Interpreter && argv[1] == "-c" then Some(argv[2]) else None
  }

  /** The argument vector of the child process: the snippet is passed verbatim, as one argument. */
  function Command(code: string): (argv: seq<string>)
    ensures |argv| > 0 && argv[0] == Interpreter
    ensures SourceArgument(argv) == Some(code)
  {
    [Interpreter, "-c", code]
  }

  /** Different snippets give different command lines: nothing is lost or merged. */
  lemma CommandInjective(code1: string, code2: string)
    ensures Command(code1) == Command(code2) <==> code1 == code2
  {
  }

  // ---------------------------------------------------------------------------
  // The classification, as the runtime writes it

  /**
    The report for a run whose `Start` returned `start`, whose `Wait` returned
    `wait` (not consulted when the start failed) and whose context was in state
    `ctx` once the wait returned.
   */
  function CompileAndRun(start: StartResult, wait: WaitResult, ctx: ContextState): (r: Report)
    ensures r.compilerExitCode == 0 || r.compilerExitCode == -1
    ensures r.err.Some? ==> r.programExitCode == -1
    ensures r.compilerExitCode == -1 ==> r.err.Some?
    ensures r.err.None? <==> start.StartOk? && ExitedNormally(wait)
    ensures r.err.None? ==> r.programExitCode == ExitStatus(wait)
  {
    if start.StartErr? then
      Report(-1, -1, Some(start.err))
    else if wait.WaitErr? then
      match wait.err
      case ExitError(exited, code) =>
        if exited then
          Report(0, code, None)
        else if ctx.Err() == Some(DeadlineExceeded) then
          Report(-1, -1, ctx.Err())
        else
          Report(-1, -1, Some(wait.err))
      case _ =>
        Report(0, -1, Some(wait.err))
    else
      Report(0, 0, None)
  }

  /** A failed start is reported at once, whatever the wait or the context would have been. */
  lemma StartFailureReported(e: Error, wait: WaitResult, ctx: ContextState)
    ensures CompileAndRun(StartErr(e), wait, ctx) == Report(-1, -1, Some(e))
  {
  }

  /** A successful wait is a clean run, in every context state. */
  lemma CleanExitReported(ctx: ContextState)
    ensures CompileAndRun(StartOk, WaitOk, ctx) == Report(0, 0, None)
  {
  }

  /**
    A normal exit with a non-zero status is the user program's own result, not an
    error, and it takes precedence over an expired deadline.
   */
  lemma NormalExitIsNotAnError(code: int, ctx: ContextState)
    ensures CompileAndRun(StartOk, WaitErr(ExitError(true, code)), ctx) == Report(0, code, None)
  {
  }

  /** A process that did not exit normally while the deadline had passed timed out. */
  lemma AbnormalExitPastDeadlineIsTimeout(code: int)
    ensures CompileAndRun(StartOk, WaitErr(ExitError(false, code)), PastDeadline)
         == Report(-1, -1, Some(DeadlineExceeded))
  {
  }

  /**
    A process that did not exit normally while the deadline had not passed is
    reported with the wait's own error; under a plain cancellation that is not
    the context's error.
   */
  lemma AbnormalExitOtherwiseReportsWaitError(code: int, ctx: ContextState)
    requires ctx != PastDeadline
    ensures CompileAndRun(StartOk, WaitErr(ExitError(false, code)), ctx)
         == Report(-1, -1, Some(ExitError(false, code)))
    ensures CompileAndRun(StartOk, WaitErr(ExitError(false, code)), ctx).err != ctx.Err()
  {
  }

  /**
    A wait failure that is not an `ExitError` keeps launch code 0 and carries the
    wait's error, even once the deadline has passed.
   */
  lemma OtherWaitFailureKeepsLaunchCode(e: Error, ctx: ContextState)
    requires !e.ExitError?
    ensures CompileAndRun(StartOk, WaitErr(e), ctx) == Report(0, -1, Some(e))
  {
  }

  /**
    For the processes `os/exec` can report, the error is absent exactly when the
    program exit code is a real exit status (non-negative).
   */
  lemma ErrorIffNoExitStatus(start: StartResult, wait: WaitResult, ctx: ContextState)
    requires WellFormedWait(wait)
    ensures CompileAndRun(start, wait, ctx).err.None? <==> CompileAndRun(start, wait, ctx).programExitCode >= 0
  {
  }

  /**
    The reports `CompileAndRun` can produce from results `os/exec` can return:
    a launch error is never an `ExitError`, and the only `ExitError` reported
    with codes -1 is that of a killed process.
   */
  predicate PossibleReport(r: Report)
  {
    || r == Report(0, 0, None)
    || (r.compilerExitCode == 0 && r.programExitCode > 0 && r.err.None?)
    || (r.compilerExitCode == -1 && r.programExitCode == -1 && r.err.Some?
        && (!r.err.value.ExitError? || r.err.value == ExitError(false, -1)))
    || (r.compilerExitCode == 0 && r.programExitCode == -1 && r.err.Some? && !r.err.value.ExitError?)
  }

  /** `PossibleReport` is exactly the range of `CompileAndRun`: every such report occurs, and no other. */
  lemma PossibleReportIsRange(r: Report)
    ensures PossibleReport(r) <==>
              exists start, wait, ctx ::
                WellFormedStart(start) && WellFormedWait(wait) && CompileAndRun(start, wait, ctx) == r
  {
    if PossibleReport(r) {
      if r == Report(0, 0, None) {
        assert WellFormedStart(StartOk) && CompileAndRun(StartOk, WaitOk, Live) == r;
      } else if r.err.None? {
        var wait := WaitErr(ExitError(true, r.programExitCode));
        assert WellFormedStart(StartOk) && WellFormedWait(wait) && CompileAndRun(StartOk, wait, Live) == r;
      } else if r.compilerExitCode == -1 && r.err.value.ExitError? {
        var wait := WaitErr(ExitError(false, -1));
        assert WellFormedStart(StartOk) && WellFormedWait(wait) && CompileAndRun(StartOk, wait, Live) == r;
      } else if r.compilerExitCode == -1 {
        var start := StartErr(r.err.value);
        assert WellFormedStart(start) && WellFormedWait(WaitOk) && CompileAndRun(start, WaitOk, Live) == r;
      } else {
        var wait := WaitErr(r.err.value);
        assert WellFormedStart(StartOk) && WellFormedWait(wait) && CompileAndRun(StartOk, wait, Live) == r;
      }
    }
  }

  // ---------------------------------------------------------------------------
  // The outcome taxonomy and its encoding in the report

  /** What happened to one execution. */
  datatype Outcome =
    | Exited(status: int)       // the program ran to a normal exit (status 0: clean, otherwise non-zero)
    | TimedOut                  // the deadline passed and the process did not exit normally
    | Terminated(code: int)     // the process did not exit normally, for another reason; its ExitCode()
    | LaunchFailure(cause: Error)
    | WaitFailure(cause: Error) // observing the process failed in some other way

  /** The wait saw the process exit normally: with status 0, or with an `ExitError` whose `Exited()` holds. */
  predicate ExitedNormally(wait: WaitResult)
  {
    wait.WaitOk? || (wait.err.ExitError? && wait.err.exited)
  }

  /** The exit status of a process the wait saw exit normally. */
  function ExitStatus(wait: WaitResult): int
    requires ExitedNormally(wait)
  {
    if wait.WaitOk? then 0 else wait.err.code
  }

  /** The two-integer-and-error encoding of an outcome. */
  function Encode(o: Outcome): Report
  {
    match o
    case Exited(status) => Report(0, status, None)
    case TimedOut => Report(-1, -1, Some(DeadlineExceeded))
    case Terminated(code) => Report(-1, -1, Some(ExitError(false, code)))
    case LaunchFailure(e) => Report(-1, -1, Some(e))
    case WaitFailure(e) => Report(0, -1, Some(e))
  }

  /**
    The outcome of an execution, taken in the order: launch failure, normal exit
    (clean or not), then — for a process seen to end abnormally — timeout before
    termination, and last any other wait failure. The runtime reports exactly
    its encoding.
   */
  function Classify(start: StartResult, wait: WaitResult, ctx: ContextState): (o: Outcome)
    ensures Encode(o) == CompileAndRun(start, wait, ctx)
  {
    if start.StartErr? then LaunchFailure(start.err)
    else if ExitedNormally(wait) then Exited(ExitStatus(wait))
    else if wait.err.ExitError? then (if ctx == PastDeadline then TimedOut else Terminated(wait.err.code))
    else WaitFailure(wait.err)
  }

  /** The outcome a report stands for, when it stands for one. */
  function Decode(r: Report): (o: Option<Outcome>)
    ensures o.Some? ==> Encode(o.value) == r
    ensures PossibleReport(r) ==> o.Some?
  {
    match r.err
    case None =>
      if r.compilerExitCode == 0 then Some(Exited(r.programExitCode)) else None
    case Some(e) =>
      if r.compilerExitCode == 0 && r.programExitCode == -1 then
        Some(WaitFailure(e))
      else if r.compilerExitCode == -1 && r.programExitCode == -1 then
        Some(if e == DeadlineExceeded then TimedOut
             else if e.ExitError? && !e.exited then Terminated(e.code)
             else LaunchFailure(e))
      else
        None
  }

  /**
    The outcomes decoding recovers: all but the launch failures whose error is
    the one a timeout or a termination reports.
   */
  predicate Distinguishable(o: Outcome)
  {
    match o
    case LaunchFailure(e) => e != DeadlineExceeded && !(e.ExitError? && !e.exited)
    case _ => true
  }

  /** No two distinguishable outcomes share a report. */
  lemma EncodeInjective(o: Outcome, o': Outcome)
    requires Distinguishable(o) && Distinguishable(o')
    requires Encode(o) == Encode(o')
    ensures o == o'
  {
  }

  lemma DecodeEncode(o: Outcome)
    requires Distinguishable(o)
    ensures Decode(Encode(o)) == Some(o)
  {
  }

  /**
    For a start result `os/exec` can return, other than a launch refused with
    `DeadlineExceeded`, the report tells which outcome the execution had.
   */
  lemma ReportDeterminesOutcome(start: StartResult, wait: WaitResult, ctx: ContextState)
    requires WellFormedStart(start)
    requires start != StartErr(DeadlineExceeded)
    ensures Decode(CompileAndRun(start, wait, ctx)) == Some(Classify(start, wait, ctx))
  {
  }

  /**
    `Start` refuses a context that is already done, returning its error. A launch
    refused because the deadline had already passed is then reported exactly like
    a process that timed out: the report does not tell the two outcomes apart.
   */
  lemma LateLaunchReadsAsTimeout(wait: WaitResult, ctx: ContextState)
    ensures exists wait' ::
              && WellFormedStart(StartErr(DeadlineExceeded))
              && WellFormedWait(wait')
              && Classify(StartErr(DeadlineExceeded), wait, ctx) != Classify(StartOk, wait', PastDeadline)
              && CompileAndRun(StartErr(DeadlineExceeded), wait, ctx) == CompileAndRun(StartOk, wait', PastDeadline)
  {
    var killed := WaitErr(ExitError(false, -1));
    assert WellFormedWait(killed);
    assert Classify(StartOk, killed, PastDeadline) == TimedOut;
  }
}
