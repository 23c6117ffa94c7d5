/**
  The parts of Go's `os/exec` and `context` packages that the Python runtime
  observes, reduced to values. Starting and waiting on a child process are
  effects; the model receives what they returned instead of performing them.
 */
module Exec {

  datatype Option<+T> = None | Some(value: T)

  /** The Go `error` values the runtime can see or return. */
  datatype Error =
    | DeadlineExceeded                   // context.DeadlineExceeded
    | Canceled                           // context.Canceled
    | ExitError(exited: bool, code: int) // *exec.ExitError with its Exited() and ExitCode()
    | OtherError(reason: string)         // any other error (binary not found, bad process, ...)

  /** What `cmd.Start()` returned. */
  datatype StartResult = StartOk | StartErr(err: Error)

  /** What `cmd.Wait()` returned. */
  datatype WaitResult = WaitOk | WaitErr(err: Error)

  /** The state of the caller's context, as `ctx.Err()` reports it. */
  datatype ContextState = Live | WasCanceled | PastDeadline
  {
    /** `ctx.Err()`: nil while live, otherwise the reason the context is done. */
    function Err(): (e: Option<Error>)
      ensures e.None? <==> this == Live
      ensures e == Some(Canceled) <==> this == WasCanceled
      ensures e == Some(DeadlineExceeded) <==> this == PastDeadline
    {
      match this
      case Live => None
      case WasCanceled => Some(Canceled)
      case PastDeadline => Some(DeadlineExceeded)
    }
  }

  /**
    A launch error is never an `*exec.ExitError`: `Start` returns a path lookup
    error, a process creation error or the context's error.
   */
  predicate WellFormedStart(s: StartResult)
  {
    s.StartErr? ==> !s.err.ExitError?
  }

  /**
    Two facts about `*exec.ExitError` that `os/exec` guarantees. A process that
    exited normally but unsuccessfully has a positive exit code (a zero status
    makes `Wait` return nil); the runtime reports that code without checking it.
    A process that did not exit normally (killed by a signal) reports
    `ExitCode() == -1`; the runtime never reads that code, but it is part of the
    error the runtime returns for a killed process.
   */
  predicate WellFormedWait(w: WaitResult)
  {
    w.WaitErr? && w.err.ExitError? ==>
      if w.err.exited then w.err.code > 0 else w.err.code == -1
  }
}
