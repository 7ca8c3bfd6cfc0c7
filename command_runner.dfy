/** `CommandRunner` (backend/agent/tools/command_runner.py): how the outcome of a child process
    becomes the result dictionary every command-line tool reads. Starting the process is a
    parameter of the tools: a function from the invocation to what the process did. */
module CommandRunner {
  import opened Wrappers
  import Py

  /** The argument vector, the timeout in seconds and the working directory a process is
      started with. `CommandRunner` itself never sets a working directory. */
  datatype Invocation = Invocation(argv: seq<string>, timeoutS: nat, cwd: Option<string>)

  /** What `subprocess.run` did: it finished, ran out of time, or could not start (`OSError`). */
  datatype Process =
    | Completed(returncode: int, stdout: string, stderr: string)
    | TimedOut
    | Failed(message: string)

  /** The dictionary `run` returns: the finished form carries the stripped output streams, the
      error form only a message. */
  datatype RunResult = Ran(returncode: int, stdout: string, stderr: string) | Error(error: string) {
    /** `result["ok"]` */
    predicate Ok() {
      Ran? && returncode == 0
    }

    /** `result["exit_code"]`: -1 on the error form. */
    function ExitCode(): int {
      if Ran? then returncode else -1
    }

    /** `result.get("stdout", "")` */
    function Stdout(): string {
      if Ran? then stdout else ""
    }

    /** `result.get("stderr")`, absent on the error form. */
    function Stderr(): Option<string> {
      if Ran? then Some(stderr) else None
    }
  }

  const TimedOutMessage := "Command timed out"

  /** `CommandRunner.run`. `"ok"` holds exactly when the process finished with status 0, and then
      the exit code is 0 too; a process that did not finish reports exit code -1 and no streams. */
  function Run(p: Process): (r: RunResult)
    ensures r.Ok() <==> p.Completed? && p.returncode == 0
    ensures r.Ok() <==> r.ExitCode() == 0
    ensures p.Completed? ==> r.ExitCode() == p.returncode && r.Stdout() == Py.Strip(p.stdout)
                             && r.Stderr() == Some(Py.Strip(p.stderr)) && Py.IsStripped(r.Stdout())
    ensures p.TimedOut? ==> r == Error(TimedOutMessage)
    ensures p.Failed? ==> r == Error(p.message)
    ensures !p.Completed? ==> r.ExitCode() == -1 && r.Stdout() == "" && r.Stderr().None?
  {
    match p
    case Completed(code, out, err) => Ran(code, Py.Strip(out), Py.Strip(err))
    case TimedOut => Error(TimedOutMessage)
    case Failed(message) => Error(message)
  }

  /** `CommandRunner(timeout_s=timeoutS).run(argv)` */
  function Call(exec: Invocation -> Process, argv: seq<string>, timeoutS: nat): RunResult {
    Run(exec(Invocation(argv, timeoutS, None)))
  }
}
