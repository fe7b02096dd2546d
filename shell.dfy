/** What the handlers get back from the command-line tools they start. The
    processes themselves are not modelled: each outcome is an input. */
module Shell {
  import opened Base
  import opened Text

  /** A finished process: whether it exited with status 0, and its
      standard output and error, already decoded. */
  datatype Output = Output(success: bool, stdout: string, stderr: string)

  /** `Command::output()`: the process ran to completion, or it could not
      be started (the operating-system error, as displayed). */
  datatype Run = Ran(output: Output) | NotStarted(reason: string)

  /** `Command::spawn()`: the child process was started, or it could not
      be. */
  datatype Spawn = Spawned | SpawnFailed(reason: string)

  /** Why a command counts as failed: it could not be started (the error
      behind a fixed prefix) or it exited non-zero (its standard error). */
  function Failure(run: Run, startError: string): (r: Option<string>)
    ensures r.None? <==> run.Ran? && run.output.success
  {
    match run
    case NotStarted(e) => Some(startError + e)
    case Ran(out) => if out.success then None else Some(out.stderr)
  }

  /** A handler that runs one command and returns what it printed: it
      succeeds exactly when the command ran and exited with status 0, with
      the standard output; otherwise it fails as `Failure` says. */
  function Passthrough(run: Run, startError: string): (r: Result<string>)
    ensures r.Ok? <==> Failure(run, startError).None?
    ensures r.Ok? ==> r.value == run.output.stdout
    ensures r.Err? ==> r.error == Failure(run, startError).value
  {
    match run
    case NotStarted(e) => Err(startError + e)
    case Ran(out) => if out.success then Ok(out.stdout) else Err(out.stderr)
  }

  /** `adb_shell` and `hdc_shell`: like `Passthrough`, but the standard
      output comes back trimmed. */
  function ShellQuery(run: Run, startError: string): (r: Result<string>)
    ensures r.Ok? <==> Failure(run, startError).None?
    ensures r.Ok? ==> r.value == Trim(run.output.stdout)
    ensures r.Err? ==> r.error == Failure(run, startError).value
  {
    match run
    case NotStarted(e) => Err(startError + e)
    case Ran(out) => if out.success then Ok(Trim(out.stdout)) else Err(out.stderr)
  }

  /** `Result::ok`. */
  function OkValue<T>(r: Result<T>): (o: Option<T>)
    ensures o.Some? <==> r.Ok?
    ensures o.Some? ==> o.value == r.value
  {
    if r.Ok? then Some(r.value) else None
  }
}
