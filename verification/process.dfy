/**
 The process boundary as the facade sees it: the command it hands to the
 operating system, what comes back, and the typed errors it reports.
 Spawning and waiting are not modelled; an operation receives the outcome
 of its command from a `spawn` function supplied by the caller.
 */
module Process {
  import opened Wrappers

  newtype byte = b: int | 0 <= b < 256

  /** A `std::io::Error`, kept opaque: only a description of its kind. */
  datatype IoFailure = IoFailure(kind: string)

  /** A child's exit status; it counts as success for exit code 0 only. */
  datatype ExitStatus = ExitStatus(code: Option<int>) {
    /** `ExitStatus::success`; a child ended by a signal has no code. */
    predicate Success() {
      code == Some(0)
    }
  }

  /** What spawning and waiting for one child yields. */
  datatype Outcome =
    | SpawnFailed(cause: IoFailure)
    | Exited(status: ExitStatus, stdout: seq<byte>, stderr: seq<byte>)

  /** A `std::process::Command` ready to spawn. */
  datatype Command = Command(program: string, args: seq<string>, cwd: Option<string>)

  /** `PackerError`. `ConfigError` is part of the taxonomy but nothing raises it. */
  datatype PackerError =
    | ExecutionError(message: string)
    | NotFound
    | ConfigError(message: string)
    | IoError(cause: IoFailure)

  /** The crate's `Result<T>`, whose error is always a `PackerError`. */
  datatype Result<+T> = Ok(value: T) | Err(error: PackerError)

  /** How a status-only operation reports an outcome. */
  ghost predicate StatusTranslation(o: Outcome, r: Result<()>) {
    match o
    case SpawnFailed(cause) => r == Err(IoError(cause))
    case Exited(status, _, _) =>
      && (r.Ok? <==> status.Success())
      && (r.Err? ==> r.error.ExecutionError?)
  }

  /** How an output-capturing operation reports an outcome. */
  ghost predicate OutputTranslation(o: Outcome, decode: seq<byte> -> string, r: Result<string>) {
    match o
    case SpawnFailed(cause) => r == Err(IoError(cause))
    case Exited(status, stdout, stderr) =>
      if status.Success() then r == Ok(decode(stdout)) else r == Err(ExecutionError(decode(stderr)))
  }

  const STATUS_FAILURE_PREFIX := "Command failed with exit code: "

  /**
   `execute_command`: an unspawnable child becomes `IoError` through the
   `#[from]` conversion, a non-zero exit becomes `ExecutionError` naming the
   status (rendered by `display`), and a zero exit is `Ok`.
   */
  function ExecuteCommand(o: Outcome, display: ExitStatus -> string): (r: Result<()>)
    ensures StatusTranslation(o, r)
    ensures r.Err? && r.error.ExecutionError? ==> r.error.message == STATUS_FAILURE_PREFIX + display(o.status)
  {
    match o
    case SpawnFailed(cause) => Err(IoError(cause))
    case Exited(status, _, _) =>
      if !status.Success() then Err(ExecutionError(STATUS_FAILURE_PREFIX + display(status)))
      else Ok(())
  }

  /**
   The result handling the output-capturing operations share: the lossily
   decoded standard output on success, the decoded standard error inside
   `ExecutionError` on failure, `IoError` when the child never ran.
   */
  function TranslateOutput(o: Outcome, decode: seq<byte> -> string): (r: Result<string>)
    ensures OutputTranslation(o, decode, r)
  {
    match o
    case SpawnFailed(cause) => Err(IoError(cause))
    case Exited(status, stdout, stderr) =>
      if !status.Success() then Err(ExecutionError(decode(stderr)))
      else Ok(decode(stdout))
  }

  /** Status-only operations never look at the child's streams. */
  lemma StatusIgnoresStreams(status: ExitStatus, out1: seq<byte>, err1: seq<byte>,
                             out2: seq<byte>, err2: seq<byte>, display: ExitStatus -> string)
    ensures ExecuteCommand(Exited(status, out1, err1), display) == ExecuteCommand(Exited(status, out2, err2), display)
  {
  }

  /**
   Both kinds of operation agree on what counts as success and on the kind
   of failure; they differ only in the payload.
   */
  lemma TranslationsAgree(o: Outcome, decode: seq<byte> -> string, display: ExitStatus -> string)
    ensures TranslateOutput(o, decode).Ok? <==> ExecuteCommand(o, display).Ok?
    ensures TranslateOutput(o, decode).Err? ==>
              ExecuteCommand(o, display).Err?
              && (TranslateOutput(o, decode).error.IoError? <==> ExecuteCommand(o, display).error.IoError?)
              && (TranslateOutput(o, decode).error.ExecutionError? <==> ExecuteCommand(o, display).error.ExecutionError?)
    ensures o.SpawnFailed? ==> TranslateOutput(o, decode).error == ExecuteCommand(o, display).error
  {
  }

  /** No outcome makes either translation report `NotFound` or `ConfigError`. */
  lemma TranslationsNeverReportLookupErrors(o: Outcome, decode: seq<byte> -> string, display: ExitStatus -> string)
    ensures ExecuteCommand(o, display).Err? ==> !ExecuteCommand(o, display).error.NotFound? && !ExecuteCommand(o, display).error.ConfigError?
    ensures TranslateOutput(o, decode).Err? ==> !TranslateOutput(o, decode).error.NotFound? && !TranslateOutput(o, decode).error.ConfigError?
  {
  }
}
