/** The build script's subprocess layer: commands are built step by step,
    spawned through the host, and every outcome other than a successful
    exit status ends the run through `Fail`. */
module Process {
  import opened Text

  /** A fully specified external process call: the program and its arguments. */
  datatype Invocation = Invocation(program: string, args: seq<string>)

  /** The part of `std::io::ErrorKind` the script looks at. */
  datatype ErrorKind = NotFound | OtherKind

  /** `std::process::ExitStatus`: `code` is the exit code, `None` when the
      process was ended by a signal; `display` is how the status prints. */
  datatype ExitStatus = ExitStatus(code: Option<int>, display: string) {
    predicate Success() { code == Some(0) }
  }

  /** What `Command::status` gives back: the process ran to exit, or it
      could not be spawned (`description` is how the `io::Error` prints). */
  datatype SpawnResult =
    | Exited(status: ExitStatus)
    | SpawnError(kind: ErrorKind, description: string)

  /** The only spawn result after which `run` returns normally. */
  predicate Succeeded(r: SpawnResult) {
    r.Exited? && r.status.Success()
  }

  /** The result of a call that may diverge: it returned, or it panicked
      with a message. */
  datatype Outcome = Returned | Panicked(message: string)

  const FailTrailer := "\n\nbuild script failed, must exit now"

  /** `fail`: the run diverges with a panic whose message carries `s`. */
  function Fail(s: string): (o: Outcome)
    ensures o.Panicked?
    ensures Contains(o.message, s)
  {
    ContainsMiddle("\n", s, FailTrailer);
    Panicked("\n" + s + FailTrailer)
  }

  const SpawnFailed := "failed to execute command: "
  const StatusFailed := "command did not execute successfully, got: "
  const NotInstalled := "not installed?"

  /** The hint `run` appends when the program was not found. */
  function NotInstalledHint(program: string): (hint: string)
    ensures Contains(hint, program) && Contains(hint, NotInstalled)
  {
    ContainsMiddle("\nis `", program, "` ");
    ContainsSuffix("\nis `" + program + "` ", NotInstalled);
    ContainsPrefix("\nis `" + program + "` ", NotInstalled);
    ContainsTrans("\nis `" + program + "` " + NotInstalled, "\nis `" + program + "` ", program);
    "\nis `" + program + "` " + NotInstalled
  }

  /** The outcome of `run` once the spawn result is known, checked in the
      order `run` checks them: not found, any other spawn error, unsuccessful status. */
  function Classify(program: string, r: SpawnResult): (o: Outcome)
    ensures o.Returned? <==> Succeeded(r)
    ensures r.SpawnError? ==> Contains(o.message, SpawnFailed + r.description)
    ensures r.Exited? && !r.status.Success() ==> Contains(o.message, StatusFailed + r.status.display)
  {
    match r
    case SpawnError(NotFound, e) =>
      var reason := SpawnFailed + e + NotInstalledHint(program);
      ContainsPrefix(SpawnFailed + e, NotInstalledHint(program));
      ContainsTrans(Fail(reason).message, reason, SpawnFailed + e);
      Fail(reason)
    case SpawnError(OtherKind, e) =>
      Fail(SpawnFailed + e)
    case Exited(status) =>
      if !status.Success() then Fail(StatusFailed + status.display) else Returned
  }

  /** A not-found spawn error names the program and suggests it is not
      installed; any other spawn error carries the same report without
      that hint. */
  lemma NotFoundNamesProgram(program: string, e: string)
    ensures Classify(program, SpawnError(NotFound, e)).Panicked?
    ensures Contains(Classify(program, SpawnError(NotFound, e)).message, program)
    ensures Contains(Classify(program, SpawnError(NotFound, e)).message, NotInstalled)
    ensures Classify(program, SpawnError(NotFound, e))
         == Fail(SpawnFailed + e + NotInstalledHint(program))
    ensures Classify(program, SpawnError(OtherKind, e)) == Fail(SpawnFailed + e)
  {
    var hint := NotInstalledHint(program);
    var reason := SpawnFailed + e + hint;
    var m := Fail(reason).message;
    ContainsSuffix(SpawnFailed + e, hint);
    ContainsTrans(m, reason, hint);
    ContainsTrans(m, hint, program);
    ContainsTrans(m, hint, NotInstalled);
  }

  /** `std::process::Command`: the builder the script fills in before it runs it. */
  class Command {
    var program: string
    var args: seq<string>

    /** `Command::new(program)`: no arguments yet. */
    constructor (program: string)
      ensures this.program == program && args == []
    {
      this.program := program;
      args := [];
    }

    /** `Command::arg`: appends one argument. */
    method Arg(arg: string)
      modifies this
      ensures program == old(program) && args == old(args) + [arg]
    {
      args := args + [arg];
    }

    /** `Command::args`: appends the arguments in order. */
    method Args(more: seq<string>)
      modifies this
      ensures program == old(program) && args == old(args) + more
    {
      args := args + more;
    }

    function ToInvocation(): Invocation
      reads this
    {
      Invocation(program, args)
    }
  }

  /** The operating system as the script sees it: a fixed answer for every
      spawn, and the record of every spawn attempted so far. */
  class Host {
    const oracle: Invocation -> SpawnResult
    var issued: seq<Invocation>

    constructor (oracle: Invocation -> SpawnResult)
      ensures this.oracle == oracle && issued == []
    {
      this.oracle := oracle;
      issued := [];
    }

    /** `Command::status`: attempts the spawn, waits for it, and reports. */
    method Status(cmd: Command) returns (r: SpawnResult)
      modifies this
      ensures issued == old(issued) + [cmd.ToInvocation()]
      ensures r == oracle(cmd.ToInvocation())
    {
      issued := issued + [cmd.ToInvocation()];
      r := oracle(cmd.ToInvocation());
    }
  }

  /** `run`: spawns `cmd` once and returns normally only on a successful
      exit status; `program` is the name used in the not-found hint. */
  method Run(host: Host, cmd: Command, program: string) returns (o: Outcome)
    modifies host
    ensures host.issued == old(host.issued) + [cmd.ToInvocation()]
    ensures o == Classify(program, host.oracle(cmd.ToInvocation()))
  {
    var r := host.Status(cmd);
    o := Classify(program, r);
  }
}
