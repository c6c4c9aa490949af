/**
 The `Packer` facade: where the executable is looked for, the working
 directory its children run in, and one function per public method, each
 running the command for its operation and translating the outcome.
 */
module Facade {
  import opened Wrappers
  import opened Options
  import opened Arguments
  import opened Process
  import Ops = Operations

  /** The target the crate is compiled for, as far as the facade cares. */
  datatype Platform = Windows | OtherOs

  /** `Packer`: the executable's path and an optional working directory for its children. */
  datatype Packer = Packer(executable: string, workingDir: Option<string>)

  /** The path `new` looks for, relative to the current directory. */
  function ExecutablePath(platform: Platform): string {
    match platform
    case Windows => "./packer.exe"
    case OtherOs => "./packer"
  }

  /**
   `Packer::new`: `NotFound` exactly when the platform's executable is
   missing; otherwise a facade for it with no working directory.
   `fileExists` stands for the filesystem check.
   */
  function New(platform: Platform, fileExists: string -> bool): (r: Result<Packer>)
    ensures r.Err? <==> !fileExists(ExecutablePath(platform))
    ensures r.Err? ==> r.error == NotFound
    ensures r.Ok? ==> r.value.executable == ExecutablePath(platform) && r.value.workingDir == None
  {
    var executable := ExecutablePath(platform);
    if !fileExists(executable) then Err(NotFound)
    else Ok(Packer(executable, None))
  }

  /** `with_working_dir`: sets the working directory and keeps the executable. */
  function WithWorkingDir(p: Packer, dir: string): (q: Packer)
    ensures q.workingDir == Some(dir)
    ensures q.executable == p.executable
  {
    p.(workingDir := Some(dir))
  }

  /** `base_command`: the executable, run in the working directory when one is set. */
  function BaseCommand(p: Packer): (c: Command)
    ensures c.program == p.executable
    ensures c.args == []
    ensures p.workingDir.None? ==> c.cwd == None
    ensures p.workingDir.Some? ==> c.cwd == Some(p.workingDir.value)
  {
    var cmd := Command(p.executable, [], None);
    match p.workingDir
    case Some(dir) => cmd.(cwd := Some(dir))
    case None => cmd
  }

  /**
   The base command with the operation's arguments appended: every command
   runs the facade's executable, in its working directory if it has one.
   */
  function CommandFor(p: Packer, op: Ops.Operation): (c: Command)
    ensures c.program == p.executable
    ensures c.args == Ops.Args(op)
    ensures c.cwd == p.workingDir
  {
    var cmd := BaseCommand(p);
    cmd.(args := cmd.args + Ops.Args(op))
  }

  /************************************************************************
   * Status-only operations
   ************************************************************************/

  /** `build`: runs the build vector of the template and options. */
  function Build(p: Packer, template: string, options: BuildOptions,
                 spawn: Command -> Outcome, display: ExitStatus -> string): (r: Result<()>)
    ensures StatusTranslation(spawn(Command(p.executable, BuildArgs(template, options), p.workingDir)), r)
  {
    ExecuteCommand(spawn(CommandFor(p, Ops.Build(template, options))), display)
  }

  function Init(p: Packer, template: string,
                spawn: Command -> Outcome, display: ExitStatus -> string): (r: Result<()>)
    ensures StatusTranslation(spawn(Command(p.executable, ["init", template], p.workingDir)), r)
  {
    ExecuteCommand(spawn(CommandFor(p, Ops.Init(template))), display)
  }

  function Validate(p: Packer, template: string,
                    spawn: Command -> Outcome, display: ExitStatus -> string): (r: Result<()>)
    ensures StatusTranslation(spawn(Command(p.executable, ["validate", template], p.workingDir)), r)
  {
    ExecuteCommand(spawn(CommandFor(p, Ops.Validate(template))), display)
  }

  function PluginInstall(p: Packer, plugin: string,
                         spawn: Command -> Outcome, display: ExitStatus -> string): (r: Result<()>)
    ensures StatusTranslation(spawn(Command(p.executable, ["plugin", "install", plugin], p.workingDir)), r)
  {
    ExecuteCommand(spawn(CommandFor(p, Ops.PluginInstall(plugin))), display)
  }

  function PluginRemove(p: Packer, plugin: string,
                        spawn: Command -> Outcome, display: ExitStatus -> string): (r: Result<()>)
    ensures StatusTranslation(spawn(Command(p.executable, ["plugin", "remove", plugin], p.workingDir)), r)
  {
    ExecuteCommand(spawn(CommandFor(p, Ops.PluginRemove(plugin))), display)
  }

  function Console(p: Packer, template: string,
                   spawn: Command -> Outcome, display: ExitStatus -> string): (r: Result<()>)
    ensures StatusTranslation(spawn(Command(p.executable, ["console", template], p.workingDir)), r)
  {
    ExecuteCommand(spawn(CommandFor(p, Ops.Console(template))), display)
  }

  /************************************************************************
   * Output-capturing operations
   ************************************************************************/

  function Inspect(p: Packer, template: string,
                   spawn: Command -> Outcome, decode: seq<byte> -> string): (r: Result<string>)
    ensures OutputTranslation(spawn(Command(p.executable, ["inspect", template], p.workingDir)), decode, r)
  {
    TranslateOutput(spawn(CommandFor(p, Ops.Inspect(template))), decode)
  }

  function Fix(p: Packer, template: string,
               spawn: Command -> Outcome, decode: seq<byte> -> string): (r: Result<string>)
    ensures OutputTranslation(spawn(Command(p.executable, ["fix", template], p.workingDir)), decode, r)
  {
    TranslateOutput(spawn(CommandFor(p, Ops.Fix(template))), decode)
  }

  function Version(p: Packer, spawn: Command -> Outcome, decode: seq<byte> -> string): (r: Result<string>)
    ensures OutputTranslation(spawn(Command(p.executable, ["version"], p.workingDir)), decode, r)
  {
    TranslateOutput(spawn(CommandFor(p, Ops.Version)), decode)
  }

  function PluginList(p: Packer, spawn: Command -> Outcome, decode: seq<byte> -> string): (r: Result<string>)
    ensures OutputTranslation(spawn(Command(p.executable, ["plugin", "list"], p.workingDir)), decode, r)
  {
    TranslateOutput(spawn(CommandFor(p, Ops.PluginList)), decode)
  }

  function Hcl2Upgrade(p: Packer, template: string,
                       spawn: Command -> Outcome, decode: seq<byte> -> string): (r: Result<string>)
    ensures OutputTranslation(spawn(Command(p.executable, ["hcl2_upgrade", template], p.workingDir)), decode, r)
  {
    TranslateOutput(spawn(CommandFor(p, Ops.Hcl2Upgrade(template))), decode)
  }

  /************************************************************************
   * Properties of the facade
   ************************************************************************/

  /** A second `with_working_dir` replaces the first. */
  lemma WithWorkingDirReplaces(p: Packer, first: string, second: string)
    ensures WithWorkingDir(WithWorkingDir(p, first), second) == WithWorkingDir(p, second)
  {
  }

  /** Setting a working directory changes only the command's working directory. */
  lemma WithWorkingDirOnlyMovesCwd(p: Packer, dir: string, op: Ops.Operation)
    ensures CommandFor(WithWorkingDir(p, dir), op) == CommandFor(p, op).(cwd := Some(dir))
  {
  }

  /** A freshly constructed facade runs its commands in the caller's directory. */
  lemma NewRunsInCurrentDirectory(platform: Platform, fileExists: string -> bool, op: Ops.Operation)
    requires New(platform, fileExists).Ok?
    ensures CommandFor(New(platform, fileExists).value, op).cwd == None
    ensures CommandFor(New(platform, fileExists).value, op).program == ExecutablePath(platform)
  {
  }

  /** The command a facade runs identifies the operation it was asked for. */
  lemma CommandDeterminesOperation(p: Packer, op1: Ops.Operation, op2: Ops.Operation)
    requires Ops.WellFormed(op1) && Ops.WellFormed(op2)
    requires CommandFor(p, op1) == CommandFor(p, op2)
    ensures op1 == op2
  {
    assert Ops.Args(op1) == CommandFor(p, op1).args;
    Ops.ArgsInjective(op1, op2);
  }
}
