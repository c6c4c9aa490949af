/**
 The subcommands the facade can run and the argument vector of each: a
 fixed subcommand word (two for plugin management) followed by the template
 path or plugin name when the subcommand takes one.
 */
module Operations {
  import opened Wrappers
  import opened Options
  import opened Arguments
  import opened BuildParsing

  datatype Operation =
    | Build(template: string, options: BuildOptions)
    | Init(template: string)
    | Validate(template: string)
    | Inspect(template: string)
    | Fix(template: string)
    | Version
    | PluginInstall(plugin: string)
    | PluginRemove(plugin: string)
    | PluginList
    | Console(template: string)
    | Hcl2Upgrade(template: string)
  {
    predicate HasTemplate() {
      Build? || Init? || Validate? || Inspect? || Fix? || Console? || Hcl2Upgrade?
    }

    predicate HasPlugin() {
      PluginInstall? || PluginRemove?
    }
  }

  /** Operations whose arguments can be told apart from every other operation's. */
  predicate WellFormed(op: Operation) {
    op.Build? ==> PlainKeys(op.options.vars)
  }

  /** The arguments each facade method appends to the base command. */
  function Args(op: Operation): (argv: seq<string>)
    ensures |argv| >= 1
    ensures op.HasTemplate() ==> argv[|argv| - 1] == op.template
    ensures op.HasPlugin() ==> |argv| == 3 && argv[0] == "plugin" && argv[2] == op.plugin
    ensures !op.HasTemplate() && !op.HasPlugin() ==> |argv| <= 2
  {
    match op
    case Build(template, options) => BuildArgs(template, options)
    case Init(template) => ["init", template]
    case Validate(template) => ["validate", template]
    case Inspect(template) => ["inspect", template]
    case Fix(template) => ["fix", template]
    case Version => ["version"]
    case PluginInstall(plugin) => ["plugin", "install", plugin]
    case PluginRemove(plugin) => ["plugin", "remove", plugin]
    case PluginList => ["plugin", "list"]
    case Console(template) => ["console", template]
    case Hcl2Upgrade(template) => ["hcl2_upgrade", template]
  }

  /** Recovers the operation from its argument vector. */
  function ParseArgs(argv: seq<string>): Option<Operation> {
    if |argv| == 0 then None
    else if argv[0] == "build" then
      match ParseBuildArgs(argv)
      case None => None
      case Some(parsed) => Some(Build(parsed.0, parsed.1))
    else if |argv| == 1 then
      if argv[0] == "version" then Some(Version) else None
    else if |argv| == 2 then
      if argv[0] == "init" then Some(Init(argv[1]))
      else if argv[0] == "validate" then Some(Validate(argv[1]))
      else if argv[0] == "inspect" then Some(Inspect(argv[1]))
      else if argv[0] == "fix" then Some(Fix(argv[1]))
      else if argv[0] == "console" then Some(Console(argv[1]))
      else if argv[0] == "hcl2_upgrade" then Some(Hcl2Upgrade(argv[1]))
      else if argv[0] == "plugin" && argv[1] == "list" then Some(PluginList)
      else None
    else if |argv| == 3 && argv[0] == "plugin" then
      if argv[1] == "install" then Some(PluginInstall(argv[2]))
      else if argv[1] == "remove" then Some(PluginRemove(argv[2]))
      else None
    else None
  }

  /** Every operation is recovered from the arguments it runs with. */
  lemma ParseArgsOfArgs(op: Operation)
    requires WellFormed(op)
    ensures ParseArgs(Args(op)) == Some(op)
  {
    if op.Build? {
      ParseBuildArgsOfBuildArgs(op.template, op.options);
    }
  }

  /** The parser accepts only argument vectors some well-formed operation runs with. */
  lemma ArgsOfParseArgs(argv: seq<string>, op: Operation)
    requires ParseArgs(argv) == Some(op)
    ensures Args(op) == argv
    ensures WellFormed(op)
  {
    if argv[0] == "build" {
      BuildArgsOfParseBuildArgs(argv, op.template, op.options);
    } else if |argv| == 1 {
      assert argv == [argv[0]];
    } else if |argv| == 2 {
      assert argv == [argv[0], argv[1]];
    } else {
      assert argv == [argv[0], argv[1], argv[2]];
    }
  }

  /** Distinct well-formed operations never run with the same arguments. */
  lemma ArgsInjective(op1: Operation, op2: Operation)
    requires WellFormed(op1) && WellFormed(op2)
    requires Args(op1) == Args(op2)
    ensures op1 == op2
  {
    ParseArgsOfArgs(op1);
    ParseArgsOfArgs(op2);
  }
}
