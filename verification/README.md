# packer_rs facade, modelled in Dafny

packer_rs wraps the HashiCorp Packer command-line tool. Its `Packer` value holds
the path of the executable and an optional working directory. Each public method:

1. builds a `std::process::Command` from that value;
2. appends the subcommand and its arguments;
3. runs the child synchronously;
4. translates the outcome into the crate's `Result`.

The error type is `PackerError`, which has four variants:

- `ExecutionError`
- `NotFound`
- `ConfigError`
- `IoError`

This project models that facade as pure functions over immutable values.

- `Options` holds `BuildOptions`, its `Default` implementation and the generated builder.
- `Decimal` models `i32::to_string` and an inverse parser.
- `Arguments` builds the `build` argument vector and reads one back.
- `BuildProperties` and `BuildParsing` prove what that vector contains:
  - which flags it contains, how many of each, and where;
  - that the parser recovers the template and the options.
- `Operations` lists every subcommand and its argument vector. It also proves that the vectors of different well-formed operations never coincide. An operation is well-formed when no variable key of a build contains `=`.
- `Process` translates what the child did into `Result`:
  - a spawn failure becomes `IoError`;
  - a non-zero exit becomes `ExecutionError`;
  - a zero exit becomes `Ok`, or `Ok` of the decoded standard output.
- `Facade` holds `Packer::new`, `with_working_dir`, `base_command` and one function per public method.
- `Findings` shows what the generated builder does to the `build` argument vector.

Parameters stand in for everything the crate delegates to the operating system or the standard library:

- `spawn: Command -> Outcome` is the child's outcome for a command. An outcome is either a spawn failure or an exit status with standard output and standard error. Only the output-capturing operations read those two streams.
- `decode` stands for `String::from_utf8_lossy`.
- `display` stands for the `Display` of `ExitStatus`.
- `fileExists` stands for `Path::exists`.
- `Platform` stands for `cfg!(target_os = "windows")`.

## Model

| member | source | states |
|---|---|---|
| Options.Default | src/main.rs:44-56 | Default options have colour on. Debug, force and timestamp-UI are off, there is no parallelism cap, and both variable lists are empty. |
| Options.BuilderBuild | src/main.rs:26-42 | As written, the builder keeps every option that was set. An unset option takes its type's default, so an unset `color` is `false`. |
| Options.BuilderBuildWithDefaults | src/main.rs:26-56 | Corrected builder: it keeps every set option, and each unset option takes its value from `Default()`. So an unset `color` is on, and an untouched builder yields exactly `Default()`. |
| Options.BuildersDifferOnlyInColor | src/main.rs:26-56 | The two builders agree exactly when `color` was set. Otherwise they differ only in `color`. |
| Options.EmptyBuilderIsNotDefault | src/main.rs:26-56 | An untouched builder yields `Default()` with colour turned off. |
| Decimal.NatDigits | src/main.rs:95 | The decimal digits of a natural number have no leading zero, and they start with `0` only for zero. |
| Decimal.IntToString | src/main.rs:95 | The rendering of an integer starts with `-` exactly for negative numbers. It is followed by canonical digits that are never `0` after a sign. |
| Decimal.DigitsValueOfNatDigits | src/main.rs:95 | Reading back the digits of `n` gives `n`. |
| Decimal.NatDigitsOfDigitsValue | src/main.rs:95 | Canonical digit strings are exactly the renderings of their values. |
| Decimal.ParseIntToString | src/main.rs:95 | Parsing the rendering of any integer gives back that integer. |
| Decimal.ToStringOfParseInt | src/main.rs:95 | Any string the parser accepts is the rendering of the number it reads. |
| Decimal.IntToStringInjective | src/main.rs:95 | Distinct integers render to distinct strings. |
| Arguments.Flag | src/main.rs:88-102 | An on/off flag contributes its token exactly when it is on, and nothing otherwise. |
| Arguments.ParallelTokens | src/main.rs:94-96 | A parallelism cap contributes exactly two tokens, the first being `-parallel-builds`. No cap contributes nothing. |
| BuildParsing.TakeParallelOf | src/main.rs:94-96 | The two parallelism tokens read back as the cap they came from, leaving the rest of the vector untouched. |
| Arguments.VarTokens | src/main.rs:104-107 | There is one `-var=key=value` token per variable, in input order. |
| Arguments.VarFileTokens | src/main.rs:109-112 | There is one `-var-file=path` token per variable file, in input order. |
| Arguments.BuildArgs | src/main.rs:84-117 | The build vector has at least two tokens, starts with `build` and ends with the template. |
| BuildProperties.BuildArgsLength | src/main.rs:84-117 | The build vector's length is 2, plus one per set flag, plus two for a cap, plus one per variable and per variable file. |
| BuildProperties.FlagOccurrences | src/main.rs:88-102 | Before the template, each flag token occurs exactly once when its option is set and never otherwise. |
| BuildProperties.FlagPresentIffSet | src/main.rs:88-102 | Each flag token is present before the template if and only if its option is set. `-color=false` is present if and only if colour is off. |
| BuildProperties.FlagTokensLength | src/main.rs:88-102 | The flag group has one token per set flag and two for a parallelism cap. |
| BuildProperties.ParallelPair | src/main.rs:94-96 | After the optional `-debug` and `-force` comes `-parallel-builds`, immediately followed by the decimal cap. |
| BuildProperties.VarPosition | src/main.rs:104-107 | The `i`-th variable's `-var=key=value` token sits `i` places after the flag group. |
| BuildProperties.VarFilePosition | src/main.rs:109-112 | The `j`-th variable file's token sits `j` places after the variables, before the template. |
| BuildProperties.VarTokenCounts | src/main.rs:104-112 | Before the template, exactly one token per variable starts with `-var=`, and exactly one per variable file starts with `-var-file=`. |
| BuildProperties.BuildArgsBareIffDefault | src/main.rs:84-117 | The build vector is just `build` and the template if and only if the options are the defaults. |
| BuildParsing.ParseBuildArgsOfBuildArgs | src/main.rs:84-117 | Reading a build vector back recovers its template and options when no variable key contains `=`. |
| BuildParsing.BuildArgsOfParseBuildArgs | src/main.rs:84-117 | Every vector the reader accepts is the build vector of what it reads. |
| BuildParsing.ParseBuildArgsIff | src/main.rs:84-117 | A vector reads as a template and options if and only if it is their build vector and no key contains `=`. |
| BuildParsing.BuildArgsInjective | src/main.rs:84-117 | Distinct templates or options give distinct build vectors, provided no key contains `=`. |
| BuildParsing.VarKeyWithEqualsIsAmbiguous | src/main.rs:105-107 | The variables `a=b → c` and `a → b=c` give the same build vector. |
| BuildParsing.ParseVarsOf | src/main.rs:104-107 | The variable tokens read back as the variables, with the rest of the vector left over. |
| BuildParsing.ParseVarFilesOf | src/main.rs:109-112 | The variable-file tokens read back as the paths. |
| BuildParsing.ParseStages | src/main.rs:88-102 | The flag group reads back one flag at a time, in the order the facade emits them. |
| Operations.Args | src/main.rs:119-258 | Every operation's vector is non-empty. Template operations end with the template, and the plugin operations are `plugin`, a verb and the plugin name. |
| Operations.ParseArgsOfArgs | src/main.rs:119-258 | Every well-formed operation is recovered from its argument vector. |
| Operations.ArgsOfParseArgs | src/main.rs:119-258 | Every vector the reader accepts is the vector of the well-formed operation it reads. |
| Operations.ArgsInjective | src/main.rs:119-258 | Distinct well-formed operations run with distinct argument vectors. |
| Process.ExecuteCommand | src/main.rs:187-198 | A spawn failure is `IoError`, exit code 0 is `Ok`, and any other status is `ExecutionError` whose message names the status. |
| Process.TranslateOutput | src/main.rs:134-146 | A spawn failure is `IoError`. Success gives the decoded standard output, and failure gives `ExecutionError` with the decoded standard error. |
| Process.StatusIgnoresStreams | src/main.rs:187-198 | A status-only result does not depend on what the child wrote. |
| Process.TranslationsAgree | src/main.rs:134-198 | Both translations agree on success, on the kind of failure, and on the error of a spawn failure. |
| Process.TranslationsNeverReportLookupErrors | src/main.rs:6-16 | Running a command never yields `NotFound` or `ConfigError`. |
| Facade.New | src/main.rs:59-75 | Construction fails with `NotFound` exactly when the platform's executable is missing. Otherwise it gives that path with no working directory. |
| Facade.WithWorkingDir | src/main.rs:77-81 | Sets the working directory and keeps the executable. |
| Facade.WithWorkingDirReplaces | src/main.rs:77-81 | A second working directory replaces the first. |
| Facade.WithWorkingDirOnlyMovesCwd | src/main.rs:77-81 | Setting a working directory changes only the command's working directory. The program and the arguments stay the same. |
| Facade.BaseCommand | src/main.rs:178-185 | The base command runs the executable with no arguments, in the working directory exactly when one is set. |
| Facade.CommandFor | src/main.rs:178-185 | Every operation runs the executable in the working directory, with the operation's arguments. |
| Facade.NewRunsInCurrentDirectory | src/main.rs:59-75 | A freshly constructed facade runs the platform's executable in the caller's directory. |
| Facade.CommandDeterminesOperation | src/main.rs:119-258 | The command a facade runs identifies the well-formed operation it was asked for. |
| Facade.Build | src/main.rs:83-117 | `build` runs the build vector and reports the status-only translation of the outcome. |
| Facade.Init | src/main.rs:119-124 | `init` runs `init <template>` and reports the status-only translation. |
| Facade.Validate | src/main.rs:126-131 | `validate` runs `validate <template>` and reports the status-only translation. |
| Facade.Inspect | src/main.rs:133-146 | `inspect` runs `inspect <template>` and reports the output translation. |
| Facade.Fix | src/main.rs:148-161 | `fix` runs `fix <template>` and reports the output translation. |
| Facade.Version | src/main.rs:163-176 | `version` runs `version` and reports the output translation. |
| Facade.PluginInstall | src/main.rs:203-208 | `plugin_install` runs `plugin install <name>` and reports the status-only translation. |
| Facade.PluginRemove | src/main.rs:210-215 | `plugin_remove` runs `plugin remove <name>` and reports the status-only translation. |
| Facade.PluginList | src/main.rs:217-230 | `plugin_list` runs `plugin list` and reports the output translation. |
| Facade.Console | src/main.rs:235-240 | `console` runs `console <template>` and reports the status-only translation. |
| Facade.Hcl2Upgrade | src/main.rs:245-258 | `hcl2_upgrade` runs `hcl2_upgrade <template>` and reports the output translation. |
| Findings.BuilderDisablesColor | src/main.rs:36-37 | As written, a builder that leaves `color` unset makes the build pass `-color=false`. |
| Findings.EmptyBuilderBuildArgs | src/main.rs:36-37 | As written, an untouched builder gives `build -color=false <template>` rather than the default vector. |
| Findings.BuilderWithDefaultsKeepsColor | src/main.rs:44-56 | With the documented defaults, an unset `color` never adds `-color=false`, and an untouched builder gives `build <template>`. |
| Findings.TestBuilderBuildArgs | src/main.rs:336-343 | The command-construction test's builder turns colour off as written, and keeps it on with the documented defaults. |

## Left out

- build.rs is not part of this model. It only locates or downloads the Packer executable at compile time.
- Spawning, waiting for and reading from the child are the `spawn` parameter. Their blocking and the operating-system errors are not modelled beyond an opaque `IoFailure`.
- `Command` does not model stream setup. `status()` hands the caller's own stdin, stdout and stderr to the child. `output()` pipes stdout and stderr and gives the child a closed stdin. For a status-only operation, the streams of an `Exited` outcome stand for nothing the program holds, and `Process.StatusIgnoresStreams` shows they are never read.
- `String::from_utf8_lossy` and the `Display` of `ExitStatus` are the `decode` and `display` parameters. Lossy UTF-8 replacement and the platform's exit-status wording are not modelled. `ExitStatus` keeps only the exit code, so every child ended by a signal is `ExitStatus(None)`. `display` therefore cannot name the signal that the Unix `Display` prints.
- `PathBuf` and `Path` are plain strings. `var_file.display()` and `template.as_ref()` pass the text unchanged.
- `Path::exists` is the `fileExists` parameter, and `cfg!(target_os)` is the `Platform` value.
- `ConfigError` is declared but never raised, so it appears only as a variant.
- The `thiserror` display strings of `PackerError` are left out. The model keeps each variant and its payload, not its formatted text.
- The tests that change the process's current directory or create temporary directories are left out. The builder test's configuration is kept, in `Findings.TestBuilderBuildArgs`.
- The `build` argument vector follows the code: `-parallel-builds` and the number are two separate tokens (src/main.rs:95). The model does not show that Packer's flag parser accepts this split form. Packer's own `packer build -h` text spells the flag as `-parallel-builds=N`.
- Process.ExecuteCommand follows the code: a status-only failure carries only `Command failed with exit code: <status>`. `status()` (src/main.rs:189) passes the caller's streams to the child. For `build`, `init`, `validate`, `console`, `plugin install` and `plugin remove`, the child's output is therefore printed where the caller's output goes, not returned.
- Facade.WithWorkingDirOnlyMovesCwd states what the `Command` value holds, not which file runs. The executable is the relative path `./packer` or `./packer.exe` (src/main.rs:61-65). Once a working directory is set, whether that path is resolved against the caller's directory or the new one is a platform matter. It is left to `spawn`. `new` checked existence only in the caller's directory (src/main.rs:67).
- BuildParsing.ParseBuildArgsOfBuildArgs and BuildParsing.BuildArgsInjective require that no variable key contains `=`. Without that restriction, two variable lists can give the same vector; BuildParsing.VarKeyWithEqualsIsAmbiguous shows this.
- The `i32` of `parallel_builds` is the `I32` subset type, because no arithmetic is done on it. The `i32` has no wrap-around to model.

## Findings

| source | as written | input that shows it | evidently intended | confidence | as-written member | corrected member |
|---|---|---|---|---|---|---|
| src/main.rs:36-37 | `#[builder(default)]` on `color: bool` fills an unset colour with `bool::default()`, which is `false`. | `BuildOptionsBuilder::default().build()`, or the test's builder at src/main.rs:336-343: the build vector contains `-color=false`. | An unset colour takes the documented default `true` from `BuildOptions::default()`, as src/main.rs:51 says, so the builder adds no `-color=false`. | not executed | Findings.EmptyBuilderBuildArgs | Findings.BuilderWithDefaultsKeepsColor |
