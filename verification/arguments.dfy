/**
 The argument vector of a `build` invocation: one token per set flag in a
 fixed order, two tokens for a parallelism cap, one token per variable and
 per variable file in input order, and the template path last. A positional
 parser reads such a vector back, which shows that no information other than
 what the external tool itself cannot tell apart is lost.
 */
module Arguments {
  import opened Wrappers
  import opened Decimal
  import opened Options

  predicate HasPrefix(s: string, prefix: string) {
    |prefix| <= |s| && s[..|prefix|] == prefix
  }

  function Ord(b: bool): nat {
    if b then 1 else 0
  }

  /** The single token of an on/off flag, present exactly when it is on. */
  function Flag(on: bool, token: string): (ts: seq<string>)
    ensures |ts| == Ord(on)
    ensures on ==> ts == [token]
  {
    if on then [token] else []
  }

  /** `-parallel-builds` and the decimal count, as two separate tokens. */
  function ParallelTokens(parallel: Option<I32>): (ts: seq<string>)
    ensures parallel.None? ==> ts == []
    ensures parallel.Some? ==> |ts| == 2 && ts[0] == "-parallel-builds"
  {
    match parallel
    case None => []
    case Some(n) => ["-parallel-builds", IntToString(n)]
  }

  /** The flag tokens of a build, in the order the facade emits them. */
  function FlagTokens(o: BuildOptions): seq<string> {
    Flag(o.debug, "-debug") + Flag(o.force, "-force") + ParallelTokens(o.parallelBuilds)
    + Flag(!o.color, "-color=false") + Flag(o.timestampUi, "-timestamp-ui")
  }

  /** How many of the four on/off flags a build emits. */
  function SetFlagCount(o: BuildOptions): nat {
    Ord(o.debug) + Ord(o.force) + Ord(!o.color) + Ord(o.timestampUi)
  }

  function VarToken(kv: (string, string)): string {
    "-var=" + kv.0 + "=" + kv.1
  }

  function VarFileToken(path: string): string {
    "-var-file=" + path
  }

  function VarTokens(vars: seq<(string, string)>): (ts: seq<string>)
    ensures |ts| == |vars|
    ensures forall i :: 0 <= i < |vars| ==> ts[i] == VarToken(vars[i])
  {
    if |vars| == 0 then [] else [VarToken(vars[0])] + VarTokens(vars[1..])
  }

  function VarFileTokens(paths: seq<string>): (ts: seq<string>)
    ensures |ts| == |paths|
    ensures forall i :: 0 <= i < |paths| ==> ts[i] == VarFileToken(paths[i])
  {
    if |paths| == 0 then [] else [VarFileToken(paths[0])] + VarFileTokens(paths[1..])
  }

  /** Everything `Packer::build` appends between the subcommand and the template. */
  function OptionTokens(o: BuildOptions): seq<string> {
    FlagTokens(o) + VarTokens(o.vars) + VarFileTokens(o.varFiles)
  }

  /** The arguments `Packer::build` passes to the executable. */
  function BuildArgs(template: string, o: BuildOptions): (argv: seq<string>)
    ensures |argv| >= 2
    ensures argv[0] == "build"
    ensures argv[|argv| - 1] == template
  {
    ["build"] + OptionTokens(o) + [template]
  }

  /** Every token but the final template path. */
  function Head(argv: seq<string>): seq<string>
    requires |argv| >= 1
  {
    argv[..|argv| - 1]
  }

  /************************************************************************
   * Reading an argument vector back
   ************************************************************************/

  /** The position of the first `c` in `s`, if any. */
  function IndexOf(s: string, c: char): (r: Option<nat>)
    ensures r.None? ==> c !in s
    ensures r.Some? ==> r.value < |s| && s[r.value] == c && c !in s[..r.value]
  {
    if |s| == 0 then None
    else if s[0] == c then Some(0)
    else match IndexOf(s[1..], c)
      case None => None
      case Some(i) => assert s[1..][..i] == s[1..i + 1]; Some(i + 1)
  }

  /** Splits `key=value` at its first `=`. */
  function SplitVar(s: string): Option<(string, string)> {
    match IndexOf(s, '=')
    case None => None
    case Some(i) => Some((s[..i], s[i + 1..]))
  }

  /** Variables whose keys contain no `=`: the only ones a token can name unambiguously. */
  predicate PlainKeys(vars: seq<(string, string)>) {
    forall i :: 0 <= i < |vars| ==> '=' !in vars[i].0
  }

  function TakeFlag(ts: seq<string>, token: string): (bool, seq<string>) {
    if |ts| >= 1 && ts[0] == token then (true, ts[1..]) else (false, ts)
  }

  function TakeParallel(ts: seq<string>): Option<(Option<I32>, seq<string>)> {
    if |ts| >= 1 && ts[0] == "-parallel-builds" then
      if |ts| >= 2 then
        match ParseInt(ts[1])
        case Some(n) =>
          if I32_MIN <= n <= I32_MAX then Some((Some(n as I32), ts[2..])) else None
        case None => None
      else None
    else Some((None, ts))
  }

  /** Reads the longest run of `-var=` tokens. */
  function ParseVars(ts: seq<string>): Option<(seq<(string, string)>, seq<string>)>
    decreases |ts|
  {
    if |ts| == 0 || !HasPrefix(ts[0], "-var=") then Some(([], ts))
    else match SplitVar(ts[0][5..])
      case None => None
      case Some(kv) =>
        match ParseVars(ts[1..])
        case None => None
        case Some(rest) => Some(([kv] + rest.0, rest.1))
  }

  /** Reads tokens that must all be `-var-file=` tokens. */
  function ParseVarFiles(ts: seq<string>): Option<seq<string>>
    decreases |ts|
  {
    if |ts| == 0 then Some([])
    else if !HasPrefix(ts[0], "-var-file=") then None
    else match ParseVarFiles(ts[1..])
      case None => None
      case Some(rest) => Some([ts[0][10..]] + rest)
  }

  /** Reads the variable group and then the variable-file group. */
  function ParseVarGroups(ts: seq<string>): Option<(seq<(string, string)>, seq<string>)> {
    match ParseVars(ts)
    case None => None
    case Some(vs) =>
      match ParseVarFiles(vs.1)
      case None => None
      case Some(files) => Some((vs.0, files))
  }

  /** Reads the tokens between `build` and the template, in the fixed order. */
  function ParseOptionTokens(ts: seq<string>): Option<BuildOptions> {
    var (debug, r1) := TakeFlag(ts, "-debug");
    var (force, r2) := TakeFlag(r1, "-force");
    match TakeParallel(r2)
    case None => None
    case Some(p) =>
      var (noColor, r4) := TakeFlag(p.1, "-color=false");
      var (timestampUi, r5) := TakeFlag(r4, "-timestamp-ui");
      match ParseVarGroups(r5)
      case None => None
      case Some(g) => Some(BuildOptions(p.0, debug, force, timestampUi, !noColor, g.0, g.1))
  }

  /** Recovers the template and the options from a build argument vector. */
  function ParseBuildArgs(argv: seq<string>): Option<(string, BuildOptions)> {
    if |argv| < 2 || argv[0] != "build" then None
    else
      match ParseOptionTokens(argv[1..|argv| - 1])
      case None => None
      case Some(o) => Some((argv[|argv| - 1], o))
  }
}
