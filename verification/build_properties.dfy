/**
 What the `build` argument vector promises: which tokens occur and how often,
 where each group sits, and that the positional parser inverts it.
 */
module BuildProperties {
  import opened Wrappers
  import opened Decimal
  import opened Options
  import opened Arguments

  /** A flag literal: `-` followed by a character that is neither a digit nor `v`. */
  predicate IsFlagLiteral(f: string) {
    |f| >= 2 && f[0] == '-' && f[1] != 'v' && !IsDigit(f[1])
  }

  lemma FlagLiterals()
    ensures IsFlagLiteral("-debug") && IsFlagLiteral("-force") && IsFlagLiteral("-parallel-builds")
    ensures IsFlagLiteral("-color=false") && IsFlagLiteral("-timestamp-ui")
  {
  }

  /** A rendered number is never a flag literal. */
  lemma NumberIsNotFlag(n: int, f: string)
    requires IsFlagLiteral(f)
    ensures IntToString(n) != f
  {
    var s := IntToString(n);
    if n < 0 {
      assert IsDigit(s[1..][0]);
    } else {
      assert IsDigit(s[0]);
    }
  }

  /** Variable and variable-file tokens are never flag literals. */
  lemma FlagNotInVarGroups(vars: seq<(string, string)>, paths: seq<string>, f: string)
    requires IsFlagLiteral(f)
    ensures f !in VarTokens(vars)
    ensures f !in VarFileTokens(paths)
  {
    forall i | 0 <= i < |vars|
      ensures VarTokens(vars)[i] != f
    {
      assert VarToken(vars[i])[1] == 'v';
    }
    forall i | 0 <= i < |paths|
      ensures VarFileTokens(paths)[i] != f
    {
      assert VarFileToken(paths[i])[1] == 'v';
    }
  }

  /** The head of a build vector is the fixed groups laid end to end. */
  lemma HeadOfBuildArgs(template: string, o: BuildOptions)
    ensures Head(BuildArgs(template, o)) == ["build"] + OptionTokens(o)
  {
  }

  /** No number token is a flag literal, so only the flag itself can count. */
  lemma ParallelGroupCount(parallel: Option<I32>, f: string)
    requires IsFlagLiteral(f)
    ensures multiset(ParallelTokens(parallel))[f] == Ord(parallel.Some? && f == "-parallel-builds")
  {
    match parallel
    case None =>
    case Some(n) =>
      NumberIsNotFlag(n, f);
  }

  /** The flag group splits into its five conditional parts. */
  lemma FlagGroupParts(o: BuildOptions, f: string)
    ensures multiset(FlagTokens(o))[f]
         == multiset(Flag(o.debug, "-debug"))[f] + multiset(Flag(o.force, "-force"))[f]
          + multiset(ParallelTokens(o.parallelBuilds))[f]
          + multiset(Flag(!o.color, "-color=false"))[f] + multiset(Flag(o.timestampUi, "-timestamp-ui"))[f]
  {
  }

  /** The non-template tokens, as a multiset, are the subcommand and the three groups. */
  lemma HeadMultiset(template: string, o: BuildOptions)
    ensures multiset(Head(BuildArgs(template, o)))
         == multiset(["build"]) + multiset(FlagTokens(o)) + multiset(VarTokens(o.vars)) + multiset(VarFileTokens(o.varFiles))
  {
    HeadOfBuildArgs(template, o);
    GroupsMultiset(FlagTokens(o), VarTokens(o.vars), VarFileTokens(o.varFiles));
  }

  lemma GroupsMultiset(flags: seq<string>, vs: seq<string>, fs: seq<string>)
    ensures multiset(["build"] + (flags + vs + fs)) == multiset(["build"]) + multiset(flags) + multiset(vs) + multiset(fs)
  {
  }

  /** A flag literal counts the same among the non-template tokens as within the flag group. */
  lemma HeadCountIsFlagGroupCount(template: string, o: BuildOptions, f: string)
    requires IsFlagLiteral(f)
    ensures multiset(Head(BuildArgs(template, o)))[f] == multiset(FlagTokens(o))[f]
  {
    HeadMultiset(template, o);
    FlagNotInVarGroups(o.vars, o.varFiles, f);
    assert multiset(VarTokens(o.vars))[f] == 0;
    assert multiset(VarFileTokens(o.varFiles))[f] == 0;
    assert multiset(["build"])[f] == 0;
  }

  lemma DebugOccurrences(template: string, o: BuildOptions)
    ensures multiset(Head(BuildArgs(template, o)))["-debug"] == Ord(o.debug)
  {
    FlagLiterals();
    HeadCountIsFlagGroupCount(template, o, "-debug");
    FlagGroupParts(o, "-debug");
    ParallelGroupCount(o.parallelBuilds, "-debug");
  }

  lemma ForceOccurrences(template: string, o: BuildOptions)
    ensures multiset(Head(BuildArgs(template, o)))["-force"] == Ord(o.force)
  {
    FlagLiterals();
    HeadCountIsFlagGroupCount(template, o, "-force");
    FlagGroupParts(o, "-force");
    ParallelGroupCount(o.parallelBuilds, "-force");
  }

  lemma ParallelOccurrences(template: string, o: BuildOptions)
    ensures multiset(Head(BuildArgs(template, o)))["-parallel-builds"] == Ord(o.parallelBuilds.Some?)
  {
    FlagLiterals();
    HeadCountIsFlagGroupCount(template, o, "-parallel-builds");
    FlagGroupParts(o, "-parallel-builds");
    ParallelGroupCount(o.parallelBuilds, "-parallel-builds");
  }

  lemma NoColorOccurrences(template: string, o: BuildOptions)
    ensures multiset(Head(BuildArgs(template, o)))["-color=false"] == Ord(!o.color)
  {
    FlagLiterals();
    HeadCountIsFlagGroupCount(template, o, "-color=false");
    FlagGroupParts(o, "-color=false");
    ParallelGroupCount(o.parallelBuilds, "-color=false");
  }

  lemma TimestampUiOccurrences(template: string, o: BuildOptions)
    ensures multiset(Head(BuildArgs(template, o)))["-timestamp-ui"] == Ord(o.timestampUi)
  {
    FlagLiterals();
    HeadCountIsFlagGroupCount(template, o, "-timestamp-ui");
    FlagGroupParts(o, "-timestamp-ui");
    ParallelGroupCount(o.parallelBuilds, "-timestamp-ui");
  }

  /**
   Each on/off flag occurs among the non-template tokens once when its
   option is set and not at all otherwise; `-parallel-builds` occurs once
   exactly when a count is given.
   */
  lemma FlagOccurrences(template: string, o: BuildOptions)
    ensures multiset(Head(BuildArgs(template, o)))["-debug"] == Ord(o.debug)
    ensures multiset(Head(BuildArgs(template, o)))["-force"] == Ord(o.force)
    ensures multiset(Head(BuildArgs(template, o)))["-parallel-builds"] == Ord(o.parallelBuilds.Some?)
    ensures multiset(Head(BuildArgs(template, o)))["-color=false"] == Ord(!o.color)
    ensures multiset(Head(BuildArgs(template, o)))["-timestamp-ui"] == Ord(o.timestampUi)
  {
    DebugOccurrences(template, o);
    ForceOccurrences(template, o);
    ParallelOccurrences(template, o);
    NoColorOccurrences(template, o);
    TimestampUiOccurrences(template, o);
  }

  /** Membership form of the above: a flag is emitted iff its option asks for it. */
  lemma FlagPresentIffSet(template: string, o: BuildOptions)
    ensures "-debug" in Head(BuildArgs(template, o)) <==> o.debug
    ensures "-force" in Head(BuildArgs(template, o)) <==> o.force
    ensures "-parallel-builds" in Head(BuildArgs(template, o)) <==> o.parallelBuilds.Some?
    ensures "-color=false" in Head(BuildArgs(template, o)) <==> !o.color
    ensures "-timestamp-ui" in Head(BuildArgs(template, o)) <==> o.timestampUi
  {
    FlagOccurrences(template, o);
  }

  lemma FlagTokensLength(o: BuildOptions)
    ensures |FlagTokens(o)| == SetFlagCount(o) + 2 * Ord(o.parallelBuilds.Some?)
  {
  }

  /** One token per set flag, two for a cap, one per variable and variable file, and the two ends. */
  lemma BuildArgsLength(template: string, o: BuildOptions)
    ensures |BuildArgs(template, o)| == 2 + SetFlagCount(o) + 2 * Ord(o.parallelBuilds.Some?) + |o.vars| + |o.varFiles|
  {
    FlagTokensLength(o);
  }

  /** A parallelism cap is the flag followed by its decimal count, right after `-debug`/`-force`. */
  lemma ParallelPair(template: string, o: BuildOptions)
    requires o.parallelBuilds.Some?
    ensures BuildArgs(template, o)[1 + Ord(o.debug) + Ord(o.force)] == "-parallel-builds"
    ensures BuildArgs(template, o)[2 + Ord(o.debug) + Ord(o.force)] == IntToString(o.parallelBuilds.value)
  {
    var argv := BuildArgs(template, o);
    var flags := FlagTokens(o);
    var before := Flag(o.debug, "-debug") + Flag(o.force, "-force");
    var pt := ParallelTokens(o.parallelBuilds);
    var k := |before|;
    assert flags == before + pt + Flag(!o.color, "-color=false") + Flag(o.timestampUi, "-timestamp-ui");
    assert flags[k] == (before + pt)[k] == pt[0];
    assert flags[k + 1] == (before + pt)[k + 1] == pt[1];
    var rest := OptionTokens(o);
    assert rest == flags + VarTokens(o.vars) + VarFileTokens(o.varFiles);
    assert argv == ["build"] + rest + [template];
    assert argv[1 + k] == rest[k] == flags[k];
    assert argv[2 + k] == rest[k + 1] == flags[k + 1];
  }

  /** In `build`, three groups and a template, each group starts where the previous one ends. */
  lemma GroupPositions(argv: seq<string>, flags: seq<string>, vs: seq<string>, fs: seq<string>, template: string)
    requires argv == ["build"] + (flags + vs + fs) + [template]
    ensures forall i :: 0 <= i < |vs| ==> argv[1 + |flags| + i] == vs[i]
    ensures forall j :: 0 <= j < |fs| ==> argv[1 + |flags| + |vs| + j] == fs[j]
  {
    forall i | 0 <= i < |vs|
      ensures argv[1 + |flags| + i] == vs[i]
    {
      assert argv[1 + |flags| + i] == (flags + vs + fs)[|flags| + i] == (flags + vs)[|flags| + i];
    }
    forall j | 0 <= j < |fs|
      ensures argv[1 + |flags| + |vs| + j] == fs[j]
    {
      assert argv[1 + |flags| + |vs| + j] == (flags + vs + fs)[|flags| + |vs| + j];
    }
  }

  /** Where the variable group starts: after the subcommand and the flag group. */
  function VarGroupStart(o: BuildOptions): nat {
    1 + SetFlagCount(o) + 2 * Ord(o.parallelBuilds.Some?)
  }

  /** The `i`-th variable token comes `i` places after the flags. */
  lemma VarPosition(template: string, o: BuildOptions, i: nat)
    requires i < |o.vars|
    ensures VarGroupStart(o) + i < |BuildArgs(template, o)|
    ensures BuildArgs(template, o)[VarGroupStart(o) + i] == VarToken(o.vars[i])
  {
    var argv := BuildArgs(template, o);
    var flags, vs, fs := FlagTokens(o), VarTokens(o.vars), VarFileTokens(o.varFiles);
    assert VarGroupStart(o) == 1 + |flags| by {
      FlagTokensLength(o);
    }
    GroupPositions(argv, flags, vs, fs, template);
    assert argv[1 + |flags| + i] == vs[i];
  }

  /** The `j`-th variable-file token comes `j` places after the variables. */
  lemma VarFilePosition(template: string, o: BuildOptions, j: nat)
    requires j < |o.varFiles|
    ensures VarGroupStart(o) + |o.vars| + j < |BuildArgs(template, o)| - 1
    ensures BuildArgs(template, o)[VarGroupStart(o) + |o.vars| + j] == VarFileToken(o.varFiles[j])
  {
    var argv := BuildArgs(template, o);
    var flags, vs, fs := FlagTokens(o), VarTokens(o.vars), VarFileTokens(o.varFiles);
    assert VarGroupStart(o) == 1 + |flags| by {
      FlagTokensLength(o);
    }
    GroupPositions(argv, flags, vs, fs, template);
    assert argv[1 + |flags| + |vs| + j] == fs[j];
  }

  /************************************************************************
   * Counting tokens by prefix
   ************************************************************************/

  function CountPrefixed(ts: seq<string>, prefix: string): nat
    decreases |ts|
  {
    if |ts| == 0 then 0 else Ord(HasPrefix(ts[0], prefix)) + CountPrefixed(ts[1..], prefix)
  }

  lemma {:induction false} CountPrefixedConcat(a: seq<string>, b: seq<string>, prefix: string)
    ensures CountPrefixed(a + b, prefix) == CountPrefixed(a, prefix) + CountPrefixed(b, prefix)
    decreases |a|
  {
    if |a| > 0 {
      assert (a + b)[1..] == a[1..] + b;
      CountPrefixedConcat(a[1..], b, prefix);
    } else {
      assert a + b == b;
    }
  }

  lemma {:induction false} CountPrefixedAll(ts: seq<string>, prefix: string)
    requires forall i :: 0 <= i < |ts| ==> HasPrefix(ts[i], prefix)
    ensures CountPrefixed(ts, prefix) == |ts|
    decreases |ts|
  {
    if |ts| > 0 {
      CountPrefixedAll(ts[1..], prefix);
    }
  }

  lemma {:induction false} CountPrefixedNone(ts: seq<string>, prefix: string)
    requires forall i :: 0 <= i < |ts| ==> !HasPrefix(ts[i], prefix)
    ensures CountPrefixed(ts, prefix) == 0
    decreases |ts|
  {
    if |ts| > 0 {
      CountPrefixedNone(ts[1..], prefix);
    }
  }

  /** Tokens shaped `-v…`, as every variable and variable-file token is. */
  predicate DashV(s: string) {
    |s| >= 2 && s[0] == '-' && s[1] == 'v'
  }

  lemma VarPrefixIsDashV(s: string, prefix: string)
    requires prefix == "-var=" || prefix == "-var-file="
    requires HasPrefix(s, prefix)
    ensures DashV(s)
  {
    assert s[0] == s[..|prefix|][0] == prefix[0];
    assert s[1] == s[..|prefix|][1] == prefix[1];
  }

  lemma NumberIsNotDashV(n: int)
    ensures !DashV(IntToString(n))
  {
    var s := IntToString(n);
    if n < 0 {
      assert IsDigit(s[1..][0]);
    } else {
      assert IsDigit(s[0]);
    }
  }

  /** Neither a flag nor a rendered number starts with `-var`. */
  lemma FlagGroupHasNoVarPrefix(o: BuildOptions, prefix: string)
    requires prefix == "-var=" || prefix == "-var-file="
    ensures forall i :: 0 <= i < |FlagTokens(o)| ==> !HasPrefix(FlagTokens(o)[i], prefix)
  {
    var ts := FlagTokens(o);
    FlagLiterals();
    if o.parallelBuilds.Some? {
      NumberIsNotDashV(o.parallelBuilds.value);
    }
    forall i | 0 <= i < |ts|
      ensures !HasPrefix(ts[i], prefix)
    {
      assert ts[i] in ts;
      assert !DashV(ts[i]);
      if HasPrefix(ts[i], prefix) {
        VarPrefixIsDashV(ts[i], prefix);
      }
    }
  }

  /** A variable token starts with `-var=` and not with `-var-file=`. */
  lemma VarTokenPrefix(kv: (string, string))
    ensures HasPrefix(VarToken(kv), "-var=")
    ensures !HasPrefix(VarToken(kv), "-var-file=")
  {
    var t := VarToken(kv);
    assert t == "-var=" + (kv.0 + "=" + kv.1);
    assert t[4] == '=';
  }

  /** A variable-file token starts with `-var-file=` and not with `-var=`. */
  lemma VarFileTokenPrefix(path: string)
    ensures HasPrefix(VarFileToken(path), "-var-file=")
    ensures !HasPrefix(VarFileToken(path), "-var=")
  {
    assert VarFileToken(path)[4] == '-';
  }

  lemma VarGroupCounts(vars: seq<(string, string)>)
    ensures CountPrefixed(VarTokens(vars), "-var=") == |vars|
    ensures CountPrefixed(VarTokens(vars), "-var-file=") == 0
  {
    var vs := VarTokens(vars);
    forall i | 0 <= i < |vs|
      ensures HasPrefix(vs[i], "-var=") && !HasPrefix(vs[i], "-var-file=")
    {
      VarTokenPrefix(vars[i]);
    }
    CountPrefixedAll(vs, "-var=");
    CountPrefixedNone(vs, "-var-file=");
  }

  lemma VarFileGroupCounts(paths: seq<string>)
    ensures CountPrefixed(VarFileTokens(paths), "-var-file=") == |paths|
    ensures CountPrefixed(VarFileTokens(paths), "-var=") == 0
  {
    var fs := VarFileTokens(paths);
    forall j | 0 <= j < |fs|
      ensures HasPrefix(fs[j], "-var-file=") && !HasPrefix(fs[j], "-var=")
    {
      VarFileTokenPrefix(paths[j]);
    }
    CountPrefixedAll(fs, "-var-file=");
    CountPrefixedNone(fs, "-var=");
  }

  lemma FlagGroupCounts(o: BuildOptions)
    ensures CountPrefixed(["build"], "-var=") == 0 && CountPrefixed(["build"], "-var-file=") == 0
    ensures CountPrefixed(FlagTokens(o), "-var=") == 0
    ensures CountPrefixed(FlagTokens(o), "-var-file=") == 0
  {
    assert "build"[0] != '-';
    FlagGroupHasNoVarPrefix(o, "-var=");
    FlagGroupHasNoVarPrefix(o, "-var-file=");
    CountPrefixedNone(FlagTokens(o), "-var=");
    CountPrefixedNone(FlagTokens(o), "-var-file=");
  }

  /**
   Among the non-template tokens there are exactly as many `-var=` tokens as
   variables and exactly as many `-var-file=` tokens as variable files;
   duplicate keys are kept.
   */
  lemma VarTokenCounts(template: string, o: BuildOptions)
    ensures CountPrefixed(Head(BuildArgs(template, o)), "-var=") == |o.vars|
    ensures CountPrefixed(Head(BuildArgs(template, o)), "-var-file=") == |o.varFiles|
  {
    HeadOfBuildArgs(template, o);
    var flags := FlagTokens(o);
    var vs := VarTokens(o.vars);
    var fs := VarFileTokens(o.varFiles);
    assert OptionTokens(o) == flags + vs + fs;
    CountPrefixedConcat(["build"], OptionTokens(o), "-var=");
    CountPrefixedConcat(flags + vs, fs, "-var=");
    CountPrefixedConcat(flags, vs, "-var=");
    CountPrefixedConcat(["build"], OptionTokens(o), "-var-file=");
    CountPrefixedConcat(flags + vs, fs, "-var-file=");
    CountPrefixedConcat(flags, vs, "-var-file=");
    FlagGroupCounts(o);
    VarGroupCounts(o.vars);
    VarFileGroupCounts(o.varFiles);
  }

  /** Default options, and only they, give the bare `build <template>`. */
  lemma BuildArgsBareIffDefault(template: string, o: BuildOptions)
    ensures BuildArgs(template, o) == ["build", template] <==> o == Default()
  {
    if BuildArgs(template, o) == ["build", template] {
      assert |BuildArgs(template, o)| == 2;
    }
  }
}
