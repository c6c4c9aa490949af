/**
 The positional parser inverts `BuildArgs`: it recovers the template and the
 options from every vector `BuildArgs` emits (as long as no variable key
 contains `=`), and it accepts no other vector. Hence the build arguments
 determine the options, and each option's tokens sit in the one slot the
 fixed order gives them.
 */
module BuildParsing {
  import opened Wrappers
  import opened Decimal
  import opened Options
  import opened Arguments
  import opened BuildProperties

  /** The option tokens with each group appended to the rest, as the parser reads them. */
  function OptionTail(o: BuildOptions, stage: nat): seq<string>
    requires stage <= 5
    decreases 5 - stage
  {
    match stage
    case 0 => Flag(o.debug, "-debug") + OptionTail(o, 1)
    case 1 => Flag(o.force, "-force") + OptionTail(o, 2)
    case 2 => ParallelTokens(o.parallelBuilds) + OptionTail(o, 3)
    case 3 => Flag(!o.color, "-color=false") + OptionTail(o, 4)
    case 4 => Flag(o.timestampUi, "-timestamp-ui") + OptionTail(o, 5)
    case _ => VarTokens(o.vars) + VarFileTokens(o.varFiles)
  }

  lemma Assoc(a: seq<string>, b: seq<string>, c: seq<string>)
    ensures a + b + c == a + (b + c)
  {
  }

  lemma AssocRight(d: seq<string>, f: seq<string>, p: seq<string>, c: seq<string>,
                   t: seq<string>, v: seq<string>, vf: seq<string>)
    ensures d + f + p + c + t + v + vf == d + (f + (p + (c + (t + (v + vf)))))
  {
    Assoc(d + f + p + c + t, v, vf);
    Assoc(d + f + p + c, t, v + vf);
    Assoc(d + f + p, c, t + (v + vf));
    Assoc(d + f, p, c + (t + (v + vf)));
    Assoc(d, f, p + (c + (t + (v + vf))));
  }

  lemma OptionTailUnfolded(o: BuildOptions)
    ensures OptionTail(o, 0)
         == Flag(o.debug, "-debug") + (Flag(o.force, "-force") + (ParallelTokens(o.parallelBuilds)
          + (Flag(!o.color, "-color=false") + (Flag(o.timestampUi, "-timestamp-ui")
          + (VarTokens(o.vars) + VarFileTokens(o.varFiles))))))
  {
  }

  /** Between `build` and the template lie the option groups in their fixed order. */
  lemma BuildArgsBody(template: string, o: BuildOptions)
    ensures var argv := BuildArgs(template, o); argv[1..|argv| - 1] == OptionTail(o, 0)
  {
    var argv := BuildArgs(template, o);
    assert argv[1..|argv| - 1] == OptionTokens(o);
    OptionTailUnfolded(o);
    AssocRight(Flag(o.debug, "-debug"), Flag(o.force, "-force"), ParallelTokens(o.parallelBuilds),
      Flag(!o.color, "-color=false"), Flag(o.timestampUi, "-timestamp-ui"),
      VarTokens(o.vars), VarFileTokens(o.varFiles));
  }

  /************************************************************************
   * From options to a parsed vector
   ************************************************************************/

  /** The slot a token may occupy in the fixed order; every `-v…` token ranks last. */
  function Rank(x: string): nat {
    if x == "-debug" then 0
    else if x == "-force" then 1
    else if x == "-parallel-builds" then 2
    else if x == "-color=false" then 3
    else if x == "-timestamp-ui" then 4
    else 5
  }

  lemma DashVRanksLast(x: string)
    requires DashV(x)
    ensures Rank(x) == 5
  {
    FlagLiterals();
  }

  /** Each group begins with a token no earlier group's flag can be mistaken for. */
  lemma {:induction false} OptionTailRank(o: BuildOptions, stage: nat)
    requires stage <= 5
    ensures |OptionTail(o, stage)| > 0 ==> Rank(OptionTail(o, stage)[0]) >= stage
    decreases 5 - stage
  {
    var ts := OptionTail(o, stage);
    if stage < 5 {
      OptionTailRank(o, stage + 1);
    } else if |ts| > 0 {
      if |o.vars| > 0 {
        assert ts[0] == VarToken(o.vars[0]);
        VarTokenPrefix(o.vars[0]);
        VarPrefixIsDashV(ts[0], "-var=");
      } else {
        assert ts[0] == VarFileToken(o.varFiles[0]);
        VarFileTokenPrefix(o.varFiles[0]);
        VarPrefixIsDashV(ts[0], "-var-file=");
      }
      DashVRanksLast(ts[0]);
    }
  }

  lemma TakeFlagOf(on: bool, token: string, rest: seq<string>)
    requires |rest| == 0 || rest[0] != token
    ensures TakeFlag(Flag(on, token) + rest, token) == (on, rest)
  {
    if on {
      assert ([token] + rest)[1..] == rest;
    } else {
      assert [] + rest == rest;
    }
  }

  lemma TakeParallelOf(parallel: Option<I32>, rest: seq<string>)
    requires |rest| == 0 || rest[0] != "-parallel-builds"
    ensures TakeParallel(ParallelTokens(parallel) + rest) == Some((parallel, rest))
  {
    var ts := ParallelTokens(parallel) + rest;
    match parallel
    case None =>
      assert ts == rest;
    case Some(n) =>
      assert ts[1] == IntToString(n);
      ParseIntToString(n);
      assert ts[2..] == rest;
  }

  lemma SplitVarOf(key: string, value: string)
    requires '=' !in key
    ensures SplitVar(key + "=" + value) == Some((key, value))
  {
    var s := key + "=" + value;
    assert s[|key|] == '=';
    assert s[..|key|] == key;
    var i := IndexOf(s, '=').value;
    assert i == |key|;
    assert s[i + 1..] == value;
  }

  lemma {:induction false} ParseVarsOf(vars: seq<(string, string)>, rest: seq<string>)
    requires PlainKeys(vars)
    requires |rest| == 0 || !HasPrefix(rest[0], "-var=")
    ensures ParseVars(VarTokens(vars) + rest) == Some((vars, rest))
    decreases |vars|
  {
    var ts := VarTokens(vars) + rest;
    if |vars| == 0 {
      assert ts == rest;
    } else {
      var kv := vars[0];
      assert ts[0] == VarToken(kv);
      VarTokenPrefix(kv);
      assert ts[0][5..] == kv.0 + "=" + kv.1;
      SplitVarOf(kv.0, kv.1);
      assert ts[1..] == VarTokens(vars[1..]) + rest;
      assert PlainKeys(vars[1..]) by {
        forall i | 0 <= i < |vars[1..]|
          ensures '=' !in vars[1..][i].0
        {
          assert vars[1..][i] == vars[i + 1];
        }
      }
      ParseVarsOf(vars[1..], rest);
      assert [kv] + vars[1..] == vars;
    }
  }

  /** Stripping the prefix of a variable-file token gives back its path. */
  lemma VarFileTokenStrips(path: string)
    ensures VarFileToken(path)[10..] == path
  {
  }

  lemma VarFileTokensCons(path: string, paths: seq<string>)
    ensures VarFileTokens([path] + paths) == [VarFileToken(path)] + VarFileTokens(paths)
  {
    assert ([path] + paths)[1..] == paths;
  }

  lemma {:induction false} ParseVarFilesOf(paths: seq<string>)
    ensures ParseVarFiles(VarFileTokens(paths)) == Some(paths)
    decreases |paths|
  {
    if |paths| > 0 {
      var path, tail := paths[0], paths[1..];
      assert paths == [path] + tail;
      VarFileTokensCons(path, tail);
      var ts := [VarFileToken(path)] + VarFileTokens(tail);
      VarFileTokenPrefix(path);
      VarFileTokenStrips(path);
      assert ts[1..] == VarFileTokens(tail);
      ParseVarFilesOf(tail);
    }
  }

  lemma ParseVarGroupsOf(o: BuildOptions)
    requires PlainKeys(o.vars)
    ensures ParseVarGroups(OptionTail(o, 5)) == Some((o.vars, o.varFiles))
  {
    var files := VarFileTokens(o.varFiles);
    if |files| > 0 {
      VarFileTokenPrefix(o.varFiles[0]);
    }
    ParseVarsOf(o.vars, files);
    ParseVarFilesOf(o.varFiles);
  }

  /** Each stage of the parser consumes exactly its own group. */
  lemma ParseStages(o: BuildOptions)
    ensures TakeFlag(OptionTail(o, 0), "-debug") == (o.debug, OptionTail(o, 1))
    ensures TakeFlag(OptionTail(o, 1), "-force") == (o.force, OptionTail(o, 2))
    ensures TakeParallel(OptionTail(o, 2)) == Some((o.parallelBuilds, OptionTail(o, 3)))
    ensures TakeFlag(OptionTail(o, 3), "-color=false") == (!o.color, OptionTail(o, 4))
    ensures TakeFlag(OptionTail(o, 4), "-timestamp-ui") == (o.timestampUi, OptionTail(o, 5))
  {
    FlagLiterals();
    OptionTailRank(o, 1);
    TakeFlagOf(o.debug, "-debug", OptionTail(o, 1));
    OptionTailRank(o, 2);
    TakeFlagOf(o.force, "-force", OptionTail(o, 2));
    OptionTailRank(o, 3);
    TakeParallelOf(o.parallelBuilds, OptionTail(o, 3));
    OptionTailRank(o, 4);
    TakeFlagOf(!o.color, "-color=false", OptionTail(o, 4));
    OptionTailRank(o, 5);
    TakeFlagOf(o.timestampUi, "-timestamp-ui", OptionTail(o, 5));
  }

  /** Parsing what `BuildArgs` emits recovers the template and the options. */
  lemma ParseBuildArgsOfBuildArgs(template: string, o: BuildOptions)
    requires PlainKeys(o.vars)
    ensures ParseBuildArgs(BuildArgs(template, o)) == Some((template, o))
  {
    BuildArgsBody(template, o);
    ParseStages(o);
    ParseVarGroupsOf(o);
    assert ParseOptionTokens(OptionTail(o, 0)) == Some(o);
  }

  /************************************************************************
   * From a parsed vector back to options
   ************************************************************************/

  lemma TakeFlagSplits(ts: seq<string>, token: string)
    ensures Flag(TakeFlag(ts, token).0, token) + TakeFlag(ts, token).1 == ts
  {
    if |ts| >= 1 && ts[0] == token {
      assert [ts[0]] + ts[1..] == ts;
    } else {
      assert [] + ts == ts;
    }
  }

  lemma TakeParallelSplits(ts: seq<string>, parallel: Option<I32>, rest: seq<string>)
    requires TakeParallel(ts) == Some((parallel, rest))
    ensures ParallelTokens(parallel) + rest == ts
  {
    if |ts| >= 1 && ts[0] == "-parallel-builds" {
      ToStringOfParseInt(ts[1], parallel.value);
      assert ["-parallel-builds", ts[1]] + ts[2..] == ts;
    } else {
      assert [] + ts == ts;
    }
  }

  lemma SplitVarJoins(s: string, key: string, value: string)
    requires SplitVar(s) == Some((key, value))
    ensures key + "=" + value == s
    ensures '=' !in key
  {
    var i := IndexOf(s, '=').value;
    assert s == s[..i] + [s[i]] + s[i + 1..];
  }

  lemma VarTokenJoins(t: string, kv: (string, string))
    requires HasPrefix(t, "-var=")
    requires SplitVar(t[5..]) == Some(kv)
    ensures VarToken(kv) == t
    ensures '=' !in kv.0
  {
    SplitVarJoins(t[5..], kv.0, kv.1);
    assert t == t[..5] + t[5..];
  }

  lemma VarTokensCons(kv: (string, string), vars: seq<(string, string)>)
    ensures VarTokens([kv] + vars) == [VarToken(kv)] + VarTokens(vars)
    ensures PlainKeys(vars) && '=' !in kv.0 ==> PlainKeys([kv] + vars)
  {
    assert ([kv] + vars)[1..] == vars;
    if PlainKeys(vars) && '=' !in kv.0 {
      forall i | 0 <= i < |[kv] + vars|
        ensures '=' !in ([kv] + vars)[i].0
      {
        if i > 0 {
          assert ([kv] + vars)[i] == vars[i - 1];
        }
      }
    }
  }

  lemma {:induction false} ParseVarsSplits(ts: seq<string>, vars: seq<(string, string)>, rest: seq<string>)
    requires ParseVars(ts) == Some((vars, rest))
    ensures VarTokens(vars) + rest == ts
    ensures PlainKeys(vars)
    ensures |rest| == 0 || !HasPrefix(rest[0], "-var=")
    decreases |ts|
  {
    if |ts| == 0 || !HasPrefix(ts[0], "-var=") {
      assert [] + ts == ts;
    } else {
      var kv := SplitVar(ts[0][5..]).value;
      var tail := ParseVars(ts[1..]).value;
      assert vars == [kv] + tail.0 && rest == tail.1;
      ParseVarsSplits(ts[1..], tail.0, tail.1);
      VarTokenJoins(ts[0], kv);
      VarTokensCons(kv, tail.0);
      assert VarTokens(vars) + rest == [ts[0]] + (VarTokens(tail.0) + rest);
      assert ts == [ts[0]] + ts[1..];
    }
  }

  /** A token with the variable-file prefix is the token of what follows the prefix. */
  lemma VarFileTokenJoins(t: string)
    requires HasPrefix(t, "-var-file=")
    ensures VarFileToken(t[10..]) == t
  {
    assert t == t[..10] + t[10..];
  }

  lemma {:induction false} ParseVarFilesJoins(ts: seq<string>, paths: seq<string>)
    requires ParseVarFiles(ts) == Some(paths)
    ensures VarFileTokens(paths) == ts
    decreases |ts|
  {
    if |ts| > 0 {
      var tail := ParseVarFiles(ts[1..]).value;
      ParseVarFilesJoins(ts[1..], tail);
      VarFileTokenJoins(ts[0]);
      assert paths == [ts[0][10..]] + tail;
      VarFileTokensCons(ts[0][10..], tail);
      assert ts == [ts[0]] + ts[1..];
    }
  }

  lemma ParseVarGroupsJoins(ts: seq<string>, o: BuildOptions)
    requires ParseVarGroups(ts) == Some((o.vars, o.varFiles))
    ensures ts == OptionTail(o, 5)
    ensures PlainKeys(o.vars)
  {
    var vs := ParseVars(ts).value;
    ParseVarsSplits(ts, vs.0, vs.1);
    ParseVarFilesJoins(vs.1, o.varFiles);
  }

  /** Whatever the option parser accepts is what the options print as. */
  lemma ParseOptionTokensJoins(ts: seq<string>, o: BuildOptions)
    requires ParseOptionTokens(ts) == Some(o)
    ensures ts == OptionTail(o, 0)
    ensures PlainKeys(o.vars)
  {
    var t1 := TakeFlag(ts, "-debug");
    var t2 := TakeFlag(t1.1, "-force");
    var t3 := TakeParallel(t2.1).value;
    var t4 := TakeFlag(t3.1, "-color=false");
    var t5 := TakeFlag(t4.1, "-timestamp-ui");
    var g := ParseVarGroups(t5.1).value;
    assert o == BuildOptions(t3.0, t1.0, t2.0, t5.0, !t4.0, g.0, g.1);
    ParseVarGroupsJoins(t5.1, o);
    assert t5.1 == OptionTail(o, 5);
    TakeFlagSplits(t4.1, "-timestamp-ui");
    assert t4.1 == OptionTail(o, 4);
    TakeFlagSplits(t3.1, "-color=false");
    assert t3.1 == OptionTail(o, 3);
    TakeParallelSplits(t2.1, t3.0, t3.1);
    assert t2.1 == OptionTail(o, 2);
    TakeFlagSplits(t1.1, "-force");
    assert t1.1 == OptionTail(o, 1);
    TakeFlagSplits(ts, "-debug");
  }

  /** Two vectors with the same first token, middle and last token are equal. */
  lemma SameEnds(a: seq<string>, b: seq<string>)
    requires |a| >= 2 && |b| >= 2
    requires a[0] == b[0] && a[|a| - 1] == b[|b| - 1]
    requires a[1..|a| - 1] == b[1..|b| - 1]
    ensures a == b
  {
    assert a == [a[0]] + a[1..|a| - 1] + [a[|a| - 1]];
    assert b == [b[0]] + b[1..|b| - 1] + [b[|b| - 1]];
  }

  /** The parser accepts nothing but what `BuildArgs` emits. */
  lemma BuildArgsOfParseBuildArgs(argv: seq<string>, template: string, o: BuildOptions)
    requires ParseBuildArgs(argv) == Some((template, o))
    ensures argv == BuildArgs(template, o)
    ensures PlainKeys(o.vars)
  {
    ParseOptionTokensJoins(argv[1..|argv| - 1], o);
    BuildArgsBody(template, o);
    SameEnds(argv, BuildArgs(template, o));
  }

  /**
   A vector parses to a template and options exactly when it is their build
   vector and no variable key contains `=`.
   */
  lemma ParseBuildArgsIff(argv: seq<string>, template: string, o: BuildOptions)
    ensures ParseBuildArgs(argv) == Some((template, o)) <==> argv == BuildArgs(template, o) && PlainKeys(o.vars)
  {
    if ParseBuildArgs(argv) == Some((template, o)) {
      BuildArgsOfParseBuildArgs(argv, template, o);
    }
    if argv == BuildArgs(template, o) && PlainKeys(o.vars) {
      ParseBuildArgsOfBuildArgs(template, o);
    }
  }

  /** Options with plain keys are determined by their build vector. */
  lemma BuildArgsInjective(t1: string, o1: BuildOptions, t2: string, o2: BuildOptions)
    requires PlainKeys(o1.vars) && PlainKeys(o2.vars)
    requires BuildArgs(t1, o1) == BuildArgs(t2, o2)
    ensures t1 == t2 && o1 == o2
  {
    ParseBuildArgsOfBuildArgs(t1, o1);
    ParseBuildArgsOfBuildArgs(t2, o2);
  }

  /**
   Without plain keys the vector no longer determines the options: the
   token `-var=a=b=c` stands for key `a=b` with value `c` as well as for
   key `a` with value `b=c`.
   */
  lemma VarKeyWithEqualsIsAmbiguous(template: string)
    ensures var o1 := Default().(vars := [("a=b", "c")]);
            var o2 := Default().(vars := [("a", "b=c")]);
            o1 != o2 && BuildArgs(template, o1) == BuildArgs(template, o2)
  {
    var o1 := Default().(vars := [("a=b", "c")]);
    var o2 := Default().(vars := [("a", "b=c")]);
    assert o1.vars[0].0 != o2.vars[0].0;
    assert VarToken(o1.vars[0]) == VarToken(o2.vars[0]);
    assert VarTokens(o1.vars) == VarTokens(o2.vars);
  }
}
