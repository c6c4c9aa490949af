/**
 What the generated builder does to a `build` invocation. Every field of
 `BuildOptions` carries a bare `#[builder(default)]`, so a builder whose
 `color` setter was never called yields `color == false` and the build
 turns colour off, although the documented default is colour on.
 */
module Findings {
  import opened Wrappers
  import opened Decimal
  import opened Options
  import opened Arguments
  import opened BuildProperties

  /**
   As written: a builder that leaves `color` unset makes the build pass
   `-color=false`, whatever else it sets.
   */
  lemma BuilderDisablesColor(template: string, b: BuildOptionsBuilder)
    requires b.color.None?
    ensures "-color=false" in Head(BuildArgs(template, BuilderBuild(b)))
  {
    FlagPresentIffSet(template, BuilderBuild(b));
  }

  /** As written: even an untouched builder does not give the bare build. */
  lemma EmptyBuilderBuildArgs(template: string)
    ensures BuildArgs(template, BuilderBuild(EmptyBuilder())) == ["build", "-color=false", template]
    ensures BuildArgs(template, BuilderBuild(EmptyBuilder())) != BuildArgs(template, Default())
  {
    assert BuildArgs(template, Default()) == ["build", template];
  }

  /**
   Corrected: with unset options taken from `Default()`, an unset `color`
   never disables colour, and an untouched builder gives the bare build.
   */
  lemma BuilderWithDefaultsKeepsColor(template: string, b: BuildOptionsBuilder)
    requires b.color.None?
    ensures "-color=false" !in Head(BuildArgs(template, BuilderBuildWithDefaults(b)))
    ensures BuildArgs(template, BuilderBuildWithDefaults(EmptyBuilder())) == ["build", template]
  {
    FlagPresentIffSet(template, BuilderBuildWithDefaults(b));
    BuildArgsBareIffDefault(template, BuilderBuildWithDefaults(EmptyBuilder()));
  }

  /** The builder the command-construction test configures: colour is never set. */
  function TestBuilder(): BuildOptionsBuilder {
    EmptyBuilder().(debug := Some(true), force := Some(true), parallelBuilds := Some(Some(2)),
                    vars := Some([("region", "us-west-2")]), varFiles := Some(["vars.json"]))
  }

  /**
   As written, the test's options build with colour off; with the
   documented defaults the same builder keeps colour on.
   */
  lemma TestBuilderBuildArgs(template: string)
    ensures BuildArgs(template, BuilderBuild(TestBuilder()))
         == ["build", "-debug", "-force", "-parallel-builds", "2", "-color=false",
             "-var=region=us-west-2", "-var-file=vars.json", template]
    ensures BuildArgs(template, BuilderBuildWithDefaults(TestBuilder()))
         == ["build", "-debug", "-force", "-parallel-builds", "2",
             "-var=region=us-west-2", "-var-file=vars.json", template]
  {
    assert IntToString(2) == "2";
    assert VarToken(("region", "us-west-2")) == "-var=region=us-west-2";
    assert VarFileToken("vars.json") == "-var-file=vars.json";
    assert VarTokens([("region", "us-west-2")]) == ["-var=region=us-west-2"];
    assert VarFileTokens(["vars.json"]) == ["-var-file=vars.json"];
  }
}
