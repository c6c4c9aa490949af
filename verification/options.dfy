/**
 The options of a `build` invocation, their documented defaults, and the
 generated builder that fills unset options.
 */
module Options {
  import opened Wrappers
  import opened Decimal

  /** `BuildOptions`: a plain value with no identity beyond its fields. */
  datatype BuildOptions = BuildOptions(
    parallelBuilds: Option<I32>,
    debug: bool,
    force: bool,
    timestampUi: bool,
    color: bool,
    vars: seq<(string, string)>,
    varFiles: seq<string>)

  /** `BuildOptions::default()`: colour on, every other option off or empty. */
  function Default(): (o: BuildOptions)
    ensures o.parallelBuilds == None
    ensures !o.debug && !o.force && !o.timestampUi
    ensures o.color
    ensures o.vars == [] && o.varFiles == []
  {
    BuildOptions(None, false, false, false, true, [], [])
  }

  /**
   The state of a `BuildOptionsBuilder`: each option is `None` until its
   setter has been called, and then holds the value it was given.
   */
  datatype BuildOptionsBuilder = BuildOptionsBuilder(
    parallelBuilds: Option<Option<I32>>,
    debug: Option<bool>,
    force: Option<bool>,
    timestampUi: Option<bool>,
    color: Option<bool>,
    vars: Option<seq<(string, string)>>,
    varFiles: Option<seq<string>>)

  /** `BuildOptionsBuilder::default()`: no option set yet. */
  function EmptyBuilder(): BuildOptionsBuilder {
    BuildOptionsBuilder(None, None, None, None, None, None, None)
  }

  function OrElse<T>(given: Option<T>, fallback: T): T {
    match given
    case Some(v) => v
    case None => fallback
  }

  /** True when every option that was set in `b` has that value in `o`. */
  ghost predicate KeepsSetOptions(b: BuildOptionsBuilder, o: BuildOptions) {
    && (b.parallelBuilds.Some? ==> o.parallelBuilds == b.parallelBuilds.value)
    && (b.debug.Some? ==> o.debug == b.debug.value)
    && (b.force.Some? ==> o.force == b.force.value)
    && (b.timestampUi.Some? ==> o.timestampUi == b.timestampUi.value)
    && (b.color.Some? ==> o.color == b.color.value)
    && (b.vars.Some? ==> o.vars == b.vars.value)
    && (b.varFiles.Some? ==> o.varFiles == b.varFiles.value)
  }

  /**
   `BuildOptionsBuilder::build` as the field attributes declare it: every
   field carries a bare `#[builder(default)]`, so an unset option takes the
   default of its field's type, and for `color: bool` that is `false`.
   */
  function BuilderBuild(b: BuildOptionsBuilder): (o: BuildOptions)
    ensures KeepsSetOptions(b, o)
    ensures b.color.None? ==> !o.color
    ensures b.debug.None? ==> !o.debug
    ensures b.force.None? ==> !o.force
    ensures b.timestampUi.None? ==> !o.timestampUi
    ensures b.parallelBuilds.None? ==> o.parallelBuilds == None
    ensures b.vars.None? ==> o.vars == []
    ensures b.varFiles.None? ==> o.varFiles == []
  {
    BuildOptions(
      OrElse(b.parallelBuilds, None),
      OrElse(b.debug, false),
      OrElse(b.force, false),
      OrElse(b.timestampUi, false),
      OrElse(b.color, false),
      OrElse(b.vars, []),
      OrElse(b.varFiles, []))
  }

  /**
   The builder as the documented defaults require: an unset option takes
   its value from `Default()`, so an untouched builder yields exactly the
   default options.
   */
  function BuilderBuildWithDefaults(b: BuildOptionsBuilder): (o: BuildOptions)
    ensures KeepsSetOptions(b, o)
    ensures b.parallelBuilds.None? ==> o.parallelBuilds == Default().parallelBuilds
    ensures b.debug.None? ==> o.debug == Default().debug
    ensures b.force.None? ==> o.force == Default().force
    ensures b.timestampUi.None? ==> o.timestampUi == Default().timestampUi
    ensures b.color.None? ==> o.color == Default().color
    ensures b.vars.None? ==> o.vars == Default().vars
    ensures b.varFiles.None? ==> o.varFiles == Default().varFiles
    ensures b.color.None? ==> o.color
    ensures b == EmptyBuilder() ==> o == Default()
  {
    var d := Default();
    BuildOptions(
      OrElse(b.parallelBuilds, d.parallelBuilds),
      OrElse(b.debug, d.debug),
      OrElse(b.force, d.force),
      OrElse(b.timestampUi, d.timestampUi),
      OrElse(b.color, d.color),
      OrElse(b.vars, d.vars),
      OrElse(b.varFiles, d.varFiles))
  }

  /** The two builders differ exactly in the colour of an unset `color`. */
  lemma BuildersDifferOnlyInColor(b: BuildOptionsBuilder)
    ensures BuilderBuild(b) == BuilderBuildWithDefaults(b) <==> b.color.Some?
    ensures BuilderBuild(b) == BuilderBuildWithDefaults(b).(color := OrElse(b.color, false))
  {
  }

  /** An untouched builder does not give `Default()`: its colour is off. */
  lemma EmptyBuilderIsNotDefault()
    ensures BuilderBuild(EmptyBuilder()) != Default()
    ensures BuilderBuild(EmptyBuilder()) == Default().(color := false)
  {
  }
}
