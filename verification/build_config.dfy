/** The build-wide configuration value, the builder that stages it and the
    process-wide slot that holds it (the `utils` package's Config.kt).

    The global `Config.instance` is threaded explicitly: every operation takes
    the current `Registry` and returns the next one. */
module BuildConfig {
  import opened Wrappers
  import opened Exceptions
  import opened KotlinInt
  import opened GradleProject

  /** Stand-in for `org.gradle.api.JavaVersion`, as made by
      `JavaVersion.toVersion(major)`. */
  datatype JavaVersion = JavaVersion(major: Int32)

  /** Stand-in for `org.jetbrains.kotlin.gradle.dsl.JvmTarget`, as made by
      `JvmTarget.fromTarget(target)` from the target's string form. */
  datatype JvmTarget = JvmTarget(target: string)

  /** The immutable configuration every module reads. */
  datatype Config = Config(
    minSdk: Int32,
    targetSdk: Int32,
    compileSdk: Int32,
    versionCode: Int32,
    versionName: string,
    javaVersion: JavaVersion,
    jvmTarget: JvmTarget
  )

  /** `Config.Builder`: the mutable staging object, as a value. */
  datatype Builder = Builder(
    minSdk: Int32,
    targetSdk: Int32,
    compileSdk: Int32,
    versionCode: Int32,
    versionName: string,
    javaVersion: Int32,
    jvmTarget: Int32
  )

  const DefaultJavaVersion: Int32 := 21

  /** `Config.Builder()`: every property at its initial value. `jvmTarget` is
      initialised from `javaVersion` here, once, while the builder is made; a
      later assignment to `javaVersion` does not reach it. */
  function NewBuilder(): (b: Builder)
    ensures b.jvmTarget == b.javaVersion
  {
    var javaVersion := DefaultJavaVersion;
    Builder(26, 33, 33, 1, "1.0.0", javaVersion, javaVersion)
  }

  /** `Builder.build()`: freezes the builder. The five plain fields are copied;
      the two Java levels are wrapped, the JVM target through its decimal
      string, which still denotes the builder's number and is in the shortest
      form (no '+', no leading zero), the one `Int.toString()` prints. */
  function Build(b: Builder): (c: Config)
    ensures c.minSdk == b.minSdk && c.targetSdk == b.targetSdk && c.compileSdk == b.compileSdk
    ensures c.versionCode == b.versionCode && c.versionName == b.versionName
    ensures c.javaVersion.major == b.javaVersion
    ensures ToIntOrNull(c.jvmTarget.target) == Some(b.jvmTarget)
    ensures IsShortestDecimal(c.jvmTarget.target)
  {
    ToStringRoundTrip(b.jvmTarget);
    Config(
      b.minSdk,
      b.targetSdk,
      b.compileSdk,
      b.versionCode,
      b.versionName,
      JavaVersion(b.javaVersion),
      JvmTarget(IntToString(b.jvmTarget)))
  }

  /** Reads the builder a configuration was frozen from back out of it. */
  function Unbuild(c: Config): Option<Builder> {
    match ToIntOrNull(c.jvmTarget.target)
    case None => None
    case Some(jvmTarget) =>
      Some(Builder(c.minSdk, c.targetSdk, c.compileSdk, c.versionCode, c.versionName,
                   c.javaVersion.major, jvmTarget))
  }

  /** `build()` loses nothing: the builder can be recovered from its result,
      so two different builders never freeze to the same configuration. */
  lemma BuildLossless(b: Builder)
    ensures Unbuild(Build(b)) == Some(b)
  {
  }

  lemma BuildInjective(b1: Builder, b2: Builder)
    requires Build(b1) == Build(b2)
    ensures b1 == b2
  {
    BuildLossless(b1);
    BuildLossless(b2);
  }

  /** The configuration of an untouched builder: SDK levels 26/33/33, version
      1 "1.0.0", Java 21 and JVM target "21". */
  lemma BuildDefaults()
    ensures Build(NewBuilder()) == Config(26, 33, 33, 1, "1.0.0", JavaVersion(21), JvmTarget("21"))
  {
    assert IntToString(21) == NatToDigits(2) + [DigitChar(1)];
  }

  // ---------------------------------------------------------------------------
  // The process-wide slot

  /** `Config.instance`: empty until the root project stores a configuration. */
  datatype Registry = Registry(instance: Option<Config>)

  const Uninitialized := Registry(None)

  const NotInitializedMessage := "Config not initialized"
  const NonRootMessage := "Cannot initialize Config from non-root project"

  /** `Config.requireInstance()`: the stored configuration, or an
      IllegalStateException while nothing is stored. */
  function RequireInstance(registry: Registry): (r: Result<Config, Exception>)
    ensures r.Failure? <==> registry.instance.None?
    ensures r.Failure? ==> r.error == IllegalStateException(NotInitializedMessage)
    ensures r.Success? ==> registry.instance == Some(r.value)
  {
    match registry.instance
    case None => Failure(IllegalStateException(NotInitializedMessage))
    case Some(config) => Success(config)
  }

  /** The body of a `configs { ... }` block: runs against the builder and
      either leaves it in some state or throws. */
  type Block = Builder -> Result<Builder, Exception>

  /** The registry after a call, and the exception the call threw, if any. */
  datatype Transition = Transition(registry: Registry, thrown: Option<Exception>)

  /** `Project.configs(block)`: refuses a non-root project; otherwise applies
      the block to a fresh builder, builds it and stores the result. The slot
      is assigned only after both succeed, so a throwing block leaves it as it
      was. There is no guard against a second call. */
  function Configs(registry: Registry, project: Project, block: Block): (t: Transition)
    ensures !project.isRoot ==> t == Transition(registry, Some(IllegalStateException(NonRootMessage)))
    ensures t.thrown.Some? ==> t.registry == registry
    ensures project.isRoot ==> (t.thrown.None? <==> block(NewBuilder()).Success?)
    ensures project.isRoot && block(NewBuilder()).Failure? ==> t.thrown == Some(block(NewBuilder()).error)
    ensures t.thrown.None? ==>
      t.registry.instance == Some(Build(block(NewBuilder()).value))
  {
    if !project.isRoot then
      Transition(registry, Some(IllegalStateException(NonRootMessage)))
    else
      match block(NewBuilder())
      case Failure(e) => Transition(registry, Some(e))
      case Success(builder) => Transition(Registry(Some(Build(builder))), None)
  }

  /** Before any `configs` call, reading the configuration throws. */
  lemma ReadBeforeWrite()
    ensures RequireInstance(Uninitialized) == Failure(IllegalStateException(NotInitializedMessage))
  {
  }

  /** A successful `configs` call is what a later `requireInstance` returns,
      whatever was stored before. */
  lemma ReadAfterWrite(registry: Registry, project: Project, block: Block)
    requires Configs(registry, project, block).thrown.None?
    ensures RequireInstance(Configs(registry, project, block).registry)
      == Success(Build(block(NewBuilder()).value))
  {
  }

  /** The stored value does not depend on what was stored before: the block
      always starts from a fresh default builder. */
  lemma ConfigsIgnoresPrevious(r1: Registry, r2: Registry, project: Project, block: Block)
    ensures Configs(r1, project, block).thrown == Configs(r2, project, block).thrown
    ensures Configs(r1, project, block).thrown.None? ==>
      Configs(r1, project, block).registry == Configs(r2, project, block).registry
  {
  }

  /** Two successful root calls in a row: the second one's configuration is
      the one stored. */
  lemma LastWriteWins(registry: Registry, project: Project, first: Block, second: Block)
    requires project.isRoot
    requires first(NewBuilder()).Success? && second(NewBuilder()).Success?
    ensures var t := Configs(Configs(registry, project, first).registry, project, second);
      t.thrown.None? && t.registry.instance == Some(Build(second(NewBuilder()).value))
  {
  }

  /** The slot never goes back to empty: once initialised, it stays so through
      any further call, successful or not. */
  lemma StaysInitialized(registry: Registry, project: Project, block: Block)
    requires registry.instance.Some?
    ensures Configs(registry, project, block).registry.instance.Some?
  {
  }

  /** Setting `javaVersion` in a block does not move `jvmTarget`, which keeps
      the value captured when the builder was made. */
  lemma JvmTargetCapturedAtConstruction(registry: Registry, project: Project, v: Int32)
    requires project.isRoot
    ensures var t := Configs(registry, project, (b: Builder) => Success(b.(javaVersion := v)));
      t.registry.instance.Some?
      && t.registry.instance.value.javaVersion == JavaVersion(v)
      && t.registry.instance.value.jvmTarget == JvmTarget("21")
  {
    BuildDefaults();
  }

  /** Setting only `minSdk` to 24 from the root project stores 24 with every
      other field at its default. */
  lemma MinSdkOnlyScenario(registry: Registry, project: Project)
    requires project.isRoot
    ensures var t := Configs(registry, project, (b: Builder) => Success(b.(minSdk := 24)));
      t.thrown.None?
      && t.registry.instance == Some(Config(24, 33, 33, 1, "1.0.0", JavaVersion(21), JvmTarget("21")))
  {
    BuildDefaults();
  }
}
