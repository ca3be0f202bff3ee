/** The root build script: its `configs { ... }` block reads five project
    properties into the builder, four through `intProperty` and the version
    name through `requiredProperty`, and leaves the Java levels alone. */
module RootBuild {
  import opened Wrappers
  import opened Exceptions
  import opened GradleProject
  import opened BuilderBlock
  import ProjectExtensions
  import BuildConfig

  /** The root script's block, in source order. */
  const RootBlock: seq<Statement> := [
    AssignInt(MinSdk, ReadIntProperty("android.minSdk")),
    AssignInt(TargetSdk, ReadIntProperty("android.targetSdk")),
    AssignInt(CompileSdk, ReadIntProperty("android.compileSdk")),
    AssignInt(VersionCode, ReadIntProperty("version.code")),
    AssignVersionName(ReadRequiredProperty("version.name"))
  ]

  /** Reference result of the root script, written directly from the
      accessors: the five reads in order, the first failure winning, the Java
      levels at their defaults. */
  function ExpectedConfig(root: Project): Result<BuildConfig.Config, Exception> {
    var minSdk :- ProjectExtensions.IntProperty(root, "android.minSdk");
    var targetSdk :- ProjectExtensions.IntProperty(root, "android.targetSdk");
    var compileSdk :- ProjectExtensions.IntProperty(root, "android.compileSdk");
    var versionCode :- ProjectExtensions.IntProperty(root, "version.code");
    var versionName :- ProjectExtensions.RequiredProperty(root, "version.name");
    Success(BuildConfig.Config(minSdk, targetSdk, compileSdk, versionCode, versionName,
                               BuildConfig.JavaVersion(21), BuildConfig.JvmTarget("21")))
  }

  /** Evaluating the root script against the registry: it stores exactly the
      reference configuration, or throws the reference's exception and leaves
      the registry as it was. */
  function EvaluateRootScript(registry: BuildConfig.Registry, root: Project): (t: BuildConfig.Transition)
    requires root.isRoot
    ensures t.thrown.None? <==> ExpectedConfig(root).Success?
    ensures t.thrown.None? ==> t.registry.instance == Some(ExpectedConfig(root).value)
    ensures t.thrown.Some? ==> t.registry == registry && t.thrown.value == ExpectedConfig(root).error
  {
    RootBlockMatchesReference(root);
    BuildConfig.Configs(registry, root, AsBlock(root, RootBlock))
  }

  /** The root block run on a fresh builder, statement by statement, against
      the reference. */
  lemma RootBlockMatchesReference(root: Project)
    ensures var r := Execute(root, RootBlock, BuildConfig.NewBuilder());
      && (r.Success? <==> ExpectedConfig(root).Success?)
      && (r.Success? ==> BuildConfig.Build(r.value) == ExpectedConfig(root).value)
      && (r.Failure? ==> r.error == ExpectedConfig(root).error)
  {
    BuildConfig.BuildDefaults();
    var b0 := BuildConfig.NewBuilder();
    var rest1 := RootBlock[1..];
    var rest2 := rest1[1..];
    var rest3 := rest2[1..];
    var rest4 := rest3[1..];
    assert rest4 == [RootBlock[4]] && rest4[1..] == [];
    assert Execute(root, RootBlock, b0)
      == (var b1 :- Run(root, RootBlock[0], b0); Execute(root, rest1, b1));
    var r1 := Run(root, RootBlock[0], b0);
    if r1.Success? {
      var r2 := Run(root, rest1[0], r1.value);
      assert Execute(root, rest1, r1.value) == (var b2 :- r2; Execute(root, rest2, b2));
      if r2.Success? {
        var r3 := Run(root, rest2[0], r2.value);
        assert Execute(root, rest2, r2.value) == (var b3 :- r3; Execute(root, rest3, b3));
        if r3.Success? {
          var r4 := Run(root, rest3[0], r3.value);
          assert Execute(root, rest3, r3.value) == (var b4 :- r4; Execute(root, rest4, b4));
          if r4.Success? {
            var r5 := Run(root, rest4[0], r4.value);
            assert Execute(root, rest4, r4.value) == (var b5 :- r5; Execute(root, [], b5));
          }
        }
      }
    }
  }

  /** On success every stored field traces back to its property: the four
      numbers are `intProperty` of their keys, the version name is the raw
      property string, and Java and JVM target stay at 21. */
  lemma RootScriptReadsProperties(registry: BuildConfig.Registry, root: Project)
    requires root.isRoot
    ensures var t := EvaluateRootScript(registry, root);
      t.thrown.None? ==>
      var c := t.registry.instance.value;
      && ProjectExtensions.IntProperty(root, "android.minSdk") == Success(c.minSdk)
      && ProjectExtensions.IntProperty(root, "android.targetSdk") == Success(c.targetSdk)
      && ProjectExtensions.IntProperty(root, "android.compileSdk") == Success(c.compileSdk)
      && ProjectExtensions.IntProperty(root, "version.code") == Success(c.versionCode)
      && "version.name" in root.properties && c.versionName == root.properties["version.name"]
      && c.javaVersion == BuildConfig.JavaVersion(21)
      && c.jvmTarget == BuildConfig.JvmTarget("21")
  {
  }

  /** The keys are read in order: the first key whose accessor throws decides
      the exception, whatever the later keys hold. */
  lemma RootScriptFirstFailure(registry: BuildConfig.Registry, root: Project)
    requires root.isRoot
    ensures var t := EvaluateRootScript(registry, root);
      && (ProjectExtensions.IntProperty(root, "android.minSdk").Failure? ==>
            t.thrown == Some(ProjectExtensions.IntProperty(root, "android.minSdk").error))
      && (ProjectExtensions.IntProperty(root, "android.minSdk").Success?
          && ProjectExtensions.IntProperty(root, "android.targetSdk").Failure? ==>
            t.thrown == Some(ProjectExtensions.IntProperty(root, "android.targetSdk").error))
      && (ProjectExtensions.IntProperty(root, "android.minSdk").Success?
          && ProjectExtensions.IntProperty(root, "android.targetSdk").Success?
          && ProjectExtensions.IntProperty(root, "android.compileSdk").Failure? ==>
            t.thrown == Some(ProjectExtensions.IntProperty(root, "android.compileSdk").error))
      && (ProjectExtensions.IntProperty(root, "android.minSdk").Success?
          && ProjectExtensions.IntProperty(root, "android.targetSdk").Success?
          && ProjectExtensions.IntProperty(root, "android.compileSdk").Success?
          && ProjectExtensions.IntProperty(root, "version.code").Failure? ==>
            t.thrown == Some(ProjectExtensions.IntProperty(root, "version.code").error))
      && (ProjectExtensions.IntProperty(root, "android.minSdk").Success?
          && ProjectExtensions.IntProperty(root, "android.targetSdk").Success?
          && ProjectExtensions.IntProperty(root, "android.compileSdk").Success?
          && ProjectExtensions.IntProperty(root, "version.code").Success?
          && "version.name" !in root.properties ==>
            t.thrown == Some(MissingPropertyException("version.name")))
  {
  }

  /** A missing key is reported as missing: an absent `android.minSdk` throws
      MissingPropertyException("android.minSdk") and stores nothing. */
  lemma RootScriptMissingMinSdk(registry: BuildConfig.Registry, root: Project)
    requires root.isRoot
    requires "android.minSdk" !in root.properties
    ensures EvaluateRootScript(registry, root)
      == BuildConfig.Transition(registry, Some(MissingPropertyException("android.minSdk")))
  {
  }

  /** Every exception the root script can throw comes from a property
      accessor; the non-root guard of `configs` never fires on this path. */
  lemma RootScriptNeverScopeViolation(registry: BuildConfig.Registry, root: Project)
    requires root.isRoot
    ensures EvaluateRootScript(registry, root).thrown.Some? ==>
      EvaluateRootScript(registry, root).thrown.value.MissingPropertyException?
      || EvaluateRootScript(registry, root).thrown.value.TypeCastException?
  {
  }
}
