/** What a `configs { ... }` block does to the builder: a sequence of property
    assignments, each evaluating its right-hand side (a literal or one of the
    typed property accessors) and then writing one builder field. The first
    right-hand side that throws ends the block with that exception. */
module BuilderBlock {
  import opened Wrappers
  import opened Exceptions
  import opened KotlinInt
  import opened GradleProject
  import ProjectExtensions
  import BuildConfig

  /** The `Int` properties of `Config.Builder`. */
  datatype IntField = MinSdk | TargetSdk | CompileSdk | VersionCode | JavaVersionField | JvmTargetField

  /** Right-hand side of an `Int` assignment. */
  datatype IntExpr = IntLiteral(value: Int32) | ReadIntProperty(name: string)

  /** Right-hand side of the `versionName` assignment. */
  datatype StringExpr = StringLiteral(text: string) | ReadRequiredProperty(name: string)

  datatype Statement =
    | AssignInt(field: IntField, rhs: IntExpr)
    | AssignVersionName(text: StringExpr)

  function Get(b: BuildConfig.Builder, f: IntField): Int32 {
    match f
    case MinSdk => b.minSdk
    case TargetSdk => b.targetSdk
    case CompileSdk => b.compileSdk
    case VersionCode => b.versionCode
    case JavaVersionField => b.javaVersion
    case JvmTargetField => b.jvmTarget
  }

  /** A property write: changes the one field and nothing else. */
  function Set(b: BuildConfig.Builder, f: IntField, v: Int32): (b': BuildConfig.Builder)
    ensures Get(b', f) == v
    ensures forall g :: g != f ==> Get(b', g) == Get(b, g)
    ensures b'.versionName == b.versionName
  {
    match f
    case MinSdk => b.(minSdk := v)
    case TargetSdk => b.(targetSdk := v)
    case CompileSdk => b.(compileSdk := v)
    case VersionCode => b.(versionCode := v)
    case JavaVersionField => b.(javaVersion := v)
    case JvmTargetField => b.(jvmTarget := v)
  }

  function EvalInt(project: Project, e: IntExpr): Result<Int32, Exception> {
    match e
    case IntLiteral(v) => Success(v)
    case ReadIntProperty(name) => ProjectExtensions.IntProperty(project, name)
  }

  function EvalString(project: Project, e: StringExpr): Result<string, Exception> {
    match e
    case StringLiteral(s) => Success(s)
    case ReadRequiredProperty(name) => ProjectExtensions.RequiredProperty(project, name)
  }

  /** Whether evaluating the statement's right-hand side throws. */
  predicate Throws(project: Project, st: Statement) {
    match st
    case AssignInt(_, rhs) => EvalInt(project, rhs).Failure?
    case AssignVersionName(text) => EvalString(project, text).Failure?
  }

  function ThrownBy(project: Project, st: Statement): Exception
    requires Throws(project, st)
  {
    match st
    case AssignInt(_, rhs) => EvalInt(project, rhs).error
    case AssignVersionName(text) => EvalString(project, text).error
  }

  predicate Assigns(st: Statement, f: IntField) {
    st.AssignInt? && st.field == f
  }

  /** One assignment statement. */
  function Run(project: Project, st: Statement, b: BuildConfig.Builder): Result<BuildConfig.Builder, Exception> {
    match st
    case AssignInt(f, rhs) =>
      var v :- EvalInt(project, rhs);
      Success(Set(b, f, v))
    case AssignVersionName(text) =>
      var s :- EvalString(project, text);
      Success(b.(versionName := s))
  }

  /** The statements of a block, in order, stopping at the first that throws. */
  function Execute(project: Project, block: seq<Statement>, b: BuildConfig.Builder): Result<BuildConfig.Builder, Exception>
    decreases |block|
  {
    if block == [] then Success(b)
    else
      var b' :- Run(project, block[0], b);
      Execute(project, block[1..], b')
  }

  /** The block as the function `configs` receives. */
  function AsBlock(project: Project, block: seq<Statement>): BuildConfig.Block {
    (b: BuildConfig.Builder) => Execute(project, block, b)
  }

  /** A block throws exactly when one of its right-hand sides throws, and then
      with the exception of the first such statement. */
  lemma {:induction false} ExecuteThrowsFirst(project: Project, block: seq<Statement>, b: BuildConfig.Builder)
    ensures Execute(project, block, b).Failure? <==> exists i :: 0 <= i < |block| && Throws(project, block[i])
    ensures forall i :: (0 <= i < |block| && Throws(project, block[i])
                         && (forall j :: 0 <= j < i ==> !Throws(project, block[j])))
                        ==> Execute(project, block, b) == Failure(ThrownBy(project, block[i]))
    decreases |block|
  {
    if block != [] {
      if !Throws(project, block[0]) {
        var b' := Run(project, block[0], b).value;
        ExecuteThrowsFirst(project, block[1..], b');
        assert forall i :: 1 <= i < |block| ==> block[i] == block[1..][i - 1];
        if Execute(project, block, b).Failure? {
          var i :| 0 <= i < |block[1..]| && Throws(project, block[1..][i]);
          assert Throws(project, block[i + 1]);
        }
      }
    }
  }

  /** A field no statement assigns keeps the value it had before the block;
      likewise `versionName` when no statement assigns it. */
  lemma {:induction false} ExecuteFrame(project: Project, block: seq<Statement>, b: BuildConfig.Builder, f: IntField)
    requires Execute(project, block, b).Success?
    requires forall i :: 0 <= i < |block| ==> !Assigns(block[i], f)
    ensures Get(Execute(project, block, b).value, f) == Get(b, f)
    ensures (forall i :: 0 <= i < |block| ==> !block[i].AssignVersionName?)
      ==> Execute(project, block, b).value.versionName == b.versionName
    decreases |block|
  {
    if block != [] {
      var b' := Run(project, block[0], b).value;
      assert forall i :: 1 <= i < |block| ==> block[i] == block[1..][i - 1];
      ExecuteFrame(project, block[1..], b', f);
    }
  }

  /** A field's final value is the one its last assignment in the block wrote. */
  lemma {:induction false} ExecuteLastWrite(project: Project, block: seq<Statement>, b: BuildConfig.Builder, f: IntField, i: nat)
    requires Execute(project, block, b).Success?
    requires i < |block| && Assigns(block[i], f)
    requires forall j :: i < j < |block| ==> !Assigns(block[j], f)
    ensures EvalInt(project, block[i].rhs).Success?
    ensures Get(Execute(project, block, b).value, f) == EvalInt(project, block[i].rhs).value
    decreases |block|
  {
    var b' := Run(project, block[0], b).value;
    assert forall j :: 1 <= j < |block| ==> block[j] == block[1..][j - 1];
    if i == 0 {
      ExecuteFrame(project, block[1..], b', f);
    } else {
      ExecuteLastWrite(project, block[1..], b', f, i - 1);
    }
  }

  /** A block with no `versionName` assignment leaves `versionName` as it was. */
  lemma {:induction false} ExecuteKeepsVersionName(project: Project, block: seq<Statement>, b: BuildConfig.Builder)
    requires Execute(project, block, b).Success?
    requires forall i :: 0 <= i < |block| ==> !block[i].AssignVersionName?
    ensures Execute(project, block, b).value.versionName == b.versionName
    decreases |block|
  {
    if block != [] {
      var b' := Run(project, block[0], b).value;
      assert forall i :: 1 <= i < |block| ==> block[i] == block[1..][i - 1];
      ExecuteKeepsVersionName(project, block[1..], b');
    }
  }

  /** `versionName` ends with the text its last assignment in the block
      evaluated to. */
  lemma {:induction false} ExecuteLastWriteVersionName(project: Project, block: seq<Statement>, b: BuildConfig.Builder, i: nat)
    requires Execute(project, block, b).Success?
    requires i < |block| && block[i].AssignVersionName?
    requires forall j :: i < j < |block| ==> !block[j].AssignVersionName?
    ensures EvalString(project, block[i].text).Success?
    ensures Execute(project, block, b).value.versionName == EvalString(project, block[i].text).value
    decreases |block|
  {
    var b' := Run(project, block[0], b).value;
    assert forall j :: 1 <= j < |block| ==> block[j] == block[1..][j - 1];
    if i == 0 {
      ExecuteKeepsVersionName(project, block[1..], b');
    } else {
      ExecuteLastWriteVersionName(project, block[1..], b', i - 1);
    }
  }

  /** `jvmTarget` is fixed when the builder is made: a root `configs` block that
      never assigns `jvmTarget` stores JVM target "21", even when it assigns
      `javaVersion`. */
  lemma JvmTargetKeepsConstructionValue(registry: BuildConfig.Registry, project: Project, block: seq<Statement>)
    requires project.isRoot
    requires forall i :: 0 <= i < |block| ==> !Assigns(block[i], JvmTargetField)
    requires Execute(project, block, BuildConfig.NewBuilder()).Success?
    ensures var t := BuildConfig.Configs(registry, project, AsBlock(project, block));
      t.thrown.None? && t.registry.instance.value.jvmTarget == BuildConfig.JvmTarget("21")
  {
    ExecuteFrame(project, block, BuildConfig.NewBuilder(), JvmTargetField);
    BuildConfig.BuildDefaults();
  }

  /** Assigning `javaVersion = 17` and nothing else stores Java 17 next to
      JVM target "21". */
  lemma JavaVersionAloneScenario(registry: BuildConfig.Registry, project: Project)
    requires project.isRoot
    ensures var t := BuildConfig.Configs(registry, project, AsBlock(project, [AssignInt(JavaVersionField, IntLiteral(17))]));
      t.thrown.None?
      && t.registry.instance.value.javaVersion == BuildConfig.JavaVersion(17)
      && t.registry.instance.value.jvmTarget == BuildConfig.JvmTarget("21")
  {
    BuildConfig.BuildDefaults();
  }

  /** A root block reading only `version.code` and `version.name` from
      {"version.code": "7", "version.name": "2.3.1"} stores version 7 "2.3.1"
      and leaves the SDK levels at 26 and 33. */
  lemma VersionOnlyScenario(registry: BuildConfig.Registry, project: Project)
    requires project.isRoot
    requires project.properties == map["version.code" := "7", "version.name" := "2.3.1"]
    ensures var block := [AssignInt(VersionCode, ReadIntProperty("version.code")),
                          AssignVersionName(ReadRequiredProperty("version.name"))];
      var t := BuildConfig.Configs(registry, project, AsBlock(project, block));
      t.thrown.None?
      && t.registry.instance.value.versionCode == 7
      && t.registry.instance.value.versionName == "2.3.1"
      && t.registry.instance.value.minSdk == 26
      && t.registry.instance.value.targetSdk == 33
  {
    assert IntToString(7) == "7";
    ProjectExtensions.IntPropertyOfToString(project, "version.code", 7);
  }
}
