/** Extension helpers on Gradle projects and Kotlin Multiplatform extensions:
    plugin-presence tests, the Apple-target filter, and the typed property
    accessors that fail loudly on a missing or malformed property. */
module ProjectExtensions {
  import opened Wrappers
  import opened Exceptions
  import opened KotlinInt
  import opened GradleProject

  const AndroidLibraryPlugin := "com.android.library"
  const AndroidApplicationPlugin := "com.android.application"
  const MultiplatformPlugin := "org.jetbrains.kotlin.multiplatform"

  // ---------------------------------------------------------------------------
  // Plugin predicates

  predicate HasPlugin(project: Project, id: string) {
    id in project.plugins
  }

  predicate IsAndroidLibraryModule(project: Project) {
    HasPlugin(project, AndroidLibraryPlugin)
  }

  predicate IsAndroidApplicationModule(project: Project) {
    HasPlugin(project, AndroidApplicationPlugin)
  }

  predicate IsMultiplatformModule(project: Project) {
    HasPlugin(project, MultiplatformPlugin)
  }

  /** Each module predicate depends on its own plugin id and on nothing else:
      two projects that agree on that one id agree on the predicate, whatever
      other plugins either has applied. */
  lemma ModulePredicatesTestOneId(p: Project, q: Project)
    ensures (AndroidLibraryPlugin in p.plugins <==> AndroidLibraryPlugin in q.plugins)
      ==> (IsAndroidLibraryModule(p) <==> IsAndroidLibraryModule(q))
    ensures (AndroidApplicationPlugin in p.plugins <==> AndroidApplicationPlugin in q.plugins)
      ==> (IsAndroidApplicationModule(p) <==> IsAndroidApplicationModule(q))
    ensures (MultiplatformPlugin in p.plugins <==> MultiplatformPlugin in q.plugins)
      ==> (IsMultiplatformModule(p) <==> IsMultiplatformModule(q))
    ensures IsAndroidLibraryModule(p) <==> AndroidLibraryPlugin in p.plugins
    ensures IsAndroidApplicationModule(p) <==> AndroidApplicationPlugin in p.plugins
    ensures IsMultiplatformModule(p) <==> MultiplatformPlugin in p.plugins
  {
  }

  /** The three ids are distinct, so applying only the library plugin makes a
      library module and neither an application nor a multiplatform module. */
  lemma ModulePredicatesDistinguish(p: Project)
    requires p.plugins == {AndroidLibraryPlugin}
    ensures IsAndroidLibraryModule(p)
    ensures !IsAndroidApplicationModule(p) && !IsMultiplatformModule(p)
  {
  }

  // ---------------------------------------------------------------------------
  // Apple targets

  /** Kotlin/Native target families (`org.jetbrains.kotlin.konan.target.Family`). */
  datatype Family = OSX | IOS | TVOS | WATCHOS | LINUX | MINGW | ANDROID {
    /** `Family.isAppleFamily` */
    predicate IsAppleFamily() {
      this == OSX || this == IOS || this == TVOS || this == WATCHOS
    }
  }

  /** A target of a Kotlin Multiplatform extension: a Kotlin/Native target with
      its family, or any other kind (JVM, Android, JS, Wasm). */
  datatype KotlinTarget =
    | KotlinNativeTarget(name: string, family: Family)
    | OtherTarget(name: string)

  /** The targets `configureAppleTargets` hands to its block. */
  predicate IsAppleTarget(t: KotlinTarget) {
    t.KotlinNativeTarget? && t.family.IsAppleFamily()
  }

  /** `configureAppleTargets(block)`: walks the target list in order and applies
      `block` to each native Apple target. `configured` is the target list
      afterwards; `visited` lists the positions the block ran on, in the order
      it ran. */
  method ConfigureAppleTargets(targets: seq<KotlinTarget>, block: KotlinTarget -> KotlinTarget)
    returns (configured: seq<KotlinTarget>, visited: seq<nat>)
    ensures |configured| == |targets|
    ensures forall i :: 0 <= i < |targets| ==>
      configured[i] == (if IsAppleTarget(targets[i]) then block(targets[i]) else targets[i])
    ensures forall k :: 0 <= k < |visited| ==> visited[k] < |targets| && IsAppleTarget(targets[visited[k]])
    ensures forall i :: 0 <= i < |targets| && IsAppleTarget(targets[i]) ==> i in visited
    ensures forall k, l :: 0 <= k < l < |visited| ==> visited[k] < visited[l]
  {
    configured := [];
    visited := [];
    var i := 0;
    while i < |targets|
      invariant 0 <= i <= |targets|
      invariant |configured| == i
      invariant forall j :: 0 <= j < i ==>
        configured[j] == (if IsAppleTarget(targets[j]) then block(targets[j]) else targets[j])
      invariant forall k :: 0 <= k < |visited| ==> visited[k] < i && IsAppleTarget(targets[visited[k]])
      invariant forall j :: 0 <= j < i && IsAppleTarget(targets[j]) ==> j in visited
      invariant forall k, l :: 0 <= k < l < |visited| ==> visited[k] < visited[l]
    {
      var target := targets[i];
      if IsAppleTarget(target) {
        configured := configured + [block(target)];
        visited := visited + [i];
      } else {
        configured := configured + [target];
      }
      i := i + 1;
    }
  }

  // ---------------------------------------------------------------------------
  // Typed property accessors

  function CastMessage(name: string): string {
    "Property " + name + " has been found, but could not be cast to Int"
  }

  /** `requiredProperty(name)`: the property's string form, or a
      MissingPropertyException naming it. */
  function RequiredProperty(project: Project, name: string): (r: Result<string, Exception>)
    ensures r.Success? <==> name in project.properties
    ensures r.Success? ==> r.value == project.properties[name]
    ensures r.Failure? ==> r.error == MissingPropertyException(name)
  {
    if name in project.properties then Success(project.properties[name])
    else Failure(MissingPropertyException(name))
  }

  /** `intProperty(name)`: the property parsed with `toIntOrNull`. A missing
      property fails as in `requiredProperty`; a present one that is not an
      optionally signed decimal inside the `Int` range fails with a
      TypeCastException naming the property. */
  function IntProperty(project: Project, name: string): (r: Result<Int32, Exception>)
    ensures name !in project.properties ==> r == Failure(MissingPropertyException(name))
    ensures name in project.properties ==>
      var v := project.properties[name];
      if IsDecimal(v) && MinValue <= DecimalValue(v) <= MaxValue
      then r == Success(DecimalValue(v))
      else r == Failure(TypeCastException(CastMessage(name)))
  {
    var text :- RequiredProperty(project, name);
    match ToIntOrNull(text)
    case Some(n) => Success(n)
    case None => Failure(TypeCastException(CastMessage(name)))
  }

  /** A property holding the decimal form of an `Int` reads back as that `Int`. */
  lemma IntPropertyOfToString(project: Project, name: string, n: Int32)
    requires name in project.properties && project.properties[name] == IntToString(n)
    ensures IntProperty(project, name) == Success(n)
  {
    ToStringRoundTrip(n);
  }

  /** The two accessors agree on which properties are missing, and report them
      the same way; `intProperty` only adds the cast failure on top. */
  lemma IntPropertyRefinesRequired(project: Project, name: string)
    ensures RequiredProperty(project, name).Failure? ==>
      IntProperty(project, name) == Failure(RequiredProperty(project, name).error)
    ensures IntProperty(project, name).Success? ==> RequiredProperty(project, name).Success?
    ensures IntProperty(project, name).Failure? && RequiredProperty(project, name).Success? ==>
      IntProperty(project, name).error == TypeCastException(CastMessage(name))
  {
  }

  /** Values that are present but not `Int` literals make `intProperty` throw
      the cast exception, never the missing-property one. */
  lemma IntPropertyRejects(project: Project, name: string)
    requires name in project.properties
    requires project.properties[name] in {"abc", "", "-", "2147483648", "1.5"}
    ensures IntProperty(project, name) == Failure(TypeCastException(CastMessage(name)))
  {
    ToIntOrNullExamples();
    ToIntOrNullBounds();
    assert !IsDigit("1.5"[1]);
  }
}
