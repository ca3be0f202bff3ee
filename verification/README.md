# Build-configuration registry of the Recipes Gradle build

This project models the only part of the Recipes build logic that has
behaviour of its own: the shared build configuration. It covers four pieces.

- **`Config`, `Config.Builder` and the global slot.** `Config` is an immutable
  record. Its fields are the SDK levels, the version code and name, and the
  Java and JVM target levels. `Config.Builder` is a staging object with fixed
  defaults. `Config.instance` is a public, mutable process-wide slot.
  `configs { ... }` fills it and refuses to run for a non-root project.
  Modules read it with `requireInstance()`.
- **Typed property accessors.** `requiredProperty` returns a project
  property's string or throws `MissingPropertyException`. `intProperty` parses
  that string with Kotlin's `toIntOrNull` or throws `TypeCastException`.
- **Plugin predicates and the Apple-target filter.** `is*Module` test for a
  plugin id. `configureAppleTargets` applies a block to native Apple targets.
- **The root build script.** Its `configs` block reads `android.minSdk`,
  `android.targetSdk`, `android.compileSdk`, `version.code` and
  `version.name`.

Kotlin exceptions become `Result.Failure` values. The global slot becomes an
explicit `Registry` value. `configs` returns a `Transition`: the registry
afterwards and the exception thrown, if any. A `configs` block is a function
from builder to builder-or-exception. `BuilderBlock` gives the concrete
statement form that build scripts use: `field = literal`,
`field = intProperty(key)` and `versionName = requiredProperty(key)`.

Modules:

- `Wrappers`: `Option` and `Result`.
- `Exceptions`: the exceptions that are thrown.
- `KotlinInt`: `Int` range, `toIntOrNull`, `Int.toString`.
- `GradleProject`: the project's root flag, property map and plugin set.
- `ProjectExtensions`
- `BuildConfig`: the `utils` package's Config.kt.
- `BuilderBlock`
- `RootBuild`

Config.kt has no re-initialisation guard. A second successful root `configs`
call overwrites the slot (`BuildConfig.LastWriteWins`).

## Model

| member | source | states |
|---|---|---|
| KotlinInt.ToIntOrNull | gradle/configs/src/main/kotlin/extensions/ProjectExtensions.kt:34 | `toIntOrNull` yields a value exactly when the text is an optional `+`/`-` followed by one or more decimal digits and its value lies in [-2^31, 2^31-1]; the value is then the literal's value |
| KotlinInt.ScanDigits | gradle/configs/src/main/kotlin/extensions/ProjectExtensions.kt:34 | the left-to-right digit scan that stops once the magnitude passes the limit succeeds exactly when the rest is all digits with value within the limit, and then returns that value |
| KotlinInt.NatToDigitsValue | gradle/configs/src/main/kotlin/utils/Config.kt:32 | the decimal digits `Int.toString` prints for a non-negative number denote that number |
| KotlinInt.IntToString | gradle/configs/src/main/kotlin/utils/Config.kt:32 | `Int.toString()` gives a decimal literal that denotes `n` in the shortest form: a '-' exactly for negatives, never a '+', no leading zero, and exactly "0" for zero |
| KotlinInt.DigitsUnique | gradle/configs/src/main/kotlin/utils/Config.kt:32 | two digit runs without a leading zero that denote the same number are the same run |
| KotlinInt.ShortestDecimalIsToString | gradle/configs/src/main/kotlin/utils/Config.kt:32 | every shortest-form decimal literal is exactly what `Int.toString()` prints for its value, so the shortest form pins the string down |
| KotlinInt.ToStringRoundTrip | gradle/configs/src/main/kotlin/utils/Config.kt:32 | parsing `n.toString()` gives `n` back for every `Int` |
| KotlinInt.ToIntOrNullExamples | gradle/configs/src/main/kotlin/extensions/ProjectExtensions.kt:34 | leading zeros, `+5` and `-0` parse; "", "-", "+", "abc", " 1", "1 " do not |
| KotlinInt.ToIntOrNullBounds | gradle/configs/src/main/kotlin/extensions/ProjectExtensions.kt:34 | "2147483647" and "-2147483648" parse to the `Int` bounds; "2147483648", "+2147483648" and "-2147483649" are rejected |
| ProjectExtensions.ModulePredicatesTestOneId | gradle/configs/src/main/kotlin/extensions/ProjectExtensions.kt:10-16 | each `is*Module` predicate holds iff the project has its own plugin id, and no other plugin affects it |
| ProjectExtensions.ModulePredicatesDistinguish | gradle/configs/src/main/kotlin/extensions/ProjectExtensions.kt:12-16 | a project with only the Android library plugin is a library module and neither an application nor a multiplatform module |
| ProjectExtensions.ConfigureAppleTargets | gradle/configs/src/main/kotlin/extensions/ProjectExtensions.kt:24-28 | the block is applied to every native target of an Apple family and to no other target, once each and in list order; other targets are unchanged |
| ProjectExtensions.RequiredProperty | gradle/configs/src/main/kotlin/extensions/ProjectExtensions.kt:30-31 | succeeds exactly when the property exists, with its string; otherwise throws MissingPropertyException carrying the name |
| ProjectExtensions.IntProperty | gradle/configs/src/main/kotlin/extensions/ProjectExtensions.kt:33-36 | a missing property throws MissingPropertyException(name); a present decimal in `Int` range gives its value; any other present value throws TypeCastException with "Property <name> has been found, but could not be cast to Int" |
| ProjectExtensions.IntPropertyOfToString | gradle/configs/src/main/kotlin/extensions/ProjectExtensions.kt:33-35 | a property holding `n.toString()` reads back as `n` |
| ProjectExtensions.IntPropertyRefinesRequired | gradle/configs/src/main/kotlin/extensions/ProjectExtensions.kt:30-35 | `intProperty` fails with `requiredProperty`'s exception when the property is missing, and fails only with the cast exception when it is present |
| ProjectExtensions.IntPropertyRejects | gradle/configs/src/main/kotlin/extensions/ProjectExtensions.kt:34-35 | "abc", "", "-", "2147483648" and "1.5" make `intProperty` throw the cast exception, not the missing-property one |
| BuildConfig.NewBuilder | gradle/configs/src/main/kotlin/utils/Config.kt:22-23 | a new builder's `jvmTarget` equals its `javaVersion` at construction |
| BuildConfig.Build | gradle/configs/src/main/kotlin/utils/Config.kt:25-33 | `build()` copies minSdk, targetSdk, compileSdk, versionCode and versionName unchanged; it keeps the Java level; its JVM target string is in the shortest decimal form and parses back to the builder's `jvmTarget`; with `KotlinInt.ShortestDecimalIsToString` this makes it exactly `jvmTarget.toString()` |
| BuildConfig.BuildLossless | gradle/configs/src/main/kotlin/utils/Config.kt:25-33 | with the Java level kept as a plain number, the builder can be read back out of the `Config` that `build()` made from it |
| BuildConfig.BuildInjective | gradle/configs/src/main/kotlin/utils/Config.kt:25-33 | with the Java level kept as a plain number, two builders that build the same `Config` are equal |
| BuildConfig.BuildDefaults | gradle/configs/src/main/kotlin/utils/Config.kt:17-33 | an untouched builder builds minSdk 26, targetSdk 33, compileSdk 33, versionCode 1, versionName "1.0.0", Java 21, JVM target "21" |
| BuildConfig.RequireInstance | gradle/configs/src/main/kotlin/utils/Config.kt:37-41 | throws IllegalStateException("Config not initialized") exactly when the slot is empty; otherwise returns the stored `Config` |
| BuildConfig.Configs | gradle/configs/src/main/kotlin/utils/Config.kt:45-51 | a non-root project throws "Cannot initialize Config from non-root project" with the slot untouched; from the root it throws iff the block on a fresh builder throws, rethrows the block's own exception, and leaves the slot untouched then; otherwise it stores `build()` of the block's result |
| BuildConfig.ReadBeforeWrite | gradle/configs/src/main/kotlin/utils/Config.kt:37-40 | reading before any `configs` call throws "Config not initialized" |
| BuildConfig.ReadAfterWrite | gradle/configs/src/main/kotlin/utils/Config.kt:39-50 | after a successful `configs`, `requireInstance` returns exactly the configuration built from the block |
| BuildConfig.ConfigsIgnoresPrevious | gradle/configs/src/main/kotlin/utils/Config.kt:49-50 | the outcome of `configs` does not depend on what the slot held before |
| BuildConfig.LastWriteWins | gradle/configs/src/main/kotlin/utils/Config.kt:50 | a second successful root call overwrites the slot with its own configuration |
| BuildConfig.StaysInitialized | gradle/configs/src/main/kotlin/utils/Config.kt:45-51 | once the slot is filled, no later `configs` call empties it |
| BuildConfig.JvmTargetCapturedAtConstruction | gradle/configs/src/main/kotlin/utils/Config.kt:22-23 | a block that sets only `javaVersion` stores that Java level with JVM target still "21" |
| BuildConfig.MinSdkOnlyScenario | gradle/configs/src/main/kotlin/utils/Config.kt:17-23 | a root block setting `minSdk = 24` stores 24 with every other field at its default |
| BuilderBlock.Set | gradle/configs/src/main/kotlin/utils/Config.kt:17-23 | assigning one builder property changes that property and no other |
| BuilderBlock.ExecuteThrowsFirst | gradle/configs/src/main/kotlin/utils/Config.kt:50 | a block throws iff one of its right-hand sides throws, and then throws the first such statement's exception |
| BuilderBlock.ExecuteFrame | gradle/configs/src/main/kotlin/utils/Config.kt:50 | a property no statement of the block assigns keeps its builder value |
| BuilderBlock.ExecuteLastWrite | gradle/configs/src/main/kotlin/utils/Config.kt:50 | a property ends with the value its last assignment in the block evaluated to |
| BuilderBlock.ExecuteKeepsVersionName | gradle/configs/src/main/kotlin/utils/Config.kt:50 | a block with no `versionName` assignment leaves `versionName` unchanged |
| BuilderBlock.ExecuteLastWriteVersionName | gradle/configs/src/main/kotlin/utils/Config.kt:50 | `versionName` ends with the text its last assignment in the block evaluated to |
| BuilderBlock.JvmTargetKeepsConstructionValue | gradle/configs/src/main/kotlin/utils/Config.kt:22-23 | a successful root block that never assigns `jvmTarget` stores JVM target "21", whatever it does to `javaVersion` |
| BuilderBlock.JavaVersionAloneScenario | gradle/configs/src/main/kotlin/utils/Config.kt:22-23 | `javaVersion = 17` alone stores Java 17 and JVM target "21" |
| BuilderBlock.VersionOnlyScenario | gradle/configs/src/main/kotlin/utils/Config.kt:45-51 | with properties {"version.code": "7", "version.name": "2.3.1"}, a block reading only those two stores 7 and "2.3.1" with minSdk 26 and targetSdk 33 |
| RootBuild.EvaluateRootScript | build.gradle.kts:15-21 | the root script stores exactly the reference configuration: the five properties read in order, Java and JVM target 21. Otherwise it throws the first failing read's exception and leaves the registry unchanged |
| RootBuild.RootScriptReadsProperties | build.gradle.kts:16-20 | on success the stored SDK levels and version code are `intProperty` of their keys, the version name is the raw "version.name" string, and Java and JVM target are 21 |
| RootBuild.RootScriptFirstFailure | build.gradle.kts:15-21 | the keys are read in the order minSdk, targetSdk, compileSdk, versionCode, versionName, and the first read that throws decides the exception |
| RootBuild.RootScriptMissingMinSdk | build.gradle.kts:16 | a missing "android.minSdk" throws MissingPropertyException("android.minSdk") and stores nothing |
| RootBuild.RootScriptNeverScopeViolation | build.gradle.kts:15 | the root script only throws property exceptions; the non-root guard never fires |

## Left out

- `configure-*.gradle.kts` scripts: they are declarative plugin wiring that only copies `Config` fields into plugin extensions. This covers the multiplatform hierarchy, the Android `BaseExtension`, Kotlin JVM and Android compiler options, spotless and opt-in.
- `kotlinMultiplatform { }` and `kotlinAndroid { }` (ProjectExtensions.kt:18-22) are left out. They only look up a Gradle extension and pass the block on.
- The `consumer-rules.pro` existence check is left out because it is file-system I/O.
- `JavaVersion.toVersion` and `JvmTarget.fromTarget` are foreign enum factories. They are kept as wrappers around the number or string that cannot fail. `JavaVersion.toVersion` maps every major level past the versions it knows to one `VERSION_HIGHER` value and fails for a non-positive level. `JvmTarget.fromTarget` rejects a target string it does not know.
- BuildConfig.BuildLossless: holds only for the `JavaVersion(major)` stand-in. The real `JavaVersion.toVersion` maps all levels past its enum to `VERSION_HIGHER`, so the real `build()` can lose the Java level.
- BuildConfig.BuildInjective: holds only for the stand-in too. Two builders whose Java levels both map to `VERSION_HIGHER` build equal real `Config`s.
- Direct writes to `Config.instance` are not modelled. It is a public `var`, so any code can assign it, `null` included. Blocks that read or write the slot are not modelled either. A block here maps a builder to a builder or an exception and cannot see the slot. `BuildConfig.ConfigsIgnoresPrevious` and `BuildConfig.StaysInitialized` depend on that.
- For an unknown key, Gradle's `Project.property` throws its own `MissingPropertyException`. The explicit throw in `requiredProperty` fires only for a null-valued property. The model merges the two cases, and both carry the property name.
- Gradle's property resolution is left out. This includes extra properties, gradle.properties and command-line flags. `toString()` of non-string property values is left out too. The project's properties are a `map<string, string>`.
- KotlinInt.ToIntOrNull: accepts only ASCII digits. On the JVM, `toIntOrNull` also accepts other Unicode decimal digits, such as Arabic-Indic or full-width ones.
- ProjectExtensions.ConfigureAppleTargets: the target families are the Kotlin/Native families the build can name. The block is a pure function on a target, not a mutation of a shared object.
- Concurrency around the global slot is left out. Gradle evaluates this configuration on one thread.
- `settings.gradle.kts`, `composeApp/build.gradle.kts` and the empty recipe screen are left out. They are repository wiring and UI with no behaviour.
