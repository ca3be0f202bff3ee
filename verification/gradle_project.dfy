/** The parts of a Gradle `Project` the build configuration looks at: whether
    it is the root project, its named properties and its applied plugin ids. */
module GradleProject {

  datatype Project = Project(
    /** `this == rootProject` */
    isRoot: bool,
    /** what `Project.property(name)` resolves, already in string form */
    properties: map<string, string>,
    /** the ids `plugins.hasPlugin(id)` answers true for */
    plugins: set<string>
  )
}
