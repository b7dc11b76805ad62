/**
 * The records the reader produces and the emitter consumes. Their shape
 * follows how the reader builds them and the action reads them: a using
 * directive carries a namespace, an optional alias and a static flag, and the
 * project information carries five parts.
 */
module Models {
  import opened Wrappers

  datatype ProjectProperty = ProjectProperty(name: string, value: string)

  /** A package reference; `version` is `None` when the project gives none. */
  datatype PackageReference = PackageReference(name: string, version: Option<string>)

  datatype ProjectReference = ProjectReference(path: string)

  datatype UsingDirective = UsingDirective(namespaceName: string, alias: Option<string>, isStatic: bool)

  datatype ProjectInformation = ProjectInformation(
    sdkType: string,
    properties: seq<ProjectProperty>,
    packageReferences: seq<PackageReference>,
    projectReferences: seq<ProjectReference>,
    usingDirectives: seq<UsingDirective>)
}
