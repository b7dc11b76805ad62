/**
 * Reading the project file. The XML document arrives already parsed and with
 * its default namespace resolved: the root's `Sdk` attribute and, in document
 * order, the `PropertyGroup`, `PackageReference`, `ProjectReference` and
 * `Using` elements of the project's namespace.
 */
module Csproj {
  import opened Wrappers
  import opened Strings
  import opened Sequences
  import opened Models

  datatype Element = Element(
    localName: string,
    inProjectNamespace: bool,        // its namespace is the root element's
    attributes: map<string, string>, // unqualified attributes
    value: string,                   // the concatenated text content
    children: seq<Element>)

  datatype ProjectDocument = ProjectDocument(
    rootSdk: Option<string>,
    propertyGroups: seq<Element>,
    packageReferenceElements: seq<Element>,
    projectReferenceElements: seq<Element>,
    usingElements: seq<Element>)

  const PublishAot := "PublishAot"
  const PublishAotDefault := ProjectProperty(PublishAot, "false")

  function Attribute(e: Element, name: string): (r: Option<string>)
    ensures r.Some? <==> name in e.attributes
    ensures r.Some? ==> r.value == e.attributes[name]
  {
    if name in e.attributes then Some(e.attributes[name]) else None
  }

  predicate IsNamed(e: Element, localName: string) {
    e.inProjectNamespace && e.localName == localName
  }

  /** `element.Element(ns + name)`: the first child with that name. */
  function FirstChild(children: seq<Element>, localName: string): (r: Option<Element>)
    ensures r.None? <==> forall i :: 0 <= i < |children| ==> !IsNamed(children[i], localName)
    ensures r.Some? ==> exists i :: (0 <= i < |children| && children[i] == r.value
      && IsNamed(children[i], localName)
      && forall j :: 0 <= j < i ==> !IsNamed(children[j], localName))
  {
    if children == [] then None
    else if IsNamed(children[0], localName) then Some(children[0])
    else
      var r := FirstChild(children[1..], localName);
      assert forall i :: 1 <= i < |children| ==> children[i] == children[1..][i - 1];
      r
  }

  /** The properties one `PropertyGroup` contributes: each direct child as
      (local name, text), whatever its namespace. */
  function PropertiesOf(group: Element): (r: seq<ProjectProperty>)
    ensures |r| == |group.children|
    ensures forall i :: 0 <= i < |r| ==>
      r[i] == ProjectProperty(group.children[i].localName, group.children[i].value)
  {
    seq(|group.children|, i requires 0 <= i < |group.children| =>
      ProjectProperty(group.children[i].localName, group.children[i].value))
  }

  /** The declared properties of all groups, in document order. */
  function DeclaredProperties(groups: seq<Element>): seq<ProjectProperty> {
    if groups == [] then []
    else DeclaredProperties(groups[..|groups| - 1]) + PropertiesOf(groups[|groups| - 1])
  }

  function ChildCount(groups: seq<Element>): nat {
    if groups == [] then 0
    else ChildCount(groups[..|groups| - 1]) + |groups[|groups| - 1].children|
  }

  predicate Declares(properties: seq<ProjectProperty>, name: string) {
    exists i :: 0 <= i < |properties| && properties[i].name == name
  }

  /** A file-based app publishes ahead-of-time unless told otherwise, so a
      project that does not mention `PublishAot` gets it set to false. */
  function WithPublishAotDefault(properties: seq<ProjectProperty>): seq<ProjectProperty> {
    if Declares(properties, PublishAot) then properties else properties + [PublishAotDefault]
  }

  /** The version of a package reference: the `Version` attribute, else the
      text of its first `Version` child, else none. */
  function VersionOf(e: Element): (r: Option<string>)
    ensures "Version" in e.attributes ==> r == Some(e.attributes["Version"])
    ensures "Version" !in e.attributes ==>
      (r.Some? <==> exists i :: 0 <= i < |e.children| && IsNamed(e.children[i], "Version"))
    ensures "Version" !in e.attributes && r.Some? ==>
      exists i :: 0 <= i < |e.children| && IsNamed(e.children[i], "Version") && r.value == e.children[i].value
        && forall j :: 0 <= j < i ==> !IsNamed(e.children[j], "Version")
  {
    match Attribute(e, "Version")
    case Some(v) => Some(v)
    case None =>
      match FirstChild(e.children, "Version")
      case Some(child) => Some(child.value)
      case None => None
  }

  /** A `PackageReference` element yields a reference only when it has `Include`. */
  function PackageReferenceOf(e: Element): (r: Option<PackageReference>)
    ensures r.Some? <==> "Include" in e.attributes
    ensures r.Some? ==> r.value.name == e.attributes["Include"] && r.value.version == VersionOf(e)
  {
    match Attribute(e, "Include")
    case Some(name) => Some(PackageReference(name, VersionOf(e)))
    case None => None
  }

  /** A `ProjectReference` element yields a reference only when it has `Include`. */
  function ProjectReferenceOf(e: Element): (r: Option<ProjectReference>)
    ensures r.Some? <==> "Include" in e.attributes
    ensures r.Some? ==> r.value.path == e.attributes["Include"]
  {
    match Attribute(e, "Include")
    case Some(path) => Some(ProjectReference(path))
    case None => None
  }

  /** Whether a `Static` attribute value makes a using static: it must parse
      as the boolean true; an absent or unparsable value means false. */
  function IsStaticValue(s: Option<string>): (b: bool)
    ensures b <==> s.Some? && TryParseBool(s.value) == Some(true)
  {
    match s
    case Some(v) => TryParseBool(v) == Some(true)
    case None => false
  }

  /** A `Using` element yields a directive only when `Include` is present and
      not blank; the alias is copied and the static flag parsed. */
  function UsingDirectiveOf(e: Element): (r: Option<UsingDirective>)
    ensures r.Some? <==> !IsNullOrWhiteSpace(Attribute(e, "Include"))
    ensures r.Some? ==> r.value.namespaceName == e.attributes["Include"]
    ensures r.Some? ==> r.value.alias == Attribute(e, "Alias")
    ensures r.Some? ==> (r.value.isStatic <==> "Static" in e.attributes && TryParseBool(e.attributes["Static"]) == Some(true))
  {
    var includeNamespace := Attribute(e, "Include");
    if IsNullOrWhiteSpace(includeNamespace) then None
    else Some(UsingDirective(includeNamespace.value, Attribute(e, "Alias"), IsStaticValue(Attribute(e, "Static"))))
  }

  /** The project information the reader extracts from a document. */
  function Extract(doc: ProjectDocument): ProjectInformation {
    ProjectInformation(
      doc.rootSdk.GetOr(""),
      WithPublishAotDefault(DeclaredProperties(doc.propertyGroups)),
      FilterMap(doc.packageReferenceElements, PackageReferenceOf),
      FilterMap(doc.projectReferenceElements, ProjectReferenceOf),
      FilterMap(doc.usingElements, UsingDirectiveOf))
  }

  /** Why reading a project can throw: the file is missing (the constructor)
      or the XML cannot be loaded (`XDocument.Load`). */
  datatype ReadFailure = ProjectFileNotFound(path: string) | ProjectLoadFailed(path: string)

  class CsprojReader {
    const csprojPath: string

    /** Stores the path; an object exists only for a path that exists. */
    constructor (ghost existingFiles: set<string>, path: string)
      requires path in existingFiles
      ensures csprojPath == path
    {
      csprojPath := path;
    }

    /** `new CsprojReader(path)`: not-found when the file does not exist,
        otherwise a reader holding the path unchanged. */
    static method Open(existingFiles: set<string>, path: string) returns (r: Option<CsprojReader>)
      ensures r.None? <==> path !in existingFiles
      ensures r.Some? ==> fresh(r.value) && r.value.csprojPath == path
    {
      if path !in existingFiles {
        return None;
      }
      var reader := new CsprojReader(existingFiles, path);
      r := Some(reader);
    }

    /** `GetProjectInformation`: loads the project (`None` when loading
        throws) and builds the five parts; each list is built by one of the
        loops below, appending element by element. */
    method GetProjectInformation(load: string -> Option<ProjectDocument>) returns (info: Option<ProjectInformation>)
      ensures info.None? <==> load(csprojPath).None?
      ensures info.Some? ==> info.value == Extract(load(csprojPath).value)
    {
      var loaded := load(csprojPath);
      if loaded.None? {
        return None;
      }
      var doc := loaded.value;
      var sdkType := doc.rootSdk.GetOr("");
      var properties := CollectProperties(doc.propertyGroups);
      var packageReferences := CollectPackageReferences(doc.packageReferenceElements);
      var projectReferences := CollectProjectReferences(doc.projectReferenceElements);
      var usingDirectives := CollectUsingDirectives(doc.usingElements);
      info := Some(ProjectInformation(sdkType, properties, packageReferences, projectReferences, usingDirectives));
    }
  }

  /** The `PropertyGroup` loop of `GetProjectInformation`: every child of
      every group, then the `PublishAot` default. */
  method CollectProperties(groups: seq<Element>) returns (properties: seq<ProjectProperty>)
    ensures properties == WithPublishAotDefault(DeclaredProperties(groups))
  {
    properties := [];
    for g := 0 to |groups|
      invariant properties == DeclaredProperties(groups[..g])
    {
      var group := groups[g];
      ghost var before := properties;
      for c := 0 to |group.children|
        invariant properties == before + PropertiesOf(group)[..c]
      {
        var property := group.children[c];
        properties := properties + [ProjectProperty(property.localName, property.value)];
        assert PropertiesOf(group)[..c + 1] == PropertiesOf(group)[..c] + [PropertiesOf(group)[c]];
      }
      assert PropertiesOf(group)[..|group.children|] == PropertiesOf(group);
      assert groups[..g + 1][..g] == groups[..g];
    }
    assert groups[..|groups|] == groups;

    if !Declares(properties, PublishAot) {
      properties := properties + [PublishAotDefault];
    }
  }

  /** The `PackageReference` loop of `GetProjectInformation`. */
  method CollectPackageReferences(packages: seq<Element>) returns (packageReferences: seq<PackageReference>)
    ensures packageReferences == FilterMap(packages, PackageReferenceOf)
  {
    packageReferences := [];
    for i := 0 to |packages|
      invariant packageReferences == FilterMap(packages[..i], PackageReferenceOf)
    {
      var packageReference := packages[i];
      var packageName := Attribute(packageReference, "Include");
      var version := Attribute(packageReference, "Version");
      if version.None? {
        var child := FirstChild(packageReference.children, "Version");
        if child.Some? {
          version := Some(child.value.value);
        }
      }
      if packageName.Some? {
        packageReferences := packageReferences + [PackageReference(packageName.value, version)];
      }
      FilterMapStep(packages[..i], packageReference, PackageReferenceOf);
      assert packages[..i + 1] == packages[..i] + [packageReference];
    }
    assert packages[..|packages|] == packages;
  }

  /** The `ProjectReference` loop of `GetProjectInformation`. */
  method CollectProjectReferences(projects: seq<Element>) returns (projectReferences: seq<ProjectReference>)
    ensures projectReferences == FilterMap(projects, ProjectReferenceOf)
  {
    projectReferences := [];
    for i := 0 to |projects|
      invariant projectReferences == FilterMap(projects[..i], ProjectReferenceOf)
    {
      var projectReference := projects[i];
      var projectPath := Attribute(projectReference, "Include");
      if projectPath.Some? {
        projectReferences := projectReferences + [ProjectReference(projectPath.value)];
      }
      FilterMapStep(projects[..i], projectReference, ProjectReferenceOf);
      assert projects[..i + 1] == projects[..i] + [projectReference];
    }
    assert projects[..|projects|] == projects;
  }

  /** The `Using` loop of `GetProjectInformation`. */
  method CollectUsingDirectives(usings: seq<Element>) returns (usingDirectives: seq<UsingDirective>)
    ensures usingDirectives == FilterMap(usings, UsingDirectiveOf)
  {
    usingDirectives := [];
    for i := 0 to |usings|
      invariant usingDirectives == FilterMap(usings[..i], UsingDirectiveOf)
    {
      var usingElement := usings[i];
      var includeNamespace := Attribute(usingElement, "Include");
      if !IsNullOrWhiteSpace(includeNamespace) {
        var alias := Attribute(usingElement, "Alias");
        var staticValue := Attribute(usingElement, "Static");
        var isStatic := IsStaticValue(staticValue);
        usingDirectives := usingDirectives + [UsingDirective(includeNamespace.value, alias, isStatic)];
      }
      FilterMapStep(usings[..i], usingElement, UsingDirectiveOf);
      assert usings[..i + 1] == usings[..i] + [usingElement];
    }
    assert usings[..|usings|] == usings;
  }

  // ---------------------------------------------------------------------
  // Properties of extraction
  // ---------------------------------------------------------------------

  lemma {:induction false} DeclaredPropertiesAppend(a: seq<Element>, b: seq<Element>)
    ensures DeclaredProperties(a + b) == DeclaredProperties(a) + DeclaredProperties(b)
    decreases |b|
  {
    if b == [] {
      assert a + b == a;
    } else {
      var b', x := b[..|b| - 1], b[|b| - 1];
      assert (a + b)[..|a + b| - 1] == a + b';
      assert (a + b)[|a + b| - 1] == x;
      DeclaredPropertiesAppend(a, b');
      Reassociate(DeclaredProperties(a), DeclaredProperties(b'), PropertiesOf(x));
    }
  }

  lemma {:induction false} DeclaredPropertiesCount(groups: seq<Element>)
    ensures |DeclaredProperties(groups)| == ChildCount(groups)
  {
    if groups != [] {
      DeclaredPropertiesCount(groups[..|groups| - 1]);
    }
  }

  /** Every direct child of every property group becomes a property, in
      document order: child `c` of group `g` sits after all children of the
      groups before `g`. */
  lemma {:induction false} DeclaredPropertiesInDocumentOrder(groups: seq<Element>, g: nat, c: nat)
    requires g < |groups| && c < |groups[g].children|
    ensures |DeclaredProperties(groups)| == ChildCount(groups)
    ensures var k := ChildCount(groups[..g]) + c;
      k < |DeclaredProperties(groups)| &&
      DeclaredProperties(groups)[k] == ProjectProperty(groups[g].children[c].localName, groups[g].children[c].value)
  {
    DeclaredPropertiesCount(groups);
    DeclaredPropertiesCount(groups[..g]);
    PropertiesAround(groups, g);
    IndexIntoMiddle(DeclaredProperties(groups[..g]), PropertiesOf(groups[g]), DeclaredProperties(groups[g + 1..]), c);
  }

  /** The properties of the groups before `g`, of `g`, and of those after it. */
  lemma {:induction false} PropertiesAround(groups: seq<Element>, g: nat)
    requires g < |groups|
    ensures DeclaredProperties(groups) ==
      DeclaredProperties(groups[..g]) + PropertiesOf(groups[g]) + DeclaredProperties(groups[g + 1..])
  {
    var before, at, after := groups[..g], [groups[g]], groups[g + 1..];
    assert groups == before + at + after;
    DeclaredPropertiesAppend(before + at, after);
    DeclaredPropertiesAppend(before, at);
    assert at[..0] == [];
  }

  lemma {:induction false} IndexIntoMiddle<T>(x: seq<T>, y: seq<T>, z: seq<T>, c: nat)
    requires c < |y|
    ensures |x| + c < |x + y + z| && (x + y + z)[|x| + c] == y[c]
  {
  }

  /** The `PublishAot` rule: declared properties come first and unchanged;
      when none is named `PublishAot` exactly one `PublishAot=false` follows
      them, otherwise nothing is added (declared values and duplicates kept). */
  lemma {:induction false} PublishAotRule(properties: seq<ProjectProperty>)
    ensures var r := WithPublishAotDefault(properties);
      && |properties| <= |r| && r[..|properties|] == properties
      && Declares(r, PublishAot)
      && (Declares(properties, PublishAot) ==> r == properties)
      && (!Declares(properties, PublishAot) ==>
            |r| == |properties| + 1 && r[|properties|] == ProjectProperty(PublishAot, "false")
            && forall i :: 0 <= i < |r| && r[i].name == PublishAot ==> i == |properties|)
  {
    var r := WithPublishAotDefault(properties);
    if !Declares(properties, PublishAot) {
      assert r[|properties|].name == PublishAot;
    }
  }

  /** The reader's output for a document: the SDK (or ""), the declared
      properties as a prefix of the property list, and each reference list
      an order-preserving selection no longer than its element list. */
  lemma {:induction false} ExtractedInformation(doc: ProjectDocument)
    ensures var info := Extract(doc);
      && info.sdkType == (if doc.rootSdk.Some? then doc.rootSdk.value else "")
      && |DeclaredProperties(doc.propertyGroups)| <= |info.properties| <= |DeclaredProperties(doc.propertyGroups)| + 1
      && info.properties[..|DeclaredProperties(doc.propertyGroups)|] == DeclaredProperties(doc.propertyGroups)
      && |info.packageReferences| <= |doc.packageReferenceElements|
      && |info.projectReferences| <= |doc.projectReferenceElements|
      && |info.usingDirectives| <= |doc.usingElements|
  {
    PublishAotRule(DeclaredProperties(doc.propertyGroups));
  }

  /** A package reference is extracted iff some element has that `Include`
      and that version (attribute first, then child element). */
  lemma {:induction false} PackageReferencesExtracted(doc: ProjectDocument, p: PackageReference)
    ensures p in Extract(doc).packageReferences <==>
      exists i :: 0 <= i < |doc.packageReferenceElements|
        && "Include" in doc.packageReferenceElements[i].attributes
        && p.name == doc.packageReferenceElements[i].attributes["Include"]
        && p.version == VersionOf(doc.packageReferenceElements[i])
  {
    FilterMapMember(doc.packageReferenceElements, PackageReferenceOf, p);
  }

  /** A project reference is extracted iff some element has that `Include`. */
  lemma {:induction false} ProjectReferencesExtracted(doc: ProjectDocument, p: ProjectReference)
    ensures p in Extract(doc).projectReferences <==>
      exists i :: 0 <= i < |doc.projectReferenceElements|
        && "Include" in doc.projectReferenceElements[i].attributes
        && p.path == doc.projectReferenceElements[i].attributes["Include"]
  {
    FilterMapMember(doc.projectReferenceElements, ProjectReferenceOf, p);
  }

  /** A using directive is extracted iff some element has that non-blank
      `Include`, that alias, and a `Static` value parsing as true exactly when
      the directive is static. */
  lemma {:induction false} UsingDirectivesExtracted(doc: ProjectDocument, u: UsingDirective)
    ensures u in Extract(doc).usingDirectives <==>
      exists i :: 0 <= i < |doc.usingElements|
        && !IsNullOrWhiteSpace(Attribute(doc.usingElements[i], "Include"))
        && u.namespaceName == doc.usingElements[i].attributes["Include"]
        && u.alias == Attribute(doc.usingElements[i], "Alias")
        && u.isStatic == IsStaticValue(Attribute(doc.usingElements[i], "Static"))
  {
    FilterMapMember(doc.usingElements, UsingDirectiveOf, u);
  }
}
