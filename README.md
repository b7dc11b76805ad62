# ProjectToFileBasedAppConverter, modelled in Dafny

The converter turns a C# project (a `.csproj` file plus one `.cs` source file)
into a single "file-based app": a `.cs` file that starts with a shebang and
`#:` directives (`#:sdk`, `#:property`, `#:package`, `#:project`), followed by
`global using` lines and then the original source text. This project models
the three pieces of logic the tool owns, and proves properties of the model:

- **File discovery** (`FileDiscovery.DiscoverFiles`, file_discovery.dfy). The
  method finds the project file and the source file from zero, one or two
  command-line arguments. The file system is a value: the existing
  directories, the existing files, a listing function per directory and
  pattern, and the platform path functions as uninterpreted functions. The
  imperative method, with its branches and its loop over two arguments, is
  proved equal to the specification function `Discover`.
- **Project reading** (`CsprojReader`, csproj_reader.dfy). A class models the
  reader; its constructor refuses a missing file. `GetProjectInformation`
  builds the property, package, project-reference and using lists with
  element-by-element loops over an already-parsed document. Each loop is
  proved against the pure `Extract`. Lemmas then cover:
  - the document order of properties and the `PublishAot=false` rule;
  - the version fallback (attribute first, then the first `Version` child);
  - the skipping rules for missing or blank `Include` values;
  - the `Static` flag, parsed as `bool.TryParse` does.
- **The conversion command** (`ConvertProjectAction.Invoke`,
  convert_project_action.dfy, with the writer in emitter.dfy). The command
  runs its checks in a fixed order and picks the output path. It then writes
  the directives through a `LineWriter` object, whose list of written chunks
  grows with each `WriteLine`/`Write`, and finally the source text. `Invoke` is
  proved equal to the pure `Convert`. Lemmas then cover:
  - the order of the error checks;
  - the choice of output path;
  - the exact directive layout, with a blank line after a group only when
    the group is non-empty;
  - the three forms of a global using;
  - the source text as a verbatim suffix of the output.

Supporting modules: wrappers.dfy (`Option`), strings.dfy (`char.IsWhiteSpace`,
`string.IsNullOrWhiteSpace`, ordinal case-insensitive suffix tests and
`bool.TryParse` over `seq<char>`), sequences.dfy (`FilterMap`, the
order-preserving "keep the elements that yield a record" pattern of the
reader's loops), and models.dfy (the record types). The record types follow
their usage sites: a using directive is (namespace, alias, static flag), and
the project information has five parts.

Behaviours of the code that its own comments do not make plain, all modelled
as the code does them:
- **Two arguments.** The doc comment of `DiscoverFiles` calls the
  two-argument form "order-independent"
  (src/ProjectToFileBasedAppConverter/Utilities/FileDiscovery.cs:16). The loop
  (lines 72-85) ignores an argument that is not an existing file, and lets the
  later of two arguments of the same kind win. So the order is irrelevant only
  when the two arguments are of different kinds.
- **Partial output.** When `File.ReadAllText` throws after the `StreamWriter`
  was opened, the `using` declaration still flushes the directive lines
  already written. The output file keeps them and exit code 1 is returned
  (src/ProjectToFileBasedAppConverter/Actions/ConvertProjectAction.cs:56-111).
- **Missing project file.** The `CsprojReader` constructor throws
  `FileNotFoundException` for a missing file
  (src/ProjectToFileBasedAppConverter/CsprojReader.cs:17-23). The constructor
  and `XDocument.Load` run outside the guarded block, so these exceptions
  leave `Invoke`: outcome `Unhandled`, with no exit code from `Invoke` itself.
- **Default output path.** Only an explicit output path is checked for an
  existing file. An existing `<name>_FileBased.cs` at the default path is
  overwritten.
- **Line breaks in values.** A property value is the element's text, which
  may contain line breaks. The directive strings are passed to `WriteLine` one
  per entry, and such a value spans several lines of the file.

## Model

| member | source | states |
|---|---|---|
| FileDiscovery.DiscoverFiles | src/ProjectToFileBasedAppConverter/Utilities/FileDiscovery.cs:30-89 | the imperative discovery (branches on the argument count, a loop that overwrites a slot for each qualifying argument) returns exactly the pair `Discover` specifies |
| FileDiscovery.KindOf | src/ProjectToFileBasedAppConverter/Utilities/FileDiscovery.cs:76-83 | a path is a project file iff it ends in `.csproj` ignoring case, a source file iff it ends in `.cs` ignoring case, and otherwise neither |
| FileDiscovery.CsprojSuffixExcludesCsSuffix | src/ProjectToFileBasedAppConverter/Utilities/FileDiscovery.cs:50-59 | no path ends in both extensions, so testing `.csproj` before `.cs` never changes a classification |
| FileDiscovery.FindSingleFile | src/ProjectToFileBasedAppConverter/Utilities/FileDiscovery.cs:98-108 | a directory scan gives a path iff the listing has exactly one match, and that path is the full path of the single match; zero or several give nothing |
| FileDiscovery.FindFilesInDirectory | src/ProjectToFileBasedAppConverter/Utilities/FileDiscovery.cs:91-96 | each slot of a directory scan is filled iff its own pattern has exactly one match, independently of the other |
| FileDiscovery.NoArgumentsScanCurrentDirectory | src/ProjectToFileBasedAppConverter/Utilities/FileDiscovery.cs:35-39 | a null and an empty argument array both give exactly the scan of the current directory; each slot is set iff exactly one file matches its pattern, and then holds that file's full path |
| FileDiscovery.DirectoryArgumentScansLikeNoArguments | src/ProjectToFileBasedAppConverter/Utilities/FileDiscovery.cs:44-47 | a lone existing directory is scanned exactly as the no-argument case would scan it as the current directory |
| FileDiscovery.SingleProjectFileArgument | src/ProjectToFileBasedAppConverter/Utilities/FileDiscovery.cs:48-58 | a lone existing `.csproj` file (not a directory) gives its full path as the project. The source slot is the scan of that path's directory: set iff the directory has exactly one `.cs` file, and then that file's full path |
| FileDiscovery.SingleSourceFileArgument | src/ProjectToFileBasedAppConverter/Utilities/FileDiscovery.cs:59-67 | a lone existing `.cs` file gives its full path as the source. The project slot is the scan of that path's directory: set iff the directory has exactly one `.csproj` file, and then that file's full path |
| FileDiscovery.SingleUnresolvedArgument | src/ProjectToFileBasedAppConverter/Utilities/FileDiscovery.cs:40-69 | a lone argument that is neither a directory nor an existing `.csproj`/`.cs` file finds nothing |
| FileDiscovery.LastOfKindIsLastQualifying | src/ProjectToFileBasedAppConverter/Utilities/FileDiscovery.cs:72-85 | in the loop over the arguments a slot is set iff some argument is an existing file of that kind, and then it holds the full path of the last such argument |
| FileDiscovery.TwoArgumentsClassifiedIndependently | src/ProjectToFileBasedAppConverter/Utilities/FileDiscovery.cs:72-85 | with two arguments, each slot is the second argument if it qualifies, else the first if it qualifies, else nothing; non-existent paths contribute nothing |
| FileDiscovery.TwoArgumentsOrderIndependent | src/ProjectToFileBasedAppConverter/Utilities/FileDiscovery.cs:72-85 | two arguments of different kinds give the same result in either order |
| FileDiscovery.ManyArgumentsFindNothing | src/ProjectToFileBasedAppConverter/Utilities/FileDiscovery.cs:70-88 | three or more arguments leave both slots null |
| Csproj.CsprojReader.constructor | src/ProjectToFileBasedAppConverter/CsprojReader.cs:18-26 | a reader exists only for an existing path and stores it unchanged |
| Csproj.CsprojReader.Open | src/ProjectToFileBasedAppConverter/CsprojReader.cs:18-26 | construction fails (not found) iff the file does not exist; otherwise a new reader holds the path unchanged |
| Csproj.CsprojReader.GetProjectInformation | src/ProjectToFileBasedAppConverter/CsprojReader.cs:36-100 | fails iff loading the document fails; otherwise returns exactly `Extract` of the loaded document |
| Csproj.CollectProperties | src/ProjectToFileBasedAppConverter/CsprojReader.cs:43-58 | the nested loops over groups and children build the declared properties in document order, then append the `PublishAot` default when no property has that name |
| Csproj.DeclaredPropertiesInDocumentOrder | src/ProjectToFileBasedAppConverter/CsprojReader.cs:43-51 | there is one property per child of a property group, and child `c` of group `g` sits after all children of the earlier groups, as (local name, text) |
| Csproj.PublishAotRule | src/ProjectToFileBasedAppConverter/CsprojReader.cs:55-58 | the declared properties stay an unchanged prefix; if none is named `PublishAot`, exactly one `PublishAot=false` is appended and it is the only one, otherwise nothing is added |
| Csproj.ExtractedInformation | src/ProjectToFileBasedAppConverter/CsprojReader.cs:41-99 | the SDK is the root's `Sdk` attribute or ""; the property list is the declared properties plus at most one more; each reference list is no longer than its element list |
| Csproj.VersionOf | src/ProjectToFileBasedAppConverter/CsprojReader.cs:65 | the version is the `Version` attribute if present, else the text of the first `Version` child in the project namespace, else none |
| Csproj.FirstChild | src/ProjectToFileBasedAppConverter/CsprojReader.cs:65 | `Element(ns + "Version")` is the first child with that local name in the project namespace, and none iff no child has it |
| Csproj.PackageReferenceOf | src/ProjectToFileBasedAppConverter/CsprojReader.cs:64-70 | an element yields a package reference iff it has `Include`; the name is that value and the version follows the fallback |
| Csproj.CollectPackageReferences | src/ProjectToFileBasedAppConverter/CsprojReader.cs:60-71 | the loop appends, in element order, the reference of each element that yields one |
| Csproj.PackageReferencesExtracted | src/ProjectToFileBasedAppConverter/CsprojReader.cs:60-71 | a package reference is in the result iff some element has that `Include` and that version |
| Csproj.ProjectReferenceOf | src/ProjectToFileBasedAppConverter/CsprojReader.cs:77-82 | an element yields a project reference iff it has `Include`, with that path |
| Csproj.CollectProjectReferences | src/ProjectToFileBasedAppConverter/CsprojReader.cs:73-83 | the loop appends, in element order, the reference of each element with `Include` |
| Csproj.ProjectReferencesExtracted | src/ProjectToFileBasedAppConverter/CsprojReader.cs:73-83 | a project reference is in the result iff some element has that `Include` |
| Csproj.IsStaticValue | src/ProjectToFileBasedAppConverter/CsprojReader.cs:94 | a using is static iff its `Static` attribute is present and parses as true; absent or unparsable means false |
| Strings.TryParseBool | src/ProjectToFileBasedAppConverter/CsprojReader.cs:94 | the parse gives true iff the value, trimmed of white space and NUL characters, is "true" in any ASCII case; false likewise for "false"; anything else fails |
| Strings.TrimRemovesOnlyEnds | src/ProjectToFileBasedAppConverter/CsprojReader.cs:94 | the trim inside the boolean parse returns a contiguous slice of the value, and everything it removes, before and after, is white space or NUL |
| Csproj.UsingDirectiveOf | src/ProjectToFileBasedAppConverter/CsprojReader.cs:89-95 | an element yields a directive iff `Include` is present and not blank; the namespace is that value, the alias is copied, and the static flag is the parsed `Static` value |
| Csproj.CollectUsingDirectives | src/ProjectToFileBasedAppConverter/CsprojReader.cs:85-97 | the loop appends, in element order, the directive of each element with a non-blank `Include` |
| Csproj.UsingDirectivesExtracted | src/ProjectToFileBasedAppConverter/CsprojReader.cs:85-97 | a using directive is in the result iff some element has that non-blank `Include`, that alias and a matching static flag |
| Sequences.FilterMapIsOrderedSelection | src/ProjectToFileBasedAppConverter/CsprojReader.cs:60-97 | each reference list is an order-preserving selection: the k-th record comes from the k-th yielding element, the positions ascend, and every yielding element is included |
| Sequences.FilterMapAppend | src/ProjectToFileBasedAppConverter/CsprojReader.cs:60-97 | the records of a longer element list are those of its first part followed by those of the rest |
| Emitter.WriteHeader | src/ProjectToFileBasedAppConverter/Actions/ConvertProjectAction.cs:60-63 | the writer receives the shebang, a blank line, `#:sdk <SdkType>` and a blank line |
| Emitter.SdkLine | src/ProjectToFileBasedAppConverter/Actions/ConvertProjectAction.cs:62 | the SDK line is `#:sdk ` followed by the SDK name, verbatim |
| Emitter.PropertyLine | src/ProjectToFileBasedAppConverter/Actions/ConvertProjectAction.cs:67 | a property line is `#:property ` followed by the name, `=` and the value, each verbatim at its position |
| Emitter.PackageLine | src/ProjectToFileBasedAppConverter/Actions/ConvertProjectAction.cs:74 | a package line is `#:package <name>@<version>`; a missing version renders as nothing, so the line ends at the `@` |
| Emitter.ProjectLine | src/ProjectToFileBasedAppConverter/Actions/ConvertProjectAction.cs:81 | a project line is `#:project ` followed by the reference path, verbatim |
| Emitter.DirectiveHeader | src/ProjectToFileBasedAppConverter/Actions/ConvertProjectAction.cs:60-63 | the output starts with `#!/usr/bin/env dotnet`, blank, `#:sdk <SdkType>`, blank; each group adds its item count plus one blank line when non-empty |
| Emitter.WriteEmptyLineIf | src/ProjectToFileBasedAppConverter/Actions/ConvertProjectAction.cs:116-122 | one blank line is written iff the condition holds |
| Emitter.WriteGroup | src/ProjectToFileBasedAppConverter/Actions/ConvertProjectAction.cs:65-70 | a group's loop writes one rendered line per item in list order, then a blank line iff the list is non-empty |
| Emitter.WriteDirectives | src/ProjectToFileBasedAppConverter/Actions/ConvertProjectAction.cs:60-102 | the writes before the source add exactly the directive lines to what was already written |
| Emitter.DirectivePositions | src/ProjectToFileBasedAppConverter/Actions/ConvertProjectAction.cs:65-100 | the k-th property, package, project and using line sit at fixed offsets after the header and the earlier groups, in list order |
| Emitter.DirectiveLayout | src/ProjectToFileBasedAppConverter/Actions/ConvertProjectAction.cs:60-102 | the strings passed to `WriteLine`, one per entry and classified by prefix, are the shebang, blank, SDK, blank, then the property, package, project and using sections, each followed by one blank line exactly when non-empty |
| Emitter.LineKinds | src/ProjectToFileBasedAppConverter/Actions/ConvertProjectAction.cs:62-98 | every SDK, property, package, project and using line is recognised as its own kind by its prefix, whatever the names and values |
| Emitter.UsingLine | src/ProjectToFileBasedAppConverter/Actions/ConvertProjectAction.cs:86-100 | a non-blank alias gives `global using A = N;`, otherwise the static flag gives `global using static N;`, otherwise `global using N;` |
| Emitter.AliasTakesPrecedence | src/ProjectToFileBasedAppConverter/Actions/ConvertProjectAction.cs:88-91 | with a non-blank alias the static flag does not change the line |
| Emitter.SourceIsVerbatimSuffix | src/ProjectToFileBasedAppConverter/Actions/ConvertProjectAction.cs:104-105 | the written text is the directive lines, each ended by the newline, followed by the source; cutting off that prefix gives back the source exactly |
| ConvertProjectAction.Invoke | src/ProjectToFileBasedAppConverter/Actions/ConvertProjectAction.cs:12-114 | the imperative command (early returns, branch-assigned output path, writes through the writer) has exactly the outcome and the output file `Convert` specifies |
| ConvertProjectAction.ErrorPrecedence | src/ProjectToFileBasedAppConverter/Actions/ConvertProjectAction.cs:19-40 | a missing project file is reported first, then a missing source, then an existing explicit output; each returns 1 and writes nothing |
| ConvertProjectAction.OutputPathChoice | src/ProjectToFileBasedAppConverter/Actions/ConvertProjectAction.cs:31-50 | a file is written to the explicit path only when no file exists there; an existing explicit path never falls back to the default. Without an explicit path the file goes to the default path beside the source, and the run converts whenever the project loads, the file opens and the source reads, whether or not a file already exists at the default path |
| ConvertProjectAction.DefaultOutputPath | src/ProjectToFileBasedAppConverter/Actions/ConvertProjectAction.cs:47-49 | the default output is `<source name without extension>_FileBased.cs`, combined with the source's directory, or with "." when the source path has none |
| ConvertProjectAction.SuccessfulConversion | src/ProjectToFileBasedAppConverter/Actions/ConvertProjectAction.cs:52-113 | a successful run exits 0 and its file is the directives of the loaded project followed by the whole source text, unchanged |
| ConvertProjectAction.ReadFailureLeavesDirectives | src/ProjectToFileBasedAppConverter/Actions/ConvertProjectAction.cs:104-111 | when both files are found, the checks pass, the project loads as `doc` and the output opens but the source cannot be read, the run reports a write failure with exit code 1 and leaves at the target path exactly the directive lines of `doc` |
| ConvertProjectAction.OpenFailureWritesNothing | src/ProjectToFileBasedAppConverter/Actions/ConvertProjectAction.cs:56-58 | when the checks pass and the project loads but the output file cannot be opened, the run reports a write failure with exit code 1 and leaves no file |
| ConvertProjectAction.ExitCodes | src/ProjectToFileBasedAppConverter/Actions/ConvertProjectAction.cs:19-113 | for every input: exit code 0 iff the checks pass, the project loads, the output opens and the source is read; 1 iff a check fails or, after loading, opening or reading throws; none (the exception escapes) iff the project file is missing or does not load |
| ConvertProjectAction.SinglePackageExample | src/ProjectToFileBasedAppConverter/Actions/ConvertProjectAction.cs:60-102 | for the example project (SDK `MyApp.Sdk`, one property `OutputType=Exe`, package `Newtonsoft.Json` 13.0.1, no project references or usings), the block is the shebang, a blank, `#:sdk MyApp.Sdk`, a blank, `#:property OutputType=Exe` and `#:property PublishAot=false`, a blank, `#:package Newtonsoft.Json@13.0.1` and a blank, with no lines for the empty groups |

## Left out

- The file system and path semantics. `Directory.Exists`, `File.Exists`, `Directory.GetFiles`, `Path.GetFullPath`, `Path.GetDirectoryName`, `Path.GetFileNameWithoutExtension` and `Path.Combine` are fields of a file-system value. Which names a search pattern such as `*.cs` matches (including any platform quirk for three-letter extensions) is whatever the listing function returns.
- FileDiscovery.FindSingleFile: the listing function is total, so exceptions from `Directory.GetFiles` (access denied, a path that vanished) are not modelled.
- XML parsing and namespace resolution by `XDocument.Load` and `Descendants`. The reader starts from a parsed document: the root's `Sdk` attribute and, in document order, the `PropertyGroup`, `PackageReference`, `ProjectReference` and `Using` elements of the project namespace. A load failure is `None`.
- Source decoding. `File.ReadAllText` decodes the file: it drops a byte-order mark, transcodes UTF-16 and replaces invalid bytes. `readAllText` is that decoded text, so the source is a verbatim suffix of the written text, not of the file's bytes.
- `StreamWriter` mechanics. Newline encoding, UTF-8 and buffering are not modelled; the newline is a parameter of the text lemmas. I/O exceptions are modelled only when opening the writer and when reading the source; failures during an individual write are not.
- Emitter.DirectiveLayout: classifies the strings passed to `WriteLine`, not the lines of the resulting file. A property, package or reference value containing a line break spans several lines of the file, and the continuation lines match no directive prefix.
- Console messages and exception message text. Only the error kind and the exit code are modelled.
- The exit code when an exception escapes `Invoke`. That is decided by the command-line library, which is not part of this model.
- Strings.EqualsIgnoreCase: folds ASCII letters only. .NET's ordinal case-insensitive comparison also maps a few non-ASCII characters onto ASCII letters, so such a path could end in `.cs` for .NET but not for the model.
- Csproj.CsprojReader.GetProjectInformation: each list is built by its own method (`CollectProperties`, `CollectPackageReferences`, `CollectProjectReferences`, `CollectUsingDirectives`) rather than inline in one method body. The loops and their order are the same.
- src/ProjectToFileBasedAppConverter/Program.cs and Actions/CustomHelpAction.cs (command-line wiring and help text) are not part of this model.
- ProjectToFileBasedApp/Program.cs (an older converter with different blank-line rules) is not part of this model.
- src/ProjectToFileBasedAppConverter/FileDiscovery.cs repeats the Utilities copy line for line in its code (`DiscoverFiles` at lines 30-89, `FindFilesInDirectory` at 98-103, `FindCsprojFile`/`FindCsFile` at 110-125). The same members model both copies, and the table cites the Utilities copy only.
- The record files under Models/ are used only as data types, shaped by how the reader and the action use them.
