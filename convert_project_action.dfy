/**
 * The conversion command: discover the two inputs, check them in a fixed
 * order, choose the output path, read the project and write the file-based
 * app. What the file system and the platform do is supplied as values.
 */
module ConvertProjectAction {
  import opened Wrappers
  import opened FileDiscovery
  import opened Models
  import opened Csproj
  import opened Emitter
  import opened Sequences

  /** The errors the command reports with a message and exit code 1. */
  datatype ConvertError = NoCsprojFound | NoSourceFound | OutputAlreadyExists(path: string) | WriteFailed

  /** How `Invoke` ends: it returns 0, reports an error and returns 1, or an
      exception escapes it (those raised before the guarded write block). */
  datatype Outcome = Converted | Reported(error: ConvertError) | Unhandled(failure: ReadFailure)

  /** The value `Invoke` returns for an outcome; none when an exception
      escapes it. */
  function ExitCode(o: Outcome): Option<int> {
    match o
    case Converted => Some(0)
    case Reported(_) => Some(1)
    case Unhandled(_) => None
  }

  /** The file the command leaves behind: its path and what was written. */
  datatype OutputFile = OutputFile(path: string, chunks: seq<Chunk>)

  datatype Conversion = Conversion(outcome: Outcome, written: Option<OutputFile>)

  /** The effects the command depends on besides the file system value. */
  datatype Effects = Effects(
    loadProject: string -> Option<ProjectDocument>, // XDocument.Load; None when it throws
    canCreate: string -> bool,                      // whether new StreamWriter(path) succeeds
    readAllText: string -> Option<string>)          // File.ReadAllText; None when it throws

  /** Without `--out`, the output goes beside the source (or in "." when the
      source path has no directory) as `<name>_FileBased.cs`. */
  function DefaultOutputPath(fs: FileSystem, sourcePath: string): (path: string)
    ensures fs.getDirectoryName(sourcePath).Some? ==>
      path == fs.combine(fs.getDirectoryName(sourcePath).value, fs.getFileNameWithoutExtension(sourcePath) + "_FileBased.cs")
    ensures fs.getDirectoryName(sourcePath).None? ==>
      path == fs.combine(".", fs.getFileNameWithoutExtension(sourcePath) + "_FileBased.cs")
  {
    fs.combine(fs.getDirectoryName(sourcePath).GetOr("."),
               fs.getFileNameWithoutExtension(sourcePath) + "_FileBased.cs")
  }

  /** What one invocation does, as a function of its inputs. */
  function Convert(fs: FileSystem, fx: Effects, files: seq<string>, outputPath: Option<string>): Conversion {
    var found := Discover(fs, Some(files));
    if found.csprojPath.None? then Conversion(Reported(NoCsprojFound), None)
    else if found.sourcePath.None? then Conversion(Reported(NoSourceFound), None)
    else if outputPath.Some? && outputPath.value in fs.files then
      Conversion(Reported(OutputAlreadyExists(outputPath.value)), None)
    else
      var csprojPath, sourcePath := found.csprojPath.value, found.sourcePath.value;
      var target := outputPath.GetOr(DefaultOutputPath(fs, sourcePath));
      if csprojPath !in fs.files then Conversion(Unhandled(ProjectFileNotFound(csprojPath)), None)
      else
        match fx.loadProject(csprojPath)
        case None => Conversion(Unhandled(ProjectLoadFailed(csprojPath)), None)
        case Some(doc) =>
          if !fx.canCreate(target) then Conversion(Reported(WriteFailed), None)
          else
            var info := Extract(doc);
            match fx.readAllText(sourcePath)
            case None => Conversion(Reported(WriteFailed), Some(OutputFile(target, AsLines(DirectiveLines(info)))))
            case Some(text) => Conversion(Converted, Some(OutputFile(target, Rendered(info, text))))
  }

  /** `ConvertProjectAction.Invoke`: early returns for the checks, the output
      path chosen in branches, then the writes through a writer object. */
  method Invoke(fs: FileSystem, fx: Effects, files: seq<string>, outputPath: Option<string>)
    returns (outcome: Outcome, written: Option<OutputFile>)
    ensures Conversion(outcome, written) == Convert(fs, fx, files, outputPath)
  {
    var csprojPath, sourcePath := DiscoverFiles(fs, Some(files));

    if csprojPath.None? {
      return Reported(NoCsprojFound), None;
    }
    if sourcePath.None? {
      return Reported(NoSourceFound), None;
    }

    var finalOutputPath: string;
    if outputPath.Some? {
      if outputPath.value in fs.files {
        return Reported(OutputAlreadyExists(outputPath.value)), None;
      }
      finalOutputPath := outputPath.value;
    } else {
      var directory := fs.getDirectoryName(sourcePath.value).GetOr(".");
      var fileNameWithoutExtension := fs.getFileNameWithoutExtension(sourcePath.value);
      finalOutputPath := fs.combine(directory, fileNameWithoutExtension + "_FileBased.cs");
    }

    var reader := CsprojReader.Open(fs.files, csprojPath.value);
    if reader.None? {
      return Unhandled(ProjectFileNotFound(csprojPath.value)), None;
    }
    var projectInfo := reader.value.GetProjectInformation(fx.loadProject);
    if projectInfo.None? {
      return Unhandled(ProjectLoadFailed(csprojPath.value)), None;
    }

    if !fx.canCreate(finalOutputPath) {
      return Reported(WriteFailed), None;
    }
    var writer := new LineWriter(finalOutputPath);
    WriteDirectives(projectInfo.value, writer);
    assert writer.chunks == AsLines(DirectiveLines(projectInfo.value));
    assert finalOutputPath == outputPath.GetOr(DefaultOutputPath(fs, sourcePath.value));
    var sourceContent := fx.readAllText(sourcePath.value);
    if sourceContent.None? {
      // disposing the writer still flushes what was written before the throw
      return Reported(WriteFailed), Some(OutputFile(writer.path, writer.chunks));
    }
    writer.Write(sourceContent.value);
    outcome, written := Converted, Some(OutputFile(writer.path, writer.chunks));
  }

  // ---------------------------------------------------------------------
  // Properties of the command
  // ---------------------------------------------------------------------

  /** The checks run in a fixed order (missing project file, missing source
      file, existing explicit output) and each stops with exit code 1 before
      anything is written. */
  lemma {:induction false} ErrorPrecedence(fs: FileSystem, fx: Effects, files: seq<string>, outputPath: Option<string>)
    ensures var found, c := Discover(fs, Some(files)), Convert(fs, fx, files, outputPath);
      && (found.csprojPath.None? ==> c == Conversion(Reported(NoCsprojFound), None))
      && (found.csprojPath.Some? && found.sourcePath.None? ==> c == Conversion(Reported(NoSourceFound), None))
      && (found.csprojPath.Some? && found.sourcePath.Some? && outputPath.Some? && outputPath.value in fs.files ==>
            c == Conversion(Reported(OutputAlreadyExists(outputPath.value)), None))
      && (c.outcome.Reported? && c.outcome.error != WriteFailed ==> ExitCode(c.outcome) == Some(1) && c.written.None?)
  {
  }

  /** The output path: an explicit one is used only when no file exists
      there (an existing one stops the run, with no fallback); without one the
      default name beside the source is used, and whether a file already
      exists at the default path plays no part: no premise below mentions it. */
  lemma {:induction false} OutputPathChoice(fs: FileSystem, fx: Effects, files: seq<string>, outputPath: Option<string>)
    ensures var found, c := Discover(fs, Some(files)), Convert(fs, fx, files, outputPath);
      c.written.Some? ==>
        && found.sourcePath.Some?
        && (outputPath.Some? ==> c.written.value.path == outputPath.value && outputPath.value !in fs.files)
        && (outputPath.None? ==> c.written.value.path == DefaultOutputPath(fs, found.sourcePath.value))
    ensures var found, c := Discover(fs, Some(files)), Convert(fs, fx, files, outputPath);
      && outputPath.None? && found.csprojPath.Some? && found.sourcePath.Some?
      && found.csprojPath.value in fs.files && fx.loadProject(found.csprojPath.value).Some?
      && fx.canCreate(DefaultOutputPath(fs, found.sourcePath.value))
      && fx.readAllText(found.sourcePath.value).Some?
      ==> c.outcome == Converted && c.written.Some? && c.written.value.path == DefaultOutputPath(fs, found.sourcePath.value)
  {
  }

  /** The exit code of every run, in terms of the inputs: 0 exactly when the
      checks pass, the project loads, the output opens and the source is read;
      1 when a check fails or, after loading, opening the output or reading
      the source throws; no exit code (the exception escapes) exactly when the
      project file is missing or does not load. */
  lemma {:induction false} ExitCodes(fs: FileSystem, fx: Effects, files: seq<string>, outputPath: Option<string>)
    ensures var found, code := Discover(fs, Some(files)), ExitCode(Convert(fs, fx, files, outputPath).outcome);
      var checked := found.csprojPath.Some? && found.sourcePath.Some? && !(outputPath.Some? && outputPath.value in fs.files);
      var loaded := checked && found.csprojPath.value in fs.files && fx.loadProject(found.csprojPath.value).Some?;
      var target := if checked then outputPath.GetOr(DefaultOutputPath(fs, found.sourcePath.value)) else "";
      && (code == Some(0) <==> loaded && fx.canCreate(target) && fx.readAllText(found.sourcePath.value).Some?)
      && (code == Some(1) <==> !checked || (loaded && (!fx.canCreate(target) || fx.readAllText(found.sourcePath.value).None?)))
      && (code.None? <==> checked && !loaded)
  {
  }

  /** When the output file cannot be opened, the run returns 1 and leaves no
      file behind. */
  lemma {:induction false} OpenFailureWritesNothing(fs: FileSystem, fx: Effects, files: seq<string>, outputPath: Option<string>)
    requires var found := Discover(fs, Some(files));
      && found.csprojPath.Some? && found.sourcePath.Some? && !(outputPath.Some? && outputPath.value in fs.files)
      && found.csprojPath.value in fs.files && fx.loadProject(found.csprojPath.value).Some?
      && !fx.canCreate(outputPath.GetOr(DefaultOutputPath(fs, found.sourcePath.value)))
    ensures Convert(fs, fx, files, outputPath) == Conversion(Reported(WriteFailed), None)
    ensures ExitCode(Convert(fs, fx, files, outputPath).outcome) == Some(1)
  {
  }

  /** A successful conversion writes the directive text followed by the
      whole source text, unchanged, and exits with 0. */
  lemma {:induction false} SuccessfulConversion(fs: FileSystem, fx: Effects, files: seq<string>, outputPath: Option<string>, newline: string)
    requires Convert(fs, fx, files, outputPath).outcome.Converted?
    ensures var found, c := Discover(fs, Some(files)), Convert(fs, fx, files, outputPath);
      && ExitCode(c.outcome) == Some(0)
      && found.csprojPath.Some? && found.sourcePath.Some?
      && fx.loadProject(found.csprojPath.value).Some?
      && fx.readAllText(found.sourcePath.value).Some?
      && c.written.Some?
      && var prefix := JoinLines(DirectiveLines(Extract(fx.loadProject(found.csprojPath.value).value)), newline);
         var source := fx.readAllText(found.sourcePath.value).value;
         var text := Text(c.written.value.chunks, newline);
         text == prefix + source && text[|prefix|..] == source
  {
    var found := Discover(fs, Some(files));
    var info := Extract(fx.loadProject(found.csprojPath.value).value);
    SourceIsVerbatimSuffix(info, fx.readAllText(found.sourcePath.value).value, newline);
  }

  /** When the source cannot be read after the output was opened, the run
      returns 1, but the output file keeps the directive lines of the loaded
      project, which were written before the throw. */
  lemma {:induction false} ReadFailureLeavesDirectives(fs: FileSystem, fx: Effects, files: seq<string>, outputPath: Option<string>, doc: ProjectDocument)
    requires var found := Discover(fs, Some(files));
      && found.csprojPath.Some? && found.sourcePath.Some? && !(outputPath.Some? && outputPath.value in fs.files)
      && found.csprojPath.value in fs.files && fx.loadProject(found.csprojPath.value) == Some(doc)
      && fx.canCreate(outputPath.GetOr(DefaultOutputPath(fs, found.sourcePath.value)))
      && fx.readAllText(found.sourcePath.value).None?
    ensures var target := outputPath.GetOr(DefaultOutputPath(fs, Discover(fs, Some(files)).sourcePath.value));
      Convert(fs, fx, files, outputPath) == Conversion(Reported(WriteFailed), Some(OutputFile(target, AsLines(DirectiveLines(Extract(doc))))))
    ensures ExitCode(Convert(fs, fx, files, outputPath).outcome) == Some(1)
  {
  }

  /** A project with one property and one package. */
  function ExampleDocument(): ProjectDocument {
    ProjectDocument(
      Some("MyApp.Sdk"),
      [Element("PropertyGroup", true, map[], "Exe", [Element("OutputType", true, map[], "Exe", [])])],
      [Element("PackageReference", true, map["Include" := "Newtonsoft.Json", "Version" := "13.0.1"], "", [])],
      [], [])
  }

  /** For that project the `PublishAot=false` default follows the declared
      property, and the empty project and using groups add no blank line. */
  lemma {:induction false} SinglePackageExample()
    ensures DirectiveLines(Extract(ExampleDocument())) == [
      "#!/usr/bin/env dotnet", "",
      "#:sdk MyApp.Sdk", "",
      "#:property OutputType=Exe", "#:property PublishAot=false", "",
      "#:package Newtonsoft.Json@13.0.1", ""]
  {
    ExampleExtraction();
    ExampleRendering();
  }

  lemma {:induction false} ExampleExtraction()
    ensures Extract(ExampleDocument()) == ProjectInformation(
      "MyApp.Sdk",
      [ProjectProperty("OutputType", "Exe"), PublishAotDefault],
      [PackageReference("Newtonsoft.Json", Some("13.0.1"))], [], [])
  {
    var doc := ExampleDocument();
    var group, package := doc.propertyGroups[0], doc.packageReferenceElements[0];
    var declared := [ProjectProperty("OutputType", "Exe")];
    assert DeclaredProperties([group]) == declared by {
      assert [group][..0] == [];
      assert PropertiesOf(group) == declared;
    }
    assert !Declares(declared, PublishAot);
    assert FilterMap([package], PackageReferenceOf) == [PackageReference("Newtonsoft.Json", Some("13.0.1"))] by {
      assert [package][..0] == [];
    }
  }

  lemma {:induction false} ExampleRendering()
    ensures DirectiveLines(ProjectInformation(
      "MyApp.Sdk",
      [ProjectProperty("OutputType", "Exe"), PublishAotDefault],
      [PackageReference("Newtonsoft.Json", Some("13.0.1"))], [], [])) == [
      "#!/usr/bin/env dotnet", "",
      "#:sdk MyApp.Sdk", "",
      "#:property OutputType=Exe", "#:property PublishAot=false", "",
      "#:package Newtonsoft.Json@13.0.1", ""]
  {
    var properties := [ProjectProperty("OutputType", "Exe"), PublishAotDefault];
    var packages := [PackageReference("Newtonsoft.Json", Some("13.0.1"))];
    ExampleLines();
    assert MapLines(properties, PropertyLine) == [PropertyLine(properties[0]), PropertyLine(properties[1])];
    assert MapLines(packages, PackageLine) == [PackageLine(packages[0])];
  }

  lemma {:induction false} ExampleLines()
    ensures PropertyLine(ProjectProperty("OutputType", "Exe")) == "#:property OutputType=Exe"
    ensures PropertyLine(PublishAotDefault) == "#:property PublishAot=false"
    ensures PackageLine(PackageReference("Newtonsoft.Json", Some("13.0.1"))) == "#:package Newtonsoft.Json@13.0.1"
    ensures Header("MyApp.Sdk") == ["#!/usr/bin/env dotnet", "", "#:sdk MyApp.Sdk", ""]
  {
    ExampleOutputTypeLine();
    ExamplePublishAotLine();
    ExamplePackageLine();
    ExampleHeader();
  }

  lemma ExampleOutputTypeLine()
    ensures PropertyLine(ProjectProperty("OutputType", "Exe")) == "#:property OutputType=Exe"
  {
  }

  lemma ExamplePublishAotLine()
    ensures PropertyLine(PublishAotDefault) == "#:property PublishAot=false"
  {
  }

  lemma ExamplePackageLine()
    ensures PackageLine(PackageReference("Newtonsoft.Json", Some("13.0.1"))) == "#:package Newtonsoft.Json@13.0.1"
  {
  }

  lemma ExampleHeader()
    ensures Header("MyApp.Sdk") == ["#!/usr/bin/env dotnet", "", "#:sdk MyApp.Sdk", ""]
  {
    assert SdkLine("MyApp.Sdk") == "#:sdk MyApp.Sdk";
  }
}
