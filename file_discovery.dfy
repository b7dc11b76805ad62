/**
 * Locating the project file (`.csproj`) and the source file (`.cs`) from the
 * command-line arguments. The file system and the platform's path functions
 * are a value: which directories and files exist, what a directory listing
 * for a search pattern returns, and the uninterpreted path functions.
 */
module FileDiscovery {
  import opened Wrappers
  import opened Strings

  const CsprojExtension := ".csproj"
  const CsExtension := ".cs"
  const CsprojPattern := "*.csproj"
  const CsPattern := "*.cs"

  datatype FileSystem = FileSystem(
    currentDirectory: string,                   // Directory.GetCurrentDirectory()
    directories: set<string>,                   // paths for which Directory.Exists holds
    files: set<string>,                         // paths for which File.Exists holds
    getFiles: (string, string) -> seq<string>,  // Directory.GetFiles(directory, pattern)
    getFullPath: string -> string,              // Path.GetFullPath
    getDirectoryName: string -> Option<string>, // Path.GetDirectoryName (null for a root)
    getFileNameWithoutExtension: string -> string,
    combine: (string, string) -> string)        // Path.Combine

  /** The pair returned by discovery; `None` is the C# `null`. */
  datatype Discovered = Discovered(csprojPath: Option<string>, sourcePath: Option<string>)

  const NothingFound := Discovered(None, None)

  datatype FileKind = ProjectFile | SourceFile | OtherFile

  /** Classification by case-insensitive extension, `.csproj` checked first. */
  function KindOf(path: string): (k: FileKind)
    ensures k == ProjectFile <==> EndsWithIgnoreCase(path, CsprojExtension)
    ensures k == SourceFile <==> EndsWithIgnoreCase(path, CsExtension)
    ensures k == OtherFile <==> !EndsWithIgnoreCase(path, CsprojExtension) && !EndsWithIgnoreCase(path, CsExtension)
  {
    CsprojSuffixExcludesCsSuffix(path);
    if EndsWithIgnoreCase(path, CsprojExtension) then ProjectFile
    else if EndsWithIgnoreCase(path, CsExtension) then SourceFile
    else OtherFile
  }

  /** No path ends in both extensions (one ends in 'j', the other in 's'), so
      the order of the two tests never changes a classification. */
  lemma {:induction false} CsprojSuffixExcludesCsSuffix(path: string)
    ensures !(EndsWithIgnoreCase(path, CsprojExtension) && EndsWithIgnoreCase(path, CsExtension))
  {
    if EndsWithIgnoreCase(path, CsprojExtension) {
      var n := |path|;
      assert FoldAscii(path[n - 1]) == 'j' by {
        assert path[n - 7..][6] == path[n - 1];
        assert FoldAscii(path[n - 7..][6]) == FoldAscii(CsprojExtension[6]);
      }
      assert path[n - 3..][2] == path[n - 1];
      assert FoldAscii(path[n - 3..][2]) != FoldAscii(CsExtension[2]);
    }
  }

  /** `FindCsprojFile` / `FindCsFile`: the full path of the only match of the
      pattern in the directory, or nothing when there are zero or several. */
  function FindSingleFile(fs: FileSystem, directory: string, pattern: string): (r: Option<string>)
    ensures r.Some? <==> |fs.getFiles(directory, pattern)| == 1
    ensures r.Some? ==> exists f :: fs.getFiles(directory, pattern) == [f] && r.value == fs.getFullPath(f)
  {
    var matches := fs.getFiles(directory, pattern);
    if |matches| == 1 then
      assert matches == [matches[0]];
      Some(fs.getFullPath(matches[0]))
    else None
  }

  function FindCsprojFile(fs: FileSystem, directory: string): Option<string> {
    FindSingleFile(fs, directory, CsprojPattern)
  }

  function FindCsFile(fs: FileSystem, directory: string): Option<string> {
    FindSingleFile(fs, directory, CsPattern)
  }

  /** Scanning a directory fills each slot independently of the other. */
  function FindFilesInDirectory(fs: FileSystem, directory: string): (d: Discovered)
    ensures d.csprojPath.Some? <==> |fs.getFiles(directory, CsprojPattern)| == 1
    ensures d.sourcePath.Some? <==> |fs.getFiles(directory, CsPattern)| == 1
  {
    Discovered(FindCsprojFile(fs, directory), FindCsFile(fs, directory))
  }

  /** An argument of the two-argument form counts for a slot when it is an
      existing file of that kind. */
  predicate Qualifies(fs: FileSystem, arg: string, kind: FileKind) {
    arg in fs.files && KindOf(arg) == kind
  }

  /** The full path of the last argument that qualifies for `kind`: a later
      argument overwrites an earlier one. */
  function LastOfKind(fs: FileSystem, args: seq<string>, kind: FileKind): Option<string> {
    LastWhere(args, arg => Qualifies(fs, arg, kind), fs.getFullPath)
  }

  /** `f` of the last element of `s` that `keep` accepts, if any. */
  function LastWhere<T, U>(s: seq<T>, keep: T -> bool, f: T -> U): Option<U> {
    if s == [] then None
    else if keep(s[|s| - 1]) then Some(f(s[|s| - 1]))
    else LastWhere(s[..|s| - 1], keep, f)
  }

  /** The slot of the one kind the lone file argument leaves to a scan of its directory. */
  function ScanBeside(fs: FileSystem, fullPath: string, pattern: string): Option<string> {
    match fs.getDirectoryName(fullPath)
    case Some(directory) => FindSingleFile(fs, directory, pattern)
    case None => None
  }

  /** The one-argument form: a directory is scanned; an existing `.csproj` or
      `.cs` file fixes its own slot and its directory is scanned for the other. */
  function DiscoverSingle(fs: FileSystem, arg: string): Discovered {
    if arg in fs.directories then FindFilesInDirectory(fs, arg)
    else if arg in fs.files then
      match KindOf(arg)
      case ProjectFile =>
        var full := fs.getFullPath(arg);
        Discovered(Some(full), ScanBeside(fs, full, CsPattern))
      case SourceFile =>
        var full := fs.getFullPath(arg);
        Discovered(ScanBeside(fs, full, CsprojPattern), Some(full))
      case OtherFile => NothingFound
    else NothingFound
  }

  /** What `DiscoverFiles` returns, by argument count (`None` is a null array). */
  function Discover(fs: FileSystem, args: Option<seq<string>>): Discovered {
    match args
    case None => FindFilesInDirectory(fs, fs.currentDirectory)
    case Some(a) =>
      if |a| == 0 then FindFilesInDirectory(fs, fs.currentDirectory)
      else if |a| == 1 then DiscoverSingle(fs, a[0])
      else if |a| == 2 then Discovered(LastOfKind(fs, a, ProjectFile), LastOfKind(fs, a, SourceFile))
      else NothingFound
  }

  /** `DiscoverFiles`: two locals reassigned along the branches, and a loop
      over the arguments in the two-argument form. */
  method DiscoverFiles(fs: FileSystem, args: Option<seq<string>>)
    returns (csprojPath: Option<string>, sourcePath: Option<string>)
    ensures Discovered(csprojPath, sourcePath) == Discover(fs, args)
  {
    csprojPath, sourcePath := None, None;
    if args.None? || |args.value| == 0 {
      var currentDir := fs.currentDirectory;
      csprojPath, sourcePath := FindCsprojFile(fs, currentDir), FindCsFile(fs, currentDir);
    } else if |args.value| == 1 {
      var arg := args.value[0];
      if arg in fs.directories {
        csprojPath, sourcePath := FindCsprojFile(fs, arg), FindCsFile(fs, arg);
      } else if arg in fs.files {
        if EndsWithIgnoreCase(arg, CsprojExtension) {
          csprojPath := Some(fs.getFullPath(arg));
          var directory := fs.getDirectoryName(csprojPath.value);
          if directory.Some? {
            sourcePath := FindCsFile(fs, directory.value);
          }
        } else if EndsWithIgnoreCase(arg, CsExtension) {
          sourcePath := Some(fs.getFullPath(arg));
          var directory := fs.getDirectoryName(sourcePath.value);
          if directory.Some? {
            csprojPath := FindCsprojFile(fs, directory.value);
          }
        }
      }
    } else if |args.value| == 2 {
      var a := args.value;
      for i := 0 to |a|
        invariant csprojPath == LastOfKind(fs, a[..i], ProjectFile)
        invariant sourcePath == LastOfKind(fs, a[..i], SourceFile)
      {
        var arg := a[i];
        assert a[..i + 1][..i] == a[..i];
        if arg in fs.files {
          if EndsWithIgnoreCase(arg, CsprojExtension) {
            csprojPath := Some(fs.getFullPath(arg));
          } else if EndsWithIgnoreCase(arg, CsExtension) {
            sourcePath := Some(fs.getFullPath(arg));
          }
        }
      }
      assert a[..|a|] == a;
    }
  }

  // ---------------------------------------------------------------------
  // Properties of discovery
  // ---------------------------------------------------------------------

  /** A null or empty argument array scans the current directory. */
  lemma {:induction false} NoArgumentsScanCurrentDirectory(fs: FileSystem)
    ensures Discover(fs, None) == Discover(fs, Some([]))
    ensures Discover(fs, None) == FindFilesInDirectory(fs, fs.currentDirectory)
    ensures Discover(fs, None).csprojPath.Some? ==>
      exists f :: fs.getFiles(fs.currentDirectory, CsprojPattern) == [f] && Discover(fs, None).csprojPath.value == fs.getFullPath(f)
    ensures Discover(fs, None).sourcePath.Some? ==>
      exists f :: fs.getFiles(fs.currentDirectory, CsPattern) == [f] && Discover(fs, None).sourcePath.value == fs.getFullPath(f)
    ensures Discover(fs, None).csprojPath.Some? <==> |fs.getFiles(fs.currentDirectory, CsprojPattern)| == 1
    ensures Discover(fs, None).sourcePath.Some? <==> |fs.getFiles(fs.currentDirectory, CsPattern)| == 1
  {
  }

  /** A lone directory argument is scanned exactly as the current directory
      would be if it were that directory. */
  lemma {:induction false} DirectoryArgumentScansLikeNoArguments(fs: FileSystem, dir: string)
    requires dir in fs.directories
    ensures Discover(fs, Some([dir])) == Discover(fs.(currentDirectory := dir), None)
  {
  }

  /** A lone existing `.csproj` file (not a directory) fixes the project slot
      to its full path; the source slot is the full path of the only `.cs`
      file beside it, if there is exactly one. */
  lemma {:induction false} SingleProjectFileArgument(fs: FileSystem, arg: string)
    requires arg !in fs.directories && arg in fs.files && EndsWithIgnoreCase(arg, CsprojExtension)
    ensures var d := Discover(fs, Some([arg]));
      && d.csprojPath == Some(fs.getFullPath(arg))
      && d.sourcePath == ScanBeside(fs, fs.getFullPath(arg), CsPattern)
      && (d.sourcePath.Some? <==>
           exists dir :: fs.getDirectoryName(fs.getFullPath(arg)) == Some(dir) && |fs.getFiles(dir, CsPattern)| == 1)
      && (d.sourcePath.Some? ==>
           exists dir, f :: fs.getDirectoryName(fs.getFullPath(arg)) == Some(dir) && fs.getFiles(dir, CsPattern) == [f]
             && d.sourcePath.value == fs.getFullPath(f))
  {
  }

  /** A lone existing `.cs` file (not a directory) fixes the source slot to its
      full path; the project slot is the full path of the only `.csproj` file
      beside it, if there is exactly one. */
  lemma {:induction false} SingleSourceFileArgument(fs: FileSystem, arg: string)
    requires arg !in fs.directories && arg in fs.files && EndsWithIgnoreCase(arg, CsExtension)
    ensures var d := Discover(fs, Some([arg]));
      && d.sourcePath == Some(fs.getFullPath(arg))
      && d.csprojPath == ScanBeside(fs, fs.getFullPath(arg), CsprojPattern)
      && (d.csprojPath.Some? <==>
           exists dir :: fs.getDirectoryName(fs.getFullPath(arg)) == Some(dir) && |fs.getFiles(dir, CsprojPattern)| == 1)
      && (d.csprojPath.Some? ==>
           exists dir, f :: fs.getDirectoryName(fs.getFullPath(arg)) == Some(dir) && fs.getFiles(dir, CsprojPattern) == [f]
             && d.csprojPath.value == fs.getFullPath(f))
  {
  }

  /** A lone argument that is neither a directory nor an existing `.csproj` or
      `.cs` file finds nothing. */
  lemma {:induction false} SingleUnresolvedArgument(fs: FileSystem, arg: string)
    requires arg !in fs.directories
    requires arg !in fs.files || KindOf(arg) == OtherFile
    ensures Discover(fs, Some([arg])) == NothingFound
  {
  }

  /** The last qualifying argument wins, whatever comes before it, and
      arguments that do not qualify contribute nothing. */
  lemma {:induction false} LastOfKindIsLastQualifying(fs: FileSystem, args: seq<string>, kind: FileKind)
    ensures LastOfKind(fs, args, kind).Some? <==> exists i :: 0 <= i < |args| && Qualifies(fs, args[i], kind)
    ensures LastOfKind(fs, args, kind).Some? ==>
      exists i :: 0 <= i < |args| && Qualifies(fs, args[i], kind)
        && LastOfKind(fs, args, kind).value == fs.getFullPath(args[i])
        && forall j :: i < j < |args| ==> !Qualifies(fs, args[j], kind)
  {
    LastWhereIsLast(args, arg => Qualifies(fs, arg, kind), fs.getFullPath);
  }

  lemma {:induction false} LastWhereIsLast<T, U>(s: seq<T>, keep: T -> bool, f: T -> U)
    ensures LastWhere(s, keep, f).Some? <==> exists i :: 0 <= i < |s| && keep(s[i])
    ensures LastWhere(s, keep, f).Some? ==>
      exists i :: 0 <= i < |s| && keep(s[i]) && LastWhere(s, keep, f).value == f(s[i])
        && forall j :: i < j < |s| ==> !keep(s[j])
  {
    if s != [] {
      var init, n := s[..|s| - 1], |s| - 1;
      if !keep(s[n]) {
        LastWhereIsLast(init, keep, f);
        if i :| 0 <= i < |s| && keep(s[i]) {
          assert i < n && init[i] == s[i];
        }
        if LastWhere(init, keep, f).Some? {
          var i :| 0 <= i < |init| && keep(init[i]) && LastWhere(init, keep, f).value == f(init[i])
            && forall j :: i < j < |init| ==> !keep(init[j]);
          assert s[i] == init[i];
          forall j | i < j < |s|
            ensures !keep(s[j])
          {
            if j < n {
              assert s[j] == init[j];
            }
          }
        }
      }
    }
  }

  /** The two-argument form classifies each argument on its own: the later
      one of a kind overwrites the earlier, and a path that is not an existing
      file of that kind is ignored. */
  lemma {:induction false} TwoArgumentsClassifiedIndependently(fs: FileSystem, a: string, b: string)
    ensures var d := Discover(fs, Some([a, b]));
      && d.csprojPath == (if Qualifies(fs, b, ProjectFile) then Some(fs.getFullPath(b))
                          else if Qualifies(fs, a, ProjectFile) then Some(fs.getFullPath(a))
                          else None)
      && d.sourcePath == (if Qualifies(fs, b, SourceFile) then Some(fs.getFullPath(b))
                          else if Qualifies(fs, a, SourceFile) then Some(fs.getFullPath(a))
                          else None)
  {
    var args := [a, b];
    assert args[..1] == [a] && [a][..0] == [];
    forall kind
      ensures LastOfKind(fs, args, kind) == (if Qualifies(fs, b, kind) then Some(fs.getFullPath(b))
                                             else if Qualifies(fs, a, kind) then Some(fs.getFullPath(a))
                                             else None)
    {
      var keep := arg => Qualifies(fs, arg, kind);
      assert LastWhere([a][..0], keep, fs.getFullPath) == None;
      assert LastOfKind(fs, [a], kind) == (if Qualifies(fs, a, kind) then Some(fs.getFullPath(a)) else None);
    }
  }

  /** A `.csproj` and a `.cs` argument (or any two of different kinds) give the
      same result in either order. */
  lemma {:induction false} TwoArgumentsOrderIndependent(fs: FileSystem, a: string, b: string)
    requires KindOf(a) != KindOf(b)
    ensures Discover(fs, Some([a, b])) == Discover(fs, Some([b, a]))
  {
    TwoArgumentsClassifiedIndependently(fs, a, b);
    TwoArgumentsClassifiedIndependently(fs, b, a);
  }

  /** Three or more arguments find nothing. */
  lemma {:induction false} ManyArgumentsFindNothing(fs: FileSystem, args: seq<string>)
    requires |args| > 2
    ensures Discover(fs, Some(args)) == NothingFound
  {
  }
}
