/**
 * The file-based app format: a shebang, the SDK directive, one directive
 * group per kind of project information (each followed by a blank line only
 * when it is non-empty), then the original source verbatim.
 */
module Emitter {
  import opened Wrappers
  import opened Strings
  import opened Models
  import opened Sequences

  const Shebang := "#!/usr/bin/env dotnet"

  /** `#:sdk ` followed by the SDK name, verbatim. */
  function SdkLine(sdkType: string): (line: string)
    ensures |line| == 6 + |sdkType| && line[..6] == "#:sdk " && line[6..] == sdkType
  {
    "#:sdk " + sdkType
  }

  /** `#:property ` followed by the name, `=` and the value, each verbatim. */
  function PropertyLine(p: ProjectProperty): (line: string)
    ensures |line| == 12 + |p.name| + |p.value| && line[..11] == "#:property "
    ensures line[11..11 + |p.name|] == p.name && line[11 + |p.name|] == '=' && line[12 + |p.name|..] == p.value
  {
    "#:property " + p.name + "=" + p.value
  }

  /** `#:package ` followed by the name, `@` and the version; a missing version
      interpolates as the empty string, so the line then ends at the `@`. */
  function PackageLine(p: PackageReference): (line: string)
    ensures p.version.None? ==> line == "#:package " + p.name + "@"
    ensures p.version.Some? ==> line == "#:package " + p.name + "@" + p.version.value
  {
    "#:package " + p.name + "@" + p.version.GetOr("")
  }

  /** `#:project ` followed by the reference path, verbatim. */
  function ProjectLine(p: ProjectReference): (line: string)
    ensures |line| == 10 + |p.path| && line[..10] == "#:project " && line[10..] == p.path
  {
    "#:project " + p.path
  }

  /** The three forms of a global using: a non-blank alias wins over the
      static flag, the static flag over the plain form. */
  function UsingLine(u: UsingDirective): (line: string)
    ensures !IsNullOrWhiteSpace(u.alias) ==> line == "global using " + u.alias.value + " = " + u.namespaceName + ";"
    ensures IsNullOrWhiteSpace(u.alias) && u.isStatic ==> line == "global using static " + u.namespaceName + ";"
    ensures IsNullOrWhiteSpace(u.alias) && !u.isStatic ==> line == "global using " + u.namespaceName + ";"
  {
    if !IsNullOrWhiteSpace(u.alias) then "global using " + u.alias.value + " = " + u.namespaceName + ";"
    else if u.isStatic then "global using static " + u.namespaceName + ";"
    else "global using " + u.namespaceName + ";"
  }

  function MapLines<T>(s: seq<T>, render: T -> string): (r: seq<string>)
    ensures |r| == |s| && forall i :: 0 <= i < |s| ==> r[i] == render(s[i])
  {
    seq(|s|, i requires 0 <= i < |s| => render(s[i]))
  }

  /** A directive group and, when it has lines, the blank line after it. */
  function Group(lines: seq<string>): seq<string> {
    lines + (if |lines| > 0 then [""] else [])
  }

  function Header(sdkType: string): seq<string> {
    [Shebang, "", SdkLine(sdkType), ""]
  }

  /** Every line written before the source text. */
  function DirectiveLines(info: ProjectInformation): seq<string> {
    Header(info.sdkType)
      + Group(MapLines(info.properties, PropertyLine))
      + Group(MapLines(info.packageReferences, PackageLine))
      + Group(MapLines(info.projectReferences, ProjectLine))
      + Group(MapLines(info.usingDirectives, UsingLine))
  }

  // ---------------------------------------------------------------------
  // What is written: lines (each ended by the platform newline) and raw text
  // ---------------------------------------------------------------------

  datatype Chunk = Line(text: string) | Raw(text: string)

  function AsLines(lines: seq<string>): (r: seq<Chunk>)
    ensures |r| == |lines| && forall i :: 0 <= i < |lines| ==> r[i] == Line(lines[i])
  {
    seq(|lines|, i requires 0 <= i < |lines| => Line(lines[i]))
  }

  /** The whole output of a successful conversion. */
  function Rendered(info: ProjectInformation, source: string): seq<Chunk> {
    AsLines(DirectiveLines(info)) + [Raw(source)]
  }

  function ChunkText(c: Chunk, newline: string): string {
    match c
    case Line(t) => t + newline
    case Raw(t) => t
  }

  /** The characters a sequence of writes puts in the file. */
  function Text(chunks: seq<Chunk>, newline: string): string {
    if chunks == [] then ""
    else Text(chunks[..|chunks| - 1], newline) + ChunkText(chunks[|chunks| - 1], newline)
  }

  /** Lines joined, each followed by the newline. */
  function JoinLines(lines: seq<string>, newline: string): string {
    if lines == [] then "" else lines[0] + newline + JoinLines(lines[1..], newline)
  }

  /** The `StreamWriter` the action writes through. */
  class LineWriter {
    const path: string
    var chunks: seq<Chunk>

    constructor (path: string)
      ensures this.path == path && chunks == []
    {
      this.path := path;
      chunks := [];
    }

    method WriteLine(text: string)
      modifies this
      ensures chunks == old(chunks) + [Line(text)]
    {
      chunks := chunks + [Line(text)];
    }

    method Write(text: string)
      modifies this
      ensures chunks == old(chunks) + [Raw(text)]
    {
      chunks := chunks + [Raw(text)];
    }
  }

  /** `WriteEmptyLineIf`. */
  method WriteEmptyLineIf(condition: bool, writer: LineWriter)
    modifies writer
    ensures writer.chunks == old(writer.chunks) + AsLines(if condition then [""] else [])
  {
    if condition {
      writer.WriteLine("");
    }
  }

  /** Writes one directive group line by line, then its blank line if any. */
  method WriteGroup<T>(items: seq<T>, render: T -> string, writer: LineWriter)
    modifies writer
    ensures writer.chunks == old(writer.chunks) + AsLines(Group(MapLines(items, render)))
  {
    for i := 0 to |items|
      invariant writer.chunks == old(writer.chunks) + AsLines(MapLines(items, render)[..i])
    {
      writer.WriteLine(render(items[i]));
      assert MapLines(items, render)[..i + 1] == MapLines(items, render)[..i] + [render(items[i])];
    }
    assert MapLines(items, render)[..|items|] == MapLines(items, render);
    WriteEmptyLineIf(|items| > 0, writer);
  }

  /** The shebang, the SDK directive and the blank lines around it. */
  method WriteHeader(sdkType: string, writer: LineWriter)
    modifies writer
    ensures writer.chunks == old(writer.chunks) + AsLines(Header(sdkType))
  {
    writer.WriteLine(Shebang);
    writer.WriteLine("");
    writer.WriteLine(SdkLine(sdkType));
    writer.WriteLine("");
    assert AsLines(Header(sdkType)) == [Line(Shebang), Line(""), Line(SdkLine(sdkType)), Line("")];
  }

  /** The body of the writer block up to the source text. */
  method WriteDirectives(info: ProjectInformation, writer: LineWriter)
    modifies writer
    ensures writer.chunks == old(writer.chunks) + AsLines(DirectiveLines(info))
  {
    ghost var start := writer.chunks;
    ghost var h, a, b, c, d := AsLines(Header(info.sdkType)), AsLines(Group(MapLines(info.properties, PropertyLine))),
      AsLines(Group(MapLines(info.packageReferences, PackageLine))), AsLines(Group(MapLines(info.projectReferences, ProjectLine))),
      AsLines(Group(MapLines(info.usingDirectives, UsingLine)));
    WriteHeader(info.sdkType, writer);
    WriteGroup(info.properties, PropertyLine, writer);
    WriteGroup(info.packageReferences, PackageLine, writer);
    WriteGroup(info.projectReferences, ProjectLine, writer);
    WriteGroup(info.usingDirectives, UsingLine, writer);
    AsLinesOfDirectives(info);
    Regroup(start, h, a, b, c, d);
  }

  lemma {:induction false} Regroup(s: seq<Chunk>, h: seq<Chunk>, a: seq<Chunk>, b: seq<Chunk>, c: seq<Chunk>, d: seq<Chunk>)
    ensures s + h + a + b + c + d == s + (h + a + b + c + d)
  {
  }

  lemma AsLinesAppend(a: seq<string>, b: seq<string>)
    ensures AsLines(a + b) == AsLines(a) + AsLines(b)
  {
  }

  lemma {:induction false} AsLinesOfDirectives(info: ProjectInformation)
    ensures AsLines(DirectiveLines(info)) ==
      AsLines(Header(info.sdkType))
      + AsLines(Group(MapLines(info.properties, PropertyLine)))
      + AsLines(Group(MapLines(info.packageReferences, PackageLine)))
      + AsLines(Group(MapLines(info.projectReferences, ProjectLine)))
      + AsLines(Group(MapLines(info.usingDirectives, UsingLine)))
  {
    var h, a, b, c, d := Header(info.sdkType), Group(MapLines(info.properties, PropertyLine)),
      Group(MapLines(info.packageReferences, PackageLine)), Group(MapLines(info.projectReferences, ProjectLine)),
      Group(MapLines(info.usingDirectives, UsingLine));
    AsLinesAppend(h + a + b + c, d);
    AsLinesAppend(h + a + b, c);
    AsLinesAppend(h + a, b);
    AsLinesAppend(h, a);
  }

  // ---------------------------------------------------------------------
  // Reading the format back: a classifier of output lines
  // ---------------------------------------------------------------------

  datatype LineKind =
    | ShebangKind | BlankKind | SdkKind | PropertyKind | PackageKind | ProjectKind | UsingKind | OtherKind

  /** What a reader of the format sees a line as, from its prefix alone. */
  function KindOfLine(line: string): LineKind {
    if line == "" then BlankKind
    else if StartsWith(line, "#!") then ShebangKind
    else if StartsWith(line, "#:sdk ") then SdkKind
    else if StartsWith(line, "#:property ") then PropertyKind
    else if StartsWith(line, "#:package ") then PackageKind
    else if StartsWith(line, "#:project ") then ProjectKind
    else if StartsWith(line, "global using ") then UsingKind
    else OtherKind
  }

  function Kinds(lines: seq<string>): (r: seq<LineKind>)
    ensures |r| == |lines| && forall i :: 0 <= i < |lines| ==> r[i] == KindOfLine(lines[i])
  {
    seq(|lines|, i requires 0 <= i < |lines| => KindOfLine(lines[i]))
  }

  /** `n` lines of one kind, then a blank line iff `n > 0`. */
  function Section(kind: LineKind, n: nat): seq<LineKind> {
    seq(n, _ => kind) + (if n > 0 then [BlankKind] else [])
  }

  lemma {:induction false} DiffersAt(line: string, prefix: string, i: nat)
    requires i < |prefix| && i < |line| && line[i] != prefix[i]
    ensures !StartsWith(line, prefix)
  {
  }

  lemma {:induction false} SdkLineKind(rest: string)
    ensures KindOfLine("#:sdk " + rest) == SdkKind
  {
    var line := "#:sdk " + rest;
    assert line[..6] == "#:sdk ";
    DiffersAt(line, "#!", 1);
  }

  lemma {:induction false} PropertyLineKind(rest: string)
    ensures KindOfLine("#:property " + rest) == PropertyKind
  {
    var line := "#:property " + rest;
    assert line[..11] == "#:property ";
    DiffersAt(line, "#!", 1);
    DiffersAt(line, "#:sdk ", 2);
  }

  lemma {:induction false} PackageLineKind(rest: string)
    ensures KindOfLine("#:package " + rest) == PackageKind
  {
    var line := "#:package " + rest;
    assert line[..10] == "#:package ";
    DiffersAt(line, "#!", 1);
    DiffersAt(line, "#:sdk ", 2);
    DiffersAt(line, "#:property ", 3);
  }

  lemma {:induction false} ProjectLineKind(rest: string)
    ensures KindOfLine("#:project " + rest) == ProjectKind
  {
    var line := "#:project " + rest;
    assert line[..10] == "#:project ";
    DiffersAt(line, "#!", 1);
    DiffersAt(line, "#:sdk ", 2);
    DiffersAt(line, "#:property ", 5);
    DiffersAt(line, "#:package ", 3);
  }

  lemma {:induction false} UsingLineKind(rest: string)
    ensures KindOfLine("global using " + rest) == UsingKind
  {
    var line := "global using " + rest;
    assert line[..13] == "global using ";
    DiffersAt(line, "#!", 0);
    DiffersAt(line, "#:sdk ", 0);
    DiffersAt(line, "#:property ", 0);
    DiffersAt(line, "#:package ", 0);
    DiffersAt(line, "#:project ", 0);
  }

  lemma {:induction false} LineKinds(info: ProjectInformation)
    ensures KindOfLine(SdkLine(info.sdkType)) == SdkKind
    ensures forall p :: KindOfLine(PropertyLine(p)) == PropertyKind
    ensures forall p :: KindOfLine(PackageLine(p)) == PackageKind
    ensures forall p :: KindOfLine(ProjectLine(p)) == ProjectKind
    ensures forall u :: KindOfLine(UsingLine(u)) == UsingKind
  {
    SdkLineKind(info.sdkType);
    forall p: ProjectProperty ensures KindOfLine(PropertyLine(p)) == PropertyKind {
      assert PropertyLine(p) == "#:property " + (p.name + "=" + p.value);
      PropertyLineKind(p.name + "=" + p.value);
    }
    forall p: PackageReference ensures KindOfLine(PackageLine(p)) == PackageKind {
      assert PackageLine(p) == "#:package " + (p.name + "@" + p.version.GetOr(""));
      PackageLineKind(p.name + "@" + p.version.GetOr(""));
    }
    forall p: ProjectReference ensures KindOfLine(ProjectLine(p)) == ProjectKind {
      ProjectLineKind(p.path);
    }
    forall u: UsingDirective ensures KindOfLine(UsingLine(u)) == UsingKind {
      var line := UsingLine(u);
      if !IsNullOrWhiteSpace(u.alias) {
        assert line == "global using " + (u.alias.value + " = " + u.namespaceName + ";");
        UsingLineKind(u.alias.value + " = " + u.namespaceName + ";");
      } else if u.isStatic {
        assert line == "global using " + ("static " + u.namespaceName + ";");
        UsingLineKind("static " + u.namespaceName + ";");
      } else {
        assert line == "global using " + (u.namespaceName + ";");
        UsingLineKind(u.namespaceName + ";");
      }
    }
  }

  lemma GroupKinds<T>(items: seq<T>, render: T -> string, kind: LineKind)
    requires kind != BlankKind
    requires forall x :: KindOfLine(render(x)) == kind
    ensures Kinds(Group(MapLines(items, render))) == Section(kind, |items|)
  {
  }

  lemma KindsAppend(a: seq<string>, b: seq<string>)
    ensures Kinds(a + b) == Kinds(a) + Kinds(b)
  {
  }

  /** The layout of the directive block as a reader of the format sees it:
      shebang, blank, SDK, blank, then the property, package, project and
      using groups in that order, each with one line per item in the list and
      followed by a single blank line exactly when it is non-empty. */
  lemma {:induction false} DirectiveLayout(info: ProjectInformation)
    ensures Kinds(DirectiveLines(info)) ==
      [ShebangKind, BlankKind, SdkKind, BlankKind]
      + Section(PropertyKind, |info.properties|)
      + Section(PackageKind, |info.packageReferences|)
      + Section(ProjectKind, |info.projectReferences|)
      + Section(UsingKind, |info.usingDirectives|)
  {
    LineKinds(info);
    var h, a, b, c, d := Header(info.sdkType), Group(MapLines(info.properties, PropertyLine)),
      Group(MapLines(info.packageReferences, PackageLine)), Group(MapLines(info.projectReferences, ProjectLine)),
      Group(MapLines(info.usingDirectives, UsingLine));
    assert StartsWith(Shebang, "#!");
    assert Kinds(h) == [ShebangKind, BlankKind, SdkKind, BlankKind];
    GroupKinds(info.properties, PropertyLine, PropertyKind);
    GroupKinds(info.packageReferences, PackageLine, PackageKind);
    GroupKinds(info.projectReferences, ProjectLine, ProjectKind);
    GroupKinds(info.usingDirectives, UsingLine, UsingKind);
    KindsAppend(h + a + b + c, d);
    KindsAppend(h + a + b, c);
    KindsAppend(h + a, b);
    KindsAppend(h, a);
  }

  /** The directive block opens with the shebang, a blank line, the SDK
      directive and a blank line; each group adds one line per item plus its
      blank line when it is non-empty. */
  lemma {:induction false} DirectiveHeader(info: ProjectInformation)
    ensures |DirectiveLines(info)| == 4 + GroupSize(|info.properties|) + GroupSize(|info.packageReferences|)
      + GroupSize(|info.projectReferences|) + GroupSize(|info.usingDirectives|)
    ensures 4 <= |DirectiveLines(info)| && DirectiveLines(info)[..4] == [Shebang, "", "#:sdk " + info.sdkType, ""]
  {
    var h, a, b, c, d := Header(info.sdkType), Group(MapLines(info.properties, PropertyLine)),
      Group(MapLines(info.packageReferences, PackageLine)), Group(MapLines(info.projectReferences, ProjectLine)),
      Group(MapLines(info.usingDirectives, UsingLine));
    assert DirectiveLines(info) == h + a + b + c + d;
    GroupAt(info.properties, PropertyLine, 0);
    GroupAt(info.packageReferences, PackageLine, 0);
    GroupAt(info.projectReferences, ProjectLine, 0);
    GroupAt(info.usingDirectives, UsingLine, 0);
    FiveParts(h, a, b, c, d, 0);
  }

  /** Where each rendered item sits: the properties from line 4 on, each
      following group after the previous one and its blank line, every group
      in the order of its list. */
  lemma {:induction false} DirectivePositions(info: ProjectInformation, k: nat)
    ensures var lines := DirectiveLines(info);
      var pk := 4 + GroupSize(|info.properties|);
      var pj := pk + GroupSize(|info.packageReferences|);
      var pu := pj + GroupSize(|info.projectReferences|);
      && (k < |info.properties| ==> 4 + k < |lines| && lines[4 + k] == PropertyLine(info.properties[k]))
      && (k < |info.packageReferences| ==> pk + k < |lines| && lines[pk + k] == PackageLine(info.packageReferences[k]))
      && (k < |info.projectReferences| ==> pj + k < |lines| && lines[pj + k] == ProjectLine(info.projectReferences[k]))
      && (k < |info.usingDirectives| ==> pu + k < |lines| && lines[pu + k] == UsingLine(info.usingDirectives[k]))
  {
    var h, a, b, c, d := Header(info.sdkType), Group(MapLines(info.properties, PropertyLine)),
      Group(MapLines(info.packageReferences, PackageLine)), Group(MapLines(info.projectReferences, ProjectLine)),
      Group(MapLines(info.usingDirectives, UsingLine));
    assert DirectiveLines(info) == h + a + b + c + d;
    GroupAt(info.properties, PropertyLine, k);
    GroupAt(info.packageReferences, PackageLine, k);
    GroupAt(info.projectReferences, ProjectLine, k);
    GroupAt(info.usingDirectives, UsingLine, k);
    FiveParts(h, a, b, c, d, k);
  }

  /** Where each part of a five-part concatenation sits, at offset `k` into each part. */
  lemma {:induction false} FiveParts(h: seq<string>, a: seq<string>, b: seq<string>, c: seq<string>, d: seq<string>, k: nat)
    ensures var lines := h + a + b + c + d;
      && |lines| == |h| + |a| + |b| + |c| + |d|
      && lines[..|h|] == h
      && (k < |a| ==> lines[|h| + k] == a[k])
      && (k < |b| ==> lines[|h| + |a| + k] == b[k])
      && (k < |c| ==> lines[|h| + |a| + |b| + k] == c[k])
      && (k < |d| ==> lines[|h| + |a| + |b| + |c| + k] == d[k])
  {
  }

  lemma GroupAt<T>(items: seq<T>, render: T -> string, k: nat)
    ensures |Group(MapLines(items, render))| == GroupSize(|items|)
    ensures k < |items| ==> Group(MapLines(items, render))[k] == render(items[k])
  {
  }

  function GroupSize(n: nat): nat {
    if n > 0 then n + 1 else 0
  }

  /** Using rendering ignores the static flag whenever the alias is non-blank. */
  lemma {:induction false} AliasTakesPrecedence(u: UsingDirective, isStatic: bool)
    requires !IsNullOrWhiteSpace(u.alias)
    ensures UsingLine(u.(isStatic := isStatic)) == UsingLine(u)
  {
  }

  lemma {:induction false} TextAppend(a: seq<Chunk>, b: seq<Chunk>, newline: string)
    ensures Text(a + b, newline) == Text(a, newline) + Text(b, newline)
    decreases |b|
  {
    if b == [] {
      assert a + b == a;
    } else {
      var b', x := b[..|b| - 1], b[|b| - 1];
      assert (a + b)[..|a + b| - 1] == a + b';
      assert (a + b)[|a + b| - 1] == x;
      TextAppend(a, b', newline);
      Reassociate(Text(a, newline), Text(b', newline), ChunkText(x, newline));
    }
  }

  /** Writing lines one by one puts the joined lines in the file. */
  lemma {:induction false} TextOfLines(lines: seq<string>, newline: string)
    ensures Text(AsLines(lines), newline) == JoinLines(lines, newline)
    decreases |lines|
  {
    if lines != [] {
      TextOfLines(lines[1..], newline);
      assert AsLines(lines) == [Line(lines[0])] + AsLines(lines[1..]);
      TextAppend([Line(lines[0])], AsLines(lines[1..]), newline);
      assert Text([Line(lines[0])], newline) == lines[0] + newline;
    }
  }

  /** The output is the directive text followed by the source, unchanged:
      cutting off the directive text gives back the source exactly. */
  lemma {:induction false} SourceIsVerbatimSuffix(info: ProjectInformation, source: string, newline: string)
    ensures var prefix := JoinLines(DirectiveLines(info), newline);
      var text := Text(Rendered(info, source), newline);
      && text == prefix + source
      && text[|prefix|..] == source
  {
    TextOfLines(DirectiveLines(info), newline);
    var chunks := Rendered(info, source);
    assert chunks[..|chunks| - 1] == AsLines(DirectiveLines(info));
  }
}
