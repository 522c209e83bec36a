// The `.dtsx` package parser: the package header, the connection-manager,
// variable and executable sections, data-flow and control-flow tasks,
// discovery of the package's configuration files, the collection of every
// environment-variable reference, and `parse_file`'s fatal errors.
module DtsxParser {
  import opened Wrappers
  import opened Strs
  import opened Xml
  import opened Fs
  import opened EnvRefs
  import opened ErrorHandling
  import ConnectionParser
  import VariableParser
  import ComponentParser
  import ConfigParser

  datatype PackageMetadata = PackageMetadata(
    executableType: string,
    creationName: string,
    creatorComputer: string,
    packageType: string,
    versionGuid: string)

  datatype TaskInfo = TaskInfo(
    name: string,
    taskType: string,
    creationName: string,
    description: string,
    taskId: string,
    properties: map<string, string>)

  datatype Package = Package(
    name: string,
    version: string,
    description: string,
    creationDate: string,
    creator: string,
    packageId: string,
    connectionManagers: seq<ConnectionParser.ConnectionInfo>,
    variables: seq<VariableParser.VariableInfo>,
    dataFlowComponents: seq<ComponentParser.ComponentInfo>,
    controlFlowTasks: seq<TaskInfo>,
    metadata: PackageMetadata,
    configurationFiles: seq<ConfigParser.ConfigFile>,
    environmentVariables: map<string, string>)

  datatype ParsingResult = ParsingResult(success: bool, package: Option<Package>, errors: seq<string>, warnings: seq<string>)

  // ---------------------------------------------------------------- header

  /** `VersionMajor.VersionMinor.VersionBuild`. */
  function Version(root: Element): string {
    DtsAttr(root, "VersionMajor") + "." + DtsAttr(root, "VersionMinor") + "." + DtsAttr(root, "VersionBuild")
  }

  /** Version parts without dots can be read back by splitting the version at its dots. */
  lemma VersionParts(root: Element)
    requires '.' !in DtsAttr(root, "VersionMajor") && '.' !in DtsAttr(root, "VersionMinor")
    requires '.' !in DtsAttr(root, "VersionBuild")
    ensures Split(Version(root), '.') == [DtsAttr(root, "VersionMajor"), DtsAttr(root, "VersionMinor"), DtsAttr(root, "VersionBuild")]
  {
    var parts := [DtsAttr(root, "VersionMajor"), DtsAttr(root, "VersionMinor"), DtsAttr(root, "VersionBuild")];
    assert Join(parts[2..], ['.']) == parts[2];
    assert Join(parts[1..], ['.']) == parts[1] + ['.'] + parts[2];
    assert Join(parts, ['.']) == Version(root);
    SplitJoin(parts, '.');
  }

  /** `_extract_package_metadata`: the header fields with every collection still empty. */
  function Header(root: Element): (p: Package)
    ensures p.version == Version(root)
    ensures p.connectionManagers == [] && p.variables == [] && p.dataFlowComponents == []
    ensures p.controlFlowTasks == [] && p.configurationFiles == [] && p.environmentVariables == map[]
  {
    Package(
      DtsAttr(root, "ObjectName"), Version(root), DtsAttr(root, "Description"),
      DtsAttr(root, "CreationDate"), DtsAttr(root, "CreatorName"), DtsAttr(root, "DTSID"),
      [], [], [], [],
      PackageMetadata(
        DtsAttr(root, "ExecutableType"), DtsAttr(root, "CreationName"), DtsAttr(root, "CreatorComputerName"),
        DtsAttr(root, "PackageType"), DtsAttr(root, "VersionGUID")),
      [], map[])
  }

  // -------------------------------------------------------------- sections

  /**
   * The items of a package section: the section is looked up as `DTS:name`,
   * else bare; its items as `DTS:item`, and if there are none, bare.
   */
  function SectionItems(root: Element, section: string, item: string): (r: seq<Element>)
    ensures FindChild(root, Dts(section)).None? && FindChild(root, section).None? ==> r == []
    ensures forall k :: 0 <= k < |r| ==> r[k].tag == Dts(item) || r[k].tag == item
  {
    match FindEither(root, Dts(section), section)
    case None => []
    case Some(s) => FindAllEither(s, Dts(item), item)
  }

  function ConnectionElements(root: Element): seq<Element> {
    SectionItems(root, "ConnectionManagers", "ConnectionManager")
  }

  function ExecutableElements(root: Element): seq<Element> {
    SectionItems(root, "Executables", "Executable")
  }

  /** The variables section is the one the variable parser reads parameters from. */
  lemma VariableSectionShared(root: Element)
    ensures SectionItems(root, "Variables", "Variable") == VariableParser.VariableElements(root)
  {
  }

  function Connections(root: Element): (r: seq<ConnectionParser.ConnectionInfo>)
    ensures |r| == |ConnectionElements(root)|
  {
    var els := ConnectionElements(root);
    seq(|els|, k requires 0 <= k < |els| => ConnectionParser.Connection(els[k]))
  }

  function Variables(root: Element): (r: seq<VariableParser.VariableInfo>)
    ensures |r| == |SectionItems(root, "Variables", "Variable")|
  {
    var els := SectionItems(root, "Variables", "Variable");
    seq(|els|, k requires 0 <= k < |els| => VariableParser.Variable(els[k]))
  }

  /** `_parse_connection_managers`: one record per item, in document order. */
  method ParseConnectionManagers(root: Element) returns (cs: seq<ConnectionParser.ConnectionInfo>)
    ensures cs == Connections(root)
  {
    var els := ConnectionElements(root);
    ghost var all := Connections(root);
    cs := [];
    var i := 0;
    while i < |els|
      invariant 0 <= i <= |els| && cs == all[..i]
    {
      var c := ConnectionParser.ParseConnectionManager(els[i]);
      PrefixSnoc(all, i, c);
      cs := cs + [c];
      i := i + 1;
    }
    assert all[..i] == all;
  }

  /** `_parse_variables`: one record per item, in document order. */
  method ParseVariables(root: Element) returns (vs: seq<VariableParser.VariableInfo>)
    ensures vs == Variables(root)
  {
    var els := SectionItems(root, "Variables", "Variable");
    ghost var all := Variables(root);
    vs := [];
    var i := 0;
    while i < |els|
      invariant 0 <= i <= |els| && vs == all[..i]
    {
      var v := VariableParser.ParseVariable(els[i]);
      PrefixSnoc(all, i, v);
      vs := vs + [v];
      i := i + 1;
    }
    assert all[..i] == all;
  }

  // ----------------------------------------------------------- executables

  const DataFlowTaskType := "Microsoft.DataFlowTask"
  const PackageTaskType := "Microsoft.PackageTask"
  const ExecuteSqlTask := "Microsoft.ExecuteSQLTask"

  function ObjectDataOf(e: Element): Option<Element> {
    FindEither(e, Dts("ObjectData"), "ObjectData")
  }

  /** The `pipeline:component` elements of a data-flow task, through `ObjectData`, `dataflow` and `components`. */
  function ComponentElements(exec: Element): seq<Element> {
    match ObjectDataOf(exec)
    case None => []
    case Some(od) =>
      match FindChild(od, ComponentParser.Pipe("dataflow"))
      case None => []
      case Some(df) =>
        match FindChild(df, ComponentParser.Pipe("components"))
        case None => []
        case Some(cs) => FindAll(cs.children, ComponentParser.Pipe("component"))
  }

  function ComponentsOf(els: seq<Element>): (r: seq<ComponentParser.ComponentInfo>)
    ensures |r| == |els|
  {
    if |els| == 0 then [] else ComponentsOf(els[..|els| - 1]) + [ComponentParser.Component(els[|els| - 1])]
  }

  function DataFlowComponents(exec: Element): (r: seq<ComponentParser.ComponentInfo>)
    ensures |r| == |ComponentElements(exec)|
  {
    ComponentsOf(ComponentElements(exec))
  }

  /** `_parse_data_flow_task`. */
  method ParseDataFlowTask(exec: Element) returns (cs: seq<ComponentParser.ComponentInfo>)
    ensures cs == DataFlowComponents(exec)
  {
    cs := ParseComponents(ComponentElements(exec));
  }

  /** The loop of `_parse_data_flow_task` over the component elements. */
  method ParseComponents(els: seq<Element>) returns (cs: seq<ComponentParser.ComponentInfo>)
    ensures cs == ComponentsOf(els)
  {
    cs := [];
    var i := 0;
    while i < |els|
      invariant 0 <= i <= |els|
      invariant cs == ComponentsOf(els[..i])
    {
      var c := ParseComponent(els[i]);
      ComponentsSnoc(els, i);
      cs := cs + [c];
      i := i + 1;
    }
    assert els[..i] == els;
  }

  lemma ComponentsSnoc(els: seq<Element>, i: nat)
    requires i < |els|
    ensures ComponentsOf(els[..i + 1]) == ComponentsOf(els[..i]) + [ComponentParser.Component(els[i])]
  {
    assert els[..i + 1][..i] == els[..i];
  }

  /** `parse_data_flow_component`, seen from the package parser. */
  method ParseComponent(e: Element) returns (c: ComponentParser.ComponentInfo)
    ensures c == ComponentParser.Component(e)
  {
    c := ComponentParser.ParseDataFlowComponent(e);
  }

  /** The `SQLTask:SqlTaskData` element of an executable's `ObjectData`, if both are there. */
  function SqlTaskData(exec: Element): Option<Element> {
    match ObjectDataOf(exec)
    case None => None
    case Some(od) => FindChild(od, Qualified(SqlTaskUri, "SqlTaskData"))
  }

  /** An attribute of the SQL task data, `SQLTask:`-namespaced first. */
  function SqlAttr(d: Element, name: string): string {
    GetNsAttr(d, SqlTaskUri, name, "")
  }

  /** A task's `properties`: the three SQL settings of an Execute SQL task, nothing otherwise. */
  function TaskProperties(exec: Element): map<string, string> {
    if DtsAttr(exec, "CreationName") == ExecuteSqlTask && SqlTaskData(exec).Some? then
      var d := SqlTaskData(exec).value;
      map["connection" := SqlAttr(d, "Connection"),
          "sql_statement" := SqlAttr(d, "SqlStatementSource"),
          "result_type" := SqlAttr(d, "ResultType")]
    else map[]
  }

  /** Properties exist exactly for Execute SQL tasks with SQL task data, and then hold exactly three keys. */
  lemma TaskPropertiesSpec(exec: Element)
    ensures TaskProperties(exec) != map[] <==> DtsAttr(exec, "CreationName") == ExecuteSqlTask && SqlTaskData(exec).Some?
    ensures TaskProperties(exec) != map[] ==> TaskProperties(exec).Keys == {"connection", "sql_statement", "result_type"}
  {
    if DtsAttr(exec, "CreationName") == ExecuteSqlTask && SqlTaskData(exec).Some? {
      assert "connection" in TaskProperties(exec);
    }
  }

  /** `_parse_control_flow_task`. */
  function ControlFlowTask(exec: Element): TaskInfo {
    TaskInfo(
      DtsAttr(exec, "ObjectName"), DtsAttr(exec, "ExecutableType"), DtsAttr(exec, "CreationName"),
      DtsAttr(exec, "Description"), DtsAttr(exec, "DTSID"), TaskProperties(exec))
  }

  /** The components a list of executables contributes: all those of each data-flow task, in order. */
  function ExecComponents(execs: seq<Element>): seq<ComponentParser.ComponentInfo> {
    if |execs| == 0 then []
    else
      ExecComponents(execs[..|execs| - 1]) + ComponentsFrom(execs[|execs| - 1])
  }

  /** A data-flow task contributes its components; any other executable none. */
  function ComponentsFrom(e: Element): seq<ComponentParser.ComponentInfo> {
    if DtsAttr(e, "ExecutableType") == DataFlowTaskType then DataFlowComponents(e) else []
  }

  /** A package task contributes one task; any other executable none. */
  function TasksFrom(e: Element): seq<TaskInfo> {
    if DtsAttr(e, "ExecutableType") == PackageTaskType then [ControlFlowTask(e)] else []
  }

  /** Control-flow tasks that a list of executables contributes: one per package task, in order. */
  function ExecTasks(execs: seq<Element>): seq<TaskInfo> {
    if |execs| == 0 then []
    else
      ExecTasks(execs[..|execs| - 1]) + TasksFrom(execs[|execs| - 1])
  }

  /** Dispatch works executable by executable, so the results of consecutive runs concatenate. */
  lemma {:induction false} ExecAppend(a: seq<Element>, b: seq<Element>)
    ensures ExecComponents(a + b) == ExecComponents(a) + ExecComponents(b)
    ensures ExecTasks(a + b) == ExecTasks(a) + ExecTasks(b)
  {
    if |b| == 0 {
      assert a + b == a;
    } else {
      var b', last := b[..|b| - 1], b[|b| - 1];
      assert (a + b)[..|a + b| - 1] == a + b';
      assert (a + b)[|a + b| - 1] == last;
      assert ExecComponents(a + b) == ExecComponents(a + b') + ComponentsFrom(last);
      assert ExecTasks(a + b) == ExecTasks(a + b') + TasksFrom(last);
      ExecAppend(a, b');
      ConcatAssoc(ExecComponents(a), ExecComponents(b'), ComponentsFrom(last));
      ConcatAssoc(ExecTasks(a), ExecTasks(b'), TasksFrom(last));
    }
  }

  /** How many of the executables have type `t`. */
  function CountType(execs: seq<Element>, t: string): nat {
    if |execs| == 0 then 0
    else CountType(execs[..|execs| - 1], t) + (if DtsAttr(execs[|execs| - 1], "ExecutableType") == t then 1 else 0)
  }

  /** Exactly one task per package task; an executable of any other type adds nothing. */
  lemma {:induction false} ExecTasksCount(execs: seq<Element>)
    ensures |ExecTasks(execs)| == CountType(execs, PackageTaskType)
    ensures CountType(execs, DataFlowTaskType) == 0 ==> ExecComponents(execs) == []
  {
    if |execs| > 0 {
      ExecTasksCount(execs[..|execs| - 1]);
    }
  }

  /** `_parse_executables`: `extend` for each data-flow task, `append` for each package task. */
  method ParseExecutables(root: Element)
    returns (components: seq<ComponentParser.ComponentInfo>, tasks: seq<TaskInfo>)
    ensures components == ExecComponents(ExecutableElements(root))
    ensures tasks == ExecTasks(ExecutableElements(root))
  {
    var execs := ExecutableElements(root);
    components, tasks := [], [];
    var i := 0;
    while i < |execs|
      invariant 0 <= i <= |execs|
      invariant components == ExecComponents(execs[..i]) && tasks == ExecTasks(execs[..i])
    {
      var e := execs[i];
      ExecSnoc(execs, i);
      var execType := DtsAttr(e, "ExecutableType");
      if execType == DataFlowTaskType {
        var cs := ParseDataFlowTask(e);
        components := components + cs;
      } else if execType == PackageTaskType {
        tasks := tasks + [ControlFlowTask(e)];
      }
      i := i + 1;
    }
    assert execs[..i] == execs;
  }

  lemma ExecSnoc(execs: seq<Element>, i: nat)
    requires i < |execs|
    ensures ExecComponents(execs[..i + 1]) == ExecComponents(execs[..i]) + ComponentsFrom(execs[i])
    ensures ExecTasks(execs[..i + 1]) == ExecTasks(execs[..i]) + TasksFrom(execs[i])
  {
    assert execs[..i + 1][..i] == execs[..i];
  }

  // ---------------------------------------------------------------- checks

  /**
   * `validate_dtsx_structure`: an existing, well-formed file whose root is
   * an executable with a type. Such a file fails `parse_file` only for its
   * suffix.
   */
  function ValidateDtsxStructure(fs: FileSystem, path: string): (ok: bool)
    ensures ok ==> Exists(fs, path) && fs.files[path].WellFormed?
    ensures ok ==> (FatalError(fs, path).None? <==> Lower(Suffix(path)) == ".dtsx")
  {
    Exists(fs, path) && fs.files[path].WellFormed?
    && EndsWith(fs.files[path].root.tag, "Executable") && DtsAttr(fs.files[path].root, "ExecutableType") != ""
  }

  /** A fatal error of `parse_file`, with the operation its context names. */
  datatype Fatal = Fatal(error: Error, operation: string)

  /** The first check `parse_file` fails, if any: existence, then the suffix, then the XML. */
  function FatalError(fs: FileSystem, path: string): (r: Option<Fatal>)
    ensures r.None? <==> Exists(fs, path) && Lower(Suffix(path)) == ".dtsx" && fs.files[path].WellFormed?
    ensures !Exists(fs, path) ==> r.Some? && r.value.error.ToolError? && r.value.error.cls == FileSystemError && r.value.error.severity == High
    ensures Exists(fs, path) && Lower(Suffix(path)) != ".dtsx" ==>
      r.Some? && r.value.error.ToolError? && r.value.error.cls == ParsingError && r.value.error.severity == Medium
    ensures Exists(fs, path) && Lower(Suffix(path)) == ".dtsx" && fs.files[path].Malformed? ==>
      r.Some? && r.value.error.ToolError? && r.value.error.cls == ParsingError && r.value.error.severity == High && r.value.operation == "parse_xml"
  {
    if !Exists(fs, path) then
      Some(Fatal(FileSystemErr("File does not exist: " + path, Some(path), High), "parse_file"))
    else if Lower(Suffix(path)) != ".dtsx" then
      Some(Fatal(ParsingErr("File is not a .dtsx file: " + path, Some(path), Medium), "parse_file"))
    else
      match fs.files[path]
      case Malformed(reason) => Some(Fatal(ParsingErr("XML parsing error: " + reason, Some(path), High), "parse_xml"))
      case WellFormed(_) => None
  }

  /** A structurally valid file with a `.dtsx` suffix passes every check of `parse_file`. */
  lemma ValidStructureParses(fs: FileSystem, path: string)
    requires ValidateDtsxStructure(fs, path) && Lower(Suffix(path)) == ".dtsx"
    ensures FatalError(fs, path).None?
  {
  }

  /** The structural check looks at content only: the suffix plays no part in it. */
  lemma StructureIgnoresSuffix(fs: FileSystem, path: string)
    requires ValidateDtsxStructure(fs, path) && Lower(Suffix(path)) != ".dtsx"
    ensures FatalError(fs, path).Some? && FatalError(fs, path).value.error == ParsingErr("File is not a .dtsx file: " + path, Some(path), Medium)
  {
  }

  // ------------------------------------------------------ configuration files

  /** The configuration files tried for a package: four fixed names in its directory, then every `*.dtsConfig` there. */
  function ConfigCandidates(fs: FileSystem, path: string): seq<string> {
    var dir := Parent(path);
    var stem := Stem(path);
    [JoinPath(dir, stem + ".dtsConfig"), JoinPath(dir, stem + ".dtsconfig"),
     JoinPath(dir, "package.dtsConfig"), JoinPath(dir, "package.dtsconfig")]
    + Glob(fs, dir, ".dtsConfig")
  }

  /**
   * The files parsed from the candidates and the set of paths already
   * parsed: a candidate is parsed if it exists and has not been parsed
   * successfully before, and kept if parsing succeeds. (Glob results exist
   * by construction, so testing existence for them changes nothing.)
   */
  function Discovered(fs: FileSystem, cands: seq<string>, decode: string -> Option<nat>, env: map<string, string>)
    : (seq<ConfigParser.ConfigFile>, set<string>)
  {
    if |cands| == 0 then ([], {})
    else
      var (files, found) := Discovered(fs, cands[..|cands| - 1], decode, env);
      Try(fs, cands[|cands| - 1], files, found, decode, env)
  }

  /** One candidate: parsed if it exists and was not parsed before, kept if parsing succeeds. */
  function Try(fs: FileSystem, p: string, files: seq<ConfigParser.ConfigFile>, found: set<string>,
               decode: string -> Option<nat>, env: map<string, string>): (seq<ConfigParser.ConfigFile>, set<string>)
  {
    if Exists(fs, p) && p !in found then
      match ConfigParser.ParseConfigFile(fs, p, decode, env)
      case Some(c) => (files + [c], found + {p})
      case None => (files, found)
    else (files, found)
  }

  /** The paths of a list of configuration files. */
  function FilePaths(files: seq<ConfigParser.ConfigFile>): (r: seq<string>)
    ensures |r| == |files|
  {
    seq(|files|, k requires 0 <= k < |files| => files[k].filePath)
  }

  predicate Distinct(xs: seq<string>) {
    forall i, j :: 0 <= i < j < |xs| ==> xs[i] != xs[j]
  }

  /**
   * The kept paths are distinct, they are exactly the recorded paths, each
   * is a candidate, and each file is what parsing its path gives.
   */
  ghost predicate ParsedOnce(fs: FileSystem, cands: seq<string>, files: seq<ConfigParser.ConfigFile>, found: set<string>,
                             decode: string -> Option<nat>, env: map<string, string>)
  {
    Distinct(FilePaths(files))
    && (forall p :: p in found <==> p in FilePaths(files))
    && (forall k :: 0 <= k < |files| ==>
          (files[k].filePath in cands
           && ConfigParser.ParseConfigFile(fs, files[k].filePath, decode, env) == Some(files[k])))
  }

  lemma TryKeepsParsedOnce(fs: FileSystem, cands: seq<string>, p: string, files: seq<ConfigParser.ConfigFile>,
                           found: set<string>, decode: string -> Option<nat>, env: map<string, string>)
    requires ParsedOnce(fs, cands, files, found, decode, env)
    ensures var (files', found') := Try(fs, p, files, found, decode, env);
      ParsedOnce(fs, cands + [p], files', found', decode, env)
  {
    var r := ConfigParser.ParseConfigFile(fs, p, decode, env);
    if Exists(fs, p) && p !in found && r.Some? {
      ParsedOnceSnoc(fs, cands, p, files, found, r.value, decode, env);
    } else {
      ParsedOnceWiden(fs, cands, p, files, found, decode, env);
    }
  }

  lemma ParsedOnceWiden(fs: FileSystem, cands: seq<string>, p: string, files: seq<ConfigParser.ConfigFile>,
                        found: set<string>, decode: string -> Option<nat>, env: map<string, string>)
    requires ParsedOnce(fs, cands, files, found, decode, env)
    ensures ParsedOnce(fs, cands + [p], files, found, decode, env)
  {
  }

  lemma ParsedOnceSnoc(fs: FileSystem, cands: seq<string>, p: string, files: seq<ConfigParser.ConfigFile>,
                       found: set<string>, c: ConfigParser.ConfigFile, decode: string -> Option<nat>,
                       env: map<string, string>)
    requires ParsedOnce(fs, cands, files, found, decode, env) && p !in found
    requires ConfigParser.ParseConfigFile(fs, p, decode, env) == Some(c) && c.filePath == p
    ensures ParsedOnce(fs, cands + [p], files + [c], found + {p}, decode, env)
  {
    var files', cands' := files + [c], cands + [p];
    assert FilePaths(files') == FilePaths(files) + [p];
    assert p !in FilePaths(files);
    forall k | 0 <= k < |files'|
      ensures files'[k].filePath in cands'
      ensures ConfigParser.ParseConfigFile(fs, files'[k].filePath, decode, env) == Some(files'[k])
    {
      if k < |files| {
        assert files'[k] == files[k];
      }
    }
  }

  /** Each configuration file is parsed into the result at most once. */
  lemma {:induction false} DiscoveredOnce(fs: FileSystem, cands: seq<string>, decode: string -> Option<nat>, env: map<string, string>)
    ensures var (files, found) := Discovered(fs, cands, decode, env);
      ParsedOnce(fs, cands, files, found, decode, env)
  {
    if |cands| > 0 {
      var front := cands[..|cands| - 1];
      DiscoveredOnce(fs, front, decode, env);
      var (files, found) := Discovered(fs, front, decode, env);
      TryKeepsParsedOnce(fs, front, cands[|cands| - 1], files, found, decode, env);
      assert front + [cands[|cands| - 1]] == cands;
    }
  }

  /** `_parse_configuration_files`, with `found_paths` holding the paths parsed successfully. */
  method ParseConfigurationFiles(fs: FileSystem, path: string, decode: string -> Option<nat>, env: map<string, string>)
    returns (files: seq<ConfigParser.ConfigFile>)
    ensures files == Discovered(fs, ConfigCandidates(fs, path), decode, env).0
  {
    var found;
    files, found := DiscoverAll(fs, ConfigCandidates(fs, path), decode, env);
  }

  /** The loop over the candidates. */
  method DiscoverAll(fs: FileSystem, cands: seq<string>, decode: string -> Option<nat>, env: map<string, string>)
    returns (files: seq<ConfigParser.ConfigFile>, found: set<string>)
    ensures (files, found) == Discovered(fs, cands, decode, env)
  {
    files, found := [], {};
    var i := 0;
    while i < |cands|
      invariant 0 <= i <= |cands|
      invariant (files, found) == Discovered(fs, cands[..i], decode, env)
    {
      assert cands[..i + 1][..i] == cands[..i];
      files, found := TryCandidate(fs, cands[i], files, found, decode, env);
      i := i + 1;
    }
    assert cands[..i] == cands;
  }

  /** The body of the loop over the candidates. */
  method TryCandidate(fs: FileSystem, p: string, files0: seq<ConfigParser.ConfigFile>, found0: set<string>,
                      decode: string -> Option<nat>, env: map<string, string>)
    returns (files: seq<ConfigParser.ConfigFile>, found: set<string>)
    ensures (files, found) == Try(fs, p, files0, found0, decode, env)
  {
    files, found := files0, found0;
    if Exists(fs, p) && p !in found {
      var c := ConfigParser.ParseConfigFile(fs, p, decode, env);
      if c.Some? {
        files := files + [c.value];
        found := found + {p};
      }
    }
  }

  // ----------------------------------------------------- environment references

  /** The names referred to by a list of texts. */
  function TextRefs(texts: seq<string>): set<string> {
    ConfigParser.Union(seq(|texts|, i requires 0 <= i < |texts| => FindEnvironmentVariables(texts[i])))
  }

  lemma TextRefsSnoc(texts: seq<string>, i: nat)
    requires i < |texts|
    ensures TextRefs(texts[..i + 1]) == TextRefs(texts[..i]) + FindEnvironmentVariables(texts[i])
  {
    var xs := seq(i + 1, k requires 0 <= k < i + 1 => FindEnvironmentVariables(texts[..i + 1][k]));
    assert xs[..i] == seq(i, k requires 0 <= k < i => FindEnvironmentVariables(texts[..i][k]));
  }

  /** The names referred to by the values of a set of texts. */
  function ValueRefs(vals: set<string>): set<string> {
    set v, n | v in vals && n in FindEnvironmentVariables(v) :: n
  }

  /** The names that task properties refer to. */
  function TaskRefs(tasks: seq<TaskInfo>): set<string> {
    ConfigParser.Union(seq(|tasks|, i requires 0 <= i < |tasks| => ValueRefs(tasks[i].properties.Values)))
  }

  lemma TaskRefsSnoc(tasks: seq<TaskInfo>, i: nat)
    requires i < |tasks|
    ensures TaskRefs(tasks[..i + 1]) == TaskRefs(tasks[..i]) + ValueRefs(tasks[i].properties.Values)
  {
    var xs := seq(i + 1, k requires 0 <= k < i + 1 => ValueRefs(tasks[..i + 1][k].properties.Values));
    assert xs[..i] == seq(i, k requires 0 <= k < i => ValueRefs(tasks[..i][k].properties.Values));
  }

  function ConnectionStrings(pkg: Package): (r: seq<string>)
    ensures |r| == |pkg.connectionManagers|
  {
    seq(|pkg.connectionManagers|, k requires 0 <= k < |pkg.connectionManagers| => pkg.connectionManagers[k].connectionString)
  }

  function VariableValues(pkg: Package): (r: seq<string>)
    ensures |r| == |pkg.variables|
  {
    seq(|pkg.variables|, k requires 0 <= k < |pkg.variables| => pkg.variables[k].value)
  }

  /** Every name referred to by a connection string, a variable value or a task property. */
  function PackageRefs(pkg: Package): set<string> {
    TextRefs(ConnectionStrings(pkg)) + TextRefs(VariableValues(pkg)) + TaskRefs(pkg.controlFlowTasks)
  }

  /**
   * The table `_extract_all_environment_variables` builds: the merged
   * tables of the configuration files, then every referred name with its
   * value in the environment, `''` if unset.
   */
  function PackageEnvironment(pkg: Package, env: map<string, string>): map<string, string> {
    ConfigParser.MergedEnvironment(pkg.configurationFiles)
      + map n | n in PackageRefs(pkg) :: ConfigParser.EnvGet(env, n)
  }

  /** The result of adding the names `refs` to the table `base`: keys and values. */
  ghost predicate Extends(m: map<string, string>, base: map<string, string>, refs: set<string>, env: map<string, string>) {
    (forall n :: n in m <==> n in base || n in refs)
    && forall n :: n in m ==> m[n] == (if n in refs then ConfigParser.EnvGet(env, n) else base[n])
  }

  /** The inner loops over the texts of one kind of record. */
  method AddTextRefs(m: map<string, string>, texts: seq<string>, env: map<string, string>)
    returns (r: map<string, string>)
    ensures Extends(r, m, TextRefs(texts), env)
  {
    r := m;
    var i := 0;
    while i < |texts|
      invariant 0 <= i <= |texts|
      invariant Extends(r, m, TextRefs(texts[..i]), env)
    {
      TextRefsSnoc(texts, i);
      r := ConfigParser.SetFromEnvironment(r, FindEnvironmentVariables(texts[i]), env);
      i := i + 1;
    }
    assert texts[..i] == texts;
  }

  /** `for prop_value in task_props.values()`, in the dictionary's own order. */
  method AddValueRefs(m: map<string, string>, vals: set<string>, env: map<string, string>)
    returns (r: map<string, string>)
    ensures Extends(r, m, ValueRefs(vals), env)
  {
    r := m;
    var rest := vals;
    while rest != {}
      invariant rest <= vals
      invariant Extends(r, m, ValueRefs(vals - rest), env)
      decreases |rest|
    {
      var v :| v in rest;
      assert ValueRefs(vals - (rest - {v})) == ValueRefs(vals - rest) + FindEnvironmentVariables(v);
      r := ConfigParser.SetFromEnvironment(r, FindEnvironmentVariables(v), env);
      rest := rest - {v};
    }
  }

  /** Extending by `r1` and then by `r2` extends by both. */
  lemma ExtendsTrans(m2: map<string, string>, m1: map<string, string>, base: map<string, string>,
                     r1: set<string>, r2: set<string>, env: map<string, string>)
    requires Extends(m1, base, r1, env) && Extends(m2, m1, r2, env)
    ensures Extends(m2, base, r1 + r2, env)
  {
  }

  /** The loop over the control-flow tasks. */
  method AddTaskRefs(m: map<string, string>, tasks: seq<TaskInfo>, env: map<string, string>)
    returns (r: map<string, string>)
    ensures Extends(r, m, TaskRefs(tasks), env)
  {
    r := m;
    var i := 0;
    assert TaskRefs(tasks[..0]) == {};
    while i < |tasks|
      invariant 0 <= i <= |tasks|
      invariant Extends(r, m, TaskRefs(tasks[..i]), env)
    {
      TaskRefsSnoc(tasks, i);
      ghost var r0 := r;
      r := AddValueRefs(r, tasks[i].properties.Values, env);
      ExtendsTrans(r, r0, m, TaskRefs(tasks[..i]), ValueRefs(tasks[i].properties.Values), env);
      i := i + 1;
    }
    assert tasks[..i] == tasks;
  }

  /** A table that extends `base` by `refs` is `base` updated with the environment table of `refs`. */
  lemma ExtendsIsUpdate(m: map<string, string>, base: map<string, string>, refs: set<string>, env: map<string, string>)
    requires Extends(m, base, refs, env)
    ensures m == base + map n | n in refs :: ConfigParser.EnvGet(env, n)
  {
  }

  /** `_extract_all_environment_variables` with the table it builds returned. */
  method ExtractAllEnvironmentVariables(pkg: Package, env: map<string, string>) returns (m: map<string, string>)
    ensures m == PackageEnvironment(pkg, env)
  {
    var base := ConfigParser.MergeEnvironments(pkg.configurationFiles);
    var m1 := AddTextRefs(base, ConnectionStrings(pkg), env);
    var m2 := AddTextRefs(m1, VariableValues(pkg), env);
    ExtendsTrans(m2, m1, base, TextRefs(ConnectionStrings(pkg)), TextRefs(VariableValues(pkg)), env);
    m := AddTaskRefs(m2, pkg.controlFlowTasks, env);
    ExtendsTrans(m, m2, base, TextRefs(ConnectionStrings(pkg)) + TextRefs(VariableValues(pkg)),
                 TaskRefs(pkg.controlFlowTasks), env);
    ExtendsIsUpdate(m, base, PackageRefs(pkg), env);
  }

  /**
   * `_extract_all_environment_variables` as written: it builds the table
   * but ends without a `return`, so the caller stores None.
   */
  method ExtractAllEnvironmentVariablesAsWritten(pkg: Package, env: map<string, string>)
    returns (r: Option<map<string, string>>)
    ensures r.None?
  {
    var m := ExtractAllEnvironmentVariables(pkg, env);
    r := None;
  }

  /** Every referred name is in the corrected table with its environment value; the rest come from the files. */
  lemma ReferencedNamesKept(pkg: Package, env: map<string, string>, n: string)
    ensures n in PackageRefs(pkg) ==>
      (n in PackageEnvironment(pkg, env) && PackageEnvironment(pkg, env)[n] == ConfigParser.EnvGet(env, n))
    ensures n !in PackageRefs(pkg) && n in ConfigParser.MergedEnvironment(pkg.configurationFiles) ==>
      (n in PackageEnvironment(pkg, env)
       && PackageEnvironment(pkg, env)[n] == ConfigParser.MergedEnvironment(pkg.configurationFiles)[n])
    ensures n in PackageEnvironment(pkg, env) ==> n in PackageRefs(pkg) || n in ConfigParser.MergedEnvironment(pkg.configurationFiles)
  {
  }

  lemma TextRefsMember(texts: seq<string>, k: nat, n: string)
    requires k < |texts| && n in FindEnvironmentVariables(texts[k])
    ensures n in TextRefs(texts)
  {
    var xs := seq(|texts|, i requires 0 <= i < |texts| => FindEnvironmentVariables(texts[i]));
    assert n in xs[k];
    ConfigParser.UnionSpec(xs, n);
  }

  lemma TaskRefsMember(tasks: seq<TaskInfo>, k: nat, v: string, n: string)
    requires k < |tasks| && v in tasks[k].properties.Values && n in FindEnvironmentVariables(v)
    ensures n in TaskRefs(tasks)
  {
    var xs := seq(|tasks|, i requires 0 <= i < |tasks| => ValueRefs(tasks[i].properties.Values));
    assert n in xs[k];
    ConfigParser.UnionSpec(xs, n);
  }

  /** Every name a connection string, a variable value or a task property refers to is collected. */
  lemma RefsCollected(pkg: Package, n: string)
    ensures (exists k :: 0 <= k < |pkg.connectionManagers|
               && n in FindEnvironmentVariables(pkg.connectionManagers[k].connectionString)) ==> n in PackageRefs(pkg)
    ensures (exists k :: 0 <= k < |pkg.variables| && n in FindEnvironmentVariables(pkg.variables[k].value)) ==>
      n in PackageRefs(pkg)
    ensures (exists k, v :: 0 <= k < |pkg.controlFlowTasks| && v in pkg.controlFlowTasks[k].properties.Values
               && n in FindEnvironmentVariables(v)) ==> n in PackageRefs(pkg)
  {
    if k :| 0 <= k < |pkg.connectionManagers| && n in FindEnvironmentVariables(pkg.connectionManagers[k].connectionString) {
      TextRefsMember(ConnectionStrings(pkg), k, n);
    }
    if k :| 0 <= k < |pkg.variables| && n in FindEnvironmentVariables(pkg.variables[k].value) {
      TextRefsMember(VariableValues(pkg), k, n);
    }
    if k, v :| 0 <= k < |pkg.controlFlowTasks| && v in pkg.controlFlowTasks[k].properties.Values
               && n in FindEnvironmentVariables(v) {
      TaskRefsMember(pkg.controlFlowTasks, k, v, n);
    }
  }

  // ------------------------------------------------------------ parse_file

  /** The package `parse_file` assembles from a well-formed document. */
  function PackageOf(fs: FileSystem, path: string, root: Element, decode: string -> Option<nat>, env: map<string, string>)
    : (p: Package)
    ensures p.connectionManagers == Connections(root) && p.variables == Variables(root)
    ensures p.dataFlowComponents == ExecComponents(ExecutableElements(root))
    ensures p.controlFlowTasks == ExecTasks(ExecutableElements(root))
    ensures p.configurationFiles == Discovered(fs, ConfigCandidates(fs, path), decode, env).0
    ensures p.environmentVariables == PackageEnvironment(p, env)
  {
    var p := Header(root).(
      connectionManagers := Connections(root),
      variables := Variables(root),
      dataFlowComponents := ExecComponents(ExecutableElements(root)),
      controlFlowTasks := ExecTasks(ExecutableElements(root)),
      configurationFiles := Discovered(fs, ConfigCandidates(fs, path), decode, env).0);
    EnvironmentIgnored(p, PackageEnvironment(p, env), env);
    p.(environmentVariables := PackageEnvironment(p, env))
  }

  /** The table a package's environment is built from does not depend on its current table. */
  lemma EnvironmentIgnored(p: Package, e: map<string, string>, env: map<string, string>)
    ensures PackageEnvironment(p.(environmentVariables := e), env) == PackageEnvironment(p, env)
  {
    assert PackageRefs(p.(environmentVariables := e)) == PackageRefs(p);
  }

  /** The context `parse_file` records with a fatal error. */
  function FatalContext(path: string, operation: string): ErrorContext {
    CreateErrorContext(filePath := Some(path), component := Some("DTSXParser"), operation := Some(operation))
  }

  /**
   * `parse_file`: the first failed check records exactly one report and
   * returns failure with that error's message and no package; otherwise the
   * package is assembled section by section and nothing is recorded.
   */
  method ParseFile(h: ErrorHandler, fs: FileSystem, path: string, decode: string -> Option<nat>,
                   env: map<string, string>, now: Stamp) returns (r: ParsingResult)
    requires h.Valid()
    modifies h
    ensures h.Valid()
    ensures FatalError(fs, path).Some? ==>
      var f := FatalError(fs, path).value;
      r == ParsingResult(false, None, [Message(f.error)], [])
      && h.reports == old(h.reports)
         + [BuildReport(f.error, Some(FatalContext(path, f.operation)), None, None, [], None, now, old(h.errorCount))]
    ensures FatalError(fs, path).None? ==>
      r == ParsingResult(true, Some(PackageOf(fs, path, fs.files[path].root, decode, env)), [], [])
      && h.reports == old(h.reports) && h.errorCount == old(h.errorCount)
  {
    var fatal := FatalError(fs, path);
    if fatal.Some? {
      r := ReportFatal(h, path, fatal.value, now);
      return;
    }
    var package := AssemblePackage(fs, path, decode, env);
    r := ParsingResult(true, Some(package), [], []);
  }

  /** The `except` branches of `parse_file`: one report, failure, no package. */
  method ReportFatal(h: ErrorHandler, path: string, f: Fatal, now: Stamp) returns (r: ParsingResult)
    requires h.Valid()
    modifies h
    ensures h.Valid()
    ensures r == ParsingResult(false, None, [Message(f.error)], [])
      && h.reports == old(h.reports)
         + [BuildReport(f.error, Some(FatalContext(path, f.operation)), None, None, [], None, now, old(h.errorCount))]
  {
    var report := h.HandleError(f.error, Some(FatalContext(path, f.operation)), None, None, [], None, now);
    r := ParsingResult(false, None, [Message(f.error)], []);
  }

  /** The successful path of `parse_file`: the package assembled section by section. */
  method AssemblePackage(fs: FileSystem, path: string, decode: string -> Option<nat>, env: map<string, string>)
    returns (package: Package)
    requires FatalError(fs, path).None?
    ensures package == PackageOf(fs, path, fs.files[path].root, decode, env)
  {
    var root := fs.files[path].root;
    package := Header(root);
    var connections := ParseConnectionManagers(root);
    var variables := ParseVariables(root);
    var components, tasks := ParseExecutables(root);
    package := package.(connectionManagers := connections, variables := variables,
                        dataFlowComponents := components, controlFlowTasks := tasks);
    var configs := ParseConfigurationFiles(fs, path, decode, env);
    package := package.(configurationFiles := configs);
    var envVars := ExtractAllEnvironmentVariables(package, env);
    package := package.(environmentVariables := envVars);
  }
}
