// The script generator: turns a parsed package into the main ETL script,
// one script per data-flow component and per control-flow task, a
// configuration module and a requirements file. The package's connection
// managers, variables, components and tasks are dictionaries read with
// `.get(key, default)`; a value that is not a string makes `.lower()` raise,
// which drops that one script or, in the import collection, the whole run.
module PythonGenerator {
  import opened Wrappers
  import opened Strs
  import opened SortedSets
  import opened ErrorHandling

  // ---------------------------------------------------------------- values

  /** A dictionary value: a string, or any other value, known by its type name and its `str()`. */
  datatype Value = Text(s: string) | Other(typeName: string, text: string)

  type Dict = map<string, Value>

  const NoneValue: Value := Other("NoneType", "None")

  function IntValue(n: nat): Value {
    Other("int", NatToString(n))
  }

  /** `d.get(key, default)` with a string default. */
  function Get(d: Dict, key: string, default: string): Value {
    if key in d then d[key] else Text(default)
  }

  /** `d.get(key)`: `None` for a missing key. */
  function Lookup(d: Dict, key: string): Value {
    if key in d then d[key] else NoneValue
  }

  /** `str(v)`, as an f-string shows it. */
  function Show(v: Value): string {
    match v
    case Text(s) => s
    case Other(_, t) => t
  }

  /** The message of the `AttributeError` that `.lower()` raises on a non-string. */
  function NoLower(typeName: string): string {
    "'" + typeName + "' object has no attribute 'lower'"
  }

  /** `v.lower()`, defined on strings only. */
  function LowerOf(v: Value): Result<string, string> {
    match v
    case Text(s) => Ok(Lower(s))
    case Other(t, _) => Failure(NoLower(t))
  }

  /** `s.lower().replace(' ', '_')`, the stem of most script names. */
  function Stem(s: string): (r: string)
    ensures |r| == |s| && ' ' !in r && Lower(r) == r
  {
    var r := ReplaceChar(Lower(s), ' ', '_');
    assert forall k :: 0 <= k < |r| ==> LowerChar(r[k]) == r[k];
    r
  }

  // --------------------------------------------------------------- records

  datatype Package = Package(
    name: string,
    version: string,
    description: string,
    creationDate: string,
    creator: string,
    connectionManagers: seq<Dict>,
    variables: seq<Dict>,
    dataFlowComponents: seq<Dict>,
    controlFlowTasks: seq<Dict>,
    environmentVariables: seq<(string, string)>)

  datatype PythonScript = PythonScript(
    name: string,
    content: string,
    dependencies: seq<string>,
    imports: seq<string>,
    functions: seq<string>,
    metadata: map<string, Value>)

  datatype GenerationResult = GenerationResult(
    success: bool,
    scripts: seq<PythonScript>,
    errors: seq<string>,
    warnings: seq<string>)

  // -------------------------------------------------------------- keywords

  /** The entry of the first keyword that occurs in `t`, or `otherwise`: an `if`/`elif` chain of `in` tests. */
  function FirstMatch<K>(t: string, table: seq<(string, K)>, otherwise: K): K
    decreases |table|
  {
    if |table| == 0 then otherwise
    else if Contains(t, table[0].0) then table[0].1
    else FirstMatch(t, table[1..], otherwise)
  }

  /** The first match is an entry whose keyword occurs, after entries whose keywords do not. */
  lemma {:induction false} FirstMatchSpec<K>(t: string, table: seq<(string, K)>, otherwise: K)
    ensures var r := FirstMatch(t, table, otherwise);
      (forall i :: 0 <= i < |table| ==> !Contains(t, table[i].0)) ==> r == otherwise
    ensures forall j :: (0 <= j < |table| && Contains(t, table[j].0) &&
                         (forall i :: 0 <= i < j ==> !Contains(t, table[i].0))) ==>
      FirstMatch(t, table, otherwise) == table[j].1
    decreases |table|
  {
    if |table| > 0 {
      FirstMatchSpec(t, table[1..], otherwise);
      forall j | 0 < j < |table| && Contains(t, table[j].0) && (forall i :: 0 <= i < j ==> !Contains(t, table[i].0))
        ensures FirstMatch(t, table, otherwise) == table[j].1
      {
        assert !Contains(t, table[0].0);
        assert table[1..][j - 1] == table[j];
        assert forall i :: 0 <= i < j - 1 ==> table[1..][i] == table[i + 1];
      }
    }
  }

  // ----------------------------------------------------- imports and deps

  const StandardDependencies: seq<string> := [
    "pandas", "sqlalchemy", "psycopg2-binary", "pymssql", "pymysql", "cx_Oracle", "pyodbc",
    "configparser", "logging", "datetime", "pathlib", "json", "xml.etree.ElementTree"]

  const BaseImports: seq<string> := ["pandas", "sqlalchemy", "configparser", "logging", "datetime", "traceback"]

  /** The driver a connection type brings in. */
  function ConnectionImports(t: string): seq<string> {
    if Contains(t, "sqlserver") || Contains(t, "mssql") then ["pymssql"]
    else if Contains(t, "postgresql") || Contains(t, "postgres") then ["psycopg2"]
    else if Contains(t, "mysql") then ["pymysql"]
    else if Contains(t, "oracle") then ["cx_Oracle"]
    else if Contains(t, "odbc") then ["pyodbc"]
    else []
  }

  const ConnectionImportTable: seq<(string, seq<string>)> := [
    ("sqlserver", ["pymssql"]), ("mssql", ["pymssql"]), ("postgresql", ["psycopg2"]),
    ("postgres", ["psycopg2"]), ("mysql", ["pymysql"]), ("oracle", ["cx_Oracle"]), ("odbc", ["pyodbc"])]

  /** The modules a component type brings in. */
  function ComponentImports(t: string): seq<string> {
    if Contains(t, "file") then ["csv", "json", "xml.etree.ElementTree"]
    else if Contains(t, "transform") then ["numpy"]
    else []
  }

  const ComponentImportTable: seq<(string, seq<string>)> := [
    ("file", ["csv", "json", "xml.etree.ElementTree"]), ("transform", ["numpy"])]

  /** The packages a component type brings in. */
  function ComponentDependencies(t: string): seq<string> {
    if Contains(t, "file") then ["openpyxl", "xlrd"]
    else if Contains(t, "api") then ["requests"]
    else if Contains(t, "ftp") then ["ftplib"]
    else []
  }

  const ComponentDependencyTable: seq<(string, seq<string>)> := [
    ("file", ["openpyxl", "xlrd"]), ("api", ["requests"]), ("ftp", ["ftplib"])]

  /** Each `elif` chain picks the entry of the first keyword, in the order of its table, that the type contains. */
  lemma ChainsAreFirstMatches(t: string)
    ensures ConnectionImports(t) == FirstMatch(t, ConnectionImportTable, [])
    ensures ComponentImports(t) == FirstMatch(t, ComponentImportTable, [])
    ensures ComponentDependencies(t) == FirstMatch(t, ComponentDependencyTable, [])
  {
    var c := ConnectionImportTable;
    assert c[1..][1..][1..][1..][1..][1..][1..] == [];
    var i := ComponentImportTable;
    assert i[1..][1..] == [];
    var d := ComponentDependencyTable;
    assert d[1..][1..][1..] == [];
  }

  /** What dictionary `d` contributes through `f` of its lower-cased `key`. */
  function Contributed(d: Dict, key: string, f: string -> seq<string>): seq<string> {
    match Get(d, key, "")
    case Text(s) => f(Lower(s))
    case Other(_, _) => []
  }

  /** The loop `for d in ds: t = d.get(key, '').lower(); out += f(t)`; the first non-string raises. */
  function GatherLowered(ds: seq<Dict>, key: string, f: string -> seq<string>): Result<seq<string>, string>
    decreases |ds|
  {
    if |ds| == 0 then Ok([])
    else
      match GatherLowered(ds[..|ds| - 1], key, f)
      case Failure(e) => Failure(e)
      case Ok(acc) =>
        match LowerOf(Get(ds[|ds| - 1], key, ""))
        case Failure(e) => Failure(e)
        case Ok(t) => Ok(acc + f(t))
  }

  /** Every dictionary's `key`, or its default, is a string. */
  predicate TextKey(ds: seq<Dict>, key: string) {
    forall i :: 0 <= i < |ds| ==> Get(ds[i], key, "").Text?
  }

  /** The gathering succeeds exactly when every value is a string, and then holds what each contributes. */
  lemma {:induction false} GatherSpec(ds: seq<Dict>, key: string, f: string -> seq<string>)
    ensures GatherLowered(ds, key, f).Ok? <==> TextKey(ds, key)
    ensures GatherLowered(ds, key, f).Ok? ==> forall x ::
      x in GatherLowered(ds, key, f).value <==> exists i :: 0 <= i < |ds| && x in Contributed(ds[i], key, f)
    decreases |ds|
  {
    if |ds| > 0 {
      var n := |ds| - 1;
      var p := ds[..n];
      GatherSpec(p, key, f);
      GatherStep(ds, key, f);
      assert forall i :: 0 <= i < n ==> p[i] == ds[i];
      if GatherLowered(ds, key, f).Ok? {
        var acc := GatherLowered(p, key, f).value;
        forall x | x in GatherLowered(ds, key, f).value
          ensures exists i :: 0 <= i < |ds| && x in Contributed(ds[i], key, f)
        {
          if x !in Contributed(ds[n], key, f) {
            var i :| 0 <= i < n && x in Contributed(p[i], key, f);
            assert x in Contributed(ds[i], key, f);
          }
        }
        forall x | exists i :: 0 <= i < |ds| && x in Contributed(ds[i], key, f)
          ensures x in GatherLowered(ds, key, f).value
        {
          var i :| 0 <= i < |ds| && x in Contributed(ds[i], key, f);
          if i < n {
            assert x in Contributed(p[i], key, f);
          }
        }
      }
    }
  }

  /** One more dictionary: the gathering goes on exactly when its value is a string, and adds what it contributes. */
  lemma GatherStep(ds: seq<Dict>, key: string, f: string -> seq<string>)
    requires |ds| > 0
    ensures var n := |ds| - 1;
      (GatherLowered(ds, key, f).Ok? <==> GatherLowered(ds[..n], key, f).Ok? && Get(ds[n], key, "").Text?)
      && (TextKey(ds, key) <==> TextKey(ds[..n], key) && Get(ds[n], key, "").Text?)
      && (GatherLowered(ds, key, f).Ok? ==>
            GatherLowered(ds, key, f).value == GatherLowered(ds[..n], key, f).value + Contributed(ds[n], key, f))
  {
    var n := |ds| - 1;
    assert forall i :: 0 <= i < n ==> ds[..n][i] == ds[i];
  }

  /** A failed gathering reports the first dictionary whose value is not a string. */
  lemma {:induction false} GatherFirstFailure(ds: seq<Dict>, key: string, f: string -> seq<string>)
    requires GatherLowered(ds, key, f).Failure?
    ensures exists i :: (0 <= i < |ds| && TextKey(ds[..i], key) && Get(ds[i], key, "").Other? &&
                         GatherLowered(ds, key, f).error == NoLower(Get(ds[i], key, "").typeName))
    decreases |ds|
  {
    var n := |ds| - 1;
    var p := ds[..n];
    if GatherLowered(p, key, f).Failure? {
      GatherFirstFailure(p, key, f);
      var i :| 0 <= i < |p| && TextKey(p[..i], key) && Get(p[i], key, "").Other? &&
        GatherLowered(p, key, f).error == NoLower(Get(p[i], key, "").typeName);
      assert p[..i] == ds[..i];
      assert p[i] == ds[i];
    } else {
      GatherSpec(p, key, f);
      assert p == ds[..n];
    }
  }

  /** `_collect_imports`: sorted, without duplicates, always holding the six base modules. */
  function ImportsOf(pkg: Package): (r: Result<seq<string>, string>)
    ensures r.Ok? ==> StrictlySorted(r.value) && forall x :: x in BaseImports ==> x in r.value
  {
    match GatherLowered(pkg.connectionManagers, "connection_type", ConnectionImports)
    case Failure(e) => Failure(e)
    case Ok(a) =>
      match GatherLowered(pkg.dataFlowComponents, "component_type", ComponentImports)
      case Failure(e) => Failure(e)
      case Ok(b) => Ok(SortedSet(BaseImports + a + b))
  }

  /** `_collect_dependencies`: sorted, without duplicates, a superset of the standard dependencies. */
  function DependenciesOf(pkg: Package): (r: Result<seq<string>, string>)
    ensures r.Ok? ==> StrictlySorted(r.value) && forall x :: x in StandardDependencies ==> x in r.value
  {
    match GatherLowered(pkg.dataFlowComponents, "component_type", ComponentDependencies)
    case Failure(e) => Failure(e)
    case Ok(b) => Ok(SortedSet(StandardDependencies + b))
  }

  /** Imports fail exactly on a non-string connection or component type, and otherwise hold exactly the
      base modules and what each connection and component contributes. */
  lemma ImportsSpec(pkg: Package)
    ensures ImportsOf(pkg).Ok? <==>
      TextKey(pkg.connectionManagers, "connection_type") && TextKey(pkg.dataFlowComponents, "component_type")
    ensures ImportsOf(pkg).Ok? ==> forall x :: x in ImportsOf(pkg).value <==>
      x in BaseImports
      || (exists i :: 0 <= i < |pkg.connectionManagers| &&
            x in Contributed(pkg.connectionManagers[i], "connection_type", ConnectionImports))
      || (exists j :: 0 <= j < |pkg.dataFlowComponents| &&
            x in Contributed(pkg.dataFlowComponents[j], "component_type", ComponentImports))
  {
    GatherSpec(pkg.connectionManagers, "connection_type", ConnectionImports);
    GatherSpec(pkg.dataFlowComponents, "component_type", ComponentImports);
  }

  /** Dependencies fail exactly on a non-string component type, and otherwise hold exactly the standard
      ones and what each component contributes. */
  lemma DependenciesSpec(pkg: Package)
    ensures DependenciesOf(pkg).Ok? <==> TextKey(pkg.dataFlowComponents, "component_type")
    ensures DependenciesOf(pkg).Ok? ==> forall x :: x in DependenciesOf(pkg).value <==>
      x in StandardDependencies
      || (exists j :: 0 <= j < |pkg.dataFlowComponents| &&
            x in Contributed(pkg.dataFlowComponents[j], "component_type", ComponentDependencies))
  {
    GatherSpec(pkg.dataFlowComponents, "component_type", ComponentDependencies);
  }

  /** A file component brings in the Excel readers. */
  lemma FileComponentNeedsExcel(pkg: Package, j: nat)
    requires j < |pkg.dataFlowComponents| && DependenciesOf(pkg).Ok?
    requires var v := Get(pkg.dataFlowComponents[j], "component_type", ""); v.Text? && Contains(Lower(v.s), "file")
    ensures "openpyxl" in DependenciesOf(pkg).value && "xlrd" in DependenciesOf(pkg).value
  {
    DependenciesSpec(pkg);
    assert "openpyxl" in Contributed(pkg.dataFlowComponents[j], "component_type", ComponentDependencies);
    assert "xlrd" in Contributed(pkg.dataFlowComponents[j], "component_type", ComponentDependencies);
  }

  /** Whenever the imports can be collected, so can the dependencies. */
  lemma DependenciesFollowImports(pkg: Package)
    ensures ImportsOf(pkg).Ok? ==> DependenciesOf(pkg).Ok?
  {
    ImportsSpec(pkg);
    DependenciesSpec(pkg);
  }

  /** The loop of `GatherLowered`. */
  method CollectLowered(ds: seq<Dict>, key: string, f: string -> seq<string>) returns (r: Result<seq<string>, string>)
    ensures r == GatherLowered(ds, key, f)
  {
    var acc: seq<string> := [];
    var i := 0;
    while i < |ds|
      invariant 0 <= i <= |ds|
      invariant GatherLowered(ds[..i], key, f) == Ok(acc)
    {
      assert ds[..i + 1][..i] == ds[..i];
      var t := LowerOf(Get(ds[i], key, ""));
      if t.Failure? {
        assert GatherLowered(ds[..i + 1], key, f) == Failure(t.error);
        FailureStays(ds, key, f, i + 1);
        return Failure(t.error);
      }
      acc := acc + f(t.value);
      i := i + 1;
    }
    assert ds[..i] == ds;
    r := Ok(acc);
  }

  /** A failure in a prefix is the failure of the whole gathering. */
  lemma {:induction false} FailureStays(ds: seq<Dict>, key: string, f: string -> seq<string>, n: nat)
    requires n <= |ds| && GatherLowered(ds[..n], key, f).Failure?
    ensures GatherLowered(ds, key, f) == GatherLowered(ds[..n], key, f)
    decreases |ds| - n
  {
    if n < |ds| {
      assert ds[..n + 1][..n] == ds[..n];
      FailureStays(ds, key, f, n + 1);
    } else {
      assert ds[..n] == ds;
    }
  }

  method CollectImports(pkg: Package) returns (r: Result<seq<string>, string>)
    ensures r == ImportsOf(pkg)
  {
    var a := CollectLowered(pkg.connectionManagers, "connection_type", ConnectionImports);
    if a.Failure? {
      return Failure(a.error);
    }
    var b := CollectLowered(pkg.dataFlowComponents, "component_type", ComponentImports);
    if b.Failure? {
      return Failure(b.error);
    }
    r := Ok(SortedSet(BaseImports + a.value + b.value));
  }

  method CollectDependencies(pkg: Package) returns (r: Result<seq<string>, string>)
    ensures r == DependenciesOf(pkg)
  {
    var b := CollectLowered(pkg.dataFlowComponents, "component_type", ComponentDependencies);
    if b.Failure? {
      return Failure(b.error);
    }
    r := Ok(SortedSet(StandardDependencies + b.value));
  }

  // ------------------------------------------------------ execution steps

  /** One line per entry, built from the entry and its position. */
  function Enumerated(ds: seq<Dict>, line: (Dict, nat) -> string): (r: seq<string>)
    ensures |r| == |ds| && forall k :: 0 <= k < |ds| ==> r[k] == line(ds[k], k)
  {
    seq(|ds|, k requires 0 <= k < |ds| => line(ds[k], k))
  }

  function FlowStep(c: Dict, i: nat): string {
    "        process_data_flow_" + Show(Get(c, "component_id", "component_" + NatToString(i))) + "(None, None, config)"
  }

  function TaskStep(t: Dict, i: nat): string {
    "        execute_task_" + Show(Get(t, "task_id", "task_" + NatToString(i))) + "(config)"
  }

  const ControlFlowStep := "        execute_control_flow(config)"

  function StepLines(pkg: Package): seq<string> {
    Enumerated(pkg.dataFlowComponents, FlowStep) + Enumerated(pkg.controlFlowTasks, TaskStep)
    + (if |pkg.controlFlowTasks| > 0 then [ControlFlowStep] else [])
  }

  /** `_generate_main_execution_steps`. */
  function MainExecutionSteps(pkg: Package): string {
    Join(StepLines(pkg), "\n")
  }

  /** One step per component, then one per task, then the control-flow call exactly when there are tasks. */
  lemma StepsSpec(pkg: Package)
    ensures var s := StepLines(pkg); var n := |pkg.dataFlowComponents|; var m := |pkg.controlFlowTasks|;
      |s| == n + m + (if m > 0 then 1 else 0)
      && (forall i :: 0 <= i < n ==> s[i] == FlowStep(pkg.dataFlowComponents[i], i))
      && (forall j :: 0 <= j < m ==> s[n + j] == TaskStep(pkg.controlFlowTasks[j], j))
      && (ControlFlowStep in s <==> m > 0)
  {
    var s := StepLines(pkg);
    var n := |pkg.dataFlowComponents|;
    var m := |pkg.controlFlowTasks|;
    if m == 0 {
      forall k | 0 <= k < |s| ensures s[k] != ControlFlowStep {
        assert s[k] == FlowStep(pkg.dataFlowComponents[k], k);
        assert s[k][8] == 'p' && ControlFlowStep[8] == 'e';
      }
    } else {
      assert s[n + m] == ControlFlowStep;
    }
  }

  /** Appends `line` of each entry to `lines0`. */
  method AppendEnumerated(lines0: seq<string>, ds: seq<Dict>, line: (Dict, nat) -> string) returns (lines: seq<string>)
    ensures lines == lines0 + Enumerated(ds, line)
  {
    lines := lines0;
    var i := 0;
    while i < |ds|
      invariant 0 <= i <= |ds|
      invariant lines == lines0 + Enumerated(ds[..i], line)
    {
      assert Enumerated(ds[..i + 1], line) == Enumerated(ds[..i], line) + [line(ds[i], i)];
      lines := lines + [line(ds[i], i)];
      i := i + 1;
    }
    assert ds[..i] == ds;
  }

  method GenerateMainExecutionSteps(pkg: Package) returns (steps: string)
    ensures steps == MainExecutionSteps(pkg)
  {
    var lines := AppendEnumerated([], pkg.dataFlowComponents, FlowStep);
    lines := AppendEnumerated(lines, pkg.controlFlowTasks, TaskStep);
    if |pkg.controlFlowTasks| > 0 {
      lines := lines + [ControlFlowStep];
    }
    assert lines == StepLines(pkg);
    steps := Join(lines, "\n");
  }

  // -------------------------------------------------------------- dispatch

  datatype ComponentLogic = SourceLogic | DestinationLogic | TransformLogic | GenericComponentLogic

  datatype TaskLogic = SqlTaskLogic | ScriptTaskLogic | FileTaskLogic | GenericTaskLogic

  /** `_generate_component_specific_logic`'s chain on the lower-cased type. */
  function ComponentLogicOf(t: string): ComponentLogic {
    if Contains(t, "source") then SourceLogic
    else if Contains(t, "destination") then DestinationLogic
    else if Contains(t, "transform") then TransformLogic
    else GenericComponentLogic
  }

  const ComponentKeywords: seq<(string, ComponentLogic)> :=
    [("source", SourceLogic), ("destination", DestinationLogic), ("transform", TransformLogic)]

  /** `_generate_task_specific_logic`'s chain on the lower-cased type. */
  function TaskLogicOf(t: string): TaskLogic {
    if Contains(t, "sql") then SqlTaskLogic
    else if Contains(t, "script") then ScriptTaskLogic
    else if Contains(t, "file") then FileTaskLogic
    else GenericTaskLogic
  }

  const TaskKeywords: seq<(string, TaskLogic)> :=
    [("sql", SqlTaskLogic), ("script", ScriptTaskLogic), ("file", FileTaskLogic)]

  /** Both dispatches pick the generator of the first keyword, in the order of their tables, that the type contains. */
  lemma DispatchIsFirstMatch(t: string)
    ensures ComponentLogicOf(t) == FirstMatch(t, ComponentKeywords, GenericComponentLogic)
    ensures TaskLogicOf(t) == FirstMatch(t, TaskKeywords, GenericTaskLogic)
  {
    assert ComponentKeywords[1..][1..][1..] == [];
    assert TaskKeywords[1..][1..][1..] == [];
  }

  function ComponentHeading(k: ComponentLogic): string {
    match k
    case SourceLogic => "Source component"
    case DestinationLogic => "Destination component"
    case TransformLogic => "Transform component"
    case GenericComponentLogic => "Component"
  }

  function ComponentBody(k: ComponentLogic): string {
    match k
    case SourceLogic =>
      "def read_from_source():\n    \"\"\"Read data from source\"\"\"\n    # TODO: Implement source-specific logic\n    pass\n"
    case DestinationLogic =>
      "def write_to_destination(data):\n    \"\"\"Write data to destination\"\"\"\n    # TODO: Implement destination-specific logic\n    pass\n"
    case TransformLogic =>
      "def transform_data(data):\n    \"\"\"Transform data\"\"\"\n    # TODO: Implement transform-specific logic\n    pass\n"
    case GenericComponentLogic =>
      "def process_component():\n    \"\"\"Process component\"\"\"\n    # TODO: Implement component-specific logic\n    pass\n"
  }

  function TaskHeading(k: TaskLogic): string {
    match k
    case SqlTaskLogic => "SQL Task"
    case ScriptTaskLogic => "Script Task"
    case FileTaskLogic => "File Task"
    case GenericTaskLogic => "Task"
  }

  function TaskBody(k: TaskLogic): string {
    match k
    case SqlTaskLogic =>
      "def execute_sql_task():\n    \"\"\"Execute SQL task\"\"\"\n    # TODO: Implement SQL task logic\n    pass\n"
    case ScriptTaskLogic =>
      "def execute_script_task():\n    \"\"\"Execute script task\"\"\"\n    # TODO: Implement script task logic\n    pass\n"
    case FileTaskLogic =>
      "def execute_file_task():\n    \"\"\"Execute file task\"\"\"\n    # TODO: Implement file task logic\n    pass\n"
    case GenericTaskLogic =>
      "def execute_task():\n    \"\"\"Execute task\"\"\"\n    # TODO: Implement task-specific logic\n    pass\n"
  }

  /** A placeholder generator's output: a heading comment naming the entry, then a stub function. */
  function LogicText(heading: string, name: string, body: string): string {
    "\n# " + heading + ": " + name + "\n" + body
  }

  function ComponentLogicText(c: Dict): Result<string, string> {
    match LowerOf(Get(c, "component_type", ""))
    case Failure(e) => Failure(e)
    case Ok(t) =>
      var k := ComponentLogicOf(t);
      Ok(LogicText(ComponentHeading(k), Show(Get(c, "component_name", "Unknown")), ComponentBody(k)))
  }

  function TaskLogicText(t: Dict): Result<string, string> {
    match LowerOf(Get(t, "task_type", ""))
    case Failure(e) => Failure(e)
    case Ok(ty) =>
      var k := TaskLogicOf(ty);
      Ok(LogicText(TaskHeading(k), Show(Get(t, "task_name", "Unknown")), TaskBody(k)))
  }

  // ----------------------------------------------------------- per script

  /** `_generate_data_flow_script`; a failure is the message of what raised. */
  function DataFlowScript(c: Dict, packageName: string): Result<PythonScript, string> {
    match LowerOf(Get(c, "component_name", "UnknownComponent"))
    case Failure(e) => Failure(e)
    case Ok(_) =>
      match ComponentLogicText(c)
      case Failure(e) => Failure(e)
      case Ok(content) =>
        Ok(PythonScript(Stem(Get(c, "component_name", "UnknownComponent").s) + "_dataflow.py", content, [], [], [],
                        map["component_type" := Lookup(c, "component_type"), "component_id" := Lookup(c, "component_id"),
                            "package_name" := Text(packageName)]))
  }

  /** `_generate_control_flow_script`. */
  function TaskScript(t: Dict, packageName: string): Result<PythonScript, string> {
    match LowerOf(Get(t, "task_name", "UnknownTask"))
    case Failure(e) => Failure(e)
    case Ok(_) =>
      match TaskLogicText(t)
      case Failure(e) => Failure(e)
      case Ok(content) =>
        Ok(PythonScript(Stem(Get(t, "task_name", "UnknownTask").s) + "_task.py", content, [], [], [],
                        map["task_type" := Lookup(t, "task_type"), "task_id" := Lookup(t, "task_id"),
                            "package_name" := Text(packageName)]))
  }

  /** A component's script is dropped exactly when its name or type is not a string; otherwise it is the
      lower-case, space-free `<name>_dataflow.py` holding the logic its type selects. */
  lemma DataFlowScriptSpec(c: Dict, packageName: string)
    ensures var r := DataFlowScript(c, packageName);
      (r.Ok? <==> Get(c, "component_name", "UnknownComponent").Text? && Get(c, "component_type", "").Text?)
      && (r.Ok? ==>
            var stem := r.value.name[..|r.value.name| - 12];
            EndsWith(r.value.name, "_dataflow.py") && ' ' !in stem && Lower(stem) == stem
            && |stem| == |Get(c, "component_name", "UnknownComponent").s|
            && r.value.content == LogicText(ComponentHeading(ComponentLogicOf(Lower(Get(c, "component_type", "").s))),
                                            Show(Get(c, "component_name", "Unknown")),
                                            ComponentBody(ComponentLogicOf(Lower(Get(c, "component_type", "").s)))))
      && (r.Failure? ==>
            r.error == NoLower(if Get(c, "component_name", "UnknownComponent").Other?
                               then Get(c, "component_name", "UnknownComponent").typeName
                               else Get(c, "component_type", "").typeName))
  {
    var r := DataFlowScript(c, packageName);
    if r.Ok? {
      var stem := Stem(Get(c, "component_name", "UnknownComponent").s);
      assert r.value.name == stem + "_dataflow.py";
      assert r.value.name[..|r.value.name| - 12] == stem;
    }
  }

  /** A task's script is dropped exactly when its name or type is not a string; otherwise it is the
      lower-case, space-free `<name>_task.py` holding the logic its type selects. */
  lemma TaskScriptSpec(t: Dict, packageName: string)
    ensures var r := TaskScript(t, packageName);
      (r.Ok? <==> Get(t, "task_name", "UnknownTask").Text? && Get(t, "task_type", "").Text?)
      && (r.Ok? ==>
            var stem := r.value.name[..|r.value.name| - 8];
            EndsWith(r.value.name, "_task.py") && ' ' !in stem && Lower(stem) == stem
            && |stem| == |Get(t, "task_name", "UnknownTask").s|
            && r.value.content == LogicText(TaskHeading(TaskLogicOf(Lower(Get(t, "task_type", "").s))),
                                            Show(Get(t, "task_name", "Unknown")),
                                            TaskBody(TaskLogicOf(Lower(Get(t, "task_type", "").s)))))
  {
    var r := TaskScript(t, packageName);
    if r.Ok? {
      var stem := Stem(Get(t, "task_name", "UnknownTask").s);
      assert r.value.name == stem + "_task.py";
      assert r.value.name[..|r.value.name| - 8] == stem;
    }
  }

  /** The parser names a component's keys `name` and `type`, which the generator does not read: such a
      component's script is always `unknowncomponent_dataflow.py` with the generic logic, so two of them collide. */
  lemma ParsedComponentFallsBack(c: Dict, packageName: string)
    requires "component_name" !in c && "component_type" !in c
    ensures DataFlowScript(c, packageName).Ok?
    ensures DataFlowScript(c, packageName).value.name == "unknowncomponent_dataflow.py"
    ensures DataFlowScript(c, packageName).value.content ==
      LogicText("Component", "Unknown", ComponentBody(GenericComponentLogic))
  {
    ParsedLogicText(c);
    assert Get(c, "component_name", "UnknownComponent") == Text("UnknownComponent");
    assert DataFlowScript(c, packageName).value.name == Stem("UnknownComponent") + "_dataflow.py";
    UnknownScriptName();
  }

  lemma UnknownScriptName()
    ensures Stem("UnknownComponent") + "_dataflow.py" == "unknowncomponent_dataflow.py"
  {
    UnknownStem();
  }

  lemma ParsedLogicText(c: Dict)
    requires "component_name" !in c && "component_type" !in c
    ensures ComponentLogicText(c) == Ok(LogicText("Component", "Unknown", ComponentBody(GenericComponentLogic)))
  {
    assert Get(c, "component_type", "") == Text("");
    EmptyTypeIsGeneric(Get(c, "component_type", "").s);
  }

  lemma EmptyTypeIsGeneric(t: string)
    requires t == ""
    ensures ComponentLogicOf(Lower(t)) == GenericComponentLogic
  {
    assert Lower(t) == t;
    assert !Contains(t, "source") && !Contains(t, "destination") && !Contains(t, "transform");
  }

  lemma UnknownStem()
    ensures Stem("UnknownComponent") == "unknowncomponent"
  {
    assert Lower("UnknownComponent") == "unknowncomponent";
  }

  /** The source tests `source` first: an OLE DB source gets the reader stub. */
  lemma OleDbSourceExample()
    ensures ComponentLogicOf(Lower("OLE DB Source")) == SourceLogic
  {
    assert Lower("OLE DB Source") == "ole db source";
    ContainsAt("ole db source", "source", 7);
  }

  /** An Execute SQL task gets the SQL stub. */
  lemma SqlTaskExample()
    ensures TaskLogicOf(Lower("Execute SQL Task")) == SqlTaskLogic
  {
    assert Lower("Execute SQL Task") == "execute sql task";
    ContainsAt("execute sql task", "sql", 8);
  }

  /** A script task, which has no `q`, is not taken for an SQL task and gets the script stub. */
  lemma ScriptTaskExample()
    ensures TaskLogicOf(Lower("Script Task")) == ScriptTaskLogic
  {
    ScriptTaskLower();
    ScriptTaskDispatch("script task");
  }

  lemma ScriptTaskDispatch(t: string)
    requires t == "script task"
    ensures TaskLogicOf(t) == ScriptTaskLogic
  {
    MissingCharNotContained(t, "sql", 'q');
    ContainsAt(t, "script", 0);
  }

  lemma ScriptTaskLower()
    ensures Lower("Script Task") == "script task"
  {
  }

  // ------------------------------------------------------------ templates

  /** A `str.format` template: fixed blocks of text, each named by a `B`, and fields named by an `F`. */
  datatype Piece<B, F> = Fixed(block: B) | Slot(field: F)

  function PieceText<B, F>(p: Piece<B, F>, text: B -> string, value: F -> string): string {
    match p
    case Fixed(b) => text(b)
    case Slot(f) => value(f)
  }

  /** The filled template: each block's `text`, each field's `value`. */
  function Fill<B, F>(t: seq<Piece<B, F>>, text: B -> string, value: F -> string): string
    decreases |t|
  {
    if |t| == 0 then "" else PieceText(t[0], text, value) + Fill(t[1..], text, value)
  }

  lemma {:induction false} FillAppend<B, F>(a: seq<Piece<B, F>>, b: seq<Piece<B, F>>, text: B -> string,
                                             value: F -> string)
    ensures Fill(a + b, text, value) == Fill(a, text, value) + Fill(b, text, value)
    decreases |a|
  {
    if |a| == 0 {
      assert a + b == b;
    } else {
      assert (a + b)[1..] == a[1..] + b;
      FillAppend(a[1..], b, text, value);
      assert Fill(a + b, text, value) == PieceText(a[0], text, value) + Fill(a[1..] + b, text, value);
    }
  }

  /** Every piece of a template, fixed block or filled field, occurs in the filled text. */
  lemma FillHasPiece<B, F>(t: seq<Piece<B, F>>, text: B -> string, value: F -> string, k: nat)
    requires k < |t|
    ensures Contains(Fill(t, text, value), PieceText(t[k], text, value))
  {
    var a, b := t[..k], t[k + 1..];
    assert t == a + [t[k]] + b;
    FillAppend(a, [t[k]], text, value);
    FillAppend(a + [t[k]], b, text, value);
    assert Fill([t[k]], text, value) == PieceText(t[k], text, value);
    ContainsInfix(Fill(a, text, value), PieceText(t[k], text, value), Fill(b, text, value));
  }

  /** The block at position `k` occurs in the filled text. */
  lemma FillHasBlock<B, F>(t: seq<Piece<B, F>>, text: B -> string, value: F -> string, k: nat, b: B)
    requires k < |t| && t[k] == Fixed(b)
    ensures Contains(Fill(t, text, value), text(b))
  {
    FillHasPiece(t, text, value, k);
  }

  /** The field at position `k` occurs, filled in, in the filled text. */
  lemma FillHasField<B, F>(t: seq<Piece<B, F>>, text: B -> string, value: F -> string, k: nat, f: F)
    requires k < |t| && t[k] == Slot(f)
    ensures Contains(Fill(t, text, value), value(f))
  {
    FillHasPiece(t, text, value, k);
  }

  /** The fixed text of the main template, block by block. */
  datatype MainBlock =
    | Shebang | TitleSeparator | OriginalLine | GeneratedLine | DescriptionLine | StandardImports
    | LoggingSetup | HelperClasses | MainHeading | MainDefinition | MainStart | MainSteps | MainEnd

  function MainBlockText(b: MainBlock): string {
    match b
    case Shebang => "#!/usr/bin/env python3\n\"\"\"\n"
    case TitleSeparator => " - Generated ETL script from SSIS package: "
    case OriginalLine => "\nOriginal SSIS Package: "
    case GeneratedLine => "\nGenerated: "
    case DescriptionLine => "\nDescription: "
    case StandardImports =>
      "\n\"\"\"\n\nimport sys\nimport os\nimport logging\nfrom pathlib import Path\nfrom datetime import datetime\n"
      + "import traceback\n\n"
    case LoggingSetup =>
      "\n\n# Configure logging\ndef setup_logging():\n    \"\"\"Setup logging configuration\"\"\"\n"
      + "    logging.basicConfig(\n        level=logging.INFO,\n"
      + "        format='%(asctime)s - %(name)s - %(levelname)s - %(message)s',\n"
      + "        handlers=[\n            logging.FileHandler('"
    case HelperClasses =>
      "'),\n            logging.StreamHandler(sys.stdout)\n        ]\n    )\n"
      + "    return logging.getLogger(__name__)\n\n"
      + "# Configuration\nclass Config:\n    \"\"\"Configuration management\"\"\"\n"
      + "    def __init__(self, config_file: str = None):\n        self.config_file = config_file\n"
      + "        self.settings = {}\n        self._load_config()\n\n"
      + "    def _load_config(self):\n        \"\"\"Load configuration from file or environment\"\"\"\n"
      + "        # TODO: Implement configuration loading\n        pass\n\n"
      + "    def get(self, key: str, default=None):\n        \"\"\"Get configuration value\"\"\"\n"
      + "        return self.settings.get(key, default)\n\n"
      + "# Connection management\nclass ConnectionManager:\n    \"\"\"Manage database connections\"\"\"\n\n"
      + "    def __init__(self, config: Config):\n        self.config = config\n        self.connections = {}\n\n"
      + "    def get_connection(self, connection_name: str):\n        \"\"\"Get database connection by name\"\"\"\n"
      + "        if connection_name not in self.connections:\n"
      + "            # TODO: Implement connection creation based on SSIS connection manager\n            pass\n"
      + "        return self.connections.get(connection_name)\n\n"
      + "    def close_all(self):\n        \"\"\"Close all connections\"\"\"\n"
      + "        for conn in self.connections.values():\n            if hasattr(conn, 'close'):\n"
      + "                conn.close()\n        self.connections.clear()\n\n"
      + "# Data processing functions\n"
    case MainHeading => "\n\n# Main execution\n"
    case MainDefinition => "def main():"
    case MainStart =>
      "\n    \"\"\"Main execution function\"\"\"\n    logger = setup_logging()\n"
      + "    logger.info(\"Starting ETL process for package: "
    case MainSteps =>
      "\")\n\n    try:\n        # Initialize configuration\n        config = Config()\n\n"
      + "        # Initialize connection manager\n        conn_manager = ConnectionManager(config)\n\n"
      + "        # Execute ETL steps\n        logger.info(\"Executing ETL steps...\")\n\n        "
    case MainEnd =>
      "\n\n        logger.info(\"ETL process completed successfully\")\n        return 0\n\n"
      + "    except Exception as e:\n        logger.error(f\"ETL process failed: {str(e)}\")\n"
      + "        logger.error(traceback.format_exc())\n        return 1\n\n"
      + "    finally:\n        # Cleanup\n        if 'conn_manager' in locals():\n"
      + "            conn_manager.close_all()\n\n"
      + "if __name__ == \"__main__\":\n    sys.exit(main())\n"
  }

  /** The named fields of the main template: `script_name`, `package_name`, `generation_date`,
      `description`, `imports`, `log_file`, `data_processing_functions` and `main_execution_steps`. */
  datatype MainField =
    | ScriptNameSlot | PackageNameSlot | DateSlot | DescriptionSlot | ImportsSlot | LogFileSlot | FunctionsSlot
    | StepsSlot

  const MainTemplate: seq<Piece<MainBlock, MainField>> := [
    Fixed(Shebang), Slot(ScriptNameSlot), Fixed(TitleSeparator), Slot(PackageNameSlot),
    Fixed(OriginalLine), Slot(PackageNameSlot), Fixed(GeneratedLine), Slot(DateSlot),
    Fixed(DescriptionLine), Slot(DescriptionSlot), Fixed(StandardImports), Slot(ImportsSlot),
    Fixed(LoggingSetup), Slot(LogFileSlot), Fixed(HelperClasses), Slot(FunctionsSlot),
    Fixed(MainHeading), Fixed(MainDefinition), Fixed(MainStart), Slot(PackageNameSlot),
    Fixed(MainSteps), Slot(StepsSlot), Fixed(MainEnd)]

  lemma MainDefinitionText()
    ensures MainBlockText(MainDefinition) == "def main():"
  {
  }

  /** Where the main template puts the definition of `main`, the package name, the imports and the steps. */
  lemma MainTemplateLayout()
    ensures |MainTemplate| == 23 && MainTemplate[17] == Fixed(MainDefinition) && MainTemplate[3] == Slot(PackageNameSlot)
    ensures MainTemplate[11] == Slot(ImportsSlot) && MainTemplate[21] == Slot(StepsSlot)
  {
  }

  const DefaultDescription := "ETL script generated from SSIS package"

  /** `<name with spaces as underscores>_main.py`; the case is kept. */
  function MainScriptName(name: string): (r: string)
    ensures |r| == |name| + 8 && ' ' !in r && EndsWith(r, "_main.py")
  {
    var r := ReplaceChar(name, ' ', '_') + "_main.py";
    assert r[|r| - 8..] == "_main.py";
    r
  }

  function MainFields(pkg: Package, imports: seq<string>, functions: string, steps: string, date: string)
    : MainField -> string
  {
    (f: MainField) =>
      match f
      case ScriptNameSlot => MainScriptName(pkg.name)
      case PackageNameSlot => pkg.name
      case DateSlot => date
      case DescriptionSlot => if pkg.description == "" then DefaultDescription else pkg.description
      case ImportsSlot => Join(imports, "\n")
      case LogFileSlot => Stem(pkg.name) + ".log"
      case FunctionsSlot => functions
      case StepsSlot => steps
  }

  /** The values of the main template's fields. */
  lemma MainFieldValues(pkg: Package, imports: seq<string>, functions: string, steps: string, date: string)
    ensures var value := MainFields(pkg, imports, functions, steps, date);
      value(PackageNameSlot) == pkg.name && value(ImportsSlot) == Join(imports, "\n") && value(StepsSlot) == steps
  {
  }

  function MainContent(pkg: Package, imports: seq<string>, functions: string, steps: string, date: string): string {
    Fill(MainTemplate, MainBlockText, MainFields(pkg, imports, functions, steps, date))
  }

  /** The main script for the collected imports and dependencies. */
  function MainScriptOf(pkg: Package, imports: seq<string>, deps: seq<string>, functions: string, steps: string,
                        date: string): PythonScript
  {
    PythonScript(MainScriptName(pkg.name), MainContent(pkg, imports, functions, steps, date), deps, imports, [],
                 map["package_name" := Text(pkg.name), "package_version" := Text(pkg.version),
                     "component_count" := IntValue(|pkg.dataFlowComponents| + |pkg.controlFlowTasks|)])
  }

  /** `_generate_main_script`: fails exactly where the import collection fails. */
  function MainScript(pkg: Package, functions: string, date: string): Result<PythonScript, string> {
    match ImportsOf(pkg)
    case Failure(e) => Failure(e)
    case Ok(imports) =>
      match DependenciesOf(pkg)
      case Failure(e) => Failure(e)
      case Ok(deps) => Ok(MainScriptOf(pkg, imports, deps, functions, MainExecutionSteps(pkg), date))
  }

  /** The main module defines `main`. */
  lemma MainShowsDefinition(pkg: Package, imports: seq<string>, functions: string, steps: string, date: string)
    ensures Contains(MainContent(pkg, imports, functions, steps, date), "def main():")
  {
    MainTemplateLayout();
    MainDefinitionText();
    FillHasBlock(MainTemplate, MainBlockText, MainFields(pkg, imports, functions, steps, date), 17, MainDefinition);
  }

  /** The main module names the package. */
  lemma MainShowsPackage(pkg: Package, imports: seq<string>, functions: string, steps: string, date: string)
    ensures Contains(MainContent(pkg, imports, functions, steps, date), pkg.name)
  {
    MainTemplateLayout();
    MainFieldValues(pkg, imports, functions, steps, date);
    FillHasField(MainTemplate, MainBlockText, MainFields(pkg, imports, functions, steps, date), 3, PackageNameSlot);
  }

  /** The main module shows the imports, one per line. */
  lemma MainShowsImports(pkg: Package, imports: seq<string>, functions: string, steps: string, date: string)
    ensures Contains(MainContent(pkg, imports, functions, steps, date), Join(imports, "\n"))
  {
    MainTemplateLayout();
    MainFieldValues(pkg, imports, functions, steps, date);
    FillHasField(MainTemplate, MainBlockText, MainFields(pkg, imports, functions, steps, date), 11, ImportsSlot);
  }

  /** The main module shows the execution steps. */
  lemma MainShowsSteps(pkg: Package, imports: seq<string>, functions: string, steps: string, date: string)
    ensures Contains(MainContent(pkg, imports, functions, steps, date), steps)
  {
    MainTemplateLayout();
    MainFieldValues(pkg, imports, functions, steps, date);
    FillHasField(MainTemplate, MainBlockText, MainFields(pkg, imports, functions, steps, date), 21, StepsSlot);
  }

  /** The main module defines `main`, names the package, and shows every import and every step line. */
  lemma MainContentMentions(pkg: Package, imports: seq<string>, functions: string, date: string)
    ensures var c := MainContent(pkg, imports, functions, MainExecutionSteps(pkg), date);
      Contains(c, "def main():") && Contains(c, pkg.name)
      && (forall k :: 0 <= k < |imports| ==> Contains(c, imports[k]))
      && (forall k :: 0 <= k < |StepLines(pkg)| ==> Contains(c, StepLines(pkg)[k]))
  {
    var steps := MainExecutionSteps(pkg);
    var c := MainContent(pkg, imports, functions, steps, date);
    MainShowsDefinition(pkg, imports, functions, steps, date);
    MainShowsPackage(pkg, imports, functions, steps, date);
    MainShowsImports(pkg, imports, functions, steps, date);
    MainShowsSteps(pkg, imports, functions, steps, date);
    JoinPartsWithin(c, imports, "\n");
    JoinPartsWithin(c, StepLines(pkg), "\n");
  }

  method GenerateMainScript(pkg: Package, functions: string, date: string) returns (r: Result<PythonScript, string>)
    ensures r == MainScript(pkg, functions, date)
  {
    var imports := CollectImports(pkg);
    if imports.Failure? {
      return Failure(imports.error);
    }
    var steps := GenerateMainExecutionSteps(pkg);
    var deps := CollectDependencies(pkg);
    if deps.Failure? {
      return Failure(deps.error);
    }
    r := Ok(MainScriptOf(pkg, imports.value, deps.value, functions, steps, date));
  }

  // ------------------------------------------------------------ formatters

  function MapLines<T>(xs: seq<T>, line: T -> string): (r: seq<string>)
    ensures |r| == |xs| && forall k :: 0 <= k < |xs| ==> r[k] == line(xs[k])
  {
    seq(|xs|, k requires 0 <= k < |xs| => line(xs[k]))
  }

  /** The lines joined by `,\n`, or the placeholder when there are none. */
  function Listing(lines: seq<string>, placeholder: string): string {
    if |lines| == 0 then placeholder else Join(lines, ",\n")
  }

  /** A listing is its placeholder exactly when it is empty, as long as the lines and the placeholder
      differ at their fifth character. */
  lemma ListingPlaceholder(lines: seq<string>, placeholder: string)
    requires |placeholder| > 4 && forall k :: 0 <= k < |lines| ==> |lines[k]| > 4 && lines[k][4] != placeholder[4]
    ensures Listing(lines, placeholder) == placeholder <==> |lines| == 0
  {
    if |lines| > 0 {
      JoinStartsWithFirst(lines, ",\n");
      assert Join(lines, ",\n")[4] == lines[0][4];
    }
  }

  /** Each line of a non-empty listing occurs in it. */
  lemma ListingHasLine(lines: seq<string>, placeholder: string, k: nat)
    requires k < |lines|
    ensures Contains(Listing(lines, placeholder), lines[k])
  {
    JoinHasPart(lines, ",\n", k);
  }

  function ConnectionTypeOf(c: Dict): Value {
    if "type" in c then c["type"] else Get(c, "connection_type", "Unknown")
  }

  function ConnectionLine(c: Dict): string {
    "    \"" + Show(Get(c, "name", "Unknown"))
    + ("\": {\"type\": \"" + Show(ConnectionTypeOf(c)) + "\", \"connection_string\": \"" + Show(Get(c, "connection_string", "")) + "\"}")
  }

  function VariableLine(v: Dict): string {
    "    \"" + Show(Get(v, "name", "Unknown"))
    + ("\": \"{\"value\": \"" + Show(Get(v, "value", "")) + "\", \"type\": \"" + Show(Get(v, "type", "String")) + "\"}\"")
  }

  function EnvironmentLine(e: (string, string)): string {
    "    \"" + e.0 + "\": \"" + e.1 + "\""
  }

  const NoConnections := "    # No connections defined"
  const NoVariables := "    # No variables defined"
  const NoEnvironmentVariables := "    # No environment variables defined"

  function FormatConnections(cs: seq<Dict>): string {
    Listing(MapLines(cs, ConnectionLine), NoConnections)
  }

  function FormatVariables(vs: seq<Dict>): string {
    Listing(MapLines(vs, VariableLine), NoVariables)
  }

  function FormatEnvironmentVariables(env: seq<(string, string)>): string {
    Listing(MapLines(env, EnvironmentLine), NoEnvironmentVariables)
  }

  /** Each formatter gives its placeholder comment exactly on empty input. */
  lemma FormattersPlaceholder(cs: seq<Dict>, vs: seq<Dict>, env: seq<(string, string)>)
    ensures FormatConnections(cs) == NoConnections <==> |cs| == 0
    ensures FormatVariables(vs) == NoVariables <==> |vs| == 0
    ensures FormatEnvironmentVariables(env) == NoEnvironmentVariables <==> |env| == 0
  {
    ConnectionsPlaceholder(cs);
    VariablesPlaceholder(vs);
    EnvironmentPlaceholder(env);
  }

  lemma ConnectionsPlaceholder(cs: seq<Dict>)
    ensures FormatConnections(cs) == NoConnections <==> |cs| == 0
  {
    var a := MapLines(cs, ConnectionLine);
    assert forall k :: 0 <= k < |a| ==> a[k][4] == '"';
    ListingPlaceholder(a, NoConnections);
  }

  lemma VariablesPlaceholder(vs: seq<Dict>)
    ensures FormatVariables(vs) == NoVariables <==> |vs| == 0
  {
    var b := MapLines(vs, VariableLine);
    assert forall k :: 0 <= k < |b| ==> b[k][4] == '"';
    ListingPlaceholder(b, NoVariables);
  }

  lemma EnvironmentPlaceholder(env: seq<(string, string)>)
    ensures FormatEnvironmentVariables(env) == NoEnvironmentVariables <==> |env| == 0
  {
    var c := MapLines(env, EnvironmentLine);
    assert forall k :: 0 <= k < |c| ==> c[k][4] == '"';
    ListingPlaceholder(c, NoEnvironmentVariables);
  }

  /** Every connection's name is shown. */
  lemma ConnectionsShowNames(cs: seq<Dict>)
    ensures forall i :: 0 <= i < |cs| ==> Contains(FormatConnections(cs), Show(Get(cs[i], "name", "Unknown")))
  {
    forall i | 0 <= i < |cs| ensures Contains(FormatConnections(cs), Show(Get(cs[i], "name", "Unknown"))) {
      ListingHasLine(MapLines(cs, ConnectionLine), NoConnections, i);
      ConnectionLineShowsName(cs[i]);
      ContainsWithin(FormatConnections(cs), ConnectionLine(cs[i]), Show(Get(cs[i], "name", "Unknown")));
    }
  }

  lemma ConnectionLineShowsName(c: Dict)
    ensures Contains(ConnectionLine(c), Show(Get(c, "name", "Unknown")))
  {
    ContainsInfix("    \"", Show(Get(c, "name", "Unknown")),
      "\": {\"type\": \"" + Show(ConnectionTypeOf(c)) + "\", \"connection_string\": \"" + Show(Get(c, "connection_string", "")) + "\"}");
  }

  lemma VariableLineShowsName(v: Dict)
    ensures Contains(VariableLine(v), Show(Get(v, "name", "Unknown")))
  {
    ContainsInfix("    \"", Show(Get(v, "name", "Unknown")),
      "\": \"{\"value\": \"" + Show(Get(v, "value", "")) + "\", \"type\": \"" + Show(Get(v, "type", "String")) + "\"}\"");
  }

  /** Every variable's name is shown. */
  lemma VariablesShowNames(vs: seq<Dict>)
    ensures forall i :: 0 <= i < |vs| ==> Contains(FormatVariables(vs), Show(Get(vs[i], "name", "Unknown")))
  {
    forall i | 0 <= i < |vs| ensures Contains(FormatVariables(vs), Show(Get(vs[i], "name", "Unknown"))) {
      ListingHasLine(MapLines(vs, VariableLine), NoVariables, i);
      VariableLineShowsName(vs[i]);
      ContainsWithin(FormatVariables(vs), VariableLine(vs[i]), Show(Get(vs[i], "name", "Unknown")));
    }
  }

  /** Every environment variable's name and value are shown. */
  lemma EnvironmentShowsEntries(env: seq<(string, string)>)
    ensures forall i :: 0 <= i < |env| ==>
      Contains(FormatEnvironmentVariables(env), env[i].0) && Contains(FormatEnvironmentVariables(env), env[i].1)
  {
    forall i | 0 <= i < |env|
      ensures Contains(FormatEnvironmentVariables(env), env[i].0) && Contains(FormatEnvironmentVariables(env), env[i].1)
    {
      var (k, v) := env[i];
      var line := EnvironmentLine(env[i]);
      ListingHasLine(MapLines(env, EnvironmentLine), NoEnvironmentVariables, i);
      ContainsInfix("    \"", k, "\": \"" + v + "\"");
      ContainsInfix("    \"" + k + "\": \"", v, "\"");
      assert "    \"" + k + ("\": \"" + v + "\"") == line;
      assert "    \"" + k + "\": \"" + v + "\"" == line;
      ContainsWithin(FormatEnvironmentVariables(env), line, k);
      ContainsWithin(FormatEnvironmentVariables(env), line, v);
    }
  }

  /** The loop of a formatter: one line per entry, then the join or the placeholder. */
  method FormatEntries<T>(xs: seq<T>, line: T -> string, placeholder: string) returns (s: string)
    ensures s == Listing(MapLines(xs, line), placeholder)
  {
    var formatted: seq<string> := [];
    var i := 0;
    while i < |xs|
      invariant 0 <= i <= |xs|
      invariant |formatted| == i && forall k :: 0 <= k < i ==> formatted[k] == line(xs[k])
    {
      formatted := formatted + [line(xs[i])];
      i := i + 1;
    }
    assert formatted == MapLines(xs, line);
    s := if |formatted| > 0 then Join(formatted, ",\n") else placeholder;
  }

  // ------------------------------------------------------- config script

  /** The fixed text of the configuration module, block by block. */
  datatype ConfigBlock =
    | ConfigHeading | ConnectionsHeading | VariablesHeading | EnvironmentHeading | MetadataHeading
    | VersionKey | DescriptionKey | CreationDateKey | CreatorKey | ConfigEnd

  function ConfigBlockText(b: ConfigBlock): string {
    match b
    case ConfigHeading => "#!/usr/bin/env python3\n\"\"\"\nConfiguration for "
    case ConnectionsHeading => " ETL package\n\"\"\"\n\n# Database connections\nDATABASE_CONNECTIONS = {\n    "
    case VariablesHeading => "\n}\n\n# Variables\nVARIABLES = {\n    "
    case EnvironmentHeading => "\n}\n\n# Environment variables\nENVIRONMENT_VARIABLES = {\n    "
    case MetadataHeading => "\n}\n\n# Package metadata\nPACKAGE_METADATA = {\n    \"name\": \""
    case VersionKey => "\",\n    \"version\": \""
    case DescriptionKey => "\",\n    \"description\": \""
    case CreationDateKey => "\",\n    \"creation_date\": \""
    case CreatorKey => "\",\n    \"creator\": \""
    case ConfigEnd => "\"\n}\n"
  }

  /** The named fields of the configuration template: `name`, `connections`, `variables`,
      `environment`, `version`, `description`, `creation_date` and `creator`. */
  datatype ConfigField =
    | NameEntry | ConnectionsEntry | VariablesEntry | EnvironmentEntry | VersionEntry | DescriptionEntry
    | CreationDateEntry | CreatorEntry

  const ConfigTemplate: seq<Piece<ConfigBlock, ConfigField>> := [
    Fixed(ConfigHeading), Slot(NameEntry), Fixed(ConnectionsHeading), Slot(ConnectionsEntry),
    Fixed(VariablesHeading), Slot(VariablesEntry), Fixed(EnvironmentHeading), Slot(EnvironmentEntry),
    Fixed(MetadataHeading), Slot(NameEntry), Fixed(VersionKey), Slot(VersionEntry),
    Fixed(DescriptionKey), Slot(DescriptionEntry), Fixed(CreationDateKey), Slot(CreationDateEntry),
    Fixed(CreatorKey), Slot(CreatorEntry), Fixed(ConfigEnd)]

  function ConfigFields(pkg: Package, connections: string, variables: string, environment: string)
    : ConfigField -> string
  {
    (f: ConfigField) =>
      match f
      case NameEntry => pkg.name
      case ConnectionsEntry => connections
      case VariablesEntry => variables
      case EnvironmentEntry => environment
      case VersionEntry => pkg.version
      case DescriptionEntry => pkg.description
      case CreationDateEntry => pkg.creationDate
      case CreatorEntry => pkg.creator
  }

  function ConfigContent(pkg: Package): string {
    Fill(ConfigTemplate, ConfigBlockText, ConfigFieldsOf(pkg))
  }

  /** `_generate_config_script`: `<stem>_config.py`. */
  function ConfigScript(pkg: Package): PythonScript {
    PythonScript(Stem(pkg.name) + "_config.py", ConfigContent(pkg), [], [], [],
                 map["package_name" := Text(pkg.name), "connection_count" := IntValue(|pkg.connectionManagers|),
                     "variable_count" := IntValue(|pkg.variables|)])
  }

  function ConfigFieldsOf(pkg: Package): ConfigField -> string {
    ConfigFields(pkg, FormatConnections(pkg.connectionManagers), FormatVariables(pkg.variables),
                 FormatEnvironmentVariables(pkg.environmentVariables))
  }

  /** Where the configuration template puts the three listings. */
  lemma ConfigTemplateLayout()
    ensures |ConfigTemplate| == 19 && ConfigTemplate[3] == Slot(ConnectionsEntry)
    ensures ConfigTemplate[5] == Slot(VariablesEntry) && ConfigTemplate[7] == Slot(EnvironmentEntry)
  {
  }

  /** The values of the configuration template's listing fields. */
  lemma ConfigFieldValues(pkg: Package)
    ensures var value := ConfigFieldsOf(pkg);
      value(ConnectionsEntry) == FormatConnections(pkg.connectionManagers)
      && value(VariablesEntry) == FormatVariables(pkg.variables)
      && value(EnvironmentEntry) == FormatEnvironmentVariables(pkg.environmentVariables)
  {
  }

  /** The configuration module shows the connection listing. */
  lemma ConfigShowsConnections(pkg: Package)
    ensures Contains(ConfigContent(pkg), FormatConnections(pkg.connectionManagers))
  {
    ConfigTemplateLayout();
    ConfigFieldValues(pkg);
    FillHasField(ConfigTemplate, ConfigBlockText, ConfigFieldsOf(pkg), 3, ConnectionsEntry);
  }

  /** The configuration module shows the variable listing. */
  lemma ConfigShowsVariables(pkg: Package)
    ensures Contains(ConfigContent(pkg), FormatVariables(pkg.variables))
  {
    ConfigTemplateLayout();
    ConfigFieldValues(pkg);
    FillHasField(ConfigTemplate, ConfigBlockText, ConfigFieldsOf(pkg), 5, VariablesEntry);
  }

  /** The configuration module shows the environment-variable listing. */
  lemma ConfigShowsEnvironment(pkg: Package)
    ensures Contains(ConfigContent(pkg), FormatEnvironmentVariables(pkg.environmentVariables))
  {
    ConfigTemplateLayout();
    ConfigFieldValues(pkg);
    FillHasField(ConfigTemplate, ConfigBlockText, ConfigFieldsOf(pkg), 7, EnvironmentEntry);
  }

  /** The configuration module shows every connection's and every variable's name. */
  lemma ConfigShowsNames(pkg: Package)
    ensures forall i :: 0 <= i < |pkg.connectionManagers| ==>
      Contains(ConfigContent(pkg), Show(Get(pkg.connectionManagers[i], "name", "Unknown")))
    ensures forall i :: 0 <= i < |pkg.variables| ==>
      Contains(ConfigContent(pkg), Show(Get(pkg.variables[i], "name", "Unknown")))
  {
    var c := ConfigContent(pkg);
    ConfigShowsConnections(pkg);
    ConfigShowsVariables(pkg);
    ConnectionsShowNames(pkg.connectionManagers);
    VariablesShowNames(pkg.variables);
    forall i | 0 <= i < |pkg.connectionManagers|
      ensures Contains(c, Show(Get(pkg.connectionManagers[i], "name", "Unknown")))
    {
      ContainsWithin(c, FormatConnections(pkg.connectionManagers), Show(Get(pkg.connectionManagers[i], "name", "Unknown")));
    }
    forall i | 0 <= i < |pkg.variables| ensures Contains(c, Show(Get(pkg.variables[i], "name", "Unknown"))) {
      ContainsWithin(c, FormatVariables(pkg.variables), Show(Get(pkg.variables[i], "name", "Unknown")));
    }
  }

  method GenerateConfigScript(pkg: Package) returns (s: PythonScript)
    ensures s == ConfigScript(pkg)
  {
    var connections := FormatEntries(pkg.connectionManagers, ConnectionLine, NoConnections);
    var variables := FormatEntries(pkg.variables, VariableLine, NoVariables);
    var environment := FormatEntries(pkg.environmentVariables, EnvironmentLine, NoEnvironmentVariables);
    var m := ConfigFields(pkg, connections, variables, environment);
    s := PythonScript(Stem(pkg.name) + "_config.py", Fill(ConfigTemplate, ConfigBlockText, m), [], [], [],
                      map["package_name" := Text(pkg.name), "connection_count" := IntValue(|pkg.connectionManagers|),
                          "variable_count" := IntValue(|pkg.variables|)]);
  }

  // -------------------------------------------------------- requirements

  const RequirementsTitle := "# Requirements for {package.name} ETL package"
  const RequirementsSubtitle := "# Generated from SSIS package"

  function RequirementsContent(deps: seq<string>): string {
    RequirementsTitle + "\n" + RequirementsSubtitle + "\n\n" + Join(deps, "\n")
  }

  /** `_generate_requirements_script`. */
  function RequirementsScript(packageName: string, deps: seq<string>): PythonScript {
    PythonScript("requirements.txt", RequirementsContent(deps), deps, [], [],
                 map["package_name" := Text(packageName), "dependency_count" := IntValue(|deps|)])
  }

  /** The requirements file is its lines joined by newlines: the two header lines (the first with the
      literal `{package.name}`), a blank line, then one dependency per line; with no dependencies it
      ends in a second blank line. */
  lemma RequirementsLines(deps: seq<string>)
    ensures |deps| > 0 ==> RequirementsContent(deps) == Join([RequirementsTitle, RequirementsSubtitle, ""] + deps, "\n")
    ensures |deps| == 0 ==> RequirementsContent(deps) == Join([RequirementsTitle, RequirementsSubtitle, "", ""], "\n")
  {
    JoinAfterHeader(RequirementsTitle, RequirementsSubtitle, deps);
  }

  // ------------------------------------------------------------ assembly

  /** The generator's result for each entry, in order. */
  function Results(ds: seq<Dict>, packageName: string, gen: (Dict, string) -> Result<PythonScript, string>)
    : (r: seq<Result<PythonScript, string>>)
    ensures |r| == |ds| && forall k :: 0 <= k < |ds| ==> r[k] == gen(ds[k], packageName)
  {
    seq(|ds|, k requires 0 <= k < |ds| => gen(ds[k], packageName))
  }

  /** The scripts that were produced, in order. */
  function Produced(rs: seq<Result<PythonScript, string>>): (r: seq<PythonScript>)
    ensures |r| <= |rs|
    decreases |rs|
  {
    if |rs| == 0 then []
    else Produced(rs[..|rs| - 1]) + (if rs[|rs| - 1].Ok? then [rs[|rs| - 1].value] else [])
  }

  /** The errors of the results that failed, wrapped, in order. */
  function Failures(rs: seq<Result<PythonScript, string>>, wrap: string -> Error): (r: seq<Error>)
    ensures |r| + |Produced(rs)| == |rs|
    decreases |rs|
  {
    if |rs| == 0 then []
    else Failures(rs[..|rs| - 1], wrap) + (if rs[|rs| - 1].Failure? then [wrap(rs[|rs| - 1].error)] else [])
  }

  /** Nothing is dropped when every result is a script, and then the scripts are the results in order. */
  lemma {:induction false} AllProduced(rs: seq<Result<PythonScript, string>>)
    requires forall k :: 0 <= k < |rs| ==> rs[k].Ok?
    ensures |Produced(rs)| == |rs| && forall k :: 0 <= k < |rs| ==> Produced(rs)[k] == rs[k].value
    decreases |rs|
  {
    if |rs| > 0 {
      var p := rs[..|rs| - 1];
      assert forall k :: 0 <= k < |p| ==> p[k] == rs[k];
      AllProduced(p);
    }
  }

  /** The reports `handle_error` files for the errors `es`, numbered from `start`. */
  function FiledReports(es: seq<Error>, now: Stamp, start: nat): (r: seq<ErrorReport>)
    ensures |r| == |es|
  {
    seq(|es|, i requires 0 <= i < |es| => BuildReport(es[i], None, None, None, [], None, now, start + i))
  }

  lemma FiledReportsSnoc(es: seq<Error>, e: Error, now: Stamp, start: nat)
    ensures FiledReports(es + [e], now, start)
         == FiledReports(es, now, start) + [BuildReport(e, None, None, None, [], None, now, start + |es|)]
  {
  }

  function DataFlowError(e: string): Error {
    ConversionErr("Failed to generate data flow script: " + e, Some("DataFlowGenerator"), Medium)
  }

  function TaskError(e: string): Error {
    ConversionErr("Failed to generate control flow script: " + e, Some("ControlFlowGenerator"), Medium)
  }

  function GenerationError(e: string): Error {
    ConversionErr("Failed to generate Python scripts: " + e, Some("PythonGenerator"), High)
  }

  function GenerationContext(): ErrorContext {
    CreateErrorContext(component := Some("PythonGenerator"), operation := Some("generate_scripts"))
  }

  function GeneratedWarning(n: nat, packageName: string): string {
    "Generated " + NatToString(n) + " scripts for package " + packageName
  }

  /** The scripts of a successful run around its main script: main, data-flow scripts, task scripts,
      configuration, requirements. */
  function ScriptsAround(main: PythonScript, pkg: Package, deps: seq<string>): seq<PythonScript> {
    [main]
    + Produced(Results(pkg.dataFlowComponents, pkg.name, DataFlowScript))
    + Produced(Results(pkg.controlFlowTasks, pkg.name, TaskScript))
    + [ConfigScript(pkg), RequirementsScript(pkg.name, deps)]
  }

  /** The scripts of a successful run. */
  function ScriptsOf(pkg: Package, functions: string, date: string): seq<PythonScript>
    requires MainScript(pkg, functions, date).Ok?
  {
    DependenciesFollowImports(pkg);
    ScriptsAround(MainScript(pkg, functions, date).value, pkg, DependenciesOf(pkg).value)
  }

  lemma ScriptsOfMain(pkg: Package, functions: string, date: string, main: PythonScript)
    requires MainScript(pkg, functions, date) == Ok(main) && DependenciesOf(pkg).Ok?
    ensures ScriptsOf(pkg, functions, date) == ScriptsAround(main, pkg, DependenciesOf(pkg).value)
  {
  }

  /** The failures of a run, wrapped as the handler receives them: data-flow scripts first, then tasks. */
  function RunFailures(pkg: Package): seq<Error> {
    Failures(Results(pkg.dataFlowComponents, pkg.name, DataFlowScript), DataFlowError)
    + Failures(Results(pkg.controlFlowTasks, pkg.name, TaskScript), TaskError)
  }

  /** Generation succeeds exactly when every connection and component type is a string. */
  lemma GenerationSucceedsIff(pkg: Package, functions: string, date: string)
    ensures MainScript(pkg, functions, date).Ok? <==>
      TextKey(pkg.connectionManagers, "connection_type") && TextKey(pkg.dataFlowComponents, "component_type")
  {
    ImportsSpec(pkg);
    DependenciesFollowImports(pkg);
  }

  /** With string names and types throughout, there is exactly one script per component and per task. */
  lemma OneScriptPerEntry(pkg: Package, functions: string, date: string)
    requires MainScript(pkg, functions, date).Ok?
    requires TextKey(pkg.dataFlowComponents, "component_name") && TextKey(pkg.controlFlowTasks, "task_name")
    requires TextKey(pkg.controlFlowTasks, "task_type")
    ensures |ScriptsOf(pkg, functions, date)| == 3 + |pkg.dataFlowComponents| + |pkg.controlFlowTasks|
  {
    GenerationSucceedsIff(pkg, functions, date);
    var flows := Results(pkg.dataFlowComponents, pkg.name, DataFlowScript);
    forall k | 0 <= k < |flows| ensures flows[k].Ok? {
      DataFlowScriptSpec(pkg.dataFlowComponents[k], pkg.name);
      assert Get(pkg.dataFlowComponents[k], "component_name", "").Text?;
      assert Get(pkg.dataFlowComponents[k], "component_type", "").Text?;
    }
    AllProduced(flows);
    var tasks := Results(pkg.controlFlowTasks, pkg.name, TaskScript);
    forall k | 0 <= k < |tasks| ensures tasks[k].Ok? {
      TaskScriptSpec(pkg.controlFlowTasks[k], pkg.name);
      assert Get(pkg.controlFlowTasks[k], "task_name", "").Text?;
      assert Get(pkg.controlFlowTasks[k], "task_type", "").Text?;
    }
    AllProduced(tasks);
  }

  /** Every run opens with the main script and closes with the configuration module and the requirements file. */
  lemma ScriptNames(pkg: Package, functions: string, date: string)
    requires MainScript(pkg, functions, date).Ok?
    ensures var s := ScriptsOf(pkg, functions, date);
      |s| >= 3 && s[0].name == MainScriptName(pkg.name) && s[|s| - 2].name == Stem(pkg.name) + "_config.py"
      && s[|s| - 1].name == "requirements.txt"
  {
    MainScriptNamed(pkg, functions, date);
    DependenciesFollowImports(pkg);
    var main := MainScript(pkg, functions, date).value;
    var deps := DependenciesOf(pkg).value;
    assert ScriptsOf(pkg, functions, date) == ScriptsAround(main, pkg, deps);
    AroundEnds(main, pkg, deps);
    ConfigScriptName(pkg);
  }

  lemma MainScriptNamed(pkg: Package, functions: string, date: string)
    requires MainScript(pkg, functions, date).Ok?
    ensures MainScript(pkg, functions, date).value.name == MainScriptName(pkg.name)
  {
  }

  lemma AroundEnds(main: PythonScript, pkg: Package, deps: seq<string>)
    ensures var s := ScriptsAround(main, pkg, deps);
      |s| >= 3 && s[0] == main && s[|s| - 2] == ConfigScript(pkg) && s[|s| - 1] == RequirementsScript(pkg.name, deps)
  {
    EndsOf(main, Produced(Results(pkg.dataFlowComponents, pkg.name, DataFlowScript)),
           Produced(Results(pkg.controlFlowTasks, pkg.name, TaskScript)), ConfigScript(pkg),
           RequirementsScript(pkg.name, deps));
  }

  lemma EndsOf<T>(a: T, m1: seq<T>, m2: seq<T>, x: T, y: T)
    ensures var s := [a] + m1 + m2 + [x, y];
      |s| >= 3 && s[0] == a && s[|s| - 2] == x && s[|s| - 1] == y
  {
  }

  lemma ConfigScriptName(pkg: Package)
    ensures ConfigScript(pkg).name == Stem(pkg.name) + "_config.py"
  {
  }

  /** An empty package still generates: its main script, its configuration and its requirements. */
  lemma EmptyPackageScripts(pkg: Package, functions: string, date: string)
    requires pkg.connectionManagers == [] && pkg.dataFlowComponents == [] && pkg.controlFlowTasks == []
    ensures MainScript(pkg, functions, date).Ok?
    ensures |ScriptsOf(pkg, functions, date)| == 3
  {
    GenerationSucceedsIff(pkg, functions, date);
    DependenciesFollowImports(pkg);
    NoScripts(pkg.dataFlowComponents, pkg.name, DataFlowScript);
    NoScripts(pkg.controlFlowTasks, pkg.name, TaskScript);
  }

  lemma NoScripts(ds: seq<Dict>, packageName: string, gen: (Dict, string) -> Result<PythonScript, string>)
    requires ds == []
    ensures Produced(Results(ds, packageName, gen)) == []
  {
  }

  /** Hands one failed generation to the handler. */
  method RecordFailure(h: ErrorHandler, e: Error, ghost es: seq<Error>, ghost base: seq<ErrorReport>,
                       ghost start: nat, now: Stamp)
    requires h.Valid() && h.reports == base + FiledReports(es, now, start) && h.errorCount == start + |es|
    modifies h
    ensures h.Valid() && h.reports == base + FiledReports(es + [e], now, start) && h.errorCount == start + |es| + 1
  {
    FiledReportsSnoc(es, e, now, start);
    var report := h.HandleError(e, None, None, None, [], None, now);
  }

  /** One turn of the loop: generate the script for `d`, then keep it or report the failure. */
  method AddNext(h: ErrorHandler, d: Dict, packageName: string, gen: (Dict, string) -> Result<PythonScript, string>,
                 wrap: string -> Error, ghost done: seq<Result<PythonScript, string>>, scripts: seq<PythonScript>,
                 ghost scripts0: seq<PythonScript>, ghost errors0: seq<Error>, ghost base: seq<ErrorReport>,
                 ghost start: nat, now: Stamp)
    returns (scripts': seq<PythonScript>)
    requires h.Valid() && scripts == scripts0 + Produced(done)
    requires h.reports == base + FiledReports(errors0 + Failures(done, wrap), now, start)
    requires h.errorCount == start + |errors0 + Failures(done, wrap)|
    modifies h
    ensures var all := done + [gen(d, packageName)];
      h.Valid() && scripts' == scripts0 + Produced(all)
      && h.reports == base + FiledReports(errors0 + Failures(all, wrap), now, start)
      && h.errorCount == start + |errors0 + Failures(all, wrap)|
  {
    var s := gen(d, packageName);
    ghost var all := done + [s];
    assert all[..|all| - 1] == done;
    if s.Ok? {
      scripts' := scripts + [s.value];
    } else {
      scripts' := scripts;
      RecordFailure(h, wrap(s.error), errors0 + Failures(done, wrap), base, start, now);
      assert errors0 + Failures(done, wrap) + [wrap(s.error)] == errors0 + Failures(all, wrap);
    }
  }

  /** One generator per entry; a failure is reported to the handler and the entry is skipped. The reports
      continue a run whose earlier failures were `errors0`. */
  method AddScripts(h: ErrorHandler, scripts0: seq<PythonScript>, ds: seq<Dict>, packageName: string,
                    gen: (Dict, string) -> Result<PythonScript, string>, wrap: string -> Error,
                    ghost errors0: seq<Error>, ghost base: seq<ErrorReport>, ghost start: nat, now: Stamp)
    returns (scripts: seq<PythonScript>)
    requires h.Valid() && h.reports == base + FiledReports(errors0, now, start) && h.errorCount == start + |errors0|
    modifies h
    ensures var rs := Results(ds, packageName, gen);
      h.Valid() && scripts == scripts0 + Produced(rs)
      && h.reports == base + FiledReports(errors0 + Failures(rs, wrap), now, start)
      && h.errorCount == start + |errors0 + Failures(rs, wrap)|
  {
    ghost var rs := Results(ds, packageName, gen);
    scripts := scripts0;
    var i := 0;
    assert errors0 + Failures(rs[..0], wrap) == errors0;
    while i < |ds|
      invariant 0 <= i <= |ds| && h.Valid()
      invariant scripts == scripts0 + Produced(rs[..i])
      invariant h.reports == base + FiledReports(errors0 + Failures(rs[..i], wrap), now, start)
      invariant h.errorCount == start + |errors0 + Failures(rs[..i], wrap)|
    {
      ResultsSnoc(ds, packageName, gen, i);
      scripts := AddNext(h, ds[i], packageName, gen, wrap, rs[..i], scripts, scripts0, errors0, base, start, now);
      i := i + 1;
    }
    assert rs[..i] == rs;
  }

  lemma ResultsSnoc(ds: seq<Dict>, packageName: string, gen: (Dict, string) -> Result<PythonScript, string>, i: nat)
    requires i < |ds|
    ensures Results(ds, packageName, gen)[..i + 1] == Results(ds, packageName, gen)[..i] + [gen(ds[i], packageName)]
  {
  }

  /** Two rounds of `AddScripts`; the reports of the second continue those of the first. */
  method AddTwoRounds(h: ErrorHandler, scripts0: seq<PythonScript>, packageName: string,
                      ds1: seq<Dict>, gen1: (Dict, string) -> Result<PythonScript, string>, wrap1: string -> Error,
                      ds2: seq<Dict>, gen2: (Dict, string) -> Result<PythonScript, string>, wrap2: string -> Error,
                      now: Stamp)
    returns (scripts: seq<PythonScript>)
    requires h.Valid()
    modifies h
    ensures h.Valid()
    ensures scripts == scripts0 + Produced(Results(ds1, packageName, gen1)) + Produced(Results(ds2, packageName, gen2))
    ensures h.reports == old(h.reports) + FiledReports(Failures(Results(ds1, packageName, gen1), wrap1)
                                                       + Failures(Results(ds2, packageName, gen2), wrap2),
                                                       now, old(h.errorCount))
  {
    ghost var first := Failures(Results(ds1, packageName, gen1), wrap1);
    ghost var second := Failures(Results(ds2, packageName, gen2), wrap2);
    assert h.reports == h.reports + FiledReports([], now, h.errorCount);
    scripts := AddScripts(h, scripts0, ds1, packageName, gen1, wrap1, [], old(h.reports), old(h.errorCount), now);
    scripts := AddScripts(h, scripts, ds2, packageName, gen2, wrap2, [] + first, old(h.reports), old(h.errorCount), now);
    assert [] + first + second == first + second;
  }

  /** The data-flow scripts, then task scripts, after `main`; every failure is handed to the handler. */
  method ComponentScripts(h: ErrorHandler, pkg: Package, main: PythonScript, now: Stamp)
    returns (scripts: seq<PythonScript>)
    requires h.Valid()
    modifies h
    ensures h.Valid()
    ensures scripts == [main] + Produced(Results(pkg.dataFlowComponents, pkg.name, DataFlowScript))
                      + Produced(Results(pkg.controlFlowTasks, pkg.name, TaskScript))
    ensures h.reports == old(h.reports) + FiledReports(RunFailures(pkg), now, old(h.errorCount))
  {
    scripts := AddTwoRounds(h, [main], pkg.name, pkg.dataFlowComponents, DataFlowScript, DataFlowError,
                            pkg.controlFlowTasks, TaskScript, TaskError, now);
  }

  /** The rest of `generate_scripts` once the main script exists. */
  method AssembleScripts(h: ErrorHandler, pkg: Package, main: PythonScript, now: Stamp) returns (scripts: seq<PythonScript>)
    requires h.Valid() && DependenciesOf(pkg).Ok?
    modifies h
    ensures h.Valid() && scripts == ScriptsAround(main, pkg, DependenciesOf(pkg).value)
    ensures h.reports == old(h.reports) + FiledReports(RunFailures(pkg), now, old(h.errorCount))
  {
    scripts := ComponentScripts(h, pkg, main, now);
    var config := GenerateConfigScript(pkg);
    var deps := CollectDependencies(pkg);
    scripts := scripts + [config, RequirementsScript(pkg.name, deps.value)];
  }

  /** The `except` branch of `generate_scripts`: the failure is reported and no script is returned. */
  method GenerationFailed(h: ErrorHandler, message: string, now: Stamp) returns (r: GenerationResult)
    requires h.Valid()
    modifies h
    ensures h.Valid()
    ensures var e := GenerationError(message);
      r == GenerationResult(false, [], [Message(e)], [])
      && h.reports == old(h.reports) + [BuildReport(e, Some(GenerationContext()), None, None, [], None, now, old(h.errorCount))]
  {
    var e := GenerationError(message);
    var report := h.HandleError(e, Some(GenerationContext()), None, None, [], None, now);
    r := GenerationResult(false, [], [Message(e)], []);
  }

  /** The `try` branch of `generate_scripts` once the main script exists. */
  method GenerationSucceeded(h: ErrorHandler, pkg: Package, main: PythonScript, now: Stamp)
    returns (r: GenerationResult)
    requires h.Valid() && DependenciesOf(pkg).Ok?
    modifies h
    ensures h.Valid()
    ensures r.success && r.scripts == ScriptsAround(main, pkg, DependenciesOf(pkg).value) && r.errors == []
      && r.warnings == [GeneratedWarning(|r.scripts|, pkg.name)]
      && h.reports == old(h.reports) + FiledReports(RunFailures(pkg), now, old(h.errorCount))
  {
    var scripts := AssembleScripts(h, pkg, main, now);
    r := GenerationResult(true, scripts, [], [GeneratedWarning(|scripts|, pkg.name)]);
  }

  /** `generate_scripts`. */
  method GenerateScripts(h: ErrorHandler, pkg: Package, functions: string, date: string, now: Stamp)
    returns (r: GenerationResult)
    requires h.Valid()
    modifies h
    ensures h.Valid()
    ensures r.success <==> MainScript(pkg, functions, date).Ok?
    ensures r.success ==>
      r.scripts == ScriptsOf(pkg, functions, date) && r.errors == []
      && r.warnings == [GeneratedWarning(|r.scripts|, pkg.name)]
      && h.reports == old(h.reports) + FiledReports(RunFailures(pkg), now, old(h.errorCount))
    ensures !r.success ==>
      var e := GenerationError(MainScript(pkg, functions, date).error);
      r.scripts == [] && r.errors == [Message(e)] && r.warnings == []
      && h.reports == old(h.reports) + [BuildReport(e, Some(GenerationContext()), None, None, [], None, now, old(h.errorCount))]
  {
    var main := GenerateMainScript(pkg, functions, date);
    if main.Failure? {
      r := GenerationFailed(h, main.error, now);
      return;
    }
    DependenciesFollowImports(pkg);
    r := GenerationSucceeded(h, pkg, main.value, now);
    ScriptsOfMain(pkg, functions, date, main.value);
  }
}
