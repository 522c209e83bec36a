// The connection converter: SSIS connection-manager records become Python
// connection descriptions. The connection kind and the database provider
// come from first-match substring tables; OLE DB connection strings are
// split at `;` and `=`; failing connections are reported and skipped, and
// the imports and dependencies of the kept ones are sorted and
// de-duplicated. Generated code is represented by the template it is
// instantiated from and the name of the function it defines.
module ConnectionConverter {
  import opened Wrappers
  import opened Strs
  import opened SortedSets
  import opened ErrorHandling
  import Assoc
  import ConnectionParser

  datatype ConnectionType =
    | OleDb | AdoNet | FlatFile | Excel | XmlType | Http | Ftp | Smtp | FileType | UnknownType
  {
    /** The enumeration's value. */
    function Value(): string {
      match this
      case OleDb => "oledb"
      case AdoNet => "ado_net"
      case FlatFile => "flat_file"
      case Excel => "excel"
      case XmlType => "xml"
      case Http => "http"
      case Ftp => "ftp"
      case Smtp => "smtp"
      case FileType => "file"
      case UnknownType => "unknown"
    }
  }

  datatype Provider = SqlServer | Oracle | MySql | PostgreSql | SqLite | Db2 | Sybase | UnknownProvider

  /** `provider_mappings`, in insertion order. */
  const ProviderTable: seq<(string, Provider)> := [
    ("SQLNCLI", SqlServer), ("SQLNCLI11", SqlServer), ("MSOLEDBSQL", SqlServer), ("OLEDB", SqlServer),
    ("Oracle", Oracle), ("OraOLEDB.Oracle", Oracle), ("MySQL", MySql), ("MySQL ODBC", MySql),
    ("PostgreSQL", PostgreSql), ("SQLite", SqLite), ("DB2", Db2), ("Sybase", Sybase)]

  /** `connection_type_mappings`, in insertion order. */
  const TypeTable: seq<(string, ConnectionType)> := [
    ("OLEDB", OleDb), ("ADO.NET", AdoNet), ("FlatFile", FlatFile), ("Excel", Excel), ("XML", XmlType),
    ("HTTP", Http), ("FTP", Ftp), ("SMTP", Smtp), ("FILE", FileType)]

  function TypeKeys(): (r: seq<string>)
    ensures |r| == |TypeTable|
  {
    seq(|TypeTable|, k requires 0 <= k < |TypeTable| => Lower(TypeTable[k].0))
  }

  function ProviderKeys(): (r: seq<string>)
    ensures |r| == |ProviderTable|
  {
    seq(|ProviderTable|, k requires 0 <= k < |ProviderTable| => Upper(ProviderTable[k].0))
  }

  // ------------------------------------------------------------ first match

  /** The index of the first key contained in `text`; `|keys|` if there is none. */
  function FirstContained(keys: seq<string>, text: string): (i: nat)
    ensures i <= |keys|
    ensures i < |keys| ==> Contains(text, keys[i])
    ensures forall j :: 0 <= j < i ==> !Contains(text, keys[j])
  {
    if |keys| == 0 then 0
    else if Contains(text, keys[0]) then 0
    else
      var i := 1 + FirstContained(keys[1..], text);
      assert forall j :: 1 <= j < i ==> keys[j] == keys[1..][j - 1];
      i
  }

  /** The three properties of `FirstContained` determine it. */
  lemma FirstContainedUnique(keys: seq<string>, text: string, i: nat)
    requires i <= |keys| && (i < |keys| ==> Contains(text, keys[i]))
    requires forall j :: 0 <= j < i ==> !Contains(text, keys[j])
    ensures i == FirstContained(keys, text)
  {
  }

  /** The `for key, value in ...items(): if key in text: return value` loop. */
  method FindFirst(keys: seq<string>, text: string) returns (i: nat)
    ensures i == FirstContained(keys, text)
  {
    i := 0;
    while i < |keys| && !Contains(text, keys[i])
      invariant i <= |keys|
      invariant forall j :: 0 <= j < i ==> !Contains(text, keys[j])
    {
      i := i + 1;
    }
    FirstContainedUnique(keys, text, i);
  }

  /** `_get_connection_type`: the kind of the first table key found in the lower-cased type. */
  function ConnectionTypeOf(connType: string): ConnectionType {
    var i := FirstContained(TypeKeys(), Lower(connType));
    if i < |TypeTable| then TypeTable[i].1 else UnknownType
  }

  /**
   * The kind is UNKNOWN exactly when no key occurs in the lower-cased type;
   * otherwise it is the kind of a key that occurs, with no earlier key occurring.
   */
  lemma ConnectionTypeMeaning(connType: string)
    ensures var r := ConnectionTypeOf(connType);
      (r == UnknownType <==> forall k :: 0 <= k < |TypeTable| ==> !Contains(Lower(connType), TypeKeys()[k]))
      && (r != UnknownType ==>
            exists k :: 0 <= k < |TypeTable| && TypeTable[k].1 == r && Contains(Lower(connType), TypeKeys()[k])
                       && forall j :: 0 <= j < k ==> !Contains(Lower(connType), TypeKeys()[j]))
  {
  }

  method GetConnectionType(connType: string) returns (r: ConnectionType)
    ensures r == ConnectionTypeOf(connType)
  {
    var i := FindFirst(TypeKeys(), Lower(connType));
    r := if i < |TypeTable| then TypeTable[i].1 else UnknownType;
  }

  /** `_get_database_provider`: the provider of the first table key found in the upper-cased text. */
  function ProviderOf(provider: string): Provider {
    var i := FirstContained(ProviderKeys(), Upper(provider));
    if i < |ProviderTable| then ProviderTable[i].1 else UnknownProvider
  }

  /**
   * The provider is UNKNOWN exactly when no key occurs in the upper-cased text;
   * otherwise it is the provider of a key that occurs, with no earlier key occurring.
   */
  lemma ProviderMeaning(provider: string)
    ensures var r := ProviderOf(provider);
      (r == UnknownProvider <==> forall k :: 0 <= k < |ProviderTable| ==> !Contains(Upper(provider), ProviderKeys()[k]))
      && (r != UnknownProvider ==>
            exists k :: 0 <= k < |ProviderTable| && ProviderTable[k].1 == r && Contains(Upper(provider), ProviderKeys()[k])
                       && forall j :: 0 <= j < k ==> !Contains(Upper(provider), ProviderKeys()[j]))
  {
  }

  method GetDatabaseProvider(provider: string) returns (r: Provider)
    ensures r == ProviderOf(provider)
  {
    var i := FindFirst(ProviderKeys(), Upper(provider));
    r := if i < |ProviderTable| then ProviderTable[i].1 else UnknownProvider;
  }

  /** `FlatFile` is tried before `FILE`: a type naming a flat file is never the plain file kind. */
  lemma FlatFileBeforeFile(connType: string)
    requires Contains(Lower(connType), "flatfile")
    ensures ConnectionTypeOf(connType) in {OleDb, AdoNet, FlatFile}
  {
    assert TypeKeys()[2] == "flatfile";
    assert FirstContained(TypeKeys(), Lower(connType)) <= 2;
  }

  /** Any provider text containing `OLEDB` resolves to SQL Server, since the first four keys all do. */
  lemma OleDbMeansSqlServer(provider: string)
    requires Contains(Upper(provider), "OLEDB")
    ensures ProviderOf(provider) == SqlServer
  {
    assert ProviderKeys()[3] == "OLEDB";
    assert FirstContained(ProviderKeys(), Upper(provider)) <= 3;
  }

  /** So Oracle's own OLE DB provider is taken for SQL Server. */
  lemma OracleOleDbIsSqlServer()
    ensures ProviderOf("OraOLEDB.Oracle") == SqlServer
  {
    var u := Upper("OraOLEDB.Oracle");
    assert u[3] == 'O' && u[4] == 'L' && u[5] == 'E' && u[6] == 'D' && u[7] == 'B';
    assert u[3..8] == "OLEDB";
    ContainsAt(u, "OLEDB", 3);
    OleDbMeansSqlServer("OraOLEDB.Oracle");
  }

  /** An empty provider contains no key, so it is unknown. */
  lemma EmptyProviderUnknown()
    ensures ProviderOf("") == UnknownProvider
  {
    var keys := ProviderKeys();
    forall k | 0 <= k < |keys| ensures !Contains("", keys[k]) {
      assert |keys[k]| == |ProviderTable[k].0| > 0;
    }
    assert Upper("") == "";
    FirstContainedUnique(keys, "", |keys|);
  }

  /** The lower-cased keys before `http` start with letters that `http` lacks. */
  lemma TypeKeyHeads()
    ensures var keys := TypeKeys();
      keys[0][0] == 'o' && keys[1][0] == 'a' && keys[2][0] == 'f' && keys[3][0] == 'e' && keys[4][0] == 'x'
      && keys[5] == "http"
  {
    var keys := TypeKeys();
    assert keys[5] == Lower("HTTP");
  }

  /** An `HTTP` type is the HTTP kind: no earlier key occurs in `http`. */
  lemma HttpType()
    ensures ConnectionTypeOf("HTTP") == Http
  {
    var t := Lower("HTTP");
    assert t == "http";
    var keys := TypeKeys();
    TypeKeyHeads();
    MissingCharNotContained(t, keys[0], 'o');
    MissingCharNotContained(t, keys[1], 'a');
    MissingCharNotContained(t, keys[2], 'f');
    MissingCharNotContained(t, keys[3], 'e');
    MissingCharNotContained(t, keys[4], 'x');
    assert StartsWith(t, "http");
    FirstContainedUnique(keys, t, 5);
  }

  // ------------------------------------------------------ connection strings

  /** One `key=value` piece, the key stripped and lower-cased, the value stripped. */
  function PieceEntry(piece: string): Option<(string, string)> {
    match ConnectionParser.ParamEntry(piece)
    case None => None
    case Some(kv) => Some((Lower(kv.0), kv.1))
  }

  function PieceEntries(pieces: seq<string>): (r: seq<Option<(string, string)>>)
    ensures |r| == |pieces|
  {
    seq(|pieces|, i requires 0 <= i < |pieces| => PieceEntry(pieces[i]))
  }

  /** `_parse_connection_string` on its `;` branch; a string without `;` gives no parameters. */
  function ConnectionStringParams(cs: string): map<string, string> {
    if ';' in cs then Assoc.Fold(map[], PieceEntries(Split(cs, ';'))) else map[]
  }

  lemma PieceEntriesSnoc(pieces: seq<string>, i: nat)
    requires i < |pieces|
    ensures PieceEntries(pieces[..i + 1]) == PieceEntries(pieces[..i]) + [PieceEntry(pieces[i])]
  {
    var a, b := PieceEntries(pieces[..i + 1]), PieceEntries(pieces[..i]) + [PieceEntry(pieces[i])];
    forall k | 0 <= k < |a| ensures a[k] == b[k] {
      assert pieces[..i + 1][k] == if k < i then pieces[..i][k] else pieces[i];
    }
  }

  /** `_parse_connection_string`. */
  method ParseConnectionString(cs: string) returns (params: map<string, string>)
    ensures params == ConnectionStringParams(cs)
  {
    if ';' in cs {
      params := FillPieces(Split(cs, ';'));
    } else {
      params := map[];
    }
  }

  /** The loop of `_parse_connection_string` over the `;`-separated pieces. */
  method FillPieces(pieces: seq<string>) returns (params: map<string, string>)
    ensures params == Assoc.Fold(map[], PieceEntries(pieces))
  {
    params := map[];
    var i := 0;
    while i < |pieces|
      invariant 0 <= i <= |pieces|
      invariant params == Assoc.Fold(map[], PieceEntries(pieces[..i]))
    {
      var piece := pieces[i];
      PieceEntriesSnoc(pieces, i);
      Assoc.FoldSnoc(map[], PieceEntries(pieces[..i]), PieceEntry(piece));
      if '=' in piece {
        var kv := SplitFirst(piece, '=');
        params := params[Lower(Strip(kv.0)) := Strip(kv.1)];
      }
      i := i + 1;
    }
    assert pieces[..i] == pieces;
  }

  /** Every parameter name is lower-case. */
  lemma ParamNamesLower(cs: string, k: string)
    requires k in ConnectionStringParams(cs)
    ensures Lower(k) == k
  {
    var entries := PieceEntries(Split(cs, ';'));
    Assoc.FoldKeys(map[], entries, k);
    var i :| 0 <= i < |entries| && Assoc.WritesKey(entries, i, k);
    LowerIdempotent(ConnectionParser.ParamEntry(Split(cs, ';')[i]).value.0);
  }

  /**
   * Two or more rendered pairs with lower-case names are read back as the
   * parser reads them; with a single pair there is no `;`, so nothing is read.
   */
  lemma RenderedParams(pairs: seq<(string, string)>)
    requires forall i :: 0 <= i < |pairs| ==> ConnectionParser.Renderable(pairs[i]) && Lower(pairs[i].0) == pairs[i].0
    ensures |pairs| >= 2 ==>
      ConnectionStringParams(ConnectionParser.Render(pairs)) == ConnectionParser.ConnectionParameters(ConnectionParser.Render(pairs))
    ensures |pairs| == 1 ==> ConnectionStringParams(ConnectionParser.Render(pairs)) == map[]
  {
    var pieces := ConnectionParser.Pieces(pairs);
    forall k | 0 <= k < |pieces| ensures ';' !in pieces[k] && ConnectionParser.ParamEntry(pieces[k]) == Some(pairs[k]) {
      ConnectionParser.PieceEntry(pairs[k]);
    }
    if |pairs| == 1 {
      assert ConnectionParser.Render(pairs) == pieces[0];
    } else if |pairs| >= 2 {
      var cs := ConnectionParser.Render(pairs);
      assert cs == pieces[0] + ";" + Join(pieces[1..], ";");
      assert cs[|pieces[0]|] == ';';
      ConnectionParser.NonEmptyJoin(pieces, ";");
      SplitJoin(pieces, ';');
      assert PieceEntries(pieces) == ConnectionParser.ParamEntries(pieces);
    }
  }

  // ------------------------------------------------------------- conversion

  /** A connection-manager dictionary: the keys the converter reads, each possibly absent. */
  datatype ConnManager = ConnManager(
    name: Option<string>,
    connectionType: Option<string>,
    connectionString: Option<string>,
    filePath: Option<string>,
    url: Option<string>)

  function NameOf(cm: ConnManager): string { cm.name.GetOr("Unknown") }

  datatype ConnectionConfig = ConnectionConfig(
    name: string,
    connectionType: ConnectionType,
    provider: Provider,
    host: Option<string>,
    port: Option<int>,
    database: Option<string>,
    username: Option<string>,
    password: Option<string>,
    connectionString: Option<string>,
    filePath: Option<string>,
    url: Option<string>,
    timeout: Option<string>,
    additionalParams: map<string, string>)

  /** The code templates; their text is not modelled. */
  datatype Template =
    | SqlServerCode | OracleCode | MySqlCode | PostgreSqlCode | GenericCode
    | FlatFileCode | ExcelCode | HttpCode | NotImplementedCode | ErrorHandlingCode

  /** Generated code: a template and the name of the function it defines. */
  datatype Snippet = Snippet(template: Template, functionName: string)

  datatype PythonConnection = PythonConnection(
    name: string,
    kind: string,
    config: ConnectionConfig,
    code: Snippet,
    imports: seq<string>,
    dependencies: seq<string>)

  /** `get_<name lower-cased, spaces to underscores>_connection`. */
  function FunctionName(name: string): string {
    "get_" + ReplaceChar(Lower(name), ' ', '_') + "_connection"
  }

  /** A configuration with only the name, kind and provider set. */
  function BaseConfig(name: string, t: ConnectionType, p: Provider): ConnectionConfig {
    ConnectionConfig(name, t, p, None, None, None, None, None, None, None, None, None, map[])
  }

  function Lookup(m: map<string, string>, k: string): Option<string> {
    if k in m then Some(m[k]) else None
  }

  /** Python's `a or b` on optional strings: `a` unless it is None or empty. */
  function PyOr(a: Option<string>, b: Option<string>): Option<string> {
    if a.Some? && a.value != "" then a else b
  }

  /** The template, imports and dependencies of an OLE DB provider. */
  function ProviderSupport(p: Provider): (Template, seq<string>, seq<string>) {
    match p
    case SqlServer => (SqlServerCode, ["import pyodbc", "import sqlalchemy"], ["pyodbc", "sqlalchemy"])
    case Oracle => (OracleCode, ["import cx_Oracle", "import sqlalchemy"], ["cx_Oracle", "sqlalchemy"])
    case MySql => (MySqlCode, ["import pymysql", "import sqlalchemy"], ["pymysql", "sqlalchemy"])
    case PostgreSql => (PostgreSqlCode, ["import psycopg2", "import sqlalchemy"], ["psycopg2-binary", "sqlalchemy"])
    case _ => (GenericCode, ["import sqlalchemy"], ["sqlalchemy"])
  }

  /**
   * Every OLE DB connection imports and depends on SQLAlchemy; only
   * PostgreSQL needs `psycopg2-binary`; providers without their own branch
   * get the generic template and SQLAlchemy alone.
   */
  lemma ProviderSupportSpec(p: Provider)
    ensures var r := ProviderSupport(p);
      "import sqlalchemy" in r.1 && "sqlalchemy" in r.2
      && (p == PostgreSql <==> "psycopg2-binary" in r.2)
      && (p !in {SqlServer, Oracle, MySql, PostgreSql} ==> r == (GenericCode, ["import sqlalchemy"], ["sqlalchemy"]))
  {
  }

  /** `_convert_oledb_connection`. */
  function OleDbConnection(cm: ConnManager): PythonConnection {
    var name := NameOf(cm);
    var cs := cm.connectionString.GetOr("");
    var params := ConnectionStringParams(cs);
    var provider := ProviderOf(Lookup(params, "provider").GetOr(""));
    var config := BaseConfig(name, OleDb, provider).(
      connectionString := Some(cs),
      host := PyOr(Lookup(params, "server"), Lookup(params, "host")),
      database := PyOr(Lookup(params, "database"), Lookup(params, "initial catalog")),
      username := PyOr(Lookup(params, "user id"), Lookup(params, "username")),
      password := Lookup(params, "password"),
      timeout := Lookup(params, "timeout"),
      additionalParams := params);
    var support := ProviderSupport(provider);
    PythonConnection(name, "database", config, Snippet(support.0, FunctionName(name)), support.1, support.2)
  }

  /** `_convert_flat_file_connection`, `_convert_excel_connection`, `_convert_http_connection` and `_convert_unknown_connection`. */
  function SimpleConnection(cm: ConnManager, t: ConnectionType): PythonConnection
    requires t in {FlatFile, Excel, Http, UnknownType}
  {
    var name := NameOf(cm);
    match t
    case FlatFile =>
      PythonConnection(name, "file", BaseConfig(name, FlatFile, UnknownProvider).(filePath := Some(cm.filePath.GetOr(""))),
                       Snippet(FlatFileCode, FunctionName(name)), ["import pandas as pd"], ["pandas"])
    case Excel =>
      PythonConnection(name, "file", BaseConfig(name, Excel, UnknownProvider).(filePath := Some(cm.filePath.GetOr(""))),
                       Snippet(ExcelCode, FunctionName(name)), ["import pandas as pd", "import openpyxl"], ["pandas", "openpyxl"])
    case Http =>
      PythonConnection(name, "web", BaseConfig(name, Http, UnknownProvider).(url := Some(cm.url.GetOr(""))),
                       Snippet(HttpCode, FunctionName(name)), ["import requests"], ["requests"])
    case _ =>
      PythonConnection(name, "unknown", BaseConfig(name, UnknownType, UnknownProvider),
                       Snippet(NotImplementedCode, FunctionName(name)), [], [])
  }

  /**
   * The host is `server` unless that is missing or empty, then `host`; the
   * database is `database`, then `initial catalog`; the user is `user id`,
   * then `username`; the provider comes from `provider`.
   */
  lemma OleDbConfig(cm: ConnManager)
    ensures var c := OleDbConnection(cm);
      var params := ConnectionStringParams(cm.connectionString.GetOr(""));
      c.kind == "database" && c.config.connectionType == OleDb && c.config.additionalParams == params
      && c.config.provider == ProviderOf(Lookup(params, "provider").GetOr(""))
      && c.config.host == (if "server" in params && params["server"] != "" then Some(params["server"])
                           else if "host" in params then Some(params["host"]) else None)
      && c.config.database == PyOr(Lookup(params, "database"), Lookup(params, "initial catalog"))
      && c.config.username == PyOr(Lookup(params, "user id"), Lookup(params, "username"))
      && c.config.password == Lookup(params, "password")
      && (c.code.template, c.imports, c.dependencies) == ProviderSupport(c.config.provider)
  {
  }

  /** The kinds `_convert_single_connection` dispatches to a converter that does not exist. */
  const Unsupported: set<ConnectionType> := {AdoNet, XmlType, Ftp, Smtp, FileType}

  /** The `AttributeError` text for a missing converter method. */
  function MissingConverter(t: ConnectionType): string {
    "'ConnectionConverter' object has no attribute '_convert_" + t.Value() + "_connection'"
  }

  function TypeOf(cm: ConnManager): ConnectionType {
    ConnectionTypeOf(cm.connectionType.GetOr("Unknown"))
  }

  /**
   * `_convert_single_connection`: fails exactly for the kinds without a
   * converter; otherwise the connection keeps its name, and an unknown kind
   * gets code that raises when run and no imports or dependencies.
   */
  function ConvertSingle(cm: ConnManager): (r: Result<PythonConnection, string>)
    ensures r.Failure? <==> TypeOf(cm) in Unsupported
  {
    var t := TypeOf(cm);
    if t == OleDb then Ok(OleDbConnection(cm))
    else if t in Unsupported then Failure(MissingConverter(t))
    else Ok(SimpleConnection(cm, t))
  }

  lemma ConvertSingleSpec(cm: ConnManager)
    ensures var r := ConvertSingle(cm);
      (r.Failure? ==> r.error == MissingConverter(TypeOf(cm)))
      && (r.Ok? ==> r.value.name == NameOf(cm) && r.value.kind in ["database", "file", "web", "unknown"])
      && (TypeOf(cm) == UnknownType ==>
            r.Ok? && r.value.kind == "unknown" && r.value.imports == [] && r.value.dependencies == []
            && r.value.code == Snippet(NotImplementedCode, FunctionName(NameOf(cm))))
      && (TypeOf(cm) == OleDb ==> r == Ok(OleDbConnection(cm)))
  {
  }

  // -------------------------------------------------------- the aggregate

  /** A connection's name and the outcome of converting it. */
  type Outcome = (string, Result<PythonConnection, string>)

  /** Each connection's name and the outcome of converting it with `convert`. */
  function OutcomesBy(convert: ConnManager -> Result<PythonConnection, string>, cms: seq<ConnManager>): (os: seq<Outcome>)
    ensures |os| == |cms|
  {
    seq(|cms|, i requires 0 <= i < |cms| => (NameOf(cms[i]), convert(cms[i])))
  }

  function Outcomes(cms: seq<ConnManager>): (os: seq<Outcome>)
    ensures |os| == |cms|
  {
    OutcomesBy(ConvertSingle, cms)
  }

  /** The successful conversions, in order. */
  function KeptOf(os: seq<Outcome>): seq<PythonConnection> {
    if |os| == 0 then []
    else KeptOf(os[..|os| - 1]) + (if os[|os| - 1].1.Ok? then [os[|os| - 1].1.value] else [])
  }

  /** The failed conversions, in order: the connection's name and the exception text. */
  function FailedOf(os: seq<Outcome>): seq<(string, string)> {
    if |os| == 0 then []
    else FailedOf(os[..|os| - 1]) + (if os[|os| - 1].1.Failure? then [(os[|os| - 1].0, os[|os| - 1].1.error)] else [])
  }

  function Kept(cms: seq<ConnManager>): seq<PythonConnection> { KeptOf(Outcomes(cms)) }

  function Failed(cms: seq<ConnManager>): seq<(string, string)> { FailedOf(Outcomes(cms)) }

  /** Every outcome is either kept or reported, and nothing is reported exactly when every one succeeded. */
  lemma {:induction false} KeptOrFailedOf(os: seq<Outcome>)
    ensures |KeptOf(os)| + |FailedOf(os)| == |os|
    ensures FailedOf(os) == [] <==> forall i :: 0 <= i < |os| ==> os[i].1.Ok?
  {
    if |os| > 0 {
      var front := os[..|os| - 1];
      KeptOrFailedOf(front);
      assert forall i :: 0 <= i < |front| ==> front[i] == os[i];
    }
  }

  /** Every connection is either kept or reported; none is reported exactly when every kind has a converter. */
  lemma KeptOrFailed(cms: seq<ConnManager>)
    ensures |Kept(cms)| + |Failed(cms)| == |cms|
    ensures Failed(cms) == [] <==> forall i :: 0 <= i < |cms| ==> TypeOf(cms[i]) !in Unsupported
  {
    var os := Outcomes(cms);
    KeptOrFailedOf(os);
    assert forall i :: 0 <= i < |cms| ==> os[i].1 == ConvertSingle(cms[i]);
  }

  /** Conversion works connection by connection, so the results of consecutive runs concatenate. */
  lemma {:induction false} KeptAppendOf(a: seq<Outcome>, b: seq<Outcome>)
    ensures KeptOf(a + b) == KeptOf(a) + KeptOf(b)
    ensures FailedOf(a + b) == FailedOf(a) + FailedOf(b)
  {
    if |b| == 0 {
      assert a + b == a;
    } else {
      assert (a + b)[..|a + b| - 1] == a + b[..|b| - 1];
      assert (a + b)[|a + b| - 1] == b[|b| - 1];
      KeptAppendOf(a, b[..|b| - 1]);
    }
  }

  lemma KeptAppend(a: seq<ConnManager>, b: seq<ConnManager>)
    ensures Kept(a + b) == Kept(a) + Kept(b)
    ensures Failed(a + b) == Failed(a) + Failed(b)
  {
    assert Outcomes(a + b) == Outcomes(a) + Outcomes(b);
    KeptAppendOf(Outcomes(a), Outcomes(b));
  }

  function AllImports(conns: seq<PythonConnection>): seq<string> {
    if |conns| == 0 then [] else AllImports(conns[..|conns| - 1]) + conns[|conns| - 1].imports
  }

  function AllDependencies(conns: seq<PythonConnection>): seq<string> {
    if |conns| == 0 then [] else AllDependencies(conns[..|conns| - 1]) + conns[|conns| - 1].dependencies
  }

  lemma {:induction false} AllImportsMember(conns: seq<PythonConnection>, y: string)
    ensures y in AllImports(conns) <==> exists k :: 0 <= k < |conns| && y in conns[k].imports
    ensures y in AllDependencies(conns) <==> exists k :: 0 <= k < |conns| && y in conns[k].dependencies
  {
    if |conns| > 0 {
      var front := conns[..|conns| - 1];
      AllImportsMember(front, y);
      assert forall k :: 0 <= k < |front| ==> front[k] == conns[k];
    }
  }

  /** How many connections have one of the given kinds. */
  function CountKinds(conns: seq<PythonConnection>, kinds: seq<string>): nat {
    if |conns| == 0 then 0
    else CountKinds(conns[..|conns| - 1], kinds) + (if conns[|conns| - 1].kind in kinds then 1 else 0)
  }

  const DatabaseKinds: seq<string> := ["database", "oledb", "ado_net"]
  const FileKinds: seq<string> := ["flat_file", "excel", "xml", "file"]
  /** The web kinds as the source lists them: the converters' own kind `web` is missing. */
  const WebKindsAsWritten: seq<string> := ["http", "ftp", "smtp"]
  const WebKinds: seq<string> := ["http", "ftp", "smtp", "web"]

  datatype ConversionMetadata = ConversionMetadata(
    connectionCount: nat, databaseConnections: nat, fileConnections: nat, webConnections: nat)

  function MetadataOf(conns: seq<PythonConnection>): ConversionMetadata {
    ConversionMetadata(|conns|, CountKinds(conns, DatabaseKinds), CountKinds(conns, FileKinds), CountKinds(conns, WebKinds))
  }

  /** The metadata as the source counts it, with the web kinds it lists. */
  function MetadataAsWritten(conns: seq<PythonConnection>): ConversionMetadata {
    MetadataOf(conns).(webConnections := CountKinds(conns, WebKindsAsWritten))
  }

  /** The kinds the converters produce. */
  ghost predicate ProducedKinds(conns: seq<PythonConnection>) {
    forall k :: 0 <= k < |conns| ==> conns[k].kind in ["database", "file", "web", "unknown"]
  }

  lemma {:induction false} KeptKindsOf(os: seq<Outcome>)
    requires forall i :: 0 <= i < |os| && os[i].1.Ok? ==> os[i].1.value.kind in ["database", "file", "web", "unknown"]
    ensures ProducedKinds(KeptOf(os))
  {
    if |os| > 0 {
      KeptKindsOf(os[..|os| - 1]);
    }
  }

  lemma KeptKinds(cms: seq<ConnManager>)
    ensures ProducedKinds(Kept(cms))
  {
    var os := Outcomes(cms);
    forall i | 0 <= i < |os| && os[i].1.Ok? ensures os[i].1.value.kind in ["database", "file", "web", "unknown"] {
      ConvertSingleSpec(cms[i]);
    }
    KeptKindsOf(os);
  }

  /** The three family counts and the unknown count add up to the number of connections. */
  lemma {:induction false} CountsPartition(conns: seq<PythonConnection>)
    requires ProducedKinds(conns)
    ensures var m := MetadataOf(conns);
      m.databaseConnections + m.fileConnections + m.webConnections + CountKinds(conns, ["unknown"]) == m.connectionCount
  {
    if |conns| > 0 {
      CountsPartition(conns[..|conns| - 1]);
    }
  }

  /** Among the produced kinds, only `web` is a web kind. */
  lemma {:induction false} WebCountOnlyWeb(conns: seq<PythonConnection>)
    requires ProducedKinds(conns)
    ensures CountKinds(conns, WebKinds) == CountKinds(conns, ["web"])
  {
    if |conns| > 0 {
      WebCountOnlyWeb(conns[..|conns| - 1]);
    }
  }

  /** As written, the web count is always zero: no converter produces `http`, `ftp` or `smtp`. */
  lemma {:induction false} WebCountAsWrittenZero(conns: seq<PythonConnection>)
    requires ProducedKinds(conns)
    ensures CountKinds(conns, WebKindsAsWritten) == 0
  {
    if |conns| > 0 {
      WebCountAsWrittenZero(conns[..|conns| - 1]);
    }
  }

  /** A single connection that converts is kept as it was converted. */
  lemma KeptOne(cm: ConnManager)
    requires ConvertSingle(cm).Ok?
    ensures Kept([cm]) == [ConvertSingle(cm).value]
  {
    var os := Outcomes([cm]);
    assert os[0] == (NameOf(cm), ConvertSingle(cm));
    assert os[..0] == [];
    assert KeptOf(os) == KeptOf(os[..0]) + [os[0].1.value];
  }

  /** A connection of the HTTP kind converts to a web connection. */
  lemma HttpIsWeb(cm: ConnManager)
    requires TypeOf(cm) == Http
    ensures ConvertSingle(cm).Ok? && ConvertSingle(cm).value.kind == "web"
  {
  }

  /** One HTTP connection is a web connection, which the corrected count sees and the written one does not. */
  lemma WebCountExample()
    ensures var cms := [ConnManager(Some("Api"), Some("HTTP"), None, None, Some("http://x"))];
      MetadataOf(Kept(cms)).webConnections == 1 && CountKinds(Kept(cms), WebKindsAsWritten) == 0
  {
    var cm := ConnManager(Some("Api"), Some("HTTP"), None, None, Some("http://x"));
    HttpType();
    HttpIsWeb(cm);
    KeptOne(cm);
    var kept := Kept([cm]);
    assert kept[..0] == [];
    assert kept[0].kind == "web";
  }

  datatype ConversionResult = ConversionResult(
    connections: seq<PythonConnection>,
    imports: seq<string>,
    dependencies: seq<string>,
    errorHandling: Snippet,
    configCode: string,
    metadata: ConversionMetadata)

  /** `_generate_config_code`'s lines: a header and blank line, then four lines per connection. */
  function ConfigLines(conns: seq<PythonConnection>): (r: seq<string>)
    ensures |r| == 2 + 4 * |conns|
    ensures r[..2] == ["# Connection configurations", ""]
    ensures forall k :: 0 <= k < |conns| ==>
      r[2 + 4 * k] == "# " + conns[k].name && r[3 + 4 * k] == "# Type: " + conns[k].kind
      && r[4 + 4 * k] == "# Dependencies: " + Join(conns[k].dependencies, ", ") && r[5 + 4 * k] == ""
  {
    if |conns| == 0 then ["# Connection configurations", ""]
    else
      var c := conns[|conns| - 1];
      var front := ConfigLines(conns[..|conns| - 1]);
      var r := front + ["# " + c.name, "# Type: " + c.kind, "# Dependencies: " + Join(c.dependencies, ", "), ""];
      assert forall k :: 0 <= k < |conns| - 1 ==> conns[..|conns| - 1][k] == conns[k];
      r
  }

  /** `_generate_config_code`. */
  method GenerateConfigCode(conns: seq<PythonConnection>) returns (code: string)
    ensures code == Join(ConfigLines(conns), "\n")
  {
    var lines := ["# Connection configurations", ""];
    var i := 0;
    while i < |conns|
      invariant 0 <= i <= |conns|
      invariant lines == ConfigLines(conns[..i])
    {
      var c := conns[i];
      assert conns[..i + 1][..i] == conns[..i];
      lines := lines + ["# " + c.name, "# Type: " + c.kind, "# Dependencies: " + Join(c.dependencies, ", "), ""];
      i := i + 1;
    }
    assert conns[..i] == conns;
    code := Join(lines, "\n");
  }

  /** The result `convert_connections` returns once every connection has been tried. */
  function ConversionOf(cms: seq<ConnManager>): (r: ConversionResult)
    ensures StrictlySorted(r.imports) && StrictlySorted(r.dependencies)
    ensures forall y :: y in r.imports <==> exists k :: 0 <= k < |r.connections| && y in r.connections[k].imports
    ensures forall y :: y in r.dependencies <==> exists k :: 0 <= k < |r.connections| && y in r.connections[k].dependencies
    ensures r.connections == Kept(cms)
    ensures r.metadata.connectionCount == |r.connections| == |cms| - |Failed(cms)|
    ensures r.metadata.databaseConnections + r.metadata.fileConnections + r.metadata.webConnections
            + CountKinds(r.connections, ["unknown"]) == r.metadata.connectionCount
    ensures r.metadata.webConnections == CountKinds(r.connections, ["web"])
    ensures r.configCode == Join(ConfigLines(r.connections), "\n")
  {
    var kept := Kept(cms);
    AllImportsMembers(kept);
    KeptOrFailed(cms);
    MetadataOfKept(cms);
    ConversionResult(kept, SortedSet(AllImports(kept)), SortedSet(AllDependencies(kept)),
                     Snippet(ErrorHandlingCode, "handle_connection_error"), Join(ConfigLines(kept), "\n"),
                     MetadataOf(kept))
  }

  /** The collected imports and dependencies are those of some connection. */
  lemma AllImportsMembers(conns: seq<PythonConnection>)
    ensures forall y :: y in AllImports(conns) <==> exists k :: 0 <= k < |conns| && y in conns[k].imports
    ensures forall y :: y in AllDependencies(conns) <==> exists k :: 0 <= k < |conns| && y in conns[k].dependencies
  {
    forall y ensures (y in AllImports(conns) <==> exists k :: 0 <= k < |conns| && y in conns[k].imports)
                     && (y in AllDependencies(conns) <==> exists k :: 0 <= k < |conns| && y in conns[k].dependencies) {
      AllImportsMember(conns, y);
    }
  }

  /** The counts of the kept connections: the families and the unknowns partition them, and the web ones are of kind `web`. */
  lemma MetadataOfKept(cms: seq<ConnManager>)
    ensures var m := MetadataOf(Kept(cms));
      m.databaseConnections + m.fileConnections + m.webConnections + CountKinds(Kept(cms), ["unknown"]) == m.connectionCount
      && m.webConnections == CountKinds(Kept(cms), ["web"])
  {
    KeptKinds(cms);
    CountsPartition(Kept(cms));
    WebCountOnlyWeb(Kept(cms));
  }

  /**
   * The result as the source builds it: the corrected result, except that
   * the web count is always zero.
   */
  function ConversionAsWritten(cms: seq<ConnManager>): (r: ConversionResult)
    ensures r.metadata.webConnections == 0
    ensures r == ConversionOf(cms).(metadata := ConversionOf(cms).metadata.(webConnections := 0))
  {
    KeptKinds(cms);
    WebCountAsWrittenZero(Kept(cms));
    ConversionOf(cms).(metadata := MetadataAsWritten(Kept(cms)))
  }

  // ------------------------------------------------------- failure reports

  /** The error recorded for a skipped connection. */
  function SkipError(f: (string, string)): Error {
    ConversionErr("Failed to convert connection " + f.0 + ": " + f.1, Some("ConnectionConverter"), Medium)
  }

  function SkipContext(): ErrorContext {
    CreateErrorContext(component := Some("ConnectionConverter"), operation := Some("convert_single_connection"))
  }

  /** The reports for a run of skipped connections, numbered from `start`. */
  function SkipReports(fails: seq<(string, string)>, now: Stamp, start: nat): (r: seq<ErrorReport>)
    ensures |r| == |fails|
  {
    seq(|fails|, i requires 0 <= i < |fails| =>
      BuildReport(SkipError(fails[i]), Some(SkipContext()), None, None, [], None, now, start + i))
  }

  lemma SkipReportsSnoc(fails: seq<(string, string)>, f: (string, string), now: Stamp, start: nat)
    ensures SkipReports(fails + [f], now, start)
         == SkipReports(fails, now, start)
            + [BuildReport(SkipError(f), Some(SkipContext()), None, None, [], None, now, start + |fails|)]
  {
  }

  /** The per-connection handler: one report for the skipped connection `f`. */
  method RecordSkip(h: ErrorHandler, f: (string, string), ghost fails: seq<(string, string)>,
                    ghost base: seq<ErrorReport>, ghost start: nat, now: Stamp)
    requires h.Valid() && h.reports == base + SkipReports(fails, now, start) && h.errorCount == start + |fails|
    modifies h
    ensures h.Valid() && h.reports == base + SkipReports(fails + [f], now, start) && h.errorCount == start + |fails| + 1
  {
    SkipReportsSnoc(fails, f, now, start);
    var report := h.HandleError(SkipError(f), Some(SkipContext()), None, None, [], None, now);
  }

  /**
   * `convert_connections` with the per-connection handler able to record:
   * each failing connection adds one MEDIUM conversion report and is skipped.
   */
  method ConvertConnections(h: ErrorHandler, cms: seq<ConnManager>, now: Stamp) returns (r: ConversionResult)
    requires h.Valid()
    modifies h
    ensures h.Valid()
    ensures r == ConversionOf(cms)
    ensures h.reports == old(h.reports) + SkipReports(Failed(cms), now, old(h.errorCount))
    ensures h.errorCount == old(h.errorCount) + |Failed(cms)|
  {
    var conns, imports, dependencies := ConvertEach(h, cms, ConvertSingle, now);
    var config := GenerateConfigCode(conns);
    r := ConversionResult(conns, SortedSet(imports), SortedSet(dependencies),
                          Snippet(ErrorHandlingCode, "handle_connection_error"), config, MetadataOf(conns));
  }

  /**
   * The loop of `convert_connections`, for the per-connection converter
   * `convert`: convert each connection, keep it or record why it was skipped.
   */
  method ConvertEach(h: ErrorHandler, cms: seq<ConnManager>, convert: ConnManager -> Result<PythonConnection, string>, now: Stamp)
    returns (conns: seq<PythonConnection>, imports: seq<string>, dependencies: seq<string>)
    requires h.Valid()
    modifies h
    ensures h.Valid()
    ensures var os := OutcomesBy(convert, cms);
      conns == KeptOf(os) && imports == AllImports(conns) && dependencies == AllDependencies(conns)
      && h.reports == old(h.reports) + SkipReports(FailedOf(os), now, old(h.errorCount))
      && h.errorCount == old(h.errorCount) + |FailedOf(os)|
  {
    conns, imports, dependencies := [], [], [];
    ghost var os := OutcomesBy(convert, cms);
    var i := 0;
    while i < |cms|
      invariant 0 <= i <= |cms| && h.Valid()
      invariant conns == KeptOf(os[..i]) && imports == AllImports(conns) && dependencies == AllDependencies(conns)
      invariant h.reports == old(h.reports) + SkipReports(FailedOf(os[..i]), now, old(h.errorCount))
      invariant h.errorCount == old(h.errorCount) + |FailedOf(os[..i])|
    {
      assert os[..i + 1] == os[..i] + [os[i]];
      conns, imports, dependencies := ConvertNext(h, cms[i], convert, os[..i], conns, imports, dependencies,
                                                  old(h.reports), old(h.errorCount), now);
      i := i + 1;
    }
    assert os[..i] == os;
  }

  /** One turn of the loop: convert `cm`, then keep the connection or record why it was skipped. */
  method ConvertNext(h: ErrorHandler, cm: ConnManager, convert: ConnManager -> Result<PythonConnection, string>,
                     ghost done: seq<Outcome>,
                     conns: seq<PythonConnection>, imports: seq<string>, dependencies: seq<string>,
                     ghost base: seq<ErrorReport>, ghost start: nat, now: Stamp)
    returns (conns': seq<PythonConnection>, imports': seq<string>, dependencies': seq<string>)
    requires h.Valid() && conns == KeptOf(done) && imports == AllImports(conns) && dependencies == AllDependencies(conns)
    requires h.reports == base + SkipReports(FailedOf(done), now, start) && h.errorCount == start + |FailedOf(done)|
    modifies h
    ensures var all := done + [(NameOf(cm), convert(cm))];
      h.Valid() && conns' == KeptOf(all) && imports' == AllImports(conns') && dependencies' == AllDependencies(conns')
      && h.reports == base + SkipReports(FailedOf(all), now, start) && h.errorCount == start + |FailedOf(all)|
  {
    var c := convert(cm);
    OutcomeSnoc(done, (NameOf(cm), c));
    if c.Ok? {
      conns', imports', dependencies' := conns + [c.value], imports + c.value.imports, dependencies + c.value.dependencies;
      CollectedSnoc(conns, c.value);
    } else {
      conns', imports', dependencies' := conns, imports, dependencies;
      RecordSkip(h, (NameOf(cm), c.error), FailedOf(done), base, start, now);
    }
  }

  /** One more outcome adds its connection to the kept ones, or its failure to the failed ones. */
  lemma OutcomeSnoc(done: seq<Outcome>, o: Outcome)
    ensures KeptOf(done + [o]) == KeptOf(done) + (if o.1.Ok? then [o.1.value] else [])
    ensures FailedOf(done + [o]) == FailedOf(done) + (if o.1.Failure? then [(o.0, o.1.error)] else [])
  {
    assert (done + [o])[..|done|] == done;
  }

  /** One more kept connection adds its imports and dependencies at the end. */
  lemma CollectedSnoc(conns: seq<PythonConnection>, p: PythonConnection)
    ensures AllImports(conns + [p]) == AllImports(conns) + p.imports
    ensures AllDependencies(conns + [p]) == AllDependencies(conns) + p.dependencies
  {
    assert (conns + [p])[..|conns|] == conns;
  }

  /** The `TypeError` the per-connection handler raises: `create_error_context` has no `connection_name` parameter. */
  const ContextTypeError := "create_error_context() got an unexpected keyword argument 'connection_name'"

  /** The report the outer handler records when a connection fails. */
  function OuterError(): Error {
    ConversionErr("Failed to convert connections: " + ContextTypeError, Some("ConnectionConverter"), High)
  }

  function OuterContext(): ErrorContext {
    CreateErrorContext(component := Some("ConnectionConverter"), operation := Some("convert_connections"))
  }

  /**
   * `convert_connections` as written: the first failing connection makes the
   * per-connection handler raise, so only the outer HIGH report is recorded
   * and the call raises (None) instead of skipping the connection.
   */
  method ConvertConnectionsAsWritten(h: ErrorHandler, cms: seq<ConnManager>, now: Stamp)
    returns (r: Option<ConversionResult>)
    requires h.Valid()
    modifies h
    ensures h.Valid()
    ensures r.Some? <==> Failed(cms) == []
    ensures r.Some? ==> r.value == ConversionAsWritten(cms) && h.reports == old(h.reports)
    ensures r.None? ==>
      h.reports == old(h.reports) + [BuildReport(OuterError(), Some(OuterContext()), None, None, [], None, now, old(h.errorCount))]
  {
    var conns, imports, dependencies, ok := ConvertUntilFailure(h, cms, ConvertSingle, now);
    if !ok {
      return None;
    }
    var config := GenerateConfigCode(conns);
    r := Some(ConversionResult(conns, SortedSet(imports), SortedSet(dependencies),
                               Snippet(ErrorHandlingCode, "handle_connection_error"), config, MetadataAsWritten(conns)));
  }

  /** One failed outcome makes the whole run a failed one. */
  lemma FailureIsFailed(os: seq<Outcome>, i: nat)
    requires i < |os| && os[i].1.Failure?
    ensures FailedOf(os) != []
  {
    assert os[..i + 1][..i] == os[..i];
    assert FailedOf(os[..i + 1]) == FailedOf(os[..i]) + [(os[i].0, os[i].1.error)];
    KeptAppendOf(os[..i + 1], os[i + 1..]);
    assert os[..i + 1] + os[i + 1..] == os;
  }

  /** The loop as written: it stops at the first failure, which the outer handler records. */
  method ConvertUntilFailure(h: ErrorHandler, cms: seq<ConnManager>, convert: ConnManager -> Result<PythonConnection, string>,
                             now: Stamp)
    returns (conns: seq<PythonConnection>, imports: seq<string>, dependencies: seq<string>, ok: bool)
    requires h.Valid()
    modifies h
    ensures h.Valid()
    ensures var os := OutcomesBy(convert, cms);
      (ok <==> FailedOf(os) == [])
      && (ok ==> conns == KeptOf(os) && imports == AllImports(conns) && dependencies == AllDependencies(conns)
                 && h.reports == old(h.reports))
      && (!ok ==>
            h.reports == old(h.reports) + [BuildReport(OuterError(), Some(OuterContext()), None, None, [], None, now, old(h.errorCount))])
  {
    conns, imports, dependencies, ok := KeepUntilFailure(cms, convert);
    if !ok {
      ReportOuterFailure(h, now);
    }
  }

  /** The loop body's conversions, up to the first one that raises. */
  method KeepUntilFailure(cms: seq<ConnManager>, convert: ConnManager -> Result<PythonConnection, string>)
    returns (conns: seq<PythonConnection>, imports: seq<string>, dependencies: seq<string>, ok: bool)
    ensures var os := OutcomesBy(convert, cms);
      (ok <==> FailedOf(os) == [])
      && (ok ==> conns == KeptOf(os) && imports == AllImports(conns) && dependencies == AllDependencies(conns))
  {
    conns, imports, dependencies := [], [], [];
    ghost var os := OutcomesBy(convert, cms);
    var i := 0;
    while i < |cms|
      invariant 0 <= i <= |cms|
      invariant conns == KeptOf(os[..i]) && FailedOf(os[..i]) == []
      invariant imports == AllImports(conns) && dependencies == AllDependencies(conns)
    {
      assert os[..i + 1] == os[..i] + [os[i]];
      var c := convert(cms[i]);
      if c.Failure? {
        FailureIsFailed(os, i);
        return conns, imports, dependencies, false;
      }
      conns, imports, dependencies := KeepNext(c.value, os[..i], os[i], conns, imports, dependencies);
      i := i + 1;
    }
    assert os[..i] == os;
    ok := true;
  }

  /** A converted connection joins the kept ones, and its imports and dependencies the collected ones. */
  method KeepNext(p: PythonConnection, ghost done: seq<Outcome>, ghost o: Outcome,
                  conns: seq<PythonConnection>, imports: seq<string>, dependencies: seq<string>)
    returns (conns': seq<PythonConnection>, imports': seq<string>, dependencies': seq<string>)
    requires o.1 == Ok(p) && conns == KeptOf(done) && FailedOf(done) == []
    requires imports == AllImports(conns) && dependencies == AllDependencies(conns)
    ensures conns' == KeptOf(done + [o]) && FailedOf(done + [o]) == []
    ensures imports' == AllImports(conns') && dependencies' == AllDependencies(conns')
  {
    conns', imports', dependencies' := conns + [p], imports + p.imports, dependencies + p.dependencies;
    OutcomeSnoc(done, o);
    CollectedSnoc(conns, p);
  }

  /** The outer handler's single HIGH report. */
  method ReportOuterFailure(h: ErrorHandler, now: Stamp)
    requires h.Valid()
    modifies h
    ensures h.Valid()
    ensures h.reports == old(h.reports) + [BuildReport(OuterError(), Some(OuterContext()), None, None, [], None, now, old(h.errorCount))]
  {
    var report := h.HandleError(OuterError(), Some(OuterContext()), None, None, [], None, now);
  }
}
