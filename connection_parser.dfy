// Connection managers of a package: the flat record built from a
// `DTS:ConnectionManager` element, the connection-string splitter, the
// three connection families and the summary record.
module ConnectionParser {
  import opened Wrappers
  import opened Strs
  import opened Xml
  import Assoc
  import Properties

  /** The last dot-segment of a creation name, mapped to a readable type. */
  const ConnectionTypes: map<string, string> := map[
    "OLEDB" := "OLE DB Connection",
    "FLATFILE" := "Flat File Connection",
    "EXCEL" := "Excel Connection",
    "FTP" := "FTP Connection",
    "HTTP" := "HTTP Connection",
    "SMTP" := "SMTP Connection",
    "WMI" := "WMI Connection",
    "MSMQ" := "MSMQ Connection",
    "FILE" := "File Connection",
    "CACHE" := "Cache Connection"]

  datatype ConnectionInfo = ConnectionInfo(
    id: string,
    name: string,
    connType: string,
    creationName: string,
    connectionString: string,
    properties: map<string, string>,
    objectData: map<string, string>,
    description: string,
    retainSameConnection: bool)

  /** `_get_connection_type`. */
  function GetConnectionType(creationName: string): (r: string)
    ensures '.' !in creationName ==> r == creationName
    ensures '.' in creationName ==> '.' !in r
  {
    if '.' in creationName then
      var parts := Split(creationName, '.');
      SplitPiecesFree(creationName, '.');
      var seg := parts[|parts| - 1];
      if seg in ConnectionTypes then ConnectionTypes[seg] else seg
    else creationName
  }

  /**
   * With a dot, the type is the table entry for the part after the last dot,
   * or that part itself; without a dot the creation name is returned as is.
   */
  lemma GetConnectionTypeSpec(prefix: string, seg: string, plain: string)
    requires '.' !in seg && '.' !in plain
    ensures GetConnectionType(prefix + "." + seg) == if seg in ConnectionTypes then ConnectionTypes[seg] else seg
    ensures GetConnectionType(plain) == plain
  {
    LastDottedPart(prefix, seg);
  }

  /** The part after the last dot of `prefix.seg`, when `seg` has no dot, is `seg`. */
  lemma LastDottedPart(prefix: string, seg: string)
    requires '.' !in seg
    ensures var s := prefix + "." + seg; var parts := Split(s, '.');
      '.' in s && parts[|parts| - 1] == seg
  {
    var s := prefix + "." + seg;
    assert s == prefix + ['.'] + seg;
    assert s[|prefix|] == '.';
    SplitLast(prefix, '.', seg);
  }

  // ------------------------------------------------------------ properties

  /** `_parse_connection_properties`: every `DTS:Property` below the element. */
  method ParseConnectionProperties(e: Element) returns (d: map<string, string>)
    ensures d == Assoc.Fold(map[], Properties.PropertyEntries(Descendants(e, Dts("Property"))))
  {
    d := Properties.ParseProperties(e);
  }

  /** The nested connection manager inside `DTS:ObjectData`, if both are there. */
  function NestedConnection(e: Element): Option<Element> {
    match FindEither(e, Dts("ObjectData"), "ObjectData")
    case None => None
    case Some(od) => FindEither(od, Dts("ConnectionManager"), "ConnectionManager")
  }

  /** `_parse_connection_object_data`. */
  method ParseConnectionObjectData(e: Element) returns (d: map<string, string>)
    ensures NestedConnection(e).None? ==> d == map[]
    ensures NestedConnection(e).Some? ==>
      var n := NestedConnection(e).value;
      d == Assoc.Fold(map["nested_connection_string" := DtsAttr(n, "ConnectionString")],
                      Properties.PropertyEntries(FindAll(n.children, Dts("Property"))))
  {
    d := map[];
    var od := FindEither(e, Dts("ObjectData"), "ObjectData");
    if od.Some? {
      var nested := FindEither(od.value, Dts("ConnectionManager"), "ConnectionManager");
      if nested.Some? {
        d := d["nested_connection_string" := DtsAttr(nested.value, "ConnectionString")];
        d := Properties.FillProperties(d, FindAll(nested.value.children, Dts("Property")));
      }
    }
  }

  // ----------------------------------------------------- connection strings

  /** What one `;`-separated piece contributes: stripped key and value around its first `=`. */
  function ParamEntry(part: string): Option<(string, string)> {
    if '=' in part then
      var kv := SplitFirst(part, '=');
      Some((Strip(kv.0), Strip(kv.1)))
    else None
  }

  function ParamEntries(parts: seq<string>): (r: seq<Option<(string, string)>>)
    ensures |r| == |parts|
  {
    seq(|parts|, i requires 0 <= i < |parts| => ParamEntry(parts[i]))
  }

  lemma ParamEntriesSnoc(parts: seq<string>, i: nat)
    requires i < |parts|
    ensures ParamEntries(parts[..i + 1]) == ParamEntries(parts[..i]) + [ParamEntry(parts[i])]
  {
    assert parts[..i + 1][..i] == parts[..i];
  }

  /** What `extract_connection_parameters` returns. */
  function ConnectionParameters(cs: string): map<string, string> {
    if cs == "" then map[] else Assoc.Fold(map[], ParamEntries(Split(cs, ';')))
  }

  /** The loop of `extract_connection_parameters` over the `;`-separated pieces. */
  method FillParameters(parts: seq<string>) returns (params: map<string, string>)
    ensures params == Assoc.Fold(map[], ParamEntries(parts))
  {
    params := map[];
    var i := 0;
    while i < |parts|
      invariant 0 <= i <= |parts|
      invariant params == Assoc.Fold(map[], ParamEntries(parts[..i]))
    {
      var part := parts[i];
      ParamEntriesSnoc(parts, i);
      Assoc.FoldSnoc(map[], ParamEntries(parts[..i]), ParamEntry(part));
      if '=' in part {
        var kv := SplitFirst(part, '=');
        params := params[Strip(kv.0) := Strip(kv.1)];
      }
      i := i + 1;
    }
    assert parts[..i] == parts;
  }

  /** `extract_connection_parameters`. */
  method ExtractConnectionParameters(cs: string) returns (params: map<string, string>)
    ensures params == ConnectionParameters(cs)
  {
    if cs == "" {
      params := map[];
    } else {
      params := FillParameters(Split(cs, ';'));
    }
  }

  /** No leading or trailing whitespace, so `strip()` leaves it alone. */
  predicate Trimmed(s: string) {
    |s| == 0 || (!IsSpace(s[0]) && !IsSpace(s[|s| - 1]))
  }

  lemma StripTrimmed(s: string)
    requires Trimmed(s)
    ensures Strip(s) == s
  {
    assert StripLeft(s) == s;
    assert StripRight(s) == s;
  }

  /** A pair the splitter reads back: a key without `;` or `=`, a value without `;`. */
  predicate Renderable(kv: (string, string)) {
    ';' !in kv.0 && '=' !in kv.0 && ';' !in kv.1 && Trimmed(kv.0) && Trimmed(kv.1)
  }

  /** `";".join(f"{k}={v}" for k, v in pairs)`. */
  function Render(pairs: seq<(string, string)>): string {
    Join(Pieces(pairs), ";")
  }

  function Pieces(pairs: seq<(string, string)>): (r: seq<string>)
    ensures |r| == |pairs|
  {
    seq(|pairs|, i requires 0 <= i < |pairs| => pairs[i].0 + "=" + pairs[i].1)
  }

  /** One rendered pair is read back as itself. */
  lemma PieceEntry(kv: (string, string))
    requires Renderable(kv)
    ensures ParamEntry(kv.0 + "=" + kv.1) == Some(kv)
    ensures ';' !in kv.0 + "=" + kv.1
  {
    assert kv.0 + "=" + kv.1 == kv.0 + ['='] + kv.1;
    SplitFirstOf(kv.0, '=', kv.1);
    StripTrimmed(kv.0);
    StripTrimmed(kv.1);
  }

  /**
   * Splitting a rendered connection string gives back its pairs, later
   * duplicate keys overwriting earlier ones.
   */
  lemma ParametersOfRendered(pairs: seq<(string, string)>)
    requires forall i :: 0 <= i < |pairs| ==> Renderable(pairs[i])
    ensures ConnectionParameters(Render(pairs)) == Assoc.Fold(map[], seq(|pairs|, i requires 0 <= i < |pairs| => Some(pairs[i])))
  {
    var pieces := Pieces(pairs);
    var want := seq(|pairs|, i requires 0 <= i < |pairs| => Some(pairs[i]));
    assert Render(pairs) == Join(pieces, ";");
    if |pairs| == 0 {
      assert want == [];
    } else {
      forall k | 0 <= k < |pieces| ensures ';' !in pieces[k] && ParamEntry(pieces[k]) == want[k] {
        PieceEntry(pairs[k]);
      }
      SplitJoin(pieces, ';');
      assert |pieces[0]| > 0;
      NonEmptyJoin(pieces, ";");
      assert ParamEntries(pieces) == want;
    }
  }

  lemma {:induction false} NonEmptyJoin(parts: seq<string>, sep: string)
    requires |parts| > 0 && |parts[0]| > 0
    ensures Join(parts, sep) != ""
  {
    if |parts| > 1 {
      assert Join(parts, sep) == parts[0] + sep + Join(parts[1..], sep);
    }
  }

  /** The empty connection string and a string without `=` give no parameters. */
  lemma ParametersOfPlainText(cs: string)
    requires '=' !in cs
    ensures ConnectionParameters(cs) == map[]
  {
    if cs != "" {
      var parts := Split(cs, ';');
      JoinSplit(cs, ';');
      forall k | 0 <= k < |parts| ensures ParamEntry(parts[k]) == None {
        if '=' in parts[k] {
          JoinedPieceInside(parts, k);
        }
      }
      EmptyFold(ParamEntries(parts));
    }
  }

  /** A character of one piece is a character of the joined string. */
  lemma {:induction false} JoinedPieceInside(parts: seq<string>, k: nat)
    requires k < |parts|
    ensures forall c :: c in parts[k] ==> c in Join(parts, ";")
  {
    if |parts| > 1 {
      assert Join(parts, ";") == parts[0] + ";" + Join(parts[1..], ";");
      if k > 0 {
        JoinedPieceInside(parts[1..], k - 1);
      }
    }
  }

  lemma {:induction false} EmptyFold(es: seq<Option<(string, string)>>)
    requires forall k :: 0 <= k < |es| ==> es[k].None?
    ensures Assoc.Fold(map[], es) == map[]
  {
    if |es| > 0 {
      EmptyFold(es[..|es| - 1]);
    }
  }

  // --------------------------------------------------------------- records

  /** The nested connection's table: its connection string, then its own properties. */
  function ObjectData(e: Element): map<string, string> {
    match NestedConnection(e)
    case None => map[]
    case Some(n) =>
      Assoc.Fold(map["nested_connection_string" := DtsAttr(n, "ConnectionString")],
                 Properties.PropertyEntries(FindAll(n.children, Dts("Property"))))
  }

  /** The record `parse_connection_manager` builds. */
  function Connection(e: Element): ConnectionInfo {
    var creation := DtsAttr(e, "CreationName");
    ConnectionInfo(
      DtsAttr(e, "DTSID"), DtsAttr(e, "ObjectName"), GetConnectionType(creation), creation,
      DtsAttr(e, "ConnectionString"), Assoc.Fold(map[], Properties.PropertyEntries(Descendants(e, Dts("Property")))),
      ObjectData(e), DtsAttr(e, "Description"), Lower(DtsAttr(e, "RetainSameConnection")) == "true")
  }

  /** Where each field of a connection record comes from; without a nested connection there is no object data. */
  lemma ConnectionFields(e: Element)
    ensures var info := Connection(e);
      info.id == DtsAttr(e, "DTSID") && info.name == DtsAttr(e, "ObjectName")
      && info.creationName == DtsAttr(e, "CreationName")
      && info.connType == GetConnectionType(info.creationName)
      && info.connectionString == DtsAttr(e, "ConnectionString")
      && info.properties == Assoc.Fold(map[], Properties.PropertyEntries(Descendants(e, Dts("Property"))))
      && (NestedConnection(e).None? ==> info.objectData == map[])
      && info.description == DtsAttr(e, "Description")
      && (info.retainSameConnection <==> Lower(DtsAttr(e, "RetainSameConnection")) == "true")
  {
  }

  /** `parse_connection_manager`. */
  method ParseConnectionManager(e: Element) returns (info: ConnectionInfo)
    ensures info == Connection(e)
  {
    var creation := DtsAttr(e, "CreationName");
    var props := ParseConnectionProperties(e);
    var objectData := ParseConnectionObjectData(e);
    info := ConnectionInfo(
      DtsAttr(e, "DTSID"), DtsAttr(e, "ObjectName"), GetConnectionType(creation), creation,
      DtsAttr(e, "ConnectionString"), props, objectData, DtsAttr(e, "Description"),
      Lower(DtsAttr(e, "RetainSameConnection")) == "true");
  }

  /** `RetainSameConnection` is read case-insensitively. */
  lemma RetainSameConnectionExamples()
    ensures Lower("TRUE") == "true" && Lower("True") == "true" && Lower("1") != "true"
  {
  }

  // -------------------------------------------------------------- families

  const DatabaseTypes := ["OLE DB Connection", "ADO.NET Connection", "ODBC Connection"]
  const FileTypes := ["Flat File Connection", "Excel Connection", "File Connection"]
  const WebTypes := ["HTTP Connection", "FTP Connection", "SMTP Connection"]

  predicate IsDatabaseConnection(t: string) { t in DatabaseTypes }
  predicate IsFileConnection(t: string) { t in FileTypes }
  predicate IsWebConnection(t: string) { t in WebTypes }

  /** The three lists are disjoint, so a type belongs to at most one family. */
  lemma AtMostOneFamily(t: string)
    ensures !(IsDatabaseConnection(t) && IsFileConnection(t))
    ensures !(IsDatabaseConnection(t) && IsWebConnection(t))
    ensures !(IsFileConnection(t) && IsWebConnection(t))
  {
  }

  datatype ConnectionSummary = ConnectionSummary(
    name: string, connType: string, connectionString: string, parameters: map<string, string>,
    isDatabase: bool, isFile: bool, isWeb: bool)

  /** `get_connection_summary` for a parsed record. */
  method GetConnectionSummary(info: ConnectionInfo) returns (s: ConnectionSummary)
    ensures s.name == info.name && s.connType == info.connType && s.connectionString == info.connectionString
    ensures s.parameters == ConnectionParameters(info.connectionString)
    ensures s.isDatabase == IsDatabaseConnection(info.connType)
    ensures s.isFile == IsFileConnection(info.connType)
    ensures s.isWeb == IsWebConnection(info.connType)
    ensures !(s.isDatabase && s.isFile) && !(s.isDatabase && s.isWeb) && !(s.isFile && s.isWeb)
  {
    var params := ExtractConnectionParameters(info.connectionString);
    AtMostOneFamily(info.connType);
    s := ConnectionSummary(info.name, info.connType, info.connectionString, params,
                           IsDatabaseConnection(info.connType), IsFileConnection(info.connType),
                           IsWebConnection(info.connType));
  }
}
