// Data-flow components: the class-id table, the record built from a
// `pipeline:component` element with its properties, input and output ports
// and their columns. Child elements are looked up through the pipeline
// namespace, but attributes through literal `pipeline:`-prefixed keys.
module ComponentParser {
  import opened Wrappers
  import opened Strs
  import opened Xml
  import Assoc

  /**
   * The class-id table, written as the dictionary display it comes from:
   * three ids occur twice, and the later (destination) entry wins.
   */
  const ComponentTypes: map<string, string> := map[
    "{E9216C7C-4A8A-4F77-8948-60C5D8C75F70}" := "OLE DB Source",
    "{A560E93D-4177-4C8B-9F5F-96F8FD959C4B}" := "Flat File Source",
    "{C27664E8-786E-4EB0-9A94-D2CCF1AFE4EE}" := "Excel Source",
    "{C8C8C883-0E37-4C98-A094-E4B6BB9E42B5}" := "XML Source",
    "{E9216C7C-4A8A-4F77-8948-60C5D8C75F70}" := "OLE DB Destination",
    "{A560E93D-4177-4C8B-9F5F-96F8FD959C4B}" := "Flat File Destination",
    "{C27664E8-786E-4EB0-9A94-D2CCF1AFE4EE}" := "Excel Destination",
    "{C9C7375C-8340-4F56-A550-919B1E4F4C66}" := "Derived Column",
    "{149447B8-8A7C-4FC7-B4E6-5DD2687916C1}" := "Data Conversion",
    "{1E7B0B8A-8A7C-4FC7-B4E6-5DD2687916C1}" := "Lookup",
    "{2E7B0B8A-8A7C-4FC7-B4E6-5DD2687916C1}" := "Merge Join",
    "{3E7B0B8A-8A7C-4FC7-B4E6-5DD2687916C1}" := "Union All",
    "{4E7B0B8A-8A7C-4FC7-B4E6-5DD2687916C1}" := "Sort",
    "{5E7B0B8A-8A7C-4FC7-B4E6-5DD2687916C1}" := "Aggregate",
    "{6E7B0B8A-8A7C-4FC7-B4E6-5DD2687916C1}" := "Conditional Split",
    "{7E7B0B8A-8A7C-4FC7-B4E6-5DD2687916C1}" := "Multicast",
    "{8E7B0B8A-8A7C-4FC7-B4E6-5DD2687916C1}" := "Script Component"]

  datatype ColumnInfo = ColumnInfo(
    name: string,
    description: string,
    lineageId: string,
    dataType: string,
    precision: int,
    scale: int,
    length: int,
    externalMetadataColumnName: string,
    expression: string)

  datatype PortInfo = PortInfo(
    name: string,
    description: string,
    id: string,
    isErrorOut: bool,
    isSorted: bool,
    synchronous: bool,
    columns: seq<ColumnInfo>)

  datatype ComponentInfo = ComponentInfo(
    id: string,
    name: string,
    description: string,
    componentType: string,
    properties: map<string, string>,
    inputs: seq<PortInfo>,
    outputs: seq<PortInfo>,
    version: string,
    creationName: string)

  datatype IoType = Input | Output {
    /** `io_type`. */
    function Word(): string {
      match this
      case Input => "input"
      case Output => "output"
    }

    /** `io_type.capitalize()`. */
    function Capitalized(): string {
      match this
      case Input => "Input"
      case Output => "Output"
    }
  }

  /** A child tag `pipeline:local`, resolved through the namespace table. */
  function Pipe(local: string): string {
    Qualified(PipelineUri, local)
  }

  /** `element.get('pipeline:' + local, default)`: a literal attribute key, not a namespaced one. */
  function Attr(e: Element, local: string, default: string): string {
    Get(e, "pipeline:" + local, default)
  }

  /** `get_component_type_name`. */
  function ComponentTypeName(id: string): (r: string)
    ensures r == "Unknown" <==> id !in ComponentTypes
  {
    if id in ComponentTypes then ComponentTypes[id] else "Unknown"
  }

  /** The repeated ids resolve to the destination names, and an unknown id to `Unknown`. */
  lemma ComponentTypeNameExamples()
    ensures ComponentTypeName("{E9216C7C-4A8A-4F77-8948-60C5D8C75F70}") == "OLE DB Destination"
    ensures ComponentTypeName("{A560E93D-4177-4C8B-9F5F-96F8FD959C4B}") == "Flat File Destination"
    ensures ComponentTypeName("{C27664E8-786E-4EB0-9A94-D2CCF1AFE4EE}") == "Excel Destination"
    ensures ComponentTypeName("") == "Unknown"
  {
  }

  /** Because of the repeated ids, no id yields the OLE DB, flat-file or Excel source names. */
  lemma ShadowedSourceNames(id: string)
    ensures ComponentTypeName(id) != "OLE DB Source"
    ensures ComponentTypeName(id) != "Flat File Source"
    ensures ComponentTypeName(id) != "Excel Source"
  {
  }

  // ------------------------------------------------------------ properties

  /** What one `pipeline:property` contributes: its name and value, if the name is not empty. */
  function PropertyEntry(p: Element): Option<(string, string)> {
    var n := Attr(p, "name", "");
    if n != "" then Some((n, Attr(p, "value", ""))) else None
  }

  function PropertyEntries(ps: seq<Element>): (r: seq<Option<(string, string)>>)
    ensures |r| == |ps|
  {
    seq(|ps|, i requires 0 <= i < |ps| => PropertyEntry(ps[i]))
  }

  /** The `pipeline:property` children of the `pipeline:properties` child, if there is one. */
  function PropertyElements(comp: Element): seq<Element> {
    match FindChild(comp, Pipe("properties"))
    case None => []
    case Some(ps) => FindAll(ps.children, Pipe("property"))
  }

  /** `_parse_component_properties`. */
  method ParseComponentProperties(comp: Element) returns (d: map<string, string>)
    ensures d == Assoc.Fold(map[], PropertyEntries(PropertyElements(comp)))
  {
    d := map[];
    var section := FindChild(comp, Pipe("properties"));
    if section.None? {
      return;
    }
    var elems := FindAll(section.value.children, Pipe("property"));
    var i := 0;
    while i < |elems|
      invariant 0 <= i <= |elems|
      invariant d == Assoc.Fold(map[], PropertyEntries(elems[..i]))
    {
      assert PropertyEntries(elems[..i + 1]) == PropertyEntries(elems[..i]) + [PropertyEntry(elems[i])];
      Assoc.FoldSnoc(map[], PropertyEntries(elems[..i]), PropertyEntry(elems[i]));
      var name := Attr(elems[i], "name", "");
      if name != "" {
        d := d[name := Attr(elems[i], "value", "")];
      }
      i := i + 1;
    }
    assert elems[..i] == elems;
  }

  /**
   * A property with a non-empty name is kept with the value of its last
   * occurrence, and nothing else is kept.
   */
  lemma PropertiesLastWins(elems: seq<Element>, i: nat, k: string)
    requires i < |elems| && Attr(elems[i], "name", "") != ""
    requires forall j :: i < j < |elems| ==> Attr(elems[j], "name", "") != Attr(elems[i], "name", "")
    ensures var d := Assoc.Fold(map[], PropertyEntries(elems));
      Attr(elems[i], "name", "") in d && d[Attr(elems[i], "name", "")] == Attr(elems[i], "value", "")
    ensures k in Assoc.Fold(map[], PropertyEntries(elems)) ==>
      k != "" && exists j :: 0 <= j < |elems| && Attr(elems[j], "name", "") == k
  {
    var es := PropertyEntries(elems);
    forall j | i < j < |es| ensures !Assoc.WritesKey(es, j, es[i].value.0) {
    }
    Assoc.FoldLastWins(map[], es, i);
    Assoc.FoldKeys(map[], es, k);
    if k in Assoc.Fold(map[], es) {
      var j :| Assoc.WritesKey(es, j, k);
      assert Attr(elems[j], "name", "") == k;
    }
  }

  // --------------------------------------------------------------- columns

  /** `_parse_column`: None when precision, scale or length is not an integer (`int()` raises). */
  function ParseColumn(c: Element): (r: Option<ColumnInfo>)
    ensures r.Some? <==> (ParseInt(Attr(c, "precision", "0")).Some?
                          && ParseInt(Attr(c, "scale", "0")).Some?
                          && ParseInt(Attr(c, "length", "0")).Some?)
  {
    var precision := ParseInt(Attr(c, "precision", "0"));
    var scale := ParseInt(Attr(c, "scale", "0"));
    var length := ParseInt(Attr(c, "length", "0"));
    if precision.Some? && scale.Some? && length.Some? then
      Some(ColumnInfo(
        Attr(c, "name", ""), Attr(c, "description", ""), Attr(c, "lineageId", ""),
        Attr(c, "dataType", ""), precision.value, scale.value, length.value,
        Attr(c, "externalMetadataColumnName", ""), Attr(c, "expression", "")))
    else None
  }

  /** Without the three size attributes a column has precision, scale and length zero. */
  lemma ColumnSizeDefaults(c: Element)
    requires "pipeline:precision" !in c.attrs && "pipeline:scale" !in c.attrs && "pipeline:length" !in c.attrs
    ensures ParseColumn(c).Some?
    ensures ParseColumn(c).value.precision == 0 && ParseColumn(c).value.scale == 0 && ParseColumn(c).value.length == 0
  {
    assert "pipeline:" + "precision" == "pipeline:precision";
    assert "pipeline:" + "scale" == "pipeline:scale";
    assert "pipeline:" + "length" == "pipeline:length";
    assert NatToString(0) == "0";
    ParseIntOfNatToString(0);
  }

  /** What one column element contributes: its record if it parses, else nothing. */
  function Kept(c: Element): seq<ColumnInfo> {
    match ParseColumn(c)
    case Some(col) => [col]
    case None => []
  }

  /** The columns kept from a list of column elements: those that parse, in order. */
  function Columns(elems: seq<Element>): seq<ColumnInfo> {
    if |elems| == 0 then []
    else Columns(elems[..|elems| - 1]) + Kept(elems[|elems| - 1])
  }

  /** A column that fails to parse drops out alone: the columns of two runs are those of each. */
  lemma {:induction false} ColumnsAppend(a: seq<Element>, b: seq<Element>)
    ensures Columns(a + b) == Columns(a) + Columns(b)
    decreases |b|
  {
    if |b| == 0 {
      assert a + b == a;
    } else {
      var b', last := b[..|b| - 1], b[|b| - 1];
      assert (a + b)[..|a + b| - 1] == a + b';
      assert (a + b)[|a + b| - 1] == last;
      assert Columns(a + b) == Columns(a + b') + Kept(last);
      assert Columns(b) == Columns(b') + Kept(last);
      ColumnsAppend(a, b');
      ConcatAssoc(Columns(a), Columns(b'), Kept(last));
    }
  }

  /** One column element: kept exactly when it parses. */
  lemma ColumnsOne(c: Element)
    ensures Columns([c]) == if ParseColumn(c).Some? then [ParseColumn(c).value] else []
  {
    assert [c][..0] == [];
    assert Columns([c]) == Kept(c);
  }

  // ----------------------------------------------------------------- ports

  /** The `pipeline:<io>Column` children of the `pipeline:<io>Columns` child, if there is one. */
  function ColumnElements(port: Element, io: IoType): seq<Element> {
    match FindChild(port, Pipe(io.Word() + "Columns"))
    case None => []
    case Some(cs) => FindAll(cs.children, Pipe(io.Word() + "Column"))
  }

  /** The record `_parse_input_output` builds. */
  function Port(port: Element, io: IoType): (r: PortInfo)
    ensures r.columns == Columns(ColumnElements(port, io))
  {
    PortInfo(
      Attr(port, io.Capitalized() + "Name", "Unknown"), Attr(port, "description", ""), Attr(port, "id", ""),
      Lower(Attr(port, "isErrorOut", "False")) == "true",
      Lower(Attr(port, "isSorted", "False")) == "true",
      Lower(Attr(port, "synchronous", "True")) == "true",
      Columns(ColumnElements(port, io)))
  }

  /**
   * An element without attributes is a port named `Unknown` that is not an
   * error output, not sorted and synchronous.
   */
  lemma PortDefaults(port: Element, io: IoType)
    requires port.attrs == map[]
    ensures var p := Port(port, io);
      p.name == "Unknown" && !p.isErrorOut && !p.isSorted && p.synchronous && p.id == ""
  {
    assert Lower("False") == "false";
    assert Lower("True") == "true";
  }

  /** The column loop of `_parse_input_output`: the columns are appended one by one, skipping those that fail. */
  method ParseColumns(elems: seq<Element>) returns (columns: seq<ColumnInfo>)
    ensures columns == Columns(elems)
  {
    columns := [];
    var i := 0;
    while i < |elems|
      invariant 0 <= i <= |elems|
      invariant columns == Columns(elems[..i])
    {
      assert elems[..i + 1][..i] == elems[..i];
      assert Columns(elems[..i + 1]) == Columns(elems[..i]) + Kept(elems[i]);
      var col := ParseColumn(elems[i]);
      if col.Some? {
        columns := columns + [col.value];
      }
      i := i + 1;
    }
    assert elems[..i] == elems;
  }

  /** `_parse_input_output`. */
  method ParsePort(port: Element, io: IoType) returns (r: PortInfo)
    ensures r == Port(port, io)
  {
    var columns := ParseColumns(ColumnElements(port, io));
    r := PortInfo(
      Attr(port, io.Capitalized() + "Name", "Unknown"), Attr(port, "description", ""), Attr(port, "id", ""),
      Lower(Attr(port, "isErrorOut", "False")) == "true",
      Lower(Attr(port, "isSorted", "False")) == "true",
      Lower(Attr(port, "synchronous", "True")) == "true",
      columns);
  }

  /** The `pipeline:<io>` children of the `pipeline:<io>s` child, if there is one. */
  function PortElements(comp: Element, io: IoType): seq<Element> {
    match FindChild(comp, Pipe(io.Word() + "s"))
    case None => []
    case Some(ps) => FindAll(ps.children, Pipe(io.Word()))
  }

  /** One port record per port element, in order. */
  function Ports(elems: seq<Element>, io: IoType): (r: seq<PortInfo>)
    ensures |r| == |elems|
  {
    seq(|elems|, k requires 0 <= k < |elems| => Port(elems[k], io))
  }

  /** The loop of `_parse_component_inputs` and `_parse_component_outputs`. */
  method ParsePortList(elems: seq<Element>, io: IoType) returns (ports: seq<PortInfo>)
    ensures ports == Ports(elems, io)
  {
    ports := [];
    var i := 0;
    while i < |elems|
      invariant 0 <= i <= |elems|
      invariant |ports| == i
      invariant forall k :: 0 <= k < i ==> ports[k] == Port(elems[k], io)
    {
      var p := ParsePort(elems[i], io);
      ports := ports + [p];
      i := i + 1;
    }
  }

  /** `_parse_component_inputs` and `_parse_component_outputs`. */
  method ParsePorts(comp: Element, io: IoType) returns (ports: seq<PortInfo>)
    ensures ports == Ports(PortElements(comp, io), io)
  {
    ports := ParsePortList(PortElements(comp, io), io);
  }

  // ------------------------------------------------------------ components

  /** The record `parse_data_flow_component` builds. */
  function Component(comp: Element): ComponentInfo {
    var id := Attr(comp, "componentClassID", "");
    ComponentInfo(
      id, Attr(comp, "name", "Unknown"), Attr(comp, "description", ""), ComponentTypeName(id),
      Assoc.Fold(map[], PropertyEntries(PropertyElements(comp))),
      Ports(PortElements(comp, Input), Input), Ports(PortElements(comp, Output), Output),
      Attr(comp, "version", ""), Attr(comp, "creationName", ""))
  }

  /** `parse_data_flow_component`. */
  method ParseDataFlowComponent(comp: Element) returns (info: ComponentInfo)
    ensures info == Component(comp)
    ensures info.id == Attr(comp, "componentClassID", "")
    ensures info.componentType == ComponentTypeName(info.id)
    ensures info.name == Attr(comp, "name", "Unknown") && info.description == Attr(comp, "description", "")
    ensures info.properties == Assoc.Fold(map[], PropertyEntries(PropertyElements(comp)))
    ensures info.inputs == Ports(PortElements(comp, Input), Input)
    ensures info.outputs == Ports(PortElements(comp, Output), Output)
    ensures info.version == Attr(comp, "version", "") && info.creationName == Attr(comp, "creationName", "")
  {
    var id := Attr(comp, "componentClassID", "");
    var properties := ParseComponentProperties(comp);
    var inputs := ParsePorts(comp, Input);
    var outputs := ParsePorts(comp, Output);
    info := ComponentInfo(
      id, Attr(comp, "name", "Unknown"), Attr(comp, "description", ""), ComponentTypeName(id),
      properties, inputs, outputs, Attr(comp, "version", ""), Attr(comp, "creationName", ""));
  }

  /**
   * Only the literal `pipeline:name` key is read: a component whose name is
   * stored under the namespaced key `{uri}name` is still called `Unknown`.
   */
  lemma NamespacedNameIgnored(comp: Element)
    requires "pipeline:name" !in comp.attrs && Pipe("name") in comp.attrs
    ensures Attr(comp, "name", "Unknown") == "Unknown"
  {
    assert "pipeline:" + "name" == "pipeline:name";
  }

  // -------------------------------------------------------------- families

  const SourceTypes := ["OLE DB Source", "Flat File Source", "Excel Source", "XML Source"]
  const DestinationTypes := ["OLE DB Destination", "Flat File Destination", "Excel Destination"]
  const TransformationTypes := [
    "Derived Column", "Data Conversion", "Lookup", "Merge Join", "Union All", "Sort",
    "Aggregate", "Conditional Split", "Multicast", "Script Component"]

  predicate IsSourceComponent(t: string) { t in SourceTypes }
  predicate IsDestinationComponent(t: string) { t in DestinationTypes }
  predicate IsTransformationComponent(t: string) { t in TransformationTypes }

  /** The three lists are disjoint, and every name in the table is in one of them. */
  lemma ComponentFamilies(t: string)
    ensures !(IsSourceComponent(t) && IsDestinationComponent(t))
    ensures !(IsSourceComponent(t) && IsTransformationComponent(t))
    ensures !(IsDestinationComponent(t) && IsTransformationComponent(t))
    ensures t in ComponentTypes.Values ==>
      IsSourceComponent(t) || IsDestinationComponent(t) || IsTransformationComponent(t)
  {
  }
}
