// Package variables and parameters: the record built from a `DTS:Variable`
// element, the SSIS data-type code table, the lookups and filters over a
// list of records, and the summary with its two counting dictionaries.
module VariableParser {
  import opened Wrappers
  import opened Strs
  import opened Xml
  import Assoc
  import Properties
  import Tally

  /** SSIS data-type codes; there is no code 15, and 7 and 23 both read `Date`. */
  const DataTypes: map<string, string> := map[
    "0" := "Empty", "1" := "Null", "2" := "Int16", "3" := "Int32", "4" := "Single",
    "5" := "Double", "6" := "Currency", "7" := "Date", "8" := "String", "9" := "Object",
    "10" := "Error", "11" := "Boolean", "12" := "Variant", "13" := "Decimal", "14" := "Byte",
    "16" := "Int64", "17" := "UInt64", "18" := "UInt32", "19" := "UInt16", "20" := "UInt8",
    "21" := "Int8", "22" := "Guid", "23" := "Date", "24" := "DBDate", "25" := "DBTime",
    "26" := "DBTimeStamp", "27" := "Numeric", "28" := "DBFileTime", "29" := "DBTime2",
    "30" := "DBTimeStamp2", "31" := "DBTimeStampOffset"]

  datatype VariableMetadata = VariableMetadata(
    description: string, namespace: string, readOnly: bool, raiseChangedEvent: bool)

  /** A parsed variable; `isParameter` is set only by `parse_parameters`. */
  datatype VariableInfo = VariableInfo(
    id: string,
    name: string,
    dataType: string,
    dataTypeName: string,
    value: string,
    properties: map<string, string>,
    metadata: VariableMetadata,
    isParameter: bool)

  /** `data_types.get(code, f'Unknown({code})')`. */
  function DataTypeName(code: string): string {
    if code in DataTypes then DataTypes[code] else "Unknown(" + code + ")"
  }

  /** No table entry starts like the fallback name. */
  lemma TableNamesAreNotUnknown()
    ensures forall code :: code in DataTypes ==> !StartsWith(DataTypes[code], "Unknown(")
  {
    forall code | code in DataTypes ensures !StartsWith(DataTypes[code], "Unknown(") {
      assert DataTypes[code][0] != 'U' || DataTypes[code][1] != 'n';
    }
  }

  /**
   * A code outside the table yields `Unknown(<code>)`, which is no table
   * name and tells the code back.
   */
  lemma UnknownCodeName(code: string, other: string)
    requires code !in DataTypes
    ensures StartsWith(DataTypeName(code), "Unknown(")
    ensures forall c :: c in DataTypes ==> DataTypes[c] != DataTypeName(code)
    ensures other !in DataTypes && DataTypeName(other) == DataTypeName(code) ==> other == code
  {
    TableNamesAreNotUnknown();
    var n := DataTypeName(code);
    assert n[..8] == "Unknown(";
    if other !in DataTypes && DataTypeName(other) == n {
      assert n[8..|n| - 1] == code;
      assert DataTypeName(other)[8..|n| - 1] == other;
    }
  }

  /** The default code `8` is `String`; the missing code `15` is unknown. */
  lemma DataTypeNameExamples()
    ensures DataTypeName("8") == "String"
    ensures DataTypeName("15") == "Unknown(15)"
    ensures DataTypeName("7") == DataTypeName("23") == "Date"
  {
  }

  /** The record `parse_variable` builds for an element. */
  function Variable(e: Element): (v: VariableInfo)
    ensures v.value == DtsAttr(e, "Value")
    ensures v.dataTypeName == DataTypeName(v.dataType)
    ensures !v.isParameter
  {
    var code := DtsAttr(e, "DataType", "8");
    VariableInfo(
      DtsAttr(e, "DTSID"), DtsAttr(e, "ObjectName"), code, DataTypeName(code), DtsAttr(e, "Value"),
      Assoc.Fold(map[], Properties.PropertyEntries(Descendants(e, Dts("Property")))),
      VariableMetadata(
        DtsAttr(e, "Description"), DtsAttr(e, "Namespace", "User"),
        Lower(DtsAttr(e, "ReadOnly")) == "true", Lower(DtsAttr(e, "RaiseChangedEvent")) == "true"),
      false)
  }

  /**
   * A variable without attributes is a `String` (code `8`) in namespace
   * `User`, neither read-only nor raising change events, with empty texts.
   */
  lemma VariableDefaults(e: Element)
    requires e.attrs == map[]
    ensures var v := Variable(e);
      v.dataType == "8" && v.dataTypeName == "String" && v.metadata.namespace == "User"
      && !v.metadata.readOnly && !v.metadata.raiseChangedEvent
      && v.id == "" && v.name == "" && v.value == "" && v.metadata.description == ""
  {
  }

  /** The flags are read case-insensitively, and the namespaced attribute wins over the bare one. */
  lemma VariableFlags(e: Element)
    requires Dts("ReadOnly") in e.attrs && e.attrs[Dts("ReadOnly")] == "TRUE"
    requires Dts("Namespace") in e.attrs && e.attrs[Dts("Namespace")] == ""
    ensures Variable(e).metadata.readOnly
    ensures Variable(e).metadata.namespace == ""
  {
    assert Lower("TRUE") == "true";
  }

  /** `parse_variable`. */
  method ParseVariable(e: Element) returns (v: VariableInfo)
    ensures v == Variable(e)
  {
    var code := DtsAttr(e, "DataType", "8");
    var props := Properties.ParseProperties(e);
    v := VariableInfo(
      DtsAttr(e, "DTSID"), DtsAttr(e, "ObjectName"), code, DataTypeName(code), DtsAttr(e, "Value"),
      props,
      VariableMetadata(
        DtsAttr(e, "Description"), DtsAttr(e, "Namespace", "User"),
        Lower(DtsAttr(e, "ReadOnly")) == "true", Lower(DtsAttr(e, "RaiseChangedEvent")) == "true"),
      false);
  }

  // ------------------------------------------------------------ parameters

  /** The `DTS:Variable` (else bare `Variable`) children of the `Variables` section, if any. */
  function VariableElements(root: Element): seq<Element> {
    match FindEither(root, Dts("Variables"), "Variables")
    case None => []
    case Some(ve) => FindAllEither(ve, Dts("Variable"), "Variable")
  }

  /** A parameter is a variable whose own `Namespace` attribute is exactly `Parameter`. */
  predicate IsParameterElement(e: Element) {
    DtsAttr(e, "Namespace") == "Parameter"
  }

  /** What `parse_parameters` collects from a list of variable elements. */
  function Parameters(elems: seq<Element>): seq<VariableInfo> {
    if |elems| == 0 then []
    else
      var last := elems[|elems| - 1];
      Parameters(elems[..|elems| - 1])
        + (if IsParameterElement(last) then [Variable(last).(isParameter := true)] else [])
  }

  /**
   * Every collected parameter is flagged and lives in namespace
   * `Parameter`, and there is one per parameter element.
   */
  lemma {:induction false} ParametersAreParameters(elems: seq<Element>)
    ensures forall k :: 0 <= k < |Parameters(elems)| ==>
      Parameters(elems)[k].isParameter && Parameters(elems)[k].metadata.namespace == "Parameter"
    ensures |Parameters(elems)| == |FilterParameterElements(elems)|
    ensures forall k :: 0 <= k < |Parameters(elems)| ==>
      Parameters(elems)[k] == Variable(FilterParameterElements(elems)[k]).(isParameter := true)
  {
    if |elems| > 0 {
      ParametersAreParameters(elems[..|elems| - 1]);
    }
  }

  /** The elements whose own `Namespace` is `Parameter`, in order. */
  function FilterParameterElements(elems: seq<Element>): (r: seq<Element>)
    ensures forall k :: 0 <= k < |r| ==> IsParameterElement(r[k]) && r[k] in elems
    ensures forall x :: x in elems && IsParameterElement(x) ==> x in r
  {
    if |elems| == 0 then []
    else
      var last := elems[|elems| - 1];
      FilterParameterElements(elems[..|elems| - 1]) + (if IsParameterElement(last) then [last] else [])
  }

  /** `parse_parameters`. */
  method ParseParameters(root: Element) returns (ps: seq<VariableInfo>)
    ensures ps == Parameters(VariableElements(root))
  {
    ps := [];
    var section := FindEither(root, Dts("Variables"), "Variables");
    if section.None? {
      return;
    }
    var elems := FindAllEither(section.value, Dts("Variable"), "Variable");
    var i := 0;
    while i < |elems|
      invariant 0 <= i <= |elems|
      invariant ps == Parameters(elems[..i])
    {
      assert elems[..i + 1][..i] == elems[..i];
      if DtsAttr(elems[i], "Namespace") == "Parameter" {
        var info := ParseVariable(elems[i]);
        ps := ps + [info.(isParameter := true)];
      }
      i := i + 1;
    }
    assert elems[..i] == elems;
  }

  // --------------------------------------------------------------- lookups

  /** `get_variable_value_by_name`: the value of the first variable with that name. */
  function ValueByName(vars: seq<VariableInfo>, name: string): (r: Option<string>)
    ensures r.None? <==> forall k :: 0 <= k < |vars| ==> vars[k].name != name
    ensures r.Some? ==> exists k :: 0 <= k < |vars| && vars[k].name == name && vars[k].value == r.value
                                    && forall j :: 0 <= j < k ==> vars[j].name != name
  {
    if |vars| == 0 then None
    else if vars[0].name == name then Some(vars[0].value)
    else
      var r := ValueByName(vars[1..], name);
      if r.Some? then
        var k :| 0 <= k < |vars[1..]| && vars[1..][k].name == name && vars[1..][k].value == r.value
                 && forall j :: 0 <= j < k ==> vars[1..][j].name != name;
        assert vars[k + 1] == vars[1..][k];
        r
      else r
  }

  /** `get_variables_by_namespace`: the variables of one namespace, in their order. */
  function ByNamespace(vars: seq<VariableInfo>, ns: string): (r: seq<VariableInfo>)
    ensures |r| <= |vars|
    ensures forall k :: 0 <= k < |r| ==> r[k] in vars && r[k].metadata.namespace == ns
    ensures forall v :: v in vars && v.metadata.namespace == ns ==> v in r
  {
    if |vars| == 0 then []
    else (if vars[0].metadata.namespace == ns then [vars[0]] else []) + ByNamespace(vars[1..], ns)
  }

  /** Filtering keeps the order: the variables of a concatenation are those of each part, in turn. */
  lemma {:induction false} ByNamespaceAppend(a: seq<VariableInfo>, b: seq<VariableInfo>, ns: string)
    ensures ByNamespace(a + b, ns) == ByNamespace(a, ns) + ByNamespace(b, ns)
  {
    if |a| > 0 {
      assert (a + b)[1..] == a[1..] + b;
      ByNamespaceAppend(a[1..], b, ns);
    } else {
      assert a + b == b;
    }
  }

  function UserVariables(vars: seq<VariableInfo>): seq<VariableInfo> {
    ByNamespace(vars, "User")
  }

  function SystemVariables(vars: seq<VariableInfo>): seq<VariableInfo> {
    ByNamespace(vars, "System")
  }

  function ParameterVariables(vars: seq<VariableInfo>): seq<VariableInfo> {
    ByNamespace(vars, "Parameter")
  }

  /** A variable is in at most one namespace, so the three filters together take no more than the list. */
  lemma {:induction false} NamespaceCountsBounded(vars: seq<VariableInfo>)
    ensures |UserVariables(vars)| + |SystemVariables(vars)| + |ParameterVariables(vars)| <= |vars|
  {
    if |vars| > 0 {
      NamespaceCountsBounded(vars[1..]);
    }
  }

  // ---------------------------------------------------------------- types

  const NumericTypes := ["Int16", "Int32", "Int64", "Single", "Double", "Currency", "Decimal", "Numeric"]
  const StringTypes := ["String", "Variant"]
  const DateTypes := ["Date", "DBDate", "DBTime", "DBTimeStamp", "DBFileTime", "DBTime2", "DBTimeStamp2", "DBTimeStampOffset"]

  predicate IsNumericType(t: string) { t in NumericTypes }
  predicate IsStringType(t: string) { t in StringTypes }
  predicate IsDateType(t: string) { t in DateTypes }
  predicate IsBooleanType(t: string) { t == "Boolean" }

  /** The four type families are disjoint. */
  lemma TypeFamiliesDisjoint(t: string)
    ensures IsNumericType(t) ==> !IsStringType(t) && !IsDateType(t) && !IsBooleanType(t)
    ensures IsStringType(t) ==> !IsDateType(t) && !IsBooleanType(t)
    ensures IsDateType(t) ==> !IsBooleanType(t)
  {
  }

  // -------------------------------------------------------------- summary

  datatype VariableSummary = VariableSummary(
    totalVariables: nat,
    userVariables: nat,
    systemVariables: nat,
    parameterVariables: nat,
    dataTypes: map<string, nat>,
    namespaces: map<string, nat>)

  function TypeNames(vars: seq<VariableInfo>): (r: seq<string>)
    ensures |r| == |vars|
  {
    seq(|vars|, k requires 0 <= k < |vars| => vars[k].dataTypeName)
  }

  function Namespaces(vars: seq<VariableInfo>): (r: seq<string>)
    ensures |r| == |vars|
  {
    seq(|vars|, k requires 0 <= k < |vars| => vars[k].metadata.namespace)
  }

  /** `get_variable_summary`: every variable is counted once by data-type name and once by namespace. */
  method GetVariableSummary(vars: seq<VariableInfo>) returns (s: VariableSummary)
    ensures s.totalVariables == |vars|
    ensures s.userVariables == |UserVariables(vars)|
    ensures s.systemVariables == |SystemVariables(vars)|
    ensures s.parameterVariables == |ParameterVariables(vars)|
    ensures s.dataTypes == Tally.Counts(TypeNames(vars))
    ensures s.namespaces == Tally.Counts(Namespaces(vars))
    ensures Tally.Total(s.dataTypes) == |vars| && Tally.Total(s.namespaces) == |vars|
  {
    var types: map<string, nat> := map[];
    var spaces: map<string, nat> := map[];
    var i := 0;
    while i < |vars|
      invariant 0 <= i <= |vars|
      invariant types == Tally.Counts(TypeNames(vars[..i]))
      invariant spaces == Tally.Counts(Namespaces(vars[..i]))
    {
      var t, n := vars[i].dataTypeName, vars[i].metadata.namespace;
      assert TypeNames(vars[..i + 1]) == TypeNames(vars[..i]) + [t];
      assert Namespaces(vars[..i + 1]) == Namespaces(vars[..i]) + [n];
      Tally.CountsSnoc(TypeNames(vars[..i]), t);
      Tally.CountsSnoc(Namespaces(vars[..i]), n);
      types := types[t := (if t in types then types[t] else 0) + 1];
      spaces := spaces[n := (if n in spaces then spaces[n] else 0) + 1];
      i := i + 1;
    }
    assert vars[..i] == vars;
    Tally.TotalOfCounts(TypeNames(vars));
    Tally.TotalOfCounts(Namespaces(vars));
    s := VariableSummary(|vars|, |UserVariables(vars)|, |SystemVariables(vars)|,
                         |ParameterVariables(vars)|, types, spaces);
  }
}
