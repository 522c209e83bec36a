// The data-flow mapper: components are split into sources, destinations and
// transformations by substring tests on their lower-cased type; each group
// becomes a section of generated code; the imports and dependencies are the
// sorted, de-duplicated union of fixed names and the rule entries of the
// transformations.
module DataFlowMapper {
  import opened Wrappers
  import opened Strs
  import opened PyRepr
  import opened SortedSets

  /** The component kinds the mapper distinguishes. */
  datatype ComponentType =
    | Source | Destination | Transformation | Lookup | Sort | Aggregate
    | DerivedColumn | ConditionalSplit | DataConversion | UnknownKind
  {
    /** The enumeration's value. */
    function Value(): string {
      match this
      case Source => "source"
      case Destination => "destination"
      case Transformation => "transformation"
      case Lookup => "lookup"
      case Sort => "sort"
      case Aggregate => "aggregate"
      case DerivedColumn => "derived_column"
      case ConditionalSplit => "conditional_split"
      case DataConversion => "data_conversion"
      case UnknownKind => "unknown"
    }
  }

  /**
   * A component dictionary. An absent key of a dictionary or list field is
   * the empty sequence, which is what `get(key, {})` and `get(key, [])` give;
   * dictionaries are their items in insertion order.
   */
  datatype Component = Component(
    componentType: Option<string>,
    name: Option<string>,
    connectionString: Option<string>,
    query: Option<string>,
    tableName: Option<string>,
    ifExists: Option<string>,
    expressions: seq<(string, string)>,
    lookupColumns: seq<(string, string)>,
    sortColumns: seq<string>,
    ascending: Option<bool>,
    groupColumns: seq<string>,
    aggFunctions: seq<(string, string)>,
    conditions: seq<(string, string)>,
    typeMappings: seq<(string, string)>)

  // -------------------------------------------------------- classification

  /** `component.get('component_type', '').lower()`. */
  function TypeText(c: Component): string {
    Lower(c.componentType.GetOr(""))
  }

  const SourceTokens: seq<string> :=
    ["source", "ole db source", "excel source", "flat file source", "xml source", "adapter", "reader"]
  const DestinationTokens: seq<string> :=
    ["destination", "ole db destination", "excel destination", "flat file destination", "xml destination", "writer"]

  /** `any(token in text for token in tokens)`. */
  predicate AnyToken(text: string, tokens: seq<string>) {
    exists k :: 0 <= k < |tokens| && Contains(text, tokens[k])
  }

  /** `_is_source_component`. */
  predicate IsSource(c: Component) {
    AnyToken(TypeText(c), SourceTokens)
  }

  /** `_is_destination_component`. */
  predicate IsDestination(c: Component) {
    AnyToken(TypeText(c), DestinationTokens)
  }

  /** `_is_transformation_component`: neither a source nor a destination. */
  predicate IsTransformation(c: Component) {
    !(IsSource(c) || IsDestination(c))
  }

  /** A qualified token such as `xml source` contains its last word. */
  lemma QualifiedToken(prefix: string, word: string, text: string)
    requires Contains(text, prefix + word)
    ensures Contains(text, word)
  {
    assert (prefix + word)[|prefix|..] == word;
    ContainsAt(prefix + word, word, |prefix|);
    ContainsWithin(text, prefix + word, word);
  }

  /**
   * The qualified source tokens add nothing: a component is a source exactly
   * when its type mentions `source`, `adapter` or `reader`.
   */
  lemma SourceWords(c: Component)
    ensures IsSource(c) <==> Contains(TypeText(c), "source") || Contains(TypeText(c), "adapter") || Contains(TypeText(c), "reader")
  {
    SourceTextWords(TypeText(c));
  }

  lemma SourceTextWords(t: string)
    ensures AnyToken(t, SourceTokens) <==> Contains(t, "source") || Contains(t, "adapter") || Contains(t, "reader")
  {
    if AnyToken(t, SourceTokens) {
      var k :| 0 <= k < |SourceTokens| && Contains(t, SourceTokens[k]);
      if k == 1 { assert SourceTokens[1] == "ole db " + "source"; QualifiedToken("ole db ", "source", t); }
      if k == 2 { assert SourceTokens[2] == "excel " + "source"; QualifiedToken("excel ", "source", t); }
      if k == 3 { assert SourceTokens[3] == "flat file " + "source"; QualifiedToken("flat file ", "source", t); }
      if k == 4 { assert SourceTokens[4] == "xml " + "source"; QualifiedToken("xml ", "source", t); }
    }
    if Contains(t, "source") { assert Contains(t, SourceTokens[0]); }
    if Contains(t, "adapter") { assert Contains(t, SourceTokens[5]); }
    if Contains(t, "reader") { assert Contains(t, SourceTokens[6]); }
  }

  /** Likewise a component is a destination exactly when its type mentions `destination` or `writer`. */
  lemma DestinationWords(c: Component)
    ensures IsDestination(c) <==> Contains(TypeText(c), "destination") || Contains(TypeText(c), "writer")
  {
    DestinationTextWords(TypeText(c));
  }

  lemma DestinationTextWords(t: string)
    ensures AnyToken(t, DestinationTokens) <==> Contains(t, "destination") || Contains(t, "writer")
  {
    if AnyToken(t, DestinationTokens) {
      var k :| 0 <= k < |DestinationTokens| && Contains(t, DestinationTokens[k]);
      if k == 1 { assert DestinationTokens[1] == "ole db " + "destination"; QualifiedToken("ole db ", "destination", t); }
      if k == 2 { assert DestinationTokens[2] == "excel " + "destination"; QualifiedToken("excel ", "destination", t); }
      if k == 3 { assert DestinationTokens[3] == "flat file " + "destination"; QualifiedToken("flat file ", "destination", t); }
      if k == 4 { assert DestinationTokens[4] == "xml " + "destination"; QualifiedToken("xml ", "destination", t); }
    }
    if Contains(t, "destination") { assert Contains(t, DestinationTokens[0]); }
    if Contains(t, "writer") { assert Contains(t, DestinationTokens[5]); }
  }

  /** A `Destination Adapter` is both a destination and, through `adapter`, a source. */
  lemma DestinationAdapterIsBoth(c: Component)
    requires c.componentType == Some("Destination Adapter")
    ensures IsSource(c) && IsDestination(c) && !IsTransformation(c)
  {
    var t := TypeText(c);
    assert t == "destination adapter" by { LowerDestinationAdapter(c.componentType.value); }
    TwoWords(t, "destination", "adapter");
    SourceTextWords(t);
    DestinationTextWords(t);
  }

  lemma LowerDestinationAdapter(s: string)
    requires s == "Destination Adapter"
    ensures Lower(s) == "destination adapter"
  {
  }

  /** A text of two words separated by a space contains each of them. */
  lemma TwoWords(t: string, a: string, b: string)
    requires t == a + " " + b
    ensures Contains(t, a) && Contains(t, b)
  {
    assert t[..|a|] == a;
    ContainsAt(t, a, 0);
    assert t[|a| + 1..] == b;
    ContainsAt(t, b, |a| + 1);
  }

  /** `[c for c in cs if keep(c)]`. */
  function Filter(cs: seq<Component>, keep: Component -> bool): (r: seq<Component>)
    ensures |r| <= |cs|
    ensures forall c :: c in r <==> c in cs && keep(c)
  {
    if |cs| == 0 then []
    else
      assert cs == cs[..|cs| - 1] + [cs[|cs| - 1]];
      Filter(cs[..|cs| - 1], keep) + (if keep(cs[|cs| - 1]) then [cs[|cs| - 1]] else [])
  }

  function Sources(cs: seq<Component>): seq<Component> { Filter(cs, IsSource) }
  function Destinations(cs: seq<Component>): seq<Component> { Filter(cs, IsDestination) }
  function Transformations(cs: seq<Component>): seq<Component> { Filter(cs, IsTransformation) }

  predicate IsBoth(c: Component) { IsSource(c) && IsDestination(c) }

  /**
   * Every component lands in at least one of the three lists, a
   * transformation in no other, and the three counts add up to the number of
   * components plus the number counted both as source and as destination.
   */
  lemma {:induction false} Partition(cs: seq<Component>)
    ensures forall c :: c in cs ==> c in Sources(cs) || c in Destinations(cs) || c in Transformations(cs)
    ensures forall c :: c in Transformations(cs) ==> c !in Sources(cs) && c !in Destinations(cs)
    ensures |Sources(cs)| + |Destinations(cs)| + |Transformations(cs)| == |cs| + |Filter(cs, IsBoth)|
  {
    if |cs| > 0 {
      Partition(cs[..|cs| - 1]);
    }
  }

  // -------------------------------------------------------- component kind

  /** `_get_component_type`: the first kind whose phrase the type mentions. */
  function KindOf(c: Component): ComponentType {
    var t := TypeText(c);
    if Contains(t, "derived column") then DerivedColumn
    else if Contains(t, "lookup") then Lookup
    else if Contains(t, "sort") then Sort
    else if Contains(t, "aggregate") then Aggregate
    else if Contains(t, "conditional split") then ConditionalSplit
    else if Contains(t, "data conversion") then DataConversion
    else UnknownKind
  }

  /** The kinds in the order they are tried, and their phrases. */
  const KindOrder: seq<ComponentType> := [DerivedColumn, Lookup, Sort, Aggregate, ConditionalSplit, DataConversion]
  const KindPhrases: seq<string> := ["derived column", "lookup", "sort", "aggregate", "conditional split", "data conversion"]

  /**
   * The kind is the first entry of the table whose phrase occurs in the
   * type, and UNKNOWN exactly when no phrase occurs.
   */
  lemma KindIsFirstMatch(c: Component)
    ensures KindOf(c) == UnknownKind <==> forall k :: 0 <= k < |KindPhrases| ==> !Contains(TypeText(c), KindPhrases[k])
    ensures forall k :: 0 <= k < |KindOrder| ==>
      (KindOf(c) == KindOrder[k] <==>
        Contains(TypeText(c), KindPhrases[k]) && forall j :: 0 <= j < k ==> !Contains(TypeText(c), KindPhrases[j]))
  {
    assert KindPhrases[0] == "derived column" && KindPhrases[1] == "lookup" && KindPhrases[2] == "sort";
    assert KindPhrases[3] == "aggregate" && KindPhrases[4] == "conditional split" && KindPhrases[5] == "data conversion";
    assert KindOrder[0] == DerivedColumn && KindOrder[1] == Lookup && KindOrder[2] == Sort;
    assert KindOrder[3] == Aggregate && KindOrder[4] == ConditionalSplit && KindOrder[5] == DataConversion;
  }

  /** A type that mentions both `lookup` and `sort` is a lookup: the earlier phrase wins. */
  lemma LookupBeforeSort()
    ensures KindOf(Component(Some("Sort Lookup"), None, None, None, None, None, [], [], [], None, [], [], [], [])) == Lookup
  {
    var c := Component(Some("Sort Lookup"), None, None, None, None, None, [], [], [], None, [], [], [], []);
    var t := TypeText(c);
    assert t == "sort " + "lookup" + "";
    ContainsInfix("sort ", "lookup", "");
    assert 'v' in "derived column" && 'v' !in t;
    MissingCharNotContained(t, "derived column", 'v');
  }

  // ---------------------------------------------------------------- rules

  /** A transformation rule; `functionName` names the function its code template defines, whose text is not modelled. */
  datatype TransformationRule = TransformationRule(
    componentType: ComponentType, functionName: string, imports: seq<string>, dependencies: seq<string>)

  /** `_initialize_transformation_rules`: a rule for sources, destinations and the six transformation kinds. */
  function RuleFor(k: ComponentType): Option<TransformationRule> {
    match k
    case Source => Some(TransformationRule(Source, "read_source_data", ["pandas as pd", "sqlalchemy"], ["pandas", "sqlalchemy"]))
    case Destination => Some(TransformationRule(Destination, "write_destination_data", ["pandas as pd", "sqlalchemy"], ["pandas", "sqlalchemy"]))
    case DerivedColumn => Some(TransformationRule(DerivedColumn, "apply_derived_columns", ["pandas as pd"], ["pandas"]))
    case Lookup => Some(TransformationRule(Lookup, "perform_lookup", ["pandas as pd"], ["pandas"]))
    case Sort => Some(TransformationRule(Sort, "sort_data", ["pandas as pd"], ["pandas"]))
    case Aggregate => Some(TransformationRule(Aggregate, "aggregate_data", ["pandas as pd"], ["pandas"]))
    case ConditionalSplit => Some(TransformationRule(ConditionalSplit, "conditional_split", ["pandas as pd"], ["pandas"]))
    case DataConversion => Some(TransformationRule(DataConversion, "convert_data_types", ["pandas as pd"], ["pandas"]))
    case _ => None
  }

  /** The imports of the rule a kind has, or none. */
  function RuleImports(k: ComponentType): seq<string> {
    if RuleFor(k).Some? then RuleFor(k).value.imports else []
  }

  function RuleDependencies(k: ComponentType): seq<string> {
    if RuleFor(k).Some? then RuleFor(k).value.dependencies else []
  }

  /** What one transformation contributes: the imports or dependencies of its kind's rule. */
  function ComponentImports(c: Component): seq<string> { RuleImports(KindOf(c)) }
  function ComponentDependencies(c: Component): seq<string> { RuleDependencies(KindOf(c)) }

  /** The contributions of the components, in order. */
  function Gather(ts: seq<Component>, f: Component -> seq<string>): seq<string> {
    if |ts| == 0 then [] else Gather(ts[..|ts| - 1], f) + f(ts[|ts| - 1])
  }

  /** A name is gathered exactly when some component contributes it. */
  lemma {:induction false} GatherSpec(ts: seq<Component>, f: Component -> seq<string>)
    ensures forall x :: x in Gather(ts, f) <==> exists k :: 0 <= k < |ts| && x in f(ts[k])
  {
    if |ts| > 0 {
      var front := ts[..|ts| - 1];
      GatherSpec(front, f);
      assert forall k :: 0 <= k < |front| ==> front[k] == ts[k];
    }
  }

  const BaseImports: seq<string> := ["pandas as pd", "sqlalchemy", "logging"]
  const BaseDependencies: seq<string> := ["pandas", "sqlalchemy"]

  /** `_collect_imports`. */
  function ImportsOf(ts: seq<Component>): (r: seq<string>)
    ensures StrictlySorted(r)
  {
    SortedSet(Gather(ts, ComponentImports) + BaseImports)
  }

  /** `_collect_dependencies`. */
  function DependenciesOf(ts: seq<Component>): (r: seq<string>)
    ensures StrictlySorted(r)
  {
    SortedSet(Gather(ts, ComponentDependencies) + BaseDependencies)
  }

  /**
   * The imports hold the three fixed names and the rule imports of the
   * transformations, sorted and each once; likewise the dependencies.
   */
  lemma CollectedSpec(ts: seq<Component>)
    ensures forall x :: x in ImportsOf(ts) <==> x in BaseImports || exists k :: 0 <= k < |ts| && x in ComponentImports(ts[k])
    ensures forall x :: x in DependenciesOf(ts) <==> x in BaseDependencies || exists k :: 0 <= k < |ts| && x in ComponentDependencies(ts[k])
  {
    GatherSpec(ts, ComponentImports);
    GatherSpec(ts, ComponentDependencies);
  }

  /** A transformation's kind is never SOURCE or DESTINATION, so its rule needs nothing but pandas. */
  lemma ContributesOnlyPandas(c: Component)
    ensures forall x :: x in ComponentImports(c) ==> x == "pandas as pd"
    ensures forall x :: x in ComponentDependencies(c) ==> x == "pandas"
  {
    var k := KindOf(c);
    assert k != Source && k != Destination;
  }

  /**
   * Every transformation rule imports only pandas, which is already fixed,
   * so the collected imports never depend on the components.
   */
  lemma ImportsAreFixed(ts: seq<Component>)
    ensures ImportsOf(ts) == ["logging", "pandas as pd", "sqlalchemy"]
  {
    CollectedSpec(ts);
    var fixedImports := ["logging", "pandas as pd", "sqlalchemy"];
    assert StrictlySorted(fixedImports) by {
      assert Less("logging", "pandas as pd") && Less("pandas as pd", "sqlalchemy");
      LessTransitive("logging", "pandas as pd", "sqlalchemy");
    }
    forall x ensures x in ImportsOf(ts) <==> x in fixedImports {
      if exists k :: 0 <= k < |ts| && x in ComponentImports(ts[k]) {
        var k :| 0 <= k < |ts| && x in ComponentImports(ts[k]);
        ContributesOnlyPandas(ts[k]);
      }
    }
    SortedUnique(ImportsOf(ts), fixedImports);
  }

  /** Likewise the dependencies are always pandas and sqlalchemy. */
  lemma DependenciesAreFixed(ts: seq<Component>)
    ensures DependenciesOf(ts) == ["pandas", "sqlalchemy"]
  {
    CollectedSpec(ts);
    var fixedDependencies := ["pandas", "sqlalchemy"];
    assert StrictlySorted(fixedDependencies) by {
      assert Less("pandas", "sqlalchemy");
    }
    forall x ensures x in DependenciesOf(ts) <==> x in fixedDependencies {
      if exists k :: 0 <= k < |ts| && x in ComponentDependencies(ts[k]) {
        var k :| 0 <= k < |ts| && x in ComponentDependencies(ts[k]);
        ContributesOnlyPandas(ts[k]);
      }
    }
    SortedUnique(DependenciesOf(ts), fixedDependencies);
  }

  /** `_collect_imports`: the rule imports are gathered in a loop before the fixed names are added. */
  method CollectImports(ts: seq<Component>) returns (imports: seq<string>)
    ensures imports == ImportsOf(ts)
  {
    var gathered: seq<string> := [];
    var i := 0;
    while i < |ts|
      invariant 0 <= i <= |ts| && gathered == Gather(ts[..i], ComponentImports)
    {
      assert ts[..i + 1][..i] == ts[..i];
      var kind := KindOf(ts[i]);
      var rule := RuleFor(kind);
      if rule.Some? {
        gathered := gathered + rule.value.imports;
      }
      i := i + 1;
    }
    assert ts[..i] == ts;
    imports := SortedSet(gathered + BaseImports);
  }

  /** `_collect_dependencies`. */
  method CollectDependencies(ts: seq<Component>) returns (dependencies: seq<string>)
    ensures dependencies == DependenciesOf(ts)
  {
    var gathered: seq<string> := [];
    var i := 0;
    while i < |ts|
      invariant 0 <= i <= |ts| && gathered == Gather(ts[..i], ComponentDependencies)
    {
      assert ts[..i + 1][..i] == ts[..i];
      var kind := KindOf(ts[i]);
      var rule := RuleFor(kind);
      if rule.Some? {
        gathered := gathered + rule.value.dependencies;
      }
      i := i + 1;
    }
    assert ts[..i] == ts;
    dependencies := SortedSet(gathered + BaseDependencies);
  }

  // ------------------------------------------------------ generated code

  /** `name.lower().replace(' ', '_')`, the suffix of a generated function's name. */
  function FunctionSuffix(name: string): (r: string)
    ensures |r| == |name| && ' ' !in r
  {
    ReplaceChar(Lower(name), ' ', '_')
  }

  /** `repr` of a list of strings: each element's `repr`, comma-separated, in brackets. */
  function ListRepr(xs: seq<string>): string {
    "[" + Join(seq(|xs|, k requires 0 <= k < |xs| => StrRepr(xs[k])), ", ") + "]"
  }

  /** `repr` of a dictionary of strings: each key's and value's `repr`, in braces. */
  function DictRepr(items: seq<(string, string)>): string {
    "{" + Join(seq(|items|, k requires 0 <= k < |items| => StrRepr(items[k].0) + ": " + StrRepr(items[k].1)), ", ") + "}"
  }

  const ReturnDf: seq<string> := ["    return df"]

  /** The line of one dictionary item in a generated dictionary literal. */
  function ItemLine(item: (string, string)): string {
    "        '" + item.0 + "': '" + item.1 + "',"
  }

  function ItemLines(items: seq<(string, string)>): (r: seq<string>)
    ensures |r| == |items|
  {
    if |items| == 0 then [] else ItemLines(items[..|items| - 1]) + [ItemLine(items[|items| - 1])]
  }

  /**
   * The shape shared by the derived-column, conditional-split and
   * data-conversion generators: `return df` for no items, else the literal
   * opened by `open`, one line per item, and the closing call.
   */
  function DictBlock(open: string, items: seq<(string, string)>, call: string): seq<string> {
    if |items| == 0 then ReturnDf else [open] + ItemLines(items) + ["    }", call]
  }

  /** `_generate_derived_column_code`. */
  function DerivedColumnLines(c: Component): seq<string> {
    DictBlock("    column_expressions = {", c.expressions, "    return apply_derived_columns(df, column_expressions)")
  }

  /** `_generate_conditional_split_code`. */
  function ConditionalSplitLines(c: Component): seq<string> {
    DictBlock("    conditions = {", c.conditions, "    return conditional_split(df, conditions)")
  }

  /** `_generate_data_conversion_code`. */
  function DataConversionLines(c: Component): seq<string> {
    DictBlock("    type_mappings = {", c.typeMappings, "    return convert_data_types(df, type_mappings)")
  }

  /** `_generate_lookup_code`. */
  function LookupLines(c: Component): seq<string> {
    if |c.lookupColumns| == 0 then ReturnDf
    else ["    # TODO: Load lookup data", "    lookup_df = None  # Load from lookup source",
          "    left_on = list(lookup_columns.keys())", "    right_on = list(lookup_columns.values())",
          "    return perform_lookup(df, lookup_df, left_on, right_on)"]
  }

  /** `_generate_sort_code`. */
  function SortLines(c: Component): seq<string> {
    if |c.sortColumns| == 0 then ReturnDf
    else ["    sort_columns = " + ListRepr(c.sortColumns),
          "    ascending = " + (if c.ascending.GetOr(true) then "True" else "False"),
          "    return sort_data(df, sort_columns, ascending)"]
  }

  /** `_generate_aggregate_code`. */
  function AggregateLines(c: Component): seq<string> {
    if |c.groupColumns| == 0 && |c.aggFunctions| == 0 then ReturnDf
    else ["    group_columns = " + ListRepr(c.groupColumns),
          "    agg_functions = " + DictRepr(c.aggFunctions),
          "    return aggregate_data(df, group_columns, agg_functions)"]
  }

  const GenericBody: seq<string> := ["    # Generic transformation", "    # TODO: Implement specific transformation logic", "    return df"]

  /** The body of a transformation's function, by its kind. */
  function TransformBody(c: Component): seq<string> {
    BodyFor(KindOf(c), c)
  }

  /** The body the generator of kind `kind` gives for `c`. */
  function BodyFor(kind: ComponentType, c: Component): seq<string> {
    match kind
    case DerivedColumn => DerivedColumnLines(c)
    case Lookup => LookupLines(c)
    case Sort => SortLines(c)
    case Aggregate => AggregateLines(c)
    case ConditionalSplit => ConditionalSplitLines(c)
    case DataConversion => DataConversionLines(c)
    case _ => GenericBody
  }

  /** The dictionary-literal generators give `return df` exactly when there are no items. */
  lemma DictBlockEmpty(open: string, items: seq<(string, string)>, call: string)
    ensures DictBlock(open, items, call) == ReturnDf <==> |items| == 0
  {
    if |items| > 0 {
      assert |DictBlock(open, items, call)| > 1;
    }
  }

  /**
   * Each sub-generator returns just `return df` exactly when the field it
   * renders is empty.
   */
  lemma DictGeneratorsEmpty(c: Component)
    ensures DerivedColumnLines(c) == ReturnDf <==> |c.expressions| == 0
    ensures ConditionalSplitLines(c) == ReturnDf <==> |c.conditions| == 0
    ensures DataConversionLines(c) == ReturnDf <==> |c.typeMappings| == 0
  {
    DictBlockEmpty("    column_expressions = {", c.expressions, "    return apply_derived_columns(df, column_expressions)");
    DictBlockEmpty("    conditions = {", c.conditions, "    return conditional_split(df, conditions)");
    DictBlockEmpty("    type_mappings = {", c.typeMappings, "    return convert_data_types(df, type_mappings)");
  }

  /** Likewise for lookup and sort. */
  lemma LookupAndSortEmpty(c: Component)
    ensures LookupLines(c) == ReturnDf <==> |c.lookupColumns| == 0
    ensures SortLines(c) == ReturnDf <==> |c.sortColumns| == 0
  {
    if |c.lookupColumns| > 0 { assert |LookupLines(c)| == 5; }
    if |c.sortColumns| > 0 { assert |SortLines(c)| == 3; }
  }

  /** The aggregate generator gives `return df` only when both of its fields are empty. */
  lemma AggregateEmpty(c: Component)
    ensures AggregateLines(c) == ReturnDf <==> |c.groupColumns| == 0 && |c.aggFunctions| == 0
  {
    if |c.groupColumns| > 0 || |c.aggFunctions| > 0 { assert |AggregateLines(c)| == 3; }
  }

  /** The name a component is given, with its position in its list as fallback. */
  function NameOr(c: Component, prefix: string, i: nat): string {
    c.name.GetOr(prefix + NatToString(i))
  }

  /** The seven lines `_generate_source_code` writes for a source. */
  function SourceBlock(c: Component, i: nat): (r: seq<string>)
    ensures |r| == 7
  {
    var name := NameOr(c, "source_", i);
    var query := c.query.GetOr("");
    var table := c.tableName.GetOr("");
    ["# " + name, "def read_" + FunctionSuffix(name) + "():",
     "    \"\"\"Read data from " + name + "\"\"\"",
     "    connection_string = '" + c.connectionString.GetOr("") + "'"]
    + (if query != "" then ["    query = '''" + query + "'''", "    return read_source_data(connection_string, query=query)"]
       else if table != "" then ["    table_name = '" + table + "'", "    return read_source_data(connection_string, table_name=table_name)"]
       else ["    # No query or table specified", "    return None"])
    + [""]
  }

  /** The seven lines `_generate_destination_code` writes for a destination. */
  function DestinationBlock(c: Component, i: nat): (r: seq<string>)
    ensures |r| == 7
  {
    var name := NameOr(c, "destination_", i);
    ["# " + name, "def write_" + FunctionSuffix(name) + "(df):",
     "    \"\"\"Write data to " + name + "\"\"\"",
     "    connection_string = '" + c.connectionString.GetOr("") + "'",
     "    table_name = '" + c.tableName.GetOr("") + "'",
     "    return write_destination_data(df, connection_string, table_name, if_exists='" + c.ifExists.GetOr("replace") + "')",
     ""]
  }

  /** The three header lines `_generate_transformation_code` writes before a transformation's body. */
  function TransformHeader(c: Component, i: nat): seq<string> {
    var name := NameOr(c, "transform_", i);
    ["# " + name + " (" + KindOf(c).Value() + ")", "def apply_" + FunctionSuffix(name) + "(df):",
     "    \"\"\"Apply " + KindOf(c).Value() + " transformation\"\"\""]
  }

  /** What `_generate_transformation_code` writes for a transformation: header, body and a blank line. */
  function TransformBlock(c: Component, i: nat): seq<string> {
    TransformHeader(c, i) + TransformBody(c) + [""]
  }

  /** The blocks of the components, each given its position in the list (`enumerate`). */
  function Blocks(cs: seq<Component>, block: (Component, nat) -> seq<string>): seq<string> {
    if |cs| == 0 then [] else Blocks(cs[..|cs| - 1], block) + block(cs[|cs| - 1], |cs| - 1)
  }

  /** A generated section: its placeholder when there are no components, else the title, a blank line and the blocks. */
  function Section(title: string, placeholder: string, cs: seq<Component>, block: (Component, nat) -> seq<string>): string {
    if |cs| == 0 then placeholder else Join([title, ""] + Blocks(cs, block), "\n")
  }

  const NoSources := "# No source components found"
  const NoTransformations := "# No transformation components found"
  const NoDestinations := "# No destination components found"

  /** `_generate_source_code`. */
  function SourceCode(ss: seq<Component>): string {
    Section("# Source Components", NoSources, ss, SourceBlock)
  }

  /** `_generate_transformation_code`. */
  function TransformationCode(ts: seq<Component>): string {
    Section("# Transformation Components", NoTransformations, ts, TransformBlock)
  }

  /** `_generate_destination_code`. */
  function DestinationCode(ds: seq<Component>): string {
    Section("# Destination Components", NoDestinations, ds, DestinationBlock)
  }

  /** A section shows its placeholder exactly when it has no components, as long as title and placeholder differ early. */
  lemma SectionPlaceholder(title: string, placeholder: string, cs: seq<Component>, block: (Component, nat) -> seq<string>)
    requires |title| > 2 && |placeholder| > 2 && title[2] != placeholder[2]
    ensures Section(title, placeholder, cs, block) == placeholder <==> |cs| == 0
  {
    if |cs| > 0 {
      JoinStartsWithFirst([title, ""] + Blocks(cs, block), "\n");
    }
  }

  /** Each of the three generators gives its `# No ... components found` text exactly when its list is empty. */
  lemma SourcePlaceholderIffEmpty(ss: seq<Component>)
    ensures SourceCode(ss) == NoSources <==> |ss| == 0
  {
    SectionPlaceholder("# Source Components", NoSources, ss, SourceBlock);
  }

  lemma TransformationPlaceholderIffEmpty(ts: seq<Component>)
    ensures TransformationCode(ts) == NoTransformations <==> |ts| == 0
  {
    SectionPlaceholder("# Transformation Components", NoTransformations, ts, TransformBlock);
  }

  lemma DestinationPlaceholderIffEmpty(ds: seq<Component>)
    ensures DestinationCode(ds) == NoDestinations <==> |ds| == 0
  {
    SectionPlaceholder("# Destination Components", NoDestinations, ds, DestinationBlock);
  }

  /** With seven-line blocks, line `7k + j` of the section is line `j` of the k-th component's block. */
  lemma {:induction false} SevenLineBlocks(cs: seq<Component>, block: (Component, nat) -> seq<string>)
    requires forall c, i :: |block(c, i)| == 7
    ensures |Blocks(cs, block)| == 7 * |cs|
    ensures forall k, j :: 0 <= k < |cs| && 0 <= j < 7 ==> Blocks(cs, block)[7 * k + j] == block(cs[k], k)[j]
  {
    if |cs| > 0 {
      var front := cs[..|cs| - 1];
      SevenLineBlocks(front, block);
      assert forall k :: 0 <= k < |front| ==> front[k] == cs[k];
    }
  }

  /** The second line of a source's block defines its reader function. */
  lemma SourceBlockDefines(c: Component, i: nat)
    ensures SourceBlock(c, i)[1] == "def read_" + FunctionSuffix(NameOr(c, "source_", i)) + "():"
  {
  }

  /**
   * The sources are written in list order, seven lines each: the k-th
   * defines `read_<name>`, where an unnamed source is called `source_k`.
   */
  lemma SourceFunctionsInOrder(ss: seq<Component>)
    ensures |Blocks(ss, SourceBlock)| == 7 * |ss|
    ensures forall k :: 0 <= k < |ss| ==>
      Blocks(ss, SourceBlock)[7 * k + 1] == "def read_" + FunctionSuffix(NameOr(ss[k], "source_", k)) + "():"
  {
    SevenLineBlocks(ss, SourceBlock);
    forall k | 0 <= k < |ss|
      ensures Blocks(ss, SourceBlock)[7 * k + 1] == "def read_" + FunctionSuffix(NameOr(ss[k], "source_", k)) + "():"
    {
      SourceBlockDefines(ss[k], k);
    }
  }

  /**
   * A source's connection string is quoted on line 3. A query wins over a
   * table name and is written in triple quotes; without either the function
   * returns None.
   */
  lemma SourceReadsQueryFirst(c: Component, i: nat)
    ensures SourceBlock(c, i)[3] == "    connection_string = '" + c.connectionString.GetOr("") + "'"
    ensures c.query.GetOr("") != "" ==>
      SourceBlock(c, i)[4] == "    query = '''" + c.query.GetOr("") + "'''"
      && SourceBlock(c, i)[5] == "    return read_source_data(connection_string, query=query)"
    ensures c.query.GetOr("") == "" && c.tableName.GetOr("") != "" ==>
      SourceBlock(c, i)[4] == "    table_name = '" + c.tableName.GetOr("") + "'"
      && SourceBlock(c, i)[5] == "    return read_source_data(connection_string, table_name=table_name)"
    ensures c.query.GetOr("") == "" && c.tableName.GetOr("") == "" ==>
      SourceBlock(c, i)[4] == "    # No query or table specified" && SourceBlock(c, i)[5] == "    return None"
  {
  }

  /** The k-th source's query, or else its table name, is written on line `7k + 4` of the blocks. */
  lemma SourceQueriesInOrder(ss: seq<Component>)
    ensures |Blocks(ss, SourceBlock)| == 7 * |ss|
    ensures forall k :: 0 <= k < |ss| && ss[k].query.GetOr("") != "" ==>
      Blocks(ss, SourceBlock)[7 * k + 4] == "    query = '''" + ss[k].query.GetOr("") + "'''"
    ensures forall k :: 0 <= k < |ss| && ss[k].query.GetOr("") == "" && ss[k].tableName.GetOr("") != "" ==>
      Blocks(ss, SourceBlock)[7 * k + 4] == "    table_name = '" + ss[k].tableName.GetOr("") + "'"
  {
    SevenLineBlocks(ss, SourceBlock);
    forall k | 0 <= k < |ss|
      ensures ss[k].query.GetOr("") != "" ==>
        Blocks(ss, SourceBlock)[7 * k + 4] == "    query = '''" + ss[k].query.GetOr("") + "'''"
      ensures ss[k].query.GetOr("") == "" && ss[k].tableName.GetOr("") != "" ==>
        Blocks(ss, SourceBlock)[7 * k + 4] == "    table_name = '" + ss[k].tableName.GetOr("") + "'"
    {
      SourceReadsQueryFirst(ss[k], k);
    }
  }

  /** The second line of a destination's block defines its writer function. */
  lemma DestinationBlockDefines(c: Component, i: nat)
    ensures DestinationBlock(c, i)[1] == "def write_" + FunctionSuffix(NameOr(c, "destination_", i)) + "(df):"
  {
  }

  /**
   * The destinations are written in list order, seven lines each: the k-th
   * defines `write_<name>(df)`, where an unnamed destination is called
   * `destination_k`.
   */
  lemma DestinationFunctionsInOrder(ds: seq<Component>)
    ensures |Blocks(ds, DestinationBlock)| == 7 * |ds|
    ensures forall k :: 0 <= k < |ds| ==>
      Blocks(ds, DestinationBlock)[7 * k + 1] == "def write_" + FunctionSuffix(NameOr(ds[k], "destination_", k)) + "(df):"
  {
    SevenLineBlocks(ds, DestinationBlock);
    forall k | 0 <= k < |ds|
      ensures Blocks(ds, DestinationBlock)[7 * k + 1] == "def write_" + FunctionSuffix(NameOr(ds[k], "destination_", k)) + "(df):"
    {
      DestinationBlockDefines(ds[k], k);
    }
  }

  /** A destination's table name is quoted on line 4, and line 5 passes its `if_exists` mode, `replace` by default. */
  lemma DestinationBlockTable(c: Component, i: nat)
    ensures DestinationBlock(c, i)[4] == "    table_name = '" + c.tableName.GetOr("") + "'"
    ensures DestinationBlock(c, i)[5] == WriteCall(c.ifExists.GetOr("replace"))
  {
  }

  /** The return line of a destination's writer, with the given `if_exists` mode. */
  function WriteCall(mode: string): string {
    "    return write_destination_data(df, connection_string, table_name, if_exists='" + mode + "')"
  }

  /** Line `7k+4` of the destination section quotes the k-th table name, and line `7k+5` its mode. */
  lemma DestinationTablesInOrder(ds: seq<Component>)
    ensures |Blocks(ds, DestinationBlock)| == 7 * |ds|
    ensures forall k :: 0 <= k < |ds| ==>
      Blocks(ds, DestinationBlock)[7 * k + 4] == "    table_name = '" + ds[k].tableName.GetOr("") + "'"
    ensures forall k :: 0 <= k < |ds| ==>
      Blocks(ds, DestinationBlock)[7 * k + 5] == WriteCall(ds[k].ifExists.GetOr("replace"))
  {
    SevenLineBlocks(ds, DestinationBlock);
    forall k | 0 <= k < |ds|
      ensures Blocks(ds, DestinationBlock)[7 * k + 4] == "    table_name = '" + ds[k].tableName.GetOr("") + "'"
      ensures Blocks(ds, DestinationBlock)[7 * k + 5] == WriteCall(ds[k].ifExists.GetOr("replace"))
    {
      DestinationBlockTable(ds[k], k);
    }
  }

  method AppendItemLines(lines: seq<string>, items: seq<(string, string)>) returns (out: seq<string>)
    ensures out == lines + ItemLines(items)
  {
    out := lines;
    var i := 0;
    while i < |items|
      invariant 0 <= i <= |items| && out == lines + ItemLines(items[..i])
    {
      assert items[..i + 1][..i] == items[..i];
      out := out + [ItemLine(items[i])];
      i := i + 1;
    }
    assert items[..i] == items;
  }

  /** The dictionary-literal generators, looping over the items. */
  method GenerateDictBlock(open: string, items: seq<(string, string)>, call: string) returns (lines: seq<string>)
    ensures lines == DictBlock(open, items, call)
  {
    if |items| == 0 {
      return ReturnDf;
    }
    lines := AppendItemLines([open], items);
    lines := lines + ["    }", call];
  }

  /** The body of a transformation's function, dispatched on its kind. */
  method GenerateTransformBody(c: Component) returns (lines: seq<string>)
    ensures lines == TransformBody(c)
  {
    lines := GenerateBodyFor(KindOf(c), c);
  }

  method GenerateBodyFor(kind: ComponentType, c: Component) returns (lines: seq<string>)
    ensures lines == BodyFor(kind, c)
  {
    match kind
    case DerivedColumn =>
      lines := GenerateDictBlock("    column_expressions = {", c.expressions, "    return apply_derived_columns(df, column_expressions)");
    case ConditionalSplit =>
      lines := GenerateDictBlock("    conditions = {", c.conditions, "    return conditional_split(df, conditions)");
    case DataConversion =>
      lines := GenerateDictBlock("    type_mappings = {", c.typeMappings, "    return convert_data_types(df, type_mappings)");
    case _ =>
      // lookup, sort and aggregate bodies are built without a loop
      lines := BodyFor(kind, c);
  }

  /** The loop shared by the source and destination generators: one block per component. */
  method GenerateSection(title: string, placeholder: string, cs: seq<Component>, block: (Component, nat) -> seq<string>)
    returns (code: string)
    ensures code == Section(title, placeholder, cs, block)
  {
    if |cs| == 0 {
      return placeholder;
    }
    var lines := [title, ""];
    var i := 0;
    while i < |cs|
      invariant 0 <= i <= |cs| && lines == [title, ""] + Blocks(cs[..i], block)
    {
      assert cs[..i + 1][..i] == cs[..i];
      lines := lines + block(cs[i], i);
      i := i + 1;
    }
    assert cs[..i] == cs;
    code := Join(lines, "\n");
  }

  /** The blocks of one more component are the earlier blocks followed by its own. */
  lemma BlocksSnoc(cs: seq<Component>, i: nat, block: (Component, nat) -> seq<string>)
    requires i < |cs|
    ensures Blocks(cs[..i + 1], block) == Blocks(cs[..i], block) + block(cs[i], i)
  {
    assert cs[..i + 1][..i] == cs[..i];
  }

  /** `_generate_source_code`. */
  method GenerateSourceCode(ss: seq<Component>) returns (code: string)
    ensures code == SourceCode(ss)
  {
    code := GenerateSection("# Source Components", NoSources, ss, SourceBlock);
  }

  /** `_generate_destination_code`. */
  method GenerateDestinationCode(ds: seq<Component>) returns (code: string)
    ensures code == DestinationCode(ds)
  {
    code := GenerateSection("# Destination Components", NoDestinations, ds, DestinationBlock);
  }

  /** One transformation's block, its body produced by the sub-generators (the body of the loop below). */
  method GenerateTransformBlock(c: Component, i: nat) returns (lines: seq<string>)
    ensures lines == TransformBlock(c, i)
  {
    var body := GenerateTransformBody(c);
    lines := TransformHeader(c, i) + body + [""];
  }

  /** `_generate_transformation_code`. */
  method GenerateTransformationCode(ts: seq<Component>) returns (code: string)
    ensures code == TransformationCode(ts)
  {
    if |ts| == 0 {
      return NoTransformations;
    }
    var lines := ["# Transformation Components", ""];
    var i := 0;
    while i < |ts|
      invariant 0 <= i <= |ts| && lines == ["# Transformation Components", ""] + Blocks(ts[..i], TransformBlock)
    {
      var block := GenerateTransformBlock(ts[i], i);
      BlocksSnoc(ts, i, TransformBlock);
      ConcatAssoc(["# Transformation Components", ""], Blocks(ts[..i], TransformBlock), block);
      lines := lines + block;
      i := i + 1;
    }
    assert ts[..i] == ts;
    code := Join(lines, "\n");
  }

  // ------------------------------------------------------------ the mapping

  /** The fixed helper code: `handle_etl_error` and `validate_dataframe`, and `validate_data_flow`; their text is not modelled. */
  datatype Template = ErrorHandlingCode | ValidationCode

  datatype MappingMetadata = MappingMetadata(
    componentCount: nat, sourceCount: nat, transformationCount: nat, destinationCount: nat)

  datatype DataFlowMapping = DataFlowMapping(
    sourceCode: string,
    transformationCode: string,
    destinationCode: string,
    imports: seq<string>,
    dependencies: seq<string>,
    errorHandling: Template,
    validationCode: Template,
    metadata: MappingMetadata)

  /** `map_data_flow`. */
  method MapDataFlow(cs: seq<Component>) returns (m: DataFlowMapping)
    ensures m.sourceCode == SourceCode(Sources(cs))
    ensures m.transformationCode == TransformationCode(Transformations(cs))
    ensures m.destinationCode == DestinationCode(Destinations(cs))
    ensures m.imports == ImportsOf(Transformations(cs)) && m.dependencies == DependenciesOf(Transformations(cs))
    ensures m.errorHandling == ErrorHandlingCode && m.validationCode == ValidationCode
    ensures m.metadata == MappingMetadata(|cs|, |Sources(cs)|, |Transformations(cs)|, |Destinations(cs)|)
  {
    var sources := Sources(cs);
    var destinations := Destinations(cs);
    var transformations := Transformations(cs);
    var sourceCode := GenerateSourceCode(sources);
    var transformationCode := GenerateTransformationCode(transformations);
    var destinationCode := GenerateDestinationCode(destinations);
    var imports := CollectImports(transformations);
    var dependencies := CollectDependencies(transformations);
    m := DataFlowMapping(sourceCode, transformationCode, destinationCode, imports, dependencies,
                         ErrorHandlingCode, ValidationCode,
                         MappingMetadata(|cs|, |sources|, |transformations|, |destinations|));
  }
}
