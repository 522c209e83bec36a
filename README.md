# SSIS package migrator, modelled in Dafny

This project models the core of a migrator that reads SQL Server Integration
Services packages (`.dtsx` XML files and their `.dtsConfig` configuration
files) and generates Python ETL scripts from them. It proves properties of
that model. It covers:

- **Extraction.** Namespace-tolerant attribute and child lookup over an
  already-parsed element tree (`Xml`, `Properties`). It also covers the
  parsers for connection managers, variables and parameters, and data-flow
  components with their ports and columns (`ConnectionParser`,
  `VariableParser`, `ComponentParser`).
- **Package assembly** (`DtsxParser`). This includes:
  - the order of the fatal checks of `parse_file`;
  - dispatch of executables by their type token;
  - discovery of configuration files, de-duplicated by path;
  - the final environment-reference pass.
- **Configuration files** (`ConfigParser`, `EnvRefs`). This includes:
  - the scanner for the three environment-reference forms `$(Name)`,
    `%Name%` and `@[User::Name]`;
  - flagging of encrypted entries;
  - validation;
  - merging by entry path.
- **Conversion** (`ConnectionConverter`, `VariableHandler`). This includes:
  - first-match keyword tables for connection kind and database provider;
  - splitting connection strings at `;` and `=`;
  - per-connection skip-on-failure aggregation;
  - variable and parameter conversion, including boolean and integer
    coercion;
  - secret masking;
  - `$(X)` / `@[User::X]` substitution;
  - required-field validation.
- **Data-flow mapping and script synthesis** (`DataFlowMapper`,
  `PythonGenerator`). This includes:
  - source, destination and transformation classification;
  - ordered detection of the transformation kind;
  - sorted, de-duplicated import and dependency sets;
  - execution steps;
  - script naming and the order of the generated scripts.
- **The diagnostics collector** (`ErrorHandling`). It is a class holding the
  report list and the report counter. It also covers the default severity
  and category of each exception class, and the error summary. Built-in
  exceptions are classified as `isinstance` does: a class given with its
  chain of base classes counts as each of them.

Helper modules hold the library behaviour the source relies on:

- `Strs`: string operations such as `lower`, `strip`, `split`, `join`,
  `find`, `int()` and zero padding (letters are lower- and upper-cased in
  ASCII only, see Left out);
- `SortedSets`: `sorted(set(...))`;
- `Fs`: path suffix, stem and glob over a file-system value;
- `Assoc`: later-wins dictionary folds;
- `Tally`: counting dictionaries;
- `PyRepr`: `repr` of a string, and how Python reads such a literal back;
- `Wrappers`: `Option` and `Result`.

Python dictionaries are modelled in one of three ways:

- dictionaries with a fixed set of keys become datatypes;
- dictionaries with open-ended keys, such as properties, parameters and environment tables, become `map`s;
- some dictionaries the source reads with `.get(key, default)`, such as the variable records and the components, become datatypes whose optional keys are `Option` fields, with the default applied on reading.

A `list(set(...))` whose order is Python's hash order is modelled as a `set`.

Loops that build lists, sets and dictionaries become methods with loop
invariants. Each is proved equal to a specification function, and the
properties are proved about that function. The error handler is a class
whose methods modify its `reports` and `errorCount` fields.

The following become parameters:

- the file system: which paths exist, what each contains, and the directory
  listing;
- the process environment (`os.environ`);
- the clock;
- the base64 decoding of `_decrypt_value`: a `decode` parameter that returns the byte count or fails.

## Code and design differences

Where the code behaves differently from the documented design, the model
follows the code (a bug listed under Findings is modelled both as written
and corrected, and the rest of the model uses the corrected version):

- The component parser reads the literal keys `pipeline:name`,
  `pipeline:componentClassID` and so on. A namespaced document stores them
  as `{uri}name`, so its components come out as `Unknown`, unlike the other
  parsers (`ComponentParser.NamespacedNameIgnored`).
- The component class table repeats three class ids. The later destination
  names win, so no id resolves to the OLE DB, flat-file or Excel source
  names (`ComponentParser.ShadowedSourceNames`).
- `substitute_parameters` handles only `$(X)` and `@[User::X]`; `%X%` is left
  untouched (`VariableHandler.PercentUntouched`). An undefined reference is
  kept verbatim, with a log line only and no diagnostic report.
- Substitution is not idempotent, even when no substituted value contains a
  defined reference. A value `$(` joins the text that follows it into a new
  reference (`VariableHandler.SecondPassCanChange`). So idempotence on the
  condition that no value contains a reference, which one might expect of a
  single pass, does not hold.
- The script generator reads `component_name`/`component_type` and
  `task_name`/`task_type`. The parsers produce `name` and `type`, so a
  parsed component becomes `unknowncomponent_dataflow.py` with the generic
  logic (`PythonGenerator.ParsedComponentFallsBack`).
- Generation is not always successful. When a connection or component
  type is not a string, `.lower()` raises and the whole run fails
  (`PythonGenerator.GenerationSucceedsIff`).
- As written, the package's environment table is never stored: `parse_file`
  stores None (Finding 2). The package the model assembles carries the
  corrected table.

## Model

| member | source | states |
|---|---|---|
| Strs.StripSpec | src/ssis_migrator/parsers/connection_parser.py:154 | `str.strip()` removes exactly the leading and trailing whitespace, every character for which `str.isspace()` holds, and leaves a result that neither starts nor ends with whitespace |
| Strs.JoinSplit | src/ssis_migrator/parsers/connection_parser.py:150 | joining the pieces of `str.split(c)` with `c` gives back the string |
| Strs.SplitJoin | src/ssis_migrator/parsers/dtsx_parser.py:187 | splitting a `c`-joined list of pieces without `c` gives back the pieces |
| Strs.ZeroPad4Injective | src/ssis_migrator/core/error_handler.py:179 | the four-digit zero-padded counter of a report id never renders two numbers alike |
| SortedSets.SortedSet | src/ssis_migrator/generators/python_generator.py:362 | `sorted(list(set(xs)))` is strictly sorted and holds exactly the elements of `xs` |
| SortedSets.SortedSetOfSameElements | src/ssis_migrator/generators/python_generator.py:362 | `sorted(list(set(xs)))` depends only on which elements `xs` holds, not on their order or repetition |
| Fs.Suffix | src/ssis_migrator/parsers/dtsx_parser.py:100 | `Path.suffix` is empty or starts with a dot |
| Fs.Stem | src/ssis_migrator/parsers/dtsx_parser.py:385 | `Path.stem` followed by `Path.suffix` is the file name |
| Fs.Glob | src/ssis_migrator/parsers/dtsx_parser.py:405 | `glob("*.dtsConfig")` lists only existing entries of the directory whose names end with the extension |
| Strs.ParseInt | src/ssis_migrator/parsers/component_parser.py:164-166 | Python's `int(s)` succeeds exactly when the stripped text is an optional sign followed by ASCII decimal digits, single underscores allowed between two digits |
| Strs.ParseIntUnderscores | src/ssis_migrator/parsers/component_parser.py:164-166 | `int('1_000')` is 1000, while a doubled, leading or trailing underscore makes `int()` fail |
| Strs.ParseIntOfNatToString | src/ssis_migrator/generators/variable_handler.py:301 | `int(str(n))` gives back `n` |
| PyRepr.StrRepr | src/ssis_migrator/generators/variable_handler.py:447 | `repr` of a string opens and closes with the same quote, `"` when the text has a `'` and no `"`, else `'` |
| PyRepr.ReadRepr | src/ssis_migrator/generators/variable_handler.py:447 | Python reads `repr(s)` back as `s`: no unescaped quote or line break inside, and every escape stands for its character |
| PyRepr.ReprInjective | src/ssis_migrator/generators/variable_handler.py:447 | different strings have different `repr`s |
| PyRepr.ReprPlain | src/ssis_migrator/generators/variable_handler.py:447 | printable text without `'` or backslash is written between single quotes unchanged |
| PyRepr.ReprApostrophe | src/ssis_migrator/generators/variable_handler.py:447 | a printable text with a `'`, no `"` and no backslash, such as `O'Brien`, is written between double quotes unchanged |
| Tally.Counts | src/ssis_migrator/parsers/variable_parser.py:237-240 | the counting loop's dictionary holds exactly the values seen, each with its number of occurrences |
| Tally.CountsSnoc | src/ssis_migrator/core/error_handler.py:349-350 | one more value increments its count, starting from zero |
| Xml.GetNsAttr | src/ssis_migrator/parsers/dtsx_parser.py:345-353 | the value under the namespaced key `{uri}name` whenever that key is present, even if empty; otherwise the value under the bare name; otherwise the default |
| Xml.DtsAttr | src/ssis_migrator/parsers/connection_parser.py:77-85 | the `{DTS-uri}Name` value if present, else the bare `Name` value, else the supplied default (`''` when none is given); a missing attribute never fails |
| Xml.Find | src/ssis_migrator/parsers/connection_parser.py:112-120 | `find` yields a direct child carrying the tag, and yields nothing exactly when no direct child carries it |
| Xml.FindIsFirst | src/ssis_migrator/parsers/connection_parser.py:112-120 | the child `find` yields is the first one carrying the tag: every earlier child carries another tag |
| Xml.FindAll | src/ssis_migrator/parsers/connection_parser.py:126 | `findall` yields direct children carrying the tag, and every such child |
| Xml.FindAllAppend | src/ssis_migrator/parsers/connection_parser.py:126 | `findall` keeps document order and multiplicity: over a concatenation of children it is the concatenation of the two results |
| Xml.FindAllOne | src/ssis_migrator/parsers/connection_parser.py:126 | a single child is found exactly when it carries the tag |
| Xml.FindAllAmongDescendants | src/ssis_migrator/parsers/connection_parser.py:100 | a direct child found by `findall(tag)` is also found by `findall('.//tag')` |
| Properties.FillProperties | src/ssis_migrator/parsers/connection_parser.py:126-130 | the loop leaves exactly the later-wins fold of the named properties over the initial map |
| Properties.PropertiesKept | src/ssis_migrator/parsers/connection_parser.py:100-104 | every property with a non-empty name is in the result, under the value of its last occurrence |
| Properties.PropertiesOnlyNamed | src/ssis_migrator/parsers/connection_parser.py:103-104 | a new key in the result is a non-empty name that some property carries |
| Properties.ParseProperties | src/ssis_migrator/parsers/connection_parser.py:95-106 | the properties map is the fold of every `DTS:Property` at any depth below the element |
| ConnectionParser.GetConnectionTypeSpec | src/ssis_migrator/parsers/connection_parser.py:87-93 | with a dot, the type is the table entry for the part after the last dot, or that part itself when the table lacks it; without a dot the creation name is returned unchanged |
| ConnectionParser.GetConnectionType | src/ssis_migrator/parsers/connection_parser.py:87-93 | a creation name without a dot is returned unchanged; with a dot, the type has no dot left (a table name or the last segment) |
| ConnectionParser.ParseConnectionProperties | src/ssis_migrator/parsers/connection_parser.py:95-106 | every named `DTS:Property` at any depth, later names overwriting earlier ones |
| ConnectionParser.ParseConnectionObjectData | src/ssis_migrator/parsers/connection_parser.py:108-132 | no nested connection manager (tried namespaced, then bare, inside `ObjectData`) gives `{}`; otherwise `nested_connection_string` followed by the nested element's direct named properties |
| ConnectionParser.FillParameters | src/ssis_migrator/parsers/connection_parser.py:151-154 | the loop over the pieces leaves the later-wins fold of the `key=value` pieces |
| ConnectionParser.PieceEntry | src/ssis_migrator/parsers/connection_parser.py:152-154 | a piece `k=v` with trimmed `k` and `v`, `k` without `=`, is read back as the pair `(k, v)`: split at the first `=` only |
| ConnectionParser.ExtractConnectionParameters | src/ssis_migrator/parsers/connection_parser.py:134-156 | the method computes the parameters of the connection string as the specification function defines them |
| ConnectionParser.ParametersOfRendered | src/ssis_migrator/parsers/connection_parser.py:150-156 | rendering pairs as `k=v;…` and extracting gives back the pairs, a later duplicate key overwriting an earlier one, with no case-folding |
| ConnectionParser.ParametersOfPlainText | src/ssis_migrator/parsers/connection_parser.py:146-156 | the empty string, and any string without `=`, gives `{}` |
| ConnectionParser.ConnectionFields | src/ssis_migrator/parsers/connection_parser.py:42-69 | where each field of the record comes from: id, name, creation name, type from the creation name, connection string, properties, object data, description, and `retain_same_connection` iff the attribute lower-cases to `true` |
| ConnectionParser.ParseConnectionManager | src/ssis_migrator/parsers/connection_parser.py:31-71 | the method builds that record |
| ConnectionParser.RetainSameConnectionExamples | src/ssis_migrator/parsers/connection_parser.py:67 | `TRUE` and `True` read as true, `1` does not |
| ConnectionParser.AtMostOneFamily | src/ssis_migrator/parsers/connection_parser.py:158-171 | the database, file and web lists are disjoint, so at most one of the three tests holds |
| ConnectionParser.GetConnectionSummary | src/ssis_migrator/parsers/connection_parser.py:173-193 | name, type and string copied; `parameters` is the extraction of the record's connection string; the three family flags are the three tests, at most one true |
| VariableParser.TableNamesAreNotUnknown | src/ssis_migrator/parsers/variable_parser.py:18-50 | no name in the data-type table looks like the `Unknown(…)` fallback |
| VariableParser.UnknownCodeName | src/ssis_migrator/parsers/variable_parser.py:70 | a code outside the table gives `Unknown(<code>)`, which is no table name and from which the code can be told back |
| VariableParser.DataTypeNameExamples | src/ssis_migrator/parsers/variable_parser.py:18-50 | code `8` is `String`, the missing code `15` is `Unknown(15)`, and codes `7` and `23` both name `Date` |
| VariableParser.Variable | src/ssis_migrator/parsers/variable_parser.py:63-88 | the value is the raw `Value` attribute, the type name is the table lookup of the type code, and a parsed variable is not a parameter |
| VariableParser.VariableDefaults | src/ssis_migrator/parsers/variable_parser.py:64-86 | with no attributes the code defaults to `8` (`String`), the namespace to `User`, both flags to false and the texts to `''` |
| VariableParser.VariableFlags | src/ssis_migrator/parsers/variable_parser.py:84-85 | `ReadOnly` is read case-insensitively, and a present namespaced attribute wins over the default even when empty |
| VariableParser.ParseVariable | src/ssis_migrator/parsers/variable_parser.py:52-90 | the method builds that record |
| VariableParser.FilterParameterElements | src/ssis_migrator/parsers/variable_parser.py:145-147 | keeps exactly the variable elements whose own `Namespace` is `Parameter`, in order |
| VariableParser.ParametersAreParameters | src/ssis_migrator/parsers/variable_parser.py:145-151 | one parameter per such element, each the parsed variable flagged `is_parameter` and in namespace `Parameter` |
| VariableParser.ParseParameters | src/ssis_migrator/parsers/variable_parser.py:119-153 | the method collects those parameters from the `Variables` section, tried namespaced then bare |
| VariableParser.ValueByName | src/ssis_migrator/parsers/variable_parser.py:155-169 | None iff no variable has the name; otherwise the value of the first variable that has it |
| VariableParser.ByNamespace | src/ssis_migrator/parsers/variable_parser.py:171-182 | exactly the variables of the namespace, each from the input |
| VariableParser.ByNamespaceAppend | src/ssis_migrator/parsers/variable_parser.py:182 | the filter keeps the input order: filtering a concatenation concatenates the filtered parts |
| VariableParser.NamespaceCountsBounded | src/ssis_migrator/parsers/variable_parser.py:184-194 | the user, system and parameter lists together hold no more variables than the list |
| VariableParser.TypeFamiliesDisjoint | src/ssis_migrator/parsers/variable_parser.py:196-213 | the numeric, string, date and boolean families are pairwise disjoint |
| VariableParser.GetVariableSummary | src/ssis_migrator/parsers/variable_parser.py:215-242 | the total is the length, the three namespace counts are the filter lengths, and both count maps sum to the total |
| ComponentParser.ComponentTypeNameExamples | src/ssis_migrator/parsers/component_parser.py:18-41 | the repeated class ids resolve to the later, destination names, and an unknown id gives `Unknown` |
| ComponentParser.ComponentTypeName | src/ssis_migrator/parsers/component_parser.py:177-179 | the name is `Unknown` exactly when the class id is not in the table |
| ComponentParser.ShadowedSourceNames | src/ssis_migrator/parsers/component_parser.py:20-28 | because of the repeated ids no id yields the OLE DB, flat-file or Excel source names |
| ComponentParser.ParseComponentProperties | src/ssis_migrator/parsers/component_parser.py:89-101 | the later-wins fold of the `pipeline:property` children of `pipeline:properties`, unnamed ones skipped |
| ComponentParser.PropertiesLastWins | src/ssis_migrator/parsers/component_parser.py:95-99 | a property with a non-empty name is kept with the value of its last occurrence, and no other key is kept |
| ComponentParser.ParseColumn | src/ssis_migrator/parsers/component_parser.py:156-175 | a column is produced iff precision, scale and length all parse as integers under `int()`, PEP 515 underscores included |
| ComponentParser.ColumnSizeDefaults | src/ssis_migrator/parsers/component_parser.py:164-166 | a column without the three size attributes parses, with precision, scale and length 0 |
| ComponentParser.ColumnsAppend | src/ssis_migrator/parsers/component_parser.py:145-148 | a column that fails drops out alone: the columns of two runs of elements are those of each run |
| ComponentParser.ColumnsOne | src/ssis_migrator/parsers/component_parser.py:146-148 | one column element is kept exactly when it parses |
| ComponentParser.Port | src/ssis_migrator/parsers/component_parser.py:129-150 | the port's columns are the parsed columns of its column elements |
| ComponentParser.PortDefaults | src/ssis_migrator/parsers/component_parser.py:133-138 | a port without attributes is named `Unknown`, is not an error output, not sorted, and synchronous |
| ComponentParser.ParseColumns | src/ssis_migrator/parsers/component_parser.py:144-148 | the loop appends the parsed columns in order, skipping those that fail |
| ComponentParser.ParsePort | src/ssis_migrator/parsers/component_parser.py:129-150 | the method builds that port record |
| ComponentParser.Ports | src/ssis_migrator/parsers/component_parser.py:107-127 | one port record per port element, in order |
| ComponentParser.ParsePortList | src/ssis_migrator/parsers/component_parser.py:109-112 | the loop over the port elements yields those records |
| ComponentParser.ParsePorts | src/ssis_migrator/parsers/component_parser.py:103-127 | the inputs or outputs are the records of the port elements under `pipeline:inputs` or `pipeline:outputs` |
| ComponentParser.ParseDataFlowComponent | src/ssis_migrator/parsers/component_parser.py:43-83 | id, name (default `Unknown`), description, type by table lookup of the id (`Unknown` when absent), properties, inputs, outputs, version and creation name, each from its literal `pipeline:` key |
| ComponentParser.NamespacedNameIgnored | src/ssis_migrator/parsers/component_parser.py:56 | only the literal `pipeline:name` key is read, so a name stored under the namespaced key still gives `Unknown` |
| ComponentParser.ComponentFamilies | src/ssis_migrator/parsers/component_parser.py:181-198 | the source, destination and transformation lists are disjoint, and every table name is in one of them |
| EnvRefs.IdentEnd | src/ssis_migrator/parsers/config_parser.py:184 | the end of the longest run of `[A-Za-z0-9_]` characters starting at a position |
| EnvRefs.MatchAt | src/ssis_migrator/parsers/config_parser.py:184-192 | a match of `open NAME close` at a position captures an identifier `[A-Za-z_][A-Za-z0-9_]*` and spans exactly `open + NAME + close` |
| EnvRefs.ScanSound | src/ssis_migrator/parsers/config_parser.py:184-192 | every name the non-overlapping left-to-right scan captures is an identifier occurring between the delimiters |
| EnvRefs.NoOverlap | src/ssis_migrator/parsers/config_parser.py:184-192 | for `$(N)` and `@[User::N]` a match that starts before an occurrence ends before it |
| EnvRefs.MatchAtOccurrence | src/ssis_migrator/parsers/config_parser.py:184-192 | for those two patterns every occurrence is matched where it starts, capturing its name |
| EnvRefs.ScanComplete | src/ssis_migrator/parsers/config_parser.py:184-192 | for those two patterns the scan finds every occurrence at or after its start |
| EnvRefs.Patterns | src/ssis_migrator/parsers/config_parser.py:184-192 | `$(` and `@[User::` meet the no-overlap condition; `%`, which also closes its pattern, does not |
| EnvRefs.Elems | src/ssis_migrator/parsers/config_parser.py:195 | `set(...)` holds exactly the names of the list |
| EnvRefs.FoundNamesOccur | src/ssis_migrator/parsers/config_parser.py:178-195 | every name found is an identifier written as `$(N)`, `%N%` or `@[User::N]` in the value |
| EnvRefs.DollarAndUserRefsFound | src/ssis_migrator/parsers/config_parser.py:184-193 | every `$(N)` and every `@[User::N]` reference is found |
| EnvRefs.PercentRefsOverlap | src/ssis_migrator/parsers/config_parser.py:188 | `%B%` occurs in `%A%B%` yet only `A` is found: the match `%A%` consumes the `%` that would open `%B%` |
| ConfigParser.DecryptValue | src/ssis_migrator/parsers/config_parser.py:212-229 | the result is `[DECRYPTION_FAILED]` or starts with `[DECRYPTED: `; no stored text is ever returned |
| ConfigParser.ParseConfigEntry | src/ssis_migrator/parsers/config_parser.py:126-164 | path, target type (default `String`) and description from the attributes; encrypted iff `Encrypted` lower-cases to `true`; an encrypted entry keeps the text in `encrypted_value` and the decryption placeholder as value; an unencrypted one has no `encrypted_value` and its text as value; an unencrypted entry without text is rejected |
| ConfigParser.EncryptedValueHidden | src/ssis_migrator/parsers/config_parser.py:142-149 | an encrypted entry is always produced and its value is a placeholder, never the stored text |
| ConfigParser.MissingValueIsEmpty | src/ssis_migrator/parsers/config_parser.py:135-136 | without a `ConfiguredValue` child an unencrypted entry has value `''` |
| ConfigParser.Entries | src/ssis_migrator/parsers/config_parser.py:112-124 | the entries are produced iff every `Configuration` element parses, one entry per element, in order |
| ConfigParser.EnvironmentOfSpec | src/ssis_migrator/parsers/config_parser.py:166-176 | a name is in the table iff some entry's value refers to it, and it maps to its environment value, `''` when unset |
| ConfigParser.SetFromEnvironment | src/ssis_migrator/parsers/config_parser.py:173-174 | the inner loop adds every name of the set with its environment value and keeps every other key |
| ConfigParser.ExtractEnvironmentVariables | src/ssis_migrator/parsers/config_parser.py:166-176 | the method computes that table |
| ConfigParser.ParseMetadata | src/ssis_migrator/parsers/config_parser.py:197-210 | the method computes the metadata map of the root |
| ConfigParser.MetadataRootElement | src/ssis_migrator/parsers/config_parser.py:202 | `root_element` always holds the root tag; no element tag can overwrite it |
| ConfigParser.MetadataKeys | src/ssis_migrator/parsers/config_parser.py:205-208 | besides `root_element` and `namespaces`, only tags of elements of the tree ending in `Metadata` or `Info` become keys |
| ConfigParser.ParseConfigFile | src/ssis_migrator/parsers/config_parser.py:61-110 | a file is produced iff the path exists, its suffix lower-cases to `.dtsconfig`, the XML is well-formed and every entry has a value; it then holds the entries of every `Configuration` below the root, their environment table, the metadata and no dependencies |
| ConfigParser.MissingNames | src/ssis_migrator/parsers/config_parser.py:290-294 | the inner loop reports each referenced name without an environment value exactly once, in some order |
| ConfigParser.ValidateEntry | src/ssis_migrator/parsers/config_parser.py:284-298 | one entry contributes its path iff encrypted, its missing names, and the warnings for those and for an unknown target type |
| ConfigParser.ValidateConfiguration | src/ssis_migrator/parsers/config_parser.py:265-303 | always valid with no errors; `encrypted_entries` is the encrypted paths in entry order; the missing names are each entry's missing names in turn; the warnings are each entry's warnings in turn |
| ConfigParser.ValidationStep | src/ssis_migrator/parsers/config_parser.py:283-298 | one more entry appends exactly its own contributions to the three accumulations |
| ConfigParser.WarningCount | src/ssis_migrator/parsers/config_parser.py:287-298 | one warning per encrypted entry, per missing reference and per unknown target type |
| ConfigParser.RemovePathUnique | src/ssis_migrator/parsers/config_parser.py:324-327 | with unique paths, removing the first entry with a path removes every entry with it and keeps paths unique |
| ConfigParser.UpsertSpec | src/ssis_migrator/parsers/config_parser.py:324-328 | upserting keeps paths unique, and the new entry replaces whatever had its path |
| ConfigParser.UpsertAllUnique | src/ssis_migrator/parsers/config_parser.py:321-328 | the merged entries have unique paths |
| ConfigParser.UpsertAllLastWins | src/ssis_migrator/parsers/config_parser.py:321-328 | the last entry with a given path is the one that ends up in the merge |
| ConfigParser.UpsertAllFrom | src/ssis_migrator/parsers/config_parser.py:321-328 | every merged entry comes from the start or from the entries added |
| ConfigParser.UpsertAllAppend | src/ssis_migrator/parsers/config_parser.py:321-322 | merging file after file is merging their concatenation |
| ConfigParser.UpsertEntries | src/ssis_migrator/parsers/config_parser.py:322-328 | the inner loop upserts one file's entries in order |
| ConfigParser.MergeEntries | src/ssis_migrator/parsers/config_parser.py:320-328 | the first loop upserts every entry of every file in order |
| ConfigParser.MergeEnvironments | src/ssis_migrator/parsers/config_parser.py:330-332 | the second loop leaves the later-wins union of the environment tables |
| ConfigParser.MergedEnvironmentLastWins | src/ssis_migrator/parsers/config_parser.py:331-332 | a merged environment value is that of the last file defining the name |
| ConfigParser.MergedEnvironmentFrom | src/ssis_migrator/parsers/config_parser.py:331-332 | only names some file defines are in the merged environment |
| ConfigParser.MergeMetadata | src/ssis_migrator/parsers/config_parser.py:334-336 | the third loop leaves the later-wins union of the metadata maps |
| ConfigParser.MergeConfigurations | src/ssis_migrator/parsers/config_parser.py:305-338 | a file named `merged` holding those entries, environment and metadata, with no dependencies; for no files, no entries |
| ConfigParser.MergedEntries | src/ssis_migrator/parsers/config_parser.py:320-328 | the merged paths are unique and each path keeps the entry of its last occurrence |
| ConnectionConverter.FirstContained | src/ssis_migrator/generators/connection_converter.py:237-241 | the index of the first table key the text contains, or the table length when it contains none |
| ConnectionConverter.FirstContainedUnique | src/ssis_migrator/generators/connection_converter.py:237-241 | those properties determine the index: first match wins |
| ConnectionConverter.FindFirst | src/ssis_migrator/generators/connection_converter.py:237-239 | the `for key, value in table.items(): if key in text: return value` loop returns that index |
| ConnectionConverter.ConnectionTypeMeaning | src/ssis_migrator/generators/connection_converter.py:233-241 | the kind is UNKNOWN iff no lower-cased key occurs in the lower-cased type; otherwise it is the kind of an occurring key with no earlier key occurring |
| ConnectionConverter.GetConnectionType | src/ssis_migrator/generators/connection_converter.py:233-241 | the method computes that kind |
| ConnectionConverter.ProviderMeaning | src/ssis_migrator/generators/connection_converter.py:243-251 | the provider is UNKNOWN iff no upper-cased key occurs in the upper-cased text; otherwise it is the provider of an occurring key with no earlier key occurring |
| ConnectionConverter.GetDatabaseProvider | src/ssis_migrator/generators/connection_converter.py:243-251 | the method computes that provider |
| ConnectionConverter.FlatFileBeforeFile | src/ssis_migrator/generators/connection_converter.py:113-121 | a type containing `flatfile` is never the plain file kind, since `FlatFile` is tried before `FILE` |
| ConnectionConverter.OleDbMeansSqlServer | src/ssis_migrator/generators/connection_converter.py:97-100 | any provider text containing `OLEDB` resolves to SQL Server |
| ConnectionConverter.OracleOleDbIsSqlServer | src/ssis_migrator/generators/connection_converter.py:100-102 | so `OraOLEDB.Oracle` resolves to SQL Server, not Oracle |
| ConnectionConverter.EmptyProviderUnknown | src/ssis_migrator/generators/connection_converter.py:247-251 | the empty provider is UNKNOWN |
| ConnectionConverter.HttpType | src/ssis_migrator/generators/connection_converter.py:112-122 | the type `HTTP` is the HTTP kind |
| ConnectionConverter.ParseConnectionString | src/ssis_migrator/generators/connection_converter.py:253-280 | the method computes the parameter map of the string: the `;` branch, else `{}` for a string without `://` |
| ConnectionConverter.FillPieces | src/ssis_migrator/generators/connection_converter.py:261-265 | the loop leaves the later-wins fold of the pieces containing `=`, split at the first `=` |
| ConnectionConverter.ParamNamesLower | src/ssis_migrator/generators/connection_converter.py:265 | every parameter name is lower-case |
| ConnectionConverter.RenderedParams | src/ssis_migrator/generators/connection_converter.py:259-265 | two or more rendered pairs with lower-case names are read back as the connection parser reads them; a single pair has no `;`, so nothing is read |
| ConnectionConverter.ProviderSupportSpec | src/ssis_migrator/generators/connection_converter.py:307-327 | every OLE DB connection imports and depends on SQLAlchemy; only PostgreSQL needs `psycopg2-binary`; providers without their own branch get the generic template and SQLAlchemy alone |
| ConnectionConverter.OleDbConfig | src/ssis_migrator/generators/connection_converter.py:282-336 | kind `database`; host is `server` unless missing or empty, then `host`; database is `database` or `initial catalog`; user is `user id` or `username`; the provider comes from `provider`; imports and dependencies follow the provider |
| ConnectionConverter.ConvertSingle | src/ssis_migrator/generators/connection_converter.py:204-231 | the conversion fails exactly for the kinds whose converter method is not defined (ADO.NET, XML, FTP, SMTP, FILE) |
| ConnectionConverter.ConvertSingleSpec | src/ssis_migrator/generators/connection_converter.py:204-231 | a failure names the missing converter; a success keeps the name and has one of the four kinds; an unknown kind gets code that raises NotImplementedError and no imports or dependencies; OLE DB goes to its converter |
| ConnectionConverter.KeptOrFailed | src/ssis_migrator/generators/connection_converter.py:141-164 | every connection is either kept or reported, and none is reported iff every kind has a converter |
| ConnectionConverter.KeptAppend | src/ssis_migrator/generators/connection_converter.py:141-164 | conversion goes connection by connection, so the kept and failed lists of consecutive runs concatenate, in input order |
| ConnectionConverter.AllImportsMember | src/ssis_migrator/generators/connection_converter.py:147-148 | an import or dependency is collected iff some kept connection has it |
| ConnectionConverter.KeptKinds | src/ssis_migrator/generators/connection_converter.py:329-432 | every kept connection has kind `database`, `file`, `web` or `unknown` |
| ConnectionConverter.CountsPartition | src/ssis_migrator/generators/connection_converter.py:178-183 | with the corrected web list, the database, file, web and unknown counts add up to `connection_count` |
| ConnectionConverter.WebCountOnlyWeb | src/ssis_migrator/generators/connection_converter.py:182 | among the kinds the converters produce, only `web` is in the corrected web list |
| ConnectionConverter.KeptOne | src/ssis_migrator/generators/connection_converter.py:143-144 | a single connection that converts is kept as converted |
| ConnectionConverter.HttpIsWeb | src/ssis_migrator/generators/connection_converter.py:384-405 | a connection of the HTTP kind converts to a `web` connection |
| ConnectionConverter.ConfigLines | src/ssis_migrator/generators/connection_converter.py:645-657 | a header and a blank line, then four lines per connection: its name, its kind, its dependencies joined by `, `, a blank line |
| ConnectionConverter.GenerateConfigCode | src/ssis_migrator/generators/connection_converter.py:645-657 | the code is those lines joined by newlines |
| ConnectionConverter.ConversionOf | src/ssis_migrator/generators/connection_converter.py:166-187 | imports and dependencies are strictly sorted (sorted and de-duplicated) and hold exactly what the kept connections import and depend on; `connection_count` is the number kept, the input length minus the failures; with the corrected web list the database, file, web and unknown counts add up to `connection_count`, and the web count is the number of `web` connections; the configuration code is that of the kept connections |
| ConnectionConverter.ConversionAsWritten | src/ssis_migrator/generators/connection_converter.py:166-187 | as written, the result is the corrected one except that `web_connections` is always 0 |
| ConnectionConverter.MetadataOfKept | src/ssis_migrator/generators/connection_converter.py:178-183 | for the kept connections the family counts and the unknowns partition `connection_count`, and the web ones are exactly those of kind `web` |
| ConnectionConverter.SkipReports | src/ssis_migrator/generators/connection_converter.py:150-163 | one report per skipped connection |
| ConnectionConverter.RecordSkip | src/ssis_migrator/generators/connection_converter.py:150-164 | the handler gains exactly the report of the skipped connection and its counter goes up by one |
| ConnectionConverter.ConvertConnections | src/ssis_migrator/generators/connection_converter.py:124-187 | with a per-connection handler that can record, the result is that conversion and the handler gains one MEDIUM conversion report per failing connection, in order |
| ConnectionConverter.ConvertEach | src/ssis_migrator/generators/connection_converter.py:141-164 | the loop keeps the successes in order, collects their imports and dependencies, and records one report per failure |
| ConnectionConverter.ConvertNext | src/ssis_migrator/generators/connection_converter.py:142-164 | one turn keeps the connection or records why it was skipped |
| ConnectionConverter.ConvertConnectionsAsWritten | src/ssis_migrator/generators/connection_converter.py:124-202 | as written, the call returns iff no connection fails, and then returns the as-written result (web count 0) and records nothing; otherwise it raises, recording only the outer HIGH report |
| ConnectionConverter.ConvertUntilFailure | src/ssis_migrator/generators/connection_converter.py:141-202 | the written loop succeeds iff no conversion fails; on success it keeps all connections; on failure only the outer report is recorded |
| ConnectionConverter.KeepUntilFailure | src/ssis_migrator/generators/connection_converter.py:141-148 | the conversions up to the first that raises: success iff none raises, and then all are kept with their imports and dependencies |
| ConnectionConverter.ReportOuterFailure | src/ssis_migrator/generators/connection_converter.py:189-201 | the outer handler adds exactly one HIGH report |
| ConnectionConverter.WebCountAsWrittenZero | src/ssis_migrator/generators/connection_converter.py:182 | as written, the web count is always 0: no converter produces kind `http`, `ftp` or `smtp` |
| ConnectionConverter.WebCountExample | src/ssis_migrator/generators/connection_converter.py:182 | one HTTP connection is counted by the corrected web count and not by the written one |
| VariableHandler.TablesSpec | src/ssis_migrator/generators/variable_handler.py:97-113 | the type and scope lookups are exact and case-sensitive: a name outside the table is UNKNOWN and a name in it never is; `Int32` and `Int64` are both INT |
| VariableHandler.ConvertValue | src/ssis_migrator/generators/variable_handler.py:294-318 | the value becomes None exactly when the text is empty |
| VariableHandler.ConvertValueSpec | src/ssis_migrator/generators/variable_handler.py:299-318 | a rendered number converts back to that number as INT; STRING, OBJECT and UNKNOWN text stays as it is; an INT text that `int()` rejects (PEP 515 underscores are accepted) falls back to the text |
| VariableHandler.BooleanCoercion | src/ssis_migrator/generators/variable_handler.py:304-306 | the boolean coercion ignores letter case and is true exactly for `true`, `1`, `yes` and `on` |
| VariableHandler.ConversionDefaults | src/ssis_migrator/generators/variable_handler.py:226-278 | an empty dictionary gives the defaults: name `Unknown`, no value, STRING, PACKAGE scope (input direction for a parameter), empty description, not read-only, not required |
| VariableHandler.ConvertVariable | src/ssis_migrator/generators/variable_handler.py:226-253 | the value is None exactly when the text is empty or absent; required and read-only only when the dictionary says so |
| VariableHandler.ConvertParameter | src/ssis_migrator/generators/variable_handler.py:255-278 | the value is None exactly when the text is empty or absent; required only when the dictionary says so |
| VariableHandler.ConvertEnvironmentVariable | src/ssis_migrator/generators/variable_handler.py:280-292 | name and value kept; secret iff the lower-cased name contains one of the seven secret words |
| VariableHandler.SecretIgnoresCase | src/ssis_migrator/generators/variable_handler.py:283 | secret detection ignores letter case |
| VariableHandler.SecretNameOccurrence | src/ssis_migrator/generators/variable_handler.py:283-285 | a name is secret exactly when some stretch of it, lower-cased, is one of the secret words |
| VariableHandler.PasswordIsSecret | src/ssis_migrator/generators/variable_handler.py:283-285 | `DB_Password` is a secret |
| VariableHandler.SubstringIsSecret | src/ssis_migrator/generators/variable_handler.py:283-285 | matching is by substring: `MONKEY` is a secret because it contains `key` |
| VariableHandler.HostIsNotSecret | src/ssis_migrator/generators/variable_handler.py:283-285 | `HOST` is not a secret |
| VariableHandler.ConvertedInOrder | src/ssis_migrator/generators/variable_handler.py:136-180 | nothing is skipped or reordered: the k-th configuration is the k-th record converted |
| VariableHandler.ConvertVariableList | src/ssis_migrator/generators/variable_handler.py:136-148 | the loop converts every variable in order |
| VariableHandler.ConvertParameterList | src/ssis_migrator/generators/variable_handler.py:151-164 | the loop converts every parameter in order |
| VariableHandler.ConvertEnvironmentList | src/ssis_migrator/generators/variable_handler.py:167-180 | the loop converts every environment entry in order |
| VariableHandler.SecretValuesHidden | src/ssis_migrator/generators/variable_handler.py:466-470 | changing the value of any secret environment variable leaves every environment line unchanged |
| VariableHandler.SecretValuesHiddenInConfig | src/ssis_migrator/generators/variable_handler.py:432-474 | the whole configuration code does not depend on secret values |
| VariableHandler.PlainValueShown | src/ssis_migrator/generators/variable_handler.py:469-470 | a value that is not secret is shown quoted in its line |
| VariableHandler.ConfigLinesShape | src/ssis_migrator/generators/variable_handler.py:439-474 | four header lines per section, one line per entry, and the closing brace; the environment lines come last |
| VariableHandler.AppendVarLines | src/ssis_migrator/generators/variable_handler.py:446-447 | the loop appends one line per variable |
| VariableHandler.AppendParamLines | src/ssis_migrator/generators/variable_handler.py:456-457 | the loop appends one line per parameter |
| VariableHandler.AppendEnvLines | src/ssis_migrator/generators/variable_handler.py:466-470 | the loop appends one line per environment variable |
| VariableHandler.GenerateConfigCode | src/ssis_migrator/generators/variable_handler.py:432-474 | the code is those lines joined by newlines, each variable and parameter value written with `repr` |
| VariableHandler.Repr | src/ssis_migrator/generators/variable_handler.py:447 | Python reads a string value's rendering back as the string and an integer's as the integer; a boolean is `True` or `False` |
| VariableHandler.MatchWith | src/ssis_migrator/generators/variable_handler.py:538 | a match is `open`, one or more characters other than `close`, then `close`, followed by the rest |
| VariableHandler.MatchWithOf | src/ssis_migrator/generators/variable_handler.py:538 | a well-formed reference at the front is matched, name and rest exactly |
| VariableHandler.RefAt | src/ssis_migrator/generators/variable_handler.py:538 | a reference at the front is the text of a `$(…)` or `@[User::…]` reference followed by the rest |
| VariableHandler.SubstWithoutParams | src/ssis_migrator/generators/variable_handler.py:534-548 | with no parameters the pass copies every reference, so the early return changes nothing |
| VariableHandler.SubstituteIsSubst | src/ssis_migrator/generators/variable_handler.py:532-548 | `substitute_parameters` is the one left-to-right pass, the early returns included |
| VariableHandler.SubstPlainChar | src/ssis_migrator/generators/variable_handler.py:548 | a character that cannot open a reference is copied |
| VariableHandler.PlainPrefix | src/ssis_migrator/generators/variable_handler.py:548 | text without `$` and `@` passes through unchanged, whatever the parameters |
| VariableHandler.DollarRef | src/ssis_migrator/generators/variable_handler.py:540-546 | a `$(NAME)` reference is replaced by the value when NAME is defined and kept verbatim otherwise |
| VariableHandler.UserRefAt | src/ssis_migrator/generators/variable_handler.py:540-546 | an `@[User::NAME]` reference is replaced by the value when NAME is defined and kept verbatim otherwise |
| VariableHandler.NoDefinedRefUnchanged | src/ssis_migrator/generators/variable_handler.py:538-548 | text in which no defined name is referenced comes back unchanged |
| VariableHandler.PercentUntouched | src/ssis_migrator/generators/variable_handler.py:538 | `%X%` is not a substitution pattern and stays even when X is defined |
| VariableHandler.DefinedRefThenPlain | src/ssis_migrator/generators/variable_handler.py:538-548 | a defined `$(NAME)` followed by plain text gives the value, then the text |
| VariableHandler.JoiningFirstPass | src/ssis_migrator/generators/variable_handler.py:538-548 | with `X` ↦ `$(` and `Y` ↦ `v`, the first pass turns `$(X)Y)` into `$(Y)` |
| VariableHandler.JoiningSecondPass | src/ssis_migrator/generators/variable_handler.py:538-548 | the second pass replaces the reference the first one formed |
| VariableHandler.SecondPassCanChange | src/ssis_migrator/generators/variable_handler.py:538-548 | substitution is not idempotent even when no substituted value contains a defined reference |
| VariableHandler.MissingVariablesSpec | src/ssis_migrator/generators/variable_handler.py:559-561 | exactly the required variables whose value is None or `''` are reported missing |
| VariableHandler.MissingVariablesBound | src/ssis_migrator/generators/variable_handler.py:559-561 | at most one error per variable, and one for each when all are required and empty |
| VariableHandler.TypeErrorsNeedRules | src/ssis_migrator/generators/variable_handler.py:569-573 | only variables with validation rules are type-checked |
| VariableHandler.ConvertedTypeCheck | src/ssis_migrator/generators/variable_handler.py:572-594 | for a converted variable with rules, an INT whose text `int()` rejects fails validation and every BOOLEAN passes, since conversion made it a bool; FLOAT and DATETIME texts are taken as parsable |
| VariableHandler.ValidateValueType | src/ssis_migrator/generators/variable_handler.py:577-594 | only INT and BOOLEAN can fail; a bool passes every type, an int every type but BOOLEAN, and None only the types other than INT and BOOLEAN |
| VariableHandler.ConvertedMissing | src/ssis_migrator/generators/variable_handler.py:556-565 | a converted variable is reported missing iff it is required and its text is empty or absent |
| VariableHandler.CollectMissingVariables | src/ssis_migrator/generators/variable_handler.py:559-561 | the first loop appends the missing-variable errors in order |
| VariableHandler.CollectMissingParameters | src/ssis_migrator/generators/variable_handler.py:564-566 | the second loop appends the missing-parameter errors in order |
| VariableHandler.CollectTypeErrors | src/ssis_migrator/generators/variable_handler.py:569-573 | the third loop appends the type errors in order |
| VariableHandler.ValidateConfiguration | src/ssis_migrator/generators/variable_handler.py:550-575 | the errors are the variable errors, then the parameter errors, then the type errors |
| VariableHandler.HandleVariablesAndParameters | src/ssis_migrator/generators/variable_handler.py:115-209 | every record converted in order; the configuration code; fixed imports and `configparser`; the counts and `total_configs` as their sum |
| DataFlowMapper.QualifiedToken | src/ssis_migrator/generators/data_flow_mapper.py:370-373 | a qualified token such as `xml source` contains its last word, so it adds nothing to the test |
| DataFlowMapper.SourceWords | src/ssis_migrator/generators/data_flow_mapper.py:367-373 | a component is a source iff its lower-cased type mentions `source`, `adapter` or `reader` |
| DataFlowMapper.SourceTextWords | src/ssis_migrator/generators/data_flow_mapper.py:370-373 | the seven source tokens match a text exactly when one of those three words does |
| DataFlowMapper.DestinationWords | src/ssis_migrator/generators/data_flow_mapper.py:375-381 | a component is a destination iff its lower-cased type mentions `destination` or `writer` |
| DataFlowMapper.DestinationTextWords | src/ssis_migrator/generators/data_flow_mapper.py:378-381 | the six destination tokens match a text exactly when one of those two words does |
| DataFlowMapper.DestinationAdapterIsBoth | src/ssis_migrator/generators/data_flow_mapper.py:367-385 | a `Destination Adapter` is a destination and, through `adapter`, also a source, so it is no transformation |
| DataFlowMapper.Filter | src/ssis_migrator/generators/data_flow_mapper.py:138-140 | the comprehension keeps exactly the components that pass the test |
| DataFlowMapper.Partition | src/ssis_migrator/generators/data_flow_mapper.py:367-385 | every component lands in at least one list, a transformation in no other, and the three counts add up to the number of components plus those counted both as source and destination |
| DataFlowMapper.KindIsFirstMatch | src/ssis_migrator/generators/data_flow_mapper.py:487-504 | the kind is that of the first phrase occurring in the lower-cased type, in the order derived column, lookup, sort, aggregate, conditional split, data conversion, and UNKNOWN iff none occurs |
| DataFlowMapper.LookupBeforeSort | src/ssis_migrator/generators/data_flow_mapper.py:493-496 | a type mentioning both `lookup` and `sort` is a lookup |
| DataFlowMapper.GatherSpec | src/ssis_migrator/generators/data_flow_mapper.py:611-615 | a name is gathered exactly when some transformation contributes it |
| DataFlowMapper.ImportsOf | src/ssis_migrator/generators/data_flow_mapper.py:606-624 | the imports are strictly sorted: sorted and each once |
| DataFlowMapper.DependenciesOf | src/ssis_migrator/generators/data_flow_mapper.py:626-643 | the dependencies are strictly sorted |
| DataFlowMapper.CollectedSpec | src/ssis_migrator/generators/data_flow_mapper.py:606-643 | the imports are the three fixed names and the rule imports of the transformations whose kind has a rule; likewise the dependencies |
| DataFlowMapper.ContributesOnlyPandas | src/ssis_migrator/generators/data_flow_mapper.py:195-365 | a transformation's kind is never SOURCE or DESTINATION, so its rule contributes only pandas |
| DataFlowMapper.ImportsAreFixed | src/ssis_migrator/generators/data_flow_mapper.py:606-624 | the collected imports are always `logging`, `pandas as pd`, `sqlalchemy` |
| DataFlowMapper.DependenciesAreFixed | src/ssis_migrator/generators/data_flow_mapper.py:626-643 | the collected dependencies are always `pandas`, `sqlalchemy` |
| DataFlowMapper.CollectImports | src/ssis_migrator/generators/data_flow_mapper.py:606-624 | the method computes those imports |
| DataFlowMapper.CollectDependencies | src/ssis_migrator/generators/data_flow_mapper.py:626-643 | the method computes those dependencies |
| DataFlowMapper.FunctionSuffix | src/ssis_migrator/generators/data_flow_mapper.py:402 | `name.lower().replace(' ', '_')` keeps the length and leaves no space |
| DataFlowMapper.DictBlockEmpty | src/ssis_migrator/generators/data_flow_mapper.py:510-521 | a dictionary-literal generator gives `return df` exactly when it has no items |
| DataFlowMapper.DictGeneratorsEmpty | src/ssis_migrator/generators/data_flow_mapper.py:506-604 | derived column, conditional split and data conversion give `["    return df"]` exactly when their field is empty |
| DataFlowMapper.LookupAndSortEmpty | src/ssis_migrator/generators/data_flow_mapper.py:523-554 | lookup and sort likewise |
| DataFlowMapper.AggregateEmpty | src/ssis_migrator/generators/data_flow_mapper.py:556-570 | aggregate gives `return df` only when both of its fields are empty |
| DataFlowMapper.SourceBlock | src/ssis_migrator/generators/data_flow_mapper.py:400-417 | seven lines per source |
| DataFlowMapper.DestinationBlock | src/ssis_migrator/generators/data_flow_mapper.py:475-483 | seven lines per destination |
| DataFlowMapper.SectionPlaceholder | src/ssis_migrator/generators/data_flow_mapper.py:389-467 | a section shows its placeholder exactly when it has no components |
| DataFlowMapper.SourcePlaceholderIffEmpty | src/ssis_migrator/generators/data_flow_mapper.py:389-390 | `# No source components found` exactly when there are no sources |
| DataFlowMapper.TransformationPlaceholderIffEmpty | src/ssis_migrator/generators/data_flow_mapper.py:423-424 | `# No transformation components found` exactly when there are no transformations |
| DataFlowMapper.DestinationPlaceholderIffEmpty | src/ssis_migrator/generators/data_flow_mapper.py:464-465 | `# No destination components found` exactly when there are no destinations |
| DataFlowMapper.SevenLineBlocks | src/ssis_migrator/generators/data_flow_mapper.py:394-483 | with seven-line blocks, line `7k + j` is line `j` of the k-th component's block |
| DataFlowMapper.SourceBlockDefines | src/ssis_migrator/generators/data_flow_mapper.py:402 | a source's second line defines `read_<name>()` |
| DataFlowMapper.SourceFunctionsInOrder | src/ssis_migrator/generators/data_flow_mapper.py:394-417 | the sources are written in list order, the k-th defining `read_<name>`, an unnamed one named `source_k` |
| DataFlowMapper.SourceReadsQueryFirst | src/ssis_migrator/generators/data_flow_mapper.py:407-415 | line 3 quotes the connection string; a query wins over a table name and is written as `query = '''<query>'''`, a table name as `table_name = '<table>'`; with neither the function returns None |
| DataFlowMapper.SourceQueriesInOrder | src/ssis_migrator/generators/data_flow_mapper.py:394-417 | line `7k + 4` of the source blocks carries the k-th source's query in triple quotes, or else its table name |
| DataFlowMapper.DestinationFunctionsInOrder | src/ssis_migrator/generators/data_flow_mapper.py:469-483 | the destinations are written in list order, seven lines each, the k-th defining `write_<name>(df)`, an unnamed one named `destination_k` |
| DataFlowMapper.DestinationTablesInOrder | src/ssis_migrator/generators/data_flow_mapper.py:469-483 | line `7k + 4` of the destination blocks quotes the k-th destination's table name, and line `7k + 5` passes its `if_exists` mode, `replace` when it has none |
| DataFlowMapper.AppendItemLines | src/ssis_migrator/generators/data_flow_mapper.py:514-515 | the loop appends one `'key': 'value',` line per item |
| DataFlowMapper.GenerateDictBlock | src/ssis_migrator/generators/data_flow_mapper.py:506-521 | the method builds the dictionary-literal body |
| DataFlowMapper.GenerateTransformBody | src/ssis_migrator/generators/data_flow_mapper.py:439-456 | the body is dispatched on the kind, unknown kinds getting the generic body |
| DataFlowMapper.GenerateBodyFor | src/ssis_migrator/generators/data_flow_mapper.py:439-456 | the method builds the body for a given kind |
| DataFlowMapper.GenerateSection | src/ssis_migrator/generators/data_flow_mapper.py:387-485 | the placeholder for no components, otherwise the header and one block per component |
| DataFlowMapper.GenerateSourceCode | src/ssis_migrator/generators/data_flow_mapper.py:387-419 | the method produces the source section, whose blocks carry each source's query or table name |
| DataFlowMapper.GenerateDestinationCode | src/ssis_migrator/generators/data_flow_mapper.py:462-485 | the method produces the destination section |
| DataFlowMapper.GenerateTransformBlock | src/ssis_migrator/generators/data_flow_mapper.py:429-458 | one transformation's block: comment, definition, docstring, body, blank line |
| DataFlowMapper.GenerateTransformationCode | src/ssis_migrator/generators/data_flow_mapper.py:421-460 | the loop appends each transformation's block, built by `GenerateTransformBlock`, and the method produces the transformation section |
| DataFlowMapper.MapDataFlow | src/ssis_migrator/generators/data_flow_mapper.py:124-178 | the three sections of the filtered lists, imports and dependencies from the transformations, and counts equal to the lengths of the input and of the three lists |
| ErrorHandling.SubclassDefaults | src/ssis_migrator/core/error_handler.py:65-122 | ParsingError, ConfigurationError, ValidationError, ConversionError and FileSystemError carry PARSING, CONFIGURATION, VALIDATION, CONVERSION and SYSTEM, each with default severity MEDIUM and its own context; the base error is SYSTEM and MEDIUM |
| ErrorHandling.CreateErrorContext | src/ssis_migrator/core/error_handler.py:366-382 | each context field holds its keyword argument, None when it is omitted |
| ErrorHandling.OneNamedAncestor | src/ssis_migrator/core/error_handler.py:209-229 | an exception class is an instance of at most one of the eight built-in classes the classifiers name, so the order of their `isinstance` tests does not matter |
| ErrorHandling.DetermineSeverity | src/ssis_migrator/core/error_handler.py:209-218 | HIGH iff the exception is an instance (the class or a subclass) of FileNotFoundError or PermissionError, CRITICAL iff of KeyboardInterrupt or SystemExit, never LOW (MEDIUM otherwise) |
| ErrorHandling.DetermineCategory | src/ssis_migrator/core/error_handler.py:220-229 | VALIDATION iff an instance of ValueError or TypeError, NETWORK iff of ConnectionError or TimeoutError, SYSTEM otherwise, subclasses included |
| ErrorHandling.GenerateSuggestions | src/ssis_migrator/core/error_handler.py:231-260 | three hints exactly for instances of FileNotFoundError, PermissionError, ValueError and TypeError (subclasses included), the hints of that class, and none otherwise |
| ErrorHandling.GenerateRecoveryAction | src/ssis_migrator/core/error_handler.py:262-271 | the class's own action for instances of those four (subclasses included), the generic action exactly for the other exceptions |
| ErrorHandling.DecodeErrorIsValueError | src/ssis_migrator/core/error_handler.py:209-271 | a UnicodeDecodeError (through UnicodeError a ValueError) is classified VALIDATION and MEDIUM, with the ValueError hints and the input-format recovery action |
| ErrorHandling.RefusedConnectionIsConnectionError | src/ssis_migrator/core/error_handler.py:220-271 | a ConnectionRefusedError (a ConnectionError) is classified NETWORK, with no hints and the generic recovery action |
| ErrorHandling.ErrorIdDistinct | src/ssis_migrator/core/error_handler.py:179 | ids start with `ERR_`, and ids built from different counter values differ whatever the timestamps |
| ErrorHandling.BuildReport | src/ssis_migrator/core/error_handler.py:178-194 | the report's id is built from the timestamp and the counter |
| ErrorHandling.BuildReportFields | src/ssis_migrator/core/error_handler.py:162-194 | explicit severity, category, context and non-empty suggestions win; otherwise the tool's own errors supply their fields, and other exceptions are classified, get an empty context and a recovery action |
| ErrorHandling.NumberedSnoc | src/ssis_migrator/core/error_handler.py:179-205 | a report numbered with the count of the reports before it keeps the stored run numbered |
| ErrorHandling.NumberedIdsDistinct | src/ssis_migrator/core/error_handler.py:179-180 | so the stored reports have pairwise distinct ids |
| ErrorHandling.CountSeverity | src/ssis_migrator/core/error_handler.py:348-349 | a severity count is at most the number of reports |
| ErrorHandling.CountCategory | src/ssis_migrator/core/error_handler.py:348-350 | a category count is at most the number of reports |
| ErrorHandling.SeverityCountsSum | src/ssis_migrator/core/error_handler.py:345-354 | the severity distribution sums to the number of reports |
| ErrorHandling.CategoryCountsSum | src/ssis_migrator/core/error_handler.py:345-355 | the category distribution sums to the number of reports |
| ErrorHandling.ErrorHandler.constructor | src/ssis_migrator/core/error_handler.py:128-132 | a new handler has no reports and counter 0 |
| ErrorHandling.ErrorHandler.HandleError | src/ssis_migrator/core/error_handler.py:139-207 | returns the report built for the current counter, appends exactly it, leaves earlier reports as they were and increments the counter by 1 |
| ErrorHandling.ErrorHandler.ClearErrors | src/ssis_migrator/core/error_handler.py:359-363 | no reports and counter 0 |
| ErrorHandling.ErrorHandler.GetErrorSummary | src/ssis_migrator/core/error_handler.py:340-357 | `{total_errors: 0}` iff there are no reports; otherwise the total, a distribution holding exactly the severities and categories present with their counts, and the last report's id |
| DtsxParser.VersionParts | src/ssis_migrator/parsers/dtsx_parser.py:187 | the version string joins major, minor and build with dots, so parts without dots are read back by splitting it at its dots |
| DtsxParser.Header | src/ssis_migrator/parsers/dtsx_parser.py:173-200 | the metadata step sets the dotted version from the root and leaves connections, variables, components, tasks, configuration files and environment empty |
| DtsxParser.SectionItems | src/ssis_migrator/parsers/dtsx_parser.py:207-215 | a package with neither a namespaced nor a bare section yields no items; every item found carries the item tag, namespaced or bare |
| DtsxParser.VariableSectionShared | src/ssis_migrator/parsers/dtsx_parser.py:230-238 | the package parser reads its variables from the same elements the variable parser reads parameters from |
| DtsxParser.Connections | src/ssis_migrator/parsers/dtsx_parser.py:217-220 | one connection record for every connection manager element, since each parsed record is non-empty |
| DtsxParser.Variables | src/ssis_migrator/parsers/dtsx_parser.py:240-243 | one variable record for every variable element of the section |
| DtsxParser.ParseConnectionManagers | src/ssis_migrator/parsers/dtsx_parser.py:202-223 | the loop appends the records of the connection manager elements in document order |
| DtsxParser.ParseVariables | src/ssis_migrator/parsers/dtsx_parser.py:225-246 | the loop appends the records of the variable elements in document order |
| DtsxParser.DataFlowComponents | src/ssis_migrator/parsers/dtsx_parser.py:279-304 | one component record for every `pipeline:component` under `ObjectData/pipeline:dataflow/pipeline:components` |
| DtsxParser.ParseDataFlowTask | src/ssis_migrator/parsers/dtsx_parser.py:279-304 | the data-flow parser returns the records of the component elements, empty when object data or the dataflow element is missing |
| DtsxParser.ParseComponents | src/ssis_migrator/parsers/dtsx_parser.py:298-302 | the loop appends one component record per element, in order |
| DtsxParser.ParseComponent | src/ssis_migrator/parsers/dtsx_parser.py:300 | the package parser delegates each component element to the component parser |
| DtsxParser.TaskPropertiesSpec | src/ssis_migrator/parsers/dtsx_parser.py:317-341 | a task has properties if and only if it is an Execute SQL task with SQL task data, and then exactly `connection`, `sql_statement` and `result_type` |
| DtsxParser.ExecAppend | src/ssis_migrator/parsers/dtsx_parser.py:263-277 | executables are dispatched one at a time, so the components and tasks of two runs of executables concatenate |
| DtsxParser.ExecTasksCount | src/ssis_migrator/parsers/dtsx_parser.py:266-277 | exactly one control-flow task per `Microsoft.PackageTask` executable; without data-flow tasks no component is collected |
| DtsxParser.ParseExecutables | src/ssis_migrator/parsers/dtsx_parser.py:248-277 | the loop extends the components for each data-flow task and appends a task for each package task, in document order |
| DtsxParser.FatalError | src/ssis_migrator/parsers/dtsx_parser.py:83-134 | no fatal error exactly when the file exists, has a `.dtsx` suffix in any case and is well-formed XML; otherwise a HIGH file-system error, a MEDIUM parsing error or a HIGH `parse_xml` parsing error, in that order of checks |
| DtsxParser.ValidateDtsxStructure | src/ssis_migrator/parsers/dtsx_parser.py:355-376 | a structurally valid file exists and is well-formed, and then fails `parse_file` only when its suffix is not `.dtsx` |
| DtsxParser.ValidStructureParses | src/ssis_migrator/parsers/dtsx_parser.py:355-376 | a file passing the structural check with a `.dtsx` suffix passes every check of the package parser |
| DtsxParser.StructureIgnoresSuffix | src/ssis_migrator/parsers/dtsx_parser.py:355-376 | the structural check does not look at the suffix: a structurally valid file with another suffix is still refused by the package parser, with the MEDIUM suffix error |
| DtsxParser.DiscoveredOnce | src/ssis_migrator/parsers/dtsx_parser.py:378-414 | each configuration file path is parsed into the result at most once, and the found paths are exactly the paths of the files kept |
| DtsxParser.ParseConfigurationFiles | src/ssis_migrator/parsers/dtsx_parser.py:378-414 | the files are the discovery over the four named patterns followed by the directory's `*.dtsConfig` files |
| DtsxParser.DiscoverAll | src/ssis_migrator/parsers/dtsx_parser.py:395-411 | the loop over the candidates leaves the files and found set of the discovery |
| DtsxParser.TryCandidate | src/ssis_migrator/parsers/dtsx_parser.py:397-402 | a candidate that exists, was not found before and parses is appended and marked found; any other leaves both unchanged |
| DtsxParser.AddTextRefs | src/ssis_migrator/parsers/dtsx_parser.py:424-436 | the loop over the connection strings or variable values sets every name they refer to from the environment and keeps every other entry |
| DtsxParser.AddValueRefs | src/ssis_migrator/parsers/dtsx_parser.py:441-445 | the loop over one task's property values sets every name they refer to from the environment and keeps every other entry |
| DtsxParser.AddTaskRefs | src/ssis_migrator/parsers/dtsx_parser.py:438-445 | the loop over the control-flow tasks sets every name their properties refer to and keeps every other entry |
| DtsxParser.ExtendsIsUpdate | src/ssis_migrator/parsers/dtsx_parser.py:428-429 | a table built this way is the base table updated with the environment values of the referred names, whichever order they were visited in |
| DtsxParser.ExtractAllEnvironmentVariables | src/ssis_migrator/parsers/dtsx_parser.py:416-445 | the corrected method returns the merged configuration environments overridden by the environment values of every referred name |
| DtsxParser.ExtractAllEnvironmentVariablesAsWritten | src/ssis_migrator/parsers/dtsx_parser.py:416-445 | as written the method ends without a `return`, so the caller receives None |
| DtsxParser.ReferencedNamesKept | src/ssis_migrator/parsers/dtsx_parser.py:416-445 | a referred name has its environment value; an unreferred name has its merged file value; no other name is in the table |
| DtsxParser.RefsCollected | src/ssis_migrator/parsers/dtsx_parser.py:424-445 | every name referred to by a connection string, a variable value or a task property value is collected |
| DtsxParser.PackageOf | src/ssis_migrator/parsers/dtsx_parser.py:136-155 | the package holds the parsed connections, variables, components, tasks and configuration files, and the corrected environment table built from them (Finding 2) |
| DtsxParser.EnvironmentIgnored | src/ssis_migrator/parsers/dtsx_parser.py:152 | the environment step does not read the package's current environment table |
| DtsxParser.ParseFile | src/ssis_migrator/parsers/dtsx_parser.py:67-171 | a fatal check records exactly one report and returns failure with that message and no package; otherwise success with the assembled package, with the corrected environment table, and no report |
| DtsxParser.ReportFatal | src/ssis_migrator/parsers/dtsx_parser.py:84-97 | a fatal check appends one report with the parser's context and returns failure with the error's message |
| DtsxParser.AssemblePackage | src/ssis_migrator/parsers/dtsx_parser.py:136-155 | the successful path assembles the package section by section, storing the corrected environment table |
| PythonGenerator.Stem | src/ssis_migrator/generators/python_generator.py:451 | the stem of a script name keeps the length of the name, has no spaces and is lower case |
| PythonGenerator.FirstMatchSpec | src/ssis_migrator/generators/python_generator.py:336-359 | an `if`/`elif` chain of substring tests gives the default when no keyword occurs, and otherwise the entry of the first keyword that occurs |
| PythonGenerator.ChainsAreFirstMatches | src/ssis_migrator/generators/python_generator.py:336-376 | the connection-import, component-import and dependency chains pick the first matching keyword in the order the source tests them |
| PythonGenerator.GatherSpec | src/ssis_migrator/generators/python_generator.py:336-359 | collecting lower-cased types succeeds exactly when every type is a string, and then holds exactly what each entry contributes |
| PythonGenerator.GatherStep | src/ssis_migrator/generators/python_generator.py:336-359 | one more entry keeps the collection going exactly when its type is a string, and adds what that entry contributes |
| PythonGenerator.GatherFirstFailure | src/ssis_migrator/generators/python_generator.py:337 | a failed collection carries the `.lower()` error of the first entry whose type is not a string |
| PythonGenerator.ImportsOf | src/ssis_migrator/generators/python_generator.py:324-362 | the imports are sorted without duplicates and always hold the six base modules |
| PythonGenerator.DependenciesOf | src/ssis_migrator/generators/python_generator.py:364-378 | the dependencies are sorted without duplicates and hold every standard dependency |
| PythonGenerator.ImportsSpec | src/ssis_migrator/generators/python_generator.py:324-362 | the imports can be collected exactly when every connection and component type is a string, and then a module is imported if and only if it is a base module or contributed by a connection or a component |
| PythonGenerator.DependenciesSpec | src/ssis_migrator/generators/python_generator.py:364-378 | the dependencies can be collected exactly when every component type is a string, and then a package is listed if and only if it is standard or contributed by a component |
| PythonGenerator.FileComponentNeedsExcel | src/ssis_migrator/generators/python_generator.py:371-372 | a component whose type mentions `file` brings in `openpyxl` and `xlrd` |
| PythonGenerator.DependenciesFollowImports | src/ssis_migrator/generators/python_generator.py:292-315 | whenever the imports can be collected, so can the dependencies |
| PythonGenerator.CollectLowered | src/ssis_migrator/generators/python_generator.py:336-359 | the loop over the entries leaves the collection of their lowered types' contributions, or the first failure |
| PythonGenerator.FailureStays | src/ssis_migrator/generators/python_generator.py:336-359 | once one entry fails, the whole collection fails with that error |
| PythonGenerator.CollectImports | src/ssis_migrator/generators/python_generator.py:324-362 | the method computes the collected imports |
| PythonGenerator.CollectDependencies | src/ssis_migrator/generators/python_generator.py:364-378 | the method computes the collected dependencies |
| PythonGenerator.Enumerated | src/ssis_migrator/generators/python_generator.py:430-439 | one line per entry, built from the entry and its position |
| PythonGenerator.StepsSpec | src/ssis_migrator/generators/python_generator.py:425-445 | one step per component in order, then one per task in order, then the `execute_control_flow(config)` call exactly when there are tasks |
| PythonGenerator.AppendEnumerated | src/ssis_migrator/generators/python_generator.py:430-439 | the loop appends the enumerated line of every entry |
| PythonGenerator.GenerateMainExecutionSteps | src/ssis_migrator/generators/python_generator.py:425-445 | the method joins the step lines with newlines |
| PythonGenerator.DispatchIsFirstMatch | src/ssis_migrator/generators/python_generator.py:575-599 | components dispatch on `source`, then `destination`, then `transform`, else generic; tasks on `sql`, then `script`, then `file`, else generic |
| PythonGenerator.DataFlowScriptSpec | src/ssis_migrator/generators/python_generator.py:447-473 | a data-flow script exists exactly when the component's name and type are strings; it is named by the lower-cased, underscored name plus `_dataflow.py` and holds the dispatched logic; otherwise the `.lower()` error of the offending value |
| PythonGenerator.TaskScriptSpec | src/ssis_migrator/generators/python_generator.py:475-501 | a task script exists exactly when its name and type are strings; it is named by the lower-cased, underscored name plus `_task.py` and holds the dispatched logic |
| PythonGenerator.ParsedComponentFallsBack | src/ssis_migrator/generators/python_generator.py:447-473 | a component without name and type, as the component parser produces, becomes `unknowncomponent_dataflow.py` with the generic logic |
| PythonGenerator.OleDbSourceExample | src/ssis_migrator/generators/python_generator.py:579-580 | an OLE DB source gets the source logic |
| PythonGenerator.SqlTaskExample | src/ssis_migrator/generators/python_generator.py:592-593 | an Execute SQL task gets the SQL task logic |
| PythonGenerator.ScriptTaskExample | src/ssis_migrator/generators/python_generator.py:592-595 | a script task, which has no `sql` in its type, gets the script task logic |
| PythonGenerator.FillAppend | src/ssis_migrator/generators/python_generator.py:68-172 | filling a template is done piece by piece, so two template parts fill to the concatenation of their fillings |
| PythonGenerator.FillHasPiece | src/ssis_migrator/generators/python_generator.py:68-172 | every piece of a template occurs in the filled text |
| PythonGenerator.FillHasBlock | src/ssis_migrator/generators/python_generator.py:68-172 | every fixed block of a template occurs in the filled text |
| PythonGenerator.FillHasField | src/ssis_migrator/generators/python_generator.py:68-172 | every field of a template occurs, filled in, in the filled text |
| PythonGenerator.MainTemplateLayout | src/ssis_migrator/generators/python_generator.py:68-172 | the main template holds the package name, the imports, the definition of `main` and the steps, at their places |
| PythonGenerator.MainScriptName | src/ssis_migrator/generators/python_generator.py:289 | the main script name is the package name with spaces as underscores, case kept, plus `_main.py` |
| PythonGenerator.MainFieldValues | src/ssis_migrator/generators/python_generator.py:301-310 | the template is formatted with the package name, the newline-joined imports and the steps |
| PythonGenerator.MainShowsDefinition | src/ssis_migrator/generators/python_generator.py:141 | the main module defines `main` |
| PythonGenerator.MainShowsPackage | src/ssis_migrator/generators/python_generator.py:303 | the main module names the package |
| PythonGenerator.MainShowsImports | src/ssis_migrator/generators/python_generator.py:306 | the main module shows the imports, one per line |
| PythonGenerator.MainShowsSteps | src/ssis_migrator/generators/python_generator.py:309 | the main module shows the execution steps |
| PythonGenerator.MainContentMentions | src/ssis_migrator/generators/python_generator.py:287-322 | the main module defines `main`, names the package, and shows every import and every step line |
| PythonGenerator.GenerateMainScript | src/ssis_migrator/generators/python_generator.py:287-322 | the main script, or the failure of collecting its imports or dependencies |
| PythonGenerator.MapLines | src/ssis_migrator/generators/python_generator.py:604-608 | one formatted line per entry, in order |
| PythonGenerator.ListingPlaceholder | src/ssis_migrator/generators/python_generator.py:609 | a listing is its placeholder comment exactly when there are no lines |
| PythonGenerator.ListingHasLine | src/ssis_migrator/generators/python_generator.py:609 | every line of a listing occurs in it |
| PythonGenerator.FormattersPlaceholder | src/ssis_migrator/generators/python_generator.py:601-626 | each formatter returns its placeholder comment exactly on empty input |
| PythonGenerator.ConnectionsShowNames | src/ssis_migrator/generators/python_generator.py:601-609 | the connection listing shows every connection's name |
| PythonGenerator.VariablesShowNames | src/ssis_migrator/generators/python_generator.py:611-619 | the variable listing shows every variable's name |
| PythonGenerator.EnvironmentShowsEntries | src/ssis_migrator/generators/python_generator.py:621-626 | the environment listing shows every name and every value |
| PythonGenerator.FormatEntries | src/ssis_migrator/generators/python_generator.py:601-626 | the loop of each formatter leaves the joined lines, or the placeholder when there are none |
| PythonGenerator.ConfigTemplateLayout | src/ssis_migrator/generators/python_generator.py:508-536 | the configuration module holds the connection, variable and environment listings, at their places |
| PythonGenerator.ConfigFieldValues | src/ssis_migrator/generators/python_generator.py:515-525 | the configuration listings are the formatted connections, variables and environment variables of the package |
| PythonGenerator.ConfigShowsConnections | src/ssis_migrator/generators/python_generator.py:514-516 | the configuration module shows the connection listing |
| PythonGenerator.ConfigShowsVariables | src/ssis_migrator/generators/python_generator.py:519-521 | the configuration module shows the variable listing |
| PythonGenerator.ConfigShowsEnvironment | src/ssis_migrator/generators/python_generator.py:524-526 | the configuration module shows the environment-variable listing |
| PythonGenerator.ConfigShowsNames | src/ssis_migrator/generators/python_generator.py:503-546 | the configuration module shows every connection's and every variable's name |
| PythonGenerator.GenerateConfigScript | src/ssis_migrator/generators/python_generator.py:503-546 | the configuration script, named by the package stem plus `_config.py` |
| PythonGenerator.RequirementsLines | src/ssis_migrator/generators/python_generator.py:557-573 | the requirements file is the two header lines, with the literal `{package.name}` because the header is not an f-string, a blank line, then one dependency per line |
| PythonGenerator.Results | src/ssis_migrator/generators/python_generator.py:243-252 | the generator is applied to every entry, in order |
| PythonGenerator.Produced | src/ssis_migrator/generators/python_generator.py:245-246 | only successful results are kept, so never more scripts than entries |
| PythonGenerator.Failures | src/ssis_migrator/generators/python_generator.py:466-473 | every result is either a kept script or a reported failure |
| PythonGenerator.AllProduced | src/ssis_migrator/generators/python_generator.py:243-252 | when every result succeeds, the kept scripts are all the results in order |
| PythonGenerator.FiledReports | src/ssis_migrator/generators/python_generator.py:466-501 | one report per failure |
| PythonGenerator.ScriptsOfMain | src/ssis_migrator/generators/python_generator.py:236-262 | the generated scripts are the main script, the kept component and task scripts, the configuration module and the requirements file |
| PythonGenerator.GenerationSucceedsIff | src/ssis_migrator/generators/python_generator.py:233-285 | generation succeeds exactly when every connection type and every component type is a string |
| PythonGenerator.OneScriptPerEntry | src/ssis_migrator/generators/python_generator.py:236-262 | with string names and types throughout, one script per component and per task plus three |
| PythonGenerator.ScriptNames | src/ssis_migrator/generators/python_generator.py:239-262 | every run opens with `<name>_main.py` and closes with `<stem>_config.py` and `requirements.txt` |
| PythonGenerator.EmptyPackageScripts | src/ssis_migrator/generators/python_generator.py:233-270 | an empty package still succeeds, with exactly the main, configuration and requirements scripts |
| PythonGenerator.RecordFailure | src/ssis_migrator/generators/python_generator.py:466-501 | one failed script appends one report to the handler |
| PythonGenerator.AddNext | src/ssis_migrator/generators/python_generator.py:244-246 | one turn of the loop keeps the script or reports its failure |
| PythonGenerator.AddScripts | src/ssis_migrator/generators/python_generator.py:243-252 | the loop keeps every produced script in order and reports every failure in order |
| PythonGenerator.AddTwoRounds | src/ssis_migrator/generators/python_generator.py:243-252 | a component round and then a task round: the scripts of both in order, and the reports of the second continue those of the first |
| PythonGenerator.ComponentScripts | src/ssis_migrator/generators/python_generator.py:239-252 | the data-flow scripts, then task scripts, after the main script; every failure is reported |
| PythonGenerator.AssembleScripts | src/ssis_migrator/generators/python_generator.py:239-262 | the rest of the generation once the main script exists |
| PythonGenerator.GenerationFailed | src/ssis_migrator/generators/python_generator.py:272-285 | a failure is reported once as a HIGH conversion error and no script is returned |
| PythonGenerator.GenerationSucceeded | src/ssis_migrator/generators/python_generator.py:264-270 | success with the assembled scripts and the one warning that counts them |
| PythonGenerator.GenerateScripts | src/ssis_migrator/generators/python_generator.py:222-285 | success if and only if the main script can be built; then the scripts in assembly order, one warning, and one report per dropped script; otherwise one report, no script and the error message |

## Left out

- The XML library. `ET.parse`, `find`, `findall` and `iter` are modelled on an already-parsed tree (`Xml.Element`). A document is either a tree or malformed.
- File-system access. `Path.exists`, `suffix`, `stem`, `parent`, `glob` and `absolute` act on a `Fs.FileSystem` value. `absolute()` is the identity, so paths must already be absolute. Writing error reports to JSON and writing the generated scripts are not modelled.
- `os.environ`, `datetime.now` and `traceback`. They are a map parameter, a `Stamp` parameter and an absent traceback. `handle_error` reads the clock twice, once for the report id (`error_handler.py:179`) and once for its timestamp (`error_handler.py:184`); one `Stamp` stands for both readings, so the model does not capture an id and a timestamp that fall in different seconds.
- Logging (`LoggerMixin`). A logging call has no effect on the model.
- `psutil`/`platform` metadata, the `_collect_metadata` part of a report. It is left empty.
- ConnectionConverter.ParseConnectionString: a string with `://` and no `;` gives no parameters. The source's URL branch (`urlparse`, `parse_qs`) is a foreign library call.
- The float and datetime arms of `_convert_value` and `_validate_value_type`. Floating point and date parsing are not modelled; only the boolean, integer, string, object and unknown arms are.
- The decryption in `_decrypt_value`. `base64` decoding is a `decode` parameter, and no real algorithm exists in the source.
- The verbatim text of generated-code templates. Templates are constant strings, and where contents matter, sequences of fixed blocks and fields.
- `_generate_data_processing_functions` (`python_generator.py:380-423`). Its text is the `functions` parameter of the main script. The mapping it calls is modelled in `DataFlowMapper`. The exception fallback to `data_flow_template` is not modelled.
- `_generate_data_flow_functions` and `_generate_control_flow_functions`. Nothing in the core calls them.
- `ConfigParser.resolve_configuration_dependencies`. It only probes the file system.
- `_generate_variable_code` (`variable_handler.py:320-430`) and `_generate_validation_code` (`variable_handler.py:476-530`). They produce the `python_code` and `validation_code` fields of the handling result: the `VariableManager` class text with one loading line per variable, parameter and environment variable, and a fixed block of validation helpers. Both are template text, so `VariableHandler.VariableHandlingResult` has no such fields; the other generated field, `config_code`, is modelled (`VariableHandler.GenerateConfigCode`).
- ErrorHandling.IsA: an exception class has at most one base class (`OtherBuiltin`'s `base`). A class derived from two of the named built-in classes, such as `class E(ValueError, TypeError)`, is not modelled, so DetermineSeverity, DetermineCategory, GenerateSuggestions and GenerateRecoveryAction make no promise for it; for such a class the source's first matching `isinstance` test decides.
- PythonGenerator package: the generator takes its own package value, whose records are dictionaries of string or non-string values. How the command layer builds it from the parsed package is not part of this model.
- Dictionary iteration order. Where Python iterates a dict populated in a loop, the model iterates the order the source inserts it. Where the source iterates a set (`list(set(...))`), the model quantifies over every order (`AddValueRefs`, `ConfigParser.ValidateConfiguration`).
- Exception branches that cannot be reached for the modelled inputs, for example the `except` of `_generate_config_script`. They are not modelled.
- The CLI, `core/config.py`, `converter.py`, `migration_planner.py`, `rollback_manager.py` and the validators. They are not part of this model.
- The `namespaces` dictionary the parsers pass to `find`. It is always the three SSIS namespace URIs, which are the constants `Xml.DtsUri`, `Xml.PipelineUri` and `Xml.SqlTaskUri`.
- Strs.Lower: lower-cases ASCII letters only. Python's `str.lower()` maps every Unicode letter, and some map to two characters (`İ` lower-cases to `i` plus a combining dot). The same holds for Strs.Upper and `str.upper()` (`ß` upper-cases to `SS`).
- ConnectionConverter.ProviderMeaning: provider names are compared after ASCII-only upper-casing, where `str.upper()` maps every Unicode letter. A provider text that matches a key only under Unicode upper-casing is not covered: `ſqlite` (with U+017F, the long s) upper-cases to `SQLITE` in Python and so is SQLite there, but stays UNKNOWN in the model.
- VariableHandler.ConvertEnvironmentVariable: the secret test lower-cases the name in ASCII only. A name such as `API_\u212AEY` (with the Kelvin sign U+212A for `K`) lower-cases to `api_key` in Python and so is secret there, but is not secret in the model.
- VariableHandler.SecretIgnoresCase: states case-insensitivity for ASCII letters only, for the same reason.
- DataFlowMapper.KindIsFirstMatch: component names and class ids are lower-cased in ASCII only.
- DataFlowMapper.FunctionSuffix: lower-cases in ASCII only, so a non-ASCII letter keeps its case in the function name.
- PythonGenerator.Stem: lower-cases in ASCII only.
- Strs.ParseInt: accepts ASCII digits only. Python's `int()` also accepts other Unicode decimal digits, such as Arabic-Indic ones. So VariableHandler.ConvertValueSpec and ComponentParser.ParseColumn are not promised for texts with non-ASCII digits.
- PyRepr.StrRepr: above U+00FF only the whitespace characters are taken as unprintable. Python's `repr` also escapes format, unassigned, private-use and surrogate characters, which the model writes as they are. VariableHandler.GenerateConfigCode and the data-flow source code inherit this.
- VariableHandler.ConvertedTypeCheck: FLOAT and DATETIME texts are taken as parsable, because floating point and date parsing are not modelled.
- VariableHandler.ValidateValueType: the FLOAT and DATETIME checks always pass, for the same reason.
- DtsxParser.PackageOf: stores the corrected environment table, the corrected half of Finding 2. The source stores None. The same holds for DtsxParser.ParseFile and DtsxParser.AssemblePackage.
- DtsxParser.ParseFile: the stored environment table is the corrected one, not the source's None (Finding 2).
- DtsxParser.AssemblePackage: the stored environment table is the corrected one, not the source's None (Finding 2).

## Findings

| source | as written | input that shows it | evidently intended | confidence | as-written member | corrected member |
|---|---|---|---|---|---|---|
| src/ssis_migrator/generators/connection_converter.py:156-163 | the per-connection `except` passes `connection_name=` to `create_error_context`, which has no such parameter, so the handler itself raises `TypeError` and the outer handler turns the whole call into one HIGH failure | any package with one ADO.NET connection (its converter method is not defined) | record one MEDIUM conversion report for the failing connection and keep converting the rest | not executed | ConnectionConverter.ConvertConnectionsAsWritten | ConnectionConverter.ConvertConnections |
| src/ssis_migrator/parsers/dtsx_parser.py:416-445 | `_extract_all_environment_variables` builds `env_vars` but has no `return`, so `package.environment_variables` becomes `None` | any package, for example one with no connections, variables or tasks | return the table: the merged configuration environments with every referred name set from the environment | not executed | DtsxParser.ExtractAllEnvironmentVariablesAsWritten | DtsxParser.ReferencedNamesKept |
| src/ssis_migrator/generators/connection_converter.py:182 | the web count tests the kinds `http`, `ftp` and `smtp`, but the HTTP converter produces kind `web` and the others fail, so `web_connections` is always 0 | one HTTP connection manager | count the `web` kind so that database, file, web and unknown counts partition `connection_count` | not executed | ConnectionConverter.WebCountAsWrittenZero | ConnectionConverter.CountsPartition |
