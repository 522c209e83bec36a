// `.dtsConfig` files: their `Configuration` entries, with encrypted values
// replaced by a placeholder, the environment variables their values refer
// to, file-level metadata, validation warnings and the override-by-path
// merge of several files.
module ConfigParser {
  import opened Wrappers
  import opened Strs
  import opened Xml
  import opened Fs
  import opened EnvRefs
  import Assoc

  datatype ConfigEntry = ConfigEntry(
    path: string,
    value: string,
    isEncrypted: bool,
    encryptedValue: Option<string>,
    targetType: string,
    description: string)

  /** A metadata value: element text, or the empty namespace table ElementTree leaves. */
  datatype MetaValue = Text(text: string) | NoNamespaces

  datatype ConfigFile = ConfigFile(
    filePath: string,
    entries: seq<ConfigEntry>,
    dependencies: seq<string>,
    environmentVariables: map<string, string>,
    metadata: map<string, MetaValue>)

  /** The target types validation accepts. */
  const ConfigTypes := ["String", "Int32", "Boolean", "DateTime", "Double"]

  /** `os.environ.get(name, '')`. */
  function EnvGet(env: map<string, string>, name: string): string {
    if name in env then env[name] else ""
  }

  /**
   * `_decrypt_value`: no decryption happens; the value is base64-decoded
   * (`decode`, which gives the byte count or fails) only to report a size.
   * A missing value makes the decoder fail too.
   */
  function DecryptValue(value: Option<string>, decode: string -> Option<nat>): (r: string)
    ensures r == "[DECRYPTION_FAILED]" || StartsWith(r, "[DECRYPTED: ")
  {
    match value
    case None => "[DECRYPTION_FAILED]"
    case Some(v) =>
      match decode(v)
      case None => "[DECRYPTION_FAILED]"
      case Some(n) => "[DECRYPTED: " + NatToString(n) + " bytes]"
  }

  /** The text of the `ConfiguredValue` child; `''` without one, and nothing for an empty element. */
  function ConfiguredText(e: Element): Option<string> {
    match FindChild(e, "ConfiguredValue")
    case None => Some("")
    case Some(c) => c.text
  }

  predicate IsEncryptedEntry(e: Element) {
    Lower(Get(e, "Encrypted", "false")) == "true"
  }

  /**
   * `_parse_config_entry`. An unencrypted entry without text has no string
   * value; every caller then fails (`re.findall` on None), so the model
   * rejects such an entry here.
   */
  function ParseConfigEntry(e: Element, decode: string -> Option<nat>): (r: Option<ConfigEntry>)
    ensures r.Some? <==> IsEncryptedEntry(e) || ConfiguredText(e).Some?
    ensures r.Some? ==> (r.value.path == Get(e, "Path", "")
      && r.value.targetType == Get(e, "ValueType", "String")
      && r.value.description == Get(e, "Description", "")
      && r.value.isEncrypted == IsEncryptedEntry(e))
    ensures r.Some? && r.value.isEncrypted ==>
      r.value.encryptedValue == ConfiguredText(e) && r.value.value == DecryptValue(ConfiguredText(e), decode)
    ensures r.Some? && !r.value.isEncrypted ==>
      r.value.encryptedValue.None? && Some(r.value.value) == ConfiguredText(e)
  {
    var path := Get(e, "Path", "");
    var targetType := Get(e, "ValueType", "String");
    var description := Get(e, "Description", "");
    var value := ConfiguredText(e);
    if IsEncryptedEntry(e) then
      Some(ConfigEntry(path, DecryptValue(value, decode), true, value, targetType, description))
    else if value.Some? then
      Some(ConfigEntry(path, value.value, false, None, targetType, description))
    else None
  }

  /** An encrypted entry never carries its stored text as its value. */
  lemma EncryptedValueHidden(e: Element, decode: string -> Option<nat>)
    requires IsEncryptedEntry(e)
    ensures ParseConfigEntry(e, decode).Some?
    ensures var entry := ParseConfigEntry(e, decode).value;
      entry.isEncrypted && StartsWith(entry.value, "[DECRYPT")
  {
    var entry := ParseConfigEntry(e, decode).value;
    assert StartsWith("[DECRYPTION_FAILED]", "[DECRYPT");
    if StartsWith(entry.value, "[DECRYPTED: ") {
      assert entry.value[..8] == "[DECRYPTED: "[..8];
    }
  }

  /** Without a `ConfiguredValue` child an unencrypted entry has the empty value. */
  lemma MissingValueIsEmpty(e: Element, decode: string -> Option<nat>)
    requires FindChild(e, "ConfiguredValue").None? && !IsEncryptedEntry(e)
    ensures ParseConfigEntry(e, decode).Some? && ParseConfigEntry(e, decode).value.value == ""
  {
  }

  /** `_parse_config_entries` over the `Configuration` elements, failing if one entry has no value. */
  function Entries(elems: seq<Element>, decode: string -> Option<nat>): (r: Option<seq<ConfigEntry>>)
    ensures r.Some? <==> forall k :: 0 <= k < |elems| ==> ParseConfigEntry(elems[k], decode).Some?
    ensures r.Some? ==> (|r.value| == |elems|
      && forall k :: 0 <= k < |elems| ==> r.value[k] == ParseConfigEntry(elems[k], decode).value)
  {
    if |elems| == 0 then Some([])
    else
      match ParseConfigEntry(elems[0], decode)
      case None => None
      case Some(e) =>
        match Entries(elems[1..], decode)
        case None =>
          assert forall k :: 0 < k < |elems| ==> elems[k] == elems[1..][k - 1];
          None
        case Some(rest) => Some([e] + rest)
  }

  /** The union of a list of sets. */
  function Union(xs: seq<set<string>>): set<string> {
    if |xs| == 0 then {} else Union(xs[..|xs| - 1]) + xs[|xs| - 1]
  }

  lemma {:induction false} UnionSpec(xs: seq<set<string>>, n: string)
    ensures n in Union(xs) <==> exists i :: 0 <= i < |xs| && n in xs[i]
  {
    if |xs| > 0 {
      var front := xs[..|xs| - 1];
      UnionSpec(front, n);
      if exists i :: 0 <= i < |xs| && n in xs[i] {
        var i :| 0 <= i < |xs| && n in xs[i];
        if i < |front| {
          assert front[i] == xs[i];
        }
      }
      if exists i :: 0 <= i < |front| && n in front[i] {
        var i :| 0 <= i < |front| && n in front[i];
        assert front[i] == xs[i];
      }
    }
  }

  /** The names each entry's value refers to. */
  function RefSets(entries: seq<ConfigEntry>): (r: seq<set<string>>)
    ensures |r| == |entries|
  {
    seq(|entries|, i requires 0 <= i < |entries| => FindEnvironmentVariables(entries[i].value))
  }

  /** Every name referred to by some entry's value. */
  function Refs(entries: seq<ConfigEntry>): set<string> {
    Union(RefSets(entries))
  }

  /** The environment table of a file: each referred name with its value in `env`, `''` if unset. */
  function EnvironmentOf(entries: seq<ConfigEntry>, env: map<string, string>): map<string, string> {
    map n | n in Refs(entries) :: EnvGet(env, n)
  }

  /** A name is in the table iff some entry refers to it, and it maps to its environment value. */
  lemma EnvironmentOfSpec(entries: seq<ConfigEntry>, env: map<string, string>, n: string)
    ensures n in EnvironmentOf(entries, env) <==>
      exists i :: 0 <= i < |entries| && n in FindEnvironmentVariables(entries[i].value)
    ensures n in EnvironmentOf(entries, env) ==> EnvironmentOf(entries, env)[n] == EnvGet(env, n)
  {
    UnionSpec(RefSets(entries), n);
    if exists i :: 0 <= i < |entries| && n in FindEnvironmentVariables(entries[i].value) {
      var i :| 0 <= i < |entries| && n in FindEnvironmentVariables(entries[i].value);
      assert n in RefSets(entries)[i];
    }
  }

  /** A table holding exactly the names of `s`, each with its environment value, is `map n | n in s :: EnvGet(env, n)`. */
  lemma EnvTable(m: map<string, string>, s: set<string>, env: map<string, string>)
    requires forall n :: n in m <==> n in s
    requires forall n :: n in m ==> m[n] == EnvGet(env, n)
    ensures m == map n | n in s :: EnvGet(env, n)
  {
  }

  /** The inner loop: `env_vars[name] = os.environ.get(name, '')` for each name of a set. */
  method SetFromEnvironment(vars: map<string, string>, names: set<string>, env: map<string, string>)
    returns (r: map<string, string>)
    ensures forall n :: n in r <==> n in vars || n in names
    ensures forall n :: n in r ==> r[n] == (if n in names then EnvGet(env, n) else vars[n])
  {
    r := vars;
    var rest := names;
    while rest != {}
      invariant rest <= names
      invariant forall n :: n in r <==> n in vars || n in names - rest
      invariant forall n :: n in r ==> r[n] == (if n in names - rest then EnvGet(env, n) else vars[n])
      decreases |rest|
    {
      var n :| n in rest;
      r := r[n := EnvGet(env, n)];
      rest := rest - {n};
    }
  }

  /** `_extract_environment_variables`: every name found, with its environment value. */
  method ExtractEnvironmentVariables(entries: seq<ConfigEntry>, env: map<string, string>)
    returns (vars: map<string, string>)
    ensures vars == EnvironmentOf(entries, env)
  {
    vars := map[];
    var i := 0;
    while i < |entries|
      invariant 0 <= i <= |entries|
      invariant vars == EnvironmentOf(entries[..i], env)
    {
      assert RefSets(entries[..i + 1]) == RefSets(entries[..i]) + [FindEnvironmentVariables(entries[i].value)];
      vars := SetFromEnvironment(vars, FindEnvironmentVariables(entries[i].value), env);
      EnvTable(vars, Refs(entries[..i + 1]), env);
      i := i + 1;
    }
    assert entries[..i] == entries;
  }

  /** `_parse_metadata`'s contribution of one element: tags ending in `Metadata` or `Info`. */
  function MetadataEntry(e: Element): Option<(string, MetaValue)> {
    if EndsWith(e.tag, "Metadata") || EndsWith(e.tag, "Info") then
      Some((e.tag, Text(match e.text case Some(t) => t case None => "")))
    else None
  }

  function MetadataEntries(elems: seq<Element>): (r: seq<Option<(string, MetaValue)>>)
    ensures |r| == |elems|
  {
    seq(|elems|, i requires 0 <= i < |elems| => MetadataEntry(elems[i]))
  }

  function InitialMetadata(root: Element): map<string, MetaValue> {
    map["root_element" := Text(root.tag), "namespaces" := NoNamespaces]
  }

  /** The metadata table: root tag, no namespaces, then each matching element in `iter()` order. */
  function Metadata(root: Element): map<string, MetaValue> {
    Assoc.Fold(InitialMetadata(root), MetadataEntries(Iter(root)))
  }

  /** `_parse_metadata`. */
  method ParseMetadata(root: Element) returns (md: map<string, MetaValue>)
    ensures md == Metadata(root)
  {
    var elems := Iter(root);
    md := InitialMetadata(root);
    var i := 0;
    while i < |elems|
      invariant 0 <= i <= |elems|
      invariant md == Assoc.Fold(InitialMetadata(root), MetadataEntries(elems[..i]))
    {
      assert MetadataEntries(elems[..i + 1]) == MetadataEntries(elems[..i]) + [MetadataEntry(elems[i])];
      Assoc.FoldSnoc(InitialMetadata(root), MetadataEntries(elems[..i]), MetadataEntry(elems[i]));
      var e := elems[i];
      if EndsWith(e.tag, "Metadata") || EndsWith(e.tag, "Info") {
        md := md[e.tag := Text(match e.text case Some(t) => t case None => "")];
      }
      i := i + 1;
    }
    assert elems[..i] == elems;
  }

  /** The root tag survives: no element tag `root_element` can end in `Metadata` or `Info`. */
  lemma MetadataRootElement(root: Element)
    ensures "root_element" in Metadata(root) && Metadata(root)["root_element"] == Text(root.tag)
  {
    var es := MetadataEntries(Iter(root));
    assert "root_element"[|"root_element"| - 8..] != "Metadata";
    assert "root_element"[|"root_element"| - 4..] != "Info";
    forall j | 0 <= j < |es| ensures !Assoc.WritesKey(es, j, "root_element") {
    }
    Assoc.FoldUntouched(InitialMetadata(root), es, "root_element");
  }

  /** Besides the two fixed keys, only tags ending in `Metadata` or `Info` become keys. */
  lemma MetadataKeys(root: Element, k: string)
    requires k in Metadata(root) && k != "root_element" && k != "namespaces"
    ensures EndsWith(k, "Metadata") || EndsWith(k, "Info")
    ensures exists j :: 0 <= j < |Iter(root)| && Iter(root)[j].tag == k
  {
    var es := MetadataEntries(Iter(root));
    Assoc.FoldKeys(InitialMetadata(root), es, k);
    var j :| Assoc.WritesKey(es, j, k);
    assert Iter(root)[j].tag == k;
  }

  /**
   * `parse_config_file` on the file system: None for a missing path, a
   * suffix other than `.dtsconfig` in any case, malformed XML, or an entry
   * without a value; otherwise the entries of every `Configuration` below
   * the root, their environment table and the metadata.
   */
  function ParseConfigFile(fs: FileSystem, path: string, decode: string -> Option<nat>, env: map<string, string>)
    : (r: Option<ConfigFile>)
    ensures r.Some? ==> Exists(fs, path) && Lower(Suffix(path)) == ".dtsconfig" && fs.files[path].WellFormed?
    ensures r.Some? ==> r.value.filePath == path && r.value.dependencies == []
    ensures r.Some? ==>
      Entries(Descendants(fs.files[path].root, "Configuration"), decode) == Some(r.value.entries)
      && r.value.environmentVariables == EnvironmentOf(r.value.entries, env)
      && r.value.metadata == Metadata(fs.files[path].root)
    ensures (Exists(fs, path) && Lower(Suffix(path)) == ".dtsconfig" && fs.files[path].WellFormed?
      && Entries(Descendants(fs.files[path].root, "Configuration"), decode).Some?) ==> r.Some?
  {
    if !Exists(fs, path) || Lower(Suffix(path)) != ".dtsconfig" then None
    else
      match fs.files[path]
      case Malformed(_) => None
      case WellFormed(root) =>
        match Entries(Descendants(root, "Configuration"), decode)
        case None => None
        case Some(es) => Some(ConfigFile(path, es, [], EnvironmentOf(es, env), Metadata(root)))
  }

  datatype Validation = Validation(
    isValid: bool,
    errors: seq<string>,
    warnings: seq<string>,
    encryptedEntries: seq<string>,
    missingEnvVars: seq<string>)

  /** The names of a set that the environment leaves unset or empty. */
  function MissingFrom(names: set<string>, env: map<string, string>): set<string> {
    set n | n in names && EnvGet(env, n) == ""
  }

  /** The names a value refers to that the environment leaves unset or empty. */
  function MissingIn(v: string, env: map<string, string>): set<string> {
    MissingFrom(FindEnvironmentVariables(v), env)
  }

  /** `xs` lists each element of `s` exactly once, in some order. */
  ghost predicate Enumerates(xs: seq<string>, s: set<string>) {
    (forall n :: n in xs <==> n in s) && forall i, j :: 0 <= i < j < |xs| ==> xs[i] != xs[j]
  }

  function MissingWarnings(names: seq<string>): (r: seq<string>)
    ensures |r| == |names|
  {
    seq(|names|, k requires 0 <= k < |names| => "Missing environment variable: " + names[k])
  }

  /** The warnings for one entry, with its missing names in the order they were visited. */
  function EntryWarnings(e: ConfigEntry, missing: seq<string>): seq<string> {
    (if e.isEncrypted then ["Encrypted entry found: " + e.path] else [])
    + MissingWarnings(missing)
    + (if e.targetType in ConfigTypes then [] else ["Unknown target type: " + e.targetType])
  }

  function Warnings(entries: seq<ConfigEntry>, missing: seq<seq<string>>): seq<string>
    requires |missing| == |entries|
  {
    if |entries| == 0 then []
    else
      var n := |entries| - 1;
      Warnings(entries[..n], missing[..n]) + EntryWarnings(entries[n], missing[n])
  }

  function Flatten(xss: seq<seq<string>>): seq<string> {
    if |xss| == 0 then [] else Flatten(xss[..|xss| - 1]) + xss[|xss| - 1]
  }

  /** The paths of the encrypted entries, in order. */
  function EncryptedPaths(entries: seq<ConfigEntry>): seq<string> {
    if |entries| == 0 then []
    else
      var n := |entries| - 1;
      EncryptedPaths(entries[..n]) + (if entries[n].isEncrypted then [entries[n].path] else [])
  }

  function UnknownTypeCount(entries: seq<ConfigEntry>): nat {
    if |entries| == 0 then 0
    else
      var n := |entries| - 1;
      UnknownTypeCount(entries[..n]) + (if entries[n].targetType in ConfigTypes then 0 else 1)
  }

  /** The inner loop of the validation: the names of the set with no environment value, as visited. */
  method MissingNames(names: set<string>, env: map<string, string>) returns (found: seq<string>)
    ensures Enumerates(found, MissingFrom(names, env))
  {
    found := [];
    var rest := names;
    while rest != {}
      invariant rest <= names
      invariant forall x :: x in found <==> x in names && x !in rest && EnvGet(env, x) == ""
      invariant forall i, j :: 0 <= i < j < |found| ==> found[i] != found[j]
      decreases |rest|
    {
      var n :| n in rest;
      if EnvGet(env, n) == "" {
        found := found + [n];
      }
      rest := rest - {n};
    }
  }

  /** Validating one entry: its path if encrypted, its missing names as visited, its warnings. */
  method ValidateEntry(e: ConfigEntry, env: map<string, string>)
    returns (encrypted: seq<string>, found: seq<string>, warnings: seq<string>)
    ensures encrypted == (if e.isEncrypted then [e.path] else [])
    ensures Enumerates(found, MissingIn(e.value, env))
    ensures warnings == EntryWarnings(e, found)
  {
    encrypted, warnings := [], [];
    if e.isEncrypted {
      encrypted := [e.path];
      warnings := ["Encrypted entry found: " + e.path];
    }
    found := MissingNames(FindEnvironmentVariables(e.value), env);
    warnings := warnings + MissingWarnings(found);
    if e.targetType !in ConfigTypes {
      warnings := warnings + ["Unknown target type: " + e.targetType];
    }
  }

  /**
   * `validate_configuration`. Each entry's referenced names are a set,
   * visited in no particular order: `missing[i]` is the order in which the
   * missing names of entry `i` were reported.
   */
  method ValidateConfiguration(config: ConfigFile, env: map<string, string>)
    returns (r: Validation, ghost missing: seq<seq<string>>)
    ensures r.isValid && r.errors == []
    ensures r.encryptedEntries == EncryptedPaths(config.entries)
    ensures |missing| == |config.entries|
    ensures forall i :: 0 <= i < |missing| ==> Enumerates(missing[i], MissingIn(config.entries[i].value, env))
    ensures r.missingEnvVars == Flatten(missing)
    ensures r.warnings == Warnings(config.entries, missing)
  {
    var entries := config.entries;
    var warnings: seq<string> := [];
    var encrypted: seq<string> := [];
    var missingVars: seq<string> := [];
    missing := [];
    var i := 0;
    while i < |entries|
      invariant 0 <= i <= |entries|
      invariant |missing| == i
      invariant forall k :: 0 <= k < i ==> Enumerates(missing[k], MissingIn(entries[k].value, env))
      invariant encrypted == EncryptedPaths(entries[..i])
      invariant missingVars == Flatten(missing)
      invariant warnings == Warnings(entries[..i], missing)
    {
      var enc, found, ws := ValidateEntry(entries[i], env);
      ValidationStep(entries, missing, found);
      encrypted := encrypted + enc;
      missingVars := missingVars + found;
      warnings := warnings + ws;
      missing := missing + [found];
      i := i + 1;
    }
    assert entries[..i] == entries;
    r := Validation(true, [], warnings, encrypted, missingVars);
  }

  /** What one more entry adds to the three accumulations of the validation. */
  lemma ValidationStep(entries: seq<ConfigEntry>, missing: seq<seq<string>>, found: seq<string>)
    requires |missing| < |entries|
    ensures var i := |missing|;
      EncryptedPaths(entries[..i + 1]) == EncryptedPaths(entries[..i]) + (if entries[i].isEncrypted then [entries[i].path] else [])
      && Flatten(missing + [found]) == Flatten(missing) + found
      && Warnings(entries[..i + 1], missing + [found]) == Warnings(entries[..i], missing) + EntryWarnings(entries[i], found)
  {
    var i := |missing|;
    EntriesPrefix(entries, i);
    assert (missing + [found])[..i] == missing;
    WarningsSnoc(entries[..i + 1], missing + [found]);
  }

  lemma EntriesPrefix(entries: seq<ConfigEntry>, i: nat)
    requires i < |entries|
    ensures entries[..i + 1][..i] == entries[..i] && entries[..i + 1][i] == entries[i]
  {
  }

  lemma WarningsSnoc(entries: seq<ConfigEntry>, missing: seq<seq<string>>)
    requires |missing| == |entries| > 0
    ensures var n := |entries| - 1;
      Warnings(entries, missing) == Warnings(entries[..n], missing[..n]) + EntryWarnings(entries[n], missing[n])
  {
  }

  lemma {:induction false} FlattenLength(xss: seq<seq<string>>, ys: seq<nat>)
    requires |ys| == |xss| && forall i :: 0 <= i < |xss| ==> ys[i] == |xss[i]|
    ensures |Flatten(xss)| == Sum(ys)
  {
    if |xss| > 0 {
      FlattenLength(xss[..|xss| - 1], ys[..|ys| - 1]);
    }
  }

  function Sum(ys: seq<nat>): nat {
    if |ys| == 0 then 0 else Sum(ys[..|ys| - 1]) + ys[|ys| - 1]
  }

  /** One warning per encrypted entry, per missing reference and per unknown target type. */
  lemma {:induction false} WarningCount(entries: seq<ConfigEntry>, missing: seq<seq<string>>)
    requires |missing| == |entries|
    ensures |Warnings(entries, missing)| == |EncryptedPaths(entries)| + |Flatten(missing)| + UnknownTypeCount(entries)
  {
    if |entries| > 0 {
      WarningCount(entries[..|entries| - 1], missing[..|entries| - 1]);
    }
  }

  /** `merged.entries.remove(first entry with this path)`, when there is one. */
  function RemovePath(es: seq<ConfigEntry>, p: string): (r: seq<ConfigEntry>)
    ensures |r| <= |es|
  {
    if |es| == 0 then []
    else if es[0].path == p then es[1..]
    else [es[0]] + RemovePath(es[1..], p)
  }

  /** Adding an entry: drop the one with its path, then append it. */
  function Upsert(es: seq<ConfigEntry>, e: ConfigEntry): seq<ConfigEntry> {
    RemovePath(es, e.path) + [e]
  }

  /** The entries of the merged file, starting from `acc` and upserting `es` in order. */
  function UpsertAll(acc: seq<ConfigEntry>, es: seq<ConfigEntry>): seq<ConfigEntry> {
    if |es| == 0 then acc else Upsert(UpsertAll(acc, es[..|es| - 1]), es[|es| - 1])
  }

  /** No two entries share a path. */
  predicate UniquePaths(es: seq<ConfigEntry>) {
    forall i, j :: 0 <= i < j < |es| ==> es[i].path != es[j].path
  }

  /** With unique paths, removing the first entry with a path removes every entry with it. */
  lemma {:induction false} RemovePathUnique(es: seq<ConfigEntry>, p: string)
    requires UniquePaths(es)
    ensures UniquePaths(RemovePath(es, p))
    ensures forall x :: x in RemovePath(es, p) <==> x in es && x.path != p
  {
    if |es| > 0 {
      assert UniquePaths(es[1..]) by {
        forall i, j | 0 <= i < j < |es[1..]| ensures es[1..][i].path != es[1..][j].path {
          assert es[1..][i] == es[i + 1] && es[1..][j] == es[j + 1];
        }
      }
      forall x | x in es[1..] ensures x.path != es[0].path {
        var j :| 0 <= j < |es[1..]| && es[1..][j] == x;
        assert es[j + 1] == x;
      }
      if es[0].path != p {
        RemovePathUnique(es[1..], p);
        var r := RemovePath(es, p);
        forall i, j | 0 <= i < j < |r| ensures r[i].path != r[j].path {
          if i > 0 {
            assert r[i] == RemovePath(es[1..], p)[i - 1] && r[j] == RemovePath(es[1..], p)[j - 1];
          } else {
            assert r[j] in RemovePath(es[1..], p);
          }
        }
      }
    }
  }

  /** Upserting keeps paths unique; the new entry replaces whatever had its path. */
  lemma UpsertSpec(es: seq<ConfigEntry>, e: ConfigEntry)
    requires UniquePaths(es)
    ensures UniquePaths(Upsert(es, e))
    ensures forall x :: x in Upsert(es, e) <==> x == e || (x in es && x.path != e.path)
  {
    RemovePathUnique(es, e.path);
    var r := Upsert(es, e);
    var rem := RemovePath(es, e.path);
    forall i, j | 0 <= i < j < |r| ensures r[i].path != r[j].path {
      if j < |rem| {
        assert r[i] == rem[i] && r[j] == rem[j];
      } else {
        assert r[i] in rem;
      }
    }
  }

  lemma {:induction false} UpsertAllUnique(acc: seq<ConfigEntry>, es: seq<ConfigEntry>)
    requires UniquePaths(acc)
    ensures UniquePaths(UpsertAll(acc, es))
  {
    if |es| > 0 {
      UpsertAllUnique(acc, es[..|es| - 1]);
      UpsertSpec(UpsertAll(acc, es[..|es| - 1]), es[|es| - 1]);
    }
  }

  /** The last entry with a given path is the one that ends up in the merge. */
  lemma {:induction false} UpsertAllLastWins(acc: seq<ConfigEntry>, es: seq<ConfigEntry>, j: int)
    requires UniquePaths(acc)
    requires 0 <= j < |es| && forall k :: j < k < |es| ==> es[k].path != es[j].path
    ensures es[j] in UpsertAll(acc, es)
  {
    var front := es[..|es| - 1];
    UpsertAllUnique(acc, front);
    UpsertSpec(UpsertAll(acc, front), es[|es| - 1]);
    if j < |es| - 1 {
      UpsertAllLastWins(acc, front, j);
    }
  }

  /** Every merged entry comes from the start or from the entries added. */
  lemma {:induction false} UpsertAllFrom(acc: seq<ConfigEntry>, es: seq<ConfigEntry>, x: ConfigEntry)
    requires UniquePaths(acc)
    requires x in UpsertAll(acc, es)
    ensures x in acc || x in es
  {
    if |es| > 0 {
      var front := es[..|es| - 1];
      UpsertAllUnique(acc, front);
      UpsertSpec(UpsertAll(acc, front), es[|es| - 1]);
      if x != es[|es| - 1] {
        UpsertAllFrom(acc, front, x);
      }
    }
  }

  /** All entries of all files, file after file. */
  function AllEntries(files: seq<ConfigFile>): seq<ConfigEntry> {
    if |files| == 0 then [] else AllEntries(files[..|files| - 1]) + files[|files| - 1].entries
  }

  /** `dict.update` of each file's environment table, in file order. */
  function MergedEnvironment(files: seq<ConfigFile>): map<string, string> {
    if |files| == 0 then map[] else MergedEnvironment(files[..|files| - 1]) + files[|files| - 1].environmentVariables
  }

  function MergedMetadata(files: seq<ConfigFile>): map<string, MetaValue> {
    if |files| == 0 then map[] else MergedMetadata(files[..|files| - 1]) + files[|files| - 1].metadata
  }

  /** A merged environment value is the one of the last file that defines the name. */
  lemma {:induction false} MergedEnvironmentLastWins(files: seq<ConfigFile>, i: int, n: string)
    requires 0 <= i < |files| && n in files[i].environmentVariables
    requires forall k :: i < k < |files| ==> n !in files[k].environmentVariables
    ensures n in MergedEnvironment(files) && MergedEnvironment(files)[n] == files[i].environmentVariables[n]
  {
    if i < |files| - 1 {
      MergedEnvironmentLastWins(files[..|files| - 1], i, n);
    }
  }

  /** Only names some file defines appear in the merged environment. */
  lemma {:induction false} MergedEnvironmentFrom(files: seq<ConfigFile>, n: string)
    requires n in MergedEnvironment(files)
    ensures exists i :: 0 <= i < |files| && n in files[i].environmentVariables
  {
    var last := |files| - 1;
    if n !in files[last].environmentVariables {
      MergedEnvironmentFrom(files[..last], n);
      var i :| 0 <= i < last && n in files[..last][i].environmentVariables;
      assert files[..last][i] == files[i];
    }
  }

  /** Upserting everything after `xs` continues from the upsert of `xs`. */
  lemma {:induction false} UpsertAllAppend(acc: seq<ConfigEntry>, xs: seq<ConfigEntry>, ys: seq<ConfigEntry>)
    ensures UpsertAll(acc, xs + ys) == UpsertAll(UpsertAll(acc, xs), ys)
    decreases |ys|
  {
    if |ys| == 0 {
      assert xs + ys == xs;
    } else {
      var n := |ys| - 1;
      assert (xs + ys)[..|xs + ys| - 1] == xs + ys[..n];
      UpsertAllAppend(acc, xs, ys[..n]);
    }
  }

  /** The inner loop of the merge: upsert one file's entries in order. */
  method UpsertEntries(acc: seq<ConfigEntry>, es: seq<ConfigEntry>) returns (entries: seq<ConfigEntry>)
    ensures entries == UpsertAll(acc, es)
  {
    entries := acc;
    var i := 0;
    while i < |es|
      invariant 0 <= i <= |es|
      invariant entries == UpsertAll(acc, es[..i])
    {
      assert es[..i + 1][..i] == es[..i];
      entries := RemovePath(entries, es[i].path) + [es[i]];
      i := i + 1;
    }
    assert es[..i] == es;
  }

  /** The first loop of the merge: every entry of every file, later ones replacing earlier ones. */
  method MergeEntries(files: seq<ConfigFile>) returns (entries: seq<ConfigEntry>)
    ensures entries == UpsertAll([], AllEntries(files))
  {
    entries := [];
    var f := 0;
    while f < |files|
      invariant 0 <= f <= |files|
      invariant entries == UpsertAll([], AllEntries(files[..f]))
    {
      assert files[..f + 1][..f] == files[..f];
      UpsertAllAppend([], AllEntries(files[..f]), files[f].entries);
      entries := UpsertEntries(entries, files[f].entries);
      f := f + 1;
    }
    assert files[..f] == files;
  }

  /** The second loop of the merge. */
  method MergeEnvironments(files: seq<ConfigFile>) returns (env: map<string, string>)
    ensures env == MergedEnvironment(files)
  {
    env := map[];
    var f := 0;
    while f < |files|
      invariant 0 <= f <= |files|
      invariant env == MergedEnvironment(files[..f])
    {
      assert files[..f + 1][..f] == files[..f];
      env := env + files[f].environmentVariables;
      f := f + 1;
    }
    assert files[..f] == files;
  }

  /** The third loop of the merge. */
  method MergeMetadata(files: seq<ConfigFile>) returns (md: map<string, MetaValue>)
    ensures md == MergedMetadata(files)
  {
    md := map[];
    var f := 0;
    while f < |files|
      invariant 0 <= f <= |files|
      invariant md == MergedMetadata(files[..f])
    {
      assert files[..f + 1][..f] == files[..f];
      md := md + files[f].metadata;
      f := f + 1;
    }
    assert files[..f] == files;
  }

  /** `merge_configurations`. */
  method MergeConfigurations(files: seq<ConfigFile>) returns (merged: ConfigFile)
    ensures merged == ConfigFile("merged", UpsertAll([], AllEntries(files)), [],
                                 MergedEnvironment(files), MergedMetadata(files))
  {
    if |files| == 0 {
      return ConfigFile("merged", [], [], map[], map[]);
    }
    var entries := MergeEntries(files);
    var env := MergeEnvironments(files);
    var md := MergeMetadata(files);
    merged := ConfigFile("merged", entries, [], env, md);
  }

  /**
   * What the merge promises: paths are unique; each path of any input
   * keeps exactly the entry of its last occurrence; nothing else appears.
   */
  lemma MergedEntries(files: seq<ConfigFile>, j: int)
    requires 0 <= j < |AllEntries(files)|
    requires forall k :: j < k < |AllEntries(files)| ==> AllEntries(files)[k].path != AllEntries(files)[j].path
    ensures UniquePaths(UpsertAll([], AllEntries(files)))
    ensures AllEntries(files)[j] in UpsertAll([], AllEntries(files))
  {
    UpsertAllUnique([], AllEntries(files));
    UpsertAllLastWins([], AllEntries(files), j);
  }
}
