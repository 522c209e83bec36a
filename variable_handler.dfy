// The variable handler: SSIS variable, parameter and environment-variable
// records become typed configurations; values are coerced by type,
// environment variables with secret-looking names are masked in the
// generated configuration code, `$(X)` and `@[User::X]` references are
// substituted in one left-to-right pass, and required entries are checked.
module VariableHandler {
  import opened Wrappers
  import opened Strs
  import opened PyRepr

  datatype VariableScope = Package | System | User | Environment | UnknownScope
  {
    /** The enumeration's value. */
    function Value(): string {
      match this
      case Package => "package"
      case System => "system"
      case User => "user"
      case Environment => "environment"
      case UnknownScope => "unknown"
    }
  }

  datatype VariableType = StringType | IntType | FloatType | BooleanType | DateTimeType | ObjectType | UnknownType
  {
    /** The enumeration's value. */
    function Value(): string {
      match this
      case StringType => "string"
      case IntType => "int"
      case FloatType => "float"
      case BooleanType => "boolean"
      case DateTimeType => "datetime"
      case ObjectType => "object"
      case UnknownType => "unknown"
    }
  }

  // ---------------------------------------------------------------- tables

  /** `type_mappings`. */
  const TypeMappings: map<string, VariableType> := map[
    "String" := StringType, "Int32" := IntType, "Int64" := IntType, "Double" := FloatType,
    "Boolean" := BooleanType, "DateTime" := DateTimeType, "Object" := ObjectType]

  /** `scope_mappings`. */
  const ScopeMappings: map<string, VariableScope> := map[
    "Package" := Package, "System" := System, "User" := User, "Environment" := Environment]

  /** `type_mappings.get(name, VariableType.UNKNOWN)`. */
  function TypeOf(name: string): VariableType {
    if name in TypeMappings then TypeMappings[name] else UnknownType
  }

  /** `scope_mappings.get(name, VariableScope.UNKNOWN)`. */
  function ScopeOf(name: string): VariableScope {
    if name in ScopeMappings then ScopeMappings[name] else UnknownScope
  }

  /**
   * The lookups are exact: a name outside the table is UNKNOWN and a name in
   * it never is; both integer widths are INT.
   */
  lemma TablesSpec(name: string)
    ensures TypeOf(name) == UnknownType <==> name !in {"String", "Int32", "Int64", "Double", "Boolean", "DateTime", "Object"}
    ensures ScopeOf(name) == UnknownScope <==> name !in {"Package", "System", "User", "Environment"}
    ensures TypeOf("Int32") == TypeOf("Int64") == IntType
    ensures TypeOf("string") == UnknownType && ScopeOf("package") == UnknownScope
  {
    assert TypeMappings.Keys == {"String", "Int32", "Int64", "Double", "Boolean", "DateTime", "Object"};
    assert ScopeMappings.Keys == {"Package", "System", "User", "Environment"};
  }

  // ---------------------------------------------------------------- values

  /**
   * A converted value. `Coerced` stands for the float or datetime object
   * `float()` or `datetime.fromisoformat()` builds from the text; those
   * conversions are not modelled.
   */
  datatype PyValue = NoneValue | Str(s: string) | Int(i: int) | Bool(b: bool) | Coerced(t: VariableType, text: string)

  const TrueWords: seq<string> := ["true", "1", "yes", "on"]

  /**
   * `_convert_value` for a string value: `''` becomes None; an INT that
   * `int()` rejects falls back to the string itself.
   */
  function ConvertValue(value: string, t: VariableType): (r: PyValue)
    ensures r.NoneValue? <==> value == ""
  {
    if value == "" then NoneValue
    else match t
      case IntType => (var n := ParseInt(value); if n.Some? then Int(n.value) else Str(value))
      case FloatType => Coerced(FloatType, value)
      case BooleanType => Bool(Lower(value) in TrueWords)
      case DateTimeType => Coerced(DateTimeType, value)
      case _ => Str(value)
  }

  /** A rendered number converts back to that number; other text of a STRING, OBJECT or UNKNOWN type stays as it is. */
  lemma ConvertValueSpec(value: string, t: VariableType, n: nat)
    ensures ConvertValue(NatToString(n), IntType) == Int(n)
    ensures value != "" && t in {StringType, ObjectType, UnknownType} ==> ConvertValue(value, t) == Str(value)
    ensures value != "" && t == IntType && ParseInt(value).None? ==> ConvertValue(value, t) == Str(value)
  {
    ParseIntOfNatToString(n);
  }

  /** The boolean coercion ignores letter case, and is true exactly for the four words. */
  lemma BooleanCoercion(value: string)
    requires value != ""
    ensures ConvertValue(value, BooleanType) == ConvertValue(Lower(value), BooleanType)
    ensures ConvertValue(value, BooleanType) == Bool(Lower(value) == "true" || Lower(value) == "1" || Lower(value) == "yes" || Lower(value) == "on")
  {
    LowerIdempotent(value);
    assert |Lower(value)| == |value|;
  }

  // ------------------------------------------------------------- records

  /** A variable dictionary: each key may be absent. */
  datatype VariableDict = VariableDict(
    name: Option<string>, value: Option<string>, varType: Option<string>, scope: Option<string>,
    description: Option<string>, readOnly: Option<bool>, required: Option<bool>,
    defaultValue: Option<string>, validationRules: Option<string>)

  /** A parameter dictionary: each key may be absent. */
  datatype ParameterDict = ParameterDict(
    name: Option<string>, value: Option<string>, paramType: Option<string>, direction: Option<string>,
    description: Option<string>, required: Option<bool>,
    defaultValue: Option<string>, validationRules: Option<string>)

  datatype VariableConfig = VariableConfig(
    name: string, value: PyValue, variableType: VariableType, scope: VariableScope, description: string,
    isReadOnly: bool, isRequired: bool, defaultValue: Option<string>, validationRules: Option<string>)

  datatype ParameterConfig = ParameterConfig(
    name: string, value: PyValue, parameterType: VariableType, direction: string, description: string,
    isRequired: bool, defaultValue: Option<string>, validationRules: Option<string>)

  datatype EnvironmentVariable = EnvironmentVariable(name: string, value: string, description: string, isSecret: bool)

  /** `_convert_variable`. */
  function ConvertVariable(d: VariableDict): (v: VariableConfig)
    ensures v.value == NoneValue <==> d.value.GetOr("") == ""
    ensures v.isRequired <==> d.required == Some(true)
    ensures v.isReadOnly <==> d.readOnly == Some(true)
  {
    var t := TypeOf(d.varType.GetOr("String"));
    VariableConfig(d.name.GetOr("Unknown"), ConvertValue(d.value.GetOr(""), t), t, ScopeOf(d.scope.GetOr("Package")),
                   d.description.GetOr(""), d.readOnly.GetOr(false), d.required.GetOr(false),
                   d.defaultValue, d.validationRules)
  }

  /** `_convert_parameter`. */
  function ConvertParameter(d: ParameterDict): (p: ParameterConfig)
    ensures p.value == NoneValue <==> d.value.GetOr("") == ""
    ensures p.isRequired <==> d.required == Some(true)
  {
    var t := TypeOf(d.paramType.GetOr("String"));
    ParameterConfig(d.name.GetOr("Unknown"), ConvertValue(d.value.GetOr(""), t), t, d.direction.GetOr("input"),
                    d.description.GetOr(""), d.required.GetOr(false), d.defaultValue, d.validationRules)
  }

  /** An empty dictionary gets the defaults: an unnamed, empty, optional STRING variable of PACKAGE scope. */
  lemma ConversionDefaults()
    ensures ConvertVariable(VariableDict(None, None, None, None, None, None, None, None, None))
         == VariableConfig("Unknown", NoneValue, StringType, Package, "", false, false, None, None)
    ensures ConvertParameter(ParameterDict(None, None, None, None, None, None, None, None))
         == ParameterConfig("Unknown", NoneValue, StringType, "input", "", false, None, None)
  {
    TablesSpec("String");
    TablesSpec("Package");
  }

  /** The words whose presence in the lower-cased name marks a secret. */
  const SecretWords: seq<string> := ["password", "passwd", "pwd", "secret", "key", "token", "auth"]

  predicate IsSecretName(name: string) {
    exists k :: 0 <= k < |SecretWords| && Contains(Lower(name), SecretWords[k])
  }

  /** `_convert_environment_variable`. */
  function ConvertEnvironmentVariable(name: string, value: string): (e: EnvironmentVariable)
    ensures e.name == name && e.value == value && e.isSecret == IsSecretName(name)
  {
    EnvironmentVariable(name, value, "Environment variable: " + name, IsSecretName(name))
  }

  /** The stretch of `name` at `i` lower-cases to `w`. */
  predicate LowersTo(name: string, i: nat, w: string) {
    i + |w| <= |name| && Lower(name[i..i + |w|]) == w
  }

  /** A name is secret exactly when some stretch of it, lower-cased, is one of the secret words. */
  lemma SecretNameOccurrence(name: string)
    ensures IsSecretName(name) <==> exists k, i: nat :: 0 <= k < |SecretWords| && LowersTo(name, i, SecretWords[k])
  {
    if IsSecretName(name) {
      var k :| 0 <= k < |SecretWords| && Contains(Lower(name), SecretWords[k]);
      var i := ContainsHasOccurrence(Lower(name), SecretWords[k]);
      assert Lower(name)[i..i + |SecretWords[k]|] == Lower(name[i..i + |SecretWords[k]|]);
      assert LowersTo(name, i, SecretWords[k]);
    }
    if k, i: nat :| 0 <= k < |SecretWords| && LowersTo(name, i, SecretWords[k]) {
      assert Lower(name)[i..i + |SecretWords[k]|] == Lower(name[i..i + |SecretWords[k]|]);
      ContainsAt(Lower(name), SecretWords[k], i);
    }
  }

  /** Secret detection ignores letter case. */
  lemma SecretIgnoresCase(name: string)
    ensures IsSecretName(name) <==> IsSecretName(Lower(name))
  {
    LowerIdempotent(name);
  }

  /** `DB_Password` is a secret: its lower-cased form contains `password`. */
  lemma PasswordIsSecret()
    ensures IsSecretName("DB_Password")
  {
    var l := Lower("DB_Password");
    assert l == "db_" + "password" + "";
    ContainsInfix("db_", "password", "");
    assert Contains(l, SecretWords[0]);
  }

  /** Matching is by substring: `MONKEY` counts as a secret because it contains `key`. */
  lemma SubstringIsSecret()
    ensures IsSecretName("MONKEY")
  {
    var l := Lower("MONKEY");
    assert l == "mon" + "key" + "";
    ContainsInfix("mon", "key", "");
    assert Contains(l, SecretWords[4]);
  }

  /** `HOST` is not a secret: each secret word has a letter that `host` lacks. */
  lemma HostIsNotSecret()
    ensures !IsSecretName("HOST")
  {
    var h := Lower("HOST");
    assert h == "host";
    forall k | 0 <= k < |SecretWords| ensures !Contains(h, SecretWords[k]) {
      var c := if k <= 2 then 'p' else if k == 3 then 'e' else if k <= 5 then 'k' else 'a';
      assert c in SecretWords[k];
      MissingCharNotContained(h, SecretWords[k], c);
    }
  }

  // ------------------------------------------------------ the conversions

  /** The variables in order, each converted. */
  function ConvertVariables(ds: seq<VariableDict>): (r: seq<VariableConfig>)
    ensures |r| == |ds|
  {
    if |ds| == 0 then [] else ConvertVariables(ds[..|ds| - 1]) + [ConvertVariable(ds[|ds| - 1])]
  }

  function ConvertParameters(ds: seq<ParameterDict>): (r: seq<ParameterConfig>)
    ensures |r| == |ds|
  {
    if |ds| == 0 then [] else ConvertParameters(ds[..|ds| - 1]) + [ConvertParameter(ds[|ds| - 1])]
  }

  function ConvertEnvironment(env: seq<(string, string)>): (r: seq<EnvironmentVariable>)
    ensures |r| == |env|
  {
    if |env| == 0 then []
    else ConvertEnvironment(env[..|env| - 1]) + [ConvertEnvironmentVariable(env[|env| - 1].0, env[|env| - 1].1)]
  }

  /** Nothing is skipped or reordered: the k-th configuration is the k-th record converted. */
  lemma {:induction false} ConvertedInOrder(ds: seq<VariableDict>, ps: seq<ParameterDict>, env: seq<(string, string)>)
    ensures forall k :: 0 <= k < |ds| ==> ConvertVariables(ds)[k] == ConvertVariable(ds[k])
    ensures forall k :: 0 <= k < |ps| ==> ConvertParameters(ps)[k] == ConvertParameter(ps[k])
    ensures forall k :: 0 <= k < |env| ==> ConvertEnvironment(env)[k] == ConvertEnvironmentVariable(env[k].0, env[k].1)
    decreases |ds| + |ps| + |env|
  {
    if |ds| > 0 {
      ConvertedInOrder(ds[..|ds| - 1], [], []);
    }
    if |ps| > 0 {
      ConvertedInOrder([], ps[..|ps| - 1], []);
    }
    if |env| > 0 {
      ConvertedInOrder([], [], env[..|env| - 1]);
    }
  }

  method ConvertVariableList(ds: seq<VariableDict>) returns (configs: seq<VariableConfig>)
    ensures configs == ConvertVariables(ds)
  {
    configs := [];
    var i := 0;
    while i < |ds|
      invariant 0 <= i <= |ds| && configs == ConvertVariables(ds[..i])
    {
      assert ds[..i + 1][..i] == ds[..i];
      configs := configs + [ConvertVariable(ds[i])];
      i := i + 1;
    }
    assert ds[..i] == ds;
  }

  method ConvertParameterList(ds: seq<ParameterDict>) returns (configs: seq<ParameterConfig>)
    ensures configs == ConvertParameters(ds)
  {
    configs := [];
    var i := 0;
    while i < |ds|
      invariant 0 <= i <= |ds| && configs == ConvertParameters(ds[..i])
    {
      assert ds[..i + 1][..i] == ds[..i];
      configs := configs + [ConvertParameter(ds[i])];
      i := i + 1;
    }
    assert ds[..i] == ds;
  }

  method ConvertEnvironmentList(env: seq<(string, string)>) returns (vars: seq<EnvironmentVariable>)
    ensures vars == ConvertEnvironment(env)
  {
    vars := [];
    var i := 0;
    while i < |env|
      invariant 0 <= i <= |env| && vars == ConvertEnvironment(env[..i])
    {
      assert env[..i + 1][..i] == env[..i];
      vars := vars + [ConvertEnvironmentVariable(env[i].0, env[i].1)];
      i := i + 1;
    }
    assert env[..i] == env;
  }

  // ------------------------------------------------------ configuration code

  /**
   * `repr` of a converted value: Python reads a string's rendering back as
   * the string, and an integer's as the integer.
   */
  function Repr(v: PyValue): (r: string)
    ensures v.Str? ==> ReadLiteral(r) == Some(v.s)
    ensures v.Int? ==> ParseInt(r) == Some(v.i)
    ensures v.Bool? ==> (r == "True" <==> v.b)
  {
    match v
    case NoneValue => "None"
    case Str(s) => ReadRepr(s); StrRepr(s)
    case Int(i) => ParseIntOfIntToString(i); IntToString(i)
    case Bool(b) => if b then "True" else "False"
    case Coerced(_, text) => text
  }

  /** `f"    '{name}': {rendered},  # {description or 'No description'}"`. */
  function EntryLine(name: string, rendered: string, description: string): string {
    "    '" + name + "': " + rendered + ",  # " + (if description == "" then "No description" else description)
  }

  /** The environment entry: the value is replaced by a mask when the name looks secret. */
  function EnvLine(e: EnvironmentVariable): string {
    "    '" + e.name + "': " + (if e.isSecret then "'***SECRET***'" else "'" + e.value + "'") + ",  # " + e.description
  }

  function VarLines(vs: seq<VariableConfig>): (r: seq<string>)
    ensures |r| == |vs|
  {
    if |vs| == 0 then [] else VarLines(vs[..|vs| - 1]) + [EntryLine(vs[|vs| - 1].name, Repr(vs[|vs| - 1].value), vs[|vs| - 1].description)]
  }

  function ParamLines(ps: seq<ParameterConfig>): (r: seq<string>)
    ensures |r| == |ps|
  {
    if |ps| == 0 then [] else ParamLines(ps[..|ps| - 1]) + [EntryLine(ps[|ps| - 1].name, Repr(ps[|ps| - 1].value), ps[|ps| - 1].description)]
  }

  function EnvLines(es: seq<EnvironmentVariable>): (r: seq<string>)
    ensures |r| == |es|
  {
    if |es| == 0 then [] else EnvLines(es[..|es| - 1]) + [EnvLine(es[|es| - 1])]
  }

  const VariablesHeader: seq<string> := ["# Configuration for variables and parameters", "", "# Variables", "VARIABLES = {"]
  const ParametersHeader: seq<string> := ["}", "", "# Parameters", "PARAMETERS = {"]
  const EnvironmentHeader: seq<string> := ["}", "", "# Environment Variables", "ENVIRONMENT_VARIABLES = {"]

  /** The lines of `_generate_config_code`. */
  function ConfigLines(vs: seq<VariableConfig>, ps: seq<ParameterConfig>, es: seq<EnvironmentVariable>): seq<string> {
    VariablesHeader + VarLines(vs) + ParametersHeader + ParamLines(ps) + EnvironmentHeader + EnvLines(es) + ["}"]
  }

  /** Two environment variables that differ at most in a secret value render alike. */
  predicate SameButSecretValue(a: EnvironmentVariable, b: EnvironmentVariable) {
    a == b || (a.isSecret && b == a.(value := b.value))
  }

  /**
   * Secret values never reach the configuration code: changing the value of
   * any secret environment variable leaves every line unchanged.
   */
  lemma {:induction false} SecretValuesHidden(es: seq<EnvironmentVariable>, fs: seq<EnvironmentVariable>)
    requires |es| == |fs| && forall k :: 0 <= k < |es| ==> SameButSecretValue(es[k], fs[k])
    ensures EnvLines(es) == EnvLines(fs)
  {
    if |es| > 0 {
      SecretValuesHidden(es[..|es| - 1], fs[..|fs| - 1]);
    }
  }

  /** And the configuration code as a whole does not depend on them. */
  lemma SecretValuesHiddenInConfig(vs: seq<VariableConfig>, ps: seq<ParameterConfig>,
                                   es: seq<EnvironmentVariable>, fs: seq<EnvironmentVariable>)
    requires |es| == |fs| && forall k :: 0 <= k < |es| ==> SameButSecretValue(es[k], fs[k])
    ensures ConfigLines(vs, ps, es) == ConfigLines(vs, ps, fs)
  {
    SecretValuesHidden(es, fs);
  }

  /** A value that is not secret is shown quoted in its line. */
  lemma PlainValueShown(e: EnvironmentVariable)
    requires !e.isSecret
    ensures Contains(EnvLine(e), "'" + e.value + "'")
  {
    var pre := "    '" + e.name + "': ";
    var post := ",  # " + e.description;
    ContainsInfix(pre, "'" + e.value + "'", post);
    assert EnvLine(e) == pre + ("'" + e.value + "'") + post;
  }

  /** The config code: four header lines for each section, one line per entry and the closing brace. */
  lemma ConfigLinesShape(vs: seq<VariableConfig>, ps: seq<ParameterConfig>, es: seq<EnvironmentVariable>)
    ensures var r := ConfigLines(vs, ps, es);
      |r| == 13 + |vs| + |ps| + |es|
      && r[..4] == VariablesHeader && r[|r| - 1] == "}"
      && r[4 + |vs| + 4 + |ps| + 4..|r| - 1] == EnvLines(es)
  {
  }

  method AppendVarLines(lines: seq<string>, vs: seq<VariableConfig>) returns (out: seq<string>)
    ensures out == lines + VarLines(vs)
  {
    out := lines;
    var i := 0;
    while i < |vs|
      invariant 0 <= i <= |vs| && out == lines + VarLines(vs[..i])
    {
      assert vs[..i + 1][..i] == vs[..i];
      out := out + [EntryLine(vs[i].name, Repr(vs[i].value), vs[i].description)];
      i := i + 1;
    }
    assert vs[..i] == vs;
  }

  method AppendParamLines(lines: seq<string>, ps: seq<ParameterConfig>) returns (out: seq<string>)
    ensures out == lines + ParamLines(ps)
  {
    out := lines;
    var i := 0;
    while i < |ps|
      invariant 0 <= i <= |ps| && out == lines + ParamLines(ps[..i])
    {
      assert ps[..i + 1][..i] == ps[..i];
      out := out + [EntryLine(ps[i].name, Repr(ps[i].value), ps[i].description)];
      i := i + 1;
    }
    assert ps[..i] == ps;
  }

  method AppendEnvLines(lines: seq<string>, es: seq<EnvironmentVariable>) returns (out: seq<string>)
    ensures out == lines + EnvLines(es)
  {
    out := lines;
    var i := 0;
    while i < |es|
      invariant 0 <= i <= |es| && out == lines + EnvLines(es[..i])
    {
      assert es[..i + 1][..i] == es[..i];
      out := out + [EnvLine(es[i])];
      i := i + 1;
    }
    assert es[..i] == es;
  }

  /** `_generate_config_code`. */
  method GenerateConfigCode(vs: seq<VariableConfig>, ps: seq<ParameterConfig>, es: seq<EnvironmentVariable>)
    returns (code: string)
    ensures code == Join(ConfigLines(vs, ps, es), "\n")
  {
    var lines := AppendVarLines(VariablesHeader, vs);
    lines := AppendParamLines(lines + ParametersHeader, ps);
    lines := AppendEnvLines(lines + EnvironmentHeader, es);
    code := Join(lines + ["}"], "\n");
  }

  // ---------------------------------------------------------- substitution

  /** A reference: `$(NAME)` or `@[User::NAME]`. */
  datatype Ref = Dollar(name: string) | UserRef(name: string)
  {
    /** The text of the reference as written. */
    function Text(): string {
      match this
      case Dollar(n) => "$(" + n + ")"
      case UserRef(n) => "@[User::" + n + "]"
    }
  }

  /** `open`, one or more characters other than `close`, then `close`, at the start of `s`; the name and the rest. */
  function MatchWith(s: string, open: string, close: char): (r: Option<(string, string)>)
    ensures r.Some? ==> |r.value.0| > 0 && close !in r.value.0 && s == open + r.value.0 + [close] + r.value.1
  {
    if |open| <= |s| && s[..|open|] == open then
      var body := s[|open|..];
      var j := IndexOf(body, close);
      IndexOfSpec(body, close);
      if 0 < j < |body| then
        assert s == open + body[..j] + [close] + body[j + 1..];
        Some((body[..j], body[j + 1..]))
      else None
    else None
  }

  /** A well-formed reference at the front is matched, name and rest exactly. */
  lemma MatchWithOf(open: string, n: string, close: char, rest: string)
    requires |n| > 0 && close !in n
    ensures MatchWith(open + n + [close] + rest, open, close) == Some((n, rest))
  {
    var s := open + n + [close] + rest;
    var body := s[|open|..];
    assert s[..|open|] == open;
    assert body == n + [close] + rest;
    assert body[|n|] == close;
    forall k | 0 <= k < |n| ensures body[k] != close {
      assert body[k] == n[k];
    }
    IndexOfAt(body, close, |n|);
    assert body[..|n|] == n && body[|n| + 1..] == rest;
  }

  /**
   * The pattern `\$\(([^)]+)\)|@\[User::([^\]]+)\]` at the start of `s`:
   * the reference and the rest. The two alternatives begin with different
   * characters, so the first character decides which one can match.
   */
  function RefAt(s: string): (r: Option<(Ref, string)>)
    ensures r.Some? ==> s == r.value.0.Text() + r.value.1
    ensures r.Some? ==> |s| > 0 && (s[0] == '$' || s[0] == '@')
  {
    if |s| > 0 && s[0] == '$' then
      match MatchWith(s, "$(", ')')
      case Some(m) => Some((Dollar(m.0), m.1))
      case None => None
    else if |s| > 0 && s[0] == '@' then
      match MatchWith(s, "@[User::", ']')
      case Some(m) => Some((UserRef(m.0), m.1))
      case None => None
    else None
  }

  /** `re.sub` with `replace_param`: a defined name becomes its value, an undefined reference stays as written. */
  function Subst(s: string, params: map<string, string>): string
    decreases |s|
  {
    if |s| == 0 then ""
    else match RefAt(s)
      case Some((ref, rest)) =>
        (if ref.name in params then params[ref.name] else ref.Text()) + Subst(rest, params)
      case None => [s[0]] + Subst(s[1..], params)
  }

  /** `substitute_parameters`. */
  function SubstituteParameters(text: string, params: map<string, string>): string {
    if text == "" || |params| == 0 then text else Subst(text, params)
  }

  /** With no parameters the pass copies every reference verbatim, so the early return changes nothing. */
  lemma {:induction false} SubstWithoutParams(s: string)
    ensures Subst(s, map[]) == s
    decreases |s|
  {
    if |s| > 0 {
      match RefAt(s)
      case Some((ref, rest)) => SubstWithoutParams(rest);
      case None => SubstWithoutParams(s[1..]);
    }
  }

  lemma SubstituteIsSubst(text: string, params: map<string, string>)
    ensures SubstituteParameters(text, params) == Subst(text, params)
  {
    if |params| == 0 {
      assert params == map[];
      SubstWithoutParams(text);
    }
  }

  /** A character that cannot open a reference is copied. */
  lemma SubstPlainChar(s: string, params: map<string, string>)
    requires |s| > 0 && s[0] != '$' && s[0] != '@'
    ensures Subst(s, params) == [s[0]] + Subst(s[1..], params)
  {
    assert RefAt(s) == None;
  }

  /** Text without `$` and `@` passes through unchanged, whatever the parameters. */
  lemma {:induction false} PlainPrefix(a: string, rest: string, params: map<string, string>)
    requires '$' !in a && '@' !in a
    ensures Subst(a + rest, params) == a + Subst(rest, params)
    decreases |a|
  {
    if |a| > 0 {
      var s := a + rest;
      assert s[0] == a[0];
      assert s[1..] == a[1..] + rest;
      SubstPlainChar(s, params);
      PlainPrefix(a[1..], rest, params);
      assert a == [a[0]] + a[1..];
    } else {
      assert a + rest == rest;
    }
  }

  /** A `$(NAME)` reference at the front is replaced when NAME is defined and kept otherwise. */
  lemma DollarRef(n: string, rest: string, params: map<string, string>)
    requires |n| > 0 && ')' !in n
    ensures Subst("$(" + n + ")" + rest, params)
         == (if n in params then params[n] else "$(" + n + ")") + Subst(rest, params)
  {
    var s := "$(" + n + ")" + rest;
    MatchWithOf("$(", n, ')', rest);
    assert s == "$(" + n + [')'] + rest;
    assert s[0] == '$';
    assert RefAt(s) == Some((Dollar(n), rest));
  }

  /** An `@[User::NAME]` reference at the front is replaced when NAME is defined and kept otherwise. */
  lemma UserRefAt(n: string, rest: string, params: map<string, string>)
    requires |n| > 0 && ']' !in n
    ensures Subst("@[User::" + n + "]" + rest, params)
         == (if n in params then params[n] else "@[User::" + n + "]") + Subst(rest, params)
  {
    var s := "@[User::" + n + "]" + rest;
    MatchWithOf("@[User::", n, ']', rest);
    assert s == "@[User::" + n + [']'] + rest;
    assert s[0] == '@';
    assert RefAt(s) == Some((UserRef(n), rest));
  }

  /** A string contains what its suffixes contain. */
  lemma {:induction false} ContainsFromSuffix(s: string, k: nat, w: string)
    requires k <= |s| && Contains(s[k..], w)
    ensures Contains(s, w)
    decreases k
  {
    if k > 0 {
      assert s[1..][k - 1..] == s[k..];
      ContainsFromSuffix(s[1..], k - 1, w);
    }
  }

  /** No defined name is written as a reference anywhere in `s`. */
  predicate NoDefinedRef(s: string, params: map<string, string>) {
    forall n :: n in params ==> !Contains(s, "$(" + n + ")") && !Contains(s, "@[User::" + n + "]")
  }

  lemma NoDefinedRefSuffix(s: string, k: nat, params: map<string, string>)
    requires k <= |s| && NoDefinedRef(s, params)
    ensures NoDefinedRef(s[k..], params)
  {
    forall n | n in params
      ensures !Contains(s[k..], "$(" + n + ")") && !Contains(s[k..], "@[User::" + n + "]")
    {
      if Contains(s[k..], "$(" + n + ")") {
        ContainsFromSuffix(s, k, "$(" + n + ")");
      }
      if Contains(s[k..], "@[User::" + n + "]") {
        ContainsFromSuffix(s, k, "@[User::" + n + "]");
      }
    }
  }

  /** Text in which no defined name is referenced comes back unchanged. */
  lemma {:induction false} NoDefinedRefUnchanged(s: string, params: map<string, string>)
    requires NoDefinedRef(s, params)
    ensures Subst(s, params) == s
    decreases |s|
  {
    if |s| > 0 {
      match RefAt(s)
      case Some((ref, rest)) =>
        var w := ref.Text();
        assert s[..|w|] == w && rest == s[|w|..];
        assert Contains(s, w);
        assert ref.name !in params;
        NoDefinedRefSuffix(s, |w|, params);
        NoDefinedRefUnchanged(rest, params);
      case None =>
        NoDefinedRefSuffix(s, 1, params);
        NoDefinedRefUnchanged(s[1..], params);
    }
  }

  /** `%NAME%` is not a substitution pattern: `%X%` stays even when X is defined. */
  lemma PercentUntouched(params: map<string, string>)
    ensures SubstituteParameters("%X%", params) == "%X%"
  {
    SubstituteIsSubst("%X%", params);
    PlainPrefix("%X%", "", params);
    assert "%X%" + "" == "%X%";
  }

  /** The parameters of the double-substitution example below. */
  function JoiningParams(): map<string, string> {
    map["X" := "$(", "Y" := "v"]
  }

  /** Neither value mentions a defined reference: neither contains a closing bracket. */
  lemma JoiningValuesPlain()
    ensures forall n :: n in JoiningParams() ==> NoDefinedRef(JoiningParams()[n], JoiningParams())
  {
    var params := JoiningParams();
    forall n, v | n in params && v in params.Values
      ensures !Contains(v, "$(" + n + ")") && !Contains(v, "@[User::" + n + "]")
    {
      assert v == "$(" || v == "v";
      assert ')' in "$(" + n + ")" && ']' in "@[User::" + n + "]";
      MissingCharNotContained(v, "$(" + n + ")", ')');
      MissingCharNotContained(v, "@[User::" + n + "]", ']');
    }
  }

  /** The first pass: `$(X)` becomes `$(`, which joins the `Y)` after it. */
  lemma JoiningFirstPass(text: string)
    requires text == "$(X)Y)"
    ensures SubstituteParameters(text, JoiningParams()) == "$(Y)"
  {
    var params := JoiningParams();
    assert text == "$(" + "X" + ")" + "Y)";
    DefinedRefThenPlain(text, params, "X", "Y)");
  }

  /** A defined `$(NAME)` followed by plain text: the value, then the text. */
  lemma DefinedRefThenPlain(text: string, params: map<string, string>, n: string, rest: string)
    requires text == "$(" + n + ")" + rest && |n| > 0 && ')' !in n && n in params
    requires '$' !in rest && '@' !in rest
    ensures SubstituteParameters(text, params) == params[n] + rest
  {
    SubstituteIsSubst(text, params);
    DollarRef(n, rest, params);
    PlainPrefix(rest, "", params);
    assert rest + "" == rest;
    assert Subst("", params) == "";
  }

  /** The second pass replaces the reference the first one formed. */
  lemma JoiningSecondPass()
    ensures SubstituteParameters("$(Y)", JoiningParams()) == "v"
  {
    var params := JoiningParams();
    SubstituteIsSubst("$(Y)", params);
    assert "$(Y)" == "$(" + "Y" + ")" + "";
    DollarRef("Y", "", params);
  }

  /**
   * Substitution is not idempotent, even when no substituted value contains
   * a defined reference: the value `$(` joins the text that follows it into
   * a new reference.
   */
  lemma SecondPassCanChange()
    ensures forall n :: n in JoiningParams() ==> NoDefinedRef(JoiningParams()[n], JoiningParams())
    ensures var once := SubstituteParameters("$(X)Y)", JoiningParams());
      SubstituteParameters(once, JoiningParams()) != once
  {
    JoiningValuesPlain();
    JoiningFirstPass("$(X)Y)");
    JoiningSecondPass();
  }

  // ------------------------------------------------------------ validation

  /** Python's `value is None or value == ''`. */
  predicate IsEmptyValue(v: PyValue) {
    v == NoneValue || v == Str("")
  }

  const ValidBooleanWords: seq<string> := ["true", "false", "1", "0", "yes", "no"]

  /**
   * `_validate_value_type`: `int()` accepts numbers, booleans, floats and
   * numeric text; the boolean test accepts six words or a bool.
   */
  function ValidateValueType(v: PyValue, t: VariableType): (ok: bool)
    ensures !ok ==> t == IntType || t == BooleanType
    ensures v.Bool? ==> ok
    ensures v.Int? ==> (ok <==> t != BooleanType)
    ensures v.NoneValue? ==> (ok <==> t != IntType && t != BooleanType)
  {
    match t
    case IntType =>
      (match v
       case Int(_) => true
       case Bool(_) => true
       case Str(s) => ParseInt(s).Some?
       case Coerced(ct, _) => ct == FloatType
       case NoneValue => false)
    case BooleanType =>
      (match v
       case Str(s) => Lower(s) in ValidBooleanWords
       case Bool(_) => true
       case _ => false)
    case _ => true
  }

  /** The message for a required entry of the given kind without a value. */
  function MissingMessage(kind: string, name: string): string {
    "Required " + kind + " " + name + " is missing or empty"
  }

  /** The error for a required entry without a value, if it has none. */
  function MissingError(kind: string, name: string, value: PyValue, required: bool): seq<string> {
    if required && IsEmptyValue(value) then [MissingMessage(kind, name)] else []
  }

  function MissingVariables(vs: seq<VariableConfig>): seq<string> {
    if |vs| == 0 then []
    else MissingVariables(vs[..|vs| - 1]) + MissingError("variable", vs[|vs| - 1].name, vs[|vs| - 1].value, vs[|vs| - 1].isRequired)
  }

  function MissingParameters(ps: seq<ParameterConfig>): seq<string> {
    if |ps| == 0 then []
    else MissingParameters(ps[..|ps| - 1]) + MissingError("parameter", ps[|ps| - 1].name, ps[|ps| - 1].value, ps[|ps| - 1].isRequired)
  }

  /** Validation rules are set when present and non-empty (Python truthiness). */
  predicate HasRules(v: VariableConfig) {
    v.validationRules.Some? && v.validationRules.value != ""
  }

  function TypeError(v: VariableConfig): seq<string> {
    if v.value != NoneValue && HasRules(v) && !ValidateValueType(v.value, v.variableType)
    then ["Variable " + v.name + " has invalid type for " + v.variableType.Value()]
    else []
  }

  function TypeErrors(vs: seq<VariableConfig>): seq<string> {
    if |vs| == 0 then [] else TypeErrors(vs[..|vs| - 1]) + TypeError(vs[|vs| - 1])
  }

  /** The errors of `validate_configuration`, in the order it finds them. */
  function ConfigurationErrors(vs: seq<VariableConfig>, ps: seq<ParameterConfig>): seq<string> {
    MissingVariables(vs) + MissingParameters(ps) + TypeErrors(vs)
  }

  /** Exactly the required variables without a value are reported missing. */
  lemma {:induction false} MissingVariablesSpec(vs: seq<VariableConfig>)
    ensures forall m :: m in MissingVariables(vs) <==>
      exists k :: 0 <= k < |vs| && vs[k].isRequired && IsEmptyValue(vs[k].value) && m == MissingMessage("variable", vs[k].name)
  {
    if |vs| > 0 {
      var front := vs[..|vs| - 1];
      MissingVariablesSpec(front);
      assert forall k :: 0 <= k < |front| ==> front[k] == vs[k];
    }
  }

  /** At most one error per variable. */
  lemma {:induction false} MissingVariablesBound(vs: seq<VariableConfig>)
    ensures |MissingVariables(vs)| <= |vs|
    ensures (forall k :: 0 <= k < |vs| ==> vs[k].isRequired && IsEmptyValue(vs[k].value)) ==> |MissingVariables(vs)| == |vs|
  {
    if |vs| > 0 {
      MissingVariablesBound(vs[..|vs| - 1]);
    }
  }

  /** Only variables with validation rules are type-checked. */
  lemma {:induction false} TypeErrorsNeedRules(vs: seq<VariableConfig>)
    requires forall k :: 0 <= k < |vs| ==> !HasRules(vs[k])
    ensures TypeErrors(vs) == []
  {
    if |vs| > 0 {
      TypeErrorsNeedRules(vs[..|vs| - 1]);
    }
  }

  /**
   * For a converted variable with rules, only an INT whose text `int()`
   * rejects fails the type check; booleans and the other types always pass.
   */
  lemma ConvertedTypeCheck(d: VariableDict)
    requires HasRules(ConvertVariable(d))
    ensures var v := ConvertVariable(d);
      TypeError(v) != [] <==> (v.variableType == IntType && d.value.GetOr("") != "" && ParseInt(d.value.GetOr("")).None?)
  {
  }

  /** A converted variable is reported missing exactly when it is required and its text is empty or absent. */
  lemma ConvertedMissing(d: VariableDict)
    ensures var v := ConvertVariable(d);
      MissingError("variable", v.name, v.value, v.isRequired) != [] <==> (d.required == Some(true) && d.value.GetOr("") == "")
  {
  }

  method CollectMissingVariables(errors: seq<string>, vs: seq<VariableConfig>) returns (out: seq<string>)
    ensures out == errors + MissingVariables(vs)
  {
    out := errors;
    var i := 0;
    while i < |vs|
      invariant 0 <= i <= |vs| && out == errors + MissingVariables(vs[..i])
    {
      assert vs[..i + 1][..i] == vs[..i];
      if vs[i].isRequired && (vs[i].value == NoneValue || vs[i].value == Str("")) {
        out := out + [MissingMessage("variable", vs[i].name)];
      }
      i := i + 1;
    }
    assert vs[..i] == vs;
  }

  method CollectMissingParameters(errors: seq<string>, ps: seq<ParameterConfig>) returns (out: seq<string>)
    ensures out == errors + MissingParameters(ps)
  {
    out := errors;
    var i := 0;
    while i < |ps|
      invariant 0 <= i <= |ps| && out == errors + MissingParameters(ps[..i])
    {
      assert ps[..i + 1][..i] == ps[..i];
      if ps[i].isRequired && (ps[i].value == NoneValue || ps[i].value == Str("")) {
        out := out + [MissingMessage("parameter", ps[i].name)];
      }
      i := i + 1;
    }
    assert ps[..i] == ps;
  }

  method CollectTypeErrors(errors: seq<string>, vs: seq<VariableConfig>) returns (out: seq<string>)
    ensures out == errors + TypeErrors(vs)
  {
    out := errors;
    var i := 0;
    while i < |vs|
      invariant 0 <= i <= |vs| && out == errors + TypeErrors(vs[..i])
    {
      assert vs[..i + 1][..i] == vs[..i];
      var v := vs[i];
      if v.value != NoneValue && v.validationRules.Some? && v.validationRules.value != "" {
        if !ValidateValueType(v.value, v.variableType) {
          out := out + ["Variable " + v.name + " has invalid type for " + v.variableType.Value()];
        }
      }
      i := i + 1;
    }
    assert vs[..i] == vs;
  }

  /** `validate_configuration`. */
  method ValidateConfiguration(vs: seq<VariableConfig>, ps: seq<ParameterConfig>) returns (errors: seq<string>)
    ensures errors == ConfigurationErrors(vs, ps)
  {
    errors := CollectMissingVariables([], vs);
    errors := CollectMissingParameters(errors, ps);
    errors := CollectTypeErrors(errors, vs);
  }

  // ------------------------------------------------------------ the result

  datatype HandlingMetadata = HandlingMetadata(
    variableCount: nat, parameterCount: nat, environmentVariableCount: nat, totalConfigs: nat)

  datatype VariableHandlingResult = VariableHandlingResult(
    variables: seq<VariableConfig>,
    parameters: seq<ParameterConfig>,
    environmentVariables: seq<EnvironmentVariable>,
    configCode: string,
    imports: seq<string>,
    dependencies: seq<string>,
    metadata: HandlingMetadata)

  const HandlerImports: seq<string> := ["import os", "import configparser", "from typing import Any, Optional"]

  /**
   * `handle_variables_and_parameters`, with an absent parameter list or
   * environment given as empty: every record is converted in order, and the
   * total is the sum of the three counts.
   */
  method HandleVariablesAndParameters(ds: seq<VariableDict>, ps: seq<ParameterDict>, env: seq<(string, string)>)
    returns (r: VariableHandlingResult)
    ensures r.variables == ConvertVariables(ds) && r.parameters == ConvertParameters(ps)
    ensures r.environmentVariables == ConvertEnvironment(env)
    ensures r.configCode == Join(ConfigLines(r.variables, r.parameters, r.environmentVariables), "\n")
    ensures r.imports == HandlerImports && r.dependencies == ["configparser"]
    ensures r.metadata == HandlingMetadata(|ds|, |ps|, |env|, |ds| + |ps| + |env|)
  {
    var variables := ConvertVariableList(ds);
    var parameters := ConvertParameterList(ps);
    var envVars := ConvertEnvironmentList(env);
    var config := GenerateConfigCode(variables, parameters, envVars);
    r := VariableHandlingResult(variables, parameters, envVars, config, HandlerImports, ["configparser"],
                                HandlingMetadata(|variables|, |parameters|, |envVars|, |variables| + |parameters| + |envVars|));
  }
}
