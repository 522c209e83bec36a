// The diagnostics collector of the migrator: the tool's exception classes
// with their default severity and category, the classification of other
// exceptions, and the ErrorHandler that numbers, stores and summarises
// error reports.
module ErrorHandling {
  import opened Wrappers
  import opened Strs

  datatype Severity = Low | Medium | High | Critical

  datatype Category =
    | Parsing | Configuration | Validation | Conversion
    | SystemCategory | Network | Permission | Dependency

  /** Where an error happened; `system_info` is always empty here and is left out. */
  datatype ErrorContext = ErrorContext(
    filePath: Option<string>,
    lineNumber: Option<int>,
    functionName: Option<string>,
    component: Option<string>,
    operation: Option<string>,
    userInput: Option<string>)

  /** `create_error_context(...)`; every field defaults to None. */
  function CreateErrorContext(
    filePath: Option<string> := None, lineNumber: Option<int> := None,
    functionName: Option<string> := None, component: Option<string> := None,
    operation: Option<string> := None, userInput: Option<string> := None): (c: ErrorContext)
    ensures c.filePath == filePath && c.lineNumber == lineNumber && c.functionName == functionName
    ensures c.component == component && c.operation == operation && c.userInput == userInput
  {
    ErrorContext(filePath, lineNumber, functionName, component, operation, userInput)
  }

  /** The tool's own exception classes. */
  datatype ToolClass =
    | MigrationError | ParsingError | ConfigurationError
    | ValidationError | ConversionError | FileSystemError

  /**
   * The built-in exception classes the handler tells apart. Any other class
   * is an `OtherBuiltin` with its name and, when it derives from another
   * class, its base: `UnicodeDecodeError` derives from `UnicodeError`, which
   * derives from `ValueError`.
   */
  datatype BuiltinClass =
    | FileNotFoundError | PermissionError | ValueError | TypeError
    | KeyboardInterrupt | SystemExit | ConnectionError | TimeoutError
    | OtherBuiltin(name: string, base: Option<BuiltinClass>)

  /** `isinstance(error, c)` for an error of class `b`: `b` is `c` or derives from it. */
  predicate IsA(b: BuiltinClass, c: BuiltinClass) {
    b == c || (b.OtherBuiltin? && b.base.Some? && IsA(b.base.value, c))
  }

  /** One of the eight classes the handler names. */
  predicate Named(c: BuiltinClass) {
    !c.OtherBuiltin?
  }

  /** A class derives from at most one of the named classes. */
  lemma {:induction false} OneNamedAncestor(b: BuiltinClass, c1: BuiltinClass, c2: BuiltinClass)
    requires Named(c1) && Named(c2) && IsA(b, c1) && IsA(b, c2)
    ensures c1 == c2
  {
    if b.OtherBuiltin? {
      OneNamedAncestor(b.base.value, c1, c2);
    }
  }

  lemma NamedAncestorsAgree(b: BuiltinClass)
    ensures forall c1, c2 :: Named(c1) && Named(c2) && IsA(b, c1) && IsA(b, c2) ==> c1 == c2
  {
    forall c1, c2 | Named(c1) && Named(c2) && IsA(b, c1) && IsA(b, c2) {
      OneNamedAncestor(b, c1, c2);
    }
  }

  datatype Error =
    | ToolError(cls: ToolClass, message: string, severity: Severity, category: Category,
                context: ErrorContext, suggestions: seq<string>, recoveryAction: Option<string>)
    | BuiltinError(builtin: BuiltinClass, message: string)

  /** `SSISMigrationError(message, severity, category, context, suggestions, recovery_action)`. */
  function MigrationErr(message: string, severity: Severity := Medium, category: Category := SystemCategory,
                        context: Option<ErrorContext> := None, suggestions: seq<string> := [],
                        recoveryAction: Option<string> := None): Error
  {
    ToolError(MigrationError, message, severity, category, context.GetOr(CreateErrorContext()),
              suggestions, recoveryAction)
  }

  function ParsingErr(message: string, filePath: Option<string> := None, severity: Severity := Medium): Error {
    ToolError(ParsingError, message, severity, Parsing,
              CreateErrorContext(filePath := filePath, component := Some("parser")), [], None)
  }

  function ConfigurationErr(message: string, configFile: Option<string> := None, severity: Severity := Medium): Error {
    ToolError(ConfigurationError, message, severity, Configuration,
              CreateErrorContext(filePath := configFile, component := Some("configuration")), [], None)
  }

  function ValidationErr(message: string, component: Option<string> := None, severity: Severity := Medium): Error {
    ToolError(ValidationError, message, severity, Validation,
              CreateErrorContext(component := component), [], None)
  }

  function ConversionErr(message: string, sourceComponent: Option<string> := None, severity: Severity := Medium): Error {
    ToolError(ConversionError, message, severity, Conversion,
              CreateErrorContext(component := sourceComponent, operation := Some("conversion")), [], None)
  }

  function FileSystemErr(message: string, filePath: Option<string> := None, severity: Severity := Medium): Error {
    ToolError(FileSystemError, message, severity, SystemCategory,
              CreateErrorContext(filePath := filePath, component := Some("filesystem")), [], None)
  }

  /** Each subclass fixes its category and, unless told otherwise, has severity MEDIUM. */
  lemma SubclassDefaults(m: string, p: Option<string>)
    ensures ParsingErr(m, p).category == Parsing && ParsingErr(m, p).severity == Medium
    ensures ParsingErr(m, p).context.filePath == p && ParsingErr(m, p).context.component == Some("parser")
    ensures ConfigurationErr(m, p).category == Configuration && ConfigurationErr(m, p).severity == Medium
    ensures ConfigurationErr(m, p).context.filePath == p
    ensures ValidationErr(m, p).category == Validation && ValidationErr(m, p).severity == Medium
    ensures ValidationErr(m, p).context.component == p
    ensures ConversionErr(m, p).category == Conversion && ConversionErr(m, p).severity == Medium
    ensures ConversionErr(m, p).context.component == p && ConversionErr(m, p).context.operation == Some("conversion")
    ensures FileSystemErr(m, p).category == SystemCategory && FileSystemErr(m, p).severity == Medium
    ensures FileSystemErr(m, p).context.filePath == p
    ensures MigrationErr(m).category == SystemCategory && MigrationErr(m).severity == Medium
  {
  }

  /** `type(error).__name__`. */
  function TypeName(e: Error): string {
    match e
    case ToolError(cls, _, _, _, _, _, _) =>
      (match cls
       case MigrationError => "SSISMigrationError"
       case ParsingError => "ParsingError"
       case ConfigurationError => "ConfigurationError"
       case ValidationError => "ValidationError"
       case ConversionError => "ConversionError"
       case FileSystemError => "FileSystemError")
    case BuiltinError(b, _) =>
      (match b
       case FileNotFoundError => "FileNotFoundError"
       case PermissionError => "PermissionError"
       case ValueError => "ValueError"
       case TypeError => "TypeError"
       case KeyboardInterrupt => "KeyboardInterrupt"
       case SystemExit => "SystemExit"
       case ConnectionError => "ConnectionError"
       case TimeoutError => "TimeoutError"
       case OtherBuiltin(n, _) => n)
  }

  /** `str(error)`. */
  function Message(e: Error): string {
    match e
    case ToolError(_, m, _, _, _, _, _) => m
    case BuiltinError(_, m) => m
  }

  /** `_determine_severity` for an exception that is not one of the tool's. */
  function DetermineSeverity(b: BuiltinClass): (s: Severity)
    ensures s == High <==> IsA(b, FileNotFoundError) || IsA(b, PermissionError)
    ensures s == Critical <==> IsA(b, KeyboardInterrupt) || IsA(b, SystemExit)
    ensures s != Low
  {
    NamedAncestorsAgree(b);
    if IsA(b, FileNotFoundError) || IsA(b, PermissionError) then High
    else if IsA(b, ValueError) || IsA(b, TypeError) then Medium
    else if IsA(b, KeyboardInterrupt) || IsA(b, SystemExit) then Critical
    else Medium
  }

  /** `_determine_category` for an exception that is not one of the tool's. */
  function DetermineCategory(b: BuiltinClass): (c: Category)
    ensures c == Validation <==> IsA(b, ValueError) || IsA(b, TypeError)
    ensures c == Network <==> IsA(b, ConnectionError) || IsA(b, TimeoutError)
    ensures c != Validation && c != Network ==> c == SystemCategory
  {
    NamedAncestorsAgree(b);
    if IsA(b, FileNotFoundError) || IsA(b, PermissionError) then SystemCategory
    else if IsA(b, ValueError) || IsA(b, TypeError) then Validation
    else if IsA(b, ConnectionError) || IsA(b, TimeoutError) then Network
    else SystemCategory
  }

  const FileHints := ["Check if the file path is correct",
                      "Verify that the file exists in the specified location",
                      "Ensure you have read permissions for the file"]
  const PermissionHints := ["Check file permissions",
                            "Run the application with appropriate privileges",
                            "Verify that the file is not locked by another process"]
  const ValueHints := ["Check input data format",
                       "Verify that required parameters are provided",
                       "Ensure data types match expected formats"]
  const TypeHints := ["Check function parameter types",
                      "Verify that objects have required attributes",
                      "Ensure compatibility between different data types"]

  /** `_generate_suggestions`: the three hints of the first of the four classes the error is an instance of, none otherwise. */
  function GenerateSuggestions(b: BuiltinClass): (r: seq<string>)
    ensures |r| == 3 || |r| == 0
    ensures |r| == 3 <==> IsA(b, FileNotFoundError) || IsA(b, PermissionError) || IsA(b, ValueError) || IsA(b, TypeError)
    ensures IsA(b, FileNotFoundError) ==> r == FileHints
    ensures IsA(b, PermissionError) ==> r == PermissionHints
    ensures IsA(b, ValueError) ==> r == ValueHints
    ensures IsA(b, TypeError) ==> r == TypeHints
  {
    NamedAncestorsAgree(b);
    if IsA(b, FileNotFoundError) then FileHints
    else if IsA(b, PermissionError) then PermissionHints
    else if IsA(b, ValueError) then ValueHints
    else if IsA(b, TypeError) then TypeHints
    else []
  }

  const GenericRecovery := "Review error details and retry operation"
  const FileRecovery := "Provide correct file path or create missing file"
  const PermissionRecovery := "Adjust file permissions or run with elevated privileges"
  const InputRecovery := "Correct input data format and retry operation"

  /** `_generate_recovery_action`. */
  function GenerateRecoveryAction(b: BuiltinClass): (r: string)
    ensures r == GenericRecovery <==> !(IsA(b, FileNotFoundError) || IsA(b, PermissionError) || IsA(b, ValueError) || IsA(b, TypeError))
    ensures IsA(b, FileNotFoundError) ==> r == FileRecovery
    ensures IsA(b, PermissionError) ==> r == PermissionRecovery
    ensures IsA(b, ValueError) || IsA(b, TypeError) ==> r == InputRecovery
  {
    NamedAncestorsAgree(b);
    if IsA(b, FileNotFoundError) then FileRecovery
    else if IsA(b, PermissionError) then PermissionRecovery
    else if IsA(b, ValueError) || IsA(b, TypeError) then InputRecovery
    else GenericRecovery
  }

  /** `UnicodeDecodeError` derives from `UnicodeError`, which derives from `ValueError`. */
  const UnicodeDecodeError := OtherBuiltin("UnicodeDecodeError", Some(OtherBuiltin("UnicodeError", Some(ValueError))))

  /** `ConnectionRefusedError` derives from `ConnectionError`. */
  const ConnectionRefusedError := OtherBuiltin("ConnectionRefusedError", Some(ConnectionError))

  /** A subclass is classified as its parent, as `isinstance` does: a decode error is a ValueError. */
  lemma DecodeErrorIsValueError()
    ensures DetermineCategory(UnicodeDecodeError) == Validation && DetermineSeverity(UnicodeDecodeError) == Medium
    ensures GenerateSuggestions(UnicodeDecodeError) == ValueHints
    ensures GenerateRecoveryAction(UnicodeDecodeError) == InputRecovery
  {
    assert IsA(UnicodeDecodeError, ValueError);
  }

  /** A refused connection is a ConnectionError, so a network error with no hints and the generic action. */
  lemma RefusedConnectionIsConnectionError()
    ensures DetermineCategory(ConnectionRefusedError) == Network
    ensures GenerateSuggestions(ConnectionRefusedError) == [] && GenerateRecoveryAction(ConnectionRefusedError) == GenericRecovery
  {
    assert IsA(ConnectionRefusedError, ConnectionError);
  }

  /** `datetime.now().strftime('%Y%m%d_%H%M%S')`. */
  type Stamp = s: string | |s| == 15 witness "20240101_000000"

  datatype ErrorReport = ErrorReport(
    errorId: string,
    timestamp: Stamp,
    errorType: string,
    message: string,
    severity: Severity,
    category: Category,
    context: ErrorContext,
    suggestions: seq<string>,
    recoveryAction: Option<string>)

  /** `f"ERR_{stamp}_{count:04d}"`. */
  function ErrorId(stamp: Stamp, count: nat): string {
    "ERR_" + stamp + "_" + ZeroPad4(count)
  }

  /** Ids start with ERR_, and two ids from different counter values differ. */
  lemma ErrorIdDistinct(s1: Stamp, c1: nat, s2: Stamp, c2: nat)
    requires c1 != c2
    ensures ErrorId(s1, c1)[..4] == "ERR_"
    ensures ErrorId(s1, c1) != ErrorId(s2, c2)
  {
    var a, b := ErrorId(s1, c1), ErrorId(s2, c2);
    assert a[20..] == ZeroPad4(c1);
    assert b[20..] == ZeroPad4(c2);
    if a == b {
      ZeroPad4Injective(c1, c2);
    }
  }

  /** Python `x or y` on an optional string: an empty string falls back as None does. */
  function OrString(x: Option<string>, y: Option<string>): Option<string> {
    if x.Some? && x.value != "" then x else y
  }

  /** The report `handle_error` builds for counter value `count`. */
  function BuildReport(error: Error, context: Option<ErrorContext>, severity: Option<Severity>,
                       category: Option<Category>, suggestions: seq<string>, recovery: Option<string>,
                       stamp: Stamp, count: nat): (r: ErrorReport)
    ensures r.errorId == ErrorId(stamp, count) && r.timestamp == stamp
  {
    match error
    case ToolError(_, _, sev, cat, ctx, sug, rec) =>
      ErrorReport(ErrorId(stamp, count), stamp, TypeName(error), Message(error),
                  severity.GetOr(sev), category.GetOr(cat), context.GetOr(ctx),
                  if |suggestions| > 0 then suggestions else sug,
                  OrString(recovery, rec))
    case BuiltinError(b, _) =>
      ErrorReport(ErrorId(stamp, count), stamp, TypeName(error), Message(error),
                  severity.GetOr(DetermineSeverity(b)), category.GetOr(DetermineCategory(b)),
                  context.GetOr(CreateErrorContext()),
                  if |suggestions| > 0 then suggestions else GenerateSuggestions(b),
                  OrString(recovery, Some(GenerateRecoveryAction(b))))
  }

  /**
   * The fields of a report: arguments given explicitly win (an empty
   * suggestion list counts as not given); otherwise the tool's own exceptions
   * supply their fields and other exceptions are classified.
   */
  lemma BuildReportFields(error: Error, context: Option<ErrorContext>, severity: Option<Severity>,
                          category: Option<Category>, suggestions: seq<string>, recovery: Option<string>,
                          stamp: Stamp, count: nat)
    ensures var r := BuildReport(error, context, severity, category, suggestions, recovery, stamp, count);
      r.errorType == TypeName(error) && r.message == Message(error)
      && (severity.Some? ==> r.severity == severity.value)
      && (category.Some? ==> r.category == category.value)
      && (context.Some? ==> r.context == context.value)
      && (|suggestions| > 0 ==> r.suggestions == suggestions)
      && (error.ToolError? && severity.None? ==> r.severity == error.severity)
      && (error.ToolError? && category.None? ==> r.category == error.category)
      && (error.ToolError? && context.None? ==> r.context == error.context)
      && (error.BuiltinError? && severity.None? ==> r.severity == DetermineSeverity(error.builtin))
      && (error.BuiltinError? && category.None? ==> r.category == DetermineCategory(error.builtin))
      && (error.BuiltinError? && context.None? ==> r.context == CreateErrorContext())
      && (error.BuiltinError? ==> r.recoveryAction.Some?)
  {
  }

  /** Report `i` of a run since the last clear was numbered `i`. */
  ghost predicate Numbered(reports: seq<ErrorReport>) {
    forall i :: 0 <= i < |reports| ==> reports[i].errorId == ErrorId(reports[i].timestamp, i)
  }

  /** A report numbered with the count of the reports before it keeps the run numbered. */
  lemma NumberedSnoc(reports: seq<ErrorReport>, r: ErrorReport)
    requires Numbered(reports) && r.errorId == ErrorId(r.timestamp, |reports|)
    ensures Numbered(reports + [r])
  {
  }

  /** So the stored reports have pairwise distinct ids. */
  lemma NumberedIdsDistinct(reports: seq<ErrorReport>, i: nat, j: nat)
    requires Numbered(reports) && i < j < |reports|
    ensures reports[i].errorId != reports[j].errorId
  {
    ErrorIdDistinct(reports[i].timestamp, i, reports[j].timestamp, j);
  }

  /** How many reports have severity `s`. */
  function CountSeverity(reports: seq<ErrorReport>, s: Severity): (n: nat)
    ensures n <= |reports|
  {
    if |reports| == 0 then 0
    else CountSeverity(reports[..|reports| - 1], s) + (if reports[|reports| - 1].severity == s then 1 else 0)
  }

  /** How many reports have category `c`. */
  function CountCategory(reports: seq<ErrorReport>, c: Category): (n: nat)
    ensures n <= |reports|
  {
    if |reports| == 0 then 0
    else CountCategory(reports[..|reports| - 1], c) + (if reports[|reports| - 1].category == c then 1 else 0)
  }

  /** The severity distribution sums to the number of reports. */
  lemma {:induction false} SeverityCountsSum(reports: seq<ErrorReport>)
    ensures CountSeverity(reports, Low) + CountSeverity(reports, Medium)
          + CountSeverity(reports, High) + CountSeverity(reports, Critical) == |reports|
  {
    if |reports| > 0 {
      SeverityCountsSum(reports[..|reports| - 1]);
    }
  }

  /** The category distribution sums to the number of reports. */
  lemma {:induction false} CategoryCountsSum(reports: seq<ErrorReport>)
    ensures CountCategory(reports, Parsing) + CountCategory(reports, Configuration)
          + CountCategory(reports, Validation) + CountCategory(reports, Conversion)
          + CountCategory(reports, SystemCategory) + CountCategory(reports, Network)
          + CountCategory(reports, Permission) + CountCategory(reports, Dependency) == |reports|
  {
    if |reports| > 0 {
      CategoryCountsSum(reports[..|reports| - 1]);
    }
  }

  /** `get_error_summary()`'s result; the distributions hold only the values that occur. */
  datatype ErrorSummary =
    | NoErrors
    | Summary(totalErrors: nat, severityDistribution: map<Severity, nat>,
              categoryDistribution: map<Category, nat>, latestError: string)

  class ErrorHandler {
    var reports: seq<ErrorReport>
    var errorCount: nat

    ghost predicate Valid()
      reads this
    {
      |reports| == errorCount && Numbered(reports)
    }

    constructor ()
      ensures Valid() && reports == [] && errorCount == 0
    {
      reports := [];
      errorCount := 0;
    }

    /** `handle_error`: builds the next report, numbers it, stores it and returns it. */
    method HandleError(error: Error, context: Option<ErrorContext>, severity: Option<Severity>,
                       category: Option<Category>, suggestions: seq<string>, recovery: Option<string>,
                       now: Stamp) returns (r: ErrorReport)
      requires Valid()
      modifies this
      ensures Valid()
      ensures r == BuildReport(error, context, severity, category, suggestions, recovery, now, old(errorCount))
      ensures reports == old(reports) + [r]
      ensures errorCount == old(errorCount) + 1
    {
      r := BuildReport(error, context, severity, category, suggestions, recovery, now, errorCount);
      NumberedSnoc(reports, r);
      errorCount := errorCount + 1;
      reports := reports + [r];
    }

    /** `clear_errors`. */
    method ClearErrors()
      modifies this
      ensures Valid() && reports == [] && errorCount == 0
    {
      reports := [];
      errorCount := 0;
    }

    /** `get_error_summary`: counts each severity and category over the stored reports. */
    method GetErrorSummary() returns (s: ErrorSummary)
      ensures |reports| == 0 <==> s == NoErrors
      ensures s.Summary? ==> s.totalErrors == |reports| && s.latestError == reports[|reports| - 1].errorId
      ensures s.Summary? ==> forall v :: (v in s.severityDistribution <==> CountSeverity(reports, v) > 0)
                                     && (v in s.severityDistribution ==> s.severityDistribution[v] == CountSeverity(reports, v))
      ensures s.Summary? ==> forall c :: (c in s.categoryDistribution <==> CountCategory(reports, c) > 0)
                                     && (c in s.categoryDistribution ==> s.categoryDistribution[c] == CountCategory(reports, c))
    {
      if |reports| == 0 {
        return NoErrors;
      }
      var sev: map<Severity, nat> := map[];
      var cat: map<Category, nat> := map[];
      var i := 0;
      while i < |reports|
        invariant 0 <= i <= |reports|
        invariant forall v :: (v in sev <==> CountSeverity(reports[..i], v) > 0)
                           && (v in sev ==> sev[v] == CountSeverity(reports[..i], v))
        invariant forall c :: (c in cat <==> CountCategory(reports[..i], c) > 0)
                           && (c in cat ==> cat[c] == CountCategory(reports[..i], c))
      {
        var rep := reports[i];
        assert reports[..i + 1][..i] == reports[..i];
        sev := sev[rep.severity := (if rep.severity in sev then sev[rep.severity] else 0) + 1];
        cat := cat[rep.category := (if rep.category in cat then cat[rep.category] else 0) + 1];
        i := i + 1;
      }
      assert reports[..i] == reports;
      s := Summary(|reports|, sev, cat, reports[|reports| - 1].errorId);
    }
  }
}
