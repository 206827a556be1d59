/** The command-line `validate` command: checks of an element project's
    `manifest.json`, `package.json`, entry point and recommended files,
    collected as errors and warnings, and a verdict that fails exactly when
    there is an error. The file system is an input: which files exist and
    what reading the two JSON files yields. */
module ValidateCommand {
  import opened JsValues
  import Text

  datatype Severity = Error | Warning

  datatype CliIssue = CliIssue(severity: Severity, message: string)

  /** Reading a JSON file: it does not exist, reading or parsing it threw
      with a message, or it parsed to a value. */
  datatype JsonFile = Missing | Unreadable(reason: string) | Parsed(value: Json)

  /** The project directory: the two JSON files, and the set of other paths
      that exist. */
  datatype Workspace = Workspace(manifest: JsonFile, package: JsonFile, files: set<string>)

  const ManifestRequiredMessage := "manifest.json is required"
  const ManifestParseMessage := "Failed to parse manifest.json: "
  const MissingFieldMessage := "manifest.json missing required field: "
  const UnknownPermissionMessage := "Unknown permission in manifest.json: "
  const PackageRequiredMessage := "package.json is required"
  const PackageParseMessage := "Failed to parse package.json: "
  const SdkDependencyMessage := "package.json must include @defai/element-sdk dependency"
  const NoEntryPointMessage := "No entry point found (src/index.tsx or src/index.ts required)"
  const RecommendedFileMessage := "Recommended file missing: "

  const RequiredFields: seq<string> := ["id", "name", "version", "description", "category"]
  const ValidPermissions: seq<string> := ["wallet", "network", "ai", "storage", "notifications", "messaging"]
  const SdkPackage := "@defai/element-sdk"
  const EntryPoints: seq<string> := ["src/index.tsx", "src/index.ts"]
  const RecommendedFiles: seq<string> := ["tsconfig.json"]

  /** The message of the TypeError thrown when reading property `key` of a
      null or undefined value. */
  function PropertyReadError(v: Json, key: string): string {
    "Cannot read properties of " + (if v.Null? then "null" else "undefined") + " (reading '" + key + "')"
  }

  /** The entries of `s` with the given severity, in order. */
  function OfSeverity(s: seq<CliIssue>, sev: Severity): (r: seq<CliIssue>)
    ensures |r| <= |s|
    ensures forall i :: 0 <= i < |r| ==> r[i].severity == sev
  {
    if |s| == 0 then []
    else if s[0].severity == sev then [s[0]] + OfSeverity(s[1..], sev)
    else OfSeverity(s[1..], sev)
  }

  predicate AllOf(s: seq<CliIssue>, sev: Severity) {
    forall i :: 0 <= i < |s| ==> s[i].severity == sev
  }

  lemma {:induction false} OfSeverityAppend(a: seq<CliIssue>, b: seq<CliIssue>, sev: Severity)
    ensures OfSeverity(a + b, sev) == OfSeverity(a, sev) + OfSeverity(b, sev)
  {
    if |a| == 0 {
      assert a + b == b;
    } else {
      assert (a + b)[0] == a[0];
      assert (a + b)[1..] == a[1..] + b;
      OfSeverityAppend(a[1..], b, sev);
    }
  }

  /** A list of one severity is all kept by its own filter and all dropped
      by the other. */
  lemma {:induction false} OfSeverityUniform(s: seq<CliIssue>, sev: Severity, other: Severity)
    requires AllOf(s, sev) && other != sev
    ensures OfSeverity(s, sev) == s && OfSeverity(s, other) == []
  {
    if |s| > 0 {
      OfSeverityUniform(s[1..], sev, other);
      assert s == [s[0]] + s[1..];
    }
  }

  /** Splitting by severity loses and invents nothing: the errors and the
      warnings together are a rearrangement of the issues. */
  lemma {:induction false} Partition(s: seq<CliIssue>)
    ensures multiset(OfSeverity(s, Error) + OfSeverity(s, Warning)) == multiset(s)
    ensures |OfSeverity(s, Error)| + |OfSeverity(s, Warning)| == |s|
  {
    if |s| > 0 {
      Partition(s[1..]);
      assert s == [s[0]] + s[1..];
    }
  }

  /** There is an error in `s` exactly when the error filter keeps something. */
  lemma {:induction false} HasErrorIffErrors(s: seq<CliIssue>)
    ensures |OfSeverity(s, Error)| > 0 <==> exists i :: 0 <= i < |s| && s[i].severity == Error
  {
    if |s| > 0 {
      HasErrorIffErrors(s[1..]);
      if s[0].severity != Error && exists i :: 0 <= i < |s| && s[i].severity == Error {
        var i :| 0 <= i < |s| && s[i].severity == Error;
        assert s[1..][i - 1] == s[i];
      }
      if exists i :: 0 <= i < |s[1..]| && s[1..][i].severity == Error {
        var i :| 0 <= i < |s[1..]| && s[1..][i].severity == Error;
        assert s[i + 1] == s[1..][i];
      }
    }
  }

  /** One error per required field whose value is falsy, in field order. */
  function FieldErrors(manifest: Json, fields: seq<string>): (r: seq<CliIssue>)
    requires !Nullish(manifest)
    ensures AllOf(r, Error)
    ensures |r| <= |fields|
    decreases |fields|
  {
    if |fields| == 0 then []
    else
      (if Truthy(Get(manifest, fields[0])) then [] else [CliIssue(Error, MissingFieldMessage + fields[0])])
      + FieldErrors(manifest, fields[1..])
  }

  /** A field's error is reported exactly when the field is one of the
      required ones and its value is falsy. */
  lemma {:induction false} FieldErrorsMembers(manifest: Json, fields: seq<string>, f: string)
    requires !Nullish(manifest)
    ensures CliIssue(Error, MissingFieldMessage + f) in FieldErrors(manifest, fields) <==>
      f in fields && !Truthy(Get(manifest, f))
    decreases |fields|
  {
    if |fields| > 0 {
      FieldErrorsMembers(manifest, fields[1..], f);
      Text.PrefixInjective(MissingFieldMessage, f, fields[0]);
      assert fields == [fields[0]] + fields[1..];
    }
  }

  /** Over distinct field names, a listed falsy field is reported exactly
      once and any other field not at all. */
  lemma {:induction false} FieldErrorsCount(manifest: Json, fields: seq<string>, f: string)
    requires !Nullish(manifest)
    requires forall j, k :: 0 <= j < k < |fields| ==> fields[j] != fields[k]
    ensures multiset(FieldErrors(manifest, fields))[CliIssue(Error, MissingFieldMessage + f)] ==
      if f in fields && !Truthy(Get(manifest, f)) then 1 else 0
    decreases |fields|
  {
    if |fields| > 0 {
      var head := if Truthy(Get(manifest, fields[0])) then [] else [CliIssue(Error, MissingFieldMessage + fields[0])];
      var tail := FieldErrors(manifest, fields[1..]);
      assert FieldErrors(manifest, fields) == head + tail;
      FieldErrorsCount(manifest, fields[1..], f);
      Text.PrefixInjective(MissingFieldMessage, fields[0], f);
      assert f in fields <==> f == fields[0] || f in fields[1..];
      if f == fields[0] {
        assert f !in fields[1..];
      }
      assert multiset(head + tail) == multiset(head) + multiset(tail);
    }
  }

  /** One warning per key of the permissions value outside the allow-list, in
      key order. */
  function UnknownPermissionWarnings(keys: seq<string>): (r: seq<CliIssue>)
    ensures AllOf(r, Warning)
    ensures |r| <= |keys|
    decreases |keys|
  {
    if |keys| == 0 then []
    else
      (if keys[0] in ValidPermissions then [] else [CliIssue(Warning, UnknownPermissionMessage + keys[0])])
      + UnknownPermissionWarnings(keys[1..])
  }

  lemma {:induction false} UnknownPermissionMembers(keys: seq<string>, k: string)
    ensures CliIssue(Warning, UnknownPermissionMessage + k) in UnknownPermissionWarnings(keys) <==>
      k in keys && k !in ValidPermissions
    decreases |keys|
  {
    if |keys| > 0 {
      UnknownPermissionMembers(keys[1..], k);
      Text.PrefixInjective(UnknownPermissionMessage, k, keys[0]);
      assert keys == [keys[0]] + keys[1..];
    }
  }

  /** The permission keys the command looks at: none when `permissions` is
      falsy, else `Object.keys(permissions)`. */
  function PermissionKeys(manifest: Json): seq<string>
    requires !Nullish(manifest)
  {
    var perms := Get(manifest, "permissions");
    if Truthy(perms) then Keys(perms) else []
  }

  /** `validateManifest`. */
  function ManifestIssues(file: JsonFile): (r: seq<CliIssue>)
    ensures file.Missing? ==> r == [CliIssue(Error, ManifestRequiredMessage)]
    ensures file.Unreadable? ==> r == [CliIssue(Error, ManifestParseMessage + file.reason)]
    ensures file.Parsed? && Nullish(file.value) ==>
      r == [CliIssue(Error, ManifestParseMessage + PropertyReadError(file.value, "id"))]
    ensures file.Parsed? && !Nullish(file.value) ==>
      OfSeverity(r, Error) == FieldErrors(file.value, RequiredFields) &&
      OfSeverity(r, Warning) == UnknownPermissionWarnings(PermissionKeys(file.value))
  {
    match file
    case Missing => [CliIssue(Error, ManifestRequiredMessage)]
    case Unreadable(reason) => [CliIssue(Error, ManifestParseMessage + reason)]
    case Parsed(v) =>
      if Nullish(v) then [CliIssue(Error, ManifestParseMessage + PropertyReadError(v, "id"))]
      else
        var errors := FieldErrors(v, RequiredFields);
        var warnings := UnknownPermissionWarnings(PermissionKeys(v));
        OfSeverityAppend(errors, warnings, Error);
        OfSeverityAppend(errors, warnings, Warning);
        OfSeverityUniform(errors, Error, Warning);
        OfSeverityUniform(warnings, Warning, Error);
        errors + warnings
  }

  lemma RequiredFieldsDistinct()
    ensures forall j, k :: 0 <= j < k < |RequiredFields| ==> RequiredFields[j] != RequiredFields[k]
  {
  }

  lemma CountFirstOf2(a: seq<CliIssue>, b: seq<CliIssue>, x: CliIssue)
    requires AllOf(b, Warning) && x.severity == Error
    ensures multiset(a + b)[x] == multiset(a)[x]
  {
    assert x !in b;
    assert multiset(a + b) == multiset(a) + multiset(b);
  }

  /** Each falsy required field of a parsed manifest object is reported
      exactly once among all the manifest's issues. */
  lemma ManifestFieldCount(v: Json, f: string)
    requires !Nullish(v)
    ensures multiset(ManifestIssues(Parsed(v)))[CliIssue(Error, MissingFieldMessage + f)] ==
      if f in RequiredFields && !Truthy(Get(v, f)) then 1 else 0
  {
    var errors := FieldErrors(v, RequiredFields);
    var warnings := UnknownPermissionWarnings(PermissionKeys(v));
    assert ManifestIssues(Parsed(v)) == errors + warnings;
    RequiredFieldsDistinct();
    FieldErrorsCount(v, RequiredFields, f);
    CountFirstOf2(errors, warnings, CliIssue(Error, MissingFieldMessage + f));
  }

  /** For a parsed manifest object: a missing-field error for `f` exactly
      when `f` is one of id, name, version, description and category and is
      falsy (author is not required), and then exactly once, and an
      unknown-permission warning for
      `k` exactly when `k` is a key of a truthy `permissions` outside the
      allow-list; unknown keys never make an error. */
  lemma ManifestRules(v: Json, f: string, k: string)
    requires !Nullish(v)
    ensures CliIssue(Error, MissingFieldMessage + f) in OfSeverity(ManifestIssues(Parsed(v)), Error) <==>
      f in RequiredFields && !Truthy(Get(v, f))
    ensures CliIssue(Warning, UnknownPermissionMessage + k) in OfSeverity(ManifestIssues(Parsed(v)), Warning) <==>
      k in PermissionKeys(v) && k !in ValidPermissions
    ensures multiset(OfSeverity(ManifestIssues(Parsed(v)), Error))[CliIssue(Error, MissingFieldMessage + f)] ==
      if f in RequiredFields && !Truthy(Get(v, f)) then 1 else 0
    ensures "author" !in RequiredFields
  {
    ManifestFieldErrors(v, f);
    ManifestKeyWarnings(v, k);
    AuthorNotRequired();
  }

  /** No required field starts with the letter `a`, so `author` is not one. */
  lemma AuthorNotRequired()
    ensures "author" !in RequiredFields
  {
    forall i | 0 <= i < |RequiredFields|
      ensures RequiredFields[i] != "author"
    {
      assert RequiredFields[i][0] != 'a';
    }
  }

  lemma ManifestFieldErrors(v: Json, f: string)
    requires !Nullish(v)
    ensures CliIssue(Error, MissingFieldMessage + f) in OfSeverity(ManifestIssues(Parsed(v)), Error) <==>
      f in RequiredFields && !Truthy(Get(v, f))
    ensures multiset(OfSeverity(ManifestIssues(Parsed(v)), Error))[CliIssue(Error, MissingFieldMessage + f)] ==
      if f in RequiredFields && !Truthy(Get(v, f)) then 1 else 0
  {
    assert OfSeverity(ManifestIssues(Parsed(v)), Error) == FieldErrors(v, RequiredFields);
    FieldErrorsMembers(v, RequiredFields, f);
    RequiredFieldsDistinct();
    FieldErrorsCount(v, RequiredFields, f);
  }

  lemma ManifestKeyWarnings(v: Json, k: string)
    requires !Nullish(v)
    ensures CliIssue(Warning, UnknownPermissionMessage + k) in OfSeverity(ManifestIssues(Parsed(v)), Warning) <==>
      k in PermissionKeys(v) && k !in ValidPermissions
  {
    assert OfSeverity(ManifestIssues(Parsed(v)), Warning) == UnknownPermissionWarnings(PermissionKeys(v));
    UnknownPermissionMembers(PermissionKeys(v), k);
  }

  /** `validatePackageJson`: one error when the file is missing, cannot be
      read, or lacks a truthy `dependencies['@defai/element-sdk']`. */
  function PackageIssues(file: JsonFile): (r: seq<CliIssue>)
    ensures AllOf(r, Error) && |r| <= 1
    ensures |r| == 0 <==> (file.Parsed? && !Nullish(file.value) &&
      Truthy(Get(file.value, "dependencies")) && Truthy(Get(Get(file.value, "dependencies"), SdkPackage)))
    ensures file.Missing? ==> r == [CliIssue(Error, PackageRequiredMessage)]
  {
    match file
    case Missing => [CliIssue(Error, PackageRequiredMessage)]
    case Unreadable(reason) => [CliIssue(Error, PackageParseMessage + reason)]
    case Parsed(v) =>
      if Nullish(v) then [CliIssue(Error, PackageParseMessage + PropertyReadError(v, "dependencies"))]
      else
        var deps := Get(v, "dependencies");
        if !Truthy(deps) || !Truthy(Get(deps, SdkPackage)) then [CliIssue(Error, SdkDependencyMessage)]
        else []
  }

  /** `validateEntryPoint`: one error exactly when neither entry file
      exists. */
  function EntryPointIssues(files: set<string>): (r: seq<CliIssue>)
    ensures AllOf(r, Error)
    ensures |r| == 0 <==> exists i :: 0 <= i < |EntryPoints| && EntryPoints[i] in files
    ensures |r| <= 1
  {
    if EntryPoints[0] in files || EntryPoints[1] in files then [] else [CliIssue(Error, NoEntryPointMessage)]
  }

  /** `validateRequiredFiles`: a warning, never an error, per recommended
      file that is missing. */
  function RecommendedFileIssues(files: set<string>, names: seq<string>): (r: seq<CliIssue>)
    ensures AllOf(r, Warning)
    ensures |r| == 0 <==> forall i :: 0 <= i < |names| ==> names[i] in files
    decreases |names|
  {
    if |names| == 0 then []
    else
      (if names[0] in files then [] else [CliIssue(Warning, RecommendedFileMessage + names[0])])
      + RecommendedFileIssues(files, names[1..])
  }

  /** The report: the issues in the order the checks ran, split into errors
      and warnings, and whether the command fails. */
  datatype Report = Report(issues: seq<CliIssue>, errors: seq<CliIssue>, warnings: seq<CliIssue>, outcome: Result<()>)

  const FailedMessage := "Validation failed"

  /** `execute`: runs the four checks in order, splits the issues, and fails
      exactly when some issue is an error. */
  function Execute(ws: Workspace): (r: Report)
    ensures r.issues == ManifestIssues(ws.manifest) + PackageIssues(ws.package)
      + EntryPointIssues(ws.files) + RecommendedFileIssues(ws.files, RecommendedFiles)
    ensures r.outcome.Err? <==> exists i :: 0 <= i < |r.issues| && r.issues[i].severity == Error
    ensures r.outcome.Err? ==> r.outcome.message == FailedMessage
    ensures multiset(r.errors + r.warnings) == multiset(r.issues)
    ensures AllOf(r.errors, Error) && AllOf(r.warnings, Warning)
  {
    var issues := ManifestIssues(ws.manifest) + PackageIssues(ws.package)
      + EntryPointIssues(ws.files) + RecommendedFileIssues(ws.files, RecommendedFiles);
    var errors := OfSeverity(issues, Error);
    var warnings := OfSeverity(issues, Warning);
    Partition(issues);
    HasErrorIffErrors(issues);
    Report(issues, errors, warnings, if |errors| > 0 then Err(FailedMessage) else Ok(()))
  }

  /** Warnings alone never fail the command: a project whose only issues
      are unknown permission keys and a missing `tsconfig.json` passes. */
  lemma WarningsNeverFail(ws: Workspace)
    requires ws.manifest.Parsed? && !Nullish(ws.manifest.value)
    requires forall i :: 0 <= i < |RequiredFields| ==> Truthy(Get(ws.manifest.value, RequiredFields[i]))
    requires PackageIssues(ws.package) == []
    requires EntryPoints[0] in ws.files || EntryPoints[1] in ws.files
    ensures Execute(ws).outcome.Ok?
  {
    var v := ws.manifest.value;
    var m := ManifestIssues(ws.manifest);
    assert FieldErrors(v, RequiredFields) == [] by {
      if FieldErrors(v, RequiredFields) != [] {
        var x := FieldErrors(v, RequiredFields)[0];
        FieldErrorsPrefix(v, RequiredFields, x);
        var f :| f in RequiredFields && x == CliIssue(Error, MissingFieldMessage + f);
        FieldErrorsMembers(v, RequiredFields, f);
      }
    }
    var issues := Execute(ws).issues;
    OfSeverityAppend(m, PackageIssues(ws.package), Error);
    OfSeverityAppend(m + PackageIssues(ws.package), EntryPointIssues(ws.files), Error);
    OfSeverityAppend(m + PackageIssues(ws.package) + EntryPointIssues(ws.files),
      RecommendedFileIssues(ws.files, RecommendedFiles), Error);
    OfSeverityUniform(RecommendedFileIssues(ws.files, RecommendedFiles), Warning, Error);
    HasErrorIffErrors(issues);
  }

  /** Every missing-field error names one of the fields. */
  lemma {:induction false} FieldErrorsPrefix(manifest: Json, fields: seq<string>, x: CliIssue)
    requires !Nullish(manifest)
    requires x in FieldErrors(manifest, fields)
    ensures exists f :: f in fields && x == CliIssue(Error, MissingFieldMessage + f)
    decreases |fields|
  {
    var head := if Truthy(Get(manifest, fields[0])) then [] else [CliIssue(Error, MissingFieldMessage + fields[0])];
    if x !in head {
      FieldErrorsPrefix(manifest, fields[1..], x);
      var f :| f in fields[1..] && x == CliIssue(Error, MissingFieldMessage + f);
      assert f in fields;
    }
  }
}
