/** The SDK's element validator: rules over a manifest, over an element's
    source text, and over an element's display name. Every rule is a presence
    check, a fixed threshold or a fixed pattern; findings come back as an
    error list and a warning list, and only errors make a result invalid. */
module ElementValidator {
  import opened JsValues
  import opened Interfaces
  import opened Text

  // ---------------------------------------------------------------------------
  // Manifest rules
  // ---------------------------------------------------------------------------

  // The texts of the findings, word for word.
  const MissingFieldMessage := "Metadata must include "
  const IdFormatMessage := "Element ID must contain only lowercase letters, numbers, and hyphens"
  const VersionFormatMessage := "Version must follow semantic versioning (e.g., 1.0.0)"
  const MissingMetadataMessage := "Element manifest must include metadata"
  const HighPriceMessage := "Price seems unusually high"
  const MissingPermissionsMessage := "Element manifest must include permissions"
  const ExcessivePermissionsMessage := "Element requests many permissions, which may concern users"
  const HighMemoryMessage := "Memory limit exceeds recommended 100MB"
  const HighCpuMessage := "CPU limit exceeds recommended 50%"
  const InsecureDependencyMessage := "Dependency "
  const InsecureDependencySuffix := " may pose security risks"
  const DependencyVersionMessage := "Invalid version for dependency "
  const BuildEntryMessage := "Build configuration must specify entry point"
  const BuildOutputMessage := "Build configuration must specify output"
  const NegativePriceMessage := "Price cannot be negative"
  const SizeMessage := "Minimum size cannot be larger than maximum size"
  const CodeTooLargeMessage := "Element code exceeds 1MB limit"
  const LargeCodeMessage := "Element code is large and may affect performance"

  const RequiredFields: seq<string> := ["id", "name", "version", "author", "description", "category"]

  const MaxPrice := 10000
  const MaxTrueFlags := 5
  const RecommendedMaxMemory := 100
  const RecommendedMaxCpu := 50

  /** The metadata field a required-field name refers to. */
  function RequiredField(md: Metadata, field: string): Option<string> {
    match field
    case "id" => md.id
    case "name" => md.name
    case "version" => md.version
    case "author" => md.author
    case "description" => md.description
    case "category" => md.category
    case _ => None
  }

  /** `field in manifest.metadata`: key presence, whatever the value. */
  predicate Present(md: Metadata, field: string) {
    RequiredField(md, field).Some?
  }

  function MissingFieldIssue(field: string): Issue {
    Issue(MissingMetadataField, MissingFieldMessage + field, Some("metadata." + field))
  }

  /** One finding per absent field, in the order the fields are listed. */
  function MissingFieldIssues(md: Metadata, fields: seq<string>): (r: seq<Issue>)
    ensures forall i :: 0 <= i < |r| ==> r[i].code == MissingMetadataField
    ensures |r| <= |fields|
  {
    if |fields| == 0 then []
    else
      (if Present(md, fields[0]) then [] else [MissingFieldIssue(fields[0])])
      + MissingFieldIssues(md, fields[1..])
  }

  /** `/^[a-z0-9-]+$/.test(id)`. */
  predicate IdFormatOk(id: string) {
    |id| > 0 && forall i :: 0 <= i < |id| ==> IsLower(id[i]) || IsDigit(id[i]) || id[i] == '-'
  }

  /** The first index at or after `i` that does not hold a digit. */
  function DigitsEnd(s: string, i: nat): (j: nat)
    requires i <= |s|
    ensures i <= j <= |s|
    ensures forall k :: i <= k < j ==> IsDigit(s[k])
    ensures j == |s| || !IsDigit(s[j])
    decreases |s| - i
  {
    if i == |s| || !IsDigit(s[i]) then i else DigitsEnd(s, i + 1)
  }

  /** `/^\d+\.\d+\.\d+$/.test(version)`, read left to right. */
  predicate IsSemver(s: string) {
    var a := DigitsEnd(s, 0);
    0 < a < |s| && s[a] == '.' &&
    var b := DigitsEnd(s, a + 1);
    a + 1 < b < |s| && s[b] == '.' &&
    var c := DigitsEnd(s, b + 1);
    b + 1 < c == |s|
  }

  /** The shape the version pattern describes: two dots, digits everywhere
      else, and no digit run empty. */
  ghost predicate SemverShape(s: string) {
    exists i, j :: 0 < i && i + 1 < j && j + 1 < |s| && s[i] == '.' && s[j] == '.' &&
      forall k :: 0 <= k < |s| && k != i && k != j ==> IsDigit(s[k])
  }

  /** A digit run that stops at `b` is the one `DigitsEnd` finds. */
  lemma DigitsEndIs(s: string, a: nat, b: nat)
    requires a <= b <= |s|
    requires forall k :: a <= k < b ==> IsDigit(s[k])
    requires b == |s| || !IsDigit(s[b])
    ensures DigitsEnd(s, a) == b
  {
  }

  lemma ShapeIsSemver(s: string)
    requires SemverShape(s)
    ensures IsSemver(s)
  {
    var i, j :| 0 < i && i + 1 < j && j + 1 < |s| && s[i] == '.' && s[j] == '.' &&
      forall k :: 0 <= k < |s| && k != i && k != j ==> IsDigit(s[k]);
    DigitsEndIs(s, 0, i);
    DigitsEndIs(s, i + 1, j);
    DigitsEndIs(s, j + 1, |s|);
  }

  lemma SemverHasShape(s: string)
    requires IsSemver(s)
    ensures SemverShape(s)
  {
    var a := DigitsEnd(s, 0);
    var b := DigitsEnd(s, a + 1);
    forall k | 0 <= k < |s| && k != a && k != b
      ensures IsDigit(s[k])
    {
      if k > b {
        assert b + 1 <= k < DigitsEnd(s, b + 1);
      }
    }
  }

  /** The left-to-right scan accepts exactly the strings of the pattern's
      shape. */
  lemma SemverIsShape(s: string)
    ensures IsSemver(s) <==> SemverShape(s)
  {
    if SemverShape(s) {
      ShapeIsSemver(s);
    }
    if IsSemver(s) {
      SemverHasShape(s);
    }
  }

  function IdFormatIssue(): Issue {
    Issue(InvalidIdFormat, IdFormatMessage, Some("metadata.id"))
  }

  function VersionFormatIssue(): Issue {
    Issue(InvalidVersionFormat, VersionFormatMessage, Some("metadata.version"))
  }

  function MissingMetadataIssue(): Issue {
    Issue(MissingMetadata, MissingMetadataMessage, None)
  }

  function HighPriceIssue(): Issue {
    Issue(HighPrice, HighPriceMessage, Some("metadata.price"))
  }

  function MissingPermissionsIssue(): Issue {
    Issue(MissingPermissions, MissingPermissionsMessage, None)
  }

  function ExcessivePermissionsIssue(): Issue {
    Issue(ExcessivePermissions, ExcessivePermissionsMessage, None)
  }

  function HighMemoryIssue(): Issue {
    Issue(HighMemoryLimit, HighMemoryMessage, Some("permissions.maxMemory"))
  }

  function HighCpuIssue(): Issue {
    Issue(HighCpuLimit, HighCpuMessage, Some("permissions.maxCpu"))
  }

  function InsecureIssue(name: string): Issue {
    Issue(InsecureDependency, InsecureDependencyMessage + name + InsecureDependencySuffix, Some("dependencies." + name))
  }

  function DependencyVersionIssue(name: string): Issue {
    Issue(InvalidDependencyVersion, DependencyVersionMessage + name, Some("dependencies." + name))
  }

  function BuildEntryIssue(): Issue {
    Issue(MissingBuildEntry, BuildEntryMessage, Some("build.entry"))
  }

  function BuildOutputIssue(): Issue {
    Issue(MissingBuildOutput, BuildOutputMessage, Some("build.output"))
  }

  function PriceIssue(): Issue {
    Issue(InvalidPrice, NegativePriceMessage, Some("metadata.price"))
  }

  function SizeIssue(): Issue {
    Issue(InvalidSizeConstraints, SizeMessage, Some("metadata.minSize"))
  }

  predicate SizesConflict(minSize: Size, maxSize: Size) {
    minSize.width > maxSize.width || minSize.height > maxSize.height
  }

  /** A rule that adds `x` when `b` holds. */
  function When(b: bool, x: Issue): seq<Issue> {
    if b then [x] else []
  }

  /** The id, version, size and price rules of a present metadata record. */
  function FormatErrors(md: Metadata): seq<Issue> {
    When(BadId(md), IdFormatIssue())
    + When(BadVersion(md), VersionFormatIssue())
    + When(BadSizes(md), SizeIssue())
    + When(NegativePrice(md), PriceIssue())
  }

  predicate BadId(md: Metadata) {
    TruthyText(md.id) && !IdFormatOk(md.id.value)
  }

  predicate BadVersion(md: Metadata) {
    TruthyText(md.version) && !IsSemver(md.version.value)
  }

  predicate BadSizes(md: Metadata) {
    md.minSize.Some? && md.maxSize.Some? && SizesConflict(md.minSize.value, md.maxSize.value)
  }

  predicate NegativePrice(md: Metadata) {
    md.price.Some? && md.price.value < 0
  }

  /** The error findings of a present metadata record, in the order the rules
      are checked. */
  function MetadataErrors(md: Metadata): seq<Issue> {
    MissingFieldIssues(md, RequiredFields) + FormatErrors(md)
  }

  function MetadataWarnings(md: Metadata): (r: seq<Issue>)
  {
    if md.price.Some? && md.price.value > MaxPrice
    then [HighPriceIssue()] else []
  }

  function CountTrue(flags: seq<bool>): (n: nat)
    ensures n <= |flags|
  {
    if |flags| == 0 then 0 else (if flags[0] then 1 else 0) + CountTrue(flags[1..])
  }

  /** `limit && limit > ceiling`. */
  predicate Exceeds(limit: Option<int>, ceiling: int) {
    limit.Some? && limit.value != 0 && limit.value > ceiling
  }

  function PermissionWarnings(p: Permissions): seq<Issue> {
    When(CountTrue(Flags(p)) > MaxTrueFlags,
      ExcessivePermissionsIssue())
    + When(Exceeds(p.maxMemory, RecommendedMaxMemory),
      HighMemoryIssue())
    + When(Exceeds(p.maxCpu, RecommendedMaxCpu),
      HighCpuIssue())
  }

  const InsecurePackages: seq<string> := ["eval", "child_process", "fs"]

  /** `insecurePackages.some(p => pkg.includes(p))`. */
  predicate Insecure(name: string) {
    exists p :: p in InsecurePackages && Contains(name, p)
  }

  function DependencyIssues(d: Dependency): seq<Issue> {
    When(Insecure(d.name),
      InsecureIssue(d.name))
    + When(!d.version.Str?,
      DependencyVersionIssue(d.name))
  }

  function DependencyErrors(deps: seq<Dependency>): (r: seq<Issue>)
  {
    if |deps| == 0 then [] else DependencyIssues(deps[0]) + DependencyErrors(deps[1..])
  }

  function BuildErrors(b: Build): seq<Issue> {
    When(!TruthyText(b.entry), BuildEntryIssue())
    + When(!TruthyText(b.output), BuildOutputIssue())
  }

  function MetadataSectionErrors(m: Manifest): seq<Issue> {
    if m.metadata.None? then [MissingMetadataIssue()]
    else MetadataErrors(m.metadata.value)
  }

  function PermissionSectionErrors(m: Manifest): seq<Issue> {
    When(m.permissions.None?, MissingPermissionsIssue())
  }

  function DependencySectionErrors(m: Manifest): seq<Issue> {
    if m.dependencies.Some? then DependencyErrors(m.dependencies.value) else []
  }

  function BuildSectionErrors(m: Manifest): seq<Issue> {
    if m.build.Some? then BuildErrors(m.build.value) else []
  }

  function MetadataSectionWarnings(m: Manifest): seq<Issue> {
    if m.metadata.None? then [] else MetadataWarnings(m.metadata.value)
  }

  function PermissionSectionWarnings(m: Manifest): seq<Issue> {
    if m.permissions.None? then [] else PermissionWarnings(m.permissions.value)
  }

  function ValidateManifest(m: Manifest): (r: ValidationResult)
    ensures r.valid <==> |r.errors| == 0
  {
    var errors := MetadataSectionErrors(m) + PermissionSectionErrors(m)
      + DependencySectionErrors(m) + BuildSectionErrors(m);
    var warnings := MetadataSectionWarnings(m) + PermissionSectionWarnings(m);
    ValidationResult(|errors| == 0, errors, warnings)
  }

  // ---------------------------------------------------------------------------
  // Properties of the manifest rules
  // ---------------------------------------------------------------------------

  /** The codes the manifest rules report as warnings. */
  const ManifestWarningCodes: set<Code> := {HighPrice, ExcessivePermissions, HighMemoryLimit, HighCpuLimit}

  /** The codes the manifest rules report as errors. */
  const ManifestErrorCodes: set<Code> := {
    MissingMetadata, MissingMetadataField, InvalidIdFormat, InvalidVersionFormat, InvalidSizeConstraints,
    InvalidPrice, MissingPermissions, InsecureDependency, InvalidDependencyVersion, MissingBuildEntry,
    MissingBuildOutput}

  lemma {:induction false} DependencyCodes(deps: seq<Dependency>)
    ensures CodesWithin(DependencyErrors(deps), DependencyErrorCodes)
  {
    if |deps| > 0 {
      DependencyCodes(deps[1..]);
      CodesWithinAppend(DependencyIssues(deps[0]), DependencyErrors(deps[1..]), DependencyErrorCodes);
    }
  }

  const MetadataErrorCodes: set<Code> :=
    {MissingMetadata, MissingMetadataField, InvalidIdFormat, InvalidVersionFormat, InvalidSizeConstraints, InvalidPrice}
  const DependencyErrorCodes: set<Code> := {InsecureDependency, InvalidDependencyVersion}
  const BuildErrorCodes: set<Code> := {MissingBuildEntry, MissingBuildOutput}
  const PermissionWarningCodes: set<Code> := {ExcessivePermissions, HighMemoryLimit, HighCpuLimit}

  lemma MetadataSectionCodes(m: Manifest)
    ensures CodesWithin(MetadataSectionErrors(m), MetadataErrorCodes)
    ensures CodesWithin(MetadataSectionWarnings(m), {HighPrice})
  {
    if m.metadata.Some? {
      var md := m.metadata.value;
      var w1, w2, w3, w4 := When(BadId(md), IdFormatIssue()), When(BadVersion(md), VersionFormatIssue()),
        When(BadSizes(md), SizeIssue()), When(NegativePrice(md), PriceIssue());
      CodesWithinAppend(w1, w2, MetadataErrorCodes);
      CodesWithinAppend(w1 + w2, w3, MetadataErrorCodes);
      CodesWithinAppend(w1 + w2 + w3, w4, MetadataErrorCodes);
      CodesWithinAppend(MissingFieldIssues(md, RequiredFields), FormatErrors(md), MetadataErrorCodes);
    }
  }

  lemma PermissionSectionCodes(m: Manifest)
    ensures CodesWithin(PermissionSectionWarnings(m), PermissionWarningCodes)
  {
  }

  lemma BuildSectionCodes(m: Manifest)
    ensures CodesWithin(BuildSectionErrors(m), BuildErrorCodes)
  {
  }

  lemma DependencySectionCodes(m: Manifest)
    ensures CodesWithin(DependencySectionErrors(m), DependencyErrorCodes)
  {
    if m.dependencies.Some? {
      DependencyCodes(m.dependencies.value);
    }
  }

  /** Errors and warnings never share a code: the warning codes are exactly
      the excessive-permission, high-price and resource-cap findings. */
  lemma ManifestPartition(m: Manifest)
    ensures CodesWithin(ValidateManifest(m).warnings, ManifestWarningCodes)
    ensures CodesWithin(ValidateManifest(m).errors, ManifestErrorCodes)
  {
    MetadataSectionCodes(m);
    PermissionSectionCodes(m);
    DependencySectionCodes(m);
    BuildSectionCodes(m);
    var a, b, d, e := MetadataSectionErrors(m), PermissionSectionErrors(m), DependencySectionErrors(m), BuildSectionErrors(m);
    CodesWithinAppend(a, b, ManifestErrorCodes);
    CodesWithinAppend(a + b, d, ManifestErrorCodes);
    CodesWithinAppend(a + b + d, e, ManifestErrorCodes);
    CodesWithinAppend(MetadataSectionWarnings(m), PermissionSectionWarnings(m), ManifestWarningCodes);
  }

  lemma In4(a: seq<Issue>, b: seq<Issue>, d: seq<Issue>, e: seq<Issue>, x: Issue)
    ensures x in a + b + d + e <==> x in a || x in b || x in d || x in e
  {
  }

  lemma NotInMetadataErrors(m: Manifest, x: Issue)
    requires x.code !in MetadataErrorCodes
    ensures x !in MetadataSectionErrors(m)
  {
    MetadataSectionCodes(m);
  }

  lemma NotInPermissionErrors(m: Manifest, x: Issue)
    requires x.code != MissingPermissions
    ensures x !in PermissionSectionErrors(m)
  {
  }

  lemma NotInDependencyErrors(m: Manifest, x: Issue)
    requires x.code !in DependencyErrorCodes
    ensures x !in DependencySectionErrors(m)
  {
    DependencySectionCodes(m);
  }

  lemma NotInBuildErrors(m: Manifest, x: Issue)
    requires x.code !in BuildErrorCodes
    ensures x !in BuildSectionErrors(m)
  {
    BuildSectionCodes(m);
  }

  lemma ErrorsIn(m: Manifest, x: Issue)
    ensures x in ValidateManifest(m).errors <==>
      (x in MetadataSectionErrors(m) || x in PermissionSectionErrors(m) ||
       x in DependencySectionErrors(m) || x in BuildSectionErrors(m))
  {
    In4(MetadataSectionErrors(m), PermissionSectionErrors(m), DependencySectionErrors(m), BuildSectionErrors(m), x);
  }

  /** A finding whose code belongs to one section is among the errors exactly
      when that section reports it. */
  lemma MetadataErrorIn(m: Manifest, x: Issue)
    requires x.code in MetadataErrorCodes
    ensures x in ValidateManifest(m).errors <==> x in MetadataSectionErrors(m)
  {
    ErrorsIn(m, x);
    NotInPermissionErrors(m, x);
    NotInDependencyErrors(m, x);
    NotInBuildErrors(m, x);
  }

  lemma PermissionErrorIn(m: Manifest, x: Issue)
    requires x.code == MissingPermissions
    ensures x in ValidateManifest(m).errors <==> x in PermissionSectionErrors(m)
  {
    ErrorsIn(m, x);
    NotInMetadataErrors(m, x);
    NotInDependencyErrors(m, x);
    NotInBuildErrors(m, x);
  }

  lemma DependencyErrorIn(m: Manifest, x: Issue)
    requires x.code in DependencyErrorCodes
    ensures x in ValidateManifest(m).errors <==> x in DependencySectionErrors(m)
  {
    ErrorsIn(m, x);
    NotInMetadataErrors(m, x);
    NotInPermissionErrors(m, x);
    NotInBuildErrors(m, x);
  }

  lemma BuildErrorIn(m: Manifest, x: Issue)
    requires x.code in BuildErrorCodes
    ensures x in ValidateManifest(m).errors <==> x in BuildSectionErrors(m)
  {
    ErrorsIn(m, x);
    NotInMetadataErrors(m, x);
    NotInPermissionErrors(m, x);
    NotInDependencyErrors(m, x);
  }

  /** The number of times a metadata-coded finding occurs among the errors
      is the number of times the metadata section reports it. */
  lemma MetadataErrorCount(m: Manifest, x: Issue)
    requires x.code in MetadataErrorCodes
    ensures multiset(ValidateManifest(m).errors)[x] == multiset(MetadataSectionErrors(m))[x]
  {
    var a, b, d, e := MetadataSectionErrors(m), PermissionSectionErrors(m), DependencySectionErrors(m), BuildSectionErrors(m);
    assert ValidateManifest(m).errors == a + b + d + e;
    NotInPermissionErrors(m, x);
    NotInDependencyErrors(m, x);
    NotInBuildErrors(m, x);
    CountFirstOf4(a, b, d, e, x);
  }

  lemma CountFirstOf4(a: seq<Issue>, b: seq<Issue>, d: seq<Issue>, e: seq<Issue>, x: Issue)
    requires x !in b && x !in d && x !in e
    ensures multiset(a + b + d + e)[x] == multiset(a)[x]
  {
    assert multiset(a + b + d + e) == multiset(a) + multiset(b) + multiset(d) + multiset(e);
  }

  lemma WarningsIn(m: Manifest, x: Issue)
    ensures x in ValidateManifest(m).warnings <==> x in MetadataSectionWarnings(m) || x in PermissionSectionWarnings(m)
  {
  }

  lemma PermissionWarningIn(m: Manifest, x: Issue)
    requires x.code in PermissionWarningCodes
    ensures x in ValidateManifest(m).warnings <==> x in PermissionSectionWarnings(m)
  {
    WarningsIn(m, x);
    MetadataSectionCodes(m);
  }

  lemma When4In(b1: bool, y1: Issue, b2: bool, y2: Issue, b3: bool, y3: Issue, b4: bool, y4: Issue, x: Issue)
    ensures x in When(b1, y1) + When(b2, y2) + When(b3, y3) + When(b4, y4) <==>
      (b1 && x == y1) || (b2 && x == y2) || (b3 && x == y3) || (b4 && x == y4)
  {
    In4(When(b1, y1), When(b2, y2), When(b3, y3), When(b4, y4), x);
  }

  /** In present metadata, a format finding is reported exactly when its
      rule fires. */
  lemma FormatIn(m: Manifest, x: Issue)
    requires m.metadata.Some? && x.code != MissingMetadataField
    ensures x in MetadataSectionErrors(m) <==>
      var md := m.metadata.value;
      (BadId(md) && x == IdFormatIssue()) || (BadVersion(md) && x == VersionFormatIssue())
      || (BadSizes(md) && x == SizeIssue()) || (NegativePrice(md) && x == PriceIssue())
  {
    var md := m.metadata.value;
    assert x !in MissingFieldIssues(md, RequiredFields);
    When4In(BadId(md), IdFormatIssue(), BadVersion(md), VersionFormatIssue(),
      BadSizes(md), SizeIssue(), NegativePrice(md), PriceIssue(), x);
  }

  /** Without metadata the manifest draws the missing-metadata error, once. */
  lemma MissingMetadataRule(m: Manifest)
    ensures MissingMetadataIssue() in ValidateManifest(m).errors <==> m.metadata.None?
    ensures multiset(ValidateManifest(m).errors)[MissingMetadataIssue()] == if m.metadata.None? then 1 else 0
  {
    MetadataErrorIn(m, MissingMetadataIssue());
    MetadataErrorCount(m, MissingMetadataIssue());
    if m.metadata.Some? {
      FormatIn(m, MissingMetadataIssue());
    }
  }

  /** The missing-field findings name exactly the absent listed fields. */
  lemma {:induction false} MissingFieldIn(md: Metadata, fields: seq<string>, f: string)
    ensures MissingFieldIssue(f) in MissingFieldIssues(md, fields) <==> f in fields && !Present(md, f)
  {
    if |fields| > 0 {
      MissingFieldIn(md, fields[1..], f);
      PrefixInjective("metadata.", fields[0], f);
      assert f in fields <==> f == fields[0] || f in fields[1..];
    }
  }

  /** With distinct field names, an absent listed field is reported once
      and any other field not at all. */
  lemma {:induction false} MissingFieldCount(md: Metadata, fields: seq<string>, f: string)
    requires forall j, k :: 0 <= j < k < |fields| ==> fields[j] != fields[k]
    ensures multiset(MissingFieldIssues(md, fields))[MissingFieldIssue(f)] ==
      if f in fields && !Present(md, f) then 1 else 0
  {
    if |fields| > 0 {
      var head := if Present(md, fields[0]) then [] else [MissingFieldIssue(fields[0])];
      var tail := MissingFieldIssues(md, fields[1..]);
      assert MissingFieldIssues(md, fields) == head + tail;
      MissingFieldCount(md, fields[1..], f);
      PrefixInjective("metadata.", fields[0], f);
      assert f in fields <==> f == fields[0] || f in fields[1..];
      if f == fields[0] {
        assert f !in fields[1..];
      }
      assert multiset(head + tail) == multiset(head) + multiset(tail);
    }
  }

  /** The required-field rule: each of id, name, version, author,
      description and category that is absent from present metadata is
      reported, against its own field; without metadata none is. */
  lemma RequiredFieldRule(m: Manifest, f: string)
    ensures MissingFieldIssue(f) in ValidateManifest(m).errors <==>
      m.metadata.Some? && f in RequiredFields && !Present(m.metadata.value, f)
    ensures multiset(ValidateManifest(m).errors)[MissingFieldIssue(f)] ==
      if m.metadata.Some? && f in RequiredFields && !Present(m.metadata.value, f) then 1 else 0
  {
    var x := MissingFieldIssue(f);
    MetadataErrorIn(m, x);
    MetadataErrorCount(m, x);
    if m.metadata.Some? {
      var md := m.metadata.value;
      MissingFieldIn(md, RequiredFields, f);
      RequiredFieldsDistinct();
      MissingFieldCount(md, RequiredFields, f);
      assert x !in FormatErrors(md);
      CountFirstOf2(MissingFieldIssues(md, RequiredFields), FormatErrors(md), x);
    }
  }

  lemma RequiredFieldsDistinct()
    ensures forall j, k :: 0 <= j < k < |RequiredFields| ==> RequiredFields[j] != RequiredFields[k]
  {
  }

  lemma CountFirstOf2(a: seq<Issue>, b: seq<Issue>, x: Issue)
    requires x !in b
    ensures multiset(a + b)[x] == multiset(a)[x]
  {
    assert multiset(a + b) == multiset(a) + multiset(b);
  }

  /** The id rule: an id that is present and non-empty must consist of
      lower-case letters, digits and hyphens. */
  lemma IdRule(m: Manifest)
    ensures IdFormatIssue() in ValidateManifest(m).errors <==>
      m.metadata.Some? && TruthyText(m.metadata.value.id) && !IdFormatOk(m.metadata.value.id.value)
  {
    MetadataErrorIn(m, IdFormatIssue());
    if m.metadata.Some? {
      FormatIn(m, IdFormatIssue());
    }
  }

  /** The version rule: a version that is present and non-empty must be three
      dot-separated digit runs. */
  lemma VersionRule(m: Manifest)
    ensures VersionFormatIssue() in ValidateManifest(m).errors <==>
      m.metadata.Some? && TruthyText(m.metadata.value.version) && !SemverShape(m.metadata.value.version.value)
  {
    MetadataErrorIn(m, VersionFormatIssue());
    if m.metadata.Some? {
      FormatIn(m, VersionFormatIssue());
      if m.metadata.value.version.Some? {
        SemverIsShape(m.metadata.value.version.value);
      }
    }
  }

  /** The size rule: with both bounds given, the minimum may exceed the
      maximum in neither dimension. */
  lemma SizeRule(m: Manifest)
    ensures SizeIssue() in ValidateManifest(m).errors <==>
      m.metadata.Some? && m.metadata.value.minSize.Some? && m.metadata.value.maxSize.Some? &&
      (m.metadata.value.minSize.value.width > m.metadata.value.maxSize.value.width ||
       m.metadata.value.minSize.value.height > m.metadata.value.maxSize.value.height)
  {
    MetadataErrorIn(m, SizeIssue());
    if m.metadata.Some? {
      FormatIn(m, SizeIssue());
    }
  }

  /** The price rule: a negative price is an error. */
  lemma NegativePriceRule(m: Manifest)
    ensures PriceIssue() in ValidateManifest(m).errors <==>
      m.metadata.Some? && m.metadata.value.price.Some? && m.metadata.value.price.value < 0
  {
    MetadataErrorIn(m, PriceIssue());
    if m.metadata.Some? {
      FormatIn(m, PriceIssue());
    }
  }

  lemma MetadataWarningIn(m: Manifest, x: Issue)
    requires x.code == HighPrice
    ensures x in ValidateManifest(m).warnings <==> x in MetadataSectionWarnings(m)
  {
    WarningsIn(m, x);
    PermissionSectionCodes(m);
  }

  /** A price above 10000 is only a warning, and no price draws both the
      warning and the negative-price error. */
  lemma HighPriceRule(m: Manifest)
    ensures HighPriceIssue() in ValidateManifest(m).warnings <==>
      m.metadata.Some? && m.metadata.value.price.Some? && m.metadata.value.price.value > 10000
    ensures !(PriceIssue() in ValidateManifest(m).errors && HighPriceIssue() in ValidateManifest(m).warnings)
  {
    MetadataWarningIn(m, HighPriceIssue());
    NegativePriceRule(m);
  }

  lemma MissingPermissionsRule(m: Manifest)
    ensures MissingPermissionsIssue() in ValidateManifest(m).errors <==> m.permissions.None?
  {
    PermissionErrorIn(m, MissingPermissionsIssue());
  }

  /** The number of `true` values, as the count of `true` in the multiset of
      values. */
  lemma {:induction false} CountTrueIsOccurrences(flags: seq<bool>)
    ensures CountTrue(flags) == multiset(flags)[true]
  {
    if |flags| > 0 {
      CountTrueIsOccurrences(flags[1..]);
      assert flags == [flags[0]] + flags[1..];
    }
  }

  lemma When3In(b1: bool, y1: Issue, b2: bool, y2: Issue, b3: bool, y3: Issue, x: Issue)
    ensures x in When(b1, y1) + When(b2, y2) + When(b3, y3) <==>
      (b1 && x == y1) || (b2 && x == y2) || (b3 && x == y3)
  {
  }

  /** Each permission warning is raised exactly when its own rule fires. */
  lemma PermissionWarningsFire(m: Manifest, x: Issue)
    ensures x in PermissionSectionWarnings(m) <==>
      m.permissions.Some? &&
      var p := m.permissions.value;
      (CountTrue(Flags(p)) > MaxTrueFlags && x == ExcessivePermissionsIssue())
      || (Exceeds(p.maxMemory, RecommendedMaxMemory) && x == HighMemoryIssue())
      || (Exceeds(p.maxCpu, RecommendedMaxCpu) && x == HighCpuIssue())
  {
    if m.permissions.Some? {
      var p := m.permissions.value;
      When3In(CountTrue(Flags(p)) > MaxTrueFlags, ExcessivePermissionsIssue(),
        Exceeds(p.maxMemory, RecommendedMaxMemory), HighMemoryIssue(),
        Exceeds(p.maxCpu, RecommendedMaxCpu), HighCpuIssue(), x);
    }
  }

  /** Granting more than five of the eight capabilities draws a warning. */
  lemma ExcessivePermissionsRule(m: Manifest)
    ensures ExcessivePermissionsIssue() in ValidateManifest(m).warnings <==>
      m.permissions.Some? && multiset(Flags(m.permissions.value))[true] > 5
  {
    PermissionWarningIn(m, ExcessivePermissionsIssue());
    PermissionWarningsFire(m, ExcessivePermissionsIssue());
    if m.permissions.Some? {
      CountTrueIsOccurrences(Flags(m.permissions.value));
    }
  }

  /** A memory cap above 100 draws a warning. */
  lemma MemoryLimitRule(m: Manifest)
    ensures HighMemoryIssue() in ValidateManifest(m).warnings <==>
      m.permissions.Some? && m.permissions.value.maxMemory.Some? && m.permissions.value.maxMemory.value > 100
  {
    PermissionWarningIn(m, HighMemoryIssue());
    PermissionWarningsFire(m, HighMemoryIssue());
  }

  /** A CPU cap above 50 draws a warning. */
  lemma CpuLimitRule(m: Manifest)
    ensures HighCpuIssue() in ValidateManifest(m).warnings <==>
      m.permissions.Some? && m.permissions.value.maxCpu.Some? && m.permissions.value.maxCpu.value > 50
  {
    PermissionWarningIn(m, HighCpuIssue());
    PermissionWarningsFire(m, HighCpuIssue());
  }

  /** Some entry of `deps` is the package `name`. */
  predicate Declares(deps: seq<Dependency>, name: string) {
    exists i :: 0 <= i < |deps| && deps[i].name == name
  }

  /** Some entry of `deps` is the package `name` with a non-string version. */
  predicate DeclaresBadVersion(deps: seq<Dependency>, name: string) {
    exists i :: 0 <= i < |deps| && deps[i].name == name && !deps[i].version.Str?
  }

  lemma DeclaresTail(deps: seq<Dependency>, name: string)
    requires |deps| > 0
    ensures Declares(deps, name) <==> deps[0].name == name || Declares(deps[1..], name)
    ensures DeclaresBadVersion(deps, name) <==>
      (deps[0].name == name && !deps[0].version.Str?) || DeclaresBadVersion(deps[1..], name)
  {
    if Declares(deps, name) {
      var i :| 0 <= i < |deps| && deps[i].name == name;
      if i > 0 {
        assert deps[1..][i - 1].name == name;
      }
    }
    if DeclaresBadVersion(deps, name) {
      var i :| 0 <= i < |deps| && deps[i].name == name && !deps[i].version.Str?;
      if i > 0 {
        assert deps[1..][i - 1] == deps[i];
      }
    }
  }

  /** A dependency list reports a package as insecure exactly when it is
      declared and its name is insecure. */
  lemma {:induction false} InsecureIn(deps: seq<Dependency>, name: string)
    ensures InsecureIssue(name) in DependencyErrors(deps) <==> Insecure(name) && Declares(deps, name)
  {
    if |deps| > 0 {
      InsecureIn(deps[1..], name);
      DeclaresTail(deps, name);
      PrefixInjective("dependencies.", deps[0].name, name);
    }
  }

  /** A dependency list reports a package's version exactly when some entry
      for it has a version that is not a string. */
  lemma {:induction false} VersionIn(deps: seq<Dependency>, name: string)
    ensures DependencyVersionIssue(name) in DependencyErrors(deps) <==> DeclaresBadVersion(deps, name)
  {
    if |deps| > 0 {
      VersionIn(deps[1..], name);
      DeclaresTail(deps, name);
      PrefixInjective("dependencies.", deps[0].name, name);
    }
  }

  lemma InsecureNames(name: string)
    ensures Insecure(name) <==> Contains(name, "eval") || Contains(name, "child_process") || Contains(name, "fs")
  {
    assert InsecurePackages[0] == "eval" && InsecurePackages[1] == "child_process" && InsecurePackages[2] == "fs";
  }

  /** A declared package whose name contains `eval`, `child_process` or `fs`
      is an error. */
  lemma InsecureDependencyRule(m: Manifest, name: string)
    ensures InsecureIssue(name) in ValidateManifest(m).errors <==>
      m.dependencies.Some? && Declares(m.dependencies.value, name) &&
      (Contains(name, "eval") || Contains(name, "child_process") || Contains(name, "fs"))
  {
    DependencyErrorIn(m, InsecureIssue(name));
    InsecureNames(name);
    if m.dependencies.Some? {
      InsecureIn(m.dependencies.value, name);
    }
  }

  /** A declared package with a version that is not a string is an error. */
  lemma DependencyVersionRule(m: Manifest, name: string)
    ensures DependencyVersionIssue(name) in ValidateManifest(m).errors <==>
      m.dependencies.Some? && DeclaresBadVersion(m.dependencies.value, name)
  {
    DependencyErrorIn(m, DependencyVersionIssue(name));
    if m.dependencies.Some? {
      VersionIn(m.dependencies.value, name);
    }
  }

  /** A present build section must name an entry point and an output. */
  lemma BuildRule(m: Manifest)
    ensures BuildEntryIssue() in ValidateManifest(m).errors <==> m.build.Some? && !TruthyText(m.build.value.entry)
    ensures BuildOutputIssue() in ValidateManifest(m).errors <==> m.build.Some? && !TruthyText(m.build.value.output)
  {
    BuildErrorIn(m, BuildEntryIssue());
    BuildErrorIn(m, BuildOutputIssue());
  }

  /** What a manifest must satisfy to draw no error, rule by rule: metadata
      with every required field and well-formed id, version, sizes and price;
      permissions; secure dependencies with string versions; and a build
      section, if any, naming both entry point and output. */
  ghost predicate Acceptable(m: Manifest) {
    && m.metadata.Some?
    && (forall f :: f in RequiredFields ==> Present(m.metadata.value, f))
    && !(TruthyText(m.metadata.value.id) && !IdFormatOk(m.metadata.value.id.value))
    && !(TruthyText(m.metadata.value.version) && !SemverShape(m.metadata.value.version.value))
    && !BadSizes(m.metadata.value)
    && !(m.metadata.value.price.Some? && m.metadata.value.price.value < 0)
    && m.permissions.Some?
    && (m.dependencies.Some? ==>
          forall i :: 0 <= i < |m.dependencies.value| ==>
            !Insecure(m.dependencies.value[i].name) && m.dependencies.value[i].version.Str?)
    && (m.build.Some? ==> TruthyText(m.build.value.entry) && TruthyText(m.build.value.output))
  }

  lemma {:induction false} NoMissingFields(md: Metadata, fields: seq<string>)
    ensures MissingFieldIssues(md, fields) == [] <==> forall f :: f in fields ==> Present(md, f)
  {
    if |fields| > 0 {
      NoMissingFields(md, fields[1..]);
      assert forall f :: f in fields <==> f == fields[0] || f in fields[1..];
    }
  }

  lemma {:induction false} NoDependencyErrors(deps: seq<Dependency>)
    ensures DependencyErrors(deps) == [] <==>
      forall i :: 0 <= i < |deps| ==> !Insecure(deps[i].name) && deps[i].version.Str?
  {
    if |deps| > 0 {
      NoDependencyErrors(deps[1..]);
      assert forall i :: 1 <= i < |deps| ==> deps[i] == deps[1..][i - 1];
    }
  }

  lemma NoMetadataErrors(m: Manifest)
    requires m.metadata.Some?
    ensures MetadataSectionErrors(m) == [] <==>
      && (forall f :: f in RequiredFields ==> Present(m.metadata.value, f))
      && !(TruthyText(m.metadata.value.id) && !IdFormatOk(m.metadata.value.id.value))
      && !(TruthyText(m.metadata.value.version) && !SemverShape(m.metadata.value.version.value))
      && !BadSizes(m.metadata.value)
      && !(m.metadata.value.price.Some? && m.metadata.value.price.value < 0)
  {
    var md := m.metadata.value;
    NoMissingFields(md, RequiredFields);
    if md.version.Some? {
      SemverIsShape(md.version.value);
    }
  }

  /** The manifest is valid exactly when it is acceptable rule by rule. */
  lemma ManifestValidity(m: Manifest)
    ensures ValidateManifest(m).valid <==> Acceptable(m)
  {
    if m.metadata.Some? {
      NoMetadataErrors(m);
    }
    if m.dependencies.Some? {
      NoDependencyErrors(m.dependencies.value);
    }
  }

  // ---------------------------------------------------------------------------
  // Code rules
  // ---------------------------------------------------------------------------

  datatype Rule = Rule(pattern: Pattern, message: string)

  const DangerousRules: seq<Rule> := [
    Rule(WordThen("eval", '('), "Use of eval() is not allowed"),
    Rule(WordThen("Function", '('), "Use of Function constructor is not allowed"),
    Rule(WordThen("innerHTML", '='), "Direct innerHTML assignment is not allowed"),
    Rule(Literal("document.write"), "Use of document.write is not allowed"),
    Rule(Literal("__proto__"), "Prototype pollution attempts are not allowed")
  ]

  const SuspiciousRules: seq<Rule> := [
    Rule(Literal("localStorage"), "Direct localStorage access detected, use element API instead"),
    Rule(WordThen("fetch", '('), "Direct fetch calls detected, ensure network permission is requested"),
    Rule(Literal("XMLHttpRequest"), "XMLHttpRequest detected, ensure network permission is requested")
  ]

  const MaxCodeLength := 1000000
  const LargeCodeLength := 500000

  /** One finding with code `c` for each rule whose pattern occurs in `code`,
      in rule order. */
  function RuleFindings(rules: seq<Rule>, code: string, c: Code): (r: seq<Issue>)
    ensures |r| <= |rules|
    ensures forall i :: 0 <= i < |r| ==> r[i].code == c && r[i].field == None
  {
    if |rules| == 0 then []
    else When(Matches(rules[0].pattern, code), Issue(c, rules[0].message, None)) + RuleFindings(rules[1..], code, c)
  }

  function ValidateCode(code: string): (r: ValidationResult)
    ensures r.valid <==> |r.errors| == 0
  {
    var errors := RuleFindings(DangerousRules, code, DangerousCode)
      + When(|code| > MaxCodeLength, Issue(CodeTooLarge, CodeTooLargeMessage, None));
    var warnings := RuleFindings(SuspiciousRules, code, SuspiciousCode)
      + When(LargeCodeLength < |code| <= MaxCodeLength, Issue(LargeCodeSize, LargeCodeMessage, None));
    ValidationResult(|errors| == 0, errors, warnings)
  }

  /** The messages of `rules` tell the rules apart. */
  predicate DistinctMessages(rules: seq<Rule>) {
    forall j, k :: 0 <= j < k < |rules| ==> rules[j].message != rules[k].message
  }

  /** A rule list reports a rule's message exactly when that rule's pattern
      matches, when the messages tell the rules apart. */
  lemma {:induction false} RuleFindingsIn(rules: seq<Rule>, code: string, c: Code, k: nat)
    requires k < |rules| && DistinctMessages(rules)
    ensures Issue(c, rules[k].message, None) in RuleFindings(rules, code, c) <==> Matches(rules[k].pattern, code)
  {
    var x := Issue(c, rules[k].message, None);
    if k == 0 {
      RuleFindingsOmit(rules[1..], code, c, x);
    } else {
      RuleFindingsIn(rules[1..], code, c, k - 1);
    }
  }

  /** A message that no rule of the list carries is never reported. */
  lemma {:induction false} RuleFindingsOmit(rules: seq<Rule>, code: string, c: Code, x: Issue)
    requires forall j :: 0 <= j < |rules| ==> rules[j].message != x.message
    ensures x !in RuleFindings(rules, code, c)
  {
    if |rules| > 0 {
      RuleFindingsOmit(rules[1..], code, c, x);
    }
  }

  /** With distinct messages, a rule's finding occurs once when its pattern
      matches and not at all otherwise. */
  lemma {:induction false} RuleFindingsCount(rules: seq<Rule>, code: string, c: Code, k: nat)
    requires k < |rules| && DistinctMessages(rules)
    ensures multiset(RuleFindings(rules, code, c))[Issue(c, rules[k].message, None)] ==
      if Matches(rules[k].pattern, code) then 1 else 0
  {
    var x := Issue(c, rules[k].message, None);
    var head := When(Matches(rules[0].pattern, code), Issue(c, rules[0].message, None));
    var tail := RuleFindings(rules[1..], code, c);
    assert RuleFindings(rules, code, c) == head + tail;
    assert multiset(head + tail) == multiset(head) + multiset(tail);
    if k == 0 {
      RuleFindingsOmit(rules[1..], code, c, x);
    } else {
      assert rules[1..][k - 1] == rules[k];
      RuleFindingsCount(rules[1..], code, c, k - 1);
    }
  }

  lemma DangerousMessagesDistinct()
    ensures DistinctMessages(DangerousRules)
  {
  }

  lemma SuspiciousMessagesDistinct()
    ensures DistinctMessages(SuspiciousRules)
  {
  }

  /** Each dangerous pattern found in the code is reported as an error with
      its own message: eval or Function followed by a parenthesis, innerHTML
      followed by `=`, `document.write`, `__proto__`. */
  lemma DangerousRule(code: string, k: nat)
    requires k < |DangerousRules|
    ensures Issue(DangerousCode, DangerousRules[k].message, None) in ValidateCode(code).errors <==>
      Matches(DangerousRules[k].pattern, code)
    ensures multiset(ValidateCode(code).errors)[Issue(DangerousCode, DangerousRules[k].message, None)] ==
      if Matches(DangerousRules[k].pattern, code) then 1 else 0
  {
    DangerousMessagesDistinct();
    RuleFindingsIn(DangerousRules, code, DangerousCode, k);
    RuleFindingsCount(DangerousRules, code, DangerousCode, k);
    var a := RuleFindings(DangerousRules, code, DangerousCode);
    var b := When(|code| > MaxCodeLength, Issue(CodeTooLarge, CodeTooLargeMessage, None));
    assert ValidateCode(code).errors == a + b;
    assert multiset(a + b) == multiset(a) + multiset(b);
  }

  /** Each suspicious pattern is only a warning: `localStorage`, fetch
      followed by a parenthesis, `XMLHttpRequest`. */
  lemma SuspiciousRule(code: string, k: nat)
    requires k < |SuspiciousRules|
    ensures Issue(SuspiciousCode, SuspiciousRules[k].message, None) in ValidateCode(code).warnings <==>
      Matches(SuspiciousRules[k].pattern, code)
    ensures Issue(SuspiciousCode, SuspiciousRules[k].message, None) !in ValidateCode(code).errors
    ensures multiset(ValidateCode(code).warnings)[Issue(SuspiciousCode, SuspiciousRules[k].message, None)] ==
      if Matches(SuspiciousRules[k].pattern, code) then 1 else 0
  {
    SuspiciousMessagesDistinct();
    RuleFindingsIn(SuspiciousRules, code, SuspiciousCode, k);
    RuleFindingsCount(SuspiciousRules, code, SuspiciousCode, k);
    var a := RuleFindings(SuspiciousRules, code, SuspiciousCode);
    var b := When(LargeCodeLength < |code| <= MaxCodeLength, Issue(LargeCodeSize, LargeCodeMessage, None));
    assert ValidateCode(code).warnings == a + b;
    assert multiset(a + b) == multiset(a) + multiset(b);
  }

  /** Code over 1000000 characters is an error; code over 500000 characters
      and within the limit draws a warning instead. */
  lemma CodeSizeRule(code: string)
    ensures Issue(CodeTooLarge, CodeTooLargeMessage, None) in ValidateCode(code).errors <==> |code| > 1000000
    ensures Issue(LargeCodeSize, LargeCodeMessage, None) in ValidateCode(code).warnings <==> 500000 < |code| <= 1000000
  {
  }

  /** Code is valid exactly when no dangerous pattern occurs and it is within
      the size limit; at most six errors and four warnings are reported. */
  lemma CodeValidity(code: string)
    ensures ValidateCode(code).valid <==>
      |code| <= 1000000 && forall k :: 0 <= k < |DangerousRules| ==> !Matches(DangerousRules[k].pattern, code)
    ensures |ValidateCode(code).errors| <= 6 && |ValidateCode(code).warnings| <= 4
  {
    var r := ValidateCode(code);
    if r.valid {
      forall k | 0 <= k < |DangerousRules|
        ensures !Matches(DangerousRules[k].pattern, code)
      {
        DangerousRule(code, k);
      }
    } else if |code| <= 1000000 {
      var x := r.errors[0];
      assert x in RuleFindings(DangerousRules, code, DangerousCode);
      RuleFindingsFrom(DangerousRules, code, DangerousCode, x);
    }
  }

  /** Every reported finding comes from a rule whose pattern matched. */
  lemma {:induction false} RuleFindingsFrom(rules: seq<Rule>, code: string, c: Code, x: Issue)
    requires x in RuleFindings(rules, code, c)
    ensures exists k :: 0 <= k < |rules| && Matches(rules[k].pattern, code) && x.message == rules[k].message
  {
    if x !in When(Matches(rules[0].pattern, code), Issue(c, rules[0].message, None)) {
      RuleFindingsFrom(rules[1..], code, c, x);
      var k :| 0 <= k < |rules[1..]| && Matches(rules[1..][k].pattern, code) && x.message == rules[1..][k].message;
      assert rules[k + 1] == rules[1..][k];
    }
  }

  /** A word starting in `s` starts with the character found there. */
  lemma AbsentFirstChar(s: string, w: string, i: int)
    requires |w| > 0
    ensures StartsAt(s, i, w) ==> 0 <= i < |s| && s[i] == w[0]
  {
    if StartsAt(s, i, w) {
      assert s[i..i + |w|][0] == s[i];
    }
  }

  /** `eval('2+2')` is rejected with exactly one finding: the eval error. */
  lemma EvalIsRejected()
    ensures !ValidateCode("eval('2+2')").valid
    ensures ValidateCode("eval('2+2')").errors == [Issue(DangerousCode, "Use of eval() is not allowed", None)]
  {
    var code := "eval('2+2')";
    assert MatchesAt(DangerousRules[0].pattern, code, 0);
    forall k, i | 1 <= k < |DangerousRules|
      ensures !MatchesAt(DangerousRules[k].pattern, code, i)
    {
      var w := if DangerousRules[k].pattern.Literal? then DangerousRules[k].pattern.text
               else DangerousRules[k].pattern.word;
      AbsentFirstChar(code, w, i);
    }
    var rest := DangerousRules[1..];
    assert RuleFindings(rest, code, DangerousCode) == [] by {
      assert RuleFindings(rest[4..], code, DangerousCode) == [];
      assert RuleFindings(rest[3..], code, DangerousCode) == [];
      assert RuleFindings(rest[2..], code, DangerousCode) == [];
      assert RuleFindings(rest[1..], code, DangerousCode) == [];
    }
    assert RuleFindings(DangerousRules, code, DangerousCode) ==
      [Issue(DangerousCode, DangerousRules[0].message, None)] + RuleFindings(rest, code, DangerousCode);
  }

  // ---------------------------------------------------------------------------
  // Name rule
  // ---------------------------------------------------------------------------

  /** The class `[a-zA-Z0-9\s-]`. */
  predicate NameChar(c: char) {
    IsLetter(c) || IsDigit(c) || IsWhitespace(c) || c == '-'
  }

  /** `/^[a-zA-Z0-9\s-]+$/` without the non-emptiness, checked char by char. */
  function AllNameChars(s: string): (r: bool)
    ensures r <==> forall i :: 0 <= i < |s| ==> NameChar(s[i])
  {
    if |s| == 0 then true else NameChar(s[0]) && AllNameChars(s[1..])
  }

  function ValidateName(name: string): (r: bool)
    ensures r <==> 3 <= |name| <= 50 && IsLetter(name[0]) && forall i :: 0 <= i < |name| ==> NameChar(name[i])
  {
    if |name| < 3 || |name| > 50 then false
    else if !IsLetter(name[0]) then false
    else AllNameChars(name)
  }
}
