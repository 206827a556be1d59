/** The SDK's shared records: element permissions, the manifest the validator
    reads, validation findings, the method surface of the element API, and the
    listeners inter-element events are delivered to. */
module Interfaces {
  import opened JsValues

  datatype Size = Size(width: int, height: int)

  /** Capability flags, the two inter-element allow-lists (element ids or `*`)
      and the optional resource caps. */
  datatype Permissions = Permissions(
    network: bool,
    storage: bool,
    notifications: bool,
    clipboard: bool,
    canReceiveFrom: seq<string>,
    canSendTo: seq<string>,
    portfolio: bool,
    transactions: bool,
    aiChat: bool,
    wallet: bool,
    maxMemory: Option<int>,
    maxCpu: Option<int>)

  /** The boolean permission values, in declaration order: what
      `Object.values(permissions)` yields besides the lists and the caps. */
  function Flags(p: Permissions): seq<bool> {
    [p.network, p.storage, p.notifications, p.clipboard,
     p.portfolio, p.transactions, p.aiChat, p.wallet]
  }

  /** Element metadata as it appears in a manifest: each required field may be
      absent, so every field the validator reads is optional. */
  datatype Metadata = Metadata(
    id: Option<string>,
    name: Option<string>,
    version: Option<string>,
    author: Option<string>,
    description: Option<string>,
    category: Option<string>,
    minSize: Option<Size>,
    maxSize: Option<Size>,
    price: Option<int>)

  /** A dependency entry `name: version`; the version may be any JSON value. */
  datatype Dependency = Dependency(name: string, version: Json)

  datatype Build = Build(entry: Option<string>, output: Option<string>)

  datatype Manifest = Manifest(
    metadata: Option<Metadata>,
    permissions: Option<Permissions>,
    dependencies: Option<seq<Dependency>>,
    build: Option<Build>)

  /** A string-valued field is truthy when present and non-empty. */
  predicate TruthyText(f: Option<string>) {
    f.Some? && f.value != ""
  }

  datatype Code =
    | MissingMetadata
    | MissingMetadataField
    | InvalidIdFormat
    | InvalidVersionFormat
    | InvalidSizeConstraints
    | InvalidPrice
    | HighPrice
    | MissingPermissions
    | ExcessivePermissions
    | HighMemoryLimit
    | HighCpuLimit
    | InsecureDependency
    | InvalidDependencyVersion
    | MissingBuildEntry
    | MissingBuildOutput
    | DangerousCode
    | SuspiciousCode
    | CodeTooLarge
    | LargeCodeSize

  datatype Issue = Issue(code: Code, message: string, field: Option<string>)

  datatype ValidationResult = ValidationResult(valid: bool, errors: seq<Issue>, warnings: seq<Issue>)

  /** Every finding in `s` carries a code from `codes`. */
  predicate CodesWithin(s: seq<Issue>, codes: set<Code>) {
    forall i :: 0 <= i < |s| ==> s[i].code in codes
  }

  lemma CodesWithinAppend(a: seq<Issue>, b: seq<Issue>, codes: set<Code>)
    requires CodesWithin(a, codes) && CodesWithin(b, codes)
    ensures CodesWithin(a + b, codes)
  {
    forall i | 0 <= i < |a + b|
      ensures (a + b)[i].code in codes
    {
      if i >= |a| {
        assert (a + b)[i] == b[i - |a|];
      }
    }
  }

  /** The element API's method surface: one constructor per method, carrying
      the call's arguments. */
  datatype Call =
    | GetPortfolio
    | GetTransactions(limit: Option<int>)
    | GetPrices(symbols: seq<string>)
    | SaveData(key: string, value: Json)
    | LoadData(key: string)
    | SendNotification(options: Json)
    | AnalyzeImage(imageData: string)
    | AnalyzeToken(tokenAddress: string)
    | Emit(event: string, data: Json)
    | On(event: string, listener: Listener)

  function MethodName(c: Call): string {
    match c
    case GetPortfolio => "getPortfolio"
    case GetTransactions(_) => "getTransactions"
    case GetPrices(_) => "getPrices"
    case SaveData(_, _) => "saveData"
    case LoadData(_) => "loadData"
    case SendNotification(_) => "sendNotification"
    case AnalyzeImage(_) => "analyzeImage"
    case AnalyzeToken(_) => "analyzeToken"
    case Emit(_, _) => "emit"
    case On(_, _) => "on"
  }

  /** A listener registered with `on`: the element's own handler, or a
      wrapper that passes `payload.data` on only from allowed sources. */
  datatype Listener = Handler(id: nat) | SourceFiltered(allow: seq<string>, inner: Listener)

  /** What happens when a payload reaches a listener. */
  datatype Delivery = Invoked(handler: nat, arg: Json) | Dropped | Threw

  /** `allow.includes('*') || allow.includes(source)`: some entry is the
      wildcard or equals the source, which must then be a string. */
  predicate CanReceive(allow: seq<string>, source: Json): (r: bool)
    ensures r <==> exists i :: 0 <= i < |allow| && (allow[i] == "*" || source == Str(allow[i]))
  {
    "*" in allow || (source.Str? && source.s in allow)
  }

  /** The handler at the core of a chain of wrappers. */
  function Innermost(l: Listener): nat {
    match l
    case Handler(h) => h
    case SourceFiltered(_, inner) => Innermost(inner)
  }

  /** Delivering a payload; reading `payload.source` or `payload.data` of a
      null or undefined payload throws a TypeError. */
  function Deliver(l: Listener, payload: Json): (r: Delivery)
    ensures r.Invoked? ==> r.handler == Innermost(l)
    ensures l.Handler? ==> r == Invoked(l.id, payload)
    ensures l.SourceFiltered? && Nullish(payload) ==> r == Threw
    ensures l.SourceFiltered? && !Nullish(payload) && !CanReceive(l.allow, Get(payload, "source")) ==> r == Dropped
    ensures l.SourceFiltered? && l.inner.Handler? && !Nullish(payload) && CanReceive(l.allow, Get(payload, "source")) ==>
      r == Invoked(l.inner.id, Get(payload, "data"))
  {
    match l
    case Handler(h) => Invoked(h, payload)
    case SourceFiltered(allow, inner) =>
      if Nullish(payload) then Threw
      else if CanReceive(allow, Get(payload, "source")) then Deliver(inner, Get(payload, "data"))
      else Dropped
  }

  /** The runtime handle given to an element at mount time (the API it holds
      is not part of the record: calls to it are returned to the caller). */
  datatype Context = Context(userId: string, locale: string, containerSize: Size)
}
