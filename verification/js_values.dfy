/** Values as the SDK's JavaScript sees them: optional values, thrown-or-returned
    results, and the dynamically typed payloads (`any`) that flow through the
    element API, with JavaScript's truthiness and property lookup. */
module JsValues {

  datatype Option<+T> = None | Some(value: T)

  /** A call that either returns a value or throws an `Error` with a message. */
  datatype Result<+T> = Ok(value: T) | Err(message: string)

  /** A JavaScript value as produced by `JSON.parse` or passed as `any`.
      Numbers are integers in this model. An `Obj` lists its own properties in
      insertion order; a parsed object has distinct keys. */
  datatype Json =
    | Undefined
    | Null
    | Bool(b: bool)
    | Num(n: int)
    | Str(s: string)
    | Arr(items: seq<Json>)
    | Obj(entries: seq<(string, Json)>)

  /** JavaScript's `!!v`. */
  predicate Truthy(v: Json) {
    match v
    case Undefined => false
    case Null => false
    case Bool(b) => b
    case Num(n) => n != 0
    case Str(s) => s != ""
    case Arr(_) => true
    case Obj(_) => true
  }

  /** Reading `v[key]` throws a TypeError exactly when `v` is null or undefined. */
  predicate Nullish(v: Json) {
    v.Undefined? || v.Null?
  }

  /** The value of own property `key` of an object, `undefined` otherwise.
      Defined for every non-nullish value (`(5).source` is `undefined`). */
  function Get(v: Json, key: string): (r: Json)
    requires !Nullish(v)
    ensures !v.Obj? ==> r == Undefined
  {
    match v
    case Obj(entries) => Lookup(entries, key)
    case _ => Undefined
  }

  /** First binding of `key` among `entries`. */
  function Lookup(entries: seq<(string, Json)>, key: string): (r: Json)
    ensures (forall i :: 0 <= i < |entries| ==> entries[i].0 != key) ==> r == Undefined
    ensures r != Undefined ==> exists i :: 0 <= i < |entries| && entries[i] == (key, r)
  {
    if |entries| == 0 then Undefined
    else if entries[0].0 == key then entries[0].1
    else Lookup(entries[1..], key)
  }

  /** The object literal `{k1: v1, k2: v2, k3: v3, k4: v4}`. */
  function Quad(k1: string, v1: Json, k2: string, v2: Json, k3: string, v3: Json, k4: string, v4: Json): (r: Json)
    requires k1 != k2 && k1 != k3 && k1 != k4 && k2 != k3 && k2 != k4 && k3 != k4
    ensures r.Obj? && !Nullish(r)
    ensures Get(r, k1) == v1 && Get(r, k2) == v2 && Get(r, k3) == v3 && Get(r, k4) == v4
    ensures forall k :: k != k1 && k != k2 && k != k3 && k != k4 ==> Get(r, k) == Undefined
  {
    var entries := [(k1, v1), (k2, v2), (k3, v3), (k4, v4)];
    LookupAt(entries, 0, k1);
    LookupAt(entries, 1, k2);
    LookupAt(entries, 2, k3);
    LookupAt(entries, 3, k4);
    Obj(entries)
  }

  /** The first entry with the key decides the lookup. */
  lemma {:induction false} LookupAt(entries: seq<(string, Json)>, j: nat, key: string)
    requires j < |entries| && entries[j].0 == key
    requires forall i :: 0 <= i < j ==> entries[i].0 != key
    ensures Lookup(entries, key) == entries[j].1
    decreases j
  {
    if j > 0 {
      LookupAt(entries[1..], j - 1, key);
    }
  }

  /** The key list `Object.keys(v)` for the values this model reads keys of. */
  function Keys(v: Json): (r: seq<string>)
    ensures v.Obj? ==> |r| == |v.entries| && forall i :: 0 <= i < |r| ==> r[i] == v.entries[i].0
    ensures v.Arr? ==> |r| == |v.items|
    ensures v.Str? ==> |r| == |v.s|
    ensures !(v.Obj? || v.Arr? || v.Str?) ==> r == []
  {
    match v
    case Obj(entries) => seq(|entries|, i requires 0 <= i < |entries| => entries[i].0)
    case Arr(items) => IndexKeys(|items|)
    case Str(s) => IndexKeys(|s|)
    case _ => []
  }

  /** The keys "0", "1", ..., of an array or string of length `n`. */
  function IndexKeys(n: nat): (r: seq<string>)
    ensures |r| == n
    ensures forall i :: 0 <= i < n ==> r[i] == NatToString(i)
  {
    seq(n, i requires 0 <= i < n => NatToString(i))
  }

  /** Decimal rendering of a natural number, as `String(n)`. */
  function NatToString(n: nat): (r: string)
    ensures |r| >= 1
    ensures forall i :: 0 <= i < |r| ==> '0' <= r[i] <= '9'
  {
    if n < 10 then [DigitChar(n)] else NatToString(n / 10) + [DigitChar(n % 10)]
  }

  function DigitChar(d: nat): (c: char)
    requires d < 10
    ensures '0' <= c <= '9'
  {
    ['0', '1', '2', '3', '4', '5', '6', '7', '8', '9'][d]
  }

  /** The object literal `{k1: v1, k2: v2}` for two distinct keys. */
  function Pair(k1: string, v1: Json, k2: string, v2: Json): (r: Json)
    requires k1 != k2
    ensures r.Obj? && !Nullish(r)
    ensures Get(r, k1) == v1 && Get(r, k2) == v2
  {
    var entries := [(k1, v1), (k2, v2)];
    assert Lookup(entries[1..], k2) == v2;
    Obj(entries)
  }

  /** The payload `{source, data}` with which an element announces itself on an
      outbound inter-element event. */
  function Envelope(source: string, data: Json): (r: Json)
    ensures !Nullish(r)
    ensures Get(r, "source") == Str(source)
    ensures Get(r, "data") == data
  {
    assert |"source"| != |"data"|;
    Pair("source", Str(source), "data", data)
  }
}
