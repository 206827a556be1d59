/** The permission-checking proxy that stands between an element and the host
    API. Each of the ten methods is gated on one capability; a granted call is
    forwarded to the host API, with storage keys prefixed by the element id,
    outgoing event data wrapped with the element id as source, and incoming
    event listeners wrapped in a source filter. */
module ElementApiProxy {
  import opened JsValues
  import opened Interfaces
  import opened Text
  import ElementValidator

  datatype Proxy = Proxy(elementId: string, permissions: Permissions)

  /** What a call on the proxy does: forward a call to the host API, or throw
      an `Error` with a message. */
  datatype Outcome = Forwarded(call: Call) | Denied(message: string)

  /** The capability each method is gated on. */
  datatype Capability = Portfolio | Transactions | Network | Storage | Notifications | AiChat | SendEvents | Listen

  /** The reference table of which capability each method needs. */
  function Needs(c: Call): Capability {
    match c
    case GetPortfolio => Portfolio
    case GetTransactions(_) => Transactions
    case GetPrices(_) => Network
    case SaveData(_, _) => Storage
    case LoadData(_) => Storage
    case SendNotification(_) => Notifications
    case AnalyzeImage(_) => AiChat
    case AnalyzeToken(_) => AiChat
    case Emit(_, _) => SendEvents
    case On(_, _) => Listen
  }

  /** Whether the permissions grant a capability; sending events needs a
      non-empty `canSendTo`, and listening is always allowed. */
  predicate Granted(p: Permissions, cap: Capability) {
    match cap
    case Portfolio => p.portfolio
    case Transactions => p.transactions
    case Network => p.network
    case Storage => p.storage
    case Notifications => p.notifications
    case AiChat => p.aiChat
    case SendEvents => |p.canSendTo| > 0
    case Listen => true
  }

  const PortfolioDenied := "Portfolio permission not granted"
  const TransactionsDenied := "Transactions permission not granted"
  const NetworkDenied := "Network permission not granted"
  const StorageDenied := "Storage permission not granted"
  const NotificationsDenied := "Notifications permission not granted"
  const AiChatDenied := "AI chat permission not granted"
  const SendDenied := "Element cannot send events"

  /** The storage key an element's `key` is stored under: `elementId:key`. */
  function StorageKey(elementId: string, key: string): string {
    elementId + ":" + key
  }

  /** The message an `Error` carries when a capability is missing. */
  function DenialMessage(cap: Capability): string {
    match cap
    case Portfolio => PortfolioDenied
    case Transactions => TransactionsDenied
    case Network => NetworkDenied
    case Storage => StorageDenied
    case Notifications => NotificationsDenied
    case AiChat => AiChatDenied
    case SendEvents => SendDenied
    case Listen => ""
  }

  /** A call made on the proxy: refused exactly when the permissions do not
      grant the capability the table assigns to the method, with the message
      naming that capability; otherwise forwarded as the same method, with
      arguments unchanged except for the storage key prefix, the emit
      envelope and the listener's source filter. */
  function Invoke(proxy: Proxy, c: Call): (r: Outcome)
    ensures r.Denied? <==> !Granted(proxy.permissions, Needs(c))
    ensures r.Denied? ==> r.message == DenialMessage(Needs(c))
    ensures r.Forwarded? ==> MethodName(r.call) == MethodName(c)
    ensures r.Forwarded? && !(c.SaveData? || c.LoadData? || c.Emit? || c.On?) ==> r.call == c
    ensures r.Forwarded? && c.SaveData? ==> r.call == SaveData(StorageKey(proxy.elementId, c.key), c.value)
    ensures r.Forwarded? && c.LoadData? ==> r.call == LoadData(StorageKey(proxy.elementId, c.key))
    ensures r.Forwarded? && c.Emit? ==> r.call == Emit(c.event, Envelope(proxy.elementId, c.data))
    ensures r.Forwarded? && c.On? ==> r.call == On(c.event, SourceFiltered(proxy.permissions.canReceiveFrom, c.listener))
  {
    var p := proxy.permissions;
    match c
    case GetPortfolio =>
      if !p.portfolio then Denied(PortfolioDenied) else Forwarded(c)
    case GetTransactions(_) =>
      if !p.transactions then Denied(TransactionsDenied) else Forwarded(c)
    case GetPrices(_) =>
      if !p.network then Denied(NetworkDenied) else Forwarded(c)
    case SaveData(key, value) =>
      if !p.storage then Denied(StorageDenied) else Forwarded(SaveData(StorageKey(proxy.elementId, key), value))
    case LoadData(key) =>
      if !p.storage then Denied(StorageDenied) else Forwarded(LoadData(StorageKey(proxy.elementId, key)))
    case SendNotification(_) =>
      if !p.notifications then Denied(NotificationsDenied) else Forwarded(c)
    case AnalyzeImage(_) =>
      if !p.aiChat then Denied(AiChatDenied) else Forwarded(c)
    case AnalyzeToken(_) =>
      if !p.aiChat then Denied(AiChatDenied) else Forwarded(c)
    case Emit(event, data) =>
      if |p.canSendTo| == 0 then Denied(SendDenied) else Forwarded(Emit(event, Envelope(proxy.elementId, data)))
    case On(event, listener) =>
      Forwarded(On(event, SourceFiltered(p.canReceiveFrom, listener)))
  }

  /** The calls that reached the host API, oldest first, after one more call
      on the proxy: a refused call adds nothing, a forwarded call adds exactly
      the forwarded call. */
  function Perform(proxy: Proxy, log: seq<Call>, c: Call): (r: (Outcome, seq<Call>))
    ensures r.0 == Invoke(proxy, c)
    ensures r.0.Denied? ==> r.1 == log
    ensures r.0.Forwarded? ==> |r.1| == |log| + 1 && r.1[..|log|] == log && r.1[|log|] == r.0.call
  {
    var out := Invoke(proxy, c);
    if out.Denied? then (out, log) else (out, log + [out.call])
  }

  /** A storage call without the storage permission leaves the host API
      untouched; with it, exactly one call with the prefixed key arrives. */
  lemma StorageReachesHost(proxy: Proxy, log: seq<Call>, key: string, value: Json)
    ensures !proxy.permissions.storage ==> Perform(proxy, log, SaveData(key, value)).1 == log
    ensures !proxy.permissions.storage ==> Perform(proxy, log, LoadData(key)).1 == log
    ensures proxy.permissions.storage ==>
      Perform(proxy, log, SaveData(key, value)).1 == log + [SaveData(proxy.elementId + ":" + key, value)]
    ensures proxy.permissions.storage ==>
      Perform(proxy, log, LoadData(key)).1 == log + [LoadData(proxy.elementId + ":" + key)]
  {
  }

  /** The index of the first `':'` in `s`, or `|s|` if there is none. */
  function FirstColon(s: string): (i: nat)
    ensures i <= |s|
    ensures forall k :: 0 <= k < i ==> s[k] != ':'
    ensures i < |s| ==> s[i] == ':'
  {
    if |s| == 0 then 0
    else if s[0] == ':' then 0
    else 1 + FirstColon(s[1..])
  }

  /** The first colon of `a + ":" + b` sits right after `a` when `a` has no
      colon. */
  lemma ColonAfterId(a: string, b: string)
    requires ':' !in a
    ensures FirstColon(a + ":" + b) == |a|
  {
    var s := a + ":" + b;
    assert s[|a|] == ':';
  }

  /** Storage isolation: two elements whose ids contain no colon can only
      share a storage key when they are the same element using the same
      key. */
  lemma StorageIsolation(id1: string, key1: string, id2: string, key2: string)
    requires ':' !in id1 && ':' !in id2
    ensures StorageKey(id1, key1) == StorageKey(id2, key2) <==> id1 == id2 && key1 == key2
  {
    var s1, s2 := StorageKey(id1, key1), StorageKey(id2, key2);
    if s1 == s2 {
      ColonAfterId(id1, key1);
      ColonAfterId(id2, key2);
      assert id1 == s1[..|id1|];
      assert id2 == s2[..|id2|];
      assert key1 == s1[|id1| + 1..];
      assert key2 == s2[|id2| + 1..];
    }
  }

  /** Without the colon-free condition isolation fails: element `a:b` with
      key `c` and element `a` with key `b:c` share the storage key `a:b:c`. */
  lemma ColonIdsCollide()
    ensures StorageKey("a:b", "c") == StorageKey("a", "b:c") && "a:b" != "a"
  {
  }

  /** An id that passes the manifest's id format has no colon. */
  lemma FormattedIdHasNoColon(id: string)
    requires ElementValidator.IdFormatOk(id)
    ensures ':' !in id
  {
  }

  /** An emitted event reaches the host wrapped with the emitter's id, and a
      listener registered through another proxy receives exactly the original
      data when it accepts the emitter, and nothing otherwise. */
  lemma EmitThenReceive(sender: Proxy, receiver: Proxy, event: string, data: Json, l: Listener)
    requires |sender.permissions.canSendTo| > 0
    ensures Invoke(sender, Emit(event, data)) == Forwarded(Emit(event, Envelope(sender.elementId, data)))
    ensures
      var wrapped := Invoke(receiver, On(event, l)).call.listener;
      Deliver(wrapped, Envelope(sender.elementId, data)) ==
        if "*" in receiver.permissions.canReceiveFrom || sender.elementId in receiver.permissions.canReceiveFrom
        then Deliver(l, data) else Dropped
  {
  }

  /** A wrapped listener never passes on a payload from a source it does not
      accept, throws on a null or undefined payload, and hands `payload.data`
      to the listener it wraps when it accepts the source. */
  lemma FilterRejects(receiver: Proxy, event: string, l: Listener, payload: Json)
    ensures
      var wrapped := Invoke(receiver, On(event, l)).call.listener;
      (Nullish(payload) ==> Deliver(wrapped, payload) == Threw) &&
      (!Nullish(payload) && !CanReceive(receiver.permissions.canReceiveFrom, Get(payload, "source")) ==>
        Deliver(wrapped, payload) == Dropped) &&
      (!Nullish(payload) && CanReceive(receiver.permissions.canReceiveFrom, Get(payload, "source")) ==>
        Deliver(wrapped, payload) == Deliver(l, Get(payload, "data")))
  {
  }
}
