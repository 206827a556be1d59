/** The element base class: the mount/unmount/resize/settings lifecycle with
    its guards, shallow-merge state, storage calls that check the context
    before the permission, and inter-element events relayed through the
    context's API. The element's own hooks (`onMount`, ...) are not visible
    here: each hook call is a step whose outcome is a parameter. */
module DefaiElement {
  import opened JsValues
  import opened Interfaces
  import ElementApiProxy

  datatype LifecycleEvent = Mount | Unmount | Resize | SettingsChange

  /** What a hook call did: returned (or resolved), or threw (or rejected). */
  datatype HookResult = Completed | Failed(message: string)

  /** What the element emitted on its own emitter, and the hooks it ran, in
      order. */
  datatype TraceEntry =
    | Lifecycle(event: LifecycleEvent)
    | HookCalled(event: LifecycleEvent)
    | StateChange(state: map<string, Json>)

  /** An element instance: its manifest id and permissions, its state, the
      context it was mounted with, the mounted flag and its trace. */
  datatype Element = Element(
    id: string,
    permissions: Permissions,
    state: map<string, Json>,
    context: Option<Context>,
    mounted: bool,
    trace: seq<TraceEntry>)

  /** The result of a lifecycle call and the element after it. */
  datatype Step = Step(result: Result<()>, after: Element)

  const AlreadyMountedMessage := "Element already mounted"
  const NotMountedMessage := "Element not mounted"

  /** The element holds a context exactly while it is mounted. */
  predicate Valid(e: Element) {
    e.mounted <==> e.context.Some?
  }

  /** A freshly constructed element: empty state, no context, not mounted. */
  function New(id: string, permissions: Permissions): (e: Element)
    ensures Valid(e) && !e.mounted && e.state == map[] && e.trace == []
  {
    Element(id, permissions, map[], None, false, [])
  }

  function HookOutcome(hook: HookResult): (r: Result<()>)
    ensures r.Ok? <==> hook.Completed?
    ensures hook.Failed? ==> r.message == hook.message
  {
    match hook
    case Completed => Ok(())
    case Failed(message) => Err(message)
  }

  /** `_mount`: refused on a mounted element, which is left as it was;
      otherwise the context is stored and the element marked mounted, the
      `mount` lifecycle event is emitted and then the hook runs. A failing
      hook leaves the element mounted. */
  function MountElement(e: Element, ctx: Context, hook: HookResult): (r: Step)
    ensures e.mounted ==> r == Step(Err(AlreadyMountedMessage), e)
    ensures !e.mounted ==> r.after.mounted && r.after.context == Some(ctx)
    ensures !e.mounted ==> r.after.trace == e.trace + [Lifecycle(Mount), HookCalled(Mount)]
    ensures !e.mounted ==> (r.result.Ok? <==> hook.Completed?)
    ensures r.after.state == e.state && r.after.id == e.id && r.after.permissions == e.permissions
    ensures Valid(e) ==> Valid(r.after)
  {
    if e.mounted then Step(Err(AlreadyMountedMessage), e)
    else
      var e1 := e.(context := Some(ctx), mounted := true, trace := e.trace + [Lifecycle(Mount), HookCalled(Mount)]);
      Step(HookOutcome(hook), e1)
  }

  /** `_unmount`: refused on an unmounted element; otherwise `unmount` is
      emitted, the hook runs, and only when it completes are the mounted
      flag and the context cleared. */
  function UnmountElement(e: Element, hook: HookResult): (r: Step)
    ensures !e.mounted ==> r == Step(Err(NotMountedMessage), e)
    ensures e.mounted ==> r.after.trace == e.trace + [Lifecycle(Unmount), HookCalled(Unmount)]
    ensures e.mounted && hook.Completed? ==> r.result.Ok? && !r.after.mounted && r.after.context.None?
    ensures e.mounted && hook.Failed? ==> r.result == Err(hook.message) && r.after.mounted && r.after.context == e.context
    ensures r.after.state == e.state && r.after.id == e.id && r.after.permissions == e.permissions
    ensures Valid(e) ==> Valid(r.after)
  {
    if !e.mounted then Step(Err(NotMountedMessage), e)
    else
      var e1 := e.(trace := e.trace + [Lifecycle(Unmount), HookCalled(Unmount)]);
      match hook
      case Completed => Step(Ok(()), e1.(mounted := false, context := None))
      case Failed(message) => Step(Err(message), e1)
  }

  /** The shared shape of `_resize` and `_settingsChange`: refused when not
      mounted; otherwise the event is emitted and the hook runs, and the
      mounted flag and the context stay as they were. */
  function Notify(e: Element, event: LifecycleEvent, hook: HookResult): (r: Step)
    ensures !e.mounted ==> r == Step(Err(NotMountedMessage), e)
    ensures e.mounted ==> r.result == HookOutcome(hook)
    ensures e.mounted ==> r.after == e.(trace := e.trace + [Lifecycle(event), HookCalled(event)])
  {
    if !e.mounted then Step(Err(NotMountedMessage), e)
    else Step(HookOutcome(hook), e.(trace := e.trace + [Lifecycle(event), HookCalled(event)]))
  }

  /** `_resize`; the size itself is only passed to the hook. */
  function ResizeElement(e: Element, size: Size, hook: HookResult): (r: Step)
    ensures !e.mounted ==> r.result == Err(NotMountedMessage) && r.after == e
    ensures e.mounted ==> r.after.mounted && r.after.context == e.context && r.after.state == e.state
    ensures e.mounted ==> r.after.trace == e.trace + [Lifecycle(Resize), HookCalled(Resize)]
    ensures e.mounted ==> (r.result.Ok? <==> hook.Completed?)
  {
    Notify(e, Resize, hook)
  }

  /** `_settingsChange`; the settings are only passed to the hook. */
  function ChangeSettings(e: Element, settings: Json, hook: HookResult): (r: Step)
    ensures !e.mounted ==> r.result == Err(NotMountedMessage) && r.after == e
    ensures e.mounted ==> r.after.mounted && r.after.context == e.context && r.after.state == e.state
    ensures e.mounted ==> r.after.trace == e.trace + [Lifecycle(SettingsChange), HookCalled(SettingsChange)]
    ensures e.mounted ==> (r.result.Ok? <==> hook.Completed?)
  {
    Notify(e, SettingsChange, hook)
  }

  /** `setState`: the keys of the patch take the patch's values, every other
      key keeps its value, and the complete new state is emitted as
      `stateChange`. */
  function SetState(e: Element, patch: map<string, Json>): (r: Element)
    ensures r.state.Keys == e.state.Keys + patch.Keys
    ensures forall k :: k in patch ==> r.state[k] == patch[k]
    ensures forall k :: k in e.state && k !in patch ==> r.state[k] == e.state[k]
    ensures |r.trace| == |e.trace| + 1 && r.trace[..|e.trace|] == e.trace
    ensures r.trace[|e.trace|] == StateChange(r.state)
    ensures r.mounted == e.mounted && r.context == e.context
  {
    var s := e.state + patch;
    e.(state := s, trace := e.trace + [StateChange(s)])
  }

  /** `getState`: a copy of the state with the same keys and values. */
  function GetState(e: Element): (r: map<string, Json>)
    ensures r.Keys == e.state.Keys
    ensures forall k :: k in r ==> r[k] == e.state[k]
  {
    map k | k in e.state :: e.state[k]
  }

  /** Reading the state after `setState(patch)` sees the patch over the old
      state. */
  lemma SetThenGet(e: Element, patch: map<string, Json>, k: string)
    ensures k in GetState(SetState(e, patch)) <==> k in patch || k in e.state
    ensures k in patch ==> GetState(SetState(e, patch))[k] == patch[k]
    ensures k !in patch && k in e.state ==> GetState(SetState(e, patch))[k] == GetState(e)[k]
  {
  }

  /** `saveData`: without a context the call fails as not mounted, whatever
      the permissions; with a context but no storage permission it fails as
      denied; otherwise the key and value are handed to the context's API
      unchanged. */
  function SaveData(e: Element, key: string, value: Json): (r: Result<Call>)
    ensures e.context.None? ==> r == Err(NotMountedMessage)
    ensures e.context.Some? && !e.permissions.storage ==> r == Err(ElementApiProxy.StorageDenied)
    ensures r.Ok? <==> e.context.Some? && e.permissions.storage
    ensures r.Ok? ==> r.value == Call.SaveData(key, value)
  {
    if e.context.None? then Err(NotMountedMessage)
    else if !e.permissions.storage then Err(ElementApiProxy.StorageDenied)
    else Ok(Call.SaveData(key, value))
  }

  /** `loadData`: the same two checks in the same order as `saveData`. */
  function LoadData(e: Element, key: string): (r: Result<Call>)
    ensures e.context.None? ==> r == Err(NotMountedMessage)
    ensures e.context.Some? && !e.permissions.storage ==> r == Err(ElementApiProxy.StorageDenied)
    ensures r.Ok? <==> e.context.Some? && e.permissions.storage
    ensures r.Ok? ==> r.value == Call.LoadData(key)
  {
    if e.context.None? then Err(NotMountedMessage)
    else if !e.permissions.storage then Err(ElementApiProxy.StorageDenied)
    else Ok(Call.LoadData(key))
  }

  /** `emitToOthers`: needs a context; wraps the data with the element's id
      as source before handing it to the context's API. */
  function EmitToOthers(e: Element, event: string, data: Json): (r: Result<Call>)
    ensures r.Err? <==> e.context.None?
    ensures r.Err? ==> r.message == NotMountedMessage
    ensures r.Ok? ==> r.value.Emit? && r.value.event == event
    ensures r.Ok? ==> !Nullish(r.value.data)
    ensures r.Ok? ==> Get(r.value.data, "source") == Str(e.id) && Get(r.value.data, "data") == data
  {
    if e.context.None? then Err(NotMountedMessage)
    else Ok(Call.Emit(event, Envelope(e.id, data)))
  }

  /** `onFromOthers`: needs a context; registers with the context's API a
      listener that passes `payload.data` to the handler only when the
      element accepts `payload.source`. */
  function OnFromOthers(e: Element, event: string, handler: nat): (r: Result<Call>)
    ensures r.Err? <==> e.context.None?
    ensures r.Err? ==> r.message == NotMountedMessage
    ensures r.Ok? ==> r.value.On? && r.value.event == event
    ensures r.Ok? ==> forall payload :: !Nullish(payload) ==>
      Deliver(r.value.listener, payload) ==
        if CanReceive(e.permissions.canReceiveFrom, Get(payload, "source"))
        then Invoked(handler, Get(payload, "data")) else Dropped
  {
    if e.context.None? then Err(NotMountedMessage)
    else Ok(Call.On(event, SourceFiltered(e.permissions.canReceiveFrom, Handler(handler))))
  }

  /** The proxy an element's context holds: built for the element's own id
      and permissions. */
  function OwnProxy(e: Element): ElementApiProxy.Proxy {
    ElementApiProxy.Proxy(e.id, e.permissions)
  }

  /** Through its own proxy, a mounted element with storage permission saves
      under `id:key`; without the permission the element itself refuses with
      the same message the proxy would give. */
  lemma SaveThroughProxy(e: Element, key: string, value: Json)
    requires e.context.Some?
    ensures SaveData(e, key, value).Ok? ==>
      ElementApiProxy.Invoke(OwnProxy(e), SaveData(e, key, value).value) ==
        ElementApiProxy.Forwarded(Call.SaveData(ElementApiProxy.StorageKey(e.id, key), value))
    ensures SaveData(e, key, value).Err? ==>
      ElementApiProxy.Invoke(OwnProxy(e), Call.SaveData(key, value)) ==
        ElementApiProxy.Denied(SaveData(e, key, value).message)
  {
  }

  /** An event sent with `emitToOthers` through the sender's proxy is wrapped
      twice, once by the element and once by the proxy; a handler registered
      with `onFromOthers` through the receiver's proxy is filtered twice. The
      handler receives exactly the original data when the receiver accepts
      the sender, and nothing otherwise. */
  lemma EmitToOthersRoundTrip(sender: Element, receiver: Element, event: string, data: Json, handler: nat)
    requires sender.context.Some? && receiver.context.Some?
    requires |sender.permissions.canSendTo| > 0
    ensures
      var sent := ElementApiProxy.Invoke(OwnProxy(sender), EmitToOthers(sender, event, data).value);
      var registered := ElementApiProxy.Invoke(OwnProxy(receiver), OnFromOthers(receiver, event, handler).value);
      sent.Forwarded? && registered.Forwarded? &&
      Deliver(registered.call.listener, sent.call.data) ==
        if CanReceive(receiver.permissions.canReceiveFrom, Str(sender.id))
        then Invoked(handler, data) else Dropped
  {
    var inner := Envelope(sender.id, data);
    var outer := Envelope(sender.id, inner);
    var own := OnFromOthers(receiver, event, handler).value.listener;
    assert Deliver(own, inner) ==
      if CanReceive(receiver.permissions.canReceiveFrom, Str(sender.id))
      then Invoked(handler, data) else Dropped;
  }

  /** One call on the element from the host. */
  datatype Op =
    | MountOp(ctx: Context, hook: HookResult)
    | UnmountOp(hook: HookResult)
    | ResizeOp(size: Size, hook: HookResult)
    | SettingsOp(settings: Json, hook: HookResult)
    | SetStateOp(patch: map<string, Json>)

  function Apply(e: Element, op: Op): Element {
    match op
    case MountOp(ctx, hook) => MountElement(e, ctx, hook).after
    case UnmountOp(hook) => UnmountElement(e, hook).after
    case ResizeOp(size, hook) => ResizeElement(e, size, hook).after
    case SettingsOp(settings, hook) => ChangeSettings(e, settings, hook).after
    case SetStateOp(patch) => SetState(e, patch)
  }

  /** The element after a run of calls, first call first. */
  function Run(e: Element, ops: seq<Op>): Element
    decreases |ops|
  {
    if |ops| == 0 then e else Run(Apply(e, ops[0]), ops[1..])
  }

  /** Whatever the hooks do, an element holds a context exactly while it is
      mounted, from construction on: the not-mounted check and the
      missing-context check of the storage and event calls agree. */
  lemma {:induction false} ContextWhileMounted(id: string, permissions: Permissions, ops: seq<Op>)
    ensures Valid(Run(New(id, permissions), ops))
  {
    RunKeepsValid(New(id, permissions), ops);
  }

  lemma {:induction false} RunKeepsValid(e: Element, ops: seq<Op>)
    requires Valid(e)
    ensures Valid(Run(e, ops))
    decreases |ops|
  {
    if |ops| > 0 {
      var e1 := Apply(e, ops[0]);
      assert Valid(e1);
      RunKeepsValid(e1, ops[1..]);
    }
  }

  /** Mounting and then unmounting with both hooks completing gives back the
      unmounted element, state unchanged, with the four steps in its trace. */
  lemma MountUnmountRoundTrip(e: Element, ctx: Context)
    requires !e.mounted && e.context.None?
    ensures
      var m := MountElement(e, ctx, Completed);
      var u := UnmountElement(m.after, Completed);
      m.result.Ok? && u.result.Ok? &&
      u.after == e.(trace := e.trace + [Lifecycle(Mount), HookCalled(Mount), Lifecycle(Unmount), HookCalled(Unmount)])
  {
  }
}
