/** The host side of the element sandbox: the iframe's sandbox tokens and
    content security policy, the "Sandbox not created" guards, the handler
    map for messages from the frame, and `destroy`. The DOM is reduced to
    what the model needs: whether an iframe exists, which frame it is,
    whether it has a content window, and how many window `message`
    listeners the sandbox has installed. */
module ElementSandbox {
  import opened JsValues
  import opened Interfaces
  import SandboxBridge

  /** The iframe the sandbox created; `id` tells frames apart, so that a
      message can be attributed to the current frame or to an earlier one.
      `window` says whether the iframe has a content window, which it has
      exactly when the container it was appended to is in a document. */
  datatype Frame = Frame(id: nat, tokens: set<string>, csp: string, window: bool, document: Option<Document>)

  /** The element code and optional styles loaded into the frame. */
  datatype Document = Document(code: string, styles: Option<string>)

  /** The sandbox: the element it hosts, the current iframe if any, the
      message handlers by type, the number of `message` listeners on the host
      window, and how many frames were created so far. */
  datatype Sandbox = Sandbox(
    elementId: string,
    permissions: Permissions,
    frame: Option<Frame>,
    handlers: map<string, nat>,
    listeners: nat,
    created: nat)

  /** The window a message came from; `NoSource` is a `message` event whose
      `source` is null, such as one dispatched by script on the host window. */
  datatype Origin = FromFrame(frameId: nat) | FromElsewhere | NoSource

  /** A `message` event on the host window: its origin and its `data`. */
  datatype Message = Message(origin: Origin, data: Json)

  const NotCreatedMessage := "Sandbox not created"

  const AllowScripts := "allow-scripts"
  const AllowClipboardRead := "allow-clipboard-read"
  const AllowClipboardWrite := "allow-clipboard-write"

  function New(elementId: string, permissions: Permissions): (s: Sandbox)
    ensures s.elementId == elementId && s.permissions == permissions
    ensures s.frame.None? && s.handlers == map[] && s.listeners == 0 && s.created == 0
  {
    Sandbox(elementId, permissions, None, map[], 0, 0)
  }

  /** The iframe's sandbox tokens: scripts always, the two clipboard tokens
      exactly when the clipboard permission is granted, nothing else. */
  function Tokens(p: Permissions): (r: set<string>)
    ensures AllowScripts in r
    ensures AllowClipboardRead in r <==> p.clipboard
    ensures AllowClipboardWrite in r <==> p.clipboard
    ensures r <= {AllowScripts, AllowClipboardRead, AllowClipboardWrite}
  {
    {AllowScripts} + (if p.clipboard then {AllowClipboardRead, AllowClipboardWrite} else {})
  }

  /** The six directives every frame gets. */
  const BaselineDirectives: seq<string> := [
    "default-src 'self'",
    "script-src 'self' 'unsafe-inline'",
    "style-src 'self' 'unsafe-inline'",
    "img-src 'self' data: https:",
    "font-src 'self' data:",
    "connect-src 'none'"
  ]

  const OpenConnect := "connect-src *"

  /** The policy's directives: the baseline, with `connect-src *` added as a
      seventh when the network permission is granted; the baseline's
      `connect-src 'none'` is never removed. Content Security Policy Level 3
      ignores a directive whose name already occurred in the policy, so the
      added `connect-src *` has no effect: see `NetworkNeverWidensConnect`. */
  function Directives(p: Permissions): (r: seq<string>)
    ensures |r| == if p.network then 7 else 6
    ensures r[..6] == BaselineDirectives
    ensures p.network ==> r[6] == OpenConnect
    ensures "connect-src 'none'" in r
    ensures OpenConnect in r <==> p.network
  {
    assert BaselineDirectives[5] == "connect-src 'none'";
    assert OpenConnect !in BaselineDirectives;
    if p.network then BaselineDirectives + [OpenConnect] else BaselineDirectives
  }

  /** Whether directive `d` is named `name`: the name followed by a space. */
  predicate Named(d: string, name: string) {
    |d| > |name| && d[..|name|] == name && d[|name|] == ' '
  }

  /** The directive a policy parser keeps for `name`: the first one. */
  function FirstNamed(ds: seq<string>, name: string): (r: Option<string>)
    ensures r.Some? ==> r.value in ds && Named(r.value, name)
    ensures r.None? ==> forall i :: 0 <= i < |ds| ==> !Named(ds[i], name)
    decreases |ds|
  {
    if |ds| == 0 then None
    else if Named(ds[0], name) then Some(ds[0])
    else FirstNamed(ds[1..], name)
  }

  /** With or without the network permission, the `connect-src` directive
      that takes effect is `connect-src 'none'`. */
  lemma NetworkNeverWidensConnect(p: Permissions)
    ensures FirstNamed(Directives(p), "connect-src") == Some("connect-src 'none'")
    ensures p.network ==> OpenConnect in Directives(p)
  {
    var ds := Directives(p);
    forall i | 0 <= i < 5
      ensures !Named(ds[i], "connect-src")
    {
      assert ds[i][0] != 'c';
    }
    assert ds[5] == "connect-src 'none'";
    assert Named(ds[5], "connect-src");
    assert FirstNamed(ds[5..], "connect-src") == Some(ds[5]);
    var k := 5;
    while k > 0
      invariant 0 <= k <= 5
      invariant FirstNamed(ds[k..], "connect-src") == Some(ds[5])
    {
      assert ds[k - 1..][1..] == ds[k..];
      k := k - 1;
    }
    assert ds[0..] == ds;
  }

  /** `parts.join(sep)`. */
  function Join(parts: seq<string>, sep: string): string
    decreases |parts|
  {
    if |parts| == 0 then ""
    else if |parts| == 1 then parts[0]
    else parts[0] + sep + Join(parts[1..], sep)
  }

  /** Joining one more part extends the joined text by the separator and the
      part. */
  lemma {:induction false} JoinSnoc(parts: seq<string>, last: string, sep: string)
    requires |parts| > 0
    ensures Join(parts + [last], sep) == Join(parts, sep) + sep + last
    decreases |parts|
  {
    if |parts| == 1 {
      assert parts + [last] == [parts[0], last];
    } else {
      assert (parts + [last])[1..] == parts[1..] + [last];
      JoinSnoc(parts[1..], last, sep);
    }
  }

  /** `getCSP`: the directives joined by `"; "`. With the network permission
      the policy is the baseline policy followed by `; connect-src *`. */
  function Csp(p: Permissions): (r: string)
    ensures p.network ==> r == Join(BaselineDirectives, "; ") + "; " + OpenConnect
    ensures !p.network ==> r == Join(BaselineDirectives, "; ")
  {
    JoinSnoc(BaselineDirectives, OpenConnect, "; ");
    Join(Directives(p), "; ")
  }

  /** `createSandbox` as written: a new frame with the tokens and the
      policy, with a content window when the container is in a document,
      and one more window listener every time it is called (the
      earlier listeners are never removed). */
  function CreateAsWritten(s: Sandbox, inDocument: bool): (r: Sandbox)
    ensures r.frame == Some(Frame(s.created, Tokens(s.permissions), Csp(s.permissions), inDocument, None))
    ensures r.listeners == s.listeners + 1
    ensures r.handlers == s.handlers && r.created == s.created + 1
  {
    s.(frame := Some(Frame(s.created, Tokens(s.permissions), Csp(s.permissions), inDocument, None)),
       listeners := s.listeners + 1,
       created := s.created + 1)
  }

  /** `createSandbox` with the message channel set up once per sandbox: the
      same frame, and at most one window listener however often it is
      called. */
  function Create(s: Sandbox, inDocument: bool): (r: Sandbox)
    ensures r.frame == Some(Frame(s.created, Tokens(s.permissions), Csp(s.permissions), inDocument, None))
    ensures r.listeners == 1
    ensures r.handlers == s.handlers && r.created == s.created + 1
  {
    s.(frame := Some(Frame(s.created, Tokens(s.permissions), Csp(s.permissions), inDocument, None)),
       listeners := 1,
       created := s.created + 1)
  }

  /** The "Sandbox not created" guard passes: there is an iframe and it has
      a content window. */
  predicate Ready(s: Sandbox) {
    s.frame.Some? && s.frame.value.window
  }

  /** `loadElement`: refused without a frame or without its content window;
      otherwise the frame's document is replaced with the element code and
      styles. */
  function LoadElement(s: Sandbox, code: string, styles: Option<string>): (r: Result<Sandbox>)
    ensures r.Err? <==> s.frame.None? || !s.frame.value.window
    ensures r.Err? ==> r.message == NotCreatedMessage
    ensures r.Ok? ==> r.value == s.(frame := Some(s.frame.value.(document := Some(Document(code, styles)))))
  {
    if !Ready(s) then Err(NotCreatedMessage)
    else Ok(s.(frame := Some(s.frame.value.(document := Some(Document(code, styles))))))
  }

  /** A message posted to a frame. */
  datatype Post = Post(frameId: nat, message: Json)

  /** The message object `{type, data}`. */
  function TypedMessage(messageType: string, data: Json): (r: Json)
    ensures !Nullish(r)
    ensures Get(r, "type") == Str(messageType) && Get(r, "data") == data
  {
    assert "type"[0] != "data"[0];
    Pair("type", Str(messageType), "data", data)
  }

  /** `sendMessage`: refused without a frame or without its content window;
      otherwise `{type, data}` is posted to the current frame. */
  function SendMessage(s: Sandbox, messageType: string, data: Json): (r: Result<Post>)
    ensures r.Err? <==> s.frame.None? || !s.frame.value.window
    ensures r.Err? ==> r.message == NotCreatedMessage
    ensures r.Ok? ==> r.value.frameId == s.frame.value.id
    ensures r.Ok? ==> !Nullish(r.value.message)
    ensures r.Ok? ==> Get(r.value.message, "type") == Str(messageType) && Get(r.value.message, "data") == data
  {
    if !Ready(s) then Err(NotCreatedMessage)
    else
      Ok(Post(s.frame.value.id, TypedMessage(messageType, data)))
  }

  /** `onMessage`: the handler for the type is the one registered last. */
  function OnMessage(s: Sandbox, messageType: string, handler: nat): (r: Sandbox)
    ensures messageType in r.handlers && r.handlers[messageType] == handler
    ensures forall t :: t != messageType ==> (t in r.handlers <==> t in s.handlers)
    ensures forall t :: t != messageType && t in s.handlers ==> r.handlers[t] == s.handlers[t]
    ensures r.frame == s.frame && r.listeners == s.listeners
  {
    s.(handlers := s.handlers[messageType := handler])
  }

  /** `destroy`: no frame and no handlers; the window listeners stay. */
  function Destroy(s: Sandbox): (r: Sandbox)
    ensures r.frame.None? && r.handlers == map[]
    ensures r.listeners == s.listeners && r.created == s.created
  {
    s.(frame := None, handlers := map[])
  }

  lemma DestroyIdempotent(s: Sandbox)
    ensures Destroy(Destroy(s)) == Destroy(s)
    ensures LoadElement(Destroy(s), "", None).Err? && SendMessage(Destroy(s), "", Undefined).Err?
  {
  }

  /** After `createSandbox`, loading and sending succeed exactly when the
      container was in a document; loading keeps the frame, so a message
      sent afterwards still goes to the frame just created. */
  lemma CreateThenLoad(s: Sandbox, inDocument: bool, code: string, styles: Option<string>, t: string, data: Json)
    ensures LoadElement(Create(s, inDocument), code, styles).Ok? <==> inDocument
    ensures SendMessage(Create(s, inDocument), t, data).Ok? <==> inDocument
    ensures inDocument ==>
      var loaded := LoadElement(Create(s, inDocument), code, styles).value;
      loaded.frame.value.document == Some(Document(code, styles)) &&
      SendMessage(loaded, t, data) == Ok(Post(s.created, TypedMessage(t, data)))
  {
  }

  /** Whether `event.source === this.iframe?.contentWindow` holds: with no
      iframe the right side is undefined and never equal; an iframe without
      a content window gives null, which a source-less event matches. */
  predicate FromCurrentFrame(s: Sandbox, m: Message) {
    s.frame.Some? &&
    m.origin == (if s.frame.value.window then FromFrame(s.frame.value.id) else NoSource)
  }

  /** As written, the two halves of the bridge do not meet. The host hands
      a handler the message's `data`, but a stub's `api-call` message has
      no `data` field, so the handler for `api-call` receives `undefined`.
      And what `sendMessage` posts carries no `id` and no `args`, so the
      frame's listener looks up resolver `undefined` and settles nothing. */
  lemma BridgeHalvesMismatch(s: Sandbox, q: SandboxBridge.Request, t: string, data: Json)
    requires Ready(s) && "api-call" in s.handlers
    ensures ListenerReaction(s, Message(FromFrame(s.frame.value.id), SandboxBridge.RequestMessage(q))) ==
      Invoked(s.handlers["api-call"], Undefined)
    ensures Get(TypedMessage(t, data), "id") == Undefined && Get(TypedMessage(t, data), "args") == Undefined
  {
  }

  /** What one window listener does with a message: nothing unless it comes
      from the current frame; then reading `type` and `data` off a null or
      undefined payload throws, and otherwise the handler registered for the
      type, if any, receives the payload's `data`. */
  function ListenerReaction(s: Sandbox, m: Message): (r: Delivery)
    ensures r.Invoked? ==> s.frame.Some? && (m.origin == FromFrame(s.frame.value.id) || m.origin == NoSource)
    ensures Ready(s) && r.Invoked? ==> m.origin == FromFrame(s.frame.value.id)
    ensures r.Invoked? ==> !Nullish(m.data) && exists t :: t in s.handlers && Get(m.data, "type") == Str(t) && r.handler == s.handlers[t]
    ensures FromCurrentFrame(s, m) && Nullish(m.data) ==> r == Threw
    ensures (FromCurrentFrame(s, m) && !Nullish(m.data) &&
             Get(m.data, "type").Str? && Get(m.data, "type").s in s.handlers) ==>
      r == Invoked(s.handlers[Get(m.data, "type").s], Get(m.data, "data"))
  {
    if !FromCurrentFrame(s, m) then Dropped
    else if Nullish(m.data) then Threw
    else match Get(m.data, "type")
      case Str(t) => if t in s.handlers then Invoked(s.handlers[t], Get(m.data, "data")) else Dropped
      case _ => Dropped
  }

  /** A message on the host window reaches every installed listener; each
      reacts the same way. */
  function Dispatch(s: Sandbox, m: Message): (r: seq<Delivery>)
    ensures |r| == s.listeners
    ensures forall i :: 0 <= i < |r| ==> r[i] == ListenerReaction(s, m)
  {
    seq(s.listeners, _ => ListenerReaction(s, m))
  }

  /** The handler calls a message causes. */
  function Invocations(s: Sandbox, m: Message): (r: nat)
    ensures r <= s.listeners
    ensures r > 0 ==> ListenerReaction(s, m).Invoked?
  {
    if ListenerReaction(s, m).Invoked? then s.listeners else 0
  }

  /** With the channel set up once, messages from any window other than the
      current frame are ignored, and a message from the frame runs at most one
      handler, the one last registered for its type. */
  lemma DispatchAtMostOnce(s: Sandbox, m: Message)
    requires s.listeners <= 1
    ensures Invocations(s, m) <= 1
    ensures (m.origin == FromElsewhere || s.frame.None?) ==> Invocations(s, m) == 0
    ensures Ready(s) && m.origin == NoSource ==> Invocations(s, m) == 0
  {
  }

  /** One call on the sandbox from the host page. */
  datatype Op = CreateOp(inDocument: bool) | DestroyOp | OnMessageOp(messageType: string, handler: nat)

  function Apply(s: Sandbox, op: Op, asWritten: bool): Sandbox {
    match op
    case CreateOp(inDocument) => if asWritten then CreateAsWritten(s, inDocument) else Create(s, inDocument)
    case DestroyOp => Destroy(s)
    case OnMessageOp(t, h) => OnMessage(s, t, h)
  }

  function Run(s: Sandbox, ops: seq<Op>, asWritten: bool): Sandbox
    decreases |ops|
  {
    if |ops| == 0 then s else Run(Apply(s, ops[0], asWritten), ops[1..], asWritten)
  }

  /** With the channel set up once, any run of `createSandbox`, `destroy`
      and `onMessage` calls keeps at most one window listener. */
  lemma {:induction false} SingleListener(s: Sandbox, ops: seq<Op>)
    requires s.listeners <= 1
    ensures Run(s, ops, false).listeners <= 1
    decreases |ops|
  {
    if |ops| > 0 {
      SingleListener(Apply(s, ops[0], false), ops[1..]);
    }
  }

  /** As written, create, destroy, create, register a handler: one message
      from the new frame runs that handler twice. */
  lemma DoubleDispatchAsWritten(id: string, p: Permissions, t: string, h: nat, data: Json)
    ensures
      var s := OnMessage(CreateAsWritten(Destroy(CreateAsWritten(New(id, p), true)), true), t, h);
      Dispatch(s, Message(FromFrame(1), TypedMessage(t, data))) == [Invoked(h, data), Invoked(h, data)]
  {
    var s := OnMessage(CreateAsWritten(Destroy(CreateAsWritten(New(id, p), true)), true), t, h);
    assert s.listeners == 2 && s.frame.value.id == 1;
    assert ListenerReaction(s, Message(FromFrame(1), TypedMessage(t, data))) == Invoked(h, data);
  }

  /** With the channel set up once, the same sequence runs the handler once. */
  lemma SingleDispatchCorrected(id: string, p: Permissions, t: string, h: nat, data: Json)
    ensures
      var s := OnMessage(Create(Destroy(Create(New(id, p), true)), true), t, h);
      Dispatch(s, Message(FromFrame(1), TypedMessage(t, data))) == [Invoked(h, data)]
  {
    var s := OnMessage(Create(Destroy(Create(New(id, p), true)), true), t, h);
    assert s.listeners == 1 && s.frame.value.id == 1;
    assert ListenerReaction(s, Message(FromFrame(1), TypedMessage(t, data))) == Invoked(h, data);
  }
}
