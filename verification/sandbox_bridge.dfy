/** The script the sandbox writes into the frame's document: an API stub
    whose every method posts an `api-call` to the parent with a fresh id and
    parks a resolver under that id, and a listener that settles the parked
    call when the parent answers with an `api-response`. Every load of the
    document starts a new bridge with no pending calls and id 0. */
module SandboxBridge {
  import opened JsValues
  import opened Interfaces

  /** The stub's method names, in the order the stub defines them. */
  const StubMethods: seq<string> := [
    "getPortfolio", "getTransactions", "getPrices", "saveData", "loadData",
    "sendNotification", "analyzeImage", "analyzeToken", "emit", "on"
  ]

  /** The stub offers exactly the element API's methods. */
  lemma StubMatchesApi()
    ensures forall c: Call :: MethodName(c) in StubMethods
    ensures forall i :: 0 <= i < |StubMethods| ==> exists c: Call :: MethodName(c) == StubMethods[i]
    ensures forall i, j :: 0 <= i < j < |StubMethods| ==> StubMethods[i] != StubMethods[j]
  {
    var witnesses := [
      GetPortfolio, GetTransactions(None), GetPrices([]), SaveData("", Undefined), LoadData(""),
      SendNotification(Undefined), AnalyzeImage(""), AnalyzeToken(""), Emit("", Undefined), On("", Handler(0))
    ];
    forall i | 0 <= i < |StubMethods|
      ensures exists c: Call :: MethodName(c) == StubMethods[i]
    {
      assert MethodName(witnesses[i]) == StubMethods[i];
    }
    forall i, j | 0 <= i < j < |StubMethods|
      ensures StubMethods[i] != StubMethods[j]
    {
      assert StubMethods[i][..2] != StubMethods[j][..2] || StubMethods[i][2..] != StubMethods[j][2..] ||
             |StubMethods[i]| != |StubMethods[j]|;
    }
  }

  /** The frame's bridge: the next id to hand out, the ids whose calls are
      still waiting, and the resolutions delivered so far, in order. */
  datatype Bridge = Bridge(nextId: nat, pending: set<nat>, settled: seq<(nat, Json)>)

  /** The `api-call` message a stub call posts to the parent. */
  datatype Request = Request(id: nat, name: string, args: seq<Json>)

  /** The `{type: 'api-call', id, method, args}` object a stub call posts
      to the parent; it has no `data` field. */
  function RequestMessage(q: Request): (r: Json)
    ensures !Nullish(r)
    ensures Get(r, "type") == Str("api-call") && Get(r, "id") == Num(q.id)
    ensures Get(r, "method") == Str(q.name) && Get(r, "args") == Arr(q.args)
    ensures Get(r, "data") == Undefined
  {
    assert "type"[0] != "id"[0] && "type"[0] != "method"[0] && "type"[0] != "args"[0] && "type"[0] != "data"[0];
    assert "id"[0] != "method"[0] && "id"[0] != "args"[0] && "id"[0] != "data"[0];
    assert "method"[0] != "args"[0] && "method"[0] != "data"[0] && "args"[0] != "data"[0];
    Quad("type", Str("api-call"), "id", Num(q.id), "method", Str(q.name), "args", Arr(q.args))
  }

  /** A `message` event in the frame: whether it came from the parent
      window, and the fields read off its `data`; `args` is absent when the
      payload has no arguments list. */
  datatype Incoming = Incoming(fromParent: bool, kind: Json, id: nat, args: Option<seq<Json>>)

  /** A freshly loaded document: `__apiId = 0`, no resolvers. */
  function Fresh(): (b: Bridge)
    ensures Valid(b) && b.nextId == 0 && b.pending == {} && b.settled == []
  {
    Bridge(0, {}, [])
  }

  /** Every pending or settled id was handed out, no id is both pending and
      settled, and no id was settled twice. */
  predicate Valid(b: Bridge) {
    && (forall id :: id in b.pending ==> id < b.nextId)
    && (forall i :: 0 <= i < |b.settled| ==> b.settled[i].0 < b.nextId && b.settled[i].0 !in b.pending)
    && (forall i, j :: 0 <= i < j < |b.settled| ==> b.settled[i].0 != b.settled[j].0)
  }

  /** A stub call: takes `id = __apiId++`, parks a resolver under it and
      posts the request. */
  function Invoke(b: Bridge, name: string, args: seq<Json>): (r: (Bridge, Request))
    requires name in StubMethods
    ensures r.1 == Request(b.nextId, name, args)
    ensures r.0.nextId == b.nextId + 1
    ensures r.0.pending == b.pending + {b.nextId} && r.0.settled == b.settled
    ensures Valid(b) ==> Valid(r.0) && b.nextId !in b.pending
  {
    (Bridge(b.nextId + 1, b.pending + {b.nextId}, b.settled), Request(b.nextId, name, args))
  }

  /** The frame's `message` listener. Messages not from the parent and
      messages of another type are ignored, and so is a response whose id has
      no parked resolver. Otherwise the resolver receives the first argument
      (`undefined` when the list is empty) and is removed; with no arguments
      list, reading `args[0]` throws before anything changes. */
  function Receive(b: Bridge, m: Incoming): (r: Result<Bridge>)
    ensures !m.fromParent || m.kind != Str("api-response") || m.id !in b.pending ==> r == Ok(b)
    ensures r.Err? <==> m.fromParent && m.kind == Str("api-response") && m.id in b.pending && m.args.None?
    ensures m.fromParent && m.kind == Str("api-response") && m.id in b.pending && m.args.Some? ==>
      (r.Ok? && r.value.pending == b.pending - {m.id} && r.value.nextId == b.nextId &&
       r.value.settled == b.settled + [(m.id, FirstOf(m.args.value))])
    ensures Valid(b) && r.Ok? ==> Valid(r.value)
  {
    if !m.fromParent || m.kind != Str("api-response") || m.id !in b.pending then Ok(b)
    else if m.args.None? then Err(ArgsMissingMessage)
    else Ok(Bridge(b.nextId, b.pending - {m.id}, b.settled + [(m.id, FirstOf(m.args.value))]))
  }

  const ArgsMissingMessage := "Cannot read properties of undefined (reading '0')"

  function FirstOf(args: seq<Json>): Json {
    if |args| == 0 then Undefined else args[0]
  }

  /** A response settles its own call only: answering `id` twice settles it
      once, and answering one call leaves every other pending call pending,
      whatever order the answers come in. */
  lemma SettleOnce(b: Bridge, id: nat, other: nat, args: seq<Json>)
    requires Valid(b) && id in b.pending && other in b.pending && other != id
    ensures
      var m := Incoming(true, Str("api-response"), id, Some(args));
      var b1 := Receive(b, m).value;
      b1.pending == b.pending - {id} && other in b1.pending &&
      Receive(b1, m) == Ok(b1)
  {
  }

  /** Issuing calls one after another: the requests carry the calls' names
      and arguments, their ids are consecutive from the bridge's counter and
      so strictly increasing, and every one of them is left pending. */
  method InvokeAll(b: Bridge, calls: seq<(string, seq<Json>)>) returns (r: Bridge, requests: seq<Request>)
    requires Valid(b)
    requires forall i :: 0 <= i < |calls| ==> calls[i].0 in StubMethods
    ensures Valid(r)
    ensures |requests| == |calls| && r.nextId == b.nextId + |calls|
    ensures forall i :: 0 <= i < |requests| ==> requests[i] == Request(b.nextId + i, calls[i].0, calls[i].1)
    ensures forall i, j :: 0 <= i < j < |requests| ==> requests[i].id < requests[j].id
    ensures forall i :: 0 <= i < |requests| ==> requests[i].id in r.pending && requests[i].id !in b.pending
    ensures r.settled == b.settled
  {
    r, requests := b, [];
    var k := 0;
    while k < |calls|
      invariant 0 <= k <= |calls|
      invariant Valid(r) && r.settled == b.settled
      invariant |requests| == k && r.nextId == b.nextId + k
      invariant forall i :: 0 <= i < k ==> requests[i] == Request(b.nextId + i, calls[i].0, calls[i].1)
      invariant forall i :: 0 <= i < k ==> requests[i].id in r.pending
    {
      var step := Invoke(r, calls[k].0, calls[k].1);
      r := step.0;
      requests := requests + [step.1];
      k := k + 1;
    }
  }
}
