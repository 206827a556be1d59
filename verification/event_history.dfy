/** The history side of the element event emitter: every event emitted under
    a string name is recorded with its first argument, and the history keeps
    only the most recent entries up to a capacity. Listener dispatch and the
    timestamps are not part of this model. */
module EventHistory {
  import opened JsValues

  /** An event name as `emit` accepts it: a string, or a symbol. */
  datatype EventName = Named(name: string) | Symbol(id: nat)

  datatype Entry = Entry(event: string, data: Json)

  datatype History = History(entries: seq<Entry>, maxSize: nat)

  const DefaultMaxHistorySize: nat := 100

  /** The history never holds more entries than its capacity. */
  predicate Bounded(h: History) {
    |h.entries| <= h.maxSize
  }

  /** A fresh emitter: no history and the default capacity. */
  function New(): (h: History)
    ensures Bounded(h) && h.entries == [] && h.maxSize == 100
  {
    History([], DefaultMaxHistorySize)
  }

  /** The reference behaviour of trimming: the last `n` entries of `s`, or all
      of `s` when it is not longer than `n`. */
  function KeepLatest(s: seq<Entry>, n: nat): (r: seq<Entry>)
    ensures |r| == if |s| <= n then |s| else n
    ensures r == s[|s| - |r|..]
  {
    if |s| <= n then s else s[|s| - n..]
  }

  /** The first argument of a call, `undefined` when there is none. */
  function FirstArg(args: seq<Json>): Json {
    if |args| == 0 then Undefined else args[0]
  }

  /** `emit`, history side: a string-named event is appended with its first
      argument and, when that overflows the capacity, the single oldest entry
      is dropped; a symbol-named event leaves the history as it was. */
  function Emit(h: History, event: EventName, args: seq<Json>): (r: History)
    ensures r.maxSize == h.maxSize
    ensures event.Symbol? ==> r == h
    ensures Bounded(h) ==> Bounded(r)
    ensures event.Named? && Bounded(h) ==>
      r.entries == KeepLatest(h.entries + [Entry(event.name, FirstArg(args))], h.maxSize)
    ensures event.Named? && h.maxSize > 0 ==> |r.entries| > 0 && r.entries[|r.entries| - 1] == Entry(event.name, FirstArg(args))
  {
    match event
    case Symbol(_) => h
    case Named(name) =>
      var pushed := h.entries + [Entry(name, FirstArg(args))];
      if |pushed| > h.maxSize then h.(entries := pushed[1..]) else h.(entries := pushed)
  }

  /** The entries named `name`, in order. */
  function Filter(s: seq<Entry>, name: string): (r: seq<Entry>)
    ensures |r| <= |s|
    ensures forall i :: 0 <= i < |r| ==> r[i].event == name
  {
    if |s| == 0 then []
    else if s[0].event == name then [s[0]] + Filter(s[1..], name)
    else Filter(s[1..], name)
  }

  /** An entry is in the filtered history exactly when it is in the history
      under that name. */
  lemma {:induction false} FilterMembers(s: seq<Entry>, name: string, x: Entry)
    ensures x in Filter(s, name) <==> x in s && x.event == name
  {
    if |s| > 0 {
      FilterMembers(s[1..], name, x);
      assert s == [s[0]] + s[1..];
    }
  }

  /** Filtering keeps order: filtering a concatenation is concatenating the
      filtered parts. */
  lemma {:induction false} FilterAppend(a: seq<Entry>, b: seq<Entry>, name: string)
    ensures Filter(a + b, name) == Filter(a, name) + Filter(b, name)
  {
    if |a| == 0 {
      assert a + b == b;
    } else {
      assert (a + b)[0] == a[0];
      assert (a + b)[1..] == a[1..] + b;
      FilterAppend(a[1..], b, name);
    }
  }

  /** `getHistory(event)`: the entries named `event` when a non-empty name is
      given, otherwise a copy of the whole history. */
  function GetHistory(h: History, event: Option<string>): (r: seq<Entry>)
    ensures event.None? || event.value == "" ==> r == h.entries
    ensures event.Some? && event.value != "" ==> r == Filter(h.entries, event.value)
    ensures event.Some? && event.value != "" ==>
      forall x :: x in r <==> x in h.entries && x.event == event.value
  {
    if event.Some? && event.value != "" then
      var r := Filter(h.entries, event.value);
      assert forall x :: x in r <==> x in h.entries && x.event == event.value by {
        forall x ensures x in r <==> x in h.entries && x.event == event.value {
          FilterMembers(h.entries, event.value, x);
        }
      }
      r
    else h.entries
  }

  /** `clearHistory`: no entries, capacity kept. */
  function ClearHistory(h: History): (r: History)
    ensures r.entries == [] && r.maxSize == h.maxSize && Bounded(r)
  {
    h.(entries := [])
  }

  /** `setMaxHistorySize(size)`: the capacity becomes `max(0, size)` and
      entries are dropped from the front, one at a time, until the history
      fits; the most recent ones survive in order. */
  method SetMaxHistorySize(h: History, size: int) returns (r: History)
    ensures r.maxSize == if size < 0 then 0 else size
    ensures Bounded(r)
    ensures r.entries == KeepLatest(h.entries, r.maxSize)
  {
    var cap: nat := if size < 0 then 0 else size;
    var entries := h.entries;
    while |entries| > cap
      invariant |entries| <= |h.entries|
      invariant entries == h.entries[|h.entries| - |entries|..]
      invariant cap <= |entries| || entries == h.entries
    {
      entries := entries[1..];
    }
    r := History(entries, cap);
  }

  /** While the history has room, emitting an event adds exactly its entry at
      the end of that event's filtered history, after the earlier ones. */
  lemma EmitExtendsNamedHistory(h: History, name: string, args: seq<Json>)
    requires |h.entries| < h.maxSize && name != ""
    ensures GetHistory(Emit(h, Named(name), args), Some(name)) ==
      GetHistory(h, Some(name)) + [Entry(name, FirstArg(args))]
  {
    var e := Entry(name, FirstArg(args));
    FilterAppend(h.entries, [e], name);
    assert Filter([e], name) == [e] + Filter([e][1..], name);
  }

  /** The history after emitting each event in turn, without arguments. */
  function EmitAll(h: History, events: seq<EventName>): History
    decreases |events|
  {
    if |events| == 0 then h else EmitAll(Emit(h, events[0], []), events[1..])
  }

  /** Whatever sequence of string- or symbol-named events is emitted, the
      history stays within its capacity, which does not change. */
  lemma {:induction false} EmitAllBounded(h: History, events: seq<EventName>)
    requires Bounded(h)
    ensures Bounded(EmitAll(h, events)) && EmitAll(h, events).maxSize == h.maxSize
    decreases |events|
  {
    if |events| > 0 {
      EmitAllBounded(Emit(h, events[0], []), events[1..]);
    }
  }
}
