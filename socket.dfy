/** The client's mock socket: an in-memory registry from event name to the
    set of callbacks subscribed to it, with `on`, `off` and `emit`, and the
    module-wide singleton `getSocket` hands out. A JavaScript `Set` keeps
    its elements in insertion order, so a set of callbacks is a sequence
    without repetitions. Callbacks are compared by identity; here they are
    values of any type with equality. */
module Socket {
  import opened Wrappers

  predicate NoDup<T(==)>(s: seq<T>) {
    forall i, j :: 0 <= i < j < |s| ==> s[i] != s[j]
  }

  /** `set.add(cb)`: a new callback goes last, a present one stays where it
      is. */
  function Add<T(==)>(s: seq<T>, cb: T): (r: seq<T>)
    ensures cb in r && forall x :: x in s ==> x in r
    ensures forall x :: x in r ==> x in s || x == cb
  {
    if cb in s then s else s + [cb]
  }

  /** `set.delete(cb)`: the others keep their order. */
  function Remove<T(==)>(s: seq<T>, cb: T): (r: seq<T>)
    ensures cb !in r
    ensures forall x :: x in r ==> x in s && x != cb
    ensures forall x :: x in s && x != cb ==> x in r
    ensures |r| <= |s|
  {
    if s == [] then []
    else if s[0] == cb then Remove(s[1..], cb)
    else [s[0]] + Remove(s[1..], cb)
  }

  /** Adding keeps a set a set, and adding twice is adding once. */
  lemma AddNoDup<T>(s: seq<T>, cb: T)
    requires NoDup(s)
    ensures NoDup(Add(s, cb))
    ensures Add(Add(s, cb), cb) == Add(s, cb)
  {
  }

  /** Removing keeps a set a set. */
  lemma {:induction false} RemoveNoDup<T>(s: seq<T>, cb: T)
    requires NoDup(s)
    ensures NoDup(Remove(s, cb))
  {
    if s != [] {
      RemoveNoDup(s[1..], cb);
      if s[0] != cb {
        var r := Remove(s, cb);
        assert r == [s[0]] + Remove(s[1..], cb);
        assert s[0] !in s[1..];
      }
    }
  }

  /** Removing a callback that is not there changes nothing. */
  lemma {:induction false} RemoveAbsent<T>(s: seq<T>, cb: T)
    requires cb !in s
    ensures Remove(s, cb) == s
  {
    if s != [] {
      RemoveAbsent(s[1..], cb);
    }
  }

  /** Subscribing a new callback and unsubscribing it again restores the
      set, order included. */
  lemma {:induction false} RemoveAdd<T>(s: seq<T>, cb: T)
    requires cb !in s
    ensures Remove(Add(s, cb), cb) == s
  {
    if s == [] {
    } else {
      assert (s + [cb])[0] == s[0] && (s + [cb])[1..] == s[1..] + [cb];
      RemoveAdd(s[1..], cb);
    }
  }

  // ---------------------------------------------------------------------
  // The registry as written: a plain `{}` object

  /** The names a plain object inherits from `Object.prototype`. */
  const InheritedNames: set<string> :=
    {"constructor", "toString", "toLocaleString", "valueOf", "hasOwnProperty", "isPrototypeOf",
     "propertyIsEnumerable", "__proto__", "__defineGetter__", "__defineSetter__",
     "__lookupGetter__", "__lookupSetter__"}

  /** What `subscribers[event]` reads on the registry object: its own set,
      an inherited function or object (truthy, and not a set), or nothing. */
  datatype Slot<Cb> = OwnSet(callbacks: seq<Cb>) | InheritedMember | NoSlot

  function SlotOf<Cb>(registry: map<string, seq<Cb>>, event: string): Slot<Cb> {
    if event in registry then OwnSet(registry[event])
    else if event in InheritedNames then InheritedMember
    else NoSlot
  }

  /** `on` as written: `subscribers[event] ||= new Set()` keeps an
      inherited member, whose missing `add` method then throws a TypeError
      (`None`). */
  function OnAsWritten<Cb(==)>(registry: map<string, seq<Cb>>, event: string, cb: Cb)
    : (r: Option<map<string, seq<Cb>>>)
    ensures r.None? <==> event !in registry && event in InheritedNames
    ensures r.Some? ==> event in r.value && cb in r.value[event]
  {
    match SlotOf(registry, event)
    case OwnSet(s) => Some(registry[event := Add(s, cb)])
    case InheritedMember => None
    case NoSlot => Some(registry[event := [cb]])
  }

  /** `emit` as written: `subscribers[event]?.forEach(...)` on an inherited
      member calls a missing `forEach` and throws (`None`). */
  function EmitAsWritten<Cb>(registry: map<string, seq<Cb>>, event: string): (r: Option<seq<Cb>>)
    ensures r.None? <==> event !in registry && event in InheritedNames
  {
    match SlotOf(registry, event)
    case OwnSet(s) => Some(s)
    case InheritedMember => None
    case NoSlot => Some([])
  }

  /** `off` as written: without a callback, `delete subscribers[event]`
      removes an own set and leaves inherited members alone; with one,
      `subscribers[event]?.delete(cb)` on an inherited member calls a
      missing `delete` and throws (`None`). */
  function OffAsWritten<Cb(==)>(registry: map<string, seq<Cb>>, event: string, cb: Option<Cb>)
    : (r: Option<map<string, seq<Cb>>>)
    ensures r.None? <==> cb.Some? && event !in registry && event in InheritedNames
    ensures cb.None? ==> r == Some(registry - {event})
    ensures r.Some? && cb.Some? ==> event !in r.value || cb.value !in r.value[event]
  {
    if cb.None? then Some(registry - {event})
    else
      match SlotOf(registry, event)
      case OwnSet(s) => Some(registry[event := Remove(s, cb.value)])
      case InheritedMember => None
      case NoSlot => Some(registry)
  }

  /** Subscribing to an event named "toString" on the fresh registry
      throws instead of registering the callback, and so do emitting it and
      unsubscribing a callback from it. */
  lemma ToStringEventThrows<Cb>(cb: Cb)
    ensures OnAsWritten(map[], "toString", cb).None?
    ensures EmitAsWritten<Cb>(map[], "toString").None?
    ensures OffAsWritten(map[], "toString", Some(cb)).None?
  {
    assert "toString" in InheritedNames;
  }

  /** For every other name the registry as written does what the
      corrected `MockSocket.On`, `MockSocket.Off` and `MockSocket.Emit`
      do. */
  lemma AsWrittenAgrees<Cb>(registry: map<string, seq<Cb>>, event: string, cb: Cb)
    requires event !in InheritedNames
    ensures OnAsWritten(registry, event, cb) ==
              Some(registry[event := Add(if event in registry then registry[event] else [], cb)])
    ensures EmitAsWritten(registry, event) == Some(if event in registry then registry[event] else [])
    ensures OffAsWritten(registry, event, Some(cb)) ==
              Some(if event in registry then registry[event := Remove(registry[event], cb)] else registry)
  {
    assert Add([], cb) == [cb];
  }

  /** One invocation of a callback with the arguments of an `emit`. */
  datatype Call<Cb, A> = Call(callback: Cb, args: A)

  class MockSocket<Cb(==)> {
    /** `subscribers`: event name to its set of callbacks. */
    var subscribers: map<string, seq<Cb>>
    /** The mock never reports itself connected. */
    const connected: bool

    ghost predicate Valid()
      reads this
    {
      forall e :: e in subscribers ==> NoDup(subscribers[e])
    }

    /** The callbacks subscribed to `event`, none when it has no set. */
    function Subscribers(event: string): seq<Cb>
      reads this
    {
      if event in subscribers then subscribers[event] else []
    }

    constructor ()
      ensures Valid() && subscribers == map[] && !connected
    {
      subscribers := map[];
      connected := false;
    }

    /** `on(event, cb)`: creates the event's set when missing and adds
        `cb`; no other event changes. Unlike the registry as written, every
        event name works. */
    method On(event: string, cb: Cb)
      requires Valid()
      modifies this
      ensures Valid()
      ensures subscribers == old(subscribers)[event := Add(old(Subscribers(event)), cb)]
    {
      var s := if event in subscribers then subscribers[event] else [];
      AddNoDup(s, cb);
      subscribers := subscribers[event := Add(s, cb)];
    }

    /** `off(event)` drops the event's whole set; `off(event, cb)` removes
        `cb` from it, leaving a set that may be empty, and does nothing for
        an event without a set. */
    method Off(event: string, cb: Option<Cb>)
      requires Valid()
      modifies this
      ensures Valid()
      ensures cb.None? ==> subscribers == old(subscribers) - {event}
      ensures cb.Some? && event in old(subscribers) ==>
                subscribers == old(subscribers)[event := Remove(old(subscribers)[event], cb.value)]
      ensures cb.Some? && event !in old(subscribers) ==> subscribers == old(subscribers)
    {
      if cb.None? {
        subscribers := subscribers - {event};
        return;
      }
      if event in subscribers {
        RemoveNoDup(subscribers[event], cb.value);
        subscribers := subscribers[event := Remove(subscribers[event], cb.value)];
      }
    }

    /** `emit(event, ...args)`: calls the subscribers of the event in
        subscription order, each with the same arguments. A callback that
        throws (`throws(cb)`) ends the `forEach`: the callbacks after it are
        not called and the exception reaches the caller (`threw`). It
        changes nothing in the registry. */
    method Emit<A>(event: string, args: A, throws: Cb -> bool) returns (calls: seq<Call<Cb, A>>, threw: bool)
      ensures |calls| <= |Subscribers(event)|
      ensures forall i :: 0 <= i < |calls| ==> calls[i] == Call(Subscribers(event)[i], args)
      ensures forall i :: 0 <= i < |calls| - 1 ==> !throws(calls[i].callback)
      ensures threw <==> exists i :: 0 <= i < |Subscribers(event)| && throws(Subscribers(event)[i])
      ensures threw ==> |calls| > 0 && throws(calls[|calls| - 1].callback)
      ensures !threw ==> |calls| == |Subscribers(event)|
    {
      var subs := if event in subscribers then subscribers[event] else [];
      calls := [];
      threw := false;
      var i := 0;
      while i < |subs| && !threw
        invariant 0 <= i <= |subs|
        invariant |calls| == i
        invariant forall j :: 0 <= j < i ==> calls[j] == Call(subs[j], args)
        invariant forall j :: 0 <= j < i - 1 ==> !throws(subs[j])
        invariant threw <==> i > 0 && throws(subs[i - 1])
      {
        calls := calls + [Call(subs[i], args)];
        threw := throws(subs[i]);
        i := i + 1;
      }
    }
  }

  /** The module's single socket: the mock unless a real socket was loaded,
      which is not modelled. */
  class SocketModule<Cb(==)> {
    const singleton: MockSocket<Cb>

    constructor ()
      ensures fresh(singleton) && singleton.Valid() && singleton.subscribers == map[]
      ensures !singleton.connected
    {
      singleton := new MockSocket();
    }

    /** `getSocket()`: the same object on every call. */
    method GetSocket() returns (s: MockSocket<Cb>)
      ensures s == singleton
    {
      s := singleton;
    }
  }
}
