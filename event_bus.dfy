/**
 * The event bus (src/utils/eventBus.ts): a map from event name to the list of
 * callbacks registered for it. Callbacks and their arguments are opaque
 * identifiers; `Emit` reports the calls it makes, in order.
 */
module EventBus {

  import opened Wrappers
  import Seqs

  datatype Callback = Callback(id: nat)
  datatype Arg = Arg(id: nat)

  /** One invocation `callback(...args)`. */
  datatype Call = Call(callback: Callback, args: seq<Arg>)

  type Events = map<string, seq<Callback>>

  /** The list registered for `event`; an unregistered event has none. */
  function Listeners(events: Events, event: string): (r: seq<Callback>)
    ensures event in events ==> r == events[event]
    ensures event !in events ==> r == []
  {
    if event in events then events[event] else []
  }

  /** `on(event, cb)`: `cb` is appended to the event's list, which is created when absent. */
  function Register(events: Events, event: string, cb: Callback): (r: Events)
    ensures r.Keys == events.Keys + {event}
    ensures r[event] == Listeners(events, event) + [cb]
    ensures forall e :: e in events && e != event ==> r[e] == events[e]
  {
    events[event := Listeners(events, event) + [cb]]
  }

  /** `cbs.filter(c => c !== cb)`. */
  function Without(cbs: seq<Callback>, cb: Callback): (r: seq<Callback>)
    ensures cb !in r
    ensures forall c :: c != cb ==> multiset(r)[c] == multiset(cbs)[c]
  {
    Seqs.Filter(cbs, c => c != cb)
  }

  /**
   * `off(event)` with no callback maps the event to the empty list, registered
   * or not; `off(event, cb)` drops every occurrence of `cb` from a registered
   * event and does nothing for an unregistered one. Other events never change.
   */
  function Unregister(events: Events, event: string, cb: Option<Callback>): (r: Events)
    ensures cb.None? ==> r.Keys == events.Keys + {event} && r[event] == []
    ensures cb.Some? && event in events ==> r.Keys == events.Keys && r[event] == Without(events[event], cb.value)
    ensures cb.Some? && event !in events ==> r == events
    ensures forall e :: e in events && e != event ==> e in r && r[e] == events[e]
  {
    match cb
    case None => events[event := []]
    case Some(c) => if event in events then events[event := Without(events[event], c)] else events
  }

  /** Calling each of `cbs` in order with `args`. */
  function Dispatch(cbs: seq<Callback>, args: seq<Arg>): (r: seq<Call>)
    ensures |r| == |cbs|
    ensures forall i :: 0 <= i < |cbs| ==> r[i] == Call(cbs[i], args)
  {
    seq(|cbs|, i requires 0 <= i < |cbs| => Call(cbs[i], args))
  }

  lemma DispatchConcat(a: seq<Callback>, b: seq<Callback>, args: seq<Arg>)
    ensures Dispatch(a + b, args) == Dispatch(a, args) + Dispatch(b, args)
  {
    assert forall i :: 0 <= i < |a| + |b| ==> (a + b)[i] == if i < |a| then a[i] else b[i - |a|];
  }

  /** A registration adds exactly one call, of the new callback, after the existing ones. */
  lemma EmitAfterOn(events: Events, event: string, cb: Callback, args: seq<Arg>)
    ensures Dispatch(Listeners(Register(events, event, cb), event), args)
         == Dispatch(Listeners(events, event), args) + [Call(cb, args)]
  {
    DispatchConcat(Listeners(events, event), [cb], args);
  }

  /** Registering the same callback twice makes `emit` call it twice. */
  lemma RegisterTwiceCallsTwice(events: Events, event: string, cb: Callback, args: seq<Arg>)
    ensures Dispatch(Listeners(Register(Register(events, event, cb), event, cb), event), args)
         == Dispatch(Listeners(events, event), args) + [Call(cb, args), Call(cb, args)]
  {
    EmitAfterOn(events, event, cb, args);
    EmitAfterOn(Register(events, event, cb), event, cb, args);
  }

  /** After `off(event, cb)`, emitting the event never calls `cb`. */
  lemma OffThenEmitSkips(events: Events, event: string, cb: Callback, args: seq<Arg>)
    ensures Call(cb, args) !in Dispatch(Listeners(Unregister(events, event, Some(cb)), event), args)
  {
    var cbs := Listeners(Unregister(events, event, Some(cb)), event);
    assert cb !in cbs;
  }

  /** `off(event, cb)` keeps the other callbacks in their relative order: it commutes with concatenation. */
  lemma {:induction false} WithoutPreservesOrder(a: seq<Callback>, b: seq<Callback>, cb: Callback)
    ensures Without(a + b, cb) == Without(a, cb) + Without(b, cb)
  {
    Seqs.FilterConcat(a, b, c => c != cb);
  }

  /** `off(event, cb)` for a callback that is not registered leaves the list as it was. */
  lemma WithoutAbsent(cbs: seq<Callback>, cb: Callback)
    requires cb !in cbs
    ensures Without(cbs, cb) == cbs
  {
    Seqs.FilterKeepsAll(cbs, c => c != cb);
  }

  class Bus {
    var events: Events

    constructor ()
      ensures events == map[]
    {
      events := map[];
    }

    method On(event: string, callback: Callback)
      modifies this
      ensures events == Register(old(events), event, callback)
    {
      if event !in events {
        events := events[event := []];
      }
      events := events[event := events[event] + [callback]];
    }

    /** `emit(event, ...args)`: returns the calls made, in registration order. */
    method Emit(event: string, args: seq<Arg>) returns (calls: seq<Call>)
      ensures calls == Dispatch(Listeners(events, event), args)
    {
      calls := [];
      if event in events {
        var cbs := events[event];
        var i := 0;
        while i < |cbs|
          invariant 0 <= i <= |cbs|
          invariant calls == Dispatch(cbs[..i], args)
        {
          calls := calls + [Call(cbs[i], args)];
          i := i + 1;
        }
        assert cbs[..i] == cbs;
      }
    }

    method Off(event: string, callback: Option<Callback>)
      modifies this
      ensures events == Unregister(old(events), event, callback)
    {
      if callback.None? {
        events := events[event := []];
      } else if event in events {
        events := events[event := Without(events[event], callback.value)];
      }
    }
  }
}
