/**
 * What the inbound XML-RPC handler of the eventing component does with one
 * call: the router lambda, handleEvent and handleMulticall, stated as pure
 * functions over the call's payload.
 *
 * Handlers are foreign code. They are named by HandlerId, visited in the
 * iteration order of the handler set (a sequence here), and each one either
 * returns or throws; `rejects(h, e)` says which. A Run is what one routing
 * produces: the deliveries made, in order, and whether it returned (the
 * handler always returns null) or threw.
 */
module Routing {
  import opened Optional
  import opened RpcValue

  const METHOD_EVENT: string := "event"
  const METHOD_MULTICALL: string := "system.multicall"

  type HandlerId = nat

  /** The (address, attribute, value) triple a handler receives; address and attribute may be null. */
  datatype Event = Event(address: Option<string>, attribute: Option<string>, value: string)

  /** One call of handler.eventReceived. */
  datatype Delivery = Delivery(handler: HandlerId, event: Event)

  datatype Fault = NullPointer | ClassCast | HandlerFailure(handler: HandlerId)

  datatype Outcome = Returned | Threw(fault: Fault)

  datatype Run = Run(deliveries: seq<Delivery>, outcome: Outcome)

  /** A Java reference cast: the cast value, or a ClassCastException. */
  datatype Cast<T> = Cast(value: T) | CastFails

  /** A multicall descriptor after its casts: the method name and where its params vector is. */
  datatype Descriptor = Call(name: Option<string>, paramsAt: Option<nat>) | Malformed(fault: Fault)

  /** What the parameters of a routed call can be once cast to Vector: a vector or null. */
  predicate IsParams(v: Value) {
    v.Nil? || v.Vec?
  }

  /** (String) v */
  function CastString(v: Value): Cast<Option<string>> {
    match v
    case Nil => Cast(None)
    case Str(s) => Cast(Some(s))
    case _ => CastFails
  }

  /** Run a, then b, unless a threw. */
  function Then(a: Run, b: Run): Run {
    if a.outcome.Returned? then Run(a.deliveries + b.deliveries, b.outcome) else a
  }

  /**
   * The forEach over the handler set, from the i-th handler on: each handler
   * in turn receives e; the first one that throws ends the loop and the
   * exception propagates.
   */
  function FanoutFrom(hs: seq<HandlerId>, rejects: (HandlerId, Event) -> bool, e: Event, i: nat): (r: Run)
    requires i <= |hs|
    ensures |r.deliveries| <= |hs| - i
    ensures forall k | 0 <= k < |r.deliveries| :: r.deliveries[k] == Delivery(hs[i + k], e)
    ensures r.outcome.Returned? <==> forall k | i <= k < |hs| :: !rejects(hs[k], e)
    ensures r.outcome.Returned? ==> |r.deliveries| == |hs| - i
    ensures r.outcome.Threw? ==>
      && 1 <= |r.deliveries|
      && r.outcome.fault == HandlerFailure(hs[i + |r.deliveries| - 1])
      && rejects(hs[i + |r.deliveries| - 1], e)
      && forall k | i <= k < i + |r.deliveries| - 1 :: !rejects(hs[k], e)
    decreases |hs| - i
  {
    if i == |hs| then Run([], Returned)
    else if rejects(hs[i], e) then Run([Delivery(hs[i], e)], Threw(HandlerFailure(hs[i])))
    else
      var rest := FanoutFrom(hs, rejects, e, i + 1);
      Run([Delivery(hs[i], e)] + rest.deliveries, rest.outcome)
  }

  /** The whole forEach over the handler set. */
  function Fanout(hs: seq<HandlerId>, rejects: (HandlerId, Event) -> bool, e: Event): Run {
    FanoutFrom(hs, rejects, e, 0)
  }

  /** handleEvent: only a 4-element vector is an event; element 0 (the interface id) is dropped. */
  function EventRun(hs: seq<HandlerId>, rejects: (HandlerId, Event) -> bool, params: Value): Run
    requires IsParams(params)
  {
    match params
    case Nil => Run([], Threw(NullPointer))
    case Vec(p) =>
      if |p| != 4 then Run([], Returned)
      else match (CastString(p[1]), CastString(p[2]))
        case (Cast(address), Cast(attribute)) => Fanout(hs, rejects, Event(address, attribute, ValueOf(p[3])))
        case _ => Run([], Threw(ClassCast))
  }

  /** The router lambda registered as the server's default handler. */
  function Dispatch(hs: seq<HandlerId>, rejects: (HandlerId, Event) -> bool, name: Option<string>, params: Value): Run
    requires IsParams(params)
    decreases params, 3
  {
    if name == Some(METHOD_EVENT) then EventRun(hs, rejects, params)
    else if name == Some(METHOD_MULTICALL) then MulticallRun(hs, rejects, params)
    else Run([], Returned)
  }

  /** handleMulticall: every element of the parameter vector is a vector of descriptors. */
  function MulticallRun(hs: seq<HandlerId>, rejects: (HandlerId, Event) -> bool, params: Value): Run
    requires IsParams(params)
    decreases params, 2
  {
    match params
    case Nil => Run([], Threw(NullPointer))
    case Vec(_) => OuterRun(hs, rejects, params, 0)
  }

  /** The outer loop of handleMulticall, from element i on. */
  function OuterRun(hs: seq<HandlerId>, rejects: (HandlerId, Event) -> bool, params: Value, i: nat): Run
    requires params.Vec? && i <= |params.items|
    decreases params, 1, |params.items| - i
  {
    if i == |params.items| then Run([], Returned)
    else match params.items[i]
      case Nil => Run([], Threw(NullPointer))
      case Vec(_) => Then(CallsRun(hs, rejects, params.items[i], 0), OuterRun(hs, rejects, params, i + 1))
      case _ => Run([], Threw(ClassCast))
  }

  /** The inner loop of handleMulticall over one vector of descriptors, from element j on. */
  function CallsRun(hs: seq<HandlerId>, rejects: (HandlerId, Event) -> bool, calls: Value, j: nat): Run
    requires calls.Vec? && j <= |calls.items|
    decreases calls, 0, |calls.items| - j
  {
    if j == |calls.items| then Run([], Returned)
    else Then(RouteDescriptor(hs, rejects, calls.items[j]), CallsRun(hs, rejects, calls, j + 1))
  }

  /**
   * The casts of one descriptor, which stand outside the try: the descriptor
   * must be a table, its "methodName" a string or absent, its "params" a
   * vector or absent.
   */
  function Decode(call: Value): (d: Descriptor)
    ensures d.Call? && d.paramsAt.Some? ==>
      call.Table? && d.paramsAt.value < |call.entries| && call.entries[d.paramsAt.value].val.Vec?
  {
    match call
    case Nil => Malformed(NullPointer)
    case Table(entries) =>
      var nameAt := Lookup(entries, "methodName");
      var paramsAt := Lookup(entries, "params");
      var name := if nameAt.None? then Cast(None) else CastString(entries[nameAt.value].val);
      if name.CastFails? then Malformed(ClassCast)
      else if paramsAt.None? || entries[paramsAt.value].val.Nil? then Call(name.value, None)
      else if entries[paramsAt.value].val.Vec? then Call(name.value, paramsAt)
      else Malformed(ClassCast)
    case _ => Malformed(ClassCast)
  }

  /** Routing with null parameters: event and multicall dereference them. */
  function NullParamsRun(name: Option<string>): Run {
    if name == Some(METHOD_EVENT) || name == Some(METHOD_MULTICALL) then Run([], Threw(NullPointer))
    else Run([], Returned)
  }

  /**
   * One iteration of the inner loop: decode the descriptor (a failure escapes
   * the multicall) and route it inside the try (a failure there is swallowed).
   */
  function RouteDescriptor(hs: seq<HandlerId>, rejects: (HandlerId, Event) -> bool, call: Value): Run
    decreases call, 4
  {
    match Decode(call)
    case Malformed(f) => Run([], Threw(f))
    case Call(name, paramsAt) =>
      if paramsAt.None? then Run(NullParamsRun(name).deliveries, Returned)
      else
        var params := call.entries[paramsAt.value].val;
        assert params < call.entries[paramsAt.value];
        Run(Dispatch(hs, rejects, name, params).deliveries, Returned)
  }

  /** The position of the first descriptor from j on whose casts fail, or |items| if none. */
  function FirstMalformed(items: seq<Value>, j: nat): (m: nat)
    requires j <= |items|
    ensures j <= m <= |items|
    ensures forall k | j <= k < m :: Decode(items[k]).Call?
    ensures m < |items| ==> Decode(items[m]).Malformed?
    decreases |items| - j
  {
    if j == |items| || Decode(items[j]).Malformed? then j else FirstMalformed(items, j + 1)
  }

  /** The deliveries of routing descriptors j .. m-1, in order. */
  function DeliveriesBetween(hs: seq<HandlerId>, rejects: (HandlerId, Event) -> bool, items: seq<Value>, j: nat, m: nat): seq<Delivery>
    requires j <= m <= |items|
    decreases m - j
  {
    if j == m then [] else RouteDescriptor(hs, rejects, items[j]).deliveries + DeliveriesBetween(hs, rejects, items, j + 1, m)
  }

  // ---------------------------------------------------------------------------
  // Properties of routing

  /** Only "event" and "system.multicall" do anything; every other name, and null, is dropped. */
  lemma RouteIgnoresOtherNames(hs: seq<HandlerId>, rejects: (HandlerId, Event) -> bool, name: Option<string>, params: Value)
    requires IsParams(params)
    requires name != Some(METHOD_EVENT) && name != Some(METHOD_MULTICALL)
    ensures Dispatch(hs, rejects, name, params) == Run([], Returned)
  {
  }

  /**
   * An "event" call reaches the handlers exactly when it has four parameters
   * whose second and third are strings (or null); then it is fanned out as
   * (p[1], p[2], String.valueOf(p[3])).
   */
  lemma EventNeedsFourParameters(hs: seq<HandlerId>, rejects: (HandlerId, Event) -> bool, p: seq<Value>)
    ensures |p| != 4 ==> Dispatch(hs, rejects, Some(METHOD_EVENT), Vec(p)) == Run([], Returned)
    ensures |p| == 4 && CastString(p[1]).Cast? && CastString(p[2]).Cast? ==>
      Dispatch(hs, rejects, Some(METHOD_EVENT), Vec(p))
        == Fanout(hs, rejects, Event(CastString(p[1]).value, CastString(p[2]).value, ValueOf(p[3])))
    ensures |p| == 4 && (CastString(p[1]).CastFails? || CastString(p[2]).CastFails?) ==>
      Dispatch(hs, rejects, Some(METHOD_EVENT), Vec(p)) == Run([], Threw(ClassCast))
  {
  }

  /** A descriptor with null parameters routes exactly as the router would route null. */
  lemma NullParamsAgree(hs: seq<HandlerId>, rejects: (HandlerId, Event) -> bool, name: Option<string>)
    ensures NullParamsRun(name) == Dispatch(hs, rejects, name, Nil)
  {
  }

  /**
   * The inner multicall loop routes descriptors j .. m-1 in order, where m is
   * the first descriptor whose casts fail: faults raised while routing a
   * descriptor never stop the loop, while a descriptor that fails its casts
   * ends it with that fault.
   */
  lemma {:induction false} CallsRunStopsOnlyAtMalformed(hs: seq<HandlerId>, rejects: (HandlerId, Event) -> bool, calls: Value, j: nat)
    requires calls.Vec? && j <= |calls.items|
    ensures var m := FirstMalformed(calls.items, j);
      && CallsRun(hs, rejects, calls, j).deliveries == DeliveriesBetween(hs, rejects, calls.items, j, m)
      && CallsRun(hs, rejects, calls, j).outcome
           == if m == |calls.items| then Returned else Threw(Decode(calls.items[m]).fault)
    decreases |calls.items| - j
  {
    if j < |calls.items| && Decode(calls.items[j]).Call? {
      CallsRunStopsOnlyAtMalformed(hs, rejects, calls, j + 1);
    }
  }

  /** A routed descriptor always returns normally, whatever its handlers do. */
  lemma RouteDescriptorSwallowsFaults(hs: seq<HandlerId>, rejects: (HandlerId, Event) -> bool, call: Value)
    requires Decode(call).Call?
    ensures RouteDescriptor(hs, rejects, call).outcome == Returned
  {
  }

  // ---------------------------------------------------------------------------
  // Multicalls of well-formed events

  /** The descriptor {methodName: "event", params: [id, address, attribute, value]}. */
  function EventCall(id: Value, address: string, attribute: string, value: Value): Value {
    Table([Entry("methodName", Str(METHOD_EVENT)), Entry("params", Vec([id, Str(address), Str(attribute), value]))])
  }

  lemma EventCallDecodes(id: Value, address: string, attribute: string, value: Value)
    ensures var call := EventCall(id, address, attribute, value);
      && Decode(call) == Call(Some(METHOD_EVENT), Some(1))
      && call.entries[1].val == Vec([id, Str(address), Str(attribute), value])
  {
    var entries := EventCall(id, address, attribute, value).entries;
    assert "params" != "methodName" by {
      assert "params"[0] != "methodName"[0];
    }
    assert Lookup(entries, "methodName") == Some(0);
    assert Lookup(entries, "params") == Some(1);
  }

  /** The event a handler receives for EventCall(_, address, attribute, value). */
  function EventOf(address: string, attribute: string, value: Value): Event {
    Event(Some(address), Some(attribute), ValueOf(value))
  }

  /** Every handler, in order, receives e. */
  function Broadcast(hs: seq<HandlerId>, e: Event): (r: seq<Delivery>)
    ensures |r| == |hs| && forall k | 0 <= k < |hs| :: r[k] == Delivery(hs[k], e)
  {
    seq(|hs|, k requires 0 <= k < |hs| => Delivery(hs[k], e))
  }

  function BroadcastAll(hs: seq<HandlerId>, events: seq<Event>): seq<Delivery> {
    if events == [] then [] else Broadcast(hs, events[0]) + BroadcastAll(hs, events[1..])
  }

  /** A handler set none of whose members throws on any of the events. */
  predicate AcceptsAll(hs: seq<HandlerId>, rejects: (HandlerId, Event) -> bool, events: seq<Event>) {
    forall k, n | 0 <= k < |hs| && 0 <= n < |events| :: !rejects(hs[k], events[n])
  }

  lemma FanoutAccepted(hs: seq<HandlerId>, rejects: (HandlerId, Event) -> bool, e: Event)
    requires forall k | 0 <= k < |hs| :: !rejects(hs[k], e)
    ensures Fanout(hs, rejects, e) == Run(Broadcast(hs, e), Returned)
  {
    var r := Fanout(hs, rejects, e);
    assert r.deliveries == Broadcast(hs, e);
  }

  /** Descriptors j .. of a vector of well-formed event descriptors deliver their events in order. */
  lemma {:induction false} EventCallsDelivered(
    hs: seq<HandlerId>, rejects: (HandlerId, Event) -> bool, calls: Value, j: nat,
    ids: seq<Value>, addresses: seq<string>, attributes: seq<string>, values: seq<Value>, events: seq<Event>)
    requires calls.Vec? && j <= |calls.items|
    requires |ids| == |addresses| == |attributes| == |values| == |events| == |calls.items|
    requires forall n | 0 <= n < |calls.items| ::
      calls.items[n] == EventCall(ids[n], addresses[n], attributes[n], values[n])
      && events[n] == EventOf(addresses[n], attributes[n], values[n])
    requires AcceptsAll(hs, rejects, events)
    ensures CallsRun(hs, rejects, calls, j) == Run(BroadcastAll(hs, events[j..]), Returned)
    decreases |calls.items| - j
  {
    if j < |calls.items| {
      var call := calls.items[j];
      var params := Vec([ids[j], Str(addresses[j]), Str(attributes[j]), values[j]]);
      EventCallDecodes(ids[j], addresses[j], attributes[j], values[j]);
      FanoutAccepted(hs, rejects, events[j]);
      assert RouteDescriptor(hs, rejects, call) == Run(Broadcast(hs, events[j]), Returned);
      EventCallsDelivered(hs, rejects, calls, j + 1, ids, addresses, attributes, values, events);
      assert events[j..][1..] == events[j + 1..];
    }
  }

  /**
   * A "system.multicall" whose parameter is one vector of k well-formed event
   * descriptors delivers the k events, in order, each to every handler.
   */
  lemma MulticallOfEvents(
    hs: seq<HandlerId>, rejects: (HandlerId, Event) -> bool, calls: seq<Value>,
    ids: seq<Value>, addresses: seq<string>, attributes: seq<string>, values: seq<Value>, events: seq<Event>)
    requires |ids| == |addresses| == |attributes| == |values| == |events| == |calls|
    requires forall n | 0 <= n < |calls| ::
      calls[n] == EventCall(ids[n], addresses[n], attributes[n], values[n])
      && events[n] == EventOf(addresses[n], attributes[n], values[n])
    requires AcceptsAll(hs, rejects, events)
    ensures Dispatch(hs, rejects, Some(METHOD_MULTICALL), Vec([Vec(calls)])) == Run(BroadcastAll(hs, events), Returned)
  {
    EventCallsDelivered(hs, rejects, Vec(calls), 0, ids, addresses, attributes, values, events);
    assert events[0..] == events;
    var params := Vec([Vec(calls)]);
    assert |METHOD_MULTICALL| != |METHOD_EVENT|;
    assert Dispatch(hs, rejects, Some(METHOD_MULTICALL), params) == OuterRun(hs, rejects, params, 0);
    assert params.items[0] == Vec(calls);
    assert OuterRun(hs, rejects, params, 1) == Run([], Returned);
    assert BroadcastAll(hs, events) + [] == BroadcastAll(hs, events);
  }
}
