/**
 * The eventing component (CCUEventingImpl): a callback XML-RPC server whose
 * router fans hub events out to the channel's handlers, and an XML-RPC
 * client that registers the server with the hub.
 *
 * The server and the client are presence flags; their network behaviour is
 * not modelled. Each outbound init call goes to the ghost log `initCalls`
 * together with the hub's answer, which the caller supplies. Each call of a
 * handler goes to the ghost log `delivered`; whether the handler throws is
 * given by `rejects`.
 */
module Eventing {
  import opened Optional
  import opened RpcValue
  import opened Routing
  import L = Lifecycle
  import Text
  import Iteration

  class CCUEventing {
    /** The hub's XML-RPC URL, "http://hostname:port/", which the client talks to. */
    const url: string
    /** The URL the callback server advertises, built from the local address and port 20001. */
    const callbackUrl: string
    /** The channel's handler set, in its iteration order. */
    const handlers: seq<HandlerId>
    const rejects: (HandlerId, Event) -> bool

    var eventServer: bool
    var eventClient: bool
    var eventHandler: bool
    var serverUrl: Option<string>
    var started: bool

    ghost var initCalls: seq<L.InitCall>
    ghost var delivered: seq<Delivery>

    function State(): L.State
      reads this
    {
      L.State(eventServer, eventClient, eventHandler, started, serverUrl)
    }

    ghost predicate Valid()
      reads this
    {
      L.Valid(State(), callbackUrl)
    }

    constructor (hostname: string, port: int, localAddress: string, handlers: seq<HandlerId>, rejects: (HandlerId, Event) -> bool)
      ensures Valid() && State() == L.Initial
      ensures url == L.HubUrl(hostname, port) && callbackUrl == L.CallbackUrl(localAddress)
      ensures this.handlers == handlers && this.rejects == rejects
      ensures initCalls == [] && delivered == []
    {
      url := L.HubUrl(hostname, port);
      callbackUrl := L.CallbackUrl(localAddress);
      this.handlers := handlers;
      this.rejects := rejects;
      eventServer, eventClient, eventHandler := false, false, false;
      serverUrl := None;
      started := false;
      initCalls, delivered := [], [];
    }

    function IsStarted(): bool
      reads this
    {
      started
    }

    /** Creates the server, installs the router and records the URL to advertise. */
    method InitServer()
      modifies this`eventServer, this`eventHandler, this`serverUrl
      ensures eventServer && eventHandler && serverUrl == Some(callbackUrl)
    {
      serverUrl := Some(callbackUrl);
      eventServer := true;
      eventHandler := true;
    }

    /** Creates the client, then registers the server with the hub; a refusal throws with the client kept. */
    method InitClient(hubAccepts: bool) returns (r: L.Result)
      requires serverUrl.Some?
      modifies this`eventClient, this`initCalls
      ensures eventClient
      ensures initCalls == old(initCalls) + [L.InitCall(serverUrl.value, L.DRIVER_NAME, hubAccepts)]
      ensures r == if hubAccepts then L.Done else L.Failed(L.RegistrationFailed)
    {
      eventClient := true;
      initCalls := initCalls + [L.InitCall(serverUrl.value, L.DRIVER_NAME, hubAccepts)];
      if !hubAccepts {
        return L.Failed(L.RegistrationFailed);
      }
      r := L.Done;
    }

    method Start(hubAccepts: bool) returns (r: L.Result)
      requires Valid()
      modifies this
      ensures Valid()
      ensures State() == L.Start(old(State()), callbackUrl, hubAccepts).next
      ensures initCalls == old(initCalls) + L.Start(old(State()), callbackUrl, hubAccepts).calls
      ensures r == L.Start(old(State()), callbackUrl, hubAccepts).result
      ensures delivered == old(delivered)
    {
      if !eventServer {
        InitServer();
      }
      if !eventClient {
        r := InitClient(hubAccepts);
        if r.Failed? {
          return;
        }
      }
      started := true;
      r := L.Done;
    }

    method Stop(hubAccepts: bool) returns (r: L.Result)
      requires Valid()
      modifies this
      ensures Valid()
      ensures State() == L.Stop(old(State()), callbackUrl, hubAccepts).next
      ensures initCalls == old(initCalls) + L.Stop(old(State()), callbackUrl, hubAccepts).calls
      ensures r == L.Stop(old(State()), callbackUrl, hubAccepts).result
      ensures delivered == old(delivered)
    {
      if eventClient {
        initCalls := initCalls + [L.InitCall(serverUrl.value, "", hubAccepts)];
        if !hubAccepts {
          return L.Failed(L.DeregistrationFailed);
        }
      }
      // The server, if any, is shut down here.
      eventClient := false;
      eventServer := false;
      eventHandler := false;
      started := false;
      r := L.Done;
    }

    /** The router: "event" and "system.multicall" are handled, everything else is dropped. */
    method Route(name: Option<string>, params: Value) returns (o: Outcome)
      requires eventHandler && IsParams(params)
      modifies this`delivered
      ensures delivered == old(delivered) + Dispatch(handlers, rejects, name, params).deliveries
      ensures o == Dispatch(handlers, rejects, name, params).outcome
      decreases params, 3
    {
      if name == Some(METHOD_EVENT) {
        o := HandleEvent(params);
      } else if name == Some(METHOD_MULTICALL) {
        o := HandleMulticall(params);
      } else {
        o := Returned;
      }
    }

    method HandleEvent(params: Value) returns (o: Outcome)
      requires IsParams(params)
      modifies this`delivered
      ensures delivered == old(delivered) + EventRun(handlers, rejects, params).deliveries
      ensures o == EventRun(handlers, rejects, params).outcome
    {
      if params.Nil? {
        return Threw(NullPointer);
      }
      var p := params.items;
      if |p| != 4 {
        return Returned;
      }
      var address := CastString(p[1]);
      var attribute := CastString(p[2]);
      if address.CastFails? || attribute.CastFails? {
        return Threw(ClassCast);
      }
      o := Notify(Event(address.value, attribute.value, ValueOf(p[3])));
    }

    /** The forEach over the handler set; the first handler that throws ends it. */
    method Notify(e: Event) returns (o: Outcome)
      modifies this`delivered
      ensures delivered == old(delivered) + Fanout(handlers, rejects, e).deliveries
      ensures o == Fanout(handlers, rejects, e).outcome
    {
      ghost var fan := Fanout(handlers, rejects, e);
      ghost var base := delivered;
      var i := 0;
      while i < |handlers|
        invariant 0 <= i <= |handlers| && i <= |fan.deliveries|
        invariant delivered == base + fan.deliveries[..i]
        invariant forall k | 0 <= k < i :: !rejects(handlers[k], e)
      {
        assert fan.deliveries[i] == Delivery(handlers[i], e);
        Iteration.AppendAssoc(base, fan.deliveries[..i], [fan.deliveries[i]]);
        assert fan.deliveries[..i + 1] == fan.deliveries[..i] + [fan.deliveries[i]];
        delivered := delivered + [Delivery(handlers[i], e)];
        if rejects(handlers[i], e) {
          assert fan.deliveries[..i + 1] == fan.deliveries;
          return Threw(HandlerFailure(handlers[i]));
        }
        i := i + 1;
      }
      assert fan.deliveries[..i] == fan.deliveries;
      o := Returned;
    }

    method HandleMulticall(params: Value) returns (o: Outcome)
      requires eventHandler && IsParams(params)
      modifies this`delivered
      ensures delivered == old(delivered) + MulticallRun(handlers, rejects, params).deliveries
      ensures o == MulticallRun(handlers, rejects, params).outcome
      decreases params, 2
    {
      if params.Nil? {
        return Threw(NullPointer);
      }
      ghost var whole := MulticallRun(handlers, rejects, params);
      ghost var base := delivered;
      ghost var done: seq<Delivery> := [];
      var outer := params.items;
      var i := 0;
      while i < |outer|
        invariant 0 <= i <= |outer|
        invariant delivered == base + done
        invariant whole == Then(Run(done, Returned), OuterRun(handlers, rejects, params, i))
      {
        var methodCalls := outer[i];
        if methodCalls.Nil? {
          return Threw(NullPointer);
        }
        if !methodCalls.Vec? {
          return Threw(ClassCast);
        }
        ghost var step := CallsRun(handlers, rejects, methodCalls, 0);
        ghost var rest := OuterRun(handlers, rejects, params, i + 1);
        assert OuterRun(handlers, rejects, params, i) == Then(step, rest);
        var failed := HandleCalls(methodCalls);
        Iteration.AppendAssoc(base, done, step.deliveries);
        if failed.Threw? {
          return failed;
        }
        Iteration.AppendAssoc(done, step.deliveries, rest.deliveries);
        done := done + step.deliveries;
        i := i + 1;
      }
      o := Returned;
    }

    /** The inner loop of handleMulticall, over one vector of call descriptors. */
    method HandleCalls(methodCalls: Value) returns (o: Outcome)
      requires eventHandler && methodCalls.Vec?
      modifies this`delivered
      ensures delivered == old(delivered) + CallsRun(handlers, rejects, methodCalls, 0).deliveries
      ensures o == CallsRun(handlers, rejects, methodCalls, 0).outcome
      decreases methodCalls, 1
    {
      ghost var part := CallsRun(handlers, rejects, methodCalls, 0);
      ghost var base := delivered;
      ghost var done: seq<Delivery> := [];
      var calls := methodCalls.items;
      var j := 0;
      while j < |calls|
        invariant 0 <= j <= |calls|
        invariant delivered == base + done
        invariant part == Then(Run(done, Returned), CallsRun(handlers, rejects, methodCalls, j))
      {
        var call := calls[j];
        ghost var step := RouteDescriptor(handlers, rejects, call);
        ghost var rest := CallsRun(handlers, rejects, methodCalls, j + 1);
        assert CallsRun(handlers, rejects, methodCalls, j) == Then(step, rest);
        var failed := HandleDescriptor(call);
        Iteration.AppendAssoc(base, done, step.deliveries);
        if failed.Threw? {
          return failed;
        }
        Iteration.AppendAssoc(done, step.deliveries, rest.deliveries);
        done := done + step.deliveries;
        j := j + 1;
      }
      o := Returned;
    }
  
    /**
     * One iteration of the inner loop: the casts of the descriptor, which
     * throw out of the multicall, then routing inside a try that swallows
     * whatever the router throws.
     */
    method HandleDescriptor(call: Value) returns (o: Outcome)
      requires eventHandler
      modifies this`delivered
      ensures delivered == old(delivered) + RouteDescriptor(handlers, rejects, call).deliveries
      ensures o == RouteDescriptor(handlers, rejects, call).outcome
      decreases call, 4
    {
      var d := Decode(call);
      if d.Malformed? {
        return Threw(d.fault);
      }
      if d.paramsAt.Some? {
        var nested := call.entries[d.paramsAt.value].val;
        assert nested < call.entries[d.paramsAt.value];
        var _ := Route(d.name, nested);
      }
      // With null parameters the router throws NullPointerException, which is
      // caught, or drops the call; no handler is reached.
      o := Returned;
    }
  }
}
