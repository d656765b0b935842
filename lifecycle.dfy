/**
 * The start/stop state machine of the eventing component, as functions over
 * the presence of its collaborators: the XML-RPC server (and its router),
 * the XML-RPC client, the `started` flag, and the callback URL the server
 * advertises. The hub's answer to each outbound `init` call is an input; the
 * calls are returned so that a caller can log them.
 */
module Lifecycle {
  import opened Optional
  import opened Text

  /** The port the callback server listens on. */
  const EVENT_PORT: int := 20001

  /** The driver name sent to register; the empty name de-registers. */
  const DRIVER_NAME: string := "HomeMaticDriver"

  /** The URL of the hub's XML-RPC interface: "http://host:port/". */
  function HubUrl(hostname: string, port: int): string {
    "http://" + hostname + ":" + IntToString(port) + "/"
  }

  /** The URL the callback server advertises: "http://address:20001". */
  function CallbackUrl(localAddress: string): string {
    "http://" + localAddress + ":" + IntToString(EVENT_PORT)
  }

  /** Which of eventServer, eventClient, eventHandler are non-null; started; serverURL. */
  datatype State = State(server: bool, client: bool, router: bool, started: bool, serverUrl: Option<string>)

  /** One outbound init(callbackUrl, driver) call and whether the hub accepted it. */
  datatype InitCall = InitCall(callbackUrl: string, driver: string, accepted: bool)

  datatype Fault = RegistrationFailed | DeregistrationFailed

  datatype Result = Done | Failed(fault: Fault)

  /** The state after a transition, the init calls it made, and whether it threw. */
  datatype Step = Step(next: State, calls: seq<InitCall>, result: Result)

  const Initial: State := State(false, false, false, false, None)

  /**
   * The states start and stop can reach: server, router and client come and
   * go together, started implies they are there, and serverURL, once set, is
   * the callback URL.
   */
  predicate Valid(s: State, callbackUrl: string) {
    && s.server == s.client
    && s.router == s.server
    && (s.started ==> s.server)
    && (s.server ==> s.serverUrl.Some?)
    && (s.serverUrl.Some? ==> s.serverUrl.value == callbackUrl)
  }

  /**
   * start: create the server if there is none; if there is no client, create
   * it and register, which throws when the hub refuses (the client stays);
   * then set started.
   */
  function Start(s: State, callbackUrl: string, hubAccepts: bool): (t: Step)
    requires Valid(s, callbackUrl)
    ensures Valid(t.next, callbackUrl)
    ensures t.next.server && t.next.client && t.next.serverUrl == Some(callbackUrl)
    ensures t.calls == if s.client then [] else [InitCall(callbackUrl, DRIVER_NAME, hubAccepts)]
    ensures t.result.Done? <==> s.client || hubAccepts
    ensures t.next.started <==> t.result.Done? || s.started
  {
    var s1 := if s.server then s else s.(server := true, router := true, serverUrl := Some(callbackUrl));
    if s1.client then Step(s1.(started := true), [], Done)
    else
      var s2 := s1.(client := true);
      var call := InitCall(s2.serverUrl.value, DRIVER_NAME, hubAccepts);
      if hubAccepts then Step(s2.(started := true), [call], Done)
      else Step(s2, [call], Failed(RegistrationFailed))
  }

  /**
   * stop: if there is a client, de-register, which throws before any cleanup
   * when the hub refuses; otherwise shut the server down and drop server,
   * client and router, and clear started. serverURL is kept.
   */
  function Stop(s: State, callbackUrl: string, hubAccepts: bool): (t: Step)
    requires Valid(s, callbackUrl)
    ensures Valid(t.next, callbackUrl)
    ensures t.calls == if s.client then [InitCall(callbackUrl, "", hubAccepts)] else []
    ensures t.result.Failed? <==> s.client && !hubAccepts
    ensures t.result.Failed? ==> t.next == s
    ensures t.result.Done? ==> t.next == State(false, false, false, false, s.serverUrl)
  {
    var calls := if s.client then [InitCall(s.serverUrl.value, "", hubAccepts)] else [];
    if s.client && !hubAccepts then Step(s, calls, Failed(DeregistrationFailed))
    else Step(State(false, false, false, false, s.serverUrl), calls, Done)
  }

  // ---------------------------------------------------------------------------
  // Sequences of start and stop

  /** A call of start or stop, with the hub's answer to the init call it may make. */
  datatype Command = StartCmd(hubAccepts: bool) | StopCmd(hubAccepts: bool)

  function Apply(s: State, callbackUrl: string, c: Command): Step
    requires Valid(s, callbackUrl)
  {
    match c
    case StartCmd(a) => Start(s, callbackUrl, a)
    case StopCmd(a) => Stop(s, callbackUrl, a)
  }

  /** The state after the commands, each run whether or not the one before threw, and the init calls made. */
  function Replay(s: State, callbackUrl: string, cmds: seq<Command>): (r: (State, seq<InitCall>))
    requires Valid(s, callbackUrl)
    ensures Valid(r.0, callbackUrl)
    decreases |cmds|
  {
    if cmds == [] then (s, [])
    else
      var t := Apply(s, callbackUrl, cmds[0]);
      var rest := Replay(t.next, callbackUrl, cmds[1..]);
      (rest.0, t.calls + rest.1)
  }

  predicate IsRegistration(c: InitCall) {
    c.driver == DRIVER_NAME
  }

  /**
   * Whether the log leaves a registration outstanding: its last call is not
   * an accepted de-registration. A registration counts from the moment it is
   * sent, whether the hub accepted or refused it, and a refused
   * de-registration leaves it outstanding, as both leave the server bound.
   */
  predicate Outstanding(log: seq<InitCall>) {
    |log| > 0 && !(log[|log| - 1].driver == "" && log[|log| - 1].accepted)
  }

  /** Every registration in the log was sent while no earlier one was outstanding. */
  predicate OneAtATime(log: seq<InitCall>) {
    forall i | 0 <= i < |log| && IsRegistration(log[i]) :: !Outstanding(log[..i])
  }

  /** One start or stop sends at most one init call, a registration only when none is outstanding. */
  lemma StepKeepsOneRegistration(s: State, callbackUrl: string, log: seq<InitCall>, c: Command)
    requires Valid(s, callbackUrl) && s.server == Outstanding(log) && OneAtATime(log)
    ensures var t := Apply(s, callbackUrl, c);
      && |t.calls| <= 1
      && t.next.server == Outstanding(log + t.calls)
      && OneAtATime(log + t.calls)
  {
    var t := Apply(s, callbackUrl, c);
    var log' := log + t.calls;
    if t.calls != [] {
      assert log'[|log'| - 1] == t.calls[0];
      assert log'[..|log|] == log;
      forall i | 0 <= i < |log|
        ensures log'[..i] == log[..i]
      {
      }
    } else {
      assert log' == log;
    }
  }

  /**
   * Over any sequence of start and stop calls, the server is bound exactly
   * while a registration is outstanding (sent, whether accepted or refused,
   * and not followed by an accepted de-registration), and a registration is
   * sent only when none is: at most one registration is active at a time.
   */
  lemma {:induction false} ReplayKeepsOneRegistration(s: State, callbackUrl: string, log: seq<InitCall>, cmds: seq<Command>)
    requires Valid(s, callbackUrl) && s.server == Outstanding(log) && OneAtATime(log)
    ensures Replay(s, callbackUrl, cmds).0.server == Outstanding(log + Replay(s, callbackUrl, cmds).1)
    ensures OneAtATime(log + Replay(s, callbackUrl, cmds).1)
    decreases |cmds|
  {
    if cmds == [] {
      assert log + [] == log;
    } else {
      var t := Apply(s, callbackUrl, cmds[0]);
      StepKeepsOneRegistration(s, callbackUrl, log, cmds[0]);
      ReplayKeepsOneRegistration(t.next, callbackUrl, log + t.calls, cmds[1..]);
      var rest := Replay(t.next, callbackUrl, cmds[1..]).1;
      assert log + (t.calls + rest) == (log + t.calls) + rest;
    }
  }

  /** The started flag is only ever set while a registration is outstanding, possibly a refused one. */
  lemma ReplayStartedOnlyOutstanding(s: State, callbackUrl: string, log: seq<InitCall>, cmds: seq<Command>)
    requires Valid(s, callbackUrl) && s.server == Outstanding(log) && OneAtATime(log)
    ensures Replay(s, callbackUrl, cmds).0.started ==> Outstanding(log + Replay(s, callbackUrl, cmds).1)
  {
    ReplayKeepsOneRegistration(s, callbackUrl, log, cmds);
  }

  /** Starting twice in a row makes at most one init call, and exactly one from a state without a client. */
  lemma StartTwiceRegistersOnce(s: State, callbackUrl: string, a: bool, b: bool)
    requires Valid(s, callbackUrl)
    ensures |Replay(s, callbackUrl, [StartCmd(a), StartCmd(b)]).1| == if s.client then 0 else 1
  {
    var t := Start(s, callbackUrl, a);
    assert [StartCmd(a), StartCmd(b)][1..] == [StartCmd(b)];
    assert Replay(t.next, callbackUrl, [StartCmd(b)]).1 == [];
  }

  /**
   * After a refused registration, a second start sets started without
   * registering again, because the client was kept: the component then
   * reports started although the hub never accepted its registration.
   */
  lemma StartAfterRefusedRegistration(callbackUrl: string, b: bool)
    ensures var (s', calls) := Replay(Initial, callbackUrl, [StartCmd(false), StartCmd(b)]);
      && s'.started
      && calls == [InitCall(callbackUrl, DRIVER_NAME, false)]
  {
    var t := Start(Initial, callbackUrl, false);
    assert [StartCmd(false), StartCmd(b)][1..] == [StartCmd(b)];
    assert Replay(t.next, callbackUrl, [StartCmd(b)]).1 == [];
  }

  /**
   * Stopping twice de-registers once when the first de-registration is
   * accepted, and twice when it is refused (the client is kept).
   */
  lemma StopTwice(s: State, callbackUrl: string, a: bool, b: bool)
    requires Valid(s, callbackUrl)
    ensures |Replay(s, callbackUrl, [StopCmd(a), StopCmd(b)]).1| == if !s.client then 0 else if a then 1 else 2
  {
    var t := Stop(s, callbackUrl, a);
    assert [StopCmd(a), StopCmd(b)][1..] == [StopCmd(b)];
    assert |Replay(t.next, callbackUrl, [StopCmd(b)]).1| == if t.next.client then 1 else 0;
  }
}
