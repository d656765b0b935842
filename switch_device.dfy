/**
 * The switch device (SwitchImpl): one switch per output channel of a device,
 * a cached on/off state that STATE attribute changes overwrite, and a set of
 * listeners told of every such change.
 *
 * Listeners are foreign objects, named here by ListenerId; each call of
 * stateChanged goes to the ghost log `notifications`. Writing a value to the
 * hub is I/O: each value setOn sends goes to the ghost log `commands`. The
 * state read from the hub when a switch is created is the `readState`
 * parameter, by ise id.
 */
module Switches {
  import opened Optional
  import opened Text
  import opened Iteration
  import opened RpcValue
  import opened DeviceTypes

  /** The channel name prefix of a switch output. */
  const OUTPUT_PREFIX: string := "O_"

  type ListenerId = nat

  /** One call of listener.stateChanged(on). */
  datatype Notification = Notification(listener: ListenerId, on: bool)

  /** What a switch is created with: channel number, ise id, name and serial number. */
  datatype SwitchInfo = SwitchInfo(channelNumber: int, iseId: int, name: string, serialNumber: string)

  /** The switch create makes for channel k of a device: 1-based number, the channel's id and name, the device address. */
  function InfoAt(xml: XmlDevice, k: nat): SwitchInfo
    requires k < |xml.channels|
  {
    SwitchInfo(k + 1, xml.channels[k].iseId, xml.channels[k].name, xml.address)
  }

  predicate IsOutput(c: XmlChannel) {
    StartsWith(c.name, OUTPUT_PREFIX)
  }

  /** The switches create makes from channel i on. */
  function OutputChannels(xml: XmlDevice, i: nat): seq<SwitchInfo>
    requires i <= |xml.channels|
    decreases |xml.channels| - i
  {
    if i == |xml.channels| then []
    else if IsOutput(xml.channels[i]) then [InfoAt(xml, i)] + OutputChannels(xml, i + 1)
    else OutputChannels(xml, i + 1)
  }

  /** Each of r is the switch for an output channel from i on. */
  predicate OutputsFrom(xml: XmlDevice, i: nat, r: seq<SwitchInfo>) {
    forall n | 0 <= n < |r| ::
      && i < r[n].channelNumber <= |xml.channels|
      && IsOutput(xml.channels[r[n].channelNumber - 1])
      && r[n] == InfoAt(xml, r[n].channelNumber - 1)
  }

  predicate Increasing(r: seq<SwitchInfo>) {
    forall m, n | 0 <= m < n < |r| :: r[m].channelNumber < r[n].channelNumber
  }

  /** Every output channel from i on has its switch among those create makes. */
  lemma {:induction false} OutputChannelsComplete(xml: XmlDevice, i: nat, k: nat)
    requires i <= k < |xml.channels| && IsOutput(xml.channels[k])
    ensures InfoAt(xml, k) in OutputChannels(xml, i)
    decreases k - i
  {
    if i < k {
      OutputChannelsComplete(xml, i + 1, k);
    }
  }

  /** Every switch create makes from channel i on is the one for an output channel from i on. */
  lemma {:induction false} OutputChannelsSound(xml: XmlDevice, i: nat)
    requires i <= |xml.channels|
    ensures OutputsFrom(xml, i, OutputChannels(xml, i))
    decreases |xml.channels| - i
  {
    if i < |xml.channels| {
      OutputChannelsSound(xml, i + 1);
      var rest := OutputChannels(xml, i + 1);
      if IsOutput(xml.channels[i]) {
        var r := [InfoAt(xml, i)] + rest;
        assert OutputChannels(xml, i) == r;
        forall n | 0 <= n < |r|
          ensures i < r[n].channelNumber <= |xml.channels|
          ensures IsOutput(xml.channels[r[n].channelNumber - 1])
          ensures r[n] == InfoAt(xml, r[n].channelNumber - 1)
        {
          if n == 0 {
            assert r[n] == InfoAt(xml, i);
          } else {
            assert r[n] == rest[n - 1];
          }
        }
      }
    }
  }

  /** The switches come in channel order, so each output channel has exactly one. */
  lemma {:induction false} OutputChannelsOrdered(xml: XmlDevice, i: nat)
    requires i <= |xml.channels|
    ensures Increasing(OutputChannels(xml, i))
    decreases |xml.channels| - i
  {
    if i < |xml.channels| {
      OutputChannelsOrdered(xml, i + 1);
      OutputChannelsSound(xml, i + 1);
      var rest := OutputChannels(xml, i + 1);
      if IsOutput(xml.channels[i]) {
        var r := [InfoAt(xml, i)] + rest;
        assert OutputChannels(xml, i) == r;
        forall m, n | 0 <= m < n < |r|
          ensures r[m].channelNumber < r[n].channelNumber
        {
          assert r[n] == rest[n - 1];
          if m > 0 {
            assert r[m] == rest[m - 1];
          }
        }
      }
    }
  }

  /** Boolean.parseBoolean: true exactly for "true" in any letter case. */
  function ParseBoolean(s: string): bool {
    EqualsIgnoreCase(s, "true")
  }

  /** String.valueOf(boolean). */
  function BoolText(b: bool): string {
    if b then "true" else "false"
  }

  /** What setOn sends is read back as the same state. */
  lemma ParseBoolText(b: bool)
    ensures ParseBoolean(BoolText(b)) == b
  {
    if !b {
      assert ToLowerAscii(BoolText(b)[0]) != ToLowerAscii("true"[0]);
    }
  }

  /** A parameter value that is a boolean in the event reaches the switch as that boolean. */
  lemma ParseEventBoolean(b: bool)
    ensures ParseBoolean(ValueOf(Bool(b))) == b
  {
    ParseBoolText(b);
  }

  /** The values parseBoolean reads as true: exactly the four-letter word "true", case ignored. */
  lemma ParseBooleanTrue(s: string)
    ensures ParseBoolean(s) <==>
      && |s| == 4
      && ToLowerAscii(s[0]) == 't' && ToLowerAscii(s[1]) == 'r'
      && ToLowerAscii(s[2]) == 'u' && ToLowerAscii(s[3]) == 'e'
  {
    if |s| == 4 && ToLowerAscii(s[0]) == 't' && ToLowerAscii(s[1]) == 'r'
      && ToLowerAscii(s[2]) == 'u' && ToLowerAscii(s[3]) == 'e' {
      forall i | 0 <= i < 4
        ensures ToLowerAscii(s[i]) == ToLowerAscii("true"[i])
      {
      }
    }
  }

  /** The notifications of the listeners in the given order, each with on. */
  function NotifyAll(order: seq<ListenerId>, on: bool): seq<Notification> {
    if order == [] then [] else NotifyAll(order[..|order| - 1], on) + [Notification(order[|order| - 1], on)]
  }

  /** Each listener in the order is told on once, at its own position, and nobody else is told. */
  lemma {:induction false} NotifyAllEach(order: seq<ListenerId>, on: bool)
    ensures |NotifyAll(order, on)| == |order|
    ensures forall n | 0 <= n < |order| :: NotifyAll(order, on)[n] == Notification(order[n], on)
  {
    if order != [] {
      NotifyAllEach(order[..|order| - 1], on);
    }
  }

  /** What the switches were created with, in order. */
  function Infos(devices: seq<Switch>): seq<SwitchInfo> {
    if devices == [] then [] else Infos(devices[..|devices| - 1]) + [devices[|devices| - 1].Info()]
  }

  /**
   * Part way through telling the listeners `all` the state `on`: order holds
   * those told, each once, remaining those not yet visited; none but the last
   * told has thrown, and failed names the last one exactly when it threw.
   */
  predicate Telling(
    all: set<ListenerId>, order: seq<ListenerId>, remaining: set<ListenerId>,
    on: bool, throws: (ListenerId, bool) -> bool, failed: Option<ListenerId>)
  {
    && Visiting(all, order, remaining)
    && (forall n | 0 <= n < |order| - 1 :: !throws(order[n], on))
    && (failed.None? ==> forall n | 0 <= n < |order| :: !throws(order[n], on))
    && (failed.Some? ==> |order| >= 1 && failed.value == order[|order| - 1] && throws(failed.value, on))
  }

  /** Telling one more listener keeps the bookkeeping; it is the failure exactly when it throws. */
  lemma TellStep(
    all: set<ListenerId>, order: seq<ListenerId>, remaining: set<ListenerId>,
    on: bool, throws: (ListenerId, bool) -> bool, l: ListenerId)
    requires Telling(all, order, remaining, on, throws, None) && l in remaining
    ensures Telling(all, order + [l], remaining - {l}, on, throws, if throws(l, on) then Some(l) else None)
    ensures |remaining - {l}| < |remaining|
  {
    VisitStep(all, order, remaining, l);
    var next := order + [l];
    assert forall n | 0 <= n < |order| :: next[n] == order[n];
  }

  class Switch {
    const channelNumber: int
    const iseId: int
    const name: string
    const serialNumber: string
    /** The name of the STATE datapoint, whose changes carry the on/off state. */
    const stateName: string

    var state: bool
    var listeners: set<ListenerId>

    ghost var notifications: seq<Notification>
    ghost var commands: seq<string>

    function Info(): SwitchInfo {
      SwitchInfo(channelNumber, iseId, name, serialNumber)
    }

    function IsOn(): bool
      reads this
    {
      state
    }

    constructor (info: SwitchInfo, stateName: string, initial: bool)
      ensures Info() == info && this.stateName == stateName
      ensures IsOn() == initial && listeners == {}
      ensures notifications == [] && commands == []
    {
      channelNumber := info.channelNumber;
      iseId := info.iseId;
      name := info.name;
      serialNumber := info.serialNumber;
      this.stateName := stateName;
      state := initial;
      listeners := {};
      notifications, commands := [], [];
    }

    /** A switch as create leaves it: the given STATE name, the state read for its ise id, no listeners, empty logs. */
    ghost predicate Initial(stateName: string, readState: int -> bool)
      reads this
    {
      && this.stateName == stateName
      && IsOn() == readState(iseId)
      && listeners == {}
      && notifications == [] && commands == []
    }

    /**
     * create: one new switch per output channel of the device, in channel
     * order, each starting from the state read for its ise id and with no
     * listeners.
     */
    static method Create(xml: XmlDevice, stateName: string, readState: int -> bool) returns (devices: seq<Switch>)
      ensures Infos(devices) == OutputChannels(xml, 0)
      ensures forall d | d in devices :: fresh(d) && d.Initial(stateName, readState)
      ensures Distinct(devices)
    {
      devices := [];
      var i := 0;
      while i < |xml.channels|
        invariant 0 <= i <= |xml.channels|
        invariant Infos(devices) + OutputChannels(xml, i) == OutputChannels(xml, 0)
        invariant forall d | d in devices :: fresh(d) && d.Initial(stateName, readState)
        invariant Distinct(devices)
      {
        if IsOutput(xml.channels[i]) {
          var s := new Switch(InfoAt(xml, i), stateName, readState(xml.channels[i].iseId));
          ghost var before := devices;
          devices := devices + [s];
          assert forall d | d in devices :: d in before || d == s;
          assert devices[..|devices| - 1] == before;
          AppendAssoc(Infos(before), [s.Info()], OutputChannels(xml, i + 1));
        }
        i := i + 1;
      }
      assert OutputChannels(xml, i) == [];
    }

    /**
     * attributeChanged: a change of the STATE datapoint overwrites the state
     * with its parsed value, then tells the listeners the new state, once
     * each and in the set's iteration order `order`. A listener whose
     * stateChanged throws (`throws` says which) ends the forEach: it has
     * been told, later listeners are not, the exception propagates (Some of
     * that listener) and the state stays overwritten. Any other attribute
     * changes nothing.
     */
    method AttributeChanged(attribute: string, value: string, throws: (ListenerId, bool) -> bool)
      returns (failed: Option<ListenerId>, ghost order: seq<ListenerId>)
      modifies this`state, this`notifications
      ensures attribute == stateName ==>
        && IsOn() == ParseBoolean(value)
        && Distinct(order)
        && (forall l | l in order :: l in listeners)
        && notifications == old(notifications) + NotifyAll(order, IsOn())
        && (forall n | 0 <= n < |order| - 1 :: !throws(order[n], IsOn()))
      ensures attribute == stateName && failed.None? ==>
        && Enumerates(order, listeners)
        && (forall n | 0 <= n < |order| :: !throws(order[n], IsOn()))
      ensures failed.Some? ==>
        && attribute == stateName
        && |order| >= 1 && failed.value == order[|order| - 1]
        && throws(failed.value, IsOn())
      ensures attribute != stateName ==>
        failed.None? && IsOn() == old(IsOn()) && notifications == old(notifications)
    {
      order := [];
      failed := None;
      if attribute == stateName {
        state := ParseBoolean(value);
        failed, order := NotifyListeners(throws);
      }
    }

    /**
     * The forEach over the listeners: each, in the set's iteration order
     * `order`, is told the current state; the first one that throws ends the
     * loop (Some of it), after it has been told.
     */
    method NotifyListeners(throws: (ListenerId, bool) -> bool) returns (failed: Option<ListenerId>, ghost order: seq<ListenerId>)
      modifies this`notifications
      ensures Distinct(order) && (forall l | l in order :: l in listeners)
      ensures notifications == old(notifications) + NotifyAll(order, state)
      ensures forall n | 0 <= n < |order| - 1 :: !throws(order[n], state)
      ensures failed.None? ==> Enumerates(order, listeners) && forall n | 0 <= n < |order| :: !throws(order[n], state)
      ensures failed.Some? ==> |order| >= 1 && failed.value == order[|order| - 1] && throws(failed.value, state)
    {
      order, failed := [], None;
      var on, all := state, listeners;
      ghost var told: seq<Notification> := [];
      var remaining := all;
      while remaining != {} && failed.None?
        invariant Telling(all, order, remaining, on, throws, failed)
        invariant told == NotifyAll(order, on)
        invariant notifications == old(notifications) + told
        decreases |remaining|
      {
        var l :| l in remaining;
        TellStep(all, order, remaining, on, throws, l);
        ghost var before := order;
        order := order + [l];
        assert order[..|order| - 1] == before;
        AppendAssoc(old(notifications), told, [Notification(l, on)]);
        told := told + [Notification(l, on)];
        notifications := notifications + [Notification(l, on)];
        remaining := remaining - {l};
        if throws(l, on) {
          failed := Some(l);
        }
      }
      if failed.None? {
        VisitDone(all, order);
      }
    }

    /** setOn: sends "true" or "false" to the STATE datapoint; the cached state waits for the hub's event. */
    method SetOn(on: bool)
      modifies this`commands
      ensures commands == old(commands) + [BoolText(on)]
      ensures IsOn() == old(IsOn())
    {
      commands := commands + [BoolText(on)];
    }

    /** addListener: set semantics; adding a listener already there changes nothing. */
    method AddListener(l: ListenerId)
      modifies this`listeners
      ensures listeners == old(listeners) + {l}
      ensures l in old(listeners) ==> listeners == old(listeners)
    {
      listeners := listeners + {l};
    }

    /** removeListener: removing a listener that is not there changes nothing. */
    method RemoveListener(l: ListenerId)
      modifies this`listeners
      ensures listeners == old(listeners) - {l}
      ensures l !in old(listeners) ==> listeners == old(listeners)
    {
      listeners := listeners - {l};
    }
  }
}
