# HomeMatic driver core, modelled in Dafny

This project models the decision logic of a Java driver for a HomeMatic CCU
hub. The network, XML and logging layers are left out. It covers five parts:

- **Eventing** (`routing.dfy`, `lifecycle.dfy`, `eventing.dfy`). This is the
  hub's callback channel. The router dispatches inbound XML-RPC calls:
  - `"event"` fans an `(address, attribute, value)` triple out to every
    handler of the channel;
  - `"system.multicall"` unwraps vectors of `{methodName, params}`
    descriptors and routes each one again;
  - every other name is dropped.

  `start` and `stop` bring up the callback server and register it with the
  hub through `init(serverURL, "HomeMaticDriver")`. They take it down again
  through `init(serverURL, "")`.

  The inbound payload is an XML-RPC value datatype (`rpc_value.dfy`) with
  nil, string, int, boolean, array and struct values; double,
  dateTime.iso8601 and base64 values are not modelled.
  Routing is specified by pure functions (`Routing`), and the start/stop
  state machine by pure functions over presence flags (`Lifecycle`). The
  class `Eventing.CCUEventing` holds the component's fields, and its methods
  (the loops of `handleMulticall`, the `forEach` over the handlers) are
  proved equal to those functions.
- **Device aggregate** (`ccu.dfy`). `connect` files the fetched devices
  under dimmers and switches, in place. `getDimmer` and `getSwitch` return
  the first device with a given non-null name.
- **XML API URL builder** (`url_builder.dfy`). It assembles
  `http://host:port/addons/xmlapi/<cgi>` and an optional query
  `?name=value&...` from a hash map of parameters.
- **Switch device** (`switch_device.dfy`). There is one switch per `O_*`
  output channel. Each switch caches an on/off state, which changes of the
  STATE datapoint overwrite, and it notifies a set of listeners.
- **Device types** (`device_type.dfy`). `forName` is a lookup by the type
  name the hub reports, and `parse` applies the type's factory. The
  channel's filter/map over the device list is modelled with them.

`option.dfy` holds the Option datatype that stands for Java's null. `text.dfy`
holds the string helpers (decimal rendering of integers, join and split,
`startsWith`, ASCII case folding). `iteration.dfy` holds the bookkeeping of
an iteration over a set (`Visiting`, `Enumerates`, `Distinct`), shared by the
URL builder's loop over the parameter names and the switch's loop over its
listeners.

The model follows the code where the code is harsher than what one might
expect of it:
- a refused registration leaves the callback server bound and the client
  assigned, so a second `start` reports started without registering again
  (`Lifecycle.StartAfterRefusedRegistration`);
- a refused de-registration throws before any clean-up;
- a handler that throws stops delivery of that event to the handlers after
  it;
- a descriptor that fails its casts aborts the rest of a multicall, while a
  failure inside the routed call is swallowed.

## Model

| member | source | states |
|---|---|---|
| Routing.FanoutFrom | src/main/java/be/techniquez/homeautomation/homematic/impl/event/CCUEventingImpl.java:214 | Handlers receive the event in set order, from the i-th on. The run returns exactly when no remaining handler throws. Otherwise it stops at the first handler that throws, after delivering to it, with that handler's fault. |
| Routing.Dispatch | src/main/java/be/techniquez/homeautomation/homematic/impl/event/CCUEventingImpl.java:146-156 | No ensures of its own. The router lambda: "event" goes to the event handling, "system.multicall" to the multicall handling, and any other or null name returns null. It is pinned down by RouteIgnoresOtherNames, EventNeedsFourParameters, NullParamsAgree and MulticallOfEvents, and by Eventing.CCUEventing.Route, whose loop-free body is proved equal to it. |
| Routing.EventRun | src/main/java/be/techniquez/homeautomation/homematic/impl/event/CCUEventingImpl.java:204-216 | No ensures of its own. handleEvent: null parameters throw NullPointerException; only a 4-element vector is an event; non-string address or attribute throws ClassCastException; otherwise the event goes to the fan-out. Pinned down by EventNeedsFourParameters and by Eventing.CCUEventing.HandleEvent. |
| Routing.MulticallRun | src/main/java/be/techniquez/homeautomation/homematic/impl/event/CCUEventingImpl.java:175-197 | No ensures of its own. handleMulticall: null parameters throw NullPointerException, otherwise the outer loop runs. Pinned down by MulticallOfEvents and by Eventing.CCUEventing.HandleMulticall. |
| Routing.OuterRun | src/main/java/be/techniquez/homeautomation/homematic/impl/event/CCUEventingImpl.java:175-197 | No ensures of its own. The outer loop: each element must be a vector of descriptors (null throws NullPointerException, another value ClassCastException, ending the loop); its descriptors run in order. Pinned down by MulticallOfEvents and by Eventing.CCUEventing.HandleMulticall. |
| Routing.CallsRun | src/main/java/be/techniquez/homeautomation/homematic/impl/event/CCUEventingImpl.java:180-195 | No ensures of its own. The inner loop over one vector of descriptors, in order, ending at the first fault that escapes. Pinned down by CallsRunStopsOnlyAtMalformed, EventCallsDelivered and by Eventing.CCUEventing.HandleCalls. |
| Routing.RouteDescriptor | src/main/java/be/techniquez/homeautomation/homematic/impl/event/CCUEventingImpl.java:181-194 | No ensures of its own. One inner iteration: the casts of Decode escape, the routed call runs inside the try and its faults are swallowed. Pinned down by RouteDescriptorSwallowsFaults, EventCallDecodes and by Eventing.CCUEventing.HandleDescriptor. |
| RpcValue.ValueOf | src/main/java/be/techniquez/homeautomation/homematic/impl/event/CCUEventingImpl.java:208 | No ensures of its own. String.valueOf of the event value: "null" for null, the string itself, Integer.toString, "true"/"false", Vector.toString as "[a, b]" and Hashtable.toString as "{k=v, ...}" in the table's order. Pinned down by Switches.ParseEventBoolean (a Boolean event value parses back) and used by EventNeedsFourParameters. |
| Routing.RouteIgnoresOtherNames | src/main/java/be/techniquez/homeautomation/homematic/impl/event/CCUEventingImpl.java:146-156 | A null method name, or one other than "event" and "system.multicall", delivers nothing and returns normally, whatever the parameters. |
| Routing.EventNeedsFourParameters | src/main/java/be/techniquez/homeautomation/homematic/impl/event/CCUEventingImpl.java:204-216 | An "event" call with other than 4 parameters changes nothing. With 4 it fans out (p[1], p[2], String.valueOf(p[3])), dropping p[0]. A non-string address or attribute throws ClassCastException before any delivery. |
| Routing.NullParamsAgree | src/main/java/be/techniquez/homeautomation/homematic/impl/event/CCUEventingImpl.java:146-156 | What a descriptor with absent or null params does is exactly what the router does with null: NullPointerException for event and multicall, nothing otherwise. |
| Routing.Decode | src/main/java/be/techniquez/homeautomation/homematic/impl/event/CCUEventingImpl.java:178-186 | A descriptor that passes its casts and names a params vector has it at a valid entry of its table, so routing it is well defined. |
| Routing.CallsRunStopsOnlyAtMalformed | src/main/java/be/techniquez/homeautomation/homematic/impl/event/CCUEventingImpl.java:180-195 | The inner multicall loop routes every descriptor, in order, up to the first one whose casts fail. It ends with that descriptor's fault, or returns if there is none. Faults raised while routing never stop it. |
| Routing.RouteDescriptorSwallowsFaults | src/main/java/be/techniquez/homeautomation/homematic/impl/event/CCUEventingImpl.java:188-194 | Once its casts succeed, a descriptor always returns normally, even when a handler throws or the nested parameters are null. |
| Routing.EventCallDecodes | src/main/java/be/techniquez/homeautomation/homematic/impl/event/CCUEventingImpl.java:182-186 | The descriptor {methodName: "event", params: [id, address, attribute, value]} decodes as an "event" call whose params are that 4-vector. |
| Routing.FanoutAccepted | src/main/java/be/techniquez/homeautomation/homematic/impl/event/CCUEventingImpl.java:214 | When no handler throws, every handler receives the event once, in set order, and the fan-out returns. |
| Routing.EventCallsDelivered | src/main/java/be/techniquez/homeautomation/homematic/impl/event/CCUEventingImpl.java:180-195 | Well-formed event descriptors from j on deliver their events in descriptor order, each to every handler, when no handler throws. |
| Routing.MulticallOfEvents | src/main/java/be/techniquez/homeautomation/homematic/impl/event/CCUEventingImpl.java:175-197 | A multicall of k well-formed event descriptors delivers the k events in order, each to every handler, and returns. |
| Lifecycle.Start | src/main/java/be/techniquez/homeautomation/homematic/impl/event/CCUEventingImpl.java:84-102 | Afterwards server, router and client exist and the server URL is the callback URL. Registration is sent only when there was no client. start throws exactly when that registration is refused. started is set exactly when start does not throw, or was already set. The state stays valid. |
| Lifecycle.Stop | src/main/java/be/techniquez/homeautomation/homematic/impl/event/CCUEventingImpl.java:222-261 | De-registration is sent only when there is a client. stop throws exactly when it is refused, and then nothing changes. Otherwise server, client and router are dropped and started is cleared, keeping the server URL. |
| Lifecycle.HubUrl | src/main/java/be/techniquez/homeautomation/homematic/impl/event/CCUEventingImpl.java:70-76 | No ensures of its own. The hub URL "http://host:port/". Used by Eventing.CCUEventing.constructor, whose ensures gives it as the client's URL. |
| Lifecycle.CallbackUrl | src/main/java/be/techniquez/homeautomation/homematic/impl/event/CCUEventingImpl.java:139-142 | No ensures of its own. The callback URL "http://address:20001" that registration sends. The constructor's ensures fixes it as the callback URL, Eventing.CCUEventing.InitServer sets serverURL to it, and Lifecycle.Valid ties every advertised URL to it. |
| Lifecycle.Replay | src/main/java/be/techniquez/homeautomation/homematic/impl/event/CCUEventingImpl.java:84-261 | Any sequence of start and stop calls, each run whether or not the one before threw, under any hub answers, keeps the state valid: server, client and router are set together, a started driver has them, and a set server advertises the callback URL. Its init-call log is what ReplayKeepsOneRegistration and ReplayStartedOnlyOutstanding speak about. |
| Lifecycle.StepKeepsOneRegistration | src/main/java/be/techniquez/homeautomation/homematic/impl/event/CCUEventingImpl.java:84-132 | One start or stop sends at most one init call. It sends a registration only when none is outstanding. Afterwards the server exists exactly while a registration is outstanding. A registration counts as outstanding once sent, whether the hub accepted or refused it, until a de-registration is accepted. |
| Lifecycle.ReplayKeepsOneRegistration | src/main/java/be/techniquez/homeautomation/homematic/impl/event/CCUEventingImpl.java:84-261 | Over any sequence of start and stop calls, with any hub answers, the server exists exactly while a registration is outstanding, and no registration is sent while another is outstanding. Outstanding means sent, accepted or refused, and not followed by an accepted de-registration; a refused de-registration leaves it outstanding. |
| Lifecycle.ReplayStartedOnlyOutstanding | src/main/java/be/techniquez/homeautomation/homematic/impl/event/CCUEventingImpl.java:97 | After any sequence of start and stop calls, started implies that a registration is outstanding, even if it was refused. |
| Lifecycle.StartTwiceRegistersOnce | src/main/java/be/techniquez/homeautomation/homematic/impl/event/CCUEventingImpl.java:89-97 | Two starts in a row send one init call from a state without a client, and none otherwise. |
| Lifecycle.StartAfterRefusedRegistration | src/main/java/be/techniquez/homeautomation/homematic/impl/event/CCUEventingImpl.java:93-131 | After a refused registration, a second start reports started without sending a second init. |
| Lifecycle.StopTwice | src/main/java/be/techniquez/homeautomation/homematic/impl/event/CCUEventingImpl.java:231-256 | Two stops send no init call without a client. With a client they send one de-registration when the first is accepted, and two when it is refused. |
| Eventing.CCUEventing.constructor | src/main/java/be/techniquez/homeautomation/homematic/impl/event/CCUEventingImpl.java:70-78 | The hub URL is "http://host:port/", the handler set is kept, nothing is started and both logs are empty. |
| Eventing.CCUEventing.InitServer | src/main/java/be/techniquez/homeautomation/homematic/impl/event/CCUEventingImpl.java:138-163 | Afterwards the server and router exist and the server URL is the callback URL on port 20001. |
| Eventing.CCUEventing.InitClient | src/main/java/be/techniquez/homeautomation/homematic/impl/event/CCUEventingImpl.java:107-132 | The client exists afterwards even when the hub refuses. Exactly one init(serverURL, "HomeMaticDriver") is logged. A refusal throws. |
| Eventing.CCUEventing.Start | src/main/java/be/techniquez/homeautomation/homematic/impl/event/CCUEventingImpl.java:84-102 | New state, init calls and outcome are those of Lifecycle.Start, the state stays valid, and no handler is called. |
| Eventing.CCUEventing.Stop | src/main/java/be/techniquez/homeautomation/homematic/impl/event/CCUEventingImpl.java:222-261 | New state, init calls and outcome are those of Lifecycle.Stop, the state stays valid, and no handler is called. |
| Eventing.CCUEventing.Route | src/main/java/be/techniquez/homeautomation/homematic/impl/event/CCUEventingImpl.java:146-156 | The handler calls made and the outcome are those of Routing.Dispatch for the name and parameters. |
| Eventing.CCUEventing.HandleEvent | src/main/java/be/techniquez/homeautomation/homematic/impl/event/CCUEventingImpl.java:204-216 | The handler calls made and the outcome are those of Routing.EventRun. |
| Eventing.CCUEventing.Notify | src/main/java/be/techniquez/homeautomation/homematic/impl/event/CCUEventingImpl.java:214 | The forEach loop makes exactly the deliveries of the fan-out, in order, and throws exactly when it does. |
| Eventing.CCUEventing.HandleMulticall | src/main/java/be/techniquez/homeautomation/homematic/impl/event/CCUEventingImpl.java:175-197 | The nested loops make the deliveries of Routing.MulticallRun, in order, and end with its outcome. |
| Eventing.CCUEventing.HandleCalls | src/main/java/be/techniquez/homeautomation/homematic/impl/event/CCUEventingImpl.java:180-195 | The inner loop makes the deliveries of Routing.CallsRun over the vector, in order, and ends with its outcome. |
| Eventing.CCUEventing.HandleDescriptor | src/main/java/be/techniquez/homeautomation/homematic/impl/event/CCUEventingImpl.java:181-194 | One iteration of the inner loop. Its casts throw out of the multicall, and routing's faults are caught. The deliveries and outcome are those of Routing.RouteDescriptor. |
| Aggregate.OfKindMembers | src/main/java/be/techniquez/homeautomation/homematic/impl/CCUImpl.java:60-67 | A device is filed under a kind exactly when it is in the list and of that kind. A device that is both a dimmer and a switch is a dimmer only. |
| Aggregate.KindOf | src/main/java/be/techniquez/homeautomation/homematic/impl/CCUImpl.java:60-67 | No ensures of its own. The instanceof chain, Dimmer tested first, so a device that is both is filed only as a dimmer. Pinned down by OfKindMembers and OfKindPartition. |
| Aggregate.OfKind | src/main/java/be/techniquez/homeautomation/homematic/impl/CCUImpl.java:60-67 | No ensures of its own. The devices of one kind, in list order. Pinned down by OfKindMembers (membership both ways), OfKindAppend and OfKindPartition, and by Aggregate.CCU.Connect. |
| Aggregate.OfKindAppend | src/main/java/be/techniquez/homeautomation/homematic/impl/CCUImpl.java:49-72 | Filing a concatenated list files the first part, then the second. |
| Aggregate.OfKindPartition | src/main/java/be/techniquez/homeautomation/homematic/impl/CCUImpl.java:60-67 | Dimmers, switches and dropped devices together count exactly the fetched list. |
| Aggregate.FirstNamed | src/main/java/be/techniquez/homeautomation/homematic/impl/CCUImpl.java:78-83 | The result is the first device in list order whose name is non-null and equal to the one asked for. It is null exactly when there is none. |
| Aggregate.FirstNamedAppend | src/main/java/be/techniquez/homeautomation/homematic/impl/CCUImpl.java:78-83 | In a concatenation, a match in the first part wins over any in the second. |
| Aggregate.CCU.constructor | src/main/java/be/techniquez/homeautomation/homematic/impl/CCUImpl.java:30-34 | Both lists start empty. |
| Aggregate.CCU.Connect | src/main/java/be/techniquez/homeautomation/homematic/impl/CCUImpl.java:49-72 | When the fetch fails, neither list changes. Otherwise the dimmers, then the other switches, are appended in input order. There is no guard against a second connect. |
| Aggregate.CCU.GetDimmer | src/main/java/be/techniquez/homeautomation/homematic/impl/CCUImpl.java:78-83 | The first dimmer with a non-null name equal to the argument, or null when there is none, including before any connect. |
| Aggregate.CCU.GetSwitch | src/main/java/be/techniquez/homeautomation/homematic/impl/CCUImpl.java:150-155 | The same first-match lookup over the switches. |
| Aggregate.ConnectTwiceLookup | src/main/java/be/techniquez/homeautomation/homematic/impl/CCUImpl.java:49-83 | Connecting twice with one list files every dimmer twice, yet getDimmer finds the same device as after one connect. |
| UrlBuilder.CgiInjective | src/main/java/be/techniquez/homeautomation/homematic/impl/channel/XMLAPIURLBuilder.java:54-56 | Different endpoints name different CGI scripts. |
| UrlBuilder.Cgi | src/main/java/be/techniquez/homeautomation/homematic/impl/channel/XMLAPIURLBuilder.java:54-56 | No ensures of its own. The CGI script name of each endpoint. Pinned down by CgiInjective (distinct endpoints, distinct scripts). |
| UrlBuilder.Url | src/main/java/be/techniquez/homeautomation/homematic/impl/channel/XMLAPIURLBuilder.java:106-123 | No ensures of its own. The prefix, then "?" and the joined pairs when there is a parameter. Pinned down by QueryLayout and QueryStep, and by UrlBuilder.URLBuilder.Build, whose loop is proved to produce it for an order that enumerates the keys. |
| UrlBuilder.Pairs | src/main/java/be/techniquez/homeautomation/homematic/impl/channel/XMLAPIURLBuilder.java:117-121 | One name=value pair per visited key, in visiting order, each with that key's stored value. |
| UrlBuilder.QueryLayout | src/main/java/be/techniquez/homeautomation/homematic/impl/channel/XMLAPIURLBuilder.java:114-123 | With n >= 1 parameters free of '&', the query holds exactly n-1 '&'. Splitting it at '&' gives back the n pairs in order, with no leading or trailing separator. Every stored parameter appears. |
| UrlBuilder.QueryStep | src/main/java/be/techniquez/homeautomation/homematic/impl/channel/XMLAPIURLBuilder.java:117-122 | Appending the next pair, with "&" exactly when more keys follow, extends the query by that pair. |
| Iteration.VisitStep | src/main/java/be/techniquez/homeautomation/homematic/impl/channel/XMLAPIURLBuilder.java:117-118 | Taking the iterator's next key keeps every key visited at most once, and shrinks what remains. |
| Iteration.VisitDone | src/main/java/be/techniquez/homeautomation/homematic/impl/channel/XMLAPIURLBuilder.java:117 | When the iterator is exhausted, every key has been visited exactly once. |
| UrlBuilder.URLBuilder.ForHost | src/main/java/be/techniquez/homeautomation/homematic/impl/channel/XMLAPIURLBuilder.java:79-81 | A builder for the host and port, with no endpoint and no parameters. |
| UrlBuilder.URLBuilder.WithEndpoint | src/main/java/be/techniquez/homeautomation/homematic/impl/channel/XMLAPIURLBuilder.java:90-96 | Sets the endpoint, changes nothing else, and returns the same builder. |
| UrlBuilder.URLBuilder.WithParameter | src/main/java/be/techniquez/homeautomation/homematic/impl/channel/XMLAPIURLBuilder.java:144-148 | A null value throws and stores nothing. Otherwise the value replaces any earlier one for that name, no other entry changes, and the same builder is returned. |
| UrlBuilder.URLBuilder.Build | src/main/java/be/techniquez/homeautomation/homematic/impl/channel/XMLAPIURLBuilder.java:103-125 | Without an endpoint it throws. Otherwise it visits every key exactly once and yields the prefix, then "?" and the pairs joined by "&" in visiting order. With no parameters it yields exactly "http://" + host + ":" + port + "/addons/xmlapi/" + cgi. |
| Switches.OutputChannelsComplete | src/main/java/be/techniquez/homeautomation/homematic/impl/device/SwitchImpl.java:52-58 | Every channel whose name starts with "O_" gets its switch. |
| Switches.OutputChannels | src/main/java/be/techniquez/homeautomation/homematic/impl/device/SwitchImpl.java:52-58 | No ensures of its own. The switch descriptions create makes, one per "O_" channel. Pinned down by OutputChannelsComplete, OutputChannelsSound and OutputChannelsOrdered, and by Switches.Switch.Create. |
| Switches.OutputChannelsSound | src/main/java/be/techniquez/homeautomation/homematic/impl/device/SwitchImpl.java:52-58 | Every switch made belongs to an "O_" channel. It carries that channel's 1-based number, ise id and name, with the device address as serial number. |
| Switches.OutputChannelsOrdered | src/main/java/be/techniquez/homeautomation/homematic/impl/device/SwitchImpl.java:52-58 | The switches come in strictly increasing channel order, so there is one per output channel. |
| Switches.ParseBoolText | src/main/java/be/techniquez/homeautomation/homematic/impl/device/SwitchImpl.java:75-85 | The text setOn sends is parsed back by attributeChanged as the same state. |
| Switches.ParseBoolean | src/main/java/be/techniquez/homeautomation/homematic/impl/device/SwitchImpl.java:85 | No ensures of its own. Boolean.parseBoolean. Pinned down by ParseBooleanTrue (true exactly for "true" in any letter case), ParseBoolText and ParseEventBoolean. |
| Switches.ParseEventBoolean | src/main/java/be/techniquez/homeautomation/homematic/impl/device/SwitchImpl.java:83-85 | An XML-RPC boolean reaching the switch as String.valueOf of the event value sets the state to that boolean. |
| Switches.ParseBooleanTrue | src/main/java/be/techniquez/homeautomation/homematic/impl/device/SwitchImpl.java:85 | Boolean.parseBoolean is true exactly for the four letters t, r, u, e in any letter case. |
| Switches.NotifyAllEach | src/main/java/be/techniquez/homeautomation/homematic/impl/device/SwitchImpl.java:87-88 | One stateChanged call per listener, in the given order, each with the new state, and no other call. |
| Switches.TellStep | src/main/java/be/techniquez/homeautomation/homematic/impl/device/SwitchImpl.java:87-88 | Telling one more listener keeps each listener told at most once. That listener is the failure exactly when its stateChanged throws. |
| Switches.Switch.constructor | src/main/java/be/techniquez/homeautomation/homematic/impl/device/SwitchImpl.java:36-40 | The switch keeps its channel number, ise id, name and serial number. It starts from the given state, with no listeners. |
| Switches.Switch.Create | src/main/java/be/techniquez/homeautomation/homematic/impl/device/SwitchImpl.java:49-61 | One new switch per output channel, in channel order, as OutputChannels describes. Each is a distinct new object that starts from the state read for its ise id, with no listeners. |
| Switches.Switch.AttributeChanged | src/main/java/be/techniquez/homeautomation/homematic/impl/device/SwitchImpl.java:83-90 | For the STATE datapoint, the state becomes parseBoolean(value) and the listeners are told the new state, each at most once. Either every listener is told once and none threw, or the loop stopped at the first listener that threw, after telling it, and that exception propagates with the state already overwritten. Any other attribute changes neither the state nor the notifications and throws nothing. |
| Switches.Switch.NotifyListeners | src/main/java/be/techniquez/homeautomation/homematic/impl/device/SwitchImpl.java:87-88 | The forEach over the listener set tells each listener the state, once, in iteration order. It stops after the first listener that throws and names it. When nothing is named, every listener was told and none threw. |
| Switches.Switch.SetOn | src/main/java/be/techniquez/homeautomation/homematic/impl/device/SwitchImpl.java:75-77 | Sends "true" or "false" and leaves the cached state as it was. |
| Switches.Switch.AddListener | src/main/java/be/techniquez/homeautomation/homematic/impl/device/SwitchImpl.java:96-98 | Set semantics: adding a listener that is already there changes nothing. |
| Switches.Switch.RemoveListener | src/main/java/be/techniquez/homeautomation/homematic/impl/device/SwitchImpl.java:104-106 | Removing a listener that is not there changes nothing. |
| DeviceTypes.FindFrom | src/main/java/be/techniquez/homeautomation/homematic/impl/device/DeviceType.java:38-44 | The linear search finds the first type, in declaration order, whose name matches. It finds nothing exactly when no type matches. |
| DeviceTypes.TypeName | src/main/java/be/techniquez/homeautomation/homematic/impl/device/DeviceType.java:11 | No ensures of its own. The type name of DIMMER. Pinned down by ForNameDimmer and ForNameOther, and by the ForName contract. |
| DeviceTypes.ForName | src/main/java/be/techniquez/homeautomation/homematic/impl/device/DeviceType.java:37-45 | A found type has the asked-for name. The result is null exactly when no type has it. |
| DeviceTypes.Parse | src/main/java/be/techniquez/homeautomation/homematic/impl/device/DeviceType.java:54-60 | The factory's device exactly when the reported type is this type's name, and null otherwise. |
| DeviceTypes.ForNameDimmer | src/main/java/be/techniquez/homeautomation/homematic/impl/device/DeviceType.java:11 | forName("HMW-LC-Dim1L-DR") is DIMMER. |
| DeviceTypes.ForNameOther | src/main/java/be/techniquez/homeautomation/homematic/impl/device/DeviceType.java:38-44 | forName of any other string is null. |
| DeviceTypes.ParseFoundType | src/main/java/be/techniquez/homeautomation/homematic/impl/device/DeviceType.java:54-57 | Parsing with the type forName found never takes the null branch. |
| DeviceTypes.SupportedDevices | src/main/java/be/techniquez/homeautomation/homematic/impl/channel/CCUChannelImpl.java:95-98 | Every description of a known type yields its parsed device, and every device in the list comes from such a description. No more devices than descriptions. |
| DeviceTypes.SupportedDevicesOne | src/main/java/be/techniquez/homeautomation/homematic/impl/channel/CCUChannelImpl.java:95-98 | A single description gives [its parsed device] when forName knows its type, and nothing otherwise. |
| DeviceTypes.SupportedDevicesAppend | src/main/java/be/techniquez/homeautomation/homematic/impl/channel/CCUChannelImpl.java:95-98 | The list for a concatenation is the first part's list followed by the second's. With SupportedDevicesOne this fixes the result: one device per known-type description, in document order. |
| DeviceTypes.SupportedDevicesCount | src/main/java/be/techniquez/homeautomation/homematic/impl/channel/CCUChannelImpl.java:95-98 | There are exactly as many devices as descriptions of a known type. |

## Left out

- The XML-RPC web server and client, sockets, server shutdown and the lookup of the local IP address are I/O. They are presence flags, a ghost log of init calls with the hub's answer as an input, and a `localAddress` parameter.
- `synchronized` and `volatile` are left out: the model is sequential.
- Logging is left out.
- Handlers and switch listeners are foreign code, named by ids. Whether a handler throws is the `rejects` parameter. Whether a listener's stateChanged throws is the `throws` parameter of `Switches.Switch.AttributeChanged`. What a handler or listener does besides returning or throwing is not modelled.
- The handler set is the sequence given at construction, in the set's iteration order. The source keeps the caller's live `Set`, which can change between events; that is not modelled. A Set holds no duplicates, and nothing in the model forbids a repeated id.
- XML-RPC double, dateTime.iso8601 and base64 values have no constructor, so `String.valueOf` of such an event value (a dimmer level of 0.5, say) is not modelled.
- Null strings where the source accepts them are not modelled. A null parameter name (stored by the HashMap and rendered "null=..."), `forName(null)` (which gives null) and a channel with a null name (on which `create` throws NullPointerException) are outside the model: names and type names are strings.
- HTTP fetching and XML unmarshalling of the device list are left out. `Aggregate.CCU.Connect` receives the fetched list, or None for an IOException.
- The channel's `DeviceType.parse(xml, this)` call passes a second argument that `DeviceType.parse(xml)` does not take. The model follows the one-argument parse, and the factory is a function parameter.
- The DIMMER factory and `DimmerImpl` are not part of this model; dimmers are devices with a flag.
- Turning the URL text into a `java.net.URL`, and its `MalformedURLException` path, are left out. Build returns the text.
- The initial state a switch reads from the hub is the `readState` parameter, by ise id.
- The STATE datapoint's name is the `stateName` given to each switch, because DatapointType does not define it.
- Writes to the hub are a ghost log `commands`.
- `parameter`'s call of `value.toString()` is taken as given: the value arrives as a string.
- `endpoint(null)` cannot be expressed, because `WithEndpoint` takes an Endpoint.
- Case folding is ASCII only. That is exact for `parseBoolean`, since no non-ASCII character equals t, r, u or e ignoring case. Unicode case folding in general is not modelled.
- `Text.IntToString` renders an unbounded integer; 32-bit overflow of the port is not modelled.
- UrlBuilder.URLBuilder.Build: the key order is whatever the HashMap iterates. It is returned as a ghost `order` and stated only to be a permutation of the keys.
- Switches.Switch.AttributeChanged: the listener order is the HashSet's, returned as a ghost `order`. It is stated only to visit each listener at most once, and every listener when none throws.
- Aggregate.CCU.GetDimmers and Aggregate.CCU.GetSwitches return the lists themselves. The read-only view of `getDimmers` and the live, mutable list of `getSwitches` (aliasing) are not modelled.
- Eventing.CCUEventing.IsStarted and Switches.Switch.IsOn are plain getters without contracts. What they return is stated by Start, Stop and AttributeChanged.
