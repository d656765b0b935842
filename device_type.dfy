/**
 * The supported device types (DeviceType), the lookup of a type by the name
 * the hub reports for a device, and the parse step that turns a device
 * description from the hub's device list into a driver device.
 *
 * A device description is the part of the XML device list the driver reads:
 * the reported type name, the device address and the channels in document
 * order. The factory a type applies is a function parameter.
 */
module DeviceTypes {
  import opened Optional

  datatype XmlChannel = XmlChannel(name: string, iseId: int)

  datatype XmlDevice = XmlDevice(deviceType: string, address: string, channels: seq<XmlChannel>)

  datatype DeviceType = DIMMER

  /** The type name the hub reports for devices of this type. */
  function TypeName(t: DeviceType): string {
    match t
    case DIMMER => "HMW-LC-Dim1L-DR"
  }

  /** DeviceType.values(), in declaration order. */
  const Values: seq<DeviceType> := [DIMMER]

  /** The position of the first of types, from i on, whose name is typeName. */
  function FindFrom(types: seq<DeviceType>, typeName: string, i: nat): (r: Option<nat>)
    requires i <= |types|
    ensures r.Some? ==> i <= r.value < |types| && TypeName(types[r.value]) == typeName
    ensures r.Some? ==> forall j | i <= j < r.value :: TypeName(types[j]) != typeName
    ensures r.None? <==> forall j | i <= j < |types| :: TypeName(types[j]) != typeName
    decreases |types| - i
  {
    if i == |types| then None
    else if TypeName(types[i]) == typeName then Some(i)
    else FindFrom(types, typeName, i + 1)
  }

  /**
   * forName: the first type, in declaration order, whose name is typeName
   * (FindFrom states the order); None (null) when there is none.
   */
  function ForName(typeName: string): (r: Option<DeviceType>)
    ensures r.Some? ==> r.value in Values && TypeName(r.value) == typeName
    ensures r.None? <==> forall t | t in Values :: TypeName(t) != typeName
  {
    match FindFrom(Values, typeName, 0)
    case None => None
    case Some(i) => Some(Values[i])
  }

  /** parse: the factory's device when the reported type is this type's name, None (null) otherwise. */
  function Parse<D>(t: DeviceType, xml: XmlDevice, factory: XmlDevice -> D): (r: Option<D>)
    ensures r.Some? <==> xml.deviceType == TypeName(t)
    ensures r.Some? ==> r.value == factory(xml)
  {
    if xml.deviceType == TypeName(t) then Some(factory(xml)) else None
  }

  /** The dimmer's name is found, and it is the dimmer. */
  lemma ForNameDimmer()
    ensures ForName("HMW-LC-Dim1L-DR") == Some(DIMMER)
  {
    assert FindFrom(Values, "HMW-LC-Dim1L-DR", 0) == Some(0);
  }

  /** Every other name gives null. */
  lemma ForNameOther(typeName: string)
    requires typeName != "HMW-LC-Dim1L-DR"
    ensures ForName(typeName) == None
  {
    assert Values[0] == DIMMER;
  }

  /** For a device whose reported type is known, parsing with the found type never gives null. */
  lemma ParseFoundType<D>(xml: XmlDevice, factory: XmlDevice -> D)
    requires ForName(xml.deviceType).Some?
    ensures Parse(ForName(xml.deviceType).value, xml, factory) == Some(factory(xml))
  {
  }

  /**
   * The device list as the channel builds it: the descriptions of a known
   * type, each parsed by its type, in document order.
   */
  function SupportedDevices<D>(xmls: seq<XmlDevice>, factory: XmlDevice -> D): (r: seq<D>)
    ensures |r| <= |xmls|
    ensures forall x | x in xmls && ForName(x.deviceType).Some? :: factory(x) in r
    ensures forall d | d in r :: exists x | x in xmls :: ForName(x.deviceType).Some? && d == factory(x)
  {
    if xmls == [] then []
    else
      var rest := SupportedDevices(xmls[1..], factory);
      match ForName(xmls[0].deviceType)
      case None => rest
      case Some(t) => [Parse(t, xmls[0], factory).value] + rest
  }

  /** One description gives its parsed device when its type is known, and nothing otherwise. */
  lemma SupportedDevicesOne<D>(x: XmlDevice, factory: XmlDevice -> D)
    ensures SupportedDevices([x], factory) == if ForName(x.deviceType).Some? then [factory(x)] else []
  {
    assert [x][1..] == [];
  }

  /**
   * The list of a concatenation is the list of the first part followed by
   * that of the second: with SupportedDevicesOne, the result is exactly one
   * device per description of a known type, in document order.
   */
  lemma {:induction false} SupportedDevicesAppend<D>(a: seq<XmlDevice>, b: seq<XmlDevice>, factory: XmlDevice -> D)
    ensures SupportedDevices(a + b, factory) == SupportedDevices(a, factory) + SupportedDevices(b, factory)
  {
    if a == [] {
      assert a + b == b;
    } else {
      assert (a + b)[0] == a[0];
      assert (a + b)[1..] == a[1..] + b;
      SupportedDevicesAppend(a[1..], b, factory);
    }
  }

  /** The number of devices is the number of descriptions whose type is known. */
  function KnownCount(xmls: seq<XmlDevice>): nat {
    if xmls == [] then 0 else (if ForName(xmls[0].deviceType).Some? then 1 else 0) + KnownCount(xmls[1..])
  }

  lemma {:induction false} SupportedDevicesCount<D>(xmls: seq<XmlDevice>, factory: XmlDevice -> D)
    ensures |SupportedDevices(xmls, factory)| == KnownCount(xmls)
  {
    if xmls != [] {
      SupportedDevicesCount(xmls[1..], factory);
    }
  }
}
