/**
 * The device aggregate of the driver (CCUImpl): connect fetches the device
 * list from the hub and files each device under dimmers or switches; the
 * getters look devices up by name.
 *
 * A device is modelled by what the aggregate asks of it: its identity, its
 * name (which may be null) and which of the Dimmer and Switch interfaces it
 * implements. Fetching the list is I/O: connect receives its outcome, None
 * standing for the IOException the channel throws.
 */
module Aggregate {
  import opened Optional
  import opened Text
  import opened Iteration

  datatype Device = Device(id: nat, name: Option<string>, isDimmer: bool, isSwitch: bool)

  datatype Kind = DimmerKind | SwitchKind | OtherKind

  /** connect's instanceof chain: the Dimmer test comes first, so a device that is both is a dimmer. */
  function KindOf(d: Device): Kind {
    if d.isDimmer then DimmerKind else if d.isSwitch then SwitchKind else OtherKind
  }

  /** The devices of kind k, in list order. */
  function OfKind(ds: seq<Device>, k: Kind): seq<Device> {
    if ds == [] then []
    else OfKind(ds[..|ds| - 1], k) + (if KindOf(ds[|ds| - 1]) == k then [ds[|ds| - 1]] else [])
  }

  /** A device is filed under k exactly when it is in the list and of kind k. */
  lemma {:induction false} OfKindMembers(ds: seq<Device>, k: Kind)
    ensures forall d :: d in OfKind(ds, k) <==> d in ds && KindOf(d) == k
  {
    if ds != [] {
      var init := ds[..|ds| - 1];
      OfKindMembers(init, k);
      assert ds == init + [ds[|ds| - 1]];
    }
  }

  /** Filing a concatenation files each part in turn: a second connect appends after the first. */
  lemma {:induction false} OfKindAppend(a: seq<Device>, b: seq<Device>, k: Kind)
    ensures OfKind(a + b, k) == OfKind(a, k) + OfKind(b, k)
  {
    if b == [] {
      assert a + b == a;
    } else {
      var last := b[|b| - 1];
      var extra := if KindOf(last) == k then [last] else [];
      assert (a + b)[..|a + b| - 1] == a + b[..|b| - 1];
      OfKindAppend(a, b[..|b| - 1], k);
      AppendAssoc(OfKind(a, k), OfKind(b[..|b| - 1], k), extra);
    }
  }

  /** Every device falls under exactly one kind: dimmers, switches and dropped devices add up to the list. */
  lemma {:induction false} OfKindPartition(ds: seq<Device>)
    ensures |OfKind(ds, DimmerKind)| + |OfKind(ds, SwitchKind)| + |OfKind(ds, OtherKind)| == |ds|
  {
    if ds != [] {
      OfKindPartition(ds[..|ds| - 1]);
    }
  }

  /** getName() != null && getName().equals(name): a null name matches nothing. */
  predicate Matches(d: Device, name: Option<string>) {
    d.name.Some? && d.name == name
  }

  /** filter(Matches).findFirst(): the first matching device in list order, None when there is none. */
  function FirstNamed(ds: seq<Device>, name: Option<string>): (r: Option<Device>)
    ensures r.Some? ==>
      exists i | 0 <= i < |ds| ::
        && ds[i] == r.value && Matches(ds[i], name)
        && forall j | 0 <= j < i :: !Matches(ds[j], name)
    ensures r.None? <==> forall i | 0 <= i < |ds| :: !Matches(ds[i], name)
  {
    if ds == [] then None
    else if Matches(ds[0], name) then Some(ds[0])
    else FirstNamed(ds[1..], name)
  }

  /** A lookup in a concatenation finds a match in the first part before any in the second. */
  lemma {:induction false} FirstNamedAppend(a: seq<Device>, b: seq<Device>, name: Option<string>)
    ensures FirstNamed(a + b, name) == if FirstNamed(a, name).Some? then FirstNamed(a, name) else FirstNamed(b, name)
  {
    if a == [] {
      assert a + b == b;
    } else {
      assert (a + b)[0] == a[0];
      assert (a + b)[1..] == a[1..] + b;
      FirstNamedAppend(a[1..], b, name);
    }
  }

  class CCU {
    var dimmers: seq<Device>
    var switches: seq<Device>

    constructor ()
      ensures dimmers == [] && switches == []
    {
      dimmers, switches := [], [];
    }

    /**
     * connect: once the device list is fetched, append each dimmer to
     * dimmers and each other switch to switches, in list order, dropping the
     * rest. When the fetch fails nothing changes. There is no guard against
     * connecting twice.
     */
    method Connect(fetched: Option<seq<Device>>) returns (ok: bool)
      modifies this
      ensures ok <==> fetched.Some?
      ensures fetched.None? ==> dimmers == old(dimmers) && switches == old(switches)
      ensures fetched.Some? ==>
        && dimmers == old(dimmers) + OfKind(fetched.value, DimmerKind)
        && switches == old(switches) + OfKind(fetched.value, SwitchKind)
    {
      if fetched.None? {
        return false;
      }
      var devices := fetched.value;
      var i := 0;
      while i < |devices|
        invariant 0 <= i <= |devices|
        invariant dimmers == old(dimmers) + OfKind(devices[..i], DimmerKind)
        invariant switches == old(switches) + OfKind(devices[..i], SwitchKind)
      {
        var d := devices[i];
        assert devices[..i + 1][..i] == devices[..i];
        if d.isDimmer {
          AppendAssoc(old(dimmers), OfKind(devices[..i], DimmerKind), [d]);
          dimmers := dimmers + [d];
        } else if d.isSwitch {
          AppendAssoc(old(switches), OfKind(devices[..i], SwitchKind), [d]);
          switches := switches + [d];
        }
        i := i + 1;
      }
      assert devices[..i] == devices;
      ok := true;
    }

    /** getDimmer: the first dimmer, in list order, whose name is non-null and equals name; None (null) otherwise. */
    function GetDimmer(name: Option<string>): (r: Option<Device>)
      reads this
      ensures r.Some? ==>
        exists i | 0 <= i < |dimmers| ::
          && dimmers[i] == r.value && Matches(dimmers[i], name)
          && forall j | 0 <= j < i :: !Matches(dimmers[j], name)
      ensures r.None? <==> forall i | 0 <= i < |dimmers| :: !Matches(dimmers[i], name)
    {
      FirstNamed(dimmers, name)
    }

    /** getSwitch: the same lookup over switches. */
    function GetSwitch(name: Option<string>): (r: Option<Device>)
      reads this
      ensures r.Some? ==>
        exists i | 0 <= i < |switches| ::
          && switches[i] == r.value && Matches(switches[i], name)
          && forall j | 0 <= j < i :: !Matches(switches[j], name)
      ensures r.None? <==> forall i | 0 <= i < |switches| :: !Matches(switches[i], name)
    {
      FirstNamed(switches, name)
    }

    /** getDimmers: the current dimmers. */
    function GetDimmers(): seq<Device>
      reads this
    {
      dimmers
    }

    /** getSwitches: the current switches. */
    function GetSwitches(): seq<Device>
      reads this
    {
      switches
    }
  }

  /**
   * Connecting twice with the same list files every device twice, yet a
   * lookup by name finds the same device as after one connect.
   */
  lemma ConnectTwiceLookup(ds: seq<Device>, name: Option<string>)
    ensures OfKind(ds + ds, DimmerKind) == OfKind(ds, DimmerKind) + OfKind(ds, DimmerKind)
    ensures FirstNamed(OfKind(ds + ds, DimmerKind), name) == FirstNamed(OfKind(ds, DimmerKind), name)
  {
    OfKindAppend(ds, ds, DimmerKind);
    FirstNamedAppend(OfKind(ds, DimmerKind), OfKind(ds, DimmerKind), name);
  }
}
