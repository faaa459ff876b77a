/** interfaces/interface_collector.go: eleven gauges per interface, with the IOS-XE VLAN byte
    counters merged into the interface records in place. */
module InterfacesCollector {
  import opened Wrappers
  import opened Metrics
  import opened InterfacesParser
  import Text
  import Rpc

  const Prefix: string := "cisco_interface_"
  const ShowInterface: string := "show interface"
  const ShowVlans: string := "show vlans"

  /** Describe: note that transmit_drops is described before transmit_errors, while Collect sends
      transmit_errors first. */
  function Describe(): (ds: seq<Desc>)
    ensures |ds| == 11
    ensures forall i :: 0 <= i < 11 ==> ds[i].labels == ["target", "name", "description", "mac", "speed"]
  {
    var l := ["target", "name", "description", "mac", "speed"];
    [Desc(Prefix + "receive_bytes", "Received data in bytes", l),
     Desc(Prefix + "receive_errors", "Number of errors caused by incoming packets", l),
     Desc(Prefix + "receive_drops", "Number of dropped incoming packets", l),
     Desc(Prefix + "receive_broadcast", "Received broadcast packets", l),
     Desc(Prefix + "receive_multicast", "Received multicast packets", l),
     Desc(Prefix + "transmit_bytes", "Transmitted data in bytes", l),
     Desc(Prefix + "transmit_drops", "Number of dropped outgoing packets", l),
     Desc(Prefix + "transmit_errors", "Number of errors caused by outgoing packets", l),
     Desc(Prefix + "admin_up", "Admin operational status", l),
     Desc(Prefix + "up", "Interface operational status", l),
     Desc(Prefix + "error_status", "Admin and operational status differ", l)]
  }

  // ---- VLAN merge ----

  /** The index of the first record with the given name, or |items| when there is none. */
  function FirstNamed(items: seq<Interface>, name: string): (k: nat)
    ensures k <= |items|
    ensures k < |items| ==> items[k].name == name
    ensures forall j :: 0 <= j < k ==> items[j].name != name
  {
    if |items| == 0 then 0
    else if items[0].name == name then 0
    else 1 + FirstNamed(items[1..], name)
  }

  /** A record with the byte counters of a VLAN record, when there is one. */
  function Take(it: Interface, v: Option<Interface>): Interface {
    match v
    case None => it
    case Some(vlan) => it.(inputBytes := vlan.inputBytes, outputBytes := vlan.outputBytes)
  }

  /** One VLAN: the first record with its name takes its byte counters. */
  function MergeOne(items: seq<Interface>, vlan: Interface): seq<Interface> {
    var k := FirstNamed(items, vlan.name);
    if k < |items| then items[k := Take(items[k], Some(vlan))] else items
  }

  /** All VLANs, in order. */
  function Merged(items: seq<Interface>, vlans: seq<Interface>): (r: seq<Interface>)
    ensures |r| == |items|
    ensures forall k :: 0 <= k < |items| ==> r[k].name == items[k].name
  {
    if |vlans| == 0 then items else MergeOne(Merged(items, vlans[..|vlans| - 1]), vlans[|vlans| - 1])
  }

  /** The last VLAN record with the given name. */
  function LastVlan(vlans: seq<Interface>, name: string): (r: Option<Interface>)
    ensures r.Some? ==> r.value.name == name && exists k :: 0 <= k < |vlans| && vlans[k] == r.value
    ensures r.None? ==> forall k :: 0 <= k < |vlans| ==> vlans[k].name != name
  {
    if |vlans| == 0 then None
    else if vlans[|vlans| - 1].name == name then Some(vlans[|vlans| - 1])
    else LastVlan(vlans[..|vlans| - 1], name)
  }

  lemma SameNamesSameFirst(a: seq<Interface>, b: seq<Interface>, name: string)
    requires |a| == |b| && forall k :: 0 <= k < |a| ==> a[k].name == b[k].name
    ensures FirstNamed(a, name) == FirstNamed(b, name)
  {
  }

  /** What the merge does to each record: the first record of each name takes the byte counters of
      the last VLAN of that name; every other record, and every other field, is left as it was. */
  lemma {:induction false} MergedAt(items: seq<Interface>, vlans: seq<Interface>, i: nat)
    requires i < |items|
    ensures Merged(items, vlans)[i] ==
      Take(items[i], if FirstNamed(items, items[i].name) == i then LastVlan(vlans, items[i].name) else None)
  {
    if |vlans| > 0 {
      var pre := vlans[..|vlans| - 1];
      var v := vlans[|vlans| - 1];
      var m := Merged(items, pre);
      MergedAt(items, pre, i);
      SameNamesSameFirst(m, items, v.name);
      if v.name != items[i].name {
        assert FirstNamed(m, v.name) != i;
      }
    }
  }

  /** The loop of interface_collector.go over the VLANs, on the item slice in place. */
  method MergeVlans(a: array<Interface>, vlans: seq<Interface>)
    modifies a
    ensures a[..] == Merged(old(a[..]), vlans)
  {
    for n := 0 to |vlans|
      invariant a[..] == Merged(old(a[..]), vlans[..n])
    {
      assert vlans[..n + 1][..n] == vlans[..n];
      var vlan := vlans[n];
      var i := 0;
      while i < a.Length && a[i].name != vlan.name
        invariant 0 <= i <= a.Length
        invariant forall j :: 0 <= j < i ==> a[j].name != vlan.name
      {
        i := i + 1;
      }
      if i < a.Length {
        a[i] := a[i].(inputBytes := vlan.inputBytes, outputBytes := vlan.outputBytes);
      }
    }
    assert vlans[..|vlans|] == vlans;
  }

  // ---- emission ----

  function ItemSamples(labels: seq<string>, it: Interface): seq<Sample> {
    var l := labels + [it.name, it.description, it.mac, it.speed];
    [Sample(Prefix + "receive_bytes", it.inputBytes, l),
     Sample(Prefix + "receive_errors", it.inputErrors, l),
     Sample(Prefix + "receive_drops", it.inputDrops, l),
     Sample(Prefix + "transmit_bytes", it.outputBytes, l),
     Sample(Prefix + "transmit_errors", it.outputErrors, l),
     Sample(Prefix + "transmit_drops", it.outputDrops, l),
     Sample(Prefix + "receive_broadcast", it.inputBroadcast, l),
     Sample(Prefix + "receive_multicast", it.inputMulticast, l),
     Sample(Prefix + "admin_up", Indicator(it.adminStatus == "up"), l),
     Sample(Prefix + "up", Indicator(it.operStatus == "up"), l),
     Sample(Prefix + "error_status", Indicator(it.adminStatus != it.operStatus), l)]
  }

  function Emission(labels: seq<string>, items: seq<Interface>): seq<Sample> {
    FlatMap(items, it => ItemSamples(labels, it))
  }

  /** The records Collect emits: the parsed interfaces, with the VLAN counters merged on IOS-XE. */
  function Records(cli: Rpc.Cli, p: Patterns, vp: VlanPatterns, out: string): seq<Interface> {
    var items := Parsed(p, Text.Split(out, '\n'));
    if cli.osType == Rpc.IOSXE && cli.run(ShowVlans).Ok? then
      Merged(items, Vlans(vp, Text.Split(cli.run(ShowVlans).value, '\n')))
    else items
  }

  /** Collect as a function of the device's answers: a `show interface` error is returned with no
      samples, an unsupported OS is swallowed with no samples, only IOS-XE asks `show vlans` and
      returns its error with no samples, and otherwise every record is emitted. */
  function Spec(cli: Rpc.Cli, labels: seq<string>, p: Patterns, vp: VlanPatterns): (c: Collected)
    ensures c.issued == if cli.run(ShowInterface).Ok? && cli.osType == Rpc.IOSXE then [ShowInterface, ShowVlans] else [ShowInterface]
    ensures cli.run(ShowInterface).Err? ==> c.samples == [] && c.err == Some(cli.run(ShowInterface).error)
    ensures cli.run(ShowInterface).Ok? && !Rpc.Known(cli.osType) ==> c.samples == [] && c.err.None?
    ensures cli.run(ShowInterface).Ok? && cli.osType == Rpc.IOSXE && cli.run(ShowVlans).Err? ==>
      c.samples == [] && c.err == Some(cli.run(ShowVlans).error)
  {
    var out := cli.run(ShowInterface);
    if out.Err? then Collected([], Some(out.error), [ShowInterface])
    else if !Rpc.Known(cli.osType) then Collected([], None, [ShowInterface])
    else if cli.osType != Rpc.IOSXE then Collected(Emission(labels, Records(cli, p, vp, out.value)), None, [ShowInterface])
    else if cli.run(ShowVlans).Err? then Collected([], Some(cli.run(ShowVlans).error), [ShowInterface, ShowVlans])
    else Collected(Emission(labels, Records(cli, p, vp, out.value)), None, [ShowInterface, ShowVlans])
  }

  /** The emission loop of Collect. */
  method Emit(labels: seq<string>, items: seq<Interface>) returns (samples: seq<Sample>)
    ensures samples == Emission(labels, items)
  {
    samples := [];
    for i := 0 to |items|
      invariant samples == Emission(labels, items[..i])
    {
      assert items[..i + 1][..i] == items[..i];
      var item := items[i];
      var l := labels + [item.name, item.description, item.mac, item.speed];
      var errorStatus := 0.0;
      if item.adminStatus != item.operStatus {
        errorStatus := 1.0;
      }
      var adminStatus := 0.0;
      if item.adminStatus == "up" {
        adminStatus := 1.0;
      }
      var operStatus := 0.0;
      if item.operStatus == "up" {
        operStatus := 1.0;
      }
      samples := samples + [Sample(Prefix + "receive_bytes", item.inputBytes, l)];
      samples := samples + [Sample(Prefix + "receive_errors", item.inputErrors, l)];
      samples := samples + [Sample(Prefix + "receive_drops", item.inputDrops, l)];
      samples := samples + [Sample(Prefix + "transmit_bytes", item.outputBytes, l)];
      samples := samples + [Sample(Prefix + "transmit_errors", item.outputErrors, l)];
      samples := samples + [Sample(Prefix + "transmit_drops", item.outputDrops, l)];
      samples := samples + [Sample(Prefix + "receive_broadcast", item.inputBroadcast, l)];
      samples := samples + [Sample(Prefix + "receive_multicast", item.inputMulticast, l)];
      samples := samples + [Sample(Prefix + "admin_up", adminStatus, l)];
      samples := samples + [Sample(Prefix + "up", operStatus, l)];
      samples := samples + [Sample(Prefix + "error_status", errorStatus, l)];
    }
    assert items[..|items|] == items;
  }

  method Collect(cli: Rpc.Cli, labels: seq<string>, p: Patterns, vp: VlanPatterns) returns (c: Collected)
    ensures c == Spec(cli, labels, p, vp)
  {
    var out := cli.run(ShowInterface);
    if out.Err? {
      return Collected([], Some(out.error), [ShowInterface]);
    }
    var parsed := Parse(p, cli.osType, out.value);
    if parsed.Err? {
      return Collected([], None, [ShowInterface]);
    }
    var items := parsed.value;
    var issued := [ShowInterface];
    if cli.osType == Rpc.IOSXE {
      var vout := cli.run(ShowVlans);
      issued := issued + [ShowVlans];
      if vout.Err? {
        return Collected([], Some(vout.error), issued);
      }
      var vlans := ParseVlans(vp, cli.osType, vout.value);
      var a := new Interface[|items|](k requires 0 <= k < |items| => items[k]);
      assert a[..] == items;
      MergeVlans(a, vlans.value);
      items := a[..];
    }
    var samples := Emit(labels, items);
    return Collected(samples, None, issued);
  }

  /** A block of eleven samples describes an interface: the counters in the order Collect sends
      them, then admin_up (1 iff AdminStatus is "up"), up (1 iff OperStatus is "up") and
      error_status (1 iff the two differ), all labelled with the base labels, the name, the
      description, the MAC address and the speed. */
  predicate DescribesInterface(b: seq<Sample>, labels: seq<string>, it: Interface) {
    && |b| == 11
    && b[0].metric == Prefix + "receive_bytes" && b[0].value == it.inputBytes
    && b[1].metric == Prefix + "receive_errors" && b[1].value == it.inputErrors
    && b[2].metric == Prefix + "receive_drops" && b[2].value == it.inputDrops
    && b[3].metric == Prefix + "transmit_bytes" && b[3].value == it.outputBytes
    && b[4].metric == Prefix + "transmit_errors" && b[4].value == it.outputErrors
    && b[5].metric == Prefix + "transmit_drops" && b[5].value == it.outputDrops
    && b[6].metric == Prefix + "receive_broadcast" && b[6].value == it.inputBroadcast
    && b[7].metric == Prefix + "receive_multicast" && b[7].value == it.inputMulticast
    && b[8].metric == Prefix + "admin_up" && (b[8].value == 1.0 <==> it.adminStatus == "up")
    && b[9].metric == Prefix + "up" && (b[9].value == 1.0 <==> it.operStatus == "up")
    && b[10].metric == Prefix + "error_status" && (b[10].value == 1.0 <==> it.adminStatus != it.operStatus)
    && (forall k :: 8 <= k < 11 ==> b[k].value == 0.0 || b[k].value == 1.0)
    && forall k :: 0 <= k < 11 ==> b[k].labels == labels + [it.name, it.description, it.mac, it.speed]
  }

  /** The emission is one block of eleven per record, in record order. */
  lemma EmissionLayout(labels: seq<string>, items: seq<Interface>)
    ensures |Emission(labels, items)| == 11 * |items|
    ensures forall i :: 0 <= i < |items| ==>
      DescribesInterface(Emission(labels, items)[11 * i .. 11 * i + 11], labels, items[i])
  {
    FlatMapUniform(items, it => ItemSamples(labels, it), 11);
    forall i | 0 <= i < |items|
      ensures DescribesInterface(Emission(labels, items)[11 * i .. 11 * i + 11], labels, items[i])
    {
      ItemBlock(labels, items[i]);
    }
  }

  lemma ItemBlock(labels: seq<string>, it: Interface)
    ensures DescribesInterface(ItemSamples(labels, it), labels, it)
  {
  }
}
