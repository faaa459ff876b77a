/** neighbors/neighbors_collector.go: neighbor counts by state for every interface, for ARP (IPv4)
    and IPv6 neighbor discovery. */
module NeighborsCollector {
  import opened Wrappers
  import opened Metrics
  import opened Lines
  import opened NeighborsParser
  import Text
  import Rpc

  const Count: string := "cisco_neighbors_count"
  const ListV4: string := "show ip interface brief"
  const ListV6: string := "show ipv6 interface brief"
  const AskV4: string := "show ip arp "
  const AskV6: string := "show ipv6 neighbors "

  function Describe(): (ds: seq<Desc>)
    ensures |ds| == 1 && ds[0].labels == ["target", "name", "protocol", "state"]
  {
    [Desc(Count, "Neighbor count (ARP or IPv6 ND) on interface in state", ["target", "name", "protocol", "state"])]
  }

  /** The five count samples of one interface. */
  function CountSamples(labels: seq<string>, i: string, proto: string, n: InterfaceNeighbors): seq<Sample> {
    [Sample(Count, n.incomplete as real, labels + [i, proto, "incomplete"]),
     Sample(Count, n.reachable as real, labels + [i, proto, "reachable"]),
     Sample(Count, n.stale as real, labels + [i, proto, "stale"]),
     Sample(Count, n.delay as real, labels + [i, proto, "delay"]),
     Sample(Count, n.probe as real, labels + [i, proto, "probe"])]
  }

  /** The samples of one interface: nothing when its command or the parse of its answer fails. */
  function InterfaceBlock(cli: Rpc.Cli, labels: seq<string>, proto: string, ask: string,
                          parse: string -> Result<InterfaceNeighbors>, i: string): seq<Sample>
  {
    var out := cli.run(ask + i);
    if out.Err? || parse(out.value).Err? then [] else CountSamples(labels, i, proto, parse(out.value).value)
  }

  function Emission(cli: Rpc.Cli, labels: seq<string>, proto: string, ask: string,
                    parse: string -> Result<InterfaceNeighbors>, ifs: seq<string>): seq<Sample>
  {
    FlatMap(ifs, i => InterfaceBlock(cli, labels, proto, ask, parse, i))
  }

  /** The per-interface commands: every listed interface is asked, in order. */
  function Asked(ask: string, ifs: seq<string>): (cmds: seq<string>)
    ensures |cmds| == |ifs| && forall k :: 0 <= k < |ifs| ==> cmds[k] == ask + ifs[k]
  {
    FilterMapTotal(ifs, i => Some(ask + i));
    FilterMap(ifs, i => Some(ask + i))
  }

  /** One address family: a listing error ends it with no samples; otherwise every listed interface
      is asked, and a failing one is skipped. */
  function FamilySpec(cli: Rpc.Cli, labels: seq<string>, proto: string, list: string, ask: string,
                      names: string -> seq<string>, parse: string -> Result<InterfaceNeighbors>)
    : (c: Collected)
    ensures |c.issued| >= 1 && c.issued[0] == list
    ensures cli.run(list).Err? ==> c == Collected([], Some(cli.run(list).error), [list])
    ensures cli.run(list).Ok? ==> c.err.None? && c.issued[1..] == Asked(ask, names(cli.run(list).value))
  {
    var out := cli.run(list);
    if out.Err? then Collected([], Some(out.error), [list])
    else
      var ifs := names(out.value);
      Collected(Emission(cli, labels, proto, ask, parse, ifs), None, [list] + Asked(ask, ifs))
  }

  /** The interfaces of each listing, as the parser reads them. */
  function NamesV4(output: string): seq<string> {
    FilterMap(Text.Split(output, '\n'), IPv4Interface)
  }

  function NamesV6(output: string): seq<string> {
    Addressed(Text.Split(output, '\n'))
  }

  /** Collect: IPv4 then IPv6, whatever the first did; nil is always returned. */
  function Spec(cli: Rpc.Cli, labels: seq<string>, parseV4: string -> Result<InterfaceNeighbors>,
                parseV6: string -> Result<InterfaceNeighbors>): (c: Collected)
    ensures c.err.None?
    ensures |c.issued| >= 2 && c.issued[0] == ListV4
    ensures c.samples == FamilySpec(cli, labels, "4", ListV4, AskV4, NamesV4, parseV4).samples +
                         FamilySpec(cli, labels, "6", ListV6, AskV6, NamesV6, parseV6).samples
  {
    var v4 := FamilySpec(cli, labels, "4", ListV4, AskV4, NamesV4, parseV4);
    var v6 := FamilySpec(cli, labels, "6", ListV6, AskV6, NamesV6, parseV6);
    Collected(v4.samples + v6.samples, None, v4.issued + v6.issued)
  }

  /** The per-interface loop shared by both families. */
  method AskEach(cli: Rpc.Cli, labels: seq<string>, proto: string, ask: string,
                 parse: string -> Result<InterfaceNeighbors>, ifs: seq<string>)
    returns (samples: seq<Sample>, issued: seq<string>)
    ensures samples == Emission(cli, labels, proto, ask, parse, ifs)
    ensures issued == Asked(ask, ifs)
  {
    samples, issued := [], [];
    for n := 0 to |ifs|
      invariant samples == Emission(cli, labels, proto, ask, parse, ifs[..n])
      invariant issued == Asked(ask, ifs[..n])
    {
      assert ifs[..n + 1][..n] == ifs[..n];
      var i := ifs[n];
      issued := issued + [ask + i];
      var out := cli.run(ask + i);
      if out.Err? {
        continue;
      }
      var neighbors := parse(out.value);
      if neighbors.Err? {
        continue;
      }
      var c := neighbors.value;
      samples := samples + [Sample(Count, c.incomplete as real, labels + [i, proto, "incomplete"])];
      samples := samples + [Sample(Count, c.reachable as real, labels + [i, proto, "reachable"])];
      samples := samples + [Sample(Count, c.stale as real, labels + [i, proto, "stale"])];
      samples := samples + [Sample(Count, c.delay as real, labels + [i, proto, "delay"])];
      samples := samples + [Sample(Count, c.probe as real, labels + [i, proto, "probe"])];
    }
    assert ifs[..|ifs|] == ifs;
  }

  method CollectIPv4(cli: Rpc.Cli, labels: seq<string>, parse: string -> Result<InterfaceNeighbors>)
    returns (c: Collected)
    ensures c == FamilySpec(cli, labels, "4", ListV4, AskV4, NamesV4, parse)
  {
    var out := cli.run(ListV4);
    if out.Err? {
      return Collected([], Some(out.error), [ListV4]);
    }
    var interfaces := ParseInterfacesIPv4(cli.osType, out.value);
    var samples, issued := AskEach(cli, labels, "4", AskV4, parse, interfaces.value);
    return Collected(samples, None, [ListV4] + issued);
  }

  method CollectIPv6(cli: Rpc.Cli, labels: seq<string>, parse: string -> Result<InterfaceNeighbors>)
    returns (c: Collected)
    ensures c == FamilySpec(cli, labels, "6", ListV6, AskV6, NamesV6, parse)
  {
    var out := cli.run(ListV6);
    if out.Err? {
      return Collected([], Some(out.error), [ListV6]);
    }
    var interfaces := ParseInterfacesIPv6(cli.osType, out.value);
    var samples, issued := AskEach(cli, labels, "6", AskV6, parse, interfaces.value);
    return Collected(samples, None, [ListV6] + issued);
  }

  method Collect(cli: Rpc.Cli, labels: seq<string>, parseV4: string -> Result<InterfaceNeighbors>,
                 parseV6: string -> Result<InterfaceNeighbors>) returns (c: Collected)
    ensures c == Spec(cli, labels, parseV4, parseV6)
  {
    var v4 := CollectIPv4(cli, labels, parseV4);
    var v6 := CollectIPv6(cli, labels, parseV6);
    return Collected(v4.samples + v6.samples, None, v4.issued + v6.issued);
  }

  /** One interface's samples: nothing when its command or parse fails, and otherwise five
      counts, in the states incomplete, reachable, stale, delay, probe, labelled with the
      interface, the protocol and the state; failing interfaces leave the others' samples alone. */
  lemma EmissionPerInterface(cli: Rpc.Cli, labels: seq<string>, proto: string, ask: string,
                             parse: string -> Result<InterfaceNeighbors>, a: seq<string>, b: seq<string>, i: string)
    ensures Emission(cli, labels, proto, ask, parse, a + b) ==
      Emission(cli, labels, proto, ask, parse, a) + Emission(cli, labels, proto, ask, parse, b)
    ensures var out := cli.run(ask + i);
      var e := Emission(cli, labels, proto, ask, parse, [i]);
      if out.Err? || parse(out.value).Err? then e == []
      else
        && |e| == 5
        && e[0].labels == labels + [i, proto, "incomplete"] && e[0].value == parse(out.value).value.incomplete as real
        && e[1].labels == labels + [i, proto, "reachable"] && e[1].value == parse(out.value).value.reachable as real
        && e[2].labels == labels + [i, proto, "stale"] && e[2].value == parse(out.value).value.stale as real
        && e[3].labels == labels + [i, proto, "delay"] && e[3].value == parse(out.value).value.delay as real
        && e[4].labels == labels + [i, proto, "probe"] && e[4].value == parse(out.value).value.probe as real
        && forall k :: 0 <= k < 5 ==> e[k].metric == Count
  {
    FlatMapAppend(a, b, j => InterfaceBlock(cli, labels, proto, ask, parse, j));
    FlatMapSingle(i, j => InterfaceBlock(cli, labels, proto, ask, parse, j));
  }
}
