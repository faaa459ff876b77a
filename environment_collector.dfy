/** environment/environment_collector.go: sensor temperatures and statuses and power-supply states. */
module EnvironmentCollector {
  import opened Wrappers
  import opened Metrics
  import opened EnvironmentParser
  import Text
  import Rpc

  const Prefix: string := "cisco_environment_"

  /** The command for an OS type; an OS type outside the switch leaves Go's empty string. */
  function Command(osType: string): (cmd: string)
    ensures osType == Rpc.IOS || osType == Rpc.NXOS ==> cmd == "show environment"
    ensures osType == Rpc.IOSXE ==> cmd == "show environment all"
    ensures !Rpc.Known(osType) ==> cmd == ""
  {
    if osType == Rpc.IOS || osType == Rpc.NXOS then "show environment"
    else if osType == Rpc.IOSXE then "show environment all"
    else ""
  }

  /** Describe: sensor temperature, sensor status and power supply status. */
  function Describe(): (ds: seq<Desc>)
    ensures |ds| == 3
    ensures ds[0].labels == ["target", "item"]
    ensures ds[1].labels == ds[2].labels == ["target", "item", "status"]
  {
    var l := ["target", "item"];
    [Desc(Prefix + "sensor_temp", "Sensor temperatures", l),
     Desc(Prefix + "sensor_status", "Status of sensor temperatures (1 OK, 0 Something is wrong)", l + ["status"]),
     Desc(Prefix + "power_up", "Status of power supplies (1 OK, 0 Something is wrong)", l + ["status"])]
  }

  function ItemSamples(labels: seq<string>, x: EnvironmentItem): seq<Sample> {
    var l := labels + [x.name];
    if x.isTemp then
      [Sample(Prefix + "sensor_temp", x.temperature, l), Sample(Prefix + "sensor_status", Indicator(x.ok), l + [x.status])]
    else
      [Sample(Prefix + "power_up", Indicator(x.ok), l + [x.status])]
  }

  function Emission(labels: seq<string>, items: seq<EnvironmentItem>): seq<Sample> {
    FlatMap(items, x => ItemSamples(labels, x))
  }

  /** Collect as a function of the device's answers: the command error is returned with no samples,
      a parse error is swallowed with no samples, and otherwise every item is emitted. */
  function Spec(cli: Rpc.Cli, labels: seq<string>, p: Patterns): (c: Collected)
    ensures c.issued == [Command(cli.osType)]
    ensures cli.run(Command(cli.osType)).Err? ==> c.samples == [] && c.err == Some(cli.run(Command(cli.osType)).error)
    ensures cli.run(Command(cli.osType)).Ok? ==> c.err.None?
    ensures !Rpc.Known(cli.osType) ==> c.samples == []
  {
    var cmd := Command(cli.osType);
    var out := cli.run(cmd);
    if out.Err? then Collected([], Some(out.error), [cmd])
    else if !Rpc.Known(cli.osType) then Collected([], None, [cmd])
    else Collected(Emission(labels, Items(p, cli.osType, Text.Split(out.value, '\n'))), None, [cmd])
  }

  /** Collect: choose the command by OS type, run it, parse and send the samples of every item. */
  method Collect(cli: Rpc.Cli, labels: seq<string>, p: Patterns) returns (c: Collected)
    ensures c == Spec(cli, labels, p)
  {
    var envcmd := "";
    if cli.osType == Rpc.IOS || cli.osType == Rpc.NXOS {
      envcmd := "show environment";
    } else if cli.osType == Rpc.IOSXE {
      envcmd := "show environment all";
    }
    var out := cli.run(envcmd);
    if out.Err? {
      return Collected([], Some(out.error), [envcmd]);
    }
    var items := Parse(cli.osType, out.value, p);
    if items.Err? {
      return Collected([], None, [envcmd]);
    }
    var samples: seq<Sample> := [];
    for i := 0 to |items.value|
      invariant samples == Emission(labels, items.value[..i])
    {
      assert items.value[..i + 1][..i] == items.value[..i];
      var item := items.value[i];
      var l := labels + [item.name];
      if item.isTemp {
        samples := samples + [Sample(Prefix + "sensor_temp", item.temperature, l)];
        l := l + [item.status];
        samples := samples + [Sample(Prefix + "sensor_status", Indicator(item.ok), l)];
      } else {
        l := l + [item.status];
        samples := samples + [Sample(Prefix + "power_up", Indicator(item.ok), l)];
      }
    }
    assert items.value[..|items.value|] == items.value;
    return Collected(samples, None, [envcmd]);
  }

  /** The samples of one item: a temperature item sends its temperature labelled by name, then its
      status labelled by name and status with 1 iff OK; any other item sends one power sample
      labelled by name and status with 1 iff OK. */
  predicate DescribesItem(b: seq<Sample>, labels: seq<string>, x: EnvironmentItem) {
    if x.isTemp then
      && |b| == 2
      && b[0] == Sample(Prefix + "sensor_temp", x.temperature, labels + [x.name])
      && b[1].metric == Prefix + "sensor_status" && b[1].labels == labels + [x.name, x.status]
      && (b[1].value == 1.0 <==> x.ok)
    else
      && |b| == 1
      && b[0].metric == Prefix + "power_up" && b[0].labels == labels + [x.name, x.status]
      && (b[0].value == 1.0 <==> x.ok)
  }

  /** The emission is item by item, in item order, each item sending exactly its own block. */
  lemma EmissionPerItem(labels: seq<string>, a: seq<EnvironmentItem>, b: seq<EnvironmentItem>, x: EnvironmentItem)
    ensures Emission(labels, a + b) == Emission(labels, a) + Emission(labels, b)
    ensures DescribesItem(Emission(labels, [x]), labels, x)
  {
    FlatMapAppend(a, b, y => ItemSamples(labels, y));
    FlatMapSingle(x, y => ItemSamples(labels, y));
    assert labels + [x.name] + [x.status] == labels + [x.name, x.status];
  }
}
