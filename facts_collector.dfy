/** facts/facts_collector.go: OS version, memory pools and CPU load of a device. */
module FactsCollector {
  import opened Wrappers
  import opened Metrics
  import opened Lines
  import opened FactsParser
  import Text
  import Rpc

  const Prefix: string := "cisco_facts_"
  const VersionCommand: string := "show version"
  const MemoryCommand: string := "show process memory"
  const CpuCommand: string := "show process cpu"

  /** Describe: the version gauge and the three memory gauges; the CPU gauges are not described. */
  function Describe(): (ds: seq<Desc>)
    ensures |ds| == 4 && ds[0].labels == ["target", "version"]
    ensures forall i :: 1 <= i < 4 ==> ds[i].labels == ["target", "type"]
  {
    [Desc(Prefix + "version", "Running OS version", ["target", "version"]),
     Desc(Prefix + "memory_total", "Total memory", ["target", "type"]),
     Desc(Prefix + "memory_used", "Used memory", ["target", "type"]),
     Desc(Prefix + "memory_free", "Free memory", ["target", "type"])]
  }

  /** The version the first matching line of an output gives. */
  function VersionFound(p: Patterns, osType: string, output: string): Option<VersionFact> {
    First(Text.Split(output, '\n'), l => VersionLine(p, osType, l))
  }

  /** The version sub-collection: one sample of value 1 labelled with the version; a command
      error, an unknown OS type or a missing version line sends nothing and is returned. */
  function VersionSpec(cli: Rpc.Cli, labels: seq<string>, p: Patterns): (c: Collected)
    ensures c.issued == [VersionCommand]
    ensures c.err.None? <==> |c.samples| == 1
    ensures c.err.Some? ==> c.samples == []
    ensures c.err.None? ==> (c.samples[0].metric == Prefix + "version" && c.samples[0].value == 1.0 &&
      |c.samples[0].labels| == |labels| + 1 && c.samples[0].labels[..|labels|] == labels)
    ensures cli.run(VersionCommand).Err? ==> c.err == Some(cli.run(VersionCommand).error)
    ensures cli.run(VersionCommand).Ok? && !Rpc.Known(cli.osType) ==>
      c.err == Some("'show version' is not implemented for " + cli.osType)
    ensures cli.run(VersionCommand).Ok? && Rpc.Known(cli.osType) ==>
      (c.err.None? <==> VersionFound(p, cli.osType, cli.run(VersionCommand).value).Some?) &&
      (c.err.Some? ==> c.err == Some("Version string not found")) &&
      (c.err.None? ==>
        VersionFound(p, cli.osType, cli.run(VersionCommand).value) == Some(VersionFact(c.samples[0].labels[|labels|])))
  {
    var out := cli.run(VersionCommand);
    if out.Err? then Collected([], Some(out.error), [VersionCommand])
    else if !Rpc.Known(cli.osType) then Collected([], Some("'show version' is not implemented for " + cli.osType), [VersionCommand])
    else
      var item := FoundOr(VersionFound(p, cli.osType, out.value), "Version string not found");
      if item.Err? then Collected([], Some(item.error), [VersionCommand])
      else Collected([Sample(Prefix + "version", 1.0, labels + [item.value.version])], None, [VersionCommand])
  }

  method CollectVersion(cli: Rpc.Cli, labels: seq<string>, p: Patterns) returns (c: Collected)
    ensures c == VersionSpec(cli, labels, p)
  {
    var out := cli.run(VersionCommand);
    if out.Err? {
      return Collected([], Some(out.error), [VersionCommand]);
    }
    var item := ParseVersion(cli.osType, out.value, p);
    if item.Err? {
      return Collected([], Some(item.error), [VersionCommand]);
    }
    return Collected([Sample(Prefix + "version", 1.0, labels + [item.value.version])], None, [VersionCommand]);
  }

  function PoolSamples(labels: seq<string>, m: MemoryFact): seq<Sample> {
    var l := labels + [m.kind];
    [Sample(Prefix + "memory_total", m.total, l), Sample(Prefix + "memory_used", m.used, l), Sample(Prefix + "memory_free", m.free, l)]
  }

  function MemoryEmission(labels: seq<string>, items: seq<MemoryFact>): seq<Sample> {
    FlatMap(items, m => PoolSamples(labels, m))
  }

  /** The memory sub-collection: total, used and free of every pool labelled with its type; a
      command or parse error sends nothing and is returned. */
  function MemorySpec(cli: Rpc.Cli, labels: seq<string>, p: Patterns): (c: Collected)
    ensures c.issued == [MemoryCommand]
    ensures c.err.Some? ==> c.samples == []
    ensures cli.run(MemoryCommand).Err? ==> c.err == Some(cli.run(MemoryCommand).error)
    ensures cli.run(MemoryCommand).Ok? ==> (c.err.None? <==> cli.osType == Rpc.IOSXE || cli.osType == Rpc.IOS)
  {
    var out := cli.run(MemoryCommand);
    if out.Err? then Collected([], Some(out.error), [MemoryCommand])
    else if cli.osType != Rpc.IOSXE && cli.osType != Rpc.IOS then
      Collected([], Some("'show process memory' is not implemented for " + cli.osType), [MemoryCommand])
    else Collected(MemoryEmission(labels, Pools(p, Text.Split(out.value, '\n'))), None, [MemoryCommand])
  }

  method CollectMemory(cli: Rpc.Cli, labels: seq<string>, p: Patterns) returns (c: Collected)
    ensures c == MemorySpec(cli, labels, p)
  {
    var out := cli.run(MemoryCommand);
    if out.Err? {
      return Collected([], Some(out.error), [MemoryCommand]);
    }
    var items := ParseMemory(cli.osType, out.value, p);
    if items.Err? {
      return Collected([], Some(items.error), [MemoryCommand]);
    }
    var samples: seq<Sample> := [];
    for i := 0 to |items.value|
      invariant samples == MemoryEmission(labels, items.value[..i])
    {
      assert items.value[..i + 1][..i] == items.value[..i];
      var item := items.value[i];
      var l := labels + [item.kind];
      samples := samples + [Sample(Prefix + "memory_total", item.total, l)];
      samples := samples + [Sample(Prefix + "memory_used", item.used, l)];
      samples := samples + [Sample(Prefix + "memory_free", item.free, l)];
    }
    assert items.value[..|items.value|] == items.value;
    return Collected(samples, None, [MemoryCommand]);
  }

  /** Three samples per pool, total, used and free, labelled with the pool's type. */
  lemma MemoryLayout(labels: seq<string>, items: seq<MemoryFact>)
    ensures |MemoryEmission(labels, items)| == 3 * |items|
    ensures forall i :: 0 <= i < |items| ==>
      MemoryEmission(labels, items)[3 * i .. 3 * i + 3] ==
        [Sample(Prefix + "memory_total", items[i].total, labels + [items[i].kind]),
         Sample(Prefix + "memory_used", items[i].used, labels + [items[i].kind]),
         Sample(Prefix + "memory_free", items[i].free, labels + [items[i].kind])]
  {
    FlatMapUniform(items, m => PoolSamples(labels, m), 3);
  }

  /** The CPU reading the first matching line of an output gives. */
  function CpuFound(p: Patterns, output: string): Option<CPUFact> {
    First(Text.Split(output, '\n'), l => CpuLine(p, l))
  }

  /** The CPU sub-collection: one minute, five seconds, interrupts and five minutes, with the base
      labels; a command error, an OS other than IOS and IOS XE, or a missing CPU line sends
      nothing and is returned. */
  function CpuSpec(cli: Rpc.Cli, labels: seq<string>, p: Patterns): (c: Collected)
    ensures c.issued == [CpuCommand]
    ensures c.err.None? <==> |c.samples| == 4
    ensures c.err.Some? ==> c.samples == []
    ensures forall i :: 0 <= i < |c.samples| ==> c.samples[i].labels == labels
    ensures cli.run(CpuCommand).Err? ==> c.err == Some(cli.run(CpuCommand).error)
    ensures cli.run(CpuCommand).Ok? && cli.osType != Rpc.IOSXE && cli.osType != Rpc.IOS ==>
      c.err == Some("'show process cpu' is not implemented for " + cli.osType)
    ensures cli.run(CpuCommand).Ok? && (cli.osType == Rpc.IOSXE || cli.osType == Rpc.IOS) ==>
      (c.err.None? <==> CpuFound(p, cli.run(CpuCommand).value).Some?) &&
      (c.err.Some? ==> c.err == Some("Version string not found"))
  {
    var out := cli.run(CpuCommand);
    if out.Err? then Collected([], Some(out.error), [CpuCommand])
    else if cli.osType != Rpc.IOSXE && cli.osType != Rpc.IOS then
      Collected([], Some("'show process cpu' is not implemented for " + cli.osType), [CpuCommand])
    else
      var item := FoundOr(CpuFound(p, out.value), "Version string not found");
      if item.Err? then Collected([], Some(item.error), [CpuCommand])
      else Collected(CpuSamples(labels, item.value), None, [CpuCommand])
  }

  function CpuSamples(labels: seq<string>, f: CPUFact): seq<Sample> {
    [Sample(Prefix + "cpu_one_minute_percent", f.oneMinute, labels),
     Sample(Prefix + "cpu_five_seconds_percent", f.fiveSeconds, labels),
     Sample(Prefix + "cpu_interrupt_percent", f.interrupts, labels),
     Sample(Prefix + "cpu_five_minutes_percent", f.fiveMinutes, labels)]
  }

  /** The four CPU samples in send order, each carrying its own field of the reading found. */
  lemma CpuLayout(cli: Rpc.Cli, labels: seq<string>, p: Patterns)
    requires CpuSpec(cli, labels, p).err.None?
    ensures cli.run(CpuCommand).Ok? && CpuFound(p, cli.run(CpuCommand).value).Some?
    ensures var f, s := CpuFound(p, cli.run(CpuCommand).value).value, CpuSpec(cli, labels, p).samples;
      && s[0] == Sample(Prefix + "cpu_one_minute_percent", f.oneMinute, labels)
      && s[1] == Sample(Prefix + "cpu_five_seconds_percent", f.fiveSeconds, labels)
      && s[2] == Sample(Prefix + "cpu_interrupt_percent", f.interrupts, labels)
      && s[3] == Sample(Prefix + "cpu_five_minutes_percent", f.fiveMinutes, labels)
  {
  }

  method CollectCPU(cli: Rpc.Cli, labels: seq<string>, p: Patterns) returns (c: Collected)
    ensures c == CpuSpec(cli, labels, p)
  {
    var out := cli.run(CpuCommand);
    if out.Err? {
      return Collected([], Some(out.error), [CpuCommand]);
    }
    var item := ParseCPU(cli.osType, out.value, p);
    if item.Err? {
      return Collected([], Some(item.error), [CpuCommand]);
    }
    var f := item.value;
    var samples := [Sample(Prefix + "cpu_one_minute_percent", f.oneMinute, labels)];
    samples := samples + [Sample(Prefix + "cpu_five_seconds_percent", f.fiveSeconds, labels)];
    samples := samples + [Sample(Prefix + "cpu_interrupt_percent", f.interrupts, labels)];
    samples := samples + [Sample(Prefix + "cpu_five_minutes_percent", f.fiveMinutes, labels)];
    return Collected(samples, None, [CpuCommand]);
  }

  /** Collect: version, memory and CPU in that order, each whatever the others did; the
      sub-collections' errors are logged and nil is returned. */
  function Spec(cli: Rpc.Cli, labels: seq<string>, p: Patterns): (c: Collected)
    ensures c.err.None?
    ensures c.issued == [VersionCommand, MemoryCommand, CpuCommand]
    ensures c.samples == VersionSpec(cli, labels, p).samples + MemorySpec(cli, labels, p).samples + CpuSpec(cli, labels, p).samples
  {
    var v, m, u := VersionSpec(cli, labels, p), MemorySpec(cli, labels, p), CpuSpec(cli, labels, p);
    Collected(v.samples + m.samples + u.samples, None, v.issued + m.issued + u.issued)
  }

  method Collect(cli: Rpc.Cli, labels: seq<string>, p: Patterns) returns (c: Collected)
    ensures c == Spec(cli, labels, p)
  {
    var v := CollectVersion(cli, labels, p);
    var m := CollectMemory(cli, labels, p);
    var u := CollectCPU(cli, labels, p);
    return Collected(v.samples + m.samples + u.samples, None, v.issued + m.issued + u.issued);
  }
}
