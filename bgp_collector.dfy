/** bgp/bgp_collector.go: the four gauges of every BGP session. */
module BgpCollector {
  import opened Wrappers
  import opened Metrics
  import opened BgpParser
  import Text
  import Rpc

  const Prefix: string := "cisco_bgp_session_"
  const Command: string := "show bgp all summary"

  /** Describe: up, prefixes received, messages received, messages sent, labelled by target, AS
      number and neighbor address. */
  function Describe(): (ds: seq<Desc>)
    ensures |ds| == 4
    ensures forall i :: 0 <= i < 4 ==> ds[i].labels == ["target", "asn", "ip"]
  {
    var l := ["target", "asn", "ip"];
    [Desc(Prefix + "up", "Session is up (1 = Established)", l),
     Desc(Prefix + "prefixes_received_count", "Number of received prefixes", l),
     Desc(Prefix + "messages_input_count", "Number of received messages", l),
     Desc(Prefix + "messages_output_count", "Number of transmitted messages", l)]
  }

  function SessionSamples(labels: seq<string>, s: BgpSession): seq<Sample> {
    var l := labels + [s.asn, s.ip];
    [Sample(Prefix + "up", Indicator(s.up), l),
     Sample(Prefix + "prefixes_received_count", s.receivedPrefixes, l),
     Sample(Prefix + "messages_input_count", s.inputMessages, l),
     Sample(Prefix + "messages_output_count", s.outputMessages, l)]
  }

  /** The emission for a list of sessions. */
  function Emission(labels: seq<string>, items: seq<BgpSession>): seq<Sample> {
    FlatMap(items, s => SessionSamples(labels, s))
  }

  /** Collect as a function of the device's answers: the command error is returned with no samples,
      a parse error is swallowed with no samples, and otherwise every session is emitted. */
  function Spec(cli: Rpc.Cli, labels: seq<string>, rowOf: string -> Option<NeighborRow>): (c: Collected)
    ensures c.issued == [Command]
    ensures cli.run(Command).Err? ==> c.samples == [] && c.err == Some(cli.run(Command).error)
    ensures cli.run(Command).Ok? ==> c.err.None?
    ensures cli.run(Command).Ok? && cli.osType != Rpc.IOSXE ==> c.samples == []
  {
    var out := cli.run(Command);
    if out.Err? then Collected([], Some(out.error), [Command])
    else if cli.osType != Rpc.IOSXE then Collected([], None, [Command])
    else Collected(Emission(labels, Sessions(rowOf, Text.Split(out.value, '\n'))), None, [Command])
  }

  /** Collect: run the summary command, parse it and send four samples per session. */
  method Collect(cli: Rpc.Cli, labels: seq<string>, rowOf: string -> Option<NeighborRow>) returns (c: Collected)
    ensures c == Spec(cli, labels, rowOf)
  {
    var out := cli.run(Command);
    if out.Err? {
      return Collected([], Some(out.error), [Command]);
    }
    var items := Parse(cli.osType, out.value, rowOf);
    if items.Err? {
      return Collected([], None, [Command]);
    }
    var samples: seq<Sample> := [];
    for i := 0 to |items.value|
      invariant samples == Emission(labels, items.value[..i])
    {
      assert items.value[..i + 1][..i] == items.value[..i];
      var item := items.value[i];
      var l := labels + [item.asn, item.ip];
      samples := samples + [Sample(Prefix + "up", Indicator(item.up), l)];
      samples := samples + [Sample(Prefix + "prefixes_received_count", item.receivedPrefixes, l)];
      samples := samples + [Sample(Prefix + "messages_input_count", item.inputMessages, l)];
      samples := samples + [Sample(Prefix + "messages_output_count", item.outputMessages, l)];
    }
    assert items.value[..|items.value|] == items.value;
    return Collected(samples, None, [Command]);
  }

  /** A block of four samples describes a session: up, prefixes, messages in, messages out, each
      labelled with the base labels, the AS number and the neighbor address; up is 1 iff the
      session is up. */
  predicate DescribesSession(b: seq<Sample>, labels: seq<string>, s: BgpSession) {
    && |b| == 4
    && b[0].metric == Prefix + "up" && (b[0].value == 1.0 <==> s.up)
    && b[1].metric == Prefix + "prefixes_received_count" && b[1].value == s.receivedPrefixes
    && b[2].metric == Prefix + "messages_input_count" && b[2].value == s.inputMessages
    && b[3].metric == Prefix + "messages_output_count" && b[3].value == s.outputMessages
    && forall k :: 0 <= k < 4 ==> b[k].labels == labels + [s.asn, s.ip]
  }

  /** The emission is one block of four per session, in session order. */
  lemma EmissionLayout(labels: seq<string>, items: seq<BgpSession>)
    ensures |Emission(labels, items)| == 4 * |items|
    ensures forall i :: 0 <= i < |items| ==>
      DescribesSession(Emission(labels, items)[4 * i .. 4 * i + 4], labels, items[i])
  {
    FlatMapUniform(items, s => SessionSamples(labels, s), 4);
  }
}
