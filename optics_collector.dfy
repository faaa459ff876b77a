/** optics/optics_collector.go: transceiver Tx and Rx power of every listed interface. */
module OpticsCollector {
  import opened Wrappers
  import opened Text
  import opened Metrics
  import opened Lines
  import opened OpticsParser
  import Util
  import Rpc

  const Prefix: string := "cisco_optics_"
  const ListIOS: string := "show interfaces stats | exclude disabled"
  const ListNXOS: string := "show interface status | exclude disabled | exclude notconn | exclude sfpAbsent | exclude --------------------------------------------------------------------------------"

  /** The listing command for an OS type; an OS type outside the switch leaves Go's empty string. */
  function ListCommand(osType: string): (cmd: string)
    ensures osType == Rpc.IOS || osType == Rpc.IOSXE ==> cmd == ListIOS
    ensures osType == Rpc.NXOS ==> cmd == ListNXOS
    ensures !Rpc.Known(osType) ==> cmd == ""
  {
    if osType == Rpc.IOS || osType == Rpc.IOSXE then ListIOS
    else if osType == Rpc.NXOS then ListNXOS
    else ""
  }

  /** `(\d+)/` at the start of t: the maximal digit run, when a '/' follows it, and what comes
      after the '/'. */
  function DigitGroup(t: string): Option<(string, string)> {
    var a := DigitRun(t);
    if a == 0 || a == |t| || t[a] != '/' then None else Some((t[..a], t[a + 1..]))
  }

  lemma DigitGroupShape(t: string)
    requires DigitGroup(t).Some?
    ensures var g := DigitGroup(t).value;
      |g.0| > 0 && Util.AllDigits(g.0) && t == g.0 + "/" + g.1
  {
    var a := DigitRun(t);
    assert t == t[..a] + [t[a]] + t[a + 1..];
  }

  /** `(\d+)/(\d+)/(\d+)` at the start of t: the three digit runs, each maximal. */
  function SlotMatch(t: string): Option<(string, string, string)> {
    match DigitGroup(t)
    case None => None
    case Some((x, t2)) =>
      match DigitGroup(t2)
      case None => None
      case Some((y, t3)) =>
        var c := DigitRun(t3);
        if c == 0 then None else Some((x, y, t3[..c]))
  }

  /** The text after a match's first two groups and their separators. */
  function SlotRest(t: string): string
    requires SlotMatch(t).Some?
  {
    DigitGroup(DigitGroup(t).value.1).value.1
  }

  /** A match splits t into three digit groups, two '/' and the rest, the third group a maximal
      digit run at the start of that rest. */
  lemma SlotMatchParts(t: string)
    requires SlotMatch(t).Some?
    ensures var m := SlotMatch(t).value;
      && t == m.0 + "/" + m.1 + "/" + SlotRest(t)
      && |m.0| > 0 && |m.1| > 0 && m.2 == SlotRest(t)[..DigitRun(SlotRest(t))] && |m.2| > 0
      && Util.AllDigits(m.0) && Util.AllDigits(m.1)
  {
    DigitGroupShape(t);
    DigitGroupShape(DigitGroup(t).value.1);
  }

  /** A match is three non-empty digit strings separated by '/' at the start of t, and the last
      one cannot be extended. */
  lemma SlotMatchDigits(t: string)
    requires SlotMatch(t).Some?
    ensures var m := SlotMatch(t).value;
      && StartsWith(t, m.0 + "/" + m.1 + "/" + m.2)
      && |m.0| > 0 && |m.1| > 0 && |m.2| > 0
      && Util.AllDigits(m.0) && Util.AllDigits(m.1) && Util.AllDigits(m.2)
      && (|m.0| + |m.1| + |m.2| + 2 == |t| || !IsDigit(t[|m.0| + |m.1| + |m.2| + 2]))
  {
    SlotMatchParts(t);
    var m := SlotMatch(t).value;
    var rest := SlotRest(t);
    var c := DigitRun(rest);
    var head := m.0 + "/" + m.1 + "/";
    assert rest == m.2 + rest[c..];
    assert t == (head + m.2) + rest[c..];
    StartsWithConcat(head + m.2, rest[c..]);
  }

  /** The pattern `\S(\d+)/(\d+)/(\d+)` matches at position q of s. */
  predicate SlotAt(s: string, q: nat)
    requires q < |s|
  {
    !IsReSpace(s[q]) && SlotMatch(s[q + 1..]).Some?
  }

  /** The leftmost position from p on where the pattern matches, or |s| when there is none. */
  function SlotFrom(s: string, p: nat): (q: nat)
    requires p <= |s|
    ensures p <= q <= |s|
    ensures forall q' :: p <= q' < q ==> !SlotAt(s, q')
    ensures q < |s| ==> SlotAt(s, q)
    decreases |s| - p
  {
    if p == |s| || SlotAt(s, p) then p else SlotFrom(s, p + 1)
  }

  /** The slot, subslot and port of an IOS XE interface name, as the collector's pattern
      `\S(\d+)/(\d+)/(\d+)` finds them: the captures of its leftmost match. */
  function XeSlot(name: string): Option<(string, string, string)> {
    var q := SlotFrom(name, 0);
    if q < |name| then SlotMatch(name[q + 1..]) else None
  }

  /** XeSlot reads the captures at the leftmost position q where the pattern matches; it is None
      exactly when the pattern matches nowhere. */
  lemma XeSlotLeftmost(name: string) returns (q: nat)
    ensures q <= |name| && forall q' :: 0 <= q' < q ==> !SlotAt(name, q')
    ensures q < |name| ==> SlotAt(name, q) && XeSlot(name) == SlotMatch(name[q + 1..])
    ensures XeSlot(name).None? <==> q == |name|
  {
    q := SlotFrom(name, 0);
  }

  /** The transceiver command for one interface; None means the interface is skipped unasked. */
  function TransceiverCommand(osType: string, i: string): (cmd: Option<string>)
    ensures osType == Rpc.IOS ==> cmd == Some("show interfaces " + i + " transceiver")
    ensures osType == Rpc.NXOS ==> cmd == Some("show interface " + i + " transceiver details")
    ensures osType == Rpc.IOSXE && XeSlot(i).None? ==> cmd.None?
    ensures osType == Rpc.IOSXE && XeSlot(i).Some? ==>
      var m := XeSlot(i).value;
      cmd == Some("show hw-module subslot " + m.0 + "/" + m.1 + " transceiver " + m.2 + " status")
  {
    if osType == Rpc.IOS then Some("show interfaces " + i + " transceiver")
    else if osType == Rpc.NXOS then Some("show interface " + i + " transceiver details")
    else if osType == Rpc.IOSXE then
      var m := XeSlot(i);
      if m.None? then None
      else Some("show hw-module subslot " + m.value.0 + "/" + m.value.1 + " transceiver " + m.value.2 + " status")
    else None
  }

  /** Describe: Tx and Rx power, labelled by target and interface. */
  function Describe(): (ds: seq<Desc>)
    ensures |ds| == 2 && ds[0].labels == ds[1].labels == ["target", "interface"]
  {
    var l := ["target", "interface"];
    [Desc(Prefix + "tx", "Transceiver Tx power", l), Desc(Prefix + "rx", "Transceiver Rx power", l)]
  }

  /** The samples of one interface: none when it is skipped, its command fails or its output
      does not parse, and otherwise Tx then Rx labelled with the interface name. */
  function InterfaceSamples(cli: Rpc.Cli, labels: seq<string>, pattern: (string, string) -> Option<(string, string)>, i: string)
    : seq<Sample>
  {
    var cmd := TransceiverCommand(cli.osType, i);
    if cmd.None? || cli.run(cmd.value).Err? then []
    else
      var optic := ParseTransceiver(cli.osType, cli.run(cmd.value).value, pattern);
      if optic.Err? then []
      else [Sample(Prefix + "tx", optic.value.txPower, labels + [i]), Sample(Prefix + "rx", optic.value.rxPower, labels + [i])]
  }

  function Emission(cli: Rpc.Cli, labels: seq<string>, pattern: (string, string) -> Option<(string, string)>, ifs: seq<string>)
    : seq<Sample>
  {
    FlatMap(ifs, i => InterfaceSamples(cli, labels, pattern, i))
  }

  /** The per-interface commands issued, in interface order. */
  function Asked(osType: string, ifs: seq<string>): seq<string> {
    FilterMap(ifs, i => TransceiverCommand(osType, i))
  }

  /** Collect as a function of the device's answers: a listing error is returned; a listing parse
      error is swallowed; otherwise every interface is asked in turn. */
  function Spec(cli: Rpc.Cli, labels: seq<string>, pattern: (string, string) -> Option<(string, string)>)
    : (c: Collected)
    ensures |c.issued| >= 1 && c.issued[0] == ListCommand(cli.osType)
    ensures cli.run(ListCommand(cli.osType)).Err? ==>
      c == Collected([], Some(cli.run(ListCommand(cli.osType)).error), [ListCommand(cli.osType)])
    ensures cli.run(ListCommand(cli.osType)).Ok? ==> c.err.None?
    ensures !Rpc.Known(cli.osType) ==> c.samples == [] && c.issued == [ListCommand(cli.osType)]
  {
    var listcmd := ListCommand(cli.osType);
    var out := cli.run(listcmd);
    if out.Err? then Collected([], Some(out.error), [listcmd])
    else if !Rpc.Known(cli.osType) then Collected([], None, [listcmd])
    else
      var ifs := Names(Split(out.value, '\n'));
      Collected(Emission(cli, labels, pattern, ifs), None, [listcmd] + Asked(cli.osType, ifs))
  }

  /** The per-interface loop of Collect. */
  method AskEach(cli: Rpc.Cli, labels: seq<string>, pattern: (string, string) -> Option<(string, string)>, ifs: seq<string>)
    returns (samples: seq<Sample>, issued: seq<string>)
    ensures samples == Emission(cli, labels, pattern, ifs)
    ensures issued == Asked(cli.osType, ifs)
  {
    samples, issued := [], [];
    for n := 0 to |ifs|
      invariant samples == Emission(cli, labels, pattern, ifs[..n])
      invariant issued == Asked(cli.osType, ifs[..n])
    {
      assert ifs[..n + 1][..n] == ifs[..n];
      var i := ifs[n];
      var cmd := TransceiverCommand(cli.osType, i);
      assert Emission(cli, labels, pattern, ifs[..n + 1]) ==
        Emission(cli, labels, pattern, ifs[..n]) + InterfaceSamples(cli, labels, pattern, i);
      assert Asked(cli.osType, ifs[..n + 1]) ==
        Asked(cli.osType, ifs[..n]) + (if cmd.Some? then [cmd.value] else []);
      if cmd.None? {
        continue;
      }
      issued := issued + [cmd.value];
      var reply := cli.run(cmd.value);
      if reply.Err? {
        continue;
      }
      var optic := ParseTransceiver(cli.osType, reply.value, pattern);
      if optic.Err? {
        continue;
      }
      var l := labels + [i];
      samples := samples + [Sample(Prefix + "tx", optic.value.txPower, l), Sample(Prefix + "rx", optic.value.rxPower, l)];
    }
    assert ifs[..|ifs|] == ifs;
  }

  /** Collect: list the interfaces, then ask each for its transceiver readings, skipping those that
      cannot be asked, whose command fails or whose output does not parse. */
  method Collect(cli: Rpc.Cli, labels: seq<string>, pattern: (string, string) -> Option<(string, string)>)
    returns (c: Collected)
    ensures c == Spec(cli, labels, pattern)
  {
    var iflistcmd := "";
    if cli.osType == Rpc.IOS || cli.osType == Rpc.IOSXE {
      iflistcmd := ListIOS;
    } else if cli.osType == Rpc.NXOS {
      iflistcmd := ListNXOS;
    }
    var out := cli.run(iflistcmd);
    if out.Err? {
      return Collected([], Some(out.error), [iflistcmd]);
    }
    var interfaces := ParseInterfaces(cli.osType, out.value);
    if interfaces.Err? {
      return Collected([], None, [iflistcmd]);
    }
    var samples, asked := AskEach(cli, labels, pattern, interfaces.value);
    return Collected(samples, None, [iflistcmd] + asked);
  }

  /** The emission is interface by interface: an interface that is skipped or fails adds nothing,
      and one whose readings parse adds Tx then Rx, labelled with its name. */
  lemma EmissionPerInterface(cli: Rpc.Cli, labels: seq<string>, pattern: (string, string) -> Option<(string, string)>,
                             a: seq<string>, b: seq<string>, i: string)
    ensures Emission(cli, labels, pattern, a + b) == Emission(cli, labels, pattern, a) + Emission(cli, labels, pattern, b)
    ensures var e := Emission(cli, labels, pattern, [i]);
      && (TransceiverCommand(cli.osType, i).None? ==> e == [])
      && (|e| == 0 || |e| == 2)
      && (|e| == 2 ==> e[0].metric == Prefix + "tx" && e[1].metric == Prefix + "rx" &&
                       e[0].labels == e[1].labels == labels + [i])
  {
    FlatMapAppend(a, b, j => InterfaceSamples(cli, labels, pattern, j));
    FlatMapSingle(i, j => InterfaceSamples(cli, labels, pattern, j));
  }

  /** An IOS XE interface whose name has no slot/subslot/port is never asked about. */
  lemma UnslottedNeverAsked(a: seq<string>, b: seq<string>, i: string)
    requires XeSlot(i).None?
    ensures Asked(Rpc.IOSXE, a + [i] + b) == Asked(Rpc.IOSXE, a) + Asked(Rpc.IOSXE, b)
  {
    FilterMapAppend(a + [i], b, j => TransceiverCommand(Rpc.IOSXE, j));
    FilterMapAppend(a, [i], j => TransceiverCommand(Rpc.IOSXE, j));
    FilterMapSingle(i, j => TransceiverCommand(Rpc.IOSXE, j));
  }
}
