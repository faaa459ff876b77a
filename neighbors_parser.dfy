/** neighbors/parser.go: interface lists and per-interface neighbor counts by state (ARP and IPv6
    neighbor discovery). */
module NeighborsParser {
  import opened Wrappers
  import opened Text
  import opened Lines

  /** The neighbor counters of one interface, all starting at zero. */
  datatype InterfaceNeighbors = InterfaceNeighbors(incomplete: nat, reachable: nat, stale: nat, delay: nat, probe: nat)

  const Zero := InterfaceNeighbors(0, 0, 0, 0, 0)

  /** \d+(\.\d+){groups-1} at the start of t. */
  predicate DottedDigits(t: string, groups: nat)
    decreases groups
  {
    var a := DigitRun(t);
    a > 0 && (groups <= 1 || (a < |t| && t[a] == '.' && DottedDigits(t[a + 1..], groups - 1)))
  }

  /** After the first n characters of line, whitespace and then a dotted quad. */
  predicate AddressAfter(line: string, n: nat)
    requires n <= |line|
  {
    var w := ReSpaceRun(line[n..]);
    w > 0 && DottedDigits(line[n + w..], 4)
  }

  /** `^([a-zA-Z0-9\/\.-]+)\s+\d+\.\d+\.\d+\.\d+`: a name, whitespace, then a dotted quad. */
  function IPv4Interface(line: string): (r: Option<string>)
    ensures r.Some? ==> |r.value| > 0 && StartsWith(line, r.value)
    ensures r.Some? <==> NameRun(line) > 0 && AddressAfter(line, NameRun(line))
  {
    var n := NameRun(line);
    if n > 0 && AddressAfter(line, n) then Some(line[..n]) else None
  }

  /** ParseInterfacesIPv4: the name of every line listing an address, in line order; never an error. */
  method ParseInterfacesIPv4(osType: string, output: string) returns (r: Result<seq<string>>)
    ensures r == Ok(FilterMap(Split(output, '\n'), IPv4Interface))
  {
    var items: seq<string> := [];
    var lines := Split(output, '\n');
    for i := 0 to |lines|
      invariant items == FilterMap(lines[..i], IPv4Interface)
    {
      assert lines[..i + 1][..i] == lines[..i];
      var matches := IPv4Interface(lines[i]);
      if matches.None? {
        continue;
      }
      items := items + [matches.value];
    }
    assert lines[..|lines|] == lines;
    return Ok(items);
  }

  /** `^([a-zA-Z0-9\/\.-]+)\s+`: a line that starts with an interface name and whitespace. */
  function IPv6Name(line: string): (r: Option<string>)
    ensures r.Some? ==> |r.value| > 0 && StartsWith(line, r.value)
    ensures r.Some? <==> NameRun(line) > 0 && ReSpaceRun(line[NameRun(line)..]) > 0
  {
    var n := NameRun(line);
    if n > 0 && ReSpaceRun(line[n..]) > 0 then Some(line[..n]) else None
  }

  /** The names the pending-name loop emits from state pending over lines: a non-name line emits
      the pending name unless it says "unassigned", and clears it; a name line replaces it. */
  function Pending(pending: string, lines: seq<string>): seq<string>
    decreases |lines|
  {
    if |lines| == 0 then []
    else
      var line := lines[0];
      if IPv6Name(line).None? then
        (if |pending| > 0 && !Contains(line, "unassigned") then [pending] else []) + Pending("", lines[1..])
      else Pending(IPv6Name(line).value, lines[1..])
  }

  /** Reference reading: a name is listed iff its line is directly followed by a line that is not a
      name line and does not contain "unassigned". */
  function Addressed(lines: seq<string>): seq<string>
    decreases |lines|
  {
    if |lines| < 2 then []
    else
      (if IPv6Name(lines[0]).Some? && IPv6Name(lines[1]).None? && !Contains(lines[1], "unassigned")
       then [IPv6Name(lines[0]).value] else []) + Addressed(lines[1..])
  }

  /** The loop from a pending name emits it first when the next line qualifies, then exactly the
      addressed names. */
  lemma {:induction false} PendingIsAddressed(pending: string, lines: seq<string>)
    ensures Pending(pending, lines) ==
      (if |lines| > 0 && |pending| > 0 && IPv6Name(lines[0]).None? && !Contains(lines[0], "unassigned")
       then [pending] else []) + Addressed(lines)
    decreases |lines|
  {
    if |lines| > 0 {
      var line := lines[0];
      PendingIsAddressed("", lines[1..]);
      if IPv6Name(line).Some? {
        PendingIsAddressed(IPv6Name(line).value, lines[1..]);
        if |lines| == 1 {
        } else {
          assert lines[1..][0] == lines[1];
        }
      } else {
        if |lines| >= 2 {
          assert Addressed(lines) == Addressed(lines[1..]);
        }
      }
    }
  }

  /** ParseInterfacesIPv6: the pending-name machine; never an error. */
  method ParseInterfacesIPv6(osType: string, output: string) returns (r: Result<seq<string>>)
    ensures r == Ok(Addressed(Split(output, '\n')))
  {
    var items: seq<string> := [];
    var lines := Split(output, '\n');
    var deviceName := "";
    PendingIsAddressed("", lines);
    for i := 0 to |lines|
      invariant items + Pending(deviceName, lines[i..]) == Addressed(lines)
    {
      assert lines[i..][1..] == lines[i + 1..];
      var matches := IPv6Name(lines[i]);
      if matches.None? {
        if |deviceName| > 0 {
          if !Contains(lines[i], "unassigned") {
            items := items + [deviceName];
          }
        }
        deviceName := "";
      } else {
        deviceName := matches.value;
      }
    }
    assert lines[|lines|..] == [];
    assert items + [] == items;
    return Ok(items);
  }

  /** The counting of one state word: IPv4 knows Incomplete and Dynamic (reachable); Interface
      and anything else change nothing. */
  function BumpV4(c: InterfaceNeighbors, state: string): (r: InterfaceNeighbors)
    ensures state == "Incomplete" ==> r == c.(incomplete := c.incomplete + 1)
    ensures state == "Dynamic" ==> r == c.(reachable := c.reachable + 1)
    ensures state != "Incomplete" && state != "Dynamic" ==> r == c
  {
    if state == "Incomplete" then c.(incomplete := c.incomplete + 1)
    else if state == "Dynamic" then c.(reachable := c.reachable + 1)
    else c
  }

  /** IPv6 knows INCOM, REACH, STALE, DELAY and PROBE; other states change nothing. */
  function BumpV6(c: InterfaceNeighbors, state: string): (r: InterfaceNeighbors)
    ensures state == "INCOM" ==> r == c.(incomplete := c.incomplete + 1)
    ensures state == "REACH" ==> r == c.(reachable := c.reachable + 1)
    ensures state == "STALE" ==> r == c.(stale := c.stale + 1)
    ensures state == "DELAY" ==> r == c.(delay := c.delay + 1)
    ensures state == "PROBE" ==> r == c.(probe := c.probe + 1)
    ensures state !in {"INCOM", "REACH", "STALE", "DELAY", "PROBE"} ==> r == c
  {
    if state == "INCOM" then c.(incomplete := c.incomplete + 1)
    else if state == "REACH" then c.(reachable := c.reachable + 1)
    else if state == "STALE" then c.(stale := c.stale + 1)
    else if state == "DELAY" then c.(delay := c.delay + 1)
    else if state == "PROBE" then c.(probe := c.probe + 1)
    else c
  }

  /** A neighbor row: its state word and the interface it was learned on, as the line names it. */
  datatype NeighborRow = NeighborRow(state: string, iface: string)

  function MissingV4(name: string): string {
    "Interface " + name + " found in ARP but not 'sh ip int brie' command"
  }

  function MissingV6(name: string): string {
    "Interface " + name + " found in ipv6 neighbors but not 'show ipv6 interface brief' command"
  }

  /** The counters after the ARP lines, and the error that stopped the count, if any; the counts
      of the lines before the error stay applied. */
  function CountV4(data: map<string, InterfaceNeighbors>, row: string -> Option<NeighborRow>, lines: seq<string>)
    : (r: (map<string, InterfaceNeighbors>, Option<string>))
    ensures r.0.Keys == data.Keys
    decreases |lines|
  {
    if |lines| == 0 then (data, None)
    else
      var m := row(lines[0]);
      if m.None? then CountV4(data, row, lines[1..])
      else if m.value.iface !in data then (data, Some(MissingV4(m.value.iface)))
      else CountV4(data[m.value.iface := BumpV4(data[m.value.iface], m.value.state)], row, lines[1..])
  }

  /** The counters after the IPv6 neighbor lines; a row's short interface name is expanded first
      (an abstract helper that may fail), and the error of a missing interface names it short. */
  function CountV6(data: map<string, InterfaceNeighbors>, row: string -> Option<NeighborRow>,
                   shortToLong: string -> Result<string>, lines: seq<string>)
    : (r: (map<string, InterfaceNeighbors>, Option<string>))
    ensures r.0.Keys == data.Keys
    decreases |lines|
  {
    if |lines| == 0 then (data, None)
    else
      var m := row(lines[0]);
      if m.None? then CountV6(data, row, shortToLong, lines[1..])
      else
        var long := shortToLong(m.value.iface);
        if long.Err? then (data, Some(long.error))
        else if long.value !in data then (data, Some(MissingV6(m.value.iface)))
        else CountV6(data[long.value := BumpV6(data[long.value], m.value.state)], row, shortToLong, lines[1..])
  }

  /** No line naming an interface means its counters are unchanged. */
  lemma {:induction false} CountV4OnlyNamed(data: map<string, InterfaceNeighbors>, row: string -> Option<NeighborRow>,
                                            lines: seq<string>, k: string)
    requires k in data
    requires forall i :: 0 <= i < |lines| && row(lines[i]).Some? ==> row(lines[i]).value.iface != k
    ensures CountV4(data, row, lines).0[k] == data[k]
    decreases |lines|
  {
    if |lines| > 0 {
      var m := row(lines[0]);
      assert forall i :: 0 <= i < |lines[1..]| ==> lines[1..][i] == lines[i + 1];
      if m.None? {
        CountV4OnlyNamed(data, row, lines[1..], k);
      } else if m.value.iface in data {
        CountV4OnlyNamed(data[m.value.iface := BumpV4(data[m.value.iface], m.value.state)], row, lines[1..], k);
      }
    }
  }

  lemma {:induction false} CountV6OnlyNamed(data: map<string, InterfaceNeighbors>, row: string -> Option<NeighborRow>,
                                            shortToLong: string -> Result<string>, lines: seq<string>, k: string)
    requires k in data
    requires forall i :: 0 <= i < |lines| && row(lines[i]).Some? && shortToLong(row(lines[i]).value.iface).Ok? ==>
      shortToLong(row(lines[i]).value.iface).value != k
    ensures CountV6(data, row, shortToLong, lines).0[k] == data[k]
    decreases |lines|
  {
    if |lines| > 0 {
      var m := row(lines[0]);
      assert forall i :: 0 <= i < |lines[1..]| ==> lines[1..][i] == lines[i + 1];
      if m.None? {
        CountV6OnlyNamed(data, row, shortToLong, lines[1..], k);
      } else {
        var long := shortToLong(m.value.iface);
        if long.Ok? && long.value in data {
          CountV6OnlyNamed(data[long.value := BumpV6(data[long.value], m.value.state)], row, shortToLong, lines[1..], k);
        }
      }
    }
  }

  /** The first row naming an interface that is not in the map stops the count with that error. */
  lemma {:induction false} CountV4StopsAtMissing(data: map<string, InterfaceNeighbors>, row: string -> Option<NeighborRow>,
                                                 lines: seq<string>, i: nat)
    requires i < |lines| && row(lines[i]).Some? && row(lines[i]).value.iface !in data
    requires forall j :: 0 <= j < i && row(lines[j]).Some? ==> row(lines[j]).value.iface in data
    ensures CountV4(data, row, lines).1 == Some(MissingV4(row(lines[i]).value.iface))
    decreases i
  {
    if i > 0 {
      var m := row(lines[0]);
      assert forall j :: 0 <= j < |lines[1..]| ==> lines[1..][j] == lines[j + 1];
      var next := if m.None? then data else data[m.value.iface := BumpV4(data[m.value.iface], m.value.state)];
      assert next.Keys == data.Keys;
      CountV4StopsAtMissing(next, row, lines[1..], i - 1);
    }
  }

  /** The counter table the parse functions update in place. */
  class NeighborTable {
    var data: map<string, InterfaceNeighbors>

    constructor (data: map<string, InterfaceNeighbors>)
      ensures this.data == data
    {
      this.data := data;
    }

    /** ParseIPv4Neighbors: count the ARP entries of each interface by state. */
    method ParseIPv4Neighbors(osType: string, output: string, row: string -> Option<NeighborRow>)
      returns (err: Option<string>)
      modifies this
      ensures (data, err) == CountV4(old(data), row, Split(output, '\n'))
    {
      var lines := Split(output, '\n');
      for i := 0 to |lines|
        invariant CountV4(old(data), row, lines) == CountV4(data, row, lines[i..])
      {
        assert lines[i..][1..] == lines[i + 1..];
        var matches := row(lines[i]);
        if matches.None? {
          continue;
        }
        if matches.value.iface !in data {
          return Some(MissingV4(matches.value.iface));
        }
        data := data[matches.value.iface := BumpV4(data[matches.value.iface], matches.value.state)];
      }
      return None;
    }

    /** ParseIPv6Neighbors: count the neighbor-discovery entries of each interface by state. */
    method ParseIPv6Neighbors(osType: string, output: string, row: string -> Option<NeighborRow>,
                              shortToLong: string -> Result<string>)
      returns (err: Option<string>)
      modifies this
      ensures (data, err) == CountV6(old(data), row, shortToLong, Split(output, '\n'))
    {
      var lines := Split(output, '\n');
      for i := 0 to |lines|
        invariant CountV6(old(data), row, shortToLong, lines) == CountV6(data, row, shortToLong, lines[i..])
      {
        assert lines[i..][1..] == lines[i + 1..];
        var matches := row(lines[i]);
        if matches.None? {
          continue;
        }
        var ifaceName := shortToLong(matches.value.iface);
        if ifaceName.Err? {
          return Some(ifaceName.error);
        }
        if ifaceName.value !in data {
          return Some(MissingV6(matches.value.iface));
        }
        data := data[ifaceName.value := BumpV6(data[ifaceName.value], matches.value.state)];
      }
      return None;
    }
  }
}
