/** interfaces/parser.go: the `show interface` accumulator (one record per interface header,
    RX/TX mode for NX-OS multicast counters) and the `show vlans` accumulator. */
module InterfacesParser {
  import opened Wrappers
  import opened Text
  import opened Util
  import Rpc

  /** interfaces/interface.go; the counters are float64 in the source and reals here. */
  datatype Interface = Interface(
    name: string, mac: string, description: string,
    adminStatus: string, operStatus: string,
    inputErrors: real, outputErrors: real,
    inputDrops: real, outputDrops: real,
    inputBytes: real, outputBytes: real,
    inputBroadcast: real, inputMulticast: real,
    speed: string)

  /** Go's zero value `Interface{}`. */
  const Empty: Interface := Interface("", "", "", "", "", 0.0, 0.0, 0.0, 0.0, 0.0, 0.0, 0.0, 0.0, "")

  /** A record with only its name set. */
  function Named(n: string): (it: Interface)
    ensures it.name == n && (it == Empty <==> n == "")
  {
    Empty.(name := n)
  }

  /** The field patterns of the else-if chain, as extractors of their capture groups: `status`
      gives the administratively group and the up/down word, `statusNX` the up/down word and the
      `(Administratively down)` group, `drops` input then output drops, `speed` the speed and its
      unit, `castsNX` multicast then broadcast, `castsXE` broadcast then multicast. */
  datatype Patterns = Patterns(
    status: string -> Option<(string, string)>,
    statusNX: string -> Option<(string, string)>,
    description: string -> Option<string>,
    mac: string -> Option<string>,
    drops: string -> Option<(string, string)>,
    inputBytes: string -> Option<string>,
    outputBytes: string -> Option<string>,
    inputErrors: string -> Option<string>,
    outputErrors: string -> Option<string>,
    speed: string -> Option<(string, string)>,
    castsNX: string -> Option<(string, string)>,
    castsXE: string -> Option<(string, string)>,
    castsIOS: string -> Option<string>)

  /** The field group each pattern of the chain sets (Tx sets only the RX/TX mode). */
  datatype Group = IosStatus | NxStatus | Description | Mac | Drops | InBytes | OutBytes
                 | InErrors | OutErrors | Speed | Tx | NxCasts | XeCasts | IosCasts

  predicate Lead(s: string) {
    StartsWith(s, " ") || StartsWith(s, "admin") || StartsWith(s, "show")
  }

  /** The newIf pattern `(?:^!?(?: |admin|show|.+#).*$|^$)`: a line that is NOT a header. With
      RE2's `.` excluding newline and `$` meaning end of text, it holds for the empty line and for
      a newline-free line that starts (after an optional '!') with a blank, "admin" or "show", or
      has a '#' after its first character. */
  predicate NewIf(line: string) {
    line == "" ||
    ('\n' !in line && (Lead(line) || (line[0] == '!' && Lead(line[1..])) || '#' in line[1..]))
  }

  /** The device-name pattern `^([a-zA-Z0-9\/\.-]+) is.*$`. */
  function DeviceName(line: string): (r: Option<string>)
    ensures r.Some? ==> |r.value| > 0 && StartsWith(line, r.value + " is") && '\n' !in line
    ensures r.Some? ==> forall k :: 0 <= k < |r.value| ==> IsNameChar(r.value[k])
  {
    var n := NameRun(line);
    if n > 0 && StartsWith(line[n..], " is") && '\n' !in line then
      assert line[..n] + " is" == line[..n + 3];
      Some(line[..n])
    else None
  }

  /** The NX-OS `^\s+TX$` pattern. */
  predicate IsTx(line: string) {
    var n := ReSpaceRun(line);
    n > 0 && line[n..] == "TX"
  }

  /** The first pattern of the chain that matches the line. */
  function FirstGroup(p: Patterns, line: string): Option<Group> {
    if p.status(line).Some? then Some(IosStatus)
    else if p.statusNX(line).Some? then Some(NxStatus)
    else if p.description(line).Some? then Some(Description)
    else if p.mac(line).Some? then Some(Mac)
    else if p.drops(line).Some? then Some(Drops)
    else if p.inputBytes(line).Some? then Some(InBytes)
    else if p.outputBytes(line).Some? then Some(OutBytes)
    else if p.inputErrors(line).Some? then Some(InErrors)
    else if p.outputErrors(line).Some? then Some(OutErrors)
    else if p.speed(line).Some? then Some(Speed)
    else if IsTx(line) then Some(Tx)
    else if p.castsNX(line).Some? then Some(NxCasts)
    else if p.castsXE(line).Some? then Some(XeCasts)
    else if p.castsIOS(line).Some? then Some(IosCasts)
    else None
  }

  /** b differs from a at most in the fields group g sets. */
  predicate SameExcept(a: Interface, b: Interface, g: Group) {
    && b.name == a.name
    && (!g.IosStatus? && !g.NxStatus? ==> b.adminStatus == a.adminStatus && b.operStatus == a.operStatus)
    && (!g.Description? ==> b.description == a.description)
    && (!g.Mac? ==> b.mac == a.mac)
    && (!g.Drops? ==> b.inputDrops == a.inputDrops && b.outputDrops == a.outputDrops)
    && (!g.InBytes? ==> b.inputBytes == a.inputBytes)
    && (!g.OutBytes? ==> b.outputBytes == a.outputBytes)
    && (!g.InErrors? ==> b.inputErrors == a.inputErrors)
    && (!g.OutErrors? ==> b.outputErrors == a.outputErrors)
    && (!g.Speed? ==> b.speed == a.speed)
    && (!g.NxCasts? && !g.XeCasts? ==> b.inputMulticast == a.inputMulticast)
    && (!g.NxCasts? && !g.XeCasts? && !g.IosCasts? ==> b.inputBroadcast == a.inputBroadcast)
  }

  /** The parser's state: finished records, the current record, and the RX/TX mode. */
  datatype State = State(items: seq<Interface>, current: Interface, isRx: bool)

  const Start: State := State([], Empty, true)

  function AdminWord(administratively: string): string {
    if administratively == "" then "up" else "down"
  }

  /** The else-if chain applied to the current record: only the first matching pattern's group
      changes, the TX line only leaves RX mode, and NX-OS casts are taken only in RX mode. */
  function Fields(p: Patterns, st: State, line: string): (r: State)
    ensures r.items == st.items
    ensures FirstGroup(p, line).None? ==> r == st
    ensures FirstGroup(p, line).Some? ==>
      SameExcept(st.current, r.current, FirstGroup(p, line).value) &&
      r.isRx == (st.isRx && FirstGroup(p, line) != Some(Tx))
    ensures FirstGroup(p, line) == Some(IosStatus) ==>
      r.current.adminStatus == AdminWord(p.status(line).value.0) && r.current.operStatus == p.status(line).value.1
    ensures FirstGroup(p, line) == Some(NxStatus) ==>
      r.current.adminStatus == AdminWord(p.statusNX(line).value.1) && r.current.operStatus == p.statusNX(line).value.0
    ensures FirstGroup(p, line) == Some(NxCasts) && !st.isRx ==> r == st
  {
    var c := st.current;
    if p.status(line).Some? then
      st.(current := c.(adminStatus := AdminWord(p.status(line).value.0), operStatus := p.status(line).value.1))
    else if p.statusNX(line).Some? then
      st.(current := c.(adminStatus := AdminWord(p.statusNX(line).value.1), operStatus := p.statusNX(line).value.0))
    else if p.description(line).Some? then st.(current := c.(description := p.description(line).value))
    else if p.mac(line).Some? then st.(current := c.(mac := p.mac(line).value))
    else if p.drops(line).Some? then
      st.(current := c.(inputDrops := Str2Float(p.drops(line).value.0), outputDrops := Str2Float(p.drops(line).value.1)))
    else if p.inputBytes(line).Some? then st.(current := c.(inputBytes := Str2Float(p.inputBytes(line).value)))
    else if p.outputBytes(line).Some? then st.(current := c.(outputBytes := Str2Float(p.outputBytes(line).value)))
    else if p.inputErrors(line).Some? then st.(current := c.(inputErrors := Str2Float(p.inputErrors(line).value)))
    else if p.outputErrors(line).Some? then st.(current := c.(outputErrors := Str2Float(p.outputErrors(line).value)))
    else if p.speed(line).Some? then st.(current := c.(speed := p.speed(line).value.0 + " " + p.speed(line).value.1))
    else if IsTx(line) then st.(isRx := false)
    else if p.castsNX(line).Some? then
      if st.isRx then
        st.(current := c.(inputMulticast := Str2Float(p.castsNX(line).value.0),
                          inputBroadcast := Str2Float(p.castsNX(line).value.1)))
      else st
    else if p.castsXE(line).Some? then
      st.(current := c.(inputBroadcast := Str2Float(p.castsXE(line).value.0),
                        inputMulticast := Str2Float(p.castsXE(line).value.1)))
    else if p.castsIOS(line).Some? then st.(current := c.(inputBroadcast := Str2Float(p.castsIOS(line).value)))
    else st
  }

  /** The finished records plus the current one when it is not the zero record. */
  function Flushed(st: State): seq<Interface> {
    if st.current != Empty then st.items + [st.current] else st.items
  }

  /** One line of the loop. */
  function Step(p: Patterns, st: State, line: string): State {
    if !NewIf(line) then
      match DeviceName(line)
      case None => st.(items := Flushed(st))
      case Some(n) => Fields(p, State(Flushed(st), Named(n), true), line)
    else if st.current == Empty then st
    else Fields(p, st, line)
  }

  function Run(p: Patterns, st: State, lines: seq<string>): State {
    if |lines| == 0 then st else Step(p, Run(p, st, lines[..|lines| - 1]), lines[|lines| - 1])
  }

  /** Parse's answer on a supported OS: the records, followed by the current one in every case. */
  function Parsed(p: Patterns, lines: seq<string>): (r: seq<Interface>)
    ensures |r| >= 1 && r[|r| - 1] == Run(p, Start, lines).current
  {
    var st := Run(p, Start, lines);
    st.items + [st.current]
  }

  function NotImplemented(osType: string): string {
    "'show interface' is not implemented for " + osType
  }

  method Parse(p: Patterns, osType: string, output: string) returns (r: Result<seq<Interface>>)
    ensures !Rpc.Known(osType) ==> r == Err(NotImplemented(osType))
    ensures Rpc.Known(osType) ==> r == Ok(Parsed(p, Split(output, '\n')))
  {
    if osType != Rpc.IOSXE && osType != Rpc.NXOS && osType != Rpc.IOS {
      return Err(NotImplemented(osType));
    }
    var items: seq<Interface> := [];
    var isRx := true;
    var current := Empty;
    var lines := Split(output, '\n');
    for i := 0 to |lines|
      invariant State(items, current, isRx) == Run(p, Start, lines[..i])
    {
      assert lines[..i + 1][..i] == lines[..i];
      var line := lines[i];
      assert Run(p, Start, lines[..i + 1]) == Step(p, State(items, current, isRx), line);
      if !NewIf(line) {
        if current != Empty {
          items := items + [current];
        }
        var name := DeviceName(line);
        if name.None? {
          continue;
        }
        current := Named(name.value);
        isRx := true;
      }
      if current == Empty {
        continue;
      }
      if p.status(line).Some? {
        var m := p.status(line).value;
        current := current.(adminStatus := if m.0 == "" then "up" else "down", operStatus := m.1);
      } else if p.statusNX(line).Some? {
        var m := p.statusNX(line).value;
        current := current.(adminStatus := if m.1 == "" then "up" else "down", operStatus := m.0);
      } else if p.description(line).Some? {
        current := current.(description := p.description(line).value);
      } else if p.mac(line).Some? {
        current := current.(mac := p.mac(line).value);
      } else if p.drops(line).Some? {
        var m := p.drops(line).value;
        current := current.(inputDrops := Str2Float(m.0), outputDrops := Str2Float(m.1));
      } else if p.inputBytes(line).Some? {
        current := current.(inputBytes := Str2Float(p.inputBytes(line).value));
      } else if p.outputBytes(line).Some? {
        current := current.(outputBytes := Str2Float(p.outputBytes(line).value));
      } else if p.inputErrors(line).Some? {
        current := current.(inputErrors := Str2Float(p.inputErrors(line).value));
      } else if p.outputErrors(line).Some? {
        current := current.(outputErrors := Str2Float(p.outputErrors(line).value));
      } else if p.speed(line).Some? {
        var m := p.speed(line).value;
        current := current.(speed := m.0 + " " + m.1);
      } else if IsTx(line) {
        isRx := false;
      } else if p.castsNX(line).Some? {
        if isRx {
          var m := p.castsNX(line).value;
          current := current.(inputMulticast := Str2Float(m.0), inputBroadcast := Str2Float(m.1));
        }
      } else if p.castsXE(line).Some? {
        var m := p.castsXE(line).value;
        current := current.(inputBroadcast := Str2Float(m.0), inputMulticast := Str2Float(m.1));
      } else if p.castsIOS(line).Some? {
        current := current.(inputBroadcast := Str2Float(p.castsIOS(line).value));
      }
    }
    assert lines[..|lines|] == lines;
    return Ok(items + [current]);
  }

  lemma {:induction false} RunAppend(p: Patterns, st: State, a: seq<string>, b: seq<string>)
    ensures Run(p, st, a + b) == Run(p, Run(p, st, a), b)
    decreases |b|
  {
    if |b| == 0 {
      assert a + b == a;
    } else {
      var b' := b[..|b| - 1];
      assert (a + b)[..|a + b| - 1] == a + b';
      RunAppend(p, st, a, b');
    }
  }

  /** Lines before the first interface header leave the parser where it started. */
  lemma {:induction false} PreambleStaysAtStart(p: Patterns, pre: seq<string>)
    requires forall k :: 0 <= k < |pre| ==> NewIf(pre[k]) || DeviceName(pre[k]).None?
    ensures Run(p, Start, pre) == Start
  {
    if |pre| > 0 {
      PreambleStaysAtStart(p, pre[..|pre| - 1]);
    }
  }

  /** Lines before the first interface header do not affect the result. */
  lemma PreambleIgnored(p: Patterns, pre: seq<string>, rest: seq<string>)
    requires forall k :: 0 <= k < |pre| ==> NewIf(pre[k]) || DeviceName(pre[k]).None?
    ensures Parsed(p, pre + rest) == Parsed(p, rest)
  {
    RunAppend(p, Start, pre, rest);
    PreambleStaysAtStart(p, pre);
  }

  /** A header line with a device name flushes a non-zero current record, starts a record with only
      that name, re-enters RX mode, and is then still matched against the field patterns. A header
      line without a device name also flushes the current record, keeps it as the current one, and
      is not matched against the field patterns. */
  lemma HeaderLine(p: Patterns, st: State, line: string)
    requires !NewIf(line)
    ensures Step(p, st, line).items == (if st.current != Empty then st.items + [st.current] else st.items)
    ensures DeviceName(line).Some? ==>
      var r := Step(p, st, line);
      && r.current.name == DeviceName(line).value
      && (FirstGroup(p, line).None? ==> r.current == Named(DeviceName(line).value) && r.isRx)
      && (FirstGroup(p, line).Some? ==> SameExcept(Named(DeviceName(line).value), r.current, FirstGroup(p, line).value))
      && (r.isRx <==> FirstGroup(p, line) != Some(Tx))
    ensures DeviceName(line).None? ==> Step(p, st, line).current == st.current && Step(p, st, line).isRx == st.isRx
  {
  }

  /** A non-header line changes nothing while no interface has started, and otherwise changes only
      the current record's group of the first matching pattern. */
  lemma BodyLine(p: Patterns, st: State, line: string)
    requires NewIf(line)
    ensures st.current == Empty ==> Step(p, st, line) == st
    ensures Step(p, st, line).items == st.items
    ensures FirstGroup(p, line).Some? ==> SameExcept(st.current, Step(p, st, line).current, FirstGroup(p, line).value)
    ensures FirstGroup(p, line).None? ==> Step(p, st, line) == st
  {
  }

  /** Between a TX line and the next header the parser stays in TX mode, so the multicast and
      broadcast counters change only through the IOS-XE and IOS patterns, never the NX-OS one. */
  lemma {:induction false} TxGating(p: Patterns, st: State, rest: seq<string>)
    requires !st.isRx
    requires forall k :: 0 <= k < |rest| ==> NewIf(rest[k])
    requires forall k :: 0 <= k < |rest| ==> FirstGroup(p, rest[k]) != Some(XeCasts) && FirstGroup(p, rest[k]) != Some(IosCasts)
    ensures !Run(p, st, rest).isRx
    ensures Run(p, st, rest).items == st.items
    ensures Run(p, st, rest).current.name == st.current.name
    ensures Run(p, st, rest).current.inputMulticast == st.current.inputMulticast
    ensures Run(p, st, rest).current.inputBroadcast == st.current.inputBroadcast
    decreases |rest|
  {
    if |rest| > 0 {
      var pre := rest[..|rest| - 1];
      TxGating(p, st, pre);
      BodyLine(p, Run(p, st, pre), rest[|rest| - 1]);
    }
  }

  // ---- show vlans ----

  /** The `show vlans` patterns: the sub-interface name, and the input and output byte totals. */
  datatype VlanPatterns = VlanPatterns(
    name: string -> Option<string>,
    inputBytes: string -> Option<string>,
    outputBytes: string -> Option<string>)

  datatype Acc = Acc(items: seq<Interface>, current: Interface)

  /** A VLAN record sets only its name and its byte counters. */
  predicate VlanShaped(it: Interface) {
    Empty.(name := it.name, inputBytes := it.inputBytes, outputBytes := it.outputBytes) == it
  }

  function VlanStep(vp: VlanPatterns, acc: Acc, line: string): (r: Acc)
    ensures vp.name(line).Some? ==>
      r.items == (if acc.current != Empty then acc.items + [acc.current] else acc.items) &&
      r.current.name == vp.name(line).value
    ensures vp.name(line).None? ==> r.items == acc.items && r.current.name == acc.current.name
    ensures vp.name(line).None? && acc.current == Empty ==> r == acc
    ensures VlanShaped(acc.current) ==> VlanShaped(r.current)
  {
    var a := if vp.name(line).Some? then
        Acc(if acc.current != Empty then acc.items + [acc.current] else acc.items, Named(vp.name(line).value))
      else acc;
    if a.current == Empty then a
    else if vp.inputBytes(line).Some? then a.(current := a.current.(inputBytes := Str2Float(vp.inputBytes(line).value)))
    else if vp.outputBytes(line).Some? then a.(current := a.current.(outputBytes := Str2Float(vp.outputBytes(line).value)))
    else a
  }

  function VlanRun(vp: VlanPatterns, acc: Acc, lines: seq<string>): Acc {
    if |lines| == 0 then acc else VlanStep(vp, VlanRun(vp, acc, lines[..|lines| - 1]), lines[|lines| - 1])
  }

  function Vlans(vp: VlanPatterns, lines: seq<string>): (r: seq<Interface>)
    ensures |r| >= 1
  {
    var acc := VlanRun(vp, Acc([], Empty), lines);
    acc.items + [acc.current]
  }

  function VlansNotImplemented(osType: string): string {
    "'show vlans' is not implemented for " + osType
  }

  method ParseVlans(vp: VlanPatterns, osType: string, output: string) returns (r: Result<seq<Interface>>)
    ensures osType != Rpc.IOSXE ==> r == Err(VlansNotImplemented(osType))
    ensures osType == Rpc.IOSXE ==> r == Ok(Vlans(vp, Split(output, '\n')))
  {
    if osType != Rpc.IOSXE {
      return Err(VlansNotImplemented(osType));
    }
    var items: seq<Interface> := [];
    var current := Empty;
    var lines := Split(output, '\n');
    for i := 0 to |lines|
      invariant Acc(items, current) == VlanRun(vp, Acc([], Empty), lines[..i])
    {
      assert lines[..i + 1][..i] == lines[..i];
      var line := lines[i];
      var name := vp.name(line);
      if name.Some? {
        if current != Empty {
          items := items + [current];
        }
        current := Named(name.value);
      }
      if current == Empty {
        continue;
      }
      if vp.inputBytes(line).Some? {
        current := current.(inputBytes := Str2Float(vp.inputBytes(line).value));
      } else if vp.outputBytes(line).Some? {
        current := current.(outputBytes := Str2Float(vp.outputBytes(line).value));
      }
    }
    assert lines[..|lines|] == lines;
    return Ok(items + [current]);
  }

  lemma {:induction false} VlanRunAppend(vp: VlanPatterns, acc: Acc, a: seq<string>, b: seq<string>)
    ensures VlanRun(vp, acc, a + b) == VlanRun(vp, VlanRun(vp, acc, a), b)
    decreases |b|
  {
    if |b| == 0 {
      assert a + b == a;
    } else {
      var b' := b[..|b| - 1];
      assert (a + b)[..|a + b| - 1] == a + b';
      VlanRunAppend(vp, acc, a, b');
    }
  }

  lemma {:induction false} VlanPreambleStaysAtStart(vp: VlanPatterns, pre: seq<string>)
    requires forall k :: 0 <= k < |pre| ==> vp.name(pre[k]).None?
    ensures VlanRun(vp, Acc([], Empty), pre) == Acc([], Empty)
  {
    if |pre| > 0 {
      VlanPreambleStaysAtStart(vp, pre[..|pre| - 1]);
    }
  }

  /** Lines before the first sub-interface header do not affect the VLAN list. */
  lemma VlanPreambleIgnored(vp: VlanPatterns, pre: seq<string>, rest: seq<string>)
    requires forall k :: 0 <= k < |pre| ==> vp.name(pre[k]).None?
    ensures Vlans(vp, pre + rest) == Vlans(vp, rest)
  {
    VlanRunAppend(vp, Acc([], Empty), pre, rest);
    VlanPreambleStaysAtStart(vp, pre);
  }

  lemma {:induction false} VlanRunShaped(vp: VlanPatterns, lines: seq<string>)
    ensures var acc := VlanRun(vp, Acc([], Empty), lines);
      VlanShaped(acc.current) && forall k :: 0 <= k < |acc.items| ==> VlanShaped(acc.items[k])
  {
    if |lines| > 0 {
      VlanRunShaped(vp, lines[..|lines| - 1]);
    }
  }

  /** Every VLAN record carries a name and byte counters and nothing else. */
  lemma VlansShaped(vp: VlanPatterns, lines: seq<string>)
    ensures forall k :: 0 <= k < |Vlans(vp, lines)| ==> VlanShaped(Vlans(vp, lines)[k])
  {
    VlanRunShaped(vp, lines);
  }
}
