/** optics/parser.go: interface names from the interface listing and transceiver power readings. */
module OpticsParser {
  import opened Wrappers
  import opened Text
  import opened Util
  import opened Lines
  import Rpc

  /** The readings the collector uses; the other fields of the record are never set. */
  datatype Optics = Optics(txPower: real, rxPower: real)

  /** The name the pattern `^([a-zA-Z0-9\/\.-]+)\s*` captures: the maximal leading run of name
      characters, when the line starts with one. */
  function InterfaceName(line: string): (r: Option<string>)
    ensures r.Some? <==> |line| > 0 && IsNameChar(line[0])
    ensures r.Some? ==> |r.value| > 0 && StartsWith(line, r.value)
    ensures r.Some? ==> forall k :: 0 <= k < |r.value| ==> IsNameChar(r.value[k])
    ensures r.Some? && |r.value| < |line| ==> !IsNameChar(line[|r.value|])
  {
    var n := NameRun(line);
    if n > 0 then Some(line[..n]) else None
  }

  function Names(lines: seq<string>): seq<string> {
    FilterMap(lines, InterfaceName)
  }

  method ParseInterfaces(osType: string, output: string) returns (r: Result<seq<string>>)
    ensures !Rpc.Known(osType) ==> r == Err("'show interfaces stats' is not implemented for " + osType)
    ensures Rpc.Known(osType) ==> r == Ok(Names(Split(output, '\n')))
  {
    if osType != Rpc.IOSXE && osType != Rpc.NXOS && osType != Rpc.IOS {
      return Err("'show interfaces stats' is not implemented for " + osType);
    }
    var items: seq<string> := [];
    var lines := Split(output, '\n');
    for i := 0 to |lines|
      invariant items == Names(lines[..i])
    {
      assert lines[..i + 1][..i] == lines[..i];
      var matches := InterfaceName(lines[i]);
      if matches.None? {
        continue;
      }
      items := items + [matches.value];
    }
    assert lines[..|lines|] == lines;
    return Ok(items);
  }

  /** The names are those of the lines starting with a name character, in line order, each the
      line's leading run; a line starting with any other character, such as a space, adds nothing. */
  lemma NamesPerLine(a: seq<string>, b: seq<string>, line: string)
    ensures Names(a + b) == Names(a) + Names(b)
    ensures |line| > 0 && IsNameChar(line[0]) ==> Names([line]) == [line[..NameRun(line)]]
    ensures (|line| == 0 || !IsNameChar(line[0])) ==> Names([line]) == []
  {
    FilterMapAppend(a, b, InterfaceName);
    FilterMapSingle(line, InterfaceName);
  }

  /** ParseTransceiver: the OS type's transceiver pattern is matched against the whole output;
      Tx power comes from its first capture and Rx power from its second. */
  function ParseTransceiver(osType: string, output: string, pattern: (string, string) -> Option<(string, string)>)
    : (r: Result<Optics>)
    ensures !Rpc.Known(osType) ==> r == Err("Transceiver data is not implemented for " + osType)
    ensures Rpc.Known(osType) && pattern(osType, output).None? ==> r == Err("Transceiver not found")
    ensures Rpc.Known(osType) && pattern(osType, output).Some? ==>
      r == Ok(Optics(Str2Float(pattern(osType, output).value.0), Str2Float(pattern(osType, output).value.1)))
  {
    if !Rpc.Known(osType) then Err("Transceiver data is not implemented for " + osType)
    else
      var m := pattern(osType, output);
      if m.None? then Err("Transceiver not found")
      else Ok(Optics(Str2Float(m.value.0), Str2Float(m.value.1)))
  }
}
