/** bgp/parser.go: BGP sessions from the output of "show bgp all summary". */
module BgpParser {
  import opened Wrappers
  import opened Text
  import opened Util
  import opened Lines
  import Rpc

  datatype BgpSession = BgpSession(
    ip: string, asn: string, up: bool,
    receivedPrefixes: real, inputMessages: real, outputMessages: real)

  /** The captures of the neighbor-row pattern: neighbor address, AS number, messages received,
      messages sent, and the last column, a prefix count or a session state such as "Idle". */
  datatype NeighborRow = NeighborRow(ip: string, asn: string, input: string, output: string, last: string)

  /** The session one row describes: the last column is parsed as a number; a negative value,
      which includes the -1 of a state name, marks the session down with no prefixes. */
  function SessionOf(row: NeighborRow): (s: BgpSession)
    ensures s.ip == row.ip && s.asn == row.asn
    ensures s.up <==> Str2Float(row.last) >= 0.0
    ensures s.up ==> s.receivedPrefixes == Str2Float(row.last)
    ensures !s.up ==> s.receivedPrefixes == 0.0
    ensures s.receivedPrefixes >= 0.0
    ensures s.inputMessages == Str2Float(row.input) && s.outputMessages == Str2Float(row.output)
  {
    var pref := Str2Float(row.last);
    var up := !(pref < 0.0);
    BgpSession(row.ip, row.asn, up, if up then pref else 0.0, Str2Float(row.input), Str2Float(row.output))
  }

  /** The session of one line, when the row pattern (an extractor given as a parameter) matches. */
  function SessionLine(rowOf: string -> Option<NeighborRow>, line: string): Option<BgpSession> {
    if rowOf(line).Some? then Some(SessionOf(rowOf(line).value)) else None
  }

  /** The sessions of a sequence of lines, one per matching line, in line order. */
  function Sessions(rowOf: string -> Option<NeighborRow>, lines: seq<string>): seq<BgpSession> {
    FilterMap(lines, l => SessionLine(rowOf, l))
  }

  /** The error for an OS type other than IOS XE. */
  function Unsupported(osType: string): string {
    "'show bgp all summary' is not implemented for " + osType
  }

  /** Parse: IOS XE output yields the sessions of its lines and never an error; any other OS type
      yields the error and no sessions. */
  method Parse(osType: string, output: string, rowOf: string -> Option<NeighborRow>)
    returns (r: Result<seq<BgpSession>>)
    ensures osType != Rpc.IOSXE ==> r == Err(Unsupported(osType))
    ensures osType == Rpc.IOSXE ==> r == Ok(Sessions(rowOf, Split(output, '\n')))
  {
    if osType != Rpc.IOSXE {
      return Err(Unsupported(osType));
    }
    var items: seq<BgpSession> := [];
    var lines := Split(output, '\n');
    for i := 0 to |lines|
      invariant items == Sessions(rowOf, lines[..i])
    {
      assert lines[..i + 1][..i] == lines[..i];
      var m := rowOf(lines[i]);
      if m.None? {
        continue;
      }
      var pref := Str2Float(m.value.last);
      var up := true;
      if pref < 0.0 {
        pref := 0.0;
        up := false;
      }
      var item := BgpSession(m.value.ip, m.value.asn, up, pref, Str2Float(m.value.input), Str2Float(m.value.output));
      items := items + [item];
    }
    assert lines[..|lines|] == lines;
    return Ok(items);
  }

  /** One session per matching line, in line order: the sessions of two blocks of lines are those
      of the first followed by those of the second, and a line contributes its own row's session
      or nothing. */
  lemma SessionsPerLine(rowOf: string -> Option<NeighborRow>, a: seq<string>, b: seq<string>, line: string)
    ensures Sessions(rowOf, a + b) == Sessions(rowOf, a) + Sessions(rowOf, b)
    ensures Sessions(rowOf, [line]) == (if rowOf(line).Some? then [SessionOf(rowOf(line).value)] else [])
  {
    FilterMapAppend(a, b, l => SessionLine(rowOf, l));
    FilterMapSingle(line, l => SessionLine(rowOf, l));
  }

  /** Every session comes from a matching line, and none is up with a negative prefix count. */
  lemma SessionsFromRows(rowOf: string -> Option<NeighborRow>, lines: seq<string>, s: BgpSession)
    requires s in Sessions(rowOf, lines)
    ensures exists i :: 0 <= i < |lines| && rowOf(lines[i]).Some? && s == SessionOf(rowOf(lines[i]).value)
    ensures s.receivedPrefixes >= 0.0
  {
    FilterMapFrom(lines, l => SessionLine(rowOf, l), s);
  }

  /** A row whose last column holds a state name instead of a count is a down session. */
  lemma StateNameIsDown(row: NeighborRow)
    requires forall k :: 0 <= k < |row.last| ==> !IsDigit(row.last[k])
    ensures !SessionOf(row).up && SessionOf(row).receivedPrefixes == 0.0
  {
    NoDigitsIsSentinel(row.last);
  }
}
