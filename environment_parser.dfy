/** environment/parser.go: temperature sensors and power supplies from "show environment". */
module EnvironmentParser {
  import opened Wrappers
  import opened Text
  import opened Util
  import opened Lines
  import Rpc

  datatype EnvironmentItem = EnvironmentItem(
    name: string, status: string, ok: bool, isTemp: bool, isFan: bool, temperature: real)

  /** The named captures of a temperature row. Only the IOS XE pattern has a state group. */
  datatype TempMatch = TempMatch(location: string, sensor: string, value: string, state: Option<string>)

  /** The three captures of a power-supply row: supply, model or type, status. */
  datatype PowerMatch = PowerMatch(supply: string, model: string, status: string)

  /** The OS-specific table patterns, as extractors of one line for a given OS type. */
  datatype Patterns = Patterns(
    temp: (string, string) -> Option<TempMatch>,
    power: (string, string) -> Option<PowerMatch>)

  /** The states of a temperature sensor that count as OK (compared after lower-casing). */
  predicate GoodTempState(s: string) { s == "normal" || s == "good" || s == "ok" || s == "green" }

  /** The statuses of a power supply that count as OK (compared exactly). */
  predicate GoodPowerStatus(s: string) { s == "Normal" || s == "good" || s == "ok" }

  /** A temperature item: named "location sensor" after trimming both; its status and OK flag come
      from the state capture when the pattern has one, and are empty and false otherwise. */
  function TempItem(m: TempMatch): (x: EnvironmentItem)
    ensures x.isTemp && !x.isFan
    ensures x.name == TrimSpace(m.location) + " " + TrimSpace(m.sensor)
    ensures x.temperature == Str2Float(m.value)
    ensures m.state.None? ==> x.status == "" && !x.ok
    ensures m.state.Some? ==> x.status == ToLower(TrimSpace(m.state.value)) && (x.ok <==> GoodTempState(x.status))
  {
    var x := EnvironmentItem(TrimSpace(m.location) + " " + TrimSpace(m.sensor), "", false, true, false, Str2Float(m.value));
    if m.state.Some? then
      var state := ToLower(TrimSpace(m.state.value));
      x.(ok := GoodTempState(state), status := state)
    else x
  }

  /** A power item: the trimmed "supply model" as its name and the status as captured. */
  function PowerItem(m: PowerMatch): (x: EnvironmentItem)
    ensures !x.isTemp && !x.isFan && x.temperature == 0.0
    ensures x.name == TrimSpace(m.supply + " " + m.model) && x.status == m.status
    ensures x.ok <==> GoodPowerStatus(m.status)
  {
    EnvironmentItem(TrimSpace(m.supply + " " + m.model), m.status, GoodPowerStatus(m.status), false, false, 0.0)
  }

  /** The item of one line: the temperature pattern is tried first, the power pattern only when it
      fails. */
  function ItemLine(p: Patterns, osType: string, line: string): (r: Option<EnvironmentItem>)
    ensures p.temp(osType, line).Some? ==> r == Some(TempItem(p.temp(osType, line).value))
    ensures p.temp(osType, line).None? && p.power(osType, line).Some? ==> r == Some(PowerItem(p.power(osType, line).value))
    ensures r.None? <==> p.temp(osType, line).None? && p.power(osType, line).None?
  {
    if p.temp(osType, line).Some? then Some(TempItem(p.temp(osType, line).value))
    else if p.power(osType, line).Some? then Some(PowerItem(p.power(osType, line).value))
    else None
  }

  function Items(p: Patterns, osType: string, lines: seq<string>): seq<EnvironmentItem> {
    FilterMap(lines, l => ItemLine(p, osType, l))
  }

  function Unsupported(osType: string): string {
    "'show environment' is not implemented for " + osType
  }

  /** Parse: for a known OS type, the items of the lines in line order and never an error; for
      any other, the error and no items. */
  method Parse(osType: string, output: string, p: Patterns) returns (r: Result<seq<EnvironmentItem>>)
    ensures !Rpc.Known(osType) ==> r == Err(Unsupported(osType))
    ensures Rpc.Known(osType) ==> r == Ok(Items(p, osType, Split(output, '\n')))
  {
    if osType != Rpc.IOSXE && osType != Rpc.NXOS && osType != Rpc.IOS {
      return Err(Unsupported(osType));
    }
    var items: seq<EnvironmentItem> := [];
    var lines := Split(output, '\n');
    for i := 0 to |lines|
      invariant items == Items(p, osType, lines[..i])
    {
      var line := lines[i];
      assert lines[..i + 1] == lines[..i] + [line];
      ItemsPerLine(p, osType, lines[..i], [line], line);
      var t := p.temp(osType, line);
      if t.Some? {
        var x := EnvironmentItem(TrimSpace(t.value.location) + " " + TrimSpace(t.value.sensor), "", false, true, false, Str2Float(t.value.value));
        if t.value.state.Some? {
          var state := ToLower(TrimSpace(t.value.state.value));
          x := x.(ok := GoodTempState(state), status := state);
        }
        assert x == TempItem(t.value);
        items := items + [x];
      } else {
        var pw := p.power(osType, line);
        if pw.Some? {
          var ok := pw.value.status == "Normal" || pw.value.status == "good" || pw.value.status == "ok";
          var x := EnvironmentItem(TrimSpace(pw.value.supply + " " + pw.value.model), pw.value.status, ok, false, false, 0.0);
          assert x == PowerItem(pw.value);
          items := items + [x];
        }
      }
    }
    assert lines[..|lines|] == lines;
    return Ok(items);
  }

  /** Each line yields at most one item, in line order: the items of two blocks of lines are those
      of the first followed by those of the second, and one line gives exactly its own item. */
  lemma ItemsPerLine(p: Patterns, osType: string, a: seq<string>, b: seq<string>, line: string)
    ensures Items(p, osType, a + b) == Items(p, osType, a) + Items(p, osType, b)
    ensures Items(p, osType, [line]) == (if ItemLine(p, osType, line).Some? then [ItemLine(p, osType, line).value] else [])
  {
    FilterMapAppend(a, b, l => ItemLine(p, osType, l));
    FilterMapSingle(line, l => ItemLine(p, osType, l));
  }

  /** Every item is a temperature or a power item of some line of the output. */
  lemma ItemFromLine(p: Patterns, osType: string, lines: seq<string>, x: EnvironmentItem)
    requires x in Items(p, osType, lines)
    ensures exists i :: 0 <= i < |lines| && ItemLine(p, osType, lines[i]) == Some(x)
  {
    FilterMapFrom(lines, l => ItemLine(p, osType, l), x);
  }
}
