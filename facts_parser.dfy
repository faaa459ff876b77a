/** facts/parser.go: OS version, memory pools and CPU load from show-command output. */
module FactsParser {
  import opened Wrappers
  import opened Text
  import opened Util
  import opened Lines
  import Rpc

  datatype VersionFact = VersionFact(version: string)
  datatype MemoryFact = MemoryFact(kind: string, total: real, used: real, free: real)
  datatype CPUFact = CPUFact(fiveSeconds: real, interrupts: real, oneMinute: real, fiveMinutes: real)

  /** The four captures of a memory pool row: pool type, total, used and free. */
  datatype PoolRow = PoolRow(kind: string, total: string, used: string, free: string)

  /** The four captures of the CPU utilisation line, in the order they appear. */
  datatype CpuRow = CpuRow(fiveSeconds: string, interrupts: string, oneMinute: string, fiveMinutes: string)

  /** The patterns: the version capture of a line for an OS type, a pool row, and the CPU line. */
  datatype Patterns = Patterns(
    version: (string, string) -> Option<string>,
    pool: string -> Option<PoolRow>,
    cpu: string -> Option<CpuRow>)

  /** The version a line gives for an OS type: the OS type, a dash and the capture. */
  function VersionLine(p: Patterns, osType: string, line: string): Option<VersionFact> {
    if p.version(osType, line).Some? then Some(VersionFact(osType + "-" + p.version(osType, line).value)) else None
  }

  /** ParseVersion: the version of the first matching line; none is the error "Version string not
      found"; an OS type outside the three is rejected first. */
  method ParseVersion(osType: string, output: string, p: Patterns) returns (r: Result<VersionFact>)
    ensures !Rpc.Known(osType) ==> r == Err("'show version' is not implemented for " + osType)
    ensures Rpc.Known(osType) ==> r == FoundOr(First(Split(output, '\n'), l => VersionLine(p, osType, l)), "Version string not found")
  {
    if osType != Rpc.IOSXE && osType != Rpc.NXOS && osType != Rpc.IOS {
      return Err("'show version' is not implemented for " + osType);
    }
    var lines := Split(output, '\n');
    for i := 0 to |lines|
      invariant forall j :: 0 <= j < i ==> p.version(osType, lines[j]).None?
    {
      var matches := p.version(osType, lines[i]);
      if matches.None? {
        continue;
      }
      FirstAt(lines, l => VersionLine(p, osType, l), i);
      return Ok(VersionFact(osType + "-" + matches.value));
    }
    return Err("Version string not found");
  }

  /** The record found, or the error. */
  function FoundOr<T>(found: Option<T>, error: string): Result<T> {
    if found.Some? then Ok(found.value) else Err(error)
  }

  /** The version found is the first matching line's capture behind the OS type and a dash. */
  lemma VersionIsFirstMatch(p: Patterns, osType: string, lines: seq<string>, i: nat)
    requires i < |lines| && p.version(osType, lines[i]).Some?
    requires forall j :: 0 <= j < i ==> p.version(osType, lines[j]).None?
    ensures First(lines, l => VersionLine(p, osType, l)) == Some(VersionFact(osType + "-" + p.version(osType, lines[i]).value))
  {
    FirstAt(lines, l => VersionLine(p, osType, l), i);
  }

  function PoolLine(p: Patterns, line: string): Option<MemoryFact> {
    if p.pool(line).Some? then
      var m := p.pool(line).value;
      Some(MemoryFact(m.kind, Str2Float(m.total), Str2Float(m.used), Str2Float(m.free)))
    else None
  }

  function Pools(p: Patterns, lines: seq<string>): seq<MemoryFact> {
    FilterMap(lines, l => PoolLine(p, l))
  }

  /** ParseMemory: one fact per pool row, in line order, and no error even when none matches;
      NX-OS and unknown OS types are rejected. */
  method ParseMemory(osType: string, output: string, p: Patterns) returns (r: Result<seq<MemoryFact>>)
    ensures osType != Rpc.IOSXE && osType != Rpc.IOS ==> r == Err("'show process memory' is not implemented for " + osType)
    ensures osType == Rpc.IOSXE || osType == Rpc.IOS ==> r == Ok(Pools(p, Split(output, '\n')))
  {
    if osType != Rpc.IOSXE && osType != Rpc.IOS {
      return Err("'show process memory' is not implemented for " + osType);
    }
    var items: seq<MemoryFact> := [];
    var lines := Split(output, '\n');
    for i := 0 to |lines|
      invariant items == Pools(p, lines[..i])
    {
      assert lines[..i + 1][..i] == lines[..i];
      var matches := p.pool(lines[i]);
      if matches.None? {
        continue;
      }
      var item := MemoryFact(matches.value.kind, Str2Float(matches.value.total), Str2Float(matches.value.used), Str2Float(matches.value.free));
      items := items + [item];
    }
    assert lines[..|lines|] == lines;
    return Ok(items);
  }

  /** One memory fact per matching line, in line order; output with no pool row gives none. */
  lemma PoolsPerLine(p: Patterns, a: seq<string>, b: seq<string>)
    ensures Pools(p, a + b) == Pools(p, a) + Pools(p, b)
    ensures (forall i :: 0 <= i < |a| ==> p.pool(a[i]).None?) ==> Pools(p, a) == []
  {
    FilterMapAppend(a, b, l => PoolLine(p, l));
    if forall i :: 0 <= i < |a| ==> p.pool(a[i]).None? {
      FilterMapNone(a, l => PoolLine(p, l));
    }
  }

  function CpuLine(p: Patterns, line: string): Option<CPUFact> {
    if p.cpu(line).Some? then
      var m := p.cpu(line).value;
      Some(CPUFact(Str2Float(m.fiveSeconds), Str2Float(m.interrupts), Str2Float(m.oneMinute), Str2Float(m.fiveMinutes)))
    else None
  }

  /** ParseCPU: the first CPU line's four captures as five seconds, interrupts, one minute and five
      minutes; no such line is an error (worded as the version error); NX-OS and unknown OS types
      are rejected. */
  method ParseCPU(osType: string, output: string, p: Patterns) returns (r: Result<CPUFact>)
    ensures osType != Rpc.IOSXE && osType != Rpc.IOS ==> r == Err("'show process cpu' is not implemented for " + osType)
    ensures osType == Rpc.IOSXE || osType == Rpc.IOS ==> r == FoundOr(First(Split(output, '\n'), l => CpuLine(p, l)), "Version string not found")
  {
    if osType != Rpc.IOSXE && osType != Rpc.IOS {
      return Err("'show process cpu' is not implemented for " + osType);
    }
    var lines := Split(output, '\n');
    for i := 0 to |lines|
      invariant forall j :: 0 <= j < i ==> p.cpu(lines[j]).None?
    {
      var matches := p.cpu(lines[i]);
      if matches.None? {
        continue;
      }
      FirstAt(lines, l => CpuLine(p, l), i);
      return Ok(CPUFact(Str2Float(matches.value.fiveSeconds), Str2Float(matches.value.interrupts), Str2Float(matches.value.oneMinute), Str2Float(matches.value.fiveMinutes)));
    }
    return Err("Version string not found");
  }
}
