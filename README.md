# cisco_exporter in Dafny

A Dafny model of the core of cisco_exporter, a Prometheus exporter. The exporter logs into Cisco
devices (IOS, IOS XE, NX-OS) over an interactive SSH shell and runs show-commands. It parses the
text that comes back and sends gauge samples. The model covers these parts:

- **The shell session** (`connection.dfy`). A command's output is complete at the first read that
  makes the buffer hold the echoed command and end in a prompt (`.+#\s?$`). Other parts:
  - the default port for a host;
  - the shared SSH configuration, cached once;
  - priming the shell on connect;
  - tolerant close.
- **OS identification** (`rpc_client.dfy`). A priority-ordered substring classifier whose result
  is stored in the client.
- **Configuration** (`config.dfy`, `devices.dfy`). Defaults, per-device feature flags inherited
  from the global ones, device lookup, target lists, host/port splitting, and the five-step
  authentication priority.
- **The collector registry** (`collectors.dfy`, `rpc_collector.dfy`). At most one shared
  collector instance per feature. Each device gets an ordered list of those shared instances.
- **The per-target poll** (`exporter.dfy`):
  - connect;
  - `cisco_up`;
  - identify;
  - every enabled collector;
  - the deferred close;
  - the deferred `cisco_collector_duration_seconds`.
- **The parsers and collectors** for interfaces, neighbors, facts, BGP, optics and environment.
  Each parser's loop is a method proved equal to a specification function. Each collector's
  `Collect` is a method proved equal to a `Spec` function of the device's answers.

How the model is written:

- **The device.** Collectors see the device as `Rpc.Cli(osType, run)`, where `run` maps a command
  to its output or an error. A `Collected(samples, err, issued)` value records what a collector
  sent, what it returned, and every command it issued, in order.
- **Regular expressions.** Short ones are stated concretely under RE2 semantics: `.` never
  matches a newline and `$` is the end of the text. These are the prompt, the interface header
  and device name, the NX-OS `TX` line, the interface-name prefixes of the optics and neighbors
  listings, and the IOS XE slot pattern. Longer ones are abstract extractors passed in a
  `Patterns` record; the model states the control flow around them exactly.
- **Go map iteration order** is an explicit `order` argument. It must list every key exactly
  once.

Where this description and the Go code part ways, the model follows the code:

- `ParseCPU` reports "Version string not found" when no CPU line matches.
- The interfaces collector describes `transmit_drops` before `transmit_errors`, but it sends
  them the other way round.
- Per-device features are looked up by the host after the port has been split off. A
  `host:port` entry therefore never gets its own features block; see
  `Registry.PortedEntryNeverFindsItself`.
- The `show interface` parser appends the current record again whenever a line is neither
  a body line nor an interface header (`InterfacesParser.HeaderLine`). So a record can appear
  twice.

## Model

| member | source | states |
|---|---|---|
| Connector.PromptMatchIff | connector/connection.go:160 | the prompt pattern holds iff the text ends in `#`, optionally followed by one whitespace character, with a non-newline character before the `#` |
| Connector.FirstResultWitness | connector/connection.go:159-175 | the first result is a read error, a completion or a timeout; each is decided at the first chunk that fails or completes the buffer |
| Connector.FirstResultAt | connector/connection.go:163-172 | after a quiet prefix of chunks, a failing chunk gives its error, a completing chunk gives the buffer, and running out of chunks gives no completion |
| Connector.CompletedEchoesCommand | connector/connection.go:169-173 | a completed output still contains the echoed command (when the command has no `\r`) |
| Connector.Reply | connector/connection.go:127-131 | completion gives (output, nil); an error gives ("", error); no completion gives ("", "Timeout reached") |
| Connector.HostWithDefaultPort | connector/connection.go:52-54 | a host without ':' gets ":22" appended; a host with ':' is left unchanged |
| Connector.DefaultPortSplits | connector/connection.go:52-54 | a defaulted host splits back into the host and "22" |
| Connector.NewClientConfig | connector/connection.go:36-45 | user, key and timeout are taken as given; with legacy ciphers on, the defaults are followed by aes128-cbc and 3des-cbc |
| Connector.ConfigCache.Get | connector/connection.go:23-48 | a cached configuration is returned unchanged; otherwise a key error caches nothing, and a good key caches and returns a fresh configuration |
| Connector.SSHConnection.Readln | connector/connection.go:159-175 | readln's first result equals FirstResult on the chunk stream |
| Connector.SSHConnection.RunCommand | connector/connection.go:119-133 | writes cmd plus a newline, consumes one chunk stream, and returns Reply of that stream's first result |
| Connector.SSHConnection.Connect | connector/connection.go:81-111 | config, dial and session errors each end the connect and leave the described state; on success the shell is primed with "" and "terminal length 0" |
| Connector.SSHConnection.Close | connector/connection.go:136-144 | does nothing without a transport; otherwise closes the transport and the session if there is one |
| Connector.NewSSSHConnection | connector/connection.go:51-67 | a connection is returned iff there is no error; it has the defaulted host, an open transport and the two priming commands sent; the error is the key, dial or session error in that priority; the configuration is cached unless the key error stopped it |
| Rpc.Classify | rpc/rpc_client.go:39-48 | "IOS XE" before "NX-OS" before "IOS Software", each as an iff; "Unknown OS" iff none occurs |
| Rpc.Client.RunCommand | rpc/rpc_client.go:56-67 | the connection's reply, with "" as output on error |
| Rpc.Client.Identify | rpc/rpc_client.go:34-53 | runs "show version"; a command error is returned; otherwise OSType becomes IOSXE, NXOS or IOS by the first marker found, and an unknown OS returns "Unknown OS" with OSType unchanged |
| Config.InheritFlag | config/config.go:72-86 | a flag the device sets is kept; an unset one takes the global value |
| Config.InheritProperties | config/config.go:68-87 | inheritance keeps set flags and fills unset ones, is the identity on a full block, and is idempotent |
| Config.InheritDevice | config/config.go:68-71 | devices without a features block are untouched |
| Config.FeaturesFor | config/config.go:124-132 | the found device's own block when it has one; the global block when no entry has the host or the entry found has no block |
| Config.LookupFirstWins | config/config.go:134-142 | the lookup finds the first entry with an equal host |
| Config.Config.constructor | config/config.go:46-53 | New applies the defaults: debug and legacy ciphers off, timeout 5, batch size 10000, all five features on |
| Config.Config.SetDefaultValues | config/config.go:92-109 | sets exactly those defaults and leaves credentials and devices unchanged |
| Config.Config.InheritFeatures | config/config.go:68-87 | every device entry becomes InheritDevice of itself with the global block; nothing else changes |
| Config.Config.DevicesFromTargets | config/config.go:112-121 | one host-only entry per comma-separated segment, in order; every other field unchanged |
| Config.Config.FindDeviceConfig | config/config.go:134-142 | finds an entry iff some entry has that host, and then it is the first such entry |
| Config.Config.FeaturesForDevice | config/config.go:124-132 | equals FeaturesFor |
| Devices.AuthForDevice | devices.go:47-70 | the priority device key, global key, device password, global password, then "no valid authentication method available" |
| Devices.AuthChoice | devices.go:47-70 | the chosen method is for the effective user; a key file anywhere means key authentication |
| Devices.AuthForKeyFile | devices.go:72-84 | key authentication iff the key file opens and parses |
| Devices.SplitHostPort | devices.go:31-37 | no ':' gives (host, "22"); otherwise the first two ':'-separated segments |
| Devices.SplitHostPortRoundTrip | devices.go:31-37 | "h:p" splits into (h, p), and a defaulted host splits into (h, "22") |
| Devices.DeviceFromDeviceConfig | devices.go:25-45 | an authentication error is wrapped with the entry's host; otherwise the split host and port |
| Devices.DevicesForConfig | devices.go:12-23 | one device per entry in order, or the first failing entry's error |
| Devices.FirstFailingIs | devices.go:15-20 | the error reported is the one from the unique first failing entry |
| RpcCollector.KeyInjective | collectors.go:38-42 | distinct kinds are registered under distinct keys |
| Registry.EnabledKinds | collectors.go:34-44 | a device's kinds are exactly the enabled ones, in the order bgp, environment, facts, interfaces, optics |
| Registry.Collectors.constructor | collectors.go:20-32 | every device gets a list whose kinds are exactly its enabled features, in order; the shared map holds exactly the kinds some device enables; lists hold the shared instances |
| Registry.Collectors.InitCollectorsForDevice | collectors.go:34-44 | replaces this device's list with its enabled kinds' shared instances; other devices are untouched |
| Registry.Collectors.AddCollectorIfEnabledForDevice | collectors.go:46-58 | when disabled nothing changes; when enabled the shared instance, created on first use, is appended |
| Registry.Collectors.AllEnabledCollectors | collectors.go:60-70 | every shared instance once, in map order, without duplicates |
| Registry.Collectors.CollectorsForDevice | collectors.go:72-79 | the stored list for a known host, the empty list otherwise |
| Registry.PortedEntryNeverFindsItself | collectors.go:35 | in any configuration, the lookup for a `host:port` entry's device never finds that entry: it finds an entry whose host has no ':' or falls back to the global block |
| Registry.PortedEntryGetsGlobalFeatures | collectors.go:35 | a configuration with one `host:port` entry that has its own block gives its device the global block |
| Util.Str2Float | util/util.go:6-12 | the empty text gives -1; a digit string gives its value |
| Util.NoDigitsIsSentinel | util/util.go:8-10 | a text without digits gives the sentinel -1 |
| Text.TrimBlanks | cisco_collector.go:86 | strings.Trim with " ": no space left at either end, and a text without spaces is unchanged |
| Text.TrimBlanksSlice | cisco_collector.go:86 | the result is the part of the text between its leading and its trailing spaces, and only those spaces are dropped |
| Text.TrimSpaceSlice | environment/parser.go:59 | the result is the part of the text between its leading and its trailing white space, and only that white space is dropped |
| BgpParser.SessionOf | bgp/parser.go:27-41 | a negative prefix count (the sentinel) means down with 0 prefixes; otherwise up with that count |
| BgpParser.Parse | bgp/parser.go:13-45 | non-IOS XE gives the "not implemented" error; otherwise one session per matching line |
| BgpParser.SessionsPerLine | bgp/parser.go:21-43 | sessions are per line, in line order |
| BgpParser.SessionsFromRows | bgp/parser.go:21-43 | every session comes from a matching line and has a non-negative prefix count |
| BgpParser.StateNameIsDown | bgp/parser.go:27-32 | a state name in the last column means the session is down |
| BgpCollector.Spec | bgp/bgp_collector.go:51-62 | a command error is returned with no samples; a parse error gives nil and no samples |
| BgpCollector.Collect | bgp/bgp_collector.go:51-79 | equals Spec |
| BgpCollector.EmissionLayout | bgp/bgp_collector.go:64-76 | four samples per session, in the order up, prefixes, input, output, with labels plus AS number and address |
| EnvironmentParser.TempItem | environment/parser.go:57-68 | name is location plus sensor; OK iff the lower-cased state is normal, good, ok or green |
| EnvironmentParser.PowerItem | environment/parser.go:69-77 | OK iff the status is Normal, good or ok |
| EnvironmentParser.ItemLine | environment/parser.go:57-78 | the temperature pattern takes priority over the power pattern |
| EnvironmentParser.Parse | environment/parser.go:41-81 | an unknown OS gives an error; otherwise one item per matching line |
| EnvironmentParser.ItemsPerLine | environment/parser.go:56-79 | items are per line, in line order |
| EnvironmentParser.ItemFromLine | environment/parser.go:56-79 | every item comes from some line |
| EnvironmentCollector.Command | environment/environment_collector.go:50-57 | IOS and NX-OS use "show environment", IOS XE "show environment all", any other OS "" |
| EnvironmentCollector.Spec | environment/environment_collector.go:58-68 | a command error is returned with no samples; an unknown OS gives no samples |
| EnvironmentCollector.Collect | environment/environment_collector.go:49-91 | equals Spec |
| EnvironmentCollector.EmissionPerItem | environment/environment_collector.go:70-88 | a temperature gives temp then status; a power supply gives power_up |
| Lines.FirstFound | facts/parser.go:23-30 | the first-match search is empty exactly when no line matches; otherwise it is the match of a line before which none matches |
| FactsParser.ParseVersion | facts/parser.go:13-31 | an unknown OS gives the "not implemented" error; otherwise the first matching line gives the OS type, "-" and the version, and no match gives "Version string not found" |
| FactsParser.VersionIsFirstMatch | facts/parser.go:23-29 | the version comes from the first matching line |
| FactsParser.ParseMemory | facts/parser.go:34-56 | IOS and IOS XE only; one fact per pool line |
| FactsParser.PoolsPerLine | facts/parser.go:42-54 | pools are per line, in order, and lines without a match add none |
| FactsParser.ParseCPU | facts/parser.go:59-79 | IOS and IOS XE only; the first CPU line, or "Version string not found" |
| FactsCollector.VersionSpec | facts/facts_collector.go:61-73 | the command error, the unknown-OS error or "Version string not found" with no samples; otherwise one sample of value 1 labelled with the base labels and the version of the first matching line |
| FactsCollector.MemorySpec | facts/facts_collector.go:76-92 | the command error or the parse error, with no samples; otherwise the pools |
| FactsCollector.MemoryLayout | facts/facts_collector.go:85-90 | three samples per pool: total, used, free |
| FactsCollector.CpuSpec | facts/facts_collector.go:95-109 | the command error, the IOS/IOS XE-only error or "Version string not found" with no samples; otherwise four samples with the base labels |
| FactsCollector.CpuLayout | facts/facts_collector.go:104-107 | one minute, five seconds, interrupts and five minutes, in that order, each from its field of the first CPU line |
| FactsCollector.Spec | facts/facts_collector.go:112-126 | version, memory and CPU are always all tried, and nil is returned |
| FactsCollector.Collect | facts/facts_collector.go:112-126 | equals Spec |
| OpticsParser.InterfaceName | optics/parser.go:18-25 | the maximal leading run of name characters, for a line that starts with one |
| OpticsParser.ParseInterfaces | optics/parser.go:13-28 | an unknown OS gives an error; otherwise the names, in line order |
| OpticsParser.NamesPerLine | optics/parser.go:19-26 | names are per line |
| OpticsParser.ParseTransceiver | optics/parser.go:31-48 | an unknown OS gives an error; no match gives "Transceiver not found"; otherwise Tx and Rx |
| OpticsCollector.ListCommand | optics/optics_collector.go:47-54 | the listing command by OS |
| OpticsCollector.XeSlotLeftmost | optics/optics_collector.go:68-77 | the slot is read from the captures at the leftmost position where `\S(\d+)/(\d+)/(\d+)` matches, and is absent exactly when it matches nowhere |
| OpticsCollector.SlotMatchDigits | optics/optics_collector.go:68 | the three captures are non-empty digit strings joined by "/" at the start of the text, and the last is maximal |
| OpticsCollector.TransceiverCommand | optics/optics_collector.go:71-82 | the per-interface command by OS; IOS XE uses the subslot command, or none without a slot |
| OpticsCollector.Spec | optics/optics_collector.go:46-103 | a listing error is returned with no samples; the listing command is issued first |
| OpticsCollector.Collect | optics/optics_collector.go:46-103 | equals Spec |
| OpticsCollector.EmissionPerInterface | optics/optics_collector.go:83-99 | per interface, nothing or Tx then Rx, labelled with the interface |
| OpticsCollector.UnslottedNeverAsked | optics/optics_collector.go:77-80 | an IOS XE interface without a slot issues no command |
| NeighborsParser.ParseInterfacesIPv4 | neighbors/parser.go:13-27 | the names of the lines of the form name, whitespace, dotted quad, in order; never an error |
| NeighborsParser.PendingIsAddressed | neighbors/parser.go:35-48 | the pending-name loop equals the reference definition: a name is kept iff the next line is a non-name line without "unassigned" |
| NeighborsParser.ParseInterfacesIPv6 | neighbors/parser.go:30-50 | equals the reference definition Addressed; never an error |
| NeighborsParser.BumpV4 | neighbors/parser.go:69-73 | Incomplete increments incomplete, Dynamic increments reachable, anything else changes nothing |
| NeighborsParser.BumpV6 | neighbors/parser.go:98-108 | INCOM, REACH, STALE, DELAY and PROBE each increment their own counter |
| NeighborsParser.CountV4OnlyNamed | neighbors/parser.go:60-74 | only the counters of interfaces named on lines change |
| NeighborsParser.CountV6OnlyNamed | neighbors/parser.go:85-109 | the same for IPv6 after the name lookup |
| NeighborsParser.CountV4StopsAtMissing | neighbors/parser.go:65-68 | the first line naming an interface missing from the table stops the count with that error |
| NeighborsParser.NeighborTable.ParseIPv4Neighbors | neighbors/parser.go:53-76 | updates the table in place exactly as CountV4 |
| NeighborsParser.NeighborTable.ParseIPv6Neighbors | neighbors/parser.go:79-111 | updates the table in place exactly as CountV6 |
| NeighborsCollector.FamilySpec | neighbors/neighbors_collector.go:48-92 | a listing error is returned with no samples; otherwise every listed interface is asked |
| NeighborsCollector.Spec | neighbors/neighbors_collector.go:42-46 | IPv4 then IPv6 are both run, and nil is returned |
| NeighborsCollector.CollectIPv4 | neighbors/neighbors_collector.go:48-92 | equals the IPv4 FamilySpec |
| NeighborsCollector.CollectIPv6 | neighbors/neighbors_collector.go:94-138 | equals the IPv6 FamilySpec |
| NeighborsCollector.Collect | neighbors/neighbors_collector.go:42-46 | equals Spec |
| NeighborsCollector.EmissionPerInterface | neighbors/neighbors_collector.go:63-90 | a failing interface adds nothing; otherwise five counts in the order incomplete, reachable, stale, delay, probe, labelled with interface, protocol and state |
| InterfacesParser.DeviceName | interfaces/parser.go:43-49 | a non-empty run of name characters followed by " is", on a line without a newline |
| InterfacesParser.Fields | interfaces/parser.go:56-99 | only the group of the first matching pattern changes; admin status is down iff the administratively group is captured; TX leaves RX mode; NX-OS casts are taken only in RX mode |
| InterfacesParser.Parsed | interfaces/parser.go:101 | the result is never empty and ends with the current record |
| InterfacesParser.Parse | interfaces/parser.go:13-102 | an unknown OS gives the "not implemented" error; otherwise the fold over the lines |
| InterfacesParser.PreambleIgnored | interfaces/parser.go:52-54 | lines before the first interface header do not affect the result |
| InterfacesParser.HeaderLine | interfaces/parser.go:39-51 | a named header flushes a non-zero record, starts a record with only that name in RX mode, and still applies the field patterns; a nameless header flushes but keeps the current record |
| InterfacesParser.BodyLine | interfaces/parser.go:52-99 | a body line before any interface changes nothing; otherwise it changes one field group |
| InterfacesParser.TxGating | interfaces/parser.go:87-93 | after a TX line, up to the next header, the NX-OS casts pattern never changes the counters |
| InterfacesParser.ParseVlans | interfaces/parser.go:105-135 | non-IOS XE gives an error; otherwise the VLAN fold |
| InterfacesParser.VlanPreambleIgnored | interfaces/parser.go:125-127 | lines before the first sub-interface header do not affect the result |
| InterfacesParser.VlansShaped | interfaces/parser.go:117-132 | VLAN records carry only a name and byte counters |
| InterfacesCollector.MergedAt | interfaces/interface_collector.go:96-104 | the first record of each name takes the bytes of the last VLAN with that name; everything else is unchanged |
| InterfacesCollector.MergeVlans | interfaces/interface_collector.go:96-104 | the in-place array merge equals Merged |
| InterfacesCollector.Spec | interfaces/interface_collector.go:72-105 | a "show interface" error is returned with no samples; an unsupported OS gives nil with no samples; only IOS XE issues "show vlans", and its error is returned with no samples |
| InterfacesCollector.Collect | interfaces/interface_collector.go:72-136 | equals Spec |
| InterfacesCollector.EmissionLayout | interfaces/interface_collector.go:107-133 | eleven samples per record in send order; admin_up, up and error_status are 1 exactly as stated; labels plus name, description, mac and speed |
| Exporter.CollectorsMap | cisco_collector.go:43-67 | a key is present iff its flag is on |
| Exporter.Describe | cisco_collector.go:70-77 | up and duration come first, then each collector's descriptors in map order |
| Exporter.DescsAppear | cisco_collector.go:74-76 | each collector's descriptors appear contiguously |
| Exporter.CollectForHost | cisco_collector.go:92-125 | equals HostTrace |
| Exporter.HostAccounting | cisco_collector.go:97-110 | exactly one up sample, first, and one duration sample, last; up is 1 iff connected; closed exactly when connected |
| Exporter.EachCollectorOnce | cisco_collector.go:112-124 | after identification every enabled collector is invoked exactly once with [host], whatever the others return |
| Exporter.Collect | cisco_collector.go:80-90 | equals the traces of the trimmed targets, in order |
| Exporter.OneUpPerTarget | cisco_collector.go:85-87 | the up samples carry exactly the trimmed targets, in order |

## Left out

- The SSH library: dialing, key-file parsing, PTY requests, and the reader goroutine raced against `time.After`. Their outcomes are inputs (`keyErr`, `dialErr`, `sessionErr`, the chunk streams). Running out of chunks stands for the timeout firing.
- Concurrency: the per-target goroutines and WaitGroup run one after another. The configuration mutex is not modelled.
- Prometheus types, the HTTP server, flags, logging and the `Debug` switch have no effect on the samples. They are left out, and `Describe` returns its descriptors instead of sending them.
- main.go, environment/templates.go and YAML decoding are not part of this model. `Config.Config.InheritFeatures` models only the loop after decoding.
- util.FindNamedMatches and util.InterfaceShortToLong are not part of this model. The first is replaced by the abstract temperature extractor; the second is the `shortToLong` parameter.
- Long regular expressions are abstract extractors. Examples: BGP neighbor rows, environment temperature and power rows, facts version, pool and CPU lines, transceiver readings, the interface field patterns, the VLAN patterns, and the neighbor rows.
- Util.Str2Float: only decimal forms are modelled (sign, digits, optional fraction). Exponents, infinities, NaN, hexadecimal floats and float64 rounding are not. Values are reals.
- Util.NoDigitsIsSentinel: holds for the decimal model; Go's ParseFloat also accepts "NaN" and "Inf" spellings, which have no digits.
- NeighborsCollector.Collect: the Go collector calls per-interface parse functions whose signatures the shipped parser file does not have. The per-interface parse is therefore an abstract parameter.
- NeighborsParser.NeighborTable.ParseIPv4Neighbors: the Go map from names to counter records becomes one map field of counter values. The counters are unbounded naturals rather than float64.
- InterfacesCollector.Collect: on IOS XE, ParseVlans never fails. So the VLAN parse-error branch is not a separate path.
- Text.ToLower: ASCII letters only; Unicode case mapping is not modelled.
- Environment and optics descriptors' help strings are kept. Optics fields the collector does not send are not modelled.
- The `Connector.SSHConnection.Connect` priming replies are consumed but not checked, as in the source.

