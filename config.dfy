/** config/config.go: the exporter configuration, its defaults, per-device feature inheritance and
    device lookup. YAML decoding is foreign; the model starts from the decoded values. */
module Config {
  import opened Wrappers
  import opened Text

  /** The five collector switches; None means nil (not set). */
  datatype FeatureConfig = FeatureConfig(
    bgp: Option<bool>, environment: Option<bool>, facts: Option<bool>,
    interfaces: Option<bool>, optics: Option<bool>)

  const NoFeatures := FeatureConfig(None, None, None, None, None)

  /** Every switch is set. */
  predicate AllSet(f: FeatureConfig) {
    f.bgp.Some? && f.environment.Some? && f.facts.Some? && f.interfaces.Some? && f.optics.Some?
  }

  /** One device entry; the optional fields are None when absent from the configuration. */
  datatype DeviceConfig = DeviceConfig(
    host: string, username: Option<string>, password: Option<string>, keyFile: Option<string>,
    legacyCiphers: Option<bool>, timeout: Option<int>, batchSize: Option<int>,
    features: Option<FeatureConfig>)

  /** A device entry with only its host set. */
  function HostOnly(host: string): DeviceConfig {
    DeviceConfig(host, None, None, None, None, None, None, None)
  }

  /** A flag the device leaves unset takes the global one. */
  function InheritFlag(own: Option<bool>, global: Option<bool>): (r: Option<bool>)
    ensures own.Some? ==> r == own
    ensures own.None? ==> r == global
  {
    if own.None? then global else own
  }

  /** The body of the inheritance loop for one features block. */
  function Inherit(own: FeatureConfig, global: FeatureConfig): FeatureConfig {
    FeatureConfig(
      InheritFlag(own.bgp, global.bgp), InheritFlag(own.environment, global.environment),
      InheritFlag(own.facts, global.facts), InheritFlag(own.interfaces, global.interfaces),
      InheritFlag(own.optics, global.optics))
  }

  /** Inheriting keeps every flag the device set and fills the others from the global block, so
      the result is fully set when the global block is, and a second pass changes nothing. */
  lemma InheritProperties(own: FeatureConfig, global: FeatureConfig)
    ensures Inherit(own, global).bgp == (if own.bgp.Some? then own.bgp else global.bgp)
    ensures Inherit(own, global).optics == (if own.optics.Some? then own.optics else global.optics)
    ensures AllSet(global) ==> AllSet(Inherit(own, global))
    ensures AllSet(own) ==> Inherit(own, global) == own
    ensures Inherit(Inherit(own, global), global) == Inherit(own, global)
  {
  }

  /** One iteration of Load's loop: devices without a features block are skipped. */
  function InheritDevice(d: DeviceConfig, global: FeatureConfig): (r: DeviceConfig)
    ensures d.features.None? ==> r == d
    ensures d.features.Some? ==> r == d.(features := Some(Inherit(d.features.value, global)))
  {
    if d.features.None? then d else d.(features := Some(Inherit(d.features.value, global)))
  }

  /** The index of the first device whose host equals host exactly, |devs| when there is none. */
  function FirstHost(devs: seq<DeviceConfig>, host: string): (i: nat)
    ensures i <= |devs|
    ensures forall j :: 0 <= j < i ==> devs[j].host != host
    ensures i < |devs| ==> devs[i].host == host
  {
    if |devs| == 0 then 0
    else if devs[0].host == host then 0
    else 1 + FirstHost(devs[1..], host)
  }

  /** findDeviceConfig as a value. */
  function Lookup(devs: seq<DeviceConfig>, host: string): Option<DeviceConfig> {
    var i := FirstHost(devs, host);
    if i < |devs| then Some(devs[i]) else None
  }

  /** FeaturesForDevice as a value: the device's own block when it is found and has one,
      the global block otherwise. */
  function FeaturesFor(devs: seq<DeviceConfig>, global: FeatureConfig, host: string): (f: FeatureConfig)
    ensures (forall j :: 0 <= j < |devs| ==> devs[j].host != host) ==> f == global
    ensures Lookup(devs, host).Some? && Lookup(devs, host).value.features.Some? ==>
      f == Lookup(devs, host).value.features.value
    ensures Lookup(devs, host).Some? && Lookup(devs, host).value.features.None? ==> f == global
  {
    var d := Lookup(devs, host);
    if d.Some? && d.value.features.Some? then d.value.features.value else global
  }

  /** A host that appears later does not shadow an earlier entry with the same host. */
  lemma LookupFirstWins(devs: seq<DeviceConfig>, host: string, k: nat)
    requires k < |devs| && devs[k].host == host
    ensures Lookup(devs, host).Some?
    ensures Lookup(devs, host) == Some(devs[FirstHost(devs, host)]) && FirstHost(devs, host) <= k
  {
  }

  class Config {
    var debug: bool
    var legacyCiphers: bool
    var timeout: int
    var batchSize: int
    var username: string
    var password: string
    var keyFile: string
    var devices: seq<DeviceConfig>
    var features: FeatureConfig

    /** New: an empty configuration with setDefaultValues applied. */
    constructor ()
      ensures !debug && !legacyCiphers && timeout == 5 && batchSize == 10000
      ensures username == "" && password == "" && keyFile == "" && devices == []
      ensures features == FeatureConfig(Some(true), Some(true), Some(true), Some(true), Some(true))
    {
      username := "";
      password := "";
      keyFile := "";
      devices := [];
      features := NoFeatures;
      new;
      SetDefaultValues();
    }

    /** setDefaultValues: debug and legacy ciphers off, a 5 s timeout, batches of 10000 bytes and
        every collector switched on. */
    method SetDefaultValues()
      modifies this
      ensures !debug && !legacyCiphers && timeout == 5 && batchSize == 10000
      ensures features == FeatureConfig(Some(true), Some(true), Some(true), Some(true), Some(true))
      ensures username == old(username) && password == old(password) && keyFile == old(keyFile)
      ensures devices == old(devices)
    {
      debug := false;
      legacyCiphers := false;
      timeout := 5;
      batchSize := 10000;
      features := FeatureConfig(Some(true), Some(true), Some(true), Some(true), Some(true));
    }

    /** The loop in Load after decoding: every device with a features block gets its unset flags
        from the global block; other devices, and everything else, stay as they were. */
    method InheritFeatures()
      modifies this
      ensures |devices| == |old(devices)|
      ensures forall i :: 0 <= i < |devices| ==> devices[i] == InheritDevice(old(devices)[i], features)
      ensures features == old(features) && username == old(username) && password == old(password)
      ensures keyFile == old(keyFile) && debug == old(debug) && legacyCiphers == old(legacyCiphers)
      ensures timeout == old(timeout) && batchSize == old(batchSize)
    {
      var i := 0;
      while i < |devices|
        invariant 0 <= i <= |devices| == |old(devices)|
        invariant forall j :: 0 <= j < i ==> devices[j] == InheritDevice(old(devices)[j], features)
        invariant forall j :: i <= j < |devices| ==> devices[j] == old(devices)[j]
        invariant features == old(features) && username == old(username) && password == old(password)
        invariant keyFile == old(keyFile) && debug == old(debug) && legacyCiphers == old(legacyCiphers)
        invariant timeout == old(timeout) && batchSize == old(batchSize)
      {
        var d := devices[i];
        if d.features.Some? {
          var f := d.features.value;
          if f.bgp.None? { f := f.(bgp := features.bgp); }
          if f.environment.None? { f := f.(environment := features.environment); }
          if f.facts.None? { f := f.(facts := features.facts); }
          if f.interfaces.None? { f := f.(interfaces := features.interfaces); }
          if f.optics.None? { f := f.(optics := features.optics); }
          devices := devices[i := d.(features := Some(f))];
        }
        i := i + 1;
      }
    }

    /** DevicesFromTargets: one host-only device per comma-separated segment, in order, the
        segment taken verbatim. */
    method DevicesFromTargets(sshHosts: string)
      modifies this
      ensures |devices| == |Split(sshHosts, ',')|
      ensures forall i :: 0 <= i < |devices| ==> devices[i] == HostOnly(Split(sshHosts, ',')[i])
      ensures features == old(features) && username == old(username) && password == old(password)
      ensures keyFile == old(keyFile) && debug == old(debug) && legacyCiphers == old(legacyCiphers)
      ensures timeout == old(timeout) && batchSize == old(batchSize)
    {
      var targets := Split(sshHosts, ',');
      var devs: seq<DeviceConfig> := [];
      for i := 0 to |targets|
        invariant |devs| == i
        invariant forall j :: 0 <= j < i ==> devs[j] == HostOnly(targets[j])
      {
        devs := devs + [HostOnly(targets[i])];
      }
      devices := devs;
    }

    /** findDeviceConfig: the first device whose host equals host exactly, or None. */
    method FindDeviceConfig(host: string) returns (d: Option<DeviceConfig>)
      ensures d.Some? <==> exists j :: 0 <= j < |devices| && devices[j].host == host
      ensures d.Some? ==> d.value.host == host && d == Some(devices[FirstHost(devices, host)])
      ensures d == Lookup(devices, host)
    {
      for i := 0 to |devices|
        invariant forall j :: 0 <= j < i ==> devices[j].host != host
      {
        if devices[i].host == host {
          return Some(devices[i]);
        }
      }
      return None;
    }

    /** FeaturesForDevice: the device's own features block when the device is found and has one,
        the global block otherwise. */
    method FeaturesForDevice(host: string) returns (f: FeatureConfig)
      ensures f == FeaturesFor(devices, features, host)
    {
      var d := FindDeviceConfig(host);
      if d.Some? && d.value.features.Some? {
        return d.value.features.value;
      }
      return features;
    }
  }
}
