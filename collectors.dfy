/** collectors.go: the registry that gives each device the collectors its features enable, sharing
    one instance per feature key between all devices. */
module Registry {
  import opened Wrappers
  import opened Config
  import opened Devices
  import opened RpcCollector

  /** The switch a features block holds for a kind (it must be set: the source dereferences it). */
  function Flag(f: FeatureConfig, k: Kind): bool
    requires AllSet(f)
  {
    match k
    case BGP => f.bgp.value
    case Environment => f.environment.value
    case Facts => f.facts.value
    case Interfaces => f.interfaces.value
    case Optics => f.optics.value
  }

  /** The kind initCollectorsForDevice adds at step i: bgp, environment, facts, interfaces, optics. */
  function KindAt(i: nat): (k: Kind)
    requires i < 5
    ensures Rank(k) == i
  {
    if i == 0 then BGP else if i == 1 then Environment else if i == 2 then Facts
    else if i == 3 then Interfaces else Optics
  }

  /** The kinds among the first n steps that a features block enables, in step order. */
  function EnabledUpTo(f: FeatureConfig, n: nat): seq<Kind>
    requires AllSet(f) && n <= 5
  {
    if n == 0 then [] else EnabledUpTo(f, n - 1) + (if Flag(f, KindAt(n - 1)) then [KindAt(n - 1)] else [])
  }

  lemma {:induction false} EnabledUpToProperties(f: FeatureConfig, n: nat)
    requires AllSet(f) && n <= 5
    ensures forall k :: k in EnabledUpTo(f, n) <==> Rank(k) < n && Flag(f, k)
    ensures forall i, j :: 0 <= i < j < |EnabledUpTo(f, n)| ==> Rank(EnabledUpTo(f, n)[i]) < Rank(EnabledUpTo(f, n)[j])
  {
    if n > 0 {
      EnabledUpToProperties(f, n - 1);
      forall k | Rank(k) == n - 1
        ensures k == KindAt(n - 1)
      {
      }
    }
  }

  /** The kinds a features block enables, in the order the registry adds them. */
  function EnabledKinds(f: FeatureConfig): (ks: seq<Kind>)
    requires AllSet(f)
    ensures forall k :: k in ks <==> Flag(f, k)
    ensures forall i, j :: 0 <= i < j < |ks| ==> Rank(ks[i]) < Rank(ks[j])
  {
    EnabledUpToProperties(f, 5);
    EnabledUpTo(f, 5)
  }

  /** The kinds of a list of collectors. */
  function KindsOf(cs: seq<Collector>): seq<Kind>
  {
    if |cs| == 0 then [] else KindsOf(cs[..|cs| - 1]) + [cs[|cs| - 1].kind]
  }

  lemma KindsOfSnoc(cs: seq<Collector>, c: Collector)
    ensures KindsOf(cs + [c]) == KindsOf(cs) + [c.kind]
  {
  }

  /** The kinds of a sequence, as a set. */
  function KindSet(ks: seq<Kind>): set<Kind> {
    set k | k in ks
  }

  /** The keys that the features of some device among devs enable. */
  function EnabledKeys(devs: seq<Device>, entries: seq<DeviceConfig>, global: FeatureConfig): set<Kind>
    requires forall i :: 0 <= i < |devs| ==> AllSet(FeaturesFor(entries, global, devs[i].host))
  {
    if |devs| == 0 then {}
    else
      EnabledKeys(devs[..|devs| - 1], entries, global) +
      KindSet(EnabledKinds(FeaturesFor(entries, global, devs[|devs| - 1].host)))
  }

  /** One more device registered: the host keys and each host's kinds still match the devices
      seen so far, and the shared keys grow by the new device's enabled kinds. */
  lemma RegisterStep(prior: map<string, seq<Collector>>, now: map<string, seq<Collector>>,
                     devs: seq<Device>, n: nat, entries: seq<DeviceConfig>, global: FeatureConfig)
    requires n < |devs| && forall i :: 0 <= i < |devs| ==> AllSet(FeaturesFor(entries, global, devs[i].host))
    requires forall h :: h in prior <==> exists i :: 0 <= i < n && devs[i].host == h
    requires forall h :: h in prior ==>
      AllSet(FeaturesFor(entries, global, h)) && KindsOf(prior[h]) == EnabledKinds(FeaturesFor(entries, global, h))
    requires now.Keys == prior.Keys + {devs[n].host} && now == prior[devs[n].host := now[devs[n].host]]
    requires KindsOf(now[devs[n].host]) == EnabledKinds(FeaturesFor(entries, global, devs[n].host))
    ensures forall h :: h in now <==> exists i :: 0 <= i < n + 1 && devs[i].host == h
    ensures forall h :: h in now ==>
      AllSet(FeaturesFor(entries, global, h)) && KindsOf(now[h]) == EnabledKinds(FeaturesFor(entries, global, h))
    ensures EnabledKeys(devs[..n + 1], entries, global) ==
      EnabledKeys(devs[..n], entries, global) + KindSet(EnabledKinds(FeaturesFor(entries, global, devs[n].host)))
  {
    RegisterHosts(prior, now, devs, n);
    RegisterKinds(prior, now, devs[n].host, entries, global);
    assert devs[..n + 1][..n] == devs[..n] && devs[..n + 1][n] == devs[n];
  }

  lemma RegisterHosts(prior: map<string, seq<Collector>>, now: map<string, seq<Collector>>, devs: seq<Device>, n: nat)
    requires n < |devs|
    requires forall h :: h in prior <==> exists i :: 0 <= i < n && devs[i].host == h
    requires now.Keys == prior.Keys + {devs[n].host}
    ensures forall h :: h in now <==> exists i :: 0 <= i < n + 1 && devs[i].host == h
  {
    forall h
      ensures h in now <==> exists i :: 0 <= i < n + 1 && devs[i].host == h
    {
      if h in now && h != devs[n].host {
        assert h in prior;
      }
    }
  }

  lemma RegisterKinds(prior: map<string, seq<Collector>>, now: map<string, seq<Collector>>, host: string,
                      entries: seq<DeviceConfig>, global: FeatureConfig)
    requires AllSet(FeaturesFor(entries, global, host))
    requires forall h :: h in prior ==>
      AllSet(FeaturesFor(entries, global, h)) && KindsOf(prior[h]) == EnabledKinds(FeaturesFor(entries, global, h))
    requires host in now && now == prior[host := now[host]]
    requires KindsOf(now[host]) == EnabledKinds(FeaturesFor(entries, global, host))
    ensures forall h :: h in now ==>
      AllSet(FeaturesFor(entries, global, h)) && KindsOf(now[h]) == EnabledKinds(FeaturesFor(entries, global, h))
  {
    forall h | h in now
      ensures AllSet(FeaturesFor(entries, global, h)) &&
        KindsOf(now[h]) == EnabledKinds(FeaturesFor(entries, global, h))
    {
      if h != host {
        assert h in prior && now[h] == prior[h];
      }
    }
  }

  /** The last device with a host, when several share it, is the one whose list remains. */
  function ListFor(devices: map<string, seq<Collector>>, host: string): seq<Collector> {
    if host in devices then devices[host] else []
  }

  class Collectors {
    /** One instance per feature key, shared by every device that enables it. The keys are the
        five strings Key(kind); the map is indexed by the kind they name. */
    var shared: map<Kind, Collector>
    /** The collectors of each device, by host. */
    var devices: map<string, seq<Collector>>
    const cfg: Config

    /** Every shared instance is registered under its own kind's key, and every device's list
        holds exactly the shared instances of its kinds. */
    ghost predicate Valid()
      reads this
    {
      && (forall k :: k in shared ==> shared[k].kind == k)
      && (forall h, i :: h in devices && 0 <= i < |devices[h]| ==>
            devices[h][i].kind in shared && devices[h][i] == shared[devices[h][i].kind])
    }

    /** collectorsForDevices: a registry with the lists of every device, initialised in order. */
    constructor (devs: seq<Device>, cfg: Config)
      requires forall i :: 0 <= i < |devs| ==> AllSet(FeaturesFor(cfg.devices, cfg.features, devs[i].host))
      ensures Valid() && this.cfg == cfg
      ensures forall h :: h in devices <==> exists i :: 0 <= i < |devs| && devs[i].host == h
      ensures forall h :: h in devices ==>
        AllSet(FeaturesFor(cfg.devices, cfg.features, h)) && KindsOf(devices[h]) == EnabledKinds(FeaturesFor(cfg.devices, cfg.features, h))
      ensures shared.Keys == EnabledKeys(devs, cfg.devices, cfg.features)
    {
      shared := map[];
      devices := map[];
      this.cfg := cfg;
      new;
      var n := 0;
      while n < |devs|
        invariant n <= |devs| && Valid()
        invariant forall h :: h in devices <==> exists i :: 0 <= i < n && devs[i].host == h
        invariant forall h :: h in devices ==>
          AllSet(FeaturesFor(cfg.devices, cfg.features, h)) && KindsOf(devices[h]) == EnabledKinds(FeaturesFor(cfg.devices, cfg.features, h))
        invariant shared.Keys == EnabledKeys(devs[..n], cfg.devices, cfg.features)
      {
        ghost var prior := devices;
        InitCollectorsForDevice(devs[n]);
        RegisterStep(prior, devices, devs, n, cfg.devices, cfg.features);
        n := n + 1;
      }
      assert devs[..n] == devs;
    }

    /** initCollectorsForDevice: the device's list starts empty and gets the enabled kinds' shared
        instances, in the order bgp, environment, facts, interfaces, optics, creating those not yet
        registered; other devices' lists are untouched. */
    method InitCollectorsForDevice(device: Device)
      requires Valid() && AllSet(FeaturesFor(cfg.devices, cfg.features, device.host))
      modifies this
      ensures Valid()
      ensures devices.Keys == old(devices.Keys) + {device.host}
      ensures KindsOf(devices[device.host]) == EnabledKinds(FeaturesFor(cfg.devices, cfg.features, device.host))
      ensures devices == old(devices)[device.host := devices[device.host]]
      ensures shared.Keys == old(shared.Keys) + KindSet(EnabledKinds(FeaturesFor(cfg.devices, cfg.features, device.host)))
    {
      var f := cfg.FeaturesForDevice(device.host);
      var h := device.host;
      devices := devices[h := []];
      for j := 0 to 5
        invariant Valid() && h in devices
        invariant KindsOf(devices[h]) == EnabledUpTo(f, j)
        invariant devices == old(devices)[h := devices[h]]
        invariant shared.Keys == old(shared.Keys) + KindSet(EnabledUpTo(f, j))
      {
        ghost var before, sharedBefore := devices[h], shared;
        var k := KindAt(j);
        AddCollectorIfEnabledForDevice(device, k, Flag(f, k));
        assert EnabledUpTo(f, j + 1) == EnabledUpTo(f, j) + (if Flag(f, k) then [k] else []);
        if Flag(f, k) {
          assert shared.Keys == sharedBefore.Keys + {k};
          KindsOfSnoc(before, shared[k]);
        } else {
          assert EnabledUpTo(f, j + 1) == EnabledUpTo(f, j);
        }
      }
    }

    /** addCollectorIfEnabledForDevice: when enabled, append the kind's shared instance to the
        device's list, constructing and registering it first if its key is new. */
    method AddCollectorIfEnabledForDevice(device: Device, kind: Kind, enabled: bool)
      requires Valid()
      modifies this
      ensures Valid()
      ensures !enabled ==> shared == old(shared) && devices == old(devices)
      ensures enabled ==> kind in shared && shared == old(shared)[kind := shared[kind]]
      ensures enabled && kind in old(shared) ==> shared == old(shared)
      ensures enabled && kind !in old(shared) ==> fresh(shared[kind])
      ensures enabled ==> devices == old(devices)[device.host := ListFor(old(devices), device.host) + [shared[kind]]]
    {
      if !enabled {
        return;
      }
      var col: Collector;
      if kind in shared {
        col := shared[kind];
      } else {
        col := new Collector(kind);
        shared := shared[kind := col];
      }
      devices := devices[device.host := ListFor(devices, device.host) + [col]];
    }

    /** allEnabledCollectors: every shared instance once, in the map's iteration order, given as
        a sequence listing each key exactly once. */
    method AllEnabledCollectors(order: seq<Kind>) returns (cols: seq<Collector>)
      requires forall k :: k in shared <==> k in order
      requires forall i, j :: 0 <= i < j < |order| ==> order[i] != order[j]
      ensures |cols| == |order|
      ensures forall i :: 0 <= i < |cols| ==> cols[i] == shared[order[i]]
      ensures forall k :: k in shared ==> shared[k] in cols
      ensures Valid() ==> forall i, j :: 0 <= i < j < |cols| ==> cols[i] != cols[j]
    {
      cols := [];
      for i := 0 to |order|
        invariant |cols| == i && forall j :: 0 <= j < i ==> cols[j] == shared[order[j]]
      {
        cols := cols + [shared[order[i]]];
      }
    }

    /** collectorsForDevice: the stored list for a known host, the empty list for an unknown one. */
    method CollectorsForDevice(device: Device) returns (cols: seq<Collector>)
      ensures device.host in devices ==> cols == devices[device.host]
      ensures device.host !in devices ==> cols == []
    {
      if device.host in devices {
        return devices[device.host];
      }
      return [];
    }
  }

  /** The features are looked up by the device's host after the port is split off, while entries
      are matched on their host as written: the lookup for the device of an entry "h:p" never
      lands on that entry, only on an entry whose host has no ':', or on the global block. */
  lemma PortedEntryNeverFindsItself(cfg: Config, k: nat, keyErr: string -> Option<string>)
    requires k < |cfg.devices| && ':' in cfg.devices[k].host
    requires DeviceFromDeviceConfig(cfg.devices[k], cfg, keyErr).Ok?
    ensures var h := DeviceFromDeviceConfig(cfg.devices[k], cfg, keyErr).value.host;
      && FirstHost(cfg.devices, h) != k
      && (FirstHost(cfg.devices, h) < |cfg.devices| ==> ':' !in cfg.devices[FirstHost(cfg.devices, h)].host)
      && (FirstHost(cfg.devices, h) == |cfg.devices| ==> FeaturesFor(cfg.devices, cfg.features, h) == cfg.features)
  {
    var h := DeviceFromDeviceConfig(cfg.devices[k], cfg, keyErr).value.host;
    assert ':' !in h;
    var i := FirstHost(cfg.devices, h);
    if i < |cfg.devices| {
      assert cfg.devices[i].host == h;
    }
  }

  /** With a single entry "h:p" carrying its own block, the device gets the global block. */
  lemma PortedEntryGetsGlobalFeatures(d: DeviceConfig, cfg: Config, keyErr: string -> Option<string>)
    requires cfg.devices == [d] && ':' in d.host && d.features.Some?
    requires DeviceFromDeviceConfig(d, cfg, keyErr).Ok?
    ensures FeaturesFor(cfg.devices, cfg.features, DeviceFromDeviceConfig(d, cfg, keyErr).value.host) == cfg.features
  {
    PortedEntryNeverFindsItself(cfg, 0, keyErr);
  }
}
