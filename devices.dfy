/** devices.go: turning device entries into connection targets with an authentication method. */
module Devices {
  import opened Wrappers
  import opened Text
  import opened Config
  import Connector

  /** The connector's authentication choice: a private key file or a password, for a user. */
  datatype AuthMethod = KeyAuth(user: string, keyFile: string) | PasswordAuth(user: string, password: string)

  /** A connection target: host and port taken apart, the authentication and the entry it came from. */
  datatype Device = Device(host: string, port: string, auth: AuthMethod, config: DeviceConfig)

  const NoAuthError: string := "no valid authentication method available"

  /** The user name: the device's override when set, the global one otherwise. */
  function EffectiveUser(d: DeviceConfig, globalUser: string): (u: string)
    ensures d.username.Some? ==> u == d.username.value
    ensures d.username.None? ==> u == globalUser
  {
    if d.username.Some? then d.username.value else globalUser
  }

  /** authForKeyFile: opening and parsing the key file are foreign; keyErr gives the error each
      file would produce, None when it loads. */
  function AuthForKeyFile(user: string, keyFile: string, keyErr: string -> Option<string>): (r: Result<AuthMethod>)
    ensures r.Ok? <==> keyErr(keyFile).None?
    ensures r.Ok? ==> r.value == KeyAuth(user, keyFile)
  {
    if keyErr(keyFile).Some? then Err(keyErr(keyFile).value) else Ok(KeyAuth(user, keyFile))
  }

  /** authForDevice: the device's key file, then a non-empty global key file, then the device's
      password, then a non-empty global password; with none of them, an error. */
  function AuthForDevice(d: DeviceConfig, cfg: Config, keyErr: string -> Option<string>): (r: Result<AuthMethod>)
    reads cfg
    ensures d.keyFile.Some? ==> r == AuthForKeyFile(EffectiveUser(d, cfg.username), d.keyFile.value, keyErr)
    ensures d.keyFile.None? && cfg.keyFile != "" ==>
      r == AuthForKeyFile(EffectiveUser(d, cfg.username), cfg.keyFile, keyErr)
    ensures d.keyFile.None? && cfg.keyFile == "" && d.password.Some? ==>
      r == Ok(PasswordAuth(EffectiveUser(d, cfg.username), d.password.value))
    ensures d.keyFile.None? && cfg.keyFile == "" && d.password.None? && cfg.password != "" ==>
      r == Ok(PasswordAuth(EffectiveUser(d, cfg.username), cfg.password))
    ensures d.keyFile.None? && cfg.keyFile == "" && d.password.None? && cfg.password == "" ==>
      r == Err(NoAuthError)
  {
    var user := EffectiveUser(d, cfg.username);
    if d.keyFile.Some? then AuthForKeyFile(user, d.keyFile.value, keyErr)
    else if cfg.keyFile != "" then AuthForKeyFile(user, cfg.keyFile, keyErr)
    else if d.password.Some? then Ok(PasswordAuth(user, d.password.value))
    else if cfg.password != "" then Ok(PasswordAuth(user, cfg.password))
    else Err(NoAuthError)
  }

  /** Whatever method is chosen, it is for the effective user, and a key file anywhere in the
      configuration rules out password authentication. */
  lemma AuthChoice(d: DeviceConfig, cfg: Config, keyErr: string -> Option<string>)
    ensures AuthForDevice(d, cfg, keyErr).Ok? ==> AuthForDevice(d, cfg, keyErr).value.user == EffectiveUser(d, cfg.username)
    ensures (d.keyFile.Some? || cfg.keyFile != "") && AuthForDevice(d, cfg, keyErr).Ok? ==>
      AuthForDevice(d, cfg, keyErr).value.KeyAuth?
    ensures AuthForDevice(d, cfg, keyErr).Ok? && AuthForDevice(d, cfg, keyErr).value.PasswordAuth? ==>
      d.keyFile.None? && cfg.keyFile == ""
  {
  }

  /** The host/port split: a host with ':' gives the text before the first ':' and the segment
      after it; a host without gives itself and "22". */
  function SplitHostPort(host: string): (r: (string, string))
    ensures ':' !in host ==> r == (host, "22")
    ensures ':' in host ==> ':' !in r.0 && ':' !in r.1 && StartsWith(host, r.0 + [':'] + r.1)
    ensures ':' in host ==> |host| == |r.0| + 1 + |r.1| || host[|r.0| + 1 + |r.1|] == ':'
  {
    ContainsChar(host, ':');
    if Contains(host, ":") then
      var d := Split(host, ':');
      SplitFirstTwo(host, ':');
      SplitNextSep(host, ':');
      (d[0], d[1])
    else (host, "22")
  }

  /** After the first two segments comes either the end of the text or another separator. */
  lemma SplitNextSep(s: string, sep: char)
    requires sep in s
    ensures |Split(s, sep)| >= 2
    ensures |s| == |Split(s, sep)[0]| + 1 + |Split(s, sep)[1]| ||
      (|s| > |Split(s, sep)[0]| + 1 + |Split(s, sep)[1]| && s[|Split(s, sep)[0]| + 1 + |Split(s, sep)[1]|] == sep)
  {
    var parts := Split(s, sep);
    SplitFirstTwo(s, sep);
    var n := |parts[0]| + 1 + |parts[1]|;
    if |parts| > 2 {
      var rest := parts[1..];
      assert Join(parts, sep) == parts[0] + [sep] + Join(rest, sep);
      assert Join(rest, sep) == parts[1] + [sep] + Join(rest[1..], sep);
      assert s == parts[0] + [sep] + (parts[1] + [sep] + Join(rest[1..], sep));
      assert s[n] == sep;
    } else {
      assert |parts| == 2;
    }
  }

  /** The split undoes both ways a port is written: "h:p" gives (h, p), and the connector's
      defaulted address gives back the host and port 22. */
  lemma SplitHostPortRoundTrip(h: string, p: string)
    requires ':' !in h && ':' !in p
    ensures SplitHostPort(h + [':'] + p) == (h, p)
    ensures SplitHostPort(Connector.HostWithDefaultPort(h)) == (h, "22")
  {
    Connector.SplitThroughPrefix(h, p, ':');
    Connector.DefaultPortSplits(h);
  }

  /** deviceFromDeviceConfig: an authentication error is wrapped with the entry's host. */
  function DeviceFromDeviceConfig(d: DeviceConfig, cfg: Config, keyErr: string -> Option<string>): (r: Result<Device>)
    reads cfg
    ensures AuthForDevice(d, cfg, keyErr).Err? ==>
      r == Err("could not initialize config for device " + d.host + ": " + AuthForDevice(d, cfg, keyErr).error)
    ensures AuthForDevice(d, cfg, keyErr).Ok? ==>
      r.Ok? && r.value.config == d && r.value.auth == AuthForDevice(d, cfg, keyErr).value &&
      (r.value.host, r.value.port) == SplitHostPort(d.host)
  {
    var auth := AuthForDevice(d, cfg, keyErr);
    if auth.Err? then Err("could not initialize config for device " + d.host + ": " + auth.error)
    else
      var hp := SplitHostPort(d.host);
      Ok(Device(hp.0, hp.1, auth.value, d))
  }

  /** The index of the first entry that cannot be turned into a device, |devs| when all can. */
  function FirstFailing(devs: seq<DeviceConfig>, cfg: Config, keyErr: string -> Option<string>): (k: nat)
    reads cfg
    ensures k <= |devs|
    ensures forall j :: 0 <= j < k ==> DeviceFromDeviceConfig(devs[j], cfg, keyErr).Ok?
    ensures k < |devs| ==> DeviceFromDeviceConfig(devs[k], cfg, keyErr).Err?
  {
    if |devs| == 0 then 0
    else if DeviceFromDeviceConfig(devs[0], cfg, keyErr).Err? then 0
    else 1 + FirstFailing(devs[1..], cfg, keyErr)
  }

  /** devicesForConfig: one device per entry, in order, or the first entry's error and no devices. */
  method DevicesForConfig(cfg: Config, keyErr: string -> Option<string>) returns (r: Result<seq<Device>>)
    ensures r.Ok? <==> FirstFailing(cfg.devices, cfg, keyErr) == |cfg.devices|
    ensures r.Ok? ==> |r.value| == |cfg.devices|
    ensures r.Ok? ==> forall i :: 0 <= i < |cfg.devices| ==> DeviceFromDeviceConfig(cfg.devices[i], cfg, keyErr) == Ok(r.value[i])
    ensures r.Err? ==> r.error == DeviceFromDeviceConfig(cfg.devices[FirstFailing(cfg.devices, cfg, keyErr)], cfg, keyErr).error
  {
    var devs: seq<Device> := [];
    var i := 0;
    while i < |cfg.devices|
      invariant i <= |cfg.devices| && |devs| == i
      invariant forall j :: 0 <= j < i ==> DeviceFromDeviceConfig(cfg.devices[j], cfg, keyErr) == Ok(devs[j])
    {
      var d := DeviceFromDeviceConfig(cfg.devices[i], cfg, keyErr);
      if d.Err? {
        FirstFailingIs(cfg.devices, cfg, keyErr, i);
        return Err(d.error);
      }
      devs := devs + [d.value];
      i := i + 1;
    }
    FirstFailingIs(cfg.devices, cfg, keyErr, i);
    return Ok(devs);
  }

  /** FirstFailing is the unique index before which everything succeeds and at which, if inside,
      the entry fails. */
  lemma FirstFailingIs(devs: seq<DeviceConfig>, cfg: Config, keyErr: string -> Option<string>, k: nat)
    requires k <= |devs|
    requires forall j :: 0 <= j < k ==> DeviceFromDeviceConfig(devs[j], cfg, keyErr).Ok?
    requires k < |devs| ==> DeviceFromDeviceConfig(devs[k], cfg, keyErr).Err?
    ensures FirstFailing(devs, cfg, keyErr) == k
  {
  }
}
