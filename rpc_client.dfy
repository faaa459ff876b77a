/** rpc/rpc_client.go: the command client over an SSH connection and OS identification. */
module Rpc {
  import opened Wrappers
  import opened Text
  import Connector

  const IOSXE: string := "IOSXE"
  const NXOS: string := "NXOS"
  const IOS: string := "IOS"

  /** One of the three OS types the exporter knows. */
  predicate Known(os: string) { os == IOSXE || os == NXOS || os == IOS }

  /** Identify's decision on the output of "show version": the first marker found, in the order
      "IOS XE", "NX-OS", "IOS Software", names the OS; with none the result is "Unknown OS". */
  function Classify(output: string): (r: Result<string>)
    ensures r.Ok? ==> Known(r.value)
    ensures r.Err? <==> !Contains(output, "IOS XE") && !Contains(output, "NX-OS") && !Contains(output, "IOS Software")
    ensures r.Err? ==> r.error == "Unknown OS"
    ensures r == Ok(IOSXE) <==> Contains(output, "IOS XE")
    ensures r == Ok(NXOS) <==> !Contains(output, "IOS XE") && Contains(output, "NX-OS")
    ensures r == Ok(IOS) <==> !Contains(output, "IOS XE") && !Contains(output, "NX-OS") && Contains(output, "IOS Software")
  {
    if Contains(output, "IOS XE") then Ok(IOSXE)
    else if Contains(output, "NX-OS") then Ok(NXOS)
    else if Contains(output, "IOS Software") then Ok(IOS)
    else Err("Unknown OS")
  }

  /** The reply the connection gives to cmd when the next stream is streams' head. */
  function ConnReply(cmd: string, streams: seq<seq<Connector.Chunk>>): (string, Option<string>) {
    Connector.Reply(Connector.FirstResult(cmd, "", Connector.Head(streams)))
  }

  class Client {
    const conn: Connector.SSHConnection
    const debug: bool
    var osType: string

    /** NewClient: a client over the connection, with no OS type yet. */
    constructor (conn: Connector.SSHConnection, debug: bool)
      ensures this.conn == conn && this.debug == debug && osType == ""
    {
      this.conn := conn;
      this.debug := debug;
      osType := "";
    }

    /** RunCommand: the connection's output unchanged on success, "" with the error otherwise. */
    method RunCommand(cmd: string) returns (output: string, err: Option<string>)
      requires conn.attached
      modifies conn
      ensures (output, err) == ConnReply(cmd, old(conn.incoming))
      ensures err.Some? ==> output == ""
      ensures conn.sent == old(conn.sent) + [cmd + "\n"] && conn.incoming == Connector.Tail(old(conn.incoming))
      ensures conn.attached && conn.host == old(conn.host)
    {
      output, err := conn.RunCommand(cmd);
      if err.Some? {
        return "", err;
      }
      return output, None;
    }

    /** Identify: run "show version" and store the classified OS type; a command error or an
        unknown OS is returned and leaves the stored type as it was. */
    method Identify() returns (err: Option<string>)
      requires conn.attached
      modifies this, conn
      ensures conn.sent == old(conn.sent) + ["show version\n"] && conn.incoming == Connector.Tail(old(conn.incoming))
      ensures ConnReply("show version", old(conn.incoming)).1.Some? ==>
        err == ConnReply("show version", old(conn.incoming)).1 && osType == old(osType)
      ensures ConnReply("show version", old(conn.incoming)).1.None? ==>
        match Classify(ConnReply("show version", old(conn.incoming)).0)
        case Ok(os) => err == None && osType == os
        case Err(e) => err == Some(e) && osType == old(osType)
      ensures err == None ==> Known(osType)
      ensures conn.attached && conn.host == old(conn.host)
    {
      var output, e := RunCommand("show version");
      assert "show version" + "\n" == "show version\n";
      if e.Some? {
        return e;
      }
      var c := Classify(output);
      if c.Err? {
        return Some(c.error);
      }
      osType := c.value;
      return None;
    }
  }

  /** What a collector sees of a client: its OS type and the device's answer to each command. */
  datatype Cli = Cli(osType: string, run: string -> Result<string>)
}
