/** connector/connection.go: the interactive SSH shell session. The SSH library (dialing, session
    and PTY set-up, pipes, key loading) is foreign: its outcomes are parameters, and what the device
    sends back is a chunk stream per command, the data that arrives before the command's timer fires. */
module Connector {
  import opened Wrappers
  import opened Text

  /** One Read on the session's stdout: the bytes it returned and the error it reported. */
  datatype Chunk = Chunk(data: string, err: Option<string>)

  /** What the caller of readln receives first: the completed output, the first read error, or
      nothing before the stream ends (the timeout wins the race). */
  datatype ReadOutcome = Completed(output: string) | Failed(error: string) | NoCompletion

  /** The pattern `.+#\s?$` in RE2 terms, unanchored at the start: one or more non-newline
      characters, a '#', at most one whitespace character, then the end of the text. */
  predicate PromptMatch(s: string) {
    exists i, j :: 0 <= i < j < |s| && '\n' !in s[i..j] && s[j] == '#' &&
      (j + 1 == |s| || (j + 2 == |s| && IsReSpace(s[j + 1])))
  }

  /** The same condition read off the end of the buffer. */
  predicate PromptAtEnd(s: string) {
    || (|s| >= 2 && s[|s| - 1] == '#' && s[|s| - 2] != '\n')
    || (|s| >= 3 && IsReSpace(s[|s| - 1]) && s[|s| - 2] == '#' && s[|s| - 3] != '\n')
  }

  lemma PromptMatchIff(s: string)
    ensures PromptMatch(s) <==> PromptAtEnd(s)
  {
    if PromptAtEnd(s) {
      var j := if s[|s| - 1] == '#' && s[|s| - 2] != '\n' then |s| - 1 else |s| - 2;
      assert '\n' !in s[j - 1..j];
    }
    if PromptMatch(s) {
      var i, j :| 0 <= i < j < |s| && '\n' !in s[i..j] && s[j] == '#' &&
        (j + 1 == |s| || (j + 2 == |s| && IsReSpace(s[j + 1])));
      assert s[j - 1] == s[i..j][j - 1 - i];
    }
  }

  /** readln's stop condition on the accumulated buffer. */
  predicate Complete(cmd: string, buf: string) {
    Contains(buf, cmd) && PromptAtEnd(buf)
  }

  /** The concatenation of the chunks' data. */
  function Data(chunks: seq<Chunk>): string {
    if |chunks| == 0 then "" else Data(chunks[..|chunks| - 1]) + chunks[|chunks| - 1].data
  }

  lemma DataSnoc(chunks: seq<Chunk>, i: nat)
    requires i < |chunks|
    ensures Data(chunks[..i + 1]) == Data(chunks[..i]) + chunks[i].data
  {
    assert chunks[..i + 1][..i] == chunks[..i];
  }

  /** The first result readln sends, having accumulated buf from earlier chunks. */
  function FirstResult(cmd: string, buf: string, chunks: seq<Chunk>): (r: ReadOutcome)
    ensures r.Completed? ==> '\r' !in r.output
    decreases |chunks|
  {
    if |chunks| == 0 then NoCompletion
    else if chunks[0].err.Some? then Failed(chunks[0].err.value)
    else
      var b := buf + chunks[0].data;
      if Complete(cmd, b) then Completed(Without(b, '\r')) else FirstResult(cmd, b, chunks[1..])
  }

  /** No chunk before index k failed, and no buffer accumulated up to one of them completed. */
  predicate Quiet(cmd: string, chunks: seq<Chunk>, k: nat)
    requires k <= |chunks|
  {
    forall j :: 0 <= j < k ==> chunks[j].err.None? && !Complete(cmd, Data(chunks[..j + 1]))
  }

  lemma {:induction false} FirstResultSkip(cmd: string, chunks: seq<Chunk>, k: nat)
    requires k <= |chunks| && Quiet(cmd, chunks, k)
    ensures FirstResult(cmd, "", chunks) == FirstResult(cmd, Data(chunks[..k]), chunks[k..])
  {
    if k > 0 {
      FirstResultSkip(cmd, chunks, k - 1);
      DataSnoc(chunks, k - 1);
      assert chunks[k - 1..][1..] == chunks[k..];
    } else {
      assert chunks[0..] == chunks;
    }
  }

  /** The outcome is decided by the first chunk that fails or completes the buffer: a failing one
      gives its error, a completing one the buffer up to it without '\r', and none gives
      NoCompletion. Earlier buffers never complete. */
  lemma FirstResultAt(cmd: string, chunks: seq<Chunk>, k: nat)
    requires k <= |chunks| && Quiet(cmd, chunks, k)
    ensures k == |chunks| ==> FirstResult(cmd, "", chunks) == NoCompletion
    ensures k < |chunks| && chunks[k].err.Some? ==>
      FirstResult(cmd, "", chunks) == Failed(chunks[k].err.value)
    ensures k < |chunks| && chunks[k].err.None? && Complete(cmd, Data(chunks[..k + 1])) ==>
      FirstResult(cmd, "", chunks) == Completed(Without(Data(chunks[..k + 1]), '\r'))
  {
    FirstResultSkip(cmd, chunks, k);
    if k < |chunks| {
      DataSnoc(chunks, k);
    }
  }

  /** Every outcome arises in one of the three ways of FirstResultAt, at a quiet prefix. */
  lemma FirstResultWitness(cmd: string, chunks: seq<Chunk>) returns (k: nat)
    ensures k <= |chunks| && Quiet(cmd, chunks, k)
    ensures FirstResult(cmd, "", chunks).NoCompletion? <==> k == |chunks|
    ensures FirstResult(cmd, "", chunks).Failed? <==> k < |chunks| && chunks[k].err.Some?
    ensures FirstResult(cmd, "", chunks).Completed? ==>
      chunks[k].err.None? && Complete(cmd, Data(chunks[..k + 1])) &&
      FirstResult(cmd, "", chunks).output == Without(Data(chunks[..k + 1]), '\r')
  {
    k := 0;
    while k < |chunks| && chunks[k].err.None? && !Complete(cmd, Data(chunks[..k + 1]))
      invariant k <= |chunks| && Quiet(cmd, chunks, k)
    {
      k := k + 1;
    }
    FirstResultAt(cmd, chunks, k);
  }

  /** When the command has no '\r', the completed output still contains the echoed command. */
  lemma CompletedEchoesCommand(cmd: string, chunks: seq<Chunk>)
    requires '\r' !in cmd && FirstResult(cmd, "", chunks).Completed?
    ensures Contains(FirstResult(cmd, "", chunks).output, cmd)
  {
    var k := FirstResultWitness(cmd, chunks);
    ContainsWithout(Data(chunks[..k + 1]), cmd, '\r');
  }

  /** The (output, error) pair RunCommand returns for a read outcome. */
  function Reply(o: ReadOutcome): (r: (string, Option<string>))
    ensures o.Completed? ==> r == (o.output, None)
    ensures !o.Completed? ==> r.0 == "" && r.1.Some?
    ensures o.NoCompletion? ==> r.1 == Some("Timeout reached")
    ensures o.Failed? ==> r.1 == Some(o.error)
  {
    match o
    case Completed(out) => (out, None)
    case Failed(e) => ("", Some(e))
    case NoCompletion => ("", Some("Timeout reached"))
  }

  /** NewSSSHConnection's address rule: a host without ':' gets the SSH port appended. */
  function HostWithDefaultPort(host: string): (r: string)
    ensures ':' in r
    ensures Contains(host, ":") ==> r == host
    ensures !Contains(host, ":") ==> StartsWith(r, host) && r[|host|..] == ":22"
  {
    ContainsChar(host, ':');
    if ':' in host then host else host + ":22"
  }

  /** A host without a port comes apart again into itself and "22". */
  lemma DefaultPortSplits(host: string)
    requires ':' !in host
    ensures Split(HostWithDefaultPort(host), ':') == [host, "22"]
  {
    ContainsChar(host, ':');
    assert HostWithDefaultPort(host) == host + [':'] + "22";
    SplitThroughPrefix(host, "22", ':');
  }

  /** Splitting a + [sep] + b, neither holding sep, gives [a, b]. */
  lemma {:induction false} SplitThroughPrefix(a: string, b: string, sep: char)
    requires sep !in a && sep !in b
    ensures Split(a + [sep] + b, sep) == [a, b]
    decreases |a|
  {
    if |a| == 0 {
      assert a + [sep] + b == [sep] + b;
      assert ([sep] + b)[1..] == b;
      SplitNoSep(b, sep);
    } else {
      assert (a + [sep] + b)[1..] == a[1..] + [sep] + b;
      SplitThroughPrefix(a[1..], b, sep);
      assert [a[0]] + a[1..] == a;
    }
  }

  /** The SSH client configuration `config` builds. Ciphers empty means the library's choice. */
  datatype ClientConfig = ClientConfig(user: string, keyFile: string, timeoutSeconds: int, ciphers: seq<string>)

  const LegacyCiphers: seq<string> := ["aes128-cbc", "3des-cbc"]

  /** A fresh client configuration; with legacy ciphers on, the library defaults come first and
      the two CBC ciphers after them. */
  function NewClientConfig(user: string, keyFile: string, legacy: bool, timeout: int, defaults: seq<string>): (c: ClientConfig)
    ensures c.user == user && c.keyFile == keyFile && c.timeoutSeconds == timeout
    ensures legacy ==> (|c.ciphers| == |defaults| + 2 && c.ciphers[..|defaults|] == defaults &&
                        c.ciphers[|defaults|..] == ["aes128-cbc", "3des-cbc"])
    ensures !legacy ==> c.ciphers == []
  {
    ClientConfig(user, keyFile, timeout, if legacy then defaults + LegacyCiphers else [])
  }

  /** The package-level cachedConfig, shared by every connection. */
  class ConfigCache {
    var cached: Option<ClientConfig>
    /** The cipher list ssh.ClientConfig.SetDefaults fills in. */
    const defaults: seq<string>

    constructor (defaults: seq<string>)
      ensures cached == None && this.defaults == defaults
    {
      cached := None;
      this.defaults := defaults;
    }

    /** connector.config: once a configuration is cached, every later call returns it whatever
        its arguments; otherwise a key-file failure is returned and nothing is cached. */
    method Get(user: string, keyFile: string, legacy: bool, timeout: int, keyErr: Option<string>)
      returns (cfg: Option<ClientConfig>, err: Option<string>)
      modifies this
      ensures old(cached).Some? ==> cached == old(cached) && cfg == old(cached) && err == None
      ensures old(cached).None? && keyErr.Some? ==> cached == None && cfg == None && err == keyErr
      ensures old(cached).None? && keyErr.None? ==>
        cfg == cached == Some(NewClientConfig(user, keyFile, legacy, timeout, defaults)) && err == None
    {
      if cached.Some? {
        return cached, None;
      }
      if keyErr.Some? {
        return None, keyErr;
      }
      cached := Some(NewClientConfig(user, keyFile, legacy, timeout, defaults));
      return cached, None;
    }
  }

  /** The ssh.Client: absent (nil), or present with its transport open, closed, or nil. */
  datatype Client = NoClient | Client(conn: ConnState)
  datatype ConnState = ConnOpen | ConnClosed | ConnNil

  /** The ssh.Session: absent (nil), open or closed. */
  datatype Session = NoSession | SessionOpen | SessionClosed

  function Head(streams: seq<seq<Chunk>>): seq<Chunk> {
    if |streams| > 0 then streams[0] else []
  }

  function Tail(streams: seq<seq<Chunk>>): seq<seq<Chunk>> {
    if |streams| > 0 then streams[1..] else []
  }

  class SSHConnection {
    var host: string
    const legacyCiphers: bool
    const batchSize: int
    var client: Client
    var session: Session
    /** Whether the stdin/stdout pipes are attached to a session. */
    var attached: bool
    /** Every line written to the session's stdin, in order. */
    var sent: seq<string>
    /** The chunk stream the device delivers for each of the following commands, in order. */
    var incoming: seq<seq<Chunk>>

    constructor (host: string, legacyCiphers: bool, batchSize: int, incoming: seq<seq<Chunk>>)
      ensures this.host == host && this.legacyCiphers == legacyCiphers && this.batchSize == batchSize
      ensures client == NoClient && session == NoSession && !attached && sent == []
      ensures this.incoming == incoming
    {
      this.host := host;
      this.legacyCiphers := legacyCiphers;
      this.batchSize := batchSize;
      client := NoClient;
      session := NoSession;
      attached := false;
      sent := [];
      this.incoming := incoming;
    }

    /** readln: accumulate chunks until the buffer holds the echoed command and ends in a prompt,
        then strip every '\r'; a read error is sent at once. */
    method Readln(cmd: string, chunks: seq<Chunk>) returns (out: ReadOutcome)
      ensures out == FirstResult(cmd, "", chunks)
    {
      var loadStr := "";
      var i := 0;
      while i < |chunks|
        invariant i <= |chunks|
        invariant FirstResult(cmd, "", chunks) == FirstResult(cmd, loadStr, chunks[i..])
      {
        assert chunks[i..][1..] == chunks[i + 1..];
        if chunks[i].err.Some? {
          return Failed(chunks[i].err.value);
        }
        loadStr := loadStr + chunks[i].data;
        if Contains(loadStr, cmd) && PromptAtEnd(loadStr) {
          return Completed(Without(loadStr, '\r'));
        }
        i := i + 1;
      }
      return NoCompletion;
    }

    /** RunCommand: write the command and a newline, then take readln's first result from this
        command's stream, or "Timeout reached" when none arrives. */
    method RunCommand(cmd: string) returns (output: string, err: Option<string>)
      requires attached
      modifies this
      ensures sent == old(sent) + [cmd + "\n"] && incoming == Tail(old(incoming))
      ensures (output, err) == Reply(FirstResult(cmd, "", Head(old(incoming))))
      ensures host == old(host) && client == old(client) && session == old(session) && attached
    {
      sent := sent + [cmd + "\n"];
      var stream := Head(incoming);
      incoming := Tail(incoming);
      var o := Readln(cmd, stream);
      output, err := Reply(o).0, Reply(o).1;
    }

    /** Connect: obtain the shared configuration, dial, open a session; on success prime the shell
        with an empty command and "terminal length 0", ignoring their results. */
    method Connect(user: string, keyFile: string, timeout: int, cache: ConfigCache,
                   keyErr: Option<string>, dialErr: Option<string>, sessionErr: Option<string>)
      returns (err: Option<string>)
      modifies this, cache
      ensures old(cache.cached).None? && keyErr.Some? ==>
        err == keyErr && client == old(client) && session == old(session) && sent == old(sent)
      ensures cache.cached.Some? <==> (old(cache.cached).Some? || keyErr.None?)
      ensures old(cache.cached).Some? ==> cache.cached == old(cache.cached)
      ensures old(cache.cached).None? && keyErr.None? ==>
        cache.cached == Some(NewClientConfig(user, keyFile, legacyCiphers, timeout, cache.defaults))
      ensures (old(cache.cached).Some? || keyErr.None?) && dialErr.Some? ==>
        err == dialErr && client == NoClient && session == old(session) && sent == old(sent)
      ensures (old(cache.cached).Some? || keyErr.None?) && dialErr.None? && sessionErr.Some? ==>
        err == sessionErr && client == Client(ConnClosed) && session == old(session) && sent == old(sent)
      ensures (old(cache.cached).Some? || keyErr.None?) && dialErr.None? && sessionErr.None? ==>
        err == None && client == Client(ConnOpen) && session == SessionOpen && attached
      ensures (old(cache.cached).Some? || keyErr.None?) && dialErr.None? && sessionErr.None? ==>
        sent == old(sent) + ["\n", "terminal length 0\n"] && incoming == Tail(Tail(old(incoming)))
      ensures host == old(host)
    {
      var cfg, e := cache.Get(user, keyFile, legacyCiphers, timeout, keyErr);
      if e.Some? {
        return e;
      }
      if dialErr.Some? {
        client := NoClient;
        return dialErr;
      }
      client := Client(ConnOpen);
      if sessionErr.Some? {
        client := Client(ConnClosed);
        return sessionErr;
      }
      attached := true;
      session := SessionOpen;
      ghost var sent0, incoming0 := sent, incoming;
      assert sent0 == old(sent) && incoming0 == old(incoming);
      var _, _ := RunCommand("");
      var _, _ := RunCommand("terminal length 0");
      assert sent == sent0 + ["" + "\n"] + ["terminal length 0" + "\n"];
      assert "" + "\n" == "\n";
      assert "terminal length 0" + "\n" == "terminal length 0\n";
      assert sent == sent0 + ["\n", "terminal length 0\n"];
      assert incoming == Tail(Tail(incoming0));
      return None;
    }

    /** Close: nothing to do without a transport; otherwise close it and the session, if any. */
    method Close()
      requires client != NoClient
      modifies this
      ensures old(client).conn == ConnNil ==> client == old(client) && session == old(session)
      ensures old(client).conn != ConnNil ==>
        (client == Client(ConnClosed) && session == (if old(session) == NoSession then NoSession else SessionClosed))
      ensures host == old(host) && sent == old(sent) && incoming == old(incoming) && attached == old(attached)
    {
      if client.conn == ConnNil {
        return;
      }
      client := Client(ConnClosed);
      if session != NoSession {
        session := SessionClosed;
      }
    }
  }

  /** NewSSSHConnection: default the port, then connect; a failed connect yields no connection. */
  method NewSSSHConnection(host: string, user: string, keyFile: string, legacyCiphers: bool, timeout: int,
                           batchSize: int, cache: ConfigCache, incoming: seq<seq<Chunk>>,
                           keyErr: Option<string>, dialErr: Option<string>, sessionErr: Option<string>)
    returns (c: SSHConnection?, err: Option<string>)
    modifies cache
    ensures err.None? <==> c != null
    ensures c != null ==> (fresh(c) && c.host == HostWithDefaultPort(host) && c.client == Client(ConnOpen) &&
                           c.session == SessionOpen && c.sent == ["\n", "terminal length 0\n"] &&
                           c.incoming == Tail(Tail(incoming)))
    ensures old(cache.cached).None? && keyErr.Some? ==> err == keyErr && cache.cached == None
    ensures old(cache.cached).Some? ==> cache.cached == old(cache.cached)
    ensures old(cache.cached).None? && keyErr.None? ==>
      cache.cached == Some(NewClientConfig(user, keyFile, legacyCiphers, timeout, cache.defaults))
    ensures (old(cache.cached).Some? || keyErr.None?) && dialErr.Some? ==> err == dialErr
    ensures (old(cache.cached).Some? || keyErr.None?) && dialErr.None? && sessionErr.Some? ==> err == sessionErr
    ensures (old(cache.cached).Some? || keyErr.None?) && dialErr.None? && sessionErr.None? ==> err == None
  {
    c := new SSHConnection(HostWithDefaultPort(host), legacyCiphers, batchSize, incoming);
    err := c.Connect(user, keyFile, timeout, cache, keyErr, dialErr, sessionErr);
    if err.Some? {
      c := null;
    }
  }
}
