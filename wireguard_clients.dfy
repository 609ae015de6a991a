/**
 * The client workflows of the WireGuard manager: creating a client (keys,
 * server information, the next free address, the peer entry, the local
 * configuration file), removing and revoking it, blocking and unblocking it,
 * and asking whether it is blocked.
 *
 * Every workflow connects first; whether connectToServer succeeds is the
 * `connected` parameter, and a failed connection sends nothing. The local
 * configuration directory is a map from path to content, and whether a
 * local write or removal succeeds is a parameter too.
 */
module WireguardClients {
  import opened Outcomes
  import opened GoText
  import opened PeerRegistry
  import opened RemoteShell
  import opened Wireguard

  // ---------------------------------------------------------------------
  // The steps of CreateClientConfig, each as the result it reports and the
  // server it leaves, and the methods that carry them out

  /** The commands generateClientKeys sends from position n: `wg genkey`, then `wg pubkey` of the trimmed key when it ran. */
  function ClientKeysSteps(o: Oracle, n: nat): seq<Sent> {
    var gen := o(n, Shell(Plain(ClientKeygenCmd)));
    if !gen.ok then [Shell(Plain(ClientKeygenCmd))]
    else [Shell(Plain(ClientKeygenCmd)), Shell(Plain(PubkeyCmd(TrimSpace(gen.stdout))))]
  }

  /** generateClientKeys on h0: the trimmed key pair, or the error of the first command that failed; only the trace changes. */
  function ClientKeysRun(h0: Host, o: Oracle): (Result<(string, string), Failure>, Host) {
    var n := |h0.trace|;
    var gen := o(n, Shell(Plain(ClientKeygenCmd)));
    var privateKey := TrimSpace(gen.stdout);
    var pub := o(n + 1, Shell(Plain(PubkeyCmd(privateKey))));
    (if !gen.ok then Err(ClientKeygenFailed) else if !pub.ok then Err(ClientPubkeyFailed)
     else Ok((privateKey, TrimSpace(pub.stdout))),
     h0.(trace := h0.trace + ClientKeysSteps(o, n)))
  }

  /** generateClientKeys: the key pair and the server ClientKeysRun describes. */
  method GenerateClientKeys(h0: Host, o: Oracle) returns (r: Result<(string, string), Failure>, h: Host)
    ensures (r, h) == ClientKeysRun(h0, o)
  {
    var (gen, h1) := ExecPlain(h0, o, ClientKeygenCmd);
    if !gen.ok {
      return Err(ClientKeygenFailed), h1;
    }
    var privateKey := TrimSpace(gen.stdout);
    var (pub, h2) := ExecPlain(h1, o, PubkeyCmd(privateKey));
    assert h2.trace == h0.trace + [Shell(Plain(ClientKeygenCmd)), Shell(Plain(PubkeyCmd(privateKey)))];
    if !pub.ok {
      return Err(ClientPubkeyFailed), h2;
    }
    return Ok((privateKey, TrimSpace(pub.stdout))), h2;
  }

  /**
   * getServerInfo's first step on h0: test for the server's public key and,
   * when the test does not say it exists, create the directory, generate the
   * key pair and restrict its permissions, stopping at the first failure.
   */
  function ServerKeysRun(h0: Host, o: Oracle): (Result<(), Failure>, Host) {
    var n := |h0.trace|;
    var found := o(n, Shell(TestPublicKey)).ok && h0.publicKeyFile;
    var mkdir, gen, chmod := o(n + 1, Shell(Plain(MkdirCmd))).ok, o(n + 2, Shell(GenerateServerKeys)).ok,
                             o(n + 3, Shell(ChmodKeys)).ok;
    var generated := !found && mkdir && gen;
    (if found then Ok(()) else if !mkdir then Err(MkdirFailed) else if !gen then Err(KeygenFailed)
     else if !chmod then Err(KeyPermissionsFailed) else Ok(()),
     h0.(privateKeyFile := h0.privateKeyFile || generated, publicKeyFile := h0.publicKeyFile || generated,
         trace := h0.trace + ServerKeysSteps(h0, o)))
  }

  /** The commands of getServerInfo's key step from h0: the test, then mkdir, keygen and chmod up to the first failure. */
  function ServerKeysSteps(h0: Host, o: Oracle): seq<Sent> {
    var n := |h0.trace|;
    if o(n, Shell(TestPublicKey)).ok && h0.publicKeyFile then [Shell(TestPublicKey)]
    else if !o(n + 1, Shell(Plain(MkdirCmd))).ok then [Shell(TestPublicKey), Shell(Plain(MkdirCmd))]
    else if !o(n + 2, Shell(GenerateServerKeys)).ok then [Shell(TestPublicKey), Shell(Plain(MkdirCmd)), Shell(GenerateServerKeys)]
    else [Shell(TestPublicKey), Shell(Plain(MkdirCmd)), Shell(GenerateServerKeys), Shell(ChmodKeys)]
  }

  /** getServerInfo's key step: the outcome ServerKeysRun describes; on success the public key exists. */
  method EnsureServerKeys(h0: Host, o: Oracle) returns (r: Result<(), Failure>, h: Host)
    ensures (r, h) == ServerKeysRun(h0, o)
    ensures r.Ok? ==> h.publicKeyFile
  {
    var found, h1 := RunProbe(h0, o, TestPublicKey);
    if found {
      return Ok(()), h1;
    }
    var (mkdir, h2) := ExecPlain(h1, o, MkdirCmd);
    assert h2.trace == h0.trace + [Shell(TestPublicKey), Shell(Plain(MkdirCmd))];
    if !mkdir.ok {
      return Err(MkdirFailed), h2;
    }
    var (gen, h3) := Exec(h2, o, GenerateServerKeys);
    assert h3.trace == h0.trace + [Shell(TestPublicKey), Shell(Plain(MkdirCmd)), Shell(GenerateServerKeys)];
    if !gen.ok {
      return Err(KeygenFailed), h3;
    }
    var (chmod, h4) := Exec(h3, o, ChmodKeys);
    assert h4.trace == h0.trace + [Shell(TestPublicKey), Shell(Plain(MkdirCmd)), Shell(GenerateServerKeys), Shell(ChmodKeys)];
    if !chmod.ok {
      return Err(KeyPermissionsFailed), h4;
    }
    return Ok(()), h4;
  }

  /** The server's public IP as read on h0: curl's answer, or `hostname -I` when curl fails. */
  function PublicIPRun(h0: Host, o: Oracle): (Result<string, Failure>, Host) {
    var n := |h0.trace|;
    (PublicIP(o, n), h0.(trace := h0.trace + PublicIPSteps(o, n)))
  }

  /** The public IP read from position n. */
  function PublicIP(o: Oracle, n: nat): Result<string, Failure> {
    var curl, hostname := o(n, Shell(Plain(PublicIPCmd))), o(n + 1, Shell(Plain(HostnameIPCmd)));
    if curl.ok then Ok(TrimSpace(curl.stdout))
    else if hostname.ok then Ok(TrimSpace(hostname.stdout))
    else Err(PublicIPFailed)
  }

  /** The commands that read the public IP from position n: curl, then `hostname -I` when curl fails. */
  function PublicIPSteps(o: Oracle, n: nat): seq<Sent> {
    if o(n, Shell(Plain(PublicIPCmd))).ok then [Shell(Plain(PublicIPCmd))]
    else [Shell(Plain(PublicIPCmd)), Shell(Plain(HostnameIPCmd))]
  }

  /** The server's public IP and the server PublicIPRun describes. */
  method FetchPublicIP(h0: Host, o: Oracle) returns (r: Result<string, Failure>, h: Host)
    ensures (r, h) == PublicIPRun(h0, o)
  {
    var (curl, h1) := ExecPlain(h0, o, PublicIPCmd);
    var output := curl;
    h := h1;
    if !curl.ok {
      var (hostname, h2) := ExecPlain(h1, o, HostnameIPCmd);
      assert h2.trace == h0.trace + [Shell(Plain(PublicIPCmd)), Shell(Plain(HostnameIPCmd))];
      if !hostname.ok {
        return Err(PublicIPFailed), h2;
      }
      output, h := hostname, h2;
    }
    r := Ok(TrimSpace(output.stdout));
  }

  /** The server's listening port as getServerInfo reads it from wg0.conf, 51820 by default. */
  method ReadServerPort(h0: Host, o: Oracle) returns (port: string, h: Host)
    ensures Sends(h0, h, [Registry(GrepListenPort)])
    ensures port == ServerPort(o(|h0.trace|, Registry(GrepListenPort)).ok, ListenPortOutput(h0.conf))
    ensures port != ""
  {
    var (out, h1) := ExecEdit(h0, o, GrepListenPort);
    if !out.ok {
      port := "51820";
    } else {
      port := TrimSpace(out.stdout);
      if port == "" {
        port := "51820";
      }
    }
    h := h1;
  }

  /** The server's public key as getServerInfo reads it on h0: an error when it cannot be read or is empty. */
  function PublicKeyRead(h0: Host, o: Oracle): Result<string, Failure> {
    var cat := o(|h0.trace|, Shell(CatPublicKey));
    if !(cat.ok && h0.publicKeyFile) then Err(ReadPublicKeyFailed)
    else if TrimSpace(cat.stdout) == "" then Err(EmptyPublicKey)
    else Ok(TrimSpace(cat.stdout))
  }

  /** getServerInfo's read of the server's public key: one cat, and the key PublicKeyRead describes. */
  method ReadPublicKey(h0: Host, o: Oracle) returns (r: Result<string, Failure>, h: Host)
    ensures Sends(h0, h, [Shell(CatPublicKey)])
    ensures r == PublicKeyRead(h0, o)
    ensures r.Ok? ==> r.value != "" && h0.publicKeyFile
  {
    var (cat, h1) := Exec(h0, o, CatPublicKey);
    ghost var t := o(|h0.trace|, Shell(CatPublicKey));
    assert cat == (if t.ok && h0.publicKeyFile then t else Run(false, ""));
    h := h1;
    if !cat.ok {
      return Err(ReadPublicKeyFailed), h;
    }
    var publicKey := TrimSpace(cat.stdout);
    if publicKey == "" {
      return Err(EmptyPublicKey), h;
    }
    return Ok(publicKey), h;
  }

  /** One of the ports getServerInfo can report for a registry: its ListenPort, or the default. */
  predicate PortOf(conf: Option<Lines>, port: string) {
    port == ServerPort(true, ListenPortOutput(conf)) || port == ServerPort(false, ListenPortOutput(conf))
  }

  /**
   * getServerInfo after the key step, on h0: the public key, then the public
   * IP, then the port, stopping at the first failure.
   */
  function ServerInfoRun(h0: Host, o: Oracle): (Result<ServerInfo, Failure>, Host) {
    (ServerInfoRead(h0, o), h0.(trace := h0.trace + ServerInfoSteps(h0, o)))
  }

  /** The server information read from h0, or the error of the first read that failed. */
  function ServerInfoRead(h0: Host, o: Oracle): Result<ServerInfo, Failure> {
    var n := |h0.trace|;
    var key, ip := PublicKeyRead(h0, o), PublicIP(o, n + 1);
    var port := ServerPort(o(n + 1 + |PublicIPSteps(o, n + 1)|, Registry(GrepListenPort)).ok, ListenPortOutput(h0.conf));
    if key.Err? then Err(key.error)
    else if ip.Err? then Err(ip.error)
    else Ok(ServerInfo(key.value, ip.value, port))
  }

  /** The commands of the reads from h0: the cat, then the public IP, then the port, up to the first failure. */
  function ServerInfoSteps(h0: Host, o: Oracle): seq<Sent> {
    var n := |h0.trace|;
    if PublicKeyRead(h0, o).Err? then [Shell(CatPublicKey)]
    else if PublicIP(o, n + 1).Err? then [Shell(CatPublicKey)] + PublicIPSteps(o, n + 1)
    else [Shell(CatPublicKey)] + PublicIPSteps(o, n + 1) + [Registry(GrepListenPort)]
  }

  /** getServerInfo after the keys exist: the information ServerInfoRun describes; only the trace changes. */
  method ReadServerInfo(h0: Host, o: Oracle) returns (r: Result<ServerInfo, Failure>, h: Host)
    ensures (r, h) == ServerInfoRun(h0, o)
    ensures h == h0.(trace := h.trace)
    ensures var cat := o(|h0.trace|, Shell(CatPublicKey));
      r.Ok? ==> cat.ok && h0.publicKeyFile && r.value.publicKey == TrimSpace(cat.stdout) != ""
    ensures r.Ok? ==> PortOf(h0.conf, r.value.port)
  {
    var key, h1 := ReadPublicKey(h0, o);
    if key.Err? {
      return Err(key.error), h1;
    }
    var ip, h2 := FetchPublicIP(h1, o);
    ghost var steps := PublicIPSteps(o, |h1.trace|);
    Concatenated(h0.trace, [Shell(CatPublicKey)], steps, [Registry(GrepListenPort)]);
    assert ip == PublicIP(o, |h0.trace| + 1);
    if ip.Err? {
      assert ServerInfoRead(h0, o) == Err(ip.error);
      assert h2.trace == h0.trace + ServerInfoSteps(h0, o);
      return Err(ip.error), h2;
    }
    var port, h3 := ReadServerPort(h2, o);
    assert Ok(ServerInfo(key.value, ip.value, port)) == ServerInfoRead(h0, o);
    assert h3.trace == h0.trace + ServerInfoSteps(h0, o);
    return Ok(ServerInfo(key.value, ip.value, port)), h3;
  }

  /** On a server whose wg0.conf is the one setupServerConfig writes, getServerInfo reports port 51820. */
  lemma FreshServerPort(privateKey: string, netInterface: string, port: string)
    requires OneLine(privateKey) && OneLine(netInterface)
    requires !Contains(privateKey, "ListenPort") && !Contains(netInterface, "ListenPort")
    requires PortOf(Some(LinesOf(ServerConfigText(privateKey, netInterface))), port)
    ensures port == "51820"
  {
    PortOfServerConfig(privateKey, netInterface);
  }

  /** getServerInfo on h0: the key step, then the reads, each only after the previous one succeeded. */
  function GetServerInfoRun(h0: Host, o: Oracle): (Result<ServerInfo, Failure>, Host) {
    var keys := ServerKeysRun(h0, o);
    if keys.0.Err? then (Err(keys.0.error), keys.1) else ServerInfoRun(keys.1, o)
  }

  /** getServerInfo leaves wg0.conf and the staging file alone and only extends the trace. */
  lemma ServerInfoKeepsConf(h0: Host, o: Oracle)
    ensures var info := GetServerInfoRun(h0, o);
      info.1 == h0.(privateKeyFile := info.1.privateKeyFile, publicKeyFile := info.1.publicKeyFile, trace := info.1.trace) &&
      |h0.trace| < |info.1.trace| && info.1.trace[..|h0.trace|] == h0.trace
  {
    var keys := ServerKeysRun(h0, o);
    if keys.0.Ok? {
      Extended(h0.trace, ServerKeysSteps(h0, o), ServerInfoSteps(keys.1, o));
    }
  }

  /** getServerInfo fails only for reasons of its own, never with a registration or local-write failure. */
  lemma ServerInfoErrors(h0: Host, o: Oracle)
    ensures var info := GetServerInfoRun(h0, o);
      info.0.Err? ==> info.0.error !in {AppendFailed, RestartFailed, WriteLocalFailed}
  {
    var keys := ServerKeysRun(h0, o);
    if keys.0.Err? {
      assert GetServerInfoRun(h0, o).0 == Err(keys.0.error);
      assert keys.0.error in {MkdirFailed, KeygenFailed, KeyPermissionsFailed};
    } else {
      var read := ServerInfoRead(keys.1, o);
      assert GetServerInfoRun(h0, o).0 == read;
      assert PublicKeyRead(keys.1, o).Err? ==> PublicKeyRead(keys.1, o).error !in {AppendFailed, RestartFailed, WriteLocalFailed};
    }
  }

  /** A trace extended twice keeps its first part. */
  lemma Extended(t: seq<Sent>, p: seq<Sent>, q: seq<Sent>)
    ensures (t + p + q)[..|t|] == t && |t + p + q| == |t| + |p| + |q|
  {
    assert t + p + q == t + (p + q);
  }

  /** getServerInfo: make sure the server keys exist, then read the key, the IP and the port. */
  method GetServerInfo(h0: Host, o: Oracle) returns (r: Result<ServerInfo, Failure>, h: Host)
    ensures (r, h) == GetServerInfoRun(h0, o)
    ensures h.conf == h0.conf && h.staged == h0.staged
    ensures r.Ok? ==> h.publicKeyFile
    ensures r.Ok? ==> r.value.publicKey != ""
    ensures r.Ok? ==> PortOf(h0.conf, r.value.port)
  {
    var keys, h1 := EnsureServerKeys(h0, o);
    if keys.Err? {
      return Err(keys.error), h1;
    }
    r, h := ReadServerInfo(h1, o);
  }

  /** getNextClientIP: the address after the highest last octet the AllowedIPs lines show. */
  method GetNextClientIP(h0: Host, o: Oracle) returns (ip: string, h: Host)
    ensures Sends(h0, h, [Registry(GrepAllowedIPs)])
    ensures ip == NextAddress(o(|h0.trace|, Registry(GrepAllowedIPs)).ok && AllowedIPsFound(h0.conf),
                              AllowedIPsOutput(h0.conf))
  {
    var (out, h1) := ExecEdit(h0, o, GrepAllowedIPs);
    ip := NextClientIP(out.ok, out.stdout);
    h := h1;
  }

  /**
   * addClientToServer: echo the peer entry onto wg0.conf (creating it when
   * it is missing). The registry gains exactly the client's six lines.
   */
  method AddClientToServer(h0: Host, o: Oracle, clientName: string, publicKey: string, clientIP: string)
    returns (r: Result<(), Failure>, h: Host)
    ensures var e := AppendPeer(PeerEntry(clientName, publicKey, clientIP));
      !o(|h0.trace|, Registry(e)).ok ==> r == Err(AppendFailed) && Sends(h0, h, [Registry(e)])
    ensures var e := AppendPeer(PeerEntry(clientName, publicKey, clientIP));
      o(|h0.trace|, Registry(e)).ok ==>
        r.Ok? && h == h0.(conf := h.conf, trace := h0.trace + [Registry(e)]) &&
        h.conf == Some(ConfLines(h0.conf) + LinesOf(PeerEntry(clientName, publicKey, clientIP) + "\n"))
    ensures r.Ok? && OneLine(clientName) && OneLine(publicKey) && OneLine(clientIP) ==>
      h.conf == Some(ConfLines(h0.conf) + PeerBlock(clientName, publicKey, clientIP))
  {
    var (out, h1) := ExecEdit(h0, o, AppendPeer(PeerEntry(clientName, publicKey, clientIP)));
    if !out.ok {
      return Err(AppendFailed), h1;
    }
    if OneLine(clientName) && OneLine(publicKey) && OneLine(clientIP) {
      AppendedLines(clientName, publicKey, clientIP);
    }
    return Ok(()), h1;
  }

  /** restartWireguard: `systemctl restart wg-quick@wg0`. */
  method RestartWireguard(h0: Host, o: Oracle) returns (r: Result<(), Failure>, h: Host)
    ensures Sends(h0, h, [Shell(Plain(RestartCmd))])
    ensures r == (if o(|h0.trace|, Shell(Plain(RestartCmd))).ok then Ok(()) else Err(RestartFailed))
  {
    var (out, h1) := ExecPlain(h0, o, RestartCmd);
    r := if out.ok then Ok(()) else Err(RestartFailed);
    h := h1;
  }

  /**
   * createLocalClientConfig: write the client configuration to
   * `<configDir>/<clientName>.conf` and return that path. The path names
   * the client again, and no other file changes.
   */
  function CreateLocalClientConfig(files: Files, configDir: string, clientName: string, privateKey: string,
                                   info: ServerInfo, clientIP: string, writeOk: bool): (out: (Result<string, Failure>, Files))
    ensures out.0.Ok? <==> writeOk
    ensures out.0.Err? ==> out.0.error == WriteLocalFailed && out.1 == files
    ensures out.0.Ok? ==>
      out.0.value == ConfigPath(configDir, clientName) &&
      out.1.Keys == files.Keys + {out.0.value} &&
      out.1[out.0.value] == ClientConfigText(privateKey, clientIP, info.publicKey, info.publicIP, info.port) &&
      (forall p :: p in files && p != out.0.value ==> out.1[p] == files[p])
    ensures out.0.Ok? && clientName != "" && '/' !in clientName ==> ClientName(out.0.value) == Ok(clientName)
  {
    var path := ConfigPath(configDir, clientName);
    if !writeOk then (Err(WriteLocalFailed), files)
    else
      ClientNameOfWrittenPath(configDir, clientName);
      (Ok(path), files[path := ClientConfigText(privateKey, clientIP, info.publicKey, info.publicIP, info.port)])
  }

  lemma ClientNameOfWrittenPath(configDir: string, clientName: string)
    ensures clientName != "" && '/' !in clientName ==> ClientName(ConfigPath(configDir, clientName)) == Ok(clientName)
  {
    if clientName != "" && '/' !in clientName {
      ClientNameOfConfigPath(configDir, clientName);
    }
  }

  /** The address getNextClientIP reports on h0: the one after the AllowedIPs lines the grep shows. */
  function NextIPOn(h0: Host, o: Oracle): string {
    NextAddress(o(|h0.trace|, Registry(GrepAllowedIPs)).ok && AllowedIPsFound(h0.conf), AllowedIPsOutput(h0.conf))
  }

  /**
   * The server side of a new client on h0: the grep for the next free
   * address, the peer entry appended with that address, then the restart
   * when the append succeeded. Reports the address.
   */
  function RegisterRun(h0: Host, o: Oracle, clientName: string, publicKey: string): (Result<string, Failure>, Host) {
    var n, ip := |h0.trace|, NextIPOn(h0, o);
    var appended := o(n + 1, Registry(AppendPeer(PeerEntry(clientName, publicKey, ip)))).ok;
    (if !appended then Err(AppendFailed) else if !o(n + 2, Shell(Plain(RestartCmd))).ok then Err(RestartFailed) else Ok(ip),
     h0.(conf := if appended then Some(ConfLines(h0.conf) + LinesOf(PeerEntry(clientName, publicKey, ip) + "\n")) else h0.conf,
         trace := h0.trace + RegisterSteps(h0, o, clientName, publicKey)))
  }

  /** The commands of the registration from h0: the grep, the append, and the restart once the append succeeded. */
  function RegisterSteps(h0: Host, o: Oracle, clientName: string, publicKey: string): seq<Sent> {
    var n, append := |h0.trace|, AppendPeer(PeerEntry(clientName, publicKey, NextIPOn(h0, o)));
    if !o(n + 1, Registry(append)).ok then [Registry(GrepAllowedIPs), Registry(append)]
    else [Registry(GrepAllowedIPs), Registry(append), Shell(Plain(RestartCmd))]
  }

  /**
   * The server side of a new client: the outcome RegisterRun describes. On
   * success wg0.conf gained the client's entry with the returned address.
   */
  method RegisterClient(h0: Host, o: Oracle, clientName: string, publicKey: string)
    returns (r: Result<string, Failure>, h: Host)
    ensures (r, h) == RegisterRun(h0, o, clientName, publicKey)
    ensures var ip := NextAddress(o(|h0.trace|, Registry(GrepAllowedIPs)).ok && AllowedIPsFound(h0.conf),
                                  AllowedIPsOutput(h0.conf));
      r.Ok? ==> r.value == ip && h.conf == Some(ConfLines(h0.conf) + LinesOf(PeerEntry(clientName, publicKey, ip) + "\n"))
  {
    var ip, h1 := GetNextClientIP(h0, o);
    var added, h2 := AddClientToServer(h1, o, clientName, publicKey, ip);
    ghost var append := Registry(AppendPeer(PeerEntry(clientName, publicKey, ip)));
    assert h2.trace == h0.trace + [Registry(GrepAllowedIPs), append];
    if added.Err? {
      return Err(added.error), h2;
    }
    var restarted, h3 := RestartWireguard(h2, o);
    assert h3.trace == h0.trace + [Registry(GrepAllowedIPs), append, Shell(Plain(RestartCmd))];
    if restarted.Err? {
      return Err(restarted.error), h3;
    }
    return Ok(ip), h3;
  }

  /** The pieces a new client is made of: its key pair, the server's information, its address. */
  datatype Creation = Creation(privateKey: string, publicKey: string, info: ServerInfo, clientIP: string)

  /** What a creation that stopped before the server information was known is made of. */
  const NoCreation := Creation("", "", ServerInfo("", "", ""), "")

  /**
   * CreateClientConfig once connected, on h0 and the local files: the
   * client's keys, the server's information, the peer registered on the
   * server, then the local file, each only after the previous one
   * succeeded. Returns the result, the server, the local files and the
   * pieces used once the keys and the server information are known.
   */
  function CreationRun(h0: Host, o: Oracle, files: Files, configDir: string, clientName: string, writeOk: bool)
    : (Result<string, Failure>, Host, Files, Creation)
  {
    var keys := ClientKeysRun(h0, o);
    if keys.0.Err? then (Err(keys.0.error), keys.1, files, NoCreation)
    else
      var (privateKey, publicKey) := keys.0.value;
      var info := GetServerInfoRun(keys.1, o);
      if info.0.Err? then (Err(info.0.error), info.1, files, NoCreation)
      else
        var reg := RegisterRun(info.1, o, clientName, publicKey);
        var made := Creation(privateKey, publicKey, info.0.value, NextIPOn(info.1, o));
        if reg.0.Err? then (Err(reg.0.error), reg.1, files, made)
        else
          var local := CreateLocalClientConfig(files, configDir, clientName, privateKey, info.0.value,
                                               reg.0.value, writeOk);
          (local.0, reg.1, local.1, made)
  }

  /**
   * A successful creation on h0, read off the server h and the pieces
   * `made`: the keygen and the pubkey of its trimmed output come first and
   * gave made's key pair; the server information is getServerInfo's answer
   * on the server after them; the last three commands are the grep, the
   * append of made's peer entry and the restart, and the last two
   * succeeded; made's address is the one the grep gave.
   */
  predicate CreatedInOrder(h0: Host, o: Oracle, clientName: string, h: Host, made: Creation) {
    KeysFirst(h0, o, h, made) && InfoNext(h0, o, h, made) && RestartLast(h0, o, clientName, h, made)
  }

  /** h's trace extends h0's by the keygen, then the pubkey of its trimmed output; both ran and gave made's pair. */
  predicate KeysFirst(h0: Host, o: Oracle, h: Host, made: Creation) {
    var n := |h0.trace|;
    var gen := o(n, Shell(Plain(ClientKeygenCmd)));
    n + 2 <= |h.trace| && h.trace[..n] == h0.trace &&
    h.trace[n] == Shell(Plain(ClientKeygenCmd)) && gen.ok && made.privateKey == TrimSpace(gen.stdout) &&
    h.trace[n + 1] == Shell(Plain(PubkeyCmd(made.privateKey))) && o(n + 1, h.trace[n + 1]).ok &&
    made.publicKey == TrimSpace(o(n + 1, h.trace[n + 1]).stdout)
  }

  /** Between the keys and the last three commands, getServerInfo ran on the server and answered made's information. */
  predicate InfoNext(h0: Host, o: Oracle, h: Host, made: Creation) {
    var n, m := |h0.trace|, |h.trace|;
    n + 5 <= m &&
    GetServerInfoRun(h0.(trace := h.trace[..n + 2]), o) == (Ok(made.info), h.(conf := h0.conf, trace := h.trace[..m - 3]))
  }

  /** The last three commands are the grep, the append of made's entry and the restart; the last two succeeded. */
  predicate RestartLast(h0: Host, o: Oracle, clientName: string, h: Host, made: Creation) {
    var m := |h.trace|;
    var append := AppendPeer(PeerEntry(clientName, made.publicKey, made.clientIP));
    3 <= m && h.trace[m - 3..] == [Registry(GrepAllowedIPs), Registry(append), Shell(Plain(RestartCmd))] &&
    o(m - 2, Registry(append)).ok && o(m - 1, Shell(Plain(RestartCmd))).ok &&
    made.clientIP == NextAddress(o(m - 3, Registry(GrepAllowedIPs)).ok && AllowedIPsFound(h0.conf), AllowedIPsOutput(h0.conf))
  }

  /**
   * CreateClientConfig once connected: the outcome CreationRun describes.
   * On success the registry gained the client's entry with the address
   * allocated from it, the commands ran in the order CreatedInOrder states,
   * and the local file holds the matching configuration; on failure the
   * local files are unchanged.
   */
  method ProvisionClient(h0: Host, o: Oracle, files: Files, configDir: string, clientName: string, writeOk: bool)
    returns (r: Result<string, Failure>, h: Host, files': Files, ghost made: Creation)
    ensures (r, h, files', made) == CreationRun(h0, o, files, configDir, clientName, writeOk)
    ensures h.staged == h0.staged
    ensures r.Err? ==> files' == files
    ensures r.Ok? ==>
      writeOk && r.value == ConfigPath(configDir, clientName) &&
      files' == files[r.value := ClientConfigText(made.privateKey, made.clientIP, made.info.publicKey,
                                                  made.info.publicIP, made.info.port)] &&
      made.info.publicKey != "" && PortOf(h0.conf, made.info.port) &&
      h.conf == Some(ConfLines(h0.conf) + LinesOf(PeerEntry(clientName, made.publicKey, made.clientIP) + "\n")) &&
      CreatedInOrder(h0, o, clientName, h, made)
  {
    made := NoCreation;
    files' := files;
    var keys, h1 := GenerateClientKeys(h0, o);
    if keys.Err? {
      return Err(keys.error), h1, files', made;
    }
    var (privateKey, publicKey) := keys.value;
    var info, h2 := GetServerInfo(h1, o);
    if info.Err? {
      return Err(info.error), h2, files', made;
    }
    made := Creation(privateKey, publicKey, info.value, NextIPOn(h2, o));
    var ip, h3 := RegisterClient(h2, o, clientName, publicKey);
    if ip.Err? {
      return Err(ip.error), h3, files', made;
    }
    var (written, files1) := CreateLocalClientConfig(files, configDir, clientName, privateKey, info.value,
                                                     ip.value, writeOk);
    assert written.Ok? ==> files1 == files[written.value := files1[written.value]];
    if written.Ok? {
      CreationInOrder(h0, o, files, configDir, clientName, writeOk);
    }
    return written, h3, files1, made;
  }

  /** A successful CreationRun sent its commands in the order CreatedInOrder states. */
  lemma CreationInOrder(h0: Host, o: Oracle, files: Files, configDir: string, clientName: string, writeOk: bool)
    ensures var c := CreationRun(h0, o, files, configDir, clientName, writeOk);
      c.0.Ok? ==> CreatedInOrder(h0, o, clientName, c.1, c.3)
  {
    var keys := ClientKeysRun(h0, o);
    if keys.0.Ok? {
      var info := GetServerInfoRun(keys.1, o);
      if info.0.Ok? {
        var reg := RegisterRun(info.1, o, clientName, keys.0.value.1);
        if reg.0.Ok? {
          ClientKeysOk(h0, o);
          ServerInfoKeepsConf(keys.1, o);
          RegisterOk(info.1, o, clientName, keys.0.value.1);
          RegisteredInOrder(h0, o, clientName, keys.1, keys.0.value.0, keys.0.value.1, info.1, info.0.value, reg.1);
        }
      }
    }
  }

  /** Successful key generation sends the keygen and the pubkey of its trimmed output, which give the pair. */
  lemma ClientKeysOk(h0: Host, o: Oracle)
    ensures var keys, n := ClientKeysRun(h0, o), |h0.trace|;
      var gen := o(n, Shell(Plain(ClientKeygenCmd)));
      var pub := o(n + 1, Shell(Plain(PubkeyCmd(TrimSpace(gen.stdout)))));
      keys.0.Ok? ==>
        gen.ok && pub.ok && keys.0.value == (TrimSpace(gen.stdout), TrimSpace(pub.stdout)) &&
        keys.1 == h0.(trace := h0.trace + [Shell(Plain(ClientKeygenCmd)), Shell(Plain(PubkeyCmd(TrimSpace(gen.stdout))))])
  {
  }

  /** Successful registration sends the grep, the append of the entry with the next address, and the restart, and both of the last two succeed. */
  lemma RegisterOk(h0: Host, o: Oracle, clientName: string, publicKey: string)
    ensures var reg, n := RegisterRun(h0, o, clientName, publicKey), |h0.trace|;
      var append := Registry(AppendPeer(PeerEntry(clientName, publicKey, NextIPOn(h0, o))));
      reg.0.Ok? ==>
        reg.0.value == NextIPOn(h0, o) && o(n + 1, append).ok && o(n + 2, Shell(Plain(RestartCmd))).ok &&
        reg.1 == h0.(conf := reg.1.conf, trace := h0.trace + [Registry(GrepAllowedIPs), append, Shell(Plain(RestartCmd))])
  {
  }

  /**
   * The three server stages of a creation, each given by the host it left:
   * hk after the keys, hi after getServerInfo, h after the registration.
   */
  predicate Stages(h0: Host, o: Oracle, clientName: string, hk: Host, privateKey: string, publicKey: string,
                   hi: Host, info: ServerInfo, h: Host) {
    var n, gen := |h0.trace|, o(|h0.trace|, Shell(Plain(ClientKeygenCmd)));
    var k, append := |hi.trace|, Registry(AppendPeer(PeerEntry(clientName, publicKey, NextIPOn(hi, o))));
    gen.ok && privateKey == TrimSpace(gen.stdout) && o(n + 1, Shell(Plain(PubkeyCmd(privateKey)))).ok &&
    publicKey == TrimSpace(o(n + 1, Shell(Plain(PubkeyCmd(privateKey)))).stdout) &&
    hk == h0.(trace := h0.trace + [Shell(Plain(ClientKeygenCmd)), Shell(Plain(PubkeyCmd(privateKey)))]) &&
    GetServerInfoRun(hk, o) == (Ok(info), hi) &&
    hi == hk.(privateKeyFile := hi.privateKeyFile, publicKeyFile := hi.publicKeyFile, trace := hi.trace) &&
    |hk.trace| < |hi.trace| && hi.trace[..|hk.trace|] == hk.trace &&
    o(k + 1, append).ok && o(k + 2, Shell(Plain(RestartCmd))).ok &&
    h == hi.(conf := h.conf, trace := hi.trace + [Registry(GrepAllowedIPs), append, Shell(Plain(RestartCmd))])
  }

  /** CreatedInOrder from the three server stages. */
  lemma RegisteredInOrder(h0: Host, o: Oracle, clientName: string, hk: Host, privateKey: string, publicKey: string,
                          hi: Host, info: ServerInfo, h: Host)
    requires Stages(h0, o, clientName, hk, privateKey, publicKey, hi, info, h)
    ensures CreatedInOrder(h0, o, clientName, h, Creation(privateKey, publicKey, info, NextIPOn(hi, o)))
  {
    var made := Creation(privateKey, publicKey, info, NextIPOn(hi, o));
    var c := [Registry(GrepAllowedIPs), Registry(AppendPeer(PeerEntry(clientName, publicKey, NextIPOn(hi, o)))),
              Shell(Plain(RestartCmd))];
    SplitTrace(hi.trace, c, |h0.trace| + 2);
    assert h.trace[..|h0.trace| + 2] == hk.trace;
    StagesKeysFirst(h0, o, h, made);
    StagesInfoNext(h0, o, clientName, hk, privateKey, publicKey, hi, info, h);
    StagesRestartLast(h0, o, clientName, hi, h, made);
  }

  lemma StagesKeysFirst(h0: Host, o: Oracle, h: Host, made: Creation)
    requires var n, gen := |h0.trace|, o(|h0.trace|, Shell(Plain(ClientKeygenCmd)));
      gen.ok && made.privateKey == TrimSpace(gen.stdout) && o(n + 1, Shell(Plain(PubkeyCmd(made.privateKey)))).ok &&
      made.publicKey == TrimSpace(o(n + 1, Shell(Plain(PubkeyCmd(made.privateKey)))).stdout) &&
      n + 2 <= |h.trace| &&
      h.trace[..n + 2] == h0.trace + [Shell(Plain(ClientKeygenCmd)), Shell(Plain(PubkeyCmd(made.privateKey)))]
    ensures KeysFirst(h0, o, h, made)
  {
    var n := |h0.trace|;
    assert h.trace[n] == h.trace[..n + 2][n];
    assert h.trace[n + 1] == h.trace[..n + 2][n + 1];
    assert h.trace[..n] == h.trace[..n + 2][..n];
  }

  lemma StagesInfoNext(h0: Host, o: Oracle, clientName: string, hk: Host, privateKey: string, publicKey: string,
                       hi: Host, info: ServerInfo, h: Host)
    requires Stages(h0, o, clientName, hk, privateKey, publicKey, hi, info, h)
    requires h.trace[..|h0.trace| + 2] == hi.trace[..|h0.trace| + 2] && h.trace[..|hi.trace|] == hi.trace
    ensures InfoNext(h0, o, h, Creation(privateKey, publicKey, info, NextIPOn(hi, o)))
  {
    var n, m := |h0.trace|, |h.trace|;
    assert h.trace[..n + 2] == hk.trace;
    assert h0.(trace := h.trace[..n + 2]) == hk;
    assert h.(conf := h0.conf, trace := h.trace[..m - 3]) == hi;
  }

  lemma StagesRestartLast(h0: Host, o: Oracle, clientName: string, hi: Host, h: Host, made: Creation)
    requires var k, append := |hi.trace|, Registry(AppendPeer(PeerEntry(clientName, made.publicKey, made.clientIP)));
      made.clientIP == NextIPOn(hi, o) && hi.conf == h0.conf &&
      o(k + 1, append).ok && o(k + 2, Shell(Plain(RestartCmd))).ok &&
      h.trace == hi.trace + [Registry(GrepAllowedIPs), append, Shell(Plain(RestartCmd))]
    ensures RestartLast(h0, o, clientName, h, made)
  {
    var m, k := |h.trace|, |hi.trace|;
    var c := [Registry(GrepAllowedIPs), Registry(AppendPeer(PeerEntry(clientName, made.publicKey, made.clientIP))),
              Shell(Plain(RestartCmd))];
    assert m - 3 == k && m - 2 == k + 1 && m - 1 == k + 2;
    assert h.trace[m - 3..] == c;
    assert NextIPOn(hi, o) == NextAddress(o(k, Registry(GrepAllowedIPs)).ok && AllowedIPsFound(hi.conf), AllowedIPsOutput(hi.conf));
  }

  /** A prefix of an extended trace that ends within the original trace is a prefix of the original. */
  lemma SplitTrace(t: seq<Sent>, c: seq<Sent>, k: nat)
    requires k <= |t|
    ensures (t + c)[..k] == t[..k] && (t + c)[..|t|] == t && (t + c)[|t|..] == c
  {
  }

  /**
   * A creation that fails leaves the local files as they were. Until the
   * peer entry is appended, wg0.conf is unchanged too; once it is (a failed
   * restart, or a failed local write after a successful restart), wg0.conf
   * keeps the new client's entry.
   */
  lemma CreationFailure(h0: Host, o: Oracle, files: Files, configDir: string, clientName: string, writeOk: bool)
    ensures var c := CreationRun(h0, o, files, configDir, clientName, writeOk);
      c.0.Err? ==>
        c.2 == files &&
        (c.0.error != RestartFailed && c.0.error != WriteLocalFailed ==> c.1.conf == h0.conf) &&
        (c.0.error == RestartFailed || c.0.error == WriteLocalFailed ==>
           c.1.conf == Some(ConfLines(h0.conf) + LinesOf(PeerEntry(clientName, c.3.publicKey, c.3.clientIP) + "\n")))
  {
    var c := CreationRun(h0, o, files, configDir, clientName, writeOk);
    var keys := ClientKeysRun(h0, o);
    if keys.0.Err? {
      assert c == (Err(keys.0.error), keys.1, files, NoCreation);
      assert keys.0.error == ClientKeygenFailed || keys.0.error == ClientPubkeyFailed;
    } else {
      var info := GetServerInfoRun(keys.1, o);
      ServerInfoKeepsConf(keys.1, o);
      ServerInfoErrors(keys.1, o);
      if info.0.Err? {
        assert c == (Err(info.0.error), info.1, files, NoCreation);
      } else {
        var reg := RegisterRun(info.1, o, clientName, keys.0.value.1);
        var made := Creation(keys.0.value.0, keys.0.value.1, info.0.value, NextIPOn(info.1, o));
        RegisterFailure(info.1, o, clientName, keys.0.value.1);
        if reg.0.Err? {
          assert c == (Err(reg.0.error), reg.1, files, made);
        } else {
          var local := CreateLocalClientConfig(files, configDir, clientName, keys.0.value.0, info.0.value,
                                               reg.0.value, writeOk);
          assert c == (local.0, reg.1, local.1, made);
        }
      }
    }
  }

  /** The registration's errors: a failed append leaves wg0.conf alone, a failed restart leaves the entry in it. */
  lemma RegisterFailure(h0: Host, o: Oracle, clientName: string, publicKey: string)
    ensures var reg := RegisterRun(h0, o, clientName, publicKey);
      (reg.0.Err? ==> reg.0.error == AppendFailed || reg.0.error == RestartFailed) &&
      (reg.0.Err? && reg.0.error == AppendFailed ==> reg.1.conf == h0.conf) &&
      (reg.0.Ok? || reg.0.error == RestartFailed ==>
         reg.1.conf == Some(ConfLines(h0.conf) + LinesOf(PeerEntry(clientName, publicKey, NextIPOn(h0, o)) + "\n")))
  {
  }

  /** CreateClientConfig: connect, then provision the client. */
  method CreateClientConfig(h0: Host, o: Oracle, files: Files, configDir: string, clientName: string,
                            connected: bool, writeOk: bool)
    returns (r: Result<string, Failure>, h: Host, files': Files, ghost made: Creation)
    ensures !connected ==> r == Err(ConnectFailed) && h == h0 && files' == files
    ensures connected ==> (r, h, files', made) == CreationRun(h0, o, files, configDir, clientName, writeOk)
    ensures r.Err? ==> files' == files
    ensures r.Ok? ==>
      connected && writeOk && r.value == ConfigPath(configDir, clientName) &&
      files' == files[r.value := ClientConfigText(made.privateKey, made.clientIP, made.info.publicKey,
                                                  made.info.publicIP, made.info.port)] &&
      made.info.publicKey != "" && PortOf(h0.conf, made.info.port) &&
      h.conf == Some(ConfLines(h0.conf) + LinesOf(PeerEntry(clientName, made.publicKey, made.clientIP) + "\n")) &&
      CreatedInOrder(h0, o, clientName, h, made)
  {
    if !connected {
      return Err(ConnectFailed), h0, files, NoCreation;
    }
    r, h, files', made := ProvisionClient(h0, o, files, configDir, clientName, writeOk);
  }

  // ---------------------------------------------------------------------
  // Removing, revoking, blocking and unblocking a client

  /**
   * removeClientFromServer and the restart: drop every line naming the
   * client. The command fails, leaving wg0.conf as it was, when the file is
   * missing or nothing of it is left to keep.
   */
  method RemoveFromServer(h0: Host, o: Oracle, clientName: string) returns (r: Result<(), Failure>, h: Host)
    ensures var e := RemovePeer(clientName);
      var kept := RemovalOutput(ConfLines(h0.conf), clientName);
      !(o(|h0.trace|, Registry(e)).ok && h0.conf.Some? && kept != []) ==>
        r == Err(RemoveFailed) && Sends(h0, h, [Registry(e)])
    ensures var n, e := |h0.trace|, RemovePeer(clientName);
      var kept := RemovalOutput(ConfLines(h0.conf), clientName);
      o(n, Registry(e)).ok && h0.conf.Some? && kept != [] ==>
        h == h0.(conf := Some(kept), trace := h0.trace + [Registry(e)] + [Shell(Plain(RestartCmd))]) &&
        r == (if o(n + 1, Shell(Plain(RestartCmd))).ok then Ok(()) else Err(RestartFailed))
    ensures r.Ok? ==> h0.conf.Some? && h.conf == Some(Without(h0.conf.value, NameComment(clientName)))
    ensures r.Ok? ==> forall k :: 0 <= k < |h.conf.value| ==> !Contains(h.conf.value[k], NameComment(clientName))
  {
    var (out, h1) := ExecEdit(h0, o, RemovePeer(clientName));
    if !out.ok {
      return Err(RemoveFailed), h1;
    }
    RemovalIsFilter(h0.conf.value, clientName);
    r, h := RestartWireguard(h1, o);
  }

  /** RemoveClient's local step: delete the configuration file when it exists. */
  function RemoveLocalConfig(files: Files, path: string, removeOk: bool): (out: (Result<(), Failure>, Files))
    ensures path !in files ==> out == (Ok(()), files)
    ensures path in files && !removeOk ==> out == (Err(RemoveLocalFailed), files)
    ensures out.0.Ok? ==> path !in out.1 && out.1 == files - {path}
  {
    if path !in files then (Ok(()), files)
    else if !removeOk then (Err(RemoveLocalFailed), files)
    else (Ok(()), files - {path})
  }

  /**
   * What RemoveClient does once connected, from h0 and the local files: the
   * filter of wg0.conf, reported as RemoveFailed with only that command sent
   * when it fails; otherwise the filtered file and the restart, reported as
   * RestartFailed with the local files kept when the restart fails; and only
   * after a successful restart the deletion of the local file.
   */
  predicate RemovalOutcome(h0: Host, o: Oracle, files: Files, configDir: string, clientName: string, removeOk: bool,
                           r: Result<(), Failure>, h: Host, files': Files) {
    var n, e := |h0.trace|, RemovePeer(clientName);
    var kept := RemovalOutput(ConfLines(h0.conf), clientName);
    if !(o(n, Registry(e)).ok && h0.conf.Some? && kept != []) then
      r == Err(RemoveFailed) && Sends(h0, h, [Registry(e)]) && files' == files
    else
      h == h0.(conf := Some(kept), trace := h0.trace + [Registry(e)] + [Shell(Plain(RestartCmd))]) &&
      if !o(n + 1, Shell(Plain(RestartCmd))).ok then r == Err(RestartFailed) && files' == files
      else (r, files') == RemoveLocalConfig(files, ConfigPath(configDir, clientName), removeOk)
  }

  /**
   * RemoveClient: connect, remove the client's lines from wg0.conf, restart,
   * then delete its local configuration file. On success the registry no
   * longer names the client, the restart ran and succeeded, and its file is
   * gone.
   */
  method RemoveClient(h0: Host, o: Oracle, files: Files, configDir: string, clientName: string,
                      connected: bool, removeOk: bool)
    returns (r: Result<(), Failure>, h: Host, files': Files)
    ensures !connected ==> r == Err(ConnectFailed) && h == h0 && files' == files
    ensures connected ==> RemovalOutcome(h0, o, files, configDir, clientName, removeOk, r, h, files')
    ensures r.Err? && r.error != RemoveLocalFailed ==> files' == files
    ensures r.Ok? ==>
      connected && h0.conf.Some? && h.conf == Some(Without(h0.conf.value, NameComment(clientName))) &&
      h.trace == h0.trace + [Registry(RemovePeer(clientName)), Shell(Plain(RestartCmd))] &&
      o(|h0.trace| + 1, Shell(Plain(RestartCmd))).ok &&
      files' == files - {ConfigPath(configDir, clientName)}
  {
    if !connected {
      return Err(ConnectFailed), h0, files;
    }
    r, h := RemoveFromServer(h0, o, clientName);
    if r.Err? {
      return r, h, files;
    }
    var (removed, files1) := RemoveLocalConfig(files, ConfigPath(configDir, clientName), removeOk);
    return removed, h, files1;
  }

  /**
   * RevokeClientConfig: the client named by the configuration path is
   * removed; a path that names no client is refused before connecting.
   */
  method RevokeClientConfig(h0: Host, o: Oracle, files: Files, configDir: string, configFilePath: string,
                            connected: bool, removeOk: bool)
    returns (r: Result<(), Failure>, h: Host, files': Files)
    ensures ClientName(configFilePath).Err? ==>
      r == Err(BadPath(ClientName(configFilePath).error)) && h == h0 && files' == files
    ensures ClientName(configFilePath).Ok? && !connected ==> r == Err(ConnectFailed) && h == h0 && files' == files
    ensures ClientName(configFilePath).Ok? && connected ==>
      RemovalOutcome(h0, o, files, configDir, ClientName(configFilePath).value, removeOk, r, h, files')
    ensures r.Ok? ==>
      var name := ClientName(configFilePath).value;
      ClientName(configFilePath).Ok? && h0.conf.Some? && h.conf == Some(Without(h0.conf.value, NameComment(name))) &&
      h.trace == h0.trace + [Registry(RemovePeer(name)), Shell(Plain(RestartCmd))] &&
      o(|h0.trace| + 1, Shell(Plain(RestartCmd))).ok &&
      files' == files - {ConfigPath(configDir, name)}
  {
    var name := ClientName(configFilePath);
    if name.Err? {
      return Err(BadPath(name.error)), h0, files;
    }
    r, h, files' := RemoveClient(h0, o, files, configDir, name.value, connected, removeOk);
  }

  /**
   * The block on the server from h0: the sed over wg0.conf (which fails when
   * the file is missing), reported as BlockFailed with only that command
   * sent; otherwise the blocked file and the restart, with its result.
   */
  predicate BlockOutcome(h0: Host, o: Oracle, clientName: string, r: Result<(), Failure>, h: Host) {
    var n, e := |h0.trace|, SedBlock(clientName);
    if !(o(n, Registry(e)).ok && h0.conf.Some?) then r == Err(BlockFailed) && Sends(h0, h, [Registry(e)])
    else
      h == h0.(conf := Some(Block(h0.conf.value, clientName)), trace := h0.trace + [Registry(e)] + [Shell(Plain(RestartCmd))]) &&
      r == (if o(n + 1, Shell(Plain(RestartCmd))).ok then Ok(()) else Err(RestartFailed))
  }

  /** The unblock on the server from h0: as BlockOutcome, for the reverse sed and UnblockFailed. */
  predicate UnblockOutcome(h0: Host, o: Oracle, clientName: string, r: Result<(), Failure>, h: Host) {
    var n, e := |h0.trace|, SedUnblock(clientName);
    if !(o(n, Registry(e)).ok && h0.conf.Some?) then r == Err(UnblockFailed) && Sends(h0, h, [Registry(e)])
    else
      h == h0.(conf := Some(Unblock(h0.conf.value, clientName)), trace := h0.trace + [Registry(e)] + [Shell(Plain(RestartCmd))]) &&
      r == (if o(n + 1, Shell(Plain(RestartCmd))).ok then Ok(()) else Err(RestartFailed))
  }

  /** A successful block sent the sed and the restart, the restart succeeded, and wg0.conf is blocked. */
  lemma BlockOutcomeOk(h0: Host, o: Oracle, clientName: string, r: Result<(), Failure>, h: Host)
    requires BlockOutcome(h0, o, clientName, r, h)
    ensures r.Ok? ==>
      h0.conf.Some? && h.conf == Some(Block(h0.conf.value, clientName)) &&
      h.trace == h0.trace + [Registry(SedBlock(clientName)), Shell(Plain(RestartCmd))] &&
      o(|h0.trace| + 1, Shell(Plain(RestartCmd))).ok
  {
  }

  /** A successful unblock sent the reverse sed and the restart, the restart succeeded, and wg0.conf is unblocked. */
  lemma UnblockOutcomeOk(h0: Host, o: Oracle, clientName: string, r: Result<(), Failure>, h: Host)
    requires UnblockOutcome(h0, o, clientName, r, h)
    ensures r.Ok? ==>
      h0.conf.Some? && h.conf == Some(Unblock(h0.conf.value, clientName)) &&
      h.trace == h0.trace + [Registry(SedUnblock(clientName)), Shell(Plain(RestartCmd))] &&
      o(|h0.trace| + 1, Shell(Plain(RestartCmd))).ok
  {
  }

  /** The block on the server: the sed over wg0.conf, then the restart, as BlockOutcome states. */
  method BlockOnServer(h0: Host, o: Oracle, clientName: string) returns (r: Result<(), Failure>, h: Host)
    ensures BlockOutcome(h0, o, clientName, r, h)
  {
    var (out, h1) := ExecEdit(h0, o, SedBlock(clientName));
    if !out.ok {
      return Err(BlockFailed), h1;
    }
    r, h := RestartWireguard(h1, o);
  }

  /** The unblock on the server: the reverse sed, then the restart, as UnblockOutcome states. */
  method UnblockOnServer(h0: Host, o: Oracle, clientName: string) returns (r: Result<(), Failure>, h: Host)
    ensures UnblockOutcome(h0, o, clientName, r, h)
  {
    var (out, h1) := ExecEdit(h0, o, SedUnblock(clientName));
    if !out.ok {
      return Err(UnblockFailed), h1;
    }
    r, h := RestartWireguard(h1, o);
  }

  /** BlockClient: a path naming no client is refused, then connect and block on the server. */
  method BlockClient(h0: Host, o: Oracle, configFilePath: string, connected: bool) returns (r: Result<(), Failure>, h: Host)
    ensures ClientName(configFilePath).Err? ==> r == Err(BadPath(ClientName(configFilePath).error)) && h == h0
    ensures ClientName(configFilePath).Ok? && !connected ==> r == Err(ConnectFailed) && h == h0
    ensures ClientName(configFilePath).Ok? && connected ==> BlockOutcome(h0, o, ClientName(configFilePath).value, r, h)
    ensures r.Ok? ==>
      ClientName(configFilePath).Ok? && connected && h0.conf.Some? &&
      h.conf == Some(Block(h0.conf.value, ClientName(configFilePath).value)) &&
      h.trace == h0.trace + [Registry(SedBlock(ClientName(configFilePath).value)), Shell(Plain(RestartCmd))] &&
      o(|h0.trace| + 1, Shell(Plain(RestartCmd))).ok
  {
    var name := ClientName(configFilePath);
    if name.Err? {
      return Err(BadPath(name.error)), h0;
    }
    if !connected {
      return Err(ConnectFailed), h0;
    }
    r, h := BlockOnServer(h0, o, name.value);
    BlockOutcomeOk(h0, o, name.value, r, h);
  }

  /** UnblockClient: a path naming no client is refused, then connect and unblock on the server. */
  method UnblockClient(h0: Host, o: Oracle, configFilePath: string, connected: bool) returns (r: Result<(), Failure>, h: Host)
    ensures ClientName(configFilePath).Err? ==> r == Err(BadPath(ClientName(configFilePath).error)) && h == h0
    ensures ClientName(configFilePath).Ok? && !connected ==> r == Err(ConnectFailed) && h == h0
    ensures ClientName(configFilePath).Ok? && connected ==> UnblockOutcome(h0, o, ClientName(configFilePath).value, r, h)
    ensures r.Ok? ==>
      ClientName(configFilePath).Ok? && connected && h0.conf.Some? &&
      h.conf == Some(Unblock(h0.conf.value, ClientName(configFilePath).value)) &&
      h.trace == h0.trace + [Registry(SedUnblock(ClientName(configFilePath).value)), Shell(Plain(RestartCmd))] &&
      o(|h0.trace| + 1, Shell(Plain(RestartCmd))).ok
  {
    var name := ClientName(configFilePath);
    if name.Err? {
      return Err(BadPath(name.error)), h0;
    }
    if !connected {
      return Err(ConnectFailed), h0;
    }
    r, h := UnblockOnServer(h0, o, name.value);
    UnblockOutcomeOk(h0, o, name.value, r, h);
  }

  /**
   * The blocked check on the server. With the grep answered, the answer is
   * false when wg0.conf is missing and true when some line contains the
   * blocked comment; when the file exists and nothing matches, the combined
   * output `0\n0` does not parse and the check fails.
   */
  method CheckBlockedOnServer(h0: Host, o: Oracle, clientName: string) returns (r: Result<bool, Failure>, h: Host)
    ensures Sends(h0, h, [Registry(CountBlocked(clientName))])
    ensures !o(|h0.trace|, Registry(CountBlocked(clientName))).ok ==> r == Err(BlockCheckFailed)
    ensures o(|h0.trace|, Registry(CountBlocked(clientName))).ok && |ConfLines(h0.conf)| <= MaxInt64 ==>
      r == (if h0.conf.None? then Ok(false)
            else if CountMatching(h0.conf.value, BlockedComment(clientName)) > 0 then Ok(true)
            else Err(CountParseFailed))
  {
    var (out, h1) := ExecEdit(h0, o, CountBlocked(clientName));
    h := h1;
    if !out.ok {
      return Err(BlockCheckFailed), h;
    }
    assert out.stdout == BlockedCountOutput(h0.conf, clientName);
    if |ConfLines(h0.conf)| <= MaxInt64 {
      BlockedCheck(h0.conf, clientName);
    }
    var blocked := BlockedAnswer(out.stdout);
    if blocked.None? {
      return Err(CountParseFailed), h;
    }
    return Ok(blocked.value), h;
  }

  /** IsClientBlocked: a path naming no client is refused, then connect and check on the server. */
  method IsClientBlocked(h0: Host, o: Oracle, configFilePath: string, connected: bool)
    returns (r: Result<bool, Failure>, h: Host)
    ensures ClientName(configFilePath).Err? ==> r == Err(BadPath(ClientName(configFilePath).error)) && h == h0
    ensures ClientName(configFilePath).Ok? && !connected ==> r == Err(ConnectFailed) && h == h0
    ensures ClientName(configFilePath).Ok? && connected ==>
      var name := ClientName(configFilePath).value;
      Sends(h0, h, [Registry(CountBlocked(name))]) &&
      (o(|h0.trace|, Registry(CountBlocked(name))).ok && |ConfLines(h0.conf)| <= MaxInt64 ==>
         r == (if h0.conf.None? then Ok(false)
               else if CountMatching(h0.conf.value, BlockedComment(name)) > 0 then Ok(true)
               else Err(CountParseFailed)))
  {
    var name := ClientName(configFilePath);
    if name.Err? {
      return Err(BadPath(name.error)), h0;
    }
    if !connected {
      return Err(ConnectFailed), h0;
    }
    r, h := CheckBlockedOnServer(h0, o, name.value);
  }
}
