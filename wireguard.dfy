/**
 * The WireGuard manager: the provisioning and client workflows it runs over
 * SSH on a remote server (RemoteShell.Host), and the client configuration
 * files it keeps in its local configuration directory.
 *
 * Each workflow is a method that sends its commands one at a time and
 * returns at the first error, as the manager does; it takes the server's
 * state and the oracle deciding the sessions, and returns the state it
 * leaves. Connecting is not modelled: whether the connection succeeded is a
 * parameter, and so is whether the local file system accepts a write or a
 * removal.
 */
module Wireguard {
  import opened Outcomes
  import opened GoText
  import opened PeerRegistry
  import opened RemoteShell

  /** Why a workflow gave up: one case per error return of the manager. */
  datatype Failure =
    | BadPath(reason: NameError)      // empty configuration path or no client name in it
    | ConnectFailed                   // TCP probe, SSH handshake or `sudo -n true` failed
    | ConnectTimeout                  // SetupServer's 30 second connection deadline passed
    | OsDetectionFailed
    | PackageListFailed               // apt update
    | InstallFailed
    | WgNotFound                      // `which wg` after installing
    | UnsupportedOs                   // every generic installer failed
    | MkdirFailed
    | KeygenFailed
    | KeysMissing                     // the key files are absent after key generation
    | ReadPrivateKeyFailed
    | EmptyPrivateKey
    | WriteConfigFailed
    | MoveConfigFailed
    | ChmodFailed
    | ForwardingFailed
    | StartFailed
    | InterfaceDown
    | ClientKeygenFailed
    | ClientPubkeyFailed
    | KeyPermissionsFailed
    | ReadPublicKeyFailed
    | EmptyPublicKey
    | PublicIPFailed
    | AppendFailed
    | RestartFailed
    | WriteLocalFailed
    | RemoveFailed
    | RemoveLocalFailed
    | BlockFailed
    | UnblockFailed
    | BlockCheckFailed
    | CountParseFailed

  /** How connectToServer, run under SetupServer's deadline, ends. */
  datatype Dial = Connected | Refused | TimedOut

  /** The three entries of getServerInfo's map. */
  datatype ServerInfo = ServerInfo(publicKey: string, publicIP: string, port: string)

  /** The configuration directory: file path to content. */
  type Files = map<string, string>

  const OsReleaseCmd := "cat /etc/os-release | grep -E '^(ID|ID_LIKE)=' | head -1"
  const AptUpdateCmd := "apt update"
  const AptInstallCmd := "apt install -y wireguard wireguard-tools"
  const EpelCmd := "yum install -y epel-release"
  const YumInstallCmd := "yum install -y wireguard-tools"
  const PacmanInstallCmd := "pacman -Sy --noconfirm wireguard-tools"
  const ApkInstallCmd := "apk add --update wireguard-tools"
  const RouteCmd := "ip -o -4 route show to default | awk '{print $5}' | head -1"
  const ForwardingCmd :=
    "echo 'net.ipv4.ip_forward=1' > /etc/sysctl.d/99-wireguard.conf && sysctl -p /etc/sysctl.d/99-wireguard.conf"
  const StartCmd := "systemctl enable wg-quick@wg0 && systemctl start wg-quick@wg0"
  const ShowInterfaceCmd := "ip a show wg0"
  const ClientKeygenCmd := "wg genkey"
  const PublicIPCmd := "curl -s ifconfig.me || curl -s api.ipify.org || curl -s icanhazip.com"
  const HostnameIPCmd := "hostname -I | awk '{print $1}'"

  /** The installers tried, in this order, on a distribution that is not recognised. */
  const GenericInstallers: seq<string> := [
    "which apt && apt update && apt install -y wireguard wireguard-tools",
    "which yum && yum install -y wireguard-tools",
    "which pacman && pacman -Sy --noconfirm wireguard-tools",
    "which apk && apk add --update wireguard-tools"]

  /** The command generateClientKeys derives the public key with. */
  function PubkeyCmd(privateKey: string): string {
    "echo '" + privateKey + "' | wg pubkey"
  }

  /** h1 is h0 after sending exactly `sent`, with nothing else changed. */
  predicate Sends(h0: Host, h1: Host, sent: seq<Sent>) {
    h1 == h0.(trace := h0.trace + sent)
  }

  /** Plain shell commands, as trace entries. */
  function Shells(cmds: seq<string>): (r: seq<Sent>)
    ensures |r| == |cmds|
    ensures forall k :: 0 <= k < |cmds| ==> r[k] == Shell(Plain(cmds[k]))
    decreases |cmds|
  {
    if cmds == [] then [] else [Shell(Plain(cmds[0]))] + Shells(cmds[1..])
  }

  /** A probe command ran and printed exactly the word (up to surrounding space). */
  predicate Says(r: Run, word: string) {
    r.ok && TrimSpace(r.stdout) == word
  }

  /** A probe says its word exactly when its test holds. */
  lemma SaysProbe(holds: bool, word: string)
    requires word != [] && !IsSpace(word[0]) && !IsSpace(word[|word| - 1])
    ensures Says(Probe(holds, word), word) == holds
  {
    if holds {
      TrimSpaceFramed("", word, "\n");
      assert "" + word + "\n" == word + "\n";
    }
  }

  /**
   * A `test -f ... && echo word` probe, read as the manager reads it: the
   * session ran and its trimmed output is the word. That is exactly when the
   * session ran and the files exist.
   */
  method RunProbe(h0: Host, o: Oracle, c: Command) returns (said: bool, h: Host)
    requires IsProbe(c)
    ensures Sends(h0, h, [Shell(c)])
    ensures said <==> o(|h0.trace|, Shell(c)).ok && ProbeHolds(h0, c)
  {
    var (out, h1) := Exec(h0, o, c);
    ghost var holds := o(|h0.trace|, Shell(c)).ok && ProbeHolds(h0, c);
    assert out == Probe(holds, ProbeWord(c));
    SaysProbe(holds, ProbeWord(c));
    return Says(out, ProbeWord(c)), h1;
  }

  // ---------------------------------------------------------------------
  // Installing WireGuard

  datatype OsFamily = DebianLike | RedHatLike | ArchLike | AlpineLike | UnknownOs

  /** The distribution family installWireguard reads off the os-release line, first match wins. */
  function Family(os: string): OsFamily {
    if Contains(os, "debian") || Contains(os, "ubuntu") then DebianLike
    else if Contains(os, "fedora") || Contains(os, "centos") || Contains(os, "rhel") then RedHatLike
    else if Contains(os, "arch") then ArchLike
    else if Contains(os, "alpine") then AlpineLike
    else UnknownOs
  }

  /** CentOS and RHEL, within the RedHat family, install epel-release first. */
  predicate Epel(os: string) {
    Contains(os, "centos") || Contains(os, "rhel")
  }

  /** The commands whose failure installWireguard ignores. */
  function Optional(family: OsFamily, epel: bool): seq<string> {
    if family == RedHatLike && epel then [EpelCmd] else []
  }

  /** The commands that must all succeed, in order, once the family is recognised. */
  function Required(family: OsFamily): seq<string> {
    match family
    case DebianLike => [AptUpdateCmd, AptInstallCmd, WhichWgCmd]
    case RedHatLike => [YumInstallCmd, WhichWgCmd]
    case ArchLike => [PacmanInstallCmd, WhichWgCmd]
    case AlpineLike => [ApkInstallCmd, WhichWgCmd]
    case UnknownOs => []
  }

  /** The error installWireguard reports when a required command fails. */
  function InstallFailure(cmd: string): Failure {
    if cmd == AptUpdateCmd then PackageListFailed
    else if cmd == WhichWgCmd then WgNotFound
    else InstallFailed
  }

  /** Running `cmds` from trace position n, stopping after the first failure: how many are sent. */
  function Attempted(o: Oracle, n: nat, cmds: seq<string>): (k: nat)
    ensures k <= |cmds|
    ensures cmds != [] ==> k >= 1
    decreases |cmds|
  {
    if cmds == [] then 0
    else if !o(n, Shell(Plain(cmds[0]))).ok then 1
    else 1 + Attempted(o, n + 1, cmds[1..])
  }

  /** Running `cmds` from trace position n, stopping after the first success: how many are sent. */
  function UntilSuccess(o: Oracle, n: nat, cmds: seq<string>): (k: nat)
    ensures k <= |cmds|
    decreases |cmds|
  {
    if cmds == [] then 0
    else if o(n, Shell(Plain(cmds[0]))).ok then 1
    else 1 + UntilSuccess(o, n + 1, cmds[1..])
  }

  /** Every command of `cmds`, sent from trace position n on, succeeds. */
  predicate AllSucceed(o: Oracle, n: nat, cmds: seq<string>) {
    forall k :: 0 <= k < |cmds| ==> o(n + k, Shell(Plain(cmds[k]))).ok
  }

  /** Some command of `cmds`, sent from trace position n on, succeeds. */
  predicate SomeSucceeds(o: Oracle, n: nat, cmds: seq<string>) {
    exists k :: 0 <= k < |cmds| && o(n + k, Shell(Plain(cmds[k]))).ok
  }

  /**
   * Stopping at the first failure: every command sent before the last one
   * succeeded, and the last one sent failed unless all of them succeeded.
   */
  lemma AttemptedStopsAtFailure(o: Oracle, n: nat, cmds: seq<string>)
    ensures var k := Attempted(o, n, cmds);
      (forall j :: 0 <= j < k - 1 ==> o(n + j, Shell(Plain(cmds[j]))).ok) &&
      (AllSucceed(o, n, cmds) <==> k == |cmds| && (k == 0 || o(n + k - 1, Shell(Plain(cmds[k - 1]))).ok))
  {
    var k := Attempted(o, n, cmds);
    AttemptedAfterSuccesses(o, n, cmds);
    if AllSucceed(o, n, cmds) {
      AllSucceedAttemptsAll(o, n, cmds);
      if k > 0 {
        assert o(n + (k - 1), Shell(Plain(cmds[k - 1]))).ok;
      }
    }
    if k == |cmds| && (k == 0 || o(n + k - 1, Shell(Plain(cmds[k - 1]))).ok) {
      forall j | 0 <= j < |cmds|
        ensures o(n + j, Shell(Plain(cmds[j]))).ok
      {
        if j == k - 1 {
          assert n + j == n + k - 1;
        }
      }
    }
  }

  /** Every command sent before the last one succeeded. */
  lemma {:induction false} AttemptedAfterSuccesses(o: Oracle, n: nat, cmds: seq<string>)
    ensures forall j :: 0 <= j < Attempted(o, n, cmds) - 1 ==> o(n + j, Shell(Plain(cmds[j]))).ok
    decreases |cmds|
  {
    if cmds != [] && o(n, Shell(Plain(cmds[0]))).ok {
      AttemptedAfterSuccesses(o, n + 1, cmds[1..]);
      forall j | 0 <= j < Attempted(o, n, cmds) - 1
        ensures o(n + j, Shell(Plain(cmds[j]))).ok
      {
        if j > 0 {
          assert cmds[j] == cmds[1..][j - 1];
          assert n + j == (n + 1) + (j - 1);
        }
      }
    }
  }

  /** When every command succeeds, every command is sent. */
  lemma {:induction false} AllSucceedAttemptsAll(o: Oracle, n: nat, cmds: seq<string>)
    requires AllSucceed(o, n, cmds)
    ensures Attempted(o, n, cmds) == |cmds|
    decreases |cmds|
  {
    if cmds != [] {
      assert o(n + 0, Shell(Plain(cmds[0]))).ok;
      forall j | 0 <= j < |cmds[1..]|
        ensures o(n + 1 + j, Shell(Plain(cmds[1..][j]))).ok
      {
        assert cmds[1..][j] == cmds[j + 1];
        assert n + 1 + j == n + (j + 1);
      }
      AllSucceedAttemptsAll(o, n + 1, cmds[1..]);
    }
  }

  /** Stopping at the first success: every command sent before the last one failed. */
  lemma {:induction false} UntilSuccessFailedBefore(o: Oracle, n: nat, cmds: seq<string>)
    ensures forall j :: 0 <= j < UntilSuccess(o, n, cmds) - 1 ==> !o(n + j, Shell(Plain(cmds[j]))).ok
    decreases |cmds|
  {
    if cmds != [] && !o(n, Shell(Plain(cmds[0]))).ok {
      UntilSuccessFailedBefore(o, n + 1, cmds[1..]);
      forall j | 0 <= j < UntilSuccess(o, n, cmds) - 1
        ensures !o(n + j, Shell(Plain(cmds[j]))).ok
      {
        if j > 0 {
          assert cmds[j] == cmds[1..][j - 1];
          assert n + j == (n + 1) + (j - 1);
        }
      }
    }
  }

  /** Stopping at the first success: unless every command was sent, the last one sent succeeded. */
  lemma {:induction false} UntilSuccessEnds(o: Oracle, n: nat, cmds: seq<string>)
    ensures var k := UntilSuccess(o, n, cmds);
      cmds != [] ==> k > 0 && (k == |cmds| || o(n + k - 1, Shell(Plain(cmds[k - 1]))).ok)
    decreases |cmds|
  {
    if cmds != [] && !o(n, Shell(Plain(cmds[0]))).ok && |cmds| > 1 {
      UntilSuccessEnds(o, n + 1, cmds[1..]);
      var tail := UntilSuccess(o, n + 1, cmds[1..]);
      assert cmds[1..][tail - 1] == cmds[tail] && (n + 1) + tail - 1 == n + tail;
    }
  }

  /**
   * One of the commands succeeds exactly when the last one sent does; when
   * none does, all of them are sent.
   */
  lemma UntilSuccessFound(o: Oracle, n: nat, cmds: seq<string>)
    ensures var k := UntilSuccess(o, n, cmds);
      (SomeSucceeds(o, n, cmds) <==> k > 0 && o(n + k - 1, Shell(Plain(cmds[k - 1]))).ok) &&
      (!SomeSucceeds(o, n, cmds) ==> k == |cmds|)
  {
    var k := UntilSuccess(o, n, cmds);
    UntilSuccessFailedBefore(o, n, cmds);
    UntilSuccessEnds(o, n, cmds);
    if SomeSucceeds(o, n, cmds) {
      var j :| 0 <= j < |cmds| && o(n + j, Shell(Plain(cmds[j]))).ok;
      assert j >= k - 1;
    }
    if k > 0 && o(n + k - 1, Shell(Plain(cmds[k - 1]))).ok {
      assert 0 <= k - 1 < |cmds| && o(n + (k - 1), Shell(Plain(cmds[k - 1]))).ok;
    }
  }

  /** The os-release line installWireguard reads when it is the n-th command sent. */
  function OsType(o: Oracle, n: nat): string {
    o(n, Shell(Plain(OsReleaseCmd))).stdout
  }

  /** UntilSuccess on four commands, written out case by case. */
  lemma UntilSuccessOfFour(o: Oracle, n: nat, cmds: seq<string>)
    requires |cmds| == 4
    ensures UntilSuccess(o, n, cmds) ==
      if o(n, Shell(Plain(cmds[0]))).ok then 1 else if o(n + 1, Shell(Plain(cmds[1]))).ok then 2
      else if o(n + 2, Shell(Plain(cmds[2]))).ok then 3 else 4
    ensures SomeSucceeds(o, n, cmds) <==>
      o(n, Shell(Plain(cmds[0]))).ok || o(n + 1, Shell(Plain(cmds[1]))).ok ||
      o(n + 2, Shell(Plain(cmds[2]))).ok || o(n + 3, Shell(Plain(cmds[3]))).ok
  {
    var c1, c2, c3 := cmds[1..], cmds[2..], cmds[3..];
    assert c1[0] == cmds[1] && c1[1..] == c2 && c2[0] == cmds[2] && c2[1..] == c3 && c3[0] == cmds[3];
    assert UntilSuccess(o, n + 3, c3) == 1 by {
      assert c3[1..] == [];
    }
    assert UntilSuccess(o, n + 2, c2) ==
      if o(n + 2, Shell(Plain(cmds[2]))).ok then 1 else 1 + UntilSuccess(o, n + 3, c3);
    assert UntilSuccess(o, n + 1, c1) ==
      if o(n + 1, Shell(Plain(cmds[1]))).ok then 1 else 1 + UntilSuccess(o, n + 2, c2);
    if SomeSucceeds(o, n, cmds) {
      var j :| 0 <= j < |cmds| && o(n + j, Shell(Plain(cmds[j]))).ok;
      assert j == 0 || j == 1 || j == 2 || j == 3;
    }
    if o(n + 3, Shell(Plain(cmds[3]))).ok {
      assert o(n + 3, Shell(Plain(cmds[3]))).ok;
    }
  }

  /** A trace followed by the first k of at most four commands, one append per command. */
  lemma ShellsUpTo(t: seq<Sent>, cmds: seq<string>, k: nat)
    requires k <= |cmds| <= 4
    ensures k == 0 ==> t + Shells(cmds[..k]) == t
    ensures k == 1 ==> t + Shells(cmds[..k]) == t + [Shell(Plain(cmds[0]))]
    ensures k == 2 ==> t + Shells(cmds[..k]) == t + [Shell(Plain(cmds[0]))] + [Shell(Plain(cmds[1]))]
    ensures k == 3 ==>
      t + Shells(cmds[..k]) == t + [Shell(Plain(cmds[0]))] + [Shell(Plain(cmds[1]))] + [Shell(Plain(cmds[2]))]
    ensures k == 4 ==>
      t + Shells(cmds[..k]) ==
      t + [Shell(Plain(cmds[0]))] + [Shell(Plain(cmds[1]))] + [Shell(Plain(cmds[2]))] + [Shell(Plain(cmds[3]))]
  {
    var p := cmds[..k];
    if k > 0 {
      assert Shells(p) == [Shell(Plain(p[0]))] + Shells(p[1..]);
    }
    if k > 1 {
      assert Shells(p[1..]) == [Shell(Plain(p[1]))] + Shells(p[2..]);
    }
    if k > 2 {
      assert Shells(p[2..]) == [Shell(Plain(p[2]))] + Shells(p[3..]);
    }
    if k > 3 {
      assert Shells(p[3..]) == [Shell(Plain(p[3]))] + Shells(p[4..]);
    }
  }

  /** Attempted on one to three commands, written out case by case. */
  lemma AttemptedOfThree(o: Oracle, n: nat, cmds: seq<string>)
    requires 1 <= |cmds| <= 3
    ensures Attempted(o, n, cmds) ==
      if !o(n, Shell(Plain(cmds[0]))).ok || |cmds| == 1 then 1
      else if !o(n + 1, Shell(Plain(cmds[1]))).ok || |cmds| == 2 then 2
      else 3
    ensures AllSucceed(o, n, cmds) <==>
      o(n, Shell(Plain(cmds[0]))).ok && (|cmds| < 2 || o(n + 1, Shell(Plain(cmds[1]))).ok) &&
      (|cmds| < 3 || o(n + 2, Shell(Plain(cmds[2]))).ok)
  {
    var c1 := cmds[1..];
    if |cmds| >= 2 {
      var c2 := cmds[2..];
      assert c1[0] == cmds[1] && c1[1..] == c2;
      if |cmds| == 3 {
        assert c2[0] == cmds[2] && c2[1..] == [];
        assert Attempted(o, n + 2, c2) == 1;
      } else {
        assert c2 == [];
      }
      assert Attempted(o, n + 1, c1) ==
        if !o(n + 1, Shell(Plain(cmds[1]))).ok then 1 else 1 + Attempted(o, n + 2, c2);
    } else {
      assert c1 == [];
    }
    if AllSucceed(o, n, cmds) {
      assert o(n + 0, Shell(Plain(cmds[0]))).ok;
      if |cmds| >= 2 { assert o(n + 1, Shell(Plain(cmds[1]))).ok; }
      if |cmds| >= 3 { assert o(n + 2, Shell(Plain(cmds[2]))).ok; }
    }
    if o(n, Shell(Plain(cmds[0]))).ok && (|cmds| < 2 || o(n + 1, Shell(Plain(cmds[1]))).ok) &&
       (|cmds| < 3 || o(n + 2, Shell(Plain(cmds[2]))).ok) {
      forall j | 0 <= j < |cmds| ensures o(n + j, Shell(Plain(cmds[j]))).ok {
        assert j == 0 || j == 1 || j == 2;
      }
    }
  }

  /** The optional commands of a distribution, appended to a trace. */
  lemma OptionalRun(t: seq<Sent>, family: OsFamily, epel: bool)
    ensures t + Shells(Optional(family, epel)) ==
      if family == RedHatLike && epel then t + [Shell(Plain(EpelCmd))] else t
  {
    if family == RedHatLike && epel {
      ShellsUpTo(t, Optional(family, epel), 1);
    } else {
      ShellsUpTo(t, Optional(family, epel), 0);
    }
  }

  /** The required commands on Debian and Ubuntu, stopping at the first failure, written out. */
  lemma DebianRun(t: seq<Sent>, o: Oracle, m: nat)
    ensures var req := Required(DebianLike);
      var k := Attempted(o, m, req);
      var u, i, w := o(m, Shell(Plain(AptUpdateCmd))).ok, o(m + 1, Shell(Plain(AptInstallCmd))).ok,
                     o(m + 2, Shell(Plain(WhichWgCmd))).ok;
      t + Shells(req[..k]) ==
        (if !u then t + [Shell(Plain(AptUpdateCmd))]
         else if !i then t + [Shell(Plain(AptUpdateCmd))] + [Shell(Plain(AptInstallCmd))]
         else t + [Shell(Plain(AptUpdateCmd))] + [Shell(Plain(AptInstallCmd))] + [Shell(Plain(WhichWgCmd))]) &&
      (AllSucceed(o, m, req) <==> u && i && w) &&
      InstallFailure(req[k - 1]) == (if !u then PackageListFailed else if !i then InstallFailed else WgNotFound)
  {
    var req := Required(DebianLike);
    AttemptedOfThree(o, m, req);
    ShellsUpTo(t, req, Attempted(o, m, req));
  }

  /** The install command of the families that need no package-list update. */
  function InstallCommand(family: OsFamily): string {
    if family == RedHatLike then YumInstallCmd
    else if family == ArchLike then PacmanInstallCmd
    else ApkInstallCmd
  }

  /** The required commands on the RedHat, Arch and Alpine families, written out. */
  lemma TwoStepRun(t: seq<Sent>, o: Oracle, m: nat, family: OsFamily)
    requires family == RedHatLike || family == ArchLike || family == AlpineLike
    ensures var req, c := Required(family), InstallCommand(family);
      var k := Attempted(o, m, req);
      var i, w := o(m, Shell(Plain(c))).ok, o(m + 1, Shell(Plain(WhichWgCmd))).ok;
      t + Shells(req[..k]) ==
        (if !i then t + [Shell(Plain(c))] else t + [Shell(Plain(c))] + [Shell(Plain(WhichWgCmd))]) &&
      (AllSucceed(o, m, req) <==> i && w) &&
      InstallFailure(req[k - 1]) == (if !i then InstallFailed else WgNotFound)
  {
    var req := Required(family);
    assert req == [InstallCommand(family), WhichWgCmd];
    AttemptedOfThree(o, m, req);
    ShellsUpTo(t, req, Attempted(o, m, req));
  }

  /** isWireguardInstalled: `which wg` ran and printed something; a failed run means not installed. */
  method IsWireguardInstalled(h0: Host, o: Oracle) returns (installed: bool, h: Host)
    ensures Sends(h0, h, [Shell(Plain(WhichWgCmd))])
    ensures var t := o(|h0.trace|, Shell(Plain(WhichWgCmd)));
      installed <==> t.ok && TrimSpace(t.stdout) != ""
  {
    var (out, h1) := ExecPlain(h0, o, WhichWgCmd);
    return out.ok && TrimSpace(out.stdout) != "", h1;
  }

  /** The generic installers of installWireguard, tried in order until one succeeds. */
  method TryGenericInstallers(h0: Host, o: Oracle) returns (r: Result<(), Failure>, h: Host)
    ensures var n := |h0.trace|;
      Sends(h0, h, Shells(GenericInstallers[..UntilSuccess(o, n, GenericInstallers)])) &&
      (r.Ok? <==> SomeSucceeds(o, n, GenericInstallers)) &&
      (r.Err? ==> r.error == UnsupportedOs)
  {
    var g := GenericInstallers;
    UntilSuccessOfFour(o, |h0.trace|, g);
    ShellsUpTo(h0.trace, g, UntilSuccess(o, |h0.trace|, g));
    var (apt, h1) := ExecPlain(h0, o, g[0]);
    if apt.ok { return Ok(()), h1; }
    var (yum, h2) := ExecPlain(h1, o, g[1]);
    if yum.ok { return Ok(()), h2; }
    var (pacman, h3) := ExecPlain(h2, o, g[2]);
    if pacman.ok { return Ok(()), h3; }
    var (apk, h4) := ExecPlain(h3, o, g[3]);
    if apk.ok { return Ok(()), h4; }
    return Err(UnsupportedOs), h4;
  }

  /** The last two steps of installWireguard: the install command, then `which wg`. */
  method InstallAndCheck(h0: Host, o: Oracle, installCmd: string) returns (r: Result<(), Failure>, h: Host)
    ensures var n := |h0.trace|;
      var i, w := o(n, Shell(Plain(installCmd))).ok, o(n + 1, Shell(Plain(WhichWgCmd))).ok;
      h == h0.(trace := h.trace) &&
      h.trace == (if !i then h0.trace + [Shell(Plain(installCmd))]
                  else h0.trace + [Shell(Plain(installCmd))] + [Shell(Plain(WhichWgCmd))]) &&
      r == (if !i then Err(InstallFailed) else if !w then Err(WgNotFound) else Ok(()))
  {
    var (install, h1) := ExecPlain(h0, o, installCmd);
    if !install.ok {
      return Err(InstallFailed), h1;
    }
    var (which, h2) := ExecPlain(h1, o, WhichWgCmd);
    if !which.ok {
      return Err(WgNotFound), h2;
    }
    return Ok(()), h2;
  }

  /**
   * The required commands `req` sent from trace position m on, after trace
   * t0, stopping at the first failure: the trace t holds exactly those sent,
   * r succeeds iff all of them succeed, and a failure is named after the
   * command that failed.
   */
  predicate RequiredOutcome(o: Oracle, m: nat, req: seq<string>, t0: seq<Sent>, r: Result<(), Failure>, t: seq<Sent>) {
    var k := Attempted(o, m, req);
    t == t0 + Shells(req[..k]) &&
    (r.Ok? <==> AllSucceed(o, m, req)) &&
    (r.Err? ==> r.error == InstallFailure(req[k - 1]))
  }

  /** The Debian commands run to their first failure, written out, are RequiredOutcome. */
  lemma DebianOutcome(o: Oracle, m: nat, t0: seq<Sent>, r: Result<(), Failure>, t: seq<Sent>)
    requires var u, i, w := o(m, Shell(Plain(AptUpdateCmd))).ok, o(m + 1, Shell(Plain(AptInstallCmd))).ok,
                            o(m + 2, Shell(Plain(WhichWgCmd))).ok;
      t == (if !u then t0 + [Shell(Plain(AptUpdateCmd))]
            else if !i then t0 + [Shell(Plain(AptUpdateCmd))] + [Shell(Plain(AptInstallCmd))]
            else t0 + [Shell(Plain(AptUpdateCmd))] + [Shell(Plain(AptInstallCmd))] + [Shell(Plain(WhichWgCmd))]) &&
      r == (if !u then Err(PackageListFailed) else if !i then Err(InstallFailed)
            else if !w then Err(WgNotFound) else Ok(()))
    ensures RequiredOutcome(o, m, Required(DebianLike), t0, r, t)
  {
    DebianRun(t0, o, m);
  }

  /** The two commands of the other families run to their first failure, written out, are RequiredOutcome. */
  lemma TwoStepOutcome(o: Oracle, m: nat, family: OsFamily, t0: seq<Sent>, r: Result<(), Failure>, t: seq<Sent>)
    requires family == RedHatLike || family == ArchLike || family == AlpineLike
    requires var c := InstallCommand(family);
      var i, w := o(m, Shell(Plain(c))).ok, o(m + 1, Shell(Plain(WhichWgCmd))).ok;
      t == (if !i then t0 + [Shell(Plain(c))] else t0 + [Shell(Plain(c))] + [Shell(Plain(WhichWgCmd))]) &&
      r == (if !i then Err(InstallFailed) else if !w then Err(WgNotFound) else Ok(()))
    ensures RequiredOutcome(o, m, Required(family), t0, r, t)
  {
    TwoStepRun(t0, o, m, family);
  }

  /** installWireguard on Debian and Ubuntu: `apt update`, then the install and the check. */
  method InstallDebian(h0: Host, o: Oracle) returns (r: Result<(), Failure>, h: Host)
    ensures h == h0.(trace := h.trace)
    ensures RequiredOutcome(o, |h0.trace|, Required(DebianLike), h0.trace, r, h.trace)
  {
    var (update, h1) := ExecPlain(h0, o, AptUpdateCmd);
    if !update.ok {
      r, h := Err(PackageListFailed), h1;
    } else {
      r, h := InstallAndCheck(h1, o, AptInstallCmd);
    }
    DebianOutcome(o, |h0.trace|, h0.trace, r, h.trace);
  }

  /** installWireguard on the RedHat, Arch and Alpine families. */
  method InstallTwoStep(h0: Host, o: Oracle, family: OsFamily, epel: bool) returns (r: Result<(), Failure>, h: Host)
    requires family == RedHatLike || family == ArchLike || family == AlpineLike
    ensures h == h0.(trace := h.trace)
    ensures RequiredOutcome(o, |h0.trace| + |Optional(family, epel)|, Required(family),
                            h0.trace + Shells(Optional(family, epel)), r, h.trace)
  {
    var h1 := RunOptional(h0, o, family, epel);
    r, h := InstallAndCheck(h1, o, InstallCommand(family));
    TwoStepOutcome(o, |h1.trace|, family, h1.trace, r, h.trace);
  }

  /** The optional commands of a family, sent whatever their outcome. */
  method RunOptional(h0: Host, o: Oracle, family: OsFamily, epel: bool) returns (h: Host)
    ensures h == h0.(trace := h0.trace + Shells(Optional(family, epel)))
  {
    OptionalRun(h0.trace, family, epel);
    h := h0;
    if family == RedHatLike && epel {
      // a failure here is only logged: epel-release may already be installed
      var (_, h1) := ExecPlain(h0, o, EpelCmd);
      h := h1;
    }
  }

  /**
   * The trace installWireguard leaves once the distribution is known,
   * starting from trace t0: a recognised family sends its optional commands,
   * then its required ones up to the first failure; an unrecognised one
   * sends the generic installers up to the first success.
   */
  function PackagesTrace(o: Oracle, family: OsFamily, epel: bool, t0: seq<Sent>): seq<Sent> {
    if family != UnknownOs then
      var req := Required(family);
      t0 + Shells(Optional(family, epel)) + Shells(req[..Attempted(o, |t0| + |Optional(family, epel)|, req)])
    else t0 + Shells(GenericInstallers[..UntilSuccess(o, |t0|, GenericInstallers)])
  }

  /** Whether the packages install from trace position n: every required command, or one generic installer. */
  predicate PackagesSucceed(o: Oracle, family: OsFamily, epel: bool, n: nat) {
    if family != UnknownOs then AllSucceed(o, n + |Optional(family, epel)|, Required(family))
    else SomeSucceeds(o, n, GenericInstallers)
  }

  /** The error of a failed install: named after the required command that failed, or an unsupported system. */
  function PackagesError(o: Oracle, family: OsFamily, epel: bool, n: nat): Failure
    requires !PackagesSucceed(o, family, epel, n)
  {
    if family != UnknownOs then
      var req := Required(family);
      InstallFailure(req[Attempted(o, n + |Optional(family, epel)|, req) - 1])
    else UnsupportedOs
  }

  /**
   * What installWireguard does once the distribution is known, starting
   * from trace t0 and ending with trace t and result r: a recognised family
   * runs its optional commands, then its required ones until the first
   * failure, which names the error; an unrecognised one tries the generic
   * installers until one succeeds, and fails only when none does.
   */
  predicate PackagesOutcome(o: Oracle, family: OsFamily, epel: bool, t0: seq<Sent>,
                            r: Result<(), Failure>, t: seq<Sent>) {
    t == PackagesTrace(o, family, epel, t0) &&
    (r.Ok? <==> PackagesSucceed(o, family, epel, |t0|)) &&
    (r.Err? ==> r.error == PackagesError(o, family, epel, |t0|))
  }

  /**
   * installWireguard after the distribution is known: the family's package
   * commands and the check for `wg`, stopping at the first failure, or the
   * generic installers when the family is not recognised.
   */
  method InstallPackages(h0: Host, o: Oracle, family: OsFamily, epel: bool) returns (r: Result<(), Failure>, h: Host)
    ensures h == h0.(trace := h.trace)
    ensures PackagesOutcome(o, family, epel, h0.trace, r, h.trace)
  {
    if family == DebianLike {
      r, h := InstallDebian(h0, o);
      assert h0.trace + Shells(Optional(family, epel)) == h0.trace;
      FamilyPackagesOutcome(o, family, epel, h0.trace, r, h.trace);
    } else if family == UnknownOs {
      r, h := TryGenericInstallers(h0, o);
      GenericPackagesOutcome(o, epel, h0.trace, r, h.trace);
    } else {
      r, h := InstallTwoStep(h0, o, family, epel);
      FamilyPackagesOutcome(o, family, epel, h0.trace, r, h.trace);
    }
  }

  /** A recognised family's optional commands followed by its required ones are the whole install. */
  lemma FamilyPackagesOutcome(o: Oracle, family: OsFamily, epel: bool, t0: seq<Sent>, r: Result<(), Failure>, t: seq<Sent>)
    requires family != UnknownOs
    requires RequiredOutcome(o, |t0| + |Optional(family, epel)|, Required(family), t0 + Shells(Optional(family, epel)), r, t)
    ensures PackagesOutcome(o, family, epel, t0, r, t)
  {
    FamilyPackagesTrace(o, family, epel, t0, r, t);
    FamilyPackagesResult(o, family, epel, t0, r, t);
  }

  lemma FamilyPackagesTrace(o: Oracle, family: OsFamily, epel: bool, t0: seq<Sent>, r: Result<(), Failure>, t: seq<Sent>)
    requires family != UnknownOs
    requires RequiredOutcome(o, |t0| + |Optional(family, epel)|, Required(family), t0 + Shells(Optional(family, epel)), r, t)
    ensures t == PackagesTrace(o, family, epel, t0)
  {
  }

  lemma FamilyPackagesResult(o: Oracle, family: OsFamily, epel: bool, t0: seq<Sent>, r: Result<(), Failure>, t: seq<Sent>)
    requires family != UnknownOs
    requires RequiredOutcome(o, |t0| + |Optional(family, epel)|, Required(family), t0 + Shells(Optional(family, epel)), r, t)
    ensures r.Ok? <==> PackagesSucceed(o, family, epel, |t0|)
    ensures r.Err? ==> r.error == PackagesError(o, family, epel, |t0|)
  {
  }

  /** The generic installers tried until one succeeds are the whole install of an unknown system. */
  lemma GenericPackagesOutcome(o: Oracle, epel: bool, t0: seq<Sent>, r: Result<(), Failure>, t: seq<Sent>)
    requires t == t0 + Shells(GenericInstallers[..UntilSuccess(o, |t0|, GenericInstallers)])
    requires (r.Ok? <==> SomeSucceeds(o, |t0|, GenericInstallers)) && (r.Err? ==> r.error == UnsupportedOs)
    ensures PackagesOutcome(o, UnknownOs, epel, t0, r, t)
  {
    GenericPackagesTrace(o, epel, t0, t);
    GenericPackagesResult(o, epel, t0, r);
  }

  lemma GenericPackagesTrace(o: Oracle, epel: bool, t0: seq<Sent>, t: seq<Sent>)
    requires t == t0 + Shells(GenericInstallers[..UntilSuccess(o, |t0|, GenericInstallers)])
    ensures t == PackagesTrace(o, UnknownOs, epel, t0)
  {
  }

  lemma GenericPackagesResult(o: Oracle, epel: bool, t0: seq<Sent>, r: Result<(), Failure>)
    requires (r.Ok? <==> SomeSucceeds(o, |t0|, GenericInstallers)) && (r.Err? ==> r.error == UnsupportedOs)
    ensures r.Ok? <==> PackagesSucceed(o, UnknownOs, epel, |t0|)
    ensures r.Err? ==> r.error == PackagesError(o, UnknownOs, epel, |t0|)
  {
  }

  /**
   * installWireguard: reads the distribution from /etc/os-release, then
   * installs the family's packages; a failed read is an error.
   */
  method InstallWireguard(h0: Host, o: Oracle) returns (r: Result<(), Failure>, h: Host)
    ensures h == h0.(trace := h.trace)
    ensures var n := |h0.trace|;
      !o(n, Shell(Plain(OsReleaseCmd))).ok ==>
        r == Err(OsDetectionFailed) && h.trace == h0.trace + [Shell(Plain(OsReleaseCmd))]
    ensures var n := |h0.trace|;
      var os := OsType(o, n);
      o(n, Shell(Plain(OsReleaseCmd))).ok ==>
        PackagesOutcome(o, Family(os), Epel(os), h0.trace + [Shell(Plain(OsReleaseCmd))], r, h.trace)
  {
    var (osType, h1) := ExecPlain(h0, o, OsReleaseCmd);
    if !osType.ok {
      r, h := Err(OsDetectionFailed), h1;
    } else {
      var os := osType.stdout;
      r, h := InstallPackages(h1, o, Family(os), Epel(os));
    }
  }

  // ---------------------------------------------------------------------
  // The server configuration

  /** The outbound interface setupServerConfig puts in the NAT rules: eth0 unless the route names one. */
  function NetInterface(route: Run): (iface: string)
    ensures iface != ""
    ensures iface == "eth0" || (route.ok && iface == TrimSpace(route.stdout))
  {
    if route.ok && TrimSpace(route.stdout) != "" then TrimSpace(route.stdout) else "eth0"
  }

  /** The default route's interface, falling back to eth0 when the command fails or prints nothing. */
  method ReadNetInterface(h0: Host, o: Oracle) returns (netInterface: string, h: Host)
    ensures Sends(h0, h, [Shell(Plain(RouteCmd))])
    ensures netInterface == NetInterface(o(|h0.trace|, Shell(Plain(RouteCmd))))
  {
    var (route, h1) := ExecPlain(h0, o, RouteCmd);
    netInterface := if route.ok then TrimSpace(route.stdout) else "eth0";
    if netInterface == "" {
      netInterface := "eth0";
    }
    h := h1;
  }

  /** setupServerConfig's test for an existing configuration: wg0.conf, then the public key. */
  method CheckConfigured(h0: Host, o: Oracle) returns (configured: bool, h: Host)
    ensures var n := |h0.trace|;
      var hasConf := o(n, Shell(TestConfig)).ok && h0.conf.Some?;
      h == h0.(trace := if hasConf then h0.trace + [Shell(TestConfig)] + [Shell(TestPublicKey)]
                        else h0.trace + [Shell(TestConfig)]) &&
      (configured <==> hasConf && o(n + 1, Shell(TestPublicKey)).ok && h0.publicKeyFile)
  {
    var hasConf, h1 := RunProbe(h0, o, TestConfig);
    if !hasConf {
      return false, h1;
    }
    configured, h := RunProbe(h1, o, TestPublicKey);
  }

  // ---------------------------------------------------------------------
  // The steps of a fresh configuration, each as the commands it sends from
  // trace position n up to its first failure and the result it reports

  /** Generating the key pair, testing both files, reading the private key, reading the default route. */
  function PrepareSteps(o: Oracle, n: nat): seq<Sent> {
    var gen, both, cat := o(n, Shell(GenerateServerKeys)).ok, o(n + 1, Shell(TestBothKeys)).ok,
                          o(n + 2, Shell(CatPrivateKey));
    if !gen then [Shell(GenerateServerKeys)]
    else if !both then [Shell(GenerateServerKeys), Shell(TestBothKeys)]
    else if !cat.ok || TrimSpace(cat.stdout) == "" then [Shell(GenerateServerKeys), Shell(TestBothKeys), Shell(CatPrivateKey)]
    else [Shell(GenerateServerKeys), Shell(TestBothKeys), Shell(CatPrivateKey), Shell(Plain(RouteCmd))]
  }

  /** The trimmed private key and the outbound interface, or the error of the first step that failed. */
  function PrepareOutcome(o: Oracle, n: nat): Result<(string, string), Failure> {
    var gen, both, cat := o(n, Shell(GenerateServerKeys)).ok, o(n + 1, Shell(TestBothKeys)).ok,
                          o(n + 2, Shell(CatPrivateKey));
    var key := TrimSpace(cat.stdout);
    if !gen then Err(KeygenFailed)
    else if !both then Err(KeysMissing)
    else if !cat.ok then Err(ReadPrivateKeyFailed)
    else if key == "" then Err(EmptyPrivateKey)
    else Ok((key, NetInterface(o(n + 3, Shell(Plain(RouteCmd))))))
  }

  /** Staging the configuration in /tmp, moving it over wg0.conf, restricting the permissions. */
  function PlaceSteps(o: Oracle, n: nat, content: string): seq<Sent> {
    if !o(n, Shell(StageConfig(content))).ok then [Shell(StageConfig(content))]
    else if !o(n + 1, Shell(MoveStaged)).ok then [Shell(StageConfig(content)), Shell(MoveStaged)]
    else [Shell(StageConfig(content)), Shell(MoveStaged), Shell(ChmodConfigAndKeys)]
  }

  /** The error of the first placing step that failed; chmod also fails when a key file is missing. */
  function PlaceOutcome(o: Oracle, n: nat, content: string, keys: bool): Result<(), Failure> {
    if !o(n, Shell(StageConfig(content))).ok then Err(WriteConfigFailed)
    else if !o(n + 1, Shell(MoveStaged)).ok then Err(MoveConfigFailed)
    else if !(o(n + 2, Shell(ChmodConfigAndKeys)).ok && keys) then Err(ChmodFailed)
    else Ok(())
  }

  /** IP forwarding, enabling and starting wg-quick@wg0, checking the interface. */
  function StartSteps(o: Oracle, n: nat): seq<Sent> {
    if !o(n, Shell(Plain(ForwardingCmd))).ok then [Shell(Plain(ForwardingCmd))]
    else if !o(n + 1, Shell(Plain(StartCmd))).ok then [Shell(Plain(ForwardingCmd)), Shell(Plain(StartCmd))]
    else [Shell(Plain(ForwardingCmd)), Shell(Plain(StartCmd)), Shell(Plain(ShowInterfaceCmd))]
  }

  /** The error of the first service step that failed. */
  function StartOutcome(o: Oracle, n: nat): Result<(), Failure> {
    if !o(n, Shell(Plain(ForwardingCmd))).ok then Err(ForwardingFailed)
    else if !o(n + 1, Shell(Plain(StartCmd))).ok then Err(StartFailed)
    else if !o(n + 2, Shell(Plain(ShowInterfaceCmd))).ok then Err(InterfaceDown)
    else Ok(())
  }

  /** The configuration a fresh setup writes: the private key and interface read at positions n + 2 and n + 3. */
  function FreshContent(o: Oracle, n: nat): string {
    ServerConfigText(TrimSpace(o(n + 2, Shell(CatPrivateKey)).stdout), NetInterface(o(n + 3, Shell(Plain(RouteCmd)))))
  }

  /**
   * The commands of a fresh setup from trace position n that writes
   * `content` (FreshContent(o, n)): the key steps, then placing the
   * configuration, then the service, each stage only after the previous one
   * succeeded.
   */
  function FreshSteps(o: Oracle, n: nat, content: string): seq<Sent> {
    if PrepareOutcome(o, n).Err? then PrepareSteps(o, n)
    else if PlaceOutcome(o, n + 4, content, true).Err? then PrepareSteps(o, n) + PlaceSteps(o, n + 4, content)
    else PrepareSteps(o, n) + PlaceSteps(o, n + 4, content) + StartSteps(o, n + 7)
  }

  /** What a fresh setup writing `content` reports: the error of its first failing step, or success. */
  function FreshOutcome(o: Oracle, n: nat, content: string): Result<(), Failure> {
    var prepared := PrepareOutcome(o, n);
    if prepared.Err? then Err(prepared.error)
    else
      var placed := PlaceOutcome(o, n + 4, content, true);
      if placed.Err? then placed else StartOutcome(o, n + 7)
  }

  /** The server after the key steps: key files exist once generated. */
  function PrepareHost(h0: Host, o: Oracle): Host {
    var gen := o(|h0.trace|, Shell(GenerateServerKeys)).ok;
    h0.(privateKeyFile := h0.privateKeyFile || gen, publicKeyFile := h0.publicKeyFile || gen,
        trace := h0.trace + PrepareSteps(o, |h0.trace|))
  }

  /** The server after placing `content`: wg0.conf replaced once moved, the staging file left when only the move failed. */
  function PlaceHost(h0: Host, o: Oracle, content: string): Host {
    var n := |h0.trace|;
    var staged, moved := o(n, Shell(StageConfig(content))).ok, o(n + 1, Shell(MoveStaged)).ok;
    h0.(conf := if staged && moved then Some(LinesOf(content)) else h0.conf,
        staged := if staged && moved then None else if staged then Some(LinesOf(content)) else h0.staged,
        trace := h0.trace + PlaceSteps(o, n, content))
  }

  /** The server after the service steps: only the trace grows. */
  function StartHost(h0: Host, o: Oracle): Host {
    h0.(trace := h0.trace + StartSteps(o, |h0.trace|))
  }

  /** The server after a fresh setup from h0: the three stages in order, each only after the previous one succeeded. */
  function FreshHost(h0: Host, o: Oracle): Host {
    var n := |h0.trace|;
    var content := FreshContent(o, n);
    var h1 := PrepareHost(h0, o);
    if PrepareOutcome(o, n).Err? then h1
    else
      var h2 := PlaceHost(h1, o, content);
      if PlaceOutcome(o, n + 4, content, true).Err? then h2 else StartHost(h2, o)
  }

  /** A fresh setup sends exactly FreshSteps. */
  lemma FreshHostTrace(h0: Host, o: Oracle)
    ensures FreshHost(h0, o).trace == h0.trace + FreshSteps(o, |h0.trace|, FreshContent(o, |h0.trace|))
  {
    var n := |h0.trace|;
    var content := FreshContent(o, n);
    FreshTraceWith(h0, o, content);
  }

  /** FreshHostTrace for any content placed after the key steps. */
  lemma FreshTraceWith(h0: Host, o: Oracle, content: string)
    ensures var n := |h0.trace|;
      var h1 := PrepareHost(h0, o);
      var h := if PrepareOutcome(o, n).Err? then h1
               else if PlaceOutcome(o, n + 4, content, true).Err? then PlaceHost(h1, o, content)
               else StartHost(PlaceHost(h1, o, content), o);
      h.trace == h0.trace + FreshSteps(o, n, content)
  {
    var n := |h0.trace|;
    var p := PrepareSteps(o, n);
    var h1 := PrepareHost(h0, o);
    assert h1.trace == h0.trace + p;
    if PrepareOutcome(o, n).Ok? {
      assert |p| == 4;
      var q := PlaceSteps(o, n + 4, content);
      var u := StartSteps(o, n + 7);
      var h2 := PlaceHost(h1, o, content);
      assert h2.trace == h1.trace + q;
      Concatenated(h0.trace, p, q, u);
      if PlaceOutcome(o, n + 4, content, true).Ok? {
        assert |q| == 3;
        assert StartHost(h2, o).trace == h2.trace + u;
      }
    }
  }

  /** Appending three pieces one after the other appends their concatenation. */
  lemma Concatenated(t: seq<Sent>, p: seq<Sent>, q: seq<Sent>, u: seq<Sent>)
    ensures t + p + q == t + (p + q)
    ensures t + p + q + u == t + (p + q + u)
  {
  }

  /** The ten commands of a fresh setup writing `content`, in the order setupServerConfig sends them. */
  function FreshCommands(content: string): (cmds: seq<Sent>)
    ensures |cmds| == 10
  {
    [Shell(GenerateServerKeys), Shell(TestBothKeys), Shell(CatPrivateKey), Shell(Plain(RouteCmd)),
     Shell(StageConfig(content)), Shell(MoveStaged), Shell(ChmodConfigAndKeys),
     Shell(Plain(ForwardingCmd)), Shell(Plain(StartCmd)), Shell(Plain(ShowInterfaceCmd))]
  }

  /**
   * Whether the k-th fresh command, sent at position n + k, lets the setup
   * go on: it ran, the private key it read is not empty, and reading the
   * route never stops the setup.
   */
  predicate FreshPasses(o: Oracle, n: nat, content: string, k: nat)
    requires k < 10
  {
    if k == 3 then true
    else if k == 2 then o(n + 2, Shell(CatPrivateKey)).ok && TrimSpace(o(n + 2, Shell(CatPrivateKey)).stdout) != ""
    else o(n + k, FreshCommands(content)[k]).ok
  }

  /** The error setupServerConfig reports when the k-th fresh command stops it. */
  function FreshError(o: Oracle, n: nat, k: nat): Failure
    requires k < 10 && k != 3
  {
    if k == 0 then KeygenFailed
    else if k == 1 then KeysMissing
    else if k == 2 then (if o(n + 2, Shell(CatPrivateKey)).ok then EmptyPrivateKey else ReadPrivateKeyFailed)
    else if k == 4 then WriteConfigFailed
    else if k == 5 then MoveConfigFailed
    else if k == 6 then ChmodFailed
    else if k == 7 then ForwardingFailed
    else if k == 8 then StartFailed
    else InterfaceDown
  }

  /**
   * `steps` and `r` are a run of the ten fresh commands stopping at the
   * first one that does not pass: the commands sent are the first m of them
   * in their fixed order, every one before the last one sent passed, the run
   * succeeds exactly when all ten were sent and the last passed, and
   * otherwise it reports the error of the last one sent.
   */
  predicate StopsAtFirstFailure(o: Oracle, n: nat, content: string, steps: seq<Sent>, r: Result<(), Failure>) {
    var m := |steps|;
    1 <= m <= 10 && steps == FreshCommands(content)[..m] &&
    (forall k :: 0 <= k < m - 1 ==> FreshPasses(o, n, content, k)) &&
    (r.Ok? <==> m == 10 && FreshPasses(o, n, content, 9)) &&
    (r.Err? ==> !FreshPasses(o, n, content, m - 1) && r.error == FreshError(o, n, m - 1))
  }

  /** A fresh setup sends the ten commands in their fixed order and stops at the first one that does not pass. */
  lemma FreshStopsAtFirstFailure(o: Oracle, n: nat, content: string)
    ensures StopsAtFirstFailure(o, n, content, FreshSteps(o, n, content), FreshOutcome(o, n, content))
  {
    if PrepareOutcome(o, n).Err? {
      PrepareStepsInOrder(o, n, content);
    } else if PlaceOutcome(o, n + 4, content, true).Err? {
      StopsWhilePlacing(o, n, content);
    } else {
      StopsWhileStarting(o, n, content);
    }
  }

  /** The fresh run when placing the configuration fails. */
  lemma StopsWhilePlacing(o: Oracle, n: nat, content: string)
    requires PrepareOutcome(o, n).Ok? && PlaceOutcome(o, n + 4, content, true).Err?
    ensures StopsAtFirstFailure(o, n, content, FreshSteps(o, n, content), FreshOutcome(o, n, content))
  {
    PlacingSteps(o, n, content);
    PreparePassed(o, n, content);
    assert FreshOutcome(o, n, content) == PlaceOutcome(o, n + 4, content, true);
    StopsInPlacing(o, n, content, FreshSteps(o, n, content), FreshOutcome(o, n, content));
  }

  /** After the key steps succeed and placing fails, a fresh setup has sent the key steps and the placing steps. */
  lemma PlacingSteps(o: Oracle, n: nat, content: string)
    requires PrepareOutcome(o, n).Ok? && PlaceOutcome(o, n + 4, content, true).Err?
    ensures FreshSteps(o, n, content) == FreshCommands(content)[..4 + |PlaceSteps(o, n + 4, content)|]
  {
    var cmds, q := FreshCommands(content), PlaceSteps(o, n + 4, content);
    PrepareStepsInOrder(o, n, content);
    PlaceStepsInOrder(o, n, content);
    SlicesJoin(cmds, 4, 4 + |q|);
  }

  /** A run that has passed the key steps and then stopped while placing the configuration stops at the first failure. */
  lemma StopsInPlacing(o: Oracle, n: nat, content: string, steps: seq<Sent>, r: Result<(), Failure>)
    requires steps == FreshCommands(content)[..4 + |PlaceSteps(o, n + 4, content)|]
    requires r == PlaceOutcome(o, n + 4, content, true) && r.Err?
    requires forall k :: 0 <= k < 4 ==> FreshPasses(o, n, content, k)
    ensures StopsAtFirstFailure(o, n, content, steps, r)
  {
    PlaceStepsInOrder(o, n, content);
  }

  /** Once the key steps succeed, the first four fresh commands have passed. */
  lemma PreparePassed(o: Oracle, n: nat, content: string)
    requires PrepareOutcome(o, n).Ok?
    ensures forall k :: 0 <= k < 4 ==> FreshPasses(o, n, content, k)
  {
    PrepareStepsInOrder(o, n, content);
    assert FreshPasses(o, n, content, 3);
  }

  /** Once the configuration is placed, fresh commands 4 to 6 have passed. */
  lemma PlacePassed(o: Oracle, n: nat, content: string)
    requires PlaceOutcome(o, n + 4, content, true).Ok?
    ensures forall k :: 4 <= k < 7 ==> FreshPasses(o, n, content, k)
  {
    PlaceStepsInOrder(o, n, content);
  }

  /** The fresh run when the key steps and placing the configuration succeed. */
  lemma StopsWhileStarting(o: Oracle, n: nat, content: string)
    requires PrepareOutcome(o, n).Ok? && PlaceOutcome(o, n + 4, content, true).Ok?
    ensures StopsAtFirstFailure(o, n, content, FreshSteps(o, n, content), FreshOutcome(o, n, content))
  {
    StartingSteps(o, n, content);
    StartingPasses(o, n, content);
    assert FreshOutcome(o, n, content) == StartOutcome(o, n + 7);
    StopsInService(o, n, content, FreshSteps(o, n, content), FreshOutcome(o, n, content));
  }

  /** A run that has sent the first seven commands, passing, and then the service steps stops at the first failure. */
  lemma StopsInService(o: Oracle, n: nat, content: string, steps: seq<Sent>, r: Result<(), Failure>)
    requires steps == FreshCommands(content)[..7 + |StartSteps(o, n + 7)|] && r == StartOutcome(o, n + 7)
    requires forall k :: 0 <= k < 7 + |StartSteps(o, n + 7)| - 1 ==> FreshPasses(o, n, content, k)
    ensures StopsAtFirstFailure(o, n, content, steps, r)
  {
    StartStepsInOrder(o, n, content);
  }

  /** With the first seven commands passed, a fresh setup has sent them and the service steps. */
  lemma StartingSteps(o: Oracle, n: nat, content: string)
    requires PrepareOutcome(o, n).Ok? && PlaceOutcome(o, n + 4, content, true).Ok?
    ensures FreshSteps(o, n, content) == FreshCommands(content)[..7 + |StartSteps(o, n + 7)|]
  {
    var cmds, u := FreshCommands(content), StartSteps(o, n + 7);
    PrepareStepsInOrder(o, n, content);
    PlaceStepsInOrder(o, n, content);
    StartStepsInOrder(o, n, content);
    JoinPrefix(cmds, PrepareSteps(o, n), PlaceSteps(o, n + 4, content), u);
  }

  /** With the first seven commands passed, every service step before the last one sent passed too. */
  lemma StartingPasses(o: Oracle, n: nat, content: string)
    requires PrepareOutcome(o, n).Ok? && PlaceOutcome(o, n + 4, content, true).Ok?
    ensures forall k :: 0 <= k < 7 + |StartSteps(o, n + 7)| - 1 ==> FreshPasses(o, n, content, k)
  {
    PreparePassed(o, n, content);
    PlacePassed(o, n, content);
    StartStepsInOrder(o, n, content);
  }

  /** Three consecutive slices of a sequence, from its start, join into one prefix. */
  lemma JoinPrefix(s: seq<Sent>, p: seq<Sent>, q: seq<Sent>, u: seq<Sent>)
    requires 7 + |u| <= |s| && p == s[..4] && q == s[4..7] && u == s[7..7 + |u|]
    ensures p + q + u == s[..7 + |u|]
  {
    SlicesJoin(s, 4, 7);
    SlicesJoin(s, 7, 7 + |u|);
  }

  /** A prefix followed by the slice after it is the longer prefix. */
  lemma SlicesJoin(s: seq<Sent>, i: nat, j: nat)
    requires i <= j <= |s|
    ensures s[..i] + s[i..j] == s[..j]
  {
  }

  /** The key steps are the first fresh commands, up to the first that does not pass. */
  lemma PrepareStepsInOrder(o: Oracle, n: nat, content: string)
    ensures var s, cmds := PrepareSteps(o, n), FreshCommands(content);
      var prepared := PrepareOutcome(o, n);
      1 <= |s| <= 4 && s == cmds[..|s|] && (forall k :: 0 <= k < |s| - 1 ==> FreshPasses(o, n, content, k)) &&
      (prepared.Ok? <==> |s| == 4) &&
      (prepared.Err? ==> !FreshPasses(o, n, content, |s| - 1) && prepared.error == FreshError(o, n, |s| - 1))
  {
    var s, cmds := PrepareSteps(o, n), FreshCommands(content);
    var gen, both, cat := o(n, Shell(GenerateServerKeys)).ok, o(n + 1, Shell(TestBothKeys)).ok,
                          o(n + 2, Shell(CatPrivateKey));
    assert cmds[0] == Shell(GenerateServerKeys) && cmds[1] == Shell(TestBothKeys);
    assert cmds[2] == Shell(CatPrivateKey) && cmds[3] == Shell(Plain(RouteCmd));
    if !gen {
      assert s == cmds[..1];
      assert !FreshPasses(o, n, content, 0);
    } else if !both {
      assert s == cmds[..2];
      assert FreshPasses(o, n, content, 0) && !FreshPasses(o, n, content, 1);
    } else if !cat.ok || TrimSpace(cat.stdout) == "" {
      assert s == cmds[..3];
      assert FreshPasses(o, n, content, 0) && FreshPasses(o, n, content, 1) && !FreshPasses(o, n, content, 2);
    } else {
      assert s == cmds[..4];
      assert FreshPasses(o, n, content, 0) && FreshPasses(o, n, content, 1) && FreshPasses(o, n, content, 2);
    }
  }

  /** Placing the configuration sends fresh commands 4 to 6, up to the first that does not pass. */
  lemma PlaceStepsInOrder(o: Oracle, n: nat, content: string)
    ensures var s, cmds := PlaceSteps(o, n + 4, content), FreshCommands(content);
      var placed := PlaceOutcome(o, n + 4, content, true);
      1 <= |s| <= 3 && s == cmds[4..4 + |s|] && (forall k :: 4 <= k < 4 + |s| - 1 ==> FreshPasses(o, n, content, k)) &&
      (placed.Ok? <==> |s| == 3 && FreshPasses(o, n, content, 6)) &&
      (placed.Err? ==> !FreshPasses(o, n, content, 4 + |s| - 1) && placed.error == FreshError(o, n, 4 + |s| - 1))
  {
    var s, cmds := PlaceSteps(o, n + 4, content), FreshCommands(content);
    assert cmds[4] == Shell(StageConfig(content)) && cmds[5] == Shell(MoveStaged) && cmds[6] == Shell(ChmodConfigAndKeys);
    if !o(n + 4, cmds[4]).ok {
      assert s == cmds[4..5];
      assert !FreshPasses(o, n, content, 4);
    } else if !o(n + 5, cmds[5]).ok {
      assert s == cmds[4..6];
      assert FreshPasses(o, n, content, 4) && !FreshPasses(o, n, content, 5);
    } else {
      assert s == cmds[4..7];
      assert FreshPasses(o, n, content, 4) && FreshPasses(o, n, content, 5);
    }
  }

  /** Starting the service sends fresh commands 7 to 9, up to the first that fails. */
  lemma StartStepsInOrder(o: Oracle, n: nat, content: string)
    ensures var s, cmds := StartSteps(o, n + 7), FreshCommands(content);
      var started := StartOutcome(o, n + 7);
      1 <= |s| <= 3 && s == cmds[7..7 + |s|] && (forall k :: 7 <= k < 7 + |s| - 1 ==> FreshPasses(o, n, content, k)) &&
      (started.Ok? <==> |s| == 3 && FreshPasses(o, n, content, 9)) &&
      (started.Err? ==> !FreshPasses(o, n, content, 7 + |s| - 1) && started.error == FreshError(o, n, 7 + |s| - 1))
  {
    var s, cmds := StartSteps(o, n + 7), FreshCommands(content);
    assert cmds[7] == Shell(Plain(ForwardingCmd)) && cmds[8] == Shell(Plain(StartCmd)) && cmds[9] == Shell(Plain(ShowInterfaceCmd));
    if !o(n + 7, cmds[7]).ok {
      assert s == cmds[7..8];
      assert !FreshPasses(o, n, content, 7);
    } else if !o(n + 8, cmds[8]).ok {
      assert s == cmds[7..9];
      assert FreshPasses(o, n, content, 7) && !FreshPasses(o, n, content, 8);
    } else {
      assert s == cmds[7..10];
      assert FreshPasses(o, n, content, 7) && FreshPasses(o, n, content, 8);
    }
  }

  /** A fresh setup that succeeds leaves the key pair and the configuration FreshConfig describes. */
  lemma FreshHostConfigured(h0: Host, o: Oracle)
    ensures var n := |h0.trace|; FreshOutcome(o, n, FreshContent(o, n)).Ok? ==> FreshConfig(FreshHost(h0, o), o, n)
  {
  }

  /** The key steps of setupServerConfig: generate the key pair, check both files, read the private key and the route. */
  method PrepareServerConfig(h0: Host, o: Oracle) returns (r: Result<(string, string), Failure>, h: Host)
    ensures h == PrepareHost(h0, o)
    ensures r == PrepareOutcome(o, |h0.trace|)
  {
    var n := |h0.trace|;
    var gen, test, cat := Shell(GenerateServerKeys), Shell(TestBothKeys), Shell(CatPrivateKey);
    var generated, h1 := GenerateKeys(h0, o);
    if generated.Err? {
      assert h1.trace == h0.trace + PrepareSteps(o, n);
      r, h := Err(generated.error), h1;
    } else {
      assert h1.trace == h0.trace + [gen, test];
      var privateKey, h2 := ReadPrivateKey(h1, o);
      assert h2.trace == h0.trace + [gen, test, cat];
      if privateKey.Err? {
        r, h := Err(privateKey.error), h2;
      } else {
        var netInterface, h3 := ReadNetInterface(h2, o);
        assert h3.trace == h0.trace + [gen, test, cat, Shell(Plain(RouteCmd))];
        r, h := Ok((privateKey.value, netInterface)), h3;
      }
    }
  }

  /** The key pair of setupServerConfig: generate it, then test that both files exist. */
  method GenerateKeys(h0: Host, o: Oracle) returns (r: Result<(), Failure>, h: Host)
    ensures var n := |h0.trace|;
      var gen, both := o(n, Shell(GenerateServerKeys)).ok, o(n + 1, Shell(TestBothKeys)).ok;
      h.conf == h0.conf && h.staged == h0.staged &&
      h.privateKeyFile == (h0.privateKeyFile || gen) && h.publicKeyFile == (h0.publicKeyFile || gen) &&
      r == (if !gen then Err(KeygenFailed) else if !both then Err(KeysMissing) else Ok(())) &&
      h.trace == (if !gen then h0.trace + [Shell(GenerateServerKeys)]
                  else h0.trace + [Shell(GenerateServerKeys)] + [Shell(TestBothKeys)])
  {
    var (gen, h1) := Exec(h0, o, GenerateServerKeys);
    if !gen.ok {
      r, h := Err(KeygenFailed), h1;
    } else {
      var both, h2 := RunProbe(h1, o, TestBothKeys);
      r, h := if both then Ok(()) else Err(KeysMissing), h2;
    }
  }

  /** Reading the server's private key: the read must succeed and leave something once trimmed. */
  method ReadPrivateKey(h0: Host, o: Oracle) returns (r: Result<string, Failure>, h: Host)
    requires h0.privateKeyFile
    ensures var cat := o(|h0.trace|, Shell(CatPrivateKey));
      var key := TrimSpace(cat.stdout);
      h == h0.(trace := h0.trace + [Shell(CatPrivateKey)]) &&
      r == (if !cat.ok then Err(ReadPrivateKeyFailed) else if key == "" then Err(EmptyPrivateKey) else Ok(key))
  {
    var (cat, h1) := Exec(h0, o, CatPrivateKey);
    var key := TrimSpace(cat.stdout);
    r, h := if !cat.ok then Err(ReadPrivateKeyFailed) else if key == "" then Err(EmptyPrivateKey) else Ok(key), h1;
  }

  /** Writing the configuration: stage it in /tmp, move it over wg0.conf, restrict the permissions. */
  method PlaceServerConfig(h0: Host, o: Oracle, content: string) returns (r: Result<(), Failure>, h: Host)
    ensures h == PlaceHost(h0, o, content)
    ensures r == PlaceOutcome(o, |h0.trace|, content, h0.privateKeyFile && h0.publicKeyFile)
  {
    var (write, h1) := Exec(h0, o, StageConfig(content));
    if !write.ok {
      return Err(WriteConfigFailed), h1;
    }
    var (move, h2) := Exec(h1, o, MoveStaged);
    if !move.ok {
      return Err(MoveConfigFailed), h2;
    }
    var (chmod, h3) := Exec(h2, o, ChmodConfigAndKeys);
    if !chmod.ok {
      return Err(ChmodFailed), h3;
    }
    return Ok(()), h3;
  }

  /** Bringing the tunnel up: IP forwarding, enable and start wg-quick@wg0, check the interface. */
  method StartService(h0: Host, o: Oracle) returns (r: Result<(), Failure>, h: Host)
    ensures h == StartHost(h0, o)
    ensures r == StartOutcome(o, |h0.trace|)
  {
    var (forwarding, h1) := ExecPlain(h0, o, ForwardingCmd);
    if !forwarding.ok {
      return Err(ForwardingFailed), h1;
    }
    var (start, h2) := ExecPlain(h1, o, StartCmd);
    if !start.ok {
      return Err(StartFailed), h2;
    }
    var (show, h3) := ExecPlain(h2, o, ShowInterfaceCmd);
    if !show.ok {
      return Err(InterfaceDown), h3;
    }
    return Ok(()), h3;
  }

  /** The server already has wg0.conf and its public key, as setupServerConfig's probes find. */
  predicate FoundConfigured(h0: Host, o: Oracle, n: nat) {
    o(n, Shell(TestConfig)).ok && h0.conf.Some? && o(n + 1, Shell(TestPublicKey)).ok && h0.publicKeyFile
  }

  /**
   * h holds the key pair and the configuration made from the outputs of the
   * commands sent from trace position p on: key generation, the key test,
   * reading the private key (non-empty once trimmed) and reading the default
   * route.
   */
  predicate FreshConfig(h: Host, o: Oracle, p: nat) {
    var key := TrimSpace(o(p + 2, Shell(CatPrivateKey)).stdout);
    var netInterface := NetInterface(o(p + 3, Shell(Plain(RouteCmd))));
    key != "" && h.privateKeyFile && h.publicKeyFile && h.conf == Some(LinesOf(ServerConfigText(key, netInterface)))
  }

  /**
   * The fresh configuration of setupServerConfig: new keys, the configuration
   * made of the private key and the outbound interface, the tunnel started;
   * the commands are FreshSteps, stopping at the first failure.
   */
  method WriteServerConfig(h0: Host, o: Oracle) returns (r: Result<(), Failure>, h: Host)
    ensures h == FreshHost(h0, o)
    ensures r == FreshOutcome(o, |h0.trace|, FreshContent(o, |h0.trace|))
  {
    ghost var n := |h0.trace|;
    var prepared, h1 := PrepareServerConfig(h0, o);
    if prepared.Err? {
      return Err(prepared.error), h1;
    }
    var (privateKey, netInterface) := prepared.value;
    assert ServerConfigText(privateKey, netInterface) == FreshContent(o, n);
    var placed, h2 := PlaceServerConfig(h1, o, ServerConfigText(privateKey, netInterface));
    if placed.Err? {
      return placed, h2;
    }
    r, h := StartService(h2, o);
  }

  /** The probes of setupServerConfig from position n: wg0.conf, then the public key only when wg0.conf exists. */
  function ProbeSteps(h0: Host, o: Oracle, n: nat): seq<Sent> {
    if o(n, Shell(TestConfig)).ok && h0.conf.Some? then [Shell(TestConfig), Shell(TestPublicKey)] else [Shell(TestConfig)]
  }

  /**
   * What setupServerConfig does from h0, ending with result r on host h:
   * `mkdir -p /etc/wireguard` first, an error when it fails; then the probes;
   * an existing configuration with its public key is kept untouched, and
   * otherwise the fresh setup runs from where the probes stopped.
   */
  predicate ConfigOutcome(h0: Host, o: Oracle, r: Result<(), Failure>, h: Host) {
    var n := |h0.trace|;
    if !o(n, Shell(Plain(MkdirCmd))).ok then r == Err(MkdirFailed) && h == h0.(trace := h0.trace + [Shell(Plain(MkdirCmd))])
    else
      var probed := h0.(trace := h0.trace + [Shell(Plain(MkdirCmd))] + ProbeSteps(h0, o, n + 1));
      if FoundConfigured(h0, o, n + 1) then r == Ok(()) && h == probed
      else r == FreshOutcome(o, |probed.trace|, FreshContent(o, |probed.trace|)) && h == FreshHost(probed, o)
  }

  /** After a successful setupServerConfig, wg0.conf and the server's public key exist. */
  lemma ConfigOutcomeReady(h0: Host, o: Oracle, r: Result<(), Failure>, h: Host)
    requires ConfigOutcome(h0, o, r, h)
    ensures r.Ok? ==> h.conf.Some? && h.publicKeyFile
  {
    var n := |h0.trace|;
    if o(n, Shell(Plain(MkdirCmd))).ok && !FoundConfigured(h0, o, n + 1) {
      var probed := h0.(trace := h0.trace + [Shell(Plain(MkdirCmd))] + ProbeSteps(h0, o, n + 1));
      FreshHostConfigured(probed, o);
    }
  }

  /**
   * When no configuration is found, setupServerConfig sends mkdir, the probes,
   * and then the ten fresh commands in order up to the first that does not
   * pass, and reports that command's error.
   */
  lemma ConfigOutcomeInOrder(h0: Host, o: Oracle, r: Result<(), Failure>, h: Host)
    requires ConfigOutcome(h0, o, r, h)
    requires o(|h0.trace|, Shell(Plain(MkdirCmd))).ok && !FoundConfigured(h0, o, |h0.trace| + 1)
    ensures FreshRunAfter(h0.trace + [Shell(Plain(MkdirCmd))] + ProbeSteps(h0, o, |h0.trace| + 1), o, r, h.trace)
  {
    var n := |h0.trace|;
    var probed := h0.(trace := h0.trace + [Shell(Plain(MkdirCmd))] + ProbeSteps(h0, o, n + 1));
    FreshHostInOrder(probed, o);
  }

  /** Trace t is t0 followed by a fresh run from |t0|, writing FreshContent, that stops at its first failure with result r. */
  predicate FreshRunAfter(t0: seq<Sent>, o: Oracle, r: Result<(), Failure>, t: seq<Sent>) {
    var m := |t0|;
    m <= |t| && t[..m] == t0 && StopsAtFirstFailure(o, m, FreshContent(o, m), t[m..], r)
  }

  /** A fresh setup from h0 keeps h0's trace and then sends a run that stops at its first failure. */
  lemma FreshHostInOrder(h0: Host, o: Oracle)
    ensures var n := |h0.trace|; FreshRunAfter(h0.trace, o, FreshOutcome(o, n, FreshContent(o, n)), FreshHost(h0, o).trace)
  {
    var n := |h0.trace|;
    FreshHostTrace(h0, o);
    FreshRunInOrder(h0.trace, n, o, FreshContent(o, n), FreshOutcome(o, n, FreshContent(o, n)), FreshHost(h0, o).trace);
  }

  /** A trace that extends t0 by a fresh run from m = |t0| splits into t0 and a run that stops at its first failure. */
  lemma FreshRunInOrder(t0: seq<Sent>, m: nat, o: Oracle, content: string, r: Result<(), Failure>, t: seq<Sent>)
    requires m == |t0| && t == t0 + FreshSteps(o, m, content) && r == FreshOutcome(o, m, content)
    ensures t[..m] == t0 && StopsAtFirstFailure(o, m, content, t[m..], r)
  {
    FreshStopsAtFirstFailure(o, m, content);
    assert t[m..] == FreshSteps(o, m, content);
  }

  /**
   * setupServerConfig: create /etc/wireguard; keep an existing configuration
   * with its public key; otherwise generate the server keys, write a fresh
   * configuration and bring the tunnel up.
   */
  method SetupServerConfig(h0: Host, o: Oracle) returns (r: Result<(), Failure>, h: Host)
    ensures ConfigOutcome(h0, o, r, h)
  {
    var (mkdir, h1) := ExecPlain(h0, o, MkdirCmd);
    if !mkdir.ok {
      r, h := Err(MkdirFailed), h1;
    } else {
      var configured, h2 := CheckConfigured(h1, o);
      assert h2 == h0.(trace := h0.trace + [Shell(Plain(MkdirCmd))] + ProbeSteps(h0, o, |h0.trace| + 1));
      if configured {
        r, h := Ok(()), h2;
      } else {
        r, h := WriteServerConfig(h2, o);
      }
    }
  }

  /**
   * What SetupServer does once connected, from h0: `which wg`; when it finds
   * WireGuard, setupServerConfig directly; otherwise the distribution is read
   * and the packages installed, and a failed read or install is reported with
   * nothing more sent, while a successful install goes on to setupServerConfig.
   */
  predicate Provisioned(h0: Host, o: Oracle, r: Result<(), Failure>, h: Host) {
    var n := |h0.trace|;
    var which := o(n, Shell(Plain(WhichWgCmd)));
    var h1 := h0.(trace := h0.trace + [Shell(Plain(WhichWgCmd))]);
    if which.ok && TrimSpace(which.stdout) != "" then ConfigOutcome(h1, o, r, h)
    else InstallThenConfig(h1, o, r, h)
  }

  /**
   * Provisioning once `which wg` found nothing, from h1: read the
   * distribution, install its packages, and set up the configuration only
   * when they installed; otherwise report the first error.
   */
  predicate InstallThenConfig(h1: Host, o: Oracle, r: Result<(), Failure>, h: Host) {
    var n := |h1.trace|;
    if !o(n, Shell(Plain(OsReleaseCmd))).ok then
      r == Err(OsDetectionFailed) && h == h1.(trace := h1.trace + [Shell(Plain(OsReleaseCmd))])
    else
      var os := OsType(o, n);
      var t0 := h1.trace + [Shell(Plain(OsReleaseCmd))];
      var installed := h1.(trace := PackagesTrace(o, Family(os), Epel(os), t0));
      if PackagesSucceed(o, Family(os), Epel(os), |t0|) then ConfigOutcome(installed, o, r, h)
      else r == Err(PackagesError(o, Family(os), Epel(os), |t0|)) && h == installed
  }

  /** On a server where `which wg` finds WireGuard, the next command is the mkdir: nothing is installed. */
  lemma InstalledSkipsInstall(h0: Host, o: Oracle, r: Result<(), Failure>, h: Host)
    requires Provisioned(h0, o, r, h)
    requires var which := o(|h0.trace|, Shell(Plain(WhichWgCmd))); which.ok && TrimSpace(which.stdout) != ""
    ensures |h.trace| > |h0.trace| + 1
    ensures h.trace[|h0.trace|] == Shell(Plain(WhichWgCmd)) && h.trace[|h0.trace| + 1] == Shell(Plain(MkdirCmd))
  {
    var n := |h0.trace|;
    var h1 := h0.(trace := h0.trace + [Shell(Plain(WhichWgCmd))]);
    ConfigStartsWithMkdir(h1, o, r, h);
    AfterWhich(h0.trace, h1.trace, h.trace);
  }

  /** A trace that keeps t and the which, then has the mkdir, has the which right after t. */
  lemma AfterWhich(t: seq<Sent>, t1: seq<Sent>, u: seq<Sent>)
    requires t1 == t + [Shell(Plain(WhichWgCmd))]
    requires |u| > |t1| && u[..|t1|] == t1 && u[|t1|] == Shell(Plain(MkdirCmd))
    ensures |u| > |t| + 1
    ensures u[|t|] == Shell(Plain(WhichWgCmd)) && u[|t| + 1] == Shell(Plain(MkdirCmd))
  {
    assert u[|t|] == u[..|t1|][|t|];
  }

  /** setupServerConfig's first command is the mkdir, whatever follows. */
  lemma ConfigStartsWithMkdir(h0: Host, o: Oracle, r: Result<(), Failure>, h: Host)
    requires ConfigOutcome(h0, o, r, h)
    ensures |h.trace| > |h0.trace| && h.trace[..|h0.trace|] == h0.trace && h.trace[|h0.trace|] == Shell(Plain(MkdirCmd))
  {
    var n := |h0.trace|;
    var mkdir := Shell(Plain(MkdirCmd));
    if !o(n, mkdir).ok {
      assert h.trace == h0.trace + [mkdir] + [];
      ExtendsWith(h0.trace, mkdir, [], h.trace);
    } else {
      var steps := ProbeSteps(h0, o, n + 1);
      var probed := h0.(trace := h0.trace + [mkdir] + steps);
      if FoundConfigured(h0, o, n + 1) {
        ExtendsWith(h0.trace, mkdir, steps, h.trace);
      } else {
        FreshHostTrace(probed, o);
        ExtendsWithTwo(h0.trace, mkdir, steps, FreshSteps(o, |probed.trace|, FreshContent(o, |probed.trace|)), h.trace);
      }
    }
  }

  /** ExtendsWith when two pieces follow c. */
  lemma ExtendsWithTwo(t: seq<Sent>, c: Sent, p: seq<Sent>, q: seq<Sent>, u: seq<Sent>)
    requires u == t + [c] + p + q
    ensures |u| > |t| && u[..|t|] == t && u[|t|] == c
  {
    assert u == t + [c] + (p + q);
    ExtendsWith(t, c, p + q, u);
  }

  /** A trace made of t, then c, then more, keeps t and has c at position |t|. */
  lemma ExtendsWith(t: seq<Sent>, c: Sent, rest: seq<Sent>, u: seq<Sent>)
    requires u == t + [c] + rest
    ensures |u| > |t| && u[..|t|] == t && u[|t|] == c
  {
  }

  /**
   * When installing WireGuard fails, provisioning reports the installer's
   * error and never reaches the mkdir: the configuration is left alone.
   */
  lemma FailedInstallStops(h0: Host, o: Oracle, r: Result<(), Failure>, h: Host)
    requires Provisioned(h0, o, r, h)
    requires var n, which := |h0.trace|, o(|h0.trace|, Shell(Plain(WhichWgCmd)));
      !(which.ok && TrimSpace(which.stdout) != "") && o(n + 1, Shell(Plain(OsReleaseCmd))).ok
    requires var os := OsType(o, |h0.trace| + 1);
      !PackagesSucceed(o, Family(os), Epel(os), |h0.trace| + 2)
    ensures r.Err? && h.conf == h0.conf && |h.trace| >= |h0.trace|
    ensures Shell(Plain(MkdirCmd)) !in h.trace[|h0.trace|..]
  {
    var n := |h0.trace|;
    var os := OsType(o, n + 1);
    var h1 := h0.(trace := h0.trace + [Shell(Plain(WhichWgCmd))]);
    var t0 := h1.trace + [Shell(Plain(OsReleaseCmd))];
    var t := PackagesTrace(o, Family(os), Epel(os), t0);
    assert h == h0.(trace := t);
    InstallSendsNoMkdir(o, Family(os), Epel(os), t0);
    NoMkdirBeforeInstall(h0.trace, t0, t);
  }

  /** The which and the os-release probes are not the mkdir, so none is sent from the start of t0 on. */
  lemma NoMkdirBeforeInstall(t: seq<Sent>, t0: seq<Sent>, u: seq<Sent>)
    requires t0 == t + [Shell(Plain(WhichWgCmd))] + [Shell(Plain(OsReleaseCmd))]
    requires |t0| <= |u| && u[..|t0|] == t0 && Shell(Plain(MkdirCmd)) !in u[|t0|..]
    ensures |t| <= |u| && Shell(Plain(MkdirCmd)) !in u[|t|..]
  {
    assert u[|t|..] == [Shell(Plain(WhichWgCmd)), Shell(Plain(OsReleaseCmd))] + u[|t0|..] by {
      assert u == t0 + u[|t0|..];
    }
  }

  /** The installer commands never include the mkdir of the configuration directory. */
  lemma InstallSendsNoMkdir(o: Oracle, family: OsFamily, epel: bool, t0: seq<Sent>)
    ensures var t := PackagesTrace(o, family, epel, t0); |t0| <= |t| && t[..|t0|] == t0 && Shell(Plain(MkdirCmd)) !in t[|t0|..]
  {
    if family != UnknownOs {
      var opt, req := Optional(family, epel), Required(family);
      var k := Attempted(o, |t0| + |opt|, req);
      MkdirNotFamilyInstall(family, epel);
      RunsTwoNoShellOf(MkdirCmd, opt, req, k, t0, PackagesTrace(o, family, epel, t0));
    } else {
      var k := UntilSuccess(o, |t0|, GenericInstallers);
      MkdirNotGenericInstall();
      RunsNoShellOf(MkdirCmd, GenericInstallers, k, t0, PackagesTrace(o, family, epel, t0));
    }
  }

  /** The mkdir is none of a family's package commands. */
  lemma MkdirNotFamilyInstall(family: OsFamily, epel: bool)
    ensures MkdirCmd !in Optional(family, epel) + Required(family)
  {
  }

  /** The mkdir is none of the generic installers. */
  lemma MkdirNotGenericInstall()
    ensures MkdirCmd !in GenericInstallers
  {
  }

  /** Running a whole list, then the first k commands of another, neither holding c, after t0 never sends c. */
  lemma RunsTwoNoShellOf(c: string, first: seq<string>, second: seq<string>, k: nat, t0: seq<Sent>, t: seq<Sent>)
    requires c !in first + second && k <= |second| && t == t0 + Shells(first) + Shells(second[..k])
    ensures |t0| <= |t| && t[..|t0|] == t0 && Shell(Plain(c)) !in t[|t0|..]
  {
    assert c !in first && c !in second;
    assert c !in second[..k] by {
      assert second[..k] <= second;
    }
    NoShellOf(c, first);
    NoShellOf(c, second[..k]);
    AppendedNotIn(Shell(Plain(c)), t0, Shells(first), Shells(second[..k]), t);
  }

  /** An entry in neither of two pieces appended to t0 is not sent after t0. */
  lemma AppendedNotIn(x: Sent, t0: seq<Sent>, a: seq<Sent>, b: seq<Sent>, t: seq<Sent>)
    requires t == t0 + a + b && x !in a && x !in b
    ensures |t0| <= |t| && t[..|t0|] == t0 && x !in t[|t0|..]
  {
    assert t[|t0|..] == a + b;
  }

  /** Running the first k commands of a list without c after t0 extends t0 and never sends c. */
  lemma RunsNoShellOf(c: string, cmds: seq<string>, k: nat, t0: seq<Sent>, t: seq<Sent>)
    requires c !in cmds && k <= |cmds| && t == t0 + Shells(cmds[..k])
    ensures |t0| <= |t| && t[..|t0|] == t0 && Shell(Plain(c)) !in t[|t0|..]
  {
    assert c !in cmds[..k] by {
      assert cmds[..k] <= cmds;
    }
    assert t[|t0|..] == Shells(cmds[..k]);
    NoShellOf(c, cmds[..k]);
  }

  /** A command that is not in the list is not sent by running the list. */
  lemma NoShellOf(c: string, cmds: seq<string>)
    requires c !in cmds
    ensures Shell(Plain(c)) !in Shells(cmds)
  {
  }

  /** After a successful provisioning, wg0.conf and the server's public key exist. */
  lemma ProvisionedReady(h0: Host, o: Oracle, r: Result<(), Failure>, h: Host)
    requires Provisioned(h0, o, r, h)
    ensures r.Ok? ==> h.conf.Some? && h.publicKeyFile
  {
    var n := |h0.trace|;
    var which := o(n, Shell(Plain(WhichWgCmd)));
    var h1 := h0.(trace := h0.trace + [Shell(Plain(WhichWgCmd))]);
    if which.ok && TrimSpace(which.stdout) != "" {
      ConfigOutcomeReady(h1, o, r, h);
    } else if o(n + 1, Shell(Plain(OsReleaseCmd))).ok {
      var os := OsType(o, n + 1);
      var t0 := h1.trace + [Shell(Plain(OsReleaseCmd))];
      if PackagesSucceed(o, Family(os), Epel(os), |t0|) {
        ConfigOutcomeReady(h0.(trace := PackagesTrace(o, Family(os), Epel(os), t0)), o, r, h);
      }
    }
  }

  /**
   * SetupServer once connected: install WireGuard unless `which wg` finds
   * it, then set up the server configuration; an already set-up server only
   * sees the checks.
   */
  method ProvisionServer(h0: Host, o: Oracle) returns (r: Result<(), Failure>, h: Host)
    ensures Provisioned(h0, o, r, h)
  {
    var installed, h1 := IsWireguardInstalled(h0, o);
    var h2 := h1;
    if !installed {
      var installedNow;
      installedNow, h2 := InstallWireguard(h1, o);
      if installedNow.Err? {
        return installedNow, h2;
      }
    }
    r, h := SetupServerConfig(h2, o);
  }

  /** SetupServer: connect, giving up after the deadline, then provision the server. */
  method SetupServer(h0: Host, o: Oracle, dial: Dial) returns (r: Result<(), Failure>, h: Host)
    ensures dial == Refused ==> r == Err(ConnectFailed) && h == h0
    ensures dial == TimedOut ==> r == Err(ConnectTimeout) && h == h0
    ensures dial == Connected ==> Provisioned(h0, o, r, h)
    ensures r.Ok? ==> dial == Connected && h.conf.Some? && h.publicKeyFile
  {
    if dial == Refused {
      return Err(ConnectFailed), h0;
    } else if dial == TimedOut {
      return Err(ConnectTimeout), h0;
    }
    r, h := ProvisionServer(h0, o);
    ProvisionedReady(h0, o, r, h);
  }
}
