/**
 * The abstract remote server the VPN manager drives over SSH.
 *
 * The server is reduced to what the provisioning scripts observe: the
 * registry /etc/wireguard/wg0.conf as a list of lines (None while the file
 * does not exist), whether the two server key files exist, the staging file
 * /tmp/wg0.conf, and the trace of every command sent, in order. The manager
 * holds no state of its own about the server, so the workflows take the
 * server's state as a value and return the state they leave behind.
 *
 * Whether a command's SSH session runs, and what commands with no modelled
 * effect print (key generation, package managers, curl, systemctl, ...), is
 * decided by an oracle indexed by the command's position in the trace and
 * the command itself (CommandText and EditText give the exact shell text).
 * Commands that read or rewrite the registry or the key files take their
 * exit status and output from the modelled files instead.
 */
module RemoteShell {
  import opened Outcomes
  import opened GoText
  import opened PeerRegistry

  /** What executeCommand reports: success and stdout (stdout is empty on failure). */
  datatype Run = Run(ok: bool, stdout: string)

  /** Commands on the key files, the staging file and the system. */
  datatype Command =
    | Plain(text: string)          // no modelled effect: outcome and output from the oracle
    | GenerateServerKeys           // wg genkey | tee private | wg pubkey > public
    | TestConfig                   // test -f wg0.conf && echo 'exists'
    | TestPublicKey                // test -f server_public.key && echo 'exists'
    | TestBothKeys                 // test -f private && test -f public && echo 'success'
    | CatPrivateKey
    | CatPublicKey
    | StageConfig(content: string) // writeFileToServer: cat > /tmp/wg0.conf with content on stdin
    | MoveStaged                   // mv /tmp/wg0.conf /etc/wireguard/wg0.conf
    | ChmodConfigAndKeys
    | ChmodKeys

  /** Commands that read or rewrite the registry wg0.conf. */
  datatype Edit =
    | GrepAllowedIPs
    | GrepListenPort               // grep ListenPort wg0.conf | cut -d'=' -f2
    | AppendPeer(entry: string)    // echo '<entry>' >> wg0.conf
    | SedBlock(name: string)
    | SedUnblock(name: string)
    | CountBlocked(name: string)   // grep -c "#BLOCKED name" wg0.conf || echo "0"
    | RemovePeer(name: string)     // grep -v | grep -v -A2 > tmp && mv tmp wg0.conf

  /** One entry of the trace of commands sent. */
  datatype Sent = Shell(command: Command) | Registry(edit: Edit)

  /** The k-th command sent: whether its session ran and what it printed. */
  type Oracle = (nat, Sent) -> Run

  /** A snapshot of the remote server. */
  datatype Host = Host(conf: Option<Lines>, privateKeyFile: bool, publicKeyFile: bool,
                       staged: Option<Lines>, trace: seq<Sent>)

  const ConfPath := "/etc/wireguard/wg0.conf"
  const PrivateKeyPath := "/etc/wireguard/server_private.key"
  const PublicKeyPath := "/etc/wireguard/server_public.key"

  const MkdirCmd := "mkdir -p /etc/wireguard"
  const WhichWgCmd := "which wg"
  const RestartCmd := "systemctl restart wg-quick@wg0"
  const KeygenCmd := "wg genkey | tee /etc/wireguard/server_private.key | wg pubkey > /etc/wireguard/server_public.key"

  /** The shell text of a command. */
  function CommandText(c: Command): string {
    match c
    case Plain(text) => text
    case GenerateServerKeys => KeygenCmd
    case TestConfig => "test -f /etc/wireguard/wg0.conf && echo 'exists'"
    case TestPublicKey => "test -f /etc/wireguard/server_public.key && echo 'exists'"
    case TestBothKeys =>
      "test -f /etc/wireguard/server_private.key && test -f /etc/wireguard/server_public.key && echo 'success'"
    case CatPrivateKey => "cat /etc/wireguard/server_private.key"
    case CatPublicKey => "cat /etc/wireguard/server_public.key"
    case StageConfig(_) => "cat > /tmp/wg0.conf"
    case MoveStaged => "mv /tmp/wg0.conf /etc/wireguard/wg0.conf"
    case ChmodConfigAndKeys =>
      "chmod 600 /etc/wireguard/wg0.conf /etc/wireguard/server_private.key /etc/wireguard/server_public.key"
    case ChmodKeys => "chmod 600 /etc/wireguard/server_private.key /etc/wireguard/server_public.key"
  }

  /** The shell text of a registry command. */
  function EditText(e: Edit): string {
    match e
    case GrepAllowedIPs => "grep AllowedIPs /etc/wireguard/wg0.conf"
    case GrepListenPort => "grep ListenPort /etc/wireguard/wg0.conf | cut -d'=' -f2"
    case AppendPeer(entry) => "echo '" + entry + "' >> /etc/wireguard/wg0.conf"
    case SedBlock(name) =>
      "sed -i 's/^# " + name + "$/#BLOCKED " + name
      + "/g; s/^\\[Peer\\]/#[Peer]/g; s/^PublicKey/#PublicKey/g; s/^AllowedIPs/#AllowedIPs/g' /etc/wireguard/wg0.conf"
    case SedUnblock(name) =>
      "sed -i 's/^#BLOCKED " + name + "$/# " + name
      + "/g; s/^#\\[Peer\\]/[Peer]/g; s/^#PublicKey/PublicKey/g; s/^#AllowedIPs/AllowedIPs/g' /etc/wireguard/wg0.conf"
    case CountBlocked(name) => "grep -c \"#BLOCKED " + name + "\" /etc/wireguard/wg0.conf || echo \"0\""
    case RemovePeer(name) =>
      "grep -v '# " + name + "' /etc/wireguard/wg0.conf | grep -v -A2 '# " + name
      + "' > /tmp/wg0.conf.tmp && mv /tmp/wg0.conf.tmp /etc/wireguard/wg0.conf"
  }

  /** `test ... && echo word`: succeeds printing the word iff the test holds. */
  function Probe(holds: bool, word: string): Run {
    if holds then Run(true, word + "\n") else Run(false, "")
  }

  /** The `test -f ... && echo word` commands. */
  predicate IsProbe(c: Command) {
    c.TestConfig? || c.TestPublicKey? || c.TestBothKeys?
  }

  /** The word a probe echoes. */
  function ProbeWord(c: Command): string
    requires IsProbe(c)
  {
    if c.TestBothKeys? then "success" else "exists"
  }

  /** Whether the files a probe tests exist. */
  predicate ProbeHolds(h: Host, c: Command)
    requires IsProbe(c)
  {
    match c
    case TestConfig => h.conf.Some?
    case TestPublicKey => h.publicKeyFile
    case TestBothKeys => h.privateKeyFile && h.publicKeyFile
  }

  /** A command whose exit status is decided by the files and which prints nothing. */
  function Status(holds: bool): Run {
    Run(holds, "")
  }

  /** The registry's lines, empty while the file does not exist. */
  function ConfLines(conf: Option<Lines>): Lines {
    if conf.Some? then conf.value else []
  }

  /** A command with no modelled effect: only the trace changes. */
  function ExecPlain(h: Host, o: Oracle, text: string): (Run, Host) {
    var t := o(|h.trace|, Shell(Plain(text)));
    (if t.ok then t else Run(false, ""), h.(trace := h.trace + [Shell(Plain(text))]))
  }

  /**
   * One shell command on the host: it is appended to the trace; when its
   * session fails nothing else changes and executeCommand reports failure.
   */
  function Exec(h: Host, o: Oracle, c: Command): (Run, Host) {
    var t := o(|h.trace|, Shell(c));
    var h1 := h.(trace := h.trace + [Shell(c)]);
    if c.Plain? then ExecPlain(h, o, c.text)
    else if !t.ok then (Run(false, ""), h1)
    else match c
      case Plain(_) => (t, h1)
      case GenerateServerKeys => (t, h1.(privateKeyFile := true, publicKeyFile := true))
      case TestConfig => (Probe(ProbeHolds(h, c), ProbeWord(c)), h1)
      case TestPublicKey => (Probe(ProbeHolds(h, c), ProbeWord(c)), h1)
      case TestBothKeys => (Probe(ProbeHolds(h, c), ProbeWord(c)), h1)
      case CatPrivateKey => (if h.privateKeyFile then t else Run(false, ""), h1)
      case CatPublicKey => (if h.publicKeyFile then t else Run(false, ""), h1)
      case StageConfig(content) => (Run(true, ""), h1.(staged := Some(LinesOf(content))))
      case MoveStaged =>
        if h.staged.Some? then (Run(true, ""), h1.(conf := h.staged, staged := None))
        else (Run(false, ""), h1)
      case ChmodConfigAndKeys =>
        (Status(h.conf.Some? && h.privateKeyFile && h.publicKeyFile), h1)
      case ChmodKeys => (Status(h.privateKeyFile && h.publicKeyFile), h1)
  }

  /** One registry command on the host, with the grep, sed and mv semantics of the registry. */
  function ExecEdit(h: Host, o: Oracle, e: Edit): (Run, Host) {
    var t := o(|h.trace|, Registry(e));
    var h1 := h.(trace := h.trace + [Registry(e)]);
    if !t.ok then (Run(false, ""), h1)
    else match e
      case GrepAllowedIPs =>
        (if AllowedIPsFound(h.conf) then Run(true, AllowedIPsOutput(h.conf)) else Run(false, ""), h1)
      case GrepListenPort => (Run(true, ListenPortOutput(h.conf)), h1)
      case AppendPeer(entry) =>
        (Run(true, ""), h1.(conf := Some(ConfLines(h.conf) + LinesOf(entry + "\n"))))
      case SedBlock(name) =>
        if h.conf.Some? then (Run(true, ""), h1.(conf := Some(Block(h.conf.value, name))))
        else (Run(false, ""), h1)
      case SedUnblock(name) =>
        if h.conf.Some? then (Run(true, ""), h1.(conf := Some(Unblock(h.conf.value, name))))
        else (Run(false, ""), h1)
      case CountBlocked(name) => (Run(true, BlockedCountOutput(h.conf, name)), h1)
      case RemovePeer(name) =>
        var kept := RemovalOutput(ConfLines(h.conf), name);
        if h.conf.Some? && kept != [] then (Run(true, ""), h1.(conf := Some(kept)))
        else (Run(false, ""), h1)
  }
}
