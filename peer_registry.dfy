/**
 * The WireGuard server registry /etc/wireguard/wg0.conf as a sequence of
 * lines, and what each shell command of the manager does to it or reads from
 * it.  A file is held as its lines without their terminating newlines; every
 * file the manager writes ends in a newline, so the lines determine the text.
 */
module PeerRegistry {
  import opened Outcomes
  import opened GoText

  type Lines = seq<string>

  // ---------------------------------------------------------------- files as text

  /** The text of a file: every line followed by a newline. */
  function Text(lines: Lines): string
    decreases |lines|
  {
    if |lines| == 0 then "" else lines[0] + "\n" + Text(lines[1..])
  }

  /** The lines of a text, as a line-oriented tool reads them (a final unterminated line counts). */
  function LinesOf(text: string): Lines {
    var parts := Split(text, '\n');
    if parts[|parts| - 1] == "" then parts[..|parts| - 1] else parts
  }

  predicate OneLine(s: string) {
    '\n' !in s
  }

  predicate AllOneLine(lines: Lines) {
    forall k :: 0 <= k < |lines| ==> OneLine(lines[k])
  }

  lemma {:induction false} TextAsJoin(lines: Lines)
    ensures Text(lines) == JoinWith(lines + [""], '\n')
    decreases |lines|
  {
    if |lines| > 0 {
      TextAsJoin(lines[1..]);
      assert (lines + [""])[1..] == lines[1..] + [""];
    }
  }

  /** Reading a written file gives back its lines. */
  lemma LinesOfText(lines: Lines)
    requires AllOneLine(lines)
    ensures LinesOf(Text(lines)) == lines
    ensures Split(Text(lines), '\n') == lines + [""]
  {
    TextAsJoin(lines);
    var parts := lines + [""];
    assert forall k :: 0 <= k < |parts| ==> '\n' !in parts[k] by {
      forall k | 0 <= k < |parts| ensures '\n' !in parts[k] {
        if k < |lines| {
          assert OneLine(lines[k]);
        }
      }
    }
    SplitJoin(parts, '\n');
    assert parts[..|parts| - 1] == lines;
  }

  lemma {:induction false} TextAppend(a: Lines, b: Lines)
    ensures Text(a + b) == Text(a) + Text(b)
    decreases |a|
  {
    if |a| == 0 {
      assert a + b == b;
    } else {
      TextAppend(a[1..], b);
      assert (a + b)[1..] == a[1..] + b;
    }
  }

  // ---------------------------------------------------------------- grep

  /** The lines `grep pattern` selects: those containing `pattern`, in file order. */
  function Matching(lines: Lines, pattern: string): (r: Lines)
    ensures |r| <= |lines|
    ensures forall k :: 0 <= k < |r| ==> Contains(r[k], pattern)
    decreases |lines|
  {
    if |lines| == 0 then []
    else if Contains(lines[0], pattern) then [lines[0]] + Matching(lines[1..], pattern)
    else Matching(lines[1..], pattern)
  }

  /** The lines `grep -v pattern` selects: those not containing it, in file order. */
  function Without(lines: Lines, pattern: string): (r: Lines)
    ensures |r| <= |lines|
    ensures forall k :: 0 <= k < |r| ==> !Contains(r[k], pattern)
    decreases |lines|
  {
    if |lines| == 0 then []
    else if Contains(lines[0], pattern) then Without(lines[1..], pattern)
    else [lines[0]] + Without(lines[1..], pattern)
  }

  /**
   * `grep -v -A<after> pattern`: every line not containing `pattern`, and up to
   * `after` lines following each such line; `pending` is how many context lines
   * are still owed from the last selected line.
   */
  function WithoutAfter(lines: Lines, pattern: string, after: nat, pending: nat): Lines
    decreases |lines|
  {
    if |lines| == 0 then []
    else if !Contains(lines[0], pattern) then [lines[0]] + WithoutAfter(lines[1..], pattern, after, after)
    else if pending > 0 then [lines[0]] + WithoutAfter(lines[1..], pattern, after, pending - 1)
    else WithoutAfter(lines[1..], pattern, after, 0)
  }

  /** `grep -c pattern`: the number of lines containing `pattern`. */
  function CountMatching(lines: Lines, pattern: string): (r: nat)
    ensures r == |Matching(lines, pattern)|
    ensures r <= |lines|
    decreases |lines|
  {
    if |lines| == 0 then 0
    else (if Contains(lines[0], pattern) then 1 else 0) + CountMatching(lines[1..], pattern)
  }

  lemma {:induction false} WithoutAppend(a: Lines, b: Lines, pattern: string)
    ensures Without(a + b, pattern) == Without(a, pattern) + Without(b, pattern)
    decreases |a|
  {
    if |a| == 0 {
      assert a + b == b;
    } else {
      WithoutAppend(a[1..], b, pattern);
      assert (a + b)[1..] == a[1..] + b;
    }
  }

  lemma {:induction false} MatchingAppend(a: Lines, b: Lines, pattern: string)
    ensures Matching(a + b, pattern) == Matching(a, pattern) + Matching(b, pattern)
    decreases |a|
  {
    if |a| == 0 {
      assert a + b == b;
    } else {
      MatchingAppend(a[1..], b, pattern);
      assert (a + b)[1..] == a[1..] + b;
    }
  }

  /** With no line matching, `grep -v` keeps the whole file. */
  lemma {:induction false} WithoutNoMatch(lines: Lines, pattern: string)
    requires forall k :: 0 <= k < |lines| ==> !Contains(lines[k], pattern)
    ensures Without(lines, pattern) == lines
    decreases |lines|
  {
    if |lines| > 0 {
      WithoutNoMatch(lines[1..], pattern);
    }
  }

  /** With no line matching, `grep -v -A<n>` also keeps the whole input. */
  lemma {:induction false} WithoutAfterNoMatch(lines: Lines, pattern: string, after: nat, pending: nat)
    requires forall k :: 0 <= k < |lines| ==> !Contains(lines[k], pattern)
    ensures WithoutAfter(lines, pattern, after, pending) == lines
    decreases |lines|
  {
    if |lines| > 0 {
      WithoutAfterNoMatch(lines[1..], pattern, after, after);
    }
  }

  lemma {:induction false} MatchingNone(lines: Lines, pattern: string)
    requires forall k :: 0 <= k < |lines| ==> !Contains(lines[k], pattern)
    ensures Matching(lines, pattern) == []
    decreases |lines|
  {
    if |lines| > 0 {
      MatchingNone(lines[1..], pattern);
    }
  }

  lemma {:induction false} MatchingOneLine(lines: Lines, pattern: string)
    requires AllOneLine(lines)
    ensures AllOneLine(Matching(lines, pattern))
    decreases |lines|
  {
    if |lines| > 0 {
      MatchingOneLine(lines[1..], pattern);
    }
  }

  /** A line holding no `#` holds no pattern that starts with `#`. */
  lemma {:induction false} NoFirstChar(s: string, sub: string)
    requires |sub| > 0 && sub[0] !in s
    ensures !Contains(s, sub)
    decreases |s|
  {
    if |s| > 0 {
      NoFirstChar(s[1..], sub);
    }
  }

  /** An occurrence cannot start inside a prefix lacking the pattern's first character. */
  lemma {:induction false} ContainsDropHead(a: string, b: string, sub: string)
    requires |sub| > 0 && sub[0] !in a
    requires Contains(a + b, sub)
    ensures Contains(b, sub)
    decreases |a|
  {
    if |a| == 0 {
      assert a + b == b;
    } else {
      assert (a + b)[1..] == a[1..] + b;
      ContainsDropHead(a[1..], b, sub);
    }
  }

  /** An occurrence cannot reach into a suffix none of whose characters occur in the pattern. */
  lemma {:induction false} ContainsDropTail(a: string, c: string, sub: string)
    requires |sub| > 0
    requires forall j :: 0 <= j < |c| ==> c[j] !in sub
    requires Contains(a + c, sub)
    ensures Contains(a, sub)
    decreases |a|
  {
    if |a| == 0 {
      assert a + c == c;
      if |c| > 0 {
        assert c[0] !in sub;
      }
      NoFirstChar(c, sub);
    } else if HasPrefix(a + c, sub) {
      if |sub| > |a| {
        PrefixChar(a + c, sub, |sub| - 1);
        assert false;
      }
      assert (a + c)[..|sub|] == a[..|sub|];
    } else {
      assert (a + c)[1..] == a[1..] + c;
      ContainsDropTail(a[1..], c, sub);
    }
  }

  // ---------------------------------------------------------------- peers

  /** The comment line naming a client peer. */
  function NameComment(name: string): string {
    "# " + name
  }

  /** The comment line that replaces it while the client is blocked. */
  function BlockedComment(name: string): string {
    "#BLOCKED " + name
  }

  /**
   * The text addClientToServer formats before echoing it: an empty line, the
   * name comment, `[Peer]`, the key and the address, each ended by a newline.
   */
  function PeerEntry(name: string, publicKey: string, ip: string): string {
    Text(["", NameComment(name), "[Peer]", "PublicKey = " + publicKey, "AllowedIPs = " + ip])
  }

  /** The lines `echo '<entry>' >> wg0.conf` adds: the entry plus echo's own newline. */
  function PeerBlock(name: string, publicKey: string, ip: string): Lines {
    ["", NameComment(name), "[Peer]", "PublicKey = " + publicKey, "AllowedIPs = " + ip, ""]
  }

  /** Appending a peer: exactly the peer block follows the old lines. */
  lemma AppendedLines(name: string, publicKey: string, ip: string)
    requires OneLine(name) && OneLine(publicKey) && OneLine(ip)
    ensures LinesOf(PeerEntry(name, publicKey, ip) + "\n") == PeerBlock(name, publicKey, ip)
  {
    var entry := ["", NameComment(name), "[Peer]", "PublicKey = " + publicKey, "AllowedIPs = " + ip];
    TextAppend(entry, [""]);
    assert Text([""]) == "\n";
    assert entry + [""] == PeerBlock(name, publicKey, ip);
    LinesOfText(PeerBlock(name, publicKey, ip));
  }

  // ---------------------------------------------------------------- block / unblock

  /**
   * One line through the sed script of BlockClient: the exact name comment
   * becomes the blocked comment, then lines starting with `[Peer]`,
   * `PublicKey` or `AllowedIPs` are commented out, each rule applied to the
   * result of the previous one.
   */
  function BlockLine(name: string, line: string): string {
    var l1 := if line == NameComment(name) then BlockedComment(name) else line;
    var l2 := if HasPrefix(l1, "[Peer]") then "#" + l1 else l1;
    var l3 := if HasPrefix(l2, "PublicKey") then "#" + l2 else l2;
    if HasPrefix(l3, "AllowedIPs") then "#" + l3 else l3
  }

  /** One line through the sed script of UnblockClient. */
  function UnblockLine(name: string, line: string): string {
    var l1 := if line == BlockedComment(name) then NameComment(name) else line;
    var l2 := if HasPrefix(l1, "#[Peer]") then l1[1..] else l1;
    var l3 := if HasPrefix(l2, "#PublicKey") then l2[1..] else l2;
    if HasPrefix(l3, "#AllowedIPs") then l3[1..] else l3
  }

  function Block(lines: Lines, name: string): (r: Lines)
    ensures |r| == |lines|
  {
    seq(|lines|, k requires 0 <= k < |lines| => BlockLine(name, lines[k]))
  }

  function Unblock(lines: Lines, name: string): (r: Lines)
    ensures |r| == |lines|
  {
    seq(|lines|, k requires 0 <= k < |lines| => UnblockLine(name, lines[k]))
  }

  /** A line starting with one of the rewritten keywords. */
  predicate PeerKeyLine(line: string) {
    HasPrefix(line, "[Peer]") || HasPrefix(line, "PublicKey") || HasPrefix(line, "AllowedIPs")
  }

  /** A line that an earlier comment-out has marked. */
  predicate Disabled(line: string) {
    HasPrefix(line, "#[Peer]") || HasPrefix(line, "#PublicKey") || HasPrefix(line, "#AllowedIPs")
  }

  lemma PrefixChar(s: string, p: string, i: nat)
    ensures HasPrefix(s, p) && i < |p| ==> s[i] == p[i]
  {
    if HasPrefix(s, p) && i < |p| {
      assert s[..|p|][i] == s[i];
    }
  }

  lemma HashPrefix(s: string, p: string)
    ensures HasPrefix("#" + s, "#" + p) <==> HasPrefix(s, p)
  {
    if HasPrefix("#" + s, "#" + p) {
      assert ("#" + s)[..|p| + 1][1..] == s[..|p|];
    }
    if HasPrefix(s, p) {
      assert ("#" + s)[..|p| + 1] == "#" + s[..|p|];
    }
  }

  /** The first characters that tell the rewritten line kinds apart. */
  lemma LineHeads(s: string)
    ensures HasPrefix(s, "[Peer]") ==> s[0] == '['
    ensures HasPrefix(s, "PublicKey") ==> s[0] == 'P'
    ensures HasPrefix(s, "AllowedIPs") ==> s[0] == 'A'
    ensures HasPrefix(s, "#[Peer]") ==> s[0] == '#' && s[1] == '['
    ensures HasPrefix(s, "#PublicKey") ==> s[0] == '#' && s[1] == 'P'
    ensures HasPrefix(s, "#AllowedIPs") ==> s[0] == '#' && s[1] == 'A'
  {
    PrefixChar(s, "[Peer]", 0);
    PrefixChar(s, "PublicKey", 0);
    PrefixChar(s, "AllowedIPs", 0);
    PrefixChar(s, "#[Peer]", 0);
    PrefixChar(s, "#[Peer]", 1);
    PrefixChar(s, "#PublicKey", 0);
    PrefixChar(s, "#PublicKey", 1);
    PrefixChar(s, "#AllowedIPs", 0);
    PrefixChar(s, "#AllowedIPs", 1);
  }

  /** What the BlockClient script does to one line. */
  lemma BlockLineCases(name: string, line: string)
    ensures line == NameComment(name) ==> BlockLine(name, line) == BlockedComment(name)
    ensures PeerKeyLine(line) ==> BlockLine(name, line) == "#" + line
    ensures line != NameComment(name) && !PeerKeyLine(line) ==> BlockLine(name, line) == line
  {
    LineHeads(line);
    LineHeads(BlockedComment(name));
    LineHeads("#" + line);
  }

  /** What the UnblockClient script does to one line. */
  lemma UnblockLineCases(name: string, line: string)
    ensures line == BlockedComment(name) ==> UnblockLine(name, line) == NameComment(name)
    ensures Disabled(line) ==> UnblockLine(name, line) == line[1..]
    ensures line != BlockedComment(name) && !Disabled(line) ==> UnblockLine(name, line) == line
  {
    LineHeads(line);
    LineHeads(NameComment(name));
    if |line| > 1 {
      LineHeads(line[1..]);
    }
  }

  /**
   * Block rewrites every peer, not only the named one: the named comment is
   * renamed and every keyword line of every peer block gets a leading `#`;
   * all other lines are kept.
   */
  lemma BlockEffect(lines: Lines, name: string)
    ensures forall k :: 0 <= k < |lines| && lines[k] == NameComment(name) ==>
      Block(lines, name)[k] == BlockedComment(name)
    ensures forall k :: 0 <= k < |lines| && PeerKeyLine(lines[k]) ==>
      Block(lines, name)[k] == "#" + lines[k]
    ensures forall k :: 0 <= k < |lines| && lines[k] != NameComment(name) && !PeerKeyLine(lines[k]) ==>
      Block(lines, name)[k] == lines[k]
  {
    forall k | 0 <= k < |lines| {
      BlockLineCases(name, lines[k]);
    }
  }

  /** Unblock strips one `#` from commented keyword lines and restores the name comment. */
  lemma UnblockEffect(lines: Lines, name: string)
    ensures forall k :: 0 <= k < |lines| && lines[k] == BlockedComment(name) ==>
      Unblock(lines, name)[k] == NameComment(name)
    ensures forall k :: 0 <= k < |lines| && Disabled(lines[k]) ==>
      Unblock(lines, name)[k] == lines[k][1..]
    ensures forall k :: 0 <= k < |lines| && lines[k] != BlockedComment(name) && !Disabled(lines[k]) ==>
      Unblock(lines, name)[k] == lines[k]
  {
    forall k | 0 <= k < |lines| {
      UnblockLineCases(name, lines[k]);
    }
  }

  lemma BlockLineTwice(name: string, line: string)
    ensures BlockLine(name, BlockLine(name, line)) == BlockLine(name, line)
  {
    BlockLineCases(name, line);
    if line == NameComment(name) {
      BlockedCommentStable(name);
    } else if PeerKeyLine(line) {
      DisabledLineStable(name, line);
    }
  }

  lemma BlockedCommentStable(name: string)
    ensures BlockLine(name, BlockedComment(name)) == BlockedComment(name)
  {
    BlockLineCases(name, BlockedComment(name));
    LineHeads(BlockedComment(name));
    assert BlockedComment(name)[1] != NameComment(name)[1];
  }

  lemma DisabledLineStable(name: string, line: string)
    requires PeerKeyLine(line)
    ensures BlockLine(name, "#" + line) == "#" + line
  {
    BlockLineCases(name, "#" + line);
    LineHeads("#" + line);
    LineHeads(line);
    assert ("#" + line)[1] == line[0];
    assert NameComment(name)[1] == ' ';
  }

  lemma UnblockLineTwice(name: string, line: string)
    ensures UnblockLine(name, UnblockLine(name, line)) == UnblockLine(name, line)
  {
    UnblockLineCases(name, line);
    var r := UnblockLine(name, line);
    UnblockLineCases(name, r);
    LineHeads(line);
    LineHeads(r);
    if |line| > 1 {
      LineHeads(line[1..]);
    }
  }

  /** Blocking twice is blocking once. */
  lemma BlockIdempotent(lines: Lines, name: string)
    ensures Block(Block(lines, name), name) == Block(lines, name)
  {
    forall k | 0 <= k < |lines|
      ensures Block(Block(lines, name), name)[k] == Block(lines, name)[k]
    {
      BlockLineTwice(name, lines[k]);
    }
  }

  /** Unblocking twice is unblocking once. */
  lemma UnblockIdempotent(lines: Lines, name: string)
    ensures Unblock(Unblock(lines, name), name) == Unblock(lines, name)
  {
    forall k | 0 <= k < |lines|
      ensures Unblock(Unblock(lines, name), name)[k] == Unblock(lines, name)[k]
    {
      UnblockLineTwice(name, lines[k]);
    }
  }

  lemma UnblockBlockLine(name: string, line: string)
    requires !Disabled(line) && line != BlockedComment(name)
    ensures UnblockLine(name, BlockLine(name, line)) == line
  {
    BlockLineCases(name, line);
    var r := BlockLine(name, line);
    UnblockLineCases(name, r);
    LineHeads(line);
    HashPrefix(line, "[Peer]");
    HashPrefix(line, "PublicKey");
    HashPrefix(line, "AllowedIPs");
    assert ("#" + line)[1..] == line;
  }

  /**
   * Unblock undoes Block on every file in which no line is already commented
   * out and none is the blocked comment of this name.
   */
  lemma UnblockAfterBlock(lines: Lines, name: string)
    requires forall k :: 0 <= k < |lines| ==> !Disabled(lines[k]) && lines[k] != BlockedComment(name)
    ensures Unblock(Block(lines, name), name) == lines
  {
    forall k | 0 <= k < |lines|
      ensures Unblock(Block(lines, name), name)[k] == lines[k]
    {
      UnblockBlockLine(name, lines[k]);
    }
  }

  /** Without that condition the round trip is lossy: a peer commented out by hand is re-enabled. */
  lemma UnblockAfterBlockLossy()
    ensures Unblock(Block(["#PublicKey = old"], "user_1"), "user_1") == ["PublicKey = old"]
  {
    var line := "#PublicKey = old";
    BlockLineCases("user_1", line);
    LineHeads(line);
    assert line[1] != NameComment("user_1")[1];
    assert line[1] != BlockedComment("user_1")[1];
    assert HasPrefix(line, "#PublicKey");
    UnblockLineCases("user_1", line);
    assert line[1..] == "PublicKey = old";
  }

  /**
   * The sed script comments out the key lines of every peer, not only those
   * of the client named: blocking one client also disables any other.
   */
  lemma BlockDisablesOtherPeers(name: string, other: string, publicKey: string, ip: string)
    requires other != name
    ensures Block(PeerBlock(other, publicKey, ip), name)[1] == NameComment(other)
    ensures Block(PeerBlock(other, publicKey, ip), name)[3] == "#PublicKey = " + publicKey
    ensures Block(PeerBlock(other, publicKey, ip), name)[4] == "#AllowedIPs = " + ip
  {
    OtherCommentKept(name, other);
    KeyLinesDisabled(name, publicKey, ip);
  }

  lemma OtherCommentKept(name: string, other: string)
    requires other != name
    ensures BlockLine(name, NameComment(other)) == NameComment(other)
  {
    assert NameComment(other)[2..] == other && NameComment(name)[2..] == name;
    LineHeads(NameComment(other));
    BlockLineCases(name, NameComment(other));
  }

  lemma KeyLinesDisabled(name: string, publicKey: string, ip: string)
    ensures BlockLine(name, "PublicKey = " + publicKey) == "#PublicKey = " + publicKey
    ensures BlockLine(name, "AllowedIPs = " + ip) == "#AllowedIPs = " + ip
  {
    PublicKeyLineDisabled(name, publicKey);
    AllowedIPsLineDisabled(name, ip);
  }

  lemma PublicKeyLineDisabled(name: string, publicKey: string)
    ensures BlockLine(name, "PublicKey = " + publicKey) == "#PublicKey = " + publicKey
  {
    var line := "PublicKey = " + publicKey;
    assert line[..9] == "PublicKey";
    KeyLineDisabled(name, line);
    assert "#" + line == "#PublicKey = " + publicKey;
  }

  lemma AllowedIPsLineDisabled(name: string, ip: string)
    ensures BlockLine(name, "AllowedIPs = " + ip) == "#AllowedIPs = " + ip
  {
    var line := "AllowedIPs = " + ip;
    assert line[..10] == "AllowedIPs";
    KeyLineDisabled(name, line);
    assert "#" + line == "#AllowedIPs = " + ip;
  }

  lemma KeyLineDisabled(name: string, line: string)
    requires HasPrefix(line, "PublicKey") || HasPrefix(line, "AllowedIPs")
    ensures BlockLine(name, line) == "#" + line
  {
    BlockLineCases(name, line);
  }

  /** The line at k is the named client's comment or one of the three lines after it. */
  predicate InBlockOf(lines: Lines, name: string, k: nat)
    requires k < |lines|
  {
    lines[k] == NameComment(name)
    || (k >= 1 && lines[k - 1] == NameComment(name))
    || (k >= 2 && lines[k - 2] == NameComment(name))
    || (k >= 3 && lines[k - 3] == NameComment(name))
  }

  /**
   * Blocking as BlockClient evidently intends: the sed rules applied only to
   * the named client's comment and the `[Peer]`, key and address lines that
   * addClientToServer wrote after it.
   */
  function BlockOne(lines: Lines, name: string): (r: Lines)
    ensures |r| == |lines|
  {
    seq(|lines|, k requires 0 <= k < |lines| => if InBlockOf(lines, name, k) then BlockLine(name, lines[k]) else lines[k])
  }

  /** Corrected blocking leaves a file without the client's comment as it is. */
  lemma BlockOneWithoutName(lines: Lines, name: string)
    requires forall k :: 0 <= k < |lines| ==> lines[k] != NameComment(name)
    ensures BlockOne(lines, name) == lines
  {
    forall k | 0 <= k < |lines|
      ensures BlockOne(lines, name)[k] == lines[k]
    {
      assert !InBlockOf(lines, name, k);
    }
  }

  /** So another client's peer block survives blocking, unlike with the sed script. */
  lemma BlockOneLeavesOtherPeers(name: string, other: string, publicKey: string, ip: string)
    requires other != name
    ensures BlockOne(PeerBlock(other, publicKey, ip), name) == PeerBlock(other, publicKey, ip)
  {
    var block := PeerBlock(other, publicKey, ip);
    assert NameComment(other)[2..] == other && NameComment(name)[2..] == name;
    forall k | 0 <= k < |block|
      ensures block[k] != NameComment(name)
    {
      if k != 1 {
        assert k == 0 || k == 2 || k == 3 || k == 4 || k == 5;
        assert block[k] == "" || block[k][0] != '#';
      }
    }
    BlockOneWithoutName(block, name);
  }

  /** And the named client's own peer block is blocked as the sed script blocks it. */
  lemma BlockOneBlocksPeer(name: string, publicKey: string, ip: string)
    ensures BlockOne(PeerBlock(name, publicKey, ip), name) == Block(PeerBlock(name, publicKey, ip), name)
  {
    var block := PeerBlock(name, publicKey, ip);
    forall k | 0 <= k < 5
      ensures InBlockOf(block, name, k) || BlockLine(name, block[k]) == block[k]
    {
      if k == 0 {
        assert block[0] == "" && !HasPrefix("", "[Peer]") && !HasPrefix("", "PublicKey") && !HasPrefix("", "AllowedIPs");
      }
    }
    assert !InBlockOf(block, name, 5) by {
      assert block[5] == "" && block[4][0] == 'A' && block[3][0] == 'P' && block[2][0] == '[';
    }
  }

  // ---------------------------------------------------------------- remove

  /**
   * The file that `grep -v '# name' wg0.conf | grep -v -A2 '# name'` writes to
   * the temporary file.
   */
  function RemovalOutput(lines: Lines, name: string): Lines {
    WithoutAfter(Without(lines, NameComment(name)), NameComment(name), 2, 0)
  }

  /**
   * Removal deletes exactly the lines containing `# name` and keeps every
   * other line in order; the second grep stage changes nothing.
   */
  lemma RemovalIsFilter(lines: Lines, name: string)
    ensures RemovalOutput(lines, name) == Without(lines, NameComment(name))
  {
    WithoutAfterNoMatch(Without(lines, NameComment(name)), NameComment(name), 2, 0);
  }

  /** A file without the client's comment is left as it is. */
  lemma RemovalNoMatch(lines: Lines, name: string)
    requires forall k :: 0 <= k < |lines| ==> !Contains(lines[k], NameComment(name))
    ensures RemovalOutput(lines, name) == lines
  {
    RemovalIsFilter(lines, name);
    WithoutNoMatch(lines, NameComment(name));
  }

  /**
   * Removing a peer that was just appended drops only its name comment: its
   * `[Peer]`, `PublicKey` and `AllowedIPs` lines stay in the file.
   */
  lemma RemovalKeepsPeerLines(lines: Lines, name: string, publicKey: string, ip: string)
    requires '#' !in publicKey && '#' !in ip
    ensures RemovalOutput(lines + PeerBlock(name, publicKey, ip), name)
         == Without(lines, NameComment(name)) + ["", "[Peer]", "PublicKey = " + publicKey, "AllowedIPs = " + ip, ""]
  {
    var pat := NameComment(name);
    var block := PeerBlock(name, publicKey, ip);
    RemovalIsFilter(lines + block, name);
    WithoutAppend(lines, block, pat);
    WithoutPeerBlock(name, publicKey, ip);
  }

  /**
   * Removal as removeClientFromServer evidently intends: the named client's
   * comment goes together with the `[Peer]`, key and address lines that
   * addClientToServer wrote after it (pending counts the lines still to drop).
   */
  function RemoveEntry(lines: Lines, name: string, pending: nat): (r: Lines)
    ensures |r| <= |lines|
    decreases |lines|
  {
    if lines == [] then []
    else if lines[0] == NameComment(name) then RemoveEntry(lines[1..], name, 3)
    else if pending > 0 then RemoveEntry(lines[1..], name, pending - 1)
    else [lines[0]] + RemoveEntry(lines[1..], name, 0)
  }

  /** A file without the client's comment is left as it is. */
  lemma {:induction false} RemoveEntryWithoutName(lines: Lines, name: string)
    requires forall k :: 0 <= k < |lines| ==> lines[k] != NameComment(name)
    ensures RemoveEntry(lines, name, 0) == lines
    decreases |lines|
  {
    if lines != [] {
      RemoveEntryWithoutName(lines[1..], name);
    }
  }

  /** Lines before the client's comment are kept and the rest is handled on its own. */
  lemma {:induction false} RemoveEntryAppend(lines: Lines, rest: Lines, name: string)
    requires forall k :: 0 <= k < |lines| ==> lines[k] != NameComment(name)
    ensures RemoveEntry(lines + rest, name, 0) == lines + RemoveEntry(rest, name, 0)
    decreases |lines|
  {
    if lines != [] {
      assert (lines + rest)[0] == lines[0] != NameComment(name);
      assert (lines + rest)[1..] == lines[1..] + rest;
      RemoveEntryAppend(lines[1..], rest, name);
      assert lines == [lines[0]] + lines[1..];
    } else {
      assert lines + rest == rest;
    }
  }

  /** The appended block of the client loses its comment, `[Peer]`, key and address lines. */
  lemma RemoveEntryOfBlock(name: string, publicKey: string, ip: string)
    ensures RemoveEntry(PeerBlock(name, publicKey, ip), name, 0) == ["", ""]
  {
    var b := PeerBlock(name, publicKey, ip);
    var c := NameComment(name);
    assert c[0] == '#' && |c| >= 2;
    assert b[0] == "" != c;
    assert b[1..][0] == c;
    assert b[2..][0][0] == '[' && b[2..] == b[1..][1..];
    assert b[3..][0][0] == 'P' && b[3..] == b[2..][1..];
    assert b[4..][0][0] == 'A' && b[4..] == b[3..][1..];
    assert b[5..] == b[4..][1..] == [""];
    assert RemoveEntry(b[5..], name, 0) == [""];
    assert RemoveEntry(b[4..], name, 1) == [""];
    assert RemoveEntry(b[3..], name, 2) == [""];
    assert RemoveEntry(b[2..], name, 3) == [""];
    assert RemoveEntry(b[1..], name, 0) == [""];
    assert b == [b[0]] + b[1..];
  }

  /**
   * Removing a client that was appended to a file holding no other comment
   * of that name gives back the file as it was, but for the two empty lines
   * around the block.
   */
  lemma RemoveEntryUndoesAppend(lines: Lines, name: string, publicKey: string, ip: string)
    requires forall k :: 0 <= k < |lines| ==> lines[k] != NameComment(name)
    ensures RemoveEntry(lines + PeerBlock(name, publicKey, ip), name, 0) == lines + ["", ""]
  {
    RemoveEntryAppend(lines, PeerBlock(name, publicKey, ip), name);
    RemoveEntryOfBlock(name, publicKey, ip);
  }

  lemma WithoutPeerBlock(name: string, publicKey: string, ip: string)
    requires '#' !in publicKey && '#' !in ip
    ensures Without(PeerBlock(name, publicKey, ip), NameComment(name))
         == ["", "[Peer]", "PublicKey = " + publicKey, "AllowedIPs = " + ip, ""]
  {
    var pat := NameComment(name);
    ContainsItself(pat, "");
    assert pat + "" == pat;
    assert pat[0] == '#';
    NoFirstChar("", pat);
    NoFirstChar("[Peer]", pat);
    NoFirstChar("PublicKey = " + publicKey, pat);
    NoFirstChar("AllowedIPs = " + ip, pat);
    var body := ["[Peer]", "PublicKey = " + publicKey, "AllowedIPs = " + ip, ""];
    PeerBlockShape(name, publicKey, ip);
    WithoutNoMatch(body, pat);
    WithoutDropSecond("", pat, body, pat);
    PeerBodyShape(publicKey, ip);
  }

  lemma PeerBlockShape(name: string, publicKey: string, ip: string)
    ensures PeerBlock(name, publicKey, ip)
         == [""] + ([NameComment(name)] + ["[Peer]", "PublicKey = " + publicKey, "AllowedIPs = " + ip, ""])
  {
  }

  lemma PeerBodyShape(publicKey: string, ip: string)
    ensures [""] + ["[Peer]", "PublicKey = " + publicKey, "AllowedIPs = " + ip, ""]
         == ["", "[Peer]", "PublicKey = " + publicKey, "AllowedIPs = " + ip, ""]
  {
  }

  lemma WithoutDropSecond(a0: string, a1: string, rest: Lines, pat: string)
    requires !Contains(a0, pat) && Contains(a1, pat) && Without(rest, pat) == rest
    ensures Without([a0] + ([a1] + rest), pat) == [a0] + rest
  {
    WithoutCons(a1, rest, pat);
    WithoutCons(a0, [a1] + rest, pat);
  }

  /** When exactly one line holds the pattern, grep -v drops that line alone. */
  lemma WithoutOnly(lines: Lines, j: nat, pattern: string)
    requires j < |lines| && Contains(lines[j], pattern)
    requires forall k :: 0 <= k < |lines| && k != j ==> !Contains(lines[k], pattern)
    ensures Without(lines, pattern) == lines[..j] + lines[j + 1..]
  {
    var before, after := lines[..j], lines[j + 1..];
    assert lines == before + ([lines[j]] + after);
    WithoutNoMatch(before, pattern);
    WithoutNoMatch(after, pattern);
    WithoutAppend(before, [lines[j]] + after, pattern);
    WithoutCons(lines[j], after, pattern);
  }

  /** The blocked comment does not contain `# name`, so removing a blocked client keeps it. */
  lemma BlockedCommentSurvivesRemoval(name: string)
    requires '#' !in name
    ensures !Contains(BlockedComment(name), NameComment(name))
  {
    var s := BlockedComment(name);
    var pat := NameComment(name);
    PrefixChar(s, pat, 1);
    assert s[1..] == "BLOCKED " + name;
    NoFirstChar("BLOCKED " + name, pat);
  }

  // ---------------------------------------------------------------- blocked check

  /** stdout of `grep -c "#BLOCKED name" wg0.conf || echo "0"`. */
  function BlockedCountOutput(conf: Option<Lines>, name: string): string {
    match conf
    case None => "0\n"
    case Some(lines) =>
      var n := CountMatching(lines, BlockedComment(name));
      if n == 0 then "0\n0\n" else Itoa(n) + "\n"
  }

  /** IsClientBlocked's reading of that output: None is its parse error. */
  function BlockedAnswer(output: string): Option<bool> {
    match Atoi(TrimSpace(output))
    case None => None
    case Some(n) => Some(n > 0)
  }

  /**
   * The blocked check answers true exactly when some line contains the
   * blocked comment, false when the file is missing, and fails to parse
   * `0\n0` when the file exists but nothing matches.
   */
  lemma BlockedCheck(conf: Option<Lines>, name: string)
    requires conf.Some? ==> |conf.value| <= MaxInt64
    ensures conf.None? ==> BlockedAnswer(BlockedCountOutput(conf, name)) == Some(false)
    ensures conf.Some? && CountMatching(conf.value, BlockedComment(name)) > 0 ==>
      BlockedAnswer(BlockedCountOutput(conf, name)) == Some(true)
    ensures conf.Some? && CountMatching(conf.value, BlockedComment(name)) == 0 ==>
      BlockedAnswer(BlockedCountOutput(conf, name)) == None
  {
    if conf.None? {
      ParseEchoedZero();
    } else {
      var n := CountMatching(conf.value, BlockedComment(name));
      if n == 0 {
        ParseZeroThenEcho();
      } else {
        ParseCount(n);
      }
    }
  }

  /** `echo "0"` alone: the file was missing. */
  lemma ParseEchoedZero()
    ensures BlockedAnswer("0\n") == Some(false)
  {
    TrimSpaceFramed("", "0", "\n");
    assert "" + "0" + "\n" == "0\n";
    AtoiItoa(0);
    assert Itoa(0) == "0";
  }

  /** grep's own `0` followed by the echoed one does not parse. */
  lemma ParseZeroThenEcho()
    ensures BlockedAnswer("0\n0\n") == None
  {
    TrimSpaceFramed("", "0\n0", "\n");
    assert "" + "0\n0" + "\n" == "0\n0\n";
    assert !IsDigit("0\n0"[1]);
    assert !AllDigits("0\n0");
  }

  lemma ParseCount(n: nat)
    requires 0 < n <= MaxInt64
    ensures BlockedAnswer(Itoa(n) + "\n") == Some(true)
  {
    NatToStringNoSpace(n);
    TrimSpaceFramed("", Itoa(n), "\n");
    assert "" + Itoa(n) + "\n" == Itoa(n) + "\n";
    AtoiItoa(n);
  }

  lemma {:induction false} CountMatchingPositive(lines: Lines, pattern: string, k: nat)
    requires k < |lines| && Contains(lines[k], pattern)
    ensures CountMatching(lines, pattern) > 0
    decreases k
  {
    if k > 0 && !Contains(lines[0], pattern) {
      CountMatchingPositive(lines[1..], pattern, k - 1);
    }
  }

  /** After blocking a client whose peer is registered, the check reports it blocked. */
  lemma BlockedAfterBlock(lines: Lines, name: string, k: nat)
    requires k < |lines| && lines[k] == NameComment(name)
    requires |lines| <= MaxInt64
    ensures BlockedAnswer(BlockedCountOutput(Some(Block(lines, name)), name)) == Some(true)
  {
    var blocked := Block(lines, name);
    BlockLineCases(name, lines[k]);
    assert blocked[k] == BlockedComment(name);
    ContainsItself(BlockedComment(name), "");
    assert BlockedComment(name) + "" == BlockedComment(name);
    CountMatchingPositive(blocked, BlockedComment(name), k);
    BlockedCheck(Some(blocked), name);
  }

  /** Substring matching: blocking user_10 makes user_1 look blocked too. */
  lemma BlockedPrefixName()
    ensures BlockedAnswer(BlockedCountOutput(Some(["#BLOCKED user_10"]), "user_1")) == Some(true)
  {
    var line := "#BLOCKED user_10";
    ContainsItself(BlockedComment("user_1"), "0");
    assert BlockedComment("user_1") + "0" == line;
    CountMatchingPositive([line], BlockedComment("user_1"), 0);
    BlockedCheck(Some([line]), "user_1");
  }

  /** A client that exists but is not blocked is reported as an error, not as false. */
  lemma NotBlockedIsError(lines: Lines, name: string)
    requires forall k :: 0 <= k < |lines| ==> !Contains(lines[k], BlockedComment(name))
    requires |lines| <= MaxInt64
    ensures BlockedAnswer(BlockedCountOutput(Some(lines), name)) == None
  {
    MatchingNone(lines, BlockedComment(name));
    BlockedCheck(Some(lines), name);
  }

  // ---------------------------------------------------------------- next client address

  /** The fourth octet getNextClientIP reads from one grep line, if any. */
  function OctetOf(line: string): Option<int> {
    var parts := Split(line, '=');
    if |parts| < 2 then None
    else
      var ipOnly := Split(TrimSpace(parts[1]), '/')[0];
      var ipParts := Split(ipOnly, '.');
      if |ipParts| < 4 then None else Atoi(ipParts[3])
  }

  /** One loop step: a larger parsed octet replaces the running maximum. */
  function MaxStep(m: int, line: string): int {
    if line == "" then m
    else match OctetOf(line)
      case Some(v) => if v > m then v else m
      case None => m
  }

  /** The running maximum over the lines, starting from the server's own 1. */
  function MaxOctet(lines: Lines): (r: int)
    ensures r >= 1
    decreases |lines|
  {
    if |lines| == 0 then 1 else MaxStep(MaxOctet(lines[..|lines| - 1]), lines[|lines| - 1])
  }

  /** An octet getNextClientIP can read from a line. */
  predicate ReadsOctet(line: string, v: int) {
    line != "" && OctetOf(line) == Some(v)
  }

  /** The maximum bounds every octet read from the lines. */
  lemma {:induction false} MaxOctetBounds(lines: Lines, k: nat, v: int)
    requires k < |lines| && ReadsOctet(lines[k], v)
    ensures v <= MaxOctet(lines)
    decreases |lines|
  {
    var init := lines[..|lines| - 1];
    if k < |lines| - 1 {
      assert init[k] == lines[k];
      MaxOctetBounds(init, k, v);
    }
  }

  /** The maximum is the server's 1 or an octet read from some line. */
  lemma {:induction false} MaxOctetAttained(lines: Lines) returns (k: int)
    ensures (MaxOctet(lines) == 1 && k == -1) || (0 <= k < |lines| && ReadsOctet(lines[k], MaxOctet(lines)))
    decreases |lines|
  {
    if |lines| == 0 {
      return -1;
    }
    var init := lines[..|lines| - 1];
    var last := lines[|lines| - 1];
    var j := MaxOctetAttained(init);
    if MaxOctet(lines) == MaxOctet(init) {
      if j == -1 {
        k := -1;
      } else {
        assert lines[j] == init[j];
        k := j;
      }
    } else {
      k := |lines| - 1;
    }
  }

  /** One more line of the loop: the maximum of the longer prefix is one MaxStep further. */
  lemma MaxOctetPrefix(lines: Lines, i: nat)
    requires i < |lines|
    ensures MaxOctet(lines[..i + 1]) == MaxStep(MaxOctet(lines[..i]), lines[i])
  {
    assert lines[..i + 1][..i] == lines[..i];
  }

  /** A host address of the tunnel subnet, written with its /32 suffix. */
  function HostAddress(octet: string): string {
    "10.0.0." + octet + "/32"
  }

  /** `fmt.Sprintf("10.0.0.%d/32", m+1)` with Go's 64-bit wrap-around. */
  function ClientAddress(m: int): string {
    HostAddress(Itoa(Wrap64(m + 1)))
  }

  /** What getNextClientIP returns for the outcome and stdout of `grep AllowedIPs`. */
  function NextAddress(grepOk: bool, output: string): string {
    if grepOk then ClientAddress(MaxOctet(Split(output, '\n'))) else "10.0.0.2/32"
  }

  /** The loop of getNextClientIP over the grep output. */
  method NextClientIP(grepOk: bool, output: string) returns (ip: string)
    ensures ip == NextAddress(grepOk, output)
  {
    if !grepOk {
      return "10.0.0.2/32";
    }
    var lines := Split(output, '\n');
    var maxIP := 1;
    var i := 0;
    while i < |lines|
      invariant 0 <= i <= |lines|
      invariant maxIP == MaxOctet(lines[..i])
    {
      MaxOctetPrefix(lines, i);
      var line := lines[i];
      if line != "" {
        var parts := Split(line, '=');
        if |parts| >= 2 {
          var ipWithCidr := TrimSpace(parts[1]);
          var ipOnly := Split(ipWithCidr, '/')[0];
          var ipParts := Split(ipOnly, '.');
          if |ipParts| >= 4 {
            var lastPart := Atoi(ipParts[3]);
            if lastPart.Some? && lastPart.value > maxIP {
              maxIP := lastPart.value;
            }
          }
        }
      }
      i := i + 1;
    }
    assert lines[..|lines|] == lines;
    ip := ClientAddress(maxIP);
  }

  /** stdout of `grep AllowedIPs wg0.conf`. */
  function AllowedIPsOutput(conf: Option<Lines>): string {
    if conf.Some? then Text(Matching(conf.value, "AllowedIPs")) else ""
  }

  /** grep succeeds only when the file exists and some line matches. */
  predicate AllowedIPsFound(conf: Option<Lines>) {
    conf.Some? && Matching(conf.value, "AllowedIPs") != []
  }

  lemma {:induction false} MaxOctetAppend(lines: Lines, line: string)
    ensures MaxOctet(lines + [line]) == MaxStep(MaxOctet(lines), line)
  {
    assert (lines + [line])[..|lines|] == lines;
  }

  /** The allocated address' own line reads back as its octet. */
  lemma OctetOfAllowed(n: nat)
    requires n <= MaxInt64
    ensures OctetOf("AllowedIPs = " + HostAddress(Itoa(n))) == Some(n)
  {
    var d := Itoa(n);
    NatToStringNoSpace(n);
    var v := HostAddress(d);
    assert '=' !in v;
    assert v[0] == '1' && v[|v| - 1] == '2';
    assert "AllowedIPs = " + v == "AllowedIPs" + " = " + v;
    OctetOfAssignment("AllowedIPs", v);
    SplitCidr("10.0.0." + d);
    SplitDotted(d);
    AtoiItoa(n);
  }

  /** OctetOf on `key = value` reads the fourth dotted part of value up to its '/'. */
  lemma OctetOfAssignment(key: string, value: string)
    requires '=' !in key && '=' !in value
    requires value != [] && !IsSpace(value[0]) && !IsSpace(value[|value| - 1])
    ensures var ipParts := Split(Split(value, '/')[0], '.');
      OctetOf(key + " = " + value) == if |ipParts| < 4 then None else Atoi(ipParts[3])
  {
    AssignedValue(key, value);
  }

  /** The value getNextClientIP reads from a `key = value` line, spaces trimmed. */
  lemma AssignedValue(key: string, value: string)
    requires '=' !in key && '=' !in value
    requires value != [] && !IsSpace(value[0]) && !IsSpace(value[|value| - 1])
    ensures var parts := Split(key + " = " + value, '=');
      |parts| >= 2 && TrimSpace(parts[1]) == value
  {
    SplitAssignment(key, value);
    assert IsSpace(' ');
    TrimSpaceFramed(" ", value, "");
    assert " " + value + "" == " " + value;
  }

  /** `key = value` splits at its one `=`. */
  lemma SplitAssignment(key: string, value: string)
    requires '=' !in key && '=' !in value
    ensures Split(key + " = " + value, '=') == [key + " ", " " + value]
  {
    assert key + " = " + value == (key + " ") + ['='] + (" " + value);
    SplitAtFirst(key + " ", '=', " " + value);
    SplitWithoutSep(" " + value, '=');
  }

  lemma SplitCidr(host: string)
    requires '/' !in host
    ensures Split(host + "/32", '/')[0] == host
  {
    assert host + "/32" == host + ['/'] + "32";
    SplitAtFirst(host, '/', "32");
  }

  lemma SplitDotted(d: string)
    requires '.' !in d
    ensures Split("10.0.0." + d, '.') == ["10", "0", "0", d]
  {
    var t2 := "0" + ['.'] + d;
    var t1 := "0" + ['.'] + t2;
    assert "10.0.0." + d == "10" + ['.'] + t1;
    SplitAtFirst("10", '.', t1);
    SplitAtFirst("0", '.', t2);
    SplitAtFirst("0", '.', d);
    SplitWithoutSep(d, '.');
  }

  lemma MatchingCons(line: string, rest: Lines, pattern: string)
    ensures Matching([line] + rest, pattern)
         == (if Contains(line, pattern) then [line] else []) + Matching(rest, pattern)
  {
    assert ([line] + rest)[1..] == rest;
  }

  lemma MatchingUnfold(lines: Lines, i: nat, pattern: string)
    requires i < |lines|
    ensures Matching(lines[i..], pattern)
         == (if Contains(lines[i], pattern) then [lines[i]] else []) + Matching(lines[i + 1..], pattern)
  {
    assert lines[i..] == [lines[i]] + lines[i + 1..];
    MatchingCons(lines[i], lines[i + 1..], pattern);
  }

  lemma WithoutUnfold(lines: Lines, i: nat, pattern: string)
    requires i < |lines|
    ensures Without(lines[i..], pattern)
         == (if Contains(lines[i], pattern) then [] else [lines[i]]) + Without(lines[i + 1..], pattern)
  {
    assert lines[i..] == [lines[i]] + lines[i + 1..];
    WithoutCons(lines[i], lines[i + 1..], pattern);
  }

  lemma WithoutCons(line: string, rest: Lines, pattern: string)
    ensures Without([line] + rest, pattern)
         == (if Contains(line, pattern) then [] else [line]) + Without(rest, pattern)
  {
    assert ([line] + rest)[1..] == rest;
  }

  lemma MatchingBlock(lines: Lines, name: string, publicKey: string, ip: string)
    requires !Contains(NameComment(name), "AllowedIPs")
    requires !Contains("PublicKey = " + publicKey, "AllowedIPs")
    ensures Matching(lines + PeerBlock(name, publicKey, ip), "AllowedIPs")
         == Matching(lines, "AllowedIPs") + ["AllowedIPs = " + ip]
  {
    MatchingAppend(lines, PeerBlock(name, publicKey, ip), "AllowedIPs");
    MatchingPeerBlock(name, publicKey, ip);
  }

  /** Of a peer block, only its AllowedIPs line matches "AllowedIPs". */
  lemma MatchingPeerBlock(name: string, publicKey: string, ip: string)
    requires !Contains(NameComment(name), "AllowedIPs")
    requires !Contains("PublicKey = " + publicKey, "AllowedIPs")
    ensures Matching(PeerBlock(name, publicKey, ip), "AllowedIPs") == ["AllowedIPs = " + ip]
  {
    var pat := "AllowedIPs";
    NotContainsShort("", pat);
    NotContainsShort("[Peer]", pat);
    ContainsItself(pat, " = " + ip);
    OnlyFifth(PeerBlock(name, publicKey, ip), "", NameComment(name), "[Peer]", "PublicKey = " + publicKey,
              "AllowedIPs = " + ip, "", pat);
  }

  lemma OnlyFifth(ls: Lines, a0: string, a1: string, a2: string, a3: string, a4: string, a5: string,
                  pat: string)
    requires ls == [a0, a1, a2, a3, a4, a5]
    requires !Contains(a0, pat) && !Contains(a1, pat) && !Contains(a2, pat)
    requires !Contains(a3, pat) && Contains(a4, pat) && !Contains(a5, pat)
    ensures Matching(ls, pat) == [a4]
  {
    assert forall k :: 0 <= k < |ls| && k != 4 ==> !Contains(ls[k], pat);
    MatchingOnly(ls, 4, pat);
  }

  /**
   * After the address just allocated is appended with its peer, the next
   * allocation reads it back and returns a strictly larger octet.
   */
  lemma NextAddressIncreases(conf: Lines, name: string, publicKey: string, m: int)
    requires AllOneLine(conf)
    requires OneLine(name) && OneLine(publicKey)
    requires !Contains(NameComment(name), "AllowedIPs")
    requires !Contains("PublicKey = " + publicKey, "AllowedIPs")
    requires m == MaxOctet(Matching(conf, "AllowedIPs")) < MaxInt64
    ensures NextAddress(AllowedIPsFound(Some(conf)), AllowedIPsOutput(Some(conf))) == ClientAddress(m)
    ensures var conf' := conf + PeerBlock(name, publicKey, ClientAddress(m));
      AllowedIPsFound(Some(conf'))
      && MaxOctet(Matching(conf', "AllowedIPs")) == m + 1
      && NextAddress(AllowedIPsFound(Some(conf')), AllowedIPsOutput(Some(conf'))) == ClientAddress(m + 1)
  {
    NextAddressOfConf(conf);
    NextAfterAllocation(conf, name, publicKey, m);
  }

  lemma NextAfterAllocation(conf: Lines, name: string, publicKey: string, m: int)
    requires AllOneLine(conf)
    requires OneLine(name) && OneLine(publicKey)
    requires !Contains(NameComment(name), "AllowedIPs")
    requires !Contains("PublicKey = " + publicKey, "AllowedIPs")
    requires m == MaxOctet(Matching(conf, "AllowedIPs")) < MaxInt64
    ensures var conf' := conf + PeerBlock(name, publicKey, ClientAddress(m));
      AllowedIPsFound(Some(conf'))
      && MaxOctet(Matching(conf', "AllowedIPs")) == m + 1
      && NextAddress(AllowedIPsFound(Some(conf')), AllowedIPsOutput(Some(conf'))) == ClientAddress(m + 1)
  {
    AllocatedAddressRead(conf, name, publicKey, m);
    NextAddressOfConf(conf + PeerBlock(name, publicKey, ClientAddress(m)));
  }

  /** The appended address line is the one new grep match and raises the maximum by one. */
  lemma AllocatedAddressRead(conf: Lines, name: string, publicKey: string, m: int)
    requires AllOneLine(conf)
    requires OneLine(name) && OneLine(publicKey)
    requires !Contains(NameComment(name), "AllowedIPs")
    requires !Contains("PublicKey = " + publicKey, "AllowedIPs")
    requires m == MaxOctet(Matching(conf, "AllowedIPs")) < MaxInt64
    ensures var conf' := conf + PeerBlock(name, publicKey, ClientAddress(m));
      AllOneLine(conf')
      && Matching(conf', "AllowedIPs") == Matching(conf, "AllowedIPs") + ["AllowedIPs = " + ClientAddress(m)]
      && MaxOctet(Matching(conf', "AllowedIPs")) == m + 1
  {
    MatchingBlock(conf, name, publicKey, ClientAddress(m));
    MaxAfterAllocation(Matching(conf, "AllowedIPs"), m);
    AllocationOneLine(conf, name, publicKey, m);
  }

  lemma MaxAfterAllocation(ms: Lines, m: int)
    requires m == MaxOctet(ms) < MaxInt64
    ensures MaxOctet(ms + ["AllowedIPs = " + ClientAddress(m)]) == m + 1
  {
    var line := "AllowedIPs = " + ClientAddress(m);
    assert Wrap64(m + 1) == m + 1;
    assert line == "AllowedIPs = " + HostAddress(Itoa(m + 1));
    OctetOfAllowed(m + 1);
    assert line != "";
    assert MaxStep(m, line) == m + 1;
    MaxOctetAppend(ms, line);
  }

  lemma AllocationOneLine(conf: Lines, name: string, publicKey: string, m: int)
    requires AllOneLine(conf)
    requires OneLine(name) && OneLine(publicKey)
    requires 1 <= m < MaxInt64
    ensures AllOneLine(conf + PeerBlock(name, publicKey, ClientAddress(m)))
  {
    var ip := ClientAddress(m);
    var d := Itoa(m + 1);
    assert ip == HostAddress(d);
    NatToStringNoSpace(m + 1);
    assert OneLine(d);
    assert OneLine(ip);
    PeerBlockOneLine(name, publicKey, ip);
    var conf' := conf + PeerBlock(name, publicKey, ip);
    assert PeerBlock(name, publicKey, ip) == conf'[|conf|..];
  }

  lemma PeerBlockOneLine(name: string, publicKey: string, ip: string)
    requires OneLine(name) && OneLine(publicKey) && OneLine(ip)
    ensures AllOneLine(PeerBlock(name, publicKey, ip))
  {
  }

  /**
   * getNextClientIP on the registry: two above the server's address when no
   * line mentions AllowedIPs, otherwise one past the largest octet read.
   */
  lemma NextAddressOfConf(conf: Lines)
    requires AllOneLine(conf)
    ensures NextAddress(AllowedIPsFound(Some(conf)), AllowedIPsOutput(Some(conf)))
         == ClientAddress(MaxOctet(Matching(conf, "AllowedIPs")))
  {
    var ms := Matching(conf, "AllowedIPs");
    if ms == [] {
      assert ClientAddress(1) == HostAddress(Itoa(2));
      assert Itoa(2) == "2";
    } else {
      MatchingOneLine(conf, "AllowedIPs");
      LinesOfText(ms);
      MaxOctetAppend(ms, "");
    }
  }

  /**
   * A registry whose only address line holds octet n allocates n + 1, for
   * every n: there is no cap at 254.
   */
  lemma NextAfterSingle(n: int)
    requires 1 <= n < MaxInt64
    ensures NextAddress(true, AllowedIPsOutput(Some(["AllowedIPs = " + HostAddress(Itoa(n))]))) == ClientAddress(n)
  {
    var d := Itoa(n);
    var line := "AllowedIPs = " + HostAddress(d);
    assert Matching([line], "AllowedIPs") == [line] by {
      ContainsItself("AllowedIPs", " = " + HostAddress(d));
      MatchingCons(line, [], "AllowedIPs");
      assert [line] + [] == [line];
    }
    assert MaxOctet([line]) == n by {
      OctetOfAllowed(n);
      MaxOctetAppend([], line);
      assert [] + [line] == [line];
    }
    assert AllOneLine([line]) by {
      NatToStringNoSpace(n);
      assert OneLine(line);
    }
    NextAddressOfConf([line]);
  }

  // ---------------------------------------------------------------- configuration templates

  /**
   * The server configuration setupServerConfig writes: the interface with its
   * private key, address 10.0.0.1/24, port 51820 and the NAT rules on the
   * outbound interface, each line ended by a newline.
   */
  function ServerConfigText(privateKey: string, netInterface: string): string {
    Text(ServerConfigLines(privateKey, netInterface))
  }

  /** The head of a NAT rule line, up to the outgoing interface. */
  function RuleHead(action: string, flag: string): string {
    action + " = iptables " + flag + " FORWARD -i wg0 -j ACCEPT;" + " iptables -t nat " + flag + " POSTROUTING -o "
  }

  const RuleTail := " -j MASQUERADE"

  function PostUpLine(netInterface: string): string {
    RuleHead("PostUp", "-A") + netInterface + RuleTail
  }

  function PostDownLine(netInterface: string): string {
    RuleHead("PostDown", "-D") + netInterface + RuleTail
  }

  /** The server's own tunnel address. */
  const ServerAddressLine := "Address = 10.0.0.1/24"

  function ServerConfigLines(privateKey: string, netInterface: string): Lines {
    ["[Interface]", "PrivateKey = " + privateKey, ServerAddressLine, "ListenPort = 51820",
     PostUpLine(netInterface), PostDownLine(netInterface)]
  }

  lemma ServerConfigAsLines(privateKey: string, netInterface: string)
    requires OneLine(privateKey) && OneLine(netInterface)
    ensures LinesOf(ServerConfigText(privateKey, netInterface)) == ServerConfigLines(privateKey, netInterface)
  {
    ServerConfigOneLine(privateKey, netInterface);
    LinesOfText(ServerConfigLines(privateKey, netInterface));
  }

  lemma ServerConfigOneLine(privateKey: string, netInterface: string)
    requires OneLine(privateKey) && OneLine(netInterface)
    ensures AllOneLine(ServerConfigLines(privateKey, netInterface))
  {
    RuleOneLine("PostUp", "-A", netInterface);
    RuleOneLine("PostDown", "-D", netInterface);
    ConfigWordsOneLine();
    OneLineJoin("PrivateKey = ", privateKey);
    SixOneLine("[Interface]", "PrivateKey = " + privateKey, ServerAddressLine, "ListenPort = 51820",
               PostUpLine(netInterface), PostDownLine(netInterface));
  }

  lemma ConfigWordsOneLine()
    ensures OneLine("[Interface]") && OneLine(ServerAddressLine) && OneLine("ListenPort = 51820")
    ensures OneLine("PrivateKey = ")
  {
  }

  lemma SixOneLine(a: string, b: string, c: string, d: string, e: string, f: string)
    requires OneLine(a) && OneLine(b) && OneLine(c) && OneLine(d) && OneLine(e) && OneLine(f)
    ensures AllOneLine([a, b, c, d, e, f])
  {
  }

  lemma OneLineJoin(a: string, b: string)
    requires OneLine(a) && OneLine(b)
    ensures OneLine(a + b)
  {
    assert forall i :: 0 <= i < |a + b| ==> (a + b)[i] == if i < |a| then a[i] else b[i - |a|];
  }

  lemma RuleOneLine(action: string, flag: string, netInterface: string)
    requires OneLine(action) && OneLine(flag) && OneLine(netInterface)
    ensures OneLine(RuleHead(action, flag) + netInterface + RuleTail)
  {
    var s1 := action + " = iptables ";
    OneLineJoin(action, " = iptables ");
    var s2 := s1 + flag;
    OneLineJoin(s1, flag);
    var s3 := s2 + " FORWARD -i wg0 -j ACCEPT;";
    OneLineJoin(s2, " FORWARD -i wg0 -j ACCEPT;");
    var s4 := s3 + " iptables -t nat ";
    OneLineJoin(s3, " iptables -t nat ");
    var s5 := s4 + flag;
    OneLineJoin(s4, flag);
    var s6 := s5 + " POSTROUTING -o ";
    OneLineJoin(s5, " POSTROUTING -o ");
    assert RuleHead(action, flag) == s6;
    OneLineJoin(s6, netInterface);
    OneLineJoin(s6 + netInterface, RuleTail);
  }

  /** `cut -d'=' -f2`: the second field, or the whole line when it has no `=`. */
  function CutSecondField(line: string): string {
    var fields := Split(line, '=');
    if |fields| >= 2 then fields[1] else line
  }

  function CutEach(lines: Lines): (r: Lines)
    ensures |r| == |lines|
    decreases |lines|
  {
    if |lines| == 0 then [] else [CutSecondField(lines[0])] + CutEach(lines[1..])
  }

  /** stdout of `grep ListenPort wg0.conf | cut -d'=' -f2`; the pipeline reports cut's status. */
  function ListenPortOutput(conf: Option<Lines>): string {
    if conf.Some? then Text(CutEach(Matching(conf.value, "ListenPort"))) else ""
  }

  /** getServerInfo's port: the trimmed output, or 51820 on error or empty output. */
  function ServerPort(ok: bool, output: string): string {
    if !ok || TrimSpace(output) == "" then "51820" else TrimSpace(output)
  }

  /** A registry without a ListenPort line makes the port fall back to 51820. */
  lemma PortFallback(conf: Option<Lines>)
    requires conf.Some? ==> forall k :: 0 <= k < |conf.value| ==> !Contains(conf.value[k], "ListenPort")
    ensures ServerPort(true, ListenPortOutput(conf)) == "51820"
  {
    if conf.Some? {
      MatchingNone(conf.value, "ListenPort");
    }
  }

  /** A configuration written by setupServerConfig reports the port it declares. */
  lemma PortOfServerConfig(privateKey: string, netInterface: string)
    requires OneLine(privateKey) && OneLine(netInterface)
    requires !Contains(privateKey, "ListenPort") && !Contains(netInterface, "ListenPort")
    ensures ServerPort(true, ListenPortOutput(Some(LinesOf(ServerConfigText(privateKey, netInterface))))) == "51820"
  {
    ServerConfigAsLines(privateKey, netInterface);
    ServerConfigPortLine(privateKey, netInterface);
    PortOfPortLine();
  }

  /** The only line of a fresh server configuration that mentions ListenPort is its own. */
  lemma ServerConfigPortLine(privateKey: string, netInterface: string)
    requires !Contains(privateKey, "ListenPort") && !Contains(netInterface, "ListenPort")
    ensures Matching(ServerConfigLines(privateKey, netInterface), "ListenPort") == ["ListenPort = 51820"]
  {
    NoPortInInterfaceLine();
    NoPortInKeyLine(privateKey);
    NoPortInAddressLine();
    PortInPortLine();
    NoPortInRules(netInterface);
    OnlyFourth(ServerConfigLines(privateKey, netInterface), "[Interface]", "PrivateKey = " + privateKey,
               ServerAddressLine, "ListenPort = 51820", PostUpLine(netInterface), PostDownLine(netInterface),
               "ListenPort");
  }

  lemma NoPortInInterfaceLine()
    ensures !Contains("[Interface]", "ListenPort")
  {
    NoFirstChar("[Interface]", "ListenPort");
  }

  lemma NoPortInAddressLine()
    ensures !Contains(ServerAddressLine, "ListenPort")
  {
    NoFirstChar(ServerAddressLine, "ListenPort");
  }

  lemma PortInPortLine()
    ensures Contains("ListenPort = 51820", "ListenPort")
  {
    assert HasPrefix("ListenPort = 51820", "ListenPort");
  }

  lemma NoPortInKeyLine(privateKey: string)
    requires !Contains(privateKey, "ListenPort")
    ensures !Contains("PrivateKey = " + privateKey, "ListenPort")
  {
    if Contains("PrivateKey = " + privateKey, "ListenPort") {
      ContainsDropHead("PrivateKey = ", privateKey, "ListenPort");
    }
  }

  /** When exactly one line holds the pattern, grep prints that line alone. */
  lemma MatchingOnly(lines: Lines, j: nat, pattern: string)
    requires j < |lines| && Contains(lines[j], pattern)
    requires forall k :: 0 <= k < |lines| && k != j ==> !Contains(lines[k], pattern)
    ensures Matching(lines, pattern) == [lines[j]]
  {
    var before, after := lines[..j], lines[j + 1..];
    assert lines == before + ([lines[j]] + after);
    MatchingNone(before, pattern);
    MatchingNone(after, pattern);
    MatchingAppend(before, [lines[j]] + after, pattern);
    MatchingCons(lines[j], after, pattern);
  }

  lemma OnlyFourth(ls: Lines, a0: string, a1: string, a2: string, a3: string, a4: string, a5: string,
                    pat: string)
    requires ls == [a0, a1, a2, a3, a4, a5]
    requires !Contains(a0, pat) && !Contains(a1, pat) && !Contains(a2, pat)
    requires Contains(a3, pat) && !Contains(a4, pat) && !Contains(a5, pat)
    ensures Matching(ls, pat) == [a3]
  {
    assert forall k :: 0 <= k < |ls| && k != 3 ==> !Contains(ls[k], pat);
    MatchingOnly(ls, 3, pat);
  }

  lemma NoPortInRules(netInterface: string)
    requires !Contains(netInterface, "ListenPort")
    ensures !Contains(PostUpLine(netInterface), "ListenPort")
    ensures !Contains(PostDownLine(netInterface), "ListenPort")
  {
    NoPortInRule("PostUp", "-A", netInterface);
    NoPortInRule("PostDown", "-D", netInterface);
  }

  lemma NoPortInRule(action: string, flag: string, netInterface: string)
    requires 'L' !in action && 'L' !in flag
    requires !Contains(netInterface, "ListenPort")
    ensures !Contains(RuleHead(action, flag) + netInterface + RuleTail, "ListenPort")
  {
    var pat := "ListenPort";
    var head := RuleHead(action, flag);
    assert 'L' !in " = iptables " && 'L' !in " FORWARD -i wg0 -j ACCEPT;";
    assert 'L' !in " iptables -t nat " && 'L' !in " POSTROUTING -o ";
    assert pat[0] !in head;
    assert forall j :: 0 <= j < |RuleTail| ==> RuleTail[j] !in pat;
    if Contains(head + netInterface + RuleTail, pat) {
      ContainsDropTail(head + netInterface, RuleTail, pat);
      ContainsDropHead(head, netInterface, pat);
    }
  }

  lemma PortOfPortLine()
    ensures ServerPort(true, Text(CutEach(["ListenPort = 51820"]))) == "51820"
  {
    assert "ListenPort = 51820" == "ListenPort" + " = " + "51820";
    assert IsSpace(' ') && !IsSpace('5') && !IsSpace('0');
    PortOfAssignment("ListenPort", "51820");
  }

  /** The port read back from a single `key = value` line is the value. */
  lemma PortOfAssignment(key: string, value: string)
    requires '=' !in key && '=' !in value
    requires value != [] && !IsSpace(value[0]) && !IsSpace(value[|value| - 1])
    ensures ServerPort(true, Text(CutEach([key + " = " + value]))) == value
  {
    SplitAssignment(key, value);
    assert CutSecondField(key + " = " + value) == " " + value;
    assert CutEach([key + " = " + value]) == [" " + value];
    assert Text([" " + value]) == " " + value + "\n";
    assert IsSpace(' ') && IsSpace('\n');
    TrimSpaceFramed(" ", value, "\n");
  }

  /**
   * The local client configuration createLocalClientConfig writes: the
   * client's key and its address with the CIDR suffix replaced by /32, fixed
   * DNS servers, then the server as the single peer routing all traffic with
   * keep-alive 25; each line ended by a newline.
   */
  function ClientConfigText(privateKey: string, clientIP: string, serverPublicKey: string,
                            serverPublicIP: string, serverPort: string): string
  {
    Text(ClientConfigLines(privateKey, Split(clientIP, '/')[0], serverPublicKey, serverPublicIP, serverPort))
  }

  function ClientConfigLines(privateKey: string, host: string, serverPublicKey: string,
                             serverPublicIP: string, serverPort: string): Lines
  {
    ["[Interface]", "PrivateKey = " + privateKey, "Address = " + host + "/32", "DNS = 8.8.8.8, 1.1.1.1",
     "", "[Peer]", "PublicKey = " + serverPublicKey, "AllowedIPs = 0.0.0.0/0",
     "Endpoint = " + serverPublicIP + ":" + serverPort, "PersistentKeepalive = 25"]
  }

  /**
   * Reading the client configuration back gives its lines, with the address
   * the client was allocated (host part plus any CIDR suffix) written as
   * host/32.
   */
  lemma ClientConfigRead(privateKey: string, host: string, cidr: string, serverPublicKey: string,
                         serverPublicIP: string, serverPort: string)
    requires OneLine(privateKey) && OneLine(host) && '/' !in host
    requires cidr == "" || cidr[0] == '/'
    requires OneLine(serverPublicKey) && OneLine(serverPublicIP) && OneLine(serverPort)
    ensures LinesOf(ClientConfigText(privateKey, host + cidr, serverPublicKey, serverPublicIP, serverPort))
      == ClientConfigLines(privateKey, host, serverPublicKey, serverPublicIP, serverPort)
  {
    if cidr == "" {
      assert host + cidr == host;
      SplitWithoutSep(host, '/');
    } else {
      assert host + cidr == host + ['/'] + cidr[1..];
      SplitAtFirst(host, '/', cidr[1..]);
    }
    ClientConfigOneLine(privateKey, host, serverPublicKey, serverPublicIP, serverPort);
    LinesOfText(ClientConfigLines(privateKey, host, serverPublicKey, serverPublicIP, serverPort));
  }

  lemma ClientConfigOneLine(privateKey: string, host: string, serverPublicKey: string,
                            serverPublicIP: string, serverPort: string)
    requires OneLine(privateKey) && OneLine(host)
    requires OneLine(serverPublicKey) && OneLine(serverPublicIP) && OneLine(serverPort)
    ensures AllOneLine(ClientConfigLines(privateKey, host, serverPublicKey, serverPublicIP, serverPort))
  {
    var ls := ClientConfigLines(privateKey, host, serverPublicKey, serverPublicIP, serverPort);
    assert OneLine("DNS = 8.8.8.8, 1.1.1.1") && OneLine("AllowedIPs = 0.0.0.0/0");
    assert OneLine("PersistentKeepalive = 25");
    forall k | 0 <= k < |ls|
      ensures OneLine(ls[k])
    {
    }
  }

  // ---------------------------------------------------------------- config path and client name

  /** The local path createLocalClientConfig writes a client's configuration to. */
  function ConfigPath(configDir: string, clientName: string): string {
    JoinPath(configDir, clientName + ".conf")
  }

  datatype NameError = EmptyPath | InvalidName

  /**
   * The client name RevokeClientConfig, BlockClient, UnblockClient and
   * IsClientBlocked derive from a configuration path: the last path element
   * with one `.conf` suffix removed.
   */
  function ClientName(path: string): (r: Result<string, NameError>)
    ensures r.Err? <==> path == "" || TrimSuffix(FileName(path), ".conf") == ""
    ensures r == Err(EmptyPath) <==> path == ""
    ensures r.Ok? ==> '/' !in r.value && r.value != ""
    ensures r.Ok? ==> HasSuffix(path, r.value + ".conf") || (HasSuffix(path, r.value) && !HasSuffix(r.value, ".conf"))
  {
    if path == "" then Err(EmptyPath)
    else
      var name := TrimSuffix(FileName(path), ".conf");
      if name == "" then Err(InvalidName) else Ok(name)
  }

  /** The name comes back from the path it was written to. */
  lemma ClientNameOfConfigPath(configDir: string, clientName: string)
    requires clientName != "" && '/' !in clientName
    ensures ClientName(ConfigPath(configDir, clientName)) == Ok(clientName)
  {
    var file := clientName + ".conf";
    var path := ConfigPath(configDir, clientName);
    assert '/' !in file;
    FileNameOfJoin(configDir, file);
    assert TrimSuffix(file, ".conf") == clientName;
  }

  lemma {:induction false} FileNameOfSuffix(prefix: string, file: string)
    requires '/' !in file
    requires prefix == [] || prefix[|prefix| - 1] == '/'
    ensures FileName(prefix + file) == file
    decreases |file|
  {
    if |file| == 0 {
      assert prefix + file == prefix;
    } else {
      var p := prefix + file;
      assert p[..|p| - 1] == prefix + file[..|file| - 1];
      FileNameOfSuffix(prefix, file[..|file| - 1]);
      assert file[..|file| - 1] + [file[|file| - 1]] == file;
    }
  }

  lemma FileNameOfJoin(dir: string, file: string)
    requires '/' !in file
    ensures FileName(JoinPath(dir, file)) == file
  {
    if dir == "" {
      FileNameOfSuffix("", file);
      assert "" + file == file;
    } else {
      var d := TrimTrailingSlashes(dir) + "/";
      assert JoinPath(dir, file) == d + file;
      FileNameOfSuffix(d, file);
    }
  }

  /** Edge cases of the derivation. */
  /** A path ending in a separator names no client. */
  lemma ClientNameOfDirectory(path: string)
    requires path != "" && path[|path| - 1] == '/'
    ensures ClientName(path) == Err(InvalidName)
  {
    assert FileName(path) == "";
  }

  /** A file called just `.conf` names no client. */
  lemma ClientNameOfBareSuffix(dir: string)
    ensures ClientName(JoinPath(dir, ".conf")) == Err(InvalidName)
  {
    FileNameOfJoin(dir, ".conf");
    assert TrimSuffix(".conf", ".conf") == "";
  }

  /** Without the suffix the whole file name is the client name. */
  lemma ClientNameWithoutSuffix(dir: string, file: string)
    requires file != "" && '/' !in file && !HasSuffix(file, ".conf")
    ensures ClientName(JoinPath(dir, file)) == Ok(file)
  {
    FileNameOfJoin(dir, file);
  }
}
