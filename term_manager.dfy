/** The SSH session registry (term_manager.go): opening a session directly
    or through one gateway hop, writing to it, sizing and starting its shell,
    closing it, local port forwards, and the Markdown recording of its output.

    The SSH library, the network, the file system and the clock are outside
    the model: what each call into them returns is a parameter (`Faults`,
    `openError`, `clock`, `ts`), and the files written are the map `files`. */
module TermManager {
  import opened Outcome
  import opened Text
  import GoPath

  /** The connection request as the frontend sends it. */
  datatype SshParams = SshParams(
    host: string, port: int, username: string, password: string, authType: string,
    keyPem: string, passphrase: string, cols: int, rows: int,
    keepAliveSec: int, timeoutSec: int,
    gatewayHost: string, gatewayPort: int, gatewayUser: string, gatewayAuth: string,
    gatewayPassword: string, gatewayKeyPem: string, gatewayPassphrase: string)

  /** What each library or network call made while opening a session
      returns: `None` for success, `Some(e)` for the error text `e`. */
  datatype Faults = Faults(
    keyParse: Option<string>, gatewayKeyParse: Option<string>,
    gatewayDial: Option<string>, tunnelDial: Option<string>, handshake: Option<string>,
    dial: Option<string>, newSession: Option<string>, pipes: Option<string>,
    pty: Option<string>, shell: Option<string>)

  const NoFaults: Faults := Faults(None, None, None, None, None, None, None, None, None, None)

  datatype Auth = PasswordAuth(password: string) | KeyAuth(keyPem: string, passphrase: string)

  /** The gateway hop: its address, user and credentials. */
  datatype Hop = Hop(addr: string, user: string, auth: Auth)

  /** An established transport: target address, credentials, optional gateway, dial timeout in seconds. */
  datatype Link = Link(addr: string, auth: Auth, gateway: Option<Hop>, timeoutSec: int)

  const HostUserRequired: string := "host/username required"
  const KeyPemRequired: string := "key auth requires KeyPEM"
  const GatewayKeyRequired: string := "跳板机密钥认证需要提供私钥"
  const GatewayPasswordRequired: string := "跳板机密码认证需要提供密码"
  /** The explanation put in front of a target dial error that says forwarding is prohibited. */
  const ForwardingProhibitedText: string :=
    "跳板机" + ProhibitedPhrase + "功能。\n\n解决方案：\n1. 让管理员在跳板机的 /etc/ssh/sshd_config 中设置 AllowTcpForwarding yes\n2. 或者先连接到跳板机，再手动连接目标主机\n\n原始错误: "
  const SessionNotFound: string := "session not found"
  /** "forwarding is prohibited", the phrase the workspace looks for. */
  const ProhibitedPhrase: string := "禁止了端口转发"

  // ---------------------------------------------------------------------
  // Opening the transport
  // ---------------------------------------------------------------------

  /** `net.JoinHostPort(host, strconv.Itoa(port))`: a host containing ':' is bracketed. */
  function JoinHostPort(host: string, port: int): (r: string)
    ensures HasSuffix(r, ":" + IntToString(port))
    ensures ':' in host ==> r == "[" + host + "]:" + IntToString(port)
    ensures ':' !in host ==> r == host + ":" + IntToString(port)
  {
    if ':' in host then "[" + host + "]:" + IntToString(port) else host + ":" + IntToString(port)
  }

  /** The dial timeout in seconds: the requested one when positive, otherwise 10. */
  function TimeoutSec(p: SshParams): (r: int)
    ensures r > 0
    ensures p.timeoutSec > 0 ==> r == p.timeoutSec
  {
    if p.timeoutSec > 0 then p.timeoutSec else 10
  }

  /** The target's credentials: password for "password" or "", a parsed key for "key", anything else refused. */
  function TargetAuth(p: SshParams, keyParse: Option<string>): (r: Result<Auth>)
    ensures r.Ok? <==> p.authType in {"password", ""} || (p.authType == "key" && p.keyPem != "" && keyParse.None?)
    ensures r.Ok? ==> (r.value.KeyAuth? <==> p.authType == "key")
    ensures r.Ok? && r.value.PasswordAuth? ==> r.value.password == p.password
    ensures r.Err? && p.authType == "key" && p.keyPem != "" ==> HasPrefix(r.error, "parse key: ")
  {
    if p.authType == "password" || p.authType == "" then Ok(PasswordAuth(p.password))
    else if p.authType == "key" then
      if p.keyPem == "" then Err(KeyPemRequired)
      else if keyParse.Some? then Err("parse key: " + keyParse.value)
      else Ok(KeyAuth(p.keyPem, p.passphrase))
    else Err("unsupported auth type: " + p.authType)
  }

  /** The gateway's credentials: a key when its auth is "key", otherwise a password, which must not be empty. */
  function GatewayAuth(p: SshParams, keyParse: Option<string>): (r: Result<Auth>)
    ensures r.Ok? <==> (if p.gatewayAuth == "key" then p.gatewayKeyPem != "" && keyParse.None? else p.gatewayPassword != "")
    ensures r.Ok? ==> (r.value.KeyAuth? <==> p.gatewayAuth == "key")
  {
    if p.gatewayAuth == "key" then
      if p.gatewayKeyPem == "" then Err(GatewayKeyRequired)
      else if keyParse.Some? then Err("解析跳板机私钥失败: " + keyParse.value)
      else Ok(KeyAuth(p.gatewayKeyPem, p.gatewayPassphrase))
    else if p.gatewayPassword == "" then Err(GatewayPasswordRequired)
    else Ok(PasswordAuth(p.gatewayPassword))
  }

  /** The port dialled: 0 means 22. */
  function TargetPort(p: SshParams): int {
    if p.port == 0 then 22 else p.port
  }

  /** The gateway port dialled: a non-positive one means 22. */
  function GatewayPort(p: SshParams): (r: int)
    ensures r > 0
  {
    if p.gatewayPort > 0 then p.gatewayPort else 22
  }

  /** Every step a gateway connection needs succeeds. */
  predicate GatewayPathOk(p: SshParams, f: Faults) {
    GatewayAuth(p, f.gatewayKeyParse).Ok? && f.gatewayDial.None? && f.tunnelDial.None? && f.handshake.None?
  }

  /** The target dial made through the gateway, and the error text each failure gives. */
  function ViaGateway(p: SshParams, f: Faults, addr: string, auth: Auth): (r: Result<Link>)
    requires p.gatewayHost != ""
    ensures r.Ok? <==> GatewayPathOk(p, f)
    ensures r.Ok? ==> r.value.gateway.Some? && r.value.addr == addr
  {
    var gwAddr := JoinHostPort(p.gatewayHost, GatewayPort(p));
    match GatewayAuth(p, f.gatewayKeyParse)
    case Err(e) => Err(e)
    case Ok(gwAuth) =>
      if f.gatewayDial.Some? then
        Err("连接跳板机失败 (" + p.gatewayUser + "@" + gwAddr + "): " + f.gatewayDial.value)
      else if f.tunnelDial.Some? then
        var e := f.tunnelDial.value;
        if Contains(e, "administratively prohibited") || Contains(e, "open failed") then Err(ForwardingProhibitedText + e)
        else Err("通过跳板机连接目标主机失败 (" + addr + "): " + e)
      else if f.handshake.Some? then
        Err("目标主机认证失败 (" + p.username + "@" + addr + "): " + f.handshake.value)
      else Ok(Link(addr, auth, Some(Hop(gwAddr, p.gatewayUser, gwAuth)), TimeoutSec(p)))
  }

  /** Everything `StartSSH` does before it registers a session: validation,
      port default, credentials, the dial (through the gateway when one is
      named), and the session and pipe set-up. */
  function Connect(p: SshParams, f: Faults): (r: Result<Link>)
    ensures r.Ok? <==>
      p.host != "" && p.username != "" && TargetAuth(p, f.keyParse).Ok?
      && (if p.gatewayHost != "" then GatewayPathOk(p, f) else f.dial.None?)
      && f.newSession.None? && f.pipes.None?
    ensures r.Ok? ==> r.value.addr == JoinHostPort(p.host, TargetPort(p))
    ensures r.Ok? ==> (r.value.gateway.Some? <==> p.gatewayHost != "")
    ensures r.Ok? ==> r.value.timeoutSec == TimeoutSec(p) && r.value.auth == TargetAuth(p, f.keyParse).value
  {
    if p.host == "" || p.username == "" then Err(HostUserRequired)
    else
      var addr := JoinHostPort(p.host, TargetPort(p));
      match TargetAuth(p, f.keyParse)
      case Err(e) => Err(e)
      case Ok(auth) =>
        var link :=
          if p.gatewayHost != "" then ViaGateway(p, f, addr, auth)
          else if f.dial.Some? then Err(f.dial.value)
          else Ok(Link(addr, auth, None, TimeoutSec(p)));
        if link.Err? then link
        else if f.newSession.Some? then Err(f.newSession.value)
        else if f.pipes.Some? then Err(f.pipes.value)
        else link
  }

  /** Missing host or user is reported before anything is parsed or dialled, whatever else would fail. */
  lemma ConnectValidatesFirst(p: SshParams, f: Faults)
    requires p.host == "" || p.username == ""
    ensures Connect(p, f) == Err(HostUserRequired)
  {
  }

  /** A credential problem on the target is reported before the gateway's, and before any dial. */
  lemma ConnectTargetAuthBeforeGateway(p: SshParams, f: Faults)
    requires p.host != "" && p.username != "" && TargetAuth(p, f.keyParse).Err?
    ensures Connect(p, f) == Err(TargetAuth(p, f.keyParse).error)
  {
  }

  /** When the gateway refuses to open the tunnel, the error says forwarding is
      prohibited and still carries the library's own text. */
  lemma ConnectForwardingProhibited(p: SshParams, f: Faults, e: string)
    requires p.host != "" && p.username != "" && TargetAuth(p, f.keyParse).Ok?
    requires p.gatewayHost != "" && GatewayAuth(p, f.gatewayKeyParse).Ok? && f.gatewayDial.None?
    requires f.tunnelDial == Some(e) && Contains(e, "administratively prohibited")
    ensures Connect(p, f) == Err(ForwardingProhibitedText + e)
    ensures Contains(Connect(p, f).error, ProhibitedPhrase) && Contains(Connect(p, f).error, e)
  {
    var rest := ForwardingProhibitedText[3 + |ProhibitedPhrase|..] + e;
    assert ForwardingProhibitedText + e == "跳板机" + ProhibitedPhrase + rest;
    OccursInConcat("跳板机", ProhibitedPhrase, rest);
    OccursInConcat(ForwardingProhibitedText, e, "");
    assert ForwardingProhibitedText + e + "" == ForwardingProhibitedText + e;
  }

  // ---------------------------------------------------------------------
  // Recording text
  // ---------------------------------------------------------------------

  function Spaces(n: nat): (r: string)
    ensures |r| == n && forall k :: 0 <= k < n ==> r[k] == ' '
  {
    seq(n, _ => ' ')
  }

  /** `%6d`: the decimal text right-aligned in six columns. */
  function Pad6(n: int): (r: string)
    ensures |r| == if |IntToString(n)| < 6 then 6 else |IntToString(n)|
    ensures HasSuffix(r, IntToString(n))
  {
    var digits := IntToString(n);
    if |digits| < 6 then Spaces(6 - |digits|) + digits else digits
  }

  /** The padded number holds only spaces, a sign and digits. */
  lemma Pad6Chars(n: int)
    ensures forall k :: 0 <= k < |Pad6(n)| ==> Pad6(n)[k] == ' ' || Pad6(n)[k] == '-' || '0' <= Pad6(n)[k] <= '9'
  {
  }

  /** One numbered line of a recording. */
  function NumberedLine(ts: string, n: int, text: string): string {
    "[" + ts + "] " + Pad6(n) + " | " + text
  }

  /** The numbered lines for the pieces of one chunk, numbering from `start + 1`. */
  function NumberedLines(pieces: seq<string>, start: int, ts: string): (r: seq<string>)
    ensures |r| == |pieces|
    ensures forall k :: 0 <= k < |pieces| ==> r[k] == NumberedLine(ts, start + k + 1, pieces[k])
  {
    seq(|pieces|, k requires 0 <= k < |pieces| => NumberedLine(ts, start + k + 1, pieces[k]))
  }

  /** The text a loop over `lines` has produced after its first `i` rounds:
      each round writes the next line and, unless it is the last, a newline. */
  function LoopText(lines: seq<string>, i: nat): string
    requires i <= |lines|
  {
    if i == 0 then ""
    else LoopText(lines, i - 1) + lines[i - 1] + (if i < |lines| then "\n" else "")
  }

  /** The text appended for one chunk of output. */
  function RecordText(lineNumbers: bool, lineNo: int, ts: string, chunk: string): string {
    if lineNumbers then LoopText(NumberedLines(Split(chunk, '\n'), lineNo, ts), |Split(chunk, '\n')|)
    else "[" + ts + "] " + chunk
  }

  /** After `i` rounds the loop has written the first `i` lines joined by
      newlines, plus a newline when more lines follow. */
  lemma {:induction false} LoopTextIsPrefix(lines: seq<string>, i: nat)
    requires 1 <= |lines| && i <= |lines|
    ensures LoopText(lines, i) == WrittenPrefix(lines, i)
  {
    if i > 0 {
      LoopTextIsPrefix(lines, i - 1);
      WrittenPrefixStep(lines, i - 1);
      var nl := if i < |lines| then "\n" else "";
      assert LoopText(lines, i - 1) + lines[i - 1] + nl == LoopText(lines, i - 1) + (lines[i - 1] + nl);
    }
  }

  lemma NumberedLineHasNoNewline(ts: string, n: int, text: string)
    requires '\n' !in ts && '\n' !in text
    ensures '\n' !in NumberedLine(ts, n, text)
  {
    var pad := Pad6(n);
    Pad6Chars(n);
    assert '\n' !in pad by {
      forall k | 0 <= k < |pad| ensures pad[k] != '\n' { }
    }
  }

  /** With line numbers on, each line of the chunk is written as its own numbered line:
      splitting the recorded text at newlines gives exactly those lines. */
  lemma RecordTextLines(lineNo: int, ts: string, chunk: string)
    requires '\n' !in ts
    ensures Split(RecordText(true, lineNo, ts, chunk), '\n') == NumberedLines(Split(chunk, '\n'), lineNo, ts)
    ensures |NumberedLines(Split(chunk, '\n'), lineNo, ts)| == Count(chunk, '\n') + 1
  {
    var pieces := Split(chunk, '\n');
    var lines := NumberedLines(pieces, lineNo, ts);
    forall k | 0 <= k < |lines| ensures '\n' !in lines[k] {
      NumberedLineHasNoNewline(ts, lineNo + k + 1, pieces[k]);
    }
    LoopTextSplit(lines);
    SplitCount(chunk, '\n');
  }

  /** The loop's text splits back into the lines it wrote, when none holds a newline. */
  lemma LoopTextSplit(lines: seq<string>)
    requires 1 <= |lines|
    requires forall k :: 0 <= k < |lines| ==> '\n' !in lines[k]
    ensures Split(LoopText(lines, |lines|), '\n') == lines
  {
    LoopTextIsPrefix(lines, |lines|);
    WrittenPrefixAll(lines);
    SplitJoin(lines, '\n');
  }

  /** What the numbering loop has written after its first `i` rounds: the
      first `i` lines, each but the very last one followed by a newline. */
  function WrittenPrefix(lines: seq<string>, i: nat): string
    requires 1 <= |lines| && i <= |lines|
  {
    if i == 0 then "" else Join(lines[..i], '\n') + (if i < |lines| then "\n" else "")
  }

  lemma WrittenPrefixStep(lines: seq<string>, i: nat)
    requires 1 <= |lines| && i < |lines|
    ensures WrittenPrefix(lines, i) + (if i < |lines| - 1 then lines[i] + "\n" else lines[i]) == WrittenPrefix(lines, i + 1)
  {
    if i > 0 {
      assert lines[..i + 1] == lines[..i] + [lines[i]];
      JoinSnoc(lines[..i], lines[i], '\n');
    } else {
      assert lines[..1] == [lines[0]];
    }
  }

  lemma WrittenPrefixAll(lines: seq<string>)
    requires 1 <= |lines|
    ensures WrittenPrefix(lines, |lines|) == Join(lines, '\n')
  {
    assert lines[..|lines|] == lines;
  }

  /** The writing loop of `appendRecord`: each numbered line, followed by a
      newline unless it is the last; `next` is the counter after the chunk. */
  method NumberPieces(pieces: seq<string>, lineNo: int, ts: string) returns (text: string, next: int)
    ensures text == LoopText(NumberedLines(pieces, lineNo, ts), |pieces|)
    ensures next == lineNo + |pieces|
  {
    var lines := NumberedLines(pieces, lineNo, ts);
    text := "";
    next := lineNo;
    var i := 0;
    while i < |lines|
      invariant 0 <= i <= |lines|
      invariant next == lineNo + i
      invariant text == LoopText(lines, i)
    {
      ghost var before := text;
      assert LoopText(lines, i + 1) == before + lines[i] + (if i + 1 < |lines| then "\n" else "");
      next := next + 1;
      text := text + lines[i];
      if i < |lines| - 1 {
        text := text + "\n";
      }
      i := i + 1;
    }
  }

  /** The path a recording gets when no file name is given: time stamp, then the host with ':' replaced by '-'. */
  function DefaultRecordingName(ts: string, host: string): (r: string)
    ensures HasSuffix(r, ".md")
    ensures ':' !in ts ==> ':' !in r
  {
    ts + "_" + ReplaceChar(host, ':', '-') + ".md"
  }

  /** What has been written to `path` so far. */
  function Written(files: map<string, string>, path: string): string {
    if path in files then files[path] else ""
  }

  const OpeningFence: string := "```text\n"
  const ClosingFence: string := "\n```\n"

  // ---------------------------------------------------------------------
  // Sessions
  // ---------------------------------------------------------------------

  /** A forward's listening and target addresses. */
  datatype Forward = Forward(localAddr: string, remoteAddr: string)

  /** One registered SSH session. */
  class SshSession {
    const id: string
    const host: string
    const port: int
    const user: string
    const viaGateway: bool
    /** Keep-alive interval in seconds; 0 when keep-alives are off. */
    const keepAliveSec: int
    /** The SSH session and client are open. */
    var open: bool
    /** The shell has been started. */
    var started: bool
    /** The output pump runs; it closes the session's `closed` channel when the output ends. */
    var pumping: bool
    /** The last terminal size requested, as (cols, rows). */
    var size: Option<(int, int)>
    /** Everything written to the shell's standard input, write by write. */
    var stdin: seq<string>
    var recOn: bool
    var recPath: string
    var recLines: bool
    var lineNo: int
    var forwards: map<string, Forward>

    constructor (id: string, host: string, port: int, user: string, viaGateway: bool, keepAliveSec: int)
      ensures this.id == id && this.host == host && this.port == port && this.user == user
      ensures this.viaGateway == viaGateway && this.keepAliveSec == keepAliveSec
      ensures open && !started && !pumping && size == None && stdin == []
      ensures !recOn && recPath == "" && !recLines && lineNo == 0 && forwards == map[]
    {
      this.id := id;
      this.host := host;
      this.port := port;
      this.user := user;
      this.viaGateway := viaGateway;
      this.keepAliveSec := keepAliveSec;
      open := true;
      started := false;
      pumping := false;
      size := None;
      stdin := [];
      recOn := false;
      recPath := "";
      recLines := false;
      lineNo := 0;
      forwards := map[];
    }
  }

  /** The session registry and the recording files it has written. */
  class TermManager {
    var sessions: map<string, SshSession>
    /** Recording files by path, with everything written to them. */
    var files: map<string, string>

    /** Every session is registered under its own id. */
    ghost predicate Valid()
      reads this, sessions.Values
    {
      forall k :: k in sessions ==> sessions[k].id == k
    }

    constructor ()
      ensures sessions == map[] && files == map[] && Valid()
    {
      sessions := map[];
      files := map[];
    }

    /** Registers a fresh, not yet started session for an established link. */
    method Register(p: SshParams, link: Link, clock: int) returns (s: SshSession)
      requires Valid()
      modifies this`sessions
      ensures Valid() && fresh(s)
      ensures s.id == IntToString(clock) && sessions == old(sessions)[s.id := s]
      ensures s.host == p.host && s.port == TargetPort(p) && s.user == p.username
      ensures s.viaGateway == link.gateway.Some? && s.keepAliveSec == (if p.keepAliveSec > 0 then p.keepAliveSec else 0)
      ensures s.open && !s.started && !s.pumping && s.size == None && s.stdin == []
      ensures !s.recOn && s.recPath == "" && s.lineNo == 0 && s.forwards == map[]
    {
      s := new SshSession(IntToString(clock), p.host, TargetPort(p), p.username, link.gateway.Some?,
                          if p.keepAliveSec > 0 then p.keepAliveSec else 0);
      sessions := sessions[s.id := s];
    }

    /** Starts the shell of a just-registered session when the request carries a size. */
    method StartShell(s: SshSession, p: SshParams, f: Faults) returns (err: Option<string>)
      modifies s
      ensures err == (if p.cols > 0 && p.rows > 0 then (if f.pty.Some? then f.pty else f.shell) else None)
      ensures err.Some? ==> !s.open && s.started == old(s.started) && s.pumping == old(s.pumping)
                            && s.stdin == old(s.stdin) && s.size == old(s.size)
      ensures err.None? && p.cols > 0 && p.rows > 0 ==>
        s.open == old(s.open) && s.started && s.pumping && s.stdin == old(s.stdin) + ["\r"] && s.size == Some((p.cols, p.rows))
      ensures !(p.cols > 0 && p.rows > 0) ==>
        s.open == old(s.open) && s.started == old(s.started) && s.pumping == old(s.pumping)
        && s.stdin == old(s.stdin) && s.size == old(s.size)
      ensures s.recOn == old(s.recOn) && s.recPath == old(s.recPath) && s.recLines == old(s.recLines)
      ensures s.lineNo == old(s.lineNo) && s.forwards == old(s.forwards)
    {
      err := None;
      if p.cols > 0 && p.rows > 0 {
        if f.pty.Some? {
          s.open := false;
          return f.pty;
        }
        if f.shell.Some? {
          s.open := false;
          return f.shell;
        }
        s.size := Some((p.cols, p.rows));
        s.started := true;
        s.pumping := true;
        s.stdin := s.stdin + ["\r"];
      }
    }

    /** `StartSSH`, with a failed immediate start undoing the registration:
        a session id is returned exactly when the session is registered. */
    method StartSSH(p: SshParams, f: Faults, clock: int) returns (r: Result<string>)
      requires Valid()
      modifies this`sessions
      ensures Valid() && files == old(files)
      ensures Connect(p, f).Err? ==> r == Err(Connect(p, f).error) && sessions == old(sessions)
      ensures r.Err? ==> sessions == old(sessions)
      ensures r.Ok? <==> Connect(p, f).Ok? && !(p.cols > 0 && p.rows > 0 && (f.pty.Some? || f.shell.Some?))
      ensures r.Ok? ==> r.value == IntToString(clock) && r.value in sessions
                        && sessions == old(sessions)[r.value := sessions[r.value]] && fresh(sessions[r.value])
      ensures r.Ok? ==> var s := sessions[r.value];
        s.host == p.host && s.port == TargetPort(p) && s.user == p.username && s.open
        && s.started == (p.cols > 0 && p.rows > 0) && s.pumping == s.started
        && s.stdin == (if s.started then ["\r"] else []) && !s.recOn && s.forwards == map[]
    {
      var link := Connect(p, f);
      if link.Err? {
        return Err(link.error);
      }
      var before := sessions;
      var s := Register(p, link.value, clock);
      var err := StartShell(s, p, f);
      if err.Some? {
        sessions := before;
        return Err(err.value);
      }
      r := Ok(s.id);
    }

    /** `StartSSH` as written: a failed immediate start closes the session but leaves it registered. */
    method StartSSHAsWritten(p: SshParams, f: Faults, clock: int) returns (r: Result<string>)
      requires Valid()
      modifies this`sessions
      ensures Valid() && files == old(files)
      ensures Connect(p, f).Err? ==> r == Err(Connect(p, f).error) && sessions == old(sessions)
      ensures Connect(p, f).Ok? && p.cols > 0 && p.rows > 0 && (f.pty.Some? || f.shell.Some?) ==>
        r.Err? && IntToString(clock) in sessions && fresh(sessions[IntToString(clock)])
        && sessions == old(sessions)[IntToString(clock) := sessions[IntToString(clock)]]
        && !sessions[IntToString(clock)].open && !sessions[IntToString(clock)].pumping
      ensures r.Ok? ==> r.value == IntToString(clock) && r.value in sessions && fresh(sessions[r.value])
                        && sessions[r.value].pumping == (p.cols > 0 && p.rows > 0)
    {
      var link := Connect(p, f);
      if link.Err? {
        return Err(link.error);
      }
      var s := Register(p, link.value, clock);
      var err := StartShell(s, p, f);
      if err.Some? {
        return Err(err.value);
      }
      r := Ok(s.id);
    }

    /** `Send`: one write to the session's standard input. */
    method Send(id: string, data: string, writeError: Option<string>) returns (err: Option<string>)
      modifies if id in sessions then {sessions[id]} else {}
      ensures id !in sessions ==> err == Some(SessionNotFound)
      ensures id in sessions && writeError.Some? ==> err == writeError && sessions[id].stdin == old(sessions[id].stdin)
      ensures id in sessions && writeError.None? ==> err == None && sessions[id].stdin == old(sessions[id].stdin) + [data]
    {
      if id !in sessions {
        return Some(SessionNotFound);
      }
      var s := sessions[id];
      if writeError.Some? {
        return writeError;
      }
      s.stdin := s.stdin + [data];
      err := None;
    }

    /** `Resize`: the first call starts the shell at that size; later calls only change the window. */
    method Resize(id: string, cols: int, rows: int, ptyError: Option<string>, shellError: Option<string>, windowError: Option<string>)
      returns (err: Option<string>)
      modifies if id in sessions then {sessions[id]} else {}
      ensures id !in sessions ==> err == Some(SessionNotFound)
      ensures id in sessions && !old(sessions[id].started) ==>
        var s := sessions[id];
        err == (if ptyError.Some? then ptyError else shellError)
        && (err.None? ==> s.started && s.pumping && s.stdin == old(s.stdin) + ["\r"] && s.size == Some((cols, rows)))
        && (err.Some? ==> !s.started && s.pumping == old(s.pumping) && s.stdin == old(s.stdin) && s.size == old(s.size))
      ensures id in sessions && old(sessions[id].started) ==>
        var s := sessions[id];
        err == windowError && s.started && s.pumping == old(s.pumping) && s.stdin == old(s.stdin)
        && s.size == (if err.None? then Some((cols, rows)) else old(s.size))
    {
      if id !in sessions {
        return Some(SessionNotFound);
      }
      var s := sessions[id];
      if !s.started {
        if ptyError.Some? {
          return ptyError;
        }
        if shellError.Some? {
          return shellError;
        }
        s.size := Some((cols, rows));
        s.started := true;
        s.pumping := true;
        s.stdin := s.stdin + ["\r"];
        return None;
      }
      if windowError.Some? {
        return windowError;
      }
      s.size := Some((cols, rows));
      err := None;
    }

    /** `stopRecordingLocked`: writes the closing fence and turns recording off; nothing when it is off. */
    method StopRecordingLocked(s: SshSession)
      modifies s, this`files
      ensures old(s.recOn) ==> files == old(files)[old(s.recPath) := Written(old(files), old(s.recPath)) + ClosingFence]
      ensures !old(s.recOn) ==> files == old(files)
      ensures !s.recOn && (old(s.recOn) ==> s.recPath == "" && s.lineNo == 0)
      ensures !old(s.recOn) ==> s.recPath == old(s.recPath) && s.lineNo == old(s.lineNo)
      ensures s.recLines == old(s.recLines) && s.open == old(s.open) && s.started == old(s.started)
      ensures s.pumping == old(s.pumping) && s.stdin == old(s.stdin) && s.size == old(s.size) && s.forwards == old(s.forwards)
    {
      if !s.recOn {
        return;
      }
      files := files[s.recPath := Written(files, s.recPath) + ClosingFence];
      s.recOn := false;
      s.recPath := "";
      s.lineNo := 0;
    }

    /** Shuts a taken-out session down: stops its forwards and its recording and closes its connections. */
    method Shutdown(s: SshSession)
      modifies s, this`files
      ensures !s.open && !s.recOn && s.forwards == map[]
      ensures old(s.recOn) ==> files == old(files)[old(s.recPath) := Written(old(files), old(s.recPath)) + ClosingFence]
      ensures !old(s.recOn) ==> files == old(files)
      ensures s.started == old(s.started) && s.pumping == old(s.pumping) && s.stdin == old(s.stdin)
    {
      s.forwards := map[];
      StopRecordingLocked(s);
      s.open := false;
    }

    /** `Close`, waiting for the output pump only when it was started: an
        unknown id is not an error; a known one is removed and shut down. */
    method Close(id: string) returns (err: Option<string>)
      requires Valid()
      modifies this`sessions, this`files, if id in sessions then {sessions[id]} else {}
      ensures Valid() && err == None
      ensures sessions == old(sessions) - {id}
      ensures id !in old(sessions) ==> files == old(files)
      ensures id in old(sessions) ==>
        var s := old(sessions[id]);
        !s.open && !s.recOn && s.forwards == map[]
        && files == (if old(s.recOn) then old(files)[old(s.recPath) := Written(old(files), old(s.recPath)) + ClosingFence] else old(files))
    {
      if id !in sessions {
        return None;
      }
      var s := sessions[id];
      sessions := sessions - {id};
      Shutdown(s);
      err := None;
    }

    /** `Close` as written: it always waits for the output pump to close the
        session's channel, so it returns only if the pump was started. */
    method CloseAsWritten(id: string) returns (returned: bool)
      requires Valid()
      modifies this`sessions, this`files, if id in sessions then {sessions[id]} else {}
      ensures Valid()
      ensures sessions == old(sessions) - {id}
      ensures returned <==> id !in old(sessions) || old(sessions[id].pumping)
    {
      if id !in sessions {
        return true;
      }
      var s := sessions[id];
      sessions := sessions - {id};
      Shutdown(s);
      returned := s.pumping;
    }

    /** `StartRecording`: with recording already on it returns the current path;
        otherwise it opens (truncating) the file, writes the opening fence and
        starts numbering from zero. */
    method StartRecording(id: string, filename: string, includeLineNumbers: bool, dir: string, ts: string, openError: Option<string>)
      returns (r: Result<string>)
      modifies this`files, if id in sessions then {sessions[id]} else {}
      ensures id !in sessions ==> r == Err(SessionNotFound) && files == old(files)
      ensures id in sessions && old(sessions[id].recOn) ==> r == Ok(old(sessions[id].recPath)) && files == old(files)
      ensures id in sessions && !old(sessions[id].recOn) ==>
        var s := sessions[id];
        var path := GoPath.PathJoin(dir, if filename == "" then DefaultRecordingName(ts, s.host) else filename);
        if openError.Some? then r == Err(openError.value) && files == old(files) && !s.recOn
        else r == Ok(path) && files == old(files)[path := OpeningFence]
             && s.recOn && s.recPath == path && s.recLines == includeLineNumbers && s.lineNo == 0
    {
      if id !in sessions {
        return Err(SessionNotFound);
      }
      var s := sessions[id];
      if s.recOn {
        return Ok(s.recPath);
      }
      var name := filename;
      if name == "" {
        name := DefaultRecordingName(ts, s.host);
      }
      var path := GoPath.PathJoin(dir, name);
      if openError.Some? {
        return Err(openError.value);
      }
      files := files[path := OpeningFence];
      s.recOn := true;
      s.recPath := path;
      s.recLines := includeLineNumbers;
      s.lineNo := 0;
      r := Ok(path);
    }

    /** `StopRecording`. */
    method StopRecording(id: string) returns (err: Option<string>)
      modifies this`files, if id in sessions then {sessions[id]} else {}
      ensures id !in sessions ==> err == Some(SessionNotFound) && files == old(files)
      ensures id in sessions ==> err == None && !sessions[id].recOn
      ensures id in sessions && old(sessions[id].recOn) ==>
        files == old(files)[old(sessions[id].recPath) := Written(old(files), old(sessions[id].recPath)) + ClosingFence]
    {
      if id !in sessions {
        return Some(SessionNotFound);
      }
      StopRecordingLocked(sessions[id]);
      err := None;
    }

    /** `appendRecord`: appends one chunk of output to the recording file,
        numbering each newline-separated piece when line numbers are on. */
    method AppendRecord(s: SshSession, chunk: string, ts: string)
      modifies s`lineNo, this`files
      ensures !old(s.recOn) ==> files == old(files) && s.lineNo == old(s.lineNo)
      ensures old(s.recOn) ==> files == old(files)[s.recPath := Written(old(files), s.recPath) + RecordText(s.recLines, old(s.lineNo), ts, chunk)]
      ensures old(s.recOn) && s.recLines ==> s.lineNo == old(s.lineNo) + Count(chunk, '\n') + 1
      ensures old(s.recOn) && !s.recLines ==> s.lineNo == old(s.lineNo)
    {
      if !s.recOn {
        return;
      }
      var path := s.recPath;
      var base := Written(files, path);
      if !s.recLines {
        files := files[path := base + ("[" + ts + "] " + chunk)];
        return;
      }
      var lines := Split(chunk, '\n');
      var text, next := NumberPieces(lines, s.lineNo, ts);
      files := files[path := base + text];
      s.lineNo := next;
      SplitCount(chunk, '\n');
    }

    /** `StartLocalForward`: empty hosts mean 127.0.0.1; a listener that cannot be opened is an error. */
    method StartLocalForward(id: string, localHost: string, localPort: int, remoteHost: string, remotePort: int,
                             listenError: Option<string>, clock: int)
      returns (r: Result<string>)
      modifies if id in sessions then {sessions[id]} else {}
      ensures id !in sessions ==> r == Err(SessionNotFound)
      ensures id in sessions && listenError.Some? ==> r == Err(listenError.value) && sessions[id].forwards == old(sessions[id].forwards)
      ensures id in sessions && listenError.None? ==>
        var fid := "fwd-" + IntToString(clock);
        r == Ok(fid)
        && sessions[id].forwards == old(sessions[id].forwards)[fid := Forward(
             JoinHostPort(if localHost == "" then "127.0.0.1" else localHost, localPort),
             JoinHostPort(if remoteHost == "" then "127.0.0.1" else remoteHost, remotePort))]
    {
      if id !in sessions {
        return Err(SessionNotFound);
      }
      var s := sessions[id];
      var lh := if localHost == "" then "127.0.0.1" else localHost;
      var rh := if remoteHost == "" then "127.0.0.1" else remoteHost;
      var laddr := JoinHostPort(lh, localPort);
      var raddr := JoinHostPort(rh, remotePort);
      if listenError.Some? {
        return Err(listenError.value);
      }
      var fid := "fwd-" + IntToString(clock);
      s.forwards := s.forwards[fid := Forward(laddr, raddr)];
      r := Ok(fid);
    }

    /** `StopLocalForward`: removes and stops one forward. */
    method StopLocalForward(id: string, forwardId: string) returns (err: Option<string>)
      modifies if id in sessions then {sessions[id]} else {}
      ensures id !in sessions ==> err == Some(SessionNotFound)
      ensures id in sessions && forwardId !in old(sessions[id].forwards) ==>
        err == Some("forward not found") && sessions[id].forwards == old(sessions[id].forwards)
      ensures id in sessions && forwardId in old(sessions[id].forwards) ==>
        err == None && sessions[id].forwards == old(sessions[id].forwards) - {forwardId}
    {
      if id !in sessions {
        return Some(SessionNotFound);
      }
      var s := sessions[id];
      if forwardId !in s.forwards {
        return Some("forward not found");
      }
      s.forwards := s.forwards - {forwardId};
      err := None;
    }
  }

  /** The request the workspace sends: no size, so the shell starts on the first `Resize`. */
  function SizelessRequest(host: string, user: string): SshParams {
    SshParams(host, 22, user, "secret", "password", "", "", 0, 0, 0, 10, "", 0, "", "", "", "", "")
  }

  /** A session opened without a size and closed before its first `Resize`
      makes `Close` as written wait forever; the corrected `Close` returns. */
  method CloseHangsBeforeFirstResize() returns (returnedAsWritten: bool, returnedCorrected: bool)
    ensures !returnedAsWritten && returnedCorrected
  {
    var tm := new TermManager();
    var r := tm.StartSSH(SizelessRequest("10.0.0.5", "root"), NoFaults, 1);
    assert r.Ok?;
    returnedAsWritten := tm.CloseAsWritten(r.value);
    var tm2 := new TermManager();
    var r2 := tm2.StartSSH(SizelessRequest("10.0.0.5", "root"), NoFaults, 1);
    var err := tm2.Close(r2.value);
    returnedCorrected := err == None && r2.value !in tm2.sessions;
  }

  /** A failed shell start as written returns an error yet leaves a closed
      session registered under an id the caller never learns; the corrected
      `StartSSH` leaves the registry as it was. */
  method ShellFailureLeavesSession() returns (leakedAsWritten: bool, leakedCorrected: bool)
    ensures leakedAsWritten && !leakedCorrected
  {
    var p := SshParams("10.0.0.5", 22, "root", "secret", "password", "", "", 80, 24, 0, 10, "", 0, "", "", "", "", "");
    var f := NoFaults.(shell := Some("ssh: could not start shell"));
    var tm := new TermManager();
    var r := tm.StartSSHAsWritten(p, f, 7);
    leakedAsWritten := r.Err? && |tm.sessions| == 1;
    var tm2 := new TermManager();
    var r2 := tm2.StartSSH(p, f, 7);
    leakedCorrected := r2.Err? && |tm2.sessions| != 0;
  }
}
