/** The workspace window (frontend/src/App.tsx): connecting from the form
    or from a saved profile, the list of open terminal sessions and the
    active one, the dock layout's tabs, the broadcast line and the per-session
    recording switch.

    The backend calls and the docking library's `dockMove` are not executed
    here: every call the window makes is appended to the log `calls`, and
    what a call returns (the new session id or the error, whether saving
    worked, the reloaded profile list, which sends throw) is a parameter. */
module Workspace {
  import opened Outcome
  import opened Text
  import TermManager
  import Profiles
  import Sidebar

  /** An open terminal tab: the backend session id and the tab title. */
  datatype Session = Session(id: string, title: string)

  /** A node of the dock layout as the docking library reports it: a panel
      holding tab ids, or a box holding further nodes. */
  datatype DockNode = Panel(id: string, tabs: seq<string>) | Box(id: string, children: seq<DockNode>)

  /** A layout: the children of the docked root box and of the floating box
      (no floating box is the same as an empty one). */
  datatype Layout = Layout(dock: seq<DockNode>, float: seq<DockNode>)

  /** A call the window makes into the backend or into the docking library. */
  datatype Call =
    | StartSshCall(params: TermManager.SshParams)
    | DockMove(tab: string, target: string)
    | SaveProfileCall(profile: Profiles.HostProfile)
    | ListProfilesCall
    | LocalForwardCall(session: string, localHost: string, localPort: int, remoteHost: string, remotePort: int)
    | CloseCall(session: string)
    | SendCall(session: string, data: string)
    | StartRecordingCall(session: string, path: string, lineNumbers: bool)
    | StopRecordingCall(session: string)

  /** The connection form's fields as `connect` reads them. */
  datatype Form = Form(
    hostName: string, host: string, port: int, username: string, password: string, authType: string,
    keyPem: string, passphrase: string, keepAliveSec: int, timeoutSec: int, cols: int, rows: int,
    useGateway: bool, gwHost: string, gwPort: int, gwUser: string, gwAuth: string,
    gwPassword: string, gwKeyPem: string, gwPassphrase: string,
    tags: string, saveCfg: bool,
    tunDir: string, tunLHost: string, tunLPort: int, tunRHost: string, tunRPort: int)

  // ---------------------------------------------------------------------
  // Connection parameters, title and saved profile
  // ---------------------------------------------------------------------

  /** `Number(port) || 22`: a zero port means 22. */
  function PortOr22(port: int): (r: int)
    ensures r != 0
    ensures port != 0 ==> r == port
  {
    if port == 0 then 22 else port
  }

  /** A gateway field is sent only when the gateway is switched on. */
  function IfGateway(form: Form, s: string): string {
    if form.useGateway then s else ""
  }

  /** The request a manual connect sends: form values, no initial size, and
      the gateway fields blanked unless the gateway is on. */
  function BuildParams(form: Form): TermManager.SshParams {
    TermManager.SshParams(
      form.host, PortOr22(form.port), form.username, form.password, form.authType,
      form.keyPem, form.passphrase, 0, 0, form.keepAliveSec, form.timeoutSec,
      IfGateway(form, form.gwHost), if form.useGateway then form.gwPort else 0,
      IfGateway(form, form.gwUser), IfGateway(form, form.gwAuth), IfGateway(form, form.gwPassword),
      IfGateway(form, form.gwKeyPem), IfGateway(form, form.gwPassphrase))
  }

  /** The parameters `connect` sends: the override when one is given, else the form's. */
  function ParamsFor(override: Option<TermManager.SshParams>, form: Form): TermManager.SshParams {
    if override.Some? then override.value else BuildParams(form)
  }

  /** The tab title `Username@Host:Port`. */
  function Title(p: TermManager.SshParams): string {
    p.username + "@" + p.host + ":" + IntToString(p.port)
  }

  /** With the gateway off, a manual connect dials the target directly on the form's port, or 22. */
  lemma ManualConnectDialsDirect(form: Form, f: TermManager.Faults)
    requires !form.useGateway
    ensures TermManager.Connect(BuildParams(form), f).Ok? ==>
      TermManager.Connect(BuildParams(form), f).value.gateway.None?
      && TermManager.Connect(BuildParams(form), f).value.addr == TermManager.JoinHostPort(form.host, PortOr22(form.port))
  {
  }

  /** A manual connect never asks for an initial window size, so its shell
      starts only with the terminal's first resize. */
  lemma ManualConnectDefersShell(form: Form)
    ensures !(BuildParams(form).cols > 0 && BuildParams(form).rows > 0)
  {
  }

  // Tags: `tags.split(',').map(t => t.trim()).filter(t => t)`

  /** JavaScript white space and line terminators, the characters `trim` removes. */
  predicate JsSpace(c: char) {
    c == '\t' || c == '\U{B}' || c == '\U{C}' || c == ' ' || c == '\U{A0}' || c == '\U{FEFF}'
    || c == '\U{1680}' || ('\U{2000}' <= c <= '\U{200A}') || c == '\U{202F}' || c == '\U{205F}' || c == '\U{3000}'
    || c == '\n' || c == '\r' || c == '\U{2028}' || c == '\U{2029}'
  }

  function JsTrimStart(s: string): (r: string)
    ensures r == [] || !JsSpace(r[0])
  {
    if s != [] && JsSpace(s[0]) then JsTrimStart(s[1..]) else s
  }

  function JsTrimEnd(s: string): (r: string)
    ensures r == [] || !JsSpace(r[|r| - 1])
  {
    if s != [] && JsSpace(s[|s| - 1]) then JsTrimEnd(s[..|s| - 1]) else s
  }

  /** Trimming the start keeps a suffix. */
  lemma {:induction false} JsTrimStartSuffix(s: string)
    ensures |JsTrimStart(s)| <= |s| && JsTrimStart(s) == s[|s| - |JsTrimStart(s)|..]
  {
    if s != [] && JsSpace(s[0]) {
      JsTrimStartSuffix(s[1..]);
    }
  }

  /** Trimming the end keeps a prefix. */
  lemma {:induction false} JsTrimEndPrefix(s: string)
    ensures |JsTrimEnd(s)| <= |s| && JsTrimEnd(s) == s[..|JsTrimEnd(s)|]
  {
    if s != [] && JsSpace(s[|s| - 1]) {
      JsTrimEndPrefix(s[..|s| - 1]);
    }
  }

  /** `String.prototype.trim`: a slice of the input with no white space at either end. */
  function JsTrim(s: string): (r: string)
    ensures r == [] || (!JsSpace(r[0]) && !JsSpace(r[|r| - 1]))
  {
    JsTrimEndPrefix(JsTrimStart(s));
    JsTrimEnd(JsTrimStart(s))
  }

  /** Trimming adds no character. */
  lemma JsTrimInside(s: string, c: char)
    requires c in JsTrim(s)
    ensures c in s
  {
    var l := JsTrimStart(s);
    var r := JsTrimEnd(l);
    JsTrimStartSuffix(s);
    JsTrimEndPrefix(l);
    var i :| 0 <= i < |r| && r[i] == c;
    assert l[i] == c;
    assert s[|s| - |l| + i] == c;
  }

  /** A tag as parsing leaves it: not empty, no white space at either end. */
  predicate Trimmed(t: string) {
    t != [] && !JsSpace(t[0]) && !JsSpace(t[|t| - 1])
  }

  function KeepNonEmpty(pieces: seq<string>): seq<string> {
    if pieces == [] then []
    else (if pieces[0] == [] then [] else [pieces[0]]) + KeepNonEmpty(pieces[1..])
  }

  /** Every kept piece is a non-empty piece of the input. */
  lemma {:induction false} KeepNonEmptyShape(pieces: seq<string>)
    ensures forall k :: 0 <= k < |KeepNonEmpty(pieces)| ==> KeepNonEmpty(pieces)[k] != [] && KeepNonEmpty(pieces)[k] in pieces
  {
    if pieces != [] {
      KeepNonEmptyShape(pieces[1..]);
      var head := if pieces[0] == [] then [] else [pieces[0]];
      var r := KeepNonEmpty(pieces);
      assert r == head + KeepNonEmpty(pieces[1..]);
      forall k | 0 <= k < |r| ensures r[k] != [] && r[k] in pieces {
        if k >= |head| {
          assert r[k] == KeepNonEmpty(pieces[1..])[k - |head|];
        }
      }
    }
  }

  function TrimAll(pieces: seq<string>): (r: seq<string>)
    ensures |r| == |pieces| && forall k :: 0 <= k < |pieces| ==> r[k] == JsTrim(pieces[k])
  {
    seq(|pieces|, k requires 0 <= k < |pieces| => JsTrim(pieces[k]))
  }

  /** The comma-separated tag field as a list of tags. */
  function ParseTags(s: string): seq<string> {
    if s == [] then [] else KeepNonEmpty(TrimAll(Split(s, ',')))
  }

  /** Each parsed tag is non-empty, has no white space at either end and no comma. */
  lemma ParseTagsShape(s: string)
    ensures forall k :: 0 <= k < |ParseTags(s)| ==> Trimmed(ParseTags(s)[k]) && ',' !in ParseTags(s)[k]
  {
    if s != [] {
      var pieces := Split(s, ',');
      var trimmed := TrimAll(pieces);
      KeepNonEmptyShape(trimmed);
      forall k | 0 <= k < |ParseTags(s)| ensures Trimmed(ParseTags(s)[k]) && ',' !in ParseTags(s)[k] {
        var t := ParseTags(s)[k];
        var j :| 0 <= j < |trimmed| && trimmed[j] == t;
        if ',' in t {
          JsTrimInside(pieces[j], ',');
        }
      }
    }
  }

  /** `tags.join(', ')`: how editing a profile fills the tag field. */
  function TagsText(tags: seq<string>): string {
    if tags == [] then "" else Join(Spaced(tags), ',')
  }

  /** Every tag after the first gets the space that follows the comma. */
  function Spaced(tags: seq<string>): (r: seq<string>)
    ensures |r| == |tags|
    ensures forall k :: 0 <= k < |tags| ==> r[k] == if k == 0 then tags[0] else " " + tags[k]
  {
    seq(|tags|, k requires 0 <= k < |tags| => if k == 0 then tags[0] else " " + tags[k])
  }

  lemma TrimmedFixed(t: string)
    requires Trimmed(t)
    ensures JsTrim(t) == t && JsTrim(" " + t) == t
  {
    assert JsTrimStart(t) == t;
    assert (" " + t)[1..] == t;
    assert JsTrimStart(" " + t) == t;
    assert JsTrimEnd(t) == t;
  }

  lemma KeepNonEmptyAll(pieces: seq<string>)
    requires forall k :: 0 <= k < |pieces| ==> pieces[k] != []
    ensures KeepNonEmpty(pieces) == pieces
  {
  }

  /** Editing a profile and saving it again gives back the same tags: the
      tag field round-trips through `join(', ')` and the parse. */
  lemma ParseTagsText(tags: seq<string>)
    requires forall k :: 0 <= k < |tags| ==> Trimmed(tags[k]) && ',' !in tags[k]
    ensures ParseTags(TagsText(tags)) == tags
  {
    if tags != [] {
      SplitTagsText(tags);
      TrimSpaced(tags);
      assert TrimAll(Spaced(tags)) == tags;
      KeepNonEmptyAll(tags);
    }
  }

  lemma TrimSpaced(tags: seq<string>)
    requires forall k :: 0 <= k < |tags| ==> Trimmed(tags[k])
    ensures forall k :: 0 <= k < |tags| ==> JsTrim(Spaced(tags)[k]) == tags[k]
  {
    forall k | 0 <= k < |tags| ensures JsTrim(Spaced(tags)[k]) == tags[k] {
      TrimSpacedAt(tags, k);
    }
  }

  lemma TrimSpacedAt(tags: seq<string>, k: nat)
    requires k < |tags| && Trimmed(tags[k])
    ensures JsTrim(Spaced(tags)[k]) == tags[k]
  {
    TrimmedFixed(tags[k]);
    var t := tags[k];
    if k > 0 {
      assert Spaced(tags)[k] == " " + t;
    } else {
      assert Spaced(tags)[k] == t;
    }
  }

  /** Splitting the joined field at commas gives back the spaced tags. */
  lemma SplitTagsText(tags: seq<string>)
    requires tags != []
    requires forall k :: 0 <= k < |tags| ==> Trimmed(tags[k]) && ',' !in tags[k]
    ensures TagsText(tags) != [] && Split(TagsText(tags), ',') == Spaced(tags)
  {
    var sp := Spaced(tags);
    forall k | 0 <= k < |sp| ensures ',' !in sp[k] {
      if k > 0 { assert sp[k] == " " + tags[k]; }
    }
    SplitJoin(sp, ',');
    JoinPrefix(sp, ',');
  }

  /** The joined text starts with the first piece. */
  lemma JoinPrefix(pieces: seq<string>, sep: char)
    requires |pieces| >= 1
    ensures |Join(pieces, sep)| >= |pieces[0]| && Join(pieces, sep)[..|pieces[0]|] == pieces[0]
  {
  }

  /** `hosts.find(...)`: the first saved host with the same address, port and user. */
  function FindHost(hosts: seq<Sidebar.HostItem>, host: string, port: int, user: string): (r: Option<nat>)
    ensures r.Some? ==> r.value < |hosts| && SameHost(hosts[r.value], host, port, user)
    ensures r.Some? ==> forall j :: 0 <= j < r.value ==> !SameHost(hosts[j], host, port, user)
    ensures r.None? ==> forall j :: 0 <= j < |hosts| ==> !SameHost(hosts[j], host, port, user)
  {
    if hosts == [] then None
    else if SameHost(hosts[0], host, port, user) then Some(0)
    else match FindHost(hosts[1..], host, port, user)
      case None => None
      case Some(i) => Some(i + 1)
  }

  predicate SameHost(h: Sidebar.HostItem, host: string, port: int, user: string) {
    h.host == host && h.port == port && h.username == user
  }

  /** The id the saved profile gets: the edited host's id, else the id of a
      saved host with the same address, port and user, else empty (a new one). */
  function ProfileId(form: Form, editing: Option<Sidebar.HostItem>, hosts: seq<Sidebar.HostItem>): string {
    var id := if editing.Some? then editing.value.id else "";
    if id != "" then id
    else match FindHost(hosts, form.host, PortOr22(form.port), form.username)
      case None => ""
      case Some(i) => hosts[i].id
  }

  /** The profile a manual connect saves. */
  function Draft(form: Form, id: string): Profiles.HostProfile {
    Profiles.HostProfile(
      id, if form.hostName != "" then form.hostName else form.host, form.host, PortOr22(form.port), form.username,
      Profiles.AuthInfo(form.authType, form.password, form.keyPem, form.passphrase),
      form.keepAliveSec, form.timeoutSec, form.cols, form.rows,
      IfGateway(form, form.gwHost), if form.useGateway then form.gwPort else 0,
      IfGateway(form, form.gwUser), IfGateway(form, form.gwAuth), IfGateway(form, form.gwPassword),
      IfGateway(form, form.gwKeyPem), IfGateway(form, form.gwPassphrase),
      ParseTags(form.tags), "", "")
  }

  /** How the sidebar shows a listed profile: the name falls back to the host. */
  function ToHostItem(p: Profiles.HostProfile): (r: Sidebar.HostItem)
    ensures r.id == p.id && r.name == (if p.name != "" then p.name else p.host)
  {
    Sidebar.HostItem(p.id, if p.name != "" then p.name else p.host, p.host, p.port, p.username, p.tags)
  }

  function ToHostItems(ps: seq<Profiles.HostProfile>): (r: seq<Sidebar.HostItem>)
    ensures |r| == |ps| && forall k :: 0 <= k < |ps| ==> r[k] == ToHostItem(ps[k])
  {
    seq(|ps|, k requires 0 <= k < |ps| => ToHostItem(ps[k]))
  }

  /** The profile is saved only on a manual connect, and only when saving is ticked or a host is being edited. */
  predicate SaveGate(override: Option<TermManager.SshParams>, form: Form, editing: Option<Sidebar.HostItem>) {
    (form.saveCfg || editing.Some?) && override.None?
  }

  /** The one local forward is started only on a manual connect with direction L and both ports positive. */
  predicate ForwardGate(override: Option<TermManager.SshParams>, form: Form) {
    form.tunDir == "L" && form.tunLPort > 0 && form.tunRPort > 0 && override.None?
  }

  function OrLoopback(h: string): string {
    if h != "" then h else "127.0.0.1"
  }

  function DockCalls(id: string, layout: Layout): seq<Call> {
    if |layout.dock| > 0 then [DockMove(id, layout.dock[0].id)] else []
  }

  function SaveCalls(override: Option<TermManager.SshParams>, form: Form, editing: Option<Sidebar.HostItem>,
                     hosts: seq<Sidebar.HostItem>, saved: bool): seq<Call> {
    if SaveGate(override, form, editing) then
      [SaveProfileCall(Draft(form, ProfileId(form, editing, hosts)))] + (if saved then [ListProfilesCall] else [])
    else []
  }

  function ForwardCalls(override: Option<TermManager.SshParams>, form: Form, id: string): seq<Call> {
    if ForwardGate(override, form) then
      [LocalForwardCall(id, OrLoopback(form.tunLHost), form.tunLPort, OrLoopback(form.tunRHost), form.tunRPort)]
    else []
  }

  /** The calls a successful connect makes after `StartSSH`: the tab into the
      first docked child, the profile save and reload, the local forward. */
  function AfterStart(override: Option<TermManager.SshParams>, form: Form, id: string, layout: Layout,
                      editing: Option<Sidebar.HostItem>, hosts: seq<Sidebar.HostItem>, saved: bool): seq<Call> {
    DockCalls(id, layout) + SaveCalls(override, form, editing, hosts, saved) + ForwardCalls(override, form, id)
  }

  predicate HasForward(cs: seq<Call>) {
    exists k :: 0 <= k < |cs| && cs[k].LocalForwardCall?
  }

  /** The follow-up calls and their gates: the save (and the reload after a
      successful save) only on a manual connect with saving ticked or a host
      being edited, the forward only on a manual connect with direction L and
      both ports positive; failure of either changes nothing else. */
  lemma AfterStartGates(override: Option<TermManager.SshParams>, form: Form, id: string, layout: Layout,
                        editing: Option<Sidebar.HostItem>, hosts: seq<Sidebar.HostItem>, saved: bool)
    ensures var r := AfterStart(override, form, id, layout, editing, hosts, saved);
      (SaveProfileCall(Draft(form, ProfileId(form, editing, hosts))) in r <==> SaveGate(override, form, editing))
      && (ListProfilesCall in r <==> SaveGate(override, form, editing) && saved)
      && (HasForward(r) <==> ForwardGate(override, form))
      && (HasForward(r) ==> r[|r| - 1] == LocalForwardCall(id, OrLoopback(form.tunLHost), form.tunLPort, OrLoopback(form.tunRHost), form.tunRPort))
      && (|layout.dock| > 0 ==> r[0] == DockMove(id, layout.dock[0].id))
  {
    var d := DockCalls(id, layout);
    var sv := SaveCalls(override, form, editing, hosts, saved);
    var fw := ForwardCalls(override, form, id);
    var r := d + sv + fw;
    assert r == AfterStart(override, form, id, layout, editing, hosts, saved);
    assert forall c :: c in r <==> c in d || c in sv || c in fw;
    if HasForward(r) {
      var k :| 0 <= k < |r| && r[k].LocalForwardCall?;
      assert r[k] in fw;
    }
    if ForwardGate(override, form) {
      assert r[|r| - 1].LocalForwardCall?;
    }
  }

  // ---------------------------------------------------------------------
  // Error classification
  // ---------------------------------------------------------------------

  /** The advice shown with a failed connect. */
  datatype Advice = CheckCredentials(viaGateway: bool) | ForwardingProhibited | Refused | TimedOut | NoAdvice

  const AuthFailed: string := "unable to authenticate"
  const AdminProhibited: string := "administratively prohibited"
  const ConnectionRefused: string := "connection refused"

  /** The first matching test decides, in this order: authentication,
      forwarding prohibited, refused, timeout. */
  function Classify(msg: string, useGateway: bool): Advice {
    if Contains(msg, AuthFailed) then CheckCredentials(useGateway)
    else if Contains(msg, TermManager.ProhibitedPhrase) || Contains(msg, AdminProhibited) then ForwardingProhibited
    else if Contains(msg, ConnectionRefused) then Refused
    else if Contains(msg, "timeout") || Contains(msg, "i/o timeout") then TimedOut
    else NoAdvice
  }

  /** Each advice is given exactly when its test matches and no earlier one does. */
  lemma ClassifyFirstMatch(msg: string, useGateway: bool)
    ensures Classify(msg, useGateway).CheckCredentials? <==> Contains(msg, AuthFailed)
    ensures Classify(msg, useGateway).CheckCredentials? ==> Classify(msg, useGateway).viaGateway == useGateway
    ensures Classify(msg, useGateway) == ForwardingProhibited <==>
      !Contains(msg, AuthFailed) && (Contains(msg, TermManager.ProhibitedPhrase) || Contains(msg, AdminProhibited))
    ensures Classify(msg, useGateway) == Refused <==>
      !Contains(msg, AuthFailed) && !Contains(msg, TermManager.ProhibitedPhrase) && !Contains(msg, AdminProhibited)
      && Contains(msg, ConnectionRefused)
    ensures Classify(msg, useGateway) == TimedOut <==>
      !Contains(msg, AuthFailed) && !Contains(msg, TermManager.ProhibitedPhrase) && !Contains(msg, AdminProhibited)
      && !Contains(msg, ConnectionRefused) && Contains(msg, "timeout")
  {
    TimeoutTestSubsumed(msg);
  }

  /** The gateway switch changes nothing but the wording of the credentials advice. */
  lemma ClassifyGatewayOnlyForCredentials(msg: string)
    ensures Classify(msg, true) == Classify(msg, false) || Classify(msg, true) == CheckCredentials(true)
    ensures Classify(msg, true).CheckCredentials? == Classify(msg, false).CheckCredentials?
  {
  }

  /** The "i/o timeout" test is subsumed by the "timeout" one. */
  lemma TimeoutTestSubsumed(msg: string)
    ensures Contains(msg, "i/o timeout") ==> Contains(msg, "timeout")
  {
    if Contains(msg, "i/o timeout") {
      TimeoutIn(msg);
    }
  }

  lemma TimeoutIn(msg: string)
    requires Contains(msg, "i/o timeout")
    ensures Contains(msg, "timeout")
  {
    var full := "i/o timeout";
    assert full[4..4 + |"timeout"|] == "timeout";
    assert OccursAt(full, "timeout", 4);
    ContainsTransitive(msg, full, "timeout", 4);
  }

  /** The backend's forwarding-prohibited error gets the forwarding advice,
      unless its library text also mentions failed authentication. */
  lemma ForwardingErrorAdvised(p: TermManager.SshParams, f: TermManager.Faults, e: string, useGateway: bool)
    requires p.host != "" && p.username != "" && TermManager.TargetAuth(p, f.keyParse).Ok?
    requires p.gatewayHost != "" && TermManager.GatewayAuth(p, f.gatewayKeyParse).Ok? && f.gatewayDial.None?
    requires f.tunnelDial == Some(e) && Contains(e, AdminProhibited)
    requires !Contains(TermManager.ForwardingProhibitedText + e, AuthFailed)
    ensures Classify(TermManager.Connect(p, f).error, useGateway) == ForwardingProhibited
  {
    TermManager.ConnectForwardingProhibited(p, f, e);
  }

  /** The text added after the error in the alert. */
  function Suggestion(advice: Advice, form: Form): string {
    match advice
    case CheckCredentials(true) =>
      "\n\n💡 可能的原因：\n" + "1. 跳板机的用户名或密码错误\n" + "2. 目标主机的用户名或密码错误\n"
      + "3. 服务器禁用了密码认证，需要使用私钥\n" + "\n请检查：\n"
      + "- 跳板机: " + form.gwUser + "@" + form.gwHost + ":" + IntToString(form.gwPort) + "\n"
      + "- 目标主机: " + form.username + "@" + form.host + ":" + IntToString(form.port)
    case CheckCredentials(false) =>
      "\n\n💡 可能的原因：\n" + "1. 用户名或密码错误\n" + "2. 服务器禁用了密码认证，需要使用私钥\n" + "3. 用户账号被锁定或不存在"
    case ForwardingProhibited =>
      "\n\n🔧 跳板机禁止了端口转发功能\n\n" + "📋 临时解决方案（两步连接）：\n"
      + "1. 先连接到跳板机: " + form.gwUser + "@" + form.gwHost + "\n"
      + "2. 在跳板机终端中执行: ssh " + form.username + "@" + form.host + "\n\n"
      + "🛠️ 永久解决方案（需要管理员）：\n" + "让管理员在跳板机修改 /etc/ssh/sshd_config：\n"
      + "  AllowTcpForwarding yes\n" + "  PermitOpen any\n" + "然后重启SSH服务: sudo systemctl restart sshd"
    case Refused =>
      "\n\n💡 连接被拒绝，请检查：\n" + "1. 目标主机IP和端口是否正确\n" + "2. 目标主机SSH服务是否启动\n" + "3. 防火墙是否开放SSH端口"
    case TimedOut =>
      "\n\n💡 连接超时，请检查：\n" + "1. 网络是否通畅\n" + "2. 目标主机是否在线\n" + "3. 防火墙是否阻止了连接"
    case NoAdvice => ""
  }

  /** The alert after a failed connect: the error itself, then the advice. */
  function AlertText(msg: string, form: Form): string {
    "❌ 连接失败：" + msg + Suggestion(Classify(msg, form.useGateway), form)
  }

  /** The alert starts with the error text itself; with no advice it is only that. */
  lemma AlertTextShowsError(msg: string, form: Form)
    ensures HasPrefix(AlertText(msg, form), "❌ 连接失败：" + msg)
    ensures Classify(msg, form.useGateway) == NoAdvice <==> AlertText(msg, form) == "❌ 连接失败：" + msg
  {
    var head := "❌ 连接失败：" + msg;
    var sug := Suggestion(Classify(msg, form.useGateway), form);
    assert AlertText(msg, form) == head + sug;
    assert (head + sug)[..|head|] == head;
    if AlertText(msg, form) == head {
      assert |sug| == 0;
    }
  }

  // ---------------------------------------------------------------------
  // Sessions and the tabs in the layout
  // ---------------------------------------------------------------------

  /** The sessions whose id is not in `ids`, in their order. */
  function DropIds(ss: seq<Session>, ids: set<string>): (r: seq<Session>)
    ensures |r| <= |ss|
  {
    if ss == [] then [] else (if ss[0].id in ids then [] else [ss[0]]) + DropIds(ss[1..], ids)
  }

  /** The sessions whose id is in `ids`, in their order. */
  function KeepIds(ss: seq<Session>, ids: set<string>): seq<Session> {
    if ss == [] then [] else (if ss[0].id in ids then [ss[0]] else []) + KeepIds(ss[1..], ids)
  }

  /** `DropIds` keeps exactly the sessions whose id is not in `ids`. */
  lemma {:induction false} DropIdsMembers(ss: seq<Session>, ids: set<string>)
    ensures forall s :: s in DropIds(ss, ids) <==> s in ss && s.id !in ids
  {
    if ss != [] {
      DropIdsMembers(ss[1..], ids);
      assert forall s :: s in ss <==> s == ss[0] || s in ss[1..];
    }
  }

  /** `KeepIds` keeps exactly the sessions whose id is in `ids`. */
  lemma {:induction false} KeepIdsMembers(ss: seq<Session>, ids: set<string>)
    ensures forall s :: s in KeepIds(ss, ids) <==> s in ss && s.id in ids
  {
    if ss != [] {
      KeepIdsMembers(ss[1..], ids);
      assert forall s :: s in ss <==> s == ss[0] || s in ss[1..];
    }
  }

  /** A session whose id is not dropped is still there. */
  lemma DropIdsHas(ss: seq<Session>, ids: set<string>, id: string)
    requires HasSession(ss, id) && id !in ids
    ensures HasSession(DropIds(ss, ids), id)
  {
    var k :| 0 <= k < |ss| && ss[k].id == id;
    DropIdsMembers(ss, ids);
    assert ss[k] in DropIds(ss, ids);
    var r := DropIds(ss, ids);
    var j :| 0 <= j < |r| && r[j] == ss[k];
  }

  /** Dropping keeps the order: it distributes over concatenation. */
  lemma {:induction false} DropIdsConcat(a: seq<Session>, b: seq<Session>, ids: set<string>)
    ensures DropIds(a + b, ids) == DropIds(a, ids) + DropIds(b, ids)
  {
    if a == [] {
      assert a + b == b;
    } else {
      assert (a + b)[0] == a[0];
      assert (a + b)[1..] == a[1..] + b;
      DropIdsConcat(a[1..], b, ids);
    }
  }

  /** Dropping no ids keeps every session. */
  lemma {:induction false} DropIdsNone(ss: seq<Session>)
    ensures DropIds(ss, {}) == ss
  {
    if ss != [] {
      DropIdsNone(ss[1..]);
    }
  }

  /** Dropping one id after others is dropping them all at once. */
  lemma {:induction false} DropIdsTwice(ss: seq<Session>, a: set<string>, b: set<string>)
    ensures DropIds(DropIds(ss, a), b) == DropIds(ss, a + b)
  {
    if ss != [] {
      DropIdsTwice(ss[1..], a, b);
      var head := if ss[0].id in a then [] else [ss[0]];
      DropIdsConcat(head, DropIds(ss[1..], a), b);
      if ss[0].id !in a {
        assert head[1..] == [];
      }
    }
  }

  /** Only the ids that sessions of `ss` carry matter to `DropIds`. */
  lemma {:induction false} DropIdsRelevant(ss: seq<Session>, a: set<string>, b: set<string>)
    requires forall k :: 0 <= k < |ss| ==> (ss[k].id in a <==> ss[k].id in b)
    ensures DropIds(ss, a) == DropIds(ss, b)
  {
    if ss != [] {
      DropIdsRelevant(ss[1..], a, b);
    }
  }

  /** Dropping the ids outside `ids` is keeping those in it. */
  lemma {:induction false} DropComplement(ss: seq<Session>, ids: set<string>, drop: set<string>)
    requires forall k :: 0 <= k < |ss| ==> (ss[k].id in drop <==> ss[k].id !in ids)
    ensures DropIds(ss, drop) == KeepIds(ss, ids)
  {
    if ss != [] {
      DropComplement(ss[1..], ids, drop);
    }
  }

  /** Some session of `ss` has this id. */
  predicate HasSession(ss: seq<Session>, id: string) {
    exists k :: 0 <= k < |ss| && ss[k].id == id
  }

  /** The tab ids under a node, collected recursively. */
  function TabIds(n: DockNode): set<string>
    decreases n
  {
    match n
    case Panel(_, tabs) => set t | t in tabs
    case Box(_, cs) => TabIdsAll(cs)
  }

  function TabIdsAll(ns: seq<DockNode>): set<string>
    decreases ns
  {
    if ns == [] then {} else TabIds(ns[0]) + TabIdsAll(ns[1..])
  }

  /** `path` picks a child at each level, ending at a panel that shows tab `t`. */
  predicate TabAt(ns: seq<DockNode>, path: seq<nat>, t: string)
    decreases path
  {
    |path| >= 1 && path[0] < |ns| &&
    match ns[path[0]]
    case Panel(_, tabs) => |path| == 1 && t in tabs
    case Box(_, cs) => TabAt(cs, path[1..], t)
  }

  /** The collected ids are exactly the tabs of the panels reachable in the layout. */
  lemma {:induction false} TabIdsReachable(ns: seq<DockNode>, t: string)
    ensures t in TabIdsAll(ns) <==> exists path :: TabAt(ns, path, t)
    decreases ns
  {
    if t in TabIdsAll(ns) {
      var path := FindTab(ns, t);
      assert exists p :: TabAt(ns, p, t) by {
        assert TabAt(ns, path, t);
      }
    } else if exists path :: TabAt(ns, path, t) {
      var path :| TabAt(ns, path, t);
      TabAtCollected(ns, path, t);
    }
  }

  lemma {:induction false} FindTab(ns: seq<DockNode>, t: string) returns (path: seq<nat>)
    requires t in TabIdsAll(ns)
    ensures TabAt(ns, path, t)
    decreases ns
  {
    if t in TabIds(ns[0]) {
      match ns[0]
      case Panel(_, tabs) => path := [0];
      case Box(_, cs) =>
        var sub := FindTab(cs, t);
        path := [0] + sub;
        assert path[1..] == sub;
    } else {
      var sub := FindTab(ns[1..], t);
      path := [sub[0] + 1] + sub[1..];
      assert ns[path[0]] == ns[1..][sub[0]];
      assert path[1..] == sub[1..];
    }
  }

  lemma {:induction false} TabAtCollected(ns: seq<DockNode>, path: seq<nat>, t: string)
    requires TabAt(ns, path, t)
    ensures t in TabIdsAll(ns)
    decreases path
  {
    ChildCollected(ns, path[0]);
    match ns[path[0]]
    case Panel(_, tabs) =>
    case Box(_, cs) => TabAtCollected(cs, path[1..], t);
  }

  lemma {:induction false} ChildCollected(ns: seq<DockNode>, k: nat)
    requires k < |ns|
    ensures TabIds(ns[k]) <= TabIdsAll(ns)
    decreases k
  {
    if k > 0 {
      ChildCollected(ns[1..], k - 1);
    }
  }

  // ---------------------------------------------------------------------
  // The float sweep and the broadcast line
  // ---------------------------------------------------------------------

  /** `floatbox.children.flatMap(fb => fb.tabs || [])`. */
  function FloatTabs(float: seq<DockNode>): (r: seq<string>)
    ensures forall t :: t in r <==> exists k :: 0 <= k < |float| && float[k].Panel? && t in float[k].tabs
  {
    if float == [] then []
    else (if float[0].Panel? then float[0].tabs else []) + FloatTabs(float[1..])
  }

  function MovesTo(tabs: seq<string>, target: string): (r: seq<Call>)
    ensures |r| == |tabs| && forall k :: 0 <= k < |tabs| ==> r[k] == DockMove(tabs[k], target)
  {
    seq(|tabs|, k requires 0 <= k < |tabs| => DockMove(tabs[k], target))
  }

  /** The moves one sweep makes: each floating tab, in order, into the first docked child. */
  function SweepMoves(layout: Layout): seq<Call> {
    if |layout.float| == 0 || |layout.dock| == 0 then []
    else MovesTo(FloatTabs(layout.float), layout.dock[0].id)
  }

  /** A sweep moves a tab exactly when it floats, and always to the first docked child. */
  lemma SweepMovesFloating(layout: Layout, t: string, target: string)
    ensures DockMove(t, target) in SweepMoves(layout) <==>
      |layout.dock| > 0 && target == layout.dock[0].id
      && exists k :: 0 <= k < |layout.float| && layout.float[k].Panel? && t in layout.float[k].tabs
    ensures |layout.float| == 0 ==> SweepMoves(layout) == []
  {
    if |layout.float| > 0 && |layout.dock| > 0 {
      var ft := FloatTabs(layout.float);
      var ms := SweepMoves(layout);
      if DockMove(t, target) in ms {
        var k :| 0 <= k < |ms| && ms[k] == DockMove(t, target);
        assert t in ft;
      }
      if t in ft && target == layout.dock[0].id {
        var k :| 0 <= k < |ft| && ft[k] == t;
        assert ms[k] == DockMove(t, target);
      }
    }
  }

  /** `toAll ? sessions.map(s => s.id) : activeId ? [activeId] : []`. */
  function Targets(toAll: bool, sessions: seq<Session>, activeId: Option<string>): (r: seq<string>)
    ensures toAll ==> |r| == |sessions| && forall k :: 0 <= k < |r| ==> r[k] == sessions[k].id
    ensures !toAll ==> r == if activeId.Some? && activeId.value != "" then [activeId.value] else []
  {
    if toAll then seq(|sessions|, k requires 0 <= k < |sessions| => sessions[k].id)
    else if activeId.Some? && activeId.value != "" then [activeId.value]
    else []
  }

  predicate NoneFailing(targets: seq<string>, failing: set<string>) {
    forall k :: 0 <= k < |targets| ==> targets[k] !in failing
  }

  /** The targets a broadcast reaches: all of them up to and including the first whose send throws. */
  function Delivered(targets: seq<string>, failing: set<string>): (r: seq<string>)
    ensures |r| <= |targets| && r == targets[..|r|]
    ensures NoneFailing(targets, failing) ==> r == targets
    ensures !NoneFailing(targets, failing) ==> r != [] && r[|r| - 1] in failing
    ensures forall k :: 0 <= k < |r| - 1 ==> r[k] !in failing
  {
    if targets == [] then []
    else if targets[0] in failing then [targets[0]]
    else [targets[0]] + Delivered(targets[1..], failing)
  }

  /** The first `i` targets all went through, so the next one is reached too. */
  lemma {:induction false} DeliveredStep(targets: seq<string>, failing: set<string>, i: nat)
    requires i < |targets| && forall k :: 0 <= k < i ==> targets[k] !in failing
    ensures i + 1 <= |Delivered(targets, failing)| && Delivered(targets, failing)[..i + 1] == targets[..i + 1]
    ensures targets[i] in failing ==> Delivered(targets, failing) == targets[..i + 1]
  {
    if i > 0 {
      DeliveredStep(targets[1..], failing, i - 1);
      assert targets[1..][..i] == targets[1..i + 1];
    }
  }

  function SendsFor(targets: seq<string>, text: string): (r: seq<Call>)
    ensures |r| == |targets| && forall k :: 0 <= k < |targets| ==> r[k] == SendCall(targets[k], text + "\r")
  {
    seq(|targets|, k requires 0 <= k < |targets| => SendCall(targets[k], text + "\r"))
  }

  /** The send loop of `sendBroadcast`: one send per target in order,
      stopping after the first send that throws. */
  method Broadcast(targets: seq<string>, failing: set<string>, text: string) returns (out: seq<Call>, failed: bool)
    ensures out == SendsFor(Delivered(targets, failing), text)
    ensures failed <==> !NoneFailing(targets, failing)
  {
    out := [];
    failed := false;
    var i := 0;
    while i < |targets| && !failed
      invariant 0 <= i <= |targets|
      invariant out == SendsFor(targets[..i], text)
      invariant !failed ==> forall k :: 0 <= k < i ==> targets[k] !in failing
      invariant failed ==> targets[..i] == Delivered(targets, failing) && !NoneFailing(targets, failing)
    {
      DeliveredStep(targets, failing, i);
      SendsForSnoc(targets, i, text);
      out := out + [SendCall(targets[i], text + "\r")];
      failed := targets[i] in failing;
      i := i + 1;
    }
    if !failed {
      assert targets[..i] == targets;
    }
  }

  lemma SendsForSnoc(targets: seq<string>, i: nat, text: string)
    requires i < |targets|
    ensures SendsFor(targets[..i + 1], text) == SendsFor(targets[..i], text) + [SendCall(targets[i], text + "\r")]
  {
    assert targets[..i + 1] == targets[..i] + [targets[i]];
  }

  /** With every target open, a broadcast to all reaches only open sessions. */
  lemma TargetsAreSessions(toAll: bool, sessions: seq<Session>, activeId: Option<string>)
    requires activeId.Some? ==> HasSession(sessions, activeId.value)
    ensures forall t :: t in Targets(toAll, sessions, activeId) ==> HasSession(sessions, t)
  {
    var r := Targets(toAll, sessions, activeId);
    forall t | t in r ensures HasSession(sessions, t) {
      var k :| 0 <= k < |r| && r[k] == t;
      if toAll { assert sessions[k].id == t; }
    }
  }

  // ---------------------------------------------------------------------
  // Recording switch
  // ---------------------------------------------------------------------

  /** `!!recording[id]`: a missing entry means off. */
  predicate RecOn(rec: map<string, bool>, id: string) {
    id in rec && rec[id]
  }

  /** The recording map after switching `id`'s entry. */
  function Flip(rec: map<string, bool>, id: string): (r: map<string, bool>)
    ensures RecOn(r, id) == !RecOn(rec, id)
    ensures forall k :: k != id ==> RecOn(r, k) == RecOn(rec, k)
  {
    rec[id := !RecOn(rec, id)]
  }

  /** Switching twice restores every session's recording state. */
  lemma FlipTwice(rec: map<string, bool>, id: string, k: string)
    ensures RecOn(Flip(Flip(rec, id), id), k) == RecOn(rec, k)
  {
  }

  // ---------------------------------------------------------------------
  // The window
  // ---------------------------------------------------------------------

  /** What `connect` reads and changes: the tabs, the active tab, the error
      and alert, whether the dialog is open, the host being edited, the
      sidebar's hosts and the backend calls made. */
  datatype ConnectView = ConnectView(
    sessions: seq<Session>, activeId: Option<string>, error: Option<string>, alert: Option<string>,
    connectOpen: bool, editing: Option<Sidebar.HostItem>, hosts: seq<Sidebar.HostItem>, calls: seq<Call>)

  /** The outcome of `connect` from view `v`: the error is cleared and
      `StartSSH` called; a failure shows the error and its advice. */
  function AfterConnect(v: ConnectView, override: Option<TermManager.SshParams>, form: Form, started: Result<string>,
                        layout: Layout, saved: bool, listed: Option<seq<Profiles.HostProfile>>): (w: ConnectView)
    ensures |w.calls| > |v.calls| && w.calls[..|v.calls| + 1] == v.calls + [StartSshCall(ParamsFor(override, form))]
    ensures started.Ok? ==>
      w.sessions == v.sessions + [Session(started.value, Title(ParamsFor(override, form)))]
      && w.activeId == Some(started.value) && !w.connectOpen && w.error == None && w.alert == v.alert
    ensures started.Err? ==>
      w.sessions == v.sessions && w.activeId == v.activeId && w.connectOpen == v.connectOpen
      && w.error == Some(started.error) && w.alert == Some(AlertText(started.error, form))
      && w.calls == v.calls + [StartSshCall(ParamsFor(override, form))]
  {
    var tried := v.(error := None, calls := v.calls + [StartSshCall(ParamsFor(override, form))]);
    if started.Err? then tried.(error := Some(started.error), alert := Some(AlertText(started.error, form)))
    else AfterStarted(tried, override, form, started.value, layout, saved, listed)
  }

  /** After `StartSSH` returned `id`: the new tab is added and made active,
      the dialog closes, and the follow-up calls are made; a successful save
      reloads the hosts and ends the editing. */
  function AfterStarted(v: ConnectView, override: Option<TermManager.SshParams>, form: Form, id: string,
                        layout: Layout, saved: bool, listed: Option<seq<Profiles.HostProfile>>): ConnectView
  {
    var reload := SaveGate(override, form, v.editing) && saved;
    v.(sessions := v.sessions + [Session(id, Title(ParamsFor(override, form)))], activeId := Some(id),
       connectOpen := false,
       editing := if reload then None else v.editing,
       hosts := if reload && listed.Some? then ToHostItems(listed.value) else v.hosts,
       calls := v.calls + AfterStart(override, form, id, layout, v.editing, v.hosts, saved))
  }

  class App {
    var sessions: seq<Session>
    var activeId: Option<string>
    var error: Option<string>
    var alert: Option<string>
    var connectOpen: bool
    var connecting: bool
    var editing: Option<Sidebar.HostItem>
    var hosts: seq<Sidebar.HostItem>
    var broadcast: string
    var toAll: bool
    var recording: map<string, bool>
    var withLineNumbers: bool
    var calls: seq<Call>

    /** The active tab, when there is one, is an open session. */
    ghost predicate Valid()
      reads this`sessions, this`activeId
    {
      activeId.Some? ==> HasSession(sessions, activeId.value)
    }

    constructor ()
      ensures Valid()
      ensures sessions == [] && activeId == None && error == None && alert == None
      ensures connectOpen && !connecting && editing == None && hosts == []
      ensures broadcast == "" && toAll && recording == map[] && !withLineNumbers && calls == []
    {
      sessions := [];
      activeId := None;
      error := None;
      alert := None;
      connectOpen := true;
      connecting := false;
      editing := None;
      hosts := [];
      broadcast := "";
      toAll := true;
      recording := map[];
      withLineNumbers := false;
      calls := [];
    }

    /** The part of the window `connect` changes. */
    function Screen(): ConnectView
      reads this`sessions, this`activeId, this`error, this`alert, this`connectOpen, this`editing, this`hosts, this`calls
    {
      ConnectView(sessions, activeId, error, alert, connectOpen, editing, hosts, calls)
    }

    /** `connect`: start the session; on success add its tab and make it
        active, then (each failure ignored) dock the tab, save and reload the
        profile, and start the local forward; on failure show the error with
        its advice. `started` is what `StartSSH` returns, `saved` whether
        `SaveProfile` succeeds, `listed` what the reload returns. */
    method Connect(override: Option<TermManager.SshParams>, form: Form, started: Result<string>, layout: Layout,
                   saved: bool, listed: Option<seq<Profiles.HostProfile>>)
      requires Valid()
      modifies this`connecting, this`sessions, this`activeId, this`error, this`alert, this`connectOpen
      modifies this`editing, this`hosts, this`calls
      ensures Valid()
      ensures !connecting
      ensures Screen() == AfterConnect(old(Screen()), override, form, started, layout, saved, listed)
    {
      connecting := true;
      error := None;
      calls := calls + [StartSshCall(ParamsFor(override, form))];
      if started.Err? {
        Failed(started.error, form);
      } else {
        Started(override, form, started.value, layout, saved, listed);
      }
      connecting := false;
    }

    /** The catch branch of `connect`: the error and the alert with its advice. */
    method Failed(msg: string, form: Form)
      modifies this`error, this`alert
      ensures error == Some(msg) && alert == Some(AlertText(msg, form))
    {
      error := Some(msg);
      alert := Some(AlertText(msg, form));
    }

    /** The rest of `connect` once `StartSSH` returned `id`. */
    method Started(override: Option<TermManager.SshParams>, form: Form, id: string, layout: Layout,
                   saved: bool, listed: Option<seq<Profiles.HostProfile>>)
      requires Valid()
      modifies this`sessions, this`activeId, this`connectOpen, this`editing, this`hosts, this`calls
      ensures Valid()
      ensures Screen() == AfterStarted(old(Screen()), override, form, id, layout, saved, listed)
    {
      Opened(id, Title(ParamsFor(override, form)));
      FollowUp(override, form, id, layout, saved, listed);
    }

    /** A started session becomes a tab, the active one, and the dialog closes. */
    method Opened(id: string, title: string)
      requires Valid()
      modifies this`sessions, this`activeId, this`connectOpen
      ensures Valid()
      ensures sessions == old(sessions) + [Session(id, title)] && activeId == Some(id) && !connectOpen
    {
      sessions := sessions + [Session(id, title)];
      assert sessions[|sessions| - 1].id == id;
      activeId := Some(id);
      connectOpen := false;
    }

    /** What `connect` does after `StartSSH` succeeds, each failure ignored:
        dock the tab, save the profile and reload the list, start the forward. */
    method FollowUp(override: Option<TermManager.SshParams>, form: Form, id: string, layout: Layout,
                    saved: bool, listed: Option<seq<Profiles.HostProfile>>)
      modifies this`calls, this`hosts, this`editing
      ensures calls == old(calls) + AfterStart(override, form, id, layout, old(editing), old(hosts), saved)
      ensures SaveGate(override, form, old(editing)) && saved ==>
        editing == None && hosts == (if listed.Some? then ToHostItems(listed.value) else old(hosts))
      ensures !(SaveGate(override, form, old(editing)) && saved) ==> editing == old(editing) && hosts == old(hosts)
    {
      ghost var ed0, hs0 := editing, hosts;
      var out: seq<Call> := [];
      if |layout.dock| > 0 {
        out := out + [DockMove(id, layout.dock[0].id)];
      }
      if SaveGate(override, form, editing) {
        out := out + [SaveProfileCall(Draft(form, ProfileId(form, editing, hosts)))];
        if saved {
          out := out + [ListProfilesCall];
          if listed.Some? {
            hosts := ToHostItems(listed.value);
          }
          editing := None;
        }
      }
      assert out == DockCalls(id, layout) + SaveCalls(override, form, ed0, hs0, saved);
      if ForwardGate(override, form) {
        out := out + [LocalForwardCall(id, OrLoopback(form.tunLHost), form.tunLPort, OrLoopback(form.tunRHost), form.tunRPort)];
      }
      calls := calls + out;
    }

    /** `closeTab`: close the backend session, drop every session with that
        id, and clear the active tab only if it was that one. */
    method CloseTab(id: string)
      requires Valid()
      modifies this`calls, this`sessions, this`activeId
      ensures Valid()
      ensures calls == old(calls) + [CloseCall(id)]
      ensures sessions == DropIds(old(sessions), {id})
      ensures activeId == if old(activeId) == Some(id) then None else old(activeId)
    {
      calls := calls + [CloseCall(id)];
      if activeId.Some? && activeId.value != id {
        DropIdsHas(sessions, {id}, activeId.value);
      }
      sessions := DropIds(sessions, {id});
      if activeId == Some(id) {
        activeId := None;
      }
    }

    /** `handleLayoutChange`: with a floating box, nothing; otherwise close
        every session whose tab is no longer in the docked layout. */
    method LayoutChanged(newLayout: Layout)
      requires Valid()
      modifies this`calls, this`sessions, this`activeId
      ensures Valid()
      ensures |newLayout.float| > 0 ==> sessions == old(sessions) && activeId == old(activeId) && calls == old(calls)
      ensures |newLayout.float| == 0 ==>
        sessions == KeepIds(old(sessions), TabIdsAll(newLayout.dock))
        && calls == old(calls) + CloseCalls(old(sessions), TabIdsAll(newLayout.dock))
        && activeId == (if old(activeId).Some? && old(activeId).value !in TabIdsAll(newLayout.dock) then None
                        else old(activeId))
    {
      if |newLayout.float| > 0 {
        return;
      }
      var ids := TabIdsAll(newLayout.dock);
      ghost var snapshot := sessions;
      CloseAbsent(ids);
      ClosedExactly(snapshot, ids);
      DropComplement(snapshot, ids, Closed(snapshot, ids));
    }

    /** The loop of `handleLayoutChange`: `closeTab` for each session, in
        order, whose id is not in `ids`. */
    method CloseAbsent(ids: set<string>)
      requires Valid()
      modifies this`calls, this`sessions, this`activeId
      ensures Valid()
      ensures sessions == DropIds(old(sessions), Closed(old(sessions), ids))
      ensures calls == old(calls) + CloseCalls(old(sessions), ids)
      ensures activeId == (if old(activeId).Some? && old(activeId).value in Closed(old(sessions), ids) then None
                           else old(activeId))
    {
      var snapshot := sessions;
      DropIdsNone(snapshot);
      assert snapshot[..0] == [];
      ghost var gone: set<string> := {};
      var i := 0;
      while i < |snapshot|
        invariant 0 <= i <= |snapshot|
        invariant Valid()
        invariant gone == Closed(snapshot[..i], ids)
        invariant sessions == DropIds(snapshot, gone)
        invariant calls == old(calls) + CloseCalls(snapshot[..i], ids)
        invariant activeId == (if old(activeId).Some? && old(activeId).value in gone then None else old(activeId))
      {
        ClosedStep(snapshot, i, ids);
        if snapshot[i].id !in ids {
          DropIdsTwice(snapshot, gone, {snapshot[i].id});
          assert old(calls) + CloseCalls(snapshot[..i + 1], ids)
              == (old(calls) + CloseCalls(snapshot[..i], ids)) + [CloseCall(snapshot[i].id)];
          CloseTab(snapshot[i].id);
          gone := gone + {snapshot[i].id};
        }
        i := i + 1;
      }
      assert snapshot[..i] == snapshot;
    }

    /** One run of the float sweep over the layout the library reports. */
    method FloatSweep(layout: Layout)
      modifies this`calls
      ensures calls == old(calls) + SweepMoves(layout)
    {
      if |layout.float| > 0 {
        var floating := FloatTabs(layout.float);
        var i := 0;
        while i < |floating|
          invariant 0 <= i <= |floating|
          invariant calls == old(calls) + (if |layout.dock| > 0 then MovesTo(floating[..i], layout.dock[0].id) else [])
        {
          if |layout.dock| > 0 {
            assert MovesTo(floating[..i + 1], layout.dock[0].id)
                == MovesTo(floating[..i], layout.dock[0].id) + [DockMove(floating[i], layout.dock[0].id)];
            calls := calls + [DockMove(floating[i], layout.dock[0].id)];
          }
          i := i + 1;
        }
        assert floating[..i] == floating;
      }
    }

    /** `sendBroadcast`: send the line plus a carriage return to each target
        in order; a send that throws ends the loop and the line is kept;
        otherwise the line is cleared. `failing` are the ids whose send throws. */
    method SendBroadcast(failing: set<string>)
      modifies this`calls, this`broadcast
      ensures old(broadcast) == "" ==> calls == old(calls) && broadcast == old(broadcast)
      ensures old(broadcast) != "" ==>
        var targets := Targets(toAll, sessions, activeId);
        calls == old(calls) + SendsFor(Delivered(targets, failing), old(broadcast))
        && broadcast == (if NoneFailing(targets, failing) then "" else old(broadcast))
    {
      var text := broadcast;
      if text == "" {
        return;
      }
      var targets := Targets(toAll, sessions, activeId);
      var out, failed := Broadcast(targets, failing, text);
      calls := calls + out;
      if !failed {
        broadcast := "";
      }
    }

    /** `toggleRecording`: with an active tab, stop or start its recording
        and, when the backend call succeeds, flip its entry. */
    method ToggleRecording(ok: bool)
      modifies this`calls, this`recording
      ensures activeId.None? || activeId.value == "" ==> calls == old(calls) && recording == old(recording)
      ensures activeId.Some? && activeId.value != "" ==>
        var a := activeId.value;
        calls == old(calls) + [if RecOn(old(recording), a) then StopRecordingCall(a) else StartRecordingCall(a, "", withLineNumbers)]
        && recording == (if ok then Flip(old(recording), a) else old(recording))
    {
      if activeId.None? || activeId.value == "" {
        return;
      }
      var a := activeId.value;
      if RecOn(recording, a) {
        calls := calls + [StopRecordingCall(a)];
        if ok {
          recording := recording[a := false];
        }
      } else {
        calls := calls + [StartRecordingCall(a, "", withLineNumbers)];
        if ok {
          recording := recording[a := true];
        }
      }
    }
  }

  /** The ids `handleLayoutChange` closes, in session order. */
  function Absent(ss: seq<Session>, ids: set<string>): seq<string> {
    if ss == [] then []
    else Absent(ss[..|ss| - 1], ids) + (if ss[|ss| - 1].id !in ids then [ss[|ss| - 1].id] else [])
  }

  function Closed(ss: seq<Session>, ids: set<string>): set<string> {
    set x | x in Absent(ss, ids)
  }

  /** The `closeSSH` calls `handleLayoutChange` makes, in session order. */
  function CloseCalls(ss: seq<Session>, ids: set<string>): seq<Call> {
    var a := Absent(ss, ids);
    seq(|a|, k requires 0 <= k < |a| => CloseCall(a[k]))
  }

  lemma ClosedSnoc(ss: seq<Session>, s: Session, ids: set<string>)
    ensures Absent(ss + [s], ids) == Absent(ss, ids) + (if s.id !in ids then [s.id] else [])
    ensures Closed(ss + [s], ids) == Closed(ss, ids) + (if s.id !in ids then {s.id} else {})
    ensures CloseCalls(ss + [s], ids) == CloseCalls(ss, ids) + (if s.id !in ids then [CloseCall(s.id)] else [])
  {
    assert (ss + [s])[..|ss|] == ss;
  }

  lemma ClosedStep(ss: seq<Session>, i: nat, ids: set<string>)
    requires i < |ss|
    ensures Closed(ss[..i + 1], ids) == Closed(ss[..i], ids) + (if ss[i].id !in ids then {ss[i].id} else {})
    ensures CloseCalls(ss[..i + 1], ids) == CloseCalls(ss[..i], ids) + (if ss[i].id !in ids then [CloseCall(ss[i].id)] else [])
  {
    assert ss[..i + 1] == ss[..i] + [ss[i]];
    ClosedSnoc(ss[..i], ss[i], ids);
  }

  /** A session's id is closed exactly when its tab is gone. */
  lemma {:induction false} ClosedExactly(ss: seq<Session>, ids: set<string>)
    ensures forall k :: 0 <= k < |ss| ==> (ss[k].id in Closed(ss, ids) <==> ss[k].id !in ids)
  {
    if ss != [] {
      var init := ss[..|ss| - 1];
      ClosedExactly(init, ids);
      ClosedSnoc(init, ss[|ss| - 1], ids);
      assert init + [ss[|ss| - 1]] == ss;
      forall x | x in Closed(ss, ids) ensures x !in ids {
        ClosedOutside(ss, ids, x);
      }
    }
  }

  lemma {:induction false} ClosedOutside(ss: seq<Session>, ids: set<string>, x: string)
    requires x in Closed(ss, ids)
    ensures x !in ids
  {
    if ss != [] {
      var init := ss[..|ss| - 1];
      if x in Closed(init, ids) {
        ClosedOutside(init, ids, x);
      }
    }
  }
}
