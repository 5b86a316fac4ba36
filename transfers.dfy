/** The file manager (file_manager.go): the table of uploads and downloads,
    the worker that copies one transfer chunk by chunk, cancellation, the
    remote directory listing and remote delete.

    The SFTP client, the local file system and the clock are outside the
    model: what each call answers is a parameter. A worker run is given as
    the outcomes of its setup calls and the sequence of chunks its copy loop
    sees, each chunk saying whether the cancel signal was already there,
    how many bytes were read, whether writing them failed and how the read
    ended. */
module Transfers {
  import opened Outcome
  import opened Text
  import opened GoPath

  datatype Kind = Upload | Download

  datatype Status = Running | Completed | Failed | Cancelled

  function StatusText(s: Status): string {
    match s
    case Running => "running"
    case Completed => "completed"
    case Failed => "failed"
    case Cancelled => "cancelled"
  }

  /** One entry of the transfer table. */
  datatype Transfer = Transfer(
    id: string, sessionId: string, kind: Kind, localPath: string, remotePath: string,
    size: int, transferred: int, status: Status, error: string)

  const NoSession := "会话不存在"
  const NoTransfer := "传输任务不存在"
  const DirectoryDownload := "不支持下载目录，请选择单个文件下载"
  const StatLocalFailed := "无法读取本地文件: "
  const ClientFailed := "创建SFTP客户端失败: "
  const StatRemoteFailed := "无法读取远程文件信息: "
  const ReadDirFailed := "读取目录失败: "
  const RemoteStatFailed := "获取文件信息失败: "

  /** The id of a new transfer: its kind and the registration time in nanoseconds. */
  function TransferId(kind: Kind, nanos: int): string {
    (if kind == Upload then "upload-" else "download-") + IntToString(nanos)
  }

  /** A freshly registered transfer: running, nothing copied yet. */
  function NewTransfer(kind: Kind, nanos: int, sessionId: string, localPath: string, remotePath: string, size: int): (t: Transfer)
    ensures t.status == Running && t.transferred == 0 && t.error == ""
    ensures t.id == TransferId(kind, nanos) && t.kind == kind && t.size == size
  {
    Transfer(TransferId(kind, nanos), sessionId, kind, localPath, remotePath, size, 0, Running, "")
  }

  // ---------------------------------------------------------------------
  // The worker (doUpload / doDownload)
  // ---------------------------------------------------------------------

  /** The messages a worker records, by kind, for its setup calls in their
      order, then for a failed write and a failed read. */
  function SetupMessages(kind: Kind): seq<string> {
    if kind == Upload then ["创建SFTP客户端失败: ", "打开本地文件失败: ", "创建远程文件失败: "]
    else ["创建SFTP客户端失败: ", "打开远程文件失败: ", "创建本地目录失败: ", "创建本地文件失败: "]
  }

  function WriteMessage(kind: Kind): string {
    if kind == Upload then "写入远程文件失败: " else "写入本地文件失败: "
  }

  function ReadMessage(kind: Kind): string {
    if kind == Upload then "读取本地文件失败: " else "读取远程文件失败: "
  }

  /** The error of the first setup call that fails, with its message; a
      missing outcome is a call that succeeds. */
  function SetupFault(kind: Kind, outcomes: seq<Option<string>>): (r: Option<string>)
    ensures r.None? <==> forall k :: 0 <= k < |SetupMessages(kind)| && k < |outcomes| ==> outcomes[k].None?
  {
    SetupFaultFrom(SetupMessages(kind), outcomes)
  }

  function SetupFaultFrom(messages: seq<string>, outcomes: seq<Option<string>>): (r: Option<string>)
    ensures r.None? <==> forall k :: 0 <= k < |messages| && k < |outcomes| ==> outcomes[k].None?
    ensures r.Some? ==> exists k :: 0 <= k < |messages| && k < |outcomes| && outcomes[k].Some?
                          && r.value == messages[k] + outcomes[k].value
  {
    if messages == [] || outcomes == [] then None
    else if outcomes[0].Some? then Some(messages[0] + outcomes[0].value)
    else
      var r := SetupFaultFrom(messages[1..], outcomes[1..]);
      assert forall k :: 1 <= k < |messages| && k < |outcomes| ==>
        messages[k] == messages[1..][k - 1] && outcomes[k] == outcomes[1..][k - 1];
      if r.Some? then
        var k :| 0 <= k < |messages[1..]| && k < |outcomes[1..]| && outcomes[1..][k].Some?
                 && r.value == messages[1..][k] + outcomes[1..][k].value;
        assert outcomes[k + 1] == outcomes[1..][k] && messages[k + 1] == messages[1..][k];
        r
      else r
  }

  datatype ReadEnd = More | Eof | ReadError(detail: string)

  /** One pass of the copy loop. */
  datatype Chunk = Chunk(cancelled: bool, n: nat, writeError: Option<string>, end: ReadEnd)

  /** The transfer after some passes, and whether the loop has left. */
  datatype Progress = Progress(t: Transfer, done: bool)

  /** One pass: the cancel check at the loop head, then the write of the
      bytes read (when there are any) and the count, then the read's end. */
  function Step(t: Transfer, c: Chunk): Progress {
    if c.cancelled then Progress(t.(status := Cancelled), true)
    else if c.n > 0 && c.writeError.Some? then
      Progress(t.(status := Failed, error := WriteMessage(t.kind) + c.writeError.value), true)
    else
      var counted := t.(transferred := t.transferred + c.n);
      match c.end
      case More => Progress(counted, false)
      case Eof => Progress(counted, true)
      case ReadError(e) => Progress(counted.(status := Failed, error := ReadMessage(t.kind) + e), true)
  }

  /** The copy loop over the chunks it sees, up to the pass that leaves it. */
  function Copy(t: Transfer, chunks: seq<Chunk>): Progress
    decreases |chunks|
  {
    if chunks == [] then Progress(t, false)
    else
      var p := Step(t, chunks[0]);
      if p.done then p else Copy(p.t, chunks[1..])
  }

  /** The deferred finalizer: only a running transfer becomes completed. */
  function Finalize(t: Transfer): Transfer {
    if t.status == Running then t.(status := Completed) else t
  }

  /** A whole worker run: a failing setup call fails the transfer, otherwise
      the copy loop runs, and the finalizer runs once the worker returns. A
      copy loop that has not left yet leaves the transfer running. */
  function Worker(t: Transfer, setup: seq<Option<string>>, chunks: seq<Chunk>): Transfer {
    match SetupFault(t.kind, setup)
    case Some(e) => Finalize(t.(status := Failed, error := e))
    case None =>
      var p := Copy(t, chunks);
      if p.done then Finalize(p.t) else p.t
  }

  /** A pass that neither stops nor is cancelled. */
  predicate Quiet(c: Chunk) {
    !c.cancelled && (c.n == 0 || c.writeError.None?) && c.end == More
  }

  /** The bytes the chunks carry. */
  function Total(chunks: seq<Chunk>): nat {
    if chunks == [] then 0 else Total(chunks[..|chunks| - 1]) + chunks[|chunks| - 1].n
  }

  /** The copy loop only touches status, error and the count, and the count
      only grows. */
  lemma {:induction false} CopyFrame(t: Transfer, chunks: seq<Chunk>)
    ensures var r := Copy(t, chunks).t;
      r.(status := t.status, error := t.error, transferred := t.transferred) == t
      && r.transferred >= t.transferred
    decreases |chunks|
  {
    if chunks != [] && !Step(t, chunks[0]).done {
      CopyFrame(Step(t, chunks[0]).t, chunks[1..]);
    }
  }

  /** Seen at any moment, the count never goes down: the loop after a
      prefix of its chunks has counted no more than after all of them. */
  lemma {:induction false} CopyMonotone(t: Transfer, chunks: seq<Chunk>, k: nat)
    requires k <= |chunks|
    ensures Copy(t, chunks[..k]).t.transferred <= Copy(t, chunks).t.transferred
    decreases k
  {
    if k == 0 {
      assert chunks[..0] == [];
      CopyFrame(t, chunks);
    } else {
      var p := Step(t, chunks[0]);
      assert chunks[..k][0] == chunks[0] && chunks[..k][1..] == chunks[1..][..k - 1];
      if !p.done {
        CopyMonotone(p.t, chunks[1..], k - 1);
      }
    }
  }

  /** Quiet passes add exactly their bytes and keep the loop going. */
  lemma {:induction false} CopyClean(t: Transfer, chunks: seq<Chunk>)
    requires forall k :: 0 <= k < |chunks| ==> Quiet(chunks[k])
    ensures Copy(t, chunks) == Progress(t.(transferred := t.transferred + Total(chunks)), false)
    decreases |chunks|
  {
    if chunks != [] {
      var init, last := chunks[..|chunks| - 1], chunks[|chunks| - 1];
      CopyClean(t, init);
      CopySnoc(t, init, last);
      assert chunks == init + [last];
    }
  }

  /** The loop over one more chunk, when it had not left before it. */
  lemma {:induction false} CopySnoc(t: Transfer, init: seq<Chunk>, c: Chunk)
    requires !Copy(t, init).done
    ensures Copy(t, init + [c]) == Step(Copy(t, init).t, c)
    decreases |init|
  {
    if init == [] {
      assert ([] + [c])[1..] == [];
    } else {
      assert (init + [c])[1..] == init[1..] + [c];
      CopySnoc(Step(t, init[0]).t, init[1..], c);
    }
  }

  /** The loop after quiet passes then one more: its outcome is that pass's. */
  lemma CopyAfterClean(t: Transfer, chunks: seq<Chunk>, c: Chunk, rest: seq<Chunk>)
    requires forall k :: 0 <= k < |chunks| ==> Quiet(chunks[k])
    requires Step(t.(transferred := t.transferred + Total(chunks)), c).done
    ensures Copy(t, chunks + [c] + rest) == Step(t.(transferred := t.transferred + Total(chunks)), c)
  {
    CopyClean(t, chunks);
    CopySnoc(t, chunks, c);
    CopyPrefixDone(t, chunks + [c], rest);
  }

  /** Chunks after the pass that leaves the loop change nothing. */
  lemma {:induction false} CopyPrefixDone(t: Transfer, init: seq<Chunk>, rest: seq<Chunk>)
    requires Copy(t, init).done
    ensures Copy(t, init + rest) == Copy(t, init)
    decreases |init|
  {
    assert init != [];
    assert (init + rest)[0] == init[0] && (init + rest)[1..] == init[1..] + rest;
    if !Step(t, init[0]).done {
      CopyPrefixDone(Step(t, init[0]).t, init[1..], rest);
    }
  }

  /** The finalizer never overrides a failed or cancelled transfer, and
      never leaves one running. */
  lemma FinalizeStatus(t: Transfer)
    ensures Finalize(t).status != Running
    ensures t.status != Running ==> Finalize(t) == t
    ensures Finalize(t).(status := t.status) == t
  {
  }

  /** The loop over quiet passes then an end of file counts every byte and leaves. */
  lemma CopyToEof(t: Transfer, chunks: seq<Chunk>, last: nat, rest: seq<Chunk>)
    requires forall k :: 0 <= k < |chunks| ==> Quiet(chunks[k])
    ensures Copy(t, chunks + [Chunk(false, last, None, Eof)] + rest)
         == Progress(t.(transferred := t.transferred + Total(chunks) + last), true)
  {
    var c := Chunk(false, last, None, Eof);
    var before := t.(transferred := t.transferred + Total(chunks));
    assert Step(before, c) == Progress(before.(transferred := before.transferred + last), true);
    CopyAfterClean(t, chunks, c, rest);
  }

  /** The loop over quiet passes then a cancelled one leaves as cancelled. */
  lemma CopyToCancel(t: Transfer, chunks: seq<Chunk>, c: Chunk, rest: seq<Chunk>)
    requires forall k :: 0 <= k < |chunks| ==> Quiet(chunks[k])
    requires c.cancelled
    ensures Copy(t, chunks + [c] + rest)
         == Progress(t.(transferred := t.transferred + Total(chunks), status := Cancelled), true)
  {
    var before := t.(transferred := t.transferred + Total(chunks));
    assert Step(before, c) == Progress(before.(status := Cancelled), true);
    CopyAfterClean(t, chunks, c, rest);
  }

  /** A run whose setup succeeds and whose quiet passes end in an end of
      file completes with every byte counted. */
  lemma WorkerCompletes(t: Transfer, setup: seq<Option<string>>, chunks: seq<Chunk>, last: nat, rest: seq<Chunk>)
    requires t.status == Running
    requires SetupFault(t.kind, setup).None?
    requires forall k :: 0 <= k < |chunks| ==> Quiet(chunks[k])
    ensures Worker(t, setup, chunks + [Chunk(false, last, None, Eof)] + rest)
         == t.(status := Completed, transferred := t.transferred + Total(chunks) + last)
  {
    CopyToEof(t, chunks, last, rest);
  }

  /** A cancel seen at the head of a pass stops the run as cancelled: the
      bytes before it stay counted and nothing after it is copied. */
  lemma WorkerCancelled(t: Transfer, setup: seq<Option<string>>, chunks: seq<Chunk>, c: Chunk, rest: seq<Chunk>)
    requires SetupFault(t.kind, setup).None?
    requires forall k :: 0 <= k < |chunks| ==> Quiet(chunks[k])
    requires c.cancelled
    ensures Worker(t, setup, chunks + [c] + rest)
         == t.(status := Cancelled, transferred := t.transferred + Total(chunks))
  {
    CopyToCancel(t, chunks, c, rest);
  }

  /** A failing setup call fails the run before anything is copied. */
  lemma WorkerSetupFails(t: Transfer, setup: seq<Option<string>>, chunks: seq<Chunk>)
    requires SetupFault(t.kind, setup).Some?
    ensures var r := Worker(t, setup, chunks);
      r.status == Failed && r.transferred == t.transferred
      && r.error == SetupFault(t.kind, setup).value
  {
  }

  /** A run that has returned is never running; one that has not is. */
  lemma WorkerStatus(t: Transfer, setup: seq<Option<string>>, chunks: seq<Chunk>)
    requires t.status == Running
    ensures var r := Worker(t, setup, chunks);
      r.status == Running <==> SetupFault(t.kind, setup).None? && !Copy(t, chunks).done
  {
    if SetupFault(t.kind, setup).None? && !Copy(t, chunks).done {
      CopyRunning(t, chunks);
    }
  }

  /** The loop sets no status before it leaves. */
  lemma {:induction false} CopyRunning(t: Transfer, chunks: seq<Chunk>)
    requires !Copy(t, chunks).done
    ensures Copy(t, chunks).t.status == t.status
    decreases |chunks|
  {
    if chunks != [] {
      CopyRunning(Step(t, chunks[0]).t, chunks[1..]);
    }
  }

  /** The copy loop of the worker, pass by pass. */
  method CopyLoop(t0: Transfer, chunks: seq<Chunk>) returns (t: Transfer, done: bool)
    ensures Progress(t, done) == Copy(t0, chunks)
  {
    t := t0;
    done := false;
    var i := 0;
    while i < |chunks| && !done
      invariant 0 <= i <= |chunks|
      invariant done ==> Progress(t, true) == Copy(t0, chunks)
      invariant !done ==> Copy(t, chunks[i..]) == Copy(t0, chunks)
    {
      var c := chunks[i];
      assert chunks[i..][0] == c && chunks[i..][1..] == chunks[i + 1..];
      if c.cancelled {
        t := t.(status := Cancelled);
        done := true;
      } else {
        if c.n > 0 {
          if c.writeError.Some? {
            t := t.(status := Failed, error := WriteMessage(t.kind) + c.writeError.value);
            done := true;
          } else {
            t := t.(transferred := t.transferred + c.n);
          }
        }
        if !done {
          match c.end
          case Eof =>
            done := true;
          case ReadError(e) =>
            t := t.(status := Failed, error := ReadMessage(t.kind) + e);
            done := true;
          case More =>
        }
      }
      i := i + 1;
    }
    if !done {
      assert chunks[i..] == [];
    }
  }

  /** The file manager: its transfer table and the transfers whose cancel
      has been invoked. */
  class FileManager {
    var transfers: map<string, Transfer>
    var cancelRequested: set<string>

    constructor ()
      ensures transfers == map[] && cancelRequested == {}
    {
      transfers := map[];
      cancelRequested := {};
    }

    /** `UploadFile`: the session must exist and the local file must be
        readable; the new transfer is registered running. */
    method UploadFile(live: set<string>, sessionId: string, localPath: string, remotePath: string,
                      localSize: Result<int>, nanos: int) returns (r: Result<string>)
      modifies this`transfers
      ensures sessionId !in live ==> r == Err(NoSession)
      ensures sessionId in live && localSize.Err? ==> r == Err(StatLocalFailed + localSize.error)
      ensures r.Err? ==> transfers == old(transfers)
      ensures sessionId in live && localSize.Ok? ==>
        var t := NewTransfer(Upload, nanos, sessionId, localPath, remotePath, localSize.value);
        r == Ok(t.id) && transfers == old(transfers)[t.id := t]
    {
      if sessionId !in live {
        return Err(NoSession);
      }
      if localSize.Err? {
        return Err(StatLocalFailed + localSize.error);
      }
      var t := NewTransfer(Upload, nanos, sessionId, localPath, remotePath, localSize.value);
      transfers := transfers[t.id := t];
      r := Ok(t.id);
    }

    /** `DownloadFile`: the session must exist, the SFTP client must open,
        the remote file must be readable and not a directory. */
    method DownloadFile(live: set<string>, sessionId: string, remotePath: string, localPath: string,
                        client: Option<string>, remoteStat: Result<(int, bool)>, nanos: int) returns (r: Result<string>)
      modifies this`transfers
      ensures sessionId !in live ==> r == Err(NoSession)
      ensures sessionId in live && client.Some? ==> r == Err(ClientFailed + client.value)
      ensures sessionId in live && client.None? && remoteStat.Err? ==> r == Err(StatRemoteFailed + remoteStat.error)
      ensures sessionId in live && client.None? && remoteStat.Ok? && remoteStat.value.1 ==> r == Err(DirectoryDownload)
      ensures r.Err? ==> transfers == old(transfers)
      ensures sessionId in live && client.None? && remoteStat.Ok? && !remoteStat.value.1 ==>
        var t := NewTransfer(Download, nanos, sessionId, localPath, remotePath, remoteStat.value.0);
        r == Ok(t.id) && transfers == old(transfers)[t.id := t]
    {
      if sessionId !in live {
        return Err(NoSession);
      }
      if client.Some? {
        return Err(ClientFailed + client.value);
      }
      if remoteStat.Err? {
        return Err(StatRemoteFailed + remoteStat.error);
      }
      if remoteStat.value.1 {
        return Err(DirectoryDownload);
      }
      var t := NewTransfer(Download, nanos, sessionId, localPath, remotePath, remoteStat.value.0);
      transfers := transfers[t.id := t];
      r := Ok(t.id);
    }

    /** `doUpload` / `doDownload` for the transfer `id`: the setup calls, the
        copy loop, then the finalizer once the loop has left. */
    method RunTransfer(id: string, setup: seq<Option<string>>, chunks: seq<Chunk>)
      requires id in transfers
      modifies this`transfers
      ensures transfers == old(transfers)[id := Worker(old(transfers)[id], setup, chunks)]
    {
      var t := transfers[id];
      var fault := SetupFault(t.kind, setup);
      if fault.Some? {
        t := t.(status := Failed, error := fault.value);
        t := Finalize(t);
      } else {
        var done;
        t, done := CopyLoop(t, chunks);
        if done {
          t := Finalize(t);
        }
      }
      transfers := transfers[id := t];
    }

    /** `CancelTransfer`: an unknown id is an error; otherwise the transfer's
        cancel is invoked, which its copy loop sees at its next pass. */
    method CancelTransfer(id: string) returns (err: Option<string>)
      modifies this`cancelRequested
      ensures id !in transfers ==> err == Some(NoTransfer) && cancelRequested == old(cancelRequested)
      ensures id in transfers ==> err == None && cancelRequested == old(cancelRequested) + {id}
    {
      if id !in transfers {
        return Some(NoTransfer);
      }
      cancelRequested := cancelRequested + {id};
      err := None;
    }
  }

  // ---------------------------------------------------------------------
  // Remote directory listing and delete
  // ---------------------------------------------------------------------

  /** What the SFTP server reports for one directory entry. */
  datatype DirEntry = DirEntry(name: string, size: int, mode: string, modTime: int, isDir: bool)

  datatype RemoteFile = RemoteFile(name: string, path: string, size: int, mode: string, modTime: int, isDir: bool)

  /** The directory listed for a requested path: an empty request means the
      working directory, or "/" when the server does not say. */
  function ListedDir(remotePath: string, wd: Result<string>): string {
    if remotePath != "" then remotePath
    else if wd.Ok? then wd.value
    else "/"
  }

  /** One listed entry: its full path is the cleaned join of the directory
      and its name. */
  function ToRemoteFile(dir: string, e: DirEntry): RemoteFile {
    RemoteFile(e.name, Clean(PathJoin(dir, e.name)), e.size, e.mode, e.modTime, e.isDir)
  }

  /** `ListRemoteDir`: one remote file per entry, in the server's order. */
  method ListRemoteDir(live: set<string>, sessionId: string, remotePath: string, client: Option<string>,
                       wd: Result<string>, entries: Result<seq<DirEntry>>) returns (r: Result<seq<RemoteFile>>)
    ensures sessionId !in live ==> r == Err(NoSession)
    ensures sessionId in live && client.Some? ==> r == Err(ClientFailed + client.value)
    ensures sessionId in live && client.None? && entries.Err? ==> r == Err(ReadDirFailed + entries.error)
    ensures sessionId in live && client.None? && entries.Ok? ==>
      r.Ok? && |r.value| == |entries.value|
      && forall k :: 0 <= k < |entries.value| ==> r.value[k] == ToRemoteFile(ListedDir(remotePath, wd), entries.value[k])
  {
    if sessionId !in live {
      return Err(NoSession);
    }
    if client.Some? {
      return Err(ClientFailed + client.value);
    }
    var dir := remotePath;
    if dir == "" {
      dir := if wd.Ok? then wd.value else "/";
    }
    if entries.Err? {
      return Err(ReadDirFailed + entries.error);
    }
    var files := ListEntries(name => Clean(PathJoin(dir, name)), entries.value);
    r := Ok(files);
  }

  /** The entry loop of `ListRemoteDir`, given how an entry's name becomes its full path. */
  method ListEntries(pathOf: string -> string, infos: seq<DirEntry>) returns (files: seq<RemoteFile>)
    ensures |files| == |infos|
    ensures forall k :: 0 <= k < |infos| ==>
      files[k] == RemoteFile(infos[k].name, pathOf(infos[k].name), infos[k].size, infos[k].mode, infos[k].modTime, infos[k].isDir)
  {
    files := [];
    var i := 0;
    while i < |infos|
      invariant 0 <= i <= |infos| && |files| == i
      invariant forall k :: 0 <= k < i ==>
        files[k] == RemoteFile(infos[k].name, pathOf(infos[k].name), infos[k].size, infos[k].mode, infos[k].modTime, infos[k].isDir)
    {
      var info := infos[i];
      files := files + [RemoteFile(info.name, pathOf(info.name), info.size, info.mode, info.modTime, info.isDir)];
      i := i + 1;
    }
  }

  /** Every listed path is the plain join of the directory and the name:
      the second clean changes nothing. */
  lemma ListedPathIsJoin(remotePath: string, wd: Result<string>, e: DirEntry)
    requires remotePath != "" || wd.Err? || wd.value != ""
    ensures ToRemoteFile(ListedDir(remotePath, wd), e).path == PathJoin(ListedDir(remotePath, wd), e.name)
  {
    CleanPathJoin(ListedDir(remotePath, wd), e.name);
  }

  /** The call `DeleteRemoteFile` makes. */
  datatype RemoteOp = RemoveDirectory(path: string) | Remove(path: string)

  /** `DeleteRemoteFile`: a directory is removed with `RemoveDirectory`,
      anything else with `Remove`; the call's error is returned. */
  method DeleteRemoteFile(live: set<string>, sessionId: string, remotePath: string, client: Option<string>,
                          isDir: Result<bool>, removeError: Option<string>) returns (op: Option<RemoteOp>, err: Option<string>)
    ensures sessionId !in live ==> op.None? && err == Some(NoSession)
    ensures sessionId in live && client.Some? ==> op.None? && err == Some(ClientFailed + client.value)
    ensures sessionId in live && client.None? && isDir.Err? ==> op.None? && err == Some(RemoteStatFailed + isDir.error)
    ensures sessionId in live && client.None? && isDir.Ok? ==>
      op == Some(if isDir.value then RemoveDirectory(remotePath) else Remove(remotePath)) && err == removeError
  {
    if sessionId !in live {
      return None, Some(NoSession);
    }
    if client.Some? {
      return None, Some(ClientFailed + client.value);
    }
    if isDir.Err? {
      return None, Some(RemoteStatFailed + isDir.error);
    }
    if isDir.value {
      op := Some(RemoveDirectory(remotePath));
    } else {
      op := Some(Remove(remotePath));
    }
    err := removeError;
  }
}
