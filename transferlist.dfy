/** The list of transfers the file panels show (FileBrowser.tsx and
    FileTransfer.tsx): an entry is appended when the backend starts a
    transfer, and each progress event replaces the progress of the entries
    with its id. */
module TransferList {
  import opened Outcome
  import Transfers

  /** A progress event. Its float percent and speed are not modelled. */
  datatype Progress = Progress(transferId: string, transferred: int, total: int, status: string, error: string)

  /** One row of the list; `progress` is null until the first event. */
  datatype Entry = Entry(id: string, kind: Transfers.Kind, localPath: string, remotePath: string, progress: Option<Progress>)

  /** A file handed to the page: Wails gives dropped files a `path`; when
      it is empty the name stands in for it. */
  datatype LocalFile = LocalFile(path: string, name: string)

  function LocalPath(f: LocalFile): string {
    if f.path != "" then f.path else f.name
  }

  /** The entry appended when a transfer starts. */
  function Started(id: string, kind: Transfers.Kind, localPath: string, remotePath: string): Entry {
    Entry(id, kind, localPath, remotePath, None)
  }

  /** The ids of the list, in order. */
  function Ids(list: seq<Entry>): (r: seq<string>)
    ensures |r| == |list| && forall i :: 0 <= i < |list| ==> r[i] == list[i].id
  {
    if list == [] then [] else [list[0].id] + Ids(list[1..])
  }

  /** A progress event for `id`: entries with that id take the new
      progress, every other entry and the order stay as they were. */
  function SetProgress(list: seq<Entry>, id: string, p: Progress): (r: seq<Entry>)
    ensures |r| == |list|
    ensures forall i :: 0 <= i < |list| && list[i].id != id ==> r[i] == list[i]
    ensures forall i :: 0 <= i < |list| && list[i].id == id ==> r[i] == list[i].(progress := Some(p))
  {
    if list == [] then []
    else [if list[0].id == id then list[0].(progress := Some(p)) else list[0]] + SetProgress(list[1..], id, p)
  }

  /** Progress events never change which transfers are listed, nor their order. */
  lemma SetProgressKeepsIds(list: seq<Entry>, id: string, p: Progress)
    ensures Ids(SetProgress(list, id, p)) == Ids(list)
  {
  }

  /** Only the latest event for an id is visible: a second event for the
      same id overrides the first. */
  lemma SetProgressLatestWins(list: seq<Entry>, id: string, p: Progress, q: Progress)
    ensures SetProgress(SetProgress(list, id, p), id, q) == SetProgress(list, id, q)
  {
  }

  /** Events for different transfers can arrive in either order. */
  lemma SetProgressCommutes(list: seq<Entry>, a: string, p: Progress, b: string, q: Progress)
    requires a != b
    ensures SetProgress(SetProgress(list, a, p), b, q) == SetProgress(SetProgress(list, b, q), a, p)
  {
  }

  /** An event for a transfer that was just started reaches its new entry
      and leaves the earlier entries alone when their ids differ. */
  lemma ProgressAfterStart(list: seq<Entry>, e: Entry, p: Progress)
    requires forall i :: 0 <= i < |list| ==> list[i].id != e.id
    ensures SetProgress(list + [e], e.id, p) == list + [e.(progress := Some(p))]
  {
  }

  /** The entries a run of upload calls appends, one file at a time; the
      first call that fails ends the run (its error is reported once). */
  function Uploads(pathOf: string -> string, files: seq<LocalFile>, started: seq<Result<string>>): (r: seq<Entry>)
    requires |started| == |files|
    ensures |r| <= |files|
    ensures forall i :: 0 <= i < |r| ==>
      started[i].Ok? && r[i] == Started(started[i].value, Transfers.Upload, LocalPath(files[i]), pathOf(files[i].name))
    ensures |r| < |files| ==> started[|r|].Err?
  {
    if files == [] || started[0].Err? then []
    else
      var e := Started(started[0].value, Transfers.Upload, LocalPath(files[0]), pathOf(files[0].name));
      [e] + Uploads(pathOf, files[1..], started[1..])
  }

  /** The upload loop of both panels: each file is sent to its remote path
      and its entry appended, until a call fails. */
  method UploadLoop(pathOf: string -> string, files: seq<LocalFile>, started: seq<Result<string>>) returns (added: seq<Entry>)
    requires |started| == |files|
    ensures added == Uploads(pathOf, files, started)
  {
    added := [];
    var i := 0;
    while i < |files| && started[i].Ok?
      invariant 0 <= i <= |files|
      invariant |added| == i
      invariant forall j :: 0 <= j < i ==>
        started[j].Ok? && added[j] == Started(started[j].value, Transfers.Upload, LocalPath(files[j]), pathOf(files[j].name))
    {
      var remotePath := pathOf(files[i].name);
      added := added + [Started(started[i].value, Transfers.Upload, LocalPath(files[i]), remotePath)];
      i := i + 1;
    }
  }

  /** The ids whose progress events the file browser listens to, as
      written: after the list changes length, only entries still without
      progress are subscribed again. */
  function ListenedAsWritten(list: seq<Entry>): set<string> {
    set i | 0 <= i < |list| && list[i].progress.None? :: list[i].id
  }

  /** The ids listened to when every listed transfer is subscribed, as
      the transfer panel does. */
  function Listened(list: seq<Entry>): set<string> {
    set i | 0 <= i < |list| :: list[i].id
  }

  /** As written, a transfer that has had one event and is followed by a
      new transfer is no longer listened to: its later events are lost. */
  lemma AsWrittenStopsListening(a: Entry, b: Entry)
    requires a.progress.Some? && b.progress.None? && a.id != b.id
    ensures a.id !in ListenedAsWritten([a, b])
    ensures b.id in ListenedAsWritten([a, b])
  {
    assert [a, b][1] == b;
  }

  /** Subscribing every listed transfer delivers each listed transfer's
      events: the entry shows the latest progress. */
  lemma ListenedDelivers(list: seq<Entry>, i: nat, p: Progress)
    requires i < |list|
    ensures list[i].id in Listened(list)
    ensures SetProgress(list, list[i].id, p)[i].progress == Some(p)
  {
  }
}
