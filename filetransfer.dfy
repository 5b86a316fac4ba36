/** The transfer panel (FileTransfer.tsx): two path fields the user fills
    in before starting an upload or a download, a drop target that uploads
    every dropped file into a folder typed at a prompt, and the list of
    transfers with their latest progress.

    Backend calls are parameters: the id a started transfer got comes in
    as a `Result`, the prompt's answer as an `Option`. */
module FileTransfer {
  import opened Outcome
  import opened Text
  import Transfers
  import opened TransferList
  import FileBrowser

  /** The remote path of a dropped file: the folder typed at the prompt,
      a '/' unless the folder already ends in one, then the file name. */
  function DropPath(remoteDir: string, name: string): (r: string)
    ensures HasPrefix(r, remoteDir) && HasSuffix(r, name)
    ensures |r| == |remoteDir| + |name| + (if HasSuffix(remoteDir, "/") then 0 else 1)
    ensures r[|r| - |name| - 1] == '/'
  {
    if HasSuffix(remoteDir, "/") then remoteDir + name else remoteDir + "/" + name
  }

  /** The drop path of each file name, for the folder typed. */
  function DropPathOf(remoteDir: string): string -> string {
    name => DropPath(remoteDir, name)
  }

  /** For a well-formed folder and a plain file name, the drop target of
      this panel and the upload target of the file browser agree. */
  lemma DropPathMatchesBrowser(dir: string, name: string)
    requires FileBrowser.FolderPath(dir) && '/' !in name
    ensures DropPath(dir, name) == FileBrowser.ChildPath(dir, name)
  {
    var r := dir + "/" + name;
    if dir == "/" {
      FileBrowser.CollapseDropsSlash("/", name);
      assert "/" + "/" + name == r;
      assert NoDoubleSlash("/" + name) by {
        forall i | 0 <= i < |"/" + name| - 1
          ensures !(("/" + name)[i] == '/' && ("/" + name)[i + 1] == '/')
        {
          assert ("/" + name)[i + 1] == name[i];
        }
      }
      CollapseSlashesFixed("/" + name);
    } else {
      assert !HasSuffix(dir, "/");
      assert NoDoubleSlash(r) by {
        forall i | 0 <= i < |r| - 1
          ensures !(r[i] == '/' && r[i + 1] == '/')
        {
          if i + 1 < |dir| {
            assert r[i] == dir[i] && r[i + 1] == dir[i + 1];
          } else if i + 1 > |dir| {
            assert r[i + 1] == name[i - |dir|];
          }
        }
      }
      CollapseSlashesFixed(r);
    }
  }

  /** The panel's state: the two path fields and the transfers listed.
      Every listed transfer is subscribed to its progress events, so an
      event for a listed id always reaches its entry. */
  class FileTransferPanel {
    var localPath: string
    var remotePath: string
    var transfers: seq<Entry>

    constructor ()
      ensures localPath == "" && remotePath == "" && transfers == []
    {
      localPath := "";
      remotePath := "";
      transfers := [];
    }

    /** Typing into the two path fields. */
    method SetPaths(local: string, remote: string)
      modifies this`localPath, this`remotePath
      ensures localPath == local && remotePath == remote
    {
      localPath := local;
      remotePath := remote;
    }

    /** `handleUpload`: without both paths no backend call is made
      (`called` is false); a call that starts a transfer lists it with no
      progress and clears both fields; a failed call changes nothing. */
    method Upload(started: Result<string>) returns (called: bool)
      modifies this`localPath, this`remotePath, this`transfers
      ensures called <==> old(localPath) != "" && old(remotePath) != ""
      ensures called && started.Ok? ==>
        transfers == old(transfers) + [Started(started.value, Transfers.Upload, old(localPath), old(remotePath))]
        && localPath == "" && remotePath == ""
      ensures !called || started.Err? ==>
        transfers == old(transfers) && localPath == old(localPath) && remotePath == old(remotePath)
    {
      called := localPath != "" && remotePath != "";
      if called && started.Ok? {
        transfers := transfers + [Started(started.value, Transfers.Upload, localPath, remotePath)];
        localPath := "";
        remotePath := "";
      }
    }

    /** `handleDownload`: the same guard and the same bookkeeping, for a
      transfer from `remotePath` to `localPath`. */
    method Download(started: Result<string>) returns (called: bool)
      modifies this`localPath, this`remotePath, this`transfers
      ensures called <==> old(localPath) != "" && old(remotePath) != ""
      ensures called && started.Ok? ==>
        transfers == old(transfers) + [Started(started.value, Transfers.Download, old(localPath), old(remotePath))]
        && localPath == "" && remotePath == ""
      ensures !called || started.Err? ==>
        transfers == old(transfers) && localPath == old(localPath) && remotePath == old(remotePath)
    {
      called := localPath != "" && remotePath != "";
      if called && started.Ok? {
        transfers := transfers + [Started(started.value, Transfers.Download, localPath, remotePath)];
        localPath := "";
        remotePath := "";
      }
    }

    /** `handleDrop`: nothing happens for an empty drop or a cancelled or
      empty prompt; otherwise each file is uploaded to its drop path and
      listed, until a call fails. The path fields are not touched. */
    method Drop(files: seq<LocalFile>, typed: Option<string>, started: seq<Result<string>>)
      requires |started| == |files|
      modifies this`transfers
      ensures files == [] || typed.None? || typed.value == "" ==> transfers == old(transfers)
      ensures files != [] && typed.Some? && typed.value != "" ==>
        transfers == old(transfers) + Uploads(DropPathOf(typed.value), files, started)
    {
      if files == [] || typed.None? || typed.value == "" {
        return;
      }
      var added := UploadLoop(DropPathOf(typed.value), files, started);
      transfers := transfers + added;
    }

    /** A progress event for `id` replaces that transfer's progress. */
    method OnProgress(id: string, p: Progress)
      modifies this`transfers
      ensures transfers == SetProgress(old(transfers), id, p)
    {
      transfers := SetProgress(transfers, id, p);
    }
  }
}
