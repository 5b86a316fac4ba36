/** The remote file browser (FileBrowser.tsx): the path it shows, the
    paths it sends to the backend when the user goes up, opens a folder,
    creates a folder, renames or uploads, and the transfers it lists.

    Backend calls are parameters: a listing, or the id a started transfer
    got, comes in as a `Result`; a prompt's answer as an `Option`. */
module FileBrowser {
  import opened Outcome
  import opened Text
  import Transfers
  import opened TransferList

  // ---------------------------------------------------------------------
  // Paths
  // ---------------------------------------------------------------------

  /** The index of the last '/' of `s`. */
  function LastSlash(s: string): (r: Option<nat>)
    ensures r.Some? ==> r.value < |s| && s[r.value] == '/' && '/' !in s[r.value + 1..]
    ensures r.None? ==> '/' !in s
  {
    if s == [] then None
    else if s[|s| - 1] == '/' then Some(|s| - 1)
    else
      var init, last := s[..|s| - 1], s[|s| - 1];
      var r := LastSlash(init);
      if r.Some? then
        assert s[r.value + 1..] == init[r.value + 1..] + [last];
        NoSlashSnoc(init[r.value + 1..], last);
        r
      else
        assert s == init + [last];
        NoSlashSnoc(init, last);
        r
  }

  lemma NoSlashSnoc(a: string, c: char)
    requires '/' !in a && c != '/'
    ensures '/' !in a + [c]
  {
    assert forall k :: 0 <= k < |a| ==> (a + [c])[k] == a[k];
  }

  /** A '/' with none after it is the last one. */
  lemma {:induction false} LastSlashAt(s: string, i: nat)
    requires i < |s| && s[i] == '/' && '/' !in s[i + 1..]
    ensures LastSlash(s) == Some(i)
    decreases |s|
  {
    if i < |s| - 1 {
      assert s[|s| - 1] == s[i + 1..][|s| - 2 - i];
      assert s[..|s| - 1][i + 1..] == s[i + 1..][..|s| - 2 - i];
      LastSlashAt(s[..|s| - 1], i);
    }
  }

  /** `currentPath.replace(/\/[^/]*$/, '') || '/'`: go-up cuts the path at
      its last '/'; nothing left means the root. */
  function ParentPath(p: string): string {
    var cut := match LastSlash(p) case Some(i) => p[..i] case None => p;
    if cut == "" then "/" else cut
  }

  /** Going up from a rooted path stays rooted and shortens the path until
      the root, which is its own parent: repeated go-up ends at "/". */
  lemma ParentPathRooted(p: string)
    requires HasPrefix(p, "/")
    ensures HasPrefix(ParentPath(p), "/")
    ensures p != "/" ==> |ParentPath(p)| < |p|
    ensures p == "/" ==> ParentPath(p) == "/"
  {
    assert p[0] == '/';
    var i := LastSlash(p).value;
    if i > 0 {
      assert p[..i][0] == '/';
    }
    if p == "/" {
      LastSlashAt(p, 0);
    }
  }

  /** `${currentPath}/${name}` with every run of '/' collapsed: the
      new-folder and upload paths. */
  function ChildPath(dir: string, name: string): string {
    CollapseSlashes(dir + "/" + name)
  }

  /** The upload path of each file name, for the folder shown. */
  function ChildPathOf(dir: string): string -> string {
    name => ChildPath(dir, name)
  }

  lemma {:induction false} WithoutSlashesConcat(a: string, b: string)
    ensures WithoutSlashes(a + b) == WithoutSlashes(a) + WithoutSlashes(b)
    decreases |a|
  {
    if a != [] {
      assert (a + b)[1..] == a[1..] + b;
      WithoutSlashesConcat(a[1..], b);
    } else {
      assert a + b == b;
    }
  }

  /** A child path has no run of '/', keeps every other character of the
      folder and then of the name, and is rooted when the folder is. */
  lemma {:induction false} ChildPathShape(dir: string, name: string)
    ensures var r := ChildPath(dir, name);
      NoDoubleSlash(r)
      && WithoutSlashes(r) == WithoutSlashes(dir) + WithoutSlashes(name)
      && (HasPrefix(dir, "/") ==> HasPrefix(r, "/"))
  {
    var s := dir + "/" + name;
    CollapseSlashesSpec(s);
    var r := CollapseSlashes(s);
    assert WithoutSlashes(s) == WithoutSlashes(dir) + WithoutSlashes(name) by {
      WithoutSlashesOfJoin(dir, name);
    }
    if HasPrefix(dir, "/") {
      assert s[0] == '/';
      assert r[..1] == [r[0]];
    }
  }

  lemma {:induction false} WithoutSlashesOfJoin(dir: string, name: string)
    ensures WithoutSlashes(dir + "/" + name) == WithoutSlashes(dir) + WithoutSlashes(name)
  {
    WithoutSlashesConcat(dir + "/", name);
    WithoutSlashesConcat(dir, "/");
    assert WithoutSlashes("/") == [] by {
      assert "/"[1..] == [];
    }
  }

  /** Collapsing "u/" followed by another '/' drops that '/'. */
  lemma {:induction false} CollapseDropsSlash(u: string, v: string)
    requires u != [] && u[|u| - 1] == '/'
    ensures CollapseSlashes(u + "/" + v) == CollapseSlashes(u + v)
    decreases |u|
  {
    var s := u + "/" + v;
    if |u| == 1 {
      assert s[1..] == u + v;
    } else {
      var t := u + v;
      assert s[0] == t[0] && s[1] == t[1];
      assert s[1..] == u[1..] + "/" + v;
      assert t[1..] == u[1..] + v;
      CollapseDropsSlash(u[1..], v);
    }
  }

  /** A well-formed folder path: rooted, no run of '/', no trailing '/'
      except for the root itself. */
  predicate FolderPath(dir: string) {
    HasPrefix(dir, "/") && NoDoubleSlash(dir) && (dir == "/" || dir[|dir| - 1] != '/')
  }

  /** Going up from a child of a folder gives the folder back. */
  lemma ParentOfChild(dir: string, name: string)
    requires FolderPath(dir)
    requires name != "" && '/' !in name
    ensures ParentPath(ChildPath(dir, name)) == dir
  {
    var r := dir + "/" + name;
    if dir == "/" {
      CollapseDropsSlash("/", name);
      assert "/" + "/" + name == dir + "/" + name;
      CollapseSlashesFixed("/" + name);
      assert ("/" + name)[1..] == name;
      LastSlashAt("/" + name, 0);
    } else {
      assert NoDoubleSlash(r) by {
        forall i | 0 <= i < |r| - 1
          ensures !(r[i] == '/' && r[i + 1] == '/')
        {
          if i + 1 < |dir| {
            assert r[i] == dir[i] && r[i + 1] == dir[i + 1];
          } else if i + 1 > |dir| {
            assert r[i + 1] == name[i - |dir|];
          }
        }
      }
      CollapseSlashesFixed(r);
      assert r[|dir| + 1..] == name;
      LastSlashAt(r, |dir|);
      assert r[..|dir|] == dir;
    }
  }

  /** The new-folder path; an empty name makes no call. */
  function NewFolderPath(dir: string, name: string): (r: Option<string>)
    ensures r.None? <==> name == ""
  {
    if name == "" then None else Some(ChildPath(dir, name))
  }

  /** Where the last segment of `p` starts: just after its last '/'. */
  function SegmentStart(p: string): nat {
    match LastSlash(p) case Some(i) => i + 1 case None => 0
  }

  /** `path.replace(/[^/]+$/, name)` with the name taken literally: the
      last segment, when there is one, becomes `name`. */
  function RenamedPath(p: string, name: string): string {
    var k := SegmentStart(p);
    if k >= |p| then p else p[..k] + name
  }

  /** Renaming keeps everything up to the last '/' and replaces only the
      last segment, so the file stays in its folder; a path with no last
      segment (empty, or ending in '/') is left alone. */
  lemma RenameKeepsFolder(p: string, name: string)
    requires name != "" && '/' !in name
    ensures var k := SegmentStart(p);
      var r := RenamedPath(p, name);
      (k >= |p| ==> r == p)
      && (k < |p| ==> r[..k] == p[..k] && r[k..] == name)
      && ('/' in p ==> ParentPath(r) == ParentPath(p))
  {
    var k := SegmentStart(p);
    if k < |p| {
      var r := p[..k] + name;
      assert r[..k] == p[..k] && r[k..] == name;
      match LastSlash(p)
      case Some(i) =>
        assert r[i] == p[i];
        assert r[i + 1..] == name;
        LastSlashAt(r, i);
        assert r[..i] == p[..i];
      case None =>
    }
  }

  /** The replacement text as JavaScript's `String.prototype.replace`
      reads it: `$$` is a dollar sign, `$&` the matched text, `` $` `` the
      text before the match and `$'` the text after it; anything else,
      including `$1` and `$<` (the pattern has no groups), is literal. */
  function Substitute(repl: string, matched: string, before: string, after: string): string
    decreases |repl|
  {
    if repl == [] then []
    else if repl[0] == '$' && |repl| >= 2 && repl[1] in "$&`'" then
      var piece := if repl[1] == '$' then "$" else if repl[1] == '&' then matched else if repl[1] == '`' then before else after;
      piece + Substitute(repl[2..], matched, before, after)
    else [repl[0]] + Substitute(repl[1..], matched, before, after)
  }

  /** A name without '$' is substituted as it is. */
  lemma {:induction false} SubstitutePlain(repl: string, matched: string, before: string, after: string)
    requires '$' !in repl
    ensures Substitute(repl, matched, before, after) == repl
    decreases |repl|
  {
    if repl != [] {
      assert repl[0] != '$';
      SubstitutePlain(repl[1..], matched, before, after);
      assert [repl[0]] + repl[1..] == repl;
    }
  }

  /** The rename as written: the typed name goes through substitution. */
  function RenamedPathAsWritten(p: string, name: string): string {
    var k := SegmentStart(p);
    if k >= |p| then p else p[..k] + Substitute(name, p[k..], p[..k], "")
  }

  /** As written and taken literally agree on names without '$'. */
  lemma RenameAgreesWithoutDollar(p: string, name: string)
    requires '$' !in name
    ensures RenamedPathAsWritten(p, name) == RenamedPath(p, name)
  {
    var k := SegmentStart(p);
    if k < |p| {
      SubstitutePlain(name, p[k..], p[..k], "");
    }
  }

  /** As written, renaming "/d/a.txt" to "$&.bak" asks for "/d/a.txt.bak"
      instead of "/d/$&.bak". */
  lemma AsWrittenRenameExpandsDollar()
    ensures RenamedPathAsWritten("/d/a.txt", "$&.bak") == "/d/a.txt.bak"
    ensures RenamedPath("/d/a.txt", "$&.bak") == "/d/$&.bak"
  {
    var p := "/d/a.txt";
    assert p[3..] == "a.txt";
    LastSlashAt(p, 2);
    assert SegmentStart(p) == 3;
    var repl := "$&.bak";
    assert repl[1] == '&' && repl[1] in "$&`'";
    assert repl[2..] == ".bak";
    assert Substitute(".bak", "a.txt", "/d/", "") == ".bak" by {
      SubstitutePlain(".bak", "a.txt", "/d/", "");
    }
    assert Substitute(repl, "a.txt", "/d/", "") == "a.txt" + ".bak";
  }

  /** `handleRename`: the backend call for the name typed at the prompt
      (None when the prompt was cancelled); an empty or unchanged name
      makes no call. */
  function RenameCall(file: Transfers.RemoteFile, typed: Option<string>): (r: Option<(string, string)>)
    ensures r.None? <==> typed.None? || typed.value == "" || typed.value == file.name
    ensures r.Some? ==> r.value.0 == file.path
  {
    if typed.None? || typed.value == "" || typed.value == file.name then None
    else Some((file.path, RenamedPath(file.path, typed.value)))
  }

  // ---------------------------------------------------------------------
  // The panel
  // ---------------------------------------------------------------------

  /** The browser's state: the folder shown, its files, the transfers
      listed and the ids whose progress events are subscribed. */
  class FileBrowserView {
    var currentPath: string
    var files: seq<Transfers.RemoteFile>
    var transfers: seq<Entry>
    var listening: set<string>

    constructor ()
      ensures currentPath == "/" && files == [] && transfers == [] && listening == {}
    {
      currentPath := "/";
      files := [];
      transfers := [];
      listening := {};
    }

    /** `loadDirectory(path)`: a listing shows the folder; a failed one
      changes nothing. */
    method LoadDirectory(path: string, listing: Result<seq<Transfers.RemoteFile>>)
      modifies this`files, this`currentPath
      ensures listing.Ok? ==> files == listing.value && currentPath == path
      ensures listing.Err? ==> files == old(files) && currentPath == old(currentPath)
    {
      if listing.Ok? {
        files := listing.value;
        currentPath := path;
      }
    }

    /** `handleDoubleClick`: only a folder is opened. */
    method DoubleClick(file: Transfers.RemoteFile, listing: Result<seq<Transfers.RemoteFile>>)
      modifies this`files, this`currentPath
      ensures file.isDir && listing.Ok? ==> files == listing.value && currentPath == file.path
      ensures !file.isDir || listing.Err? ==> files == old(files) && currentPath == old(currentPath)
    {
      if file.isDir {
        LoadDirectory(file.path, listing);
      }
    }

    /** `handleGoUp`. */
    method GoUp(listing: Result<seq<Transfers.RemoteFile>>)
      modifies this`files, this`currentPath
      ensures listing.Ok? ==> files == listing.value && currentPath == ParentPath(old(currentPath))
      ensures listing.Err? ==> files == old(files) && currentPath == old(currentPath)
    {
      LoadDirectory(ParentPath(currentPath), listing);
    }

    /** The progress subscription, run again whenever the list changes
      length: every listed transfer is subscribed. */
    method Resubscribe()
      modifies this`listening
      ensures listening == Listened(transfers)
    {
      listening := Listened(transfers);
    }

    /** `handleDownload`: after the save dialog (`localPath`, empty when
      cancelled) and the backend call, the new transfer is listed. */
    method Download(file: Transfers.RemoteFile, localPath: string, started: Result<string>)
      modifies this`transfers, this`listening
      ensures localPath != "" && started.Ok? ==>
        transfers == old(transfers) + [Started(started.value, Transfers.Download, localPath, file.path)]
        && listening == Listened(transfers)
      ensures localPath == "" || started.Err? ==> transfers == old(transfers) && listening == old(listening)
    {
      if localPath != "" && started.Ok? {
        transfers := transfers + [Started(started.value, Transfers.Download, localPath, file.path)];
        Resubscribe();
      }
    }

    /** `handleUpload` (also behind a drop): each file goes to
      `ChildPath(currentPath, name)` until a call fails. */
    method Upload(local: seq<LocalFile>, started: seq<Result<string>>)
      requires |started| == |local|
      modifies this`transfers, this`listening
      ensures transfers == old(transfers) + Uploads(ChildPathOf(currentPath), local, started)
      ensures listening == Listened(transfers)
    {
      var added := UploadLoop(ChildPathOf(currentPath), local, started);
      transfers := transfers + added;
      Resubscribe();
    }

    /** A progress event: applied when its id is subscribed. */
    method OnProgress(id: string, p: Progress)
      modifies this`transfers
      ensures transfers == (if id in listening then SetProgress(old(transfers), id, p) else old(transfers))
    {
      if id in listening {
        transfers := SetProgress(transfers, id, p);
      }
    }
  }
}
