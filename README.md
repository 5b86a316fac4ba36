# XGoTerm core, modelled in Dafny

XGoTerm is a desktop SSH terminal. A Go backend holds the live SSH sessions, the
encrypted host profiles, the SFTP transfers and a small HTTP-over-curl web proxy,
and a React frontend shows them as docked terminal tabs, a host sidebar, a file
browser and a transfer panel. This project models the rule-driven heart of both
halves and proves what each part promises:

- **Workspace** (`workspace.dfy`, `frontend/src/App.tsx`): the window's sessions, active tab and
  recording map; `connect` with its parameter building, its ordered error
  classification and the gated profile save and local forward; `closeTab`;
  `handleLayoutChange`; the floating-box sweep; broadcast; the recording toggle.
  The dock layout is a tree datatype, and every call into the backend or the
  docking library is appended to a call log.
- **TermManager** (`term_manager.dfy`, `term_manager.go`): the session registry as a `class` with a
  map of `SshSession` objects; `StartSSH` validation, defaults, auth selection and
  gateway errors; the start-once `started` flag; `Send`, `Resize` and `Close`; per-session
  forwards; recording, including the numbered-line writer.
- **Profiles** (`profiles.dfy`, `profiles_manager.go`): the decrypted host list as `seq<HostProfile>`;
  save with defaults and upsert, delete, lookup, the import header checks and
  renaming merge, and the list sort.
- **Transfers** (`transfers.dfy`, `file_manager.go`): the transfer table, the worker's setup calls,
  its chunk-by-chunk copy loop and deferred finalizer, cancellation, the remote
  directory listing and remote delete.
- **WebProxy** (`webproxy.dfy`, `web_proxy.go`): proxy start, the target URL, the curl command
  builder (with a model of how the remote POSIX shell splits it into words), and
  the response parser that cuts curl's output at the first blank line (section 2.1
  of RFC 9112) and reads `name: value` header lines (section 5 of RFC 9112).
- **Sidebar** (`sidebar.dfy`, `frontend/src/components/Sidebar.tsx`): search, grouping by tag and the
  expanded-group set.
- **FileBrowser** (`filebrowser.dfy`, `frontend/src/components/FileBrowser.tsx`): go-up, slash-collapsing
  joins, rename of the last segment, and the browser's transfer list.
- **FileTransfer** (`filetransfer.dfy`, `frontend/src/components/FileTransfer.tsx`): the path guards, the
  drop-path join and the panel's transfer list.
- Shared modules: `Outcome` (`Option`, `Result`), `Text` (string helpers standing
  for `strings`/`bytes` and the JavaScript string methods the code uses),
  `GoPath` (Go's `path.Clean` and `path.Join`), and `TransferList` (the progress
  list that both frontend panels keep).

SSH, SFTP, the file system, clocks and random ids are outside the model. What such
a call answers is a parameter: an `Option<string>` error, a `Result`, a fault
record, or a sequence of chunk outcomes.

Where the code and the design notes disagree, the model follows the code:

- Connect errors are classified by the **first** test that matches, in a fixed order. They are not classified by the longest match.
- A broadcast **stops at the first** `Send` that throws. Targets after it get nothing, and the input is not cleared.

## Model

| member | source | states |
|---|---|---|
| Workspace.PortOr22 | frontend/src/App.tsx:251 | The port sent is never 0; any non-zero port is kept. |
| Workspace.ManualConnectDialsDirect | frontend/src/App.tsx:249-268 | With the gateway off, a manual connect that succeeds dials the target directly on the form's port, or 22. |
| Workspace.ManualConnectDefersShell | frontend/src/App.tsx:255-256 | A manual connect never sends an initial size, so its shell waits for the first resize. |
| Workspace.ParseTagsShape | frontend/src/App.tsx:342 | Every parsed tag is non-empty, has no surrounding blanks and holds no comma. |
| Workspace.ParseTagsText | frontend/src/App.tsx:342 | Parsing the `join(', ')` text the edit form shows gives the saved tags back (round trip). |
| Workspace.FindHost | frontend/src/App.tsx:320-321 | Gives the first saved host with the same address, port and user, or none when no host matches. |
| Workspace.ToHostItems | frontend/src/App.tsx:314-349 | The reloaded list maps each profile, in order, to a sidebar item that keeps its id and shows its name or address. |
| Workspace.AfterStartGates | frontend/src/App.tsx:297-353 | After a start, the tab is docked into the first panel. SaveProfile is called iff the connect is manual and save is ticked or a host is being edited. The reload follows iff that save succeeded. The forward is started iff the connect is manual, the direction is L and both ports are positive, and it is the last call. |
| Workspace.AfterConnect | frontend/src/App.tsx:241-356 | StartSSH is always called first. On success, exactly one tab `user@host:port` is appended, made active, the dialog closes and no error is shown, whatever the save and the forward did. On failure, the tabs are unchanged and the error is shown with its advice. |
| Workspace.App.Connect | frontend/src/App.tsx:241-396 | The window's new state is AfterConnect of its old state; the active tab stays an open session. |
| Workspace.App.Failed | frontend/src/App.tsx:355-396 | A failed connect shows the error and the alert text with its advice. |
| Workspace.App.Opened | frontend/src/App.tsx:272-277 | Appends the session at the end, makes it active and closes the dialog. |
| Workspace.App.FollowUp | frontend/src/App.tsx:297-353 | Logs the follow-up calls. A successful save reloads the hosts and ends editing; otherwise both stay unchanged. |
| Workspace.ClassifyFirstMatch | frontend/src/App.tsx:359-394 | Each advice is given exactly when its test matches and no earlier test does, in the order authentication, forwarding prohibited, refused, timeout. |
| Workspace.ClassifyGatewayOnlyForCredentials | frontend/src/App.tsx:360-373 | The gateway switch changes only the wording of the credentials advice, never which advice is given. |
| Workspace.TimeoutTestSubsumed | frontend/src/App.tsx:389 | The "i/o timeout" test can never decide: any message it matches also contains "timeout". |
| Workspace.ForwardingErrorAdvised | frontend/src/App.tsx:374-375 | A gateway that refuses the tunnel produces the backend's forwarding-prohibited error, which the window classifies as forwarding prohibited. |
| Workspace.AlertTextShowsError | frontend/src/App.tsx:396 | The alert always starts with the error message; nothing is added iff no advice applies. |
| Workspace.DropIdsMembers | frontend/src/App.tsx:686 | The filter keeps exactly the sessions whose id is not removed. |
| Workspace.DropIdsConcat | frontend/src/App.tsx:686 | The filter works piecewise, so the sessions kept stay in their order. |
| Workspace.DropIdsTwice | frontend/src/App.tsx:686 | Two removals in a row equal one removal of both id sets. |
| Workspace.DropComplement | frontend/src/App.tsx:707-711 | Closing the sessions absent from the layout keeps exactly those present in it. |
| Workspace.App.CloseTab | frontend/src/App.tsx:679-691 | Calls the backend Close. Removes every session with that id, keeps the rest in order, and clears the active tab only when it was that id. |
| Workspace.TabIdsReachable | frontend/src/App.tsx:703-707 | The collected ids are exactly the tab ids reachable along some path through the dock tree. |
| Workspace.App.LayoutChanged | frontend/src/App.tsx:694-713 | A layout with a floating child changes nothing. Otherwise the sessions kept are exactly those whose id is in the dock tree, one Close is made per other session, and the active tab is cleared iff it was closed. |
| Workspace.App.CloseAbsent | frontend/src/App.tsx:709-712 | The loop over the sessions closes, in list order, exactly the sessions whose id is missing. |
| Workspace.ClosedExactly | frontend/src/App.tsx:709-712 | A session is closed iff its id is missing from the layout. |
| Workspace.FloatTabs | frontend/src/App.tsx:223-225 | The floating tabs are exactly the tabs of the floating panels. |
| Workspace.SweepMovesFloating | frontend/src/App.tsx:216-239 | The sweep moves a tab to a target iff the tab floats and the target is the first dock panel; it does nothing without floating children. |
| Workspace.App.FloatSweep | frontend/src/App.tsx:216-239 | The sweep's loop issues exactly the moves of SweepMoves. |
| Workspace.Targets | frontend/src/App.tsx:723 | With toAll, the targets are every session id in list order. Otherwise they are the active id, when set, or none. |
| Workspace.TargetsAreSessions | frontend/src/App.tsx:723 | Every broadcast target is an open session. |
| Workspace.Delivered | frontend/src/App.tsx:724-728 | The targets reached are a prefix of the targets. It is all of them when none throws; otherwise it ends at the first that throws. |
| Workspace.DeliveredStep | frontend/src/App.tsx:724-728 | Every target before the first throwing one is reached, and a throwing target ends the loop. |
| Workspace.SendsFor | frontend/src/App.tsx:727 | Each reached target is sent the text followed by "\r". |
| Workspace.Broadcast | frontend/src/App.tsx:724-728 | The send loop issues exactly the sends for the delivered prefix and reports whether a send threw. |
| Workspace.App.SendBroadcast | frontend/src/App.tsx:720-730 | Empty text sends nothing. Otherwise the sends go to the delivered targets, and the input is cleared only when every send succeeded. |
| Workspace.Flip | frontend/src/App.tsx:737-743 | Flips the recording flag of one session and leaves every other session's flag unchanged. |
| Workspace.FlipTwice | frontend/src/App.tsx:732-744 | Toggling the same session twice restores every flag. |
| Workspace.App.ToggleRecording | frontend/src/App.tsx:732-744 | With no active tab, nothing happens. Otherwise it calls Stop or Start by the current flag and flips only that flag, when the call succeeds. |
| TermManager.JoinHostPort | term_manager.go:227 | `host:port`, with an IPv6 host put in brackets. |
| TermManager.TimeoutSec | term_manager.go:261-266 | The dial timeout is positive: the given seconds when positive, else 10. |
| TermManager.TargetAuth | term_manager.go:230-255 | Accepts "password" and "" as password auth, and "key" only with a non-empty PEM that parses. Every other type is an error. |
| TermManager.GatewayAuth | term_manager.go:283-309 | Gateway key auth needs a PEM that parses; gateway password auth needs a non-empty password. |
| TermManager.GatewayPort | term_manager.go:274-279 | The gateway port is positive; a port of 0 or less means 22. |
| TermManager.ViaGateway | term_manager.go:268-337 | The gateway path succeeds iff the gateway auth, the gateway dial, the tunnel and the target handshake all succeed. |
| TermManager.Connect | term_manager.go:220-368 | The connect succeeds iff host and user are given, target auth is valid, the direct or gateway path succeeds, and the session and its pipes open. It then dials the joined address with the resolved timeout and auth. |
| TermManager.ConnectValidatesFirst | term_manager.go:221-223 | A missing host or user fails before anything else is tried. |
| TermManager.ConnectTargetAuthBeforeGateway | term_manager.go:230-255 | A bad target auth is reported before any gateway is contacted. |
| TermManager.ConnectForwardingProhibited | term_manager.go:319-330 | A tunnel refused as "administratively prohibited" gives the forwarding-prohibited error, which carries the original error. |
| TermManager.TermManager.Register | term_manager.go:370-380 | Registers a fresh session under the clock id: open, not started, not recording, with no forwards. |
| TermManager.TermManager.StartShell | term_manager.go:398-415 | With an initial size, starts the PTY and shell, marks the session started and sends "\r"; a failure closes it. Without a size, nothing changes. |
| TermManager.TermManager.StartSSH | term_manager.go:220-417 | Fails with Connect's error and registers nothing when the connect fails. Succeeds iff Connect succeeds and no immediate shell start fails. A success registers one new session, started iff an initial size was given. |
| TermManager.TermManager.StartSSHAsWritten | term_manager.go:370-410 | As written, a failing immediate PTY or shell start returns an error but leaves a closed, never-pumping session registered. |
| TermManager.ShellFailureLeavesSession | term_manager.go:398-410 | That leak happens as written and not in the corrected StartSSH. |
| TermManager.TermManager.Send | term_manager.go:432-439 | Writes to the session's stdin; an unknown id or a write error is returned. |
| TermManager.TermManager.Resize | term_manager.go:441-461 | The first successful resize starts the shell once, sends "\r" and sets the size. A later resize only changes the window. Unknown ids are errors. |
| TermManager.TermManager.StopRecordingLocked | term_manager.go:543-559 | Not recording: a no-op. Recording: writes the closing fence and resets recOn, the path and lineNo. Applying it twice therefore changes nothing more. |
| TermManager.TermManager.Shutdown | term_manager.go:468-480 | Stops every forward, stops recording and closes the session. |
| TermManager.TermManager.Close | term_manager.go:463-499 | Unknown ids return nil and change nothing. A known id is taken out of the registry, so later lookups fail; its forwards and recording are stopped and it is closed. |
| TermManager.TermManager.CloseAsWritten | term_manager.go:463-482 | As written, Close returns only when the id is unknown or its output pump is running. |
| TermManager.CloseHangsBeforeFirstResize | term_manager.go:481 | Closing a session that was never resized blocks forever as written and returns in the corrected Close. |
| TermManager.DefaultRecordingName | term_manager.go:513-517 | The default recording name ends in ".md" and contains no ':' once the host's colons are replaced. |
| TermManager.TermManager.StartRecording | term_manager.go:502-531 | A session already recording returns its path unchanged. Otherwise it opens the file with the opening fence and sets recOn, recLines and lineNo = 0. An open error leaves recording off. |
| TermManager.TermManager.StopRecording | term_manager.go:533-541 | Stops recording of a known session; unknown ids are errors. |
| TermManager.NumberedLines | term_manager.go:568-573 | Piece k of a chunk gets line number start + k + 1. |
| TermManager.NumberPieces | term_manager.go:569-578 | The writing loop produces the numbered pieces joined by "\n" and advances the counter by the number of pieces. |
| TermManager.RecordTextLines | term_manager.go:566-578 | The text written for a chunk, split at "\n", is exactly its numbered pieces: one line per piece of the chunk, and "\n" only between them. |
| TermManager.LoopTextSplit | term_manager.go:569-578 | The writer puts "\n" between pieces and not after the last one. |
| TermManager.TermManager.AppendRecord | term_manager.go:561-583 | Recording off: nothing is written. With line numbers, lineNo rises by exactly the number of pieces of the chunk split at "\n"; without, it stays. |
| TermManager.TermManager.StartLocalForward | term_manager.go:50-126 | Unknown ids and listen errors register nothing. Otherwise one forward `fwd-<clock>` is added between the addresses, with an empty host read as 127.0.0.1. |
| TermManager.TermManager.StopLocalForward | term_manager.go:128-145 | Removes exactly that forward. An unknown forward or an unknown session is an error. |
| Profiles.FirstWithId | profiles_manager.go:59-62 | Gives the first index holding the id, or none when no entry holds it. |
| Profiles.LookupFirst | profiles_manager.go:54-63 | GetProfile finds the first entry with the id, or returns "not found" exactly when no entry has it. |
| Profiles.WithoutMembers | profiles_manager.go:71-73 | Delete keeps exactly the entries whose id differs. |
| Profiles.WithoutLookup | profiles_manager.go:65-78 | After deleting an id, lookups of it fail and lookups of every other id are unchanged. |
| Profiles.WithoutIdempotent | profiles_manager.go:71-73 | Deleting twice equals deleting once. |
| Profiles.UpsertLookup | profiles_manager.go:247-255 | After a save, the id finds the saved profile and other ids find what they found before. The length grows by one exactly when the id was new. |
| Profiles.WithDefaults | profiles_manager.go:231-240 | Port 0 becomes 22, an empty name becomes the host, an empty id becomes the fresh uuid, and UpdatedAt is stamped. No other field changes. |
| Profiles.WithDefaultsIdempotent | profiles_manager.go:231-240 | Applying the defaults again changes nothing. |
| Profiles.CheckHeader | profiles_manager.go:133-134 | The header passes iff version is 1, the schema is non-empty, the KDF is argon2id and the cipher is aes-256-gcm. |
| Profiles.RenamedShape | profiles_manager.go:161-174 | Import changes only ids, and keeps a fresh, non-empty id as it is. |
| Profiles.RenamedDistinct | profiles_manager.go:161-174 | Given fresh uuids, every imported id is non-empty, distinct from the saved ids and distinct from each other. This holds even for duplicates inside the same batch. |
| Profiles.MergeKeepsSaved | profiles_manager.go:161-176 | The merge keeps every saved host in place and appends every incoming host in order. |
| Profiles.MergeIdsUnique | profiles_manager.go:161-176 | After the merge, all ids are distinct and every imported id is non-empty. |
| Profiles.ImportBase | profiles_manager.go:151-159 | The merge starts from the saved file. A missing file means an empty list; an unreadable one is an error. |
| Profiles.ImportAsWrittenDropsSavedHosts | profiles_manager.go:151-159 | As written, an unreadable file is replaced by the imported hosts alone, with an empty schema. |
| Profiles.SortProfilesSorted | profiles_manager.go:220-226 | The list sort is a permutation ordered by lower-cased name, with ties broken by UpdatedAt descending. |
| Profiles.SortProfilesStable | profiles_manager.go:220-226 | Entries with equal keys keep their original order, so this is the stable sort. |
| Profiles.ProfilesManager.GetProfile | profiles_manager.go:54-63 | A read failure is an error; otherwise the result is the lookup. |
| Profiles.ProfilesManager.DeleteProfile | profiles_manager.go:65-78 | A read or write failure changes nothing. Otherwise the file holds the entries with other ids, in order. |
| Profiles.ProfilesManager.SaveProfile | profiles_manager.go:230-262 | Host and user are required. On success, the file holds the upsert of the defaulted profile and its id is returned; any error leaves the file unchanged. |
| Profiles.ProfilesManager.ImportProfiles | profiles_manager.go:128-177 | Bad headers, payloads and read errors are reported and change nothing. Success merges the import into the saved hosts and returns the number of incoming hosts. |
| Profiles.ProfilesManager.ListProfiles | profiles_manager.go:210-228 | No file gives the empty list; otherwise the sorted list. |
| Profiles.RemoveId | profiles_manager.go:71-73 | The delete loop computes Without. |
| Profiles.UpsertById | profiles_manager.go:247-255 | The upsert loop replaces the first match in place or appends. |
| Profiles.MergeHosts | profiles_manager.go:161-176 | The import loop appends the renamed hosts and counts every one. |
| Transfers.NewTransfer | file_manager.go:88-100 | A new transfer is running with nothing transferred, its size is the file size, and its id carries the kind prefix. |
| Transfers.FileManager.UploadFile | file_manager.go:74-110 | Unknown sessions and unreadable local files register nothing. Otherwise one running upload is registered and its id returned. |
| Transfers.FileManager.DownloadFile | file_manager.go:209-256 | Unknown sessions, client failures, stat failures and directories register nothing. Otherwise one running download is registered. |
| Transfers.SetupFault | file_manager.go:127-158 | The worker's setup fails iff one of its calls fails, with that call's message. |
| Transfers.CopyLoop | file_manager.go:164-202 | The copy loop, pass by pass, computes Copy. |
| Transfers.CopyMonotone | file_manager.go:182-184 | The count after any prefix of passes is no more than after all of them: Transferred never decreases. |
| Transfers.CopyClean | file_manager.go:172-191 | Passes that neither fail nor stop add exactly their bytes. |
| Transfers.CopyToCancel | file_manager.go:165-168 | A cancel seen at the loop head stops the loop as cancelled and keeps the bytes counted so far. |
| Transfers.FinalizeStatus | file_manager.go:117-125 | The finalizer turns running into completed, never overrides failed or cancelled, and changes nothing else. |
| Transfers.WorkerCompletes | file_manager.go:112-206 | A run whose setup succeeds and that reads to the end completes with every byte counted. |
| Transfers.WorkerCancelled | file_manager.go:164-170 | A cancelled run ends cancelled, with only the bytes before the cancel counted. |
| Transfers.WorkerSetupFails | file_manager.go:127-158 | A failing setup call fails the run with its message, before anything is copied. |
| Transfers.WorkerStatus | file_manager.go:112-206 | A run that has returned is never running. |
| Transfers.FileManager.RunTransfer | file_manager.go:112-206 | Only the transfer's own table entry changes, to the worker's outcome. |
| Transfers.FileManager.CancelTransfer | file_manager.go:364-377 | An unknown id is an error. Otherwise only that transfer's cancel is requested. |
| Transfers.ListRemoteDir | file_manager.go:422-471 | One remote file per entry, in entry order, under the requested folder. An empty request uses the working directory, or "/" when that fails. |
| Transfers.ListEntries | file_manager.go:452-468 | The entry loop maps each entry in order. |
| Transfers.ListedPathIsJoin | file_manager.go:455-457 | The second Clean is redundant: the listed path is the joined path. |
| Transfers.DeleteRemoteFile | file_manager.go:494-516 | Directories are removed with RemoveDirectory and anything else with Remove. Earlier failures make no call. |
| WebProxy.StartWebProxy | web_proxy.go:29-39 | Unknown sessions are errors. An empty remote host becomes localhost. |
| WebProxy.ProxyIdNamesPort | web_proxy.go:39 | The proxy id is "webproxy-" followed by the local port, which reads back as that port. |
| WebProxy.CommandWords | web_proxy.go:110-138 | With quoting escaped, the remote shell reads the command as exactly curl's intended arguments. These are `-s -i`, `-X M` for non-GET methods, one `-H` per kept header value (Host, Connection and `Sec-*` headers are skipped), `--data-binary` only for a POST or PUT with a body, then the URL. |
| WebProxy.CommandWordsAsWritten | web_proxy.go:110-138 | As written, the same arguments reach curl whenever the method is GET or a token of letters, digits and '-', and no single quote appears in a kept header line, a sent body or the URL. The quoting bug fires only outside these inputs. |
| WebProxy.AsWrittenQuoteBreaksCommand | web_proxy.go:126-138 | As written, a body holding a single quote leaves the shell with an unterminated quote. |
| WebProxy.BuildCommand | web_proxy.go:110-138 | The builder's loops produce Command. |
| WebProxy.SplitResponseRoundTrip | web_proxy.go:148-153 | The output splits at its first "\r\n\r\n", else its first "\n\n". Head, separator and body give the output back; with no separator there is no split. |
| WebProxy.HeaderLineShape | web_proxy.go:158-172 | A parsed header line has a non-empty key without a colon and no surrounding blanks on key or value. |
| WebProxy.HeaderMapKeys | web_proxy.go:154-173 | A header is set iff some line after the status line carries its key. |
| WebProxy.HeaderMapLastWins | web_proxy.go:157-172 | The last line with a key gives its value. |
| WebProxy.ParseHeaders | web_proxy.go:156-173 | The header loop computes HeaderMap. |
| WebProxy.ServeHTTP | web_proxy.go:95-182 | A session failure gives 500 and runs nothing. Otherwise the command run is the builder's, with the quoting given: `AsWritten` is the source's unescaped command, `Escaped` the corrected one. A curl failure gives 502. Otherwise the headers are parsed from the head, the body is exactly the part after the separator, and output with no separator is passed through whole. |
| Sidebar.KeepMatching | frontend/src/components/Sidebar.tsx:116-121 | Keeps exactly the matching hosts. |
| Sidebar.FilteredHosts | frontend/src/components/Sidebar.tsx:113-122 | An empty search gives every host unchanged; otherwise exactly the hosts matching the lower-cased search text. |
| Sidebar.KeepMatchingConcat | frontend/src/components/Sidebar.tsx:116-121 | Filtering never reorders hosts. |
| Sidebar.KeepMatchingAll | frontend/src/components/Sidebar.tsx:116-121 | Hosts that all match are all kept. |
| Sidebar.GroupedByTagMembers | frontend/src/components/Sidebar.tsx:133-145 | A tagged host appears in the group of every one of its tags, except a tag spelled like the ungrouped bucket (未分组): that group is overwritten by the untagged hosts whenever there are any. |
| Sidebar.UngroupedGroupExists | frontend/src/components/Sidebar.tsx:133-146 | The ungrouped bucket (未分组) exists iff some host lacks tags or some host carries a tag of that very name. When some host lacks tags, the bucket holds exactly those hosts. |
| Sidebar.GroupHosts | frontend/src/components/Sidebar.tsx:125-149 | The grouping loop builds Grouped: one group holding every filtered host when grouping is off, otherwise one group per tag in filtered order plus the ungrouped bucket. |
| Sidebar.PushTags | frontend/src/components/Sidebar.tsx:135-138 | Pushing one host's tags extends each tag's group by that host. |
| Sidebar.GroupedAsWrittenThrowsOnToString | frontend/src/components/Sidebar.tsx:130-137 | As written, a host tagged `toString` makes the grouping throw. |
| Sidebar.GroupedAsWrittenAgrees | frontend/src/components/Sidebar.tsx:130-148 | Unless a tag names an inherited object property, the grouping as written equals the intended one. |
| Sidebar.Toggle | frontend/src/components/Sidebar.tsx:26-36 | Flips membership of exactly one group name. |
| Sidebar.ToggleTwice | frontend/src/components/Sidebar.tsx:26-36 | Toggling twice is the identity. |
| Sidebar.SidebarView.ToggleGroup | frontend/src/components/Sidebar.tsx:26-36 | The expanded set becomes its toggle. |
| Sidebar.SidebarView.ExpandAllOnTagMode | frontend/src/components/Sidebar.tsx:152-156 | In tag mode, exactly the current groups are expanded; otherwise nothing changes. |
| FileBrowser.LastSlash | frontend/src/components/FileBrowser.tsx:230 | Finds the last '/', or none when there is no '/'. |
| FileBrowser.ParentPathRooted | frontend/src/components/FileBrowser.tsx:229-232 | Go-up keeps a path rooted and strictly shortens it until "/", which is its own parent. |
| FileBrowser.ChildPathShape | frontend/src/components/FileBrowser.tsx:181 | The joined path has no run of '/', keeps every other character of folder and name in order, and stays rooted. |
| FileBrowser.ParentOfChild | frontend/src/components/FileBrowser.tsx:181 | Going up from a child of a well-formed folder gives the folder back. |
| FileBrowser.NewFolderPath | frontend/src/components/FileBrowser.tsx:178-181 | An empty name makes no call. |
| FileBrowser.RenameKeepsFolder | frontend/src/components/FileBrowser.tsx:166 | Rename replaces only the text after the last '/', and leaves a path ending in '/' unchanged. |
| FileBrowser.RenameCall | frontend/src/components/FileBrowser.tsx:162-169 | No call for a cancelled, empty or unchanged name; otherwise the file's own path is renamed. |
| FileBrowser.RenameAgreesWithoutDollar | frontend/src/components/FileBrowser.tsx:166 | Without '$', rename as written equals the literal replacement. |
| FileBrowser.AsWrittenRenameExpandsDollar | frontend/src/components/FileBrowser.tsx:166 | As written, the name `$&.bak` expands to the old name plus ".bak". |
| FileBrowser.FileBrowserView.LoadDirectory | frontend/src/components/FileBrowser.tsx:51-63 | A listing that succeeds replaces the files and the folder; a failure changes neither. |
| FileBrowser.FileBrowserView.DoubleClick | frontend/src/components/FileBrowser.tsx:102-106 | Navigates only into directories. |
| FileBrowser.FileBrowserView.GoUp | frontend/src/components/FileBrowser.tsx:229-232 | Loads the parent folder. |
| FileBrowser.FileBrowserView.Download | frontend/src/components/FileBrowser.tsx:124-145 | A chosen path and a started download append one entry with no progress; otherwise nothing changes. |
| FileBrowser.FileBrowserView.Upload | frontend/src/components/FileBrowser.tsx:194-218 | Appends one entry per started upload, under the collapsed child path, until the first failure. |
| FileBrowser.FileBrowserView.OnProgress | frontend/src/components/FileBrowser.tsx:87-91 | An event for a subscribed id replaces only that transfer's progress. |
| FileBrowser.FileBrowserView.Resubscribe | frontend/src/components/FileBrowser.tsx:80-99 | The corrected effect subscribes every listed transfer. |
| TransferList.SetProgress | frontend/src/components/FileTransfer.tsx:41-43 | Replaces the progress of exactly the entries with that id and leaves the others untouched. |
| TransferList.SetProgressKeepsIds | frontend/src/components/FileTransfer.tsx:41-43 | Progress updates never add, drop or reorder transfers. |
| TransferList.SetProgressLatestWins | frontend/src/components/FileTransfer.tsx:41-43 | The latest event for an id wins. |
| TransferList.SetProgressCommutes | frontend/src/components/FileTransfer.tsx:41-43 | Events for different ids commute. |
| TransferList.ProgressAfterStart | frontend/src/components/FileTransfer.tsx:64-70 | An event for a newly appended transfer updates only that entry. |
| TransferList.Uploads | frontend/src/components/FileTransfer.tsx:141-157 | The uploads listed are the files before the first failed call, in order, each with its path. |
| TransferList.UploadLoop | frontend/src/components/FileTransfer.tsx:141-157 | The upload loop lists exactly Uploads. |
| TransferList.ListenedDelivers | frontend/src/components/FileTransfer.tsx:36-51 | Every listed transfer is subscribed, and its event reaches it. |
| TransferList.AsWrittenStopsListening | frontend/src/components/FileBrowser.tsx:80-99 | As written, a transfer that already has progress is not resubscribed when a new one is added. |
| FileTransfer.DropPath | frontend/src/components/FileTransfer.tsx:144-146 | The drop path is the folder, then a '/' inserted only if the folder does not end in one, then the name. |
| FileTransfer.DropPathMatchesBrowser | frontend/src/components/FileTransfer.tsx:144-146 | For a well-formed folder, the drop path equals the browser's upload path. |
| FileTransfer.FileTransferPanel.Upload | frontend/src/components/FileTransfer.tsx:53-78 | No call unless both paths are non-empty. A started upload is appended with no progress and both fields are cleared; a failure changes nothing. |
| FileTransfer.FileTransferPanel.Download | frontend/src/components/FileTransfer.tsx:80-104 | Same guard and bookkeeping for a download. |
| FileTransfer.FileTransferPanel.Drop | frontend/src/components/FileTransfer.tsx:127-161 | Nothing for an empty drop or an empty or cancelled prompt. Otherwise it appends each started upload to its drop path until the first failure. |
| FileTransfer.FileTransferPanel.OnProgress | frontend/src/components/FileTransfer.tsx:40-44 | Replaces only that transfer's progress. |

## Left out

- SSH transport and networking are outside the model. This covers ssh.Dial, the client handshake, the PTY and shell requests, the output pump, the keepalive ticker, the port-forward accept loop and io.Copy. They are concurrency and foreign-library work; each appears as a success or error parameter.
- Encryption and persistence are outside the model. This covers the AES-GCM and argon2 envelopes, the master key, export encryption and file reads and writes. The decrypted host list is the state, and a read or write failure is a flag.
- SFTP byte copying and the OS file system are outside the model; the copy loop sees chunk outcomes only.
- Floating-point values are left out: transfer percent and speed (`buildProgress`), `formatSize`/`formatBytes`, and line-height settings.
- Progress events themselves (`emitProgress`, `GetTransferProgress`) are left out. The frontend receives a progress value as a parameter.
- `GetRemotePwd`, `CreateRemoteDir`, `RenameRemoteFile`, `startup` and `NewFileManager` are left out: each is one SFTP call with the same session and client checks as the modelled operations.
- The web-preview tunnel coordination in App.tsx (600-675), profile loading, editing and cloning in App.tsx, and the context menus are outside the core.
- Timers are left out: the 500 ms sweep and the 2 s wait are single steps, and the 1 s reload after uploads is left out.
- Ids and timestamps (`UnixNano`, `Date.now`, uuid, `time.Now`) are parameters.
- Transfers.FileManager.RunTransfer: a worker run is one atomic table update. Concurrent readers of the intermediate counts are not modelled; CopyMonotone states that those counts only grow.
- TermManager.TermManager.AppendRecord: every write is taken to succeed. The source stops the line loop at a failing write, after counting that line.
- TermManager.TermManager.Close: stopping every forward is modelled as emptying the session's forward map. The source stops them and leaves the entries, which nobody can reach once the session is taken.
- WebProxy.ParseHeaders: keys are stored as written. The source's `Header.Set` canonicalises them (textproto.CanonicalMIMEHeaderKey), and the model does not.
- WebProxy.BuildCommand: Go's random map iteration order over request headers is given as the sequence order.
- WebProxy.StartWebProxy: the HTTP server goroutine and its listen errors are not modelled.
- WebProxy.AsWrittenMethodWords: the shell model reads only spaces, single quotes and backslashes as special. A real shell also acts on `|`, `&`, `;`, `$` and `` ` ``, so a bare method such as `X|id` is a second injection route in the source. The model's bare-method lemma does not show that. CommandWordsAsWritten therefore asks for a method made of letters, digits and '-' only.
- WebProxy.ServeHTTP: `output` is a parameter, so nothing ties a command the shell cannot read to curl's failure (the 502 path).
- Transfers.FileManager.CancelTransfer: the request sets the transfer's cancel flag. The worker sees it at some later loop head, and that delivery is timing. The chunk outcomes the worker loop reads (`Chunk.cancelled`) are a parameter not tied to the flag, so WorkerCancelled holds for any chunk sequence.
- TermManager.TermManager.StartRecording: `filepath.Join` is modelled as `path.Join` (GoPath.PathJoin), which is what it is on a POSIX host. Windows separators are not modelled.
- Profiles.SortProfiles: `sort.SliceStable` is a library call. It is modelled as a pure insertion sort, not in place. A stable sorted permutation is unique, so the result is the same.
- Profiles.SortKey: `strings.ToLower` is modelled on ASCII letters only, and `UpdatedAt` strings are compared by code point. Sidebar.Matches uses `toLowerCase` with the same ASCII restriction.
- Workspace.App.Connect: the dialog fields, the theme and the terminal component the tab carries are not modelled.

## Findings

| source | as written | input that shows it | evidently intended | confidence | as-written member | corrected member |
|---|---|---|---|---|---|---|
| term_manager.go:463-482 | `Close` waits on `<-s.closed`, which only the output pump closes | a session started without an initial size and closed before its first resize | Close returns once the session is closed | not executed | TermManager.TermManager.CloseAsWritten, TermManager.CloseHangsBeforeFirstResize | TermManager.TermManager.Close |
| term_manager.go:370-410 | the session is registered before the immediate PTY/shell start, and a failure there returns an error without removing it | StartSSH with Cols = Rows = 80 whose PTY request fails | a failed StartSSH registers nothing | not executed | TermManager.TermManager.StartSSHAsWritten, TermManager.ShellFailureLeavesSession | TermManager.TermManager.StartSSH |
| profiles_manager.go:151-159 | a read or decrypt error of the saved hosts is ignored, and the merge starts from an empty list | an import while the hosts file exists but cannot be decrypted | the import reports the error and keeps the saved hosts | not executed | Profiles.ImportBaseAsWritten, Profiles.ImportAsWrittenDropsSavedHosts | Profiles.ImportBase, Profiles.ProfilesManager.ImportProfiles |
| web_proxy.go:114-138 | header values, the body and the URL are wrapped in single quotes without escaping, and the method is written bare | a POST whose body is `'` | every value reaches curl as one literal argument, as ServeHTTP with `Escaped` quoting runs it | not executed | WebProxy.AsWrittenQuoteBreaksCommand, WebProxy.CommandWordsAsWritten | WebProxy.CommandWords, WebProxy.ServeHTTP |
| frontend/src/components/FileBrowser.tsx:166 | `replace` with a string replacement expands `$&`, `` $` ``, `$'` and `$$` | renaming `/d/a.txt` to `$&.bak` gives `/d/a.txt.bak` | the typed name is used literally | not executed | FileBrowser.AsWrittenRenameExpandsDollar | FileBrowser.RenamedPath |
| frontend/src/components/FileBrowser.tsx:80-99 | the effect reruns on length changes only and subscribes only entries without progress; its cleanup drops the older subscriptions | start one download, receive a progress event, start a second: the first stops receiving events | every listed transfer keeps receiving its events | not executed | TransferList.AsWrittenStopsListening | TransferList.ListenedDelivers |
| frontend/src/components/Sidebar.tsx:130-137 | groups are kept on a plain object, so an inherited name such as `toString` is already truthy and `push` is called on a function | a host tagged `toString` | the host is grouped under `toString` | not executed | Sidebar.GroupedAsWrittenThrowsOnToString | Sidebar.GroupedAsWrittenAgrees |
