# codeReviewBuddy: a verified model of its sequential core

codeReviewBuddy is a browser code editor with a sandboxed terminal. Its backend
starts one Docker container per terminal session and one shared container for
the file endpoints. It runs shell commands in them and moves files in and out
as tar archives. It polls the workspace for changes. The React front end keeps
the project's files, the open tabs and the active file, and it asks an
execution service to run the active file.

This project models the sequential logic inside that plumbing and proves what
it promises:

- **DockerManager** (`docker_manager.dfy`) models the module-level `containers`
  registry as the class `Registry`, with a ghost log of the Docker calls it makes on containers (create, start, exec, upload, download, stop, remove); image building leaves no entry in it.
  It also holds:
  - the decoder that strips the 8-byte header from each output chunk (`CollectOutput`);
  - the concatenation of the archive entries' data chunks (`CollectArchive`);
  - the container configuration;
  - the "Container not found" guards.

  Every dockerode call is opaque: how it went is a parameter of the operation
  (`ProvisionOutcome`, `ExecOutcome`, `ArchiveOutcome`, `StepOutcome`,
  `TeardownOutcome`).
- **TerminalController** (`terminal_controller.dfy`) models the per-socket
  `terminals` table as the class `Terminals`. It covers session set-up, the
  `terminal-input` router and the disconnect handler. The router covers trimming,
  blank input, `cd` confinement to `/workspace`, command wrapping, errors and
  the closing prompt. What a handler emits is returned as the sequence of
  `terminal-output` messages.
- **FileWatcher** (`file_watcher.dfy`) models the `FileSystemWatcher` class: the
  `watchers` and `lastFileStates` maps, polling ticks that announce only
  changes, and the `path|seconds` listing parser.
- **FileController** (`file_controller.dfy`) models the three file endpoints:
  - input validation;
  - get-or-create of the shared container;
  - the `ls -la` parser;
  - the fail-soft `listFiles`.
- **App** (`app.dfy`) models the editor state of `App.jsx` as state-to-state
  functions: select, close, create, delete and code change. It also covers the
  output that `executeCode` shows.
- **FileExplorer** (`file_explorer.dfy`) models the extension-to-language
  lookup, `createFile` and the expanded-folder set.
- **Text** and **Lists** (`text.dfy`, `lists.dfy`) model the JavaScript string
  and array operations the code relies on: `trim`, `split`, `startsWith`,
  `split(/\s+/).pop()`, `parseInt`, `map` and `filter`. They carry the lemmas
  the properties above are built from. Wrappers (`wrappers.dfy`) holds
  `Option`, `Result` and `Unit`.

Clocks, socket handles and UUIDs are parameters: `now`, the returned emissions
and the given `id`.

## Model

| member | source | states |
|---|---|---|
| DockerManager.Registry.constructor | codeReviewBuddy/backend/controllers/dockerManager.js:6 | The registry starts empty, with no Docker call made. |
| DockerManager.Registry.GetContainer | codeReviewBuddy/backend/controllers/dockerManager.js:53-55 | The stored handle for the id, or None exactly when no entry is stored. |
| DockerManager.Registry.CreateContainer | codeReviewBuddy/backend/controllers/dockerManager.js:8-51 | The session's entry, holding the handle, the id and the time, is recorded only once the container has started. A failed build, creation or start leaves the map as it was and rethrows the error. The log gains the create call, and the start call when creation succeeded; a failed build adds nothing, since image building is not logged. |
| DockerManager.Registry.ExecuteCommand | codeReviewBuddy/backend/controllers/dockerManager.js:57-94 | Without an entry the result is "Container not found" and nothing is executed. Otherwise `bash -c command` runs once in the session's container, and the result is the stripped, decoded output once the stream ends, or the error. |
| DockerManager.Registry.WriteFile | codeReviewBuddy/backend/controllers/dockerManager.js:96-117 | Without an entry the result is "Container not found" and nothing is uploaded. Otherwise exactly one archive is uploaded into `/workspace`, holding one entry named after the file with the content, and the upload's failure is the result. |
| DockerManager.Registry.ReadFile | codeReviewBuddy/backend/controllers/dockerManager.js:119-153 | Without an entry the result is "Container not found" and nothing is downloaded. Otherwise `/workspace/<file>` is downloaded once, and the result is the data of all its entries or the stream's error. |
| DockerManager.Registry.CleanupContainer | codeReviewBuddy/backend/controllers/dockerManager.js:155-171 | An absent id is a no-op. For a present id the container is stopped, then removed only if the stop succeeded. The entry is deleted only when both succeed, and no failure escapes. |
| DockerManager.CollectOutput | codeReviewBuddy/backend/controllers/dockerManager.js:74-81 | The output is the in-order concatenation of `chunk[8..]` over all chunks (as `StripHeaders`). Chunks of 8 bytes or fewer add nothing. |
| DockerManager.StripHeadersAppend | codeReviewBuddy/backend/controllers/dockerManager.js:76-81 | Decoding is chunk by chunk: the output of two runs of chunks is the first's output followed by the second's. |
| DockerManager.ShortChunkAddsNothing | codeReviewBuddy/backend/controllers/dockerManager.js:78 | A chunk no longer than the header can be removed from any position without changing the output. |
| DockerManager.OneFramePerChunk | codeReviewBuddy/backend/controllers/dockerManager.js:76-81 | When each chunk carries exactly one multiplexed frame, the decoder gives back the frames' payloads in order, empty frames included. |
| DockerManager.CoalescedFramesKeepHeader | codeReviewBuddy/backend/controllers/dockerManager.js:78-79 | For any two frames arriving in one chunk, the output is the first payload followed by the whole second frame, header included. |
| DockerManager.CoalescedFramesMisdecode | codeReviewBuddy/backend/controllers/dockerManager.js:78-79 | A concrete instance: one frame sent twice in one chunk decodes to something other than its two payloads. |
| DockerManager.CollectArchive | codeReviewBuddy/backend/controllers/dockerManager.js:130-138 | The content is the in-order concatenation of every data chunk of every archive entry (as `EntriesContent`). |
| DockerManager.CutsRoundTrip | codeReviewBuddy/backend/controllers/dockerManager.js:133-135 | For any chunk sizes adding up to the file's length, cutting the file into chunks of those sizes and concatenating them gives the file back. |
| DockerManager.SingleEntryContent | codeReviewBuddy/backend/controllers/dockerManager.js:128-147 | Downloading a one-entry archive yields that entry's data, for any chunk sizes adding up to its length. |
| DockerManager.SandboxConfig | codeReviewBuddy/backend/controllers/dockerManager.js:16-32 | The sandbox image is `code-sandbox:latest` and the container is named `sandbox-<id>`. It has a TTY, open stdin that is not closed after one attach, all three streams attached, and `TERM=xterm` as its environment. |
| DockerManager.SandboxLimits | codeReviewBuddy/backend/controllers/dockerManager.js:25-31 | Every sandbox has 512*1024*1024 bytes of memory, CPU weight 512 and network mode `none`, and starts in `/workspace`. |
| DockerManager.ContainerNamesDistinct | codeReviewBuddy/backend/controllers/dockerManager.js:18 | Distinct session ids give distinct container names, `sandbox-<id>`. |
| TerminalController.Terminals.constructor | codeReviewBuddy/backend/controllers/terminalController.js:3 | The table starts empty, and so satisfies the workspace invariant. |
| TerminalController.Terminals.CreateTerminal | codeReviewBuddy/backend/controllers/terminalController.js:5-28 | After the initializing notice, an entry at `/workspace` is recorded only when the container was created, followed by the ready lines and a prompt. A failure records nothing and emits the error and a prompt. The registry changes as `createContainer` says. |
| TerminalController.Terminals.HandleInput | codeReviewBuddy/backend/controllers/terminalController.js:30-75 | The emissions are `Respond` of the classified input. The table changes only by a confined `cd` move. The only command executed is `Executed`'s, and none for blank input or a missing entry. The invariant that every directory lies in `/workspace` is kept. |
| TerminalController.Terminals.Disconnect | codeReviewBuddy/backend/controllers/terminalController.js:77-83 | The session's container is cleaned up as `cleanupContainer` says, and its entry is deleted whatever the cleanup did. |
| TerminalController.Classify | codeReviewBuddy/backend/controllers/terminalController.js:31-34 | The input is blank exactly when it trims to nothing, and is a directory change exactly when its trimmed form starts with `cd `. Any other input runs as its trimmed form. |
| TerminalController.BlankInputReprompts | codeReviewBuddy/backend/controllers/terminalController.js:31-37 | Whitespace-only input emits `\r\n$ `, executes nothing and leaves the entry unchanged. |
| TerminalController.NoSessionRunsNothing | codeReviewBuddy/backend/controllers/terminalController.js:42-46 | Without an entry, input that is not blank emits the new line and "Sandbox not available" with a prompt. Nothing is executed and no entry appears. |
| TerminalController.CdArgumentNeverBlank | codeReviewBuddy/backend/controllers/terminalController.js:50 | After trimming, a `cd ` line always has a non-blank argument, so the `/workspace` fallback is never taken. |
| TerminalController.CdExecutesTrimmedTarget | codeReviewBuddy/backend/controllers/terminalController.js:49-51 | `cd X` executes exactly `cd <trim(X)> && pwd`. |
| TerminalController.ResolvedPathIsLastLine | codeReviewBuddy/backend/controllers/terminalController.js:54-55 | The candidate path is the text after the last new line of the trimmed output. |
| TerminalController.ResolvedPathIsOneLine | codeReviewBuddy/backend/controllers/terminalController.js:54-55 | The candidate path holds no new line. |
| TerminalController.SingleLineOutput | codeReviewBuddy/backend/controllers/terminalController.js:54-55 | When the trimmed output is one line, that line is the candidate. |
| TerminalController.CdConfinement | codeReviewBuddy/backend/controllers/terminalController.js:57-62 | A successful `cd` moves the directory exactly when the candidate starts with `/workspace`, and announces the move. Otherwise it emits access denied and keeps the directory. |
| TerminalController.DirectoryStaysInWorkspace | codeReviewBuddy/backend/controllers/terminalController.js:16 | No request and no result can move a directory that starts with `/workspace` to one that does not. The entry and its container are kept. |
| TerminalController.StoreKeepsInWorkspace | codeReviewBuddy/backend/controllers/terminalController.js:58 | Storing a directory within the workspace keeps the whole table within it. |
| TerminalController.RunEmitsOutputVerbatim | codeReviewBuddy/backend/controllers/terminalController.js:63-67 | Any other command executes as `cd <currentDir> && <command>`. Its output is emitted verbatim between the new line and the prompt, and the directory is unchanged. |
| TerminalController.BareCdIsOrdinary | codeReviewBuddy/backend/controllers/terminalController.js:49 | A bare `cd` (what trimming makes of `cd `) runs as an ordinary command. |
| TerminalController.ErrorsAreReported | codeReviewBuddy/backend/controllers/terminalController.js:70-74 | A failed command emits an error notice followed by the prompt, and the directory is unchanged. |
| TerminalController.EveryAnswerPrompts | codeReviewBuddy/backend/controllers/terminalController.js:34-74 | Every answer to a line of input ends with `$ `. |
| TerminalController.SiblingDirectoryPasses | codeReviewBuddy/backend/controllers/terminalController.js:57 | The confinement check is textual: `/workspace2` passes it and `/work` does not. |
| FileWatcher.FileSystemWatcher.constructor | codeReviewBuddy/backend/controllers/fileWatcher.js:3-8 | Both maps start empty and no timer is running. |
| FileWatcher.FileSystemWatcher.StartWatching | codeReviewBuddy/backend/controllers/fileWatcher.js:10-26 | A session's old timer is stopped and its baseline dropped before the new timer is set. Every running timer belongs to exactly one session. |
| FileWatcher.FileSystemWatcher.CheckForChanges | codeReviewBuddy/backend/controllers/fileWatcher.js:28-47 | The listing command runs once. The parsed listing is emitted, and the baseline becomes the trimmed output, exactly when the output differs from the baseline. A failure changes nothing. |
| FileWatcher.FileSystemWatcher.StopWatching | codeReviewBuddy/backend/controllers/fileWatcher.js:67-75 | For a session with a timer, the timer is cleared and both entries are removed. A session without one is left alone. |
| FileWatcher.FileSystemWatcher.Cleanup | codeReviewBuddy/backend/controllers/fileWatcher.js:77-81 | Every timer is stopped, so no watcher and no running timer remain, and every watched session's baseline is dropped. |
| FileWatcher.SuccessSetsBaseline | codeReviewBuddy/backend/controllers/fileWatcher.js:32-43 | After a successful tick the baseline is its trimmed output. The tick emitted exactly when that differs from the old baseline. |
| FileWatcher.FailureIsSilent | codeReviewBuddy/backend/controllers/fileWatcher.js:44-46 | A failed command emits nothing and keeps the baseline. |
| FileWatcher.FirstTickAnnounces | codeReviewBuddy/backend/controllers/fileWatcher.js:34-36 | Without a baseline, the first successful tick emits, even for an empty listing. |
| FileWatcher.StableListingAnnouncesOnce | codeReviewBuddy/backend/controllers/fileWatcher.js:36 | Over any run of ticks that see the same listing, with failures among them, at most one emission occurs. None occurs if the baseline already is that listing. |
| FileWatcher.ParseFileList | codeReviewBuddy/backend/controllers/fileWatcher.js:49-65 | There is at most one file per non-blank line. Every file is a visible plain file whose path is its name. |
| FileWatcher.ParseFileListIsPipeline | codeReviewBuddy/backend/controllers/fileWatcher.js:50-52 | The early return for blank output agrees with the filter-map-filter pipeline, which finds no file there either. |
| FileWatcher.PipelineAppend | codeReviewBuddy/backend/controllers/fileWatcher.js:52-64 | The listing is parsed line by line, in input order. |
| FileWatcher.FilesComeFromLines | codeReviewBuddy/backend/controllers/fileWatcher.js:52-62 | Every emitted file is the parse of some non-blank line. |
| FileWatcher.LineIsAnnounced | codeReviewBuddy/backend/controllers/fileWatcher.js:53-64 | A non-blank line whose file is visible has that file in the result. |
| FileWatcher.ParseLine | codeReviewBuddy/backend/controllers/fileWatcher.js:55-62 | Every parsed entry is of type `file`, with its path equal to its name. |
| FileWatcher.StatLineParses | codeReviewBuddy/backend/controllers/fileWatcher.js:55-61 | A `path|seconds` line parses to the base name of the path, with the time in milliseconds. |
| FileWatcher.StatLineFields | codeReviewBuddy/backend/controllers/fileWatcher.js:55 | A `stat` line splits at `|` into the path and the digits. |
| FileWatcher.LineFields | codeReviewBuddy/backend/controllers/fileWatcher.js:55-61 | The name comes from the first field and the time from the second. |
| FileWatcher.BaseNameIsAfterLast | codeReviewBuddy/backend/controllers/fileWatcher.js:56 | The name is the last `/`-segment of the path. |
| FileWatcher.MillisOfDecimal | codeReviewBuddy/backend/controllers/fileWatcher.js:61 | A decimal timestamp is read back, multiplied by 1000. |
| FileWatcher.SingleLine | codeReviewBuddy/backend/controllers/fileWatcher.js:52-64 | A non-blank line with a visible file yields exactly that file. |
| FileWatcher.TwoLines | codeReviewBuddy/backend/controllers/fileWatcher.js:50-64 | Two lines of a listing yield the first's files followed by the second's. |
| FileWatcher.StatLineIsOneLine | codeReviewBuddy/backend/controllers/fileWatcher.js:31 | A `stat` line is one line when its path is. |
| FileWatcher.StatLineNonBlank | codeReviewBuddy/backend/controllers/fileWatcher.js:53 | A `stat` line whose path starts with a non-blank character passes the blank-line filter. |
| FileWatcher.WorkspaceFileParses | codeReviewBuddy/backend/controllers/fileWatcher.js:55-61 | The line `/workspace/<name>|<seconds>` that `stat` prints for a file in the workspace root parses to a file named and located `<name>`, modified at the seconds times 1000. |
| FileWatcher.PlainFileLine | codeReviewBuddy/backend/controllers/fileWatcher.js:52-64 | The line `/workspace/<name>|<seconds>` of a plain, visible root file is one non-blank line and yields exactly that file. |
| FileWatcher.ExampleStatLines | codeReviewBuddy/backend/controllers/fileWatcher.js:31 | `stat` prints `/workspace/a.py` at 2000 seconds as `/workspace/a.py|2000`, and likewise for `b.py`. |
| FileWatcher.TwoFiles | codeReviewBuddy/backend/controllers/fileWatcher.js:49-65 | A listing of the `/workspace/<name>|<seconds>` lines of two plain root files, joined by a newline, yields both files, in their order. |
| FileWatcher.TwoFileListing | codeReviewBuddy/backend/controllers/fileWatcher.js:49-65 | `/workspace/a.py|2000\n/workspace/b.py|2000` yields `a.py` and `b.py`, each modified at 2000000 ms. |
| FileController.SaveFile | codeReviewBuddy/backend/controllers/fileController.js:15-41 | A missing `fileName` or an undefined `content` is answered 400 and touches nothing. Otherwise the shared container is fetched, and created only if absent. Then exactly one upload of the file is made. The registry changes only as get-or-create does. Success is answered 200 and any failure 500. |
| FileController.LoadFile | codeReviewBuddy/backend/controllers/fileController.js:43-70 | A missing `fileName` is answered 400 and touches nothing. Otherwise the shared container is fetched, and created only if absent. Then exactly one download of `/workspace/<fileName>` is made. The registry changes only as get-or-create does. The content is answered with 200 and any failure with 500. |
| FileController.ListFiles | codeReviewBuddy/backend/controllers/fileController.js:72-113 | The status is always 200. The files are the parsed `ls -la` output, or none when creation or the command fails. The shared container is created only if absent, and the listing command runs once if it is there. The registry changes only as get-or-create does. |
| FileController.GetOrCreate | codeReviewBuddy/backend/controllers/fileController.js:25-28 | `createContainer` is called only when `getContainer` finds nothing. Success means the shared container is registered. |
| FileController.Acquired | codeReviewBuddy/backend/controllers/fileController.js:77-85 | The container is available exactly when it was present or has just started. Otherwise the failure is the creation's error. |
| FileController.SaveReply | codeReviewBuddy/backend/controllers/fileController.js:30-40 | The reply is 200 exactly when the container was had and the write succeeded; any other reply is a 500 error. |
| FileController.LoadReply | codeReviewBuddy/backend/controllers/fileController.js:58-69 | The reply is 200 exactly when the container was had and the download ended, and then it carries the content and the file name. Any other reply is a 500 error. |
| FileController.ListReply | codeReviewBuddy/backend/controllers/fileController.js:81-111 | The reply is always a success, holding the parsed files only if both steps succeeded. |
| FileController.Entry | codeReviewBuddy/backend/controllers/fileController.js:90-101 | A kept line gives an entry exactly when its last whitespace-separated field is not empty, `.` or `..`. The entry is named by that field, with path equal to the name and type `file`. |
| FileController.ParseListing | codeReviewBuddy/backend/controllers/fileController.js:88-102 | There is at most one file per line of the trimmed output. |
| FileController.StagesAppend | codeReviewBuddy/backend/controllers/fileController.js:88-102 | The listing is parsed line by line, in input order. |
| FileController.ListedIsNamed | codeReviewBuddy/backend/controllers/fileController.js:89-102 | Every listed file comes from a kept line that names it. |
| FileController.NamedIsListed | codeReviewBuddy/backend/controllers/fileController.js:89-102 | Every kept line with an acceptable name has its file listed. |
| FileController.ListedIffNamed | codeReviewBuddy/backend/controllers/fileController.js:89-102 | A file is listed exactly when some kept line names it. |
| FileController.ListedFileShape | codeReviewBuddy/backend/controllers/fileController.js:91-98 | Every listed file has type `file` and path equal to its name. Its name is a single non-empty field other than `.` and `..`. |
| FileController.OneLine | codeReviewBuddy/backend/controllers/fileController.js:89-102 | A single line lists its entry if the line is kept and the entry exists, and nothing otherwise. |
| FileController.FileRowListsName | codeReviewBuddy/backend/controllers/fileController.js:89-98 | An `ls -la` row of a file, made of metadata, whitespace and then the name, lists exactly that name. |
| FileController.BlankOutputListsNothing | codeReviewBuddy/backend/controllers/fileController.js:88-89 | Blank output lists nothing. |
| FileController.HeaderAndDirectoriesAreSkipped | codeReviewBuddy/backend/controllers/fileController.js:89 | The `total` header and the directory rows (`d…`) contribute nothing. Only the rows after them are listed. |
| App.Initial | codeReviewBuddy/src/App.jsx:13-24 | The editor starts with one Python file, `main.py`, no tab, no active file, empty output and not loading. |
| App.Select | codeReviewBuddy/src/App.jsx:27-32 | A tab is appended only when no open tab has the file's id, and the file becomes active. |
| App.Close | codeReviewBuddy/src/App.jsx:34-40 | Every tab with the id is removed. If the active file had the id, the first remaining tab (or none) becomes active; otherwise the active file is unchanged. |
| App.Create | codeReviewBuddy/src/App.jsx:42-44 | Exactly one file is appended, and the existing files and tabs are unchanged. |
| App.Delete | codeReviewBuddy/src/App.jsx:46-49 | Every file with the id is removed from the project, and then the id is closed. |
| App.Edited | codeReviewBuddy/src/App.jsx:52-57 | Only a file with a matching id gets the new content, and every other field is kept. |
| App.EditAll | codeReviewBuddy/src/App.jsx:52-57 | The length is preserved, and each file is edited in place. |
| App.ChangeCode | codeReviewBuddy/src/App.jsx:51-61 | The content is replaced in the files and tabs with the id. The active file is updated only if it matches. |
| App.PickOutput | codeReviewBuddy/src/App.jsx:74 | The output is stdout if non-empty, else stderr if non-empty, else `No output`, and so never empty. |
| App.RunRequest | codeReviewBuddy/src/App.jsx:64-71 | A request is sent exactly when a file is active, holding its language and content. |
| App.ExecuteCode | codeReviewBuddy/src/App.jsx:63-79 | Nothing changes without an active file. Otherwise the output is the chosen output or `Error: <message>`, and loading ends. |
| App.InitialValid | codeReviewBuddy/src/App.jsx:21-22 | The initial state satisfies the tab invariant: unique tab ids, and an active file that is open. |
| App.ClosedTabs | codeReviewBuddy/src/App.jsx:35 | Closing keeps exactly the tabs of other ids, so no tab with the id remains. |
| App.FilterKeepsUnique | codeReviewBuddy/src/App.jsx:35 | Filtering tabs keeps their ids distinct. |
| App.SelectValid | codeReviewBuddy/src/App.jsx:27-32 | Selecting keeps tab ids unique and the active file among the tabs. |
| App.CloseValid | codeReviewBuddy/src/App.jsx:34-40 | Closing keeps the tab invariant. |
| App.DeleteValid | codeReviewBuddy/src/App.jsx:46-49 | Deleting keeps the tab invariant, and no file or tab with the id remains. |
| App.ChangeCodeValid | codeReviewBuddy/src/App.jsx:51-61 | Changing code keeps the tab invariant. |
| App.CreateAndExecuteValid | codeReviewBuddy/src/App.jsx:42-44 | Creating a file and running code keep the tab invariant. |
| App.SelectIdempotent | codeReviewBuddy/src/App.jsx:27-32 | Selecting a file twice is the same as selecting it once. |
| App.CloseIdempotent | codeReviewBuddy/src/App.jsx:34-40 | Closing an id twice is the same as closing it once. |
| App.OutputNeverBlank | codeReviewBuddy/src/App.jsx:74-78 | With an active file, the output pane is never empty once a run finishes, and loading has ended. |
| FileExplorer.ExtensionIsAfterLastDot | codeReviewBuddy/src/components/FileExplorer.jsx:32 | The extension is the text after the last `.`, or the whole name when there is none, and it holds no dot. |
| FileExplorer.LanguageOf | codeReviewBuddy/src/components/FileExplorer.jsx:31-43 | A known extension gives its language from the map, and anything else gives `plaintext`. |
| FileExplorer.LanguageIsKnown | codeReviewBuddy/src/components/FileExplorer.jsx:33-42 | The language is one of the seven in the map, or `plaintext`. |
| FileExplorer.LanguageOfDotted | codeReviewBuddy/src/components/FileExplorer.jsx:32-42 | `stem.ext` takes the language of `ext`. |
| FileExplorer.LanguageOfUndotted | codeReviewBuddy/src/components/FileExplorer.jsx:32-42 | A name without a dot is its own extension. |
| FileExplorer.BareCIsC | codeReviewBuddy/src/components/FileExplorer.jsx:38 | The bare name `c` maps to `c`. |
| FileExplorer.CreateFile | codeReviewBuddy/src/components/FileExplorer.jsx:18-29 | A file is created exactly for a non-empty name. It is empty, of type `file`, with the language from the lookup. |
| FileExplorer.CreateAppendsOneFile | codeReviewBuddy/src/components/FileExplorer.jsx:20-27 | A confirmed name appends one new empty file to the project, and the tabs are unchanged. |
| FileExplorer.CancelCreatesNothing | codeReviewBuddy/src/components/FileExplorer.jsx:20 | Cancelling the prompt or confirming an empty name changes nothing. |
| FileExplorer.Toggled | codeReviewBuddy/src/components/FileExplorer.jsx:9-14 | The folder is removed if present and added if absent, and every other folder is unchanged. |
| FileExplorer.ToggleTwice | codeReviewBuddy/src/components/FileExplorer.jsx:8-16 | Toggling a folder twice restores the set. |
| FileExplorer.ToggleCommutes | codeReviewBuddy/src/components/FileExplorer.jsx:8-16 | Toggling two folders in either order gives the same set. |
| FileExplorer.Explorer.constructor | codeReviewBuddy/src/components/FileExplorer.jsx:6 | Only `root` starts expanded. |
| FileExplorer.Explorer.ToggleFolder | codeReviewBuddy/src/components/FileExplorer.jsx:8-16 | The stored set becomes the toggled copy of the old one. |
| Text.Trim | codeReviewBuddy/backend/controllers/terminalController.js:31 | `trim` strips leading and trailing JavaScript whitespace: the result has none at either end. |
| Text.TrimIdempotent | codeReviewBuddy/backend/controllers/fileWatcher.js:32 | Trimming again changes nothing. |
| Text.TrimEmpty | codeReviewBuddy/backend/controllers/fileWatcher.js:50 | A string trims to nothing exactly when every character is whitespace. |
| Text.SplitJoin | codeReviewBuddy/backend/controllers/fileWatcher.js:52 | Splitting a join of `c`-free pieces by `c` gives back exactly those pieces. |
| Text.SplitPieces | codeReviewBuddy/backend/controllers/fileWatcher.js:52 | No piece of `split(c)` holds `c`. |
| Text.SplitAround | codeReviewBuddy/backend/controllers/fileWatcher.js:55 | Splitting `a + c + b` gives the pieces of `a` followed by those of `b`. |
| Text.AfterLastOf | codeReviewBuddy/src/components/FileExplorer.jsx:32 | After `a + c + b`, with `b` free of `c`, the last piece is `b`. |
| Text.LastOfSplit | codeReviewBuddy/backend/controllers/fileWatcher.js:56 | `split(c).pop()` is the text after the last `c`. |
| Text.LastFieldNoWhitespace | codeReviewBuddy/backend/controllers/fileController.js:91-92 | The last whitespace-separated field holds no whitespace. |
| Text.LastFieldAfter | codeReviewBuddy/backend/controllers/fileController.js:91-92 | After a whitespace character followed by a field with no whitespace, that field is the last. |
| Text.ParseIntDecimal | codeReviewBuddy/backend/controllers/fileWatcher.js:61 | `parseInt` reads a decimal numeral back as its value. |
| Lists.FilterKeeps | codeReviewBuddy/backend/controllers/fileWatcher.js:53 | `filter` keeps an element exactly when it occurs and passes. |
| Lists.FilterAppend | codeReviewBuddy/backend/controllers/fileWatcher.js:53 | `filter` distributes over concatenation, so order is preserved. |
| Lists.MapAppend | codeReviewBuddy/backend/controllers/fileWatcher.js:54 | `map` distributes over concatenation. |
| Lists.SomesKeeps | codeReviewBuddy/backend/controllers/fileController.js:102 | Dropping the `null`s keeps a value exactly when it was present. |
| Lists.SomesAppend | codeReviewBuddy/backend/controllers/fileController.js:102 | Dropping the `null`s distributes over concatenation. |

## Left out

- Image building (`buildSandboxImage`) and everything inside dockerode and tar-stream (`exec`, `putArchive`, `getArchive`, `pack.entry`, the tar format). These are foreign library calls. Each is an outcome parameter. The ghost log records only the container calls made after the image is ready (create, start, exec, `putArchive`, `getArchive`, stop, remove); the image listing and build of `buildSandboxImage` leave no entry, so a build failure records nothing.
- Character decoding: `Buffer.toString()` decodes UTF-8 chunk by chunk, which the model does not. `Latin1` reads each byte as the character of that code.
- DockerManager.CollectOutput: the per-chunk `chunk.slice(8)` yields the command's real output only when each chunk holds exactly one of Docker's multiplexed frames (`OneFramePerChunk`). When frames are coalesced into one chunk, later headers end up in the output (`CoalescedFramesKeepHeader`). Splitting a frame across chunks is not modelled.
- Timers: `setInterval`, the 2-second period and the callback's own `try`/`catch`. A tick is an explicit `CheckForChanges` call, and a timer is a handle passed to `StartWatching`.
- Concurrency and interleaving: two requests racing through get-or-create, and ticks overlapping handlers. Each operation runs to completion.
- The SIGINT handler of the file controller: a process signal and `process.exit`.
- Logging with `console.log` and `console.error`.
- Socket and HTTP objects. Emissions are returned as sequences, and replies as a status and a body.
- `parseInt` beyond decimal integers written without a fraction. `ParseInt` follows its rules for whitespace, sign, a `0x` prefix and the longest digit prefix, but floating-point precision for huge values is not modelled. NaN is `None`.
- FileExplorer.LanguageOf: keys inherited from `Object.prototype` (`constructor`, `toString`, …). Those extensions give a function, or an object for `__proto__`; JavaScript treats both as truthy. The model gives them `plaintext`.
- Request bodies whose `fileName` or `content` is a number, a boolean or `null`: the model takes them to be strings or absent.
- The unused `sessionId` field of the save request.
- The `cd` command runs `cd X && pwd` from the container's working directory `/workspace`, not from the tracked directory. The model keeps that behaviour, so a relative `cd` is relative to `/workspace`.
- React rendering, the other components, `server.js`, the routes, and the AI and code-execution controllers. They are wiring and rendering, with no sequential logic of their own.
