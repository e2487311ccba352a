/** The file endpoints of the backend. They all work in one shared container,
    which each handler fetches from the registry and provisions if it is missing
    (get-or-create). `saveFile` and `loadFile` check their input and then
    upload or download one file. `listFiles` parses `ls -la` output and never
    reports a failure. A handler's reply is a status together with its JSON
    body. How each Docker step goes is a parameter of the handler. */
module FileController {
  import opened Wrappers
  import opened Text
  import opened Lists
  import D = DockerManager

  /** The registry key of the container shared by the file endpoints. */
  const SharedWorkspace := "shared-workspace"

  /** The command `listFiles` runs. */
  const ListCommand := "ls -la /workspace"

  const MissingFields := "Missing required fields"
  const MissingFileName := "Missing fileName"

  /** An entry of the `files` array `listFiles` answers with. */
  datatype ListedFile = ListedFile(name: string, path: string, kind: string)

  /** The JSON body of a reply. Every body other than `Failure` also carries
      `success: true`. */
  datatype Body =
    | Failure(error: string)
    | Saved(message: string)
    | Loaded(content: string, fileName: string)
    | Files(files: seq<ListedFile>)

  datatype Reply = Reply(status: nat, body: Body)

  // ---------------------------------------------------------------------------
  // Parsing `ls -la`

  /** The lines `listFiles` keeps: not blank, not the `total` header, not a
      directory (its mode string starts with `d`). */
  predicate KeptLine(line: string) {
    !IsBlank(line) && !StartsWith(line, "total") && !StartsWith(line, "d")
  }

  /** The entry of a kept line: its last whitespace-separated field names the
      file. An empty name, `.` and `..` give `null`. */
  function Entry(line: string): (e: Option<ListedFile>)
    ensures e.Some? ==> e.value == ListedFile(LastField(line), LastField(line), "file")
    ensures e.Some? <==> LastField(line) != "" && LastField(line) != "." && LastField(line) != ".."
  {
    var name := LastField(line);
    if name != "" && name != "." && name != ".." then Some(ListedFile(name, name, "file")) else None
  }

  /** The filter-map-filter chain over the lines of a listing. */
  function Stages(lines: seq<string>): seq<ListedFile> {
    Somes(Map(Entry, Filter(KeptLine, lines)))
  }

  /** The files of the trimmed `ls -la` output: at most one per line. */
  function ParseListing(output: string): (files: seq<ListedFile>)
    ensures |files| <= |Split(Trim(output), '\n')|
  {
    Stages(Split(Trim(output), '\n'))
  }

  /** The listing is parsed line by line, in order. */
  lemma StagesAppend(a: seq<string>, b: seq<string>)
    ensures Stages(a + b) == Stages(a) + Stages(b)
  {
    FilterAppend(KeptLine, a, b);
    MapAppend(Entry, Filter(KeptLine, a), Filter(KeptLine, b));
    SomesAppend(Map(Entry, Filter(KeptLine, a)), Map(Entry, Filter(KeptLine, b)));
  }

  /** Every listed file is named by a kept line. */
  lemma ListedIsNamed(lines: seq<string>, f: ListedFile) returns (line: string)
    requires f in Stages(lines)
    ensures line in lines && KeptLine(line) && Entry(line) == Some(f)
  {
    var kept := Filter(KeptLine, lines);
    var entries := Map(Entry, kept);
    SomesKeeps(entries, f);
    var k :| 0 <= k < |entries| && entries[k] == Some(f);
    line := kept[k];
    FilterKeeps(KeptLine, lines, line);
  }

  /** Every kept line with an acceptable name has its file listed. */
  lemma NamedIsListed(lines: seq<string>, line: string)
    requires line in lines && KeptLine(line) && Entry(line).Some?
    ensures Entry(line).value in Stages(lines)
  {
    var kept := Filter(KeptLine, lines);
    var entries := Map(Entry, kept);
    FilterKeeps(KeptLine, lines, line);
    var k :| 0 <= k < |kept| && kept[k] == line;
    assert entries[k] == Entry(line);
    SomesKeeps(entries, Entry(line).value);
  }

  /** A file is listed exactly when some kept line of the output names it. */
  lemma ListedIffNamed(lines: seq<string>, f: ListedFile)
    ensures f in Stages(lines) <==> exists line :: line in lines && KeptLine(line) && Entry(line) == Some(f)
  {
    if f in Stages(lines) {
      var line := ListedIsNamed(lines, f);
    }
    if line :| line in lines && KeptLine(line) && Entry(line) == Some(f) {
      NamedIsListed(lines, line);
    }
  }

  /** Every listed file is a plain file whose path is its name, and that name
      is a single non-empty field other than `.` and `..`. */
  lemma ListedFileShape(output: string, f: ListedFile)
    requires f in ParseListing(output)
    ensures f.path == f.name && f.kind == "file"
    ensures f.name != "" && f.name != "." && f.name != ".."
    ensures forall k :: 0 <= k < |f.name| ==> !IsWhitespace(f.name[k])
  {
    var line := ListedIsNamed(Split(Trim(output), '\n'), f);
    LastFieldNoWhitespace(line);
    assert forall k :: 0 <= k < |f.name| ==> f.name[k] == line[|line| - |f.name| + k];
  }

  /** A single line lists its entry if it is kept, and nothing otherwise. */
  lemma OneLine(line: string)
    ensures Stages([line]) == if KeptLine(line) && Entry(line).Some? then [Entry(line).value] else []
  {
    FilterSingle(KeptLine, line);
    MapSingle(Entry, line);
    if KeptLine(line) {
      SomesSingle(Entry(line));
    } else {
      assert Map(Entry, []) == [];
      assert Somes<ListedFile>([]) == [];
    }
  }

  /** An `ls -la` row of a file: its metadata (the first character is that of
      the mode string, neither `d` nor whitespace), a separating whitespace
      character, then the name, which holds no whitespace. */
  lemma FileRowListsName(meta: string, sep: char, name: string)
    requires meta != "" && !IsWhitespace(meta[0]) && meta[0] != 'd' && !StartsWith(meta, "total")
    requires IsWhitespace(sep)
    requires forall k :: 0 <= k < |name| ==> !IsWhitespace(name[k])
    requires name != "" && name != "." && name != ".."
    ensures Stages([meta + [sep] + name]) == [ListedFile(name, name, "file")]
  {
    var line := meta + [sep] + name;
    assert KeptLine(line) by {
      TrimEmpty(line);
      assert line[0] == meta[0];
      var total := "total";
      assert forall k :: 0 <= k < |total| ==> !IsWhitespace(total[k]);
      NotStartsWithAcross(meta, sep, name, total);
    }
    assert Entry(line) == Some(ListedFile(name, name, "file")) by {
      LastFieldAfter(meta, sep, name);
    }
    OneLine(line);
  }

  /** Nothing is listed for blank output. */
  lemma BlankOutputListsNothing(output: string)
    requires IsBlank(output)
    ensures ParseListing(output) == []
  {
    assert Split("", '\n') == [""];
    OneLine("");
  }

  /** The usual shape of the output: the `total` header, the rows of the
      directories (`.` and `..` among them), then the rows of the files. Only
      the files are listed, in their order. */
  lemma HeaderAndDirectoriesAreSkipped(header: string, dirs: seq<string>, rows: seq<string>)
    requires StartsWith(header, "total")
    requires forall k :: 0 <= k < |dirs| ==> StartsWith(dirs[k], "d")
    ensures Stages([header] + dirs + rows) == Stages(rows)
  {
    StagesAppend([header] + dirs, rows);
    StagesAppend([header], dirs);
    OneLine(header);
    FilterNone(KeptLine, dirs);
  }

  // ---------------------------------------------------------------------------
  // The handlers

  /** `saveFile` demands a truthy `fileName` (present and non-empty) and a
      `content` that is not `undefined`. */
  predicate SaveRequestValid(fileName: Option<string>, content: Option<string>) {
    fileName.Some? && fileName.value != "" && content.Some?
  }

  /** `loadFile` demands a truthy `fileName`. */
  predicate LoadRequestValid(fileName: Option<string>) {
    fileName.Some? && fileName.value != ""
  }

  /** Whether the shared container is there once get-or-create has run:
      it was there already, or it has just been provisioned. */
  function Acquired(present: bool, provision: D.ProvisionOutcome): (r: Result<Unit>)
    ensures r.Ok? <==> present || provision.Started?
    ensures !present && r.Err? ==> r == Err(D.Provisioned(provision).message)
  {
    if present then Ok(Unit)
    else match D.Provisioned(provision)
      case Ok(_) => Ok(Unit)
      case Err(m) => Err(m)
  }

  /** The registry calls get-or-create makes: `createContainer` only when
      `getContainer` found nothing. */
  function AcquireCalls(present: bool, provision: D.ProvisionOutcome): seq<D.DriverCall> {
    if present then [] else D.ProvisionCalls(SharedWorkspace, provision)
  }

  /** The error reply a failure turns into, through the handlers' `catch`. */
  function Internal(message: string): Reply {
    Reply(500, Failure(message))
  }

  /** `saveFile`'s reply once the input is valid. */
  function SaveReply(acquired: Result<Unit>, fileName: string, write: D.StepOutcome): (r: Reply)
    ensures r.status == 200 <==> acquired.Ok? && write.Done?
    ensures r.status != 200 ==> r.status == 500 && r.body.Failure?
  {
    if acquired.Err? then Internal(acquired.message)
    else if write.Failed? then Internal(write.message)
    else Reply(200, Saved("File " + fileName + " saved successfully"))
  }

  /** `loadFile`'s reply once the input is valid. */
  function LoadReply(acquired: Result<Unit>, fileName: string, read: D.ArchiveOutcome): (r: Reply)
    ensures r.status == 200 <==> acquired.Ok? && D.ArchiveResult(read).Ok?
    ensures r.status == 200 ==> r.body == Loaded(D.ArchiveResult(read).value, fileName)
    ensures r.status != 200 ==> r.status == 500 && r.body.Failure?
  {
    if acquired.Err? then Internal(acquired.message)
    else match D.ArchiveResult(read)
      case Err(m) => Internal(m)
      case Ok(content) => Reply(200, Loaded(content, fileName))
  }

  /** `listFiles`'s files: the parsed listing, or none at all when the
      container could not be had or the command failed. */
  function ListReply(acquired: Result<Unit>, listing: Result<string>): (r: Reply)
    ensures r.status == 200 && r.body.Files?
    ensures r.body.files == if acquired.Ok? && listing.Ok? then ParseListing(listing.value) else []
  {
    if acquired.Ok? && listing.Ok? then Reply(200, Files(ParseListing(listing.value)))
    else Reply(200, Files([]))
  }

  /** Get-or-create: fetch the shared container, provisioning it only when
      the registry has none. The container is there exactly when this succeeds. */
  method GetOrCreate(docker: D.Registry, provision: D.ProvisionOutcome, now: int) returns (r: Result<Unit>)
    modifies docker
    ensures r == Acquired(SharedWorkspace in old(docker.containers), provision)
    ensures r.Ok? <==> SharedWorkspace in docker.containers
    ensures docker.calls == old(docker.calls) + AcquireCalls(SharedWorkspace in old(docker.containers), provision)
    ensures SharedWorkspace in old(docker.containers) ==> docker.containers == old(docker.containers)
    ensures SharedWorkspace !in old(docker.containers) ==> docker.containers == if provision.Started?
      then old(docker.containers)[SharedWorkspace := D.ContainerInfo(provision.container, provision.container.id, now)]
      else old(docker.containers)
  {
    var container := docker.GetContainer(SharedWorkspace);
    if container.Some? {
      return Ok(Unit);
    }
    var created := docker.CreateContainer(SharedWorkspace, provision, now);
    r := if created.Ok? then Ok(Unit) else Err(created.message);
  }

  /** `saveFile`: an invalid request is answered 400 and touches nothing;
      otherwise the file is written into the shared container, which is
      provisioned first if missing, and any failure is answered 500. */
  method SaveFile(docker: D.Registry, fileName: Option<string>, content: Option<string>,
                  provision: D.ProvisionOutcome, write: D.StepOutcome, now: int)
    returns (reply: Reply)
    modifies docker
    ensures !SaveRequestValid(fileName, content) ==>
      reply == Reply(400, Failure(MissingFields)) && unchanged(docker)
    ensures SaveRequestValid(fileName, content) ==>
      var present := SharedWorkspace in old(docker.containers);
      var acquired := Acquired(present, provision);
      && reply == SaveReply(acquired, fileName.value, write)
      && docker.containers == (if present then old(docker.containers)
           else if provision.Started?
           then old(docker.containers)[SharedWorkspace := D.ContainerInfo(provision.container, provision.container.id, now)]
           else old(docker.containers))
      && (acquired.Ok? <==> SharedWorkspace in docker.containers)
      && docker.calls == old(docker.calls) + AcquireCalls(present, provision) +
           (if acquired.Ok?
            then [D.PutArchiveCall(docker.containers[SharedWorkspace].container, D.WorkspaceRoot, fileName.value, content.value)]
            else [])
  {
    if !SaveRequestValid(fileName, content) {
      return Reply(400, Failure(MissingFields));
    }
    var acquired := GetOrCreate(docker, provision, now);
    if acquired.Err? {
      return Internal(acquired.message);
    }
    var written := docker.WriteFile(SharedWorkspace, fileName.value, content.value, write);
    if written.Err? {
      return Internal(written.message);
    }
    reply := Reply(200, Saved("File " + fileName.value + " saved successfully"));
  }

  /** `loadFile`: an invalid request is answered 400 and touches nothing;
      otherwise the file is read from the shared container, which is
      provisioned first if missing, and any failure is answered 500. */
  method LoadFile(docker: D.Registry, fileName: Option<string>,
                  provision: D.ProvisionOutcome, read: D.ArchiveOutcome, now: int)
    returns (reply: Reply)
    modifies docker
    ensures !LoadRequestValid(fileName) ==>
      reply == Reply(400, Failure(MissingFileName)) && unchanged(docker)
    ensures LoadRequestValid(fileName) ==>
      var present := SharedWorkspace in old(docker.containers);
      var acquired := Acquired(present, provision);
      && reply == LoadReply(acquired, fileName.value, read)
      && docker.containers == (if present then old(docker.containers)
           else if provision.Started?
           then old(docker.containers)[SharedWorkspace := D.ContainerInfo(provision.container, provision.container.id, now)]
           else old(docker.containers))
      && (acquired.Ok? <==> SharedWorkspace in docker.containers)
      && docker.calls == old(docker.calls) + AcquireCalls(present, provision) +
           (if acquired.Ok?
            then [D.GetArchiveCall(docker.containers[SharedWorkspace].container, D.WorkspaceRoot + "/" + fileName.value)]
            else [])
  {
    if !LoadRequestValid(fileName) {
      return Reply(400, Failure(MissingFileName));
    }
    var acquired := GetOrCreate(docker, provision, now);
    if acquired.Err? {
      return Internal(acquired.message);
    }
    var loaded := docker.ReadFile(SharedWorkspace, fileName.value, read);
    if loaded.Err? {
      return Internal(loaded.message);
    }
    reply := Reply(200, Loaded(loaded.value, fileName.value));
  }

  /** `listFiles`: always a success. The files are the parsed `ls -la` output,
      or none when provisioning or the command fails. */
  method ListFiles(docker: D.Registry, provision: D.ProvisionOutcome, exec: D.ExecOutcome, now: int)
    returns (reply: Reply)
    modifies docker
    ensures var present := SharedWorkspace in old(docker.containers);
      var acquired := Acquired(present, provision);
      && reply == ListReply(acquired, D.ExecResult(exec))
      && docker.containers == (if present then old(docker.containers)
           else if provision.Started?
           then old(docker.containers)[SharedWorkspace := D.ContainerInfo(provision.container, provision.container.id, now)]
           else old(docker.containers))
      && (acquired.Ok? <==> SharedWorkspace in docker.containers)
      && docker.calls == old(docker.calls) + AcquireCalls(present, provision) +
           (if acquired.Ok?
            then [D.ExecCall(docker.containers[SharedWorkspace].container, ListCommand)]
            else [])
  {
    var acquired := GetOrCreate(docker, provision, now);
    if acquired.Err? {
      return Reply(200, Files([]));
    }
    var output := docker.ExecuteCommand(SharedWorkspace, ListCommand, exec);
    if output.Err? {
      return Reply(200, Files([]));
    }
    reply := Reply(200, Files(ParseListing(output.value)));
  }
}
