/** The Docker manager of the backend: a module-level registry from a session
    (or workspace) id to the container started for it, and the decoding of the
    byte streams that come back from a command and from a file download.

    Every dockerode call is opaque. Its outcome is a parameter of the operation
    that makes the call, and the calls made are recorded, in order, in the
    registry's ghost `calls` log. That log is what "nothing was executed" or
    "no file was written" is stated against. */
module DockerManager {
  import opened Wrappers

  newtype byte = x: int | 0 <= x < 256

  /** The bytes of one `data` event of a stream. */
  type Chunk = seq<byte>

  /** The size of the multiplexing header in front of every frame. */
  const HeaderLength: nat := 8

  const WorkspaceRoot := "/workspace"
  const NotFound := "Container not found"

  /** `buffer.toString()`, with each byte read as the character of that code. */
  function Latin1(bs: seq<byte>): (s: string)
    ensures |s| == |bs|
  {
    seq(|bs|, k requires 0 <= k < |bs| => (bs[k] as int) as char)
  }

  // ---------------------------------------------------------------------------
  // Command output: stripping the header of each chunk

  /** What one chunk adds to a command's output: the bytes after its 8-byte
      header. A chunk of 8 bytes or fewer adds nothing. */
  function ChunkPayload(chunk: Chunk): seq<byte> {
    if |chunk| > HeaderLength then chunk[HeaderLength..] else []
  }

  /** The output the `data` callback accumulates over the chunks, in order. */
  function StripHeaders(chunks: seq<Chunk>): seq<byte> {
    if |chunks| == 0 then []
    else StripHeaders(chunks[..|chunks| - 1]) + ChunkPayload(chunks[|chunks| - 1])
  }

  /** Decoding is chunk by chunk: the output of two runs of chunks is the
      output of the first followed by the output of the second. */
  lemma {:induction false} StripHeadersAppend(a: seq<Chunk>, b: seq<Chunk>)
    ensures StripHeaders(a + b) == StripHeaders(a) + StripHeaders(b)
    decreases |b|
  {
    if |b| > 0 {
      assert (a + b)[..|a + b| - 1] == a + b[..|b| - 1];
      StripHeadersAppend(a, b[..|b| - 1]);
    } else {
      assert a + b == a;
    }
  }

  /** A chunk no longer than the header can be dropped without changing the output. */
  lemma ShortChunkAddsNothing(a: seq<Chunk>, c: Chunk, b: seq<Chunk>)
    requires |c| <= HeaderLength
    ensures StripHeaders(a + [c] + b) == StripHeaders(a + b)
  {
    StripHeadersAppend(a + [c], b);
    StripHeadersAppend(a, b);
    assert StripHeaders(a + [c]) == StripHeaders(a) by {
      assert (a + [c])[..|a|] == a;
    }
  }

  /** The `data` callback of `executeCommand`: `output += chunk.slice(8)` for
      every chunk longer than 8 bytes. */
  method CollectOutput(chunks: seq<Chunk>) returns (output: seq<byte>)
    ensures output == StripHeaders(chunks)
  {
    output := [];
    for i := 0 to |chunks|
      invariant output == StripHeaders(chunks[..i])
    {
      assert chunks[..i + 1][..i] == chunks[..i];
      if |chunks[i]| > HeaderLength {
        output := output + chunks[i][HeaderLength..];
      }
    }
    assert chunks[..|chunks|] == chunks;
  }

  /** One frame of Docker's multiplexed stream: the stream it belongs to
      (1 for stdout, 2 for stderr) and its payload. */
  datatype Frame = Frame(stream: byte, payload: seq<byte>)

  predicate Encodable(f: Frame) {
    |f.payload| < 0x1_0000_0000
  }

  /** A payload length as the 4 big-endian bytes of the header. */
  function BigEndian32(n: nat): (bs: seq<byte>)
    requires n < 0x1_0000_0000
    ensures |bs| == 4
  {
    [(n / 0x100_0000) as byte, (n / 0x1_0000 % 0x100) as byte, (n / 0x100 % 0x100) as byte, (n % 0x100) as byte]
  }

  /** A frame on the wire: stream type, three zero bytes, payload length, payload. */
  function EncodeFrame(f: Frame): (c: Chunk)
    requires Encodable(f)
    ensures |c| == HeaderLength + |f.payload| && c[HeaderLength..] == f.payload
  {
    [f.stream, 0, 0, 0] + BigEndian32(|f.payload|) + f.payload
  }

  /** The frames sent one per chunk. */
  function EncodeFrames(frames: seq<Frame>): (chunks: seq<Chunk>)
    requires forall k :: 0 <= k < |frames| ==> Encodable(frames[k])
    ensures |chunks| == |frames|
  {
    if |frames| == 0 then []
    else EncodeFrames(frames[..|frames| - 1]) + [EncodeFrame(frames[|frames| - 1])]
  }

  /** The payloads of the frames, in order: the output the command produced. */
  function Payloads(frames: seq<Frame>): seq<byte> {
    if |frames| == 0 then [] else Payloads(frames[..|frames| - 1]) + frames[|frames| - 1].payload
  }

  /** When every chunk carries exactly one frame, stripping each chunk's header
      gives back the payloads exactly, empty frames included. */
  lemma {:induction false} OneFramePerChunk(frames: seq<Frame>)
    requires forall k :: 0 <= k < |frames| ==> Encodable(frames[k])
    ensures StripHeaders(EncodeFrames(frames)) == Payloads(frames)
  {
    if |frames| > 0 {
      var init := frames[..|frames| - 1];
      var chunks := EncodeFrames(frames);
      OneFramePerChunk(init);
      assert chunks[..|chunks| - 1] == EncodeFrames(init);
    }
  }

  /** Two frames coalesced into one chunk: only the first header is stripped,
      so the second frame reaches the output header and all. */
  lemma CoalescedFramesKeepHeader(f: Frame, g: Frame)
    requires Encodable(f) && Encodable(g)
    ensures StripHeaders([EncodeFrame(f) + EncodeFrame(g)]) == f.payload + EncodeFrame(g)
  {
    var one: seq<Chunk> := [EncodeFrame(f) + EncodeFrame(g)];
    assert one[..0] == [];
  }

  /** So the decoded output of a coalesced chunk is not the command's output. */
  lemma CoalescedFramesMisdecode()
    ensures var f := Frame(1, [104]);
      StripHeaders([EncodeFrame(f) + EncodeFrame(f)]) != Payloads([f, f])
  {
    var f := Frame(1, [104]);
    CoalescedFramesKeepHeader(f, f);
    assert [f, f][..1] == [f];
    assert [f][..0] == [];
    assert Payloads([f]) == [104];
    assert |Payloads([f, f])| == 2;
  }

  // ---------------------------------------------------------------------------
  // File download: concatenating the data chunks of every archive entry

  /** The bytes of a run of chunks, in order. */
  function Concat(chunks: seq<Chunk>): seq<byte> {
    if |chunks| == 0 then [] else Concat(chunks[..|chunks| - 1]) + chunks[|chunks| - 1]
  }

  /** What `readFile` accumulates: the data of every entry, entries in order. */
  function EntriesContent(entries: seq<seq<Chunk>>): seq<byte> {
    if |entries| == 0 then [] else EntriesContent(entries[..|entries| - 1]) + Concat(entries[|entries| - 1])
  }

  /** The total of a run of chunk sizes. */
  function Sum(sizes: seq<nat>): nat {
    if |sizes| == 0 then 0 else sizes[0] + Sum(sizes[1..])
  }

  /** Content cut into consecutive chunks of the given sizes, as a stream may
      deliver it: any sizes, empty chunks included, that add up to its length. */
  function Cuts(content: seq<byte>, sizes: seq<nat>): (chunks: seq<Chunk>)
    requires Sum(sizes) == |content|
    ensures |chunks| == |sizes|
    decreases |sizes|
  {
    if |sizes| == 0 then []
    else [content[..sizes[0]]] + Cuts(content[sizes[0]..], sizes[1..])
  }

  lemma {:induction false} ConcatAppend(a: seq<Chunk>, b: seq<Chunk>)
    ensures Concat(a + b) == Concat(a) + Concat(b)
    decreases |b|
  {
    if |b| > 0 {
      assert (a + b)[..|a + b| - 1] == a + b[..|b| - 1];
      ConcatAppend(a, b[..|b| - 1]);
    } else {
      assert a + b == a;
    }
  }

  /** However a stream cuts a file into chunks, joining them gives back the file. */
  lemma {:induction false} CutsRoundTrip(content: seq<byte>, sizes: seq<nat>)
    requires Sum(sizes) == |content|
    ensures Concat(Cuts(content, sizes)) == content
    decreases |sizes|
  {
    if |sizes| > 0 {
      var n := sizes[0];
      CutsRoundTrip(content[n..], sizes[1..]);
      ConcatAppend([content[..n]], Cuts(content[n..], sizes[1..]));
      assert [content[..n]][..0] == [];
      assert content[..n] + content[n..] == content;
    }
  }

  /** A download of a one-entry archive yields that entry's data, however it is cut into chunks. */
  lemma SingleEntryContent(content: seq<byte>, sizes: seq<nat>)
    requires Sum(sizes) == |content|
    ensures EntriesContent([Cuts(content, sizes)]) == content
  {
    CutsRoundTrip(content, sizes);
    assert [Cuts(content, sizes)][..0] == [];
  }

  /** The entry callbacks of `readFile`: `content += chunk` for every data
      chunk of every entry. */
  method CollectArchive(entries: seq<seq<Chunk>>) returns (content: seq<byte>)
    ensures content == EntriesContent(entries)
  {
    content := [];
    for i := 0 to |entries|
      invariant content == EntriesContent(entries[..i])
    {
      var chunks := entries[i];
      ghost var before := content;
      for j := 0 to |chunks|
        invariant content == before + Concat(chunks[..j])
      {
        assert chunks[..j + 1][..j] == chunks[..j];
        content := content + chunks[j];
      }
      assert chunks[..|chunks|] == chunks;
      assert entries[..i + 1][..i] == entries[..i];
    }
    assert entries[..|entries|] == entries;
  }

  // ---------------------------------------------------------------------------
  // Container configuration

  datatype HostConfig = HostConfig(memory: nat, cpuShares: nat, networkMode: string)

  datatype ContainerConfig = ContainerConfig(
    image: string,
    name: string,
    tty: bool,
    openStdin: bool,
    stdinOnce: bool,
    attachStdin: bool,
    attachStdout: bool,
    attachStderr: bool,
    workingDir: string,
    env: seq<string>,
    hostConfig: HostConfig)

  /** The configuration `createContainer` hands to Docker for a session. */
  function SandboxConfig(sessionId: string): (c: ContainerConfig)
    ensures c.image == "code-sandbox:latest" && c.name == "sandbox-" + sessionId
    ensures c.tty && c.openStdin && !c.stdinOnce && c.attachStdin && c.attachStdout && c.attachStderr
    ensures c.env == ["TERM=xterm"]
  {
    ContainerConfig(
      "code-sandbox:latest", "sandbox-" + sessionId,
      true, true, false, true, true, true,
      WorkspaceRoot, ["TERM=xterm"],
      HostConfig(512 * 1024 * 1024, 512, "none"))
  }

  /** Every sandbox is capped at 512 MiB of memory and CPU weight 512, has no
      network and starts in the workspace directory. */
  lemma SandboxLimits(sessionId: string)
    ensures var c := SandboxConfig(sessionId);
      && c.hostConfig.memory == 536_870_912
      && c.hostConfig.cpuShares == 512
      && c.hostConfig.networkMode == "none"
      && c.workingDir == "/workspace"
  {
  }

  /** Distinct sessions ask Docker for distinctly named containers. */
  lemma ContainerNamesDistinct(a: string, b: string)
    requires a != b
    ensures SandboxConfig(a).name != SandboxConfig(b).name
  {
    var p := "sandbox-";
    assert (p + a)[|p|..] == a && (p + b)[|p|..] == b;
  }

  // ---------------------------------------------------------------------------
  // The registry and the operations on a session's container

  /** The dockerode handle of a container and its Docker id. */
  datatype Container = Container(id: string)

  /** What `createContainer` stores: the handle, its id and the creation time. */
  datatype ContainerInfo = ContainerInfo(container: Container, id: string, created: int)

  /** A call made to Docker. */
  datatype DriverCall =
    | CreateCall(config: ContainerConfig)
    | StartCall(container: Container)
    | ExecCall(container: Container, command: string)
    | PutArchiveCall(container: Container, directory: string, entryName: string, content: string)
    | GetArchiveCall(container: Container, path: string)
    | StopCall(container: Container)
    | RemoveCall(container: Container)

  /** How provisioning went: the image build, the creation or the start failed,
      or the container started. */
  datatype ProvisionOutcome =
    | BuildFailed(message: string)
    | CreateFailed(message: string)
    | StartFailed(created: Container, message: string)
    | Started(container: Container)

  /** The end of a stream: its `end` event, or an `error` event. */
  datatype StreamEnd = Ended | StreamFailed(message: string)

  /** How a command went: the exec could not be set up, or its stream delivered
      these chunks and then ended or failed. */
  datatype ExecOutcome =
    | ExecFailed(message: string)
    | Streamed(chunks: seq<Chunk>, end: StreamEnd)

  /** How a download went: `getArchive` failed (the path does not exist, say),
      or the archive delivered these entries, each a run of data chunks. */
  datatype ArchiveOutcome =
    | ArchiveFailed(message: string)
    | Archive(entries: seq<seq<Chunk>>, end: StreamEnd)

  /** How a single Docker call went. */
  datatype StepOutcome = Done | Failed(message: string)

  /** How `stop` and `remove` went. */
  datatype TeardownOutcome = StopFailed(message: string) | RemoveFailed(message: string) | TornDown

  /** The value `createContainer` resolves to, or the error it throws. */
  function Provisioned(outcome: ProvisionOutcome): Result<Container> {
    match outcome
    case Started(c) => Ok(c)
    case BuildFailed(m) => Err(m)
    case CreateFailed(m) => Err(m)
    case StartFailed(_, m) => Err(m)
  }

  /** The Docker calls `createContainer` gets to make before it stops. */
  function ProvisionCalls(sessionId: string, outcome: ProvisionOutcome): seq<DriverCall> {
    match outcome
    case BuildFailed(_) => []
    case CreateFailed(_) => [CreateCall(SandboxConfig(sessionId))]
    case StartFailed(c, _) => [CreateCall(SandboxConfig(sessionId)), StartCall(c)]
    case Started(c) => [CreateCall(SandboxConfig(sessionId)), StartCall(c)]
  }

  /** The value a command's promise resolves to: the decoded output once the
      stream ends, or the error that rejects it. */
  function ExecResult(outcome: ExecOutcome): Result<string> {
    match outcome
    case ExecFailed(m) => Err(m)
    case Streamed(chunks, Ended) => Ok(Latin1(StripHeaders(chunks)))
    case Streamed(_, StreamFailed(m)) => Err(m)
  }

  /** The value a download's promise resolves to. */
  function ArchiveResult(outcome: ArchiveOutcome): Result<string> {
    match outcome
    case ArchiveFailed(m) => Err(m)
    case Archive(entries, Ended) => Ok(Latin1(EntriesContent(entries)))
    case Archive(_, StreamFailed(m)) => Err(m)
  }

  /** The Docker calls `cleanupContainer` gets to make before it stops. */
  function TeardownCalls(c: Container, outcome: TeardownOutcome): seq<DriverCall> {
    if outcome.StopFailed? then [StopCall(c)] else [StopCall(c), RemoveCall(c)]
  }

  /** The `containers` map of the Docker manager and the operations on it. */
  class Registry {
    var containers: map<string, ContainerInfo>
    ghost var calls: seq<DriverCall>

    constructor ()
      ensures containers == map[] && calls == []
    {
      containers := map[];
      calls := [];
    }

    /** `getContainer`: the stored handle, if any. */
    function GetContainer(sessionId: string): (r: Option<Container>)
      reads this`containers
      ensures r.Some? <==> sessionId in containers
      ensures r.Some? ==> r.value == containers[sessionId].container
    {
      if sessionId in containers then Some(containers[sessionId].container) else None
    }

    /** What `executeCommand(sessionId, ...)` resolves to, or the error it
        throws, for this outcome of the command. */
    function Execution(sessionId: string, outcome: ExecOutcome): Result<string>
      reads this`containers
    {
      if sessionId in containers then ExecResult(outcome) else Err(NotFound)
    }

    /** The call `executeCommand` makes: none without a container. */
    function ExecCalls(sessionId: string, command: string): seq<DriverCall>
      reads this`containers
    {
      if sessionId in containers then [ExecCall(containers[sessionId].container, command)] else []
    }

    /** `createContainer`: provision a sandbox and record it only once it has
        started; any failure leaves the map as it was and is rethrown. */
    method CreateContainer(sessionId: string, outcome: ProvisionOutcome, now: int) returns (r: Result<Container>)
      modifies this
      ensures r == Provisioned(outcome)
      ensures containers == if outcome.Started?
        then old(containers)[sessionId := ContainerInfo(outcome.container, outcome.container.id, now)]
        else old(containers)
      ensures r.Ok? ==> GetContainer(sessionId) == Some(r.value)
      ensures calls == old(calls) + ProvisionCalls(sessionId, outcome)
    {
      match outcome
      case BuildFailed(m) =>
        r := Err(m);
      case CreateFailed(m) =>
        calls := calls + [CreateCall(SandboxConfig(sessionId))];
        r := Err(m);
      case StartFailed(c, m) =>
        calls := calls + [CreateCall(SandboxConfig(sessionId)), StartCall(c)];
        r := Err(m);
      case Started(c) =>
        calls := calls + [CreateCall(SandboxConfig(sessionId)), StartCall(c)];
        containers := containers[sessionId := ContainerInfo(c, c.id, now)];
        r := Ok(c);
    }

    /** `executeCommand`: run `bash -c command` in the session's container and
        resolve to its decoded output; "Container not found" without one. */
    method ExecuteCommand(sessionId: string, command: string, outcome: ExecOutcome) returns (r: Result<string>)
      modifies this`calls
      ensures r == Execution(sessionId, outcome)
      ensures sessionId !in containers ==> r == Err(NotFound)
      ensures calls == old(calls) + ExecCalls(sessionId, command)
    {
      var container := GetContainer(sessionId);
      if container.None? {
        return Err(NotFound);
      }
      calls := calls + [ExecCall(container.value, command)];
      match outcome
      case ExecFailed(m) =>
        r := Err(m);
      case Streamed(chunks, end) =>
        var output := CollectOutput(chunks);
        r := if end.Ended? then Ok(Latin1(output)) else Err(end.message);
    }

    /** `writeFile`: upload a one-entry archive named `filePath` into the
        workspace directory; "Container not found" without a container. */
    method WriteFile(sessionId: string, filePath: string, content: string, outcome: StepOutcome)
      returns (r: Result<Unit>)
      modifies this`calls
      ensures sessionId !in containers ==> r == Err(NotFound) && calls == old(calls)
      ensures sessionId in containers ==>
        && calls == old(calls) + [PutArchiveCall(containers[sessionId].container, WorkspaceRoot, filePath, content)]
        && r == if outcome.Done? then Ok(Unit) else Err(outcome.message)
    {
      var container := GetContainer(sessionId);
      if container.None? {
        return Err(NotFound);
      }
      calls := calls + [PutArchiveCall(container.value, WorkspaceRoot, filePath, content)];
      r := if outcome.Done? then Ok(Unit) else Err(outcome.message);
    }

    /** `readFile`: download `/workspace/<filePath>` and resolve to the data of
        its archive entries; "Container not found" without a container. */
    method ReadFile(sessionId: string, filePath: string, outcome: ArchiveOutcome) returns (r: Result<string>)
      modifies this`calls
      ensures sessionId !in containers ==> r == Err(NotFound) && calls == old(calls)
      ensures sessionId in containers ==>
        && calls == old(calls) + [GetArchiveCall(containers[sessionId].container, WorkspaceRoot + "/" + filePath)]
        && r == ArchiveResult(outcome)
    {
      var container := GetContainer(sessionId);
      if container.None? {
        return Err(NotFound);
      }
      calls := calls + [GetArchiveCall(container.value, WorkspaceRoot + "/" + filePath)];
      match outcome
      case ArchiveFailed(m) =>
        r := Err(m);
      case Archive(entries, end) =>
        var content := CollectArchive(entries);
        r := if end.Ended? then Ok(Latin1(content)) else Err(end.message);
    }

    /** `cleanupContainer`: stop and remove the session's container, forgetting
        it only when both succeed. An absent id is a no-op and errors are
        swallowed: the operation never fails. */
    method CleanupContainer(sessionId: string, outcome: TeardownOutcome)
      modifies this
      ensures sessionId !in old(containers) ==> containers == old(containers) && calls == old(calls)
      ensures sessionId in old(containers) ==>
        && calls == old(calls) + TeardownCalls(old(containers)[sessionId].container, outcome)
        && containers == if outcome.TornDown? then old(containers) - {sessionId} else old(containers)
    {
      if sessionId in containers {
        var c := containers[sessionId].container;
        calls := calls + TeardownCalls(c, outcome);
        if outcome.TornDown? {
          containers := containers - {sessionId};
        }
      }
    }
  }
}
