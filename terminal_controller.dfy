/** The terminal controller of the backend: a table from a socket id to the
    session's container and its tracked working directory, session set-up when
    a socket connects, the handler of one line of terminal input, and teardown
    on disconnect. What the handler sends back over the socket is returned as
    the sequence of `terminal-output` emissions. */
module TerminalController {
  import opened Wrappers
  import opened Text
  import D = DockerManager

  const Root := "/workspace"
  const Prompt := "$ "
  const Reprompt := "\r\n$ "
  const NewLine := "\r\n"
  const NotAvailable := "\U{274C} Sandbox not available\r\n$ "
  const AccessDenied := "\U{274C} Access denied: Can only navigate within /workspace\r\n"
  const Initializing := "\U{1F433} Initializing secure sandbox environment...\r\n"

  /** The four lines and the prompt sent once the sandbox is ready. */
  const Ready := [
    "\U{2705} Sandbox ready! You're in an isolated environment.\r\n",
    "\U{1F4C1} Working directory: /workspace\r\n",
    "\U{1F6E1}\U{FE0F} Safe to run any commands - they won't affect the host system.\r\n\r\n",
    Prompt]

  /** What the table holds for a session. */
  datatype TerminalInfo = TerminalInfo(container: D.Container, currentDir: string)

  /** What a line of terminal input asks for, once trimmed. */
  datatype Request =
    | Blank
    | ChangeDir(target: string)
    | Run(command: string)

  /** The directory a trimmed `cd ...` line asks for: its argument trimmed, or
      the workspace root when that is empty. */
  function CdTarget(command: string): string
    requires StartsWith(command, "cd ")
  {
    var t := Trim(command[3..]);
    if t == "" then Root else t
  }

  /** How the handler reads a line of input. It compares the trimmed line with
      a lone carriage return as well as with the empty string; trimming has
      already removed any carriage return, so only the empty string matters. */
  function Classify(data: string): (r: Request)
    ensures r.Blank? <==> IsBlank(data)
    ensures r.ChangeDir? <==> StartsWith(Trim(data), "cd ")
    ensures r.Run? ==> r.command == Trim(data)
  {
    var command := Trim(data);
    if command == "\r" || command == "" then Blank
    else if StartsWith(command, "cd ") then ChangeDir(CdTarget(command))
    else Run(command)
  }

  /** The command that checks a `cd`: change directory, then print where that led. */
  function CdCommand(target: string): string {
    "cd " + target + " && pwd"
  }

  /** Any other command, run from the session's tracked directory. */
  function WrappedCommand(dir: string, command: string): string {
    "cd " + dir + " && " + command
  }

  /** The candidate directory of a `cd`: the last line of the trimmed output of `pwd`. */
  function ResolvedPath(output: string): string {
    var lines := Split(Trim(output), '\n');
    lines[|lines| - 1]
  }

  /** The only directories the tracked directory may become: those whose path
      starts with the text `/workspace`. */
  predicate InWorkspace(path: string) {
    StartsWith(path, Root)
  }

  /** The command the handler hands to the container, if any. */
  function Executed(req: Request, entry: Option<TerminalInfo>): Option<string> {
    if req.Blank? || entry.None? then None
    else if req.ChangeDir? then Some(CdCommand(req.target))
    else Some(WrappedCommand(entry.value.currentDir, req.command))
  }

  /** What the handler emits for a request, given the session's entry and the
      result of the command it ran (ignored when it runs none). */
  function Respond(req: Request, entry: Option<TerminalInfo>, result: Result<string>): seq<string> {
    if req.Blank? then [Reprompt]
    else if entry.None? then [NewLine, NotAvailable]
    else [NewLine] + Outcome(req, result) + [Prompt]
  }

  /** The message between the echoed new line and the final prompt. */
  function Outcome(req: Request, result: Result<string>): seq<string>
    requires !req.Blank?
  {
    match result
    case Err(m) => ["\U{274C} Error: " + m + "\r\n"]
    case Ok(output) =>
      if req.Run? then [output]
      else
        var path := ResolvedPath(output);
        if InWorkspace(path) then ["\U{1F4C1} " + path + "\r\n"] else [AccessDenied]
  }

  /** Whether the request moves the tracked directory: a `cd` whose command
      succeeded with a candidate path in the workspace. */
  predicate Moves(req: Request, entry: Option<TerminalInfo>, result: Result<string>) {
    req.ChangeDir? && entry.Some? && result.Ok? && InWorkspace(ResolvedPath(result.value))
  }

  /** The session's entry after the request. */
  function NextEntry(req: Request, entry: Option<TerminalInfo>, result: Result<string>): Option<TerminalInfo> {
    if Moves(req, entry, result) then Some(entry.value.(currentDir := ResolvedPath(result.value))) else entry
  }

  function Lookup(m: map<string, TerminalInfo>, sessionId: string): Option<TerminalInfo> {
    if sessionId in m then Some(m[sessionId]) else None
  }

  // ---------------------------------------------------------------------------
  // Properties of the input handler

  /** Input that trims to nothing re-prompts, runs nothing and changes nothing. */
  lemma BlankInputReprompts(data: string, entry: Option<TerminalInfo>, result: Result<string>)
    requires forall k :: 0 <= k < |data| ==> IsWhitespace(data[k])
    ensures var req := Classify(data);
      Respond(req, entry, result) == [Reprompt]
      && Executed(req, entry) == None
      && NextEntry(req, entry, result) == entry
  {
    TrimEmpty(data);
  }

  /** Without an entry, non-blank input is answered "Sandbox not available"
      with a prompt; nothing runs and no entry appears. */
  lemma NoSessionRunsNothing(req: Request, result: Result<string>)
    requires !req.Blank?
    ensures Respond(req, None, result) == [NewLine, NotAvailable]
    ensures Executed(req, None) == None && NextEntry(req, None, result) == None
  {
  }

  /** After trimming, a `cd ` line always carries a non-blank argument, so the
      workspace-root fallback of the target is never taken. */
  lemma {:induction false} CdArgumentNeverBlank(data: string)
    requires StartsWith(Trim(data), "cd ")
    ensures Trim(Trim(data)[3..]) != ""
  {
    var command := Trim(data);
    assert command[..3] == "cd ";
    assert IsWhitespace(command[2]);
    assert |command| > 3;
    var arg := command[3..];
    assert arg[|arg| - 1] == command[|command| - 1];
    TrimEmpty(arg);
  }

  /** `cd X` executes exactly `cd <X trimmed> && pwd`, whatever the tracked directory. */
  lemma CdExecutesTrimmedTarget(data: string, info: TerminalInfo)
    requires StartsWith(Trim(data), "cd ")
    ensures Executed(Classify(data), Some(info)) == Some("cd " + Trim(Trim(data)[3..]) + " && pwd")
  {
    CdArgumentNeverBlank(data);
  }

  /** The candidate path is the last line of the trimmed output: the text after
      its last new line. */
  lemma ResolvedPathIsLastLine(output: string)
    ensures ResolvedPath(output) == AfterLast(Trim(output), '\n')
  {
    LastOfSplit(Trim(output), '\n');
  }

  /** The candidate path holds no new line. */
  lemma ResolvedPathIsOneLine(output: string)
    ensures '\n' !in ResolvedPath(output)
  {
    ResolvedPathIsLastLine(output);
    var r := AfterLast(Trim(output), '\n');
    assert '\n' !in r;
  }

  /** `pwd` printing one line gives that line as the candidate. */
  lemma SingleLineOutput(output: string)
    requires '\n' !in Trim(output)
    ensures ResolvedPath(output) == Trim(output)
  {
    SplitNone(Trim(output), '\n');
  }

  /** A `cd` moves the tracked directory exactly when it succeeded and its
      candidate path starts with `/workspace`; then the move is announced,
      otherwise access is denied and the directory stays. */
  lemma CdConfinement(target: string, info: TerminalInfo, output: string)
    ensures var req, r := ChangeDir(target), Ok(output);
      var path := ResolvedPath(output);
      && (InWorkspace(path) ==>
            NextEntry(req, Some(info), r) == Some(info.(currentDir := path))
            && Respond(req, Some(info), r) == [NewLine, "\U{1F4C1} " + path + "\r\n", Prompt])
      && (!InWorkspace(path) ==>
            NextEntry(req, Some(info), r) == Some(info)
            && Respond(req, Some(info), r) == [NewLine, AccessDenied, Prompt])
  {
  }

  /** The tracked directory never leaves `/workspace`: no request and no result
      can take an entry whose directory starts with it to one that does not. */
  lemma DirectoryStaysInWorkspace(req: Request, entry: Option<TerminalInfo>, result: Result<string>)
    requires entry.Some? ==> InWorkspace(entry.value.currentDir)
    ensures var next := NextEntry(req, entry, result);
      next.Some? == entry.Some? && (next.Some? ==> InWorkspace(next.value.currentDir))
      && (next.Some? ==> next.value.container == entry.value.container)
  {
  }

  /** Any other command runs from the tracked directory and its output is
      emitted as it is; the directory stays. */
  lemma RunEmitsOutputVerbatim(command: string, info: TerminalInfo, output: string)
    ensures Executed(Run(command), Some(info)) == Some("cd " + info.currentDir + " && " + command)
    ensures Respond(Run(command), Some(info), Ok(output)) == [NewLine, output, Prompt]
    ensures NextEntry(Run(command), Some(info), Ok(output)) == Some(info)
  {
  }

  /** A bare `cd` (what trimming makes of `cd `) is not a directory change: it
      runs as an ordinary command. */
  lemma BareCdIsOrdinary(data: string)
    requires Trim(data) == "cd"
    ensures Classify(data) == Run("cd")
  {
  }

  /** A failed command is reported as an error notice, and the directory stays. */
  lemma ErrorsAreReported(req: Request, info: TerminalInfo, message: string)
    requires !req.Blank?
    ensures Respond(req, Some(info), Err(message)) == [NewLine, "\U{274C} Error: " + message + "\r\n", Prompt]
    ensures NextEntry(req, Some(info), Err(message)) == Some(info)
  {
  }

  /** Every answer ends by prompting: with the prompt itself, or with a message
      that ends in it. */
  lemma EveryAnswerPrompts(req: Request, entry: Option<TerminalInfo>, result: Result<string>)
    ensures var out := Respond(req, entry, result);
      |out| >= 1 && |out[|out| - 1]| >= 2 && out[|out| - 1][|out[|out| - 1]| - 2..] == Prompt
  {
    var out := Respond(req, entry, result);
    var last := out[|out| - 1];
    if req.Blank? {
      assert last == Reprompt;
    } else if entry.None? {
      assert last == NotAvailable;
    } else {
      assert last == Prompt;
    }
  }

  /** The directory test is a test on text: a sibling directory whose name
      starts with `workspace` passes it. */
  lemma SiblingDirectoryPasses()
    ensures InWorkspace("/workspace2") && !InWorkspace("/work")
  {
    assert "/workspace2"[..|Root|] == Root;
  }

  // ---------------------------------------------------------------------------
  // The table of sessions

  /** Every tracked directory in the table lies within the workspace. */
  predicate AllInWorkspace(m: map<string, TerminalInfo>) {
    forall s :: s in m ==> InWorkspace(m[s].currentDir)
  }

  /** Storing an entry whose directory lies within the workspace keeps the table so. */
  lemma StoreKeepsInWorkspace(m: map<string, TerminalInfo>, sessionId: string, info: TerminalInfo)
    requires AllInWorkspace(m) && InWorkspace(info.currentDir)
    ensures AllInWorkspace(m[sessionId := info])
  {
  }

  class Terminals {
    var terminals: map<string, TerminalInfo>
    const docker: D.Registry

    /** Every tracked directory lies within the workspace. */
    predicate Valid()
      reads this
    {
      AllInWorkspace(terminals)
    }

    constructor (docker: D.Registry)
      ensures Valid() && terminals == map[] && this.docker == docker
    {
      terminals := map[];
      this.docker := docker;
    }

    /** `createTerminal`: provision the session's container, then record the
        session at the workspace root; a failure is reported and records nothing. */
    method CreateTerminal(sessionId: string, outcome: D.ProvisionOutcome, now: int) returns (emitted: seq<string>)
      requires Valid()
      modifies this, docker
      ensures Valid()
      ensures D.Provisioned(outcome).Ok? ==>
        && terminals == old(terminals)[sessionId := TerminalInfo(D.Provisioned(outcome).value, Root)]
        && emitted == [Initializing] + Ready
      ensures D.Provisioned(outcome).Err? ==>
        && terminals == old(terminals)
        && emitted == [Initializing, "\U{274C} Error creating sandbox: " + D.Provisioned(outcome).message + "\r\n", Prompt]
      ensures docker.containers == if outcome.Started?
        then old(docker.containers)[sessionId := D.ContainerInfo(outcome.container, outcome.container.id, now)]
        else old(docker.containers)
      ensures docker.calls == old(docker.calls) + D.ProvisionCalls(sessionId, outcome)
    {
      emitted := [Initializing];
      var r := docker.CreateContainer(sessionId, outcome, now);
      match r
      case Ok(c) =>
        terminals := terminals[sessionId := TerminalInfo(c, Root)];
        emitted := emitted + Ready;
      case Err(m) =>
        emitted := emitted + ["\U{274C} Error creating sandbox: " + m + "\r\n", Prompt];
    }

    /** The `terminal-input` handler, for one line of input and the outcome of
        the command it runs (if it runs one). */
    method HandleInput(sessionId: string, data: string, outcome: D.ExecOutcome) returns (emitted: seq<string>)
      requires Valid()
      modifies this, docker`calls
      ensures Valid()
      ensures var req, entry := Classify(data), Lookup(old(terminals), sessionId);
        var result := docker.Execution(sessionId, outcome);
        && emitted == Respond(req, entry, result)
        && terminals == (if Moves(req, entry, result)
                         then old(terminals)[sessionId := NextEntry(req, entry, result).value]
                         else old(terminals))
        && docker.calls == old(docker.calls) + (if Executed(req, entry).Some? then docker.ExecCalls(sessionId, Executed(req, entry).value) else [])
    {
      var req := Classify(data);
      if req.Blank? {
        return [Reprompt];
      }
      emitted := [NewLine];
      if sessionId !in terminals {
        return emitted + [NotAvailable];
      }
      var info := terminals[sessionId];
      var command := if req.ChangeDir? then CdCommand(req.target) else WrappedCommand(info.currentDir, req.command);
      var r := docker.ExecuteCommand(sessionId, command, outcome);
      var message: string;
      if r.Err? {
        message := "\U{274C} Error: " + r.message + "\r\n";
      } else if req.Run? {
        message := r.value;
      } else {
        var path := ResolvedPath(r.value);
        if InWorkspace(path) {
          StoreKeepsInWorkspace(terminals, sessionId, info.(currentDir := path));
          terminals := terminals[sessionId := info.(currentDir := path)];
          message := "\U{1F4C1} " + path + "\r\n";
        } else {
          message := AccessDenied;
        }
      }
      assert [message] == Outcome(req, r);
      emitted := emitted + [message, Prompt];
    }

    /** The `disconnect` handler: clean the session's container up, then drop
        its entry, whether or not the cleanup removed the container. */
    method Disconnect(sessionId: string, outcome: D.TeardownOutcome)
      requires Valid()
      modifies this, docker
      ensures Valid()
      ensures terminals == old(terminals) - {sessionId}
      ensures sessionId !in old(docker.containers) ==>
        docker.containers == old(docker.containers) && docker.calls == old(docker.calls)
      ensures sessionId in old(docker.containers) ==>
        && docker.calls == old(docker.calls) + D.TeardownCalls(old(docker.containers)[sessionId].container, outcome)
        && docker.containers == if outcome.TornDown? then old(docker.containers) - {sessionId} else old(docker.containers)
    {
      docker.CleanupContainer(sessionId, outcome);
      terminals := terminals - {sessionId};
    }
  }
}
