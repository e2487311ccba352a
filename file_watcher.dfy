/** The file-change watcher of the backend: per session, a polling timer and
    the last listing seen (its baseline). A tick lists the workspace with `find`
    and `stat`, and announces the parsed listing only when it differs from the
    baseline. Timers are handles; starting one is a parameter of the operation
    and the ghost set `running` holds the timers not yet cleared. */
module FileWatcher {
  import opened Wrappers
  import opened Text
  import opened Lists
  import D = DockerManager

  /** The command a tick runs: one `path|mtime-in-seconds` line per file. */
  const FindCommand := "find /workspace -type f -exec stat -c \"%n|%Y\" {} \\;"

  /** The period of the polling timer, in milliseconds. */
  const IntervalMillis := 2000

  /** A `setInterval` handle. */
  type Timer = nat

  /** An entry of a `files-changed` event. `modified` is the modification time
      in milliseconds, `None` where the timestamp does not parse (NaN). */
  datatype WatchedFile = WatchedFile(name: string, path: string, kind: string, modified: Option<int>)

  // ---------------------------------------------------------------------------
  // Parsing a listing

  /** The last `/`-segment of a path, as `split('/').pop()` gives it. */
  function BaseName(fullPath: string): string {
    var segments := Split(fullPath, '/');
    segments[|segments| - 1]
  }

  /** `parseInt(timestamp) * 1000`, where a line without `|` leaves the
      timestamp `undefined`. */
  function Millis(stamp: Option<string>): Option<int> {
    if stamp.None? then None
    else match ParseInt(stamp.value)
      case None => None
      case Some(v) => Some(v * 1000)
  }

  /** One line of the listing: the base name of the text before the first
      `|` names the file, the text after it is its time in seconds. */
  function ParseLine(line: string): (f: WatchedFile)
    ensures f.path == f.name && f.kind == "file"
  {
    var fields := Split(line, '|');
    var name := BaseName(fields[0]);
    WatchedFile(name, name, "file", Millis(if |fields| >= 2 then Some(fields[1]) else None))
  }

  /** The lines the parser reads: those with something besides whitespace. */
  predicate NonBlank(line: string) {
    !IsBlank(line)
  }

  /** The files a listing announces: named, and not hidden. */
  predicate Visible(f: WatchedFile) {
    f.name != "" && !StartsWith(f.name, ".")
  }

  /** The filter-map-filter pipeline over the lines of a listing. */
  function Pipeline(lines: seq<string>): seq<WatchedFile> {
    Filter(Visible, Map(ParseLine, Filter(NonBlank, lines)))
  }

  /** `parseFileList`: nothing for a blank listing, else the pipeline over its
      lines. At most one file per non-blank line, each a visible plain file
      whose path is its name. */
  function ParseFileList(output: string): (files: seq<WatchedFile>)
    ensures |files| <= |Filter(NonBlank, Split(output, '\n'))|
    ensures forall f :: f in files ==> f.path == f.name && f.kind == "file" && Visible(f)
  {
    if IsBlank(output) then [] else Pipeline(Split(output, '\n'))
  }

  /** The listing is parsed line by line, in order: the files of two runs of
      lines are the files of the first run followed by those of the second. */
  lemma PipelineAppend(a: seq<string>, b: seq<string>)
    ensures Pipeline(a + b) == Pipeline(a) + Pipeline(b)
  {
    FilterAppend(NonBlank, a, b);
    MapAppend(ParseLine, Filter(NonBlank, a), Filter(NonBlank, b));
    FilterAppend(Visible, Map(ParseLine, Filter(NonBlank, a)), Map(ParseLine, Filter(NonBlank, b)));
  }

  /** Every announced file comes from a non-blank line of the listing. */
  lemma FilesComeFromLines(output: string, f: WatchedFile)
    requires f in ParseFileList(output)
    ensures exists line :: line in Split(output, '\n') && NonBlank(line) && ParseLine(line) == f
  {
    var kept := Filter(NonBlank, Split(output, '\n'));
    var parsed := Map(ParseLine, kept);
    assert f in parsed;
    var k :| 0 <= k < |parsed| && parsed[k] == f;
    assert kept[k] in kept;
  }

  /** A line's file is announced when the line is not blank and its file is visible. */
  lemma LineIsAnnounced(lines: seq<string>, line: string)
    requires line in lines && NonBlank(line) && Visible(ParseLine(line))
    ensures ParseLine(line) in Pipeline(lines)
  {
    var kept := Filter(NonBlank, lines);
    FilterKeeps(NonBlank, lines, line);
    var k :| 0 <= k < |kept| && kept[k] == line;
    assert Map(ParseLine, kept)[k] == ParseLine(line);
    FilterKeeps(Visible, Map(ParseLine, kept), ParseLine(line));
  }

  /** Splitting whitespace yields pieces of whitespace. */
  lemma {:induction false} SplitOfWhitespace(s: string, c: char)
    requires forall k :: 0 <= k < |s| ==> IsWhitespace(s[k])
    ensures forall p :: p in Split(s, c) ==> forall k :: 0 <= k < |p| ==> IsWhitespace(p[k])
  {
    if |s| > 0 {
      var init := Split(s[..|s| - 1], c);
      SplitOfWhitespace(s[..|s| - 1], c);
      if s[|s| - 1] != c {
        var z := init[|init| - 1] + [s[|s| - 1]];
        assert init[|init| - 1] in init;
        forall p | p in init[..|init| - 1] + [z]
          ensures forall k :: 0 <= k < |p| ==> IsWhitespace(p[k])
        {
          if p != z {
            assert p in init;
          }
        }
      }
    }
  }

  /** The early return for a blank listing changes nothing: the pipeline finds
      no files in one either, so the parser is the pipeline on every input. */
  lemma ParseFileListIsPipeline(output: string)
    ensures ParseFileList(output) == Pipeline(Split(output, '\n'))
  {
    if IsBlank(output) {
      var lines := Split(output, '\n');
      TrimEmpty(output);
      SplitOfWhitespace(output, '\n');
      forall l | l in lines
        ensures !NonBlank(l)
      {
        TrimEmpty(l);
      }
      FilterNone(NonBlank, lines);
    }
  }

  /** A line as `stat -c "%n|%Y"` prints it. */
  function StatLine(path: string, seconds: nat): string {
    path + ['|'] + Decimal(seconds)
  }

  /** The path and the digits are the two fields of a `stat` line. */
  lemma StatLineFields(path: string, seconds: nat)
    requires '|' !in path
    ensures Split(StatLine(path, seconds), '|') == [path, Decimal(seconds)]
  {
    var digits := Decimal(seconds);
    assert forall k :: 0 <= k < |digits| ==> digits[k] != '|';
    SplitAround(path, '|', digits);
    SplitNone(path, '|');
    SplitNone(digits, '|');
  }

  /** A `stat` line parses to its file's base name, with its time in milliseconds. */
  lemma StatLineParses(path: string, seconds: nat)
    requires '|' !in path
    ensures ParseLine(StatLine(path, seconds))
      == WatchedFile(AfterLast(path, '/'), AfterLast(path, '/'), "file", Some(seconds * 1000))
  {
    var line := StatLine(path, seconds);
    StatLineFields(path, seconds);
    LineFields(line, path, Decimal(seconds));
    BaseNameIsAfterLast(path);
    MillisOfDecimal(seconds);
  }

  /** A line's file is named after its first field and stamped by its second. */
  lemma LineFields(line: string, first: string, second: string)
    requires |Split(line, '|')| >= 2 && Split(line, '|')[0] == first && Split(line, '|')[1] == second
    ensures ParseLine(line).name == BaseName(first) && ParseLine(line).modified == Millis(Some(second))
  {
  }

  /** The base name is the text after the last `/`. */
  lemma BaseNameIsAfterLast(path: string)
    ensures BaseName(path) == AfterLast(path, '/')
  {
    LastOfSplit(path, '/');
  }

  /** A timestamp printed in decimal is read back, scaled to milliseconds. */
  lemma MillisOfDecimal(seconds: nat)
    ensures Millis(Some(Decimal(seconds))) == Some(seconds * 1000)
  {
    ParseIntDecimal(seconds);
  }

  /** A non-blank line with a visible file yields exactly that file. */
  lemma SingleLine(line: string)
    requires NonBlank(line) && Visible(ParseLine(line))
    ensures Pipeline([line]) == [ParseLine(line)]
  {
    FilterSingle(NonBlank, line);
    MapSingle(ParseLine, line);
    FilterSingle(Visible, ParseLine(line));
  }

  /** Two lines of a listing parse line by line. */
  lemma TwoLines(a: string, b: string)
    requires '\n' !in a && '\n' !in b
    requires NonBlank(a)
    ensures ParseFileList(a + ['\n'] + b) == Pipeline([a]) + Pipeline([b])
  {
    SplitAround(a, '\n', b);
    SplitNone(a, '\n');
    SplitNone(b, '\n');
    ParseFileListIsPipeline(a + ['\n'] + b);
    PipelineAppend([a], [b]);
  }

  /** A `stat` line is one line when its path is. */
  lemma StatLineIsOneLine(path: string, seconds: nat)
    requires '\n' !in path
    ensures '\n' !in StatLine(path, seconds)
  {
    var digits := Decimal(seconds);
    assert forall k :: 0 <= k < |digits| ==> digits[k] != '\n';
  }

  /** A `stat` line whose path opens with a non-blank character is not blank. */
  lemma StatLineNonBlank(path: string, seconds: nat)
    requires path != "" && !IsWhitespace(path[0])
    ensures NonBlank(StatLine(path, seconds))
  {
    var line := StatLine(path, seconds);
    TrimEmpty(line);
    assert line[0] == path[0];
  }

  /** The path `find /workspace` prints for a file in the workspace root. */
  function InWorkspaceRoot(name: string): string {
    "/workspace/" + name
  }

  /** The `stat` line of a file in the workspace root parses to that file's
      name and time. */
  lemma WorkspaceFileParses(name: string, seconds: nat)
    requires '|' !in name && '/' !in name
    ensures ParseLine(StatLine(InWorkspaceRoot(name), seconds)) == WatchedFile(name, name, "file", Some(seconds * 1000))
  {
    var path := InWorkspaceRoot(name);
    assert path == "/workspace" + ['/'] + name;
    assert '|' !in path;
    StatLineParses(path, seconds);
    AfterLastOf("/workspace", '/', name);
  }

  /** A name the listing announces as it is: not hidden, and without the
      separators of a listing. */
  predicate PlainName(name: string) {
    name != "" && name[0] != '.' && '|' !in name && '/' !in name && '\n' !in name
  }

  /** The `stat` line of a plain, visible file in the workspace root yields that file. */
  lemma PlainFileLine(name: string, seconds: nat)
    requires PlainName(name)
    ensures '\n' !in StatLine(InWorkspaceRoot(name), seconds) && NonBlank(StatLine(InWorkspaceRoot(name), seconds))
    ensures Pipeline([StatLine(InWorkspaceRoot(name), seconds)]) == [WatchedFile(name, name, "file", Some(seconds * 1000))]
  {
    var path := InWorkspaceRoot(name);
    assert '\n' !in path by {
      assert path == "/workspace/" + name;
    }
    StatLineIsOneLine(path, seconds);
    StatLineNonBlank(path, seconds);
    WorkspaceFileParses(name, seconds);
    var f := WatchedFile(name, name, "file", Some(seconds * 1000));
    assert Visible(f) by {
      assert name[..1] != ".";
    }
    SingleLine(StatLine(path, seconds));
  }

  /** `stat` prints the root files `a.py` and `b.py`, modified at second 2000, as
      `/workspace/a.py|2000` and `/workspace/b.py|2000`. */
  lemma ExampleStatLines()
    ensures StatLine(InWorkspaceRoot("a.py"), 2000) == "/workspace/a.py|2000"
    ensures StatLine(InWorkspaceRoot("b.py"), 2000) == "/workspace/b.py|2000"
  {
    assert Decimal(2000) == "2000" by {
      assert Decimal(200) == "200" by {
        assert Decimal(20) == "20";
      }
    }
  }

  /** A listing of two plain files in the workspace root yields both, in order. */
  lemma TwoFiles(a: string, sa: nat, b: string, sb: nat)
    requires PlainName(a) && PlainName(b)
    ensures ParseFileList(StatLine(InWorkspaceRoot(a), sa) + ['\n'] + StatLine(InWorkspaceRoot(b), sb)) ==
      [WatchedFile(a, a, "file", Some(sa * 1000)), WatchedFile(b, b, "file", Some(sb * 1000))]
  {
    PlainFileLine(a, sa);
    PlainFileLine(b, sb);
    TwoLines(StatLine(InWorkspaceRoot(a), sa), StatLine(InWorkspaceRoot(b), sb));
  }

  /** The listing of two root files stamped at the same second. */
  lemma TwoFileListing(listing: string)
    requires listing == "/workspace/a.py|2000\n/workspace/b.py|2000"
    ensures ParseFileList(listing) == [
      WatchedFile("a.py", "a.py", "file", Some(2000000)),
      WatchedFile("b.py", "b.py", "file", Some(2000000))]
  {
    var a, b := "a.py", "b.py";
    ExampleListing(listing, a, b);
    ExampleNamesArePlain(a, b);
    TwoFiles(a, 2000, b, 2000);
  }

  /** The example listing is the `stat` lines of its two files joined by a newline. */
  lemma ExampleListing(listing: string, a: string, b: string)
    requires listing == "/workspace/a.py|2000\n/workspace/b.py|2000"
    requires a == "a.py" && b == "b.py"
    ensures listing == StatLine(InWorkspaceRoot(a), 2000) + ['\n'] + StatLine(InWorkspaceRoot(b), 2000)
  {
    ExampleStatLines();
  }

  /** The example's names are plain. */
  lemma ExampleNamesArePlain(a: string, b: string)
    requires a == "a.py" && b == "b.py"
    ensures PlainName(a) && PlainName(b)
  {
  }

  // ---------------------------------------------------------------------------
  // Change detection

  /** Whether a tick announces: the command succeeded and its trimmed output
      differs from the baseline (which a first tick does not have). */
  predicate Changes(last: Option<string>, result: Result<string>) {
    result.Ok? && last != Some(Trim(result.value))
  }

  /** The files a tick announces, if it announces. */
  function Emission(last: Option<string>, result: Result<string>): Option<seq<WatchedFile>> {
    if Changes(last, result) then Some(ParseFileList(Trim(result.value))) else None
  }

  /** The baseline after a tick. */
  function NextBaseline(last: Option<string>, result: Result<string>): Option<string> {
    if Changes(last, result) then Some(Trim(result.value)) else last
  }

  /** After a successful tick the baseline is that tick's trimmed output,
      whether or not it announced; it announced exactly when that differs
      from the old baseline. */
  lemma SuccessSetsBaseline(last: Option<string>, output: string)
    ensures NextBaseline(last, Ok(output)) == Some(Trim(output))
    ensures Emission(last, Ok(output)).Some? <==> last != Some(Trim(output))
  {
  }

  /** A failed command announces nothing and keeps the baseline. */
  lemma FailureIsSilent(last: Option<string>, message: string)
    ensures Emission(last, Err(message)) == None && NextBaseline(last, Err(message)) == last
  {
  }

  /** Without a baseline the first successful tick announces, even an empty listing. */
  lemma FirstTickAnnounces(output: string)
    ensures Emission(None, Ok(output)) == Some(ParseFileList(Trim(output)))
  {
  }

  /** The number of announcements over a run of ticks. */
  function EmissionCount(last: Option<string>, results: seq<Result<string>>): nat
    decreases |results|
  {
    if |results| == 0 then 0
    else (if Changes(last, results[0]) then 1 else 0) + EmissionCount(NextBaseline(last, results[0]), results[1..])
  }

  /** Ticks that all see the same listing, failures aside, announce at most
      once; none at all if the baseline already is that listing. */
  lemma {:induction false} StableListingAnnouncesOnce(last: Option<string>, listing: string, results: seq<Result<string>>)
    requires forall k :: 0 <= k < |results| ==> results[k].Ok? ==> Trim(results[k].value) == listing
    ensures EmissionCount(last, results) <= 1
    ensures last == Some(listing) ==> EmissionCount(last, results) == 0
    decreases |results|
  {
    if |results| > 0 {
      var rest := results[1..];
      assert forall k :: 0 <= k < |rest| ==> rest[k] == results[k + 1];
      StableListingAnnouncesOnce(NextBaseline(last, results[0]), listing, rest);
      if results[0].Ok? {
        assert NextBaseline(last, results[0]) == Some(listing);
      }
    }
  }

  function Lookup(m: map<string, string>, sessionId: string): Option<string> {
    if sessionId in m then Some(m[sessionId]) else None
  }

  // ---------------------------------------------------------------------------
  // The watcher

  /** Removing a key whose value no other key shares removes just that value. */
  lemma ValuesWithout(m: map<string, Timer>, s: string)
    requires s in m
    requires forall a, b :: a in m && b in m && a != b ==> m[a] != m[b]
    ensures (m - {s}).Values == m.Values - {m[s]}
  {
    forall t | t in m.Values - {m[s]}
      ensures t in (m - {s}).Values
    {
      var a :| a in m && m[a] == t;
      assert a != s;
      assert (m - {s})[a] == t;
    }
  }

  /** Adding a new key adds its value. */
  lemma ValuesWith(m: map<string, Timer>, s: string, t: Timer)
    requires s !in m
    ensures m[s := t].Values == m.Values + {t}
  {
    assert m[s := t][s] == t;
    forall u | u in m.Values
      ensures u in m[s := t].Values
    {
      var a :| a in m && m[a] == u;
      assert m[s := t][a] == u;
    }
  }

  /** Forgetting the baselines of one more stopped session. */
  lemma ForgetOneMore(m: map<string, string>, stopped: set<string>, pending: set<string>, s: string)
    requires s in pending && pending <= stopped
    ensures (m - (stopped - pending)) - {s} == m - (stopped - (pending - {s}))
  {
    assert stopped - (pending - {s}) == (stopped - pending) + {s};
  }

  class FileSystemWatcher {
    var watchers: map<string, Timer>
    var lastFileStates: map<string, string>
    ghost var running: set<Timer>
    const docker: D.Registry

    /** Every running timer belongs to exactly one session: none is lost, none shared. */
    ghost predicate Valid()
      reads this
    {
      && running == watchers.Values
      && forall a, b :: a in watchers && b in watchers && a != b ==> watchers[a] != watchers[b]
    }

    constructor (docker: D.Registry)
      ensures Valid() && watchers == map[] && lastFileStates == map[] && running == {}
      ensures this.docker == docker
    {
      watchers := map[];
      lastFileStates := map[];
      running := {};
      this.docker := docker;
    }

    /** `startWatching`: stop the session's old timer first, so that a session
        never has two, then register `timer`, a fresh `setInterval` handle
        whose callback is `CheckForChanges`. */
    method StartWatching(sessionId: string, timer: Timer)
      requires Valid() && timer !in running
      modifies this
      ensures Valid()
      ensures watchers == old(watchers)[sessionId := timer]
      ensures lastFileStates == if sessionId in old(watchers) then old(lastFileStates) - {sessionId} else old(lastFileStates)
      ensures running == (if sessionId in old(watchers) then old(running) - {old(watchers)[sessionId]} else old(running)) + {timer}
    {
      if sessionId in watchers {
        StopWatching(sessionId);
      }
      ValuesWith(watchers, sessionId, timer);
      watchers := watchers[sessionId := timer];
      running := running + {timer};
    }

    /** `checkForChanges`: list the workspace; announce the parsed listing and
        make it the baseline when it differs from the baseline; on failure do nothing. */
    method CheckForChanges(sessionId: string, outcome: D.ExecOutcome) returns (emitted: Option<seq<WatchedFile>>)
      modifies this`lastFileStates, docker`calls
      ensures var last, result := Lookup(old(lastFileStates), sessionId), docker.Execution(sessionId, outcome);
        && emitted == Emission(last, result)
        && lastFileStates == (if Changes(last, result) then old(lastFileStates)[sessionId := Trim(result.value)] else old(lastFileStates))
      ensures docker.calls == old(docker.calls) + docker.ExecCalls(sessionId, FindCommand)
    {
      var r := docker.ExecuteCommand(sessionId, FindCommand, outcome);
      emitted := None;
      if r.Ok? {
        var currentState := Trim(r.value);
        var lastState := Lookup(lastFileStates, sessionId);
        if Some(currentState) != lastState {
          lastFileStates := lastFileStates[sessionId := currentState];
          emitted := Some(ParseFileList(currentState));
        }
      }
    }

    /** `stopWatching`: clear the session's timer and forget its baseline; a
        session without a timer is left alone. */
    method StopWatching(sessionId: string)
      requires Valid()
      modifies this
      ensures Valid()
      ensures sessionId in old(watchers) ==>
        && watchers == old(watchers) - {sessionId}
        && lastFileStates == old(lastFileStates) - {sessionId}
        && running == old(running) - {old(watchers)[sessionId]}
      ensures sessionId !in old(watchers) ==>
        watchers == old(watchers) && lastFileStates == old(lastFileStates) && running == old(running)
    {
      if sessionId in watchers {
        ValuesWithout(watchers, sessionId);
        running := running - {watchers[sessionId]};
        watchers := watchers - {sessionId};
        lastFileStates := lastFileStates - {sessionId};
      }
    }

    /** `cleanup`: stop every session's timer; no timer is left running. */
    method Cleanup()
      requires Valid()
      modifies this
      ensures Valid() && watchers == map[] && running == {}
      ensures lastFileStates == old(lastFileStates) - old(watchers).Keys
    {
      var keys := watchers.Keys;
      while keys != {}
        invariant Valid()
        invariant watchers.Keys == keys
        invariant keys <= old(watchers).Keys
        invariant lastFileStates == old(lastFileStates) - (old(watchers).Keys - keys)
        decreases |keys|
      {
        var s :| s in keys;
        ForgetOneMore(old(lastFileStates), old(watchers).Keys, keys, s);
        StopWatching(s);
        keys := keys - {s};
      }
      assert watchers == map[] by {
        assert watchers.Keys == {};
      }
    }
  }
}
