/** The editor state of the front end: the project's files, the files open as
    tabs, the active file and the output pane. Each handler builds a new state
    from the old one. Identifiers are given, since they come from a UUID
    generator. The reply of the code-execution endpoint is a parameter. */
module App {
  import opened Wrappers
  import opened Lists

  /** A file of the editor. `kind` is the `type` field that files created
      in the explorer carry; the initial file has none. */
  datatype File = File(id: string, name: string, content: string, language: string, kind: Option<string>)

  datatype EditorState = EditorState(
    files: seq<File>,
    openFiles: seq<File>,
    activeFile: Option<File>,
    output: string,
    loading: bool)

  /** The initial state: one Python file, no tab open, nothing active. */
  function Initial(id: string): (st: EditorState)
    ensures |st.files| == 1 && st.files[0].name == "main.py" && st.files[0].language == "python"
    ensures st.openFiles == [] && st.activeFile == None && st.output == "" && !st.loading
  {
    EditorState([File(id, "main.py", "# Write your code here\nprint(\"Hello World!\")", "python", None)], [], None, "", false)
  }

  // ---------------------------------------------------------------------------
  // Tabs

  /** Whether some file of `fs` has the identifier `id`: `fs.find(f => f.id === id)`. */
  predicate HasId(fs: seq<File>, id: string) {
    exists k :: 0 <= k < |fs| && fs[k].id == id
  }

  /** No two files share an identifier. */
  predicate UniqueIds(fs: seq<File>) {
    forall i, j :: 0 <= i < j < |fs| ==> fs[i].id != fs[j].id
  }

  /** The active file is the file of one of the tabs: the tab bar highlights it. */
  predicate ActiveIsOpen(st: EditorState) {
    st.activeFile.Some? ==> HasId(st.openFiles, st.activeFile.value.id)
  }

  /** What the handlers keep: every tab has its own file, and the active file,
      if any, is one of them. */
  predicate Valid(st: EditorState) {
    UniqueIds(st.openFiles) && ActiveIsOpen(st)
  }

  /** The callback `f => f.id !== id`. */
  function OtherThan(id: string): File -> bool {
    (f: File) => f.id != id
  }

  /** `fs.filter(f => f.id !== id)`. */
  function WithoutId(fs: seq<File>, id: string): seq<File> {
    Filter(OtherThan(id), fs)
  }

  /** `handleFileSelect`: open a tab for the file unless one with its
      identifier is open, and make it the active file. */
  function Select(st: EditorState, file: File): (r: EditorState)
    ensures r.activeFile == Some(file) && HasId(r.openFiles, file.id)
    ensures r.openFiles == if HasId(st.openFiles, file.id) then st.openFiles else st.openFiles + [file]
    ensures r.files == st.files && r.output == st.output && r.loading == st.loading
  {
    var tabs := if HasId(st.openFiles, file.id) then st.openFiles else st.openFiles + [file];
    assert !HasId(st.openFiles, file.id) ==> tabs[|st.openFiles|] == file;
    st.(openFiles := tabs, activeFile := Some(file))
  }

  /** `handleFileClose`: drop every tab with the identifier. Closing the active
      file activates the first remaining tab, or nothing if none remains. */
  function Close(st: EditorState, id: string): (r: EditorState)
    ensures r.openFiles == WithoutId(st.openFiles, id)
    ensures st.activeFile.Some? && st.activeFile.value.id == id ==>
      r.activeFile == if |r.openFiles| > 0 then Some(r.openFiles[0]) else None
    ensures !(st.activeFile.Some? && st.activeFile.value.id == id) ==> r.activeFile == st.activeFile
    ensures r.files == st.files && r.output == st.output && r.loading == st.loading
  {
    var rest := WithoutId(st.openFiles, id);
    var active := if st.activeFile.Some? && st.activeFile.value.id == id
      then (if |rest| > 0 then Some(rest[0]) else None)
      else st.activeFile;
    st.(openFiles := rest, activeFile := active)
  }

  /** `handleFileCreate`: append the new file to the project. */
  function Create(st: EditorState, newFile: File): (r: EditorState)
    ensures |r.files| == |st.files| + 1 && r.files[..|st.files|] == st.files && r.files[|st.files|] == newFile
    ensures r.openFiles == st.openFiles && r.activeFile == st.activeFile
    ensures r.output == st.output && r.loading == st.loading
  {
    st.(files := st.files + [newFile])
  }

  /** `handleFileDelete`: drop every file with the identifier from the
      project, then close it. */
  function Delete(st: EditorState, id: string): (r: EditorState)
    ensures r.files == WithoutId(st.files, id)
    ensures r.openFiles == Close(st, id).openFiles && r.activeFile == Close(st, id).activeFile
    ensures r.output == st.output && r.loading == st.loading
  {
    Close(st.(files := WithoutId(st.files, id)), id)
  }

  /** The file with new content if it has the identifier, else the file. */
  function Edited(f: File, id: string, content: string): (g: File)
    ensures g.id == f.id && g.name == f.name && g.language == f.language && g.kind == f.kind
    ensures g.content == if f.id == id then content else f.content
  {
    if f.id == id then f.(content := content) else f
  }

  /** `fs.map(f => f.id === id ? {...f, content} : f)`. */
  function EditAll(fs: seq<File>, id: string, content: string): (r: seq<File>)
    ensures |r| == |fs|
    ensures forall k :: 0 <= k < |fs| ==> r[k] == Edited(fs[k], id, content)
  {
    Map((f: File) => Edited(f, id, content), fs)
  }

  /** `handleCodeChange`: the new content goes to every file and every tab
      with the identifier, and to the active file if it has it. */
  function ChangeCode(st: EditorState, id: string, content: string): (r: EditorState)
    ensures r.files == EditAll(st.files, id, content) && r.openFiles == EditAll(st.openFiles, id, content)
    ensures r.activeFile == if st.activeFile.Some? then Some(Edited(st.activeFile.value, id, content)) else None
    ensures r.output == st.output && r.loading == st.loading
  {
    st.(files := EditAll(st.files, id, content),
        openFiles := EditAll(st.openFiles, id, content),
        activeFile := if st.activeFile.Some? then Some(Edited(st.activeFile.value, id, content)) else None)
  }

  // ---------------------------------------------------------------------------
  // Running code

  /** The `run` part of the execution service's reply; an absent field is `None`. */
  datatype Run = Run(stdout: Option<string>, stderr: Option<string>)

  /** The request `executeCode` posts. */
  datatype CodeRequest = CodeRequest(language: string, code: string)

  /** JavaScript's truthiness of an optional string. */
  predicate Truthy(s: Option<string>) {
    s.Some? && s.value != ""
  }

  /** `result.run?.stdout || result.run?.stderr || 'No output'`: the standard
      output if there is any, else the standard error, else a placeholder;
      never empty. */
  function PickOutput(run: Option<Run>): (o: string)
    ensures o != ""
    ensures run.Some? && Truthy(run.value.stdout) ==> o == run.value.stdout.value
    ensures run.Some? && !Truthy(run.value.stdout) && Truthy(run.value.stderr) ==> o == run.value.stderr.value
    ensures (run.None? || (!Truthy(run.value.stdout) && !Truthy(run.value.stderr))) ==> o == "No output"
  {
    if run.Some? && Truthy(run.value.stdout) then run.value.stdout.value
    else if run.Some? && Truthy(run.value.stderr) then run.value.stderr.value
    else "No output"
  }

  /** The request `executeCode` sends: the active file's language and
      content; none without an active file. */
  function RunRequest(st: EditorState): (q: Option<CodeRequest>)
    ensures q.Some? <==> st.activeFile.Some?
    ensures q.Some? ==> q.value == CodeRequest(st.activeFile.value.language, st.activeFile.value.content)
  {
    if st.activeFile.None? then None
    else Some(CodeRequest(st.activeFile.value.language, st.activeFile.value.content))
  }

  /** The state once `executeCode` has finished, given the reply (or the
      error) of the service: nothing changes without an active file;
      otherwise the output pane shows the chosen output or the error, and
      loading is over. */
  function ExecuteCode(st: EditorState, reply: Result<Option<Run>>): (r: EditorState)
    ensures st.activeFile.None? ==> r == st
    ensures st.activeFile.Some? ==> r == st.(output := if reply.Ok? then PickOutput(reply.value) else "Error: " + reply.message, loading := false)
  {
    if st.activeFile.None? then st
    else st.(output := if reply.Ok? then PickOutput(reply.value) else "Error: " + reply.message, loading := false)
  }

  // ---------------------------------------------------------------------------
  // Properties

  /** The initial state has no tabs, so it is valid. */
  lemma InitialValid(id: string)
    ensures Valid(Initial(id))
  {
  }

  /** Closing keeps exactly the tabs of other identifiers. */
  lemma ClosedTabs(st: EditorState, id: string)
    ensures forall f :: f in Close(st, id).openFiles <==> f in st.openFiles && f.id != id
    ensures !HasId(Close(st, id).openFiles, id)
  {
    var rest := Close(st, id).openFiles;
    forall f
      ensures f in rest <==> f in st.openFiles && f.id != id
    {
      FilterKeeps(OtherThan(id), st.openFiles, f);
    }
    forall k | 0 <= k < |rest|
      ensures rest[k].id != id
    {
      assert rest[k] in rest;
    }
  }

  /** Filtering keeps identifiers apart. */
  lemma {:induction false} FilterKeepsUnique(p: File -> bool, fs: seq<File>)
    requires UniqueIds(fs)
    ensures UniqueIds(Filter(p, fs))
  {
    if |fs| > 0 {
      var init, last := fs[..|fs| - 1], fs[|fs| - 1];
      FilterKeepsUnique(p, init);
      var left := Filter(p, init);
      forall i | 0 <= i < |left|
        ensures left[i].id != last.id
      {
        assert left[i] in left;
        var j :| 0 <= j < |init| && init[j] == left[i];
      }
    }
  }

  /** Selecting keeps the handlers' invariant. */
  lemma SelectValid(st: EditorState, file: File)
    requires Valid(st)
    ensures Valid(Select(st, file))
  {
    if !HasId(st.openFiles, file.id) {
      var o := st.openFiles + [file];
      forall i, j | 0 <= i < j < |o|
        ensures o[i].id != o[j].id
      {
        if j == |st.openFiles| {
          assert o[i] == st.openFiles[i];
        }
      }
    }
  }

  /** Closing keeps the handlers' invariant. */
  lemma CloseValid(st: EditorState, id: string)
    requires Valid(st)
    ensures Valid(Close(st, id))
  {
    var r := Close(st, id);
    FilterKeepsUnique(OtherThan(id), st.openFiles);
    if st.activeFile.Some? && st.activeFile.value.id != id {
      var a := st.activeFile.value;
      var k :| 0 <= k < |st.openFiles| && st.openFiles[k].id == a.id;
      ClosedTabs(st, id);
      assert st.openFiles[k] in r.openFiles;
      var j :| 0 <= j < |r.openFiles| && r.openFiles[j] == st.openFiles[k];
    }
  }

  /** Deleting keeps the handlers' invariant, and no file is left with that
      identifier, neither in the project nor among the tabs. */
  lemma DeleteValid(st: EditorState, id: string)
    requires Valid(st)
    ensures Valid(Delete(st, id))
    ensures !HasId(Delete(st, id).files, id) && !HasId(Delete(st, id).openFiles, id)
  {
    CloseValid(st, id);
    ClosedTabs(st, id);
    var fs := Delete(st, id).files;
    forall k | 0 <= k < |fs|
      ensures fs[k].id != id
    {
      assert fs[k] in fs;
    }
  }

  /** Changing code keeps the handlers' invariant. */
  lemma ChangeCodeValid(st: EditorState, id: string, content: string)
    requires Valid(st)
    ensures Valid(ChangeCode(st, id, content))
  {
    var r := ChangeCode(st, id, content);
    if st.activeFile.Some? {
      var k :| 0 <= k < |st.openFiles| && st.openFiles[k].id == st.activeFile.value.id;
      assert r.openFiles[k].id == r.activeFile.value.id;
    }
  }

  /** Creating a file and running code keep the handlers' invariant. */
  lemma CreateAndExecuteValid(st: EditorState, newFile: File, reply: Result<Option<Run>>)
    requires Valid(st)
    ensures Valid(Create(st, newFile)) && Valid(ExecuteCode(st, reply))
  {
  }

  /** Selecting a file twice is selecting it once. */
  lemma SelectIdempotent(st: EditorState, file: File)
    ensures Select(Select(st, file), file) == Select(st, file)
  {
  }

  /** Closing twice is closing once. */
  lemma CloseIdempotent(st: EditorState, id: string)
    ensures Close(Close(st, id), id) == Close(st, id)
  {
    var rest := Close(st, id).openFiles;
    ClosedTabs(st, id);
    FilterAll(OtherThan(id), rest);
  }

  /** After a successful run the output pane is never empty. */
  lemma OutputNeverBlank(st: EditorState, reply: Result<Option<Run>>)
    requires st.activeFile.Some?
    ensures ExecuteCode(st, reply).output != "" && !ExecuteCode(st, reply).loading
  {
  }
}
