/** The file explorer of the front end: the set of expanded folders, the
    language guessed from a file name, and the file that the "new file"
    button creates from the name typed at the prompt. */
module FileExplorer {
  import opened Wrappers
  import opened Text
  import App

  // ---------------------------------------------------------------------------
  // Languages

  /** `fileName.split('.').pop()`. */
  function Extension(fileName: string): string {
    var parts := Split(fileName, '.');
    parts[|parts| - 1]
  }

  /** The extension is the text after the last dot, or the whole name when it
      has none; it holds no dot. */
  lemma ExtensionIsAfterLastDot(fileName: string)
    ensures Extension(fileName) == AfterLast(fileName, '.')
    ensures '.' !in Extension(fileName)
    ensures '.' !in fileName ==> Extension(fileName) == fileName
  {
    LastOfSplit(fileName, '.');
    if '.' !in fileName {
      AfterLastNone(fileName, '.');
    }
  }

  /** The extensions the explorer knows, with their editor languages. */
  const Languages: map<string, string> := map[
    "py" := "python",
    "js" := "javascript",
    "java" := "java",
    "cpp" := "cpp",
    "c" := "c",
    "html" := "html",
    "css" := "css"]

  /** `getLanguageFromExtension`: the language of a known extension, else
      `plaintext`. */
  function LanguageOf(fileName: string): (language: string)
    ensures Extension(fileName) in Languages ==> language == Languages[Extension(fileName)]
    ensures Extension(fileName) !in Languages ==> language == "plaintext"
  {
    var ext := Extension(fileName);
    if ext in Languages then Languages[ext] else "plaintext"
  }

  /** The language is one the editor knows, or plain text. */
  lemma LanguageIsKnown(fileName: string)
    ensures LanguageOf(fileName) in Languages.Values || LanguageOf(fileName) == "plaintext"
  {
    var ext := Extension(fileName);
    if ext in Languages {
      assert Languages[ext] in Languages.Values;
    }
  }

  /** A name with a dot takes the language of what follows its last dot. */
  lemma LanguageOfDotted(stem: string, ext: string)
    requires '.' !in ext
    ensures Extension(stem + "." + ext) == ext
    ensures LanguageOf(stem + "." + ext) == if ext in Languages then Languages[ext] else "plaintext"
  {
    AfterLastOf(stem, '.', ext);
    ExtensionIsAfterLastDot(stem + "." + ext);
  }

  /** A name without a dot is its own extension: `c` is a C file and
      `Makefile` is plain text. */
  lemma LanguageOfUndotted(fileName: string)
    requires '.' !in fileName
    ensures Extension(fileName) == fileName
    ensures LanguageOf(fileName) == if fileName in Languages then Languages[fileName] else "plaintext"
  {
    ExtensionIsAfterLastDot(fileName);
  }

  /** The bare name `c` is taken for a C file. */
  lemma BareCIsC(fileName: string)
    requires fileName == "c"
    ensures LanguageOf(fileName) == "c"
  {
    LanguageOfUndotted(fileName);
  }

  // ---------------------------------------------------------------------------
  // Creating a file

  /** JavaScript's truthiness of what `prompt` returns: `None` for Cancel. */
  predicate Truthy(s: Option<string>) {
    s.Some? && s.value != ""
  }

  /** `createFile`: given what was typed at the prompt and a fresh identifier,
      the file the explorer hands to `onFileCreate`, if any. Only a non-empty
      name creates one: an empty file of that name, of kind `file`, in the
      language its name suggests. */
  function CreateFile(prompted: Option<string>, id: string): (f: Option<App.File>)
    ensures f.Some? <==> Truthy(prompted)
    ensures f.Some? ==> f.value == App.File(id, prompted.value, "", LanguageOf(prompted.value), Some("file"))
  {
    if Truthy(prompted) then Some(App.File(id, prompted.value, "", LanguageOf(prompted.value), Some("file")))
    else None
  }

  /** The editor state once the explorer has created a file from the
      prompt: unchanged if nothing was created. */
  function AfterCreate(st: App.EditorState, prompted: Option<string>, id: string): App.EditorState {
    match CreateFile(prompted, id)
    case None => st
    case Some(f) => App.Create(st, f)
  }

  /** A created file is new, empty and the last file of the project; the
      existing files and the tabs are untouched. */
  lemma CreateAppendsOneFile(st: App.EditorState, prompted: Option<string>, id: string)
    requires Truthy(prompted)
    ensures var r := AfterCreate(st, prompted, id);
      && |r.files| == |st.files| + 1 && r.files[..|st.files|] == st.files
      && r.files[|st.files|].id == id && r.files[|st.files|].name == prompted.value
      && r.files[|st.files|].content == "" && r.files[|st.files|].kind == Some("file")
      && r.files[|st.files|].language == LanguageOf(prompted.value)
      && r.openFiles == st.openFiles && r.activeFile == st.activeFile
  {
  }

  /** Cancelling the prompt, or confirming an empty name, creates nothing. */
  lemma CancelCreatesNothing(st: App.EditorState, prompted: Option<string>, id: string)
    requires !Truthy(prompted)
    ensures AfterCreate(st, prompted, id) == st
  {
  }

  // ---------------------------------------------------------------------------
  // Folders

  /** The set after toggling a folder: without it if it was there, with it
      otherwise. */
  function Toggled(expanded: set<string>, folderId: string): (r: set<string>)
    ensures folderId in r <==> folderId !in expanded
    ensures forall x :: x != folderId ==> (x in r <==> x in expanded)
  {
    if folderId in expanded then expanded - {folderId} else expanded + {folderId}
  }

  /** Toggling a folder twice restores the set. */
  lemma ToggleTwice(expanded: set<string>, folderId: string)
    ensures Toggled(Toggled(expanded, folderId), folderId) == expanded
  {
  }

  /** Toggling different folders commutes. */
  lemma ToggleCommutes(expanded: set<string>, a: string, b: string)
    ensures Toggled(Toggled(expanded, a), b) == Toggled(Toggled(expanded, b), a)
  {
  }

  class Explorer {
    var expandedFolders: set<string>

    /** Only the root folder starts expanded. */
    constructor ()
      ensures expandedFolders == {"root"}
    {
      expandedFolders := {"root"};
    }

    /** `toggleFolder`: copy the set, remove the folder from the copy if it is
        there and add it otherwise, then store the copy. */
    method ToggleFolder(folderId: string)
      modifies this
      ensures expandedFolders == Toggled(old(expandedFolders), folderId)
    {
      var newExpanded := expandedFolders;
      if folderId in newExpanded {
        newExpanded := newExpanded - {folderId};
      } else {
        newExpanded := newExpanded + {folderId};
      }
      expandedFolders := newExpanded;
    }
  }
}
