/**
 * The collaborative workspace screen of one project: the collaborator
 * selection, the chat, the file tree with its open files and editor, and the
 * run sandbox. Each handler of the screen is a method that changes the
 * fields the screen keeps in its state.
 */
module Workspace {

  import opened Wrappers
  import opened UniqueSeq
  import opened JsonValue
  import opened Messages

  // ---------------------------------------------------------------- collaborator selection

  /** `handleUserClick` on the selection, a JavaScript `Set` (which keeps insertion order). */
  function Toggle(selected: seq<string>, id: string): (r: seq<string>)
    ensures id in r <==> id !in selected
    ensures forall x :: x != id ==> (x in r <==> x in selected)
    ensures NoDup(selected) ==> NoDup(r)
  {
    if id in selected then Remove(selected, id)
    else
      assert NoDup(selected) ==> NoDup(selected + [id]) by {
        if NoDup(selected) {
          NoDupAppend(selected, id);
        }
      }
      selected + [id]
  }

  /**
   * Clicking the same user twice gives back the same set of selected users.
   * An id that was not selected leaves no trace at all; one that was
   * selected comes back at the end of the insertion order.
   */
  lemma ToggleTwice(selected: seq<string>, id: string)
    ensures forall x :: x in Toggle(Toggle(selected, id), id) <==> x in selected
    ensures id !in selected ==> Toggle(Toggle(selected, id), id) == selected
    ensures id in selected ==> Toggle(Toggle(selected, id), id) == Remove(selected, id) + [id]
  {
    if id !in selected {
      RemoveAppended(selected, id);
    }
  }

  lemma {:induction false} RemoveAppended(s: seq<string>, x: string)
    requires x !in s
    ensures Remove(s + [x], x) == s
  {
    if s == [] {
      assert [] + [x] == [x];
    } else {
      assert (s + [x])[1..] == s[1..] + [x];
      RemoveAppended(s[1..], x);
    }
  }

  // ---------------------------------------------------------------- open files

  /** The open-file list after a click in the explorer: `[...new Set([...openFiles, file])]`. */
  function OpenedFiles(openFiles: seq<string>, file: string): (r: seq<string>)
    ensures NoDup(r)
    ensures forall f :: f in r <==> f in openFiles || f == file
  {
    AppendMissing([], openFiles + [file])
  }

  /**
   * With no file open twice, a click appends the file only if it is not open
   * yet, keeps the order of the others, and a second click changes nothing.
   */
  lemma OpenedFilesSpec(openFiles: seq<string>, file: string)
    requires NoDup(openFiles)
    ensures OpenedFiles(openFiles, file) == if file in openFiles then openFiles else openFiles + [file]
    ensures OpenedFiles(OpenedFiles(openFiles, file), file) == OpenedFiles(openFiles, file)
  {
    AppendMissingSplit([], openFiles, [file]);
    assert [] + openFiles == openFiles;
    AppendMissingDistinct([], openFiles);
    var once := OpenedFiles(openFiles, file);
    if file in openFiles {
      AppendMissingAbsorbs(openFiles, [file]);
    } else {
      AppendMissingDistinct(openFiles, [file]);
    }
    AppendMissingSplit([], once, [file]);
    assert [] + once == once;
    AppendMissingDistinct([], once);
    AppendMissingAbsorbs(once, [file]);
  }

  // ---------------------------------------------------------------- file tree

  /** The node an edit stores: `{ file: { contents } }`. */
  function FileNode(contents: string): (node: Json)
    ensures Get(node, "file").Some?
    ensures Get(Get(node, "file").value, "contents") == Some(JString(contents))
  {
    JObject([Entry("file", JObject([Entry("contents", JString(contents))]))])
  }

  /** The property name `currentFile` stands for: a file name, or `"null"` when no file is current. */
  function KeyOf(currentFile: Option<string>): (r: string)
    ensures currentFile.Some? ==> r == currentFile.value
    ensures r == "null" <==> currentFile == None || currentFile == Some("null")
  {
    if currentFile.None? then "null" else currentFile.value
  }

  /**
   * The tree an AI message carries: the payload's `fileTree` property when it
   * is truthy; with none, the tree stays as it is.
   */
  function CarriedTree(payload: Json): (r: Option<Json>)
    ensures !payload.JObject? ==> r.None?
    ensures payload.JObject? && "fileTree" !in Keys(payload.entries) ==> r.None?
    ensures r.Some? ==> Truthy(r.value) && Entry("fileTree", r.value) in payload.entries
    ensures payload.JObject? && "fileTree" in Keys(payload.entries) ==>
      (r.Some? <==> Truthy(Lookup(payload.entries, "fileTree").value))
  {
    var v := Get(payload, "fileTree");
    if v.Some? && Truthy(v.value) then v else None
  }

  // ---------------------------------------------------------------- sandbox

  /** A process spawned in the sandbox; the model keeps only its command and whether it was killed. */
  class Process {
    const command: seq<string>
    var killed: bool

    constructor (command: seq<string>)
      ensures this.command == command && !killed
    {
      this.command := command;
      killed := false;
    }

    method Kill()
      modifies this
      ensures killed
    {
      killed := true;
    }
  }

  /** The in-browser sandbox (`webContainer`): the tree last mounted and the processes spawned, in order. */
  class Container {
    var mounted: Option<Json>
    var spawned: seq<Process>

    constructor ()
      ensures mounted.None? && spawned == []
    {
      mounted := None;
      spawned := [];
    }

    method Mount(tree: Json)
      modifies this
      ensures mounted == Some(tree) && spawned == old(spawned)
    {
      mounted := Some(tree);
    }

    method Spawn(command: seq<string>) returns (p: Process)
      modifies this
      ensures fresh(p) && p.command == command && !p.killed
      ensures spawned == old(spawned) + [p] && mounted == old(mounted)
    {
      p := new Process(command);
      spawned := spawned + [p];
    }
  }

  const InstallCommand: seq<string> := ["npm", "install"]
  const StartCommand: seq<string> := ["npm", "start"]

  /** The sandbox steps the workspace takes, in order. */
  datatype SandboxStep = Mounted(tree: Json) | Spawned(p: Process) | Killed(p: Process)

  // ---------------------------------------------------------------- the screen

  class ProjectScreen {
    /** The logged-in user (`UserContext`). */
    const user: User
    /** `JSON.parse`: a value, or nothing when it throws. */
    const parse: string -> Option<Json>

    var selected: seq<string>
    var draft: string
    var messages: seq<Message>
    var fileTree: Json
    var currentFile: Option<string>
    var openFiles: seq<string>
    var container: Container?
    var runProcess: Process?
    var iframeUrl: Option<string>
    /** The messages emitted on the socket, in order. */
    var sent: seq<Message>
    /** The trees sent to `/projects/update-file-tree`, in order. */
    var saved: seq<Json>

    /** Every `npm start` process this screen spawned. */
    ghost var runs: set<Process>
    /** What the screen did in the sandbox, in order. */
    ghost var trace: seq<SandboxStep>

    ghost predicate Valid()
      reads this, runs
    {
      && NoDup(selected)
      && NoDup(openFiles)
      && (runProcess != null ==> runProcess in runs)
      && SingleLiveRun()
    }

    /** Every run process but the current one has been killed. */
    ghost predicate SingleLiveRun()
      reads this, runs
    {
      forall p :: p in runs && !p.killed ==> p == runProcess
    }

    ghost function LiveRuns(): set<Process>
      reads this, runs
    {
      set p | p in runs && !p.killed
    }

    constructor (user: User, parse: string -> Option<Json>)
      ensures Valid()
      ensures this.user == user && this.parse == parse
      ensures selected == [] && draft == "" && messages == []
      ensures fileTree == EmptyObject && currentFile.None? && openFiles == []
      ensures container == null && runProcess == null && iframeUrl.None?
      ensures sent == [] && saved == [] && runs == {} && trace == []
    {
      this.user := user;
      this.parse := parse;
      selected, draft, messages := [], "", [];
      fileTree, currentFile, openFiles := EmptyObject, None, [];
      container, runProcess, iframeUrl := null, null, None;
      sent, saved := [], [];
      runs, trace := {}, [];
    }

    /** `handleUserClick`: the user leaves the selection if selected, and joins it otherwise. */
    method HandleUserClick(id: string)
      requires Valid()
      modifies this`selected
      ensures Valid()
      ensures selected == Toggle(old(selected), id)
    {
      selected := Toggle(selected, id);
    }

    /** Typing in the message box. */
    method TypeDraft(text: string)
      modifies this`draft
      ensures draft == text
    {
      draft := text;
    }

    /** `send`: the draft goes out on the socket and at the end of the list, and the box is emptied. */
    method Send()
      requires Valid()
      modifies this`sent, this`messages, this`draft
      ensures Valid()
      ensures sent == old(sent) + [Message(user, old(draft))]
      ensures messages == old(messages) + [Message(user, old(draft))]
      ensures draft == ""
    {
      sent := sent + [Message(user, draft)];
      messages := messages + [Message(user, draft)];
      draft := "";
    }

    /**
     * The `project-message` handler. A message from anyone but the AI is
     * appended. The AI's text is parsed first: when it does not parse, or
     * parses to `null`, the handler throws and nothing changes; otherwise a
     * truthy `fileTree` in it replaces the tree and is saved, and the message
     * is appended either way.
     */
    method ReceiveMessage(data: Message) returns (handled: bool)
      requires Valid()
      modifies this`messages, this`fileTree, this`saved
      ensures Valid()
      ensures handled <==> !FromAi(data) || (parse(data.text).Some? && !parse(data.text).value.JNull?)
      ensures !handled ==> messages == old(messages) && fileTree == old(fileTree) && saved == old(saved)
      ensures handled ==> messages == old(messages) + [data]
      ensures handled && FromAi(data) && CarriedTree(parse(data.text).value).Some? ==>
        var tree := CarriedTree(parse(data.text).value).value;
        fileTree == tree && saved == old(saved) + [tree]
      ensures (!FromAi(data) || (handled && CarriedTree(parse(data.text).value).None?)) ==>
        fileTree == old(fileTree) && saved == old(saved)
    {
      if FromAi(data) {
        var payload := parse(data.text);
        if payload.None? || payload.value.JNull? {
          return false;
        }
        var tree := CarriedTree(payload.value);
        if tree.Some? {
          fileTree := tree.value;
          saved := saved + [tree.value];
        }
      }
      messages := messages + [data];
      handled := true;
    }

    /** The project as fetched when the screen opens: its tree, or `{}` when it has none. */
    method LoadProject(tree: Json)
      modifies this`fileTree
      ensures fileTree == if Truthy(tree) then tree else EmptyObject
    {
      fileTree := if Truthy(tree) then tree else EmptyObject;
    }

    /** A click on a file in the explorer: it becomes current and is opened once. */
    method OpenFile(file: string)
      requires Valid()
      modifies this`currentFile, this`openFiles
      ensures Valid()
      ensures currentFile == Some(file)
      ensures openFiles == if file in old(openFiles) then old(openFiles) else old(openFiles) + [file]
    {
      currentFile := Some(file);
      OpenedFilesSpec(openFiles, file);
      openFiles := OpenedFiles(openFiles, file);
    }

    /** A click on an open-file tab. */
    method SelectTab(file: string)
      modifies this`currentFile
      ensures currentFile == Some(file)
    {
      currentFile := Some(file);
    }

    /** The editor is shown when the tree holds a truthy node under `currentFile`. */
    predicate EditorShown(): (shown: bool)
      reads this
      ensures shown ==> fileTree.JObject? && KeyOf(currentFile) in Keys(fileTree.entries)
      ensures shown ==> Truthy(Lookup(fileTree.entries, KeyOf(currentFile)).value)
    {
      Get(fileTree, KeyOf(currentFile)).Some? && Truthy(Get(fileTree, KeyOf(currentFile)).value)
    }

    /**
     * The editor's `onBlur`: the current file's node becomes
     * `{ file: { contents } }`, every other entry is kept, and the same tree
     * is stored and saved.
     */
    method EditFile(contents: string)
      requires Valid() && EditorShown()
      modifies this`fileTree, this`saved
      ensures Valid()
      ensures fileTree == JObject(Upsert(old(fileTree).entries, KeyOf(currentFile), FileNode(contents)))
      ensures Get(fileTree, KeyOf(currentFile)) == Some(FileNode(contents))
      ensures forall k :: k != KeyOf(currentFile) ==> Get(fileTree, k) == Get(old(fileTree), k)
      ensures Keys(fileTree.entries) == Keys(old(fileTree).entries)
      ensures saved == old(saved) + [fileTree]
    {
      var key := KeyOf(currentFile);
      UpsertSpec(fileTree.entries, key, FileNode(contents));
      var ft := JObject(Upsert(fileTree.entries, key, FileNode(contents)));
      fileTree := ft;
      saved := saved + [ft];
    }

    /**
     * `clearFileTree`: a running process is killed and dropped; the tree,
     * current file, open files and preview are reset, and `{}` is saved.
     */
    method ClearFileTree()
      requires Valid()
      modifies this`runProcess, this`fileTree, this`currentFile, this`openFiles, this`iframeUrl
      modifies this`saved, this`trace, runProcess
      ensures Valid()
      ensures old(runProcess) != null ==> old(runProcess).killed
      ensures trace == old(trace) + if old(runProcess) != null then [Killed(old(runProcess))] else []
      ensures runProcess == null && LiveRuns() == {}
      ensures fileTree == EmptyObject && currentFile.None? && openFiles == [] && iframeUrl.None?
      ensures saved == old(saved) + [EmptyObject]
    {
      if runProcess != null {
        runProcess.Kill();
        trace := trace + [Killed(runProcess)];
        runProcess := null;
      }
      fileTree := EmptyObject;
      currentFile := None;
      openFiles := [];
      iframeUrl := None;
      saved := saved + [EmptyObject];
    }

    /** The sandbox has booted (`getWebContainer()` resolved). */
    method ContainerBooted(c: Container)
      modifies this`container
      ensures container == if old(container) == null then c else old(container)
    {
      if container == null {
        container := c;
      }
    }

    /**
     * The run button: mount the tree, spawn `npm install`, kill the previous
     * run process if there is one, spawn `npm start` and keep it as the run
     * process. Before the sandbox has booted the handler throws and nothing
     * changes.
     */
    method Run()
      requires Valid()
      modifies this`runProcess, this`runs, this`trace, container, runProcess
      ensures Valid()
      ensures old(container) == null ==> runProcess == old(runProcess) && trace == old(trace) && runs == old(runs)
      ensures old(container) == null && old(runProcess) != null ==> runProcess.killed == old(runProcess.killed)
      ensures old(container) != null ==>
        && container.mounted == Some(fileTree)
        && |container.spawned| == |old(container.spawned)| + 2
        && container.spawned[..|old(container.spawned)|] == old(container.spawned)
        && container.spawned[|old(container.spawned)|].command == InstallCommand
        && container.spawned[|old(container.spawned)| + 1] == runProcess
        && runProcess.command == StartCommand && !runProcess.killed && fresh(runProcess)
        && (old(runProcess) != null ==> old(runProcess).killed)
        && LiveRuns() == {runProcess}
        && trace == old(trace)
             + [Mounted(fileTree), Spawned(container.spawned[|old(container.spawned)|])]
             + (if old(runProcess) != null then [Killed(old(runProcess))] else [])
             + [Spawned(runProcess)]
    {
      if container == null {
        return;
      }
      container.Mount(fileTree);
      var install := container.Spawn(InstallCommand);
      trace := trace + [Mounted(fileTree), Spawned(install)];
      if runProcess != null {
        runProcess.Kill();
        trace := trace + [Killed(runProcess)];
      }
      var run := container.Spawn(StartCommand);
      trace := trace + [Spawned(run)];
      runProcess := run;
      runs := runs + {run};
    }

    /** The sandbox's `server-ready` event: the preview shows the reported URL. */
    method ServerReady(url: string)
      modifies this`iframeUrl
      ensures iframeUrl == Some(url)
    {
      iframeUrl := Some(url);
    }
  }

  /** A valid workspace has at most one live run process: the current one. */
  lemma AtMostOneLiveRun(w: ProjectScreen)
    requires w.Valid()
    ensures w.LiveRuns() <= if w.runProcess == null then {} else {w.runProcess}
    ensures |w.LiveRuns()| <= 1
  {
    var live := w.LiveRuns();
    if w.runProcess == null {
      assert live == {};
    } else {
      assert live <= {w.runProcess};
      SubsetOfSingleton(live, w.runProcess);
    }
  }

  lemma SubsetOfSingleton(s: set<Process>, x: Process)
    requires s <= {x}
    ensures |s| <= 1
  {
    if s != {} {
      assert s == {x};
    }
  }
}
