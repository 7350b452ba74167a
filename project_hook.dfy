/**
 * The project page's state hook: a file tree with optional fields, the open editor tabs, the
 * selected file and scenes, the chat with the code generator, and the run of an animation.
 */
module ProjectHook {
  import opened Wrappers
  import opened Text

  datatype Kind = FileKind | FolderKind

  /** `FileType`: every field but the id, name and kind may be absent. */
  datatype Node = Node(
    id: string,
    name: string,
    kind: Kind,
    content: Option<string>,
    sceneClass: Option<string>,
    children: Children,
    isOpen: Option<bool>)

  /** The optional `children` array. */
  datatype Children = Absent | Present(nodes: seq<Node>)

  /** A folder whose children are present. */
  predicate HasChildren(item: Node) {
    item.kind == FolderKind && item.children.Present?
  }

  /** The file nodes of the tree in depth-first order; folders without children hold none. */
  function FileNodes(items: seq<Node>): (r: seq<Node>)
    ensures forall i :: 0 <= i < |r| ==> r[i].kind == FileKind
  {
    if items == [] then []
    else
      var item := items[0];
      (if item.kind == FileKind then [item] else if HasChildren(item) then FileNodes(item.children.nodes) else [])
        + FileNodes(items[1..])
  }

  /** The first of `files` with the id. */
  function FirstWithId(files: seq<Node>, id: string): (r: Option<Node>)
    ensures r.Some? ==> r.value in files && r.value.id == id
    ensures r.None? <==> forall i :: 0 <= i < |files| ==> files[i].id != id
  {
    if files == [] then None
    else if files[0].id == id then Some(files[0])
    else FirstWithId(files[1..], id)
  }

  lemma {:induction false} FirstWithIdAppend(a: seq<Node>, b: seq<Node>, id: string)
    ensures FirstWithId(a + b, id) == if FirstWithId(a, id).Some? then FirstWithId(a, id) else FirstWithId(b, id)
  {
    if a != [] {
      assert (a + b)[0] == a[0];
      assert (a + b)[1..] == a[1..] + b;
      FirstWithIdAppend(a[1..], b, id);
      if a[0].id != id {
        assert FirstWithId(a + b, id) == FirstWithId(a[1..] + b, id);
      }
    } else {
      assert a + b == b;
    }
  }

  // ---------------------------------------------------------------------------------------
  // Tree helpers
  // ---------------------------------------------------------------------------------------

  /** `findFileById(id, items)`: a search with early return, into folders that have children. */
  function FindFileById(id: string, items: seq<Node>): (r: Option<Node>)
    ensures r.Some? ==> r.value.kind == FileKind && r.value.id == id
  {
    if items == [] then None
    else
      var item := items[0];
      if item.kind == FileKind && item.id == id then Some(item)
      else if HasChildren(item) && FindFileById(id, item.children.nodes).Some? then FindFileById(id, item.children.nodes)
      else FindFileById(id, items[1..])
  }

  /** The search finds the first file, in depth-first order, with the id: never a folder, and nothing when there is none. */
  lemma {:induction false} FindFileByIdIsFirst(id: string, items: seq<Node>)
    ensures FindFileById(id, items) == FirstWithId(FileNodes(items), id)
  {
    if items != [] {
      var item := items[0];
      var head := if item.kind == FileKind then [item] else if HasChildren(item) then FileNodes(item.children.nodes) else [];
      FindFileByIdIsFirst(id, items[1..]);
      if HasChildren(item) {
        FindFileByIdIsFirst(id, item.children.nodes);
      }
      FirstWithIdAppend(head, FileNodes(items[1..]), id);
    }
  }

  /** `updateFileSystemContent(items, fileId, newContent)` */
  function UpdateFileSystemContent(items: seq<Node>, fileId: string, newContent: string): (r: seq<Node>)
    ensures |r| == |items|
  {
    if items == [] then []
    else
      var item := items[0];
      var head :=
        if item.id == fileId && item.kind == FileKind then item.(content := Some(newContent))
        else if HasChildren(item) then item.(children := Present(UpdateFileSystemContent(item.children.nodes, fileId, newContent)))
        else item;
      [head] + UpdateFileSystemContent(items[1..], fileId, newContent)
  }

  /** The tree with every file's content taken away: its shape, ids, names, kinds, scene classes and folder states. */
  function Skeleton(items: seq<Node>): (r: seq<Node>)
    ensures |r| == |items|
  {
    if items == [] then []
    else
      var item := items[0];
      [if item.kind == FileKind then item.(content := None)
       else if HasChildren(item) then item.(children := Present(Skeleton(item.children.nodes)))
       else item]
        + Skeleton(items[1..])
  }

  /**
   * An update keeps the shape of the tree and every folder (a folder with the id too): only
   * the content of file nodes can change.
   */
  lemma {:induction false} UpdateKeepsSkeleton(items: seq<Node>, fileId: string, newContent: string)
    ensures Skeleton(UpdateFileSystemContent(items, fileId, newContent)) == Skeleton(items)
  {
    if items != [] {
      UpdateKeepsSkeleton(items[1..], fileId, newContent);
      if HasChildren(items[0]) {
        UpdateKeepsSkeleton(items[0].children.nodes, fileId, newContent);
      }
    }
  }

  /** Updating side-by-side lists updates each. */
  lemma {:induction false} UpdateAppend(a: seq<Node>, b: seq<Node>, fileId: string, newContent: string)
    ensures UpdateFileSystemContent(a + b, fileId, newContent) ==
      UpdateFileSystemContent(a, fileId, newContent) + UpdateFileSystemContent(b, fileId, newContent)
  {
    if a != [] {
      assert (a + b)[0] == a[0];
      assert (a + b)[1..] == a[1..] + b;
      UpdateAppend(a[1..], b, fileId, newContent);
    } else {
      assert a + b == b;
    }
  }

  /** The file nodes after the update are those before, each updated in place. */
  lemma {:induction false} UpdateFileNodes(items: seq<Node>, fileId: string, newContent: string)
    ensures FileNodes(UpdateFileSystemContent(items, fileId, newContent)) ==
      UpdateFileSystemContent(FileNodes(items), fileId, newContent)
  {
    if items != [] {
      var item := items[0];
      var head := if item.kind == FileKind then [item] else if HasChildren(item) then FileNodes(item.children.nodes) else [];
      UpdateFileNodes(items[1..], fileId, newContent);
      if HasChildren(item) {
        UpdateFileNodes(item.children.nodes, fileId, newContent);
      }
      UpdateAppend(head, FileNodes(items[1..]), fileId, newContent);
      assert [item][1..] == [];
    }
  }

  /** In a list of file nodes, exactly those with the id take the new content. */
  lemma {:induction false} UpdateFlat(files: seq<Node>, fileId: string, newContent: string, i: nat)
    requires i < |files| && files[i].kind == FileKind
    ensures UpdateFileSystemContent(files, fileId, newContent)[i] ==
      if files[i].id == fileId then files[i].(content := Some(newContent)) else files[i]
  {
    if i > 0 {
      UpdateFlat(files[1..], fileId, newContent, i - 1);
    }
  }

  /** After the update, the file nodes with the id hold the new content and all others are as they were. */
  lemma UpdateFileSystemContentMeaning(items: seq<Node>, fileId: string, newContent: string)
    ensures var before := FileNodes(items);
      var after := FileNodes(UpdateFileSystemContent(items, fileId, newContent));
      && |after| == |before|
      && (forall i :: 0 <= i < |before| ==>
            after[i] == if before[i].id == fileId then before[i].(content := Some(newContent)) else before[i])
      && Skeleton(UpdateFileSystemContent(items, fileId, newContent)) == Skeleton(items)
  {
    UpdateFileNodes(items, fileId, newContent);
    UpdateKeepsSkeleton(items, fileId, newContent);
    var before := FileNodes(items);
    forall i | 0 <= i < |before| {
      UpdateFlat(before, fileId, newContent, i);
    }
  }

  /** `!item.isOpen`: an absent state counts as closed, so it opens. */
  function Flip(isOpen: Option<bool>): (r: Option<bool>)
    ensures r.Some? && (r.value <==> !(isOpen == Some(true)))
  {
    Some(!(isOpen.Some? && isOpen.value))
  }

  /** `toggleFolderState(items, folderId)` */
  function ToggleFolderState(items: seq<Node>, folderId: string): (r: seq<Node>)
    ensures |r| == |items|
  {
    if items == [] then []
    else
      var item := items[0];
      var head :=
        if item.id == folderId && item.kind == FolderKind then item.(isOpen := Flip(item.isOpen))
        else if HasChildren(item) then item.(children := Present(ToggleFolderState(item.children.nodes, folderId)))
        else item;
      [head] + ToggleFolderState(items[1..], folderId)
  }

  /** Every folder with the id that toggling reaches has a defined open state. */
  predicate StatesDefined(items: seq<Node>, folderId: string) {
    forall i :: 0 <= i < |items| ==>
      if items[i].id == folderId && items[i].kind == FolderKind then items[i].isOpen.Some?
      else HasChildren(items[i]) ==> StatesDefined(items[i].children.nodes, folderId)
  }

  /** Toggling twice restores the tree when the folders it flips have a defined state. */
  lemma {:induction false} ToggleTwice(items: seq<Node>, folderId: string)
    requires StatesDefined(items, folderId)
    ensures ToggleFolderState(ToggleFolderState(items, folderId), folderId) == items
  {
    if items != [] {
      assert StatesDefined(items[1..], folderId) by {
        assert forall i :: 0 <= i < |items[1..]| ==> items[1..][i] == items[i + 1];
      }
      ToggleTwice(items[1..], folderId);
      var item := items[0];
      if !(item.id == folderId && item.kind == FolderKind) && HasChildren(item) {
        ToggleTwice(item.children.nodes, folderId);
      }
    }
  }

  /** A folder with no open state opens on the first toggle and closes on the second: the state stays defined. */
  lemma ToggleUndefinedState(f: Node)
    requires f.kind == FolderKind && f.isOpen.None?
    ensures ToggleFolderState([f], f.id) == [f.(isOpen := Some(true))]
    ensures ToggleFolderState(ToggleFolderState([f], f.id), f.id) == [f.(isOpen := Some(false))]
  {
  }

  /** Toggling keeps every file node and the shape: items at each place keep their kind, id and name. */
  lemma {:induction false} ToggleKeepsFiles(items: seq<Node>, folderId: string)
    ensures FileNodes(ToggleFolderState(items, folderId)) == FileNodes(items)
  {
    if items != [] {
      ToggleKeepsFiles(items[1..], folderId);
      var item := items[0];
      if !(item.id == folderId && item.kind == FolderKind) && HasChildren(item) {
        ToggleKeepsFiles(item.children.nodes, folderId);
      }
    }
  }

  /** Only the folders with the id change, and only in their open state; a flipped folder is not entered. */
  lemma ToggleInPlace(items: seq<Node>, folderId: string, i: nat)
    requires i < |items|
    ensures var r := ToggleFolderState(items, folderId);
      && r[i].id == items[i].id && r[i].name == items[i].name && r[i].kind == items[i].kind
      && r[i].content == items[i].content && r[i].sceneClass == items[i].sceneClass
      && (items[i].id == folderId && items[i].kind == FolderKind ==>
            r[i] == items[i].(isOpen := Flip(items[i].isOpen)))
      && (!(items[i].id == folderId && items[i].kind == FolderKind) ==> r[i].isOpen == items[i].isOpen)
      && (items[i].kind == FileKind ==> r[i] == items[i])
  {
    if i > 0 {
      ToggleInPlace(items[1..], folderId, i - 1);
    }
  }

  /** `trySelectFirstFile(items)`: the first file item, looking into folders that have children. */
  function TrySelectFirstFile(items: seq<Node>): (r: Option<Node>)
    ensures r.Some? ==> r.value.kind == FileKind
  {
    if items == [] then None
    else
      var item := items[0];
      if item.kind == FileKind then Some(item)
      else if HasChildren(item) && TrySelectFirstFile(item.children.nodes).Some? then TrySelectFirstFile(item.children.nodes)
      else TrySelectFirstFile(items[1..])
  }

  /** The fallback selection is the first file node in depth-first order, if the tree has one. */
  lemma {:induction false} TrySelectFirstFileIsFirst(items: seq<Node>)
    ensures TrySelectFirstFile(items) == if FileNodes(items) == [] then None else Some(FileNodes(items)[0])
  {
    if items != [] {
      TrySelectFirstFileIsFirst(items[1..]);
      if HasChildren(items[0]) {
        TrySelectFirstFileIsFirst(items[0].children.nodes);
      }
    }
  }

  // ---------------------------------------------------------------------------------------
  // Open files
  // ---------------------------------------------------------------------------------------

  /** No two files share an id. */
  predicate DistinctIds(files: seq<Node>) {
    forall i, j :: 0 <= i < j < |files| ==> files[i].id != files[j].id
  }

  /** Some file of the list has the id: `files.some(f => f.id === id)`. */
  predicate HasId(files: seq<Node>, id: string) {
    exists i :: 0 <= i < |files| && files[i].id == id
  }

  /** `files.filter(f => f.id !== id)` */
  function WithoutId(files: seq<Node>, id: string): (r: seq<Node>)
    ensures |r| <= |files|
  {
    if files == [] then []
    else (if files[0].id != id then [files[0]] else []) + WithoutId(files[1..], id)
  }

  /** The filter keeps exactly the files with another id, in their order. */
  lemma {:induction false} WithoutIdMembership(files: seq<Node>, id: string)
    ensures forall x :: x in WithoutId(files, id) <==> x in files && x.id != id
  {
    if files != [] {
      WithoutIdMembership(files[1..], id);
      assert forall x :: x in files <==> x == files[0] || x in files[1..];
    }
  }

  /** After the filter no file has the id. */
  lemma WithoutIdDropsId(files: seq<Node>, id: string)
    ensures !HasId(WithoutId(files, id), id)
  {
    WithoutIdMembership(files, id);
    var r := WithoutId(files, id);
    forall i | 0 <= i < |r|
      ensures r[i].id != id
    {
      assert r[i] in r;
    }
  }

  /** The filter keeps ids distinct. */
  lemma {:induction false} WithoutIdDistinct(files: seq<Node>, id: string)
    requires DistinctIds(files)
    ensures DistinctIds(WithoutId(files, id))
  {
    if files != [] {
      var rest := WithoutId(files[1..], id);
      assert DistinctIds(files[1..]) by {
        assert forall i :: 0 <= i < |files[1..]| ==> files[1..][i] == files[i + 1];
      }
      WithoutIdDistinct(files[1..], id);
      WithoutIdMembership(files[1..], id);
      if files[0].id != id {
        var r := [files[0]] + rest;
        forall i, j | 0 <= i < j < |r|
          ensures r[i].id != r[j].id
        {
          if i == 0 {
            assert r[j] in rest;
            var k :| 0 <= k < |files[1..]| && files[1..][k] == r[j];
            assert files[k + 1] == r[j];
          } else {
            assert r[i] == rest[i - 1] && r[j] == rest[j - 1];
          }
        }
      }
    }
  }

  // ---------------------------------------------------------------------------------------
  // Running an animation
  // ---------------------------------------------------------------------------------------

  /** `x || fallback` for an optional string: the value when it is present and not empty. */
  function Or(x: Option<string>, fallback: string): (r: string)
    ensures x.Some? && x.value != "" ==> r == x.value
    ensures !(x.Some? && x.value != "") ==> r == fallback
  {
    if x.Some? && x.value != "" then x.value else fallback
  }

  /** `{fileName, className, content}`, one scene of a multi-scene run. */
  datatype SceneDescriptor = SceneDescriptor(fileName: string, className: string, content: string)

  /** The body `handleRunAnimation` posts: the scenes with the combine flag, or the open file's code. */
  datatype ExecuteRequest =
    | ScenesRequest(scenes: seq<SceneDescriptor>, combineVideos: bool)
    | CodeRequest(code: string)

  /** The descriptor built from a selected scene id; a missing file gives empty fields. */
  function Descriptor(fileSystem: seq<Node>, sceneId: string): SceneDescriptor {
    match FindFileById(sceneId, fileSystem)
    case None => SceneDescriptor("", "", "")
    case Some(file) => SceneDescriptor(Or(Some(file.name), ""), Or(file.sceneClass, ""), Or(file.content, ""))
  }

  /** `scenesToRun`: the descriptors of the selected ids, dropping those with an empty name or content. */
  function ScenesToRun(fileSystem: seq<Node>, sceneIds: seq<string>): (r: seq<SceneDescriptor>)
    ensures |r| <= |sceneIds|
  {
    if sceneIds == [] then []
    else
      var d := Descriptor(fileSystem, sceneIds[0]);
      (if d.fileName != "" && d.content != "" then [d] else []) + ScenesToRun(fileSystem, sceneIds[1..])
  }

  /** A selected id whose file exists with a name and some content. */
  predicate Runnable(fileSystem: seq<Node>, sceneId: string) {
    var file := FindFileById(sceneId, fileSystem);
    file.Some? && file.value.name != "" && file.value.content.Some? && file.value.content.value != ""
  }

  /** The descriptors keep the order of the selection: selecting more ids adds their scenes after. */
  lemma {:induction false} ScenesToRunAppend(fileSystem: seq<Node>, a: seq<string>, b: seq<string>)
    ensures ScenesToRun(fileSystem, a + b) == ScenesToRun(fileSystem, a) + ScenesToRun(fileSystem, b)
  {
    if a != [] {
      assert (a + b)[0] == a[0];
      assert (a + b)[1..] == a[1..] + b;
      ScenesToRunAppend(fileSystem, a[1..], b);
    } else {
      assert a + b == b;
    }
  }

  /**
   * The scenes run are those of the runnable selected ids, each with the file's name, content
   * and scene class (empty when absent).
   */
  lemma {:induction false} ScenesToRunMembership(fileSystem: seq<Node>, sceneIds: seq<string>, d: SceneDescriptor)
    ensures d in ScenesToRun(fileSystem, sceneIds) <==>
      exists i :: 0 <= i < |sceneIds| && Runnable(fileSystem, sceneIds[i]) &&
        var file := FindFileById(sceneIds[i], fileSystem).value;
        d == SceneDescriptor(file.name, file.sceneClass.GetOr(""), file.content.value)
  {
    if sceneIds != [] {
      ScenesToRunMembership(fileSystem, sceneIds[1..], d);
      assert forall i :: 0 < i < |sceneIds| ==> sceneIds[i] == sceneIds[1..][i - 1];
    }
  }

  /** The request of a run: none when nothing is selected; the selected scenes first; otherwise the open file's code. */
  function RunRequest(fileSystem: seq<Node>, selectedFile: Option<Node>, selectedScenes: seq<string>, combine: bool): (r: Option<ExecuteRequest>)
    ensures r.None? <==> selectedFile.None? && selectedScenes == []
    ensures r.Some? && r.value.ScenesRequest? ==>
      selectedScenes != [] && r.value.combineVideos == combine && |r.value.scenes| <= |selectedScenes|
    ensures r.Some? && r.value.CodeRequest? ==> selectedScenes == [] && selectedFile.Some?
  {
    if selectedFile.None? && selectedScenes == [] then None
    else if selectedScenes != [] then Some(ScenesRequest(ScenesToRun(fileSystem, selectedScenes), combine))
    else Some(CodeRequest(Or(selectedFile.value.content, "")))
  }

  /** How the request to the execute endpoint ended: an exception (with its message when it is an `Error`) or a reply. */
  datatype ExecuteOutcome =
    | ExecuteThrew(message: Option<string>)
    | ExecuteReplied(ok: bool, status: nat, error: Option<string>, videoUrl: Option<string>)

  /** The video and the error shown after a run. */
  datatype RunResult = RunResult(videoUrl: Option<string>, error: Option<string>)

  /** The end of `handleRunAnimation`, for a multi-scene run or a single-file run. */
  function AfterRun(multi: bool, outcome: ExecuteOutcome, videoUrl: Option<string>): (r: RunResult)
    ensures r.error.None? ==> outcome.ExecuteReplied? && outcome.ok && r.videoUrl == outcome.videoUrl
    ensures r.error.Some? ==> r.videoUrl == videoUrl
  {
    match outcome
    case ExecuteThrew(message) =>
      var prefix := if multi then "Failed to execute multi-scene animation: " else "Failed to execute animation: ";
      RunResult(videoUrl, Some(prefix + message.GetOr("Unknown error occurred")))
    case ExecuteReplied(ok, status, error, url) =>
      if !ok then RunResult(videoUrl, Some(Or(error, "HTTP error! status: " + NatToString(status))))
      else if url.Some? && url.value != "" then RunResult(url, None)
      else
        var fallback :=
          if multi then "An unknown error occurred during multi-scene execution."
          else "An unknown error occurred during execution.";
        RunResult(videoUrl, Some(Or(error, fallback)))
  }

  /** A run clears the error exactly when a successful reply carries a video, which is then shown; otherwise the video stays. */
  lemma AfterRunMeaning(multi: bool, outcome: ExecuteOutcome, videoUrl: Option<string>)
    ensures var r := AfterRun(multi, outcome, videoUrl);
      && (r.error.None? <==> outcome.ExecuteReplied? && outcome.ok && outcome.videoUrl.Some? && outcome.videoUrl.value != "")
      && (r.error.None? ==> r.videoUrl == outcome.videoUrl)
      && (r.error.Some? ==> r.videoUrl == videoUrl && r.error.value != "")
  {
    match outcome
    case ExecuteThrew(_) =>
    case ExecuteReplied(ok, status, error, url) =>
      if !ok {
        assert |NatToString(status)| >= 1;
      }
  }

  // ---------------------------------------------------------------------------------------
  // Chat
  // ---------------------------------------------------------------------------------------

  /** One message of the conversation. */
  datatype Message = Message(role: string, content: string, code: Option<string>)

  const Greeting: string :=
    "Hello! I'm your AI assistant. I can help you create animations with Manim. Just tell me what you'd like to animate."

  /** `inputPrompt?.trim() || prompt.trim()` */
  function ActualPrompt(inputPrompt: Option<string>, prompt: string): string {
    if inputPrompt.Some? && Trim(inputPrompt.value) != "" then Trim(inputPrompt.value) else Trim(prompt)
  }

  /** The prompt sent is blank exactly when both the argument (if any) and the typed prompt are blank. */
  lemma ActualPromptBlank(inputPrompt: Option<string>, prompt: string)
    ensures ActualPrompt(inputPrompt, prompt) == "" <==> (inputPrompt.None? || AllSpace(inputPrompt.value)) && AllSpace(prompt)
  {
    TrimEmptyIffAllSpace(prompt);
    if inputPrompt.Some? {
      TrimEmptyIffAllSpace(inputPrompt.value);
    }
  }

  /** A send from the input box, with no (or an empty) prompt argument. */
  predicate Manual(inputPrompt: Option<string>) {
    !(inputPrompt.Some? && inputPrompt.value != "")
  }

  /** The guards of `handleSendMessage`: a blank prompt, or a manual send repeating the last user message. */
  predicate SendSkipped(conversation: seq<Message>, inputPrompt: Option<string>, prompt: string) {
    var actual := ActualPrompt(inputPrompt, prompt);
    || actual == ""
    || (Manual(inputPrompt) && |conversation| > 0
        && conversation[|conversation| - 1].role == "user" && conversation[|conversation| - 1].content == actual)
  }

  /** How the request to the generate endpoint ended. */
  datatype GenerateOutcome =
    | GenerateThrew(message: Option<string>)
    | GenerateReplied(ok: bool, status: nat, statusText: string, error: Option<string>, code: Option<string>, explanation: Option<string>)

  /** The assistant's answer, the error shown and the code returned, after a send. */
  datatype Reply = Reply(message: Message, error: Option<string>, code: Option<string>)

  const NetworkErrorLead: string := "Sorry, I encountered a network error while trying to generate your animation code: "
  const GenerationErrorLead: string := "Sorry, I encountered an error generating that: "
  const CodeExplanation: string := "Here's the animation code based on your request."
  const NoCodeExplanation: string := "I'm having trouble generating that animation. Could you provide more details?"

  function ReplyTo(outcome: GenerateOutcome): (r: Reply)
    ensures r.code.Some? ==> r.code.value != "" && r.message.code == r.code && r.error.None?
    ensures r.error.Some? ==> r.code.None? && r.message.code.None?
  {
    match outcome
    case GenerateThrew(message) =>
      var m := message.GetOr("Unknown error occurred");
      Reply(
        Message("assistant", NetworkErrorLead + m, None),
        Some("Generation failed: " + m), None)
    case GenerateReplied(ok, status, statusText, error, code, explanation) =>
      if !ok then
        Reply(
          Message("assistant", GenerationErrorLead + Or(error, statusText), None),
          Some(Or(error, "AI generation failed: HTTP error! status: " + NatToString(status))), None)
      else if code.Some? && code.value != "" then
        Reply(Message("assistant", Or(explanation, CodeExplanation), code), None, code)
      else
        Reply(
          Message("assistant", Or(explanation, NoCodeExplanation), None),
          None, None)
  }

  /** The answer is always the assistant's, and never empty. */
  lemma ReplyIsAssistants(outcome: GenerateOutcome)
    ensures ReplyTo(outcome).message.role == "assistant"
    ensures ReplyTo(outcome).message.content != ""
  {
    var content := ReplyTo(outcome).message.content;
    match outcome
    case GenerateThrew(message) =>
      assert |content| >= |NetworkErrorLead| > 0;
    case GenerateReplied(ok, status, statusText, error, code, explanation) =>
      if !ok {
        assert |content| >= |GenerationErrorLead| > 0;
      }
  }

  /**
   * Code is returned, and attached to the answer, exactly when a successful reply carries
   * some; an error is shown exactly when the request failed.
   */
  lemma ReplyOutcome(outcome: GenerateOutcome)
    ensures var r := ReplyTo(outcome);
      && (r.code.Some? <==> outcome.GenerateReplied? && outcome.ok && outcome.code.Some? && outcome.code.value != "")
      && r.message.code == r.code
      && (r.error.Some? <==> outcome.GenerateThrew? || !outcome.ok)
  {
  }

  // ---------------------------------------------------------------------------------------
  // The hook's state
  // ---------------------------------------------------------------------------------------

  class Project {
    var fileSystem: seq<Node>
    var openFiles: seq<Node>
    var selectedFile: Option<Node>
    var selectedScenes: seq<string>
    var combineScenes: bool
    var videoUrl: Option<string>
    var error: Option<string>
    var activeTab: string
    var isExecuting: bool
    var prompt: string
    var isGenerating: bool
    var conversation: seq<Message>

    /** The open tabs never show one file twice. */
    ghost predicate Valid()
      reads this
    {
      DistinctIds(openFiles)
    }

    /** A fresh project over a tree (the saved one or the sample), with the greeting as the whole conversation. */
    constructor(tree: seq<Node>)
      ensures Valid()
      ensures fileSystem == tree && openFiles == [] && selectedFile.None? && selectedScenes == [] && !combineScenes
      ensures videoUrl.None? && error.None? && activeTab == "code" && !isExecuting
      ensures prompt == "" && !isGenerating && conversation == [Message("assistant", Greeting, None)]
    {
      fileSystem := tree;
      openFiles := [];
      selectedFile := None;
      selectedScenes := [];
      combineScenes := false;
      videoUrl := None;
      error := None;
      activeTab := "code";
      isExecuting := false;
      prompt := "";
      isGenerating := false;
      conversation := [Message("assistant", Greeting, None)];
    }

    /** The effect that opens a first file: `scene-1` if the tree has it, else the first file in the tree. */
    method SelectInitialFile()
      requires Valid()
      modifies this`selectedFile, this`openFiles
      ensures Valid()
      ensures old(selectedFile).Some? || old(fileSystem) == [] ==>
        selectedFile == old(selectedFile) && openFiles == old(openFiles)
      ensures old(selectedFile).None? && old(fileSystem) != [] ==>
        var first := FirstWithId(FileNodes(fileSystem), "scene-1");
        var fallback := if FileNodes(fileSystem) == [] then None else Some(FileNodes(fileSystem)[0]);
        var chosen := if first.Some? then first else fallback;
        && (chosen.Some? ==> selectedFile == chosen && openFiles == [chosen.value])
        && (chosen.None? ==> selectedFile.None? && openFiles == old(openFiles))
      ensures fileSystem == old(fileSystem) && selectedScenes == old(selectedScenes) && conversation == old(conversation)
    {
      if selectedFile.None? && |fileSystem| > 0 {
        FindFileByIdIsFirst("scene-1", fileSystem);
        TrySelectFirstFileIsFirst(fileSystem);
        var firstFile := FindFileById("scene-1", fileSystem);
        if firstFile.Some? {
          selectedFile := firstFile;
          openFiles := [firstFile.value];
        } else {
          var fallbackFile := TrySelectFirstFile(fileSystem);
          if fallbackFile.Some? {
            selectedFile := fallbackFile;
            openFiles := [fallbackFile.value];
          }
        }
      }
    }

    /** `handleFileSelect`: select the file, and open a tab for it unless one with its id is open. */
    method HandleFileSelect(file: Node)
      requires Valid()
      modifies this`selectedFile, this`openFiles
      ensures Valid()
      ensures selectedFile == Some(file)
      ensures openFiles == if HasId(old(openFiles), file.id) then old(openFiles) else old(openFiles) + [file]
      ensures fileSystem == old(fileSystem) && selectedScenes == old(selectedScenes) && conversation == old(conversation)
    {
      selectedFile := Some(file);
      if !HasId(openFiles, file.id) {
        openFiles := openFiles + [file];
        assert forall i :: 0 <= i < |openFiles| - 1 ==> openFiles[i].id != file.id;
      }
    }

    /**
     * `handleCloseFile`: drop every tab with the id; a closed selected file gives way to the
     * first remaining tab, or to no selection.
     */
    method HandleCloseFile(fileId: string)
      requires Valid()
      modifies this`openFiles, this`selectedFile
      ensures Valid()
      ensures openFiles == WithoutId(old(openFiles), fileId) && !HasId(openFiles, fileId)
      ensures old(selectedFile).Some? && old(selectedFile).value.id == fileId ==>
        selectedFile == if openFiles == [] then None else Some(openFiles[0])
      ensures !(old(selectedFile).Some? && old(selectedFile).value.id == fileId) ==> selectedFile == old(selectedFile)
      ensures fileSystem == old(fileSystem) && selectedScenes == old(selectedScenes) && conversation == old(conversation)
    {
      WithoutIdDistinct(openFiles, fileId);
      WithoutIdDropsId(openFiles, fileId);
      var newFiles := WithoutId(openFiles, fileId);
      if selectedFile.Some? && selectedFile.value.id == fileId && |newFiles| > 0 {
        selectedFile := Some(newFiles[0]);
      } else if selectedFile.Some? && selectedFile.value.id == fileId {
        selectedFile := None;
      }
      openFiles := newFiles;
    }

    /** `handleCodeChange`: without a selection nothing happens; otherwise the tree and the selection take the new code. */
    method HandleCodeChange(newCode: string)
      requires Valid()
      modifies this`fileSystem, this`selectedFile
      ensures Valid()
      ensures old(selectedFile).None? ==> fileSystem == old(fileSystem) && selectedFile.None?
      ensures old(selectedFile).Some? ==>
        && fileSystem == UpdateFileSystemContent(old(fileSystem), old(selectedFile).value.id, newCode)
        && selectedFile == Some(old(selectedFile).value.(content := Some(newCode)))
      ensures openFiles == old(openFiles) && selectedScenes == old(selectedScenes) && conversation == old(conversation)
    {
      if selectedFile.None? {
        return;
      }
      fileSystem := UpdateFileSystemContent(fileSystem, selectedFile.value.id, newCode);
      selectedFile := Some(selectedFile.value.(content := Some(newCode)));
    }

    /** `toggleFolder` */
    method ToggleFolder(folderId: string)
      requires Valid()
      modifies this`fileSystem
      ensures Valid()
      ensures fileSystem == ToggleFolderState(old(fileSystem), folderId)
      ensures openFiles == old(openFiles) && selectedFile == old(selectedFile) && conversation == old(conversation)
    {
      fileSystem := ToggleFolderState(fileSystem, folderId);
    }

    /** `setSelectedScenes` */
    method SetSelectedScenes(sceneIds: seq<string>)
      requires Valid()
      modifies this`selectedScenes
      ensures Valid() && selectedScenes == sceneIds
      ensures fileSystem == old(fileSystem) && openFiles == old(openFiles) && selectedFile == old(selectedFile)
      ensures combineScenes == old(combineScenes) && conversation == old(conversation)
    {
      selectedScenes := sceneIds;
    }

    /** `setCombineScenes` */
    method SetCombineScenes(on: bool)
      requires Valid()
      modifies this`combineScenes
      ensures Valid() && combineScenes == on
      ensures fileSystem == old(fileSystem) && openFiles == old(openFiles) && selectedFile == old(selectedFile)
      ensures selectedScenes == old(selectedScenes) && conversation == old(conversation)
    {
      combineScenes := on;
    }

    /** `setPrompt` */
    method SetPrompt(text: string)
      requires Valid()
      modifies this`prompt
      ensures Valid() && prompt == text
      ensures fileSystem == old(fileSystem) && openFiles == old(openFiles) && selectedFile == old(selectedFile)
      ensures conversation == old(conversation)
    {
      prompt := text;
    }

    /**
     * `handleRunAnimation`: with nothing selected, an error and no request; otherwise the
     * request (returned) goes out, the preview tab shows, and `outcome`, how the request
     * ended, decides the video and the error.
     */
    method HandleRunAnimation(outcome: ExecuteOutcome) returns (request: Option<ExecuteRequest>)
      requires Valid()
      modifies this`error, this`isExecuting, this`activeTab, this`videoUrl
      ensures Valid()
      ensures request == RunRequest(old(fileSystem), old(selectedFile), old(selectedScenes), old(combineScenes))
      ensures request.None? ==>
        error == Some("No file or scenes selected to run.") && videoUrl == old(videoUrl)
        && activeTab == old(activeTab) && isExecuting == old(isExecuting)
      ensures request.Some? ==>
        RunResult(videoUrl, error) == AfterRun(request.value.ScenesRequest?, outcome, old(videoUrl))
        && activeTab == "preview" && !isExecuting
      ensures fileSystem == old(fileSystem) && openFiles == old(openFiles) && selectedFile == old(selectedFile)
      ensures selectedScenes == old(selectedScenes) && combineScenes == old(combineScenes) && conversation == old(conversation)
    {
      if selectedFile.None? && |selectedScenes| == 0 {
        error := Some("No file or scenes selected to run.");
        return None;
      }
      isExecuting := true;
      error := None;
      activeTab := "preview";
      if |selectedScenes| > 0 {
        request := Some(ScenesRequest(ScenesToRun(fileSystem, selectedScenes), combineScenes));
      } else {
        request := Some(CodeRequest(Or(selectedFile.value.content, "")));
      }
      var result := AfterRun(request.value.ScenesRequest?, outcome, videoUrl);
      videoUrl := result.videoUrl;
      error := result.error;
      isExecuting := false;
    }

    /**
     * `handleSendMessage`: a blank or repeated manual prompt is dropped; otherwise the user's
     * message and the assistant's answer to `outcome` are appended, a manual send clears the
     * input, and the generated code (if any) is returned.
     */
    method HandleSendMessage(inputPrompt: Option<string>, outcome: GenerateOutcome) returns (code: Option<string>)
      requires Valid()
      modifies this`conversation, this`prompt, this`isGenerating, this`error
      ensures Valid()
      ensures old(conversation) <= conversation
      ensures SendSkipped(old(conversation), inputPrompt, old(prompt)) ==>
        && code.None? && conversation == old(conversation) && prompt == old(prompt) && error == old(error)
        && isGenerating == old(isGenerating)
      ensures !SendSkipped(old(conversation), inputPrompt, old(prompt)) ==>
        var reply := ReplyTo(outcome);
        && conversation == old(conversation) + [Message("user", ActualPrompt(inputPrompt, old(prompt)), None), reply.message]
        && code == reply.code && error == reply.error && !isGenerating
        && prompt == if Manual(inputPrompt) then "" else old(prompt)
      ensures fileSystem == old(fileSystem) && openFiles == old(openFiles) && selectedFile == old(selectedFile)
    {
      var actualPrompt := ActualPrompt(inputPrompt, prompt);
      var duplicate := false;
      if Manual(inputPrompt) && |conversation| > 0 {
        var lastMessage := conversation[|conversation| - 1];
        duplicate := lastMessage.role == "user" && lastMessage.content == actualPrompt;
      }
      assert SendSkipped(conversation, inputPrompt, prompt) <==> actualPrompt == "" || duplicate;
      if actualPrompt == "" || duplicate {
        return None;
      }
      code := Send(actualPrompt, Manual(inputPrompt), ReplyTo(outcome));
    }

    /** The sending part of `handleSendMessage`: the user's message, then the answer. */
    method Send(actualPrompt: string, manual: bool, reply: Reply) returns (code: Option<string>)
      requires Valid()
      modifies this`conversation, this`prompt, this`isGenerating, this`error
      ensures Valid()
      ensures old(conversation) <= conversation
      ensures
        && conversation == old(conversation) + [Message("user", actualPrompt, None), reply.message]
        && code == reply.code && error == reply.error && !isGenerating
        && prompt == if manual then "" else old(prompt)
      ensures fileSystem == old(fileSystem) && openFiles == old(openFiles) && selectedFile == old(selectedFile)
    {
      conversation := conversation + [Message("user", actualPrompt, None)];
      if manual {
        prompt := "";
      }
      isGenerating := true;
      error := None;
      conversation := conversation + [reply.message];
      error := reply.error;
      isGenerating := false;
      return reply.code;
    }
  }
}
