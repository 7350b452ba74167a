/**
 * The project IDE component: it collects the files of its tree, detects the scene classes
 * they declare, edits file contents, adds scene files and hands scenes to the runner.
 */
module Ide {
  import opened Wrappers
  import opened Text
  import opened FileExplorer
  import opened SceneClasses
  import Compiler

  type SceneInfo = Compiler.SceneInfo

  // ---------------------------------------------------------------------------------------
  // Collecting the files
  // ---------------------------------------------------------------------------------------

  /** The files of one item: itself if it is a file, otherwise those inside it. */
  function ItemFiles(x: Item): (r: seq<Item>)
    ensures AllFiles([x]) == r
  {
    assert [x][1..] == [];
    if x.File? then [x] else AllFiles(x.children)
  }

  /** The files of two lists side by side are the files of the first, then those of the second. */
  lemma {:induction false} AllFilesAppend(a: seq<Item>, b: seq<Item>)
    ensures AllFiles(a + b) == AllFiles(a) + AllFiles(b)
  {
    if a != [] {
      assert (a + b)[0] == a[0];
      assert (a + b)[1..] == a[1..] + b;
      AllFilesAppend(a[1..], b);
      assert AllFiles(a + b) == ItemFiles(a[0]) + AllFiles(a[1..] + b);
    } else {
      assert a + b == b;
    }
  }

  /** `getAllFiles`: pushes each file, and the files of each folder, in order. */
  method GetAllFiles(items: seq<Item>) returns (files: seq<Item>)
    ensures files == AllFiles(items)
    decreases items
  {
    files := [];
    for i := 0 to |items|
      invariant files == AllFiles(items[..i])
    {
      assert items[..i + 1] == items[..i] + [items[i]];
      AllFilesAppend(items[..i], [items[i]]);
      if items[i].File? {
        files := files + [items[i]];
      } else {
        assert items[i] in items;
        var inner := GetAllFiles(items[i].children);
        files := files + inner;
      }
    }
    assert items[..|items|] == items;
  }

  /** The collected files are exactly the files of the tree, at any depth, and no folder. */
  lemma {:induction false} AllFilesExactlyTheFiles(items: seq<Item>, x: Item)
    ensures x in AllFiles(items) <==> x.File? && Occurs(x, items)
  {
    if items != [] {
      var head := if items[0].File? then [items[0]] else AllFiles(items[0].children);
      assert AllFiles(items) == head + AllFiles(items[1..]);
      AllFilesExactlyTheFiles(items[1..], x);
      if items[0].Folder? {
        AllFilesExactlyTheFiles(items[0].children, x);
      }
      if x in AllFiles(items[1..]) {
        var i :| 0 <= i < |items[1..]| && (items[1..][i] == x || (items[1..][i].Folder? && Occurs(x, items[1..][i].children)));
        assert items[i + 1] == items[1..][i];
      }
      if x.File? && Occurs(x, items) {
        var i :| 0 <= i < |items| && (items[i] == x || (items[i].Folder? && Occurs(x, items[i].children)));
        if i > 0 {
          assert items[1..][i - 1] == items[i];
        }
      }
    }
  }

  // ---------------------------------------------------------------------------------------
  // Finding a file
  // ---------------------------------------------------------------------------------------

  /** The first file of `files` with the id. */
  function FirstWithId(files: seq<Item>, id: string): (r: Option<Item>)
    ensures r.Some? ==> r.value in files && r.value.id == id
    ensures r.None? <==> forall i :: 0 <= i < |files| ==> files[i].id != id
  {
    if files == [] then None
    else if files[0].id == id then Some(files[0])
    else FirstWithId(files[1..], id)
  }

  /** The first-found file of a list of files followed by more is found in the first part, if there. */
  lemma {:induction false} FirstWithIdAppend(a: seq<Item>, b: seq<Item>, id: string)
    ensures FirstWithId(a + b, id) == if FirstWithId(a, id).Some? then FirstWithId(a, id) else FirstWithId(b, id)
  {
    if a != [] {
      assert (a + b)[0] == a[0];
      assert (a + b)[1..] == a[1..] + b;
      FirstWithIdAppend(a[1..], b, id);
      if a[0].id != id {
        assert FirstWithId(a + b, id) == FirstWithId(a[1..] + b, id);
      }
    } else {
      assert a + b == b;
    }
  }

  /** While no file with the id has been met, the next item decides the first one found. */
  lemma FindStep(items: seq<Item>, i: nat, id: string)
    requires i < |items| && FirstWithId(AllFiles(items[..i]), id).None?
    ensures FirstWithId(AllFiles(items[..i + 1]), id) == FirstWithId(ItemFiles(items[i]), id)
    ensures FirstWithId(ItemFiles(items[i]), id).Some? ==>
      FirstWithId(AllFiles(items), id) == FirstWithId(ItemFiles(items[i]), id)
  {
    assert items[..i + 1] == items[..i] + [items[i]];
    AllFilesAppend(items[..i], [items[i]]);
    FirstWithIdAppend(AllFiles(items[..i]), ItemFiles(items[i]), id);
    assert items[..i + 1] + items[i + 1..] == items;
    AllFilesAppend(items[..i + 1], items[i + 1..]);
    FirstWithIdAppend(AllFiles(items[..i + 1]), AllFiles(items[i + 1..]), id);
  }

  /** `findFileById`: the first file with the id in depth-first order, never a folder. */
  method FindFileById(id: string, items: seq<Item>) returns (r: Option<Item>)
    ensures r == FirstWithId(AllFiles(items), id)
    ensures r.Some? ==> r.value.File? && r.value.id == id
    decreases items
  {
    for i := 0 to |items|
      invariant FirstWithId(AllFiles(items[..i]), id).None?
    {
      FindStep(items, i, id);
      if items[i].File? && items[i].id == id {
        return Some(items[i]);
      } else if items[i].Folder? {
        assert items[i] in items;
        var found := FindFileById(id, items[i].children);
        if found.Some? {
          return found;
        }
      }
    }
    assert items[..|items|] == items;
    r := None;
  }

  // ---------------------------------------------------------------------------------------
  // Scene detection
  // ---------------------------------------------------------------------------------------

  /** The extractor the component uses: the same four patterns as the compile service. */
  function SceneExtractor(): string -> seq<string> {
    code => SceneClassesOf(code)
  }

  /** A file scene detection looks into: a `.py` name (letter case counts) and some content. */
  predicate Eligible(f: Item) {
    f.File? && EndsWith(f.name, ".py") && f.content != ""
  }

  /** The class names of a list of scenes. */
  function ClassNames(scenes: seq<SceneInfo>): set<string> {
    set i | 0 <= i < |scenes| :: scenes[i].className
  }

  /** No class name appears twice. */
  predicate UniqueClasses(scenes: seq<SceneInfo>) {
    forall i, j :: 0 <= i < j < |scenes| ==> scenes[i].className != scenes[j].className
  }

  lemma ClassNamesSnoc(scenes: seq<SceneInfo>, s: SceneInfo)
    ensures ClassNames(scenes + [s]) == ClassNames(scenes) + {s.className}
  {
    var t := scenes + [s];
    assert t[|scenes|] == s;
    forall c | c in ClassNames(scenes)
      ensures c in ClassNames(t)
    {
      var i :| 0 <= i < |scenes| && scenes[i].className == c;
      assert t[i] == scenes[i];
    }
  }

  /** One file's classes, in order, each added with the file unless its name was seen before. */
  function AddNew(prior: seq<SceneInfo>, fileName: string, content: string, classes: seq<string>): seq<SceneInfo> {
    if classes == [] then prior
    else
      var p := AddNew(prior, fileName, content, classes[..|classes| - 1]);
      var c := classes[|classes| - 1];
      if c in ClassNames(p) then p else p + [Compiler.SceneInfo(c, fileName, content)]
  }

  /** The detected scenes: every eligible file in order, through `AddNew`. */
  function Detected(files: seq<Item>, extract: string -> seq<string>): seq<SceneInfo> {
    if files == [] then []
    else
      var prior := Detected(files[..|files| - 1], extract);
      var f := files[|files| - 1];
      if Eligible(f) then AddNew(prior, f.name, f.content, extract(f.content)) else prior
  }

  /** What one file adds comes after the scenes before, and the names seen grow by exactly the file's classes. */
  lemma {:induction false} AddNewExtends(prior: seq<SceneInfo>, fileName: string, content: string, classes: seq<string>)
    ensures var r := AddNew(prior, fileName, content, classes);
      && |prior| <= |r| && r[..|prior|] == prior
      && forall c :: c in ClassNames(r) <==> c in ClassNames(prior) || c in classes
  {
    if classes != [] {
      var init := classes[..|classes| - 1];
      var c := classes[|classes| - 1];
      AddNewExtends(prior, fileName, content, init);
      var p := AddNew(prior, fileName, content, init);
      assert classes == init + [c];
      if c !in ClassNames(p) {
        ClassNamesSnoc(p, Compiler.SceneInfo(c, fileName, content));
        assert (p + [Compiler.SceneInfo(c, fileName, content)])[..|prior|] == p[..|prior|];
      }
    }
  }

  /** Each scene a file adds carries the file's name and content and one of its classes not seen before. */
  lemma {:induction false} AddNewEntries(prior: seq<SceneInfo>, fileName: string, content: string, classes: seq<string>)
    ensures var r := AddNew(prior, fileName, content, classes);
      forall i :: |prior| <= i < |r| ==>
        && r[i].fileName == fileName && r[i].content == content
        && r[i].className in classes && r[i].className !in ClassNames(prior)
  {
    if classes != [] {
      var init := classes[..|classes| - 1];
      var c := classes[|classes| - 1];
      AddNewEntries(prior, fileName, content, init);
      AddNewExtends(prior, fileName, content, init);
      var p := AddNew(prior, fileName, content, init);
      if c !in ClassNames(p) {
        var r := p + [Compiler.SceneInfo(c, fileName, content)];
        forall i | |prior| <= i < |r|
          ensures r[i].className in classes && r[i].className !in ClassNames(prior)
        {
          if i < |p| {
            assert r[i] == p[i] && p[i].className in init;
          }
        }
      }
    }
  }

  /** A file adds no class name that is already there, nor any twice. */
  lemma {:induction false} AddNewUnique(prior: seq<SceneInfo>, fileName: string, content: string, classes: seq<string>)
    requires UniqueClasses(prior)
    ensures UniqueClasses(AddNew(prior, fileName, content, classes))
  {
    if classes != [] {
      var init := classes[..|classes| - 1];
      var c := classes[|classes| - 1];
      AddNewUnique(prior, fileName, content, init);
      var p := AddNew(prior, fileName, content, init);
      if c !in ClassNames(p) {
        var r := p + [Compiler.SceneInfo(c, fileName, content)];
        forall i, j | 0 <= i < j < |r|
          ensures r[i].className != r[j].className
        {
          if j == |p| {
            assert r[i] == p[i];
          } else {
            assert r[i] == p[i] && r[j] == p[j];
          }
        }
      }
    }
  }

  /** No class name is detected twice, across all the files. */
  lemma {:induction false} DetectedUnique(files: seq<Item>, extract: string -> seq<string>)
    ensures UniqueClasses(Detected(files, extract))
  {
    if files != [] {
      var f := files[|files| - 1];
      DetectedUnique(files[..|files| - 1], extract);
      if Eligible(f) {
        AddNewUnique(Detected(files[..|files| - 1], extract), f.name, f.content, extract(f.content));
      }
    }
  }

  /** Every class of every eligible file is detected. */
  lemma {:induction false} DetectedComplete(files: seq<Item>, extract: string -> seq<string>)
    ensures forall k, c :: 0 <= k < |files| && Eligible(files[k]) && c in extract(files[k].content) ==>
      c in ClassNames(Detected(files, extract))
  {
    if files != [] {
      var init := files[..|files| - 1];
      var f := files[|files| - 1];
      DetectedComplete(init, extract);
      var prior := Detected(init, extract);
      if Eligible(f) {
        AddNewExtends(prior, f.name, f.content, extract(f.content));
      }
      forall k, c | 0 <= k < |files| && Eligible(files[k]) && c in extract(files[k].content)
        ensures c in ClassNames(Detected(files, extract))
      {
        if k < |init| {
          assert init[k] == files[k];
        }
      }
    }
  }

  /**
   * Scene `s` comes from file `k`: an eligible file declaring the class, whose name and content
   * the scene carries, and no eligible file before it declares the class.
   */
  ghost predicate FirstSource(files: seq<Item>, k: int, s: SceneInfo, extract: string -> seq<string>) {
    && 0 <= k < |files| && Eligible(files[k])
    && s.fileName == files[k].name && s.content == files[k].content
    && s.className in extract(files[k].content)
    && forall j :: 0 <= j < k && Eligible(files[j]) ==> s.className !in extract(files[j].content)
  }

  /** Every detected scene comes from the first eligible file, in order, that declares its class. */
  lemma {:induction false} DetectedSound(files: seq<Item>, extract: string -> seq<string>)
    ensures forall s :: s in Detected(files, extract) ==> exists k :: FirstSource(files, k, s, extract)
  {
    if files != [] {
      var init := files[..|files| - 1];
      var f := files[|files| - 1];
      var prior := Detected(init, extract);
      var r := Detected(files, extract);
      DetectedSound(init, extract);
      DetectedComplete(init, extract);
      if Eligible(f) {
        AddNewExtends(prior, f.name, f.content, extract(f.content));
        AddNewEntries(prior, f.name, f.content, extract(f.content));
      }
      forall s | s in r
        ensures exists k :: FirstSource(files, k, s, extract)
      {
        var i :| 0 <= i < |r| && r[i] == s;
        if i < |prior| {
          assert s == prior[i] && prior[i] in prior;
          var k :| FirstSource(init, k, s, extract);
          assert forall j :: 0 <= j <= k ==> init[j] == files[j];
          assert FirstSource(files, k, s, extract);
        } else {
          forall j | 0 <= j < |init| && Eligible(files[j])
            ensures s.className !in extract(files[j].content)
          {
            assert init[j] == files[j];
          }
          assert FirstSource(files, |init|, s, extract);
        }
      }
    }
  }

  /** The scene-detection effect: the scenes of the eligible files, each class once, first file first. */
  method DetectScenes(allFiles: seq<Item>) returns (scenes: seq<SceneInfo>)
    ensures scenes == Detected(allFiles, SceneExtractor())
  {
    scenes := [];
    var seen: set<string> := {};
    for k := 0 to |allFiles|
      invariant scenes == Detected(allFiles[..k], SceneExtractor())
      invariant seen == ClassNames(scenes)
    {
      var file := allFiles[k];
      assert allFiles[..k + 1][..k] == allFiles[..k];
      if file.File? && EndsWith(file.name, ".py") && file.content != "" {
        var sceneClasses := ExtractSceneClasses(file.content);
        ghost var prior := scenes;
        for j := 0 to |sceneClasses|
          invariant scenes == AddNew(prior, file.name, file.content, sceneClasses[..j])
          invariant seen == ClassNames(scenes)
        {
          assert sceneClasses[..j + 1][..j] == sceneClasses[..j];
          var className := sceneClasses[j];
          if className !in seen {
            ClassNamesSnoc(scenes, Compiler.SceneInfo(className, file.name, file.content));
            scenes := scenes + [Compiler.SceneInfo(className, file.name, file.content)];
            seen := seen + {className};
          }
        }
        assert sceneClasses[..|sceneClasses|] == sceneClasses;
      }
    }
    assert allFiles[..|allFiles|] == allFiles;
  }

  // ---------------------------------------------------------------------------------------
  // Editing a file
  // ---------------------------------------------------------------------------------------

  /** `updateFileContent(fileId, newContent, items)` */
  function UpdateFileContent(fileId: string, newContent: string, items: seq<Item>): (r: seq<Item>)
    ensures |r| == |items|
  {
    if items == [] then []
    else
      var item := items[0];
      var head :=
        if item.File? && item.id == fileId then item.(content := newContent)
        else if item.Folder? then item.(children := UpdateFileContent(fileId, newContent, item.children))
        else item;
      [head] + UpdateFileContent(fileId, newContent, items[1..])
  }

  /** The tree with every file's content blanked: its shape, ids, names and folder states. */
  function Skeleton(items: seq<Item>): (r: seq<Item>)
    ensures |r| == |items|
  {
    if items == [] then []
    else
      var item := items[0];
      [if item.File? then item.(content := "") else item.(children := Skeleton(item.children))]
        + Skeleton(items[1..])
  }

  /** An update keeps the shape of the tree: only file contents change. */
  lemma {:induction false} UpdateKeepsSkeleton(fileId: string, newContent: string, items: seq<Item>)
    ensures Skeleton(UpdateFileContent(fileId, newContent, items)) == Skeleton(items)
  {
    if items != [] {
      UpdateKeepsSkeleton(fileId, newContent, items[1..]);
      if items[0].Folder? {
        UpdateKeepsSkeleton(fileId, newContent, items[0].children);
      }
    }
  }

  /** Updating side-by-side lists updates each. */
  lemma {:induction false} UpdateAppend(fileId: string, newContent: string, a: seq<Item>, b: seq<Item>)
    ensures UpdateFileContent(fileId, newContent, a + b) ==
      UpdateFileContent(fileId, newContent, a) + UpdateFileContent(fileId, newContent, b)
  {
    if a != [] {
      assert (a + b)[0] == a[0];
      assert (a + b)[1..] == a[1..] + b;
      UpdateAppend(fileId, newContent, a[1..], b);
    } else {
      assert a + b == b;
    }
  }

  /** The files after the update are the files before, updated in place: same order, same count. */
  lemma {:induction false} UpdateFiles(fileId: string, newContent: string, items: seq<Item>)
    ensures AllFiles(UpdateFileContent(fileId, newContent, items)) == UpdateFileContent(fileId, newContent, AllFiles(items))
  {
    if items != [] {
      var r := UpdateFileContent(fileId, newContent, items);
      UpdateFiles(fileId, newContent, items[1..]);
      UpdateAppend(fileId, newContent, ItemFiles(items[0]), AllFiles(items[1..]));
      if items[0].Folder? {
        UpdateFiles(fileId, newContent, items[0].children);
      }
      assert AllFiles(r) == ItemFiles(r[0]) + AllFiles(r[1..]);
      assert AllFiles(items) == ItemFiles(items[0]) + AllFiles(items[1..]);
    }
  }

  /** In a list of files, exactly the files with the id take the new content. */
  lemma {:induction false} UpdateFlat(fileId: string, newContent: string, files: seq<Item>, i: nat)
    requires i < |files| && files[i].File?
    ensures UpdateFileContent(fileId, newContent, files)[i] ==
      if files[i].id == fileId then files[i].(content := newContent) else files[i]
  {
    if i > 0 {
      UpdateFlat(fileId, newContent, files[1..], i - 1);
    }
  }

  /** After the update, the files with the id hold the new content and every other file is as it was. */
  lemma UpdateFileContentMeaning(fileId: string, newContent: string, items: seq<Item>)
    ensures var before := AllFiles(items);
      var after := AllFiles(UpdateFileContent(fileId, newContent, items));
      && |after| == |before|
      && (forall i :: 0 <= i < |before| && before[i].id == fileId ==> after[i] == before[i].(content := newContent))
      && (forall i :: 0 <= i < |before| && before[i].id != fileId ==> after[i] == before[i])
      && Skeleton(UpdateFileContent(fileId, newContent, items)) == Skeleton(items)
  {
    UpdateFiles(fileId, newContent, items);
    UpdateKeepsSkeleton(fileId, newContent, items);
    var before := AllFiles(items);
    forall i | 0 <= i < |before|
      ensures UpdateFileContent(fileId, newContent, before)[i] ==
        if before[i].id == fileId then before[i].(content := newContent) else before[i]
    {
      AllFilesExactlyTheFiles(items, before[i]);
      UpdateFlat(fileId, newContent, before, i);
    }
  }

  // ---------------------------------------------------------------------------------------
  // Adding a scene
  // ---------------------------------------------------------------------------------------

  /** The starter content of a scene file added by `addNewScene`. */
  function IdeSceneTemplate(className: string): string {
    "from manim import *\n\nclass " + className
      + "(Scene):\n    def construct(self):\n        # Your animation here\n        circle = Circle()"
      + "\n        self.play(Create(circle))\n        self.wait(1)"
  }

  /** `addNewScene`'s file name: the scene name, with `.py` appended when it is missing. */
  function SceneFileName(sceneName: string): (r: string)
    ensures EndsWith(r, ".py")
    ensures EndsWith(sceneName, ".py") <==> r == sceneName
    ensures !EndsWith(sceneName, ".py") ==> r == sceneName + ".py"
  {
    if EndsWith(sceneName, ".py") then sceneName
    else
      var r := sceneName + ".py";
      assert r[|r| - 3..] == ".py";
      r
  }

  /** `addNewScene`'s file; `now` is `Date.now()`. The class is named after the whole scene name. */
  function NewIdeSceneFile(sceneName: string, now: string): Item {
    File("file-" + now, SceneFileName(sceneName), IdeSceneTemplate(PascalCase(sceneName)))
  }

  /** The class of the new file is the scene name with separators dropped and its words capitalised. */
  lemma NewIdeSceneFileClass(sceneName: string, now: string)
    ensures NewIdeSceneFile(sceneName, now).content == IdeSceneTemplate(DropSepsCapitalizing(sceneName, true))
  {
    PascalCaseMeaning(sceneName);
  }

  /** `addNewScene`'s tree: the file goes last into `folder-scenes` inside the top-level `folder-project`. */
  function AddToProjectScenes(tree: seq<Item>, file: Item): (r: seq<Item>)
    ensures |r| == |tree|
  {
    if tree == [] then []
    else
      var item := tree[0];
      [if item.Folder? && item.id == "folder-project" then item.(children := AppendToFolder(item.children, "folder-scenes", file)) else item]
        + AddToProjectScenes(tree[1..], file)
  }

  /** Each top-level item of `AddToProjectScenes`. */
  lemma AddToProjectScenesAt(tree: seq<Item>, file: Item, i: nat)
    requires i < |tree|
    ensures var r := AddToProjectScenes(tree, file);
      r[i] == if tree[i].Folder? && tree[i].id == "folder-project"
        then tree[i].(children := AppendToFolder(tree[i].children, "folder-scenes", file))
        else tree[i]
  {
    if i > 0 {
      AddToProjectScenesAt(tree[1..], file, i - 1);
    }
  }

  /**
   * Where `addNewScene` puts the file: last in every `folder-scenes` directly inside a top-level
   * `folder-project`; every other item, at the top level and inside `folder-project`, is kept
   * as it was, and the project folder keeps its id, name, state and number of children.
   */
  lemma AddToProjectScenesPlacement(tree: seq<Item>, file: Item, i: nat, j: nat)
    requires i < |tree|
    ensures var r := AddToProjectScenes(tree, file);
      && (!(tree[i].Folder? && tree[i].id == "folder-project") ==> r[i] == tree[i])
      && (tree[i].Folder? && tree[i].id == "folder-project" ==>
            && r[i].Folder? && r[i].id == tree[i].id && r[i].name == tree[i].name && r[i].isOpen == tree[i].isOpen
            && |r[i].children| == |tree[i].children|
            && (j < |tree[i].children| ==>
                  var child := tree[i].children[j];
                  r[i].children[j] ==
                    if child.Folder? && child.id == "folder-scenes" then child.(children := child.children + [file]) else child))
  {
    AddToProjectScenesAt(tree, file, i);
  }

  /** With a `folder-scenes` inside the top-level `folder-project`, the new file is in the tree. */
  lemma AddToProjectScenesOccurs(tree: seq<Item>, file: Item, i: nat, j: nat)
    requires i < |tree| && tree[i].Folder? && tree[i].id == "folder-project"
    requires j < |tree[i].children| && tree[i].children[j].Folder? && tree[i].children[j].id == "folder-scenes"
    ensures Occurs(file, AddToProjectScenes(tree, file))
  {
    AddToProjectScenesPlacement(tree, file, i, j);
    var r := AddToProjectScenes(tree, file);
    var scenes := r[i].children[j];
    assert scenes.children[|scenes.children| - 1] == file;
    assert Occurs(file, scenes.children);
    assert Occurs(file, r[i].children);
  }

  /** Without a top-level `folder-project`, `addNewScene` leaves the tree as it was. */
  lemma {:induction false} AddToProjectScenesWithoutProject(tree: seq<Item>, file: Item)
    requires forall i :: 0 <= i < |tree| ==> !(tree[i].Folder? && tree[i].id == "folder-project")
    ensures AddToProjectScenes(tree, file) == tree
  {
    if tree != [] {
      assert forall i :: 0 <= i < |tree[1..]| ==> tree[1..][i] == tree[i + 1];
      AddToProjectScenesWithoutProject(tree[1..], file);
    }
  }

  // ---------------------------------------------------------------------------------------
  // The component
  // ---------------------------------------------------------------------------------------

  /** The content of `main.py` when the page passes no code. */
  const DefaultMainCode: string :=
    "from manim import *\n\nclass IntroScene(Scene):\n    def construct(self):\n"
    + "        # Introduction scene\n        title = Text(\"Welcome to Manim!\", font_size=48)\n"
    + "        self.play(Write(title))\n        self.wait(2)\n        self.play(FadeOut(title))\n\n"
    + "class CircleScene(Scene):\n    def construct(self):\n        # Circle animation scene\n"
    + "        circle = Circle(radius=2, color=BLUE)\n        self.play(Create(circle))\n"
    + "        self.play(circle.animate.set_color(RED))\n        self.wait(1)"

  /** The content of the sample scene file. */
  const SampleScenesCode: string :=
    "from manim import *\n\nclass SquareScene(Scene):\n    def construct(self):\n"
    + "        square = Square(side_length=3, color=GREEN)\n        self.play(Create(square))\n"
    + "        self.play(Rotate(square, PI/4))\n        self.wait(1)\n\n"
    + "class TriangleScene(Scene):\n    def construct(self):\n        triangle = Triangle(color=YELLOW)\n"
    + "        self.play(Create(triangle))\n        self.play(triangle.animate.scale(2))\n        self.wait(1)"

  /** The starting tree: `project` holding `main.py` (the page's code, or the default) and `scenes`. */
  function InitialFileSystem(code: string): seq<Item> {
    [Folder("folder-project", "project", true, [
      File("file-main", "main.py", if code != "" then code else DefaultMainCode),
      Folder("folder-scenes", "scenes", true, [File("file-scene1", "geometric_shapes.py", SampleScenesCode)])
    ])]
  }

  /** A call the component makes to the page: `onRunAnimation()` or `onMultiSceneRun(scenes, combineVideos)`. */
  datatype RunRequest = RunAnimation | MultiSceneRun(scenes: seq<SceneInfo>, combineVideos: bool)

  /** The component's state: the tree, the open file, the detected scenes and the combine switch. */
  class Component {
    var fileSystem: seq<Item>
    var selectedFile: Option<Item>
    var detectedScenes: seq<SceneInfo>
    var combineMode: bool

    /** The open file, when there is one, is a file. */
    ghost predicate Valid()
      reads this
    {
      selectedFile.Some? ==> selectedFile.value.File?
    }

    constructor(code: string)
      ensures Valid()
      ensures fileSystem == InitialFileSystem(code) && selectedFile.None? && detectedScenes == [] && combineMode
    {
      fileSystem := InitialFileSystem(code);
      selectedFile := None;
      detectedScenes := [];
      combineMode := true;
    }

    /** The effect run whenever the tree changes: detect the scenes of all its files. */
    method RefreshScenes()
      modifies this
      ensures detectedScenes == Detected(AllFiles(fileSystem), SceneExtractor())
      ensures fileSystem == old(fileSystem) && selectedFile == old(selectedFile) && combineMode == old(combineMode)
    {
      var allFiles := GetAllFiles(fileSystem);
      detectedScenes := DetectScenes(allFiles);
    }

    /** The effect that opens `main.py` when no file is open. */
    method SelectMainIfNone()
      requires Valid()
      modifies this
      ensures Valid()
      ensures selectedFile == if old(selectedFile).Some? then old(selectedFile) else FirstWithId(AllFiles(fileSystem), "file-main")
      ensures fileSystem == old(fileSystem) && detectedScenes == old(detectedScenes) && combineMode == old(combineMode)
    {
      if selectedFile.None? {
        var mainFile := FindFileById("file-main", fileSystem);
        if mainFile.Some? {
          selectedFile := mainFile;
        }
      }
    }

    /**
     * `handleCodeChange`: with a file open, its content changes in the tree and in the
     * selection; the page is told the new code (the result) only when the file is `main.py`.
     */
    method HandleCodeChange(newCode: string) returns (notified: Option<string>)
      requires Valid()
      modifies this
      ensures Valid()
      ensures old(selectedFile).None? ==> fileSystem == old(fileSystem) && selectedFile.None? && notified.None?
      ensures old(selectedFile).Some? ==>
        && fileSystem == UpdateFileContent(old(selectedFile).value.id, newCode, old(fileSystem))
        && selectedFile == Some(old(selectedFile).value.(content := newCode))
      ensures notified.Some? <==> old(selectedFile).Some? && old(selectedFile).value.id == "file-main"
      ensures notified.Some? ==> notified.value == newCode
      ensures detectedScenes == old(detectedScenes) && combineMode == old(combineMode)
    {
      notified := None;
      if selectedFile.Some? {
        var file := selectedFile.value;
        fileSystem := UpdateFileContent(file.id, newCode, fileSystem);
        selectedFile := Some(file.(content := newCode));
        if file.id == "file-main" {
          notified := Some(newCode);
        }
      }
    }

    /** `handleFileSelect` */
    method HandleFileSelect(file: Item)
      requires file.File?
      modifies this
      ensures Valid() && selectedFile == Some(file)
      ensures fileSystem == old(fileSystem) && detectedScenes == old(detectedScenes) && combineMode == old(combineMode)
    {
      selectedFile := Some(file);
    }

    /** The "Combine videos" checkbox. */
    method SetCombineMode(on: bool)
      modifies this
      ensures combineMode == on
      ensures fileSystem == old(fileSystem) && selectedFile == old(selectedFile) && detectedScenes == old(detectedScenes)
    {
      combineMode := on;
    }

    /** `addNewScene`: the new file joins the project's scenes folder and is opened. */
    method AddNewScene(sceneName: string, now: string)
      modifies this
      ensures Valid()
      ensures fileSystem == AddToProjectScenes(old(fileSystem), NewIdeSceneFile(sceneName, now))
      ensures selectedFile == Some(NewIdeSceneFile(sceneName, now))
      ensures detectedScenes == old(detectedScenes) && combineMode == old(combineMode)
    {
      var newFile := NewIdeSceneFile(sceneName, now);
      fileSystem := AddToProjectScenes(fileSystem, newFile);
      selectedFile := Some(newFile);
    }

    /** `handleMultiSceneRun`: all detected scenes with the combine switch, or no call when there are none. */
    method HandleMultiSceneRun() returns (request: Option<RunRequest>)
      ensures request.None? <==> detectedScenes == []
      ensures request.Some? ==> request.value == MultiSceneRun(detectedScenes, combineMode)
    {
      if |detectedScenes| == 0 {
        return None;
      }
      request := Some(MultiSceneRun(detectedScenes, combineMode));
    }

    /**
     * `handleSingleSceneRun`: `main.py` runs through the page's own run; any other open file
     * with content runs as one scene, its first class, without combining; otherwise no call.
     */
    method HandleSingleSceneRun() returns (request: Option<RunRequest>)
      requires Valid()
      ensures selectedFile.Some? && selectedFile.value.id == "file-main" ==> request == Some(RunAnimation)
      ensures !(selectedFile.Some? && selectedFile.value.id == "file-main") ==>
        (request.Some? <==> selectedFile.Some? && selectedFile.value.content != "" && SceneClassesOf(selectedFile.value.content) != [])
      ensures request.Some? && request.value.MultiSceneRun? ==>
        var file := selectedFile.value;
        request.value == MultiSceneRun([Compiler.SceneInfo(SceneClassesOf(file.content)[0], file.name, file.content)], false)
    {
      request := None;
      if selectedFile.Some? && selectedFile.value.id == "file-main" {
        request := Some(RunAnimation);
      } else if selectedFile.Some? && selectedFile.value.content != "" {
        var file := selectedFile.value;
        var scenes := ExtractSceneClasses(file.content);
        if |scenes| > 0 {
          request := Some(MultiSceneRun([Compiler.SceneInfo(scenes[0], file.name, file.content)], false));
        }
      }
    }
  }
}
