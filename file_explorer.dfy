/**
 * The file explorer of the project page: a tree of files and folders, its search filter,
 * folder toggling, and the creation of a new scene file.
 */
module FileExplorer {
  import opened Wrappers
  import opened Text

  /** `FileSystemItem`: a file, or a folder with its children. */
  datatype Item =
    | File(id: string, name: string, content: string)
    | Folder(id: string, name: string, isOpen: bool, children: seq<Item>)

  /** `x` is one of `items` or lies, at any depth, inside one of its folders. */
  ghost predicate Occurs(x: Item, items: seq<Item>) {
    exists i :: 0 <= i < |items| && (items[i] == x || (items[i].Folder? && Occurs(x, items[i].children)))
  }

  /** Every file of the tree, in pre-order. */
  function AllFiles(items: seq<Item>): (r: seq<Item>)
    ensures forall i :: 0 <= i < |r| ==> r[i].File?
  {
    if items == [] then []
    else (if items[0].File? then [items[0]] else AllFiles(items[0].children)) + AllFiles(items[1..])
  }

  // ---------------------------------------------------------------------------------------
  // Search
  // ---------------------------------------------------------------------------------------

  /** `name.toLowerCase().includes(query.toLowerCase())` */
  predicate NameMatches(name: string, query: string) {
    Contains(ToLower(name), ToLower(query))
  }

  /** `filterItems(items)` */
  function FilterItems(items: seq<Item>, query: string): (r: seq<Item>)
    ensures |r| <= |items|
  {
    if items == [] then [] else FilterItem(items[0], query) + FilterItems(items[1..], query)
  }

  /** One item of `filterItems`: kept as it is, kept with its children filtered, or dropped. */
  function FilterItem(item: Item, query: string): (r: seq<Item>)
    ensures |r| <= 1
  {
    match item
    case File(_, name, _) => if NameMatches(name, query) then [item] else []
    case Folder(_, name, _, children) =>
      var kept := FilterItems(children, query);
      if NameMatches(name, query) || kept != [] then [item.(children := kept)] else []
  }

  /** The tree the explorer shows for a search query: all of it when the query is blank. */
  function VisibleTree(tree: seq<Item>, query: string): (r: seq<Item>)
    ensures |r| <= |tree|
  {
    if Trim(query) == [] then tree else FilterItems(tree, query)
  }

  /** A query of white space only shows the whole tree; any other query filters it. */
  lemma BlankQueryShowsAll(tree: seq<Item>, query: string)
    ensures AllSpace(query) ==> VisibleTree(tree, query) == tree
    ensures !AllSpace(query) ==> VisibleTree(tree, query) == FilterItems(tree, query)
  {
    TrimEmptyIffAllSpace(query);
  }

  /**
   * What survives the filter: a file exactly when its name matches; a folder exactly when its
   * name matches or some child survives, and then with its children replaced by the survivors.
   */
  lemma FilterItemSurvives(item: Item, query: string)
    ensures item.File? ==> (FilterItem(item, query) != [] <==> NameMatches(item.name, query))
    ensures item.File? && FilterItem(item, query) != [] ==> FilterItem(item, query) == [item]
    ensures item.Folder? ==>
      (FilterItem(item, query) != [] <==> NameMatches(item.name, query) || FilterItems(item.children, query) != [])
    ensures item.Folder? && FilterItem(item, query) != [] ==>
      FilterItem(item, query) == [item.(children := FilterItems(item.children, query))]
  {
  }

  /** The survivors of a list are the survivors of its items, in order. */
  lemma {:induction false} FilterItemsMembership(items: seq<Item>, query: string, y: Item)
    ensures y in FilterItems(items, query) <==> exists i :: 0 <= i < |items| && FilterItem(items[i], query) == [y]
  {
    if items != [] {
      FilterItemsMembership(items[1..], query, y);
      if i :| 0 <= i < |items| && FilterItem(items[i], query) == [y] {
        if i > 0 {
          assert FilterItem(items[1..][i - 1], query) == [y];
        }
      }
      if y in FilterItems(items[1..], query) {
        var i :| 0 <= i < |items[1..]| && FilterItem(items[1..][i], query) == [y];
        assert FilterItem(items[i + 1], query) == [y];
      }
    }
  }

  /** A tree holds a file whose name matches the query. */
  ghost predicate HoldsMatch(items: seq<Item>, query: string) {
    exists f :: Occurs(f, items) && f.File? && NameMatches(f.name, query)
  }

  /** A list holding a matching file, at any depth, has a survivor. */
  lemma {:induction false} MatchSurvives(items: seq<Item>, query: string)
    requires HoldsMatch(items, query)
    ensures FilterItems(items, query) != []
  {
    var f :| Occurs(f, items) && f.File? && NameMatches(f.name, query);
    var i :| 0 <= i < |items| && (items[i] == f || (items[i].Folder? && Occurs(f, items[i].children)));
    if items[i] != f {
      MatchSurvives(items[i].children, query);
    }
    assert FilterItem(items[i], query) != [];
    FilterItemsMembership(items, query, FilterItem(items[i], query)[0]);
  }

  /**
   * Completeness: every item of the tree that survives on its own (a matching file, or a folder
   * whose name matches or that holds a match) is found in the filtered tree, at any depth.
   */
  lemma {:induction false} FilterComplete(items: seq<Item>, query: string, x: Item)
    requires Occurs(x, items) && FilterItem(x, query) != []
    ensures Occurs(FilterItem(x, query)[0], FilterItems(items, query))
  {
    var i :| 0 <= i < |items| && (items[i] == x || (items[i].Folder? && Occurs(x, items[i].children)));
    var y := FilterItem(x, query)[0];
    if items[i] == x {
      FilterItemsMembership(items, query, y);
      var r := FilterItems(items, query);
      var j :| 0 <= j < |r| && r[j] == y;
      assert Occurs(y, r);
    } else {
      var d := items[i];
      FilterComplete(d.children, query, x);
      var kept := FilterItems(d.children, query);
      assert kept != [];
      var dy := d.(children := kept);
      assert FilterItem(d, query) == [dy];
      FilterItemsMembership(items, query, dy);
      var r := FilterItems(items, query);
      var j :| 0 <= j < |r| && r[j] == dy;
      assert Occurs(y, r[j].children);
      assert Occurs(y, r);
    }
  }

  /**
   * Every matching file survives the filter, and so does every folder above it, with its
   * children filtered.
   */
  lemma MatchingFileAndAncestorsSurvive(tree: seq<Item>, query: string, f: Item)
    requires Occurs(f, tree) && f.File? && NameMatches(f.name, query)
    ensures Occurs(f, FilterItems(tree, query))
    ensures forall d :: Occurs(d, tree) && d.Folder? && Occurs(f, d.children) ==>
      Occurs(d.(children := FilterItems(d.children, query)), FilterItems(tree, query))
  {
    FilterComplete(tree, query, f);
    forall d | Occurs(d, tree) && d.Folder? && Occurs(f, d.children)
      ensures Occurs(d.(children := FilterItems(d.children, query)), FilterItems(tree, query))
    {
      assert HoldsMatch(d.children, query);
      MatchSurvives(d.children, query);
      FilterComplete(tree, query, d);
    }
  }

  /**
   * Soundness: everything in the filtered tree comes from an item of the original tree that
   * survives on its own; in particular, every file shown is a matching file of the tree.
   */
  lemma {:induction false} FilterSound(items: seq<Item>, query: string, y: Item)
    requires Occurs(y, FilterItems(items, query))
    ensures exists x :: Occurs(x, items) && FilterItem(x, query) == [y]
    ensures y.File? ==> Occurs(y, items) && NameMatches(y.name, query)
  {
    var r := FilterItems(items, query);
    var j :| 0 <= j < |r| && (r[j] == y || (r[j].Folder? && Occurs(y, r[j].children)));
    FilterItemsMembership(items, query, r[j]);
    var i :| 0 <= i < |items| && FilterItem(items[i], query) == [r[j]];
    assert Occurs(items[i], items);
    if r[j] != y {
      assert items[i].Folder? && r[j].children == FilterItems(items[i].children, query);
      FilterSound(items[i].children, query, y);
      var x :| Occurs(x, items[i].children) && FilterItem(x, query) == [y];
      assert Occurs(x, items);
      if y.File? {
        assert Occurs(y, items);
      }
    }
  }

  // ---------------------------------------------------------------------------------------
  // Folder toggling
  // ---------------------------------------------------------------------------------------

  /** `toggleFolder`'s `updateItem`: flips the folders with the id, without entering them. */
  function ToggleFolder(items: seq<Item>, folderId: string): (r: seq<Item>)
    ensures |r| == |items|
  {
    if items == [] then []
    else
      var item := items[0];
      var head :=
        if item.Folder? && item.id == folderId then item.(isOpen := !item.isOpen)
        else if item.Folder? then item.(children := ToggleFolder(item.children, folderId))
        else item;
      [head] + ToggleFolder(items[1..], folderId)
  }

  /** Toggling the same folder twice gives the tree back. */
  lemma {:induction false} ToggleTwice(items: seq<Item>, folderId: string)
    ensures ToggleFolder(ToggleFolder(items, folderId), folderId) == items
  {
    if items != [] {
      ToggleTwice(items[1..], folderId);
      if items[0].Folder? && items[0].id != folderId {
        ToggleTwice(items[0].children, folderId);
      }
    }
  }

  /** Toggling leaves every file, and the order of the files, as it was. */
  lemma {:induction false} ToggleKeepsFiles(items: seq<Item>, folderId: string)
    ensures AllFiles(ToggleFolder(items, folderId)) == AllFiles(items)
  {
    if items != [] {
      ToggleKeepsFiles(items[1..], folderId);
      if items[0].Folder? && items[0].id != folderId {
        ToggleKeepsFiles(items[0].children, folderId);
      }
    }
  }

  /**
   * Only the folders with the id change, and only in `isOpen`: the item at each place keeps
   * its kind, id and name, and a toggled folder keeps its children.
   */
  lemma ToggleInPlace(items: seq<Item>, folderId: string, i: nat)
    requires i < |items|
    ensures var r := ToggleFolder(items, folderId);
      && r[i].id == items[i].id && r[i].name == items[i].name && r[i].Folder? == items[i].Folder?
      && (items[i].File? ==> r[i] == items[i])
      && (items[i].Folder? && items[i].id == folderId ==> r[i] == items[i].(isOpen := !items[i].isOpen))
      && (items[i].Folder? && items[i].id != folderId ==> r[i].isOpen == items[i].isOpen)
  {
    if i > 0 {
      ToggleInPlace(items[1..], folderId, i - 1);
    }
  }

  // ---------------------------------------------------------------------------------------
  // Python files and scene names
  // ---------------------------------------------------------------------------------------

  /** `isPythonFile(fileName)` */
  predicate IsPythonFile(fileName: string) {
    EndsWith(ToLower(fileName), ".py")
  }

  /** A name is a Python file name exactly when it ends in `.py` in any letter case. */
  lemma PythonFileAnyCase(fileName: string)
    ensures IsPythonFile(fileName) <==>
      && |fileName| >= 3
      && fileName[|fileName| - 3] == '.'
      && (fileName[|fileName| - 2] == 'p' || fileName[|fileName| - 2] == 'P')
      && (fileName[|fileName| - 1] == 'y' || fileName[|fileName| - 1] == 'Y')
  {
    var n := |fileName|;
    var low := ToLower(fileName);
    if n >= 3 {
      assert low[n - 3..] == [low[n - 3], low[n - 2], low[n - 1]];
    }
  }

  /** The separators of `/[_\s]+/`. */
  predicate IsWordSep(c: char) {
    c == '_' || IsSpace(c)
  }

  /** `s` without its leading separators. */
  function SkipSeps(s: string): (r: string)
    ensures |r| <= |s| && r == s[|s| - |r|..]
    ensures r == [] || !IsWordSep(r[0])
  {
    if s != [] && IsWordSep(s[0]) then SkipSeps(s[1..]) else s
  }

  /** `s.split(/[_\s]+/)`: the pieces between maximal runs of separators, as many as runs plus one. */
  function SplitWords(s: string): (words: seq<string>)
    ensures |words| >= 1
    decreases |s|
  {
    if s == [] then [""]
    else if IsWordSep(s[0]) then [""] + SplitWords(SkipSeps(s))
    else
      var rest := SplitWords(s[1..]);
      [[s[0]] + rest[0]] + rest[1..]
  }

  /** `word.charAt(0).toUpperCase() + word.slice(1)` */
  function Capitalize(word: string): string {
    if word == [] then [] else [ToUpperChar(word[0])] + word[1..]
  }

  /** `.map(capitalize).join("")` */
  function JoinCapitalized(words: seq<string>): string {
    if words == [] then [] else Capitalize(words[0]) + JoinCapitalized(words[1..])
  }

  /** The class name derived from a scene name: its words, each capitalised, run together. */
  function PascalCase(s: string): string {
    JoinCapitalized(SplitWords(s))
  }

  /**
   * The same derivation character by character: separators are dropped and a character is
   * upper-cased when it starts the name or follows a separator.
   */
  function DropSepsCapitalizing(s: string, atWordStart: bool): (r: string)
    ensures forall i :: 0 <= i < |r| ==> !IsWordSep(r[i])
  {
    if s == [] then []
    else if IsWordSep(s[0]) then DropSepsCapitalizing(s[1..], true)
    else
      assert !IsWordSep(ToUpperChar(s[0]));
      [if atWordStart then ToUpperChar(s[0]) else s[0]] + DropSepsCapitalizing(s[1..], false)
  }

  lemma {:induction false} SkipSepsCapitalizing(s: string)
    ensures DropSepsCapitalizing(s, true) == DropSepsCapitalizing(SkipSeps(s), true)
  {
    if s != [] && IsWordSep(s[0]) {
      SkipSepsCapitalizing(s[1..]);
    }
  }

  lemma {:induction false} SplitWordsCapitalizing(s: string, atWordStart: bool)
    ensures var words := SplitWords(s);
      (if atWordStart then Capitalize(words[0]) else words[0]) + JoinCapitalized(words[1..])
      == DropSepsCapitalizing(s, atWordStart)
    decreases |s|
  {
    if s != [] {
      if IsWordSep(s[0]) {
        SplitWordsCapitalizing(SkipSeps(s), true);
        SkipSepsCapitalizing(s[1..]);
        assert SkipSeps(s) == SkipSeps(s[1..]);
        assert SplitWords(s)[1..] == SplitWords(SkipSeps(s));
      } else {
        var rest := SplitWords(s[1..]);
        SplitWordsCapitalizing(s[1..], false);
        assert SplitWords(s)[1..] == rest[1..];
      }
    }
  }

  /**
   * The split-capitalise-join class name is the name with its `_` and white space removed and
   * the first character of every word upper-cased; it holds no separator.
   */
  lemma PascalCaseMeaning(s: string)
    ensures PascalCase(s) == DropSepsCapitalizing(s, true)
    ensures forall i :: 0 <= i < |PascalCase(s)| ==> !IsWordSep(PascalCase(s)[i])
  {
    SplitWordsCapitalizing(s, true);
    var words := SplitWords(s);
    assert PascalCase(s) == Capitalize(words[0]) + JoinCapitalized(words[1..]);
  }

  // ---------------------------------------------------------------------------------------
  // Adding a scene
  // ---------------------------------------------------------------------------------------

  /** The starter content of a new scene file. */
  function SceneTemplate(className: string): string {
    "from manim import *\n\nclass " + className
      + "(Scene):\n    def construct(self):\n        circle = Circle()\n        self.play(Create(circle))"
  }

  /** `name.endsWith(".py") ? name.slice(0, -3) : name` */
  function StripPy(name: string): (r: string)
    ensures EndsWith(name, ".py") ==> r + ".py" == name
    ensures !EndsWith(name, ".py") ==> r == name
  {
    if EndsWith(name, ".py") then name[..|name| - 3] else name
  }

  /** `fileSystem.find(item => isFolder(item) && item.name === "scenes")`: the first top-level `scenes` folder. */
  function FindScenesFolder(items: seq<Item>): (r: Option<Item>)
    ensures r.Some? ==> r.value in items && r.value.Folder? && r.value.name == "scenes"
    ensures r.None? ==> forall i :: 0 <= i < |items| ==> !(items[i].Folder? && items[i].name == "scenes")
  {
    if items == [] then None
    else if items[0].Folder? && items[0].name == "scenes" then Some(items[0])
    else FindScenesFolder(items[1..])
  }

  /** The top-level folders with the id get `file` as their last child. */
  function AppendToFolder(items: seq<Item>, folderId: string, file: Item): (r: seq<Item>)
    ensures |r| == |items|
    ensures forall i :: 0 <= i < |items| ==>
      r[i] == if items[i].Folder? && items[i].id == folderId then items[i].(children := items[i].children + [file]) else items[i]
  {
    if items == [] then []
    else
      var item := items[0];
      [if item.Folder? && item.id == folderId then item.(children := item.children + [file]) else item]
        + AppendToFolder(items[1..], folderId, file)
  }

  /** The tree after `handleAddScene` and the file it selects. */
  datatype Added = Added(tree: seq<Item>, file: Item)

  /** The new scene file: `<name>.py` with a scene class named after it; `now` is `Date.now()`. */
  function NewSceneFile(newSceneName: string, now: string): Item {
    var sceneName := StripPy(newSceneName);
    File("file-" + now, sceneName + ".py", SceneTemplate(PascalCase(sceneName)))
  }

  /**
   * Where `handleAddScene` as written puts the file: the tree it started from is mapped,
   * appending the file to the top-level folders whose id is that of the first top-level
   * `scenes` folder or, without one, that of the new folder `folder-<now>`. The update that
   * queued the new folder is overwritten by this one, so the new folder never reaches the tree.
   */
  function PlaceAsWritten(tree: seq<Item>, file: Item, now: string): (r: seq<Item>)
    ensures |r| == |tree|
  {
    match FindScenesFolder(tree)
    case Some(folder) => AppendToFolder(tree, folder.id, file)
    case None => AppendToFolder(tree, "folder-" + now, file)
  }

  /** `handleAddScene` as written. */
  function AddSceneAsWritten(tree: seq<Item>, newSceneName: string, now: string): (r: Option<Added>)
    ensures r.Some? ==> r.value.file == NewSceneFile(newSceneName, now) && |r.value.tree| == |tree|
  {
    if Trim(newSceneName) == [] then None
    else
      var file := NewSceneFile(newSceneName, now);
      Some(Added(PlaceAsWritten(tree, file, now), file))
  }

  /**
   * A new scene added to a tree without a top-level `scenes` folder (the empty tree, say), and
   * without a top-level folder that happens to carry the new folder's id, is selected but lost
   * from the tree, which stays as it was.
   */
  lemma AddSceneAsWrittenLosesFile(tree: seq<Item>, newSceneName: string, now: string)
    requires !AllSpace(newSceneName)
    requires FindScenesFolder(tree).None? && !Occurs(NewSceneFile(newSceneName, now), tree)
    requires forall i :: 0 <= i < |tree| ==> !(tree[i].Folder? && tree[i].id == "folder-" + now)
    ensures var r := AddSceneAsWritten(tree, newSceneName, now);
      r.Some? && r.value.tree == tree && !Occurs(r.value.file, r.value.tree)
  {
    TrimEmptyIffAllSpace(newSceneName);
    var file := NewSceneFile(newSceneName, now);
    var t := AppendToFolder(tree, "folder-" + now, file);
    assert forall i :: 0 <= i < |tree| ==> t[i] == tree[i];
    assert t == tree;
    assert PlaceAsWritten(tree, file, now) == t;
  }

  /** Where the file goes: into the first top-level `scenes` folder, or a new one appended at the top level. */
  function PlaceInScenesFolder(tree: seq<Item>, file: Item, now: string): (r: seq<Item>)
    ensures |tree| <= |r| <= |tree| + 1
  {
    match FindScenesFolder(tree)
    case Some(folder) => AppendToFolder(tree, folder.id, file)
    case None => tree + [Folder("folder-" + now, "scenes", true, [file])]
  }

  /**
   * `handleAddScene`: a blank name does nothing; otherwise the file joins the first top-level
   * `scenes` folder, or a new `scenes` folder appended at the top level.
   */
  function AddScene(tree: seq<Item>, newSceneName: string, now: string): (r: Option<Added>)
    ensures r.Some? ==> r.value.file == NewSceneFile(newSceneName, now) && |tree| <= |r.value.tree| <= |tree| + 1
  {
    if Trim(newSceneName) == [] then None
    else
      var file := NewSceneFile(newSceneName, now);
      Some(Added(PlaceInScenesFolder(tree, file, now), file))
  }

  /** Adding a scene does nothing exactly when the name is blank. */
  lemma AddSceneBlank(tree: seq<Item>, newSceneName: string, now: string)
    ensures AllSpace(newSceneName) <==> AddScene(tree, newSceneName, now).None?
  {
    TrimEmptyIffAllSpace(newSceneName);
  }

  /** The new file is a `.py` file named after the scene: one `.py` stripped, then appended. */
  lemma NewSceneFileName(newSceneName: string, now: string)
    ensures var file := NewSceneFile(newSceneName, now);
      var sceneName := if EndsWith(newSceneName, ".py") then newSceneName[..|newSceneName| - 3] else newSceneName;
      && file.File? && file.id == "file-" + now
      && file.name == sceneName + ".py" && EndsWith(file.name, ".py")
      && (EndsWith(newSceneName, ".py") ==> file.name == newSceneName)
  {
    var file := NewSceneFile(newSceneName, now);
    var n := StripPy(newSceneName) + ".py";
    assert file.name == n;
    assert n[|n| - 3..] == ".py";
  }

  /** The scene class of the new file is the scene name with separators dropped and its words capitalised. */
  lemma NewSceneFileClass(newSceneName: string, now: string)
    ensures NewSceneFile(newSceneName, now).content == SceneTemplate(DropSepsCapitalizing(StripPy(newSceneName), true))
  {
    PascalCaseMeaning(StripPy(newSceneName));
  }

  /**
   * Where the file goes: last in a top-level `scenes` folder of the new tree; every existing
   * top-level item keeps its place, id and name.
   */
  lemma ScenesFolderPlacement(tree: seq<Item>, file: Item, now: string)
    ensures var t := PlaceInScenesFolder(tree, file, now);
      && |t| >= |tree|
      && (forall i :: 0 <= i < |tree| ==> t[i].id == tree[i].id && t[i].name == tree[i].name)
      && exists k ::
        && 0 <= k < |t| && t[k].Folder? && t[k].name == "scenes"
        && |t[k].children| > 0 && t[k].children[|t[k].children| - 1] == file
  {
    var t := PlaceInScenesFolder(tree, file, now);
    match FindScenesFolder(tree)
    case Some(folder) =>
      var k :| 0 <= k < |tree| && tree[k] == folder;
      assert t[k] == folder.(children := folder.children + [file]);
    case None =>
      var k := |tree|;
      assert t[k] == Folder("folder-" + now, "scenes", true, [file]);
  }

  /** The placed file is in the new tree, whatever the tree held before. */
  lemma PlacedFileOccurs(tree: seq<Item>, file: Item, now: string)
    ensures Occurs(file, PlaceInScenesFolder(tree, file, now))
  {
    ScenesFolderPlacement(tree, file, now);
    var t := PlaceInScenesFolder(tree, file, now);
    var k :| 0 <= k < |t| && t[k].Folder? && t[k].name == "scenes"
      && |t[k].children| > 0 && t[k].children[|t[k].children| - 1] == file;
    assert Occurs(file, t[k].children);
  }

  /** Unlike the code as written, the new scene file is always in the new tree. */
  lemma AddSceneKeepsFile(tree: seq<Item>, newSceneName: string, now: string)
    requires !AllSpace(newSceneName)
    ensures var r := AddScene(tree, newSceneName, now);
      r.Some? && Occurs(r.value.file, r.value.tree)
  {
    TrimEmptyIffAllSpace(newSceneName);
    PlacedFileOccurs(tree, NewSceneFile(newSceneName, now), now);
  }
}
