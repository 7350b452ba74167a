/**
 * The output locator of the compilation pipeline: where did the renderer put the video of a scene?
 * Five conventional places are tried in a fixed order, then a depth-first walk of the output
 * directory looks for any `.mp4` file whose name contains the class name.
 *
 * The directory is given as its listing: the entries `fs.readdirSync` yields, in directory order,
 * with `Unreadable` standing for a directory whose listing throws. `fs.existsSync` is answered
 * from the same listing.
 */
module Locator {
  import opened Wrappers
  import opened Text

  datatype Listing = Unreadable | Entries(items: seq<Entry>)
  datatype Entry = FileEntry(name: string) | DirEntry(name: string, contents: Listing)

  /** `path.join(dir, name)` for a name without separators. */
  function Join(dir: string, name: string): string {
    dir + "/" + name
  }

  /** The path of `rel` below `dir`, one component after the other. */
  function PathOf(dir: string, rel: seq<string>): string
    decreases |rel|
  {
    if rel == [] then dir else PathOf(Join(dir, rel[0]), rel[1..])
  }

  /** The first entry called `name`, if any. */
  function Lookup(items: seq<Entry>, name: string): (r: Option<Entry>)
    ensures r.Some? ==> r.value in items && r.value.name == name
    ensures r.None? ==> forall e :: e in items ==> e.name != name
  {
    if items == [] then None
    else if items[0].name == name then Some(items[0])
    else Lookup(items[1..], name)
  }

  /** `fs.existsSync` of the path `rel` below a directory with listing `l`. */
  function ExistsAt(l: Listing, rel: seq<string>): bool
    requires rel != []
    decreases |rel|
  {
    match l
    case Unreadable => false
    case Entries(items) =>
      match Lookup(items, rel[0])
      case None => false
      case Some(e) => |rel| == 1 || (e.DirEntry? && ExistsAt(e.contents, rel[1..]))
  }

  /**
   * The conventional output places relative to the output directory, in the order they are
   * checked: `C.mp4`, `<id>_C.mp4`, `<id>/C.mp4`, `videos/C.mp4`, `videos/<id>/C.mp4`.
   */
  function Candidates(className: string, id: string): (c: seq<seq<string>>)
    ensures |c| == 5 && forall k :: 0 <= k < 5 ==> c[k] != []
  {
    var video := className + ".mp4";
    [[video], [id + "_" + video], [id, video], ["videos", video], ["videos", id, video]]
  }

  /** The first of the candidate places `cs[from..]` that exists. */
  function FirstExisting(dir: string, l: Listing, cs: seq<seq<string>>, from: nat): (r: Option<string>)
    requires from <= |cs| && forall k :: 0 <= k < |cs| ==> cs[k] != []
    decreases |cs| - from
  {
    if from == |cs| then None
    else if ExistsAt(l, cs[from]) then Some(PathOf(dir, cs[from]))
    else FirstExisting(dir, l, cs, from + 1)
  }

  /** Appends the files of a sub-walk to those found so far; a thrown listing error wins. */
  function Then(found: Option<seq<string>>, rest: Option<seq<string>>): Option<seq<string>> {
    if found.Some? && rest.Some? then Some(found.value + rest.value) else None
  }

  /** A file entry that the walk collects: an `.mp4` whose name contains the class name. */
  predicate Wanted(name: string, className: string) {
    EndsWith(name, ".mp4") && Contains(name, className)
  }

  /**
   * `findAllMp4Files(dir)` restricted to the entries `l.items[i..]`: directories are walked
   * where they stand, wanted files are collected, and a listing that throws makes the whole
   * walk throw (`None`).
   */
  function WalkFrom(dir: string, l: Listing, i: nat, className: string): Option<seq<string>>
    requires l.Entries? ==> i <= |l.items|
    decreases l, if l.Entries? then |l.items| - i else 0
  {
    match l
    case Unreadable => None
    case Entries(items) =>
      if i == |items| then Some([])
      else
        var e := items[i];
        var here :=
          if e.DirEntry? then WalkFrom(Join(dir, e.name), e.contents, 0, className)
          else if Wanted(e.name, className) then Some([Join(dir, e.name)])
          else Some([]);
        Then(here, WalkFrom(dir, l, i + 1, className))
  }

  /** `findAllMp4Files(dir)`, with `None` for a walk that throws. */
  function Mp4Walk(dir: string, l: Listing, className: string): (r: Option<seq<string>>)
    ensures r.Some? ==> forall f :: f in r.value ==> EndsWith(f, ".mp4") && Contains(f, className)
  {
    WalkFindsWanted(dir, l, 0, className);
    WalkFrom(dir, l, 0, className)
  }

  /** `findGeneratedVideo(outputDir, className, compilationId)`, as a value. */
  function LocatedVideo(outputDir: string, l: Listing, className: string, id: string): (r: Option<string>)
    ensures r.None? ==> forall k :: 0 <= k < 5 ==> !ExistsAt(l, Candidates(className, id)[k])
  {
    var fixed := FirstExisting(outputDir, l, Candidates(className, id), 0);
    if fixed.Some? then fixed
    else
      FirstExistingComplete(outputDir, l, Candidates(className, id), 0);
      var walk := Mp4Walk(outputDir, l, className);
      if walk.Some? && |walk.value| > 0 then Some(walk.value[0]) else None
  }

  /** The recursive walk of `findGeneratedVideo`'s fallback, pushing matches into `files`. */
  method FindAllMp4Files(dir: string, l: Listing, className: string) returns (r: Option<seq<string>>)
    ensures r == Mp4Walk(dir, l, className)
    decreases l
  {
    if l.Unreadable? {
      return None;
    }
    var items := l.items;
    var files: seq<string> := [];
    var i := 0;
    if WalkFrom(dir, l, 0, className).Some? {
      assert [] + WalkFrom(dir, l, 0, className).value == WalkFrom(dir, l, 0, className).value;
    }
    while i < |items|
      invariant i <= |items|
      invariant Mp4Walk(dir, l, className) == Then(Some(files), WalkFrom(dir, l, i, className))
    {
      var item := items[i];
      var fullPath := Join(dir, item.name);
      ghost var rest := WalkFrom(dir, l, i + 1, className);
      WalkFromNext(dir, l, i, className);
      if item.DirEntry? {
        var sub := FindAllMp4Files(fullPath, item.contents, className);
        ThenSome(files, sub, rest);
        if sub.None? {
          return None;
        }
        assert Then(Some(files), sub) == Some(files + sub.value);
        files := files + sub.value;
      } else if EndsWith(item.name, ".mp4") && Contains(item.name, className) {
        ThenSome(files, Some([fullPath]), rest);
        files := files + [fullPath];
      } else {
        ThenSome(files, Some([]), rest);
        assert files + [] == files;
      }
      i := i + 1;
    }
    assert files + [] == files;
    return Some(files);
  }

  /** `findGeneratedVideo`: the five fixed places in order, then the first file the walk finds. */
  method FindGeneratedVideo(outputDir: string, l: Listing, className: string, id: string)
    returns (r: Option<string>)
    ensures r == LocatedVideo(outputDir, l, className, id)
  {
    var possiblePaths := Candidates(className, id);
    for k := 0 to |possiblePaths|
      invariant FirstExisting(outputDir, l, possiblePaths, 0) == FirstExisting(outputDir, l, possiblePaths, k)
    {
      if ExistsAt(l, possiblePaths[k]) {
        return Some(PathOf(outputDir, possiblePaths[k]));
      }
    }
    var mp4Files := FindAllMp4Files(outputDir, l, className);
    if mp4Files.Some? && |mp4Files.value| > 0 {
      return Some(mp4Files.value[0]);
    }
    return None;
  }

  /** The fixed places are tried in order: the first one that exists is the answer. */
  lemma {:induction false} FirstExistingIsFirst(dir: string, l: Listing, cs: seq<seq<string>>, from: nat, k: nat)
    requires from <= k < |cs| && forall j :: 0 <= j < |cs| ==> cs[j] != []
    requires ExistsAt(l, cs[k]) && forall j :: from <= j < k ==> !ExistsAt(l, cs[j])
    ensures FirstExisting(dir, l, cs, from) == Some(PathOf(dir, cs[k]))
    decreases k - from
  {
    if from < k {
      FirstExistingIsFirst(dir, l, cs, from + 1, k);
    }
  }

  lemma {:induction false} FirstExistingNone(dir: string, l: Listing, cs: seq<seq<string>>, from: nat)
    requires from <= |cs| && forall j :: 0 <= j < |cs| ==> cs[j] != []
    requires forall j :: from <= j < |cs| ==> !ExistsAt(l, cs[j])
    ensures FirstExisting(dir, l, cs, from) == None
    decreases |cs| - from
  {
    if from < |cs| {
      FirstExistingNone(dir, l, cs, from + 1);
    }
  }

  /**
   * The locator answers with the first of the five places that exists; when none exists, with
   * the first file of the walk; and with nothing when the walk finds nothing or throws.
   */
  lemma LocatorOrder(outputDir: string, l: Listing, className: string, id: string)
    ensures forall k :: (0 <= k < 5 && ExistsAt(l, Candidates(className, id)[k]) &&
        (forall j :: 0 <= j < k ==> !ExistsAt(l, Candidates(className, id)[j]))) ==>
      LocatedVideo(outputDir, l, className, id) == Some(PathOf(outputDir, Candidates(className, id)[k]))
    ensures (forall k :: 0 <= k < 5 ==> !ExistsAt(l, Candidates(className, id)[k])) ==>
      LocatedVideo(outputDir, l, className, id) ==
        (var walk := Mp4Walk(outputDir, l, className);
         if walk.Some? && |walk.value| > 0 then Some(walk.value[0]) else None)
  {
    var cs := Candidates(className, id);
    forall k | 0 <= k < 5 && ExistsAt(l, cs[k]) && (forall j :: 0 <= j < k ==> !ExistsAt(l, cs[j]))
      ensures LocatedVideo(outputDir, l, className, id) == Some(PathOf(outputDir, cs[k]))
    {
      FirstExistingIsFirst(outputDir, l, cs, 0, k);
    }
    if forall k :: 0 <= k < 5 ==> !ExistsAt(l, cs[k]) {
      FirstExistingNone(outputDir, l, cs, 0);
    }
  }

  /**
   * Every file the walk returns is a file entry joined to the directory it was listed in, whose
   * own name is an `.mp4` containing the class name; so its path ends in `.mp4` and contains
   * the class name too.
   */
  lemma {:induction false} WalkFindsWanted(dir: string, l: Listing, i: nat, className: string)
    requires l.Entries? ==> i <= |l.items|
    ensures var w := WalkFrom(dir, l, i, className);
      w.Some? ==> forall f :: f in w.value ==>
        && (exists d, n :: f == Join(d, n) && Wanted(n, className))
        && EndsWith(f, ".mp4") && Contains(f, className)
    decreases l, if l.Entries? then |l.items| - i else 0
  {
    if l.Entries? && i < |l.items| {
      var e := l.items[i];
      WalkFromNext(dir, l, i, className);
      if e.DirEntry? {
        WalkFindsWanted(Join(dir, e.name), e.contents, 0, className);
      } else if Wanted(e.name, className) {
        var f := Join(dir, e.name);
        assert f[|f| - |e.name|..] == e.name;
        assert f[|f| - 4..] == e.name[|e.name| - 4..];
        ContainsTail(dir + "/", e.name, className);
        assert f == Join(dir, e.name) && Wanted(e.name, className);
      }
      WalkFindsWanted(dir, l, i + 1, className);
    }
  }

  lemma WalkFromNext(dir: string, l: Listing, i: nat, className: string)
    requires l.Entries? && i < |l.items|
    ensures WalkFrom(dir, l, i, className) == Then(
      (var e := l.items[i];
       if e.DirEntry? then WalkFrom(Join(dir, e.name), e.contents, 0, className)
       else if Wanted(e.name, className) then Some([Join(dir, e.name)])
       else Some([])),
      WalkFrom(dir, l, i + 1, className))
  {
  }

  lemma ThenSome(files: seq<string>, here: Option<seq<string>>, rest: Option<seq<string>>)
    ensures Then(Some(files), Then(here, rest)) == Then(Then(Some(files), here), rest)
  {
    if here.Some? && rest.Some? {
      assert files + (here.value + rest.value) == (files + here.value) + rest.value;
    }
  }

  lemma ContainsTail(a: string, b: string, needle: string)
    requires Contains(b, needle)
    ensures Contains(a + b, needle)
  {
    var i := IndexOfFrom(b, needle, 0).value;
    assert (a + b)[|a| + i..|a| + i + |needle|] == b[i..i + |needle|];
    assert OccursAt(a + b, needle, |a| + i);
    ContainsIffOccurs(a + b, needle);
  }

  /** The locator never reports a file the walk made up: its answer is a fixed place that exists or a walked file. */
  lemma LocatedIsCandidateOrWalked(outputDir: string, l: Listing, className: string, id: string)
    ensures var r := LocatedVideo(outputDir, l, className, id);
      r.Some? ==>
        (exists k :: 0 <= k < 5 && ExistsAt(l, Candidates(className, id)[k]) && r.value == PathOf(outputDir, Candidates(className, id)[k])) ||
        (&& (forall k :: 0 <= k < 5 ==> !ExistsAt(l, Candidates(className, id)[k]))
         && Mp4Walk(outputDir, l, className).Some?
         && r.value in Mp4Walk(outputDir, l, className).value
         && (exists d, n :: r.value == Join(d, n) && Wanted(n, className))
         && EndsWith(r.value, ".mp4") && Contains(r.value, className))
  {
    var cs := Candidates(className, id);
    var r := LocatedVideo(outputDir, l, className, id);
    FirstExistingSound(outputDir, l, cs, 0);
    WalkFindsWanted(outputDir, l, 0, className);
    if r.Some? && FirstExisting(outputDir, l, cs, 0).None? {
      assert r.value in Mp4Walk(outputDir, l, className).value;
      FirstExistingComplete(outputDir, l, cs, 0);
    }
  }

  /** No candidate place from `from` on exists when the search finds none. */
  lemma {:induction false} FirstExistingComplete(dir: string, l: Listing, cs: seq<seq<string>>, from: nat)
    requires from <= |cs| && forall j :: 0 <= j < |cs| ==> cs[j] != []
    requires FirstExisting(dir, l, cs, from) == None
    ensures forall j :: from <= j < |cs| ==> !ExistsAt(l, cs[j])
    decreases |cs| - from
  {
    if from < |cs| {
      FirstExistingComplete(dir, l, cs, from + 1);
    }
  }

  lemma {:induction false} FirstExistingSound(dir: string, l: Listing, cs: seq<seq<string>>, from: nat)
    requires from <= |cs| && forall j :: 0 <= j < |cs| ==> cs[j] != []
    ensures var r := FirstExisting(dir, l, cs, from);
      r.Some? ==> exists k :: from <= k < |cs| && ExistsAt(l, cs[k]) && r.value == PathOf(dir, cs[k])
    decreases |cs| - from
  {
    if from < |cs| && !ExistsAt(l, cs[from]) {
      FirstExistingSound(dir, l, cs, from + 1);
    }
  }
}
