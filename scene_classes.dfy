/**
 * The scene-class extractor of the compilation pipeline: a lexical scan of Python source for
 * `class NAME(Base)` declarations whose base is one of four known scene kinds.
 *
 * Each kind is scanned with its own global pattern
 *   class \s+ ([a-zA-Z0-9_]+) \s* \( \s* Base \s* \)
 * and the names are collected into an insertion-ordered set: all matches of the first pattern,
 * then the second, and so on, a repeated name keeping its first place.
 */
module SceneClasses {
  import opened Wrappers
  import opened Text

  /** The base scene kinds, in the order their patterns are scanned. */
  const BaseKinds: seq<string> := ["Scene", "MovingCameraScene", "ThreeDScene", "ZoomedScene"]

  /** `[a-zA-Z0-9_]` */
  predicate IsIdentChar(c: char) {
    ('a' <= c <= 'z') || ('A' <= c <= 'Z') || ('0' <= c <= '9') || c == '_'
  }

  /** The end of the longest run of white space starting at `i`. */
  function SpaceRunEnd(s: string, i: nat): (j: nat)
    requires i <= |s|
    ensures i <= j <= |s|
    ensures forall k :: i <= k < j ==> IsSpace(s[k])
    ensures j == |s| || !IsSpace(s[j])
    decreases |s| - i
  {
    if i < |s| && IsSpace(s[i]) then SpaceRunEnd(s, i + 1) else i
  }

  /** The end of the longest run of identifier characters starting at `i`. */
  function IdentRunEnd(s: string, i: nat): (j: nat)
    requires i <= |s|
    ensures i <= j <= |s|
    ensures forall k :: i <= k < j ==> IsIdentChar(s[k])
    ensures j == |s| || !IsIdentChar(s[j])
    decreases |s| - i
  {
    if i < |s| && IsIdentChar(s[i]) then IdentRunEnd(s, i + 1) else i
  }

  /** One match of a scene pattern: where it starts, the captured class name, and where it ends. */
  datatype Found = Found(at: nat, name: string, end: nat)

  /** A non-empty run of `[a-zA-Z0-9_]`. */
  predicate IsIdentifier(name: string) {
    name != [] && forall k :: 0 <= k < |name| ==> IsIdentChar(name[k])
  }

  /** The pieces of a scene pattern: literal text, `\s+` or `\s*`, and the captured `[a-zA-Z0-9_]+`. */
  datatype Piece = Literal(text: string) | Spaces(atLeastOne: bool) | Capture

  /** `class\s+([a-zA-Z0-9_]+)\s*\(\s*Base\s*\)` */
  function ScenePattern(base: string): (pat: seq<Piece>)
    ensures |pat| == 9 && pat[0] == Literal("class") && Capture in pat
  {
    [ Literal("class"), Spaces(true), Capture, Spaces(false), Literal("("),
      Spaces(false), Literal(base), Spaces(false), Literal(")") ]
  }

  /** The end of a match of the pieces from `i` and the capture so far (`name` before any), if any. */
  datatype Partial = Partial(name: string, end: nat)

  /**
   * Matches the pieces in order from `i`, taking the longest run at each white-space or capture
   * piece. Runs of white space, runs of identifier characters, `(`, `)` and the first letter of
   * a base name are pairwise disjoint character classes, so a backtracking matcher can only
   * succeed with the longest run at each step: for the scene patterns the greedy walk accepts
   * exactly the strings the regular expression does.
   */
  function MatchPieces(s: string, pieces: seq<Piece>, i: nat, name: string): (r: Option<Partial>)
    requires i <= |s|
    ensures r.Some? ==> i <= r.value.end <= |s|
    ensures r.Some? && Capture in pieces ==> IsIdentifier(r.value.name)
    ensures r.Some? && Capture !in pieces ==> r.value.name == name
    ensures r.Some? && pieces != [] && pieces[0].Literal? ==> i + |pieces[0].text| <= r.value.end
    decreases |pieces|
  {
    if pieces == [] then Some(Partial(name, i))
    else
      assert forall q :: q in pieces[1..] ==> q in pieces;
      match pieces[0]
      case Literal(t) =>
        if OccursAt(s, t, i) then MatchPieces(s, pieces[1..], i + |t|, name) else None
      case Spaces(atLeastOne) =>
        var j := SpaceRunEnd(s, i);
        if atLeastOne && j == i then None else MatchPieces(s, pieces[1..], j, name)
      case Capture =>
        var j := IdentRunEnd(s, i);
        if j == i then None else MatchPieces(s, pieces[1..], j, s[i..j])
  }

  /** The match of the pattern for `base` that starts exactly at `p`, if any. */
  function MatchAt(s: string, base: string, p: nat): (m: Option<Found>)
    requires p <= |s|
    ensures m.Some? ==> m.value.at == p && p < m.value.end <= |s|
    ensures m.Some? ==> IsIdentifier(m.value.name)
  {
    match MatchPieces(s, ScenePattern(base), p, "")
    case None => None
    case Some(r) => Some(Found(p, r.name, r.end))
  }

  /** `pattern.exec(s)` with `lastIndex == from`: the leftmost match starting at or after `from`. */
  function NextMatch(s: string, base: string, from: nat): (m: Option<Found>)
    requires from <= |s|
    ensures m.Some? ==> from <= m.value.at < m.value.end <= |s|
    decreases |s| - from
  {
    var here := MatchAt(s, base, from);
    if here.Some? then here
    else if from == |s| then None
    else NextMatch(s, base, from + 1)
  }

  /** The match `exec` returns is a match of the pattern at the place it reports. */
  lemma {:induction false} NextMatchIsMatch(s: string, base: string, from: nat)
    requires from <= |s|
    ensures var m := NextMatch(s, base, from);
      m.Some? ==> MatchAt(s, base, m.value.at) == m
    decreases |s| - from
  {
    if MatchAt(s, base, from).None? && from < |s| {
      NextMatchIsMatch(s, base, from + 1);
    }
  }

  /** `exec` finds the leftmost match: no match starts between `from` and the one it returns. */
  lemma {:induction false} NextMatchLeftmost(s: string, base: string, from: nat)
    requires from <= |s|
    ensures var m := NextMatch(s, base, from);
      forall p :: from <= p <= |s| && (m.None? || p < m.value.at) ==> MatchAt(s, base, p).None?
    decreases |s| - from
  {
    if MatchAt(s, base, from).None? && from < |s| {
      NextMatchLeftmost(s, base, from + 1);
    }
  }

  /** The captures of repeated `exec` calls from `from` on, each resuming where the last match ended. */
  function Scan(s: string, base: string, from: nat): seq<string>
    requires from <= |s|
    decreases |s| - from
  {
    match NextMatch(s, base, from)
    case None => []
    case Some(m) => [m.name] + Scan(s, base, m.end)
  }

  /** All captures of the global pattern for `base`, in order. */
  function Matches(s: string, base: string): seq<string> {
    Scan(s, base, 0)
  }

  /** The concatenation of `f(x)` for every `x` of `xs`, in order. */
  function ConcatMap<X, Y>(f: X -> seq<Y>, xs: seq<X>): seq<Y> {
    if xs == [] then [] else ConcatMap(f, xs[..|xs| - 1]) + f(xs[|xs| - 1])
  }

  /** The captures of the patterns for `kinds`, pattern after pattern. */
  function AllMatches(s: string, kinds: seq<string>): seq<string> {
    ConcatMap(base => Matches(s, base), kinds)
  }

  predicate NoDuplicates<T(==)>(xs: seq<T>) {
    forall i, j :: 0 <= i < j < |xs| ==> xs[i] != xs[j]
  }

  /** `Array.from(new Set(xs))`: the elements of `xs`, each once, at the place it first appeared. */
  function Dedup(xs: seq<string>): (r: seq<string>)
    ensures forall x :: x in r <==> x in xs
    ensures NoDuplicates(r)
  {
    if xs == [] then []
    else
      var d := Dedup(xs[..|xs| - 1]);
      var x := xs[|xs| - 1];
      if x in d then d else d + [x]
  }

  /** `extractSceneClasses(code)`, as a value. */
  function SceneClassesOf(code: string): (r: seq<string>)
    ensures NoDuplicates(r)
    ensures forall x :: x in r <==> x in AllMatches(code, BaseKinds)
  {
    Dedup(AllMatches(code, BaseKinds))
  }

  lemma DedupSnoc(xs: seq<string>, x: string)
    ensures Dedup(xs + [x]) == if x in Dedup(xs) then Dedup(xs) else Dedup(xs) + [x]
  {
    assert (xs + [x])[..|xs|] == xs;
  }

  /**
   * `extractSceneClasses`: every pattern in turn, `exec` repeated from where the last match ended,
   * and each name added to an insertion-ordered set.
   */
  method ExtractSceneClasses(code: string) returns (classes: seq<string>)
    ensures classes == SceneClassesOf(code)
  {
    var seen: set<string> := {};
    classes := [];
    for k := 0 to |BaseKinds|
      invariant classes == Dedup(AllMatches(code, BaseKinds[..k]))
      invariant forall x :: x in seen <==> x in classes
    {
      ghost var before := BaseKinds[..k];
      ghost var after := BaseKinds[..k + 1];
      classes, seen := AddPatternMatches(code, BaseKinds[k], classes, seen, AllMatches(code, before));
      assert after[..k] == before && after[k] == BaseKinds[k];
      assert AllMatches(code, after) == AllMatches(code, before) + Matches(code, BaseKinds[k]);
    }
    assert BaseKinds[..|BaseKinds|] == BaseKinds;
  }

  /** The inner loop of `extractSceneClasses`: the global `exec` loop of one pattern. */
  method AddPatternMatches(code: string, base: string, classes0: seq<string>, seen0: set<string>, ghost prior: seq<string>)
    returns (classes: seq<string>, seen: set<string>)
    requires classes0 == Dedup(prior)
    requires forall x :: x in seen0 <==> x in classes0
    ensures classes == Dedup(prior + Matches(code, base))
    ensures forall x :: x in seen <==> x in classes
  {
    classes, seen := classes0, seen0;
    var lastIndex := 0;
    ghost var all := Matches(code, base);
    ghost var found: seq<string> := [];
    var m := NextMatch(code, base, lastIndex);
    assert prior + found == prior;
    while m.Some?
      invariant lastIndex <= |code|
      invariant m == NextMatch(code, base, lastIndex)
      invariant all == found + Scan(code, base, lastIndex)
      invariant classes == Dedup(prior + found)
      invariant forall x :: x in seen <==> x in classes
      decreases |code| - lastIndex
    {
      var name := m.value.name;
      ExecStep(code, base, lastIndex, all, found);
      DedupStep(prior, found, name);
      if name !in seen {
        classes := classes + [name];
        seen := seen + {name};
      }
      found := found + [name];
      lastIndex := m.value.end;
      m := NextMatch(code, base, lastIndex);
    }
    assert Scan(code, base, lastIndex) == [];
    assert found == all;
  }

  /** One `exec` call: the scan from `from` is the match found there followed by the scan from its end. */
  lemma ExecStep(code: string, base: string, from: nat, all: seq<string>, found: seq<string>)
    requires from <= |code| && NextMatch(code, base, from).Some?
    requires all == found + Scan(code, base, from)
    ensures from < NextMatch(code, base, from).value.end <= |code|
    ensures all ==
      (found + [NextMatch(code, base, from).value.name]) + Scan(code, base, NextMatch(code, base, from).value.end)
  {
    var m := NextMatch(code, base, from).value;
    assert Scan(code, base, from) == [m.name] + Scan(code, base, m.end);
  }

  /** Adding one more capture to the insertion-ordered set. */
  lemma DedupStep(prior: seq<string>, found: seq<string>, name: string)
    ensures Dedup(prior + (found + [name])) ==
      if name in Dedup(prior + found) then Dedup(prior + found) else Dedup(prior + found) + [name]
  {
    DedupSnoc(prior + found, name);
    assert prior + (found + [name]) == prior + found + [name];
  }

  /** `name` is captured by a match of the pattern for `base` somewhere in `s`. */
  ghost predicate Declares(s: string, base: string, name: string) {
    exists p :: 0 <= p <= |s| && MatchAt(s, base, p).Some? && MatchAt(s, base, p).value.name == name
  }

  /** Every capture of a scan is a non-empty identifier declared by a match of the pattern. */
  lemma {:induction false} ScanSound(s: string, base: string, from: nat)
    requires from <= |s|
    ensures forall name :: name in Scan(s, base, from) ==>
      IsIdentifier(name) && Declares(s, base, name)
    decreases |s| - from
  {
    match NextMatch(s, base, from)
    case None =>
    case Some(m) =>
      ScanSound(s, base, m.end);
      NextMatchIsMatch(s, base, from);
      assert MatchAt(s, base, m.at).value.name == m.name;
  }

  /** An element of a concatenation comes from one of its parts, and every part's elements are in it. */
  lemma {:induction false} ConcatMapMembership<X, Y>(f: X -> seq<Y>, xs: seq<X>, y: Y)
    ensures y in ConcatMap(f, xs) <==> exists i :: 0 <= i < |xs| && y in f(xs[i])
  {
    if xs != [] {
      var init := xs[..|xs| - 1];
      ConcatMapMembership(f, init, y);
      if y in ConcatMap(f, init) {
        var i :| 0 <= i < |init| && y in f(init[i]);
        assert init[i] == xs[i];
      }
      if i :| 0 <= i < |xs| && y in f(xs[i]) {
        if i < |init| {
          assert init[i] == xs[i];
        }
      }
    }
  }

  /**
   * What the extractor returns: no name twice, and a name is returned exactly when it is a
   * non-empty identifier that some pattern captures as `class NAME(Base)`.
   */
  lemma ExtractedNames(code: string)
    ensures NoDuplicates(SceneClassesOf(code))
    ensures forall name :: name in SceneClassesOf(code) <==>
      exists i :: 0 <= i < |BaseKinds| && name in Matches(code, BaseKinds[i])
    ensures forall name :: name in SceneClassesOf(code) ==>
      IsIdentifier(name) &&
      exists i :: 0 <= i < |BaseKinds| && Declares(code, BaseKinds[i], name)
  {
    forall name
      ensures name in SceneClassesOf(code) <==>
        exists i :: 0 <= i < |BaseKinds| && name in Matches(code, BaseKinds[i])
    {
      ConcatMapMembership(base => Matches(code, base), BaseKinds, name);
    }
    forall i | 0 <= i < |BaseKinds| {
      ScanSound(code, BaseKinds[i], 0);
    }
  }

  /** The index of the first occurrence of `x` in `xs`. */
  function FirstIndex<T(==)>(xs: seq<T>, x: T): (i: nat)
    requires x in xs
    ensures i < |xs| && xs[i] == x && x !in xs[..i]
  {
    if xs[0] == x then 0
    else
      var i := 1 + FirstIndex(xs[1..], x);
      assert xs[..i] == [xs[0]] + xs[1..][..i - 1];
      i
  }

  lemma FirstIndexSnoc<T>(xs: seq<T>, x: T, y: T)
    requires y in xs
    ensures FirstIndex(xs + [x], y) == FirstIndex(xs, y)
  {
    var i := FirstIndex(xs, y);
    var j := FirstIndex(xs + [x], y);
    assert (xs + [x])[..i] == xs[..i];
    assert (xs + [x])[i] == y;
  }

  /** The order of the deduplicated names is the order of their first occurrences. */
  lemma {:induction false} DedupOrder(xs: seq<string>)
    ensures forall i, j :: 0 <= i < j < |Dedup(xs)| ==> FirstIndex(xs, Dedup(xs)[i]) < FirstIndex(xs, Dedup(xs)[j])
  {
    if xs != [] {
      var ys := xs[..|xs| - 1];
      var x := xs[|xs| - 1];
      assert xs == ys + [x];
      DedupOrder(ys);
      DedupSnoc(ys, x);
      var d := Dedup(ys);
      forall y | y in d
        ensures FirstIndex(xs, y) == FirstIndex(ys, y)
      {
        FirstIndexSnoc(ys, x, y);
      }
      if x !in d {
        assert x !in ys;
        assert FirstIndex(xs, x) == |ys|;
        forall i | 0 <= i < |d|
          ensures FirstIndex(xs, d[i]) < |ys|
        {
          assert d[i] in d;
        }
      }
    }
  }

  /**
   * Pattern-major order: names are returned in the order of their first capture when the scans
   * of the four patterns are laid end to end, so every capture of an earlier pattern precedes
   * any name first captured by a later one, and a repeat keeps its first place.
   */
  lemma ExtractionOrder(code: string)
    ensures forall i, j :: 0 <= i < j < |SceneClassesOf(code)| ==>
      FirstIndex(AllMatches(code, BaseKinds), SceneClassesOf(code)[i]) <
      FirstIndex(AllMatches(code, BaseKinds), SceneClassesOf(code)[j])
  {
    DedupOrder(AllMatches(code, BaseKinds));
  }
}
