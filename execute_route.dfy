/**
 * The `POST /api/execute` endpoint: a request carries either one Python source (`code`, the
 * older single-file form) or a list of scene files (`scenes`), and is answered with a status
 * and a JSON payload after the scenes were compiled.
 *
 * The scene-class extractor and the two compile entry points are a `Backend` of functions, so
 * that what the endpoint decides is stated for any compiler; `DockerBackend` is the compilation
 * pipeline of modules `SceneClasses` and `Compiler`.
 */
module ExecuteRoute {
  import opened Wrappers
  import opened SceneClasses
  import opened Compiler

  datatype SceneFile = SceneFile(name: string, content: string)

  /** The request body: `Malformed` when `request.json()` rejects it. */
  datatype Request =
    | Malformed
    | Body(code: Option<string>, scenes: Option<seq<SceneFile>>, combineVideos: Option<bool>)

  /** The field an error payload carries besides `error` and `details`. */
  datatype Extra = NoExtra | CodeExcerpt(code: string) | ClassName(className: string) | FileName(fileName: string) | SceneCount(count: nat)

  datatype ScenePreview = ScenePreview(scene: string, videoUrl: Option<string>)

  /** The JSON payloads; the two success payloads carry `success: true`. */
  datatype Payload =
    | ErrorBody(error: string, details: Option<string>, extra: Extra)
    | SingleScene(videoUrl: Option<string>, scenes: seq<ScenePreview>)
    | MultiScene(videoUrl: Option<string>, individualScenes: seq<SceneVideo>, combinedVideo: Option<string>, sceneCount: Option<nat>)

  datatype Response = Response(status: nat, payload: Payload)

  /** An error is answered with 400 or 500 and an error body; anything else with 200. */
  predicate StatusMatchesPayload(resp: Response) {
    && resp.status in {200, 400, 500}
    && (resp.status == 200 <==> !resp.payload.ErrorBody?)
  }

  /** `extractSceneClasses(code)`, `compileSingleScene(code, className)` and `compileMultipleScenes(scenes, combine)`. */
  datatype Backend = Backend(
    extract: string -> seq<string>,
    single: (World, string, string) -> Ran<CompileResult>,
    multi: (World, seq<SceneInfo>, bool) -> Ran<MultiSceneResult>)

  /** The compile functions of the pipeline, with `compileSingleScene` called without an id. */
  function DockerBackend(env: Env): Backend {
    Backend(
      code => SceneClassesOf(code),
      (w, code, className) => CompileSingleScene(env, w, code, className, None),
      (w, scenes, combine) => MultiSceneSpec(env, w, scenes, combine))
  }

  // ---------------------------------------------------------------------------------------
  // The responses
  // ---------------------------------------------------------------------------------------

  /** `code.substring(0, 200) + "..."` */
  function Excerpt(code: string): string {
    (if |code| <= 200 then code else code[..200]) + "..."
  }

  function NoSceneClass(code: string): Response {
    Response(400, ErrorBody("No valid Scene class found",
      Some("Code must contain a class that inherits from Scene (e.g., class MyScene(Scene):)"),
      CodeExcerpt(Excerpt(code))))
  }

  function CompilationFailed(className: string, error: Option<string>): Response {
    Response(500, ErrorBody("Compilation failed", error, ClassName(className)))
  }

  function SingleSceneDone(className: string, videoUrl: Option<string>): Response {
    Response(200, SingleScene(videoUrl, [ScenePreview(className, videoUrl)]))
  }

  function FileWithoutScene(file: SceneFile): Response {
    Response(400, ErrorBody("No valid Scene class found in " + file.name,
      Some("File " + file.name + " must contain a class that inherits from Scene"),
      FileName(file.name)))
  }

  function NoScenesFound(): Response {
    Response(400, ErrorBody("No scenes found in any files",
      Some("At least one file must contain a valid Scene class"), NoExtra))
  }

  function InvalidRequest(): Response {
    Response(400, ErrorBody("Invalid request", Some("Must provide either code or scenes array"), NoExtra))
  }

  function InternalError(): Response {
    Response(500, ErrorBody("Internal server error", Some("Unknown error occurred"), NoExtra))
  }

  /** The answer to a multi-scene compilation; `count` is the `sceneCount` of the `scenes` form. */
  function MultiResponse(r: MultiSceneResult, count: Option<nat>): Response {
    if !r.success then
      Response(500, ErrorBody("Multi-scene compilation failed", r.error,
        if count.Some? then SceneCount(count.value) else NoExtra))
    else Response(200, MultiScene(r.combinedVideoUrl, r.individualVideos, r.combinedVideoUrl, count))
  }

  // ---------------------------------------------------------------------------------------
  // The single-file form
  // ---------------------------------------------------------------------------------------

  /** `sceneClasses.map(...)`: one descriptor per class, all of them the file `main.py`. */
  function MainFileInfos(code: string, classes: seq<string>): (infos: seq<SceneInfo>)
    ensures |infos| == |classes|
    ensures forall i :: 0 <= i < |classes| ==> infos[i] == SceneInfo(classes[i], "main.py", code)
  {
    seq(|classes|, i requires 0 <= i < |classes| => SceneInfo(classes[i], "main.py", code))
  }

  /** The answer to `{code}`: no class, exactly one, or several compiled as a project. */
  function CodeResponse(b: Backend, w: World, code: string, combine: bool): (run: Ran<Response>)
    ensures StatusMatchesPayload(run.result)
    ensures run.result.status == 400 ==> run.world == w
  {
    var classes := b.extract(code);
    if |classes| == 0 then Ran(NoSceneClass(code), w)
    else if |classes| == 1 then
      var run := b.single(w, code, classes[0]);
      if !run.result.success then Ran(CompilationFailed(classes[0], run.result.error), run.world)
      else Ran(SingleSceneDone(classes[0], run.result.videoUrl), run.world)
    else
      var run := b.multi(w, MainFileInfos(code, classes), combine);
      Ran(MultiResponse(run.result, None), run.world)
  }

  // ---------------------------------------------------------------------------------------
  // The scene-files form
  // ---------------------------------------------------------------------------------------

  predicate HasScene(b: Backend, file: SceneFile) {
    b.extract(file.content) != []
  }

  /** The descriptors of one file: one per extracted class, in extraction order. */
  function FileInfos(b: Backend, file: SceneFile): (infos: seq<SceneInfo>)
    ensures |infos| == |b.extract(file.content)|
    ensures forall i :: 0 <= i < |infos| ==>
      infos[i] == SceneInfo(b.extract(file.content)[i], file.name, file.content)
  {
    var classes := b.extract(file.content);
    seq(|classes|, i requires 0 <= i < |classes| => SceneInfo(classes[i], file.name, file.content))
  }

  /** `FileInfos` for every file. */
  function InfosOf(b: Backend): SceneFile -> seq<SceneInfo> {
    file => FileInfos(b, file)
  }

  /** The index of the first file without a scene class. */
  function FirstWithoutScene(b: Backend, files: seq<SceneFile>): (i: nat)
    requires exists k :: 0 <= k < |files| && !HasScene(b, files[k])
    ensures i < |files| && !HasScene(b, files[i])
    ensures forall k :: 0 <= k < i ==> HasScene(b, files[k])
  {
    if !HasScene(b, files[0]) then 0
    else
      var k :| 0 <= k < |files| && !HasScene(b, files[k]);
      assert !HasScene(b, files[1..][k - 1]);
      1 + FirstWithoutScene(b, files[1..])
  }

  /** The validation and flattening of the scene files: the first file without a scene class, or every descriptor. */
  function Collect(b: Backend, files: seq<SceneFile>): Result<seq<SceneInfo>, SceneFile> {
    if forall k :: 0 <= k < |files| ==> HasScene(b, files[k]) then Success(ConcatMap(InfosOf(b), files))
    else Failure(files[FirstWithoutScene(b, files)])
  }

  /**
   * The nested loops of the `scenes` form: each file's classes are extracted in turn and a
   * descriptor pushed for each; the first file without one ends the loops.
   */
  method CollectSceneInfos(b: Backend, files: seq<SceneFile>) returns (r: Result<seq<SceneInfo>, SceneFile>)
    ensures r == Collect(b, files)
  {
    var sceneInfos: seq<SceneInfo> := [];
    for k := 0 to |files|
      invariant forall i :: 0 <= i < k ==> HasScene(b, files[i])
      invariant sceneInfos == ConcatMap(InfosOf(b), files[..k])
    {
      var file := files[k];
      var classes := b.extract(file.content);
      if |classes| == 0 {
        return Failure(file);
      }
      ghost var before := sceneInfos;
      for j := 0 to |classes|
        invariant sceneInfos == before + FileInfos(b, file)[..j]
      {
        sceneInfos := sceneInfos + [SceneInfo(classes[j], file.name, file.content)];
        assert FileInfos(b, file)[..j + 1] == FileInfos(b, file)[..j] + [FileInfos(b, file)[j]];
      }
      assert files[..k + 1][..k] == files[..k];
      assert FileInfos(b, file)[..|classes|] == FileInfos(b, file);
    }
    assert files[..|files|] == files;
    return Success(sceneInfos);
  }

  /** The answer to `{scenes}`: a file without a scene class, or all descriptors compiled as a project. */
  function ScenesResponse(b: Backend, w: World, files: seq<SceneFile>, combine: bool): (run: Ran<Response>)
    ensures StatusMatchesPayload(run.result)
    ensures run.result.status == 400 ==> run.world == w
  {
    match Collect(b, files)
    case Failure(file) => Ran(FileWithoutScene(file), w)
    case Success(infos) =>
      if |infos| == 0 then Ran(NoScenesFound(), w)
      else
        var run := b.multi(w, infos, combine);
        Ran(MultiResponse(run.result, Some(|infos|)), run.world)
  }

  // ---------------------------------------------------------------------------------------
  // The endpoint
  // ---------------------------------------------------------------------------------------

  /** `POST(request)`, as a value. */
  function PostSpec(b: Backend, w: World, req: Request): (run: Ran<Response>)
    ensures StatusMatchesPayload(run.result)
    ensures run.result.status == 400 ==> run.world == w
    ensures req.Malformed? ==> run.result.status == 500 && run.world == w
  {
    match req
    case Malformed => Ran(InternalError(), w)
    case Body(code, scenes, combineVideos) =>
      var combine := combineVideos.GetOr(true);
      if Truthy(code) && scenes.None? then CodeResponse(b, w, code.value, combine)
      else if scenes.Some? && |scenes.value| > 0 then ScenesResponse(b, w, scenes.value, combine)
      else Ran(InvalidRequest(), w)
  }

  /** `POST(request)` */
  method Post(b: Backend, w: World, req: Request) returns (resp: Response, after: World)
    ensures Ran(resp, after) == PostSpec(b, w, req)
  {
    if req.Malformed? {
      return InternalError(), w;
    }
    var combine := req.combineVideos.GetOr(true);
    if Truthy(req.code) && req.scenes.None? {
      resp, after := PostCode(b, w, req.code.value, combine);
    } else if req.scenes.Some? && |req.scenes.value| > 0 {
      resp, after := PostScenes(b, w, req.scenes.value, combine);
    } else {
      resp, after := InvalidRequest(), w;
    }
  }

  /** The single-file branch of `POST`. */
  method PostCode(b: Backend, w: World, code: string, combine: bool) returns (resp: Response, after: World)
    ensures Ran(resp, after) == CodeResponse(b, w, code, combine)
  {
    var sceneClasses := b.extract(code);
    if |sceneClasses| == 0 {
      return NoSceneClass(code), w;
    }
    if |sceneClasses| == 1 {
      var run := b.single(w, code, sceneClasses[0]);
      if !run.result.success {
        return CompilationFailed(sceneClasses[0], run.result.error), run.world;
      }
      return SingleSceneDone(sceneClasses[0], run.result.videoUrl), run.world;
    }
    var run := b.multi(w, MainFileInfos(code, sceneClasses), combine);
    return MultiResponse(run.result, None), run.world;
  }

  /** The scene-files branch of `POST`. */
  method PostScenes(b: Backend, w: World, files: seq<SceneFile>, combine: bool) returns (resp: Response, after: World)
    ensures Ran(resp, after) == ScenesResponse(b, w, files, combine)
  {
    var collected := CollectSceneInfos(b, files);
    if collected.Failure? {
      return FileWithoutScene(collected.error), w;
    }
    var sceneInfos := collected.value;
    if |sceneInfos| == 0 {
      return NoScenesFound(), w;
    }
    var run := b.multi(w, sceneInfos, combine);
    return MultiResponse(run.result, Some(|sceneInfos|)), run.world;
  }

  // ---------------------------------------------------------------------------------------
  // Properties
  // ---------------------------------------------------------------------------------------

  /**
   * Which form is answered: a body that does not parse is an internal error; a non-empty
   * `scenes` list wins over `code`; `code` alone is the single-file form with `combineVideos`
   * defaulting to true; anything else is an invalid request that compiles nothing.
   */
  lemma Dispatch(b: Backend, w: World, req: Request)
    ensures req.Malformed? ==> PostSpec(b, w, req) == Ran(Response(500, ErrorBody("Internal server error", Some("Unknown error occurred"), NoExtra)), w)
    ensures req.Body? && req.scenes.Some? && req.scenes.value != [] ==>
      PostSpec(b, w, req) == ScenesResponse(b, w, req.scenes.value, req.combineVideos != Some(false))
    ensures req.Body? && Truthy(req.code) && req.scenes.None? ==>
      PostSpec(b, w, req) == CodeResponse(b, w, req.code.value, req.combineVideos != Some(false))
    ensures req.Body? && !Truthy(req.code) && (req.scenes.None? || req.scenes.value == []) ==>
      PostSpec(b, w, req) == Ran(Response(400, ErrorBody("Invalid request", Some("Must provide either code or scenes array"), NoExtra)), w)
    ensures req.Body? && Truthy(req.code) && req.scenes == Some([]) ==>
      PostSpec(b, w, req).result.payload.error == "Invalid request"
  {
  }

  /** Code without a scene class is rejected with 400 and an excerpt, before anything is compiled. */
  lemma CodeWithoutClass(b: Backend, w: World, code: string, combine: bool)
    requires b.extract(code) == []
    ensures var run := CodeResponse(b, w, code, combine);
      && run.world == w
      && run.result.status == 400
      && run.result.payload == ErrorBody("No valid Scene class found",
        Some("Code must contain a class that inherits from Scene (e.g., class MyScene(Scene):)"),
        CodeExcerpt(Excerpt(code)))
  {
  }

  /**
   * Code with exactly one scene class compiles that class alone: a failure answers 500
   * "Compilation failed" with the compiler's error as details, a success answers the video URL
   * and a one-element scene list.
   */
  lemma CodeWithOneClass(b: Backend, w: World, code: string, combine: bool)
    requires |b.extract(code)| == 1
    ensures var cls := b.extract(code)[0];
      var c := b.single(w, code, cls);
      var run := CodeResponse(b, w, code, combine);
      && run.world == c.world
      && (run.result.status == 500 <==> !c.result.success)
      && (!c.result.success ==> run.result.payload == ErrorBody("Compilation failed", c.result.error, ClassName(cls)))
      && (c.result.success ==> run.result == Response(200, SingleScene(c.result.videoUrl, [ScenePreview(cls, c.result.videoUrl)])))
  {
  }

  /**
   * Code with several scene classes is compiled as one project: one descriptor per class, in
   * extraction order, each the file `main.py` with the whole code.
   */
  lemma CodeWithSeveralClasses(b: Backend, w: World, code: string, combine: bool)
    requires |b.extract(code)| >= 2
    ensures var classes := b.extract(code);
      exists infos: seq<SceneInfo> ::
        && |infos| == |classes|
        && (forall i :: 0 <= i < |infos| ==> infos[i] == SceneInfo(classes[i], "main.py", code))
        && var m := b.multi(w, infos, combine);
           CodeResponse(b, w, code, combine) == Ran(MultiResponse(m.result, None), m.world)
  {
    var infos := MainFileInfos(code, b.extract(code));
    assert |infos| == |b.extract(code)|;
  }

  /**
   * The answer to a multi-scene compilation: 500 "Multi-scene compilation failed" with the
   * error as details exactly when it failed; on success `videoUrl` and `combinedVideo` are both
   * the combined URL, absent or not, next to the individual videos.
   */
  lemma MultiResponseShape(r: MultiSceneResult, count: Option<nat>)
    ensures var resp := MultiResponse(r, count);
      && (resp.status == 500 <==> !r.success)
      && (resp.status == 200 <==> r.success)
      && (!r.success ==> resp.payload.ErrorBody? && resp.payload.error == "Multi-scene compilation failed" && resp.payload.details == r.error)
      && (r.success ==>
            && resp.payload.MultiScene?
            && resp.payload.videoUrl == resp.payload.combinedVideo == r.combinedVideoUrl
            && resp.payload.individualScenes == r.individualVideos
            && resp.payload.sceneCount == count)
  {
  }

  /** The number of classes over all files. */
  function ClassCount(b: Backend, files: seq<SceneFile>): nat {
    if files == [] then 0 else ClassCount(b, files[..|files| - 1]) + |b.extract(files[|files| - 1].content)|
  }

  /** The flattened descriptor list has one entry per class of every file. */
  lemma {:induction false} DescriptorCount(b: Backend, files: seq<SceneFile>)
    ensures |ConcatMap(InfosOf(b), files)| == ClassCount(b, files)
  {
    if files != [] {
      DescriptorCount(b, files[..|files| - 1]);
    }
  }

  /** When every file has a scene class there is at least one descriptor per file. */
  lemma {:induction false} AtLeastOnePerFile(b: Backend, files: seq<SceneFile>)
    requires forall k :: 0 <= k < |files| ==> HasScene(b, files[k])
    ensures ClassCount(b, files) >= |files|
  {
    if files != [] {
      AtLeastOnePerFile(b, files[..|files| - 1]);
      assert HasScene(b, files[|files| - 1]);
    }
  }

  /** The `scenes` form answers 400 naming the first file without a scene class, before anything is compiled. */
  lemma ScenesRejectFirstFileWithoutScene(b: Backend, w: World, files: seq<SceneFile>, combine: bool, i: nat)
    requires i < |files| && !HasScene(b, files[i])
    requires forall k :: 0 <= k < i ==> HasScene(b, files[k])
    ensures ScenesResponse(b, w, files, combine) ==
      Ran(Response(400, ErrorBody("No valid Scene class found in " + files[i].name,
        Some("File " + files[i].name + " must contain a class that inherits from Scene"),
        FileName(files[i].name))), w)
  {
    var j := FirstWithoutScene(b, files);
    assert j == i;
  }

  /**
   * When every file has a scene class, every descriptor, as many as classes over all files, is
   * compiled in one project, and "No scenes found in any files" is never answered.
   */
  lemma ScenesCompileAll(b: Backend, w: World, files: seq<SceneFile>, combine: bool)
    requires files != []
    requires forall k :: 0 <= k < |files| ==> HasScene(b, files[k])
    ensures var infos := ConcatMap(InfosOf(b), files);
      var m := b.multi(w, infos, combine);
      && |infos| == ClassCount(b, files) >= |files|
      && ScenesResponse(b, w, files, combine) == Ran(MultiResponse(m.result, Some(ClassCount(b, files))), m.world)
  {
    DescriptorCount(b, files);
    AtLeastOnePerFile(b, files);
  }

  /** Every descriptor of the `scenes` form is a class extracted from the file it names, with that file's content. */
  lemma DescriptorsFromFiles(b: Backend, files: seq<SceneFile>, info: SceneInfo)
    requires info in ConcatMap(InfosOf(b), files)
    ensures exists k ::
      && 0 <= k < |files|
      && files[k].name == info.fileName && files[k].content == info.content
      && info.className in b.extract(files[k].content)
  {
    ConcatMapMembership(InfosOf(b), files, info);
    var k :| 0 <= k < |files| && info in FileInfos(b, files[k]);
    var j :| 0 <= j < |FileInfos(b, files[k])| && FileInfos(b, files[k])[j] == info;
    assert b.extract(files[k].content)[j] == info.className;
  }

  /**
   * With the pipeline's compiler, a single-class request that succeeds answers the video of
   * that class under a freshly drawn id.
   */
  lemma DockerSingleScene(env: Env, w: World, code: string, combine: bool)
    requires |SceneClassesOf(code)| == 1
    ensures var run := CodeResponse(DockerBackend(env), w, code, combine);
      run.result.status == 200 ==>
        run.result.payload.videoUrl == Some(VideoUrl(env.uuid(w.drawn), SceneClassesOf(code)[0]))
  {
    SingleSceneOutcome(env, w, code, SceneClassesOf(code)[0], None);
  }
}
