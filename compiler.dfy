/**
 * The compilation pipeline: one scene is rendered in a container and its video copied to a
 * predictable public name; several scenes are compiled one after the other, stopping at the
 * first failure, and their videos are optionally concatenated by ffmpeg.
 *
 * The host (filesystem, container runtime, ffmpeg, `crypto.randomUUID`) is an oracle `Env`
 * that answers each call, and a `World` value that records what has happened so far: whether
 * the container image exists, how many fresh ids have been drawn, and the trace of effects in
 * the order they were attempted. A call that throws is recorded in the trace as well.
 */
module Compiler {
  import opened Wrappers
  import opened Text
  import SceneClasses
  import opened Locator

  /** What a `catch` receives: an `Error` object with a message, or any other thrown value. */
  datatype Thrown = ErrorObject(message: string) | OtherThrown

  /** `error instanceof Error ? error.message : fallback` */
  function MessageOr(t: Thrown, fallback: string): string {
    if t.ErrorObject? then t.message else fallback
  }

  datatype Outcome = Ok | Throws(thrown: Thrown)

  /** The container run: the listing of the scene's output directory afterwards, or a throw. */
  datatype RenderOutcome = Rendered(output: Listing) | RenderThrew(thrown: Thrown)

  /** The host effects, as attempted. */
  datatype Effect =
    | MakeDir(path: string)
    | WriteFile(path: string, content: string)
    | BuildImage
    | RunScene(id: string, className: string)
    | CopyFile(src: string, dst: string)
    | Unlink(path: string)
    | RemoveTree(path: string)
    | Concat(listFile: string, output: string)

  /** The answers of the host to each kind of call. */
  datatype Env = Env(
    cwd: string,
    dirExists: string -> bool,
    mkdir: string -> Outcome,
    write: (string, string) -> Outcome,
    build: Outcome,
    render: (string, string, string) -> RenderOutcome,
    copy: (string, string) -> Outcome,
    unlink: string -> Outcome,
    rm: string -> Outcome,
    ffmpeg: (string, string) -> Outcome,
    resolve: string -> string,
    uuid: nat -> string)

  datatype World = World(imageReady: bool, drawn: nat, trace: seq<Effect>)

  /** A result together with the world after the call. */
  datatype Ran<T> = Ran(result: T, world: World)

  datatype CompileResult = CompileResult(
    success: bool,
    videoPath: Option<string>,
    videoUrl: Option<string>,
    error: Option<string>,
    compilationId: Option<string>)

  /** A compile result is a video, with its path and URL and no error, or an error with no video. */
  predicate VideoOrError(r: CompileResult) {
    if r.success then r.videoPath.Some? && r.videoUrl.Some? && r.error.None?
    else r.error.Some? && r.videoPath.None? && r.videoUrl.None?
  }

  datatype SceneInfo = SceneInfo(className: string, fileName: string, content: string)
  datatype SceneVideo = SceneVideo(scene: string, videoUrl: string)

  datatype MultiSceneResult = MultiSceneResult(
    success: bool,
    individualVideos: seq<SceneVideo>,
    combinedVideoUrl: Option<string>,
    error: Option<string>)

  /** `TEMP_DIR`, where scripts and ffmpeg list files are written. */
  function TempDir(cwd: string): string { Join(cwd, "tmp") }

  /** `OUTPUT_DIR`, the public video directory. */
  function OutputDir(cwd: string): string { Join(Join(cwd, "public"), "videos") }

  /** JavaScript truthiness of an optional string: present and not empty. */
  predicate Truthy(o: Option<string>) {
    o.Some? && o.value != ""
  }

  function Record(w: World, e: Effect): World {
    w.(trace := w.trace + [e])
  }

  /** `crypto.randomUUID()` */
  function Draw(env: Env, w: World): Ran<string> {
    Ran(env.uuid(w.drawn), w.(drawn := w.drawn + 1))
  }

  /** `given || crypto.randomUUID()` */
  function IdOrFresh(env: Env, w: World, given: Option<string>): (r: Ran<string>)
    ensures Truthy(given) ==> r == Ran(given.value, w)
    ensures !Truthy(given) ==> r == Draw(env, w)
  {
    if Truthy(given) then Ran(given.value, w) else Draw(env, w)
  }

  /** The effects that publish a compiled video or clean up after it. */
  predicate IsCleanup(e: Effect) {
    e.CopyFile? || e.Unlink? || e.RemoveTree?
  }

  /** The effects a call added to the trace. */
  function NewEffects(before: World, after: World): seq<Effect>
    requires |before.trace| <= |after.trace|
  {
    after.trace[|before.trace|..]
  }

  /** `w2`'s trace extends `w1`'s by effects none of which publishes or cleans up. */
  ghost predicate ExtendsWithoutCleanup(w1: World, w2: World) {
    |w1.trace| <= |w2.trace| && w2.trace[..|w1.trace|] == w1.trace
    && forall e :: e in NewEffects(w1, w2) ==> !IsCleanup(e)
  }

  // ---------------------------------------------------------------------------------------
  // try blocks
  // ---------------------------------------------------------------------------------------

  /** A host call inside a `try` block: the effect it attempts and how the host answers. */
  datatype Step = Step(effect: Effect, outcome: Outcome)

  /** How a `try` block of host calls ended. */
  datatype Attempt = Completed(world: World) | Interrupted(thrown: Thrown, world: World)

  /** The effects of the steps, in order. */
  function Effects(steps: seq<Step>): (es: seq<Effect>)
    ensures |es| == |steps| && forall i :: 0 <= i < |steps| ==> es[i] == steps[i].effect
  {
    seq(|steps|, i requires 0 <= i < |steps| => steps[i].effect)
  }

  /** How many calls a `try` block attempts: all of them, or up to the first that throws. */
  function Tried(steps: seq<Step>): (n: nat)
    ensures n <= |steps| && (steps != [] ==> n >= 1)
  {
    if steps == [] then 0 else if steps[0].outcome.Throws? then 1 else 1 + Tried(steps[1..])
  }

  /**
   * What running `steps` from `w` ends in: every call up to the first that throws is attempted
   * in order and recorded; the block completes exactly when none throws, and otherwise ends
   * with the first thrown value, the calls after it never made.
   */
  ghost predicate RunsInOrder(steps: seq<Step>, w: World, a: Attempt) {
    && a.world == w.(trace := w.trace + Effects(steps[..Tried(steps)]))
    && (a.Completed? <==> forall i :: 0 <= i < |steps| ==> steps[i].outcome.Ok?)
    && (a.Completed? ==> Tried(steps) == |steps|)
    && (a.Interrupted? ==>
          && Tried(steps) >= 1
          && steps[Tried(steps) - 1].outcome == Throws(a.thrown)
          && forall i :: 0 <= i < Tried(steps) - 1 ==> steps[i].outcome.Ok?)
  }

  /** Runs host calls in order, recording each attempted effect; the first call that throws ends the block. */
  function RunSteps(steps: seq<Step>, w: World): (a: Attempt)
    ensures RunsInOrder(steps, w, a)
    decreases |steps|
  {
    if steps == [] then Completed(w)
    else if steps[0].outcome.Throws? then
      EffectsCons(steps, 0);
      Interrupted(steps[0].outcome.thrown, Record(w, steps[0].effect))
    else
      var a := RunSteps(steps[1..], Record(w, steps[0].effect));
      RunsInOrderCons(steps, w, a);
      a
  }

  /** A call that returns normally, then the rest of the block. */
  lemma RunsInOrderCons(steps: seq<Step>, w: World, a: Attempt)
    requires steps != [] && steps[0].outcome.Ok?
    requires RunsInOrder(steps[1..], Record(w, steps[0].effect), a)
    ensures RunsInOrder(steps, w, a)
  {
    EffectsCons(steps, Tried(steps[1..]));
    assert forall i :: 1 <= i < |steps| ==> steps[i] == steps[1..][i - 1];
  }

  /** The effects of the first `n + 1` steps: the first step's, then those of the next `n`. */
  lemma EffectsCons(steps: seq<Step>, n: nat)
    requires n < |steps|
    ensures Effects(steps[..n + 1]) == [steps[0].effect] + Effects(steps[1..][..n])
  {
    assert steps[1..][..n] == steps[..n + 1][1..];
  }

  /** The effects a block attempted are among those of its steps. */
  lemma RunStepsEffects(steps: seq<Step>, w: World, e: Effect)
    requires e in NewEffects(w, RunSteps(steps, w).world)
    ensures exists i :: 0 <= i < |steps| && steps[i].effect == e
  {
    var es := Effects(steps[..Tried(steps)]);
    assert NewEffects(w, RunSteps(steps, w).world) == es;
    var k :| 0 <= k < |es| && es[k] == e;
    assert steps[k].effect == e;
  }

  /** A block none of whose calls cleans up extends the trace without clean-up, drawing no id. */
  lemma RunStepsWithoutCleanup(steps: seq<Step>, w: World)
    requires forall i :: 0 <= i < |steps| ==> !IsCleanup(steps[i].effect)
    ensures ExtendsWithoutCleanup(w, RunSteps(steps, w).world)
    ensures RunSteps(steps, w).world.drawn == w.drawn
  {
    forall e | e in NewEffects(w, RunSteps(steps, w).world) ensures !IsCleanup(e) {
      RunStepsEffects(steps, w, e);
    }
  }

  /** Recording one more effect that is not a clean-up keeps the trace free of clean-up. */
  lemma RecordWithoutCleanup(w: World, w1: World, e: Effect)
    requires ExtendsWithoutCleanup(w, w1) && !IsCleanup(e)
    ensures ExtendsWithoutCleanup(w, Record(w1, e))
  {
    assert NewEffects(w, Record(w1, e)) == NewEffects(w, w1) + [e];
  }

  // ---------------------------------------------------------------------------------------
  // One scene
  // ---------------------------------------------------------------------------------------

  function ScriptPath(env: Env, id: string): string { Join(TempDir(env.cwd), id + ".py") }
  function SceneOutputDir(env: Env, id: string): string { Join(OutputDir(env.cwd), id) }
  function VideoName(id: string, className: string): string { id + "_" + className + ".mp4" }
  function VideoPath(env: Env, id: string, className: string): string {
    Join(OutputDir(env.cwd), VideoName(id, className))
  }
  function VideoUrl(id: string, className: string): string { "/videos/" + VideoName(id, className) }
  function NoVideoMessage(className: string): string { "No video file generated for scene: " + className }

  /**
   * The host calls of `compileSingleScene` before the container run: create the scene's output
   * directory when it is missing, write the script, build the image when it is not there.
   */
  function SetupSteps(env: Env, w: World, code: string, id: string): (steps: seq<Step>)
    ensures forall i :: 0 <= i < |steps| ==> !IsCleanup(steps[i].effect)
  {
    var outDir := SceneOutputDir(env, id);
    var script := ScriptPath(env, id);
    (if env.dirExists(outDir) then [] else [Step(MakeDir(outDir), env.mkdir(outDir))])
    + [Step(WriteFile(script, code), env.write(script, code))]
    + (if w.imageReady then [] else [Step(BuildImage, env.build)])
  }

  /** How far a compilation got before the video was looked for. */
  datatype Prepared = Ready(listing: Listing, world: World) | Aborted(thrown: Thrown, world: World)

  /**
   * The set-up calls, then the container run; the first that throws ends the preparation.
   * Once the set-up completed, the image exists.
   */
  function Prepare(env: Env, w: World, code: string, className: string, id: string): (p: Prepared)
    ensures p.world.drawn == w.drawn
    ensures ExtendsWithoutCleanup(w, p.world)
  {
    var steps := SetupSteps(env, w, code, id);
    var setup := RunSteps(steps, w);
    RunStepsWithoutCleanup(steps, w);
    match setup
    case Interrupted(t, w1) => Aborted(t, w1)
    case Completed(w1) =>
      var w2 := Record(w1.(imageReady := true), RunScene(id, className));
      RecordWithoutCleanup(w, w1.(imageReady := true), RunScene(id, className));
      match env.render(code, id, className)
      case RenderThrew(t) => Aborted(t, w2)
      case Rendered(l) => Ready(l, w2)
  }

  /** The result of a compilation that threw: the error's message and no compilation id. */
  function ThrownResult(t: Thrown): (r: CompileResult)
    ensures VideoOrError(r) && !r.success && r.compilationId.None?
    ensures t.ErrorObject? ==> r.error == Some(t.message)
    ensures !t.ErrorObject? ==> r.error == Some("Unknown compilation error")
  {
    CompileResult(false, None, None, Some(MessageOr(t, "Unknown compilation error")), None)
  }

  /**
   * `compileSingleScene(code, className, compilationId)`: prepare and render, locate the
   * video, publish it. A video that cannot be located ends the call before any clean-up.
   */
  function CompileSingleScene(env: Env, w: World, code: string, className: string, compilationId: Option<string>): (run: Ran<CompileResult>)
    ensures VideoOrError(run.result)
  {
    var idRun := IdOrFresh(env, w, compilationId);
    var id := idRun.result;
    match Prepare(env, idRun.world, code, className, id)
    case Aborted(t, w1) => Ran(ThrownResult(t), w1)
    case Ready(l, w1) =>
      match LocatedVideo(SceneOutputDir(env, id), l, className, id)
      case None => Ran(CompileResult(false, None, None, Some(NoVideoMessage(className)), Some(id)), w1)
      case Some(found) => Publish(env, w1, id, className, found)
  }

  /** The clean-up block: unlink the script, then remove the scene's output directory. */
  function CleanupSteps(env: Env, id: string): seq<Step> {
    var script := ScriptPath(env, id);
    var outDir := SceneOutputDir(env, id);
    [Step(Unlink(script), env.unlink(script)), Step(RemoveTree(outDir), env.rm(outDir))]
  }

  /**
   * The end of a compilation whose video was found at `found`: copy it to its public name,
   * then run the clean-up block, whose failure is only logged.
   */
  function Publish(env: Env, w: World, id: string, className: string, found: string): (run: Ran<CompileResult>)
    ensures VideoOrError(run.result)
    ensures run.result.success <==> env.copy(found, VideoPath(env, id, className)).Ok?
    ensures run.result.compilationId.Some? <==> run.result.success
  {
    var finalPath := VideoPath(env, id, className);
    match RunSteps([Step(CopyFile(found, finalPath), env.copy(found, finalPath))], w)
    case Interrupted(t, w1) => Ran(ThrownResult(t), w1)
    case Completed(w1) =>
      var cleanup := RunSteps(CleanupSteps(env, id), w1);
      Ran(CompileResult(true, Some(finalPath), Some(VideoUrl(id, className)), None, Some(id)), cleanup.world)
  }

  /**
   * What a single compilation returns: a success carries the predictable path and URL built
   * from the chosen id (the given one when truthy, else a fresh one) and the class name; a
   * failure carries an error and no video; a failure carrying a compilation id is exactly the
   * missing-video failure.
   */
  lemma SingleSceneOutcome(env: Env, w: World, code: string, className: string, compilationId: Option<string>)
    ensures var r := CompileSingleScene(env, w, code, className, compilationId).result;
      var id := IdOrFresh(env, w, compilationId).result;
      && (r.success ==>
            r == CompileResult(true, Some(VideoPath(env, id, className)), Some(VideoUrl(id, className)), None, Some(id)))
      && (!r.success ==> r.error.Some? && r.videoUrl.None? && r.videoPath.None?)
      && (r.compilationId.Some? ==> r.compilationId == Some(id))
      && (!r.success && r.compilationId.Some? ==> r.error == Some(NoVideoMessage(className)))
  {
  }

  /**
   * Clean-up happens only on success: the script is unlinked exactly when the compilation
   * succeeds, and the scene's output directory is removed exactly when, in addition, unlinking
   * the script worked. Earlier effects stay.
   */
  lemma SingleSceneCleanup(env: Env, w: World, code: string, className: string, compilationId: Option<string>)
    ensures var run := CompileSingleScene(env, w, code, className, compilationId);
      var id := IdOrFresh(env, w, compilationId).result;
      && |w.trace| <= |run.world.trace|
      && run.world.trace[..|w.trace|] == w.trace
      && (Unlink(ScriptPath(env, id)) in NewEffects(w, run.world) <==> run.result.success)
      && (RemoveTree(SceneOutputDir(env, id)) in NewEffects(w, run.world) <==>
            run.result.success && env.unlink(ScriptPath(env, id)).Ok?)
  {
    var run := CompileSingleScene(env, w, code, className, compilationId);
    var idRun := IdOrFresh(env, w, compilationId);
    var id := idRun.result;
    var p := Prepare(env, idRun.world, code, className, id);
    var unlink := Unlink(ScriptPath(env, id));
    var remove := RemoveTree(SceneOutputDir(env, id));
    assert idRun.world.trace == w.trace;
    assert unlink !in NewEffects(w, p.world) && remove !in NewEffects(w, p.world);
    if p.Ready? && LocatedVideo(SceneOutputDir(env, id), p.listing, className, id).Some? {
      var found := LocatedVideo(SceneOutputDir(env, id), p.listing, className, id).value;
      PublishCleanup(env, p.world, id, className, found);
      assert run == Publish(env, p.world, id, className, found);
      NewEffectsSplit(w, p.world, run.world, unlink);
      NewEffectsSplit(w, p.world, run.world, remove);
    } else {
      assert run.world == p.world && !run.result.success;
    }
  }

  /** An effect added between `w` and `w2` was added before or after the intermediate world `w1`. */
  lemma NewEffectsSplit(w: World, w1: World, w2: World, e: Effect)
    requires |w.trace| <= |w1.trace| && w1.trace[..|w.trace|] == w.trace
    requires |w1.trace| <= |w2.trace| && w2.trace[..|w1.trace|] == w1.trace
    ensures |w.trace| <= |w2.trace| && w2.trace[..|w.trace|] == w.trace
    ensures e in NewEffects(w, w2) <==> e in NewEffects(w, w1) || e in NewEffects(w1, w2)
  {
    assert NewEffects(w, w2) == NewEffects(w, w1) + NewEffects(w1, w2);
  }

  /**
   * Publishing unlinks the script exactly when it succeeds, and removes the directory exactly
   * when, in addition, the unlink worked.
   */
  lemma PublishCleanup(env: Env, w: World, id: string, className: string, found: string)
    ensures var run := Publish(env, w, id, className, found);
      && |w.trace| <= |run.world.trace|
      && run.world.trace[..|w.trace|] == w.trace
      && (Unlink(ScriptPath(env, id)) in NewEffects(w, run.world) <==> run.result.success)
      && (RemoveTree(SceneOutputDir(env, id)) in NewEffects(w, run.world) <==>
            run.result.success && env.unlink(ScriptPath(env, id)).Ok?)
  {
    var run := Publish(env, w, id, className, found);
    var finalPath := VideoPath(env, id, className);
    var copy := [Step(CopyFile(found, finalPath), env.copy(found, finalPath))];
    var c := RunSteps(copy, w);
    if c.Completed? {
      var steps := CleanupSteps(env, id);
      var cleanup := RunSteps(steps, c.world);
      assert NewEffects(w, c.world) == [CopyFile(found, finalPath)];
      assert NewEffects(w, run.world) == [CopyFile(found, finalPath)] + Effects(steps[..Tried(steps)]);
      if env.unlink(ScriptPath(env, id)).Ok? {
        assert Effects(steps[..Tried(steps)]) == [Unlink(ScriptPath(env, id)), RemoveTree(SceneOutputDir(env, id))];
      } else {
        assert Effects(steps[..Tried(steps)]) == [Unlink(ScriptPath(env, id))];
      }
    } else {
      assert Tried(copy) == 1;
      assert NewEffects(w, run.world) == [CopyFile(found, finalPath)];
    }
  }

  /**
   * A scene whose video cannot be located fails with the missing-video message and its
   * compilation id, and neither the script nor the scene's output directory is cleaned up:
   * nothing is copied, unlinked or removed.
   */
  lemma MissingVideoKeepsTempFiles(env: Env, w: World, code: string, className: string, compilationId: Option<string>)
    requires var idRun := IdOrFresh(env, w, compilationId);
      var p := Prepare(env, idRun.world, code, className, idRun.result);
      p.Ready? && LocatedVideo(SceneOutputDir(env, idRun.result), p.listing, className, idRun.result).None?
    ensures var run := CompileSingleScene(env, w, code, className, compilationId);
      && run.result == CompileResult(false, None, None, Some(NoVideoMessage(className)), Some(IdOrFresh(env, w, compilationId).result))
      && ExtendsWithoutCleanup(w, run.world)
  {
    var idRun := IdOrFresh(env, w, compilationId);
    assert idRun.world.trace == w.trace;
  }

  /**
   * A compilation whose preparation throws fails with the thrown error's message (or the
   * generic message for a non-`Error` value), without a compilation id and without clean-up.
   */
  lemma ThrownFailureHasNoId(env: Env, w: World, code: string, className: string, compilationId: Option<string>)
    requires var idRun := IdOrFresh(env, w, compilationId);
      Prepare(env, idRun.world, code, className, idRun.result).Aborted?
    ensures var idRun := IdOrFresh(env, w, compilationId);
      var t := Prepare(env, idRun.world, code, className, idRun.result).thrown;
      var run := CompileSingleScene(env, w, code, className, compilationId);
      && run.result == CompileResult(false, None, None, Some(MessageOr(t, "Unknown compilation error")), None)
      && ExtendsWithoutCleanup(w, run.world)
  {
    var idRun := IdOrFresh(env, w, compilationId);
    assert idRun.world.trace == w.trace;
  }

  // ---------------------------------------------------------------------------------------
  // Several scenes
  // ---------------------------------------------------------------------------------------

  /** The compilation id of a scene in a multi-scene run. */
  function SceneId(projectId: string, className: string): string { projectId + "_" + className }

  /** The text of `${result.error}`: an absent error prints as `undefined`. */
  function ErrorText(e: Option<string>): string { if e.Some? then e.value else "undefined" }

  function SceneFailure(className: string, error: Option<string>): string {
    "Failed to compile scene " + className + ": " + ErrorText(error)
  }

  /** The state of the scene loop: still going, or stopped at a failure. */
  datatype Progress =
    | Running(videos: seq<SceneVideo>, paths: seq<string>, world: World)
    | Stopped(videos: seq<SceneVideo>, error: string, world: World)

  /** How the scene loop compiles one scene in the current world. */
  type SceneCompiler = (World, SceneInfo) -> Ran<CompileResult>

  /** The scene loop's compilation: `compileSingleScene(content, className, projectId + "_" + className)`. */
  function CompileInProject(env: Env, projectId: string): SceneCompiler {
    (w: World, s: SceneInfo) => CompileSingleScene(env, w, s.content, s.className, Some(SceneId(projectId, s.className)))
  }

  /** One turn of the scene loop on `scene`. */
  function CompileStep(compile: SceneCompiler, p: Progress, scene: SceneInfo): Progress
    requires p.Running?
  {
    var run := compile(p.world, scene);
    var r := run.result;
    if !r.success then Stopped(p.videos, SceneFailure(scene.className, r.error), run.world)
    else if Truthy(r.videoUrl) && Truthy(r.videoPath) then
      Running(p.videos + [SceneVideo(scene.className, r.videoUrl.value)], p.paths + [r.videoPath.value], run.world)
    else Running(p.videos, p.paths, run.world)
  }

  /** The scene loop over `scenes[..k]`: the first failure stops it for good. */
  function CompilePrefix(compile: SceneCompiler, w: World, scenes: seq<SceneInfo>, k: nat): (p: Progress)
    requires k <= |scenes|
    ensures p.Running? ==> |p.videos| == |p.paths|
  {
    if k == 0 then Running([], [], w)
    else
      var p := CompilePrefix(compile, w, scenes, k - 1);
      if p.Stopped? then p else CompileStep(compile, p, scenes[k - 1])
  }

  /** The combine rule applied after every scene compiled. */
  function CombineRule(env: Env, w: World, videos: seq<SceneVideo>, paths: seq<string>, combine: bool, projectId: string): Ran<Option<string>>
    requires |videos| == |paths|
  {
    if combine && |paths| > 1 then
      var c := CombineVideosFFmpeg(env, w, paths, Some(projectId));
      Ran(if c.result.success && Truthy(c.result.videoUrl) then c.result.videoUrl else None, c.world)
    else if |paths| == 1 then Ran(Some(videos[0].videoUrl), w)
    else Ran(None, w)
  }

  /** `compileMultipleScenes(scenes, combineVideos)`, as a value. */
  function MultiSceneSpec(env: Env, w: World, scenes: seq<SceneInfo>, combine: bool): (run: Ran<MultiSceneResult>)
    ensures run.result.success <==> run.result.error.None?
    ensures !run.result.success ==> run.result.combinedVideoUrl.None?
  {
    var projectId := Draw(env, w);
    CompileAndCombine(env, CompileInProject(env, projectId.result), projectId.result, projectId.world, scenes, combine)
  }

  /** The scene loop with a given scene compilation, then the combine rule. */
  function CompileAndCombine(env: Env, compile: SceneCompiler, projectId: string, w: World, scenes: seq<SceneInfo>, combine: bool): Ran<MultiSceneResult> {
    match CompilePrefix(compile, w, scenes, |scenes|)
    case Stopped(videos, e, w2) => Ran(MultiSceneResult(false, videos, None, Some(e)), w2)
    case Running(videos, paths, w2) =>
      var c := CombineRule(env, w2, videos, paths, combine, projectId);
      Ran(MultiSceneResult(true, videos, c.result, None), c.world)
  }

  /** `compileMultipleScenes`: a fresh project id, then the scenes compiled under it. */
  method CompileMultipleScenes(env: Env, w: World, scenes: seq<SceneInfo>, combine: bool)
    returns (r: MultiSceneResult, after: World)
    ensures Ran(r, after) == MultiSceneSpec(env, w, scenes, combine)
  {
    var projectId := env.uuid(w.drawn);
    r, after := CompileAndCombineScenes(env, CompileInProject(env, projectId), projectId, w.(drawn := w.drawn + 1), scenes, combine);
  }

  /**
   * The rest of `compileMultipleScenes` once the project id is drawn, for a given scene
   * compilation: the scene loop, an early return when it stopped, then the combine rule.
   */
  method CompileAndCombineScenes(env: Env, compile: SceneCompiler, projectId: string, w: World, scenes: seq<SceneInfo>, combine: bool)
    returns (r: MultiSceneResult, after: World)
    ensures Ran(r, after) == CompileAndCombine(env, compile, projectId, w, scenes, combine)
  {
    var loop := CompileScenes(compile, w, scenes);
    if loop.Stopped? {
      return MultiSceneResult(false, loop.videos, None, Some(loop.error)), loop.world;
    }
    var individualVideos, videoPaths, world := loop.videos, loop.paths, loop.world;
    ghost var rule := CombineRule(env, world, individualVideos, videoPaths, combine, projectId);
    var combinedVideoUrl: Option<string> := None;
    if combine && |videoPaths| > 1 {
      var c := CombineVideosFFmpeg(env, world, videoPaths, Some(projectId));
      if c.result.success && Truthy(c.result.videoUrl) {
        combinedVideoUrl := c.result.videoUrl;
      }
      world := c.world;
    } else if |videoPaths| == 1 {
      combinedVideoUrl := Some(individualVideos[0].videoUrl);
    }
    assert rule == Ran(combinedVideoUrl, world);
    r := MultiSceneResult(true, individualVideos, combinedVideoUrl, None);
    after := world;
  }

  /**
   * The scene loop of `compileMultipleScenes`: each scene is compiled in turn, its entry and
   * path pushed when it succeeds; the first failure ends the loop with the entries so far.
   */
  method CompileScenes(compile: SceneCompiler, w: World, scenes: seq<SceneInfo>) returns (p: Progress)
    ensures p == CompilePrefix(compile, w, scenes, |scenes|)
  {
    var world := w;
    var individualVideos: seq<SceneVideo> := [];
    var videoPaths: seq<string> := [];
    for i := 0 to |scenes|
      invariant CompilePrefix(compile, w, scenes, i) == Running(individualVideos, videoPaths, world)
    {
      var scene := scenes[i];
      var run := compile(world, scene);
      if !run.result.success {
        StoppedStays(compile, w, scenes, i + 1, |scenes|);
        return Stopped(individualVideos, SceneFailure(scene.className, run.result.error), run.world);
      }
      if Truthy(run.result.videoUrl) && Truthy(run.result.videoPath) {
        individualVideos := individualVideos + [SceneVideo(scene.className, run.result.videoUrl.value)];
        videoPaths := videoPaths + [run.result.videoPath.value];
      }
      world := run.world;
    }
    return Running(individualVideos, videoPaths, world);
  }

  /** Once stopped, the loop stays stopped: no later scene is compiled and the world stays put. */
  lemma {:induction false} StoppedStays(compile: SceneCompiler, w: World, scenes: seq<SceneInfo>, k: nat, j: nat)
    requires k <= j <= |scenes|
    requires CompilePrefix(compile, w, scenes, k).Stopped?
    ensures CompilePrefix(compile, w, scenes, j) == CompilePrefix(compile, w, scenes, k)
    decreases j - k
  {
    if j > k {
      StoppedStays(compile, w, scenes, k, j - 1);
    }
  }

  /** The entry a successfully compiled scene contributes. */
  function ExpectedVideo(projectId: string, className: string): SceneVideo {
    SceneVideo(className, VideoUrl(SceneId(projectId, className), className))
  }

  /** A scene compilation that, when it succeeds, names the video after the project and the class. */
  ghost predicate NamesPredictably(compile: SceneCompiler, env: Env, projectId: string) {
    forall w: World, s: SceneInfo {:trigger compile(w, s)} ::
      compile(w, s).result.success ==>
        && compile(w, s).result.videoUrl == Some(VideoUrl(SceneId(projectId, s.className), s.className))
        && compile(w, s).result.videoPath == Some(VideoPath(env, SceneId(projectId, s.className), s.className))
  }

  /** The scene loop's compilation names its videos predictably. */
  lemma CompileInProjectNames(env: Env, projectId: string)
    ensures NamesPredictably(CompileInProject(env, projectId), env, projectId)
  {
    forall w: World, s: SceneInfo
      ensures var r := CompileInProject(env, projectId)(w, s).result;
        r.success ==>
          && r.videoUrl == Some(VideoUrl(SceneId(projectId, s.className), s.className))
          && r.videoPath == Some(VideoPath(env, SceneId(projectId, s.className), s.className))
    {
      var id := Some(SceneId(projectId, s.className));
      assert Truthy(id) by { assert id.value[|projectId|] == '_'; }
      SingleSceneOutcome(env, w, s.content, s.className, id);
    }
  }

  /**
   * Fail-fast shape of the scene loop: while running after `k` scenes, there is one entry and
   * one path per scene, with the predictable names; once stopped, the entries are exactly
   * those of the scenes before the failing one, in order, and the error names the failing scene.
   */
  lemma {:induction false} PrefixShape(compile: SceneCompiler, env: Env, projectId: string, w: World, scenes: seq<SceneInfo>, k: nat)
    requires NamesPredictably(compile, env, projectId)
    requires k <= |scenes|
    ensures var p := CompilePrefix(compile, w, scenes, k);
      && (p.Running? ==>
            && |p.videos| == k && |p.paths| == k
            && forall i :: 0 <= i < k ==>
                 p.videos[i] == ExpectedVideo(projectId, scenes[i].className)
                 && p.paths[i] == VideoPath(env, SceneId(projectId, scenes[i].className), scenes[i].className))
      && (p.Stopped? ==>
            && |p.videos| < k
            && (forall i :: 0 <= i < |p.videos| ==> p.videos[i] == ExpectedVideo(projectId, scenes[i].className)))
  {
    if k > 0 {
      PrefixShape(compile, env, projectId, w, scenes, k - 1);
      var p := CompilePrefix(compile, w, scenes, k - 1);
      if p.Running? {
        var s := scenes[k - 1];
        var r := compile(p.world, s).result;
        if r.success {
          assert Truthy(r.videoUrl) && Truthy(r.videoPath);
        }
      }
    }
  }

  /**
   * Where the scene loop stopped: at a scene `j` reached while still running, whose compilation
   * failed; the error is `Failed to compile scene <class>: <its error>`, the entries are those
   * gathered before it, and the world is the one that compilation left.
   */
  lemma {:induction false} StoppedAt(compile: SceneCompiler, w: World, scenes: seq<SceneInfo>, k: nat)
    requires k <= |scenes|
    ensures var p := CompilePrefix(compile, w, scenes, k);
      p.Stopped? ==>
        exists j :: 0 <= j < k && StoppedAtScene(compile, w, scenes, j, p)
  {
    if k > 0 {
      StoppedAt(compile, w, scenes, k - 1);
      var p := CompilePrefix(compile, w, scenes, k - 1);
      if p.Running? && CompilePrefix(compile, w, scenes, k).Stopped? {
        assert StoppedAtScene(compile, w, scenes, k - 1, CompilePrefix(compile, w, scenes, k));
      }
    }
  }

  /** The loop, still running before scene `j`, failed on it and stopped as `p`. */
  ghost predicate StoppedAtScene(compile: SceneCompiler, w: World, scenes: seq<SceneInfo>, j: nat, p: Progress)
    requires j < |scenes|
  {
    var before := CompilePrefix(compile, w, scenes, j);
    && before.Running?
    && var run := compile(before.world, scenes[j]);
    && !run.result.success
    && p == Stopped(before.videos, SceneFailure(scenes[j].className, run.result.error), run.world)
  }

  /** The failure text starts by naming the scene. */
  lemma SceneFailureNamesScene(className: string, error: Option<string>)
    ensures StartsWith(SceneFailure(className, error), "Failed to compile scene " + className + ": ")
  {
    var prefix := "Failed to compile scene " + className + ": ";
    assert SceneFailure(className, error)[..|prefix|] == prefix;
  }

  /**
   * `compileMultipleScenes` as a whole: on success every scene has its entry in input order
   * with URL `/videos/<projectId>_<class>_<class>.mp4`; on failure the entries are exactly
   * those of the scenes before the failing one and the error names it.
   */
  lemma MultiSceneOutcome(env: Env, w: World, scenes: seq<SceneInfo>, combine: bool)
    ensures var r := MultiSceneSpec(env, w, scenes, combine).result;
      var projectId := env.uuid(w.drawn);
      && (r.success ==>
            && r.error.None?
            && |r.individualVideos| == |scenes|
            && forall i :: 0 <= i < |scenes| ==> r.individualVideos[i] == ExpectedVideo(projectId, scenes[i].className))
      && (!r.success ==>
            && r.combinedVideoUrl.None?
            && |r.individualVideos| < |scenes|
            && (forall i :: 0 <= i < |r.individualVideos| ==> r.individualVideos[i] == ExpectedVideo(projectId, scenes[i].className))
            && r.error.Some?
            && var failing := scenes[|r.individualVideos|];
            && var before := CompilePrefix(CompileInProject(env, projectId), Draw(env, w).world, scenes, |r.individualVideos|);
            && before.Running?
            && var run := CompileSingleScene(env, before.world, failing.content, failing.className, Some(SceneId(projectId, failing.className)));
            && !run.result.success
            && r.error.value == SceneFailure(failing.className, run.result.error)
            && StartsWith(r.error.value, "Failed to compile scene " + failing.className + ": "))
  {
    var d := Draw(env, w);
    CompileInProjectNames(env, d.result);
    var compile := CompileInProject(env, d.result);
    PrefixShape(compile, env, d.result, d.world, scenes, |scenes|);
    StoppedAt(compile, d.world, scenes, |scenes|);
    var p := CompilePrefix(compile, d.world, scenes, |scenes|);
    if p.Stopped? {
      var j :| 0 <= j < |scenes| && StoppedAtScene(compile, d.world, scenes, j, p);
      PrefixShape(compile, env, d.result, d.world, scenes, j);
      var run := compile(CompilePrefix(compile, d.world, scenes, j).world, scenes[j]);
      SceneFailureNamesScene(scenes[j].className, run.result.error);
    }
  }

  /**
   * The combine rule after every scene compiled: with combining on and several videos the
   * combined URL is the concatenation's, present only when it succeeded; with exactly one video
   * it is that video's URL whatever the flag; otherwise there is none.
   */
  lemma CombinedUrlRule(env: Env, w: World, scenes: seq<SceneInfo>, combine: bool)
    ensures var r := MultiSceneSpec(env, w, scenes, combine).result;
      var projectId := env.uuid(w.drawn);
      var p := CompilePrefix(CompileInProject(env, projectId), Draw(env, w).world, scenes, |scenes|);
      r.success ==>
        && p.Running?
        && (combine && |scenes| > 1 ==>
              var c := CombineVideosFFmpeg(env, p.world, p.paths, Some(projectId)).result;
              r.combinedVideoUrl == (if c.success && Truthy(c.videoUrl) then c.videoUrl else None))
        && (|scenes| == 1 ==> r.combinedVideoUrl == Some(VideoUrl(SceneId(projectId, scenes[0].className), scenes[0].className)))
        && (!combine && |scenes| != 1 ==> r.combinedVideoUrl.None?)
  {
    var d := Draw(env, w);
    CompileInProjectNames(env, d.result);
    PrefixShape(CompileInProject(env, d.result), env, d.result, d.world, scenes, |scenes|);
  }

  /** No scenes: success, no entries, no combined URL, and nothing but the id draw happens. */
  lemma NoScenes(env: Env, w: World, combine: bool)
    ensures MultiSceneSpec(env, w, [], combine) == Ran(MultiSceneResult(true, [], None, None), Draw(env, w).world)
  {
  }

  /**
   * Fail-fast: when the loop stopped at a scene, the scenes after it are never compiled, so the
   * world of the whole run is the world right after the failing compilation.
   */
  lemma FailFast(env: Env, w: World, scenes: seq<SceneInfo>, combine: bool, k: nat)
    requires k < |scenes|
    requires CompilePrefix(CompileInProject(env, env.uuid(w.drawn)), Draw(env, w).world, scenes, k + 1).Stopped?
    ensures var p := CompilePrefix(CompileInProject(env, env.uuid(w.drawn)), Draw(env, w).world, scenes, k + 1);
      var r := MultiSceneSpec(env, w, scenes, combine);
      && r.world == p.world
      && r.result == MultiSceneResult(false, p.videos, None, Some(p.error))
  {
    StoppedStays(CompileInProject(env, env.uuid(w.drawn)), Draw(env, w).world, scenes, k + 1, |scenes|);
  }

  // ---------------------------------------------------------------------------------------
  // Concatenation
  // ---------------------------------------------------------------------------------------

  /** `path.basename(p)`: what follows the last separator. */
  function Basename(p: string): (b: string)
    ensures EndsWith(p, b) && '/' !in b
    ensures |b| == |p| || p[|p| - |b| - 1] == '/'
  {
    if p == [] || p[|p| - 1] == '/' then ""
    else
      var b := Basename(p[..|p| - 1]) + [p[|p| - 1]];
      assert p[..|p| - 1][..|p| - |b|] == p[..|p| - |b|];
      b
  }

  /** One manifest line per input, in input order. */
  function ManifestLines(env: Env, paths: seq<string>): (lines: seq<string>)
    ensures |lines| == |paths|
  {
    seq(|paths|, i requires 0 <= i < |paths| => "file '" + env.resolve(paths[i]) + "'")
  }

  /** The ffmpeg concat list: the lines joined by newlines. */
  function Manifest(env: Env, paths: seq<string>): string {
    JoinWith(ManifestLines(env, paths), '\n')
  }

  function CombineFailure(t: Thrown): CompileResult {
    CompileResult(false, None, None, Some(MessageOr(t, "Error combining videos")), None)
  }

  function CombinedName(id: string): string { "combined_" + id + ".mp4" }
  function ListFile(env: Env, id: string): string { Join(TempDir(env.cwd), id + "_list.txt") }

  /** The `try` block of a concatenation: write the list file, run ffmpeg, unlink the list file. */
  function CombineSteps(env: Env, id: string, paths: seq<string>): seq<Step> {
    var listFile := ListFile(env, id);
    var output := Join(OutputDir(env.cwd), CombinedName(id));
    [ Step(WriteFile(listFile, Manifest(env, paths)), env.write(listFile, Manifest(env, paths))),
      Step(Concat(listFile, output), env.ffmpeg(listFile, output)),
      Step(Unlink(listFile), env.unlink(listFile)) ]
  }

  /**
   * `combineVideosFFmpeg(videoPaths, projectId)`. Several videos are concatenated into
   * `OUTPUT_DIR/combined_<id>.mp4` through a list file, which is unlinked only after ffmpeg
   * succeeded; any throw on the way is the call's failure.
   */
  function CombineVideosFFmpeg(env: Env, w: World, paths: seq<string>, projectId: Option<string>): (run: Ran<CompileResult>)
    ensures VideoOrError(run.result) && run.result.compilationId.None?
    ensures |paths| <= 1 ==> run.world == w
  {
    if |paths| == 0 then Ran(CompileResult(false, None, None, Some("No videos to combine"), None), w)
    else if |paths| == 1 then Ran(CompileResult(true, Some(paths[0]), Some("/videos/" + Basename(paths[0])), None, None), w)
    else
      var idRun := IdOrFresh(env, w, projectId);
      var id := idRun.result;
      match RunSteps(CombineSteps(env, id, paths), idRun.world)
      case Interrupted(t, w1) => Ran(CombineFailure(t), w1)
      case Completed(w1) =>
        Ran(CompileResult(true, Some(Join(OutputDir(env.cwd), CombinedName(id))), Some("/videos/" + CombinedName(id)), None, None), w1)
  }

  /**
   * The three cases of the concatenation: no input is an error and touches nothing; one input
   * passes through under its base name and touches nothing; several inputs that succeed give
   * `/videos/combined_<id>.mp4`, with the id the given project id when truthy.
   */
  lemma CombineCases(env: Env, w: World, paths: seq<string>, projectId: Option<string>)
    ensures var run := CombineVideosFFmpeg(env, w, paths, projectId);
      && (|paths| == 0 ==> run == Ran(CompileResult(false, None, None, Some("No videos to combine"), None), w))
      && (|paths| == 1 ==>
            && run.world == w && run.result.success
            && run.result.videoPath == Some(paths[0])
            && run.result.videoUrl == Some("/videos/" + Basename(paths[0]))
            && '/' !in Basename(paths[0]) && EndsWith(paths[0], Basename(paths[0])))
      && (|paths| >= 2 && run.result.success ==>
            var id := IdOrFresh(env, w, projectId).result;
            && run.result.videoUrl == Some("/videos/combined_" + id + ".mp4")
            && run.result.videoPath == Some(Join(OutputDir(env.cwd), CombinedName(id)))
            && (Truthy(projectId) ==> id == projectId.value))
  {
    if |paths| >= 2 {
      var id := IdOrFresh(env, w, projectId).result;
      assert "/videos/" + CombinedName(id) == "/videos/combined_" + id + ".mp4";
    }
  }

  /**
   * The list file is unlinked only after ffmpeg succeeded: when it is unlinked, ffmpeg had
   * returned normally, and when ffmpeg throws the file stays where it was written.
   */
  lemma ListFileKeptOnFfmpegFailure(env: Env, w: World, paths: seq<string>, projectId: Option<string>)
    requires |paths| >= 2
    ensures var run := CombineVideosFFmpeg(env, w, paths, projectId);
      var id := IdOrFresh(env, w, projectId).result;
      var output := Join(OutputDir(env.cwd), CombinedName(id));
      && |w.trace| <= |run.world.trace|
      && (Unlink(ListFile(env, id)) in NewEffects(w, run.world) <==>
            env.write(ListFile(env, id), Manifest(env, paths)).Ok? && env.ffmpeg(ListFile(env, id), output).Ok?)
      && (run.result.success <==>
            env.write(ListFile(env, id), Manifest(env, paths)).Ok? && env.ffmpeg(ListFile(env, id), output).Ok?
            && env.unlink(ListFile(env, id)).Ok?)
  {
    var idRun := IdOrFresh(env, w, projectId);
    var id := idRun.result;
    var steps := CombineSteps(env, id, paths);
    var run := CombineVideosFFmpeg(env, w, paths, projectId);
    assert idRun.world.trace == w.trace;
    assert NewEffects(w, run.world) == Effects(steps[..Tried(steps)]);
    if steps[0].outcome.Ok? && steps[1].outcome.Ok? {
      assert Tried(steps) == 3;
      assert Effects(steps[..Tried(steps)])[2] == Unlink(ListFile(env, id));
    } else {
      assert Tried(steps) <= 2;
    }
  }

  /**
   * The list file names every input once, in input order: split on newlines it gives back one
   * `file '<resolved path>'` line per input, provided no resolved path contains a newline.
   */
  lemma ManifestRoundTrip(env: Env, paths: seq<string>)
    requires paths != []
    requires forall i :: 0 <= i < |paths| ==> '\n' !in env.resolve(paths[i])
    ensures var lines := SplitOn(Manifest(env, paths), '\n');
      && |lines| == |paths|
      && forall i :: 0 <= i < |paths| ==> lines[i] == "file '" + env.resolve(paths[i]) + "'"
  {
    var lines := ManifestLines(env, paths);
    forall k | 0 <= k < |lines|
      ensures '\n' !in lines[k]
    {
      assert lines[k] == "file '" + env.resolve(paths[k]) + "'";
    }
    SplitJoin(lines, '\n');
  }

  // ---------------------------------------------------------------------------------------
  // The legacy entry point
  // ---------------------------------------------------------------------------------------

  /** `compileManimCode(code, className)`: without a class name, the first extracted class. */
  function CompileManimCode(env: Env, w: World, code: string, className: Option<string>): (run: Ran<CompileResult>)
    ensures VideoOrError(run.result)
  {
    if Truthy(className) then CompileSingleScene(env, w, code, className.value, None)
    else
      var classes := SceneClasses.SceneClassesOf(code);
      if |classes| == 0 then Ran(CompileResult(false, None, None, Some("No Scene class found in the code"), None), w)
      else CompileSingleScene(env, w, code, classes[0], None)
  }

  /**
   * The legacy dispatch: a missing class name and code without a scene class fail with
   * "No Scene class found in the code" and compile nothing; a missing class name otherwise
   * compiles the first extracted class, with a fresh id.
   */
  lemma LegacyDispatch(env: Env, w: World, code: string, className: Option<string>)
    ensures var run := CompileManimCode(env, w, code, className);
      var classes := SceneClasses.SceneClassesOf(code);
      && (!Truthy(className) && classes == [] ==>
            run == Ran(CompileResult(false, None, None, Some("No Scene class found in the code"), None), w))
      && (!Truthy(className) && classes != [] ==>
            run == CompileSingleScene(env, w, code, classes[0], None)
            && (run.result.compilationId.Some? ==> run.result.compilationId == Some(env.uuid(w.drawn))))
      && (Truthy(className) ==> run == CompileSingleScene(env, w, code, className.value, None))
  {
    if !Truthy(className) && SceneClasses.SceneClassesOf(code) != [] {
      SingleSceneOutcome(env, w, code, SceneClasses.SceneClassesOf(code)[0], None);
    }
  }
}
