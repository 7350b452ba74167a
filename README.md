# Manim animation platform: a verified model of its core

The platform turns Python scripts written with the Manim library into videos. A Next.js service
finds the scene classes in a script, renders each scene in a Docker container, locates the
video Manim wrote, copies it to a public name and, for several scenes, joins the videos with
ffmpeg. The browser side keeps a tree of project files, the open tabs, the selected scenes and
a chat with a code generator, whose answers are post-processed before they reach the editor.

This project models that core in Dafny and proves what it promises:

- `SceneClasses` (`scene_classes.dfy`): the scene-class scanner of `src/lib/docker.ts`. The four
  patterns `class NAME(Base)` are matched by a hand-written matcher, and a global `exec` loop
  fills an insertion-ordered set.
- `Locator` (`locator.dfy`): `findGeneratedVideo`. It checks the five fixed output places, then
  falls back to a recursive `.mp4` walk over an abstract directory listing.
- `Compiler` (`compiler.dfy`): `compileSingleScene`, `compileMultipleScenes`,
  `combineVideosFFmpeg` and `compileManimCode`. Docker, ffmpeg, the file system and
  `crypto.randomUUID` are an `Env` of oracle answers. A `World` records the image state, the
  ids drawn so far and the trace of attempted host effects.
- `ExecuteRoute` (`execute_route.dfy`): the `POST /api/execute` dispatch, parameterised by the
  compile functions it calls.
- `ProjectHook` (`project_hook.dfy`): the tree helpers of `useProject` and its handlers. The
  hook's state is a class, `Project`, whose methods are the handlers; the replies of the
  endpoints are inputs.
- `Ide` (`ide.dfy`): the IDE component. It covers collecting files, detecting scenes across
  files, editing, adding a scene and the two run buttons, and its state is the class `Component`.
- `FileExplorer` (`file_explorer.dfy`): the search filter, the folder toggle, the Python-file
  test and `handleAddScene`. It owns the `Item` tree type.
- `Gemini` (`gemini.dfy`): `generateManimCode` of `src/lib/gemini.ts` once the model has answered.
  It covers the key check, the invalid-response check, fenced-block extraction and the
  dark-background prefix.
- `Text` and `Wrappers`: the JavaScript string operations used above (`trim`, `includes`,
  `indexOf`, `split`, `join`, `toLowerCase`, number printing) and `Option`/`Result`.

Strings are sequences of characters. JavaScript truthiness is written out: `x || fallback` on an
optional string is `ProjectHook.Or`, `!undefined` is `true`, and an `Error`'s message falls back
to the source's fixed text.

## Model

| member | source | states |
|---|---|---|
| SceneClasses.ScenePattern | src/lib/docker.ts:50-55 | Each scene pattern is `class`, white space, the captured name, then `(` `Base` `)` with optional white space: nine pieces, with one capture. |
| SceneClasses.MatchPieces | src/lib/docker.ts:50-55 | A match of the pieces ends inside the text and after the leading literal; whatever it captures is a non-empty `[a-zA-Z0-9_]` identifier. |
| SceneClasses.MatchAt | src/lib/docker.ts:50-55 | A match found at a position starts there, ends after it, and captures an identifier. |
| SceneClasses.NextMatch | src/lib/docker.ts:61 | `exec` with `lastIndex = from` finds a match starting at or after `from` that ends after its start, so the global loop advances. |
| SceneClasses.NextMatchIsMatch | src/lib/docker.ts:61 | The match `exec` reports is a match of the pattern at the place it reports. |
| SceneClasses.NextMatchLeftmost | src/lib/docker.ts:61 | `exec` returns the leftmost match: no match starts between `lastIndex` and the reported one, and there is none when nothing is returned. |
| SceneClasses.Dedup | src/lib/docker.ts:57-66 | The insertion-ordered set holds exactly the names added, each once. |
| SceneClasses.SceneClassesOf | src/lib/docker.ts:49-67 | The scanner returns no name twice, and returns exactly the names the four patterns capture. |
| SceneClasses.DedupSnoc | src/lib/docker.ts:62 | Adding a name already in the set changes nothing; a new name goes last. |
| SceneClasses.ExtractSceneClasses | src/lib/docker.ts:49-67 | The nested pattern and `exec` loops return the value the specification function defines. |
| SceneClasses.AddPatternMatches | src/lib/docker.ts:60-63 | The `exec` loop of one pattern adds that pattern's captures, in order, to the set built so far, keeping the set and the array in step. |
| SceneClasses.ScanSound | src/lib/docker.ts:61-63 | Every capture of a scan is a non-empty identifier declared as `class NAME(Base)` somewhere in the code. |
| SceneClasses.ExtractedNames | src/lib/docker.ts:49-66 | No name is returned twice, and a name is returned exactly when one of the four patterns captures it; every name is a non-empty identifier. |
| SceneClasses.DedupOrder | src/lib/docker.ts:57-66 | The set keeps names in the order of their first insertion. |
| SceneClasses.ExtractionOrder | src/lib/docker.ts:59-66 | The order is pattern-major: names follow their first capture when the four scans are laid end to end, and a repeat keeps its first place. |
| Locator.Candidates | src/lib/docker.ts:77-83 | There are exactly five candidate places, none of them empty. |
| Locator.FirstExistingIsFirst | src/lib/docker.ts:85-89 | When a candidate exists and none before it does, that candidate's path is the answer. |
| Locator.FirstExistingNone | src/lib/docker.ts:85-89 | When no remaining candidate exists, the candidate loop gives nothing. |
| Locator.FirstExistingSound | src/lib/docker.ts:85-89 | An answer of the candidate loop is the path of a candidate that exists. |
| Locator.FirstExistingComplete | src/lib/docker.ts:85-89 | When the candidate loop gives nothing, no remaining candidate place exists. |
| Locator.FindAllMp4Files | src/lib/docker.ts:93-109 | The recursive walk that pushes into `files` returns the walk the specification function defines, or a throw when a listing fails. |
| Locator.Mp4Walk | src/lib/docker.ts:93-109 | Every file of a walk that does not throw ends in `.mp4` and contains the class name. |
| Locator.FindGeneratedVideo | src/lib/docker.ts:72-120 | The candidate loop with early return, then the walk inside `try`, returns the located video the specification function defines. |
| Locator.LocatorOrder | src/lib/docker.ts:77-119 | The first of the five places `C.mp4`, `id_C.mp4`, `id/C.mp4`, `videos/C.mp4` and `videos/id/C.mp4` that exists wins. With none, the answer is the walk's first file, or nothing when the walk finds none or throws. |
| Locator.WalkFindsWanted | src/lib/docker.ts:97-107 | Every file the walk returns is a file entry joined to the directory that lists it. That entry's own name ends in `.mp4` and contains the class name, so the whole path does too. |
| Locator.LocatedIsCandidateOrWalked | src/lib/docker.ts:72-120 | The locator never invents a path. Its answer is an existing candidate place, or else a file of the walk, found only when no candidate place exists. That file is an `.mp4` entry whose name contains the class name. |
| Locator.LocatedVideo | src/lib/docker.ts:72-120 | No video is found only when none of the five candidate places exists. |
| Compiler.IdOrFresh | src/lib/docker.ts:131 | A truthy given id is used unchanged without a draw; otherwise a fresh id is drawn. |
| Compiler.RunSteps | src/lib/docker.ts:130-199 | A `try` block runs its host calls in order. It completes exactly when none throws; otherwise the first throw ends it, and no later call is attempted. |
| Compiler.RunsInOrderCons | src/lib/docker.ts:130-199 | A call that returns normally, followed by the rest of the block run in order, is the whole block run in order. |
| Compiler.SetupSteps | src/lib/docker.ts:135-149 | Preparing a compilation never publishes or cleans anything up. |
| Compiler.Prepare | src/lib/docker.ts:135-159 | Preparing and rendering draws no id and only adds effects that are not publish or clean-up effects. |
| Compiler.ThrownResult | src/lib/docker.ts:192-199 | A thrown compilation is a failure with no video and no id. Its error is the `Error`'s message, or `Unknown compilation error` for anything else. |
| Compiler.CompileSingleScene | src/lib/docker.ts:125-200 | Every result is either a video, with its path and URL and no error, or an error with no video. |
| Compiler.Publish | src/lib/docker.ts:172-191 | Publishing succeeds exactly when copying the video to its public name works; a failed clean-up never fails it. Only a success carries the compilation id. |
| Compiler.SingleSceneOutcome | src/lib/docker.ts:125-200 | A success carries `/videos/<id>_<class>.mp4`, the matching output path and the id: the given id when truthy, else a fresh one. A failure carries an error and no video. A failure with an id is exactly the missing-video failure. |
| Compiler.SingleSceneCleanup | src/lib/docker.ts:172-191 | The script is unlinked exactly when the compilation succeeds. The scene's output directory is removed exactly when, in addition, that unlink worked. |
| Compiler.PublishCleanup | src/lib/docker.ts:172-191 | Publishing a found video unlinks the script exactly on success, and removes the directory only after the unlink worked. |
| Compiler.MissingVideoKeepsTempFiles | src/lib/docker.ts:161-170 | A video that cannot be located fails with `No video file generated for scene: C` and the id. Nothing is copied, unlinked or removed. |
| Compiler.ThrownFailureHasNoId | src/lib/docker.ts:192-199 | A throw during preparation fails with the error's message, or `Unknown compilation error`, with no id and no clean-up. |
| Compiler.CompilePrefix | src/lib/docker.ts:214-237 | While the scene loop runs, it holds one entry per video path. |
| Compiler.CompileMultipleScenes | src/lib/docker.ts:205-265 | Drawing the project id, then compiling and combining, gives the result and world the specification function defines. |
| Compiler.CompileAndCombineScenes | src/lib/docker.ts:211-256 | The scene loop, the early return on failure and the combine rule give the defined result. |
| Compiler.CompileScenes | src/lib/docker.ts:214-237 | The loop pushing `individualVideos` and `videoPaths`, with its early return, reaches the state of the fold over all scenes. |
| Compiler.StoppedStays | src/lib/docker.ts:222-228 | Once a scene fails, no later scene is compiled and the world stays as it was. |
| Compiler.CompileInProjectNames | src/lib/docker.ts:215-236 | Each scene is compiled with id `<projectId>_<class>`, so a success names its video after that id and the class. |
| Compiler.PrefixShape | src/lib/docker.ts:214-237 | A running loop holds one entry per scene, in order, with the predictable names. A stopped loop holds fewer entries than there are scenes, each the predicted entry of its scene. |
| Compiler.StoppedAt | src/lib/docker.ts:214-228 | A stopped loop stopped at one scene j. The loop was still running before j, and compiling j failed. The stop holds the entries before j, the error `Failed to compile scene C: ` followed by j's own error, and the world right after j's compilation. |
| Compiler.SceneFailureNamesScene | src/lib/docker.ts:226 | The failure message starts with `Failed to compile scene C: `. |
| Compiler.MultiSceneOutcome | src/lib/docker.ts:205-256 | On success every scene has its entry, in input order, with URL `/videos/<projectId>_<C>_<C>.mp4`. On failure the entries are those before the failing scene j. The loop was still running before j, and j's compilation failed. The error is exactly `Failed to compile scene C: ` followed by j's own error. |
| Compiler.MultiSceneSpec | src/lib/docker.ts:205-265 | The project succeeds exactly when no error is set, and a failed project has no combined URL. |
| Compiler.CombinedUrlRule | src/lib/docker.ts:239-256 | With combining on and several videos, the combined URL is ffmpeg's and is present only when ffmpeg succeeded. With exactly one video it is that video's URL, whatever the flag. Otherwise it is absent. |
| Compiler.NoScenes | src/lib/docker.ts:205-256 | No scenes gives success, no entries and no combined URL; only the project id is drawn. |
| Compiler.FailFast | src/lib/docker.ts:215-228 | With combining on or off, when scene k fails the whole run ends in the world right after that compilation. |
| Compiler.Basename | src/lib/docker.ts:284 | `path.basename` is the suffix after the last `/` and contains no separator. |
| Compiler.ManifestLines | src/lib/docker.ts:298-300 | The list file has one line per input. |
| Compiler.CombineCases | src/lib/docker.ts:270-315 | No input fails with `No videos to combine` and touches nothing. One input passes through as `/videos/<basename>` and touches nothing. Several inputs that succeed give `/videos/combined_<id>.mp4`, where id is the project id when truthy. |
| Compiler.ListFileKeptOnFfmpegFailure | src/lib/docker.ts:302-309 | The list file is unlinked only after ffmpeg returned; when ffmpeg throws, the written list file stays. |
| Compiler.ManifestRoundTrip | src/lib/docker.ts:298-302 | Split on newlines, the list file gives back one `file '<resolved path>'` line per input, in input order, when no resolved path holds a newline. |
| Compiler.CombineVideosFFmpeg | src/lib/docker.ts:270-315 | Every result is a video with its path and URL, or an error with no video, and never carries an id. With at most one input, nothing is touched. |
| Compiler.LegacyDispatch | src/lib/docker.ts:328-344 | With no class name and no scene class, the result is `No Scene class found in the code` and nothing is compiled. With no class name otherwise, the first extracted class is compiled with a fresh id. A given name is compiled as is. |
| Compiler.CompileManimCode | src/lib/docker.ts:328-344 | Every result is either a video with its path and URL, or an error with no video. |
| ExecuteRoute.MainFileInfos | src/app/api/execute/route.ts:65-69 | One descriptor per class, in order, each the file `main.py` with the whole code. |
| ExecuteRoute.FileInfos | src/app/api/execute/route.ts:115-121 | One descriptor per extracted class of a file, in extraction order, carrying the file's name and content. |
| ExecuteRoute.FirstWithoutScene | src/app/api/execute/route.ts:100-112 | The index found is the first file without a scene class; every file before it has one. |
| ExecuteRoute.CollectSceneInfos | src/app/api/execute/route.ts:93-122 | The nested loops with `push` and early return give the first file without a scene, or every descriptor, as the specification function defines. |
| ExecuteRoute.Post | src/app/api/execute/route.ts:20-173 | The handler's branches give the response and world the specification function defines. |
| ExecuteRoute.PostCode | src/app/api/execute/route.ts:27-89 | The single-code branch gives the defined response. |
| ExecuteRoute.PostScenes | src/app/api/execute/route.ts:92-154 | The scene-files branch gives the defined response. |
| ExecuteRoute.PostSpec | src/app/api/execute/route.ts:20-173 | The status is 200, 400 or 500, and it is 200 exactly when the body is not an error. A 400 is answered before anything is compiled. A body that cannot be read gives 500 and compiles nothing. |
| ExecuteRoute.CodeResponse | src/app/api/execute/route.ts:27-89 | The status is 200, 400 or 500, and it is 200 exactly when the body is not an error. A 400 is answered before anything is compiled. |
| ExecuteRoute.ScenesResponse | src/app/api/execute/route.ts:92-154 | The status is 200, 400 or 500, and it is 200 exactly when the body is not an error. A 400 is answered before anything is compiled. |
| ExecuteRoute.Dispatch | src/app/api/execute/route.ts:20-173 | A body that does not parse gives 500 `Internal server error`. A non-empty `scenes` wins over `code`. `code` alone is the single-file form, with `combineVideos` defaulting to true. Anything else, including `code` with `scenes: []`, gives 400 `Invalid request` and compiles nothing. |
| ExecuteRoute.CodeWithoutClass | src/app/api/execute/route.ts:27-40 | Code without a scene class gives 400 `No valid Scene class found` with the 200-character excerpt, and nothing is compiled. |
| ExecuteRoute.CodeWithOneClass | src/app/api/execute/route.ts:43-62 | One class is compiled alone. A failure gives 500 `Compilation failed` with the compiler's error and the class. A success gives the video URL and a one-element scene list. |
| ExecuteRoute.CodeWithSeveralClasses | src/app/api/execute/route.ts:64-71 | Several classes are compiled as one project: one `main.py` descriptor per class, in extraction order, with the request's combine flag. |
| ExecuteRoute.MultiResponseShape | src/app/api/execute/route.ts:73-88 | The answer is 500 `Multi-scene compilation failed` exactly when the project failed. On success `videoUrl` and `combinedVideo` are both the combined URL, which may be absent. |
| ExecuteRoute.DescriptorCount | src/app/api/execute/route.ts:114-122 | The flattened descriptor list has as many entries as there are classes over all files. |
| ExecuteRoute.AtLeastOnePerFile | src/app/api/execute/route.ts:124-132 | When every file has a scene class there are at least as many descriptors as files. |
| ExecuteRoute.ScenesRejectFirstFileWithoutScene | src/app/api/execute/route.ts:100-112 | The first file without a scene class gives 400 naming that file, and nothing is compiled. |
| ExecuteRoute.ScenesCompileAll | src/app/api/execute/route.ts:114-153 | When every file has a scene class, all descriptors are compiled in one project; `No scenes found in any files` cannot be answered. |
| ExecuteRoute.DescriptorsFromFiles | src/app/api/execute/route.ts:114-121 | Every descriptor is a class extracted from the file it names, with that file's content. |
| ExecuteRoute.DockerSingleScene | src/app/api/execute/route.ts:43-61 | With the pipeline's compiler, a one-class request that succeeds answers that class's video under a freshly drawn id. |
| FileExplorer.AllFiles | src/components/project/IDE.tsx:119-129 | The collected files are files, never folders. |
| FileExplorer.FilterItems | src/components/project/FileExplorer.tsx:68-87 | Filtering never lengthens a list. |
| FileExplorer.FilterItem | src/components/project/FileExplorer.tsx:70-85 | Each item becomes at most one survivor. |
| FileExplorer.BlankQueryShowsAll | src/components/project/FileExplorer.tsx:62-90 | A blank or white-space query shows the whole tree; any other query shows the filtered tree. |
| FileExplorer.VisibleTree | src/components/project/FileExplorer.tsx:62-90 | The shown tree never has more top-level items than the tree. |
| FileExplorer.FilterItemSurvives | src/components/project/FileExplorer.tsx:70-85 | A file survives exactly when its name contains the query, ignoring letter case, and survives unchanged. A folder survives exactly when its name matches or a child survives, and then holds the filtered children. |
| FileExplorer.FilterItemsMembership | src/components/project/FileExplorer.tsx:68-87 | The survivors of a list are exactly the survivors of its items. |
| FileExplorer.MatchSurvives | src/components/project/FileExplorer.tsx:71-84 | A list holding a matching file, at any depth, keeps a survivor. |
| FileExplorer.FilterComplete | src/components/project/FileExplorer.tsx:68-87 | Every item of the tree that survives on its own is in the filtered tree, at any depth. |
| FileExplorer.MatchingFileAndAncestorsSurvive | src/components/project/FileExplorer.tsx:68-87 | Every matching file survives, and so does every folder above it. |
| FileExplorer.FilterSound | src/components/project/FileExplorer.tsx:68-87 | Everything shown comes from an item of the tree that survives on its own; every file shown is a matching file of the tree. |
| FileExplorer.ToggleFolder | src/components/project/FileExplorer.tsx:94-103 | Toggling keeps the number of items. |
| FileExplorer.ToggleTwice | src/components/project/FileExplorer.tsx:94-103 | Toggling the same folder twice gives the tree back. |
| FileExplorer.ToggleKeepsFiles | src/components/project/FileExplorer.tsx:94-103 | Toggling keeps every file and their order. |
| FileExplorer.ToggleInPlace | src/components/project/FileExplorer.tsx:94-103 | Only folders with the id change, and only in `isOpen`; such a folder keeps its children, and every item keeps its kind, id and name. |
| FileExplorer.PythonFileAnyCase | src/components/project/FileExplorer.tsx:162-164 | A name is a Python file exactly when it ends in `.py` in any letter case. |
| FileExplorer.DropSepsCapitalizing | src/components/project/FileExplorer.tsx:117-120 | The derived class name holds no `_` or white space. |
| FileExplorer.PascalCaseMeaning | src/components/project/FileExplorer.tsx:117-120 | Split on runs of `_`/white space, capitalised and joined equals the name with separators dropped and each word's first character upper-cased. |
| FileExplorer.StripPy | src/components/project/FileExplorer.tsx:113-115 | One trailing `.py` is removed, and a name without one is kept. |
| FileExplorer.FindScenesFolder | src/components/project/FileExplorer.tsx:130-132 | The result is a top-level folder called `scenes`, and there is none when the tree has no such folder. |
| FileExplorer.AppendToFolder | src/components/project/FileExplorer.tsx:146-154 | Top-level folders with the id get the file as their last child; every other item is unchanged. |
| FileExplorer.PlaceAsWritten | src/components/project/FileExplorer.tsx:129-156 | As written, the tree keeps its number of top-level items: the new folder never reaches it. |
| FileExplorer.AddSceneAsWritten | src/components/project/FileExplorer.tsx:110-159 | As written, a non-blank name gives the new scene file, and the tree keeps its number of top-level items. |
| FileExplorer.AddSceneAsWrittenLosesFile | src/components/project/FileExplorer.tsx:129-156 | As written, a tree without a top-level `scenes` folder, and without a top-level folder that already has the new folder's id, comes back unchanged: the new file is selected but is not in the tree. |
| FileExplorer.AddSceneBlank | src/components/project/FileExplorer.tsx:111 | Adding does nothing exactly when the name is blank. |
| FileExplorer.NewSceneFileName | src/components/project/FileExplorer.tsx:113-127 | The new file is `file-<now>`, named after the scene with one `.py` stripped and then appended, so a `.py` name is kept. |
| FileExplorer.NewSceneFileClass | src/components/project/FileExplorer.tsx:117-125 | The new file declares a scene whose class is derived from the stripped name. |
| FileExplorer.ScenesFolderPlacement | src/components/project/FileExplorer.tsx:129-156 | The file goes last into a top-level `scenes` folder of the new tree: the first existing one, or a new one appended. Every top-level item keeps its place, id and name. |
| FileExplorer.PlacedFileOccurs | src/components/project/FileExplorer.tsx:129-156 | The placed file is in the new tree. |
| FileExplorer.AddSceneKeepsFile | src/components/project/FileExplorer.tsx:110-159 | With a non-blank name, the new scene file is selected and is in the new tree. |
| FileExplorer.PlaceInScenesFolder | src/components/project/FileExplorer.tsx:129-156 | The corrected placement adds at most one top-level item, the new folder. |
| FileExplorer.AddScene | src/components/project/FileExplorer.tsx:110-159 | A non-blank name gives the new scene file, and the tree gains at most one top-level item. |
| Ide.GetAllFiles | src/components/project/IDE.tsx:119-129 | The loop with recursive pushes gives every file of the tree in pre-order. |
| Ide.AllFilesExactlyTheFiles | src/components/project/IDE.tsx:119-129 | The collected items are exactly the files of the tree at any depth, and no folder. |
| Ide.FindFileById | src/components/project/IDE.tsx:103-116 | The search returns the first file with the id in pre-order, never a folder, and nothing when there is none. |
| Ide.DetectedUnique | src/components/project/IDE.tsx:153-175 | No class name is detected twice across the project. |
| Ide.DetectedComplete | src/components/project/IDE.tsx:153-175 | Every class of every `.py` file with content is detected. |
| Ide.DetectedSound | src/components/project/IDE.tsx:153-175 | Every detected scene comes from the first eligible file, in pre-order, that declares its class, and carries that file's name and full content. |
| Ide.DetectScenes | src/components/project/IDE.tsx:154-174 | The nested loops with the seen-set give the detected scenes the specification function defines. |
| Ide.UpdateFileContent | src/components/project/IDE.tsx:188-204 | The update keeps the number of items. |
| Ide.UpdateKeepsSkeleton | src/components/project/IDE.tsx:188-204 | Only file contents change: shape, ids, names and folder states stay. |
| Ide.UpdateFiles | src/components/project/IDE.tsx:188-204 | The files after the update are the files before, each updated in place, in the same order. |
| Ide.UpdateFileContentMeaning | src/components/project/IDE.tsx:188-204 | Files with the id hold the new content, every other file is as it was, and the tree keeps its shape. |
| Ide.SceneFileName | src/components/project/IDE.tsx:240 | The name ends in `.py`; it is the scene name exactly when that already ends in `.py`, and otherwise gains `.py`. |
| Ide.NewIdeSceneFileClass | src/components/project/IDE.tsx:235-252 | The class is derived from the whole scene name, with `.py` not stripped. |
| Ide.AddToProjectScenes | src/components/project/IDE.tsx:257-273 | The tree keeps its number of top-level items. |
| Ide.AddToProjectScenesPlacement | src/components/project/IDE.tsx:257-273 | The file goes last into `folder-scenes` directly inside the top-level `folder-project`. All other items are kept, and the project folder keeps its id, name, state and number of children. |
| Ide.AddToProjectScenesOccurs | src/components/project/IDE.tsx:257-273 | With such a folder, the new file is in the tree. |
| Ide.AddToProjectScenesWithoutProject | src/components/project/IDE.tsx:257-273 | Without a top-level `folder-project` the tree is unchanged. |
| Ide.Component.constructor | src/components/project/IDE.tsx:32-99 | The initial tree has `main.py` holding the page's code or the default, nothing is selected, no scenes are detected, and combining is on. |
| Ide.Component.RefreshScenes | src/components/project/IDE.tsx:153-175 | The detected scenes become those of all files of the current tree. |
| Ide.Component.SelectMainIfNone | src/components/project/IDE.tsx:178-185 | With nothing selected, `file-main` is selected if the tree has it; otherwise the selection stays. |
| Ide.Component.HandleCodeChange | src/components/project/IDE.tsx:207-226 | With a file open, the tree and the selection take the new code. The page is told the code exactly when the file is `file-main`. |
| Ide.Component.HandleFileSelect | src/components/project/IDE.tsx:229-231 | The file becomes the selection. |
| Ide.Component.SetCombineMode | src/components/project/IDE.tsx:402 | The switch sets the combine mode and nothing else. |
| Ide.Component.AddNewScene | src/components/project/IDE.tsx:234-277 | The new file joins the project's scenes folder and is selected. |
| Ide.Component.HandleMultiSceneRun | src/components/project/IDE.tsx:280-287 | There is no call exactly when no scene is detected; otherwise all detected scenes go out with the combine flag. |
| Ide.Component.HandleSingleSceneRun | src/components/project/IDE.tsx:290-311 | `file-main` uses the page's own run. Another file with content and a class runs its first class alone, without combining. Otherwise there is no call. |
| ProjectHook.FindFileByIdIsFirst | src/lib/project-hook.ts:111-124 | The search gives the first file node in depth-first order with the id, never a folder, and nothing when there is none. |
| ProjectHook.FindFileById | src/lib/project-hook.ts:111-124 | A node found is a file with the id, never a folder. |
| ProjectHook.UpdateKeepsSkeleton | src/lib/project-hook.ts:127-146 | The update keeps the tree's shape and every folder, including a folder with the id; only file contents change. |
| ProjectHook.UpdateFileNodes | src/lib/project-hook.ts:127-146 | The file nodes after the update are those before, each updated in place. |
| ProjectHook.UpdateFileSystemContentMeaning | src/lib/project-hook.ts:127-146 | File nodes with the id hold the new content, and all other file nodes are unchanged. |
| ProjectHook.UpdateFileSystemContent | src/lib/project-hook.ts:127-146 | The update keeps the number of top-level items. |
| ProjectHook.Flip | src/lib/project-hook.ts:153 | `!isOpen` is defined, and open exactly when the folder was not open; an absent state counts as closed. |
| ProjectHook.ToggleFolderState | src/lib/project-hook.ts:149-164 | Toggling keeps the number of top-level items. |
| ProjectHook.ToggleTwice | src/lib/project-hook.ts:149-164 | Toggling twice restores the tree when the folders it flips have a defined state. |
| ProjectHook.ToggleUndefinedState | src/lib/project-hook.ts:153 | A folder with no state opens on the first toggle and closes on the second, so two toggles do not restore it. |
| ProjectHook.ToggleKeepsFiles | src/lib/project-hook.ts:149-164 | Toggling keeps every file node and their order. |
| ProjectHook.ToggleInPlace | src/lib/project-hook.ts:149-164 | Only folders with the id change, and only in their open state; a flipped folder is not entered. |
| ProjectHook.TrySelectFirstFileIsFirst | src/lib/project-hook.ts:328-337 | The fallback is the first file node in depth-first order, if any. |
| ProjectHook.TrySelectFirstFile | src/lib/project-hook.ts:328-337 | The fallback is a file, never a folder. |
| ProjectHook.WithoutIdMembership | src/lib/project-hook.ts:388 | The filter keeps exactly the open files with another id. |
| ProjectHook.WithoutId | src/lib/project-hook.ts:388 | The filter never adds tabs. |
| ProjectHook.WithoutIdDropsId | src/lib/project-hook.ts:388 | After the filter no open file has the id. |
| ProjectHook.WithoutIdDistinct | src/lib/project-hook.ts:388 | The filter keeps open-file ids distinct. |
| ProjectHook.Or | src/lib/project-hook.ts:437-439 | `x \|\| fallback` is the value when present and non-empty, and otherwise the fallback. |
| ProjectHook.ScenesToRun | src/lib/project-hook.ts:433-442 | There are never more scenes to run than selected ids. |
| ProjectHook.ScenesToRunAppend | src/lib/project-hook.ts:433-442 | The scenes keep the order of the selection. |
| ProjectHook.ScenesToRunMembership | src/lib/project-hook.ts:433-442 | The scenes run are those of selected ids whose file exists with a name and content, each with the file's name, content and scene class (empty when absent). |
| ProjectHook.RunRequest | src/lib/project-hook.ts:421-485 | No request is sent exactly when neither a file nor a scene is selected. Selected scenes win, with the combine flag and at most one descriptor per id; otherwise the open file's code is sent. |
| ProjectHook.AfterRunMeaning | src/lib/project-hook.ts:456-505 | A run clears the error exactly when a successful reply carries a video, which is then shown. Otherwise a non-empty error is set and the previous video stays. |
| ProjectHook.AfterRun | src/lib/project-hook.ts:456-505 | An error is cleared only by a successful reply, whose video is then shown. When an error is set, the previous video stays. |
| ProjectHook.ActualPromptBlank | src/lib/project-hook.ts:547-552 | The prompt sent is blank exactly when both the argument, if any, and the typed prompt are blank. |
| ProjectHook.ReplyIsAssistants | src/lib/project-hook.ts:590-637 | The answer appended is always the assistant's and never empty. |
| ProjectHook.ReplyOutcome | src/lib/project-hook.ts:590-639 | Code is returned, and attached to the answer, exactly when a successful reply carries some. An error is shown exactly when the request threw or failed. |
| ProjectHook.ReplyTo | src/lib/project-hook.ts:590-639 | Returned code is non-empty, is attached to the answer, and comes with no error. When an error is shown, no code is returned or attached. |
| ProjectHook.Project.constructor | src/lib/project-hook.ts:166-318 | A fresh project: the given tree, no open files or selection, the `code` tab, and the greeting as the whole conversation. |
| ProjectHook.Project.SelectInitialFile | src/lib/project-hook.ts:321-345 | With nothing selected and a non-empty tree, `scene-1` is selected and opened if it is a file, else the first file. Otherwise nothing changes. Only `selectedFile` and `openFiles` may change; every other field of the hook's state stays as it was. |
| ProjectHook.Project.HandleFileSelect | src/lib/project-hook.ts:375-383 | The file is selected, and a tab is added only when none has its id, so tab ids stay distinct. Only `selectedFile` and `openFiles` may change; every other field of the hook's state stays as it was. |
| ProjectHook.Project.HandleCloseFile | src/lib/project-hook.ts:385-398 | Every tab with the id closes. A closed selected file gives way to the first remaining tab, or to no selection; otherwise the selection stays. Only `openFiles` and `selectedFile` may change; every other field of the hook's state stays as it was. |
| ProjectHook.Project.HandleCodeChange | src/lib/project-hook.ts:400-411 | Without a selection nothing changes; otherwise the tree and the selection take the new code. Only `fileSystem` and `selectedFile` may change; every other field of the hook's state stays as it was. |
| ProjectHook.Project.ToggleFolder | src/lib/project-hook.ts:413-418 | The tree becomes the toggled tree, and the tabs and selection stay. Only `fileSystem` may change; every other field of the hook's state stays as it was. |
| ProjectHook.Project.SetSelectedScenes | src/lib/project-hook.ts:682 | The selected scenes become the given ids, and the state stays valid. Only `selectedScenes` may change; every other field of the hook's state stays as it was. |
| ProjectHook.Project.SetCombineScenes | src/lib/project-hook.ts:683 | The combine flag becomes the given value. Only `combineScenes` may change; every other field of the hook's state stays as it was. |
| ProjectHook.Project.SetPrompt | src/lib/project-hook.ts:672 | The prompt becomes the given text. Only `prompt` may change; every other field of the hook's state stays as it was. |
| ProjectHook.Project.HandleRunAnimation | src/lib/project-hook.ts:421-507 | With no file and no scenes selected, the error is `No file or scenes selected to run.` and no request is sent. Otherwise the scenes request, or else the open file's code, is sent, the preview tab shows, and the reply decides the video and the error. Only `error`, `isExecuting`, `activeTab` and `videoUrl` may change; every other field of the hook's state stays as it was. |
| ProjectHook.Project.HandleSendMessage | src/lib/project-hook.ts:545-645 | A blank prompt, or a manual prompt repeating the last user message, changes nothing. Otherwise the user's message and the answer are appended, a manual send clears the input, and the code, if any, is returned. The conversation only grows. Only `conversation`, `prompt`, `isGenerating` and `error` may change; every other field of the hook's state stays as it was. |
| ProjectHook.Project.Send | src/lib/project-hook.ts:566-642 | The user's message, then the answer, are appended; the reply sets the error and the returned code. Only `conversation`, `prompt`, `isGenerating` and `error` may change; every other field of the hook's state stays as it was. |
| Gemini.RequestText | src/lib/gemini.ts:12-21 | The request text starts with the system prompt and ends with the user's prompt. |
| Gemini.FencedBlock | src/lib/gemini.ts:39-40 | A capture is the text between an opener and a closing fence after it. |
| Gemini.FencedBlockIsLeftmostShortest | src/lib/gemini.ts:39-40 | The capture is the regular expression's: no match starts earlier, the capture is the shortest from its start, and there is none only when nothing matches. |
| Gemini.ExtractCode | src/lib/gemini.ts:39-44 | The code is the whole text, a python block's capture or a plain block's capture; when it differs from the text it is non-empty. |
| Gemini.ExtractCodeChoice | src/lib/gemini.ts:39-44 | A python block decides even when its capture is empty, in which case the whole text is used. Otherwise a plain block decides, and otherwise the whole text is used. |
| Gemini.WithBackground | src/lib/gemini.ts:45-47 | Code that mentions `config.background_color` is kept; other code gets the dark-background prefix. |
| Gemini.WithBackgroundSetsColour | src/lib/gemini.ts:45-49 | The returned code always contains `config.background_color`. |
| Gemini.WithBackgroundIdempotent | src/lib/gemini.ts:45-47 | Adding the prefix twice is the same as once. |
| Gemini.GenerateManimCodeOutcome | src/lib/gemini.ts:7-57 | A missing or empty key fails with `GEMINI_API_KEY is not set`, whatever the reply. A reply without a first candidate fails with `Invalid response from Gemini API`. A success is the first candidate's extracted code, which sets the background. |
| Gemini.GenerateManimCode | src/lib/gemini.ts:7-57 | A success needs a non-empty key, and its code sets the background colour. A transport error is always a failure. |
| Text.TrimEmptyIffAllSpace | src/components/project/FileExplorer.tsx:63 | `trim()` is empty exactly when every character is white space. |
| Text.NatToStringRoundTrip | src/lib/project-hook.ts:459 | The printed status reads back as the number. |

## Left out

- Docker, ffmpeg, `execSync` and the file system are oracle answers (`Compiler.Env`) that depend only on the call's arguments; only whether the image exists is tracked across calls. Timing, concurrency and a disk that changes between calls are not modelled.
- `crypto.randomUUID` and `Date.now` are parameters: an id source indexed by the number of draws, and a `now` string.
- `path.join` normalisation and `path.resolve` are not modelled: joining concatenates with `/`, and resolving is an oracle. `Compiler.Basename` does not model a trailing slash.
- The directories created when `src/lib/docker.ts` is loaded (lines 17-23) are not modelled.
- `fs.rmSync`'s `force` option is modelled as an oracle answer like any other call.
- The outer `catch` of `compileMultipleScenes` (src/lib/docker.ts:257-264) is not modelled. Nothing in its `try` block can throw, because `compileSingleScene` and `combineVideosFFmpeg` catch everything themselves.
- Logging with `console` is not modelled.
- `GET /api/execute` is not modelled. It only builds `/videos/<id>` or answers 400 when the id is missing.
- Every throw inside the `try` block of `POST` is the `Malformed` request, answered with 500. That covers a body that fails to parse, a JSON `null` body (reading `code` from it throws) and a `scenes` value that is not iterable. The compile functions passed in return values.
- ExtractedNames: a name is returned exactly when one of the four patterns captures it (`Matches`). It is not proved that every `class NAME(Base)` declaration in the text is captured: that needs a completeness proof of the hand-written matcher. The other direction, that every capture is such a declaration, is `ScanSound`.
- `handleAddScene` reads `Date.now()` once for the file id and again for the folder id. The model uses one `now` for both.
- `toLowerCase` and `toUpperCase` map ASCII letters only. Other characters are kept as they are.
- The component's copy of the scene scanner is the compile service's `SceneClassesOf`: the two texts are identical. `ExecuteRoute` takes the scanner as part of its `Backend`.
- The request to the language model, and the network calls to `/api/execute` and `/api/generate`, are not modelled. Their replies (`ExecuteOutcome`, `GenerateOutcome`, `ModelResponse`) are inputs.
- The API key read when `src/lib/gemini.ts` loads is a parameter.
- A reply whose first candidate lacks `content.parts[0].text` would make `match` throw a `TypeError`. That case is not modelled: a reply is its candidates' first-part texts.
- `localStorage` loading and saving in the hook are not modelled. `ProjectHook.Project.constructor` takes the tree, the saved one or the sample, as a parameter.
- `handleSaveCode`, `handleDownload` and `handleSetVideoUrl` are not modelled. They only call `alert`, the DOM or a setter.
- `handleMultiSceneRun` in the hook is not modelled separately. It only awaits `handleRunAnimation`.
- The request body `handleSendMessage` posts, including `currentCode`, is not modelled. Only the handling of its reply is.
- React's batching of state updates is modelled as each handler's updates applied in order to the current state. The effects are methods the caller invokes after a change.
- The JSX, and state used only for display (`showSceneList`, `isAddingScene`, the search box's text), are not modelled.
- FileExplorer's `toggleFolder` applies the same `updateItem` to the shown tree and to the filtered tree; the model gives that function once.
- `Ide.Component.AddNewScene`: the IDE passes `addNewScene` to the explorer only as the flag that shows the add button (src/components/project/FileExplorer.tsx:235), so nothing calls it. It is modelled as written.
- The hook sends scene descriptors as `{fileName, className, content}`, while the route reads `name` from each file. The two are not reconciled: each function is modelled against its own types.

## Findings

| source | as written | input that shows it | evidently intended | confidence | as-written member | corrected member |
|---|---|---|---|---|---|---|
| src/components/project/FileExplorer.tsx:129-156 | With no top-level `scenes` folder, a new folder is queued with a functional update. It is then overwritten by `setFileSystem(updatedFileSystem)`, which maps the stale tree, where no item has the new folder's id. The new file is selected but appears in no folder, and the new folder is lost. | an empty tree, or any tree without a top-level folder named `scenes`, and the scene name `intro` | the new `scenes` folder is appended, holding the new file | not executed | FileExplorer.AddSceneAsWrittenLosesFile | FileExplorer.AddSceneKeepsFile |
