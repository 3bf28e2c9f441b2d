# gulp-tw core, modelled in Dafny

gulp-tw builds TiddlyWiki plugins with gulp. This project models its two
pieces of logic that are independent of gulp's plumbing.

**The meta-header bundler** (`src/metaBundle.js`, module `MetaBundle`).
It works on every vinyl file record in a stream:
- It looks for a shadow metadata file at the record's path with `.meta`
  appended.
- If the shadow exists, the record's base name gains `.tid`. Its content
  becomes the metadata, a blank line, the old content and a final newline.
- If the shadow is missing, a warning names the record's relative path and
  the record passes through unchanged.
- In both cases the continuation is called once, with no error.

A record is a class: the iterator renames it by rewriting its `basename`, and
the stream driver stores the continuation's content as its `contents`.
The filesystem is a read-only class over a map from paths to contents. The
iterator is a method, proved equal to the pure function `Iterate`. The stream
driver is a loop over the records.

**The task module built by `main`** (`index.js`).
- `PluginTasks` covers:
  - the `sources` object: the caller's `sources` spread over the defaults;
  - the output root `path.join(outputDir, author, pluginName)`, where
    `outputDir` defaults to `./plugins`;
  - the four per-kind tasks, which all write to `sources.output`;
  - the `default`, `build` and watch graphs;
  - the object `main` returns.
- `NodePath` models the POSIX `path.join` and `path.normalize` that the output
  root relies on.
- `Combinators` models `gulp.parallel` and `gulp.series` as a task-graph
  datatype with an abstract executor:
  - a leaf's outcome is a parameter;
  - a parallel group starts every member;
  - a series stops at its first failure.

Details of the code's behaviour:
- The info line "Adding meta header: " is logged for every record before the
  shadow lookup, not only when a merge happens. A record without a shadow
  file therefore logs two lines: the info line, then the warning.
- The object spread lets every property the caller supplies win, including
  one that is present but `undefined`. The model writes such a property as
  `None`.
- `sources` has the keys `sass`, `tiddlers`, `js`, `pluginInfo` and `output`.
- For plain author and plugin names (non-empty, not `.` or `..`, no `/`),
  the last two segments of the output root are the author and the plugin
  name. Other names need not give such a root: for example, an author named
  `..` with the default output directory puts the root at `<pluginName>`,
  outside `plugins`.

## Model

| member | source | states |
|---|---|---|
| MetaBundle.ShadowPath | src/metaBundle.js:25 | the path looked up is the record's path followed by exactly `.meta` |
| MetaBundle.ShadowPathInjective | src/metaBundle.js:25 | distinct record paths have distinct shadow paths, and the converse |
| MetaBundle.Bundle | src/metaBundle.js:30-33 | the bundled content is three characters longer than the header and the content together |
| MetaBundle.UnbundleBundle | src/metaBundle.js:30-33 | a bundled text splits back into exactly the header and the content it was built from |
| MetaBundle.BundleUnbundle | src/metaBundle.js:30-33 | any text that splits at a header length is the bundle of its two parts |
| MetaBundle.Iterate | src/metaBundle.js:19-39 | the continuation error is always absent; the base name gains `.tid` if and only if the shadow file exists, and changes in no other way; the warnings are one naming the relative path when the shadow is missing, and none otherwise |
| MetaBundle.IterateWithShadow | src/metaBundle.js:27-34 | with a shadow file, the base name gains `.tid`; the continuation gets no error and the shadow's content, a blank line, the old content and a newline; that content splits back into the two parts; nothing is warned |
| MetaBundle.IterateWithoutShadow | src/metaBundle.js:23-37 | with no shadow file: the content and base name pass through unchanged; the error is null; the one warning names the relative path captured before the lookup; the info line comes first |
| MetaBundle.Apply | src/metaBundle.js:28 | the record leaving the iterator keeps its directory and relative directory; only its base name and content change |
| MetaBundle.ApplyMovesRecord | src/metaBundle.js:28 | renaming moves the record: with a shadow file, its path and relative path both gain `.tid` |
| MetaBundle.ApplyIdempotent | src/metaBundle.js:25-28 | a second pass over a bundled record changes nothing, unless a shadow file exists at its new `.tid` path |
| MetaBundle.MissingMetaWarning | src/metaBundle.js:36 | the warning text contains the record's relative path, at a fixed position after "File " |
| MetaBundle.MissingMetaWarningInjective | src/metaBundle.js:36 | distinct relative paths give distinct warnings, so each warning identifies its record |
| MetaBundle.WarningsComeFromLog | src/metaBundle.js:36 | every warning text that is counted comes from a warning line actually logged |
| MetaBundle.StepWarnings | src/metaBundle.js:35-36 | one record produces one missing-meta warning when it has no shadow file, and none otherwise |
| MetaBundle.StreamWarnings | src/metaBundle.js:36 | over a whole stream, the warnings are exactly one per record without a shadow file, naming its relative path, in stream order |
| MetaBundle.FileSystem.ExistsSync | src/metaBundle.js:27 | reports whether a file exists at the path, and changes nothing |
| MetaBundle.FileSystem.ReadFileSync | src/metaBundle.js:29 | returns the content of the file at the path, and changes nothing |
| MetaBundle.Iterator | src/metaBundle.js:19-39 | the new base name, the continuation call and the log lines are those `Iterate` gives for the record's original location; the filesystem is unchanged |
| MetaBundle.BundleRecord | src/metaBundle.js:34-37 | the record afterwards holds the iterator's new base name and the content passed to the continuation |
| MetaBundle.ProcessStream | src/metaBundle.js:41 | every record in the stream is replaced by its bundled form; the log is every record's lines in stream order; the filesystem is unchanged |
| NodePath.Normalize | index.js:33 | Node's `path.normalize`, which `path.join` applies: the result is never empty, and is absolute exactly when the input is |
| NodePath.Join | index.js:33 | `path.join`: with no non-empty argument the result is "."; otherwise it is absolute exactly when the first non-empty argument is. JoinUnderDirectory and JoinEndsWithNames give its value for the output root, and JoinSplit/SplitJoin relate its segments to the string |
| NodePath.JoinUnderDirectory | index.js:33 | for author and plugin names that are non-empty, not `.` or `..`, and contain no `/`: `path.join(dir, author, pluginName)` is the directory's normalized segments followed by the two names, with a leading `/` kept |
| NodePath.JoinEndsWithNames | index.js:33 | for author and plugin names that are non-empty, not `.` or `..`, and contain no `/`: the last two segments of the output root are the author and the plugin name |
| NodePath.JoinDefaultOutput | index.js:25-33 | for author and plugin names that are non-empty, not `.` or `..`, and contain no `/`: with the default `./plugins`, the output root is `plugins/<author>/<pluginName>` |
| NodePath.JoinParentOfDirectory | index.js:33 | a `..` name climbs out of a one-segment relative directory: `path.join(dir, '..', b)` is `b` |
| NodePath.JoinDefaultOutputParent | index.js:25-33 | `path.join('./plugins', '..', b)` is `b`, outside `plugins` |
| Combinators.Execute | index.js:65-69 | a task graph succeeds exactly when all its leaves succeed, and then every leaf has been started in order; only its own leaves are ever started |
| Combinators.ExecuteParallel | index.js:65 | a parallel group succeeds exactly when every leaf of every member succeeds |
| Combinators.ExecuteSeries | index.js:66-69 | a series succeeds exactly when every leaf of every member succeeds, and then all have started in order |
| Combinators.SeriesStopsAtFirstFailure | index.js:69 | when member `i` is the first to fail, the series fails and runs as if the members after `i` were absent |
| Combinators.ParallelStartsEveryMember | index.js:65 | every leaf a member of a parallel group starts is started by the group, whatever its siblings do |
| Combinators.ParallelOfLeaves | index.js:65 | a parallel group of leaves starts all of them in order, whatever their outcomes |
| Combinators.SeriesThenLeaf | index.js:66 | in `series(g, x)`, the leaf `x` runs only after `g` succeeds, and runs last |
| Combinators.SeriesThenLeaves | index.js:69 | in `series(g, x, y)`, `x` then `y` run after `g`, and the first failure stops the rest |
| PluginTasks.OutputDir | index.js:25 | the output directory is the caller's `outputDir`, or `./plugins` when it is undefined |
| PluginTasks.Defaults | index.js:28-34 | the defaults define exactly `sass`, `tiddlers`, `js`, `pluginInfo` and `output`, each with a value |
| PluginTasks.Merge | index.js:35 | the object spread keeps the union of both key sets; every key the caller supplies takes the caller's value; every other key keeps its default |
| PluginTasks.Sources | index.js:28-35 | the merged `sources` always define all five default keys |
| PluginTasks.SourcesCallerWins | index.js:35 | every key the caller supplies, `output` included, takes the caller's value |
| PluginTasks.SourcesDefaults | index.js:28-35 | every key the caller omits takes its default glob, or the joined output root |
| PluginTasks.DefaultOutputRoot | index.js:25-33 | for author and plugin names that are non-empty, not `.` or `..`, and contain no `/`: without a caller `output`, the output root ends with the author and the plugin name; without `outputDir` it is `plugins/<author>/<pluginName>` |
| PluginTasks.ParentAuthorEscapesOutputDir | index.js:25-33 | with an author named `..`, the default output directory and no caller `output`, the output root is the plugin name alone, outside `plugins` |
| PluginTasks.KindTasks | index.js:40-63 | there are exactly four per-kind tasks; each reads its own key's glob, and all write to the same `sources.output` |
| PluginTasks.DefaultTaskLeaves | index.js:65 | `default` has exactly the leaves tiddlers, js, sass and processPluginInfo, in that order |
| PluginTasks.CreateTasks | index.js:25-80 | `main` returns exactly the names tiddlers, sass, serve, watch, build and default; every per-kind task writes to the merged `output` |
| PluginTasks.ExportsHideInternalTasks | index.js:72-79 | `js` and `processPluginInfo` are per-kind tasks, but they are not returned |
| PluginTasks.ExportedGraphs | index.js:65-79 | `default` is the parallel group; `build` is `series(default, buildTw)`; `watch` watches `./src/**` with `ignoreInitial` false, running the watch chain |
| PluginTasks.DefaultTaskRuns | index.js:65 | `default` starts all four per-kind tasks, and succeeds exactly when all four do |
| PluginTasks.BuildRunsBuildTwLast | index.js:66 | `buildTw` starts if and only if all four per-kind tasks succeed, and it is the last task started |
| PluginTasks.WatchChainOrder | index.js:68-70 | the watch chain runs `default`, then `stopAnyRunningServer`, then `serve`, and the first failure stops the rest |

## Left out

- The `read-vinyl-file-stream` driver and gulp's stream plumbing (`gulp.src`, `.pipe`, `gulp.dest`) are library code. `ProcessStream` maps the iterator over a sequence of records in order. The driver's error path is absent, because the iterator never passes an error.
- MetaBundle.ProcessStream requires the records to be distinct objects. A stream in which one vinyl object appears twice is not modelled.
- MetaBundle.FileSystem.ReadFileSync requires the path to exist. Between `existsSync` and `readFileSync`, a shadow file that disappears would make the read throw; that race is not modelled.
- MetaBundle.FileSystem.ExistsSync is membership in a map of files. `fs.existsSync` is also true for a directory, and that case is not modelled.
- Character encodings are left out: contents are strings, and `'utf-8'` decoding is taken to be the identity.
- The log lines of `fancy-log` are returned as values, without timestamps or console output. The `console.log` of the merged sources in `main` is not modelled.
- The real concurrency of `gulp.parallel` is left out. The model starts the members left to right, with no interleavings and no cancellation; only the outcome and the set of started tasks are modelled.
- `gulp.watch`, its file-event loop and debouncing are left out. `watch` is modelled as the registration of a glob, an `ignoreInitial` flag and the chain to run.
- `serve`, `stopAnyRunningServer` and `buildTw` from `src/tiddlywiki` are opaque leaf tasks; src/tiddlywiki is not part of this model.
- The Sass compiler, `annotateCss`, the `javascript` transform and the `pluginInfo` stage are opaque stage names inside a per-kind task. Their code is not part of this model.
- NodePath.Join covers only string arguments. Node's type check of the arguments and the Windows path flavour are left out.
- PluginTasks.Merge takes the caller's `sources` as a map of optional strings. Values that are not strings are not modelled.
