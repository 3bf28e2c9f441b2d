/**
  The task module built by `main` in index.js: the source configuration
  (caller-supplied `sources` overlaid on fixed defaults), the four per-kind
  tasks that all write into one output root, the composed `default`, `build`
  and watch graphs, and the set of tasks handed back to the caller.
*/
module PluginTasks {
  import opened Common
  import NodePath
  import opened Combinators

  /**
    A JavaScript object of optional strings: a key that is present maps to
    `Some(s)`, or to `None` when the property is present but `undefined`.
  */
  type Props = map<string, Option<string>>

  const DefaultOutputDir: string := "./plugins"
  const SassGlob: string := "./src/**/*.scss"
  const TiddlersGlob: string := "./src/**/*.tid"
  const JsGlob: string := "./src/**/*.js"
  const PluginInfoGlob: string := "./src/plugin.info"
  const WatchGlob: string := "./src/**"

  /** The keys of the default source configuration. */
  const SourceKeys: set<string> := {"sass", "tiddlers", "js", "pluginInfo", "output"}

  /** The argument of `main`: `sources` and `outputDir` may be left undefined. */
  datatype Config = Config(author: string, pluginName: string, sources: Option<Props>, outputDir: Option<string>)

  /** The property `key` of an object, `undefined` when it is missing. */
  function Lookup(obj: Props, key: string): (v: Option<string>)
    ensures key in obj ==> v == obj[key]
    ensures key !in obj ==> v == None
  {
    if key in obj then obj[key] else None
  }

  /** The default source configuration for an output directory, author and plugin name. */
  function Defaults(outputDir: string, author: string, pluginName: string): (d: Props)
    ensures d.Keys == SourceKeys
    ensures forall k :: k in d ==> d[k].Some?
  {
    map[
      "sass" := Some(SassGlob),
      "tiddlers" := Some(TiddlersGlob),
      "js" := Some(JsGlob),
      "pluginInfo" := Some(PluginInfoGlob),
      "output" := Some(NodePath.Join([outputDir, author, pluginName]))
    ]
  }

  /**
    The object spread `{ ...defaults, ...overrides }`: every property the
    caller supplies wins, even an `undefined` one; every other property keeps
    its default; spreading an `undefined` object adds nothing.
  */
  function Merge(defaults: Props, overrides: Option<Props>): (r: Props)
    ensures r.Keys == defaults.Keys + (if overrides.Some? then overrides.value.Keys else {})
    ensures overrides.Some? ==> forall k :: k in overrides.value ==> r[k] == overrides.value[k]
    ensures forall k :: k in defaults && (overrides.None? || k !in overrides.value) ==> r[k] == defaults[k]
  {
    match overrides
    case None => defaults
    case Some(o) => defaults + o
  }

  /** The output directory `main` uses: `./plugins` unless the caller gives one. */
  function OutputDir(c: Config): (r: string)
    ensures c.outputDir.Some? ==> r == c.outputDir.value
    ensures c.outputDir.None? ==> r == DefaultOutputDir
  {
    c.outputDir.GetOr(DefaultOutputDir)
  }

  /** The `sources` object `main` builds and logs. */
  function Sources(c: Config): (s: Props)
    ensures SourceKeys <= s.Keys
  {
    Merge(Defaults(OutputDir(c), c.author, c.pluginName), c.sources)
  }

  /** Whether the caller's `sources` object has the property `key`. */
  predicate Supplies(c: Config, key: string)
  {
    c.sources.Some? && key in c.sources.value
  }

  /** For every key the caller supplies, the merged value is the caller's. */
  lemma SourcesCallerWins(c: Config, key: string)
    requires Supplies(c, key)
    ensures Sources(c)[key] == c.sources.value[key]
  {
  }

  /** For every key the caller omits, the merged value is the default. */
  lemma SourcesDefaults(c: Config)
    ensures !Supplies(c, "sass") ==> Sources(c)["sass"] == Some("./src/**/*.scss")
    ensures !Supplies(c, "tiddlers") ==> Sources(c)["tiddlers"] == Some("./src/**/*.tid")
    ensures !Supplies(c, "js") ==> Sources(c)["js"] == Some("./src/**/*.js")
    ensures !Supplies(c, "pluginInfo") ==> Sources(c)["pluginInfo"] == Some("./src/plugin.info")
    ensures !Supplies(c, "output") ==> Sources(c)["output"] == Some(NodePath.Join([OutputDir(c), c.author, c.pluginName]))
  {
  }

  /**
    Without an `output` from the caller, the output root is the output
    directory joined with the author and the plugin name; with plain names these
    are its last two segments, and by default it is `plugins/<author>/<pluginName>`.
  */
  lemma DefaultOutputRoot(c: Config)
    requires !Supplies(c, "output")
    requires NodePath.PlainSegment(c.author) && NodePath.PlainSegment(c.pluginName)
    ensures Sources(c)["output"].Some?
    ensures var segs := NodePath.Split(Sources(c)["output"].value);
      |segs| >= 2 && segs[|segs| - 2..] == [c.author, c.pluginName]
    ensures c.outputDir == None ==> Sources(c)["output"] == Some("plugins" + "/" + c.author + "/" + c.pluginName)
  {
    NodePath.JoinEndsWithNames(OutputDir(c), c.author, c.pluginName);
    if c.outputDir == None {
      NodePath.JoinDefaultOutput(c.author, c.pluginName);
    }
  }

  /**
    The output root is not always namespaced: an author named ".." with the
    default output directory sends the plugin to `<pluginName>`, outside `plugins`.
  */
  lemma ParentAuthorEscapesOutputDir(c: Config)
    requires !Supplies(c, "output") && c.outputDir == None
    requires c.author == ".." && NodePath.PlainSegment(c.pluginName)
    ensures Sources(c)["output"] == Some(c.pluginName)
  {
    NodePath.JoinDefaultOutputParent(c.pluginName);
  }

  /** A per-kind task: `gulp.src(glob)`, then its transform stages in order, then `gulp.dest(dest)`. */
  datatype KindTask = KindTask(glob: Option<string>, stages: seq<string>, dest: Option<string>)

  /** The names of the four per-kind tasks. */
  const KindNames: set<string> := {"tiddlers", "js", "sass", "processPluginInfo"}

  /**
    The per-kind tasks of index.js, each reading its own glob from the
    sources and all writing to the same `sources.output` root.
  */
  function KindTasks(sources: Props): (t: map<string, KindTask>)
    ensures t.Keys == KindNames
    ensures forall n :: n in t ==> t[n].dest == Lookup(sources, "output")
    ensures t["sass"].glob == Lookup(sources, "sass") && t["tiddlers"].glob == Lookup(sources, "tiddlers")
    ensures t["js"].glob == Lookup(sources, "js") && t["processPluginInfo"].glob == Lookup(sources, "pluginInfo")
  {
    var out := Lookup(sources, "output");
    map[
      "sass" := KindTask(Lookup(sources, "sass"), ["sass", "annotateCss"], out),
      "tiddlers" := KindTask(Lookup(sources, "tiddlers"), [], out),
      "js" := KindTask(Lookup(sources, "js"), ["javascript"], out),
      "processPluginInfo" := KindTask(Lookup(sources, "pluginInfo"), ["pluginInfo"], out)
    ]
  }

  /** `gulp.parallel(tiddlers, js, sass, processPluginInfo)`. */
  const DefaultTask: TaskGraph := Parallel([Leaf("tiddlers"), Leaf("js"), Leaf("sass"), Leaf("processPluginInfo")])

  /** `gulp.series(defaultTask, buildTw)`. */
  const BuildTask: TaskGraph := Series([DefaultTask, Leaf("buildTw")])

  /** `gulp.series(defaultTask, stopAnyRunningServer, serve)`, run on every change. */
  const WatchChain: TaskGraph := Series([DefaultTask, Leaf("stopAnyRunningServer"), Leaf("serve")])

  /** A `gulp.watch(glob, { ignoreInitial }, onChange)` registration. */
  datatype Watcher = Watcher(glob: string, ignoreInitial: bool, onChange: TaskGraph)

  /** What the returned object holds under one name: a composed task, or the `watch` task. */
  datatype Exported = Task(graph: TaskGraph) | Watch(watcher: Watcher)

  /** The result of `main`: the merged sources, the per-kind tasks and the returned object. */
  datatype TaskModule = TaskModule(sources: Props, kinds: map<string, KindTask>, exports: map<string, Exported>)

  /** The leaves of `default` are exactly the four per-kind tasks. */
  lemma DefaultTaskLeaves()
    ensures Leaves(DefaultTask) == ["tiddlers", "js", "sass", "processPluginInfo"]
    ensures forall n :: n in Leaves(DefaultTask) <==> n in KindNames
  {
    var cs := DefaultTask.children;
    assert cs[1..][1..][1..][1..] == [];
  }

  /** The names under which `main` returns its tasks. */
  const ExportNames: set<string> := {"tiddlers", "sass", "serve", "watch", "build", "default"}

  /** `main(config)`. */
  function CreateTasks(c: Config): (m: TaskModule)
    ensures m.exports.Keys == ExportNames
    ensures m.kinds.Keys == KindNames
    ensures "output" in m.sources
    ensures forall n :: n in m.kinds ==> m.kinds[n].dest == m.sources["output"]
  {
    var sources := Sources(c);
    assert "output" in sources;
    TaskModule(
      sources,
      KindTasks(sources),
      map[
        "tiddlers" := Task(Leaf("tiddlers")),
        "sass" := Task(Leaf("sass")),
        "serve" := Task(Leaf("serve")),
        "watch" := Watch(Watcher(WatchGlob, false, WatchChain)),
        "build" := Task(BuildTask),
        "default" := Task(DefaultTask)
      ])
  }

  /** `js` and `processPluginInfo` are per-kind tasks that run only inside `default`, never exported. */
  lemma ExportsHideInternalTasks(c: Config)
    ensures "js" in CreateTasks(c).kinds && "js" !in CreateTasks(c).exports
    ensures "processPluginInfo" in CreateTasks(c).kinds && "processPluginInfo" !in CreateTasks(c).exports
  {
    assert "js"[0] == 'j' && "processPluginInfo"[0] == 'p';
    forall k | k in ExportNames ensures k[0] != 'j' && k[0] != 'p' {
    }
  }

  /**
    `default` is the bare parallel group, `build` the chain ending in
    `buildTw`, and `watch` registers the watch chain on the source tree glob with
    `ignoreInitial: false`, so that it also runs once at start.
  */
  lemma ExportedGraphs(c: Config)
    ensures CreateTasks(c).exports["default"] == Task(DefaultTask)
    ensures CreateTasks(c).exports["build"] == Task(Series([DefaultTask, Leaf("buildTw")]))
    ensures CreateTasks(c).exports["watch"].Watch?
    ensures CreateTasks(c).exports["watch"].watcher == Watcher("./src/**", false, WatchChain)
  {
  }

  /** Whether the four per-kind tasks all succeed. */
  predicate KindsSucceed(succeeds: string -> bool)
  {
    succeeds("tiddlers") && succeeds("js") && succeeds("sass") && succeeds("processPluginInfo")
  }

  /** `default` starts all four per-kind tasks, whatever their outcome, and succeeds when all four do. */
  lemma DefaultTaskRuns(succeeds: string -> bool)
    ensures Execute(DefaultTask, succeeds).started == ["tiddlers", "js", "sass", "processPluginInfo"]
    ensures Execute(DefaultTask, succeeds).ok <==> KindsSucceed(succeeds)
  {
    ParallelOfLeaves(DefaultTask.children, succeeds);
    DefaultTaskLeaves();
    var four := Leaves(DefaultTask);
    assert AllSucceed(four, succeeds) <==> KindsSucceed(succeeds) by {
      if KindsSucceed(succeeds) {
        forall i | 0 <= i < |four| ensures succeeds(four[i]) {
        }
      }
      if AllSucceed(four, succeeds) {
        assert succeeds(four[0]) && succeeds(four[1]) && succeeds(four[2]) && succeeds(four[3]);
      }
    }
  }

  /** `build` starts `buildTw` only after `default` completed successfully, and last. */
  lemma BuildRunsBuildTwLast(succeeds: string -> bool)
    ensures "buildTw" in Execute(BuildTask, succeeds).started <==> KindsSucceed(succeeds)
    ensures KindsSucceed(succeeds) ==>
      Execute(BuildTask, succeeds).started == ["tiddlers", "js", "sass", "processPluginInfo", "buildTw"]
    ensures Execute(BuildTask, succeeds).ok <==> KindsSucceed(succeeds) && succeeds("buildTw")
  {
    DefaultTaskRuns(succeeds);
    SeriesThenLeaf(DefaultTask, "buildTw", succeeds);
  }

  /**
    The watch chain runs `default`, then `stopAnyRunningServer`, then `serve`,
    and the first failure stops the rest.
  */
  lemma WatchChainOrder(succeeds: string -> bool)
    ensures var four := ["tiddlers", "js", "sass", "processPluginInfo"];
      Execute(WatchChain, succeeds).started
        == if !KindsSucceed(succeeds) then four
           else if !succeeds("stopAnyRunningServer") then four + ["stopAnyRunningServer"]
           else four + ["stopAnyRunningServer", "serve"]
    ensures Execute(WatchChain, succeeds).ok
      <==> KindsSucceed(succeeds) && succeeds("stopAnyRunningServer") && succeeds("serve")
  {
    DefaultTaskRuns(succeeds);
    SeriesThenLeaves(DefaultTask, "stopAnyRunningServer", "serve", succeeds);
  }
}
