/**
  The meta-header bundler of src/metaBundle.js.

  For every file record flowing through the stream, the iterator looks up a
  "shadow" metadata file whose path is the record's path with `.meta`
  appended. When it exists, the record's base name gains the `.tid` extension
  and its content becomes the metadata, a blank line, the content and a final
  newline. When it does not, a warning names the record's relative path and the
  record passes through untouched. Either way the stream continuation is called
  exactly once, with no error.

  A record behaves like a vinyl file: its path and relative path are its
  directory prefixes followed by its base name, so renaming the base name moves
  the record.
*/
module MetaBundle {
  import opened Common

  /** Appended to an asset's full path to locate its shadow metadata file. */
  const MetaSuffix: string := ".meta"

  /** Appended to the base name of an asset that received a meta header. */
  const TidExtension: string := ".tid"

  /** Label of the informational line logged for every record. */
  const AddingLabel: string := "Adding meta header: "

  /** The warning logged for a record that has no shadow metadata file. */
  function MissingMetaWarning(relativePath: string): (r: string)
    ensures |r| == |relativePath| + 23
    ensures r[5..5 + |relativePath|] == relativePath
  {
    "File " + relativePath + " hasn't meta file!"
  }

  /** One line written to the build log. */
  datatype LogLine = Info(heading: string, subject: string) | Warn(text: string)

  /** The arguments of the one call the iterator makes to its continuation `cb(error, newContent)`. */
  datatype Callback = Callback(error: Option<string>, content: string)

  /** Where a record lives: its absolute directory, its directory relative to the glob base, its base name. */
  datatype Location = Location(dir: string, relDir: string, basename: string) {
    function Path(): (r: string) { dir + basename }
    function Relative(): (r: string) { relDir + basename }
  }

  /** A record as a value: its location and its content. */
  datatype Vinyl = Vinyl(loc: Location, contents: string)

  /** The effect of the iterator on one record: its new base name, the continuation call and the log. */
  datatype Step = Step(basename: string, callback: Callback, log: seq<LogLine>)

  /** The path of the shadow metadata file of the asset at `path`. */
  function ShadowPath(path: string): (r: string)
    ensures |r| == |path| + |MetaSuffix|
    ensures r[..|path|] == path && r[|path|..] == MetaSuffix
  {
    path + MetaSuffix
  }

  /** The content of a bundled asset: the metadata header, a blank line, the content, a final newline. */
  function Bundle(meta: string, content: string): (r: string)
    ensures |r| == |meta| + |content| + 3
  {
    meta + "\n\n" + content + "\n"
  }

  /**
    Splits a bundled text back into its header and its content, given the
    header's length; `None` when the text does not have the bundled layout there.
  */
  function Unbundle(s: string, metaLength: nat): (r: Option<(string, string)>)
    ensures r.Some? ==> |r.value.0| == metaLength && |s| == |r.value.0| + |r.value.1| + 3
  {
    if metaLength + 3 <= |s| && s[metaLength..metaLength + 2] == "\n\n" && s[|s| - 1] == '\n'
    then Some((s[..metaLength], s[metaLength + 2..|s| - 1]))
    else None
  }

  /** The texts of the warnings in a log, in order. */
  function Warnings(log: seq<LogLine>): (r: seq<string>)
  {
    if log == [] then []
    else Warnings(log[..|log| - 1]) + (match log[|log| - 1] case Warn(t) => [t] case Info(_, _) => [])
  }

  /** Every warning text comes from a warning line of the log. */
  lemma {:induction false} WarningsComeFromLog(log: seq<LogLine>, i: nat)
    requires i < |Warnings(log)|
    ensures Warn(Warnings(log)[i]) in log
  {
    var init := log[..|log| - 1];
    if i < |Warnings(init)| {
      WarningsComeFromLog(init, i);
      assert forall l :: l in init ==> l in log;
    } else {
      assert log[|log| - 1].Warn?;
    }
  }

  /**
    What the iterator does to a record at `loc` whose content is `content`,
    given the files present on disk (path to content).
  */
  function Iterate(files: map<string, string>, loc: Location, content: string): (s: Step)
    ensures s.callback.error == None
    ensures s.basename == loc.basename + TidExtension <==> ShadowPath(loc.Path()) in files
    ensures s.basename != loc.basename ==> s.basename == loc.basename + TidExtension
    ensures Warnings(s.log) == if ShadowPath(loc.Path()) in files then [] else [MissingMetaWarning(loc.Relative())]
  {
    var shadow := ShadowPath(loc.Path());
    var announce := Info(AddingLabel, loc.Relative());
    if shadow in files then
      Step(loc.basename + TidExtension, Callback(None, Bundle(files[shadow], content)), [announce])
    else
      assert Warnings([announce]) == [];
      Step(loc.basename, Callback(None, content), [announce, Warn(MissingMetaWarning(loc.Relative()))])
  }

  /** The record that leaves the stream: renamed as the iterator says, with the continuation's content. */
  function Apply(files: map<string, string>, v: Vinyl): (w: Vinyl)
    ensures w.loc.dir == v.loc.dir && w.loc.relDir == v.loc.relDir
  {
    var s := Iterate(files, v.loc, v.contents);
    Vinyl(v.loc.(basename := s.basename), s.callback.content)
  }

  /** The lines the iterator logs for one record. */
  function StepLog(files: map<string, string>, v: Vinyl): (r: seq<LogLine>)
  {
    Iterate(files, v.loc, v.contents).log
  }

  /** The log written while the records `vs` pass through the stream in order. */
  function StreamLog(files: map<string, string>, vs: seq<Vinyl>): (r: seq<LogLine>)
  {
    if vs == [] then []
    else StreamLog(files, vs[..|vs| - 1]) + StepLog(files, vs[|vs| - 1])
  }

  lemma StreamLogSnoc(files: map<string, string>, vs: seq<Vinyl>, i: nat)
    requires i < |vs|
    ensures StreamLog(files, vs[..i + 1]) == StreamLog(files, vs[..i]) + StepLog(files, vs[i])
  {
    assert vs[..i + 1][..i] == vs[..i];
  }

  /** The relative paths of the records in `vs` that have no shadow metadata file, in order. */
  function Orphans(files: map<string, string>, vs: seq<Vinyl>): (r: seq<string>)
  {
    if vs == [] then []
    else
      var v := vs[|vs| - 1];
      Orphans(files, vs[..|vs| - 1]) + (if ShadowPath(v.loc.Path()) in files then [] else [v.loc.Relative()])
  }

  /** The shadow path is the asset path with `.meta` appended, so distinct assets have distinct shadows. */
  lemma ShadowPathInjective(p: string, q: string)
    ensures ShadowPath(p) == ShadowPath(q) <==> p == q
  {
    if ShadowPath(p) == ShadowPath(q) {
      assert |p| == |q|;
      assert p == ShadowPath(p)[..|p|] == ShadowPath(q)[..|q|] == q;
    }
  }

  /** The warning names the record: distinct relative paths give distinct warnings. */
  lemma MissingMetaWarningInjective(p: string, q: string)
    ensures MissingMetaWarning(p) == MissingMetaWarning(q) <==> p == q
  {
    if MissingMetaWarning(p) == MissingMetaWarning(q) {
      assert |p| == |q|;
      assert p == MissingMetaWarning(p)[5..5 + |p|] == MissingMetaWarning(q)[5..5 + |q|] == q;
    }
  }

  /** A bundled text splits back into exactly the header and content it was made from. */
  lemma UnbundleBundle(meta: string, content: string)
    ensures Unbundle(Bundle(meta, content), |meta|) == Some((meta, content))
  {
    var s := Bundle(meta, content);
    assert s[..|meta|] == meta;
    assert s[|meta|..|meta| + 2] == "\n\n";
    assert s[|meta| + 2..|s| - 1] == content;
  }

  /** Whatever splits at a header length is the bundle of its two parts. */
  lemma BundleUnbundle(s: string, metaLength: nat)
    requires Unbundle(s, metaLength).Some?
    ensures Bundle(Unbundle(s, metaLength).value.0, Unbundle(s, metaLength).value.1) == s
  {
    var (meta, content) := Unbundle(s, metaLength).value;
    assert s == s[..metaLength] + s[metaLength..metaLength + 2] + s[metaLength + 2..|s| - 1] + [s[|s| - 1]];
  }

  /**
    With a shadow file: the record is renamed to its base name plus `.tid` and
    its new content is the shadow file's content, a blank line, the old content
    and a newline, read from the shadow path of the ORIGINAL location.
  */
  lemma IterateWithShadow(files: map<string, string>, loc: Location, content: string)
    requires ShadowPath(loc.Path()) in files
    ensures var s := Iterate(files, loc, content);
      && s.basename == loc.basename + TidExtension
      && s.callback == Callback(None, Bundle(files[ShadowPath(loc.Path())], content))
      && Unbundle(s.callback.content, |files[ShadowPath(loc.Path())]|) == Some((files[ShadowPath(loc.Path())], content))
      && Warnings(s.log) == []
  {
    UnbundleBundle(files[ShadowPath(loc.Path())], content);
  }

  /** Without a shadow file: content and base name pass through unchanged and exactly one warning names the relative path. */
  lemma IterateWithoutShadow(files: map<string, string>, loc: Location, content: string)
    requires ShadowPath(loc.Path()) !in files
    ensures var s := Iterate(files, loc, content);
      && s.basename == loc.basename
      && s.callback == Callback(None, content)
      && Warnings(s.log) == [MissingMetaWarning(loc.Relative())]
      && s.log[0] == Info(AddingLabel, loc.Relative())
  {
  }

  /**
    Bundling an already bundled record again changes nothing, unless a shadow
    file exists at its NEW path: the second pass looks up `<path>.tid.meta`.
  */
  lemma ApplyIdempotent(files: map<string, string>, v: Vinyl)
    requires ShadowPath(Apply(files, v).loc.Path()) !in files
    ensures Apply(files, Apply(files, v)) == Apply(files, v)
  {
    var w := Apply(files, v);
    IterateWithoutShadow(files, w.loc, w.contents);
  }

  /** Renaming moves the record: with a shadow file its path and relative path both gain `.tid`. */
  lemma ApplyMovesRecord(files: map<string, string>, v: Vinyl)
    requires ShadowPath(v.loc.Path()) in files
    ensures Apply(files, v).loc.Path() == v.loc.Path() + TidExtension
    ensures Apply(files, v).loc.Relative() == v.loc.Relative() + TidExtension
  {
  }

  lemma {:induction false} WarningsAppend(a: seq<LogLine>, b: seq<LogLine>)
    ensures Warnings(a + b) == Warnings(a) + Warnings(b)
    decreases |b|
  {
    if b == [] {
      assert a + b == a;
    } else {
      var b' := b[..|b| - 1];
      assert (a + b)[..|a + b| - 1] == a + b';
      WarningsAppend(a, b');
    }
  }

  /** The warnings the iterator logs for one record: one for a record without a shadow file. */
  lemma StepWarnings(files: map<string, string>, v: Vinyl)
    ensures Warnings(StepLog(files, v))
      == MissingMetaWarnings(if ShadowPath(v.loc.Path()) in files then [] else [v.loc.Relative()])
  {
    if ShadowPath(v.loc.Path()) !in files {
      assert MissingMetaWarnings([v.loc.Relative()]) == [MissingMetaWarning(v.loc.Relative())] by {
        assert [v.loc.Relative()][1..] == [];
      }
    }
  }

  /**
    Over a whole stream, the warnings are exactly one per record without a
    shadow file, naming its relative path, in stream order.
  */
  lemma {:induction false} StreamWarnings(files: map<string, string>, vs: seq<Vinyl>)
    ensures Warnings(StreamLog(files, vs)) == MissingMetaWarnings(Orphans(files, vs))
  {
    if vs != [] {
      var init, v := vs[..|vs| - 1], vs[|vs| - 1];
      var extra := if ShadowPath(v.loc.Path()) in files then [] else [v.loc.Relative()];
      assert StreamLog(files, vs) == StreamLog(files, init) + StepLog(files, v);
      assert Orphans(files, vs) == Orphans(files, init) + extra;
      StreamWarnings(files, init);
      WarningsAppend(StreamLog(files, init), StepLog(files, v));
      StepWarnings(files, v);
      MissingMetaWarningsAppend(Orphans(files, init), extra);
    }
  }

  /** The warning texts for a list of relative paths. */
  function MissingMetaWarnings(paths: seq<string>): (r: seq<string>)
    ensures |r| == |paths|
  {
    if paths == [] then [] else [MissingMetaWarning(paths[0])] + MissingMetaWarnings(paths[1..])
  }

  lemma {:induction false} MissingMetaWarningsAppend(a: seq<string>, b: seq<string>)
    ensures MissingMetaWarnings(a + b) == MissingMetaWarnings(a) + MissingMetaWarnings(b)
  {
    if a != [] {
      assert (a + b)[1..] == a[1..] + b;
      MissingMetaWarningsAppend(a[1..], b);
    } else {
      assert a + b == b;
    }
  }

  /** The filesystem as the iterator sees it: a map from paths to file contents that it only reads. */
  class FileSystem {
    var files: map<string, string>

    constructor (files: map<string, string>)
      ensures this.files == files
    {
      this.files := files;
    }

    /** `fs.existsSync(path)`. */
    method ExistsSync(path: string) returns (found: bool)
      ensures found <==> path in files
    {
      found := path in files;
    }

    /** `fs.readFileSync(path, 'utf-8')`, called only on a path just found to exist. */
    method ReadFileSync(path: string) returns (content: string)
      requires path in files
      ensures content == files[path]
    {
      content := files[path];
    }
  }

  /** A file record in flight; only its base name and its content are ever rewritten. */
  class FileRecord {
    const dir: string
    const relDir: string
    var basename: string
    var contents: string

    constructor (dir: string, relDir: string, basename: string, contents: string)
      ensures this.dir == dir && this.relDir == relDir
      ensures this.basename == basename && this.contents == contents
    {
      this.dir := dir;
      this.relDir := relDir;
      this.basename := basename;
      this.contents := contents;
    }

    function Place(): (r: Location)
      reads this
    {
      Location(dir, relDir, basename)
    }

    function Snapshot(): (r: Vinyl)
      reads this
    {
      Vinyl(Place(), contents)
    }
  }

  /**
    The iterator `iterator(content, file, stream, cb)`: looks up the shadow
    file, renames the record and builds the new content, returning the one
    continuation call it makes and the lines it logs. Only the record's base
    name changes; the filesystem is only read.
  */
  method Iterator(content: string, file: FileRecord, fs: FileSystem) returns (cb: Callback, log: seq<LogLine>)
    modifies file`basename
    ensures var s := Iterate(fs.files, old(file.Place()), content);
      file.basename == s.basename && cb == s.callback && log == s.log
    ensures fs.files == old(fs.files)
  {
    var relativePath := file.Place().Relative();
    log := [Info(AddingLabel, relativePath)];
    var fileName := ShadowPath(file.Place().Path());
    var found := fs.ExistsSync(fileName);
    if found {
      file.basename := file.basename + TidExtension;
      var metaContent := fs.ReadFileSync(fileName);
      cb := Callback(None, Bundle(metaContent, content));
    } else {
      log := log + [Warn(MissingMetaWarning(relativePath))];
      cb := Callback(None, content);
    }
  }

  /** The records' values, in order. */
  function Snapshots(records: seq<FileRecord>): (vs: seq<Vinyl>)
    reads set r | r in records
    ensures |vs| == |records|
    ensures forall i :: 0 <= i < |records| ==> vs[i] == records[i].Snapshot()
  {
    if records == [] then [] else Snapshots(records[..|records| - 1]) + [records[|records| - 1].Snapshot()]
  }

  /**
    What the stream driver does with one record: hands its content to the
    iterator and stores the content passed to the continuation.
  */
  method BundleRecord(file: FileRecord, fs: FileSystem) returns (lines: seq<LogLine>)
    modifies file
    ensures file.Snapshot() == Apply(fs.files, old(file.Snapshot()))
    ensures lines == StepLog(fs.files, old(file.Snapshot()))
  {
    var cb;
    cb, lines := Iterator(file.contents, file, fs);
    file.contents := cb.content;
  }

  /** Every record of `vs` as it leaves the stream. */
  function ApplyAll(files: map<string, string>, vs: seq<Vinyl>): (ws: seq<Vinyl>)
    ensures |ws| == |vs|
    ensures forall k :: 0 <= k < |vs| ==> ws[k] == Apply(files, vs[k])
  {
    seq(|vs|, k requires 0 <= k < |vs| => Apply(files, vs[k]))
  }

  /** The first `i` records hold their values in `after`; the others still hold theirs in `before`. */
  ghost predicate Processed(records: seq<FileRecord>, before: seq<Vinyl>, after: seq<Vinyl>, i: nat)
    reads set r | r in records
  {
    && |before| == |records| && |after| == |records| && i <= |records|
    && (forall k :: 0 <= k < i ==> records[k].Snapshot() == after[k])
    && (forall k :: i <= k < |records| ==> records[k].Snapshot() == before[k])
  }

  /** One turn of the stream driver: the record at `i` goes through the iterator. */
  method Advance(records: seq<FileRecord>, fs: FileSystem, ghost before: seq<Vinyl>, ghost after: seq<Vinyl>,
                 i: nat, log: seq<LogLine>)
    returns (log': seq<LogLine>)
    requires forall i, j :: 0 <= i < j < |records| ==> records[i] != records[j]
    requires i < |records|
    requires Processed(records, before, after, i) && after[i] == Apply(fs.files, before[i])
    requires log == StreamLog(fs.files, before[..i])
    modifies records[i]
    ensures Processed(records, before, after, i + 1) && log' == StreamLog(fs.files, before[..i + 1])
    ensures fs.files == old(fs.files)
  {
    ghost var files := fs.files;
    StreamLogSnoc(files, before, i);
    var r := records[i];
    var lines := BundleRecord(r, fs);
    assert fs.files == files;
    log' := log + lines;
    forall k | 0 <= k < |records| && k != i
      ensures records[k].Snapshot() == old(records[k].Snapshot())
    {
      assert records[k] != r;
    }
  }

  /**
    The stream driver: passes every record through the iterator in order and
    stores the continuation's content as the record's new content.
  */
  method ProcessStream(records: seq<FileRecord>, fs: FileSystem) returns (log: seq<LogLine>)
    requires forall i, j :: 0 <= i < j < |records| ==> records[i] != records[j]
    modifies set r | r in records
    ensures forall i :: 0 <= i < |records| ==> records[i].Snapshot() == Apply(fs.files, old(records[i].Snapshot()))
    ensures log == StreamLog(fs.files, old(Snapshots(records)))
    ensures fs.files == old(fs.files)
  {
    ghost var before := Snapshots(records);
    ghost var after := ApplyAll(fs.files, before);
    log := [];
    var i := 0;
    while i < |records|
      invariant 0 <= i <= |records|
      invariant fs.files == old(fs.files)
      invariant Processed(records, before, after, i)
      invariant log == StreamLog(fs.files, before[..i])
    {
      log := Advance(records, fs, before, after, i, log);
      i := i + 1;
    }
    assert before[..i] == before;
  }
}
