/**
  The part of Node's POSIX `path.join` that index.js relies on to build the
  output root: the non-empty arguments are joined with '/', then normalized
  (empty and "." segments dropped, ".." resolved against the segment before
  it, a leading '/' and a trailing '/' kept).
*/
module NodePath {

  /** Splits a path at every '/': "a//b/" gives ["a", "", "b", ""]. */
  function Split(s: string): (r: seq<string>)
    ensures |r| >= 1
    ensures forall i :: 0 <= i < |r| ==> '/' !in r[i]
  {
    if s == [] then [[]]
    else
      var rest := Split(s[1..]);
      if s[0] == '/' then [[]] + rest
      else [[s[0]] + rest[0]] + rest[1..]
  }

  /** Joins segments with '/' between them. */
  function JoinSegments(segs: seq<string>): (r: string)
  {
    if segs == [] then []
    else if |segs| == 1 then segs[0]
    else segs[0] + "/" + JoinSegments(segs[1..])
  }

  /** A joined path starts with its first segment. */
  lemma JoinSegmentsPrefix(segs: seq<string>)
    requires segs != []
    ensures |segs[0]| <= |JoinSegments(segs)| && JoinSegments(segs)[..|segs[0]|] == segs[0]
  {
  }

  /** A path segment that normalization keeps as it is. */
  predicate PlainSegment(seg: string)
  {
    seg != "" && seg != "." && seg != ".." && '/' !in seg
  }

  /** Adds one segment to an already normalized list, as Node's `normalizeString` does. */
  function Resolve(res: seq<string>, seg: string, allowAboveRoot: bool): (r: seq<string>)
  {
    if seg == "" || seg == "." then res
    else if seg == ".." then
      if res != [] && res[|res| - 1] != ".." then res[..|res| - 1]
      else if allowAboveRoot then res + [".."]
      else res
    else res + [seg]
  }

  /**
    The normalized segments of a split path: no empty or "." segment is left,
    ".." segments only lead the list and only for a relative path.
  */
  function NormalizeSegments(segs: seq<string>, allowAboveRoot: bool): (r: seq<string>)
    requires forall i :: 0 <= i < |segs| ==> '/' !in segs[i]
    ensures forall i :: 0 <= i < |r| ==> r[i] != "" && r[i] != "." && '/' !in r[i]
    ensures forall i, j :: 0 <= i < j < |r| && r[j] == ".." ==> r[i] == ".."
    ensures !allowAboveRoot ==> forall i :: 0 <= i < |r| ==> r[i] != ".."
  {
    if segs == [] then []
    else Resolve(NormalizeSegments(segs[..|segs| - 1], allowAboveRoot), segs[|segs| - 1], allowAboveRoot)
  }

  predicate IsAbsolute(p: string)
  {
    p != [] && p[0] == '/'
  }

  /** `path.posix.normalize`: the result is never empty, and is absolute exactly when the input is. */
  function Normalize(p: string): (r: string)
    ensures r != []
    ensures IsAbsolute(r) <==> IsAbsolute(p)
  {
    if p == [] then "."
    else
      var trailing := p[|p| - 1] == '/';
      var segs := NormalizeSegments(Split(p), !IsAbsolute(p));
      if segs == [] then
        if IsAbsolute(p) then "/" else if trailing then "./" else "."
      else
        JoinSegmentsPrefix(segs);
        assert segs[0] != [] && segs[0][0] != '/';
        (if IsAbsolute(p) then "/" else "") + JoinSegments(segs) + (if trailing then "/" else "")
  }

  /** The arguments that are not empty strings, in order. */
  function NonEmpty(args: seq<string>): (r: seq<string>)
    ensures |r| <= |args|
    ensures forall i :: 0 <= i < |r| ==> r[i] != []
  {
    if args == [] then []
    else (if args[0] == [] then [] else [args[0]]) + NonEmpty(args[1..])
  }

  /**
    `path.posix.join(...args)`: with no non-empty argument the result is ".";
    otherwise it is absolute exactly when the first non-empty argument is.
  */
  function Join(args: seq<string>): (r: string)
    ensures r != []
    ensures NonEmpty(args) == [] ==> r == "."
    ensures NonEmpty(args) != [] ==> (IsAbsolute(r) <==> IsAbsolute(NonEmpty(args)[0]))
  {
    var parts := NonEmpty(args);
    if parts == [] then "."
    else
      JoinSegmentsPrefix(parts);
      Normalize(JoinSegments(parts))
  }

  /** Splitting a path and joining the pieces gives the path back. */
  lemma {:induction false} JoinSplit(s: string)
    ensures JoinSegments(Split(s)) == s
  {
    if s != [] {
      var rest := Split(s[1..]);
      JoinSplit(s[1..]);
      if s[0] == '/' {
        assert rest != [];
        assert JoinSegments([[]] + rest) == [] + "/" + JoinSegments(rest);
      } else if |rest| == 1 {
        assert JoinSegments([[s[0]] + rest[0]]) == [s[0]] + rest[0];
      } else {
        var r := [[s[0]] + rest[0]] + rest[1..];
        assert r[1..] == rest[1..];
        assert JoinSegments(rest) == rest[0] + "/" + JoinSegments(rest[1..]);
        assert s == [s[0]] + s[1..];
      }
    }
  }

  /** A string without '/' is one segment. */
  lemma {:induction false} SplitSegment(a: string)
    requires '/' !in a
    ensures Split(a) == [a]
  {
    if a != [] {
      assert '/' !in a[1..] by {
        forall i | 0 <= i < |a[1..]| ensures a[1..][i] != '/' {
          assert a[1..][i] == a[i + 1];
        }
      }
      SplitSegment(a[1..]);
      assert [a[0]] + a[1..] == a;
    }
  }

  /** Splitting at a '/' splits the two sides independently. */
  lemma {:induction false} SplitAppend(x: string, y: string)
    ensures Split(x + "/" + y) == Split(x) + Split(y)
  {
    var s := x + "/" + y;
    if x == [] {
      assert s[1..] == y;
    } else {
      assert s[1..] == x[1..] + "/" + y;
      SplitAppend(x[1..], y);
    }
  }

  /** Joining segments without '/' and splitting again gives the segments back. */
  lemma {:induction false} SplitJoin(segs: seq<string>)
    requires segs != []
    requires forall i :: 0 <= i < |segs| ==> '/' !in segs[i]
    ensures Split(JoinSegments(segs)) == segs
  {
    if |segs| == 1 {
      SplitSegment(segs[0]);
    } else {
      SplitJoin(segs[1..]);
      SplitSegment(segs[0]);
      SplitAppend(segs[0], JoinSegments(segs[1..]));
      assert [segs[0]] + segs[1..] == segs;
    }
  }

  lemma JoinTwo(a: string, b: string)
    ensures JoinSegments([a, b]) == a + "/" + b
  {
    assert [a, b][1..] == [b];
  }

  lemma JoinSegmentsAppend(segs: seq<string>, a: string, b: string)
    requires segs != []
    ensures JoinSegments(segs + [a, b]) == JoinSegments(segs) + "/" + a + "/" + b
    decreases |segs|
  {
    if |segs| == 1 {
      assert (segs + [a, b])[1..] == [a, b];
      JoinTwo(a, b);
    } else {
      assert (segs + [a, b])[1..] == segs[1..] + [a, b];
      JoinSegmentsAppend(segs[1..], a, b);
    }
  }

  /** The string `path.join(dir, a, b)` normalizes, for non-empty `a` and `b`. */
  lemma JoinedArguments(dir: string, a: string, b: string)
    requires a != [] && b != []
    ensures JoinSegments(NonEmpty([dir, a, b])) == if dir == [] then a + "/" + b else dir + "/" + (a + "/" + b)
  {
    assert NonEmpty([b]) == [b] by { assert [b][1..] == []; }
    assert NonEmpty([a, b]) == [a, b] by { assert [a, b][1..] == [b]; }
    assert [dir, a, b][1..] == [a, b];
    JoinTwo(a, b);
    if dir != [] {
      assert NonEmpty([dir, a, b]) == [dir, a, b];
      assert [dir, a, b][1..] == [a, b];
    }
  }

  /** Normalizing past a plain segment just appends it. */
  lemma NormalizeAppendPlain(segs: seq<string>, a: string, allowAboveRoot: bool)
    requires forall i :: 0 <= i < |segs| ==> '/' !in segs[i]
    requires PlainSegment(a)
    ensures NormalizeSegments(segs + [a], allowAboveRoot) == NormalizeSegments(segs, allowAboveRoot) + [a]
  {
    assert (segs + [a])[..|segs|] == segs;
  }

  /** The segments of `path.join(dir, a, b)` before normalization. */
  lemma SplitJoinedArguments(dir: string, a: string, b: string)
    requires PlainSegment(a) && PlainSegment(b)
    ensures Split(JoinSegments(NonEmpty([dir, a, b]))) == (if dir == [] then [] else Split(dir)) + [a, b]
  {
    JoinedArguments(dir, a, b);
    SplitSegment(a);
    SplitSegment(b);
    SplitAppend(a, b);
    if dir != [] {
      SplitAppend(dir, a + "/" + b);
    }
  }

  /** The normalized form of `path.join(dir, a, b)` as segments. */
  lemma NormalizeJoinedArguments(dir: string, a: string, b: string)
    requires PlainSegment(a) && PlainSegment(b)
    ensures var joined := JoinSegments(NonEmpty([dir, a, b]));
      && NormalizeSegments(Split(joined), !IsAbsolute(dir)) == NormalizeSegments(Split(dir), !IsAbsolute(dir)) + [a, b]
      && IsAbsolute(joined) == IsAbsolute(dir)
      && joined != [] && joined[|joined| - 1] != '/'
  {
    var allow := !IsAbsolute(dir);
    var joined := JoinSegments(NonEmpty([dir, a, b]));
    var pre := if dir == [] then [] else Split(dir);
    SplitJoinedArguments(dir, a, b);
    JoinedArguments(dir, a, b);
    assert NormalizeSegments(pre, allow) == NormalizeSegments(Split(dir), allow) by {
      if dir == [] {
        assert Split(dir) == [""];
        assert [""][..0] == [];
      }
    }
    NormalizeAppendPlain(pre, a, allow);
    NormalizeAppendPlain(pre + [a], b, allow);
    assert pre + [a] + [b] == pre + [a, b];
    assert joined[|joined| - 1] == b[|b| - 1];
  }

  /**
    Joining a directory with two plain names puts the names, unchanged, after
    the directory's own normalized segments.
  */
  lemma JoinUnderDirectory(dir: string, a: string, b: string)
    requires PlainSegment(a) && PlainSegment(b)
    ensures Join([dir, a, b])
      == (if IsAbsolute(dir) then "/" else "")
         + JoinSegments(NormalizeSegments(Split(dir), !IsAbsolute(dir)) + [a, b])
  {
    NormalizeJoinedArguments(dir, a, b);
    assert NonEmpty([dir, a, b]) != [] by {
      assert [dir, a, b][1..] == [a, b];
      assert [a, b][1..] == [b];
    }
  }

  /** The output root is namespaced: the last two segments of `path.join(dir, a, b)` are `a` and `b`. */
  lemma JoinEndsWithNames(dir: string, a: string, b: string)
    requires PlainSegment(a) && PlainSegment(b)
    ensures var segs := Split(Join([dir, a, b])); |segs| >= 2 && segs[|segs| - 2..] == [a, b]
  {
    JoinUnderDirectory(dir, a, b);
    var segs := NormalizeSegments(Split(dir), !IsAbsolute(dir)) + [a, b];
    var r := Join([dir, a, b]);
    SplitJoin(segs);
    assert segs[|segs| - 2..] == [a, b];
    if IsAbsolute(dir) {
      SplitAppend([], JoinSegments(segs));
      assert r == [] + "/" + JoinSegments(segs);
      var out := [[]] + segs;
      assert Split(r) == out;
      assert out[|out| - 2..] == segs[|segs| - 2..];
    } else {
      assert r == JoinSegments(segs);
    }
  }

  /** A relative directory "./name" normalizes to the single segment `name`. */
  lemma NormalizeDotSlash(name: string)
    requires PlainSegment(name)
    ensures NormalizeSegments(Split("." + "/" + name), true) == [name]
  {
    SplitAppend(".", name);
    SplitSegment(".");
    SplitSegment(name);
    var segs := Split("." + "/" + name);
    assert segs == ["."] + [name];
    assert segs[..1] == ["."];
    assert ["."][..0] == [];
  }

  lemma NormalizeDefaultOutputDir()
    ensures NormalizeSegments(Split("./plugins"), true) == ["plugins"]
  {
    assert "./plugins" == "." + "/" + "plugins";
    NormalizeDotSlash("plugins");
  }

  lemma JoinDefaultSegments(a: string, b: string)
    ensures JoinSegments(NormalizeSegments(Split("./plugins"), true) + [a, b]) == "plugins" + "/" + a + "/" + b
  {
    NormalizeDefaultOutputDir();
    JoinSegmentsAppend(["plugins"], a, b);
    assert ["plugins"] + [a, b] == ["plugins", a, b];
  }

  /** The default output directory: `path.join('./plugins', a, b)` is "plugins/a/b". */
  lemma JoinDefaultOutput(a: string, b: string)
    requires PlainSegment(a) && PlainSegment(b)
    ensures Join(["./plugins", a, b]) == "plugins" + "/" + a + "/" + b
  {
    JoinUnderDirectory("./plugins", a, b);
    assert !IsAbsolute("./plugins");
    JoinDefaultSegments(a, b);
  }

  /** Normalizing a list that ends in a segment resolves that segment last. */
  lemma NormalizeSnoc(segs: seq<string>, a: string, allowAboveRoot: bool)
    requires forall i :: 0 <= i < |segs| ==> '/' !in segs[i]
    requires '/' !in a
    ensures NormalizeSegments(segs + [a], allowAboveRoot) == Resolve(NormalizeSegments(segs, allowAboveRoot), a, allowAboveRoot)
  {
    assert (segs + [a])[..|segs|] == segs;
  }

  /** The string `path.join(dir, "..", b)` normalizes. */
  lemma JoinedParentArguments(dir: string, b: string)
    requires dir != [] && b != []
    ensures NonEmpty([dir, "..", b]) == [dir, "..", b]
    ensures JoinSegments(NonEmpty([dir, "..", b])) == dir + "/" + (".." + "/" + b)
  {
    assert NonEmpty([b]) == [b] by { assert [b][1..] == []; }
    assert NonEmpty(["..", b]) == ["..", b] by {
      assert ["..", b][1..] == [b];
      assert |".."| == 2;
    }
    assert [dir, "..", b][1..] == ["..", b];
    JoinTwo("..", b);
  }

  /** The segments of that string: the directory's, then "..", then `b`. */
  lemma SplitParentArguments(dir: string, b: string)
    requires PlainSegment(b)
    ensures Split(dir + "/" + (".." + "/" + b)) == Split(dir) + ["..", b]
  {
    SplitAppend("..", b);
    SplitSegment("..");
    SplitSegment(b);
    SplitAppend(dir, ".." + "/" + b);
  }

  /** After a single plain segment, ".." removes it and a plain `b` is all that is left. */
  lemma NormalizeParent(segs: seq<string>, b: string)
    requires forall i :: 0 <= i < |segs| ==> '/' !in segs[i]
    requires |NormalizeSegments(segs, true)| == 1 && NormalizeSegments(segs, true)[0] != ".."
    requires PlainSegment(b)
    ensures NormalizeSegments(segs + ["..", b], true) == [b]
  {
    NormalizeSnoc(segs, "..", true);
    NormalizeSnoc(segs + [".."], b, true);
    assert segs + [".."] + [b] == segs + ["..", b];
  }

  /** A relative path without a trailing '/' whose segments normalize to one name is that name. */
  lemma NormalizeToName(p: string, b: string)
    requires p != [] && !IsAbsolute(p) && p[|p| - 1] != '/'
    requires NormalizeSegments(Split(p), true) == [b]
    ensures Normalize(p) == b
  {
    assert JoinSegments([b]) == b;
  }

  /**
    A ".." name climbs out of a one-segment relative directory:
    `path.join(dir, '..', b)` is `b` itself, not a path under `dir`.
  */
  lemma JoinParentOfDirectory(dir: string, b: string)
    requires dir != [] && !IsAbsolute(dir)
    requires |NormalizeSegments(Split(dir), true)| == 1 && NormalizeSegments(Split(dir), true)[0] != ".."
    requires PlainSegment(b)
    ensures Join([dir, "..", b]) == b
  {
    var joined := dir + "/" + (".." + "/" + b);
    JoinedParentArguments(dir, b);
    SplitParentArguments(dir, b);
    NormalizeParent(Split(dir), b);
    assert joined[|joined| - 1] == b[|b| - 1];
    assert joined[0] == dir[0];
    NormalizeToName(joined, b);
  }

  /** With the default output directory, an author named ".." puts the output root outside `plugins`. */
  lemma JoinDefaultOutputParent(b: string)
    requires PlainSegment(b)
    ensures Join(["./plugins", "..", b]) == b
  {
    NormalizeDefaultOutputDir();
    JoinParentOfDirectory("./plugins", b);
  }
}
