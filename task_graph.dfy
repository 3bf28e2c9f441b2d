/**
  The task combinators gulp provides and index.js composes: a task graph is a
  tree of named leaf tasks, parallel groups and series chains. The executor
  abstracts what a leaf does to whether it succeeds: a parallel group starts
  every member and succeeds when all do; a series chain starts each member
  only after the one before it has succeeded, and stops at the first failure.
*/
module Combinators {

  datatype TaskGraph = Leaf(name: string) | Parallel(children: seq<TaskGraph>) | Series(children: seq<TaskGraph>)

  /** The leaf tasks of a graph, left to right. */
  function Leaves(g: TaskGraph): (r: seq<string>)
    decreases g
  {
    match g
    case Leaf(name) => [name]
    case Parallel(cs) => LeavesAll(cs)
    case Series(cs) => LeavesAll(cs)
  }

  function LeavesAll(cs: seq<TaskGraph>): (r: seq<string>)
    decreases cs
  {
    if cs == [] then [] else Leaves(cs[0]) + LeavesAll(cs[1..])
  }

  predicate AllSucceed(names: seq<string>, succeeds: string -> bool)
  {
    forall i :: 0 <= i < |names| ==> succeeds(names[i])
  }

  lemma AllSucceedAppend(a: seq<string>, b: seq<string>, succeeds: string -> bool)
    ensures AllSucceed(a + b, succeeds) <==> AllSucceed(a, succeeds) && AllSucceed(b, succeeds)
  {
    if AllSucceed(a, succeeds) && AllSucceed(b, succeeds) {
      forall i | 0 <= i < |a + b| ensures succeeds((a + b)[i]) {
        if i >= |a| { assert (a + b)[i] == b[i - |a|]; }
      }
    }
    if AllSucceed(a + b, succeeds) {
      forall i | 0 <= i < |a| ensures succeeds(a[i]) {
        assert (a + b)[i] == a[i];
      }
      forall i | 0 <= i < |b| ensures succeeds(b[i]) {
        assert (a + b)[|a| + i] == b[i];
      }
    }
  }

  /** The outcome of running a graph: whether it succeeded and which leaves were started, in order. */
  datatype Run = Run(ok: bool, started: seq<string>)

  /**
    Runs a graph. It succeeds exactly when every one of its leaves succeeds,
    and then every leaf has been started, in left-to-right order; only leaves
    of the graph are ever started.
  */
  function Execute(g: TaskGraph, succeeds: string -> bool): (r: Run)
    ensures r.ok <==> AllSucceed(Leaves(g), succeeds)
    ensures r.ok ==> r.started == Leaves(g)
    ensures forall n :: n in r.started ==> n in Leaves(g)
    decreases g
  {
    match g
    case Leaf(name) =>
      assert [name][0] == name;
      Run(succeeds(name), [name])
    case Parallel(cs) => ExecuteParallel(cs, succeeds)
    case Series(cs) => ExecuteSeries(cs, succeeds)
  }

  /** `gulp.parallel(...cs)`: every member is started, whatever the others do. */
  function ExecuteParallel(cs: seq<TaskGraph>, succeeds: string -> bool): (r: Run)
    ensures r.ok <==> AllSucceed(LeavesAll(cs), succeeds)
    ensures r.ok ==> r.started == LeavesAll(cs)
    ensures forall n :: n in r.started ==> n in LeavesAll(cs)
    decreases cs
  {
    if cs == [] then Run(true, [])
    else
      var first := Execute(cs[0], succeeds);
      var rest := ExecuteParallel(cs[1..], succeeds);
      AllSucceedAppend(Leaves(cs[0]), LeavesAll(cs[1..]), succeeds);
      Run(first.ok && rest.ok, first.started + rest.started)
  }

  /** `gulp.series(...cs)`: each member starts only after the previous one succeeded. */
  function ExecuteSeries(cs: seq<TaskGraph>, succeeds: string -> bool): (r: Run)
    ensures r.ok <==> AllSucceed(LeavesAll(cs), succeeds)
    ensures r.ok ==> r.started == LeavesAll(cs)
    ensures forall n :: n in r.started ==> n in LeavesAll(cs)
    decreases cs
  {
    if cs == [] then Run(true, [])
    else
      var first := Execute(cs[0], succeeds);
      AllSucceedAppend(Leaves(cs[0]), LeavesAll(cs[1..]), succeeds);
      if !first.ok then first
      else
        var rest := ExecuteSeries(cs[1..], succeeds);
        Run(rest.ok, first.started + rest.started)
  }

  /**
    Series short-circuit: when member `i` is the first to fail, the chain fails
    and runs exactly as if the members after `i` were not there, so none of
    them is started.
  */
  lemma {:induction false} SeriesStopsAtFirstFailure(cs: seq<TaskGraph>, succeeds: string -> bool, i: nat)
    requires i < |cs|
    requires forall j :: 0 <= j < i ==> Execute(cs[j], succeeds).ok
    requires !Execute(cs[i], succeeds).ok
    ensures ExecuteSeries(cs, succeeds) == ExecuteSeries(cs[..i + 1], succeeds)
    ensures !ExecuteSeries(cs, succeeds).ok
  {
    if i == 0 {
      assert cs[..1][0] == cs[0];
    } else {
      assert cs[..i + 1][0] == cs[0];
      assert cs[..i + 1][1..] == cs[1..][..i];
      SeriesStopsAtFirstFailure(cs[1..], succeeds, i - 1);
    }
  }

  /**
    Parallel isolation: whatever its siblings do, every leaf a member of a
    parallel group starts is started by the group.
  */
  lemma {:induction false} ParallelStartsEveryMember(cs: seq<TaskGraph>, succeeds: string -> bool, i: nat)
    requires i < |cs|
    ensures forall n :: n in Execute(cs[i], succeeds).started ==> n in ExecuteParallel(cs, succeeds).started
  {
    if i > 0 {
      ParallelStartsEveryMember(cs[1..], succeeds, i - 1);
    }
  }

  /** A parallel group of leaves starts all of them, in order, whatever their outcome. */
  lemma {:induction false} ParallelOfLeaves(cs: seq<TaskGraph>, succeeds: string -> bool)
    requires forall i :: 0 <= i < |cs| ==> cs[i].Leaf?
    ensures ExecuteParallel(cs, succeeds).started == LeavesAll(cs)
  {
    if cs != [] {
      ParallelOfLeaves(cs[1..], succeeds);
    }
  }

  /** A chain of one leaf runs it. */
  lemma SeriesOfLeaf(x: string, succeeds: string -> bool)
    ensures ExecuteSeries([Leaf(x)], succeeds) == Run(succeeds(x), [x])
  {
    assert [Leaf(x)][1..] == [];
    assert [x] + [] == [x];
  }

  /** A chain of a graph and one leaf runs the leaf only after the graph succeeded. */
  lemma SeriesThenLeaf(g: TaskGraph, x: string, succeeds: string -> bool)
    ensures Execute(Series([g, Leaf(x)]), succeeds)
      == if Execute(g, succeeds).ok then Run(succeeds(x), Execute(g, succeeds).started + [x])
         else Execute(g, succeeds)
  {
    assert [g, Leaf(x)][1..] == [Leaf(x)];
    SeriesOfLeaf(x, succeeds);
  }

  /** A chain of a graph and two leaves runs them in order, stopping at the first failure. */
  lemma SeriesThenLeaves(g: TaskGraph, x: string, y: string, succeeds: string -> bool)
    ensures Execute(Series([g, Leaf(x), Leaf(y)]), succeeds)
      == if !Execute(g, succeeds).ok then Execute(g, succeeds)
         else if !succeeds(x) then Run(false, Execute(g, succeeds).started + [x])
         else Run(succeeds(y), Execute(g, succeeds).started + [x, y])
  {
    assert [g, Leaf(x), Leaf(y)][1..] == [Leaf(x), Leaf(y)];
    assert [Leaf(x), Leaf(y)][1..] == [Leaf(y)];
    SeriesOfLeaf(y, succeeds);
    assert Execute(Leaf(x), succeeds) == Run(succeeds(x), [x]);
    var tail := ExecuteSeries([Leaf(x), Leaf(y)], succeeds);
    assert tail == if succeeds(x) then Run(succeeds(y), [x] + [y]) else Run(false, [x]);
    assert [x] + [y] == [x, y];
    var first := Execute(g, succeeds);
    if first.ok {
      assert first.started + ([x] + [y]) == first.started + [x, y];
    }
  }
}
