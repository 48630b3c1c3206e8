/**
 * The build half of a run: whether lambdas are built at all, which ones, and
 * the two `make` steps per lambda, stopping at the first that fails.
 */
module Build {
  import opened Options
  import opened Deployment

  /** Lambdas are built for plan and apply, unless the selector is "none". */
  predicate ShouldBuildLambdas(cfg: Config) {
    cfg.build != "none" && (cfg.op == "plan" || cfg.op == "apply")
  }

  /** The directory a lambda is built in: `lambdas/{name}`. */
  function LambdaDir(name: string): string {
    "lambdas/" + name
  }

  lemma LambdaDirInjective(a: string, b: string)
    requires LambdaDir(a) == LambdaDir(b)
    ensures a == b
  {
    assert a == LambdaDir(a)[8..];
    assert b == LambdaDir(b)[8..];
  }

  /** The names of the directory entries of a listing, in listing order. */
  function DirNames(entries: seq<Entry>): seq<string> {
    if entries == [] then []
    else (if entries[0].isDir then [entries[0].name] else []) + DirNames(entries[1..])
  }

  /** The positions, from `from` on, of the entries that are directories. */
  function DirIndices(entries: seq<Entry>, from: nat): seq<nat>
    decreases |entries| - from
  {
    if from >= |entries| then []
    else (if entries[from].isDir then [from] else []) + DirIndices(entries, from + 1)
  }

  /** Each of `idx` is the position of a directory entry at or after `from`. */
  predicate DirPositionsFrom(entries: seq<Entry>, idx: seq<nat>, from: nat) {
    forall j :: 0 <= j < |idx| ==> from <= idx[j] < |entries| && entries[idx[j]].isDir
  }

  predicate Increasing(idx: seq<nat>) {
    forall j, k :: 0 <= j < k < |idx| ==> idx[j] < idx[k]
  }

  /** Every position found from `from` on is a directory entry at or after `from`. */
  lemma {:induction false} DirIndicesInRange(entries: seq<Entry>, from: nat)
    ensures DirPositionsFrom(entries, DirIndices(entries, from), from)
    decreases |entries| - from
  {
    if from < |entries| {
      DirIndicesInRange(entries, from + 1);
      var idx, rest := DirIndices(entries, from), DirIndices(entries, from + 1);
      if entries[from].isDir {
        assert idx == [from] + rest;
        assert forall j :: 1 <= j < |idx| ==> idx[j] == rest[j - 1];
      } else {
        assert idx == rest;
      }
    }
  }

  /** The positions are found in increasing order. */
  lemma {:induction false} DirIndicesOrdered(entries: seq<Entry>, from: nat)
    ensures Increasing(DirIndices(entries, from))
    decreases |entries| - from
  {
    if from < |entries| {
      DirIndicesOrdered(entries, from + 1);
      DirIndicesInRange(entries, from + 1);
      var idx, rest := DirIndices(entries, from), DirIndices(entries, from + 1);
      if entries[from].isDir {
        assert idx == [from] + rest;
        assert forall j :: 1 <= j < |idx| ==> idx[j] == rest[j - 1];
      } else {
        assert idx == rest;
      }
    }
  }

  /** Every directory entry at or after `from` has a position. */
  lemma {:induction false} DirIndicesComplete(entries: seq<Entry>, from: nat)
    ensures forall i :: from <= i < |entries| && entries[i].isDir ==> i in DirIndices(entries, from)
    decreases |entries| - from
  {
    if from < |entries| {
      DirIndicesComplete(entries, from + 1);
    }
  }

  /** The j-th name from `from` on is the name of the entry at the j-th position. */
  lemma {:induction false} DirNamesAtIndices(entries: seq<Entry>, from: nat)
    requires from <= |entries|
    ensures var names, idx := DirNames(entries[from..]), DirIndices(entries, from);
      |names| == |idx| &&
      forall j :: 0 <= j < |idx| ==> idx[j] < |entries| && names[j] == entries[idx[j]].name
    decreases |entries| - from
  {
    DirIndicesInRange(entries, from);
    if from < |entries| {
      DirNamesAtIndices(entries, from + 1);
      var names, idx := DirNames(entries[from..]), DirIndices(entries, from);
      var rest, restIdx := DirNames(entries[from + 1..]), DirIndices(entries, from + 1);
      assert entries[from..][1..] == entries[from + 1..];
      if entries[from].isDir {
        assert names == [entries[from].name] + rest;
        assert idx == [from] + restIdx;
        assert forall j :: 1 <= j < |idx| ==> idx[j] == restIdx[j - 1] && names[j] == rest[j - 1];
      } else {
        assert names == rest && idx == restIdx;
      }
    }
  }

  /**
   * With selector "all" exactly the directory entries are built: the j-th
   * name built is the entry at the j-th directory position, the positions
   * increase (listing order, each entry once), and every directory entry has
   * a position.
   */
  lemma DirNamesExact(entries: seq<Entry>)
    ensures var names, idx := DirNames(entries), DirIndices(entries, 0);
      |names| == |idx| &&
      (forall j :: 0 <= j < |idx| ==>
         idx[j] < |entries| && entries[idx[j]].isDir && names[j] == entries[idx[j]].name) &&
      (forall j, k :: 0 <= j < k < |idx| ==> idx[j] < idx[k]) &&
      (forall i :: 0 <= i < |entries| && entries[i].isDir ==> i in idx)
  {
    assert entries[0..] == entries;
    DirIndicesInRange(entries, 0);
    DirIndicesOrdered(entries, 0);
    DirIndicesComplete(entries, 0);
    DirNamesAtIndices(entries, 0);
  }

  /** A listing of directories A and B and a file README builds A, then B. */
  lemma DirNamesExample()
    ensures DirNames([Entry("A", true), Entry("README", false), Entry("B", true)]) == ["A", "B"]
  {
    var es := [Entry("A", true), Entry("README", false), Entry("B", true)];
    assert es[1..] == [Entry("README", false), Entry("B", true)];
    assert es[1..][1..] == [Entry("B", true)];
    assert es[1..][1..][1..] == [];
  }

  /** `make test` then `make target` in the lambda's directory; either failure is fatal. */
  function LambdaSteps(name: string, env: Env): RunResult {
    Then(Step(MakeTest(LambdaDir(name)), env), Step(MakeTarget(LambdaDir(name)), env))
  }

  /** Builds the lambdas one after another, stopping at the first failed step. */
  function BuildSteps(names: seq<string>, env: Env): RunResult {
    if names == [] then Done else Then(LambdaSteps(names[0], env), BuildSteps(names[1..], env))
  }

  /** Every step of building `names` when nothing fails. */
  function FullBuildTrace(names: seq<string>): seq<Action> {
    if names == [] then []
    else [MakeTest(LambdaDir(names[0])), MakeTarget(LambdaDir(names[0]))] + FullBuildTrace(names[1..])
  }

  /** Lambda j has `make test` at step 2j and `make target` at step 2j + 1. */
  lemma {:induction false} FullBuildTraceAt(names: seq<string>)
    ensures |FullBuildTrace(names)| == 2 * |names|
    ensures forall j :: 0 <= j < |names| ==>
      FullBuildTrace(names)[2 * j] == MakeTest(LambdaDir(names[j])) &&
      FullBuildTrace(names)[2 * j + 1] == MakeTarget(LambdaDir(names[j]))
  {
    if names != [] {
      FullBuildTraceAt(names[1..]);
      var t := FullBuildTrace(names);
      forall j | 1 <= j < |names|
        ensures t[2 * j] == MakeTest(LambdaDir(names[j])) && t[2 * j + 1] == MakeTarget(LambdaDir(names[j]))
      {
        assert t[2 * j] == FullBuildTrace(names[1..])[2 * (j - 1)];
        assert t[2 * j + 1] == FullBuildTrace(names[1..])[2 * (j - 1) + 1];
      }
    }
  }

  /** The full build consists of `make` steps only. */
  lemma {:induction false} FullBuildTraceBuildsOnly(names: seq<string>)
    ensures forall i :: 0 <= i < |FullBuildTrace(names)| ==> IsBuildStep(FullBuildTrace(names)[i])
  {
    if names != [] {
      FullBuildTraceBuildsOnly(names[1..]);
      var t := FullBuildTrace(names);
      assert forall i :: 2 <= i < |t| ==> t[i] == FullBuildTrace(names[1..])[i - 2];
    }
  }

  /** No step of the full build of `names` fails. */
  predicate FullBuildSucceeds(names: seq<string>, env: Env) {
    forall i :: 0 <= i < |FullBuildTrace(names)| ==> !Fails(env, FullBuildTrace(names)[i])
  }

  /** Building stops at the first failed step, and a failure names that step. */
  lemma {:induction false} BuildStepsStopAtFirstFailure(names: seq<string>, env: Env)
    ensures StopsAtFirstFailure(BuildSteps(names, env), env)
    ensures BuildSteps(names, env).outcome.Fatal? ==> BuildSteps(names, env).outcome.reason.StepFailed?
  {
    if names != [] {
      var x := names[0];
      BuildStepsStopAtFirstFailure(names[1..], env);
      StepStopsAtFirstFailure(MakeTest(LambdaDir(x)), env);
      StepStopsAtFirstFailure(MakeTarget(LambdaDir(x)), env);
      ThenStopsAtFirstFailure(Step(MakeTest(LambdaDir(x)), env), Step(MakeTarget(LambdaDir(x)), env), env);
      ThenStopsAtFirstFailure(LambdaSteps(x, env), BuildSteps(names[1..], env), env);
    }
  }

  lemma FullBuildSucceedsCons(names: seq<string>, env: Env)
    requires names != []
    ensures FullBuildSucceeds(names, env) <==>
      !Fails(env, MakeTest(LambdaDir(names[0]))) && !Fails(env, MakeTarget(LambdaDir(names[0]))) &&
      FullBuildSucceeds(names[1..], env)
  {
    var tail := FullBuildTrace(names[1..]);
    var full := FullBuildTrace(names);
    assert full == [MakeTest(LambdaDir(names[0])), MakeTarget(LambdaDir(names[0]))] + tail;
    assert forall i :: 0 <= i < |tail| ==> full[i + 2] == tail[i];
    if FullBuildSucceeds(names[1..], env) && !Fails(env, full[0]) && !Fails(env, full[1]) {
      forall i | 0 <= i < |full| ensures !Fails(env, full[i]) {
        if i >= 2 {
          assert full[i] == tail[i - 2];
        }
      }
    }
  }

  /**
   * What runs is a prefix of the full build, the build succeeds exactly when
   * no step of the full build fails, and a success runs the full build.
   */
  lemma {:induction false} BuildStepsPrefix(names: seq<string>, env: Env)
    ensures var r := BuildSteps(names, env);
      r.trace <= FullBuildTrace(names) &&
      (r.outcome.Ok? <==> FullBuildSucceeds(names, env)) &&
      (r.outcome.Ok? ==> r.trace == FullBuildTrace(names))
  {
    if names != [] {
      var x := names[0];
      var test, target := MakeTest(LambdaDir(x)), MakeTarget(LambdaDir(x));
      var l := LambdaSteps(x, env);
      var rest := BuildSteps(names[1..], env);
      var tail := FullBuildTrace(names[1..]);
      BuildStepsPrefix(names[1..], env);
      FullBuildSucceedsCons(names, env);
      assert FullBuildTrace(names) == [test, target] + tail;
      if l.outcome.Ok? {
        assert l.trace == [test, target];
        assert BuildSteps(names, env).trace == [test, target] + rest.trace;
      }
    }
  }

  /** The lambdas the build phase works through; None when the listing cannot be read. */
  function SelectedLambdas(cfg: Config, env: Env): Option<seq<string>> {
    if cfg.build == "all" then
      match env.listing
      case None => None
      case Some(entries) => Some(DirNames(entries))
    else Some([cfg.build])
  }

  /** The build phase: every directory entry of the listing with "all", else the one named lambda. */
  function BuildPhase(cfg: Config, env: Env): RunResult {
    match SelectedLambdas(cfg, env)
    case None => RunResult([], Fatal(ListingFailed))
    case Some(names) => BuildSteps(names, env)
  }

  /**
   * The build phase runs only `make` steps, stops at the first failure, runs
   * a prefix of the full build of the selected lambdas, and succeeds exactly
   * when that whole build succeeds; an unreadable listing stops it before
   * any step.
   */
  lemma BuildPhaseSpec(cfg: Config, env: Env)
    ensures var r := BuildPhase(cfg, env);
      StopsAtFirstFailure(r, env) &&
      (forall i :: 0 <= i < |r.trace| ==> IsBuildStep(r.trace[i])) &&
      (SelectedLambdas(cfg, env).None? ==> r == RunResult([], Fatal(ListingFailed))) &&
      (SelectedLambdas(cfg, env).Some? ==>
        var names := SelectedLambdas(cfg, env).value;
        r.trace <= FullBuildTrace(names) &&
        (r.outcome.Ok? <==> FullBuildSucceeds(names, env)) &&
        (r.outcome.Ok? ==> r.trace == FullBuildTrace(names)))
  {
    if SelectedLambdas(cfg, env).Some? {
      var names := SelectedLambdas(cfg, env).value;
      BuildStepsStopAtFirstFailure(names, env);
      BuildStepsPrefix(names, env);
      FullBuildTraceBuildsOnly(names);
      var r := BuildSteps(names, env);
      assert forall i :: 0 <= i < |r.trace| ==> r.trace[i] == FullBuildTrace(names)[i];
    }
  }

  /** With any selector other than "all", only the named lambda is built. */
  lemma SingleSelectorBuildsOnlyIt(cfg: Config, env: Env)
    requires cfg.build != "all"
    ensures var r := BuildPhase(cfg, env);
      var test, target := MakeTest(LambdaDir(cfg.build)), MakeTarget(LambdaDir(cfg.build));
      r.trace in [[test], [test, target]] &&
      (r.outcome.Ok? <==> !Fails(env, test) && !Fails(env, target))
  {
    var l := LambdaSteps(cfg.build, env);
    assert [cfg.build][1..] == [];
    assert BuildPhase(cfg, env) == BuildSteps([cfg.build], env);
    assert BuildSteps([cfg.build], env) == Then(l, BuildSteps([], env));
    var test, target := MakeTest(LambdaDir(cfg.build)), MakeTarget(LambdaDir(cfg.build));
    if Fails(env, test) {
      assert l == RunResult([test], Fatal(StepFailed(test)));
    } else if Fails(env, target) {
      assert l == RunResult([test, target], Fatal(StepFailed(target)));
    } else {
      assert l == RunResult([test, target], Ok);
      assert Then(l, Done) == RunResult([test, target] + [], Ok);
      assert [test, target] + [] == [test, target];
    }
  }

  lemma DirNamesStep(items: seq<Entry>, i: nat)
    requires i < |items|
    ensures DirNames(items[i..]) == (if items[i].isDir then [items[i].name] else []) + DirNames(items[i + 1..])
  {
    assert items[i..][1..] == items[i + 1..];
  }

  lemma BuildStepsCons(name: string, names: seq<string>, env: Env)
    ensures BuildSteps([name] + names, env) == Then(LambdaSteps(name, env), BuildSteps(names, env))
  {
    assert ([name] + names)[1..] == names;
  }

  /** buildLambda: `make test`, then `make target`, each fatal on failure. */
  method BuildLambda(name: string, env: Env) returns (steps: seq<Action>, outcome: Outcome)
    ensures RunResult(steps, outcome) == LambdaSteps(name, env)
  {
    var dir := LambdaDir(name);
    var test := MakeTest(dir);
    steps := [test];
    if Fails(env, test) {
      return steps, Fatal(StepFailed(test));
    }
    var target := MakeTarget(dir);
    steps := steps + [target];
    outcome := if Fails(env, target) then Fatal(StepFailed(target)) else Ok;
  }

  /**
   * buildLambdas: reads the listing for "all" and builds each directory
   * entry in turn, or builds the one named lambda; the first failed step
   * ends the run.
   */
  method BuildLambdas(cfg: Config, env: Env) returns (trace: seq<Action>, outcome: Outcome)
    ensures RunResult(trace, outcome) == BuildPhase(cfg, env)
  {
    if cfg.build != "all" {
      BuildStepsCons(cfg.build, [], env);
      assert [cfg.build] + [] == [cfg.build];
      trace, outcome := BuildLambda(cfg.build, env);
      assert trace + [] == trace;
      return;
    }
    if env.listing.None? {
      return [], Fatal(ListingFailed);
    }
    ghost var goal := BuildPhase(cfg, env);
    var items := env.listing.value;
    assert goal == BuildSteps(DirNames(items), env);
    assert items[0..] == items;
    assert goal.trace == [] + goal.trace;
    trace, outcome := [], Ok;
    var i := 0;
    while i < |items|
      invariant 0 <= i <= |items|
      invariant goal == Then(RunResult(trace, Ok), BuildSteps(DirNames(items[i..]), env))
    {
      ghost var rest := BuildSteps(DirNames(items[i + 1..]), env);
      DirNamesStep(items, i);
      if items[i].isDir {
        BuildStepsCons(items[i].name, DirNames(items[i + 1..]), env);
        ThenAssociative(RunResult(trace, Ok), LambdaSteps(items[i].name, env), rest);
        var steps, o := BuildLambda(items[i].name, env);
        assert Then(RunResult(trace, Ok), LambdaSteps(items[i].name, env)) == RunResult(trace + steps, o);
        trace := trace + steps;
        if o.Fatal? {
          return trace, o;
        }
      } else {
        assert DirNames(items[i..]) == DirNames(items[i + 1..]);
      }
      i := i + 1;
    }
    assert items[i..] == [];
  }
}
