/**
 * A whole run of the deployment tool: build the selected lambdas when the
 * operation needs them, then install Terraform and carry out the one
 * requested operation, reporting the outputs after a successful apply. Any
 * failure is fatal and ends the run at once.
 */
module Workflow {
  import opened Options
  import opened Deployment
  import opened Arguments
  import opened Build
  import opened Outputs

  /** `terraform init -upgrade` with the three backend options. */
  function InitAction(cfg: Config): Action {
    Init(true, BackendOptions(cfg, WorkingBucket(cfg.account, cfg.region)))
  }

  /** `terraform plan -refresh` with the four variables and the environment's variable file. */
  function PlanAction(cfg: Config): Action {
    Plan(true, TerraformVars(cfg, WorkingBucket(cfg.account, cfg.region)), VarFile(cfg.environment))
  }

  /** `terraform apply -refresh` with the four variables and the environment's variable file. */
  function ApplyAction(cfg: Config): Action {
    Apply(true, TerraformVars(cfg, WorkingBucket(cfg.account, cfg.region)), VarFile(cfg.environment))
  }

  /** The operation switch of runTerraformCommand. */
  function Dispatch(cfg: Config, env: Env): RunResult {
    match cfg.op
    case "init" => Step(InitAction(cfg), env)
    case "plan" => Step(PlanAction(cfg), env)
    case "apply" =>
      Then(Step(ApplyAction(cfg), env),
        Then(Step(ReadOutputs, env), RunResult(OutputLines(env.outputs, env.outputOrder), Ok)))
    case "destroy" => RunResult([], Fatal(DestroyNotImplemented))
    case _ => RunResult([], Fatal(BadOperation))
  }

  /** runTerraformCommand: Terraform is installed before the operation switch. */
  function TerraformPhase(cfg: Config, env: Env): RunResult {
    Then(Step(InstallTerraform, env), Dispatch(cfg, env))
  }

  /** The build half of a run: the first argument of `Then` in `Run`, named for the lemmas about it. */
  function BuildHalf(cfg: Config, env: Env): RunResult {
    if ShouldBuildLambdas(cfg) then BuildPhase(cfg, env) else Done
  }

  /** main: the build, when wanted, strictly before anything Terraform does. */
  function Run(cfg: Config, env: Env): RunResult {
    Then(if ShouldBuildLambdas(cfg) then BuildPhase(cfg, env) else Done, TerraformPhase(cfg, env))
  }

  predicate IsKnownOperation(op: string) {
    op == "init" || op == "plan" || op == "apply"
  }

  /** The steps of the requested operation when none of them fails. */
  function OperationSteps(cfg: Config, env: Env): seq<Action> {
    match cfg.op
    case "init" => [InitAction(cfg)]
    case "plan" => [PlanAction(cfg)]
    case "apply" => [ApplyAction(cfg), ReadOutputs] + OutputLines(env.outputs, env.outputOrder)
    case _ => []
  }

  /** The lambdas built in a run: none unless the operation wants a build. */
  function BuiltLambdas(cfg: Config, env: Env): seq<string> {
    if ShouldBuildLambdas(cfg) && SelectedLambdas(cfg, env).Some? then SelectedLambdas(cfg, env).value else []
  }

  /** Everything a run does when no step fails. */
  function ExpectedTrace(cfg: Config, env: Env): seq<Action> {
    FullBuildTrace(BuiltLambdas(cfg, env)) + [InstallTerraform] + OperationSteps(cfg, env)
  }

  /** Two steps followed by printing: the shape of an apply. */
  lemma TwoStepsThenPrintWithin(apply: Action, read: Action, lines: seq<Action>, env: Env)
    requires forall i :: 0 <= i < |lines| ==> lines[i].PrintLine?
    ensures var r := Then(Step(apply, env), Then(Step(read, env), RunResult(lines, Ok)));
      Within(r, [apply, read] + lines) && StopsAtFirstFailure(r, env)
  {
    var printed := RunResult(lines, Ok);
    StepStopsAtFirstFailure(apply, env);
    StepStopsAtFirstFailure(read, env);
    ThenStopsAtFirstFailure(Step(read, env), printed, env);
    ThenStopsAtFirstFailure(Step(apply, env), Then(Step(read, env), printed), env);
    ThenWithin(Step(read, env), printed, [read], lines);
    ThenWithin(Step(apply, env), Then(Step(read, env), printed), [apply], [read] + lines);
    assert [apply] + ([read] + lines) == [apply, read] + lines;
  }

  lemma DispatchWithin(cfg: Config, env: Env)
    ensures Within(Dispatch(cfg, env), OperationSteps(cfg, env))
    ensures StopsAtFirstFailure(Dispatch(cfg, env), env)
  {
    if cfg.op == "init" {
      StepStopsAtFirstFailure(InitAction(cfg), env);
    } else if cfg.op == "plan" {
      StepStopsAtFirstFailure(PlanAction(cfg), env);
    } else if cfg.op == "apply" {
      OutputLinesOnlyPrint(env.outputs, env.outputOrder);
      TwoStepsThenPrintWithin(ApplyAction(cfg), ReadOutputs, OutputLines(env.outputs, env.outputOrder), env);
    }
  }

  lemma BuildHalfWithin(cfg: Config, env: Env)
    ensures Within(BuildHalf(cfg, env), FullBuildTrace(BuiltLambdas(cfg, env)))
    ensures StopsAtFirstFailure(BuildHalf(cfg, env), env)
    ensures forall i :: 0 <= i < |BuildHalf(cfg, env).trace| ==> IsBuildStep(BuildHalf(cfg, env).trace[i])
    ensures BuildHalf(cfg, env).outcome.Fatal? ==>
      BuildHalf(cfg, env).outcome.reason.StepFailed? ||
      (BuildHalf(cfg, env).outcome.reason == ListingFailed && ShouldBuildLambdas(cfg) && SelectedLambdas(cfg, env).None?)
  {
    if ShouldBuildLambdas(cfg) {
      BuildPhaseSpec(cfg, env);
      if SelectedLambdas(cfg, env).Some? {
        BuildStepsStopAtFirstFailure(SelectedLambdas(cfg, env).value, env);
      }
    }
  }

  /**
   * A run follows the expected trace and stops at its first failed step:
   * what it did is a prefix of the expected trace, no step but the last
   * failed, a failed last step is the reason the run ended, and a run that
   * ended Ok did every expected step.
   */
  lemma RunFollowsExpectedTrace(cfg: Config, env: Env)
    ensures Within(Run(cfg, env), ExpectedTrace(cfg, env))
    ensures StopsAtFirstFailure(Run(cfg, env), env)
  {
    var b, t := BuildHalf(cfg, env), TerraformPhase(cfg, env);
    var builds, ops := FullBuildTrace(BuiltLambdas(cfg, env)), [InstallTerraform] + OperationSteps(cfg, env);
    BuildHalfWithin(cfg, env);
    TerraformPhaseWithin(cfg, env);
    ThenStopsAtFirstFailure(b, t, env);
    ThenWithin(b, t, builds, ops);
    assert Run(cfg, env) == Then(b, t);
    assert builds + ops == ExpectedTrace(cfg, env);
  }

  /** Installing Terraform and then dispatching follows install-then-operation and stops at its first failure. */
  lemma TerraformPhaseWithin(cfg: Config, env: Env)
    ensures Within(TerraformPhase(cfg, env), [InstallTerraform] + OperationSteps(cfg, env))
    ensures StopsAtFirstFailure(TerraformPhase(cfg, env), env)
  {
    var d := Dispatch(cfg, env);
    DispatchWithin(cfg, env);
    StepStopsAtFirstFailure(InstallTerraform, env);
    ThenStopsAtFirstFailure(Step(InstallTerraform, env), d, env);
    ThenWithin(Step(InstallTerraform, env), d, [InstallTerraform], OperationSteps(cfg, env));
  }

  /**
   * Why a run can end fatally: a failed step, an unreadable `lambdas`
   * directory when building everything, the refused destroy, or an
   * operation that is not recognised.
   */
  lemma RunFatalReasons(cfg: Config, env: Env)
    ensures var r := Run(cfg, env);
      r.outcome.Fatal? ==>
        match r.outcome.reason
        case StepFailed(a) => r.trace != [] && r.trace[|r.trace| - 1] == a && Fails(env, a)
        case ListingFailed => ShouldBuildLambdas(cfg) && cfg.build == "all" && env.listing.None?
        case DestroyNotImplemented => cfg.op == "destroy"
        case BadOperation => cfg.op != "destroy" && !IsKnownOperation(cfg.op)
  {
    BuildHalfWithin(cfg, env);
    RunFollowsExpectedTrace(cfg, env);
  }

  /**
   * A run ends Ok exactly when the operation is init, plan or apply, the
   * `lambdas` listing is readable whenever it is needed, and no expected
   * step fails; it then did exactly the expected steps.
   */
  lemma RunSucceedsExactly(cfg: Config, env: Env)
    ensures var r := Run(cfg, env);
      var expected := ExpectedTrace(cfg, env);
      (r.outcome.Ok? <==>
        IsKnownOperation(cfg.op) &&
        (ShouldBuildLambdas(cfg) ==> SelectedLambdas(cfg, env).Some?) &&
        forall i :: 0 <= i < |expected| ==> !Fails(env, expected[i])) &&
      (r.outcome.Ok? ==> r.trace == expected)
  {
    var r := Run(cfg, env);
    var expected := ExpectedTrace(cfg, env);
    RunFollowsExpectedTrace(cfg, env);
    RunFatalReasons(cfg, env);
    if r.outcome.Fatal? && r.outcome.reason.StepFailed? {
      var k := |r.trace| - 1;
      assert r.trace[k] == expected[k];
    }
  }

  /** Nothing is built unless the operation is plan or apply and the selector is not "none". */
  lemma NoBuildUnlessWanted(cfg: Config, env: Env)
    requires !ShouldBuildLambdas(cfg)
    ensures forall i :: 0 <= i < |Run(cfg, env).trace| ==> !IsBuildStep(Run(cfg, env).trace[i])
  {
    var r := Run(cfg, env);
    var expected := ExpectedTrace(cfg, env);
    RunFollowsExpectedTrace(cfg, env);
    assert FullBuildTrace([]) == [];
    OutputLinesOnlyPrint(env.outputs, env.outputOrder);
    assert forall i :: 0 <= i < |r.trace| ==> r.trace[i] == expected[i];
    forall i | 0 <= i < |expected| ensures !IsBuildStep(expected[i]) {
      if i > 0 && cfg.op == "apply" && i > 2 {
        assert expected[i] == OutputLines(env.outputs, env.outputOrder)[i - 3];
      }
    }
  }

  /**
   * When the operation wants a build, the run starts with the build phase,
   * and a failed build phase is the whole run: fatal, with no Terraform step.
   */
  lemma BuildComesFirst(cfg: Config, env: Env)
    requires ShouldBuildLambdas(cfg)
    ensures BuildPhase(cfg, env).trace <= Run(cfg, env).trace
    ensures BuildPhase(cfg, env).outcome.Fatal? ==>
      Run(cfg, env) == BuildPhase(cfg, env) &&
      forall i :: 0 <= i < |Run(cfg, env).trace| ==> !IsTerraformStep(Run(cfg, env).trace[i])
  {
    BuildPhaseSpec(cfg, env);
  }

  lemma TerraformPhaseBuildsNothing(cfg: Config, env: Env)
    ensures forall k :: 0 <= k < |TerraformPhase(cfg, env).trace| ==> !IsBuildStep(TerraformPhase(cfg, env).trace[k])
  {
    var p := TerraformPhase(cfg, env);
    var ops := [InstallTerraform] + OperationSteps(cfg, env);
    DispatchWithin(cfg, env);
    ThenWithin(Step(InstallTerraform, env), Dispatch(cfg, env), [InstallTerraform], OperationSteps(cfg, env));
    OutputLinesOnlyPrint(env.outputs, env.outputOrder);
    forall k | 0 <= k < |ops| ensures !IsBuildStep(ops[k]) {
      if cfg.op == "apply" && k > 2 {
        assert ops[k] == OutputLines(env.outputs, env.outputOrder)[k - 3];
      }
    }
    assert forall k :: 0 <= k < |p.trace| ==> p.trace[k] == ops[k];
  }

  /**
   * When a build is wanted it happens first: a named lambda's tests are the
   * very first step, and with "all" and a readable listing whose full build
   * succeeds, the run opens with testing and building every directory entry
   * in listing order.
   */
  lemma BuildsWhenWanted(cfg: Config, env: Env)
    requires ShouldBuildLambdas(cfg)
    ensures cfg.build != "all" ==>
      |Run(cfg, env).trace| > 0 && Run(cfg, env).trace[0] == MakeTest(LambdaDir(cfg.build))
    ensures cfg.build == "all" && env.listing.Some? && FullBuildSucceeds(DirNames(env.listing.value), env) ==>
      FullBuildTrace(DirNames(env.listing.value)) <= Run(cfg, env).trace
  {
    BuildComesFirst(cfg, env);
    BuildPhaseSpec(cfg, env);
    if cfg.build != "all" {
      SingleSelectorBuildsOnlyIt(cfg, env);
      assert BuildPhase(cfg, env).trace[0] == MakeTest(LambdaDir(cfg.build));
    }
  }

  /** No build step ever follows a Terraform step. */
  lemma BuildBeforeTerraform(cfg: Config, env: Env)
    ensures var t := Run(cfg, env).trace;
      forall i, j :: 0 <= i < j < |t| && IsTerraformStep(t[i]) ==> !IsBuildStep(t[j])
  {
    var t := Run(cfg, env).trace;
    var b := BuildHalf(cfg, env);
    var p := TerraformPhase(cfg, env);
    BuildHalfWithin(cfg, env);
    TerraformPhaseBuildsNothing(cfg, env);
    if b.outcome.Ok? {
      assert t == b.trace + p.trace;
      forall i, j | 0 <= i < j < |t| && IsTerraformStep(t[i]) ensures !IsBuildStep(t[j]) {
        assert t[j] == p.trace[j - |b.trace|];
      }
    } else {
      assert t == b.trace;
    }
  }

  /**
   * `init` runs exactly one Init after installing Terraform, with upgrade
   * set and the three backend options reading back as the state key, the
   * bucket of the configured account and region, and the region.
   */
  lemma InitRun(cfg: Config, env: Env)
    requires cfg.op == "init"
    ensures var r := Run(cfg, env);
      r.trace == (if Fails(env, InstallTerraform) then [InstallTerraform] else [InstallTerraform, InitAction(cfg)]) &&
      (r.outcome.Ok? <==> !Fails(env, InstallTerraform) && !Fails(env, InitAction(cfg)))
    ensures var init := InitAction(cfg);
      init.upgrade && |init.backendConfig| == 3 &&
      SplitAssign(init.backendConfig[0]) == Some(("key", "tfstate/" + cfg.environment + "/" + cfg.appName + ".json")) &&
      SplitAssign(init.backendConfig[1]) == Some(("bucket", WorkingBucket(cfg.account, cfg.region))) &&
      SplitAssign(init.backendConfig[2]) == Some(("region", cfg.region)) &&
      ParseBucket(WorkingBucket(cfg.account, cfg.region)) == Some((cfg.account, cfg.region))
  {
    BackendOptionsRoundTrip(cfg);
  }

  /**
   * destroy and unrecognised operations never reach Init, Plan or Apply:
   * Terraform is installed, since that happens before the operation
   * switch, and the run then ends fatally, nothing having been built.
   */
  lemma RefusedOperations(cfg: Config, env: Env)
    requires !IsKnownOperation(cfg.op)
    ensures Run(cfg, env) == RunResult([InstallTerraform], Fatal(
      if Fails(env, InstallTerraform) then StepFailed(InstallTerraform)
      else if cfg.op == "destroy" then DestroyNotImplemented
      else BadOperation))
  {
  }

  /** What each step of the requested operation can be. */
  lemma OperationStepsShape(cfg: Config, env: Env)
    ensures var ops := OperationSteps(cfg, env);
      forall k :: 0 <= k < |ops| ==>
        !IsBuildStep(ops[k]) && !ops[k].InstallTerraform? &&
        (ops[k].Init? ==> cfg.op == "init" && ops[k] == InitAction(cfg)) &&
        (ops[k].Plan? ==> cfg.op == "plan" && ops[k] == PlanAction(cfg)) &&
        (ops[k].Apply? ==> cfg.op == "apply" && k == 0 && ops[k] == ApplyAction(cfg)) &&
        (ops[k].ReadOutputs? ==> cfg.op == "apply" && k == 1) &&
        (ops[k].PrintLine? ==> cfg.op == "apply" && k >= 2 && ops[0] == ApplyAction(cfg) && ops[1] == ReadOutputs)
  {
    if cfg.op == "apply" {
      var ops := OperationSteps(cfg, env);
      var lines := OutputLines(env.outputs, env.outputOrder);
      OutputLinesOnlyPrint(env.outputs, env.outputOrder);
      assert forall k :: 2 <= k < |ops| ==> ops[k] == lines[k - 2];
    }
  }

  /** The expected trace: the full build, the installation, then the operation's steps. */
  lemma ExpectedTraceSteps(cfg: Config, env: Env)
    ensures var e, n := ExpectedTrace(cfg, env), 2 * |BuiltLambdas(cfg, env)|;
      |e| == n + 1 + |OperationSteps(cfg, env)| &&
      (forall i :: 0 <= i < n ==> IsBuildStep(e[i])) &&
      e[n] == InstallTerraform &&
      (forall i :: n < i < |e| ==> e[i] == OperationSteps(cfg, env)[i - n - 1])
  {
    BuildThenOperation(BuiltLambdas(cfg, env), OperationSteps(cfg, env));
  }

  lemma BuildThenOperation(names: seq<string>, ops: seq<Action>)
    ensures var e, n := FullBuildTrace(names) + [InstallTerraform] + ops, 2 * |names|;
      |e| == n + 1 + |ops| &&
      (forall i :: 0 <= i < n ==> IsBuildStep(e[i])) &&
      e[n] == InstallTerraform &&
      (forall i :: n < i < |e| ==> e[i] == ops[i - n - 1])
  {
    var build := FullBuildTrace(names);
    FullBuildTraceAt(names);
    FullBuildTraceBuildsOnly(names);
    var e := build + [InstallTerraform] + ops;
    assert forall i :: 0 <= i < |build| ==> e[i] == build[i];
  }

  /** Every Terraform call in a run is the one assembled from the configuration for the requested operation. */
  lemma RunTerraformCalls(cfg: Config, env: Env)
    ensures var t := Run(cfg, env).trace;
      (forall i :: 0 <= i < |t| && t[i].Init? ==> cfg.op == "init" && t[i] == InitAction(cfg)) &&
      (forall i :: 0 <= i < |t| && t[i].Plan? ==> cfg.op == "plan" && t[i] == PlanAction(cfg)) &&
      (forall i :: 0 <= i < |t| && t[i].Apply? ==> cfg.op == "apply" && t[i] == ApplyAction(cfg))
  {
    var t, e := Run(cfg, env).trace, ExpectedTrace(cfg, env);
    RunFollowsExpectedTrace(cfg, env);
    ExpectedTraceCalls(cfg, env);
    assert forall i :: 0 <= i < |t| ==> t[i] == e[i];
  }

  lemma ExpectedTraceCalls(cfg: Config, env: Env)
    ensures var e := ExpectedTrace(cfg, env);
      forall i :: 0 <= i < |e| ==>
        (e[i].Init? ==> cfg.op == "init" && e[i] == InitAction(cfg)) &&
        (e[i].Plan? ==> cfg.op == "plan" && e[i] == PlanAction(cfg)) &&
        (e[i].Apply? ==> cfg.op == "apply" && e[i] == ApplyAction(cfg))
  {
    var e, n := ExpectedTrace(cfg, env), 2 * |BuiltLambdas(cfg, env)|;
    var ops := OperationSteps(cfg, env);
    ExpectedTraceSteps(cfg, env);
    OperationStepsShape(cfg, env);
    forall i | n < i < |e| ensures e[i] == ops[i - n - 1] { }
  }

  /**
   * Lines are printed only in an apply run, after Apply and the reading of
   * the outputs, with no earlier step having failed.
   */
  lemma OutputsOnlyAfterApply(cfg: Config, env: Env)
    ensures var t := Run(cfg, env).trace;
      forall i :: 0 <= i < |t| && t[i].PrintLine? ==>
        cfg.op == "apply" && ApplyAction(cfg) in t[..i] && ReadOutputs in t[..i] &&
        forall j :: 0 <= j < i ==> !Fails(env, t[j])
  {
    var t := Run(cfg, env).trace;
    var e, n := ExpectedTrace(cfg, env), 2 * |BuiltLambdas(cfg, env)|;
    var ops := OperationSteps(cfg, env);
    RunFollowsExpectedTrace(cfg, env);
    ExpectedTraceSteps(cfg, env);
    OperationStepsShape(cfg, env);
    forall i | 0 <= i < |t| && t[i].PrintLine?
      ensures cfg.op == "apply" && ApplyAction(cfg) in t[..i] && ReadOutputs in t[..i]
    {
      assert t[i] == e[i];
      assert i > n && ops[i - n - 1].PrintLine?;
      assert t[..i][n + 1] == e[n + 1] == ops[0];
      assert t[..i][n + 2] == e[n + 2] == ops[1];
    }
  }

  /**
   * plan and apply call Terraform with the same arguments: refresh on, the
   * same four variables and the same variable file,
   * `environments/{environment}.tfvars`.
   */
  lemma PlanAndApplyAgree(cfg: Config, env: Env)
    ensures var p := Run(cfg.(op := "plan"), env).trace;
      var a := Run(cfg.(op := "apply"), env).trace;
      forall i, j :: 0 <= i < |p| && 0 <= j < |a| && p[i].Plan? && a[j].Apply? ==>
        p[i].refresh && a[j].refresh && p[i].vars == a[j].vars &&
        p[i].varFile == a[j].varFile == VarFile(cfg.environment)
  {
    RunTerraformCalls(cfg.(op := "plan"), env);
    RunTerraformCalls(cfg.(op := "apply"), env);
  }

  lemma {:induction false} BuildStepsSeeOnlyFailures(names: seq<string>, e1: Env, e2: Env)
    requires e1.failing == e2.failing
    ensures BuildSteps(names, e1) == BuildSteps(names, e2)
  {
    if names != [] {
      BuildStepsSeeOnlyFailures(names[1..], e1, e2);
    }
  }

  /**
   * The value of a sensitive output has no influence on a run: replace it by
   * anything and the run does and prints exactly the same.
   */
  lemma RunHidesSensitiveValues(cfg: Config, env: Env, key: string, v: string)
    requires key in env.outputs && env.outputs[key].sensitive
    ensures Run(cfg, env.(outputs := env.outputs[key := OutputMeta(v, true)])) == Run(cfg, env)
  {
    var env' := env.(outputs := env.outputs[key := OutputMeta(v, true)]);
    SensitiveValueHidden(env.outputs, env.outputOrder, key, v);
    if SelectedLambdas(cfg, env).Some? {
      BuildStepsSeeOnlyFailures(SelectedLambdas(cfg, env).value, env', env);
    }
    assert BuildPhase(cfg, env') == BuildPhase(cfg, env);
    assert Dispatch(cfg, env') == Dispatch(cfg, env);
  }

  /**
   * runTerraformCommand: install Terraform, then switch on the operation;
   * apply goes on to display the outputs.
   */
  method RunTerraformCommand(cfg: Config, env: Env) returns (trace: seq<Action>, outcome: Outcome)
    ensures RunResult(trace, outcome) == TerraformPhase(cfg, env)
  {
    trace := [InstallTerraform];
    if Fails(env, InstallTerraform) {
      return trace, Fatal(StepFailed(InstallTerraform));
    }
    var bucket := WorkingBucket(cfg.account, cfg.region);
    match cfg.op {
      case "init" =>
        var init := Init(true, BackendOptions(cfg, bucket));
        trace := trace + [init];
        outcome := if Fails(env, init) then Fatal(StepFailed(init)) else Ok;
      case "plan" =>
        var plan := Plan(true, TerraformVars(cfg, bucket), VarFile(cfg.environment));
        trace := trace + [plan];
        outcome := if Fails(env, plan) then Fatal(StepFailed(plan)) else Ok;
      case "apply" =>
        var apply := Apply(true, TerraformVars(cfg, bucket), VarFile(cfg.environment));
        trace := trace + [apply];
        if Fails(env, apply) {
          return trace, Fatal(StepFailed(apply));
        }
        trace := trace + [ReadOutputs];
        if Fails(env, ReadOutputs) {
          return trace, Fatal(StepFailed(ReadOutputs));
        }
        var lines := DisplayOutputs(env.outputs, env.outputOrder);
        trace := trace + lines;
        outcome := Ok;
      case "destroy" =>
        outcome := Fatal(DestroyNotImplemented);
      case _ =>
        outcome := Fatal(BadOperation);
    }
  }

  /** main: build the lambdas when the operation needs them, then run Terraform. */
  method Deploy(cfg: Config, env: Env) returns (trace: seq<Action>, outcome: Outcome)
    ensures RunResult(trace, outcome) == Run(cfg, env)
  {
    trace, outcome := [], Ok;
    if ShouldBuildLambdas(cfg) {
      trace, outcome := BuildLambdas(cfg, env);
      if outcome.Fatal? {
        return;
      }
    }
    var more;
    more, outcome := RunTerraformCommand(cfg, env);
    trace := trace + more;
  }
}
