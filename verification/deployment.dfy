/**
 * The values the deployment tool works with: its command-line configuration,
 * the environment it runs in (seen only through what the external tools
 * answer), and the trace of external actions a run performs.
 */
module Deployment {
  import opened Options

  /** The command-line flags, read once at start-up. */
  datatype Config = Config(
    account: nat,          // --account-number
    environment: string,   // --environment
    region: string,        // --region
    appName: string,       // --app-name
    op: string,            // --tfop
    build: string,         // --build: "all", "none" or one lambda name
    vpcId: string          // --vpc-id
  )

  /** One entry of the `lambdas` directory listing. */
  datatype Entry = Entry(name: string, isDir: bool)

  /** One Terraform output: its raw value and whether it is marked sensitive. */
  datatype OutputMeta = OutputMeta(value: string, sensitive: bool)

  /** The externally visible steps of a run. */
  datatype Action =
    | MakeTest(dir: string)        // `make test` in dir
    | MakeTarget(dir: string)      // `make target` in dir
    | InstallTerraform             // install Terraform 1.6 and open a session on `terraform`
    | Init(upgrade: bool, backendConfig: seq<string>)
    | Plan(refresh: bool, vars: seq<string>, varFile: string)
    | Apply(refresh: bool, vars: seq<string>, varFile: string)
    | ReadOutputs                  // `terraform output`
    | PrintLine(line: string)      // a line on standard output

  /** Why a run stopped with log.Fatal. */
  datatype Reason =
    | StepFailed(step: Action)
    | ListingFailed
    | DestroyNotImplemented
    | BadOperation

  datatype Outcome = Ok | Fatal(reason: Reason)

  datatype RunResult = RunResult(trace: seq<Action>, outcome: Outcome)

  /**
   * What the outside world answers: the `lambdas` listing (None when it
   * cannot be read), the external steps that fail, the outputs Terraform
   * reports after apply, and the order in which ranging over that map
   * visits its keys.
   */
  datatype Env = Env(
    listing: Option<seq<Entry>>,
    failing: set<Action>,
    outputs: map<string, OutputMeta>,
    outputOrder: seq<string>
  )

  /** Printing cannot fail; every other step fails exactly when the environment says so. */
  predicate Fails(env: Env, a: Action) {
    a in env.failing && !a.PrintLine?
  }

  predicate IsBuildStep(a: Action) {
    a.MakeTest? || a.MakeTarget?
  }

  predicate IsTerraformStep(a: Action) {
    a.InstallTerraform? || a.Init? || a.Plan? || a.Apply? || a.ReadOutputs?
  }

  /** Runs one external step; a failure is fatal at once. */
  function Step(a: Action, env: Env): RunResult {
    if Fails(env, a) then RunResult([a], Fatal(StepFailed(a))) else RunResult([a], Ok)
  }

  /** Sequencing with early exit: `second` happens only when `first` ended Ok. */
  function Then(first: RunResult, second: RunResult): RunResult {
    if first.outcome.Fatal? then first
    else RunResult(first.trace + second.trace, second.outcome)
  }

  const Done := RunResult([], Ok)

  lemma ThenAssociative(a: RunResult, b: RunResult, c: RunResult)
    ensures Then(Then(a, b), c) == Then(a, Then(b, c))
  {
    if a.outcome.Ok? && b.outcome.Ok? {
      assert a.trace + b.trace + c.trace == a.trace + (b.trace + c.trace);
    }
  }

  /**
   * A run that follows `expected`: what it did is a prefix of `expected`,
   * and when it ended Ok it did all of it.
   */
  predicate Within(r: RunResult, expected: seq<Action>) {
    r.trace <= expected && (r.outcome.Ok? ==> r.trace == expected)
  }

  lemma ThenWithin(a: RunResult, b: RunResult, x: seq<Action>, y: seq<Action>)
    requires Within(a, x) && Within(b, y)
    ensures Within(Then(a, b), x + y)
  {
    if a.outcome.Ok? {
      assert a.trace + b.trace == x + b.trace;
      assert (x + y)[..|x| + |b.trace|] == x + b.trace;
    } else {
      assert (x + y)[..|a.trace|] == x[..|a.trace|];
    }
  }

  /**
   * A run that stopped correctly: no step before the last one failed, an Ok
   * run has no failed step at all, a failed last step ends the run with that
   * step as the reason, and a step named as the reason is the failed last step.
   */
  predicate StopsAtFirstFailure(r: RunResult, env: Env) {
    (forall i :: 0 <= i < |r.trace| - 1 ==> !Fails(env, r.trace[i])) &&
    (r.outcome.Ok? ==> forall i :: 0 <= i < |r.trace| ==> !Fails(env, r.trace[i])) &&
    (r.trace != [] && Fails(env, r.trace[|r.trace| - 1]) ==>
       r.outcome == Fatal(StepFailed(r.trace[|r.trace| - 1]))) &&
    (r.outcome.Fatal? && r.outcome.reason.StepFailed? ==>
       r.trace != [] && r.trace[|r.trace| - 1] == r.outcome.reason.step &&
       Fails(env, r.outcome.reason.step))
  }

  lemma StepStopsAtFirstFailure(a: Action, env: Env)
    ensures StopsAtFirstFailure(Step(a, env), env)
  {
  }

  /** Sequencing two correctly stopping runs gives a correctly stopping run. */
  lemma ThenStopsAtFirstFailure(first: RunResult, second: RunResult, env: Env)
    requires StopsAtFirstFailure(first, env) && StopsAtFirstFailure(second, env)
    ensures StopsAtFirstFailure(Then(first, second), env)
  {
    if first.outcome.Ok? {
      var t := first.trace + second.trace;
      assert forall i :: 0 <= i < |first.trace| ==> t[i] == first.trace[i];
      assert forall i :: |first.trace| <= i < |t| ==> t[i] == second.trace[i - |first.trace|];
    }
  }
}
