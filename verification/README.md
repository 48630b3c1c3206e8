# Deployment orchestration of the JWT authorizer, in Dafny

This project models `terraform.go`, the deployment tool of the JWT-authorizer
service. One run of the tool takes its command-line configuration and does two
things. First it may build the service's lambdas: it runs `make test` and then
`make target` in `lambdas/{name}` for each selected lambda. Then it installs
Terraform and carries out the one requested operation (`init`, `plan` or
`apply`) against the S3 state bucket `{account}-{region}-terraform-deployments`.
After a successful apply it prints the Terraform outputs that are not marked
sensitive. Every failure is fatal and ends the run at once.

The model is a pure function, `Workflow.Run(cfg, env)`. It returns the trace of
external steps the run performs and how it ended (`Ok` or `Fatal(reason)`).
The outside world is an `Env` value with four parts:

- the `lambdas` listing (`None` when it cannot be read);
- the set of steps that fail;
- the output map Terraform reports;
- the order in which ranging over that map visits its keys.

The source's loops and early exits are imperative methods proved equal to the
function: `Build.BuildLambda`, `Build.BuildLambdas`, `Outputs.DisplayOutputs`,
`Workflow.RunTerraformCommand` and `Workflow.Deploy` (which models `main`).

Modules:

- `Decimal`: the `%d` rendering of the account number and the parser that reads it back.
- `Deployment`: the configuration, the step and outcome datatypes, and sequencing with early exit (`Then`).
- `Arguments`: the bucket name, the backend options, the variables and the variable file, each read back the way Terraform reads a `name=value` argument.
- `Build`: when and what to build, and the two `make` steps per lambda.
- `Outputs`: reporting the outputs and suppressing the sensitive ones.
- `Workflow`: the whole run and the properties of its trace.

Two details of the code are worth noting:

- Terraform is installed before the operation switch (terraform.go:36, 40). So `destroy` and unknown operations do perform the `InstallTerraform` step before they end fatally (`Workflow.RefusedOperations`). They never reach Init, Plan or Apply.
- The "bad operation" message also lists `skip`, but `skip` is treated like every other unknown operation.

## Model

| member | source | states |
|---|---|---|
| Decimal.DecimalString | terraform.go:95 | the account number is rendered as a non-empty string of digits; a rendering longer than one digit has no leading zero, and 0 is rendered as `0` |
| Decimal.DecimalRoundTrip | terraform.go:95 | parsing the rendered account number gives back the account number |
| Decimal.DecimalInjective | terraform.go:39 | distinct account numbers are rendered differently |
| Arguments.WorkingBucket | terraform.go:39 | the state bucket `{account}-{region}-terraform-deployments`; `Arguments.WorkingBucketRoundTrip` proves it determines the account and the region |
| Arguments.WorkingBucketRoundTrip | terraform.go:39 | the bucket name `{account}-{region}-terraform-deployments` determines the account and the region |
| Arguments.WorkingBucketExample | terraform.go:39 | account 123 and region eu-west-1 give `123-eu-west-1-terraform-deployments` |
| Arguments.SplitAssignRoundTrip | terraform.go:83-85 | a `name=value` argument whose name has no `=` splits back into that name and that value |
| Arguments.BackendOptions | terraform.go:83-85 | the three `-backend-config` options of init; `Arguments.BackendOptionsRoundTrip` proves what they read back as |
| Arguments.BackendOptionsRoundTrip | terraform.go:81-85 | init gets exactly three backend options, read back as key `tfstate/{env}/{app}.json`, the configured bucket and the region |
| Arguments.TerraformVars | terraform.go:94-97 | the four `-var` arguments of plan and apply; `Arguments.TerraformVarsRoundTrip` proves what they read back as |
| Arguments.VarFile | terraform.go:98 | the variable file `environments/{env}.tfvars`; `Arguments.VarFileInjective` proves each environment has its own |
| Arguments.TerraformVarsRoundTrip | terraform.go:92-98 | plan and apply get exactly four variables: bucket, account number, environment and VPC id, and the bucket and account number read back as the configured account |
| Arguments.VarFileInjective | terraform.go:98 | each environment selects its own variable file `environments/{env}.tfvars` |
| Deployment.Step | terraform.go:160-167 | one external command, fatal when it fails; `Deployment.StepStopsAtFirstFailure` proves a failed step is the reason the run ended |
| Deployment.ThenStopsAtFirstFailure | terraform.go:160-167 | chaining fatal-on-error steps: no step before the last failed, and a failed last step is the reason the run ended |
| Build.ShouldBuildLambdas | terraform.go:55-57 | builds are wanted exactly for plan or apply with a selector other than "none"; `Workflow.NoBuildUnlessWanted` and `Workflow.BuildsWhenWanted` state what that means for a run |
| Build.LambdaDirInjective | terraform.go:155-157 | distinct lambdas are built in distinct directories `lambdas/{name}` |
| Build.DirNames | terraform.go:143-147 | the names of the directory entries of the listing, files skipped; `Build.DirNamesExact` proves they are exactly the directory entries, each once, in listing order |
| Build.DirNamesExact | terraform.go:138-147 | with "all", the lambdas built are exactly the directory entries of the listing, each once, in listing order; file entries are skipped |
| Build.DirNamesExample | terraform.go:143-147 | a listing of directories A and B and a file README builds A and then B |
| Build.LambdaSteps | terraform.go:153-158 | `make test` then `make target` in `lambdas/{name}`; `Build.SingleSelectorBuildsOnlyIt` proves the two possible traces and when it succeeds |
| Build.BuildSteps | terraform.go:143-147 | building the lambdas one after another; `Build.BuildStepsStopAtFirstFailure` and `Build.BuildStepsPrefix` relate it to the full build |
| Build.FullBuildTraceAt | terraform.go:153-158 | lambda j gets `make test` at step 2j and `make target` at step 2j+1, both in its own directory |
| Build.BuildStepsStopAtFirstFailure | terraform.go:153-166 | building stops at the first failed `make`, and that step is the reason the run ended |
| Build.BuildStepsPrefix | terraform.go:143-166 | the steps run are a prefix of the full build; the build succeeds exactly when no step of the full build fails, and then it ran every step |
| Build.SelectedLambdas | terraform.go:138-150 | every directory entry of the listing with "all" (none when it cannot be read), else the one named lambda; `Build.BuildPhaseSpec` and `Build.SingleSelectorBuildsOnlyIt` state what is built |
| Build.BuildPhase | terraform.go:136-151 | the whole build phase; `Build.BuildPhaseSpec` states its trace and outcome |
| Build.BuildPhaseSpec | terraform.go:136-151 | the build phase runs only `make` steps, follows the full build of the selected lambdas, and ends before any step when the listing cannot be read |
| Build.SingleSelectorBuildsOnlyIt | terraform.go:148-150 | a selector other than "all" builds that one lambda only, and succeeds exactly when its test and its build succeed |
| Build.BuildLambda | terraform.go:153-158 | `make test` and then `make target` in `lambdas/{name}`, stopping at the first failure |
| Build.BuildLambdas | terraform.go:136-151 | the loop over the listing, building each directory entry or the one named lambda, computes the build phase |
| Outputs.OutputLines | terraform.go:120-134 | everything the output report prints; `Outputs.HeaderIffOutputs`, `Outputs.KeyLinesFollowKeys` and `Outputs.PrintedKeysExact` state what it contains |
| Outputs.KeyLines | terraform.go:128-133 | one `key = value` line per visited output, sensitive outputs skipped; `Outputs.KeyLinesFollowKeys` and `Outputs.PrintedKeysExact` state which lines |
| Outputs.KeyLinesFollowKeys | terraform.go:128-133 | each printed line is `key = value` for a non-sensitive output, one line per printed key |
| Outputs.PrintedKeysExact | terraform.go:128-133 | the printed keys are exactly the non-sensitive keys, each once, so there are as many lines as non-sensitive outputs |
| Outputs.PrintedKeysOrderIrrelevant | terraform.go:128 | whatever order the map is visited in, the same multiset of keys is printed |
| Outputs.HeaderIffOutputs | terraform.go:125-127 | the header is the first line printed exactly when there are outputs, even when all of them are sensitive, and then it is the only line; with no outputs nothing is printed |
| Outputs.SensitiveValueHidden | terraform.go:129-131 | changing the value of a sensitive output changes nothing that is printed |
| Outputs.ReportExample | terraform.go:120-134 | with outputs url (plain) and secret (sensitive) the report is the header and `url = https://x` |
| Outputs.DisplayOutputs | terraform.go:120-134 | the loop over the output map prints the header and the non-sensitive lines in visiting order |
| Workflow.Run | terraform.go:25-33 | the whole run; `Workflow.RunFollowsExpectedTrace` and `Workflow.RunSucceedsExactly` state its trace and outcome |
| Workflow.TerraformPhase | terraform.go:35-53 | installing Terraform and then the operation switch; `Workflow.TerraformPhaseBuildsNothing` and `Workflow.RunTerraformCommand` are about it |
| Workflow.InitAction | terraform.go:81-85 | `terraform init` with upgrade and the three backend options; `Workflow.InitRun` proves it is the only Terraform call of an init run and what its options read back as |
| Workflow.PlanAction | terraform.go:92-98 | `terraform plan` with refresh, the four variables and the variable file; `Workflow.RunTerraformCalls` and `Workflow.PlanAndApplyAgree` state it |
| Workflow.ApplyAction | terraform.go:107-113 | `terraform apply` with refresh, the four variables and the variable file; `Workflow.RunTerraformCalls` and `Workflow.PlanAndApplyAgree` state it |
| Workflow.Dispatch | terraform.go:40-51 | the operation switch; `Workflow.DispatchWithin` proves it follows the operation's steps and stops at the first failure |
| Workflow.RunFollowsExpectedTrace | terraform.go:25-53 | a run is a prefix of the expected trace (build, install, operation) that stops at its first failed step, and an Ok run did all of it |
| Workflow.RunFatalReasons | terraform.go:47-50 | a run ends fatally only on a failed step, an unreadable listing with "all", destroy, or an unknown operation |
| Workflow.RunSucceedsExactly | terraform.go:25-53 | a run ends Ok exactly when the operation is init, plan or apply, the listing is readable when needed and no expected step fails |
| Workflow.NoBuildUnlessWanted | terraform.go:55-57 | nothing is built unless the operation is plan or apply and the selector is not "none" |
| Workflow.BuildsWhenWanted | terraform.go:28-30 | a wanted build comes first: a named lambda's test is the first step, and "all" builds every directory entry before anything else |
| Workflow.BuildComesFirst | terraform.go:28-32 | the build phase is a prefix of the run, and a failed build is the whole run, with no Terraform step |
| Workflow.BuildBeforeTerraform | terraform.go:28-32 | no build step ever follows a Terraform step |
| Workflow.InitRun | terraform.go:79-88 | init installs Terraform, then runs one Init with upgrade and the three backend options; it succeeds exactly when both succeed |
| Workflow.RefusedOperations | terraform.go:35-51 | destroy and unknown operations install Terraform and then end fatally, with no build, Init, Plan or Apply |
| Workflow.RunTerraformCalls | terraform.go:40-46 | every Init, Plan or Apply in a run is the one assembled for the requested operation |
| Workflow.OutputsOnlyAfterApply | terraform.go:105-121 | lines are printed only in apply runs, after Apply and the reading of the outputs, with no earlier step failed |
| Workflow.PlanAndApplyAgree | terraform.go:90-116 | plan and apply use refresh, the same variables and the same variable file |
| Workflow.RunHidesSensitiveValues | terraform.go:117-134 | a sensitive output's value has no influence on anything a run does or prints |
| Workflow.RunTerraformCommand | terraform.go:35-53 | the install-then-switch procedure computes the Terraform half of the run |
| Workflow.Deploy | terraform.go:25-33 | main (build when wanted, then run Terraform) computes the whole run |

## Left out

- Flag parsing and defaults (terraform.go:17-23, 26) are not modelled. The flags are the `Config` record, and the account is any non-negative integer; the width of Go's `uint`, into which `flag.Uint` parses, is not modelled.
- Installing Terraform 1.6 and opening the session on `terraform` (terraform.go:59-77) are foreign library calls. They are one abstract `InstallTerraform` step, and a failure of either call is a failure of that step.
- Running a subprocess and the details of `exec.Cmd` (terraform.go:160-167) are not modelled. Whether a step fails is decided by the environment's set of failing steps, so the same step always fails or always succeeds.
- Reading the listing (terraform.go:139-142) is not a step of its own. The environment's listing is `None` when it cannot be read.
- `tf.Output` (terraform.go:121-124) is the `ReadOutputs` step.
- The plan result that `tf.Plan` returns is discarded by the source and is not modelled.
- The stdout capture buffer and its final flush to the log (terraform.go:37-38, 52) are I/O and are not modelled. The same goes for the progress lines written with `log.Println`/`log.Printf`.
- The text of fatal messages is not modelled; a `Reason` value stands for it. The extra `"\n"` printed after each output line (terraform.go:132) is left out too.
- Go leaves the order of ranging over a map unspecified (terraform.go:128). The model takes that order as an input and states order-independent properties over the keys. The lemmas that pin the printed keys down exactly (`Outputs.PrintedKeysExact`, `Outputs.PrintedKeysOrderIrrelevant`) assume the order visits every key once. For any other order, `Outputs.KeyLinesFollowKeys` still holds: a malformed order can repeat or drop a non-sensitive line, but it never prints a sensitive or absent key.
- `context` values and cancellation are not modelled, since no code path uses them.
