# Shipit deploy job and Ruby-gem step discovery, modelled in Dafny

This project models two pieces of the Shipit deployment engine.

**The deploy job (`DeployJob#perform`)** runs one deploy of a stack. The
model is in `deploy_job.dfy`, module `DeployJobs`. Three classes hold the
state that `perform` changes:

- `Deploy` holds the status (`pending`, `running`, `success`, `failed`,
  `error`), the states it has been through, the target revision
  (`until_commit`) and a count of working-directory cleanups.
- `Stack` holds the two capability flags, `supports_rollback` and
  `supports_fetch_deployed_revision`.
- `DeployJob` holds what the job did: the stages it requested from the
  command provider, the commands it captured, the commands it terminated,
  and the background queue it appends follow-up jobs to.

`Perform` does the following:

- A deploy that is not pending is left untouched.
- Otherwise the deploy moves to `running`.
- The job requests the stages fetch, clone, `checkout(until_commit)`,
  install_dependencies and `deploy(until_commit)`, and captures each
  stage's commands in turn.
- The run stops at the first command that does not end normally.
- That command's outcome picks the terminal status:
  - a `Command::Error` gives `failed`, and nothing is raised;
  - a timeout gives `error`, the timed-out command is terminated, and the
    timeout is raised;
  - any other application error gives `error`, and the error is raised.
- The stack's flags are set to what the deploy spec reports.
- A successful deploy enqueues one `FetchDeployedRevisionJob` for its stack.
- The working directory is cleared once.

`Perform` is proved against a functional specification, `Drive`, of the
pipeline run. Lemmas about `Drive` state the outcome-to-status table, that
nothing runs after the first failing command, and that each stage is
requested at most once (exactly once on success).

The implementation file of the job is not part of this model. Its behaviour
is taken from the assertions of `test/unit/jobs/deploy_job_test.rb`.
Running a command is replaced by an outcome given with the command in
advance (`Ok`, `CommandError`, `TimeoutError` or `ApplicationError`). The
command provider (`DeployCommands`) is replaced by a total function from
stage requests to the commands of that stage. The deploy spec's two answers
are plain boolean parameters.

**Ruby-gem deploy-step discovery (`DeploySpec::RubygemsDiscovery`)** is in
`rubygems_discovery.dfy`, module `RubygemsDiscovery`, as pure functions.
The `*.gemspec` glob is replaced by the list of paths it matched. The next
discovery strategy (`super`) is replaced by the value it returns. When a
gemspec exists, the steps are `assert-gem-version-tag <gemspec>` and then
`bundle exec rake release`, and the fallback is never consulted. Otherwise
the result is the fallback. Ruby's `nil` is `None`. An array, even an empty
one, counts as true for `||`.

## Model

| member | source | states |
|---|---|---|
| `DeployJobs.DeployJob.Perform` | test/unit/jobs/deploy_job_test.rb:11-99 | A non-pending deploy is a no-op: nothing is requested or captured, nothing changes, and nothing is raised. On a pending deploy, the history grows by `running` and the terminal status, and the status is the one the first failing command maps to. The request, capture and termination logs grow by exactly what `Drive` says. Timeouts and application errors are raised; command errors are not. The stack flags equal the reported capabilities whatever they were before. The queue gains one `FetchDeployedRevisionJob(stack.id)` exactly when the run succeeded. The working directory is cleared exactly once. The deploy's state-machine invariant is kept. |
| `DeployJobs.DeployJob.RunStages` | test/unit/jobs/deploy_job_test.rb:17-21 | The stages are requested one by one and their commands captured. The new request and capture logs are the old ones extended by `Drive`'s trace. The outcome is `Drive`'s outcome. Only the command that timed out is terminated. |
| `DeployJobs.DeployJob.CaptureAll` | test/unit/jobs/deploy_job_test.rb:54-58 | A stage's commands are captured up to and including the first one that does not end Ok. The outcome is that command's outcome, or Ok. |
| `DeployJobs.DeployJob.Capture` | test/unit/jobs/deploy_job_test.rb:66-73 | Capturing a command logs it and returns its outcome. A command that times out is terminated. |
| `DeployJobs.Deploy.Fire` | test/unit/jobs/deploy_job_test.rb:60-61 | A state-machine event is fired only along a legal transition. It appends the new state to the history and keeps the invariant that the history starts `pending` and moves only along legal transitions. |
| `DeployJobs.Deploy.ClearWorkingDirectory` | test/unit/jobs/deploy_job_test.rb:23 | The cleanup count goes up by one, and the status and history stay the same. |
| `DeployJobs.FirstFailure` | test/unit/jobs/deploy_job_test.rb:46-58 | The index of the first command that does not end Ok: every command before it ended Ok, and the command at it did not. |
| `DeployJobs.Ran` | test/unit/jobs/deploy_job_test.rb:54-58 | What runs is a prefix of the stage's commands, and every command before its last ended Ok. If every command ends Ok, all of them run. Otherwise exactly the commands up to and including the first failing one run, and the last of them carries the stage's failing outcome. |
| `DeployJobs.RanIsIdempotent` | test/unit/jobs/deploy_job_test.rb:54-58 | Running again only the commands that ran runs all of them and ends with the same outcome. |
| `DeployJobs.RanIgnoresTail` | test/unit/jobs/deploy_job_test.rb:46-58 | Once a stage has a failing command, appending any further commands to it changes neither which commands run nor the stage's outcome. |
| `DeployJobs.Pipeline` | test/unit/jobs/deploy_job_test.rb:17-21 | The five stage requests of a deploy are pairwise distinct. They include checkout and deploy, and every checkout or deploy request carries the deploy's `until_commit`. |
| `DeployJobs.LegalTransition` | test/unit/jobs/deploy_job_test.rb:43-72 | The deploy state machine: `run` from pending, then complete, failure or error from running. A legal transition never leaves a terminal state, never returns to pending and never stays put. It reaches a terminal state exactly when it starts from running. |
| `DeployJobs.Drive` | test/unit/jobs/deploy_job_test.rb:17-21 | The requested stages are a prefix of the pipeline. A run that ends Ok has requested every stage. |
| `DeployJobs.DriveEndsAtFailingCommand` | test/unit/jobs/deploy_job_test.rb:66-73 | A run that does not succeed ends with the command that failed it. A command is terminated exactly when the run timed out, and every terminated command is one that timed out. |
| `DeployJobs.RunFromIsDrive` | test/unit/jobs/deploy_job_test.rb:17-21 | The job runs the stages with logs that grow as it goes. This lemma proves that running them that way adds exactly `Drive`'s trace to the logs. |
| `DeployJobs.FirstFailureOfAppend` | test/unit/jobs/deploy_job_test.rb:46-58 | The first failure of two command lists run in sequence: the first list's failure, or else the second list's failure offset by the first list's length. |
| `DeployJobs.DriveStopsAtFirstFailure` | test/unit/jobs/deploy_job_test.rb:46-73 | This checks the run against an independent reference: all stages' commands flattened into one list. The run captures that list up to and including its first failing command and nothing after it. The run's outcome is that command's outcome, or Ok if no command fails. |
| `DeployJobs.AllCommandsOkIffSuccess` | test/unit/jobs/deploy_job_test.rb:37-44 | The final status is `success` if and only if every command of every stage ends Ok. A successful run has requested every stage and captured every command. |
| `DeployJobs.FailureClassification` | test/unit/jobs/deploy_job_test.rb:46-73 | The first failing command decides the result. A command error gives `failed` and nothing is raised. A timeout gives `error` and raises the timeout. An application error gives `error` and raises that error. Nothing after the failing command is captured. |
| `DeployJobs.PipelineRequestsEachStageOnce` | test/unit/jobs/deploy_job_test.rb:17-21 | No stage is requested twice. Every requested stage is one of fetch, clone, `checkout(until_commit)`, install_dependencies and `deploy(until_commit)`. A successful run requests each of the five exactly once, as a multiset, so no order is implied. |
| `DeployJobs.StatusFor` | test/unit/jobs/deploy_job_test.rb:37-58 | The outcome-to-status table. The result is always terminal. It is `success` if and only if the outcome is Ok, and `failed` if and only if the outcome is a command error. |
| `DeployJobs.ExitFor` | test/unit/jobs/deploy_job_test.rb:46-73 | An error is raised to the caller if and only if the deploy ends in `error`. The error raised is the outcome itself. |
| `RubygemsDiscovery.Gemspec` | lib/deploy_spec/rubygems_discovery.rb:16-18 | `nil` if and only if the glob matched nothing, otherwise the first match. |
| `RubygemsDiscovery.IsGem` | lib/deploy_spec/rubygems_discovery.rb:12-14 | True if and only if the glob matched at least one path. |
| `RubygemsDiscovery.PublishGem` | lib/deploy_spec/rubygems_discovery.rb:20-22 | Exactly two steps. The second is `bundle exec rake release`. When there is a gemspec, the first is a tag check that names that gemspec. |
| `RubygemsDiscovery.DiscoverGem` | lib/deploy_spec/rubygems_discovery.rb:8-10 | Steps are returned if and only if a gemspec exists. They are the publish steps and never empty, so the `||` after it cannot fall through. |
| `RubygemsDiscovery.DiscoverDeploySteps` | lib/deploy_spec/rubygems_discovery.rb:4-6 | With a gemspec, the steps are `assert-gem-version-tag <first match>` and then `bundle exec rake release`. Without one, they are exactly the fallback. |
| `RubygemsDiscovery.TagCheckRoundTrip` | lib/deploy_spec/rubygems_discovery.rb:21 | Reading a tag-check step built from a path gives back that path. |
| `RubygemsDiscovery.OneTagCheckFirst` | lib/deploy_spec/rubygems_discovery.rb:20-22 | Whatever the glob matched, the publish steps hold exactly one tag check. It is the first step, and it names the interpolated gemspec. |
| `RubygemsDiscovery.FallbackOnlyWithoutGem` | lib/deploy_spec/rubygems_discovery.rb:4-6 | Two fallbacks give the same steps if and only if a gemspec exists or the two fallbacks are equal. So the fallback counts exactly when there is no gemspec. |

## Left out

- DeployJobs.DeployJob.Perform: enqueues the follow-up job after every successful deploy and does not consult `supports_fetch_deployed_revision`. The test at test/unit/jobs/deploy_job_test.rb:28-35 enqueues it on success and no test makes it depend on the flag, so whether the job gates on it is not modelled.
- DeployJobs.DeployJob.Perform: enqueues no follow-up job when the run ends `failed` or `error`. The test at test/unit/jobs/deploy_job_test.rb:28-35 only observes a successful run, so leaving the queue alone on failure is the model's own choice.
- DeployJobs.ExitFor: an application error carries no message, so "the error raised is the outcome itself" says only that an error of the same kind propagates. The test at test/unit/jobs/deploy_job_test.rb:46-52 checks only the class of the raised error.
- DeployJobs.DeployJob.Perform: records the stack's capability flags on every path a pending deploy takes, failures included. The test at test/unit/jobs/deploy_job_test.rb:75-100 only observes the successful case, so recording on failure paths is the model's own choice.
- DeployJobs.DeployJob.Perform: runs the stages in the order fetch, clone, checkout, install_dependencies, deploy, and its contract (through `Drive` and `Pipeline`) fixes that order exactly. The tests at test/unit/jobs/deploy_job_test.rb:17-21 set expectations on each stage without a sequence, so they assert each stage once but not the order; the order is the model's own choice.
- DeployJobs.DeployJob.Perform: a non-pending deploy is left completely untouched, including its working directory. The test at test/unit/jobs/deploy_job_test.rb:60-64 only shows that nothing is captured; leaving everything else alone is the model's own choice.
- Every stage is modelled as a list of commands, captured one by one. At test/unit/jobs/deploy_job_test.rb:17-21 fetch, clone and checkout return nil while install_dependencies and deploy return `[]`, which suggests the first three are single commands and the last two are lists the job iterates over. The model treats every stage as a list and a single command as a list of one.
- `Deploy.find` and its not-found error, `reload`, and the persistence of records are left out. The model works on in-memory objects.
- Spawning processes, capturing output, the `Timeout.timeout` wall-clock race and process-group termination are left out. A timeout is an outcome given with the command, and termination is an entry in the job's `terminated` log.
- The Resque queue is modelled only as a sequence the job appends to. Workers, retries and at-least-once delivery are left out.
- `Dir.chdir` into the working directory and the directory itself are left out. Only the cleanup (`clear_working_directory`) is counted.
- Two deliveries of the same deploy that both see it pending are not modelled, because the model is sequential.
- The `*.gemspec` glob (`Dir[file('*.gemspec')]`) and the deploy root it is relative to are left out. The glob's result is an input list, in whatever order the glob returns it.
- `super` in `discover_deploy_steps` is an input value. The other discovery strategies are not part of this model.
