# uptimer entry point, modelled in Dafny

uptimer checks a Cloud Foundry deployment: for one session it runs periodic
probes (HTTP availability, app pushability for Linux and Windows, recent logs,
streaming logs and, optionally, syslog drain availability) and renders one
pass/fail verdict. This project models the part of the program that lives in
`main.go`, which joins the measurement packages together:

- the manifests written next to the bundled sample apps (`goManifest`, `winManifest`);
- the retry predicates: the auth-expiry substring test and the HTTP probe's constant-false one;
- how the workflows are named (`createWorkflow`, the per-tick generator closures);
- the fixed, ordered roster of periodic measurements (`createMeasurements`,
  `createAppSyslogAvailabilityMeasurement`, and the append in `main`);
- the flow of `main`: `-v` and configuration problems exit early; then
  `performMeasurements` is cleared step by step by particular failures; the
  orchestrator runs; teardown always follows;
- `logBufferedRunnerFailure` and the best-effort `tearDown`.

Modules: `Wrappers` (Option, Result), `Strings` (prefix and substring tests),
`Manifest`, `Retry`, `Measurements` (workflows and the roster), `Runner`
(the buffers, the logger, a scripted command runner, failure reports,
teardown) and `Uptimer` (`main`).

The command runner is a stub. Each `RunInSequence` call is one `Invocation`
(a workflow role and a phase). A `Script` decides whether the invocation
fails and what it writes to stdout and stderr. `orc.Setup` and `orc.TearDown`
are one invocation each on the same buffered runner. `orc.Run` is an injected
function from (`performMeasurements`, result path) to an exit code. What the
runner and logger do across a whole session is given by the functions
`RunStep`/`RunSteps` over a `Trace` (invocation log, both buffers, logged
reports). The methods are proved to leave exactly that trace.

Points where the code behaves in ways worth knowing, all kept as written:

- Failing to prepare the syslog sink app is logged but does not clear
  `performMeasurements` (main.go:91-95).
- The Windows per-tick push workflow deploys `appPath`, the Linux app's
  directory, into the Windows workflow's org and space (main.go:141).
- The buffers are reset only after a failure is logged. The output of
  successful sequences stays buffered and shows up in the next failure report.
- A Windows push teardown failure is reported as "push workflow teardown",
  the same words as the Linux push teardown (main.go:565).
- The Windows buildpack stanza is the single line
  `"  buildpacks:  - hwc_buildpack\n"` (main.go:334). The Go one breaks after
  the key (main.go:349), so switching detection off adds two lines to the Go
  manifest but only one to the Windows manifest.
- Both push probes are charged to the same `AppPushability` budget.

A setup failure does not skip the run. `main` passes `performMeasurements`
to `orc.Run` (main.go:213) and exits with whatever it returns, so the model
promises only `exitCode == orcRun(performMeasurements, resultFile)`. The exit
code is computed before teardown, so teardown cannot change it.

## Model

| member | source | states |
|---|---|---|
| `Strings.Contains` | main.go:169 | a string never contains a text longer than itself |
| `Strings.ContainsIffOccurs` | main.go:169 | the substring test holds iff the text occurs at some index, in both directions |
| `Strings.ContainsInfix` | main.go:169 | a text occurs in any string that has it as an infix |
| `Manifest.GoManifest` | main.go:339-352 | the Go manifest starts with `applications:` and the `- name:` line for the app; its length is the template's plus twice the name, plus the buildpack stanza exactly when detection is off |
| `Manifest.WinManifest` | main.go:326-337 | the Windows manifest starts with the `- name:` line; its length is the template's plus the name, plus the buildpack line exactly when detection is off |
| `Manifest.GoManifestBuildpackSuffix` | main.go:348-350 | without detection the Go manifest is the detecting one followed by `"  buildpacks:\n  - go_buildpack\n"` |
| `Manifest.WinManifestBuildpackSuffix` | main.go:333-335 | without detection the Windows manifest is the detecting one followed by `"  buildpacks:  - hwc_buildpack\n"` |
| `Manifest.GoManifestNamesPackage` | main.go:340-346 | the Go manifest contains the `GOPACKAGENAME: github.com/cloudfoundry/uptimer/<name>` line |
| `Manifest.GoManifestNamesBuildpack` | main.go:348-350 | without detection the Go manifest names `go_buildpack` |
| `Manifest.WinManifestNamesBuildpack` | main.go:333-335 | without detection the Windows manifest names `hwc_buildpack` |
| `Manifest.LineCountAppend` | main.go:326-352 | helper behind `GoBuildpackStanzaLines` and `WinBuildpackStanzaLines`: the line count of two texts joined is the sum of their line counts |
| `Manifest.GoBuildpackStanzaLines` | main.go:348-350 | switching detection off adds exactly two lines to the Go manifest |
| `Manifest.WinBuildpackStanzaLines` | main.go:333-335 | switching detection off adds exactly one line to the Windows manifest: key and list item share a line |
| `Manifest.GoManifestInjective` | main.go:339-352 | two Go manifests are equal only if they have the same app name and the same detection mode |
| `Manifest.WinManifestInjective` | main.go:326-337 | two Windows manifests are equal only if they have the same app name and the same detection mode |
| `Retry.AuthFailedRetry` | main.go:167-170 | retry iff the exact expiry message occurs in stdout or in stderr |
| `Retry.NeverRetry` | main.go:447 | the HTTP probe's predicate is false for every input |
| `Retry.AuthFailedRetryOnEitherStream` | main.go:167-170 | the message anywhere in either stream triggers a retry, whatever the other stream holds |
| `Retry.ShortOutputNotRetried` | main.go:167-170 | output shorter than the message on both streams is never retried |
| `Retry.ShouldRetry` | main.go:166-170 | a measurement built with the HTTP probe's predicate never retries; one built with the auth-expiry predicate retries iff the message occurs in stdout or in stderr |
| `Measurements.BudgetOf` | main.go:439-515 | each probe kind is charged to its own field of the failure budgets; both push probes to `AppPushability` |
| `Measurements.CreateWorkflow` | main.go:354-363 | the org, space, quota and app names are `uptimer-org-`, `uptimer-space-`, `uptimer-quota-`, `uptimer-app-` followed by the given identifiers; the workflow pushes the given path |
| `Measurements.GenerateTickWorkflow` | main.go:114-123 | a tick's workflow keeps the base workflow's org, space and quota, names a fresh `uptimer-app-` app and deploys the generator's path |
| `Measurements.TickWorkflowsDifferOnlyInApp` | main.go:114-123 | two ticks with different identifiers deploy differently named apps into the same space |
| `Measurements.CreateMeasurements` | main.go:439-485 | five measurements, in the order HTTP (main workflow), push, Windows push, recent logs, streaming logs, all measuring immediately |
| `Measurements.CreateAppSyslogAvailabilityMeasurement` | main.go:507-515 | the syslog measurement drains the sink workflow, starts after one interval, and is charged to the syslog budget |
| `Measurements.Roster` | main.go:186-198 | the roster is the five fixed measurements plus the syslog one iff there is a sink; each is charged to its kind's budget field; only HTTP never retries; only syslog starts late; every interval is positive |
| `Measurements.RosterSchedule` | main.go:439-485 | the intervals are 1 s, 60 s, 60 s, 10 s, 30 s, then 30 s for syslog when enabled |
| `Measurements.RosterRetryBehaviour` | main.go:439-485 | an entry retries a failure iff it is not the HTTP entry and the auth-expiry predicate matches |
| `Runner.Buffer.Write` | main.go:518-522 | a write into a runner's buffer appends the text to what the buffer already holds |
| `Runner.Buffer.Reset` | main.go:538-539 | a reset buffer is empty |
| `Runner.CmdRunner.constructor` | main.go:518-523 | a buffered runner starts with two fresh, distinct, empty buffers and has run nothing |
| `Runner.CmdRunner.RunInSequence` | main.go:108 | a run is recorded, its stdout and stderr are appended to the buffers, and it returns an error iff the sequence fails |
| `Runner.Logger.Printf` | main.go:531-537 | the logger keeps every earlier line and adds the printed one after them |
| `Runner.FailureReport` | main.go:531-532 | the report starts with `Failed <what>: ` and is exactly as long as its four parts plus the fixed framing text |
| `Runner.FailureReportShows` | main.go:531-537 | the failure report starts with `Failed <what>: ` and contains the error and both buffered transcripts |
| `Runner.LogBufferedRunnerFailure` | main.go:525-540 | logs one report of the buffers' previous contents, then both buffers are empty |
| `Runner.RunStep` | main.go:556-558 | a step is always recorded; after a failure both buffers are empty; after a success stdout has grown by the step's output and nothing is reported |
| `Runner.RunSteps` | main.go:556-572 | every step adds one entry to the invocation log and at most one report |
| `Runner.RunStepsAttemptsAll` | main.go:556-572 | every step of a best-effort sequence is attempted, in order, whatever fails |
| `Runner.RunStepsReportsEachFailure` | main.go:556-572 | exactly one report is logged per failed step |
| `Runner.RunStepsAccumulate` | main.go:108-113 | while nothing fails nothing is reported, and the stdout and stderr buffers hold all output so far |
| `Runner.FailureReportsBufferedOutput` | main.go:531-539 | a failing step's report holds everything buffered since the previous failure, including the output of successful steps; both buffers are then empty |
| `Runner.TearDownPlan` | main.go:556-572 | teardown has three steps, or four with a sink workflow; all are teardowns and only the fourth is the sink's |
| `Runner.TearDownAttemptsAll` | main.go:556-572 | teardown attempts main, push and Windows push in that order, then the sink iff there is a sink workflow, whatever fails |
| `Runner.RunReported` | main.go:556-558 | one run followed, on error, by a failure report; the trace advances by exactly one step |
| `Runner.TearDownAll` | main.go:542-573 | the runner and logger end in the trace of the full teardown plan |
| `Uptimer.LoadConfig` | main.go:51-66 | the configuration is usable iff the path is non-empty, loading succeeds and validation reports nothing; it is then the loaded one |
| `Uptimer.PreparedPath` | main.go:267-286 | a sample app that failed to prepare has the path `""`; a prepared one has the directory it was written to |
| `Uptimer.WorkflowSetupPlan` | main.go:103-162 | main's own workflow setups are push ("push workflow setup"), Windows push ("push Windows workflow setup") and, only with syslog, the sink's joined setup, push and map-route ("sink workflow setup"), in that order; none is the main workflow's |
| `Uptimer.SetupPlan` | main.go:103-207 | the setup sequences are three, or four with syslog: push first, Windows push second, the sink third exactly when syslog is on, and the main workflow's ("main workflow setup") last; none is a teardown |
| `Uptimer.SetupSucceeded` | main.go:68-207 | performMeasurements survives setup iff the app and Windows app were prepared, the temp directories were created and no sequence of the setup plan failed |
| `Uptimer.SetupSucceededIff` | main.go:68-207 | performMeasurements stays true iff no failed step is other than preparing the sink app |
| `Uptimer.SinkAppPreparationNeverGates` | main.go:91-95 | failing to prepare the sink app never clears performMeasurements by itself |
| `Uptimer.MainRoster` | main.go:104-198 | the roster has six entries with syslog and five without; the HTTP probe targets the main workflow, built from identifiers 12-15 with syslog and 8-11 without; the push workflow uses 0-3, the Windows push 4-7 and the sink 8-11 |
| `Uptimer.WindowsTicksPushLinuxApp` | main.go:134-143 | each Windows push tick deploys the Linux app's directory into the Windows workflow's org; the Windows workflow itself was set up with the Windows app directory |
| `Uptimer.SessionAttemptsEverySequence` | main.go:103-232 | over a session, every setup and teardown sequence is attempted in order, whatever fails |
| `Uptimer.PrepareSampleApps` | main.go:68-101 | the flag is cleared iff the app, the Windows app or the temp directories fail; a failed app has path ""; the sink app is prepared only with syslog |
| `Uptimer.SetUpWorkflows` | main.go:103-162 | the push, Windows push and (with syslog) sink setups run in order; the result is false iff one of them failed; both tick generators deploy the Linux app path |
| `Uptimer.AssembleMeasurements` | main.go:172-198 | the measurements handed to the orchestrator are the roster, with the syslog measurement iff syslog is enabled |
| `Uptimer.RunSession` | main.go:68-235 | performMeasurements is exactly SetupSucceeded; the exit code is orc.Run's result for it; the runner and logger end in the trace of all setups followed by all teardowns; the measurements are main's roster |
| `Uptimer.RunUptimer` | main.go:37-236 | `-v` exits 0 and a configuration problem exits 1, in both cases before anything runs; otherwise it behaves as RunSession |

## Left out

- winapp/app.go: the sample ASP.NET app's file contents are static data with no behaviour.
- File writes in prepareIncludedApp and prepareIncludedWinApp, temp-directory creation, `os.RemoveAll` and `os.Exit`: these are I/O. Each sample app's preparation is an input (`prepared`: its directory, or failure), as is the temp-directory outcome (`tmpDirsOk`). The exit code is returned rather than passed to `os.Exit`. The manifests are not tied to the prepared directories.
- Logger formatting and most log lines: the logger records only the reports from logBufferedRunnerFailure. Progress messages, config-error messages, the "Failed to prepare ..." lines and "Failed run:" are not recorded. The logger's prefix and timestamps are not modelled.
- Printing the version string for `-v`: only the exit is modelled.
- `flag.Parse` rejecting an unknown flag and exiting with status 2: the flags are given already parsed.
- The `-useBuildpackDetection` flag: it is parsed but only reaches the manifests, which take it as a parameter and are not tied to the prepared directories, so `Flags` leaves it out.
- Strings.Contains, Strings.HasPrefix: Go strings are byte strings, while the model compares character sequences. The two agree whenever the text is valid UTF-8; command output that is not is outside the model. The manifest lengths are counted in characters, which equals bytes for the ASCII templates but not for a non-ASCII app name.
- UUID generation: identifiers come from an injected function `uuid`, read at indices 0, 1, 2, ... in the order main calls `uuid.NewV4`. The model does not assume they are distinct. Per-tick identifiers are an argument of GenerateTickWorkflow.
- The HTTP client settings (certificate checks skipped, no keep-alive, 30 s timeout), the 15 s streaming-log deadline and the real clock: library configuration and timing.
- The measurement, cmdRunner, orchestrator, cfWorkflow, cfCmdGenerator, appLogValidator and config packages are not part of this model. Their behaviour is stubbed: one invocation per RunInSequence, orc.Setup and orc.TearDown. When a sequence fails part-way, the output it wrote is taken as a whole from the script. orc.Run is an injected function. The HTTP probe's URL is represented by the workflow it belongs to. The CF connection settings and the command generators' temp directories are not modelled.
- Concurrency of the measurements and the session duration: these happen inside orc.Run, which is not part of this model.
