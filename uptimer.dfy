/**
 * The control flow of main in main.go: flags and configuration checks that
 * exit early, the setup steps that may clear performMeasurements, the
 * measurement roster, the orchestrator run and the teardown that always
 * follows it.
 */
module Uptimer {
  import opened Wrappers
  import opened Measurements
  import opened Runner

  /** The command-line flags. */
  datatype Flags = Flags(configFile: string, resultFile: string, showVersion: bool)

  /** The parts of the loaded configuration that main itself reads. */
  datatype Config = Config(allowedFailures: AllowedFailures, runAppSyslogAvailability: bool)

  /** The bundled sample apps main writes into temporary directories. */
  datatype SampleApp = App | WinApp | SinkApp

  /** main.go:51-66: the configuration, or why main exits 1 before any setup. */
  function LoadConfig(flags: Flags, load: string -> Result<Config, string>, validate: Config -> Option<string>)
    : (r: Result<Config, string>)
    ensures r.Success? <==> flags.configFile != "" && load(flags.configFile).Success?
                            && validate(load(flags.configFile).value).None?
    ensures r.Success? ==> r.value == load(flags.configFile).value
  {
    if flags.configFile == "" then Failure("'-configFile' flag required")
    else match load(flags.configFile)
      case Failure(e) => Failure(e)
      case Success(cfg) =>
        match validate(cfg)
        case Some(e) => Failure(e)
        case None => Success(cfg)
  }

  /** The directory a sample app was prepared in; prepareIncludedApp returns "" when it fails. */
  function PreparedPath(prepared: SampleApp -> Option<string>, a: SampleApp): (path: string)
    ensures prepared(a).None? ==> path == ""
    ensures prepared(a).Some? ==> path == prepared(a).value
  {
    if prepared(a).Some? then prepared(a).value else ""
  }

  /** The workflow setups main runs itself, in order (main.go:103-162). */
  function WorkflowSetupPlan(syslog: bool): (plan: seq<Step>)
    ensures |plan| == if syslog then 3 else 2
    ensures plan[0] == Step(Invocation(Push, Setup), "push workflow setup")
    ensures plan[1] == Step(Invocation(WinPush, Setup), "push Windows workflow setup")
    ensures syslog ==> plan[2] == Step(Invocation(Sink, SetupPushMapRoute), "sink workflow setup")
    ensures forall i :: 0 <= i < |plan| ==> plan[i].inv.role != Main
  {
    [ Step(Invocation(Push, Setup), "push workflow setup"),
      Step(Invocation(WinPush, Setup), "push Windows workflow setup") ]
    + (if syslog then [Step(Invocation(Sink, SetupPushMapRoute), "sink workflow setup")] else [])
  }

  /** Every setup sequence of main on the buffered runner, the orchestrator's last. */
  function SetupPlan(syslog: bool): (plan: seq<Step>)
    ensures |plan| == if syslog then 4 else 3
    ensures plan[0].inv == Invocation(Push, Setup) && plan[1].inv == Invocation(WinPush, Setup)
    ensures plan[|plan| - 1] == Step(Invocation(Main, Setup), "main workflow setup")
    ensures forall i :: 0 <= i < |plan| ==> (plan[i].inv.role == Sink <==> syslog && i == 2)
    ensures forall i :: 0 <= i < |plan| ==> plan[i].inv.phase != TearDown
  {
    WorkflowSetupPlan(syslog) + [Step(Invocation(Main, Setup), "main workflow setup")]
  }

  /** performMeasurements after setup: every step whose failure clears it succeeded. */
  function SetupSucceeded(prepared: SampleApp -> Option<string>, tmpDirsOk: bool, failing: set<Invocation>, syslog: bool)
    : (ok: bool)
    ensures ok <==> prepared(App).Some? && prepared(WinApp).Some? && tmpDirsOk
                    && forall i :: 0 <= i < |SetupPlan(syslog)| ==> SetupPlan(syslog)[i].inv !in failing
  {
    var plan := SetupPlan(syslog);
    assert plan[0].inv == Invocation(Push, Setup) && plan[1].inv == Invocation(WinPush, Setup);
    assert plan[|plan| - 1].inv == Invocation(Main, Setup);
    assert syslog ==> plan[2].inv == Invocation(Sink, SetupPushMapRoute);
    assert |plan| == if syslog then 4 else 3;
    && prepared(App).Some?
    && prepared(WinApp).Some?
    && tmpDirsOk
    && Invocation(Push, Setup) !in failing
    && Invocation(WinPush, Setup) !in failing
    && (syslog ==> Invocation(Sink, SetupPushMapRoute) !in failing)
    && Invocation(Main, Setup) !in failing
  }

  /** A preparation or setup step of main that can fail. */
  datatype SetupStep = Prepare(app: SampleApp) | CreateTmpDirs | RunSetup(inv: Invocation)

  /** Every step that main attempted and that failed. */
  function SetupFailures(prepared: SampleApp -> Option<string>, tmpDirsOk: bool, failing: set<Invocation>, syslog: bool)
    : set<SetupStep>
  {
    (if prepared(App).None? then {Prepare(App)} else {})
    + (if prepared(WinApp).None? then {Prepare(WinApp)} else {})
    + (if syslog && prepared(SinkApp).None? then {Prepare(SinkApp)} else {})
    + (if tmpDirsOk then {} else {CreateTmpDirs})
    + (set s | s in SetupPlan(syslog) && s.inv in failing :: RunSetup(s.inv))
  }

  /**
   * performMeasurements ends false iff some step failed other than preparing
   * the syslog sink app, whose failure alone leaves it true.
   */
  lemma SetupSucceededIff(prepared: SampleApp -> Option<string>, tmpDirsOk: bool, failing: set<Invocation>, syslog: bool)
    ensures SetupSucceeded(prepared, tmpDirsOk, failing, syslog)
        <==> SetupFailures(prepared, tmpDirsOk, failing, syslog) <= {Prepare(SinkApp)}
  {
    var plan := SetupPlan(syslog);
    var fs := SetupFailures(prepared, tmpDirsOk, failing, syslog);
    assert plan[0].inv == Invocation(Push, Setup) && plan[1].inv == Invocation(WinPush, Setup);
    assert plan[|plan| - 1].inv == Invocation(Main, Setup);
    assert syslog ==> plan[2].inv == Invocation(Sink, SetupPushMapRoute);
    if SetupSucceeded(prepared, tmpDirsOk, failing, syslog) {
      forall s | s in plan ensures s.inv !in failing {
        var i :| 0 <= i < |plan| && plan[i] == s;
        assert i == 0 || i == 1 || i == |plan| - 1 || (syslog && i == 2);
      }
    } else {
      if Invocation(Push, Setup) in failing {
        assert plan[0] in plan;
        assert RunSetup(Invocation(Push, Setup)) in fs;
      } else if Invocation(WinPush, Setup) in failing {
        assert plan[1] in plan;
        assert RunSetup(Invocation(WinPush, Setup)) in fs;
      } else if syslog && Invocation(Sink, SetupPushMapRoute) in failing {
        assert plan[2] in plan;
        assert RunSetup(Invocation(Sink, SetupPushMapRoute)) in fs;
      } else if Invocation(Main, Setup) in failing {
        assert plan[|plan| - 1] in plan;
        assert RunSetup(Invocation(Main, Setup)) in fs;
      }
    }
  }

  /** Whether the sink app could be prepared has no bearing on performMeasurements. */
  lemma SinkAppPreparationNeverGates(
    prepared: SampleApp -> Option<string>, prepared': SampleApp -> Option<string>,
    tmpDirsOk: bool, failing: set<Invocation>, syslog: bool)
    requires prepared(App) == prepared'(App) && prepared(WinApp) == prepared'(WinApp)
    ensures SetupSucceeded(prepared, tmpDirsOk, failing, syslog) == SetupSucceeded(prepared', tmpDirsOk, failing, syslog)
  {
  }

  /** The workflow createWorkflow builds from the four identifiers drawn from index k on. */
  function WorkflowFrom(appPath: string, uuid: nat -> string, k: nat): Workflow {
    CreateWorkflow(appPath, uuid(k), uuid(k + 1), uuid(k + 2), uuid(k + 3))
  }

  /** The roster main hands the orchestrator, with the workflows it names along the way. */
  function MainRoster(cfg: Config, prepared: SampleApp -> Option<string>, uuid: nat -> string): (r: seq<Measurement>)
    ensures |r| == if cfg.runAppSyslogAvailability then 6 else 5
    ensures r[0].probe == HttpAvailability(WorkflowFrom(PreparedPath(prepared, App), uuid,
                                                        if cfg.runAppSyslogAvailability then 12 else 8))
    ensures r[1].probe == AppPushability(TickGenerator(WorkflowFrom(PreparedPath(prepared, App), uuid, 0),
                                                       PreparedPath(prepared, App)))
    ensures r[2].probe.AppPushability? && r[2].probe.generator.base == WorkflowFrom(PreparedPath(prepared, WinApp), uuid, 4)
    ensures cfg.runAppSyslogAvailability ==> r[5].probe == SyslogDrain(WorkflowFrom(PreparedPath(prepared, SinkApp), uuid, 8))
  {
    var syslog := cfg.runAppSyslogAvailability;
    var appPath := PreparedPath(prepared, App);
    var push := WorkflowFrom(appPath, uuid, 0);
    var winPush := WorkflowFrom(PreparedPath(prepared, WinApp), uuid, 4);
    var sink := if syslog then Some(WorkflowFrom(PreparedPath(prepared, SinkApp), uuid, 8)) else None;
    var orc := WorkflowFrom(appPath, uuid, if syslog then 12 else 8);
    Roster(orc, TickGenerator(push, appPath), TickGenerator(winPush, appPath), sink, cfg.allowedFailures)
  }

  /**
   * The Windows push probe deploys, on every tick, from the Linux app's
   * directory into the Windows workflow's org and space.
   */
  lemma WindowsTicksPushLinuxApp(cfg: Config, prepared: SampleApp -> Option<string>, uuid: nat -> string, appId: string)
    ensures var r := MainRoster(cfg, prepared, uuid);
            && r[2].probe.AppPushability?
            && var w := GenerateTickWorkflow(r[2].probe.generator, appId);
            && w.appPath == PreparedPath(prepared, App)
            && w.org == WorkflowFrom(PreparedPath(prepared, WinApp), uuid, 4).org
            && r[2].probe.generator.base.appPath == PreparedPath(prepared, WinApp)
  {
  }

  /** Over a whole session, every setup and teardown sequence is attempted in order, whatever fails. */
  lemma SessionAttemptsEverySequence(sc: Script, syslog: bool)
    ensures RunSteps(sc, Trace([], [], [], []), SetupPlan(syslog) + TearDownPlan(syslog)).log
         == Invocations(SetupPlan(syslog)) + Invocations(TearDownPlan(syslog))
  {
    RunStepsAttemptsAll(sc, Trace([], [], [], []), SetupPlan(syslog) + TearDownPlan(syslog));
    assert Invocations(SetupPlan(syslog) + TearDownPlan(syslog))
        == Invocations(SetupPlan(syslog)) + Invocations(TearDownPlan(syslog));
  }

  /**
   * main. Early exits return with no runner; otherwise setup, the
   * orchestrator run and teardown happen in that order and the exit code is
   * the orchestrator's.
   */
  method RunUptimer(
    flags: Flags,
    load: string -> Result<Config, string>,
    validate: Config -> Option<string>,
    prepared: SampleApp -> Option<string>,
    tmpDirsOk: bool,
    script: Script,
    uuid: nat -> string,
    orcRun: (bool, string) -> int)
    returns (exitCode: int, logger: Logger, runner: CmdRunner?, performMeasurements: bool, measurements: seq<Measurement>)
    ensures fresh(logger)
    ensures flags.showVersion ==> exitCode == 0 && runner == null && logger.lines == []
    ensures !flags.showVersion && LoadConfig(flags, load, validate).Failure? ==>
              exitCode == 1 && runner == null && logger.lines == []
    ensures !flags.showVersion && LoadConfig(flags, load, validate).Success? ==>
              var cfg := LoadConfig(flags, load, validate).value;
              var syslog := cfg.runAppSyslogAvailability;
              && runner != null && fresh(runner) && runner.script == script
              && performMeasurements == SetupSucceeded(prepared, tmpDirsOk, script.failing, syslog)
              && exitCode == orcRun(performMeasurements, flags.resultFile)
              && TraceOf(runner, logger) == RunSteps(script, Trace([], [], [], []), SetupPlan(syslog) + TearDownPlan(syslog))
              && measurements == MainRoster(cfg, prepared, uuid)
  {
    logger := new Logger();
    runner := null;
    performMeasurements := false;
    measurements := [];
    if flags.showVersion {
      exitCode := 0;
      return;
    }
    var config := LoadConfig(flags, load, validate);
    if config.Failure? {
      exitCode := 1;
      return;
    }
    var r;
    exitCode, r, performMeasurements, measurements :=
      RunSession(logger, config.value, flags.resultFile, prepared, tmpDirsOk, script, uuid, orcRun);
    runner := r;
  }

  /** main from main.go:68 on, once the configuration is known to be valid. */
  method RunSession(
    logger: Logger,
    cfg: Config,
    resultFile: string,
    prepared: SampleApp -> Option<string>,
    tmpDirsOk: bool,
    script: Script,
    uuid: nat -> string,
    orcRun: (bool, string) -> int)
    returns (exitCode: int, runner: CmdRunner, performMeasurements: bool, measurements: seq<Measurement>)
    requires logger.lines == []
    modifies logger
    ensures fresh(runner) && runner.script == script
    ensures performMeasurements == SetupSucceeded(prepared, tmpDirsOk, script.failing, cfg.runAppSyslogAvailability)
    ensures exitCode == orcRun(performMeasurements, resultFile)
    ensures TraceOf(runner, logger)
         == RunSteps(script, Trace([], [], [], []),
                     SetupPlan(cfg.runAppSyslogAvailability) + TearDownPlan(cfg.runAppSyslogAvailability))
    ensures measurements == MainRoster(cfg, prepared, uuid)
  {
    var syslog := cfg.runAppSyslogAvailability;

    var appPath, winAppPath, sinkAppPath;
    performMeasurements, appPath, winAppPath, sinkAppPath := PrepareSampleApps(prepared, tmpDirsOk, syslog);

    runner := new CmdRunner(script);
    ghost var t0 := TraceOf(runner, logger);

    var setupOk, pushGenerator, winPushGenerator, sinkWorkflow, next :=
      SetUpWorkflows(runner, logger, appPath, winAppPath, sinkAppPath, syslog, uuid);
    if !setupOk { performMeasurements := false; }

    var orcWorkflow := CreateWorkflow(appPath, uuid(next), uuid(next + 1), uuid(next + 2), uuid(next + 3));
    measurements := AssembleMeasurements(orcWorkflow, pushGenerator, winPushGenerator, sinkWorkflow, cfg.allowedFailures, syslog);

    var step := Step(Invocation(Main, Setup), "main workflow setup");
    var failed := RunReported(runner, logger, step);
    if failed { performMeasurements := false; }
    RunStepsSnoc(script, t0, WorkflowSetupPlan(syslog), step);

    exitCode := orcRun(performMeasurements, resultFile);

    TearDownAll(runner, logger, sinkWorkflow);
    RunStepsAppend(script, t0, SetupPlan(syslog), TearDownPlan(syslog));
  }

  /**
   * main.go:68-101: prepares the sample apps and temp directories. ok is
   * performMeasurements so far: false iff the app, the Windows app or the
   * temp directories failed; the sink app is prepared only with syslog, and
   * its failure does not count.
   */
  method PrepareSampleApps(prepared: SampleApp -> Option<string>, tmpDirsOk: bool, syslog: bool)
    returns (ok: bool, appPath: string, winAppPath: string, sinkAppPath: string)
    ensures ok == (prepared(App).Some? && prepared(WinApp).Some? && tmpDirsOk)
    ensures appPath == PreparedPath(prepared, App) && winAppPath == PreparedPath(prepared, WinApp)
    ensures sinkAppPath == if syslog then PreparedPath(prepared, SinkApp) else ""
  {
    ok := true;
    appPath := "";
    if prepared(App).Some? { appPath := prepared(App).value; } else { ok := false; }
    winAppPath := "";
    if prepared(WinApp).Some? { winAppPath := prepared(WinApp).value; } else { ok := false; }
    sinkAppPath := "";
    if syslog && prepared(SinkApp).Some? {
      // a failure here is logged but does not clear performMeasurements
      sinkAppPath := prepared(SinkApp).value;
    }
    if !tmpDirsOk {
      ok := false;
    }
  }

  /** main.go:172-198: the five fixed measurements, with the syslog one appended when there is a sink. */
  method AssembleMeasurements(
    orc: Workflow, pushGenerator: TickGenerator, winPushGenerator: TickGenerator,
    sinkWorkflow: Option<Workflow>, allowed: AllowedFailures, syslog: bool)
    returns (measurements: seq<Measurement>)
    requires sinkWorkflow.Some? == syslog
    ensures measurements == Roster(orc, pushGenerator, winPushGenerator, sinkWorkflow, allowed)
  {
    measurements := CreateMeasurements(orc, pushGenerator, winPushGenerator, allowed);
    if syslog {
      measurements := measurements + [CreateAppSyslogAvailabilityMeasurement(sinkWorkflow.value, allowed)];
    }
  }

  /**
   * main.go:103-162: names the push, Windows push and (with syslog) sink
   * workflows, runs their setups and builds the per-tick generators. ok is
   * false iff one of those setups failed; next is the first unused identifier.
   */
  method SetUpWorkflows(
    runner: CmdRunner, logger: Logger,
    appPath: string, winAppPath: string, sinkAppPath: string, syslog: bool, uuid: nat -> string)
    returns (ok: bool, pushGenerator: TickGenerator, winPushGenerator: TickGenerator,
             sinkWorkflow: Option<Workflow>, next: nat)
    requires runner.Valid()
    modifies runner, runner.outBuf, runner.errBuf, logger
    ensures TraceOf(runner, logger) == RunSteps(runner.script, old(TraceOf(runner, logger)), WorkflowSetupPlan(syslog))
    ensures ok == (&& Invocation(Push, Setup) !in runner.script.failing
                   && Invocation(WinPush, Setup) !in runner.script.failing
                   && (syslog ==> Invocation(Sink, SetupPushMapRoute) !in runner.script.failing))
    ensures pushGenerator == TickGenerator(WorkflowFrom(appPath, uuid, 0), appPath)
    ensures winPushGenerator == TickGenerator(WorkflowFrom(winAppPath, uuid, 4), appPath)
    ensures sinkWorkflow == if syslog then Some(WorkflowFrom(sinkAppPath, uuid, 8)) else None
    ensures next == if syslog then 12 else 8
  {
    ghost var t0 := TraceOf(runner, logger);
    ghost var plan := WorkflowSetupPlan(syslog);
    ok := true;

    var pushWorkflow := CreateWorkflow(appPath, uuid(0), uuid(1), uuid(2), uuid(3));
    var failed := RunReported(runner, logger, Step(Invocation(Push, Setup), "push workflow setup"));
    if failed { ok := false; }
    assert plan[..1] == [plan[0]];
    pushGenerator := TickGenerator(pushWorkflow, appPath);

    var winPushWorkflow := CreateWorkflow(winAppPath, uuid(4), uuid(5), uuid(6), uuid(7));
    failed := RunReported(runner, logger, Step(Invocation(WinPush, Setup), "push Windows workflow setup"));
    if failed { ok := false; }
    RunStepsSnoc(runner.script, t0, plan[..1], plan[1]);
    assert plan[..1] + [plan[1]] == plan[..2];
    // each tick deploys appPath, not winAppPath, as main.go does
    winPushGenerator := TickGenerator(winPushWorkflow, appPath);

    sinkWorkflow := None;
    next := 8;
    if syslog {
      sinkWorkflow := Some(CreateWorkflow(sinkAppPath, uuid(8), uuid(9), uuid(10), uuid(11)));
      next := 12;
      failed := RunReported(runner, logger, Step(Invocation(Sink, SetupPushMapRoute), "sink workflow setup"));
      if failed { ok := false; }
      RunStepsSnoc(runner.script, t0, plan[..2], plan[2]);
      assert plan[..2] + [plan[2]] == plan;
    } else {
      assert plan[..2] == plan;
    }
  }
}
