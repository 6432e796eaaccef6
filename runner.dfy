/**
 * The buffered command runner as main.go uses it, with the workflows'
 * command sequences abstracted to invocations of a scripted stub, together
 * with logBufferedRunnerFailure and the best-effort tearDown.
 */
module Runner {
  import opened Wrappers
  import opened Strings
  import opened Measurements

  /** Which workflow a command sequence belongs to. */
  datatype Role = Main | Push | WinPush | Sink

  /** Which of a workflow's sequences is run; the sink's setup is Setup, Push and MapRoute joined. */
  datatype Phase = Setup | SetupPushMapRoute | TearDown

  /** One RunInSequence call. */
  datatype Invocation = Invocation(role: Role, phase: Phase)

  /** What the stubbed runner does with each invocation: whether it fails, what it prints, its error text. */
  datatype Script = Script(
    failing: set<Invocation>,
    stdout: Invocation -> string,
    stderr: Invocation -> string,
    errorText: Invocation -> string)

  /** A bytes.Buffer holding text. */
  class Buffer {
    var contents: string

    constructor ()
      ensures contents == []
    {
      contents := [];
    }

    method Write(s: string)
      modifies this
      ensures contents == old(contents) + s
    {
      contents := contents + s;
    }

    method Reset()
      modifies this
      ensures contents == []
    {
      contents := [];
    }
  }

  /** The process logger; it keeps the lines it was asked to print. */
  class Logger {
    var lines: seq<string>

    constructor ()
      ensures lines == []
    {
      lines := [];
    }

    method Printf(line: string)
      modifies this
      ensures lines == old(lines) + [line]
    {
      lines := lines + [line];
    }
  }

  /** A command runner writing into two buffers of its own (createBufferedRunner). */
  class CmdRunner {
    const script: Script
    const outBuf: Buffer
    const errBuf: Buffer
    var log: seq<Invocation>

    ghost predicate Valid() {
      outBuf != errBuf
    }

    constructor (script: Script)
      ensures Valid() && this.script == script
      ensures fresh(outBuf) && fresh(errBuf)
      ensures log == [] && outBuf.contents == [] && errBuf.contents == []
    {
      this.script := script;
      outBuf := new Buffer();
      errBuf := new Buffer();
      log := [];
    }

    /** Runs one sequence: its output goes to the buffers, and an error comes back if it failed. */
    method RunInSequence(inv: Invocation) returns (err: Option<string>)
      requires Valid()
      modifies this, outBuf, errBuf
      ensures log == old(log) + [inv]
      ensures outBuf.contents == old(outBuf.contents) + script.stdout(inv)
      ensures errBuf.contents == old(errBuf.contents) + script.stderr(inv)
      ensures err == if inv in script.failing then Some(script.errorText(inv)) else None
    {
      log := log + [inv];
      outBuf.Write(script.stdout(inv));
      errBuf.Write(script.stderr(inv));
      err := if inv in script.failing then Some(script.errorText(inv)) else None;
    }
  }

  /** The line logBufferedRunnerFailure prints. */
  function FailureReport(whatFailed: string, err: string, stdout: string, stderr: string): (r: string)
    ensures HasPrefix(r, "Failed " + whatFailed + ": ")
    ensures |r| == |whatFailed| + |err| + |stdout| + |stderr| + 28
  {
    "Failed " + whatFailed + ": " + err + "\nstdout:\n" + stdout + "\nstderr:\n" + stderr + "\n"
  }

  /** The report names what failed and carries the error and both transcripts. */
  lemma FailureReportShows(whatFailed: string, err: string, stdout: string, stderr: string)
    ensures var r := FailureReport(whatFailed, err, stdout, stderr);
            HasPrefix(r, "Failed " + whatFailed + ": ")
            && Contains(r, err) && Contains(r, stdout) && Contains(r, stderr)
  {
    var head := "Failed " + whatFailed + ": ";
    var r := FailureReport(whatFailed, err, stdout, stderr);
    assert r == head + (err + "\nstdout:\n" + stdout + "\nstderr:\n" + stderr + "\n");
    assert r[..|head|] == head;
    assert r == head + err + ("\nstdout:\n" + stdout + "\nstderr:\n" + stderr + "\n");
    ContainsInfix(head, err, "\nstdout:\n" + stdout + "\nstderr:\n" + stderr + "\n");
    assert r == (head + err + "\nstdout:\n") + stdout + ("\nstderr:\n" + stderr + "\n");
    ContainsInfix(head + err + "\nstdout:\n", stdout, "\nstderr:\n" + stderr + "\n");
    assert r == (head + err + "\nstdout:\n" + stdout + "\nstderr:\n") + stderr + "\n";
    ContainsInfix(head + err + "\nstdout:\n" + stdout + "\nstderr:\n", stderr, "\n");
  }

  /** Logs what failed with everything buffered so far, then empties both buffers. */
  method LogBufferedRunnerFailure(logger: Logger, whatFailed: string, err: string, outBuf: Buffer, errBuf: Buffer)
    modifies logger, outBuf, errBuf
    ensures logger.lines == old(logger.lines)
              + [FailureReport(whatFailed, err, old(outBuf.contents), old(errBuf.contents))]
    ensures outBuf.contents == [] && errBuf.contents == []
  {
    logger.Printf(FailureReport(whatFailed, err, outBuf.contents, errBuf.contents));
    outBuf.Reset();
    errBuf.Reset();
  }

  /** The observable state of the buffered runner and the logger. */
  datatype Trace = Trace(log: seq<Invocation>, out: string, err: string, reports: seq<string>)

  ghost function TraceOf(runner: CmdRunner, logger: Logger): Trace
    reads runner, runner.outBuf, runner.errBuf, logger
  {
    Trace(runner.log, runner.outBuf.contents, runner.errBuf.contents, logger.lines)
  }

  /** A sequence to run and the words naming it in a failure report (whatFailed). */
  datatype Step = Step(inv: Invocation, what: string)

  /**
   * One "run it, and on error log the buffers" step. On success the buffers
   * keep their output, so a later failure report also shows it.
   */
  function RunStep(sc: Script, t: Trace, s: Step): (t': Trace)
    ensures t'.log == t.log + [s.inv]
    ensures s.inv in sc.failing ==> t'.out == [] && t'.err == []
    ensures s.inv !in sc.failing ==> t'.out == t.out + sc.stdout(s.inv) && t'.err == t.err + sc.stderr(s.inv)
                                     && t'.reports == t.reports
  {
    var out := t.out + sc.stdout(s.inv);
    var err := t.err + sc.stderr(s.inv);
    if s.inv in sc.failing then
      Trace(t.log + [s.inv], [], [], t.reports + [FailureReport(s.what, sc.errorText(s.inv), out, err)])
    else
      Trace(t.log + [s.inv], out, err, t.reports)
  }

  /** Steps run one after another, none of them abandoning the rest. */
  function RunSteps(sc: Script, t: Trace, steps: seq<Step>): (t': Trace)
    ensures |t'.log| == |t.log| + |steps|
    ensures |t'.reports| <= |t.reports| + |steps|
    decreases |steps|
  {
    if steps == [] then t
    else RunStep(sc, RunSteps(sc, t, steps[..|steps| - 1]), steps[|steps| - 1])
  }

  function Invocations(steps: seq<Step>): (invs: seq<Invocation>)
    ensures |invs| == |steps|
  {
    seq(|steps|, i requires 0 <= i < |steps| => steps[i].inv)
  }

  /** The number of steps whose sequence fails. */
  function FailedCount(sc: Script, steps: seq<Step>): nat
    decreases |steps|
  {
    if steps == [] then 0
    else FailedCount(sc, steps[..|steps| - 1]) + (if steps[|steps| - 1].inv in sc.failing then 1 else 0)
  }

  /** The stdout of every step, in order. */
  function Outputs(sc: Script, steps: seq<Step>): string
    decreases |steps|
  {
    if steps == [] then [] else Outputs(sc, steps[..|steps| - 1]) + sc.stdout(steps[|steps| - 1].inv)
  }

  /** The stderr of every step, in order. */
  function ErrOutputs(sc: Script, steps: seq<Step>): string
    decreases |steps|
  {
    if steps == [] then [] else ErrOutputs(sc, steps[..|steps| - 1]) + sc.stderr(steps[|steps| - 1].inv)
  }

  lemma RunStepsSnoc(sc: Script, t: Trace, steps: seq<Step>, s: Step)
    ensures RunSteps(sc, t, steps + [s]) == RunStep(sc, RunSteps(sc, t, steps), s)
  {
  }

  /** Running a + b is running a, then b from where a left off. */
  lemma {:induction false} RunStepsAppend(sc: Script, t: Trace, a: seq<Step>, b: seq<Step>)
    ensures RunSteps(sc, t, a + b) == RunSteps(sc, RunSteps(sc, t, a), b)
    decreases |b|
  {
    if b == [] {
      assert a + b == a;
    } else {
      var b' := b[..|b| - 1];
      var s := b[|b| - 1];
      assert b == b' + [s];
      assert a + b == (a + b') + [s];
      RunStepsSnoc(sc, t, a + b', s);
      RunStepsAppend(sc, t, a, b');
      RunStepsSnoc(sc, RunSteps(sc, t, a), b', s);
    }
  }

  /** Every step is attempted, in order, whatever fails. */
  lemma {:induction false} RunStepsAttemptsAll(sc: Script, t: Trace, steps: seq<Step>)
    ensures RunSteps(sc, t, steps).log == t.log + Invocations(steps)
    decreases |steps|
  {
    if steps != [] {
      var front := steps[..|steps| - 1];
      RunStepsAttemptsAll(sc, t, front);
      assert Invocations(steps) == Invocations(front) + [steps[|steps| - 1].inv];
    }
  }

  /** Exactly one report is logged per failed step. */
  lemma {:induction false} RunStepsReportsEachFailure(sc: Script, t: Trace, steps: seq<Step>)
    ensures |RunSteps(sc, t, steps).reports| == |t.reports| + FailedCount(sc, steps)
    decreases |steps|
  {
    if steps != [] {
      RunStepsReportsEachFailure(sc, t, steps[..|steps| - 1]);
    }
  }

  /** While nothing fails, nothing is reported and both buffers only grow. */
  lemma {:induction false} RunStepsAccumulate(sc: Script, t: Trace, steps: seq<Step>)
    requires forall i :: 0 <= i < |steps| ==> steps[i].inv !in sc.failing
    ensures RunSteps(sc, t, steps).reports == t.reports
    ensures RunSteps(sc, t, steps).out == t.out + Outputs(sc, steps)
    ensures RunSteps(sc, t, steps).err == t.err + ErrOutputs(sc, steps)
    decreases |steps|
  {
    if steps != [] {
      RunStepsAccumulate(sc, t, steps[..|steps| - 1]);
    }
  }

  /**
   * A failing step reports its label, its error and everything buffered
   * since the previous failure, including the output of the successful steps
   * in between.
   */
  lemma FailureReportsBufferedOutput(sc: Script, t: Trace, steps: seq<Step>, s: Step)
    requires s.inv in sc.failing
    requires forall i :: 0 <= i < |steps| ==> steps[i].inv !in sc.failing
    ensures var after := RunSteps(sc, t, steps + [s]);
            && after.out == [] && after.err == []
            && after.reports == t.reports + [FailureReport(s.what, sc.errorText(s.inv),
                                   t.out + Outputs(sc, steps) + sc.stdout(s.inv),
                                   t.err + ErrOutputs(sc, steps) + sc.stderr(s.inv))]
  {
    RunStepsSnoc(sc, t, steps, s);
    RunStepsAccumulate(sc, t, steps);
  }

  /** tearDown's steps: every one a teardown, the sink's only when there is a sink. */
  function TearDownPlan(hasSink: bool): (plan: seq<Step>)
    ensures |plan| == if hasSink then 4 else 3
    ensures forall i :: 0 <= i < |plan| ==> plan[i].inv.phase == TearDown
    ensures forall i :: 0 <= i < |plan| ==> (plan[i].inv.role == Sink <==> i == 3)
  {
    [ Step(Invocation(Main, TearDown), "main teardown"),
      Step(Invocation(Push, TearDown), "push workflow teardown"),
      Step(Invocation(WinPush, TearDown), "push workflow teardown") ]
    + (if hasSink then [Step(Invocation(Sink, TearDown), "sink workflow teardown")] else [])
  }

  /** Teardown attempts main, push and Windows push, then the sink iff there is one, whatever fails. */
  lemma TearDownAttemptsAll(sc: Script, t: Trace, hasSink: bool)
    ensures RunSteps(sc, t, TearDownPlan(hasSink)).log
         == t.log + [Invocation(Main, TearDown), Invocation(Push, TearDown), Invocation(WinPush, TearDown)]
                  + (if hasSink then [Invocation(Sink, TearDown)] else [])
  {
    RunStepsAttemptsAll(sc, t, TearDownPlan(hasSink));
  }

  /** One "run and report on error" step, as main.go and tearDown write it inline. */
  method RunReported(runner: CmdRunner, logger: Logger, s: Step) returns (failed: bool)
    requires runner.Valid()
    modifies runner, runner.outBuf, runner.errBuf, logger
    ensures TraceOf(runner, logger) == RunStep(runner.script, old(TraceOf(runner, logger)), s)
    ensures failed == (s.inv in runner.script.failing)
  {
    var err := runner.RunInSequence(s.inv);
    failed := err.Some?;
    if failed {
      LogBufferedRunnerFailure(logger, s.what, err.value, runner.outBuf, runner.errBuf);
    }
  }

  /** tearDown: each workflow's teardown is tried in turn; a failure is logged and the rest still run. */
  method TearDownAll(runner: CmdRunner, logger: Logger, sinkWorkflow: Option<Workflow>)
    requires runner.Valid()
    modifies runner, runner.outBuf, runner.errBuf, logger
    ensures TraceOf(runner, logger)
         == RunSteps(runner.script, old(TraceOf(runner, logger)), TearDownPlan(sinkWorkflow.Some?))
  {
    ghost var t0 := TraceOf(runner, logger);
    ghost var plan := TearDownPlan(sinkWorkflow.Some?);
    var failed := RunReported(runner, logger, Step(Invocation(Main, TearDown), "main teardown"));
    assert plan[..1] == [plan[0]];
    assert TraceOf(runner, logger) == RunSteps(runner.script, t0, plan[..1]);
    failed := RunReported(runner, logger, Step(Invocation(Push, TearDown), "push workflow teardown"));
    RunStepsSnoc(runner.script, t0, plan[..1], plan[1]);
    assert plan[..1] + [plan[1]] == plan[..2];
    failed := RunReported(runner, logger, Step(Invocation(WinPush, TearDown), "push workflow teardown"));
    RunStepsSnoc(runner.script, t0, plan[..2], plan[2]);
    assert plan[..2] + [plan[2]] == plan[..3];
    if sinkWorkflow.Some? {
      failed := RunReported(runner, logger, Step(Invocation(Sink, TearDown), "sink workflow teardown"));
      RunStepsSnoc(runner.script, t0, plan[..3], plan[3]);
      assert plan[..3] + [plan[3]] == plan;
    } else {
      assert plan[..3] == plan;
    }
  }
}
