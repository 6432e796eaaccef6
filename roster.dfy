/**
 * What main.go hands the orchestrator to measure: the workflows it names
 * (createWorkflow and the per-tick generator closures) and the fixed, ordered
 * roster of periodic measurements (createMeasurements and
 * createAppSyslogAvailabilityMeasurement).
 */
module Measurements {
  import opened Wrappers
  import opened Strings
  import opened Retry

  /**
   * The identity a cfWorkflow is built from: the names of its org, space,
   * quota and app, and the directory it pushes. The CF connection settings
   * it also carries are the same for every workflow and are left out.
   */
  datatype Workflow = Workflow(org: string, space: string, quota: string, app: string, appPath: string)

  const OrgPrefix := "uptimer-org-"
  const SpacePrefix := "uptimer-space-"
  const QuotaPrefix := "uptimer-quota-"
  const AppPrefix := "uptimer-app-"

  /** createWorkflow: every name is its fixed prefix followed by a fresh identifier. */
  function CreateWorkflow(appPath: string, orgId: string, spaceId: string, quotaId: string, appId: string): (w: Workflow)
    ensures HasPrefix(w.org, OrgPrefix) && w.org[|OrgPrefix|..] == orgId
    ensures HasPrefix(w.space, SpacePrefix) && w.space[|SpacePrefix|..] == spaceId
    ensures HasPrefix(w.quota, QuotaPrefix) && w.quota[|QuotaPrefix|..] == quotaId
    ensures HasPrefix(w.app, AppPrefix) && w.app[|AppPrefix|..] == appId
    ensures w.appPath == appPath
  {
    Workflow(OrgPrefix + orgId, SpacePrefix + spaceId, QuotaPrefix + quotaId, AppPrefix + appId, appPath)
  }

  /**
   * The closure an app-pushability probe calls on every tick: it reuses the
   * org, space and quota of a workflow set up once, and deploys a freshly
   * named app from appPath.
   */
  datatype TickGenerator = TickGenerator(base: Workflow, appPath: string)

  function GenerateTickWorkflow(g: TickGenerator, appId: string): (w: Workflow)
    ensures w.org == g.base.org && w.space == g.base.space && w.quota == g.base.quota
    ensures HasPrefix(w.app, AppPrefix) && w.app[|AppPrefix|..] == appId
    ensures w.appPath == g.appPath
  {
    Workflow(g.base.org, g.base.space, g.base.quota, AppPrefix + appId, g.appPath)
  }

  /** Two ticks with different identifiers deploy differently named apps into the same space. */
  lemma TickWorkflowsDifferOnlyInApp(g: TickGenerator, id1: string, id2: string)
    requires id1 != id2
    ensures GenerateTickWorkflow(g, id1).app != GenerateTickWorkflow(g, id2).app
    ensures GenerateTickWorkflow(g, id1).space == GenerateTickWorkflow(g, id2).space
  {
  }

  /** The probe a periodic measurement drives, with the workflow it is aimed at. */
  datatype Probe =
    | HttpAvailability(target: Workflow)        // GET on the app's URL
    | AppPushability(generator: TickGenerator)  // push then delete a fresh app
    | RecentLogs(target: Workflow)              // cf logs --recent, then validate
    | StreamingLogs(target: Workflow)           // cf logs for a bounded time, then validate
    | SyslogDrain(sink: Workflow)               // recent logs of the syslog sink app

  /** NewPeriodic measures at once; NewPeriodicWithoutMeasuringImmediately waits one interval. */
  datatype StartMode = MeasureImmediately | MeasureAfterDelay

  /** The per-probe failure budgets of the configuration (Go ints). */
  datatype AllowedFailures = AllowedFailures(
    httpAvailability: int,
    appPushability: int,
    recentLogs: int,
    streamingLogs: int,
    appSyslogAvailability: int)

  datatype Measurement = Periodic(
    probe: Probe,
    intervalSeconds: nat,
    allowedFailures: int,
    retry: RetryPolicy,
    start: StartMode)

  /** The budget field each kind of probe is charged against; both push probes share one. */
  function BudgetOf(allowed: AllowedFailures, p: Probe): (b: int)
    ensures p.HttpAvailability? ==> b == allowed.httpAvailability
    ensures p.AppPushability? ==> b == allowed.appPushability
    ensures p.RecentLogs? ==> b == allowed.recentLogs
    ensures p.StreamingLogs? ==> b == allowed.streamingLogs
    ensures p.SyslogDrain? ==> b == allowed.appSyslogAvailability
  {
    match p
    case HttpAvailability(_) => allowed.httpAvailability
    case AppPushability(_) => allowed.appPushability
    case RecentLogs(_) => allowed.recentLogs
    case StreamingLogs(_) => allowed.streamingLogs
    case SyslogDrain(_) => allowed.appSyslogAvailability
  }

  /** The five measurements every session runs, in order. */
  function CreateMeasurements(
    orc: Workflow, pushGenerator: TickGenerator, winPushGenerator: TickGenerator, allowed: AllowedFailures
  ): (ms: seq<Measurement>)
    ensures |ms| == 5
    ensures ms[0].probe == HttpAvailability(orc)
    ensures ms[1].probe == AppPushability(pushGenerator)
    ensures ms[2].probe == AppPushability(winPushGenerator)
    ensures ms[3].probe == RecentLogs(orc)
    ensures ms[4].probe == StreamingLogs(orc)
    ensures forall i :: 0 <= i < 5 ==> ms[i].start == MeasureImmediately
  {
    [ Periodic(HttpAvailability(orc), 1, allowed.httpAvailability, NoRetry, MeasureImmediately),
      Periodic(AppPushability(pushGenerator), 60, allowed.appPushability, RetryOnAuthFailure, MeasureImmediately),
      Periodic(AppPushability(winPushGenerator), 60, allowed.appPushability, RetryOnAuthFailure, MeasureImmediately),
      Periodic(RecentLogs(orc), 10, allowed.recentLogs, RetryOnAuthFailure, MeasureImmediately),
      Periodic(StreamingLogs(orc), 30, allowed.streamingLogs, RetryOnAuthFailure, MeasureImmediately) ]
  }

  /** The optional syslog measurement: delayed start, so forwarded logs have time to arrive. */
  function CreateAppSyslogAvailabilityMeasurement(sink: Workflow, allowed: AllowedFailures): (m: Measurement)
    ensures m.probe == SyslogDrain(sink)
    ensures m.start == MeasureAfterDelay
    ensures m.allowedFailures == BudgetOf(allowed, m.probe)
  {
    Periodic(SyslogDrain(sink), 30, allowed.appSyslogAvailability, RetryOnAuthFailure, MeasureAfterDelay)
  }

  /** The whole roster: the five fixed measurements plus the syslog one when a sink workflow exists. */
  function Roster(
    orc: Workflow, pushGenerator: TickGenerator, winPushGenerator: TickGenerator,
    sink: Option<Workflow>, allowed: AllowedFailures
  ): (r: seq<Measurement>)
    ensures |r| == if sink.Some? then 6 else 5
    ensures r[..5] == CreateMeasurements(orc, pushGenerator, winPushGenerator, allowed)
    ensures sink.Some? ==> r[5].probe == SyslogDrain(sink.value)
    ensures forall i :: 0 <= i < |r| ==> r[i].allowedFailures == BudgetOf(allowed, r[i].probe)
    ensures forall i :: 0 <= i < |r| ==> (r[i].retry == NoRetry <==> r[i].probe.HttpAvailability?)
    ensures forall i :: 0 <= i < |r| ==> (r[i].start == MeasureAfterDelay <==> r[i].probe.SyslogDrain?)
    ensures forall i :: 0 <= i < |r| ==> r[i].intervalSeconds > 0
  {
    var fixed := CreateMeasurements(orc, pushGenerator, winPushGenerator, allowed);
    if sink.Some? then fixed + [CreateAppSyslogAvailabilityMeasurement(sink.value, allowed)] else fixed
  }

  function Intervals(r: seq<Measurement>): (s: seq<nat>)
    ensures |s| == |r|
  {
    seq(|r|, i requires 0 <= i < |r| => r[i].intervalSeconds)
  }

  /** HTTP every second, both pushes every minute, recent logs every 10 s, streaming and syslog every 30 s. */
  lemma RosterSchedule(
    orc: Workflow, pushGenerator: TickGenerator, winPushGenerator: TickGenerator,
    sink: Option<Workflow>, allowed: AllowedFailures)
    ensures Intervals(Roster(orc, pushGenerator, winPushGenerator, sink, allowed))
         == [1, 60, 60, 10, 30] + (if sink.Some? then [30] else [])
  {
  }

  /** Of the roster, only the HTTP probe ignores an expired session; every other one retries on it. */
  lemma RosterRetryBehaviour(
    orc: Workflow, pushGenerator: TickGenerator, winPushGenerator: TickGenerator,
    sink: Option<Workflow>, allowed: AllowedFailures, i: nat, stdOut: string, stdErr: string)
    requires i < |Roster(orc, pushGenerator, winPushGenerator, sink, allowed)|
    ensures var m := Roster(orc, pushGenerator, winPushGenerator, sink, allowed)[i];
            ShouldRetry(m.retry, stdOut, stdErr) == (i != 0 && AuthFailedRetry(stdOut, stdErr))
  {
  }
}
