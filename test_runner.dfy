/** The load-test runner: it configures an application's environment file,
    starts the application and its Celery worker as child processes, keeps
    them in a registry, runs locust while the resource monitor samples, and
    repeats this for the two instrumentation states before cleaning up.

    What the operating system decides (whether a child is still alive, exits
    within the wait timeout, or makes a signal call fail) is nondeterministic
    here; the readiness probe, the locust run and the monitor's readings are
    inputs of each phase. */
module TestRunner {
  import opened Common
  import opened ResourceMonitoring
  import opened ReportGeneration
  import LocustScenario

  const FlaskRunPort: nat := 5002
  const DjangoRunPort: nat := 8001

  // ---------------------------------------------------------------------
  // Child processes

  /** What cleanup did to a child, in order. */
  datatype ProcessEvent =
    | Polled(alive: bool)
    | TerminateCalled(raised: bool)
    | WaitCalled(timedOut: bool)
    | KillCalled(raised: bool)

  /** A `subprocess.Popen` handle. */
  class ProcessHandle {
    const command: seq<string>
    const cwd: string
    /** Variables set on top of the inherited environment. */
    const envOverrides: map<string, string>
    var running: bool
    var history: seq<ProcessEvent>

    constructor Spawn(command: seq<string>, cwd: string, envOverrides: map<string, string>)
      ensures this.command == command && this.cwd == cwd && this.envOverrides == envOverrides
      ensures running && history == []
    {
      this.command := command;
      this.cwd := cwd;
      this.envOverrides := envOverrides;
      running := true;
      history := [];
    }

    /** `poll() is None`; the child may have exited on its own since it was last seen. */
    method Poll() returns (alive: bool)
      modifies this
      ensures alive == running && (alive ==> old(running))
      ensures history == old(history) + [Polled(alive)]
    {
      if running {
        running := *;
      }
      alive := running;
      history := history + [Polled(alive)];
    }

    /** `terminate()`: sends SIGTERM; the call itself may raise. */
    method Terminate() returns (raised: bool)
      modifies this
      ensures running == old(running)
      ensures history == old(history) + [TerminateCalled(raised)]
    {
      raised := *;
      history := history + [TerminateCalled(raised)];
    }

    /** `wait(timeout=5)`: the child exits in time, or TimeoutExpired is raised. */
    method Wait() returns (timedOut: bool)
      modifies this
      ensures timedOut ==> old(running) && running
      ensures !timedOut ==> !running
      ensures history == old(history) + [WaitCalled(timedOut)]
    {
      timedOut := false;
      if running {
        timedOut := *;
        if !timedOut {
          running := false;
        }
      }
      history := history + [WaitCalled(timedOut)];
    }

    /** `kill()`: sends SIGKILL; unless the call raises, the child is gone. */
    method Kill() returns (raised: bool)
      modifies this
      ensures !raised ==> !running
      ensures raised ==> running == old(running)
      ensures history == old(history) + [KillCalled(raised)]
    {
      raised := *;
      if !raised {
        running := false;
      }
      history := history + [KillCalled(raised)];
    }
  }

  /** The events one cleanup pass may leave on a child: nothing after finding
      it exited; SIGTERM only after finding it alive; SIGKILL only after the
      wait timed out; nothing more once a call raised. */
  predicate CleanupTrace(t: seq<ProcessEvent>) {
    || t == [Polled(false)]
    || t == [Polled(true), TerminateCalled(true)]
    || t == [Polled(true), TerminateCalled(false), WaitCalled(false)]
    || (|t| == 4 && t[..3] == [Polled(true), TerminateCalled(false), WaitCalled(true)] && t[3].KillCalled?)
  }

  /** Some call on the child raised (and was swallowed by the cleanup loop). */
  predicate Raised(t: seq<ProcessEvent>) {
    TerminateCalled(true) in t || KillCalled(true) in t
  }

  /** The events appended to a history since it had length `n`. */
  function Since(h: seq<ProcessEvent>, n: nat): seq<ProcessEvent>
    requires n <= |h|
  {
    h[n..]
  }

  /** `h` went through exactly one cleanup pass since its history was `before`,
      and has stopped unless one of the signal calls raised. */
  ghost predicate CleanedUpSince(h: ProcessHandle, before: seq<ProcessEvent>)
    reads h
  {
    && |before| <= |h.history|
    && h.history[..|before|] == before
    && CleanupTrace(Since(h.history, |before|))
    && (!Raised(Since(h.history, |before|)) ==> !h.running)
  }

  /** A cleanup pass signals only live children, and escalates to SIGKILL only after a wait timeout. */
  lemma CleanupTraceSignalsOnlyLiveChildren(t: seq<ProcessEvent>)
    requires CleanupTrace(t)
    ensures |t| >= 1 && t[0].Polled?
    ensures (exists i :: 0 <= i < |t| && t[i].TerminateCalled?) <==> t[0].alive
    ensures (exists i :: 0 <= i < |t| && t[i].KillCalled?) ==> WaitCalled(true) in t
    ensures !t[0].alive ==> |t| == 1
  {
    if t == [Polled(false)] {
    } else if t == [Polled(true), TerminateCalled(true)] {
      assert t[1].TerminateCalled?;
    } else if t == [Polled(true), TerminateCalled(false), WaitCalled(false)] {
      assert t[1].TerminateCalled?;
    } else {
      assert t[1].TerminateCalled? && t[2] == WaitCalled(true);
    }
  }

  /** The body of the cleanup loop for one child, exceptions included. */
  method StopProcess(process: ProcessHandle)
    modifies process
    ensures CleanedUpSince(process, old(process.history))
  {
    ghost var n := |process.history|;
    var alive := process.Poll();
    if alive {
      var raised := process.Terminate();
      if !raised {
        var timedOut := process.Wait();
        if timedOut {
          raised := process.Kill();
        }
      }
    }
    assert Since(process.history, n) == process.history[n..];
  }

  // ---------------------------------------------------------------------
  // Locust

  datatype LoadConfig = LoadConfig(users: nat, spawnRate: nat, duration: string, description: string)

  const LightLoad: string := "light_load"
  const MediumLoad: string := "medium_load"
  const HeavyLoad: string := "heavy_load"
  const BurstLoad: string := "burst_load"

  const TestConfigs: map<string, LoadConfig> := map[
    LightLoad := LoadConfig(10, 2, "1m", "Light load test - 10 users over 1 minute"),
    MediumLoad := LoadConfig(50, 5, "5m", "Medium load test - 50 users over 5 minutes"),
    HeavyLoad := LoadConfig(100, 10, "5m", "Heavy load test - 100 users over 5 minutes"),
    BurstLoad := LoadConfig(200, 50, "3m", "Burst load test - 200 users spawned quickly")]

  /** The fixed ceiling on one locust run, in seconds. */
  const LocustTimeoutSeconds: nat := 600

  const DefaultUserClass: string := "DatabaseHeavyUser"

  /** What `subprocess.run(..., timeout=600)` gives back. */
  datatype LocustOutcome =
    | Exited(returnCode: int, stdout: string, stderr: string)
    | TimeoutExpired

  /** The dictionary `run_locust_test` returns. */
  datatype LocustResult =
    | LocustRun(success: bool, stdout: string, stderr: string, htmlReport: string)
    | LocustTimeout(error: string)
  {
    predicate Succeeded() {
      LocustRun? && success
    }
  }

  const TimeoutMessage: string := "Test timed out after 10 minutes"

  function InsightsLabel(insightsEnabled: bool): string {
    if insightsEnabled then WithInsights else WithoutInsights
  }

  function TargetHost(port: nat): string {
    "http://localhost:" + NatToString(port)
  }

  /** Locust is pointed at `http://localhost:8001` or `http://localhost:5002`;
      neither selects a single application for the warmup, which therefore
      calls ports 8000 and 5000. */
  lemma RunnerTargetsWarmUpBoth(port: nat)
    requires port == DjangoRunPort || port == FlaskRunPort
    ensures LocustScenario.WarmupHosts(TargetHost(port))
      == [LocustScenario.DjangoWarmupHost, LocustScenario.FlaskWarmupHost]
  {
    if port == DjangoRunPort {
      assert NatToString(port) == "8001";
    } else {
      assert NatToString(port) == "5002";
    }
    LocustScenario.RunnerHostsWarmUpBoth(TargetHost(port));
  }

  /** Python's message for a missing dictionary key: the key, quoted. */
  function KeyErrorMessage(key: string): string {
    "'" + key + "'"
  }

  // ---------------------------------------------------------------------
  // The phase a comparison runs for each instrumentation state

  /** The external outcomes one phase depends on. */
  datatype PhaseInput = PhaseInput(
    probe: HttpOutcome,
    locustTimestamp: string,
    locust: (seq<string>, nat) -> LocustOutcome,
    startClock: real,
    readings: seq<Option<Sample>>,
    stopClock: real,
    monitorTimestamp: string)

  /** One entry of `results`: the completed phase's record, or `{success: False, error}`. */
  datatype PhaseRecord =
    | PhaseCompleted(loadTest: LocustResult, resourceMonitoring: ResourceSummary, monitoringFile: string, success: bool)
    | PhaseFailed(error: string)
  {
    predicate Succeeded() {
      PhaseCompleted? && success
    }
  }

  /** The benchmark orchestrator. */
  class LoadTestRunner {
    const projectRoot: string
    const pythonExecutable: string
    /** The children started and not yet cleaned up. */
    var activeProcesses: seq<ProcessHandle>
    /** The files the runner reads and writes (path to contents). */
    var fileSystem: map<string, string>

    constructor (projectRoot: string, pythonExecutable: string, fileSystem: map<string, string>)
      ensures this.projectRoot == projectRoot && this.pythonExecutable == pythonExecutable
      ensures activeProcesses == [] && this.fileSystem == fileSystem
    {
      this.projectRoot := projectRoot;
      this.pythonExecutable := pythonExecutable;
      activeProcesses := [];
      this.fileSystem := fileSystem;
    }

    function LoadTestingDir(): string {
      projectRoot + "/load_testing"
    }

    function DjangoDir(): string {
      projectRoot + "/django_app"
    }

    function FlaskDir(): string {
      projectRoot + "/flask_app"
    }

    /** No child is registered twice. */
    predicate Valid()
      reads this
    {
      forall i, j :: 0 <= i < j < |activeProcesses| ==> activeProcesses[i] != activeProcesses[j]
    }

    /** `cleanup`: stop every registered child, swallowing per-child errors, then empty the registry. */
    method Cleanup()
      requires Valid()
      modifies this, activeProcesses
      ensures Valid() && activeProcesses == []
      ensures fileSystem == old(fileSystem)
      ensures forall h :: h in old(activeProcesses) ==> CleanedUpSince(h, old(h.history))
    {
      var procs := activeProcesses;
      for n := 0 to |procs|
        invariant activeProcesses == procs && fileSystem == old(fileSystem)
        invariant forall i :: 0 <= i < n ==> CleanedUpSince(procs[i], old(procs[i].history))
        invariant forall i :: n <= i < |procs| ==>
          procs[i].history == old(procs[i].history) && procs[i].running == old(procs[i].running)
      {
        StopProcess(procs[n]);
      }
      activeProcesses := [];
    }

    function AppDir(app: string): string {
      if app == "django" then DjangoDir() else FlaskDir()
    }

    /** The command `start_app` launches for a known application. */
    function AppCommand(app: string, port: nat): seq<string> {
      if app == "django" then [pythonExecutable, "manage.py", "runserver", "0.0.0.0:" + NatToString(port)]
      else ["flask", "--app", "app", "run", "--port", NatToString(port), "--debug"]
    }

    function AppEnvOverrides(app: string, port: nat): map<string, string> {
      if app == "django" then map[] else map["FLASK_RUN_PORT" := NatToString(port), "FLASK_RUN_HOST" := "0.0.0.0"]
    }

    /** `start_app`: only `django` and `flask` are launched; a launched app
        that does not answer its probe makes the runner clean up everything,
        itself included. `spawned` is the child it started, if any. */
    method StartApp(app: string, port: nat, probe: HttpOutcome) returns (r: Result<ProcessHandle, string>, ghost spawned: seq<ProcessHandle>)
      requires Valid()
      modifies this, activeProcesses
      ensures Valid() && fileSystem == old(fileSystem)
      ensures app != "django" && app != "flask" ==>
        && r == Err("Unknown app: " + app) && spawned == []
        && activeProcesses == old(activeProcesses)
      ensures (app == "django" || app == "flask") ==>
        && |spawned| == 1 && fresh(spawned[0])
        && spawned[0].command == AppCommand(app, port) && spawned[0].cwd == AppDir(app)
        && spawned[0].envOverrides == AppEnvOverrides(app, port)
      ensures (app == "django" || app == "flask") && probe.Response? ==>
        && r == Ok(spawned[0]) && r.value.running && r.value.history == []
        && activeProcesses == old(activeProcesses) + [r.value]
      ensures (app != "django" && app != "flask") || probe.Response? ==>
        forall h :: h in old(activeProcesses) ==> h.history == old(h.history) && h.running == old(h.running)
      ensures (app == "django" || app == "flask") && probe.RequestFailed? ==>
        && r == Err("Failed to start " + app + ": " + probe.message) && activeProcesses == []
        && CleanedUpSince(spawned[0], [])
        && forall h :: h in old(activeProcesses) ==> CleanedUpSince(h, old(h.history))
    {
      spawned := [];
      if app != "django" && app != "flask" {
        return Err("Unknown app: " + app), spawned;
      }
      var process := new ProcessHandle.Spawn(AppCommand(app, port), AppDir(app), AppEnvOverrides(app, port));
      spawned := [process];
      activeProcesses := activeProcesses + [process];
      var responsiveness := TestAppResponsiveness(probe);
      if responsiveness.Unresponsive? {
        Cleanup();
        return Err("Failed to start " + app + ": " + responsiveness.error), spawned;
      }
      r := Ok(process);
    }

    function CeleryCommand(app: string): seq<string> {
      if app == "django" then ["celery", "-A", "honeybadger_django", "worker", "--loglevel=info"]
      else ["celery", "-A", "app:celery", "worker", "--loglevel=info"]
    }

    /** `start_celery_worker`: every application other than `django` gets the flask worker. */
    method StartCeleryWorker(app: string) returns (process: ProcessHandle)
      requires Valid()
      modifies this
      ensures Valid() && fileSystem == old(fileSystem)
      ensures fresh(process) && activeProcesses == old(activeProcesses) + [process]
      ensures process.command == CeleryCommand(app) && process.cwd == AppDir(app)
      ensures process.running && process.history == []
    {
      process := new ProcessHandle.Spawn(CeleryCommand(app), AppDir(app), map[]);
      activeProcesses := activeProcesses + [process];
    }

    function EnvFile(app: string, withInsights: bool): string {
      LoadTestingDir() + "/env_configs/.env." + app + "." + InsightsLabel(withInsights)
    }

    function EnvTarget(app: string): string {
      AppDir(app) + "/.env"
    }

    /** The file system after `setup_environment` (unchanged when the env file is missing). */
    function AfterSetup(fs: map<string, string>, app: string, withInsights: bool): map<string, string> {
      var source := EnvFile(app, withInsights);
      if source in fs then fs[EnvTarget(app) := fs[source]] else fs
    }

    /** `setup_environment`: copy the state's env file over the application's `.env`. */
    method SetupEnvironment(app: string, withInsights: bool) returns (r: Result<string, string>)
      modifies this
      ensures activeProcesses == old(activeProcesses)
      ensures fileSystem == AfterSetup(old(fileSystem), app, withInsights)
      ensures EnvFile(app, withInsights) !in old(fileSystem) <==> r.Err?
      ensures r.Err? ==> r.error == "Environment file not found: " + EnvFile(app, withInsights)
      ensures r.Ok? ==> r.value == EnvTarget(app) && fileSystem[r.value] == old(fileSystem)[EnvFile(app, withInsights)]
    {
      var envFile := EnvFile(app, withInsights);
      if envFile !in fileSystem {
        return Err("Environment file not found: " + envFile);
      }
      var target := EnvTarget(app);
      fileSystem := fileSystem[target := fileSystem[envFile]];
      r := Ok(target);
    }

    function LocustCommand(targetHost: string, config: LoadConfig, resultsDir: string, userClass: string): seq<string> {
      [ "locust",
        "-f", LoadTestingDir() + "/locustfile.py",
        "--users=" + NatToString(config.users),
        "--spawn-rate=" + NatToString(config.spawnRate),
        "--run-time=" + config.duration,
        "--host=" + targetHost,
        "--headless",
        "--csv", resultsDir + "/stats",
        "--html", resultsDir + "/report.html",
        userClass ]
    }

    function LocustResultsDir(app: string, configName: string, insightsLabel: string, timestamp: string): string {
      LoadTestingDir() + "/results/" + app + "_" + insightsLabel + "_" + configName + "_" + timestamp
    }

    /** `run_locust_test` with its default user class; `locust` stands for `subprocess.run`. */
    function RunLocustTest(targetHost: string, app: string, configName: string, insightsLabel: string,
                           timestamp: string, locust: (seq<string>, nat) -> LocustOutcome): (r: Result<LocustResult, string>)
      ensures r.Err? <==> configName !in TestConfigs
      ensures r.Err? ==> r.error == KeyErrorMessage(configName)
      ensures r.Ok? ==>
        var resultsDir := LocustResultsDir(app, configName, insightsLabel, timestamp);
        var outcome := locust(LocustCommand(targetHost, TestConfigs[configName], resultsDir, DefaultUserClass), LocustTimeoutSeconds);
        && (r.value.Succeeded() <==> outcome.Exited? && outcome.returnCode == 0)
        && (outcome.TimeoutExpired? <==> r.value == LocustTimeout(TimeoutMessage))
    {
      if configName !in TestConfigs then Err(KeyErrorMessage(configName))
      else
        var resultsDir := LocustResultsDir(app, configName, insightsLabel, timestamp);
        var command := LocustCommand(targetHost, TestConfigs[configName], resultsDir, DefaultUserClass);
        match locust(command, LocustTimeoutSeconds)
        case Exited(code, out, err) => Ok(LocustRun(code == 0, out, err, resultsDir + "/report.html"))
        case TimeoutExpired => Ok(LocustTimeout(TimeoutMessage))
    }

    function MonitoringFile(app: string, configName: string, insightsLabel: string, timestamp: string): string {
      LoadTestingDir() + "/results/" + app + "_" + configName + "_" + insightsLabel + "_" + timestamp + "_monitoring.json"
    }

    function ComparisonFile(app: string, configName: string, timestamp: string): string {
      LoadTestingDir() + "/results/" + app + "_" + configName + "_comparison_" + timestamp + ".json"
    }

    /** What the `try` body yields once the application is up: locust's
        result with the monitor's summary, or locust's KeyError. */
    function MeasureOutcome(app: string, port: nat, configName: string, insightsLabel: string, input: PhaseInput): (r: PhaseRecord)
      ensures r.PhaseCompleted? <==> configName in TestConfigs
      ensures r.PhaseCompleted? ==> r.success == r.loadTest.Succeeded()
      ensures r.PhaseCompleted? ==>
        r.resourceMonitoring == GetSummary(Captured(input.readings), [port], Some(input.startClock), input.stopClock)
    {
      match RunLocustTest(TargetHost(port), app, configName, insightsLabel, input.locustTimestamp, input.locust)
      case Err(e) => PhaseFailed(e)
      case Ok(test) =>
        PhaseCompleted(
          test,
          GetSummary(Captured(input.readings), [port], Some(input.startClock), input.stopClock),
          MonitoringFile(app, configName, insightsLabel, input.monitorTimestamp),
          test.Succeeded())
    }

    /** What the `try` body yields once the environment is configured. */
    function LaunchOutcome(app: string, port: nat, configName: string, insightsLabel: string, input: PhaseInput): PhaseRecord {
      if app != "django" && app != "flask" then PhaseFailed("Unknown app: " + app)
      else if input.probe.RequestFailed? then PhaseFailed("Failed to start " + app + ": " + input.probe.message)
      else MeasureOutcome(app, port, configName, insightsLabel, input)
    }

    /** The entry one phase leaves in `results`, given what the file system
        holds when it starts and what the outside world answers. */
    function PhaseOutcome(app: string, port: nat, configName: string, insightsEnabled: bool,
                          fs: map<string, string>, input: PhaseInput): (r: PhaseRecord)
      ensures r.PhaseCompleted? <==>
        EnvFile(app, insightsEnabled) in fs && (app == "django" || app == "flask")
        && input.probe.Response? && configName in TestConfigs
      ensures r.PhaseCompleted? ==> r.success == r.loadTest.Succeeded()
      ensures r.PhaseCompleted? ==>
        r.resourceMonitoring == GetSummary(Captured(input.readings), [port], Some(input.startClock), input.stopClock)
    {
      if EnvFile(app, insightsEnabled) !in fs then PhaseFailed("Environment file not found: " + EnvFile(app, insightsEnabled))
      else LaunchOutcome(app, port, configName, InsightsLabel(insightsEnabled), input)
    }

    /** Sampling while locust runs: start the monitor, collect the readings,
        run locust, and stop the monitor for its summary unless locust raised. */
    method MonitorLoadTest(app: string, port: nat, configName: string, insightsLabel: string, input: PhaseInput)
      returns (entry: PhaseRecord)
      ensures entry == MeasureOutcome(app, port, configName, insightsLabel, input)
    {
      var monitor := new ResourceMonitor([port]);
      monitor.StartMonitoring(input.startClock);
      monitor.MonitorLoop(input.readings);
      assert monitor.metrics == Captured(input.readings) && monitor.startTime == Some(input.startClock);
      var test := RunLocustTest(TargetHost(port), app, configName, insightsLabel, input.locustTimestamp, input.locust);
      if test.Err? {
        entry := PhaseFailed(test.error);
      } else {
        var summary := monitor.StopMonitoring(input.stopClock);
        assert summary == GetSummary(Captured(input.readings), [port], Some(input.startClock), input.stopClock);
        entry := PhaseCompleted(test.value, summary, MonitoringFile(app, configName, insightsLabel, input.monitorTimestamp), test.value.Succeeded());
      }
    }

    /** The last part of the `try` body: the worker, then the monitored load test. */
    method MeasurePhase(app: string, port: nat, configName: string, insightsLabel: string, input: PhaseInput)
      returns (entry: PhaseRecord)
      requires Valid()
      modifies this
      ensures Valid() && fileSystem == old(fileSystem)
      ensures |activeProcesses| == |old(activeProcesses)| + 1 && activeProcesses[..|old(activeProcesses)|] == old(activeProcesses)
      ensures fresh(activeProcesses[|old(activeProcesses)|]) && activeProcesses[|old(activeProcesses)|].history == []
      ensures entry == MeasureOutcome(app, port, configName, insightsLabel, input)
    {
      var celery := StartCeleryWorker(app);
      entry := MonitorLoadTest(app, port, configName, insightsLabel, input);
    }

    /** The `try` body after `setup_environment`: start the application, then
        measure. Either every child is still registered, the new ones
        (`spawned`) untouched after the old ones, or the failed start cleaned
        up all of them. */
    method LaunchPhase(app: string, port: nat, configName: string, insightsLabel: string, input: PhaseInput)
      returns (entry: PhaseRecord, ghost spawned: seq<ProcessHandle>)
      requires Valid()
      modifies this, activeProcesses
      ensures Valid() && fileSystem == old(fileSystem)
      ensures forall i :: 0 <= i < |spawned| ==> fresh(spawned[i])
      ensures || (&& activeProcesses == old(activeProcesses) + spawned
                  && (forall h :: h in old(activeProcesses) ==> h.history == old(h.history))
                  && (forall h :: h in spawned ==> h.history == []))
              || (&& activeProcesses == []
                  && (forall h :: h in old(activeProcesses) ==> CleanedUpSince(h, old(h.history)))
                  && (forall h :: h in spawned ==> CleanedUpSince(h, [])))
      ensures entry == LaunchOutcome(app, port, configName, insightsLabel, input)
    {
      var started;
      started, spawned := StartApp(app, port, input.probe);
      if started.Err? {
        entry := PhaseFailed(started.error);
      } else {
        ghost var before := activeProcesses;
        entry := MeasurePhase(app, port, configName, insightsLabel, input);
        ghost var celery := activeProcesses[|before|];
        assert activeProcesses == before + [celery];
        spawned := spawned + [celery];
        assert activeProcesses == old(activeProcesses) + spawned;
      }
    }

    /** One pass of the `for insights_enabled` loop: the `try` body, its
        `except`, and the `finally` cleanup. Every child registered before the
        phase and every child the phase started (`spawned`) goes through one
        cleanup pass and ends stopped unless a signal call raised. */
    method RunPhase(app: string, port: nat, configName: string, insightsEnabled: bool, input: PhaseInput)
      returns (entry: PhaseRecord, ghost spawned: seq<ProcessHandle>)
      requires Valid()
      modifies this, activeProcesses
      ensures Valid() && activeProcesses == []
      ensures forall h :: h in old(activeProcesses) ==> CleanedUpSince(h, old(h.history))
      ensures forall i :: 0 <= i < |spawned| ==> fresh(spawned[i]) && CleanedUpSince(spawned[i], [])
      ensures entry == PhaseOutcome(app, port, configName, insightsEnabled, old(fileSystem), input)
      ensures fileSystem == AfterSetup(old(fileSystem), app, insightsEnabled)
    {
      spawned := [];
      var setup := SetupEnvironment(app, insightsEnabled);
      if setup.Err? {
        entry := PhaseFailed(setup.error);
        Cleanup();
      } else {
        entry, spawned := LaunchPhase(app, port, configName, InsightsLabel(insightsEnabled), input);
        Cleanup();
      }
    }

    /** `run_comparison_test`: the phase without instrumentation, then the
        phase with it, each ending in a cleanup; both entries are always
        present, and no child registered before or started during the run
        (`spawned`) is left running unless a signal call on it raised. */
    method RunComparisonTest(app: string, port: nat, configName: string, withoutInput: PhaseInput, withInput: PhaseInput)
      returns (results: map<string, PhaseRecord>, ghost spawned: seq<ProcessHandle>)
      requires Valid()
      modifies this, activeProcesses
      ensures Valid() && activeProcesses == []
      ensures forall h :: h in old(activeProcesses) ==> CleanedUpSince(h, old(h.history))
      ensures forall i :: 0 <= i < |spawned| ==> fresh(spawned[i]) && CleanedUpSince(spawned[i], [])
      ensures results.Keys == {WithoutInsights, WithInsights}
      ensures results[WithoutInsights] == PhaseOutcome(app, port, configName, false, old(fileSystem), withoutInput)
      ensures results[WithInsights] == PhaseOutcome(app, port, configName, true, AfterSetup(old(fileSystem), app, false), withInput)
      ensures fileSystem == AfterSetup(AfterSetup(old(fileSystem), app, false), app, true)
    {
      results := map[];
      spawned := [];
      var phases := [false, true];
      for n := 0 to |phases|
        invariant Valid()
        invariant n == 0 ==> results == map[] && fileSystem == old(fileSystem) && activeProcesses == old(activeProcesses)
        invariant n == 0 ==> spawned == [] && forall h :: h in old(activeProcesses) ==> h.history == old(h.history)
        invariant n >= 1 ==> activeProcesses == []
        invariant n >= 1 ==> forall h :: h in old(activeProcesses) ==> CleanedUpSince(h, old(h.history))
        invariant forall i :: 0 <= i < |spawned| ==> fresh(spawned[i]) && CleanedUpSince(spawned[i], [])
        invariant n == 1 ==>
          && results == map[WithoutInsights := PhaseOutcome(app, port, configName, false, old(fileSystem), withoutInput)]
          && fileSystem == AfterSetup(old(fileSystem), app, false)
        invariant n == 2 ==>
          && results == map[
               WithoutInsights := PhaseOutcome(app, port, configName, false, old(fileSystem), withoutInput),
               WithInsights := PhaseOutcome(app, port, configName, true, AfterSetup(old(fileSystem), app, false), withInput)]
          && fileSystem == AfterSetup(AfterSetup(old(fileSystem), app, false), app, true)
      {
        var insightsEnabled := phases[n];
        var input := if insightsEnabled then withInput else withoutInput;
        var entry;
        ghost var phaseSpawned;
        entry, phaseSpawned := RunPhase(app, port, configName, insightsEnabled, input);
        spawned := spawned + phaseSpawned;
        results := results[InsightsLabel(insightsEnabled) := entry];
      }
    }

    // -------------------------------------------------------------------
    // Facts about the paths and the phase outcome

    /** An env file never coincides with an application's `.env`, so setting
        up one phase cannot create or remove the other phase's env file. */
    lemma EnvFileIsNotTarget(app: string, withInsights: bool, other: string)
      ensures EnvFile(app, withInsights) != EnvTarget(other)
    {
      var k := |projectRoot| + 1;
      var source := EnvFile(app, withInsights);
      var target := EnvTarget(other);
      assert LoadTestingDir()[k] == 'l';
      assert source[k] == LoadTestingDir()[k];
      assert AppDir(other)[k] == 'd' || AppDir(other)[k] == 'f';
      assert target[k] == AppDir(other)[k];
    }

    /** The second phase finds its env file exactly when it existed before the first phase. */
    lemma SecondPhaseSeesOriginalEnvFile(fs: map<string, string>, app: string)
      ensures EnvFile(app, true) in AfterSetup(fs, app, false) <==> EnvFile(app, true) in fs
    {
      EnvFileIsNotTarget(app, true, app);
    }

    /** The with-insights phase runs last: its env file's contents end up in the application's `.env`. */
    lemma LastPhaseConfigurationWins(fs: map<string, string>, app: string)
      requires EnvFile(app, true) in fs
      ensures var after := AfterSetup(AfterSetup(fs, app, false), app, true);
        EnvTarget(app) in after && after[EnvTarget(app)] == fs[EnvFile(app, true)]
    {
      EnvFileIsNotTarget(app, true, app);
    }

    /** The env file is chosen by the application and the state, and the copy lands in that application's directory. */
    lemma SetupPaths(app: string, withInsights: bool)
      ensures EnvFile(app, withInsights) == LoadTestingDir() + "/env_configs/.env." + app + "." + (if withInsights then "with_insights" else "without_insights")
      ensures EnvTarget(app) == (if app == "django" then DjangoDir() else FlaskDir()) + "/.env"
      ensures EnvFile(app, true) != EnvFile(app, false)
    {
      assert |EnvFile(app, true)| != |EnvFile(app, false)|;
    }

    /** A failed phase never counts as a success, and a completed one counts exactly when locust exited with 0. */
    lemma PhaseSuccessIsLocustSuccess(app: string, port: nat, configName: string, insightsEnabled: bool,
                                      fs: map<string, string>, input: PhaseInput)
      ensures var r := PhaseOutcome(app, port, configName, insightsEnabled, fs, input);
        r.Succeeded() <==>
          && r.PhaseCompleted?
          && var resultsDir := LocustResultsDir(app, configName, InsightsLabel(insightsEnabled), input.locustTimestamp);
             var outcome := input.locust(LocustCommand(TargetHost(port), TestConfigs[configName], resultsDir, DefaultUserClass), LocustTimeoutSeconds);
             outcome.Exited? && outcome.returnCode == 0
    {
    }

    /** The locust command carries the configuration's user count and spawn rate as decimal numbers that read back unchanged. */
    lemma LocustCommandCarriesConfig(targetHost: string, config: LoadConfig, resultsDir: string, userClass: string)
      ensures var cmd := LocustCommand(targetHost, config, resultsDir, userClass);
        && |cmd| == 13 && StartsWith(cmd[3], "--users=") && StartsWith(cmd[4], "--spawn-rate=")
        && (forall i :: 8 <= i < |cmd[3]| ==> '0' <= cmd[3][i] <= '9')
        && (forall i :: 13 <= i < |cmd[4]| ==> '0' <= cmd[4][i] <= '9')
        && DigitsValue(cmd[3][8..]) == config.users
        && DigitsValue(cmd[4][13..]) == config.spawnRate
        && cmd[5] == "--run-time=" + config.duration
        && cmd[6] == "--host=" + targetHost
        && cmd[12] == userClass
    {
      var users, rate := NatToString(config.users), NatToString(config.spawnRate);
      assert ("--users=" + users)[8..] == users;
      assert ("--spawn-rate=" + rate)[13..] == rate;
      DigitsValueOfNatToString(config.users);
      DigitsValueOfNatToString(config.spawnRate);
    }

    /** The report generator reads back the application and the first word of the configuration name from the comparison file. */
    lemma ComparisonFileMetadata(app: string, configName: string, timestamp: string)
      requires '_' !in app && '/' !in app && '/' !in configName && '/' !in timestamp
      ensures ReportMetadata(ComparisonFile(app, configName, timestamp)) == (app, Split(configName, '_')[0])
    {
      ComparisonFileShape(app, configName, timestamp);
      ReportMetadataOfPath(ComparisonFile(app, configName, timestamp), LoadTestingDir() + "/results", app, configName, "comparison_" + timestamp);
    }

    lemma ComparisonFileShape(app: string, configName: string, timestamp: string)
      requires '/' !in timestamp
      ensures ComparisonFile(app, configName, timestamp)
        == LoadTestingDir() + "/results" + ['/'] + (app + ['_'] + configName + ['_'] + ("comparison_" + timestamp) + ".json")
      ensures '/' !in "comparison_" + timestamp
    {
    }
  }

  lemma ReportMetadataOfPath(path: string, dir: string, app: string, configName: string, tail: string)
    requires path == dir + ['/'] + (app + ['_'] + configName + ['_'] + tail + ".json")
    requires '_' !in app && '/' !in app && '/' !in configName && '/' !in tail
    ensures ReportMetadata(path) == (app, Split(configName, '_')[0])
  {
    ReportMetadataOfRunnerFile(dir, app, configName, tail);
  }
}
