# Load-testing harness for instrumentation overhead — Dafny model

The repository benchmarks what an instrumentation layer (Honeybadger
Insights) costs two equivalent web applications, one Django and one Flask.
Each application runs twice under the same locust load: once without the
instrumentation and once with it. Resource usage is sampled during each run,
and a report compares the two runs.

This project models the harness that does this, in four modules plus a
shared one:

- `resource_monitor.dfy` (`ResourceMonitoring`) models the resource monitor:
  - the `ResourceMonitor` class, whose `monitoring`, `metrics` and
    `startTime` fields are updated by start, capture and stop;
  - the sampling loop, as a sequence of capture steps;
  - the process scan by port;
  - the responsiveness probe;
  - `get_summary`, as a function over the samples.
- `test_runner.dfy` (`TestRunner`) models the orchestrator:
  - `ProcessHandle`, a child process whose liveness, wait timeout and
    signal errors the operating system decides (nondeterministic choices);
  - the `LoadTestRunner` class, with its registry `activeProcesses` and the
    files it copies (`fileSystem`);
  - start of the application and of the Celery worker;
  - environment setup;
  - the locust run;
  - each comparison phase with its `try`/`except`/`finally`;
  - the two-phase comparison;
  - the cleanup with its terminate → wait → kill escalation.
- `report_generator.dfy` (`ReportGeneration`) models the report generator:
  - the summary table;
  - the percentage impact with its zero-baseline cases (`Finite` or `PosInf`);
  - the selection of process data;
  - the LOW / MODERATE / HIGH verdict;
  - the metadata parsed from the comparison file name.
- `locustfile.dfy` (`LocustScenario`) models the locust scenario:
  - which applications the start-of-test listener warms up;
  - the warm-up loop;
  - how the user tasks classify response status codes.
- `common.dfy` (`Common`) holds `Option`/`Result`, the outcome of an HTTP
  request, and the Python string operations the harness relies on: `str(n)`,
  `in`, `lower`, `title`, `replace`, `split`/`join`, and `Path.stem`.
  `DigitsValue` (reading decimal digits back) is a proof helper: it states
  that `str(n)` is injective and that failure messages carry their status.

The outside world enters as parameters:

- psutil readings and the process table;
- HTTP outcomes (`HttpOutcome`);
- what `subprocess.run` returns for locust (a function of the command and
  timeout);
- clock readings and timestamps;
- the contents of the env files.

## Model

| member | source | states |
|---|---|---|
| `Common.NatToString` | load_testing/resource_monitor.py:120 | `f"{port}"` is a non-empty string of decimal digits |
| `Common.DigitsValueOfNatToString` | load_testing/resource_monitor.py:120 | reading the decimal text of `n` back gives `n` |
| `Common.NatToStringInjective` | load_testing/resource_monitor.py:120 | different numbers have different decimal texts |
| `Common.Contains` | load_testing/locustfile.py:17 | `sub in s` holds exactly when some window of `s` equals `sub` |
| `Common.Title` | load_testing/report_generator.py:44 | `title()`: a letter after a non-letter is upper-cased, a letter after a letter lower-cased, other characters kept |
| `Common.Split` | load_testing/report_generator.py:211 | `split('_')` gives at least one field, and no field contains the separator |
| `Common.JoinSplit` | load_testing/report_generator.py:211 | joining the fields of a split with the separator gives back the string |
| `Common.SplitJoin` | load_testing/report_generator.py:211 | splitting the join of separator-free fields gives back the fields |
| `Common.SplitHasSeveralFieldsIff` | load_testing/report_generator.py:213 | a split has a second field exactly when the separator occurs |
| `Common.Stem` | load_testing/report_generator.py:210 | the stem is a prefix of the final path component and contains no `/`; it is the whole name when no dot past the first character starts a non-empty suffix, and otherwise the name up to its last such dot |
| `ResourceMonitoring.PortKey` | load_testing/resource_monitor.py:61 | process entries are keyed `port_<p>` |
| `ResourceMonitoring.PortKeyInjective` | load_testing/resource_monitor.py:119-120 | distinct ports never share a `port_<p>` key |
| `ResourceMonitoring.Max` | load_testing/resource_monitor.py:113 | `max(values)` is one of the values and no value exceeds it |
| `ResourceMonitoring.MeanAtMostMax` | load_testing/resource_monitor.py:112-113 | the average of a non-empty list is at most its maximum |
| `ResourceMonitoring.SumAtMostLengthTimesBound` | load_testing/resource_monitor.py:112 | a sum of values each at most `b` is at most `len * b` |
| `ResourceMonitoring.ProcessSamples` | load_testing/resource_monitor.py:121-125 | the collected process metrics are empty exactly when no sample has the key; each one comes from a sample that has the key |
| `ResourceMonitoring.ProcessSamplesInSampleOrder` | load_testing/resource_monitor.py:121-125 | the collected metrics are, in sample order, those of exactly the samples that recorded the process, one per such sample |
| `ResourceMonitoring.ProcessReadingListed` | load_testing/resource_monitor.py:121-125 | every sample that recorded the process contributes its metrics |
| `ResourceMonitoring.ProcessSamplesCount` | load_testing/resource_monitor.py:139 | `samples` equals the number of samples that recorded the process |
| `ResourceMonitoring.SummarizeProcess` | load_testing/resource_monitor.py:128-140 | `samples` is the number of readings; per metric (CPU, memory, threads) the average is the mean of the readings, the maximum bounds every reading and is one of them, and the average is at most the maximum |
| `ResourceMonitoring.ProcessReadingBounded` | load_testing/resource_monitor.py:121-140 | a process entry's maxima bound the CPU, memory and thread readings of every sample that recorded the process |
| `ResourceMonitoring.ProcessMaximaReached` | load_testing/resource_monitor.py:121-140 | each maximum of a process entry is the reading of some sample that recorded the process |
| `ResourceMonitoring.SystemSummaryFacts` | load_testing/resource_monitor.py:108-116 | `system_summary`: each average is the mean of the samples' readings; each maximum bounds them all, is one of them, and is at least the average |
| `ResourceMonitoring.ProcessSummaries` | load_testing/resource_monitor.py:119-140 | `process_summary` has a `port_<p>` entry iff `p` is a target port some sample recorded, and holds no other key |
| `ResourceMonitoring.GetSummary` | load_testing/resource_monitor.py:95-142 | see below |
| `ResourceMonitoring.GetSummaryProcessEntries` | load_testing/resource_monitor.py:119-140 | every `process_summary` entry counts the samples that recorded its process (between 1 and `total_samples`), averages their readings, and has maxima that are readings and bound all of them |
| `ResourceMonitoring.ListeningProcessIsFirstMatch` | load_testing/resource_monitor.py:21-31 | the process found is the first readable one with a socket on the port; None iff there is none |
| `ResourceMonitoring.TestAppResponsiveness` | load_testing/resource_monitor.py:154-167 | any HTTP response, 5xx included, is responsive, with its status and elapsed time; an exception gives unresponsive with its message |
| `ResourceMonitoring.Captured` | load_testing/resource_monitor.py:78-83 | a capture that raised adds nothing, so there are never more samples than capture steps |
| `ResourceMonitoring.ResourceMonitor.constructor` | load_testing/resource_monitor.py:12-17 | a new monitor is idle, with no samples and no start time |
| `ResourceMonitoring.ResourceMonitor.GetProcessByPort` | load_testing/resource_monitor.py:19-31 | the nested scan returns exactly the first listening process, skipping processes that raise |
| `ResourceMonitoring.ResourceMonitor.ProcessesSnapshot` | load_testing/resource_monitor.py:49-63 | `processes` has a target port's key iff a listening process was found and its metrics could be read; it holds those metrics and no other key |
| `ResourceMonitoring.ResourceMonitor.GetSystemMetrics` | load_testing/resource_monitor.py:33-65 | a sample carries the given timestamp and system readings; a target port's key is present iff its listening process was found and read, and then holds that process's metrics; no other key |
| `ResourceMonitoring.ResourceMonitor.StartMonitoring` | load_testing/resource_monitor.py:67-74 | a no-op while monitoring; otherwise monitoring, start time recorded, samples reset |
| `ResourceMonitoring.ResourceMonitor.CaptureSample` | load_testing/resource_monitor.py:78-83 | one loop pass appends the reading, or nothing when the capture raised |
| `ResourceMonitoring.ResourceMonitor.MonitorLoop` | load_testing/resource_monitor.py:76-83 | the loop appends exactly the captured readings while monitoring, and nothing otherwise |
| `ResourceMonitoring.ResourceMonitor.StopMonitoring` | load_testing/resource_monitor.py:88-93 | monitoring ends, samples are kept, and the result is `get_summary` of them |
| `ResourceMonitoring.MonitorSession` | load_testing/resource_monitor.py:67-93 | start, loop, stop: the monitor holds exactly the captured samples; the summary is empty iff nothing was captured |
| `ReportGeneration.FirstPortEntry` | load_testing/report_generator.py:56-62 | no process data iff no key starts with `port_` |
| `ReportGeneration.FirstPortEntryAt` | load_testing/report_generator.py:57-60 | the entry taken is the one under the first key starting with `port_` |
| `ReportGeneration.ConfigurationLabels` | load_testing/report_generator.py:44 | the two states are labelled `Without Insights` and `With Insights` |
| `ReportGeneration.RowFor` | load_testing/report_generator.py:40-82 | the row is `Failed` iff `success` is not true, with the error or `Unknown error`; a success row reads each system column from `system_summary` and each process column from the first `port_` entry, 0 when the key, the entry or the resource data is missing; duration and samples likewise default to 0 |
| `ReportGeneration.RowForFirstPortColumns` | load_testing/report_generator.py:56-79 | the process columns of a success row are the first `port_` entry's values, 0 for a missing key |
| `ReportGeneration.SummaryRows` | load_testing/report_generator.py:32-84 | one row per state present; the without-insights row first and the with-insights row last |
| `ReportGeneration.GenerateSummaryTable` | load_testing/report_generator.py:32-84 | the loop over the two states yields exactly `SummaryRows`: absent states are skipped |
| `ReportGeneration.CalculateImpact` | load_testing/report_generator.py:114-117 | a zero baseline gives 0 iff the new value is 0, else +∞; otherwise `impact * b == (i - b) * 100` |
| `ReportGeneration.ImpactExamples` | load_testing/report_generator.py:114-117 | 0→0 gives 0, 0→5 gives +∞, 10→15 gives +50 |
| `ReportGeneration.ImpactZeroIffUnchanged` | load_testing/report_generator.py:114-117 | the impact is 0 exactly when the value did not change |
| `ReportGeneration.ImpactPositiveIffGrowth` | load_testing/report_generator.py:117 | against a positive baseline the impact is positive exactly when the value grew |
| `ReportGeneration.MissingMetricHasZeroImpact` | load_testing/report_generator.py:119-140 | a metric missing on both sides reads 0 and has zero impact |
| `ReportGeneration.SelectProcessData` | load_testing/report_generator.py:101-112 | the nested selection loop yields the as-written selection, including the equal-tables case |
| `ReportGeneration.CalculatePerformanceImpact` | load_testing/report_generator.py:86-142 | as written: an error record iff either state is absent or not successful, otherwise the five impacts |
| `ReportGeneration.AsWrittenEqualTablesReportMinusHundred` | load_testing/report_generator.py:105-112 | as written, equal process tables with a non-zero CPU average report a -100% process CPU impact |
| `ReportGeneration.PerformanceImpact` | load_testing/report_generator.py:86-142 | corrected: an error (`One or both tests failed`) iff either state did not succeed |
| `ReportGeneration.IdenticalRunsHaveZeroImpact` | load_testing/report_generator.py:119-140 | corrected: two successful runs with the same resource data show zero impact on all five metrics |
| `ReportGeneration.EqualSummariesCounterexample` | load_testing/report_generator.py:105-140 | one concrete pair of identical runs: -100% and a LOW verdict as written, 0% corrected |
| `ReportGeneration.Recommendation` | load_testing/report_generator.py:256-267 | no verdict iff the impact is an error; LOW iff both process impacts < 5; MODERATE iff not LOW and both < 15; otherwise HIGH |
| `ReportGeneration.InfiniteImpactIsHigh` | load_testing/report_generator.py:262-267 | an unbounded process CPU or memory impact is always HIGH |
| `ReportGeneration.RecommendationMonotone` | load_testing/report_generator.py:262-267 | larger process impacts never give a milder verdict |
| `ReportGeneration.SplitFirstField` | load_testing/report_generator.py:211-212 | the first field of a split is the longest prefix free of the separator |
| `ReportGeneration.ReportMetadataFields` | load_testing/report_generator.py:210-213 | `app_name` is the stem up to the first `_`; `test_config` is the next field, or `unknown` when the stem has no `_` |
| `ReportGeneration.StemOfJsonFile` | load_testing/report_generator.py:210 | the stem of `dir/<name>.json` is `<name>` |
| `ReportGeneration.ReportMetadataOfJsonFile` | load_testing/report_generator.py:210-213 | the metadata of `dir/<stem>.json` are the first two fields of `<stem>` |
| `ReportGeneration.ReportMetadataOfRunnerFile` | load_testing/report_generator.py:210-213 | for `<app>_<config>_<tail>.json` the metadata are the app and the first word of the config |
| `ReportGeneration.MediumLoadReportsMedium` | load_testing/report_generator.py:213 | the configuration `medium_load` is reported as `medium` |
| `ReportGeneration.GenerateReport` | load_testing/report_generator.py:205-279 | the report carries the file-name metadata, exactly the summary rows, the impacts of `calculate_performance_impact` as written (equal to the corrected ones whenever the two process tables differ), and a verdict iff both states succeeded |
| `TestRunner.ProcessHandle.Spawn` | load_testing/test_runner.py:91-101 | a spawned child runs its command in its directory with its environment overrides |
| `TestRunner.ProcessHandle.Poll` | load_testing/test_runner.py:269 | `poll() is None` reports liveness; an exited child never comes back |
| `TestRunner.ProcessHandle.Terminate` | load_testing/test_runner.py:270 | SIGTERM is recorded and may raise; it does not itself end the child |
| `TestRunner.ProcessHandle.Wait` | load_testing/test_runner.py:271-273 | the wait ends with the child gone, or times out with it still running |
| `TestRunner.ProcessHandle.Kill` | load_testing/test_runner.py:273-274 | unless the call raises, the child is gone |
| `TestRunner.CleanupTraceSignalsOnlyLiveChildren` | load_testing/test_runner.py:267-276 | a cleanup pass always polls first; it terminates iff the child was alive, and kills only after a wait timeout |
| `TestRunner.StopProcess` | load_testing/test_runner.py:268-276 | one child's events form a cleanup trace; unless a call raised, the child is no longer running |
| `TestRunner.RunnerTargetsWarmUpBoth` | load_testing/test_runner.py:202 | the hosts on ports 8001 and 5002 make the warm-up call ports 8000 and 5000 |
| `TestRunner.ReportMetadataOfPath` | load_testing/report_generator.py:210-213 | a path of the runner's comparison-file shape parses to the app and the first word of the config |
| `TestRunner.LoadTestRunner.constructor` | load_testing/test_runner.py:17-51 | a new runner has an empty registry |
| `TestRunner.LoadTestRunner.Cleanup` | load_testing/test_runner.py:263-278 | every registered child gets a cleanup trace and is stopped unless a call raised; the registry ends empty, so a second cleanup finds nothing |
| `TestRunner.LoadTestRunner.StartApp` | load_testing/test_runner.py:72-117 | unknown apps are rejected before spawning; a spawned app runs its command and is registered once, the other children untouched; a failed probe raises `Failed to start <app>: <error>` after a cleanup that leaves the new and every registered child with a cleanup trace, stopped unless a call raised, and the registry empty |
| `TestRunner.LoadTestRunner.StartCeleryWorker` | load_testing/test_runner.py:119-140 | registers exactly one worker; every non-`django` app gets the flask worker |
| `TestRunner.LoadTestRunner.SetupEnvironment` | load_testing/test_runner.py:53-70 | fails with `Environment file not found: <path>` iff the state's env file is absent; otherwise copies it to the app's `.env` |
| `TestRunner.LoadTestRunner.RunLocustTest` | load_testing/test_runner.py:142-190 | an unknown configuration raises KeyError; success iff exit code 0; a timeout gives the fixed error record |
| `TestRunner.LoadTestRunner.MeasureOutcome` | load_testing/test_runner.py:216-237 | the record is completed iff the configuration exists; its `success` is locust's, and its resource data is the monitor summary of the captured samples |
| `TestRunner.LoadTestRunner.PhaseOutcome` | load_testing/test_runner.py:206-246 | a phase completes iff the env file exists, the app is known, the probe answered and the configuration exists |
| `TestRunner.LoadTestRunner.MonitorLoadTest` | load_testing/test_runner.py:216-237 | monitor start, capture loop, locust, monitor stop give exactly the measured outcome |
| `TestRunner.LoadTestRunner.MeasurePhase` | load_testing/test_runner.py:213-237 | the worker is registered, then the monitored load test runs |
| `TestRunner.LoadTestRunner.LaunchPhase` | load_testing/test_runner.py:210-237 | the app starts, then the phase is measured; a failed start yields its error record, with every child it spawned and every registered child already cleaned up |
| `TestRunner.LoadTestRunner.RunPhase` | load_testing/test_runner.py:200-251 | a phase yields its outcome record and applies its env setup; every child registered before it or spawned by it gets a cleanup trace and is stopped unless a call raised, and the registry ends empty |
| `TestRunner.LoadTestRunner.RunComparisonTest` | load_testing/test_runner.py:192-261 | both state keys are present; without-insights runs first on the original files, with-insights on the files after the first setup; every child registered before or spawned during the run is cleaned up and stopped unless a call raised; the registry ends empty |
| `TestRunner.LoadTestRunner.EnvFileIsNotTarget` | load_testing/test_runner.py:56-65 | an env file is never an app's `.env` |
| `TestRunner.LoadTestRunner.SecondPhaseSeesOriginalEnvFile` | load_testing/test_runner.py:200-208 | the first phase's setup neither creates nor removes the second phase's env file |
| `TestRunner.LoadTestRunner.LastPhaseConfigurationWins` | load_testing/test_runner.py:200-208 | after the comparison, the app's `.env` holds the with-insights file |
| `TestRunner.LoadTestRunner.SetupPaths` | load_testing/test_runner.py:55-65 | the env file is `.env.<app>.<state>` under `env_configs`; the target is `django_app/.env` for django, else `flask_app/.env` |
| `TestRunner.LoadTestRunner.PhaseSuccessIsLocustSuccess` | load_testing/test_runner.py:232-246 | a phase succeeds iff it completed and locust exited with 0 |
| `TestRunner.LoadTestRunner.LocustCommandCarriesConfig` | load_testing/test_runner.py:153-164 | the locust command has 13 words; users and spawn rate read back as the configuration's numbers; run time, host and user class are passed through |
| `TestRunner.LoadTestRunner.ComparisonFileMetadata` | load_testing/test_runner.py:254-255 | the report parses the comparison file back to the app and the first word of the configuration |
| `TestRunner.LoadTestRunner.ComparisonFileShape` | load_testing/test_runner.py:255 | the comparison file is `<results>/<app>_<config>_comparison_<timestamp>.json` |
| `LocustScenario.WarmupHosts` | load_testing/locustfile.py:16-23 | Django only iff the host has `:8000` or `django`; Flask only iff not that and it has `:5000` or `flask`; otherwise both, 8000 first |
| `LocustScenario.WarmupHostsAreKnown` | load_testing/locustfile.py:16-23 | one or two known hosts, never the same twice |
| `LocustScenario.DjangoWinsOverFlask` | load_testing/locustfile.py:17-20 | a host matching both applications warms up Django only |
| `LocustScenario.MissingCharacter` | load_testing/locustfile.py:17 | a string lacking one character of `sub` does not contain `sub` |
| `LocustScenario.PortAbsent` | load_testing/locustfile.py:17 | `http://localhost:NNNN` contains no `:PPPP` whose last digit differs from its own |
| `LocustScenario.LocalhostPortMatchesNeither` | load_testing/locustfile.py:17-23 | a four-digit localhost port not ending in 0 matches neither application |
| `LocustScenario.RunnerHostsWarmUpBoth` | load_testing/locustfile.py:21-23 | the runner's hosts on 8001 and 5002 warm up both default hosts |
| `LocustScenario.WarmupAppName` | load_testing/locustfile.py:34 | the label is `Django` iff the warm-up host contains `:8000`, else `Flask` |
| `LocustScenario.WarmupAppNames` | load_testing/locustfile.py:34 | the two warm-up hosts are labelled `Django` and `Flask` |
| `LocustScenario.OnTestStart` | load_testing/locustfile.py:12-39 | no warm-up without a host option; otherwise one report per selected host, in order, each from that host's `/api/warmup/` outcome |
| `LocustScenario.TriggerTaskCheck` | load_testing/locustfile.py:79-82 | success iff status 200; a failure message starts `Task trigger failed: ` |
| `LocustScenario.TriggerErrorCheck` | load_testing/locustfile.py:96-99 | success iff status 200 or 500; a failure message starts `Unexpected status code: ` |
| `LocustScenario.WarmupCheck` | load_testing/locustfile.py:105-108 | success iff status 200; a failure message starts `Warmup check failed: ` |
| `LocustScenario.ChecksDifferOnlyAt500` | load_testing/locustfile.py:79-99 | the error task and the task trigger disagree on exactly status 500; the task trigger and warm-up check always agree |
| `LocustScenario.FailureMessagesCarryStatus` | load_testing/locustfile.py:79-108 | every failure message ends with the status code, which reads back unchanged |

`ResourceMonitoring.GetSummary` states the following:

- The summary is empty iff there are no samples.
- `total_samples` is the number of samples.
- For system CPU and for system memory, the average is the mean of the
  readings, the maximum bounds every reading and is one of them, and the
  average is at most the maximum.
- Per process, `process_summary` has an entry exactly for each target port
  that some sample recorded.
- `process_summary` is `ProcessSummaries` of the samples; what each entry
  promises is stated by `GetSummaryProcessEntries`.

## Left out

- The monitor's background thread is left out: its `time.sleep` cadence,
  `join(timeout=5)` and daemon flag are replaced by the explicit capture
  steps of `MonitorLoop`. Concurrent access to `metrics` is not modelled.
- psutil, HTTP and subprocess calls are inputs. This covers psutil readings,
  `requests.get`, `subprocess.Popen`/`run` and the process table; the MB
  divisions of the byte counts are absorbed into the inputs.
- `Popen` itself raising (a missing executable) is not modelled: every spawn
  succeeds.
- The `pkill -f :<port>` sweep at the end of `cleanup` is left out. It is an
  OS-level pattern kill outside the registry.
- Clock and time handling are inputs:
  - the clocks (`time.time`, `datetime.now`) and every timestamp are inputs;
  - `duration_seconds` is `now - start`, or 0 when no start time was
    recorded (or it is 0);
  - the fixed sleeps are left out.
- File and JSON I/O are left out or abstracted:
  - JSON load and dump, `save_results` and the monitoring JSON file are
    left out;
  - the `mkdir` of the results directory and the `csv_files` glob are
    left out;
  - writing the report and chart files is left out;
  - the env-file copy is an update of the `fileSystem` map.
- Rendering is left out: pandas tables, `to_string`, charts and `%.1f`
  formatting. The table rows carry the raw numbers instead.
- Floats are modelled as exact reals:
  - there is no rounding and no NaN;
  - the only infinity is the `PosInf` impact of a zero baseline;
  - `inf < 5` being false is modelled in `Below`.
- `lower()` and `title()` cover ASCII letters only.
- A JSON value of another type where a number or object is expected is not
  modelled: records are typed.
- The `main()` functions, argument parsing, the SIGINT handler and all
  printed messages are left out.
- ResourceMonitoring.Captured: its own contract states only the length
  bound. The content it contributes is stated by `MonitorLoop` and
  `MonitorSession`.
- TestRunner.LoadTestRunner.MonitorLoadTest: when locust raises KeyError
  (unknown configuration), the monitor is never stopped. In the source its
  thread keeps sampling; here the monitor object is simply dropped.
- LocustScenario.OnTestStart: when the host option exists but is `None`,
  the source raises TypeError inside the listener. That path is modelled as
  `ListenerRaised` with Python's message, without locust's handling of it.
- The locust user classes' traffic is left out: random payloads,
  `wait_time`, task weights and the other endpoints. Only the status
  classification is modelled.
- The demo applications (Django, Flask, Celery tasks, settings) are not
  part of this model.
- `get_process_by_port` is modelled only for the exceptions it names: an
  unreadable process is skipped. A process whose metrics cannot be read in
  `get_system_metrics` appears as a pid missing from `infos`.
- The locust timeout is a fixed 600 s in the code, as modelled.

## Findings

| source | as written | input that shows it | evidently intended | confidence | as-written member | corrected member |
|---|---|---|---|---|---|---|
| load_testing/report_generator.py:105-112 | `calculate_performance_impact` decides which slot a `process_summary` fills by comparing it by value with the baseline one. When the two runs' tables are equal, the instrumented run also fills the baseline slot, and its slot stays `{}`. | Both phases succeed with `process_summary == {"port_8001": {"avg_cpu_percent": 10, "avg_memory_mb": 50, "avg_threads": 4}}`. As written, this gives process CPU, memory and thread impacts of -100%, and a LOW verdict. | Each run's first `port_` entry is read from its own table, so identical runs show 0% impact. | not executed | `ReportGeneration.AsWrittenEqualTablesReportMinusHundred` | `ReportGeneration.IdenticalRunsHaveZeroImpact` |

`ReportGeneration.EqualSummariesCounterexample` proves the concrete input
above against both definitions. `ReportGeneration.SelectProcessData` and
`ReportGeneration.CalculatePerformanceImpact` model the code as written.
`ReportGeneration.GenerateReport` follows the code and reports the
as-written impacts. `ReportGeneration.PerformanceImpact` is the corrected
definition. `GenerateReport` states that the two agree whenever the two
process tables differ, so only equal tables are affected.
