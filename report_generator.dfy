/** The report generator: reads a persisted comparison result (the two
    phases' records, as loaded from JSON), builds the summary table, computes
    the percentage impact of instrumentation per metric and derives the
    three-tier verdict. JSON objects whose keys may be missing are modelled
    with `Option` fields and `map`s; chart and text rendering are left out. */
module ReportGeneration {
  import opened Common

  /** A JSON object of numeric statistics (`system_summary`, or one process's entry). */
  type Stats = map<string, real>

  /** `process_summary` as loaded: its `port_<p>` entries in file order (keys distinct). */
  type ProcessTable = seq<(string, Stats)>

  /** `resource_monitoring` of a phase record; each key may be absent. */
  datatype ResourceData = ResourceData(
    systemSummary: Option<Stats>,
    processSummary: Option<ProcessTable>,
    durationSeconds: Option<real>,
    totalSamples: Option<int>)

  /** One phase's record; each key may be absent. */
  datatype PhaseData = PhaseData(
    success: Option<bool>,
    error: Option<string>,
    resourceMonitoring: Option<ResourceData>)

  /** The comparison file's top-level object, keyed by instrumentation state. */
  type ComparisonData = map<string, PhaseData>

  const WithoutInsights: string := "without_insights"
  const WithInsights: string := "with_insights"

  /** `d.get(key, 0)` */
  function GetOr(d: Stats, key: string): real {
    if key in d then d[key] else 0.0
  }

  /** `comparison_data.get(state, {})` */
  function PhaseOf(data: ComparisonData, state: string): PhaseData {
    if state in data then data[state] else PhaseData(None, None, None)
  }

  /** `data.get('success')` is truthy. */
  predicate Succeeded(d: PhaseData) {
    d.success == Some(true)
  }

  function ResourcesOf(d: PhaseData): ResourceData {
    if d.resourceMonitoring.Some? then d.resourceMonitoring.value else ResourceData(None, None, None, None)
  }

  function SystemOf(d: PhaseData): Stats {
    var r := ResourcesOf(d);
    if r.systemSummary.Some? then r.systemSummary.value else map[]
  }

  function ProcessTableOf(d: PhaseData): ProcessTable {
    var r := ResourcesOf(d);
    if r.processSummary.Some? then r.processSummary.value else []
  }

  predicate IsPortKey(key: string) {
    StartsWith(key, "port_")
  }

  /** The entry of the first key starting with `port_`, in table order. */
  function FirstPortEntry(t: ProcessTable): (r: Option<Stats>)
    ensures r.None? <==> forall i :: 0 <= i < |t| ==> !IsPortKey(t[i].0)
  {
    if t == [] then None
    else if IsPortKey(t[0].0) then Some(t[0].1)
    else
      assert forall i :: 1 <= i < |t| ==> t[i] == t[1..][i - 1];
      FirstPortEntry(t[1..])
  }

  lemma {:induction false} FirstPortEntryAt(t: ProcessTable, i: nat)
    requires i < |t| && IsPortKey(t[i].0)
    requires forall j :: 0 <= j < i ==> !IsPortKey(t[j].0)
    ensures FirstPortEntry(t) == Some(t[i].1)
  {
    if i > 0 {
      assert forall j :: 0 <= j < i - 1 ==> t[1..][j] == t[j + 1];
      FirstPortEntryAt(t[1..], i - 1);
    }
  }

  /** The first `port_` entry, or `{}` when there is none. */
  function FirstPortStats(t: ProcessTable): Stats {
    if FirstPortEntry(t).Some? then FirstPortEntry(t).value else map[]
  }

  /** The table as a Python dict, for `==` between two tables (order-insensitive). */
  function AsDict(t: ProcessTable): map<string, Stats> {
    if t == [] then map[] else AsDict(t[..|t| - 1])[t[|t| - 1].0 := t[|t| - 1].1]
  }

  predicate SameDict(a: ProcessTable, b: ProcessTable) {
    AsDict(a) == AsDict(b)
  }

  // ---------------------------------------------------------------------
  // Summary table

  datatype TableRow =
    | FailedRow(configuration: string, error: string)
    | SuccessRow(
        configuration: string,
        avgCpuSystem: real, maxCpuSystem: real,
        avgMemorySystem: real, maxMemorySystem: real,
        avgCpuProcess: real, maxCpuProcess: real,
        avgMemoryProcessMb: real, maxMemoryProcessMb: real,
        avgThreads: real, maxThreads: real,
        testDurationSeconds: real,
        samples: int)
  {
    function Status(): string {
      if FailedRow? then "Failed" else "Success"
    }
  }

  /** `state.replace('_', ' ').title()` */
  function ConfigurationLabel(state: string): string {
    Title(ReplaceChar(state, '_', ' '))
  }

  lemma ConfigurationLabels()
    ensures ConfigurationLabel(WithoutInsights) == "Without Insights"
    ensures ConfigurationLabel(WithInsights) == "With Insights"
  {
    WithoutInsightsLabel();
    WithInsightsLabel();
  }

  lemma WithoutInsightsLabel()
    ensures ConfigurationLabel(WithoutInsights) == "Without Insights"
  {
    SpacedState(WithoutInsights, "without insights");
    TitleWithoutInsights();
  }

  lemma WithInsightsLabel()
    ensures ConfigurationLabel(WithInsights) == "With Insights"
  {
    SpacedState(WithInsights, "with insights");
    TitleWithInsights();
  }

  lemma SpacedState(state: string, spaced: string)
    requires (state == WithoutInsights && spaced == "without insights") || (state == WithInsights && spaced == "with insights")
    ensures ReplaceChar(state, '_', ' ') == spaced
  {
  }

  lemma TitleWithoutInsights()
    ensures Title("without insights") == "Without Insights"
  {
    var t := Title("without insights");
    assert t[0] == 'W' && t[8] == 'I';
  }

  lemma TitleWithInsights()
    ensures Title("with insights") == "With Insights"
  {
    var t := Title("with insights");
    assert t[0] == 'W' && t[5] == 'I';
  }

  /** The row `generate_summary_table` emits for a state present in the data. */
  function RowFor(state: string, d: PhaseData): (row: TableRow)
    ensures row.configuration == ConfigurationLabel(state)
    ensures row.Status() == "Failed" <==> !Succeeded(d)
    ensures row.FailedRow? ==> row.error == (if d.error.Some? then d.error.value else "Unknown error")
    ensures row.SuccessRow? && d.resourceMonitoring.None? ==>
      && row.avgCpuSystem == 0.0 && row.maxCpuSystem == 0.0
      && row.avgMemorySystem == 0.0 && row.maxMemorySystem == 0.0
      && row.avgCpuProcess == 0.0 && row.maxCpuProcess == 0.0
      && row.avgMemoryProcessMb == 0.0 && row.maxMemoryProcessMb == 0.0
      && row.avgThreads == 0.0 && row.maxThreads == 0.0
      && row.testDurationSeconds == 0.0 && row.samples == 0
    ensures row.SuccessRow? ==>
      && row.avgCpuSystem == GetOr(SystemOf(d), "avg_cpu_percent")
      && row.maxCpuSystem == GetOr(SystemOf(d), "max_cpu_percent")
      && row.avgMemorySystem == GetOr(SystemOf(d), "avg_memory_percent")
      && row.maxMemorySystem == GetOr(SystemOf(d), "max_memory_percent")
    ensures row.SuccessRow? && FirstPortEntry(ProcessTableOf(d)).None? ==>
      && row.avgCpuProcess == 0.0 && row.maxCpuProcess == 0.0
      && row.avgMemoryProcessMb == 0.0 && row.maxMemoryProcessMb == 0.0
      && row.avgThreads == 0.0 && row.maxThreads == 0.0
    ensures row.SuccessRow? && FirstPortEntry(ProcessTableOf(d)).Some? ==>
      var proc := FirstPortEntry(ProcessTableOf(d)).value;
      && row.avgCpuProcess == GetOr(proc, "avg_cpu_percent")
      && row.maxCpuProcess == GetOr(proc, "max_cpu_percent")
      && row.avgMemoryProcessMb == GetOr(proc, "avg_memory_mb")
      && row.maxMemoryProcessMb == GetOr(proc, "max_memory_mb")
      && row.avgThreads == GetOr(proc, "avg_threads")
      && row.maxThreads == GetOr(proc, "max_threads")
    ensures row.SuccessRow? ==>
      && row.testDurationSeconds == (if ResourcesOf(d).durationSeconds.Some? then ResourcesOf(d).durationSeconds.value else 0.0)
      && row.samples == (if ResourcesOf(d).totalSamples.Some? then ResourcesOf(d).totalSamples.value else 0)
  {
    var configuration := ConfigurationLabel(state);
    if !Succeeded(d) then
      FailedRow(configuration, if d.error.Some? then d.error.value else "Unknown error")
    else
      var r := ResourcesOf(d);
      var sys := SystemOf(d);
      var proc := FirstPortStats(ProcessTableOf(d));
      SuccessRow(
        configuration,
        GetOr(sys, "avg_cpu_percent"), GetOr(sys, "max_cpu_percent"),
        GetOr(sys, "avg_memory_percent"), GetOr(sys, "max_memory_percent"),
        GetOr(proc, "avg_cpu_percent"), GetOr(proc, "max_cpu_percent"),
        GetOr(proc, "avg_memory_mb"), GetOr(proc, "max_memory_mb"),
        GetOr(proc, "avg_threads"), GetOr(proc, "max_threads"),
        if r.durationSeconds.Some? then r.durationSeconds.value else 0.0,
        if r.totalSamples.Some? then r.totalSamples.value else 0)
  }

  /** The process columns of a success row come from the first `port_`
      entry of the process table, a missing metric reading as 0. */
  lemma RowForFirstPortColumns(state: string, d: PhaseData, i: nat, key: string)
    requires Succeeded(d)
    requires i < |ProcessTableOf(d)| && IsPortKey(ProcessTableOf(d)[i].0)
    requires forall j :: 0 <= j < i ==> !IsPortKey(ProcessTableOf(d)[j].0)
    ensures var row, entry := RowFor(state, d), ProcessTableOf(d)[i].1;
      && row.SuccessRow?
      && row.avgCpuProcess == (if "avg_cpu_percent" in entry then entry["avg_cpu_percent"] else 0.0)
      && row.maxCpuProcess == (if "max_cpu_percent" in entry then entry["max_cpu_percent"] else 0.0)
      && row.avgMemoryProcessMb == (if "avg_memory_mb" in entry then entry["avg_memory_mb"] else 0.0)
      && row.maxMemoryProcessMb == (if "max_memory_mb" in entry then entry["max_memory_mb"] else 0.0)
      && row.avgThreads == (if "avg_threads" in entry then entry["avg_threads"] else 0.0)
      && row.maxThreads == (if "max_threads" in entry then entry["max_threads"] else 0.0)
  {
    FirstPortEntryAt(ProcessTableOf(d), i);
  }

  /** The rows of the summary table: one per state present, without-insights first. */
  function SummaryRows(data: ComparisonData): (rows: seq<TableRow>)
    ensures |rows| == (if WithoutInsights in data then 1 else 0) + (if WithInsights in data then 1 else 0)
    ensures WithoutInsights in data ==> rows[0] == RowFor(WithoutInsights, data[WithoutInsights])
    ensures WithInsights in data ==> rows[|rows| - 1] == RowFor(WithInsights, data[WithInsights])
  {
    (if WithoutInsights in data then [RowFor(WithoutInsights, data[WithoutInsights])] else [])
    + (if WithInsights in data then [RowFor(WithInsights, data[WithInsights])] else [])
  }

  /** `generate_summary_table`: one row per state present, without-insights first. */
  method GenerateSummaryTable(data: ComparisonData) returns (rows: seq<TableRow>)
    ensures rows == SummaryRows(data)
  {
    var states := [WithoutInsights, WithInsights];
    rows := [];
    for n := 0 to |states|
      invariant n == 0 ==> rows == []
      invariant n >= 1 ==>
        rows == (if WithoutInsights in data then [RowFor(WithoutInsights, data[WithoutInsights])] else [])
          + (if n == 2 && WithInsights in data then [RowFor(WithInsights, data[WithInsights])] else [])
    {
      var state := states[n];
      if state !in data {
        continue;
      }
      rows := rows + [RowFor(state, data[state])];
    }
  }

  // ---------------------------------------------------------------------
  // Impact

  /** A percentage change; a zero baseline with a non-zero new value is unbounded growth. */
  datatype Impact = Finite(percent: real) | PosInf

  /** `calculate_impact(baseline, instrumented)` */
  function CalculateImpact(baseline: real, instrumented: real): (r: Impact)
    ensures baseline == 0.0 ==> (r == Finite(0.0) <==> instrumented == 0.0)
    ensures baseline == 0.0 ==> (r == PosInf <==> instrumented != 0.0)
    ensures baseline != 0.0 ==> r.Finite? && r.percent * baseline == (instrumented - baseline) * 100.0
  {
    if baseline == 0.0 then (if instrumented == 0.0 then Finite(0.0) else PosInf)
    else Finite(((instrumented - baseline) / baseline) * 100.0)
  }

  lemma ImpactExamples()
    ensures CalculateImpact(0.0, 0.0) == Finite(0.0)
    ensures CalculateImpact(0.0, 5.0) == PosInf
    ensures CalculateImpact(10.0, 15.0) == Finite(50.0)
  {
  }

  /** No change is zero impact, and zero impact means no change. */
  lemma ImpactZeroIffUnchanged(baseline: real, instrumented: real)
    ensures CalculateImpact(baseline, instrumented) == Finite(0.0) <==> instrumented == baseline
  {
    var r := CalculateImpact(baseline, instrumented);
    if baseline != 0.0 && r == Finite(0.0) {
      assert (instrumented - baseline) * 100.0 == 0.0;
    }
  }

  /** Against a positive baseline the impact is positive exactly when the value grew. */
  lemma ImpactPositiveIffGrowth(baseline: real, instrumented: real)
    requires baseline > 0.0
    ensures CalculateImpact(baseline, instrumented).percent > 0.0 <==> instrumented > baseline
  {
    var p := CalculateImpact(baseline, instrumented).percent;
    if p > 0.0 {
      assert p * baseline > 0.0;
    } else {
      assert p * baseline <= 0.0;
    }
  }

  /** A metric missing on both sides reads as 0 on both, hence zero impact. */
  lemma MissingMetricHasZeroImpact(baseline: Stats, instrumented: Stats, key: string)
    requires key !in baseline && key !in instrumented
    ensures CalculateImpact(GetOr(baseline, key), GetOr(instrumented, key)) == Finite(0.0)
  {
  }

  datatype ImpactRecord =
    | ImpactError(error: string)
    | Impacts(
        systemCpuImpact: Impact,
        systemMemoryImpact: Impact,
        processCpuImpact: Impact,
        processMemoryImpact: Impact,
        threadCountImpact: Impact)

  const BothFailedMessage: string := "One or both tests failed"

  predicate BothSucceeded(data: ComparisonData) {
    Succeeded(PhaseOf(data, WithoutInsights)) && Succeeded(PhaseOf(data, WithInsights))
  }

  /** The five impacts from the two system summaries and the two selected process entries. */
  function ImpactsFrom(baseSystem: Stats, insightsSystem: Stats, baseProcess: Stats, insightsProcess: Stats): ImpactRecord {
    Impacts(
      CalculateImpact(GetOr(baseSystem, "avg_cpu_percent"), GetOr(insightsSystem, "avg_cpu_percent")),
      CalculateImpact(GetOr(baseSystem, "avg_memory_percent"), GetOr(insightsSystem, "avg_memory_percent")),
      CalculateImpact(GetOr(baseProcess, "avg_cpu_percent"), GetOr(insightsProcess, "avg_cpu_percent")),
      CalculateImpact(GetOr(baseProcess, "avg_memory_mb"), GetOr(insightsProcess, "avg_memory_mb")),
      CalculateImpact(GetOr(baseProcess, "avg_threads"), GetOr(insightsProcess, "avg_threads")))
  }

  /** The process entries `calculate_performance_impact` ends up with, as the
      code is written: the second pass tells the tables apart by comparing
      them by value, so an instrumented table equal to the baseline one
      lands in the baseline slot and the instrumented entry stays `{}`. */
  function AsWrittenSelection(baseline: ProcessTable, insights: ProcessTable): (Stats, Stats) {
    if SameDict(insights, baseline) then
      (if FirstPortEntry(insights).Some? then FirstPortEntry(insights).value else FirstPortStats(baseline), map[])
    else
      (FirstPortStats(baseline), FirstPortStats(insights))
  }

  /** The selection loop of `calculate_performance_impact`, as written. */
  method SelectProcessData(baseline: ProcessTable, insights: ProcessTable)
    returns (baselineProcess: Stats, insightsProcess: Stats)
    ensures (baselineProcess, insightsProcess) == AsWrittenSelection(baseline, insights)
  {
    baselineProcess, insightsProcess := map[], map[];
    var summaries := [baseline, insights];
    for n := 0 to 2
      invariant n == 0 ==> baselineProcess == map[] && insightsProcess == map[]
      invariant n == 1 ==> baselineProcess == FirstPortStats(baseline) && insightsProcess == map[]
      invariant n == 2 ==> (baselineProcess, insightsProcess) == AsWrittenSelection(baseline, insights)
    {
      var summary := summaries[n];
      var i := 0;
      while i < |summary|
        invariant 0 <= i <= |summary|
        invariant forall j :: 0 <= j < i ==> !IsPortKey(summary[j].0)
      {
        if IsPortKey(summary[i].0) {
          FirstPortEntryAt(summary, i);
          if SameDict(summary, baseline) {
            baselineProcess := summary[i].1;
          } else {
            insightsProcess := summary[i].1;
          }
          break;
        }
        i := i + 1;
      }
    }
  }

  /** `calculate_performance_impact` as written (see AsWrittenSelection). */
  function AsWrittenImpact(data: ComparisonData): ImpactRecord {
    if !BothSucceeded(data) then ImpactError(BothFailedMessage)
    else
      var base, ins := PhaseOf(data, WithoutInsights), PhaseOf(data, WithInsights);
      var sel := AsWrittenSelection(ProcessTableOf(base), ProcessTableOf(ins));
      ImpactsFrom(SystemOf(base), SystemOf(ins), sel.0, sel.1)
  }

  method CalculatePerformanceImpact(data: ComparisonData) returns (impact: ImpactRecord)
    ensures impact == AsWrittenImpact(data)
    ensures impact.ImpactError? <==> !BothSucceeded(data)
  {
    var withoutInsights := PhaseOf(data, WithoutInsights);
    var withInsights := PhaseOf(data, WithInsights);
    if !(Succeeded(withoutInsights) && Succeeded(withInsights)) {
      return ImpactError(BothFailedMessage);
    }
    var baselineProcess, insightsProcess := SelectProcessData(ProcessTableOf(withoutInsights), ProcessTableOf(withInsights));
    impact := ImpactsFrom(SystemOf(withoutInsights), SystemOf(withInsights), baselineProcess, insightsProcess);
  }

  /** With equal process tables whose first entry has a non-zero CPU average,
      the code as written reports a -100% process CPU impact. */
  lemma AsWrittenEqualTablesReportMinusHundred(data: ComparisonData)
    requires BothSucceeded(data)
    requires SameDict(ProcessTableOf(PhaseOf(data, WithInsights)), ProcessTableOf(PhaseOf(data, WithoutInsights)))
    requires GetOr(AsWrittenSelection(ProcessTableOf(PhaseOf(data, WithoutInsights)), ProcessTableOf(PhaseOf(data, WithInsights))).0, "avg_cpu_percent") != 0.0
    ensures AsWrittenImpact(data).processCpuImpact == Finite(-100.0)
  {
  }

  /** `calculate_performance_impact` with each table's first `port_` entry taken from that table. */
  function PerformanceImpact(data: ComparisonData): (impact: ImpactRecord)
    ensures impact.ImpactError? <==> !BothSucceeded(data)
    ensures impact.ImpactError? ==> impact.error == BothFailedMessage
  {
    if !BothSucceeded(data) then ImpactError(BothFailedMessage)
    else
      var base, ins := PhaseOf(data, WithoutInsights), PhaseOf(data, WithInsights);
      ImpactsFrom(SystemOf(base), SystemOf(ins), FirstPortStats(ProcessTableOf(base)), FirstPortStats(ProcessTableOf(ins)))
  }

  /** Two successful phases with identical resource data show no impact at all. */
  lemma IdenticalRunsHaveZeroImpact(data: ComparisonData)
    requires BothSucceeded(data)
    requires PhaseOf(data, WithoutInsights).resourceMonitoring == PhaseOf(data, WithInsights).resourceMonitoring
    ensures PerformanceImpact(data) == Impacts(Finite(0.0), Finite(0.0), Finite(0.0), Finite(0.0), Finite(0.0))
  {
    var base, ins := PhaseOf(data, WithoutInsights), PhaseOf(data, WithInsights);
    var bs, bp := SystemOf(base), FirstPortStats(ProcessTableOf(base));
    ImpactZeroIffUnchanged(GetOr(bs, "avg_cpu_percent"), GetOr(bs, "avg_cpu_percent"));
    ImpactZeroIffUnchanged(GetOr(bs, "avg_memory_percent"), GetOr(bs, "avg_memory_percent"));
    ImpactZeroIffUnchanged(GetOr(bp, "avg_cpu_percent"), GetOr(bp, "avg_cpu_percent"));
    ImpactZeroIffUnchanged(GetOr(bp, "avg_memory_mb"), GetOr(bp, "avg_memory_mb"));
    ImpactZeroIffUnchanged(GetOr(bp, "avg_threads"), GetOr(bp, "avg_threads"));
  }

  /** A concrete pair of identical runs: as written, -100% process impact; corrected, none. */
  lemma EqualSummariesCounterexample()
    ensures var stats := map["avg_cpu_percent" := 10.0, "avg_memory_mb" := 50.0, "avg_threads" := 4.0];
      var phase := PhaseData(Some(true), None, Some(ResourceData(Some(map[]), Some([("port_8001", stats)]), None, None)));
      var data := map[WithoutInsights := phase, WithInsights := phase];
      && AsWrittenImpact(data).processCpuImpact == Finite(-100.0)
      && AsWrittenImpact(data).processMemoryImpact == Finite(-100.0)
      && PerformanceImpact(data).processCpuImpact == Finite(0.0)
      && PerformanceImpact(data).processMemoryImpact == Finite(0.0)
      && Recommendation(AsWrittenImpact(data)) == Some(LowImpact)
  {
    var stats := map["avg_cpu_percent" := 10.0, "avg_memory_mb" := 50.0, "avg_threads" := 4.0];
    var table := [("port_8001", stats)];
    var phase := PhaseData(Some(true), None, Some(ResourceData(Some(map[]), Some(table), None, None)));
    var data := map[WithoutInsights := phase, WithInsights := phase];
    assert IsPortKey("port_8001");
    assert FirstPortEntry(table) == Some(stats);
    IdenticalRunsHaveZeroImpact(data);
  }

  // ---------------------------------------------------------------------
  // Verdict

  datatype Verdict = LowImpact | ModerateImpact | HighImpact

  /** `impact < bound` in Python, where `inf < bound` is false. */
  predicate Below(i: Impact, bound: real) {
    i.Finite? && i.percent < bound
  }

  /** The recommendation block of `generate_report`. */
  function Recommendation(impact: ImpactRecord): (v: Option<Verdict>)
    ensures v.None? <==> impact.ImpactError?
    ensures v == Some(LowImpact) <==>
      impact.Impacts? && Below(impact.processCpuImpact, 5.0) && Below(impact.processMemoryImpact, 5.0)
    ensures v == Some(ModerateImpact) <==>
      impact.Impacts? && !(Below(impact.processCpuImpact, 5.0) && Below(impact.processMemoryImpact, 5.0))
      && Below(impact.processCpuImpact, 15.0) && Below(impact.processMemoryImpact, 15.0)
    ensures v == Some(HighImpact) <==>
      impact.Impacts? && !(Below(impact.processCpuImpact, 15.0) && Below(impact.processMemoryImpact, 15.0))
  {
    if impact.ImpactError? then None
    else if Below(impact.processCpuImpact, 5.0) && Below(impact.processMemoryImpact, 5.0) then Some(LowImpact)
    else if Below(impact.processCpuImpact, 15.0) && Below(impact.processMemoryImpact, 15.0) then Some(ModerateImpact)
    else Some(HighImpact)
  }

  /** Unbounded growth of process CPU or memory is always a high impact. */
  lemma InfiniteImpactIsHigh(impact: ImpactRecord)
    requires impact.Impacts?
    requires impact.processCpuImpact == PosInf || impact.processMemoryImpact == PosInf
    ensures Recommendation(impact) == Some(HighImpact)
  {
  }

  predicate AtMost(a: Impact, b: Impact) {
    b.PosInf? || (a.Finite? && a.percent <= b.percent)
  }

  function Rank(v: Verdict): nat {
    match v
    case LowImpact => 0
    case ModerateImpact => 1
    case HighImpact => 2
  }

  /** Larger process impacts never give a milder verdict. */
  lemma RecommendationMonotone(a: ImpactRecord, b: ImpactRecord)
    requires a.Impacts? && b.Impacts?
    requires AtMost(a.processCpuImpact, b.processCpuImpact) && AtMost(a.processMemoryImpact, b.processMemoryImpact)
    ensures Rank(Recommendation(a).value) <= Rank(Recommendation(b).value)
  {
  }

  // ---------------------------------------------------------------------
  // Report metadata from the file name

  /** `app_name` and `test_config` from the first two `_`-separated fields of the file's stem. */
  function ReportMetadata(comparisonFile: string): (r: (string, string)) {
    var parts := Split(Stem(comparisonFile), '_');
    (parts[0], if |parts| > 1 then parts[1] else "unknown")
  }

  /** The first field of a split is the longest prefix free of the separator. */
  lemma {:induction false} SplitFirstField(s: string, sep: char)
    ensures StartsWith(s, Split(s, sep)[0])
    ensures |Split(s, sep)[0]| == |s| || s[|Split(s, sep)[0]|] == sep
    ensures sep in s ==> Split(s, sep)[1..] == Split(s[|Split(s, sep)[0]| + 1..], sep)
  {
    if sep in s {
      var i := IndexOf(s, sep);
      assert Split(s, sep) == [s[..i]] + Split(s[i + 1..], sep);
    }
  }

  lemma ReportMetadataFields(comparisonFile: string)
    ensures var stem, r := Stem(comparisonFile), ReportMetadata(comparisonFile);
      && '_' !in r.0 && StartsWith(stem, r.0)
      && ('_' !in stem ==> r.0 == stem && r.1 == "unknown")
      && ('_' in stem ==>
            && stem[|r.0|] == '_'
            && '_' !in r.1
            && StartsWith(stem[|r.0| + 1..], r.1)
            && (|r.0| + 1 + |r.1| == |stem| || stem[|r.0| + 1 + |r.1|] == '_'))
  {
    var stem := Stem(comparisonFile);
    SplitFirstField(stem, '_');
    SplitHasSeveralFieldsIff(stem, '_');
    var parts := Split(stem, '_');
    if '_' in stem {
      var rest := stem[|parts[0]| + 1..];
      SplitFirstField(rest, '_');
      assert parts[1] == Split(rest, '_')[0];
    }
  }

  /** A field after a separator does not change the first field. */
  lemma SplitFirstFieldOfConcat(a: string, b: string, sep: char)
    ensures Split(a + [sep] + b, sep)[0] == Split(a, sep)[0]
  {
    var s := a + [sep] + b;
    assert s[|a|] == sep;
    if sep in a {
      var i := IndexOf(a, sep);
      assert s[..i] == a[..i];
      IndexOfUnique(s, sep, i);
    } else {
      assert s[..|a|] == a;
      IndexOfUnique(s, sep, |a|);
    }
  }

  /** The final component of `dir/name` is `name`. */
  lemma BaseNameAfterSlash(dir: string, name: string)
    requires '/' !in name
    ensures BaseName(dir + ['/'] + name) == name
  {
    var path := dir + ['/'] + name;
    assert path[|dir|] == '/';
    assert path[|dir| + 1..] == name;
    IndexOfLast(path, '/', |dir|);
  }

  /** `Path(<stem>.json).stem` is `<stem>` for a non-empty stem. */
  lemma StemOfJsonName(stem: string)
    requires |stem| > 0 && '/' !in stem
    ensures Stem(stem + ".json") == stem
  {
    assert stem + ".json" == stem + ['.'] + "json";
    StemBeforeSuffix(stem, "json");
  }

  /** The stem of `<stem>.<suffix>` for a non-empty stem and a non-empty suffix without dots. */
  lemma StemBeforeSuffix(stem: string, suffix: string)
    requires |stem| > 0 && '/' !in stem
    requires |suffix| > 0 && '/' !in suffix && '.' !in suffix
    ensures Stem(stem + ['.'] + suffix) == stem
  {
    var name := stem + ['.'] + suffix;
    assert name[|stem|] == '.';
    assert name[|stem| + 1..] == suffix;
    assert '/' !in name;
    IndexOfLast(name, '.', |stem|);
    assert name[..|stem|] == stem;
  }

  /** The last occurrence of a character is the only one with none after it. */
  lemma IndexOfLast(s: string, c: char, i: nat)
    requires i < |s| && s[i] == c && c !in s[i + 1..]
    ensures LastIndexOf(s, c) == i
  {
  }

  /** `Path(dir/<stem>.json).stem` is `<stem>` for a non-empty stem. */
  lemma StemOfJsonFile(dir: string, stem: string)
    requires |stem| > 0 && '/' !in stem
    ensures Stem(dir + ['/'] + (stem + ".json")) == stem
  {
    var name := stem + ".json";
    assert '/' !in name;
    BaseNameAfterSlash(dir, name);
    StemOfJsonName(stem);
  }

  /** The metadata of `dir/<stem>.json` are the first two fields of `<stem>`. */
  lemma ReportMetadataOfJsonFile(dir: string, stem: string)
    requires |stem| > 0 && '/' !in stem
    ensures var parts := Split(stem, '_');
      ReportMetadata(dir + ['/'] + (stem + ".json")) == (parts[0], if |parts| > 1 then parts[1] else "unknown")
  {
    StemOfJsonFile(dir, stem);
  }

  /** The fields of a stem `<app>_<config>_<tail>`. */
  lemma RunnerStemFields(app: string, configName: string, tail: string)
    requires '_' !in app
    ensures var parts := Split(app + ['_'] + configName + ['_'] + tail, '_');
      |parts| > 1 && parts[0] == app && parts[1] == Split(configName, '_')[0]
  {
    var rest := configName + ['_'] + tail;
    var stem := app + ['_'] + rest;
    assert stem == app + ['_'] + configName + ['_'] + tail;
    assert stem[|app|] == '_' && stem[..|app|] == app;
    IndexOfUnique(stem, '_', |app|);
    SplitFirstField(stem, '_');
    SplitFirstFieldOfConcat(configName, tail, '_');
  }

  /** The runner saves `<dir>/<app>_<config>_comparison_<timestamp>.json`
      (`tail` is `comparison_<timestamp>`): the report recovers the
      application, and only the first word of a configuration such as
      `medium_load`. */
  lemma ReportMetadataOfRunnerFile(dir: string, app: string, configName: string, tail: string)
    requires '_' !in app && '/' !in app && '/' !in configName && '/' !in tail
    ensures ReportMetadata(dir + ['/'] + (app + ['_'] + configName + ['_'] + tail + ".json"))
      == (app, Split(configName, '_')[0])
  {
    RunnerStemFields(app, configName, tail);
    ReportMetadataOfJsonFile(dir, app + ['_'] + configName + ['_'] + tail);
  }

  lemma MediumLoadReportsMedium()
    ensures Split("medium_load", '_')[0] == "medium"
  {
    IndexOfUnique("medium_load", '_', 6);
  }

  // ---------------------------------------------------------------------
  // The report

  datatype Report = Report(
    appName: string,
    testConfig: string,
    rows: seq<TableRow>,
    impact: ImpactRecord,
    verdict: Option<Verdict>)

  /** `generate_report` without its rendering: metadata, table, impacts and
      verdict. The impacts are those of `calculate_performance_impact` as the
      code is written; they agree with the corrected ones whenever the two
      process tables differ. */
  method GenerateReport(comparisonFile: string, data: ComparisonData) returns (report: Report)
    ensures (report.appName, report.testConfig) == ReportMetadata(comparisonFile)
    ensures report.rows == SummaryRows(data)
    ensures report.impact == AsWrittenImpact(data)
    ensures !SameDict(ProcessTableOf(PhaseOf(data, WithInsights)), ProcessTableOf(PhaseOf(data, WithoutInsights))) ==>
      report.impact == PerformanceImpact(data)
    ensures report.verdict.None? <==> !BothSucceeded(data)
    ensures report.verdict == Recommendation(report.impact)
  {
    var meta := ReportMetadata(comparisonFile);
    var rows := GenerateSummaryTable(data);
    var impact := CalculatePerformanceImpact(data);
    report := Report(meta.0, meta.1, rows, impact, Recommendation(impact));
  }
}
