/** The resource monitor: a session that accumulates metric samples while the
    load test runs, and the summary (sample count, avg/max per system metric,
    avg/max per monitored process) computed from them when it stops.
    The OS readings (CPU, memory, the process table) and the clock are inputs;
    the background thread is modelled as the sequence of its capture steps. */
module ResourceMonitoring {
  import opened Common

  /** Ports watched by a monitor built without arguments. */
  const DefaultTargetPorts: seq<nat> := [8000, 5001]

  datatype SystemMetrics = SystemMetrics(
    cpuPercent: real,
    memoryPercent: real,
    memoryUsedMb: real,
    memoryAvailableMb: real)

  datatype ProcessMetrics = ProcessMetrics(
    cpuPercent: real,
    memoryMb: real,
    numThreads: nat,
    numFds: nat,
    status: string)

  /** One point-in-time snapshot; `processes` is keyed by `PortKey(port)`. */
  datatype Sample = Sample(
    timestamp: string,
    system: SystemMetrics,
    processes: map<string, ProcessMetrics>)

  datatype SystemSummary = SystemSummary(
    avgCpuPercent: real,
    maxCpuPercent: real,
    avgMemoryPercent: real,
    maxMemoryPercent: real)

  datatype ProcessSummary = ProcessSummary(
    avgCpuPercent: real,
    maxCpuPercent: real,
    avgMemoryMb: real,
    maxMemoryMb: real,
    avgThreads: real,
    maxThreads: real,
    samples: nat)

  /** `get_summary`'s result: `{}` when nothing was sampled. */
  datatype ResourceSummary =
    | EmptySummary
    | Collected(
        durationSeconds: real,
        totalSamples: nat,
        systemSummary: SystemSummary,
        processSummary: map<string, ProcessSummary>)

  /** The key `f"port_{port}"` under which a process's metrics are stored. */
  function PortKey(port: nat): (key: string)
    ensures StartsWith(key, "port_")
  {
    "port_" + NatToString(port)
  }

  lemma PortKeyInjective(p: nat, q: nat)
    ensures PortKey(p) == PortKey(q) ==> p == q
  {
    if PortKey(p) == PortKey(q) {
      assert NatToString(p) == PortKey(p)[5..];
      assert NatToString(q) == PortKey(q)[5..];
      NatToStringInjective(p, q);
    }
  }

  // ---------------------------------------------------------------------
  // sum / max / average over a list of readings

  function Sum(xs: seq<real>): real {
    if xs == [] then 0.0 else Sum(xs[..|xs| - 1]) + xs[|xs| - 1]
  }

  /** Python's `max(xs)`: a reading no smaller than any other. */
  function Max(xs: seq<real>): (m: real)
    requires xs != []
    ensures m in xs
    ensures forall i :: 0 <= i < |xs| ==> xs[i] <= m
  {
    if |xs| == 1 then xs[0]
    else
      var m := Max(xs[..|xs| - 1]);
      assert forall i :: 0 <= i < |xs| - 1 ==> xs[i] == xs[..|xs| - 1][i];
      if xs[|xs| - 1] > m then xs[|xs| - 1] else m
  }

  /** `sum(xs) / len(xs)`. */
  function Mean(xs: seq<real>): real
    requires xs != []
  {
    Sum(xs) / (|xs| as real)
  }

  /** A sum of readings each at most `bound` is at most `|xs| * bound`. */
  lemma {:induction false} SumAtMostLengthTimesBound(xs: seq<real>, bound: real)
    requires forall i :: 0 <= i < |xs| ==> xs[i] <= bound
    ensures Sum(xs) <= (|xs| as real) * bound
    decreases |xs|
  {
    if xs != [] {
      var init := xs[..|xs| - 1];
      assert forall i :: 0 <= i < |init| ==> init[i] == xs[i];
      SumAtMostLengthTimesBound(init, bound);
      assert (|xs| as real) * bound == (|init| as real) * bound + bound;
    }
  }

  /** The average of a non-empty list of readings never exceeds its maximum. */
  lemma MeanAtMostMax(xs: seq<real>)
    requires xs != []
    ensures Mean(xs) <= Max(xs)
  {
    SumAtMostLengthTimesBound(xs, Max(xs));
    QuotientAtMost(Sum(xs), |xs| as real, Max(xs));
  }

  lemma QuotientAtMost(a: real, n: real, b: real)
    requires n > 0.0 && a <= n * b
    ensures a / n <= b
  {
    var q := a / n;
    assert q * n == a;
    if q > b {
      assert (q - b) * n > 0.0;
    }
  }

  /** The average is at most the maximum, which is one of the readings. */
  lemma ReadingsFacts(xs: seq<real>)
    requires xs != []
    ensures Mean(xs) <= Max(xs)
    ensures exists i :: 0 <= i < |xs| && xs[i] == Max(xs)
  {
    MeanAtMostMax(xs);
  }

  // ---------------------------------------------------------------------
  // get_summary

  function CpuValues(ms: seq<Sample>): (r: seq<real>)
    ensures |r| == |ms| && forall i :: 0 <= i < |ms| ==> r[i] == ms[i].system.cpuPercent
  {
    seq(|ms|, i requires 0 <= i < |ms| => ms[i].system.cpuPercent)
  }

  function MemoryValues(ms: seq<Sample>): (r: seq<real>)
    ensures |r| == |ms| && forall i :: 0 <= i < |ms| ==> r[i] == ms[i].system.memoryPercent
  {
    seq(|ms|, i requires 0 <= i < |ms| => ms[i].system.memoryPercent)
  }

  /** The indices of the samples that recorded the process under `key`. */
  ghost function SamplesWithKey(ms: seq<Sample>, key: string): set<int> {
    set i | 0 <= i < |ms| && key in ms[i].processes
  }

  /** The metrics recorded under `key`, in sample order: one per sample that has the key. */
  function ProcessSamples(ms: seq<Sample>, key: string): (ps: seq<ProcessMetrics>)
    ensures |ps| <= |ms|
    ensures ps == [] <==> forall i :: 0 <= i < |ms| ==> key !in ms[i].processes
    ensures forall j :: 0 <= j < |ps| ==> exists i :: 0 <= i < |ms| && key in ms[i].processes && ms[i].processes[key] == ps[j]
  {
    if ms == [] then []
    else
      var init := ms[..|ms| - 1];
      var last := ms[|ms| - 1];
      assert forall i :: 0 <= i < |init| ==> ms[i] == init[i];
      ProcessSamples(init, key) + (if key in last.processes then [last.processes[key]] else [])
  }

  /** The indices of the samples that recorded the process under `key`, in increasing order. */
  ghost function KeyIndices(ms: seq<Sample>, key: string): (idx: seq<nat>)
    ensures forall j :: 0 <= j < |idx| ==> idx[j] < |ms| && key in ms[idx[j]].processes
    ensures forall j, l :: 0 <= j < l < |idx| ==> idx[j] < idx[l]
    ensures forall i :: 0 <= i < |ms| && key in ms[i].processes ==> i in idx
  {
    if ms == [] then []
    else
      var init := ms[..|ms| - 1];
      assert forall i :: 0 <= i < |init| ==> ms[i] == init[i];
      KeyIndices(init, key) + (if key in ms[|ms| - 1].processes then [|ms| - 1] else [])
  }

  /** `process_metrics` holds, in sample order, the metrics of exactly the
      samples that recorded the process: one entry per such sample, none other. */
  lemma {:induction false} ProcessSamplesInSampleOrder(ms: seq<Sample>, key: string)
    ensures var ps, idx := ProcessSamples(ms, key), KeyIndices(ms, key);
      |ps| == |idx| && forall j :: 0 <= j < |ps| ==> ps[j] == ms[idx[j]].processes[key]
  {
    if ms != [] {
      var init := ms[..|ms| - 1];
      ProcessSamplesInSampleOrder(init, key);
      var ps0, idx0 := ProcessSamples(init, key), KeyIndices(init, key);
      var tail := if key in ms[|ms| - 1].processes then [ms[|ms| - 1].processes[key]] else [];
      var tailIdx := if key in ms[|ms| - 1].processes then [|ms| - 1] else [];
      assert ProcessSamples(ms, key) == ps0 + tail;
      assert KeyIndices(ms, key) == idx0 + tailIdx;
      forall j | 0 <= j < |ps0| ensures (ps0 + tail)[j] == ms[(idx0 + tailIdx)[j]].processes[key] {
        assert ms[idx0[j]] == init[idx0[j]];
      }
    }
  }

  /** Every sample that recorded the process contributes its metrics. */
  lemma ProcessReadingListed(ms: seq<Sample>, key: string, i: nat)
    requires i < |ms| && key in ms[i].processes
    ensures exists j :: 0 <= j < |ProcessSamples(ms, key)| && ProcessSamples(ms, key)[j] == ms[i].processes[key]
  {
    ProcessSamplesInSampleOrder(ms, key);
    var idx := KeyIndices(ms, key);
    var j :| 0 <= j < |idx| && idx[j] == i;
    assert ProcessSamples(ms, key)[j] == ms[i].processes[key];
  }

  /** `samples` of a process entry is the number of samples that recorded the process. */
  lemma {:induction false} ProcessSamplesCount(ms: seq<Sample>, key: string)
    ensures |ProcessSamples(ms, key)| == |SamplesWithKey(ms, key)|
  {
    if ms != [] {
      var init := ms[..|ms| - 1];
      ProcessSamplesCount(init, key);
      SamplesWithKeyStep(ms, key);
      if key in ms[|ms| - 1].processes {
        assert |ms| - 1 !in SamplesWithKey(init, key);
      }
    }
  }

  /** Extending the samples by one adds at most the new sample's index. */
  lemma SamplesWithKeyStep(ms: seq<Sample>, key: string)
    requires ms != []
    ensures SamplesWithKey(ms, key) ==
      SamplesWithKey(ms[..|ms| - 1], key) + (if key in ms[|ms| - 1].processes then {|ms| - 1} else {})
  {
    var init := ms[..|ms| - 1];
    assert forall i :: 0 <= i < |init| ==> ms[i] == init[i];
  }

  function ProcessCpuValues(ps: seq<ProcessMetrics>): (r: seq<real>)
    ensures |r| == |ps| && forall i :: 0 <= i < |ps| ==> r[i] == ps[i].cpuPercent
  {
    seq(|ps|, i requires 0 <= i < |ps| => ps[i].cpuPercent)
  }

  function ProcessMemoryValues(ps: seq<ProcessMetrics>): (r: seq<real>)
    ensures |r| == |ps| && forall i :: 0 <= i < |ps| ==> r[i] == ps[i].memoryMb
  {
    seq(|ps|, i requires 0 <= i < |ps| => ps[i].memoryMb)
  }

  function ProcessThreadValues(ps: seq<ProcessMetrics>): (r: seq<real>)
    ensures |r| == |ps| && forall i :: 0 <= i < |ps| ==> r[i] == ps[i].numThreads as real
  {
    seq(|ps|, i requires 0 <= i < |ps| => ps[i].numThreads as real)
  }

  /** The CPU readings of a process, summarized. */
  lemma ProcessCpuFacts(ps: seq<ProcessMetrics>)
    requires ps != []
    ensures var xs := ProcessCpuValues(ps);
      && Mean(xs) <= Max(xs)
      && (forall i :: 0 <= i < |ps| ==> ps[i].cpuPercent <= Max(xs))
      && (exists i :: 0 <= i < |ps| && ps[i].cpuPercent == Max(xs))
  {
    var xs := ProcessCpuValues(ps);
    ReadingsFacts(xs);
    var i :| 0 <= i < |xs| && xs[i] == Max(xs);
    assert ps[i].cpuPercent == Max(xs);
  }

  /** The memory readings of a process, summarized. */
  lemma ProcessMemoryFacts(ps: seq<ProcessMetrics>)
    requires ps != []
    ensures var xs := ProcessMemoryValues(ps);
      && Mean(xs) <= Max(xs)
      && (forall i :: 0 <= i < |ps| ==> ps[i].memoryMb <= Max(xs))
      && (exists i :: 0 <= i < |ps| && ps[i].memoryMb == Max(xs))
  {
    var xs := ProcessMemoryValues(ps);
    ReadingsFacts(xs);
    var i :| 0 <= i < |xs| && xs[i] == Max(xs);
    assert ps[i].memoryMb == Max(xs);
  }

  /** The thread readings of a process, summarized. */
  lemma ProcessThreadFacts(ps: seq<ProcessMetrics>)
    requires ps != []
    ensures var xs := ProcessThreadValues(ps);
      && Mean(xs) <= Max(xs)
      && (forall i :: 0 <= i < |ps| ==> ps[i].numThreads as real <= Max(xs))
      && (exists i :: 0 <= i < |ps| && ps[i].numThreads as real == Max(xs))
  {
    var xs := ProcessThreadValues(ps);
    ReadingsFacts(xs);
    var i :| 0 <= i < |xs| && xs[i] == Max(xs);
    assert ps[i].numThreads as real == Max(xs);
  }

  /** The `port_<p>` entry of `process_summary` for a non-empty list of that
      process's metrics: per metric, the mean of the readings and
      the largest reading. */
  function SummarizeProcess(ps: seq<ProcessMetrics>): (s: ProcessSummary)
    requires ps != []
    ensures s.samples == |ps|
    ensures s.avgCpuPercent <= s.maxCpuPercent
    ensures s.avgCpuPercent == Mean(ProcessCpuValues(ps))
    ensures forall i :: 0 <= i < |ps| ==> ps[i].cpuPercent <= s.maxCpuPercent
    ensures exists i :: 0 <= i < |ps| && ps[i].cpuPercent == s.maxCpuPercent
    ensures s.avgMemoryMb <= s.maxMemoryMb
    ensures s.avgMemoryMb == Mean(ProcessMemoryValues(ps))
    ensures forall i :: 0 <= i < |ps| ==> ps[i].memoryMb <= s.maxMemoryMb
    ensures exists i :: 0 <= i < |ps| && ps[i].memoryMb == s.maxMemoryMb
    ensures s.avgThreads <= s.maxThreads
    ensures s.avgThreads == Mean(ProcessThreadValues(ps))
    ensures forall i :: 0 <= i < |ps| ==> ps[i].numThreads as real <= s.maxThreads
    ensures exists i :: 0 <= i < |ps| && ps[i].numThreads as real == s.maxThreads
  {
    var cpu := ProcessCpuValues(ps);
    var mem := ProcessMemoryValues(ps);
    var threads := ProcessThreadValues(ps);
    ProcessCpuFacts(ps);
    ProcessMemoryFacts(ps);
    ProcessThreadFacts(ps);
    ProcessSummary(Mean(cpu), Max(cpu), Mean(mem), Max(mem), Mean(threads), Max(threads), |ps|)
  }

  /** The `process_summary` map: an entry for each target port that some sample recorded. */
  function ProcessSummaries(ms: seq<Sample>, ports: seq<nat>): (r: map<string, ProcessSummary>)
    ensures forall p :: p in ports ==> (PortKey(p) in r <==> ProcessSamples(ms, PortKey(p)) != [])
    ensures forall k :: k in r ==> exists p :: p in ports && k == PortKey(p)
    ensures forall k :: k in r ==> ProcessSamples(ms, k) != [] && r[k] == SummarizeProcess(ProcessSamples(ms, k))
  {
    if ports == [] then map[]
    else
      var init, last := ports[..|ports| - 1], ports[|ports| - 1];
      var rest := ProcessSummaries(ms, init);
      var key := PortKey(last);
      var ps := ProcessSamples(ms, key);
      var r := if ps != [] then rest[key := SummarizeProcess(ps)] else rest;
      StepKeepsPortKeys(ms, ports, rest, r);
      StepKeepsKeysFromPorts(ms, ports, rest, r);
      StepKeepsEntries(ms, key, rest, r);
      r
  }

  /** Every key still belongs to a target port. */
  lemma StepKeepsKeysFromPorts(ms: seq<Sample>, ports: seq<nat>, rest: map<string, ProcessSummary>, r: map<string, ProcessSummary>)
    requires ports != []
    requires forall k :: k in rest ==> exists p :: p in ports[..|ports| - 1] && k == PortKey(p)
    requires var key := PortKey(ports[|ports| - 1]);
      r == if ProcessSamples(ms, key) != [] then rest[key := SummarizeProcess(ProcessSamples(ms, key))] else rest
    ensures forall k :: k in r ==> exists p :: p in ports && k == PortKey(p)
  {
    var init, last := ports[..|ports| - 1], ports[|ports| - 1];
    forall k | k in r ensures exists p :: p in ports && k == PortKey(p) {
      if k in rest {
        var p :| p in init && k == PortKey(p);
        assert p in ports;
      } else {
        assert k == PortKey(last) && last in ports;
      }
    }
  }

  /** Every entry still summarizes its port's samples. */
  lemma StepKeepsEntries(ms: seq<Sample>, key: string, rest: map<string, ProcessSummary>, r: map<string, ProcessSummary>)
    requires forall k :: k in rest ==> ProcessSamples(ms, k) != [] && rest[k] == SummarizeProcess(ProcessSamples(ms, k))
    requires r == if ProcessSamples(ms, key) != [] then rest[key := SummarizeProcess(ProcessSamples(ms, key))] else rest
    ensures forall k :: k in r ==> ProcessSamples(ms, k) != [] && r[k] == SummarizeProcess(ProcessSamples(ms, k))
  {
  }

  /** A target port still has a key exactly when some sample recorded it. */
  lemma StepKeepsPortKeys(ms: seq<Sample>, ports: seq<nat>, rest: map<string, ProcessSummary>, r: map<string, ProcessSummary>)
    requires ports != []
    requires forall p :: p in ports[..|ports| - 1] ==> (PortKey(p) in rest <==> ProcessSamples(ms, PortKey(p)) != [])
    requires forall k :: k in rest ==> ProcessSamples(ms, k) != []
    requires var key := PortKey(ports[|ports| - 1]);
      r == if ProcessSamples(ms, key) != [] then rest[key := SummarizeProcess(ProcessSamples(ms, key))] else rest
    ensures forall p :: p in ports ==> (PortKey(p) in r <==> ProcessSamples(ms, PortKey(p)) != [])
  {
    var init, last := ports[..|ports| - 1], ports[|ports| - 1];
    forall p | p in ports ensures PortKey(p) in r <==> ProcessSamples(ms, PortKey(p)) != [] {
      if p != last {
        assert p in init;
      }
    }
  }

  /** A process entry's maxima bound every reading of that process. */
  lemma ProcessReadingBounded(ms: seq<Sample>, k: string, i: nat)
    requires i < |ms| && k in ms[i].processes
    ensures ProcessSamples(ms, k) != []
    ensures var e := SummarizeProcess(ProcessSamples(ms, k));
      && ms[i].processes[k].cpuPercent <= e.maxCpuPercent
      && ms[i].processes[k].memoryMb <= e.maxMemoryMb
      && ms[i].processes[k].numThreads as real <= e.maxThreads
  {
    ProcessReadingListed(ms, k, i);
  }

  /** A process entry's maxima are readings of that process. */
  lemma ProcessMaximaReached(ms: seq<Sample>, k: string)
    requires ProcessSamples(ms, k) != []
    ensures var e := SummarizeProcess(ProcessSamples(ms, k));
      && (exists i :: 0 <= i < |ms| && k in ms[i].processes && ms[i].processes[k].cpuPercent == e.maxCpuPercent)
      && (exists i :: 0 <= i < |ms| && k in ms[i].processes && ms[i].processes[k].memoryMb == e.maxMemoryMb)
      && (exists i :: 0 <= i < |ms| && k in ms[i].processes && ms[i].processes[k].numThreads as real == e.maxThreads)
  {
    var ps := ProcessSamples(ms, k);
    var e := SummarizeProcess(ps);
    ProcessReadingReached(ms, k, e.maxCpuPercent, (m: ProcessMetrics) => m.cpuPercent);
    ProcessReadingReached(ms, k, e.maxMemoryMb, (m: ProcessMetrics) => m.memoryMb);
    ProcessReadingReached(ms, k, e.maxThreads, (m: ProcessMetrics) => m.numThreads as real);
  }

  /** A value some listed metrics reach is reached by some sample that recorded the process. */
  lemma ProcessReadingReached(ms: seq<Sample>, k: string, v: real, f: ProcessMetrics -> real)
    requires exists j :: 0 <= j < |ProcessSamples(ms, k)| && f(ProcessSamples(ms, k)[j]) == v
    ensures exists i :: 0 <= i < |ms| && k in ms[i].processes && f(ms[i].processes[k]) == v
  {
    var ps := ProcessSamples(ms, k);
    var j :| 0 <= j < |ps| && f(ps[j]) == v;
    var i :| 0 <= i < |ms| && k in ms[i].processes && ms[i].processes[k] == ps[j];
  }

  /** What `system_summary` promises about the samples: each average is the
      mean of its readings, and each maximum is one of the readings, bounds
      all of them and is no smaller than the average. */
  ghost predicate SummarizesSystem(ms: seq<Sample>, sys: SystemSummary) {
    && ms != []
    && sys.avgCpuPercent == Mean(CpuValues(ms))
    && sys.avgCpuPercent <= sys.maxCpuPercent
    && (forall i :: 0 <= i < |ms| ==> ms[i].system.cpuPercent <= sys.maxCpuPercent)
    && (exists i :: 0 <= i < |ms| && ms[i].system.cpuPercent == sys.maxCpuPercent)
    && sys.avgMemoryPercent == Mean(MemoryValues(ms))
    && sys.avgMemoryPercent <= sys.maxMemoryPercent
    && (forall i :: 0 <= i < |ms| ==> ms[i].system.memoryPercent <= sys.maxMemoryPercent)
    && (exists i :: 0 <= i < |ms| && ms[i].system.memoryPercent == sys.maxMemoryPercent)
  }

  /** What a `process_summary` entry promises about the samples that recorded
      the process under `k`: it summarizes their metrics, counts them, and each
      maximum is one of their readings and bounds all of them. */
  ghost predicate SummarizesProcess(ms: seq<Sample>, k: string, e: ProcessSummary) {
    && ProcessSamples(ms, k) != []
    && e == SummarizeProcess(ProcessSamples(ms, k))
    && e.samples == |ProcessSamples(ms, k)| && 1 <= e.samples <= |ms|
    && (forall i :: 0 <= i < |ms| && k in ms[i].processes ==>
          && ms[i].processes[k].cpuPercent <= e.maxCpuPercent
          && ms[i].processes[k].memoryMb <= e.maxMemoryMb
          && ms[i].processes[k].numThreads as real <= e.maxThreads)
    && (exists i :: 0 <= i < |ms| && k in ms[i].processes && ms[i].processes[k].cpuPercent == e.maxCpuPercent)
    && (exists i :: 0 <= i < |ms| && k in ms[i].processes && ms[i].processes[k].memoryMb == e.maxMemoryMb)
    && (exists i :: 0 <= i < |ms| && k in ms[i].processes && ms[i].processes[k].numThreads as real == e.maxThreads)
  }

  /** The system part of the summary meets its promise. */
  lemma SystemSummaryFacts(ms: seq<Sample>)
    requires ms != []
    ensures var cpu, mem := CpuValues(ms), MemoryValues(ms);
      SummarizesSystem(ms, SystemSummary(Mean(cpu), Max(cpu), Mean(mem), Max(mem)))
  {
    var cpu, mem := CpuValues(ms), MemoryValues(ms);
    ReadingsFacts(cpu);
    ReadingsFacts(mem);
    var i :| 0 <= i < |cpu| && cpu[i] == Max(cpu);
    assert ms[i].system.cpuPercent == Max(cpu);
    var j :| 0 <= j < |mem| && mem[j] == Max(mem);
    assert ms[j].system.memoryPercent == Max(mem);
  }

  /** Each process entry meets its promise. */
  lemma ProcessEntryFacts(ms: seq<Sample>, k: string)
    requires ProcessSamples(ms, k) != []
    ensures SummarizesProcess(ms, k, SummarizeProcess(ProcessSamples(ms, k)))
  {
    ProcessMaximaReached(ms, k);
    forall i | 0 <= i < |ms| && k in ms[i].processes
      ensures var e := SummarizeProcess(ProcessSamples(ms, k));
        && ms[i].processes[k].cpuPercent <= e.maxCpuPercent
        && ms[i].processes[k].memoryMb <= e.maxMemoryMb
        && ms[i].processes[k].numThreads as real <= e.maxThreads
    {
      ProcessReadingBounded(ms, k, i);
    }
  }

  /** The process part of the summary, in the terms `get_summary`'s promises use. */
  lemma ProcessSummariesFacts(ms: seq<Sample>, ports: seq<nat>)
    ensures var r := ProcessSummaries(ms, ports);
      forall p :: p in ports ==> (PortKey(p) in r <==> exists i :: 0 <= i < |ms| && PortKey(p) in ms[i].processes)
    ensures var r := ProcessSummaries(ms, ports);
      forall k :: k in r ==> (exists p :: p in ports && k == PortKey(p)) && SummarizesProcess(ms, k, r[k])
  {
    var r := ProcessSummaries(ms, ports);
    forall k | k in r ensures SummarizesProcess(ms, k, r[k]) {
      ProcessEntryFacts(ms, k);
    }
  }

  /** `get_summary` over the collected samples; `now` is the clock reading
      at the call and `startTime` the session's start (None before any start). */
  function GetSummary(ms: seq<Sample>, targetPorts: seq<nat>, startTime: Option<real>, now: real): (s: ResourceSummary)
    ensures s.EmptySummary? <==> ms == []
    ensures s.Collected? ==> s.totalSamples == |ms| && SummarizesSystem(ms, s.systemSummary)
    ensures s.Collected? ==> forall p :: p in targetPorts ==>
      (PortKey(p) in s.processSummary <==> exists i :: 0 <= i < |ms| && PortKey(p) in ms[i].processes)
    ensures s.Collected? ==> forall k :: k in s.processSummary ==> exists p :: p in targetPorts && k == PortKey(p)
    ensures s.Collected? ==> s.processSummary == ProcessSummaries(ms, targetPorts)
  {
    if ms == [] then EmptySummary
    else
      var cpu := CpuValues(ms);
      var mem := MemoryValues(ms);
      SystemSummaryFacts(ms);
      ProcessSummariesFacts(ms, targetPorts);
      var duration := if startTime.Some? && startTime.value != 0.0 then now - startTime.value else 0.0;
      Collected(
        duration,
        |ms|,
        SystemSummary(Mean(cpu), Max(cpu), Mean(mem), Max(mem)),
        ProcessSummaries(ms, targetPorts))
  }

  /** Every `process_summary` entry of `get_summary` summarizes the samples
      that recorded its process: counts, means, and maxima that are readings
      and bound all readings. */
  lemma GetSummaryProcessEntries(ms: seq<Sample>, targetPorts: seq<nat>, startTime: Option<real>, now: real)
    ensures var s := GetSummary(ms, targetPorts, startTime, now);
      s.Collected? ==> forall k :: k in s.processSummary ==> SummarizesProcess(ms, k, s.processSummary[k])
  {
    ProcessSummariesFacts(ms, targetPorts);
  }

  // ---------------------------------------------------------------------
  // Process discovery and responsiveness

  /** A socket of a process: the port of its local address, None when it has none. */
  datatype Connection = Connection(localPort: Option<nat>)

  /** Errors that make the process scan skip a process. */
  datatype ProbeError = NoSuchProcess | AccessDenied | AttributeError

  /** One entry of the process table, as the scan sees it: its sockets, or
      the error raised while opening it or listing its sockets. */
  datatype ProcessEntry =
    | Readable(pid: nat, connections: seq<Connection>)
    | Unreadable(pid: nat, reason: ProbeError)

  predicate ListensOn(e: ProcessEntry, port: nat) {
    e.Readable? && exists c :: c in e.connections && c.localPort == Some(port)
  }

  /** The process `get_process_by_port` finds: the first readable one with a socket on `port`. */
  function ListeningProcess(procs: seq<ProcessEntry>, port: nat): Option<nat> {
    if procs == [] then None
    else if ListensOn(procs[0], port) then Some(procs[0].pid)
    else ListeningProcess(procs[1..], port)
  }

  lemma {:induction false} ListeningProcessIsFirstMatch(procs: seq<ProcessEntry>, port: nat)
    ensures ListeningProcess(procs, port).None? <==> forall i :: 0 <= i < |procs| ==> !ListensOn(procs[i], port)
    ensures ListeningProcess(procs, port).Some? ==>
      exists i :: 0 <= i < |procs| && ListensOn(procs[i], port) && procs[i].pid == ListeningProcess(procs, port).value
        && forall j :: 0 <= j < i ==> !ListensOn(procs[j], port)
  {
    if procs != [] && !ListensOn(procs[0], port) {
      ListeningProcessIsFirstMatch(procs[1..], port);
      assert forall i :: 1 <= i < |procs| ==> procs[i] == procs[1..][i - 1];
      if ListeningProcess(procs, port).Some? {
        var i :| 0 <= i < |procs[1..]| && ListensOn(procs[1..][i], port) && procs[1..][i].pid == ListeningProcess(procs, port).value
          && forall j :: 0 <= j < i ==> !ListensOn(procs[1..][j], port);
        assert ListensOn(procs[i + 1], port);
      }
    }
  }

  /** `test_app_responsiveness` applied to the outcome of its GET request. */
  datatype Responsiveness =
    | Responsive(statusCode: nat, responseTime: real)
    | Unresponsive(error: string)

  function TestAppResponsiveness(outcome: HttpOutcome): (r: Responsiveness)
    ensures r.Responsive? <==> outcome.Response?
    ensures r.Responsive? ==> r.statusCode == outcome.statusCode && r.responseTime == outcome.elapsedSeconds
    ensures r.Unresponsive? ==> r.error == outcome.message
  {
    match outcome
    case Response(code, elapsed, _) => Responsive(code, elapsed)
    case RequestFailed(message) => Unresponsive(message)
  }

  /** The readings a capture step produced that made it into the list: a
      step that raised contributes nothing. */
  function Captured(readings: seq<Option<Sample>>): (ms: seq<Sample>)
    ensures |ms| <= |readings|
  {
    if readings == [] then []
    else Captured(readings[..|readings| - 1])
         + (if readings[|readings| - 1].Some? then [readings[|readings| - 1].value] else [])
  }

  /** One more reading adds at most its own sample. */
  lemma CapturedStep(readings: seq<Option<Sample>>, i: nat)
    requires i < |readings|
    ensures Captured(readings[..i + 1]) == Captured(readings[..i]) + (if readings[i].Some? then [readings[i].value] else [])
  {
    assert readings[..i + 1][..i] == readings[..i];
  }

  // ---------------------------------------------------------------------
  // The monitor object

  class ResourceMonitor {
    const targetPorts: seq<nat>
    var monitoring: bool
    var metrics: seq<Sample>
    var startTime: Option<real>

    constructor (targetPorts: seq<nat> := DefaultTargetPorts)
      ensures this.targetPorts == targetPorts
      ensures !monitoring && metrics == [] && startTime == None
    {
      this.targetPorts := targetPorts;
      monitoring := false;
      metrics := [];
      startTime := None;
    }

    /** `get_process_by_port`: scan the process table in order, skipping
        processes that raise, and return the first one listening on `port`. */
    method GetProcessByPort(procs: seq<ProcessEntry>, port: nat) returns (r: Option<nat>)
      ensures r == ListeningProcess(procs, port)
    {
      var i := 0;
      while i < |procs|
        invariant 0 <= i <= |procs|
        invariant ListeningProcess(procs[i..], port) == ListeningProcess(procs, port)
      {
        assert procs[i..][1..] == procs[i + 1..];
        match procs[i] {
          case Unreadable(_, _) =>
          case Readable(pid, connections) =>
            if |connections| > 0 {
              var j := 0;
              while j < |connections|
                invariant 0 <= j <= |connections|
                invariant forall k :: 0 <= k < j ==> connections[k].localPort != Some(port)
              {
                if connections[j].localPort == Some(port) {
                  return Some(pid);
                }
                j := j + 1;
              }
            }
        }
        i := i + 1;
      }
      return None;
    }

    /** The `processes` part of `get_system_metrics`: for each target port,
        the metrics of the process listening on it, unless reading them
        failed (`infos` holds the readings that succeeded, by pid). */
    method ProcessesSnapshot(procs: seq<ProcessEntry>, infos: map<nat, ProcessMetrics>)
      returns (processes: map<string, ProcessMetrics>)
      ensures forall p :: p in targetPorts ==>
        (PortKey(p) in processes <==> ListeningProcess(procs, p).Some? && ListeningProcess(procs, p).value in infos)
      ensures forall p :: p in targetPorts && PortKey(p) in processes ==>
        processes[PortKey(p)] == infos[ListeningProcess(procs, p).value]
      ensures forall k :: k in processes ==> exists p :: p in targetPorts && k == PortKey(p)
    {
      processes := map[];
      for n := 0 to |targetPorts|
        invariant forall p :: p in targetPorts[..n] ==>
          (PortKey(p) in processes <==> ListeningProcess(procs, p).Some? && ListeningProcess(procs, p).value in infos)
        invariant forall p :: p in targetPorts[..n] && PortKey(p) in processes ==>
          processes[PortKey(p)] == infos[ListeningProcess(procs, p).value]
        invariant forall k :: k in processes ==> exists p :: p in targetPorts[..n] && k == PortKey(p)
      {
        var port := targetPorts[n];
        assert targetPorts[..n + 1] == targetPorts[..n] + [port];
        forall q | q in targetPorts[..n] ensures PortKey(q) == PortKey(port) ==> q == port {
          PortKeyInjective(q, port);
        }
        var proc := GetProcessByPort(procs, port);
        if proc.Some? && proc.value in infos {
          processes := processes[PortKey(port) := infos[proc.value]];
        }
      }
      assert targetPorts[..|targetPorts|] == targetPorts;
    }

    /** `get_system_metrics`: one sample from the given system readings and process table. */
    method GetSystemMetrics(timestamp: string, system: SystemMetrics, procs: seq<ProcessEntry>, infos: map<nat, ProcessMetrics>)
      returns (s: Sample)
      ensures s.timestamp == timestamp && s.system == system
      ensures forall p :: p in targetPorts ==>
        (PortKey(p) in s.processes <==> ListeningProcess(procs, p).Some? && ListeningProcess(procs, p).value in infos)
      ensures forall p :: p in targetPorts && PortKey(p) in s.processes ==>
        s.processes[PortKey(p)] == infos[ListeningProcess(procs, p).value]
      ensures forall k :: k in s.processes ==> exists p :: p in targetPorts && k == PortKey(p)
    {
      var processes := ProcessesSnapshot(procs, infos);
      s := Sample(timestamp, system, processes);
    }

    /** `start_monitoring`: a no-op while a session runs, otherwise a fresh session. */
    method StartMonitoring(now: real)
      modifies this
      ensures old(monitoring) ==> monitoring && metrics == old(metrics) && startTime == old(startTime)
      ensures !old(monitoring) ==> monitoring && metrics == [] && startTime == Some(now)
    {
      if monitoring {
        return;
      }
      monitoring := true;
      startTime := Some(now);
      metrics := [];
    }

    /** One pass of the sampling loop: append the reading, or (the capture
        raised) log and append nothing. */
    method CaptureSample(reading: Option<Sample>)
      modifies this
      ensures monitoring == old(monitoring) && startTime == old(startTime)
      ensures metrics == old(metrics) + (if reading.Some? then [reading.value] else [])
    {
      if reading.Some? {
        metrics := metrics + [reading.value];
      }
    }

    /** The sampling loop: runs while the session is on, one capture per reading. */
    method MonitorLoop(readings: seq<Option<Sample>>)
      modifies this
      ensures monitoring == old(monitoring) && startTime == old(startTime)
      ensures metrics == old(metrics) + (if old(monitoring) then Captured(readings) else [])
    {
      var i := 0;
      while monitoring && i < |readings|
        invariant 0 <= i <= |readings|
        invariant monitoring == old(monitoring) && startTime == old(startTime)
        invariant metrics == old(metrics) + (if old(monitoring) then Captured(readings[..i]) else [])
      {
        CaptureSample(readings[i]);
        CapturedStep(readings, i);
        i := i + 1;
      }
      assert old(monitoring) ==> readings[..i] == readings;
    }

    /** `get_summary` of this monitor at clock reading `now`. */
    function Summary(now: real): ResourceSummary
      reads this
    {
      GetSummary(metrics, targetPorts, startTime, now)
    }

    /** `stop_monitoring`: end the session and summarize what it collected. */
    method StopMonitoring(now: real) returns (s: ResourceSummary)
      modifies this
      ensures !monitoring && metrics == old(metrics) && startTime == old(startTime)
      ensures s == GetSummary(metrics, targetPorts, startTime, now)
    {
      monitoring := false;
      s := Summary(now);
    }
  }

  /** A whole session: start, the captures, stop. A session that captured
      nothing reports the empty summary; otherwise it counts exactly what it captured. */
  method MonitorSession(m: ResourceMonitor, startClock: real, readings: seq<Option<Sample>>, stopClock: real)
    returns (s: ResourceSummary)
    requires !m.monitoring
    modifies m
    ensures m.metrics == Captured(readings) && !m.monitoring
    ensures s == GetSummary(Captured(readings), m.targetPorts, Some(startClock), stopClock)
    ensures s.EmptySummary? <==> Captured(readings) == []
  {
    m.StartMonitoring(startClock);
    m.MonitorLoop(readings);
    s := m.StopMonitoring(stopClock);
  }
}
