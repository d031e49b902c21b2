/** The locust scenario's decision logic: which applications to warm up
    before a run, given the target host, and how each task classifies the
    status code of its response. Request payloads, weights and wait times
    are random traffic shaping and are not modelled. */
module LocustScenario {
  import opened Common

  const DjangoWarmupHost: string := "http://localhost:8000"
  const FlaskWarmupHost: string := "http://localhost:5000"
  const WarmupPath: string := "/api/warmup/"

  /** `environment.parsed_options.host`: the options or the attribute may be
      missing; when present the value may be `None`. */
  datatype HostOption = NoHostOption | HostNone | Host(url: string)

  /** The target looks like the Django application. */
  predicate LooksLikeDjango(host: string) {
    Contains(host, ":8000") || Contains(Lower(host), "django")
  }

  /** The target looks like the Flask application. */
  predicate LooksLikeFlask(host: string) {
    Contains(host, ":5000") || Contains(Lower(host), "flask")
  }

  /** The applications `on_test_start` warms up for a target host. */
  function WarmupHosts(host: string): (hosts: seq<string>)
    ensures hosts == [DjangoWarmupHost] <==> LooksLikeDjango(host)
    ensures hosts == [FlaskWarmupHost] <==> !LooksLikeDjango(host) && LooksLikeFlask(host)
    ensures hosts == [DjangoWarmupHost, FlaskWarmupHost] <==> !LooksLikeDjango(host) && !LooksLikeFlask(host)
  {
    if LooksLikeDjango(host) then [DjangoWarmupHost]
    else if LooksLikeFlask(host) then [FlaskWarmupHost]
    else [DjangoWarmupHost, FlaskWarmupHost]
  }

  /** Whatever the host, one or both known applications are warmed up, never twice. */
  lemma WarmupHostsAreKnown(host: string)
    ensures 1 <= |WarmupHosts(host)| <= 2
    ensures forall i :: 0 <= i < |WarmupHosts(host)| ==>
      WarmupHosts(host)[i] == DjangoWarmupHost || WarmupHosts(host)[i] == FlaskWarmupHost
    ensures forall i, j :: 0 <= i < j < |WarmupHosts(host)| ==> WarmupHosts(host)[i] != WarmupHosts(host)[j]
  {
  }

  /** A host matching both applications is treated as Django. */
  lemma DjangoWinsOverFlask(host: string)
    requires LooksLikeDjango(host) && LooksLikeFlask(host)
    ensures WarmupHosts(host) == [DjangoWarmupHost]
  {
  }

  /** A window starting at `i` that differs from `sub` at offset `k` is no match. */
  lemma NoMatchAt(s: string, sub: string, i: int, k: int)
    requires 0 <= i && 0 <= k < |sub| && i + k < |s| && s[i + k] != sub[k]
    ensures !MatchesAt(s, sub, i)
  {
  }

  /** A string lacking one of the characters of `sub` does not contain `sub`. */
  lemma MissingCharacter(s: string, sub: string, k: int)
    requires 0 <= k < |sub| && sub[k] !in s
    ensures !Contains(s, sub)
  {
    forall i | 0 <= i <= |s| - |sub| ensures !MatchesAt(s, sub, i) {
      NoMatchAt(s, sub, i, k);
    }
  }

  /** The runner's own targets, `http://localhost:8001` and `http://localhost:5002`. */
  const RunnerDjangoHost: string := "http://localhost:8001"
  const RunnerFlaskHost: string := "http://localhost:5002"

  /** The only colons of `http://localhost:NNNN` are at positions 4 and 16,
      so a `:PPPP` whose first digit is not `/` and whose last digit differs
      from the host's is absent. */
  lemma PortAbsent(host: string, port: string)
    requires |host| == 21 && host[..17] == "http://localhost:" && |port| == 5 && port[0] == ':'
    requires port[1] != '/' && port[4] != host[20]
    ensures !Contains(host, port)
  {
    forall i | 0 <= i <= |host| - 5 ensures !MatchesAt(host, port, i) {
      if i == 4 {
        NoMatchAt(host, port, i, 1);
      } else if i == 16 {
        NoMatchAt(host, port, i, 4);
      } else {
        assert host[i] == host[..17][i];
        NoMatchAt(host, port, i, 0);
      }
    }
  }

  /** `http://localhost:NNNN` with a four-digit port not ending in 0 names
      neither application. */
  lemma LocalhostPortMatchesNeither(host: string)
    requires |host| == 21 && host[..17] == "http://localhost:"
    requires forall i :: 17 <= i < 21 ==> '0' <= host[i] <= '9'
    requires host[20] != '0'
    ensures !LooksLikeDjango(host) && !LooksLikeFlask(host)
  {
    forall i | 0 <= i < 21 ensures LowerChar(host[i]) == host[i] && host[i] != 'j' && host[i] != 'f' {
      if i < 17 {
        assert host[i] == host[..17][i];
      }
    }
    assert Lower(host) == host;
    PortAbsent(host, ":8000");
    PortAbsent(host, ":5000");
    MissingCharacter(host, "django", 1);
    MissingCharacter(host, "flask", 0);
  }

  /** The hosts the runner targets (ports 8001 and 5002) match neither
      application, so the warmup calls both default ports (8000 and 5000),
      where neither application under test listens. */
  lemma RunnerHostsWarmUpBoth(host: string)
    requires host == RunnerDjangoHost || host == RunnerFlaskHost
    ensures WarmupHosts(host) == [DjangoWarmupHost, FlaskWarmupHost]
  {
    LocalhostPortMatchesNeither(host);
  }

  /** The application name printed after a successful warmup. */
  function WarmupAppName(warmupHost: string): (name: string)
    ensures name == "Django" <==> Contains(warmupHost, ":8000")
    ensures name == "Django" || name == "Flask"
  {
    if Contains(warmupHost, ":8000") then "Django" else "Flask"
  }

  lemma WarmupAppNames()
    ensures WarmupAppName(DjangoWarmupHost) == "Django"
    ensures WarmupAppName(FlaskWarmupHost) == "Flask"
  {
    assert MatchesAt(DjangoWarmupHost, ":8000", 16);
    MissingCharacter(FlaskWarmupHost, ":8000", 1);
  }

  /** What one warmup request led to. */
  datatype WarmupReport =
    | WarmupSucceeded(host: string, appName: string)
    | WarmupRejected(host: string, statusCode: nat)
    | WarmupErrored(host: string, message: string)
    | WarmupInvalidJson(host: string)

  /** The body of the warmup loop for one host; every exception is caught and reported. */
  function WarmupReportFor(host: string, outcome: HttpOutcome): WarmupReport {
    match outcome
    case RequestFailed(message) => WarmupErrored(host, message)
    case Response(code, _, json) =>
      if code != 200 then WarmupRejected(host, code)
      else if json then WarmupSucceeded(host, WarmupAppName(host))
      else WarmupInvalidJson(host)
  }

  /** The listener's effect: nothing, an exception, or one report per warmed-up host. */
  datatype WarmupRun =
    | WarmupSkipped
    | ListenerRaised(message: string)
    | WarmupCompleted(reports: seq<WarmupReport>)

  /** `on_test_start`; `fetch` stands for `requests.get(url, timeout=10)`. */
  method OnTestStart(hostOption: HostOption, fetch: string -> HttpOutcome) returns (run: WarmupRun)
    ensures run.WarmupSkipped? <==> hostOption.NoHostOption?
    ensures run.ListenerRaised? <==> hostOption.HostNone?
    ensures hostOption.Host? ==>
      var hosts := WarmupHosts(hostOption.url);
      && run.WarmupCompleted? && |run.reports| == |hosts|
      && forall i :: 0 <= i < |hosts| ==> run.reports[i] == WarmupReportFor(hosts[i], fetch(hosts[i] + WarmupPath))
  {
    match hostOption {
      case NoHostOption =>
        return WarmupSkipped;
      case HostNone =>
        return ListenerRaised("argument of type 'NoneType' is not iterable");
      case Host(host) =>
        var warmupHosts: seq<string> := [];
        if Contains(host, ":8000") || Contains(Lower(host), "django") {
          warmupHosts := warmupHosts + [DjangoWarmupHost];
        } else if Contains(host, ":5000") || Contains(Lower(host), "flask") {
          warmupHosts := warmupHosts + [FlaskWarmupHost];
        } else {
          warmupHosts := [DjangoWarmupHost, FlaskWarmupHost];
        }
        var reports: seq<WarmupReport> := [];
        for i := 0 to |warmupHosts|
          invariant |reports| == i
          invariant forall k :: 0 <= k < i ==> reports[k] == WarmupReportFor(warmupHosts[k], fetch(warmupHosts[k] + WarmupPath))
        {
          var warmupHost := warmupHosts[i];
          var response := fetch(warmupHost + WarmupPath);
          reports := reports + [WarmupReportFor(warmupHost, response)];
        }
        return WarmupCompleted(reports);
    }
  }

  // ---------------------------------------------------------------------
  // Response classification in the user tasks

  /** `response.success()` or `response.failure(message)`. */
  datatype CheckResult = Success | Failure(message: string)

  const TaskFailurePrefix: string := "Task trigger failed: "
  const ErrorFailurePrefix: string := "Unexpected status code: "
  const WarmupFailurePrefix: string := "Warmup check failed: "

  /** `trigger_task`: only 200 is a success. */
  function TriggerTaskCheck(statusCode: nat): (r: CheckResult)
    ensures r.Success? <==> statusCode == 200
    ensures r.Failure? ==> StartsWith(r.message, TaskFailurePrefix)
  {
    if statusCode == 200 then Success else Failure(TaskFailurePrefix + NatToString(statusCode))
  }

  /** `trigger_error`: the error endpoint's 500 is expected, so 200 and 500 are successes. */
  function TriggerErrorCheck(statusCode: nat): (r: CheckResult)
    ensures r.Success? <==> statusCode == 200 || statusCode == 500
    ensures r.Failure? ==> StartsWith(r.message, ErrorFailurePrefix)
  {
    if statusCode == 200 || statusCode == 500 then Success else Failure(ErrorFailurePrefix + NatToString(statusCode))
  }

  /** `warmup_check`: only 200 is a success. */
  function WarmupCheck(statusCode: nat): (r: CheckResult)
    ensures r.Success? <==> statusCode == 200
    ensures r.Failure? ==> StartsWith(r.message, WarmupFailurePrefix)
  {
    if statusCode == 200 then Success else Failure(WarmupFailurePrefix + NatToString(statusCode))
  }

  /** The error task and the task trigger disagree exactly on status 500. */
  lemma ChecksDifferOnlyAt500(statusCode: nat)
    ensures TriggerErrorCheck(statusCode).Success? != TriggerTaskCheck(statusCode).Success? <==> statusCode == 500
    ensures TriggerTaskCheck(statusCode).Success? == WarmupCheck(statusCode).Success?
  {
  }

  /** The status code following a failure message's prefix. */
  function ReportedStatus(message: string, prefix: string): Option<nat> {
    if StartsWith(message, prefix) && |message| > |prefix|
       && forall i :: |prefix| <= i < |message| ==> '0' <= message[i] <= '9'
    then Some(DigitsValue(message[|prefix|..]))
    else None
  }

  /** Every failure message names the status code that caused it. */
  lemma FailureMessagesCarryStatus(statusCode: nat)
    ensures TriggerTaskCheck(statusCode).Failure? ==>
      ReportedStatus(TriggerTaskCheck(statusCode).message, TaskFailurePrefix) == Some(statusCode)
    ensures TriggerErrorCheck(statusCode).Failure? ==>
      ReportedStatus(TriggerErrorCheck(statusCode).message, ErrorFailurePrefix) == Some(statusCode)
    ensures WarmupCheck(statusCode).Failure? ==>
      ReportedStatus(WarmupCheck(statusCode).message, WarmupFailurePrefix) == Some(statusCode)
  {
    var digits := NatToString(statusCode);
    DigitsValueOfNatToString(statusCode);
    assert (TaskFailurePrefix + digits)[|TaskFailurePrefix|..] == digits;
    assert (ErrorFailurePrefix + digits)[|ErrorFailurePrefix|..] == digits;
    assert (WarmupFailurePrefix + digits)[|WarmupFailurePrefix|..] == digits;
  }
}
