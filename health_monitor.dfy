/**
 * The health monitor: named checks run against an agent, their results
 * folded into one health report, a per-agent history bounded to the last
 * 100 reports, the history window and summary queries, and the three
 * alert rules with their callbacks.
 *
 * The check functions and the alert callbacks are not visible here: a
 * health check receives what each named check did for this agent (it
 * returned a result or raised) and what each callback did when invoked.
 * The background monitoring loop only sleeps; its running flag is kept.
 */
module Health {
  import opened Text
  import opened Interfaces
  import opened Seqs
  import opened BaseAgents

  datatype CheckResult = CheckResult(passed: bool, message: string, metrics: map<string, real>)

  predicate IsFailure(r: CheckResult)
  {
    !r.passed
  }

  /** A check that raised is recorded as a failed result naming the check. */
  function Recorded(name: string, outcome: Outcome<CheckResult>): (r: CheckResult)
    ensures outcome.Returned? ==> r == outcome.value
    ensures outcome.Threw? ==> IsFailure(r) && r.metrics == map[]
                               && r.message == "Check " + name + " failed: " + outcome.error
  {
    match outcome
    case Returned(result) => result
    case Threw(e) => CheckResult(false, "Check " + name + " failed: " + e, map[])
  }

  /** The results of running every named check, in order; a raising check does not stop the rest. */
  function RunChecks(names: seq<string>, run: string -> Outcome<CheckResult>): (rs: seq<CheckResult>)
    ensures |rs| == |names|
    ensures forall i | 0 <= i < |names| :: rs[i] == Recorded(names[i], run(names[i]))
  {
    if names == [] then []
    else RunChecks(names[..|names| - 1], run) + [Recorded(names[|names| - 1], run(names[|names| - 1]))]
  }

  // ------------------------------------------------------ classification

  /**
   * No checks: offline. No failures: healthy. At most half (rounded down)
   * failed: degraded. Otherwise unhealthy.
   */
  function OverallStatus(total: nat, failed: nat): (s: AgentStatus)
    requires failed <= total
    ensures s == Offline <==> total == 0
    ensures s == Healthy <==> total > 0 && failed == 0
    ensures s == Degraded <==> 0 < failed && 2 * failed <= total
    ensures s == Unhealthy <==> 2 * failed > total
  {
    if total == 0 then Offline
    else if failed == 0 then Healthy
    else if failed <= total / 2 then Degraded
    else Unhealthy
  }

  /** For a fixed number of checks, more failures never report a healthier agent. */
  lemma OverallStatusMonotone(total: nat, f1: nat, f2: nat)
    requires f1 <= f2 <= total
    ensures StatusRank(OverallStatus(total, f1)) <= StatusRank(OverallStatus(total, f2))
  {
  }

  /** The message of the first failed result, if any failed. */
  function FirstFailure(results: seq<CheckResult>): (m: Option<string>)
    ensures m.None? <==> forall i | 0 <= i < |results| :: !IsFailure(results[i])
    ensures m.Some? ==> exists i | 0 <= i < |results| ::
              IsFailure(results[i]) && results[i].message == m.value
              && forall j | 0 <= j < i :: !IsFailure(results[j])
  {
    if results == [] then None
    else if IsFailure(results[0]) then Some(results[0].message)
    else
      var m := FirstFailure(results[1..]);
      assert forall i | 0 < i < |results| :: results[1..][i - 1] == results[i];
      assert m.Some? ==> exists i | 0 <= i < |results| ::
               IsFailure(results[i]) && results[i].message == m.value
               && forall j | 0 <= j < i :: !IsFailure(results[j]) by {
        if m.Some? {
          var k :| 0 <= k < |results[1..]| && IsFailure(results[1..][k]) && results[1..][k].message == m.value
                   && forall j | 0 <= j < k :: !IsFailure(results[1..][j]);
          assert IsFailure(results[k + 1]) && forall j | 0 <= j < k + 1 :: !IsFailure(results[j]);
        }
      }
      m
  }

  /** The results' metrics merged left to right; a later result overwrites an earlier key. */
  function MergedMetrics(results: seq<CheckResult>): (m: map<string, real>)
  {
    if results == [] then map[]
    else MergedMetrics(results[..|results| - 1]) + results[|results| - 1].metrics
  }

  /** The merged keys are exactly the keys some result reports. */
  lemma {:induction false} MergedMetricsKeys(results: seq<CheckResult>)
    ensures forall k | k in MergedMetrics(results) :: exists i | 0 <= i < |results| :: k in results[i].metrics
    ensures forall i, k | 0 <= i < |results| && k in results[i].metrics :: k in MergedMetrics(results)
  {
    if results != [] {
      var init := results[..|results| - 1];
      MergedMetricsKeys(init);
      assert forall i | 0 <= i < |init| :: init[i] == results[i];
    }
  }

  /** A merged value is the one reported by the last result that has the key. */
  lemma {:induction false} MergedMetricsLastWins(results: seq<CheckResult>, i: nat, k: string)
    requires i < |results| && k in results[i].metrics
    requires forall j | i < j < |results| :: k !in results[j].metrics
    ensures k in MergedMetrics(results) && MergedMetrics(results)[k] == results[i].metrics[k]
  {
    var init := results[..|results| - 1];
    assert MergedMetrics(results) == MergedMetrics(init) + results[|results| - 1].metrics;
    if i < |results| - 1 {
      assert init[i] == results[i];
      assert forall j | i < j < |init| :: init[j] == results[j];
      MergedMetricsLastWins(init, i, k);
    }
  }

  /** The report for one round of checks. */
  function Report(results: seq<CheckResult>, now: Timestamp): (h: HealthStatus)
    ensures h.errorCount == Count(results, IsFailure)
    ensures h.status == OverallStatus(|results|, h.errorCount)
    ensures h.lastError == FirstFailure(results) && h.metrics == MergedMetrics(results)
    ensures h.lastHeartbeat == now && h.uptime == 0.0
  {
    var failed := Count(results, IsFailure);
    HealthStatus(OverallStatus(|results|, failed), now, 0.0, failed, FirstFailure(results), MergedMetrics(results))
  }

  /** A report's error count is zero exactly when it names no error. */
  lemma ReportErrorAgreement(results: seq<CheckResult>, now: Timestamp)
    ensures Report(results, now).errorCount == 0 <==> Report(results, now).lastError.None?
    ensures Report(results, now).status == Healthy <==> |results| > 0 && Report(results, now).lastError.None?
  {
    CountZero(results, IsFailure);
  }

  // ------------------------------------------------------ history window

  /** The reports whose heartbeat is at or after `cutoff`, in order. */
  function Since(history: seq<HealthStatus>, cutoff: Timestamp): (r: seq<HealthStatus>)
    ensures |r| <= |history|
  {
    if history == [] then []
    else
      var init := Since(history[..|history| - 1], cutoff);
      var last := history[|history| - 1];
      if last.lastHeartbeat >= cutoff then init + [last] else init
  }

  /** The window holds exactly the reports at or after the cutoff. */
  lemma {:induction false} SinceMembers(history: seq<HealthStatus>, cutoff: Timestamp)
    ensures forall h | h in Since(history, cutoff) :: h in history && h.lastHeartbeat >= cutoff
    ensures forall i | 0 <= i < |history| && history[i].lastHeartbeat >= cutoff :: history[i] in Since(history, cutoff)
  {
    if history != [] {
      var init := history[..|history| - 1];
      SinceMembers(init, cutoff);
      assert forall i | 0 <= i < |history| - 1 :: init[i] == history[i];
      assert forall h | h in init :: h in history;
    }
  }

  /** The window distributes over concatenation, so it keeps the history's order. */
  lemma {:induction false} SinceAppend(a: seq<HealthStatus>, b: seq<HealthStatus>, cutoff: Timestamp)
    ensures Since(a + b, cutoff) == Since(a, cutoff) + Since(b, cutoff)
    decreases |b|
  {
    if b == [] {
      assert a + b == a;
    } else {
      var init, last := b[..|b| - 1], b[|b| - 1];
      SinceAppend(a, init, cutoff);
      var ab := a + b;
      assert ab[..|ab| - 1] == a + init;
      assert ab[|ab| - 1] == last;
      var sa, si := Since(a, cutoff), Since(init, cutoff);
      var t := if last.lastHeartbeat >= cutoff then [last] else [];
      assert Since(ab, cutoff) == (sa + si) + t;
      assert Since(b, cutoff) == si + t;
      assert (sa + si) + t == sa + (si + t);
    }
  }

  /** Every report in a history (or an unknown agent): the window with cutoff `now - hours`. */
  function HistoryWindow(history: map<string, seq<HealthStatus>>, agentId: string, hours: int, now: Timestamp)
    : (r: seq<HealthStatus>)
    ensures agentId !in history ==> r == []
    ensures agentId in history ==> r == Since(history[agentId], now - hours * 3600)
  {
    if agentId !in history then [] else Since(history[agentId], now - hours * 3600)
  }

  // ------------------------------------------------------ summary

  function HasStatus(s: AgentStatus): HealthStatus -> bool
  {
    (h: HealthStatus) => h.status == s
  }

  function ErrorCountOf(h: HealthStatus): real
  {
    h.errorCount as real
  }

  /**
   * The health summary of a window. An empty window is `Unknown` (status
   * "unknown", zero uptime and error average, empty distribution).
   */
  datatype HealthSummary =
    | Unknown
    | Known(currentStatus: AgentStatus, uptimePercentage: real, avgErrorCount: real,
            distribution: map<AgentStatus, nat>, lastCheck: Timestamp)

  function Summary(history: seq<HealthStatus>): (r: HealthSummary)
    ensures r.Unknown? <==> history == []
    ensures r.Known? ==> r.currentStatus == history[|history| - 1].status
                         && r.lastCheck == history[|history| - 1].lastHeartbeat
    ensures r.Known? ==> r.uptimePercentage
                         == Count(history, HasStatus(Healthy)) as real / |history| as real * 100.0
    ensures r.Known? ==> r.avgErrorCount == Sum(history, ErrorCountOf) / |history| as real
    ensures r.Known? ==> r.distribution.Keys == {Healthy, Degraded, Unhealthy, Offline}
    ensures r.Known? ==> forall s | s in r.distribution :: r.distribution[s] == Count(history, HasStatus(s))
  {
    if history == [] then Unknown
    else
      var n := |history| as real;
      Known(
        history[|history| - 1].status,
        Count(history, HasStatus(Healthy)) as real / n * 100.0,
        Sum(history, ErrorCountOf) / n,
        map s: AgentStatus | s in {Healthy, Degraded, Unhealthy, Offline} :: Count(history, HasStatus(s)),
        history[|history| - 1].lastHeartbeat)
  }

  /** The four status counts of a history add up to its length. */
  lemma {:induction false} StatusCountsSum(history: seq<HealthStatus>)
    ensures Count(history, HasStatus(Healthy)) + Count(history, HasStatus(Degraded))
            + Count(history, HasStatus(Unhealthy)) + Count(history, HasStatus(Offline)) == |history|
  {
    if history != [] {
      StatusCountsSum(history[..|history| - 1]);
    }
  }

  /** So the summary's distribution accounts for every report exactly once. */
  lemma DistributionSums(history: seq<HealthStatus>)
    requires history != []
    ensures var d := Summary(history).distribution;
            d[Healthy] + d[Degraded] + d[Unhealthy] + d[Offline] == |history|
  {
    StatusCountsSum(history);
  }

  /** An all-healthy window has full uptime. */
  lemma FullUptime(history: seq<HealthStatus>)
    requires history != [] && forall i | 0 <= i < |history| :: history[i].status == Healthy
    ensures Summary(history).uptimePercentage == 100.0
  {
    CountAll(history, HasStatus(Healthy));
    var n := |history| as real;
    assert Count(history, HasStatus(Healthy)) as real == n;
    assert n / n == 1.0;
  }

  // ------------------------------------------------------ alerts

  /** The previous report in the window was healthy and the current one is unhealthy. */
  predicate BecameUnhealthy(recent: seq<HealthStatus>, current: HealthStatus)
  {
    |recent| >= 2 && recent[|recent| - 2].status == Healthy && current.status == Unhealthy
  }

  /** The last ten reports in the window are all degraded. */
  predicate DegradedTooLong(recent: seq<HealthStatus>)
  {
    |recent| >= 10 && forall i | |recent| - 10 <= i < |recent| :: recent[i].status == Degraded
  }

  /** The alert for the current report, by the first rule that applies. */
  function AlertMessage(agentId: string, recent: seq<HealthStatus>, current: HealthStatus): (m: Option<string>)
    ensures m.Some? <==> BecameUnhealthy(recent, current) || DegradedTooLong(recent) || current.errorCount > 50
    ensures BecameUnhealthy(recent, current) ==> m == Some("Agent " + agentId + " became unhealthy")
    ensures !BecameUnhealthy(recent, current) && DegradedTooLong(recent) ==>
              m == Some("Agent " + agentId + (" has been degraded " + "for extended period"))
    ensures !BecameUnhealthy(recent, current) && !DegradedTooLong(recent) && current.errorCount > 50 ==>
              m == Some("Agent " + agentId + " has high error count: " + NatToString(current.errorCount))
  {
    if BecameUnhealthy(recent, current) then Some("Agent " + agentId + " became unhealthy")
    else if DegradedTooLong(recent) then Some("Agent " + agentId + (" has been degraded " + "for extended period"))
    else if current.errorCount > 50 then
      Some("Agent " + agentId + " has high error count: " + NatToString(current.errorCount))
    else None
  }

  /** One invocation of an alert callback and what it did. */
  datatype Delivery = Delivery(callback: string, agentId: string, status: HealthStatus, message: string,
                               outcome: Completion)

  /**
   * After a report is appended, the last hour's window ends with that
   * report, so the first rule compares the current report with the one
   * before it in the window.
   */
  lemma {:induction false} WindowEndsWithCurrent(previous: seq<HealthStatus>, current: HealthStatus)
    requires |previous| <= 100
    ensures var w := Since(KeepLast(previous + [current], 100), current.lastHeartbeat - 3600);
            |w| >= 1 && w[|w| - 1] == current
  {
    var kept := KeepLast(previous + [current], 100);
    KeepLastAppend(previous, current, 100);
    assert kept == kept[..|kept| - 1] + [current];
    SinceAppend(kept[..|kept| - 1], [current], current.lastHeartbeat - 3600);
    assert Since([current], current.lastHeartbeat - 3600) == [current] by {
      assert [current][..0] == [];
    }
  }

  class HealthMonitor {
    const checkInterval: nat
    /** The registered check names, in registration order. */
    var checks: seq<string>
    var healthHistory: map<string, seq<HealthStatus>>
    var alertCallbacks: seq<string>
    var isRunning: bool
    /** Every callback invocation so far. */
    ghost var deliveries: seq<Delivery>

    ghost predicate Valid()
      reads this
    {
      && NoDuplicates(checks)
      && forall a | a in healthHistory :: |healthHistory[a]| <= 100
    }

    constructor (checkInterval: nat)
      ensures Valid()
      ensures this.checkInterval == checkInterval
      ensures checks == [] && healthHistory == map[] && alertCallbacks == [] && !isRunning
      ensures deliveries == []
    {
      this.checkInterval := checkInterval;
      checks := [];
      healthHistory := map[];
      alertCallbacks := [];
      isRunning := false;
      deliveries := [];
    }

    /** A new name is appended; registering a name again keeps its place. */
    method RegisterHealthCheck(name: string)
      requires Valid()
      modifies this
      ensures Valid()
      ensures checks == if name in old(checks) then old(checks) else old(checks) + [name]
      ensures healthHistory == old(healthHistory) && alertCallbacks == old(alertCallbacks)
      ensures isRunning == old(isRunning) && deliveries == old(deliveries)
    {
      if name !in checks {
        checks := checks + [name];
      }
    }

    method RegisterAlertCallback(callback: string)
      modifies this
      ensures alertCallbacks == old(alertCallbacks) + [callback]
      ensures checks == old(checks) && healthHistory == old(healthHistory)
      ensures isRunning == old(isRunning) && deliveries == old(deliveries)
    {
      alertCallbacks := alertCallbacks + [callback];
    }

    /** Starting a running monitor does nothing. */
    method StartMonitoring()
      modifies this
      ensures isRunning
      ensures checks == old(checks) && healthHistory == old(healthHistory)
      ensures alertCallbacks == old(alertCallbacks) && deliveries == old(deliveries)
    {
      if isRunning {
        return;
      }
      isRunning := true;
    }

    /** Stopping a stopped monitor does nothing. */
    method StopMonitoring()
      modifies this
      ensures !isRunning
      ensures checks == old(checks) && healthHistory == old(healthHistory)
      ensures alertCallbacks == old(alertCallbacks) && deliveries == old(deliveries)
    {
      if !isRunning {
        return;
      }
      isRunning := false;
    }

    /** `get_health_history(agent_id, hours)` at time `now`. */
    function GetHealthHistory(agentId: string, hours: int, now: Timestamp): (r: seq<HealthStatus>)
      reads this
      ensures agentId !in healthHistory ==> r == []
      ensures agentId in healthHistory ==> forall h | h in r :: h in healthHistory[agentId]
      ensures forall h | h in r :: h.lastHeartbeat >= now - hours * 3600
      ensures agentId in healthHistory ==>
                forall i | 0 <= i < |healthHistory[agentId]| && healthHistory[agentId][i].lastHeartbeat >= now - hours * 3600 ::
                  healthHistory[agentId][i] in r
    {
      if agentId in healthHistory then SinceMembers(healthHistory[agentId], now - hours * 3600); HistoryWindow(healthHistory, agentId, hours, now)
      else []
    }

    /** The summary of the last 24 hours. */
    function GetHealthSummary(agentId: string, now: Timestamp): (r: HealthSummary)
      reads this
      ensures r.Unknown? <==> GetHealthHistory(agentId, 24, now) == []
    {
      Summary(GetHealthHistory(agentId, 24, now))
    }

    /**
     * Runs every registered check in order, builds the report, appends it
     * to the agent's history (keeping the last 100), and, if an alert rule
     * fires over the last hour, invokes every callback in order whatever
     * the earlier ones did.
     */
    method PerformHealthCheck(agentId: string, now: Timestamp, run: string -> Outcome<CheckResult>,
                              invoke: string -> Completion)
      returns (h: HealthStatus)
      requires Valid()
      modifies this
      ensures Valid()
      ensures h == Report(RunChecks(checks, run), now)
      ensures var previous := if agentId in old(healthHistory) then old(healthHistory)[agentId] else [];
              healthHistory == old(healthHistory)[agentId := KeepLast(previous + [h], 100)]
      ensures var alert := AlertMessage(agentId, HistoryWindow(healthHistory, agentId, 1, now), h);
              && (alert.None? ==> deliveries == old(deliveries))
              && (alert.Some? ==> Delivered(old(deliveries), deliveries, agentId, h, alert.value, invoke))
      ensures checks == old(checks) && alertCallbacks == old(alertCallbacks) && isRunning == old(isRunning)
    {
      var results, merged := RunAll(checks, run);
      h := Report(results, now);
      Record(agentId, h);
      ghost var recorded := healthHistory;
      RaiseAlert(agentId, HistoryWindow(healthHistory, agentId, 1, now), h, invoke);
      assert healthHistory == recorded && checks == old(checks);
    }

    /** Notifies the callbacks when an alert rule fires for `current` over `recent`. */
    method RaiseAlert(agentId: string, recent: seq<HealthStatus>, current: HealthStatus,
                      invoke: string -> Completion)
      modifies this
      ensures var alert := AlertMessage(agentId, recent, current);
              && (alert.None? ==> deliveries == old(deliveries))
              && (alert.Some? ==> Delivered(old(deliveries), deliveries, agentId, current, alert.value, invoke))
      ensures checks == old(checks) && healthHistory == old(healthHistory)
      ensures alertCallbacks == old(alertCallbacks) && isRunning == old(isRunning)
    {
      var alert := AlertMessage(agentId, recent, current);
      if alert.Some? {
        Notify(agentId, current, alert.value, invoke);
      }
    }

    /** Appends a report to the agent's history, keeping the last 100. */
    method Record(agentId: string, h: HealthStatus)
      requires Valid()
      modifies this
      ensures Valid()
      ensures var previous := if agentId in old(healthHistory) then old(healthHistory)[agentId] else [];
              healthHistory == old(healthHistory)[agentId := KeepLast(previous + [h], 100)]
      ensures checks == old(checks) && alertCallbacks == old(alertCallbacks) && isRunning == old(isRunning)
      ensures deliveries == old(deliveries)
    {
      var previous := if agentId in healthHistory then healthHistory[agentId] else [];
      healthHistory := healthHistory[agentId := KeepLast(previous + [h], 100)];
    }

    /** `after` extends `before` with one delivery per callback, in callback order. */
    ghost predicate Delivered(before: seq<Delivery>, after: seq<Delivery>, agentId: string, h: HealthStatus,
                              message: string, invoke: string -> Completion)
      reads this
    {
      && |after| == |before| + |alertCallbacks|
      && after[..|before|] == before
      && forall i | 0 <= i < |alertCallbacks| ::
           after[|before| + i] == Delivery(alertCallbacks[i], agentId, h, message, invoke(alertCallbacks[i]))
    }

    /** Invokes every callback in order; one that raises does not keep the rest from being invoked. */
    method Notify(agentId: string, h: HealthStatus, message: string, invoke: string -> Completion)
      modifies this
      ensures Delivered(old(deliveries), deliveries, agentId, h, message, invoke)
      ensures checks == old(checks) && healthHistory == old(healthHistory)
      ensures alertCallbacks == old(alertCallbacks) && isRunning == old(isRunning)
    {
      var k := 0;
      ghost var before := deliveries;
      while k < |alertCallbacks|
        invariant 0 <= k <= |alertCallbacks|
        invariant |deliveries| == |before| + k && deliveries[..|before|] == before
        invariant forall j | 0 <= j < k ::
                    deliveries[|before| + j]
                    == Delivery(alertCallbacks[j], agentId, h, message, invoke(alertCallbacks[j]))
        invariant checks == old(checks) && healthHistory == old(healthHistory)
        invariant alertCallbacks == old(alertCallbacks) && isRunning == old(isRunning)
      {
        deliveries := deliveries + [Delivery(alertCallbacks[k], agentId, h, message, invoke(alertCallbacks[k]))];
        k := k + 1;
      }
    }
  }

  lemma RunChecksStep(names: seq<string>, i: nat, run: string -> Outcome<CheckResult>)
    requires i < |names|
    ensures RunChecks(names[..i + 1], run) == RunChecks(names[..i], run) + [Recorded(names[i], run(names[i]))]
  {
    assert names[..i + 1][..i] == names[..i];
  }

  lemma MergedStep(results: seq<CheckResult>, r: CheckResult)
    ensures MergedMetrics(results + [r]) == MergedMetrics(results) + r.metrics
  {
    assert (results + [r])[..|results|] == results;
  }

  /** Runs the checks one after another, collecting results and merging their metrics. */
  method RunAll(names: seq<string>, run: string -> Outcome<CheckResult>)
    returns (results: seq<CheckResult>, merged: map<string, real>)
    ensures results == RunChecks(names, run)
    ensures merged == MergedMetrics(results)
  {
    results := [];
    merged := map[];
    var i := 0;
    while i < |names|
      invariant 0 <= i <= |names|
      invariant results == RunChecks(names[..i], run)
      invariant merged == MergedMetrics(results)
    {
      var result := Recorded(names[i], run(names[i]));
      RunChecksStep(names, i, run);
      MergedStep(results, result);
      results := results + [result];
      merged := merged + result.metrics;
      i := i + 1;
    }
    assert names[..i] == names;
  }
}
