/**
 * The lifecycle and bookkeeping every agent shares: start/stop guards,
 * event intake, action execution with success/failure counters and a
 * running average of execution times, the health report and configuration
 * reloads.
 *
 * The agent-specific hooks (initialisation, start, stop, event handling,
 * action execution, reload) are not visible here: each method receives
 * what its hook did, either returned normally or raised with a message.
 * The audit service and the event bus accept every call; the actions the
 * bus receives are kept in a ghost log.
 */
module BaseAgents {
  import opened Text
  import opened Interfaces

  /** What a hook without a result did. */
  datatype Completion = Done | Raised(error: string)

  /** What a hook with a result did. */
  datatype Outcome<T> = Returned(value: T) | Threw(error: string)

  /** The counters of the `metrics` dictionary. */
  datatype Metrics = Metrics(
    eventsProcessed: nat,
    actionsExecuted: nat,
    actionsSuccessful: nat,
    actionsFailed: nat,
    avgExecutionTime: real)

  /** The `metrics` dictionary as the health report carries it. */
  function MetricsMap(m: Metrics): (d: map<string, real>)
    ensures d.Keys == {"events_processed", "actions_executed", "actions_successful",
                       "actions_failed", "avg_execution_time"}
    ensures d["actions_executed"] == d["actions_successful"] + d["actions_failed"]
            <==> m.actionsExecuted == m.actionsSuccessful + m.actionsFailed
  {
    map["events_processed" := m.eventsProcessed as real,
        "actions_executed" := m.actionsExecuted as real,
        "actions_successful" := m.actionsSuccessful as real,
        "actions_failed" := m.actionsFailed as real,
        "avg_execution_time" := m.avgExecutionTime]
  }

  // ------------------------------------------------------ running average

  function Total(samples: seq<real>): real
  {
    if samples == [] then 0.0 else Total(samples[..|samples| - 1]) + samples[|samples| - 1]
  }

  /** The arithmetic mean; 0.0 for no samples (the initial average). */
  function Mean(samples: seq<real>): real
  {
    if samples == [] then 0.0 else Total(samples) / |samples| as real
  }

  /**
   * The update `(avg * (n - 1) + t) / n` with `n` the new sample count
   * turns the mean of the earlier samples into the mean including `t`.
   */
  lemma RunningMeanStep(samples: seq<real>, t: real)
    ensures Mean(samples + [t]) == (Mean(samples) * |samples| as real + t) / (|samples| + 1) as real
  {
    var s' := samples + [t];
    assert s'[..|s'| - 1] == samples;
    assert Total(s') == Total(samples) + t;
    if samples != [] {
      var n := |samples| as real;
      assert Mean(samples) * n == Total(samples) by {
        assert Mean(samples) == Total(samples) / n;
      }
    }
  }

  /**
   * The average after one more execution taking `t`: the stored average
   * weighted by the executions counted so far, plus `t`, over the new count.
   */
  function UpdatedAverage(m: Metrics, t: real): real
  {
    (m.avgExecutionTime * m.actionsExecuted as real + t) / (m.actionsExecuted + 1) as real
  }

  /** When the stored average is the mean of the samples, the update is the mean including `t`. */
  lemma UpdatedAverageIsMean(samples: seq<real>, m: Metrics, t: real)
    requires m.avgExecutionTime == Mean(samples) && m.actionsExecuted == |samples|
    ensures Mean(samples + [t]) == UpdatedAverage(m, t)
  {
    RunningMeanStep(samples, t);
  }

  // ------------------------------------------------------ health

  /** The agent's health: offline when stopped, then by error count (> 10, > 5). */
  function AgentHealth(running: bool, errorCount: nat): (s: AgentStatus)
    ensures s == Offline <==> !running
    ensures s == Healthy <==> running && errorCount <= 5
  {
    if !running then Offline
    else if errorCount > 10 then Unhealthy
    else if errorCount > 5 then Degraded
    else Healthy
  }

  /** Healthy < Degraded < Unhealthy < Offline. */
  function StatusRank(s: AgentStatus): nat
  {
    match s
    case Healthy => 0
    case Degraded => 1
    case Unhealthy => 2
    case Offline => 3
  }

  /** More errors never report a healthier running agent. */
  lemma HealthWorsensWithErrors(running: bool, e1: nat, e2: nat)
    requires e1 <= e2
    ensures StatusRank(AgentHealth(running, e1)) <= StatusRank(AgentHealth(running, e2))
  {
  }

  // ------------------------------------------------------ the agent

  class BaseAgent {
    const agentId: string
    var config: Option<AgentConfig>
    var isRunning: bool
    var startTime: Option<Timestamp>
    var lastHeartbeat: Option<Timestamp>
    var errorCount: nat
    var lastError: Option<string>
    var metrics: Metrics
    /** The execution times folded into the average. */
    ghost var samples: seq<real>
    /** No execution has taken the exception path yet. */
    ghost var averageIsMean: bool
    /** The actions handed to the event bus. */
    ghost var published: seq<ActionSpec>

    ghost predicate Valid()
      reads this
    {
      && metrics.actionsExecuted == metrics.actionsSuccessful + metrics.actionsFailed
      && (isRunning ==> config.Some?)
      && (averageIsMean ==> |samples| == metrics.actionsExecuted && metrics.avgExecutionTime == Mean(samples))
    }

    /** Events and actions are handled only while running, configured and enabled. */
    predicate Accepting()
      reads this
    {
      isRunning && config.Some? && config.value.enabled
    }

    constructor (agentId: string)
      ensures Valid() && averageIsMean
      ensures this.agentId == agentId && config == None && !isRunning
      ensures startTime == None && lastHeartbeat == None
      ensures errorCount == 0 && lastError == None
      ensures metrics == Metrics(0, 0, 0, 0, 0.0)
      ensures published == []
    {
      this.agentId := agentId;
      config := None;
      isRunning := false;
      startTime := None;
      lastHeartbeat := None;
      errorCount := 0;
      lastError := None;
      metrics := Metrics(0, 0, 0, 0, 0.0);
      samples := [];
      averageIsMean := true;
      published := [];
    }

    /** Installs the configuration, then runs the hook; a hook failure is counted and re-raised. */
    method Initialize(c: AgentConfig, hook: Completion) returns (r: Completion)
      requires Valid()
      modifies this
      ensures Valid()
      ensures config == Some(c) && r == hook
      ensures hook.Done? ==> errorCount == old(errorCount) && lastError == old(lastError)
      ensures hook.Raised? ==> errorCount == old(errorCount) + 1 && lastError == Some(hook.error)
      ensures isRunning == old(isRunning) && metrics == old(metrics)
      ensures startTime == old(startTime) && lastHeartbeat == old(lastHeartbeat)
      ensures published == old(published)
    {
      config := Some(c);
      if hook.Raised? {
        lastError := Some(hook.error);
        errorCount := errorCount + 1;
      }
      r := hook;
    }

    /**
     * Starting a running agent does nothing. Without a configuration it
     * raises and counts the error. Otherwise the agent runs unless the
     * hook raises, in which case it is stopped again and the error counted.
     */
    method Start(now: Timestamp, hook: Completion) returns (r: Completion)
      requires Valid()
      modifies this
      ensures Valid()
      ensures old(isRunning) ==> r == Done && isRunning && errorCount == old(errorCount)
                                 && lastError == old(lastError) && startTime == old(startTime)
      ensures !old(isRunning) && old(config).None? ==>
                r == Raised(("Agent not " + "initialized - no " + "configuration loaded")) && !isRunning
                && errorCount == old(errorCount) + 1 && lastError == Some(r.error)
      ensures !old(isRunning) && old(config).Some? ==>
                r == hook && isRunning == hook.Done? && startTime == Some(now)
                && lastHeartbeat == Some(now)
                && errorCount == old(errorCount) + (if hook.Raised? then 1 else 0)
                && (hook.Raised? ==> lastError == Some(hook.error))
      ensures config == old(config) && metrics == old(metrics) && published == old(published)
    {
      if isRunning {
        return Done;
      }
      if config.None? {
        r := Raised(("Agent not " + "initialized - no " + "configuration loaded"));
        lastError := Some(r.error);
        errorCount := errorCount + 1;
        isRunning := false;
        return;
      }
      isRunning := true;
      startTime := Some(now);
      lastHeartbeat := Some(now);
      r := hook;
      if hook.Raised? {
        lastError := Some(hook.error);
        errorCount := errorCount + 1;
        isRunning := false;
      }
    }

    /**
     * Stopping a stopped agent does nothing. Otherwise the agent stops;
     * a failing hook is counted, never raised.
     */
    method Stop(hook: Completion)
      requires Valid()
      modifies this
      ensures Valid()
      ensures !isRunning
      ensures !old(isRunning) ==> errorCount == old(errorCount) && lastError == old(lastError)
      ensures old(isRunning) && hook.Raised? ==> errorCount == old(errorCount) + 1 && lastError == Some(hook.error)
      ensures old(isRunning) && hook.Done? ==> errorCount == old(errorCount) && lastError == old(lastError)
      ensures config == old(config) && metrics == old(metrics) && published == old(published)
      ensures startTime == old(startTime) && lastHeartbeat == old(lastHeartbeat)
    {
      if !isRunning {
        return;
      }
      isRunning := false;
      if hook.Raised? {
        lastError := Some(hook.error);
        errorCount := errorCount + 1;
      }
    }

    /**
     * An event reaching an agent that is not accepting is ignored. Otherwise
     * it is counted and handed to the hook; an action the hook produces is
     * published and returned, a hook failure is counted and yields none.
     */
    method ProcessEvent(event: SystemEvent, hook: Outcome<Option<ActionSpec>>) returns (action: AgentAction?)
      requires Valid()
      modifies this
      ensures Valid()
      ensures !old(Accepting()) ==> action == null && metrics == old(metrics)
                                    && errorCount == old(errorCount) && lastError == old(lastError)
      ensures old(Accepting()) ==> metrics == old(metrics).(eventsProcessed := old(metrics.eventsProcessed) + 1)
      ensures action != null <==> old(Accepting()) && hook.Returned? && hook.value.Some?
      ensures action != null ==> fresh(action) && action.spec == hook.value.value && action.status == Pending
                                 && action.result == None
      ensures published == old(published) + (if action != null then [action.spec] else [])
      ensures old(Accepting()) && hook.Threw? ==> errorCount == old(errorCount) + 1 && lastError == Some(hook.error)
      ensures !(old(Accepting()) && hook.Threw?) ==> errorCount == old(errorCount) && lastError == old(lastError)
      ensures isRunning == old(isRunning) && config == old(config)
      ensures startTime == old(startTime) && lastHeartbeat == old(lastHeartbeat)
    {
      action := null;
      if !Accepting() {
        return;
      }
      metrics := metrics.(eventsProcessed := metrics.eventsProcessed + 1);
      match hook
      case Threw(e) =>
        lastError := Some(e);
        errorCount := errorCount + 1;
      case Returned(produced) =>
        if produced.Some? {
          action := new AgentAction(produced.value);
          published := published + [produced.value];
        }
    }

    /**
     * Runs an action. A running, configured agent marks it EXECUTING, asks
     * the hook, and finishes it COMPLETED or FAILED by the hook's result,
     * folding the elapsed time into the average and into the samples it
     * is the mean of. An agent that is not active, or a hook that raises,
     * takes the exception path: the action is FAILED with a failed result
     * and the error is counted; the average is left alone, so once the
     * failed action is counted it is no longer the samples' mean. Either way the action is counted once and a result
     * is returned, never raised. The action's prior status is not checked.
     */
    method ExecuteAction(action: AgentAction, hook: Outcome<ActionResult>, now: Timestamp, elapsed: real)
      returns (r: ActionResult)
      requires Valid()
      modifies this, action
      ensures Valid()
      ensures action.result == Some(r) && r.executionTime == Some(elapsed)
      ensures action.status == (if r.success then Completed else Failed)
      ensures r.success <==> old(isRunning) && old(config).Some? && hook.Returned? && hook.value.success
      ensures old(isRunning) && old(config).Some? && hook.Returned? ==>
                r == hook.value.(executionTime := Some(elapsed))
                && action.executedAt == Some(now)
                && errorCount == old(errorCount) && lastError == old(lastError)
                && metrics.avgExecutionTime == UpdatedAverage(old(metrics), elapsed)
                && samples == old(samples) + [elapsed] && averageIsMean == old(averageIsMean)
      ensures !(old(isRunning) && old(config).Some? && hook.Returned?) ==>
                (samples, averageIsMean) == (old(samples), false)
      ensures !(old(isRunning) && old(config).Some? && hook.Returned?) ==>
                !r.success && r.message == "Action execution failed" && r.data == map[]
                && r.error == Some(if old(isRunning) && old(config).Some? then hook.error else "Agent not active")
                && errorCount == old(errorCount) + 1 && lastError == r.error
                && metrics.avgExecutionTime == old(metrics.avgExecutionTime)
      ensures !(old(isRunning) && old(config).Some?) ==> action.executedAt == old(action.executedAt)
      ensures metrics.actionsExecuted == old(metrics.actionsExecuted) + 1
      ensures metrics.actionsSuccessful == old(metrics.actionsSuccessful) + (if r.success then 1 else 0)
      ensures metrics.actionsFailed == old(metrics.actionsFailed) + (if r.success then 0 else 1)
      ensures metrics.eventsProcessed == old(metrics.eventsProcessed)
      ensures isRunning == old(isRunning) && config == old(config) && published == old(published)
      ensures startTime == old(startTime) && lastHeartbeat == old(lastHeartbeat)
    {
      var before := metrics;
      var error: string;
      if !isRunning || config.None? {
        error := "Agent not active";
      } else {
        action.status := Executing;
        action.executedAt := Some(now);
        match hook
        case Threw(e) =>
          error := e;
        case Returned(result) =>
          var k := before.actionsExecuted;
          // total_actions is the count after the increment, k + 1
          var average := UpdatedAverage(before, elapsed);
          if averageIsMean {
            UpdatedAverageIsMean(samples, before, elapsed);
          }
          if result.success {
            metrics := Metrics(before.eventsProcessed, k + 1, before.actionsSuccessful + 1,
                               before.actionsFailed, average);
            action.status := Completed;
          } else {
            metrics := Metrics(before.eventsProcessed, k + 1, before.actionsSuccessful,
                               before.actionsFailed + 1, average);
            action.status := Failed;
          }
          samples := samples + [elapsed];
          r := result.(executionTime := Some(elapsed));
          action.result := Some(r);
          return;
      }
      lastError := Some(error);
      errorCount := errorCount + 1;
      metrics := metrics.(actionsExecuted := metrics.actionsExecuted + 1,
                          actionsFailed := metrics.actionsFailed + 1);
      averageIsMean := false;
      r := ActionResult(false, "Action execution failed", map[], Some(error), Some(elapsed));
      action.status := Failed;
      action.result := Some(r);
    }

    /** The health report: status by running flag and error count, plus the counters. */
    function HealthReport(now: Timestamp): (h: HealthStatus)
      reads this
      ensures h.status == AgentHealth(isRunning, errorCount)
      ensures h.errorCount == errorCount && h.lastError == lastError
      ensures h.metrics == MetricsMap(metrics)
      ensures h.uptime == if startTime.Some? then (now - startTime.value) as real else 0.0
      ensures h.lastHeartbeat == if lastHeartbeat.Some? then lastHeartbeat.value else now
    {
      HealthStatus(
        AgentHealth(isRunning, errorCount),
        if lastHeartbeat.Some? then lastHeartbeat.value else now,
        if startTime.Some? then (now - startTime.value) as real else 0.0,
        errorCount,
        lastError,
        MetricsMap(metrics))
    }

    /**
     * Installs the new configuration before the hook runs and keeps it even
     * when the hook fails; a failure is counted and re-raised.
     */
    method ReloadConfig(c: AgentConfig, hook: Completion) returns (r: Completion)
      requires Valid()
      modifies this
      ensures Valid()
      ensures config == Some(c) && r == hook
      ensures hook.Raised? ==> errorCount == old(errorCount) + 1 && lastError == Some(hook.error)
      ensures hook.Done? ==> errorCount == old(errorCount) && lastError == old(lastError)
      ensures isRunning == old(isRunning) && metrics == old(metrics) && published == old(published)
      ensures startTime == old(startTime) && lastHeartbeat == old(lastHeartbeat)
    {
      config := Some(c);
      r := hook;
      if hook.Raised? {
        lastError := Some(hook.error);
        errorCount := errorCount + 1;
      }
    }
  }
}
