# Agent runtime — a Dafny model

This project models the core of an autonomous DevOps agent runtime. Every
agent derives from one base agent. An agent receives platform events, turns
the events it subscribes to into agent actions, executes those actions with
a status lifecycle (pending, executing, completed or failed) and keeps its
health metrics up to date. An agent factory creates agents from their
configurations and manages them. A health monitor runs named checks and
aggregates the results into an overall status.

Four specialised agents are modelled:

- the **incident response agent** correlates alerts into incidents,
  classifies them, picks a runbook, resolves incidents and escalates them;
- the **Terraform agent** parses plan output into resource changes, scores
  drift and decides whether a change needs approval;
- the **Kubernetes agent** analyses deployment metrics, predicts load,
  recommends and executes scaling, and restarts unhealthy deployments;
- the **cost optimisation agent** analyses utilisation, checks budgets,
  forecasts costs and executes optimisation, cleanup and right-sizing.

There is also the small example agent that shows the agent contract.

Each source file is modelled by one or more Dafny modules:

- `Interfaces` (interfaces.dfy) models agents/src/core/interfaces.py;
- `BaseAgents` (base_agent.dfy) models agents/src/core/base_agent.py;
- `Factory` (agent_factory.dfy) models agents/src/core/agent_factory.py;
- `Health` (health_monitor.dfy) models agents/src/core/health_monitor.py;
- `ExampleAgents` (example_agent.dfy) models agents/src/core/example_agent.py;
- `Incidents`, `Runbooks`, `Escalation`, `IncidentAgent` (incidents.dfy, runbooks.dfy, escalation.dfy, incident_agent.dfy) model agents/src/agents/incident_response_agent.py;
- `Terraform` (terraform_agent.dfy) models agents/src/agents/terraform_agent.py;
- `KubernetesAgent` (kubernetes_agent.dfy) models agents/src/agents/kubernetes_agent.py;
- `CostEngine`, `CostAgents` (cost_engine.dfy, cost_agent.dfy) model agents/src/agents/cost_optimization_agent.py.

`Text` and `Seqs` hold the Python built-ins the code relies on:

- `str.split`, `join`, `replace`, `strip`, `lower`, `startswith`;
- `float()` on decimal numerals, and `str()` of integers;
- `max` (which keeps the first maximum), `sorted`;
- the `[-n:]` slice;
- the insertion order of dict keys.

Values are datatypes. The agents, their actions, the factory's registry and
the health monitor are classes: their fields are updated in place by
methods with `modifies` clauses. Loops in the source are `while` loops proved
against recursive specification functions. The following are parameters of
the operations that use them:

- the clock;
- the machine-learning models;
- the cloud, Kubernetes and Terraform APIs;
- the event bus;
- the agents' own `*_specific` hooks.

Two behaviours of the source look surprising. The model keeps them as
written:

- The incident agent looks up its runbook catalog by the catalog key
  (`"service_down"`). A detected incident's action, however, names the runbook
  by its id (`"service_down_basic"`). So an action created on incident
  detection never finds its runbook (`IncidentAgent.DetectedActionFindsNoRunbook`).
- The cost agent raises budget alerts with severity `"warning"` or
  `"info"`. It builds its event's severity from the alert's level, and
  only `"critical"` is a valid severity of the two. So only critical budget
  alerts are ever published
  (`CostAgents.BudgetEvent`, `CostAgents.WarningIsNeverPublished`).

## Model

| member | source | states |
|---|---|---|
| Interfaces.EventTypeValueInjective | agents/src/core/interfaces.py:30-36 | distinct event types have distinct string values, so counts keyed by the value never merge two types |
| Interfaces.RiskLevelValue | agents/src/core/interfaces.py:39-43 | a risk level's value is "low", "medium" or "high", never "critical" |
| Interfaces.RiskLevelsCoverSeverities | agents/src/core/interfaces.py:39-43 | every severity other than "critical" is the value of some risk level |
| Interfaces.IntegrationOfKindIsFirst | agents/src/core/interfaces.py:71-77 | the integration found for a type is the first one of that type in the list, and none is found exactly when no integration has that type |
| Interfaces.NewAgentConfig | agents/src/core/interfaces.py:79-90 | a configuration built from id, name and type is enabled, semi-automatic, requires approval, and has no thresholds and no integrations |
| Interfaces.Threshold | agents/src/core/interfaces.py:86 | a threshold reads the configured value when the key is present and the default otherwise |
| Interfaces.NewSystemEvent | agents/src/core/interfaces.py:93-101 | an event is built exactly when its severity is low, medium, high or critical; a built event carries the given fields and no correlation id |
| Interfaces.Succeeded | agents/src/core/interfaces.py:104-110 | a successful result carries its message and data and no error |
| Interfaces.FailedWith | agents/src/core/interfaces.py:104-110 | a failed result carries its message and error and an empty data dictionary |
| Interfaces.AgentAction.constructor | agents/src/core/interfaces.py:113-125 | a new action is pending, not executed and has no result |
| Interfaces.NewHealthStatus | agents/src/core/interfaces.py:128-135 | a new health report has no errors, no last error and empty metrics |
| BaseAgents.MetricsMap | agents/src/core/base_agent.py:51-57 | the metrics dictionary has exactly the five counters, and executed actions are the successful plus the failed ones |
| BaseAgents.RunningMeanStep | agents/src/core/base_agent.py:212-217 | the update `(avg * (n - 1) + t) / n` turns the mean of the earlier execution times into the mean including the new one |
| BaseAgents.AgentHealth | agents/src/core/base_agent.py:261-269 | the status is offline exactly when the agent is stopped, and healthy exactly when it runs with at most five errors |
| BaseAgents.HealthWorsensWithErrors | agents/src/core/base_agent.py:261-269 | more errors never give a running agent a healthier status |
| BaseAgents.BaseAgent.constructor | agents/src/core/base_agent.py:25-57 | a new agent is stopped, unconfigured, error-free, with zero counters and an average of 0.0 that is the mean of no samples |
| BaseAgents.BaseAgent.Initialize | agents/src/core/base_agent.py:62-80 | the configuration is installed; a failing hook is counted, recorded as the last error and re-raised; nothing else changes |
| BaseAgents.BaseAgent.Start | agents/src/core/base_agent.py:82-114 | a running agent is left alone; without a configuration the start raises and counts the error; otherwise the agent runs from `now` unless the hook raises, in which case it is stopped and the error counted |
| BaseAgents.BaseAgent.Stop | agents/src/core/base_agent.py:116-151 | the agent ends stopped; a failing hook on a running agent is counted but never raised |
| BaseAgents.BaseAgent.ProcessEvent | agents/src/core/base_agent.py:153-182 | an inactive agent ignores the event; an active one counts it, publishes and returns exactly the action the hook produces, and counts a hook failure as an error with no action |
| BaseAgents.BaseAgent.ExecuteAction | agents/src/core/base_agent.py:184-251 | the result succeeds exactly when the agent is active and the hook returns success; the action ends COMPLETED or FAILED with that result; executed = successful + failed advances by one; on the hook-returns path the time joins the samples and the average stays their mean; the exception path counts an error, leaves the average and the samples alone, and stops tracking the average as their mean |
| BaseAgents.BaseAgent.HealthReport | agents/src/core/base_agent.py:253-283 | the report's status follows the running flag and error count, and it carries the uptime since start, the last heartbeat (or now), the errors and the counters |
| BaseAgents.BaseAgent.ReloadConfig | agents/src/core/base_agent.py:285-302 | the new configuration is installed and kept even when the hook fails; a failure is counted and re-raised |
| Factory.AgentFactory.constructor | agents/src/core/agent_factory.py:21-31 | a new factory knows no agent class |
| Factory.AgentFactory.RegisterAgentClass | agents/src/core/agent_factory.py:33-36 | registering a type maps it to the class, replacing an earlier one |
| Factory.AgentFactory.CreateAgent | agents/src/core/agent_factory.py:38-62 | an agent is created exactly when the type is registered and its initialisation succeeds; it is fresh, carries the configuration's id and is initialised with it; an unregistered type raises the "No agent class registered" error |
| Factory.AgentRegistry.constructor | agents/src/core/agent_factory.py:79-82 | a new registry is empty |
| Factory.AgentRegistry.RegisterAgent | agents/src/core/agent_factory.py:84-93 | an id already present keeps its first agent and configuration; a new id is added to both maps |
| Factory.AgentRegistry.UnregisterAgent | agents/src/core/agent_factory.py:95-112 | an unknown id changes nothing; a known agent is stopped and removed from both maps, whatever its stop hook does |
| Factory.AgentRegistry.GetAgent | agents/src/core/agent_factory.py:114-116 | an agent is found exactly when its id is registered |
| Factory.AgentRegistry.GetAgentConfig | agents/src/core/agent_factory.py:118-120 | a configuration is found exactly when its id is registered |
| Factory.AgentRegistry.GetAgentsByType | agents/src/core/agent_factory.py:126-132 | exactly the registered agents whose configuration has the given type |
| Factory.ByTypePartition | agents/src/core/agent_factory.py:126-132 | every registered agent is listed under its own type and under no other |
| Factory.AgentRegistry.GetActiveAgents | agents/src/core/agent_factory.py:134-140 | exactly the registered agents that are running |
| Factory.AgentRegistry.StartAgent | agents/src/core/agent_factory.py:142-149 | an unknown id raises "Agent <id> not found". A running agent gives `Done` and is unchanged. A stopped agent without a configuration raises the not-initialised error and counts it. A stopped, configured agent returns what the start hook did, runs exactly when the hook completes, has its start time and heartbeat set, and counts a raising hook's error as its last error |
| Factory.AgentRegistry.StopAgent | agents/src/core/agent_factory.py:151-158 | an unknown id raises "Agent <id> not found"; a known agent ends stopped |
| Factory.AgentRegistry.StartAllAgents | agents/src/core/agent_factory.py:160-168 | every stopped agent is started with its own hook; failures are contained, errors only grow and configurations stay |
| Factory.AgentRegistry.StopAllAgents | agents/src/core/agent_factory.py:170-178 | every agent ends stopped, so no agent is active afterwards |
| Factory.AgentRegistry.ReloadAgentConfig | agents/src/core/agent_factory.py:180-189 | an unknown id raises "Agent <id> not found"; a known agent gets the new configuration, and the registry records it only when the reload succeeds |
| Factory.AgentRegistry.GetAgentStatusSummary | agents/src/core/agent_factory.py:191-207 | one entry per registered agent. Its name, type, enabled flag and automation level come from the agent's configuration; its running flag, error count and last error come from the agent's state |
| Factory.AgentManager.constructor | agents/src/core/agent_factory.py:216-225 | a new manager has an empty factory and an empty registry |
| Factory.AgentManager.LoadableIds | agents/src/core/agent_factory.py:242-245 | every id the load registers belongs to one of the loaded configurations |
| Factory.AgentManager.LoadAndStartAgents | agents/src/core/agent_factory.py:237-255 | the registry gains exactly the enabled configurations of a registered type whose initialisation succeeds; earlier entries are untouched; each new agent holds its configuration and was started by its start hook |
| Factory.AgentManager.LoadOne | agents/src/core/agent_factory.py:231-249 | one configuration is created, registered and started when it loads, and otherwise leaves the registry as it was |
| Factory.AgentManager.ShutdownAllAgents | agents/src/core/agent_factory.py:257-266 | every agent ends stopped and the registry ends empty |
| Health.Recorded | agents/src/core/health_monitor.py:80-91 | a check that returns contributes its result; one that raises contributes a failed result with no metrics |
| Health.RunChecks | agents/src/core/health_monitor.py:78-91 | one result per registered check, in registration order; a raising check does not stop the rest |
| Health.OverallStatus | agents/src/core/health_monitor.py:93-103 | offline exactly when no check ran, healthy exactly when none failed, degraded exactly when at most half (rounded down) failed, unhealthy otherwise |
| Health.OverallStatusMonotone | agents/src/core/health_monitor.py:93-103 | for a fixed number of checks, more failures never give a healthier status |
| Health.FirstFailure | agents/src/core/health_monitor.py:111 | no message exactly when no check failed; otherwise the message of the first failed result |
| Health.MergedMetricsKeys | agents/src/core/health_monitor.py:83 | the merged metrics have exactly the keys some returned result reports |
| Health.MergedMetricsLastWins | agents/src/core/health_monitor.py:83 | a merged value is the one reported by the last result that has the key |
| Health.Report | agents/src/core/health_monitor.py:105-113 | the report counts the failed checks, takes its status from that count, names the first failure, merges the metrics and has zero uptime |
| Health.ReportErrorAgreement | agents/src/core/health_monitor.py:105-113 | a report counts no errors exactly when it names none, and is healthy exactly when checks ran and none failed |
| Health.SinceMembers | agents/src/core/health_monitor.py:146-150 | the window holds exactly the stored reports whose heartbeat is at or after the cutoff |
| Health.SinceAppend | agents/src/core/health_monitor.py:147-150 | the window distributes over concatenation, so it keeps the history's order |
| Health.HistoryWindow | agents/src/core/health_monitor.py:141-150 | an unknown agent has an empty history; a known one the reports since `now - hours * 3600` |
| Health.Summary | agents/src/core/health_monitor.py:152-183 | an empty window is "unknown"; otherwise the current status and last check are the last report's, uptime is the healthy share times 100, the error average is the mean, and the distribution counts each of the four statuses |
| Health.StatusCountsSum | agents/src/core/health_monitor.py:172-175 | the four status counts of a history add up to its length |
| Health.DistributionSums | agents/src/core/health_monitor.py:172-175 | the summary's distribution accounts for every report exactly once |
| Health.FullUptime | agents/src/core/health_monitor.py:164-166 | an all-healthy window has an uptime of 100 |
| Health.AlertMessage | agents/src/core/health_monitor.py:207-227 | an alert fires exactly when the previous report was healthy and the current is unhealthy, or the last ten are degraded, or more than 50 errors were counted; its message is the first rule's that applies |
| Health.WindowEndsWithCurrent | agents/src/core/health_monitor.py:115-126 | after a report is stored, the last hour's window ends with it, so the first rule compares it with the report before it |
| Health.HealthMonitor.constructor | agents/src/core/health_monitor.py:27-34 | a new monitor has no checks, history or callbacks and is not running |
| Health.HealthMonitor.RegisterHealthCheck | agents/src/core/health_monitor.py:36-39 | a new name is appended; a name registered again keeps its place |
| Health.HealthMonitor.RegisterAlertCallback | agents/src/core/health_monitor.py:41-44 | the callback is appended; nothing else changes |
| Health.HealthMonitor.StartMonitoring | agents/src/core/health_monitor.py:46-54 | the monitor ends running; nothing else changes |
| Health.HealthMonitor.StopMonitoring | agents/src/core/health_monitor.py:56-70 | the monitor ends stopped; nothing else changes |
| Health.HealthMonitor.GetHealthHistory | agents/src/core/health_monitor.py:141-150 | an unknown agent gives no reports; otherwise exactly the stored reports at or after the cutoff |
| Health.HealthMonitor.GetHealthSummary | agents/src/core/health_monitor.py:152-162 | the summary is "unknown" exactly when the last 24 hours hold no report |
| Health.HealthMonitor.PerformHealthCheck | agents/src/core/health_monitor.py:72-128 | the returned report is the one for all registered checks; the agent's history gains it and keeps its last 100; the callbacks are invoked in order exactly when an alert rule fires over the last hour |
| Health.HealthMonitor.RaiseAlert | agents/src/core/health_monitor.py:201-237 | the callbacks are invoked with the message of the first firing rule, and not at all when none fires |
| Health.HealthMonitor.Record | agents/src/core/health_monitor.py:115-123 | the report is appended to the agent's history, which keeps its last 100 |
| Health.HealthMonitor.Notify | agents/src/core/health_monitor.py:229-234 | every callback is invoked once, in order, whatever the earlier ones did |
| Health.RunAll | agents/src/core/health_monitor.py:78-91 | the loop collects exactly the checks' results and merges their metrics left to right |
| Incidents.SeverityRank | agents/src/agents/incident_response_agent.py:233-234 | the rank lies between 1 and 4, is 4 exactly for "critical" in any case, and is 1 for every unknown severity |
| Incidents.HighestAlertIsFirstMax | agents/src/agents/incident_response_agent.py:232-234 | the chosen alert ranks highest and every alert before it ranks strictly lower, as `max` keeps the first maximum |
| Incidents.EarliestIsMin | agents/src/agents/incident_response_agent.py:273 | the detection time is some alert's time and no alert is earlier |
| Incidents.NamedSources | agents/src/agents/incident_response_agent.py:242-245 | a multi-alert title names at most three of the distinct sources |
| Incidents.NamedSourcesFacts | agents/src/agents/incident_response_agent.py:242-245 | the named sources are distinct and each is the source of some alert |
| Incidents.ResourceLabelsMembers | agents/src/agents/incident_response_agent.py:253-258 | the collected labels are exactly the alerts' `resource` and `service` labels |
| Incidents.CreateIncident | agents/src/agents/incident_response_agent.py:230-283 | the incident holds exactly the given alerts and counts them |
| Incidents.CreateIncidentFacts | agents/src/agents/incident_response_agent.py:230-283 | the incident takes the highest alert severity and the earliest alert time, starts open, unescalated and unresolved with no attempts, and has its id built from the time and the title's hash |
| Incidents.AffectedResources | agents/src/agents/incident_response_agent.py:252-260 | the affected resources are the distinct `resource` and `service` labels of the alerts, each once |
| Incidents.SingleAlertIncident | agents/src/agents/incident_response_agent.py:237-239 | a lone alert lends the incident its title and description |
| Incidents.TimeGroupsPartition | agents/src/agents/incident_response_agent.py:123-144 | the grouping loop produces non-empty groups within their 15-minute windows, each new group starting outside the previous window, which concatenate back to the input |
| Incidents.GroupAlertsByTime | agents/src/agents/incident_response_agent.py:118-144 | the groups hold the input's alerts with their multiplicities, sorted by timestamp, and are well grouped |
| Incidents.ThreeAlertsTwoWindows | agents/src/agents/incident_response_agent.py:127-138 | alerts at t, t + 5 min and t + 20 min form the windows [first two] and [last] |
| Incidents.Buckets | agents/src/agents/incident_response_agent.py:164-170 | every bucket is non-empty and holds alert positions of the window |
| Incidents.BucketsPartition | agents/src/agents/incident_response_agent.py:164-170 | the cluster buckets partition the positions: each position lies in exactly one bucket, members carry their bucket's key, keys are distinct, sizes add up |
| Incidents.SameBucketIffSameKey | agents/src/agents/incident_response_agent.py:164-170 | two alerts share a bucket exactly when they share a cluster label other than -1, and a noise alert is alone |
| Incidents.CorrelateGroup | agents/src/agents/incident_response_agent.py:146-183 | one alert gives one incident; without features every alert is its own incident; otherwise one incident per cluster bucket |
| Incidents.CorrelateGroupAlerts | agents/src/agents/incident_response_agent.py:146-183 | a window's incidents hold exactly the window's alerts, each as often as it occurs |
| Incidents.CorrelateGroupCount | agents/src/agents/incident_response_agent.py:146-183 | a window's incidents hold as many alerts as the window |
| Incidents.CorrelateAlerts | agents/src/agents/incident_response_agent.py:97-116 | no alerts give no incidents |
| Incidents.CorrelateAlertsCount | agents/src/agents/incident_response_agent.py:97-112 | the incidents' alert counts add up to the number of input alerts |
| Incidents.CorrelateAlertsPreservesAlerts | agents/src/agents/incident_response_agent.py:97-112 | every input alert lands in the incidents exactly as often as it occurs in the input, and no other alert appears |
| Runbooks.Lookup | agents/src/agents/incident_response_agent.py:578-582 | a runbook is found exactly when the catalog has the key, and it is the one stored under that key |
| Runbooks.CatalogIdsAreNotKeys | agents/src/agents/incident_response_agent.py:454-582 | the catalog is keyed by type name while every runbook id ends in `_basic`, so looking a runbook up by its own id finds nothing |
| Runbooks.FindApplicable | agents/src/agents/incident_response_agent.py:584-595 | the runbooks whose patterns include the incident type, highest success rate first, and exactly those (as a multiset) |
| Runbooks.FindApplicableMembers | agents/src/agents/incident_response_agent.py:584-595 | every result lists the type among its patterns, every such catalog runbook is a result, and there is none exactly when no runbook lists the type |
| Runbooks.CriteriaMetExact | agents/src/agents/incident_response_agent.py:728-740 | the criteria are met exactly when at least 70% of them mention a keyword, decided on whole numbers |
| Runbooks.ThreeCriteria | agents/src/agents/incident_response_agent.py:738-740 | three criteria are met only when all three mention a keyword (two of three is below 70%) |
| Runbooks.ServiceDownCriteria | agents/src/agents/incident_response_agent.py:479-483 | the service-down runbook's criteria are not met: "Health check returns 200" mentions no keyword |
| Runbooks.HighLatencyCriteria | agents/src/agents/incident_response_agent.py:523-527 | the high-latency runbook's criteria are all met |
| Runbooks.ResourceExhaustionCriteria | agents/src/agents/incident_response_agent.py:567-571 | the resource-exhaustion runbook's criteria are not met: "Service is responsive" mentions no keyword |
| Runbooks.SubstitutedNoPlaceholder | agents/src/agents/incident_response_agent.py:676-678 | a command without `{` is left unchanged by the substitution |
| Runbooks.SubstituteSingleKey | agents/src/agents/incident_response_agent.py:676-678 | a command ending in one `{key}` placeholder gets the context value in its place |
| Runbooks.Substitute | agents/src/agents/incident_response_agent.py:676-678 | the loop replaces each context key's placeholder in turn, as the reference substitution does |
| Runbooks.ExecuteStep | agents/src/agents/incident_response_agent.py:661-707 | a step raises exactly when it lacks its type or description; otherwise it succeeds exactly when it has a command, and a missing command is recorded as the error `'command'` with empty output |
| Runbooks.RunStepsInOrder | agents/src/agents/incident_response_agent.py:618-634 | the recorded results are those of the first steps in order; the loop stops only after a failed critical step or a raising step, and otherwise runs every step |
| Runbooks.RunStepsResults | agents/src/agents/incident_response_agent.py:618-620 | the results recorded are those of executing the first steps, one per step, in order |
| Runbooks.RunStepsHalt | agents/src/agents/incident_response_agent.py:622-634 | no more results than steps; a stop follows a failed critical step or a raising step, every earlier step succeeded or was not critical, and a loop that did not stop ran every step |
| Runbooks.NonCriticalStepsAllRun | agents/src/agents/incident_response_agent.py:622-633 | when no step is critical and every step has its keys, all steps run, failures included |
| Runbooks.HaltedStays | agents/src/agents/incident_response_agent.py:626-630 | once the loop has stopped, later steps change nothing |
| Runbooks.RunStepLoop | agents/src/agents/incident_response_agent.py:618-634 | the loop computes the reference step run |
| Runbooks.RunAllStepsResults | agents/src/agents/incident_response_agent.py:716-719 | the rollback raises exactly when some rollback step lacks its type or description; otherwise every rollback step has its result, in order |
| Runbooks.RollbackOf | agents/src/agents/incident_response_agent.py:709-721 | no rollback steps give no record; otherwise one result per rollback step, or the error of a raising step |
| Runbooks.PerformRollback | agents/src/agents/incident_response_agent.py:709-721 | the loop computes the reference rollback |
| Runbooks.ExecutionInvariants | agents/src/agents/incident_response_agent.py:597-659 | a successful execution has no error and met its criteria; an execution with an error failed; a rollback happened only after a critical step failed or a step raised |
| Runbooks.ExecutionStepsInOrder | agents/src/agents/incident_response_agent.py:618-620 | the recorded steps are a prefix of the runbook's steps, in order |
| Runbooks.PlainRunbookExecution | agents/src/agents/incident_response_agent.py:618-642 | a runbook whose steps all have their keys and none is critical runs every step, rolls nothing back, and succeeds exactly when its criteria are met |
| Runbooks.ServiceDownNeverSucceeds | agents/src/agents/incident_response_agent.py:454-494 | executing the default service-down runbook never succeeds |
| Runbooks.HighLatencySucceeds | agents/src/agents/incident_response_agent.py:498-538 | executing the default high-latency runbook always succeeds |
| Runbooks.ResourceExhaustionNeverSucceeds | agents/src/agents/incident_response_agent.py:542-575 | executing the default resource-exhaustion runbook never succeeds |
| Runbooks.RunbookExecutor.constructor | agents/src/agents/incident_response_agent.py:443-449 | a new executor holds the default catalog and no history |
| Runbooks.RunbookExecutor.ExecuteRunbook | agents/src/agents/incident_response_agent.py:597-659 | the execution is the reference one and is appended to the history |
| Escalation.Duration | agents/src/agents/incident_response_agent.py:783-788 | an incident's age runs from detection to its resolution if it has one, else to now |
| Escalation.FirstFiring | agents/src/agents/incident_response_agent.py:792-802 | the rule found fires and no earlier rule fires; none is found exactly when no rule fires |
| Escalation.ShouldEscalate | agents/src/agents/incident_response_agent.py:790-802 | no escalation comes with an empty rule name |
| Escalation.ShouldEscalateFirstRule | agents/src/agents/incident_response_agent.py:790-802 | escalation happens exactly when some rule's condition holds and the incident is at least as old as its delay, under the name of the first such rule |
| Escalation.CriticalEscalatesImmediately | agents/src/agents/incident_response_agent.py:757-762 | a critical incident escalates at once under the critical rule |
| Escalation.HighSeverityWaitsFiveMinutes | agents/src/agents/incident_response_agent.py:763-768 | a high-severity incident that no other rule catches escalates exactly once it is five minutes old, under the high-severity rule |
| Escalation.OpenIncidentWaitsFifteenMinutes | agents/src/agents/incident_response_agent.py:769-774 | an open low-severity incident not resolved by automation escalates exactly once it is fifteen minutes old, under the failed-automation rule |
| Escalation.NegativeAgeNeverEscalates | agents/src/agents/incident_response_agent.py:756-781 | an incident whose age is negative never escalates |
| Escalation.NotificationFor | agents/src/agents/incident_response_agent.py:845-864 | a channel's notice succeeds exactly when its send did; a successful notice carries the escalation message, a failed one the error |
| Escalation.Notices | agents/src/agents/incident_response_agent.py:842-866 | one notice per channel (slack, email, pagerduty), in that order |
| Escalation.SendNotifications | agents/src/agents/incident_response_agent.py:837-866 | the loop produces the reference notices; a raising send is recorded and the loop goes on |
| Escalation.Escalated | agents/src/agents/incident_response_agent.py:815-818 | the incident is marked escalated with the reason and the time, and keeps its id, status, severity and attempts |
| Escalation.EscalationOf | agents/src/agents/incident_response_agent.py:804-827 | the escalation reports success, one notice per channel, the incident id, the reason and the time |
| Escalation.EscalateIncident | agents/src/agents/incident_response_agent.py:804-835 | returns the escalated incident and the reference escalation record |
| Escalation.EscalationSucceedsWhenEverySendFails | agents/src/agents/incident_response_agent.py:821-823 | the escalation reports success even when every channel failed, since a failed notice still counts |
| IncidentAgent.AlertOf | agents/src/agents/incident_response_agent.py:1059-1074 | the alert is named after the event, takes its source, severity, time and data, is titled "<event type> detected" and labelled with the event type |
| IncidentAgent.Classified | agents/src/agents/incident_response_agent.py:1108-1111 | the incident keeps its id, severity and alerts and records the classifier's type and confidence |
| IncidentAgent.DetectionEvent | agents/src/agents/incident_response_agent.py:1121-1143 | the announcement is an incident-detected event from the agent with the incident's severity. Its data holds exactly the id, type, confidence, affected resources and alert count, plus a nested `incident_data` with the title, the description and the detection time |
| IncidentAgent.DetectionEvents | agents/src/agents/incident_response_agent.py:1100-1146 | at most one announcement per new incident; an incident whose severity is not one of the four levels is never announced |
| IncidentAgent.AdmittedContents | agents/src/agents/incident_response_agent.py:1091-1106 | every new incident ends up active under its own id, and nothing active before is lost |
| IncidentAgent.NamedIncident | agents/src/agents/incident_response_agent.py:1152-1157 | an event names an incident exactly when its `incident_id` is a non-empty string, and then only an active one |
| IncidentAgent.NamedType | agents/src/agents/incident_response_agent.py:1153 | a missing `incident_type` reads as "unknown" |
| IncidentAgent.ResolutionRisk | agents/src/agents/incident_response_agent.py:1196-1204 | high exactly for critical incidents, medium exactly for other high-severity incidents or high-risk runbooks, low otherwise |
| IncidentAgent.ResolutionAction | agents/src/agents/incident_response_agent.py:1173-1188 | the action resolves the incident, targets its affected resources, carries the assessed risk and names the incident and the runbook in its metadata |
| IncidentAgent.ActionForDetection | agents/src/agents/incident_response_agent.py:1148-1194 | an action exactly when the event names an active incident, auto-resolution is on and some runbook lists the type |
| IncidentAgent.ActionUsesBestRunbook | agents/src/agents/incident_response_agent.py:1166-1185 | the proposed runbook lists the type and has the best success rate of all that do |
| IncidentAgent.ServiceName | agents/src/agents/incident_response_agent.py:1306-1308 | the incident's `service` metadata wins over its resources |
| IncidentAgent.FirstServiceLike | agents/src/agents/incident_response_agent.py:1300-1304 | the first resource mentioning "service" or "deployment" in any case, else "unknown" |
| IncidentAgent.ExecutionContext | agents/src/agents/incident_response_agent.py:1291-1310 | the context holds the incident id, the service name and replica counts 3 and 2, in that key order |
| IncidentAgent.ResolvedIncident | agents/src/agents/incident_response_agent.py:1236-1242 | a resolved incident is marked resolved now by automation and lists the executed steps' descriptions in order |
| IncidentAgent.AfterFailure | agents/src/agents/incident_response_agent.py:1257-1270 | a failed attempt is counted with its time and error, and escalation is forced once the attempts reach the maximum while escalation is enabled |
| IncidentAgent.SweptFacts | agents/src/agents/incident_response_agent.py:1315-1324 | the sweep leaves an escalated incident alone and escalates any other exactly when a rule fires, under that rule's name |
| IncidentAgent.SweptIdempotent | agents/src/agents/incident_response_agent.py:1315-1324 | sweeping twice at the same time is sweeping once |
| IncidentAgent.IncidentResponseAgent.constructor | agents/src/agents/incident_response_agent.py:877-898 | a new agent has no incidents and no alerts, a 60-second correlation interval, auto-resolution and escalation on, three attempts, the default runbooks and the default escalation rules |
| IncidentAgent.IncidentResponseAgent.Initialize | agents/src/agents/incident_response_agent.py:900-930 | it raises exactly when there is no configuration; otherwise it builds a fresh executor and reads the four settings from the thresholds with their defaults |
| IncidentAgent.IncidentResponseAgent.ProcessEvent | agents/src/agents/incident_response_agent.py:976-990 | an incident-detected event yields the detection action; an anomaly or drift event is buffered as its alert; other events change nothing |
| IncidentAgent.IncidentResponseAgent.ProcessAlertBuffer | agents/src/agents/incident_response_agent.py:1079-1098 | the buffered alerts are correlated, each incident becomes active and is announced, and the buffer is emptied; an empty buffer changes nothing |
| IncidentAgent.IncidentResponseAgent.ProcessNewIncidents | agents/src/agents/incident_response_agent.py:1091-1092 | the active map and the announcements are the reference ones for the incidents, in order |
| IncidentAgent.IncidentResponseAgent.Admit | agents/src/agents/incident_response_agent.py:1100-1119 | one incident becomes active, classified, under its id |
| IncidentAgent.IncidentResponseAgent.ExecuteAction | agents/src/agents/incident_response_agent.py:992-1009 | a resolution action is executed as the resolution outcome says; any other type is refused and changes nothing |
| IncidentAgent.IncidentResponseAgent.ExecuteIncidentResolution | agents/src/agents/incident_response_agent.py:1206-1289 | a missing, empty or unknown incident id fails as "Incident not found"; a non-empty list or dictionary id raises "unhashable type" (naming `list` or `dict`), caught as a failed resolution; either way nothing changes. Settings, alert buffer and published events are never touched |
| IncidentAgent.IncidentResponseAgent.ResolveWithRunbook | agents/src/agents/incident_response_agent.py:1218-1226 | any list or dictionary runbook id raises "unhashable type", caught; an id naming no runbook fails as "Runbook not found"; both change nothing |
| IncidentAgent.IncidentResponseAgent.RunResolution | agents/src/agents/incident_response_agent.py:1228-1282 | the runbook is executed once and joins the history; success resolves and retires the incident, failure counts the attempt and may escalate; the result's data carries the execution record |
| IncidentAgent.IncidentResponseAgent.Retire | agents/src/agents/incident_response_agent.py:1236-1256 | the incident leaves the active set and joins the resolved ones; the result names the incident, the runbook, the execution record and the resolution time |
| IncidentAgent.IncidentResponseAgent.CountFailure | agents/src/agents/incident_response_agent.py:1258-1282 | the incident is replaced by its counted, possibly escalated, version; the result carries the execution's error, the execution record and the attempt count |
| Runbooks.ExecutionData | agents/src/agents/incident_response_agent.py:602-612 | the execution dictionary holds exactly its ids, success, step results, error and rollback flag, plus the rollback steps exactly when a rollback ran |
| Runbooks.StepResultData | agents/src/agents/incident_response_agent.py:664-672 | a step's dictionary holds exactly its type, description, success, output and error |
| Runbooks.StepsData | agents/src/agents/incident_response_agent.py:620 | the step list holds one dictionary per step result, in order |
| IncidentAgent.IncidentResponseAgent.SweepOne | agents/src/agents/incident_response_agent.py:1316-1324 | one iteration of the sweep computes the reference sweep of the incident |
| IncidentAgent.IncidentResponseAgent.CheckIncidentsForEscalation | agents/src/agents/incident_response_agent.py:1312-1324 | every active incident is swept once and no incident is added or removed |
| IncidentAgent.IncidentResponseAgent.SweepAll | agents/src/agents/incident_response_agent.py:1315-1324 | the loop sweeps every incident of the map exactly once |
| IncidentAgent.DetectedActionFindsNoRunbook | agents/src/agents/incident_response_agent.py:1209-1227 | an action proposed at detection stores the runbook's id while resolution looks runbooks up by catalog key, so with the default catalog its execution always reports the runbook as not found |
| IncidentAgent.RunbookIdIsNoKey | agents/src/agents/incident_response_agent.py:578-595 | no runbook found for any type has an id that is a catalog key |
| Terraform.KindOf | agents/src/agents/terraform_agent.py:105-121 | a line classified as a detail starts with `~`, `+` or `-` |
| Terraform.ParsePlanChanges | agents/src/agents/terraform_agent.py:96-124 | the parsing loop, remembering the index of the most recent change, computes the reference parse of the plan output |
| Terraform.ParseNextLine | agents/src/agents/terraform_agent.py:104-122 | one iteration applies the reference step to the line and keeps the index of the most recent change |
| Terraform.ParseHeaderLine | agents/src/agents/terraform_agent.py:108-119 | a stripped line starting with `# ` and containing ` will be ` opens a change exactly when it splits into two parts, and the index then names that new change; either way the result is the reference step |
| Terraform.ParseDetailLine | agents/src/agents/terraform_agent.py:121-122 | any other line is appended to the most recent change's details when there is one and the line starts with `~`, `+` or `-`; the result is the reference step |
| Terraform.ParseHeads | agents/src/agents/terraform_agent.py:104-119 | exactly one change per header line (`# <resource> will be <action>`), with that line's resource and action, in the order of the lines |
| Terraform.ParseKeepsDetailsMarked | agents/src/agents/terraform_agent.py:121-122 | every line recorded as a detail starts with `~`, `+` or `-` |
| Terraform.NoHeaderNoChange | agents/src/agents/terraform_agent.py:121 | lines without a header yield no change: details before the first header have nothing to attach to |
| Terraform.PreambleIgnored | agents/src/agents/terraform_agent.py:101-121 | whatever precedes the first header line is ignored |
| Terraform.DriftOf | agents/src/agents/terraform_agent.py:68-90 | drift is detected exactly when the plan's exit code is 2; the changes are recorded exactly then and are the parsed plan output |
| Terraform.DetectDrift | agents/src/agents/terraform_agent.py:68-94 | the record built from a plan run is the reference drift record |
| Terraform.DriftSeverityTiers | agents/src/agents/terraform_agent.py:508-525 | any destruction is critical; otherwise more than 5 creations or 10 modifications is high, more than 2 or 5 is medium, else low |
| Terraform.SeverityGrowsWithChanges | agents/src/agents/terraform_agent.py:508-525 | more changes never make drift less severe |
| Terraform.DriftFrequency | agents/src/agents/terraform_agent.py:600-602 | the frequency lies between 0 and 1 |
| Terraform.FeaturesOf | agents/src/agents/terraform_agent.py:586-614 | the features count the changes, assume 24 hours since the last apply, bound the modify and external counts by the change count, and cap complexity at 5 (reached exactly at 50 changes) |
| Terraform.ShortHistoryFrequency | agents/src/agents/terraform_agent.py:601-602 | with fewer than ten checks the frequency is at most their number over ten, as it always divides by ten |
| Terraform.SteadyDriftFrequency | agents/src/agents/terraform_agent.py:601-602 | ten drifting checks in a row give frequency one |
| Terraform.PredictedSuccess | agents/src/agents/terraform_agent.py:568-584 | without a model the probability is 0.5; otherwise it is the model's prediction on the features |
| Terraform.TargetResources | agents/src/agents/terraform_agent.py:616-619 | one target per change with a non-empty resource, and none empty |
| Terraform.TargetResourcesMembers | agents/src/agents/terraform_agent.py:616-619 | the targets are exactly the non-empty resources of the changes |
| Terraform.TargetResourcesAppend | agents/src/agents/terraform_agent.py:619 | the targets keep the order of the changes |
| Terraform.ImpactParts | agents/src/agents/terraform_agent.py:628-638 | at most three phrases, and none exactly when nothing is destroyed, created or modified |
| Terraform.ImpactOf | agents/src/agents/terraform_agent.py:625-626 | no changes read "No changes detected" |
| Terraform.ImpactSplitsIntoPhrases | agents/src/agents/terraform_agent.py:632-640 | the estimate splits back on "; " into its phrases, in the order destroyed, created, modified |
| Terraform.ImpactEmptyIff | agents/src/agents/terraform_agent.py:621-640 | for a non-empty change list the estimate is empty exactly when no change is destroyed, created or modified |
| Terraform.InPlaceUpdateGoesUncounted | agents/src/agents/terraform_agent.py:513-515 | a change "updated in-place" counts as none of destroyed, created or modified |
| Terraform.UncountedChangeIsInvisible | agents/src/agents/terraform_agent.py:508-640 | a change none of the three words describe raises no severity and shows in no impact phrase |
| Terraform.DriftRisk | agents/src/agents/terraform_agent.py:536-545 | applying is low risk; a plan is medium risk above probability 0.5 and high otherwise |
| Terraform.DriftAction | agents/src/agents/terraform_agent.py:527-562 | the action applies exactly under full automation with probability above the threshold, else plans; its risk, id, targets and impact follow the drift; its metadata holds exactly the event's data as `drift_info`, the confidence and the event id |
| Terraform.MoreConfidenceNeverRaisesRisk | agents/src/agents/terraform_agent.py:536-545 | a higher probability never raises the risk of the action chosen for the same drift |
| Terraform.DriftData | agents/src/agents/terraform_agent.py:79-88 | the drift dictionary holds exactly whether drift was detected, both outputs, the exit code and the time, plus the parsed changes exactly when drift was detected |
| Terraform.ChangeData | agents/src/agents/terraform_agent.py:114-118 | a parsed change is the dictionary of exactly its resource, its action and its detail lines |
| Terraform.ChangesData | agents/src/agents/terraform_agent.py:96-124 | the change list holds one dictionary per change, in order |
| Terraform.DriftEvent | agents/src/agents/terraform_agent.py:492-505 | the event is an infrastructure-drift event from the agent, its severity assessed from the changes |
| Terraform.TerraformAgent.constructor | agents/src/agents/terraform_agent.py:303-323 | a new agent has no monitor, no model, no history, no pending plans, a 300-second interval and a 0.8 threshold |
| Terraform.TerraformAgent.Initialize | agents/src/agents/terraform_agent.py:325-372 | it raises without a configuration or without a non-empty Terraform integration, and succeeds otherwise, setting up the monitor, the model, the workspace path and the two thresholds with their defaults |
| Terraform.TerraformAgent.CheckForDrift | agents/src/agents/terraform_agent.py:466-490 | without a monitor, or when the plan raises, nothing changes; otherwise the check is recorded, the history keeps its last 100, and drift is announced exactly when detected |
| Terraform.TerraformAgent.RecordDrift | agents/src/agents/terraform_agent.py:476-487 | the drift joins the history, which keeps its last 100; the check time is set; drift is announced exactly when detected |
| Terraform.TerraformAgent.ProcessEvent | agents/src/agents/terraform_agent.py:404-414 | only a drift event yields an action, the drift action for the predicted probability |
| Terraform.TerraformAgent.ExecuteTerraformPlan | agents/src/agents/terraform_agent.py:642-681 | `PlanOutcome`: without a monitor or when the plan raises it fails and stores nothing; without drift it succeeds and stores nothing; with drift it stores the plan under its id and returns the id, the plan output and the parsed changes; it succeeds exactly when the monitor exists and the plan ran |
| Terraform.TerraformAgent.ExecuteAction | agents/src/agents/terraform_agent.py:416-435 | a plan returns exactly what the plan execution returns and stores the same pending plan (`PlanOutcome`: the two failures, the no-drift success and the stored plan with its id, output and changes), succeeding exactly when the monitor exists and the plan ran; an apply reports the apply's outcome (or fails without a monitor); any other type is refused and changes nothing |
| KubernetesAgent.Key | agents/src/agents/kubernetes_agent.py:829-831 | a deployment key is the namespace, a `/`, then the deployment name |
| Interfaces.GetOr | agents/src/agents/kubernetes_agent.py:223-225 | a dictionary lookup yields the stored value when the key is present and the default otherwise |
| KubernetesAgent.CpuCores | agents/src/agents/kubernetes_agent.py:227-231 | a CPU quantity that parses is a non-negative number of cores |
| KubernetesAgent.UnitOf | agents/src/agents/kubernetes_agent.py:233-240 | a memory unit other than bytes comes from a two-character suffix |
| KubernetesAgent.ToMebibytes | agents/src/agents/kubernetes_agent.py:233-240 | converting a non-negative amount to MiB keeps it non-negative |
| KubernetesAgent.MemoryMi | agents/src/agents/kubernetes_agent.py:233-240 | a memory quantity that parses is a non-negative number of MiB |
| KubernetesAgent.NumeralHasNoSuffix | agents/src/agents/kubernetes_agent.py:228-240 | a plain numeral carries none of the suffixes `m`, `Ki`, `Mi`, `Gi`, so it takes the unit-less branch |
| KubernetesAgent.CpuMillicores | agents/src/agents/kubernetes_agent.py:228-229 | `<n>m` is n/1000 cores |
| KubernetesAgent.CpuWholeCores | agents/src/agents/kubernetes_agent.py:230-231 | a plain numeral n is n cores |
| KubernetesAgent.MemoryKibibytes | agents/src/agents/kubernetes_agent.py:234-235 | `<n>Ki` is n/1024 MiB |
| KubernetesAgent.MemoryMebibytes | agents/src/agents/kubernetes_agent.py:236-237 | `<n>Mi` is n MiB |
| KubernetesAgent.MemoryGibibytes | agents/src/agents/kubernetes_agent.py:238-239 | `<n>Gi` is n*1024 MiB |
| KubernetesAgent.MemoryBytes | agents/src/agents/kubernetes_agent.py:240-241 | a plain numeral n is n bytes, that is n/(1024*1024) MiB |
| KubernetesAgent.UsageOf | agents/src/agents/kubernetes_agent.py:223-241 | one container's usage parses exactly when both its CPU and its memory quantity parse, an absent quantity reading as "0" |
| KubernetesAgent.SumUsageDefined | agents/src/agents/kubernetes_agent.py:222-241 | the pod's totals exist exactly when every container's usage parses |
| KubernetesAgent.SumUsageUndefined | agents/src/agents/kubernetes_agent.py:222-241 | a single container whose usage does not parse makes the whole pod fail |
| KubernetesAgent.SumUsageAppend | agents/src/agents/kubernetes_agent.py:218-241 | usage is additive: the totals of two lists of containers add up to the totals of their concatenation |
| KubernetesAgent.SumUsageStep | agents/src/agents/kubernetes_agent.py:222-241 | one more container adds its cores and MiB to the running totals |
| KubernetesAgent.PodMetrics | agents/src/agents/kubernetes_agent.py:213-256 | a pod yields a record exactly when its containers' usage parses; the record has the current time, one pod, the namespace (default "default"), the name (default "unknown") and the summed cores and MiB |
| KubernetesAgent.AccumulateUsage | agents/src/agents/kubernetes_agent.py:218-241 | the summing loop over the containers computes the reference totals, failing as soon as one container does not parse |
| KubernetesAgent.ParsePodMetrics | agents/src/agents/kubernetes_agent.py:213-256 | the parsing method yields exactly the reference pod record |
| KubernetesAgent.RelativeChange | agents/src/agents/kubernetes_agent.py:894-900 | the relative change of a request is never negative |
| KubernetesAgent.SmallChangeIsRelative | agents/src/agents/kubernetes_agent.py:894-900 | a request change counts as small exactly when its relative change, divided by the larger of the old value and the floor, is below 0.1 |
| KubernetesAgent.ShouldScale | agents/src/agents/kubernetes_agent.py:885-890 | a recommendation below the confidence threshold never scales |
| KubernetesAgent.ShouldScaleIff | agents/src/agents/kubernetes_agent.py:885-913 | the gate opens exactly when confidence reaches the threshold, and an unchanged replica count comes with a request change of at least 10%, and no decision for the deployment lies within the last 300 seconds |
| KubernetesAgent.ReplicaChangeNeedsNoParsing | agents/src/agents/kubernetes_agent.py:891-903 | with a changed replica count the gate never raises, since the request strings are not parsed |
| KubernetesAgent.CooldownBlocks | agents/src/agents/kubernetes_agent.py:905-911 | a decision recorded for the deployment less than 300 seconds ago keeps the gate shut |
| KubernetesAgent.CooldownExpires | agents/src/agents/kubernetes_agent.py:905-913 | a decision 300 or more seconds old has the same effect as no decision at all |
| KubernetesAgent.ScalingSeverity | agents/src/agents/kubernetes_agent.py:934-943 | a scaling event is never critical |
| KubernetesAgent.ScalingSeverityIsRatio | agents/src/agents/kubernetes_agent.py:934-943 | the integer tiers (high iff d >= b, medium iff b/2 < d < b, low otherwise, with d the replica change and b the larger of the current count and 1) are exactly the tiers of the ratio d / b against 1.0 and 0.5 |
| KubernetesAgent.ScalingSeverityExamples | agents/src/agents/kubernetes_agent.py:934-943 | 2 to 5 and 2 to 4 replicas are high, 3 to 5 is medium, no change is low |
| KubernetesAgent.ScalingRisk | agents/src/agents/kubernetes_agent.py:950-958 | the risk is low exactly in full automation with confidence above 0.8, and high exactly when confidence is at most 0.6 |
| KubernetesAgent.MoreConfidenceNeverRaisesRisk | agents/src/agents/kubernetes_agent.py:950-958 | at any automation level, a higher confidence never gives a higher risk |
| KubernetesAgent.ScalingAction | agents/src/agents/kubernetes_agent.py:945-973 | a scaling action is a Kubernetes scale by this agent, at the risk above, targets the recommendation's key, and has the timestamped id and the event id |
| KubernetesAgent.RestartAction | agents/src/agents/kubernetes_agent.py:981-1000 | a restart action is a Kubernetes restart at medium risk; it targets `namespace/deployment` from the event data (defaults "default" and "unknown") and has the timestamped id and the event id |
| KubernetesAgent.KeySplitsBack | agents/src/agents/kubernetes_agent.py:1090-1091 | a target key built from a namespace and a name without `/` splits back into exactly those two |
| KubernetesAgent.StepResultReportsSuccess | agents/src/agents/kubernetes_agent.py:1036-1046 | a step's result line contains "success" exactly when the step succeeded |
| KubernetesAgent.ReplicaStepFailedLine | agents/src/agents/kubernetes_agent.py:1036 | a failed replica-scaling line does not contain "success" |
| KubernetesAgent.ResourceStepFailedLine | agents/src/agents/kubernetes_agent.py:1046 | a failed resource-update line does not contain "success" |
| KubernetesAgent.ScalingResults | agents/src/agents/kubernetes_agent.py:1028-1046 | a replica line appears exactly when the replica count changes |
| KubernetesAgent.ScalingSucceedsIff | agents/src/agents/kubernetes_agent.py:1028-1061 | a scaling action succeeds exactly when every step it had to take succeeded; with nothing to change it succeeds |
| KubernetesAgent.ReplicasOfFirst | agents/src/agents/kubernetes_agent.py:1093-1098 | the replica count is the first listed deployment with that name, or 1 when none has it |
| KubernetesAgent.Latest | agents/src/agents/kubernetes_agent.py:855-856 | the latest metric is one of the collected metrics |
| KubernetesAgent.LatestIsFirstMax | agents/src/agents/kubernetes_agent.py:855-856 | no metric is newer, and every metric before it is strictly older, as `max` keeps the first maximum |
| KubernetesAgent.RetainedMembers | agents/src/agents/kubernetes_agent.py:865-870 | the retained history holds exactly the metrics newer than a day before now |
| KubernetesAgent.RetainedAppend | agents/src/agents/kubernetes_agent.py:862-870 | retaining keeps the order: the retained history of a concatenation is the concatenation of the retained parts |
| KubernetesAgent.ScalingEvent | agents/src/agents/kubernetes_agent.py:915-929 | a scaling event is a scaling request from this agent; its severity is the scaling severity, never critical; it names the deployment key |
| KubernetesAgent.EventsFor | agents/src/agents/kubernetes_agent.py:876-881 | one analysis publishes one event when the gate opens and none otherwise |
| KubernetesAgent.KeysOf | agents/src/agents/kubernetes_agent.py:829-830 | there is one key per collected metric |
| KubernetesAgent.KeysOfIndex | agents/src/agents/kubernetes_agent.py:829-830 | the key at each position is the `namespace/deployment` of the metric there |
| KubernetesAgent.Group | agents/src/agents/kubernetes_agent.py:829-833 | a deployment's group is no longer than the collected metrics |
| KubernetesAgent.GroupMembers | agents/src/agents/kubernetes_agent.py:829-833 | a group holds exactly the metrics whose key it is filed under |
| KubernetesAgent.GroupsPartition | agents/src/agents/kubernetes_agent.py:828-833 | over distinct keys covering every metric, the group sizes add up to the number of metrics, so every metric lands in exactly one group |
| KubernetesAgent.GroupSizesEmpty | agents/src/agents/kubernetes_agent.py:828 | with no metrics every group is empty |
| KubernetesAgent.GroupSizesStep | agents/src/agents/kubernetes_agent.py:829-833 | one more metric grows exactly the one group of its key |
| KubernetesAgent.GroupingStep | agents/src/agents/kubernetes_agent.py:829-833 | one more metric appends its key to the key list and itself to its key's group |
| KubernetesAgent.DedupSnoc | agents/src/agents/kubernetes_agent.py:831-832 | a key is added to the dictionary's key order exactly when it is new |
| KubernetesAgent.UnseenKeyHasNoGroup | agents/src/agents/kubernetes_agent.py:829-833 | a key that no metric carries has no group |
| KubernetesAgent.KeysStep | agents/src/agents/kubernetes_agent.py:829-832 | after metric i the key order gains its key exactly when the key is new |
| KubernetesAgent.GroupStep | agents/src/agents/kubernetes_agent.py:829-833 | after metric i its key's group is the group so far (empty for a new key) followed by the metric |
| KubernetesAgent.OtherGroupsStep | agents/src/agents/kubernetes_agent.py:829-833 | filing metric i leaves the groups of other keys as they were |
| KubernetesAgent.GroupedStep | agents/src/agents/kubernetes_agent.py:829-833 | filing metric i into a correct grouping of the first i metrics gives a correct grouping of the first i+1 |
| KubernetesAgent.GroupByDeployment | agents/src/agents/kubernetes_agent.py:827-833 | the grouping loop yields the keys in order of first appearance, and under each key exactly that key's metrics in order, never empty |
| KubernetesAgent.AnalysisEvents | agents/src/agents/kubernetes_agent.py:835-837 | analysing the groups publishes at most one event per key |
| KubernetesAgent.AnalysisEventsStep | agents/src/agents/kubernetes_agent.py:835-837 | analysing one more key with metrics appends that key's events |
| KubernetesAgent.HistoryAfterStep | agents/src/agents/kubernetes_agent.py:835-837 | analysing one more key with metrics updates only that key's history |
| KubernetesAgent.HistoryAfterOutside | agents/src/agents/kubernetes_agent.py:835-837 | a key that is not analysed keeps its history entry, or its absence |
| KubernetesAgent.HistoryAfterSpec | agents/src/agents/kubernetes_agent.py:835-870 | after the sweep over distinct keys, each key with metrics has its earlier history plus its group, trimmed to a day; every other entry is unchanged; no other key appears |
| KubernetesAgent.NextKeyUnanalysed | agents/src/agents/kubernetes_agent.py:835-837 | with distinct keys, the next key's history is still the one from before the sweep |
| KubernetesAgent.AnalysisEventsAreScalingRequests | agents/src/agents/kubernetes_agent.py:835-837 | every event a sweep publishes is a scaling request from this agent and is never critical |
| KubernetesAgent.KubernetesAgent.constructor | agents/src/agents/kubernetes_agent.py:661-681 | a new agent has no collector, model or scaler, checks every 60 seconds with threshold 0.7, and has empty histories and no decisions |
| KubernetesAgent.KubernetesAgent.Initialize | agents/src/agents/kubernetes_agent.py:683-723 | it raises without a configuration or without a non-empty Kubernetes integration, changing nothing. Otherwise it builds the collector and returns what the collector's connection does: a failed connection is re-raised with no model, scaler or threshold set; a successful one sets the model, the scaler and both thresholds, read with defaults 60 and 0.7 |
| KubernetesAgent.KubernetesAgent.ProcessEvent | agents/src/agents/kubernetes_agent.py:755-767 | a scaling request yields the scaling action, or nothing when its recommendation does not decode; a resource anomaly yields the restart action; a type outside the subscribed list (802-804) yields nothing |
| KubernetesAgent.KubernetesAgent.AnalyzeDeployment | agents/src/agents/kubernetes_agent.py:848-883 | with no metrics nothing changes. Otherwise the key's history becomes its earlier history plus the metrics, trimmed to a day; the model sees the latest metric and that history; at most one scaling event is published, exactly when the gate opens |
| KubernetesAgent.KubernetesAgent.CollectAndAnalyze | agents/src/agents/kubernetes_agent.py:819-846 | without a collector and a model nothing changes. Otherwise each deployment's group is analysed in order of first appearance; the histories and the published events are those of that sweep; decisions and scaling history are untouched |
| KubernetesAgent.KubernetesAgent.ExecuteScaling | agents/src/agents/kubernetes_agent.py:1008-1078 | `ScalingOutcome`: it fails without a scaler, or when the recommendation does not decode, and then records nothing. Otherwise it records the decision time for the key, scales and updates requests only where they change, appends a record keeping the last 100, and succeeds exactly when every step line reports success; its data holds the new record and the recommendation's dictionary |
| KubernetesAgent.KubernetesAgent.ApplyRecommendation | agents/src/agents/kubernetes_agent.py:1026-1072 | with a scaler and a decoded recommendation: the decision time is recorded for its key, the steps run where something changes, the record joins the history keeping its last 100, and the result succeeds exactly when every step succeeded and carries the record and the recommendation |
| KubernetesAgent.KubernetesAgent.ScalingSteps | agents/src/agents/kubernetes_agent.py:1026-1046 | the replica step runs only when the replica count changes, the request step only when a request changes, in that order, and each reports its outcome |
| KubernetesAgent.KubernetesAgent.RecordScaling | agents/src/agents/kubernetes_agent.py:1048-1072 | the record joins the history, which keeps its last 100, and the result carries the record, the recommendation and the joined step lines |
| KubernetesAgent.ScalingRecordData | agents/src/agents/kubernetes_agent.py:1049-1055 | the record's dictionary holds exactly its time, deployment key, action id, recommendation and result lines |
| KubernetesAgent.RecommendationDataKeys | agents/src/agents/kubernetes_agent.py:63-75 | a recommendation's dictionary is keyed by exactly its eleven field names |
| KubernetesAgent.KubernetesAgent.RestartResult | agents/src/agents/kubernetes_agent.py:1080-1136 | it fails without a scaler, with no target (the IndexError), or with a target that is not exactly `namespace/name` (the unpacking error). Otherwise it succeeds exactly when scaling to 0 and back to the listed replica count (1 if unlisted) both succeed, with the source's message for each failure and the original replica count on success |
| KubernetesAgent.KubernetesAgent.ExecuteRestart | agents/src/agents/kubernetes_agent.py:1080-1136 | the restart's steps in the source's order give exactly `RestartResult` |
| KubernetesAgent.KubernetesAgent.ExecuteAction | agents/src/agents/kubernetes_agent.py:769-788 | a scale action returns exactly the scaling outcome (`ScalingOutcome`: the two failures that record nothing, or the applied recommendation with its record and data), a restart exactly `RestartResult`; any other type fails as unsupported and changes nothing; only a scale can record a decision, and only for its own deployment |
| CostEngine.ProviderNamed | agents/src/agents/cost_optimization_agent.py:384-389 | a provider is registered exactly for the names aws, azure and gcp, and it carries that name as its value |
| CostEngine.RightSizingFor | agents/src/agents/cost_optimization_agent.py:159-185 | a right-sizing for an under-used resource targets that resource alone. It saves half of 30 days of its hourly cost, has confidence 0.85, low risk and medium priority, can be rolled back, and has a timestamped id |
| CostEngine.StorageFor | agents/src/agents/cost_optimization_agent.py:188-211 | a storage optimization targets the resource alone. It saves a fifth of 30 days of its hourly cost, has confidence 0.75, low risk and low priority, can be rolled back, and has a timestamped id |
| CostEngine.RecommendationsFor | agents/src/agents/cost_optimization_agent.py:157-211 | one resource yields one right-sizing exactly when CPU or memory use is below the low threshold, and one storage optimization exactly when storage use is below 30%; all are low risk on that resource |
| CostEngine.AnalyzeUtilization | agents/src/agents/cost_optimization_agent.py:154-221 | the analysis loop yields the recommendations of every resource, in order |
| CostEngine.RecommendationsAppend | agents/src/agents/cost_optimization_agent.py:157-213 | analysing more data appends its recommendations after the earlier ones |
| CostEngine.RecommendationCounts | agents/src/agents/cost_optimization_agent.py:157-213 | there are exactly as many right-sizings as under-used resources and as many storage optimizations as low-storage resources |
| CostEngine.RecommendationsNameAnalysedResources | agents/src/agents/cost_optimization_agent.py:157-213 | every recommendation is low risk and names exactly one resource from the analysed data |
| CostEngine.Forecasts | agents/src/agents/cost_optimization_agent.py:242-272 | one forecast per day ahead, dated that day, never negative, equal to the prediction when that is not negative; confidence 0.85 from a loaded model and 0.70 from the mock |
| CostEngine.ForecastCosts | agents/src/agents/cost_optimization_agent.py:242-272 | the forecasting loop yields exactly the reference forecasts |
| CostEngine.ForecastTotalNonNegative | agents/src/agents/cost_optimization_agent.py:280-281 | the sum of forecasts that are not negative is not negative |
| CostEngine.BudgetAlerts | agents/src/agents/cost_optimization_agent.py:274-317 | at most one alert. There is none exactly when the projection (spend plus forecasts) is within 80% of the budget. Critical exactly above the budget, with the overage; warning exactly in (90%, 100%]; a non-critical alert has a positive budget and the percentage used |
| CostEngine.MoreSpendNeverMilder | agents/src/agents/cost_optimization_agent.py:284-313 | for a non-negative budget, a higher spend never yields a milder alert |
| CostEngine.BudgetTiers | agents/src/agents/cost_optimization_agent.py:284-313 | for a positive budget the tiers are exactly: none up to 80%, information in (80%, 90%], warning in (90%, 100%] |
| CostEngine.MockUtilization | agents/src/agents/cost_optimization_agent.py:83-114 | the shipped monitor reports data only for AWS |
| CostEngine.MockTodayCost | agents/src/agents/cost_optimization_agent.py:121-136 | the shipped monitor's cost for today is 150.0 |
| CostEngine.MockDataYieldsOneSmallRightSizing | agents/src/agents/cost_optimization_agent.py:83-187 | with the default low threshold, the shipped AWS data yields a single right-sizing of the idle instance, worth 34.56, below the default optimization threshold of 100 |
| CostAgents.AsNumber | agents/src/agents/cost_optimization_agent.py:580-602 | a float is its own number and a bool reads as 1 or 0; no other value is a number |
| CostAgents.RiskNamed | agents/src/agents/cost_optimization_agent.py:581 | only the strings "low", "medium" and "high" convert to a risk level, each to its own level |
| CostAgents.StrList | agents/src/agents/cost_optimization_agent.py:600 | a list of strings is accepted as targets; a value that is not a list is rejected |
| CostAgents.TargetsOf | agents/src/agents/cost_optimization_agent.py:600 | absent resources read as the empty list; present ones must be a list of strings |
| CostAgents.Recommended | agents/src/agents/cost_optimization_agent.py:576-577 | an event carries a recommendation exactly when its data holds a dictionary under "recommendation" |
| CostAgents.CostThresholdAction | agents/src/agents/cost_optimization_agent.py:571-617 | an action exists exactly when the event carries a recommendation, a configuration exists, and the risk level, the compared confidence, the targets and the savings are all well formed. It is a cost optimization at the named risk on the named resources, applied directly only in full automation at or above the threshold at low risk |
| CostAgents.AnomalyAction | agents/src/agents/cost_optimization_agent.py:619-647 | a cleanup action exists exactly for a low-utilization anomaly whose resources are a list of strings; it is medium risk on those resources and carries the anomaly data and the event id |
| CostAgents.RecommendationSeverity | agents/src/agents/cost_optimization_agent.py:560-569 | the severity is critical above 5000 in savings, high in (2000, 5000], medium in (500, 2000] and low otherwise |
| CostAgents.SeverityGrowsWithSavings | agents/src/agents/cost_optimization_agent.py:560-569 | larger savings never give a less severe event |
| CostAgents.RecommendationData | agents/src/agents/cost_optimization_agent.py:540-552 | the event's recommendation dictionary has exactly the nine published fields, carrying the recommendation's id, title, savings, confidence, risk level and resources |
| CostAgents.CostEvent | agents/src/agents/cost_optimization_agent.py:532-558 | the announcement is a cost-threshold event from this agent, severity by savings, id "cost_opt_" + the recommendation id, carrying the recommendation dictionary |
| CostAgents.CostEventRoundTrip | agents/src/agents/cost_optimization_agent.py:532-617 | handling the agent's own announcement always yields an action on the recommendation's resources, at its risk, naming its id and its savings, applied directly exactly when level, confidence and risk allow |
| CostAgents.BudgetEvent | agents/src/agents/cost_optimization_agent.py:900-923 | an alert becomes an event exactly when its level is critical, because the other levels are not valid severities; the event is from this agent and carries the alert |
| CostAgents.OneBudgetEvents | agents/src/agents/cost_optimization_agent.py:884-923 | one budget publishes exactly one event, a critical one, when the projection exceeds it, and none otherwise |
| CostAgents.BudgetEventsAreCritical | agents/src/agents/cost_optimization_agent.py:884-923 | every published budget event is critical |
| CostAgents.BudgetEventCount | agents/src/agents/cost_optimization_agent.py:884-923 | there is one published budget event per budget the projection exceeds |
| CostAgents.WarningIsNeverPublished | agents/src/agents/cost_optimization_agent.py:884-923 | a projection in (90%, 100%] of a positive budget raises a warning alert but publishes nothing |
| CostAgents.Records | agents/src/agents/cost_optimization_agent.py:951-956 | there is one record per resource, in order |
| CostAgents.OptimizeEach | agents/src/agents/cost_optimization_agent.py:942-960 | the per-resource loop yields one record per resource and saves the per-resource amount times their number |
| CostAgents.ProcessEach | agents/src/agents/cost_optimization_agent.py:782-789 | the cleanup loop handles every resource, in order |
| CostAgents.RightSizingResult | agents/src/agents/cost_optimization_agent.py:925-982 | right-sizing succeeds exactly when there are targets. Then every target is resized, each saving 50.0, with no failures; without targets it fails with the source's message |
| CostAgents.StorageResult | agents/src/agents/cost_optimization_agent.py:706-764 | storage optimization succeeds exactly when there are targets. Then every target is moved from gp2 to gp3, each saving 25.0, with no failures |
| CostAgents.CleanupResult | agents/src/agents/cost_optimization_agent.py:766-811 | cleanup succeeds exactly when there are targets, and then every target is cleaned up with no failures |
| CostAgents.GenericResult | agents/src/agents/cost_optimization_agent.py:679-697 | any other optimization succeeds on the recommendation's own resources and reports its savings |
| CostAgents.FirstWithId | agents/src/agents/cost_optimization_agent.py:661-665 | the lookup finds the first active recommendation with that id, or reports that none has it |
| CostAgents.CostOptimizationResult | agents/src/agents/cost_optimization_agent.py:649-704 | it fails without a truthy recommendation id, or when no active recommendation has it. Otherwise it runs right-sizing or storage optimization on the action's targets, or the generic optimization on the recommendation's resources |
| CostAgents.ActiveRecommendationExecutes | agents/src/agents/cost_optimization_agent.py:571-704 | the action built from the announcement of an active recommendation finds a recommendation with that id; it fails only for a right-sizing or storage optimization without resources |
| CostAgents.NamedRecommendationExecutes | agents/src/agents/cost_optimization_agent.py:649-697 | an action naming an active recommendation finds one with that id, and fails only when that recommendation is a right-sizing or storage optimization and the action has no targets |
| CostAgents.IntegrationNamed | agents/src/agents/cost_optimization_agent.py:375-379 | the integration found is the first with that name, and none is found exactly when no integration has it |
| CostAgents.WithMonitorsRegisters | agents/src/agents/cost_optimization_agent.py:381-389 | registering keeps the earlier monitors in place and adds no duplicate; afterwards a provider is monitored exactly when it was before or some entry names it |
| CostAgents.RegisterMonitors | agents/src/agents/cost_optimization_agent.py:383-389 | the registration loop computes the reference registration |
| CostAgents.Worthwhile | agents/src/agents/cost_optimization_agent.py:518-519 | the admitted recommendations are exactly those worth at least the threshold, drawn from the input |
| CostAgents.CostEvents | agents/src/agents/cost_optimization_agent.py:518-521 | each admitted recommendation is announced once, in order |
| CostAgents.BreakdownEntries | agents/src/agents/cost_optimization_agent.py:820-827 | the breakdown holds exactly the monitored providers that report a cost, under their names, with that cost |
| CostAgents.GatherUtilization | agents/src/agents/cost_optimization_agent.py:508-511 | the collection loop concatenates every monitor's data in monitor order |
| CostAgents.SelectWorthwhile | agents/src/agents/cost_optimization_agent.py:518-521 | the admission loop computes the reference admitted list |
| CostAgents.DailyCosts | agents/src/agents/cost_optimization_agent.py:817-827 | the cost loop computes today's total and the reference breakdown |
| CostAgents.RaiseBudgetAlerts | agents/src/agents/cost_optimization_agent.py:884-895 | the budget loop publishes exactly the reference budget events |
| CostAgents.CostOptimizationAgent.constructor | agents/src/agents/cost_optimization_agent.py:342-361 | a new agent has no monitors, engine or forecaster; it checks every 3600 seconds with thresholds 100.0 and 0.9; its history and recommendations are empty |
| CostAgents.CostOptimizationAgent.Initialize | agents/src/agents/cost_optimization_agent.py:363-406 | it raises without a configuration and changes nothing. Otherwise it reads the five thresholds with their defaults and registers the named providers when the integration is configured. It then sets up the engine and the forecaster, and leaves the history and recommendations untouched |
| CostAgents.CostOptimizationAgent.Level | agents/src/agents/cost_optimization_agent.py:584 | an automation level exists exactly when a configuration does |
| CostAgents.CostOptimizationAgent.ProcessEvent | agents/src/agents/cost_optimization_agent.py:438-450 | cost-threshold events go to the threshold handler and resource anomalies to the anomaly handler; a type outside the subscribed list (485-487) yields nothing |
| CostAgents.CostOptimizationAgent.FindRecommendation | agents/src/agents/cost_optimization_agent.py:661-665 | the search loop finds the first active recommendation with the id |
| CostAgents.CostOptimizationAgent.ExecuteRightSizing | agents/src/agents/cost_optimization_agent.py:925-982 | the method yields the reference right-sizing result |
| CostAgents.CostOptimizationAgent.ExecuteStorageOptimization | agents/src/agents/cost_optimization_agent.py:706-764 | the method yields the reference storage result |
| CostAgents.CostOptimizationAgent.ExecuteResourceCleanup | agents/src/agents/cost_optimization_agent.py:766-811 | the method yields the reference cleanup result |
| CostAgents.CostOptimizationAgent.ExecuteCostOptimization | agents/src/agents/cost_optimization_agent.py:649-704 | the method yields the reference optimization result against the active recommendations |
| CostAgents.CostOptimizationAgent.ExecuteAction | agents/src/agents/cost_optimization_agent.py:452-471 | optimizations and cleanups are executed; any other type fails as unsupported |
| CostAgents.CostOptimizationAgent.Admitted | agents/src/agents/cost_optimization_agent.py:513-521 | every admitted recommendation is worth at least the optimization threshold, and none is admitted without an engine |
| CostAgents.CostOptimizationAgent.EntryFor | agents/src/agents/cost_optimization_agent.py:829-847 | today's entry has today's date and time, the total and breakdown of the reporting monitors, and seven forecasts with a forecaster (none without) |
| CostAgents.CostOptimizationAgent.AdmitRecommendations | agents/src/agents/cost_optimization_agent.py:507-521 | the admitted recommendations are appended to the active ones and each is announced, in order; nothing else changes |
| CostAgents.CostOptimizationAgent.UpdateCostHistory | agents/src/agents/cost_optimization_agent.py:813-856 | today's entry is appended and only the last 30 are kept, so the newest entry is today's; nothing else changes |
| CostAgents.CostOptimizationAgent.CheckBudgetAlerts | agents/src/agents/cost_optimization_agent.py:858-898 | it publishes nothing without history, a forecaster, a configured integration or forecasts in the latest entry. Otherwise it publishes each budget's events against this month's spend, and changes nothing else |
| CostAgents.CostOptimizationAgent.AnalyzeResourceUtilization | agents/src/agents/cost_optimization_agent.py:502-530 | one round admits and announces the worthwhile recommendations, records today's costs keeping 30 entries, publishes the budget events against the updated history, and notes the time |
| ExampleAgents.ActionFor | agents/src/core/example_agent.py:64-112 | an action is proposed exactly for drift, anomaly and incident events. These are a low-risk plan, a medium-risk scale and a high-risk resolution, each aimed at the event's source, with an id one past the number of actions executed |
| ExampleAgents.SubscribedEventTypes | agents/src/core/example_agent.py:223-229 | the subscribed types are exactly the ones for which an action is proposed |
| ExampleAgents.ExecutionResult | agents/src/core/example_agent.py:114-190 | a plan and a scale always succeed, reporting the targets (and 3 replicas for a scale). A resolution succeeds exactly when the draw succeeds, and otherwise asks for manual intervention. Any other type fails as unknown |
| ExampleAgents.OwnActionsExecute | agents/src/core/example_agent.py:64-190 | an action the agent proposed itself executes successfully unless it is a resolution whose draw failed, and it carries an error exactly when it fails |
| ExampleAgents.Occurrences | agents/src/core/example_agent.py:262-263 | a value occurs no more often than the list is long |
| ExampleAgents.OccurrencesAbsent | agents/src/core/example_agent.py:262-263 | a value that is absent is counted zero times |
| ExampleAgents.TallyCounts | agents/src/core/example_agent.py:260-263 | the tally has a key for exactly the values present, holding how often each occurs |
| ExampleAgents.EventTypeValues | agents/src/core/example_agent.py:261-262 | there is one type value per event |
| ExampleAgents.TypeValueOccurrences | agents/src/core/example_agent.py:260-263 | the tally entry for a type's value counts the events of that type |
| ExampleAgents.ActionTypeValues | agents/src/core/example_agent.py:276-277 | there is one type value per action |
| ExampleAgents.SuccessRate | agents/src/core/example_agent.py:286 | the rate is between 0 and 1, is 0 with nothing executed, is successful/total otherwise, and is 1 exactly when every executed action succeeded |
| ExampleAgents.FailuresAndSuccesses | agents/src/core/example_agent.py:240-241 | failures and successes together never exceed the actions, and they equal them exactly when every action has a result |
| ExampleAgents.ExampleAgent.constructor | agents/src/core/example_agent.py:23-32 | a new agent has empty event and action records |
| ExampleAgents.ExampleAgent.Specs | agents/src/core/example_agent.py:276-277 | the specifications of the executed actions, one per action, in order |
| ExampleAgents.ExampleAgent.Results | agents/src/core/example_agent.py:240-241 | the results stored on the executed actions, one per action, in order |
| ExampleAgents.ExampleAgent.Initialize | agents/src/core/example_agent.py:34-45 | initialisation empties both records |
| ExampleAgents.ExampleAgent.ProcessEvent | agents/src/core/example_agent.py:64-112 | every event is appended to the processed events, whether or not it yields an action, and the action is the proposal above |
| ExampleAgents.ExampleAgent.ExecuteAction | agents/src/core/example_agent.py:114-190 | every action is appended to the executed actions before it runs, and the result is the simulated execution |
| ExampleAgents.ExampleAgent.HealthCheck | agents/src/core/example_agent.py:231-251 | the counts are the sizes of both records and the number of actions whose stored result failed; failures and successes never exceed the actions |
| ExampleAgents.ExampleAgent.EventsSummaryOf | agents/src/core/example_agent.py:258-269 | the summary has the number of events, the tally of their type values and the timestamp of the last event (none when there are none) |
| ExampleAgents.ExampleAgent.ActionsSummaryOf | agents/src/core/example_agent.py:271-288 | the summary has the number of actions, the number whose stored result succeeded, the success rate and the tally of their type values |
| Incidents.HighestAlert | agents/src/agents/incident_response_agent.py:234 | the alert taken for the incident's severity is one of its alerts |
| Incidents.FindBucket | agents/src/agents/incident_response_agent.py:164-170 | the lookup finds a cluster bucket with the key, or reports that no bucket has it |
| Incidents.IncidentsOf | agents/src/agents/incident_response_agent.py:172-178 | there is one incident per group, holding exactly that group's alerts |
| Incidents.BucketAlerts | agents/src/agents/incident_response_agent.py:172-178 | each cluster bucket yields one non-empty group of its members' alerts |
| Seqs.KeepLast | agents/src/agents/kubernetes_agent.py:1059-1060 | keeping the last n leaves a history of n entries when it was longer and unchanged otherwise, and always a suffix of it |
| Seqs.KeepLastAppend | agents/src/agents/cost_optimization_agent.py:849-853 | appending an entry and keeping the last n gives a history of at most n entries that ends with the entry, preceded by the most recent earlier ones |
| Seqs.Dedup | agents/src/agents/kubernetes_agent.py:831-832 | the keys of a dictionary filled in order are no more than the inserted keys |
| Seqs.DedupMembers | agents/src/agents/kubernetes_agent.py:831-832 | each inserted key appears once, and only inserted keys appear |
| Seqs.InsertBy | agents/src/agents/incident_response_agent.py:121 | inserting into a sorted list keeps it sorted and adds exactly the element |
| Seqs.SortBy | agents/src/agents/incident_response_agent.py:121 | sorting by a key yields a sorted permutation of the input |
| Text.StartsWith | agents/src/agents/cost_optimization_agent.py:880 | a string starts with a prefix exactly when its first characters are that prefix |
| Text.EndsWith | agents/src/agents/kubernetes_agent.py:228 | a string with a suffix is its other characters followed by the suffix |
| Text.Split | agents/src/agents/kubernetes_agent.py:1092 | splitting yields at least one part |
| Text.Join | agents/src/agents/kubernetes_agent.py:1066 | joining one part gives the part, and joining none gives the empty string |
| Text.JoinSplit | agents/src/agents/terraform_agent.py:99 | joining the pieces of a split with the same separator gives the string back |
| Text.SplitJoin | agents/src/agents/kubernetes_agent.py:1092 | splitting a join gives back parts in which the separator does not occur |
| Text.Replace | agents/src/agents/kubernetes_agent.py:899-900 | a string without the pattern is left unchanged |
| Text.ReplaceIsSplitJoin | agents/src/agents/incident_response_agent.py:678 | replacing every occurrence is splitting on the pattern and joining with the replacement |
| Text.TrimLeft | agents/src/agents/terraform_agent.py:105 | stripping the front leaves a suffix that does not start with whitespace |
| Text.TrimRight | agents/src/agents/terraform_agent.py:105 | stripping the back leaves a prefix that does not end with whitespace |
| Text.Strip | agents/src/agents/terraform_agent.py:105 | a stripped line is no longer than the line, and neither starts nor ends with whitespace |
| Text.LowerChar | agents/src/agents/incident_response_agent.py:731-735 | an upper-case ASCII letter becomes its lower-case letter; any other character is unchanged |
| Text.Lower | agents/src/agents/incident_response_agent.py:731-735 | lowering keeps the length and lowers each character |
| Text.NatToString | agents/src/core/example_agent.py:76 | a natural number renders as decimal digits whose value is the number |
| Text.IntToString | agents/src/agents/cost_optimization_agent.py:596 | an integer renders as its digits, with a minus sign when negative |
| Text.ParseDecimal | agents/src/agents/kubernetes_agent.py:895-900 | a request that parses is a non-negative number |
| Text.ParseNumeral | agents/src/agents/kubernetes_agent.py:895-900 | a numeral parses to its decimal value |

## Left out

- Logging, the asyncio task machinery and the background loops (monitoring, escalation sweeps, analysis rounds, `asyncio.sleep`) are not modelled. Each round's body is a method that the loop would call.
- The outer `try`/`except` fallbacks around whole operations are dropped. This covers the health monitor's, the agent manager's and each agent's "log the exception and return an empty or failed result" wrappers. The model keeps the exceptions the code raises on purpose and the hooks' failures.
- The clock is a parameter, and timestamps and durations are whole seconds. Floats are modelled as reals, without rounding. An f-string of a `str` enum is rendered as the enum's value.
- The audit service and the event bus accept every call. Published events and actions are kept in ghost logs.
- Interfaces: an integration's `config` is a map from names to strings; the source's values may be any JSON value, and the agents that read non-string values receive them decoded (see the CostAgents and KubernetesAgent lines below).
- Text.Lower: only ASCII letters are lower-cased; Python's `str.lower()` also folds non-ASCII letters.
- Text.ParseDecimal: Python's `float()` is modelled only on unsigned plain decimal numerals. Signs, exponents, `inf`/`nan`, underscores and surrounding whitespace take the `ValueError` path.
- Seqs.SortBy: the result is sorted and a permutation of the input; the stability of Python's `sorted` is not stated.
- Health: the default checks (`basic_connectivity`, `memory_usage`, `disk_usage`, which read `psutil`) are not modelled. A health check receives what each registered check did.
- Factory: `get_supported_agent_types`, `get_all_agents`, `create_and_register_agent` and the manager's one-line delegations to the factory are not modelled as members of their own; the registry and manager operations they call are.
- Factory.AgentManager.LoadAndStartAgents: the configurations must have distinct ids, since the source iterates a dictionary keyed by id.
- IncidentAgent: the incident classifier (`IncidentClassifier`, incident_response_agent.py:286-439) and the alert clustering model are oracles, and so is the hash behind incident ids. The notification sends are oracles too.
- Incidents.NamedSources / Incidents.CreateIncident: `list(set(...))` has no defined order in Python; the model fixes it to first appearance, and their contracts state only membership, distinctness and counts, not order.
- Terraform.TerraformAgent.ProcessEvent: the list of changes is a parameter that is not derived from the event's data.
- Terraform.DriftData: `timestamp` is stored as the timestamp itself, not as its ISO 8601 text (`isoformat()`).
- KubernetesAgent.ScalingRecordData: `timestamp` is stored as the timestamp itself, not as its ISO 8601 text (`isoformat()`).
- Runbooks.ExecutionData / Runbooks.StepResultData: the `start_time` and `end_time` entries of an execution and of a step are omitted, since durations below a second are not modelled.
- IncidentAgent.DetectionEvent: `detected_at` is stored as the timestamp itself, not as its ISO 8601 text (`isoformat()`).
- Terraform: the Terraform Cloud integration, `get_current_state` and the drift-prediction model's training, saving and loading are not modelled. Its prediction is an oracle.
- KubernetesAgent: the cluster client, `kubeconfig_path`, `monitored_namespaces` and `model_path` are not modelled. The metrics one collection round gathers are a parameter. The collector's internals are not modelled either.
- KubernetesAgent: the predictive scaling model (kubernetes_agent.py:293-575) is an oracle (`Predictor`). The scaler's calls to the Kubernetes API are oracles that report success or failure.
- KubernetesAgent.ScalingAction: the recommendation's `__dict__` is omitted from the scaling event's data and from the action's metadata. A recommendation read back from metadata is passed decoded, or as the exception its decoding raised.
- KubernetesAgent.RestartAction: the anomaly data copied into the action's metadata is omitted.
- CostEngine: the cloud monitors' credentials and API calls are not modelled. The utilisation data and today's cost are parameters, and the shipped mock monitor models only today's cost.
- CostEngine.ForecastCosts: the forecasting features leave out the day of week and the month, which only the oracle model reads. The 500.0 default for a missing `daily_cost` is never reached, because the agent always supplies that key, and is not modelled.
- CostAgents.CostOptimizationAgent.Initialize: the mock forecaster's per-day variation is fixed when the agent initialises, so every analysis round sees the same draw for day k ahead, where the source draws a fresh normal variation on each forecast.
- CostAgents: the integration's `providers` list and `budget_limits` dictionary are passed decoded (`CostSettings`). A forecasting-model load error other than a missing file, and `forecasting_model_path`, are not modelled.
- CostAgents and IncidentAgent: a configuration reload re-runs the agent's initialisation, so it is modelled by the `Initialize` method.
- ExampleAgents.ExampleAgent.HealthCheck: the example agent's own counts are reported separately and are not merged into the base agent's metrics.
- ExampleAgents.ExampleAgent: the random draw that decides whether a resolution succeeds is the `resolved` parameter. The reload hook only logs and is not modelled.
