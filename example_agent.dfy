/**
 * The example agent: it keeps every event it is handed and every action
 * it executes, turns drift, anomaly and incident events into a plan, a
 * scale and a resolution of the event's source, simulates their
 * execution and summarises both records.
 */
module ExampleAgents {
  import opened Text
  import opened Interfaces
  import opened Seqs

  // ------------------------------------------------------ events to actions

  /**
   * `_process_event_specific`: a drift asks for a low-risk plan, an anomaly
   * for a medium-risk scale and an incident for a high-risk resolution, all
   * aimed at the event's source; any other event asks for nothing. The id
   * counts the actions executed so far.
   */
  function ActionFor(agentId: string, event: SystemEvent, executedCount: nat): (a: Option<ActionSpec>)
    ensures a.Some? <==> event.eventType in {InfrastructureDrift, ResourceAnomaly, IncidentDetected}
    ensures event.eventType == InfrastructureDrift ==> a.Some? && a.value.actionType == TerraformPlan && a.value.riskLevel == Low
    ensures event.eventType == ResourceAnomaly ==> a.Some? && a.value.actionType == K8sScale && a.value.riskLevel == Medium
    ensures event.eventType == IncidentDetected ==> a.Some? && a.value.actionType == IncidentResolve && a.value.riskLevel == High
    ensures a.Some? ==> && a.value.id == "action_" + NatToString(executedCount + 1)
                        && a.value.agentId == agentId
                        && a.value.targetResources == [event.source]
                        && a.value.metadata == map[]
  {
    var id := "action_" + NatToString(executedCount + 1);
    match event.eventType
    case InfrastructureDrift =>
      Some(ActionSpec(id, agentId, TerraformPlan,
                      ("Generate Terraform " + "plan for drift in ") + event.source, [event.source], Low,
                      ("Generate plan to " + "show infrastructure " + "changes"), map[]))
    case ResourceAnomaly =>
      Some(ActionSpec(id, agentId, K8sScale,
                      ("Scale resources due " + "to anomaly in ") + event.source, [event.source], Medium,
                      ("Adjust resource " + "allocation to " + "handle anomaly"), map[]))
    case IncidentDetected =>
      Some(ActionSpec(id, agentId, IncidentResolve,
                      ("Attempt to resolve " + "incident in ") + event.source, [event.source], High,
                      ("Execute automated " + "incident resolution " + "procedures"), map[]))
    case _ => None
  }

  /** The three event types that yield actions are the ones the agent subscribes to. */
  function SubscribedEventTypes(): (ts: seq<EventType>)
    ensures forall t :: t in ts <==> ActionFor("", SystemEvent("", t, "", "low", map[], 0, None), 0).Some?
  {
    [InfrastructureDrift, ResourceAnomaly, IncidentDetected]
  }

  // ------------------------------------------------------ simulated execution

  /**
   * `_execute_action_specific`: a plan and a scale always succeed, a
   * resolution succeeds when the random draw `resolved` (above 0.2, four
   * times in five) says so, any other action type is not supported.
   */
  function ExecutionResult(spec: ActionSpec, resolved: bool): (r: ActionResult)
    ensures r.success <==> spec.actionType in {TerraformPlan, K8sScale} || (spec.actionType == IncidentResolve && resolved)
    ensures spec.actionType == TerraformPlan ==>
              "resources_affected" in r.data && r.data["resources_affected"] == Strs(spec.targetResources)
    ensures spec.actionType == K8sScale ==>
              && "scaled_resources" in r.data && r.data["scaled_resources"] == Strs(spec.targetResources)
              && "new_replica_count" in r.data && r.data["new_replica_count"] == Num(3.0)
    ensures spec.actionType == IncidentResolve && resolved ==>
              "affected_resources" in r.data && r.data["affected_resources"] == Strs(spec.targetResources)
    ensures spec.actionType == IncidentResolve && !resolved ==>
              r.error == Some(("Complex incident " + "requires manual " + "intervention")) && "escalation_reason" in r.data
    ensures spec.actionType !in {TerraformPlan, K8sScale, IncidentResolve} ==>
              r == FailedWith("Unknown action type: " + ActionTypeValue(spec.actionType),
                              ("Action type not " + "supported by this " + "agent"))
  {
    match spec.actionType
    case TerraformPlan =>
      Succeeded(("Terraform plan " + "generated " + "successfully"),
                map["plan_output" := Str(("Plan: 2 to add, " + "1 to change, " + "0 to destroy")),
                    "resources_affected" := Strs(spec.targetResources)])
    case K8sScale =>
      Succeeded(("Kubernetes resources " + "scaled successfully"),
                map["scaled_resources" := Strs(spec.targetResources), "new_replica_count" := Num(3.0)])
    case IncidentResolve =>
      if resolved then
        Succeeded(("Incident resolved " + "automatically"),
                  map["resolution_steps" := Strs([("Identified root " + "cause"), ("Applied automated " + "fix"),
                                                  ("Verified system " + "stability")]),
                      "affected_resources" := Strs(spec.targetResources)])
      else
        ActionResult(false, ("Automated resolution " + "failed, escalating " + "to human operator"),
                     map["attempted_steps" := Strs([("Identified root " + "cause"), ("Attempted automated " + "fix")]),
                         "escalation_reason" := Str(("Fix validation " + "failed"))],
                     Some(("Complex incident " + "requires manual " + "intervention")), None)
    case _ =>
      FailedWith("Unknown action type: " + ActionTypeValue(spec.actionType),
                 ("Action type not " + "supported by this " + "agent"))
  }

  /** An action the agent itself proposed always executes successfully unless it is a resolution whose draw failed. */
  lemma OwnActionsExecute(agentId: string, event: SystemEvent, executedCount: nat, resolved: bool)
    requires ActionFor(agentId, event, executedCount).Some?
    ensures var a := ActionFor(agentId, event, executedCount).value;
            && ExecutionResult(a, resolved).success == (event.eventType != IncidentDetected || resolved)
            && ExecutionResult(a, resolved).error.None? == ExecutionResult(a, resolved).success
  {
  }

  // ------------------------------------------------------ tallies

  /** How many times `k` occurs in `s`. */
  function Occurrences(s: seq<string>, k: string): (n: nat)
    ensures n <= |s|
  {
    if s == [] then 0 else Occurrences(s[..|s| - 1], k) + (if s[|s| - 1] == k then 1 else 0)
  }

  /** A value that does not occur is counted zero times. */
  lemma {:induction false} OccurrencesAbsent(s: seq<string>, k: string)
    requires k !in s
    ensures Occurrences(s, k) == 0
  {
    if s != [] {
      OccurrencesAbsent(s[..|s| - 1], k);
    }
  }

  /** `counts[k] = counts.get(k, 0) + 1` for each `k` of `s`, in order. */
  function Tally(s: seq<string>): map<string, nat>
  {
    if s == [] then map[]
    else
      var m := Tally(s[..|s| - 1]);
      var k := s[|s| - 1];
      m[k := (if k in m then m[k] else 0) + 1]
  }

  /** The tally has a key for exactly the values present, holding how often each occurs. */
  lemma {:induction false} TallyCounts(s: seq<string>)
    ensures forall k :: k in Tally(s) <==> k in s
    ensures forall k | k in Tally(s) :: Tally(s)[k] == Occurrences(s, k)
  {
    if s != [] {
      var init := s[..|s| - 1];
      TallyCounts(init);
      assert s == init + [s[|s| - 1]];
      forall k ensures k in s <==> k in init || k == s[|s| - 1] {
      }
      if s[|s| - 1] !in init {
        OccurrencesAbsent(init, s[|s| - 1]);
      }
    }
  }

  /** The string values of the events' types, in order. */
  function EventTypeValues(events: seq<SystemEvent>): (vs: seq<string>)
    ensures |vs| == |events|
  {
    if events == [] then [] else EventTypeValues(events[..|events| - 1]) + [EventTypeValue(events[|events| - 1].eventType)]
  }

  predicate OfType(e: SystemEvent, t: EventType) { e.eventType == t }

  /** The tally entry for a type's value counts the events of that type. */
  lemma {:induction false} TypeValueOccurrences(events: seq<SystemEvent>, t: EventType)
    ensures Occurrences(EventTypeValues(events), EventTypeValue(t)) == Count(events, e => OfType(e, t))
  {
    if events != [] {
      var init := events[..|events| - 1];
      TypeValueOccurrences(init, t);
      EventTypeValueInjective(events[|events| - 1].eventType, t);
      assert EventTypeValues(events)[..|events| - 1] == EventTypeValues(init);
    }
  }

  /** The string values of the actions' types, in order. */
  function ActionTypeValues(specs: seq<ActionSpec>): (vs: seq<string>)
    ensures |vs| == |specs|
  {
    if specs == [] then [] else ActionTypeValues(specs[..|specs| - 1]) + [ActionTypeValue(specs[|specs| - 1].actionType)]
  }

  /** Extending a prefix of actions by one adds one to its type's tally entry. */
  lemma ActionTallyStep(specs: seq<ActionSpec>, i: nat)
    requires i < |specs|
    ensures var t := ActionTypeValue(specs[i].actionType);
            var m := Tally(ActionTypeValues(specs[..i]));
            Tally(ActionTypeValues(specs[..i + 1])) == m[t := (if t in m then m[t] else 0) + 1]
  {
    assert specs[..i + 1][..i] == specs[..i];
    var vs := ActionTypeValues(specs[..i + 1]);
    assert vs[..|vs| - 1] == ActionTypeValues(specs[..i]);
  }

  // ------------------------------------------------------ summaries

  datatype EventsSummary = EventsSummary(totalEvents: nat, eventTypes: map<string, nat>, lastEventTime: Option<Timestamp>)

  datatype ActionsSummary = ActionsSummary(totalActions: nat, successfulActions: nat, successRate: real,
                                           actionTypes: map<string, nat>)

  /** The counts `_perform_health_check` adds to the agent's metrics. */
  datatype HealthCounts = HealthCounts(processedEvents: nat, executedActions: nat, failedActions: nat)

  predicate IsSuccess(r: Option<ActionResult>) { r.Some? && r.value.success }

  predicate IsFailure(r: Option<ActionResult>) { r.Some? && !r.value.success }

  /** `successful / total`, or 0 when nothing was executed. */
  function SuccessRate(successful: nat, total: nat): (rate: real)
    requires successful <= total
    ensures 0.0 <= rate <= 1.0
    ensures total == 0 ==> rate == 0.0
    ensures total > 0 ==> rate * total as real == successful as real
    ensures rate == 1.0 <==> total > 0 && successful == total
  {
    if total == 0 then 0.0 else successful as real / total as real
  }

  class ExampleAgent {
    const agentId: string
    var processedEvents: seq<SystemEvent>
    /** The executed actions themselves: the base agent stores each one's result on it afterwards. */
    var executedActions: seq<AgentAction>

    constructor(agentId: string)
      ensures this.agentId == agentId && processedEvents == [] && executedActions == []
    {
      this.agentId := agentId;
      processedEvents := [];
      executedActions := [];
    }

    /** The specifications of the executed actions, in execution order. */
    function Specs(): (ss: seq<ActionSpec>)
      reads this
      ensures |ss| == |executedActions|
      ensures forall i | 0 <= i < |ss| :: ss[i] == executedActions[i].spec
    {
      seq(|executedActions|, i requires 0 <= i < |executedActions| reads this => executedActions[i].spec)
    }

    /** The results currently stored on the executed actions, in execution order. */
    function Results(): (rs: seq<Option<ActionResult>>)
      reads this, set i | 0 <= i < |executedActions| :: executedActions[i]
      ensures |rs| == |executedActions|
      ensures forall i | 0 <= i < |rs| :: rs[i] == executedActions[i].result
    {
      seq(|executedActions|, i requires 0 <= i < |executedActions|
                               reads this, set j | 0 <= j < |executedActions| :: executedActions[j]
                               => executedActions[i].result)
    }

    /** `_initialize_agent_specific`: both records start empty. */
    method Initialize()
      modifies this
      ensures processedEvents == [] && executedActions == []
    {
      processedEvents := [];
      executedActions := [];
    }

    /** `_process_event_specific`: every event is recorded, whether or not it yields an action. */
    method ProcessEvent(event: SystemEvent) returns (action: Option<ActionSpec>)
      modifies this
      ensures processedEvents == old(processedEvents) + [event] && executedActions == old(executedActions)
      ensures action == ActionFor(agentId, event, |executedActions|)
    {
      processedEvents := processedEvents + [event];
      action := ActionFor(agentId, event, |executedActions|);
    }

    /** `_execute_action_specific`: every action is recorded before it is simulated. */
    method ExecuteAction(action: AgentAction, resolved: bool) returns (r: ActionResult)
      modifies this
      ensures executedActions == old(executedActions) + [action] && processedEvents == old(processedEvents)
      ensures r == ExecutionResult(action.spec, resolved)
    {
      executedActions := executedActions + [action];
      r := ExecutionResult(action.spec, resolved);
    }

    /** `_perform_health_check`: the sizes of both records and the number of actions whose result failed. */
    method HealthCheck() returns (h: HealthCounts)
      ensures h.processedEvents == |processedEvents| && h.executedActions == |executedActions|
      ensures h.failedActions == Count(Results(), IsFailure)
      ensures h.failedActions + Count(Results(), IsSuccess) <= h.executedActions
    {
      var rs := Results();
      FailuresAndSuccesses(rs);
      h := HealthCounts(|processedEvents|, |executedActions|, Count(rs, IsFailure));
    }

    /** `get_processed_events_summary`: the count, the tally of event types and the last event's time. */
    method EventsSummaryOf() returns (s: EventsSummary)
      ensures s.totalEvents == |processedEvents|
      ensures s.eventTypes == Tally(EventTypeValues(processedEvents))
      ensures s.lastEventTime == if processedEvents == [] then None else Some(processedEvents[|processedEvents| - 1].timestamp)
    {
      var types: map<string, nat> := map[];
      var i := 0;
      while i < |processedEvents|
        invariant i <= |processedEvents|
        invariant types == Tally(EventTypeValues(processedEvents[..i]))
      {
        var t := EventTypeValue(processedEvents[i].eventType);
        assert processedEvents[..i + 1][..i] == processedEvents[..i];
        types := types[t := (if t in types then types[t] else 0) + 1];
        i := i + 1;
      }
      assert processedEvents[..i] == processedEvents;
      var last := if processedEvents == [] then None else Some(processedEvents[|processedEvents| - 1].timestamp);
      s := EventsSummary(|processedEvents|, types, last);
    }

    /** `get_executed_actions_summary`: totals, the success rate and the tally of action types. */
    method ActionsSummaryOf() returns (s: ActionsSummary)
      ensures s.totalActions == |executedActions|
      ensures s.successfulActions == Count(Results(), IsSuccess)
      ensures s.successfulActions <= s.totalActions
      ensures s.successRate == SuccessRate(s.successfulActions, s.totalActions)
      ensures s.actionTypes == Tally(ActionTypeValues(Specs()))
    {
      var types: map<string, nat> := map[];
      var successful := 0;
      var i := 0;
      ghost var rs := Results();
      ghost var specs := Specs();
      while i < |executedActions|
        invariant i <= |executedActions|
        invariant types == Tally(ActionTypeValues(specs[..i]))
        invariant successful == Count(rs[..i], IsSuccess)
      {
        var action := executedActions[i];
        var t := ActionTypeValue(action.spec.actionType);
        ActionTallyStep(specs, i);
        CountPrefixStep(rs, i, IsSuccess);
        types := types[t := (if t in types then types[t] else 0) + 1];
        if action.result.Some? && action.result.value.success {
          successful := successful + 1;
        }
        i := i + 1;
      }
      assert rs[..i] == rs;
      assert specs[..i] == specs;
      s := ActionsSummary(|executedActions|, successful, SuccessRate(successful, |executedActions|), types);
    }
  }

  /** No result is both a success and a failure, so the two counts never exceed the total. */
  lemma {:induction false} FailuresAndSuccesses(rs: seq<Option<ActionResult>>)
    ensures Count(rs, IsFailure) + Count(rs, IsSuccess) <= |rs|
    ensures Count(rs, IsFailure) + Count(rs, IsSuccess) == |rs| <==> forall i | 0 <= i < |rs| :: rs[i].Some?
  {
    if rs != [] {
      var init := rs[..|rs| - 1];
      FailuresAndSuccesses(init);
      if Count(init, IsFailure) + Count(init, IsSuccess) == |init| {
        assert forall i | 0 <= i < |init| :: init[i] == rs[i];
      } else {
        assert !(forall i | 0 <= i < |rs| :: rs[i].Some?) by {
          var j :| 0 <= j < |init| && init[j].None?;
          assert rs[j] == init[j];
        }
      }
    }
  }
}
