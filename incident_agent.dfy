/**
 * The incident-response agent's own state and decisions: the buffer of
 * alerts made from incoming events, the map of active incidents, turning
 * an incident-detected event into a resolution action, executing that
 * action with a runbook, and the periodic escalation sweep.
 *
 * The clustering, the incident classifier, the title hash, the rendering
 * of an event's data dictionary and the notification sends are oracle
 * parameters. Published events are kept in a ghost log.
 */
module IncidentAgent {
  import opened Text
  import opened Interfaces
  import opened Seqs
  import opened BaseAgents
  import opened Incidents
  import opened Runbooks
  import opened Escalation

  // ------------------------------------------------------ alerts from events

  /** The alert an anomaly or drift event becomes; `render` is the text of the event's data dictionary. */
  function AlertOf(event: SystemEvent, render: Dict -> string): (a: Alert)
    ensures a.id == "alert_" + event.id && a.source == event.source && a.severity == event.severity
    ensures a.title == EventTypeValue(event.eventType) + " detected"
    ensures a.labels == map["event_type" := EventTypeValue(event.eventType)]
    ensures a.timestamp == event.timestamp && a.metrics == map[] && a.rawData == event.data
  {
    Alert("alert_" + event.id, event.source, event.severity, EventTypeValue(event.eventType) + " detected",
          "Event from " + event.source + ": " + render(event.data), event.timestamp,
          map["event_type" := EventTypeValue(event.eventType)], map[], event.data)
  }

  // ------------------------------------------------------ new incidents

  /** The incident with the classifier's label and confidence recorded in its metadata. */
  function Classified(incident: Incident, classify: Incident -> (string, real)): (r: Incident)
    ensures r.id == incident.id && r.severity == incident.severity && r.alerts == incident.alerts
    ensures r.meta.incidentType == Some(classify(incident).0) && r.meta.confidence == Some(classify(incident).1)
  {
    var labelled := classify(incident);
    incident.(meta := incident.meta.(incidentType := Some(labelled.0), confidence := Some(labelled.1)))
  }

  /**
   * The incident-detected event announcing a classified incident; its
   * nested `incident_data` carries the title, the description and the
   * detection time.
   */
  function DetectionEvent(agentId: string, incident: Incident, incidentType: string, confidence: real, now: Timestamp)
    : (e: SystemEvent)
    requires IsSeverity(incident.severity)
    ensures e.eventType == IncidentDetected && e.severity == incident.severity && e.source == agentId
    ensures e.id == "incident_event_" + incident.id && e.timestamp == now
    ensures e.data.Keys == {"incident_id", "incident_type", "classification_confidence", "affected_resources",
                            "alert_count", "incident_data"}
    ensures GetStr(e.data, "incident_id") == Some(incident.id) && GetStr(e.data, "incident_type") == Some(incidentType)
    ensures e.data["classification_confidence"] == Num(confidence)
    ensures e.data["affected_resources"] == Strs(incident.affectedResources)
    ensures e.data["alert_count"] == Num(|incident.alerts| as real)
    ensures e.data["incident_data"].Obj? && e.data["incident_data"].fields.Keys == {"title", "description", "detected_at"}
    ensures GetStr(e.data["incident_data"].fields, "title") == Some(incident.title)
    ensures GetStr(e.data["incident_data"].fields, "description") == Some(incident.description)
    ensures e.data["incident_data"].fields["detected_at"] == Num(incident.detectedAt as real)
  {
    SystemEvent("incident_event_" + incident.id, IncidentDetected, agentId, incident.severity,
                map["incident_id" := Str(incident.id),
                    "incident_type" := Str(incidentType),
                    "classification_confidence" := Num(confidence),
                    "affected_resources" := Strs(incident.affectedResources),
                    "alert_count" := Num(|incident.alerts| as real),
                    "incident_data" := Obj(map["title" := Str(incident.title),
                                               "description" := Str(incident.description),
                                               "detected_at" := Num(incident.detectedAt as real)])],
                now, None)
  }

  /**
   * The events announcing new incidents, in order. Building an event
   * validates its severity, so an incident whose severity is none of the
   * four levels is recorded but never announced.
   */
  function DetectionEvents(agentId: string, incidents: seq<Incident>, classify: Incident -> (string, real),
                           now: Timestamp): (es: seq<SystemEvent>)
    ensures |es| <= |incidents|
  {
    if incidents == [] then []
    else
      var k := |incidents| - 1;
      var inc := incidents[k];
      DetectionEvents(agentId, incidents[..k], classify, now)
        + (if IsSeverity(inc.severity) then [DetectionEvent(agentId, inc, classify(inc).0, classify(inc).1, now)]
           else [])
  }

  /** The active map after adding each incident, classified, under its id. */
  function Admitted(active: map<string, Incident>, incidents: seq<Incident>, classify: Incident -> (string, real))
    : map<string, Incident>
  {
    if incidents == [] then active
    else
      var k := |incidents| - 1;
      Admitted(active, incidents[..k], classify)[incidents[k].id := Classified(incidents[k], classify)]
  }

  /** Every new incident ends up active; nothing active before is lost; every entry is stored under its own id. */
  lemma {:induction false} AdmittedContents(active: map<string, Incident>, incidents: seq<Incident>,
                                            classify: Incident -> (string, real))
    requires forall id | id in active :: active[id].id == id
    ensures var r := Admitted(active, incidents, classify);
            && r.Keys == active.Keys + (set i | 0 <= i < |incidents| :: incidents[i].id)
            && (forall id | id in r :: r[id].id == id)
  {
    if incidents != [] {
      var k := |incidents| - 1;
      AdmittedContents(active, incidents[..k], classify);
      assert forall i | 0 <= i < k :: incidents[..k][i] == incidents[i];
    }
  }

  /** One more incident: the fold and the announcements each take one step. */
  lemma AdmitStep(active: map<string, Incident>, incidents: seq<Incident>, i: nat,
                  classify: Incident -> (string, real), agentId: string, now: Timestamp)
    requires i < |incidents|
    ensures Admitted(active, incidents[..i + 1], classify)
            == Admitted(active, incidents[..i], classify)[incidents[i].id := Classified(incidents[i], classify)]
    ensures DetectionEvents(agentId, incidents[..i + 1], classify, now)
            == DetectionEvents(agentId, incidents[..i], classify, now)
               + (if IsSeverity(incidents[i].severity)
                  then [DetectionEvent(agentId, incidents[i], classify(incidents[i]).0, classify(incidents[i]).1, now)]
                  else [])
  {
    assert incidents[..i + 1][..i] == incidents[..i];
  }

  // ------------------------------------------------------ resolution actions

  /** The active incident an event's `incident_id` names: a non-empty string that is a key of the map. */
  function NamedIncident(data: Dict, active: map<string, Incident>): (r: Option<string>)
    ensures r.Some? <==> GetStr(data, "incident_id").Some? && GetStr(data, "incident_id").value != ""
                         && GetStr(data, "incident_id").value in active
    ensures r.Some? ==> r.value in active && r == GetStr(data, "incident_id")
  {
    match GetStr(data, "incident_id")
    case Some(id) => if id != "" && id in active then Some(id) else None
    case None => None
  }

  /**
   * The incident type an event names, `"unknown"` when it names none. A
   * non-string type matches no runbook pattern, which the model states as
   * no type at all (`None`).
   */
  function NamedType(data: Dict): (r: Option<string>)
    ensures "incident_type" !in data ==> r == Some("unknown")
    ensures "incident_type" in data ==> r == GetStr(data, "incident_type")
  {
    if "incident_type" !in data then Some("unknown") else GetStr(data, "incident_type")
  }

  /** `_assess_resolution_risk`. */
  function ResolutionRisk(incident: Incident, rb: Runbook): (r: RiskLevel)
    ensures r == High <==> incident.severity == "critical"
    ensures r == Medium <==> incident.severity != "critical" && (incident.severity == "high" || rb.riskLevel == "high")
    ensures r == Low <==> incident.severity != "critical" && incident.severity != "high" && rb.riskLevel != "high"
  {
    if incident.severity == "critical" then High
    else if incident.severity == "high" || rb.riskLevel == "high" then Medium
    else Low
  }

  /** The action proposed for an active incident of a type, using the runbook with the best success rate. */
  function ResolutionAction(agentId: string, event: SystemEvent, incident: Incident, incidentType: string,
                            rb: Runbook, now: Timestamp): (a: ActionSpec)
    ensures a.actionType == IncidentResolve && a.agentId == agentId
    ensures a.targetResources == incident.affectedResources && a.riskLevel == ResolutionRisk(incident, rb)
    ensures GetStr(a.metadata, "incident_id") == Some(incident.id)
    ensures GetStr(a.metadata, "runbook_id") == Some(rb.id)
  {
    ActionSpec(
      "incident_resolve_" + incident.id + "_" + IntToString(now), agentId, IncidentResolve,
      "Automated resolution for " + incidentType + " incident: " + incident.title,
      incident.affectedResources, ResolutionRisk(incident, rb),
      ("Attempt to resolve " + "incident using ") + rb.name,
      map["incident_id" := Str(incident.id), "incident_type" := Str(incidentType),
          "runbook_id" := Str(rb.id), "event_id" := Str(event.id)])
  }

  /**
   * `_handle_incident_detected_event`: an action exactly when the event
   * names an active incident, auto-resolution is on, and some runbook's
   * patterns list the type.
   */
  function ActionForDetection(agentId: string, event: SystemEvent, active: map<string, Incident>,
                              autoResolution: bool, catalog: seq<(string, Runbook)>, now: Timestamp)
    : (r: Option<ActionSpec>)
    requires forall id | id in active :: active[id].id == id
    ensures r.Some? <==> NamedIncident(event.data, active).Some? && autoResolution
                         && NamedType(event.data).Some? && FindApplicable(catalog, NamedType(event.data).value) != []
    ensures r.Some? ==>
              var id := NamedIncident(event.data, active).value;
              var rb := FindApplicable(catalog, NamedType(event.data).value)[0];
              r.value == ResolutionAction(agentId, event, active[id], NamedType(event.data).value, rb, now)
  {
    match NamedIncident(event.data, active)
    case None => None
    case Some(id) =>
      if !autoResolution then None
      else match NamedType(event.data)
        case None => None
        case Some(t) =>
          var rbs := FindApplicable(catalog, t);
          if rbs == [] then None
          else Some(ResolutionAction(agentId, event, active[id], t, rbs[0], now))
  }

  /** The proposed runbook is applicable to the type and has the best success rate of all applicable ones. */
  lemma ActionUsesBestRunbook(agentId: string, event: SystemEvent, active: map<string, Incident>,
                              autoResolution: bool, catalog: seq<(string, Runbook)>, now: Timestamp)
    requires forall id | id in active :: active[id].id == id
    requires ActionForDetection(agentId, event, active, autoResolution, catalog, now).Some?
    ensures var t := NamedType(event.data).value;
            var rb := FindApplicable(catalog, t)[0];
            && t in rb.incidentPatterns
            && (forall i | 0 <= i < |catalog| && t in catalog[i].1.incidentPatterns ::
                  catalog[i].1.successRate <= rb.successRate)
  {
    var t := NamedType(event.data).value;
    var found := FindApplicable(catalog, t);
    FindApplicableMembers(catalog, t);
    assert found[0] in found;
    forall i | 0 <= i < |catalog| && t in catalog[i].1.incidentPatterns
      ensures catalog[i].1.successRate <= found[0].successRate
    {
      var j :| 0 <= j < |found| && found[j] == catalog[i].1;
      if j > 0 {
        assert found[0].successRate >= found[j].successRate;
      }
    }
  }

  // ------------------------------------------------------ executing a resolution

  /** The text of a metadata value in a message; `show` renders values that are not strings. */
  function Shown(v: Option<Value>, show: Value -> string): string
  {
    match v
    case None => "None"
    case Some(Str(s)) => s
    case Some(other) => show(other)
  }

  /** The service a runbook's `{service_name}` names: the metadata's service, else the first service-like resource. */
  function ServiceName(incident: Incident): (s: string)
    ensures incident.meta.service.Some? ==> s == incident.meta.service.value
  {
    match incident.meta.service
    case Some(svc) => svc
    case None => FirstServiceLike(incident.affectedResources)
  }

  /** The first resource mentioning "service" or "deployment" in any case, else "unknown". */
  function FirstServiceLike(resources: seq<string>): (s: string)
    ensures s == "unknown" || s in resources
    ensures s != "unknown" ==> Contains(Lower(s), "service") || Contains(Lower(s), "deployment")
  {
    if resources == [] then "unknown"
    else if Contains(Lower(resources[0]), "service") || Contains(Lower(resources[0]), "deployment") then resources[0]
    else FirstServiceLike(resources[1..])
  }

  /** `_prepare_execution_context`, in the dictionary's key order. */
  function ExecutionContext(incident: Incident): (ctx: seq<(string, string)>)
    ensures |ctx| == 4 && ctx[0] == ("incident_id", incident.id) && ctx[1] == ("service_name", ServiceName(incident))
    ensures ctx[2] == ("target_replicas", "3") && ctx[3] == ("original_replicas", "2")
  {
    [("incident_id", incident.id), ("service_name", ServiceName(incident)),
     ("target_replicas", "3"), ("original_replicas", "2")]
  }

  /** The incident after a successful runbook: resolved now, automatically, with the executed steps' descriptions. */
  function ResolvedIncident(incident: Incident, e: Execution, now: Timestamp): (r: Incident)
    ensures r.status == Resolved && r.resolvedAt == Some(now) && r.automatedResolution
    ensures |r.resolutionSteps| == |e.stepsExecuted|
    ensures forall i | 0 <= i < |e.stepsExecuted| :: r.resolutionSteps[i] == e.stepsExecuted[i].description
  {
    incident.(status := Resolved, resolvedAt := Some(now), automatedResolution := true,
              resolutionSteps := seq(|e.stepsExecuted|, i requires 0 <= i < |e.stepsExecuted| =>
                                       e.stepsExecuted[i].description))
  }

  /** The reason given when attempts run out. */
  function AttemptsReason(maxAttempts: int): string
  {
    "Failed to resolve after " + IntToString(maxAttempts) + " attempts"
  }

  /**
   * The incident after a failed runbook: one more attempt, the time and
   * error recorded, and escalation forced once the attempts reach the
   * maximum, whether or not the incident was escalated already.
   */
  function AfterFailure(incident: Incident, e: Execution, maxAttempts: int, escalationEnabled: bool,
                        now: Timestamp, send: string -> Completion): (r: Incident)
    ensures r.id == incident.id && r.status == incident.status
    ensures r.meta.resolutionAttempts == incident.meta.resolutionAttempts + 1
    ensures r.meta.lastAttemptAt == Some(now) && r.meta.lastResolutionError == e.error
    ensures r.escalated <==> incident.escalated || (r.meta.resolutionAttempts >= maxAttempts && escalationEnabled)
    ensures r.meta.resolutionAttempts >= maxAttempts && escalationEnabled ==>
              r.meta.escalationReason == Some(AttemptsReason(maxAttempts))
              && r.meta.escalationResult == Some(EscalationOf(incident, AttemptsReason(maxAttempts), now, send))
  {
    var attempts := incident.meta.resolutionAttempts + 1;
    var counted := incident.(meta := incident.meta.(resolutionAttempts := attempts, lastAttemptAt := Some(now),
                                                     lastResolutionError := e.error));
    if attempts >= maxAttempts && escalationEnabled then
      var reason := AttemptsReason(maxAttempts);
      var escalated := Escalated(counted, reason, now);
      escalated.(meta := escalated.meta.(escalationResult := Some(EscalationOf(counted, reason, now, send))))
    else counted
  }

  // ------------------------------------------------------ escalation sweep

  /** What the sweep does to one incident: skip it if escalated, else escalate it when a rule fires. */
  function Swept(incident: Incident, rules: seq<Rule>, now: Timestamp, send: string -> Completion): (r: Incident)
    ensures r.id == incident.id
  {
    if incident.escalated then incident
    else
      var decision := ShouldEscalate(rules, incident, now);
      if !decision.0 then incident
      else
        var escalated := Escalated(incident, decision.1, now);
        escalated.(meta := escalated.meta.(escalationResult := Some(EscalationOf(incident, decision.1, now, send))))
  }

  /** The sweep leaves an escalated incident alone and escalates any other exactly when a rule fires. */
  lemma SweptFacts(incident: Incident, rules: seq<Rule>, now: Timestamp, send: string -> Completion)
    ensures var r := Swept(incident, rules, now, send);
            && (incident.escalated ==> r == incident)
            && (r.escalated <==> incident.escalated || ShouldEscalate(rules, incident, now).0)
            && (!incident.escalated && ShouldEscalate(rules, incident, now).0 ==>
                  r.meta.escalationReason == Some(ShouldEscalate(rules, incident, now).1))
            && (!r.escalated ==> r == incident)
  {
  }

  /** Sweeping twice at the same time is sweeping once: an escalated incident is never escalated again. */
  lemma SweptIdempotent(incident: Incident, rules: seq<Rule>, now: Timestamp, send: string -> Completion)
    ensures Swept(Swept(incident, rules, now, send), rules, now, send) == Swept(incident, rules, now, send)
  {
  }

  /** `_get_subscribed_event_types`: detected incidents, resource anomalies and infrastructure drift. */
  function SubscribedEventTypes(): seq<EventType>
  {
    [IncidentDetected, ResourceAnomaly, InfrastructureDrift]
  }

  // ------------------------------------------------------ the agent

  class IncidentResponseAgent {
    const agentId: string
    var activeIncidents: map<string, Incident>
    var alertBuffer: seq<Alert>
    var correlationInterval: real
    var autoResolutionEnabled: bool
    var escalationEnabled: bool
    var maxResolutionAttempts: int
    var executor: RunbookExecutor
    /** The escalation manager's rules; every manager the agent builds has the default four. */
    const escalationRules: seq<Rule>
    ghost var published: seq<SystemEvent>
    ghost var resolved: seq<Incident>

    /** Every active incident is stored under its own id. */
    ghost predicate Valid()
      reads this
    {
      forall id | id in activeIncidents :: activeIncidents[id].id == id
    }

    constructor(agentId: string)
      ensures Valid() && this.agentId == agentId
      ensures activeIncidents == map[] && alertBuffer == []
      ensures correlationInterval == 60.0 && autoResolutionEnabled && escalationEnabled && maxResolutionAttempts == 3
      ensures fresh(executor) && executor.runbooks == DefaultCatalog() && executor.executionHistory == []
      ensures escalationRules == DefaultRules()
      ensures published == [] && resolved == []
    {
      this.agentId := agentId;
      escalationRules := DefaultRules();
      activeIncidents := map[];
      alertBuffer := [];
      correlationInterval := 60.0;
      autoResolutionEnabled := true;
      escalationEnabled := true;
      maxResolutionAttempts := 3;
      executor := new RunbookExecutor();
      published := [];
      resolved := [];
    }

    /**
     * `_initialize_agent_specific` (also run by a configuration reload):
     * raises without a configuration; otherwise builds a fresh executor
     * and reads the four settings from the thresholds, with their defaults.
     */
    method Initialize(config: Option<AgentConfig>) returns (r: Completion)
      modifies this`executor, this`correlationInterval, this`autoResolutionEnabled, this`escalationEnabled
      modifies this`maxResolutionAttempts
      ensures r.Raised? <==> config.None?
      ensures config.None? ==> r == Raised("No configuration provided") && unchanged(this)
      ensures config.Some? ==>
                && fresh(executor) && executor.runbooks == DefaultCatalog() && executor.executionHistory == []
                && correlationInterval == Threshold(config.value, "correlation_interval", 60.0)
                && (autoResolutionEnabled <==> Threshold(config.value, "auto_resolution_enabled", 1.0) != 0.0)
                && (escalationEnabled <==> Threshold(config.value, "escalation_enabled", 1.0) != 0.0)
                && maxResolutionAttempts == Truncate(Threshold(config.value, "max_resolution_attempts", 3.0))
    {
      if config.None? {
        return Raised("No configuration provided");
      }
      var c := config.value;
      executor := new RunbookExecutor();
      correlationInterval := Threshold(c, "correlation_interval", 60.0);
      autoResolutionEnabled := Threshold(c, "auto_resolution_enabled", 1.0) != 0.0;
      escalationEnabled := Threshold(c, "escalation_enabled", 1.0) != 0.0;
      maxResolutionAttempts := Truncate(Threshold(c, "max_resolution_attempts", 3.0));
      r := Done;
    }

    /**
     * `_process_event_specific`: an incident-detected event may yield a
     * resolution action; an anomaly or drift event is buffered as an alert;
     * any other event is ignored.
     */
    method ProcessEvent(event: SystemEvent, render: Dict -> string, now: Timestamp) returns (action: Option<ActionSpec>)
      requires Valid()
      modifies this
      ensures Valid()
      ensures event.eventType == IncidentDetected ==>
                action == ActionForDetection(agentId, event, activeIncidents, autoResolutionEnabled,
                                             executor.runbooks, now)
      ensures event.eventType != IncidentDetected ==> action == None
      ensures event.eventType in {ResourceAnomaly, InfrastructureDrift} ==>
                alertBuffer == old(alertBuffer) + [AlertOf(event, render)]
      ensures event.eventType !in {ResourceAnomaly, InfrastructureDrift} ==> alertBuffer == old(alertBuffer)
      ensures event.eventType !in SubscribedEventTypes() ==> action == None && alertBuffer == old(alertBuffer)
      ensures activeIncidents == old(activeIncidents) && executor == old(executor)
      ensures autoResolutionEnabled == old(autoResolutionEnabled) && escalationEnabled == old(escalationEnabled)
      ensures published == old(published) && resolved == old(resolved)
    {
      action := None;
      if event.eventType == IncidentDetected {
        action := ActionForDetection(agentId, event, activeIncidents, autoResolutionEnabled, executor.runbooks, now);
      } else if event.eventType in {ResourceAnomaly, InfrastructureDrift} {
        alertBuffer := alertBuffer + [AlertOf(event, render)];
      }
    }

    /**
     * `_process_alert_buffer`: correlates the buffered alerts, makes each
     * incident active with its classification, announces it, and empties
     * the buffer. An empty buffer is left alone.
     */
    method ProcessAlertBuffer(now: Timestamp, cluster: seq<Alert> -> Clustering, hash: string -> int,
                              classify: Incident -> (string, real))
      requires Valid()
      modifies this`activeIncidents, this`published, this`alertBuffer
      ensures Valid()
      ensures old(alertBuffer) == [] ==> activeIncidents == old(activeIncidents) && published == old(published)
      ensures var incidents := CorrelateAlerts(old(alertBuffer), cluster, now, hash);
              && activeIncidents == Admitted(old(activeIncidents), incidents, classify)
              && published == old(published) + DetectionEvents(agentId, incidents, classify, now)
      ensures alertBuffer == []
    {
      if alertBuffer == [] {
        return;
      }
      var incidents := CorrelateAlerts(alertBuffer, cluster, now, hash);
      ProcessNewIncidents(incidents, now, classify);
      alertBuffer := [];
    }

    /** The loop over new incidents: each becomes active, classified, and is announced when its severity allows. */
    method ProcessNewIncidents(incidents: seq<Incident>, now: Timestamp, classify: Incident -> (string, real))
      requires Valid()
      modifies this`activeIncidents, this`published
      ensures Valid()
      ensures activeIncidents == Admitted(old(activeIncidents), incidents, classify)
      ensures published == old(published) + DetectionEvents(agentId, incidents, classify, now)
    {
      ghost var active0 := activeIncidents;
      var i := 0;
      while i < |incidents|
        invariant 0 <= i <= |incidents|
        invariant activeIncidents == Admitted(active0, incidents[..i], classify)
        invariant published == old(published) + DetectionEvents(agentId, incidents[..i], classify, now)
      {
        AdmitStep(active0, incidents, i, classify, agentId, now);
        Admit(incidents[i], now, classify);
        i := i + 1;
      }
      assert incidents[..i] == incidents;
      AdmittedContents(active0, incidents, classify);
    }

    /** One iteration: the incident becomes active, classified, and is announced when its severity allows. */
    method Admit(incident: Incident, now: Timestamp, classify: Incident -> (string, real))
      modifies this`activeIncidents, this`published
      ensures activeIncidents == old(activeIncidents)[incident.id := Classified(incident, classify)]
      ensures published == old(published)
                           + (if IsSeverity(incident.severity)
                              then [DetectionEvent(agentId, incident, classify(incident).0, classify(incident).1, now)]
                              else [])
    {
      var labelled := classify(incident);
      activeIncidents := activeIncidents[incident.id := Classified(incident, classify)];
      if IsSeverity(incident.severity) {
        published := published + [DetectionEvent(agentId, incident, labelled.0, labelled.1, now)];
      }
    }

    /**
     * `_execute_action_specific`: resolution actions are executed; any
     * other type is refused and changes nothing.
     */
    method ExecuteAction(action: ActionSpec, now: Timestamp, show: Value -> string, send: string -> Completion)
      returns (result: ActionResult)
      requires Valid()
      modifies this, executor
      ensures Valid()
      ensures action.actionType != IncidentResolve ==>
                result == FailedWith("Unsupported action type: " + ActionTypeValue(action.actionType),
                                     ("Action type not " + "supported by " + "Incident Response " + "agent"))
                && unchanged(this) && unchanged(executor)
      ensures action.actionType == IncidentResolve ==> ResolutionOutcome(action, now, show, send, result)
    {
      if action.actionType != IncidentResolve {
        return FailedWith("Unsupported action type: " + ActionTypeValue(action.actionType),
                          ("Action type not " + "supported by " + "Incident Response " + "agent"));
      }
      result := ExecuteIncidentResolution(action, now, show, send);
    }

    /**
     * What `_execute_incident_resolution` returns and does to the agent.
     * The incident id must be a non-empty string naming an active
     * incident (a non-empty list or dictionary raises inside the
     * membership test); the runbook is looked up by its catalog key (any
     * list or dictionary raises there too). A failed
     * lookup changes nothing. Otherwise the runbook is executed once:
     * success resolves the incident and retires it, failure counts the
     * attempt and may force escalation. The settings, the alert buffer and
     * the published events are never touched.
     */
    twostate predicate ResolutionOutcome(action: ActionSpec, now: Timestamp, show: Value -> string,
                                         send: string -> Completion, result: ActionResult)
      reads this, executor
    {
      && executor == old(executor) && executor.runbooks == old(executor.runbooks)
      && alertBuffer == old(alertBuffer) && published == old(published)
      && correlationInterval == old(correlationInterval) && autoResolutionEnabled == old(autoResolutionEnabled)
      && escalationEnabled == old(escalationEnabled) && maxResolutionAttempts == old(maxResolutionAttempts)
      && var idv := Get(action.metadata, "incident_id");
      && var rbv := Get(action.metadata, "runbook_id");
      && var untouched := activeIncidents == old(activeIncidents) && resolved == old(resolved)
                          && executor.executionHistory == old(executor.executionHistory);
      if !Truthy(idv) then
        result == FailedWith("Incident not found", "Incident " + Shown(idv, show) + " not in active incidents") && untouched
      else if Unhashable(idv.value).Some? then
        result == FailedWith(("Incident resolution " + "execution failed"),
                             "unhashable type: '" + Unhashable(idv.value).value + "'") && untouched
      else if !idv.value.Str? || idv.value.s !in old(activeIncidents) then
        result == FailedWith("Incident not found", "Incident " + Shown(idv, show) + " not in active incidents") && untouched
      else
        RunbookOutcome(idv.value.s, old(activeIncidents)[idv.value.s], rbv, now, show, send, result)
    }

    /**
     * Once the incident is found: the runbook is looked up by its catalog
     * key (any list or dictionary raises there); a failed lookup changes
     * nothing, a found runbook is executed as `RunOutcome` describes.
     */
    twostate predicate RunbookOutcome(id: string, incident: Incident, rbv: Option<Value>, now: Timestamp,
                                      show: Value -> string, send: string -> Completion, result: ActionResult)
      reads this, executor
    {
      var untouched := activeIncidents == old(activeIncidents) && resolved == old(resolved)
                       && executor.executionHistory == old(executor.executionHistory);
      if rbv.Some? && Unhashable(rbv.value).Some? then
        result == FailedWith(("Incident resolution " + "execution failed"),
                             "unhashable type: '" + Unhashable(rbv.value).value + "'") && untouched
      else if !(rbv.Some? && rbv.value.Str? && Lookup(executor.runbooks, rbv.value.s).Some?) then
        result == FailedWith("Runbook not found", "Runbook " + Shown(rbv, show) + " not found") && untouched
      else
        RunOutcome(id, incident, Lookup(executor.runbooks, rbv.value.s).value, now, send, result)
    }

    /**
     * The runbook executed once for an active incident, and its effect:
     * the execution joins the history; success resolves the incident and
     * retires it, failure counts the attempt and may force escalation.
     * Either way the result carries the execution's record.
     */
    twostate predicate RunOutcome(id: string, incident: Incident, rb: Runbook, now: Timestamp,
                                  send: string -> Completion, result: ActionResult)
      reads this, executor
    {
      var e := ExecutionOf(rb, id, ExecutionContext(incident), now);
      && executor.executionHistory == old(executor.executionHistory) + [e]
      && result.success == e.success
      && (e.success ==> activeIncidents == old(activeIncidents) - {id}
                        && resolved == old(resolved) + [ResolvedIncident(incident, e, now)]
                        && result.message == "Incident " + id + (" resolved " + "successfully using ") + rb.name
                        && result.data == map["incident_id" := Str(id), "runbook_used" := Str(rb.name),
                                              "execution_result" := ExecutionData(e),
                                              "resolution_time" := Num((now - incident.detectedAt) as real)])
      && (!e.success ==> var updated := AfterFailure(incident, e, maxResolutionAttempts, escalationEnabled, now, send);
                         && activeIncidents == old(activeIncidents)[id := updated]
                         && resolved == old(resolved)
                         && result.message == ("Failed to resolve " + "incident ") + id
                         && result.error == e.error
                         && result.data == map["incident_id" := Str(id), "runbook_used" := Str(rb.name),
                                               "execution_result" := ExecutionData(e),
                                               "resolution_attempts" := Num(updated.meta.resolutionAttempts as real)])
    }

    /** `_execute_incident_resolution`, as `ResolutionOutcome` describes it. */
    method ExecuteIncidentResolution(action: ActionSpec, now: Timestamp, show: Value -> string,
                                     send: string -> Completion) returns (result: ActionResult)
      requires Valid()
      modifies this`activeIncidents, this`resolved, executor
      ensures Valid()
      ensures ResolutionOutcome(action, now, show, send, result)
    {
      var idv := Get(action.metadata, "incident_id");
      if !Truthy(idv) {
        return FailedWith("Incident not found", "Incident " + Shown(idv, show) + " not in active incidents");
      }
      if Unhashable(idv.value).Some? {
        // membership of a list or a dictionary in a dictionary raises
        return FailedWith(("Incident resolution " + "execution failed"),
                          "unhashable type: '" + Unhashable(idv.value).value + "'");
      }
      if !idv.value.Str? || idv.value.s !in activeIncidents {
        return FailedWith("Incident not found", "Incident " + Shown(idv, show) + " not in active incidents");
      }
      result := ResolveWithRunbook(idv.value.s, activeIncidents[idv.value.s], Get(action.metadata, "runbook_id"),
                                   now, show, send);
    }

    /** The runbook lookup and what follows, as `RunbookOutcome` describes it. */
    method ResolveWithRunbook(id: string, incident: Incident, rbv: Option<Value>, now: Timestamp,
                              show: Value -> string, send: string -> Completion) returns (result: ActionResult)
      requires Valid() && id in activeIncidents && activeIncidents[id] == incident
      modifies this`activeIncidents, this`resolved, executor
      ensures Valid()
      ensures RunbookOutcome(id, incident, rbv, now, show, send, result)
    {
      if rbv.Some? && Unhashable(rbv.value).Some? {
        return FailedWith(("Incident resolution " + "execution failed"),
                          "unhashable type: '" + Unhashable(rbv.value).value + "'");
      }
      var found := if rbv.Some? && rbv.value.Str? then Lookup(executor.runbooks, rbv.value.s) else None;
      if found.None? {
        return FailedWith("Runbook not found", "Runbook " + Shown(rbv, show) + " not found");
      }
      result := RunResolution(id, incident, found.value, now, send);
    }

    /** The resolution once the incident and the runbook are found, as `RunOutcome` describes it. */
    method RunResolution(id: string, incident: Incident, rb: Runbook, now: Timestamp, send: string -> Completion)
      returns (result: ActionResult)
      requires Valid() && id in activeIncidents && activeIncidents[id] == incident
      modifies this`activeIncidents, this`resolved, executor
      ensures Valid()
      ensures RunOutcome(id, incident, rb, now, send, result)
    {
      var e := executor.ExecuteRunbook(rb, id, ExecutionContext(incident), now);
      if e.success {
        result := Retire(id, incident, rb, e, now);
      } else {
        result := CountFailure(id, incident, rb, e, now, send);
      }
    }

    /** A successful execution resolves the incident, records it and retires it from the active set. */
    method Retire(id: string, incident: Incident, rb: Runbook, e: Execution, now: Timestamp)
      returns (result: ActionResult)
      requires Valid() && id in activeIncidents
      modifies this`activeIncidents, this`resolved
      ensures Valid()
      ensures (activeIncidents, resolved) == (old(activeIncidents) - {id}, old(resolved) + [ResolvedIncident(incident, e, now)])
      ensures result == Succeeded("Incident " + id + (" resolved " + "successfully using ") + rb.name,
                                  map["incident_id" := Str(id), "runbook_used" := Str(rb.name),
                                      "execution_result" := ExecutionData(e),
                                      "resolution_time" := Num((now - incident.detectedAt) as real)])
    {
      resolved := resolved + [ResolvedIncident(incident, e, now)];
      activeIncidents := activeIncidents - {id};
      result := Succeeded("Incident " + id + (" resolved " + "successfully using ") + rb.name,
                          map["incident_id" := Str(id), "runbook_used" := Str(rb.name),
                              "execution_result" := ExecutionData(e),
                              "resolution_time" := Num((now - incident.detectedAt) as real)]);
    }

    /** A failed execution counts the attempt on the incident, which may force its escalation. */
    method CountFailure(id: string, incident: Incident, rb: Runbook, e: Execution, now: Timestamp,
                        send: string -> Completion) returns (result: ActionResult)
      requires Valid() && id in activeIncidents && activeIncidents[id] == incident
      modifies this`activeIncidents
      ensures Valid()
      ensures var updated := AfterFailure(incident, e, maxResolutionAttempts, escalationEnabled, now, send);
              && activeIncidents == old(activeIncidents)[id := updated]
              && result == ActionResult(false, ("Failed to resolve " + "incident ") + id,
                                        map["incident_id" := Str(id), "runbook_used" := Str(rb.name),
                                            "execution_result" := ExecutionData(e),
                                            "resolution_attempts" := Num(updated.meta.resolutionAttempts as real)],
                                        e.error, None)
    {
      var updated := AfterFailure(incident, e, maxResolutionAttempts, escalationEnabled, now, send);
      activeIncidents := activeIncidents[id := updated];
      result := ActionResult(false, ("Failed to resolve " + "incident ") + id,
                             map["incident_id" := Str(id), "runbook_used" := Str(rb.name),
                                 "execution_result" := ExecutionData(e),
                                 "resolution_attempts" := Num(updated.meta.resolutionAttempts as real)],
                             e.error, None);
    }

    /** One iteration of the sweep: an incident not yet escalated is escalated when a rule fires. */
    static method SweepOne(incident: Incident, rules: seq<Rule>, now: Timestamp, send: string -> Completion)
      returns (r: Incident)
      ensures r == Swept(incident, rules, now, send)
    {
      r := incident;
      if !incident.escalated {
        var decision := ShouldEscalate(rules, incident, now);
        if decision.0 {
          var escalated, record := EscalateIncident(incident, decision.1, now, send);
          r := escalated.(meta := escalated.meta.(escalationResult := Some(record)));
        }
      }
    }

    /** `_check_incidents_for_escalation`: sweeps every active incident once. */
    method CheckIncidentsForEscalation(now: Timestamp, send: string -> Completion)
      requires Valid()
      modifies this
      ensures Valid()
      ensures activeIncidents.Keys == old(activeIncidents).Keys
      ensures forall id | id in activeIncidents :: activeIncidents[id] == Swept(old(activeIncidents)[id], escalationRules, now, send)
      ensures executor == old(executor) && alertBuffer == old(alertBuffer)
      ensures published == old(published) && resolved == old(resolved)
    {
      activeIncidents := SweepAll(activeIncidents, escalationRules, now, send);
    }

    /** The loop over the active incidents, in any order: each is swept once. */
    static method SweepAll(active: map<string, Incident>, rules: seq<Rule>, now: Timestamp,
                           send: string -> Completion)
      returns (r: map<string, Incident>)
      ensures r.Keys == active.Keys
      ensures forall id | id in active :: r[id] == Swept(active[id], rules, now, send)
    {
      r := active;
      var todo := active.Keys;
      while todo != {}
        invariant todo <= active.Keys && r.Keys == active.Keys
        invariant forall id | id in todo :: r[id] == active[id]
        invariant forall id | id in active && id !in todo :: r[id] == Swept(active[id], rules, now, send)
        decreases |todo|
      {
        var id :| id in todo;
        var swept := SweepOne(r[id], rules, now, send);
        r := r[id := swept];
        todo := todo - {id};
      }
    }
  }

  // ------------------------------------------------------ the detection round trip

  /**
   * An action proposed at detection stores the runbook's id, while
   * resolution looks runbooks up by catalog key; with the default catalog
   * no id is a key, so executing such an action always reports that the
   * runbook was not found.
   */
  lemma DetectedActionFindsNoRunbook(agentId: string, event: SystemEvent, active: map<string, Incident>,
                                     autoResolution: bool, now: Timestamp)
    requires forall id | id in active :: active[id].id == id
    requires ActionForDetection(agentId, event, active, autoResolution, DefaultCatalog(), now).Some?
    ensures var a := ActionForDetection(agentId, event, active, autoResolution, DefaultCatalog(), now).value;
            && GetStr(a.metadata, "runbook_id").Some?
            && Lookup(DefaultCatalog(), GetStr(a.metadata, "runbook_id").value).None?
  {
    var catalog := DefaultCatalog();
    var t := NamedType(event.data).value;
    var found := FindApplicable(catalog, t);
    var rb := found[0];
    var id := NamedIncident(event.data, active).value;
    var a := ActionForDetection(agentId, event, active, autoResolution, catalog, now).value;
    assert a == ResolutionAction(agentId, event, active[id], t, rb, now);
    assert GetStr(a.metadata, "runbook_id") == Some(rb.id);
    RunbookIdIsNoKey(t);
  }

  /** No runbook found for any type carries an id that is a catalog key. */
  lemma RunbookIdIsNoKey(t: string)
    requires FindApplicable(DefaultCatalog(), t) != []
    ensures Lookup(DefaultCatalog(), FindApplicable(DefaultCatalog(), t)[0].id).None?
  {
    var catalog := DefaultCatalog();
    var found := FindApplicable(catalog, t);
    FindApplicableMembers(catalog, t);
    assert found[0] in found;
    var i :| 0 <= i < |catalog| && CatalogRunbooks(catalog)[i] == found[0];
    CatalogIdsAreNotKeys(i);
  }
}
