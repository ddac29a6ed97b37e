/**
 * The agent runtime's shared data model: the enumerations, the records
 * agents exchange (configurations, events, actions, results, health
 * reports) and their defaults. Timestamps are whole seconds.
 */
module Interfaces {
  import opened Text

  type Timestamp = int

  datatype AgentType = Terraform | Kubernetes | IncidentResponse | CostOptimization

  datatype ActionType =
    | TerraformApply | TerraformPlan | K8sScale | K8sRestart
    | IncidentResolve | CostOptimize | ResourceCleanup

  datatype EventType =
    | InfrastructureDrift | ResourceAnomaly | IncidentDetected
    | CostThresholdExceeded | ScalingRequired

  datatype RiskLevel = Low | Medium | High

  datatype ActionStatus = Pending | Approved | Executing | Completed | Failed | Cancelled

  datatype AgentStatus = Healthy | Degraded | Unhealthy | Offline

  datatype AutomationLevel = Manual | SemiAuto | FullAuto

  /** The enumeration's string value, as stored in summaries and dictionaries. */
  function AgentTypeValue(t: AgentType): string
  {
    match t
    case Terraform => "terraform"
    case Kubernetes => "kubernetes"
    case IncidentResponse => "incident_response"
    case CostOptimization => "cost_optimization"
  }

  function ActionTypeValue(t: ActionType): string
  {
    match t
    case TerraformApply => "terraform_apply"
    case TerraformPlan => "terraform_plan"
    case K8sScale => "k8s_scale"
    case K8sRestart => "k8s_restart"
    case IncidentResolve => "incident_resolve"
    case CostOptimize => "cost_optimize"
    case ResourceCleanup => "resource_cleanup"
  }

  function EventTypeValue(t: EventType): string
  {
    match t
    case InfrastructureDrift => "infrastructure_drift"
    case ResourceAnomaly => "resource_anomaly"
    case IncidentDetected => "incident_detected"
    case CostThresholdExceeded => "cost_threshold_exceeded"
    case ScalingRequired => "scaling_required"
  }

  /** Distinct event types have distinct string values, so per-type counts never merge. */
  lemma EventTypeValueInjective(a: EventType, b: EventType)
    ensures EventTypeValue(a) == EventTypeValue(b) ==> a == b
  {
  }

  // ------------------------------------------------------------- severity

  /** The values an event's severity may take (the pattern `^(low|medium|high|critical)$`). */
  predicate IsSeverity(s: string)
  {
    s == "low" || s == "medium" || s == "high" || s == "critical"
  }

  type Severity = s: string | IsSeverity(s) witness "low"

  /** A risk level's string value; risk has three levels, one fewer than severity. */
  function RiskLevelValue(r: RiskLevel): (s: Severity)
    ensures s != "critical"
    ensures r == Low ==> s == "low"
    ensures r == Medium ==> s == "medium"
    ensures r == High ==> s == "high"
  {
    match r
    case Low => "low"
    case Medium => "medium"
    case High => "high"
  }

  /** Every severity other than critical is the value of exactly one risk level. */
  lemma RiskLevelsCoverSeverities(s: Severity)
    ensures s != "critical" ==> exists r: RiskLevel :: RiskLevelValue(r) == s
  {
    if s == "low" { assert RiskLevelValue(Low) == s; }
    else if s == "medium" { assert RiskLevelValue(Medium) == s; }
    else if s == "high" { assert RiskLevelValue(High) == s; }
  }

  // --------------------------------------------------------------- values

  /** A JSON-like value stored in the free-form `data` and `metadata` dictionaries. */
  /**
   * A value held in an event's or an action's dictionary: a string, a number,
   * a bool, a list of strings, any other list, a nested dictionary or `None`.
   */
  datatype Value =
    | Str(s: string) | Num(n: real) | Flag(b: bool) | Strs(items: seq<string>)
    | List(elems: seq<Value>) | Obj(fields: map<string, Value>) | Null

  type Dict = map<string, Value>

  /** `d.get(key)` when the stored value is a string. */
  function GetStr(d: Dict, key: string): (r: Option<string>)
    ensures r.Some? <==> key in d && d[key].Str?
    ensures r.Some? ==> d[key] == Str(r.value)
  {
    if key in d && d[key].Str? then Some(d[key].s) else None
  }

  /** Python's truth value of a metadata value (an absent key reads as `None`). */
  predicate Truthy(v: Option<Value>)
  {
    match v
    case None => false
    case Some(Str(s)) => s != ""
    case Some(Num(n)) => n != 0.0
    case Some(Flag(b)) => b
    case Some(Strs(items)) => items != []
    case Some(List(elems)) => elems != []
    case Some(Obj(fields)) => fields != map[]
    case Some(Null) => false
  }

  /** `d.get(key)`. */
  function Get(d: Dict, key: string): Option<Value>
  {
    if key in d then Some(d[key]) else None
  }

  /** `d.get(key, default)`. */
  function GetOr<V>(d: map<string, V>, key: string, default: V): (v: V)
    ensures key in d ==> v == d[key]
    ensures key !in d ==> v == default
  {
    if key in d then d[key] else default
  }

  /**
   * `data.get(key, default)` as an f-string shows it: a string as
   * is, any other value through `show` (Python's `str`).
   */
  function DataText(data: Dict, key: string, default: string, show: Value -> string): (r: string)
    ensures key !in data ==> r == default
    ensures key in data && data[key].Str? ==> r == data[key].s
    ensures key in data && !data[key].Str? ==> r == show(data[key])
  {
    if key !in data then default
    else match data[key]
      case Str(s) => s
      case other => show(other)
  }

  /**
   * The type Python names when the value is used as a dictionary key
   * (`key in d`, `d.get(key)`): lists and dictionaries are unhashable and
   * raise a TypeError; every other value is hashable.
   */
  function Unhashable(v: Value): (t: Option<string>)
    ensures t.Some? <==> v.Strs? || v.List? || v.Obj?
    ensures t.Some? ==> t.value == (if v.Obj? then "dict" else "list")
  {
    match v
    case Strs(_) => Some("list")
    case List(_) => Some("list")
    case Obj(_) => Some("dict")
    case _ => None
  }

  /** An optional string as a dictionary value: the string, or `None`. */
  function OptStr(o: Option<string>): Value
  {
    if o.Some? then Str(o.value) else Null
  }

  // -------------------------------------------------------------- records

  datatype Integration = Integration(name: string, kind: string, config: map<string, string>, enabled: bool)

  /** The first integration of the given type, enabled or not (the agents' `for ... if integration.type == kind: break`). */
  function IntegrationOfKind(integrations: seq<Integration>, kind: string): (r: Option<Integration>)
    ensures r.Some? ==> r.value.kind == kind
  {
    if integrations == [] then None
    else if integrations[0].kind == kind then Some(integrations[0])
    else IntegrationOfKind(integrations[1..], kind)
  }

  /** It is the first of that type, and there is none exactly when no integration has that type. */
  lemma {:induction false} IntegrationOfKindIsFirst(integrations: seq<Integration>, kind: string)
    ensures var r := IntegrationOfKind(integrations, kind);
            && (r.None? <==> forall i | 0 <= i < |integrations| :: integrations[i].kind != kind)
            && (r.Some? ==> exists i | 0 <= i < |integrations| ::
                              integrations[i] == r.value
                              && forall j | 0 <= j < i :: integrations[j].kind != kind)
  {
    if integrations != [] && integrations[0].kind != kind {
      var tail := integrations[1..];
      IntegrationOfKindIsFirst(tail, kind);
      assert forall i | 1 <= i < |integrations| :: integrations[i] == tail[i - 1];
      var r := IntegrationOfKind(tail, kind);
      if r.Some? {
        var i :| 0 <= i < |tail| && tail[i] == r.value && forall j | 0 <= j < i :: tail[j].kind != kind;
        assert integrations[i + 1] == r.value;
      }
    } else if integrations != [] {
      assert integrations[0] == IntegrationOfKind(integrations, kind).value;
    }
  }

  datatype AgentConfig = AgentConfig(
    id: string,
    name: string,
    agentType: AgentType,
    enabled: bool,
    automationLevel: AutomationLevel,
    thresholds: map<string, real>,
    approvalRequired: bool,
    integrations: seq<Integration>,
    createdAt: Timestamp,
    updatedAt: Timestamp)

  /** A configuration built from its required fields only. */
  function NewAgentConfig(id: string, name: string, agentType: AgentType, now: Timestamp): (c: AgentConfig)
    ensures c.id == id && c.name == name && c.agentType == agentType
    ensures c.enabled && c.automationLevel == SemiAuto && c.approvalRequired
    ensures c.thresholds == map[] && c.integrations == []
    ensures c.createdAt == now && c.updatedAt == now
  {
    AgentConfig(id, name, agentType, true, SemiAuto, map[], true, [], now, now)
  }

  /** `config.thresholds.get(key, default)`. */
  function Threshold(c: AgentConfig, key: string, default: real): (r: real)
    ensures key in c.thresholds ==> r == c.thresholds[key]
    ensures key !in c.thresholds ==> r == default
  {
    if key in c.thresholds then c.thresholds[key] else default
  }

  /** Python's `int(x)` on a float: truncation toward zero. */
  function Truncate(x: real): (i: int)
    ensures x >= 0.0 ==> 0 <= i && i as real <= x < i as real + 1.0
    ensures x < 0.0 ==> i <= 0 && i as real - 1.0 < x <= i as real
  {
    if x >= 0.0 then x.Floor else -((-x).Floor)
  }

  datatype SystemEvent = SystemEvent(
    id: string,
    eventType: EventType,
    source: string,
    severity: Severity,
    data: Dict,
    timestamp: Timestamp,
    correlationId: Option<string>)

  /**
   * Building an event validates its severity: any string outside the four
   * levels is rejected (`None`), as the record's field pattern does.
   */
  function NewSystemEvent(id: string, eventType: EventType, source: string, severity: string,
                          data: Dict, now: Timestamp): (r: Option<SystemEvent>)
    ensures r.Some? <==> IsSeverity(severity)
    ensures r.Some? ==> r.value.severity == severity && r.value.eventType == eventType
    ensures r.Some? ==> r.value.id == id && r.value.source == source && r.value.data == data
    ensures r.Some? ==> r.value.timestamp == now && r.value.correlationId == None
  {
    if IsSeverity(severity) then Some(SystemEvent(id, eventType, source, severity, data, now, None))
    else None
  }

  /** An action's outcome; an absent `data` dictionary is the empty map. */
  datatype ActionResult = ActionResult(
    success: bool,
    message: string,
    data: Dict,
    error: Option<string>,
    executionTime: Option<real>)

  function Succeeded(message: string, data: Dict): (r: ActionResult)
    ensures r.success && r.message == message && r.data == data
    ensures r.error == None && r.executionTime == None
  {
    ActionResult(true, message, data, None, None)
  }

  function FailedWith(message: string, error: string): (r: ActionResult)
    ensures !r.success && r.message == message && r.error == Some(error)
    ensures r.data == map[] && r.executionTime == None
  {
    ActionResult(false, message, map[], Some(error), None)
  }

  /** The fields an action is built with; they never change afterwards. */
  datatype ActionSpec = ActionSpec(
    id: string,
    agentId: string,
    actionType: ActionType,
    description: string,
    targetResources: seq<string>,
    riskLevel: RiskLevel,
    estimatedImpact: string,
    metadata: Dict)

  /** An action, whose status, execution time and result are updated in place. */
  class AgentAction {
    const spec: ActionSpec
    var status: ActionStatus
    var executedAt: Option<Timestamp>
    var result: Option<ActionResult>

    /** A freshly built action is pending, not yet executed and without a result. */
    constructor (spec: ActionSpec)
      ensures this.spec == spec
      ensures status == Pending && executedAt == None && result == None
    {
      this.spec := spec;
      status := Pending;
      executedAt := None;
      result := None;
    }
  }

  datatype HealthStatus = HealthStatus(
    status: AgentStatus,
    lastHeartbeat: Timestamp,
    uptime: real,
    errorCount: nat,
    lastError: Option<string>,
    metrics: map<string, real>)

  /** A health report built from its required fields only. */
  function NewHealthStatus(status: AgentStatus, lastHeartbeat: Timestamp, uptime: real): (h: HealthStatus)
    ensures h.status == status && h.lastHeartbeat == lastHeartbeat && h.uptime == uptime
    ensures h.errorCount == 0 && h.lastError == None && h.metrics == map[]
  {
    HealthStatus(status, lastHeartbeat, uptime, 0, None, map[])
  }
}
