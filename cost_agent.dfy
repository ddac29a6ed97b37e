/**
 * The cost optimization agent: it turns cost and anomaly events into
 * optimization and cleanup actions, executes them against its active
 * recommendations, and on each analysis round admits the recommendations
 * worth enough, records the day's cost with a week of forecasts and
 * raises budget alerts.
 *
 * The cloud monitors are parameters (`utilization`, `todayCost`); the
 * shipped mock monitor is `CostEngine.MockUtilization`/`MockTodayCost`.
 * What the `cost_optimization` integration's `config` dictionary holds
 * besides strings (its `providers` list and its `budget_limits`
 * dictionary) is passed decoded as `CostSettings`.
 */
module CostAgents {
  import opened Text
  import opened Interfaces
  import opened Seqs
  import opened BaseAgents
  import opened CostEngine

  // ------------------------------------------------------ reading event data

  /** A value Python compares and formats as a number: a float, or a bool as 1 or 0. */
  function AsNumber(v: Value): (n: Option<real>)
    ensures v.Num? ==> n == Some(v.n)
    ensures n.Some? <==> v.Num? || v.Flag?
  {
    match v
    case Num(x) => Some(x)
    case Flag(b) => Some(if b then 1.0 else 0.0)
    case _ => None
  }

  /** `RiskLevel(v)`: only the three level strings convert. */
  function RiskNamed(v: Value): (r: Option<RiskLevel>)
    ensures r.Some? ==> v == Str(RiskLevelValue(r.value))
    ensures forall level :: v == Str(RiskLevelValue(level)) ==> r == Some(level)
  {
    match v
    case Str("low") => Some(Low)
    case Str("medium") => Some(Medium)
    case Str("high") => Some(High)
    case _ => None
  }

  /** A value the action record accepts as its list of target resources: a list of strings. */
  function StrList(v: Value): (r: Option<seq<string>>)
    ensures v.Strs? ==> r == Some(v.items)
    ensures !v.Strs? && !v.List? ==> r.None?
  {
    match v
    case Strs(items) => Some(items)
    case List(elems) =>
      if forall i | 0 <= i < |elems| :: elems[i].Str?
      then Some(seq(|elems|, i requires 0 <= i < |elems| && elems[i].Str? => elems[i].s))
      else None
    case _ => None
  }

  /** `d.get("affected_resources", [])` as a target list; `None` when the record would reject it. */
  function TargetsOf(d: Dict): (r: Option<seq<string>>)
    ensures "affected_resources" !in d ==> r == Some([])
    ensures "affected_resources" in d ==> r == StrList(d["affected_resources"])
  {
    if "affected_resources" in d then StrList(d["affected_resources"]) else Some([])
  }

  /** The recommendation dictionary a cost event carries, when it carries one. */
  function Recommended(event: SystemEvent): (rd: Option<Dict>)
    ensures rd.Some? <==> "recommendation" in event.data && event.data["recommendation"].Obj?
    ensures rd.Some? ==> event.data["recommendation"] == Obj(rd.value)
  {
    if "recommendation" in event.data && event.data["recommendation"].Obj?
    then Some(event.data["recommendation"].fields) else None
  }

  // ------------------------------------------------------ events to actions

  /** Applied without review only in full automation, at or above the confidence threshold, and at low risk. */
  predicate ShouldAutoApply(level: AutomationLevel, confidence: real, threshold: real, risk: RiskLevel)
  {
    level == FullAuto && confidence >= threshold && risk == Low
  }

  /**
   * `_handle_cost_threshold_event`: an event carrying a recommendation
   * dictionary yields a cost optimization action for its resources, at
   * its risk level, applied directly or offered for review. Anything the
   * handler would raise on (no configuration, an unknown risk level, a
   * non-numeric confidence it compares, targets that are not a list of
   * strings, savings it cannot format) yields no action.
   */
  function CostThresholdAction(agentId: string, event: SystemEvent, level: Option<AutomationLevel>,
                               threshold: real, now: Timestamp, show: Value -> string, fixed2: real -> string)
    : (a: Option<ActionSpec>)
    ensures a.Some? <==>
              && Recommended(event).Some? && level.Some?
              && var rd := Recommended(event).value;
              && RiskNamed(GetOr(rd, "risk_level", Str("medium"))).Some?
              && (level.value == FullAuto ==> AsNumber(GetOr(rd, "confidence", Num(0.0))).Some?)
              && TargetsOf(rd).Some?
              && AsNumber(GetOr(rd, "potential_savings", Num(0.0))).Some?
    ensures a.Some? ==>
              var rd := Recommended(event).value;
              var confidence := GetOr(rd, "confidence", Num(0.0));
              var risk := RiskNamed(GetOr(rd, "risk_level", Str("medium"))).value;
              var auto := level.value == FullAuto && ShouldAutoApply(level.value, AsNumber(confidence).value, threshold, risk);
              && a.value.actionType == CostOptimize && a.value.agentId == agentId
              && a.value.id == "cost_opt_action_" + IntToString(now)
              && a.value.targetResources == TargetsOf(rd).value
              && a.value.riskLevel == risk
              && a.value.estimatedImpact == "Potential savings: $" + fixed2(AsNumber(GetOr(rd, "potential_savings", Num(0.0))).value)
              && a.value.metadata == map["recommendation_id" := GetOr(rd, "id", Null),
                                         "auto_apply" := Flag(auto),
                                         "confidence" := confidence,
                                         "event_id" := Str(event.id)]
  {
    match Recommended(event)
    case None => None
    case Some(rd) =>
      var confidence := GetOr(rd, "confidence", Num(0.0));
      var risk := RiskNamed(GetOr(rd, "risk_level", Str("medium")));
      var targets := TargetsOf(rd);
      var savings := AsNumber(GetOr(rd, "potential_savings", Num(0.0)));
      if level.None? || risk.None? || (level.value == FullAuto && AsNumber(confidence).None?)
         || targets.None? || savings.None? then None
      else
        var auto := level.value == FullAuto && ShouldAutoApply(level.value, AsNumber(confidence).value, threshold, risk.value);
        var title := DataText(rd, "title", "Unknown", show);
        var description := if auto then "Apply cost optimization: " + title
                           else ("Review cost " + "optimization " + "recommendation: ") + title;
        Some(ActionSpec("cost_opt_action_" + IntToString(now), agentId, CostOptimize, description,
                        targets.value, risk.value, "Potential savings: $" + fixed2(savings.value),
                        map["recommendation_id" := GetOr(rd, "id", Null),
                            "auto_apply" := Flag(auto),
                            "confidence" := confidence,
                            "event_id" := Str(event.id)]))
  }

  /**
   * `_handle_resource_anomaly_event`: a low-utilization anomaly yields a
   * medium-risk cleanup of the resources it names; any other anomaly, or
   * targets that are not a list of strings, yield nothing.
   */
  function AnomalyAction(agentId: string, event: SystemEvent, now: Timestamp): (a: Option<ActionSpec>)
    ensures a.Some? <==> Get(event.data, "anomaly_type") == Some(Str("low_utilization")) && TargetsOf(event.data).Some?
    ensures a.Some? ==>
              && a.value.actionType == ResourceCleanup && a.value.riskLevel == Medium && a.value.agentId == agentId
              && a.value.id == "resource_cleanup_" + IntToString(now)
              && a.value.targetResources == TargetsOf(event.data).value
              && a.value.metadata == map["anomaly_data" := Obj(event.data), "event_id" := Str(event.id)]
  {
    if Get(event.data, "anomaly_type") == Some(Str("low_utilization")) && TargetsOf(event.data).Some? then
      Some(ActionSpec("resource_cleanup_" + IntToString(now), agentId, ResourceCleanup,
                      ("Clean up under-" + "utilized resources " + "detected by anomaly"),
                      TargetsOf(event.data).value, Medium,
                      ("Potential cost " + "savings from " + "removing unused " + "resources"),
                      map["anomaly_data" := Obj(event.data), "event_id" := Str(event.id)]))
    else None
  }

  // ------------------------------------------------------ events the agent raises

  /** `_assess_recommendation_severity`: by monthly savings, above 5000, 2000 and 500. */
  function RecommendationSeverity(rec: Recommendation): (s: Severity)
    ensures s == "critical" <==> rec.potentialSavings > 5000.0
    ensures s == "high" <==> 2000.0 < rec.potentialSavings <= 5000.0
    ensures s == "medium" <==> 500.0 < rec.potentialSavings <= 2000.0
    ensures s == "low" <==> rec.potentialSavings <= 500.0
  {
    if rec.potentialSavings > 5000.0 then "critical"
    else if rec.potentialSavings > 2000.0 then "high"
    else if rec.potentialSavings > 500.0 then "medium"
    else "low"
  }

  function SeverityRank(s: Severity): nat
  {
    if s == "critical" then 3 else if s == "high" then 2 else if s == "medium" then 1 else 0
  }

  /** Larger savings never make a recommendation's event less severe. */
  lemma SeverityGrowsWithSavings(a: Recommendation, b: Recommendation)
    requires a.potentialSavings <= b.potentialSavings
    ensures SeverityRank(RecommendationSeverity(a)) <= SeverityRank(RecommendationSeverity(b))
  {
  }

  /** The recommendation as the event's `recommendation` dictionary carries it. */
  function RecommendationData(rec: Recommendation): (d: Dict)
    ensures d.Keys == {"id", "type", "title", "description", "potential_savings", "confidence",
                       "risk_level", "affected_resources", "priority"}
    ensures d["id"] == Str(rec.id) && d["title"] == Str(rec.title)
    ensures d["potential_savings"] == Num(rec.potentialSavings) && d["confidence"] == Num(rec.confidence)
    ensures d["risk_level"] == Str(RiskLevelValue(rec.riskLevel)) && d["affected_resources"] == Strs(rec.affectedResources)
  {
    map["id" := Str(rec.id),
        "type" := Str(OptimizationTypeValue(rec.optimizationType)),
        "title" := Str(rec.title),
        "description" := Str(rec.description),
        "potential_savings" := Num(rec.potentialSavings),
        "confidence" := Num(rec.confidence),
        "risk_level" := Str(RiskLevelValue(rec.riskLevel)),
        "affected_resources" := Strs(rec.affectedResources),
        "priority" := Str(rec.priority)]
  }

  /** `_create_cost_optimization_event`: the agent announces an admitted recommendation. */
  function CostEvent(agentId: string, rec: Recommendation, now: Timestamp): (e: SystemEvent)
    ensures e.eventType == CostThresholdExceeded && e.source == agentId
    ensures e.severity == RecommendationSeverity(rec)
    ensures e.id == "cost_opt_" + rec.id
    ensures Recommended(e) == Some(RecommendationData(rec))
  {
    SystemEvent("cost_opt_" + rec.id, CostThresholdExceeded, agentId, RecommendationSeverity(rec),
                map["recommendation" := Obj(RecommendationData(rec))], now, None)
  }

  /**
   * The agent's own cost event comes back as an action on the
   * recommendation's resources, at its risk, naming its id, applied
   * directly exactly when the automation level, confidence and risk allow.
   */
  lemma CostEventRoundTrip(agentId: string, rec: Recommendation, level: AutomationLevel, threshold: real,
                           published: Timestamp, now: Timestamp, show: Value -> string, fixed2: real -> string)
    ensures var a := CostThresholdAction(agentId, CostEvent(agentId, rec, published), Some(level), threshold, now, show, fixed2);
            && a.Some?
            && a.value.targetResources == rec.affectedResources
            && a.value.riskLevel == rec.riskLevel
            && a.value.metadata["recommendation_id"] == Str(rec.id)
            && a.value.metadata["auto_apply"] == Flag(ShouldAutoApply(level, rec.confidence, threshold, rec.riskLevel))
            && a.value.estimatedImpact == "Potential savings: $" + fixed2(rec.potentialSavings)
  {
    var rd := RecommendationData(rec);
    assert Recommended(CostEvent(agentId, rec, published)) == Some(rd);
    assert GetOr(rd, "risk_level", Str("medium")) == Str(RiskLevelValue(rec.riskLevel));
    assert RiskNamed(GetOr(rd, "risk_level", Str("medium"))) == Some(rec.riskLevel);
    assert TargetsOf(rd) == Some(rec.affectedResources);
  }

  /** How the budget alert is published. */
  function BudgetAlertData(name: string, alert: BudgetAlert): Dict
  {
    map["budget_alert" := Obj(map["budget_name" := Str(name),
                                  "level" := Str(AlertLevelValue(alert.level)),
                                  "message" := Str(alert.message),
                                  "current_spend" := Num(alert.currentSpend),
                                  "projected_spend" := Num(alert.projectedSpend),
                                  "budget" := Num(alert.budget)])]
  }

  /**
   * `_create_budget_alert_event`: the alert's level becomes the event's
   * severity, which must be one of the four severities; the event for a
   * `warning` or `info` alert is rejected and never published.
   */
  function BudgetEvent(agentId: string, name: string, alert: BudgetAlert, now: Timestamp): (e: Option<SystemEvent>)
    ensures e.Some? <==> alert.level == Critical
    ensures e.Some? ==> && e.value.severity == "critical" && e.value.eventType == CostThresholdExceeded
                        && e.value.source == agentId
                        && e.value.id == "budget_alert_" + name + "_" + IntToString(now)
                        && e.value.data == BudgetAlertData(name, alert)
  {
    NewSystemEvent("budget_alert_" + name + "_" + IntToString(now), CostThresholdExceeded, agentId,
                   AlertLevelValue(alert.level), BudgetAlertData(name, alert), now)
  }

  /** The events published for one budget's alerts. */
  function AlertEvents(agentId: string, name: string, alerts: seq<BudgetAlert>, now: Timestamp): seq<SystemEvent>
  {
    if alerts == [] then []
    else
      var rest := AlertEvents(agentId, name, alerts[1..], now);
      match BudgetEvent(agentId, name, alerts[0], now)
      case Some(e) => [e] + rest
      case None => rest
  }

  /** The events published for every budget, in the order of the `budget_limits` dictionary. */
  function BudgetEvents(agentId: string, limits: seq<(string, real)>, spend: real, fs: seq<Forecast>,
                        now: Timestamp, fixed2: real -> string): seq<SystemEvent>
  {
    if limits == [] then []
    else
      var k := |limits| - 1;
      BudgetEvents(agentId, limits[..k], spend, fs, now, fixed2)
      + AlertEvents(agentId, limits[k].0, BudgetAlerts(spend, limits[k].1, fs, fixed2), now)
  }

  /** One budget publishes one critical event if the projection exceeds it, and nothing otherwise. */
  lemma OneBudgetEvents(agentId: string, name: string, spend: real, budget: real, fs: seq<Forecast>,
                        now: Timestamp, fixed2: real -> string)
    ensures var es := AlertEvents(agentId, name, BudgetAlerts(spend, budget, fs, fixed2), now);
            && (forall e | e in es :: e.severity == "critical" && e.eventType == CostThresholdExceeded)
            && |es| == (if spend + ForecastTotal(fs) > budget then 1 else 0)
  {
    var alerts := BudgetAlerts(spend, budget, fs, fixed2);
    if alerts != [] {
      assert alerts[1..] == [];
      assert AlertEvents(agentId, name, alerts[1..], now) == [];
    }
  }

  /** Only critical alerts reach the bus. */
  lemma {:induction false} BudgetEventsAreCritical(agentId: string, limits: seq<(string, real)>, spend: real,
                                                   fs: seq<Forecast>, now: Timestamp, fixed2: real -> string)
    ensures forall e | e in BudgetEvents(agentId, limits, spend, fs, now, fixed2) ::
              e.severity == "critical" && e.eventType == CostThresholdExceeded
  {
    if limits != [] {
      var k := |limits| - 1;
      BudgetEventsAreCritical(agentId, limits[..k], spend, fs, now, fixed2);
      OneBudgetEvents(agentId, limits[k].0, spend, limits[k].1, fs, now, fixed2);
    }
  }

  /** One budget event is published per budget the projection exceeds. */
  lemma {:induction false} BudgetEventCount(agentId: string, limits: seq<(string, real)>, spend: real,
                                            fs: seq<Forecast>, now: Timestamp, fixed2: real -> string)
    ensures |BudgetEvents(agentId, limits, spend, fs, now, fixed2)|
            == Count(limits, (l: (string, real)) => spend + ForecastTotal(fs) > l.1)
  {
    if limits != [] {
      var k := |limits| - 1;
      BudgetEventCount(agentId, limits[..k], spend, fs, now, fixed2);
      OneBudgetEvents(agentId, limits[k].0, spend, limits[k].1, fs, now, fixed2);
    }
  }

  /** A projection between 90% and 100% of a positive budget raises a warning, and no event at all. */
  lemma WarningIsNeverPublished(agentId: string, name: string, spend: real, budget: real, fs: seq<Forecast>,
                                now: Timestamp, fixed2: real -> string)
    requires budget > 0.0 && budget * 0.9 < spend + ForecastTotal(fs) <= budget
    ensures |BudgetAlerts(spend, budget, fs, fixed2)| == 1 && BudgetAlerts(spend, budget, fs, fixed2)[0].level == Warning
    ensures BudgetEvents(agentId, [(name, budget)], spend, fs, now, fixed2) == []
  {
    var alerts := BudgetAlerts(spend, budget, fs, fixed2);
    assert [(name, budget)][..0] == [];
    assert alerts[1..] == [];
    assert AlertEvents(agentId, name, alerts[1..], now) == [];
    assert BudgetEvent(agentId, name, alerts[0], now).None?;
  }

  // ------------------------------------------------------ executing actions

  /** One right-sized resource: a `t3.large` moved to a `t3.medium`, saving 50.0. */
  function RightSized(id: string): Dict
  {
    map["resource_id" := Str(id), "old_type" := Str("t3.large"), "new_type" := Str("t3.medium"),
        "estimated_savings" := Num(50.0)]
  }

  /** One optimized volume: `gp2` moved to `gp3`, saving 25.0. */
  function StorageOptimized(id: string): Dict
  {
    map["resource_id" := Str(id), "old_storage_type" := Str("gp2"), "new_storage_type" := Str("gp3"),
        "estimated_savings" := Num(25.0)]
  }

  /** The per-resource records, in the order of the resources. */
  function Records(ids: seq<string>, record: string -> Dict): (vs: seq<Value>)
    ensures |vs| == |ids| && forall i | 0 <= i < |ids| :: vs[i] == Obj(record(ids[i]))
  {
    seq(|ids|, i requires 0 <= i < |ids| => Obj(record(ids[i])))
  }

  /** The saving of `count` resources at `saving` each. */
  function TotalSaving(saving: real, count: nat): real
  {
    saving * count as real
  }

  /** The loop shared by right-sizing and storage optimization: one record and one saving per resource. */
  method OptimizeEach(ids: seq<string>, saving: real, record: string -> Dict) returns (done: seq<Value>, total: real)
    ensures done == Records(ids, record)
    ensures total == TotalSaving(saving, |ids|)
  {
    done := [];
    total := 0.0;
    var i := 0;
    while i < |ids|
      invariant i <= |ids| && |done| == i
      invariant forall j | 0 <= j < i :: done[j] == Obj(record(ids[j]))
      invariant total == saving * i as real
    {
      total := total + saving;
      done := done + [Obj(record(ids[i]))];
      i := i + 1;
    }
  }

  /** The loop that handles each resource in turn; none fails, so every resource is handled, in order. */
  method ProcessEach(ids: seq<string>) returns (processed: seq<string>)
    ensures processed == ids
  {
    processed := [];
    var i := 0;
    while i < |ids|
      invariant i <= |ids| && processed == ids[..i]
    {
      processed := processed + [ids[i]];
      i := i + 1;
    }
  }

  /** The successful result shared by right-sizing and storage optimization. */
  function Optimized(prefix: string, count: nat, recordsKey: string, records: seq<Value>, total: real, kind: string)
    : ActionResult
  {
    Succeeded(prefix + NatToString(count) + " resources", map[recordsKey := List(records), "failed_resources" := Strs([]),
                           "total_savings" := Num(total), "optimization_type" := Str(kind)])
  }

  /**
   * `_execute_right_sizing`: fails without targets; otherwise every
   * target is resized, each saving 50.0.
   */
  function RightSizingResult(targets: seq<string>): (r: ActionResult)
    ensures r.success <==> targets != []
    ensures targets == [] ==> r == FailedWith(("No target resources " + "specified for " + "right-sizing"),
                                              ("Target resources " + "list is empty"))
    ensures targets != [] ==>
              && r.message == "Successfully right-sized " + NatToString(|targets|) + " resources"
              && r.data.Keys == {"resized_resources", "failed_resources", "total_savings", "optimization_type"}
              && r.data["total_savings"] == Num(50.0 * |targets| as real)
              && r.data["resized_resources"] == List(Records(targets, RightSized))
              && r.data["failed_resources"] == Strs([])
              && r.data["optimization_type"] == Str(OptimizationTypeValue(RightSizing))
  {
    if targets == [] then
      FailedWith(("No target resources " + "specified for " + "right-sizing"), ("Target resources " + "list is empty"))
    else
      Optimized("Successfully right-sized ", |targets|, "resized_resources",
                Records(targets, RightSized), TotalSaving(50.0, |targets|), "right_sizing")
  }

  /** `_execute_storage_optimization`: fails without targets; otherwise every target is optimized, each saving 25.0. */
  function StorageResult(targets: seq<string>): (r: ActionResult)
    ensures r.success <==> targets != []
    ensures targets == [] ==> r == FailedWith(("No target resources " + "specified for " + "storage optimization"),
                                              ("Target resources " + "list is empty"))
    ensures targets != [] ==>
              && r.message == ("Successfully " + "optimized storage " + "for ") + NatToString(|targets|) + " resources"
              && r.data.Keys == {"optimized_resources", "failed_resources", "total_savings", "optimization_type"}
              && r.data["total_savings"] == Num(25.0 * |targets| as real)
              && r.data["optimized_resources"] == List(Records(targets, StorageOptimized))
              && r.data["failed_resources"] == Strs([])
              && r.data["optimization_type"] == Str(OptimizationTypeValue(StorageOptimization))
  {
    if targets == [] then
      FailedWith(("No target resources " + "specified for " + "storage optimization"), ("Target resources " + "list is empty"))
    else
      Optimized("Successfully " + "optimized storage " + "for ", |targets|, "optimized_resources",
                Records(targets, StorageOptimized), TotalSaving(25.0, |targets|),
                "storage_optimization")
  }

  /** `_execute_resource_cleanup`: fails without targets; otherwise every target is cleaned up. */
  function CleanupResult(targets: seq<string>): (r: ActionResult)
    ensures r.success <==> targets != []
    ensures targets == [] ==> r == FailedWith("No target resources specified", ("Target resources " + "list is empty"))
    ensures targets != [] ==>
              && r.message == "Cleaned up " + NatToString(|targets|) + " resources"
              && r.data.Keys == {"cleaned_resources", "failed_resources", "total_cleaned"}
              && r.data["cleaned_resources"] == Strs(targets)
              && r.data["failed_resources"] == Strs([])
              && r.data["total_cleaned"] == Num(|targets| as real)
  {
    if targets == [] then
      FailedWith("No target resources specified", ("Target resources " + "list is empty"))
    else
      Succeeded("Cleaned up " + NatToString(|targets|) + " resources",
                map["cleaned_resources" := Strs(targets), "failed_resources" := Strs([]),
                    "total_cleaned" := Num(|targets| as real)])
  }

  /** Any other recommendation type: the recommendation's own resources are optimized, always successfully. */
  function GenericResult(rec: Recommendation): (r: ActionResult)
    ensures r.success && r.error.None?
    ensures r.message == "Successfully optimized " + NatToString(|rec.affectedResources|) + " resources"
    ensures r.data.Keys == {"optimized_resources", "estimated_savings", "optimization_type"}
    ensures r.data["optimized_resources"] == Strs(rec.affectedResources)
    ensures r.data["estimated_savings"] == Num(rec.potentialSavings)
  {
    Succeeded("Successfully optimized " + NatToString(|rec.affectedResources|) + " resources",
              map["optimized_resources" := Strs(rec.affectedResources),
                  "estimated_savings" := Num(rec.potentialSavings),
                  "optimization_type" := Str(OptimizationTypeValue(rec.optimizationType))])
  }

  /** The position of the first recommendation whose id equals `id`. */
  function FirstWithId(recs: seq<Recommendation>, id: Value): (k: Option<nat>)
    ensures k.Some? ==> k.value < |recs| && Str(recs[k.value].id) == id
    ensures k.Some? ==> forall j | 0 <= j < k.value :: Str(recs[j].id) != id
    ensures k.None? ==> forall j | 0 <= j < |recs| :: Str(recs[j].id) != id
  {
    if recs == [] then None
    else if Str(recs[0].id) == id then Some(0)
    else match FirstWithId(recs[1..], id)
      case None => None
      case Some(k) => Some(k + 1)
  }

  /**
   * `_execute_cost_optimization`: the action must name a recommendation
   * (a truthy `recommendation_id`) that is active; right-sizing and
   * storage optimization then work on the action's targets, any other
   * type on the recommendation's own resources.
   */
  function CostOptimizationResult(action: ActionSpec, active: seq<Recommendation>, show: Value -> string)
    : (r: ActionResult)
    ensures !Truthy(Get(action.metadata, "recommendation_id")) ==>
              r == FailedWith(("No recommendation " + "ID provided"),
                              ("Missing " + "recommendation ID " + "in action metadata"))
    ensures Truthy(Get(action.metadata, "recommendation_id"))
            && FirstWithId(active, action.metadata["recommendation_id"]).None? ==>
              r == FailedWith("Recommendation not found",
                              ("Could not find " + "recommendation with " + "ID: ")
                              + DataText(action.metadata, "recommendation_id", "None", show))
    ensures Truthy(Get(action.metadata, "recommendation_id"))
            && FirstWithId(active, action.metadata["recommendation_id"]).Some? ==>
              var rec := active[FirstWithId(active, action.metadata["recommendation_id"]).value];
              r == match rec.optimizationType
                   case RightSizing => RightSizingResult(action.targetResources)
                   case StorageOptimization => StorageResult(action.targetResources)
                   case _ => GenericResult(rec)
  {
    var id := Get(action.metadata, "recommendation_id");
    if !Truthy(id) then
      FailedWith(("No recommendation " + "ID provided"), ("Missing " + "recommendation ID " + "in action metadata"))
    else match FirstWithId(active, id.value)
      case None =>
        FailedWith("Recommendation not found",
                   ("Could not find " + "recommendation with " + "ID: ") + DataText(action.metadata, "recommendation_id", "None", show))
      case Some(k) =>
        var rec := active[k];
        match rec.optimizationType
        case RightSizing => RightSizingResult(action.targetResources)
        case StorageOptimization => StorageResult(action.targetResources)
        case _ => GenericResult(rec)
  }

  /**
   * The action built from the agent's own event for an active
   * recommendation with a non-empty id finds a recommendation with that
   * id, and acts on the event's resources; only a right-sizing or storage
   * optimization without resources fails.
   */
  lemma ActiveRecommendationExecutes(agentId: string, rec: Recommendation, active: seq<Recommendation>,
                                     level: AutomationLevel, threshold: real, published: Timestamp,
                                     now: Timestamp, show: Value -> string, fixed2: real -> string)
    requires rec in active && rec.id != ""
    ensures var a := CostThresholdAction(agentId, CostEvent(agentId, rec, published), Some(level), threshold, now, show, fixed2);
            var k := FirstWithId(active, Str(rec.id));
            && a.Some? && k.Some? && active[k.value].id == rec.id
            && var found := active[k.value];
               CostOptimizationResult(a.value, active, show).success
               <==> rec.affectedResources != [] || found.optimizationType !in {RightSizing, StorageOptimization}
  {
    CostEventRoundTrip(agentId, rec, level, threshold, published, now, show, fixed2);
    var a := CostThresholdAction(agentId, CostEvent(agentId, rec, published), Some(level), threshold, now, show, fixed2).value;
    assert Get(a.metadata, "recommendation_id") == Some(Str(rec.id));
    NamedRecommendationExecutes(a, rec, active, show);
  }

  /** An action naming an active recommendation finds it, and fails only for a targeted type without targets. */
  lemma NamedRecommendationExecutes(a: ActionSpec, rec: Recommendation, active: seq<Recommendation>, show: Value -> string)
    requires rec in active && rec.id != "" && Get(a.metadata, "recommendation_id") == Some(Str(rec.id))
    ensures var k := FirstWithId(active, Str(rec.id));
            && k.Some? && active[k.value].id == rec.id
            && (CostOptimizationResult(a, active, show).success
                <==> a.targetResources != [] || active[k.value].optimizationType !in {RightSizing, StorageOptimization})
  {
    var k := FirstWithId(active, Str(rec.id));
    assert k.Some? by {
      var i :| 0 <= i < |active| && active[i] == rec;
      assert Str(active[i].id) == Str(rec.id);
    }
    var found := active[k.value];
    assert found.id == rec.id;
    var r := CostOptimizationResult(a, active, show);
    match found.optimizationType
    case RightSizing =>
      assert r == RightSizingResult(a.targetResources);
    case StorageOptimization =>
      assert r == StorageResult(a.targetResources);
    case _ =>
      assert r == GenericResult(found);
  }

  // ------------------------------------------------------ configuration

  /**
   * What the `cost_optimization` integration's `config` dictionary holds:
   * whether it is non-empty, the `name` of each entry of its `providers`
   * list, and its `budget_limits` dictionary in order.
   */
  datatype CostSettings = CostSettings(nonEmpty: bool, providers: seq<Option<string>>, budgetLimits: seq<(string, real)>)

  /** The first integration with the given name (the agent looks its integration up by name, not by type). */
  function IntegrationNamed(integrations: seq<Integration>, name: string): (r: Option<Integration>)
    ensures r.Some? ==> r.value in integrations && r.value.name == name
    ensures r.None? <==> forall i | 0 <= i < |integrations| :: integrations[i].name != name
  {
    if integrations == [] then None
    else if integrations[0].name == name then Some(integrations[0])
    else IntegrationNamed(integrations[1..], name)
  }

  /** A configuration with a non-empty `cost_optimization` integration. */
  predicate Configured(config: AgentConfig, settings: CostSettings)
  {
    IntegrationNamed(config.integrations, "cost_optimization").Some? && settings.nonEmpty
  }

  /**
   * `self.resource_monitors[provider] = ...` for each named provider in
   * turn: a new provider joins at the end, a known one keeps its place,
   * and names other than `aws`, `azure` and `gcp` are skipped.
   */
  function WithMonitors(monitors: seq<CloudProvider>, names: seq<Option<string>>): (ms: seq<CloudProvider>)
  {
    if names == [] then monitors
    else
      var ms := WithMonitors(monitors, names[..|names| - 1]);
      match ProviderNamed(names[|names| - 1])
      case Some(p) => if p in ms then ms else ms + [p]
      case None => ms
  }

  /** Registering providers keeps the earlier ones in place, adds no duplicate, and adds exactly the named ones. */
  lemma {:induction false} WithMonitorsRegisters(monitors: seq<CloudProvider>, names: seq<Option<string>>)
    requires NoDuplicates(monitors)
    ensures var ms := WithMonitors(monitors, names);
            && NoDuplicates(ms)
            && |monitors| <= |ms| && ms[..|monitors|] == monitors
            && forall p :: p in ms <==> p in monitors || exists i | 0 <= i < |names| :: ProviderNamed(names[i]) == Some(p)
  {
    if names != [] {
      var init := names[..|names| - 1];
      WithMonitorsRegisters(monitors, init);
      var ms := WithMonitors(monitors, init);
      forall p ensures (exists i | 0 <= i < |names| :: ProviderNamed(names[i]) == Some(p))
                       <==> (exists i | 0 <= i < |init| :: ProviderNamed(init[i]) == Some(p))
                            || ProviderNamed(names[|names| - 1]) == Some(p)
      {
        if exists i | 0 <= i < |names| :: ProviderNamed(names[i]) == Some(p) {
          var i :| 0 <= i < |names| && ProviderNamed(names[i]) == Some(p);
          if i < |init| {
            assert init[i] == names[i];
          }
        }
        if exists i | 0 <= i < |init| :: ProviderNamed(init[i]) == Some(p) {
          var i :| 0 <= i < |init| && ProviderNamed(init[i]) == Some(p);
          assert names[i] == init[i];
        }
      }
      var last := ProviderNamed(names[|names| - 1]);
      if last.Some? && last.value !in ms {
        assert (ms + [last.value])[..|monitors|] == ms[..|monitors|];
      }
    }
  }

  /** The loop of `_initialize_agent_specific` over the integration's providers. */
  method RegisterMonitors(monitors: seq<CloudProvider>, names: seq<Option<string>>) returns (ms: seq<CloudProvider>)
    ensures ms == WithMonitors(monitors, names)
  {
    ms := monitors;
    var i := 0;
    while i < |names|
      invariant i <= |names|
      invariant ms == WithMonitors(monitors, names[..i])
    {
      assert names[..i + 1][..i] == names[..i];
      var p := ProviderNamed(names[i]);
      if p.Some? && p.value !in ms {
        ms := ms + [p.value];
      }
      i := i + 1;
    }
    assert names[..i] == names;
  }

  // ------------------------------------------------------ analysis rounds

  /** The utilization data of every monitored provider, in monitor order. */
  function Utilization(monitors: seq<CloudProvider>, utilization: CloudProvider -> seq<ResourceUtilization>)
    : seq<ResourceUtilization>
  {
    if monitors == [] then []
    else Utilization(monitors[..|monitors| - 1], utilization) + utilization(monitors[|monitors| - 1])
  }

  /** The recommendations worth at least `threshold`, in order. */
  function Worthwhile(recs: seq<Recommendation>, threshold: real): (ws: seq<Recommendation>)
    ensures |ws| <= |recs|
    ensures forall r | r in ws :: r in recs && r.potentialSavings >= threshold
    ensures forall i | 0 <= i < |recs| && recs[i].potentialSavings >= threshold :: recs[i] in ws
  {
    if recs == [] then []
    else
      var init := recs[..|recs| - 1];
      assert forall i | 0 <= i < |init| :: init[i] == recs[i];
      var last := recs[|recs| - 1];
      Worthwhile(init, threshold) + (if last.potentialSavings >= threshold then [last] else [])
  }

  /** The events announcing the admitted recommendations, in order. */
  function CostEvents(agentId: string, recs: seq<Recommendation>, now: Timestamp): (es: seq<SystemEvent>)
    ensures |es| == |recs|
    ensures forall i | 0 <= i < |recs| :: es[i] == CostEvent(agentId, recs[i], now)
  {
    seq(|recs|, i requires 0 <= i < |recs| => CostEvent(agentId, recs[i], now))
  }

  /** Today's cost summed over the monitors that report one. */
  function TodayTotal(monitors: seq<CloudProvider>, todayCost: CloudProvider -> Option<real>): real
  {
    if monitors == [] then 0.0
    else
      var last := monitors[|monitors| - 1];
      TodayTotal(monitors[..|monitors| - 1], todayCost) + (if todayCost(last).Some? then todayCost(last).value else 0.0)
  }

  /** Today's cost per reporting provider, keyed by the provider's value. */
  function Breakdown(monitors: seq<CloudProvider>, todayCost: CloudProvider -> Option<real>): map<string, real>
  {
    if monitors == [] then map[]
    else
      var last := monitors[|monitors| - 1];
      var m := Breakdown(monitors[..|monitors| - 1], todayCost);
      if todayCost(last).Some? then m[ProviderValue(last) := todayCost(last).value] else m
  }

  /** The breakdown has an entry for exactly the monitored providers reporting a cost, holding that cost. */
  lemma {:induction false} BreakdownEntries(monitors: seq<CloudProvider>, todayCost: CloudProvider -> Option<real>)
    ensures forall p :: ProviderValue(p) in Breakdown(monitors, todayCost) <==> p in monitors && todayCost(p).Some?
    ensures forall p | p in monitors && todayCost(p).Some? :: Breakdown(monitors, todayCost)[ProviderValue(p)] == todayCost(p).value
    ensures forall k | k in Breakdown(monitors, todayCost) :: k in {"aws", "azure", "gcp"}
  {
    if monitors != [] {
      var init := monitors[..|monitors| - 1];
      BreakdownEntries(init, todayCost);
      assert monitors == init + [monitors[|monitors| - 1]];
    }
  }

  /** The actual cost of the history entries dated in the given month (`YYYY-MM`). */
  function MonthSpend(history: seq<CostEntry>, month: string): real
  {
    if history == [] then 0.0
    else
      var last := history[|history| - 1];
      MonthSpend(history[..|history| - 1], month) + (if StartsWith(last.date, month) then last.actualCost else 0.0)
  }

  /** One day of cost history. */
  datatype CostEntry = CostEntry(date: string, actualCost: real, breakdown: map<string, real>,
                                 forecasts: seq<Forecast>, timestamp: Timestamp)

  /** The engine's thresholds. */
  datatype Engine = Engine(low: real, high: real)

  /** The loop of `_analyze_resource_utilization` over the monitors. */
  method GatherUtilization(monitors: seq<CloudProvider>, utilization: CloudProvider -> seq<ResourceUtilization>)
    returns (data: seq<ResourceUtilization>)
    ensures data == Utilization(monitors, utilization)
  {
    data := [];
    var i := 0;
    while i < |monitors|
      invariant i <= |monitors|
      invariant data == Utilization(monitors[..i], utilization)
    {
      assert monitors[..i + 1][..i] == monitors[..i];
      data := data + utilization(monitors[i]);
      i := i + 1;
    }
    assert monitors[..i] == monitors;
  }

  /** The loop that admits each recommendation worth at least the threshold. */
  method SelectWorthwhile(recs: seq<Recommendation>, threshold: real) returns (ws: seq<Recommendation>)
    ensures ws == Worthwhile(recs, threshold)
  {
    ws := [];
    var i := 0;
    while i < |recs|
      invariant i <= |recs|
      invariant ws == Worthwhile(recs[..i], threshold)
    {
      assert recs[..i + 1][..i] == recs[..i];
      if recs[i].potentialSavings >= threshold {
        ws := ws + [recs[i]];
      }
      i := i + 1;
    }
    assert recs[..i] == recs;
  }

  /** The loop of `_update_cost_history` over the monitors. */
  method DailyCosts(monitors: seq<CloudProvider>, todayCost: CloudProvider -> Option<real>)
    returns (total: real, breakdown: map<string, real>)
    ensures total == TodayTotal(monitors, todayCost) && breakdown == Breakdown(monitors, todayCost)
  {
    total := 0.0;
    breakdown := map[];
    var i := 0;
    while i < |monitors|
      invariant i <= |monitors|
      invariant total == TodayTotal(monitors[..i], todayCost) && breakdown == Breakdown(monitors[..i], todayCost)
    {
      assert monitors[..i + 1][..i] == monitors[..i];
      var cost := todayCost(monitors[i]);
      if cost.Some? {
        total := total + cost.value;
        breakdown := breakdown[ProviderValue(monitors[i]) := cost.value];
      }
      i := i + 1;
    }
    assert monitors[..i] == monitors;
  }

  /** The loop of `_check_budget_alerts` over the budgets. */
  method RaiseBudgetAlerts(agentId: string, limits: seq<(string, real)>, spend: real, fs: seq<Forecast>,
                           now: Timestamp, fixed2: real -> string)
    returns (events: seq<SystemEvent>)
    ensures events == BudgetEvents(agentId, limits, spend, fs, now, fixed2)
  {
    events := [];
    var i := 0;
    while i < |limits|
      invariant i <= |limits|
      invariant events == BudgetEvents(agentId, limits[..i], spend, fs, now, fixed2)
    {
      assert limits[..i + 1][..i] == limits[..i];
      var (name, budget) := limits[i];
      var alerts := BudgetAlerts(spend, budget, fs, fixed2);
      events := events + AlertEvents(agentId, name, alerts, now);
      i := i + 1;
    }
    assert limits[..i] == limits;
  }

  /** `_get_subscribed_event_types`: the bus delivers only cost-threshold breaches and resource anomalies. */
  function SubscribedEventTypes(): seq<EventType>
  {
    [CostThresholdExceeded, ResourceAnomaly]
  }

  // ------------------------------------------------------ the agent

  class CostOptimizationAgent {
    const agentId: string
    var config: Option<AgentConfig>       // the configuration the base agent holds
    var settings: CostSettings
    var monitoringInterval: real
    var optimizationThreshold: real
    var autoApplyThreshold: real
    var lastAnalysis: Option<Timestamp>
    var activeRecommendations: seq<Recommendation>
    var costHistory: seq<CostEntry>
    var monitors: seq<CloudProvider>      // the keys of `resource_monitors`, in insertion order
    var engine: Option<Engine>
    var forecaster: Option<ForecastModel>
    ghost var published: seq<SystemEvent>

    /** The cost history keeps at most thirty entries and each provider is monitored once. */
    ghost predicate Valid()
      reads this
    {
      |costHistory| <= 30 && NoDuplicates(monitors)
    }

    constructor(agentId: string)
      ensures Valid() && this.agentId == agentId
      ensures config.None? && monitors == [] && engine.None? && forecaster.None?
      ensures monitoringInterval == 3600.0 && optimizationThreshold == 100.0 && autoApplyThreshold == 0.9
      ensures lastAnalysis.None? && activeRecommendations == [] && costHistory == [] && published == []
    {
      this.agentId := agentId;
      config := None;
      settings := CostSettings(false, [], []);
      monitoringInterval := 3600.0;
      optimizationThreshold := 100.0;
      autoApplyThreshold := 0.9;
      lastAnalysis := None;
      activeRecommendations := [];
      costHistory := [];
      monitors := [];
      engine := None;
      forecaster := None;
      published := [];
    }

    /**
     * `_initialize_agent_specific` (also what a reload runs): needs a
     * configuration; reads the thresholds, registers the named providers
     * of a configured integration alongside the monitors already there,
     * and sets up the engine and the forecaster `model` (the model file
     * loaded, or the mock when the file is missing).
     */
    method Initialize(config: Option<AgentConfig>, settings: CostSettings, model: ForecastModel) returns (r: Completion)
      requires Valid()
      modifies this
      ensures Valid()
      ensures config.None? ==> r == Raised("No configuration provided") && unchanged(this)
      ensures config.Some? ==>
                var c := config.value;
                && r == Done && this.config == config && this.settings == settings
                && monitoringInterval == Threshold(c, "monitoring_interval", 3600.0)
                && optimizationThreshold == Threshold(c, "optimization_threshold", 100.0)
                && autoApplyThreshold == Threshold(c, "auto_apply_threshold", 0.9)
                && monitors == (if Configured(c, settings) then WithMonitors(old(monitors), settings.providers)
                                else old(monitors))
                && engine == Some(Engine(Threshold(c, "utilization_threshold_low", 20.0),
                                         Threshold(c, "utilization_threshold_high", 80.0)))
                && forecaster == Some(model)
      ensures lastAnalysis == old(lastAnalysis) && activeRecommendations == old(activeRecommendations)
      ensures costHistory == old(costHistory) && published == old(published)
    {
      if config.None? {
        return Raised("No configuration provided");
      }
      var c := config.value;
      var ms := monitors;
      if Configured(c, settings) {
        ms := RegisterMonitors(monitors, settings.providers);
        assert NoDuplicates(ms) by {
          WithMonitorsRegisters(monitors, settings.providers);
        }
      }
      Configure(c, settings, ms, model);
      r := Done;
    }

    /** The assignments of `_initialize_agent_specific` once the monitors `ms` are known. */
    method Configure(c: AgentConfig, settings: CostSettings, ms: seq<CloudProvider>, model: ForecastModel)
      requires Valid() && NoDuplicates(ms)
      modifies this`config, this`settings, this`monitors, this`engine, this`forecaster
      modifies this`monitoringInterval, this`optimizationThreshold, this`autoApplyThreshold
      ensures Valid()
      ensures (this.config, this.settings, monitors, engine, forecaster)
              == (Some(c), settings, ms, Some(Engine(Threshold(c, "utilization_threshold_low", 20.0),
                                                     Threshold(c, "utilization_threshold_high", 80.0))), Some(model))
      ensures (monitoringInterval, optimizationThreshold, autoApplyThreshold)
              == (Threshold(c, "monitoring_interval", 3600.0), Threshold(c, "optimization_threshold", 100.0),
                  Threshold(c, "auto_apply_threshold", 0.9))
    {
      this.config, this.settings, monitors := Some(c), settings, ms;
      monitoringInterval, optimizationThreshold, autoApplyThreshold :=
        Threshold(c, "monitoring_interval", 3600.0),
        Threshold(c, "optimization_threshold", 100.0),
        Threshold(c, "auto_apply_threshold", 0.9);
      engine, forecaster := Some(Engine(Threshold(c, "utilization_threshold_low", 20.0),
                                        Threshold(c, "utilization_threshold_high", 80.0))), Some(model);
    }

    /** The configured automation level, if there is a configuration. */
    function Level(): Option<AutomationLevel>
      reads this
      ensures Level().Some? <==> config.Some?
    {
      if config.Some? then Some(config.value.automationLevel) else None
    }

    /** `_process_event_specific`: cost events and anomalies are handled, any other event yields nothing. */
    method ProcessEvent(event: SystemEvent, now: Timestamp, show: Value -> string, fixed2: real -> string)
      returns (action: Option<ActionSpec>)
      ensures event.eventType == CostThresholdExceeded ==>
                action == CostThresholdAction(agentId, event, Level(), autoApplyThreshold, now, show, fixed2)
      ensures event.eventType == ResourceAnomaly ==> action == AnomalyAction(agentId, event, now)
      ensures event.eventType !in SubscribedEventTypes() ==> action.None?
    {
      if event.eventType == CostThresholdExceeded {
        action := CostThresholdAction(agentId, event, Level(), autoApplyThreshold, now, show, fixed2);
      } else if event.eventType == ResourceAnomaly {
        action := AnomalyAction(agentId, event, now);
      } else {
        action := None;
      }
    }

    /** The loop that looks an action's recommendation up among the active ones. */
    method FindRecommendation(id: Value) returns (k: Option<nat>)
      ensures k == FirstWithId(activeRecommendations, id)
    {
      var i := 0;
      while i < |activeRecommendations|
        invariant i <= |activeRecommendations|
        invariant forall j | 0 <= j < i :: Str(activeRecommendations[j].id) != id
      {
        if Str(activeRecommendations[i].id) == id {
          return Some(i);
        }
        i := i + 1;
      }
      return None;
    }

    method ExecuteRightSizing(targets: seq<string>) returns (r: ActionResult)
      ensures r == RightSizingResult(targets)
    {
      if targets == [] {
        return FailedWith(("No target resources " + "specified for " + "right-sizing"), ("Target resources " + "list is empty"));
      }
      var resized, total := OptimizeEach(targets, 50.0, RightSized);
      r := Optimized("Successfully right-sized ", |resized|, "resized_resources",
                     resized, total, "right_sizing");
    }

    method ExecuteStorageOptimization(targets: seq<string>) returns (r: ActionResult)
      ensures r == StorageResult(targets)
    {
      if targets == [] {
        r := FailedWith(("No target resources " + "specified for " + "storage optimization"),
                        ("Target resources " + "list is empty"));
      } else {
        var optimized, total := OptimizeEach(targets, 25.0, StorageOptimized);
        r := Optimized("Successfully " + "optimized storage " + "for ", |optimized|, "optimized_resources",
                       optimized, total, "storage_optimization");
      }
    }

    method ExecuteResourceCleanup(targets: seq<string>) returns (r: ActionResult)
      ensures r == CleanupResult(targets)
    {
      if targets == [] {
        return FailedWith("No target resources specified", ("Target resources " + "list is empty"));
      }
      var cleaned := ProcessEach(targets);
      r := Succeeded("Cleaned up " + NatToString(|cleaned|) + " resources",
                     map["cleaned_resources" := Strs(cleaned), "failed_resources" := Strs([]),
                         "total_cleaned" := Num(|cleaned| as real)]);
    }

    method ExecuteCostOptimization(action: ActionSpec, show: Value -> string) returns (r: ActionResult)
      ensures r == CostOptimizationResult(action, activeRecommendations, show)
    {
      var id := Get(action.metadata, "recommendation_id");
      if !Truthy(id) {
        return FailedWith(("No recommendation " + "ID provided"), ("Missing " + "recommendation ID " + "in action metadata"));
      }
      var k := FindRecommendation(id.value);
      if k.None? {
        return FailedWith("Recommendation not found",
                          ("Could not find " + "recommendation with " + "ID: ")
                          + DataText(action.metadata, "recommendation_id", "None", show));
      }
      var rec := activeRecommendations[k.value];
      if rec.optimizationType == RightSizing {
        r := ExecuteRightSizing(action.targetResources);
      } else if rec.optimizationType == StorageOptimization {
        r := ExecuteStorageOptimization(action.targetResources);
      } else {
        var optimized := ProcessEach(rec.affectedResources);
        r := Succeeded("Successfully optimized " + NatToString(|optimized|) + " resources",
                       map["optimized_resources" := Strs(optimized),
                           "estimated_savings" := Num(rec.potentialSavings),
                           "optimization_type" := Str(OptimizationTypeValue(rec.optimizationType))]);
      }
    }

    /** `_execute_action_specific`: optimizations and cleanups are executed, any other type is refused. */
    method ExecuteAction(action: ActionSpec, show: Value -> string) returns (r: ActionResult)
      ensures action.actionType == CostOptimize ==> r == CostOptimizationResult(action, activeRecommendations, show)
      ensures action.actionType == ResourceCleanup ==> r == CleanupResult(action.targetResources)
      ensures action.actionType !in {CostOptimize, ResourceCleanup} ==>
                r == FailedWith("Unsupported action type: " + ActionTypeValue(action.actionType),
                                ("Action type not " + "supported by cost " + "optimization agent"))
    {
      if action.actionType == CostOptimize {
        r := ExecuteCostOptimization(action, show);
      } else if action.actionType == ResourceCleanup {
        r := ExecuteResourceCleanup(action.targetResources);
      } else {
        r := FailedWith("Unsupported action type: " + ActionTypeValue(action.actionType),
                        ("Action type not " + "supported by cost " + "optimization agent"));
      }
    }
    /** Nothing this round touches outside the recommendations, the history, the bus and the analysis time. */
    twostate predicate SameSetup()
      reads this
    {
      && config == old(config) && settings == old(settings) && monitors == old(monitors)
      && engine == old(engine) && forecaster == old(forecaster)
      && monitoringInterval == old(monitoringInterval) && optimizationThreshold == old(optimizationThreshold)
      && autoApplyThreshold == old(autoApplyThreshold)
    }

    /** The recommendations a round admits: those from the monitors' data worth at least the optimization threshold. */
    function Admitted(utilization: CloudProvider -> seq<ResourceUtilization>, now: Timestamp, show: real -> string)
      : (recs: seq<Recommendation>)
      reads this
      ensures forall r | r in recs :: r.potentialSavings >= optimizationThreshold
      ensures engine.None? ==> recs == []
    {
      var data := Utilization(monitors, utilization);
      if engine.Some? && data != [] then Worthwhile(Recommendations(data, engine.value.low, now, show), optimizationThreshold)
      else []
    }

    /** Today's history entry: the day's cost, its breakdown and, with a forecaster, a week of forecasts. */
    function EntryFor(todayCost: CloudProvider -> Option<real>, today: string, dateOf: nat -> string, now: Timestamp)
      : (e: CostEntry)
      reads this
      ensures e.date == today && e.timestamp == now
      ensures e.actualCost == TodayTotal(monitors, todayCost) && e.breakdown == Breakdown(monitors, todayCost)
      ensures |e.forecasts| == (if forecaster.Some? then 7 else 0)
    {
      var total := TodayTotal(monitors, todayCost);
      var fs := if forecaster.Some? then Forecasts(forecaster.value, CostData(total, 50.0, 60.0, |monitors| * 10), 7, dateOf)
                else [];
      CostEntry(today, total, Breakdown(monitors, todayCost), fs, now)
    }

    /**
     * The budget events a check publishes: none without history, a
     * forecaster, a configured integration or forecasts in the latest
     * entry; otherwise those of each budget against this month's spend.
     */
    function BudgetRound(month: string, now: Timestamp, fixed2: real -> string): seq<SystemEvent>
      reads this
    {
      if costHistory == [] || forecaster.None? || config.None? || !Configured(config.value, settings) then []
      else
        var fs := costHistory[|costHistory| - 1].forecasts;
        if fs == [] then []
        else BudgetEvents(agentId, settings.budgetLimits, MonthSpend(costHistory, month), fs, now, fixed2)
    }

    /** The recommendation half of `_analyze_resource_utilization`: admit and announce. */
    method AdmitRecommendations(utilization: CloudProvider -> seq<ResourceUtilization>, now: Timestamp,
                                show: real -> string)
      modifies this
      ensures activeRecommendations == old(activeRecommendations + Admitted(utilization, now, show))
      ensures published == old(published + CostEvents(agentId, Admitted(utilization, now, show), now))
      ensures SameSetup() && costHistory == old(costHistory) && lastAnalysis == old(lastAnalysis)
    {
      ghost var expected := Admitted(utilization, now, show);
      var data := GatherUtilization(monitors, utilization);
      var admitted := [];
      if engine.Some? && data != [] {
        var recs := AnalyzeUtilization(data, engine.value.low, now, show);
        admitted := SelectWorthwhile(recs, optimizationThreshold);
      }
      assert admitted == expected;
      activeRecommendations := activeRecommendations + admitted;
      published := published + CostEvents(agentId, admitted, now);
    }

    /** `_update_cost_history`: today's entry is appended and only the last thirty are kept. */
    method UpdateCostHistory(todayCost: CloudProvider -> Option<real>, today: string, dateOf: nat -> string,
                             now: Timestamp)
      requires Valid()
      modifies this
      ensures Valid()
      ensures costHistory == old(KeepLast(costHistory + [EntryFor(todayCost, today, dateOf, now)], 30))
      ensures costHistory[|costHistory| - 1] == old(EntryFor(todayCost, today, dateOf, now))
      ensures SameSetup() && activeRecommendations == old(activeRecommendations)
      ensures published == old(published) && lastAnalysis == old(lastAnalysis)
    {
      var total, breakdown := DailyCosts(monitors, todayCost);
      var fs := [];
      if forecaster.Some? {
        fs := ForecastCosts(forecaster.value, CostData(total, 50.0, 60.0, |monitors| * 10), 7, dateOf);
      }
      var entry := CostEntry(today, total, breakdown, fs, now);
      KeepLastAppend(costHistory, entry, 30);
      costHistory := costHistory + [entry];
      if |costHistory| > 30 {
        costHistory := costHistory[|costHistory| - 30..];
      }
    }

    /** `_check_budget_alerts`: publishes the round's budget events and changes nothing else. */
    method CheckBudgetAlerts(month: string, now: Timestamp, fixed2: real -> string)
      modifies this
      ensures published == old(published + BudgetRound(month, now, fixed2))
      ensures SameSetup() && activeRecommendations == old(activeRecommendations)
      ensures costHistory == old(costHistory) && lastAnalysis == old(lastAnalysis)
    {
      if costHistory == [] || forecaster.None? || config.None? || !Configured(config.value, settings) {
        return;
      }
      var fs := costHistory[|costHistory| - 1].forecasts;
      if fs == [] {
        return;
      }
      var events := RaiseBudgetAlerts(agentId, settings.budgetLimits, MonthSpend(costHistory, month), fs, now, fixed2);
      published := published + events;
    }

    /**
     * `_analyze_resource_utilization`, one round of the monitoring loop:
     * admit the worthwhile recommendations, record today's costs, check
     * the budgets against the updated history, and note the time.
     */
    method AnalyzeResourceUtilization(utilization: CloudProvider -> seq<ResourceUtilization>,
                                      todayCost: CloudProvider -> Option<real>, today: string, month: string,
                                      dateOf: nat -> string, now: Timestamp, show: real -> string,
                                      fixed2: real -> string)
      requires Valid()
      modifies this
      ensures Valid() && SameSetup()
      ensures activeRecommendations == old(activeRecommendations + Admitted(utilization, now, show))
      ensures costHistory == old(KeepLast(costHistory + [EntryFor(todayCost, today, dateOf, now)], 30))
      ensures published == old(published + CostEvents(agentId, Admitted(utilization, now, show), now))
                           + BudgetRound(month, now, fixed2)
      ensures lastAnalysis == Some(now)
    {
      ghost var entry := EntryFor(todayCost, today, dateOf, now);
      ghost var history := KeepLast(costHistory + [entry], 30);
      ghost var announced := published + CostEvents(agentId, Admitted(utilization, now, show), now);
      AdmitRecommendations(utilization, now, show);
      assert Valid() && EntryFor(todayCost, today, dateOf, now) == entry;
      UpdateCostHistory(todayCost, today, dateOf, now);
      assert costHistory == history && published == announced;
      CheckBudgetAlerts(month, now, fixed2);
      lastAnalysis := Some(now);
    }
  }
}
