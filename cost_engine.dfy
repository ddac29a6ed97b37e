/**
 * The cost optimization engine and forecasting model: recommendations
 * from resource utilization (right-sizing for low CPU or memory, storage
 * optimization for low storage use), daily cost forecasts and the budget
 * alert tiers. Python floats are modelled as reals; `show` renders a float
 * as Python's `str` does and `fixed2` as `format(x, '.2f')` does.
 */
module CostEngine {
  import opened Text
  import opened Interfaces
  import opened Seqs

  datatype OptimizationType = RightSizing | ReservedInstances | StorageOptimization | Cleanup | Scheduling

  function OptimizationTypeValue(t: OptimizationType): string
  {
    match t
    case RightSizing => "right_sizing"
    case ReservedInstances => "reserved_instances"
    case StorageOptimization => "storage_optimization"
    case Cleanup => "resource_cleanup"
    case Scheduling => "scheduling"
  }

  datatype CloudProvider = Aws | Azure | Gcp

  function ProviderValue(p: CloudProvider): string
  {
    match p
    case Aws => "aws"
    case Azure => "azure"
    case Gcp => "gcp"
  }

  /** `CloudProvider(name)` for a name in `["aws", "azure", "gcp"]`; any other name is skipped. */
  function ProviderNamed(name: Option<string>): (p: Option<CloudProvider>)
    ensures p.Some? <==> name.Some? && name.value in {"aws", "azure", "gcp"}
    ensures p.Some? ==> ProviderValue(p.value) == name.value
  {
    match name
    case Some("aws") => Some(Aws)
    case Some("azure") => Some(Azure)
    case Some("gcp") => Some(Gcp)
    case _ => None
  }

  datatype ResourceUtilization = ResourceUtilization(
    resourceId: string,
    resourceType: string,
    provider: CloudProvider,
    cpu: real,
    memory: real,
    network: real,
    storage: real,
    costPerHour: real,
    timestamp: Timestamp)

  datatype Recommendation = Recommendation(
    id: string,
    optimizationType: OptimizationType,
    title: string,
    description: string,
    potentialSavings: real,
    confidence: real,
    riskLevel: RiskLevel,
    affectedResources: seq<string>,
    implementationSteps: seq<string>,
    estimatedDuration: string,
    rollbackPossible: bool,
    priority: string,
    createdAt: Timestamp)

  // ------------------------------------------------------ recommendations

  /** Either CPU or memory use is below the low threshold. */
  predicate UnderUsed(r: ResourceUtilization, low: real) { r.cpu < low || r.memory < low }

  /** Storage use is below 30%. */
  predicate LowStorage(r: ResourceUtilization) { r.storage < 30.0 }

  predicate IsRightSizing(rec: Recommendation) { rec.optimizationType == RightSizing }

  predicate IsStorage(rec: Recommendation) { rec.optimizationType == StorageOptimization }

  /** The right-sizing recommendation: half of a 30-day month of the resource's hourly cost, at 85% confidence. */
  function RightSizingFor(r: ResourceUtilization, now: Timestamp, show: real -> string): (rec: Recommendation)
    ensures IsRightSizing(rec) && rec.affectedResources == [r.resourceId]
    ensures rec.potentialSavings == r.costPerHour * 360.0
    ensures rec.confidence == 0.85 && rec.riskLevel == Low && rec.priority == "medium" && rec.rollbackPossible
    ensures rec.id == "rightsizing_" + r.resourceId + "_" + IntToString(now)
  {
    Recommendation(
      "rightsizing_" + r.resourceId + "_" + IntToString(now), RightSizing,
      "Right-size " + r.resourceType,
      "Resource " + r.resourceId + (" is under-utilized " + "(CPU: ") + show(r.cpu) + "%, Memory: " + show(r.memory) + "%)",
      r.costPerHour * 24.0 * 30.0 * 0.5, 0.85, Low, [r.resourceId],
      ["Stop the resource", ("Change to smaller " + "instance type"), "Start the resource", "Monitor performance"],
      "30 minutes", true, "medium", now)
  }

  /** The storage recommendation: a fifth of a 30-day month of the hourly cost, at 75% confidence. */
  function StorageFor(r: ResourceUtilization, now: Timestamp, show: real -> string): (rec: Recommendation)
    ensures IsStorage(rec) && rec.affectedResources == [r.resourceId]
    ensures rec.potentialSavings == r.costPerHour * 144.0
    ensures rec.confidence == 0.75 && rec.riskLevel == Low && rec.priority == "low" && rec.rollbackPossible
    ensures rec.id == "storage_" + r.resourceId + "_" + IntToString(now)
  {
    Recommendation(
      "storage_" + r.resourceId + "_" + IntToString(now), StorageOptimization,
      "Optimize storage for " + r.resourceType,
      ("Storage utilization " + "is low (") + show(r.storage) + "%) for " + r.resourceId,
      r.costPerHour * 24.0 * 30.0 * 0.2, 0.75, Low, [r.resourceId],
      [("Analyze storage " + "usage patterns"), ("Resize or change " + "storage type"), "Verify data integrity"],
      "15 minutes", true, "low", now)
  }

  /** What one resource contributes: a right-sizing when under-used, then a storage optimization when storage is low. */
  function RecommendationsFor(r: ResourceUtilization, low: real, now: Timestamp, show: real -> string)
    : (recs: seq<Recommendation>)
    ensures |recs| == (if UnderUsed(r, low) then 1 else 0) + (if LowStorage(r) then 1 else 0)
    ensures Count(recs, IsRightSizing) == (if UnderUsed(r, low) then 1 else 0)
    ensures Count(recs, IsStorage) == (if LowStorage(r) then 1 else 0)
    ensures forall i | 0 <= i < |recs| :: recs[i].affectedResources == [r.resourceId] && recs[i].riskLevel == Low
  {
    var rightSizing := if UnderUsed(r, low) then [RightSizingFor(r, now, show)] else [];
    var storage := if LowStorage(r) then [StorageFor(r, now, show)] else [];
    CountAppend(rightSizing, storage, IsRightSizing);
    CountAppend(rightSizing, storage, IsStorage);
    rightSizing + storage
  }

  /** `analyze_utilization`: the recommendations of every resource, in order. */
  function Recommendations(data: seq<ResourceUtilization>, low: real, now: Timestamp, show: real -> string)
    : seq<Recommendation>
  {
    if data == [] then []
    else Recommendations(data[..|data| - 1], low, now, show) + RecommendationsFor(data[|data| - 1], low, now, show)
  }

  /** The loop of `analyze_utilization`. */
  method AnalyzeUtilization(data: seq<ResourceUtilization>, low: real, now: Timestamp, show: real -> string)
    returns (recs: seq<Recommendation>)
    ensures recs == Recommendations(data, low, now, show)
  {
    recs := [];
    var i := 0;
    while i < |data|
      invariant i <= |data|
      invariant recs == Recommendations(data[..i], low, now, show)
    {
      assert data[..i + 1][..i] == data[..i];
      var resource := data[i];
      ghost var before := recs;
      ghost var rightSizing: seq<Recommendation> := [];
      ghost var storage: seq<Recommendation> := [];
      if UnderUsed(resource, low) {
        rightSizing := [RightSizingFor(resource, now, show)];
        recs := recs + [RightSizingFor(resource, now, show)];
      }
      if LowStorage(resource) {
        storage := [StorageFor(resource, now, show)];
        AppendAssoc(before, rightSizing, storage);
        recs := recs + [StorageFor(resource, now, show)];
      }
      assert recs == before + (rightSizing + storage);
      i := i + 1;
    }
    assert data[..i] == data;
  }

  /** Analysing more data appends its recommendations after the earlier ones. */
  lemma {:induction false} RecommendationsAppend(a: seq<ResourceUtilization>, b: seq<ResourceUtilization>,
                                                 low: real, now: Timestamp, show: real -> string)
    decreases |b|
    ensures Recommendations(a + b, low, now, show) == Recommendations(a, low, now, show) + Recommendations(b, low, now, show)
  {
    if b == [] {
      assert a + b == a;
    } else {
      var k := |b| - 1;
      var ab := a + b;
      RecommendationsAppend(a, b[..k], low, now, show);
      assert ab[..|ab| - 1] == a + b[..k];
      assert ab[|ab| - 1] == b[k];
      var last := RecommendationsFor(b[k], low, now, show);
      assert Recommendations(ab, low, now, show) == Recommendations(a + b[..k], low, now, show) + last;
      assert Recommendations(b, low, now, show) == Recommendations(b[..k], low, now, show) + last;
      AppendAssoc(Recommendations(a, low, now, show), Recommendations(b[..k], low, now, show), last);
    }
  }

  /** There is one right-sizing per under-used resource and one storage optimization per low-storage resource. */
  lemma {:induction false} RecommendationCounts(data: seq<ResourceUtilization>, low: real, now: Timestamp,
                                                show: real -> string)
    ensures Count(Recommendations(data, low, now, show), IsRightSizing) == Count(data, r => UnderUsed(r, low))
    ensures Count(Recommendations(data, low, now, show), IsStorage) == Count(data, LowStorage)
  {
    if data != [] {
      var init := data[..|data| - 1];
      var last := data[|data| - 1];
      RecommendationCounts(init, low, now, show);
      CountAppend(Recommendations(init, low, now, show), RecommendationsFor(last, low, now, show), IsRightSizing);
      CountAppend(Recommendations(init, low, now, show), RecommendationsFor(last, low, now, show), IsStorage);
    }
  }

  /** Every recommendation is low-risk and names exactly one analysed resource. */
  lemma {:induction false} RecommendationsNameAnalysedResources(data: seq<ResourceUtilization>, low: real,
                                                                now: Timestamp, show: real -> string)
    ensures forall rec | rec in Recommendations(data, low, now, show) ::
              && rec.riskLevel == Low
              && |rec.affectedResources| == 1
              && exists r | r in data :: rec.affectedResources[0] == r.resourceId
  {
    if data != [] {
      var init := data[..|data| - 1];
      var last := data[|data| - 1];
      RecommendationsNameAnalysedResources(init, low, now, show);
      var before := Recommendations(init, low, now, show);
      var added := RecommendationsFor(last, low, now, show);
      assert Recommendations(data, low, now, show) == before + added;
      forall rec: Recommendation | rec in before + added
        ensures && rec.riskLevel == Low && |rec.affectedResources| == 1
                && exists r | r in data :: rec.affectedResources[0] == r.resourceId
      {
        if rec in before {
          var r: ResourceUtilization :| r in init && rec.affectedResources[0] == r.resourceId;
          assert r in data;
        } else {
          var i :| 0 <= i < |added| && added[i] == rec;
          assert rec.affectedResources[0] == last.resourceId;
        }
      }
    }
  }

  // ------------------------------------------------------ forecasting

  /** The dictionary the agent hands to the forecaster. */
  datatype CostData = CostData(dailyCost: real, cpuAverage: real, memoryAverage: real, resourceCount: nat)

  /** What a loaded model is asked about: the current data and how many days ahead. */
  datatype ForecastFeatures = ForecastFeatures(data: CostData, daysAhead: nat)

  /**
   * The forecaster: a model loaded from its file, or, when the file is
   * missing, the mock whose relative variation for each day ahead is a
   * normal draw (mean 0, deviation 0.1).
   */
  datatype ForecastModel = Trained(predict: ForecastFeatures -> real) | Mock(variation: nat -> real)

  datatype Forecast = Forecast(date: string, predictedCost: real, confidence: real)

  function Predicted(model: ForecastModel, data: CostData, daysAhead: nat): real
  {
    match model
    case Trained(predict) => predict(ForecastFeatures(data, daysAhead))
    case Mock(variation) => data.dailyCost * (1.0 + variation(daysAhead))
  }

  /** `forecast_costs`: one forecast per day ahead, never negative, 85% confident from a model and 70% from the mock. */
  function Forecasts(model: ForecastModel, data: CostData, days: nat, dateOf: nat -> string): (fs: seq<Forecast>)
    ensures |fs| == days
    ensures forall i | 0 <= i < days ::
              && fs[i].date == dateOf(i + 1)
              && fs[i].predictedCost >= 0.0
              && (Predicted(model, data, i + 1) >= 0.0 ==> fs[i].predictedCost == Predicted(model, data, i + 1))
              && fs[i].confidence == (if model.Trained? then 0.85 else 0.70)
  {
    seq(days, i requires 0 <= i < days =>
          var p := Predicted(model, data, i + 1);
          Forecast(dateOf(i + 1), if p > 0.0 then p else 0.0, if model.Trained? then 0.85 else 0.70))
  }

  /** The loop of `forecast_costs`; `dateOf(k)` is the date `k` days from now. */
  method ForecastCosts(model: ForecastModel, data: CostData, days: nat, dateOf: nat -> string)
    returns (fs: seq<Forecast>)
    ensures fs == Forecasts(model, data, days, dateOf)
  {
    fs := [];
    var i := 0;
    while i < days
      invariant i <= days
      invariant |fs| == i
      invariant forall j | 0 <= j < i :: fs[j] == Forecasts(model, data, days, dateOf)[j]
    {
      var predicted := Predicted(model, data, i + 1);
      var confidence := if model.Trained? then 0.85 else 0.70;
      fs := fs + [Forecast(dateOf(i + 1), if predicted > 0.0 then predicted else 0.0, confidence)];
      i := i + 1;
    }
  }

  function PredictedCost(f: Forecast): real { f.predictedCost }

  /** The forecast total, never negative. */
  function ForecastTotal(fs: seq<Forecast>): (t: real)
  {
    Sum(fs, PredictedCost)
  }

  lemma {:induction false} ForecastTotalNonNegative(fs: seq<Forecast>)
    requires forall i | 0 <= i < |fs| :: fs[i].predictedCost >= 0.0
    ensures ForecastTotal(fs) >= 0.0
  {
    if fs != [] {
      ForecastTotalNonNegative(fs[..|fs| - 1]);
    }
  }

  // ------------------------------------------------------ budget alerts

  datatype AlertLevel = Critical | Warning | Info

  function AlertLevelValue(l: AlertLevel): string
  {
    match l
    case Critical => "critical"
    case Warning => "warning"
    case Info => "info"
  }

  /** An alert's figures; `detail` is the overage of a critical alert and the percentage used otherwise. */
  datatype BudgetAlert = BudgetAlert(level: AlertLevel, message: string, currentSpend: real,
                                     projectedSpend: real, budget: real, detail: real)

  /**
   * `check_budget_alerts`: the projected spend is the current spend plus
   * the forecasts; above the budget is critical, above 90% of it a
   * warning, above 80% of it information, and at most one alert is raised.
   */
  function BudgetAlerts(currentSpend: real, budget: real, fs: seq<Forecast>, fixed2: real -> string)
    : (alerts: seq<BudgetAlert>)
    ensures |alerts| <= 1
    ensures var p := currentSpend + ForecastTotal(fs);
            && (alerts == [] <==> p <= budget && p <= budget * 0.9 && p <= budget * 0.8)
            && (alerts != [] ==>
                  && alerts[0].currentSpend == currentSpend && alerts[0].projectedSpend == p
                  && alerts[0].budget == budget
                  && (alerts[0].level == Critical <==> p > budget)
                  && (alerts[0].level == Warning <==> p <= budget && p > budget * 0.9)
                  && (alerts[0].level == Critical ==> alerts[0].detail == p - budget)
                  && (alerts[0].level != Critical ==> budget > 0.0 && alerts[0].detail == p / budget * 100.0))
  {
    var p := currentSpend + ForecastTotal(fs);
    var prefix := "Projected monthly " + "spend ($" + fixed2(p) + ") ";
    if p > budget then
      [BudgetAlert(Critical, prefix + "exceeds budget ($" + fixed2(budget) + ")", currentSpend, p, budget, p - budget)]
    else if p > budget * 0.9 then
      [BudgetAlert(Warning, prefix + ("is approaching " + "budget limit ($") + fixed2(budget) + ")",
                   currentSpend, p, budget, p / budget * 100.0)]
    else if p > budget * 0.8 then
      [BudgetAlert(Info, prefix + "is at 80% of budget ($" + fixed2(budget) + ")",
                   currentSpend, p, budget, p / budget * 100.0)]
    else []
  }

  /** How serious an alert is: none, information, warning, critical. */
  function AlertRank(alerts: seq<BudgetAlert>): nat
  {
    if alerts == [] then 0
    else match alerts[0].level
      case Info => 1
      case Warning => 2
      case Critical => 3
  }

  /** For a non-negative budget, a higher spend never yields a milder alert. */
  lemma MoreSpendNeverMilder(spend: real, more: real, budget: real, fs: seq<Forecast>, fixed2: real -> string)
    requires budget >= 0.0 && spend <= more
    ensures AlertRank(BudgetAlerts(spend, budget, fs, fixed2)) <= AlertRank(BudgetAlerts(more, budget, fs, fixed2))
  {
  }

  /** For a positive budget the three tiers are the intervals (80%, 90%], (90%, 100%] and above. */
  lemma BudgetTiers(spend: real, budget: real, fs: seq<Forecast>, fixed2: real -> string)
    requires budget > 0.0
    ensures var p, alerts := spend + ForecastTotal(fs), BudgetAlerts(spend, budget, fs, fixed2);
            && (alerts == [] <==> p <= budget * 0.8)
            && (alerts != [] && alerts[0].level == Info <==> budget * 0.8 < p <= budget * 0.9)
            && (alerts != [] && alerts[0].level == Warning <==> budget * 0.9 < p <= budget)
  {
  }

  // ------------------------------------------------------ the shipped monitor

  /**
   * `CloudResourceMonitor.get_resource_utilization` as shipped: two
   * instances for AWS, each measured an hour ago, nothing for the others.
   */
  function MockUtilization(p: CloudProvider, now: Timestamp): (data: seq<ResourceUtilization>)
    ensures p != Aws ==> data == []
  {
    if p == Aws then
      [ResourceUtilization("i-1234567890abcdef0", "ec2.instance", p, 15.5, 25.3, 8.2, 45.0, 0.096, now - 3600),
       ResourceUtilization("i-0987654321fedcba0", "ec2.instance", p, 85.2, 78.9, 65.4, 82.1, 0.192, now - 3600)]
    else []
  }

  /**
   * `get_cost_data(1)` as shipped: the mock's cost for day `i` is
   * 150.0 + 5.0 * i, so today's (day 0) is 150.0 for every provider.
   */
  function MockTodayCost(p: CloudProvider): (c: Option<real>)
    ensures c == Some(150.0)
  {
    Some(150.0)
  }

  /**
   * With the default low threshold (20%), the shipped AWS data yields a
   * single right-sizing of the idle instance, worth 34.56 a month: less
   * than the default optimization threshold of 100.0.
   */
  lemma MockDataYieldsOneSmallRightSizing(now: Timestamp, show: real -> string)
    ensures var recs := Recommendations(MockUtilization(Aws, now), 20.0, now, show);
            && |recs| == 1 && IsRightSizing(recs[0])
            && recs[0].affectedResources == ["i-1234567890abcdef0"]
            && recs[0].potentialSavings == 34.56 < 100.0
  {
    var data := MockUtilization(Aws, now);
    var idle, busy := data[0], data[1];
    assert RecommendationsFor(busy, 20.0, now, show) == [] by {
      assert !UnderUsed(busy, 20.0) && !LowStorage(busy);
    }
    assert RecommendationsFor(idle, 20.0, now, show) == [RightSizingFor(idle, now, show)] by {
      assert UnderUsed(idle, 20.0) && !LowStorage(idle);
    }
    assert Recommendations(data[..1], 20.0, now, show) == RecommendationsFor(idle, 20.0, now, show) by {
      assert data[..1][..0] == [];
    }
    assert Recommendations(data, 20.0, now, show)
           == Recommendations(data[..1], 20.0, now, show) + RecommendationsFor(busy, 20.0, now, show) by {
      assert data[..|data| - 1] == data[..1];
    }
  }
}
