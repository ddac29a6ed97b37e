/**
 * The Kubernetes agent: the pod-metrics parser with its CPU and memory
 * unit conversion, the scaling gate with its five-minute cooldown, the
 * severity and risk of a scaling recommendation, the actions built for
 * scaling and anomaly events, the grouping of collected metrics by
 * deployment with a day of retained history, and the execution of
 * scaling and restart actions.
 *
 * The Kubernetes API is an oracle: scaling a deployment and updating its
 * resource requests each report success or failure, and the deployments
 * of a namespace are passed as a list. The predictive scaling model is an
 * oracle from the latest metrics and the retained history to a
 * recommendation. A recommendation decoded from an event or an action's
 * metadata is passed decoded, or as the exception its decoding raised.
 */
module KubernetesAgent {
  import opened Text
  import opened Interfaces
  import opened Seqs
  import opened BaseAgents

  // ------------------------------------------------------ records

  /** Resource usage of one pod (CPU in cores, memory in MiB). */
  datatype ResourceMetrics = ResourceMetrics(
    timestamp: Timestamp,
    namespace: string,
    deployment: string,
    podCount: nat,
    cpuUsage: real,
    memoryUsage: real,
    cpuRequests: real,
    memoryRequests: real,
    cpuLimits: real,
    memoryLimits: real,
    networkIo: real,
    diskIo: real)

  /** What the scaling model proposes for one deployment; requests are Kubernetes quantity strings. */
  datatype ScalingRecommendation = ScalingRecommendation(
    deployment: string,
    namespace: string,
    currentReplicas: int,
    recommendedReplicas: int,
    currentCpuRequest: string,
    recommendedCpuRequest: string,
    currentMemoryRequest: string,
    recommendedMemoryRequest: string,
    confidence: real,
    reasoning: string,
    estimatedCostImpact: real)

  /** The scaling model: latest metrics and retained history to a recommendation. */
  type Predictor = (ResourceMetrics, seq<ResourceMetrics>) -> ScalingRecommendation

  /** The `namespace/deployment` key under which metrics, decisions and targets are filed. */
  function Key(namespace: string, deployment: string): (k: string)
    ensures |k| == |namespace| + 1 + |deployment| && k[|namespace|] == '/'
  {
    namespace + "/" + deployment
  }

  function MetricKey(m: ResourceMetrics): string
  {
    Key(m.namespace, m.deployment)
  }

  function RecommendationKey(rec: ScalingRecommendation): string
  {
    Key(rec.namespace, rec.deployment)
  }

  // ------------------------------------------------------ quantities

  /**
   * A CPU quantity in cores: a trailing `m` means millicores, anything
   * else is taken as cores. `None` is the `ValueError` of `float(...)`.
   */
  function CpuCores(q: string): (r: Option<real>)
    ensures r.Some? ==> r.value >= 0.0
  {
    if EndsWith(q, "m") then
      match ParseDecimal(q[..|q| - 1])
      case None => None
      case Some(v) => Some(v / 1000.0)
    else ParseDecimal(q)
  }

  /** The unit a memory quantity carries: `Ki`, `Mi`, `Gi` or none (bytes). */
  datatype MemoryUnit = Kibi | Mebi | Gibi | Bytes

  function UnitOf(q: string): (u: MemoryUnit)
    ensures u != Bytes ==> |q| >= 2
  {
    if EndsWith(q, "Ki") then Kibi
    else if EndsWith(q, "Mi") then Mebi
    else if EndsWith(q, "Gi") then Gibi
    else Bytes
  }

  /** A number in the given unit, in MiB. */
  function ToMebibytes(x: real, u: MemoryUnit): (r: real)
    ensures x >= 0.0 ==> r >= 0.0
  {
    match u
    case Kibi => x / 1024.0
    case Mebi => x
    case Gibi => x * 1024.0
    case Bytes => x / (1024.0 * 1024.0)
  }

  /** A memory quantity in MiB; `None` is the `ValueError` of `float(...)` on the number before the suffix. */
  function MemoryMi(q: string): (r: Option<real>)
    ensures r.Some? ==> r.value >= 0.0
  {
    var u := UnitOf(q);
    match ParseDecimal(q[..|q| - (if u == Bytes then 0 else 2)])
    case None => None
    case Some(x) => Some(ToMebibytes(x, u))
  }

  /** A decimal numeral: one or more digits. */
  predicate Numeral(s: string)
  {
    |s| > 0 && AllDigits(s)
  }

  /** A numeral ends in a digit, so it carries none of the unit suffixes. */
  lemma NumeralHasNoSuffix(s: string)
    requires Numeral(s)
    ensures !EndsWith(s, "m") && !EndsWith(s, "Ki") && !EndsWith(s, "Mi") && !EndsWith(s, "Gi")
  {
    assert IsDigit(s[|s| - 1]);
  }

  lemma CpuMillicores(s: string)
    requires Numeral(s)
    ensures CpuCores(s + "m") == Some(DigitsValue(s) as real / 1000.0)
  {
    ParseNumeral(s);
    var q := s + "m";
    assert q[..|q| - 1] == s;
  }

  lemma CpuWholeCores(s: string)
    requires Numeral(s)
    ensures CpuCores(s) == Some(DigitsValue(s) as real)
  {
    ParseNumeral(s);
    NumeralHasNoSuffix(s);
  }

  lemma MemoryKibibytes(s: string)
    requires Numeral(s)
    ensures MemoryMi(s + "Ki") == Some(DigitsValue(s) as real / 1024.0)
  {
    ParseNumeral(s);
    var q := s + "Ki";
    assert q[..|q| - 2] == s && UnitOf(q) == Kibi;
  }

  lemma MemoryMebibytes(s: string)
    requires Numeral(s)
    ensures MemoryMi(s + "Mi") == Some(DigitsValue(s) as real)
  {
    ParseNumeral(s);
    var q := s + "Mi";
    assert q[..|q| - 2] == s && q[|q| - 2..] == "Mi";
    assert UnitOf(q) == Mebi;
  }

  lemma MemoryGibibytes(s: string)
    requires Numeral(s)
    ensures MemoryMi(s + "Gi") == Some(DigitsValue(s) as real * 1024.0)
  {
    ParseNumeral(s);
    var q := s + "Gi";
    assert q[..|q| - 2] == s && q[|q| - 2..] == "Gi";
    assert UnitOf(q) == Gibi;
  }

  lemma MemoryBytes(s: string)
    requires Numeral(s)
    ensures MemoryMi(s) == Some(DigitsValue(s) as real / (1024.0 * 1024.0))
  {
    ParseNumeral(s);
    NumeralHasNoSuffix(s);
    assert UnitOf(s) == Bytes && s[..|s| - 0] == s;
  }

  // ------------------------------------------------------ pod metrics

  /** One pod from the metrics API: its metadata and each container's `usage` dictionary (absent = empty). */
  datatype PodMetric = PodMetric(metadata: map<string, string>, containers: seq<map<string, string>>)

  /** One container's (cores, MiB); an absent quantity is "0". */
  function UsageOf(usage: map<string, string>): (r: Option<(real, real)>)
    ensures r.Some? <==> CpuCores(GetOr(usage, "cpu", "0")).Some? && MemoryMi(GetOr(usage, "memory", "0")).Some?
  {
    match CpuCores(GetOr(usage, "cpu", "0"))
    case None => None
    case Some(cpu) =>
      match MemoryMi(GetOr(usage, "memory", "0"))
      case None => None
      case Some(memory) => Some((cpu, memory))
  }

  /** The usages summed over the containers, left to right; `None` once one of them does not parse. */
  function SumUsage(containers: seq<map<string, string>>, usage: map<string, string> -> Option<(real, real)>)
    : (r: Option<(real, real)>)
  {
    if containers == [] then Some((0.0, 0.0))
    else
      match SumUsage(containers[..|containers| - 1], usage)
      case None => None
      case Some(t) =>
        match usage(containers[|containers| - 1])
        case None => None
        case Some(u) => Some((t.0 + u.0, t.1 + u.1))
  }

  /** The sum is defined exactly when every container's usage is. */
  lemma {:induction false} SumUsageDefined(containers: seq<map<string, string>>,
                                           usage: map<string, string> -> Option<(real, real)>)
    ensures SumUsage(containers, usage).Some? <==> forall i | 0 <= i < |containers| :: usage(containers[i]).Some?
  {
    if containers != [] {
      var init := containers[..|containers| - 1];
      SumUsageDefined(init, usage);
      assert forall i | 0 <= i < |init| :: init[i] == containers[i];
    }
  }

  /** One container whose usage does not parse makes the whole sum undefined. */
  lemma SumUsageUndefined(containers: seq<map<string, string>>, i: nat,
                          usage: map<string, string> -> Option<(real, real)>)
    requires i < |containers| && usage(containers[i]).None?
    ensures SumUsage(containers, usage).None?
  {
    SumUsageDefined(containers, usage);
  }

  /** Usage is summed: the sums over two lists of containers add up. */
  lemma {:induction false} SumUsageAppend(a: seq<map<string, string>>, b: seq<map<string, string>>,
                                          usage: map<string, string> -> Option<(real, real)>)
    requires SumUsage(a, usage).Some? && SumUsage(b, usage).Some?
    decreases |b|
    ensures var x, y := SumUsage(a, usage).value, SumUsage(b, usage).value;
            SumUsage(a + b, usage) == Some((x.0 + y.0, x.1 + y.1))
  {
    if b == [] {
      assert a + b == a;
    } else {
      var init, last := b[..|b| - 1], b[|b| - 1];
      SumUsageAppend(a, init, usage);
      var ab := a + b;
      assert ab[..|ab| - 1] == a + init && ab[|ab| - 1] == last;
    }
  }

  /** One more container: its usage is added to the running sum. */
  lemma SumUsageStep(containers: seq<map<string, string>>, i: nat, usage: map<string, string> -> Option<(real, real)>,
                     t: (real, real), u: (real, real))
    requires i < |containers| && SumUsage(containers[..i], usage) == Some(t) && usage(containers[i]) == Some(u)
    ensures SumUsage(containers[..i + 1], usage) == Some((t.0 + u.0, t.1 + u.1))
  {
    var prefix := containers[..i + 1];
    assert prefix[..|prefix| - 1] == containers[..i] && prefix[|prefix| - 1] == containers[i];
  }

  /** The pod's (cores, MiB), summed over its containers. */
  function Totals(containers: seq<map<string, string>>): (r: Option<(real, real)>)
  {
    SumUsage(containers, UsageOf)
  }

  /**
   * The metrics of one pod: summed usage, namespace and name from the
   * metadata ("default" and "unknown" when absent), one pod, and the
   * fixed request and limit defaults; `None` when a quantity does not parse.
   */
  function PodMetrics(pod: PodMetric, now: Timestamp): (r: Option<ResourceMetrics>)
    ensures r.Some? <==> Totals(pod.containers).Some?
    ensures r.Some? ==> r.value.timestamp == now && r.value.podCount == 1
    ensures r.Some? ==> r.value.namespace == GetOr(pod.metadata, "namespace", "default")
    ensures r.Some? ==> r.value.deployment == GetOr(pod.metadata, "name", "unknown")
    ensures r.Some? ==> (r.value.cpuUsage, r.value.memoryUsage) == Totals(pod.containers).value
  {
    match Totals(pod.containers)
    case None => None
    case Some(t) =>
      Some(ResourceMetrics(now, GetOr(pod.metadata, "namespace", "default"), GetOr(pod.metadata, "name", "unknown"),
                           1, t.0, t.1, 0.1, 128.0, 0.5, 512.0, 0.0, 0.0))
  }

  /**
   * The accumulation loop of `_parse_pod_metrics`: adds up each container's
   * (cores, MiB) as read by `usage`, stopping at the first one that does
   * not parse.
   */
  method AccumulateUsage(containers: seq<map<string, string>>, usage: map<string, string> -> Option<(real, real)>)
    returns (r: Option<(real, real)>)
    ensures r == SumUsage(containers, usage)
  {
    var totalCpu, totalMemory := 0.0, 0.0;
    var i := 0;
    while i < |containers|
      invariant 0 <= i <= |containers|
      invariant SumUsage(containers[..i], usage) == Some((totalCpu, totalMemory))
    {
      var u := usage(containers[i]);
      if u.None? {
        SumUsageUndefined(containers, i, usage);
        return None;
      }
      SumUsageStep(containers, i, usage, (totalCpu, totalMemory), u.value);
      totalCpu := totalCpu + u.value.0;
      totalMemory := totalMemory + u.value.1;
      i := i + 1;
    }
    assert containers[..i] == containers;
    r := Some((totalCpu, totalMemory));
  }

  /** `_parse_pod_metrics`: the containers' usage summed, then the record with its defaults. */
  method ParsePodMetrics(pod: PodMetric, now: Timestamp) returns (r: Option<ResourceMetrics>)
    ensures r == PodMetrics(pod, now)
  {
    var totals := AccumulateUsage(pod.containers, UsageOf);
    if totals.None? {
      return None;
    }
    r := Some(ResourceMetrics(now, GetOr(pod.metadata, "namespace", "default"),
                              GetOr(pod.metadata, "name", "unknown"),
                              1, totals.value.0, totals.value.1, 0.1, 128.0, 0.5, 512.0, 0.0, 0.0));
  }

  // ------------------------------------------------------ the scaling gate

  function Abs(x: real): real
  {
    if x < 0.0 then -x else x
  }

  function MaxReal(a: real, b: real): real
  {
    if a >= b then a else b
  }

  /** `abs(new - old) / max(old, floor)`. */
  function RelativeChange(current: real, recommended: real, floor: real): (r: real)
    requires floor > 0.0
    ensures r >= 0.0
  {
    Abs(recommended - current) / MaxReal(current, floor)
  }

  /** A change below 10% of `max(old, floor)`, compared without dividing. */
  predicate SmallChange(current: real, recommended: real, floor: real)
  {
    Abs(recommended - current) < 0.1 * MaxReal(current, floor)
  }

  /** The undivided comparison is the source's test of the relative change against 0.1. */
  lemma SmallChangeIsRelative(current: real, recommended: real, floor: real)
    requires floor > 0.0
    ensures SmallChange(current, recommended, floor) <==> RelativeChange(current, recommended, floor) < 0.1
  {
    DivCompare(Abs(recommended - current), MaxReal(current, floor), 0.1);
  }

  /**
   * With the replica count unchanged: whether both the CPU and the memory
   * request change by less than 10% (memory strings lose their `Mi`
   * before parsing). `None` is the `ValueError` of a request that does
   * not parse.
   */
  function SmallRequestChange(rec: ScalingRecommendation): (r: Option<bool>)
  {
    var cpuNow := ParseDecimal(rec.currentCpuRequest);
    var cpuNext := ParseDecimal(rec.recommendedCpuRequest);
    var memNow := ParseDecimal(Replace(rec.currentMemoryRequest, "Mi", ""));
    var memNext := ParseDecimal(Replace(rec.recommendedMemoryRequest, "Mi", ""));
    if cpuNow.None? || cpuNext.None? || memNow.None? || memNext.None? then None
    else Some(SmallChange(cpuNow.value, cpuNext.value, 0.001) && SmallChange(memNow.value, memNext.value, 1.0))
  }

  /** A decision recorded for `key` fewer than 300 seconds before `now`. */
  predicate CoolingDown(decisions: map<string, Timestamp>, key: string, now: Timestamp)
  {
    key in decisions && now - decisions[key] < 300
  }

  /**
   * `_should_scale`: not below the confidence threshold, not a change too
   * small to matter, not within the cooldown of the same deployment.
   * `None` is the `ValueError` raised while parsing the requests.
   */
  function ShouldScale(rec: ScalingRecommendation, threshold: real, decisions: map<string, Timestamp>,
                       now: Timestamp): (r: Option<bool>)
    ensures rec.confidence < threshold ==> r == Some(false)
  {
    if rec.confidence < threshold then Some(false)
    else
      var small := if rec.recommendedReplicas == rec.currentReplicas then SmallRequestChange(rec) else Some(false);
      match small
      case None => None
      case Some(true) => Some(false)
      case Some(false) => Some(!CoolingDown(decisions, RecommendationKey(rec), now))
  }

  /** The gate opens exactly when none of its three refusals applies. */
  lemma ShouldScaleIff(rec: ScalingRecommendation, threshold: real, decisions: map<string, Timestamp>, now: Timestamp)
    ensures ShouldScale(rec, threshold, decisions, now) == Some(true) <==>
              && rec.confidence >= threshold
              && (rec.recommendedReplicas == rec.currentReplicas ==> SmallRequestChange(rec) == Some(false))
              && !CoolingDown(decisions, RecommendationKey(rec), now)
  {
  }

  /** A different replica count never needs the requests parsed. */
  lemma ReplicaChangeNeedsNoParsing(rec: ScalingRecommendation, threshold: real, decisions: map<string, Timestamp>,
                                    now: Timestamp)
    requires rec.recommendedReplicas != rec.currentReplicas
    ensures ShouldScale(rec, threshold, decisions, now).Some?
  {
  }

  /** Once a decision is recorded for a deployment, the gate stays shut for it for 300 seconds. */
  lemma CooldownBlocks(rec: ScalingRecommendation, threshold: real, decisions: map<string, Timestamp>,
                       decidedAt: Timestamp, now: Timestamp)
    requires decidedAt <= now < decidedAt + 300
    ensures ShouldScale(rec, threshold, decisions[RecommendationKey(rec) := decidedAt], now) != Some(true)
  {
  }

  /** After 300 seconds the recorded decision no longer matters. */
  lemma CooldownExpires(rec: ScalingRecommendation, threshold: real, decisions: map<string, Timestamp>,
                        decidedAt: Timestamp, now: Timestamp)
    requires now >= decidedAt + 300
    ensures ShouldScale(rec, threshold, decisions[RecommendationKey(rec) := decidedAt], now)
            == ShouldScale(rec, threshold, decisions - {RecommendationKey(rec)}, now)
  {
  }

  // ------------------------------------------------------ severity and risk

  /** The severity tiers of a change ratio: at least 1.0 is high, above 0.5 medium, otherwise low. */
  function RatioSeverity(ratio: real): Severity
  {
    if ratio >= 1.0 then "high" else if ratio > 0.5 then "medium" else "low"
  }

  /**
   * `_assess_scaling_severity`: the replica change d against b, the
   * larger of the current count and 1, compared over integers.
   */
  function ScalingSeverity(rec: ScalingRecommendation): (s: Severity)
    ensures s != "critical"
  {
    var d := if rec.recommendedReplicas >= rec.currentReplicas then rec.recommendedReplicas - rec.currentReplicas
             else rec.currentReplicas - rec.recommendedReplicas;
    var b := if rec.currentReplicas >= 1 then rec.currentReplicas else 1;
    if d >= b then "high" else if 2 * d > b then "medium" else "low"
  }

  /** The integer comparison gives the tier of the ratio `|recommended - current| / max(current, 1)`. */
  lemma ScalingSeverityIsRatio(rec: ScalingRecommendation)
    ensures var b := if rec.currentReplicas >= 1 then rec.currentReplicas else 1;
            ScalingSeverity(rec) == RatioSeverity(Abs((rec.recommendedReplicas - rec.currentReplicas) as real) / b as real)
  {
    var d := if rec.recommendedReplicas >= rec.currentReplicas then rec.recommendedReplicas - rec.currentReplicas
             else rec.currentReplicas - rec.recommendedReplicas;
    var b := if rec.currentReplicas >= 1 then rec.currentReplicas else 1;
    assert Abs((rec.recommendedReplicas - rec.currentReplicas) as real) == d as real;
    DivCompare(d as real, b as real, 1.0);
    DivCompare(d as real, b as real, 0.5);
  }

  /** Comparing a quotient by a positive divisor is comparing the dividend with the scaled bound. */
  lemma DivCompare(x: real, y: real, c: real)
    requires y > 0.0
    ensures x / y >= c <==> x >= c * y
    ensures x / y > c <==> x > c * y
  {
    var q := x / y;
    assert q * y == x;
    if q >= c {
      assert q * y >= c * y;
    } else {
      assert q * y < c * y;
    }
    if q > c {
      assert q * y > c * y;
    } else {
      assert q * y <= c * y;
    }
  }

  /** Doubling the replicas is high, 3 to 5 is medium, no change is low. */
  lemma ScalingSeverityExamples(rec: ScalingRecommendation)
    ensures ScalingSeverity(rec.(currentReplicas := 2, recommendedReplicas := 5)) == "high"
    ensures ScalingSeverity(rec.(currentReplicas := 2, recommendedReplicas := 4)) == "high"
    ensures ScalingSeverity(rec.(currentReplicas := 3, recommendedReplicas := 5)) == "medium"
    ensures ScalingSeverity(rec.(currentReplicas := 2, recommendedReplicas := 2)) == "low"
  {
  }

  /** The risk of a scaling action: low only in full automation above 0.8, else medium above 0.6, else high. */
  function ScalingRisk(level: AutomationLevel, confidence: real): (r: RiskLevel)
    ensures r == Low <==> level == FullAuto && confidence > 0.8
    ensures r == High <==> confidence <= 0.6
  {
    if level == FullAuto && confidence > 0.8 then Low else if confidence > 0.6 then Medium else High
  }

  function RiskRank(r: RiskLevel): nat
  {
    match r
    case Low => 0
    case Medium => 1
    case High => 2
  }

  /** More confidence never raises the risk. */
  lemma MoreConfidenceNeverRaisesRisk(level: AutomationLevel, p: real, q: real)
    requires p <= q
    ensures RiskRank(ScalingRisk(level, q)) <= RiskRank(ScalingRisk(level, p))
  {
  }

  // ------------------------------------------------------ actions from events

  /**
   * `_handle_scaling_event`: a scaling action for the recommendation's
   * deployment; `fixed2` renders the confidence with two decimals.
   */
  function ScalingAction(agentId: string, eventId: string, rec: ScalingRecommendation, level: AutomationLevel,
                         now: Timestamp, fixed2: real -> string): (a: ActionSpec)
    ensures a.actionType == K8sScale && a.agentId == agentId
    ensures a.riskLevel == ScalingRisk(level, rec.confidence)
    ensures a.targetResources == [RecommendationKey(rec)]
    ensures a.id == "k8s_scale_" + IntToString(now)
    ensures a.metadata == map["event_id" := Str(eventId)]
  {
    var auto := level == FullAuto && rec.confidence > 0.8;
    var description :=
      if auto then "Auto-scaling " + rec.deployment + " (confidence: " + fixed2(rec.confidence) + ")"
      else ("Scaling " + "recommendation for ") + rec.deployment + " (confidence: " + fixed2(rec.confidence) + ")";
    var impact := "Replicas: " + IntToString(rec.currentReplicas) + " \U{2192} "
                  + IntToString(rec.recommendedReplicas) + "; " + rec.reasoning;
    ActionSpec("k8s_scale_" + IntToString(now), agentId, K8sScale, description, [RecommendationKey(rec)],
               ScalingRisk(level, rec.confidence), impact, map["event_id" := Str(eventId)])
  }

  /** `_handle_resource_anomaly_event`: restart the deployment the anomaly names, at medium risk. */
  function RestartAction(agentId: string, event: SystemEvent, now: Timestamp, show: Value -> string): (a: ActionSpec)
    ensures a.actionType == K8sRestart && a.riskLevel == Medium && a.agentId == agentId
    ensures var deployment, namespace := DataText(event.data, "deployment", "unknown", show),
                                         DataText(event.data, "namespace", "default", show);
            && a.targetResources == [Key(namespace, deployment)]
            && a.description == "Restart deployment " + deployment + " due to resource anomaly"
    ensures a.id == "k8s_restart_" + IntToString(now)
    ensures a.metadata == map["event_id" := Str(event.id)]
  {
    var deployment := DataText(event.data, "deployment", "unknown", show);
    var namespace := DataText(event.data, "namespace", "default", show);
    ActionSpec("k8s_restart_" + IntToString(now), agentId, K8sRestart,
               ("Restart deployment ") + deployment + (" due to resource " + "anomaly"),
               [Key(namespace, deployment)], Medium,
               ("Temporary service " + "disruption during " + "pod restart"),
               map["event_id" := Str(event.id)])
  }

  /**
   * A target `namespace/deployment` splits back into its two names when
   * neither holds a `/`; so a restart reaches the deployment it was built for.
   */
  lemma KeySplitsBack(namespace: string, deployment: string)
    requires '/' !in namespace && '/' !in deployment
    ensures Split(Key(namespace, deployment), "/") == [namespace, deployment]
  {
    assert Join([namespace, deployment], "/") == Key(namespace, deployment) by {
      JoinCons(namespace, [deployment], "/");
    }
    SplitJoin([namespace, deployment], "/");
  }

  // ------------------------------------------------------ executing a scaling action

  /** One line of the results: the step's name and whether it succeeded. */
  function StepResult(step: string, ok: bool): string
  {
    step + ": " + (if ok then "success" else "failed")
  }

  const ReplicaStep := "Replica scaling"
  const ResourceStep := "Resource update"

  /** A step's line contains "success" exactly when the step succeeded, when its failed line does not. */
  lemma StepResultReportsSuccess(step: string, ok: bool)
    requires !Contains(step + ": failed", "success")
    ensures Contains(StepResult(step, ok), "success") <==> ok
  {
    var line := StepResult(step, ok);
    if ok {
      assert line[|step| + 2..|step| + 2 + 7] == "success";
      assert MatchAt(line, "success", |step| + 2);
    } else {
      assert line == step + ": failed";
    }
  }

  lemma ReplicaStepFailedLine()
    ensures !Contains(ReplicaStep + ": failed", "success")
  {
    MissingChar(ReplicaStep + ": failed", "success", 'u');
  }

  lemma ResourceStepFailedLine()
    ensures !Contains(ResourceStep + ": failed", "success")
  {
    var line := ResourceStep + ": failed";
    assert forall i | 0 <= i < |line| - 1 :: !(line[i] == 'c' && line[i + 1] == 'c');
    MissingPair(line, "success", 2);
  }

  /** The requests the recommendation changes: either quantity string differs. */
  predicate ChangesRequests(rec: ScalingRecommendation)
  {
    rec.recommendedCpuRequest != rec.currentCpuRequest || rec.recommendedMemoryRequest != rec.currentMemoryRequest
  }

  /** The result lines: replicas only if the counts differ, then requests only if the strings differ. */
  function ScalingResults(rec: ScalingRecommendation, scaled: bool, updated: bool): (results: seq<string>)
    ensures |results| == (if rec.recommendedReplicas != rec.currentReplicas then 1 else 0)
                         + (if ChangesRequests(rec) then 1 else 0)
  {
    (if rec.recommendedReplicas != rec.currentReplicas then [StepResult(ReplicaStep, scaled)] else [])
    + (if ChangesRequests(rec) then [StepResult(ResourceStep, updated)] else [])
  }

  /** Python's `all("success" in line for line in results)`. */
  predicate AllSucceeded(results: seq<string>)
  {
    forall i | 0 <= i < |results| :: Contains(results[i], "success")
  }

  /**
   * The action succeeds exactly when every step it takes succeeds; with
   * nothing to do it succeeds vacuously.
   */
  lemma ScalingSucceedsIff(rec: ScalingRecommendation, scaled: bool, updated: bool)
    ensures AllSucceeded(ScalingResults(rec, scaled, updated)) <==>
              (rec.recommendedReplicas != rec.currentReplicas ==> scaled) && (ChangesRequests(rec) ==> updated)
  {
    ReplicaStepFailedLine();
    ResourceStepFailedLine();
    StepResultReportsSuccess(ReplicaStep, scaled);
    StepResultReportsSuccess(ResourceStep, updated);
    var results := ScalingResults(rec, scaled, updated);
    if rec.recommendedReplicas != rec.currentReplicas {
      assert results[0] == StepResult(ReplicaStep, scaled);
    }
    if ChangesRequests(rec) {
      assert results[|results| - 1] == StepResult(ResourceStep, updated);
    }
  }

  /** One entry of the scaling history. */
  datatype ScalingRecord = ScalingRecord(
    timestamp: Timestamp,
    deployment: string,
    actionId: string,
    recommendation: ScalingRecommendation,
    results: seq<string>)

  /** A recommendation's `__dict__`: one entry per field, under the field's Python name. */
  function RecommendationData(p: ScalingRecommendation): (v: Value)
    ensures v.Obj?
  {
    Obj(map["deployment" := Str(p.deployment), "namespace" := Str(p.namespace),
            "current_replicas" := Num(p.currentReplicas as real),
            "recommended_replicas" := Num(p.recommendedReplicas as real),
            "current_cpu_request" := Str(p.currentCpuRequest),
            "recommended_cpu_request" := Str(p.recommendedCpuRequest),
            "current_memory_request" := Str(p.currentMemoryRequest),
            "recommended_memory_request" := Str(p.recommendedMemoryRequest),
            "confidence" := Num(p.confidence), "reasoning" := Str(p.reasoning),
            "estimated_cost_impact" := Num(p.estimatedCostImpact)])
  }

  /** The dictionary has exactly the recommendation's eleven field names as keys. */
  lemma RecommendationDataKeys(p: ScalingRecommendation)
    ensures RecommendationData(p).fields.Keys
            == {"deployment", "namespace", "current_replicas", "recommended_replicas",
                "current_cpu_request", "recommended_cpu_request", "current_memory_request",
                "recommended_memory_request", "confidence", "reasoning", "estimated_cost_impact"}
  {
  }

  /** A scaling record as the dictionary kept in the history and returned. */
  function ScalingRecordData(r: ScalingRecord): (v: Value)
    ensures v.Obj? && v.fields.Keys == {"timestamp", "deployment", "action", "recommendation", "results"}
    ensures v.fields["timestamp"] == Num(r.timestamp as real) && v.fields["deployment"] == Str(r.deployment)
    ensures v.fields["action"] == Str(r.actionId) && v.fields["results"] == Strs(r.results)
    ensures v.fields["recommendation"] == RecommendationData(r.recommendation)
  {
    Obj(map["timestamp" := Num(r.timestamp as real), "deployment" := Str(r.deployment),
            "action" := Str(r.actionId), "recommendation" := RecommendationData(r.recommendation),
            "results" := Strs(r.results)])
  }

  // ------------------------------------------------------ restarting

  /** A deployment as listed by the API: its name and replica count. */
  datatype DeploymentInfo = DeploymentInfo(name: string, replicas: int)

  /** The replica count of the first deployment with that name; 1 when none has it. */
  function ReplicasOf(deployments: seq<DeploymentInfo>, name: string): (n: int)
  {
    if deployments == [] then 1
    else if deployments[0].name == name then deployments[0].replicas
    else ReplicasOf(deployments[1..], name)
  }

  /** It is the count of the first match, or 1 when there is no match. */
  lemma {:induction false} ReplicasOfFirst(deployments: seq<DeploymentInfo>, name: string)
    ensures (forall i | 0 <= i < |deployments| :: deployments[i].name != name) ==> ReplicasOf(deployments, name) == 1
    ensures forall i | 0 <= i < |deployments| && deployments[i].name == name
              && (forall j | 0 <= j < i :: deployments[j].name != name) ::
              ReplicasOf(deployments, name) == deployments[i].replicas
  {
    if deployments != [] && deployments[0].name != name {
      var tail := deployments[1..];
      ReplicasOfFirst(tail, name);
      assert forall i | 1 <= i < |deployments| :: deployments[i] == tail[i - 1];
    }
  }

  // ------------------------------------------------------ collected metrics

  /** The metric the model starts from: the first with the latest timestamp (`max` keeps the first maximum). */
  function Latest(ms: seq<ResourceMetrics>): (m: ResourceMetrics)
    requires ms != []
    ensures m in ms
  {
    if |ms| == 1 then ms[0]
    else
      var rest := Latest(ms[1..]);
      if rest.timestamp > ms[0].timestamp then rest else ms[0]
  }

  /** No metric is newer than the chosen one. */
  lemma {:induction false} LatestIsMax(ms: seq<ResourceMetrics>)
    requires ms != []
    ensures forall i | 0 <= i < |ms| :: ms[i].timestamp <= Latest(ms).timestamp
  {
    if |ms| > 1 {
      var tail := ms[1..];
      LatestIsMax(tail);
      forall i | 1 <= i < |ms| ensures ms[i].timestamp <= Latest(ms).timestamp {
        assert ms[i] == tail[i - 1];
      }
    }
  }

  /** The chosen metric sits at a position before which every metric is strictly older. */
  lemma {:induction false} LatestIsFirst(ms: seq<ResourceMetrics>)
    requires ms != []
    ensures exists i | 0 <= i < |ms| :: ms[i] == Latest(ms) && forall j | 0 <= j < i :: ms[j].timestamp < ms[i].timestamp
  {
    if |ms| == 1 || Latest(ms[1..]).timestamp <= ms[0].timestamp {
      assert ms[0] == Latest(ms);
    } else {
      var tail := ms[1..];
      var rest := Latest(tail);
      LatestIsFirst(tail);
      var i :| 0 <= i < |tail| && tail[i] == rest && forall j | 0 <= j < i :: tail[j].timestamp < tail[i].timestamp;
      assert Latest(ms) == rest;
      assert ms[i + 1] == rest;
      forall j | 0 <= j < i + 1 ensures ms[j].timestamp < ms[i + 1].timestamp {
        if j > 0 {
          assert ms[j] == tail[j - 1];
        }
      }
    }
  }

  /** No metric is newer, and every metric before it is strictly older. */
  lemma LatestIsFirstMax(ms: seq<ResourceMetrics>)
    requires ms != []
    ensures forall x | x in ms :: x.timestamp <= Latest(ms).timestamp
    ensures exists i | 0 <= i < |ms| :: ms[i] == Latest(ms) && forall j | 0 <= j < i :: ms[j].timestamp < ms[i].timestamp
  {
    LatestIsMax(ms);
    LatestIsFirst(ms);
  }

  /** One day, in seconds. */
  const Retention := 86400

  /** A metric strictly newer than a day before `now`. */
  predicate Fresh(m: ResourceMetrics, now: Timestamp)
  {
    m.timestamp > now - Retention
  }

  /** The metrics of `ms` that are still fresh, in order. */
  function Retained(ms: seq<ResourceMetrics>, now: Timestamp): seq<ResourceMetrics>
  {
    if ms == [] then []
    else
      var init := Retained(ms[..|ms| - 1], now);
      if Fresh(ms[|ms| - 1], now) then init + [ms[|ms| - 1]] else init
  }

  /** The retained history holds exactly the fresh metrics of `ms`. */
  lemma {:induction false} RetainedMembers(ms: seq<ResourceMetrics>, now: Timestamp)
    ensures forall m | m in Retained(ms, now) :: m in ms && Fresh(m, now)
    ensures forall i | 0 <= i < |ms| && Fresh(ms[i], now) :: ms[i] in Retained(ms, now)
  {
    if ms != [] {
      var init := ms[..|ms| - 1];
      RetainedMembers(init, now);
      assert forall i | 0 <= i < |init| :: init[i] == ms[i];
    }
  }

  /** The history kept for a deployment: earlier entries then the new ones, only the fresh ones. */
  function UpdatedHistory(history: map<string, seq<ResourceMetrics>>, key: string, current: seq<ResourceMetrics>,
                          now: Timestamp): seq<ResourceMetrics>
  {
    Retained((if key in history then history[key] else []) + current, now)
  }

  /** Retaining keeps the order: retained history of a concatenation is the concatenation of the retained parts. */
  lemma {:induction false} RetainedAppend(a: seq<ResourceMetrics>, b: seq<ResourceMetrics>, now: Timestamp)
    decreases |b|
    ensures Retained(a + b, now) == Retained(a, now) + Retained(b, now)
  {
    if b == [] {
      assert a + b == a;
    } else {
      var init := b[..|b| - 1];
      assert (a + b)[..|a + b| - 1] == a + init;
      RetainedAppend(a, init, now);
    }
  }

  /** The scaling model's input for a deployment, given its fresh history. */
  function Proposal(predict: Predictor, current: seq<ResourceMetrics>, history: seq<ResourceMetrics>)
    : ScalingRecommendation
    requires current != []
  {
    predict(Latest(current), history)
  }

  /** `_create_scaling_event`: announces a recommendation, its severity from the replica change. */
  function ScalingEvent(agentId: string, rec: ScalingRecommendation, now: Timestamp): (e: SystemEvent)
    ensures e.eventType == ScalingRequired && e.source == agentId
    ensures e.severity == ScalingSeverity(rec) && e.severity != "critical"
    ensures e.data == map["deployment" := Str(RecommendationKey(rec))]
  {
    SystemEvent("k8s_scaling_" + agentId + "_" + IntToString(now), ScalingRequired, agentId,
                ScalingSeverity(rec), map["deployment" := Str(RecommendationKey(rec))], now, None)
  }

  /** The events one analysis publishes: one when the gate opens, none otherwise (also when it raised). */
  function EventsFor(agentId: string, rec: ScalingRecommendation, threshold: real, decisions: map<string, Timestamp>,
                     now: Timestamp): (es: seq<SystemEvent>)
    ensures |es| <= 1
    ensures |es| == 1 <==> ShouldScale(rec, threshold, decisions, now) == Some(true)
  {
    if ShouldScale(rec, threshold, decisions, now) == Some(true) then [ScalingEvent(agentId, rec, now)] else []
  }

  // ------------------------------------------------------ grouping by deployment

  /** The keys of the metrics, one per metric, in order. */
  function KeysOf(ms: seq<ResourceMetrics>): (ks: seq<string>)
    ensures |ks| == |ms|
  {
    if ms == [] then [] else KeysOf(ms[..|ms| - 1]) + [MetricKey(ms[|ms| - 1])]
  }

  /** The key at each position is the key of the metric there. */
  lemma {:induction false} KeysOfIndex(ms: seq<ResourceMetrics>)
    ensures forall i | 0 <= i < |ms| :: KeysOf(ms)[i] == MetricKey(ms[i])
  {
    if ms != [] {
      KeysOfIndex(ms[..|ms| - 1]);
    }
  }

  /** The metrics filed under `key`, in order. */
  function Group(ms: seq<ResourceMetrics>, key: string): (g: seq<ResourceMetrics>)
    ensures |g| <= |ms|
  {
    if ms == [] then []
    else
      var init := Group(ms[..|ms| - 1], key);
      if MetricKey(ms[|ms| - 1]) == key then init + [ms[|ms| - 1]] else init
  }

  /** A group holds exactly the metrics of its key. */
  lemma {:induction false} GroupMembers(ms: seq<ResourceMetrics>, key: string)
    ensures forall m | m in Group(ms, key) :: m in ms && MetricKey(m) == key
    ensures forall i | 0 <= i < |ms| && MetricKey(ms[i]) == key :: ms[i] in Group(ms, key)
  {
    if ms != [] {
      var init := ms[..|ms| - 1];
      GroupMembers(init, key);
      assert forall i | 0 <= i < |init| :: init[i] == ms[i];
    }
  }

  /** Every metric lands in exactly one group: the groups of the distinct keys partition the input. */
  lemma {:induction false} GroupsPartition(ms: seq<ResourceMetrics>, keys: seq<string>)
    requires NoDuplicates(keys)
    requires forall i | 0 <= i < |ms| :: MetricKey(ms[i]) in keys
    decreases |ms|
    ensures GroupSizes(ms, keys) == |ms|
  {
    if ms == [] {
      GroupSizesEmpty(keys);
    } else {
      var init, last := ms[..|ms| - 1], ms[|ms| - 1];
      assert forall i | 0 <= i < |init| :: init[i] == ms[i];
      GroupsPartition(init, keys);
      GroupSizesStep(init, last, keys);
      assert MetricKey(last) in keys;
      assert init + [last] == ms;
    }
  }

  /** The total size of the groups of `keys`. */
  function GroupSizes(ms: seq<ResourceMetrics>, keys: seq<string>): nat
  {
    if keys == [] then 0 else GroupSizes(ms, keys[..|keys| - 1]) + |Group(ms, keys[|keys| - 1])|
  }

  /** No metrics, no grouped metrics. */
  lemma {:induction false} GroupSizesEmpty(keys: seq<string>)
    ensures GroupSizes([], keys) == 0
  {
    if keys != [] {
      GroupSizesEmpty(keys[..|keys| - 1]);
    }
  }

  /** One more metric grows exactly the one group of its key, if that key is listed once. */
  lemma {:induction false} GroupSizesStep(ms: seq<ResourceMetrics>, m: ResourceMetrics, keys: seq<string>)
    requires NoDuplicates(keys)
    decreases |keys|
    ensures GroupSizes(ms + [m], keys) == GroupSizes(ms, keys) + (if MetricKey(m) in keys then 1 else 0)
  {
    assert (ms + [m])[..|ms|] == ms;
    if keys != [] {
      var init := keys[..|keys| - 1];
      assert forall i, j | 0 <= i < j < |init| :: init[i] == keys[i] && init[j] == keys[j];
      GroupSizesStep(ms, m, init);
      assert MetricKey(m) in keys <==> MetricKey(m) in init || MetricKey(m) == keys[|keys| - 1];
      assert MetricKey(m) == keys[|keys| - 1] ==> MetricKey(m) !in init;
    }
  }

  /** One more metric adds its key to the list and itself to its key's group. */
  lemma GroupingStep(all: seq<ResourceMetrics>, i: nat)
    requires i < |all|
    ensures KeysOf(all[..i + 1]) == KeysOf(all[..i]) + [MetricKey(all[i])]
    ensures forall k :: Group(all[..i + 1], k) == Group(all[..i], k) + (if MetricKey(all[i]) == k then [all[i]] else [])
  {
    assert all[..i + 1][..i] == all[..i];
  }

  /** De-duplicating one more element appends it exactly when it is new. */
  lemma DedupSnoc<T>(s: seq<T>, x: T)
    ensures Dedup(s + [x]) == if x in s then Dedup(s) else Dedup(s) + [x]
  {
    assert (s + [x])[..|s|] == s;
    DedupMembers(s);
  }

  /** A key no metric carries has an empty group. */
  lemma {:induction false} UnseenKeyHasNoGroup(ms: seq<ResourceMetrics>, key: string)
    requires key !in KeysOf(ms)
    ensures Group(ms, key) == []
  {
    if ms != [] {
      var init := ms[..|ms| - 1];
      assert KeysOf(ms) == KeysOf(init) + [MetricKey(ms[|ms| - 1])];
      UnseenKeyHasNoGroup(init, key);
    }
  }

  /** The key list after metric `i`: its key is appended when it is new. */
  lemma KeysStep(all: seq<ResourceMetrics>, i: nat)
    requires i < |all|
    ensures var s, key := Dedup(KeysOf(all[..i])), MetricKey(all[i]);
            Dedup(KeysOf(all[..i + 1])) == if key in s then s else s + [key]
  {
    var s, key := KeysOf(all[..i]), MetricKey(all[i]);
    GroupingStep(all, i);
    DedupSnoc(s, key);
    DedupMembers(s);
  }

  /** The group of metric `i`'s key after it: the group so far (empty for a new key) and the metric. */
  lemma GroupStep(all: seq<ResourceMetrics>, i: nat, seen: bool)
    requires i < |all|
    requires seen <==> MetricKey(all[i]) in Dedup(KeysOf(all[..i]))
    ensures var key := MetricKey(all[i]);
            Group(all[..i + 1], key) == (if seen then Group(all[..i], key) else []) + [all[i]]
  {
    var key := MetricKey(all[i]);
    assert all[..i + 1][..i] == all[..i];
    if !seen {
      DedupMembers(KeysOf(all[..i]));
      UnseenKeyHasNoGroup(all[..i], key);
    }
  }

  /** The groups of the other keys stay as they were. */
  lemma OtherGroupsStep(all: seq<ResourceMetrics>, i: nat, k: string)
    requires i < |all| && k != MetricKey(all[i])
    ensures Group(all[..i + 1], k) == Group(all[..i], k)
  {
    assert all[..i + 1][..i] == all[..i];
  }

  /** `keys` and `groups` are the grouping of the first `i` metrics. */
  ghost predicate Grouped(all: seq<ResourceMetrics>, i: nat, keys: seq<string>, groups: map<string, seq<ResourceMetrics>>)
    requires i <= |all|
  {
    && keys == Dedup(KeysOf(all[..i]))
    && (forall k :: k in groups <==> k in keys)
    && (forall k | k in groups :: groups[k] == Group(all[..i], k) && groups[k] != [])
  }

  /** Filing metric `i` under its key extends the grouping of the first `i` metrics by one. */
  lemma GroupedStep(all: seq<ResourceMetrics>, i: nat, keys: seq<string>, groups: map<string, seq<ResourceMetrics>>,
                     keys': seq<string>, groups': map<string, seq<ResourceMetrics>>)
    requires i < |all| && Grouped(all, i, keys, groups)
    requires var key := MetricKey(all[i]);
             && keys' == (if key in groups then keys else keys + [key])
             && groups' == groups[key := (if key in groups then groups[key] else []) + [all[i]]]
    ensures Grouped(all, i + 1, keys', groups')
  {
    GroupedKeysStep(all, i, keys, groups, keys', groups');
    GroupedGroupsStep(all, i, keys, groups, keys', groups');
  }

  /** The key half of the step: the new key list is the de-duplicated keys so far, and names the groups. */
  lemma GroupedKeysStep(all: seq<ResourceMetrics>, i: nat, keys: seq<string>, groups: map<string, seq<ResourceMetrics>>,
                        keys': seq<string>, groups': map<string, seq<ResourceMetrics>>)
    requires i < |all| && Grouped(all, i, keys, groups)
    requires var key := MetricKey(all[i]);
             && keys' == (if key in groups then keys else keys + [key])
             && groups' == groups[key := (if key in groups then groups[key] else []) + [all[i]]]
    ensures keys' == Dedup(KeysOf(all[..i + 1])) && forall k :: k in groups' <==> k in keys'
  {
    KeysStep(all, i);
    forall k
      ensures k in groups' <==> k in keys'
    {
      assert k in groups <==> k in keys;
    }
  }

  /** The group half of the step: every group holds the metrics of its key so far. */
  lemma GroupedGroupsStep(all: seq<ResourceMetrics>, i: nat, keys: seq<string>, groups: map<string, seq<ResourceMetrics>>,
                          keys': seq<string>, groups': map<string, seq<ResourceMetrics>>)
    requires i < |all| && Grouped(all, i, keys, groups)
    requires var key := MetricKey(all[i]);
             && keys' == (if key in groups then keys else keys + [key])
             && groups' == groups[key := (if key in groups then groups[key] else []) + [all[i]]]
    ensures forall k | k in groups' :: groups'[k] == Group(all[..i + 1], k) && groups'[k] != []
  {
    var key := MetricKey(all[i]);
    GroupStep(all, i, key in groups);
    forall k | k in groups'
      ensures groups'[k] == Group(all[..i + 1], k) && groups'[k] != []
    {
      if k != key {
        OtherGroupsStep(all, i, k);
      }
    }
  }

  /**
   * The grouping loop of `_collect_and_analyze_metrics`: the keys in order
   * of first appearance, each with the metrics filed under it.
   */
  method GroupByDeployment(all: seq<ResourceMetrics>) returns (keys: seq<string>, groups: map<string, seq<ResourceMetrics>>)
    ensures keys == Dedup(KeysOf(all)) && forall k :: k in groups <==> k in keys
    ensures forall k | k in groups :: groups[k] == Group(all, k) && groups[k] != []
  {
    keys, groups := [], map[];
    var i := 0;
    while i < |all|
      invariant i <= |all| && Grouped(all, i, keys, groups)
    {
      var m := all[i];
      var key := MetricKey(m);
      var group := if key in groups then groups[key] else [];
      var keys' := if key in groups then keys else keys + [key];
      var groups' := groups[key := group + [m]];
      GroupedStep(all, i, keys, groups, keys', groups');
      keys, groups := keys', groups';
      i := i + 1;
    }
    assert all[..i] == all;
  }

  /** The events published by analysing the groups of `keys`, in order, each against the history before the sweep. */
  function AnalysisEvents(agentId: string, keys: seq<string>, all: seq<ResourceMetrics>,
                          history: map<string, seq<ResourceMetrics>>, predict: Predictor, threshold: real,
                          decisions: map<string, Timestamp>, now: Timestamp): (es: seq<SystemEvent>)
    ensures |es| <= |keys|
  {
    if keys == [] then []
    else
      var k := keys[|keys| - 1];
      var group := Group(all, k);
      AnalysisEvents(agentId, keys[..|keys| - 1], all, history, predict, threshold, decisions, now)
      + (if group == [] then []
         else EventsFor(agentId, Proposal(predict, group, UpdatedHistory(history, k, group, now)), threshold, decisions, now))
  }

  /** Analysing one more key whose group is not empty appends the events of its group. */
  lemma AnalysisEventsStep(agentId: string, keys: seq<string>, i: nat, all: seq<ResourceMetrics>,
                           history: map<string, seq<ResourceMetrics>>, predict: Predictor, threshold: real,
                           decisions: map<string, Timestamp>, now: Timestamp, es: seq<SystemEvent>,
                           group: seq<ResourceMetrics>)
    requires i < |keys| && es == AnalysisEvents(agentId, keys[..i], all, history, predict, threshold, decisions, now)
    requires group == Group(all, keys[i]) && group != []
    ensures AnalysisEvents(agentId, keys[..i + 1], all, history, predict, threshold, decisions, now)
            == es + EventsFor(agentId, Proposal(predict, group, UpdatedHistory(history, keys[i], group, now)),
                              threshold, decisions, now)
  {
    assert keys[..i + 1][..i] == keys[..i];
  }

  /** The metrics history after analysing the groups of `keys` in order (an empty group leaves it alone). */
  function HistoryAfter(history: map<string, seq<ResourceMetrics>>, keys: seq<string>, all: seq<ResourceMetrics>,
                        now: Timestamp): (h: map<string, seq<ResourceMetrics>>)
  {
    if keys == [] then history
    else
      var h := HistoryAfter(history, keys[..|keys| - 1], all, now);
      var k := keys[|keys| - 1];
      var group := Group(all, k);
      if group == [] then h else h[k := UpdatedHistory(h, k, group, now)]
  }

  /** Analysing one more key whose group is not empty updates its entry. */
  lemma HistoryAfterStep(history: map<string, seq<ResourceMetrics>>, keys: seq<string>, i: nat,
                         all: seq<ResourceMetrics>, now: Timestamp, h: map<string, seq<ResourceMetrics>>,
                         group: seq<ResourceMetrics>)
    requires i < |keys| && h == HistoryAfter(history, keys[..i], all, now)
    requires group == Group(all, keys[i]) && group != []
    ensures HistoryAfter(history, keys[..i + 1], all, now) == h[keys[i] := UpdatedHistory(h, keys[i], group, now)]
  {
    assert keys[..i + 1][..i] == keys[..i];
  }

  /** A key that is not analysed keeps its entry, or its absence. */
  lemma {:induction false} HistoryAfterOutside(history: map<string, seq<ResourceMetrics>>, keys: seq<string>,
                                               all: seq<ResourceMetrics>, now: Timestamp, k: string)
    requires k !in keys
    ensures k in HistoryAfter(history, keys, all, now) <==> k in history
    ensures k in history ==> HistoryAfter(history, keys, all, now)[k] == history[k]
  {
    if keys != [] {
      assert keys[|keys| - 1] != k;
      HistoryAfterOutside(history, keys[..|keys| - 1], all, now, k);
    }
  }

  /** The sweep adds exactly the keys with metrics. */
  lemma {:induction false} HistoryAfterKeys(history: map<string, seq<ResourceMetrics>>, keys: seq<string>,
                                            all: seq<ResourceMetrics>, now: Timestamp)
    ensures var h := HistoryAfter(history, keys, all, now);
            forall k :: k in h <==> k in history || (k in keys && Group(all, k) != [])
  {
    if keys != [] {
      var init := keys[..|keys| - 1];
      HistoryAfterKeys(history, init, all, now);
      assert forall k :: k in keys <==> k in init || k == keys[|keys| - 1];
    }
  }

  /** An entry whose key is not analysed, or has no metrics, is kept. */
  lemma {:induction false} HistoryAfterKept(history: map<string, seq<ResourceMetrics>>, keys: seq<string>,
                                            all: seq<ResourceMetrics>, now: Timestamp)
    ensures var h := HistoryAfter(history, keys, all, now);
            forall k | k in history && (k !in keys || Group(all, k) == []) :: k in h && h[k] == history[k]
  {
    if keys != [] {
      var init := keys[..|keys| - 1];
      HistoryAfterKept(history, init, all, now);
      assert forall k | k !in keys :: k !in init && k != keys[|keys| - 1];
    }
  }

  /** With distinct keys, each analysed key with metrics gets its earlier history plus its group, retained. */
  lemma {:induction false} HistoryAfterUpdated(history: map<string, seq<ResourceMetrics>>, keys: seq<string>,
                                               all: seq<ResourceMetrics>, now: Timestamp)
    requires NoDuplicates(keys)
    ensures var h := HistoryAfter(history, keys, all, now);
            forall k | k in keys && Group(all, k) != [] :: k in h && h[k] == UpdatedHistory(history, k, Group(all, k), now)
  {
    if keys != [] {
      var init, last := keys[..|keys| - 1], keys[|keys| - 1];
      assert NoDuplicates(init) by {
        assert forall i, j | 0 <= i < j < |init| :: init[i] == keys[i] && init[j] == keys[j];
      }
      assert last !in init by {
        assert forall i | 0 <= i < |init| :: init[i] == keys[i];
      }
      HistoryAfterUpdated(history, init, all, now);
      HistoryAfterOutside(history, init, all, now, last);
      HistoryAfterKeys(history, init, all, now);
      assert forall k | k in keys :: k in init || k == last;
    }
  }

  /**
   * Analysing distinct keys: each key with metrics gets the retained
   * concatenation of its earlier history and its group, every other entry
   * stays, and no other key appears.
   */
  lemma HistoryAfterSpec(history: map<string, seq<ResourceMetrics>>, keys: seq<string>,
                         all: seq<ResourceMetrics>, now: Timestamp)
    requires NoDuplicates(keys)
    ensures var h := HistoryAfter(history, keys, all, now);
            forall k :: k in h <==> k in history || (k in keys && Group(all, k) != [])
    ensures var h := HistoryAfter(history, keys, all, now);
            forall k | k in keys && Group(all, k) != [] :: h[k] == UpdatedHistory(history, k, Group(all, k), now)
    ensures var h := HistoryAfter(history, keys, all, now);
            forall k | k in history && (k !in keys || Group(all, k) == []) :: h[k] == history[k]
  {
    HistoryAfterKeys(history, keys, all, now);
    HistoryAfterUpdated(history, keys, all, now);
    HistoryAfterKept(history, keys, all, now);
  }

  /** The next key of a de-duplicated list has not been analysed yet: its history is still the one before the sweep. */
  lemma NextKeyUnanalysed(keys: seq<string>, i: nat, history: map<string, seq<ResourceMetrics>>,
                          all: seq<ResourceMetrics>, now: Timestamp, h: map<string, seq<ResourceMetrics>>,
                          group: seq<ResourceMetrics>)
    requires i < |keys| && NoDuplicates(keys) && h == HistoryAfter(history, keys[..i], all, now)
    ensures UpdatedHistory(h, keys[i], group, now) == UpdatedHistory(history, keys[i], group, now)
  {
    assert keys[i] !in keys[..i];
    HistoryAfterOutside(history, keys[..i], all, now, keys[i]);
  }

  /** Every published event asks to scale, comes from the agent and is never critical. */
  lemma {:induction false} AnalysisEventsAreScalingRequests(agentId: string, keys: seq<string>, all: seq<ResourceMetrics>,
                                                           history: map<string, seq<ResourceMetrics>>, predict: Predictor,
                                                           threshold: real, decisions: map<string, Timestamp>, now: Timestamp)
    ensures forall e | e in AnalysisEvents(agentId, keys, all, history, predict, threshold, decisions, now) ::
              e.eventType == ScalingRequired && e.source == agentId && e.severity != "critical"
  {
    if keys != [] {
      AnalysisEventsAreScalingRequests(agentId, keys[..|keys| - 1], all, history, predict, threshold, decisions, now);
    }
  }

  /** `_get_subscribed_event_types`: the bus delivers only scaling requests and resource anomalies. */
  function SubscribedEventTypes(): seq<EventType>
  {
    [ScalingRequired, ResourceAnomaly]
  }

  // ------------------------------------------------------ the agent

  class KubernetesAgent {
    const agentId: string
    var collectorReady: bool             // a metrics collector exists
    var scalerReady: bool                // a scaler exists (the collector reached the cluster)
    var model: Option<Predictor>
    var monitoringInterval: real
    var scalingThreshold: real
    var metricsHistory: map<string, seq<ResourceMetrics>>
    var scalingHistory: seq<ScalingRecord>
    var lastScalingDecisions: map<string, Timestamp>
    ghost var published: seq<SystemEvent>

    /** The scaling history is capped at one hundred records. */
    ghost predicate Valid()
      reads this
    {
      |scalingHistory| <= 100
    }

    constructor(agentId: string)
      ensures Valid() && this.agentId == agentId
      ensures !collectorReady && !scalerReady && model.None?
      ensures monitoringInterval == 60.0 && scalingThreshold == 0.7
      ensures metricsHistory == map[] && scalingHistory == [] && lastScalingDecisions == map[]
      ensures published == []
    {
      this.agentId := agentId;
      collectorReady := false;
      scalerReady := false;
      model := None;
      monitoringInterval := 60.0;
      scalingThreshold := 0.7;
      metricsHistory := map[];
      scalingHistory := [];
      lastScalingDecisions := map[];
      published := [];
    }

    /**
     * `_initialize_agent_specific`: needs a configuration and a non-empty
     * Kubernetes integration; then builds the metrics collector, whose
     * connection to the cluster (`connect`) either raises, which the agent
     * re-raises with the collector in place but no model and no scaler, or
     * succeeds, after which the model `predict`, the scaler and the two
     * thresholds are set.
     */
    method Initialize(config: Option<AgentConfig>, predict: Predictor, connect: Completion) returns (r: Completion)
      modifies this
      ensures config.None? ==> r == Raised("No configuration provided") && unchanged(this)
      ensures config.Some? && (IntegrationOfKind(config.value.integrations, "kubernetes").None?
                               || IntegrationOfKind(config.value.integrations, "kubernetes").value.config == map[]) ==>
                r == Raised(("No Kubernetes " + "integration " + "configuration found")) && unchanged(this)
      ensures (&& config.Some? && IntegrationOfKind(config.value.integrations, "kubernetes").Some?
               && IntegrationOfKind(config.value.integrations, "kubernetes").value.config != map[]) ==>
                r == connect && collectorReady
      ensures r.Raised? && collectorReady ==>
                && model == old(model) && scalerReady == old(scalerReady)
                && monitoringInterval == old(monitoringInterval) && scalingThreshold == old(scalingThreshold)
      ensures r.Done? ==>
                && config.Some? && collectorReady && model == Some(predict) && scalerReady
                && monitoringInterval == Threshold(config.value, "monitoring_interval", 60.0)
                && scalingThreshold == Threshold(config.value, "scaling_threshold", 0.7)
      ensures metricsHistory == old(metricsHistory) && scalingHistory == old(scalingHistory)
      ensures lastScalingDecisions == old(lastScalingDecisions) && published == old(published)
    {
      if config.None? {
        return Raised("No configuration provided");
      }
      var integration := IntegrationOfKind(config.value.integrations, "kubernetes");
      if integration.None? || integration.value.config == map[] {
        return Raised(("No Kubernetes " + "integration " + "configuration found"));
      }
      collectorReady := true;
      if connect.Raised? {
        return connect;
      }
      model := Some(predict);
      scalerReady := true;
      monitoringInterval := Threshold(config.value, "monitoring_interval", 60.0);
      scalingThreshold := Threshold(config.value, "scaling_threshold", 0.7);
      r := Done;
    }

    /**
     * `_process_event_specific`: a scaling event yields a scaling action
     * (none when its recommendation does not decode), a resource anomaly
     * yields a restart action, any other event nothing.
     */
    method ProcessEvent(event: SystemEvent, rec: Outcome<ScalingRecommendation>, level: AutomationLevel,
                        now: Timestamp, fixed2: real -> string, show: Value -> string)
      returns (action: Option<ActionSpec>)
      ensures event.eventType == ScalingRequired ==>
                action == (if rec.Returned? then Some(ScalingAction(agentId, event.id, rec.value, level, now, fixed2))
                           else None)
      ensures event.eventType == ResourceAnomaly ==> action == Some(RestartAction(agentId, event, now, show))
      ensures event.eventType !in SubscribedEventTypes() ==> action == None
    {
      if event.eventType == ScalingRequired {
        if rec.Threw? {
          return None;
        }
        action := Some(ScalingAction(agentId, event.id, rec.value, level, now, fixed2));
      } else if event.eventType == ResourceAnomaly {
        action := Some(RestartAction(agentId, event, now, show));
      } else {
        action := None;
      }
    }

    /**
     * `_analyze_deployment_scaling`: files the new metrics under the key,
     * keeps a day of history, asks the model and announces a scaling when
     * the gate opens.
     */
    method AnalyzeDeployment(key: string, current: seq<ResourceMetrics>, predict: Predictor, now: Timestamp)
      modifies this
      ensures current == [] ==> unchanged(this)
      ensures current != [] ==>
                && metricsHistory == old(metricsHistory)[key := UpdatedHistory(old(metricsHistory), key, current, now)]
                && published == old(published)
                   + EventsFor(agentId, Proposal(predict, current, metricsHistory[key]), scalingThreshold,
                               lastScalingDecisions, now)
      ensures scalingHistory == old(scalingHistory) && lastScalingDecisions == old(lastScalingDecisions)
      ensures scalingThreshold == old(scalingThreshold) && model == old(model)
      ensures collectorReady == old(collectorReady) && scalerReady == old(scalerReady)
    {
      if current == [] {
        return;
      }
      var history := UpdatedHistory(metricsHistory, key, current, now);
      metricsHistory := metricsHistory[key := history];
      Announce(key, current, predict, now);
    }

    /** Asks the model about the deployment's history and publishes a scaling event when the gate opens. */
    method Announce(key: string, current: seq<ResourceMetrics>, predict: Predictor, now: Timestamp)
      requires current != [] && key in metricsHistory
      modifies this`published
      ensures published == old(published)
                           + EventsFor(agentId, Proposal(predict, current, metricsHistory[key]), scalingThreshold,
                                       lastScalingDecisions, now)
    {
      var rec := predict(Latest(current), metricsHistory[key]);
      if ShouldScale(rec, scalingThreshold, lastScalingDecisions, now) == Some(true) {
        published := published + [ScalingEvent(agentId, rec, now)];
      }
    }

    /**
     * `_collect_and_analyze_metrics`: without a collector and a model
     * nothing happens; otherwise the collected metrics are grouped by
     * deployment and each group is analysed, in order of first appearance.
     */
    method CollectAndAnalyze(all: seq<ResourceMetrics>, now: Timestamp)
      modifies this
      ensures !collectorReady || model.None? ==> unchanged(this)
      ensures collectorReady && model.Some? ==>
                && metricsHistory == HistoryAfter(old(metricsHistory), Dedup(KeysOf(all)), all, now)
                && published == old(published)
                   + AnalysisEvents(agentId, Dedup(KeysOf(all)), all, old(metricsHistory), model.value,
                                    scalingThreshold, lastScalingDecisions, now)
      ensures scalingHistory == old(scalingHistory) && lastScalingDecisions == old(lastScalingDecisions)
      ensures scalingThreshold == old(scalingThreshold) && model == old(model)
      ensures collectorReady == old(collectorReady) && scalerReady == old(scalerReady)
    {
      if !collectorReady || model.None? {
        return;
      }
      var predict := model.value;
      var keys, groups := GroupByDeployment(all);
      DedupMembers(KeysOf(all));
      ghost var before := metricsHistory;
      ghost var published0 := published;
      var i := 0;
      while i < |keys|
        invariant 0 <= i <= |keys|
        invariant metricsHistory == HistoryAfter(before, keys[..i], all, now)
        invariant published == published0
                  + AnalysisEvents(agentId, keys[..i], all, before, predict, scalingThreshold, lastScalingDecisions, now)
        invariant scalingHistory == old(scalingHistory) && lastScalingDecisions == old(lastScalingDecisions)
        invariant scalingThreshold == old(scalingThreshold) && model == old(model)
        invariant collectorReady == old(collectorReady) && scalerReady == old(scalerReady)
      {
        var key := keys[i];
        assert key in groups && groups[key] == Group(all, key) && groups[key] != [];
        NextKeyUnanalysed(keys, i, before, all, now, metricsHistory, groups[key]);
        HistoryAfterStep(before, keys, i, all, now, metricsHistory, groups[key]);
        AnalysisEventsStep(agentId, keys, i, all, before, predict, scalingThreshold, lastScalingDecisions, now,
                           AnalysisEvents(agentId, keys[..i], all, before, predict, scalingThreshold,
                                          lastScalingDecisions, now), groups[key]);
        ghost var events := AnalysisEvents(agentId, keys[..i], all, before, predict, scalingThreshold,
                                           lastScalingDecisions, now);
        ghost var next := EventsFor(agentId, Proposal(predict, groups[key], UpdatedHistory(before, key, groups[key], now)),
                                    scalingThreshold, lastScalingDecisions, now);
        AnalyzeDeployment(key, groups[key], predict, now);
        assert metricsHistory[key] == UpdatedHistory(before, key, groups[key], now);
        assert published == published0 + events + next;
        AppendAssoc(published0, events, next);
        assert metricsHistory == HistoryAfter(before, keys[..i + 1], all, now);
        assert published == published0
               + AnalysisEvents(agentId, keys[..i + 1], all, before, predict, scalingThreshold, lastScalingDecisions, now);
        i := i + 1;
        assert metricsHistory == HistoryAfter(before, keys[..i], all, now);
        assert published == published0
               + AnalysisEvents(agentId, keys[..i], all, before, predict, scalingThreshold, lastScalingDecisions, now);
      }
      assert keys[..i] == keys;
    }

    /**
     * `_execute_scaling_action`: fails without a scaler or when the
     * recommendation does not decode; otherwise records the decision time
     * first, scales and updates requests only where they change, keeps
     * the last hundred records, and succeeds iff every step did.
     */
    method ExecuteScaling(action: ActionSpec, rec: Outcome<ScalingRecommendation>,
                          scale: (string, string, int) -> bool, update: (string, string, string, string) -> bool,
                          now: Timestamp)
      returns (r: ActionResult)
      requires Valid()
      modifies this`lastScalingDecisions, this`scalingHistory
      ensures Valid()
      ensures ScalingOutcome(action, rec, scale, update, now, r)
    {
      if !scalerReady {
        return FailedWith(("Kubernetes scaler " + "not available"), ("Scaler not " + "initialized"));
      }
      if rec.Threw? {
        return FailedWith(("Failed to execute " + "scaling action"), rec.error);
      }
      r := ApplyRecommendation(action.id, rec.value, scale, update, now);
    }

    /**
     * The outcome of `_execute_scaling_action`: without a scaler, or when
     * the recommendation does not decode, it fails and records nothing;
     * otherwise the recommendation is applied as `ScaledWith` states.
     */
    twostate predicate ScalingOutcome(action: ActionSpec, rec: Outcome<ScalingRecommendation>,
                                      scale: (string, string, int) -> bool,
                                      update: (string, string, string, string) -> bool, now: Timestamp,
                                      r: ActionResult)
      reads this
    {
      if !scalerReady then
        && r == FailedWith(("Kubernetes scaler " + "not available"), ("Scaler not " + "initialized"))
        && (lastScalingDecisions, scalingHistory) == old((lastScalingDecisions, scalingHistory))
      else if rec.Threw? then
        && r == FailedWith(("Failed to execute " + "scaling action"), rec.error)
        && (lastScalingDecisions, scalingHistory) == old((lastScalingDecisions, scalingHistory))
      else
        ScaledWith(action.id, rec.value, scale, update, now, r)
    }

    /**
     * A decoded recommendation applied: the decision time is recorded
     * for its key, the steps run, the record joins the history (the last
     * hundred kept), and the result reports the steps.
     */
    twostate predicate ScaledWith(actionId: string, p: ScalingRecommendation, scale: (string, string, int) -> bool,
                                  update: (string, string, string, string) -> bool, now: Timestamp, r: ActionResult)
      reads this
    {
      var scaled := scale(p.namespace, p.deployment, p.recommendedReplicas);
      var updated := update(p.namespace, p.deployment, p.recommendedCpuRequest, p.recommendedMemoryRequest);
      var results := ScalingResults(p, scaled, updated);
      var record := ScalingRecord(now, RecommendationKey(p), actionId, p, results);
      && lastScalingDecisions == old(lastScalingDecisions)[RecommendationKey(p) := now]
      && scalingHistory == KeepLast(old(scalingHistory) + [record], 100)
      && r == ActionResult(AllSucceeded(results), ("Scaling action " + "completed: ") + Join(results, "; "),
                           map["scaling_record" := ScalingRecordData(record),
                               "recommendation" := RecommendationData(p)], None, None)
    }

    /** `_execute_scaling_action` once the scaler exists and the recommendation decoded, as `ScaledWith` describes it. */
    method ApplyRecommendation(actionId: string, p: ScalingRecommendation, scale: (string, string, int) -> bool,
                               update: (string, string, string, string) -> bool, now: Timestamp)
      returns (r: ActionResult)
      requires Valid()
      modifies this`lastScalingDecisions, this`scalingHistory
      ensures Valid()
      ensures ScaledWith(actionId, p, scale, update, now, r)
    {
      lastScalingDecisions := lastScalingDecisions[RecommendationKey(p) := now];
      var results := ScalingSteps(p, scale, update);
      r := RecordScaling(actionId, p, results, now);
    }

    /** The replica step and the request step, each run only when it changes something. */
    static method ScalingSteps(p: ScalingRecommendation, scale: (string, string, int) -> bool,
                               update: (string, string, string, string) -> bool)
      returns (results: seq<string>)
      ensures results == ScalingResults(p, scale(p.namespace, p.deployment, p.recommendedReplicas),
                                        update(p.namespace, p.deployment, p.recommendedCpuRequest,
                                               p.recommendedMemoryRequest))
    {
      ghost var scaled := scale(p.namespace, p.deployment, p.recommendedReplicas);
      ghost var updated := update(p.namespace, p.deployment, p.recommendedCpuRequest, p.recommendedMemoryRequest);
      results := [];
      if p.recommendedReplicas != p.currentReplicas {
        var ok := scale(p.namespace, p.deployment, p.recommendedReplicas);
        results := results + [StepResult(ReplicaStep, ok)];
      }
      if ChangesRequests(p) {
        var ok := update(p.namespace, p.deployment, p.recommendedCpuRequest, p.recommendedMemoryRequest);
        results := results + [StepResult(ResourceStep, ok)];
      }
    }

    /** The record of a scaling joins the history, which keeps its last hundred; the result reports the steps. */
    method RecordScaling(actionId: string, p: ScalingRecommendation, results: seq<string>, now: Timestamp)
      returns (r: ActionResult)
      requires Valid()
      modifies this`scalingHistory
      ensures Valid()
      ensures var record := ScalingRecord(now, RecommendationKey(p), actionId, p, results);
              && scalingHistory == KeepLast(old(scalingHistory) + [record], 100)
              && r == ActionResult(AllSucceeded(results), ("Scaling action " + "completed: ") + Join(results, "; "),
                                   map["scaling_record" := ScalingRecordData(record),
                                       "recommendation" := RecommendationData(p)], None, None)
    {
      var record := ScalingRecord(now, RecommendationKey(p), actionId, p, results);
      var history := scalingHistory + [record];
      if |history| > 100 {
        history := history[|history| - 100..];
      }
      scalingHistory := history;
      r := ActionResult(AllSucceeded(results), ("Scaling action " + "completed: ") + Join(results, "; "),
                        map["scaling_record" := ScalingRecordData(record), "recommendation" := RecommendationData(p)],
                        None, None);
    }

    /**
     * `_execute_restart_action`: splits the first target into namespace
     * and deployment, scales the deployment to zero and then back to its
     * listed replica count (1 when not listed); fails if either scale
     * fails, and reports the IndexError or unpacking ValueError of a
     * missing or malformed target.
     */
    static function RestartResult(ready: bool, action: ActionSpec, scale: (string, string, int) -> bool,
                                  deployments: seq<DeploymentInfo>): (r: ActionResult)
      ensures !ready ==> r == FailedWith(("Kubernetes scaler " + "not available"), ("Scaler not " + "initialized"))
      ensures ready && action.targetResources == [] ==>
                r == FailedWith(("Failed to execute " + "restart action"), ("list index " + "out of range"))
      ensures ready && action.targetResources != [] && |Split(action.targetResources[0], "/")| != 2 ==>
                !r.success && r.message == ("Failed to execute " + "restart action")
      ensures ready && action.targetResources != [] && |Split(action.targetResources[0], "/")| == 2 ==>
                var parts := Split(action.targetResources[0], "/");
                var replicas := ReplicasOf(deployments, parts[1]);
                && (r.success <==> scale(parts[0], parts[1], 0) && scale(parts[0], parts[1], replicas))
                && (!scale(parts[0], parts[1], 0) ==>
                      r == FailedWith(("Failed to scale " + "deployment down " + "for restart"),
                                      ("Scale down " + "operation failed")))
                && (scale(parts[0], parts[1], 0) && !scale(parts[0], parts[1], replicas) ==>
                      r == FailedWith(("Failed to scale " + "deployment back up " + "after restart"),
                                      ("Scale up " + "operation failed")))
                && (r.success ==>
                      r == Succeeded(("Successfully " + "restarted deployment ") + Key(parts[0], parts[1]),
                                     map["original_replicas" := Num(replicas as real)]))
    {
      if !ready then FailedWith(("Kubernetes scaler " + "not available"), ("Scaler not " + "initialized"))
      else if action.targetResources == [] then
        FailedWith(("Failed to execute " + "restart action"), ("list index " + "out of range"))
      else
        var parts := Split(action.targetResources[0], "/");
        if |parts| < 2 then
          FailedWith(("Failed to execute " + "restart action"),
                     ("not enough values " + "to unpack (expected " + "2, got 1)"))
        else if |parts| > 2 then
          FailedWith(("Failed to execute " + "restart action"),
                     ("too many values " + "to unpack " + "(expected 2)"))
        else
          var replicas := ReplicasOf(deployments, parts[1]);
          if !scale(parts[0], parts[1], 0) then
            FailedWith(("Failed to scale " + "deployment down " + "for restart"), ("Scale down " + "operation failed"))
          else if !scale(parts[0], parts[1], replicas) then
            FailedWith(("Failed to scale " + "deployment back up " + "after restart"),
                       ("Scale up " + "operation failed"))
          else
            Succeeded(("Successfully " + "restarted deployment ") + Key(parts[0], parts[1]),
                      map["original_replicas" := Num(replicas as real)])
    }

    /** `_execute_restart_action`, step by step, as `RestartResult` describes it. */
    method ExecuteRestart(action: ActionSpec, scale: (string, string, int) -> bool, deployments: seq<DeploymentInfo>)
      returns (r: ActionResult)
      ensures r == RestartResult(scalerReady, action, scale, deployments)
    {
      if !scalerReady {
        return FailedWith(("Kubernetes scaler " + "not available"), ("Scaler not " + "initialized"));
      }
      if action.targetResources == [] {
        return FailedWith(("Failed to execute " + "restart action"), ("list index " + "out of range"));
      }
      var parts := Split(action.targetResources[0], "/");
      if |parts| < 2 {
        return FailedWith(("Failed to execute " + "restart action"),
                          ("not enough values " + "to unpack (expected " + "2, got 1)"));
      }
      if |parts| > 2 {
        return FailedWith(("Failed to execute " + "restart action"),
                          ("too many values " + "to unpack " + "(expected 2)"));
      }
      var namespace, deployment := parts[0], parts[1];
      var replicas := ReplicasOf(deployments, deployment);
      if !scale(namespace, deployment, 0) {
        return FailedWith(("Failed to scale " + "deployment down " + "for restart"),
                          ("Scale down " + "operation failed"));
      }
      if !scale(namespace, deployment, replicas) {
        return FailedWith(("Failed to scale " + "deployment back up " + "after restart"),
                          ("Scale up " + "operation failed"));
      }
      r := Succeeded(("Successfully " + "restarted deployment ") + Key(namespace, deployment),
                     map["original_replicas" := Num(replicas as real)]);
    }

    /**
     * `_execute_action_specific`: a scaling action gets
     * `_execute_scaling_action`'s result and a restart
     * `_execute_restart_action`'s; any other type is refused. Only a
     * scaling action changes anything, and then only the scaling
     * decisions and the scaling history.
     */
    method ExecuteAction(action: ActionSpec, rec: Outcome<ScalingRecommendation>,
                         scale: (string, string, int) -> bool, update: (string, string, string, string) -> bool,
                         deployments: seq<DeploymentInfo>, now: Timestamp)
      returns (r: ActionResult)
      requires Valid()
      modifies this`lastScalingDecisions, this`scalingHistory
      ensures Valid()
      ensures action.actionType !in {K8sScale, K8sRestart} ==>
                r == FailedWith("Unsupported action type: " + ActionTypeValue(action.actionType),
                                ("Action type not " + "supported by " + "Kubernetes agent"))
      ensures action.actionType == K8sScale ==> ScalingOutcome(action, rec, scale, update, now, r)
      ensures action.actionType == K8sRestart ==> r == RestartResult(scalerReady, action, scale, deployments)
      ensures action.actionType != K8sScale ==>
                (lastScalingDecisions, scalingHistory) == old((lastScalingDecisions, scalingHistory))
      ensures lastScalingDecisions.Keys <= old(lastScalingDecisions).Keys
                                           + (if rec.Returned? then {RecommendationKey(rec.value)} else {})
    {
      if action.actionType == K8sScale {
        r := ExecuteScaling(action, rec, scale, update, now);
      } else if action.actionType == K8sRestart {
        r := ExecuteRestart(action, scale, deployments);
      } else {
        r := FailedWith("Unsupported action type: " + ActionTypeValue(action.actionType),
                        ("Action type not " + "supported by " + "Kubernetes agent"));
      }
    }
  }
}
