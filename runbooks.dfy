/**
 * The runbook executor: the default runbook catalog, choosing runbooks
 * for an incident type, running a runbook's steps in order with `{key}`
 * placeholders filled from the execution context, rolling back when a
 * critical step fails or a step raises, and judging success by the
 * keyword heuristic over the success criteria.
 *
 * Steps only simulate their commands, so a step with all its keys
 * always succeeds. Execution and step timestamps are not modelled; the
 * execution id is built from the time passed in.
 */
module Runbooks {
  import opened Text
  import opened Interfaces
  import opened Seqs
  import opened BaseAgents

  /** A step's dictionary: the keys the executor reads, any of which may be missing. */
  datatype Step = Step(kind: Option<string>, description: Option<string>, command: Option<string>, critical: bool)

  datatype Runbook = Runbook(
    id: string,
    name: string,
    description: string,
    incidentPatterns: seq<string>,
    steps: seq<Step>,
    successCriteria: seq<string>,
    rollbackSteps: seq<Step>,
    riskLevel: string,
    estimatedDuration: nat,
    successRate: real)

  /** A step with all three keys and not critical. */
  function PlainStep(kind: string, description: string, command: string): Step
  {
    Step(Some(kind), Some(description), Some(command), false)
  }

  // ------------------------------------------------------ default catalog

  function ServiceDownRunbook(): Runbook
  {
    Runbook(
      "service_down_basic", "Basic Service Recovery", ("Restart service and " + "check health"),
      ["service_down", "application_crashed"],
      [PlainStep("check_service_status", "Check service health", ("kubectl get pods -l " + "app={service_name}")),
       PlainStep("restart_service", "Restart the service", ("kubectl rollout " + "restart " + "deployment/" + "{service_name}")),
       PlainStep("verify_health", "Verify service is healthy",
                 ("kubectl wait " + "--for=condition=" + "ready pod -l " + "app={service_name} " + "--timeout=300s"))],
      ["All pods are running", "Health check returns 200", ("No error logs in " + "last 5 minutes")],
      [PlainStep("rollback_deployment", ("Rollback to " + "previous version"), ("kubectl rollout " + "undo deployment/" + "{service_name}"))],
      "medium", 10, 0.8)
  }

  function HighLatencyRunbook(): Runbook
  {
    Runbook(
      "high_latency_basic", "High Latency Mitigation", ("Scale up resources " + "to handle high " + "latency"),
      ["high_latency", "slow_performance"],
      [PlainStep("check_metrics", ("Check current " + "resource usage"), ("kubectl top pods -l " + "app={service_name}")),
       PlainStep("scale_up", "Scale up the service",
                 ("kubectl scale " + "deployment/" + "{service_name} " + "--replicas=" + "{target_replicas}")),
       PlainStep("monitor_latency", ("Monitor latency " + "improvement"), "sleep 120")],
      [("Average latency " + "below threshold"), "All pods are ready", "CPU usage normalized"],
      [PlainStep("scale_down", ("Scale back to " + "original size"),
                 ("kubectl scale " + "deployment/" + "{service_name} " + "--replicas=" + "{original_replicas}"))],
      "low", 5, 0.9)
  }

  function ResourceExhaustionRunbook(): Runbook
  {
    Runbook(
      "resource_exhaustion_basic", ("Resource Exhaustion " + "Recovery"), ("Clean up resources " + "and scale if needed"),
      ["resource_exhaustion", "memory_full", "disk_full"],
      [PlainStep("cleanup_logs", "Clean up old logs", ("find /var/log -name " + "'*.log' -mtime +7 " + "-delete")),
       PlainStep("cleanup_temp", "Clean up temporary files", ("find /tmp -mtime +1 " + "-delete")),
       PlainStep("restart_if_needed", ("Restart service if " + "memory usage still " + "high"),
                 ("kubectl rollout " + "restart " + "deployment/" + "{service_name}"))],
      ["Memory usage below 80%", "Disk usage below 85%", "Service is responsive"],
      [],
      "low", 8, 0.85)
  }

  /** The catalog, keyed by incident type name, in insertion order. */
  function DefaultCatalog(): seq<(string, Runbook)>
  {
    [("service_down", ServiceDownRunbook()),
     ("high_latency", HighLatencyRunbook()),
     ("resource_exhaustion", ResourceExhaustionRunbook())]
  }

  /** `runbooks.get(key)`. */
  function Lookup(catalog: seq<(string, Runbook)>, key: string): (r: Option<Runbook>)
    ensures r.Some? <==> exists i | 0 <= i < |catalog| :: catalog[i].0 == key
    ensures r.Some? ==> exists i | 0 <= i < |catalog| :: catalog[i] == (key, r.value)
  {
    if catalog == [] then None
    else if catalog[0].0 == key then Some(catalog[0].1)
    else
      var r := Lookup(catalog[1..], key);
      assert forall i | 1 <= i < |catalog| :: catalog[1..][i - 1] == catalog[i];
      assert r.Some? ==> exists i | 0 <= i < |catalog| :: catalog[i] == (key, r.value) by {
        if r.Some? {
          var i :| 0 <= i < |catalog[1..]| && catalog[1..][i] == (key, r.value);
          assert catalog[i + 1] == (key, r.value);
        }
      }
      r
  }

  /** The catalog is keyed by type name, while each runbook's id carries a `_basic` suffix: no id is a key. */
  lemma CatalogIdsAreNotKeys(i: nat)
    requires i < |DefaultCatalog()|
    ensures Lookup(DefaultCatalog(), DefaultCatalog()[i].1.id) == None
  {
    var c := DefaultCatalog();
    assert c[0].0 == "service_down" && c[1].0 == "high_latency" && c[2].0 == "resource_exhaustion";
    assert c[i].1.id in {"service_down_basic", "high_latency_basic", "resource_exhaustion_basic"};
    assert forall j | 0 <= j < |c| :: c[j].0 != c[i].1.id;
  }

  // ------------------------------------------------------ choosing runbooks

  function CatalogRunbooks(catalog: seq<(string, Runbook)>): (r: seq<Runbook>)
    ensures |r| == |catalog| && forall i | 0 <= i < |catalog| :: r[i] == catalog[i].1
  {
    if catalog == [] then [] else CatalogRunbooks(catalog[..|catalog| - 1]) + [catalog[|catalog| - 1].1]
  }

  function NegatedRate(rb: Runbook): real
  {
    -rb.successRate
  }

  /** Whether a runbook lists the incident type among its patterns. */
  function Applies(incidentType: string): Runbook -> bool
  {
    (rb: Runbook) => incidentType in rb.incidentPatterns
  }

  /**
   * The runbooks whose patterns include the incident type, highest
   * success rate first (a stable sort, so ties keep catalog order).
   */
  function FindApplicable(catalog: seq<(string, Runbook)>, incidentType: string): (r: seq<Runbook>)
    ensures forall i, j | 0 <= i < j < |r| :: r[i].successRate >= r[j].successRate
    ensures multiset(r) == multiset(Filter(CatalogRunbooks(catalog), Applies(incidentType)))
  {
    var sorted := SortBy(Filter(CatalogRunbooks(catalog), Applies(incidentType)), NegatedRate);
    assert forall i, j | 0 <= i < j < |sorted| :: NegatedRate(sorted[i]) <= NegatedRate(sorted[j]);
    sorted
  }

  /** Exactly the catalog's runbooks for the type are found, and none is found when no pattern lists it. */
  lemma FindApplicableMembers(catalog: seq<(string, Runbook)>, incidentType: string)
    ensures forall rb | rb in FindApplicable(catalog, incidentType) ::
              incidentType in rb.incidentPatterns && rb in CatalogRunbooks(catalog)
    ensures forall i | 0 <= i < |catalog| && incidentType in catalog[i].1.incidentPatterns ::
              catalog[i].1 in FindApplicable(catalog, incidentType)
    ensures FindApplicable(catalog, incidentType) == [] <==>
              forall i | 0 <= i < |catalog| :: incidentType !in catalog[i].1.incidentPatterns
  {
    var all := CatalogRunbooks(catalog);
    var matching := Filter(all, Applies(incidentType));
    var r := FindApplicable(catalog, incidentType);
    assert forall rb :: rb in r <==> rb in multiset(r);
    assert forall rb :: rb in matching <==> rb in multiset(matching);
    forall i | 0 <= i < |catalog| && incidentType in catalog[i].1.incidentPatterns
      ensures catalog[i].1 in r
    {
      assert all[i] == catalog[i].1 && Applies(incidentType)(all[i]);
    }
    if r != [] {
      assert r[0] in r;
      var k :| 0 <= k < |all| && all[k] == r[0];
    }
  }

  // ------------------------------------------------------ success criteria

  /** A criterion counts when it mentions one of the six keywords, case-insensitively. */
  predicate CriterionMet(criterion: string)
  {
    var c := Lower(criterion);
    Contains(c, "running") || Contains(c, "ready") || Contains(c, "latency")
    || Contains(c, "usage") || Contains(c, "error") || Contains(c, "logs")
  }

  /** At least 70% of the criteria count; an empty list counts as met. */
  predicate CriteriaMet(criteria: seq<string>)
  {
    criteria == [] || Count(criteria, CriterionMet) as real / |criteria| as real >= 0.7
  }

  /** The threshold in whole numbers: met exactly when ten times the count reaches seven times the length. */
  lemma CriteriaMetExact(criteria: seq<string>)
    ensures CriteriaMet(criteria) <==> 10 * Count(criteria, CriterionMet) >= 7 * |criteria|
  {
    if criteria != [] {
      RatioAtLeast(Count(criteria, CriterionMet) as real, |criteria| as real);
    }
  }

  lemma RatioAtLeast(c: real, n: real)
    requires n > 0.0
    ensures c / n >= 0.7 <==> 10.0 * c >= 7.0 * n
  {
    var q := c / n;
    assert q * n == c;
    if q >= 0.7 {
      assert (q - 0.7) * n >= 0.0;
    } else {
      assert (0.7 - q) * n > 0.0;
    }
  }

  /** A lower-case letter absent from a string in both cases is absent from its lower-cased form. */
  lemma LowerMissing(s: string, c: char)
    requires 'a' <= c <= 'z' && c !in s && (c as int - 32) as char !in s
    ensures c !in Lower(s)
  {
  }

  /** A keyword found in a criterion (in lower case) makes it count. */
  lemma KeywordMet(criterion: string, keyword: string, k: nat)
    requires keyword in ["running", "ready", "latency", "usage", "error", "logs"]
    requires k + |keyword| <= |criterion|
    requires forall j | 0 <= j < |keyword| :: criterion[k + j] == keyword[j]
    ensures CriterionMet(criterion)
  {
    var c := Lower(criterion);
    assert forall j | 0 <= j < |keyword| :: 'a' <= keyword[j] <= 'z';
    assert c[k..k + |keyword|] == keyword;
    assert MatchAt(c, keyword, k);
  }

  /** A criterion with no i, y, g or o in either case mentions no keyword. */
  lemma NoIYGONotMet(criterion: string)
    requires forall i | 0 <= i < |criterion| :: criterion[i] !in "iIyYgGoO"
    ensures !CriterionMet(criterion)
  {
    var c := Lower(criterion);
    LowerMissing(criterion, 'i');
    LowerMissing(criterion, 'y');
    LowerMissing(criterion, 'g');
    LowerMissing(criterion, 'o');
    MissingChar(c, "running", 'i');
    MissingChar(c, "ready", 'y');
    MissingChar(c, "latency", 'y');
    MissingChar(c, "usage", 'g');
    MissingChar(c, "error", 'o');
    MissingChar(c, "logs", 'o');
  }

  /** A criterion with no u, a or l in either case and no doubled r mentions no keyword. */
  lemma NoUALNotMet(criterion: string)
    requires forall i | 0 <= i < |criterion| :: criterion[i] !in "uUaAlL"
    requires forall i | 0 <= i < |criterion| - 1 :: !(criterion[i] in "rR" && criterion[i + 1] in "rR")
    ensures !CriterionMet(criterion)
  {
    var c := Lower(criterion);
    LowerMissing(criterion, 'u');
    LowerMissing(criterion, 'a');
    LowerMissing(criterion, 'l');
    MissingChar(c, "running", 'u');
    MissingChar(c, "ready", 'a');
    MissingChar(c, "latency", 'a');
    MissingChar(c, "usage", 'u');
    MissingChar(c, "logs", 'l');
    forall i | 0 <= i < |c| - 1 ensures !(c[i] == 'r' && c[i + 1] == 'r') {
      assert c[i] == LowerChar(criterion[i]) && c[i + 1] == LowerChar(criterion[i + 1]);
    }
    MissingPair(c, "error", 1);
  }

  function Indicator(b: bool): nat
  {
    if b then 1 else 0
  }

  lemma CountThree(a: string, b: string, c: string)
    ensures Count([a, b, c], CriterionMet)
            == Indicator(CriterionMet(a)) + Indicator(CriterionMet(b)) + Indicator(CriterionMet(c))
  {
    var s := [a, b, c];
    assert s[..2] == [a, b] && [a, b][..1] == [a] && [a][..0] == [];
    assert Count([a], CriterionMet) == Indicator(CriterionMet(a));
    assert Count([a, b], CriterionMet) == Indicator(CriterionMet(a)) + Indicator(CriterionMet(b));
  }

  /** With three criteria, 70% means all three: two out of three is not enough. */
  lemma ThreeCriteria(a: string, b: string, c: string)
    ensures CriteriaMet([a, b, c]) <==> CriterionMet(a) && CriterionMet(b) && CriterionMet(c)
  {
    CountThree(a, b, c);
  }

  lemma ServiceDownCriterionFacts(a: string, b: string, c: string)
    requires a == "All pods are running" && b == "Health check returns 200" && c == ("No error logs in " + "last 5 minutes")
    ensures CriterionMet(a) && !CriterionMet(b) && CriterionMet(c)
  {
    RunningMet(a);
    HealthCheckNotMet(b);
    ErrorLogsMet(c);
  }

  lemma RunningMet(a: string)
    requires a == "All pods are running"
    ensures CriterionMet(a)
  {
    KeywordMet(a, "running", 13);
  }

  lemma HealthCheckNotMet(b: string)
    requires b == "Health check returns 200"
    ensures !CriterionMet(b)
  {
    NoIYGONotMet(b);
  }

  lemma ErrorLogsMet(c: string)
    requires c == ("No error logs in " + "last 5 minutes")
    ensures CriterionMet(c)
  {
    KeywordMet(c, "error", 3);
  }

  /** "Health check returns 200" mentions no keyword, so the service-down runbook can never succeed. */
  lemma ServiceDownCriteria()
    ensures !CriteriaMet(ServiceDownRunbook().successCriteria)
  {
    ServiceDownCriterionFacts("All pods are running", "Health check returns 200", ("No error logs in " + "last 5 minutes"));
    ThreeCriteria("All pods are running", "Health check returns 200", ("No error logs in " + "last 5 minutes"));
  }

  lemma HighLatencyCriterionFacts(a: string, b: string, c: string)
    requires a == ("Average latency " + "below threshold") && b == "All pods are ready" && c == "CPU usage normalized"
    ensures CriterionMet(a) && CriterionMet(b) && CriterionMet(c)
  {
    LatencyMet(a);
    ReadyMet(b);
    CpuUsageMet(c);
  }

  lemma LatencyMet(a: string)
    requires a == ("Average latency " + "below threshold")
    ensures CriterionMet(a)
  {
    KeywordMet(a, "latency", 8);
  }

  lemma ReadyMet(b: string)
    requires b == "All pods are ready"
    ensures CriterionMet(b)
  {
    KeywordMet(b, "ready", 13);
  }

  lemma CpuUsageMet(c: string)
    requires c == "CPU usage normalized"
    ensures CriterionMet(c)
  {
    KeywordMet(c, "usage", 4);
  }

  /** All three high-latency criteria count. */
  lemma HighLatencyCriteria()
    ensures CriteriaMet(HighLatencyRunbook().successCriteria)
  {
    HighLatencyCriterionFacts(("Average latency " + "below threshold"), "All pods are ready", "CPU usage normalized");
    ThreeCriteria(("Average latency " + "below threshold"), "All pods are ready", "CPU usage normalized");
  }

  lemma ResourceExhaustionCriterionFacts(a: string, b: string, c: string)
    requires a == "Memory usage below 80%" && b == "Disk usage below 85%" && c == "Service is responsive"
    ensures CriterionMet(a) && CriterionMet(b) && !CriterionMet(c)
  {
    MemoryUsageMet(a);
    DiskUsageMet(b);
    ResponsiveNotMet(c);
  }

  lemma MemoryUsageMet(a: string)
    requires a == "Memory usage below 80%"
    ensures CriterionMet(a)
  {
    KeywordMet(a, "usage", 7);
  }

  lemma DiskUsageMet(b: string)
    requires b == "Disk usage below 85%"
    ensures CriterionMet(b)
  {
    KeywordMet(b, "usage", 5);
  }

  lemma ResponsiveNotMet(c: string)
    requires c == "Service is responsive"
    ensures !CriterionMet(c)
  {
    NoUALNotMet(c);
  }

  /** "Service is responsive" mentions no keyword, so resource exhaustion also stays below 70%. */
  lemma ResourceExhaustionCriteria()
    ensures !CriteriaMet(ResourceExhaustionRunbook().successCriteria)
  {
    ResourceExhaustionCriterionFacts("Memory usage below 80%", "Disk usage below 85%", "Service is responsive");
    ThreeCriteria("Memory usage below 80%", "Disk usage below 85%", "Service is responsive");
  }

  // ------------------------------------------------------ steps

  /** What running a step produced; `command` is the command after substitution (it is only logged). */
  datatype StepResult = StepResult(
    stepType: string, description: string, success: bool, output: string,
    error: Option<string>, command: Option<string>)

  /** The command with each `{key}` replaced by the context value, the context's keys taken in order. */
  function Substituted(command: string, context: seq<(string, string)>): string
  {
    if context == [] then command
    else
      var last := context[|context| - 1];
      Replace(Substituted(command, context[..|context| - 1]), "{" + last.0 + "}", last.1)
  }

  /** A command with no `{` has nothing to substitute. */
  lemma {:induction false} SubstitutedNoPlaceholder(command: string, context: seq<(string, string)>)
    requires '{' !in command
    ensures Substituted(command, context) == command
  {
    if context != [] {
      var last := context[|context| - 1];
      SubstitutedNoPlaceholder(command, context[..|context| - 1]);
      MissingChar(command, "{" + last.0 + "}", '{');
    }
  }

  /** A placeholder preceded by no `{` and followed by no further occurrence is replaced in place. */
  lemma ReplaceOnce(a: string, p: string, b: string, rep: string)
    requires |p| > 0 && p[0] !in a && !Contains(b, p)
    ensures Replace(a + p + b, p, rep) == a + rep + b
  {
    var s := a + p + b;
    assert s[|a|..|a| + |p|] == p;
    assert MatchAt(s, p, |a|);
    NoEarlierMatch(a, p, b);
    FindFromFirst(s, p, 0);
    var i := IndexOf(s, p);
    assert i == Some(|a|);
    assert s[..|a|] == a;
    assert s[|a| + |p|..] == b;
  }

  lemma NoEarlierMatch(a: string, p: string, b: string)
    requires |p| > 0 && p[0] !in a
    ensures forall j: nat | j < |a| :: !MatchAt(a + p + b, p, j)
  {
    var s := a + p + b;
    forall j: nat | j < |a| ensures !MatchAt(s, p, j) {
      assert s[j] == a[j];
    }
  }

  /**
   * A command whose only placeholder ends it, such as
   * `kubectl get pods -l app={service_name}`, gets the context value in
   * its place.
   */
  lemma SubstituteSingleKey(prefix: string, key: string, value: string)
    requires '{' !in prefix
    ensures Substituted(prefix + "{" + key + "}", [(key, value)]) == prefix + value
  {
    var p := "{" + key + "}";
    assert [(key, value)][..0] == [];
    assert !Contains("", p) by {
      MissingChar("", p, '{');
    }
    ReplaceOnce(prefix, p, "", value);
    assert prefix + p + "" == prefix + "{" + key + "}";
    assert prefix + value + "" == prefix + value;
  }

  /** Applies the substitutions one key at a time. */
  method Substitute(command: string, context: seq<(string, string)>) returns (r: string)
    ensures r == Substituted(command, context)
  {
    r := command;
    var i := 0;
    while i < |context|
      invariant 0 <= i <= |context|
      invariant r == Substituted(command, context[..i])
    {
      assert context[..i + 1][..i] == context[..i];
      r := Replace(r, "{" + context[i].0 + "}", context[i].1);
      i := i + 1;
    }
    assert context[..i] == context;
  }

  /** The simulated output for a step type. */
  function StepOutput(kind: string): string
  {
    if kind in {"check_service_status", "check_metrics"} then "Service status: Running"
    else if kind in {"restart_service", "scale_up", "scale_down"} then ("Operation completed " + "successfully")
    else if kind in {"cleanup_logs", "cleanup_temp"} then "Cleanup completed"
    else "Step completed"
  }

  /** What a step did: it raised, or returned a result. */
  datatype StepOutcome = StepDone(result: StepResult) | StepRaised(error: string)

  /**
   * A step without `type` or `description` raises to the runbook (a
   * KeyError, whose text is the quoted key). A step without `command`
   * fails with that error. Any other step succeeds.
   */
  function ExecuteStep(step: Step, context: seq<(string, string)>): (r: StepOutcome)
    ensures r.StepRaised? <==> step.kind.None? || step.description.None?
    ensures step.kind.None? ==> r == StepRaised("'type'")
    ensures step.kind.Some? && step.description.None? ==> r == StepRaised("'description'")
    ensures r.StepDone? ==> (r.result.success <==> step.command.Some?)
    ensures r.StepDone? && step.command.None? ==> r.result.error == Some("'command'") && r.result.output == ""
    ensures r.StepDone? && step.command.Some? ==>
              r.result.command == Some(Substituted(step.command.value, context)) && r.result.error == None
    ensures r.StepDone? ==> r.result.stepType == step.kind.value && r.result.description == step.description.value
  {
    if step.kind.None? then StepRaised("'type'")
    else if step.description.None? then StepRaised("'description'")
    else match step.command
      case None => StepDone(StepResult(step.kind.value, step.description.value, false, "", Some("'command'"), None))
      case Some(c) =>
        StepDone(StepResult(step.kind.value, step.description.value, true, StepOutput(step.kind.value), None,
                            Some(Substituted(c, context))))
  }

  // ------------------------------------------------------ running the steps

  /** Why the step loop ended: it ran out of steps, a critical step failed, or a step raised. */
  datatype Halt = Running | CriticalFailure | StepError(error: string)

  datatype RunState = RunState(results: seq<StepResult>, halt: Halt)

  /** One loop iteration; nothing more runs once the loop has stopped. */
  function RunStep(st: RunState, step: Step, context: seq<(string, string)>): RunState
  {
    if !st.halt.Running? then st
    else match ExecuteStep(step, context)
      case StepRaised(e) => RunState(st.results, StepError(e))
      case StepDone(r) => RunState(st.results + [r], if !r.success && step.critical then CriticalFailure else Running)
  }

  function RunSteps(steps: seq<Step>, context: seq<(string, string)>): RunState
  {
    if steps == [] then RunState([], Running)
    else RunStep(RunSteps(steps[..|steps| - 1], context), steps[|steps| - 1], context)
  }

  /**
   * The results are those of the first steps, in order. Every step before
   * the last recorded one either succeeded or was not critical. If the
   * loop did not stop, every step ran.
   */
  lemma {:induction false} RunStepsInOrder(steps: seq<Step>, context: seq<(string, string)>)
    ensures var st := RunSteps(steps, context);
            && |st.results| <= |steps|
            && (forall i | 0 <= i < |st.results| :: ExecuteStep(steps[i], context) == StepDone(st.results[i]))
            && (forall i | 0 <= i < |st.results| - 1 :: st.results[i].success || !steps[i].critical)
            && (st.halt.Running? ==> |st.results| == |steps|)
            && (st.halt.Running? && |st.results| > 0 ==>
                  st.results[|st.results| - 1].success || !steps[|st.results| - 1].critical)
            && (st.halt.CriticalFailure? ==>
                  |st.results| > 0 && !st.results[|st.results| - 1].success && steps[|st.results| - 1].critical)
            && (st.halt.StepError? ==>
                  |st.results| < |steps| && ExecuteStep(steps[|st.results|], context) == StepRaised(st.halt.error))
  {
    RunStepsResults(steps, context);
    RunStepsHalt(steps, context);
  }

  /** The results are those of the first steps, in order. */
  lemma {:induction false} RunStepsResults(steps: seq<Step>, context: seq<(string, string)>)
    ensures var st := RunSteps(steps, context);
            && |st.results| <= |steps|
            && forall i | 0 <= i < |st.results| :: ExecuteStep(steps[i], context) == StepDone(st.results[i])
  {
    RunStepsHalt(steps, context);
    if steps != [] {
      var init := steps[..|steps| - 1];
      RunStepsResults(init, context);
      RunStepsHalt(init, context);
      assert forall i | 0 <= i < |init| :: init[i] == steps[i];
    }
  }

  /** No more results than steps, and where and why the loop stopped, if it did. */
  lemma {:induction false} RunStepsHalt(steps: seq<Step>, context: seq<(string, string)>)
    ensures var st := RunSteps(steps, context);
            && |st.results| <= |steps|
            && (forall i | 0 <= i < |st.results| - 1 :: st.results[i].success || !steps[i].critical)
            && (st.halt.Running? ==> |st.results| == |steps|)
            && (st.halt.Running? && |st.results| > 0 ==>
                  st.results[|st.results| - 1].success || !steps[|st.results| - 1].critical)
            && (st.halt.CriticalFailure? ==>
                  |st.results| > 0 && !st.results[|st.results| - 1].success && steps[|st.results| - 1].critical)
            && (st.halt.StepError? ==>
                  |st.results| < |steps| && ExecuteStep(steps[|st.results|], context) == StepRaised(st.halt.error))
  {
    if steps != [] {
      var init := steps[..|steps| - 1];
      RunStepsHalt(init, context);
      assert forall i | 0 <= i < |init| :: init[i] == steps[i];
    }
  }

  /** Steps that all have their keys and none critical all run, failures included. */
  lemma {:induction false} NonCriticalStepsAllRun(steps: seq<Step>, context: seq<(string, string)>)
    requires forall i | 0 <= i < |steps| :: steps[i].kind.Some? && steps[i].description.Some? && !steps[i].critical
    ensures RunSteps(steps, context).halt.Running?
    ensures |RunSteps(steps, context).results| == |steps|
  {
    if steps != [] {
      NonCriticalStepsAllRun(steps[..|steps| - 1], context);
    }
  }

  /** Once the loop has stopped, later steps change nothing. */
  lemma {:induction false} HaltedStays(steps: seq<Step>, context: seq<(string, string)>, i: nat)
    requires i <= |steps| && !RunSteps(steps[..i], context).halt.Running?
    ensures RunSteps(steps, context) == RunSteps(steps[..i], context)
  {
    if i < |steps| {
      assert steps[..|steps| - 1][..i] == steps[..i];
      HaltedStays(steps[..|steps| - 1], context, i);
    } else {
      assert steps[..i] == steps;
    }
  }

  /** The step loop of `execute_runbook`, leaving at a critical failure or a raise. */
  method RunStepLoop(steps: seq<Step>, context: seq<(string, string)>) returns (st: RunState)
    ensures st == RunSteps(steps, context)
  {
    var results: seq<StepResult> := [];
    var halt := Running;
    var i := 0;
    while i < |steps| && halt.Running?
      invariant 0 <= i <= |steps|
      invariant RunState(results, halt) == RunSteps(steps[..i], context)
    {
      assert steps[..i + 1][..i] == steps[..i];
      var outcome := ExecuteStep(steps[i], context);
      match outcome {
        case StepRaised(e) =>
          halt := StepError(e);
        case StepDone(r) =>
          results := results + [r];
          if !r.success && steps[i].critical {
            halt := CriticalFailure;
          }
      }
      i := i + 1;
    }
    st := RunState(results, halt);
    if halt.Running? {
      assert steps[..i] == steps;
    } else {
      HaltedStays(steps, context, i);
    }
  }

  /** Runs every rollback step in order; the first step that raises ends it with that error. */
  function RunAllSteps(steps: seq<Step>, context: seq<(string, string)>): Outcome<seq<StepResult>>
  {
    if steps == [] then Returned([])
    else match RunAllSteps(steps[..|steps| - 1], context)
      case Threw(e) => Threw(e)
      case Returned(rs) =>
        match ExecuteStep(steps[|steps| - 1], context)
        case StepRaised(e) => Threw(e)
        case StepDone(r) => Returned(rs + [r])
  }

  /** Rollback raises exactly when some rollback step lacks its type or description; otherwise every step has a result, in order. */
  lemma {:induction false} RunAllStepsResults(steps: seq<Step>, context: seq<(string, string)>)
    ensures RunAllSteps(steps, context).Threw? <==>
              exists i | 0 <= i < |steps| :: ExecuteStep(steps[i], context).StepRaised?
    ensures RunAllSteps(steps, context).Returned? ==>
              var rs := RunAllSteps(steps, context).value;
              |rs| == |steps| && forall i | 0 <= i < |steps| :: ExecuteStep(steps[i], context) == StepDone(rs[i])
  {
    if steps != [] {
      var init := steps[..|steps| - 1];
      RunAllStepsResults(init, context);
      assert forall i | 0 <= i < |init| :: init[i] == steps[i];
      if RunAllSteps(init, context).Threw? {
        var i :| 0 <= i < |init| && ExecuteStep(init[i], context).StepRaised?;
        assert ExecuteStep(steps[i], context).StepRaised?;
      }
    }
  }

  /**
   * `_perform_rollback`: nothing at all when the runbook has no rollback
   * steps (and no record is kept), otherwise the results of all of them.
   */
  function RollbackOf(steps: seq<Step>, context: seq<(string, string)>): (r: Outcome<Option<seq<StepResult>>>)
    ensures steps == [] ==> r == Returned(None)
    ensures r.Returned? && r.value.Some? ==> steps != [] && |r.value.value| == |steps|
    ensures r.Threw? <==> exists i | 0 <= i < |steps| :: ExecuteStep(steps[i], context).StepRaised?
  {
    RunAllStepsResults(steps, context);
    if steps == [] then Returned(None)
    else match RunAllSteps(steps, context)
      case Threw(e) => Threw(e)
      case Returned(rs) => Returned(Some(rs))
  }

  /** The loop of `_perform_rollback`. */
  method PerformRollback(steps: seq<Step>, context: seq<(string, string)>) returns (r: Outcome<Option<seq<StepResult>>>)
    ensures r == RollbackOf(steps, context)
  {
    if steps == [] {
      return Returned(None);
    }
    var results: seq<StepResult> := [];
    var i := 0;
    while i < |steps|
      invariant 0 <= i <= |steps|
      invariant RunAllSteps(steps[..i], context) == Returned(results)
    {
      assert steps[..i + 1][..i] == steps[..i];
      var outcome := ExecuteStep(steps[i], context);
      match outcome {
        case StepRaised(e) =>
          RaisedStays(steps, context, i + 1);
          return Threw(e);
        case StepDone(step) =>
          results := results + [step];
      }
      i := i + 1;
    }
    assert steps[..i] == steps;
    r := Returned(Some(results));
  }

  /** Once a rollback step has raised, the remaining ones do not run. */
  lemma {:induction false} RaisedStays(steps: seq<Step>, context: seq<(string, string)>, i: nat)
    requires i <= |steps| && RunAllSteps(steps[..i], context).Threw?
    ensures RunAllSteps(steps, context) == RunAllSteps(steps[..i], context)
  {
    if i < |steps| {
      assert steps[..|steps| - 1][..i] == steps[..i];
      RaisedStays(steps[..|steps| - 1], context, i);
    } else {
      assert steps[..i] == steps;
    }
  }

  // ------------------------------------------------------ executing a runbook

  /** The record `execute_runbook` returns and appends to the history (times left out). */
  datatype Execution = Execution(
    executionId: string,
    runbookId: string,
    incidentId: string,
    success: bool,
    stepsExecuted: seq<StepResult>,
    error: Option<string>,
    rollbackPerformed: bool,
    rollbackSteps: Option<seq<StepResult>>)

  /** A step's result as the dictionary the history stores (its times left out; the command is not stored). */
  function StepResultData(r: StepResult): (v: Value)
    ensures v.Obj? && v.fields.Keys == {"step_type", "description", "success", "output", "error"}
    ensures v.fields["step_type"] == Str(r.stepType) && v.fields["description"] == Str(r.description)
    ensures v.fields["success"] == Flag(r.success) && v.fields["output"] == Str(r.output)
    ensures v.fields["error"] == OptStr(r.error)
  {
    Obj(map["step_type" := Str(r.stepType), "description" := Str(r.description),
            "success" := Flag(r.success), "output" := Str(r.output), "error" := OptStr(r.error)])
  }

  /** The step results as a list of dictionaries, one per step and in order. */
  function StepsData(rs: seq<StepResult>): (vs: seq<Value>)
    ensures |vs| == |rs|
    ensures forall i | 0 <= i < |rs| :: vs[i] == StepResultData(rs[i])
  {
    seq(|rs|, i requires 0 <= i < |rs| => StepResultData(rs[i]))
  }

  /**
   * An execution as the dictionary `execute_runbook` returns (its times left
   * out): `rollback_steps` is present exactly when a rollback ran to the end.
   */
  function ExecutionData(e: Execution): (v: Value)
    ensures v.Obj?
    ensures v.fields.Keys == {"execution_id", "runbook_id", "incident_id", "success", "steps_executed",
                              "error", "rollback_performed"} + (if e.rollbackSteps.Some? then {"rollback_steps"} else {})
    ensures v.fields["execution_id"] == Str(e.executionId) && v.fields["runbook_id"] == Str(e.runbookId)
    ensures v.fields["incident_id"] == Str(e.incidentId) && v.fields["success"] == Flag(e.success)
    ensures v.fields["steps_executed"] == List(StepsData(e.stepsExecuted))
    ensures v.fields["error"] == OptStr(e.error) && v.fields["rollback_performed"] == Flag(e.rollbackPerformed)
    ensures e.rollbackSteps.Some? ==> v.fields["rollback_steps"] == List(StepsData(e.rollbackSteps.value))
  {
    var base := map["execution_id" := Str(e.executionId), "runbook_id" := Str(e.runbookId),
                    "incident_id" := Str(e.incidentId), "success" := Flag(e.success),
                    "steps_executed" := List(StepsData(e.stepsExecuted)), "error" := OptStr(e.error),
                    "rollback_performed" := Flag(e.rollbackPerformed)];
    if e.rollbackSteps.Some? then Obj(base["rollback_steps" := List(StepsData(e.rollbackSteps.value))])
    else Obj(base)
  }

  /**
   * What executing a runbook yields. A critical failure rolls back and
   * still judges the criteria; if that rollback raises, the handler
   * records the error and tries the rollback again, which raises again,
   * so nothing is marked rolled back. A raising step records its error
   * and rolls back; it never succeeds.
   */
  function ExecutionOf(rb: Runbook, incidentId: string, context: seq<(string, string)>, now: Timestamp): Execution
  {
    var st := RunSteps(rb.steps, context);
    var rollback := RollbackOf(rb.rollbackSteps, context);
    var id := "exec_" + IntToString(now);
    match st.halt
    case Running =>
      Execution(id, rb.id, incidentId, CriteriaMet(rb.successCriteria), st.results, None, false, None)
    case CriticalFailure =>
      (match rollback
       case Returned(rs) => Execution(id, rb.id, incidentId, CriteriaMet(rb.successCriteria), st.results, None, true, rs)
       case Threw(e) => Execution(id, rb.id, incidentId, false, st.results, Some(e), false, None))
    case StepError(e) =>
      Execution(id, rb.id, incidentId, false, st.results, Some(e), rollback.Returned?,
                if rollback.Returned? then rollback.value else None)
  }

  /**
   * A successful execution has no error and met its criteria; an execution
   * with an error did not succeed; and a rollback happened only after a
   * critical step failed or a step raised.
   */
  lemma ExecutionInvariants(rb: Runbook, incidentId: string, context: seq<(string, string)>, now: Timestamp)
    ensures var e := ExecutionOf(rb, incidentId, context, now);
            && (e.success ==> e.error == None && CriteriaMet(rb.successCriteria))
            && (e.error.Some? ==> !e.success)
            && (e.rollbackSteps.Some? ==> e.rollbackPerformed && |e.rollbackSteps.value| == |rb.rollbackSteps|)
            && (e.rollbackPerformed ==> exists i | 0 <= i < |rb.steps| ::
                  ExecuteStep(rb.steps[i], context).StepRaised?
                  || (i < |e.stepsExecuted| && rb.steps[i].critical && !e.stepsExecuted[i].success))
            && e.runbookId == rb.id && e.incidentId == incidentId
  {
    var e := ExecutionOf(rb, incidentId, context, now);
    RunStepsInOrder(rb.steps, context);
    var st := RunSteps(rb.steps, context);
    if e.rollbackPerformed {
      if st.halt.CriticalFailure? {
        var k := |st.results| - 1;
        assert k < |e.stepsExecuted| && rb.steps[k].critical && !e.stepsExecuted[k].success;
      } else {
        assert ExecuteStep(rb.steps[|st.results|], context).StepRaised?;
      }
    }
  }

  /** The steps recorded are those of a prefix of the runbook's steps, in order. */
  lemma ExecutionStepsInOrder(rb: Runbook, incidentId: string, context: seq<(string, string)>, now: Timestamp)
    ensures var e := ExecutionOf(rb, incidentId, context, now);
            && |e.stepsExecuted| <= |rb.steps|
            && forall i | 0 <= i < |e.stepsExecuted| :: ExecuteStep(rb.steps[i], context) == StepDone(e.stepsExecuted[i])
  {
    RunStepsInOrder(rb.steps, context);
  }

  /** Every step carries its type and description and none is critical. */
  predicate PlainSteps(steps: seq<Step>)
  {
    forall i | 0 <= i < |steps| :: steps[i].kind.Some? && steps[i].description.Some? && !steps[i].critical
  }

  /**
   * Runbooks whose steps all carry their keys and none of them critical
   * (every catalog runbook) run every step, never roll back, and succeed
   * exactly when the criteria heuristic says so.
   */
  lemma PlainRunbookExecution(rb: Runbook, incidentId: string, context: seq<(string, string)>, now: Timestamp)
    requires PlainSteps(rb.steps)
    ensures var e := ExecutionOf(rb, incidentId, context, now);
            && |e.stepsExecuted| == |rb.steps| && e.error == None && !e.rollbackPerformed
            && (e.success <==> CriteriaMet(rb.successCriteria))
  {
    NonCriticalStepsAllRun(rb.steps, context);
  }

  lemma ServiceDownPlain()
    ensures PlainSteps(ServiceDownRunbook().steps)
  {
  }

  lemma HighLatencyPlain()
    ensures PlainSteps(HighLatencyRunbook().steps)
  {
  }

  lemma ResourceExhaustionPlain()
    ensures PlainSteps(ResourceExhaustionRunbook().steps)
  {
  }

  /** With the default catalog, a service-down incident is never resolved by its runbook. */
  lemma ServiceDownNeverSucceeds(rb: Runbook, incidentId: string, context: seq<(string, string)>, now: Timestamp)
    requires rb == ServiceDownRunbook()
    ensures !ExecutionOf(rb, incidentId, context, now).success
  {
    ServiceDownPlain();
    ServiceDownCriteria();
    PlainRunbookExecution(rb, incidentId, context, now);
  }

  /** The high-latency runbook always succeeds. */
  lemma HighLatencySucceeds(rb: Runbook, incidentId: string, context: seq<(string, string)>, now: Timestamp)
    requires rb == HighLatencyRunbook()
    ensures ExecutionOf(rb, incidentId, context, now).success
  {
    HighLatencyPlain();
    HighLatencyCriteria();
    PlainRunbookExecution(rb, incidentId, context, now);
  }

  /** The resource-exhaustion runbook never succeeds. */
  lemma ResourceExhaustionNeverSucceeds(rb: Runbook, incidentId: string, context: seq<(string, string)>, now: Timestamp)
    requires rb == ResourceExhaustionRunbook()
    ensures !ExecutionOf(rb, incidentId, context, now).success
  {
    ResourceExhaustionPlain();
    ResourceExhaustionCriteria();
    PlainRunbookExecution(rb, incidentId, context, now);
  }

  /** The executor: the runbook catalog and the history of executions. */
  class RunbookExecutor {
    const runbooks: seq<(string, Runbook)>
    var executionHistory: seq<Execution>

    constructor()
      ensures runbooks == DefaultCatalog() && executionHistory == []
    {
      runbooks := DefaultCatalog();
      executionHistory := [];
    }

    /** `execute_runbook`: runs the steps, rolls back where needed, judges the criteria, and records the execution. */
    method ExecuteRunbook(rb: Runbook, incidentId: string, context: seq<(string, string)>, now: Timestamp)
      returns (e: Execution)
      modifies this
      ensures e == ExecutionOf(rb, incidentId, context, now)
      ensures executionHistory == old(executionHistory) + [e]
    {
      var id := "exec_" + IntToString(now);
      var st := RunStepLoop(rb.steps, context);
      match st.halt {
        case Running =>
          e := Execution(id, rb.id, incidentId, CriteriaMet(rb.successCriteria), st.results, None, false, None);
        case CriticalFailure =>
          var rollback := PerformRollback(rb.rollbackSteps, context);
          match rollback {
            case Returned(rs) =>
              e := Execution(id, rb.id, incidentId, CriteriaMet(rb.successCriteria), st.results, None, true, rs);
            case Threw(err) =>
              // the handler's second rollback attempt raises in the same place
              e := Execution(id, rb.id, incidentId, false, st.results, Some(err), false, None);
          }
        case StepError(err) =>
          var rollback := PerformRollback(rb.rollbackSteps, context);
          e := Execution(id, rb.id, incidentId, false, st.results, Some(err), rollback.Returned?,
                         if rollback.Returned? then rollback.value else None);
      }
      executionHistory := executionHistory + [e];
    }
  }
}
