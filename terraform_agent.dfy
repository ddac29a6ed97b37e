/**
 * The Terraform agent: the parser for `terraform plan` output, drift
 * detection from the plan's exit code, the severity, feature, target and
 * impact rules over a list of changes, the choice between planning and
 * applying for a drift event, and the agent's drift history and pending
 * plans.
 *
 * Running the Terraform CLI is an oracle: a plan run is its exit code and
 * its two output streams, or an exception. The drift-prediction model is
 * an oracle from features to a probability, and the two-decimal rendering
 * of a probability is a parameter too.
 */
module Terraform {
  import opened Text
  import opened Interfaces
  import opened Seqs
  import opened BaseAgents

  // ------------------------------------------------------ plan output

  /** One resource change announced by the plan, with the marked lines that follow it. */
  datatype Change = Change(resource: string, action: string, details: seq<string>)

  /** A line that continues the most recent change: it starts with `~`, `+` or `-`. */
  predicate IsDetail(line: string)
  {
    StartsWith(line, "~") || StartsWith(line, "+") || StartsWith(line, "-")
  }

  /** What one line of plan output is to the parser. */
  datatype LineKind = Header(resource: string, action: string) | Detail(line: string) | Other

  /**
   * The stripped line is a header when it starts with `# `, contains
   * ` will be ` and splits on it into exactly two parts (every `# ` in the
   * first part is removed); otherwise it is a detail when it starts with
   * `~`, `+` or `-`.
   */
  function KindOf(raw: string): (k: LineKind)
    ensures k.Detail? ==> IsDetail(k.line)
  {
    var line := Strip(raw);
    if StartsWith(line, "# ") && Contains(line, " will be ") then
      var parts := Split(line, " will be ");
      if |parts| == 2 then Header(Replace(parts[0], "# ", ""), parts[1]) else Other
    else if IsDetail(line) then Detail(line)
    else Other
  }

  /** A header opens a change; a detail is added to the most recent change, if there is one. */
  function Step(changes: seq<Change>, kind: LineKind): seq<Change>
  {
    match kind
    case Header(resource, action) => changes + [Change(resource, action, [])]
    case Detail(line) =>
      if |changes| > 0 then
        var k := |changes| - 1;
        changes[k := changes[k].(details := changes[k].details + [line])]
      else changes
    case Other => changes
  }

  /** The change list after one more raw line of plan output. */
  function ParseLine(changes: seq<Change>, raw: string): seq<Change>
  {
    Step(changes, KindOf(raw))
  }

  /** The change list after the lines, one by one, starting from `acc`. */
  function Parse(acc: seq<Change>, lines: seq<string>): seq<Change>
  {
    FoldLeft(ParseLine, acc, lines)
  }

  /** The changes a plan output announces, its lines split on newlines. */
  function PlanChanges(planOutput: string): seq<Change>
  {
    Parse([], Split(planOutput, "\n"))
  }

  /** `_parse_plan_changes`: one pass over the lines, remembering the index of the most recent change. */
  method ParsePlanChanges(planOutput: string) returns (changes: seq<Change>)
    ensures changes == PlanChanges(planOutput)
  {
    var lines := Split(planOutput, "\n");
    changes := [];
    var current: Option<nat> := None;
    var i := 0;
    while i < |lines|
      invariant 0 <= i <= |lines|
      invariant changes == Parse([], lines[..i])
      invariant current.None? <==> |changes| == 0
      invariant current.Some? ==> current.value == |changes| - 1
    {
      FoldLeftStep(ParseLine, [], lines, i);
      changes, current := ParseNextLine(changes, current, lines[i]);
      i := i + 1;
    }
    assert lines[..i] == lines;
  }

  /** The body of the parsing loop for one line. */
  method ParseNextLine(changes: seq<Change>, current: Option<nat>, raw: string)
    returns (changes': seq<Change>, current': Option<nat>)
    requires current.None? <==> |changes| == 0
    requires current.Some? ==> current.value == |changes| - 1
    ensures changes' == ParseLine(changes, raw)
    ensures current'.None? <==> |changes'| == 0
    ensures current'.Some? ==> current'.value == |changes'| - 1
  {
    var line := Strip(raw);
    if StartsWith(line, "# ") && Contains(line, " will be ") {
      changes', current' := ParseHeaderLine(changes, current, raw);
    } else {
      changes', current' := ParseDetailLine(changes, current, raw);
    }
  }

  /** A line that looks like a header opens a change when it splits into exactly two parts. */
  method ParseHeaderLine(changes: seq<Change>, current: Option<nat>, raw: string)
    returns (changes': seq<Change>, current': Option<nat>)
    requires current.None? <==> |changes| == 0
    requires current.Some? ==> current.value == |changes| - 1
    requires StartsWith(Strip(raw), "# ") && Contains(Strip(raw), " will be ")
    ensures changes' == ParseLine(changes, raw)
    ensures current'.None? <==> |changes'| == 0
    ensures current'.Some? ==> current'.value == |changes'| - 1
  {
    changes', current' := changes, current;
    var parts := Split(Strip(raw), " will be ");
    if |parts| == 2 {
      changes' := changes + [Change(Replace(parts[0], "# ", ""), parts[1], [])];
      current' := Some(|changes'| - 1);
    }
  }

  /** Any other line is added to the most recent change when it is a detail line. */
  method ParseDetailLine(changes: seq<Change>, current: Option<nat>, raw: string)
    returns (changes': seq<Change>, current': Option<nat>)
    requires current.None? <==> |changes| == 0
    requires current.Some? ==> current.value == |changes| - 1
    requires !(StartsWith(Strip(raw), "# ") && Contains(Strip(raw), " will be "))
    ensures changes' == ParseLine(changes, raw)
    ensures current'.None? <==> |changes'| == 0
    ensures current'.Some? ==> current'.value == |changes'| - 1
  {
    changes', current' := changes, current;
    var line := Strip(raw);
    if current.Some? && IsDetail(line) {
      var k := current.value;
      changes' := changes[k := changes[k].(details := changes[k].details + [line])];
    }
  }

  /** The resource and action of each change, in order. */
  function Heads(changes: seq<Change>): (hs: seq<(string, string)>)
    ensures |hs| == |changes|
  {
    if changes == [] then []
    else
      var k := |changes| - 1;
      Heads(changes[..k]) + [(changes[k].resource, changes[k].action)]
  }

  /** The resource and action of each header line, in order. */
  function HeaderLines(lines: seq<string>): seq<(string, string)>
  {
    if lines == [] then []
    else
      var k := |lines| - 1;
      HeaderLines(lines[..k]) + (match KindOf(lines[k]) case Header(r, a) => [(r, a)] case _ => [])
  }

  /** A step adds a head exactly for a header line. */
  lemma HeadsStep(changes: seq<Change>, kind: LineKind)
    ensures Heads(Step(changes, kind))
            == Heads(changes) + (match kind case Header(r, a) => [(r, a)] case _ => [])
  {
    match kind
    case Header(r, a) =>
      assert (changes + [Change(r, a, [])])[..|changes|] == changes;
    case Detail(line) =>
      if |changes| > 0 {
        var k := |changes| - 1;
        assert Step(changes, kind)[..k] == changes[..k];
      }
    case Other =>
  }

  /** Exactly one change per header line, with that line's resource and action, in the order of the lines. */
  lemma {:induction false} ParseHeads(acc: seq<Change>, lines: seq<string>)
    ensures Heads(Parse(acc, lines)) == Heads(acc) + HeaderLines(lines)
  {
    if lines != [] {
      var k := |lines| - 1;
      ParseHeads(acc, lines[..k]);
      HeadsStep(Parse(acc, lines[..k]), KindOf(lines[k]));
    }
  }

  /** Every line recorded as a detail starts with `~`, `+` or `-`. */
  predicate DetailsMarked(changes: seq<Change>)
  {
    forall i, j | 0 <= i < |changes| && 0 <= j < |changes[i].details| :: IsDetail(changes[i].details[j])
  }

  lemma {:induction false} ParseKeepsDetailsMarked(acc: seq<Change>, lines: seq<string>)
    requires DetailsMarked(acc)
    ensures DetailsMarked(Parse(acc, lines))
  {
    if lines != [] {
      var k := |lines| - 1;
      ParseKeepsDetailsMarked(acc, lines[..k]);
      StepKeepsDetailsMarked(Parse(acc, lines[..k]), KindOf(lines[k]));
    }
  }

  lemma StepKeepsDetailsMarked(changes: seq<Change>, kind: LineKind)
    requires DetailsMarked(changes)
    requires kind.Detail? ==> IsDetail(kind.line)
    ensures DetailsMarked(Step(changes, kind))
  {
    match kind
    case Header(r, a) =>
      var next := Step(changes, kind);
      assert forall i | 0 <= i < |changes| :: next[i] == changes[i];
    case Detail(line) =>
      if |changes| > 0 {
        var k := |changes| - 1;
        var last := changes[k].(details := changes[k].details + [line]);
        assert forall j | 0 <= j < |last.details| :: IsDetail(last.details[j]);
      }
    case Other =>
  }

  /** Lines with no header yield no change: details before the first header have nothing to attach to. */
  lemma {:induction false} NoHeaderNoChange(lines: seq<string>)
    requires forall i | 0 <= i < |lines| :: !KindOf(lines[i]).Header?
    ensures Parse([], lines) == []
  {
    if lines != [] {
      NoHeaderNoChange(lines[..|lines| - 1]);
    }
  }

  /** Whatever precedes the first header line is ignored. */
  lemma PreambleIgnored(preamble: seq<string>, rest: seq<string>)
    requires forall i | 0 <= i < |preamble| :: !KindOf(preamble[i]).Header?
    ensures Parse([], preamble + rest) == Parse([], rest)
  {
    FoldLeftAppend(ParseLine, [], preamble, rest);
    NoHeaderNoChange(preamble);
  }

  // ------------------------------------------------------ drift detection

  /** One run of `terraform plan -detailed-exitcode`. */
  datatype PlanRun = PlanRun(returnCode: int, stdout: string, stderr: string)

  /** The drift record; `changes` is present only when drift was detected. */
  datatype DriftInfo = DriftInfo(
    driftDetected: bool,
    planOutput: string,
    errorOutput: string,
    returnCode: int,
    timestamp: Timestamp,
    changes: Option<seq<Change>>)

  /** Drift is detected exactly when the exit code is 2; exit code 0 (no changes) and errors are not drift. */
  function DriftOf(run: PlanRun, now: Timestamp): (d: DriftInfo)
    ensures d.driftDetected <==> run.returnCode == 2
    ensures d.changes.Some? <==> d.driftDetected
    ensures d.driftDetected ==> d.changes.value == PlanChanges(run.stdout)
    ensures d.planOutput == run.stdout && d.errorOutput == run.stderr && d.returnCode == run.returnCode
    ensures d.timestamp == now
  {
    var detected := run.returnCode == 2;
    DriftInfo(detected, run.stdout, run.stderr, run.returnCode, now,
              if detected then Some(PlanChanges(run.stdout)) else None)
  }

  /** `detect_drift` after a plan run that returned. */
  method DetectDrift(run: PlanRun, now: Timestamp) returns (d: DriftInfo)
    ensures d == DriftOf(run, now)
  {
    var detected := run.returnCode == 2;
    d := DriftInfo(detected, run.stdout, run.stderr, run.returnCode, now, None);
    if detected {
      var changes := ParsePlanChanges(run.stdout);
      d := d.(changes := Some(changes));
    }
  }

  /** `drift_info.get("changes", [])`. */
  function ChangesOf(d: DriftInfo): (cs: seq<Change>)
    ensures d.changes.None? ==> cs == []
  {
    match d.changes
    case Some(cs) => cs
    case None => []
  }

  /** A change as the dictionary the plan parser builds. */
  function ChangeData(c: Change): (v: Value)
    ensures v.Obj? && v.fields.Keys == {"resource", "action", "details"}
    ensures v.fields["resource"] == Str(c.resource) && v.fields["action"] == Str(c.action)
    ensures v.fields["details"] == Strs(c.details)
  {
    Obj(map["resource" := Str(c.resource), "action" := Str(c.action), "details" := Strs(c.details)])
  }

  /** The changes as a list of dictionaries, one per change and in order. */
  function ChangesData(cs: seq<Change>): (vs: seq<Value>)
    ensures |vs| == |cs|
    ensures forall i | 0 <= i < |cs| :: vs[i] == ChangeData(cs[i])
  {
    if cs == [] then [] else ChangesData(cs[..|cs| - 1]) + [ChangeData(cs[|cs| - 1])]
  }

  // ------------------------------------------------------ rules over changes

  predicate Destroys(c: Change) { Contains(c.action, "destroyed") }
  predicate Creates(c: Change) { Contains(c.action, "created") }
  predicate Modifies(c: Change) { Contains(c.action, "modified") }

  /** `_assess_drift_severity`. */
  function DriftSeverity(changes: seq<Change>): (s: Severity)
  {
    var destructive := Count(changes, Destroys);
    var creates := Count(changes, Creates);
    var modified := Count(changes, Modifies);
    if destructive > 0 then "critical"
    else if creates > 5 || modified > 10 then "high"
    else if creates > 2 || modified > 5 then "medium"
    else "low"
  }

  /** Any destruction is critical; otherwise the create and modify counts decide between high, medium and low. */
  lemma DriftSeverityTiers(changes: seq<Change>)
    ensures var s := DriftSeverity(changes);
            && (s == "critical" <==> exists i | 0 <= i < |changes| :: Destroys(changes[i]))
            && (s == "high" <==> Count(changes, Destroys) == 0
                                 && (Count(changes, Creates) > 5 || Count(changes, Modifies) > 10))
            && (s == "medium" <==> Count(changes, Destroys) == 0
                                   && Count(changes, Creates) <= 5 && Count(changes, Modifies) <= 10
                                   && (Count(changes, Creates) > 2 || Count(changes, Modifies) > 5))
            && (s == "low" <==> Count(changes, Destroys) == 0
                                && Count(changes, Creates) <= 2 && Count(changes, Modifies) <= 5)
  {
    CountZero(changes, Destroys);
  }

  /** The order of the four drift severities. */
  function Tier(s: Severity): nat
  {
    if s == "critical" then 3 else if s == "high" then 2 else if s == "medium" then 1 else 0
  }

  /** More changes never make drift less severe. */
  lemma SeverityGrowsWithChanges(changes: seq<Change>, more: seq<Change>)
    ensures Tier(DriftSeverity(changes)) <= Tier(DriftSeverity(changes + more))
  {
    CountAppend(changes, more, Destroys);
    CountAppend(changes, more, Creates);
    CountAppend(changes, more, Modifies);
  }

  /** The features handed to the drift-prediction model. */
  datatype DriftFeatures = DriftFeatures(
    resourceCount: real,
    lastApplyHoursAgo: real,
    configChangesCount: real,
    externalChangesCount: real,
    avgDriftFrequency: real,
    resourceComplexity: real)

  predicate External(c: Change) { Creates(c) || Destroys(c) }
  predicate Detected(d: DriftInfo) { d.driftDetected }

  /** The share of drift among the last ten checks, always over ten. */
  function DriftFrequency(history: seq<DriftInfo>): (f: real)
    ensures 0.0 <= f <= 1.0
  {
    Count(KeepLast(history, 10), Detected) as real / 10.0
  }

  /** `_extract_drift_features`. */
  function FeaturesOf(changes: seq<Change>, history: seq<DriftInfo>): (f: DriftFeatures)
    ensures f.resourceCount == |changes| as real && f.lastApplyHoursAgo == 24.0
    ensures 0.0 <= f.configChangesCount <= f.resourceCount
    ensures 0.0 <= f.externalChangesCount <= f.resourceCount
    ensures 0.0 <= f.avgDriftFrequency <= 1.0
    ensures 0.0 <= f.resourceComplexity <= 5.0
    ensures f.resourceComplexity == 5.0 <==> |changes| >= 50
    ensures |changes| < 50 ==> f.resourceComplexity * 10.0 == |changes| as real
  {
    var n := |changes| as real;
    DriftFeatures(n, 24.0, Count(changes, Modifies) as real, Count(changes, External) as real,
                  DriftFrequency(history), if n / 10.0 < 5.0 then n / 10.0 else 5.0)
  }

  /** With fewer than ten checks recorded, the frequency is at most their number over ten. */
  lemma ShortHistoryFrequency(history: seq<DriftInfo>)
    requires |history| < 10
    ensures DriftFrequency(history) * 10.0 <= |history| as real
  {
  }

  /** Ten drifting checks in a row give frequency one. */
  lemma SteadyDriftFrequency(history: seq<DriftInfo>)
    requires |history| >= 10
    requires forall i | |history| - 10 <= i < |history| :: history[i].driftDetected
    ensures DriftFrequency(history) == 1.0
  {
    var window := KeepLast(history, 10);
    assert |window| == 10;
    forall i | 0 <= i < |window| ensures Detected(window[i]) {
      assert window[i] == history[|history| - 10 + i];
    }
    CountAll(window, Detected);
    assert Count(window, Detected) == 10;
  }

  /** `_predict_drift_correction_success`: the model's probability, or 0.5 without a model. */
  function PredictedSuccess(changes: seq<Change>, history: seq<DriftInfo>, model: Option<DriftFeatures -> real>)
    : (p: real)
    ensures model.None? ==> p == 0.5
    ensures model.Some? ==> p == model.value(FeaturesOf(changes, history))
  {
    match model
    case None => 0.5
    case Some(predict) => predict(FeaturesOf(changes, history))
  }

  predicate Named(c: Change) { c.resource != "" }

  /** `_extract_target_resources`: the non-empty resources of the changes, in order. */
  function TargetResources(changes: seq<Change>): (r: seq<string>)
    ensures |r| == Count(changes, Named)
    ensures forall i | 0 <= i < |r| :: r[i] != ""
  {
    var named := Filter(changes, Named);
    assert forall i | 0 <= i < |named| :: named[i] in named;
    seq(|named|, i requires 0 <= i < |named| => named[i].resource)
  }

  /** The targets are exactly the non-empty resources of the changes. */
  lemma TargetResourcesMembers(changes: seq<Change>)
    ensures forall i | 0 <= i < |changes| && changes[i].resource != "" :: changes[i].resource in TargetResources(changes)
    ensures forall x | x in TargetResources(changes) :: exists c | c in changes :: c.resource == x
  {
    var named := Filter(changes, Named);
    var r := TargetResources(changes);
    forall i | 0 <= i < |changes| && Named(changes[i]) ensures changes[i].resource in r {
      assert changes[i] in named;
      var j :| 0 <= j < |named| && named[j] == changes[i];
      assert r[j] == changes[i].resource;
    }
    forall x | x in r ensures exists c | c in changes :: c.resource == x {
      var j :| 0 <= j < |r| && r[j] == x;
      assert named[j] in named;
    }
  }

  /** Targets keep the order of the changes: the targets of a concatenation are concatenated. */
  lemma TargetResourcesAppend(a: seq<Change>, b: seq<Change>)
    ensures TargetResources(a + b) == TargetResources(a) + TargetResources(b)
  {
    var fa: seq<Change>, fb: seq<Change> := Filter(a, Named), Filter(b, Named);
    assert Filter(a + b, Named) == fa + fb by { FilterAppend(a, b, Named); }
    var r, ra, rb := TargetResources(a + b), TargetResources(a), TargetResources(b);
    assert |r| == |fa| + |fb| && |ra| == |fa| && |rb| == |fb|;
    forall i | 0 <= i < |r| ensures r[i] == (ra + rb)[i] {
      if i < |fa| {
        assert r[i] == (fa + fb)[i].resource == fa[i].resource;
      } else {
        assert r[i] == (fa + fb)[i].resource == fb[i - |fa|].resource;
      }
    }
  }

  /** The phrases of an impact estimate: destroyed, created, modified, each only when its count is positive. */
  function ImpactParts(changes: seq<Change>): (parts: seq<string>)
    ensures |parts| <= 3
    ensures parts == [] <==> Count(changes, Destroys) == 0 && Count(changes, Creates) == 0
                             && Count(changes, Modifies) == 0
  {
    var destructive := Count(changes, Destroys);
    var creates := Count(changes, Creates);
    var modified := Count(changes, Modifies);
    (if destructive > 0 then [NatToString(destructive) + (" resources will be " + "destroyed")] else [])
    + (if creates > 0 then [NatToString(creates) + " resources will be created"] else [])
    + (if modified > 0 then [NatToString(modified) + (" resources will be " + "modified")] else [])
  }

  /** `_estimate_impact`. */
  function ImpactOf(changes: seq<Change>): (s: string)
    ensures changes == [] ==> s == "No changes detected"
  {
    if changes == [] then "No changes detected" else Join(ImpactParts(changes), "; ")
  }

  /** No phrase holds a semicolon: a numeral and words only. */
  lemma PhrasesHaveNoSemicolon(changes: seq<Change>)
    ensures forall i | 0 <= i < |ImpactParts(changes)| :: ';' !in ImpactParts(changes)[i]
  {
    var d := NatToString(Count(changes, Destroys));
    var c := NatToString(Count(changes, Creates));
    var m := NatToString(Count(changes, Modifies));
    assert ';' !in d && ';' !in c && ';' !in m;
  }

  /** The estimate splits back on "; " into its phrases, in the order destroyed, created, modified. */
  lemma ImpactSplitsIntoPhrases(changes: seq<Change>)
    requires changes != [] && ImpactParts(changes) != []
    ensures Split(ImpactOf(changes), "; ") == ImpactParts(changes)
  {
    PhrasesHaveNoSemicolon(changes);
    SplitJoin(ImpactParts(changes), "; ");
  }

  /** Changes that none of the three words describe leave the estimate empty. */
  lemma ImpactEmptyIff(changes: seq<Change>)
    requires changes != []
    ensures ImpactOf(changes) == "" <==> Count(changes, Destroys) == 0 && Count(changes, Creates) == 0
                                         && Count(changes, Modifies) == 0
  {
    var parts := ImpactParts(changes);
    if parts != [] {
      assert |parts[0]| > 0;
      if |parts| > 1 {
        JoinCons(parts[0], parts[1..], "; ");
        assert [parts[0]] + parts[1..] == parts;
      }
    }
  }

  /**
   * Terraform announces an in-place update as "will be updated in-place";
   * such an action holds none of "destroyed", "created" and "modified".
   */
  lemma InPlaceUpdateGoesUncounted(c: Change)
    requires c.action == "updated in-place"
    ensures !Destroys(c) && !Creates(c) && !Modifies(c)
  {
    var a := c.action;
    assert forall i | 0 <= i < |a| :: a[i] != 'y' && a[i] != 'r' && a[i] != 'm';
    MissingChar(a, "destroyed", 'y');
    MissingChar(a, "created", 'r');
    MissingChar(a, "modified", 'm');
  }

  /** A change none of the three words describe raises no severity and shows in no impact phrase. */
  lemma UncountedChangeIsInvisible(c: Change)
    requires !Destroys(c) && !Creates(c) && !Modifies(c)
    ensures DriftSeverity([c]) == "low" && ImpactOf([c]) == ""
  {
    assert [c][..0] == [];
    ImpactEmptyIff([c]);
  }

  // ------------------------------------------------------ drift events

  /** The risk a drift action carries: low when applying, otherwise medium or high by the probability. */
  function DriftRisk(apply: bool, probability: real): (r: RiskLevel)
    ensures r == Low <==> apply
    ensures !apply ==> (r == Medium <==> probability > 0.5)
  {
    if apply then Low else if probability > 0.5 then Medium else High
  }

  function RiskRank(r: RiskLevel): nat
  {
    match r
    case Low => 0
    case Medium => 1
    case High => 2
  }

  /**
   * `_handle_drift_event`: in full automation with a probability above
   * the threshold the agent applies; otherwise it plans. The event's
   * change list is passed decoded; `fixed2` renders the probability.
   */
  function DriftAction(agentId: string, event: SystemEvent, changes: seq<Change>, level: AutomationLevel,
                       threshold: real, probability: real, now: Timestamp, fixed2: real -> string)
    : (a: ActionSpec)
    ensures a.actionType == TerraformApply <==> level == FullAuto && probability > threshold
    ensures a.actionType != TerraformApply ==> a.actionType == TerraformPlan
    ensures a.riskLevel == DriftRisk(a.actionType == TerraformApply, probability)
    ensures a.id == "terraform_" + ActionTypeValue(a.actionType) + "_" + IntToString(now) && a.agentId == agentId
    ensures a.targetResources == TargetResources(changes) && a.estimatedImpact == ImpactOf(changes)
    ensures a.metadata == map["drift_info" := Obj(event.data), "confidence" := Num(probability), "event_id" := Str(event.id)]
  {
    var apply := level == FullAuto && probability > threshold;
    var actionType := if apply then TerraformApply else TerraformPlan;
    var description :=
      if apply then ("Auto-applying " + "Terraform changes " + "(confidence: ") + fixed2(probability) + ")"
      else ("Generating " + "Terraform plan for " + "drift correction " + "(confidence: ") + fixed2(probability) + ")";
    ActionSpec("terraform_" + ActionTypeValue(actionType) + "_" + IntToString(now), agentId, actionType,
               description, TargetResources(changes), DriftRisk(apply, probability), ImpactOf(changes),
               map["drift_info" := Obj(event.data), "confidence" := Num(probability), "event_id" := Str(event.id)])
  }

  /** A higher probability never raises the risk of the action chosen for the same drift. */
  lemma MoreConfidenceNeverRaisesRisk(agentId: string, event: SystemEvent, changes: seq<Change>,
                                      level: AutomationLevel, threshold: real, p: real, q: real,
                                      now: Timestamp, fixed2: real -> string)
    requires p <= q
    ensures RiskRank(DriftAction(agentId, event, changes, level, threshold, q, now, fixed2).riskLevel)
            <= RiskRank(DriftAction(agentId, event, changes, level, threshold, p, now, fixed2).riskLevel)
  {
  }

  /** The dictionary `detect_drift` returns, which a drift event carries; `changes` only when drift was detected. */
  function DriftData(d: DriftInfo): (data: Dict)
    ensures data.Keys == {"drift_detected", "plan_output", "error_output", "return_code", "timestamp"}
                         + (if d.changes.Some? then {"changes"} else {})
    ensures data["drift_detected"] == Flag(d.driftDetected) && data["return_code"] == Num(d.returnCode as real)
    ensures data["plan_output"] == Str(d.planOutput) && data["error_output"] == Str(d.errorOutput)
    ensures data["timestamp"] == Num(d.timestamp as real)
    ensures d.changes.Some? ==> data["changes"] == List(ChangesData(d.changes.value))
  {
    var base := map["drift_detected" := Flag(d.driftDetected),
                    "plan_output" := Str(d.planOutput),
                    "error_output" := Str(d.errorOutput),
                    "return_code" := Num(d.returnCode as real),
                    "timestamp" := Num(d.timestamp as real)];
    if d.changes.Some? then base["changes" := List(ChangesData(d.changes.value))] else base
  }

  /** `_create_drift_event`: the event announcing a drift, its severity from the changes. */
  function DriftEvent(agentId: string, d: DriftInfo, now: Timestamp): (e: SystemEvent)
    ensures e.eventType == InfrastructureDrift && e.source == agentId
    ensures e.severity == DriftSeverity(ChangesOf(d))
    ensures e.id == "drift_" + agentId + "_" + IntToString(now)
  {
    SystemEvent("drift_" + agentId + "_" + IntToString(now), InfrastructureDrift, agentId,
                DriftSeverity(ChangesOf(d)), DriftData(d), now, None)
  }

  /** `_get_subscribed_event_types`: the bus delivers only infrastructure drift. */
  function SubscribedEventTypes(): seq<EventType>
  {
    [InfrastructureDrift]
  }

  // ------------------------------------------------------ the agent

  /** A stored plan awaiting application. */
  datatype PendingPlan = PendingPlan(drift: DriftInfo, createdAt: Timestamp, actionId: string)

  class TerraformAgent {
    const agentId: string
    var monitorReady: bool               // a state monitor exists
    var model: Option<DriftFeatures -> real>
    var workspacePath: string
    var driftCheckInterval: real
    var autoApplyThreshold: real
    var lastDriftCheck: Option<Timestamp>
    var driftHistory: seq<DriftInfo>
    var pendingPlans: map<string, PendingPlan>
    ghost var published: seq<SystemEvent>

    /** The drift history is capped at one hundred checks. */
    ghost predicate Valid()
      reads this
    {
      |driftHistory| <= 100
    }

    constructor(agentId: string)
      ensures Valid() && this.agentId == agentId
      ensures !monitorReady && model.None? && driftHistory == [] && pendingPlans == map[]
      ensures driftCheckInterval == 300.0 && autoApplyThreshold == 0.8 && lastDriftCheck == None
      ensures published == []
    {
      this.agentId := agentId;
      monitorReady := false;
      model := None;
      workspacePath := "";
      driftCheckInterval := 300.0;
      autoApplyThreshold := 0.8;
      lastDriftCheck := None;
      driftHistory := [];
      pendingPlans := map[];
      published := [];
    }

    /**
     * `_initialize_agent_specific`: needs a configuration and a non-empty
     * Terraform integration; then sets up the monitor, the model `predict`
     * and the two thresholds.
     */
    method Initialize(config: Option<AgentConfig>, predict: DriftFeatures -> real) returns (r: Completion)
      modifies this
      ensures config.None? ==> r == Raised("No configuration provided") && unchanged(this)
      ensures config.Some? && (IntegrationOfKind(config.value.integrations, "terraform").None?
                               || IntegrationOfKind(config.value.integrations, "terraform").value.config == map[]) ==>
                r == Raised(("No Terraform " + "integration " + "configuration found")) && unchanged(this)
      ensures (&& config.Some? && IntegrationOfKind(config.value.integrations, "terraform").Some?
               && IntegrationOfKind(config.value.integrations, "terraform").value.config != map[]) ==> r == Done
      ensures r.Done? ==>
                && config.Some? && monitorReady && model == Some(predict)
                && var tf := IntegrationOfKind(config.value.integrations, "terraform").value.config;
                && workspacePath == (if "workspace_path" in tf then tf["workspace_path"] else "/tmp/terraform")
                && driftCheckInterval == Threshold(config.value, "drift_check_interval", 300.0)
                && autoApplyThreshold == Threshold(config.value, "auto_apply_threshold", 0.8)
      ensures driftHistory == old(driftHistory) && pendingPlans == old(pendingPlans)
      ensures lastDriftCheck == old(lastDriftCheck) && published == old(published)
    {
      if config.None? {
        return Raised("No configuration provided");
      }
      var integration := IntegrationOfKind(config.value.integrations, "terraform");
      if integration.None? || integration.value.config == map[] {
        return Raised(("No Terraform " + "integration " + "configuration found"));
      }
      var tf := integration.value.config;
      workspacePath := if "workspace_path" in tf then tf["workspace_path"] else "/tmp/terraform";
      monitorReady := true;
      model := Some(predict);
      driftCheckInterval := Threshold(config.value, "drift_check_interval", 300.0);
      autoApplyThreshold := Threshold(config.value, "auto_apply_threshold", 0.8);
      r := Done;
    }

    /**
     * `_check_for_drift`: without a monitor nothing happens; a plan run
     * that raised is logged and changes nothing; otherwise the check is
     * recorded (keeping the last hundred) and drift is announced.
     */
    method CheckForDrift(run: Outcome<PlanRun>, now: Timestamp)
      requires Valid()
      modifies this`lastDriftCheck, this`driftHistory, this`published
      ensures Valid()
      ensures !monitorReady || run.Threw? ==>
                (lastDriftCheck, driftHistory, published) == old((lastDriftCheck, driftHistory, published))
      ensures monitorReady && run.Returned? ==>
                var d := DriftOf(run.value, now);
                && driftHistory == KeepLast(old(driftHistory) + [d], 100)
                && lastDriftCheck == Some(now)
                && published == old(published) + (if d.driftDetected then [DriftEvent(agentId, d, now)] else [])
    {
      if !monitorReady || run.Threw? {
        return;
      }
      var d := DetectDrift(run.value, now);
      RecordDrift(d, now);
    }

    /** One check's drift joins the history, keeping the last 100, and drift is announced. */
    method RecordDrift(d: DriftInfo, now: Timestamp)
      requires Valid()
      modifies this`lastDriftCheck, this`driftHistory, this`published
      ensures Valid()
      ensures driftHistory == KeepLast(old(driftHistory) + [d], 100) && lastDriftCheck == Some(now)
      ensures published == old(published) + (if d.driftDetected then [DriftEvent(agentId, d, now)] else [])
    {
      lastDriftCheck := Some(now);
      var history := driftHistory + [d];
      if |history| > 100 {
        history := history[|history| - 100..];
      }
      driftHistory := history;
      if d.driftDetected {
        published := published + [DriftEvent(agentId, d, now)];
      }
    }

    /** `_process_event_specific`: only a drift event yields an action. */
    method ProcessEvent(event: SystemEvent, changes: seq<Change>, level: AutomationLevel, now: Timestamp,
                        fixed2: real -> string)
      returns (action: Option<ActionSpec>)
      ensures action.Some? <==> event.eventType in SubscribedEventTypes()
      ensures action.Some? ==>
                action.value == DriftAction(agentId, event, changes, level, autoApplyThreshold,
                                            PredictedSuccess(changes, driftHistory, model), now, fixed2)
    {
      if event.eventType != InfrastructureDrift {
        return None;
      }
      var probability := PredictedSuccess(changes, driftHistory, model);
      action := Some(DriftAction(agentId, event, changes, level, autoApplyThreshold, probability, now, fixed2));
    }

    /**
     * The outcome of `_execute_terraform_plan`: without a monitor, or when
     * the plan run raised, it fails and stores nothing; without drift it
     * succeeds and stores nothing; with drift it stores the plan under
     * `plan_<now>` and reports its id, output and changes.
     */
    twostate predicate PlanOutcome(action: ActionSpec, run: Outcome<PlanRun>, now: Timestamp, r: ActionResult)
      reads this
    {
      if !monitorReady then
        && r == FailedWith(("Failed to generate " + "Terraform plan"), ("State monitor not " + "initialized"))
        && pendingPlans == old(pendingPlans)
      else if run.Threw? then
        && r == FailedWith(("Failed to generate " + "Terraform plan"), run.error)
        && pendingPlans == old(pendingPlans)
      else if !DriftOf(run.value, now).driftDetected then
        && r == Succeeded(("No drift detected, " + "no plan needed"), map["plan_output" := Str("No changes required")])
        && pendingPlans == old(pendingPlans)
      else
        var planId := "plan_" + IntToString(now);
        && pendingPlans == old(pendingPlans)[planId := PendingPlan(DriftOf(run.value, now), now, action.id)]
        && r == Succeeded(("Terraform plan " + "generated " + "successfully"),
                          map["plan_id" := Str(planId), "plan_output" := Str(run.value.stdout),
                              "changes" := List(ChangesData(PlanChanges(run.value.stdout)))])
    }

    /**
     * `_execute_terraform_plan`: fails without a monitor or when the plan
     * run raised; without drift it succeeds and stores nothing; with drift
     * it stores the plan under `plan_<now>` (replacing one stored in the
     * same second).
     */
    method ExecuteTerraformPlan(action: ActionSpec, run: Outcome<PlanRun>, now: Timestamp)
      returns (r: ActionResult)
      modifies this
      ensures PlanOutcome(action, run, now, r)
      ensures r.success <==> monitorReady && run.Returned?
      ensures driftHistory == old(driftHistory) && monitorReady == old(monitorReady) && model == old(model)
      ensures autoApplyThreshold == old(autoApplyThreshold) && published == old(published)
      ensures lastDriftCheck == old(lastDriftCheck)
    {
      if !monitorReady {
        return FailedWith(("Failed to generate " + "Terraform plan"), ("State monitor not " + "initialized"));
      }
      if run.Threw? {
        return FailedWith(("Failed to generate " + "Terraform plan"), run.error);
      }
      var d := DetectDrift(run.value, now);
      if !d.driftDetected {
        return Succeeded(("No drift detected, " + "no plan needed"), map["plan_output" := Str("No changes required")]);
      }
      var planId := "plan_" + IntToString(now);
      pendingPlans := pendingPlans[planId := PendingPlan(d, now, action.id)];
      r := Succeeded(("Terraform plan " + "generated " + "successfully"),
                     map["plan_id" := Str(planId), "plan_output" := Str(d.planOutput),
                         "changes" := List(ChangesData(ChangesOf(d)))]);
    }

    /**
     * `_execute_action_specific`: a plan gets `_execute_terraform_plan`'s
     * result, as `PlanOutcome` states it; an apply, which
     * goes to the Terraform CLI or Terraform Cloud, reports `applied`; any
     * other type is refused.
     */
    method ExecuteAction(action: ActionSpec, run: Outcome<PlanRun>, applied: ActionResult, now: Timestamp)
      returns (r: ActionResult)
      modifies this
      ensures action.actionType == TerraformApply ==>
                r == (if monitorReady then applied
                      else FailedWith(("Failed to apply " + "Terraform changes"), ("State monitor not " + "initialized")))
      ensures action.actionType !in {TerraformPlan, TerraformApply} ==>
                r == FailedWith("Unsupported action type: " + ActionTypeValue(action.actionType),
                                ("Action type not " + "supported by " + "Terraform agent"))
      ensures action.actionType != TerraformPlan ==> unchanged(this)
      ensures action.actionType == TerraformPlan ==> PlanOutcome(action, run, now, r)
      ensures action.actionType == TerraformPlan ==> (r.success <==> monitorReady && run.Returned?)
      ensures driftHistory == old(driftHistory) && published == old(published)
      ensures pendingPlans.Keys <= old(pendingPlans).Keys + {"plan_" + IntToString(now)}
    {
      if action.actionType == TerraformPlan {
        r := ExecuteTerraformPlan(action, run, now);
      } else if action.actionType == TerraformApply {
        r := if monitorReady then applied
             else FailedWith(("Failed to apply " + "Terraform changes"), ("State monitor not " + "initialized"));
      } else {
        r := FailedWith("Unsupported action type: " + ActionTypeValue(action.actionType),
                        ("Action type not " + "supported by " + "Terraform agent"));
      }
    }
  }
}
