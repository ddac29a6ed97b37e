/**
 * Alerts, incidents and the alert correlator: alerts are sorted by time
 * and cut into windows anchored at each window's first alert, each window
 * is split into clusters, and every cluster becomes one incident.
 *
 * The clustering model is not visible here: for a window of alerts it
 * either yields no features (the fallback: one incident per alert) or a
 * label per alert position, -1 marking noise. Incident ids are built from
 * the current time and the title's hash, the hash being a parameter.
 */
module Incidents {
  import opened Text
  import opened Interfaces
  import opened Seqs

  datatype Alert = Alert(
    id: string,
    source: string,
    severity: string,
    title: string,
    description: string,
    timestamp: Timestamp,
    labels: map<string, string>,
    metrics: map<string, real>,
    rawData: Dict)

  datatype IncidentStatus = Open | Resolved

  /** One escalation notice; a channel that failed carries its error instead of a message. */
  datatype Notification = Notification(
    channel: string, sentAt: Timestamp, success: bool, message: Option<string>, error: Option<string>)

  datatype EscalationResult = EscalationResult(
    incidentId: string,
    escalatedAt: Timestamp,
    reason: string,
    notifications: seq<Notification>,
    success: bool)

  /**
   * The incident's `metadata` dictionary, key by key; an absent key is
   * `None` (for `resolution_attempts`, whose readers default it to 0, 0).
   */
  datatype IncidentMeta = IncidentMeta(
    alertCount: nat,
    sources: seq<string>,
    incidentType: Option<string>,
    confidence: Option<real>,
    escalationReason: Option<string>,
    escalatedAt: Option<Timestamp>,
    escalationResult: Option<EscalationResult>,
    resolutionAttempts: nat,
    lastAttemptAt: Option<Timestamp>,
    lastResolutionError: Option<string>,
    service: Option<string>)

  datatype Incident = Incident(
    id: string,
    title: string,
    description: string,
    severity: string,
    status: IncidentStatus,
    affectedResources: seq<string>,
    alerts: seq<Alert>,
    detectedAt: Timestamp,
    resolvedAt: Option<Timestamp>,
    resolutionSteps: seq<string>,
    automatedResolution: bool,
    escalated: bool,
    rootCause: Option<string>,
    meta: IncidentMeta)

  // ------------------------------------------------------ severity

  /** low 1, medium 2, high 3, critical 4, compared case-insensitively; anything else ranks as low. */
  function SeverityRank(severity: string): (r: nat)
    ensures 1 <= r <= 4
    ensures r == 4 <==> Lower(severity) == "critical"
    ensures r == 1 <==> Lower(severity) !in {"critical", "high", "medium"}
  {
    var s := Lower(severity);
    if s == "critical" then 4 else if s == "high" then 3 else if s == "medium" then 2 else 1
  }

  /** The position of the first alert with the highest rank (Python's `max` keeps the first). */
  function HighestAlert(alerts: seq<Alert>): (i: nat)
    requires |alerts| > 0
    ensures i < |alerts|
  {
    if |alerts| == 1 then 0
    else
      var i := HighestAlert(alerts[..|alerts| - 1]);
      if SeverityRank(alerts[|alerts| - 1].severity) > SeverityRank(alerts[i].severity) then |alerts| - 1 else i
  }

  /** The chosen alert ranks highest, and every alert before it ranks strictly lower. */
  lemma {:induction false} HighestAlertIsFirstMax(alerts: seq<Alert>)
    requires |alerts| > 0
    ensures var i := HighestAlert(alerts);
            && (forall j | 0 <= j < |alerts| :: SeverityRank(alerts[j].severity) <= SeverityRank(alerts[i].severity))
            && (forall j | 0 <= j < i :: SeverityRank(alerts[j].severity) < SeverityRank(alerts[i].severity))
  {
    if |alerts| > 1 {
      var init := alerts[..|alerts| - 1];
      HighestAlertIsFirstMax(init);
      assert forall j | 0 <= j < |init| :: init[j] == alerts[j];
    }
  }

  /** The earliest timestamp. */
  function Earliest(alerts: seq<Alert>): Timestamp
    requires |alerts| > 0
  {
    if |alerts| == 1 then alerts[0].timestamp
    else
      var t := Earliest(alerts[..|alerts| - 1]);
      var last := alerts[|alerts| - 1].timestamp;
      if last < t then last else t
  }

  /** The earliest time is some alert's time and no alert is earlier. */
  lemma {:induction false} EarliestIsMin(alerts: seq<Alert>)
    requires |alerts| > 0
    ensures exists i | 0 <= i < |alerts| :: alerts[i].timestamp == Earliest(alerts)
    ensures forall i | 0 <= i < |alerts| :: Earliest(alerts) <= alerts[i].timestamp
  {
    if |alerts| > 1 {
      var init := alerts[..|alerts| - 1];
      EarliestIsMin(init);
      assert forall j | 0 <= j < |init| :: init[j] == alerts[j];
      var k :| 0 <= k < |init| && init[k].timestamp == Earliest(init);
      assert alerts[k].timestamp == Earliest(init);
    } else {
      assert alerts[0].timestamp == Earliest(alerts);
    }
  }

  // ------------------------------------------------------ naming

  function Min(a: nat, b: nat): nat
  {
    if a <= b then a else b
  }

  function SourcesOf(alerts: seq<Alert>): seq<string>
  {
    seq(|alerts|, i requires 0 <= i < |alerts| => alerts[i].source)
  }

  /** The distinct sources named in a multi-alert title: at most three. */
  function NamedSources(alerts: seq<Alert>): (r: seq<string>)
    ensures |r| == Min(3, |Dedup(SourcesOf(alerts))|) && |r| <= 3
  {
    var all := Dedup(SourcesOf(alerts));
    all[..Min(3, |all|)]
  }

  /** The named sources are distinct sources of the alerts. */
  lemma NamedSourcesFacts(alerts: seq<Alert>)
    ensures NoDuplicates(NamedSources(alerts))
    ensures forall s | s in NamedSources(alerts) :: exists i | 0 <= i < |alerts| :: alerts[i].source == s
  {
    var all := Dedup(SourcesOf(alerts));
    DedupMembers(SourcesOf(alerts));
    var r := NamedSources(alerts);
    assert forall s | s in r :: s in all;
    forall s | s in r ensures exists i | 0 <= i < |alerts| :: alerts[i].source == s {
      assert s in SourcesOf(alerts);
      var i :| 0 <= i < |alerts| && SourcesOf(alerts)[i] == s;
    }
  }

  /** `"src: title"` for each alert. */
  function AlertLines(alerts: seq<Alert>): seq<string>
  {
    seq(|alerts|, i requires 0 <= i < |alerts| => alerts[i].source + ": " + alerts[i].title)
  }

  /** A single alert lends its title; several give "Multiple alerts from" and at most three sources. */
  function IncidentTitle(alerts: seq<Alert>): string
    requires |alerts| > 0
  {
    if |alerts| == 1 then alerts[0].title
    else
      var distinct := |Dedup(SourcesOf(alerts))|;
      "Multiple alerts from " + Join(NamedSources(alerts), ", ")
      + (if distinct > 3 then " and " + NatToString(distinct - 3) + " more sources" else "")
  }

  /** A single alert lends its description; several list at most three alerts and count the rest. */
  function IncidentDescription(alerts: seq<Alert>): string
    requires |alerts| > 0
  {
    if |alerts| == 1 then alerts[0].description
    else
      "Correlated incident from " + NatToString(|alerts|) + " alerts: "
      + Join(AlertLines(alerts[..Min(3, |alerts|)]), "; ")
      + (if |alerts| > 3 then " and " + NatToString(|alerts| - 3) + " more alerts" else "")
  }

  /** The `resource` and then the `service` label of each alert that has them. */
  function ResourceLabels(alerts: seq<Alert>): seq<string>
  {
    if alerts == [] then []
    else
      var a := alerts[|alerts| - 1];
      ResourceLabels(alerts[..|alerts| - 1])
      + (if "resource" in a.labels then [a.labels["resource"]] else [])
      + (if "service" in a.labels then [a.labels["service"]] else [])
  }

  /** An alert's resource or service label, if it has one. */
  predicate LabelOf(a: Alert, x: string)
  {
    ("resource" in a.labels && a.labels["resource"] == x) || ("service" in a.labels && a.labels["service"] == x)
  }

  /** The labels collected are exactly the alerts' resource and service labels. */
  lemma {:induction false} ResourceLabelsMembers(alerts: seq<Alert>)
    ensures forall x | x in ResourceLabels(alerts) :: exists i | 0 <= i < |alerts| :: LabelOf(alerts[i], x)
    ensures forall i, x | 0 <= i < |alerts| && LabelOf(alerts[i], x) :: x in ResourceLabels(alerts)
  {
    if alerts != [] {
      var init, a := alerts[..|alerts| - 1], alerts[|alerts| - 1];
      ResourceLabelsMembers(init);
      var r0 := ResourceLabels(init);
      var r := ResourceLabels(alerts);
      var extra := (if "resource" in a.labels then [a.labels["resource"]] else [])
                   + (if "service" in a.labels then [a.labels["service"]] else []);
      assert r == r0 + extra;
      assert forall j | 0 <= j < |init| :: init[j] == alerts[j];
      forall x | x in r ensures exists i | 0 <= i < |alerts| :: LabelOf(alerts[i], x) {
        if x in r0 {
          var i :| 0 <= i < |init| && LabelOf(init[i], x);
          assert LabelOf(alerts[i], x);
        } else {
          assert x in extra;
          assert LabelOf(alerts[|alerts| - 1], x);
        }
      }
      forall i, x | 0 <= i < |alerts| && LabelOf(alerts[i], x) ensures x in r {
        if i < |init| {
          assert LabelOf(init[i], x);
        } else {
          assert x in extra;
        }
      }
    }
  }

  /** `incident_{now}_{hash(title) % 10000}`; Python's `%` by a positive modulus is never negative. */
  function IncidentId(now: Timestamp, titleHash: int): string
  {
    "incident_" + IntToString(now) + "_" + NatToString(titleHash % 10000)
  }

  /**
   * The incident for a non-empty cluster of alerts: the first highest
   * severity (original spelling), the earliest time, the distinct
   * resource and service labels, open, unescalated, not yet resolved.
   */
  function CreateIncident(alerts: seq<Alert>, now: Timestamp, hash: string -> int): (inc: Incident)
    requires |alerts| > 0
    ensures inc.alerts == alerts && inc.meta.alertCount == |alerts|
  {
    var top := HighestAlert(alerts);
    var title := IncidentTitle(alerts);
    var labels := ResourceLabels(alerts);
    Incident(
      IncidentId(now, hash(title)),
      title,
      IncidentDescription(alerts),
      alerts[top].severity,
      Open,
      Dedup(labels),
      alerts,
      Earliest(alerts),
      None,
      [],
      false,
      false,
      None,
      IncidentMeta(|alerts|, Dedup(SourcesOf(alerts)), None, None, None, None, None, 0, None, None, None))
  }

  /**
   * A new incident takes the highest severity among its alerts, starts
   * open, unescalated and unresolved with no attempts made, and has its id
   * built from the time and the hash of its title.
   */
  lemma CreateIncidentFacts(alerts: seq<Alert>, now: Timestamp, hash: string -> int)
    requires |alerts| > 0
    ensures var inc := CreateIncident(alerts, now, hash);
            && (exists i | 0 <= i < |alerts| :: inc.severity == alerts[i].severity)
            && (forall i | 0 <= i < |alerts| :: SeverityRank(alerts[i].severity) <= SeverityRank(inc.severity))
            && inc.detectedAt == Earliest(alerts)
            && inc.status == Open && !inc.escalated && !inc.automatedResolution
            && inc.resolvedAt == None && inc.resolutionSteps == [] && inc.rootCause == None
            && inc.id == IncidentId(now, hash(inc.title))
            && inc.meta.resolutionAttempts == 0
            && inc.meta.incidentType == None && inc.meta.escalationResult == None
  {
    var top := HighestAlert(alerts);
    HighestAlertIsFirstMax(alerts);
    EarliestIsMin(alerts);
    assert CreateIncident(alerts, now, hash).severity == alerts[top].severity;
  }

  /** The affected resources are the distinct `resource` and `service` labels of the alerts, each once. */
  lemma AffectedResources(alerts: seq<Alert>, now: Timestamp, hash: string -> int)
    requires |alerts| > 0
    ensures var affected := CreateIncident(alerts, now, hash).affectedResources;
            && NoDuplicates(affected)
            && (forall i, x | 0 <= i < |alerts| && LabelOf(alerts[i], x) :: x in affected)
            && (forall x | x in affected :: exists i | 0 <= i < |alerts| :: LabelOf(alerts[i], x))
  {
    ResourceLabelsMembers(alerts);
    DedupMembers(ResourceLabels(alerts));
  }

  /** A lone alert lends the incident its title and description. */
  lemma SingleAlertIncident(a: Alert, now: Timestamp, hash: string -> int)
    ensures var inc := CreateIncident([a], now, hash);
            inc.title == a.title && inc.description == a.description && inc.alerts == [a]
  {
  }

  // ------------------------------------------------------ time windows

  /** The correlation window, 15 minutes. */
  const CorrelationWindow: int := 900

  function TimestampKey(a: Alert): real
  {
    a.timestamp as real
  }

  /** The grouping loop's state: finished groups, the current group and its anchor time. */
  datatype GroupState = GroupState(groups: seq<seq<Alert>>, current: seq<Alert>, start: Option<Timestamp>)

  /** One iteration: the first alert anchors a group; an alert within the window joins it, else starts a new one. */
  function GroupStep(st: GroupState, a: Alert, window: int): GroupState
  {
    if st.start.None? then GroupState(st.groups, [a], Some(a.timestamp))
    else if a.timestamp - st.start.value <= window then st.(current := st.current + [a])
    else GroupState(st.groups + (if st.current != [] then [st.current] else []), [a], Some(a.timestamp))
  }

  function GroupFold(s: seq<Alert>, window: int): GroupState
  {
    if s == [] then GroupState([], [], None)
    else GroupStep(GroupFold(s[..|s| - 1], window), s[|s| - 1], window)
  }

  /** The groups after the loop, the last group included. */
  function TimeGroups(s: seq<Alert>, window: int): seq<seq<Alert>>
  {
    var st := GroupFold(s, window);
    st.groups + (if st.current != [] then [st.current] else [])
  }

  function Flatten<T>(gs: seq<seq<T>>): seq<T>
  {
    if gs == [] then [] else Flatten(gs[..|gs| - 1]) + gs[|gs| - 1]
  }

  lemma FlattenAppend<T>(gs: seq<seq<T>>, g: seq<T>)
    ensures Flatten(gs + [g]) == Flatten(gs) + g
  {
    assert (gs + [g])[..|gs|] == gs;
  }

  /** Every alert of the group lies within the window of the group's first alert. */
  predicate InWindow(g: seq<Alert>, window: int)
  {
    forall a | a in g :: a.timestamp - g[0].timestamp <= window
  }

  /** A well-formed grouping: non-empty groups, each within its window, and each new group's anchor outside the previous window. */
  predicate WellGrouped(gs: seq<seq<Alert>>, window: int)
  {
    && (forall k | 0 <= k < |gs| :: |gs[k]| > 0 && InWindow(gs[k], window))
    && (forall k | 0 < k < |gs| :: gs[k][0].timestamp - gs[k - 1][0].timestamp > window)
  }

  /** What the grouping loop keeps true after consuming `s`. */
  predicate GoodState(st: GroupState, s: seq<Alert>, window: int)
  {
    && (s == [] <==> st.start.None?)
    && (s == [] ==> st.groups == [] && st.current == [])
    && (s != [] ==> |st.current| > 0 && st.start == Some(st.current[0].timestamp))
    && Flatten(st.groups) + st.current == s
    && WellGrouped(st.groups + (if s != [] then [st.current] else []), window)
  }

  lemma {:induction false} GroupFoldGood(s: seq<Alert>, window: int)
    requires window >= 0
    ensures GoodState(GroupFold(s, window), s, window)
  {
    if s != [] {
      var init := s[..|s| - 1];
      GroupFoldGood(init, window);
      assert s == init + [s[|s| - 1]];
      GroupStepGood(GroupFold(init, window), init, s[|s| - 1], window);
    }
  }

  lemma GroupStepGood(st: GroupState, s: seq<Alert>, a: Alert, window: int)
    requires window >= 0 && GoodState(st, s, window)
    ensures GoodState(GroupStep(st, a, window), s + [a], window)
  {
    if st.start.None? {
      assert GroupStep(st, a, window) == GroupState([], [a], Some(a.timestamp));
      assert [] + [[a]] == [[a]];
    } else if a.timestamp - st.start.value <= window {
      JoinGood(st, s, a, window);
    } else {
      NewGroupGood(st, s, a, window);
    }
  }

  lemma JoinGood(st: GroupState, s: seq<Alert>, a: Alert, window: int)
    requires GoodState(st, s, window) && st.start.Some? && a.timestamp - st.start.value <= window
    ensures GoodState(GroupStep(st, a, window), s + [a], window)
  {
    var cur := st.current + [a];
    assert GroupStep(st, a, window) == GroupState(st.groups, cur, st.start);
    assert forall x | x in cur :: x in st.current || x == a;
    assert cur[0] == st.current[0];
    var before := st.groups + [st.current];
    var after := st.groups + [cur];
    assert forall k | 0 <= k < |st.groups| :: after[k] == before[k];
    assert before[|st.groups|] == st.current;
    assert InWindow(st.current, window);
    assert InWindow(cur, window);
  }

  lemma NewGroupGood(st: GroupState, s: seq<Alert>, a: Alert, window: int)
    requires window >= 0 && GoodState(st, s, window) && st.start.Some? && a.timestamp - st.start.value > window
    ensures GoodState(GroupStep(st, a, window), s + [a], window)
  {
    var gs := st.groups + [st.current];
    assert GroupStep(st, a, window) == GroupState(gs, [a], Some(a.timestamp));
    FlattenAppend(st.groups, st.current);
    var after := gs + [[a]];
    assert forall k | 0 <= k < |gs| :: after[k] == gs[k];
    assert InWindow([a], window);
  }

  /** The groups are non-empty, lie within their windows, and concatenate back to the input. */
  lemma TimeGroupsPartition(s: seq<Alert>, window: int)
    requires window >= 0
    ensures Flatten(TimeGroups(s, window)) == s
    ensures WellGrouped(TimeGroups(s, window), window)
  {
    GroupFoldGood(s, window);
    var st := GroupFold(s, window);
    if s != [] {
      FlattenAppend(st.groups, st.current);
    }
  }

  /** `_group_alerts_by_time`: sorts by timestamp, then runs the grouping loop. */
  method GroupAlertsByTime(alerts: seq<Alert>) returns (groups: seq<seq<Alert>>)
    ensures groups == TimeGroups(SortBy(alerts, TimestampKey), CorrelationWindow)
    ensures multiset(Flatten(groups)) == multiset(alerts)
    ensures SortedBy(Flatten(groups), TimestampKey)
    ensures WellGrouped(groups, CorrelationWindow)
  {
    var sorted := SortBy(alerts, TimestampKey);
    var done: seq<seq<Alert>> := [];
    var current: seq<Alert> := [];
    var start: Option<Timestamp> := None;
    var i := 0;
    while i < |sorted|
      invariant 0 <= i <= |sorted|
      invariant GroupState(done, current, start) == GroupFold(sorted[..i], CorrelationWindow)
    {
      var a := sorted[i];
      assert sorted[..i + 1][..i] == sorted[..i];
      if start.None? {
        start := Some(a.timestamp);
        current := [a];
      } else if a.timestamp - start.value <= CorrelationWindow {
        current := current + [a];
      } else {
        if current != [] {
          done := done + [current];
        }
        current := [a];
        start := Some(a.timestamp);
      }
      i := i + 1;
    }
    assert sorted[..i] == sorted;
    groups := done + (if current != [] then [current] else []);
    TimeGroupsPartition(sorted, CorrelationWindow);
  }

  /** Alerts at t, t + 5 min and t + 20 min form two windows: the first two, then the last. */
  lemma ThreeAlertsTwoWindows(a0: Alert, a1: Alert, a2: Alert)
    requires a1.timestamp == a0.timestamp + 300 && a2.timestamp == a0.timestamp + 1200
    ensures TimeGroups([a0, a1, a2], CorrelationWindow) == [[a0, a1], [a2]]
  {
    var s := [a0, a1, a2];
    assert s[..2] == [a0, a1] && s[..2][..1] == [a0] && [a0][..0] == [];
    assert GroupFold([a0], CorrelationWindow) == GroupState([], [a0], Some(a0.timestamp));
    assert GroupFold([a0, a1], CorrelationWindow) == GroupState([], [a0, a1], Some(a0.timestamp));
    assert GroupFold(s, CorrelationWindow) == GroupState([[a0, a1]], [a2], Some(a2.timestamp));
  }

  // ------------------------------------------------------ clusters

  /** What the clustering model made of a window: no features, or a label per alert position. */
  datatype Clustering = NoFeatures | Labelled(labelOf: nat -> int)

  /** A noise alert is a cluster of its own, keyed by its position. */
  datatype BucketKey = Cluster(id: int) | Outlier(index: nat)

  function KeyOf(i: nat, labelOf: nat -> int): BucketKey
  {
    if labelOf(i) == -1 then Outlier(i) else Cluster(labelOf(i))
  }

  datatype Bucket = Bucket(key: BucketKey, members: seq<nat>)

  function FindBucket(bs: seq<Bucket>, key: BucketKey): (r: Option<nat>)
    ensures r.Some? ==> r.value < |bs| && bs[r.value].key == key
    ensures r.None? ==> forall k | 0 <= k < |bs| :: bs[k].key != key
  {
    if bs == [] then None
    else if bs[|bs| - 1].key == key then Some(|bs| - 1)
    else FindBucket(bs[..|bs| - 1], key)
  }

  /** Files position `i` under its key: into the bucket with that key, or a new bucket at the end. */
  function AddMember(bs: seq<Bucket>, i: nat, labelOf: nat -> int): seq<Bucket>
  {
    var key := KeyOf(i, labelOf);
    match FindBucket(bs, key)
    case Some(k) => bs[k := Bucket(key, bs[k].members + [i])]
    case None => bs + [Bucket(key, [i])]
  }

  /** Every bucket is non-empty and holds positions below `n`. */
  predicate Bounded(bs: seq<Bucket>, n: nat)
  {
    forall k | 0 <= k < |bs| :: |bs[k].members| > 0 && forall j | 0 <= j < |bs[k].members| :: bs[k].members[j] < n
  }

  lemma AddMemberBounded(bs: seq<Bucket>, i: nat, labelOf: nat -> int)
    requires Bounded(bs, i)
    ensures Bounded(AddMember(bs, i, labelOf), i + 1)
  {
  }

  /** The buckets for positions `0 .. n-1`, in order of their first member (a dictionary's insertion order). */
  function Buckets(n: nat, labelOf: nat -> int): (bs: seq<Bucket>)
    ensures Bounded(bs, n)
  {
    if n == 0 then []
    else
      var m: nat := n - 1;
      var bs := Buckets(m, labelOf);
      AddMemberBounded(bs, m, labelOf);
      AddMember(bs, m, labelOf)
  }

  function TotalMembers(bs: seq<Bucket>): nat
  {
    if bs == [] then 0 else TotalMembers(bs[..|bs| - 1]) + |bs[|bs| - 1].members|
  }

  /** Every member carries its bucket's key, and no bucket repeats a member. */
  predicate Keyed(bs: seq<Bucket>, labelOf: nat -> int)
  {
    forall k | 0 <= k < |bs| ::
      NoDuplicates(bs[k].members)
      && forall j | 0 <= j < |bs[k].members| :: bs[k].key == KeyOf(bs[k].members[j], labelOf)
  }

  predicate KeysDistinct(bs: seq<Bucket>)
  {
    forall k1, k2 | 0 <= k1 < k2 < |bs| :: bs[k1].key != bs[k2].key
  }

  predicate Covered(bs: seq<Bucket>, i: nat)
  {
    exists k | 0 <= k < |bs| :: i in bs[k].members
  }

  /**
   * Buckets partition the positions below `n`: each position is a member
   * of some bucket, members carry their bucket's key, keys are distinct
   * (so no position is in two buckets), and the sizes add up to `n`.
   */
  predicate Partitions(bs: seq<Bucket>, n: nat, labelOf: nat -> int)
  {
    && Bounded(bs, n)
    && Keyed(bs, labelOf)
    && KeysDistinct(bs)
    && (forall i | 0 <= i < n :: Covered(bs, i))
    && TotalMembers(bs) == n
  }

  lemma TotalMembersUpdate(bs: seq<Bucket>, k: nat, b: Bucket)
    requires k < |bs|
    ensures TotalMembers(bs[k := b]) == TotalMembers(bs) - |bs[k].members| + |b.members|
    decreases |bs|
  {
    if k < |bs| - 1 {
      TotalMembersUpdate(bs[..|bs| - 1], k, b);
      assert bs[k := b][..|bs| - 1] == bs[..|bs| - 1][k := b];
    } else {
      assert bs[k := b][..|bs| - 1] == bs[..|bs| - 1];
    }
  }

  lemma TotalMembersAppend(bs: seq<Bucket>, b: Bucket)
    ensures TotalMembers(bs + [b]) == TotalMembers(bs) + |b.members|
  {
    assert (bs + [b])[..|bs|] == bs;
  }

  lemma AddMemberKeyed(bs: seq<Bucket>, i: nat, labelOf: nat -> int)
    requires Bounded(bs, i) && Keyed(bs, labelOf)
    ensures Keyed(AddMember(bs, i, labelOf), labelOf)
  {
    match FindBucket(bs, KeyOf(i, labelOf))
    case Some(k) =>
      var m := bs[k].members + [i];
      assert forall j | 0 <= j < |bs[k].members| :: bs[k].members[j] < i;
      assert NoDuplicates(m);
    case None =>
  }

  lemma AddMemberDistinct(bs: seq<Bucket>, i: nat, labelOf: nat -> int)
    requires KeysDistinct(bs)
    ensures KeysDistinct(AddMember(bs, i, labelOf))
  {
  }

  lemma AddMemberCovers(bs: seq<Bucket>, i: nat, labelOf: nat -> int)
    requires forall x | 0 <= x < i :: Covered(bs, x)
    ensures forall x | 0 <= x < i + 1 :: Covered(AddMember(bs, i, labelOf), x)
  {
    var r := AddMember(bs, i, labelOf);
    var key := KeyOf(i, labelOf);
    forall x | 0 <= x < i + 1 ensures Covered(r, x) {
      match FindBucket(bs, key)
      case Some(k) =>
        if x == i {
          assert i in r[k].members;
        } else {
          assert Covered(bs, x);
          var k' :| 0 <= k' < |bs| && x in bs[k'].members;
          assert x in r[k'].members;
        }
      case None =>
        if x == i {
          assert i in r[|bs|].members;
        } else {
          assert Covered(bs, x);
          var k' :| 0 <= k' < |bs| && x in bs[k'].members;
          assert x in r[k'].members;
        }
    }
  }

  lemma AddMemberTotal(bs: seq<Bucket>, i: nat, labelOf: nat -> int)
    ensures TotalMembers(AddMember(bs, i, labelOf)) == TotalMembers(bs) + 1
  {
    var key := KeyOf(i, labelOf);
    match FindBucket(bs, key)
    case Some(k) => TotalMembersUpdate(bs, k, Bucket(key, bs[k].members + [i]));
    case None => TotalMembersAppend(bs, Bucket(key, [i]));
  }

  /** One more position files it into the buckets of the positions before it. */
  lemma BucketsUnfold(m: nat, labelOf: nat -> int)
    ensures Buckets(m + 1, labelOf) == AddMember(Buckets(m, labelOf), m, labelOf)
  {
  }

  lemma {:induction false} BucketsKeyed(n: nat, labelOf: nat -> int)
    ensures Keyed(Buckets(n, labelOf), labelOf)
  {
    if n > 0 {
      var m: nat := n - 1;
      var bs := Buckets(m, labelOf);
      BucketsKeyed(m, labelOf);
      AddMemberKeyed(bs, m, labelOf);
      BucketsUnfold(m, labelOf);
    }
  }

  lemma {:induction false} BucketsDistinct(n: nat, labelOf: nat -> int)
    ensures KeysDistinct(Buckets(n, labelOf))
  {
    if n > 0 {
      var m: nat := n - 1;
      var bs := Buckets(m, labelOf);
      BucketsDistinct(m, labelOf);
      AddMemberDistinct(bs, m, labelOf);
      BucketsUnfold(m, labelOf);
    }
  }

  lemma {:induction false} BucketsCover(n: nat, labelOf: nat -> int)
    ensures forall i | 0 <= i < n :: Covered(Buckets(n, labelOf), i)
  {
    if n > 0 {
      var m: nat := n - 1;
      var bs := Buckets(m, labelOf);
      BucketsCover(m, labelOf);
      AddMemberCovers(bs, m, labelOf);
      BucketsUnfold(m, labelOf);
    }
  }

  lemma {:induction false} BucketsTotal(n: nat, labelOf: nat -> int)
    ensures TotalMembers(Buckets(n, labelOf)) == n
  {
    if n > 0 {
      var m: nat := n - 1;
      var bs := Buckets(m, labelOf);
      BucketsTotal(m, labelOf);
      AddMemberTotal(bs, m, labelOf);
      BucketsUnfold(m, labelOf);
    }
  }

  lemma BucketsPartition(n: nat, labelOf: nat -> int)
    ensures Partitions(Buckets(n, labelOf), n, labelOf)
  {
    BucketsKeyed(n, labelOf);
    BucketsDistinct(n, labelOf);
    BucketsCover(n, labelOf);
    BucketsTotal(n, labelOf);
  }

  /**
   * Two positions share a bucket exactly when they have the same key: the
   * same label other than -1, or, for noise, the same position.
   */
  lemma SameBucketIffSameKey(n: nat, labelOf: nat -> int, k1: nat, k2: nat, i: nat, j: nat)
    requires k1 < |Buckets(n, labelOf)| && k2 < |Buckets(n, labelOf)|
    requires i in Buckets(n, labelOf)[k1].members && j in Buckets(n, labelOf)[k2].members
    ensures k1 == k2 <==> KeyOf(i, labelOf) == KeyOf(j, labelOf)
  {
    BucketsPartition(n, labelOf);
  }

  /** The alerts at the given positions, in that order. */
  function Pick(alerts: seq<Alert>, members: seq<nat>): seq<Alert>
    requires forall j | 0 <= j < |members| :: members[j] < |alerts|
  {
    seq(|members|, j requires 0 <= j < |members| => alerts[members[j]])
  }

  /** One incident per group of alerts, in the order of the groups. */
  function IncidentsOf(groups: seq<seq<Alert>>, now: Timestamp, hash: string -> int): (r: seq<Incident>)
    requires forall k | 0 <= k < |groups| :: |groups[k]| > 0
    ensures |r| == |groups| && forall k | 0 <= k < |groups| :: r[k].alerts == groups[k]
  {
    seq(|groups|, k requires 0 <= k < |groups| => CreateIncident(groups[k], now, hash))
  }

  /** Each bucket's alerts, in member order. */
  function BucketAlerts(alerts: seq<Alert>, bs: seq<Bucket>): (groups: seq<seq<Alert>>)
    requires Bounded(bs, |alerts|)
    ensures |groups| == |bs| && forall k | 0 <= k < |bs| :: |groups[k]| == |bs[k].members| > 0
  {
    seq(|bs|, k requires 0 <= k < |bs| => Pick(alerts, bs[k].members))
  }

  /** One incident per bucket, made from the bucket's alerts in member order. */
  function IncidentsFromBuckets(alerts: seq<Alert>, bs: seq<Bucket>, now: Timestamp, hash: string -> int)
    : seq<Incident>
    requires Bounded(bs, |alerts|)
  {
    IncidentsOf(BucketAlerts(alerts, bs), now, hash)
  }

  /** One incident per alert, each holding only that alert. */
  function Individually(alerts: seq<Alert>, now: Timestamp, hash: string -> int): seq<Incident>
  {
    IncidentsOf(seq(|alerts|, i requires 0 <= i < |alerts| => [alerts[i]]), now, hash)
  }

  /**
   * `_correlate_alert_group`: one alert is one incident; without features
   * every alert is its own incident; otherwise one incident per bucket.
   * An empty window (never produced by the grouping) yields nothing, as
   * the source's error fallback does.
   */
  function CorrelateGroup(alerts: seq<Alert>, clustering: Clustering, now: Timestamp, hash: string -> int)
    : (r: seq<Incident>)
    ensures alerts == [] ==> r == []
    ensures |alerts| == 1 ==> r == [CreateIncident(alerts, now, hash)]
    ensures |alerts| > 1 && clustering.NoFeatures? ==> r == Individually(alerts, now, hash)
    ensures |alerts| > 1 && clustering.Labelled? ==>
              r == IncidentsFromBuckets(alerts, Buckets(|alerts|, clustering.labelOf), now, hash)
  {
    if alerts == [] then []
    else if |alerts| == 1 then assert alerts == [alerts[0]]; [CreateIncident(alerts, now, hash)]
    else match clustering
      case NoFeatures => Individually(alerts, now, hash)
      case Labelled(labelOf) =>
        BucketsPartition(|alerts|, labelOf);
        IncidentsFromBuckets(alerts, Buckets(|alerts|, labelOf), now, hash)
  }

  function AlertCount(incidents: seq<Incident>): nat
  {
    if incidents == [] then 0 else AlertCount(incidents[..|incidents| - 1]) + |incidents[|incidents| - 1].alerts|
  }

  lemma AlertCountAppend(a: seq<Incident>, b: seq<Incident>)
    ensures AlertCount(a + b) == AlertCount(a) + AlertCount(b)
    decreases |b|
  {
    if b == [] {
      assert a + b == a;
    } else {
      AlertCountAppend(a, b[..|b| - 1]);
      assert (a + b)[..|a + b| - 1] == a + b[..|b| - 1];
    }
  }

  /** Incidents whose sizes are the buckets' sizes hold all the buckets' members between them. */
  lemma {:induction false} AlertCountBySize(r: seq<Incident>, bs: seq<Bucket>)
    requires |r| == |bs| && forall k | 0 <= k < |bs| :: |r[k].alerts| == |bs[k].members|
    ensures AlertCount(r) == TotalMembers(bs)
  {
    if bs != [] {
      AlertCountBySize(r[..|r| - 1], bs[..|bs| - 1]);
    }
  }

  lemma BucketIncidentsCount(alerts: seq<Alert>, bs: seq<Bucket>, now: Timestamp, hash: string -> int)
    requires Bounded(bs, |alerts|)
    ensures AlertCount(IncidentsFromBuckets(alerts, bs, now, hash)) == TotalMembers(bs)
  {
    AlertCountBySize(IncidentsFromBuckets(alerts, bs, now, hash), bs);
  }

  /** Incidents of one alert each hold as many alerts as there are incidents. */
  lemma {:induction false} AlertCountOfSingles(r: seq<Incident>)
    requires forall k | 0 <= k < |r| :: |r[k].alerts| == 1
    ensures AlertCount(r) == |r|
  {
    if r != [] {
      AlertCountOfSingles(r[..|r| - 1]);
    }
  }

  lemma IndividuallyCount(alerts: seq<Alert>, now: Timestamp, hash: string -> int)
    ensures AlertCount(Individually(alerts, now, hash)) == |alerts|
  {
    AlertCountOfSingles(Individually(alerts, now, hash));
  }

  /** A window's incidents hold exactly as many alerts as the window. */
  lemma CorrelateGroupCount(alerts: seq<Alert>, clustering: Clustering, now: Timestamp, hash: string -> int)
    ensures AlertCount(CorrelateGroup(alerts, clustering, now, hash)) == |alerts|
  {
    if |alerts| == 1 {
      assert AlertCount([CreateIncident(alerts, now, hash)]) == 0 + |alerts|;
    } else if |alerts| > 1 {
      match clustering
      case NoFeatures => IndividuallyCount(alerts, now, hash);
      case Labelled(labelOf) =>
        BucketsPartition(|alerts|, labelOf);
        BucketIncidentsCount(alerts, Buckets(|alerts|, labelOf), now, hash);
    }
  }

  function CorrelateGroups(groups: seq<seq<Alert>>, cluster: seq<Alert> -> Clustering, now: Timestamp,
                           hash: string -> int): seq<Incident>
  {
    if groups == [] then []
    else CorrelateGroups(groups[..|groups| - 1], cluster, now, hash)
         + CorrelateGroup(groups[|groups| - 1], cluster(groups[|groups| - 1]), now, hash)
  }

  lemma {:induction false} CorrelateGroupsCount(groups: seq<seq<Alert>>, cluster: seq<Alert> -> Clustering,
                                                now: Timestamp, hash: string -> int)
    ensures AlertCount(CorrelateGroups(groups, cluster, now, hash)) == |Flatten(groups)|
  {
    if groups != [] {
      var last := groups[|groups| - 1];
      CorrelateGroupsCount(groups[..|groups| - 1], cluster, now, hash);
      AlertCountAppend(CorrelateGroups(groups[..|groups| - 1], cluster, now, hash),
                       CorrelateGroup(last, cluster(last), now, hash));
      CorrelateGroupCount(last, cluster(last), now, hash);
    }
  }

  /** `correlate_alerts`: time windows over the sorted alerts, then clusters within each window. */
  function CorrelateAlerts(alerts: seq<Alert>, cluster: seq<Alert> -> Clustering, now: Timestamp,
                           hash: string -> int): (r: seq<Incident>)
    ensures alerts == [] ==> r == []
  {
    if alerts == [] then []
    else CorrelateGroups(TimeGroups(SortBy(alerts, TimestampKey), CorrelationWindow), cluster, now, hash)
  }

  /** The incidents' alert counts add up to the input's length (see `CorrelateAlertsPreservesAlerts` for the alerts themselves). */
  lemma CorrelateAlertsCount(alerts: seq<Alert>, cluster: seq<Alert> -> Clustering, now: Timestamp,
                             hash: string -> int)
    ensures AlertCount(CorrelateAlerts(alerts, cluster, now, hash)) == |alerts|
  {
    if alerts != [] {
      var sorted := SortBy(alerts, TimestampKey);
      TimeGroupsPartition(sorted, CorrelationWindow);
      CorrelateGroupsCount(TimeGroups(sorted, CorrelationWindow), cluster, now, hash);
    }
  }
  // ------------------------------------------------ alerts are neither lost nor duplicated

  /** The incidents' alerts, one incident after another. */
  function AlertsOf(incidents: seq<Incident>): seq<Alert>
  {
    if incidents == [] then [] else AlertsOf(incidents[..|incidents| - 1]) + incidents[|incidents| - 1].alerts
  }

  lemma {:induction false} AlertsOfAppend(a: seq<Incident>, b: seq<Incident>)
    ensures AlertsOf(a + b) == AlertsOf(a) + AlertsOf(b)
    decreases |b|
  {
    if b == [] {
      assert a + b == a;
    } else {
      var init, last := b[..|b| - 1], b[|b| - 1];
      AlertsOfAppend(a, init);
      assert (a + b)[..|a + b| - 1] == a + init;
      assert (a + b)[|a + b| - 1] == last;
      calc {
        AlertsOf(a + b);
        AlertsOf(a + init) + last.alerts;
        AlertsOf(a) + AlertsOf(init) + last.alerts;
        AlertsOf(a) + (AlertsOf(init) + last.alerts);
        AlertsOf(a) + AlertsOf(b);
      }
    }
  }

  /** Incidents made group by group hold the groups' alerts, in order. */
  lemma {:induction false} AlertsOfGroups(r: seq<Incident>, groups: seq<seq<Alert>>)
    requires |r| == |groups| && forall k | 0 <= k < |groups| :: r[k].alerts == groups[k]
    ensures AlertsOf(r) == Flatten(groups)
  {
    if groups != [] {
      AlertsOfGroups(r[..|r| - 1], groups[..|groups| - 1]);
    }
  }

  /** Extending one group by `t` adds exactly `t` to the flattened multiset. */
  lemma FlattenExtend<T>(gs: seq<seq<T>>, k: nat, t: seq<T>)
    requires k < |gs|
    ensures multiset(Flatten(gs[k := gs[k] + t])) == multiset(Flatten(gs)) + multiset(t)
    decreases |gs|
  {
    var u := gs[k := gs[k] + t];
    var init := gs[..|gs| - 1];
    var last := gs[|gs| - 1];
    assert Flatten(gs) == Flatten(init) + last;
    if k < |gs| - 1 {
      FlattenExtend(init, k, t);
      assert u[..|gs| - 1] == init[k := init[k] + t];
      assert Flatten(u) == Flatten(init[k := init[k] + t]) + last;
    } else {
      assert u[..|gs| - 1] == init;
      assert Flatten(u) == Flatten(init) + (last + t);
    }
  }

  /** The alerts at `members + [i]` are those at `members`, then the alert at `i`. */
  lemma PickAppend(alerts: seq<Alert>, members: seq<nat>, i: nat)
    requires i < |alerts| && forall j | 0 <= j < |members| :: members[j] < |alerts|
    ensures Pick(alerts, members + [i]) == Pick(alerts, members) + [alerts[i]]
  {
  }

  /** Singleton groups flatten back to the sequence they were cut from. */
  lemma {:induction false} FlattenSingletons<T>(s: seq<T>)
    ensures Flatten(seq(|s|, i requires 0 <= i < |s| => [s[i]])) == s
  {
    if s != [] {
      var init := s[..|s| - 1];
      FlattenSingletons(init);
      var gs := seq(|s|, i requires 0 <= i < |s| => [s[i]]);
      assert gs[..|gs| - 1] == seq(|init|, i requires 0 <= i < |init| => [init[i]]);
      assert s == init + [s[|s| - 1]];
    }
  }

  /** Filing position `i` adds the alert at `i` to the buckets' alerts and nothing else. */
  lemma {:induction false} AddMemberAlerts(alerts: seq<Alert>, bs: seq<Bucket>, i: nat, labelOf: nat -> int)
    requires i < |alerts| && Bounded(bs, i)
    ensures Bounded(AddMember(bs, i, labelOf), |alerts|)
    ensures multiset(Flatten(BucketAlerts(alerts, AddMember(bs, i, labelOf))))
            == multiset(Flatten(BucketAlerts(alerts, bs))) + multiset{alerts[i]}
  {
    AddMemberBounded(bs, i, labelOf);
    var key := KeyOf(i, labelOf);
    var before := BucketAlerts(alerts, bs);
    var bs' := AddMember(bs, i, labelOf);
    var after := BucketAlerts(alerts, bs');
    match FindBucket(bs, key)
    case Some(k) =>
      assert bs' == bs[k := Bucket(key, bs[k].members + [i])];
      PickAppend(alerts, bs[k].members, i);
      assert after[k] == before[k] + [alerts[i]];
      assert forall j | 0 <= j < |bs| && j != k :: after[j] == before[j];
      assert after == before[k := before[k] + [alerts[i]]];
      FlattenExtend(before, k, [alerts[i]]);
    case None =>
      assert bs' == bs + [Bucket(key, [i])];
      assert after[|bs|] == [alerts[i]];
      assert forall j | 0 <= j < |bs| :: after[j] == before[j];
      assert after == before + [[alerts[i]]];
      FlattenAppend(before, [alerts[i]]);
  }

  /** The buckets for the first `k` positions stay within the alerts and hold exactly the first `k` alerts. */
  predicate HoldsPrefix(alerts: seq<Alert>, k: nat, labelOf: nat -> int)
  {
    && k <= |alerts|
    && Bounded(Buckets(k, labelOf), |alerts|)
    && multiset(Flatten(BucketAlerts(alerts, Buckets(k, labelOf)))) == multiset(alerts[..k])
  }

  /** The buckets for the first `n` positions hold exactly the first `n` alerts between them. */
  lemma BucketsHoldPrefix(alerts: seq<Alert>, n: nat, labelOf: nat -> int)
    requires n <= |alerts|
    ensures Bounded(Buckets(n, labelOf), |alerts|)
    ensures multiset(Flatten(BucketAlerts(alerts, Buckets(n, labelOf)))) == multiset(alerts[..n])
  {
    NoBucketsHoldNothing(alerts, labelOf);
    var k := 0;
    while k < n
      invariant k <= n && HoldsPrefix(alerts, k, labelOf)
    {
      BucketsStep(alerts, k, labelOf);
      k := k + 1;
    }
  }

  lemma NoBucketsHoldNothing(alerts: seq<Alert>, labelOf: nat -> int)
    ensures HoldsPrefix(alerts, 0, labelOf)
  {
    assert BucketAlerts(alerts, Buckets(0, labelOf)) == [];
  }

  lemma BucketsStep(alerts: seq<Alert>, m: nat, labelOf: nat -> int)
    requires m < |alerts| && HoldsPrefix(alerts, m, labelOf)
    ensures HoldsPrefix(alerts, m + 1, labelOf)
  {
    BucketsUnfold(m, labelOf);
    AddMemberAlerts(alerts, Buckets(m, labelOf), m, labelOf);
    PrefixStep(alerts, m);
  }

  lemma BoundedWeaken(bs: seq<Bucket>, n: nat, m: nat)
    requires Bounded(bs, n) && n <= m
    ensures Bounded(bs, m)
  {
  }

  lemma PrefixStep<T>(s: seq<T>, m: nat)
    requires m < |s|
    ensures multiset(s[..m + 1]) == multiset(s[..m]) + multiset{s[m]}
  {
    assert s[..m + 1] == s[..m] + [s[m]];
  }

  /** A window's incidents hold the window's alerts, each as often as it occurs there. */
  lemma CorrelateGroupAlerts(alerts: seq<Alert>, clustering: Clustering, now: Timestamp, hash: string -> int)
    ensures multiset(AlertsOf(CorrelateGroup(alerts, clustering, now, hash))) == multiset(alerts)
  {
    if |alerts| == 1 {
      assert AlertsOf([CreateIncident(alerts, now, hash)]) == [] + alerts;
    } else if |alerts| > 1 {
      match clustering
      case NoFeatures =>
        var singles := seq(|alerts|, i requires 0 <= i < |alerts| => [alerts[i]]);
        AlertsOfGroups(Individually(alerts, now, hash), singles);
        FlattenSingletons(alerts);
      case Labelled(labelOf) =>
        BucketsHoldPrefix(alerts, |alerts|, labelOf);
        var groups := BucketAlerts(alerts, Buckets(|alerts|, labelOf));
        AlertsOfGroups(IncidentsOf(groups, now, hash), groups);
        assert alerts[..|alerts|] == alerts;
    }
  }

  lemma {:induction false} CorrelateGroupsAlerts(groups: seq<seq<Alert>>, cluster: seq<Alert> -> Clustering,
                                                 now: Timestamp, hash: string -> int)
    ensures multiset(AlertsOf(CorrelateGroups(groups, cluster, now, hash))) == multiset(Flatten(groups))
  {
    if groups != [] {
      var last := groups[|groups| - 1];
      CorrelateGroupsAlerts(groups[..|groups| - 1], cluster, now, hash);
      AlertsOfAppend(CorrelateGroups(groups[..|groups| - 1], cluster, now, hash),
                     CorrelateGroup(last, cluster(last), now, hash));
      CorrelateGroupAlerts(last, cluster(last), now, hash);
    }
  }

  /** Every input alert lands in exactly as many incidents as it occurs in the input, and no other alert appears. */
  lemma CorrelateAlertsPreservesAlerts(alerts: seq<Alert>, cluster: seq<Alert> -> Clustering, now: Timestamp,
                                       hash: string -> int)
    ensures multiset(AlertsOf(CorrelateAlerts(alerts, cluster, now, hash))) == multiset(alerts)
  {
    if alerts != [] {
      var sorted := SortBy(alerts, TimestampKey);
      TimeGroupsPartition(sorted, CorrelationWindow);
      CorrelateGroupsAlerts(TimeGroups(sorted, CorrelationWindow), cluster, now, hash);
    }
  }
}
