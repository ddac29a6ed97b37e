/**
 * The escalation manager: four rules tried in order, each a condition on
 * the incident and a delay the incident's age must reach, and escalation
 * itself, which marks the incident and notifies three channels.
 *
 * Sending a notification is an oracle `send` from channel to completion;
 * the manager records a failed notice for a channel whose send raised.
 */
module Escalation {
  import opened Text
  import opened Interfaces
  import opened BaseAgents
  import opened Incidents

  /** The conditions the default rules test. */
  datatype Condition =
    | SeverityIs(severity: string)
    | AwaitingAutomation             // not resolved automatically and still open
    | RunningLongerThan(seconds: int)

  datatype Rule = Rule(name: string, condition: Condition, delay: int, notificationLevel: string)

  const CriticalRule := ("Critical Incident " + "Immediate Escalation")
  const HighRule := "High Severity Escalation"
  const AutomationRule := ("Failed Automation " + "Escalation")
  const LongRunningRule := "Long Running Incident"

  function DefaultRules(): seq<Rule>
  {
    [Rule(CriticalRule, SeverityIs("critical"), 0, "critical"),
     Rule(HighRule, SeverityIs("high"), 300, "high"),
     Rule(AutomationRule, AwaitingAutomation, 900, "medium"),
     Rule(LongRunningRule, RunningLongerThan(1800), 0, "high")]
  }

  /** The incident's age in seconds: up to its resolution if it has one, else up to now. */
  function Duration(incident: Incident, now: Timestamp): (d: int)
    ensures incident.resolvedAt.Some? ==> d == incident.resolvedAt.value - incident.detectedAt
    ensures incident.resolvedAt.None? ==> d == now - incident.detectedAt
  {
    match incident.resolvedAt
    case Some(t) => t - incident.detectedAt
    case None => now - incident.detectedAt
  }

  predicate Holds(c: Condition, incident: Incident, now: Timestamp)
  {
    match c
    case SeverityIs(s) => incident.severity == s
    case AwaitingAutomation => !incident.automatedResolution && incident.status == Open
    case RunningLongerThan(t) => Duration(incident, now) > t
  }

  /** A rule fires when its condition holds and the incident is at least as old as its delay. */
  predicate Fires(r: Rule, incident: Incident, now: Timestamp)
  {
    Holds(r.condition, incident, now) && Duration(incident, now) >= r.delay
  }

  /** The index of the first rule that fires. */
  function FirstFiring(rules: seq<Rule>, incident: Incident, now: Timestamp): (r: Option<nat>)
    ensures r.Some? ==> r.value < |rules| && Fires(rules[r.value], incident, now)
    ensures r.Some? ==> forall j | 0 <= j < r.value :: !Fires(rules[j], incident, now)
    ensures r.None? ==> forall j | 0 <= j < |rules| :: !Fires(rules[j], incident, now)
  {
    if rules == [] then None
    else if Fires(rules[0], incident, now) then Some(0)
    else match FirstFiring(rules[1..], incident, now)
      case None => None
      case Some(k) => Some(k + 1)
  }

  /** `should_escalate`: whether some rule fires, and the name of the first one (empty when none). */
  function ShouldEscalate(rules: seq<Rule>, incident: Incident, now: Timestamp): (r: (bool, string))
    ensures !r.0 ==> r.1 == ""
  {
    match FirstFiring(rules, incident, now)
    case None => (false, "")
    case Some(i) => (true, rules[i].name)
  }

  /** Escalation is decided by the first rule that fires, in rule order, and only when one does. */
  lemma ShouldEscalateFirstRule(rules: seq<Rule>, incident: Incident, now: Timestamp)
    ensures var r := ShouldEscalate(rules, incident, now);
            && (r.0 <==> exists i | 0 <= i < |rules| :: Fires(rules[i], incident, now))
            && (r.0 ==> exists i | 0 <= i < |rules| ::
                          Fires(rules[i], incident, now) && r.1 == rules[i].name
                          && forall j | 0 <= j < i :: !Fires(rules[j], incident, now))
  {
  }

  /** A critical incident escalates at once under the first rule. */
  lemma CriticalEscalatesImmediately(incident: Incident, now: Timestamp)
    requires incident.severity == "critical" && Duration(incident, now) >= 0
    ensures ShouldEscalate(DefaultRules(), incident, now) == (true, CriticalRule)
  {
    assert Fires(DefaultRules()[0], incident, now);
  }

  /** A high-severity incident that is not awaiting automation waits five minutes, then escalates under its rule. */
  lemma HighSeverityWaitsFiveMinutes(incident: Incident, now: Timestamp)
    requires incident.severity == "high" && (incident.automatedResolution || incident.status == Resolved)
    requires 0 <= Duration(incident, now) <= 1800
    ensures ShouldEscalate(DefaultRules(), incident, now).0 <==> Duration(incident, now) >= 300
    ensures Duration(incident, now) >= 300 ==> ShouldEscalate(DefaultRules(), incident, now).1 == HighRule
  {
    var rules := DefaultRules();
    assert !Fires(rules[0], incident, now) && !Fires(rules[2], incident, now) && !Fires(rules[3], incident, now);
    if Duration(incident, now) >= 300 {
      assert Fires(rules[1], incident, now);
    }
  }

  /** An open low-severity incident not resolved by automation escalates after fifteen minutes, under the automation rule. */
  lemma OpenIncidentWaitsFifteenMinutes(incident: Incident, now: Timestamp)
    requires incident.severity == "low" && incident.status == Open && !incident.automatedResolution
    requires 0 <= Duration(incident, now)
    ensures ShouldEscalate(DefaultRules(), incident, now).0 <==> Duration(incident, now) >= 900
    ensures Duration(incident, now) >= 900 ==> ShouldEscalate(DefaultRules(), incident, now).1 == AutomationRule
  {
    var rules := DefaultRules();
    assert !Fires(rules[0], incident, now) && !Fires(rules[1], incident, now);
    if Duration(incident, now) >= 900 {
      assert Fires(rules[2], incident, now);
    } else {
      assert !Fires(rules[2], incident, now) && !Fires(rules[3], incident, now);
    }
  }

  /** No rule ever fires for an incident younger than zero seconds (a clock running backwards). */
  lemma NegativeAgeNeverEscalates(incident: Incident, now: Timestamp)
    requires Duration(incident, now) < 0
    ensures ShouldEscalate(DefaultRules(), incident, now) == (false, "")
  {
    var rules := DefaultRules();
    assert forall j | 0 <= j < |rules| :: rules[j].delay >= 0;
  }

  // ------------------------------------------------------ escalating

  const Channels: seq<string> := ["slack", "email", "pagerduty"]

  /** The notice for one channel, by whether its send raised. */
  function NotificationFor(channel: string, incidentId: string, reason: string, now: Timestamp,
                           sent: Completion): (n: Notification)
    ensures n.channel == channel && n.sentAt == now
    ensures n.success <==> sent.Done?
    ensures sent.Done? ==> n.message == Some("Incident " + incidentId + " escalated: " + reason) && n.error == None
    ensures sent.Raised? ==> n.message == None && n.error == Some(sent.error)
  {
    match sent
    case Done => Notification(channel, now, true, Some("Incident " + incidentId + " escalated: " + reason), None)
    case Raised(e) => Notification(channel, now, false, None, Some(e))
  }

  /** One notice per channel, in channel order; each depends only on its own channel's send. */
  function Notices(incidentId: string, reason: string, now: Timestamp, send: string -> Completion)
    : (ns: seq<Notification>)
    ensures |ns| == |Channels|
  {
    seq(|Channels|, i requires 0 <= i < |Channels| =>
                      NotificationFor(Channels[i], incidentId, reason, now, send(Channels[i])))
  }

  /** The loop of `_send_escalation_notifications`; a raising send is recorded and the loop goes on. */
  method SendNotifications(incidentId: string, reason: string, now: Timestamp, send: string -> Completion)
    returns (ns: seq<Notification>)
    ensures ns == Notices(incidentId, reason, now, send)
  {
    ns := [];
    var i := 0;
    while i < |Channels|
      invariant 0 <= i <= |Channels| && |ns| == i
      invariant forall j | 0 <= j < i :: ns[j] == NotificationFor(Channels[j], incidentId, reason, now, send(Channels[j]))
    {
      ns := ns + [NotificationFor(Channels[i], incidentId, reason, now, send(Channels[i]))];
      i := i + 1;
    }
  }

  /** The incident after escalation: marked escalated, with the reason and time in its metadata. */
  function Escalated(incident: Incident, reason: string, now: Timestamp): (r: Incident)
    ensures r.escalated && r.meta.escalationReason == Some(reason) && r.meta.escalatedAt == Some(now)
    ensures r.id == incident.id && r.status == incident.status && r.severity == incident.severity
    ensures r.meta.resolutionAttempts == incident.meta.resolutionAttempts
  {
    incident.(escalated := true, meta := incident.meta.(escalationReason := Some(reason), escalatedAt := Some(now)))
  }

  /**
   * The record `escalate_incident` returns. It reports success whenever
   * some notice exists, not when one was delivered, so with three
   * channels it always reports success.
   */
  function EscalationOf(incident: Incident, reason: string, now: Timestamp, send: string -> Completion)
    : (r: EscalationResult)
    ensures r.success && |r.notifications| == |Channels|
    ensures r.incidentId == incident.id && r.reason == reason && r.escalatedAt == now
  {
    var ns := Notices(incident.id, reason, now, send);
    EscalationResult(incident.id, now, reason, ns, |ns| > 0)
  }

  /** `escalate_incident`: marks the incident and sends the notices. */
  method EscalateIncident(incident: Incident, reason: string, now: Timestamp, send: string -> Completion)
    returns (updated: Incident, result: EscalationResult)
    ensures updated == Escalated(incident, reason, now)
    ensures result == EscalationOf(incident, reason, now, send)
  {
    updated := Escalated(incident, reason, now);
    var ns := SendNotifications(incident.id, reason, now, send);
    result := EscalationResult(incident.id, now, reason, ns, |ns| > 0);
  }

  /** Escalation reports success even when every channel failed. */
  lemma EscalationSucceedsWhenEverySendFails(incident: Incident, reason: string, now: Timestamp,
                                             send: string -> Completion)
    requires forall c :: send(c).Raised?
    ensures EscalationOf(incident, reason, now, send).success
    ensures forall n | n in EscalationOf(incident, reason, now, send).notifications :: !n.success
  {
    var ns := EscalationOf(incident, reason, now, send).notifications;
    forall n | n in ns ensures !n.success {
      var i :| 0 <= i < |ns| && ns[i] == n;
      assert send(Channels[i]).Raised?;
    }
  }
}
