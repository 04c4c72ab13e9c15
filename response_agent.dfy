/** The response stage: simulated containment actions, notifications and an incident ticket
    for one decided alert. */
module ResponseAgent {
  import opened Wrappers
  import opened Text
  import opened JsonValue
  import opened External
  import opened Context
  import opened ResponseParsing
  import opened Prompting

  const AgentName := "response_agent"
  const NoDecisionMessage := "Cannot execute response without decision"

  // ---------------------------------------------------------------- simulated actions

  /** The three lists `_simulate_actions` returns. */
  datatype Simulated = Simulated(actionsTaken: seq<string>, notifications: seq<string>, automations: seq<string>)

  const NoDecisionActions: seq<string> := ["Alert processed without decision"]

  const P1Actions: seq<string> := [
    "Created P1 critical incident ticket",
    "Sent emergency notifications to SOC team and on-call IR",
    "Initiated automated containment procedures"
  ]
  const P1Notifications: seq<string> := [
    "SOC Team Lead (SMS + Email)",
    "On-call IR Team (PagerDuty)",
    "CISO (Email)",
    "Asset Owner (Email)"
  ]
  const P1Automations: seq<string> := [
    "Firewall block rule created",
    "Affected accounts disabled",
    "Enhanced monitoring enabled"
  ]

  const P2Actions: seq<string> := [
    "Created P2 high-priority incident ticket",
    "Notified SOC team and security analysts",
    "Scheduled incident response meeting"
  ]
  const P2Notifications: seq<string> := ["SOC Team (Email + Slack)", "Senior Security Analyst", "Asset Owner"]
  const P2Automations: seq<string> := ["IP reputation check completed", "Enhanced logging enabled"]

  const P3Actions: seq<string> := [
    "Created P3 monitoring ticket",
    "Added to analyst queue",
    "Scheduled follow-up review"
  ]
  const P3Notifications: seq<string> := ["SOC Team (Email)", "Assigned Analyst"]
  const P3Automations: seq<string> := ["Watchlist entry created", "Monitoring alert configured"]

  const P4Actions: seq<string> := ["Created P4 tracking ticket", "Added to monitoring dashboard"]
  const P4Notifications: seq<string> := ["Daily digest (SOC Team)"]
  const P4Automations: seq<string> := ["Metrics updated"]

  const P5Actions: seq<string> := ["Alert closed as false positive", "Detection rule tuning recommended"]
  const P5Notifications: seq<string> := ["No immediate notifications"]
  const P5Automations: seq<string> := ["False positive counter updated", "Rule optimization queued"]

  /** The per-priority branch of `_simulate_actions`; P5 is its final `else`. */
  function ActionsFor(p: Priority): Simulated {
    match p
    case P1 => Simulated(P1Actions, P1Notifications, P1Automations)
    case P2 => Simulated(P2Actions, P2Notifications, P2Automations)
    case P3 => Simulated(P3Actions, P3Notifications, P3Automations)
    case P4 => Simulated(P4Actions, P4Notifications, P4Automations)
    case P5 => Simulated(P5Actions, P5Notifications, P5Automations)
  }

  /** `_simulate_actions(state)` on the record's decision. */
  function SimulateActions(decision: Option<DecisionResult>): Simulated {
    if decision.None? then Simulated(NoDecisionActions, [], []) else ActionsFor(decision.value.priority)
  }

  /** Without a decision only the placeholder action is reported; with one, every priority
      yields at least one action, one notification and one automation. */
  lemma SimulateActionsTotal(decision: Option<DecisionResult>)
    ensures decision.None? ==> SimulateActions(decision) == Simulated(["Alert processed without decision"], [], [])
    ensures decision.Some? ==>
              var r := SimulateActions(decision);
              r.actionsTaken != [] && r.notifications != [] && r.automations != []
  {
  }

  /** Every priority but P5 opens a ticket named after the priority as its first action;
      P5 closes the alert instead. */
  lemma FirstActionOpensTicket(p: Priority)
    ensures p != P5 ==> |ActionsFor(p).actionsTaken[0]| >= 10
                        && ActionsFor(p).actionsTaken[0][..10] == "Created " + p.Value()
    ensures p == P5 ==> ActionsFor(p).actionsTaken[0] == "Alert closed as false positive"
  {
    var first := ActionsFor(p).actionsTaken[0];
    match p
    case P1 => assert first == P1Actions[0];
    case P2 => assert first == P2Actions[0];
    case P3 => assert first == P3Actions[0];
    case P4 => assert first == P4Actions[0];
    case P5 =>
  }

  // ---------------------------------------------------------------- merging

  /** `xs` with every repeated element dropped after its first occurrence. */
  function Dedup(xs: seq<string>): seq<string> {
    if xs == [] then []
    else
      var init := xs[..|xs| - 1];
      if xs[|xs| - 1] in init then Dedup(init) else Dedup(init) + [xs[|xs| - 1]]
  }

  predicate NoDuplicates(xs: seq<string>) {
    forall i, j :: 0 <= i < j < |xs| ==> xs[i] != xs[j]
  }

  /** Dedup keeps exactly the elements of its input, each once. */
  lemma {:induction false} DedupIsSet(xs: seq<string>)
    ensures forall x :: x in Dedup(xs) <==> x in xs
    ensures NoDuplicates(Dedup(xs))
  {
    if xs != [] {
      var init := xs[..|xs| - 1];
      var last := xs[|xs| - 1];
      DedupIsSet(init);
      assert xs == init + [last];
    }
  }

  /** `list(set(parsed + simulated))`, in first-occurrence order. */
  function MergeLists(parsed: seq<string>, simulated: seq<string>): seq<string> {
    Dedup(parsed + simulated)
  }

  /** A merged list holds each element of either list exactly once, and nothing else. */
  lemma MergeListsIsUnion(parsed: seq<string>, simulated: seq<string>)
    ensures forall x :: x in MergeLists(parsed, simulated) <==> x in parsed || x in simulated
    ensures NoDuplicates(MergeLists(parsed, simulated))
  {
    DedupIsSet(parsed + simulated);
  }

  // ---------------------------------------------------------------- ticket and action text

  /** `_generate_ticket_id()`: "INC-", the date, "-" and the first eight characters of the
      uuid upper-cased. */
  function GenerateTicketId(date: string, uuid: string): string {
    "INC-" + date + "-" + Upper(Take(uuid, 8))
  }

  /** A ticket generated from an eight-character date and a uuid of at least eight
      characters has 21 characters: the prefix, the date, a dash and the upper-cased uuid head. */
  lemma TicketIdShape(date: string, uuid: string)
    requires |date| == 8 && |uuid| >= 8
    ensures var t := GenerateTicketId(date, uuid);
            |t| == 21 && t[..4] == "INC-" && t[4..12] == date && t[12] == '-'
            && t[13..] == Upper(uuid[..8])
            && forall i :: 13 <= i < 21 ==> !('a' <= t[i] <= 'z')
  {
    var t := GenerateTicketId(date, uuid);
    assert t == "INC-" + date + "-" + Upper(uuid[..8]);
    forall i | 13 <= i < 21
      ensures !('a' <= t[i] <= 'z')
    {
      assert t[i] == UpperChar(uuid[i - 13]);
    }
  }

  const NoActionsText := "No specific actions recommended"

  /** The lines `"1. a1"`, `"2. a2"`, ... of `_format_recommended_actions`. */
  function NumberedLines(actions: seq<string>): (r: seq<string>)
    ensures |r| == |actions|
  {
    if actions == [] then []
    else NumberedLines(actions[..|actions| - 1]) + [NatToString(|actions|) + ". " + actions[|actions| - 1]]
  }

  /** Line `i` numbers action `i` from one. */
  lemma {:induction false} NumberedLineAt(actions: seq<string>, i: nat)
    requires i < |actions|
    ensures NumberedLines(actions)[i] == NatToString(i + 1) + ". " + actions[i]
  {
    var init := actions[..|actions| - 1];
    if i < |init| {
      NumberedLineAt(init, i);
      assert actions[i] == init[i];
    }
  }

  /** `_format_recommended_actions(actions)` as a value. */
  function RecommendedActionsText(actions: seq<string>): string {
    if actions == [] then NoActionsText else Join(NumberedLines(actions), "\n")
  }

  /** The placeholder appears exactly for an empty list: a numbered text starts with a digit. */
  lemma RecommendedActionsPlaceholderIff(actions: seq<string>)
    ensures RecommendedActionsText(actions) == NoActionsText <==> actions == []
  {
    if actions != [] {
      var lines := NumberedLines(actions);
      NumberedLineAt(actions, 0);
      JoinStartsWithFirst(lines, "\n");
      var text := Join(lines, "\n");
      assert text[0] == lines[0][0] == NatToString(1)[0];
      assert IsDigit(text[0]);
      assert NoActionsText[0] == 'N';
    }
  }

  /** `_format_recommended_actions(actions)`: the placeholder for no actions, otherwise a loop
      that numbers each action, joined with newlines. */
  method FormatRecommendedActions(actions: seq<string>) returns (r: string)
    ensures r == RecommendedActionsText(actions)
  {
    if |actions| == 0 {
      return NoActionsText;
    }
    var formatted: seq<string> := [];
    var i := 0;
    while i < |actions|
      invariant 0 <= i <= |actions|
      invariant formatted == NumberedLines(actions[..i])
    {
      assert actions[..i + 1][..i] == actions[..i];
      formatted := formatted + [NatToString(i + 1) + ". " + actions[i]];
      i := i + 1;
    }
    assert actions[..i] == actions;
    return Join(formatted, "\n");
  }

  // ---------------------------------------------------------------- decoding

  /** `result_dict.get(key, [])` as the list of strings ResponseResult accepts. */
  function ParsedList(d: map<string, Json>, key: string): (r: Result<seq<string>>)
    ensures key !in d ==> r == Ok([])
    ensures key in d ==> (r.Ok? <==> AsStrings(d[key]).Some?)
    ensures key in d && r.Ok? ==> r.value == AsStrings(d[key]).value
  {
    if key !in d then Ok([]) else StrListField("ResponseResult", key, d[key])
  }

  /** `result_dict.get(key, default)` as a string field of ResponseResult. */
  function TextOr(d: map<string, Json>, key: string, default: string): (r: Result<string>)
    ensures key !in d ==> r == Ok(default)
    ensures key in d ==> (r.Ok? <==> d[key].JStr?)
    ensures key in d && r.Ok? ==> r.value == d[key].s
  {
    if key !in d then Ok(default) else StrField("ResponseResult", key, d[key])
  }

  /** The ticket rule: none for P5; otherwise the parsed `ticket_id` when it is truthy, or a
      generated one. */
  function TicketFor(env: Environment, d: map<string, Json>, p: Priority): (r: Result<Option<string>>)
    ensures p == P5 ==> r == Ok(None)
    ensures p != P5 && r.Ok? ==> r.value.Some?
    ensures p != P5 && !Truthy(GetOr(d, "ticket_id", JNull)) ==>
              r == Ok(Some(GenerateTicketId(env.ticketDate, env.ticketUuid)))
    ensures p != P5 && GetOr(d, "ticket_id", JNull).JStr? && Truthy(GetOr(d, "ticket_id", JNull)) ==>
              r == Ok(Some(GetOr(d, "ticket_id", JNull).s))
  {
    if p == P5 then Ok(None)
    else
      var given := GetOr(d, "ticket_id", JNull);
      if !Truthy(given) then Ok(Some(GenerateTicketId(env.ticketDate, env.ticketUuid)))
      else if given.JStr? then Ok(Some(given.s))
      else Raise(ValidationError("ResponseResult", "ticket_id"))
  }

  const DefaultStatus := "COMPLETED"
  const DefaultSummary := "Alert processed successfully"

  /** The reasoning path's ResponseResult: each list merged with the simulated one, the ticket
      rule, and `status` and `summary` with their defaults. */
  function Decode(env: Environment, parsed: Json, p: Priority, simulated: Simulated, timestamp: string)
    : (r: Result<ResponseResult>)
    ensures r.Ok? ==> parsed.JObj?
    ensures r.Ok? ==> (r.value.ticketId.None? <==> p == P5)
    ensures r.Ok? ==> r.value.timestamp == timestamp
    ensures r.Ok? && "status" !in parsed.fields ==> r.value.status == "COMPLETED"
    ensures r.Ok? && "summary" !in parsed.fields ==> r.value.summary == "Alert processed successfully"
    ensures r.Ok? ==> TicketFor(env, parsed.fields, p) == Ok(r.value.ticketId)
    ensures r.Ok? && "status" in parsed.fields ==> parsed.fields["status"] == JStr(r.value.status)
    ensures r.Ok? && "summary" in parsed.fields ==> parsed.fields["summary"] == JStr(r.value.summary)
  {
    var d :- AsObject(parsed);
    var actions :- ParsedList(d, "actions_taken");
    var notifications :- ParsedList(d, "notifications_sent");
    var automations :- ParsedList(d, "automation_applied");
    var ticket :- TicketFor(env, d, p);
    var status :- TextOr(d, "status", DefaultStatus);
    var summary :- TextOr(d, "summary", DefaultSummary);
    Ok(ResponseResult(MergeLists(actions, simulated.actionsTaken), ticket,
                      MergeLists(notifications, simulated.notifications),
                      MergeLists(automations, simulated.automations), status, summary, timestamp))
  }

  /** Each decoded list, as a set, is the parsed list together with the simulated one, and a
      missing parsed list contributes nothing. */
  lemma DecodeMergesLists(env: Environment, parsed: Json, p: Priority, simulated: Simulated, timestamp: string)
    requires Decode(env, parsed, p, simulated, timestamp).Ok?
    ensures var r := Decode(env, parsed, p, simulated, timestamp).value;
            var d := parsed.fields;
            && (forall x :: x in r.actionsTaken <==> x in ParsedList(d, "actions_taken").value || x in simulated.actionsTaken)
            && (forall x :: x in r.notificationsSent <==>
                  x in ParsedList(d, "notifications_sent").value || x in simulated.notifications)
            && (forall x :: x in r.automationApplied <==>
                  x in ParsedList(d, "automation_applied").value || x in simulated.automations)
            && NoDuplicates(r.actionsTaken) && NoDuplicates(r.notificationsSent) && NoDuplicates(r.automationApplied)
  {
    var d := parsed.fields;
    MergeListsIsUnion(ParsedList(d, "actions_taken").value, simulated.actionsTaken);
    MergeListsIsUnion(ParsedList(d, "notifications_sent").value, simulated.notifications);
    MergeListsIsUnion(ParsedList(d, "automation_applied").value, simulated.automations);
  }

  // ---------------------------------------------------------------- the stage

  /** `alert.rule_name or alert.rule_id`. */
  function RuleNameOrId(alert: Alert): (r: string)
    ensures alert.ruleName.Some? && alert.ruleName.value != "" ==> r == alert.ruleName.value
    ensures alert.ruleName.None? || alert.ruleName.value == "" ==> r == alert.ruleId
  {
    if alert.ruleName.Some? && alert.ruleName.value != "" then alert.ruleName.value else alert.ruleId
  }

  /** The variables the response prompt is filled with. */
  function PromptFor(env: Environment, alert: Alert, decision: DecisionResult, recommended: string)
    : (v: PromptVars)
    ensures v.ResponsePrompt? && v.alertId == alert.alertId && v.severity == alert.severity.Value()
    ensures alert.ruleName.None? || alert.ruleName.value == "" ==> v.ruleName == alert.ruleId
    ensures alert.ruleName.Some? && alert.ruleName.value != "" ==> v.ruleName == alert.ruleName.value
    ensures ShownOrNA(alert.assets.host, v.host) && ShownOrNA(alert.assets.sourceIp, v.sourceIp)
    ensures ShownOrNA(alert.assets.user, v.user) && v.recommendedActions == recommended
    ensures v.finalVerdict == decision.finalVerdict.Value() && v.priority == decision.priority.Value()
  {
    ResponsePrompt(alert.alertId, RuleNameOrId(alert), alert.severity.Value(), OrNA(alert.assets.host),
                   OrNA(alert.assets.sourceIp), OrNA(alert.assets.user), decision.finalVerdict.Value(),
                   decision.priority.Value(), Render(env, JNum(decision.confidence)),
                   Render(env, JBool(decision.escalationRequired)), decision.estimatedImpact,
                   recommended, decision.rationale)
  }

  const FallbackActions: seq<string> := ["Block IP 192.168.1.1", "Create incident ticket"]
  const FallbackNotifications: seq<string> := ["SOC Team notified", "Incident response team alerted"]
  const FallbackAutomations: seq<string> := ["Firewall rule created", "Account monitoring enabled"]
  const FallbackSummary := "Alert processed successfully with automated response actions"

  /** The fixed result used when reasoning is disabled; it carries a ticket whatever the
      priority. */
  function FallbackResult(ticket: string, timestamp: string): (r: ResponseResult)
    ensures r.ticketId == Some(ticket) && r.status == "COMPLETED"
  {
    ResponseResult(FallbackActions, Some(ticket), FallbackNotifications, FallbackAutomations,
                   DefaultStatus, FallbackSummary, timestamp)
  }

  /** The reasoning path of `execute`: prompt, reply, parse, then merge with the simulated
      actions of the decision's priority. */
  function Assess(env: Environment, alert: Alert, decision: DecisionResult, recommended: string)
    : (r: Result<ResponseResult>)
    ensures r.Ok? ==> (r.value.ticketId.None? <==> decision.priority == P5)
    ensures r.Ok? ==> r.value.timestamp == Clock(env, Respond)
  {
    var parsed :- Reason(env, Respond, PromptFor(env, alert, decision, recommended), "response agent output");
    Decode(env, parsed, decision.priority, SimulateActions(Some(decision)), Clock(env, Respond))
  }

  /** `execute(state)` on the record as a value: the no-decision guard, or the response proper. */
  function ExecuteSpec(s: WorkflowState, env: Environment): (r: StageRun)
    ensures s.decisionResult.None? ==>
              r == StageRun(s.(status := AlertStatus.Failed, currentAgent := Some(AgentName),
                               errors := s.errors + [NoDecisionMessage]), Returned)
    ensures s.decisionResult.Some? ==>
              r == RespondSpec(s.(status := Responding, currentAgent := Some(AgentName)), env)
  {
    var s1 := s.(status := Responding, currentAgent := Some(AgentName));
    if s1.decisionResult.None? then StageRun(s1.(errors := s1.errors + [NoDecisionMessage], status := AlertStatus.Failed), Returned)
    else RespondSpec(s1, env)
  }

  /** The part of `execute` past the guard, as a value: the fallback result, or the
      reasoning path. */
  function RespondSpec(s: WorkflowState, env: Environment): (r: StageRun)
    requires s.decisionResult.Some?
    ensures !s.enableAi ==>
              r == StageRun(s.(responseResult := Some(FallbackResult(GenerateTicketId(env.ticketDate, env.ticketUuid),
                                                                     Clock(env, Respond))),
                               status := Completed), Returned)
    ensures s.enableAi ==> r == ReasonedSpec(s, env)
  {
    if !s.enableAi then
      var result := FallbackResult(GenerateTicketId(env.ticketDate, env.ticketUuid), Clock(env, Respond));
      StageRun(s.(responseResult := Some(result), status := Completed), Returned)
    else ReasonedSpec(s, env)
  }

  /** The reasoning path, as a value: the assessed result followed by the completion time and
      the processing time, or a raise. */
  function ReasonedSpec(s: WorkflowState, env: Environment): (r: StageRun)
    requires s.decisionResult.Some?
    ensures r.state == s.(status := r.state.status, responseResult := r.state.responseResult,
                          completedAt := r.state.completedAt,
                          processingTimeSeconds := r.state.processingTimeSeconds)
    ensures r.outcome.Returned? ==>
              && r.state.status == Completed
              && r.state.responseResult.Some?
              && (r.state.responseResult.value.ticketId.None? <==> s.decisionResult.value.priority == P5)
              && r.state.completedAt == Some(Clock(env, Respond))
              && r.state.processingTimeSeconds.Some?
    ensures r.state.responseResult.None? ==> r.outcome.Raised? && r.state == s
  {
    var decision := s.decisionResult.value;
    CompletionSpec(s, env, Assess(env, s.alert, decision, RecommendedActionsText(decision.recommendedActions)))
  }

  /** What follows the assessment: a raise leaves the record as it is; a result is stored,
      the stage completes, and the completion and processing times are recorded. */
  function CompletionSpec(s: WorkflowState, env: Environment, assessed: Result<ResponseResult>): (r: StageRun)
    ensures r.state == s.(status := r.state.status, responseResult := r.state.responseResult,
                          completedAt := r.state.completedAt,
                          processingTimeSeconds := r.state.processingTimeSeconds)
    ensures assessed.Raise? ==> r == StageRun(s, Raised(assessed.message))
    ensures assessed.Ok? ==> r.state.responseResult == Some(assessed.value) && r.state.status == Completed
                             && r.state.completedAt == Some(Clock(env, Respond))
    ensures r.outcome.Returned? <==> assessed.Ok? && env.elapsed(s.startedAt, Clock(env, Respond)).Ok?
    ensures r.outcome.Returned? ==> r.state.processingTimeSeconds == Some(env.elapsed(s.startedAt, Clock(env, Respond)).value)
  {
    match assessed
    case Raise(m) => StageRun(s, Raised(m))
    case Ok(result) =>
      var done := s.(responseResult := Some(result), status := Completed, completedAt := Some(Clock(env, Respond)));
      match env.elapsed(s.startedAt, Clock(env, Respond))
      case Raise(m) => StageRun(done, Raised(m))
      case Ok(seconds) => StageRun(done.(processingTimeSeconds := Some(seconds)), Returned)
  }

  /** `ResponseAgent.execute`: marks the record as responding; without a decision, records the
      error, fails and returns; otherwise responds. */
  method Execute(state: WorkflowRecord, env: Environment) returns (outcome: Outcome)
    modifies state
    ensures StageRun(state.View(), outcome) == ExecuteSpec(old(state.View()), env)
  {
    state.status := Responding;
    state.currentAgent := Some(AgentName);
    if state.decisionResult.None? {
      state.errors := state.errors + [NoDecisionMessage];
      state.status := AlertStatus.Failed;
      return Returned;
    }
    outcome := RespondToDecision(state, env);
  }

  /** The body of `execute` past the guard: formats the recommended actions, then stores the
      fallback result and completes, or takes the reasoning path. */
  method RespondToDecision(state: WorkflowRecord, env: Environment) returns (outcome: Outcome)
    requires state.decisionResult.Some?
    modifies state
    ensures StageRun(state.View(), outcome) == RespondSpec(old(state.View()), env)
  {
    var decision := state.decisionResult.value;
    var recommended := FormatRecommendedActions(decision.recommendedActions);
    if !state.enableAi {
      state.responseResult := Some(FallbackResult(GenerateTicketId(env.ticketDate, env.ticketUuid), Clock(env, Respond)));
      state.status := Completed;
      return Returned;
    }
    var assessed := Assess(env, state.alert, decision, recommended);
    outcome := CompleteResponse(state, env, assessed);
  }

  /** The end of the reasoning path: stores the assessed result, completes, stamps the
      completion time and computes the processing time, or raises. */
  method CompleteResponse(state: WorkflowRecord, env: Environment, assessed: Result<ResponseResult>)
    returns (outcome: Outcome)
    modifies state
    ensures StageRun(state.View(), outcome) == CompletionSpec(old(state.View()), env, assessed)
  {
    if assessed.Raise? {
      return Raised(assessed.message);
    }
    state.responseResult := Some(assessed.value);
    state.status := Completed;
    state.completedAt := Some(Clock(env, Respond));
    var seconds := env.elapsed(state.startedAt, state.completedAt.value);
    if seconds.Raise? {
      return Raised(seconds.message);
    }
    state.processingTimeSeconds := Some(seconds.value);
    return Returned;
  }
}
