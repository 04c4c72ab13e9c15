/** The shared data model: enumerations, the four stage results with their field bounds,
    the alert, and the workflow record threaded through the stages. */
module Context {
  import opened Wrappers
  import opened JsonValue

  // ---------------------------------------------------------------- enumerations

  datatype AlertSeverity = Critical | High | Medium | Low | Info {
    function Value(): string {
      match this
      case Critical => "critical"
      case High => "high"
      case Medium => "medium"
      case Low => "low"
      case Info => "info"
    }
  }

  datatype AlertStatus = New | Triaging | Investigating | Deciding | Responding | Completed | Failed {
    function Value(): string {
      match this
      case New => "new"
      case Triaging => "triaging"
      case Investigating => "investigating"
      case Deciding => "deciding"
      case Responding => "responding"
      case Completed => "completed"
      case Failed => "failed"
    }
  }

  const Statuses: seq<AlertStatus> :=
    [New, Triaging, Investigating, Deciding, Responding, Completed, Failed]

  /** AlertStatus has exactly seven members, with seven distinct values. */
  lemma StatusesAreExactlySeven()
    ensures forall s: AlertStatus :: s in Statuses
    ensures |Statuses| == 7
    ensures forall i, j :: 0 <= i < j < |Statuses| ==> Statuses[i].Value() != Statuses[j].Value()
  {
    forall s: AlertStatus ensures s in Statuses {
      match s
      case New => assert Statuses[0] == s;
      case Triaging => assert Statuses[1] == s;
      case Investigating => assert Statuses[2] == s;
      case Deciding => assert Statuses[3] == s;
      case Responding => assert Statuses[4] == s;
      case Completed => assert Statuses[5] == s;
      case Failed => assert Statuses[6] == s;
    }
  }

  datatype Verdict = TruePositive | FalsePositive | Benign | Suspicious | Unknown {
    function Value(): string {
      match this
      case TruePositive => "true_positive"
      case FalsePositive => "false_positive"
      case Benign => "benign"
      case Suspicious => "suspicious"
      case Unknown => "unknown"
    }
  }

  /** `Verdict(value)`: the member whose value is exactly `value`, or a ValueError. */
  function VerdictOf(value: string): (r: Result<Verdict>)
    ensures r.Ok? <==> value in {"true_positive", "false_positive", "benign", "suspicious", "unknown"}
    ensures r.Ok? ==> r.value.Value() == value
    ensures r.Raise? ==> r.message == "'" + value + "' is not a valid Verdict"
  {
    if value == "true_positive" then Ok(TruePositive)
    else if value == "false_positive" then Ok(FalsePositive)
    else if value == "benign" then Ok(Benign)
    else if value == "suspicious" then Ok(Suspicious)
    else if value == "unknown" then Ok(Unknown)
    else Raise("'" + value + "' is not a valid Verdict")
  }

  /** Looking a member up by its own value gives that member back. */
  lemma VerdictOfValue(v: Verdict)
    ensures VerdictOf(v.Value()) == Ok(v)
  {
  }

  datatype Priority = P1 | P2 | P3 | P4 | P5 {
    function Value(): string {
      match this
      case P1 => "P1"
      case P2 => "P2"
      case P3 => "P3"
      case P4 => "P4"
      case P5 => "P5"
    }
  }

  /** `Priority(value)`: exactly "P1" to "P5", or a ValueError. */
  function PriorityOf(value: string): (r: Result<Priority>)
    ensures r.Ok? <==> value in {"P1", "P2", "P3", "P4", "P5"}
    ensures r.Ok? ==> r.value.Value() == value
    ensures r.Raise? ==> r.message == "'" + value + "' is not a valid Priority"
  {
    if value == "P1" then Ok(P1)
    else if value == "P2" then Ok(P2)
    else if value == "P3" then Ok(P3)
    else if value == "P4" then Ok(P4)
    else if value == "P5" then Ok(P5)
    else Raise("'" + value + "' is not a valid Priority")
  }

  lemma PriorityOfValue(p: Priority)
    ensures PriorityOf(p.Value()) == Ok(p)
  {
  }

  // ---------------------------------------------------------------- the alert

  datatype MitreData = MitreData(tactics: seq<string>, techniques: seq<string>)

  datatype Assets = Assets(
    host: Option<string>,
    sourceIp: Option<string>,
    destinationIp: Option<string>,
    user: Option<string>)

  datatype Alert = Alert(
    alertId: string,
    ruleId: string,
    ruleName: Option<string>,
    timestamp: string,
    severity: AlertSeverity,
    description: string,
    mitre: MitreData,
    assets: Assets,
    rawData: map<string, Json>)

  // ---------------------------------------------------------------- stage results

  datatype TriageResult = TriageResult(
    verdict: Verdict,
    confidence: real,
    reasoning: string,
    noiseScore: real,
    requiresInvestigation: bool,
    keyIndicators: seq<string>,
    timestamp: string)
  {
    /** `confidence` and `noise_score` are declared with ge=0.0, le=1.0. */
    predicate InRange() {
      0.0 <= confidence <= 1.0 && 0.0 <= noiseScore <= 1.0
    }
  }

  datatype InvestigationResult = InvestigationResult(
    findings: seq<string>,
    threatContext: map<string, Json>,
    relatedAlerts: seq<string>,
    attackChain: seq<string>,
    riskScore: real,
    evidence: map<string, Json>,
    timestamp: string)
  {
    /** `risk_score` is declared with ge=0.0, le=10.0. */
    predicate InRange() {
      0.0 <= riskScore <= 10.0
    }
  }

  /** The final verdict uses the whole Verdict enumeration, `unknown` included. */
  datatype DecisionResult = DecisionResult(
    finalVerdict: Verdict,
    priority: Priority,
    confidence: real,
    rationale: string,
    recommendedActions: seq<string>,
    escalationRequired: bool,
    estimatedImpact: string,
    timestamp: string)
  {
    /** `confidence` is declared with ge=0.0, le=1.0. */
    predicate InRange() {
      0.0 <= confidence <= 1.0
    }
  }

  datatype ResponseResult = ResponseResult(
    actionsTaken: seq<string>,
    ticketId: Option<string>,
    notificationsSent: seq<string>,
    automationApplied: seq<string>,
    status: string,
    summary: string,
    timestamp: string)

  /** A ResponseResult given only its required fields takes the declared defaults. */
  function NewResponseResult(status: string, summary: string, timestamp: string): (r: ResponseResult)
    ensures r.ticketId == None
    ensures r.actionsTaken == [] && r.notificationsSent == [] && r.automationApplied == []
    ensures r.status == status && r.summary == summary && r.timestamp == timestamp
  {
    ResponseResult([], None, [], [], status, summary, timestamp)
  }

  // ---------------------------------------------------------------- field validation
  // What the result models' declared field types let through, on decoded JSON values.

  function ValidationError(model: string, field: string): string {
    "1 validation error for " + model + "\n" + field
  }

  /** A `float` field bounded by `ge=lo, le=hi`. */
  function FloatField(model: string, field: string, v: Json, lo: real, hi: real): (r: Result<real>)
    ensures r.Ok? <==> v.JNum? && lo <= v.n <= hi
    ensures r.Ok? ==> r.value == v.n
  {
    if v.JNum? && lo <= v.n <= hi then Ok(v.n) else Raise(ValidationError(model, field))
  }

  function StrField(model: string, field: string, v: Json): (r: Result<string>)
    ensures r.Ok? <==> v.JStr?
    ensures r.Ok? ==> r.value == v.s
  {
    if v.JStr? then Ok(v.s) else Raise(ValidationError(model, field))
  }

  function BoolField(model: string, field: string, v: Json): (r: Result<bool>)
    ensures r.Ok? <==> v.JBool?
    ensures r.Ok? ==> r.value == v.b
  {
    if v.JBool? then Ok(v.b) else Raise(ValidationError(model, field))
  }

  function StrListField(model: string, field: string, v: Json): (r: Result<seq<string>>)
    ensures r.Ok? <==> AsStrings(v).Some?
    ensures r.Ok? ==> r.value == AsStrings(v).value
  {
    match AsStrings(v)
    case Some(xs) => Ok(xs)
    case None => Raise(ValidationError(model, field))
  }

  function DictField(model: string, field: string, v: Json): (r: Result<map<string, Json>>)
    ensures r.Ok? <==> v.JObj?
    ensures r.Ok? ==> r.value == v.fields
  {
    if v.JObj? then Ok(v.fields) else Raise(ValidationError(model, field))
  }

  /** `TriageResult(...)` on decoded values: it succeeds exactly when every field has its
      declared type and both scores lie in [0, 1], and then carries those values. */
  function NewTriageResult(verdict: Verdict, confidence: Json, reasoning: Json, noiseScore: Json,
                           requiresInvestigation: Json, keyIndicators: Json, timestamp: string)
    : (r: Result<TriageResult>)
    ensures r.Ok? <==>
      && confidence.JNum? && 0.0 <= confidence.n <= 1.0
      && reasoning.JStr?
      && noiseScore.JNum? && 0.0 <= noiseScore.n <= 1.0
      && requiresInvestigation.JBool?
      && AsStrings(keyIndicators).Some?
    ensures r.Ok? ==> r.value.InRange()
    ensures r.Ok? ==> r.value == TriageResult(verdict, confidence.n, reasoning.s, noiseScore.n,
                                              requiresInvestigation.b, AsStrings(keyIndicators).value, timestamp)
  {
    var m := "TriageResult";
    var c :- FloatField(m, "confidence", confidence, 0.0, 1.0);
    var why :- StrField(m, "reasoning", reasoning);
    var noise :- FloatField(m, "noise_score", noiseScore, 0.0, 1.0);
    var needs :- BoolField(m, "requires_investigation", requiresInvestigation);
    var indicators :- StrListField(m, "key_indicators", keyIndicators);
    Ok(TriageResult(verdict, c, why, noise, needs, indicators, timestamp))
  }

  /** `InvestigationResult(...)` on decoded values; the risk score must lie in [0, 10]. */
  function NewInvestigationResult(findings: Json, threatContext: Json, relatedAlerts: Json,
                                  attackChain: Json, riskScore: Json, evidence: Json, timestamp: string)
    : (r: Result<InvestigationResult>)
    ensures r.Ok? <==>
      && AsStrings(findings).Some?
      && threatContext.JObj?
      && AsStrings(relatedAlerts).Some?
      && AsStrings(attackChain).Some?
      && riskScore.JNum? && 0.0 <= riskScore.n <= 10.0
      && evidence.JObj?
    ensures r.Ok? ==> r.value.InRange()
    ensures r.Ok? ==> r.value == InvestigationResult(AsStrings(findings).value, threatContext.fields,
                                                     AsStrings(relatedAlerts).value, AsStrings(attackChain).value,
                                                     riskScore.n, evidence.fields, timestamp)
  {
    var m := "InvestigationResult";
    var fs :- StrListField(m, "findings", findings);
    var ctx :- DictField(m, "threat_context", threatContext);
    var related :- StrListField(m, "related_alerts", relatedAlerts);
    var chain :- StrListField(m, "attack_chain", attackChain);
    var risk :- FloatField(m, "risk_score", riskScore, 0.0, 10.0);
    var ev :- DictField(m, "evidence", evidence);
    Ok(InvestigationResult(fs, ctx, related, chain, risk, ev, timestamp))
  }

  /** `DecisionResult(...)` on decoded values; the confidence must lie in [0, 1]. Every
      Verdict, `Unknown` included, is accepted as the final verdict. */
  function NewDecisionResult(finalVerdict: Verdict, priority: Priority, confidence: Json, rationale: Json,
                             recommendedActions: Json, escalationRequired: Json, estimatedImpact: Json,
                             timestamp: string)
    : (r: Result<DecisionResult>)
    ensures r.Ok? <==>
      && confidence.JNum? && 0.0 <= confidence.n <= 1.0
      && rationale.JStr?
      && AsStrings(recommendedActions).Some?
      && escalationRequired.JBool?
      && estimatedImpact.JStr?
    ensures r.Ok? ==> r.value.InRange()
    ensures r.Ok? ==> r.value == DecisionResult(finalVerdict, priority, confidence.n, rationale.s,
                                                AsStrings(recommendedActions).value, escalationRequired.b,
                                                estimatedImpact.s, timestamp)
  {
    var m := "DecisionResult";
    var c :- FloatField(m, "confidence", confidence, 0.0, 1.0);
    var why :- StrField(m, "rationale", rationale);
    var actions :- StrListField(m, "recommended_actions", recommendedActions);
    var escalate :- BoolField(m, "escalation_required", escalationRequired);
    var impact :- StrField(m, "estimated_impact", estimatedImpact);
    Ok(DecisionResult(finalVerdict, priority, c, why, actions, escalate, impact, timestamp))
  }

  // ---------------------------------------------------------------- the workflow record

  /** The workflow record as a value: what the state graph keeps between stages. */
  datatype WorkflowState = WorkflowState(
    alert: Alert,
    status: AlertStatus,
    currentAgent: Option<string>,
    enableAi: bool,
    triageResult: Option<TriageResult>,
    investigationResult: Option<InvestigationResult>,
    decisionResult: Option<DecisionResult>,
    responseResult: Option<ResponseResult>,
    workflowId: string,
    startedAt: string,
    completedAt: Option<string>,
    processingTimeSeconds: Option<real>,
    errors: seq<string>,
    warnings: seq<string>)
  {
    /** Every result the record holds respects its declared bounds. */
    predicate ResultsInRange() {
      && (triageResult.Some? ==> triageResult.value.InRange())
      && (investigationResult.Some? ==> investigationResult.value.InRange())
      && (decisionResult.Some? ==> decisionResult.value.InRange())
    }
  }

  /** `SOCWorkflowState(alert=..., workflow_id=...)` with every other field at its default. */
  function NewWorkflowState(alert: Alert, workflowId: string, startedAt: string): (s: WorkflowState)
    ensures s.status == New && s.currentAgent == None && s.enableAi
    ensures s.triageResult == None && s.investigationResult == None
    ensures s.decisionResult == None && s.responseResult == None
    ensures s.completedAt == None && s.processingTimeSeconds == None
    ensures s.errors == [] && s.warnings == []
    ensures s.alert == alert && s.workflowId == workflowId && s.startedAt == startedAt
    ensures s.ResultsInRange()
  {
    WorkflowState(alert, New, None, true, None, None, None, None, workflowId, startedAt, None, None, [], [])
  }

  /** What one stage's `execute` leaves behind: the record it updated, and whether it raised. */
  datatype StageRun = StageRun(state: WorkflowState, outcome: Outcome)

  /** The SOCWorkflowState object a stage receives and updates in place. */
  class WorkflowRecord {
    var alert: Alert
    var status: AlertStatus
    var currentAgent: Option<string>
    var enableAi: bool
    var triageResult: Option<TriageResult>
    var investigationResult: Option<InvestigationResult>
    var decisionResult: Option<DecisionResult>
    var responseResult: Option<ResponseResult>
    var workflowId: string
    var startedAt: string
    var completedAt: Option<string>
    var processingTimeSeconds: Option<real>
    var errors: seq<string>
    var warnings: seq<string>

    /** The record's fields as a value. */
    function View(): WorkflowState
      reads this
    {
      WorkflowState(alert, status, currentAgent, enableAi, triageResult, investigationResult,
                    decisionResult, responseResult, workflowId, startedAt, completedAt,
                    processingTimeSeconds, errors, warnings)
    }

    /** Builds the object from a value, as the state graph does before calling a stage. */
    constructor (s: WorkflowState)
      ensures View() == s
    {
      alert := s.alert;
      status := s.status;
      currentAgent := s.currentAgent;
      enableAi := s.enableAi;
      triageResult := s.triageResult;
      investigationResult := s.investigationResult;
      decisionResult := s.decisionResult;
      responseResult := s.responseResult;
      workflowId := s.workflowId;
      startedAt := s.startedAt;
      completedAt := s.completedAt;
      processingTimeSeconds := s.processingTimeSeconds;
      errors := s.errors;
      warnings := s.warnings;
    }
  }
}
