/** The triage stage: first-level verdict and noise filtering for one alert. */
module TriageAgent {
  import opened Wrappers
  import opened JsonValue
  import opened External
  import opened Context
  import opened ResponseParsing
  import opened Prompting

  const AgentName := "triage_agent"

  /** The variables the triage prompt is filled with: the alert variables, the destination
      address and the raw data. */
  function PromptFor(alert: Alert, env: Environment): (v: PromptVars)
    ensures v.TriagePrompt? && AlertShown(alert, v.alert) && ShownOrNA(alert.assets.destinationIp, v.destinationIp)
    ensures alert.rawData == map[] ==> v.rawData == "No additional data"
  {
    TriagePrompt(AlertVarsOf(alert), OrNA(alert.assets.destinationIp), RawDataText(env, alert.rawData))
  }

  const FallbackIndicators: seq<string> := [
    "135 failures across 135 distinct accounts",
    "External source IP 194.169.175.17",
    "Short window and T1110 pattern",
    "No successful auth from the source"
  ]

  const FallbackReasoning :=
    "High-volume failures from an external IP matching password spray. Pattern and counts are consistent with Credential Access T1110; treat as active attack requiring investigation."

  /** The fixed result used when reasoning is disabled. */
  function FallbackResult(timestamp: string): (r: TriageResult)
    ensures r.InRange() && r.requiresInvestigation && r.verdict == TruePositive
  {
    TriageResult(TruePositive, 0.1, FallbackReasoning, 0.01, true, FallbackIndicators, timestamp)
  }

  /** `Verdict(result_dict["verdict"])`: the string is looked up exactly as it came. */
  function VerdictFrom(env: Environment, v: Json): (r: Result<Verdict>)
    ensures r.Ok? <==> v.JStr? && VerdictOf(v.s).Ok?
    ensures r.Ok? ==> v == JStr(r.value.Value())
  {
    if v.JStr? then VerdictOf(v.s) else Raise(env.show(v) + " is not a valid Verdict")
  }

  /** `TriageResult(verdict=Verdict(d["verdict"]), confidence=d["confidence"], ...)` on the
      decoded reply `parsed`. */
  function Decode(env: Environment, parsed: Json, timestamp: string): (r: Result<TriageResult>)
    ensures r.Ok? ==> r.value.InRange() && r.value.timestamp == timestamp
    ensures r.Ok? ==> parsed.JObj? && "verdict" in parsed.fields
                      && parsed.fields["verdict"] == JStr(r.value.verdict.Value())
    ensures r.Ok? ==> "requires_investigation" in parsed.fields
                      && parsed.fields["requires_investigation"] == JBool(r.value.requiresInvestigation)
    ensures r.Ok? ==> "confidence" in parsed.fields && parsed.fields["confidence"] == JNum(r.value.confidence)
    ensures r.Ok? ==> "noise_score" in parsed.fields && parsed.fields["noise_score"] == JNum(r.value.noiseScore)
    ensures r.Ok? ==> "reasoning" in parsed.fields && parsed.fields["reasoning"] == JStr(r.value.reasoning)
    ensures r.Ok? ==> "key_indicators" in parsed.fields
                      && AsStrings(parsed.fields["key_indicators"]) == Some(r.value.keyIndicators)
  {
    var d :- AsObject(parsed);
    var v :- Index(d, "verdict");
    var verdict :- VerdictFrom(env, v);
    var confidence :- Index(d, "confidence");
    var reasoning :- Index(d, "reasoning");
    var noise :- Index(d, "noise_score");
    var needs :- Index(d, "requires_investigation");
    var indicators :- Index(d, "key_indicators");
    NewTriageResult(verdict, confidence, reasoning, noise, needs, indicators, timestamp)
  }

  /** A verdict in any other spelling than the enumeration's value is rejected: triage does
      not normalise case or spaces. */
  lemma VerdictIsNotNormalised(env: Environment, parsed: Json, timestamp: string)
    requires parsed.JObj? && "verdict" in parsed.fields && parsed.fields["verdict"] == JStr("True Positive")
    ensures Decode(env, parsed, timestamp).Raise?
  {
  }

  /** The reasoning path of `execute`: prompt, reply, parse and decode. */
  function Assess(env: Environment, alert: Alert): (r: Result<TriageResult>)
    ensures r.Ok? ==> r.value.InRange() && r.value.timestamp == Clock(env, Triage)
    ensures ReplyContent(Invoke(env, Triage, PromptFor(alert, env))).Raise? ==>
              r == Raise(ReplyContent(Invoke(env, Triage, PromptFor(alert, env))).message)
  {
    var parsed :- Reason(env, Triage, PromptFor(alert, env), "triage response");
    Decode(env, parsed, Clock(env, Triage))
  }

  /** `execute(state)` on the record as a value: the updated record and whether it raised. */
  function ExecuteSpec(s: WorkflowState, env: Environment): (r: StageRun)
    ensures r.state == s.(status := r.state.status, currentAgent := Some(AgentName),
                          triageResult := r.state.triageResult)
    ensures r.state.status == if s.enableAi then Triaging else Completed
    ensures !s.enableAi ==> r.outcome.Returned? && r.state.triageResult == Some(FallbackResult(Clock(env, Triage)))
    ensures r.outcome.Raised? ==> r.state.triageResult == s.triageResult
    ensures r.outcome.Returned? ==> r.state.triageResult.Some? && r.state.triageResult.value.InRange()
    ensures s.enableAi && ReplyContent(Invoke(env, Triage, PromptFor(s.alert, env))).Raise? ==>
              r.outcome == Raised(ReplyContent(Invoke(env, Triage, PromptFor(s.alert, env))).message)
  {
    var s1 := s.(status := Triaging, currentAgent := Some(AgentName));
    if !s1.enableAi then
      StageRun(s1.(triageResult := Some(FallbackResult(Clock(env, Triage))), status := Completed), Returned)
    else
      match Assess(env, s1.alert)
      case Raise(m) => StageRun(s1, Raised(m))
      case Ok(t) => StageRun(s1.(triageResult := Some(t)), Returned)
  }

  /** `TriageAgent.execute`: marks the record as triaging, then stores the fallback result and
      completes, or stores the decoded result, or raises. */
  method Execute(state: WorkflowRecord, env: Environment) returns (outcome: Outcome)
    modifies state
    ensures StageRun(state.View(), outcome) == ExecuteSpec(old(state.View()), env)
  {
    state.status := Triaging;
    state.currentAgent := Some(AgentName);
    if !state.enableAi {
      state.triageResult := Some(FallbackResult(Clock(env, Triage)));
      state.status := Completed;
      return Returned;
    }
    var result := Assess(env, state.alert);
    if result.Raise? {
      return Raised(result.message);
    }
    state.triageResult := Some(result.value);
    return Returned;
  }
}
