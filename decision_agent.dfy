/** The decision stage: final verdict, priority and recommended actions for one alert. */
module DecisionAgent {
  import opened Wrappers
  import opened Text
  import opened JsonValue
  import opened External
  import opened Context
  import opened ResponseParsing
  import opened Prompting

  const AgentName := "decision_agent"
  // Split in two to keep each string literal short for the verifier.
  const NoInvestigationSummary := "No investigation performed" + " (triage indicated no investigation needed)"

  // ---------------------------------------------------------------- investigation summary

  /** One `"  - finding"` line per finding, in order. */
  function FindingLines(findings: seq<string>): (r: seq<string>)
    ensures |r| == |findings|
  {
    if findings == [] then []
    else FindingLines(findings[..|findings| - 1]) + ["  - " + findings[|findings| - 1]]
  }

  /** The parts `_format_investigation_summary` joins: the risk score, the findings header and
      lines, then the attack chain, threat context and related alerts when they are non-empty. */
  function SummaryParts(env: Environment, inv: InvestigationResult): (r: seq<string>)
    ensures |r| >= 2 + |inv.findings|
    ensures r[0] == "Risk Score: " + Render(env, JNum(inv.riskScore)) + "/10" && r[1] == "\nFindings:"
  {
    ["Risk Score: " + Render(env, JNum(inv.riskScore)) + "/10", "\nFindings:"]
    + FindingLines(inv.findings)
    + (if inv.attackChain != [] then ["\nAttack Chain: " + Join(inv.attackChain, " -> ")] else [])
    + (if inv.threatContext != map[] then ["\nThreat Context: " + env.dumps(JObj(inv.threatContext))] else [])
    + (if inv.relatedAlerts != [] then ["\nRelated Alerts: " + Join(inv.relatedAlerts, ", ")] else [])
  }

  /** `_format_investigation_summary(state)` as a value. */
  function InvestigationSummary(env: Environment, inv: Option<InvestigationResult>): string {
    if inv.None? then NoInvestigationSummary else Join(SummaryParts(env, inv.value), "\n")
  }

  /** Finding `k` appears as line `k + 2` of the summary parts, and the number of parts is the
      number of findings plus two plus one per non-empty optional section. */
  lemma {:induction false} SummaryPartsShape(env: Environment, inv: InvestigationResult)
    ensures |SummaryParts(env, inv)| == 2 + |inv.findings| + (if inv.attackChain != [] then 1 else 0)
              + (if inv.threatContext != map[] then 1 else 0) + (if inv.relatedAlerts != [] then 1 else 0)
    ensures forall k :: 0 <= k < |inv.findings| ==> SummaryParts(env, inv)[k + 2] == "  - " + inv.findings[k]
    ensures var chainAt := 2 + |inv.findings|;
            inv.attackChain != [] ==> SummaryParts(env, inv)[chainAt] == "\nAttack Chain: " + Join(inv.attackChain, " -> ")
    ensures var contextAt := 2 + |inv.findings| + (if inv.attackChain != [] then 1 else 0);
            inv.threatContext != map[] ==>
              SummaryParts(env, inv)[contextAt] == "\nThreat Context: " + env.dumps(JObj(inv.threatContext))
    ensures var alertsAt := 2 + |inv.findings| + (if inv.attackChain != [] then 1 else 0)
                            + (if inv.threatContext != map[] then 1 else 0);
            inv.relatedAlerts != [] ==>
              SummaryParts(env, inv)[alertsAt] == "\nRelated Alerts: " + Join(inv.relatedAlerts, ", ")
  {
    forall k | 0 <= k < |inv.findings|
      ensures SummaryParts(env, inv)[k + 2] == "  - " + inv.findings[k]
    {
      FindingLineAt(inv.findings, k);
    }
  }

  lemma {:induction false} FindingLineAt(findings: seq<string>, k: nat)
    requires k < |findings|
    ensures FindingLines(findings)[k] == "  - " + findings[k]
  {
    var init := findings[..|findings| - 1];
    if k < |init| {
      FindingLineAt(init, k);
      assert findings[k] == init[k];
    }
  }

  /** The placeholder text is produced exactly when there is no investigation: a summary always
      starts with the risk score. */
  lemma SummaryIsPlaceholderIff(env: Environment, inv: Option<InvestigationResult>)
    ensures InvestigationSummary(env, inv) == NoInvestigationSummary <==> inv.None?
  {
    if inv.Some? {
      var parts := SummaryParts(env, inv.value);
      JoinStartsWithFirst(parts, "\n");
      var text := Join(parts, "\n");
      assert text[0] == parts[0][0] == 'R';
      assert NoInvestigationSummary[0] == 'N';
    }
  }

  /** `_format_investigation_summary(state)`: builds the list of parts with a loop over the
      findings and joins it with newlines. */
  method FormatInvestigationSummary(env: Environment, inv: Option<InvestigationResult>) returns (r: string)
    ensures r == InvestigationSummary(env, inv)
  {
    if inv.None? {
      return NoInvestigationSummary;
    }
    var v := inv.value;
    var head := ["Risk Score: " + Render(env, JNum(v.riskScore)) + "/10", "\nFindings:"];
    var parts := head;
    var i := 0;
    while i < |v.findings|
      invariant 0 <= i <= |v.findings|
      invariant parts == head + FindingLines(v.findings[..i])
    {
      assert v.findings[..i + 1][..i] == v.findings[..i];
      assert (head + FindingLines(v.findings[..i])) + ["  - " + v.findings[i]]
          == head + (FindingLines(v.findings[..i]) + ["  - " + v.findings[i]]);
      parts := parts + ["  - " + v.findings[i]];
      i := i + 1;
    }
    assert v.findings[..i] == v.findings;
    ghost var chain := if v.attackChain != [] then ["\nAttack Chain: " + Join(v.attackChain, " -> ")] else [];
    ghost var context := if v.threatContext != map[] then ["\nThreat Context: " + env.dumps(JObj(v.threatContext))] else [];
    ghost var related := if v.relatedAlerts != [] then ["\nRelated Alerts: " + Join(v.relatedAlerts, ", ")] else [];
    ghost var p0 := parts;
    if v.attackChain != [] {
      parts := parts + ["\nAttack Chain: " + Join(v.attackChain, " -> ")];
    }
    assert parts == p0 + chain;
    ghost var p1 := parts;
    if v.threatContext != map[] {
      parts := parts + ["\nThreat Context: " + env.dumps(JObj(v.threatContext))];
    }
    assert parts == p1 + context;
    ghost var p2 := parts;
    if v.relatedAlerts != [] {
      parts := parts + ["\nRelated Alerts: " + Join(v.relatedAlerts, ", ")];
    }
    assert parts == p2 + related;
    assert parts == SummaryParts(env, v);
    return Join(parts, "\n");
  }

  // ---------------------------------------------------------------- decoding

  /** `str(v).lower().replace(" ", "_")`. */
  function NormaliseVerdict(s: string): (r: string)
    ensures |r| == |s|
    ensures forall i :: 0 <= i < |s| ==> r[i] == (if s[i] == ' ' then '_' else LowerChar(s[i]))
    ensures forall i :: 0 <= i < |r| ==> r[i] != ' ' && !('A' <= r[i] <= 'Z')
  {
    ReplaceChar(Lower(s), ' ', '_')
  }

  /** Normalising twice is normalising once. */
  lemma NormaliseVerdictIdempotent(s: string)
    ensures NormaliseVerdict(NormaliseVerdict(s)) == NormaliseVerdict(s)
  {
    var n := NormaliseVerdict(s);
    forall i | 0 <= i < |n|
      ensures NormaliseVerdict(n)[i] == n[i]
    {
      assert Lower(n)[i] == n[i];
    }
  }

  /** The verdict named by the decision reply, after normalising case and spaces. */
  function FinalVerdictFrom(env: Environment, v: Json): (r: Result<Verdict>)
    ensures r.Ok? <==>
              NormaliseVerdict(Render(env, v)) in {"true_positive", "false_positive", "benign", "suspicious", "unknown"}
    ensures r.Ok? ==> NormaliseVerdict(Render(env, v)) == r.value.Value()
  {
    VerdictOf(NormaliseVerdict(Render(env, v)))
  }

  /** Every verdict's own value is accepted unchanged. */
  lemma CanonicalVerdictAccepted(env: Environment, v: Verdict)
    ensures FinalVerdictFrom(env, JStr(v.Value())) == Ok(v)
  {
    assert NormaliseVerdict(v.Value()) == v.Value() by {
      var s := v.Value();
      forall i | 0 <= i < |s|
        ensures NormaliseVerdict(s)[i] == s[i]
      {
        assert 'a' <= s[i] <= 'z' || s[i] == '_';
      }
    }
    VerdictOfValue(v);
  }

  /** Unlike triage, the decision stage takes a verdict written with capitals and a space. */
  lemma SpacedVerdictAccepted(env: Environment)
    ensures FinalVerdictFrom(env, JStr("True Positive")) == Ok(TruePositive)
  {
    assert NormaliseVerdict("True Positive") == "true_positive";
  }

  /** `Priority(result_dict["priority"])`: the exact string of an enumeration value. */
  function PriorityFrom(env: Environment, v: Json): (r: Result<Priority>)
    ensures r.Ok? <==> v.JStr? && PriorityOf(v.s).Ok?
    ensures r.Ok? ==> v == JStr(r.value.Value())
  {
    if v.JStr? then PriorityOf(v.s) else Raise(env.show(v) + " is not a valid Priority")
  }

  /** `DecisionResult(final_verdict=..., priority=Priority(d["priority"]), ...)` on the decoded reply. */
  function Decode(env: Environment, parsed: Json, timestamp: string): (r: Result<DecisionResult>)
    ensures r.Ok? ==> r.value.InRange() && r.value.timestamp == timestamp
    ensures r.Ok? ==> parsed.JObj? && "priority" in parsed.fields
                      && parsed.fields["priority"] == JStr(r.value.priority.Value())
    ensures r.Ok? ==> "final_verdict" in parsed.fields
                      && NormaliseVerdict(Render(env, parsed.fields["final_verdict"])) == r.value.finalVerdict.Value()
    ensures r.Ok? ==> "confidence" in parsed.fields && parsed.fields["confidence"] == JNum(r.value.confidence)
    ensures r.Ok? ==> "rationale" in parsed.fields && parsed.fields["rationale"] == JStr(r.value.rationale)
    ensures r.Ok? ==> "recommended_actions" in parsed.fields
                      && AsStrings(parsed.fields["recommended_actions"]) == Some(r.value.recommendedActions)
    ensures r.Ok? ==> "escalation_required" in parsed.fields
                      && parsed.fields["escalation_required"] == JBool(r.value.escalationRequired)
    ensures r.Ok? ==> "estimated_impact" in parsed.fields
                      && parsed.fields["estimated_impact"] == JStr(r.value.estimatedImpact)
  {
    var d :- AsObject(parsed);
    var fv :- Index(d, "final_verdict");
    var verdict :- FinalVerdictFrom(env, fv);
    var p :- Index(d, "priority");
    var priority :- PriorityFrom(env, p);
    var confidence :- Index(d, "confidence");
    var rationale :- Index(d, "rationale");
    var actions :- Index(d, "recommended_actions");
    var escalation :- Index(d, "escalation_required");
    var impact :- Index(d, "estimated_impact");
    NewDecisionResult(verdict, priority, confidence, rationale, actions, escalation, impact, timestamp)
  }

  // ---------------------------------------------------------------- the stage

  /** The variables the decision prompt is filled with: the alert variables, the triage
      variables, the noise score and the investigation summary. */
  function PromptFor(env: Environment, alert: Alert, triage: Option<TriageResult>, summary: string)
    : (v: PromptVars)
    ensures v.DecisionPrompt? && AlertShown(alert, v.alert) && v.investigationSummary == summary
    ensures triage.None? ==> v.triage == TriageVars("N/A", "N/A", "None", "N/A") && v.noiseScore == "N/A"
    ensures triage.Some? ==> v.triage.verdict == triage.value.verdict.Value()
                             && ShownOrNone(triage.value.keyIndicators, v.triage.keyIndicators)
  {
    DecisionPrompt(AlertVarsOf(alert), TriageVarsOf(env, triage),
                   if triage.Some? then Render(env, JNum(triage.value.noiseScore)) else "N/A",
                   summary)
  }

  const FallbackRationale := "High severity alert with multiple indicators of compromise."
  const FallbackActions: seq<string> := ["Isolate affected systems", "Reset credentials", "Monitor for further activity"]
  const FallbackImpact := "High - Potential data breach"

  /** The fixed result used when reasoning is disabled. */
  function FallbackResult(timestamp: string): (r: DecisionResult)
    ensures r.InRange() && r.finalVerdict == TruePositive && r.priority == P1 && r.escalationRequired
  {
    DecisionResult(TruePositive, P1, 0.85, FallbackRationale, FallbackActions, true, FallbackImpact, timestamp)
  }

  /** The reasoning path of `execute`: prompt, reply, parse and decode. */
  function Assess(env: Environment, alert: Alert, triage: Option<TriageResult>, summary: string)
    : (r: Result<DecisionResult>)
    ensures r.Ok? ==> r.value.InRange() && r.value.timestamp == Clock(env, Decide)
  {
    var parsed :- Reason(env, Decide, PromptFor(env, alert, triage, summary), "decision response");
    Decode(env, parsed, Clock(env, Decide))
  }

  /** `execute(state)` on the record as a value. */
  function ExecuteSpec(s: WorkflowState, env: Environment): (r: StageRun)
    ensures r.state == s.(status := r.state.status, currentAgent := Some(AgentName),
                          decisionResult := r.state.decisionResult)
    ensures r.state.status == if s.enableAi then Deciding else Completed
    ensures !s.enableAi ==> r.outcome.Returned? && r.state.decisionResult == Some(FallbackResult(Clock(env, Decide)))
    ensures r.outcome.Raised? ==> r.state.decisionResult == s.decisionResult
    ensures r.outcome.Returned? ==> r.state.decisionResult.Some? && r.state.decisionResult.value.InRange()
  {
    var s1 := s.(status := Deciding, currentAgent := Some(AgentName));
    if !s1.enableAi then
      StageRun(s1.(decisionResult := Some(FallbackResult(Clock(env, Decide))), status := Completed), Returned)
    else
      match Assess(env, s.alert, s.triageResult, InvestigationSummary(env, s.investigationResult))
      case Raise(m) => StageRun(s1, Raised(m))
      case Ok(d) => StageRun(s1.(decisionResult := Some(d)), Returned)
  }

  /** `DecisionAgent.execute`: marks the record as deciding, formats the investigation summary,
      then stores the fallback result and completes, or stores the decoded result, or raises. */
  method Execute(state: WorkflowRecord, env: Environment) returns (outcome: Outcome)
    modifies state
    ensures StageRun(state.View(), outcome) == ExecuteSpec(old(state.View()), env)
  {
    state.status := Deciding;
    state.currentAgent := Some(AgentName);
    var summary := FormatInvestigationSummary(env, state.investigationResult);
    if !state.enableAi {
      state.decisionResult := Some(FallbackResult(Clock(env, Decide)));
      state.status := Completed;
      return Returned;
    }
    var result := Assess(env, state.alert, state.triageResult, summary);
    if result.Raise? {
      return Raised(result.message);
    }
    state.decisionResult := Some(result.value);
    return Returned;
  }
}
