/** The investigation stage: deeper analysis of an alert that triage flagged, with a scan of
    the threat-intelligence table. */
module InvestigationAgent {
  import opened Wrappers
  import opened Text
  import opened JsonValue
  import opened External
  import opened Context
  import opened ResponseParsing
  import opened Prompting

  const AgentName := "investigation_agent"
  const SkipWarning := "Investigation skipped - triage marked as not requiring investigation"
  // The two sentinels are written as concatenations so that the verifier can read their
  // first characters (it cannot index into long string literals).
  const NoIntelMessage := "No threat" + " intelligence data available"
  const NoMatchMessage := "No specific" + " threat intelligence matches found for this alert"

  // ---------------------------------------------------------------- threat-intelligence scan

  function IpLine(env: Environment, e: IpIntel): string {
    "- Source IP " + e.ip + ": " + e.description + " (Confidence: " + Render(env, e.confidence) + ")"
  }

  function PatternLine(p: AttackPattern): string {
    "- " + p.name + ": " + p.description
  }

  /** The lines for the entries of `ips` whose address is exactly `sourceIp`, in table order. */
  function IpLines(env: Environment, ips: seq<IpIntel>, sourceIp: string): seq<string>
  {
    if ips == [] then []
    else
      var last := ips[|ips| - 1];
      IpLines(env, ips[..|ips| - 1], sourceIp) + (if last.ip == sourceIp then [IpLine(env, last)] else [])
  }

  /** The lines for the patterns of `ps` that list technique `t`, in table order. */
  function PatternLines(t: string, ps: seq<AttackPattern>): seq<string>
  {
    if ps == [] then []
    else
      var last := ps[|ps| - 1];
      PatternLines(t, ps[..|ps| - 1]) + (if t in last.techniques then [PatternLine(last)] else [])
  }

  /** For each technique of the alert in turn, the lines of the patterns that list it. */
  function TechniqueLines(ts: seq<string>, ps: seq<AttackPattern>): seq<string>
  {
    if ts == [] then []
    else TechniqueLines(ts[..|ts| - 1], ps) + PatternLines(ts[|ts| - 1], ps)
  }

  /** The source address is scanned only when it is present and non-empty. */
  predicate ScansIp(alert: Alert) {
    alert.assets.sourceIp.Some? && alert.assets.sourceIp.value != ""
  }

  /** All matching lines: the address lines first, then the technique lines. */
  function ScanLines(env: Environment, alert: Alert, intel: ThreatIntel): seq<string>
    requires intel.Intel?
  {
    (if ScansIp(alert) then IpLines(env, intel.maliciousIps, alert.assets.sourceIp.value) else [])
    + TechniqueLines(alert.mitre.techniques, intel.attackPatterns)
  }

  /** `_get_relevant_threat_intel` as a value. */
  function RelevantThreatIntel(env: Environment, alert: Alert, intel: ThreatIntel): string
  {
    if intel.NoIntel? then NoIntelMessage
    else
      var lines := ScanLines(env, alert, intel);
      if lines == [] then NoMatchMessage else Join(lines, "\n")
  }

  /** Line `k` of the address lines comes from an entry whose address is exactly `sourceIp`. */
  lemma {:induction false} IpLineOrigin(env: Environment, ips: seq<IpIntel>, sourceIp: string, k: nat)
    requires k < |IpLines(env, ips, sourceIp)|
    ensures exists i :: 0 <= i < |ips| && ips[i].ip == sourceIp && IpLines(env, ips, sourceIp)[k] == IpLine(env, ips[i])
  {
    var init := ips[..|ips| - 1];
    var last := ips[|ips| - 1];
    assert IpLines(env, ips, sourceIp) == IpLines(env, init, sourceIp) + (if last.ip == sourceIp then [IpLine(env, last)] else []);
    if k < |IpLines(env, init, sourceIp)| {
      IpLineOrigin(env, init, sourceIp, k);
      var i :| 0 <= i < |init| && init[i].ip == sourceIp && IpLines(env, init, sourceIp)[k] == IpLine(env, init[i]);
      assert ips[i] == init[i];
    } else {
      assert ips[|ips| - 1].ip == sourceIp && IpLines(env, ips, sourceIp)[k] == IpLine(env, ips[|ips| - 1]);
    }
  }

  /** Every entry whose address is exactly `sourceIp` contributes its line. */
  lemma {:induction false} IpLineEmitted(env: Environment, ips: seq<IpIntel>, sourceIp: string, i: nat)
    requires i < |ips| && ips[i].ip == sourceIp
    ensures IpLine(env, ips[i]) in IpLines(env, ips, sourceIp)
  {
    var init := ips[..|ips| - 1];
    if i < |init| {
      IpLineEmitted(env, init, sourceIp, i);
      assert init[i] == ips[i];
    }
  }

  /** Line `k` of a technique's pattern lines comes from a pattern that lists the technique. */
  lemma {:induction false} PatternLineOrigin(t: string, ps: seq<AttackPattern>, k: nat)
    requires k < |PatternLines(t, ps)|
    ensures exists j :: 0 <= j < |ps| && t in ps[j].techniques && PatternLines(t, ps)[k] == PatternLine(ps[j])
  {
    var init := ps[..|ps| - 1];
    var last := ps[|ps| - 1];
    assert PatternLines(t, ps) == PatternLines(t, init) + (if t in last.techniques then [PatternLine(last)] else []);
    if k < |PatternLines(t, init)| {
      PatternLineOrigin(t, init, k);
      var j :| 0 <= j < |init| && t in init[j].techniques && PatternLines(t, init)[k] == PatternLine(init[j]);
      assert ps[j] == init[j];
    } else {
      assert t in ps[|ps| - 1].techniques && PatternLines(t, ps)[k] == PatternLine(ps[|ps| - 1]);
    }
  }

  /** Every pattern listing the technique contributes its line. */
  lemma {:induction false} PatternLineEmitted(t: string, ps: seq<AttackPattern>, j: nat)
    requires j < |ps| && t in ps[j].techniques
    ensures PatternLine(ps[j]) in PatternLines(t, ps)
  {
    var init := ps[..|ps| - 1];
    if j < |init| {
      PatternLineEmitted(t, init, j);
      assert init[j] == ps[j];
    }
  }

  /** A technique listed by no pattern contributes no line. */
  lemma {:induction false} UnlistedTechniqueNoLines(t: string, ps: seq<AttackPattern>)
    requires forall j :: 0 <= j < |ps| ==> t !in ps[j].techniques
    ensures PatternLines(t, ps) == []
  {
    if ps != [] {
      UnlistedTechniqueNoLines(t, ps[..|ps| - 1]);
    }
  }

  /** When no technique of the alert is listed by any pattern, the technique scan finds nothing. */
  lemma {:induction false} NoTechniqueMatchesNoLines(ts: seq<string>, ps: seq<AttackPattern>)
    requires forall i, j :: 0 <= i < |ts| && 0 <= j < |ps| ==> ts[i] !in ps[j].techniques
    ensures TechniqueLines(ts, ps) == []
  {
    if ts != [] {
      NoTechniqueMatchesNoLines(ts[..|ts| - 1], ps);
      UnlistedTechniqueNoLines(ts[|ts| - 1], ps);
    }
  }

  /** A technique listed by some pattern makes the technique scan find something. */
  lemma {:induction false} ListedTechniqueHasLines(ts: seq<string>, ps: seq<AttackPattern>, i: nat, j: nat)
    requires i < |ts| && j < |ps| && ts[i] in ps[j].techniques
    ensures TechniqueLines(ts, ps) != []
  {
    var init := ts[..|ts| - 1];
    if i < |init| {
      assert init[i] == ts[i];
      ListedTechniqueHasLines(init, ps, i, j);
    } else {
      PatternLineEmitted(ts[i], ps, j);
    }
  }

  /** Every line of the scan is a bullet: it starts with "- ". */
  predicate Bulleted(lines: seq<string>) {
    forall k :: 0 <= k < |lines| ==> |lines[k]| >= 2 && lines[k][..2] == "- "
  }

  lemma IpLinesBulleted(env: Environment, ips: seq<IpIntel>, sourceIp: string)
    ensures Bulleted(IpLines(env, ips, sourceIp))
  {
    forall k | 0 <= k < |IpLines(env, ips, sourceIp)|
      ensures |IpLines(env, ips, sourceIp)[k]| >= 2 && IpLines(env, ips, sourceIp)[k][..2] == "- "
    {
      IpLineOrigin(env, ips, sourceIp, k);
    }
  }

  lemma {:induction false} TechniqueLinesBulleted(ts: seq<string>, ps: seq<AttackPattern>)
    ensures Bulleted(TechniqueLines(ts, ps))
  {
    if ts != [] {
      TechniqueLinesBulleted(ts[..|ts| - 1], ps);
      var t := ts[|ts| - 1];
      forall k | 0 <= k < |PatternLines(t, ps)|
        ensures |PatternLines(t, ps)[k]| >= 2 && PatternLines(t, ps)[k][..2] == "- "
      {
        PatternLineOrigin(t, ps, k);
      }
    }
  }

  /** A non-empty table yields no line exactly when it has no entry for the source address
      (when that is scanned) and no pattern listing any technique of the alert. */
  lemma ScanFindsNothingIff(env: Environment, alert: Alert, intel: ThreatIntel)
    requires intel.Intel?
    ensures ScanLines(env, alert, intel) == [] <==>
              && (ScansIp(alert) ==>
                    forall i :: 0 <= i < |intel.maliciousIps| ==> intel.maliciousIps[i].ip != alert.assets.sourceIp.value)
              && (forall i, j :: 0 <= i < |alert.mitre.techniques| && 0 <= j < |intel.attackPatterns| ==>
                    alert.mitre.techniques[i] !in intel.attackPatterns[j].techniques)
  {
    var ts, ps := alert.mitre.techniques, intel.attackPatterns;
    var ipPart := if ScansIp(alert) then IpLines(env, intel.maliciousIps, alert.assets.sourceIp.value) else [];
    assert ScanLines(env, alert, intel) == ipPart + TechniqueLines(ts, ps);
    if ScansIp(alert) {
      var ips, src := intel.maliciousIps, alert.assets.sourceIp.value;
      if exists i :: 0 <= i < |ips| && ips[i].ip == src {
        var i :| 0 <= i < |ips| && ips[i].ip == src;
        IpLineEmitted(env, ips, src, i);
      } else if ipPart != [] {
        IpLineOrigin(env, ips, src, 0);
      }
    }
    if exists i, j :: 0 <= i < |ts| && 0 <= j < |ps| && ts[i] in ps[j].techniques {
      var i, j :| 0 <= i < |ts| && 0 <= j < |ps| && ts[i] in ps[j].techniques;
      ListedTechniqueHasLines(ts, ps, i, j);
    } else {
      NoTechniqueMatchesNoLines(ts, ps);
    }
  }

  /** Lines found by the scan are joined into a text that starts with a bullet. */
  lemma ScanTextIsBulleted(env: Environment, alert: Alert, intel: ThreatIntel)
    requires intel.Intel? && ScanLines(env, alert, intel) != []
    ensures var r := Join(ScanLines(env, alert, intel), "\n"); |r| >= 2 && r[..2] == "- "
  {
    var lines := ScanLines(env, alert, intel);
    if ScansIp(alert) {
      IpLinesBulleted(env, intel.maliciousIps, alert.assets.sourceIp.value);
    }
    TechniqueLinesBulleted(alert.mitre.techniques, intel.attackPatterns);
    assert Bulleted(lines);
    JoinStartsWithFirst(lines, "\n");
    assert Join(lines, "\n")[..|lines[0]|][..2] == lines[0][..2];
  }

  /** The three outcomes of the scan: the "no data" sentinel exactly for an empty table, the
      "no matches" sentinel exactly when a non-empty table matches nothing
      (`ScanFindsNothingIff`), and otherwise a text that starts with a bullet line. */
  lemma RelevantThreatIntelOutcomes(env: Environment, alert: Alert, intel: ThreatIntel)
    ensures RelevantThreatIntel(env, alert, intel) == NoIntelMessage <==> intel.NoIntel?
    ensures RelevantThreatIntel(env, alert, intel) == NoMatchMessage <==>
              intel.Intel? && ScanLines(env, alert, intel) == []
    ensures var r := RelevantThreatIntel(env, alert, intel);
            r != NoIntelMessage && r != NoMatchMessage ==> |r| >= 2 && r[..2] == "- "
  {
    assert NoIntelMessage[0] == 'N' && NoMatchMessage[0] == 'N';
    assert NoIntelMessage[3] == 't' && NoMatchMessage[3] == 's';
    if intel.Intel? && ScanLines(env, alert, intel) != [] {
      ScanTextIsBulleted(env, alert, intel);
    }
  }

  /** The address loop of `_get_relevant_threat_intel`: appends the line of every entry whose
      address is exactly `source`. */
  method AppendIpLines(env: Environment, lines0: seq<string>, ips: seq<IpIntel>, source: string)
    returns (lines: seq<string>)
    ensures lines == lines0 + IpLines(env, ips, source)
  {
    lines := lines0;
    var i := 0;
    while i < |ips|
      invariant 0 <= i <= |ips|
      invariant lines == lines0 + IpLines(env, ips[..i], source)
    {
      assert ips[..i + 1][..i] == ips[..i];
      ghost var step := if ips[i].ip == source then [IpLine(env, ips[i])] else [];
      assert IpLines(env, ips[..i + 1], source) == IpLines(env, ips[..i], source) + step;
      if ips[i].ip == source {
        lines := lines + [IpLine(env, ips[i])];
      }
      assert (lines0 + IpLines(env, ips[..i], source)) + step == lines0 + (IpLines(env, ips[..i], source) + step);
      i := i + 1;
    }
    assert ips[..i] == ips;
  }

  /** The inner loop of the technique scan: appends the line of every pattern listing `technique`. */
  method AppendPatternLines(lines0: seq<string>, technique: string, patterns: seq<AttackPattern>)
    returns (lines: seq<string>)
    ensures lines == lines0 + PatternLines(technique, patterns)
  {
    lines := lines0;
    var j := 0;
    while j < |patterns|
      invariant 0 <= j <= |patterns|
      invariant lines == lines0 + PatternLines(technique, patterns[..j])
    {
      assert patterns[..j + 1][..j] == patterns[..j];
      ghost var step := if technique in patterns[j].techniques then [PatternLine(patterns[j])] else [];
      assert PatternLines(technique, patterns[..j + 1]) == PatternLines(technique, patterns[..j]) + step;
      if technique in patterns[j].techniques {
        lines := lines + [PatternLine(patterns[j])];
      }
      assert (lines0 + PatternLines(technique, patterns[..j])) + step
          == lines0 + (PatternLines(technique, patterns[..j]) + step);
      j := j + 1;
    }
    assert patterns[..j] == patterns;
  }

  /** `_get_relevant_threat_intel(state)`: the address loop, then a pattern loop per technique. */
  method GetRelevantThreatIntel(env: Environment, alert: Alert, intel: ThreatIntel) returns (r: string)
    ensures r == RelevantThreatIntel(env, alert, intel)
  {
    if intel.NoIntel? {
      return NoIntelMessage;
    }
    var lines: seq<string> := [];
    if ScansIp(alert) {
      lines := AppendIpLines(env, lines, intel.maliciousIps, alert.assets.sourceIp.value);
    }
    ghost var ipPart := lines;
    assert ipPart == if ScansIp(alert) then IpLines(env, intel.maliciousIps, alert.assets.sourceIp.value) else [];
    var techniques := alert.mitre.techniques;
    var t := 0;
    while t < |techniques|
      invariant 0 <= t <= |techniques|
      invariant lines == ipPart + TechniqueLines(techniques[..t], intel.attackPatterns)
    {
      assert techniques[..t + 1][..t] == techniques[..t];
      assert (ipPart + TechniqueLines(techniques[..t], intel.attackPatterns)) + PatternLines(techniques[t], intel.attackPatterns)
          == ipPart + (TechniqueLines(techniques[..t], intel.attackPatterns) + PatternLines(techniques[t], intel.attackPatterns));
      lines := AppendPatternLines(lines, techniques[t], intel.attackPatterns);
      t := t + 1;
    }
    assert techniques[..t] == techniques;
    assert lines == ScanLines(env, alert, intel);
    if lines == [] {
      return NoMatchMessage;
    }
    return Join(lines, "\n");
  }

  // ---------------------------------------------------------------- the stage

  /** Investigation is skipped when triage ran and said it is not needed; a missing triage
      result does not skip it. */
  predicate Skips(s: WorkflowState) {
    s.triageResult.Some? && !s.triageResult.value.requiresInvestigation
  }

  /** The variables the investigation prompt is filled with: the alert variables, the
      destination address, the triage variables, the threat-intelligence text and the raw data. */
  function PromptFor(env: Environment, alert: Alert, triage: Option<TriageResult>, intelText: string)
    : (v: PromptVars)
    ensures v.InvestigationPrompt? && AlertShown(alert, v.alert) && ShownOrNA(alert.assets.destinationIp, v.destinationIp)
    ensures triage.None? ==> v.triage == TriageVars("N/A", "N/A", "None", "N/A")
    ensures triage.Some? ==> v.triage.verdict == triage.value.verdict.Value()
                             && ShownOrNone(triage.value.keyIndicators, v.triage.keyIndicators)
    ensures v.threatIntel == intelText
    ensures alert.rawData == map[] ==> v.rawData == "No additional data"
  {
    InvestigationPrompt(AlertVarsOf(alert), OrNA(alert.assets.destinationIp), TriageVarsOf(env, triage),
                        intelText, RawDataText(env, alert.rawData))
  }

  const FallbackFindings: seq<string> := ["Potential credential access attempt detected"]
  const FallbackThreatContext: map<string, Json> :=
    map["threat_type" := JStr("Credential Access"), "confidence" := JNum(0.85)]
  const FallbackRelatedAlerts: seq<string> := ["Alert1", "Alert2"]
  const FallbackAttackChain: seq<string> := ["Reconnaissance", "Credential Access"]
  const FallbackEvidence: map<string, Json> :=
    map["details" := JArr([JStr("IP address 192.168.1.1"), JStr("Failed login attempts")])]

  /** The fixed result used when reasoning is disabled. */
  function FallbackResult(timestamp: string): (r: InvestigationResult)
    ensures r.InRange()
  {
    InvestigationResult(FallbackFindings, FallbackThreatContext, FallbackRelatedAlerts, FallbackAttackChain,
                        8.5, FallbackEvidence, timestamp)
  }

  /** `InvestigationResult(findings=d["findings"], ...)` on the decoded reply. */
  function Decode(parsed: Json, timestamp: string): (r: Result<InvestigationResult>)
    ensures r.Ok? ==> r.value.InRange() && r.value.timestamp == timestamp
    ensures r.Ok? ==> parsed.JObj? && "risk_score" in parsed.fields && parsed.fields["risk_score"] == JNum(r.value.riskScore)
    ensures r.Ok? ==> "findings" in parsed.fields && AsStrings(parsed.fields["findings"]) == Some(r.value.findings)
    ensures r.Ok? ==> "related_alerts" in parsed.fields
                      && AsStrings(parsed.fields["related_alerts"]) == Some(r.value.relatedAlerts)
    ensures r.Ok? ==> "attack_chain" in parsed.fields
                      && AsStrings(parsed.fields["attack_chain"]) == Some(r.value.attackChain)
    ensures r.Ok? ==> "threat_context" in parsed.fields && parsed.fields["threat_context"] == JObj(r.value.threatContext)
    ensures r.Ok? ==> "evidence" in parsed.fields && parsed.fields["evidence"] == JObj(r.value.evidence)
  {
    var d :- AsObject(parsed);
    var findings :- Index(d, "findings");
    var context :- Index(d, "threat_context");
    var related :- Index(d, "related_alerts");
    var chain :- Index(d, "attack_chain");
    var risk :- Index(d, "risk_score");
    var evidence :- Index(d, "evidence");
    NewInvestigationResult(findings, context, related, chain, risk, evidence, timestamp)
  }

  /** The reasoning path of `execute`: prompt, reply, parse and decode. */
  function Assess(env: Environment, alert: Alert, triage: Option<TriageResult>, intelText: string)
    : (r: Result<InvestigationResult>)
    ensures r.Ok? ==> r.value.InRange() && r.value.timestamp == Clock(env, Investigate)
  {
    var parsed :- Reason(env, Investigate, PromptFor(env, alert, triage, intelText), "investigation response");
    Decode(parsed, Clock(env, Investigate))
  }

  /** `execute(state)` on the record as a value. */
  function ExecuteSpec(s: WorkflowState, env: Environment): (r: StageRun)
    ensures Skips(s) ==> r == StageRun(s.(warnings := s.warnings + [SkipWarning]), Returned)
    ensures !Skips(s) ==> r == InvestigateSpec(s, env)
  {
    if Skips(s) then StageRun(s.(warnings := s.warnings + [SkipWarning]), Returned)
    else InvestigateSpec(s, env)
  }

  /** The part of `execute` after the skip check, as a value. */
  function InvestigateSpec(s: WorkflowState, env: Environment): (r: StageRun)
    ensures r.state == s.(status := r.state.status, currentAgent := Some(AgentName),
                          investigationResult := r.state.investigationResult)
    ensures r.state.status == if s.enableAi then Investigating else Completed
    ensures !s.enableAi ==>
              r.outcome.Returned? && r.state.investigationResult == Some(FallbackResult(Clock(env, Investigate)))
    ensures r.outcome.Raised? ==> r.state.investigationResult == s.investigationResult
    ensures r.outcome.Returned? ==> r.state.investigationResult.Some? && r.state.investigationResult.value.InRange()
  {
    var s1 := s.(status := Investigating, currentAgent := Some(AgentName));
    if !s1.enableAi then
      StageRun(s1.(investigationResult := Some(FallbackResult(Clock(env, Investigate))), status := Completed), Returned)
    else
      match Assess(env, s.alert, s.triageResult, RelevantThreatIntel(env, s.alert, env.threatIntel))
      case Raise(m) => StageRun(s1, Raised(m))
      case Ok(inv) => StageRun(s1.(investigationResult := Some(inv)), Returned)
  }

  /** `InvestigationAgent.execute`: appends the skip warning and returns when triage said no
      investigation is needed, and investigates otherwise. */
  method Execute(state: WorkflowRecord, env: Environment) returns (outcome: Outcome)
    modifies state
    ensures StageRun(state.View(), outcome) == ExecuteSpec(old(state.View()), env)
  {
    if state.triageResult.Some? && !state.triageResult.value.requiresInvestigation {
      state.warnings := state.warnings + [SkipWarning];
      return Returned;
    }
    outcome := InvestigateAlert(state, env);
  }

  /** The body of `execute` past the skip check: marks the record as investigating, scans the
      threat intelligence, then stores the fallback result and completes, or stores the decoded
      result, or raises. */
  method InvestigateAlert(state: WorkflowRecord, env: Environment) returns (outcome: Outcome)
    modifies state
    ensures StageRun(state.View(), outcome) == InvestigateSpec(old(state.View()), env)
  {
    state.status := Investigating;
    state.currentAgent := Some(AgentName);
    var intelText := GetRelevantThreatIntel(env, state.alert, env.threatIntel);
    if !state.enableAi {
      state.investigationResult := Some(FallbackResult(Clock(env, Investigate)));
      state.status := Completed;
      return Returned;
    }
    var result := Assess(env, state.alert, state.triageResult, intelText);
    if result.Raise? {
      return Raised(result.message);
    }
    state.investigationResult := Some(result.value);
    return Returned;
  }
}
