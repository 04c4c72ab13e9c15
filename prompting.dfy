/** How the stages render alert fields into the variables they send to the reasoner. */
module Prompting {
  import opened Wrappers
  import opened Text
  import opened JsonValue
  import opened External
  import opened Context

  /** `value or "N/A"`: an absent or empty string renders as "N/A". */
  function OrNA(value: Option<string>): (r: string)
    ensures value.Some? && value.value != "" ==> r == value.value
    ensures value.None? || value.value == "" ==> r == "N/A"
  {
    if value.Some? && value.value != "" then value.value else "N/A"
  }

  /** `", ".join(xs) if xs else "None"`. */
  function JoinOrNone(xs: seq<string>): (r: string)
    ensures xs == [] ==> r == "None"
    ensures xs != [] ==> r == Join(xs, ", ")
    ensures |xs| == 1 ==> r == xs[0]
  {
    if xs == [] then "None" else Join(xs, ", ")
  }

  /** `json.dumps(raw_data, indent=2) if raw_data else "No additional data"`. */
  function RawDataText(env: Environment, raw: map<string, Json>): (r: string)
    ensures raw == map[] ==> r == "No additional data"
  {
    if raw == map[] then "No additional data" else env.dumps(JObj(raw))
  }

  /** An optional alert field is shown as "N/A" when it is absent or empty, and as itself
      otherwise. */
  predicate ShownOrNA(value: Option<string>, shown: string) {
    && (value.None? || value.value == "" ==> shown == "N/A")
    && (value.Some? && value.value != "" ==> shown == value.value)
  }

  /** A list of alert strings is shown as "None" when it is empty, and as its elements
      separated by ", " otherwise. */
  predicate ShownOrNone(xs: seq<string>, shown: string) {
    && (xs == [] ==> shown == "None")
    && (xs != [] ==> shown == Join(xs, ", "))
  }

  /** The variables show the alert: identifiers, timestamp and description as they are, the
      severity as its value, and the defaults above for the optional fields and the lists. */
  predicate AlertShown(alert: Alert, a: AlertVars) {
    && a.alertId == alert.alertId && a.ruleId == alert.ruleId && a.severity == alert.severity.Value()
    && a.timestamp == alert.timestamp && a.description == alert.description
    && ShownOrNA(alert.ruleName, a.ruleName)
    && ShownOrNone(alert.mitre.tactics, a.tactics) && ShownOrNone(alert.mitre.techniques, a.techniques)
    && ShownOrNA(alert.assets.host, a.host) && ShownOrNA(alert.assets.sourceIp, a.sourceIp)
    && ShownOrNA(alert.assets.user, a.user)
  }

  /** The alert variables the triage, investigation and decision prompts all carry. */
  function AlertVarsOf(alert: Alert): (v: AlertVars)
    ensures AlertShown(alert, v)
  {
    AlertVars(
      alert.alertId, alert.ruleId, OrNA(alert.ruleName), alert.severity.Value(), alert.timestamp,
      alert.description, JoinOrNone(alert.mitre.tactics), JoinOrNone(alert.mitre.techniques),
      OrNA(alert.assets.host), OrNA(alert.assets.sourceIp), OrNA(alert.assets.user))
  }

  /** The triage variables of the investigation and decision prompts: "N/A" throughout (and
      "None" for the indicators) when triage produced no result. */
  function TriageVarsOf(env: Environment, triage: Option<TriageResult>): (v: TriageVars)
    ensures triage.None? ==> v == TriageVars("N/A", "N/A", "None", "N/A")
    ensures triage.Some? ==> v.verdict == triage.value.verdict.Value()
                             && v.keyIndicators == JoinOrNone(triage.value.keyIndicators)
                             && v.reasoning == triage.value.reasoning
  {
    if triage.None? then TriageVars("N/A", "N/A", "None", "N/A")
    else
      var t := triage.value;
      TriageVars(t.verdict.Value(), Render(env, JNum(t.confidence)), JoinOrNone(t.keyIndicators), t.reasoning)
  }
}
