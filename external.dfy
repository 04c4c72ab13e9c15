/** The collaborators the stages call but this model does not define: the reasoning service
    (a large-language-model call), the JSON library, Python's value formatting, the clock,
    the uuid generator and the threat-intelligence file. Each is a parameter. */
module External {
  import opened Wrappers
  import opened JsonValue

  /** The four stages of the pipeline, which also name the reasoner call each one makes. */
  datatype Stage = Triage | Investigate | Decide | Respond

  /** What `asyncio.wait_for(chain.ainvoke(vars), timeout)` comes to: it raises (timeout,
      provider error) with a message, or it returns a response whose content is `text`. */
  datatype Reply = Failed(message: string) | Content(text: string)

  /** One entry of `malicious_ips` in the threat-intelligence file. */
  datatype IpIntel = IpIntel(ip: string, description: string, confidence: Json)

  /** One entry of `attack_patterns` in the threat-intelligence file. */
  datatype AttackPattern = AttackPattern(name: string, description: string, techniques: seq<string>)

  /** The loaded threat-intelligence file: `NoIntel` is the empty dictionary (also what a
      missing file loads as); `Intel` a non-empty one, with its two lists (absent lists are empty). */
  datatype ThreatIntel =
    | NoIntel
    | Intel(maliciousIps: seq<IpIntel>, attackPatterns: seq<AttackPattern>)

  /** The alert variables the triage, investigation and decision prompts share, already rendered
      as text: `alert_id`, `rule_id`, `rule_name`, `severity`, `timestamp`, `description`,
      `tactics`, `techniques`, `host`, `source_ip` and `user`. */
  datatype AlertVars = AlertVars(
    alertId: string, ruleId: string, ruleName: string, severity: string, timestamp: string,
    description: string, tactics: string, techniques: string, host: string, sourceIp: string,
    user: string)

  /** The triage variables the investigation and decision prompts share: `triage_verdict`,
      `triage_confidence`, `key_indicators` and `triage_reasoning`. */
  datatype TriageVars = TriageVars(verdict: string, confidence: string, keyIndicators: string, reasoning: string)

  /** The variables each stage fills its prompt template with (a dictionary with these keys
      in the source). */
  datatype PromptVars =
    | TriagePrompt(alert: AlertVars, destinationIp: string, rawData: string)
    | InvestigationPrompt(alert: AlertVars, destinationIp: string, triage: TriageVars,
                          threatIntel: string, rawData: string)
    | DecisionPrompt(alert: AlertVars, triage: TriageVars, noiseScore: string, investigationSummary: string)
    | ResponsePrompt(alertId: string, ruleName: string, severity: string, host: string, sourceIp: string,
                     user: string, finalVerdict: string, priority: string, confidence: string,
                     escalationRequired: string, estimatedImpact: string, recommendedActions: string,
                     rationale: string)

  datatype Environment = Environment(
    /** The reasoner: the stage and its prompt variables in, a reply out. */
    invoke: (Stage, PromptVars) -> Reply,
    /** `json.loads`: the decoded value, or a JSONDecodeError with its message. */
    loads: string -> Result<Json>,
    /** `json.dumps(value, indent=2)`. */
    dumps: Json -> string,
    /** `str(value)` of a non-string value (numbers, booleans, lists, dictionaries). */
    show: Json -> string,
    /** `datetime.utcnow().isoformat()` while the given stage runs. */
    now: Stage -> string,
    /** `datetime.utcnow().strftime("%Y%m%d")` and `str(uuid.uuid4())` at ticket creation. */
    ticketDate: string,
    ticketUuid: string,
    /** `(fromisoformat(completed) - fromisoformat(started)).total_seconds()`, which raises on
        a malformed timestamp. */
    elapsed: (string, string) -> Result<real>,
    /** The investigation stage's threat-intelligence table. */
    threatIntel: ThreatIntel)

  /** The reasoner's reply to `stage`'s prompt filled with `vars`. */
  function Invoke(env: Environment, stage: Stage, vars: PromptVars): Reply {
    env.invoke(stage, vars)
  }

  /** `datetime.utcnow().isoformat()` as read by `stage`. */
  function Clock(env: Environment, stage: Stage): string {
    env.now(stage)
  }

  /** `f"{v}"` of a decoded value: a string as it is, anything else through `str`. */
  function Render(env: Environment, v: Json): (r: string)
    ensures v.JStr? ==> r == v.s
  {
    if v.JStr? then v.s else env.show(v)
  }

  const EmptyResponseMessage := "LLM invocation failed or returned an empty response"

  /** The content a stage goes on to parse: the reasoner's exception propagates, and an empty
      content raises ValueError. */
  function ReplyContent(reply: Reply): (r: Result<string>)
    ensures reply.Failed? ==> r == Raise(reply.message)
    ensures reply == Content("") ==> r == Raise(EmptyResponseMessage)
    ensures r.Ok? ==> reply == Content(r.value) && r.value != ""
  {
    match reply
    case Failed(m) => Raise(m)
    case Content(text) => if text == "" then Raise(EmptyResponseMessage) else Ok(text)
  }
}
