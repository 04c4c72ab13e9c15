# The Agentic SOC: a verified model of the alert workflow

The Agentic SOC triages security alerts with four agents run in sequence by a LangGraph
workflow:

- **triage** judges whether an alert is noise;
- **investigation** gathers threat intelligence;
- **decision** settles a verdict and a priority;
- **response** opens tickets and records actions.

Each agent either asks a language model for a JSON verdict or, when AI is disabled, writes a
fixed fallback result. This project models the deterministic skeleton around those calls:

- the routing of the graph;
- the node wrappers and the partial updates they return;
- each agent's `execute`, with its status transitions, prompt variables, fallback results and
  response parsing;
- the threat-intelligence scan, the investigation summary, verdict normalisation, the
  response-action table, the list merge and the ticket rule;
- `_to_plain`;
- the final event of `process_alert`;
- the records and enumerations of the data model.

The model is set out as follows.

- **The model's reply.** `External.Environment` gathers everything that comes from outside:
  - the model's reply for each stage (`Failed(message)` for an exception, or the reply text);
  - `json.loads`, `json.dumps` and `str()` of a JSON value;
  - one clock reading per stage;
  - the ticket date and uuid;
  - the elapsed-seconds computation;
  - the threat-intelligence table.
- **Exceptions.** A Python exception is a `Raise(message)` value of `Wrappers.Result`. An
  `execute` call ends in an `Outcome`: `Returned` or `Raised(message)`.
- **The workflow record.** `SOCWorkflowState` is the datatype `Context.WorkflowState`. The
  object an agent mutates is `class Context.WorkflowRecord`, whose `View()` is that datatype.
- **Agents.** Every agent's `execute` is a method on the record, proved equal to a
  specification function `ExecuteSpec` over the datatype. The per-agent properties are proved
  about that function.
- **Node wrappers.** Each wrapper (`RunTriageNode` and the others) is a method proved equal to
  `Wrap(node, ExecuteSpec(...))`. Its result is an `Update`: the set of channel keys it
  returns, plus the values.
- **The graph engine.** The engine is generic over a `Graph` of four node functions. `Run` is
  the exact sequence of nodes LangGraph would visit, with the state after each merge.
  `RunGraph` is the imperative loop that is proved to compute it. `Workflow(env)` plugs in the
  four real nodes.

Behaviours of the code worth noting:

- **Triage verdict.** Triage uses the model's verdict string verbatim
  (`TriageAgent.VerdictIsNotNormalised`). Only the decision agent lower-cases it and replaces
  spaces (`DecisionAgent.SpacedVerdictAccepted`).
- **The "unknown" verdict.** `DecisionResult.final_verdict` accepts `unknown`.
- **Fallback status.** A fallback stage sets `COMPLETED` in the middle of the pipeline. Routing
  goes on anyway, because it only tests for `FAILED`.
- **Fallback ticket.** The response fallback always issues a ticket, even for P5. Only the
  reasoning path withholds the ticket for P5.
- **Investigation skip.** The investigation agent's skip branch cannot be reached through the
  graph (`Orchestrator.InvestigationNeverSkipsInGraph`).
- **Triage failure routing.** `_should_investigate`'s own `FAILED` test is dead code inside
  `_after_triage`, which tests for `FAILED` first.

## Model

| member | source | states |
|---|---|---|
| Context.StatusesAreExactlySeven | app/context.py:21-29 | every status is one of seven values, and their string values are pairwise distinct |
| Context.VerdictOf | app/context.py:32-38 | `Verdict(value)` succeeds exactly for the five verdict strings, `unknown` included, and returns the member with that value; otherwise it raises the enum's ValueError text |
| Context.VerdictOfValue | app/context.py:32-38 | reading a verdict's own value back gives that verdict |
| Context.PriorityOf | app/context.py:41-47 | `Priority(value)` succeeds exactly for P1..P5 |
| Context.PriorityOfValue | app/context.py:41-47 | reading a priority's own value back gives that priority |
| Context.NewResponseResult | app/context.py:111-119 | a new response result has no ticket and three empty lists |
| Context.FloatField | app/context.py:80-82 | a float field validates exactly when it is a number within its bounds, which it then keeps |
| Context.StrField | app/context.py:81 | a string field validates exactly when the JSON value is a string |
| Context.BoolField | app/context.py:83 | a bool field validates exactly when the JSON value is a boolean |
| Context.StrListField | app/context.py:84 | a list-of-strings field validates exactly when every element is a string |
| Context.DictField | app/context.py:91 | a dictionary field validates exactly when the JSON value is an object |
| Context.NewTriageResult | app/context.py:77-85 | a triage result is built exactly when every field has its type and confidence and noise_score lie in [0,1]; the result is then in range |
| Context.NewInvestigationResult | app/context.py:88-96 | an investigation result is built exactly when the fields are well typed and risk_score lies in [0,10] |
| Context.NewDecisionResult | app/context.py:99-108 | a decision result is built exactly when the fields are well typed and confidence lies in [0,1] |
| Context.NewWorkflowState | app/context.py:122-152 | a new workflow record has status NEW, AI enabled, no agent, no results, no completion, and empty errors and warnings |
| Context.WorkflowRecord.constructor | app/context.py:122-152 | a record built from a state value views as that value |
| JsonValue.Index | agents/triage_agent.py:112-117 | `d[key]` returns the entry when the key is present and raises KeyError otherwise |
| JsonValue.AsObject | agents/triage_agent.py:137 | a parsed reply can be used as a dictionary exactly when it is a JSON object |
| JsonValue.GetOr | agents/response_agent.py:237-253 | `d.get(key, default)` gives the entry if present, else the default |
| JsonValue.AsStrings | agents/triage_agent.py:117 | a JSON value is a list of strings exactly when it is an array of string elements, which it then lists in order |
| External.Render | agents/decision_agent.py:141 | `str()` of a JSON string is the string itself |
| External.ReplyContent | agents/triage_agent.py:102-105 | a failed call raises its message, an empty reply raises the empty-response error, and otherwise the content is the non-empty text |
| Text.Find | agents/triage_agent.py:132 | `find` gives the first index of the character, or -1 if there is none |
| Text.RFind | agents/triage_agent.py:133 | `rfind` gives the last index of the character, or -1 if there is none |
| Text.JoinStartsWithFirst | agents/response_agent.py:56 | a join starts with its first part |
| Text.Lower | agents/decision_agent.py:141 | lower-casing keeps the length |
| Text.Upper | agents/response_agent.py:44 | upper-casing keeps the length |
| Text.ReplaceChar | agents/decision_agent.py:141 | replacing one character by another keeps the length |
| Text.Take | agents/response_agent.py:44 | `s[:n]` has length min(n, len(s)) |
| Text.NatToString | agents/response_agent.py:54 | the decimal rendering of a number is a non-empty digit string that reads back to the number, without a leading zero |
| ResponseParsing.SpanAtUnique | agents/response_agent.py:277-281 | at most one span runs from the first `{` to the last `}` |
| ResponseParsing.JsonSpanCharacterised | agents/response_agent.py:273-284 | a span exists exactly when some `{` precedes some `}`; it is then the text from the first `{` through the last `}` |
| ResponseParsing.Reason | agents/triage_agent.py:102-108 | a failed or empty model reply raises before any parsing |
| ResponseParsing.NoBraceRaises | agents/investigation_agent.py:172-186 | text without `{` raises "No JSON found in response" |
| ResponseParsing.ClosingBeforeOpeningRaises | agents/decision_agent.py:159-173 | text whose first `{` has no `}` after it raises "No JSON found in response" |
| Prompting.OrNA | agents/triage_agent.py:56-65 | `x or "N/A"`: a missing or empty value renders "N/A", any other value renders as itself |
| Prompting.JoinOrNone | agents/triage_agent.py:60-61 | an empty list renders "None", any other list is joined with ", " |
| Prompting.RawDataText | agents/triage_agent.py:66 | empty raw data renders "No additional data" |
| Prompting.AlertVarsOf | agents/triage_agent.py:53-67 | the shared prompt variables take the alert's identifiers, severity value, timestamp and description verbatim; rule name, host, source IP and user show "N/A" when absent or empty and the value otherwise; tactics and techniques show "None" when empty and are joined with ", " otherwise |
| Prompting.TriageVarsOf | agents/investigation_agent.py:105-108 | without a triage result the triage prompt variables are "N/A", "N/A", "None", "N/A" |
| TriageAgent.PromptFor | agents/triage_agent.py:53-67 | the triage prompt holds the alert variables with their "N/A" and "None" defaults, the destination IP ("N/A" when absent or empty), and "No additional data" when the raw data is empty |
| TriageAgent.FallbackResult | agents/triage_agent.py:71-95 | the fallback triage result is in range, a true positive, and requires investigation |
| TriageAgent.VerdictFrom | agents/triage_agent.py:112 | the verdict is accepted exactly when the reply holds one of the five verdict strings verbatim |
| TriageAgent.VerdictIsNotNormalised | agents/triage_agent.py:112 | a verdict written "True Positive" makes triage raise |
| TriageAgent.Decode | agents/triage_agent.py:111-119 | a decoded triage result is in range, carries the given timestamp, and takes every field (verdict, confidence, noise score, reasoning, requires_investigation, key indicators) verbatim from the parsed object, with no clamping |
| TriageAgent.Assess | agents/triage_agent.py:102-119 | on the reasoning path a failed reply raises and a result is in range and stamped with the stage clock |
| TriageAgent.ExecuteSpec | agents/triage_agent.py:41-126 | only status, current_agent ("triage_agent") and triage_result change; the status is TRIAGING on the reasoning path and COMPLETED on the fallback path; a raise leaves the triage result as it was; a return leaves an in-range result |
| TriageAgent.Execute | agents/triage_agent.py:41-126 | the mutating `execute` ends in the state and outcome its specification gives |
| InvestigationAgent.IpLineOrigin | agents/investigation_agent.py:59-62 | every IP line comes from an intel entry whose ip equals the source IP |
| InvestigationAgent.IpLineEmitted | agents/investigation_agent.py:59-62 | every intel entry with the source IP yields its line |
| InvestigationAgent.PatternLineOrigin | agents/investigation_agent.py:65-68 | every technique line comes from a pattern that lists the technique |
| InvestigationAgent.PatternLineEmitted | agents/investigation_agent.py:65-68 | every pattern that lists the technique yields its line |
| InvestigationAgent.UnlistedTechniqueNoLines | agents/investigation_agent.py:65-68 | a technique no pattern lists yields no lines |
| InvestigationAgent.NoTechniqueMatchesNoLines | agents/investigation_agent.py:65-73 | when no alert technique is listed by any pattern, no technique line is produced |
| InvestigationAgent.AppendIpLines | agents/investigation_agent.py:59-62 | the IP loop appends exactly the matching intel lines, in table order |
| InvestigationAgent.AppendPatternLines | agents/investigation_agent.py:66-68 | the pattern loop appends exactly the lines of the patterns that list the technique, in table order |
| InvestigationAgent.ListedTechniqueHasLines | agents/investigation_agent.py:65-68 | a technique listed by some pattern always yields a line |
| InvestigationAgent.IpLinesBulleted | agents/investigation_agent.py:62 | every IP line starts with "- " |
| InvestigationAgent.TechniqueLinesBulleted | agents/investigation_agent.py:68 | every technique line starts with "- " |
| InvestigationAgent.ScanFindsNothingIff | agents/investigation_agent.py:58-70 | a non-empty table yields no line exactly when no entry has the source address (when that is scanned) and no pattern lists any technique of the alert |
| InvestigationAgent.ScanTextIsBulleted | agents/investigation_agent.py:70-71 | lines found by the scan join into a text that starts with "- " |
| InvestigationAgent.RelevantThreatIntelOutcomes | agents/investigation_agent.py:52-73 | the scan gives the "no data" sentinel exactly for an empty table, the "no matches" sentinel exactly when a non-empty table matches nothing, and otherwise a text starting with a bullet |
| InvestigationAgent.GetRelevantThreatIntel | agents/investigation_agent.py:50-73 | the nested loops compute the scan value: the IP lines first, then one line per technique and matching pattern, in table order |
| InvestigationAgent.PromptFor | agents/investigation_agent.py:92-111 | the investigation prompt holds the alert variables with their defaults, the destination IP ("N/A" when absent or empty), the threat-intel text, "No additional data" for empty raw data, and without triage the triage variables "N/A", "N/A", "None", "N/A"; with triage its verdict value and its indicators joined or "None" |
| InvestigationAgent.FallbackResult | agents/investigation_agent.py:118-138 | the fallback investigation result is in range |
| InvestigationAgent.Decode | agents/investigation_agent.py:151-162 | a decoded investigation result is in range, stamped, and takes every field (findings, threat context, related alerts, attack chain, risk score, evidence) verbatim from the parsed object, with no clamping |
| InvestigationAgent.Assess | agents/investigation_agent.py:144-162 | a result of the reasoning path is in range and stamped with the stage clock |
| InvestigationAgent.ExecuteSpec | agents/investigation_agent.py:77-82 | with a triage result that does not require investigation, exactly one warning is appended and nothing else changes; otherwise investigation proceeds |
| InvestigationAgent.InvestigateSpec | agents/investigation_agent.py:84-167 | only status, current_agent ("investigation_agent") and investigation_result change; INVESTIGATING on the reasoning path and COMPLETED on the fallback path; a raise keeps the old result; a return leaves an in-range result |
| InvestigationAgent.Execute | agents/investigation_agent.py:75-170 | the mutating `execute` ends in the state and outcome its specification gives |
| InvestigationAgent.InvestigateAlert | agents/investigation_agent.py:84-167 | the part of `execute` after the skip test ends as its specification gives |
| DecisionAgent.FindingLines | agents/decision_agent.py:52-53 | there is one finding line per finding |
| DecisionAgent.SummaryParts | agents/decision_agent.py:47-50 | the summary starts with "Risk Score: r/10" and "\nFindings:" |
| DecisionAgent.SummaryPartsShape | agents/decision_agent.py:47-64 | finding k is the part "  - f" at position k + 2; after the findings come, each exactly when its field is non-empty and in this order, the attack chain joined with " -> ", the threat context as JSON, and the related alerts joined with ", ", each under its heading |
| DecisionAgent.FindingLineAt | agents/decision_agent.py:52-53 | finding line k is "  - " followed by finding k |
| DecisionAgent.SummaryIsPlaceholderIff | agents/decision_agent.py:44-45 | the summary is the "No investigation performed" sentinel exactly when there is no investigation result |
| DecisionAgent.FormatInvestigationSummary | agents/decision_agent.py:40-64 | the appending loop builds exactly the summary |
| DecisionAgent.NormaliseVerdict | agents/decision_agent.py:141 | normalisation keeps the length, and each character becomes '_' if it is a space and its lower-case form otherwise |
| DecisionAgent.NormaliseVerdictIdempotent | agents/decision_agent.py:141 | normalising twice is normalising once |
| DecisionAgent.FinalVerdictFrom | agents/decision_agent.py:141 | the final verdict is accepted exactly when the normalised rendering of the reply's value is one of the five verdict values, and it is then that rendering |
| DecisionAgent.CanonicalVerdictAccepted | agents/decision_agent.py:141 | every verdict's own value is accepted as that verdict |
| DecisionAgent.SpacedVerdictAccepted | agents/decision_agent.py:141 | "True Positive" is accepted as true_positive |
| DecisionAgent.PriorityFrom | agents/decision_agent.py:142 | a priority is accepted exactly when the reply holds P1..P5 verbatim |
| DecisionAgent.Decode | agents/decision_agent.py:140-149 | a decoded decision is in range, stamped, and takes priority and verdict from the parsed object and confidence, rationale, recommended actions, escalation flag and estimated impact verbatim from it, with no clamping |
| DecisionAgent.PromptFor | agents/decision_agent.py:77-95 | the decision prompt holds the alert variables with their defaults and the investigation summary; without triage the triage variables are "N/A", "N/A", "None", "N/A" and the noise score "N/A"; with triage its verdict value and its indicators joined or "None" |
| DecisionAgent.FallbackResult | agents/decision_agent.py:102-124 | the fallback decision is in range, a true positive, P1, and requires escalation |
| DecisionAgent.Assess | agents/decision_agent.py:131-149 | a result of the reasoning path is in range and stamped with the stage clock |
| DecisionAgent.ExecuteSpec | agents/decision_agent.py:66-157 | only status, current_agent ("decision_agent") and decision_result change; DECIDING on the reasoning path and COMPLETED with the fallback decision otherwise; a raise keeps the old result; a return leaves an in-range result |
| DecisionAgent.Execute | agents/decision_agent.py:66-157 | the mutating `execute` ends in the state and outcome its specification gives |
| ResponseAgent.SimulateActionsTotal | agents/response_agent.py:65-151 | without a decision only "Alert processed without decision" is reported; every priority yields non-empty actions, notifications and automations |
| ResponseAgent.FirstActionOpensTicket | agents/response_agent.py:74-151 | for P1..P4 the first action creates a ticket of that priority; for P5 it closes the alert as a false positive |
| ResponseAgent.DedupIsSet | agents/response_agent.py:237 | `list(set(xs))` has the same elements as xs and no duplicates |
| ResponseAgent.MergeListsIsUnion | agents/response_agent.py:237-239 | a merged list holds exactly the elements of the parsed and simulated lists, without duplicates |
| ResponseAgent.TicketIdShape | agents/response_agent.py:41-45 | a generated ticket is "INC-", the 8-character date, "-" and the upper-cased first 8 uuid characters: 21 characters |
| ResponseAgent.NumberedLines | agents/response_agent.py:52-54 | there is one numbered line per action |
| ResponseAgent.NumberedLineAt | agents/response_agent.py:53-54 | line i is the number i + 1, ". " and action i |
| ResponseAgent.RecommendedActionsPlaceholderIff | agents/response_agent.py:49-50 | the text is "No specific actions recommended" exactly when there are no actions |
| ResponseAgent.FormatRecommendedActions | agents/response_agent.py:47-56 | the appending loop builds exactly the numbered text |
| ResponseAgent.ParsedList | agents/response_agent.py:237-239 | a missing parsed list counts as empty; a present one must be a list of strings |
| ResponseAgent.TextOr | agents/response_agent.py:252-253 | a missing status or summary takes its default; a present one must be a string |
| ResponseAgent.TicketFor | agents/response_agent.py:242-244 | P5 gets no ticket; any other priority gets the parsed ticket, or a generated one when the parsed one is missing or empty |
| ResponseAgent.Decode | agents/response_agent.py:236-255 | a decoded response has a ticket exactly when the priority is not P5, and the stored ticket is the one the ticket rule gives (the parsed one when truthy, a generated one otherwise); it is stamped; status and summary are the parsed strings when present and default to "COMPLETED" and "Alert processed successfully" otherwise |
| ResponseAgent.DecodeMergesLists | agents/response_agent.py:237-239 | each decoded list, as a set, is the parsed list together with the simulated list, and has no duplicates |
| ResponseAgent.RuleNameOrId | agents/response_agent.py:178 | the rule name shown is the rule's name, or its id when the name is missing or empty |
| ResponseAgent.PromptFor | agents/response_agent.py:176-190 | the response prompt holds the alert id, the severity value, the rule name or the rule id when the name is absent or empty, host, source IP and user with "N/A" defaults, the verdict and priority values, and the recommended-actions text |
| ResponseAgent.FallbackResult | agents/response_agent.py:197-217 | the fallback response always carries the generated ticket and status "COMPLETED" |
| ResponseAgent.Assess | agents/response_agent.py:224-255 | a response of the reasoning path has a ticket exactly when the priority is not P5 and is stamped with the stage clock |
| ResponseAgent.ExecuteSpec | agents/response_agent.py:159-171 | without a decision, "Cannot execute response without decision" is appended, the status is FAILED, and no response result is written |
| ResponseAgent.RespondSpec | agents/response_agent.py:197-222 | with AI disabled, the fallback response with a generated ticket is stored and the status is COMPLETED |
| ResponseAgent.ReasonedSpec | agents/response_agent.py:224-267 | only status, response_result, completed_at and processing time change; a return leaves COMPLETED, a result whose ticket is absent exactly for P5, and the completion time; no result means a raise with the record untouched |
| ResponseAgent.CompletionSpec | agents/response_agent.py:257-265 | a raise from assessing leaves the record as it was; a result is stored with COMPLETED and the completion time; the stage returns exactly when the processing time can be computed, and records it |
| ResponseAgent.Execute | agents/response_agent.py:159-270 | the mutating `execute` ends in the state and outcome its specification gives |
| ResponseAgent.RespondToDecision | agents/response_agent.py:173-267 | the part of `execute` past the guard ends as its specification gives |
| ResponseAgent.CompleteResponse | agents/response_agent.py:257-265 | the final assignments end as the completion specification gives |
| PlainData.ToPlainShape | app/orchestrator.py:97-118 | an enum becomes its value; a model becomes a dictionary whose i-th pair is its i-th field name with the converted value; a dictionary's i-th pair is its i-th key and value, both converted; lists, tuples and sets become lists of converted elements of the same length; scalars are unchanged |
| PlainData.ToPlainIsPlain | app/orchestrator.py:84-118 | the result holds no enum, model, tuple or set anywhere |
| PlainData.ItemsArePlain | app/orchestrator.py:115-116 | every converted element of a container is plain |
| PlainData.PlainIsFixed | app/orchestrator.py:113-118 | plain data passes through unchanged |
| PlainData.ToPlainIdempotent | app/orchestrator.py:84-118 | converting twice is converting once |
| Orchestrator.ShouldInvestigate | app/orchestrator.py:238-250 | the answer is investigate exactly when the status is not FAILED and a triage result requires investigation, and decide otherwise |
| Orchestrator.AfterTriage | app/orchestrator.py:252-256 | FAILED ends the run; otherwise investigation follows exactly when the triage result requires it, and decision otherwise |
| Orchestrator.AfterInvestigation | app/orchestrator.py:258-262 | the run ends exactly when the status is FAILED, and goes to decision otherwise |
| Orchestrator.AfterDecision | app/orchestrator.py:264-268 | the run ends exactly when the status is FAILED, and goes to response otherwise |
| Orchestrator.Next | app/orchestrator.py:49-80 | every transition follows a graph edge to a later stage; response always ends; any other end means FAILED |
| Orchestrator.EdgesGoForward | app/orchestrator.py:46-80 | no edge leads back to an earlier stage or into triage, and none leaves response |
| Orchestrator.MergeAt | app/orchestrator.py:131-137 | merging an update sets each listed key from the update, keeps every unlisted key, and never changes the alert, AI flag, workflow id or start time |
| Orchestrator.Entered | app/orchestrator.py:123 | entering a node sets current_agent to the node's label and changes nothing else |
| Orchestrator.Wrap | app/orchestrator.py:131-148 | a returning stage yields its success keys and record; a raising stage yields the failure keys, FAILED, and its errors with one "<Stage> error: m" appended |
| Orchestrator.UpdateTouchesOnlyItsKeys | app/orchestrator.py:131-236 | decision and response keep the warnings; only triage writes a triage result and only decision a decision result; a raise writes no result; the alert and AI flag never change |
| Orchestrator.Conclude | app/orchestrator.py:138-148 | the wrapper's failure handling appends the error and sets FAILED on the record, and returns the update `Wrap` gives |
| Orchestrator.RunTriageNode | app/orchestrator.py:120-148 | the triage wrapper returns the update of its specification |
| Orchestrator.RunInvestigateNode | app/orchestrator.py:150-178 | the investigation wrapper returns the update of its specification, warnings included on both paths |
| Orchestrator.RunDecideNode | app/orchestrator.py:180-206 | the decision wrapper returns the update of its specification |
| Orchestrator.RunRespondNode | app/orchestrator.py:208-236 | the response wrapper returns the update of its specification, completion time included |
| Orchestrator.TriageNodeOnRaise | app/orchestrator.py:138-148 | a triage raise yields the failure keys, FAILED, and exactly one "Triage error: m" appended to the errors |
| Orchestrator.RunFrom | app/orchestrator.py:46-80 | a run from a node visits that node first |
| Orchestrator.RunFromFollowsEdges | app/orchestrator.py:49-80 | consecutive stages of a run follow graph edges with strictly rising rank, and a run that stops before response stops on FAILED |
| Orchestrator.Run | app/orchestrator.py:46 | every run starts at triage |
| Orchestrator.RunVisitsEachNodeAtMostOnce | app/orchestrator.py:46-80 | no stage is visited twice, and a run has at most four stages |
| Orchestrator.RankAtLeastIndex | app/orchestrator.py:46-80 | in a strictly rising trace, the stage at position i has rank at least i |
| Orchestrator.RunIsPathFromTriage | app/orchestrator.py:46-80 | a run's trace is one of the six paths from triage |
| Orchestrator.FailureEndsRun | app/orchestrator.py:252-268 | a stage that writes FAILED is the last one to run |
| Orchestrator.InvestigatesIff | app/orchestrator.py:238-256 | investigation runs exactly when triage did not fail and its result requires investigation |
| Orchestrator.InvestigationNeverSkipsInGraph | app/orchestrator.py:246-250 | whenever the graph reaches investigation, the agent's skip condition is false |
| Orchestrator.TriageFailureEndsRun | app/orchestrator.py:138-148 | when triage fails, no other stage runs, the final status is FAILED, and the errors are those of the triage update |
| Orchestrator.TriageRaiseEndsWorkflow | app/orchestrator.py:138-148 | on the compiled graph, a raising triage stage ends the run after triage, FAILED, with exactly one "Triage error: m" added to the incoming errors |
| Orchestrator.FallbackTriageStep | app/orchestrator.py:120-137 | with AI off, the triage node leaves the channels COMPLETED with a result asking for investigation |
| Orchestrator.FallbackInvestigateStep | app/orchestrator.py:150-178 | with AI off, the investigate node adds an investigation, keeps triage and leaves the status COMPLETED |
| Orchestrator.FallbackDecideStep | app/orchestrator.py:180-206 | with AI off, the decide node adds a decision, keeps the earlier results and leaves the status COMPLETED |
| Orchestrator.FallbackRespondStep | app/orchestrator.py:208-236 | with AI off and a decision present, the respond node adds a response with a ticket, keeps the earlier results and leaves the status COMPLETED |
| Orchestrator.FullRun | app/orchestrator.py:46-80 | when triage, investigate and decide each hand on to the next node, the run visits all four nodes and ends with the channels after respond |
| Orchestrator.FallbackRun | app/orchestrator.py:46-80 | with AI off, the compiled graph runs triage, investigate, decide and respond in that order and ends COMPLETED with all four results and a ticket |
| Orchestrator.RunGraph | app/orchestrator.py:46-80 | the scheduling loop produces exactly the run of the graph |
| Orchestrator.NextIsCloser | app/orchestrator.py:49-80 | every transition moves closer to the end |
| Orchestrator.RemainingAfterStep | app/orchestrator.py:49-80 | running one more step leaves the rest of the run unchanged |
| Orchestrator.CompletionEvent | app/orchestrator.py:314-321 | the final event says "failed" exactly when the final status is FAILED, and carries the retry message exactly then; it reports the decision's verdict and priority when there is a decision |
| Orchestrator.FaultEvent | app/orchestrator.py:329-335 | the fault event says "failed", carries the retry message and the error |
| Orchestrator.ProcessAlert | app/orchestrator.py:270-336 | without a fault the result is the run of the graph from the record; with one, "Workflow error: e" is appended and the record is FAILED; either way the event says "failed" exactly when the final status is FAILED |

## Left out

- **Language-model calls, timeouts and prompt templates.** `chain.ainvoke`, `asyncio.wait_for`
  and loading the prompt templates are foreign calls. Each stage's reply is an input of the
  environment.
- **Optional I/O.** Event callbacks, logging, `print` and `asyncio.sleep(mock_data_delay)` are
  left out. Unless a callback raises (see below), they have no effect on the state.
- **Environment values.** `datetime.utcnow()`, `uuid.uuid4()`, `json.loads`, `json.dumps` and
  `str()` of a JSON value are parameters of the environment.
- **Clock readings.** The response stage reads the clock twice, for the result timestamp and
  its completion time. The model uses one reading per stage.
- **Processing time.** The arithmetic for `processing_time_seconds` (`fromisoformat` and
  `total_seconds`) is the environment's `elapsed`. It may raise.
- **Loading the threat intelligence.** `_load_threat_intel` is file I/O. The table is part of
  the environment. Entries always have their fields.
- **Pydantic validation.** Lax coercions, such as a numeric string accepted as a float, are not
  modelled. A field validates only when it has the JSON type. The texts of validation errors
  are reduced to one fixed message per model and field.
- **ResponseAgent.ParsedList: TypeErrors from the list merge.** A parsed `actions_taken`,
  `notifications_sent` or `automation_applied` that is null, a string or an object makes
  `result_dict.get(...) + simulated[...]` raise a TypeError, and so does `set()` over unhashable
  elements (agents/response_agent.py:236-238). The model raises the field's validation message
  for `ResponseResult` instead, so the text recorded as "Response error: ..." differs.
- **Enum rendering in prompts.** The severity, verdict and priority enums are given to the
  prompt as their string values. Their Python `str()` rendering is not modelled.
- **ASCII-only case conversion.** `Text.Lower` and `Text.Upper` convert ASCII letters only.
  Python's full Unicode case mapping is not modelled.
- **ResponseAgent.MergeListsIsUnion: element order.** This states the merged lists as sets,
  with no duplicates. The model keeps first occurrences in order, where Python's set order is
  unspecified.
- **Plain data round trip.** The round trip through `_to_plain` and `model_validate` in
  `process_alert` is taken as the identity on the record. The graph channels hold typed
  values.
  - `_to_plain` itself is modelled separately (`PlainData`). A model node is taken as its
    `model_dump`, so the JSON-string round trip inside it is not modelled. Nor are dictionary
    keys that collide after conversion.
  - The `TypeError` branch for a non-dict payload cannot be taken: a model always converts to
    a dictionary (`PlainData.ToPlainShape`).
- **Orchestrator.ProcessAlert: exceptions from the graph call.** Exceptions raised by
  `ainvoke` or by revalidation are the `fault` parameter. The model does not derive them.
- **LangGraph's merge.** LangGraph's internal channel merge is modelled as `Orchestrator.Merge`.
  Each returned key overwrites its channel.
- **Event callbacks raising.** The callbacks are assumed not to raise. A raise from the
  "completed" callback inside a wrapper's `try` (app/orchestrator.py:128-129) would be recorded
  as "<Stage> error" and mark the record FAILED. A raise from the "started" callback
  (app/orchestrator.py:124-125) or from the final callback (app/orchestrator.py:314) would
  reach `process_alert`'s handler and append "Workflow error".
- **Malformed threat intelligence.** A malicious-IP entry without `ip`, `description` or
  `confidence`, or an attack pattern without `name` or `description`, raises KeyError in
  `_get_relevant_threat_intel` (agents/investigation_agent.py:61-62, 68). A string-valued
  `techniques` entry would make the `in` test a substring test (agents/investigation_agent.py:67).
  The model's table has typed entries, so neither case arises.
- **Unused record fields.** The `ai_provider`, `ai_model`, `api_key` and `ground_truth`
  fields of `SOCWorkflowState` (app/context.py:134-136, 155) are not read by the core and are
  not modelled.
- **PlainData.ToPlain: unhashable keys.** A dictionary key that `_to_plain` turns into a list
  (a tuple key) makes Python raise TypeError. `ToPlain` returns a value instead.
- **Out-of-scope code.** `TriageAgent.run`, the global `get_orchestrator` instance, the LLM
  factory, configuration, the evaluation script, the server entry point and the prompt text
  files are not part of this model.
