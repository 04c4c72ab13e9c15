/** The response-parsing contract all four stages share: hand `json.loads` the text from the
    first `{` through the last `}` of the reasoner's reply, or raise when there is no such text. */
module ResponseParsing {
  import opened Wrappers
  import opened Text
  import opened JsonValue
  import opened External

  /** `a` is the first `{` of `content`, `b` its last `}`, and `a` comes before `b`. */
  predicate SpanAt(content: string, a: int, b: int) {
    && 0 <= a < b < |content|
    && content[a] == '{' && content[b] == '}'
    && (forall k :: 0 <= k < a ==> content[k] != '{')
    && (forall k :: b < k < |content| ==> content[k] != '}')
  }

  /** There is at most one such span. */
  lemma SpanAtUnique(content: string, a: int, b: int, a': int, b': int)
    requires SpanAt(content, a, b) && SpanAt(content, a', b')
    ensures a == a' && b == b'
  {
  }

  /** `start = content.find("{")`, `end = content.rfind("}") + 1`, and the slice
      `content[start:end]` when `start != -1 and end > start`. */
  function JsonSpan(content: string): Option<string> {
    var start := Find(content, '{');
    var end := RFind(content, '}') + 1;
    if start != -1 && end > start then Some(content[start..end]) else None
  }

  /** A span is found exactly when some `{` comes before some `}`; it then runs from the first
      `{` through the last `}`. */
  lemma JsonSpanCharacterised(content: string)
    ensures JsonSpan(content).Some? <==> exists i, j :: 0 <= i < j < |content| && content[i] == '{' && content[j] == '}'
    ensures JsonSpan(content).Some? ==> exists a, b :: SpanAt(content, a, b) && JsonSpan(content).value == content[a..b + 1]
    ensures JsonSpan(content).Some? ==>
              var v := JsonSpan(content).value; |v| >= 2 && v[0] == '{' && v[|v| - 1] == '}'
  {
    var start := Find(content, '{');
    var end := RFind(content, '}') + 1;
    if start != -1 && end > start {
      assert SpanAt(content, start, end - 1);
    }
  }

  const NoJsonMessage := "No JSON found in response"

  /** `_parse_response(content)`: the decoded span; ValueError "No JSON found in response"
      when there is no span; a ValueError naming `what` when `json.loads` rejects the span. */
  function ParseResponse(content: string, what: string, loads: string -> Result<Json>): Result<Json>
  {
    match JsonSpan(content)
    case None => Raise(NoJsonMessage)
    case Some(span) =>
      match loads(span)
      case Ok(v) => Ok(v)
      case Raise(m) => Raise("Failed to parse " + what + ": " + m)
  }

  /** What a stage does with the reasoner's reply to `vars`: the reasoner's exception or the
      empty-response error propagates, otherwise the content is parsed. */
  function Reason(env: Environment, stage: Stage, vars: PromptVars, what: string): (r: Result<Json>)
    ensures ReplyContent(Invoke(env, stage, vars)).Raise? ==> r == Raise(ReplyContent(Invoke(env, stage, vars)).message)
  {
    var text :- ReplyContent(Invoke(env, stage, vars));
    ParseResponse(text, what, env.loads)
  }

  /** A reply with no `{`, or whose last `}` comes before its first `{`, always raises. */
  lemma NoBraceRaises(content: string, what: string, loads: string -> Result<Json>)
    requires forall k :: 0 <= k < |content| ==> content[k] != '{'
    ensures ParseResponse(content, what, loads) == Raise(NoJsonMessage)
  {
    JsonSpanCharacterised(content);
  }

  lemma ClosingBeforeOpeningRaises(content: string, what: string, loads: string -> Result<Json>, a: int)
    requires 0 <= a < |content| && content[a] == '{'
    requires forall k :: a <= k < |content| ==> content[k] != '}'
    requires forall k :: 0 <= k < a ==> content[k] != '{'
    ensures ParseResponse(content, what, loads) == Raise(NoJsonMessage)
  {
    JsonSpanCharacterised(content);
  }
}
