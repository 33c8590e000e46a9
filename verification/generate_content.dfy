/**
 * The `generateContent` HTTPS function: method and field checks, the
 * length to `max_tokens` table, and the reply built from the completion
 * provider's answer. The provider is an oracle passed in by the caller.
 */
module GenerateContent {
  import opened Wrappers
  import opened JsText

  /** The JSON body; each field may be absent. */
  datatype GenerateBody = GenerateBody(
    prompt: Option<string>,
    contentType: Option<string>,
    tone: Option<string>,
    length: Option<string>)

  /** The completion request: model, user message and (maybe omitted) `max_tokens`. */
  datatype CompletionCall = CompletionCall(model: string, userMessage: string, maxTokens: Option<nat>)

  /** What the completion provider does with the call. */
  datatype CompletionOutcome =
    | CompletionThrows
    | Completion(content: Option<string>, totalTokens: Option<int>)

  datatype GenerateReply =
    | Preflight
    | MethodNotAllowed
    | InvalidPayload
    | Generated(result: string, tokensUsed: int)
    | GenerationFailed

  datatype Handled = Handled(call: Option<CompletionCall>, reply: GenerateReply)

  function StatusCode(r: GenerateReply): nat {
    match r
    case Preflight => 204
    case MethodNotAllowed => 405
    case InvalidPayload => 400
    case Generated(_, _) => 200
    case GenerationFailed => 500
  }

  /**
   * `LENGTH_TO_TOKENS[length]`; for a string that is not one of the three
   * keys the lookup is `undefined` and the field is left out of the request.
   */
  function MaxTokens(length: string): (t: Option<nat>)
    ensures t.Some? <==> length in {"short", "medium", "long"}
  {
    if length == "short" then Some(200)
    else if length == "medium" then Some(350)
    else if length == "long" then Some(600)
    else None
  }

  /** The three sizes grow with the length key. */
  lemma MaxTokensIncreasing()
    ensures MaxTokens("short").value < MaxTokens("medium").value < MaxTokens("long").value
    ensures MaxTokens("short") == Some(200)
    ensures MaxTokens("medium") == Some(350)
    ensures MaxTokens("long") == Some(600)
  {
  }

  /** The request passes validation: every field is truthy (no enum check). */
  predicate FieldsPresent(b: GenerateBody) {
    IsTruthy(b.prompt) && IsTruthy(b.contentType) && IsTruthy(b.tone) && IsTruthy(b.length)
  }

  function Handle(httpMethod: string, body: GenerateBody, provider: CompletionOutcome): (h: Handled)
    ensures h.call.Some? <==> httpMethod == "POST" && FieldsPresent(body)
    ensures httpMethod == "OPTIONS" ==> h.reply == Preflight
    ensures httpMethod != "OPTIONS" && httpMethod != "POST" ==> h.reply == MethodNotAllowed
    ensures httpMethod == "POST" && !FieldsPresent(body) ==> h.reply == InvalidPayload
    ensures h.call.Some? ==>
      && h.call.value.userMessage == body.prompt.value
      && h.call.value.maxTokens == MaxTokens(body.length.value)
    ensures h.reply.Generated? <==> h.call.Some? && provider.Completion?
    ensures h.reply.GenerationFailed? <==> h.call.Some? && provider.CompletionThrows?
    ensures h.reply.Generated? ==>
      && h.reply.tokensUsed == provider.totalTokens.GetOr(0)
      && h.reply.result == Trim(provider.content.GetOr(""))
  {
    if httpMethod == "OPTIONS" then Handled(None, Preflight)
    else if httpMethod != "POST" then Handled(None, MethodNotAllowed)
    else if !FieldsPresent(body) then Handled(None, InvalidPayload)
    else
      var call := CompletionCall("gpt-4o-mini", body.prompt.value, MaxTokens(body.length.value));
      match provider
      case CompletionThrows => Handled(Some(call), GenerationFailed)
      case Completion(content, tokens) => Handled(Some(call), Generated(Trim(content.GetOr("")), tokens.GetOr(0)))
  }

  /** Only a validated POST reaches the provider, and each reply has the documented code. */
  lemma StatusCodes(httpMethod: string, body: GenerateBody, provider: CompletionOutcome)
    ensures var code := StatusCode(Handle(httpMethod, body, provider).reply);
      && (code == 405 <==> httpMethod != "OPTIONS" && httpMethod != "POST")
      && (code == 400 <==> httpMethod == "POST" && !FieldsPresent(body))
      && (code == 200 <==> httpMethod == "POST" && FieldsPresent(body) && provider.Completion?)
      && (code == 500 <==> httpMethod == "POST" && FieldsPresent(body) && provider.CompletionThrows?)
  {
  }

  /** A returned text never begins or ends with whitespace. */
  lemma GeneratedTextIsTrimmed(httpMethod: string, body: GenerateBody, provider: CompletionOutcome)
    requires Handle(httpMethod, body, provider).reply.Generated?
    ensures var t := Handle(httpMethod, body, provider).reply.result;
      t != "" ==> !IsJsSpace(t[0]) && !IsJsSpace(t[|t| - 1])
  {
  }

  /**
   * Validation is truthiness only: values outside the enums reach the
   * provider, and a length that is not a table key sends no `max_tokens`.
   */
  lemma UnknownValuesForwarded(provider: CompletionOutcome)
    ensures Handle("POST", GenerateBody(Some("topic"), Some("poem"), Some("angry"), Some("huge")), provider).call
      == Some(CompletionCall("gpt-4o-mini", "topic", None))
    ensures Handle("POST", GenerateBody(Some("topic"), Some("post"), Some("friendly"), Some("")), provider).reply
      == InvalidPayload
  {
  }
}
