/** AsyncIFlowClient: the iFlow adapter (OpenAI-compatible chat completions)
    with bearer-token authentication. */
module AsyncIFlowClient {
  import opened Lang
  import opened Gson
  import opened LlmApi

  const PROVIDER_ID: string := "iflow"
  const API_URL: string := "https://apis.iflow.cn/v1/chat/completions"

  /** The adapter's final fields (the HTTP client itself is not modelled). */
  datatype Client = Client(apiKey: string, model: string, maxTokens: int, temperature: Temperature)

  /** The constructor: a null or empty API key throws IllegalArgumentException. */
  function New(apiKey: Option<string>, model: string, maxTokens: int, temperature: Temperature): (r: Try<Client>)
    ensures r.Thrown? <==> apiKey == None || apiKey.value == ""
    ensures r.Thrown? ==> r.error == Java(IllegalArgument)
    ensures r.Value? ==> r.value == Client(apiKey.value, model, maxTokens, temperature)
  {
    if apiKey == None || apiKey.value == "" then Thrown(Java(IllegalArgument))
    else Value(Client(apiKey.value, model, maxTokens, temperature))
  }

  /** mapStatusCodeToErrorType: only 500, 502, 503 and 504 are server errors. */
  function ErrorTypeFor(code: int): (t: ErrorType)
    ensures t == AUTH_ERROR <==> code == 401 || code == 403
    ensures t == RATE_LIMIT <==> code == 429
    ensures t == SERVER_ERROR <==> code in {500, 502, 503, 504}
    ensures t == CLIENT_ERROR <==> code !in {401, 403, 429, 500, 502, 503, 504}
  {
    match code
    case 401 => AUTH_ERROR
    case 403 => AUTH_ERROR
    case 429 => RATE_LIMIT
    case 500 => SERVER_ERROR
    case 502 => SERVER_ERROR
    case 503 => SERVER_ERROR
    case 504 => SERVER_ERROR
    case _ => CLIENT_ERROR
  }

  /** isRetryable. */
  predicate IsRetryable(code: int) {
    code == 429 || (500 <= code <= 599)
  }

  /** The request body buildRequestBody produces: model, temperature and
      max_tokens from params or else the constructor defaults, then the chat
      messages. */
  ghost predicate IsRequestBody(c: Client, prompt: string, params: Params, body: Members) {
    && Keys(body) == ["model", "temperature", "max_tokens", "messages"]
    && Get(body, "model") == Some(JStr(params.model.GetOr(c.model)))
    && Get(body, "temperature") == Some(TemperatureJson(params.temperature.GetOr(c.temperature)))
    && Get(body, "max_tokens") == Some(IntJson(params.maxTokens.GetOr(c.maxTokens)))
    && Get(body, "messages") == Some(JArr(ChatMessages(params.systemPrompt, prompt)))
  }

  /** buildRequestBody: the JsonObject filled property by property. */
  method BuildRequestBody(c: Client, prompt: string, params: Params) returns (body: Members)
    ensures IsRequestBody(c, prompt, params, body)
  {
    var activeModel := params.model.GetOr(c.model);
    var activeTemp := params.temperature.GetOr(c.temperature);
    var activeMaxTokens := params.maxTokens.GetOr(c.maxTokens);
    body := [];
    body := Put(body, "model", JStr(activeModel));
    body := Put(body, "temperature", TemperatureJson(activeTemp));
    body := Put(body, "max_tokens", IntJson(activeMaxTokens));
    var messages := BuildChatMessages(params.systemPrompt, prompt);
    body := Put(body, "messages", JArr(messages));
    assert DistinctKeys(body);
    GetDistinct(body, 0);
    GetDistinct(body, 1);
    GetDistinct(body, 2);
    GetDistinct(body, 3);
  }

  /** The exception classes parseResponse catches: JsonParseException,
      IllegalStateException and IndexOutOfBoundsException. */
  const CAUGHT: set<JavaException> := {JsonSyntax, IllegalState, IndexOutOfBounds}

  /** The statements inside parseResponse's try block: one chain of Gson
      calls, with usage optional. */
  function ParseBody(c: Client, params: Params, responseBody: Body): (r: Try<LLMResponse>)
    ensures r.Thrown? ==> r.error.Java?
  {
    var tree :- ParseString(responseBody);
    var json :- AsObject(tree);
    var choicesRef :- MemberArray(json, "choices");
    var choices :- Deref(choicesRef);
    var first :- At(choices, 0);
    var firstChoice :- AsObject(first);
    var messageRef :- MemberObject(firstChoice, "message");
    var message :- Deref(messageRef);
    var contentElement :- Deref(Get(message, "content"));
    var content :- AsString(contentElement);
    var usage :- if Has(json, "usage") then
                   var u :- CastObject(Get(json, "usage").value);
                   Value(Some(u))
                 else Value(None);
    var tokens :- if usage.Some? then
                    var total :- Deref(Get(usage.value, "total_tokens"));
                    AsInt(total)
                  else Value(0);
    Value(LLMResponse(content, params.model.GetOr(c.model), PROVIDER_ID, tokens, false))
  }

  /** parseResponse: the caught classes become a non-retryable
      INVALID_RESPONSE, so an empty "choices" array does; a missing
      "choices" (NullPointerException), a member of the wrong type
      (ClassCastException) and the exceptions of getAsString/getAsInt on
      null, objects and non-numeric text are not caught and fail the call as
      they are. A success carries the params model (else the constructor's). */
  function ParseResponse(c: Client, params: Params, responseBody: Body): (r: Try<LLMResponse>)
    ensures r.Thrown? ==> r.error == Llm(INVALID_RESPONSE, PROVIDER_ID, false)
                          || r.error in {Java(NullPointer), Java(ClassCast), Java(UnsupportedOperation), Java(NumberFormat)}
    ensures r.Value? ==> (r.value.model == params.model.GetOr(c.model) && r.value.providerId == PROVIDER_ID
                          && !r.value.fromCache && IsInt32(r.value.tokensUsed))
    ensures responseBody.Malformed? ==> r == Thrown(Llm(INVALID_RESPONSE, PROVIDER_ID, false))
    ensures responseBody.Parsed? && responseBody.tree.JObj?
            && Get(responseBody.tree.members, "choices") == Some(JArr([]))
            ==> r == Thrown(Llm(INVALID_RESPONSE, PROVIDER_ID, false))
    ensures responseBody.Parsed? && responseBody.tree.JObj? && !Has(responseBody.tree.members, "choices")
            ==> r == Thrown(Java(NullPointer))
    ensures FirstChoiceContent(responseBody).Some? && UsageTotalTokens(responseBody).Some? ==>
              r == Value(LLMResponse(FirstChoiceContent(responseBody).value, params.model.GetOr(c.model),
                                     PROVIDER_ID, UsageTotalTokens(responseBody).value, false))
  {
    CatchAsInvalid(ParseBody(c, params, responseBody), CAUGHT, PROVIDER_ID)
  }

  /** A well-formed reply parses to its content, total_tokens (or 0 without
      usage) and the params model. */
  lemma ParseReply(c: Client, params: Params, content: string, totalTokens: Option<int>)
    requires totalTokens.Some? ==> IsInt32(totalTokens.value)
    ensures ParseResponse(c, params, Parsed(OpenAIReply(content, totalTokens)))
            == Value(LLMResponse(content, params.model.GetOr(c.model), PROVIDER_ID, totalTokens.GetOr(0), false))
  {
    OpenAIReplyFields(content, totalTokens);
    ReplyMessageContent(content);
    if totalTokens.Some? {
      ReplyUsageTotal(totalTokens.value);
      IntJsonRoundTrip(totalTokens.value);
    }
  }

  /** The thenApply stage of sendAsync: any status but exactly 200 fails with
      an LLMException of provider "iflow" typed by ErrorTypeFor and
      retryable exactly for 429 and 500..599; the body is read only on 200. */
  function Complete(c: Client, params: Params, outcome: HttpOutcome): (r: Try<LLMResponse>)
    ensures outcome.Exception? ==> r == Thrown(Java(Io))
    ensures outcome.Status? && outcome.code != 200 ==>
              && r.Thrown? && r.error.Llm?
              && r.error.providerId == PROVIDER_ID
              && r.error.errorType == ErrorTypeFor(outcome.code)
              && (r.error.retryable <==> outcome.code == 429 || 500 <= outcome.code <= 599)
    ensures outcome.Status? && outcome.code == 200 ==> r == ParseResponse(c, params, outcome.body)
  {
    match outcome
    case Exception => Thrown(Java(Io))
    case Status(code, body) =>
      if code != 200 then Thrown(Llm(ErrorTypeFor(code), PROVIDER_ID, IsRetryable(code)))
      else ParseResponse(c, params, body)
  }

  /** sendAsync: the request it sends and how its future completes. */
  method SendAsync(c: Client, prompt: string, params: Params, outcome: HttpOutcome)
    returns (request: HttpRequest, result: Try<LLMResponse>)
    ensures request.url == API_URL && request.timeoutSeconds == 60
    ensures request.headers == [("Content-Type", "application/json"), ("Authorization", "Bearer " + c.apiKey)]
    ensures request.body.JObj? && IsRequestBody(c, prompt, params, request.body.members)
    ensures result == Complete(c, params, outcome)
  {
    var body := BuildRequestBody(c, prompt, params);
    request := HttpRequest(API_URL, [("Content-Type", "application/json"), ("Authorization", "Bearer " + c.apiKey)],
                           JObj(body), 60);
    result := Complete(c, params, outcome);
  }
}
