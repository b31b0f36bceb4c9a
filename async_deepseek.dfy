/** AsyncDeepSeekClient: the DeepSeek adapter (OpenAI-compatible chat
    completions) with bearer-token authentication. */
module AsyncDeepSeekClient {
  import opened Lang
  import opened Gson
  import opened LlmApi

  const PROVIDER_ID: string := "deepseek"
  const API_URL: string := "https://api.deepseek.com/v1/chat/completions"

  /** The adapter's final fields (the HTTP client itself is not modelled). */
  datatype Client = Client(apiKey: string, model: string, maxTokens: int, temperature: Temperature)

  /** The explicit constructor: a null or empty API key throws
      IllegalArgumentException, anything else is kept as given. */
  function New(apiKey: Option<string>, model: string, maxTokens: int, temperature: Temperature): (r: Try<Client>)
    ensures r.Thrown? <==> apiKey == None || apiKey.value == ""
    ensures r.Thrown? ==> r.error == Java(IllegalArgument)
    ensures r.Value? ==> (r.value.apiKey == apiKey.value && r.value.model == model
                          && r.value.maxTokens == maxTokens && r.value.temperature == temperature)
  {
    if apiKey == None || apiKey.value == "" then Thrown(Java(IllegalArgument))
    else Value(Client(apiKey.value, model, maxTokens, temperature))
  }

  /** determineErrorType. */
  function ErrorTypeFor(code: int): (t: ErrorType)
    ensures t == RATE_LIMIT <==> code == 429
    ensures t == AUTH_ERROR <==> code == 401 || code == 403
    ensures t == TIMEOUT <==> code == 408
    ensures t == SERVER_ERROR <==> code >= 500
    ensures t == CLIENT_ERROR <==> code < 500 && code != 401 && code != 403 && code != 408 && code != 429
  {
    match code
    case 429 => RATE_LIMIT
    case 401 => AUTH_ERROR
    case 403 => AUTH_ERROR
    case 400 => CLIENT_ERROR
    case 408 => TIMEOUT
    case _ => if code >= 500 then SERVER_ERROR else CLIENT_ERROR
  }

  /** The retryable flag of a non-200 status in sendAsync. */
  predicate RetryableStatus(code: int) {
    code == 429 || code >= 500
  }

  /** The request body buildRequestBody produces: params override the
      constructor defaults, and the messages follow ChatMessages. */
  ghost predicate IsRequestBody(c: Client, prompt: string, params: Params, body: Members) {
    && Keys(body) == ["model", "max_tokens", "temperature", "messages"]
    && Get(body, "model") == Some(JStr(params.model.GetOr(c.model)))
    && Get(body, "max_tokens") == Some(IntJson(params.maxTokens.GetOr(c.maxTokens)))
    && Get(body, "temperature") == Some(TemperatureJson(params.temperature.GetOr(c.temperature)))
    && Get(body, "messages") == Some(JArr(ChatMessages(params.systemPrompt, prompt)))
  }

  /** buildRequestBody: the JsonObject filled property by property. */
  method BuildRequestBody(c: Client, prompt: string, params: Params) returns (body: Members)
    ensures IsRequestBody(c, prompt, params, body)
  {
    var modelToUse := params.model.GetOr(c.model);
    var maxTokensToUse := params.maxTokens.GetOr(c.maxTokens);
    var tempToUse := params.temperature.GetOr(c.temperature);
    body := [];
    body := Put(body, "model", JStr(modelToUse));
    body := Put(body, "max_tokens", IntJson(maxTokensToUse));
    body := Put(body, "temperature", TemperatureJson(tempToUse));
    var messages := BuildChatMessages(params.systemPrompt, prompt);
    body := Put(body, "messages", JArr(messages));
    assert DistinctKeys(body);
    GetDistinct(body, 0);
    GetDistinct(body, 1);
    GetDistinct(body, 2);
    GetDistinct(body, 3);
  }

  /** The statements inside parseResponse's try block, up to the first
      exception thrown. The only LLMException thrown here is the one for a
      missing or empty "choices" array. */
  function ParseBody(c: Client, responseBody: Body): (r: Try<LLMResponse>)
    ensures r.Thrown? ==> r.error.Java? || r.error == Llm(INVALID_RESPONSE, PROVIDER_ID, false)
  {
    var tree :- ParseString(responseBody);
    var json :- AsObject(tree);
    // a missing "choices" fails like an empty one; a present one must be an array
    var choices :- if Has(json, "choices") then CastArray(Get(json, "choices").value) else Value([]);
    if |choices| == 0 then Thrown(Llm(INVALID_RESPONSE, PROVIDER_ID, false))
    else
      var firstChoice :- AsObject(choices[0]);
      var messageRef :- MemberObject(firstChoice, "message");
      var message :- Deref(messageRef);
      var contentElement :- Deref(Get(message, "content"));
      var content :- AsString(contentElement);
      var tokensUsed :- if Has(json, "usage") then
                          var usage :- CastObject(Get(json, "usage").value);
                          var total :- Deref(Get(usage, "total_tokens"));
                          AsInt(total)
                        else Value(0);
      Value(LLMResponse(content, c.model, PROVIDER_ID, tokensUsed, false))
  }

  /** parseResponse: an LLMException is rethrown, any other exception becomes
      a non-retryable INVALID_RESPONSE. So every failure is INVALID_RESPONSE;
      a success carries the constructor's model (not the params model),
      providerId "deepseek" and fromCache = false. */
  function ParseResponse(c: Client, responseBody: Body): (r: Try<LLMResponse>)
    ensures r.Thrown? ==> r.error == Llm(INVALID_RESPONSE, PROVIDER_ID, false)
    ensures r.Value? ==> (r.value.model == c.model && r.value.providerId == PROVIDER_ID
                          && !r.value.fromCache && IsInt32(r.value.tokensUsed))
    ensures responseBody.Parsed? && responseBody.tree.JObj?
            && (!Has(responseBody.tree.members, "choices")
                || Get(responseBody.tree.members, "choices") == Some(JArr([])))
            ==> r.Thrown?
    ensures FirstChoiceContent(responseBody).Some? && UsageTotalTokens(responseBody).Some? ==>
              r == Value(LLMResponse(FirstChoiceContent(responseBody).value, c.model, PROVIDER_ID,
                                     UsageTotalTokens(responseBody).value, false))
  {
    CatchAsInvalid(ParseBody(c, responseBody), AllExceptions, PROVIDER_ID)
  }

  /** A well-formed reply parses to its content, with total_tokens as the
      token count when usage is reported and 0 when it is not. */
  lemma ParseReply(c: Client, content: string, totalTokens: Option<int>)
    requires totalTokens.Some? ==> IsInt32(totalTokens.value)
    ensures ParseResponse(c, Parsed(OpenAIReply(content, totalTokens)))
            == Value(LLMResponse(content, c.model, PROVIDER_ID, totalTokens.GetOr(0), false))
  {
    OpenAIReplyFields(content, totalTokens);
    ReplyMessageContent(content);
    if totalTokens.Some? {
      ReplyUsageTotal(totalTokens.value);
      IntJsonRoundTrip(totalTokens.value);
    }
  }

  /** The thenApply stage of sendAsync: a failed send fails the future; any
      status but exactly 200 fails it with an LLMException of provider
      "deepseek" whose retryable flag is set exactly for RATE_LIMIT and
      SERVER_ERROR, and the body is read only on 200. */
  function Complete(c: Client, outcome: HttpOutcome): (r: Try<LLMResponse>)
    ensures outcome.Exception? ==> r == Thrown(Java(Io))
    ensures outcome.Status? && outcome.code != 200 ==>
              && r.Thrown? && r.error.Llm?
              && r.error.providerId == PROVIDER_ID
              && r.error.errorType == ErrorTypeFor(outcome.code)
              && (r.error.retryable <==> r.error.errorType == RATE_LIMIT || r.error.errorType == SERVER_ERROR)
    ensures outcome.Status? && outcome.code == 200 ==> r == ParseResponse(c, outcome.body)
  {
    match outcome
    case Exception => Thrown(Java(Io))
    case Status(code, body) =>
      if code != 200 then Thrown(Llm(ErrorTypeFor(code), PROVIDER_ID, RetryableStatus(code)))
      else ParseResponse(c, body)
  }

  /** sendAsync: the request it sends and how its future completes given the
      outcome of the exchange. */
  method SendAsync(c: Client, prompt: string, params: Params, outcome: HttpOutcome)
    returns (request: HttpRequest, result: Try<LLMResponse>)
    ensures request.url == API_URL && request.timeoutSeconds == 60
    ensures request.headers == [("Content-Type", "application/json"), ("Authorization", "Bearer " + c.apiKey)]
    ensures request.body.JObj? && IsRequestBody(c, prompt, params, request.body.members)
    ensures result == Complete(c, outcome)
  {
    var body := BuildRequestBody(c, prompt, params);
    request := HttpRequest(API_URL, [("Content-Type", "application/json"), ("Authorization", "Bearer " + c.apiKey)],
                           JObj(body), 60);
    result := Complete(c, outcome);
  }

  /** A non-200 status never depends on the body. */
  lemma NonSuccessIgnoresBody(c: Client, code: int, b1: Body, b2: Body)
    requires code != 200
    ensures Complete(c, Status(code, b1)) == Complete(c, Status(code, b2))
  {
  }

  /** 408 is classified TIMEOUT yet is not retried. */
  lemma TimeoutNotRetryable(c: Client, body: Body)
    ensures Complete(c, Status(408, body)) == Thrown(Llm(TIMEOUT, PROVIDER_ID, false))
  {
  }
}
