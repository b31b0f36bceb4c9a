/** AsyncLongCatClient: the LongCat adapter (OpenAI-compatible chat
    completions) with bearer-token authentication. */
module AsyncLongCatClient {
  import opened Lang
  import opened Gson
  import opened LlmApi

  const PROVIDER_ID: string := "longcat"
  const API_URL: string := "https://api.longcat.chat/openai/v1/chat/completions"

  /** The adapter's final fields (the HTTP client itself is not modelled). */
  datatype Client = Client(apiKey: string, model: string, maxTokens: int, temperature: Temperature)

  /** The constructor: a null or empty API key throws IllegalArgumentException. */
  function New(apiKey: Option<string>, model: string, maxTokens: int, temperature: Temperature): (r: Try<Client>)
    ensures r.Thrown? <==> apiKey == None || apiKey.value == ""
    ensures r.Thrown? ==> r.error == Java(IllegalArgument)
    ensures r.Value? ==> r.value == Client(apiKey.value, model, maxTokens, temperature)
  {
    if apiKey == None || apiKey.value == "" then Thrown(Java(IllegalArgument))
    else Value(Client(apiKey.value, model, maxTokens, temperature))
  }

  /** determineErrorType: no TIMEOUT case, so 408 is a client error. */
  function ErrorTypeFor(code: int): (t: ErrorType)
    ensures t == RATE_LIMIT <==> code == 429
    ensures t == AUTH_ERROR <==> code == 401 || code == 403
    ensures t == SERVER_ERROR <==> code >= 500
    ensures t == CLIENT_ERROR <==> code < 500 && code != 401 && code != 403 && code != 429
  {
    match code
    case 429 => RATE_LIMIT
    case 401 => AUTH_ERROR
    case 403 => AUTH_ERROR
    case 400 => CLIENT_ERROR
    case _ => if code >= 500 then SERVER_ERROR else CLIENT_ERROR
  }

  /** The retryable flag of a non-200 status in sendAsync. */
  predicate RetryableStatus(code: int) {
    code >= 500
  }

  /** The request body buildRequestBody produces: params override the
      constructor defaults, and the messages follow ChatMessages. */
  ghost predicate IsRequestBody(c: Client, prompt: string, params: Params, body: Members) {
    && Keys(body) == ["model", "max_tokens", "temperature", "messages"]
    && Get(body, "model") == Some(JStr(params.model.GetOr(c.model)))
    && Get(body, "max_tokens") == Some(IntJson(params.maxTokens.GetOr(c.maxTokens)))
    && Get(body, "temperature") == Some(TemperatureJson(params.temperature.GetOr(c.temperature)))
    && Get(body, "messages") == Some(JArr(ChatMessages(params.systemPrompt, prompt)))
  }

  /** buildRequestBody: the JsonObject filled property by property. */
  method BuildRequestBody(c: Client, prompt: string, params: Params) returns (body: Members)
    ensures IsRequestBody(c, prompt, params, body)
  {
    body := [];
    body := Put(body, "model", JStr(params.model.GetOr(c.model)));
    body := Put(body, "max_tokens", IntJson(params.maxTokens.GetOr(c.maxTokens)));
    body := Put(body, "temperature", TemperatureJson(params.temperature.GetOr(c.temperature)));
    var messages := BuildChatMessages(params.systemPrompt, prompt);
    body := Put(body, "messages", JArr(messages));
    assert DistinctKeys(body);
    GetDistinct(body, 0);
    GetDistinct(body, 1);
    GetDistinct(body, 2);
    GetDistinct(body, 3);
  }

  /** The statements inside parseResponse's try block: one chain of Gson
      calls, with usage optional. */
  function ParseBody(c: Client, responseBody: Body): (r: Try<LLMResponse>)
    ensures r.Thrown? ==> r.error.Java?
  {
    var tree :- ParseString(responseBody);
    var json :- AsObject(tree);
    var choicesRef :- MemberArray(json, "choices");
    var choices :- Deref(choicesRef);
    var first :- At(choices, 0);
    var firstChoice :- AsObject(first);
    var messageRef :- MemberObject(firstChoice, "message");
    var message :- Deref(messageRef);
    var contentElement :- Deref(Get(message, "content"));
    var content :- AsString(contentElement);
    var tokensUsed :- if Has(json, "usage") then
                        var usage :- CastObject(Get(json, "usage").value);
                        var total :- Deref(Get(usage, "total_tokens"));
                        AsInt(total)
                      else Value(0);
    Value(LLMResponse(content, c.model, PROVIDER_ID, tokensUsed, false))
  }

  /** parseResponse: catch (Exception) turns every failure into a
      non-retryable INVALID_RESPONSE; a success carries the constructor's
      model. */
  function ParseResponse(c: Client, responseBody: Body): (r: Try<LLMResponse>)
    ensures r.Thrown? ==> r.error == Llm(INVALID_RESPONSE, PROVIDER_ID, false)
    ensures r.Value? ==> (r.value.model == c.model && r.value.providerId == PROVIDER_ID
                          && !r.value.fromCache && IsInt32(r.value.tokensUsed))
    ensures responseBody.Parsed? && responseBody.tree.JObj?
            && (!Has(responseBody.tree.members, "choices")
                || Get(responseBody.tree.members, "choices") == Some(JArr([])))
            ==> r.Thrown?
    ensures FirstChoiceContent(responseBody).Some? && UsageTotalTokens(responseBody).Some? ==>
              r == Value(LLMResponse(FirstChoiceContent(responseBody).value, c.model, PROVIDER_ID,
                                     UsageTotalTokens(responseBody).value, false))
  {
    CatchAsInvalid(ParseBody(c, responseBody), AllExceptions, PROVIDER_ID)
  }

  /** A well-formed reply parses to its content, with total_tokens (or 0
      without usage) and the constructor's model. */
  lemma ParseReply(c: Client, content: string, totalTokens: Option<int>)
    requires totalTokens.Some? ==> IsInt32(totalTokens.value)
    ensures ParseResponse(c, Parsed(OpenAIReply(content, totalTokens)))
            == Value(LLMResponse(content, c.model, PROVIDER_ID, totalTokens.GetOr(0), false))
  {
    OpenAIReplyFields(content, totalTokens);
    ReplyMessageContent(content);
    if totalTokens.Some? {
      ReplyUsageTotal(totalTokens.value);
      IntJsonRoundTrip(totalTokens.value);
    }
  }

  /** The thenApply stage of sendAsync: any status but exactly 200 fails with
      an LLMException of provider "longcat", retryable exactly from 500 up;
      the body is read only on 200. */
  function Complete(c: Client, outcome: HttpOutcome): (r: Try<LLMResponse>)
    ensures outcome.Exception? ==> r == Thrown(Java(Io))
    ensures outcome.Status? && outcome.code != 200 ==>
              && r.Thrown? && r.error.Llm?
              && r.error.providerId == PROVIDER_ID
              && r.error.errorType == ErrorTypeFor(outcome.code)
              && (r.error.retryable <==> r.error.errorType == SERVER_ERROR)
    ensures outcome.Status? && outcome.code == 200 ==> r == ParseResponse(c, outcome.body)
  {
    match outcome
    case Exception => Thrown(Java(Io))
    case Status(code, body) =>
      if code != 200 then Thrown(Llm(ErrorTypeFor(code), PROVIDER_ID, RetryableStatus(code)))
      else ParseResponse(c, body)
  }

  /** sendAsync: the request it sends and how its future completes. */
  method SendAsync(c: Client, prompt: string, params: Params, outcome: HttpOutcome)
    returns (request: HttpRequest, result: Try<LLMResponse>)
    ensures request.url == API_URL && request.timeoutSeconds == 60
    ensures request.headers == [("Content-Type", "application/json"), ("Authorization", "Bearer " + c.apiKey)]
    ensures request.body.JObj? && IsRequestBody(c, prompt, params, request.body.members)
    ensures result == Complete(c, outcome)
  {
    var body := BuildRequestBody(c, prompt, params);
    request := HttpRequest(API_URL, [("Content-Type", "application/json"), ("Authorization", "Bearer " + c.apiKey)],
                           JObj(body), 60);
    result := Complete(c, outcome);
  }
}
