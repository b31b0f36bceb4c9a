/** AsyncClaudeClient: the Anthropic Messages API adapter, authenticated by
    the x-api-key and anthropic-version headers. */
module AsyncClaudeClient {
  import opened Lang
  import opened Gson
  import opened LlmApi

  const PROVIDER_ID: string := "claude"
  const API_URL: string := "https://api.anthropic.com/v1/messages"
  const ANTHROPIC_VERSION: string := "2023-06-01"

  /** The adapter's final fields (the HTTP client itself is not modelled). */
  datatype Client = Client(apiKey: string, model: string, maxTokens: int, temperature: Temperature)

  /** The constructor: a null or empty API key throws IllegalArgumentException. */
  function New(apiKey: Option<string>, model: string, maxTokens: int, temperature: Temperature): (r: Try<Client>)
    ensures r.Thrown? <==> apiKey == None || apiKey.value == ""
    ensures r.Thrown? ==> r.error == Java(IllegalArgument)
    ensures r.Value? ==> r.value == Client(apiKey.value, model, maxTokens, temperature)
  {
    if apiKey == None || apiKey.value == "" then Thrown(Java(IllegalArgument))
    else Value(Client(apiKey.value, model, maxTokens, temperature))
  }

  /** determineErrorType, with 529 (Claude overloaded) as SERVER_ERROR. */
  function ErrorTypeFor(code: int): (t: ErrorType)
    ensures t == RATE_LIMIT <==> code == 429
    ensures t == AUTH_ERROR <==> code == 401 || code == 403
    ensures t == TIMEOUT <==> code == 408
    ensures t == SERVER_ERROR <==> code >= 500
    ensures t == CLIENT_ERROR <==> code < 500 && code != 401 && code != 403 && code != 408 && code != 429
  {
    match code
    case 429 => RATE_LIMIT
    case 401 => AUTH_ERROR
    case 403 => AUTH_ERROR
    case 400 => CLIENT_ERROR
    case 408 => TIMEOUT
    case 529 => SERVER_ERROR
    case _ => if code >= 500 then SERVER_ERROR else CLIENT_ERROR
  }

  /** The retryable flag of a non-200 status in sendAsync. */
  predicate RetryableStatus(code: int) {
    code == 429 || code == 529 || code >= 500
  }

  /** The keys of the request body, in the order they are added. */
  function RequestKeys(systemPrompt: Option<string>): seq<string> {
    ["model", "max_tokens", "temperature"]
    + (if HasSystemPrompt(systemPrompt) then ["system"] else [])
    + ["messages"]
  }

  /** The request body buildRequestBody produces: params override the
      constructor defaults, the system prompt is a top-level field present
      only when non-empty, and messages holds the one user message. */
  ghost predicate IsRequestBody(c: Client, prompt: string, params: Params, body: Members) {
    && Keys(body) == RequestKeys(params.systemPrompt)
    && Get(body, "model") == Some(JStr(params.model.GetOr(c.model)))
    && Get(body, "max_tokens") == Some(IntJson(params.maxTokens.GetOr(c.maxTokens)))
    && Get(body, "temperature") == Some(TemperatureJson(params.temperature.GetOr(c.temperature)))
    && Get(body, "system") == (if HasSystemPrompt(params.systemPrompt) then Some(JStr(params.systemPrompt.value)) else None)
    && Get(body, "messages") == Some(JArr([ChatMessage("user", prompt)]))
  }

  /** buildRequestBody: the JsonObject filled property by property. */
  method BuildRequestBody(c: Client, prompt: string, params: Params) returns (body: Members)
    ensures IsRequestBody(c, prompt, params, body)
  {
    var modelToUse := params.model.GetOr(c.model);
    var maxTokensToUse := params.maxTokens.GetOr(c.maxTokens);
    var tempToUse := params.temperature.GetOr(c.temperature);
    body := [];
    body := Put(body, "model", JStr(modelToUse));
    body := Put(body, "max_tokens", IntJson(maxTokensToUse));
    body := Put(body, "temperature", TemperatureJson(tempToUse));
    var systemPrompt := params.systemPrompt;
    if systemPrompt.Some? && systemPrompt.value != "" {
      body := Put(body, "system", JStr(systemPrompt.value));
    }
    var messages := [ChatMessage("user", prompt)];
    body := Put(body, "messages", JArr(messages));
    RequestBodyFields(c, prompt, params, body);
  }

  /** The members buildRequestBody adds, in order, read back by key. */
  lemma RequestBodyFields(c: Client, prompt: string, params: Params, body: Members)
    requires body == [("model", JStr(params.model.GetOr(c.model))),
                      ("max_tokens", IntJson(params.maxTokens.GetOr(c.maxTokens))),
                      ("temperature", TemperatureJson(params.temperature.GetOr(c.temperature)))]
                     + (if HasSystemPrompt(params.systemPrompt) then [("system", JStr(params.systemPrompt.value))] else [])
                     + [("messages", JArr([ChatMessage("user", prompt)]))]
    ensures IsRequestBody(c, prompt, params, body)
  {
    assert DistinctKeys(body);
    GetDistinct(body, 0);
    GetDistinct(body, 1);
    GetDistinct(body, 2);
    GetDistinct(body, 3);
    if HasSystemPrompt(params.systemPrompt) {
      GetDistinct(body, 4);
    } else {
      assert !Has(body, "system");
    }
  }

  /** has(key) ? get(key).getAsInt() : 0 */
  function IntOrZero(m: Members, key: string): (r: Try<int>)
    ensures !Has(m, key) ==> r == Value(0)
    ensures Has(m, key) ==> r == AsInt(Get(m, key).value)
    ensures r.Value? ==> IsInt32(r.value)
    ensures r.Thrown? ==> r.error.Java?
  {
    if Has(m, key) then AsInt(Get(m, key).value) else Value(0)
  }

  /** The statements inside parseResponse's try block. The LLMExceptions
      thrown here are those for a missing or empty content array and for a
      first block that is not a text block with a "text" field. */
  function ParseBody(c: Client, responseBody: Body): (r: Try<LLMResponse>)
    ensures r.Thrown? ==> r.error.Java? || r.error == Llm(INVALID_RESPONSE, PROVIDER_ID, false)
  {
    var tree :- ParseString(responseBody);
    var json :- AsObject(tree);
    var contentArray :- MemberArray(json, "content");
    if contentArray == None || |contentArray.value| == 0 then Thrown(Llm(INVALID_RESPONSE, PROVIDER_ID, false))
    else
      var firstContent :- AsObject(contentArray.value[0]);
      var isText :- if Has(firstContent, "type") then
                      var blockType :- AsString(Get(firstContent, "type").value);
                      Value(blockType == "text")
                    else Value(false);
      if !isText || !Has(firstContent, "text") then Thrown(Llm(INVALID_RESPONSE, PROVIDER_ID, false))
      else
        var content :- AsString(Get(firstContent, "text").value);
        var tokensUsed :- if Has(json, "usage") then
                            var usage :- CastObject(Get(json, "usage").value);
                            var inputTokens :- IntOrZero(usage, "input_tokens");
                            var outputTokens :- IntOrZero(usage, "output_tokens");
                            Value(AddInt(inputTokens, outputTokens))
                          else Value(0);
        Value(LLMResponse(content, c.model, PROVIDER_ID, tokensUsed, false))
  }

  /** The first content block is a text block: it has a "type" whose
      getAsString() reads "text", and it has a "text" field. */
  predicate IsTextBlock(block: Json) {
    && block.JObj?
    && Has(block.members, "type")
    && AsString(Get(block.members, "type").value) == Value("text")
    && Has(block.members, "text")
  }

  /** The token count of a Messages reply: input_tokens plus output_tokens
      added as Java ints when usage is an object whose counts are numbers or
      absent (absent counts as 0), and 0 without usage. */
  function UsageTokens(responseBody: Body): Option<int> {
    if responseBody.Parsed? && responseBody.tree.JObj? then
      match Get(responseBody.tree.members, "usage")
      case None => Some(0)
      case Some(JObj(usage)) =>
        var input := NumberOrZero(usage, "input_tokens");
        var output := NumberOrZero(usage, "output_tokens");
        if input.Some? && output.Some? then Some(AddInt(input.value, output.value)) else None
      case Some(_) => None
    else None
  }

  /** parseResponse: every failure is a non-retryable INVALID_RESPONSE; a
      missing or empty content array and a first block that is not a text
      block are failures; a success carries the constructor's model. */
  function ParseResponse(c: Client, responseBody: Body): (r: Try<LLMResponse>)
    ensures r.Thrown? ==> r.error == Llm(INVALID_RESPONSE, PROVIDER_ID, false)
    ensures r.Value? ==> (r.value.model == c.model && r.value.providerId == PROVIDER_ID
                          && !r.value.fromCache && IsInt32(r.value.tokensUsed))
    ensures responseBody.Parsed? && responseBody.tree.JObj? ==>
              var m := responseBody.tree.members;
              (!Has(m, "content") || Get(m, "content") == Some(JArr([]))) ==> r.Thrown?
    ensures responseBody.Parsed? && responseBody.tree.JObj? ==>
              var m := responseBody.tree.members;
              (Get(m, "content").Some? && Get(m, "content").value.JArr? && |Get(m, "content").value.items| > 0
               && Get(m, "content").value.items[0].JObj? && !IsTextBlock(Get(m, "content").value.items[0]))
              ==> r.Thrown?
    ensures FirstBlock(responseBody).Some? && BlockType(FirstBlock(responseBody).value) == Some("text") ==>
              var block := FirstBlock(responseBody).value;
              Get(block, "text").Some? && Get(block, "text").value.JStr? && UsageTokens(responseBody).Some? ==>
                r == Value(LLMResponse(Get(block, "text").value.s, c.model, PROVIDER_ID,
                                       UsageTokens(responseBody).value, false))
  {
    CatchAsInvalid(ParseBody(c, responseBody), AllExceptions, PROVIDER_ID)
  }

  /** A well-formed reply parses to its text, with the input and output
      counts added as Java ints (a missing count is 0, missing usage is 0). */
  lemma ParseReply(c: Client, text: string, usage: Option<(Option<int>, Option<int>)>)
    requires usage.Some? ==> (usage.value.0.Some? ==> IsInt32(usage.value.0.value))
                             && (usage.value.1.Some? ==> IsInt32(usage.value.1.value))
    ensures ParseResponse(c, Parsed(MessagesReply(text, usage)))
            == Value(LLMResponse(text, c.model, PROVIDER_ID,
                                 match usage
                                 case None => 0
                                 case Some((input, output)) => AddInt(input.GetOr(0), output.GetOr(0)),
                                 false))
  {
    var m := MessagesReply(text, usage).members;
    assert DistinctKeys(m);
    GetDistinct(m, 0);
    var block := m[0].1.items[0].members;
    assert DistinctKeys(block);
    GetDistinct(block, 0);
    GetDistinct(block, 1);
    match usage
    case None =>
      assert !Has(m, "usage");
    case Some((input, output)) =>
      GetDistinct(m, 1);
      var counts := m[1].1.members;
      assert DistinctKeys(counts);
      if input.Some? {
        IntJsonRoundTrip(input.value);
        GetDistinct(counts, 0);
      } else {
        assert !Has(counts, "input_tokens");
      }
      if output.Some? {
        IntJsonRoundTrip(output.value);
        GetDistinct(counts, |counts| - 1);
      } else {
        assert !Has(counts, "output_tokens");
      }
  }

  /** The thenApply stage of sendAsync: any status but exactly 200 fails with
      an LLMException of provider "claude", retryable exactly for 429 and
      every status from 500 up (529 among them); the body is read only on 200. */
  function Complete(c: Client, outcome: HttpOutcome): (r: Try<LLMResponse>)
    ensures outcome.Exception? ==> r == Thrown(Java(Io))
    ensures outcome.Status? && outcome.code != 200 ==>
              && r.Thrown? && r.error.Llm?
              && r.error.providerId == PROVIDER_ID
              && r.error.errorType == ErrorTypeFor(outcome.code)
              && (r.error.retryable <==> r.error.errorType == RATE_LIMIT || r.error.errorType == SERVER_ERROR)
    ensures outcome.Status? && outcome.code == 200 ==> r == ParseResponse(c, outcome.body)
  {
    match outcome
    case Exception => Thrown(Java(Io))
    case Status(code, body) =>
      if code != 200 then Thrown(Llm(ErrorTypeFor(code), PROVIDER_ID, RetryableStatus(code)))
      else ParseResponse(c, body)
  }

  /** sendAsync: the request it sends and how its future completes. */
  method SendAsync(c: Client, prompt: string, params: Params, outcome: HttpOutcome)
    returns (request: HttpRequest, result: Try<LLMResponse>)
    ensures request.url == API_URL && request.timeoutSeconds == 60
    ensures request.headers == [("Content-Type", "application/json"), ("x-api-key", c.apiKey),
                                ("anthropic-version", ANTHROPIC_VERSION)]
    ensures request.body.JObj? && IsRequestBody(c, prompt, params, request.body.members)
    ensures result == Complete(c, outcome)
  {
    var body := BuildRequestBody(c, prompt, params);
    request := HttpRequest(API_URL, [("Content-Type", "application/json"), ("x-api-key", c.apiKey),
                                     ("anthropic-version", ANTHROPIC_VERSION)],
                           JObj(body), 60);
    result := Complete(c, outcome);
  }

  /** 529 (overloaded) is a retryable SERVER_ERROR. */
  lemma OverloadedIsRetryable(c: Client, body: Body)
    ensures Complete(c, Status(529, body)) == Thrown(Llm(SERVER_ERROR, PROVIDER_ID, true))
  {
  }
}
