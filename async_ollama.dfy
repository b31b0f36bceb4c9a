/** AsyncOllamaClient: the adapter for a local Ollama server (no API key),
    posting to its /api/chat endpoint. */
module AsyncOllamaClient {
  import opened Lang
  import opened Gson
  import opened LlmApi

  const PROVIDER_ID: string := "ollama"
  const DEFAULT_HOST: string := "http://localhost:11434"
  const CHAT_PATH: string := "/api/chat"

  /** The adapter's final fields (the HTTP client itself is not modelled). */
  datatype Client = Client(host: string, model: string, maxTokens: int, temperature: Temperature)

  /** The constructor's host normalisation: a null or empty host falls back
      to the local default, then one trailing "/" (and only one) is dropped. */
  function NormalizeHost(host: Option<string>): (r: string)
    ensures host == None || host.value == "" ==> r == DEFAULT_HOST
    ensures host.Some? && host.value != "" && EndsWith(host.value, "/") ==> r + "/" == host.value
    ensures host.Some? && host.value != "" && !EndsWith(host.value, "/") ==> r == host.value
  {
    var hostValue := if host.Some? && host.value != "" then host.value else DEFAULT_HOST;
    if EndsWith(hostValue, "/") then hostValue[..|hostValue| - 1] else hostValue
  }

  /** Only one slash is removed: a host given with two trailing slashes
      keeps one, so the chat URL then holds "//api/chat". */
  lemma NormalizeStripsOneSlash(h: string)
    requires h != "" && !EndsWith(h, "/")
    ensures NormalizeHost(Some(h)) == h
    ensures NormalizeHost(Some(h + "/")) == h
    ensures NormalizeHost(Some(h + "//")) == h + "/"
    ensures ChatUrl(New(Some(h + "//"), "", 0, Temperature(0.0, "0.0"))) == h + "/" + CHAT_PATH
  {
    assert (h + "/")[..|h|] == h;
    assert (h + "//")[..|h| + 1] == h + "/";
  }

  /** The constructor: it never throws. */
  function New(host: Option<string>, model: string, maxTokens: int, temperature: Temperature): (c: Client)
    ensures c.host == NormalizeHost(host) && c.model == model
    ensures c.maxTokens == maxTokens && c.temperature == temperature
  {
    Client(NormalizeHost(host), model, maxTokens, temperature)
  }

  /** The URL sendAsync posts to. */
  function ChatUrl(c: Client): (url: string)
    ensures EndsWith(url, CHAT_PATH) && url[..|url| - |CHAT_PATH|] == c.host
  {
    c.host + CHAT_PATH
  }

  /** mapStatusCodeToErrorType: only 500, 502, 503 and 504 are server errors;
      every other code (404, 429 and 501 among them) is a client error. */
  function ErrorTypeFor(code: int): (t: ErrorType)
    ensures t == SERVER_ERROR <==> code in {500, 502, 503, 504}
    ensures t == CLIENT_ERROR <==> code !in {500, 502, 503, 504}
  {
    match code
    case 404 => CLIENT_ERROR
    case 500 => SERVER_ERROR
    case 502 => SERVER_ERROR
    case 503 => SERVER_ERROR
    case 504 => SERVER_ERROR
    case _ => CLIENT_ERROR
  }

  /** isRetryable. */
  predicate IsRetryable(code: int) {
    500 <= code <= 599
  }

  /** The keys of the request body and of its "options" object, in order. */
  const REQUEST_KEYS: seq<string> := ["model", "stream", "messages", "options"]
  const OPTION_KEYS: seq<string> := ["temperature", "num_predict"]

  /** The request body buildRequestBody produces: streaming off, the chat
      messages, and temperature and num_predict (the token limit) under
      "options", each from params or else the constructor default. */
  ghost predicate IsRequestBody(c: Client, prompt: string, params: Params, body: Members) {
    && Keys(body) == REQUEST_KEYS
    && Get(body, "model") == Some(JStr(params.model.GetOr(c.model)))
    && Get(body, "stream") == Some(JBool(false))
    && Get(body, "messages") == Some(JArr(ChatMessages(params.systemPrompt, prompt)))
    && Get(body, "options").Some? && Get(body, "options").value.JObj?
    && var options := Get(body, "options").value.members;
       && Keys(options) == OPTION_KEYS
       && Get(options, "temperature") == Some(TemperatureJson(params.temperature.GetOr(c.temperature)))
       && Get(options, "num_predict") == Some(IntJson(params.maxTokens.GetOr(c.maxTokens)))
  }

  /** buildRequestBody: the body, then the options object, filled in place. */
  method BuildRequestBody(c: Client, prompt: string, params: Params) returns (body: Members)
    ensures IsRequestBody(c, prompt, params, body)
  {
    var activeModel := params.model.GetOr(c.model);
    var activeTemp := params.temperature.GetOr(c.temperature);
    var activeMaxTokens := params.maxTokens.GetOr(c.maxTokens);
    body := [];
    body := Put(body, "model", JStr(activeModel));
    body := Put(body, "stream", JBool(false));
    var messages := BuildChatMessages(params.systemPrompt, prompt);
    body := Put(body, "messages", JArr(messages));
    var options: Members := [];
    options := Put(options, "temperature", TemperatureJson(activeTemp));
    options := Put(options, "num_predict", IntJson(activeMaxTokens));
    assert options == [("temperature", TemperatureJson(activeTemp)), ("num_predict", IntJson(activeMaxTokens))];
    assert !Has(body, "options");
    body := Put(body, "options", JObj(options));
    RequestBodyFields(c, prompt, params, body);
  }

  /** The members buildRequestBody adds, read back by key. */
  lemma RequestBodyFields(c: Client, prompt: string, params: Params, body: Members)
    requires body == [("model", JStr(params.model.GetOr(c.model))),
                      ("stream", JBool(false)),
                      ("messages", JArr(ChatMessages(params.systemPrompt, prompt))),
                      ("options", JObj([("temperature", TemperatureJson(params.temperature.GetOr(c.temperature))),
                                        ("num_predict", IntJson(params.maxTokens.GetOr(c.maxTokens)))]))]
    ensures IsRequestBody(c, prompt, params, body)
  {
    assert DistinctKeys(body);
    GetDistinct(body, 0);
    GetDistinct(body, 1);
    GetDistinct(body, 2);
    GetDistinct(body, 3);
    var options := body[3].1.members;
    assert DistinctKeys(options);
    GetDistinct(options, 0);
    GetDistinct(options, 1);
  }

  /** The exception classes parseResponse catches: JsonParseException,
      IllegalStateException and NullPointerException. */
  const CAUGHT: set<JavaException> := {JsonSyntax, IllegalState, NullPointer}

  /** The statements inside parseResponse's try block. */
  function ParseBody(c: Client, params: Params, responseBody: Body): (r: Try<LLMResponse>)
    ensures r.Thrown? ==> r.error.Java?
  {
    var tree :- ParseString(responseBody);
    var json :- AsObject(tree);
    var messageRef :- MemberObject(json, "message");
    var message :- Deref(messageRef);
    var contentElement :- Deref(Get(message, "content"));
    var content :- AsString(contentElement);
    var tokens :- if Has(json, "eval_count") then AsInt(Get(json, "eval_count").value) else Value(0);
    Value(LLMResponse(content, params.model.GetOr(c.model), PROVIDER_ID, tokens, false))
  }

  /** parseResponse: the caught classes become a non-retryable
      INVALID_RESPONSE; ClassCastException, UnsupportedOperationException and
      NumberFormatException are not caught and fail the call as they are. A
      success carries the params model (else the constructor's). */
  function ParseResponse(c: Client, params: Params, responseBody: Body): (r: Try<LLMResponse>)
    ensures r.Thrown? ==> r.error == Llm(INVALID_RESPONSE, PROVIDER_ID, false)
                          || r.error in {Java(ClassCast), Java(UnsupportedOperation), Java(NumberFormat)}
    ensures r.Value? ==> (r.value.model == params.model.GetOr(c.model) && r.value.providerId == PROVIDER_ID
                          && !r.value.fromCache && IsInt32(r.value.tokensUsed))
    ensures responseBody.Malformed? ==> r == Thrown(Llm(INVALID_RESPONSE, PROVIDER_ID, false))
    ensures responseBody.Parsed? && responseBody.tree.JObj? && !Has(responseBody.tree.members, "message")
            ==> r == Thrown(Llm(INVALID_RESPONSE, PROVIDER_ID, false))
    ensures responseBody.Parsed? && responseBody.tree.JObj? ==>
              var m := responseBody.tree.members;
              var message := Get(m, "message");
              message.Some? && message.value.JObj? ==>
                var content := Get(message.value.members, "content");
                content.Some? && content.value.JStr? && NumberOrZero(m, "eval_count").Some? ==>
                  r == Value(LLMResponse(content.value.s, params.model.GetOr(c.model), PROVIDER_ID,
                                         NumberOrZero(m, "eval_count").value, false))
  {
    CatchAsInvalid(ParseBody(c, params, responseBody), CAUGHT, PROVIDER_ID)
  }

  /** A /api/chat reply: the assistant message and, when reported, eval_count. */
  function ChatReply(content: string, evalCount: Option<int>): Json {
    JObj([("model", JStr("m")),
          ("message", JObj([("role", JStr("assistant")), ("content", JStr(content))]))]
         + (if evalCount.Some? then [("eval_count", IntJson(evalCount.value))] else []))
  }

  /** A well-formed reply parses to its content, eval_count (or 0) tokens
      and the params model. */
  lemma ParseReply(c: Client, params: Params, content: string, evalCount: Option<int>)
    requires evalCount.Some? ==> IsInt32(evalCount.value)
    ensures ParseResponse(c, params, Parsed(ChatReply(content, evalCount)))
            == Value(LLMResponse(content, params.model.GetOr(c.model), PROVIDER_ID, evalCount.GetOr(0), false))
  {
    var m := ChatReply(content, evalCount).members;
    assert DistinctKeys(m);
    GetDistinct(m, 1);
    ReplyMessageContent(content);
    if evalCount.Some? {
      GetDistinct(m, 2);
      IntJsonRoundTrip(evalCount.value);
    } else {
      assert !Has(m, "eval_count");
    }
  }

  /** A "message" that is not an object is a ClassCastException, which
      parseResponse does not catch: the call fails with it, not with
      INVALID_RESPONSE. */
  lemma MessageNotObjectEscapes(c: Client, params: Params, text: string)
    ensures ParseResponse(c, params, Parsed(JObj([("message", JStr(text))]))) == Thrown(Java(ClassCast))
  {
  }

  /** A null content is an UnsupportedOperationException, likewise uncaught. */
  lemma NullContentEscapes(c: Client, params: Params)
    ensures ParseResponse(c, params, Parsed(JObj([("message", JObj([("content", JNull)]))])))
            == Thrown(Java(UnsupportedOperation))
  {
  }

  /** The thenApply stage of sendAsync: any status but exactly 200 fails with
      an LLMException of provider "ollama" typed by ErrorTypeFor and
      retryable exactly for 500..599; the body is read only on 200. */
  function Complete(c: Client, params: Params, outcome: HttpOutcome): (r: Try<LLMResponse>)
    ensures outcome.Exception? ==> r == Thrown(Java(Io))
    ensures outcome.Status? && outcome.code != 200 ==>
              && r.Thrown? && r.error.Llm?
              && r.error.providerId == PROVIDER_ID
              && r.error.errorType == ErrorTypeFor(outcome.code)
              && (r.error.retryable <==> 500 <= outcome.code <= 599)
    ensures outcome.Status? && outcome.code == 200 ==> r == ParseResponse(c, params, outcome.body)
  {
    match outcome
    case Exception => Thrown(Java(Io))
    case Status(code, body) =>
      if code != 200 then Thrown(Llm(ErrorTypeFor(code), PROVIDER_ID, IsRetryable(code)))
      else ParseResponse(c, params, body)
  }

  /** sendAsync: the request (no authentication header, 120 s timeout for
      slow local models) and how its future completes. */
  method SendAsync(c: Client, prompt: string, params: Params, outcome: HttpOutcome)
    returns (request: HttpRequest, result: Try<LLMResponse>)
    ensures request.url == ChatUrl(c) && request.timeoutSeconds == 120
    ensures request.headers == [("Content-Type", "application/json")]
    ensures request.body.JObj? && IsRequestBody(c, prompt, params, request.body.members)
    ensures result == Complete(c, params, outcome)
  {
    var body := BuildRequestBody(c, prompt, params);
    var apiUrl := c.host + CHAT_PATH;
    request := HttpRequest(apiUrl, [("Content-Type", "application/json")], JObj(body), 120);
    result := Complete(c, params, outcome);
  }

  /** isHealthy: the HEAD probe to the host answers exactly 200; a probe that
      throws, or any other status, means unhealthy. */
  function IsHealthy(probe: HttpOutcome): (healthy: bool)
    ensures healthy ==> probe.Status?
    ensures probe.Status? ==> (healthy <==> probe.code == 200)
  {
    match probe
    case Exception => false
    case Status(code, _) => code == 200
  }
}
