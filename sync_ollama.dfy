/** OllamaClient: the legacy blocking client for a local Ollama server. No
    API key; only server errors (status 500 and up) and exceptions are
    retried. */
module OllamaClient {
  import opened Lang
  import opened Gson
  import opened LlmApi
  import opened SyncRetry

  const CHAT_PATH: string := "/api/chat"

  /** The host read from the configuration at construction, used as given. */
  datatype Client = Client(host: string)

  /** The configuration values the request reads: OLLAMA_MODEL, TEMPERATURE
      and MAX_TOKENS. */
  datatype Config = Config(model: string, temperature: Temperature, maxTokens: int)

  /** The request body: streaming off, a system message always (its content
      JSON null when the prompt is null, "" when empty) then the user
      message, and temperature and num_predict under "options". */
  ghost predicate IsRequestBody(config: Config, systemPrompt: Option<string>, userPrompt: string, body: Members) {
    && Keys(body) == ["model", "stream", "messages", "options"]
    && Get(body, "model") == Some(JStr(config.model))
    && Get(body, "stream") == Some(JBool(false))
    && Get(body, "messages") == Some(JArr([JObj([("role", JStr("system")), ("content", StringOrNull(systemPrompt))]),
                                           ChatMessage("user", userPrompt)]))
    && Get(body, "options") == Some(JObj([("temperature", TemperatureJson(config.temperature)),
                                          ("num_predict", IntJson(config.maxTokens))]))
  }

  /** buildRequestBody. */
  method BuildRequestBody(config: Config, systemPrompt: Option<string>, userPrompt: string) returns (body: Members)
    ensures IsRequestBody(config, systemPrompt, userPrompt, body)
  {
    body := [];
    body := Put(body, "model", JStr(config.model));
    body := Put(body, "stream", JBool(false));
    var messages := [JObj([("role", JStr("system")), ("content", StringOrNull(systemPrompt))]),
                     ChatMessage("user", userPrompt)];
    body := Put(body, "messages", JArr(messages));
    var options: Members := [];
    options := Put(options, "temperature", TemperatureJson(config.temperature));
    options := Put(options, "num_predict", IntJson(config.maxTokens));
    assert options == [("temperature", TemperatureJson(config.temperature)), ("num_predict", IntJson(config.maxTokens))];
    assert !Has(body, "options");
    body := Put(body, "options", JObj(options));
    assert DistinctKeys(body);
    GetDistinct(body, 0);
    GetDistinct(body, 1);
    GetDistinct(body, 2);
    GetDistinct(body, 3);
  }

  /** The exception classes parseResponse catches (and answers with null). */
  const CAUGHT: set<JavaException> := {JsonSyntax, IllegalState, NullPointer}

  /** The statement inside parseResponse's try block. */
  function ParseBody(responseBody: Body): (r: Try<Option<string>>)
    ensures r.Thrown? ==> r.error.Java?
    ensures r.Value? ==> r.value.Some?
  {
    var tree :- ParseString(responseBody);
    var json :- AsObject(tree);
    var messageRef :- MemberObject(json, "message");
    var message :- Deref(messageRef);
    var contentElement :- Deref(Get(message, "content"));
    var content :- AsString(contentElement);
    Value(Some(content))
  }

  /** parseResponse: message.content, or null on malformed JSON, a
      non-object, or a missing message or content. A "message" that is not an
      object (ClassCastException) or a JSON null content
      (UnsupportedOperationException) propagates to sendRequest. */
  function ParseResponse(responseBody: Body): (r: Try<Option<string>>)
    ensures r.Thrown? ==> r.error in {Java(ClassCast), Java(UnsupportedOperation)}
    ensures responseBody.Malformed? ==> r == Value(None)
    ensures responseBody.Parsed? && responseBody.tree.JObj? && !Has(responseBody.tree.members, "message")
            ==> r == Value(None)
    ensures responseBody.Parsed? && responseBody.tree.JObj? ==>
              var message := Get(responseBody.tree.members, "message");
              message.Some? && message.value.JObj? ==>
                var content := Get(message.value.members, "content");
                && (content.None? ==> r == Value(None))
                && (content.Some? && content.value.JStr? ==> r == Value(Some(content.value.s)))
  {
    CatchAsNull(ParseBody(responseBody), CAUGHT)
  }

  /** A /api/chat reply reads back as its content. */
  lemma ParseReply(content: string)
    ensures ParseResponse(Parsed(JObj([("message", JObj([("role", JStr("assistant")), ("content", JStr(content))]))])))
            == Value(Some(content))
  {
    ReplyMessageContent(content);
  }

  /** The loop body's rule: 200 returns the parsed text at once; a status
      from 500 up, a send exception and an exception escaping parseResponse
      retry; any other status, 429 included, gives up with null. */
  function Classify(outcome: HttpOutcome): (s: Step)
    ensures outcome.Exception? ==> s == Retry
    ensures outcome.Status? && outcome.code != 200 ==>
              (s == Retry <==> outcome.code >= 500) && (s != Retry ==> s == Reject)
    ensures outcome.Status? && outcome.code == 200 ==>
              (ParseResponse(outcome.body).Value? ==> s == Return(ParseResponse(outcome.body).value))
              && (ParseResponse(outcome.body).Thrown? ==> s == Retry)
  {
    match outcome
    case Exception => Retry
    case Status(code, body) =>
      if code == 200 then
        match ParseResponse(body)
        case Value(text) => Return(text)
        case Thrown(_) => Retry
      else if code >= 500 then Retry
      else Reject
  }

  /** sendRequest: the request to host + "/api/chat" (120 s timeout, no
      authentication) sent through the retry loop under this client's rule. */
  method SendRequest(c: Client, config: Config, systemPrompt: Option<string>, userPrompt: string,
                     outcomes: seq<HttpOutcome>, interrupts: seq<bool>)
    returns (request: HttpRequest, result: Option<string>, sends: nat, ghost delays: seq<nat>)
    requires |outcomes| >= MAX_RETRIES && |interrupts| >= MAX_RETRIES - 1
    ensures request.url == c.host + CHAT_PATH && request.timeoutSeconds == 120
    ensures request.headers == [("Content-Type", "application/json")]
    ensures request.body.JObj? && IsRequestBody(config, systemPrompt, userPrompt, request.body.members)
    ensures Trace(result, sends, delays) == Run(Steps(Classify, outcomes), interrupts, 0)
  {
    var apiUrl := c.host + CHAT_PATH;
    var body := BuildRequestBody(config, systemPrompt, userPrompt);
    request := HttpRequest(apiUrl, [("Content-Type", "application/json")], JObj(body), 120);
    result, sends, delays := Send(Classify, outcomes, interrupts);
  }

  /** A 429 is not retried: the call gives up after that one send. */
  lemma RateLimitNotRetried(outcomes: seq<HttpOutcome>, interrupts: seq<bool>, body: Body)
    requires |outcomes| >= MAX_RETRIES && |interrupts| >= MAX_RETRIES - 1
    requires outcomes[0] == Status(429, body)
    ensures Run(Steps(Classify, outcomes), interrupts, 0) == Trace(None, 1, [])
  {
    FirstRejectStops(Steps(Classify, outcomes), interrupts, 0, 0);
  }
}
