/** IFlowClient: the legacy blocking iFlow client. 429, server errors and
    exceptions are retried; parseResponse never throws. */
module IFlowClient {
  import opened Lang
  import opened Gson
  import opened LlmApi
  import opened SyncRetry

  const API_URL: string := "https://apis.iflow.cn/v1/chat/completions"

  /** The API key read from the configuration at construction (may be null). */
  datatype Client = Client(apiKey: Option<string>)

  /** The configuration values the request reads: IFLOW_MODEL, TEMPERATURE
      and MAX_TOKENS. */
  datatype Config = Config(model: string, temperature: Temperature, maxTokens: int)

  /** The request body: model, temperature and max_tokens from the
      configuration, then a system message always (its content JSON null when
      the prompt is null) and the user message. */
  ghost predicate IsRequestBody(config: Config, systemPrompt: Option<string>, userPrompt: string, body: Members) {
    && Keys(body) == ["model", "temperature", "max_tokens", "messages"]
    && Get(body, "model") == Some(JStr(config.model))
    && Get(body, "temperature") == Some(TemperatureJson(config.temperature))
    && Get(body, "max_tokens") == Some(IntJson(config.maxTokens))
    && Get(body, "messages") == Some(JArr([JObj([("role", JStr("system")), ("content", StringOrNull(systemPrompt))]),
                                           ChatMessage("user", userPrompt)]))
  }

  /** buildRequestBody. */
  method BuildRequestBody(config: Config, systemPrompt: Option<string>, userPrompt: string) returns (body: Members)
    ensures IsRequestBody(config, systemPrompt, userPrompt, body)
  {
    body := [];
    body := Put(body, "model", JStr(config.model));
    body := Put(body, "temperature", TemperatureJson(config.temperature));
    body := Put(body, "max_tokens", IntJson(config.maxTokens));
    var messages := [JObj([("role", JStr("system")), ("content", StringOrNull(systemPrompt))]),
                     ChatMessage("user", userPrompt)];
    body := Put(body, "messages", JArr(messages));
    assert DistinctKeys(body);
    GetDistinct(body, 0);
    GetDistinct(body, 1);
    GetDistinct(body, 2);
    GetDistinct(body, 3);
  }

  /** The chain of Gson calls inside parseResponse's try block. */
  function ParseBody(responseBody: Body): (r: Try<string>)
    ensures r.Thrown? ==> r.error.Java?
  {
    var tree :- ParseString(responseBody);
    var json :- AsObject(tree);
    var choicesRef :- MemberArray(json, "choices");
    var choices :- Deref(choicesRef);
    var first :- At(choices, 0);
    var firstChoice :- AsObject(first);
    var messageRef :- MemberObject(firstChoice, "message");
    var message :- Deref(messageRef);
    var contentElement :- Deref(Get(message, "content"));
    AsString(contentElement)
  }

  /** parseResponse: choices[0].message.content, and null whenever any step
      throws (catch (Exception)), so it never fails. */
  function ParseResponse(responseBody: Body): (r: Option<string>)
    ensures responseBody.Malformed? ==> r == None
    ensures responseBody.Parsed? && responseBody.tree.JObj?
            && (!Has(responseBody.tree.members, "choices") || Get(responseBody.tree.members, "choices") == Some(JArr([])))
            ==> r == None
    ensures r.Some? <==> ParseBody(responseBody).Value?
    ensures FirstChoiceContent(responseBody).Some? ==> r == FirstChoiceContent(responseBody)
  {
    match ParseBody(responseBody)
    case Value(content) => Some(content)
    case Thrown(_) => None
  }

  /** An OpenAI-shaped reply reads back as its content. */
  lemma ParseReply(content: string, totalTokens: Option<int>)
    ensures ParseResponse(Parsed(OpenAIReply(content, totalTokens))) == Some(content)
  {
    OpenAIReplyFields(content, totalTokens);
    ReplyMessageContent(content);
  }

  /** The loop body's rule: 200 returns the parsed text at once; 429, a
      status from 500 up and a send exception retry; any other status gives
      up with null. */
  function Classify(outcome: HttpOutcome): (s: Step)
    ensures outcome.Exception? ==> s == Retry
    ensures outcome.Status? && outcome.code != 200 ==>
              (s == Retry <==> outcome.code == 429 || outcome.code >= 500) && (s != Retry ==> s == Reject)
    ensures outcome.Status? && outcome.code == 200 ==> s == Return(ParseResponse(outcome.body))
  {
    match outcome
    case Exception => Retry
    case Status(code, body) =>
      if code == 200 then Return(ParseResponse(body))
      else if code == 429 || code >= 500 then Retry
      else Reject
  }

  /** sendRequest: no key means null with no send at all; otherwise the
      request is sent through the retry loop under this client's rule. */
  method SendRequest(c: Client, config: Config, systemPrompt: Option<string>, userPrompt: string,
                     outcomes: seq<HttpOutcome>, interrupts: seq<bool>)
    returns (request: Option<HttpRequest>, result: Option<string>, sends: nat, ghost delays: seq<nat>)
    requires |outcomes| >= MAX_RETRIES && |interrupts| >= MAX_RETRIES - 1
    ensures c.apiKey == None || c.apiKey.value == "" ==>
              request == None && result == None && sends == 0 && delays == []
    ensures c.apiKey.Some? && c.apiKey.value != "" ==>
              && request.Some? && request.value.url == API_URL && request.value.timeoutSeconds == 60
              && request.value.headers == [("Authorization", "Bearer " + c.apiKey.value),
                                           ("Content-Type", "application/json")]
              && request.value.body.JObj? && IsRequestBody(config, systemPrompt, userPrompt, request.value.body.members)
              && Trace(result, sends, delays) == Run(Steps(Classify, outcomes), interrupts, 0)
  {
    if c.apiKey == None || c.apiKey.value == "" {
      return None, None, 0, [];
    }
    var body := BuildRequestBody(config, systemPrompt, userPrompt);
    request := Some(HttpRequest(API_URL, [("Authorization", "Bearer " + c.apiKey.value),
                                          ("Content-Type", "application/json")], JObj(body), 60));
    result, sends, delays := Send(Classify, outcomes, interrupts);
  }

  /** Whatever sends 0 .. k-1 retried, a 200 at send k ends the call with its
      parsed content after k + 1 sends. */
  lemma OkReturnsAtOnce(outcomes: seq<HttpOutcome>, interrupts: seq<bool>, k: nat, body: Body)
    requires |outcomes| >= MAX_RETRIES && |interrupts| >= MAX_RETRIES - 1 && k < MAX_RETRIES
    requires forall i :: 0 <= i < k ==> Classify(outcomes[i]) == Retry && !interrupts[i]
    requires outcomes[k] == Status(200, body)
    ensures Run(Steps(Classify, outcomes), interrupts, 0) == Trace(ParseResponse(body), k + 1, Backoffs(k))
  {
    FirstReturnWins(Steps(Classify, outcomes), interrupts, k, 0);
  }
}
