/** ClaudeClient: the legacy blocking Claude client. sendRequest returns the
    reply text or null, retrying server errors, 529 and exceptions. */
module ClaudeClient {
  import opened Lang
  import opened Gson
  import opened LlmApi
  import opened SyncRetry

  const API_URL: string := "https://api.anthropic.com/v1/messages"
  const ANTHROPIC_VERSION: string := "2023-06-01"

  /** The API key read from the configuration at construction (may be null). */
  datatype Client = Client(apiKey: Option<string>)

  /** The configuration values sendRequest reads: CLAUDE_MODEL and MAX_TOKENS. */
  datatype Config = Config(model: string, maxTokens: int)

  /** The request body: model and max_tokens from the configuration, the
      system prompt as a top-level field only when non-empty, and exactly one
      (user) message. */
  ghost predicate IsRequestBody(config: Config, systemPrompt: Option<string>, userPrompt: string, body: Members) {
    && Keys(body) == ["model", "max_tokens"] + (if HasSystemPrompt(systemPrompt) then ["system"] else []) + ["messages"]
    && Get(body, "model") == Some(JStr(config.model))
    && Get(body, "max_tokens") == Some(IntJson(config.maxTokens))
    && Get(body, "system") == (if HasSystemPrompt(systemPrompt) then Some(JStr(systemPrompt.value)) else None)
    && Get(body, "messages") == Some(JArr([ChatMessage("user", userPrompt)]))
  }

  /** buildRequestBody. */
  method BuildRequestBody(config: Config, systemPrompt: Option<string>, userPrompt: string) returns (body: Members)
    ensures IsRequestBody(config, systemPrompt, userPrompt, body)
  {
    body := [];
    body := Put(body, "model", JStr(config.model));
    body := Put(body, "max_tokens", IntJson(config.maxTokens));
    if systemPrompt.Some? && systemPrompt.value != "" {
      body := Put(body, "system", JStr(systemPrompt.value));
    }
    var messages := [ChatMessage("user", userPrompt)];
    body := Put(body, "messages", JArr(messages));
    RequestBodyFields(config, systemPrompt, userPrompt, body);
  }

  /** The members buildRequestBody adds, read back by key. */
  lemma RequestBodyFields(config: Config, systemPrompt: Option<string>, userPrompt: string, body: Members)
    requires body == [("model", JStr(config.model)), ("max_tokens", IntJson(config.maxTokens))]
                     + (if HasSystemPrompt(systemPrompt) then [("system", JStr(systemPrompt.value))] else [])
                     + [("messages", JArr([ChatMessage("user", userPrompt)]))]
    ensures IsRequestBody(config, systemPrompt, userPrompt, body)
  {
    assert DistinctKeys(body);
    GetDistinct(body, 0);
    GetDistinct(body, 1);
    GetDistinct(body, 2);
    if HasSystemPrompt(systemPrompt) {
      GetDistinct(body, 3);
    } else {
      assert !Has(body, "system");
    }
  }

  /** The exception classes parseResponse catches (and answers with null). */
  const CAUGHT: set<JavaException> := {JsonSyntax, IllegalState, NullPointer}

  /** The statements inside parseResponse's try block. */
  function ParseBody(responseBody: Body): (r: Try<Option<string>>)
    ensures r.Thrown? ==> r.error.Java?
  {
    var tree :- ParseString(responseBody);
    var json :- AsObject(tree);
    var content :- MemberArray(json, "content");
    if content == None || |content.value| == 0 then Value(None)
    else
      var firstContent :- AsObject(content.value[0]);
      var typeElement :- Deref(Get(firstContent, "type"));
      var blockType :- AsString(typeElement);
      if blockType == "text" then
        var textElement :- Deref(Get(firstContent, "text"));
        var text :- AsString(textElement);
        Value(Some(text))
      else Value(None)
  }

  /** parseResponse: the text of the first content block when its type reads
      "text", otherwise null; malformed JSON, a non-object and a missing
      field also give null. A member of the wrong type (ClassCastException)
      or a JSON null read as a string (UnsupportedOperationException) is not
      caught here and propagates to sendRequest. */
  function ParseResponse(responseBody: Body): (r: Try<Option<string>>)
    ensures r.Thrown? ==> r.error in {Java(ClassCast), Java(UnsupportedOperation)}
    ensures responseBody.Malformed? ==> r == Value(None)
    ensures responseBody.Parsed? && responseBody.tree.JObj? && !Has(responseBody.tree.members, "content")
            ==> r == Value(None)
    ensures FirstBlock(responseBody).Some? && !Has(FirstBlock(responseBody).value, "type") ==> r == Value(None)
    ensures FirstBlock(responseBody).Some? && BlockType(FirstBlock(responseBody).value).Some? ==>
              var block := FirstBlock(responseBody).value;
              var t := BlockType(block).value;
              && (t != "text" ==> r == Value(None))
              && (t == "text" && !Has(block, "text") ==> r == Value(None))
              && (t == "text" && Get(block, "text").Some? && Get(block, "text").value.JStr?
                  ==> r == Value(Some(Get(block, "text").value.s)))
  {
    CatchAsNull(ParseBody(responseBody), CAUGHT)
  }

  /** A text block reads back as its text; a first block of another type
      gives null. */
  lemma ParseReply(text: string, otherType: string)
    requires otherType != "text"
    ensures ParseResponse(Parsed(MessagesReply(text, None))) == Value(Some(text))
    ensures ParseResponse(Parsed(JObj([("content", JArr([JObj([("type", JStr(otherType)), ("text", JStr(text))])]))])))
            == Value(None)
  {
    var m := MessagesReply(text, None).members;
    assert DistinctKeys(m);
    GetDistinct(m, 0);
    var block := [("type", JStr("text")), ("text", JStr(text))];
    assert DistinctKeys(block);
    GetDistinct(block, 0);
    GetDistinct(block, 1);
    var other := [("type", JStr(otherType)), ("text", JStr(text))];
    assert DistinctKeys(other);
    GetDistinct(other, 0);
  }

  /** A JSON null "type" is an UnsupportedOperationException that parseResponse
      lets through, so the loop retries a 200 reply. */
  lemma NullTypeIsRetried(text: string)
    ensures Classify(Status(200, Parsed(JObj([("content", JArr([JObj([("type", JNull), ("text", JStr(text))])]))]))))
            == Retry
  {
    var block := [("type", JNull), ("text", JStr(text))];
    assert DistinctKeys(block);
    GetDistinct(block, 0);
  }

  /** The loop body's rule: 200 returns the parsed text (null included) at
      once; a status from 500 up or 529, a send exception and an exception
      escaping parseResponse retry; any other status gives up with null. */
  function Classify(outcome: HttpOutcome): (s: Step)
    ensures outcome.Exception? ==> s == Retry
    ensures outcome.Status? && outcome.code != 200 ==>
              (s == Retry <==> outcome.code >= 500 || outcome.code == 529) && (s != Retry ==> s == Reject)
    ensures outcome.Status? && outcome.code == 200 ==>
              (ParseResponse(outcome.body).Value? ==> s == Return(ParseResponse(outcome.body).value))
              && (ParseResponse(outcome.body).Thrown? ==> s == Retry)
  {
    match outcome
    case Exception => Retry
    case Status(code, body) =>
      if code == 200 then
        match ParseResponse(body)
        case Value(text) => Return(text)
        case Thrown(_) => Retry
      else if code >= 500 || code == 529 then Retry
      else Reject
  }

  /** sendRequest: no key means null with no send at all; otherwise the
      request is sent through the retry loop under this client's rule. */
  method SendRequest(c: Client, config: Config, systemPrompt: Option<string>, userPrompt: string,
                     outcomes: seq<HttpOutcome>, interrupts: seq<bool>)
    returns (request: Option<HttpRequest>, result: Option<string>, sends: nat, ghost delays: seq<nat>)
    requires |outcomes| >= MAX_RETRIES && |interrupts| >= MAX_RETRIES - 1
    ensures c.apiKey == None || c.apiKey.value == "" ==>
              request == None && result == None && sends == 0 && delays == []
    ensures c.apiKey.Some? && c.apiKey.value != "" ==>
              && request.Some? && request.value.url == API_URL && request.value.timeoutSeconds == 60
              && request.value.headers == [("Content-Type", "application/json"), ("x-api-key", c.apiKey.value),
                                           ("anthropic-version", ANTHROPIC_VERSION)]
              && request.value.body.JObj? && IsRequestBody(config, systemPrompt, userPrompt, request.value.body.members)
              && Trace(result, sends, delays) == Run(Steps(Classify, outcomes), interrupts, 0)
  {
    if c.apiKey == None || c.apiKey.value == "" {
      return None, None, 0, [];
    }
    var body := BuildRequestBody(config, systemPrompt, userPrompt);
    request := Some(HttpRequest(API_URL, [("Content-Type", "application/json"), ("x-api-key", c.apiKey.value),
                                          ("anthropic-version", ANTHROPIC_VERSION)], JObj(body), 60));
    result, sends, delays := Send(Classify, outcomes, interrupts);
  }

  /** A 200 whose parse returns is never retried, even when the text is null. */
  lemma OkReturnsAtOnce(outcomes: seq<HttpOutcome>, interrupts: seq<bool>, body: Body)
    requires |outcomes| >= MAX_RETRIES && |interrupts| >= MAX_RETRIES - 1
    requires outcomes[0] == Status(200, body) && ParseResponse(body).Value?
    ensures Run(Steps(Classify, outcomes), interrupts, 0) == Trace(ParseResponse(body).value, 1, [])
  {
    FirstReturnWins(Steps(Classify, outcomes), interrupts, 0, 0);
  }
}
