/** What every async adapter shares: the params map it reads, the response it
    builds, the HTTP exchange it depends on, the chat message list of the
    OpenAI-compatible request shape and the reply shape the OpenAI-compatible
    providers answer with. */
module LlmApi {
  import opened Lang
  import opened Gson

  /** A Java double that is only passed through: its value and the text
      Double.toString gives it. */
  datatype Temperature = Temperature(value: real, text: string)

  /** JsonPrimitive(Double) for a temperature. */
  function TemperatureJson(t: Temperature): Json {
    JNum(t.value, t.text)
  }

  /** The Map<String, Object> handed to sendAsync, reduced to the four keys
      the adapters read; an absent key is None. */
  datatype Params = Params(
    model: Option<string>,
    maxTokens: Option<int>,
    temperature: Option<Temperature>,
    systemPrompt: Option<string>)

  /** LLMResponse without its latency (a clock reading). */
  datatype LLMResponse = LLMResponse(
    content: string,
    model: string,
    providerId: string,
    tokensUsed: int,
    fromCache: bool)

  /** One HTTP exchange as the caller sees it: a status code with its body,
      or an exception from the send itself. */
  datatype HttpOutcome = Status(code: int, body: Body) | Exception

  /** A POST request: target, headers in the order they are set, the JSON
      body (before serialisation) and the per-call timeout. */
  datatype HttpRequest = HttpRequest(
    url: string,
    headers: seq<(string, string)>,
    body: Json,
    timeoutSeconds: nat)

  /** The adapters' test for adding a system message or field:
      `systemPrompt != null && !systemPrompt.isEmpty()`. */
  predicate HasSystemPrompt(systemPrompt: Option<string>) {
    systemPrompt.Some? && systemPrompt.value != ""
  }

  function ChatMessage(role: string, content: string): Json {
    JObj([("role", JStr(role)), ("content", JStr(content))])
  }

  /** The messages array of a chat request: the system message first when
      there is a non-empty system prompt, the user message always last. */
  function ChatMessages(systemPrompt: Option<string>, prompt: string): (msgs: seq<Json>)
    ensures |msgs| == if HasSystemPrompt(systemPrompt) then 2 else 1
    ensures msgs[|msgs| - 1] == ChatMessage("user", prompt)
    ensures HasSystemPrompt(systemPrompt) ==> msgs[0] == ChatMessage("system", systemPrompt.value)
  {
    (if HasSystemPrompt(systemPrompt) then [ChatMessage("system", systemPrompt.value)] else [])
    + [ChatMessage("user", prompt)]
  }

  /** The messages array filled in place, as each adapter's buildRequestBody
      does: optional system message, then the user message. */
  method BuildChatMessages(systemPrompt: Option<string>, prompt: string) returns (messages: seq<Json>)
    ensures messages == ChatMessages(systemPrompt, prompt)
  {
    messages := [];
    if systemPrompt.Some? && systemPrompt.value != "" {
      messages := messages + [ChatMessage("system", systemPrompt.value)];
    }
    messages := messages + [ChatMessage("user", prompt)];
  }

  /** A reply in the OpenAI-compatible shape (DeepSeek, iFlow, LongCat): one
      choice whose message holds the content, and a usage object with
      total_tokens when the provider reports usage. */
  function OpenAIReply(content: string, totalTokens: Option<int>): Json {
    var choice := JObj([("index", IntJson(0)),
                        ("message", JObj([("role", JStr("assistant")), ("content", JStr(content))]))]);
    var usage := match totalTokens
                 case Some(t) => [("usage", JObj([("total_tokens", IntJson(t))]))]
                 case None => [];
    JObj([("choices", JArr([choice]))] + usage)
  }

  /** A reply in the Anthropic Messages shape: one text block, and a usage object (when
      reported) with the input and output counts the provider chose to send. */
  function MessagesReply(text: string, usage: Option<(Option<int>, Option<int>)>): Json {
    var block := JObj([("type", JStr("text")), ("text", JStr(text))]);
    var usageMembers := match usage
      case None => []
      case Some((input, output)) =>
        var counts := (if input.Some? then [("input_tokens", IntJson(input.value))] else [])
                      + (if output.Some? then [("output_tokens", IntJson(output.value))] else []);
        [("usage", JObj(counts))];
    JObj([("content", JArr([block]))] + usageMembers)
  }

  /** The first content block of a reply, when the body is an object whose
      "content" is a non-empty array starting with an object. */
  function FirstBlock(responseBody: Body): Option<Members> {
    if responseBody.Parsed? && responseBody.tree.JObj? then
      var content := Get(responseBody.tree.members, "content");
      if content.Some? && content.value.JArr? && |content.value.items| > 0 && content.value.items[0].JObj?
      then Some(content.value.items[0].members)
      else None
    else None
  }

  /** A block's "type" when it is a JSON string. */
  function BlockType(block: Members): Option<string> {
    var t := Get(block, "type");
    if t.Some? && t.value.JStr? then Some(t.value.s) else None
  }

  /** choices[0].message.content of a reply, when the body is an object and
      each step holds the type the parsers read it as: a non-empty array, an
      object, an object, a string. */
  function FirstChoiceContent(responseBody: Body): Option<string> {
    if responseBody.Parsed? && responseBody.tree.JObj? then
      var choices := Get(responseBody.tree.members, "choices");
      if choices.Some? && choices.value.JArr? && |choices.value.items| > 0 && choices.value.items[0].JObj? then
        var message := Get(choices.value.items[0].members, "message");
        if message.Some? && message.value.JObj? then
          var content := Get(message.value.members, "content");
          if content.Some? && content.value.JStr? then Some(content.value.s) else None
        else None
      else None
    else None
  }

  /** A member read with getAsInt() when it is a number, 0 when it is absent;
      None for any other value. */
  function NumberOrZero(m: Members, key: string): Option<int> {
    match Get(m, key)
    case None => Some(0)
    case Some(JNum(v, _)) => Some(Wrap32(TruncateReal(v)))
    case Some(_) => None
  }

  /** The token count of an OpenAI-shaped reply: usage.total_tokens when
      usage is an object holding a number there, 0 without usage. */
  function UsageTotalTokens(responseBody: Body): Option<int> {
    if responseBody.Parsed? && responseBody.tree.JObj? then
      match Get(responseBody.tree.members, "usage")
      case None => Some(0)
      case Some(JObj(usage)) =>
        (match Get(usage, "total_tokens")
         case Some(JNum(v, _)) => Some(Wrap32(TruncateReal(v)))
         case _ => None)
      case Some(_) => None
    else None
  }

  /** Reading an OpenAIReply back by key finds what it was built from. */
  lemma OpenAIReplyFields(content: string, totalTokens: Option<int>)
    ensures var m := OpenAIReply(content, totalTokens).members;
            && Get(m, "choices").Some? && Get(m, "choices").value.JArr?
            && |Get(m, "choices").value.items| == 1
            && Get(m, "choices").value.items[0].JObj?
            && Get(Get(m, "choices").value.items[0].members, "message")
               == Some(JObj([("role", JStr("assistant")), ("content", JStr(content))]))
            && (Has(m, "usage") <==> totalTokens.Some?)
            && (totalTokens.Some? ==> Get(m, "usage") == Some(JObj([("total_tokens", IntJson(totalTokens.value))])))
  {
    var m := OpenAIReply(content, totalTokens).members;
    assert DistinctKeys(m);
    GetDistinct(m, 0);
    var choice := m[0].1.items[0].members;
    assert DistinctKeys(choice);
    GetDistinct(choice, 1);
    if totalTokens.Some? {
      GetDistinct(m, 1);
    } else {
      assert !Has(m, "usage");
    }
  }

  /** The message object of an OpenAIReply holds the content under "content". */
  lemma ReplyMessageContent(content: string)
    ensures Get([("role", JStr("assistant")), ("content", JStr(content))], "content") == Some(JStr(content))
  {
    GetDistinct([("role", JStr("assistant")), ("content", JStr(content))], 1);
  }

  /** The usage object of an OpenAIReply holds the count under "total_tokens". */
  lemma ReplyUsageTotal(t: int)
    ensures Get([("total_tokens", IntJson(t))], "total_tokens") == Some(IntJson(t))
  {
  }

  /** truncate of the DeepSeek, Claude and LongCat adapters (used for log
      lines): null becomes "[null]", a string that fits is kept, a longer one
      is cut to maxLength characters followed by "...". */
  function Truncate(s: Option<string>, maxLength: nat): (r: string)
    ensures s == None ==> r == "[null]"
    ensures s.Some? && |s.value| <= maxLength ==> r == s.value
    ensures s.Some? && |s.value| > maxLength ==>
              |r| == maxLength + 3 && r[..maxLength] == s.value[..maxLength] && r[maxLength..] == "..."
  {
    match s
    case None => "[null]"
    case Some(str) => if |str| <= maxLength then str else str[..maxLength] + "..."
  }

  /** truncate of the Ollama and iFlow adapters: null stays null, otherwise
      as Truncate. */
  function TruncateNullable(s: Option<string>, maxLength: nat): (r: Option<string>)
    ensures s == None <==> r == None
    ensures s.Some? ==> r == Some(Truncate(s, maxLength))
  {
    if s == None || |s.value| <= maxLength then s
    else Some(s.value[..maxLength] + "...")
  }
}
