# Steve LLM clients — a Dafny model

This project models the part of the Steve Minecraft mod that talks to large
language models, and proves properties of that model. It covers three parts:

- **Five async adapters.** DeepSeek, Claude, Ollama, iFlow and LongCat each:
  - check their key in the constructor;
  - build a JSON request body from constructor defaults and a per-call
    params map;
  - turn a non-200 status into an `LLMException` with an error type and a
    retryable flag;
  - parse the provider's reply into an `LLMResponse`.
- **Three legacy blocking clients.** Claude, Ollama and iFlow share one retry
  loop: at most three sends, with sleeps of 1000 · 2^attempt ms. Each client
  has its own rule for which outcomes are retried.
- **The planner (`TaskPlanner`).** It covers:
  - building the async clients in the constructor;
  - resolving a provider name to a client and a model, with a LongCat default
    and an ordered fallback;
  - the synchronous path's extra LongCat call;
  - turning a missing reply into a null plan;
  - validating and filtering the planned tasks.

The modules mirror the Java sources:

| file | module | models |
|---|---|---|
| `lang.dfy` | `Lang` | Java values the code relies on: null as `Option`, exceptions as `Try`, 32-bit `int` wrap-around, `Integer.parseInt`, ASCII `toLowerCase` |
| `gson.dfy` | `Gson` | the Gson tree (`JsonObject` as an insertion-ordered member list) and the accessors the clients call, each raising the exception class Gson raises |
| `llm_api.dfy` | `LlmApi` | what every adapter shares: params, `LLMResponse`, an HTTP outcome, the chat message list, `truncate` |
| `async_*.dfy` | `AsyncDeepSeekClient`, `AsyncClaudeClient`, `AsyncOllamaClient`, `AsyncIFlowClient`, `AsyncLongCatClient` | one adapter each |
| `provider_rules.dfy` | `ProviderRules` | where the five adapters' status rules agree and where they differ |
| `sync_retry.dfy` | `SyncRetry` | the retry loop shared by the legacy clients |
| `sync_claude.dfy`, `sync_ollama.dfy`, `sync_iflow.dfy` | `ClaudeClient`, `OllamaClient`, `IFlowClient` | one legacy client each |
| `task_planner.dfy` | `TaskPlanner` | the planner policy |

The transport is an oracle:

- A send is an `HttpOutcome`: either a status with its body, or an exception
  from the send.
- A blocking call takes the outcome of each send in turn, and whether each
  sleep is interrupted.
- The sleeps the loop would make are recorded as ghost delays.
- A future is modelled as the `Try` value it completes with.

Each operation is proved against something independent of its body:

- **Request builders.** Each adapter's `BuildRequestBody` fills the JSON
  object step by step. It is proved to produce the members that
  `IsRequestBody` reads back key by key.
- **Retry loop.** `SyncRetry.Send` is a `while` loop. It is proved equal to
  the recursive `SyncRetry.Run`, and the attempt bound, the delays and
  "first success wins" are proved about `Run`.
- **Parsers.** Each parser is proved to read back a well-formed reply built
  by a separate reply constructor (`ParseReply` lemmas), and to fail in the
  documented way on the documented bad inputs.

## Model

Source paths are relative to the repository root.

| member | source | states |
|---|---|---|
| Lang.CatchAsInvalid | src/main/java/com/steve/ai/llm/async/AsyncDeepSeekClient.java:209-219 | an `LLMException` passes through; a caught Java exception becomes a non-retryable INVALID_RESPONSE of the provider; an uncaught one propagates |
| Lang.CatchAsNull | src/main/java/com/steve/ai/llm/ClaudeClient.java:141-144 | a caught exception class becomes a null result, any other exception propagates, and a value is kept |
| Lang.AddInt | src/main/java/com/steve/ai/llm/async/AsyncClaudeClient.java:168 | Java `int` addition: the sum wrapped into 32 bits, equal to the exact sum when that fits |
| Lang.Deref | src/main/java/com/steve/ai/llm/async/AsyncDeepSeekClient.java:189-190 | dereferencing throws NullPointerException exactly when the reference is null |
| Lang.Wrap32 | src/main/java/com/steve/ai/llm/async/AsyncDeepSeekClient.java:195 | Java's narrowing to `int`: a 32-bit value congruent to the input modulo 2^32, equal to it when it fits |
| Lang.TruncateReal | src/main/java/com/steve/ai/llm/async/AsyncDeepSeekClient.java:195 | `intValue` of a number drops the fraction, rounding toward zero on both signs |
| Lang.ParseInt | src/main/java/com/steve/ai/llm/async/AsyncOllamaClient.java:116 | `Integer.parseInt`: a 32-bit value or NumberFormatException; empty text and a text starting with a non-digit other than a sign throw |
| Lang.ParseDecimalRoundTrip | src/main/java/com/steve/ai/llm/async/AsyncDeepSeekClient.java:195 | `Integer.parseInt` undoes `Integer.toString` on every `int` |
| Lang.ToLower | src/main/java/com/steve/ai/llm/TaskPlanner.java:147 | the result has the input's length, each letter lower-cased and every other character kept |
| Lang.ToLowerIdempotent | src/main/java/com/steve/ai/llm/TaskPlanner.java:216 | lower-casing an already lower-cased name changes nothing |
| Gson.PutGet | src/main/java/com/steve/ai/llm/async/AsyncDeepSeekClient.java:142-144 | after `addProperty(k, v)` the object reads `v` at `k` and every other key unchanged |
| Gson.PutKeys | src/main/java/com/steve/ai/llm/async/AsyncDeepSeekClient.java:142-163 | a new key is appended to the key order and an existing key keeps its place |
| Gson.Get | src/main/java/com/steve/ai/llm/async/AsyncDeepSeekClient.java:179 | `get(key)` is non-null exactly when `has(key)` |
| Gson.Put | src/main/java/com/steve/ai/llm/async/AsyncDeepSeekClient.java:142-144 | `addProperty` on a new key appends it; on an existing key the object keeps its size |
| Gson.StringOrNull | src/main/java/com/steve/ai/llm/OllamaClient.java:96-122 | `addProperty(k, (String) s)` stores a string exactly when `s` is non-null |
| Gson.ParseString | src/main/java/com/steve/ai/llm/async/AsyncDeepSeekClient.java:177 | malformed text throws `JsonSyntaxException`, otherwise the tree |
| Gson.AsObject | src/main/java/com/steve/ai/llm/async/AsyncDeepSeekClient.java:177 | `getAsJsonObject()` succeeds exactly on an object and otherwise throws IllegalStateException |
| Gson.CastArray | src/main/java/com/steve/ai/llm/async/AsyncDeepSeekClient.java:179 | the `(JsonArray)` cast succeeds exactly on an array and otherwise throws ClassCastException |
| Gson.CastObject | src/main/java/com/steve/ai/llm/async/AsyncDeepSeekClient.java:194 | the `(JsonObject)` cast succeeds exactly on an object and otherwise throws ClassCastException |
| Gson.MemberArray | src/main/java/com/steve/ai/llm/async/AsyncIFlowClient.java:110 | `getAsJsonArray(key)`: null when absent, the items when an array, ClassCastException otherwise (JSON null included) |
| Gson.MemberObject | src/main/java/com/steve/ai/llm/async/AsyncIFlowClient.java:111 | `getAsJsonObject(key)`: null when absent, the members when an object, ClassCastException otherwise |
| Gson.At | src/main/java/com/steve/ai/llm/async/AsyncIFlowClient.java:110 | `get(i)` is the i-th item, or IndexOutOfBoundsException past the end |
| Gson.AsString | src/main/java/com/steve/ai/llm/async/AsyncDeepSeekClient.java:190 | `getAsString`: a string is itself; null and objects throw UnsupportedOperationException; the only other exception is IllegalStateException |
| Gson.AsInt | src/main/java/com/steve/ai/llm/async/AsyncDeepSeekClient.java:195 | `getAsInt`: a number is truncated and wrapped to 32 bits; a boolean throws NumberFormatException, null and objects UnsupportedOperationException; only those two and IllegalStateException can be thrown |
| Gson.IntJsonRoundTrip | src/main/java/com/steve/ai/llm/async/AsyncDeepSeekClient.java:143 | an `int` written with `addProperty` reads back with `getAsInt` |
| Gson.GetDistinct | src/main/java/com/steve/ai/llm/async/AsyncDeepSeekClient.java:136-165 | in an object with distinct keys, each member is what `get` returns for its key |
| LlmApi.ChatMessages | src/main/java/com/steve/ai/llm/async/AsyncDeepSeekClient.java:146-161 | a system message comes first iff the system prompt is non-null and non-empty; the user message is always last |
| LlmApi.BuildChatMessages | src/main/java/com/steve/ai/llm/async/AsyncDeepSeekClient.java:146-161 | the `JsonArray` built message by message equals `ChatMessages` |
| LlmApi.OpenAIReplyFields | src/main/java/com/steve/ai/llm/async/AsyncDeepSeekClient.java:188-196 | an OpenAI-shaped reply exposes `choices`, `choices[0].message` and `usage.total_tokens` |
| LlmApi.ReplyMessageContent | src/main/java/com/steve/ai/llm/async/AsyncDeepSeekClient.java:189-190 | the reply's message reads back its content |
| LlmApi.Truncate | src/main/java/com/steve/ai/llm/async/AsyncDeepSeekClient.java:238-242 | null gives "[null]"; a string within the limit is unchanged; a longer one is its first `max` characters then "..." |
| LlmApi.TruncateNullable | src/main/java/com/steve/ai/llm/async/AsyncOllamaClient.java:167-172 | null stays null, and a string is truncated exactly as by `Truncate` |
| AsyncDeepSeekClient.New | src/main/java/com/steve/ai/llm/async/AsyncDeepSeekClient.java:70-78 | throws IllegalArgumentException iff the key is null or empty; otherwise keeps the four arguments |
| AsyncDeepSeekClient.ErrorTypeFor | src/main/java/com/steve/ai/llm/async/AsyncDeepSeekClient.java:223-236 | 429 RATE_LIMIT, 401/403 AUTH_ERROR, 408 TIMEOUT, 500 and up SERVER_ERROR, everything else CLIENT_ERROR; each as an iff |
| AsyncDeepSeekClient.BuildRequestBody | src/main/java/com/steve/ai/llm/async/AsyncDeepSeekClient.java:135-166 | keys model, max_tokens, temperature, messages in that order; each value from params, else the constructor default |
| AsyncDeepSeekClient.ParseBody | src/main/java/com/steve/ai/llm/async/AsyncDeepSeekClient.java:176-207 | the try block fails only with a Java exception or the INVALID_RESPONSE for missing or empty choices |
| AsyncDeepSeekClient.ParseResponse | src/main/java/com/steve/ai/llm/async/AsyncDeepSeekClient.java:175-221 | every failure is a non-retryable INVALID_RESPONSE; missing or empty choices fail; a success carries the constructor's model, provider "deepseek", fromCache false and a 32-bit token count; for every reply whose choices[0].message.content is a string and whose usage is absent or holds a numeric total_tokens, the result is that content with total_tokens (0 without usage) |
| AsyncDeepSeekClient.ParseReply | src/main/java/com/steve/ai/llm/async/AsyncDeepSeekClient.java:188-207 | a reply parses to its content, with tokens = usage.total_tokens, or 0 without usage |
| AsyncDeepSeekClient.Complete | src/main/java/com/steve/ai/llm/async/AsyncDeepSeekClient.java:105-125 | a status other than exactly 200 fails with provider "deepseek", `ErrorTypeFor`'s type, retryable iff RATE_LIMIT or SERVER_ERROR; 200 is `ParseResponse` |
| AsyncDeepSeekClient.SendAsync | src/main/java/com/steve/ai/llm/async/AsyncDeepSeekClient.java:90-126 | the request's URL, headers in order, 60 s timeout and body; the future completes as `Complete` |
| AsyncDeepSeekClient.NonSuccessIgnoresBody | src/main/java/com/steve/ai/llm/async/AsyncDeepSeekClient.java:109-122 | for a non-200 status the body has no influence on the result |
| AsyncDeepSeekClient.TimeoutNotRetryable | src/main/java/com/steve/ai/llm/async/AsyncDeepSeekClient.java:111 | 408 fails as a non-retryable TIMEOUT |
| AsyncClaudeClient.New | src/main/java/com/steve/ai/llm/async/AsyncClaudeClient.java:35-43 | throws IllegalArgumentException iff the key is null or empty; otherwise keeps the four arguments |
| AsyncClaudeClient.ErrorTypeFor | src/main/java/com/steve/ai/llm/async/AsyncClaudeClient.java:196-210 | as DeepSeek's, with 529 SERVER_ERROR; each type as an iff |
| AsyncClaudeClient.BuildRequestBody | src/main/java/com/steve/ai/llm/async/AsyncClaudeClient.java:95-122 | model, max_tokens and temperature from params or defaults; a top-level "system" only for a non-empty prompt; exactly one user message |
| AsyncClaudeClient.RequestBodyFields | src/main/java/com/steve/ai/llm/async/AsyncClaudeClient.java:102-119 | the body's members read back by key, "system" absent without a system prompt |
| AsyncClaudeClient.IntOrZero | src/main/java/com/steve/ai/llm/async/AsyncClaudeClient.java:166-167 | an absent token count is 0, a present one is `getAsInt` of it |
| AsyncClaudeClient.ParseBody | src/main/java/com/steve/ai/llm/async/AsyncClaudeClient.java:125-180 | the try block fails only with a Java exception or a non-retryable INVALID_RESPONSE |
| AsyncClaudeClient.ParseResponse | src/main/java/com/steve/ai/llm/async/AsyncClaudeClient.java:124-194 | every failure is a non-retryable INVALID_RESPONSE; missing or empty content fails; a first block that is not a text block fails; a success carries the constructor's model; for every reply whose first block has type "text" and a string text, and whose usage is absent or holds numeric or absent counts, the result is that text with input_tokens + output_tokens added as Java ints (0 without usage) |
| AsyncClaudeClient.ParseReply | src/main/java/com/steve/ai/llm/async/AsyncClaudeClient.java:140-180 | a text reply parses to its text; tokens are input plus output with 32-bit wrap-around, a missing count being 0 |
| AsyncClaudeClient.Complete | src/main/java/com/steve/ai/llm/async/AsyncClaudeClient.java:70-92 | a non-200 status fails with provider "claude", retryable iff RATE_LIMIT or SERVER_ERROR (429, 529 or 500 and up) |
| AsyncClaudeClient.SendAsync | src/main/java/com/steve/ai/llm/async/AsyncClaudeClient.java:54-93 | the request with x-api-key and anthropic-version headers and 60 s timeout; completes as `Complete` |
| AsyncClaudeClient.OverloadedIsRetryable | src/main/java/com/steve/ai/llm/async/AsyncClaudeClient.java:76-78 | 529 fails as a retryable SERVER_ERROR |
| AsyncOllamaClient.NormalizeHost | src/main/java/com/steve/ai/llm/async/AsyncOllamaClient.java:33-41 | a null or empty host is the default; one trailing "/" is removed; any other host is kept |
| AsyncOllamaClient.NormalizeStripsOneSlash | src/main/java/com/steve/ai/llm/async/AsyncOllamaClient.java:33-41 | only one trailing slash is stripped, so "h//" gives a URL with a double slash |
| AsyncOllamaClient.New | src/main/java/com/steve/ai/llm/async/AsyncOllamaClient.java:33-47 | never throws; stores the normalised host and the other arguments |
| AsyncOllamaClient.ChatUrl | src/main/java/com/steve/ai/llm/async/AsyncOllamaClient.java:53 | the URL is the host followed by "/api/chat" |
| AsyncOllamaClient.ErrorTypeFor | src/main/java/com/steve/ai/llm/async/AsyncOllamaClient.java:155-161 | SERVER_ERROR iff 500, 502, 503 or 504; every other status CLIENT_ERROR |
| AsyncOllamaClient.BuildRequestBody | src/main/java/com/steve/ai/llm/async/AsyncOllamaClient.java:75-108 | keys model, stream=false, messages, options{temperature, num_predict}, from params or defaults |
| AsyncOllamaClient.RequestBodyFields | src/main/java/com/steve/ai/llm/async/AsyncOllamaClient.java:75-108 | the body's members read back by key |
| AsyncOllamaClient.ParseBody | src/main/java/com/steve/ai/llm/async/AsyncOllamaClient.java:111-126 | the try block fails only with Java exceptions |
| AsyncOllamaClient.ParseResponse | src/main/java/com/steve/ai/llm/async/AsyncOllamaClient.java:110-131 | malformed text and a missing message are INVALID_RESPONSE; ClassCast, UnsupportedOperation and NumberFormat escape raw; a success carries the params model; for every reply whose message.content is a string and whose eval_count is absent or a number, the result is that content with eval_count (0 when absent) |
| AsyncOllamaClient.ParseReply | src/main/java/com/steve/ai/llm/async/AsyncOllamaClient.java:113-124 | a chat reply parses to its content with tokens = eval_count, or 0 |
| AsyncOllamaClient.MessageNotObjectEscapes | src/main/java/com/steve/ai/llm/async/AsyncOllamaClient.java:127 | a non-object "message" escapes as ClassCastException, not INVALID_RESPONSE |
| AsyncOllamaClient.NullContentEscapes | src/main/java/com/steve/ai/llm/async/AsyncOllamaClient.java:127 | a JSON null content escapes as UnsupportedOperationException |
| AsyncOllamaClient.Complete | src/main/java/com/steve/ai/llm/async/AsyncOllamaClient.java:62-72 | a non-200 status fails with provider "ollama", retryable iff 500..599 |
| AsyncOllamaClient.SendAsync | src/main/java/com/steve/ai/llm/async/AsyncOllamaClient.java:50-73 | the request to `ChatUrl`, Content-Type only, 120 s timeout; completes as `Complete` |
| AsyncOllamaClient.IsHealthy | src/main/java/com/steve/ai/llm/async/AsyncOllamaClient.java:139-153 | healthy iff the probe answers exactly 200; an exception is unhealthy |
| AsyncIFlowClient.New | src/main/java/com/steve/ai/llm/async/AsyncIFlowClient.java:34-42 | throws IllegalArgumentException iff the key is null or empty |
| AsyncIFlowClient.ErrorTypeFor | src/main/java/com/steve/ai/llm/async/AsyncIFlowClient.java:141-148 | 401/403 AUTH_ERROR, 429 RATE_LIMIT, 500/502/503/504 SERVER_ERROR, all else CLIENT_ERROR; each as an iff |
| AsyncIFlowClient.BuildRequestBody | src/main/java/com/steve/ai/llm/async/AsyncIFlowClient.java:78-105 | keys model, temperature, max_tokens, messages from params or defaults |
| AsyncIFlowClient.ParseBody | src/main/java/com/steve/ai/llm/async/AsyncIFlowClient.java:108-123 | the try block fails only with Java exceptions or INVALID_RESPONSE |
| AsyncIFlowClient.ParseResponse | src/main/java/com/steve/ai/llm/async/AsyncIFlowClient.java:107-129 | malformed text and empty choices are INVALID_RESPONSE; missing choices is a NullPointerException; ClassCast, UnsupportedOperation, NumberFormat escape; a success carries the params model; for every reply whose choices[0].message.content is a string and whose usage is absent or holds a numeric total_tokens, the result is that content with total_tokens (0 without usage) |
| AsyncIFlowClient.ParseReply | src/main/java/com/steve/ai/llm/async/AsyncIFlowClient.java:110-123 | a reply parses to its content with total_tokens, or 0 |
| AsyncIFlowClient.Complete | src/main/java/com/steve/ai/llm/async/AsyncIFlowClient.java:64-75 | a non-200 status fails with provider "iflow", retryable iff 429 or 500..599 |
| AsyncIFlowClient.SendAsync | src/main/java/com/steve/ai/llm/async/AsyncIFlowClient.java:53-76 | the request with bearer key and 60 s timeout; completes as `Complete` |
| AsyncLongCatClient.New | src/main/java/com/steve/ai/llm/async/AsyncLongCatClient.java:33-41 | throws IllegalArgumentException iff the key is null or empty |
| AsyncLongCatClient.ErrorTypeFor | src/main/java/com/steve/ai/llm/async/AsyncLongCatClient.java:125-132 | 429 RATE_LIMIT, 401/403 AUTH_ERROR, 500 and up SERVER_ERROR, all else (408 too) CLIENT_ERROR |
| AsyncLongCatClient.BuildRequestBody | src/main/java/com/steve/ai/llm/async/AsyncLongCatClient.java:80-102 | keys model, max_tokens, temperature, messages from params or defaults |
| AsyncLongCatClient.ParseBody | src/main/java/com/steve/ai/llm/async/AsyncLongCatClient.java:105-119 | the try block fails only with Java exceptions |
| AsyncLongCatClient.ParseResponse | src/main/java/com/steve/ai/llm/async/AsyncLongCatClient.java:104-123 | every failure, missing or empty choices included, is a non-retryable INVALID_RESPONSE; a success carries the constructor's model; for every reply whose choices[0].message.content is a string and whose usage is absent or holds a numeric total_tokens, the result is that content with total_tokens (0 without usage) |
| AsyncLongCatClient.ParseReply | src/main/java/com/steve/ai/llm/async/AsyncLongCatClient.java:106-118 | a reply parses to its content with total_tokens, or 0 |
| AsyncLongCatClient.Complete | src/main/java/com/steve/ai/llm/async/AsyncLongCatClient.java:64-77 | a non-200 status fails with provider "longcat", retryable iff SERVER_ERROR (so 429 is not retried) |
| AsyncLongCatClient.SendAsync | src/main/java/com/steve/ai/llm/async/AsyncLongCatClient.java:52-78 | the request with bearer key and 60 s timeout; completes as `Complete` |
| ProviderRules.ClaudeFailsLikeDeepSeek | src/main/java/com/steve/ai/llm/async/AsyncClaudeClient.java:74-78 | Claude's extra 529 case changes nothing: Claude and DeepSeek fail every non-200 status with the same type and retryability |
| ProviderRules.RateLimitRetryability | src/main/java/com/steve/ai/llm/async/AsyncLongCatClient.java:64-70 | 429 is a retryable RATE_LIMIT for Claude, DeepSeek and iFlow, a non-retryable RATE_LIMIT for LongCat, a non-retryable CLIENT_ERROR for Ollama |
| ProviderRules.OddServerStatusRetriedAsClientError | src/main/java/com/steve/ai/llm/async/AsyncOllamaClient.java:155-165 | Ollama and iFlow call 501 or 505..599 a CLIENT_ERROR yet retry it; LongCat calls it a retryable SERVER_ERROR |
| ProviderRules.RequestTimeoutNeverRetried | src/main/java/com/steve/ai/llm/async/AsyncDeepSeekClient.java:228 | 408 is TIMEOUT only for Claude and DeepSeek, and no adapter retries it |
| ProviderRules.AuthFailuresNeverRetried | src/main/java/com/steve/ai/llm/async/AsyncIFlowClient.java:150-152 | 401 and 403 are never retried by any adapter |
| SyncRetry.Backoffs | src/main/java/com/steve/ai/llm/ClaudeClient.java:73 | the n delays are 1000 · 2^i for i below n |
| SyncRetry.Run | src/main/java/com/steve/ai/llm/ClaudeClient.java:58-104 | between 1 and 3 sends; the delays are the first `sends - 1` backoffs, or `sends` when a sleep was interrupted; fewer than 3 delays |
| SyncRetry.Send | src/main/java/com/steve/ai/llm/ClaudeClient.java:58-104 | the loop's result, send count and delays are exactly `Run`'s |
| SyncRetry.ResultIsLastSend | src/main/java/com/steve/ai/llm/ClaudeClient.java:58-104 | every send but the last retried; a non-null result comes from the last send returning it |
| SyncRetry.FirstReturnWins | src/main/java/com/steve/ai/llm/ClaudeClient.java:62-68 | after k retries a returning send k ends the call with its text after k + 1 sends and k delays |
| SyncRetry.FirstRejectStops | src/main/java/com/steve/ai/llm/ClaudeClient.java:85-87 | after k retries a rejected send k ends the call with null |
| SyncRetry.AllRetriesExhausted | src/main/java/com/steve/ai/llm/ClaudeClient.java:89-101 | three retries in a row: three sends, delays 1000 and 2000 ms, null |
| SyncRetry.InterruptStops | src/main/java/com/steve/ai/llm/ClaudeClient.java:75-80 | an interrupted sleep ends the call with null and no further send |
| ClaudeClient.BuildRequestBody | src/main/java/com/steve/ai/llm/ClaudeClient.java:107-126 | model and max_tokens from the configuration, "system" only for a non-empty prompt, one user message |
| ClaudeClient.RequestBodyFields | src/main/java/com/steve/ai/llm/ClaudeClient.java:108-123 | the body's members read back by key |
| ClaudeClient.ParseBody | src/main/java/com/steve/ai/llm/ClaudeClient.java:130-140 | the try block fails only with Java exceptions |
| ClaudeClient.ParseResponse | src/main/java/com/steve/ai/llm/ClaudeClient.java:128-145 | for every reply: a first block whose string type is not "text" gives null; a "text" block gives its string text, or null without one; a block without a type gives null; malformed text and a missing content give null; only ClassCast or UnsupportedOperation escape |
| ClaudeClient.ParseReply | src/main/java/com/steve/ai/llm/ClaudeClient.java:133-137 | a text block reads back as its text; a first block of another type is null |
| ClaudeClient.NullTypeIsRetried | src/main/java/com/steve/ai/llm/ClaudeClient.java:88 | a 200 whose block type is JSON null escapes the parser and is retried |
| ClaudeClient.Classify | src/main/java/com/steve/ai/llm/ClaudeClient.java:60-101 | 200 returns the parse (or retries when it throws); 500 and up or 529 retries; an exception retries; anything else gives up |
| ClaudeClient.SendRequest | src/main/java/com/steve/ai/llm/ClaudeClient.java:36-105 | a null or empty key gives null with no send; otherwise the request, and the loop's trace is `Run` under `Classify` |
| ClaudeClient.OkReturnsAtOnce | src/main/java/com/steve/ai/llm/ClaudeClient.java:62-68 | a 200 whose parse returns ends the call after one send, null text included |
| OllamaClient.BuildRequestBody | src/main/java/com/steve/ai/llm/OllamaClient.java:96-122 | model, stream=false, a system message always then the user message, options{temperature, num_predict} |
| OllamaClient.ParseBody | src/main/java/com/steve/ai/llm/OllamaClient.java:125-127 | the try block fails only with Java exceptions, and a value is non-null |
| OllamaClient.ParseResponse | src/main/java/com/steve/ai/llm/OllamaClient.java:124-132 | for every reply whose message is an object: a string content is the result, a missing content gives null; malformed text and a missing message give null; only ClassCast or UnsupportedOperation escape |
| OllamaClient.ParseReply | src/main/java/com/steve/ai/llm/OllamaClient.java:125-127 | a chat reply reads back as its content |
| OllamaClient.Classify | src/main/java/com/steve/ai/llm/OllamaClient.java:51-89 | 200 returns the parse (or retries when it throws); 500 and up retries; an exception retries; anything else, 429 too, gives up |
| OllamaClient.SendRequest | src/main/java/com/steve/ai/llm/OllamaClient.java:34-94 | the request to host + "/api/chat" with a 120 s timeout; the loop's trace is `Run` under `Classify` |
| OllamaClient.RateLimitNotRetried | src/main/java/com/steve/ai/llm/OllamaClient.java:60-75 | a 429 ends the call with null after one send |
| IFlowClient.BuildRequestBody | src/main/java/com/steve/ai/llm/IFlowClient.java:94-113 | model, temperature, max_tokens, then a system message always and the user message |
| IFlowClient.ParseBody | src/main/java/com/steve/ai/llm/IFlowClient.java:116-119 | the chain fails only with Java exceptions |
| IFlowClient.ParseResponse | src/main/java/com/steve/ai/llm/IFlowClient.java:115-124 | never throws; non-null iff the chain succeeds; malformed text, missing or empty choices are null; for every reply whose choices[0].message.content is a string, the result is that string |
| IFlowClient.ParseReply | src/main/java/com/steve/ai/llm/IFlowClient.java:116-119 | an OpenAI-shaped reply reads back as its content |
| IFlowClient.Classify | src/main/java/com/steve/ai/llm/IFlowClient.java:53-88 | 200 returns the parse; 429 or 500 and up retries; an exception retries; anything else gives up |
| IFlowClient.SendRequest | src/main/java/com/steve/ai/llm/IFlowClient.java:35-92 | a null or empty key gives null with no send; otherwise the request, and the loop's trace is `Run` under `Classify` |
| IFlowClient.OkReturnsAtOnce | src/main/java/com/steve/ai/llm/IFlowClient.java:55-58 | after k retries a 200 ends the call with its parse after k + 1 sends |
| TaskPlanner.ProviderNamed | src/main/java/com/steve/ai/llm/TaskPlanner.java:307-318 | a name matches a provider exactly when it is that provider's lower-case name |
| TaskPlanner.NamesResolve | src/main/java/com/steve/ai/llm/TaskPlanner.java:216 | each provider's name resolves back to it, also after lower-casing a configured name |
| TaskPlanner.NewPlanner | src/main/java/com/steve/ai/llm/TaskPlanner.java:48-138 | the fields the constructor leaves: a client is non-null iff every step before wrapping and every wrap up to its own succeeded |
| TaskPlanner.WrappedInOrder | src/main/java/com/steve/ai/llm/TaskPlanner.java:117-123 | a client is wrapped iff every wrap up to its position in construction order succeeded |
| TaskPlanner.AllOrNothing | src/main/java/com/steve/ai/llm/TaskPlanner.java:58-128 | when no wrapper throws, all seven clients are built or all are null, and all null iff an earlier step threw |
| TaskPlanner.PartialWrap | src/main/java/com/steve/ai/llm/TaskPlanner.java:117-126 | a wrapper that throws leaves the clients wrapped before it non-null |
| TaskPlanner.MissingLongCatKeyDisablesAsync | src/main/java/com/steve/ai/llm/TaskPlanner.java:74-79 | a null or empty LongCat key leaves every async client null |
| TaskPlanner.FirstAvailable | src/main/java/com/steve/ai/llm/TaskPlanner.java:325-331 | null iff every client in the order is null, otherwise the first non-null one |
| TaskPlanner.FallbackOrderCoversAll | src/main/java/com/steve/ai/llm/TaskPlanner.java:324-331 | the fallback list finds nothing only when all seven fields are null |
| TaskPlanner.GetAsyncClient | src/main/java/com/steve/ai/llm/TaskPlanner.java:306-334 | the named provider's client (LongCat for unknown names); when null, the first non-null one in fallback order; null iff all seven are null |
| TaskPlanner.FullPlannerSelectsNamed | src/main/java/com/steve/ai/llm/TaskPlanner.java:307-319 | with every client built, a name gets its own provider's client |
| TaskPlanner.IsProviderHealthy | src/main/java/com/steve/ai/llm/TaskPlanner.java:351-353 | NullPointerException iff every client is null, otherwise the selected client's health |
| TaskPlanner.ModelFor | src/main/java/com/steve/ai/llm/TaskPlanner.java:222-231 | the model is the selected provider's model setting; an unknown name uses LongCat's |
| TaskPlanner.AsyncParams | src/main/java/com/steve/ai/llm/TaskPlanner.java:233-238 | params carry that model, the configured max tokens and temperature, and the system prompt |
| TaskPlanner.FallbackKeepsNamedModel | src/main/java/com/steve/ai/llm/TaskPlanner.java:222-241 | when "ollama" is null and LongCat is used, LongCat is still asked for the Ollama model |
| TaskPlanner.GetAIResponse | src/main/java/com/steve/ai/llm/TaskPlanner.java:172-193 | one or two sends; a second, to LongCat, iff the first answer is null and the name is not "longcat"; the answer is the last send's |
| TaskPlanner.PlanFromResponse | src/main/java/com/steve/ai/llm/TaskPlanner.java:150-169 | a null response is a null plan; a plan comes from the parser; a parser exception gives null |
| TaskPlanner.PlanFromFallbackResponse | src/main/java/com/steve/ai/llm/TaskPlanner.java:246-261 | a null or empty response is a null plan; otherwise the parser's plan, exceptions giving null |
| TaskPlanner.PlanFromAsyncResult | src/main/java/com/steve/ai/llm/TaskPlanner.java:265-291 | a failed future or empty content is a null plan; a plan comes from the parser on non-empty content |
| TaskPlanner.EmptyResponseOnlyParsedBySyncPath | src/main/java/com/steve/ai/llm/TaskPlanner.java:152-155 | planTasks parses an empty response; planTasksAsync's fallback answers it with null |
| TaskPlanner.PlanTasks | src/main/java/com/steve/ai/llm/TaskPlanner.java:141-170 | the lower-cased name selects the first call; the plan is made from the last answer; two null answers give a null plan |
| TaskPlanner.PlanTasksAsync | src/main/java/com/steve/ai/llm/TaskPlanner.java:210-297 | the async route iff some client is non-null, with the selected client and params; otherwise the synchronous path |
| TaskPlanner.RequiredParameters | src/main/java/com/steve/ai/llm/TaskPlanner.java:358-371 | parameters are listed exactly for the eight known actions, never empty |
| TaskPlanner.ValidateTask | src/main/java/com/steve/ai/llm/TaskPlanner.java:355-372 | a null action throws NullPointerException; otherwise valid iff the action is known and a task has that action's parameters |
| TaskPlanner.Filter | src/main/java/com/steve/ai/llm/TaskPlanner.java:375-377 | an order-preserving subsequence, every element kept, and each kept element with its full multiplicity |
| TaskPlanner.FilterTasks | src/main/java/com/steve/ai/llm/TaskPlanner.java:374-378 | the stream throws NullPointerException iff some task's action is null; otherwise it yields exactly `Filter` with the validates-to-true test |
| TaskPlanner.ValidateAndFilterTasks | src/main/java/com/steve/ai/llm/TaskPlanner.java:374-378 | throws NullPointerException iff some task's action is null; otherwise the valid tasks in order, none dropped, each with a known action |

## Left out

- HTTP transport: `HttpClient`, connect timeouts, HTTP/2, serialising the body to text, and measuring latency. A send is an outcome given as input, and `LLMResponse` has no latency field.
- URI and header validation: `URI.create` and `HttpRequest.Builder.header` throw IllegalArgumentException for a URL without a valid scheme or for a header value with an illegal character. This happens before any send. The members below always build the request, so none of them has this error path.
- AsyncOllamaClient.SendAsync: does not model URI validation. A host such as `localhost:11434` makes `sendAsync` throw at once instead of failing its future.
- OllamaClient.SendRequest: does not model URI validation. The same host makes `sendRequest` throw before the retry loop instead of returning null. A null configured host gives the URL `null/api/chat`; `Client` holds a non-null host and cannot express it.
- AsyncDeepSeekClient.SendAsync: does not model header validation. A key holding a character illegal in a header makes the call throw at once.
- AsyncClaudeClient.SendAsync: does not model header validation, as for DeepSeek.
- AsyncIFlowClient.SendAsync: does not model header validation, as for DeepSeek.
- AsyncLongCatClient.SendAsync: does not model header validation, as for DeepSeek.
- ClaudeClient.SendRequest: does not model header validation. Such a key makes `sendRequest` throw before the retry loop.
- IFlowClient.SendRequest: does not model header validation, as for ClaudeClient.
- JSON text: `JsonParser.parseString` is not modelled character by character. A body is either malformed text or a parsed tree.
- Threads: `Thread.sleep` and the thread's interrupt flag are not modelled. Each sleep is an oracle entry saying whether it was interrupted, and the delays are ghost.
- `CompletableFuture` scheduling: a future is the value it completes with. A send exception is `Java(Io)`.
- Floating point: a temperature is passed through unchanged as its value and its text. `Math.pow(2, attempt)` is the integer power for attempts 0 and 1.
- Logging: every log call, including the latency expression in the sync Ollama client's log line.
- Configuration: the `SteveConfig` values are inputs. The range checks live in the Forge library, and some keys the clients read are not declared there.
- Classes not part of this model: `ResilientLLMClient`, `LLMCache`, `LLMFallbackHandler`, `PromptBuilder`, `ResponseParser`, `WorldKnowledge`, `SteveEntity`, `Task`, and the OpenAI, Gemini, Groq and legacy DeepSeek and LongCat clients.
  - Their behaviour is a parameter: a constructor-failure oracle, a parser function, a health test, a task's action (`None` for a null one) and `hasParameters`, and the answers of the legacy clients.
- `LLMException` messages and causes: an exception is modelled as its class, or as error type, provider and retryable flag.
- A params map value of the wrong Java type: the `ClassCastException` from `(String)`, `(int)` or `(double)` casts is not modelled. The params are typed.
- A null user prompt: prompts are non-null strings. A null system prompt is modelled, except on the planner's async path.
- TaskPlanner.PlanTasksAsync: the system prompt and the model are non-null strings. A null one would make `Map.of` throw NullPointerException, which the method's catch turns into a null plan.
- Lang.ToLower: lower-cases ASCII letters only. Java's locale-dependent, full-Unicode `toLowerCase` is not modelled.
- Lang.ParseInt: accepts ASCII digits with an optional sign only. Other Unicode decimal digits are not modelled.
- AsyncDeepSeekClient.ParseResponse: the success rule, like those of the other four async `ParseResponse` members, is stated for token counts that are JSON numbers. `getAsInt` also reads numeric text and one-element arrays; the model computes those, but the rule does not state them.
- Gson.AsString: a number's `getAsString` is the lexeme kept in the tree, not Gson's re-rendering of a lazily parsed number.
- TaskPlanner.PlanFromAsyncResult: a null `LLMResponse` content cannot occur. Every modelled adapter produces a non-null string; null could only come from adapters not part of this model.
- TaskPlanner.NewPlanner: `NoClassDefFoundError` and any exception are one "step fails" oracle. The model does not tell which class is missing.
- `getLLMCache`, every adapter's `getProviderId`, and the `isHealthy` of the DeepSeek, Claude, iFlow and LongCat adapters: each returns a field or a constant (`true` for `isHealthy`). The provider id appears as the `providerId` of every response and exception.
- The no-argument DeepSeek constructor and the legacy clients' constructors: they only read configuration values and pass them on. The configuration values are inputs to `New` and to `Client`.

Where the code differs from its own documentation, the model follows the code:

- **Async Ollama and iFlow exceptions.** Their parsers catch only some exception classes. A `ClassCastException`, an `UnsupportedOperationException` or a `NumberFormatException` escapes raw instead of becoming INVALID_RESPONSE. iFlow also lets a `NullPointerException` escape for missing choices.
- **Legacy Claude and Ollama retries.** When a 200 reply's parser throws an exception it does not catch, the loop's `catch (Exception)` retries the send. A 200 therefore returns at once only when parsing returns.
- **Planner constructor.** It is all-or-nothing only for failures before the wrapping phase. A throwing wrapper leaves the clients wrapped before it set (`TaskPlanner.PartialWrap`).
