/** How the five async adapters' status rules compare. Each adapter carries
    its own copy of the error-type switch and of the retryable test; these
    lemmas state where the copies agree and where they part. */
module ProviderRules {
  import opened Lang
  import opened Gson
  import opened LlmApi
  import AsyncClaudeClient
  import AsyncDeepSeekClient
  import AsyncOllamaClient
  import AsyncIFlowClient
  import AsyncLongCatClient

  /** Claude's extra 529 case is already covered by its "from 500 up" rule:
      Claude and DeepSeek fail every non-200 status alike. */
  lemma ClaudeFailsLikeDeepSeek(claude: AsyncClaudeClient.Client, deepSeek: AsyncDeepSeekClient.Client, code: int, body: Body)
    requires code != 200
    ensures var a := AsyncClaudeClient.Complete(claude, Status(code, body));
            var b := AsyncDeepSeekClient.Complete(deepSeek, Status(code, body));
            a.error.errorType == b.error.errorType && a.error.retryable == b.error.retryable
  {
  }

  /** A 429 is a retryable RATE_LIMIT for DeepSeek, Claude and iFlow, but
      LongCat marks it not retryable and Ollama calls it a client error. */
  lemma RateLimitRetryability(claude: AsyncClaudeClient.Client, deepSeek: AsyncDeepSeekClient.Client,
                              ollama: AsyncOllamaClient.Client, iflow: AsyncIFlowClient.Client,
                              longCat: AsyncLongCatClient.Client, params: Params, body: Body)
    ensures AsyncClaudeClient.Complete(claude, Status(429, body)).error == Llm(RATE_LIMIT, "claude", true)
    ensures AsyncDeepSeekClient.Complete(deepSeek, Status(429, body)).error == Llm(RATE_LIMIT, "deepseek", true)
    ensures AsyncIFlowClient.Complete(iflow, params, Status(429, body)).error == Llm(RATE_LIMIT, "iflow", true)
    ensures AsyncLongCatClient.Complete(longCat, Status(429, body)).error == Llm(RATE_LIMIT, "longcat", false)
    ensures AsyncOllamaClient.Complete(ollama, params, Status(429, body)).error == Llm(CLIENT_ERROR, "ollama", false)
  {
  }

  /** Ollama and iFlow classify a 5xx status other than 500, 502, 503 and
      504 as a client error, yet mark it retryable; the other three call it
      a server error. */
  lemma OddServerStatusRetriedAsClientError(ollama: AsyncOllamaClient.Client, iflow: AsyncIFlowClient.Client,
                                            longCat: AsyncLongCatClient.Client, params: Params, code: int, body: Body)
    requires 500 <= code <= 599 && code !in {500, 502, 503, 504}
    ensures AsyncOllamaClient.Complete(ollama, params, Status(code, body)).error == Llm(CLIENT_ERROR, "ollama", true)
    ensures AsyncIFlowClient.Complete(iflow, params, Status(code, body)).error == Llm(CLIENT_ERROR, "iflow", true)
    ensures AsyncLongCatClient.Complete(longCat, Status(code, body)).error == Llm(SERVER_ERROR, "longcat", true)
  {
  }

  /** Only DeepSeek and Claude know a TIMEOUT status (408), and none of the
      five retries it. */
  lemma RequestTimeoutNeverRetried(claude: AsyncClaudeClient.Client, deepSeek: AsyncDeepSeekClient.Client,
                                   ollama: AsyncOllamaClient.Client, iflow: AsyncIFlowClient.Client,
                                   longCat: AsyncLongCatClient.Client, params: Params, body: Body)
    ensures AsyncClaudeClient.Complete(claude, Status(408, body)).error == Llm(TIMEOUT, "claude", false)
    ensures AsyncDeepSeekClient.Complete(deepSeek, Status(408, body)).error == Llm(TIMEOUT, "deepseek", false)
    ensures AsyncIFlowClient.Complete(iflow, params, Status(408, body)).error == Llm(CLIENT_ERROR, "iflow", false)
    ensures AsyncLongCatClient.Complete(longCat, Status(408, body)).error == Llm(CLIENT_ERROR, "longcat", false)
    ensures AsyncOllamaClient.Complete(ollama, params, Status(408, body)).error == Llm(CLIENT_ERROR, "ollama", false)
  {
  }

  /** Across all five adapters an authentication failure is never retried. */
  lemma AuthFailuresNeverRetried(claude: AsyncClaudeClient.Client, deepSeek: AsyncDeepSeekClient.Client,
                                 ollama: AsyncOllamaClient.Client, iflow: AsyncIFlowClient.Client,
                                 longCat: AsyncLongCatClient.Client, params: Params, code: int, body: Body)
    requires code == 401 || code == 403
    ensures !AsyncClaudeClient.Complete(claude, Status(code, body)).error.retryable
    ensures !AsyncDeepSeekClient.Complete(deepSeek, Status(code, body)).error.retryable
    ensures !AsyncOllamaClient.Complete(ollama, params, Status(code, body)).error.retryable
    ensures !AsyncIFlowClient.Complete(iflow, params, Status(code, body)).error.retryable
    ensures !AsyncLongCatClient.Complete(longCat, Status(code, body)).error.retryable
  {
  }
}
