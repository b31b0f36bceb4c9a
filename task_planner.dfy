/** TaskPlanner: how the planner builds its async clients, resolves a
    provider name to a client and a model, falls back to LongCat on the
    synchronous path, turns a missing reply into a null plan, and validates
    the planned tasks. */
module TaskPlanner {
  import opened Lang
  import opened LlmApi
  import AsyncOllamaClient
  import AsyncLongCatClient
  import AsyncIFlowClient
  import AsyncDeepSeekClient

  // ---------------------------------------------------------------------
  // Providers

  /** The seven providers the planner knows. */
  datatype Provider = Ollama | LongCat | IFlow | DeepSeek | OpenAI | Gemini | Groq

  /** The lower-case name each switch matches. */
  function Name(p: Provider): string {
    match p
    case Ollama => "ollama"
    case LongCat => "longcat"
    case IFlow => "iflow"
    case DeepSeek => "deepseek"
    case OpenAI => "openai"
    case Gemini => "gemini"
    case Groq => "groq"
  }

  /** The case label a name matches, if any. */
  function ProviderNamed(name: string): (r: Option<Provider>)
    ensures r.Some? ==> Name(r.value) == name
    ensures r.None? ==> forall p :: Name(p) != name
  {
    match name
    case "ollama" => Some(Ollama)
    case "longcat" => Some(LongCat)
    case "iflow" => Some(IFlow)
    case "deepseek" => Some(DeepSeek)
    case "openai" => Some(OpenAI)
    case "gemini" => Some(Gemini)
    case "groq" => Some(Groq)
    case _ => None
  }

  /** Every provider's name resolves back to it, and a configured name in
      any letter case resolves once lower-cased. */
  lemma NamesResolve(p: Provider, configured: string)
    ensures ProviderNamed(Name(p)) == Some(p)
    ensures ToLower(configured) == Name(p) ==> ProviderNamed(ToLower(configured)) == Some(p)
  {
    match p
    case Ollama =>
    case LongCat =>
    case IFlow =>
    case DeepSeek =>
    case OpenAI =>
    case Gemini =>
    case Groq =>
  }

  /** The provider the switches pick: the named one, or LongCat by default. */
  function Selected(name: string): Provider {
    ProviderNamed(name).GetOr(LongCat)
  }

  /** The order in which the constructor builds and wraps the clients. */
  const CONSTRUCTION_ORDER: seq<Provider> := [Ollama, LongCat, IFlow, DeepSeek, OpenAI, Gemini, Groq]

  /** The order in which getAsyncClient tries the clients when the selected
      one is null. */
  const FALLBACK_ORDER: seq<Provider> := [LongCat, Ollama, IFlow, DeepSeek, OpenAI, Gemini, Groq]

  function ConstructionIndex(p: Provider): (i: nat)
    ensures i < |CONSTRUCTION_ORDER| && CONSTRUCTION_ORDER[i] == p
  {
    match p
    case Ollama => 0
    case LongCat => 1
    case IFlow => 2
    case DeepSeek => 3
    case OpenAI => 4
    case Gemini => 5
    case Groq => 6
  }

  function FallbackIndex(p: Provider): (i: nat)
    ensures i < |FALLBACK_ORDER| && FALLBACK_ORDER[i] == p
  {
    match p
    case LongCat => 0
    case Ollama => 1
    case IFlow => 2
    case DeepSeek => 3
    case OpenAI => 4
    case Gemini => 5
    case Groq => 6
  }

  // ---------------------------------------------------------------------
  // Configuration and construction

  /** The configuration values the planner reads. */
  datatype Settings = Settings(
    ollamaHost: Option<string>, ollamaModel: string,
    longCatKey: Option<string>, longCatModel: string,
    iflowKey: Option<string>, iflowModel: string,
    deepSeekKey: Option<string>, deepSeekModel: string,
    openAIModel: string, geminiModel: string, groqModel: string,
    maxTokens: int, temperature: Temperature)

  /** The XXX_MODEL setting of a provider. */
  function ModelOf(s: Settings, p: Provider): string {
    match p
    case Ollama => s.ollamaModel
    case LongCat => s.longCatModel
    case IFlow => s.iflowModel
    case DeepSeek => s.deepSeekModel
    case OpenAI => s.openAIModel
    case Gemini => s.geminiModel
    case Groq => s.groqModel
  }

  /** The steps inside the constructor's try block whose failure the model
      takes as given: the cache and fallback handler, the configuration
      reads, the base constructors not part of this model, and each
      resilience wrapper. */
  datatype InitStep = NewCache | NewFallbackHandler | ReadSettings | NewBase(provider: Provider) | Wrap(provider: Provider)

  /** Whether building a provider's base async client throws. The Ollama
      constructor never does; LongCat, iFlow and DeepSeek reject a null or
      empty key; the OpenAI, Gemini and Groq constructors are not part of
      this model and are read from the oracle. */
  predicate BaseThrows(s: Settings, fails: InitStep -> bool, p: Provider) {
    match p
    case Ollama => false
    case LongCat => AsyncLongCatClient.New(s.longCatKey, s.longCatModel, s.maxTokens, s.temperature).Thrown?
    case IFlow => AsyncIFlowClient.New(s.iflowKey, s.iflowModel, s.maxTokens, s.temperature).Thrown?
    case DeepSeek => AsyncDeepSeekClient.New(s.deepSeekKey, s.deepSeekModel, s.maxTokens, s.temperature).Thrown?
    case _ => fails(NewBase(p))
  }

  /** A ResilientLLMClient around a provider's base client (its cache,
      breaker and fallback behaviour are not part of this model). */
  datatype AsyncClient = Resilient(provider: Provider)

  /** The planner's async-side fields; None is a null field. */
  datatype Planner = Planner(
    hasCache: bool, hasFallbackHandler: bool,
    ollama: Option<AsyncClient>, longCat: Option<AsyncClient>, iflow: Option<AsyncClient>,
    deepSeek: Option<AsyncClient>, openAI: Option<AsyncClient>, gemini: Option<AsyncClient>,
    groq: Option<AsyncClient>)

  /** The field holding a provider's async client. */
  function ClientOf(pl: Planner, p: Provider): Option<AsyncClient> {
    match p
    case Ollama => pl.ollama
    case LongCat => pl.longCat
    case IFlow => pl.iflow
    case DeepSeek => pl.deepSeek
    case OpenAI => pl.openAI
    case Gemini => pl.gemini
    case Groq => pl.groq
  }

  predicate AllNull(pl: Planner) {
    forall p :: ClientOf(pl, p) == None
  }

  /** Everything before the wrapping phase succeeds. */
  predicate SetupSucceeds(s: Settings, fails: InitStep -> bool) {
    && !fails(NewCache) && !fails(NewFallbackHandler) && !fails(ReadSettings)
    && !BaseThrows(s, fails, Ollama) && !BaseThrows(s, fails, LongCat) && !BaseThrows(s, fails, IFlow)
    && !BaseThrows(s, fails, DeepSeek) && !BaseThrows(s, fails, OpenAI) && !BaseThrows(s, fails, Gemini)
    && !BaseThrows(s, fails, Groq)
  }

  /** A provider's client ends up non-null exactly when the setup succeeded
      and neither its own wrap nor any wrap before it threw. */
  predicate Wrapped(s: Settings, fails: InitStep -> bool, p: Provider) {
    && SetupSucceeds(s, fails)
    && !fails(Wrap(Ollama))
    && (p != Ollama ==> !fails(Wrap(LongCat)))
    && (p !in {Ollama, LongCat} ==> !fails(Wrap(IFlow)))
    && (p !in {Ollama, LongCat, IFlow} ==> !fails(Wrap(DeepSeek)))
    && (p !in {Ollama, LongCat, IFlow, DeepSeek} ==> !fails(Wrap(OpenAI)))
    && (p in {Gemini, Groq} ==> !fails(Wrap(Gemini)))
    && (p == Groq ==> !fails(Wrap(Groq)))
  }

  /** Wrapped, read over the construction order: every wrap up to the
      provider's own position succeeded. */
  lemma WrappedInOrder(s: Settings, fails: InitStep -> bool, p: Provider)
    ensures Wrapped(s, fails, p) <==>
              SetupSucceeds(s, fails)
              && forall j :: 0 <= j <= ConstructionIndex(p) ==> !fails(Wrap(CONSTRUCTION_ORDER[j]))
  {
    if SetupSucceeds(s, fails) && forall j :: 0 <= j <= ConstructionIndex(p) ==> !fails(Wrap(CONSTRUCTION_ORDER[j])) {
      var k := ConstructionIndex(p);
      assert !fails(Wrap(CONSTRUCTION_ORDER[0]));
      if k >= 1 { assert !fails(Wrap(CONSTRUCTION_ORDER[1])); }
      if k >= 2 { assert !fails(Wrap(CONSTRUCTION_ORDER[2])); }
      if k >= 3 { assert !fails(Wrap(CONSTRUCTION_ORDER[3])); }
      if k >= 4 { assert !fails(Wrap(CONSTRUCTION_ORDER[4])); }
      if k >= 5 { assert !fails(Wrap(CONSTRUCTION_ORDER[5])); }
      if k >= 6 { assert !fails(Wrap(CONSTRUCTION_ORDER[6])); }
    }
  }

  function Built(s: Settings, fails: InitStep -> bool, p: Provider): Option<AsyncClient> {
    if Wrapped(s, fails, p) then Some(Resilient(p)) else None
  }

  /** The planner the constructor leaves behind. */
  function Initialized(s: Settings, fails: InitStep -> bool): Planner {
    Planner(!fails(NewCache), !fails(NewCache) && !fails(NewFallbackHandler),
            Built(s, fails, Ollama), Built(s, fails, LongCat), Built(s, fails, IFlow),
            Built(s, fails, DeepSeek), Built(s, fails, OpenAI), Built(s, fails, Gemini),
            Built(s, fails, Groq))
  }

  /** The constructor's async half: the temporaries start null, the try
      block assigns them one by one, and whatever was assigned when a step
      threw is copied into the fields. */
  method NewPlanner(s: Settings, fails: InitStep -> bool) returns (pl: Planner)
    ensures pl == Initialized(s, fails)
    ensures forall p :: ClientOf(pl, p) == Built(s, fails, p)
  {
    var cache, fallback := false, false;
    var ollama, longCat, iflow, deepSeek, openAI, gemini, groq
      : Option<AsyncClient> := None, None, None, None, None, None, None;
    label init: {
      if fails(NewCache) { break init; }
      cache := true;
      if fails(NewFallbackHandler) { break init; }
      fallback := true;
      if fails(ReadSettings) { break init; }
      if BaseThrows(s, fails, Ollama) || BaseThrows(s, fails, LongCat) || BaseThrows(s, fails, IFlow)
         || BaseThrows(s, fails, DeepSeek) || BaseThrows(s, fails, OpenAI) || BaseThrows(s, fails, Gemini)
         || BaseThrows(s, fails, Groq) {
        break init;
      }
      if fails(Wrap(Ollama)) { break init; }
      ollama := Some(Resilient(Ollama));
      if fails(Wrap(LongCat)) { break init; }
      longCat := Some(Resilient(LongCat));
      if fails(Wrap(IFlow)) { break init; }
      iflow := Some(Resilient(IFlow));
      if fails(Wrap(DeepSeek)) { break init; }
      deepSeek := Some(Resilient(DeepSeek));
      if fails(Wrap(OpenAI)) { break init; }
      openAI := Some(Resilient(OpenAI));
      if fails(Wrap(Gemini)) { break init; }
      gemini := Some(Resilient(Gemini));
      if fails(Wrap(Groq)) { break init; }
      groq := Some(Resilient(Groq));
    }
    pl := Planner(cache, fallback, ollama, longCat, iflow, deepSeek, openAI, gemini, groq);
  }

  /** When no wrapper throws, the async clients are all built or all null,
      and all null exactly when some earlier step threw; the cache and
      fallback handler may still be non-null then. */
  lemma AllOrNothing(s: Settings, fails: InitStep -> bool)
    requires forall p :: !fails(Wrap(p))
    ensures var pl := Initialized(s, fails);
            (forall p :: ClientOf(pl, p) == Some(Resilient(p))) || AllNull(pl)
    ensures AllNull(Initialized(s, fails)) <==> !SetupSucceeds(s, fails)
  {
    var pl := Initialized(s, fails);
    if SetupSucceeds(s, fails) {
      forall p ensures ClientOf(pl, p) == Some(Resilient(p)) {
        assert Wrapped(s, fails, p);
      }
      assert ClientOf(pl, Ollama).Some?;
    }
  }

  /** A wrapper that throws leaves the clients wrapped before it non-null:
      with setup done and only the iFlow wrapper throwing, Ollama and
      LongCat are built and the rest stay null. */
  lemma PartialWrap(s: Settings, fails: InitStep -> bool)
    requires SetupSucceeds(s, fails)
    requires !fails(Wrap(Ollama)) && !fails(Wrap(LongCat)) && fails(Wrap(IFlow))
    ensures var pl := Initialized(s, fails);
            && pl.ollama == Some(Resilient(Ollama)) && pl.longCat == Some(Resilient(LongCat))
            && pl.iflow == None && pl.deepSeek == None && pl.openAI == None && pl.gemini == None && pl.groq == None
  {
  }

  /** A missing LongCat key leaves every async client null. */
  lemma MissingLongCatKeyDisablesAsync(s: Settings, fails: InitStep -> bool)
    requires s.longCatKey == None || s.longCatKey.value == ""
    ensures AllNull(Initialized(s, fails))
  {
    assert BaseThrows(s, fails, LongCat);
  }

  // ---------------------------------------------------------------------
  // Client and model selection

  /** The first non-null client in `order`. */
  function FirstAvailable(pl: Planner, order: seq<Provider>): (r: Option<AsyncClient>)
    ensures r.None? <==> forall i :: 0 <= i < |order| ==> ClientOf(pl, order[i]).None?
    ensures r.Some? ==> exists i :: (0 <= i < |order| && r == ClientOf(pl, order[i])
                                     && forall j :: 0 <= j < i ==> ClientOf(pl, order[j]).None?)
  {
    if order == [] then None
    else if ClientOf(pl, order[0]).Some? then ClientOf(pl, order[0])
    else
      var r := FirstAvailable(pl, order[1..]);
      assert forall i :: 1 <= i < |order| ==> order[i] == order[1..][i - 1];
      if r.Some? then
        var k :| 0 <= k < |order[1..]| && r == ClientOf(pl, order[1..][k])
                 && forall j :: 0 <= j < k ==> ClientOf(pl, order[1..][j]).None?;
        assert r == ClientOf(pl, order[k + 1]);
        r
      else r
  }

  /** Every provider is in the fallback list, so it finds nothing only when
      every field is null. */
  lemma FallbackOrderCoversAll(pl: Planner)
    ensures (forall i :: 0 <= i < |FALLBACK_ORDER| ==> ClientOf(pl, FALLBACK_ORDER[i]).None?) <==> AllNull(pl)
  {
    if forall i :: 0 <= i < |FALLBACK_ORDER| ==> ClientOf(pl, FALLBACK_ORDER[i]).None? {
      forall p ensures ClientOf(pl, p) == None {
        assert ClientOf(pl, FALLBACK_ORDER[FallbackIndex(p)]).None?;
      }
    }
  }

  /** getAsyncClient: the named provider's client (LongCat for an unknown
      name), or when that is null the first non-null client in the order
      longcat, ollama, iflow, deepseek, openai, gemini, groq; null only when
      all seven are null. */
  function GetAsyncClient(pl: Planner, name: string): (r: Option<AsyncClient>)
    ensures ClientOf(pl, Selected(name)).Some? ==> r == ClientOf(pl, Selected(name))
    ensures r.None? <==> AllNull(pl)
    ensures ClientOf(pl, Selected(name)).None? && r.Some? ==>
              exists i :: (0 <= i < |FALLBACK_ORDER| && r == ClientOf(pl, FALLBACK_ORDER[i])
                           && forall j :: 0 <= j < i ==> ClientOf(pl, FALLBACK_ORDER[j]).None?)
  {
    var client := ClientOf(pl, Selected(name));
    if client.Some? then client
    else
      FallbackOrderCoversAll(pl);
      FirstAvailable(pl, FALLBACK_ORDER)
  }

  /** With every client built, each name gets its own provider's client. */
  lemma FullPlannerSelectsNamed(pl: Planner, name: string)
    requires forall p :: ClientOf(pl, p) == Some(Resilient(p))
    ensures GetAsyncClient(pl, name) == Some(Resilient(Selected(name)))
  {
    assert ClientOf(pl, Selected(name)) == Some(Resilient(Selected(name)));
  }

  /** isProviderHealthy: getAsyncClient(provider).isHealthy(), a
      NullPointerException when every client is null. The wrapper's health
      test is not part of this model and is a parameter. */
  function IsProviderHealthy(pl: Planner, name: string, isHealthy: AsyncClient -> bool): (r: Try<bool>)
    ensures r.Thrown? <==> AllNull(pl)
    ensures r.Thrown? ==> r.error == Java(NullPointer)
    ensures r.Value? ==> r.value == isHealthy(GetAsyncClient(pl, name).value)
  {
    var client :- Deref(GetAsyncClient(pl, name));
    Value(isHealthy(client))
  }

  /** The model planTasksAsync puts in the params map. */
  function ModelFor(s: Settings, name: string): (model: string)
    ensures model == ModelOf(s, Selected(name))
  {
    match name
    case "ollama" => s.ollamaModel
    case "longcat" => s.longCatModel
    case "iflow" => s.iflowModel
    case "deepseek" => s.deepSeekModel
    case "openai" => s.openAIModel
    case "gemini" => s.geminiModel
    case "groq" => s.groqModel
    case _ => s.longCatModel
  }

  /** The params map of planTasksAsync. */
  function AsyncParams(s: Settings, name: string, systemPrompt: string): (params: Params)
    ensures params.model == Some(ModelOf(s, Selected(name)))
    ensures params.maxTokens == Some(s.maxTokens) && params.temperature == Some(s.temperature)
    ensures params.systemPrompt == Some(systemPrompt)
  {
    Params(Some(ModelFor(s, name)), Some(s.maxTokens), Some(s.temperature), Some(systemPrompt))
  }

  /** The model follows the name, not the client: when the named client is
      null and another one is used, that client is still asked for the named
      provider's model. */
  lemma FallbackKeepsNamedModel(pl: Planner, s: Settings, name: string, systemPrompt: string)
    requires ProviderNamed(name) == Some(Ollama) && pl.ollama == None && pl.longCat.Some?
    ensures GetAsyncClient(pl, name) == pl.longCat
    ensures AsyncParams(s, name, systemPrompt).model == Some(s.ollamaModel)
  {
    assert FALLBACK_ORDER[0] == LongCat;
  }

  // ---------------------------------------------------------------------
  // The synchronous path

  /** getAIResponse: one sendRequest to the selected legacy client; when its
      answer is null and the name is not "longcat", a second one to LongCat.
      `answers` are the successive sendRequest results and `calls` the
      providers asked, in order. */
  method GetAIResponse(name: string, answers: seq<Option<string>>)
    returns (response: Option<string>, calls: seq<Provider>)
    requires |answers| >= 2
    ensures 1 <= |calls| <= 2 && calls[0] == Selected(name)
    ensures |calls| == 2 <==> answers[0] == None && name != "longcat"
    ensures |calls| == 2 ==> calls[1] == LongCat
    ensures response == answers[|calls| - 1]
  {
    response := answers[0];
    calls := [Selected(name)];
    if response == None && name != "longcat" {
      response := answers[1];
      calls := calls + [LongCat];
    }
  }

  /** planTasks after getAIResponse: a null response is a null plan;
      otherwise the parser's plan, and an exception it raises is caught and
      also gives null. The parser is not part of this model. */
  function PlanFromResponse<P>(response: Option<string>, parse: string -> Try<Option<P>>): (plan: Option<P>)
    ensures response.None? ==> plan.None?
    ensures plan.Some? ==> response.Some? && parse(response.value) == Value(plan)
    ensures response.Some? && parse(response.value).Value? ==> plan == parse(response.value).value
  {
    if response.None? then None
    else match parse(response.value)
      case Value(parsed) => parsed
      case Thrown(_) => None
  }

  /** planTasksAsync's synchronous fallback: a null or empty response is a
      null plan, and exceptions complete the future with null. */
  function PlanFromFallbackResponse<P>(response: Option<string>, parse: string -> Try<Option<P>>): (plan: Option<P>)
    ensures response.None? || response == Some("") ==> plan.None?
    ensures plan.Some? ==> response.Some? && response.value != "" && parse(response.value) == Value(plan)
    ensures response.Some? && response.value != "" && parse(response.value).Value? ==> plan == parse(response.value).value
  {
    if response.None? || response.value == "" then None
    else match parse(response.value)
      case Value(parsed) => parsed
      case Thrown(_) => None
  }

  /** planTasksAsync's thenApply and exceptionally stages: a failed future,
      or an empty content, is a null plan; otherwise the parser's plan, with
      its exceptions answered by null. */
  function PlanFromAsyncResult<P>(result: Try<LLMResponse>, parse: string -> Try<Option<P>>): (plan: Option<P>)
    ensures result.Thrown? ==> plan.None?
    ensures result.Value? && result.value.content == "" ==> plan.None?
    ensures plan.Some? ==> result.Value? && result.value.content != "" && parse(result.value.content) == Value(plan)
  {
    if result.Thrown? || result.value.content == "" then None
    else match parse(result.value.content)
      case Value(parsed) => parsed
      case Thrown(_) => None
  }

  /** The two synchronous paths disagree on an empty response: planTasks
      hands it to the parser, planTasksAsync's fallback does not. */
  lemma EmptyResponseOnlyParsedBySyncPath<P>(parse: string -> Try<Option<P>>, plan: P)
    requires parse("") == Value(Some(plan))
    ensures PlanFromResponse(Some(""), parse) == Some(plan)
    ensures PlanFromFallbackResponse(Some(""), parse) == None
  {
  }

  /** planTasks: the configured name lower-cased, getAIResponse, then the
      plan from its response. */
  method PlanTasks<P>(configured: string, answers: seq<Option<string>>, parse: string -> Try<Option<P>>)
    returns (plan: Option<P>, calls: seq<Provider>)
    requires |answers| >= 2
    ensures 1 <= |calls| <= 2 && calls[0] == Selected(ToLower(configured))
    ensures plan == PlanFromResponse(answers[|calls| - 1], parse)
    ensures answers[0] == None && answers[1] == None ==> plan == None
  {
    var provider := ToLower(configured);
    var response;
    response, calls := GetAIResponse(provider, answers);
    plan := PlanFromResponse(response, parse);
  }

  /** How planTasksAsync is served: by an async client with the params
      map, or, with no async client at all, by the synchronous path. */
  datatype Route = AsyncRoute(client: AsyncClient, params: Params) | SyncRoute(calls: seq<Provider>)

  /** planTasksAsync: the configured name lower-cased; the selected async
      client sent the prompt with the per-provider params, or when every
      async client is null, getAIResponse on the synchronous clients.
      `asyncResult` is the sent future's outcome and `answers` the
      synchronous clients' results. */
  method PlanTasksAsync<P>(pl: Planner, s: Settings, configured: string, systemPrompt: string,
                           asyncResult: Try<LLMResponse>, answers: seq<Option<string>>,
                           parse: string -> Try<Option<P>>)
    returns (route: Route, plan: Option<P>)
    requires |answers| >= 2
    ensures route.AsyncRoute? <==> !AllNull(pl)
    ensures route.AsyncRoute? ==>
              && Some(route.client) == GetAsyncClient(pl, ToLower(configured))
              && route.params == AsyncParams(s, ToLower(configured), systemPrompt)
              && plan == PlanFromAsyncResult(asyncResult, parse)
    ensures route.SyncRoute? ==>
              && 1 <= |route.calls| <= 2 && route.calls[0] == Selected(ToLower(configured))
              && plan == PlanFromFallbackResponse(answers[|route.calls| - 1], parse)
  {
    var provider := ToLower(configured);
    var params := AsyncParams(s, provider, systemPrompt);
    var client := GetAsyncClient(pl, provider);
    if client == None {
      var response, calls := GetAIResponse(provider, answers);
      route := SyncRoute(calls);
      plan := PlanFromFallbackResponse(response, parse);
      return;
    }
    route := AsyncRoute(client.value, params);
    plan := PlanFromAsyncResult(asyncResult, parse);
  }

  // ---------------------------------------------------------------------
  // Task validation

  /** The actions validateTask knows. */
  const KNOWN_ACTIONS: set<string> := {"pathfind", "mine", "place", "craft", "attack", "follow", "gather", "build"}

  /** The parameters each known action needs: the lists in validateTask's
      switch, kept in this one table. */
  function RequiredParameters(action: string): (r: Option<seq<string>>)
    ensures r.Some? <==> action in KNOWN_ACTIONS
    ensures r.Some? ==> |r.value| > 0
  {
    match action
    case "pathfind" => Some(["x", "y", "z"])
    case "mine" => Some(["block", "quantity"])
    case "place" => Some(["block", "x", "y", "z"])
    case "craft" => Some(["item", "quantity"])
    case "attack" => Some(["target"])
    case "follow" => Some(["player"])
    case "gather" => Some(["resource", "quantity"])
    case "build" => Some(["structure", "blocks", "dimensions"])
    case _ => None
  }

  /** validateTask. A task's action and its hasParameters test belong to the
      Task class, which is not part of this model, and are parameters; the
      action is a Java String, so it may be null, and switching on a null
      String throws NullPointerException. */
  function ValidateTask<T>(task: T, actionOf: T -> Option<string>, hasParameters: (T, seq<string>) -> bool)
    : (r: Try<bool>)
    ensures actionOf(task) == None ==> r == Thrown(Java(NullPointer))
    ensures actionOf(task).Some? ==>
              r.Value? && (r.value <==> (actionOf(task).value in KNOWN_ACTIONS
                                         && hasParameters(task, RequiredParameters(actionOf(task).value).value)))
  {
    var action :- Deref(actionOf(task));
    match RequiredParameters(action)
    case Some(parameters) => Value(hasParameters(task, parameters))
    case None => Value(false)
  }

  /** `a` is `b` with some elements removed, order kept. */
  ghost predicate IsSubsequence<T>(a: seq<T>, b: seq<T>)
    decreases |b|
  {
    if a == [] then true
    else if b == [] then false
    else (a[0] == b[0] && IsSubsequence(a[1..], b[1..])) || IsSubsequence(a, b[1..])
  }

  /** stream().filter(keep).toList(). */
  function Filter<T(==)>(xs: seq<T>, keep: T -> bool): (r: seq<T>)
    ensures IsSubsequence(r, xs)
    ensures forall i :: 0 <= i < |r| ==> keep(r[i])
    ensures multiset(r) <= multiset(xs)
    ensures forall x :: x in xs && keep(x) ==> multiset(r)[x] == multiset(xs)[x]
  {
    if xs == [] then []
    else
      var rest := Filter(xs[1..], keep);
      assert xs == [xs[0]] + xs[1..];
      if keep(xs[0]) then
        assert ([xs[0]] + rest)[1..] == rest;
        [xs[0]] + rest
      else rest
  }

  /** The filter's predicate: the task validates without throwing. */
  function Validates<T>(actionOf: T -> Option<string>, hasParameters: (T, seq<string>) -> bool): T -> bool {
    t => ValidateTask(t, actionOf, hasParameters) == Value(true)
  }

  /** The stream's walk: each task is tested in order, the first exception
      ends the walk, and the tasks that pass are collected in order. */
  function FilterTasks<T(==)>(tasks: seq<T>, actionOf: T -> Option<string>,
                              hasParameters: (T, seq<string>) -> bool): (r: Try<seq<T>>)
    ensures r.Thrown? <==> exists i :: 0 <= i < |tasks| && actionOf(tasks[i]) == None
    ensures r.Thrown? ==> r.error == Java(NullPointer)
    ensures r.Value? ==> r.value == Filter(tasks, Validates(actionOf, hasParameters))
  {
    if tasks == [] then Value([])
    else
      var keep :- ValidateTask(tasks[0], actionOf, hasParameters);
      var rest :- FilterTasks(tasks[1..], actionOf, hasParameters);
      Value(if keep then [tasks[0]] + rest else rest)
  }

  /** validateAndFilterTasks: stream().filter(this::validateTask).toList().
      A task with a null action anywhere makes the whole call throw;
      otherwise the result is every task that validates, in the input order,
      none dropped, each with a known action. */
  function ValidateAndFilterTasks<T(==)>(tasks: seq<T>, actionOf: T -> Option<string>,
                                         hasParameters: (T, seq<string>) -> bool): (r: Try<seq<T>>)
    ensures r.Thrown? <==> exists i :: 0 <= i < |tasks| && actionOf(tasks[i]) == None
    ensures r.Thrown? ==> r.error == Java(NullPointer)
    ensures r.Value? ==> IsSubsequence(r.value, tasks)
    ensures r.Value? ==> forall i :: 0 <= i < |r.value| ==> ValidateTask(r.value[i], actionOf, hasParameters) == Value(true)
    ensures r.Value? ==> multiset(r.value) <= multiset(tasks)
    ensures r.Value? ==> forall t :: t in tasks && ValidateTask(t, actionOf, hasParameters) == Value(true)
                                     ==> multiset(r.value)[t] == multiset(tasks)[t]
    ensures r.Value? ==> forall t :: t in r.value ==> actionOf(t).Some? && actionOf(t).value in KNOWN_ACTIONS
  {
    FilterTasks(tasks, actionOf, hasParameters)
  }
}
