/** The backend's language-model router (`llm_router.py`): it lists the two
    providers, picks one by name and hands it the request. */
module LlmRouting {
  import opened Wrappers
  import opened Json
  import opened LlmProviders

  datatype LlmProviderId = OpenAiCompat | Gemini

  function ProviderName(p: LlmProviderId): string {
    match p
    case OpenAiCompat => OpenAiCompatName
    case Gemini => GeminiName
  }

  /** The registry: each provider under its own name. */
  function ProviderByName(name: string): (r: Option<LlmProviderId>)
    ensures r.Some? <==> name == "openai_compat" || name == "gemini"
    ensures r.Some? ==> ProviderName(r.value) == name
  {
    if name == OpenAiCompatName then Some(OpenAiCompat)
    else if name == GeminiName then Some(Gemini)
    else None
  }

  /** Python's string order: code point by code point, a proper prefix
      first. */
  predicate Before(a: string, b: string)
    decreases |a|
  {
    b != [] && (a == [] || a[0] < b[0] || (a[0] == b[0] && Before(a[1..], b[1..])))
  }

  /** `list_providers`: the registry's names, sorted. */
  function ListProviders(): (r: seq<string>)
    ensures forall name :: name in r <==> ProviderByName(name).Some?
    ensures forall i, j :: 0 <= i < j < |r| ==> Before(r[i], r[j])
  {
    ["gemini", "openai_compat"]
  }

  /** The name `_pick_provider` looks up: the request's provider if
      non-empty, else the configuration's `provider` if truthy, else
      "openai_compat"; a choice that is not a non-empty string also becomes
      "openai_compat". */
  function ChosenName(config: Object, reqProvider: Option<string>): (r: string)
    ensures reqProvider.Some? && reqProvider.value != "" ==> r == reqProvider.value
    ensures ((reqProvider.None? || reqProvider.value == "") && PyTruthyOpt(Get(config, "provider"))
             && config["provider"].JStr?) ==> r == config["provider"].s
    ensures ((reqProvider.None? || reqProvider.value == "")
             && !(PyTruthyOpt(Get(config, "provider")) && config["provider"].JStr?)) ==> r == "openai_compat"
  {
    var name: Json :=
      if reqProvider.Some? && reqProvider.value != "" then JStr(reqProvider.value)
      else if PyTruthyOpt(Get(config, "provider")) then config["provider"]
      else JStr("openai_compat");
    if !name.JStr? || name.s == "" then "openai_compat" else name.s
  }

  /** `_pick_provider`: the chosen provider, or ValueError for an unknown
      name. */
  function PickProvider(config: Object, reqProvider: Option<string>): (r: Result<LlmProviderId>)
    ensures r.Ok? <==> ProviderByName(ChosenName(config, reqProvider)).Some?
    ensures r.Ok? ==> ProviderName(r.value) == ChosenName(config, reqProvider)
    ensures r.Err? ==> r == Raise(ValueError, "Unknown LLM provider: " + ChosenName(config, reqProvider))
  {
    var name := ChosenName(config, reqProvider);
    match ProviderByName(name)
    case Some(p) => Ok(p)
    case None => Raise(ValueError, "Unknown LLM provider: " + name)
  }

  /** The provider's own `generate`, with the request it sends (Gemini sends
      none). */
  function ProviderGenerate(p: LlmProviderId, req: GenerateRequest, config: Object, outcome: HttpOutcome)
    : (r: (Option<HttpCall>, Result<GenerateResponse>))
    ensures p == Gemini ==> r == (None, GeminiGenerate(req, config))
    ensures p == OpenAiCompat ==> r == OpenAiGenerate(req, config, outcome)
  {
    match p
    case OpenAiCompat => OpenAiGenerate(req, config, outcome)
    case Gemini => (None, GeminiGenerate(req, config))
  }

  /** `generate`: pick by the request's provider and the configuration, then
      delegate; an unknown provider raises before anything is sent. */
  function Generate(req: GenerateRequest, config: Object, outcome: HttpOutcome)
    : (r: (Option<HttpCall>, Result<GenerateResponse>))
    ensures PickProvider(config, req.provider).Err? ==> r == (None, Err(PickProvider(config, req.provider).error))
    ensures PickProvider(config, req.provider).Ok? ==>
      r == ProviderGenerate(PickProvider(config, req.provider).value, req, config, outcome)
  {
    match PickProvider(config, req.provider)
    case Err(e) => (None, Err(e))
    case Ok(p) => ProviderGenerate(p, req, config, outcome)
  }

  // ------------------------------------------------------------------ lemmas

  /** With no provider named anywhere, the OpenAI-compatible provider is
      used; so is it when the configuration names one by a non-string or an
      empty string. */
  lemma DefaultsToOpenAi(config: Object, reqProvider: Option<string>)
    requires reqProvider.None? || reqProvider.value == ""
    requires "provider" !in config || !config["provider"].JStr? || config["provider"].s == ""
    ensures PickProvider(config, reqProvider) == Ok(OpenAiCompat)
  {
  }

  /** The request's provider wins over the configuration's. */
  lemma RequestWins(config: Object, name: string)
    requires name != ""
    ensures ChosenName(config, Some(name)) == name
    ensures PickProvider(config, Some(name)).Ok? <==> name in ListProviders()
  {
  }

  /** An answer that does not raise always names the provider that was
      picked. */
  lemma AnswerNamesProvider(req: GenerateRequest, config: Object, outcome: HttpOutcome)
    requires Generate(req, config, outcome).1.Ok?
    ensures PickProvider(config, req.provider) == Ok(OpenAiCompat)
    ensures Generate(req, config, outcome).1.value.provider == "openai_compat"
  {
  }

  /** A request goes out only to the OpenAI-compatible provider with a valid
      configuration, and it is the chat completion call built from that
      configuration; every answer that does not raise came through it. */
  lemma SentOnlyWhenValid(req: GenerateRequest, config: Object, outcome: HttpOutcome)
    ensures var (sent, answer) := Generate(req, config, outcome);
      && (sent.Some? <==> PickProvider(config, req.provider) == Ok(OpenAiCompat) && ValidateOpenAi(config).Ok?)
      && (sent.Some? ==> sent.value == OpenAiCall(req, ValidateOpenAi(config).value))
      && (answer.Ok? ==> sent.Some?)
  {
  }
}
