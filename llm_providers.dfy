/** The backend's language-model providers: the OpenAI-compatible one
    (`openai_compat.py`), which validates its configuration, builds a chat
    completion request and extracts the reply, and the Gemini skeleton
    (`gemini.py`), which only validates. The HTTP exchange is an input: the
    provider is given what the server answered. */
module LlmProviders {
  import opened Wrappers
  import opened Json
  import opened Text

  datatype LlmMessage = LlmMessage(role: string, content: string)

  /** `LLMGenerateRequest`; the temperature is passed through untouched, so it
      is kept as the JSON value the request carried. */
  datatype GenerateRequest = GenerateRequest(messages: seq<LlmMessage>, temperature: Json, maxTokens: int,
                                             provider: Option<string>, extra: Option<Object>)

  /** `LLMGenerateResponse`. */
  datatype GenerateResponse = GenerateResponse(text: Json, provider: string, model: Option<string>, usage: Json)

  /** What the provider hands to the HTTP client. */
  datatype HttpCall = HttpCall(url: string, payload: Object, authorization: string, timeoutS: real)

  /** What the HTTP client gives back: a failed status or transport error
      (raised unchanged), or the decoded body. */
  datatype HttpOutcome = HttpFailed(error: Error) | HttpBody(data: Json)

  // ------------------------------------------------------------ openai_compat

  const OpenAiCompatName := "openai_compat"

  /** A string starting with "http://" or "https://", in that letter case. */
  predicate IsHttpString(v: Json) {
    v.JStr? && (StartsWith(v.s, "http://") || StartsWith(v.s, "https://"))
  }

  predicate NonEmptyString(v: Json) {
    v.JStr? && v.s != ""
  }

  /** `isinstance(v, (int, float)) and v > 0`. */
  predicate PositiveNumber(v: Json) {
    (IsPyInt(v) || v.JFloat?) && NumberValue(v) > 0.0
  }

  /** The validated configuration: base URL without trailing slashes, key,
      model and timeout in seconds. */
  datatype OpenAiConfig = OpenAiConfig(baseUrl: string, apiKey: string, model: string, timeoutS: real)

  /** `timeout_s`, defaulting to 30 only when the key is absent. */
  function TimeoutValue(config: Object): Json {
    if "timeout_s" in config then config["timeout_s"] else JInt(30)
  }

  /** `_validate`: `base_url`, then `api_key`, then `model`, then
      `timeout_s`; the first failure raises its ValueError. */
  function ValidateOpenAi(config: Object): (r: Result<OpenAiConfig>)
    ensures r.Ok? <==> IsHttpString(PyGet(config, "base_url")) && NonEmptyString(PyGet(config, "api_key"))
                       && NonEmptyString(PyGet(config, "model")) && PositiveNumber(TimeoutValue(config))
    ensures !IsHttpString(PyGet(config, "base_url")) ==>
      r == Raise(ValueError, "openai_compat requires config.base_url as http(s) URL")
    ensures IsHttpString(PyGet(config, "base_url")) && !NonEmptyString(PyGet(config, "api_key")) ==>
      r == Raise(ValueError, "openai_compat requires config.api_key")
    ensures IsHttpString(PyGet(config, "base_url")) && NonEmptyString(PyGet(config, "api_key"))
            && !NonEmptyString(PyGet(config, "model")) ==>
      r == Raise(ValueError, "openai_compat requires config.model")
    ensures IsHttpString(PyGet(config, "base_url")) && NonEmptyString(PyGet(config, "api_key"))
            && NonEmptyString(PyGet(config, "model")) && !PositiveNumber(TimeoutValue(config)) ==>
      r == Raise(ValueError, "openai_compat config.timeout_s must be > 0")
    ensures r.Ok? ==>
      && r.value.baseUrl == StripTrailingSlashes(PyGet(config, "base_url").s)
      && r.value.apiKey == PyGet(config, "api_key").s
      && r.value.model == PyGet(config, "model").s
      && r.value.timeoutS == NumberValue(TimeoutValue(config)) && r.value.timeoutS > 0.0
  {
    var baseUrl := PyGet(config, "base_url");
    var apiKey := PyGet(config, "api_key");
    var model := PyGet(config, "model");
    var timeout := TimeoutValue(config);
    if !baseUrl.JStr? || !(StartsWith(baseUrl.s, "http://") || StartsWith(baseUrl.s, "https://")) then
      Raise(ValueError, "openai_compat requires config.base_url as http(s) URL")
    else if !apiKey.JStr? || apiKey.s == "" then
      Raise(ValueError, "openai_compat requires config.api_key")
    else if !model.JStr? || model.s == "" then
      Raise(ValueError, "openai_compat requires config.model")
    else if !(IsPyInt(timeout) || timeout.JFloat?) || NumberValue(timeout) <= 0.0 then
      Raise(ValueError, "openai_compat config.timeout_s must be > 0")
    else
      Ok(OpenAiConfig(StripTrailingSlashes(baseUrl.s), apiKey.s, model.s, NumberValue(timeout)))
  }

  function MessageJson(m: LlmMessage): Json {
    JObj(map["role" := JStr(m.role), "content" := JStr(m.content)])
  }

  function MessagesJson(ms: seq<LlmMessage>): (r: seq<Json>)
    ensures |r| == |ms|
    ensures forall k :: 0 <= k < |ms| ==> r[k] == MessageJson(ms[k])
    decreases |ms|
  {
    if ms == [] then [] else [MessageJson(ms[0])] + MessagesJson(ms[1..])
  }

  /** The payload: model, messages, temperature and token limit, then every
      key of a non-empty `extra`, which wins over the built ones. */
  function OpenAiPayload(req: GenerateRequest, model: string): (r: Object)
    ensures req.extra.Some? ==> forall k :: k in req.extra.value ==> k in r && r[k] == req.extra.value[k]
    ensures forall k :: k in r ==> k in {"model", "messages", "temperature", "max_tokens"} || (req.extra.Some? && k in req.extra.value)
    ensures {"model", "messages", "temperature", "max_tokens"} <= r.Keys
    ensures "model" !in req.extra.GetOr(map[]) ==> r["model"] == JStr(model)
    ensures "messages" !in req.extra.GetOr(map[]) ==> r["messages"] == JArr(MessagesJson(req.messages))
    ensures "temperature" !in req.extra.GetOr(map[]) ==> r["temperature"] == req.temperature
    ensures "max_tokens" !in req.extra.GetOr(map[]) ==> r["max_tokens"] == JInt(req.maxTokens)
  {
    var built := map["model" := JStr(model), "messages" := JArr(MessagesJson(req.messages)),
                     "temperature" := req.temperature, "max_tokens" := JInt(req.maxTokens)];
    if req.extra.Some? && req.extra.value != map[] then built + req.extra.value else built
  }

  /** The request `generate` sends once the configuration is valid. */
  function OpenAiCall(req: GenerateRequest, cfg: OpenAiConfig): (r: HttpCall)
    ensures r.url == cfg.baseUrl + "/chat/completions"
    ensures r.authorization == "Bearer " + cfg.apiKey && r.timeoutS == cfg.timeoutS
    ensures r.payload == OpenAiPayload(req, cfg.model)
  {
    HttpCall(cfg.baseUrl + "/chat/completions", OpenAiPayload(req, cfg.model), "Bearer " + cfg.apiKey, cfg.timeoutS)
  }

  /** `data["choices"][0]["message"]["content"]`, or `None` when any step
      would raise. Indexing a string takes its first character, which is not
      an object, so only a non-empty list of choices gets further. */
  function ReplyContent(data: Json): (r: Option<Json>)
    ensures r.Some? <==>
      data.JObj? && "choices" in data.fields && data.fields["choices"].JArr? && |data.fields["choices"].items| > 0
      && data.fields["choices"].items[0].JObj? && "message" in data.fields["choices"].items[0].fields
      && data.fields["choices"].items[0].fields["message"].JObj?
      && "content" in data.fields["choices"].items[0].fields["message"].fields
    ensures r.Some? ==> r.value == data.fields["choices"].items[0].fields["message"].fields["content"]
  {
    if !data.JObj? || "choices" !in data.fields then None
    else
      var choices := data.fields["choices"];
      if !choices.JArr? || choices.items == [] || !choices.items[0].JObj? then None
      else
        var first := choices.items[0].fields;
        if "message" !in first || !first["message"].JObj? || "content" !in first["message"].fields then None
        else Some(first["message"].fields["content"])
  }

  /** The reply: its content when present and truthy, with the usage field;
      otherwise a ValueError. */
  function OpenAiReply(model: string, outcome: HttpOutcome): (r: Result<GenerateResponse>)
    ensures outcome.HttpFailed? ==> r == Err(outcome.error)
    ensures outcome.HttpBody? ==>
      (r.Ok? <==> PyTruthyOpt(ReplyContent(outcome.data)))
    ensures outcome.HttpBody? && !PyTruthyOpt(ReplyContent(outcome.data)) ==>
      r == Raise(ValueError, "openai_compat: invalid response format (missing choices[0].message.content)")
    ensures r.Ok? ==> r.value.text == ReplyContent(outcome.data).value && PyTruthy(r.value.text)
                      && r.value.provider == OpenAiCompatName && r.value.model == Some(model)
  {
    match outcome
    case HttpFailed(e) => Err(e)
    case HttpBody(data) =>
      var text := ReplyContent(data);
      if !PyTruthyOpt(text) then
        Raise(ValueError, "openai_compat: invalid response format (missing choices[0].message.content)")
      else
        Ok(GenerateResponse(text.value, OpenAiCompatName, Some(model), PyGet(data.fields, "usage")))
  }

  /** `generate`: validate, send, extract. The result pairs the request sent,
      if any, with the answer; the outcome is consulted only when a request is
      sent, and one is sent exactly when the configuration is valid. */
  function OpenAiGenerate(req: GenerateRequest, config: Object, outcome: HttpOutcome)
    : (r: (Option<HttpCall>, Result<GenerateResponse>))
    ensures r.0.Some? <==> ValidateOpenAi(config).Ok?
    ensures ValidateOpenAi(config).Err? ==> r.1 == Err(ValidateOpenAi(config).error)
    ensures ValidateOpenAi(config).Ok? ==>
      && r.0.value == OpenAiCall(req, ValidateOpenAi(config).value)
      && r.1 == OpenAiReply(ValidateOpenAi(config).value.model, outcome)
  {
    match ValidateOpenAi(config)
    case Err(e) => (None, Err(e))
    case Ok(cfg) => (Some(OpenAiCall(req, cfg)), OpenAiReply(cfg.model, outcome))
  }

  // ------------------------------------------------------------------- gemini

  const GeminiName := "gemini"

  /** `_validate`: `api_key` and then `model` must each be absent, null or a
      string. */
  function ValidateGemini(config: Object): (r: Result<()>)
    ensures r.Ok? <==> (PyGet(config, "api_key").JNull? || PyGet(config, "api_key").JStr?)
                       && (PyGet(config, "model").JNull? || PyGet(config, "model").JStr?)
    ensures !(PyGet(config, "api_key").JNull? || PyGet(config, "api_key").JStr?) ==>
      r == Raise(ValueError, "gemini config.api_key must be string if provided")
  {
    var apiKey := PyGet(config, "api_key");
    var model := PyGet(config, "model");
    if !apiKey.JNull? && !apiKey.JStr? then Raise(ValueError, "gemini config.api_key must be string if provided")
    else if !model.JNull? && !model.JStr? then Raise(ValueError, "gemini config.model must be string if provided")
    else Ok(())
  }

  /** `generate`: validate, then raise NotImplementedError. */
  function GeminiGenerate(req: GenerateRequest, config: Object): (r: Result<GenerateResponse>)
    ensures r.Err?
    ensures r.error.kind == NotImplementedError <==> ValidateGemini(config).Ok?
    ensures ValidateGemini(config).Err? ==> r.error == ValidateGemini(config).error
  {
    match ValidateGemini(config)
    case Err(e) => Err(e)
    case Ok(_) => Raise(NotImplementedError, "gemini provider not implemented yet")
  }

  // ------------------------------------------------------------------ lemmas

  /** The returned base URL never ends in a slash, so the request URL has
      exactly one slash before `chat/completions`. */
  lemma OpenAiUrlShape(req: GenerateRequest, config: Object)
    requires ValidateOpenAi(config).Ok?
    ensures var u := OpenAiCall(req, ValidateOpenAi(config).value).url;
      var b := ValidateOpenAi(config).value.baseUrl;
      u == b + "/chat/completions" && (b == [] || b[|b| - 1] != '/')
  {
  }

  /** A missing timeout is 30 seconds; a null, zero, negative or non-numeric
      one is refused. */
  lemma OpenAiTimeoutDefault(config: Object)
    requires IsHttpString(PyGet(config, "base_url")) && NonEmptyString(PyGet(config, "api_key"))
             && NonEmptyString(PyGet(config, "model"))
    ensures "timeout_s" !in config ==> ValidateOpenAi(config).Ok? && ValidateOpenAi(config).value.timeoutS == 30.0
    ensures "timeout_s" in config && config["timeout_s"] == JNull ==>
      ValidateOpenAi(config) == Raise(ValueError, "openai_compat config.timeout_s must be > 0")
  {
  }

  /** An `extra` key overrides the built payload: `extra = {"model": m}`
      sends `m` as the model, whatever the configuration named. */
  lemma ExtraOverrides(req: GenerateRequest, model: string, m: Json)
    requires req.extra == Some(map["model" := m])
    ensures OpenAiPayload(req, model)["model"] == m
  {
  }

  /** An empty configuration passes Gemini's validation, so `generate` always
      ends in NotImplementedError for it. */
  lemma GeminiEmptyConfig(req: GenerateRequest)
    ensures ValidateGemini(map[]).Ok?
    ensures GeminiGenerate(req, map[]) == Raise(NotImplementedError, "gemini provider not implemented yet")
  {
  }

  /** A reply whose content is the empty string is refused like a missing
      one. */
  lemma EmptyContentRefused(model: string)
    ensures var data := JObj(map["choices" := JArr([JObj(map["message" := JObj(map["content" := JStr("")])])])]);
      OpenAiReply(model, HttpBody(data)).Err?
  {
  }
}
