/** The desktop's HTTP clients (`llm.client.ts`, `providers.client.ts`): the
    request each one builds. The request itself, and its timeout, are left to
    the HTTP layer; here a request is the value handed to it. */
module HttpClients {
  import opened Wrappers
  import opened Json
  import opened Text

  /** The backend the clients use when no base URL is configured. */
  const DefaultApiBase: string := "http://127.0.0.1:8000"

  datatype Verb = GET | POST

  /** A request as handed to the HTTP layer, with the client's timeout. */
  datatype Request = Request(verb: Verb, url: string, body: Option<Object>, timeoutMs: int)

  /** The base every client builds on: the configured URL, or the default one
      when it is empty, without trailing slashes. */
  function ApiBase(configured: string): (r: string)
    ensures configured == "" ==> r == DefaultApiBase
    ensures configured != "" ==> |r| <= |configured| && r == configured[..|r|] && forall k :: |r| <= k < |configured| ==> configured[k] == '/'
    ensures r == [] || r[|r| - 1] != '/'
  {
    StripTrailingSlashes(if configured == "" then DefaultApiBase else configured)
  }

  /** The keys `generate` sends. */
  const GenerateKeys: set<string> := {"messages", "temperature", "max_tokens", "provider", "config", "extra"}

  /** The payload `generate` sends: `messages` as given (dropped from the JSON
      when absent), and each optional field as given or, when null or absent,
      its default (temperature 0.7, 256 tokens, no provider, an empty
      configuration, no extra). Other keys of the caller's payload are not
      sent. */
  function SafePayload(payload: Object): (r: Object)
    ensures r.Keys == GenerateKeys || r.Keys == GenerateKeys - {"messages"}
    ensures "messages" in r <==> "messages" in payload
    ensures "messages" in payload ==> r["messages"] == payload["messages"]
    ensures r["temperature"] == Coalesce(Get(payload, "temperature"), JFloat(7, 1))
    ensures r["max_tokens"] == Coalesce(Get(payload, "max_tokens"), JInt(256))
    ensures r["provider"] == Coalesce(Get(payload, "provider"), JNull)
    ensures r["config"] == Coalesce(Get(payload, "config"), JObj(map[]))
    ensures r["extra"] == Coalesce(Get(payload, "extra"), JNull)
  {
    var fields := map["temperature" := Coalesce(Get(payload, "temperature"), JFloat(7, 1)),
                      "max_tokens" := Coalesce(Get(payload, "max_tokens"), JInt(256)),
                      "provider" := Coalesce(Get(payload, "provider"), JNull),
                      "config" := Coalesce(Get(payload, "config"), JObj(map[])),
                      "extra" := Coalesce(Get(payload, "extra"), JNull)];
    if "messages" in payload then fields["messages" := payload["messages"]] else fields
  }

  /** `LlmClient.generate`: POST to `/llm/generate`, with a 15-second timeout. */
  function Generate(configured: string, payload: Object): (r: Request)
    ensures r.verb == POST && r.timeoutMs == 15000
    ensures r.url == ApiBase(configured) + "/llm/generate"
    ensures r.body == Some(SafePayload(payload))
  {
    Request(POST, ApiBase(configured) + "/llm/generate", Some(SafePayload(payload)), 15000)
  }

  /** `ProvidersClient.listSttProviders`: GET `/providers/stt`, 8 seconds. */
  function ListSttProviders(configured: string): (r: Request)
    ensures r.verb == GET && r.body == None && r.timeoutMs == 8000
    ensures r.url == ApiBase(configured) + "/providers/stt"
  {
    Request(GET, ApiBase(configured) + "/providers/stt", None, 8000)
  }

  /** `ProvidersClient.listLlmProviders`: GET `/providers/llm`, 8 seconds. */
  function ListLlmProviders(configured: string): (r: Request)
    ensures r.verb == GET && r.body == None && r.timeoutMs == 8000
    ensures r.url == ApiBase(configured) + "/providers/llm"
  {
    Request(GET, ApiBase(configured) + "/providers/llm", None, 8000)
  }

  // ------------------------------------------------------------------ lemmas

  /** The base is idempotent: a base already built is its own base, so a
      configured URL with or without trailing slashes reaches the same
      endpoints. */
  lemma ApiBaseIdempotent(configured: string)
    ensures ApiBase(configured) != "" ==> ApiBase(ApiBase(configured)) == ApiBase(configured)
    ensures configured != "" && ApiBase(configured + "/") != "" ==> ApiBase(configured + "/") == ApiBase(configured)
  {
    var b := ApiBase(configured);
    if b != "" {
      assert StripTrailing(b, '/') == b;
    }
    var c := configured + "/";
    if configured != "" {
      assert c[..|c| - 1] == configured;
      assert StripTrailing(c, '/') == StripTrailing(configured, '/');
    }
  }

  /** With no configured URL every client reaches the local backend. */
  lemma DefaultEndpoints()
    ensures Generate("", map[]).url == DefaultApiBase + "/llm/generate"
    ensures ListSttProviders("").url == DefaultApiBase + "/providers/stt"
    ensures ListLlmProviders("").url == DefaultApiBase + "/providers/llm"
  {
    assert DefaultApiBase[|DefaultApiBase| - 1] == '0';
    StripSlashesTo(DefaultApiBase, |DefaultApiBase|);
    assert DefaultApiBase[..|DefaultApiBase|] == DefaultApiBase;
  }

  /** Values the caller supplies are kept even when falsy, such as a
      temperature of 0 or zero tokens; only null or absent ones take their
      default. */
  lemma SuppliedKept(payload: Object, key: string)
    requires key in GenerateKeys - {"messages"} && key in payload && payload[key] != JNull
    ensures SafePayload(payload)[key] == payload[key]
  {
  }

  /** An empty payload sends only the defaults. */
  lemma EmptyPayloadDefaults()
    ensures SafePayload(map[]) == map["temperature" := JFloat(7, 1), "max_tokens" := JInt(256),
                                     "provider" := JNull, "config" := JObj(map[]), "extra" := JNull]
  {
  }
}
