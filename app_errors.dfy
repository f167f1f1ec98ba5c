/** The backend's error envelope (`errors.py`): an application error with a
    code, an HTTP status and optional details, and the JSON body it becomes. */
module AppErrors {
  import opened Wrappers
  import opened Json

  datatype AppError = AppError(message: string, code: string, statusCode: int, details: Object)

  /** `AppError(message)` with its defaults: `APP_ERROR`, status 400, no
      details. */
  function NewAppError(message: string): (e: AppError)
    ensures e.code == "APP_ERROR" && e.statusCode == 400 && e.details == map[] && e.message == message
  {
    AppError(message, "APP_ERROR", 400, map[])
  }

  /** `details or {}`: a missing (or empty) mapping is the empty one. */
  function DetailsOrEmpty(details: Option<Object>): (d: Object)
    ensures details.Some? ==> d == details.value
    ensures details.None? ==> d == map[]
  {
    match details
    case Some(m) => m
    case None => map[]
  }

  function ValidationAppError(message: string, details: Option<Object>): (e: AppError)
    ensures e.code == "VALIDATION_ERROR" && e.statusCode == 400
    ensures e.message == message && e.details == DetailsOrEmpty(details)
  {
    AppError(message, "VALIDATION_ERROR", 400, DetailsOrEmpty(details))
  }

  function ConfigError(message: string, details: Option<Object>): (e: AppError)
    ensures e.code == "CONFIG_ERROR" && e.statusCode == 400
    ensures e.message == message && e.details == DetailsOrEmpty(details)
  {
    AppError(message, "CONFIG_ERROR", 400, DetailsOrEmpty(details))
  }

  /** `ProviderError`: status 502; a non-empty provider name is added to the
      details under `provider`, replacing any such key. */
  function ProviderError(message: string, provider: string, details: Option<Object>): (e: AppError)
    ensures e.code == "PROVIDER_ERROR" && e.statusCode == 502 && e.message == message
    ensures provider == "" ==> e.details == DetailsOrEmpty(details)
    ensures provider != "" ==> "provider" in e.details && e.details["provider"] == JStr(provider)
    ensures forall k :: k in DetailsOrEmpty(details) && k != "provider" ==> k in e.details && e.details[k] == DetailsOrEmpty(details)[k]
    ensures forall k :: k in e.details ==> k in DetailsOrEmpty(details) || k == "provider"
  {
    var d := DetailsOrEmpty(details);
    var d' := if provider != "" then d["provider" := JStr(provider)] else d;
    AppError(message, "PROVIDER_ERROR", 502, d')
  }

  /** `to_dict`: `{"error": {"code", "message"}}`, with `details` added only
      when there are any. */
  function ToDict(e: AppError): (r: Object)
    ensures r.Keys == {"error"} && r["error"].JObj?
    ensures var body := r["error"].fields;
      && "code" in body && body["code"] == JStr(e.code)
      && "message" in body && body["message"] == JStr(e.message)
      && ("details" in body <==> e.details != map[])
      && ("details" in body ==> body["details"] == JObj(e.details))
      && body.Keys <= {"code", "message", "details"}
  {
    var body := map["code" := JStr(e.code), "message" := JStr(e.message)];
    map["error" := JObj(if e.details != map[] then body["details" := JObj(e.details)] else body)]
  }

  // ------------------------------------------------------------------ lemmas

  /** A provider error always reports a detail block when it names its
      provider, and reads the provider back from it. */
  lemma ProviderErrorReportsProvider(message: string, provider: string, details: Option<Object>)
    requires provider != ""
    ensures var body := ToDict(ProviderError(message, provider, details))["error"].fields;
      "details" in body && body["details"].JObj? && body["details"].fields["provider"] == JStr(provider)
  {
    var e := ProviderError(message, provider, details);
    assert "provider" in e.details;
  }

  /** An error built without details reports none, whatever its kind. */
  lemma NoDetailsNoBlock(message: string)
    ensures "details" !in ToDict(NewAppError(message))["error"].fields
    ensures "details" !in ToDict(ValidationAppError(message, None))["error"].fields
    ensures "details" !in ToDict(ConfigError(message, Some(map[])))["error"].fields
    ensures "details" !in ToDict(ProviderError(message, "", None))["error"].fields
  {
  }
}
