/** The backend's configuration and transcript records (`models.py`): the
    bounds pydantic enforces on the speech-to-text and language-model
    configurations, and the two transcript chunk factories. A record that
    breaks a bound is refused (`None`), as pydantic refuses to build it. */
module CoreModels {
  import opened Wrappers
  import opened SttWire

  datatype SttConfig = SttConfig(providerId: string, language: string, sampleRate: int, format: AudioFormat)

  predicate SttConfigValid(c: SttConfig) {
    8000 <= c.sampleRate <= 48000
  }

  /** `STTConfig(...)`, each field given or left to its default: provider
      `cloud_stub`, language `es`, 16000 Hz; the format can only be pcm16. */
  function NewSttConfig(providerId: Option<string>, language: Option<string>, sampleRate: Option<int>): (r: Option<SttConfig>)
    ensures r.Some? <==> 8000 <= sampleRate.GetOr(16000) <= 48000
    ensures r.Some? ==> SttConfigValid(r.value) && r.value == SttConfig(providerId.GetOr("cloud_stub"), language.GetOr("es"), sampleRate.GetOr(16000), Pcm16)
  {
    var c := SttConfig(providerId.GetOr("cloud_stub"), language.GetOr("es"), sampleRate.GetOr(16000), Pcm16);
    if SttConfigValid(c) then Some(c) else None
  }

  /** The temperature is kept as an exact decimal. */
  datatype LlmConfig = LlmConfig(providerId: string, model: string, temperature: real, maxTokens: int, systemPrompt: Option<string>)

  predicate LlmConfigValid(c: LlmConfig) {
    0.0 <= c.temperature <= 2.0 && 1 <= c.maxTokens <= 8192
  }

  /** `LLMConfig(...)`: provider `openai_compat`, model `gpt-4o-mini`,
      temperature 0.2, 256 tokens and no system prompt unless given. */
  function NewLlmConfig(providerId: Option<string>, model: Option<string>, temperature: Option<real>,
                        maxTokens: Option<int>, systemPrompt: Option<string>): (r: Option<LlmConfig>)
    ensures r.Some? <==> 0.0 <= temperature.GetOr(0.2) <= 2.0 && 1 <= maxTokens.GetOr(256) <= 8192
    ensures r.Some? ==> LlmConfigValid(r.value)
    ensures r.Some? ==> r.value == LlmConfig(providerId.GetOr("openai_compat"), model.GetOr("gpt-4o-mini"),
                                             temperature.GetOr(0.2), maxTokens.GetOr(256), systemPrompt)
  {
    var c := LlmConfig(providerId.GetOr("openai_compat"), model.GetOr("gpt-4o-mini"), temperature.GetOr(0.2),
                       maxTokens.GetOr(256), systemPrompt);
    if LlmConfigValid(c) then Some(c) else None
  }

  datatype TranscriptKind = PartialChunk | FinalChunk

  datatype TranscriptChunk = TranscriptChunk(kind: TranscriptKind, text: string, sessionId: Option<string>,
                                             isFinal: bool, startMs: Option<int>, endMs: Option<int>)

  /** `TranscriptChunk.partial`. */
  function Partial(text: string, sessionId: Option<string>): (c: TranscriptChunk)
    ensures c.kind == PartialChunk && !c.isFinal
    ensures c.text == text && c.sessionId == sessionId && c.startMs == None && c.endMs == None
  {
    TranscriptChunk(PartialChunk, text, sessionId, false, None, None)
  }

  /** `TranscriptChunk.final`. */
  function Final(text: string, sessionId: Option<string>): (c: TranscriptChunk)
    ensures c.kind == FinalChunk && c.isFinal
    ensures c.text == text && c.sessionId == sessionId && c.startMs == None && c.endMs == None
  {
    TranscriptChunk(FinalChunk, text, sessionId, true, None, None)
  }

  // ------------------------------------------------------------------ lemmas

  /** The defaults pass their own bounds. */
  lemma DefaultsValid()
    ensures NewSttConfig(None, None, None) == Some(SttConfig("cloud_stub", "es", 16000, Pcm16))
    ensures NewLlmConfig(None, None, None, None, None) == Some(LlmConfig("openai_compat", "gpt-4o-mini", 0.2, 256, None))
  {
  }

  /** The factories agree with the flag: a chunk from either is final exactly
      when its kind is final. */
  lemma FactoriesAgree(text: string, sessionId: Option<string>)
    ensures Partial(text, sessionId).isFinal <==> Partial(text, sessionId).kind == FinalChunk
    ensures Final(text, sessionId).isFinal <==> Final(text, sessionId).kind == FinalChunk
    ensures Partial(text, sessionId) != Final(text, sessionId)
  {
  }

  /** The sample-rate bounds are inclusive at both ends. */
  lemma SampleRateBounds()
    ensures NewSttConfig(None, None, Some(8000)).Some? && NewSttConfig(None, None, Some(48000)).Some?
    ensures NewSttConfig(None, None, Some(7999)).None? && NewSttConfig(None, None, Some(48001)).None?
  {
  }
}
