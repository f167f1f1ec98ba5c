/** The desktop's speech-to-text facade (`stt.service.ts`): it fills in the
    defaults of a session's configuration and forwards every call to the
    socket client. */
module DesktopStt {
  import opened Wrappers
  import opened Json
  import opened SttWire
  import opened SttWsClient

  /** The seven configuration keys `start` always sends, in the order it writes
      them. */
  const ConfigKeys: seq<string> :=
    ["provider", "language", "sample_rate", "format", "partial_every_s", "partial_window_s", "partial_min_window_s"]

  /** The value used for a key the caller leaves out (or sets to null):
      `partial_every_s` 1.6, `partial_window_s` 6.0, `partial_min_window_s` 2.0,
      kept as exact decimals. */
  function ConfigDefault(key: string): Json {
    match key
    case "provider" => JStr("whisper_selfhosted")
    case "language" => JStr("es")
    case "sample_rate" => JInt(16000)
    case "format" => JStr("pcm16")
    case "partial_every_s" => JFloat(16, 1)
    case "partial_window_s" => JFloat(60, 1)
    case "partial_min_window_s" => JFloat(20, 1)
    case _ => JNull
  }

  /** The record `start` builds: each of the seven keys is the caller's value,
      or the default where the caller's is null or missing; other keys of the
      caller's record are not sent. */
  function FilledConfig(cfg: Object): (r: Object)
    ensures r.Keys == set k | k in ConfigKeys
    ensures forall k :: k in ConfigKeys ==> r[k] == Coalesce(Get(cfg, k), ConfigDefault(k))
  {
    map k | k in ConfigKeys :: Coalesce(Get(cfg, k), ConfigDefault(k))
  }

  class SttService {
    const ws: SttWsClient

    constructor(ws: SttWsClient)
      ensures this.ws == ws
    {
      this.ws := ws;
    }

    method Start(sessionId: string, sttConfig: Object)
      modifies ws
      ensures ws.State() == SendSpec(old(ws.State()), ClientStart(sessionId, Some(FilledConfig(sttConfig))))
    {
      var config := FilledConfig(sttConfig);
      ws.Start(sessionId, Some(config));
    }

    /** The format is always `pcm16`; the rate defaults to 16000. */
    method SendAudioChunk(dataB64: string, sampleRate: Option<int>)
      modifies ws
      ensures ws.State() == SendSpec(old(ws.State()), ClientAudio(Pcm16, sampleRate.GetOr(16000), dataB64))
    {
      ws.Audio(Pcm16, sampleRate.GetOr(16000), dataB64);
    }

    method Stop()
      modifies ws
      ensures ws.State() == SendSpec(old(ws.State()), ClientStop)
    {
      ws.Stop();
    }

    method Disconnect()
      modifies ws
      ensures ws.State() == DisconnectSpec(old(ws.State()))
    {
      ws.Disconnect();
    }
  }

  // ------------------------------------------------------------------ lemmas

  /** With an empty record every key takes its default: the provider, the
      language, the rate and the format ... */
  lemma EmptyConfigDefaults()
    ensures var r := FilledConfig(map[]);
      Get(r, "provider") == Some(JStr("whisper_selfhosted")) && Get(r, "language") == Some(JStr("es"))
      && Get(r, "sample_rate") == Some(JInt(16000)) && Get(r, "format") == Some(JStr("pcm16"))
  {
    EmptyTakesDefault("provider");
    EmptyTakesDefault("language");
    EmptyTakesDefault("sample_rate");
    EmptyTakesDefault("format");
  }

  /** ... and the three partial-transcript timings, 1.6, 6.0 and 2.0 seconds. */
  lemma EmptyConfigPartials()
    ensures var r := FilledConfig(map[]);
      Get(r, "partial_every_s") == Some(JFloat(16, 1)) && Get(r, "partial_window_s") == Some(JFloat(60, 1))
      && Get(r, "partial_min_window_s") == Some(JFloat(20, 1))
  {
    EmptyTakesDefault("partial_every_s");
    EmptyTakesDefault("partial_window_s");
    EmptyTakesDefault("partial_min_window_s");
  }

  /** An empty record gives one key its default. */
  lemma EmptyTakesDefault(k: string)
    requires k in ConfigKeys
    ensures Get(FilledConfig(map[]), k) == Some(ConfigDefault(k))
  {
    SuppliedValuesKept(map[], k);
  }

  /** A value the caller supplies is kept as it is, even `0`, `""` or `false`;
      only null or a missing key is replaced. */
  lemma SuppliedValuesKept(cfg: Object, k: string)
    requires k in ConfigKeys
    ensures k in cfg && cfg[k] != JNull ==> FilledConfig(cfg)[k] == cfg[k]
    ensures (k !in cfg || cfg[k] == JNull) ==> FilledConfig(cfg)[k] == ConfigDefault(k)
  {
  }

  /** The three `partial_*` keys are present whatever the caller passes, and the
      frame sent carries the filled record as its `config`. */
  lemma PartialKeysAlwaysSent(sessionId: string, cfg: Object)
    ensures var frame := ClientToJson(ClientStart(sessionId, Some(FilledConfig(cfg))));
      "config" in frame && frame["config"].JObj?
      && "partial_every_s" in frame["config"].fields
      && "partial_window_s" in frame["config"].fields
      && "partial_min_window_s" in frame["config"].fields
  {
    assert "partial_every_s" in ConfigKeys && "partial_window_s" in ConfigKeys && "partial_min_window_s" in ConfigKeys;
  }
}
