/** The settings panel for connections (`settings-connections-panel.component.ts`):
    base-URL inputs, provider picks, the masked API key, the speech-to-text
    timeout, and the socket probe that waits for `ready`. Its requests and the
    probe's socket are inputs: each handler is one event. */
module ConnectionsPanel {
  import opened Wrappers
  import opened Json
  import opened Text
  import opened Settings
  import opened SttWire

  datatype PanelStatus = Idle | Checking | Passed | Bad

  // ------------------------------------------------------------ pure values

  /** The key masking: empty stays empty, a key of at most ten characters is
      shown whole, a longer one as its first six characters, an ellipsis and
      its last four. */
  function MaskKey(key: string): (r: string)
    ensures key == [] ==> r == []
    ensures 0 < |key| <= 10 ==> r == key
    ensures |key| > 10 ==> |r| == 11 && r[..6] == key[..6] && r[6] == '…' && r[7..] == key[|key| - 4..]
  {
    if key == [] then []
    else if |key| <= 10 then key
    else key[..6] + "…" + key[|key| - 4..]
  }

  /** The key of the selected language-model provider: Gemini's when it is
      `gemini`, the OpenAI-compatible one's otherwise. */
  function LlmKey(s: AppSettings): string {
    if s.selectedLlmProviderId == "gemini" then s.geminiApiKey else s.openaiApiKey
  }

  /** `llmKeyMasked`. */
  function LlmKeyMasked(s: AppSettings): string {
    MaskKey(LlmKey(s))
  }

  /** `llmModelValue`. */
  function LlmModelValue(s: AppSettings): string {
    if s.selectedLlmProviderId == "gemini" then s.geminiModel else s.openaiModel
  }

  /** `sttEndpointDisplay`. */
  function SttEndpoint(s: AppSettings): string {
    s.wsBaseUrl + "/ws/stt"
  }

  /** The value `onApiBaseUrlInput` stores: the trimmed input, given `http://`
      when non-empty and without an http(s) scheme, less its trailing slashes;
      blank input stores the empty string. */
  function ApiBaseInput(v: string): (r: string)
    ensures Trim(v) == "" ==> r == ""
    ensures r == [] || r[|r| - 1] != '/'
  {
    var raw := Trim(v);
    var normalized := if raw != "" && !HasHttpScheme(raw) then "http://" + raw else raw;
    StripTrailingSlashes(normalized)
  }

  /** The value `onWsBaseUrlInput` stores, with `ws://` and `wss://`. */
  function WsBaseInput(v: string): (r: string)
    ensures Trim(v) == "" ==> r == ""
    ensures r == [] || r[|r| - 1] != '/'
  {
    var raw := Trim(v);
    var normalized := if raw != "" && !HasWsScheme(raw) then "ws://" + raw else raw;
    StripTrailingSlashes(normalized)
  }

  /** What `onSttTimeoutInput` stores for what `Number(v)` parsed:
      `Math.max(1000, Math.floor(n || 0))`, where NaN and zero count as 0. */
  function TimeoutInput(parsed: Num): (r: Num)
    ensures r.PosInf? <==> parsed.PosInf?
    ensures !r.PosInf? ==> IntAtLeast(r, 1000)
    ensures (parsed.NaN? || parsed.NegInf?) ==> r == Int(1000)
    ensures parsed.Finite? && parsed.value.Floor >= 1000 ==> r == Int(parsed.value.Floor)
    ensures parsed.Finite? && parsed.value.Floor < 1000 ==> r == Int(1000)
  {
    var n := if parsed.NaN? || parsed == Finite(0.0) then Int(0) else parsed;
    JsMax(Int(1000), JsFloor(n))
  }

  /** A finite whole number of at least `lo`. */
  predicate IntAtLeast(n: Num, lo: int) {
    n.Finite? && n.value == n.value.Floor as real && n.value >= lo as real
  }

  // ------------------------------------------------------------------ probe

  /** How the probe's promise settles. */
  datatype ProbeResult = Resolved(ok: bool) | Rejected(message: Option<string>)

  /** What the probe does to the world: the timer, the socket and its frames. */
  datatype ProbeEffect = ArmTimer(delay: Num) | OpenSocket(url: string) | SendFrame(frame: Object) | ClearTimer | CloseSocket

  /** The probe's state: the `done` latch, how it settled (if it has), whether
      a socket exists, and what it has done so far. */
  datatype Probe = Probe(sessionId: string, done: bool, result: Option<ProbeResult>, hasSocket: bool, log: seq<ProbeEffect>)

  /** The start frame the probe sends on open, with an empty configuration. */
  function ProbeStartFrame(sessionId: string): Object {
    map["type" := JStr("start"), "session_id" := JStr(sessionId), "config" := JObj(map[])]
  }

  /** `finish`: ignored once done; otherwise latch, close the socket if there
      is one, and settle. */
  function Finish(p: Probe, r: ProbeResult): (q: Probe)
    ensures p.done ==> q == p
    ensures !p.done ==> q.done && q.result == Some(r)
  {
    if p.done then p
    else p.(done := true, result := Some(r), log := p.log + (if p.hasSocket then [CloseSocket] else []))
  }

  /** Creating the probe: arm the timer for at least a second, then open the
      socket, or settle by rejection when opening throws. */
  function ProbeBegin(url: string, sessionId: string, timeoutMs: Num, openFailure: Option<Option<string>>): (p: Probe)
    ensures openFailure.None? ==> !p.done && p.hasSocket
    ensures openFailure.Some? ==> p.done && p.result == Some(Rejected(openFailure.value))
    ensures |p.log| >= 2 && p.log[0] == ArmTimer(JsMax(Int(1000), timeoutMs))
  {
    var p := Probe(sessionId, false, None, false, [ArmTimer(JsMax(Int(1000), timeoutMs))]);
    match openFailure
    case None => p.(hasSocket := true, log := p.log + [OpenSocket(url)])
    case Some(m) => Finish(p.(log := p.log + [ClearTimer]), Rejected(m))
  }

  function ProbeOpened(p: Probe): Probe {
    p.(log := p.log + [SendFrame(ProbeStartFrame(p.sessionId))])
  }

  /** The type field of a received frame, as `msg?.type` reads it. */
  function FrameType(f: Frame): Option<Json> {
    match f
    case Unparseable => None
    case Parsed(v) => JsGet(v, "type")
  }

  function ProbeMessage(p: Probe, f: Frame): Probe {
    if FrameType(f) == Some(JStr("ready")) then Finish(p.(log := p.log + [ClearTimer]), Resolved(true))
    else if FrameType(f) == Some(JStr("error")) then Finish(p.(log := p.log + [ClearTimer]), Resolved(false))
    else p
  }

  function ProbeError(p: Probe): Probe {
    Finish(p.(log := p.log + [ClearTimer]), Rejected(Some("WebSocket error")))
  }

  function ProbeClosed(p: Probe): Probe {
    if p.done then p else Finish(p.(log := p.log + [ClearTimer]), Resolved(false))
  }

  function ProbeTimedOut(p: Probe): Probe {
    Finish(p, Resolved(false))
  }

  /** The events a probe's socket and timer deliver. */
  datatype ProbeEvent = Opened | Received(frame: Frame) | Errored | Closed | TimedOut

  function ProbeStep(p: Probe, e: ProbeEvent): Probe {
    match e
    case Opened => ProbeOpened(p)
    case Received(f) => ProbeMessage(p, f)
    case Errored => ProbeError(p)
    case Closed => ProbeClosed(p)
    case TimedOut => ProbeTimedOut(p)
  }

  function ProbeRun(p: Probe, es: seq<ProbeEvent>): Probe
    decreases |es|
  {
    if es == [] then p else ProbeRun(ProbeStep(p, es[0]), es[1..])
  }

  /** `wsProbeReady`'s closure state: the `done` latch and the socket. */
  class WsProbe {
    const sessionId: string
    var done: bool
    var result: Option<ProbeResult>
    var hasSocket: bool
    var log: seq<ProbeEffect>

    function State(): Probe
      reads this
    {
      Probe(sessionId, done, result, hasSocket, log)
    }

    /** `openFailure` is `Some` when `new WebSocket(url)` throws, with the
        thrown value's message. */
    constructor(url: string, sessionId: string, timeoutMs: Num, openFailure: Option<Option<string>>)
      ensures State() == ProbeBegin(url, sessionId, timeoutMs, openFailure)
    {
      this.sessionId := sessionId;
      done := false;
      result := None;
      hasSocket := false;
      log := [ArmTimer(JsMax(Int(1000), timeoutMs))];
      new;
      if openFailure.None? {
        hasSocket := true;
        log := log + [OpenSocket(url)];
      } else {
        log := log + [ClearTimer];
        FinishWith(Rejected(openFailure.value));
      }
    }

    method FinishWith(r: ProbeResult)
      modifies this
      ensures State() == Finish(old(State()), r)
    {
      if done {
        return;
      }
      done := true;
      if hasSocket {
        log := log + [CloseSocket];
      }
      result := Some(r);
    }

    method OnOpen()
      modifies this
      ensures State() == ProbeOpened(old(State()))
    {
      log := log + [SendFrame(ProbeStartFrame(sessionId))];
    }

    method OnMessage(f: Frame)
      modifies this
      ensures State() == ProbeMessage(old(State()), f)
    {
      var t := FrameType(f);
      if t == Some(JStr("ready")) {
        log := log + [ClearTimer];
        FinishWith(Resolved(true));
        return;
      }
      if t == Some(JStr("error")) {
        log := log + [ClearTimer];
        FinishWith(Resolved(false));
        return;
      }
    }

    method OnError()
      modifies this
      ensures State() == ProbeError(old(State()))
    {
      log := log + [ClearTimer];
      FinishWith(Rejected(Some("WebSocket error")));
    }

    method OnClose()
      modifies this
      ensures State() == ProbeClosed(old(State()))
    {
      if !done {
        log := log + [ClearTimer];
        FinishWith(Resolved(false));
      }
    }

    method OnTimeout()
      modifies this
      ensures State() == ProbeTimedOut(old(State()))
    {
      FinishWith(Resolved(false));
    }
  }

  // ------------------------------------------------------------------ panel

  class ConnectionsPanelState {
    const settings: SettingsStore
    var llmStatus: PanelStatus
    var sttStatus: PanelStatus
    var llmError: Option<string>
    var sttError: Option<string>

    constructor(settings: SettingsStore)
      ensures this.settings == settings
      ensures llmStatus == Idle && sttStatus == Idle && llmError == None && sttError == None
    {
      this.settings := settings;
      llmStatus := Idle;
      sttStatus := Idle;
      llmError := None;
      sttError := None;
    }

    /** The effect that runs whenever either base URL changes. */
    method OnUrlsChanged()
      modifies this
      ensures llmStatus == Idle && sttStatus == Idle && llmError == None && sttError == None
    {
      llmStatus := Idle;
      sttStatus := Idle;
      llmError := None;
      sttError := None;
    }

    method OnApiBaseUrlInput(v: string)
      requires settings.Valid()
      modifies settings
      ensures settings.settings == old(settings.settings).(apiBaseUrl := ApiBaseInput(v))
      ensures settings.persisted == old(settings.persisted) + [settings.settings]
      ensures settings.Valid()
    {
      var raw := Trim(v);
      var normalized := if raw != "" && !HasHttpScheme(raw) then "http://" + raw else raw;
      var stored := StripTrailingSlashes(normalized);
      ClampedKeepsInRange(settings.settings.(apiBaseUrl := stored));
      settings.UpdateDeep((s: AppSettings) => s.(apiBaseUrl := stored));
    }

    method OnWsBaseUrlInput(v: string)
      requires settings.Valid()
      modifies settings
      ensures settings.settings == old(settings.settings).(wsBaseUrl := WsBaseInput(v))
      ensures settings.persisted == old(settings.persisted) + [settings.settings]
      ensures settings.Valid()
    {
      var raw := Trim(v);
      var normalized := if raw != "" && !HasWsScheme(raw) then "ws://" + raw else raw;
      var stored := StripTrailingSlashes(normalized);
      ClampedKeepsInRange(settings.settings.(wsBaseUrl := stored));
      settings.UpdateDeep((s: AppSettings) => s.(wsBaseUrl := stored));
    }

    method OnPickLlmProvider(id: string)
      requires settings.Valid()
      modifies this, settings
      ensures settings.settings == old(settings.settings).(selectedLlmProviderId := id)
      ensures settings.persisted == old(settings.persisted) + [settings.settings]
      ensures settings.Valid()
      ensures llmStatus == Idle && llmError == None
      ensures sttStatus == old(sttStatus) && sttError == old(sttError)
    {
      ClampedKeepsInRange(settings.settings.(selectedLlmProviderId := id));
      settings.UpdateDeep((s: AppSettings) => s.(selectedLlmProviderId := id));
      llmStatus := Idle;
      llmError := None;
    }

    method OnPickSttProvider(id: string)
      requires settings.Valid()
      modifies this, settings
      ensures settings.settings == old(settings.settings).(selectedSttProviderId := id)
      ensures settings.persisted == old(settings.persisted) + [settings.settings]
      ensures settings.Valid()
      ensures sttStatus == Idle && sttError == None
      ensures llmStatus == old(llmStatus) && llmError == old(llmError)
    {
      ClampedKeepsInRange(settings.settings.(selectedSttProviderId := id));
      settings.UpdateDeep((s: AppSettings) => s.(selectedSttProviderId := id));
      sttStatus := Idle;
      sttError := None;
    }

    /** The key goes to the selected provider's slot. */
    method OnLlmApiKeyInput(key: string)
      requires settings.Valid()
      modifies this, settings
      ensures old(settings.settings).selectedLlmProviderId == "gemini" ==>
        settings.settings == old(settings.settings).(geminiApiKey := key)
      ensures old(settings.settings).selectedLlmProviderId != "gemini" ==>
        settings.settings == old(settings.settings).(openaiApiKey := key)
      ensures settings.persisted == old(settings.persisted) + [settings.settings]
      ensures settings.Valid() && LlmKey(settings.settings) == key
      ensures llmStatus == Idle && llmError == None
      ensures sttStatus == old(sttStatus) && sttError == old(sttError)
    {
      var s0 := settings.settings;
      var s1 := if s0.selectedLlmProviderId == "gemini" then s0.(geminiApiKey := key) else s0.(openaiApiKey := key);
      ClampedKeepsInRange(s1);
      settings.UpdateDeep((s: AppSettings) =>
        if s.selectedLlmProviderId == "gemini" then s.(geminiApiKey := key) else s.(openaiApiKey := key));
      assert settings.settings == s1;
      llmStatus := Idle;
      llmError := None;
    }

    /** The trimmed model name goes to the selected provider's slot; the
        provider's error is left as it was. */
    method OnLlmModelInput(v: string)
      requires settings.Valid()
      modifies this, settings
      ensures old(settings.settings).selectedLlmProviderId == "gemini" ==>
        settings.settings == old(settings.settings).(geminiModel := Trim(v))
      ensures old(settings.settings).selectedLlmProviderId != "gemini" ==>
        settings.settings == old(settings.settings).(openaiModel := Trim(v))
      ensures settings.persisted == old(settings.persisted) + [settings.settings]
      ensures settings.Valid() && LlmModelValue(settings.settings) == Trim(v)
      ensures llmStatus == Idle && llmError == old(llmError)
      ensures sttStatus == old(sttStatus) && sttError == old(sttError)
    {
      var model := Trim(v);
      WriteLlmModel(model);
    }

    /** The write half of `onLlmModelInput`, once the name is trimmed. */
    method WriteLlmModel(model: string)
      requires settings.Valid()
      modifies this, settings
      ensures old(settings.settings).selectedLlmProviderId == "gemini" ==>
        settings.settings == old(settings.settings).(geminiModel := model)
      ensures old(settings.settings).selectedLlmProviderId != "gemini" ==>
        settings.settings == old(settings.settings).(openaiModel := model)
      ensures settings.persisted == old(settings.persisted) + [settings.settings]
      ensures settings.Valid() && LlmModelValue(settings.settings) == model
      ensures llmStatus == Idle && llmError == old(llmError)
      ensures sttStatus == old(sttStatus) && sttError == old(sttError)
    {
      var s0 := settings.settings;
      var s1 := if s0.selectedLlmProviderId == "gemini" then s0.(geminiModel := model) else s0.(openaiModel := model);
      ClampedKeepsInRange(s1);
      settings.UpdateDeep((s: AppSettings) =>
        if s.selectedLlmProviderId == "gemini" then s.(geminiModel := model) else s.(openaiModel := model));
      assert settings.settings == s1;
      llmStatus := Idle;
    }

    /** `onSttTimeoutInput`, given what `Number(v)` parsed. */
    method OnSttTimeoutInput(parsed: Num)
      requires settings.Valid()
      modifies this, settings
      ensures settings.settings == old(settings.settings).(customTimeoutMs := TimeoutInput(parsed))
      ensures settings.persisted == old(settings.persisted) + [settings.settings]
      ensures settings.Valid()
      ensures sttStatus == Idle && sttError == None
      ensures llmStatus == old(llmStatus) && llmError == old(llmError)
    {
      var n := JsMax(Int(1000), JsFloor(if parsed.NaN? || parsed == Finite(0.0) then Int(0) else parsed));
      ClampedKeepsInRange(settings.settings.(customTimeoutMs := n));
      settings.UpdateDeep((s: AppSettings) => s.(customTimeoutMs := n));
      sttStatus := Idle;
      sttError := None;
    }

    /** The start of `testSttWs`, before the probe runs. */
    method BeginSttTest()
      modifies this
      ensures sttStatus == Checking && sttError == None
      ensures llmStatus == old(llmStatus) && llmError == old(llmError)
    {
      sttStatus := Checking;
      sttError := None;
    }

    /** The end of `testSttWs`, given how the probe settled. */
    method EndSttTest(r: ProbeResult)
      modifies this
      ensures sttStatus == (if r == Resolved(true) then Passed else Bad)
      ensures r == Resolved(true) ==> sttError == old(sttError)
      ensures r == Resolved(false) ==> sttError == Some("No se recibió 'ready' a tiempo")
      ensures r.Rejected? ==> sttError == Some(r.message.GetOr("No se pudo probar STT"))
      ensures llmStatus == old(llmStatus) && llmError == old(llmError)
    {
      match r
      case Resolved(ok) =>
        sttStatus := if ok then Passed else Bad;
        if !ok {
          sttError := Some("No se recibió 'ready' a tiempo");
        }
      case Rejected(message) =>
        sttStatus := Bad;
        sttError := Some(message.GetOr("No se pudo probar STT"));
    }
  }

  // ------------------------------------------------------------------ lemmas

  /** The masked key is the Gemini key's mask exactly when Gemini is
      selected, and the OpenAI-compatible key's otherwise. */
  lemma MaskedFollowsProvider(s: AppSettings)
    ensures s.selectedLlmProviderId == "gemini" ==> LlmKeyMasked(s) == MaskKey(s.geminiApiKey)
    ensures s.selectedLlmProviderId != "gemini" ==> LlmKeyMasked(s) == MaskKey(s.openaiApiKey)
  {
  }

  /** For non-blank input the panel stores what the store's own
      normalisation gives; blank input stores the empty string where the
      store would use its fallback. */
  lemma ApiBaseInputAgrees(v: string, fallback: string)
    ensures Trim(v) != "" ==> ApiBaseInput(v) == NormalizeHttpBaseUrl(v, fallback)
    ensures Trim(v) == "" ==> ApiBaseInput(v) == "" && NormalizeHttpBaseUrl(v, fallback) == fallback
  {
  }

  lemma WsBaseInputAgrees(v: string, fallback: string)
    ensures Trim(v) != "" ==> WsBaseInput(v) == NormalizeWsBaseUrl(v, fallback)
    ensures Trim(v) == "" ==> WsBaseInput(v) == "" && NormalizeWsBaseUrl(v, fallback) == fallback
  {
  }

  /** Once the probe has settled, no event changes how it settled. */
  lemma SettledStaysSettled(p: Probe, e: ProbeEvent)
    requires p.done
    ensures ProbeStep(p, e).done && ProbeStep(p, e).result == p.result
  {
  }

  /** The same over any run of later events. */
  lemma {:induction false} SettlesOnce(p: Probe, es: seq<ProbeEvent>)
    requires p.done
    ensures ProbeRun(p, es).done && ProbeRun(p, es).result == p.result
    decreases |es|
  {
    if es != [] {
      SettledStaysSettled(p, es[0]);
      SettlesOnce(ProbeStep(p, es[0]), es[1..]);
    }
  }

  /** A probe still waiting resolves `true` only on a `ready` frame; it
      resolves `false` on an `error` frame, on a close or on the timeout, and
      rejects on a socket error. */
  lemma ProbeOutcomes(p: Probe, e: ProbeEvent)
    requires !p.done && p.result == None
    ensures ProbeStep(p, e).result == Some(Resolved(true)) <==> e.Received? && FrameType(e.frame) == Some(JStr("ready"))
    ensures e.Received? && FrameType(e.frame) == Some(JStr("error")) ==> ProbeStep(p, e).result == Some(Resolved(false))
    ensures e == Closed || e == TimedOut ==> ProbeStep(p, e).result == Some(Resolved(false))
    ensures e == Errored ==> ProbeStep(p, e).result == Some(Rejected(Some("WebSocket error")))
    ensures ProbeStep(p, e).done <==> !(e == Opened || (e.Received? && FrameType(e.frame) != Some(JStr("ready")) && FrameType(e.frame) != Some(JStr("error"))))
  {
  }

  /** An unparseable frame, or one without a `type`, changes nothing. */
  lemma IgnoredFrames(p: Probe, v: Json)
    ensures ProbeMessage(p, Unparseable) == p
    ensures !v.JObj? ==> ProbeMessage(p, Parsed(v)) == p
  {
  }
}
