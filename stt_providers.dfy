/** The backend's speech-to-text providers: the cloud stub (`cloud_stub.py`), the
    two skeletons that only validate their config (`custom_ws_proxy.py`,
    `whisper_selfhosted.py`), and `whisper_cpp.py`, which accumulates audio in the
    session store and transcribes it on stop. The filesystem and the subprocess
    are inputs (`WhisperEnv`). */
module SttProviders {
  import opened Wrappers
  import opened Json
  import opened Text
  import opened SttWire
  import opened SttSessions
  import Base64

  /** What a hook returns, or the exception it raises. */
  datatype Hook = Out(msgs: seq<ServerMessage>) | Raised(error: Error)

  /** `STTAudioFrame`. */
  datatype AudioFrame = AudioFrame(sessionId: string, audioBytes: seq<Base64.byte>, format: string, sampleRate: int, chunkIndex: int)

  // ---------------------------------------------------------------- cloud_stub

  const CloudStubName := "cloud_stub"

  function CloudStubOnStart(sid: string): (r: seq<ServerMessage>)
    ensures r == [ServerReady(sid)]
  {
    [ServerReady(sid)]
  }

  function PartialText(i: int): string {
    "(mock) escuchando... chunk=" + IntToString(i)
  }

  function FinalText(i: int): string {
    "(mock) transcripción final #" + IntToString(i / 3)
  }

  /** `on_audio` of the stub: a partial naming the chunk, and on every third
      chunk a final numbered `chunk_index // 3`; every message carries the
      frame's session id. */
  function CloudStubOnAudio(frame: AudioFrame): (r: seq<ServerMessage>)
    ensures |r| == (if frame.chunkIndex % 3 == 0 then 2 else 1)
    ensures r[0] == ServerPartial(frame.sessionId, PartialText(frame.chunkIndex))
    ensures |r| == 2 ==> r[1] == ServerFinal(frame.sessionId, FinalText(frame.chunkIndex))
    ensures forall k :: 0 <= k < |r| ==> !r[k].ServerError? && r[k].sessionId == frame.sessionId
  {
    var out := [ServerPartial(frame.sessionId, PartialText(frame.chunkIndex))];
    if frame.chunkIndex % 3 == 0 then out + [ServerFinal(frame.sessionId, FinalText(frame.chunkIndex))] else out
  }

  function CloudStubOnStop(sid: string): (r: seq<ServerMessage>)
    ensures r == [ServerFinal(sid, "(mock) stop")]
  {
    [ServerFinal(sid, "(mock) stop")]
  }

  // ----------------------------------------------------------- custom_ws_proxy

  const CustomWsProxyName := "custom_ws_proxy"

  /** A string starting with "ws://" or "wss://". */
  predicate IsWsUrl(v: Json) {
    v.JStr? && (StartsWith(v.s, "ws://") || StartsWith(v.s, "wss://"))
  }

  /** A string starting with "http://" or "https://". */
  predicate IsHttpUrl(v: Json) {
    v.JStr? && (StartsWith(v.s, "http://") || StartsWith(v.s, "https://"))
  }

  /** `_validate`: `endpoint` must be a string starting with "ws://" or "wss://". */
  function ValidateCustomWs(config: Object): (r: Result<()>)
    ensures r.Ok? <==> IsWsUrl(PyGet(config, "endpoint"))
    ensures r.Err? ==> r.error == Error(ValueError, "custom_ws_proxy requires config.endpoint as ws:// or wss:// URL")
  {
    var endpoint := PyGet(config, "endpoint");
    if !endpoint.JStr? || !(StartsWith(endpoint.s, "ws://") || StartsWith(endpoint.s, "wss://")) then
      Raise(ValueError, "custom_ws_proxy requires config.endpoint as ws:// or wss:// URL")
    else Ok(())
  }

  /** Each of the three hooks: validate, then raise NotImplementedError. */
  function CustomWsHook(config: Object): (r: Hook)
    ensures r.Raised?
    ensures r.error.kind == NotImplementedError <==> ValidateCustomWs(config).Ok?
    ensures ValidateCustomWs(config).Err? ==> r.error == ValidateCustomWs(config).error
    ensures r.error.kind == NotImplementedError ==> r.error.message == "custom_ws_proxy not implemented yet"
  {
    match ValidateCustomWs(config)
    case Err(e) => Raised(e)
    case Ok(_) => Raised(Error(NotImplementedError, "custom_ws_proxy not implemented yet"))
  }

  // -------------------------------------------------------- whisper_selfhosted

  const WhisperSelfHostedName := "whisper_selfhosted"

  /** `_validate`: `base_url` first (an http(s) string), then `model` (absent or a string). */
  function ValidateSelfHosted(config: Object): (r: Result<()>)
    ensures r.Ok? <==> IsHttpUrl(PyGet(config, "base_url")) && (PyGet(config, "model").JNull? || PyGet(config, "model").JStr?)
    ensures !IsHttpUrl(PyGet(config, "base_url")) ==> r == Raise(ValueError, "whisper_selfhosted requires config.base_url as http(s) URL")
  {
    var baseUrl := PyGet(config, "base_url");
    if !baseUrl.JStr? || !(StartsWith(baseUrl.s, "http://") || StartsWith(baseUrl.s, "https://")) then
      Raise(ValueError, "whisper_selfhosted requires config.base_url as http(s) URL")
    else
      var model := PyGet(config, "model");
      if !model.JNull? && !model.JStr? then
        Raise(ValueError, "whisper_selfhosted config.model must be string if provided")
      else Ok(())
  }

  function SelfHostedHook(config: Object): (r: Hook)
    ensures r.Raised?
    ensures r.error.kind == NotImplementedError <==> ValidateSelfHosted(config).Ok?
    ensures ValidateSelfHosted(config).Err? ==> r.error == ValidateSelfHosted(config).error
    ensures r.error.kind == NotImplementedError ==> r.error.message == "whisper_selfhosted not implemented yet"
  {
    match ValidateSelfHosted(config)
    case Err(e) => Raised(e)
    case Ok(_) => Raised(Error(NotImplementedError, "whisper_selfhosted not implemented yet"))
  }

  // --------------------------------------------------------------- whisper_cpp

  const WhisperCppName := "whisper_cpp"

  /** The value of a string of decimal digits. */
  function DigitsValue(s: string): (r: int)
    requires forall k :: 0 <= k < |s| ==> IsDigit(s[k])
    ensures r >= 0
  {
    if s == [] then 0
    else
      assert IsDigit(s[|s| - 1]);
      10 * DigitsValue(s[..|s| - 1]) + (s[|s| - 1] as int - 48)
  }

  predicate AllDigits(s: string) {
    s != [] && forall k :: 0 <= k < |s| ==> IsDigit(s[k])
  }

  /** `int(s)` of a string: surrounding whitespace, an optional sign, then decimal digits. */
  function ParseDecimal(s: string): (r: Option<int>)
  {
    var t := Trim(s);
    if t != [] && (t[0] == '-' || t[0] == '+') && AllDigits(t[1..]) then
      Some(if t[0] == '-' then -DigitsValue(t[1..]) else DigitsValue(t[1..]))
    else if AllDigits(t) then Some(DigitsValue(t))
    else None
  }

  /** `int(v)`: integers and booleans as they are, floats truncated toward zero,
      strings parsed; None, lists and dicts raise (None here). */
  function PyInt(v: Json): (r: Option<int>)
    ensures IsPyInt(v) ==> r == Some(PyIntValue(v))
    ensures v.JNull? || v.JArr? || v.JObj? ==> r == None
  {
    match v
    case JInt(i) => Some(i)
    case JBool(b) => Some(if b then 1 else 0)
    case JFloat(m, sc) => Some(if m >= 0 then m / Pow10(sc) else -((-m) / Pow10(sc)))
    case JStr(s) => ParseDecimal(s)
    case _ => None
  }

  /** `_pick_int`: the parsed integer when it is positive, the default otherwise
      (including when parsing fails). */
  function PickInt(v: Json, default: int): (r: int)
    ensures PyInt(v).Some? && PyInt(v).value > 0 ==> r == PyInt(v).value
    ensures !(PyInt(v).Some? && PyInt(v).value > 0) ==> r == default
  {
    match PyInt(v)
    case Some(n) => if n > 0 then n else default
    case None => default
  }

  lemma {:induction false} DigitsOfNat(n: nat)
    ensures forall k :: 0 <= k < |NatToString(n)| ==> IsDigit(NatToString(n)[k])
    ensures DigitsValue(NatToString(n)) == n
    decreases n
  {
    if n >= 10 {
      DigitsOfNat(n / 10);
      var s := NatToString(n);
      assert s[..|s| - 1] == NatToString(n / 10);
    }
  }

  /** Decimal text has no whitespace to strip. */
  lemma TrimDigits(s: string)
    requires AllDigits(s)
    ensures Trim(s) == s
  {
    TrimNoop(s);
  }

  /** A positive count written out in decimal, as a config value, is read back as
      itself; so is the number itself. */
  lemma PickIntOfDecimal(n: nat, default: int)
    requires n > 0
    ensures PickInt(JStr(NatToString(n)), default) == n
    ensures PickInt(JInt(n), default) == n
  {
    var s := NatToString(n);
    DigitsOfNat(n);
    TrimDigits(s);
    assert !(s[0] == '-' || s[0] == '+') by { assert IsDigit(s[0]); }
    assert ParseDecimal(s) == Some(n);
  }

  /** The type name Python gives a JSON value in an AttributeError. */
  function PyTypeName(v: Json): string {
    match v
    case JNull => "NoneType"
    case JBool(_) => "bool"
    case JInt(_) => "int"
    case JFloat(_, _) => "float"
    case JStr(_) => "str"
    case JArr(_) => "list"
    case JObj(_) => "dict"
  }

  /** `(config.get("language") or "auto").strip()`: a falsy value reads as "auto";
      a truthy non-string has no `strip` and raises. */
  function Language(config: Object): (r: Result<string>)
    ensures !PyTruthy(PyGet(config, "language")) ==> r == Ok("auto")
    ensures PyGet(config, "language").JStr? && PyGet(config, "language").s != "" ==> r == Ok(Trim(PyGet(config, "language").s))
    ensures r.Err? ==> r.error.kind == AttributeError
  {
    var v := PyGet(config, "language");
    if !PyTruthy(v) then Ok("auto")
    else if v.JStr? then Ok(Trim(v.s))
    else Raise(AttributeError, "'" + PyTypeName(v) + "' object has no attribute 'strip'")
  }

  /** The command line: binary, `-m model`, `-f wav`, and `-l lang` only for a
      language that is neither empty nor "auto". */
  function WhisperArgs(bin: string, model: string, wav: string, lang: string): (r: seq<string>)
    ensures |r| >= 5 && r[..5] == [bin, "-m", model, "-f", wav]
    ensures |r| == 7 <==> lang != "" && lang != "auto"
    ensures |r| == 5 <==> !(lang != "" && lang != "auto")
    ensures |r| == 7 ==> r[5..] == ["-l", lang]
  {
    var args := [bin, "-m", model, "-f", wav];
    if lang != "" && lang != "auto" then args + ["-l", lang] else args
  }

  /** How the subprocess ended: killed after the timeout, or exited with a code
      and (decoded) output. */
  datatype ProcOutcome = TimedOut | Exited(code: int, stdout: string, stderr: string)

  /** What `on_stop` learns from outside: the resolved paths, whether they exist,
      the temporary wav path and how the subprocess ends. */
  datatype WhisperEnv = WhisperEnv(binPath: string, modelPath: string, binExists: bool, modelExists: bool,
                                   wavPath: string, proc: ProcOutcome)

  /** `s[:n]`. */
  function Take(s: string, n: nat): (r: string)
    ensures |r| <= n && |r| <= |s| && r == s[..|r|]
    ensures |s| <= n ==> r == s
  {
    if |s| <= n then s else s[..n]
  }

  /** The transcription of a finished process: output and error text are
      stripped; a non-zero exit raises with the code and at most 800 characters
      of the error text; the text is the output when that is non-empty, else the
      error text; empty text raises. */
  function SelectText(code: int, stdout: string, stderr: string): (r: Result<string>)
    ensures code != 0 ==> r == Raise(ValueError, "whisper_cpp: exit " + IntToString(code) + ": " + Take(Trim(stderr), 800))
    ensures code == 0 && Trim(stdout) != "" ==> r == Ok(Trim(stdout))
    ensures code == 0 && Trim(stdout) == "" && Trim(stderr) != "" ==> r == Ok(Trim(stderr))
    ensures code == 0 && Trim(stdout) == "" && Trim(stderr) == "" ==> r == Raise(ValueError, "whisper_cpp: empty transcription output")
    ensures r.Ok? ==> r.value != ""
  {
    var out := Trim(stdout);
    var err := Trim(stderr);
    if code != 0 then Raise(ValueError, "whisper_cpp: exit " + IntToString(code) + ": " + Take(err, 800))
    else
      var chosen := if out != "" then out else err;
      TrimNoop(chosen);
      var text := Trim(chosen);
      if text == "" then Raise(ValueError, "whisper_cpp: empty transcription output") else Ok(text)
  }

  /** The work `on_stop` hands to whisper.cpp once there is audio. */
  datatype Invocation = Invocation(args: seq<string>, audio: seq<Base64.byte>, sampleRate: int, timeoutS: int)

  /** `on_stop` of whisper_cpp as a function of the sessions it reads and changes,
      with the whisper.cpp run it starts, if any: the paths are checked before
      any audio is taken; once taken, the buffer stays empty whatever happens
      next; the subprocess runs exactly when there is audio and a language. */
  function WhisperOnStop(m: Sessions, sid: string, config: Object, env: WhisperEnv): (r: (Hook, Sessions, Option<Invocation>))
    ensures !env.binExists ==> r == (Raised(Error(ValueError, "whisper_cpp: binary not found: " + env.binPath)), m, None)
    ensures env.binExists && !env.modelExists ==> r == (Raised(Error(ValueError, "whisper_cpp: model not found: " + env.modelPath)), m, None)
    ensures env.binExists && env.modelExists ==> r.1 == PopSpec(m, sid).1
    ensures env.binExists && env.modelExists && Snapshot(m, sid) == [] ==> r.0 == Out([ServerFinal(sid, "")]) && r.2 == None
    ensures r.2.Some? <==> env.binExists && env.modelExists && Snapshot(m, sid) != [] && Language(config).Ok?
    ensures r.2.Some? ==> r.2.value == StopInvocation(config, env, Snapshot(m, sid), Language(config).value)
    ensures r.0.Out? ==> |r.0.msgs| == 1 && r.0.msgs[0].ServerFinal? && r.0.msgs[0].sessionId == sid
  {
    if !env.binExists then (Raised(Error(ValueError, "whisper_cpp: binary not found: " + env.binPath)), m, None)
    else if !env.modelExists then (Raised(Error(ValueError, "whisper_cpp: model not found: " + env.modelPath)), m, None)
    else
      var (pcm, m1) := PopSpec(m, sid);
      if pcm == [] then (Out([ServerFinal(sid, "")]), m1, None)
      else
        var (h, run) := StopTranscribe(sid, config, env, pcm);
        (h, m1, run)
  }

  /** What `on_stop` makes of accumulated audio, with the whisper.cpp run: the
      language is read first; the subprocess then runs with the invocation
      `StopInvocation` describes, and its timeout is the one in the message. */
  function StopTranscribe(sid: string, config: Object, env: WhisperEnv, pcm: seq<Base64.byte>): (r: (Hook, Option<Invocation>))
    ensures r.0.Out? ==> |r.0.msgs| == 1 && r.0.msgs[0].ServerFinal? && r.0.msgs[0].sessionId == sid && r.0.msgs[0].text != ""
    ensures r.1.Some? <==> Language(config).Ok?
    ensures Language(config).Err? ==> r.0 == Raised(Language(config).error)
    ensures r.1.Some? ==> r.1.value == StopInvocation(config, env, pcm, Language(config).value)
    ensures r.1.Some? && env.proc.TimedOut? ==>
      r.0 == Raised(Error(ValueError, "whisper_cpp: timeout after " + IntToString(r.1.value.timeoutS) + "s"))
    ensures r.1.Some? && env.proc.Exited? ==>
      match SelectText(env.proc.code, env.proc.stdout, env.proc.stderr)
      case Ok(text) => r.0 == Out([ServerFinal(sid, text)])
      case Err(e) => r.0 == Raised(e)
  {
    match Language(config)
    case Err(e) => (Raised(e), None)
    case Ok(lang) =>
      var invocation := StopInvocation(config, env, pcm, lang);
      match env.proc
      case TimedOut =>
        (Raised(Error(ValueError, "whisper_cpp: timeout after " + IntToString(invocation.timeoutS) + "s")), Some(invocation))
      case Exited(code, stdout, stderr) =>
        match SelectText(code, stdout, stderr)
        case Err(e) => (Raised(e), Some(invocation))
        case Ok(text) => (Out([ServerFinal(sid, text)]), Some(invocation))
  }

  /** The invocation `on_stop` would make: sample rate from config (default 16000),
      timeout from config (default 60), the language flag as `WhisperArgs` says. */
  function StopInvocation(config: Object, env: WhisperEnv, pcm: seq<Base64.byte>, lang: string): (r: Invocation)
    ensures r.sampleRate > 0 && r.timeoutS > 0
    ensures r.audio == pcm && r.args == WhisperArgs(env.binPath, env.modelPath, env.wavPath, lang)
    ensures !PyTruthy(PyGet(config, "sample_rate")) ==> r.sampleRate == 16000
    ensures !PyTruthy(PyGet(config, "timeout_s")) || !PyInt(PyGet(config, "timeout_s")).Some? ==> r.timeoutS == 60
  {
    Invocation(WhisperArgs(env.binPath, env.modelPath, env.wavPath, lang), pcm,
               PickInt(PyGet(config, "sample_rate"), 16000), PickInt(PyGet(config, "timeout_s"), 60))
  }

  /** `on_start` of whisper_cpp: the store already holds the session, so the
      provider only announces it is ready. */
  function WhisperOnStart(sid: string): (r: seq<ServerMessage>)
    ensures |r| == 1 && r[0].ServerReady? && r[0].sessionId == sid
  {
    [ServerReady(sid)]
  }

  /** `on_audio` of whisper_cpp: only pcm16; the bytes go to the session buffer
      and nothing is sent back. */
  function WhisperOnAudio(m: Sessions, frame: AudioFrame): (r: (Hook, Sessions))
    ensures frame.format != "pcm16" ==> r == (Raised(Error(ValueError, "whisper_cpp: only pcm16 supported for now")), m)
    ensures frame.format == "pcm16" && frame.sessionId in m ==>
      r == (Out([]), AppendSpec(m, frame.sessionId, frame.audioBytes).value)
    ensures frame.format == "pcm16" && frame.sessionId !in m ==>
      r == (Raised(Error(ValueError, "Send 'start' first")), m)
  {
    if frame.format != "pcm16" then (Raised(Error(ValueError, "whisper_cpp: only pcm16 supported for now")), m)
    else
      match AppendSpec(m, frame.sessionId, frame.audioBytes)
      case Err(e) => (Raised(e), m)
      case Ok(m1) => (Out([]), m1)
  }

  /** Audio accepted by whisper_cpp is handed back in full on stop: after
      `on_audio` of a pcm16 frame, `on_stop` (with both files present) runs
      whisper.cpp over the old buffer followed by the frame's bytes, or answers an
      empty final when there were none. */
  lemma WhisperAccumulates(m: Sessions, frame: AudioFrame, config: Object, env: WhisperEnv)
    requires frame.format == "pcm16" && frame.sessionId in m
    requires env.binExists && env.modelExists
    ensures var m1 := WhisperOnAudio(m, frame).1;
      Snapshot(m1, frame.sessionId) == m[frame.sessionId].audioBytes + frame.audioBytes
      && Snapshot(WhisperOnStop(m1, frame.sessionId, config, env).1, frame.sessionId) == []
      && (m[frame.sessionId].audioBytes + frame.audioBytes != [] ==>
            (WhisperOnStop(m1, frame.sessionId, config, env).0, WhisperOnStop(m1, frame.sessionId, config, env).2)
            == StopTranscribe(frame.sessionId, config, env, m[frame.sessionId].audioBytes + frame.audioBytes))
  {
  }

  /** `WhisperCppSTTProvider`, which shares the router's session store. */
  class WhisperCpp {
    const store: SessionStore

    constructor(store: SessionStore)
      ensures this.store == store
    {
      this.store := store;
    }

    method OnAudio(frame: AudioFrame) returns (h: Hook)
      modifies store
      ensures (h, store.sessions) == WhisperOnAudio(old(store.sessions), frame)
    {
      if frame.format != "pcm16" {
        return Raised(Error(ValueError, "whisper_cpp: only pcm16 supported for now"));
      }
      var appended := store.AppendAudio(frame.sessionId, frame.audioBytes);
      if appended.Err? {
        return Raised(appended.error);
      }
      return Out([]);
    }

    method OnStop(sid: string, config: Object, env: WhisperEnv) returns (h: Hook, run: Option<Invocation>)
      modifies store
      ensures (h, store.sessions, run) == WhisperOnStop(old(store.sessions), sid, config, env)
    {
      if !env.binExists {
        return Raised(Error(ValueError, "whisper_cpp: binary not found: " + env.binPath)), None;
      }
      if !env.modelExists {
        return Raised(Error(ValueError, "whisper_cpp: model not found: " + env.modelPath)), None;
      }
      var pcm16 := store.PopAudio(sid);
      if pcm16 == [] {
        return Out([ServerFinal(sid, "")]), None;
      }
      var lang := Language(config);
      if lang.Err? {
        return Raised(lang.error), None;
      }
      var invocation := StopInvocation(config, env, pcm16, lang.value);
      run := Some(invocation);
      match env.proc {
        case TimedOut =>
          h := Raised(Error(ValueError, "whisper_cpp: timeout after " + IntToString(invocation.timeoutS) + "s"));
        case Exited(code, stdout, stderr) =>
          var text := SelectText(code, stdout, stderr);
          if text.Err? {
            return Raised(text.error), run;
          }
          h := Out([ServerFinal(sid, text.value)]);
      }
    }
  }
}
