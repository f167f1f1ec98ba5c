/** `STTRouter` (`stt_router.py`): dispatches one client message, given the
    connection's current session id, to the session store and the chosen
    provider, and answers `(session id, outbound messages, closed)`. The whole
    effect is specified by `HandleSpec`, a function of the store's dictionary;
    the class method does the same thing step by step on the shared store. */
module SttRouting {
  import opened Wrappers
  import opened Json
  import opened Text
  import opened SttWire
  import opened SttSessions
  import opened SttProviders
  import opened AudioValidate
  import Base64

  /** The tuple `handle` returns. */
  datatype Reply = Reply(sid: Option<string>, out: seq<ServerMessage>, closed: bool)

  /** The four providers the router registers, by name. */
  datatype ProviderId = CloudStub | CustomWsProxy | WhisperSelfHosted | WhisperCppId

  function ProviderName(p: ProviderId): string {
    match p
    case CloudStub => CloudStubName
    case CustomWsProxy => CustomWsProxyName
    case WhisperSelfHosted => WhisperSelfHostedName
    case WhisperCppId => WhisperCppName
  }

  function ProviderByName(name: string): (r: Option<ProviderId>)
    ensures r.Some? ==> ProviderName(r.value) == name
    ensures r.None? ==> name !in {"cloud_stub", "custom_ws_proxy", "whisper_selfhosted", "whisper_cpp"}
  {
    if name == "cloud_stub" then Some(CloudStub)
    else if name == "custom_ws_proxy" then Some(CustomWsProxy)
    else if name == "whisper_selfhosted" then Some(WhisperSelfHosted)
    else if name == "whisper_cpp" then Some(WhisperCppId)
    else None
  }

  /** `_pick_provider`: "cloud_stub" when `provider` is missing, not a string or
      empty; otherwise the provider of that name, or ValueError for an unknown one. */
  function PickProvider(config: Object): (r: Result<ProviderId>)
    ensures !(PyGet(config, "provider").JStr? && PyGet(config, "provider").s != "") ==> r == Ok(CloudStub)
    ensures PyGet(config, "provider").JStr? && PyGet(config, "provider").s != "" ==>
      match ProviderByName(PyGet(config, "provider").s)
      case Some(p) => r == Ok(p)
      case None => r == Raise(ValueError, "Unknown STT provider: " + PyGet(config, "provider").s)
  {
    var v := PyGet(config, "provider");
    var name := if v.JStr? && v.s != "" then v.s else "cloud_stub";
    match ProviderByName(name)
    case Some(p) => Ok(p)
    case None => Raise(ValueError, "Unknown STT provider: " + name)
  }

  /** `provider.on_start`. */
  function StartHook(p: ProviderId, sid: string, config: Object): Hook {
    match p
    case CloudStub => Out(CloudStubOnStart(sid))
    case CustomWsProxy => CustomWsHook(config)
    case WhisperSelfHosted => SelfHostedHook(config)
    case WhisperCppId => Out(WhisperOnStart(sid))
  }

  /** `provider.on_audio`, with the sessions it may change. */
  function AudioHook(p: ProviderId, m: Sessions, frame: AudioFrame, config: Object): (Hook, Sessions) {
    match p
    case CloudStub => (Out(CloudStubOnAudio(frame)), m)
    case CustomWsProxy => (CustomWsHook(config), m)
    case WhisperSelfHosted => (SelfHostedHook(config), m)
    case WhisperCppId => WhisperOnAudio(m, frame)
  }

  /** `provider.on_stop`, with the sessions it may change. */
  function StopHook(p: ProviderId, m: Sessions, sid: string, config: Object, env: WhisperEnv): (Hook, Sessions) {
    match p
    case CloudStub => (Out(CloudStubOnStop(sid)), m)
    case CustomWsProxy => (CustomWsHook(config), m)
    case WhisperSelfHosted => (SelfHostedHook(config), m)
    case WhisperCppId =>
      var (h, m1, _) := WhisperOnStop(m, sid, config, env);
      (h, m1)
  }

  function ErrorTo(sid: string, e: Error): ServerMessage {
    ServerError(e.message, Some(sid))
  }

  predicate FormatPasses(msg: Object) {
    ValidateFormat(PyGet(msg, "format"), DefaultConstraints).Ok?
  }

  predicate RatePasses(msg: Object) {
    ValidateSampleRate(PyGet(msg, "sample_rate"), DefaultConstraints).Ok?
  }

  predicate DataPasses(msg: Object) {
    ValidateB64String(PyGet(msg, "data")).Ok?
  }

  /** What passes every audio check, in the source's terms: format "pcm16", an
      integer rate in 8000..48000, non-empty data that decodes to at most 5 MiB. */
  predicate AudioAcceptable(msg: Object) {
    && PyGet(msg, "format") == JStr("pcm16")
    && IsPyInt(PyGet(msg, "sample_rate")) && 8000 <= PyIntValue(PyGet(msg, "sample_rate")) <= 48000
    && PyGet(msg, "data").JStr? && PyGet(msg, "data").s != ""
    && Base64.Decode(PyGet(msg, "data").s).Some?
    && |Base64.Decode(PyGet(msg, "data").s).value| <= 5242880
  }

  /** The checks `_handle_audio` runs before counting a chunk, in their fixed
      order: format, sample rate, data, base 64, size. The first failure is the
      answer; on success the format, rate and decoded bytes are handed on. */
  function AudioChecks(msg: Object): (r: Result<(string, int, seq<Base64.byte>)>)
    ensures !FormatPasses(msg) ==> r == Err(ValidateFormat(PyGet(msg, "format"), DefaultConstraints).error)
    ensures FormatPasses(msg) && !RatePasses(msg) ==>
              r == Err(ValidateSampleRate(PyGet(msg, "sample_rate"), DefaultConstraints).error)
    ensures FormatPasses(msg) && RatePasses(msg) && !DataPasses(msg) ==> r == Raise(ValueError, "Missing audio data")
    ensures FormatPasses(msg) && RatePasses(msg) && DataPasses(msg) && Base64.Decode(PyGet(msg, "data").s).None? ==>
              r == Raise(ValueError, "Invalid base64 audio payload")
    ensures r.Ok? <==> AudioAcceptable(msg)
    ensures r.Ok? ==> r.value == ("pcm16", PyIntValue(PyGet(msg, "sample_rate")), Base64.Decode(PyGet(msg, "data").s).value)
  {
    DefaultFormat(PyGet(msg, "format"));
    DefaultSampleRate(PyGet(msg, "sample_rate"));
    match ValidateFormat(PyGet(msg, "format"), DefaultConstraints)
    case Err(e) => Err(e)
    case Ok(fmt) =>
      match ValidateSampleRate(PyGet(msg, "sample_rate"), DefaultConstraints)
      case Err(e) => Err(e)
      case Ok(sr) =>
        match ValidateB64String(PyGet(msg, "data"))
        case Err(e) => Err(e)
        case Ok(data) =>
          match B64ToBytes(data)
          case Err(e) => Err(e)
          case Ok(audio) =>
            match ValidateAudioBytesSize(audio, DefaultConstraints)
            case Err(e) => Err(e)
            case Ok(_) => Ok((fmt, sr, audio))
  }

  /** `_handle_start`. */
  function StartSpec(m: Sessions, msg: Object): (r: (Reply, Sessions)) {
    var sidJ := PyGet(msg, "session_id");
    if !PyTruthy(sidJ) || !sidJ.JStr? then (Reply(None, [ServerError("Missing session_id", None)], false), m)
    else
      var sid := sidJ.s;
      var cfgJ := PyGet(msg, "config");
      var cfgJ' := if cfgJ.JNull? then JObj(map[]) else cfgJ;
      if !cfgJ'.JObj? then (Reply(None, [ServerError("Invalid config (must be object)", None)], false), m)
      else
        var config := cfgJ'.fields;
        var m1 := CreateSpec(m, sid, Some(config)).value;
        match PickProvider(config)
        case Err(e) => (Reply(None, [ErrorTo(sid, e)], false), CloseSpec(m1, sid))
        case Ok(p) =>
          match StartHook(p, sid, config)
          case Raised(e) => (Reply(None, [ErrorTo(sid, e)], false), CloseSpec(m1, sid))
          case Out(msgs) => (Reply(Some(sid), msgs, false), m1)
  }

  /** `_handle_audio`. */
  function AudioSpec(m: Sessions, msg: Object, current: Option<string>): (r: (Reply, Sessions)) {
    if current.None? || current.value == "" || current.value !in m then
      (Reply(None, [ServerError("Send 'start' first", None)], false), m)
    else
      var sid := current.value;
      var sess := m[sid];
      match AudioChecks(msg)
      case Err(e) => (Reply(Some(sid), [ErrorTo(sid, e)], false), m)
      case Ok((fmt, sr, audio)) =>
        match IncSpec(m, sid)
        case Err(e) => (Reply(Some(sid), [ErrorTo(sid, e)], false), m)
        case Ok((index, m1)) =>
          match PickProvider(sess.config)
          case Err(e) => (Reply(Some(sid), [ErrorTo(sid, e)], false), m1)
          case Ok(p) =>
            var (hook, m2) := AudioHook(p, m1, AudioFrame(sid, audio, fmt, sr, index), sess.config);
            match hook
            case Out(msgs) => (Reply(Some(sid), msgs, false), m2)
            case Raised(e) =>
              if e.kind == NotImplementedError then
                (Reply(Some(sid), [ServerError("Provider not implemented yet", Some(sid))], false), m2)
              else (Reply(Some(sid), [ErrorTo(sid, e)], false), m2)
  }

  /** `_handle_stop`. */
  function StopSpec(m: Sessions, current: Option<string>, env: WhisperEnv): (r: (Reply, Sessions)) {
    if current.None? || current.value == "" then (Reply(None, [], true), m)
    else
      var sid := current.value;
      var config := if sid in m then m[sid].config else map[];
      var (out, m1) :=
        match PickProvider(config)
        case Err(e) => ([ErrorTo(sid, e)], m)
        case Ok(p) =>
          var (hook, m1) := StopHook(p, m, sid, config, env);
          match hook
          case Out(msgs) => (msgs, m1)
          case Raised(e) =>
            if e.kind == NotImplementedError then ([ServerFinal(sid, "(mock) stop")], m1)
            else ([ErrorTo(sid, e)], m1);
      (Reply(Some(sid), out, true), CloseSpec(m1, sid))
  }

  /** `handle`: dispatch on `type`; any other type is answered with an error
      tagged with the current session id, or "" when there is none. */
  function HandleSpec(m: Sessions, msg: Object, current: Option<string>, env: WhisperEnv): (r: (Reply, Sessions)) {
    var t := PyGet(msg, "type");
    if t == JStr("start") then StartSpec(m, msg)
    else if t == JStr("audio") then AudioSpec(m, msg, current)
    else if t == JStr("stop") then StopSpec(m, current, env)
    else
      var sid := if current.Some? && current.value != "" then current.value else "";
      (Reply(Some(sid), [ServerError("Unknown message type", Some(sid))], false), m)
  }

  predicate IsType(msg: Object, t: string) {
    PyGet(msg, "type") == JStr(t)
  }

  predicate NoSession(current: Option<string>) {
    current.None? || current.value == ""
  }

  // ------------------------------------------------------------------ lemmas

  /** Any type but start, audio and stop: one error carrying the current id (or
      ""), the connection stays open and the store is untouched. */
  lemma UnknownType(m: Sessions, msg: Object, current: Option<string>, env: WhisperEnv)
    requires !IsType(msg, "start") && !IsType(msg, "audio") && !IsType(msg, "stop")
    ensures var (r, m1) := HandleSpec(m, msg, current, env);
      var sid := if NoSession(current) then "" else current.value;
      m1 == m && !r.closed && r.sid == Some(sid) && r.out == [ServerError("Unknown message type", Some(sid))]
  {
  }

  /** A start without a usable session id, or with a config that is neither null
      nor an object, gets one error and no session id, and creates nothing. */
  lemma StartRejected(m: Sessions, msg: Object, current: Option<string>, env: WhisperEnv)
    requires IsType(msg, "start")
    requires !PyGet(msg, "session_id").JStr? || PyGet(msg, "session_id").s == ""
             || !(PyGet(msg, "config").JNull? || PyGet(msg, "config").JObj?)
    ensures var (r, m1) := HandleSpec(m, msg, current, env);
      m1 == m && r.sid == None && !r.closed && |r.out| == 1 && r.out[0].ServerError?
  {
  }

  /** A start whose provider cannot be picked or whose `on_start` raises leaves
      no session under that id (an older one of the same id is gone too), keeps
      every other session, and answers no session id. */
  lemma StartFailureCloses(m: Sessions, msg: Object, current: Option<string>, env: WhisperEnv)
    requires IsType(msg, "start")
    requires HandleSpec(m, msg, current, env).0.sid.None?
    requires PyGet(msg, "session_id").JStr? && PyGet(msg, "session_id").s != ""
    requires PyGet(msg, "config").JNull? || PyGet(msg, "config").JObj?
    ensures var (r, m1) := HandleSpec(m, msg, current, env);
      var sid := PyGet(msg, "session_id").s;
      sid !in m1 && (forall k :: k in m && k != sid ==> k in m1 && m1[k] == m[k])
      && |r.out| == 1 && r.out[0].ServerError?
  {
  }

  /** A start with a string id and no provider named opens a cloud-stub session:
      the answer is one `ready` with that id, and the store holds a fresh session
      (no chunks, no bytes) under it. */
  lemma StartCloudStub(m: Sessions, sid: string, config: Object, current: Option<string>, env: WhisperEnv)
    requires sid != "" && "provider" !in config
    ensures var msg := map["type" := JStr("start"), "session_id" := JStr(sid), "config" := JObj(config)];
      var (r, m1) := HandleSpec(m, msg, current, env);
      r == Reply(Some(sid), [ServerReady(sid)], false)
      && sid in m1 && m1[sid].audioChunks == 0 && m1[sid].audioBytes == [] && m1[sid].config == config
  {
    var msg := map["type" := JStr("start"), "session_id" := JStr(sid), "config" := JObj(config)];
    assert PyGet(msg, "type") == JStr("start");
    assert PyGet(msg, "session_id") == JStr(sid);
    assert PyGet(msg, "config") == JObj(config);
  }

  /** Audio without a session, or for an id the store does not hold, is told to
      start first, gets no session id, and changes nothing. */
  lemma AudioBeforeStart(m: Sessions, msg: Object, current: Option<string>, env: WhisperEnv)
    requires IsType(msg, "audio") && (NoSession(current) || current.value !in m)
    ensures HandleSpec(m, msg, current, env) == (Reply(None, [ServerError("Send 'start' first", None)], false), m)
  {
  }

  /** Audio that fails a check gets that check's error under the session id and
      leaves the store, and so the chunk count, unchanged. */
  lemma AudioRejectedKeepsCount(m: Sessions, msg: Object, sid: string, env: WhisperEnv)
    requires IsType(msg, "audio") && sid != "" && sid in m && AudioChecks(msg).Err?
    ensures HandleSpec(m, msg, Some(sid), env)
      == (Reply(Some(sid), [ServerError(AudioChecks(msg).error.message, Some(sid))], false), m)
  {
  }

  /** Audio that passes every check raises the session's chunk count by exactly
      one, whatever the provider then does. */
  lemma AudioAcceptedCounts(m: Sessions, msg: Object, sid: string, env: WhisperEnv)
    requires IsType(msg, "audio") && sid != "" && sid in m && AudioChecks(msg).Ok?
    ensures var m1 := HandleSpec(m, msg, Some(sid), env).1;
      sid in m1 && m1[sid].audioChunks == m[sid].audioChunks + 1
  {
    DispatchAudio(m, msg, Some(sid), env);
    var (_, m1) := IncSpec(m, sid).value;
    match PickProvider(m[sid].config)
    case Err(_) =>
    case Ok(p) =>
      var audio := AudioChecks(msg).value;
      AudioHookKeepsCount(p, m1, AudioFrame(sid, audio.2, audio.0, audio.1, m1[sid].audioChunks), m[sid].config);
  }

  /** `handle` hands an audio message to the audio branch. */
  lemma DispatchAudio(m: Sessions, msg: Object, current: Option<string>, env: WhisperEnv)
    requires IsType(msg, "audio")
    ensures HandleSpec(m, msg, current, env) == AudioSpec(m, msg, current)
  {
    assert PyGet(msg, "type") != JStr("start");
  }

  /** `handle` hands a stop message to the stop branch. */
  lemma DispatchStop(m: Sessions, msg: Object, current: Option<string>, env: WhisperEnv)
    requires IsType(msg, "stop")
    ensures HandleSpec(m, msg, current, env) == StopSpec(m, current, env)
  {
    assert PyGet(msg, "type") != JStr("start") && PyGet(msg, "type") != JStr("audio");
  }

  /** No provider's `on_audio` touches the chunk count of the frame's session. */
  lemma AudioHookKeepsCount(p: ProviderId, m: Sessions, frame: AudioFrame, config: Object)
    requires frame.sessionId in m
    ensures var m2 := AudioHook(p, m, frame, config).1;
      frame.sessionId in m2 && m2[frame.sessionId].audioChunks == m[frame.sessionId].audioChunks
  {
  }

  /** No provider's `on_stop` adds or removes a session, or changes a session
      other than its own. */
  lemma StopHookFrame(p: ProviderId, m: Sessions, sid: string, config: Object, env: WhisperEnv)
    ensures var m1 := StopHook(p, m, sid, config, env).1;
      m1.Keys == m.Keys && forall k :: k in m && k != sid ==> m1[k] == m[k]
  {
  }

  /** With the cloud stub, the n-th accepted chunk of a session is answered with
      a partial naming n, plus a final numbered n / 3 when n is a multiple of 3. */
  lemma AudioCloudStub(m: Sessions, msg: Object, sid: string, env: WhisperEnv)
    requires IsType(msg, "audio") && sid != "" && sid in m && AudioChecks(msg).Ok?
    requires PickProvider(m[sid].config) == Ok(CloudStub)
    ensures var r := HandleSpec(m, msg, Some(sid), env).0;
      var n := m[sid].audioChunks + 1;
      r.sid == Some(sid) && !r.closed
      && r.out[0] == ServerPartial(sid, PartialText(n))
      && |r.out| == (if n % 3 == 0 then 2 else 1)
      && (n % 3 == 0 ==> r.out[1] == ServerFinal(sid, FinalText(n)))
  {
  }

  /** Stop always closes. Without a session it answers nothing; with one, the
      store no longer holds it and the answer carries its id. */
  lemma StopCloses(m: Sessions, msg: Object, current: Option<string>, env: WhisperEnv)
    requires IsType(msg, "stop")
    ensures var (r, m1) := HandleSpec(m, msg, current, env);
      r.closed
      && (NoSession(current) ==> r == Reply(None, [], true) && m1 == m)
      && (!NoSession(current) ==>
            (r.sid == current && current.value !in m1 && forall k :: k in m && k != current.value ==> k in m1 && m1[k] == m[k]))
  {
    DispatchStop(m, msg, current, env);
    if !NoSession(current) {
      var sid := current.value;
      var config := if sid in m then m[sid].config else map[];
      match PickProvider(config)
      case Err(_) =>
      case Ok(p) =>
        StopHookFrame(p, m, sid, config, env);
    }
  }

  /** A provider that is not implemented yet still ends the session with the
      mock final "(mock) stop". */
  lemma StopNotImplemented(m: Sessions, msg: Object, sid: string, env: WhisperEnv)
    requires IsType(msg, "stop") && sid != "" && sid in m
    requires PickProvider(m[sid].config) == Ok(CustomWsProxy) && ValidateCustomWs(m[sid].config).Ok?
    ensures HandleSpec(m, msg, Some(sid), env).0 == Reply(Some(sid), [ServerFinal(sid, "(mock) stop")], true)
  {
  }

  /** Through the router, whisper_cpp keeps every accepted chunk: after an
      accepted audio message the session's buffer is the old buffer followed by
      the decoded bytes, and nothing is sent back. */
  lemma WhisperCppBuffersAudio(m: Sessions, msg: Object, sid: string, env: WhisperEnv)
    requires IsType(msg, "audio") && sid != "" && sid in m && AudioChecks(msg).Ok?
    requires PickProvider(m[sid].config) == Ok(WhisperCppId)
    ensures var (r, m1) := HandleSpec(m, msg, Some(sid), env);
      r == Reply(Some(sid), [], false)
      && sid in m1 && m1[sid].audioBytes == m[sid].audioBytes + AudioChecks(msg).value.2
  {
  }

  /** The router over the shared store; whisper_cpp holds the same store. */
  class SttRouter {
    const store: SessionStore
    const whisper: WhisperCpp

    predicate Valid()
      reads this
    {
      whisper.store == store
    }

    constructor(store: SessionStore)
      ensures this.store == store && Valid()
    {
      this.store := store;
      whisper := new WhisperCpp(store);
    }

    method Handle(msg: Object, current: Option<string>, env: WhisperEnv) returns (r: Reply)
      requires Valid()
      modifies store
      ensures (r, store.sessions) == HandleSpec(old(store.sessions), msg, current, env)
    {
      var t := PyGet(msg, "type");
      if t == JStr("start") {
        r := HandleStart(msg);
      } else if t == JStr("audio") {
        r := HandleAudio(msg, current);
      } else if t == JStr("stop") {
        r := HandleStop(current, env);
      } else {
        var sid := if current.Some? && current.value != "" then current.value else "";
        r := Reply(Some(sid), [ServerError("Unknown message type", Some(sid))], false);
      }
    }

    method HandleStart(msg: Object) returns (r: Reply)
      requires Valid()
      modifies store
      ensures (r, store.sessions) == StartSpec(old(store.sessions), msg)
    {
      var sidJ := PyGet(msg, "session_id");
      if !PyTruthy(sidJ) || !sidJ.JStr? {
        return Reply(None, [ServerError("Missing session_id", None)], false);
      }
      var sid := sidJ.s;
      var cfgJ := PyGet(msg, "config");
      if cfgJ.JNull? {
        cfgJ := JObj(map[]);
      }
      if !cfgJ.JObj? {
        return Reply(None, [ServerError("Invalid config (must be object)", None)], false);
      }
      var config := cfgJ.fields;
      var _ := store.Create(sid, Some(config));
      var picked := PickProvider(config);
      if picked.Err? {
        store.Close(sid);
        return Reply(None, [ErrorTo(sid, picked.error)], false);
      }
      var hook := StartHook(picked.value, sid, config);
      if hook.Raised? {
        store.Close(sid);
        return Reply(None, [ErrorTo(sid, hook.error)], false);
      }
      r := Reply(Some(sid), hook.msgs, false);
    }

    method HandleAudio(msg: Object, current: Option<string>) returns (r: Reply)
      requires Valid()
      modifies store
      ensures (r, store.sessions) == AudioSpec(old(store.sessions), msg, current)
    {
      if current.None? || current.value == "" {
        return Reply(None, [ServerError("Send 'start' first", None)], false);
      }
      var sid := current.value;
      var sess := store.Get(sid);
      if sess.None? {
        return Reply(None, [ServerError("Send 'start' first", None)], false);
      }
      var checked := AudioChecks(msg);
      if checked.Err? {
        return Reply(Some(sid), [ErrorTo(sid, checked.error)], false);
      }
      var (fmt, sr, audio) := checked.value;
      var index := store.IncAudioCount(sid);
      if index.Err? {
        // the session was found above, so counting cannot fail
        assert false;
      }
      var picked := PickProvider(sess.value.config);
      if picked.Err? {
        return Reply(Some(sid), [ErrorTo(sid, picked.error)], false);
      }
      var frame := AudioFrame(sid, audio, fmt, sr, index.value);
      var hook := CallOnAudio(picked.value, frame, sess.value.config);
      match hook {
        case Out(msgs) => r := Reply(Some(sid), msgs, false);
        case Raised(e) =>
          if e.kind == NotImplementedError {
            r := Reply(Some(sid), [ServerError("Provider not implemented yet", Some(sid))], false);
          } else {
            r := Reply(Some(sid), [ErrorTo(sid, e)], false);
          }
      }
    }

    /** `provider.on_audio` of the picked provider. */
    method CallOnAudio(p: ProviderId, frame: AudioFrame, config: Object) returns (hook: Hook)
      requires Valid()
      modifies store
      ensures (hook, store.sessions) == AudioHook(p, old(store.sessions), frame, config)
    {
      match p {
        case CloudStub => hook := Out(CloudStubOnAudio(frame));
        case CustomWsProxy => hook := CustomWsHook(config);
        case WhisperSelfHosted => hook := SelfHostedHook(config);
        case WhisperCppId => hook := whisper.OnAudio(frame);
      }
    }

    /** `provider.on_stop` of the picked provider. */
    method CallOnStop(p: ProviderId, sid: string, config: Object, env: WhisperEnv) returns (hook: Hook)
      requires Valid()
      modifies store
      ensures (hook, store.sessions) == StopHook(p, old(store.sessions), sid, config, env)
    {
      match p {
        case CloudStub => hook := Out(CloudStubOnStop(sid));
        case CustomWsProxy => hook := CustomWsHook(config);
        case WhisperSelfHosted => hook := SelfHostedHook(config);
        case WhisperCppId =>
          var run;
          hook, run := whisper.OnStop(sid, config, env);
      }
    }

    method HandleStop(current: Option<string>, env: WhisperEnv) returns (r: Reply)
      requires Valid()
      modifies store
      ensures (r, store.sessions) == StopSpec(old(store.sessions), current, env)
    {
      if current.None? || current.value == "" {
        return Reply(None, [], true);
      }
      var sid := current.value;
      var sess := store.Get(sid);
      var config := if sess.Some? then sess.value.config else map[];
      var out: seq<ServerMessage>;
      var picked := PickProvider(config);
      if picked.Err? {
        out := [ErrorTo(sid, picked.error)];
      } else {
        var hook := CallOnStop(picked.value, sid, config, env);
        match hook {
          case Out(msgs) => out := msgs;
          case Raised(e) =>
            if e.kind == NotImplementedError {
              out := [ServerFinal(sid, "(mock) stop")];
            } else {
              out := [ErrorTo(sid, e)];
            }
        }
      }
      store.Close(sid);
      r := Reply(Some(sid), out, true);
    }
  }
}
