/** The desktop's session controller (`session.controller.ts`): one actor that
    reacts to the socket client's messages and status changes, starts capture
    once the backend is ready, keeps one streaming transcript entry and tears
    everything down on a final, an error or a lost connection.

    The collaborators (the session store, the transcript, audio capture and the
    socket client) are recorded as calls in one log. What they report back is a
    parameter: the session store's status, the id the transcript gives a new
    entry, and the fresh session id. `start` waits for the next `connected`
    status before sending `start`; the configurations still waiting are kept in
    `pending`, and the `connected` event sends them. */
module SessionControl {
  import opened Wrappers
  import opened Json
  import opened Base64
  import opened Pcm16Base64
  import DesktopSession
  import SttWsClient

  type SessionStatus = DesktopSession.SessionStatus
  type EntryState = DesktopSession.EntryState

  datatype Effect =
    | SessionStart                                      // session.startSession()
    | SessionSetProcessing                              // session.setProcessing()
    | SessionStop                                       // session.stopSession()
    | WsConnect                                         // sttWs.connect()
    | WsStart(sessionId: string, config: Object)        // sttWs.start(...)
    | WsAudio(sampleRate: int, dataB64: string)         // sttWs.audio("pcm16", ...)
    | WsStop                                            // sttWs.stop()
    | AudioStart(sampleRate: int)                       // audio.start(onChunk, sampleRate)
    | AudioStop                                         // audio.stop()
    | ChatStreaming(text: Option<Json>, entrySessionId: Option<string>)  // chat.addSystemStreaming
    | ChatUpdate(id: string, newText: Option<Json>, state: EntryState)  // chat.updateText
    | ChatFinal(finalText: Option<Json>, finalSessionId: Option<string>)  // chat.addSystemFinal
    | ChatError(shown: Json, errorSessionId: Option<string>)  // chat.addSystemError(`❌ ${shown}`)

  /** The settings `start` reads: the selected provider, the sample rate, the
      format and the language (`None` is null or undefined). */
  datatype ControllerSettings = ControllerSettings(provider: string, sampleRate: int, format: string, language: Option<string>)

  datatype Ctl = Ctl(sessionId: Option<string>, streamingMsgId: Option<string>, audioRunning: bool,
                     pending: seq<Object>, log: seq<Effect>)

  const Initial := Ctl(None, None, false, [], [])

  /** A configuration waits only while a session id is set. */
  predicate Consistent(c: Ctl) {
    c.pending != [] ==> c.sessionId.Some?
  }

  function SttConfig(s: ControllerSettings): Object {
    map["provider" := JStr(s.provider), "sample_rate" := JInt(s.sampleRate), "format" := JStr(s.format),
        "language" := JStr(s.language.GetOr("en"))]
  }

  /** `!this.streamingMsgId`: no entry, or an empty id. */
  predicate NoEntry(id: Option<string>) {
    id.None? || id.value == ""
  }

  /** A message addressed to another session: its `session_id` is set (truthy)
      and differs from the active one. */
  predicate Foreign(m: Json, sessionId: Option<string>) {
    var sid := JsGet(m, "session_id");
    JsTruthy(sid) && (sessionId.None? || sid.value != JStr(sessionId.value))
  }

  function StartSpec(c: Ctl, newSessionId: string, s: ControllerSettings): Ctl {
    Ctl(Some(newSessionId), None, false, c.pending + [SttConfig(s)], c.log + [SessionStart] + [WsConnect])
  }

  /** The `start` frames sent when the connection comes up: one per waiting
      configuration, all under the session id current at that moment. */
  function Resumed(pending: seq<Object>, sessionId: string): (r: seq<Effect>)
    ensures |r| == |pending|
    ensures forall i :: 0 <= i < |pending| ==> r[i] == WsStart(sessionId, pending[i])
  {
    if pending == [] then [] else Resumed(pending[..|pending| - 1], sessionId) + [WsStart(sessionId, pending[|pending| - 1])]
  }

  function ForceStopSpec(c: Ctl): Ctl {
    c.(audioRunning := false, streamingMsgId := None, log := c.log + [AudioStop] + [SessionStop])
  }

  function StopSpec(c: Ctl, status: SessionStatus): Ctl {
    if status != DesktopSession.Recording then c
    else c.(log := c.log + [SessionSetProcessing] + [AudioStop] + [WsStop])
  }

  function StatusSpec(c: Ctl, event: SttWsClient.ConnStatus, status: SessionStatus): Ctl
    requires Consistent(c)
  {
    if event == SttWsClient.Disconnected && status != DesktopSession.Idle then ForceStopSpec(c)
    else if event == SttWsClient.Connected && c.pending != [] then
      c.(pending := [], log := c.log + Resumed(c.pending, c.sessionId.value))
    else c
  }

  function StartAudioSpec(c: Ctl, sampleRate: int): Ctl {
    if c.audioRunning then c else c.(audioRunning := true, log := c.log + [AudioStart(sampleRate)])
  }

  /** The capture callback: audio is sent only once a session id exists. */
  function ChunkSpec(c: Ctl, pcm16: Int16View, sampleRate: int): Ctl
    requires pcm16.Valid()
  {
    if c.sessionId.None? || c.sessionId.value == "" then c
    else c.(log := c.log + [WsAudio(sampleRate, Encode(pcm16.Bytes()))])
  }

  /** `onSttMsg`. `sampleRate` is the configured rate `ready` starts capture at;
      `newEntryId` is the id the transcript gives an entry added now. */
  function MessageSpec(c: Ctl, m: Json, sampleRate: int, newEntryId: string): Ctl {
    if Foreign(m, c.sessionId) then c
    else
      var t := JsGet(m, "type");
      if t == Some(JStr("ready")) then StartAudioSpec(c, sampleRate)
      else if t == Some(JStr("partial")) then
        if NoEntry(c.streamingMsgId) then
          c.(streamingMsgId := Some(newEntryId), log := c.log + [ChatStreaming(JsGet(m, "text"), c.sessionId)])
        else c.(log := c.log + [ChatUpdate(c.streamingMsgId.value, JsGet(m, "text"), DesktopSession.Streaming)])
      else if t == Some(JStr("final")) then
        if NoEntry(c.streamingMsgId) then ForceStopSpec(c.(log := c.log + [ChatFinal(JsGet(m, "text"), c.sessionId)]))
        else ForceStopSpec(c.(log := c.log + [ChatUpdate(c.streamingMsgId.value, JsGet(m, "text"), DesktopSession.FinalEntry)]))
      else if t == Some(JStr("error")) then
        ForceStopSpec(c.(log := c.log + [ChatError(Coalesce(JsGet(m, "message"), JStr("STT error")), c.sessionId)]))
      else c
  }

  class SessionController {
    var sessionId: Option<string>
    var streamingMsgId: Option<string>
    var audioRunning: bool
    var pending: seq<Object>
    var log: seq<Effect>

    function State(): Ctl
      reads this
    {
      Ctl(sessionId, streamingMsgId, audioRunning, pending, log)
    }

    predicate Valid()
      reads this
    {
      Consistent(State())
    }

    constructor()
      ensures State() == Initial && Valid()
    {
      sessionId, streamingMsgId, audioRunning, pending, log := None, None, false, [], [];
    }

    /** The constructor's subscription to `status$`, receiving `event` while the
        session store's status is `status`; and the `start` calls waiting for
        `connected`, which resume on it. */
    method OnStatus(event: SttWsClient.ConnStatus, status: SessionStatus)
      requires Valid()
      modifies this
      ensures Valid()
      ensures State() == StatusSpec(old(State()), event, status)
    {
      if event == SttWsClient.Disconnected && status != DesktopSession.Idle {
        ForceStop();
        return;
      }
      if event == SttWsClient.Connected && pending != [] {
        var sid := sessionId.value;
        var i := 0;
        while i < |pending|
          invariant 0 <= i <= |pending|
          invariant pending == old(pending) && sessionId == old(sessionId)
          invariant streamingMsgId == old(streamingMsgId) && audioRunning == old(audioRunning)
          invariant log == old(log) + Resumed(pending[..i], sid)
        {
          assert pending[..i + 1][..i] == pending[..i];
          log := log + [WsStart(sid, pending[i])];
          i := i + 1;
        }
        assert pending[..i] == pending;
        pending := [];
      }
    }

    method TogglePlay(status: SessionStatus, newSessionId: string, s: ControllerSettings)
      requires Valid()
      modifies this
      ensures Valid()
      ensures State() == (if status == DesktopSession.Recording then StopSpec(old(State()), status)
                          else StartSpec(old(State()), newSessionId, s))
    {
      if status == DesktopSession.Recording {
        Stop(status);
      } else {
        Start(newSessionId, s);
      }
    }

    /** The part of `start` that runs before it waits for `connected`. */
    method Start(newSessionId: string, s: ControllerSettings)
      requires Valid()
      modifies this
      ensures Valid()
      ensures State() == StartSpec(old(State()), newSessionId, s)
    {
      sessionId := Some(newSessionId);
      audioRunning := false;
      streamingMsgId := None;
      log := log + [SessionStart];
      log := log + [WsConnect];
      pending := pending + [SttConfig(s)];
    }

    method Stop(status: SessionStatus)
      requires Valid()
      modifies this
      ensures Valid()
      ensures State() == StopSpec(old(State()), status)
    {
      if status != DesktopSession.Recording {
        return;
      }
      log := log + [SessionSetProcessing];
      log := log + [AudioStop];
      log := log + [WsStop];
    }

    method ForceStop()
      requires Valid()
      modifies this
      ensures Valid()
      ensures State() == ForceStopSpec(old(State()))
    {
      audioRunning := false;
      streamingMsgId := None;
      log := log + [AudioStop];
      log := log + [SessionStop];
    }

    method StartAudioIfNeeded(sampleRate: int)
      requires Valid()
      modifies this
      ensures Valid()
      ensures State() == StartAudioSpec(old(State()), sampleRate)
    {
      if audioRunning {
        return;
      }
      audioRunning := true;
      log := log + [AudioStart(sampleRate)];
    }

    /** The callback handed to `audio.start`. */
    method OnChunk(pcm16: Int16View, sampleRate: int)
      requires Valid() && pcm16.Valid()
      modifies this
      ensures Valid()
      ensures State() == ChunkSpec(old(State()), pcm16, sampleRate)
    {
      if sessionId.None? || sessionId.value == "" {
        return;
      }
      var b64 := Pcm16ToBase64(pcm16);
      log := log + [WsAudio(sampleRate, b64)];
    }

    method OnSttMsg(m: Json, sampleRate: int, newEntryId: string)
      requires Valid()
      modifies this
      ensures Valid()
      ensures State() == MessageSpec(old(State()), m, sampleRate, newEntryId)
    {
      var sid := JsGet(m, "session_id");
      if JsTruthy(sid) && (sessionId.None? || sid.value != JStr(sessionId.value)) {
        return;
      }
      var t := JsGet(m, "type");
      if t == Some(JStr("ready")) {
        StartAudioIfNeeded(sampleRate);
      } else if t == Some(JStr("partial")) {
        if streamingMsgId.None? || streamingMsgId.value == "" {
          log := log + [ChatStreaming(JsGet(m, "text"), sessionId)];
          streamingMsgId := Some(newEntryId);
        } else {
          log := log + [ChatUpdate(streamingMsgId.value, JsGet(m, "text"), DesktopSession.Streaming)];
        }
      } else if t == Some(JStr("final")) {
        if streamingMsgId.None? || streamingMsgId.value == "" {
          log := log + [ChatFinal(JsGet(m, "text"), sessionId)];
        } else {
          log := log + [ChatUpdate(streamingMsgId.value, JsGet(m, "text"), DesktopSession.FinalEntry)];
        }
        ForceStop();
      } else if t == Some(JStr("error")) {
        log := log + [ChatError(Coalesce(JsGet(m, "message"), JStr("STT error")), sessionId)];
        ForceStop();
      }
    }
  }

  // ------------------------------------------------------------------ lemmas

  /** A message for another session changes nothing; one without a
      `session_id`, or with an empty one, is handled. */
  lemma ForeignIgnored(c: Ctl, m: Json, sampleRate: int, e: string)
    ensures Foreign(m, c.sessionId) ==> MessageSpec(c, m, sampleRate, e) == c
    ensures !JsTruthy(JsGet(m, "session_id")) ==> !Foreign(m, c.sessionId)
    ensures c.sessionId.Some? && JsGet(m, "session_id") == Some(JStr(c.sessionId.value)) ==> !Foreign(m, c.sessionId)
  {
  }

  /** However many `ready` messages arrive, capture starts once: after the first
      one `audioRunning` is set, and later ones change nothing. */
  lemma ReadyStartsCaptureOnce(c: Ctl, m1: Json, m2: Json, sr1: int, sr2: int, e1: string, e2: string)
    requires !Foreign(m1, c.sessionId) && JsGet(m1, "type") == Some(JStr("ready"))
    requires JsGet(m2, "type") == Some(JStr("ready"))
    ensures var c1 := MessageSpec(c, m1, sr1, e1);
      c1.audioRunning && MessageSpec(c1, m2, sr2, e2) == c1
      && (c.audioRunning ==> c1 == c)
      && (!c.audioRunning ==> c1.log == c.log + [AudioStart(sr1)])
  {
  }

  /** A partial adds a streaming entry only when there is none, and otherwise
      updates the same entry, whose id it keeps. */
  lemma PartialKeepsOneEntry(c: Ctl, m: Json, sr: int, e: string)
    requires !Foreign(m, c.sessionId) && JsGet(m, "type") == Some(JStr("partial"))
    ensures var r := MessageSpec(c, m, sr, e);
      r.sessionId == c.sessionId && r.audioRunning == c.audioRunning && |r.log| == |c.log| + 1
      && (NoEntry(c.streamingMsgId) ==> r.streamingMsgId == Some(e) && r.log[|c.log|] == ChatStreaming(JsGet(m, "text"), c.sessionId))
      && (!NoEntry(c.streamingMsgId) ==> r.streamingMsgId == c.streamingMsgId
                                         && r.log[|c.log|] == ChatUpdate(c.streamingMsgId.value, JsGet(m, "text"), DesktopSession.Streaming))
  {
  }

  function CountStreaming(es: seq<Effect>): nat {
    if es == [] then 0 else CountStreaming(es[..|es| - 1]) + (if es[|es| - 1].ChatStreaming? then 1 else 0)
  }

  lemma {:induction false} CountStreamingAppend(a: seq<Effect>, b: seq<Effect>)
    ensures CountStreaming(a + b) == CountStreaming(a) + CountStreaming(b)
  {
    if b != [] {
      assert (a + b)[..|a + b| - 1] == a + b[..|b| - 1];
      CountStreamingAppend(a, b[..|b| - 1]);
    } else {
      assert a + b == a;
    }
  }

  /** Partials in a row, each given a non-empty entry id, create at most one
      streaming entry. */
  function Partials(c: Ctl, ms: seq<Json>, ids: seq<string>): Ctl
    requires |ms| == |ids|
    decreases |ms|
  {
    if ms == [] then c else Partials(MessageSpec(c, ms[0], 0, ids[0]), ms[1..], ids[1..])
  }

  lemma {:induction false} PartialsCreateAtMostOneEntry(c: Ctl, ms: seq<Json>, ids: seq<string>)
    requires |ms| == |ids|
    requires forall i :: 0 <= i < |ms| ==> !Foreign(ms[i], c.sessionId) && JsGet(ms[i], "type") == Some(JStr("partial"))
    requires forall i :: 0 <= i < |ids| ==> ids[i] != ""
    decreases |ms|
    ensures var r := Partials(c, ms, ids);
      c.log <= r.log && r.sessionId == c.sessionId
      && CountStreaming(r.log[|c.log|..]) <= (if NoEntry(c.streamingMsgId) then 1 else 0)
      && (ms != [] ==> !NoEntry(r.streamingMsgId))
  {
    if ms != [] {
      var c1 := MessageSpec(c, ms[0], 0, ids[0]);
      PartialKeepsOneEntry(c, ms[0], 0, ids[0]);
      PartialsCreateAtMostOneEntry(c1, ms[1..], ids[1..]);
      var r := Partials(c1, ms[1..], ids[1..]);
      assert r.log[|c.log|..] == c1.log[|c.log|..] + r.log[|c1.log|..];
      CountStreamingAppend(c1.log[|c.log|..], r.log[|c1.log|..]);
      assert c1.log[|c.log|..] == [c1.log[|c.log|]];
      assert CountStreaming([c1.log[|c.log|]]) == (if c1.log[|c.log|].ChatStreaming? then 1 else 0);
      if ms[1..] == [] {
        assert r == c1;
      }
    } else {
      assert c.log[|c.log|..] == [];
    }
  }

  /** A final settles the entry (or adds one final entry when there is none),
      then tears down: capture stopped, the store stopped, no entry, capture
      flagged off. */
  lemma FinalSettlesAndStops(c: Ctl, m: Json, sr: int, e: string)
    requires !Foreign(m, c.sessionId) && JsGet(m, "type") == Some(JStr("final"))
    ensures var r := MessageSpec(c, m, sr, e);
      !r.audioRunning && r.streamingMsgId.None? && r.sessionId == c.sessionId && r.pending == c.pending
      && |r.log| == |c.log| + 3 && r.log[|c.log| + 1..] == [AudioStop, SessionStop]
      && r.log[|c.log|] == (if NoEntry(c.streamingMsgId) then ChatFinal(JsGet(m, "text"), c.sessionId)
                           else ChatUpdate(c.streamingMsgId.value, JsGet(m, "text"), DesktopSession.FinalEntry))
  {
  }

  /** An error adds exactly one error entry, with the message or "STT error",
      and tears down like a final. */
  lemma ErrorReportsAndStops(c: Ctl, m: Json, sr: int, e: string)
    requires !Foreign(m, c.sessionId) && JsGet(m, "type") == Some(JStr("error"))
    ensures var r := MessageSpec(c, m, sr, e);
      !r.audioRunning && r.streamingMsgId.None?
      && r.log == c.log + [ChatError(Coalesce(JsGet(m, "message"), JStr("STT error")), c.sessionId), AudioStop, SessionStop]
  {
  }

  /** Losing the connection while a session is active forces a stop; while the
      store is idle it changes nothing. */
  lemma DisconnectForcesStop(c: Ctl, status: SessionStatus)
    requires Consistent(c)
    ensures status != DesktopSession.Idle ==> StatusSpec(c, SttWsClient.Disconnected, status) == ForceStopSpec(c)
    ensures status == DesktopSession.Idle ==> StatusSpec(c, SttWsClient.Disconnected, status) == c
    ensures !ForceStopSpec(c).audioRunning && ForceStopSpec(c).streamingMsgId.None?
  {
  }

  /** `stop` acts only while recording: processing first, then capture is
      stopped, then `stop` is sent. */
  lemma StopOnlyWhileRecording(c: Ctl, status: SessionStatus)
    ensures status != DesktopSession.Recording ==> StopSpec(c, status) == c
    ensures status == DesktopSession.Recording ==>
      StopSpec(c, status).log == c.log + [SessionSetProcessing, AudioStop, WsStop]
  {
  }

  /** `start` followed by `connected` sends exactly one `start` frame with the
      configuration read from the settings (language "en" by default), under
      the new session id. */
  lemma StartThenConnected(c: Ctl, sid: string, s: ControllerSettings, status: SessionStatus)
    requires c.pending == []
    ensures var c1 := StartSpec(c, sid, s);
      Consistent(c1)
      && var c2 := StatusSpec(c1, SttWsClient.Connected, status);
         c2.pending == [] && c2.log == c.log + [SessionStart, WsConnect, WsStart(sid, SttConfig(s))]
         && SttConfig(s)["language"] == JStr(if s.language.Some? then s.language.value else "en")
  {
    var c1 := StartSpec(c, sid, s);
    assert c1.pending == [SttConfig(s)];
    assert Resumed(c1.pending, sid) == [WsStart(sid, SttConfig(s))];
  }
}
