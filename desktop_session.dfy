/** The desktop's session store (`session.store.ts`): a recording session that
    captures system audio, streams it to the speech-to-text socket and keeps one
    transcript entry up to date. The services it drives (the speech-to-text
    facade, audio capture, the transcript) are recorded as calls in one log;
    what those calls return (whether the connection came up, the new entry's id)
    and the random session id are parameters. */
module DesktopSession {
  import opened Wrappers
  import opened Json
  import opened Base64
  import opened Pcm16Base64
  import AudioCapture

  datatype SessionStatus = Idle | Recording | Paused | Processing

  /** The display state `updateText` gives a transcript entry. */
  datatype EntryState = Streaming | FinalEntry | ErrorEntry

  /** The calls the store makes into the services it uses. */
  datatype Effect =
    | SystemError(text: string)                                 // chat.addSystemError
    | SystemStreaming(text: string, sessionId: string)          // chat.addSystemStreaming
    | UpdateText(id: string, newText: Option<Json>, state: EntryState)  // chat.updateText
    | FinalizeSystem(id: string, finalText: Option<Json>)          // chat.finalizeSystem
    | SttConnect                                                // stt.connect
    | SttStart(sessionId: string, config: Object)               // stt.start
    | SttAudio(dataB64: string, sampleRate: int)                // stt.sendAudioChunk
    | SttStop                                                   // stt.stop
    | SttDisconnect                                             // stt.disconnect
    | CaptureStart(targetSampleRate: int, mode: AudioCapture.CaptureMode, systemSourceId: string)  // audio.start
    | CaptureStop                                               // audio.stop
    | Subscribe(entryId: string)                                // stt.messages$.subscribe
    | Unsubscribe                                               // sub.unsubscribe

  /** The parts of the settings `startSession` reads; `None` is null or undefined. */
  datatype SessionSettings = SessionSettings(systemSourceId: Option<string>, provider: Option<string>, appLanguage: Option<string>)

  /** The store's state, the handler subscription it holds (named by the entry
      the handler writes to), and the calls made so far. */
  datatype Session = Session(status: SessionStatus, sessionId: Option<string>, systemMsgId: Option<string>,
                             sub: Option<string>, log: seq<Effect>)

  const Initial := Session(Idle, None, None, None, [])

  const NoSourceText := "Elige una fuente de audio del sistema en Settings."
  const ListeningText := "Escuchando…"

  /** The configuration handed to `stt.start`. */
  function StartConfig(settings: SessionSettings): Object {
    map["provider" := JStr(settings.provider.GetOr("whisper_selfhosted")),
        "language" := JStr(settings.appLanguage.GetOr("es")),
        "sample_rate" := JInt(16000),
        "format" := JStr("pcm16")]
  }

  predicate HasSource(settings: SessionSettings) {
    settings.systemSourceId.Some? && settings.systemSourceId.value != ""
  }

  /** `startSession`. `connected` says whether `stt.connect()` resolved; when it
      rejects, nothing after it runs. */
  function StartSpec(st: Session, settings: SessionSettings, connected: bool, newSessionId: string, newMsgId: string): Session {
    if st.status == Recording then st
    else if !HasSource(settings) then st.(log := st.log + [SystemError(NoSourceText)])
    else if !connected then st.(log := st.log + [SttConnect])
    else
      Session(Recording, Some(newSessionId), Some(newMsgId), Some(newMsgId),
              st.log + [SttConnect] + [SystemStreaming(ListeningText, newSessionId)] + [Subscribe(newMsgId)]
              + [SttStart(newSessionId, StartConfig(settings))]
              + [CaptureStart(16000, AudioCapture.System, settings.systemSourceId.value)])
  }

  /** After a final or an error: the state is reset, the socket disconnected
      and the handler unsubscribed. */
  function Ended(st: Session): Session {
    Session(Idle, None, None, None, st.log + [SttDisconnect] + [Unsubscribe])
  }

  /** The subscribed handler receiving message `m`. */
  function DeliverSpec(st: Session, m: Json): Session {
    if st.sub.None? then st
    else
      var id := st.sub.value;
      var t := JsGet(m, "type");
      if t == Some(JStr("partial")) then st.(log := st.log + [UpdateText(id, JsGet(m, "text"), Streaming)])
      else if t == Some(JStr("final")) then Ended(st.(log := st.log + [FinalizeSystem(id, JsGet(m, "text"))]))
      else if t == Some(JStr("error")) then
        Ended(st.(log := st.log + [UpdateText(id, Some(Coalesce(JsGet(m, "message"), JStr("Error STT"))), ErrorEntry)]))
      else st
  }

  /** `onChunk`, the capture callback: audio is forwarded only while recording. */
  function ChunkSpec(st: Session, pcm16: Int16View, sampleRate: int): Session
    requires pcm16.Valid()
  {
    if st.status != Recording then st
    else st.(log := st.log + [SttAudio(Encode(pcm16.Bytes()), sampleRate)])
  }

  function StopSpec(st: Session): Session {
    if st.status != Recording then st
    else st.(status := Processing, log := st.log + [CaptureStop] + [SttStop])
  }

  class SessionStore {
    var status: SessionStatus
    var sessionId: Option<string>
    var systemMsgId: Option<string>
    var sub: Option<string>
    var log: seq<Effect>

    function State(): Session
      reads this
    {
      Session(status, sessionId, systemMsgId, sub, log)
    }

    constructor()
      ensures State() == Initial
    {
      status, sessionId, systemMsgId, sub, log := Idle, None, None, None, [];
    }

    method StartSession(settings: SessionSettings, connected: bool, newSessionId: string, newMsgId: string)
      modifies this
      ensures State() == StartSpec(old(State()), settings, connected, newSessionId, newMsgId)
    {
      if status == Recording {
        return;
      }
      if settings.systemSourceId.None? || settings.systemSourceId.value == "" {
        log := log + [SystemError(NoSourceText)];
        return;
      }
      var systemSourceId := settings.systemSourceId.value;
      log := log + [SttConnect];
      if !connected {
        return;
      }
      status, sessionId := Recording, Some(newSessionId);
      log := log + [SystemStreaming(ListeningText, newSessionId)];
      systemMsgId := Some(newMsgId);
      log := log + [Subscribe(newMsgId)];
      sub := Some(newMsgId);
      log := log + [SttStart(newSessionId, StartConfig(settings))];
      log := log + [CaptureStart(16000, AudioCapture.System, systemSourceId)];
    }

    /** The handler `startSession` subscribed, receiving `m`. */
    method Deliver(m: Json)
      modifies this
      ensures State() == DeliverSpec(old(State()), m)
    {
      if sub.None? {
        return;
      }
      var id := sub.value;
      var t := JsGet(m, "type");
      if t == Some(JStr("partial")) {
        log := log + [UpdateText(id, JsGet(m, "text"), Streaming)];
      } else if t == Some(JStr("final")) {
        log := log + [FinalizeSystem(id, JsGet(m, "text"))];
        status, sessionId, systemMsgId := Idle, None, None;
        log := log + [SttDisconnect];
        log := log + [Unsubscribe];
        sub := None;
      } else if t == Some(JStr("error")) {
        log := log + [UpdateText(id, Some(Coalesce(JsGet(m, "message"), JStr("Error STT"))), ErrorEntry)];
        status, sessionId, systemMsgId := Idle, None, None;
        log := log + [SttDisconnect];
        log := log + [Unsubscribe];
        sub := None;
      }
    }

    method OnChunk(pcm16: Int16View, sampleRate: int)
      requires pcm16.Valid()
      modifies this
      ensures State() == ChunkSpec(old(State()), pcm16, sampleRate)
    {
      if status != Recording {
        return;
      }
      var b64 := Pcm16ToBase64(pcm16);
      log := log + [SttAudio(b64, sampleRate)];
    }

    method StopSession()
      modifies this
      ensures State() == StopSpec(old(State()))
    {
      if status != Recording {
        return;
      }
      status := Processing;
      log := log + [CaptureStop];
      log := log + [SttStop];
    }

    method SetProcessing()
      modifies this
      ensures State() == old(State()).(status := Processing)
    {
      status := Processing;
    }
  }

  // ------------------------------------------------------------------ lemmas

  /** Without a system source the store reports one error and does nothing
      else: no connection, no status change. */
  lemma StartNeedsSource(st: Session, settings: SessionSettings, connected: bool, sid: string, mid: string)
    requires st.status != Recording && !HasSource(settings)
    ensures var r := StartSpec(st, settings, connected, sid, mid);
      r.status == st.status && r.sessionId == st.sessionId && r.sub == st.sub
      && r.log == st.log + [SystemError(NoSourceText)] && SttConnect !in r.log[|st.log|..]
  {
    var r := StartSpec(st, settings, connected, sid, mid);
    assert r.log[|st.log|..] == [SystemError(NoSourceText)];
  }

  /** A start while recording changes nothing. */
  lemma StartWhileRecording(st: Session, settings: SessionSettings, connected: bool, sid: string, mid: string)
    requires st.status == Recording
    ensures StartSpec(st, settings, connected, sid, mid) == st
  {
  }

  /** Once connected the session records under the new id, and the calls come in
      this order: connect, create the streaming entry, subscribe, start the
      transcription with the defaults filled in, start capturing the chosen
      source at 16000 Hz. */
  lemma StartOrder(st: Session, settings: SessionSettings, sid: string, mid: string)
    requires st.status != Recording && HasSource(settings)
    ensures var r := StartSpec(st, settings, true, sid, mid);
      r.status == Recording && r.sessionId == Some(sid) && r.systemMsgId == Some(mid) && r.sub == Some(mid)
      && r.log[|st.log|..] == [SttConnect, SystemStreaming(ListeningText, sid), Subscribe(mid),
                               SttStart(sid, StartConfig(settings)),
                               CaptureStart(16000, AudioCapture.System, settings.systemSourceId.value)]
    ensures var c := StartConfig(settings);
      c["provider"] == JStr(if settings.provider.Some? then settings.provider.value else "whisper_selfhosted")
      && c["language"] == JStr(if settings.appLanguage.Some? then settings.appLanguage.value else "es")
  {
  }

  /** A partial updates the one entry the handler owns, in the streaming state,
      and changes nothing else. */
  lemma PartialUpdatesEntry(st: Session, m: Json)
    requires st.sub.Some? && JsGet(m, "type") == Some(JStr("partial"))
    ensures var r := DeliverSpec(st, m);
      r.(log := st.log) == st && r.log == st.log + [UpdateText(st.sub.value, JsGet(m, "text"), Streaming)]
  {
  }

  /** A final settles the entry with the final text, an error marks it with the
      message (or "Error STT"); both end the session: idle, no ids, no
      subscription, and the socket disconnected. */
  lemma FinalOrErrorEnds(st: Session, m: Json)
    requires st.sub.Some?
    requires JsGet(m, "type") == Some(JStr("final")) || JsGet(m, "type") == Some(JStr("error"))
    ensures var r := DeliverSpec(st, m);
      r.status == Idle && r.sessionId.None? && r.systemMsgId.None? && r.sub.None?
      && |r.log| == |st.log| + 3 && r.log[|st.log| + 1..] == [SttDisconnect, Unsubscribe]
      && r.log[|st.log|] == (if JsGet(m, "type") == Some(JStr("final")) then FinalizeSystem(st.sub.value, JsGet(m, "text"))
                            else UpdateText(st.sub.value, Some(Coalesce(JsGet(m, "message"), JStr("Error STT"))), ErrorEntry))
  {
  }

  /** Audio is forwarded, base64-encoded, exactly while recording; the backend
      decodes what is sent back to the samples' bytes. */
  lemma ChunkOnlyWhileRecording(st: Session, pcm16: Int16View, sampleRate: int)
    requires pcm16.Valid()
    ensures var r := ChunkSpec(st, pcm16, sampleRate);
      r.(log := st.log) == st
      && (st.status == Recording <==> |r.log| == |st.log| + 1)
      && (st.status == Recording ==> r.log[|st.log|].SttAudio? && Decode(r.log[|st.log|].dataB64) == Some(pcm16.Bytes()))
  {
    if st.status == Recording {
      DecodeEncode(pcm16.Bytes());
    }
  }

  /** `stopSession` acts only while recording: it moves to processing, stops the
      capture, then asks the backend to stop. */
  lemma StopOnlyFromRecording(st: Session)
    ensures var r := StopSpec(st);
      (st.status != Recording ==> r == st)
      && (st.status == Recording ==> r.status == Processing && r.sessionId == st.sessionId
                                     && r.log == st.log + [CaptureStop, SttStop])
  {
  }

  /** A whole session: start, then the backend's final, returns the store to
      idle with no subscription, having disconnected. */
  lemma StartThenFinal(settings: SessionSettings, sid: string, mid: string, text: Json)
    requires HasSource(settings)
    ensures var s1 := StartSpec(Initial, settings, true, sid, mid);
      var s2 := DeliverSpec(s1, JObj(map["type" := JStr("final"), "session_id" := JStr(sid), "text" := text]));
      s2.status == Idle && s2.sub.None? && s2.sessionId.None?
      && s2.log[5] == FinalizeSystem(mid, Some(text)) && s2.log[|s2.log| - 2] == SttDisconnect
  {
    var m := JObj(map["type" := JStr("final"), "session_id" := JStr(sid), "text" := text]);
    assert JsGet(m, "type") == Some(JStr("final"));
    assert JsGet(m, "text") == Some(text);
  }
}
