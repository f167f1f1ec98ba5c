/** The messages of the speech-to-text socket protocol, declared identically on
    the desktop (`stt-ws.model.ts`) and the backend (`ws_protocol.py`), their JSON
    shapes on the wire, and the backend's `b64_to_bytes`. */
module SttWire {
  import opened Wrappers
  import opened Json
  import Base64

  /** The only audio format either side names. */
  datatype AudioFormat = Pcm16

  /** What the desktop sends: exactly three variants. */
  datatype ClientMessage =
    | ClientStart(sessionId: string, config: Option<Object>)
    | ClientAudio(format: AudioFormat, sampleRate: int, data: string)
    | ClientStop

  /** What the backend sends: exactly four variants. Only an error may lack a
      session id. */
  datatype ServerMessage =
    | ServerReady(sessionId: string)
    | ServerPartial(sessionId: string, text: string)
    | ServerFinal(sessionId: string, text: string)
    | ServerError(message: string, errorSessionId: Option<string>)

  /** A text frame as either end receives it: not JSON at all, or the JSON value
      it parses to. */
  datatype Frame = Unparseable | Parsed(value: Json)

  function FormatName(f: AudioFormat): string {
    "pcm16"
  }

  /** The JSON object a client message is sent as; `config` appears only when given. */
  function ClientToJson(m: ClientMessage): Object {
    match m
    case ClientStart(sid, cfg) =>
      var base := map["type" := JStr("start"), "session_id" := JStr(sid)];
      if cfg.Some? then base["config" := JObj(cfg.value)] else base
    case ClientAudio(f, sr, data) =>
      map["type" := JStr("audio"), "format" := JStr(FormatName(f)), "sample_rate" := JInt(sr), "data" := JStr(data)]
    case ClientStop =>
      map["type" := JStr("stop")]
  }

  /** The object shapes the declarations allow for a client message, and nothing else. */
  function ParseClient(o: Object): Option<ClientMessage> {
    if Get(o, "type") == Some(JStr("start")) then
      if o.Keys == {"type", "session_id"} && o["session_id"].JStr? then
        Some(ClientStart(o["session_id"].s, None))
      else if o.Keys == {"type", "session_id", "config"} && o["session_id"].JStr? && o["config"].JObj? then
        Some(ClientStart(o["session_id"].s, Some(o["config"].fields)))
      else None
    else if Get(o, "type") == Some(JStr("audio")) then
      if o.Keys == {"type", "format", "sample_rate", "data"} && o["format"] == JStr("pcm16")
         && o["sample_rate"].JInt? && o["data"].JStr?
      then Some(ClientAudio(Pcm16, o["sample_rate"].i, o["data"].s))
      else None
    else if Get(o, "type") == Some(JStr("stop")) && o.Keys == {"type"} then
      Some(ClientStop)
    else None
  }

  /** The JSON object a server message is sent as; an error carries `session_id`
      only when it has one. */
  function ServerToJson(m: ServerMessage): Object {
    match m
    case ServerReady(sid) => map["type" := JStr("ready"), "session_id" := JStr(sid)]
    case ServerPartial(sid, t) => map["type" := JStr("partial"), "session_id" := JStr(sid), "text" := JStr(t)]
    case ServerFinal(sid, t) => map["type" := JStr("final"), "session_id" := JStr(sid), "text" := JStr(t)]
    case ServerError(msg, sid) =>
      var base := map["type" := JStr("error"), "message" := JStr(msg)];
      if sid.Some? then base["session_id" := JStr(sid.value)] else base
  }

  function ParseServer(o: Object): Option<ServerMessage> {
    var t := Get(o, "type");
    if t == Some(JStr("ready")) && o.Keys == {"type", "session_id"} && o["session_id"].JStr? then
      Some(ServerReady(o["session_id"].s))
    else if t == Some(JStr("partial")) && o.Keys == {"type", "session_id", "text"}
            && o["session_id"].JStr? && o["text"].JStr? then
      Some(ServerPartial(o["session_id"].s, o["text"].s))
    else if t == Some(JStr("final")) && o.Keys == {"type", "session_id", "text"}
            && o["session_id"].JStr? && o["text"].JStr? then
      Some(ServerFinal(o["session_id"].s, o["text"].s))
    else if t == Some(JStr("error")) && o.Keys == {"type", "message"} && o["message"].JStr? then
      Some(ServerError(o["message"].s, None))
    else if t == Some(JStr("error")) && o.Keys == {"type", "message", "session_id"}
            && o["message"].JStr? && o["session_id"].JStr? then
      Some(ServerError(o["message"].s, Some(o["session_id"].s)))
    else None
  }

  /** Every client message is sent in a shape the declarations allow, and reading
      that shape gives the message back. */
  lemma ClientRoundTrip(m: ClientMessage)
    ensures ParseClient(ClientToJson(m)) == Some(m)
  {
    match m
    case ClientStart(sid, cfg) =>
      var o := ClientToJson(m);
      if cfg.Some? {
        assert o.Keys == {"type", "session_id", "config"};
      } else {
        assert o.Keys == {"type", "session_id"};
      }
    case ClientAudio(f, _, _) =>
      var o := ClientToJson(m);
      assert f == Pcm16;
      assert o.Keys == {"type", "format", "sample_rate", "data"};
      assert o["format"] == JStr("pcm16");
      assert Get(o, "type") != Some(JStr("start"));
    case ClientStop =>
      assert ClientToJson(m).Keys == {"type"};
  }

  /** Conversely, an object of an allowed shape is exactly the JSON of the message read from it. */
  lemma ClientShapeExact(o: Object)
    requires ParseClient(o).Some?
    ensures ClientToJson(ParseClient(o).value) == o
  {
    var m := ParseClient(o).value;
    assert ClientToJson(m).Keys == o.Keys;
  }

  lemma ServerRoundTrip(m: ServerMessage)
    ensures ParseServer(ServerToJson(m)) == Some(m)
  {
    var o := ServerToJson(m);
    match m
    case ServerReady(_) => assert o.Keys == {"type", "session_id"};
    case ServerPartial(_, _) => assert o.Keys == {"type", "session_id", "text"};
    case ServerFinal(_, _) => assert o.Keys == {"type", "session_id", "text"};
    case ServerError(_, sid) =>
      if sid.Some? {
        assert o.Keys == {"type", "message", "session_id"};
        assert o.Keys != {"type", "message"} by { assert "session_id" in o.Keys; }
      } else {
        assert o.Keys == {"type", "message"};
      }
  }

  lemma ServerShapeExact(o: Object)
    requires ParseServer(o).Some?
    ensures ServerToJson(ParseServer(o).value) == o
  {
    var m := ParseServer(o).value;
    assert ServerToJson(m).Keys == o.Keys;
  }

  /** `session_id` is on the wire for ready, partial and final always, and for an
      error exactly when it has one. */
  lemma ServerSessionIdPresence(m: ServerMessage)
    ensures "session_id" in ServerToJson(m) <==> !(m.ServerError? && m.errorSessionId.None?)
  {
  }

  /** `config` is on the wire for a start exactly when one was given, and never
      for audio or stop. */
  lemma ClientConfigPresence(m: ClientMessage)
    ensures "config" in ClientToJson(m) <==> (m.ClientStart? && m.config.Some?)
  {
  }

  /** An audio message in any format but "pcm16" has no declared shape. */
  lemma AudioFormatOnlyPcm16(o: Object)
    requires Get(o, "type") == Some(JStr("audio")) && Get(o, "format") != Some(JStr("pcm16"))
    ensures ParseClient(o) == None
  {
  }

  /** `b64_to_bytes`: the decoded payload, or ValueError "Invalid base64 audio payload". */
  function B64ToBytes(data: string): (r: Result<seq<Base64.byte>>)
    ensures r.Err? ==> r.error == Error(ValueError, "Invalid base64 audio payload")
    ensures r.Ok? <==> Base64.Decode(data).Some?
  {
    match Base64.Decode(data)
    case Some(bs) => Ok(bs)
    case None => Raise(ValueError, "Invalid base64 audio payload")
  }

  /** What the desktop encodes, the backend decodes to the same bytes. */
  lemma B64ToBytesOfEncode(bs: seq<Base64.byte>)
    ensures B64ToBytes(Base64.Encode(bs)) == Ok(bs)
  {
    Base64.DecodeEncode(bs);
  }
}
