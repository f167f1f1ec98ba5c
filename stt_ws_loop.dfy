/** The mock speech-to-text socket endpoint (`stt_ws.py`): a receive loop whose
    only state is the current `session_id` (whatever JSON value the last start
    carried) and the count of accepted audio chunks. `Step` is one turn of the
    loop; `WsStt` runs the loop over the messages a client sends. */
module SttWsLoop {
  import opened Wrappers
  import opened Json
  import opened SttWire
  import SttProviders
  import Base64

  /** The loop's locals. */
  datatype LoopState = LoopState(sessionId: Json, audioChunks: int)

  /** How a turn leaves the loop: still receiving, closed after a stop, or ended
      by an exception (a JSON value that is not an object has no `.get`). */
  datatype Ending = Receiving | Closed | Crashed

  const Init := LoopState(JNull, 0)

  function ErrorObj(message: string): Object {
    map["type" := JStr("error"), "message" := JStr(message)]
  }

  function ErrorWithSid(message: string, sid: Json): Object {
    map["type" := JStr("error"), "message" := JStr(message), "session_id" := sid]
  }

  function ReadyObj(sid: Json): Object {
    map["type" := JStr("ready"), "session_id" := sid]
  }

  function PartialObj(sid: Json, text: string): Object {
    map["type" := JStr("partial"), "session_id" := sid, "text" := JStr(text)]
  }

  function FinalObj(sid: Json, text: string): Object {
    map["type" := JStr("final"), "session_id" := sid, "text" := JStr(text)]
  }

  /** The answer to an accepted chunk numbered `n`: a partial, and on every
      third chunk a final numbered `n // 3`. */
  function ChunkReplies(sid: Json, n: int): (r: seq<Object>)
    ensures |r| == (if n % 3 == 0 then 2 else 1)
    ensures r[0] == PartialObj(sid, SttProviders.PartialText(n))
    ensures |r| == 2 ==> r[1] == FinalObj(sid, SttProviders.FinalText(n))
  {
    var partial := [PartialObj(sid, SttProviders.PartialText(n))];
    if n % 3 == 0 then partial + [FinalObj(sid, SttProviders.FinalText(n))] else partial
  }

  /** Why an audio message is refused, in the order the loop checks; None when it
      is accepted. */
  function AudioRefusal(msg: Object): (r: Option<string>)
    ensures r.None? <==> AudioAccepted(msg)
    ensures PyGet(msg, "format") != JStr("pcm16") ==> r == Some("Only format=pcm16 supported")
  {
    var fmt := PyGet(msg, "format");
    var sr := PyGet(msg, "sample_rate");
    var data := PyGet(msg, "data");
    if fmt != JStr("pcm16") then Some("Only format=pcm16 supported")
    else if !IsPyInt(sr) || PyIntValue(sr) <= 0 then Some("Invalid sample_rate")
    else if !data.JStr? || data.s == "" then Some("Missing audio data")
    else match B64ToBytes(data.s)
      case Err(e) => Some(e.message)
      case Ok(_) => None
  }

  /** Format pcm16, an `int` rate above zero, and non-empty data that decodes. */
  predicate AudioAccepted(msg: Object) {
    && PyGet(msg, "format") == JStr("pcm16")
    && IsPyInt(PyGet(msg, "sample_rate")) && PyIntValue(PyGet(msg, "sample_rate")) > 0
    && PyGet(msg, "data").JStr? && PyGet(msg, "data").s != "" && Base64.Decode(PyGet(msg, "data").s).Some?
  }

  /** One turn of the loop: the new locals, what is sent, and whether the loop goes on. */
  function Step(s: LoopState, raw: Frame): (LoopState, seq<Object>, Ending) {
    match raw
    case Unparseable => (s, [ErrorObj("Invalid JSON")], Receiving)
    case Parsed(v) =>
      if !v.JObj? then (s, [], Crashed)
      else
        var msg := v.fields;
        var t := PyGet(msg, "type");
        if t == JStr("start") then
          var sid := PyGet(msg, "session_id");
          if !PyTruthy(sid) then (s.(sessionId := sid), [ErrorObj("Missing session_id")], Receiving)
          else (LoopState(sid, 0), [ReadyObj(sid)], Receiving)
        else if t == JStr("audio") then
          if !PyTruthy(s.sessionId) then (s, [ErrorObj("Send 'start' first")], Receiving)
          else match AudioRefusal(msg)
            case Some(why) => (s, [ErrorWithSid(why, s.sessionId)], Receiving)
            case None =>
              var n := s.audioChunks + 1;
              (s.(audioChunks := n), ChunkReplies(s.sessionId, n), Receiving)
        else if t == JStr("stop") then
          (s, if PyTruthy(s.sessionId) then [FinalObj(s.sessionId, "(mock) stop")] else [], Closed)
        else
          (s, [ErrorWithSid("Unknown message type", if PyTruthy(s.sessionId) then s.sessionId else JStr(""))], Receiving)
  }

  /** The loop over the first messages: locals, everything sent, and how it ended
      (still receiving when the messages ran out). Nothing after a close or a
      crash is read. */
  function Run(inbound: seq<Frame>): (LoopState, seq<Object>, Ending)
    decreases |inbound|
  {
    if inbound == [] then (Init, [], Receiving)
    else
      var (s, sent, e) := Run(inbound[..|inbound| - 1]);
      if e != Receiving then (s, sent, e)
      else
        var (s1, out, e1) := Step(s, inbound[|inbound| - 1]);
        (s1, sent + out, e1)
  }

  /** Once the loop has ended, later messages change nothing. */
  lemma {:induction false} RunEnded(inbound: seq<Frame>, i: nat)
    requires i <= |inbound| && Run(inbound[..i]).2 != Receiving
    ensures Run(inbound) == Run(inbound[..i])
    decreases |inbound| - i
  {
    if i < |inbound| {
      var longer := inbound[..i + 1];
      assert longer[..|longer| - 1] == inbound[..i];
      RunEnded(inbound, i + 1);
    } else {
      assert inbound[..i] == inbound;
    }
  }

  /** One more message, while the loop is still receiving, is one more `Step`. */
  lemma RunSnoc(inbound: seq<Frame>, i: nat, s: LoopState, sent: seq<Object>)
    requires i < |inbound| && Run(inbound[..i]) == (s, sent, Receiving)
    ensures Run(inbound[..i + 1]) == (Step(s, inbound[i]).0, sent + Step(s, inbound[i]).1, Step(s, inbound[i]).2)
  {
    assert inbound[..i + 1][..i] == inbound[..i];
  }

  /** `ws_stt`, the loop itself. */
  method WsStt(inbound: seq<Frame>) returns (sent: seq<Object>, ending: Ending)
    ensures (sent, ending) == (Run(inbound).1, Run(inbound).2)
  {
    var locals := Init;
    sent := [];
    ending := Receiving;
    var i := 0;
    while i < |inbound| && ending == Receiving
      invariant 0 <= i <= |inbound|
      invariant Run(inbound[..i]) == (locals, sent, ending)
    {
      RunSnoc(inbound, i, locals, sent);
      var out;
      locals, out, ending := Turn(locals, inbound[i]);
      sent := sent + out;
      i := i + 1;
    }
    if ending != Receiving {
      RunEnded(inbound, i);
    } else {
      assert inbound[..i] == inbound;
    }
  }

  /** One pass through the loop's body: the new locals, what it sends, and
      whether the loop goes on. */
  method Turn(s: LoopState, raw: Frame) returns (s1: LoopState, out: seq<Object>, ending: Ending)
    ensures (s1, out, ending) == Step(s, raw)
  {
    s1, out, ending := s, [], Receiving;
    if raw.Unparseable? {
      out := [ErrorObj("Invalid JSON")];
    } else if !raw.value.JObj? {
      ending := Crashed;
    } else {
      var msg := raw.value.fields;
      var msgType := PyGet(msg, "type");
      if msgType == JStr("start") {
        var sessionId := PyGet(msg, "session_id");
        s1 := s1.(sessionId := sessionId);
        if !PyTruthy(sessionId) {
          out := [ErrorObj("Missing session_id")];
        } else {
          s1 := s1.(audioChunks := 0);
          out := [ReadyObj(sessionId)];
        }
      } else if msgType == JStr("audio") {
        if !PyTruthy(s.sessionId) {
          out := [ErrorObj("Send 'start' first")];
        } else {
          var refusal := AudioRefusal(msg);
          if refusal.Some? {
            out := [ErrorWithSid(refusal.value, s.sessionId)];
          } else {
            s1 := s1.(audioChunks := s.audioChunks + 1);
            out := [PartialObj(s.sessionId, SttProviders.PartialText(s1.audioChunks))];
            if s1.audioChunks % 3 == 0 {
              out := out + [FinalObj(s.sessionId, SttProviders.FinalText(s1.audioChunks))];
            }
          }
        }
      } else if msgType == JStr("stop") {
        if PyTruthy(s.sessionId) {
          out := [FinalObj(s.sessionId, "(mock) stop")];
        }
        ending := Closed;
      } else {
        out := [ErrorWithSid("Unknown message type", if PyTruthy(s.sessionId) then s.sessionId else JStr(""))];
      }
    }
  }

  // ------------------------------------------------------------------ lemmas

  /** Text that is not JSON is answered "Invalid JSON" and changes no local. */
  lemma InvalidJsonKeepsState(s: LoopState)
    ensures Step(s, Unparseable) == (s, [ErrorObj("Invalid JSON")], Receiving)
  {
  }

  /** A start replaces the session id before looking at it: without a usable id
      the reply is an error and no session is active afterwards (later audio is
      told to start first); with one, the count restarts at 0 and the reply is
      `ready` with that same id. */
  lemma StartOverwrites(s: LoopState, msg: Object)
    requires PyGet(msg, "type") == JStr("start")
    ensures var (s1, out, e) := Step(s, Parsed(JObj(msg)));
      e == Receiving && s1.sessionId == PyGet(msg, "session_id")
      && (!PyTruthy(PyGet(msg, "session_id")) ==> out == [ErrorObj("Missing session_id")] && s1.audioChunks == s.audioChunks)
      && (PyTruthy(PyGet(msg, "session_id")) ==> out == [ReadyObj(PyGet(msg, "session_id"))] && s1.audioChunks == 0)
  {
  }

  /** Audio with no active session is told to start first and changes nothing. */
  lemma AudioBeforeStart(s: LoopState, msg: Object)
    requires PyGet(msg, "type") == JStr("audio") && !PyTruthy(s.sessionId)
    ensures Step(s, Parsed(JObj(msg))) == (s, [ErrorObj("Send 'start' first")], Receiving)
  {
  }

  /** Every audio message is answered; the count rises by exactly one when the
      chunk is accepted (one partial, and a final numbered count // 3 exactly
      when the count is a multiple of 3), and not at all otherwise. */
  lemma AudioCounting(s: LoopState, msg: Object)
    requires PyGet(msg, "type") == JStr("audio") && PyTruthy(s.sessionId)
    ensures var (s1, out, e) := Step(s, Parsed(JObj(msg)));
      e == Receiving && s1.sessionId == s.sessionId
      && (AudioRefusal(msg).Some? ==> s1 == s && out == [ErrorWithSid(AudioRefusal(msg).value, s.sessionId)])
      && (AudioRefusal(msg).None? ==> s1.audioChunks == s.audioChunks + 1 && out == ChunkReplies(s.sessionId, s1.audioChunks))
  {
  }

  /** A stop ends the loop, with a final only when a session is active. */
  lemma StopEnds(s: LoopState, msg: Object)
    requires PyGet(msg, "type") == JStr("stop")
    ensures var (s1, out, e) := Step(s, Parsed(JObj(msg)));
      e == Closed && s1 == s && (|out| == 1 <==> PyTruthy(s.sessionId)) && |out| <= 1
  {
  }

  /** Locals a well-behaved client can bring about: no session, or a string id. */
  predicate SidWellFormed(s: LoopState) {
    !PyTruthy(s.sessionId) || s.sessionId.JStr?
  }

  /** A message whose session id, if it has one, is a string. */
  predicate FrameWellFormed(raw: Frame) {
    raw.Parsed? && raw.value.JObj? ==>
      var sid := PyGet(raw.value.fields, "session_id");
      !PyTruthy(sid) || sid.JStr?
  }

  lemma ErrorConforms(message: string)
    ensures ParseServer(ErrorObj(message)) == Some(ServerError(message, None))
  {
    ServerRoundTrip(ServerError(message, None));
    assert ServerToJson(ServerError(message, None)) == ErrorObj(message);
  }

  lemma ErrorWithSidConforms(message: string, sid: string)
    ensures ParseServer(ErrorWithSid(message, JStr(sid))) == Some(ServerError(message, Some(sid)))
  {
    ServerRoundTrip(ServerError(message, Some(sid)));
    assert ServerToJson(ServerError(message, Some(sid))) == ErrorWithSid(message, JStr(sid));
  }

  lemma ReadyConforms(sid: string)
    ensures ParseServer(ReadyObj(JStr(sid))) == Some(ServerReady(sid))
  {
    ServerRoundTrip(ServerReady(sid));
    assert ServerToJson(ServerReady(sid)) == ReadyObj(JStr(sid));
  }

  lemma PartialConforms(sid: string, text: string)
    ensures ParseServer(PartialObj(JStr(sid), text)) == Some(ServerPartial(sid, text))
  {
    ServerRoundTrip(ServerPartial(sid, text));
    assert ServerToJson(ServerPartial(sid, text)) == PartialObj(JStr(sid), text);
  }

  lemma FinalConforms(sid: string, text: string)
    ensures ParseServer(FinalObj(JStr(sid), text)) == Some(ServerFinal(sid, text))
  {
    ServerRoundTrip(ServerFinal(sid, text));
    assert ServerToJson(ServerFinal(sid, text)) == FinalObj(JStr(sid), text);
  }

  /** As long as clients send string session ids, every message the loop sends
      has one of the declared server shapes, and the locals stay well formed. */
  lemma StepConforms(s: LoopState, raw: Frame)
    requires SidWellFormed(s) && FrameWellFormed(raw)
    ensures var (s1, out, _) := Step(s, raw);
      SidWellFormed(s1) && forall k :: 0 <= k < |out| ==> ParseServer(out[k]).Some?
  {
    match raw
    case Unparseable => ErrorConforms("Invalid JSON");
    case Parsed(v) =>
      if v.JObj? {
        var msg := v.fields;
        var t := PyGet(msg, "type");
        if t == JStr("start") {
          var sid := PyGet(msg, "session_id");
          if !PyTruthy(sid) {
            ErrorConforms("Missing session_id");
          } else {
            ReadyConforms(sid.s);
          }
        } else if t == JStr("audio") {
          if !PyTruthy(s.sessionId) {
            ErrorConforms("Send 'start' first");
          } else {
            match AudioRefusal(msg)
            case Some(why) => ErrorWithSidConforms(why, s.sessionId.s);
            case None =>
              var n := s.audioChunks + 1;
              PartialConforms(s.sessionId.s, SttProviders.PartialText(n));
              FinalConforms(s.sessionId.s, SttProviders.FinalText(n));
          }
        } else if t == JStr("stop") {
          if PyTruthy(s.sessionId) {
            FinalConforms(s.sessionId.s, "(mock) stop");
          }
        } else {
          ErrorWithSidConforms("Unknown message type", if PyTruthy(s.sessionId) then s.sessionId.s else "");
        }
      }
  }

  const TestSid := JStr("s1")

  const TestStart := Parsed(JObj(map["type" := JStr("start"), "session_id" := TestSid,
                                     "config" := JObj(map["lang" := JStr("es")])]))

  /** The test's audio message: four bytes 00 01 02 03 in base 64. */
  const TestAudioMsg: Object := map["type" := JStr("audio"), "format" := JStr("pcm16"),
                                    "sample_rate" := JInt(16000), "data" := JStr("AAECAw==")]

  const TestStop := Parsed(JObj(map["type" := JStr("stop")]))

  lemma FirstGroup()
    ensures Base64.EncodeGroup(0, 1, 2) == "AAEC"
  {
    assert Base64.Sym(0) == 'A';
    assert Base64.Sym(4) == 'E';
    assert Base64.Sym(2) == 'C';
  }

  lemma LastByte()
    ensures Base64.Encode([3]) == "Aw=="
  {
    assert Base64.Sym(0) == 'A';
    assert Base64.Sym(48) == 'w';
  }

  /** The test's payload is the encoding of the bytes 00 01 02 03. */
  lemma TestPayload()
    ensures Base64.Decode("AAECAw==") == Some([0, 1, 2, 3])
  {
    var bytes: seq<Base64.byte> := [0, 1, 2, 3];
    FirstGroup();
    LastByte();
    assert bytes[3..] == [3];
    assert Base64.Encode(bytes) == "AAECAw==";
    Base64.DecodeEncode(bytes);
  }

  lemma TestAudioAccepted()
    ensures AudioAccepted(TestAudioMsg)
  {
    var data := PyGet(TestAudioMsg, "data");
    assert data == JStr("AAECAw==");
    assert Base64.Decode(data.s).Some? by { TestPayload(); }
    assert PyGet(TestAudioMsg, "format") == JStr("pcm16");
    assert PyGet(TestAudioMsg, "sample_rate") == JInt(16000);
  }

  /** `RunSnoc` with the step's outcome named. */
  lemma RunStep(inbound: seq<Frame>, i: nat, s: LoopState, sent: seq<Object>, next: (LoopState, seq<Object>, Ending))
    requires i < |inbound| && Run(inbound[..i]) == (s, sent, Receiving) && Step(s, inbound[i]) == next
    ensures Run(inbound[..i + 1]) == (next.0, sent + next.1, next.2)
  {
    RunSnoc(inbound, i, s, sent);
  }

  /** A start with a usable id, from any locals: `ready`, count 0. */
  lemma StartStep(s: LoopState, start: Object)
    requires PyGet(start, "type") == JStr("start") && PyTruthy(PyGet(start, "session_id"))
    ensures Step(s, Parsed(JObj(start))) == (LoopState(PyGet(start, "session_id"), 0), [ReadyObj(PyGet(start, "session_id"))], Receiving)
  {
    StartOverwrites(s, start);
  }

  /** An accepted chunk in an active session: the count rises and the chunk's
      replies are sent. */
  lemma AcceptedStep(sid: Json, k: int, audio: Object)
    requires PyTruthy(sid) && PyGet(audio, "type") == JStr("audio") && AudioAccepted(audio)
    ensures Step(LoopState(sid, k), Parsed(JObj(audio))) == (LoopState(sid, k + 1), ChunkReplies(sid, k + 1), Receiving)
  {
    AudioCounting(LoopState(sid, k), audio);
  }

  /** A stop in an active session: the stop final, then the loop closes. */
  lemma StopStep(s: LoopState, stop: Object)
    requires PyGet(stop, "type") == JStr("stop") && PyTruthy(s.sessionId)
    ensures Step(s, Parsed(JObj(stop))) == (s, [FinalObj(s.sessionId, "(mock) stop")], Closed)
  {
    assert PyGet(stop, "type") != JStr("start") && PyGet(stop, "type") != JStr("audio");
  }

  /** A start with a usable id, three accepted chunks and a stop: the replies are
      ready, a partial per chunk, a final after the third chunk, and the stop final. */
  lemma {:induction false} StartThreeChunksStop(inbound: seq<Frame>, start: Object, audio: Object, stop: Object)
    requires |inbound| == 5 && inbound[0] == Parsed(JObj(start)) && inbound[4] == Parsed(JObj(stop))
    requires inbound[1] == inbound[2] == inbound[3] == Parsed(JObj(audio))
    requires PyGet(start, "type") == JStr("start") && PyTruthy(PyGet(start, "session_id"))
    requires PyGet(audio, "type") == JStr("audio") && AudioAccepted(audio)
    requires PyGet(stop, "type") == JStr("stop")
    ensures var sid := PyGet(start, "session_id");
      Run(inbound) == (LoopState(sid, 3),
          [ReadyObj(sid)]
          + ChunkReplies(sid, 1) + ChunkReplies(sid, 2) + ChunkReplies(sid, 3)
          + [FinalObj(sid, "(mock) stop")],
          Closed)
  {
    var sid := PyGet(start, "session_id");
    var sent0: seq<Object> := [];
    assert inbound[..0] == [];
    StartStep(Init, start);
    RunStep(inbound, 0, Init, sent0, (LoopState(sid, 0), [ReadyObj(sid)], Receiving));
    var sent1 := [ReadyObj(sid)];
    assert sent0 + [ReadyObj(sid)] == sent1;
    AcceptedStep(sid, 0, audio);
    RunStep(inbound, 1, LoopState(sid, 0), sent1, (LoopState(sid, 1), ChunkReplies(sid, 1), Receiving));
    var sent2 := sent1 + ChunkReplies(sid, 1);
    AcceptedStep(sid, 1, audio);
    RunStep(inbound, 2, LoopState(sid, 1), sent2, (LoopState(sid, 2), ChunkReplies(sid, 2), Receiving));
    var sent3 := sent2 + ChunkReplies(sid, 2);
    AcceptedStep(sid, 2, audio);
    RunStep(inbound, 3, LoopState(sid, 2), sent3, (LoopState(sid, 3), ChunkReplies(sid, 3), Receiving));
    var sent4 := sent3 + ChunkReplies(sid, 3);
    StopStep(LoopState(sid, 3), stop);
    RunStep(inbound, 4, LoopState(sid, 3), sent4, (LoopState(sid, 3), [FinalObj(sid, "(mock) stop")], Closed));
    assert inbound[..5] == inbound;
  }

  /** The exchange the backend's own socket test performs: start "s1", three
      chunks of the four bytes 00 01 02 03, stop. */
  lemma MockFlow(inbound: seq<Frame>)
    requires inbound == [TestStart, Parsed(JObj(TestAudioMsg)), Parsed(JObj(TestAudioMsg)), Parsed(JObj(TestAudioMsg)), TestStop]
    ensures Run(inbound) == (LoopState(TestSid, 3),
          [ReadyObj(TestSid)]
          + ChunkReplies(TestSid, 1) + ChunkReplies(TestSid, 2) + ChunkReplies(TestSid, 3)
          + [FinalObj(TestSid, "(mock) stop")],
          Closed)
  {
    TestAudioAccepted();
    assert PyGet(TestAudioMsg, "type") == JStr("audio");
    assert PyGet(TestStart.value.fields, "type") == JStr("start");
    assert PyGet(TestStart.value.fields, "session_id") == TestSid;
    assert PyGet(TestStop.value.fields, "type") == JStr("stop");
    StartThreeChunksStop(inbound, TestStart.value.fields, TestAudioMsg, TestStop.value.fields);
  }
}
