# PROMPter speech-to-text streaming core, in Dafny

PROMPter is a desktop assistant. Its Angular/Electron front end captures audio, streams it as base64 PCM16 over a WebSocket to a FastAPI backend, and shows the transcript the backend sends back. A small LLM endpoint answers questions. This project models the part of the system that can be stated exactly:

- **The wire protocol.** The three client messages (`start`, `audio`, `stop`) and the four server messages (`ready`, `partial`, `final`, `error`), the JSON shape each is sent as, and base64 (section 4 of RFC 4648) from the desktop encoder to the backend decoder.
- **The desktop side.**
  - `SessionController` and the older `SessionStore`: session state machines that filter messages by session id, start capture once, keep one streaming transcript entry and tear down on `final`, `error` or disconnect.
  - `SttWsClient`: socket status, inbound normalisation and refusal to send on a closed socket.
  - `SttService`: fills in configuration defaults.
  - `AudioCaptureService`: resource ownership, the stop-first rule and worklet chunk slicing.
  - `pcm16ToBase64`, the chat store, and the settings, app and connection stores.
  - The connections panel (key masking, URL input, the timeout clamp, the settle-once WebSocket probe), the extras panel, and the HTTP clients' request building.
- **The backend side.**
  - `STTRouter.handle` with its fixed validation order, and the per-session `SessionStore`.
  - The mock `ws_stt` loop as a step function.
  - The audio validators, `chunk_bytes` and `bytes_to_b64`.
  - The four STT providers (cloud stub, whisper.cpp accumulation and argument building, two skeletons).
  - The LLM router and its two providers, the error envelope, secret lookup, and the pydantic config bounds.

Modelling conventions:

- **State.** Code that changes state in place is a `class` whose methods are proved against a pure step function on a state value (`ensures State() == Spec(old(State()), ...)`). The properties are lemmas about those functions. Pure code is functions and lemmas.
- **The outside world.**
  - Socket events, worklet messages, HTTP outcomes, clocks, random ids and the process environment are parameters.
  - Calls into collaborators (the transcript sink, the socket, audio handles) are recorded in an effect log.
  - Requests the backend makes (the OpenAI-compatible POST, the whisper.cpp run) are returned next to the answer, as a value saying exactly what is sent.
  - JavaScript numbers are `Num` (an exact real, `NaN` or an infinity), so `Math.floor`, `Math.max` and `Number.isFinite` keep their edge cases.
- **Errors.** Python exceptions and TypeScript throws are `Err` values of `Result`.

Behaviour of the code that the model follows:

- `SttWsClient` has no pending-send queue: sending on a socket that is not open emits one "WS not connected" error event and transmits nothing.
- There is no `connecting` session status. The desktop `SessionStatus` has `idle`, `recording`, `paused` and `processing`.
- Malformed inbound frames become the error events "Invalid JSON from server" and "Invalid server message".
- `forceStop` calls `SessionStore.stopSession`. That acts only from `recording` and moves to `processing`, not to `idle`.
- The desktop base-URL scheme tests are case-insensitive. The backend `openai_compat` and `whisper_selfhosted` tests (`startswith`) are case-sensitive.
- `AppStore.setMinSilenceSeconds` with a non-finite input stores 1000 ms, because `clampInt` sends a non-finite value to its minimum.
- The panel's `onSttTimeoutInput` can store `Infinity`: `Number("Infinity")` is infinite, and `updateDeep` does not clamp `customTimeoutMs`.

## Model

| member | source | states |
|---|---|---|
| SttWire.ClientToJson | desktop/src/app/core/models/stt-ws.model.ts:6-23 | the object each client message is sent as: `type` and the declared fields, `config` only when given |
| SttWire.ParseClient | backend/app/utils/ws_protocol.py:12-26 | reads exactly the three declared client shapes (exact key sets, field types, format "pcm16") and nothing else |
| SttWire.ServerToJson | desktop/src/app/core/models/stt-ws.model.ts:25-48 | the object each server message is sent as; an error carries `session_id` only when it has one |
| SttWire.ParseServer | backend/app/utils/ws_protocol.py:28-47 | reads exactly the four declared server shapes, the error with and without `session_id` |
| SttWire.ClientRoundTrip | desktop/src/app/core/models/stt-ws.model.ts:6-23 | every client message is sent in one of the three declared shapes, and reading that shape gives the same message back |
| SttWire.ClientShapeExact | backend/app/utils/ws_protocol.py:12-26 | an object of a declared client shape is exactly the JSON of the message read from it |
| SttWire.ServerRoundTrip | desktop/src/app/core/models/stt-ws.model.ts:25-48 | every server message is sent in one of the four declared shapes and reads back as itself |
| SttWire.ServerShapeExact | backend/app/utils/ws_protocol.py:28-47 | an object of a declared server shape is exactly the JSON of the message read from it |
| SttWire.ServerSessionIdPresence | desktop/src/app/core/models/stt-ws.model.ts:25-46 | `session_id` is always on the wire for ready, partial and final, and for an error exactly when it has one |
| SttWire.ClientConfigPresence | desktop/src/app/core/models/stt-ws.model.ts:6-10 | `config` is on the wire for start exactly when one is given, and never for audio or stop |
| SttWire.AudioFormatOnlyPcm16 | backend/app/utils/ws_protocol.py:10-21 | an audio object whose format is not "pcm16" has no declared shape |
| SttWire.B64ToBytes | backend/app/utils/ws_protocol.py:49-53 | decodes a canonical base64 text, and otherwise fails with ValueError "Invalid base64 audio payload" |
| SttWire.B64ToBytesOfEncode | backend/app/utils/ws_protocol.py:49-53 | what the encoder produces, `b64_to_bytes` decodes to the same bytes |
| Base64.Encode | backend/app/utils/audio.py:19-20 | section 4 of RFC 4648: whole three-byte groups, then a last group padded with "==" or "=" |
| Base64.Decode | backend/app/utils/ws_protocol.py:49-53 | canonical text only: a multiple of four characters of the alphabet, padding only at the end |
| Base64.EncodeLength | backend/app/utils/audio.py:19-20 | the encoding of n bytes is 4 * ceil(n / 3) characters long |
| Base64.DecodeEncode | backend/app/utils/audio.py:19-20 | decoding undoes encoding, for every byte sequence |
| AudioValidate.ValidateSampleRate | backend/app/utils/validate.py:18-31 | succeeds exactly for a positive `int` (bools included) that the constraints admit, returning it unchanged; otherwise the matching message |
| AudioValidate.ValidateFormat | backend/app/utils/validate.py:33-39 | succeeds exactly for a non-empty string among the allowed formats; "Invalid format" or "Only format=<list> supported" otherwise |
| AudioValidate.ValidateB64String | backend/app/utils/validate.py:41-44 | a non-empty string passes unchanged; anything else fails with "Missing audio data" |
| AudioValidate.ValidateAudioBytesSize | backend/app/utils/validate.py:46-48 | fails with "Audio chunk too large" exactly when the chunk is longer than the limit |
| AudioValidate.JoinComma | backend/app/utils/validate.py:37 | the names joined with single commas, as `",".join` does |
| AudioValidate.DefaultFormat | backend/app/utils/validate.py:8-16 | under the defaults only "pcm16" passes, and any other non-empty string is told "Only format=pcm16 supported" |
| AudioValidate.DefaultSampleRate | backend/app/utils/validate.py:9-30 | under the defaults a rate passes exactly when it lies in 8000..48000; an integer outside is told the range |
| AudioValidate.DefaultSizeBoundary | backend/app/utils/validate.py:12-48 | a chunk of exactly 5 MiB passes the default size check and one byte more fails it |
| AudioUtil.Chunks | backend/app/utils/audio.py:17 | the slices laid end to end give the data back; each is non-empty and at most k long, and all but the last are exactly k long |
| AudioUtil.ChunkCount | backend/app/utils/audio.py:17 | there are ceil(len / k) chunks, and none for empty data |
| AudioUtil.ChunkBytes | backend/app/utils/audio.py:14-17 | a size that is not positive fails with ValueError "chunk_size must be > 0"; otherwise the result is the slicing above |
| AudioUtil.BytesToB64 | backend/app/utils/audio.py:19-20 | the section 4 RFC 4648 encoding, which decodes back to the same bytes |
| Pcm16Base64.Bytes | desktop/src/app/core/utils/audio-b64.ts:2 | the byte view is exactly `byteLength = 2 * length` bytes of the buffer, starting at `byteOffset` |
| Pcm16Base64.At | desktop/src/app/core/utils/audio-b64.ts:2 | element i is the little-endian, sign-extended 16-bit value of view bytes 2i and 2i+1, so it lies in -32768..32767 |
| Pcm16Base64.Samples | desktop/src/app/core/utils/audio-b64.ts:1 | one value per element, each a signed 16-bit value |
| Pcm16Base64.LittleEndian | desktop/src/app/core/utils/audio-b64.ts:2 | each sample becomes two bytes, low byte first |
| Pcm16Base64.FromSamples | desktop/src/app/core/utils/audio-b64.ts:1 | a fresh array holding the samples, with offset zero and its own buffer |
| Pcm16Base64.LittleEndianAt | desktop/src/app/core/utils/audio-b64.ts:2 | bytes 2i and 2i+1 of the encoding are the low and high byte of sample i |
| Pcm16Base64.SamplesFromSamples | desktop/src/app/core/utils/audio-b64.ts:2 | reading a fresh array back gives the samples written into it |
| Pcm16Base64.SampleBytes | desktop/src/app/core/utils/audio-b64.ts:2 | element i gives back, as its low and high byte, the two view bytes it was read from |
| Pcm16Base64.ByteViewHoldsSamples | desktop/src/app/core/utils/audio-b64.ts:2 | the byte view of any valid array, at any offset, is exactly its samples written low byte first, so reading samples loses nothing |
| Pcm16Base64.Btoa | desktop/src/app/core/utils/audio-b64.ts:5 | `btoa` of a binary string whose code units are all below 256: the encoding of those code units as bytes |
| Pcm16Base64.CodeUnits | desktop/src/app/core/utils/audio-b64.ts:5 | the code units of a binary string as bytes, one per character, in order |
| Pcm16Base64.Pcm16ToBase64 | desktop/src/app/core/utils/audio-b64.ts:1-6 | the loop builds the binary string one byte at a time; the result is the RFC 4648 encoding of exactly the view's bytes, 4 * ceil(2n / 3) characters long, and the backend decoder gives those bytes back |
| SttSessions.FreshSession | backend/app/services/session_store.py:7-11 | a new session holds `config or {}`, no chunks and an empty buffer |
| SttSessions.CreateSpec | backend/app/services/session_store.py:24-29 | an empty id fails with "Missing session_id"; otherwise the id is bound to a fresh session, replacing any old one, and no other entry changes |
| SttSessions.CloseSpec | backend/app/services/session_store.py:34-35 | only that key is removed, and a missing key is harmless |
| SttSessions.ResetSpec | backend/app/services/session_store.py:37-40 | an existing session's count drops to zero and nothing else changes; a missing id changes nothing |
| SttSessions.IncSpec | backend/app/services/session_store.py:42-47 | the count rises by exactly one and the new count is returned; an unknown id fails with "Send 'start' first" |
| SttSessions.AppendSpec | backend/app/services/session_store.py:49-53 | the buffer becomes the old buffer followed by the chunk; an unknown id fails |
| SttSessions.Snapshot | backend/app/services/session_store.py:64-68 | the buffer as it is, or no bytes for an unknown id |
| SttSessions.PopSpec | backend/app/services/session_store.py:55-61 | returns the whole buffer and leaves it empty; an unknown id returns no bytes and changes nothing |
| SttSessions.LastSeconds | backend/app/services/session_store.py:70-82 | always a suffix of the buffer: the last n bytes when 0 < n < len, else the whole buffer |
| SttSessions.AppendThenPop | backend/app/services/session_store.py:49-61 | appending then popping hands back the old buffer followed by the chunk, and leaves the buffer empty |
| SttSessions.CloseIdempotent | backend/app/services/session_store.py:34-35 | closing twice is closing once |
| SttSessions.CountAfterIncrements | backend/app/services/session_store.py:24-47 | k successful increments after a create leave the count at k |
| SttSessions.IncN | backend/app/services/session_store.py:42-47 | k increments keep the session present and add k to its count |
| SttSessions.SessionStore.constructor | backend/app/services/session_store.py:21-22 | the store starts with no sessions |
| SttSessions.SessionStore.Get | backend/app/services/session_store.py:31-32 | the session under that id, if any |
| SttSessions.SessionStore.Create | backend/app/services/session_store.py:24-29 | the dictionary becomes `CreateSpec` of the old one, and the fresh session is returned |
| SttSessions.SessionStore.Close | backend/app/services/session_store.py:34-35 | the dictionary becomes `CloseSpec` of the old one |
| SttSessions.SessionStore.ResetAudioCount | backend/app/services/session_store.py:37-40 | the dictionary becomes `ResetSpec` of the old one |
| SttSessions.SessionStore.IncAudioCount | backend/app/services/session_store.py:42-47 | returns the new count and updates the dictionary as `IncSpec` says, or fails and changes nothing |
| SttSessions.SessionStore.AppendAudio | backend/app/services/session_store.py:49-53 | updates the dictionary as `AppendSpec` says, or fails and changes nothing |
| SttSessions.SessionStore.PopAudio | backend/app/services/session_store.py:55-61 | returns and clears the buffer as `PopSpec` says |
| SttSessions.SessionStore.SnapshotAudio | backend/app/services/session_store.py:64-68 | returns the buffer and changes nothing |
| SttSessions.SessionStore.SnapshotLastSeconds | backend/app/services/session_store.py:70-82 | returns a suffix of the buffer (`LastSeconds`), or no bytes for an unknown id, and changes nothing |
| SttProviders.CloudStubOnStart | backend/app/providers/stt/cloud_stub.py:8-9 | exactly one `ready` carrying the given id |
| SttProviders.CloudStubOnAudio | backend/app/providers/stt/cloud_stub.py:11-29 | first a partial naming the chunk index; a second message, a final numbered index // 3, exactly when the index is a multiple of 3; every message carries the frame's session id |
| SttProviders.CloudStubOnStop | backend/app/providers/stt/cloud_stub.py:31-32 | a single final "(mock) stop" for the session |
| SttProviders.ValidateCustomWs | backend/app/providers/stt/custom_ws_proxy.py:8-11 | passes exactly when `endpoint` is a string starting with "ws://" or "wss://" |
| SttProviders.CustomWsHook | backend/app/providers/stt/custom_ws_proxy.py:13-23 | an invalid config raises the ValueError; a valid one raises NotImplementedError |
| SttProviders.ValidateSelfHosted | backend/app/providers/stt/whisper_selfhosted.py:11-18 | `base_url` is checked first (an http(s) string), then `model` (absent, null or a string), each with its own message |
| SttProviders.SelfHostedHook | backend/app/providers/stt/whisper_selfhosted.py:20-30 | every hook validates, then raises NotImplementedError |
| SttProviders.DigitsValue | backend/app/providers/stt/whisper_cpp.py:16 | the value of a string of decimal digits is a natural number |
| SttProviders.PyInt | backend/app/providers/stt/whisper_cpp.py:16 | `int(v)`: an integer (or bool) as itself and a numeric string parsed; None when Python would raise |
| SttProviders.PickInt | backend/app/providers/stt/whisper_cpp.py:14-19 | the parsed integer when it is positive, the default otherwise, including when parsing fails |
| SttProviders.DigitsOfNat | backend/app/providers/stt/whisper_cpp.py:16 | the decimal text of n reads back as n |
| SttProviders.TrimDigits | backend/app/providers/stt/whisper_cpp.py:16 | decimal text has no surrounding whitespace to strip |
| SttProviders.PickIntOfDecimal | backend/app/providers/stt/whisper_cpp.py:14-19 | a positive count, given as a number or as its decimal text, is picked as itself |
| SttProviders.Language | backend/app/providers/stt/whisper_cpp.py:79 | a falsy value reads as "auto"; a string is stripped; a truthy non-string raises AttributeError |
| SttProviders.WhisperArgs | backend/app/providers/stt/whisper_cpp.py:85-89 | binary, `-m model`, `-f wav`, and `-l lang` only when the language is neither empty nor "auto" |
| SttProviders.Take | backend/app/providers/stt/whisper_cpp.py:107 | `s[:n]`: a prefix of at most n characters |
| SttProviders.SelectText | backend/app/providers/stt/whisper_cpp.py:103-115 | a non-zero exit raises with the code and at most 800 characters of stderr; otherwise the text is stdout when non-empty, else stderr; empty text raises |
| SttProviders.WhisperOnStop | backend/app/providers/stt/whisper_cpp.py:64-115 | a missing binary or model raises before any audio is taken; then the buffer is taken and left empty, and an empty buffer answers a final with empty text; whisper.cpp runs exactly when both files exist, the buffer is non-empty and the language reads, and then with `StopInvocation` of the taken buffer |
| SttProviders.StopTranscribe | backend/app/providers/stt/whisper_cpp.py:76-115 | a language that does not read raises it and runs nothing; otherwise whisper.cpp runs with `StopInvocation`, a timeout raises naming that invocation's timeout, and an exit answers one final with `SelectText`'s text or raises its error |
| SttProviders.StopInvocation | backend/app/providers/stt/whisper_cpp.py:76-89 | sample rate from the config (default 16000), timeout from the config (default 60), arguments as `WhisperArgs` says |
| SttProviders.WhisperOnAudio | backend/app/providers/stt/whisper_cpp.py:54-62 | non-pcm16 raises and changes nothing; otherwise the bytes are appended to the session buffer and nothing is answered |
| SttProviders.WhisperOnStart | backend/app/providers/stt/whisper_cpp.py:50-52 | exactly one `ready` with the given id |
| SttProviders.WhisperAccumulates | backend/app/providers/stt/whisper_cpp.py:54-74 | after `on_audio` of a pcm16 frame, `on_stop` answers and runs whisper.cpp on the old buffer followed by the frame's bytes |
| SttProviders.WhisperCpp.constructor | backend/app/providers/stt/whisper_cpp.py:40-41 | the provider shares the given session store |
| SttProviders.WhisperCpp.OnAudio | backend/app/providers/stt/whisper_cpp.py:54-62 | the shared store changes as `WhisperOnAudio` says |
| SttProviders.WhisperCpp.OnStop | backend/app/providers/stt/whisper_cpp.py:64-115 | the answer, the shared store and the whisper.cpp invocation it returns are as `WhisperOnStop` says |
| SttRouting.ProviderByName | backend/app/services/stt_router.py:24-29 | exactly the four registered names have a provider, each under its own name |
| SttRouting.PickProvider | backend/app/services/stt_router.py:34-41 | "cloud_stub" when `provider` is missing, not a string or empty; the named provider when registered; ValueError "Unknown STT provider: <name>" otherwise |
| SttRouting.AudioChecks | backend/app/services/stt_router.py:95-110 | the checks run in the order format, sample rate, data, base64, size; the first failure is the answer; success exactly for acceptable audio |
| SttRouting.UnknownType | backend/app/services/stt_router.py:59-60 | any other type gets one error carrying the current id (or ""), the connection stays open, and the store is untouched |
| SttRouting.StartRejected | backend/app/services/stt_router.py:62-71 | a start without a usable id, or with a config that is neither null nor an object, gets one error and no session id, and creates nothing |
| SttRouting.StartFailureCloses | backend/app/services/stt_router.py:73-81 | when picking the provider or `on_start` fails, no session is left under that id, other sessions are kept, and no session id is answered |
| SttRouting.StartCloudStub | backend/app/services/stt_router.py:62-78 | a start with a string id and no provider opens a cloud-stub session: one `ready` with that id and a fresh session in the store |
| SttRouting.AudioBeforeStart | backend/app/services/stt_router.py:88-93 | audio without a session, or for an id the store lacks, is told "Send 'start' first", gets no session id, and changes nothing |
| SttRouting.AudioRejectedKeepsCount | backend/app/services/stt_router.py:95-110 | audio that fails a check gets that check's error under the session id, and the store (so the chunk count) is unchanged |
| SttRouting.AudioAcceptedCounts | backend/app/services/stt_router.py:112-127 | audio that passes every check raises the session's count by exactly one, whatever the provider does next |
| SttRouting.DispatchAudio | backend/app/services/stt_router.py:48-54 | an audio message is answered by the audio branch and nothing else |
| SttRouting.DispatchStop | backend/app/services/stt_router.py:48-57 | a stop message is answered by the stop branch and nothing else |
| SttRouting.AudioHookKeepsCount | backend/app/providers/stt/whisper_cpp.py:54-62 | no provider's `on_audio` changes the chunk count of the frame's session, and the session stays |
| SttRouting.StopHookFrame | backend/app/providers/stt/whisper_cpp.py:64-74 | no provider's `on_stop` adds or removes a session or changes a session other than its own |
| SttRouting.AudioCloudStub | backend/app/services/stt_router.py:112-127 | with the cloud stub, the n-th accepted chunk gets a partial naming n, and a final numbered n / 3 when 3 divides n |
| SttRouting.StopCloses | backend/app/services/stt_router.py:133-149 | stop always closes; without a session it answers nothing; with one, the store no longer holds it and the answer carries its id |
| SttRouting.StopNotImplemented | backend/app/services/stt_router.py:141-142 | a provider that is not implemented still ends with the final "(mock) stop" |
| SttRouting.WhisperCppBuffersAudio | backend/app/services/stt_router.py:112-127 | through the router, whisper_cpp appends each accepted chunk's decoded bytes to the session buffer and answers nothing |
| SttRouting.SttRouter.constructor | backend/app/services/stt_router.py:21-32 | the router and whisper_cpp share the given store |
| SttRouting.StartSpec | backend/app/services/stt_router.py:62-81 | `_handle_start`: id check, config check, the session created, then the provider picked and started; a failure after creation closes the session again |
| SttRouting.AudioSpec | backend/app/services/stt_router.py:83-131 | `_handle_audio`: no current session refused; the audio checks, then the count, then the provider's hook; NotImplementedError becomes "Provider not implemented yet" |
| SttRouting.StopSpec | backend/app/services/stt_router.py:133-149 | `_handle_stop`: with no current id just close; otherwise the provider's stop hook, NotImplementedError becoming the "(mock) stop" final, and the session closed in every case |
| SttRouting.HandleSpec | backend/app/services/stt_router.py:43-60 | `handle`: dispatch on `type`; any other type answered with an error tagged with the current id or "" |
| SttRouting.SttRouter.Handle | backend/app/services/stt_router.py:43-60 | the reply and the new store are those of `HandleSpec` |
| SttRouting.SttRouter.HandleStart | backend/app/services/stt_router.py:62-81 | the reply and the new store are those of `StartSpec` |
| SttRouting.SttRouter.HandleAudio | backend/app/services/stt_router.py:83-131 | the reply and the new store are those of `AudioSpec` |
| SttRouting.SttRouter.CallOnAudio | backend/app/services/stt_router.py:126 | the picked provider's `on_audio` answers and changes the store as `AudioHook` says |
| SttRouting.SttRouter.CallOnStop | backend/app/services/stt_router.py:140 | the picked provider's `on_stop` answers and changes the store as `StopHook` says |
| SttRouting.SttRouter.HandleStop | backend/app/services/stt_router.py:133-149 | the reply and the new store are those of `StopSpec` |
| SttWsLoop.Step | backend/app/api/stt_ws.py:21-78 | one pass of the loop body: invalid JSON, start, audio (checks, then counting), stop and unknown types each with their reply, and a non-object message crashing the loop |
| SttWsLoop.Run | backend/app/api/stt_ws.py:10-81 | the loop over the messages received so far, reading nothing after a close or a crash |
| SttWsLoop.ChunkReplies | backend/app/api/stt_ws.py:64-69 | one partial naming n, then a final numbered n // 3 exactly when 3 divides n |
| SttWsLoop.AudioRefusal | backend/app/api/stt_ws.py:44-62 | the first failing check in the loop's order, with its message; none exactly when the audio is accepted |
| SttWsLoop.RunEnded | backend/app/api/stt_ws.py:71-75 | once the loop has ended, later messages change nothing |
| SttWsLoop.RunSnoc | backend/app/api/stt_ws.py:20-78 | one more message while receiving is one more step |
| SttWsLoop.WsStt | backend/app/api/stt_ws.py:10-81 | the `while` loop sends exactly what `Run` over the messages sends and ends as it ends |
| SttWsLoop.Turn | backend/app/api/stt_ws.py:21-78 | one pass through the loop's body yields exactly `Step` of the locals and the message |
| SttWsLoop.InvalidJsonKeepsState | backend/app/api/stt_ws.py:22-26 | text that is not JSON is answered "Invalid JSON" and changes no local |
| SttWsLoop.StartOverwrites | backend/app/api/stt_ws.py:30-37 | a start replaces the session id before checking it: without a usable id the reply is an error and no session is active; with one the count restarts at 0 and the reply is `ready` with that id |
| SttWsLoop.AudioBeforeStart | backend/app/api/stt_ws.py:39-42 | audio with no active session is told "Send 'start' first" and changes nothing |
| SttWsLoop.AudioCounting | backend/app/api/stt_ws.py:44-69 | every audio message is answered; the count rises by exactly one when the chunk is accepted and not at all otherwise |
| SttWsLoop.StopEnds | backend/app/api/stt_ws.py:71-75 | stop ends the loop, with a final only when a session is active |
| SttWsLoop.ErrorConforms | backend/app/utils/ws_protocol.py:42-45 | the loop's error object has the declared error shape |
| SttWsLoop.ErrorWithSidConforms | backend/app/utils/ws_protocol.py:42-45 | an error with a string session id has the declared shape |
| SttWsLoop.ReadyConforms | backend/app/utils/ws_protocol.py:28-30 | the ready object has the declared shape |
| SttWsLoop.PartialConforms | backend/app/utils/ws_protocol.py:32-35 | the partial object has the declared shape |
| SttWsLoop.FinalConforms | backend/app/utils/ws_protocol.py:37-40 | the final object has the declared shape |
| SttWsLoop.StepConforms | backend/app/api/stt_ws.py:20-78 | while clients send string session ids, everything the loop sends has a declared server shape and the locals stay well formed |
| SttWsLoop.FirstGroup | backend/app/tests/test_ws_stt.py:14 | the first quantum of the test payload decodes to 00 01 02 |
| SttWsLoop.LastByte | backend/app/tests/test_ws_stt.py:14 | the padded last quantum decodes to 03 |
| SttWsLoop.TestPayload | backend/app/tests/test_ws_stt.py:14 | the test's payload "AAECAw==" is the encoding of the bytes 00 01 02 03 |
| SttWsLoop.TestAudioAccepted | backend/app/tests/test_ws_stt.py:17 | the test's audio message passes every check of the loop |
| SttWsLoop.RunStep | backend/app/api/stt_ws.py:20-78 | one more step with its outcome named |
| SttWsLoop.StartStep | backend/app/api/stt_ws.py:30-37 | a start with a usable id, from any locals, answers `ready` with that id and restarts the count at 0 |
| SttWsLoop.AcceptedStep | backend/app/api/stt_ws.py:39-69 | an accepted chunk in an active session raises the count by one and sends that chunk's replies |
| SttWsLoop.StopStep | backend/app/api/stt_ws.py:71-75 | a stop in an active session sends the stop final and closes |
| SttWsLoop.StartThreeChunksStop | backend/app/api/stt_ws.py:30-75 | start, three accepted chunks and stop answer ready, three partials, a final after the third, and the stop final |
| SttWsLoop.MockFlow | backend/app/tests/test_ws_stt.py:5-28 | the backend test's exchange receives exactly ready "s1", three partials for "s1", a final for "s1", and the stop final |
| SttWsClient.Inbound | desktop/src/app/core/services/clients/stt.ws.client.ts:34-45 | unparseable text becomes "Invalid JSON from server"; a value that is not an object with `type` becomes "Invalid server message"; anything else is forwarded unchanged |
| SttWsClient.ConnectSpec | desktop/src/app/core/services/clients/stt.ws.client.ts:24-30 | nothing while the held socket is open or opening; otherwise `connecting` and a new socket at `<base>/ws/stt` |
| SttWsClient.OpenedSpec | desktop/src/app/core/services/clients/stt.ws.client.ts:32 | the opened socket, if still held, becomes open, and `connected` is emitted |
| SttWsClient.ClosingSpec | desktop/src/app/core/services/clients/stt.ws.client.ts:25 | the held socket, if it is the one closing, is marked `CLOSING`; nothing is emitted |
| SttWsClient.MessageSpec | desktop/src/app/core/services/clients/stt.ws.client.ts:34-45 | the message stream receives `Inbound` of the frame |
| SttWsClient.ErrorSpec | desktop/src/app/core/services/clients/stt.ws.client.ts:47-49 | the message stream receives "WebSocket error" |
| SttWsClient.ClosedSpec | desktop/src/app/core/services/clients/stt.ws.client.ts:51-54 | `disconnected`, and the held socket is dropped whichever socket closed |
| SttWsClient.DisconnectSpec | desktop/src/app/core/services/clients/stt.ws.client.ts:57-63 | closes the held socket if any, drops it, and emits `disconnected` |
| SttWsClient.SendSpec | desktop/src/app/core/services/clients/stt.ws.client.ts:65-71 | transmits the message's JSON on an open socket, otherwise emits "WS not connected" |
| SttWsClient.SttWsClient.constructor | desktop/src/app/core/services/clients/stt.ws.client.ts:16-22 | no socket and nothing emitted |
| SttWsClient.SttWsClient.Connect | desktop/src/app/core/services/clients/stt.ws.client.ts:24-55 | the state becomes `ConnectSpec` of the old one |
| SttWsClient.SttWsClient.OnOpen | desktop/src/app/core/services/clients/stt.ws.client.ts:32 | the state becomes `OpenedSpec` of the old one |
| SttWsClient.SttWsClient.OnClosing | desktop/src/app/core/services/clients/stt.ws.client.ts:25 | only the held socket's state changes, to `CLOSING` |
| SttWsClient.SttWsClient.OnMessage | desktop/src/app/core/services/clients/stt.ws.client.ts:34-45 | the state becomes `MessageSpec` of the old one |
| SttWsClient.SttWsClient.OnError | desktop/src/app/core/services/clients/stt.ws.client.ts:47-49 | the state becomes `ErrorSpec` of the old one |
| SttWsClient.SttWsClient.OnClose | desktop/src/app/core/services/clients/stt.ws.client.ts:51-54 | the state becomes `ClosedSpec` of the old one |
| SttWsClient.SttWsClient.Disconnect | desktop/src/app/core/services/clients/stt.ws.client.ts:57-63 | the state becomes `DisconnectSpec` of the old one |
| SttWsClient.SttWsClient.Send | desktop/src/app/core/services/clients/stt.ws.client.ts:65-71 | the state becomes `SendSpec` of the old one |
| SttWsClient.SttWsClient.Start | desktop/src/app/core/services/clients/stt.ws.client.ts:73-77 | sends a start with `config` attached only when one is given |
| SttWsClient.SttWsClient.Audio | desktop/src/app/core/services/clients/stt.ws.client.ts:79-82 | sends exactly the `ClientAudio` shape |
| SttWsClient.SttWsClient.Stop | desktop/src/app/core/services/clients/stt.ws.client.ts:84-87 | sends exactly the `ClientStop` shape |
| SttWsClient.ConnectIdempotent | desktop/src/app/core/services/clients/stt.ws.client.ts:25-27 | connecting again while a socket is open or opening changes nothing, so at most one socket is made |
| SttWsClient.ConnectThenOpen | desktop/src/app/core/services/clients/stt.ws.client.ts:29-32 | without a live socket, connect emits `connecting` and opens `<base>/ws/stt`; when it opens, `connected` follows and sending is possible |
| SttWsClient.InboundForwarding | desktop/src/app/core/services/clients/stt.ws.client.ts:34-45 | a frame is forwarded unchanged exactly when it is an object with `type`, otherwise it becomes an error event; only the event log changes |
| SttWsClient.ErrorAndClose | desktop/src/app/core/services/clients/stt.ws.client.ts:47-54 | a socket error emits an error event; a close emits `disconnected` and drops the socket |
| SttWsClient.DisconnectAlways | desktop/src/app/core/services/clients/stt.ws.client.ts:57-63 | disconnect always ends with `disconnected` and no socket, and closes a socket exactly when there was one |
| SttWsClient.SendOutcome | desktop/src/app/core/services/clients/stt.ws.client.ts:65-71 | not open: nothing transmitted and one "WS not connected" event; open: exactly the message's JSON is transmitted, and the backend reads it back as the same message |
| SttWsClient.ClosingSocket | desktop/src/app/core/services/clients/stt.ws.client.ts:25-28 | while the held socket is closing, sending refuses with "WS not connected", `connect` opens a new socket at once, and the old socket's late `onclose` drops the new one |
| SttWsClient.StartConfigKey | desktop/src/app/core/services/clients/stt.ws.client.ts:73-77 | the start frame carries `config` exactly when a config is given |
| DesktopStt.FilledConfig | desktop/src/app/core/services/stt.service.ts:26-35 | exactly the seven keys; each is the caller's value, or its default where that is null or missing |
| DesktopStt.SttService.constructor | desktop/src/app/core/services/stt.service.ts:5-8 | the service holds the given client |
| DesktopStt.SttService.Start | desktop/src/app/core/services/stt.service.ts:14-39 | the client sends start with the filled configuration |
| DesktopStt.SttService.SendAudioChunk | desktop/src/app/core/services/stt.service.ts:41-43 | the client sends audio in "pcm16", at 16000 Hz unless a rate is given |
| DesktopStt.SttService.Stop | desktop/src/app/core/services/stt.service.ts:45-47 | delegates to the client's stop |
| DesktopStt.SttService.Disconnect | desktop/src/app/core/services/stt.service.ts:49-51 | delegates to the client's disconnect |
| DesktopStt.EmptyConfigDefaults | desktop/src/app/core/services/stt.service.ts:27-30 | an empty record gets provider "whisper_selfhosted", language "es", rate 16000 and format "pcm16" |
| DesktopStt.EmptyConfigPartials | desktop/src/app/core/services/stt.service.ts:32-34 | an empty record gets the `partial_*` timings 1.6, 6.0 and 2.0 as exact decimals |
| DesktopStt.EmptyTakesDefault | desktop/src/app/core/services/stt.service.ts:26-35 | with an empty record, each of the seven keys takes its default |
| DesktopStt.SuppliedValuesKept | desktop/src/app/core/services/stt.service.ts:27-34 | a supplied value is kept even when it is 0, "" or false; only null or missing is replaced |
| DesktopStt.PartialKeysAlwaysSent | desktop/src/app/core/services/stt.service.ts:32-38 | the three `partial_*` keys are always present, and the frame sent carries the filled record as `config` |
| AudioCapture.WorkletChunk | desktop/src/app/core/services/audio/audio-capture.service.ts:121-132 | nothing unless the message is a chunk; otherwise the first `samples` samples when 0 < samples < length, else the whole buffer, at the message's rate or the target rate |
| AudioCapture.AudioCaptureService.constructor | desktop/src/app/core/services/audio/audio-capture.service.ts:8-19 | every resource field is null |
| AudioCapture.AudioCaptureService.Obtain | desktop/src/app/core/services/audio/audio-capture.service.ts:31-58 | returns a handle not used before |
| AudioCapture.StartSpec | desktop/src/app/core/services/audio/audio-capture.service.ts:21-133 | stop first; then context, worklet node and silent gain; then the streams the mode needs (default microphone, default rate 16000); a desktop mode without a source id throws after the first three exist |
| AudioCapture.StopSpec | desktop/src/app/core/services/audio/audio-capture.service.ts:135-169 | every held handle released in the service's order and every field cleared |
| AudioCapture.AudioCaptureService.Start | desktop/src/app/core/services/audio/audio-capture.service.ts:21-133 | the state becomes `StartSpec` of the old one |
| AudioCapture.AudioCaptureService.Prepare | desktop/src/app/core/services/audio/audio-capture.service.ts:30-53 | the context, the worklet node and the silent gain are created, in that order |
| AudioCapture.AudioCaptureService.AttachStream | desktop/src/app/core/services/audio/audio-capture.service.ts:56-85 | one stream and its source node are added |
| AudioCapture.AudioCaptureService.AttachMix | desktop/src/app/core/services/audio/audio-capture.service.ts:87-118 | both streams, a source node for each, and the mixer are added |
| AudioCapture.AudioCaptureService.Stop | desktop/src/app/core/services/audio/audio-capture.service.ts:135-169 | the state becomes `StopSpec` of the old one |
| AudioCapture.AudioCaptureService.DropNodes | desktop/src/app/core/services/audio/audio-capture.service.ts:144-150 | the six audio-node fields become null and no other field changes |
| AudioCapture.AudioCaptureService.DropStreams | desktop/src/app/core/services/audio/audio-capture.service.ts:152-168 | the context and the three stream fields become null and no other field changes |
| AudioCapture.ReleasedAppend | desktop/src/app/core/services/audio/audio-capture.service.ts:135-169 | what two runs of releases give back is the union of what each gives back |
| AudioCapture.ReleasedAll | desktop/src/app/core/services/audio/audio-capture.service.ts:135-169 | releasing a list of optional handles gives back exactly the handles in it |
| AudioCapture.ValuesAtLeast | desktop/src/app/core/services/audio/audio-capture.service.ts:135-169 | every handle in a list whose handles all come from b or later is at least b |
| AudioCapture.StopReleasesAll | desktop/src/app/core/services/audio/audio-capture.service.ts:135-169 | after stop no handle is held, and what stop released is exactly what was held |
| AudioCapture.NoneReleased | desktop/src/app/core/services/audio/audio-capture.service.ts:152-168 | a list of null handles releases nothing |
| AudioCapture.ValuesIn | desktop/src/app/core/services/audio/audio-capture.service.ts:135-169 | a handle present in the list is among its values |
| AudioCapture.StopWhenIdle | desktop/src/app/core/services/audio/audio-capture.service.ts:152-168 | stop with nothing acquired changes nothing |
| AudioCapture.StartStopsFirst | desktop/src/app/core/services/audio/audio-capture.service.ts:26 | start's effects begin with those of stop, and every handle held afterwards is new |
| AudioCapture.StartDefaults | desktop/src/app/core/services/audio/audio-capture.service.ts:23-28 | without a mode the microphone is used, and without a target the worklet resamples to 16000 Hz |
| AudioCapture.DesktopModesNeedSource | desktop/src/app/core/services/audio/audio-capture.service.ts:62-89 | `system` and `both` throw without a source id (missing or empty), holding the context, node and gain but no stream |
| AudioCapture.PreparedHolds | desktop/src/app/core/services/audio/audio-capture.service.ts:30-53 | from a service that holds nothing, the common part of `start` holds exactly the context, the node and the gain |
| AudioCapture.ChunkSlicing | desktop/src/app/core/services/audio/audio-capture.service.ts:125-129 | a 2048-sample chunk that says 100 is cut to 100; a missing or out-of-range count passes it whole |
| DesktopSession.StartSpec | desktop/src/app/core/stores/session.store.ts:39-97 | nothing while recording; an error entry without a source; only the connect attempt when it fails; otherwise recording with the new ids, the listening entry, the subscription, the start frame and system capture at 16000 |
| DesktopSession.DeliverSpec | desktop/src/app/core/stores/session.store.ts:62-78 | a partial updates the entry; a final or an error finalises it and ends the session; anything else is ignored |
| DesktopSession.ChunkSpec | desktop/src/app/core/stores/session.store.ts:89-93 | audio is forwarded, base64-encoded, only while recording |
| DesktopSession.StopSpec | desktop/src/app/core/stores/session.store.ts:99-109 | only from recording: processing, capture stopped, stop sent |
| DesktopSession.SessionStore.constructor | desktop/src/app/core/stores/session.store.ts:17-21 | idle, no session id, no entry, no subscription |
| DesktopSession.SessionStore.StartSession | desktop/src/app/core/stores/session.store.ts:39-97 | the state becomes `StartSpec` of the old one |
| DesktopSession.SessionStore.Deliver | desktop/src/app/core/stores/session.store.ts:62-78 | the state becomes `DeliverSpec` of the old one |
| DesktopSession.SessionStore.OnChunk | desktop/src/app/core/stores/session.store.ts:89-93 | the state becomes `ChunkSpec` of the old one |
| DesktopSession.SessionStore.StopSession | desktop/src/app/core/stores/session.store.ts:99-109 | the state becomes `StopSpec` of the old one |
| DesktopSession.SessionStore.SetProcessing | desktop/src/app/core/stores/session.store.ts:111-113 | status becomes processing from any status, and nothing else changes |
| DesktopSession.StartNeedsSource | desktop/src/app/core/stores/session.store.ts:45-49 | without a system source, one error entry is added and nothing else happens: no connection and no status change |
| DesktopSession.StartWhileRecording | desktop/src/app/core/stores/session.store.ts:40 | start while recording changes nothing |
| DesktopSession.StartOrder | desktop/src/app/core/stores/session.store.ts:52-96 | once connected: recording under the new id, and the calls in order connect, streaming entry, subscribe, start with defaults, capture of the source at 16000 Hz |
| DesktopSession.PartialUpdatesEntry | desktop/src/app/core/stores/session.store.ts:63-64 | a partial updates the one owned entry in the streaming state and changes nothing else |
| DesktopSession.FinalOrErrorEnds | desktop/src/app/core/stores/session.store.ts:65-77 | final settles the entry and error marks it with the message (or "Error STT"); both reset to idle with no ids and no subscription, and disconnect |
| DesktopSession.ChunkOnlyWhileRecording | desktop/src/app/core/stores/session.store.ts:89-93 | audio is forwarded, base64-encoded, exactly while recording, and the backend decodes it to the samples' bytes |
| DesktopSession.StopOnlyFromRecording | desktop/src/app/core/stores/session.store.ts:99-109 | stop acts only while recording: processing, then capture stopped, then `stop` sent |
| DesktopSession.StartThenFinal | desktop/src/app/core/stores/session.store.ts:39-78 | start followed by the backend's final returns to idle with no subscription, having disconnected |
| SessionControl.Resumed | desktop/src/app/core/controllers/session.controller.ts:48-57 | one start frame per waiting configuration, all under the session id current at that moment |
| SessionControl.StartSpec | desktop/src/app/core/controllers/session.controller.ts:37-48 | the new session id, no entry, capture not running, the configuration queued, then session start and connect |
| SessionControl.ForceStopSpec | desktop/src/app/core/controllers/session.controller.ts:69-74 | capture marked stopped, no entry, audio and session stopped |
| SessionControl.StopSpec | desktop/src/app/core/controllers/session.controller.ts:60-66 | only while recording: processing, audio stopped, stop sent |
| SessionControl.StatusSpec | desktop/src/app/core/controllers/session.controller.ts:25-29 | a disconnect outside idle force-stops; a connect sends every queued start under the current id |
| SessionControl.StartAudioSpec | desktop/src/app/core/controllers/session.controller.ts:76-84 | capture starts once, at the given rate |
| SessionControl.ChunkSpec | desktop/src/app/core/controllers/session.controller.ts:80-83 | audio is sent, base64-encoded, only once a session id exists |
| SessionControl.MessageSpec | desktop/src/app/core/controllers/session.controller.ts:86-118 | foreign messages ignored; ready starts capture; partials create or update one streaming entry; a final or an error settles it and force-stops |
| SessionControl.SessionController.constructor | desktop/src/app/core/controllers/session.controller.ts:18-30 | no session id, no entry, capture not running, nothing waiting |
| SessionControl.SessionController.OnStatus | desktop/src/app/core/controllers/session.controller.ts:25-29 | the state becomes `StatusSpec` of the old one |
| SessionControl.SessionController.TogglePlay | desktop/src/app/core/controllers/session.controller.ts:32-35 | stop while recording, start otherwise |
| SessionControl.SessionController.Start | desktop/src/app/core/controllers/session.controller.ts:37-48 | the state becomes `StartSpec` of the old one |
| SessionControl.SessionController.Stop | desktop/src/app/core/controllers/session.controller.ts:60-66 | the state becomes `StopSpec` of the old one |
| SessionControl.SessionController.ForceStop | desktop/src/app/core/controllers/session.controller.ts:69-74 | the state becomes `ForceStopSpec` of the old one |
| SessionControl.SessionController.StartAudioIfNeeded | desktop/src/app/core/controllers/session.controller.ts:76-84 | the state becomes `StartAudioSpec` of the old one |
| SessionControl.SessionController.OnChunk | desktop/src/app/core/controllers/session.controller.ts:80-83 | the state becomes `ChunkSpec` of the old one |
| SessionControl.SessionController.OnSttMsg | desktop/src/app/core/controllers/session.controller.ts:86-118 | the state becomes `MessageSpec` of the old one |
| SessionControl.ForeignIgnored | desktop/src/app/core/controllers/session.controller.ts:87 | a message for another session changes nothing; one with no or an empty `session_id` is handled |
| SessionControl.ReadyStartsCaptureOnce | desktop/src/app/core/controllers/session.controller.ts:76-92 | after one `ready` capture is flagged running, and a second `ready` changes nothing |
| SessionControl.PartialKeepsOneEntry | desktop/src/app/core/controllers/session.controller.ts:95-101 | a partial adds a streaming entry only when there is none, and otherwise updates that entry and keeps its id |
| SessionControl.CountStreamingAppend | desktop/src/app/core/controllers/session.controller.ts:95-101 | counting streaming entries distributes over concatenation of effect logs |
| SessionControl.PartialsCreateAtMostOneEntry | desktop/src/app/core/controllers/session.controller.ts:95-101 | any run of partials creates at most one streaming entry |
| SessionControl.FinalSettlesAndStops | desktop/src/app/core/controllers/session.controller.ts:104-111 | a final settles the entry or adds one final entry, then tears down: capture stopped, store stopped, no entry, capture flagged off |
| SessionControl.ErrorReportsAndStops | desktop/src/app/core/controllers/session.controller.ts:114-117 | an error adds exactly one error entry with the message or "STT error", and tears down like a final |
| SessionControl.DisconnectForcesStop | desktop/src/app/core/controllers/session.controller.ts:25-29 | `disconnected` while the store is not idle forces a stop; while idle it changes nothing |
| SessionControl.StopOnlyWhileRecording | desktop/src/app/core/controllers/session.controller.ts:60-66 | stop acts only while recording: processing first, then capture stopped, then `stop` sent |
| SessionControl.StartThenConnected | desktop/src/app/core/controllers/session.controller.ts:37-58 | start then `connected` sends exactly one start frame, with the settings' configuration (language "en" by default), under the new id |
| Chat.Greeting | desktop/src/app/core/stores/chat.store.ts:9-15 | two messages, from the user then the assistant, stamped with the two clock readings and with different ids |
| Chat.ChatStore.constructor | desktop/src/app/core/stores/chat.store.ts:9-15 | the greeting and not loading |
| Chat.ChatStore.AddMessage | desktop/src/app/core/stores/chat.store.ts:21-23 | the message is appended at the end, earlier ones stay in order, and `isLoading` is unchanged |
| Chat.ChatStore.ClearMessages | desktop/src/app/core/stores/chat.store.ts:24-26 | the list is empty and `isLoading` is unchanged |
| Settings.JsFloor | desktop/src/app/core/stores/settings.store.ts:13 | `Math.floor`: a finite value goes to its floor, and NaN and the infinities are kept |
| Settings.JsMax | desktop/src/app/core/stores/settings.store.ts:15 | `Math.max`: NaN when either argument is NaN, else one of the two and no smaller than either |
| Settings.JsMin | desktop/src/app/core/stores/settings.store.ts:15 | `Math.min`: NaN when either argument is NaN, else one of the two and no larger than either |
| Settings.JsScale | desktop/src/app/core/stores/settings.store.ts:13 | multiplying by a positive constant keeps finiteness and scales a finite value |
| Settings.ClampInt | desktop/src/app/core/stores/settings.store.ts:12-16 | a non-finite value gives min; the result lies in [min, max] when min <= max, and equals floor(v) when that is in range |
| Settings.Clamp01 | desktop/src/app/core/stores/settings.store.ts:8-11 | the result lies in [0, 1], a value already there is kept, and a non-finite value gives 1 |
| Settings.NormalizeHttpBaseUrl | desktop/src/app/core/stores/settings.store.ts:18-26 | blank input gives the fallback; otherwise the trimmed input, prefixed with "http://" unless it has a case-insensitive http(s) scheme, with trailing slashes removed |
| Settings.NormalizeWsBaseUrl | desktop/src/app/core/stores/settings.store.ts:28-35 | the same rules with "ws://" and a ws(s) scheme |
| Settings.Merge | desktop/src/app/core/stores/settings.store.ts:47-77 | every field the saved value's when present, the default's otherwise |
| Settings.Clamped | desktop/src/app/core/stores/settings.store.ts:102-106 | opacity into 0..1 and the four integer fields into their ranges, nothing else touched |
| Settings.Loaded | desktop/src/app/core/stores/settings.store.ts:47-93 | merged, clamped, and both base URLs normalised against the defaults |
| Settings.SettingsStore.constructor | desktop/src/app/core/stores/settings.store.ts:39-41 | starts at the defaults with nothing persisted, within range |
| Settings.SettingsStore.Init | desktop/src/app/core/stores/settings.store.ts:43-96 | with nothing saved the settings are unchanged; otherwise they are the merged, clamped and normalised saved values; nothing is persisted |
| Settings.SettingsStore.UpdateDeep | desktop/src/app/core/stores/settings.store.ts:98-110 | the settings become the clamped result of the mutator, exactly that value is persisted, and the settings are within range |
| Settings.IntInOfClamp | desktop/src/app/core/stores/settings.store.ts:12-16 | a clamped value is an integer within its range |
| Settings.ClampedInRanges | desktop/src/app/core/stores/settings.store.ts:102-106 | whatever the mutator wrote, the clamped fields lie in their ranges (sample rate, chunk, minimum silence, max tokens, opacity) |
| Settings.ClampedKeepsInRange | desktop/src/app/core/stores/settings.store.ts:102-106 | settings already in range are left unchanged by the clamps |
| Settings.ClampedIdempotent | desktop/src/app/core/stores/settings.store.ts:102-106 | clamping twice is clamping once |
| Settings.DefaultsInRanges | desktop/src/app/core/stores/settings.store.ts:41 | the defaults are within range |
| Settings.LoadedInRanges | desktop/src/app/core/stores/settings.store.ts:79-93 | loaded settings are within range, and a blank saved base URL falls back to the default |
| Settings.ClampIntExamples | desktop/src/app/core/stores/settings.store.ts:12-16 | NaN and Infinity clamp to the minimum, 2500.7 to 2500, and 99999 to the maximum |
| Settings.NormalizeBlank | desktop/src/app/core/stores/settings.store.ts:19-20 | blank input gives the fallback |
| Settings.NormalizeUpperScheme | desktop/src/app/core/stores/settings.store.ts:23-25 | "HTTPS://a/" keeps its upper-case scheme and loses the slash |
| Settings.NormalizeAddsScheme | desktop/src/app/core/stores/settings.store.ts:32 | "h:1//" becomes "ws://h:1" |
| Application.InputAuthor | desktop/src/app/core/stores/app.store.ts:11-14 | "user" exactly when the input mode is "mic", else "system" |
| Application.MinSilenceWrite | desktop/src/app/core/stores/app.store.ts:24 | `max(0, floor(v * 1000))` for a finite value, with JavaScript's results for NaN and the infinities |
| Application.AppStore.constructor | desktop/src/app/core/stores/app.store.ts:7-9 | the store reads the given settings store |
| Application.AppStore.SetDetectQuestions | desktop/src/app/core/stores/app.store.ts:16-20 | only `detectQuestionsAutomatically` changes, and the new settings are persisted |
| Application.AppStore.SetMinSilenceSeconds | desktop/src/app/core/stores/app.store.ts:22-26 | the settings become the clamped settings with `MinSilenceWrite(v)` written, and are persisted |
| Application.AppStore.SetInputMode | desktop/src/app/core/stores/app.store.ts:28-32 | only the input mode changes, and the new settings are persisted |
| Application.MinSilenceStored | desktop/src/app/core/stores/app.store.ts:22-26 | v in 1..10 seconds stores floor(v * 1000); above 10 stores 10000; below 1, or not finite, stores 1000 |
| SettingsExtras.MinSilenceSeconds | desktop/src/app/features/settings/components/settings-extras/settings-extras.component.ts:16-18 | the stored milliseconds over 1000, rounded as `Math.round` does |
| SettingsExtras.SettingsExtrasPanel.Enabled | desktop/src/app/features/settings/components/settings-extras/settings-extras.component.ts:12-14 | the stored question-detection switch |
| SettingsExtras.JsRound | desktop/src/app/features/settings/components/settings-extras/settings-extras.component.ts:17 | `Math.round`: floor(x + 0.5) for a finite value; NaN and the infinities are kept |
| SettingsExtras.SecondsFor | desktop/src/app/features/settings/components/settings-extras/settings-extras.component.ts:27-29 | an integer in 1..10: floor(n) when that is in range, 10 above it, 1 below it and 1 for a non-finite input |
| SettingsExtras.SettingsExtrasPanel.constructor | desktop/src/app/features/settings/components/settings-extras/settings-extras.component.ts:9-10 | the panel reads the given settings store |
| SettingsExtras.SettingsExtrasPanel.ToggleDetect | desktop/src/app/features/settings/components/settings-extras/settings-extras.component.ts:20-24 | only `detectQuestionsAutomatically` changes, and `enabled` reads the new value |
| SettingsExtras.SettingsExtrasPanel.SetMinSilenceSeconds | desktop/src/app/features/settings/components/settings-extras/settings-extras.component.ts:26-33 | `minSilenceMs` becomes `SecondsFor(n) * 1000`, nothing else changes, and the settings stay within range |
| SettingsExtras.StoredSecondsInRange | desktop/src/app/features/settings/components/settings-extras/settings-extras.component.ts:29-32 | the stored value lies in 1000..10000 and is a whole number of seconds times 1000 |
| SettingsExtras.ShownSecondsInRange | desktop/src/app/features/settings/components/settings-extras/settings-extras.component.ts:16-18 | settings within range show a minimum silence in 1..10 seconds |
| SettingsExtras.SecondsRoundTrip | desktop/src/app/features/settings/components/settings-extras/settings-extras.component.ts:16-33 | setting an integer k in 1..10 and reading it back gives k |
| Connections.NextSelected | desktop/src/app/core/stores/connection.store.ts:66-70 | keeps the current name when listed, else the list's first, else the fallback; a non-empty list always yields a listed name |
| Connections.ConnectionStore.constructor | desktop/src/app/core/stores/connection.store.ts:14-19 | offline, no latency, no error, no providers |
| Connections.ConnectionStore.IsReady | desktop/src/app/core/stores/connection.store.ts:28-32 | ready exactly when online and both provider lists are non-empty |
| Connections.ConnectionStore.RefreshHealth | desktop/src/app/core/stores/connection.store.ts:34-49 | online exactly when the status is "ok", with the latency and no error; a failure sets offline, no latency, and the message or "Health check failed" |
| Connections.ConnectionStore.LoadProviders | desktop/src/app/core/stores/connection.store.ts:51-81 | missing items read as empty lists; both selections follow `NextSelected` with fallbacks "cloud_stub" and "openai_compat"; a failure records the message or "Failed to load providers" and changes nothing else |
| Connections.ConnectionStore.SetSelectedSttProviderId | desktop/src/app/core/stores/connection.store.ts:83-87 | only the STT selection changes, and it is persisted |
| Connections.ConnectionStore.SetSelectedLlmProviderId | desktop/src/app/core/stores/connection.store.ts:89-93 | only the LLM selection changes, and it is persisted |
| Connections.LoadedSelectionListed | desktop/src/app/core/stores/connection.store.ts:59-75 | after a load each selection is listed when its list is non-empty and is the fallback otherwise; in-range settings change in nothing else |
| Connections.NextSelectedStable | desktop/src/app/core/stores/connection.store.ts:66-70 | applying the rule to its own result over the same list changes nothing |
| ConnectionsPanel.MaskKey | desktop/src/app/features/settings/panels/settings-connections-panel/settings-connections-panel.component.ts:50-52 | empty stays empty; up to 10 characters shown unchanged; longer keys show the first 6, "…" and the last 4 |
| ConnectionsPanel.ApiBaseInput | desktop/src/app/features/settings/panels/settings-connections-panel/settings-connections-panel.component.ts:88-96 | blank input stays empty, and the stored URL never ends in "/" |
| ConnectionsPanel.WsBaseInput | desktop/src/app/features/settings/panels/settings-connections-panel/settings-connections-panel.component.ts:99-107 | blank input stays empty, and the stored URL never ends in "/" |
| ConnectionsPanel.TimeoutInput | desktop/src/app/features/settings/panels/settings-connections-panel/settings-connections-panel.component.ts:147 | max(1000, floor(n)) for a finite n; 1000 for NaN or -Infinity; Infinity stays Infinity |
| ConnectionsPanel.Finish | desktop/src/app/features/settings/panels/settings-connections-panel/settings-connections-panel.component.ts:219-225 | a settled probe is unchanged; an unsettled one settles with the given result |
| ConnectionsPanel.ProbeBegin | desktop/src/app/features/settings/panels/settings-connections-panel/settings-connections-panel.component.ts:214-230 | arms the timer at max(1000, timeout) first; a socket that cannot be made settles the probe with a rejection, otherwise the probe waits |
| ConnectionsPanel.ProbeOpened | desktop/src/app/features/settings/panels/settings-connections-panel/settings-connections-panel.component.ts:232-234 | the start frame is sent |
| ConnectionsPanel.ProbeMessage | desktop/src/app/features/settings/panels/settings-connections-panel/settings-connections-panel.component.ts:236-250 | `ready` settles true, `error` settles false, both clearing the timer; other frames are ignored |
| ConnectionsPanel.ProbeError | desktop/src/app/features/settings/panels/settings-connections-panel/settings-connections-panel.component.ts:252-255 | the timer cleared and the probe rejected with "WebSocket error" |
| ConnectionsPanel.ProbeClosed | desktop/src/app/features/settings/panels/settings-connections-panel/settings-connections-panel.component.ts:257-262 | an unsettled probe clears the timer and settles false; a settled one is unchanged |
| ConnectionsPanel.ProbeTimedOut | desktop/src/app/features/settings/panels/settings-connections-panel/settings-connections-panel.component.ts:227 | the probe settles false |
| ConnectionsPanel.ProbeStep | desktop/src/app/features/settings/panels/settings-connections-panel/settings-connections-panel.component.ts:227-262 | each event goes to its handler |
| ConnectionsPanel.ProbeRun | desktop/src/app/features/settings/panels/settings-connections-panel/settings-connections-panel.component.ts:219-262 | the events in order |
| ConnectionsPanel.WsProbe.constructor | desktop/src/app/features/settings/panels/settings-connections-panel/settings-connections-panel.component.ts:214-230 | the probe's state is `ProbeBegin` |
| ConnectionsPanel.WsProbe.FinishWith | desktop/src/app/features/settings/panels/settings-connections-panel/settings-connections-panel.component.ts:219-225 | the state becomes `Finish` of the old one |
| ConnectionsPanel.WsProbe.OnOpen | desktop/src/app/features/settings/panels/settings-connections-panel/settings-connections-panel.component.ts:232-234 | the state becomes `ProbeOpened` of the old one |
| ConnectionsPanel.WsProbe.OnMessage | desktop/src/app/features/settings/panels/settings-connections-panel/settings-connections-panel.component.ts:236-250 | the state becomes `ProbeMessage` of the old one |
| ConnectionsPanel.WsProbe.OnError | desktop/src/app/features/settings/panels/settings-connections-panel/settings-connections-panel.component.ts:252-255 | the state becomes `ProbeError` of the old one |
| ConnectionsPanel.WsProbe.OnClose | desktop/src/app/features/settings/panels/settings-connections-panel/settings-connections-panel.component.ts:257-262 | the state becomes `ProbeClosed` of the old one |
| ConnectionsPanel.WsProbe.OnTimeout | desktop/src/app/features/settings/panels/settings-connections-panel/settings-connections-panel.component.ts:227 | the state becomes `ProbeTimedOut` of the old one |
| ConnectionsPanel.ConnectionsPanelState.constructor | desktop/src/app/features/settings/panels/settings-connections-panel/settings-connections-panel.component.ts:56-59 | both statuses idle and no errors |
| ConnectionsPanel.ConnectionsPanelState.OnUrlsChanged | desktop/src/app/features/settings/panels/settings-connections-panel/settings-connections-panel.component.ts:77-84 | both statuses idle and both errors cleared |
| ConnectionsPanel.ConnectionsPanelState.OnApiBaseUrlInput | desktop/src/app/features/settings/panels/settings-connections-panel/settings-connections-panel.component.ts:88-96 | only the API base URL changes, to `ApiBaseInput(v)`, and it is persisted |
| ConnectionsPanel.ConnectionsPanelState.OnWsBaseUrlInput | desktop/src/app/features/settings/panels/settings-connections-panel/settings-connections-panel.component.ts:99-107 | only the WS base URL changes, to `WsBaseInput(v)`, and it is persisted |
| ConnectionsPanel.ConnectionsPanelState.OnPickLlmProvider | desktop/src/app/features/settings/panels/settings-connections-panel/settings-connections-panel.component.ts:111-115 | only the LLM selection changes; the LLM status is reset to idle and its error to null; the STT status is untouched |
| ConnectionsPanel.ConnectionsPanelState.OnPickSttProvider | desktop/src/app/features/settings/panels/settings-connections-panel/settings-connections-panel.component.ts:117-121 | only the STT selection changes; the STT status is reset to idle and its error to null; the LLM status is untouched |
| ConnectionsPanel.ConnectionsPanelState.OnLlmApiKeyInput | desktop/src/app/features/settings/panels/settings-connections-panel/settings-connections-panel.component.ts:124-132 | the selected provider's key becomes the input; the LLM status is reset to idle and its error to null |
| ConnectionsPanel.ConnectionsPanelState.OnLlmModelInput | desktop/src/app/features/settings/panels/settings-connections-panel/settings-connections-panel.component.ts:134-144 | the selected provider's model becomes the trimmed input; the LLM status becomes idle and its error is kept |
| ConnectionsPanel.ConnectionsPanelState.WriteLlmModel | desktop/src/app/features/settings/panels/settings-connections-panel/settings-connections-panel.component.ts:136-143 | a trimmed name goes to the selected provider's model and nothing else changes; the LLM status becomes idle |
| ConnectionsPanel.ConnectionsPanelState.OnSttTimeoutInput | desktop/src/app/features/settings/panels/settings-connections-panel/settings-connections-panel.component.ts:146-151 | the custom timeout becomes `TimeoutInput(n)`; the STT status is reset to idle and its error to null |
| ConnectionsPanel.ConnectionsPanelState.BeginSttTest | desktop/src/app/features/settings/panels/settings-connections-panel/settings-connections-panel.component.ts:197-199 | the STT status is checking and its error null |
| ConnectionsPanel.ConnectionsPanelState.EndSttTest | desktop/src/app/features/settings/panels/settings-connections-panel/settings-connections-panel.component.ts:204-211 | ok only when the probe resolved true; false gives "No se recibió 'ready' a tiempo"; a rejection gives its message or "No se pudo probar STT" |
| ConnectionsPanel.MaskedFollowsProvider | desktop/src/app/features/settings/panels/settings-connections-panel/settings-connections-panel.component.ts:41-53 | the masked key is the gemini key exactly when "gemini" is selected, otherwise the openaiCompat key |
| ConnectionsPanel.ApiBaseInputAgrees | desktop/src/app/features/settings/panels/settings-connections-panel/settings-connections-panel.component.ts:88-96 | non-blank input is stored exactly as the settings store's `normalizeHttpBaseUrl` would store it; blank input is stored empty where that would use the fallback |
| ConnectionsPanel.WsBaseInputAgrees | desktop/src/app/features/settings/panels/settings-connections-panel/settings-connections-panel.component.ts:99-107 | the same agreement with `normalizeWsBaseUrl` |
| ConnectionsPanel.SettledStaysSettled | desktop/src/app/features/settings/panels/settings-connections-panel/settings-connections-panel.component.ts:219-221 | any event after settling keeps the probe settled with the same result |
| ConnectionsPanel.SettlesOnce | desktop/src/app/features/settings/panels/settings-connections-panel/settings-connections-panel.component.ts:219-225 | any run of events after settling keeps the first result |
| ConnectionsPanel.ProbeOutcomes | desktop/src/app/features/settings/panels/settings-connections-panel/settings-connections-panel.component.ts:227-262 | an unsettled probe resolves true exactly on a `ready` frame, false on an `error` frame, a close or a timeout, rejects on a socket error, and other events leave it waiting |
| ConnectionsPanel.IgnoredFrames | desktop/src/app/features/settings/panels/settings-connections-panel/settings-connections-panel.component.ts:236-250 | unparseable text and non-object values change nothing |
| HttpClients.ApiBase | desktop/src/app/core/services/clients/llm.client.ts:22 | the default "http://127.0.0.1:8000" when unset; otherwise the configured URL minus trailing slashes; never ends in "/" |
| HttpClients.SafePayload | desktop/src/app/core/services/clients/llm.client.ts:13-20 | `messages` passed through; each optional field the caller's value, or its default (0.7, 256, null, {}, null) where null or absent |
| HttpClients.Generate | desktop/src/app/core/services/clients/llm.client.ts:12-28 | POST to base + "/llm/generate" with the safe payload and a 15-second timeout |
| HttpClients.ListSttProviders | desktop/src/app/core/services/clients/providers.client.ts:14-19 | GET base + "/providers/stt" with an 8-second timeout |
| HttpClients.ListLlmProviders | desktop/src/app/core/services/clients/providers.client.ts:21-26 | GET base + "/providers/llm" with an 8-second timeout |
| HttpClients.ApiBaseIdempotent | desktop/src/app/core/services/clients/providers.client.ts:15 | the base of a base is itself, and an extra trailing slash reaches the same endpoints |
| HttpClients.DefaultEndpoints | desktop/src/app/core/services/clients/providers.client.ts:15-24 | with no configured URL each client calls `http://127.0.0.1:8000` followed by its own path |
| HttpClients.SuppliedKept | desktop/src/app/core/services/clients/llm.client.ts:15-16 | a supplied non-null value is kept, even 0 |
| HttpClients.EmptyPayloadDefaults | desktop/src/app/core/services/clients/llm.client.ts:13-20 | an empty payload sends only the defaults |
| LlmProviders.ValidateOpenAi | backend/app/providers/llm/openai_compat.py:13-28 | checks `base_url`, `api_key`, `model`, `timeout_s` in that order, and the first failure raises its ValueError (each of the four messages stated); success returns the base without trailing slashes and the timeout (default 30) |
| LlmProviders.MessagesJson | backend/app/providers/llm/openai_compat.py:36 | one `{role, content}` object per message, in order |
| LlmProviders.OpenAiPayload | backend/app/providers/llm/openai_compat.py:34-42 | model, messages, temperature and max_tokens, each the request's own value unless `extra` names that key, and every key of `extra` overriding them |
| LlmProviders.OpenAiCall | backend/app/providers/llm/openai_compat.py:33-50 | POST to base + "/chat/completions" with "Bearer <key>" and the validated timeout |
| LlmProviders.ReplyContent | backend/app/providers/llm/openai_compat.py:54-58 | exactly `choices[0].message.content` when every step of the path exists, else nothing |
| LlmProviders.OpenAiReply | backend/app/providers/llm/openai_compat.py:50-64 | a failed request propagates its error; a missing or falsy content raises the "invalid response format" ValueError; otherwise the content is the answer |
| LlmProviders.OpenAiGenerate | backend/app/providers/llm/openai_compat.py:30-64 | the request `OpenAiCall` describes is sent exactly when validation passes; a validation error is the answer and nothing is sent; otherwise the reply decides the answer |
| LlmProviders.ValidateGemini | backend/app/providers/llm/gemini.py:8-14 | passes exactly when `api_key` and `model` are each null, absent or a string, with `api_key` checked first |
| LlmProviders.GeminiGenerate | backend/app/providers/llm/gemini.py:16-18 | always raises: the validation error, or NotImplementedError once validation passes |
| LlmProviders.OpenAiUrlShape | backend/app/providers/llm/openai_compat.py:28-33 | the request URL is the base without trailing slashes plus "/chat/completions" |
| LlmProviders.OpenAiTimeoutDefault | backend/app/providers/llm/openai_compat.py:17 | a missing `timeout_s` is 30 seconds, but an explicit null is refused |
| LlmProviders.ExtraOverrides | backend/app/providers/llm/openai_compat.py:41-42 | an `extra` naming `model` replaces the validated model in the payload |
| LlmProviders.GeminiEmptyConfig | backend/app/providers/llm/gemini.py:8-18 | an empty config passes validation and then raises "gemini provider not implemented yet" |
| LlmProviders.EmptyContentRefused | backend/app/providers/llm/openai_compat.py:60-61 | an empty content string is refused like a missing one |
| LlmRouting.ProviderByName | backend/app/services/llm_router.py:9-12 | exactly "openai_compat" and "gemini" have a provider, each under its own name |
| LlmRouting.ListProviders | backend/app/services/llm_router.py:14-15 | exactly the registered names, in strictly increasing order |
| LlmRouting.ChosenName | backend/app/services/llm_router.py:18-20 | the request's provider if non-empty, else the config's if truthy and a string, else "openai_compat" |
| LlmRouting.PickProvider | backend/app/services/llm_router.py:17-24 | the provider of the chosen name, or ValueError "Unknown LLM provider: <name>" |
| LlmRouting.ProviderGenerate | backend/app/services/llm_router.py:26-28 | dispatch to the picked provider: Gemini sends nothing, openai_compat sends and answers as `OpenAiGenerate` says |
| LlmRouting.Generate | backend/app/services/llm_router.py:26-28 | the picking error with nothing sent, or exactly the picked provider's request and answer |
| LlmRouting.SentOnlyWhenValid | backend/app/services/llm_router.py:26-28 | a request goes out exactly when openai_compat is picked and its config validates, it is `OpenAiCall` of the validated config, and every answer that does not raise had one |
| LlmRouting.DefaultsToOpenAi | backend/app/services/llm_router.py:18-20 | with no usable name anywhere the OpenAI-compatible provider is used |
| LlmRouting.RequestWins | backend/app/services/llm_router.py:18-23 | a non-empty request provider wins over the config, and is accepted exactly when listed |
| LlmRouting.AnswerNamesProvider | backend/app/services/llm_router.py:26-28 | any answer that does not raise comes from openai_compat and names it |
| AppErrors.NewAppError | backend/app/core/errors.py:6-11 | code "APP_ERROR", status 400, no details |
| AppErrors.DetailsOrEmpty | backend/app/core/errors.py:26 | `details or {}` for an optional mapping |
| AppErrors.ValidationAppError | backend/app/core/errors.py:24-26 | code "VALIDATION_ERROR", status 400, details as given or empty |
| AppErrors.ConfigError | backend/app/core/errors.py:28-30 | code "CONFIG_ERROR", status 400, details as given or empty |
| AppErrors.ProviderError | backend/app/core/errors.py:32-37 | code "PROVIDER_ERROR", status 502; a non-empty provider is added to the details, and the other details are kept |
| AppErrors.ToDict | backend/app/core/errors.py:13-22 | exactly an `error` object holding code and message, with `details` present exactly when the details are non-empty |
| AppErrors.ProviderErrorReportsProvider | backend/app/core/errors.py:32-37 | a provider error with a provider name always shows it under `error.details.provider` |
| AppErrors.NoDetailsNoBlock | backend/app/core/errors.py:20-22 | errors built without details have no `details` block |
| Secrets.GetSecret | backend/app/core/secrets.py:6-21 | a set, non-blank variable gives its stripped value; otherwise a required secret raises ConfigError naming it, and an optional one gives the default |
| Secrets.FoundIsStripped | backend/app/core/secrets.py:9-13 | a variable that is not all whitespace is returned stripped and non-empty |
| Secrets.BlankIsAbsent | backend/app/core/secrets.py:9-13 | a whitespace-only variable behaves exactly like a missing one |
| CoreModels.NewSttConfig | backend/app/core/models.py:14-18 | accepted exactly when the sample rate lies in 8000..48000; defaults "cloud_stub", "es", 16000 and pcm16 |
| CoreModels.NewLlmConfig | backend/app/core/models.py:22-27 | accepted exactly when the temperature lies in 0..2 and max_tokens in 1..8192; and then exactly the given values, with defaults "openai_compat", "gpt-4o-mini", 0.2 and 256 |
| CoreModels.Partial | backend/app/core/models.py:45-47 | kind partial, not final, with the given text and session id |
| CoreModels.Final | backend/app/core/models.py:49-51 | kind final, final, with the given text and session id |
| CoreModels.DefaultsValid | backend/app/core/models.py:15-26 | the default configurations are valid and carry the documented defaults |
| CoreModels.FactoriesAgree | backend/app/core/models.py:45-51 | `is_final` agrees with the kind for both factories, and they never build the same chunk |
| CoreModels.SampleRateBounds | backend/app/core/models.py:17 | 8000 and 48000 are accepted, 7999 and 48001 refused |

## Left out

- Real I/O is not modelled: WebSocket transport, Angular HttpClient and httpx, `localStorage`, the audio worklet and browser audio APIs, Electron desktop capture, the whisper.cpp subprocess, temporary files and WAV writing. Each is an input (an event, an outcome, a handle), an effect in a log, or a request returned next to the answer.
- Asynchrony is not modelled: `await`, `queueMicrotask` and rxjs scheduling. Every socket, worklet or subject delivery is a separate event handled to completion.
- `SttService.connect` calls `connectAsync`, which the WebSocket client does not define. Whether it resolves is a parameter of `DesktopSession.SessionStore.StartSession`.
- The session code calls `addSystemStreaming`, `updateText`, `finalizeSystem`, `addSystemError` and `addSystemFinal`, which the chat store lacks. They are calls to an abstract transcript sink, recorded in the effect log, not chat-store operations.
- Clocks, `crypto.randomUUID` and `performance.now` are not modelled: ids, timestamps and the measured latency are parameters.
- `os.getenv` is not modelled: the environment is a map.
- JavaScript doubles are not modelled: `Num` holds exact reals, so rounding of binary floating point (for instance in `v * 1000`) is not captured.
- Python floats are not modelled: temperatures pass through as decimal JSON values, and `timeout_s` is compared as an exact decimal.
- `Number(value)` parsing of text inputs is not modelled: the panel handlers receive the parsed number.
- `snapshot_last_seconds` takes whole seconds; the float multiply `seconds * bytes_per_second` is not modelled.
- `clamp01`, the opacity clamp, is modelled on exact reals; the other float helpers (`pcm16_duration_seconds`, `estimate_pcm16_bytes`) are not modelled.
- Settings fields that no modelled operation reads or writes (theme, hotkeys, overlay, general) are not modelled. Saved settings whose fields are null or of the wrong type are not modelled: a saved field is either present with the right type or absent.
- `testLlm` in the connections panel is not modelled; it only composes the HTTP client's `generate` with status updates.
- `validate_url`, which relies on `urlparse`, is not modelled.
- `base64.b64decode` without `validate=True` silently skips characters outside the alphabet; the model decodes canonical text only and refuses anything else, so `SttWire.B64ToBytes` is stricter than Python for non-canonical input.
- `SttProviders.PyInt` does not accept the underscores and non-ASCII digits Python's `int()` allows in strings.
- Text trimming uses ASCII whitespace plus NO-BREAK SPACE; Python's `strip` and JavaScript's `trim` remove further Unicode spaces.
- The whisper.cpp binary and model paths (`_paths`) are not computed: their existence is an input.
- The audio worklet's message fields are given as integers; a non-integer `samples` or `sampleRate` is not modelled.
- `SttRouting.StartSpec` treats a truthy non-string `session_id` as missing, where Python would go on to use it as a dictionary key.
- `DesktopSession.SessionStore` keeps only the latest subscription; a second subscription left by a repeated `startSession` is not modelled.
- `SessionControl.MessageSpec` records the error text of an error entry as the raw value shown, not its string conversion.
- `LlmProviders.OpenAiReply` does not model `raise_for_status` details or the `usage` field beyond passing it on; an HTTP failure is one error value.
- Pydantic's coercion and validation messages are not modelled: `CoreModels.NewSttConfig` and `CoreModels.NewLlmConfig` return `None` for an out-of-range value.
