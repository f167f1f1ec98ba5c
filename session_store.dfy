/** The backend's in-memory store of speech-to-text sessions (`session_store.py`):
    a dictionary from session id to a record holding the session's config, its
    count of accepted audio chunks and the bytes accumulated so far. Each store
    operation is specified by a function over the dictionary; the class methods
    change the dictionary exactly as those functions say. */
module SttSessions {
  import opened Wrappers
  import opened Json
  import opened Base64

  /** `STTSession`. The creation timestamp and the partial-transcription fields,
      which no operation here reads, are not part of the model. */
  datatype StSession = StSession(sessionId: string, config: Object, audioChunks: nat, audioBytes: seq<byte>)

  type Sessions = map<string, StSession>

  /** A new session: `config or {}`, no chunks, an empty buffer. */
  function FreshSession(sid: string, config: Option<Object>): (s: StSession)
    ensures s.sessionId == sid && s.audioChunks == 0 && s.audioBytes == []
    ensures config.Some? ==> s.config == config.value
    ensures config.None? ==> s.config == map[]
  {
    StSession(sid, config.GetOr(map[]), 0, [])
  }

  /** `create`: an empty id raises; otherwise the id is bound to a fresh session,
      replacing any session it had, and no other entry changes. */
  function CreateSpec(m: Sessions, sid: string, config: Option<Object>): (r: Result<Sessions>)
    ensures r.Err? <==> sid == ""
    ensures r.Err? ==> r.error == Error(ValueError, "Missing session_id")
    ensures r.Ok? ==> r.value.Keys == m.Keys + {sid} && r.value[sid] == FreshSession(sid, config)
    ensures r.Ok? ==> forall k :: k in m && k != sid ==> r.value[k] == m[k]
  {
    if sid == "" then Raise(ValueError, "Missing session_id")
    else Ok(m[sid := FreshSession(sid, config)])
  }

  /** `close`: only that key is removed, and removing a missing key is harmless. */
  function CloseSpec(m: Sessions, sid: string): (r: Sessions)
    ensures sid !in r && r.Keys == m.Keys - {sid}
    ensures forall k :: k in r ==> r[k] == m[k]
  {
    m - {sid}
  }

  /** `reset_audio_count`: the count of an existing session drops to zero; a
      missing id changes nothing. */
  function ResetSpec(m: Sessions, sid: string): (r: Sessions)
    ensures r.Keys == m.Keys
    ensures sid in m ==> r[sid] == m[sid].(audioChunks := 0)
    ensures forall k :: k in m && k != sid ==> r[k] == m[k]
    ensures sid !in m ==> r == m
  {
    if sid in m then m[sid := m[sid].(audioChunks := 0)] else m
  }

  /** `inc_audio_count`: the count goes up by exactly one and the new count is
      returned; an unknown id raises "Send 'start' first". */
  function IncSpec(m: Sessions, sid: string): (r: Result<(nat, Sessions)>)
    ensures r.Ok? <==> sid in m
    ensures r.Err? ==> r.error == Error(ValueError, "Send 'start' first")
    ensures r.Ok? ==> r.value.0 == m[sid].audioChunks + 1
    ensures r.Ok? ==> r.value.1 == m[sid := m[sid].(audioChunks := r.value.0)]
  {
    if sid !in m then Raise(ValueError, "Send 'start' first")
    else
      var n := m[sid].audioChunks + 1;
      Ok((n, m[sid := m[sid].(audioChunks := n)]))
  }

  /** `append_audio`: the buffer becomes the old buffer followed by the chunk. */
  function AppendSpec(m: Sessions, sid: string, chunk: seq<byte>): (r: Result<Sessions>)
    ensures r.Ok? <==> sid in m
    ensures r.Err? ==> r.error == Error(ValueError, "Send 'start' first")
    ensures r.Ok? ==> r.value.Keys == m.Keys && r.value[sid].audioBytes == m[sid].audioBytes + chunk
    ensures r.Ok? ==> r.value[sid].audioChunks == m[sid].audioChunks && r.value[sid].config == m[sid].config
    ensures r.Ok? ==> forall k :: k in m && k != sid ==> r.value[k] == m[k]
  {
    if sid !in m then Raise(ValueError, "Send 'start' first")
    else Ok(m[sid := m[sid].(audioBytes := m[sid].audioBytes + chunk)])
  }

  /** `snapshot_audio`: the buffer as it is, or no bytes for an unknown id. */
  function Snapshot(m: Sessions, sid: string): (r: seq<byte>)
    ensures sid in m ==> r == m[sid].audioBytes
    ensures sid !in m ==> r == []
  {
    if sid in m then m[sid].audioBytes else []
  }

  /** `pop_audio`: the whole buffer is returned and left empty; an unknown id
      returns no bytes and changes nothing. */
  function PopSpec(m: Sessions, sid: string): (r: (seq<byte>, Sessions))
    ensures r.0 == Snapshot(m, sid)
    ensures sid in m ==> r.1 == m[sid := m[sid].(audioBytes := [])]
    ensures sid !in m ==> r.1 == m
  {
    if sid in m then (m[sid].audioBytes, m[sid := m[sid].(audioBytes := [])]) else ([], m)
  }

  /** The tail `snapshot_last_seconds` keeps of a buffer: the last
      `seconds * sampleRate * channels * 2` bytes when that is positive and
      shorter than the buffer, otherwise the whole buffer. Seconds are whole
      numbers here. */
  function LastSeconds(data: seq<byte>, seconds: int, sampleRate: int, channels: int): (r: seq<byte>)
    ensures |r| <= |data| && r == data[|data| - |r|..]
    ensures seconds > 0 && sampleRate > 0 && channels > 0 && seconds * sampleRate * channels * 2 < |data|
            ==> |r| == seconds * sampleRate * channels * 2
    ensures !(seconds > 0 && sampleRate > 0 && channels > 0 && seconds * sampleRate * channels * 2 < |data|)
            ==> r == data
  {
    if seconds <= 0 || sampleRate <= 0 || channels <= 0 then data
    else
      var bytesPerSecond := sampleRate * channels * 2;
      var n := seconds * bytesPerSecond;
      if n <= 0 || n >= |data| then data else data[|data| - n..]
  }

  /** Appending and then popping hands back everything accumulated, in order,
      and leaves the session with an empty buffer. */
  lemma AppendThenPop(m: Sessions, sid: string, chunk: seq<byte>)
    requires sid in m
    ensures var m1 := AppendSpec(m, sid, chunk).value;
      PopSpec(m1, sid).0 == m[sid].audioBytes + chunk && Snapshot(PopSpec(m1, sid).1, sid) == []
  {
  }

  /** Closing twice is closing once. */
  lemma CloseIdempotent(m: Sessions, sid: string)
    ensures CloseSpec(CloseSpec(m, sid), sid) == CloseSpec(m, sid)
  {
  }

  /** Each successful increment returns one more than the last: `k` increments
      after a create leave the count at `k`. */
  lemma {:induction false} CountAfterIncrements(m: Sessions, sid: string, k: nat)
    requires sid in m && m[sid].audioChunks == 0
    ensures IncN(m, sid, k)[sid].audioChunks == k
    ensures IncN(m, sid, k).Keys == m.Keys
  {
    if k > 0 {
      CountAfterIncrements(m, sid, k - 1);
    }
  }

  /** The dictionary after `k` successful increments of an existing session. */
  function IncN(m: Sessions, sid: string, k: nat): (r: Sessions)
    requires sid in m
    ensures r.Keys == m.Keys
  {
    if k == 0 then m else IncSpec(IncN(m, sid, k - 1), sid).value.1
  }

  /** `SessionStore`: the `_sessions` dictionary, changed in place. */
  class SessionStore {
    var sessions: Sessions

    constructor()
      ensures sessions == map[]
    {
      sessions := map[];
    }

    /** `get`. */
    function Get(sid: string): (r: Option<StSession>)
      reads this
      ensures r.Some? <==> sid in sessions
      ensures r.Some? ==> r.value == sessions[sid]
    {
      if sid in sessions then Some(sessions[sid]) else None
    }

    method Create(sid: string, config: Option<Object>) returns (r: Result<StSession>)
      modifies this
      ensures CreateSpec(old(sessions), sid, config).Ok? ==> sessions == CreateSpec(old(sessions), sid, config).value
      ensures CreateSpec(old(sessions), sid, config).Err? ==> sessions == old(sessions)
      ensures r.Ok? <==> sid != ""
      ensures r.Ok? ==> r.value == FreshSession(sid, config)
      ensures r.Err? ==> r.error == Error(ValueError, "Missing session_id")
    {
      if sid == "" {
        return Raise(ValueError, "Missing session_id");
      }
      var sess := FreshSession(sid, config);
      sessions := sessions[sid := sess];
      return Ok(sess);
    }

    method Close(sid: string)
      modifies this
      ensures sessions == CloseSpec(old(sessions), sid)
    {
      sessions := sessions - {sid};
    }

    method ResetAudioCount(sid: string)
      modifies this
      ensures sessions == ResetSpec(old(sessions), sid)
    {
      var sess := Get(sid);
      if sess.Some? {
        sessions := sessions[sid := sess.value.(audioChunks := 0)];
      }
    }

    method IncAudioCount(sid: string) returns (r: Result<nat>)
      modifies this
      ensures IncSpec(old(sessions), sid).Ok? ==>
                r == Ok(IncSpec(old(sessions), sid).value.0) && sessions == IncSpec(old(sessions), sid).value.1
      ensures IncSpec(old(sessions), sid).Err? ==> r == Raise(ValueError, "Send 'start' first") && sessions == old(sessions)
    {
      var sess := Get(sid);
      if sess.None? {
        return Raise(ValueError, "Send 'start' first");
      }
      var n := sess.value.audioChunks + 1;
      sessions := sessions[sid := sess.value.(audioChunks := n)];
      return Ok(n);
    }

    method AppendAudio(sid: string, chunk: seq<byte>) returns (r: Result<()>)
      modifies this
      ensures r.Ok? <==> AppendSpec(old(sessions), sid, chunk).Ok?
      ensures r.Ok? ==> sessions == AppendSpec(old(sessions), sid, chunk).value
      ensures r.Err? ==> r.error == Error(ValueError, "Send 'start' first") && sessions == old(sessions)
    {
      var sess := Get(sid);
      if sess.None? {
        return Raise(ValueError, "Send 'start' first");
      }
      sessions := sessions[sid := sess.value.(audioBytes := sess.value.audioBytes + chunk)];
      return Ok(());
    }

    method PopAudio(sid: string) returns (data: seq<byte>)
      modifies this
      ensures (data, sessions) == PopSpec(old(sessions), sid)
    {
      var sess := Get(sid);
      if sess.None? {
        return [];
      }
      data := sess.value.audioBytes;
      sessions := sessions[sid := sess.value.(audioBytes := [])];
    }

    /** `snapshot_audio` reads the buffer and changes nothing. */
    method SnapshotAudio(sid: string) returns (data: seq<byte>)
      ensures data == Snapshot(sessions, sid)
    {
      var sess := Get(sid);
      if sess.None? {
        return [];
      }
      data := sess.value.audioBytes;
    }

    /** `snapshot_last_seconds`: a suffix of the buffer, and no bytes for an unknown id. */
    method SnapshotLastSeconds(sid: string, seconds: int, sampleRate: int, channels: int) returns (data: seq<byte>)
      ensures sid !in sessions ==> data == []
      ensures sid in sessions ==> data == LastSeconds(sessions[sid].audioBytes, seconds, sampleRate, channels)
    {
      var sess := Get(sid);
      if sess.None? {
        return [];
      }
      var buf := sess.value.audioBytes;
      if seconds <= 0 || sampleRate <= 0 || channels <= 0 {
        return buf;
      }
      var bytesPerSecond := sampleRate * channels * 2;
      var n := seconds * bytesPerSecond;
      if n <= 0 || n >= |buf| {
        return buf;
      }
      data := buf[|buf| - n..];
    }
  }
}
