/** The desktop's audio capture (`audio-capture.service.ts`), as resource
    ownership: ten nullable handles (context, worklet node, silent gain, streams,
    source nodes and a mixer) that `start` acquires and `stop` releases, plus
    the worklet message handler that slices chunks. Browser audio objects are
    abstract handles numbered in the order they are acquired. */
module AudioCapture {
  import opened Wrappers

  datatype CaptureMode = Mic | System | Both

  /** What an acquired handle is. */
  datatype Kind =
    | Context                                        // new AudioContext()
    | Worklet(targetSampleRate: int, chunkSize: int) // new AudioWorkletNode(...)
    | SilentGain                                     // ctx.createGain() with gain 0
    | Microphone                                     // getUserMedia({audio: true})
    | Desktop(sourceId: string)                      // getUserMedia of a desktop source
    | StreamSource                                   // ctx.createMediaStreamSource(stream)
    | Mixer                                          // ctx.createGain() with gain 1

  datatype CaptureEffect =
    | Acquire(kind: Kind, handle: nat)
    | Disconnect(handle: nat)
    | CloseContext(handle: nat)
    | StopTracks(handle: nat)

  /** The service's fields; `next` numbers the next handle acquired. */
  datatype Capture = Capture(
    stream: Option<nat>, ctx: Option<nat>, src: Option<nat>, node: Option<nat>, zero: Option<nat>,
    micStream: Option<nat>, sysStream: Option<nat>, micSrc: Option<nat>, sysSrc: Option<nat>, mix: Option<nat>,
    next: nat, log: seq<CaptureEffect>)

  const Idle := Capture(None, None, None, None, None, None, None, None, None, None, 0, [])

  /** How `stop` gives a handle back. */
  datatype Release = DisconnectIt | CloseIt | StopItsTracks

  /** The effect of giving back an optional handle: nothing for a null field. */
  function ReleaseOf(h: Option<nat>, how: Release): seq<CaptureEffect> {
    if h.None? then []
    else match how
      case DisconnectIt => [Disconnect(h.value)]
      case CloseIt => [CloseContext(h.value)]
      case StopItsTracks => [StopTracks(h.value)]
  }

  function ReleaseAll(hs: seq<(Option<nat>, Release)>): seq<CaptureEffect> {
    if hs == [] then [] else ReleaseOf(hs[0].0, hs[0].1) + ReleaseAll(hs[1..])
  }

  /** The handles present in a list of optional handles. */
  function Values(hs: seq<(Option<nat>, Release)>): set<nat> {
    if hs == [] then {} else (if hs[0].0.Some? then {hs[0].0.value} else {}) + Values(hs[1..])
  }

  /** The fields in the order `stop` visits them: the six nodes are
      disconnected, the context is closed, and the tracks of the three streams
      are stopped. */
  function StopOrder(c: Capture): seq<(Option<nat>, Release)> {
    [(c.node, DisconnectIt), (c.src, DisconnectIt), (c.zero, DisconnectIt),
     (c.micSrc, DisconnectIt), (c.sysSrc, DisconnectIt), (c.mix, DisconnectIt),
     (c.ctx, CloseIt),
     (c.stream, StopItsTracks), (c.micStream, StopItsTracks), (c.sysStream, StopItsTracks)]
  }

  /** The handles the service holds. */
  function Held(c: Capture): set<nat> {
    Values(StopOrder(c))
  }

  predicate HoldsNothing(c: Capture) {
    c.stream.None? && c.ctx.None? && c.src.None? && c.node.None? && c.zero.None?
    && c.micStream.None? && c.sysStream.None? && c.micSrc.None? && c.sysSrc.None? && c.mix.None?
  }

  /** The handles a run of effects gives back. */
  function Released(es: seq<CaptureEffect>): set<nat> {
    if es == [] then {}
    else (if es[0].Acquire? then {} else {es[0].handle}) + Released(es[1..])
  }

  /** `stop`: every held handle is given back, in the order above, and every
      field is nulled. A failing release is swallowed, so every step runs. */
  function StopSpec(c: Capture): Capture {
    Capture(None, None, None, None, None, None, None, None, None, None, c.next, c.log + ReleaseAll(StopOrder(c)))
  }

  /** `start`: stop first, then the context, the worklet node and the silent
      gain, then the sources the mode needs. The mode defaults to the
      microphone and the target rate to 16000. A desktop mode without a source
      id throws after the context, node and gain exist. */
  function StartSpec(c: Capture, targetSampleRate: Option<int>, mode: Option<CaptureMode>, systemSourceId: Option<string>)
    : (Result<()>, Capture)
  {
    var base := Prepared(StopSpec(c), targetSampleRate.GetOr(16000));
    var noSource := systemSourceId.None? || systemSourceId.value == "";
    match mode.GetOr(Mic)
    case Mic => (Ok(()), WithStream(base, Microphone))
    case System =>
      if noSource then (Raise(JsError, "Falta systemSourceId (desktopCapturer source id)"), base)
      else (Ok(()), WithStream(base, Desktop(systemSourceId.value)))
    case Both =>
      if noSource then (Raise(JsError, "Falta systemSourceId para modo both"), base)
      else (Ok(()), WithMix(base, systemSourceId.value))
  }

  /** The common part of `start`: the context, the resampling node and the
      silent gain, in that order. */
  function Prepared(s: Capture, target: int): Capture {
    var n := s.next;
    s.(ctx := Some(n), node := Some(n + 1), zero := Some(n + 2), next := n + 3,
       log := s.log + [Acquire(Context, n)] + [Acquire(Worklet(target, 2048), n + 1)] + [Acquire(SilentGain, n + 2)])
  }

  /** One capture stream and its source node (modes `mic` and `system`). */
  function WithStream(b: Capture, kind: Kind): Capture {
    var n := b.next;
    b.(stream := Some(n), src := Some(n + 1), next := n + 2,
       log := b.log + [Acquire(kind, n)] + [Acquire(StreamSource, n + 1)])
  }

  /** Mode `both`: both streams, a source for each, and the mixer. */
  function WithMix(b: Capture, sourceId: string): Capture {
    var n := b.next;
    b.(micStream := Some(n), sysStream := Some(n + 1), micSrc := Some(n + 2),
       sysSrc := Some(n + 3), mix := Some(n + 4), next := n + 5,
       log := b.log + [Acquire(Microphone, n)] + [Acquire(Desktop(sourceId), n + 1)]
              + [Acquire(StreamSource, n + 2)] + [Acquire(StreamSource, n + 3)] + [Acquire(Mixer, n + 4)])
  }

  /** A message from the worklet's port: `ev.data`, when there is one, with the
      integer fields the worklet posts and the samples of its `pcm16` buffer. */
  datatype WorkletMessage = WorkletMessage(msgType: Option<string>, samples: Option<int>, sampleRate: Option<int>, pcm16: seq<int>)

  /** The port's `onmessage`: nothing unless the message is a chunk; otherwise
      the first `samples` samples when `0 < samples < length` (a missing count
      reads as 0), else the whole buffer, and the message's rate, or the target
      rate when it has none. */
  function WorkletChunk(data: Option<WorkletMessage>, targetSampleRate: int): (r: Option<(seq<int>, int)>)
    ensures r.Some? <==> data.Some? && data.value.msgType == Some("chunk")
    ensures r.Some? ==> r.value.0 <= data.value.pcm16
    ensures r.Some? ==> var n := data.value.samples.GetOr(0);
      |r.value.0| == (if 0 < n < |data.value.pcm16| then n else |data.value.pcm16|)
    ensures r.Some? ==> r.value.1 == (if data.value.sampleRate.GetOr(0) != 0 then data.value.sampleRate.value else targetSampleRate)
  {
    if data.None? || data.value.msgType != Some("chunk") then None
    else
      var msg := data.value;
      var samples := msg.samples.GetOr(0);
      var sr := if msg.sampleRate.GetOr(0) != 0 then msg.sampleRate.value else targetSampleRate;
      var sliced := if samples > 0 && samples < |msg.pcm16| then msg.pcm16[..samples] else msg.pcm16;
      Some((sliced, sr))
  }

  class AudioCaptureService {
    var stream: Option<nat>
    var ctx: Option<nat>
    var src: Option<nat>
    var node: Option<nat>
    var zero: Option<nat>
    var micStream: Option<nat>
    var sysStream: Option<nat>
    var micSrc: Option<nat>
    var sysSrc: Option<nat>
    var mix: Option<nat>
    var next: nat
    var log: seq<CaptureEffect>

    function State(): Capture
      reads this
    {
      Capture(stream, ctx, src, node, zero, micStream, sysStream, micSrc, sysSrc, mix, next, log)
    }

    constructor()
      ensures State() == Idle
    {
      stream, ctx, src, node, zero := None, None, None, None, None;
      micStream, sysStream, micSrc, sysSrc, mix := None, None, None, None, None;
      next, log := 0, [];
    }

    /** Creates one resource: its handle is the next number. */
    method Obtain(kind: Kind) returns (h: nat)
      modifies this`next, this`log
      ensures h == old(next) && next == h + 1 && log == old(log) + [CaptureEffect.Acquire(kind, h)]
    {
      h := next;
      log := log + [CaptureEffect.Acquire(kind, h)];
      next := next + 1;
    }

    method Start(targetSampleRate: Option<int>, mode: Option<CaptureMode>, systemSourceId: Option<string>)
      returns (r: Result<()>)
      modifies this
      ensures (r, State()) == StartSpec(old(State()), targetSampleRate, mode, systemSourceId)
    {
      Stop();
      Prepare(targetSampleRate.GetOr(16000));
      match mode.GetOr(Mic)
      case Mic =>
        AttachStream(Microphone);
        r := Ok(());
      case System =>
        if systemSourceId.None? || systemSourceId.value == "" {
          r := Raise(JsError, "Falta systemSourceId (desktopCapturer source id)");
        } else {
          AttachStream(Desktop(systemSourceId.value));
          r := Ok(());
        }
      case Both =>
        if systemSourceId.None? || systemSourceId.value == "" {
          r := Raise(JsError, "Falta systemSourceId para modo both");
        } else {
          AttachMix(systemSourceId.value);
          r := Ok(());
        }
    }

    /** The audio context, the worklet node resampling to `target` in chunks of
        2048 samples, and the silent gain that keeps the graph running. */
    method Prepare(target: int)
      modifies this
      ensures State() == Prepared(old(State()), target)
    {
      var ctxHandle := Obtain(Context);
      ctx := Some(ctxHandle);
      var nodeHandle := Obtain(Worklet(target, 2048));
      node := Some(nodeHandle);
      var zeroHandle := Obtain(SilentGain);
      zero := Some(zeroHandle);
    }

    /** `getUserMedia` (microphone or desktop source) and its source node. */
    method AttachStream(kind: Kind)
      modifies this
      ensures State() == WithStream(old(State()), kind)
    {
      var streamHandle := Obtain(kind);
      stream := Some(streamHandle);
      var srcHandle := Obtain(StreamSource);
      src := Some(srcHandle);
    }

    /** Both streams, a source node for each, and the mixer they feed. */
    method AttachMix(sourceId: string)
      modifies this
      ensures State() == WithMix(old(State()), sourceId)
    {
      var micStreamHandle := Obtain(Microphone);
      micStream := Some(micStreamHandle);
      var sysStreamHandle := Obtain(Desktop(sourceId));
      sysStream := Some(sysStreamHandle);
      var micSrcHandle := Obtain(StreamSource);
      micSrc := Some(micSrcHandle);
      var sysSrcHandle := Obtain(StreamSource);
      sysSrc := Some(sysSrcHandle);
      var mixHandle := Obtain(Mixer);
      mix := Some(mixHandle);
    }

    /** `stop`: gives back every held handle (see `StopSpec`). */
    method Stop()
      modifies this
      ensures State() == StopSpec(old(State()))
    {
      log := log + ReleaseAll(StopOrder(State()));
      DropNodes();
      DropStreams();
    }

    /** Nulls the six audio-node fields. */
    method DropNodes()
      modifies this`node, this`src, this`zero, this`micSrc, this`sysSrc, this`mix
      ensures node.None? && src.None? && zero.None? && micSrc.None? && sysSrc.None? && mix.None?
    {
      node, src, zero := None, None, None;
      micSrc, sysSrc, mix := None, None, None;
    }

    /** Nulls the context and the three stream fields. */
    method DropStreams()
      modifies this`ctx, this`stream, this`micStream, this`sysStream
      ensures ctx.None? && stream.None? && micStream.None? && sysStream.None?
    {
      ctx := None;
      stream, micStream, sysStream := None, None, None;
    }
  }

  // ------------------------------------------------------------------ lemmas

  lemma {:induction false} ReleasedAppend(a: seq<CaptureEffect>, b: seq<CaptureEffect>)
    ensures Released(a + b) == Released(a) + Released(b)
  {
    if a != [] {
      assert (a + b)[1..] == a[1..] + b;
      ReleasedAppend(a[1..], b);
    } else {
      assert a + b == b;
    }
  }

  /** Giving back a list of optional handles gives back exactly the handles in it. */
  lemma {:induction false} ReleasedAll(hs: seq<(Option<nat>, Release)>)
    ensures Released(ReleaseAll(hs)) == Values(hs)
  {
    if hs != [] {
      ReleasedAll(hs[1..]);
      ReleasedAppend(ReleaseOf(hs[0].0, hs[0].1), ReleaseAll(hs[1..]));
      var one := ReleaseOf(hs[0].0, hs[0].1);
      if hs[0].0.Some? {
        assert one[1..] == [];
      }
    }
  }

  lemma {:induction false} ValuesAtLeast(hs: seq<(Option<nat>, Release)>, b: nat)
    requires forall i :: 0 <= i < |hs| && hs[i].0.Some? ==> hs[i].0.value >= b
    ensures forall h :: h in Values(hs) ==> h >= b
  {
    if hs != [] {
      ValuesAtLeast(hs[1..], b);
    }
  }

  /** After `stop` no handle is held, and what it released is exactly what was
      held. */
  lemma StopReleasesAll(c: Capture)
    ensures HoldsNothing(StopSpec(c))
    ensures Released(StopSpec(c).log[|c.log|..]) == Held(c)
    ensures StopSpec(c).next == c.next && c.log <= StopSpec(c).log
  {
    assert StopSpec(c).log[|c.log|..] == ReleaseAll(StopOrder(c));
    ReleasedAll(StopOrder(c));
  }

  /** A list of handles that are all null releases nothing. */
  lemma {:induction false} NoneReleased(hs: seq<(Option<nat>, Release)>)
    requires forall i :: 0 <= i < |hs| ==> hs[i].0.None?
    ensures ReleaseAll(hs) == [] && Values(hs) == {}
  {
    if hs != [] {
      NoneReleased(hs[1..]);
    }
  }

  lemma {:induction false} ValuesIn(hs: seq<(Option<nat>, Release)>, h: nat)
    ensures h in Values(hs) <==> exists i :: 0 <= i < |hs| && hs[i].0 == Some(h)
  {
    if hs != [] {
      ValuesIn(hs[1..], h);
      if h in Values(hs[1..]) {
        var i :| 0 <= i < |hs[1..]| && hs[1..][i].0 == Some(h);
        assert hs[i + 1].0 == Some(h);
      }
      if exists i :: 0 <= i < |hs| && hs[i].0 == Some(h) {
        var i :| 0 <= i < |hs| && hs[i].0 == Some(h);
        if i > 0 {
          assert hs[1..][i - 1].0 == Some(h);
        }
      }
    }
  }

  /** `stop` with nothing acquired changes nothing. */
  lemma StopWhenIdle(c: Capture)
    requires HoldsNothing(c)
    ensures StopSpec(c) == c
  {
    NoneReleased(StopOrder(c));
    assert c.log + [] == c.log;
  }

  /** `start` begins with a full `stop`: its effects extend those of `stop`, and
      every handle held afterwards is new, so nothing acquired before survives. */
  lemma StartStopsFirst(c: Capture, target: Option<int>, mode: Option<CaptureMode>, sourceId: Option<string>)
    ensures var (_, s) := StartSpec(c, target, mode, sourceId);
      StopSpec(c).log <= s.log && forall h :: h in Held(s) ==> h >= c.next
  {
    var (_, s) := StartSpec(c, target, mode, sourceId);
    var hs := StopOrder(s);
    assert forall i :: 0 <= i < |hs| && hs[i].0.Some? ==> hs[i].0.value >= c.next;
    ValuesAtLeast(hs, c.next);
  }

  /** Without a mode the microphone is used, and without a target the worklet
      resamples to 16000 Hz. */
  lemma StartDefaults(c: Capture)
    ensures var (r, s) := StartSpec(c, None, None, None);
      var n := c.next;
      r.Ok? && s.stream == Some(n + 3) && s.src == Some(n + 4)
      && s.log[|s.log| - 5..] == [Acquire(Context, n), Acquire(Worklet(16000, 2048), n + 1), Acquire(SilentGain, n + 2),
                                  Acquire(Microphone, n + 3), Acquire(StreamSource, n + 4)]
  {
  }

  /** The desktop modes throw without a source id (missing or empty), holding
      the context, the node and the gain but no stream. */
  lemma DesktopModesNeedSource(c: Capture, target: Option<int>, mode: CaptureMode, sourceId: Option<string>)
    requires mode != Mic
    ensures var (r, s) := StartSpec(c, target, Some(mode), sourceId);
      r.Err? <==> sourceId.None? || sourceId.value == ""
    ensures var (r, s) := StartSpec(c, target, Some(mode), sourceId);
      r.Err? ==> r.error.message == (if mode == System then "Falta systemSourceId (desktopCapturer source id)"
                                     else "Falta systemSourceId para modo both")
                 && Held(s) == {c.next, c.next + 1, c.next + 2}
  {
    var base := Prepared(StopSpec(c), target.GetOr(16000));
    PreparedHolds(StopSpec(c), target.GetOr(16000));
    if sourceId.None? || sourceId.value == "" {
      assert StartSpec(c, target, Some(mode), sourceId).1 == base;
    } else {
      assert StartSpec(c, target, Some(mode), sourceId).0 == Ok(());
    }
  }

  /** After `stop` and the common part of `start`, the service holds exactly
      the context, the node and the gain. */
  lemma PreparedHolds(c: Capture, target: int)
    requires HoldsNothing(c)
    ensures Held(Prepared(c, target)) == {c.next, c.next + 1, c.next + 2}
  {
    var s := Prepared(c, target);
    var hs := StopOrder(s);
    forall h
      ensures h in Held(s) <==> h in {c.next, c.next + 1, c.next + 2}
    {
      ValuesIn(hs, h);
      if h in {c.next, c.next + 1, c.next + 2} {
        assert hs[6].0 == Some(c.next) && hs[0].0 == Some(c.next + 1) && hs[2].0 == Some(c.next + 2);
      }
    }
  }

  /** A chunk of 2048 samples that says it holds 100 is cut to 100; one that
      names no count, or a count out of range, is passed whole. */
  lemma ChunkSlicing(pcm: seq<int>, n: int, target: int)
    requires |pcm| == 2048
    ensures WorkletChunk(Some(WorkletMessage(Some("chunk"), Some(100), None, pcm)), target) == Some((pcm[..100], target))
    ensures n <= 0 || n >= 2048 ==> WorkletChunk(Some(WorkletMessage(Some("chunk"), Some(n), Some(48000), pcm)), target) == Some((pcm, 48000))
    ensures WorkletChunk(Some(WorkletMessage(Some("level"), Some(100), None, pcm)), target).None?
  {
  }
}
