/** The desktop's socket client (`stt.ws.client.ts`): one optional socket, a
    status stream and a message stream. The socket is an abstract handle whose
    `readyState` the environment changes; the events a socket fires (open,
    message, error, close) are methods of the client, named by the socket that
    fires them. Both streams, the sockets opened and the frames transmitted are
    recorded, in order, in one log. */
module SttWsClient {
  import opened Wrappers
  import opened Json
  import opened SttWire

  /** `WebSocket.readyState` of a socket the client still holds. `CLOSED` is not
      among them: the socket's `onclose` drops it from the client. */
  datatype ReadyState = Connecting | Open | Closing

  /** A socket this client created: the `n`-th one, and its state. */
  datatype Socket = Socket(id: nat, readyState: ReadyState)

  /** The values of `status$`. */
  datatype ConnStatus = Disconnected | ConnectingStatus | Connected

  /** What the client does that can be observed from outside. */
  datatype Effect =
    | Status(status: ConnStatus)            // status$.next
    | Message(message: Json)                // messages$.next
    | OpenSocket(socket: nat, url: string)  // new WebSocket(url)
    | Transmit(socket: nat, frame: Object)  // ws.send(JSON.stringify(msg))
    | CloseSocket(socket: nat)              // ws.close()

  datatype ClientState = ClientState(ws: Option<Socket>, created: nat, log: seq<Effect>)

  const Initial := ClientState(None, 0, [])

  function ErrorEvent(message: string): Json {
    JObj(map["type" := JStr("error"), "message" := JStr(message)])
  }

  /** A socket that `connect` leaves alone: open or still opening. */
  predicate Live(st: ClientState) {
    st.ws.Some? && (st.ws.value.readyState == Open || st.ws.value.readyState == Connecting)
  }

  predicate IsOpen(st: ClientState) {
    st.ws.Some? && st.ws.value.readyState == Open
  }

  function ConnectSpec(st: ClientState, wsBaseUrl: string): ClientState {
    if Live(st) then st
    else
      ClientState(Some(Socket(st.created, Connecting)), st.created + 1,
                  st.log + [Status(ConnectingStatus), OpenSocket(st.created, wsBaseUrl + "/ws/stt")])
  }

  /** What the message handler makes of a received frame: an error event for
      text that is not JSON, another for a value that is not an object with a
      `type`, and the value itself otherwise. */
  function Inbound(f: Frame): (r: Json)
    ensures f.Unparseable? ==> r == ErrorEvent("Invalid JSON from server")
    ensures f.Parsed? && !(f.value.JObj? && "type" in f.value.fields) ==> r == ErrorEvent("Invalid server message")
    ensures f.Parsed? && f.value.JObj? && "type" in f.value.fields ==> r == f.value
    ensures r.JObj? && "type" in r.fields
  {
    match f
    case Unparseable => ErrorEvent("Invalid JSON from server")
    case Parsed(v) =>
      if !JsTruthy(Some(v)) || !(v.JObj? || v.JArr?) || !(v.JObj? && "type" in v.fields) then
        ErrorEvent("Invalid server message")
      else v
  }

  /** The environment opens socket `k`; its `onopen` reports `connected`. */
  function OpenedSpec(st: ClientState, k: nat): ClientState {
    var ws := if st.ws.Some? && st.ws.value.id == k then Some(Socket(k, Open)) else st.ws;
    ClientState(ws, st.created, st.log + [Status(Connected)])
  }

  /** The environment starts closing socket `k` (the server ends the
      connection); no handler runs until the close completes. */
  function ClosingSpec(st: ClientState, k: nat): ClientState {
    if st.ws.Some? && st.ws.value.id == k then st.(ws := Some(Socket(k, Closing))) else st
  }

  function MessageSpec(st: ClientState, f: Frame): ClientState {
    st.(log := st.log + [Message(Inbound(f))])
  }

  function ErrorSpec(st: ClientState): ClientState {
    st.(log := st.log + [Message(ErrorEvent("WebSocket error"))])
  }

  /** Socket `k` closes: whatever socket the client holds is dropped. */
  function ClosedSpec(st: ClientState): ClientState {
    ClientState(None, st.created, st.log + [Status(Disconnected)])
  }

  function DisconnectSpec(st: ClientState): ClientState {
    var closing := if st.ws.Some? then [CloseSocket(st.ws.value.id)] else [];
    ClientState(None, st.created, st.log + closing + [Status(Disconnected)])
  }

  function SendSpec(st: ClientState, msg: ClientMessage): ClientState {
    if !IsOpen(st) then st.(log := st.log + [Message(ErrorEvent("WS not connected"))])
    else st.(log := st.log + [Transmit(st.ws.value.id, ClientToJson(msg))])
  }

  class SttWsClient {
    var ws: Option<Socket>
    var created: nat
    var log: seq<Effect>

    function State(): ClientState
      reads this
    {
      ClientState(ws, created, log)
    }

    constructor()
      ensures State() == Initial
    {
      ws := None;
      created := 0;
      log := [];
    }

    method Connect(wsBaseUrl: string)
      modifies this
      ensures State() == ConnectSpec(old(State()), wsBaseUrl)
    {
      if ws.Some? && (ws.value.readyState == Open || ws.value.readyState == Connecting) {
        return;
      }
      log := log + [Status(ConnectingStatus)];
      ws := Some(Socket(created, Connecting));
      log := log + [OpenSocket(created, wsBaseUrl + "/ws/stt")];
      created := created + 1;
    }

    /** `onopen` of socket `k`, which the environment has just opened. */
    method OnOpen(k: nat)
      requires k < created
      modifies this
      ensures State() == OpenedSpec(old(State()), k)
    {
      if ws.Some? && ws.value.id == k {
        ws := Some(Socket(k, Open));
      }
      log := log + [Status(Connected)];
    }

    /** Socket `k` moves to `CLOSING`; the client's own fields are untouched
        except the state of the socket it holds. */
    method OnClosing(k: nat)
      requires k < created
      modifies this`ws
      ensures State() == ClosingSpec(old(State()), k)
    {
      if ws.Some? && ws.value.id == k {
        ws := Some(Socket(k, Closing));
      }
    }

    /** `onmessage` of any socket of this client. */
    method OnMessage(k: nat, f: Frame)
      requires k < created
      modifies this
      ensures State() == MessageSpec(old(State()), f)
    {
      match f
      case Unparseable =>
        log := log + [Message(ErrorEvent("Invalid JSON from server"))];
      case Parsed(parsed) =>
        if !JsTruthy(Some(parsed)) || !(parsed.JObj? || parsed.JArr?) || !(parsed.JObj? && "type" in parsed.fields) {
          log := log + [Message(ErrorEvent("Invalid server message"))];
          return;
        }
        log := log + [Message(parsed)];
    }

    method OnError(k: nat)
      requires k < created
      modifies this
      ensures State() == ErrorSpec(old(State()))
    {
      log := log + [Message(ErrorEvent("WebSocket error"))];
    }

    method OnClose(k: nat)
      requires k < created
      modifies this
      ensures State() == ClosedSpec(old(State()))
    {
      log := log + [Status(Disconnected)];
      ws := None;
    }

    method Disconnect()
      modifies this
      ensures State() == DisconnectSpec(old(State()))
    {
      if ws.Some? {
        log := log + [CloseSocket(ws.value.id)];
        ws := None;
      }
      log := log + [Status(Disconnected)];
    }

    method Send(msg: ClientMessage)
      modifies this
      ensures State() == SendSpec(old(State()), msg)
    {
      if ws.None? || ws.value.readyState != Open {
        log := log + [Message(ErrorEvent("WS not connected"))];
        return;
      }
      log := log + [Transmit(ws.value.id, ClientToJson(msg))];
    }

    /** `config` is attached only when one is given. */
    method Start(sessionId: string, config: Option<Object>)
      modifies this
      ensures State() == SendSpec(old(State()), ClientStart(sessionId, config))
    {
      Send(ClientStart(sessionId, config));
    }

    method Audio(format: AudioFormat, sampleRate: int, dataB64: string)
      modifies this
      ensures State() == SendSpec(old(State()), ClientAudio(format, sampleRate, dataB64))
    {
      Send(ClientAudio(format, sampleRate, dataB64));
    }

    method Stop()
      modifies this
      ensures State() == SendSpec(old(State()), ClientStop)
    {
      Send(ClientStop);
    }
  }

  // ------------------------------------------------------------------ lemmas

  /** Connecting again while the first socket is open or opening changes
      nothing: however often `connect` is called, at most one socket is made. */
  lemma ConnectIdempotent(st: ClientState, url1: string, url2: string)
    ensures Live(ConnectSpec(st, url1))
    ensures ConnectSpec(ConnectSpec(st, url1), url2) == ConnectSpec(st, url1)
    ensures ConnectSpec(st, url1).created <= st.created + 1
  {
  }

  /** Without a live socket, `connect` reports `connecting` and opens a new socket
      at `<base>/ws/stt`; when the environment opens it, `connected` follows and
      the socket is open for sending. */
  lemma ConnectThenOpen(st: ClientState, url: string)
    requires !Live(st)
    ensures var c := ConnectSpec(st, url);
      c.created == st.created + 1
      && c.log == st.log + [Status(ConnectingStatus), OpenSocket(st.created, url + "/ws/stt")]
      && var o := OpenedSpec(c, st.created);
         IsOpen(o) && o.log == c.log + [Status(Connected)]
  {
  }

  /** A received frame is forwarded unchanged exactly when it is an object with
      a `type`; anything else becomes an error event. Only the log changes. */
  lemma InboundForwarding(st: ClientState, f: Frame)
    ensures var r := MessageSpec(st, f);
      r.ws == st.ws && r.created == st.created && |r.log| == |st.log| + 1
      && ((f.Parsed? && r.log[|st.log|] == Message(f.value)) <==> (f.Parsed? && f.value.JObj? && "type" in f.value.fields))
  {
    if f.Parsed? && !(f.value.JObj? && "type" in f.value.fields) {
      assert Inbound(f).JObj? && "type" in Inbound(f).fields;
      assert Inbound(f) != f.value;
    }
  }

  /** A socket error is reported as an error event; a close reports
      `disconnected` and leaves the client without a socket. */
  lemma ErrorAndClose(st: ClientState)
    ensures ErrorSpec(st).log == st.log + [Message(ErrorEvent("WebSocket error"))] && ErrorSpec(st).ws == st.ws
    ensures ClosedSpec(st).ws.None? && ClosedSpec(st).log == st.log + [Status(Disconnected)]
  {
  }

  /** `disconnect` always ends with `disconnected` and no socket, and asks a
      socket to close exactly when there was one. */
  lemma DisconnectAlways(st: ClientState)
    ensures var r := DisconnectSpec(st);
      r.ws.None? && r.log[|r.log| - 1] == Status(Disconnected)
      && (st.ws.Some? <==> |r.log| == |st.log| + 2)
      && (st.ws.Some? ==> r.log[|st.log|] == CloseSocket(st.ws.value.id))
  {
  }

  /** When the socket is not open nothing is transmitted and one error event is
      emitted; when it is open exactly the message's JSON is transmitted on it,
      and the backend reads that JSON back as the same message. */
  lemma SendOutcome(st: ClientState, msg: ClientMessage)
    ensures var r := SendSpec(st, msg);
      r.ws == st.ws && r.created == st.created && |r.log| == |st.log| + 1
      && (!IsOpen(st) ==> r.log[|st.log|] == Message(ErrorEvent("WS not connected")))
      && (IsOpen(st) ==> r.log[|st.log|] == Transmit(st.ws.value.id, ClientToJson(msg))
                         && ParseClient(r.log[|st.log|].frame) == Some(msg))
  {
    ClientRoundTrip(msg);
  }

  /** While the held socket is closing, nothing can be sent on it, and
      `connect` does not wait for its `onclose`: it opens a new socket. The late
      `onclose` of the old socket then drops the new one as well. */
  lemma ClosingSocket(st: ClientState, msg: ClientMessage, url: string)
    requires st.ws.Some?
    ensures var c := ClosingSpec(st, st.ws.value.id);
      SendSpec(c, msg).log == st.log + [Message(ErrorEvent("WS not connected"))]
      && ConnectSpec(c, url).ws == Some(Socket(st.created, Connecting))
      && ConnectSpec(c, url).log == st.log + [Status(ConnectingStatus), OpenSocket(st.created, url + "/ws/stt")]
      && ClosedSpec(ConnectSpec(c, url)).ws.None?
  {
  }

  /** The start frame carries `config` exactly when a config is given. */
  lemma StartConfigKey(sessionId: string, config: Option<Object>)
    ensures "config" in ClientToJson(ClientStart(sessionId, config)) <==> config.Some?
    ensures ClientToJson(ClientStart(sessionId, config))["session_id"] == JStr(sessionId)
  {
  }
}
