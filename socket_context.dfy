/** The WebSocket provider of the front end (src/context/socketContext.tsx).
    It holds three pieces of React state, `sessionId`, `ws` (the socket it
    exposes) and `message` (the latest accepted inbound event), and reacts to
    a new session id, to its socket opening, to inbound events, to
    `resetMessage` and to effect cleanup. Each React handler is a method; the
    browser's WebSocket is the class `Socket` below. */
module SocketContext {
  import opened Wrappers

  /** `WebSocket.readyState`. */
  datatype ReadyState = Connecting | Open | Closing | Closed

  /** An inbound frame after `JSON.parse`: every field is optional.
      `kind` is the frame's `type` field. */
  datatype InboundEvent = InboundEvent(
    kind: Option<string>,
    sessionId: Option<string>,
    reply: Option<string>,
    isTyping: Option<bool>,
    needsEscalation: Option<bool>)

  /** The registration frame `{type, sessionId}` sent when the socket opens. */
  datatype Registration = Registration(kind: string, sessionId: string)

  /** The socket URL. Both arms of the protocol choice say "wss", so the
      page's own protocol makes no difference. */
  function SocketUrl(pageProtocol: string, socketLink: string): (url: string)
    ensures url == "wss://" + socketLink
  {
    (if pageProtocol == "https:" then "wss" else "wss") + "://" + socketLink
  }

  /** The acknowledgement test: `type` is "session-ack" and `sessionId` is
      not the empty string (an absent `sessionId` passes). */
  predicate BindsSocket(e: InboundEvent)
    ensures BindsSocket(e) <==> e.kind == Some("session-ack") && (e.sessionId.None? || e.sessionId.value != "")
  {
    e.kind == Some("session-ack") && e.sessionId != Some("")
  }

  /** Whether an inbound event overwrites `message`: `isTyping` is true, or
      `isTyping` is false, or `reply` is not exactly "". */
  function Accepts(e: InboundEvent): (r: bool)
    ensures r <==> !(e.isTyping.None? && e.reply == Some(""))
    ensures e.reply.None? ==> r
    ensures e.isTyping.Some? ==> r
  {
    assert e.isTyping.Some? && e.isTyping.value ==> e.isTyping == Some(true);
    assert e.isTyping.Some? && !e.isTyping.value ==> e.isTyping == Some(false);
    e.isTyping == Some(true) || e.isTyping == Some(false) || e.reply != Some("")
  }

  /** A session acknowledgement carries no `reply`, so it is stored in
      `message` as well as binding the socket. */
  lemma AckIsStored(id: string)
    ensures var ack := InboundEvent(Some("session-ack"), Some(id), None, None, None);
            Accepts(ack) && (BindsSocket(ack) <==> id != "")
  {
  }

  /** A browser WebSocket, reduced to what the provider observes: its ready
      state and the frames it has sent. `session` is the session id that the
      effect run which created it captured in its handlers. */
  class Socket {
    const url: string
    const session: string
    var readyState: ReadyState
    var sent: seq<Registration>

    constructor (url: string, session: string)
      ensures this.url == url && this.session == session
      ensures readyState == Connecting && sent == []
    {
      this.url := url;
      this.session := session;
      readyState := Connecting;
      sent := [];
    }

    /** The transport finished its opening handshake. */
    method Opened()
      requires readyState == Connecting
      modifies this
      ensures readyState == Open && sent == old(sent)
    {
      readyState := Open;
    }

    /** The transport went away (server close, network error, or a
        `close()` completing). */
    method Dropped()
      modifies this
      ensures readyState == Closed && sent == old(sent)
    {
      readyState := Closed;
    }

    /** `send`: queued on an open socket, discarded once closing or closed.
        (Sending while still connecting throws; no caller does that.) */
    method Send(frame: Registration)
      requires readyState != Connecting
      modifies this
      ensures readyState == old(readyState)
      ensures sent == if old(readyState) == Open then old(sent) + [frame] else old(sent)
    {
      if readyState == Open {
        sent := sent + [frame];
      }
    }

    /** `close()`: starts the closing handshake unless already closing or closed. */
    method Close()
      modifies this
      ensures readyState == if old(readyState) in {Connecting, Open} then Closing else old(readyState)
      ensures sent == old(sent)
    {
      if readyState == Connecting || readyState == Open {
        readyState := Closing;
      }
    }
  }

  class WebSocketProvider {
    const pageProtocol: string
    const socketLink: string
    var sessionId: string
    var ws: Socket?
    var message: Option<InboundEvent>
    /** The socket held by the cleanup function of the mounted effect run;
        null when there is no cleanup (the run returned early, or the
        cleanup already ran). */
    var effectSocket: Socket?

    /** The socket of the mounted effect run belongs to the current session. */
    ghost predicate Valid()
      reads this, effectSocket
    {
      effectSocket != null ==>
        sessionId != "" && effectSocket.session == sessionId &&
        effectSocket.url == SocketUrl(pageProtocol, socketLink)
    }

    /** Mounting: all three fields start empty; the first effect run sees
        an empty session id and returns without registering a cleanup. */
    constructor (pageProtocol: string, socketLink: string)
      ensures Valid()
      ensures this.pageProtocol == pageProtocol && this.socketLink == socketLink
      ensures sessionId == "" && ws == null && message == None && effectSocket == null
    {
      this.pageProtocol := pageProtocol;
      this.socketLink := socketLink;
      sessionId := "";
      ws := null;
      message := None;
      effectSocket := null;
    }

    /** The effect's cleanup, run before the effect runs again and on
        unmount: the socket is closed only if it is OPEN, and `ws` is always
        cleared. Without a registered cleanup nothing happens. */
    method Cleanup()
      requires Valid()
      modifies this, effectSocket
      ensures Valid()
      ensures sessionId == old(sessionId) && message == old(message) && effectSocket == null
      ensures ws == if old(effectSocket) == null then old(ws) else null
      ensures old(effectSocket) != null ==>
        old(effectSocket).sent == old(effectSocket.sent) &&
        old(effectSocket).readyState == if old(effectSocket.readyState) == Open then Closing else old(effectSocket.readyState)
    {
      var socket := effectSocket;
      if socket != null {
        if socket.readyState == Open {
          socket.Close();
        }
        ws := null;
        effectSocket := null;
      }
    }

    /** `setSessionId(id)`. The same value changes nothing. A different one
        runs the previous cleanup and then the effect: an empty id stops
        there; otherwise `message` is cleared and a fresh socket is created
        and exposed as `ws` at once, before any acknowledgement. */
    method SetSessionId(id: string)
      requires Valid()
      modifies this, effectSocket
      ensures Valid()
      ensures sessionId == id
      ensures id == old(sessionId) ==>
        ws == old(ws) && message == old(message) && effectSocket == old(effectSocket) &&
        (old(effectSocket) != null ==> unchanged(old(effectSocket)))
      ensures id != old(sessionId) && old(effectSocket) != null ==>
        old(effectSocket).sent == old(effectSocket.sent) &&
        old(effectSocket).readyState == if old(effectSocket.readyState) == Open then Closing else old(effectSocket.readyState)
      ensures id != old(sessionId) && id == "" ==>
        effectSocket == null && message == old(message) &&
        ws == if old(effectSocket) == null then old(ws) else null
      ensures id != old(sessionId) && id != "" ==>
        message == None && ws != null && fresh(ws) && effectSocket == ws &&
        ws.session == id && ws.url == "wss://" + socketLink &&
        ws.readyState == Connecting && ws.sent == []
    {
      if id == sessionId {
        return;
      }
      Cleanup();
      sessionId := id;
      if sessionId == "" {
        return;
      }
      message := None;
      var socket := new Socket(SocketUrl(pageProtocol, socketLink), sessionId);
      ws := socket;
      effectSocket := socket;
    }

    /** `socket.onopen`: exactly one registration frame, carrying the
        session id the socket was created for, which is the current one
        when `s` is the socket of the mounted effect run. */
    method HandleOpen(s: Socket)
      requires Valid()
      requires s.readyState == Open
      modifies s
      ensures s.readyState == Open
      ensures s.sent == old(s.sent) + [Registration("session-id", s.session)]
      ensures s == effectSocket ==> s.sent[|s.sent| - 1].sessionId == sessionId
    {
      s.Send(Registration("session-id", s.session));
    }

    /** `socket.onmessage` for socket `s` (any socket this provider created:
        the handlers of a superseded socket are never detached). An
        acknowledgement makes `s` the exposed socket; an accepted event
        overwrites the single `message` slot. */
    method HandleMessage(s: Socket, e: InboundEvent)
      requires Valid() && s.readyState == Open
      modifies this
      ensures Valid()
      ensures ws == if BindsSocket(e) then s else old(ws)
      ensures message == if Accepts(e) then Some(e) else old(message)
      ensures sessionId == old(sessionId) && effectSocket == old(effectSocket)
    {
      if BindsSocket(e) {
        ws := s;
      }
      if Accepts(e) {
        message := Some(e);
      }
    }

    /** `resetMessage`: clears `message` and nothing else. */
    method ResetMessage()
      requires Valid()
      modifies this
      ensures Valid()
      ensures message == None
      ensures ws == old(ws) && sessionId == old(sessionId) && effectSocket == old(effectSocket)
    {
      message := None;
    }

    /** `setMessage`, also exposed through the context. */
    method SetMessage(m: Option<InboundEvent>)
      requires Valid()
      modifies this
      ensures Valid()
      ensures message == m
      ensures ws == old(ws) && sessionId == old(sessionId) && effectSocket == old(effectSocket)
    {
      message := m;
    }
  }

  /** The regular lifecycle, as the contracts above let a client follow it:
      bind, open and register, acknowledgement, and the single-slot `message`. */
  method RegistrationLifecycle(protocol: string, link: string, id: string, reply: string)
    requires id != "" && reply != ""
  {
    var p := new WebSocketProvider(protocol, link);
    p.SetSessionId(id);
    var s := p.ws;
    assert s != null && s.url == "wss://" + link && p.message == None;
    s.Opened();
    p.HandleOpen(s);
    assert s.sent == [Registration("session-id", id)];
    var ack := InboundEvent(Some("session-ack"), Some(id), None, None, None);
    p.HandleMessage(s, ack);
    assert p.ws == s && p.message == Some(ack);
    var answer := InboundEvent(None, None, Some(reply), None, Some(false));
    p.HandleMessage(s, answer);
    assert p.message == Some(answer);
    var empty := InboundEvent(None, None, Some(""), None, None);
    p.HandleMessage(s, empty);
    assert p.message == Some(answer);
    p.ResetMessage();
    assert p.message == None && p.ws == s && p.sessionId == id;
    p.Cleanup();
    assert s.readyState == Closing && p.ws == null;
  }

  /** A socket that is still connecting when the session id changes is not
      closed by the cleanup; if it later opens, it registers the OLD session
      id, and its acknowledgement rebinds `ws` to it. */
  method SupersededSocketStillActs(protocol: string, link: string, first: string, second: string)
    requires first != "" && second != "" && first != second
  {
    var p := new WebSocketProvider(protocol, link);
    p.SetSessionId(first);
    var old_socket := p.ws;
    assert old_socket != null;
    p.SetSessionId(second);
    var new_socket := p.ws;
    assert old_socket.readyState == Connecting && new_socket != old_socket;
    old_socket.Opened();
    p.HandleOpen(old_socket);
    assert old_socket.sent == [Registration("session-id", first)];
    p.HandleMessage(old_socket, InboundEvent(Some("session-ack"), Some(first), None, None, None));
    assert p.ws == old_socket && p.sessionId == second;
  }
}
