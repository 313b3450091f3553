/**
 * The event channel's connection lifecycle (utils/wsClient.ts): one module-level socket and
 * one module-level reconnect timer, connected, subscribed, closed, reconnected and
 * disconnected by event handlers.
 *
 * The platform is explicit: sockets carry ids, and `attached` holds the sockets whose
 * handlers are still installed (a socket's handlers fire only while it is attached);
 * pending browser timers are the map `timers` from id to delay.
 */
module WsClient {
  import opened Wrappers
  import opened WsMessages

  type SocketId = nat
  type TimerId = nat

  const ReconnectDelayMs := 3000
  const Protocol := "protocolOne"

  /** The one-time token request made when a socket opens. */
  datatype TokenOutcome = Token(token: string) | TokenFailed

  /** `{ type: 'subscribe', token }`, sent on a socket. */
  datatype Subscribe = Subscribe(socket: SocketId, token: string)

  /** What a call to connectWS did. */
  datatype ConnectEffect =
    | NoAttempt
    | Opening(socket: SocketId, url: string, protocol: string)
    | ConnectFailed

  datatype ChannelState = ChannelState(
    socket: Option<SocketId>,
    reconnectTimeout: Option<TimerId>,
    timers: map<TimerId, nat>,
    attached: set<SocketId>,
    nextSocket: SocketId,
    nextTimer: TimerId)

  const Initial := ChannelState(None, None, map[], {}, 1, 1)

  /** The timers the browser holds are exactly the one recorded in `reconnectTimeout`. */
  predicate TimersTracked(s: ChannelState) {
    s.timers == if s.reconnectTimeout.Some? then map[s.reconnectTimeout.value := ReconnectDelayMs] else map[]
  }

  predicate ValidChannel(s: ChannelState) {
    && TimersTracked(s)
    && (s.reconnectTimeout.Some? ==> s.reconnectTimeout.value < s.nextTimer)
    && (s.socket.Some? ==> s.socket.value in s.attached)
    && (forall sid :: sid in s.attached ==> sid < s.nextSocket)
  }

  /** `if (reconnectTimeout === null) reconnectTimeout = setTimeout(…, 3000)`. */
  function ScheduleReconnect(s: ChannelState): ChannelState {
    if s.reconnectTimeout.Some? then s
    else s.(reconnectTimeout := Some(s.nextTimer),
            timers := s.timers[s.nextTimer := ReconnectDelayMs],
            nextTimer := s.nextTimer + 1)
  }

  /** `clearTimeout(reconnectTimeout); reconnectTimeout = null` when one is recorded. */
  function ClearReconnect(s: ChannelState): ChannelState {
    if s.reconnectTimeout.Some? then s.(timers := s.timers - {s.reconnectTimeout.value}, reconnectTimeout := None)
    else s
  }

  /**
   * connectWS (utils/wsClient.ts:12-17, 69-77): nothing while a socket exists; otherwise a new
   * socket on the endpoint URL with its handlers attached, or, when the WebSocket constructor
   * throws (`constructs` false), a reconnect timer unless one is already pending.
   */
  function Connect(s: ChannelState, base: string, constructs: bool): (r: (ChannelState, ConnectEffect))
    ensures s.socket.Some? ==> r == (s, NoAttempt)
    ensures r.1.Opening? <==> s.socket.None? && constructs
    ensures r.1.Opening? ==>
      r.0.socket == Some(r.1.socket) && r.0.attached == s.attached + {r.1.socket} &&
      r.1.url == WsUrl(base) && r.1.protocol == Protocol &&
      r.0.reconnectTimeout == s.reconnectTimeout && r.0.timers == s.timers
    ensures ValidChannel(s) && r.1.Opening? ==> r.1.socket !in s.attached
    ensures r.1.ConnectFailed? ==> r.0.socket == None && r.0.reconnectTimeout.Some?
    ensures r.1.ConnectFailed? && s.reconnectTimeout.Some? ==> r.0 == s
    ensures ValidChannel(s) ==> ValidChannel(r.0)
  {
    if s.socket.Some? then (s, NoAttempt)
    else if constructs then
      (s.(socket := Some(s.nextSocket), attached := s.attached + {s.nextSocket}, nextSocket := s.nextSocket + 1),
       Opening(s.nextSocket, WsUrl(base), Protocol))
    else (ScheduleReconnect(s), ConnectFailed)
  }

  /**
   * `socket.onopen` of socket `sid` (utils/wsClient.ts:19-31): a subscribe message with the
   * token on the current socket, if the token was obtained and a socket is still current;
   * then the pending reconnect timer, if any, is cancelled.
   */
  function Opened(s: ChannelState, sid: SocketId, token: TokenOutcome): (r: (ChannelState, Option<Subscribe>))
    ensures sid !in s.attached ==> r == (s, None)
    ensures sid in s.attached ==> r.0.reconnectTimeout == None && r.0.socket == s.socket && r.0.attached == s.attached
    ensures r.1.Some? <==> sid in s.attached && token.Token? && s.socket.Some?
    ensures r.1.Some? ==> r.1.value == Subscribe(s.socket.value, token.token)
    ensures ValidChannel(s) ==> ValidChannel(r.0)
  {
    if sid !in s.attached then (s, None)
    else
      var sent := if token.Token? && s.socket.Some? then Some(Subscribe(s.socket.value, token.token)) else None;
      (ClearReconnect(s), sent)
  }

  /** `socket.onmessage` of socket `sid` (utils/wsClient.ts:33-54): what it relays. */
  function Message(s: ChannelState, sid: SocketId, frame: Frame): (r: Option<RuntimeMessage>)
    ensures r.Some? ==> sid in s.attached && r == Dispatch(frame)
    ensures sid in s.attached ==> r == Dispatch(frame)
  {
    if sid in s.attached then Dispatch(frame) else None
  }

  /**
   * `socket.onclose` of socket `sid` (utils/wsClient.ts:56-64): the current socket is
   * forgotten, whichever socket closed, and a reconnect timer is armed unless one is pending.
   */
  function Closed(s: ChannelState, sid: SocketId): (r: ChannelState)
    ensures sid !in s.attached ==> r == s
    ensures sid in s.attached ==> r.socket == None && r.reconnectTimeout.Some? && r.attached == s.attached
    ensures sid in s.attached && s.reconnectTimeout.Some? ==>
      r.reconnectTimeout == s.reconnectTimeout && r.timers == s.timers
    ensures ValidChannel(s) ==> ValidChannel(r)
  {
    if sid !in s.attached then s else ScheduleReconnect(s.(socket := None))
  }

  /**
   * The reconnect timer `t` fires (utils/wsClient.ts:59-62, 72-75): it clears the recorded
   * timer, then calls connectWS. A timer that is no longer pending does nothing.
   */
  function TimerFired(s: ChannelState, t: TimerId, base: string, constructs: bool): (r: (ChannelState, ConnectEffect))
    ensures t !in s.timers ==> r == (s, NoAttempt)
    ensures t in s.timers ==> r == Connect(s.(timers := s.timers - {t}, reconnectTimeout := None), base, constructs)
    ensures ValidChannel(s) ==> ValidChannel(r.0)
  {
    if t !in s.timers then (s, NoAttempt)
    else Connect(s.(timers := s.timers - {t}, reconnectTimeout := None), base, constructs)
  }

  /**
   * disconnectWS (utils/wsClient.ts:80-89): closes and forgets the current socket, returned
   * here, and cancels the pending reconnect timer. The closed socket keeps its handlers.
   */
  function Disconnected(s: ChannelState): (r: (ChannelState, Option<SocketId>))
    ensures r.1 == s.socket
    ensures r.0.socket == None && r.0.reconnectTimeout == None
    ensures r.0.attached == s.attached
    ensures ValidChannel(s) ==> ValidChannel(r.0) && r.0.timers == map[]
  {
    (ClearReconnect(s.(socket := None)), s.socket)
  }

  /**
   * disconnectWS as evidently intended: as Disconnected, and the closed socket's handlers
   * are detached first, so its close event no longer reaches the channel.
   */
  function DisconnectedDetaching(s: ChannelState): (r: (ChannelState, Option<SocketId>))
    ensures r.1 == s.socket
    ensures r.0.socket == None && r.0.reconnectTimeout == None
    ensures s.socket.Some? ==> r.0.attached == s.attached - {s.socket.value}
    ensures ValidChannel(s) ==> ValidChannel(r.0) && r.0.timers == map[]
  {
    var detached := if s.socket.Some? then s.attached - {s.socket.value} else s.attached;
    (ClearReconnect(s.(socket := None, attached := detached)), s.socket)
  }

  /** The channel's module state, updated in place by the handlers. */
  class Channel {
    const base: string
    var socket: Option<SocketId>
    var reconnectTimeout: Option<TimerId>
    var timers: map<TimerId, nat>
    var attached: set<SocketId>
    var nextSocket: SocketId
    var nextTimer: TimerId

    function Snapshot(): ChannelState
      reads this
    {
      ChannelState(socket, reconnectTimeout, timers, attached, nextSocket, nextTimer)
    }

    predicate Valid()
      reads this
    {
      ValidChannel(Snapshot())
    }

    /** `let socket = null; let reconnectTimeout = null` (utils/wsClient.ts:4-6). */
    constructor(base: string)
      ensures Snapshot() == Initial && this.base == base
      ensures Valid()
    {
      this.base := base;
      socket := None;
      reconnectTimeout := None;
      timers := map[];
      attached := {};
      nextSocket := 1;
      nextTimer := 1;
    }

    method ScheduleReconnectTimer()
      requires Valid()
      modifies this`reconnectTimeout, this`timers, this`nextTimer
      ensures Snapshot() == ScheduleReconnect(old(Snapshot()))
    {
      if reconnectTimeout.None? {
        reconnectTimeout := Some(nextTimer);
        timers := timers[nextTimer := ReconnectDelayMs];
        nextTimer := nextTimer + 1;
      }
    }

    method ClearReconnectTimer()
      modifies this`reconnectTimeout, this`timers
      ensures Snapshot() == ClearReconnect(old(Snapshot()))
    {
      if reconnectTimeout.Some? {
        timers := timers - {reconnectTimeout.value};
        reconnectTimeout := None;
      }
    }

    /** connectWS; `constructs` is whether the WebSocket constructor returns rather than throws. */
    method ConnectWS(constructs: bool) returns (e: ConnectEffect)
      requires Valid()
      modifies this
      ensures Valid()
      ensures (Snapshot(), e) == Connect(old(Snapshot()), base, constructs)
    {
      if socket.Some? {
        return NoAttempt;
      }
      if constructs {
        var url := WsUrl(base);
        socket := Some(nextSocket);
        attached := attached + {nextSocket};
        e := Opening(nextSocket, url, Protocol);
        nextSocket := nextSocket + 1;
      } else {
        ScheduleReconnectTimer();
        e := ConnectFailed;
      }
    }

    method OnOpen(sid: SocketId, token: TokenOutcome) returns (sent: Option<Subscribe>)
      requires Valid()
      modifies this
      ensures Valid()
      ensures (Snapshot(), sent) == Opened(old(Snapshot()), sid, token)
    {
      if sid !in attached {
        return None;
      }
      sent := None;
      if token.Token? && socket.Some? {
        sent := Some(Subscribe(socket.value, token.token));
      }
      ClearReconnectTimer();
    }

    method OnMessage(sid: SocketId, frame: Frame) returns (relayed: Option<RuntimeMessage>)
      ensures relayed == Message(Snapshot(), sid, frame)
    {
      relayed := None;
      if sid in attached {
        relayed := Dispatch(frame);
      }
    }

    method OnClose(sid: SocketId)
      requires Valid()
      modifies this
      ensures Valid()
      ensures Snapshot() == Closed(old(Snapshot()), sid)
    {
      if sid in attached {
        socket := None;
        ScheduleReconnectTimer();
      }
    }

    method OnTimer(t: TimerId, constructs: bool) returns (e: ConnectEffect)
      requires Valid()
      modifies this
      ensures Valid()
      ensures (Snapshot(), e) == TimerFired(old(Snapshot()), t, base, constructs)
    {
      if t !in timers {
        return NoAttempt;
      }
      timers := timers - {t};
      reconnectTimeout := None;
      e := ConnectWS(constructs);
    }

    method DisconnectWS() returns (closed: Option<SocketId>)
      requires Valid()
      modifies this
      ensures Valid()
      ensures (Snapshot(), closed) == Disconnected(old(Snapshot()))
    {
      closed := socket;
      socket := None;
      ClearReconnectTimer();
    }

    method DisconnectWSDetaching() returns (closed: Option<SocketId>)
      requires Valid()
      modifies this
      ensures Valid()
      ensures (Snapshot(), closed) == DisconnectedDetaching(old(Snapshot()))
    {
      closed := socket;
      if socket.Some? {
        attached := attached - {socket.value};
      }
      socket := None;
      ClearReconnectTimer();
    }
  }
}
