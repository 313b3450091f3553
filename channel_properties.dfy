/** Properties of the event channel's lifecycle over single events and event sequences. */
module ChannelProperties {
  import opened Wrappers
  import opened WsMessages
  import opened WsClient

  /** The events that reach the channel: calls from the extension, socket events and timer expiry. */
  datatype Event =
    | ConnectCall(constructs: bool)
    | Open(sid: SocketId, token: TokenOutcome)
    | Close(sid: SocketId)
    | Fire(t: TimerId, constructs: bool)
    | DisconnectCall              // disconnectWS as written
    | DetachingDisconnectCall     // disconnectWS with the closed socket's handlers detached

  function Step(s: ChannelState, base: string, e: Event): ChannelState {
    match e
    case ConnectCall(constructs) => Connect(s, base, constructs).0
    case Open(sid, token) => Opened(s, sid, token).0
    case Close(sid) => Closed(s, sid)
    case Fire(t, constructs) => TimerFired(s, t, base, constructs).0
    case DisconnectCall => Disconnected(s).0
    case DetachingDisconnectCall => DisconnectedDetaching(s).0
  }

  function Run(s: ChannelState, base: string, events: seq<Event>): ChannelState
    decreases |events|
  {
    if events == [] then s else Run(Step(s, base, events[0]), base, events[1..])
  }

  lemma OneTimerWhenTracked(s: ChannelState)
    requires TimersTracked(s)
    ensures |s.timers| <= 1
  {
    if s.reconnectTimeout.Some? {
      assert s.timers.Keys == {s.reconnectTimeout.value};
    }
  }

  /**
   * Whatever the order of connects, opens, closes, timer expiries and disconnects, the
   * browser holds at most one reconnect timer and it is the one recorded.
   */
  lemma {:induction false} EventsKeepOneReconnectTimer(s: ChannelState, base: string, events: seq<Event>)
    requires ValidChannel(s)
    ensures ValidChannel(Run(s, base, events))
    ensures |Run(s, base, events).timers| <= 1
    decreases |events|
  {
    if events == [] {
      OneTimerWhenTracked(s);
    } else {
      EventsKeepOneReconnectTimer(Step(s, base, events[0]), base, events[1..]);
    }
  }

  /** A second close event, from any socket, arms no second timer and changes nothing. */
  lemma RepeatedCloseIsCloseOnce(s: ChannelState, a: SocketId, b: SocketId)
    requires a in s.attached
    ensures Closed(Closed(s, a), b) == Closed(s, a)
  {
  }

  /** A second failed connect arms no second timer. */
  lemma RepeatedConnectFailureIsFailureOnce(s: ChannelState, base: string)
    requires s.socket.None?
    ensures Connect(Connect(s, base, false).0, base, false).0 == Connect(s, base, false).0
  {
  }

  /**
   * The expiring timer clears its record before reconnecting, so a reconnect that fails
   * again arms a fresh timer: the retry loop keeps going.
   */
  lemma FailedReconnectRearms(s: ChannelState, t: TimerId, base: string)
    requires ValidChannel(s) && t in s.timers && s.socket.None?
    ensures var r := TimerFired(s, t, base, false);
      r.1 == ConnectFailed && r.0.reconnectTimeout == Some(s.nextTimer) && t !in r.0.timers &&
      r.0.timers == map[s.nextTimer := ReconnectDelayMs]
  {
  }

  /** Once the socket opens, the pending reconnect timer is cancelled. */
  lemma OpenCancelsReconnect(s: ChannelState, base: string, token: TokenOutcome)
    requires ValidChannel(s) && s.socket.None?
    ensures var (c, e) := Connect(s, base, true);
      e.Opening? && Opened(c, e.socket, token).0.timers == map[] &&
      (token.Token? ==> Opened(c, e.socket, token).1 == Some(Subscribe(e.socket, token.token)))
  {
  }

  /**
   * As written, disconnectWS leaves the closed socket's handlers attached: its close event,
   * which follows, forgets the socket again and arms a reconnect timer, whose expiry opens
   * a new socket. Disconnecting does not stop the channel.
   */
  lemma CloseAfterDisconnectReconnects(s: ChannelState, base: string)
    requires ValidChannel(s) && s.socket.Some?
    ensures var (d, closed) := Disconnected(s);
      closed == s.socket && d.timers == map[] &&
      Closed(d, closed.value).timers == map[d.nextTimer := ReconnectDelayMs] &&
      TimerFired(Closed(d, closed.value), d.nextTimer, base, true).1.Opening?
  {
  }

  /**
   * As written, when the extension reconnects right after disconnecting, the late close
   * event of the old socket forgets the new one, which stays open with its handlers.
   */
  lemma LateCloseOrphansNewSocket(s: ChannelState, base: string)
    requires ValidChannel(s) && s.socket.Some?
    ensures var (d, old_) := Disconnected(s);
      var (c, e) := Connect(d, base, true);
      e.Opening? && c.socket == Some(e.socket) &&
      Closed(c, old_.value).socket == None && e.socket in Closed(c, old_.value).attached
  {
  }

  /** With the handlers detached, the disconnected socket's close event is ignored and nothing is pending. */
  lemma CloseAfterDetachingDisconnectIsIgnored(s: ChannelState, frame: Frame, token: TokenOutcome)
    requires ValidChannel(s) && s.socket.Some?
    ensures var (d, closed) := DisconnectedDetaching(s);
      closed == s.socket && d.timers == map[] && d.socket == None &&
      Closed(d, closed.value) == d &&
      Opened(d, closed.value, token) == (d, None) &&
      Message(d, closed.value, frame) == None
  {
  }

  /** An open or close event of socket `sid`. */
  predicate FromSocket(e: Event, sid: SocketId) {
    (e.Open? || e.Close?) && e.sid == sid
  }

  /**
   * After the detaching disconnect, any sequence of late events from the closed socket
   * leaves the channel disconnected with no timer: the disconnect is final.
   */
  lemma {:induction false} DetachedSocketEventsChangeNothing(s: ChannelState, base: string, events: seq<Event>)
    requires ValidChannel(s) && s.socket.Some?
    requires forall i :: 0 <= i < |events| ==> FromSocket(events[i], s.socket.value)
    ensures var d := DisconnectedDetaching(s).0;
      Run(d, base, events) == d && d.timers == map[]
    decreases |events|
  {
    var d := DisconnectedDetaching(s).0;
    if events != [] {
      assert Step(d, base, events[0]) == d;
      DetachedSocketEventsChangeNothing(s, base, events[1..]);
      assert forall i :: 0 <= i < |events[1..]| ==> events[1..][i] == events[i + 1];
    }
  }

  /** With the handlers detached, reconnecting after a disconnect is safe from the old socket's late close. */
  lemma DetachingKeepsNewSocket(s: ChannelState, base: string)
    requires ValidChannel(s) && s.socket.Some?
    ensures var (d, old_) := DisconnectedDetaching(s);
      var (c, e) := Connect(d, base, true);
      e.Opening? && Closed(c, old_.value) == c && c.socket == Some(e.socket)
  {
  }
}
