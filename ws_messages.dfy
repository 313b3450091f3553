/**
 * The pure parts of the event channel (utils/wsClient.ts): the endpoint URL and the mapping
 * from an inbound socket message to the runtime message relayed to the extension.
 */
module WsMessages {
  import opened Wrappers

  /** The two build-time base URLs (utils/wsClient.ts:4): development and production. */
  const DevBase := "http://localhost:3000"
  const ProdBase := "https://api.levelcast.org"

  const ChannelPath := "/public-channel"

  predicate StartsWith(s: string, prefix: string) {
    |prefix| <= |s| && s[..|prefix|] == prefix
  }

  /** `${WS_URL.replace(/^http/, 'ws')}/public-channel` (utils/wsClient.ts:8-10). */
  function WsUrl(base: string): (url: string)
    ensures |url| == |base| + |ChannelPath| - (if StartsWith(base, "http") then 2 else 0)
    ensures url[|url| - |ChannelPath|..] == ChannelPath
    ensures !StartsWith(base, "http") ==> url == base + ChannelPath
  {
    (if StartsWith(base, "http") then "ws" + base[4..] else base) + ChannelPath
  }

  /** The base an endpoint URL of the `ws` schemes was made from: the inverse of WsUrl. */
  function HttpBase(url: string): string {
    if StartsWith(url, "ws") && |url| >= 2 + |ChannelPath| && url[|url| - |ChannelPath|..] == ChannelPath
    then "http" + url[2..|url| - |ChannelPath|]
    else url
  }

  /** Only a leading "http" is rewritten, so an https base gives a wss endpoint. */
  lemma SecureBaseGivesSecureEndpoint(rest: string)
    ensures WsUrl("https" + rest) == "wss" + rest + ChannelPath
  {
    var base := "https" + rest;
    assert base[..4] == "http";
    assert base[4..] == "s" + rest;
  }

  /** An http(s) base is recovered from its endpoint URL. */
  lemma WsUrlRoundTrip(base: string)
    requires StartsWith(base, "http")
    ensures HttpBase(WsUrl(base)) == base
  {
    var url := WsUrl(base);
    assert url == "ws" + base[4..] + ChannelPath;
    assert url[..2] == "ws";
    assert url[2..|url| - |ChannelPath|] == base[4..];
    assert base == base[..4] + base[4..];
  }

  /** The production build connects over TLS: its endpoint is the wss form of its https base. */
  lemma ProductionEndpoint()
    ensures WsUrl(ProdBase) == "wss" + ProdBase[5..] + ChannelPath
  {
    assert ProdBase == "https" + ProdBase[5..];
    SecureBaseGivesSecureEndpoint(ProdBase[5..]);
  }

  /** The development build connects without TLS: its endpoint is the ws form of its http base. */
  lemma DevelopmentEndpoint()
    ensures WsUrl(DevBase) == "ws" + DevBase[4..] + ChannelPath
  {
    assert DevBase[..4] == "http";
  }

  /** A JSON value relayed verbatim, kept as its serialised text. */
  type Json = string

  /**
   * The fields of a parsed inbound message that the handler reads; an absent field is
   * `undefined`, and an `action` that is not a string is absent too (it matches nothing).
   */
  datatype Inbound = Inbound(
    action: Option<string>,
    webhookId: Option<Json>,
    logData: Option<Json>,
    allLogs: Option<Json>,
    logId: Option<Json>)

  /**
   * `ev.data` of a message event: falsy, a string that parses (or not) to a message, or an
   * already structured payload.
   */
  datatype Frame = NoData | Text(parsed: Option<Inbound>) | Structured(data: Inbound)

  /** The runtime messages sent with `browser.runtime.sendMessage`. */
  datatype RuntimeMessage =
    | AccountEvent(action: string)
    | LogAdded(webhookId: Option<Json>, logData: Option<Json>)
    | LogDeleted(webhookId: Option<Json>, allLogs: Option<Json>, logId: Option<Json>)

  /** The `type` field each runtime message carries. */
  function TypeOf(m: RuntimeMessage): string {
    match m
    case AccountEvent(_) => "libreLinkAccount_event"
    case LogAdded(_, _) => "webhook_log_added"
    case LogDeleted(_, _, _) => "webhook_log_deleted"
  }

  const AccountActions: set<string> :=
    {"libreLinkAccount_login", "libreLinkAccount_error", "libreLinkAccount_delete", "libreLinkAccount_replaced"}

  const LogAddedAction := "webhook_log_added"
  const LogDeletedAction := "webhook_log_deleted"

  /** The message the handler works on, if any: nothing for falsy data or text that does not parse. */
  function Payload(frame: Frame): Option<Inbound> {
    match frame
    case NoData => None
    case Text(parsed) => parsed
    case Structured(data) => Some(data)
  }

  /** The actions that are relayed. */
  predicate Relayed(action: Option<string>) {
    action.Some? && (action.value in AccountActions || action.value == LogAddedAction || action.value == LogDeletedAction)
  }

  /**
   * `socket.onmessage` (utils/wsClient.ts:33-50): the four account actions become an account
   * event carrying the action; the two webhook-log actions are relayed with their fields
   * unchanged; anything else, and a frame without a message, sends nothing.
   */
  function Dispatch(frame: Frame): (r: Option<RuntimeMessage>)
    ensures r.Some? <==> Payload(frame).Some? && Relayed(Payload(frame).value.action)
    ensures r.Some? && r.value.AccountEvent? ==>
      r.value.action in AccountActions && Payload(frame).value.action == Some(r.value.action)
    ensures r.Some? && r.value.LogAdded? ==>
      var p := Payload(frame).value;
      p.action == Some(LogAddedAction) && r.value.webhookId == p.webhookId && r.value.logData == p.logData
    ensures r.Some? && r.value.LogDeleted? ==>
      var p := Payload(frame).value;
      p.action == Some(LogDeletedAction) &&
      r.value.webhookId == p.webhookId && r.value.allLogs == p.allLogs && r.value.logId == p.logId
  {
    match Payload(frame)
    case None => None
    case Some(p) =>
      match p.action
      case None => None
      case Some(action) =>
        if action in AccountActions then Some(AccountEvent(action))
        else if action == LogAddedAction then Some(LogAdded(p.webhookId, p.logData))
        else if action == LogDeletedAction then Some(LogDeleted(p.webhookId, p.allLogs, p.logId))
        else None
  }

  /** The relayed messages: an account event only ever carries one of the four account actions. */
  predicate Relayable(m: RuntimeMessage) {
    m.AccountEvent? ==> m.action in AccountActions
  }

  /** A server message that the handler relays as `m`. */
  function Source(m: RuntimeMessage): Inbound {
    match m
    case AccountEvent(action) => Inbound(Some(action), None, None, None, None)
    case LogAdded(webhookId, logData) => Inbound(Some(LogAddedAction), webhookId, logData, None, None)
    case LogDeleted(webhookId, allLogs, logId) => Inbound(Some(LogDeletedAction), webhookId, None, allLogs, logId)
  }

  /** Every relayable message comes out of its source message unchanged, whether it arrived as text or as a structured payload. */
  lemma DispatchRelaysSource(m: RuntimeMessage)
    requires Relayable(m)
    ensures Dispatch(Structured(Source(m))) == Some(m)
    ensures Dispatch(Text(Some(Source(m)))) == Some(m)
  {
  }

  /**
   * Only the action and the fields a log action forwards matter: `webhookId` and the log
   * fields are ignored for account actions and for actions that are not relayed.
   */
  lemma DispatchReadsOnlyRelayedFields(a: Inbound, b: Inbound)
    requires a.action == b.action
    requires a.action == Some(LogAddedAction) ==> a.webhookId == b.webhookId && a.logData == b.logData
    requires a.action == Some(LogDeletedAction) ==>
      a.webhookId == b.webhookId && a.allLogs == b.allLogs && a.logId == b.logId
    ensures Dispatch(Structured(a)) == Dispatch(Structured(b))
  {
  }

  /** The `type` of a relayed message: the account event for the four account actions, else the action itself. */
  lemma RelayedTypeMatchesAction(frame: Frame)
    requires Dispatch(frame).Some?
    ensures var action := Payload(frame).value.action.value;
      TypeOf(Dispatch(frame).value) == if action in AccountActions then "libreLinkAccount_event" else action
  {
  }
}
