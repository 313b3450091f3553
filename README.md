# LevelCast extension core, modelled in Dafny

This project models the two state machines that carry the logic of the LevelCast browser
extension:

- **The glucose polling monitor** (`GlucoseMonitor` in `utils/glucoseMonitor.ts`). It keeps a
  registry of LibreLinkUp clients per account, a run flag, a queue of account ids and one
  pending timer. Every 20 s a tick polls exactly one account. A drained queue is refilled from
  the registry without duplicates. With no accounts at all, the monitor retries initialisation
  later. A fetch reads, and on an authentication-looking error it logs in once and reads once
  more. Readings and errors land in a per-account readings store by read-modify-write, and a
  badge decision picks the badge's text and colour.
- **The reconnecting event channel** (`utils/wsClient.ts`). One module-level socket and one
  module-level reconnect timer are driven by `connectWS`, the socket's `onopen`, `onmessage`
  and `onclose` handlers, the connect-failure path, the timer's expiry and `disconnectWS`.
  Inbound socket messages are relayed as runtime messages.

Every step is a pure function over a state value (`MonitorState`, `ChannelState`). A class
(`GlucoseMonitor.Monitor`, `WsClient.Channel`) holds the same fields and updates them in place.
Each of its methods is proved to produce exactly the state its function describes. Properties
that relate several steps are lemmas about the functions (`MonitorProperties`,
`ChannelProperties`).

The outside world is explicit:
- Timers are a map of pending timer ids, so "one pending timer" is a checked invariant.
- Sockets carry ids. A socket's handlers fire only while the socket is in `attached`.
- The credential source, the client library's `read`/`login` answers, `Date.now()`, the stored
  badge settings and the one-time token request are inputs to each step.
- Badge updates, subscribe messages and runtime messages are returned values.

Files: `wrappers.dfy` (Option), `sequences.dfy` (duplicate-freedom and an order-keeping
difference of sequences), `librelink.dfy` (what is seen of the client library),
`auth_retry.dfy`, `badge.dfy`, `readings.dfy`, `glucose_monitor.dfy`,
`monitor_properties.dfy`, `ws_messages.dfy`, `ws_client.dfy`, `channel_properties.dfy`.

The auth-error test (`utils/glucoseMonitor.ts:125`) uses `includes`, which is case-sensitive.
The model follows it, and `AuthRetry.CapitalisedUnauthorizedIsNotAuthError` shows that
"Unauthorized" does not match.

JavaScript truthiness is kept where the code relies on it:
- An empty account id popped from the queue is not fetched.
- An empty `selectedAccountId` counts as "no account selected".
- A reading whose value is missing or zero leaves the badge alone.

## Model

| member | source | states |
|---|---|---|
| AuthRetry.IncludesIffOccurs | utils/glucoseMonitor.ts:125 | `includes` finds a marker exactly when the marker occurs at some index of the message |
| AuthRetry.IsAuthErrorIffMarker | utils/glucoseMonitor.ts:125 | a message is an auth error exactly when "jwt", "unauthorized", "token" or "401" occurs in it |
| AuthRetry.CapitalisedUnauthorizedIsNotAuthError | utils/glucoseMonitor.ts:125 | the match is case-sensitive: the message "Unauthorized" is not an auth error |
| AuthRetry.StatusCode401IsAuthError | utils/glucoseMonitor.ts:125 | a "status code 401" message is an auth error |
| AuthRetry.Fetch | utils/glucoseMonitor.ts:105-137 | the calls are read; read+login; or read+login+read. Login happens iff the first read failed with an auth error, and the second read iff login succeeded. There is at most one login and at most two reads. The outcome succeeds iff one of the reads succeeded and carries that reading. Otherwise it carries the message of the call that failed |
| AuthRetry.Read401LogsInOnceAndRetriesOnce | utils/glucoseMonitor.ts:121-129 | a first read failing with "401" logs in exactly once and, once logged in, reads exactly twice in all |
| AuthRetry.OtherErrorNoLogin | utils/glucoseMonitor.ts:123-137 | any other read error: one read, no login, and that very message is handed on as the error |
| Badge.Decide | utils/glucoseMonitor.ts:154-193 | the text is cleared iff the badge is disabled. A value is shown iff the badge is enabled, no other (non-empty) account is selected and `Value` or `value` is truthy. The shown value is that value, `Value` preferred. It is red iff isHigh, isLow, above 180 or below 70 |
| Badge.DisabledClearsText | utils/glucoseMonitor.ts:157-160 | a disabled badge only has its text cleared, whatever the reading |
| Badge.OtherAccountLeavesBadge | utils/glucoseMonitor.ts:167-169 | a reading of an account other than the selected one leaves the badge alone |
| Badge.HighValueIsRed | utils/glucoseMonitor.ts:184-189 | 220 without flags is shown in red |
| Badge.ShownColourHex | utils/glucoseMonitor.ts:184-191 | a shown value gets background "#EF4444" iff flagged or out of range, else "#10B981" |
| Badge.FalsyValueLeavesBadge | utils/glucoseMonitor.ts:177-178 | a zero value leaves the badge alone even when flagged high or low |
| Readings.WithReading | utils/glucoseMonitor.ts:141-148 | the account's record becomes (reading, now, no error); every other account's record is unchanged |
| Readings.WithError | utils/glucoseMonitor.ts:195-205 | the account's previous reading survives; only error and timestamp are overwritten; every other account's record is unchanged |
| Readings.ErrorAfterReadingKeepsReading | utils/glucoseMonitor.ts:195-205 | an error saved after a reading keeps that reading |
| Readings.ReadingAfterErrorClearsError | utils/glucoseMonitor.ts:141-148 | a reading saved after an error clears the error: the last save wins |
| Readings.WithErrorIdempotent | utils/glucoseMonitor.ts:195-205 | saving the same error twice at one time equals saving it once |
| GlucoseMonitor.Registered | utils/glucoseMonitor.ts:44-57 | registration keeps the key order free of duplicates and in step with the client map |
| GlucoseMonitor.RegisteredGrows | utils/glucoseMonitor.ts:44-57 | registration never removes or replaces a client, and the old key order stays a prefix |
| GlucoseMonitor.RegisteredFirst | utils/glucoseMonitor.ts:44-52 | the first offered, new and constructible account is appended right after the existing ones |
| GlucoseMonitor.RegisteredKeys | utils/glucoseMonitor.ts:44-57 | afterwards an account has a client iff it had one or it was offered and its client could be built |
| GlucoseMonitor.RegisteredClient | utils/glucoseMonitor.ts:47-52 | each new client is built with version 4.16.0 from credentials offered for that account |
| GlucoseMonitor.RefillKeepsOrderAndCovers | utils/glucoseMonitor.ts:62-70 | a refill keeps the queue as a prefix, afterwards holds exactly the queued and the registered ids, and keeps the queue duplicate-free |
| GlucoseMonitor.RefillStep | utils/glucoseMonitor.ts:65-69 | one pass of the refill loop appends an id exactly when it is not already queued |
| GlucoseMonitor.Initialized | utils/glucoseMonitor.ts:42-60 | initialisation keeps the registry and queue invariant |
| GlucoseMonitor.Monitor.constructor | utils/glucoseMonitor.ts:20-25 | a new monitor is stopped, with no clients, an empty queue and no timer |
| GlucoseMonitor.Monitor.Start | utils/glucoseMonitor.ts:27-35 | in-place `start`: it does nothing while running; otherwise it sets the run flag, initialises and ticks, and it keeps the invariant |
| GlucoseMonitor.Monitor.Stop | utils/glucoseMonitor.ts:37-40 | in-place `stop`: it clears the run flag and cancels the stored timer |
| GlucoseMonitor.Monitor.InitializeClients | utils/glucoseMonitor.ts:42-60 | the registration loop equals `Registered`, followed by a refill |
| GlucoseMonitor.Monitor.RefillQueue | utils/glucoseMonitor.ts:62-70 | the push loop equals `Refilled` |
| GlucoseMonitor.Monitor.ProcessNext | utils/glucoseMonitor.ts:72-97 | in-place `processNext` equals `Tick` and leaves exactly one pending timer while running |
| GlucoseMonitor.Monitor.PollQueue | utils/glucoseMonitor.ts:79-96 | after the refill, it waits or pops, fetches and schedules, as `Poll` |
| GlucoseMonitor.Monitor.OnTimer | utils/glucoseMonitor.ts:82-96 | a firing timer runs its callback (a tick, or initialisation and then a tick), as `Fired` |
| GlucoseMonitor.Monitor.FetchReading | utils/glucoseMonitor.ts:99-139 | it does nothing for an unknown id; otherwise it runs the fetch protocol and saves the reading or the error |
| GlucoseMonitor.Monitor.SaveReading | utils/glucoseMonitor.ts:141-152 | it stores the reading record and returns the badge decision |
| GlucoseMonitor.Monitor.SaveError | utils/glucoseMonitor.ts:195-205 | it stores the error while keeping the previous reading |
| GlucoseMonitor.Monitor.ScheduleTimer | utils/glucoseMonitor.ts:94-96 | it stores a fresh 20 s timer handle and makes it pending |
| MonitorProperties.StartWhileRunningIsNoop | utils/glucoseMonitor.ts:28 | `start()` on a running monitor changes nothing |
| MonitorProperties.StartTwiceIsStartOnce | utils/glucoseMonitor.ts:27-35 | a second `start()` right after the first is a no-op |
| MonitorProperties.StartArmsOneTimer | utils/glucoseMonitor.ts:27-35 | a started monitor runs, keeps every old client and has exactly one pending timer |
| MonitorProperties.StopCancelsTimer | utils/glucoseMonitor.ts:37-40 | after `stop()` the monitor is not running and no timer is pending |
| MonitorProperties.NothingHappensAfterStop | utils/glucoseMonitor.ts:73 | after `stop()` a tick or timer pops and schedules nothing |
| MonitorProperties.TickKeepsRegistry | utils/glucoseMonitor.ts:72-97 | a tick changes neither the registry nor the run flag |
| MonitorProperties.TickKeepsValid | utils/glucoseMonitor.ts:72-97 | a tick keeps the queue duplicate-free and leaves exactly one timer pending while running |
| MonitorProperties.PollKeepsValid | utils/glucoseMonitor.ts:79-96 | the part of a tick after the refill keeps the monitor valid |
| MonitorProperties.TickSchedulesOne | utils/glucoseMonitor.ts:82-96 | a running tick stores exactly one fresh timer handle and adds exactly that timer |
| MonitorProperties.PollPopsFront | utils/glucoseMonitor.ts:88-96 | popping removes the front id, fetches only that account and schedules one next tick |
| MonitorProperties.TickPollsFront | utils/glucoseMonitor.ts:75-96 | with accounts, a tick removes exactly the front id (after a refill when the queue was empty). It fetches only that account, changes no other account's reading and schedules exactly one tick |
| MonitorProperties.TickWaitsWithoutAccounts | utils/glucoseMonitor.ts:79-85 | with no accounts a tick pops nothing and schedules the retry of initialisation |
| MonitorProperties.FetchTouchesOnlyItsAccount | utils/glucoseMonitor.ts:99-139 | a fetch changes only the fetched account's readings entry; an unknown id changes nothing |
| MonitorProperties.InitializedShape | utils/glucoseMonitor.ts:42-60 | initialisation changes only the registry and the queue and never drops a client |
| MonitorProperties.RegistryOnlyGrows | utils/glucoseMonitor.ts:44-57 | a firing timer never removes or replaces a registered client |
| MonitorProperties.FiredKeepsValid | utils/glucoseMonitor.ts:82-96 | a firing timer keeps one pending timer while running and none when stopped |
| MonitorProperties.DrainPollsQueueInOrder | utils/glucoseMonitor.ts:88-96 | as many ticks as queued ids poll exactly those ids in queue order and drain the queue |
| MonitorProperties.FullCycleVisitsEachAccountOnce | utils/glucoseMonitor.ts:62-96 | from an empty queue, as many ticks as accounts poll every account exactly once, in registry order |
| MonitorProperties.EmptyCredentialsWaitThenRecover | utils/glucoseMonitor.ts:79-85 | started with no accounts, the monitor waits with timer 1 (retry). When that fires and an account is offered, the account is polled and timer 2 (tick) is pending |
| WsMessages.WsUrl | utils/wsClient.ts:8-10 | the URL ends in "/public-channel"; a base not starting with "http" is kept as it is |
| WsMessages.SecureBaseGivesSecureEndpoint | utils/wsClient.ts:8-10 | only the leading "http" is rewritten, so "https…" becomes "wss…" |
| WsMessages.WsUrlRoundTrip | utils/wsClient.ts:8-10 | an http(s) base is recovered from its endpoint URL |
| WsMessages.ProductionEndpoint | utils/wsClient.ts:4-10 | the production endpoint is the wss form of the https base |
| WsMessages.DevelopmentEndpoint | utils/wsClient.ts:4-10 | the development endpoint is the ws form of the http base |
| WsMessages.RelayedTypeMatchesAction | utils/wsClient.ts:40-50 | a relayed message's `type` is "libreLinkAccount_event" for the four account actions and the action itself for the two log actions |
| WsMessages.Dispatch | utils/wsClient.ts:33-50 | a message is relayed iff there is data and its action is one of the six. The four account actions become an account event carrying the action. The two log actions forward their fields unchanged |
| WsMessages.DispatchRelaysSource | utils/wsClient.ts:36-50 | every relayable message is relayed unchanged from its source, whether it came as text or as a structured payload |
| WsMessages.DispatchReadsOnlyRelayedFields | utils/wsClient.ts:37-50 | only the action and, for the two log actions, the fields they forward affect what is relayed; `webhookId` and the log fields are ignored for every other action |
| WsClient.Connect | utils/wsClient.ts:12-77 | it does nothing while a socket exists. Otherwise it opens a fresh socket on the endpoint with "protocolOne", or on a constructor failure arms a reconnect timer unless one is pending. It keeps the invariant |
| WsClient.Opened | utils/wsClient.ts:19-31 | an open sends a subscribe message iff a token was obtained and a socket is current. It cancels the pending reconnect timer either way |
| WsClient.Message | utils/wsClient.ts:33-54 | an attached socket's message is relayed as `Dispatch` decides; a detached socket relays nothing |
| WsClient.Closed | utils/wsClient.ts:56-64 | a close forgets the socket and leaves a reconnect timer pending. An already pending timer is kept, and no second one is armed |
| WsClient.TimerFired | utils/wsClient.ts:59-62 | the expiring timer clears its record and then connects; a timer no longer pending does nothing |
| WsClient.Disconnected | utils/wsClient.ts:80-89 | afterwards there is no socket and no pending timer; the closed socket stays attached |
| WsClient.DisconnectedDetaching | utils/wsClient.ts:80-89 | as Disconnected, and the closed socket is detached |
| WsClient.Channel.constructor | utils/wsClient.ts:4-6 | the channel starts without a socket or timer |
| WsClient.Channel.ScheduleReconnectTimer | utils/wsClient.ts:71-76 | it arms a 3 s timer only when none is recorded |
| WsClient.Channel.ClearReconnectTimer | utils/wsClient.ts:27-30 | it cancels the recorded timer, if any |
| WsClient.Channel.ConnectWS | utils/wsClient.ts:12-77 | in-place `connectWS` equals `Connect` and keeps the invariant |
| WsClient.Channel.OnOpen | utils/wsClient.ts:19-31 | in-place `onopen` equals `Opened` |
| WsClient.Channel.OnMessage | utils/wsClient.ts:33-54 | `onmessage` relays what `Message` decides and changes nothing |
| WsClient.Channel.OnClose | utils/wsClient.ts:56-64 | in-place `onclose` equals `Closed` |
| WsClient.Channel.OnTimer | utils/wsClient.ts:59-62 | the in-place timer callback equals `TimerFired` |
| WsClient.Channel.DisconnectWS | utils/wsClient.ts:80-89 | in-place `disconnectWS` as written equals `Disconnected` |
| WsClient.Channel.DisconnectWSDetaching | utils/wsClient.ts:80-89 | the corrected disconnect equals `DisconnectedDetaching` |
| ChannelProperties.EventsKeepOneReconnectTimer | utils/wsClient.ts:56-89 | under any sequence of connects, opens, closes, expiries and disconnects, at most one reconnect timer is pending, and it is the one recorded |
| ChannelProperties.RepeatedCloseIsCloseOnce | utils/wsClient.ts:56-64 | a second close arms no second timer and changes nothing |
| ChannelProperties.RepeatedConnectFailureIsFailureOnce | utils/wsClient.ts:69-77 | a second failed connect arms no second timer |
| ChannelProperties.FailedReconnectRearms | utils/wsClient.ts:72-76 | since the expiring timer clears its record first, a reconnect that fails again arms a fresh timer |
| ChannelProperties.OpenCancelsReconnect | utils/wsClient.ts:19-31 | once the new socket opens no timer is pending, and with a token it subscribes on that socket |
| ChannelProperties.CloseAfterDisconnectReconnects | utils/wsClient.ts:80-89 | as written, the close event that follows a disconnect arms a reconnect timer whose expiry opens a new socket |
| ChannelProperties.LateCloseOrphansNewSocket | utils/wsClient.ts:56-58 | as written, the old socket's late close forgets a socket opened after the disconnect, which stays attached |
| ChannelProperties.CloseAfterDetachingDisconnectIsIgnored | utils/wsClient.ts:80-89 | with handlers detached, the closed socket's close, open and message events change and relay nothing |
| ChannelProperties.DetachedSocketEventsChangeNothing | utils/wsClient.ts:80-89 | with handlers detached, any sequence of late events from the closed socket leaves the channel disconnected with no timer |
| ChannelProperties.DetachingKeepsNewSocket | utils/wsClient.ts:80-89 | with handlers detached, a reconnect after the disconnect survives the old socket's late close |

## Left out

- Async interleavings are not modelled: `stop()` during an in-flight fetch, a second `processNext` started while one awaits, or a socket event arriving between `onopen`'s token request and its send. Each event is one sequential step.
- The `processing` field (`utils/glucoseMonitor.ts:24`) is never read or written after its declaration, so it is not modelled.
- `fetchCredentialsMap` (in `utils/libreLinkAccounts.ts`, which is not part of this model) is an input: its entries in iteration order. A client constructor that throws is modelled by the set of rejected account ids.
- The LibreLinkUp client library is not part of this model. `read` and `login` are answered by the input `Api`, and the error text `e.message || String(e)` is taken as given.
- `readingsStorage`, `badgeSettings`, `browser.action.*` and `browser.runtime.sendMessage` are modelled as state or returned values. Storage round-trips and their failures are not modelled.
- `Date.now()` is a parameter, and real timer delays are recorded, not waited for.
- Console logging and `socket.onerror` (logging only) are dropped.
- `utils/auth.ts` is not part of this model. The one-time token is an input (a token or a failure), and a throwing `socket.send` is not modelled.
- JSON parsing is not modelled. Text frames are taken already parsed, or as failing to parse, and relayed values are kept as opaque text.
- Badge.Decide: the glucose value is an integer and the badge text is that number rather than the string `String(val)`; non-numeric values of `Value`/`value` are not modelled.
- LibreLink.Reading: `isHigh`/`isLow` are booleans standing for their JavaScript truthiness.
- GlucoseMonitor.Monitor.ProcessNext: requires that no timer is pending, which holds at every call (`start` on a stopped monitor, or from inside the firing timer's callback).

## Findings

| source | as written | input that shows it | evidently intended | confidence | as-written member | corrected member |
|---|---|---|---|---|---|---|
| utils/wsClient.ts:80-89 | `disconnectWS` closes the socket but leaves its `onclose` handler attached; that handler later sets `socket = null` and arms a reconnect timer | connect, then `disconnectWS()`; the close event follows, a 3 s timer is armed, and its expiry opens a new socket. If the extension reconnected in between, the late close also forgets the new, still-open socket | disconnecting ends the reconnect loop (the handlers of the closed socket are detached, or the close is ignored) | high; not executed | ChannelProperties.CloseAfterDisconnectReconnects | ChannelProperties.DetachedSocketEventsChangeNothing |
