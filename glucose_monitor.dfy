/**
 * The glucose polling monitor (the `GlucoseMonitor` class of utils/glucoseMonitor.ts).
 *
 * The monitor keeps a registry of LibreLinkUp clients per account, a run flag, a queue of
 * account ids awaiting their turn and one pending timer. Each tick polls exactly one account;
 * a drained queue is refilled from the registry; with no accounts at all the monitor retries
 * initialisation later. Fetch results land in the per-account readings store.
 *
 * The pure functions below (Registered, Refilled, Tick, Started, Stopped, Fired, ...) say what
 * each step does to a `MonitorState`; the `Monitor` class performs the same steps in place and
 * is proved to agree with them. Properties that relate several steps are in MonitorProperties.
 */
module GlucoseMonitor {
  import opened Wrappers
  import opened Sequences
  import opened LibreLink
  import opened AuthRetry
  import opened Badge
  import opened Readings

  type AccountId = string

  /** A `setTimeout` handle; the browser hands out positive integers. */
  type TimerId = nat

  /** Both the tick and the retry of initialisation are scheduled 20 s ahead. */
  const PollIntervalMs := 20000

  /** What a pending timer will do when it fires (utils/glucoseMonitor.ts:82-84, 94-96). */
  datatype Callback = PollTick | RetryInit

  datatype Timer = Timer(delayMs: nat, callback: Callback)

  /**
   * The answers of the outside world during one event: the credential source's map (as its
   * entries in iteration order), the accounts whose client constructor throws, the client
   * library's answers for the one fetch, `Date.now()`, and the stored badge settings.
   */
  datatype Env = Env(
    credentials: seq<(AccountId, Credentials)>,
    rejected: set<AccountId>,
    api: Api,
    now: int,
    settings: BadgeSettings)

  /** What a tick did about the account it popped. */
  datatype FetchEffect =
    | NotFetched                       // the popped id was the empty string, which is falsy
    | NoClient                         // no client registered for the id
    | Fetched(calls: seq<Call>, outcome: Outcome, badge: BadgeEffect)

  /** What one run of `processNext` did. */
  datatype TickResult =
    | Idle                             // not running (or the timer was no longer pending)
    | Waiting                          // no accounts: initialisation retried later
    | Polled(accountId: AccountId, fetch: FetchEffect)

  /**
   * The monitor's fields. `ids` lists the keys of the `clients` Map in insertion order, which
   * is the order `Array.from(this.clients.keys())` yields. `timer` is the last handle stored in
   * `this.timer` (never reset to null); `scheduled` holds the timers still pending in the browser.
   * `readings` is the persisted readings store.
   */
  datatype MonitorState = MonitorState(
    ids: seq<AccountId>,
    clients: map<AccountId, Client>,
    running: bool,
    queue: seq<AccountId>,
    timer: Option<TimerId>,
    scheduled: map<TimerId, Timer>,
    nextTimer: TimerId,
    readings: Store)

  function Initial(stored: Store): MonitorState {
    MonitorState([], map[], false, [], None, map[], 1, stored)
  }

  /** The registry lists each account once, and the queue holds registered accounts, each once. */
  ghost predicate RegistryInvariant(s: MonitorState) {
    && Synced(s.ids, s.clients)
    && NoDup(s.queue)
    && (forall id :: id in s.queue ==> id in s.clients)
  }

  /** On top of that: a running monitor has exactly its last timer pending, a stopped one none. */
  ghost predicate ValidState(s: MonitorState) {
    && RegistryInvariant(s)
    && (s.running ==> s.timer.Some? && s.scheduled.Keys == {s.timer.value})
    && (!s.running ==> s.scheduled == map[])
  }

  /** The credential source offers an entry for `id`. */
  ghost predicate Offers(creds: seq<(AccountId, Credentials)>, id: AccountId) {
    exists k :: 0 <= k < |creds| && creds[k].0 == id
  }

  /** The registry's key order lists each account once, and exactly the accounts with a client. */
  ghost predicate Synced(ids: seq<AccountId>, clients: map<AccountId, Client>) {
    NoDup(ids) && forall id :: id in ids <==> id in clients
  }

  /**
   * The registry after the loop of `initializeClients` (utils/glucoseMonitor.ts:44-57): every
   * offered account not yet registered gets a new client, unless its constructor throws, and
   * its id is appended to the key order. What this guarantees is proved in RegisteredGrows,
   * RegisteredKeys and RegisteredClient.
   */
  function Registered(
    ids: seq<AccountId>, clients: map<AccountId, Client>,
    creds: seq<(AccountId, Credentials)>, rejected: set<AccountId>
  ): (r: (seq<AccountId>, map<AccountId, Client>))
    requires Synced(ids, clients)
    ensures Synced(r.0, r.1)
    decreases |creds|
  {
    if creds == [] then (ids, clients)
    else
      var prev := Registered(ids, clients, creds[..|creds| - 1], rejected);
      var id, c := creds[|creds| - 1].0, creds[|creds| - 1].1;
      if id in prev.1 || id in rejected then prev
      else
        NoDupConcat(prev.0, [id]);
        (prev.0 + [id], prev.1[id := NewClient(c)])
  }

  /** Registration never removes or replaces a client, and keeps the existing key order as a prefix. */
  lemma {:induction false} RegisteredGrows(
    ids: seq<AccountId>, clients: map<AccountId, Client>,
    creds: seq<(AccountId, Credentials)>, rejected: set<AccountId>)
    requires Synced(ids, clients)
    ensures var r := Registered(ids, clients, creds, rejected);
      && (forall id :: id in clients ==> id in r.1 && r.1[id] == clients[id])
      && |ids| <= |r.0| && r.0[..|ids|] == ids
    decreases |creds|
  {
    if creds != [] {
      var init := creds[..|creds| - 1];
      RegisteredGrows(ids, clients, init, rejected);
      var prev := Registered(ids, clients, init, rejected);
      assert (prev.0 + [creds[|creds| - 1].0])[..|ids|] == prev.0[..|ids|];
    }
  }

  /** The first offered account that can be registered lands right after the existing ones. */
  lemma {:induction false} RegisteredFirst(
    ids: seq<AccountId>, clients: map<AccountId, Client>,
    creds: seq<(AccountId, Credentials)>, rejected: set<AccountId>)
    requires Synced(ids, clients)
    requires |creds| > 0 && creds[0].0 !in clients && creds[0].0 !in rejected
    ensures var r := Registered(ids, clients, creds, rejected);
      |ids| < |r.0| && r.0[|ids|] == creds[0].0
    decreases |creds|
  {
    if |creds| > 1 {
      var init := creds[..|creds| - 1];
      assert init[0] == creds[0];
      RegisteredFirst(ids, clients, init, rejected);
    }
  }

  /** Afterwards the registry holds exactly the old accounts and the offered accounts whose client could be built. */
  lemma {:induction false} RegisteredKeys(
    ids: seq<AccountId>, clients: map<AccountId, Client>,
    creds: seq<(AccountId, Credentials)>, rejected: set<AccountId>)
    requires Synced(ids, clients)
    ensures var r := Registered(ids, clients, creds, rejected);
      forall id :: id in r.1 <==> id in clients || (Offers(creds, id) && id !in rejected)
    decreases |creds|
  {
    if creds != [] {
      var init := creds[..|creds| - 1];
      var last := creds[|creds| - 1].0;
      RegisteredKeys(ids, clients, init, rejected);
      forall x ensures Offers(creds, x) <==> Offers(init, x) || x == last {
        if Offers(creds, x) {
          var k :| 0 <= k < |creds| && creds[k].0 == x;
          if k < |creds| - 1 { assert init[k].0 == x; }
        }
        if Offers(init, x) {
          var k :| 0 <= k < |init| && init[k].0 == x;
          assert creds[k].0 == x;
        }
      }
    }
  }

  /** Each newly registered client is built from credentials offered for that account. */
  lemma {:induction false} RegisteredClient(
    ids: seq<AccountId>, clients: map<AccountId, Client>,
    creds: seq<(AccountId, Credentials)>, rejected: set<AccountId>, id: AccountId)
    requires Synced(ids, clients)
    requires id in Registered(ids, clients, creds, rejected).1 && id !in clients
    ensures exists k ::
      0 <= k < |creds| && creds[k].0 == id && Registered(ids, clients, creds, rejected).1[id] == NewClient(creds[k].1)
    decreases |creds|
  {
    var init := creds[..|creds| - 1];
    var prev := Registered(ids, clients, init, rejected);
    if id in prev.1 {
      RegisteredClient(ids, clients, init, rejected, id);
      var k :| 0 <= k < |init| && init[k].0 == id && prev.1[id] == NewClient(init[k].1);
      assert creds[k] == init[k];
    } else {
      assert creds[|creds| - 1].0 == id;
    }
  }

  /**
   * `refillQueue` (utils/glucoseMonitor.ts:62-70): the queue keeps its entries in order and gains
   * the registered ids not already queued, in registry order. Every registered id is then queued,
   * and the queue stays free of duplicates.
   */
  function Refilled(s: MonitorState): MonitorState {
    s.(queue := s.queue + Without(s.ids, s.queue))
  }

  /**
   * A refill keeps the queued entries as a prefix, queues every registered account, adds
   * nothing else, and keeps the registry invariant (in particular, no duplicates).
   */
  lemma RefillKeepsOrderAndCovers(s: MonitorState)
    ensures var r := Refilled(s);
      && |s.queue| <= |r.queue| && r.queue[..|s.queue|] == s.queue
      && (forall id :: id in r.queue <==> id in s.queue || id in s.ids)
      && (RegistryInvariant(s) ==> RegistryInvariant(r))
  {
    var extra := Without(s.ids, s.queue);
    assert (s.queue + extra)[..|s.queue|] == s.queue;
    if RegistryInvariant(s) {
      NoDupConcat(s.queue, extra);
    }
  }

  /** `initializeClients`: register the offered accounts, then refill the queue. */
  function Initialized(s: MonitorState, creds: seq<(AccountId, Credentials)>, rejected: set<AccountId>): (r: MonitorState)
    requires RegistryInvariant(s)
    ensures RegistryInvariant(r)
  {
    var reg := Registered(s.ids, s.clients, creds, rejected);
    RegisteredGrows(s.ids, s.clients, creds, rejected);
    RefillKeepsOrderAndCovers(s.(ids := reg.0, clients := reg.1));
    Refilled(s.(ids := reg.0, clients := reg.1))
  }

  /** `this.timer = setTimeout(callback, 20000)`: a fresh pending timer, remembered in `timer`. */
  function Schedule(s: MonitorState, callback: Callback): MonitorState {
    s.(timer := Some(s.nextTimer),
       scheduled := s.scheduled[s.nextTimer := Timer(PollIntervalMs, callback)],
       nextTimer := s.nextTimer + 1)
  }

  /**
   * `fetchReading` with its writes: an unknown id changes nothing; otherwise the fetch protocol
   * runs and its outcome is saved, as a reading (which also decides the badge) or as an error.
   */
  function FetchInto(s: MonitorState, accountId: AccountId, env: Env): (MonitorState, FetchEffect) {
    if accountId !in s.clients then (s, NoClient)
    else
      var f := Fetch(env.api);
      match f.outcome
      case Success(reading) =>
        (s.(readings := WithReading(s.readings, accountId, reading, env.now)),
         Fetched(f.calls, f.outcome, Decide(env.settings, accountId, reading)))
      case Failure(message) =>
        (s.(readings := WithError(s.readings, accountId, message, env.now)),
         Fetched(f.calls, f.outcome, Untouched))
  }

  /** `processNext` (utils/glucoseMonitor.ts:72-97): a stopped monitor returns at once. */
  function Tick(s: MonitorState, env: Env): (MonitorState, TickResult) {
    if !s.running then (s, Idle)
    else Poll(if s.queue == [] then Refilled(s) else s, env)
  }

  /**
   * The rest of `processNext`, after the refill of an empty queue: with the queue still empty,
   * schedule the retry of initialisation; otherwise pop the front id, fetch it unless it is the
   * (falsy) empty string, and schedule the next tick.
   */
  function Poll(s: MonitorState, env: Env): (MonitorState, TickResult) {
    if s.queue == [] then (Schedule(s, RetryInit), Waiting)
    else
      var id := s.queue[0];
      var popped := s.(queue := s.queue[1..]);
      var fetched := if id != "" then FetchInto(popped, id, env) else (popped, NotFetched);
      (Schedule(fetched.0, PollTick), Polled(id, fetched.1))
  }

  /** `start` (utils/glucoseMonitor.ts:27-35): a no-op while running; else run, initialise and tick. */
  function Started(s: MonitorState, env: Env): (MonitorState, TickResult)
    requires RegistryInvariant(s)
  {
    if s.running then (s, Idle)
    else Tick(Initialized(s.(running := true), env.credentials, env.rejected), env)
  }

  /** `stop` (utils/glucoseMonitor.ts:37-40): clear the run flag and cancel the stored timer. */
  function Stopped(s: MonitorState): MonitorState {
    s.(running := false,
       scheduled := if s.timer.Some? then s.scheduled - {s.timer.value} else s.scheduled)
  }

  /** A pending timer fires: it is no longer pending, and its callback runs. */
  function Fired(s: MonitorState, t: TimerId, env: Env): (MonitorState, TickResult)
    requires RegistryInvariant(s)
  {
    if t !in s.scheduled then (s, Idle)
    else
      var s1 := s.(scheduled := s.scheduled - {t});
      if s.scheduled[t].callback == RetryInit then
        Tick(Initialized(s1, env.credentials, env.rejected), env)
      else
        Tick(s1, env)
  }

  /** In a duplicate-free sequence, an element does not occur before its own position. */
  lemma NotInPrefix<T>(s: seq<T>, i: nat)
    requires NoDup(s) && i < |s|
    ensures s[i] !in s[..i]
  {
  }

  /** One pass of the refill loop: an id new to the pass is appended exactly when the queue did not hold it. */
  lemma RefillStep(prefix: seq<AccountId>, id: AccountId, start: seq<AccountId>, q: seq<AccountId>)
    requires id !in prefix
    requires q == start + Without(prefix, start)
    ensures (if id in q then q else q + [id]) == start + Without(prefix + [id], start)
  {
    WithoutSnoc(prefix, id, start);
    assert id !in Without(prefix, start);
  }

  class Monitor {
    var ids: seq<AccountId>
    var clients: map<AccountId, Client>
    var isRunning: bool
    var queue: seq<AccountId>
    var timer: Option<TimerId>
    var scheduled: map<TimerId, Timer>
    var nextTimer: TimerId
    var readings: Store

    function Snapshot(): MonitorState
      reads this
    {
      MonitorState(ids, clients, isRunning, queue, timer, scheduled, nextTimer, readings)
    }

    ghost predicate Valid()
      reads this
    {
      ValidState(Snapshot())
    }

    constructor (stored: Store)
      ensures Valid() && Snapshot() == Initial(stored)
    {
      ids, clients, isRunning, queue := [], map[], false, [];
      timer, scheduled, nextTimer := None, map[], 1;
      readings := stored;
    }

    method Start(env: Env) returns (t: TickResult)
      requires Valid()
      modifies this
      ensures Valid()
      ensures (Snapshot(), t) == Started(old(Snapshot()), env)
    {
      if isRunning {
        return Idle;
      }
      isRunning := true;
      InitializeClients(env.credentials, env.rejected);
      t := ProcessNext(env);
    }

    method Stop()
      requires Valid()
      modifies this
      ensures Valid()
      ensures Snapshot() == Stopped(old(Snapshot()))
    {
      isRunning := false;
      if timer.Some? {
        scheduled := scheduled - {timer.value};
      }
      assert scheduled.Keys == {};
    }

    method InitializeClients(creds: seq<(AccountId, Credentials)>, rejected: set<AccountId>)
      requires RegistryInvariant(Snapshot())
      modifies this`ids, this`clients, this`queue
      ensures Snapshot() == Initialized(old(Snapshot()), creds, rejected)
    {
      var i := 0;
      while i < |creds|
        invariant 0 <= i <= |creds|
        invariant (ids, clients) == Registered(old(ids), old(clients), creds[..i], rejected)
        invariant queue == old(queue)
      {
        var accountId, c := creds[i].0, creds[i].1;
        assert creds[..i + 1][..i] == creds[..i];
        if accountId !in clients && accountId !in rejected {
          clients := clients[accountId := NewClient(c)];
          ids := ids + [accountId];
        }
        i := i + 1;
      }
      assert creds[..i] == creds;
      assert Snapshot() == old(Snapshot()).(ids := ids, clients := clients);
      RefillQueue();
    }

    method RefillQueue()
      requires NoDup(ids)
      modifies this`queue
      ensures Snapshot() == Refilled(old(Snapshot()))
    {
      var accountIds, start := ids, queue;
      var q := start;
      var i := 0;
      while i < |accountIds|
        invariant 0 <= i <= |accountIds|
        invariant q == start + Without(accountIds[..i], start)
      {
        var id := accountIds[i];
        NotInPrefix(accountIds, i);
        RefillStep(accountIds[..i], id, start, q);
        TakeOneMore(accountIds, i);
        if id !in q {
          q := q + [id];
        }
        i := i + 1;
      }
      assert accountIds[..i] == accountIds;
      queue := q;
    }

    method ProcessNext(env: Env) returns (t: TickResult)
      requires RegistryInvariant(Snapshot()) && scheduled == map[]
      modifies this
      ensures Valid()
      ensures (Snapshot(), t) == Tick(old(Snapshot()), env)
    {
      if !isRunning {
        return Idle;
      }
      if |queue| == 0 {
        RefillKeepsOrderAndCovers(Snapshot());
        RefillQueue();
      }
      t := PollQueue(env);
    }

    /** The part of `processNext` after the refill (utils/glucoseMonitor.ts:79-96). */
    method PollQueue(env: Env) returns (t: TickResult)
      requires RegistryInvariant(Snapshot()) && scheduled == map[] && isRunning
      modifies this
      ensures Valid()
      ensures (Snapshot(), t) == Poll(old(Snapshot()), env)
    {
      if |queue| == 0 {
        ScheduleTimer(RetryInit);
        return Waiting;
      }
      var accountId := queue[0];
      queue := queue[1..];
      var f := NotFetched;
      if accountId != "" {
        f := FetchReading(accountId, env);
      }
      ScheduleTimer(PollTick);
      t := Polled(accountId, f);
    }

    method OnTimer(t: TimerId, env: Env) returns (r: TickResult)
      requires Valid()
      modifies this
      ensures Valid()
      ensures (Snapshot(), r) == Fired(old(Snapshot()), t, env)
    {
      if t !in scheduled {
        return Idle;
      }
      var callback := scheduled[t].callback;
      scheduled := scheduled - {t};
      assert scheduled.Keys == {};
      if callback == RetryInit {
        InitializeClients(env.credentials, env.rejected);
      }
      r := ProcessNext(env);
    }

    method FetchReading(accountId: AccountId, env: Env) returns (f: FetchEffect)
      modifies this`readings
      ensures (Snapshot(), f) == FetchInto(old(Snapshot()), accountId, env)
    {
      if accountId !in clients {
        return NoClient;
      }
      var result := Fetch(env.api);
      match result.outcome {
        case Success(reading) =>
          var badge := SaveReading(accountId, reading, env.now, env.settings);
          f := Fetched(result.calls, result.outcome, badge);
        case Failure(message) =>
          SaveError(accountId, message, env.now);
          f := Fetched(result.calls, result.outcome, Untouched);
      }
    }

    method SaveReading(accountId: AccountId, reading: Reading, now: int, settings: BadgeSettings)
      returns (badge: BadgeEffect)
      modifies this`readings
      ensures readings == WithReading(old(readings), accountId, reading, now)
      ensures badge == Decide(settings, accountId, reading)
    {
      var current := readings;
      current := current[accountId := Record(Some(reading), now, None)];
      readings := current;
      badge := Decide(settings, accountId, reading);
    }

    method SaveError(accountId: AccountId, error: string, now: int)
      modifies this`readings
      ensures readings == WithError(old(readings), accountId, error, now)
    {
      var current := readings;
      var prev := if accountId in current then current[accountId] else Record(None, now, None);
      current := current[accountId := prev.(error := Some(error), timestamp := now)];
      readings := current;
    }

    method ScheduleTimer(callback: Callback)
      modifies this`timer, this`scheduled, this`nextTimer
      ensures Snapshot() == Schedule(old(Snapshot()), callback)
    {
      timer := Some(nextTimer);
      scheduled := scheduled[nextTimer := Timer(PollIntervalMs, callback)];
      nextTimer := nextTimer + 1;
    }
  }
}
