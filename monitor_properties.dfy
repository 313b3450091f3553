/**
 * Properties of the glucose monitor that relate several steps: start and stop, the tick
 * cycle, the wait-and-retry path, and what each step leaves untouched.
 */
module MonitorProperties {
  import opened Wrappers
  import opened Sequences
  import opened LibreLink
  import opened Readings
  import opened GlucoseMonitor

  /** `start()` on a running monitor does nothing at all. */
  lemma StartWhileRunningIsNoop(s: MonitorState, env: Env)
    requires RegistryInvariant(s) && s.running
    ensures Started(s, env) == (s, Idle)
  {
  }

  /** Nothing but the readings, the queue and the timer fields change in a tick; the run flag stays. */
  lemma TickKeepsRegistry(s: MonitorState, env: Env)
    ensures var r := Tick(s, env).0;
      r.ids == s.ids && r.clients == s.clients && r.running == s.running
  {
    if s.running {
      var s1 := if s.queue == [] then Refilled(s) else s;
      assert s1.ids == s.ids && s1.clients == s.clients;
      if s1.queue != [] {
        PollPopsFront(s1, env);
      }
    }
  }

  /** A tick of a monitor whose pending timer has just gone leaves exactly one timer pending (or none when stopped). */
  lemma TickKeepsValid(s: MonitorState, env: Env)
    requires RegistryInvariant(s) && s.scheduled == map[]
    ensures ValidState(Tick(s, env).0)
  {
    if s.running {
      if s.queue == [] {
        RefillKeepsOrderAndCovers(s);
        PollKeepsValid(Refilled(s), env);
      } else {
        PollKeepsValid(s, env);
      }
    }
  }

  lemma PollKeepsValid(s: MonitorState, env: Env)
    requires RegistryInvariant(s) && s.scheduled == map[] && s.running
    ensures ValidState(Poll(s, env).0)
  {
    if s.queue != [] {
      var popped := s.(queue := s.queue[1..]);
      FetchTouchesOnlyItsAccount(popped, s.queue[0], env);
    }
  }

  /** A started monitor is running, keeps every client it had, and has exactly one timer pending. */
  lemma StartArmsOneTimer(s: MonitorState, env: Env)
    requires ValidState(s) && !s.running
    ensures var r := Started(s, env).0;
      && ValidState(r) && r.running
      && r.timer == Some(s.nextTimer) && r.scheduled.Keys == {s.nextTimer}
      && (forall id :: id in s.clients ==> id in r.clients && r.clients[id] == s.clients[id])
  {
    var s1 := Initialized(s.(running := true), env.credentials, env.rejected);
    InitializedShape(s.(running := true), env.credentials, env.rejected);
    TickKeepsValid(s1, env);
    TickKeepsRegistry(s1, env);
    TickSchedulesOne(s1, env);
  }

  /** Initialisation changes only the registry and the queue, and never drops a client. */
  lemma InitializedShape(s: MonitorState, creds: seq<(AccountId, Credentials)>, rejected: set<AccountId>)
    requires RegistryInvariant(s)
    ensures var r := Initialized(s, creds, rejected);
      && r == s.(ids := r.ids, clients := r.clients, queue := r.queue)
      && (forall id :: id in s.clients ==> id in r.clients && r.clients[id] == s.clients[id])
  {
    RegisteredGrows(s.ids, s.clients, creds, rejected);
  }

  /** A tick of a running monitor stores exactly one fresh timer handle and schedules it. */
  lemma TickSchedulesOne(s: MonitorState, env: Env)
    requires s.running
    ensures var r := Tick(s, env).0;
      && r.timer == Some(s.nextTimer) && r.nextTimer == s.nextTimer + 1
      && r.scheduled.Keys == s.scheduled.Keys + {s.nextTimer}
      && forall t :: t in s.scheduled && t != s.nextTimer ==> r.scheduled[t] == s.scheduled[t]
  {
    var s1 := if s.queue == [] then Refilled(s) else s;
    if s1.queue != [] {
      PollPopsFront(s1, env);
    }
  }

  /** Popping: the front id goes, only its account is fetched, and one tick is scheduled. */
  lemma PollPopsFront(s: MonitorState, env: Env)
    requires s.queue != []
    ensures var id := s.queue[0];
      var (r, t) := Poll(s, env);
      && t == Polled(id, if id == "" then NotFetched else FetchInto(s.(queue := s.queue[1..]), id, env).1)
      && r.queue == s.queue[1..]
      && r.ids == s.ids && r.clients == s.clients && r.running == s.running
      && r.timer == Some(s.nextTimer) && r.nextTimer == s.nextTimer + 1
      && r.scheduled == s.scheduled[s.nextTimer := Timer(PollIntervalMs, PollTick)]
      && r.readings - {id} == s.readings - {id}
  {
    FetchTouchesOnlyItsAccount(s.(queue := s.queue[1..]), s.queue[0], env);
  }

  /** Calling `start()` twice in a row initialises once and starts one tick loop: the second call is a no-op. */
  lemma StartTwiceIsStartOnce(s: MonitorState, env1: Env, env2: Env)
    requires ValidState(s)
    ensures var once := Started(s, env1).0;
      RegistryInvariant(once) && Started(once, env2) == (once, Idle)
  {
    if !s.running {
      StartArmsOneTimer(s, env1);
    }
  }

  /** `stop()` clears the run flag and leaves no timer pending; nothing else changes. */
  lemma StopCancelsTimer(s: MonitorState)
    requires ValidState(s)
    ensures var r := Stopped(s);
      && ValidState(r) && !r.running && r.scheduled == map[]
      && r == s.(running := false, scheduled := map[])
  {
    if s.running {
      assert (s.scheduled - {s.timer.value}).Keys == {};
    }
  }

  /** After `stop()`, a tick returns at once: nothing is popped, fetched or scheduled, and no timer is left to fire. */
  lemma NothingHappensAfterStop(s: MonitorState, env: Env, t: TimerId)
    requires ValidState(s)
    ensures Tick(Stopped(s), env) == (Stopped(s), Idle)
    ensures Fired(Stopped(s), t, env) == (Stopped(s), Idle)
  {
    StopCancelsTimer(s);
  }

  /**
   * With accounts to poll, a tick removes exactly the front id (after a refill when the queue
   * was empty), fetches that account only, and schedules exactly one next tick.
   */
  lemma TickPollsFront(s: MonitorState, env: Env)
    requires RegistryInvariant(s) && s.running
    requires s.queue != [] || s.ids != []
    ensures var q := if s.queue == [] then s.ids else s.queue;
      var (r, t) := Tick(s, env);
      && t == Polled(q[0], if q[0] == "" then NotFetched else FetchInto(s.(queue := q[1..]), q[0], env).1)
      && r.queue == q[1..]
      && r.ids == s.ids && r.clients == s.clients && r.running
      && r.timer == Some(s.nextTimer)
      && r.scheduled == s.scheduled[s.nextTimer := Timer(PollIntervalMs, PollTick)]
      && r.readings - {q[0]} == s.readings - {q[0]}
  {
    if s.queue == [] {
      WithoutNothing(s.ids);
      var s1 := Refilled(s);
      assert s1.queue == s.ids;
      assert s1.(queue := s.ids[1..]) == s.(queue := s.ids[1..]);
      PollPopsFront(s1, env);
    } else {
      PollPopsFront(s, env);
    }
  }

  /** When the queue is still empty after the refill, the monitor pops nothing and schedules the retry of initialisation. */
  lemma TickWaitsWithoutAccounts(s: MonitorState, env: Env)
    requires s.running && s.queue == [] && s.ids == []
    ensures Tick(s, env) == (Schedule(s, RetryInit), Waiting)
  {
  }

  /** A fetch touches the readings only, and there only the fetched account's entry. */
  lemma FetchTouchesOnlyItsAccount(s: MonitorState, accountId: AccountId, env: Env)
    ensures var r := FetchInto(s, accountId, env).0;
      && r == s.(readings := r.readings)
      && r.readings - {accountId} == s.readings - {accountId}
      && (accountId !in s.clients ==> r == s)
  {
  }

  /** A firing timer never removes or replaces a registered client. */
  lemma RegistryOnlyGrows(s: MonitorState, t: TimerId, env: Env)
    requires ValidState(s)
    ensures var r := Fired(s, t, env).0;
      forall id :: id in s.clients ==> id in r.clients && r.clients[id] == s.clients[id]
  {
    if t in s.scheduled {
      var s1 := s.(scheduled := s.scheduled - {t});
      if s.scheduled[t].callback == RetryInit {
        InitializedShape(s1, env.credentials, env.rejected);
        TickKeepsRegistry(Initialized(s1, env.credentials, env.rejected), env);
      } else {
        TickKeepsRegistry(s1, env);
      }
    }
  }

  /** A firing timer keeps the monitor valid: one pending timer while running, none when stopped. */
  lemma FiredKeepsValid(s: MonitorState, t: TimerId, env: Env)
    requires ValidState(s)
    ensures ValidState(Fired(s, t, env).0)
  {
    if t in s.scheduled {
      var s1 := s.(scheduled := s.scheduled - {t});
      assert s1.scheduled == map[];
      if s.scheduled[t].callback == RetryInit {
        TickKeepsValid(Initialized(s1, env.credentials, env.rejected), env);
      } else {
        TickKeepsValid(s1, env);
      }
    }
  }

  /** Successive ticks, one per answer of the outside world. */
  function Run(s: MonitorState, envs: seq<Env>): (MonitorState, seq<TickResult>)
    decreases |envs|
  {
    if envs == [] then (s, [])
    else
      var first := Tick(s, envs[0]);
      var rest := Run(first.0, envs[1..]);
      (rest.0, [first.1] + rest.1)
  }

  /** The accounts polled by a run of ticks, in order. */
  function PolledIds(results: seq<TickResult>): seq<AccountId> {
    if results == [] then []
    else (if results[0].Polled? then [results[0].accountId] else []) + PolledIds(results[1..])
  }

  /** As many ticks as there are queued accounts poll exactly those accounts, in queue order, and drain the queue. */
  lemma {:induction false} DrainPollsQueueInOrder(s: MonitorState, envs: seq<Env>)
    requires RegistryInvariant(s) && s.running && |envs| == |s.queue|
    ensures var r := Run(s, envs);
      PolledIds(r.1) == s.queue && r.0.queue == [] && r.0.running && r.0.ids == s.ids
    decreases |envs|
  {
    if envs != [] {
      TickPollsFront(s, envs[0]);
      var next := Tick(s, envs[0]).0;
      assert RegistryInvariant(next);
      DrainPollsQueueInOrder(next, envs[1..]);
    }
  }

  /**
   * One full cycle: from a drained queue, as many ticks as there are registered accounts poll
   * every registered account exactly once, in registry order, before any account repeats.
   */
  lemma FullCycleVisitsEachAccountOnce(s: MonitorState, envs: seq<Env>)
    requires RegistryInvariant(s) && s.running && s.queue == [] && |envs| == |s.ids|
    ensures var r := Run(s, envs);
      PolledIds(r.1) == s.ids && NoDup(PolledIds(r.1)) && r.0.queue == []
  {
    if envs != [] {
      TickPollsFront(s, envs[0]);
      var (next, t) := Tick(s, envs[0]);
      DrainPollsQueueInOrder(next, envs[1..]);
      var rest := Run(next, envs[1..]);
      assert Run(s, envs).1 == [t] + rest.1;
      assert PolledIds([t] + rest.1) == [s.ids[0]] + PolledIds(rest.1) by {
        assert ([t] + rest.1)[1..] == rest.1;
      }
      assert s.ids == [s.ids[0]] + s.ids[1..];
    }
  }

  /**
   * The empty-credentials scenario: a monitor started with no accounts waits and schedules the
   * retry of initialisation; when that timer fires and the credential source now offers an
   * account whose client can be built, the monitor registers it, polls it, and schedules the
   * next regular tick.
   */
  lemma EmptyCredentialsWaitThenRecover(stored: Store, env0: Env, env1: Env)
    requires env0.credentials == []
    requires |env1.credentials| > 0 && env1.credentials[0].0 !in env1.rejected
    ensures var (s1, t1) := Started(Initial(stored), env0);
      && t1 == Waiting && s1.running && s1.ids == [] && s1.queue == []
      && s1.timer == Some(1) && s1.scheduled == map[1 := Timer(PollIntervalMs, RetryInit)]
      && var (s2, t2) := Fired(s1, 1, env1);
      && t2.Polled? && t2.accountId == env1.credentials[0].0
      && s2.running && s2.timer == Some(2) && s2.scheduled == map[2 := Timer(PollIntervalMs, PollTick)]
  {
    var s1 := Started(Initial(stored), env0).0;
    var cleared := s1.(scheduled := map[]);
    assert s1.scheduled - {1} == map[];
    RegisteredFirst([], map[], env1.credentials, env1.rejected);
    var s2 := Initialized(cleared, env1.credentials, env1.rejected);
    WithoutNothing(s2.ids);
    TickPollsFront(s2, env1);
  }
}
